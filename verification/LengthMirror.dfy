/** Body lengths on the clients: each move changes a client's count of a snake by the same step as the
    server's own counter, so their difference never changes after the snake was introduced. */
module LengthMirror {
  import opened Movement
  import opened SnakeLaws
  import opened FoodList
  import opened SnakeModel
  import opened BodyLaws
  import opened DeathFood
  import opened WorldModel
  import opened Packets
  import opened ServerModel
  import opened StepLaws
  import opened MirrorLaws

  /** Every session has been introduced to every snake that is not dead. */
  ghost predicate Introduced(sv: Server) {
    forall h, id :: h in sv.clients && id in sv.snakes && !sv.snakes[id].flags.dead ==> id in sv.clients[h].lengths
  }

  /** How far the client's count of a snake is from the server's `clientPartsIndex`. */
  function Drift(sv: Server, h: nat, id: nat): int
    requires h in sv.clients && id in sv.snakes && id in sv.clients[h].lengths
  {
    sv.clients[h].lengths[id] - sv.snakes[id].clientParts
  }

  ghost predicate Lengthless(ps: seq<Packet>) {
    forall i :: 0 <= i < |ps| ==> !ps[i].AddSnake? && !ps[i].RemoveSnake? && !ps[i].Inc? && !ps[i].RemovePart?
  }

  lemma {:induction false} LengthlessApply(c: Client, ps: seq<Packet>)
    requires Lengthless(ps)
    ensures ApplyAll(c, ps).lengths == c.lengths
  {
    if ps != [] {
      LengthlessApply(c, ps[..|ps| - 1]);
    }
  }

  /** How a turn moves the server's counter. */
  function Shift(s: SnakeState): int {
    TurnOf(s).clientParts - s.clientParts
  }

  lemma OthersLengthless(s: SnakeState)
    ensures Lengthless(RotationPackets(s)) && Lengthless(MovePackets(s)) && Lengthless(MealPackets(s))
  {
    hide FoodPackets;
    RestLengthless(s.id, s.eaten, s.spawn);
  }

  lemma LengthShift(s: SnakeState)
    requires !s.flags.dying && !s.flags.dead
    ensures Shift(s) == if LengthPackets(s) == [] then 0 else if LengthPackets(s)[0].Inc? then 1 else -1
    ensures LengthPackets(s) != [] ==>
              LengthPackets(s)[0] == Inc(s.id, HeadPos(s), s.fullness) || LengthPackets(s)[0] == RemovePart(s.id, s.fullness)
  {
  }

  /** A live snake's packets move every client's count of it by the same amount, and no other count. */
  lemma PublicLengths(c: Client, s: SnakeState)
    requires !s.flags.dying && !s.flags.dead
    ensures ApplyAll(c, PublicPackets(s)).lengths == Grow(c, s.id, Shift(s)).lengths
  {
    hide RotationPackets, LengthPackets, MovePackets, MealPackets, Lengthless, ApplyAll, Shift;
    var rot, step, mov, meal := RotationPackets(s), LengthPackets(s), MovePackets(s), MealPackets(s);
    OthersLengthless(s);
    ApplyConcat(c, rot + (step + mov), meal);
    ApplyConcat(c, rot, step + mov);
    ApplyConcat(ApplyAll(c, rot), step, mov);
    LengthlessApply(c, rot);
    LengthlessApply(ApplyAll(ApplyAll(c, rot), step), mov);
    LengthlessApply(ApplyAll(ApplyAll(ApplyAll(c, rot), step), mov), meal);
    OnePacket(ApplyAll(c, rot), step);
    LengthShift(s);
  }

  lemma OnePacket(c: Client, step: seq<Packet>)
    requires |step| <= 1
    ensures ApplyAll(c, step) == if step == [] then c else Apply(c, step[0])
  {
    hide Apply;
    if step != [] {
      assert step[..0] == [];
      assert ApplyAll(c, []) == c;
    }
  }

  lemma RestLengthless(id: nat, eaten: seq<Food>, spawn: seq<Food>)
    ensures Lengthless(FoodPackets(id, eaten, spawn))
  {
  }

  /** A dying snake's packets strike it from every client and leave the other counts. */
  lemma ObituaryLengths(c: Client, s: SnakeState, env: Env)
    ensures ApplyAll(c, ObituaryPackets(s, env)).lengths == c.lengths - {s.id}
  {
    hide FoodPackets, Remains, FoodsOf;
    var foods, a, b := FoodPackets(s.id, s.eaten, s.spawn + FoodsOf(Remains(s, env))), RemoveSnake(s.id, true), RemoveSnake(s.id, false);
    RestLengthless(s.id, s.eaten, s.spawn + FoodsOf(Remains(s, env)));
    LengthlessApply(c, foods);
    assert foods + [a, b] == (foods + [a]) + [b];
    ApplySnoc(c, foods + [a], b);
    ApplySnoc(c, foods, a);
  }

  lemma TurnLengths(b: Broadcast, id: nat, env: Env, h: nat, j: nat)
    requires FoodOk(b.sv.food) && id in b.sv.snakes && b.sv.snakes[id].id == id && !b.sv.snakes[id].flags.dead
    requires h in b.sv.clients && j in b.sv.clients[h].lengths && (j == id ==> !b.sv.snakes[id].flags.dying)
    ensures var r, s := TakeTurn(b, id, env), b.sv.snakes[id];
            && h in r.sv.clients && j in r.sv.clients[h].lengths
            && r.sv.clients[h].lengths[j] == b.sv.clients[h].lengths[j] + (if j == id then Shift(s) else 0)
  {
    hide ApplyAll, Remains, Fallen, FoodOk, PublicPackets, ObituaryPackets, Reported, Buried, Shift;
    var s := b.sv.snakes[id];
    if s.flags.dying {
      ObituaryLengths(b.sv.clients[h], s, env);
      ObituaryLengths(Apply(b.sv.clients[h], End), s, env);
    } else {
      PublicLengths(b.sv.clients[h], s);
    }
  }

  /** Count of snake j on client h after n turns. */
  lemma {:induction false} TurnsLengths(mid: Server, changes: seq<nat>, env: Env, n: nat, h: nat, j: nat)
    requires FoodOk(mid.food) && n <= |changes| && Distinct(changes)
    requires forall i :: 0 <= i < |changes| ==>
               changes[i] in mid.snakes && mid.snakes[changes[i]].id == changes[i] && !mid.snakes[changes[i]].flags.dead
    requires h in mid.clients && j in mid.clients[h].lengths && j in mid.snakes && !mid.snakes[j].flags.dying
    ensures var b := Turns(Broadcast(mid, []), changes, env, n);
            && h in b.sv.clients && j in b.sv.clients[h].lengths
            && b.sv.clients[h].lengths[j] == mid.clients[h].lengths[j] + (if j in changes[..n] then Shift(mid.snakes[j]) else 0)
  {
    hide FoodOk, TakeTurn, TurnedBy, Shift;
    if n > 0 {
      TurnsLengths(mid, changes, env, n - 1, h, j);
      TurnsTable(mid, changes, env, n - 1);
      var b, id := Turns(Broadcast(mid, []), changes, env, n - 1), changes[n - 1];
      NotYet(mid, changes, n - 1, b);
      assert changes[..n] == changes[..n - 1] + [id];
      assert id !in changes[..n - 1];
      TurnLengths(b, id, env, h, j);
    } else {
      assert changes[..0] == [];
    }
  }

  lemma NotYet(mid: Server, changes: seq<nat>, n: nat, b: Broadcast)
    requires n < |changes| && Distinct(changes) && TurnedBy(mid, changes[..n], b) && changes[n] in mid.snakes
    ensures changes[n] in b.sv.snakes && b.sv.snakes[changes[n]] == mid.snakes[changes[n]]
  {
    hide TurnOf;
    assert changes[n] !in changes[..n];
  }

  lemma AfterCount(s0: SnakeState, s1: SnakeState, changed: bool)
    requires Calm(s0) && After(s0, s1, changed)
    ensures s1.clientParts == s0.clientParts && s1.flags.dead == s0.flags.dead && (s0.flags.dead ==> !changed)
    ensures !(if changed then TurnOf(s1) else s1).flags.dead ==> !s1.flags.dying
  {
    hide AllInside, Watching, OnMap, TailInside;
  }

  /** One client and one snake that survive the step. */
  lemma PairLengths(sv: Server, dt: nat, env: Env, h: nat, id: nat)
    requires StepOk(sv, dt, env) && Linked(sv) && Introduced(sv)
    requires h in sv.clients && id in Timer(sv, dt, env).snakes && !Timer(sv, dt, env).snakes[id].flags.dead
    ensures var r := Timer(sv, dt, env);
            && h in r.clients && id in r.clients[h].lengths && id in sv.snakes && id in sv.clients[h].lengths
            && Drift(r, h, id) == Drift(sv, h, id)
  {
    hide Timer, FoodOk, AllSizesOk, EnvOk, TurnOf, After, Calm, Turns, MidOf, ChangesOf, Linked, AllCalm;
    TimerSnake(sv, dt, env);
    MidFacts(sv, dt, env);
    MidSessions(sv, dt, env);
    TimerClients(sv, dt, env);
    var mid, changes := MidOf(sv, dt, env), ChangesOf(sv, dt, env);
    assert changes[..|changes|] == changes;
    forall i | 0 <= i < |changes|
      ensures !mid.snakes[changes[i]].flags.dead
    {
      CalmOne(sv, changes[i]);
      AfterCount(sv.snakes[changes[i]], mid.snakes[changes[i]], true);
    }
    CalmOne(sv, id);
    AfterCount(sv.snakes[id], mid.snakes[id], id in changes);
    TurnsLengths(mid, changes, env, |changes|, h, id);
  }

  lemma CalmOne(sv: Server, id: nat)
    requires AllCalm(sv.snakes) && id in sv.snakes
    ensures Calm(sv.snakes[id])
  {
  }

  /** Length mirror, one timer step: every session stays introduced to every living snake, and the drift of
      every pair that survives is what it was. */
  lemma TimerLengths(sv: Server, dt: nat, env: Env)
    requires StepOk(sv, dt, env) && Linked(sv) && Introduced(sv)
    ensures Introduced(Timer(sv, dt, env))
    ensures var r := Timer(sv, dt, env);
            forall h, id :: h in sv.clients && id in r.snakes && !r.snakes[id].flags.dead ==>
              && h in r.clients && id in r.clients[h].lengths && id in sv.snakes && id in sv.clients[h].lengths
              && Drift(r, h, id) == Drift(sv, h, id)
  {
    hide Timer, AllSizesOk, AllCalm, EnvOk, FoodOk, Linked, Introduced;
    TimerKeys(sv, dt, env);
    var r := Timer(sv, dt, env);
    forall h, id | h in sv.clients && id in r.snakes && !r.snakes[id].flags.dead
      ensures h in r.clients && id in r.clients[h].lengths && id in sv.snakes && id in sv.clients[h].lengths
      ensures Drift(r, h, id) == Drift(sv, h, id)
    {
      PairLengths(sv, dt, env, h, id);
    }
    IntroducedBy(r);
  }

  lemma IntroducedBy(r: Server)
    requires forall h, id :: h in r.clients && id in r.snakes && !r.snakes[id].flags.dead ==> id in r.clients[h].lengths
    ensures Introduced(r)
  {
  }

  lemma TimerKeys(sv: Server, dt: nat, env: Env)
    requires StepOk(sv, dt, env)
    ensures Timer(sv, dt, env).clients.Keys == sv.clients.Keys
  {
    hide Timer, TickWorld, FoodOk, AllSizesOk, EnvOk, AllCalm, TurnOf, DiesHere;
    TimerTable(sv, dt, env);
  }
}
