/** What clients are told of the snakes: head, angle and speed of every living snake, the fullness of a player's
    own, and whether it died. */
module StatusMirror {
  import opened Geometry
  import opened Config
  import opened Movement
  import opened Grid
  import opened FoodList
  import opened Birth
  import opened SnakeModel
  import opened SnakeLaws
  import opened Ticks
  import opened TickLaws
  import opened BodyLaws
  import opened DeathFood
  import opened WorldModel
  import opened Packets
  import opened ServerModel
  import opened StepLaws
  import opened MirrorLaws
  import opened LengthMirror
  import opened Runs
  import opened RunLaws
  import opened RunBodies

  // ---------------------------------------------------------------- one tick

  /** What a tick left alone without a bit: no position bit, same head and fullness; no angle bit, same angle;
      no speed bit, same speed; no fullness bit, same fullness. */
  ghost predicate Honest(s: SnakeState, t: SnakeState) {
    && (!t.flags.pos ==> HeadPos(t) == HeadPos(s) && t.fullness == s.fullness)
    && (!t.flags.angle ==> t.angle == s.angle)
    && (!t.flags.speed ==> t.speed == s.speed)
    && (!t.flags.fullness ==> t.fullness == s.fullness)
  }

  lemma {:induction false} GulpFlag(s: SnakeState, foods: seq<Food>)
    ensures var r := Gulp(s, foods);
            !r.flags.fullness ==> r.fullness == s.fullness && !s.flags.fullness
  {
    hide Tail;
    if foods != [] {
      GulpFlag(s, foods[..|foods| - 1]);
    }
  }

  lemma EatFlag(o: Pair)
    requires FoodOk(o.food)
    ensures var r := EatFood(o).s; !r.flags.fullness ==> r.fullness == o.s.fullness && !o.s.flags.fullness
  {
    hide Trunc, Reach, InRange, Eat, Gulp;
    var h := Head(o.s);
    var i, j, r := Trunc(h.x) / SECTOR_SIZE, Trunc(h.y) / SECTOR_SIZE, Reach(|o.s.parts|);
    if InMap(i, j) {
      GulpFlag(o.s, Eat(o.food[Index(i, j)], Trunc(h.x), InRange(Trunc(h.x), Trunc(h.y), r * r)).eaten);
    }
  }

  lemma BurnFlag(o: Pair)
    requires FoodOk(o.food)
    ensures var r := Burn(o).s; !r.flags.fullness ==> r.fullness == o.s.fullness && !o.s.flags.fullness
  {
    hide DropTail;
  }

  lemma StillAngle(s: SnakeState, dt: nat)
    ensures !Rotate(s, dt).changed ==> Rotate(s, dt).s.angle == s.angle
  {
    hide SnakeModel.Turn, SnakeModel.Rotation;
  }

  lemma AimedAngle(s: SnakeState, dt: nat, inp: Input)
    ensures !Rotate(Steer(s, dt, inp.atan2), dt).changed ==> Aimed(s, dt, inp).angle == s.angle
  {
    hide Rotate, Steer;
    SteerFrame(s, dt, inp.atan2);
    StillAngle(Steer(s, dt, inp.atan2), dt);
  }

  lemma TickHonest(s: SnakeState, food: FoodMap, dt: nat, inp: Input)
    requires FoodOk(food) && Sane(s) && Quiet(s)
    ensures Honest(s, Tick(s, food, dt, inp).s)
  {
    hide Aimed, Tick, EatFood, Burn, Interval, FoodOk, Trunc, Rotate, Steer, Frames, AdvancePhase, Distance;
    AimedFrame(s, dt, inp);
    AimedAngle(s, dt, inp);
    if Moves(s, dt) {
      var a := Aimed(s, dt, inp);
      TickMoving(s, food, dt, inp);
      AdvanceFrame(a, dt, inp.dir);
      var p := Pair(AdvancePhase(a, dt, inp.dir), food);
      EatFrame(p);
      EatFlag(p);
      BurnFrame(EatPhase(a, food, dt, inp.dir));
      BurnFlag(EatPhase(a, food, dt, inp.dir));
      AdvanceFullness(a, dt, inp.dir);
      BurnAngle(a, food, dt, inp.dir);
    } else {
      TickStill(s, food, dt, inp);
    }
  }

  lemma AdvanceFullness(a: SnakeState, dt: nat, dir: Body)
    requires 0 < a.speed <= BOOST_SPEED && a.parts != []
    ensures var r := AdvancePhase(a, dt, dir); r.fullness == a.fullness && r.flags == a.flags && r.angle == a.angle
  {
    AdvanceFrame(a, dt, dir);
    hide AdvancePhase;
  }

  lemma BurnAngle(a: SnakeState, food: FoodMap, dt: nat, dir: Body)
    requires FoodOk(food) && 0 < a.speed <= BOOST_SPEED && a.parts != []
    ensures BurnPhase(a, food, dt, dir).s.angle == a.angle
  {
    hide EatFood, Burn, AdvancePhase, FoodOk;
    AdvanceFullness(a, dt, dir);
    EatFrame(Pair(AdvancePhase(a, dt, dir), food));
    BurnFrame(EatPhase(a, food, dt, dir));
  }

  /** Between a quiescent point and the broadcast every living snake's changes have their bits. */
  lemma MidHonest(sv: Server, dt: nat, env: Env, id: nat)
    requires Good(sv) && StepOk(sv, dt, env) && Alive(sv, id)
    ensures FoodOk(sv.food) && id in MidOf(sv, dt, env).snakes && Honest(sv.snakes[id], MidOf(sv, dt, env).snakes[id])
  {
    hide Good, FoodOk, AllSizesOk, EnvOk, MidOf, TickOne, Calm, Honest, StepOk;
    StepParts(sv, dt, env);
    CalmId(sv.snakes, id);
    if WholeFrames(sv.ticks, dt) > 0 {
      var food := TickedInStep(sv, dt, env, id);
      OneHonest(sv.snakes[id], food, WholeFrames(sv.ticks, dt), env.inputs(id));
      MarkHonest(sv.snakes[id], TickOne(sv.snakes[id], food, WholeFrames(sv.ticks, dt), env.inputs(id)).s, MidOf(sv, dt, env).snakes[id]);
    } else {
      NoWholeFrames(sv, dt, env);
      SelfHonest(sv.snakes[id]);
    }
  }

  lemma CalmId(snakes: SnakeMap, id: nat)
    requires AllCalm(snakes) && id in snakes
    ensures snakes[id].id == id && Calm(snakes[id])
  {
    hide Calm;
  }

  lemma OneHonest(s: SnakeState, food: FoodMap, dt: nat, inp: Input)
    requires FoodOk(food) && Calm(s) && !s.flags.dead
    ensures Honest(s, TickOne(s, food, dt, inp).s)
  {
    hide Tick, AllInside, Watching, FoodOk, Honest;
    TickHonest(s, food, dt, inp);
  }

  lemma MarkHonest(s: SnakeState, t: SnakeState, u: SnakeState)
    requires Honest(s, t) && SameBut(u, t)
    ensures Honest(s, u)
  {
    hide Trunc;
  }

  lemma SelfHonest(s: SnakeState)
    ensures Honest(s, s)
  {
    hide Trunc;
  }

  // ---------------------------------------------------------------- one turn

  ghost predicate Silent(ps: seq<Packet>) {
    forall i :: 0 <= i < |ps| ==> ps[i].Eaten? || ps[i].Spawned?
  }

  lemma {:induction false} SilentApply(c: Client, ps: seq<Packet>)
    requires Silent(ps)
    ensures ApplyAll(c, ps).shows == c.shows && ApplyAll(c, ps).over == c.over
  {
    if ps != [] {
      SilentApply(c, ps[..|ps| - 1]);
    }
  }

  lemma MealsSilent(id: nat, eaten: seq<Food>, spawn: seq<Food>)
    ensures Silent(FoodPackets(id, eaten, spawn))
  {
  }

  /** A status after the public packets of the snake. */
  function Reportedly(st: Status, s: SnakeState): Status {
    Status(if s.flags.pos then HeadPos(s) else st.head, if s.flags.angle then s.angle else st.angle,
           if s.flags.speed then s.speed else st.speed,
           if s.flags.pos && (s.clientParts < |s.parts| || (s.clientParts > |s.parts| && s.fullness > 0)) then s.fullness else st.full)
  }

  function ShowsAfter(shows: map<nat, Status>, s: SnakeState): map<nat, Status> {
    if s.id in shows then shows[s.id := Reportedly(shows[s.id], s)] else shows
  }

  lemma RotationShows(c: Client, s: SnakeState)
    ensures var d := ApplyAll(c, RotationPackets(s));
            && d.over == c.over
            && d.shows == if s.id in c.shows
                          then c.shows[s.id := c.shows[s.id].(angle := if s.flags.angle then s.angle else c.shows[s.id].angle,
                                                             speed := if s.flags.speed then s.speed else c.shows[s.id].speed)]
                          else c.shows
  {
    assert ApplyAll(c, []) == c;
    OnePacket(c, RotationPackets(s));
  }

  lemma StepShows(c: Client, s: SnakeState)
    ensures var d := ApplyAll(c, LengthPackets(s) + MovePackets(s));
            && d.over == c.over
            && d.shows == if s.id in c.shows
                          then c.shows[s.id := Reportedly(c.shows[s.id], s).(angle := c.shows[s.id].angle, speed := c.shows[s.id].speed)]
                          else c.shows
  {
    hide Trunc, HeadPos, ApplyAll, Apply;
    var d := if LengthPackets(s) == [] then c else Apply(c, LengthPackets(s)[0]);
    ApplyConcat(c, LengthPackets(s), MovePackets(s));
    OnePacket(c, LengthPackets(s));
    OnePacket(d, MovePackets(s));
    if !s.flags.pos {
      assert s.id in c.shows ==> c.shows[s.id := c.shows[s.id]] == c.shows;
    } else if s.clientParts < |s.parts| {
      IncShows(c, s.id, HeadPos(s), s.fullness);
    } else {
      if s.clientParts > |s.parts| {
        RemovePartShows(c, s.id, s.fullness);
      }
      MoveShows(d, s.id, HeadPos(s));
    }
  }

  lemma IncShows(c: Client, id: nat, head: Pos, full: int)
    ensures var d := Apply(c, Inc(id, head, full));
            && d.over == c.over
            && d.shows == if id in c.shows then c.shows[id := c.shows[id].(head := head, full := full)] else c.shows
  {
  }

  lemma RemovePartShows(c: Client, id: nat, full: int)
    ensures var d := Apply(c, RemovePart(id, full));
            && d.over == c.over
            && d.shows == if id in c.shows then c.shows[id := if full > 0 then c.shows[id].(full := full) else c.shows[id]] else c.shows
  {
  }

  lemma MoveShows(c: Client, id: nat, head: Pos)
    ensures var d := Apply(c, Packet.Move(id, head));
            && d.over == c.over && d.shows == if id in c.shows then c.shows[id := c.shows[id].(head := head)] else c.shows
  {
  }

  /** What a live snake's public packets do to what clients are shown: its own entry, and no other. */
  lemma PublicShows(c: Client, s: SnakeState)
    ensures ApplyAll(c, PublicPackets(s)).over == c.over
    ensures ApplyAll(c, PublicPackets(s)).shows == ShowsAfter(c.shows, s)
  {
    hide RotationPackets, LengthPackets, MovePackets, FoodPackets, ApplyAll, HeadPos, Silent;
    var rot, step, meal := RotationPackets(s), LengthPackets(s) + MovePackets(s), MealPackets(s);
    ApplyConcat(c, rot + step, meal);
    ApplyConcat(c, rot, step);
    RotationShows(c, s);
    StepShows(ApplyAll(c, rot), s);
    MealsSilent(s.id, [], []);
    MealsSilent(s.id, s.eaten, s.spawn);
    assert Silent(meal) by { NoMeal(); }
    SilentApply(ApplyAll(c, rot + step), meal);
  }

  lemma NoMeal()
    ensures Silent([])
  {
  }

  /** A dying snake's packets strike its entry and leave the others. */
  lemma ObituaryShows(c: Client, s: SnakeState, env: Env)
    ensures ApplyAll(c, ObituaryPackets(s, env)).shows == c.shows - {s.id}
    ensures ApplyAll(c, ObituaryPackets(s, env)).over == c.over
  {
    hide FoodPackets, Remains, FoodsOf, Silent;
    var foods, a, b := FoodPackets(s.id, s.eaten, s.spawn + FoodsOf(Remains(s, env))), RemoveSnake(s.id, true), RemoveSnake(s.id, false);
    MealsSilent(s.id, s.eaten, s.spawn + FoodsOf(Remains(s, env)));
    SilentApply(c, foods);
    assert foods + [a, b] == (foods + [a]) + [b];
    ApplySnoc(c, foods + [a], b);
    ApplySnoc(c, foods, a);
  }

  /** What a turn of snake id leaves client h showing of snake j. */
  function AfterTurn(st: Status, s: SnakeState, own: bool): Status {
    var r := Reportedly(st, s);
    if own && s.flags.pos && !s.bot && s.flags.fullness then r.(full := s.fullness) else r
  }

  lemma OwnShows(c: Client, s: SnakeState, food: FoodMap)
    ensures var d := OwnUpdate(c, s, food);
            && d.over == c.over
            && d.shows == if s.flags.fullness && s.id in c.shows then c.shows[s.id := c.shows[s.id].(full := s.fullness)] else c.shows
  {
    hide Shown, Home;
  }

  ghost predicate Mine(sv: Server, h: nat, id: nat) {
    id in sv.connections && sv.connections[id] == h
  }

  lemma TurnStatus(b: Broadcast, id: nat, env: Env, h: nat, j: nat)
    requires FoodOk(b.sv.food) && id in b.sv.snakes && b.sv.snakes[id].id == id && !b.sv.snakes[id].flags.dead
    requires h in b.sv.clients && j in b.sv.clients[h].shows && (j == id ==> !b.sv.snakes[id].flags.dying)
    ensures var r, s := TakeTurn(b, id, env), b.sv.snakes[id];
            && h in r.sv.clients && j in r.sv.clients[h].shows
            && r.sv.clients[h].shows[j]
               == if j == id then AfterTurn(b.sv.clients[h].shows[j], s, Mine(b.sv, h, id)) else b.sv.clients[h].shows[j]
  {
    hide ApplyAll, Remains, Fallen, FoodOk, PublicPackets, ObituaryPackets, Reported, Buried, Reportedly, OwnUpdate, HeadPos;
    var s, c := b.sv.snakes[id], b.sv.clients[h];
    if s.flags.dying {
      ObituaryShows(c, s, env);
      ObituaryShows(Apply(c, End), s, env);
    } else {
      PublicShows(c, s);
      OwnShows(ApplyAll(c, PublicPackets(s)), s, b.sv.food);
    }
  }

  /** Who is told of its death in this turn. */
  lemma TurnOver(b: Broadcast, id: nat, env: Env, h: nat)
    requires FoodOk(b.sv.food) && id in b.sv.snakes && b.sv.snakes[id].id == id && !b.sv.snakes[id].flags.dead && h in b.sv.clients
    ensures var r, s := TakeTurn(b, id, env), b.sv.snakes[id];
            h in r.sv.clients
            && (r.sv.clients[h].over <==> b.sv.clients[h].over || (s.flags.dying && !s.bot && Mine(b.sv, h, id)))
  {
    hide ApplyAll, Remains, Fallen, FoodOk, PublicPackets, ObituaryPackets, Reported, Buried, OwnUpdate, HeadPos;
    var s, c := b.sv.snakes[id], b.sv.clients[h];
    if s.flags.dying {
      ObituaryShows(c, s, env);
      ObituaryShows(Apply(c, End), s, env);
    } else {
      PublicShows(c, s);
      OwnShows(ApplyAll(c, PublicPackets(s)), s, b.sv.food);
    }
  }

  // ---------------------------------------------------------------- a broadcast

  /** The changed snakes of a broadcast: all there, none dead, none twice. */
  ghost predicate Changed(mid: Server, changes: seq<nat>) {
    && Distinct(changes)
    && forall i :: 0 <= i < |changes| ==>
         changes[i] in mid.snakes && mid.snakes[changes[i]].id == changes[i] && !mid.snakes[changes[i]].flags.dead
  }

  lemma {:induction false} TurnsStatus(mid: Server, changes: seq<nat>, env: Env, n: nat, h: nat, j: nat)
    requires FoodOk(mid.food) && n <= |changes| && Changed(mid, changes)
    requires h in mid.clients && j in mid.clients[h].shows && j in mid.snakes && !mid.snakes[j].flags.dying
    ensures var b := Turns(Broadcast(mid, []), changes, env, n);
            && h in b.sv.clients && j in b.sv.clients[h].shows
            && b.sv.clients[h].shows[j]
               == if j in changes[..n] then AfterTurn(mid.clients[h].shows[j], mid.snakes[j], Mine(mid, h, j)) else mid.clients[h].shows[j]
  {
    hide FoodOk, TakeTurn, TurnedBy, AfterTurn;
    if n > 0 {
      TurnsStatus(mid, changes, env, n - 1, h, j);
      TurnsTable(mid, changes, env, n - 1);
      var b, id := Turns(Broadcast(mid, []), changes, env, n - 1), changes[n - 1];
      NotYet(mid, changes, n - 1, b);
      SameConnections(mid, changes, n - 1, b);
      assert changes[..n] == changes[..n - 1] + [id];
      assert id !in changes[..n - 1];
      TurnStatus(b, id, env, h, j);
    } else {
      assert changes[..0] == [];
    }
  }

  lemma SameConnections(mid: Server, changes: seq<nat>, n: nat, b: Broadcast)
    requires n <= |changes| && TurnedBy(mid, changes[..n], b)
    ensures b.sv.connections == mid.connections
  {
  }

  /** One of these snakes is a dying player of session h. */
  ghost predicate Fell(mid: Server, ids: seq<nat>, h: nat) {
    exists i :: 0 <= i < |ids| && ids[i] in mid.snakes && mid.snakes[ids[i]].flags.dying && !mid.snakes[ids[i]].bot && Mine(mid, h, ids[i])
  }

  lemma FellSnoc(mid: Server, ids: seq<nat>, id: nat, h: nat)
    requires id in mid.snakes
    ensures Fell(mid, ids + [id], h) <==> Fell(mid, ids, h) || (mid.snakes[id].flags.dying && !mid.snakes[id].bot && Mine(mid, h, id))
  {
    hide Mine;
    if Fell(mid, ids, h) {
      var i :| 0 <= i < |ids| && ids[i] in mid.snakes && mid.snakes[ids[i]].flags.dying && !mid.snakes[ids[i]].bot && Mine(mid, h, ids[i]);
      assert (ids + [id])[i] == ids[i];
    }
    assert (ids + [id])[|ids|] == id;
  }

  lemma {:induction false} TurnsOver(mid: Server, changes: seq<nat>, env: Env, n: nat, h: nat)
    requires FoodOk(mid.food) && n <= |changes| && Changed(mid, changes) && h in mid.clients
    ensures var b := Turns(Broadcast(mid, []), changes, env, n);
            h in b.sv.clients
            && (b.sv.clients[h].over <==> (mid.clients[h].over || Fell(mid, changes[..n], h)))
  {
    hide FoodOk, TakeTurn, TurnedBy, Mine, Fell;
    if n > 0 {
      TurnsOver(mid, changes, env, n - 1, h);
      TurnsTable(mid, changes, env, n - 1);
      var b, id := Turns(Broadcast(mid, []), changes, env, n - 1), changes[n - 1];
      NotYet(mid, changes, n - 1, b);
      SameConnections(mid, changes, n - 1, b);
      SameMine(mid, b.sv, h, id);
      assert changes[..n] == changes[..n - 1] + [id];
      TurnOver(b, id, env, h);
      FellSnoc(mid, changes[..n - 1], id, h);
    } else {
      NobodyFell(mid, h);
      assert changes[..0] == [];
    }
  }

  lemma NobodyFell(mid: Server, h: nat)
    ensures !Fell(mid, [], h)
  {
  }

  lemma SameMine(a: Server, b: Server, h: nat, id: nat)
    requires a.connections == b.connections
    ensures Mine(a, h, id) <==> Mine(b, h, id)
  {
  }

  // ---------------------------------------------------------------- the timer step

  /** What a client is shown of a snake: its head in whole pixels, its angle and its speed as they are, and of its
      own snake the fullness. */
  ghost predicate Agrees(st: Status, s: SnakeState, own: bool) {
    && st.head == (Trunc(Head(s).x), Trunc(Head(s).y)) && st.angle == s.angle && st.speed == s.speed
    && (own ==> st.full == s.fullness)
  }

  ghost predicate Knows(sv: Server, h: nat, id: nat)
    requires h in sv.clients && id in sv.snakes
  {
    id in sv.clients[h].shows && Agrees(sv.clients[h].shows[id], sv.snakes[id], Mine(sv, h, id))
  }

  /** Every client knows every living snake. */
  ghost predicate AllKnow(sv: Server) {
    forall h, id :: h in sv.clients && Alive(sv, id) ==> Knows(sv, h, id)
  }

  /** Exactly the players whose snake died were told so. */
  ghost predicate AllTold(sv: Server) {
    forall h :: h in sv.sessions && h in sv.clients && sv.sessions[h] in sv.snakes ==>
      (sv.clients[h].over <==> sv.snakes[sv.sessions[h]].flags.dead)
  }

  /** A status that agreed before the tick agrees after the snake's turn, or without one if nothing changed. */
  lemma StaysTrue(s0: SnakeState, s1: SnakeState, changed: bool, st: Status, own: bool)
    requires Calm(s0) && !s0.flags.dead && After(s0, s1, changed) && Honest(s0, s1) && Agrees(st, s0, own) && (own ==> !s1.bot)
    ensures Agrees(if changed then AfterTurn(st, s1, own) else st, if changed then TurnOf(s1) else s1, own)
  {
    hide AllInside, Watching, OnMap, TailInside, Sane, Trunc;
  }

  lemma ChangedInStep(sv: Server, dt: nat, env: Env)
    requires StepOk(sv, dt, env) && Linked(sv)
    ensures Changed(MidOf(sv, dt, env), ChangesOf(sv, dt, env))
  {
    hide MidOf, ChangesOf, StepOk, After, Linked, AllCalm;
    MidFacts(sv, dt, env);
    StepParts(sv, dt, env);
    var mid, changes := MidOf(sv, dt, env), ChangesOf(sv, dt, env);
    forall i | 0 <= i < |changes|
      ensures !mid.snakes[changes[i]].flags.dead
    {
      CalmOne(sv, changes[i]);
      AfterCount(sv.snakes[changes[i]], mid.snakes[changes[i]], true);
    }
  }

  lemma PairKnows(sv: Server, dt: nat, env: Env, h: nat, id: nat)
    requires Good(sv) && StepOk(sv, dt, env) && h in sv.clients && AllKnow(sv) && Alive(Timer(sv, dt, env), id)
    ensures h in Timer(sv, dt, env).clients && Knows(Timer(sv, dt, env), h, id)
  {
    hide Good, Timer, StepOk, Calm, MidOf, ChangesOf, Linked, AllCalm, Honest, After, Agrees, AfterTurn, Turns, TurnOf, Changed, FoodOk, Mine;
    StepParts(sv, dt, env);
    GoodLinked(sv);
    TimerSnake(sv, dt, env);
    MidFacts(sv, dt, env);
    MidSessions(sv, dt, env);
    TimerClients(sv, dt, env);
    DeadForGood(sv, dt, env, id);
    MidHonest(sv, dt, env, id);
    ChangedInStep(sv, dt, env);
    CalmOne(sv, id);
    var mid, changes := MidOf(sv, dt, env), ChangesOf(sv, dt, env);
    assert changes[..|changes|] == changes;
    AfterCount(sv.snakes[id], mid.snakes[id], id in changes);
    assert Knows(sv, h, id);
    TurnsStatus(mid, changes, env, |changes|, h, id);
    SameMine(sv, mid, h, id);
    MineThen(sv, dt, env, h, id);
    StaysTrue(sv.snakes[id], mid.snakes[id], id in changes, sv.clients[h].shows[id], Mine(sv, h, id));
  }

  /** A snake still in the table belongs to a session as before, and never a bot. */
  lemma MineThen(sv: Server, dt: nat, env: Env, h: nat, id: nat)
    requires Good(sv) && StepOk(sv, dt, env) && Alive(Timer(sv, dt, env), id)
    ensures Mine(Timer(sv, dt, env), h, id) <==> Mine(sv, h, id)
    ensures Mine(sv, h, id) ==> id in MidOf(sv, dt, env).snakes && !MidOf(sv, dt, env).snakes[id].bot
  {
    hide Good, Timer, StepOk, TickWorld, TurnOf, DiesHere, AllCalm, After, FoodOk, AllSizesOk, EnvOk, Calm, Linked;
    StepParts(sv, dt, env);
    GoodLinked(sv);
    TimerTable(sv, dt, env);
    MidFacts(sv, dt, env);
    MineIsPlayer(sv, h, id);
    MineIsPlayer(MidOf(sv, dt, env), h, id);
    MidSessions(sv, dt, env);
  }

  lemma MineIsPlayer(sv: Server, h: nat, id: nat)
    requires Linked(sv)
    ensures Mine(sv, h, id) <==> h in sv.sessions && sv.sessions[h] == id
    ensures Mine(sv, h, id) ==> id in sv.snakes && !sv.snakes[id].bot
  {
  }

  lemma TimerKnows(sv: Server, dt: nat, env: Env)
    requires Good(sv) && StepOk(sv, dt, env) && AllKnow(sv)
    ensures AllKnow(Timer(sv, dt, env))
  {
    hide Good, Timer, StepOk, AllKnow, Knows;
    StepParts(sv, dt, env);
    TimerKeys(sv, dt, env);
    var r := Timer(sv, dt, env);
    forall h, id | h in r.clients && Alive(r, id)
      ensures Knows(r, h, id)
    {
      PairKnows(sv, dt, env, h, id);
    }
    KnownBy(r);
  }

  lemma KnownBy(r: Server)
    requires forall h, id :: h in r.clients && Alive(r, id) ==> Knows(r, h, id)
    ensures AllKnow(r)
  {
    hide Knows;
  }

  lemma OneTold(sv: Server, dt: nat, env: Env, h: nat)
    requires Good(sv) && StepOk(sv, dt, env) && AllTold(sv) && h in sv.sessions
    ensures var r := Timer(sv, dt, env);
            h in r.clients && sv.sessions[h] in r.snakes && (r.clients[h].over <==> r.snakes[sv.sessions[h]].flags.dead)
  {
    hide Good, Timer, StepOk, Calm, MidOf, ChangesOf, Linked, AllCalm, After, Turns, TurnOf, Changed, FoodOk, Mine, Fell;
    StepParts(sv, dt, env);
    GoodLinked(sv);
    TimerSnake(sv, dt, env);
    MidFacts(sv, dt, env);
    MidSessions(sv, dt, env);
    TimerClients(sv, dt, env);
    ChangedInStep(sv, dt, env);
    var id, mid, changes := sv.sessions[h], MidOf(sv, dt, env), ChangesOf(sv, dt, env);
    LinkedSession(sv, h);
    LinkedSession(mid, h);
    PlayerStays(sv, dt, env, id);
    CalmOne(sv, id);
    assert changes[..|changes|] == changes;
    Deadness(sv.snakes[id], mid.snakes[id], id in changes);
    DyingIsDead(sv.snakes[id], mid.snakes[id], id in changes);
    TurnsOver(mid, changes, env, |changes|, h);
    FellIsOwn(mid, changes, h);
  }

  lemma LinkedSession(sv: Server, h: nat)
    requires Linked(sv) && h in sv.sessions
    ensures h in sv.clients && sv.sessions[h] in sv.snakes && !sv.snakes[sv.sessions[h]].bot
  {
  }

  lemma PlayerStays(sv: Server, dt: nat, env: Env, id: nat)
    requires Good(sv) && StepOk(sv, dt, env) && id in sv.snakes && !sv.snakes[id].bot
    ensures id in Timer(sv, dt, env).snakes
  {
    hide Good, Timer, StepOk, AllCalm;
    StepParts(sv, dt, env);
    TimerCalms(sv, dt, env);
  }

  lemma DyingIsDead(s0: SnakeState, s1: SnakeState, changed: bool)
    requires After(s0, s1, changed) && Calm(s0)
    ensures s0.flags.dead ==> s1.flags.dying && s1.flags.dead
    ensures (if changed then TurnOf(s1) else s1).flags.dead <==> s0.flags.dead || (changed && s1.flags.dying)
  {
    hide AllInside, Watching, OnMap, TailInside, Sane;
  }

  /** The only dying player of a session is its own. */
  lemma FellIsOwn(mid: Server, changes: seq<nat>, h: nat)
    requires Linked(mid) && h in mid.sessions
    ensures Fell(mid, changes, h) <==> mid.sessions[h] in changes && mid.snakes[mid.sessions[h]].flags.dying
  {
    hide Linked;
    var id := mid.sessions[h];
    forall j: nat
      ensures Mine(mid, h, j) <==> j == id
    {
      MineIsPlayer(mid, h, j);
    }
    LinkedSession(mid, h);
    if id in changes {
      var i :| 0 <= i < |changes| && changes[i] == id;
      assert Mine(mid, h, changes[i]);
    }
  }

  lemma TimerTold(sv: Server, dt: nat, env: Env)
    requires Good(sv) && StepOk(sv, dt, env) && AllTold(sv)
    ensures AllTold(Timer(sv, dt, env))
  {
    hide Good, Timer, StepOk, AllTold;
    StepParts(sv, dt, env);
    var r := Timer(sv, dt, env);
    TimerSnake(sv, dt, env);
    forall h | h in r.sessions
      ensures h in r.clients && r.sessions[h] in r.snakes && (r.clients[h].over <==> r.snakes[r.sessions[h]].flags.dead)
    {
      OneTold(sv, dt, env, h);
    }
    ToldBy(r);
  }

  lemma ToldBy(r: Server)
    requires forall h :: h in r.sessions ==>
               h in r.clients && r.sessions[h] in r.snakes && (r.clients[h].over <==> r.snakes[r.sessions[h]].flags.dead)
    ensures AllTold(r)
  {
  }

  // ---------------------------------------------------------------- other events, and runs

  lemma OpenInforms(sv: Server, h: nat, skin: int, body: seq<Body>, angle: real)
    requires Good(sv) && AllKnow(sv) && AllTold(sv) && h !in sv.sessions && StartBody(body)
    ensures AllKnow(Open(sv, h, skin, body, angle)) && AllTold(Open(sv, h, skin, body, angle))
  {
    hide Good, Calm, Open, Linked, Agrees, AllKnow, AllTold, Knows;
    var r := Open(sv, h, skin, body, angle);
    var s, c := OpenShape(sv, h, skin, body, angle);
    GoodLinked(sv);
    LinkedParts(sv, h, s.id);
    forall g, id | g in r.clients && Alive(r, id)
      ensures Knows(r, g, id)
    {
      OpenKnows(sv, r, h, s, c, g, id);
    }
    KnownBy(r);
    OpenTold(sv, r, h, s, c);
  }

  lemma OpenKnows(sv: Server, r: Server, h: nat, s: SnakeState, c: Client, g: nat, id: nat)
    requires Linked(sv) && AllKnow(sv) && h !in sv.sessions && s.id == sv.lastId + 1
    requires r.snakes == sv.snakes[s.id := s] && r.connections == sv.connections[s.id := h]
    requires r.clients.Keys == sv.clients.Keys + {h} && r.clients[h] == c && c.shows.Keys == sv.snakes.Keys + {s.id}
    requires c.shows[s.id] == StatusOf(s) && forall j :: j in sv.snakes && j != s.id ==> c.shows[j] == StatusOf(sv.snakes[j])
    requires forall k :: k in sv.clients && k != h ==> r.clients[k] == Met(sv.clients[k], s)
    requires g in r.clients && Alive(r, id)
    ensures Knows(r, g, id)
  {
    hide Linked, Trunc;
    LinkedParts(sv, h, s.id);
    if id != s.id && g != h {
      assert Alive(sv, id);
      assert Knows(sv, g, id);
    }
  }

  lemma OpenTold(sv: Server, r: Server, h: nat, s: SnakeState, c: Client)
    requires Linked(sv) && AllTold(sv) && h !in sv.sessions && s.id == sv.lastId + 1 && !s.flags.dead && !c.over
    requires r.snakes == sv.snakes[s.id := s] && r.sessions == sv.sessions[h := s.id]
    requires r.clients.Keys == sv.clients.Keys + {h} && r.clients[h] == c
    requires forall k :: k in sv.clients && k != h ==> r.clients[k] == Met(sv.clients[k], s)
    ensures AllTold(r)
  {
    hide Linked, StatusOf;
    LinkedParts(sv, h, s.id);
  }

  lemma CloseInforms(sv: Server, h: nat)
    requires Linked(sv) && AllKnow(sv) && AllTold(sv)
    ensures AllKnow(Close(sv, h)) && AllTold(Close(sv, h))
  {
    hide Agrees;
    var r := Close(sv, h);
    forall g, id | g in r.clients && Alive(r, id)
      ensures Knows(r, g, id)
    {
      assert Alive(sv, id) && Knows(sv, g, id);
      assert Mine(r, g, id) <==> Mine(sv, g, id);
    }
  }

  lemma ReceiveInforms(sv: Server, h: nat, m: Message)
    requires AllKnow(sv) && AllTold(sv)
    ensures AllKnow(Receive(sv, h, m)) && AllTold(Receive(sv, h, m))
  {
    hide Trunc;
    var r := Receive(sv, h, m);
    forall g, id | g in r.clients && Alive(r, id)
      ensures Knows(r, g, id)
    {
      assert Alive(sv, id) && Knows(sv, g, id);
    }
  }

  lemma NextInforms(sv: Server, e: Event)
    requires Good(sv) && Proper(sv, e) && AllKnow(sv) && AllTold(sv)
    ensures AllKnow(Next(sv, e)) && AllTold(Next(sv, e))
  {
    hide Good, EnvOk, StartBody, Timer, Open, Close, Receive, AllKnow, AllTold, StepOk;
    match e
    case Timed(dt, env) =>
      TimerGood(sv, dt, env);
      TimerKnows(sv, dt, env);
      TimerTold(sv, dt, env);
    case Opened(h, skin, body, angle) => OpenInforms(sv, h, skin, body, angle);
    case Closed(h) =>
      GoodLinked(sv);
      CloseInforms(sv, h);
    case Received(h, m) => ReceiveInforms(sv, h, m);
  }

  /** Status mirror, whole runs: at every quiescent point each client is shown every living snake with the head,
      angle and speed it has, and its own with the fullness it has; and it was told that the game is over exactly if
      its own snake is dead. */
  lemma {:induction false} AlwaysInformed(states: seq<Server>, events: seq<Event>, i: nat)
    requires IsRun(states, events) && i < |states| && AllKnow(states[0]) && AllTold(states[0])
    ensures AllKnow(states[i]) && AllTold(states[i])
    ensures forall h, id :: h in states[i].clients && Alive(states[i], id) ==>
              && id in states[i].snakes && id in states[i].clients[h].shows
              && (var st, s := states[i].clients[h].shows[id], states[i].snakes[id];
                  && st.head == (Trunc(Head(s).x), Trunc(Head(s).y)) && st.angle == s.angle && st.speed == s.speed
                  && (h in states[i].sessions && states[i].sessions[h] == id ==> st.full == s.fullness))
  {
    hide Good, Proper, Next, AllKnow, AllTold, Alive, Trunc;
    if i > 0 {
      AlwaysInformed(states, events, i - 1);
      AlwaysGood(states, events, i - 1);
      NextInforms(states[i - 1], events[i - 1]);
    }
    AlwaysGood(states, events, i);
    forall h, id | h in states[i].clients && Alive(states[i], id)
      ensures id in states[i].snakes && Knows(states[i], h, id)
      ensures h in states[i].sessions && states[i].sessions[h] == id ==> Mine(states[i], h, id)
    {
      AliveIsKnown(states[i], h, id);
      GoodLinked(states[i]);
      MineIsPlayer(states[i], h, id);
    }
  }

  lemma AliveIsKnown(sv: Server, h: nat, id: nat)
    requires AllKnow(sv) && h in sv.clients && Alive(sv, id)
    ensures id in sv.snakes && Knows(sv, h, id)
  {
    hide Knows;
  }

  /** A server without sessions informs everybody, vacuously. */
  lemma NobodyToInform(sv: Server)
    requires sv.sessions == map[] && sv.clients == map[]
    ensures AllKnow(sv) && AllTold(sv)
  {
  }

  // ---------------------------------------------------------------- nothing waits

  /** No change of a living player's fullness waits to be sent. */
  ghost predicate AllSent(sv: Server) {
    forall id :: Alive(sv, id) && !sv.snakes[id].bot ==> !sv.snakes[id].flags.fullness
  }

  /** Only a move changes the fullness. */
  lemma TickFull(s: SnakeState, food: FoodMap, dt: nat, inp: Input)
    requires FoodOk(food) && Sane(s) && Quiet(s)
    ensures var t := Tick(s, food, dt, inp).s; t.flags.fullness && !s.flags.fullness ==> t.flags.pos
  {
    hide Tick, BurnPhase, NewSpeed, Interval, FoodOk, Aimed;
    AimedFrame(s, dt, inp);
    if Moves(s, dt) {
      TickMoving(s, food, dt, inp);
    } else {
      TickStill(s, food, dt, inp);
    }
  }

  lemma OneFull(s: SnakeState, food: FoodMap, dt: nat, inp: Input)
    requires FoodOk(food) && Calm(s) && !s.flags.dead
    ensures var t := TickOne(s, food, dt, inp).s; t.flags.fullness && !s.flags.fullness ==> t.flags.pos
  {
    hide Tick, AllInside, Watching, FoodOk;
    TickFull(s, food, dt, inp);
  }

  lemma SentByTurn(s0: SnakeState, s1: SnakeState, changed: bool)
    requires Calm(s0) && After(s0, s1, changed) && !s0.bot && !(if changed then TurnOf(s1) else s1).flags.dead
    requires s1.flags.fullness ==> s1.flags.pos
    ensures !(if changed then TurnOf(s1) else s1).flags.fullness
  {
    hide AllInside, Watching, OnMap, TailInside, Sane;
  }

  lemma SnakeSent(sv: Server, dt: nat, env: Env, id: nat)
    requires Good(sv) && StepOk(sv, dt, env) && AllSent(sv) && Alive(Timer(sv, dt, env), id) && !Timer(sv, dt, env).snakes[id].bot
    ensures !Timer(sv, dt, env).snakes[id].flags.fullness
  {
    hide Good, Timer, StepOk, Calm, MidOf, ChangesOf, Linked, AllCalm, After, TurnOf, TickOne, FoodOk;
    StepParts(sv, dt, env);
    GoodLinked(sv);
    TimerSnake(sv, dt, env);
    MidFacts(sv, dt, env);
    DeadForGood(sv, dt, env, id);
    CalmOne(sv, id);
    var s, mid, changed := sv.snakes[id], MidOf(sv, dt, env).snakes[id], id in ChangesOf(sv, dt, env);
    AfterDead(s, mid, changed);
    TurnKind(mid);
    if WholeFrames(sv.ticks, dt) > 0 {
      var food := TickedInStep(sv, dt, env, id);
      OneFull(s, food, WholeFrames(sv.ticks, dt), env.inputs(id));
    } else {
      NoWholeFrames(sv, dt, env);
    }
    SentByTurn(s, mid, changed);
  }

  lemma TurnKind(s: SnakeState)
    ensures TurnOf(s).bot == s.bot
  {
  }

  lemma NextSent(sv: Server, e: Event)
    requires Good(sv) && Proper(sv, e) && AllSent(sv)
    ensures AllSent(Next(sv, e))
  {
    hide Good, EnvOk, StartBody, Timer, StepOk, PointOfView, Tell, Centroid, Appearing, InitEntered, Linked;
    GoodTicks(sv);
    GoodLinked(sv);
    match e
    case Timed(dt, env) =>
      TimerGood(sv, dt, env);
      var r := Timer(sv, dt, env);
      forall id | Alive(r, id) && !r.snakes[id].bot
        ensures !r.snakes[id].flags.fullness
      {
        SnakeSent(sv, dt, env, id);
      }
    case Opened(_, _, _, _) =>
    case Closed(_) =>
    case Received(_, _) =>
  }

  /** No lost update of the fullness either, whole runs: from a server with no change of a player's fullness waiting,
      none ever waits at a quiescent point. */
  lemma {:induction false} AlwaysSent(states: seq<Server>, events: seq<Event>, i: nat)
    requires IsRun(states, events) && i < |states| && AllSent(states[0])
    ensures AllSent(states[i])
  {
    hide Good, Proper, Next, AllSent;
    if i > 0 {
      AlwaysSent(states, events, i - 1);
      AlwaysGood(states, events, i - 1);
      NextSent(states[i - 1], events[i - 1]);
    }
  }
}
