/** Delta sync: what a session's client shows is exactly its own snake's viewport. */
module MirrorLaws {
  import opened Movement
  import opened FoodList
  import opened SnakeModel
  import opened SnakeLaws
  import opened Ticks
  import opened BodyLaws
  import opened DeathFood
  import opened WorldModel
  import opened Packets
  import opened ServerModel
  import opened StepLaws

  /** Sessions, connections and players correspond one to one, so looking up the snake of a session,
      or the session of a player, always succeeds. */
  ghost predicate Linked(sv: Server) {
    && sv.clients.Keys == sv.sessions.Keys
    && (forall h :: h in sv.sessions ==>
          var id := sv.sessions[h]; id in sv.snakes && !sv.snakes[id].bot && id in sv.connections && sv.connections[id] == h)
    && (forall id :: id in sv.connections ==>
          sv.connections[id] in sv.sessions && sv.sessions[sv.connections[id]] == id)
    && (forall id :: id in sv.snakes ==> 0 < id <= sv.lastId && (!sv.snakes[id].bot ==> id in sv.connections))
  }

  /** Every client of a living player shows exactly the sectors of that player's viewport. */
  ghost predicate Synced(sv: Server) {
    forall h :: h in sv.sessions && h in sv.clients && sv.sessions[h] in sv.snakes
                && !sv.snakes[sv.sessions[h]].flags.dead
                ==> sv.clients[h].view == sv.snakes[sv.sessions[h]].vp
  }

  // ---------------------------------------------------------------- packets and views

  /** No packet of the sequence touches the view. */
  ghost predicate Blind(ps: seq<Packet>) {
    forall p :: p in ps ==> !p.AddSector? && !p.RemoveSector?
  }

  lemma {:induction false} BlindView(c: Client, ps: seq<Packet>)
    requires Blind(ps)
    ensures ApplyAll(c, ps).view == c.view
  {
    if ps != [] {
      assert ps[|ps| - 1] in ps;
      BlindView(c, ps[..|ps| - 1]);
    }
  }

  lemma BlindFood(id: nat, eaten: seq<Food>, spawn: seq<Food>)
    ensures Blind(FoodPackets(id, eaten, spawn))
  {
  }

  lemma BlindBoth(a: seq<Packet>, b: seq<Packet>)
    requires Blind(a) && Blind(b)
    ensures Blind(a + b)
  {
  }

  lemma BlindHeader(s: SnakeState)
    ensures Blind(RotationPackets(s)) && Blind(LengthPackets(s)) && Blind(MovePackets(s))
  {
  }

  lemma BlindPackets(s: SnakeState, env: Env)
    ensures Blind(PublicPackets(s)) && Blind(ObituaryPackets(s, env))
  {
    hide Blind, FoodPackets, Remains, FoodsOf, RotationPackets, LengthPackets, MovePackets;
    BlindHeader(s);
    BlindFood(s.id, [], []);
    BlindFood(s.id, s.eaten, s.spawn);
    BlindFood(s.id, s.eaten, s.spawn + FoodsOf(Remains(s, env)));
    BlindRemoval(s.id);
    BlindBoth(LengthPackets(s), MovePackets(s));
    BlindBoth(RotationPackets(s), LengthPackets(s) + MovePackets(s));
    BlindBoth(RotationPackets(s) + (LengthPackets(s) + MovePackets(s)), MealPackets(s));
    BlindBoth(FoodPackets(s.id, s.eaten, s.spawn + FoodsOf(Remains(s, env))), [RemoveSnake(s.id, true), RemoveSnake(s.id, false)]);
  }

  lemma BlindRemoval(id: nat)
    ensures Blind([RemoveSnake(id, true), RemoveSnake(id, false)]) && Blind([])
  {
  }

  /** View of client h after the turns of `list`. */
  ghost function ViewAfter(sv: Server, list: seq<nat>, h: nat): set<nat>
    requires h in sv.sessions && h in sv.clients
  {
    var id, view := sv.sessions[h], sv.clients[h].view;
    if id in list && id in sv.snakes && !sv.snakes[id].flags.dead && !sv.snakes[id].flags.dying && sv.snakes[id].flags.pos
    then view + sv.snakes[id].newS - sv.snakes[id].oldS else view
  }

  lemma TurnView(sv: Server, list: seq<nat>, b: Broadcast, id: nat, env: Env, h: nat)
    requires FoodOk(b.sv.food) && TurnedBy(sv, list, b) && id in sv.snakes && id !in list && Linked(sv)
    requires h in sv.sessions && b.sv.clients[h].view == ViewAfter(sv, list, h) && sv.snakes[id].id == id
    ensures h in TakeTurn(b, id, env).sv.clients
    ensures TakeTurn(b, id, env).sv.clients[h].view == ViewAfter(sv, list + [id], h)
  {
    hide Reported, Buried, FoodOk, Remains, Fallen, PublicPackets, ObituaryPackets, Blind, ApplyAll;
    assert b.sv.snakes[id] == sv.snakes[id];
    var s := sv.snakes[id];
    BlindPackets(s, env);
    BlindView(b.sv.clients[h], PublicPackets(s));
    BlindView(b.sv.clients[h], ObituaryPackets(s, env));
    BlindView(Apply(b.sv.clients[h], End), ObituaryPackets(s, env));
  }

  lemma {:induction false} TurnsView(sv: Server, changes: seq<nat>, env: Env, n: nat)
    requires FoodOk(sv.food) && n <= |changes| && Distinct(changes) && Linked(sv)
    requires forall i :: 0 <= i < |changes| ==> changes[i] in sv.snakes && sv.snakes[changes[i]].id == changes[i]
    ensures var b := Turns(Broadcast(sv, []), changes, env, n);
            forall h :: h in sv.sessions ==> h in b.sv.clients && b.sv.clients[h].view == ViewAfter(sv, changes[..n], h)
  {
    hide TakeTurn, FoodOk, ViewAfter, TurnedBy;
    if n > 0 {
      TurnsView(sv, changes, env, n - 1);
      TurnsTable(sv, changes, env, n - 1);
      var id, b := changes[n - 1], Turns(Broadcast(sv, []), changes, env, n - 1);
      assert changes[..n] == changes[..n - 1] + [id];
      assert id !in changes[..n - 1];
      forall h | h in sv.sessions
        ensures h in Turns(Broadcast(sv, []), changes, env, n).sv.clients
        ensures Turns(Broadcast(sv, []), changes, env, n).sv.clients[h].view == ViewAfter(sv, changes[..n], h)
      {
        TurnView(sv, changes[..n - 1], b, id, env, h);
      }
    } else {
      assert changes[..0] == [];
      NoTurnsView(sv);
    }
  }

  lemma NoTurnsView(sv: Server)
    requires Linked(sv)
    ensures forall h :: h in sv.sessions ==> h in sv.clients && sv.clients[h].view == ViewAfter(sv, [], h)
  {
  }

  // ---------------------------------------------------------------- the timer step

  /** The world after the tick keeps the links: only bodies and bits of the same snakes changed. */
  lemma LinkedMid(sv: Server, mid: Server)
    requires Linked(sv) && mid == sv.(snakes := mid.snakes, food := mid.food, ticks := mid.ticks)
    requires mid.snakes.Keys == sv.snakes.Keys
    requires forall id :: id in sv.snakes ==> mid.snakes[id].bot == sv.snakes[id].bot
    ensures Linked(mid)
  {
  }

  /** A living player's viewport after its step is what the deltas make of the old one. */
  lemma SessionSynced(s0: SnakeState, s1: SnakeState, changed: bool)
    requires Calm(s0) && After(s0, s1, changed) && !s0.bot
    requires !(if changed then TurnOf(s1) else s1).flags.dead
    ensures !s0.flags.dead && !s1.flags.dead && !s1.flags.dying
    ensures (if changed then TurnOf(s1) else s1).vp
            == (if changed && s1.flags.pos then s0.vp + s1.newS - s1.oldS else s0.vp)
  {
    hide AllInside, Watching, OnMap, TailInside, Sane;
  }

  lemma LinkedShrunk(sv: Server, r: Server, gone: set<nat>)
    requires Linked(sv) && r.sessions == sv.sessions && r.lastId == sv.lastId && r.clients.Keys == sv.clients.Keys
    requires r.connections == sv.connections - gone
    requires forall id :: id in r.snakes <==> id in sv.snakes && id !in gone
    requires forall id :: id in gone && id in sv.snakes ==> sv.snakes[id].bot
    requires forall id :: id in r.snakes ==> r.snakes[id].bot == sv.snakes[id].bot
    ensures Linked(r)
  {
  }

  /** The server between the world's tick and the broadcast. */
  ghost function MidOf(sv: Server, dt: nat, env: Env): (mid: Server)
    requires FoodOk(sv.food)
    ensures FoodOk(mid.food)
  {
    var w := TickWorld(WorldOf(sv), dt, env);
    sv.(snakes := w.snakes, food := w.food, ticks := w.ticks)
  }

  ghost function ChangesOf(sv: Server, dt: nat, env: Env): seq<nat>
    requires FoodOk(sv.food)
  {
    TickWorld(WorldOf(sv), dt, env).changes
  }

  /** What is needed to take a timer step: calm snakes, sane food, a proper environment, at most 510 ms. */
  ghost predicate StepOk(sv: Server, dt: nat, env: Env) {
    FoodOk(sv.food) && AllSizesOk(sv.food) && AllCalm(sv.snakes) && EnvOk(env, sv.snakes) && WholeFrames(sv.ticks, dt) <= 517
  }

  lemma MidFacts(sv: Server, dt: nat, env: Env)
    requires StepOk(sv, dt, env) && Linked(sv)
    ensures var mid, changes := MidOf(sv, dt, env), ChangesOf(sv, dt, env);
            && Linked(mid) && Distinct(changes) && mid.snakes.Keys == sv.snakes.Keys
            && (forall i :: 0 <= i < |changes| ==> changes[i] in mid.snakes && mid.snakes[changes[i]].id == changes[i])
            && (forall id :: id in sv.snakes ==>
                  After(sv.snakes[id], mid.snakes[id], id in changes) && mid.snakes[id].id == id)
  {
    hide TickWorld, FoodOk, AllSizesOk, EnvOk, After, Calm, Linked;
    WorldTickAfter(WorldOf(sv), dt, env);
    MidKept(sv, TickWorld(WorldOf(sv), dt, env), dt, env);
    LinkedMid(sv, MidOf(sv, dt, env));
  }

  lemma TimerClients(sv: Server, dt: nat, env: Env)
    requires FoodOk(sv.food)
    ensures var mid, changes := MidOf(sv, dt, env), ChangesOf(sv, dt, env);
            Timer(sv, dt, env).clients == Turns(Broadcast(mid, []), changes, env, |changes|).sv.clients
  {
    hide TickWorld, Turns, FoodOk;
  }

  lemma TimerLinked(sv: Server, dt: nat, env: Env)
    requires StepOk(sv, dt, env) && Linked(sv)
    ensures Linked(Timer(sv, dt, env))
  {
    hide Timer, TickWorld, FoodOk, AllSizesOk, EnvOk, AllCalm, Linked, TurnOf;
    TimerTable(sv, dt, env);
    TimerCalms(sv, dt, env);
    var w, r := TickWorld(WorldOf(sv), dt, env), Timer(sv, dt, env);
    var gone := set id | id in w.changes && DiesHere(w.snakes, id);
    LinkedShrunk(sv, r, gone);
  }

  /** Delta sync, one timer step: the links hold again and every living player's client shows its viewport. */
  lemma TimerSynced(sv: Server, dt: nat, env: Env)
    requires StepOk(sv, dt, env) && Linked(sv) && Synced(sv)
    ensures Linked(Timer(sv, dt, env)) && Synced(Timer(sv, dt, env))
  {
    hide Timer, TickWorld, FoodOk, AllSizesOk, EnvOk, TurnOf, After, Calm, Turns, DiesHere, MidOf, ChangesOf;
    TimerLinked(sv, dt, env);
    TimerSnake(sv, dt, env);
    MidFacts(sv, dt, env);
    TimerClients(sv, dt, env);
    var mid, changes, r := MidOf(sv, dt, env), ChangesOf(sv, dt, env), Timer(sv, dt, env);
    TurnsView(mid, changes, env, |changes|);
    assert changes[..|changes|] == changes;
    MidSessions(sv, dt, env);
    forall h | h in r.sessions && !r.snakes[r.sessions[h]].flags.dead
      ensures r.clients[h].view == r.snakes[r.sessions[h]].vp
    {
      var id := sv.sessions[h];
      SessionSynced(sv.snakes[id], mid.snakes[id], id in changes);
    }
  }

  lemma MidSessions(sv: Server, dt: nat, env: Env)
    requires FoodOk(sv.food)
    ensures MidOf(sv, dt, env).sessions == sv.sessions && MidOf(sv, dt, env).clients == sv.clients
    ensures MidOf(sv, dt, env).connections == sv.connections
  {
    hide TickWorld;
  }

  /** Snakes of a timer step, in terms of the middle state. */
  lemma TimerSnake(sv: Server, dt: nat, env: Env)
    requires StepOk(sv, dt, env)
    ensures var mid, changes, r := MidOf(sv, dt, env), ChangesOf(sv, dt, env), Timer(sv, dt, env);
            && r.sessions == sv.sessions && mid.snakes.Keys == sv.snakes.Keys && r.snakes.Keys <= sv.snakes.Keys
            && (forall id :: id in r.snakes ==>
                  r.snakes[id] == if id in changes then TurnOf(mid.snakes[id]) else mid.snakes[id])
  {
    hide Timer, TickWorld, FoodOk, AllSizesOk, EnvOk, AllCalm, TurnOf, DiesHere;
    TimerTable(sv, dt, env);
  }

  lemma MidKept(sv: Server, w: WorldState, dt: nat, env: Env)
    requires AllCalm(sv.snakes) && w.snakes.Keys == sv.snakes.Keys
    requires forall id :: id in sv.snakes ==> After(sv.snakes[id], w.snakes[id], id in w.changes)
    ensures forall id :: id in sv.snakes ==> w.snakes[id].id == id && w.snakes[id].bot == sv.snakes[id].bot
  {
    hide After, Calm;
    forall id | id in sv.snakes
      ensures w.snakes[id].id == id && w.snakes[id].bot == sv.snakes[id].bot
    {
      AfterDead(sv.snakes[id], w.snakes[id], id in w.changes);
    }
  }
}
