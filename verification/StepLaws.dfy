/** From one quiescent point to the next: what a whole timer step does to each snake. */
module StepLaws {
  import opened Geometry
  import opened Movement
  import opened Grid
  import opened SnakeModel
  import opened SnakeLaws
  import opened Ticks
  import opened TickLaws
  import opened BodyLaws
  import opened DeathFood
  import opened WorldModel
  import opened Packets
  import opened ServerModel

  /** A snake at a quiescent point: its numbers are in bounds, nothing waits to be reported, and it is dying only
      if dead. A dead one is a player whose head is on the map and whose other parts lie inside the death disc;
      any other lies wholly inside it, with its viewport in place. */
  ghost predicate Calm(s: SnakeState) {
    && Sane(s) && s.eaten == [] && s.spawn == []
    && (s.flags.dying <==> s.flags.dead)
    && (s.flags.dead ==> !s.bot && OnMap(s.parts[0]) && TailInside(s.parts))
    && (!s.flags.dead ==>
          && Quiet(s) && AllInside(s.parts, CENTRE, DEATH) && Watching(s)
          && (!s.bot ==> s.newS == {} && s.oldS == {}))
  }

  /** s1 came from the calm snake s0 by one tick, before any collision check. */
  ghost predicate Halfway(s0: SnakeState, s1: SnakeState, changed: bool) {
    && Sane(s1) && s1.id == s0.id && s1.bot == s0.bot && s1.clientParts == s0.clientParts
    && s1.flags.dying == s0.flags.dying && s1.flags.dead == s0.flags.dead
    && (s0.flags.dead ==> s1 == s0 && !changed)
    && (!s0.flags.dead ==>
          && TailInside(s1.parts) && OnMap(s1.parts[0]) && Watching(s1)
          && (!s0.bot ==> s1.vp == (s0.vp + s1.newS) - s1.oldS)
          && (s1.flags.pos ==> changed)
          && (!s1.flags.pos ==> s1.eaten == [] && s1.spawn == [] && AllInside(s1.parts, CENTRE, DEATH)
                                && (!s0.bot ==> s1.newS == {} && s1.oldS == {}))
          && (!changed ==> Quiet(s1)))
  }

  lemma TickHalfway(s: SnakeState, food: FoodMap, dt: nat, inp: Input)
    requires Calm(s) && FoodOk(food) && AllSizesOk(food) && dt <= 517 && Dot(inp.dir, inp.dir) == 1.0
    ensures var t := TickOne(s, food, dt, inp); Halfway(s, t.s, t.changed) && AllSizesOk(t.food)
  {
    hide Tick, AllInside, TailInside, OnMap, FoodOk, AllSizesOk, Dot, Covers, ViewCircle, StepOf;
    if !s.flags.dead {
      TickBot(s, food, dt, inp);
      TickLedger(s, food, dt, inp);
      TickContained(s, food, dt, inp);
      TickDeltaOf(s, food, dt, inp);
      TickWatching(s, food, dt, inp);
      TickFlags(s, food, dt, inp);
      if !Moves(s, dt) {
        TickIdle(s, food, dt, inp);
      }
    } else {
      DeadStays(s, food, dt, inp);
    }
  }

  lemma TickDeltaOf(s: SnakeState, food: FoodMap, dt: nat, inp: Input)
    requires Calm(s) && !s.flags.dead && FoodOk(food)
    ensures var t := Tick(s, food, dt, inp).s;
            !s.bot ==> t.vp == (s.vp + t.newS) - t.oldS && (!Moves(s, dt) ==> t.newS == {} && t.oldS == {})
  {
    hide Tick, AllInside, Watching, FoodOk;
    if !s.bot {
      TickDelta(s, food, dt, inp);
      if !Moves(s, dt) {
        TickIdle(s, food, dt, inp);
      }
    }
  }

  lemma TickWatching(s: SnakeState, food: FoodMap, dt: nat, inp: Input)
    requires FoodOk(food) && Sane(s) && Quiet(s) && dt <= 517 && Dot(inp.dir, inp.dir) == 1.0
    requires AllInside(s.parts, CENTRE, DEATH) && Watching(s)
    ensures Watching(Tick(s, food, dt, inp).s)
  {
    hide Tick, AllInside, Covers, FoodOk, Dot, ViewCircle;
    if Moves(s, dt) {
      TickCovers(s, food, dt, inp);
    } else {
      TickIdle(s, food, dt, inp);
      TickBot(s, food, dt, inp);
    }
  }

  /** A tick reports exactly when a position, angle or speed bit is up, and never marks. */
  lemma TickFlags(s: SnakeState, food: FoodMap, dt: nat, inp: Input)
    requires FoodOk(food) && Sane(s) && Quiet(s)
    ensures var t := Tick(s, food, dt, inp);
            && (t.s.flags.pos <==> Moves(s, dt)) && !t.s.flags.dying && !t.s.flags.dead
            && (t.changed <==> t.s.flags.pos || t.s.flags.angle || t.s.flags.speed)
  {
    hide Tick, Aimed, BurnPhase, NewSpeed, FoodOk, Interval, Rotate, Steer;
    if Moves(s, dt) {
      TickMoving(s, food, dt, inp);
    } else {
      TickStill(s, food, dt, inp);
      AimedFrame(s, dt, inp);
    }
  }

  lemma DeadStays(s: SnakeState, food: FoodMap, dt: nat, inp: Input)
    requires FoodOk(food) && s.flags.dead
    ensures TickOne(s, food, dt, inp) == Ticked(s, food, false)
  {
  }

  // ---------------------------------------------------------------- all snakes, and the marks

  ghost predicate AllCalm(snakes: SnakeMap) {
    forall id :: id in snakes ==> Calm(snakes[id]) && snakes[id].id == id
  }

  predicate Distinct(list: seq<nat>) {
    forall i, j :: 0 <= i < j < |list| ==> list[i] != list[j]
  }

  /** After the first n ticks: the ticked snakes are halfway, the others untouched, each change listed once. */
  ghost predicate TickedUpTo(snakes: SnakeMap, env: Env, n: nat, t: TickedAll)
    requires n <= |env.order|
  {
    && t.snakes.Keys == snakes.Keys && AllSizesOk(t.food) && Distinct(t.changes)
    && (forall id :: id in t.changes ==> id in env.order[..n])
    && (forall id :: id in env.order[..n] && id in snakes ==> Halfway(snakes[id], t.snakes[id], id in t.changes))
    && (forall id :: id !in env.order[..n] && id in snakes ==> t.snakes[id] == snakes[id])
  }

  lemma TickedStep(snakes: SnakeMap, env: Env, n: nat, t: TickedAll, r: SnakeModel.Ticked)
    requires n < |env.order| && EnvOk(env, snakes) && TickedUpTo(snakes, env, n, t)
    requires env.order[n] in snakes && Halfway(snakes[env.order[n]], r.s, r.changed) && AllSizesOk(r.food)
    ensures env.order[n] in t.snakes && t.snakes[env.order[n]] == snakes[env.order[n]]
    ensures var id := env.order[n];
            TickedUpTo(snakes, env, n + 1,
              TickedAll(t.snakes[id := r.s], r.food, if r.changed then t.changes + [id] else t.changes))
  {
    hide Halfway, AllSizesOk, EnvOk, Distinct;
    var id := env.order[n];
    OrderSplit(env, snakes, n);
    var changes := if r.changed then t.changes + [id] else t.changes;
    assert Distinct(changes) by { DistinctMore(t.changes, id); }
    assert forall j :: j in changes <==> j in t.changes || (j == id && r.changed);
  }

  lemma OrderSplit(env: Env, snakes: SnakeMap, n: nat)
    requires n < |env.order| && EnvOk(env, snakes)
    ensures env.order[n] !in env.order[..n]
    ensures forall j :: j in env.order[..n + 1] <==> j in env.order[..n] || j == env.order[n]
  {
    hide Dot;
    assert env.order[..n + 1] == env.order[..n] + [env.order[n]];
  }

  lemma DistinctMore(list: seq<nat>, id: nat)
    requires Distinct(list)
    ensures id !in list ==> Distinct(list + [id])
  {
  }

  lemma {:induction false} TickAllHalfway(snakes: SnakeMap, food: FoodMap, dt: nat, env: Env, n: nat)
    requires EnvOk(env, snakes) && AllCalm(snakes) && FoodOk(food) && AllSizesOk(food) && dt <= 517
    requires n <= |env.order|
    ensures TickedUpTo(snakes, env, n, TickAll(snakes, food, dt, env, n))
  {
    hide TickOne, Calm, Halfway, AllSizesOk, FoodOk, Dot, TickedUpTo, EnvOk;
    if n > 0 {
      TickAllHalfway(snakes, food, dt, env, n - 1);
      var t, id := TickAll(snakes, food, dt, env, n - 1), env.order[n - 1];
      EnvOrder(env, snakes, n - 1);
      TickedSizes(snakes, env, n - 1, t);
      TickHalfway(snakes[id], t.food, dt, env.inputs(id));
      TickedStep(snakes, env, n - 1, t, TickOne(snakes[id], t.food, dt, env.inputs(id)));
    } else {
      TickedStart(snakes, food, env);
    }
  }

  lemma TickedSizes(snakes: SnakeMap, env: Env, n: nat, t: TickedAll)
    requires n <= |env.order| && TickedUpTo(snakes, env, n, t)
    ensures AllSizesOk(t.food)
  {
  }

  lemma TickedStart(snakes: SnakeMap, food: FoodMap, env: Env)
    requires AllSizesOk(food)
    ensures TickedUpTo(snakes, env, 0, TickedAll(snakes, food, []))
  {
    hide Halfway, AllSizesOk;
  }

  /** s1 came from the calm snake s0 by one tick and the collision check. */
  ghost predicate After(s0: SnakeState, s1: SnakeState, changed: bool) {
    && Halfway(s0, s1.(flags := s1.flags.(dying := s0.flags.dying)), changed)
    && (s0.flags.dead ==> s1 == s0)
    && (!s0.flags.dead && s1.flags.dying ==> changed && s1.flags.pos)
    && (!s0.flags.dead && !s1.flags.dying ==> AllInside(s1.parts, CENTRE, DEATH))
  }

  lemma HalfwayAfter(snakes: SnakeMap, changes: seq<nat>, s0: SnakeState, id: nat)
    requires id in snakes && Calm(s0) && Halfway(s0, snakes[id], id in changes)
    ensures After(s0, MarkAll(snakes, changes)[id], id in changes)
  {
    hide Inside, Watching, Doomed, OnMap, Bumps;
    var h, s1 := snakes[id], MarkAll(snakes, changes)[id];
    assert s1.(flags := s1.flags.(dying := s0.flags.dying)) == h;
    if !s0.flags.dead && h.flags.pos && !s1.flags.dying {
      assert Inside(Head(h), CENTRE, DEATH) by { Undoomed(snakes, id); }
    }
  }

  lemma Undoomed(snakes: SnakeMap, id: nat)
    requires id in snakes && !Doomed(snakes, id)
    ensures Inside(Head(snakes[id]), CENTRE, DEATH)
  {
  }

  lemma CalmAfter(s: SnakeState)
    requires Calm(s)
    ensures After(s, s, false)
  {
    hide Inside, Watching, OnMap, Short;
    if !s.flags.dead {
      NearSelf(s.parts[0], 294.0);
      DiscMargin(s.parts[0], s.parts[0]);
      assert s.flags.(dying := s.flags.dying) == s.flags;
    }
  }

  /** The world after the tick of a timer step: every snake is After its calm self. */
  lemma WorldTickAfter(w: WorldState, dt: nat, env: Env)
    requires EnvOk(env, w.snakes) && AllCalm(w.snakes) && FoodOk(w.food) && AllSizesOk(w.food) && w.changes == []
    requires WholeFrames(w.ticks, dt) <= 517
    ensures var r := TickWorld(w, dt, env);
            && r.snakes.Keys == w.snakes.Keys && AllSizesOk(r.food) && Distinct(r.changes)
            && (forall id :: id in r.changes ==> id in w.snakes)
            && (forall id :: id in w.snakes ==> After(w.snakes[id], r.snakes[id], id in r.changes))
  {
    hide Calm, Halfway, After, TickAll, AllSizesOk, FoodOk, MarkAll;
    var whole := WholeFrames(w.ticks, dt);
    if whole > 0 {
      TickAllHalfway(w.snakes, w.food, whole, env, |env.order|);
      var t := TickAll(w.snakes, w.food, whole, env, |env.order|);
      assert env.order[..|env.order|] == env.order;
      forall id | id in w.snakes
        ensures After(w.snakes[id], MarkAll(t.snakes, t.changes)[id], id in t.changes)
      {
        HalfwayAfter(t.snakes, t.changes, w.snakes[id], id);
      }
    } else {
      forall id | id in w.snakes
        ensures After(w.snakes[id], w.snakes[id], false)
      {
        CalmAfter(w.snakes[id]);
      }
    }
  }

  // ---------------------------------------------------------------- turns

  /** What a turn makes of a snake. */
  function TurnOf(s: SnakeState): SnakeState {
    if s.flags.dead then s else if s.flags.dying then Buried(s) else Reported(s)
  }

  /** No lost update: after its turn, or without one if it had nothing to report, a snake is calm again,
      unless it is a bot that just died. */
  lemma TurnCalms(s0: SnakeState, s1: SnakeState, changed: bool)
    requires Calm(s0) && After(s0, s1, changed)
    ensures var s2 := if changed then TurnOf(s1) else s1;
            s2.id == s0.id && s2.bot == s0.bot && (Calm(s2) || (changed && s1.flags.dying && s1.bot))
  {
    hide AllInside, OnMap, TailInside, Covers, ViewCircle;
  }

  /** The snake table after the turns of `list`. */
  function TurnedTable(snakes: SnakeMap, list: seq<nat>): SnakeMap {
    map id | id in snakes :: if id in list then TurnOf(snakes[id]) else snakes[id]
  }

  /** Ids of the bots that die in these turns. */
  predicate DiesHere(snakes: SnakeMap, id: nat) {
    id in snakes && snakes[id].flags.dying && !snakes[id].flags.dead && snakes[id].bot
  }

  /** The broadcast stands where the turns of `list` lead. */
  ghost predicate TurnedBy(sv: Server, list: seq<nat>, b: Broadcast) {
    && b.sv.snakes == TurnedTable(sv.snakes, list)
    && b.sv == sv.(snakes := b.sv.snakes, food := b.sv.food, clients := b.sv.clients)
    && b.sv.clients.Keys == sv.clients.Keys
    && (forall id :: id in b.dead <==> id in list && DiesHere(sv.snakes, id))
  }

  lemma TurnedStep(sv: Server, list: seq<nat>, b: Broadcast, id: nat, env: Env)
    requires FoodOk(b.sv.food) && TurnedBy(sv, list, b) && id in sv.snakes && id !in list
    ensures TurnedBy(sv, list + [id], TakeTurn(b, id, env))
  {
    hide Reported, Buried, FoodOk, Remains, Fallen, PointOfView, PublicPackets, ObituaryPackets, ApplyAll;
    assert b.sv.snakes[id] == sv.snakes[id];
    TurnedMore(sv.snakes, list, id);
  }

  lemma TurnedMore(snakes: SnakeMap, list: seq<nat>, id: nat)
    requires id in snakes && id !in list
    ensures TurnedTable(snakes, list + [id]) == TurnedTable(snakes, list)[id := TurnOf(snakes[id])]
  {
    hide TurnOf;
  }

  lemma {:induction false} TurnsTable(sv: Server, changes: seq<nat>, env: Env, n: nat)
    requires FoodOk(sv.food) && n <= |changes| && Distinct(changes)
    requires forall i :: 0 <= i < |changes| ==> changes[i] in sv.snakes
    ensures TurnedBy(sv, changes[..n], Turns(Broadcast(sv, []), changes, env, n))
  {
    hide TakeTurn, FoodOk, TurnedBy;
    if n > 0 {
      TurnsTable(sv, changes, env, n - 1);
      var id := changes[n - 1];
      assert changes[..n] == changes[..n - 1] + [id];
      assert id !in changes[..n - 1];
      TurnedStep(sv, changes[..n - 1], Turns(Broadcast(sv, []), changes, env, n - 1), id, env);
    } else {
      assert changes[..0] == [];
      TurnedNone(sv);
    }
  }

  lemma TurnedNone(sv: Server)
    ensures TurnedBy(sv, [], Broadcast(sv, []))
  {
    hide TurnOf;
    assert TurnedTable(sv.snakes, []) == sv.snakes;
  }

  lemma {:induction false} BuryRemoves(sv: Server, dead: seq<nat>)
    ensures Bury(sv, dead).snakes == sv.snakes - set id | id in dead
    ensures Bury(sv, dead).connections == sv.connections - set id | id in dead
  {
    if dead != [] {
      var n := |dead| - 1;
      BuryRemoves(sv, dead[..n]);
      assert (set id | id in dead) == (set id | id in dead[..n]) + {dead[n]};
    }
  }

  /** How a timer step looks from the tables: w is the world after the tick, r the server at the end. */
  ghost predicate StepShape(sv: Server, w: WorldState, r: Server) {
    && w.snakes.Keys == sv.snakes.Keys
    && r.snakes.Keys == (set id | id in sv.snakes && !(id in w.changes && DiesHere(w.snakes, id)))
    && (forall id :: id in r.snakes ==>
          r.snakes[id] == if id in w.changes then TurnOf(w.snakes[id]) else w.snakes[id])
    && r.sessions == sv.sessions && r.lastId == sv.lastId
    && r.connections == sv.connections - (set id | id in w.changes && DiesHere(w.snakes, id))
    && r.clients.Keys == sv.clients.Keys
  }

  /** A timer step at the level of the snake table: tick and mark, turns for the changed, dead bots out. */
  lemma TimerTable(sv: Server, dt: nat, env: Env)
    requires FoodOk(sv.food) && AllCalm(sv.snakes) && AllSizesOk(sv.food) && EnvOk(env, sv.snakes)
    requires WholeFrames(sv.ticks, dt) <= 517
    ensures StepShape(sv, TickWorld(WorldOf(sv), dt, env), Timer(sv, dt, env))
  {
    hide TickWorld, FoodOk, AllSizesOk, AllCalm, EnvOk, Turns, TurnOf, After;
    WorldTickAfter(WorldOf(sv), dt, env);
    var w := TickWorld(WorldOf(sv), dt, env);
    var mid := sv.(snakes := w.snakes, food := w.food, ticks := w.ticks);
    TurnsTable(mid, w.changes, env, |w.changes|);
    assert w.changes[..|w.changes|] == w.changes;
    var b := Turns(Broadcast(mid, []), w.changes, env, |w.changes|);
    BuryRemoves(b.sv, b.dead);
    assert (set id | id in b.dead) == (set id | id in w.changes && DiesHere(w.snakes, id));
  }

  /** Exactly-once death and no lost update, whole step: every snake that was calm is calm again after a timer
      step, except the bots that died in it, which are gone; a snake marked in the step is dead at its end. */
  lemma TimerCalms(sv: Server, dt: nat, env: Env)
    requires FoodOk(sv.food) && AllCalm(sv.snakes) && AllSizesOk(sv.food) && EnvOk(env, sv.snakes)
    requires WholeFrames(sv.ticks, dt) <= 517
    ensures AllCalm(Timer(sv, dt, env).snakes)
    ensures forall id :: id in Timer(sv, dt, env).snakes ==>
              id in sv.snakes && Timer(sv, dt, env).snakes[id].bot == sv.snakes[id].bot
    ensures forall id :: id in sv.snakes && id !in Timer(sv, dt, env).snakes ==> sv.snakes[id].bot
  {
    hide TickWorld, FoodOk, AllSizesOk, EnvOk, Timer, TurnOf, After, Calm;
    TimerTable(sv, dt, env);
    WorldTickAfter(WorldOf(sv), dt, env);
    var w, r := TickWorld(WorldOf(sv), dt, env), Timer(sv, dt, env);
    forall id | id in r.snakes
      ensures Calm(r.snakes[id]) && r.snakes[id].id == id && r.snakes[id].bot == sv.snakes[id].bot
    {
      TurnCalms(sv.snakes[id], w.snakes[id], id in w.changes);
      AfterDead(sv.snakes[id], w.snakes[id], id in w.changes);
    }
    forall id | id in sv.snakes && id !in r.snakes
      ensures sv.snakes[id].bot
    {
      AfterDead(sv.snakes[id], w.snakes[id], id in w.changes);
    }
  }

  lemma AfterDead(s0: SnakeState, s1: SnakeState, changed: bool)
    requires After(s0, s1, changed)
    ensures s1.flags.dead == s0.flags.dead && (s0.flags.dead ==> !changed) && s1.bot == s0.bot && s1.id == s0.id
  {
    hide AllInside, Watching, OnMap, TailInside;
  }
}
