/** Theorems about whole runs: every sequence of proper events from a quiescent point. */
module RunLaws {
  import opened Geometry
  import opened Config
  import opened Movement
  import opened Grid
  import opened SnakeModel
  import opened SnakeLaws
  import opened Ticks
  import opened TickLaws
  import opened BodyLaws
  import opened WorldModel
  import opened ServerModel
  import opened StepLaws
  import opened MirrorLaws
  import opened LengthMirror
  import opened Birth
  import opened Boot
  import opened Runs

  /** Consecutive quiescent points of a run and the proper events between them. */
  ghost predicate IsRun(states: seq<Server>, events: seq<Event>) {
    && |states| == |events| + 1 && Good(states[0])
    && forall i :: 0 <= i < |events| ==>
         FoodOk(states[i].food) && Proper(states[i], events[i]) && states[i + 1] == Next(states[i], events[i])
  }

  /** A bot as `World::CreateSnakeBot` leaves it. */
  ghost predicate NewBot(s: SnakeState, id: nat) {
    exists skin, body, angle ::
      StartBody(body) && s == Placed(Blank(id, skin, body, angle)).(bot := true)
  }

  lemma NewBotCalm(s: SnakeState, id: nat)
    requires NewBot(s, id)
    ensures Calm(s) && s.id == id && s.bot
  {
    hide Calm, Placed, AllInside;
    var skin, body, angle :| StartBody(body) && s == Placed(Blank(id, skin, body, angle)).(bot := true);
    PlacedCalm(id, skin, body, angle);
    BotCalm(Placed(Blank(id, skin, body, angle)));
  }

  /** A server without sessions, whose bots were just placed, is at a quiescent point. */
  lemma BootGood(sv: Server)
    requires FoodOk(sv.food) && AllSizesOk(sv.food) && sv.ticks == 0
    requires sv.sessions == map[] && sv.connections == map[] && sv.clients == map[]
    requires forall id :: id in sv.snakes ==> 0 < id <= sv.lastId && NewBot(sv.snakes[id], id)
    ensures Good(sv)
  {
    hide Calm, NewBot, FoodOk, AllSizesOk;
    forall id | id in sv.snakes
      ensures Calm(sv.snakes[id]) && sv.snakes[id].id == id && sv.snakes[id].bot
    {
      NewBotCalm(sv.snakes[id], id);
    }
  }

  /** The server as `World::Init` leaves it, from proper draws, is at a quiescent point. */
  lemma InitGood(sv: Server, bots: nat, d: nat -> Draws, draw: Sower)
    requires SowerOk(draw) && forall i :: 0 <= i < bots ==> StartBody(Drawn(d(i)))
    requires |sv.food| == SECTORS && forall k :: 0 <= k < SECTORS ==> sv.food[k] == Sown(k, draw, Density(k))
    requires sv.snakes == Bots(0, d, bots) && sv.lastId == bots && sv.ticks == 0
    requires sv.sessions == map[] && sv.connections == map[] && sv.clients == map[]
    ensures Good(sv)
  {
    hide Good, StartBody, Drawn, Sown, Density, SowerOk, Bots, NewBot, Placed, Blank;
    forall k, f | 0 <= k < SECTORS && f in sv.food[k]
      ensures 0 <= f.size <= 100
    {
      SownRight(k, draw, Density(k), f);
    }
    forall id | id in sv.snakes
      ensures 0 < id <= sv.lastId && NewBot(sv.snakes[id], id)
    {
      BotsAre(0, d, bots, id);
      BotNew(id, d(id - 1));
    }
    BootGood(sv);
  }

  lemma BotNew(id: nat, w: Draws)
    requires StartBody(Drawn(w))
    ensures NewBot(Placed(Blank(id, w.skin, Drawn(w), w.angle)).(bot := true), id)
  {
    hide Placed, Blank, Drawn;
    var body := Drawn(w);
    assert StartBody(body);
  }

  lemma BotCalm(s: SnakeState)
    requires Calm(s.(newS := {}, oldS := {})) && !s.flags.dead
    ensures Calm(s.(bot := true))
  {
    hide AllInside, Covers, ViewCircle;
  }

  /** Every point of a run is quiescent. */
  lemma {:induction false} AlwaysGood(states: seq<Server>, events: seq<Event>, i: nat)
    requires IsRun(states, events) && i < |states|
    ensures Good(states[i])
  {
    hide Good, Proper, Next;
    if i > 0 {
      AlwaysGood(states, events, i - 1);
      NextGood(states[i - 1], events[i - 1]);
    }
  }

  /** Delta sync: at every point of every run each session has its own player in the world, reachable both ways,
      and while that player lives its client shows exactly the viewport, which covers the head's surroundings. */
  lemma DeltaSync(states: seq<Server>, events: seq<Event>, i: nat, h: nat)
    requires IsRun(states, events) && i < |states| && h in states[i].sessions
    ensures var sv, id := states[i], states[i].sessions[h];
            && id in sv.snakes && id in sv.connections && sv.connections[id] == h && h in sv.clients
            && (!sv.snakes[id].flags.dead ==>
                  sv.clients[h].view == sv.snakes[id].vp && Covers(sv.snakes[id].vp, Head(sv.snakes[id])))
  {
    hide IsRun, Covers, AllInside;
    AlwaysGood(states, events, i);
  }

  /** Containment and bounds: at every point of every run, each snake not dead lies wholly inside the death disc
      with nothing left to report; a dead one lies inside it but for its head, which is on the map; speed, leftover time, length and fullness of all snakes are in bounds. */
  lemma AlwaysInBounds(states: seq<Server>, events: seq<Event>, i: nat, id: nat)
    requires IsRun(states, events) && i < |states| && id in states[i].snakes
    ensures var s := states[i].snakes[id];
            && BASE_SPEED <= s.speed <= BOOST_SPEED && s.mov < 227 && |s.parts| >= 3 && 0 <= s.fullness < 100
            && ROT_INTERVAL <= Interval(s.speed) <= 227
            && (s.flags.dying <==> s.flags.dead) && (s.flags.dead ==> !s.bot)
            && (!s.flags.dead ==> AllInside(s.parts, CENTRE, DEATH) && Quiet(s))
            && OnMap(s.parts[0]) && TailInside(s.parts)
  {
    hide IsRun, Watching, AllInside, TailInside, OnMap, Linked, Synced, Introduced, Interval;
    AlwaysGood(states, events, i);
    IntervalBounds(states[i].snakes[id].speed);
    InsideOnMap(states[i].snakes[id].parts);
  }

  lemma InsideOnMap(parts: seq<Body>)
    requires parts != []
    ensures AllInside(parts, CENTRE, DEATH) ==> OnMap(parts[0]) && TailInside(parts)
  {
    hide Inside, OnMap;
    if AllInside(parts, CENTRE, DEATH) {
      NearSelf(parts[0], 294.0);
      DiscMargin(parts[0], parts[0]);
    }
  }

  // ---------------------------------------------------------------- exactly-once death

  /** Ids of the snakes that get their burial turn in this timer step. */
  ghost function Buries(sv: Server, dt: nat, env: Env): set<nat>
    requires FoodOk(sv.food)
  {
    var mid := MidOf(sv, dt, env);
    set id | id in ChangesOf(sv, dt, env) && id in mid.snakes && mid.snakes[id].flags.dying && !mid.snakes[id].flags.dead
  }

  /** An id that was given out, and whose snake is dead or gone. */
  ghost predicate Finished(sv: Server, id: nat) {
    0 < id <= sv.lastId && (id in sv.snakes ==> sv.snakes[id].flags.dead)
  }

  ghost predicate Alive(sv: Server, id: nat) {
    id in sv.snakes && !sv.snakes[id].flags.dead
  }

  /** A timer step buries exactly the snakes that are alive before it and finished after it. */
  lemma TimerBuries(sv: Server, dt: nat, env: Env, id: nat)
    requires Good(sv) && StepOk(sv, dt, env)
    ensures id in Buries(sv, dt, env) <==> Alive(sv, id) && Finished(Timer(sv, dt, env), id)
    ensures Finished(sv, id) ==> Finished(Timer(sv, dt, env), id)
  {
    hide TickWorld, FoodOk, AllSizesOk, EnvOk, Timer, After, Calm, TurnOf, StepOk, Synced, Introduced;
    StepParts(sv, dt, env);
    TimerTable(sv, dt, env);
    WorldTickAfter(WorldOf(sv), dt, env);
    var w := TickWorld(WorldOf(sv), dt, env);
    if id in sv.snakes {
      Deadness(sv.snakes[id], w.snakes[id], id in w.changes);
    }
  }

  lemma StepParts(sv: Server, dt: nat, env: Env)
    requires StepOk(sv, dt, env)
    ensures FoodOk(sv.food) && AllSizesOk(sv.food) && AllCalm(sv.snakes) && EnvOk(env, sv.snakes)
    ensures WholeFrames(sv.ticks, dt) <= 517
  {
  }

  lemma Deadness(s0: SnakeState, s1: SnakeState, changed: bool)
    requires After(s0, s1, changed) && Calm(s0)
    ensures s1.flags.dead == s0.flags.dead && (s0.flags.dead ==> !changed && s1 == s0) && s1.bot == s0.bot
    ensures !s0.flags.dead && s1.flags.dying ==> changed
    ensures TurnOf(s1).flags.dead == (s1.flags.dead || s1.flags.dying)
    ensures s0.flags.dead ==> !s0.bot
  {
    hide AllInside, Watching, OnMap, TailInside, Sane;
  }

  lemma FinishedStays(sv: Server, e: Event, id: nat)
    requires Good(sv) && Proper(sv, e) && Finished(sv, id)
    ensures Finished(Next(sv, e), id)
  {
    hide Timer, EnvOk, StartBody, Calm, AllSizesOk, FoodOk, Synced, Introduced, Placed, Blank, PointOfView, Tell;
    if e.Timed? {
      TimerGood(sv, e.dt, e.env);
      TimerBuries(sv, e.dt, e.env, id);
    }
  }

  lemma {:induction false} FinishedForever(states: seq<Server>, events: seq<Event>, i: nat, j: nat, id: nat)
    requires IsRun(states, events) && i <= j < |states| && Finished(states[i], id)
    ensures Finished(states[j], id)
  {
    hide Good, Proper, Next, Finished;
    if i < j {
      FinishedForever(states, events, i, j - 1, id);
      AlwaysGood(states, events, j - 1);
      FinishedStays(states[j - 1], events[j - 1], id);
    }
  }

  /** Event i of the run is a timer step that buries the snake. */
  ghost predicate BuriedAt(states: seq<Server>, events: seq<Event>, i: nat, id: nat)
    requires IsRun(states, events) && i < |events|
  {
    events[i].Timed? && id in Buries(states[i], events[i].dt, events[i].env)
  }

  /** Exactly-once death: a timer step of a run buries a snake exactly when it ends that snake's life, a life
      ends otherwise only by its session closing, and no snake is buried twice. */
  lemma BuriedOnce(states: seq<Server>, events: seq<Event>, i: nat, id: nat)
    requires IsRun(states, events) && i < |events|
    ensures events[i].Timed? ==>
              (BuriedAt(states, events, i, id) <==> Alive(states[i], id) && !Alive(states[i + 1], id))
    ensures Alive(states[i], id) && !Alive(states[i + 1], id) ==> events[i].Timed? || events[i].Closed?
    ensures BuriedAt(states, events, i, id) ==>
              forall j :: 0 <= j < |events| && j != i ==> !BuriedAt(states, events, j, id)
  {
    hide Good, Proper, Next, Finished, Buries;
    StepBuries(states, events, i, id);
    forall j | 0 <= j < |events| && j != i && BuriedAt(states, events, i, id) && BuriedAt(states, events, j, id)
      ensures false
    {
      StepBuries(states, events, j, id);
      if i < j {
        FinishedForever(states, events, i + 1, j, id);
      } else {
        FinishedForever(states, events, j + 1, i, id);
      }
      FinishedIsNotAlive(states[i], id);
      FinishedIsNotAlive(states[j], id);
    }
  }

  lemma FinishedIsNotAlive(sv: Server, id: nat)
    ensures Finished(sv, id) ==> !Alive(sv, id)
  {
  }

  lemma StepBuries(states: seq<Server>, events: seq<Event>, i: nat, id: nat)
    requires IsRun(states, events) && i < |events|
    ensures events[i].Timed? ==>
              (BuriedAt(states, events, i, id) <==> Alive(states[i], id) && !Alive(states[i + 1], id))
              && (BuriedAt(states, events, i, id) ==> Alive(states[i], id) && Finished(states[i + 1], id))
    ensures Alive(states[i], id) && !Alive(states[i + 1], id) ==> events[i].Timed? || events[i].Closed?
  {
    hide Good, Timer, Buries, EnvOk, StartBody, Placed, Blank, PointOfView, Tell;
    AlwaysGood(states, events, i);
    AlwaysGood(states, events, i + 1);
    GivenOut(states[i], id);
    if events[i].Timed? {
      TimerGood(states[i], events[i].dt, events[i].env);
      TimerBuries(states[i], events[i].dt, events[i].env, id);
      TimerLast(states[i], events[i].dt, events[i].env);
    }
  }

  lemma GivenOut(sv: Server, id: nat)
    requires Good(sv)
    ensures id in sv.snakes ==> 0 < id <= sv.lastId
  {
    hide Calm, AllSizesOk, FoodOk, Synced, Introduced;
  }

  lemma TimerLast(sv: Server, dt: nat, env: Env)
    requires StepOk(sv, dt, env)
    ensures Timer(sv, dt, env).lastId == sv.lastId
  {
    hide Timer, TickWorld, TurnOf, DiesHere, StepOk;
    StepParts(sv, dt, env);
    TimerTable(sv, dt, env);
  }

  /** Death is exactly being doomed: a timer step with at least one whole frame buries a living snake if and only
      if its tick moved it to where, among all snakes as ticked, its head is outside the death disc or bumps. */
  lemma DeathIsDoom(sv: Server, dt: nat, env: Env, id: nat)
    requires Good(sv) && StepOk(sv, dt, env) && Alive(sv, id) && WholeFrames(sv.ticks, dt) > 0
    ensures var t := TickAll(sv.snakes, sv.food, WholeFrames(sv.ticks, dt), env, |env.order|);
            id in Buries(sv, dt, env) <==> id in t.snakes && t.snakes[id].flags.pos && Doomed(t.snakes, id)
  {
    hide TickAll, FoodOk, AllSizesOk, EnvOk, Halfway, Calm, Doomed, Linked, Synced, Introduced;
    var whole := WholeFrames(sv.ticks, dt);
    StepParts(sv, dt, env);
    TickAllHalfway(sv.snakes, sv.food, whole, env, |env.order|);
    var t := TickAll(sv.snakes, sv.food, whole, env, |env.order|);
    assert env.order[..|env.order|] == env.order;
    assert id in env.order by { Listed(env, sv.snakes, id); }
    HalfwayFlags(sv.snakes[id], t.snakes[id], id in t.changes);
  }

  lemma Listed(env: Env, snakes: SnakeMap, id: nat)
    requires EnvOk(env, snakes) && id in snakes
    ensures id in env.order
  {
    hide Dot;
  }

  lemma HalfwayFlags(s0: SnakeState, s1: SnakeState, changed: bool)
    requires Halfway(s0, s1, changed) && Calm(s0) && !s0.flags.dead
    ensures !s1.flags.dying && !s1.flags.dead && (s1.flags.pos ==> changed)
  {
    hide AllInside, Watching, OnMap, TailInside, Sane;
  }
}
