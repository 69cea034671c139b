/** How far snakes go and how fast they turn, in numbers: for one tick, and over whole runs. */
module Paces {
  import opened Geometry
  import opened Config
  import opened Movement
  import opened SnakeModel
  import opened SnakeLaws
  import opened Ticks
  import opened BodyLaws
  import opened Control
  import opened WorldModel
  import opened ServerModel
  import opened StepLaws
  import opened MirrorLaws
  import opened Birth
  import opened Runs
  import opened RunLaws
  import opened RunBodies
  import opened RunControls

  // ---------------------------------------------------------------- one tick

  /** Travel, one tick of a living snake: along its heading the head goes speed times the time that is not left
      over, and what is left over after a move is less than the time of a step. */
  lemma TickTravels(s: SnakeState, food: FoodMap, dt: nat, inp: Input)
    requires FoodOk(food) && Sane(s) && Quiet(s)
    ensures var t := Tick(s, food, dt, inp).s;
            && t.parts != [] && t.mov <= s.mov + dt
            && t.parts[0] == s.parts[0].Plus(inp.dir.Times((s.speed * (s.mov + dt - t.mov)) as real / 1000.0))
            && t.mov == if s.mov + dt < 42000 / s.speed then s.mov + dt else (s.mov + dt) % (42000 / s.speed)
  {
    hide Tick, Aimed, BurnPhase, NewSpeed, FoodOk, Follow, NewHead, Interval;
    AimedFrame(s, dt, inp);
    TickBody(s, food, dt, inp);
    IntervalIs(s.speed);
    var i, m := Interval(s.speed), s.mov + dt;
    if Moves(s, dt) {
      TickMoving(s, food, dt, inp);
      Whole(m, i);
      HeadIs(s, dt, inp.dir);
      FollowHead(s.parts, NewHead(s, dt, inp.dir));
    } else {
      TickStill(s, food, dt, inp);
      NoTravel(s.parts[0], inp.dir);
    }
  }

  lemma IntervalIs(speed: nat)
    requires 0 < speed <= BOOST_SPEED
    ensures Interval(speed) == 42000 / speed && Interval(speed) > 0
  {
  }

  lemma HeadIs(s: SnakeState, dt: nat, dir: Body)
    requires 0 < s.speed <= BOOST_SPEED && s.parts != []
    ensures var i, m := Interval(s.speed), s.mov + dt;
            NewHead(s, dt, dir) == s.parts[0].Plus(dir.Times((s.speed * (m / i * i)) as real / 1000.0))
  {
    hide Interval;
  }

  lemma NoTravel(p: Body, dir: Body)
    ensures p == p.Plus(dir.Times(0.0))
  {
  }

  lemma Whole(m: nat, i: nat)
    requires i > 0
    ensures m - m % i == m / i * i && m % i <= m
  {
  }

  lemma FollowHead(was: seq<Body>, head: Body)
    requires was != []
    ensures Follow(was, head)[0] == head
  {
  }

  /** Turning, one tick of a player that wants another angle: every completed 93 ms bring it 0.383625 closer, or all
      the way; without a whole 93 ms nothing but the time passes. */
  lemma TickTurnsBy(s: SnakeState, food: FoodMap, dt: nat, inp: Input)
    requires FoodOk(food) && Sane(s) && Quiet(s) && !s.bot
    ensures var t := Tick(s, food, dt, inp).s;
            && t.wangle == s.wangle
            && (s.angle != s.wangle ==>
                  && Off(t.angle, s.wangle) == Max0(Off(s.angle, s.wangle) - 0.383625 * ((s.rot + dt) / 93) as real)
                  && t.rot == (s.rot + dt) % 93)
            && (s.angle == s.wangle ==> t.angle == s.angle && t.rot == s.rot)
  {
    hide Tick, Off, Interval, FoodOk, BurnPhase, SnakeModel.Turn, Max0;
    TickControls(s, food, dt, inp);
    TickAngle(s, food, dt, inp);
    if s.angle != s.wangle {
      WorthIs(s, dt);
    }
  }

  /** A player's angle after a tick is that of its rotation block. */
  lemma TickAngle(s: SnakeState, food: FoodMap, dt: nat, inp: Input)
    requires FoodOk(food) && Sane(s) && Quiet(s) && !s.bot
    ensures var t, r := Tick(s, food, dt, inp).s, Rotate(s, dt).s; t.angle == r.angle && t.rot == r.rot
  {
    hide Tick, FoodOk, Rotate, Interval, BurnPhase;
    AimedFrame(s, dt, inp);
    if Moves(s, dt) {
      TickMoving(s, food, dt, inp);
      MovingFrame(Aimed(s, dt, inp), food, dt, inp.dir);
    } else {
      TickStill(s, food, dt, inp);
    }
  }

  lemma WorthIs(s: SnakeState, dt: nat)
    requires s.angle != s.wangle
    ensures Worth(s, dt) == 0.383625 * ((s.rot + dt) / 93) as real
  {
    var f := (s.rot + dt) / 93;
    assert (f * 93) as real == f as real * 93.0;
  }

  /** From angle zero, wanting the opposite, a player has turned by 0.383625 after 93 ms. */
  lemma FirstTurn(s: SnakeState, food: FoodMap, inp: Input)
    requires FoodOk(food) && Sane(s) && Quiet(s) && !s.bot && s.angle == 0.0 && s.wangle == PI && s.rot == 0
    ensures Tick(s, food, 93, inp).s.angle == 0.383625
  {
    hide Tick, FoodOk;
    TickAngle(s, food, 93, inp);
    assert (PI / TWO_PI).Floor == 0 && (0.383625 / TWO_PI).Floor == 0;
    assert SnakeModel.Rotation(1) == 0.383625;
    assert SnakeModel.Turn(0.0, PI, 0.383625) == 0.383625;
  }

  // ---------------------------------------------------------------- time

  /** Milliseconds by which an event ticks the snakes, and milliseconds of the timer. */
  function TickedBy(sv: Server, e: Event): nat {
    if e.Timed? then WholeFrames(sv.ticks, e.dt) else 0
  }

  function TimedBy(e: Event): nat {
    if e.Timed? then e.dt else 0
  }

  /** Sums of both over the events i .. j - 1. */
  function Elapsed(states: seq<Server>, events: seq<Event>, i: nat, j: nat): nat
    requires i <= j < |states| && j <= |events|
  {
    if i == j then 0 else Elapsed(states, events, i, j - 1) + TickedBy(states[j - 1], events[j - 1])
  }

  function Clock(events: seq<Event>, i: nat, j: nat): nat
    requires i <= j <= |events|
  {
    if i == j then 0 else Clock(events, i, j - 1) + TimedBy(events[j - 1])
  }

  /** No time is lost: what the snakes were ticked by, and what is left of the last frame, is what the timer gave. */
  lemma {:induction false} ClockRuns(states: seq<Server>, events: seq<Event>, i: nat, j: nat)
    requires IsRun(states, events) && i <= j < |states|
    ensures Elapsed(states, events, i, j) + states[j].ticks == Clock(events, i, j) + states[i].ticks
    ensures states[j].ticks < 8
  {
    hide Good, Proper, Next;
    AlwaysGood(states, events, j);
    GoodTicks(states[j]);
    if i < j {
      ClockRuns(states, events, i, j - 1);
      AlwaysGood(states, events, j - 1);
      assert states[j] == Next(states[j - 1], events[j - 1]);
      NextTicks(states[j - 1], events[j - 1]);
    }
  }

  lemma NextTicks(sv: Server, e: Event)
    requires Good(sv) && Proper(sv, e)
    ensures FoodOk(sv.food) && Next(sv, e).ticks + TickedBy(sv, e) == sv.ticks + TimedBy(e)
  {
    hide Good, EnvOk, StartBody, PointOfView, Tell, Placed, Blank, FoodOk, Timer;
    GoodTicks(sv);
    if e.Timed? {
      WholeBound(sv.ticks, e.dt);
      TimerTicks(sv, e.dt, e.env);
    }
  }

  lemma TimerTicks(sv: Server, dt: nat, env: Env)
    requires FoodOk(sv.food)
    ensures Timer(sv, dt, env).ticks == sv.ticks + dt - WholeFrames(sv.ticks, dt)
  {
    hide TickSnakes, FoodOk, Turns;
    var mid, changes := MidOf(sv, dt, env), ChangesOf(sv, dt, env);
    TurnsTicks(mid, changes, env, |changes|);
  }

  // ---------------------------------------------------------------- travel, whole runs

  lemma TimerTravels(sv: Server, dt: nat, env: Env, id: nat)
    requires Good(sv) && Proper(sv, Timed(dt, env)) && FoodOk(sv.food) && Alive(Timer(sv, dt, env), id)
    ensures id in sv.snakes && sv.snakes[id].parts != [] && Timer(sv, dt, env).snakes[id].parts != []
    ensures var s, t, ms := sv.snakes[id], Timer(sv, dt, env).snakes[id], WholeFrames(sv.ticks, dt);
            && t.mov <= s.mov + ms
            && Travelled(s.parts[0], t.parts[0], (s.speed * (s.mov + ms - t.mov)) as real / 1000.0)
  {
    hide Good, Timer, EnvOk, Tick, FoodOk, AllSizesOk, MidOf, Calm, Dot, Travelled;
    var food := Survivor(sv, dt, env, id);
    var s, ms := sv.snakes[id], WholeFrames(sv.ticks, dt);
    CalmSane(s);
    if ms > 0 {
      CalmTravels(s, food, ms, env.inputs(id));
    } else {
      Stays(s.parts[0]);
    }
  }

  /** From p to q it is exactly the distance d. */
  predicate Travelled(p: Body, q: Body, d: real) {
    d >= 0.0 && Dist2(q, p) == d * d
  }

  lemma Stays(p: Body)
    ensures Travelled(p, p, 0.0)
  {
  }

  lemma CalmTravels(s: SnakeState, food: FoodMap, dt: nat, inp: Input)
    requires FoodOk(food) && Calm(s) && !s.flags.dead && Dot(inp.dir, inp.dir) == 1.0
    ensures var t := TickOne(s, food, dt, inp).s;
            && t.parts != [] && t.mov <= s.mov + dt
            && Travelled(s.parts[0], t.parts[0], (s.speed * (s.mov + dt - t.mov)) as real / 1000.0)
  {
    hide Tick, FoodOk, AllInside, Watching, Dot, Dist2;
    CalmSane(s);
    TickTravels(s, food, dt, inp);
    var t := Tick(s, food, dt, inp).s;
    var way := s.speed * (s.mov + dt - t.mov);
    assert way >= 0;
    Along(s.parts[0], inp.dir, way as real / 1000.0);
  }

  lemma Along(p: Body, dir: Body, d: real)
    requires Dot(dir, dir) == 1.0
    ensures Dist2(p.Plus(dir.Times(d)), p) == d * d
  {
    var u := p.Plus(dir.Times(d)).Minus(p);
    assert u == dir.Times(d);
    assert u.x * u.x == (d * d) * (dir.x * dir.x) && u.y * u.y == (d * d) * (dir.y * dir.y);
    assert (d * d) * (dir.x * dir.x) + (d * d) * (dir.y * dir.y) == (d * d) * Dot(dir, dir);
  }

  lemma NextTravels(sv: Server, e: Event, id: nat)
    requires Good(sv) && Proper(sv, e) && Alive(sv, id) && Alive(Next(sv, e), id)
    ensures var s, t, ms := sv.snakes[id], Next(sv, e).snakes[id], TickedBy(sv, e);
            && t.mov <= s.mov + ms
            && Travelled(Head(s), Head(t), (s.speed * (s.mov + ms - t.mov)) as real / 1000.0)
  {
    hide Good, Proper, Timer, FoodOk, Open, Close, Receive, Travelled, Calm;
    GoodTicks(sv);
    if e.Timed? {
      TimerTravels(sv, e.dt, e.env, id);
    } else {
      OtherBodies(sv, e, id);
      Stays(Head(sv.snakes[id]));
    }
  }

  /** Between i and j the snake lives, and at each point before j it has this speed. */
  ghost predicate Cruises(states: seq<Server>, id: nat, v: nat, i: nat, j: nat)
    requires i <= j < |states|
  {
    && (forall k :: i <= k <= j ==> Alive(states[k], id))
    && (forall k :: i <= k < j ==> Alive(states[k], id) && states[k].snakes[id].speed == v)
  }

  /** The list holds the distances between the heads at i, i + 1, .. , j. */
  ghost predicate Legs(states: seq<Server>, id: nat, legs: seq<real>, i: nat, j: nat)
    requires i <= j < |states| && There(states, id, i, j)
  {
    |legs| == j - i
    && forall k :: i < k <= j ==> Travelled(Head(states[k - 1].snakes[id]), Head(states[k].snakes[id]), legs[k - 1 - i])
  }

  /** Travel, whole runs: while a snake has the same speed, the length of the path of its head is that speed times
      the time it was ticked by, but for the time left over at both ends. */
  lemma {:induction false} AlwaysTravels(states: seq<Server>, events: seq<Event>, id: nat, v: nat, legs: seq<real>, i: nat, j: nat)
    requires IsRun(states, events) && i <= j < |states| && There(states, id, i, j)
    requires Cruises(states, id, v, i, j) && Legs(states, id, legs, i, j)
    ensures Total(legs) * 1000.0
            == (v * (states[i].snakes[id].mov + Elapsed(states, events, i, j) - states[j].snakes[id].mov)) as real
  {
    hide Good, Proper, Next, Travelled, Alive, Head;
    if i < j {
      var front, sv, e := legs[..|legs| - 1], states[j - 1], events[j - 1];
      assert Alive(sv, id) && Alive(states[j], id);
      AlwaysTravels(states, events, id, v, front, i, j - 1);
      AlwaysGood(states, events, j - 1);
      assert states[j] == Next(sv, e);
      NextTravels(sv, e, id);
      var s, t := sv.snakes[id], states[j].snakes[id];
      var ms := s.mov + TickedBy(sv, e) - t.mov;
      SameLength(Head(s), Head(t), legs[j - 1 - i], (v * ms) as real / 1000.0);
      Distribute(v, states[i].snakes[id].mov + Elapsed(states, events, i, j - 1) - s.mov, ms);
    }
  }

  lemma Distribute(v: nat, a: int, b: int)
    ensures v * (a + b) == v * a + v * b
  {
  }

  lemma SameLength(p: Body, q: Body, a: real, b: real)
    requires Travelled(p, q, a) && Travelled(p, q, b)
    ensures a == b
  {
    if a < b {
      StrictSquare(a, b);
    } else if b < a {
      StrictSquare(b, a);
    }
  }

  // ---------------------------------------------------------------- turning, whole runs

  /** Rotation intervals the event completes for the snake while it wants another angle. */
  function Rounds(sv: Server, e: Event, id: nat): nat {
    if TickedBy(sv, e) > 0 && id in sv.snakes && sv.snakes[id].angle != sv.snakes[id].wangle
    then (sv.snakes[id].rot + TickedBy(sv, e)) / 93 else 0
  }

  function AllRounds(states: seq<Server>, events: seq<Event>, id: nat, i: nat, j: nat): nat
    requires i <= j < |states| && j <= |events|
  {
    if i == j then 0 else AllRounds(states, events, id, i, j - 1) + Rounds(states[j - 1], events[j - 1], id)
  }

  lemma {:induction false} ArcIs(states: seq<Server>, events: seq<Event>, id: nat, i: nat, j: nat)
    requires i <= j < |states| && j <= |events|
    requires forall k :: i <= k <= j ==> Alive(states[k], id)
    ensures Arc(states, events, id, i, j) == 0.383625 * AllRounds(states, events, id, i, j) as real
  {
    hide Worth;
    if i < j {
      ArcIs(states, events, id, i, j - 1);
      var sv, e := states[j - 1], events[j - 1];
      assert Alive(sv, id);
      SwingIs(sv, e, id);
    }
  }

  lemma SwingIs(sv: Server, e: Event, id: nat)
    requires Alive(sv, id)
    ensures Swing(sv, e, id) == 0.383625 * Rounds(sv, e, id) as real
  {
    hide SnakeModel.Rotation;
    if sv.snakes[id].angle != sv.snakes[id].wangle && e.Timed? {
      WorthIs(sv.snakes[id], WholeFrames(sv.ticks, e.dt));
    }
  }

  lemma HalfCircle(angle: real, w: real)
    ensures Off(angle, w) <= PI
  {
    hide TurnLeft;
    TurnLeftRange(angle, w);
  }

  /** Turning, whole runs: a player that goes on wanting a normalized angle has it after nine completed rotation
      intervals at the latest. */
  lemma NineRounds(states: seq<Server>, events: seq<Event>, id: nat, w: real, i: nat, j: nat)
    requires IsRun(states, events) && i <= j < |states| && Aims(states, id, w, i, j) && 0.0 <= w < TWO_PI
    requires Alive(states[i], id) && Alive(states[j], id) && Steered(states[i].snakes[id])
    requires AllRounds(states, events, id, i, j) >= 9
    ensures states[j].snakes[id].angle == w
  {
    hide Good, Proper, Next, FoodOk, Off, Swing;
    AngleReached(states, events, id, w, i, j);
    ArcIs(states, events, id, i, j);
    HalfCircle(states[i].snakes[id].angle, w);
  }

  lemma TimerRotates(sv: Server, dt: nat, env: Env, id: nat)
    requires Good(sv) && Proper(sv, Timed(dt, env)) && FoodOk(sv.food) && Alive(Timer(sv, dt, env), id)
    requires id in sv.snakes && !sv.snakes[id].bot && sv.snakes[id].angle != sv.snakes[id].wangle
    ensures var s, r, ms := sv.snakes[id], Timer(sv, dt, env).snakes[id], WholeFrames(sv.ticks, dt);
            if ms == 0 then r.rot == s.rot else 93 * ((s.rot + ms) / 93) + r.rot == s.rot + ms && r.rot < 93
  {
    hide Good, Timer, EnvOk, Tick, FoodOk, AllSizesOk, MidOf, Calm, Dot, Off, Max0;
    var food := Survivor(sv, dt, env, id);
    var s, ms := sv.snakes[id], WholeFrames(sv.ticks, dt);
    CalmSane(s);
    CalmQuiet(s);
    if ms > 0 {
      TickTurnsBy(s, food, ms, env.inputs(id));
    }
  }

  lemma CalmQuiet(s: SnakeState)
    requires Calm(s)
    ensures !s.flags.dead ==> Quiet(s)
  {
    hide AllInside, Watching;
  }

  lemma NextRotates(sv: Server, e: Event, id: nat, w: real)
    requires Good(sv) && Proper(sv, e) && Alive(sv, id) && Alive(Next(sv, e), id) && 0.0 <= w < TWO_PI
    requires Steered(sv.snakes[id]) && sv.snakes[id].wangle == w && Next(sv, e).snakes[id].wangle == w
    ensures var s, r := sv.snakes[id], Next(sv, e).snakes[id];
            && (s.angle == w ==> r.angle == w)
            && (s.angle != w ==> 93 * Rounds(sv, e, id) + r.rot == s.rot + TickedBy(sv, e)
                                 && (if TickedBy(sv, e) == 0 then r.rot == s.rot else r.rot < 93))
  {
    hide Good, Proper, Timer, FoodOk, Open, Close, Receive, Off, Worth, Calm;
    GoodTicks(sv);
    var s, r := sv.snakes[id], Next(sv, e).snakes[id];
    if s.angle == w {
      NextTurns(sv, e, id, w);
      SwingPositive(sv, e, id);
      ZeroOff(s.angle, w);
      ZeroOff(r.angle, w);
    } else if e.Timed? {
      TimerRotates(sv, e.dt, e.env, id);
    } else {
      OtherBodies(sv, e, id);
    }
  }

  /** Until the angle is reached no rotation time is lost. */
  lemma {:induction false} AlwaysRotates(states: seq<Server>, events: seq<Event>, id: nat, w: real, i: nat, j: nat)
    requires IsRun(states, events) && i <= j < |states| && Aims(states, id, w, i, j) && 0.0 <= w < TWO_PI
    requires There(states, id, i, j) && Steered(states[i].snakes[id])
    ensures var s, t, ms := states[i].snakes[id], states[j].snakes[id], Elapsed(states, events, i, j);
            t.angle == w || (93 * AllRounds(states, events, id, i, j) + t.rot == s.rot + ms
                             && (if ms == 0 then t.rot == s.rot else t.rot < 93))
  {
    hide Good, Proper, Next, Alive, FoodOk, Rounds, TickedBy, Off;
    if i < j {
      assert Alive(states[j - 1], id) && Alive(states[j], id) && Alive(states[i], id);
      AlwaysRotates(states, events, id, w, i, j - 1);
      AlwaysTurns(states, events, id, w, i, j - 1);
      AlwaysGood(states, events, j - 1);
      assert states[j] == Next(states[j - 1], events[j - 1]);
      NextRotates(states[j - 1], events[j - 1], id, w);
    }
  }

  /** Turning in time, whole runs: a player that goes on wanting a normalized angle has it when it was ticked by
      837 ms, wherever it looked before. */
  lemma AngleInTime(states: seq<Server>, events: seq<Event>, id: nat, w: real, i: nat, j: nat)
    requires IsRun(states, events) && i <= j < |states| && Aims(states, id, w, i, j) && 0.0 <= w < TWO_PI
    requires There(states, id, i, j) && Steered(states[i].snakes[id])
    requires Elapsed(states, events, i, j) >= 837
    ensures states[j].snakes[id].angle == w
  {
    hide Good, Proper, Next, FoodOk, Alive;
    AlwaysRotates(states, events, id, w, i, j);
    if states[j].snakes[id].angle != w {
      assert Alive(states[i], id) && Alive(states[j], id);
      NineRounds(states, events, id, w, i, j);
    }
  }

  // ---------------------------------------------------------------- boosting, whole runs

  /** A snake that goes on accelerating has speed 448 after its third move, and one that does not has 185. */
  lemma BoostReached(states: seq<Server>, events: seq<Event>, id: nat, on: bool, i: nat, j: nat)
    requires IsRun(states, events) && i <= j < |states| && There(states, id, i, j)
    requires forall k :: i <= k <= j ==> Alive(states[k], id) && states[k].snakes[id].accel == on
    requires Steps(states, events, id, i, j) >= 3
    ensures states[j].snakes[id].speed == if on then 448 else 185
  {
    hide Good, Proper, Next, FoodOk, Stepped;
    var wanted: nat := if on then 448 else 185;
    assert Lives(states, id, i, j);
    assert Wants(states, id, wanted, i, j);
    SpeedReached(states, events, id, wanted, i, j);
  }

  // ---------------------------------------------------------------- from the byte to the angle

  /** A byte asks for that many 250ths of the circle. */
  lemma ByteObeyed(s: SnakeState, b: nat)
    ensures Obey(s, Angle(b)).wangle == ByteAngle(b) == TWO_PI * (b as real / 250.0)
    ensures Obey(s, Angle(b)) == s.(wangle := ByteAngle(b), flags := s.flags.(wangle := true))
  {
  }

  /** The event is a message that gives this snake another angle to want. */
  ghost predicate Redirects(sv: Server, e: Event, id: nat) {
    e.Received? && e.m.Angle? && e.hdl in sv.sessions && sv.sessions[e.hdl] == id
  }

  lemma OtherAims(sv: Server, e: Event, id: nat)
    requires Good(sv) && Proper(sv, e) && !e.Timed? && id in sv.snakes && id in Next(sv, e).snakes && !Redirects(sv, e, id)
    ensures Next(sv, e).snakes[id].wangle == sv.snakes[id].wangle && Next(sv, e).snakes[id].bot == sv.snakes[id].bot
  {
    hide Good, Linked, StartBody, PointOfView, Tell, Centroid, Placed, Blank, AllCalm, FoodOk, AllSizesOk, Synced;
    GoodTicks(sv);
    GivenOut(sv, id);
    match e
    case Opened(_, _, _, _) =>
    case Closed(_) =>
    case Received(_, _) =>
  }

  lemma TimerAims(sv: Server, dt: nat, env: Env, id: nat)
    requires Good(sv) && Proper(sv, Timed(dt, env)) && FoodOk(sv.food) && Alive(Timer(sv, dt, env), id)
    requires id in sv.snakes && !sv.snakes[id].bot
    ensures var s, r := sv.snakes[id], Timer(sv, dt, env).snakes[id]; r.wangle == s.wangle && r.bot == s.bot
  {
    hide Good, Timer, EnvOk, Tick, FoodOk, AllSizesOk, MidOf, Calm, Dot, Off, Max0;
    var food := Survivor(sv, dt, env, id);
    var s, ms := sv.snakes[id], WholeFrames(sv.ticks, dt);
    CalmSane(s);
    CalmQuiet(s);
    if ms > 0 {
      TickTurnsBy(s, food, ms, env.inputs(id));
      TickKeepsKind(s, food, ms, env.inputs(id));
    }
  }

  lemma NextAims(sv: Server, e: Event, id: nat)
    requires Good(sv) && Proper(sv, e) && Alive(sv, id) && Alive(Next(sv, e), id) && !sv.snakes[id].bot && !Redirects(sv, e, id)
    ensures Next(sv, e).snakes[id].wangle == sv.snakes[id].wangle && Next(sv, e).snakes[id].bot == sv.snakes[id].bot
  {
    hide Good, Proper, Timer, FoodOk, Open, Close, Receive, Redirects;
    GoodTicks(sv);
    if e.Timed? {
      TimerAims(sv, e.dt, e.env, id);
    } else {
      OtherAims(sv, e, id);
    }
  }

  /** A player keeps the angle it wants while no message redirects it. */
  lemma {:induction false} AlwaysAims(states: seq<Server>, events: seq<Event>, id: nat, i: nat, j: nat)
    requires IsRun(states, events) && i <= j < |states| && There(states, id, i, j)
    requires forall k :: i <= k <= j ==> Alive(states[k], id)
    requires !states[i].snakes[id].bot && forall k :: i <= k < j ==> !Redirects(states[k], events[k], id)
    ensures !states[j].snakes[id].bot && states[j].snakes[id].wangle == states[i].snakes[id].wangle
  {
    hide Good, Proper, Next, Alive, Redirects;
    if i < j {
      assert Alive(states[j - 1], id) && Alive(states[j], id);
      AlwaysAims(states, events, id, i, j - 1);
      AlwaysGood(states, events, j - 1);
      assert states[j] == Next(states[j - 1], events[j - 1]);
      NextAims(states[j - 1], events[j - 1], id);
    }
  }

  /** From the byte to the angle, whole runs: 837 ms after a session's byte below 250 arrived, its snake's angle is that
      many 250ths of the circle, if the snake lives and no other byte came since. */
  lemma ByteInTime(states: seq<Server>, events: seq<Event>, id: nat, h: nat, b: nat, i: nat, j: nat)
    requires IsRun(states, events) && i < j < |states| && There(states, id, i, j)
    requires forall k :: i <= k <= j ==> Alive(states[k], id)
    requires events[i] == Received(h, Angle(b)) && b < 250 && h in states[i].sessions && states[i].sessions[h] == id
    requires forall k :: i < k < j ==> !Redirects(states[k], events[k], id)
    requires 0.0 <= states[i].snakes[id].angle < TWO_PI && Elapsed(states, events, i + 1, j) >= 837
    ensures states[j].snakes[id].angle == TWO_PI * (b as real / 250.0)
  {
    hide Good, Proper, Linked, FoodOk, Redirects, Timer, Open, Close;
    var w, was := TWO_PI * (b as real / 250.0), states[i].snakes[id];
    AlwaysGood(states, events, i);
    GoodLinked(states[i]);
    PlayerOf(states[i], h);
    ByteObeyed(was, b);
    assert states[i + 1] == Next(states[i], events[i]);
    assert states[i + 1].snakes[id] == Obey(was, Angle(b));
    forall k | i + 1 <= k <= j
      ensures Alive(states[k], id) && states[k].snakes[id].wangle == w
    {
      AlwaysAims(states, events, id, i + 1, k);
    }
    AngleInTime(states, events, id, w, i + 1, j);
  }

  lemma PlayerOf(sv: Server, h: nat)
    requires Linked(sv) && h in sv.sessions
    ensures sv.sessions[h] in sv.snakes && !sv.snakes[sv.sessions[h]].bot
  {
  }

  // ---------------------------------------------------------------- speed, one tick

  /** Speed, one tick: a move brings it closer to 448 or 185, as the snake accelerates after it or not, by one for
      every millisecond that is not left over, and never beyond. */
  lemma TickSpeeds(s: SnakeState, food: FoodMap, dt: nat, inp: Input)
    requires FoodOk(food) && Sane(s) && Quiet(s)
    ensures var t := Tick(s, food, dt, inp).s;
            var ms: int, wanted: nat := s.mov + dt - t.mov, if t.accel then 448 else 185;
            && (ms == 0 ==> t.speed == s.speed)
            && (ms > 0 ==> t.speed == if s.speed + ms <= wanted then s.speed + ms
                                      else if s.speed - ms >= wanted then s.speed - ms else wanted)
  {
    hide Tick, Aimed, BurnPhase, FoodOk, Interval;
    AimedFrame(s, dt, inp);
    TickTravels(s, food, dt, inp);
    var m, i := s.mov + dt, Interval(s.speed);
    if Moves(s, dt) {
      TickMoving(s, food, dt, inp);
      Whole(m, i);
      SameFrames(s, Aimed(s, dt, inp), dt);
    } else {
      TickStill(s, food, dt, inp);
    }
  }
}
