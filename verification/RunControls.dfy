/** Whole runs: speed and angle reach what is wanted. */
module RunControls {
  import opened Geometry
  import opened Config
  import opened Movement
  import opened SnakeModel
  import opened SnakeLaws
  import opened Ticks
  import opened BodyLaws
  import opened Control
  import opened WorldModel
  import opened ServerModel
  import opened StepLaws
  import opened MirrorLaws
  import opened Runs
  import opened RunLaws
  import opened RunBodies

  /** The snake lives at all points i .. j. */
  ghost predicate Lives(states: seq<Server>, id: nat, i: nat, j: nat)
    requires i <= j < |states|
  {
    forall k :: i <= k <= j ==> Alive(states[k], id)
  }

  // ---------------------------------------------------------------- speed

  /** How far the speed can still be from the wanted one after m moves towards it. */
  predicate Closer(speed: nat, wanted: nat, m: nat) {
    && (wanted == BASE_SPEED ==> speed <= if m == 0 then 448 else if m == 1 then 355 else if m == 2 then 237 else 185)
    && (wanted == BOOST_SPEED ==> speed >= if m == 0 then 185 else if m == 1 then 355 else 448)
  }

  lemma ApproachCloser(speed: nat, wanted: nat, acc: nat, m: nat)
    requires BASE_SPEED <= speed <= BOOST_SPEED && (wanted == BASE_SPEED || wanted == BOOST_SPEED)
    requires acc >= Interval(speed) && Closer(speed, wanted, m)
    ensures Closer(Approach(speed, wanted, acc), wanted, m + 1)
  {
    hide Interval;
    IntervalAtLeast(speed, 448, 93);
    if speed <= 355 {
      IntervalAtLeast(speed, 355, 118);
    }
    if speed <= 237 {
      IntervalAtLeast(speed, 237, 177);
    }
  }

  /** A moving tick brings the speed closer to what the snake wants after it. */
  lemma TickCloser(s: SnakeState, food: FoodMap, dt: nat, inp: Input, m: nat)
    requires FoodOk(food) && AllSizesOk(food) && Calm(s) && !s.flags.dead && dt <= 517
    requires Closer(s.speed, Wanted(TickOne(s, food, dt, inp).s), m)
    ensures var t := TickOne(s, food, dt, inp).s; Closer(t.speed, Wanted(t), if t.flags.pos then m + 1 else m)
  {
    hide Tick, FoodOk, AllSizesOk, AllInside, Watching, Interval, Aimed, BurnPhase, Frames;
    CalmSane(s);
    AimedFrame(s, dt, inp);
    TickFlags(s, food, dt, inp);
    if Moves(s, dt) {
      TickMoving(s, food, dt, inp);
      var a := Aimed(s, dt, inp);
      WholeInterval(s, dt);
      SameFrames(s, a, dt);
      var t := Tick(s, food, dt, inp).s;
      ApproachCloser(s.speed, Wanted(t), Frames(s, dt) * Interval(s.speed), m);
    } else {
      TickStill(s, food, dt, inp);
    }
  }

  lemma SameFrames(s: SnakeState, a: SnakeState, dt: nat)
    requires 0 < s.speed <= BOOST_SPEED && a.speed == s.speed && a.mov == s.mov
    ensures Frames(a, dt) == Frames(s, dt)
  {
  }

  lemma TimerCloser(sv: Server, dt: nat, env: Env, id: nat, m: nat)
    requires Good(sv) && Proper(sv, Timed(dt, env)) && FoodOk(sv.food) && Alive(Timer(sv, dt, env), id) && id in sv.snakes
    requires Closer(sv.snakes[id].speed, Wanted(Timer(sv, dt, env).snakes[id]), m)
    ensures var r := Timer(sv, dt, env).snakes[id];
            Closer(r.speed, Wanted(r), if Stepped(sv, Timed(dt, env), id) then m + 1 else m)
  {
    hide Good, Timer, EnvOk, TickOne, FoodOk, AllSizesOk, MidOf, Dot, Calm, Closer;
    var food := Survivor(sv, dt, env, id);
    var s := sv.snakes[id];
    CalmPending(s);
    if WholeFrames(sv.ticks, dt) > 0 {
      TickCloser(s, food, WholeFrames(sv.ticks, dt), env.inputs(id), m);
    }
  }

  lemma NextCloser(sv: Server, e: Event, id: nat, m: nat)
    requires Good(sv) && Proper(sv, e) && Alive(sv, id) && Alive(Next(sv, e), id)
    requires Closer(sv.snakes[id].speed, Wanted(Next(sv, e).snakes[id]), m)
    ensures var r := Next(sv, e).snakes[id];
            Closer(r.speed, Wanted(r), if Stepped(sv, e, id) then m + 1 else m)
  {
    hide Good, Proper, Timer, MidOf, FoodOk, Open, Close, Receive, Closer;
    GoodTicks(sv);
    if e.Timed? {
      TimerCloser(sv, e.dt, e.env, id, m);
    } else {
      OtherBodies(sv, e, id);
    }
  }

  /** Between i and j the snake lives and wants this speed. */
  ghost predicate Wants(states: seq<Server>, id: nat, wanted: nat, i: nat, j: nat)
    requires i <= j < |states|
  {
    Lives(states, id, i, j) && forall k :: i < k <= j ==> Alive(states[k], id) && Wanted(states[k].snakes[id]) == wanted
  }

  lemma {:induction false} AlwaysCloser(states: seq<Server>, events: seq<Event>, id: nat, wanted: nat, i: nat, j: nat)
    requires IsRun(states, events) && i <= j < |states| && Wants(states, id, wanted, i, j)
    requires wanted == BASE_SPEED || wanted == BOOST_SPEED
    ensures Alive(states[j], id) && Closer(states[j].snakes[id].speed, wanted, Steps(states, events, id, i, j))
  {
    hide Good, Proper, Next, Alive, Stepped, FoodOk;
    if i < j {
      AlwaysCloser(states, events, id, wanted, i, j - 1);
      AlwaysGood(states, events, j - 1);
      assert Alive(states[j], id) && Alive(states[j - 1], id);
      assert states[j] == Next(states[j - 1], events[j - 1]);
      NextCloser(states[j - 1], events[j - 1], id, Steps(states, events, id, i, j - 1));
    } else {
      assert Alive(states[i], id);
      AliveIn(states[i], id);
      AlwaysInBounds(states, events, i, id);
    }
  }

  lemma AliveIn(sv: Server, id: nat)
    requires Alive(sv, id)
    ensures id in sv.snakes
  {
  }

  /** Speed, whole runs: a snake that goes on wanting the same speed has it after its third move. */
  lemma SpeedReached(states: seq<Server>, events: seq<Event>, id: nat, wanted: nat, i: nat, j: nat)
    requires IsRun(states, events) && i <= j < |states| && Wants(states, id, wanted, i, j)
    requires wanted == BASE_SPEED || wanted == BOOST_SPEED
    requires Steps(states, events, id, i, j) >= 3
    ensures Alive(states[j], id) && states[j].snakes[id].speed == wanted
  {
    hide IsRun, Wants, Alive;
    AlwaysCloser(states, events, id, wanted, i, j);
    AliveIn(states[j], id);
    AlwaysInBounds(states, events, j, id);
  }

  // ---------------------------------------------------------------- angle

  /** The rotation an event is worth to the snake. */
  ghost function Swing(sv: Server, e: Event, id: nat): real {
    if e.Timed? && Alive(sv, id) && WholeFrames(sv.ticks, e.dt) > 0 then Worth(sv.snakes[id], WholeFrames(sv.ticks, e.dt)) else 0.0
  }

  /** All the rotation of the events i .. j - 1. */
  ghost function Arc(states: seq<Server>, events: seq<Event>, id: nat, i: nat, j: nat): real
    requires i <= j < |states| && j <= |events|
  {
    if i == j then 0.0 else Arc(states, events, id, i, j - 1) + Swing(states[j - 1], events[j - 1], id)
  }

  lemma SwingPositive(sv: Server, e: Event, id: nat)
    ensures Swing(sv, e, id) >= 0.0
  {
  }

  lemma TickTurns(s: SnakeState, food: FoodMap, dt: nat, inp: Input)
    requires FoodOk(food) && Calm(s) && !s.flags.dead && !s.bot && 0.0 <= s.angle < TWO_PI
    ensures var t := TickOne(s, food, dt, inp).s;
            && t.wangle == s.wangle && Off(t.angle, t.wangle) == Max0(Off(s.angle, s.wangle) - Worth(s, dt))
            && 0.0 <= t.angle < TWO_PI
  {
    hide Tick, FoodOk, AllInside, Watching, Off, Worth, Rotate, Interval, BurnPhase;
    CalmSane(s);
    TickControls(s, food, dt, inp);
    RotateCloses(s, dt);
    AngleStays(s, dt);
    AimedFrame(s, dt, inp);
    if Moves(s, dt) {
      TickMoving(s, food, dt, inp);
      MovingFrame(Aimed(s, dt, inp), food, dt, inp.dir);
    } else {
      TickStill(s, food, dt, inp);
    }
  }

  lemma AngleStays(s: SnakeState, dt: nat)
    ensures !Rotate(s, dt).changed ==> Rotate(s, dt).s.angle == s.angle
  {
    hide Turn, Rotation;
  }

  /** The snake is a player with a normalized angle. */
  predicate Steered(s: SnakeState) {
    !s.bot && 0.0 <= s.angle < TWO_PI
  }

  lemma TimerTurns(sv: Server, dt: nat, env: Env, id: nat)
    requires Good(sv) && Proper(sv, Timed(dt, env)) && FoodOk(sv.food) && Alive(Timer(sv, dt, env), id)
    requires Alive(sv, id) && Steered(sv.snakes[id])
    ensures var s, r := sv.snakes[id], Timer(sv, dt, env).snakes[id];
            Steered(r) && r.wangle == s.wangle && Off(r.angle, s.wangle) == Max0(Off(s.angle, s.wangle) - Swing(sv, Timed(dt, env), id))
  {
    hide Good, Timer, EnvOk, TickOne, FoodOk, AllSizesOk, MidOf, Dot, Calm, Off, Worth;
    var food := Survivor(sv, dt, env, id);
    var s := sv.snakes[id];
    OffNonNegative(s.angle, s.wangle);
    if WholeFrames(sv.ticks, dt) > 0 {
      TickTurns(s, food, WholeFrames(sv.ticks, dt), env.inputs(id));
      TickKeepsKind(s, food, WholeFrames(sv.ticks, dt), env.inputs(id));
    }
  }

  lemma TickKeepsKind(s: SnakeState, food: FoodMap, dt: nat, inp: Input)
    requires FoodOk(food) && Calm(s) && !s.flags.dead
    ensures TickOne(s, food, dt, inp).s.bot == s.bot
  {
    hide Tick, FoodOk, AllInside, Watching;
    TickBot(s, food, dt, inp);
  }

  lemma NextTurns(sv: Server, e: Event, id: nat, w: real)
    requires Good(sv) && Proper(sv, e) && Alive(sv, id) && Alive(Next(sv, e), id)
    requires Steered(sv.snakes[id]) && sv.snakes[id].wangle == w && Next(sv, e).snakes[id].wangle == w
    ensures var s, r := sv.snakes[id], Next(sv, e).snakes[id];
            Steered(r) && Off(r.angle, w) == Max0(Off(s.angle, w) - Swing(sv, e, id))
  {
    hide Good, Proper, Timer, MidOf, FoodOk, Open, Close, Receive, Off, Worth;
    GoodTicks(sv);
    OffNonNegative(sv.snakes[id].angle, w);
    if e.Timed? {
      TimerTurns(sv, e.dt, e.env, id);
    } else {
      OtherBodies(sv, e, id);
    }
  }

  /** Between i and j the snake lives and wants this angle. */
  ghost predicate Aims(states: seq<Server>, id: nat, w: real, i: nat, j: nat)
    requires i <= j < |states|
  {
    forall k :: i <= k <= j ==> Alive(states[k], id) && states[k].snakes[id].wangle == w
  }

  lemma {:induction false} AlwaysTurns(states: seq<Server>, events: seq<Event>, id: nat, w: real, i: nat, j: nat)
    requires IsRun(states, events) && i <= j < |states| && Aims(states, id, w, i, j)
    requires Alive(states[i], id) && Alive(states[j], id) && Steered(states[i].snakes[id])
    ensures Steered(states[j].snakes[id]) && Arc(states, events, id, i, j) >= 0.0
    ensures Off(states[j].snakes[id].angle, w) == Max0(Off(states[i].snakes[id].angle, w) - Arc(states, events, id, i, j))
  {
    hide Good, Proper, Next, Alive, FoodOk, Off, Swing;
    if i < j {
      assert Alive(states[j - 1], id);
      AlwaysTurns(states, events, id, w, i, j - 1);
      AlwaysGood(states, events, j - 1);
      assert states[j] == Next(states[j - 1], events[j - 1]);
      AliveIn(states[j], id);
      AliveIn(states[j - 1], id);
      SwingPositive(states[j - 1], events[j - 1], id);
      NextTurns(states[j - 1], events[j - 1], id, w);
    } else {
      AliveIn(states[i], id);
      OffNonNegative(states[i].snakes[id].angle, w);
    }
  }

  /** Angle, whole runs: a player that goes on wanting a normalized angle has it if and only if the rotation since
      then covers the distance it had to turn. */
  lemma AngleReached(states: seq<Server>, events: seq<Event>, id: nat, w: real, i: nat, j: nat)
    requires IsRun(states, events) && i <= j < |states| && Aims(states, id, w, i, j) && 0.0 <= w < TWO_PI
    requires Alive(states[i], id) && Alive(states[j], id) && Steered(states[i].snakes[id])
    ensures states[j].snakes[id].angle == w <==> Arc(states, events, id, i, j) >= Off(states[i].snakes[id].angle, w)
  {
    hide IsRun, Aims, Off;
    AlwaysTurns(states, events, id, w, i, j);
    ZeroOff(states[j].snakes[id].angle, w);
    OffNonNegative(states[i].snakes[id].angle, w);
  }
}
