/** Whole runs again: the bodies of the snakes, and the mass ledger. */
module RunBodies {
  import opened Geometry
  import opened Config
  import opened Movement
  import opened SnakeModel
  import opened SnakeLaws
  import opened Ticks
  import opened TickLaws
  import opened BodyLaws
  import opened WorldModel
  import opened ServerModel
  import opened StepLaws
  import opened MirrorLaws
  import opened LengthMirror
  import opened Birth
  import opened Runs
  import opened RunLaws

  // ---------------------------------------------------------------- one snake of a pass

  /** After the pass each snake is what its own tick made of it, on the food of its turn. */
  lemma {:induction false} TickedAs(snakes: SnakeMap, food: FoodMap, dt: nat, env: Env, n: nat, m: nat)
    requires EnvOk(env, snakes) && FoodOk(food) && m < n <= |env.order|
    ensures var t, id := TickAll(snakes, food, dt, env, n), env.order[m];
            id in snakes && id in t.snakes
            && t.snakes[id] == TickOne(snakes[id], TickAll(snakes, food, dt, env, m).food, dt, env.inputs(id)).s
  {
    hide TickOne, EnvOk, TickAll;
    EnvOrder(env, snakes, m);
    EnvOrder(env, snakes, n - 1);
    Unticked(snakes, food, dt, env, n - 1);
    TickAllOne(snakes, food, dt, env, n);
    if m < n - 1 {
      TickedAs(snakes, food, dt, env, n - 1, m);
      OrderDistinct(env, snakes, m, n - 1);
    }
  }

  lemma TickAllOne(snakes: SnakeMap, food: FoodMap, dt: nat, env: Env, n: nat)
    requires FoodOk(food) && 0 < n <= |env.order|
    ensures var t, id := TickAll(snakes, food, dt, env, n - 1), env.order[n - 1];
            id in t.snakes ==>
              TickAll(snakes, food, dt, env, n).snakes
              == t.snakes[id := TickOne(t.snakes[id], t.food, dt, env.inputs(id)).s]
  {
    hide TickOne;
  }

  lemma OrderDistinct(env: Env, snakes: SnakeMap, m: nat, n: nat)
    requires EnvOk(env, snakes) && m < n < |env.order|
    ensures env.order[m] != env.order[n]
  {
    hide Dot;
  }

  /** The marks change nothing but the dying bit. */
  ghost predicate SameBut(s: SnakeState, t: SnakeState) {
    s == t.(flags := t.flags.(dying := s.flags.dying))
  }

  /** In the middle of a timer step each snake is what its own tick made of it, except perhaps for the mark. */
  lemma TickedInStep(sv: Server, dt: nat, env: Env, id: nat) returns (food: FoodMap)
    requires StepOk(sv, dt, env) && id in sv.snakes && WholeFrames(sv.ticks, dt) > 0
    ensures FoodOk(food) && AllSizesOk(food) && id in MidOf(sv, dt, env).snakes
    ensures SameBut(MidOf(sv, dt, env).snakes[id],
                    TickOne(sv.snakes[id], food, WholeFrames(sv.ticks, dt), env.inputs(id)).s)
  {
    hide FoodOk, AllSizesOk, EnvOk, AllCalm, TickAll, TickOne, Doomed, TickedUpTo;
    var whole := WholeFrames(sv.ticks, dt);
    var m := TurnIn(sv.snakes, env, id);
    food := TickAll(sv.snakes, sv.food, whole, env, m).food;
    TickAllHalfway(sv.snakes, sv.food, whole, env, m);
    TickedSizes(sv.snakes, env, m, TickAll(sv.snakes, sv.food, whole, env, m));
    TickedAs(sv.snakes, sv.food, whole, env, |env.order|, m);
  }

  lemma TurnIn(snakes: SnakeMap, env: Env, id: nat) returns (m: nat)
    requires EnvOk(env, snakes) && id in snakes
    ensures m < |env.order| && env.order[m] == id
  {
    hide Dot;
    assert id in env.order;
    m :| m < |env.order| && env.order[m] == id;
  }

  lemma NoWholeFrames(sv: Server, dt: nat, env: Env)
    requires FoodOk(sv.food) && WholeFrames(sv.ticks, dt) == 0
    ensures MidOf(sv, dt, env).snakes == sv.snakes && ChangesOf(sv, dt, env) == []
  {
  }

  /** The fields of a snake that only its tick changes. */
  ghost predicate SameBody(a: SnakeState, b: SnakeState) {
    && a.parts == b.parts && a.fullness == b.fullness && a.mov == b.mov && a.speed == b.speed && a.accel == b.accel
    && a.angle == b.angle && a.wangle == b.wangle && a.rot == b.rot && a.bot == b.bot && a.sbb == b.sbb
  }

  lemma TurnKeepsBody(s: SnakeState)
    ensures SameBody(TurnOf(s), s)
  {
  }

  /** What the step's tick makes of a snake, on the food of its turn. */
  function TickedSnake(s: SnakeState, food: FoodMap, whole: nat, inp: Input): SnakeState
    requires FoodOk(food)
  {
    if whole > 0 then TickOne(s, food, whole, inp).s else s
  }

  /** A snake that is still in the table after a timer step has the body its own tick gave it, and reported what
      it ate; a dead one is as it was. */
  lemma Survivor(sv: Server, dt: nat, env: Env, id: nat) returns (food: FoodMap)
    requires Good(sv) && Proper(sv, Timed(dt, env)) && FoodOk(sv.food) && id in Timer(sv, dt, env).snakes
    ensures id in sv.snakes && Calm(sv.snakes[id]) && FoodOk(food) && AllSizesOk(food)
    ensures Alive(Timer(sv, dt, env), id) ==> Alive(sv, id)
    ensures sv.snakes[id].flags.dead ==> TickedSnake(sv.snakes[id], food, WholeFrames(sv.ticks, dt), env.inputs(id)) == sv.snakes[id]
    ensures WholeFrames(sv.ticks, dt) <= dt + 7
    ensures Dot(env.inputs(id).dir, env.inputs(id).dir) == 1.0
    ensures var t := TickedSnake(sv.snakes[id], food, WholeFrames(sv.ticks, dt), env.inputs(id));
            var mid := MidOf(sv, dt, env);
            && SameBody(Timer(sv, dt, env).snakes[id], t)
            && id in mid.snakes && SameBut(mid.snakes[id], t)
  {
    hide Timer, MidOf, ChangesOf, FoodOk, AllSizesOk, Calm, TurnOf, TickOne, Linked, Synced, Introduced, After;
    TimerGood(sv, dt, env);
    WholeBound(sv.ticks, dt);
    TimerSnake(sv, dt, env);
    var mid := MidOf(sv, dt, env);
    TurnKeepsBody(mid.snakes[id]);
    if WholeFrames(sv.ticks, dt) > 0 {
      food := TickedInStep(sv, dt, env, id);
      DeadTick(sv.snakes[id], food, WholeFrames(sv.ticks, dt), env.inputs(id));
    } else {
      food := sv.food;
      NoWholeFrames(sv, dt, env);
    }
    MidFacts(sv, dt, env);
    DeadForGood(sv, dt, env, id);
  }

  lemma DeadTick(s: SnakeState, food: FoodMap, dt: nat, inp: Input)
    requires FoodOk(food)
    ensures s.flags.dead ==> TickOne(s, food, dt, inp).s == s
  {
    if s.flags.dead {
      DeadStays(s, food, dt, inp);
    }
  }

  lemma DeadForGood(sv: Server, dt: nat, env: Env, id: nat)
    requires Good(sv) && StepOk(sv, dt, env)
    ensures Alive(Timer(sv, dt, env), id) ==> Alive(sv, id)
  {
    hide Timer, MidOf, ChangesOf, StepOk, Calm, Linked, Synced, Introduced, AllSizesOk, FoodOk, Buries;
    TimerBuries(sv, dt, env, id);
    StepParts(sv, dt, env);
    TimerSnake(sv, dt, env);
    GivenOut(sv, id);
  }

  // ---------------------------------------------------------------- gaps

  /** A bound on consecutive gaps: the same for all, or shrinking with the follow coefficient. */
  ghost predicate Shape(parts: seq<Body>, g: real, tight: bool) {
    if tight then GapProfile(parts, g) else GapsWithin(parts, g)
  }

  /** All bodies in the table have the shape, those of dead players included. */
  ghost predicate AllShaped(sv: Server, g: real, tight: bool) {
    forall id :: id in sv.snakes ==> Shape(sv.snakes[id].parts, g, tight)
  }

  /** No living snake's head goes further than g in this event. */
  ghost predicate HeadsWithin(sv: Server, e: Event, g: real) {
    e.Timed? ==>
      forall id :: Alive(sv, id) && Sane(sv.snakes[id]) ==> StepOf(sv.snakes[id], WholeFrames(sv.ticks, e.dt)) <= g
  }

  /** The same, and a new body has the shape. */
  ghost predicate StepsWithin(sv: Server, e: Event, g: real, tight: bool) {
    HeadsWithin(sv, e, g) && (e.Opened? ==> Shape(e.body, g, tight))
  }

  lemma StepNonNegative(s: SnakeState, dt: nat)
    requires Sane(s)
    ensures StepOf(s, dt) >= 0.0
  {
    hide Interval, Distance;
    DistanceBound(s.speed, Frames(s, dt));
  }

  lemma TickShape(s: SnakeState, food: FoodMap, dt: nat, inp: Input, g: real, tight: bool)
    requires FoodOk(food) && Calm(s) && !s.flags.dead && Dot(inp.dir, inp.dir) == 1.0
    requires StepOf(s, dt) <= g && Shape(s.parts, g, tight)
    ensures Shape(TickOne(s, food, dt, inp).s.parts, g, tight)
  {
    hide Tick, GapProfile, GapsWithin, FoodOk, Dot, StepOf, AllInside, Watching;
    StepNonNegative(s, dt);
    if tight {
      TickProfile(s, food, dt, inp, g);
    } else {
      TickGaps(s, food, dt, inp, g);
    }
  }

  lemma TimerShaped(sv: Server, dt: nat, env: Env, g: real, tight: bool)
    requires Good(sv) && Proper(sv, Timed(dt, env)) && AllShaped(sv, g, tight) && StepsWithin(sv, Timed(dt, env), g, tight)
    ensures AllShaped(Timer(sv, dt, env), g, tight)
  {
    hide Good, Timer, Shape, EnvOk, TickOne, FoodOk, AllSizesOk, StepOf, MidOf, Dot;
    GoodTicks(sv);
    var r := Timer(sv, dt, env);
    forall id | id in r.snakes
      ensures Shape(r.snakes[id].parts, g, tight)
    {
      var food := Survivor(sv, dt, env, id);
      CalmSane(sv.snakes[id]);
      if WholeFrames(sv.ticks, dt) > 0 && !sv.snakes[id].flags.dead {
        TickShape(sv.snakes[id], food, WholeFrames(sv.ticks, dt), env.inputs(id), g, tight);
      }
    }
  }

  lemma CalmSane(s: SnakeState)
    requires Calm(s)
    ensures Sane(s) && Able(s)
  {
    hide AllInside, Watching;
  }

  lemma NextShaped(sv: Server, e: Event, g: real, tight: bool)
    requires Good(sv) && Proper(sv, e) && AllShaped(sv, g, tight) && StepsWithin(sv, e, g, tight)
    ensures AllShaped(Next(sv, e), g, tight)
  {
    hide Good, Shape, EnvOk, Timer, StartBody, PointOfView, Tell, Centroid;
    if e.Timed? {
      TimerShaped(sv, e.dt, e.env, g, tight);
    }
  }

  /** The gap invariant, whole runs: any g that bounds the starting gaps and every move bounds all gaps of all
      snakes for ever, growth and shrink included; likewise the tight profile. */
  lemma {:induction false} AlwaysShaped(states: seq<Server>, events: seq<Event>, g: real, tight: bool, i: nat)
    requires IsRun(states, events) && i < |states| && AllShaped(states[0], g, tight)
    requires forall k :: 0 <= k < |events| ==> StepsWithin(states[k], events[k], g, tight)
    ensures AllShaped(states[i], g, tight)
  {
    hide Good, Proper, Next, AllShaped, StepsWithin;
    if i > 0 {
      AlwaysShaped(states, events, g, tight, i - 1);
      AlwaysGood(states, events, i - 1);
      NextShaped(states[i - 1], events[i - 1], g, tight);
    }
  }

  /** Proper ticks never move a head by more than 294. */
  lemma ProperSteps(sv: Server, e: Event)
    requires Good(sv) && Proper(sv, e) && e.Timed?
    ensures HeadsWithin(sv, e, 294.0)
  {
    hide Good, EnvOk, StepOf, Interval;
    GoodTicks(sv);
    WholeBound(sv.ticks, e.dt);
    forall id | Alive(sv, id) && Sane(sv.snakes[id])
      ensures StepOf(sv.snakes[id], WholeFrames(sv.ticks, e.dt)) <= 294.0
    {
      StepBound(sv.snakes[id], WholeFrames(sv.ticks, e.dt));
    }
  }

  lemma GoodTicks(sv: Server)
    requires Good(sv)
    ensures sv.ticks < FRAME_MS && AllCalm(sv.snakes) && FoodOk(sv.food)
  {
    hide AllCalm, Linked, Synced, Introduced, FoodOk, AllSizesOk;
  }

  // ---------------------------------------------------------------- prompt runs

  /** No living snake owes a step. */
  ghost predicate Punctual(sv: Server) {
    forall id :: Alive(sv, id) && Sane(sv.snakes[id]) ==> sv.snakes[id].mov < Interval(sv.snakes[id].speed)
  }

  lemma TickPunctual(s: SnakeState, food: FoodMap, dt: nat, inp: Input)
    requires FoodOk(food) && AllSizesOk(food) && Calm(s) && !s.flags.dead && dt <= ROT_INTERVAL
    requires s.mov < Interval(s.speed)
    ensures var t := TickOne(s, food, dt, inp).s; Sane(t) && t.mov < Interval(t.speed)
  {
    hide Tick, FoodOk, AllSizesOk, StepOf, AllInside, Watching, Interval, Aimed, BurnPhase, NewSpeed;
    TickLedger(s, food, dt, inp);
    SingleStep(s, dt);
    AimedFrame(s, dt, inp);
    IntervalBounds(Tick(s, food, dt, inp).s.speed);
    if Moves(s, dt) {
      TickMoving(s, food, dt, inp);
    } else {
      TickStill(s, food, dt, inp);
    }
  }

  /** Timer steps of at most 86 ms. */
  predicate Prompt(e: Event) {
    e.Timed? ==> e.dt <= 86
  }

  lemma TimerPunctual(sv: Server, dt: nat, env: Env)
    requires Good(sv) && Proper(sv, Timed(dt, env)) && Punctual(sv) && dt <= 86
    ensures Punctual(Timer(sv, dt, env))
  {
    hide Good, Timer, EnvOk, TickOne, FoodOk, AllSizesOk, MidOf, Dot, Interval;
    GoodTicks(sv);
    var r := Timer(sv, dt, env);
    forall id | Alive(r, id) && Sane(r.snakes[id])
      ensures r.snakes[id].mov < Interval(r.snakes[id].speed)
    {
      var food := Survivor(sv, dt, env, id);
      CalmSane(sv.snakes[id]);
      if WholeFrames(sv.ticks, dt) > 0 {
        TickPunctual(sv.snakes[id], food, WholeFrames(sv.ticks, dt), env.inputs(id));
      }
    }
  }

  lemma NextPunctual(sv: Server, e: Event)
    requires Good(sv) && Proper(sv, e) && Punctual(sv) && Prompt(e)
    ensures Punctual(Next(sv, e))
  {
    hide Good, EnvOk, Timer, StartBody, PointOfView, Tell, Centroid, Interval;
    if e.Timed? {
      TimerPunctual(sv, e.dt, e.env);
    } else if e.Opened? {
      IntervalBounds(BASE_SPEED);
    }
  }

  lemma {:induction false} AlwaysPunctual(states: seq<Server>, events: seq<Event>, i: nat)
    requires IsRun(states, events) && i < |states| && Punctual(states[0])
    requires forall k :: 0 <= k < |events| ==> Prompt(events[k])
    ensures Punctual(states[i])
  {
    hide Good, Proper, Next, Punctual;
    if i > 0 {
      AlwaysPunctual(states, events, i - 1);
      AlwaysGood(states, events, i - 1);
      NextPunctual(states[i - 1], events[i - 1]);
    }
  }

  /** In prompt runs every move is a single step of at most 42. */
  lemma PromptSteps(states: seq<Server>, events: seq<Event>, i: nat, g: real)
    requires IsRun(states, events) && i < |events| && Punctual(states[0]) && g >= 42.0
    requires forall k :: 0 <= k < |events| ==> Prompt(events[k])
    ensures HeadsWithin(states[i], events[i], g)
  {
    hide Good, Proper, Next, StepOf, Interval;
    AlwaysPunctual(states, events, i);
    AlwaysGood(states, events, i);
    GoodTicks(states[i]);
    if events[i].Timed? {
      var sv, dt := states[i], events[i].dt;
      WholeBound(sv.ticks, dt);
      forall id | Alive(sv, id) && Sane(sv.snakes[id])
        ensures StepOf(sv.snakes[id], WholeFrames(sv.ticks, dt)) <= g
      {
        SingleStep(sv.snakes[id], WholeFrames(sv.ticks, dt));
      }
    }
  }

  /** Prompt runs: with all starting gaps at most g >= 42, no gap ever exceeds g; with the tight profile of 42
      no body ever stretches beyond the length its box radius is computed from. */
  lemma PromptRunShaped(states: seq<Server>, events: seq<Event>, g: real, tight: bool, i: nat)
    requires IsRun(states, events) && i < |states| && Punctual(states[0]) && g >= 42.0
    requires forall k :: 0 <= k < |events| ==> Prompt(events[k])
    requires forall k :: 0 <= k < |events| && events[k].Opened? ==> Shape(events[k].body, g, tight)
    requires AllShaped(states[0], g, tight)
    ensures AllShaped(states[i], g, tight)
    ensures tight && g == 42.0 ==>
              forall id, a, b :: id in states[i].snakes && 0 <= a <= b < |states[i].snakes[id].parts| ==>
                Near(states[i].snakes[id].parts[a], states[i].snakes[id].parts[b], BoxLength(|states[i].snakes[id].parts|))
  {
    hide Good, Proper, Next, HeadsWithin, Shape, Short, BoxLength, Punctual;
    forall k | 0 <= k < |events|
      ensures StepsWithin(states[k], events[k], g, tight)
    {
      PromptSteps(states, events, k, g);
    }
    AlwaysShaped(states, events, g, tight, i);
    forall id, a, b | tight && g == 42.0 && id in states[i].snakes && 0 <= a <= b < |states[i].snakes[id].parts|
      ensures Near(states[i].snakes[id].parts[a], states[i].snakes[id].parts[b], BoxLength(|states[i].snakes[id].parts|))
    {
      assert GapProfile(states[i].snakes[id].parts, g) by { TightShape(states[i].snakes[id].parts, g); }
      ChainWithinBoxLength(states[i].snakes[id].parts, a, b);
    }
  }

  lemma TightShape(parts: seq<Body>, g: real)
    requires Shape(parts, g, true)
    ensures GapProfile(parts, g)
  {
  }

  // ---------------------------------------------------------------- settling

  /** The snake is in the table at all points i .. j. */
  ghost predicate There(states: seq<Server>, id: nat, i: nat, j: nat)
    requires i <= j < |states|
  {
    forall k :: i <= k <= j ==> id in states[k].snakes
  }

  /** The event is a timer step in which the living snake moves. */
  ghost predicate Stepped(sv: Server, e: Event, id: nat)
    requires FoodOk(sv.food)
  {
    e.Timed? && Alive(sv, id) && id in MidOf(sv, e.dt, e.env).snakes && MidOf(sv, e.dt, e.env).snakes[id].flags.pos
  }

  /** How often the events i .. j - 1 move the snake. */
  ghost function Steps(states: seq<Server>, events: seq<Event>, id: nat, i: nat, j: nat): nat
    requires i <= j < |states| && j <= |events| && forall k :: i <= k < j ==> FoodOk(states[k].food)
  {
    if i == j then 0
    else Steps(states, events, id, i, j - 1) + if Stepped(states[j - 1], events[j - 1], id) then 1 else 0
  }

  lemma TickSettled(s: SnakeState, food: FoodMap, dt: nat, inp: Input, h: real, k: nat)
    requires FoodOk(food) && Calm(s) && !s.flags.dead && Dot(inp.dir, inp.dir) == 1.0
    requires StepOf(s, dt) <= h && SettledTo(s.parts, h, k)
    ensures var t := TickOne(s, food, dt, inp).s; SettledTo(t.parts, h, if t.flags.pos then k + 1 else k)
  {
    hide Tick, SettledTo, FoodOk, Dot, StepOf, AllInside, Watching;
    StepNonNegative(s, dt);
    TickFlags(s, food, dt, inp);
    TickSettles(s, food, dt, inp, h, k);
  }

  lemma TimerSettles(sv: Server, dt: nat, env: Env, id: nat, h: real, k: nat)
    requires Good(sv) && Proper(sv, Timed(dt, env)) && FoodOk(sv.food) && id in Timer(sv, dt, env).snakes
    requires HeadsWithin(sv, Timed(dt, env), h) && id in sv.snakes && SettledTo(sv.snakes[id].parts, h, k)
    ensures SettledTo(Timer(sv, dt, env).snakes[id].parts, h, if Stepped(sv, Timed(dt, env), id) then k + 1 else k)
  {
    hide Good, Timer, EnvOk, TickOne, FoodOk, AllSizesOk, MidOf, Dot, StepOf, Calm, SettledTo;
    var food := Survivor(sv, dt, env, id);
    var s := sv.snakes[id];
    CalmPending(s);
    CalmSane(s);
    if !s.flags.dead && WholeFrames(sv.ticks, dt) > 0 {
      TickSettled(s, food, WholeFrames(sv.ticks, dt), env.inputs(id), h, k);
    }
  }

  lemma NextSettles(sv: Server, e: Event, id: nat, h: real, k: nat)
    requires Good(sv) && Proper(sv, e) && id in sv.snakes && id in Next(sv, e).snakes
    requires HeadsWithin(sv, e, h) && SettledTo(sv.snakes[id].parts, h, k)
    ensures SettledTo(Next(sv, e).snakes[id].parts, h, if Stepped(sv, e, id) then k + 1 else k)
  {
    hide Good, Proper, Timer, MidOf, FoodOk, Open, Close, Receive, HeadsWithin, SettledTo;
    GoodTicks(sv);
    if e.Timed? {
      TimerSettles(sv, e.dt, e.env, id, h, k);
    } else {
      OtherBodies(sv, e, id);
    }
  }

  /** Settling, whole runs: as many moves of at most h as a snake has made, so many of its gaps are settled,
      whatever its body was like at first. */
  lemma {:induction false} AlwaysSettles(states: seq<Server>, events: seq<Event>, id: nat, h: real, i: nat, j: nat)
    requires IsRun(states, events) && i <= j < |states| && There(states, id, i, j)
    requires forall k :: i <= k < j ==> HeadsWithin(states[k], events[k], h)
    ensures SettledTo(states[j].snakes[id].parts, h, Steps(states, events, id, i, j))
  {
    hide Good, Proper, Next, Stepped, FoodOk, HeadsWithin, GapCap;
    if i < j {
      AlwaysSettles(states, events, id, h, i, j - 1);
      AlwaysGood(states, events, j - 1);
      assert states[j] == Next(states[j - 1], events[j - 1]);
      NextSettles(states[j - 1], events[j - 1], id, h, Steps(states, events, id, i, j - 1));
    }
  }

  /** Prompt runs: once a snake has moved as often as it has gaps, its body has the tight profile and never
      stretches beyond the length its box radius is computed from, whatever body it started with. */
  lemma PromptRunSettles(states: seq<Server>, events: seq<Event>, id: nat, i: nat, j: nat)
    requires IsRun(states, events) && i <= j < |states| && There(states, id, i, j) && Punctual(states[0])
    requires forall k :: 0 <= k < |events| ==> Prompt(events[k])
    requires Steps(states, events, id, i, j) >= |states[j].snakes[id].parts| - 1
    ensures var parts := states[j].snakes[id].parts;
            && GapProfile(parts, 42.0)
            && forall a, b :: 0 <= a <= b < |parts| ==> Near(parts[a], parts[b], BoxLength(|parts|))
  {
    hide Good, Proper, Next, HeadsWithin, Short, BoxLength, Punctual, SettledTo, GapProfile, Stepped;
    forall k | i <= k < j
      ensures HeadsWithin(states[k], events[k], 42.0)
    {
      PromptSteps(states, events, k, 42.0);
    }
    AlwaysSettles(states, events, id, 42.0, i, j);
    var parts := states[j].snakes[id].parts;
    SettledAll(parts, 42.0, Steps(states, events, id, i, j));
    forall a, b | 0 <= a <= b < |parts|
      ensures Near(parts[a], parts[b], BoxLength(|parts|))
    {
      ChainWithinBoxLength(parts, a, b);
    }
  }

  // ---------------------------------------------------------------- reported length

  /** One part closer. */
  function Toward(k: int, n: int): int {
    if k < n then k + 1 else if k > n then k - 1 else k
  }

  function Abs(x: int): nat {
    if x < 0 then -x else x
  }

  lemma TurnCounts(s0: SnakeState, s1: SnakeState, changed: bool)
    requires Calm(s0) && After(s0, s1, changed) && !(if changed then TurnOf(s1) else s1).flags.dead
    ensures (if changed then TurnOf(s1) else s1).clientParts
            == if s1.flags.pos then Toward(s0.clientParts, |s1.parts|) else s0.clientParts
    ensures !s0.flags.dead
  {
    hide AllInside, Watching, OnMap, TailInside, Sane;
  }

  lemma TimerCounts(sv: Server, dt: nat, env: Env, id: nat)
    requires Good(sv) && Proper(sv, Timed(dt, env)) && FoodOk(sv.food) && Alive(Timer(sv, dt, env), id)
    ensures Alive(sv, id)
    ensures var r := Timer(sv, dt, env).snakes[id];
            r.clientParts == if Stepped(sv, Timed(dt, env), id) then Toward(sv.snakes[id].clientParts, |r.parts|)
                             else sv.snakes[id].clientParts
  {
    hide Good, Timer, EnvOk, FoodOk, AllSizesOk, MidOf, ChangesOf, Calm, After, TurnOf, AllCalm, Linked;
    GoodTicks(sv);
    GoodLinked(sv);
    TimerGood(sv, dt, env);
    MidFacts(sv, dt, env);
    TimerSnake(sv, dt, env);
    var mid := MidOf(sv, dt, env);
    CalmAt(sv, id);
    TurnKeepsBody(mid.snakes[id]);
    TurnCounts(sv.snakes[id], mid.snakes[id], id in ChangesOf(sv, dt, env));
  }

  lemma GoodLinked(sv: Server)
    requires Good(sv)
    ensures Linked(sv)
  {
    hide AllCalm, Linked, Synced, Introduced, FoodOk, AllSizesOk;
  }

  lemma CalmAt(sv: Server, id: nat)
    requires AllCalm(sv.snakes) && id in sv.snakes
    ensures Calm(sv.snakes[id])
  {
    hide Calm;
  }

  lemma NextCounts(sv: Server, e: Event, id: nat)
    requires Good(sv) && Proper(sv, e) && Alive(sv, id) && Alive(Next(sv, e), id)
    ensures var r := Next(sv, e).snakes[id];
            r.clientParts == if Stepped(sv, e, id) then Toward(sv.snakes[id].clientParts, |r.parts|) else sv.snakes[id].clientParts
  {
    hide Good, Proper, Timer, MidOf, FoodOk, Open, Close, Receive;
    GoodTicks(sv);
    if e.Timed? {
      TimerCounts(sv, e.dt, e.env, id);
    } else {
      OtherBodies(sv, e, id);
    }
  }

  /** The snake lives at all points i .. j and has n parts at all points after i. */
  ghost predicate KeepsLength(states: seq<Server>, id: nat, n: nat, i: nat, j: nat)
    requires i <= j < |states|
  {
    && (forall k :: i <= k <= j ==> Alive(states[k], id))
    && (forall k :: i < k <= j ==> Alive(states[k], id) && |states[k].snakes[id].parts| == n)
  }

  /** Reported length, whole runs: while a snake keeps its length, every move brings the server's count of what was
      reported one closer to it, until it is exact. */
  lemma {:induction false} AlwaysCatchesUp(states: seq<Server>, events: seq<Event>, id: nat, n: nat, i: nat, j: nat)
    requires IsRun(states, events) && i <= j < |states| && KeepsLength(states, id, n, i, j)
    requires Alive(states[i], id) && Alive(states[j], id)
    ensures var was, moves := Abs(states[i].snakes[id].clientParts - n), Steps(states, events, id, i, j);
            Abs(states[j].snakes[id].clientParts - n) == if was > moves then was - moves else 0
  {
    hide Good, Proper, Next, Alive, Stepped, FoodOk;
    if i < j {
      AlwaysCatchesUp(states, events, id, n, i, j - 1);
      AlwaysGood(states, events, j - 1);
      assert states[j] == Next(states[j - 1], events[j - 1]);
      NextCounts(states[j - 1], events[j - 1], id);
    }
  }

  // ---------------------------------------------------------------- mass ledger

  /** A boosted move is one that leaves the snake boosting: below four parts boosting is switched off instead. */
  lemma TickMass(s: SnakeState, food: FoodMap, dt: nat, inp: Input)
    requires FoodOk(food) && AllSizesOk(food) && Calm(s) && !s.flags.dead && dt <= 517
    ensures var t := TickOne(s, food, dt, inp).s;
            Mass(t) == Mass(s) + Sizes(t.eaten) - (if t.flags.pos && t.accel then 33 else 0)
  {
    hide Tick, FoodOk, AllSizesOk, AllInside, Watching, Interval, Aimed, Sizes, EatPhase, BurnPhase, Mass, MealAt, AdvancePhase, NewSpeed;
    TickLedger(s, food, dt, inp);
    AimedFrame(s, dt, inp);
    if Moves(s, dt) {
      TickMoving(s, food, dt, inp);
      BurnLeavesBoosting(Aimed(s, dt, inp), food, dt, inp.dir);
    } else {
      TickStill(s, food, dt, inp);
    }
    assert [] + Meal(s, food, dt, inp) == Meal(s, food, dt, inp);
  }

  lemma BurnLeavesBoosting(a: SnakeState, food: FoodMap, dt: nat, dir: Body)
    requires FoodOk(food) && AllSizesOk(food) && Fed(a) && 0 < a.speed <= BOOST_SPEED
    ensures BurnPhase(a, food, dt, dir).s.accel <==> a.accel && |EatPhase(a, food, dt, dir).s.parts| > 3
  {
    hide FoodOk, AllSizesOk, Sizes, Mass, MealAt, Interval, Follow, Burn, EatFood;
    AdvanceFrame(a, dt, dir);
    var adv := Pair(AdvancePhase(a, dt, dir), food);
    EatLedger(adv);
    EatFrame(adv);
    BurnLedger(EatPhase(a, food, dt, dir));
  }

  /** What an event adds to a living snake: all it is reported to have eaten, less 33 if it made a boosted move. */
  ghost function Gain(sv: Server, e: Event, id: nat): int
    requires FoodOk(sv.food)
  {
    if e.Timed? && Alive(sv, id) && id in MidOf(sv, e.dt, e.env).snakes then
      var s := MidOf(sv, e.dt, e.env).snakes[id];
      Sizes(s.eaten) - (if s.flags.pos && s.accel then 33 else 0)
    else 0
  }

  lemma TimerMass(sv: Server, dt: nat, env: Env, id: nat)
    requires Good(sv) && Proper(sv, Timed(dt, env)) && FoodOk(sv.food) && id in Timer(sv, dt, env).snakes
    ensures id in sv.snakes
    ensures Mass(Timer(sv, dt, env).snakes[id]) == Mass(sv.snakes[id]) + Gain(sv, Timed(dt, env), id)
  {
    hide Good, Timer, EnvOk, TickOne, FoodOk, AllSizesOk, MidOf, Dot, Calm, Sizes;
    var food := Survivor(sv, dt, env, id);
    var s := sv.snakes[id];
    CalmPending(s);
    if s.flags.dead {
    } else if WholeFrames(sv.ticks, dt) > 0 {
      TickMass(s, food, WholeFrames(sv.ticks, dt), env.inputs(id));
    } else {
      NoSizes();
    }
  }

  lemma NoSizes()
    ensures Sizes([]) == 0
  {
  }

  lemma CalmPending(s: SnakeState)
    requires Calm(s)
    ensures s.eaten == [] && (!s.flags.dead ==> !s.flags.pos)
  {
    hide AllInside, Watching, Sane;
  }

  /** Events other than timer steps leave the bodies of the snakes they keep. */
  lemma OtherBodies(sv: Server, e: Event, id: nat)
    requires Good(sv) && Proper(sv, e) && !e.Timed? && id in sv.snakes && id in Next(sv, e).snakes
    ensures Next(sv, e).snakes[id].parts == sv.snakes[id].parts
    ensures Next(sv, e).snakes[id].fullness == sv.snakes[id].fullness
    ensures Next(sv, e).snakes[id].clientParts == sv.snakes[id].clientParts
    ensures Next(sv, e).snakes[id].flags.dead == sv.snakes[id].flags.dead
    ensures Next(sv, e).snakes[id].speed == sv.snakes[id].speed && Next(sv, e).snakes[id].mov == sv.snakes[id].mov
    ensures Next(sv, e).snakes[id].rot == sv.snakes[id].rot && Next(sv, e).snakes[id].sbb == sv.snakes[id].sbb
    ensures Next(sv, e).snakes[id].angle == sv.snakes[id].angle && Next(sv, e).snakes[id].bot == sv.snakes[id].bot
  {
    hide Good, Linked, StartBody, PointOfView, Tell, Centroid, Placed, Blank, AllCalm, FoodOk, AllSizesOk, Synced, Introduced;
    GoodTicks(sv);
    GivenOut(sv, id);
    match e
    case Opened(_, _, _, _) =>
    case Closed(_) =>
    case Received(_, _) =>
  }

  lemma NextMass(sv: Server, e: Event, id: nat)
    requires Good(sv) && Proper(sv, e) && id in sv.snakes && id in Next(sv, e).snakes
    ensures Mass(Next(sv, e).snakes[id]) == Mass(sv.snakes[id]) + Gain(sv, e, id)
  {
    hide Good, Proper, Timer, MidOf, Sizes, FoodOk, Open, Close, Receive;
    GoodTicks(sv);
    if e.Timed? {
      TimerMass(sv, e.dt, e.env, id);
    } else {
      OtherBodies(sv, e, id);
    }
  }

  /** All that the events i .. j - 1 add to a snake. */
  ghost function Gains(states: seq<Server>, events: seq<Event>, id: nat, i: nat, j: nat): int
    requires i <= j < |states| && j <= |events| && forall k :: i <= k < j ==> FoodOk(states[k].food)
  {
    if i == j then 0 else Gains(states, events, id, i, j - 1) + Gain(states[j - 1], events[j - 1], id)
  }

  /** The mass ledger, whole runs: while a snake is in the table, 100 per part plus fullness is what it was, plus
      all the food it was reported to eat, less 33 per boosted move. */
  lemma {:induction false} AlwaysBalanced(states: seq<Server>, events: seq<Event>, id: nat, i: nat, j: nat)
    requires IsRun(states, events) && i <= j < |states| && There(states, id, i, j)
    ensures Mass(states[j].snakes[id]) == Mass(states[i].snakes[id]) + Gains(states, events, id, i, j)
  {
    hide Good, Proper, Next, Mass, Gain, FoodOk;
    if i < j {
      AlwaysBalanced(states, events, id, i, j - 1);
      AlwaysGood(states, events, j - 1);
      assert states[j] == Next(states[j - 1], events[j - 1]);
      NextMass(states[j - 1], events[j - 1], id);
    }
  }
}
