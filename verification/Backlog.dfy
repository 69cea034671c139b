/** How the server falls behind with a snake's length: it reports one part per move, and a meal can be worth more. */
module Backlog {
  import opened Geometry
  import opened Config
  import opened Movement
  import opened Grid
  import opened Birth
  import opened Collision
  import opened FoodList
  import opened SnakeModel
  import opened SnakeLaws
  import opened Ticks
  import opened TickLaws
  import opened BodyLaws
  import opened WorldModel
  import opened ServerModel
  import opened StepLaws
  import opened Runs
  import opened RunLaws

  /** A moving tick with a meal worth two parts or more makes an exactly reported snake grow by at least two, and
      its turn reports one of them. */
  lemma MealBehind(s: SnakeState, food: FoodMap, dt: nat, inp: Input)
    requires FoodOk(food) && AllSizesOk(food) && Calm(s) && !s.flags.dead && dt <= 517 && !s.accel
    requires s.clientParts == |s.parts| && Moves(s, dt) && Sizes(Meal(s, food, dt, inp)) >= 200
    ensures var t := TickOne(s, food, dt, inp).s;
            |t.parts| >= |s.parts| + 2 && t.flags.pos && Reported(t).clientParts == |s.parts| + 1 < |Reported(t).parts|
  {
    hide Tick, FoodOk, AllSizesOk, AllInside, Watching, Sizes, Meal, Interval, Frames;
    TickLedger(s, food, dt, inp);
    TickFlags(s, food, dt, inp);
    TickBot(s, food, dt, inp);
  }

  const AHEAD := Input(EAST, (y, x) => 0.0)

  /** A snake of three parts as it is laid a thousand from the centre, after its introduction. */
  function Newborn(): SnakeState {
    Placed(Blank(1, 9, Drawn(Draws(9, EAST, 1000.0, 0.0, 0)), 0.0)).(newS := {}, oldS := {})
  }

  /** Two large pieces of food just ahead of it, and none elsewhere. */
  function Feast(): (food: FoodMap)
    ensures FoodOk(food) && AllSizesOk(food)
  {
    seq(SECTORS, k requires 0 <= k < SECTORS =>
      if k == Index(75, 72) then [Food(22641, 21600, 100, 0), Food(22642, 21601, 100, 0)] else [])
  }

  lemma NewbornBody()
    ensures Drawn(Draws(9, EAST, 1000.0, 0.0, 0))
            == [Body(22600.0, 21600.0), Body(22558.0, 21600.0), Body(22516.0, 21600.0)]
  {
    hide LaidAt, CutBody;
    NewbornHead();
    LaidWest(22600, 21600, 0);
    LaidWest(22600, 21600, 1);
    LaidWest(22600, 21600, 2);
  }

  lemma NewbornHead()
    ensures CutBody(CENTRE.Plus(EAST.Times(1000.0))) == Body(22600.0, 21600.0) && EAST.Times(-1.0) == WEST
  {
    CutWhole(22600);
    CutWhole(21600);
    assert CENTRE.Plus(EAST.Times(1000.0)) == Body(22600.0, 21600.0);
  }

  lemma NewbornStart()
    ensures StartBody(Drawn(Draws(9, EAST, 1000.0, 0.0, 0)))
  {
    hide Drawn, Inside;
    NewbornBody();
    EastInside(1000.0);
    EastInside(958.0);
    EastInside(916.0);
  }

  lemma EastInside(d: real)
    requires 0.0 <= d <= 2000.0
    ensures Inside(Body(21600.0 + d, 21600.0), CENTRE, DEATH)
  {
    ProductMonotone(d, 2000.0, d, 2000.0);
  }

  lemma NewbornCalm()
    ensures Calm(Newborn()) && !Newborn().flags.dead && !Newborn().accel && Newborn().speed == 185 && Newborn().mov == 0
    ensures Newborn().clientParts == |Newborn().parts| == 3 && Newborn().parts[0] == Body(22600.0, 21600.0)
  {
    hide Calm, StartBody, Placed, Blank, Drawn, Newborn;
    NewbornBody();
    NewbornIs();
    NewbornStart();
    PlacedLater(1, 9, Drawn(Draws(9, EAST, 1000.0, 0.0, 0)), 0.0, Newborn());
  }

  lemma NewbornIs()
    ensures Newborn() == Placed(Blank(1, 9, Drawn(Draws(9, EAST, 1000.0, 0.0, 0)), 0.0)).(newS := {}, oldS := {})
  {
  }

  lemma PlacedLater(id: nat, skin: int, body: seq<Body>, angle: real, s: SnakeState)
    requires StartBody(body) && s == Placed(Blank(id, skin, body, angle)).(newS := {}, oldS := {})
    ensures Calm(s) && !s.flags.dead && s.clientParts == |body| && s.parts == body
    ensures !s.accel && s.speed == BASE_SPEED && s.mov == 0
  {
    hide Calm, Placed, Blank, AllInside;
    PlacedCalm(id, skin, body, angle);
    PlacedRest(id, skin, body, angle);
  }

  lemma PlacedRest(id: nat, skin: int, body: seq<Body>, angle: real)
    requires body != []
    ensures var r := Placed(Blank(id, skin, body, angle)); !r.accel && r.speed == BASE_SPEED && r.mov == 0 && r.parts == body
  {
  }

  lemma FeastEaten(s: seq<Food>)
    requires s == [Food(22641, 21600, 100, 0), Food(22642, 21601, 100, 0)]
    ensures SortedX(s) && Sizes(Eat(s, 22641, InRange(22641, 21600, 70 * 70)).eaten) == 200
  {
    hide Sizes, LeftEdge, RightEdge;
    var near := InRange(22641, 21600, 70 * 70);
    assert near(s[0]) && near(s[1]);
    FeastRange(s, near);
    assert s[0..0] == [] && s[0..2] == s;
    assert Eat(s, 22641, near).eaten == s;
    TwoSizes(s[0], s[1]);
  }

  lemma FeastRange(s: seq<Food>, near: Food -> bool)
    requires SortedX(s) && |s| == 2 && s[0].x == 22641 && near(s[0]) && near(s[1])
    ensures Closest(s, 22641) == 0 && LeftEdge(s, 0, near) == 0 && RightEdge(s, 0, near) == 2
  {
  }

  lemma TwoSizes(f: Food, g: Food)
    ensures Sizes([f, g]) == f.size + g.size
  {
    assert [f, g][..1] == [f] && [f][..0] == [];
    assert Sizes([]) == 0 && Sizes([f]) == f.size;
  }

  lemma NewbornMeal()
    requires Calm(Newborn())
    ensures Moves(Newborn(), 232) && Sizes(Meal(Newborn(), Feast(), 232, AHEAD)) >= 200
    ensures NewHead(Newborn(), 232, EAST) == Body(22641.995, 21600.0)
  {
    hide Calm, Placed, Follow, AdvancePhase, Eat, Feast;
    NewbornCalm();
    var s, inp := Newborn(), AHEAD;
    assert Interval(185) == 227;
    assert Moves(s, 232) && Frames(s, 232) == 1 && Distance(185, 1) == 41.995;
    AimedFrame(s, 232, inp);
    var a := Aimed(s, 232, inp);
    AdvanceFrame(a, 232, EAST);
    var adv := AdvancePhase(a, 232, EAST);
    FollowsTo(s.parts, Body(22641.995, 21600.0));
    assert Head(adv) == Body(22641.995, 21600.0) && |adv.parts| == 3;
    assert Trunc(22641.995) == 22641 && Reach(3) == 70;
    FeastAt();
    FeastEaten(Feast()[Index(75, 72)]);
  }

  lemma FeastAt()
    ensures Feast()[Index(75, 72)] == [Food(22641, 21600, 100, 0), Food(22642, 21601, 100, 0)]
  {
  }

  lemma FollowsTo(was: seq<Body>, head: Body)
    requires was != []
    ensures Follow(was, head)[0] == head
  {
  }

  /** The server falls behind: a new snake that is reported exactly finds two large pieces of food ahead, and after
      its next tick and turn it is calm again with one part unreported. */
  lemma FallsBehind()
    ensures var s, t := Newborn(), TickOne(Newborn(), Feast(), 232, AHEAD);
            && Calm(s) && s.clientParts == |s.parts| && t.changed
            && Calm(Reported(t.s)) && Reported(t.s).clientParts == 4 && |Reported(t.s).parts| >= 5
  {
    hide Calm, Placed, TickOne, Meal, Sizes, Moves, Feast, Newborn, NewHead, Reported;
    var s, inp := Newborn(), AHEAD;
    NewbornCalm();
    NewbornMeal();
    MealBehind(s, Feast(), 232, inp);
    TickHalfway(s, Feast(), 232, inp);
    CalmTick(s, Feast(), 232, inp);
  }

  /** A tick whose head ends inside the death disc, followed by its turn, leaves the snake calm. */
  lemma CalmTick(s: SnakeState, food: FoodMap, dt: nat, inp: Input)
    requires FoodOk(food) && Calm(s) && !s.flags.dead && dt <= 517 && Dot(inp.dir, inp.dir) == 1.0 && Moves(s, dt)
    requires Halfway(s, TickOne(s, food, dt, inp).s, TickOne(s, food, dt, inp).changed)
    requires Inside(NewHead(s, dt, inp.dir), CENTRE, DEATH)
    ensures TickOne(s, food, dt, inp).changed && Calm(Reported(TickOne(s, food, dt, inp).s))
  {
    hide Tick, Inside, Covers, ViewCircle, NewHead, OnMap, FoodOk;
    var t := TickOne(s, food, dt, inp);
    TickContained(s, food, dt, inp);
    TickFlags(s, food, dt, inp);
    assert AllInside(t.s.parts, CENTRE, DEATH);
    assert t.s.flags.(dying := s.flags.dying) == t.s.flags;
    TurnCalms(s, t.s, true);
  }

  // ---------------------------------------------------------------- on a server

  /** A server whose only food is the feast, just after its first connection. */
  function Start(): Server {
    Open(Server(map[], Feast(), 0, 0, map[], map[], map[]), 7, 9, Drawn(Draws(9, EAST, 1000.0, 0.0, 0)), 0.0)
  }

  lemma StartGood()
    ensures Good(Start()) && Start().snakes == map[1 := Newborn()] && Start().food == Feast() && Start().ticks == 0
  {
    hide Good, Placed, Blank, Drawn, StartBody, Feast, PointOfView, Tell;
    var sv := Server(map[], Feast(), 0, 0, map[], map[], map[]);
    BootGood(sv);
    NewbornStart();
    OpenGood(sv, 7, 9, Drawn(Draws(9, EAST, 1000.0, 0.0, 0)), 0.0);
  }

  /** A snake alone in the world is doomed only by leaving the death disc. */
  lemma AloneSafe(snakes: SnakeMap)
    requires snakes.Keys == {1} && Inside(Head(snakes[1]), CENTRE, DEATH)
    ensures !Doomed(snakes, 1)
  {
    hide Hits, Inside, Meeting;
  }

  lemma FirstTick(env: Env)
    requires env.order == [1] && env.inputs(1) == AHEAD
    ensures var t := TickOne(Newborn(), Feast(), 232, AHEAD);
            TickAll(map[1 := Newborn()], Feast(), 232, env, 1)
            == TickedAll(map[1 := t.s], t.food, if t.changed then [1] else [])
  {
    hide TickOne, Newborn, Feast;
    assert TickAll(map[1 := Newborn()], Feast(), 232, env, 0) == TickedAll(map[1 := Newborn()], Feast(), []);
  }

  lemma MovedHead(s: SnakeState, food: FoodMap, dt: nat, inp: Input)
    requires FoodOk(food) && Calm(s) && !s.flags.dead && dt <= 517 && Dot(inp.dir, inp.dir) == 1.0 && Moves(s, dt)
    ensures var t := TickOne(s, food, dt, inp);
            t.changed && !t.s.flags.dying && !t.s.flags.dead && t.s.parts != [] && Head(t.s) == NewHead(s, dt, inp.dir)
  {
    hide Calm, Tick, NewHead, OnMap, TailInside, Inside, FoodOk, Dot;
    CalmAlive(s);
    TickContained(s, food, dt, inp);
    TickFlags(s, food, dt, inp);
  }

  lemma AheadUnit()
    ensures AHEAD.dir == EAST && Dot(EAST, EAST) == 1.0
  {
  }

  /** The tick of the newborn keeps its head in the disc and marks nothing. */
  lemma NewbornTick()
    ensures var t := TickOne(Newborn(), Feast(), 232, AHEAD);
            t.changed && !t.s.flags.dying && !t.s.flags.dead && t.s.parts != [] && Inside(Head(t.s), CENTRE, DEATH)
  {
    hide Calm, TickOne, Newborn, Feast, NewHead, Inside, Meal, Sizes, Moves, Dot, Head, Sane, Able;
    NewbornCalm();
    NewbornMeal();
    AheadUnit();
    MovedHead(Newborn(), Feast(), 232, AHEAD);
    var p := Body(21600.0 + 1041.995, 21600.0);
    EastInside(1041.995);
    assert p == Body(22641.995, 21600.0);
  }

  lemma CalmAlive(s: SnakeState)
    requires Calm(s) && !s.flags.dead
    ensures Sane(s) && Able(s) && Quiet(s) && AllInside(s.parts, CENTRE, DEATH)
  {
    hide AllInside, Watching;
  }

  /** The same on a server: from the quiescent point after its first connection one timer step leads to a quiescent
      point at which the only snake has a part the server has not reported. */
  lemma ServerFallsBehind(env: Env)
    requires EnvOk(env, map[1 := Newborn()]) && env.order == [1] && env.inputs(1) == AHEAD
    ensures var sv := Start();
            && Good(sv) && Proper(sv, Timed(232, env)) && FoodOk(sv.food)
            && var r := Timer(sv, 232, env);
               Good(r) && 1 in r.snakes && r.snakes[1].clientParts == 4 && |r.snakes[1].parts| >= 5
  {
    hide Good, Calm, TickOne, Newborn, Feast, Start, Timer, Reported, Doomed, TickAll, EnvOk, FoodOk, AllSizesOk, AllCalm;
    var sv := Start();
    StartGood();
    StartFood();
    TimerGood(sv, 232, env);
    StepParts(sv, 232, env);
    FallsBehind();
    FirstTick(env);
    NewbornTick();
    var t := TickOne(Newborn(), Feast(), 232, AHEAD);
    AloneSafe(map[1 := t.s]);
    TimerTable(sv, 232, env);
    var w := TickWorld(WorldOf(sv), 232, env);
    assert w.snakes == MarkAll(map[1 := t.s], [1]);
    assert w.changes == [1] && w.snakes[1] == t.s;
  }

  lemma StartFood()
    ensures FoodOk(Start().food)
  {
    hide Good, Feast;
    StartGood();
  }
}
