/** A settled body is registered where it lies: how the sectors of the snake box follow the parts. */
module Lodging {
  import opened Geometry
  import opened Config
  import opened Movement
  import opened Birth
  import opened Grid
  import opened SnakeModel
  import opened SnakeLaws
  import opened Ticks
  import opened TickLaws
  import opened BodyLaws
  import opened WorldModel
  import opened ServerModel
  import opened StepLaws
  import opened MirrorLaws
  import opened Runs
  import opened RunLaws
  import opened RunBodies

  // ---------------------------------------------------------------- parts and their centroid

  /** Sum of the tight chain distances of the first n parts from the head. */
  function ChainSum(n: nat): real {
    if n == 0 then 0.0 else ChainSum(n - 1) + ChainCap(0, n - 1)
  }

  /** No gap is larger than the mean of the gaps before it. */
  lemma {:induction false} GapBelowMean(i: nat)
    requires i > 0
    ensures i as real * GapCap(i, 42.0) <= ChainCap(0, i)
  {
    var g := GapCap(i, 42.0);
    if i == 1 {
      assert ChainCap(0, 0) == 0.0;
    } else {
      GapBelowMean(i - 1);
      var k, before := (i - 1) as real, GapCap(i - 1, 42.0);
      assert before >= g;
      assert k * before >= k * g by { ProductMonotone(k, k, g, before); }
      assert i as real * g == k * g + g;
      assert ChainCap(0, i) == ChainCap(0, i - 1) + g;
    }
  }

  /** m times part i less the sum of the first m parts. */
  function Spread(parts: seq<Body>, i: nat, m: nat): Body
    requires i < |parts| && m <= |parts|
  {
    parts[i].Times(m as real).Minus(Sum(parts[..m]))
  }

  lemma SpreadMore(parts: seq<Body>, i: nat, m: nat)
    requires i < |parts| && 0 < m <= |parts|
    ensures Spread(parts, i, m) == Spread(parts, i, m - 1).Plus(parts[i].Minus(parts[m - 1]))
  {
    hide Sum;
    SumSnoc(parts, m - 1);
    var k := m - 1;
    assert Sum(parts[..m]) == Sum(parts[..k]).Plus(parts[k]);
    SumMore(parts[i], parts[k], Sum(parts[..k]), k as real);
    assert m as real == k as real + 1.0;
  }

  lemma SumMore(p: Body, q: Body, sum: Body, a: real)
    ensures p.Times(a + 1.0).Minus(sum.Plus(q)) == p.Times(a).Minus(sum).Plus(p.Minus(q))
  {
    assert p.x * (a + 1.0) == p.x * a + p.x && p.y * (a + 1.0) == p.y * a + p.y;
  }

  lemma SpreadNext(parts: seq<Body>, i: nat)
    requires 0 < i < |parts|
    ensures Spread(parts, i, i + 1) == Spread(parts, i - 1, i).Plus(parts[i].Minus(parts[i - 1]).Times(i as real))
  {
    hide Sum;
    SumSnoc(parts, i);
    SumNext(parts[i], parts[i - 1], Sum(parts[..i]), i as real);
  }

  lemma SumNext(p: Body, q: Body, sum: Body, a: real)
    ensures p.Times(a + 1.0).Minus(sum.Plus(p)) == q.Times(a).Minus(sum).Plus(p.Minus(q).Times(a))
  {
    assert p.x * (a + 1.0) == p.x * a + p.x && p.y * (a + 1.0) == p.y * a + p.y;
    assert (p.x - q.x) * a == p.x * a - q.x * a && (p.y - q.y) * a == p.y * a - q.y * a;
  }

  /** In a tight body no part is further from the first m parts, in sum, than the head of a stretched one. */
  lemma {:induction false} SpreadShort(parts: seq<Body>, i: nat, m: nat)
    requires i < m <= |parts| && GapProfile(parts, 42.0)
    ensures Short(Spread(parts, i, m), ChainSum(m))
    decreases m
  {
    hide Short, GapCap, Spread, ChainCap;
    var before := ChainSum(m - 1);
    if i < m - 1 {
      SpreadShort(parts, i, m - 1);
      SpreadMore(parts, i, m);
      ChainReach(parts, i, m - 1);
      ChainCapSplit(i, m - 1);
      ShortWeaken(parts[i].Minus(parts[m - 1]), ChainCap(i, m - 1), ChainCap(0, m - 1));
      ShortSum(Spread(parts, i, m - 1), parts[i].Minus(parts[m - 1]), before, ChainCap(0, m - 1));
    } else if i > 0 {
      SpreadShort(parts, i - 1, m - 1);
      SpreadNext(parts, i);
      var g, k := GapCap(i, 42.0), i as real;
      assert Near(parts[i - 1], parts[i], g);
      NearSwap(parts[i - 1], parts[i], g);
      ShortScale(parts[i].Minus(parts[i - 1]), g, k);
      GapBelowMean(i);
      ShortWeaken(parts[i].Minus(parts[i - 1]).Times(k), k * g, ChainCap(0, i));
      ShortSum(Spread(parts, i - 1, i), parts[i].Minus(parts[i - 1]).Times(k), before, ChainCap(0, i));
    } else {
      SpreadHead(parts);
    }
  }

  lemma SpreadHead(parts: seq<Body>)
    requires |parts| > 0
    ensures Short(Spread(parts, 0, 1), ChainSum(1))
  {
    assert parts[..1] == [parts[0]];
    assert Sum([]) == Body(0.0, 0.0);
    assert Sum([parts[0]]) == parts[0];
    assert ChainSum(1) == 0.0;
  }

  lemma {:induction false} ChainLine(n: nat)
    requires n >= 6
    ensures ChainCap(0, n) == 63.21 + 23.94 * n as real
  {
    if n > 6 {
      ChainLine(n - 1);
      assert Coeff(n) == TAIL_K;
    } else {
      ChainStart();
    }
  }

  lemma ChainStart()
    ensures ChainCap(0, 0) == 0.0 && ChainCap(0, 1) == 42.0 && ChainCap(0, 2) == 84.0 && ChainCap(0, 3) == 121.485
    ensures ChainCap(0, 4) == 154.455 && ChainCap(0, 5) == 182.91 && ChainCap(0, 6) == 206.85
  {
    assert ChainCap(0, 0) == 0.0;
    assert ChainCap(0, 1) == 42.0;
    assert ChainCap(0, 2) == 84.0;
    assert ChainCap(0, 3) == 121.485;
    assert ChainCap(0, 4) == 154.455;
    assert ChainCap(0, 5) == 182.91;
  }

  /** The mean chain distance from the head is within the box radius. */
  lemma {:induction false} ChainSumBound(n: nat)
    requires n > 0
    ensures ChainSum(n) <= n as real * BoxRadius(n)
  {
    hide ChainCap, BoxRadius;
    if n > 8 {
      ChainSumBound(n - 1);
      ChainLine(n - 1);
      RadiusStep(n);
    } else {
      ChainSums();
      RadiusStart(n);
    }
  }

  lemma RadiusStep(n: nat)
    requires n > 8
    ensures n as real * BoxRadius(n) == (n - 1) as real * BoxRadius(n - 1) + 24.0 * n as real + 44.45
  {
    var k := n as real;
    RadiusLine(n);
    RadiusLine(n - 1);
    hide BoxRadius;
    assert (k - 1.0) * (56.45 + 12.0 * (k - 1.0)) == k * (56.45 + 12.0 * k) - 24.0 * k - 44.45;
  }

  lemma RadiusLine(n: nat)
    requires n >= 8
    ensures BoxRadius(n) == 56.45 + 12.0 * n as real
  {
  }

  lemma RadiusStart(n: nat)
    requires n <= 8
    ensures BoxRadius(n) == 152.45
  {
  }

  lemma ChainSums()
    ensures ChainSum(1) == 0.0 && ChainSum(2) == 42.0 && ChainSum(3) == 126.0 && ChainSum(4) == 247.485
    ensures ChainSum(5) == 401.94 && ChainSum(6) == 584.85 && ChainSum(7) == 791.7 && ChainSum(8) == 1022.49
  {
    ChainStart();
    ChainLine(7);
    hide ChainCap;
    assert ChainSum(0) == 0.0;
    assert ChainSum(1) == 0.0;
    assert ChainSum(2) == 42.0;
    assert ChainSum(3) == 126.0;
    assert ChainSum(4) == 247.485;
    assert ChainSum(5) == 401.94;
    assert ChainSum(6) == 584.85;
    assert ChainSum(7) == 791.7;
  }

  /** No part of a tight body is further from the centroid than the box radius. */
  lemma PartInBox(parts: seq<Body>, i: nat)
    requires i < |parts| && GapProfile(parts, 42.0)
    ensures Near(parts[i], Centroid(parts), BoxRadius(|parts|))
  {
    hide Short, BoxRadius, ChainSum, Sum, GapProfile;
    var n, r := |parts|, BoxRadius(|parts|);
    SpreadShort(parts, i, n);
    ChainSumBound(n);
    assert parts[..n] == parts;
    MeanShort(parts[i], Sum(parts), n, ChainSum(n), r);
  }

  lemma MeanShort(p: Body, sum: Body, n: nat, a: real, r: real)
    requires n > 0 && Short(p.Times(n as real).Minus(sum), a) && a <= n as real * r
    ensures Near(p, Body(sum.x / n as real, sum.y / n as real), r)
  {
    hide Short;
    var u, k, b := p.Times(n as real).Minus(sum), 1.0 / n as real, n as real * r;
    ShortWeaken(u, a, b);
    ShortScale(u, b, k);
    assert k * b == r by { Shares(n, r); }
    assert u.Times(k) == p.Minus(Body(sum.x / n as real, sum.y / n as real)) by { Divide(p.x, sum.x, n); Divide(p.y, sum.y, n); }
  }

  lemma Shares(n: nat, r: real)
    requires n > 0
    ensures (1.0 / n as real) * (n as real * r) == r
  {
    var a, k := n as real, 1.0 / n as real;
    assert k * a == 1.0;
    assert k * (a * r) == (k * a) * r;
  }

  lemma Divide(x: real, s: real, n: nat)
    requires n > 0
    ensures (x * n as real - s) * (1.0 / n as real) == x - s / n as real
  {
    var a, k := n as real, 1.0 / n as real;
    assert k * a == 1.0;
    assert (x * a - s) * k == x * (a * k) - s * k;
    assert s / a == s * k;
  }

  // ---------------------------------------------------------------- cells

  /** The sector a point of the map lies in. */
  function CellOf(p: Body): (k: nat)
    requires OnMap(p)
    ensures k < SECTORS
  {
    OnMapCells(p);
    Index(Cell(p.x), Cell(p.y))
  }

  lemma OnMapCells(p: Body)
    requires OnMap(p)
    ensures InMap(Cell(p.x), Cell(p.y))
  {
    CellBounds(p.x);
    CellBounds(p.y);
  }

  /** The centre of its sector is within reach of the circle around any point near enough. */
  lemma CellMeets(p: Body, c: Circle)
    requires OnMap(p) && c.r >= 0.0 && Near(p, Body(c.x, c.y), c.r)
    ensures Meets(CellOf(p), c)
  {
    CellBounds(p.x);
    CellBounds(p.y);
    OnMapCells(p);
    var m := Centre(CellOf(p));
    var u, v := m.Minus(p), p.Minus(Body(c.x, c.y));
    SquareWithin(u.x, 150.0);
    SquareWithin(u.y, 150.0);
    assert Short(u, SECTOR_RADIUS);
    ShortSum(u, v, SECTOR_RADIUS, c.r);
    assert u.Plus(v) == m.Minus(Body(c.x, c.y));
  }


  /** Parts whose crossings are looked at: the head and all from the seventh on. */
  predicate Tested(i: nat) {
    i == 0 || i >= 7
  }


  // ---------------------------------------------------------------- one tick

  /** The sectors of an advance. */
  lemma AdvanceBox(s: SnakeState, dt: nat, dir: Body)
    requires 0 < s.speed <= BOOST_SPEED && s.parts != []
    ensures var parts := Follow(s.parts, NewHead(s, dt, dir));
            AdvancePhase(s, dt, dir).sbb
            == EnteredUpTo(s.sbb, s.parts, parts, |parts|)
               * Meeting(Circle(Centroid(parts).x, Centroid(parts).y, BoxRadius(|parts|)))
  {
    hide Follow, Distance, EnteredUpTo, Appearing, Meeting, Centroid, BoxRadius, ViewCircle;
  }

  /** A tick that moves a tight body by at most one step. */
  ghost predicate TightMove(s: SnakeState, food: FoodMap, dt: nat, inp: Input) {
    && FoodOk(food) && Sane(s) && Quiet(s) && dt <= 517 && Dot(inp.dir, inp.dir) == 1.0
    && AllInside(s.parts, CENTRE, DEATH) && StepOf(s, dt) <= 42.0 && GapProfile(s.parts, 42.0)
  }

  /** The body right after the move, before it eats or burns. */
  function MovedBody(s: SnakeState, dt: nat, dir: Body): seq<Body>
    requires 0 < s.speed <= BOOST_SPEED && s.parts != []
  {
    Follow(s.parts, NewHead(s, dt, dir))
  }

  lemma MoveRegion(s: SnakeState, food: FoodMap, dt: nat, inp: Input)
    requires TightMove(s, food, dt, inp) && Moves(s, dt)
    ensures var t, parts := Tick(s, food, dt, inp).s, MovedBody(s, dt, inp.dir);
            && GapProfile(parts, 42.0) && |parts| == |s.parts|
            && (forall i :: 0 <= i < |parts| ==> OnMap(parts[i]))
            && (forall i :: 0 <= i < |parts| && i < |t.parts| ==> t.parts[i] == parts[i])
            && t.sbb == EnteredUpTo(s.sbb, s.parts, parts, |parts|)
                        * Meeting(Circle(Centroid(parts).x, Centroid(parts).y, BoxRadius(|parts|)))
  {
    hide Tick, Short, Distance, Interval, GapProfile, Follow, FollowAt, EnteredUpTo, Meeting, Centroid, BoxRadius, Aimed, AdvancePhase, Inside, OnMap, FoodOk, Dot;
    var head := NewHead(s, dt, inp.dir);
    TickRegion(s, food, dt, inp);
    AimedFrame(s, dt, inp);
    AdvanceBox(Aimed(s, dt, inp), dt, inp.dir);
    TickBody(s, food, dt, inp);
    HeadStays(s, dt, inp.dir);
    StepBound(s, dt);
    HeadStep(s.parts[0], inp.dir, StepOf(s, dt));
    ShortWeaken(head.Minus(s.parts[0]), StepOf(s, dt), 42.0);
    MoveKeepsProfile(s.parts, head, 42.0);
    forall i | 0 <= i < |s.parts|
      ensures OnMap(Follow(s.parts, head)[i])
    {
      FollowOnMap(s.parts, head, i);
    }
  }

  lemma FollowOnMap(was: seq<Body>, head: Body, i: nat)
    requires i < |was| && AllInside(was, CENTRE, DEATH) && OnMap(head)
    ensures OnMap(Follow(was, head)[i])
  {
    hide Inside, OnMap;
    if i > 0 {
      FollowTailInside(was, head, i);
      InsideIsOnMap(FollowAt(was, head, i));
    }
  }

  lemma InsideIsOnMap(p: Body)
    requires Inside(p, CENTRE, DEATH)
    ensures OnMap(p)
  {
    NearSelf(p, 294.0);
    DiscMargin(p, p);
  }

  /** Part i crossed into another sector and the circle of half a sector around it meets k. */
  ghost predicate Brings(was: seq<Body>, parts: seq<Body>, i: nat, k: nat)
    requires i < |was| == |parts|
  {
    Tested(i) && Crossed(parts[i], was[i]) && Dist2(Centre(k), parts[i]) <= 362.5 * 362.5
  }

  lemma {:induction false} EnteredIff(sbb: set<nat>, was: seq<Body>, parts: seq<Body>, n: nat, k: nat)
    requires n <= |was| == |parts| && k < SECTORS
    ensures k in EnteredUpTo(sbb, was, parts, n) <==> k in sbb || exists i :: 0 <= i < n && Brings(was, parts, i, k)
  {
    hide Crossed, Dot, Dist2;
    if n > 0 {
      EnteredIff(sbb, was, parts, n - 1, k);
      var p := parts[n - 1];
      assert k in Meeting(Circle(p.x, p.y, 150.0)) <==> Dist2(Centre(k), p) <= 362.5 * 362.5 by { MeetsPart(k, p); }
      assert Brings(was, parts, n - 1, k) <==> Tested(n - 1) && Crossed(p, was[n - 1]) && Dist2(Centre(k), p) <= 362.5 * 362.5;
    }
  }

  lemma MeetsPart(k: nat, p: Body)
    ensures Meets(k, Circle(p.x, p.y, 150.0)) <==> Dist2(Centre(k), p) <= 362.5 * 362.5
  {
    assert Body(p.x, p.y) == p;
  }

  /** How far from the centroid of a body of n parts the centre of a registered sector can be. */
  function Keeps(n: nat): real {
    if n <= 8 then 364.95 else 268.95 + 12.0 * n as real
  }

  /** Which sectors a moving tick leaves registered, whatever the shape of the body. */
  lemma TickRegistered(s: SnakeState, food: FoodMap, dt: nat, inp: Input, k: nat)
    requires FoodOk(food) && Sane(s) && Quiet(s) && Moves(s, dt) && k < SECTORS
    ensures var parts := MovedBody(s, dt, inp.dir);
            k in Tick(s, food, dt, inp).s.sbb
            <==> Dist2(Centre(k), Centroid(parts)) <= Keeps(|parts|) * Keeps(|parts|)
                 && (k in s.sbb || exists i :: 0 <= i < |parts| && Brings(s.parts, parts, i, k))
  {
    hide Tick, Distance, Interval, Follow, EnteredUpTo, Centroid, BoxRadius, Aimed, AdvancePhase, FoodOk, Dist2, Brings, Keeps;
    var parts := MovedBody(s, dt, inp.dir);
    TickRegion(s, food, dt, inp);
    AimedFrame(s, dt, inp);
    AdvanceBox(Aimed(s, dt, inp), dt, inp.dir);
    EnteredIff(s.sbb, s.parts, parts, |parts|, k);
    KeepsIs(|parts|);
    var c := Centroid(parts);
    assert Body(c.x, c.y) == c;
  }

  lemma KeepsIs(n: nat)
    ensures Keeps(n) == SECTOR_RADIUS + BoxRadius(n)
  {
  }

  /** Exactly when the sector a part of a tight body lies in after a tick is registered then: when it was before, or
      some looked-at part crossed into another sector near enough. In particular no such sector is ever dropped. */
  lemma TickLodgedIff(s: SnakeState, food: FoodMap, dt: nat, inp: Input, x: nat)
    requires TightMove(s, food, dt, inp) && x < |s.parts| && x < |Tick(s, food, dt, inp).s.parts|
    ensures var t := Tick(s, food, dt, inp).s;
            && OnMap(t.parts[x])
            && (CellOf(t.parts[x]) in t.sbb
                <==> CellOf(t.parts[x]) in s.sbb
                     || (Moves(s, dt) && exists i :: 0 <= i < |s.parts| && Brings(s.parts, MovedBody(s, dt, inp.dir), i, CellOf(t.parts[x]))))
  {
    hide Tick, Interval, GapProfile, MovedBody, EnteredUpTo, BoxRadius, Inside, OnMap, FoodOk, CellOf, StepOf, Centroid, Meets, Dot, Brings;
    if Moves(s, dt) {
      MoveRegion(s, food, dt, inp);
      var parts := MovedBody(s, dt, inp.dir);
      var k, c := CellOf(parts[x]), Circle(Centroid(parts).x, Centroid(parts).y, BoxRadius(|parts|));
      PartInBox(parts, x);
      assert Body(c.x, c.y) == Centroid(parts);
      CellMeets(parts[x], c) by { RadiusPositive(|parts|); }
      EnteredIff(s.sbb, s.parts, parts, |parts|, k);
    } else {
      TickIdle(s, food, dt, inp);
      InsideIsOnMap(s.parts[x]);
    }
  }

  lemma RadiusPositive(n: nat)
    ensures BoxRadius(n) >= 0.0
  {
  }

  /** A looked-at part of a tight body that crosses into another sector is registered there, and while it stays in
      a sector where it is registered it remains so. */
  lemma TickLodged(s: SnakeState, food: FoodMap, dt: nat, inp: Input, x: nat)
    requires TightMove(s, food, dt, inp) && x < |s.parts| && x < |Tick(s, food, dt, inp).s.parts|
    ensures var t := Tick(s, food, dt, inp).s;
            && OnMap(s.parts[x]) && OnMap(t.parts[x])
            && (CellOf(t.parts[x]) in s.sbb ==> CellOf(t.parts[x]) in t.sbb)
            && (Tested(x) && CellOf(t.parts[x]) != CellOf(s.parts[x]) ==> CellOf(t.parts[x]) in t.sbb)
  {
    hide Tick, Interval, GapProfile, MovedBody, EnteredUpTo, BoxRadius, Inside, OnMap, FoodOk, CellOf, StepOf, Centroid, Meets, Dot, Brings;
    TickLodgedIff(s, food, dt, inp, x);
    InsideIsOnMap(s.parts[x]);
    var t := Tick(s, food, dt, inp).s;
    if Moves(s, dt) {
      MoveRegion(s, food, dt, inp);
      if Tested(x) && CellOf(t.parts[x]) != CellOf(s.parts[x]) {
        CrossingBrings(s.parts, MovedBody(s, dt, inp.dir), x);
      }
    } else {
      TickIdle(s, food, dt, inp);
    }
  }

  lemma CrossingBrings(was: seq<Body>, parts: seq<Body>, x: nat)
    requires x < |was| == |parts| && Tested(x) && OnMap(was[x]) && OnMap(parts[x]) && CellOf(parts[x]) != CellOf(was[x])
    ensures Brings(was, parts, x, CellOf(parts[x]))
  {
    hide Meets, Short, Dist2;
    var p := parts[x];
    NearSelf(p, 150.0);
    assert Body(p.x, p.y) == p;
    CellMeets(p, Circle(p.x, p.y, 150.0));
    MeetsPart(CellOf(p), p);
  }

  // ---------------------------------------------------------------- runs

  /** Part x lies in a sector the snake is registered in. */
  ghost predicate Lodged(s: SnakeState, x: nat) {
    x < |s.parts| && OnMap(s.parts[x]) && CellOf(s.parts[x]) in s.sbb
  }

  lemma PartOnMap(s: SnakeState, x: nat)
    requires Calm(s) && x < |s.parts|
    ensures OnMap(s.parts[x])
  {
    hide OnMap, Inside, Watching;
    if x > 0 || !s.flags.dead {
      InsideIsOnMap(s.parts[x]);
    }
  }

  /** In this event a looked-at part of the living snake crosses into another sector near enough to k. */
  ghost predicate Brought(sv: Server, e: Event, id: nat, k: nat) {
    e.Timed? && WholeFrames(sv.ticks, e.dt) > 0 && Alive(sv, id) && Sane(sv.snakes[id])
    && Moves(sv.snakes[id], WholeFrames(sv.ticks, e.dt))
    && (var was := sv.snakes[id].parts;
        exists q :: 0 <= q < |was|
          && Brings(was, MovedBody(sv.snakes[id], WholeFrames(sv.ticks, e.dt), e.env.inputs(id).dir), q, k))
  }

  lemma TimerLodged(sv: Server, dt: nat, env: Env, id: nat, x: nat)
    requires Good(sv) && Proper(sv, Timed(dt, env)) && FoodOk(sv.food) && id in sv.snakes && id in Timer(sv, dt, env).snakes
    requires HeadsWithin(sv, Timed(dt, env), 42.0) && GapProfile(sv.snakes[id].parts, 42.0)
    requires x < |sv.snakes[id].parts| && x < |Timer(sv, dt, env).snakes[id].parts|
    ensures var s, t := sv.snakes[id], Timer(sv, dt, env).snakes[id];
            && OnMap(s.parts[x]) && OnMap(t.parts[x])
            && (CellOf(t.parts[x]) in t.sbb <==> CellOf(t.parts[x]) in s.sbb || Brought(sv, Timed(dt, env), id, CellOf(t.parts[x])))
            && (Tested(x) && CellOf(t.parts[x]) != CellOf(s.parts[x]) ==> CellOf(t.parts[x]) in t.sbb)
  {
    hide Good, Timer, EnvOk, Tick, FoodOk, AllSizesOk, MidOf, Dot, StepOf, Calm, GapProfile, OnMap, CellOf, Tested, Sane;
    var food := Survivor(sv, dt, env, id);
    var s := sv.snakes[id];
    CalmSane(s);
    PartOnMap(s, x);
    if !s.flags.dead && WholeFrames(sv.ticks, dt) > 0 {
      CalmMove(s, food, WholeFrames(sv.ticks, dt), env.inputs(id));
      TickLodgedIff(s, food, WholeFrames(sv.ticks, dt), env.inputs(id), x);
      TickLodged(s, food, WholeFrames(sv.ticks, dt), env.inputs(id), x);
    }
  }

  lemma CalmMove(s: SnakeState, food: FoodMap, dt: nat, inp: Input)
    requires FoodOk(food) && Calm(s) && !s.flags.dead && dt <= 517 && Dot(inp.dir, inp.dir) == 1.0
    requires StepOf(s, dt) <= 42.0 && GapProfile(s.parts, 42.0)
    ensures TightMove(s, food, dt, inp)
  {
    hide Watching, GapProfile, StepOf, FoodOk;
  }

  lemma NextLodged(sv: Server, e: Event, id: nat, x: nat)
    requires Good(sv) && Proper(sv, e) && id in sv.snakes && id in Next(sv, e).snakes
    requires HeadsWithin(sv, e, 42.0) && GapProfile(sv.snakes[id].parts, 42.0)
    requires x < |sv.snakes[id].parts| && x < |Next(sv, e).snakes[id].parts|
    ensures var s, t := sv.snakes[id], Next(sv, e).snakes[id];
            && OnMap(s.parts[x]) && OnMap(t.parts[x])
            && (CellOf(t.parts[x]) in t.sbb <==> CellOf(t.parts[x]) in s.sbb || Brought(sv, e, id, CellOf(t.parts[x])))
            && (Tested(x) && CellOf(t.parts[x]) != CellOf(s.parts[x]) ==> CellOf(t.parts[x]) in t.sbb)
  {
    hide Good, Proper, Timer, MidOf, FoodOk, Open, Close, Receive, HeadsWithin, GapProfile, OnMap, CellOf, Tested, Calm;
    GoodTicks(sv);
    CalmAt(sv, id);
    PartOnMap(sv.snakes[id], x);
    if e.Timed? {
      TimerLodged(sv, e.dt, e.env, id, x);
    } else {
      OtherBodies(sv, e, id);
    }
  }

  lemma NextTight(sv: Server, e: Event, id: nat)
    requires Good(sv) && Proper(sv, e) && id in sv.snakes && id in Next(sv, e).snakes
    requires HeadsWithin(sv, e, 42.0) && GapProfile(sv.snakes[id].parts, 42.0)
    ensures GapProfile(Next(sv, e).snakes[id].parts, 42.0)
  {
    hide Good, Proper, Next, HeadsWithin, GapProfile, SettledTo, FoodOk;
    GoodTicks(sv);
    var p, q := sv.snakes[id].parts, Next(sv, e).snakes[id].parts;
    var k := |p| + |q|;
    SettledAll(p, 42.0, k);
    NextSettles(sv, e, id, 42.0, k);
    SettledAll(q, 42.0, if Stepped(sv, e, id) then k + 1 else k);
  }

  /** The snake is in the table with a part x at all points i .. j. */
  ghost predicate HasPart(states: seq<Server>, id: nat, x: nat, i: nat, j: nat)
    requires i <= j < |states|
  {
    forall k :: i <= k <= j ==> id in states[k].snakes && x < |states[k].snakes[id].parts|
  }

  lemma {:induction false} AlwaysTight(states: seq<Server>, events: seq<Event>, id: nat, i: nat, j: nat)
    requires IsRun(states, events) && i <= j < |states| && There(states, id, i, j) && Punctual(states[0])
    requires forall k :: 0 <= k < |events| ==> Prompt(events[k])
    requires GapProfile(states[i].snakes[id].parts, 42.0)
    ensures GapProfile(states[j].snakes[id].parts, 42.0)
  {
    hide Good, Proper, Next, GapProfile, HeadsWithin, Punctual;
    if i < j {
      AlwaysTight(states, events, id, i, j - 1);
      AlwaysGood(states, events, j - 1);
      PromptSteps(states, events, j - 1, 42.0);
      assert states[j] == Next(states[j - 1], events[j - 1]);
      NextTight(states[j - 1], events[j - 1], id);
    }
  }

  /** Registration, whole prompt runs: take a looked-at part of a body that is tight at point i. If its sector was
      registered at i, or it lies in another sector at j than at i, its sector is registered at j. */
  lemma {:induction false} AlwaysLodged(states: seq<Server>, events: seq<Event>, id: nat, x: nat, i: nat, j: nat)
    requires IsRun(states, events) && i <= j < |states| && HasPart(states, id, x, i, j) && Punctual(states[0])
    requires forall k :: 0 <= k < |events| ==> Prompt(events[k])
    requires Tested(x) && GapProfile(states[i].snakes[id].parts, 42.0)
    ensures OnMap(states[i].snakes[id].parts[x]) && OnMap(states[j].snakes[id].parts[x])
    ensures var s, t := states[i].snakes[id], states[j].snakes[id];
            Lodged(s, x) || CellOf(s.parts[x]) != CellOf(t.parts[x]) ==> Lodged(t, x)
  {
    hide Good, Proper, Next, GapProfile, HeadsWithin, Punctual, OnMap, CellOf, Calm, Tested, AllCalm;
    AlwaysGood(states, events, i);
    GoodTicks(states[i]);
    CalmAt(states[i], id);
    PartOnMap(states[i].snakes[id], x);
    if i < j {
      AlwaysLodged(states, events, id, x, i, j - 1);
      AlwaysTight(states, events, id, i, j - 1);
      AlwaysGood(states, events, j - 1);
      PromptSteps(states, events, j - 1, 42.0);
      NextLodged(states[j - 1], events[j - 1], id, x);
    }
  }

  /** Exactly when the sector of a part, looked at or not, that stays in one sector from i to j is registered at j:
      if it was at i, or a looked-at part crossed into another sector near enough in between. */
  lemma {:induction false} LodgedIff(states: seq<Server>, events: seq<Event>, id: nat, x: nat, k: nat, i: nat, j: nat)
    requires IsRun(states, events) && i <= j < |states| && HasPart(states, id, x, i, j) && Punctual(states[0])
    requires forall n :: 0 <= n < |events| ==> Prompt(events[n])
    requires GapProfile(states[i].snakes[id].parts, 42.0)
    requires forall n :: i <= n <= j ==> OnMap(states[n].snakes[id].parts[x]) && CellOf(states[n].snakes[id].parts[x]) == k
    ensures k in states[j].snakes[id].sbb
            <==> k in states[i].snakes[id].sbb || exists n :: i <= n < j && Brought(states[n], events[n], id, k)
  {
    hide Good, Proper, Next, GapProfile, HeadsWithin, Punctual, OnMap, CellOf, Calm, Tested, AllCalm, Brought;
    if i < j {
      LodgedIff(states, events, id, x, k, i, j - 1);
      AlwaysTight(states, events, id, i, j - 1);
      AlwaysGood(states, events, j - 1);
      PromptSteps(states, events, j - 1, 42.0);
      assert CellOf(states[j].snakes[id].parts[x]) == k;
      NextLodged(states[j - 1], events[j - 1], id, x);
    }
  }

  /** `AlwaysLodged` from any starting body, once the snake has moved as often as it has gaps. */
  lemma SettledLodged(states: seq<Server>, events: seq<Event>, id: nat, x: nat, l: nat, i: nat, j: nat)
    requires IsRun(states, events) && l <= i <= j < |states| && Punctual(states[0])
    requires There(states, id, l, i) && HasPart(states, id, x, i, j)
    requires forall k :: 0 <= k < |events| ==> Prompt(events[k])
    requires Steps(states, events, id, l, i) >= |states[i].snakes[id].parts| - 1
    requires Tested(x)
    ensures OnMap(states[i].snakes[id].parts[x]) && OnMap(states[j].snakes[id].parts[x])
    ensures var s, t := states[i].snakes[id], states[j].snakes[id];
            Lodged(s, x) || CellOf(s.parts[x]) != CellOf(t.parts[x]) ==> Lodged(t, x)
  {
    hide Good, Proper, Next, GapProfile, Punctual, OnMap, CellOf, Tested, Stepped, Short, BoxLength, FoodOk, Lodged;
    PromptRunSettles(states, events, id, l, i);
    AlwaysLodged(states, events, id, x, i, j);
  }

  // ---------------------------------------------------------------- first registration, and views

  /** Which sectors a new snake is registered in: those with their centre within 362.5 of its head, or of its part 3,
      15, 27 and so on. */
  lemma BornRegistered(id: nat, skin: int, body: seq<Body>, angle: real, k: nat)
    requires StartBody(body) && k < SECTORS
    ensures k in Placed(Blank(id, skin, body, angle)).sbb
            <==> exists i :: 0 <= i < |body| && (i == 0 || i % 12 == 3) && Dist2(Centre(k), body[i]) <= 362.5 * 362.5
  {
    hide Centroid, BoxRadius, Appearing, Inside, Dist2, Crossed, Meets;
    assert Inside(body[0], CENTRE, DEATH);
    FarFromOrigin(body[0]);
    MeetsPart(k, body[0]);
    var first := Entered({}, body[0], ORIGIN);
    assert k in first <==> Dist2(Centre(k), body[0]) <= 362.5 * 362.5;
    InitIff(first, body, 3, k);
  }

  lemma FarFromOrigin(p: Body)
    requires Inside(p, CENTRE, DEATH)
    ensures Crossed(p, ORIGIN)
  {
    ShortAxis(p.Minus(CENTRE), DEATH);
    CellBounds(p.x);
    CellBounds(0.0);
  }

  lemma {:induction false} InitIff(sbb: set<nat>, body: seq<Body>, i: nat, k: nat)
    requires AllInside(body, CENTRE, DEATH) && i % 12 == 3 && k < SECTORS
    ensures k in InitEntered(sbb, body, i)
            <==> k in sbb || exists n :: i <= n < |body| && n % 12 == 3 && Dist2(Centre(k), body[n]) <= 362.5 * 362.5
    decreases |body| - i
  {
    hide Inside, Dist2, Crossed, Meets;
    if i < |body| {
      FarFromOrigin(body[i]);
      MeetsPart(k, body[i]);
      InitIff(Entered(sbb, body[i], ORIGIN), body, i + 12, k);
      assert forall n :: i <= n < |body| && n % 12 == 3 ==> n == i || i + 12 <= n;
    }
  }

  /** Which sectors a moving player has in view: of those it had, and, if its head crossed into another sector, of
      the seven by seven around the new one within 1487.5 of the old head, those within 1487.5 of the new head. */
  lemma TickViewed(s: SnakeState, food: FoodMap, dt: nat, inp: Input, k: nat)
    requires FoodOk(food) && Sane(s) && Quiet(s) && Moves(s, dt) && !s.bot && k < SECTORS && s.view == ViewCircle(s.parts[0])
    ensures var p, h := s.parts[0], NewHead(s, dt, inp.dir);
            k in Tick(s, food, dt, inp).s.vp
            <==> Dist2(Centre(k), h) <= 1487.5 * 1487.5
                 && (k in s.vp || (Crossed(h, p) && Around(k, h, 3) && Dist2(Centre(k), p) <= 1487.5 * 1487.5))
  {
    hide Distance, Interval, Tick, Aimed, AdvancePhase, FoodOk, Dist2, Crossed, Around;
    AimedFrame(s, dt, inp);
    TickRegion(s, food, dt, inp);
    AdvanceView(Aimed(s, dt, inp), dt, inp.dir);
    var p, h := s.parts[0], NewHead(s, dt, inp.dir);
    assert Body(p.x, p.y) == p && Body(h.x, h.y) == h;
  }

  /** What a new player has in view: of the seven by seven sectors around its head those within 1487.5 of it. */
  lemma BornViewed(id: nat, skin: int, body: seq<Body>, angle: real, k: nat)
    requires StartBody(body) && k < SECTORS
    ensures k in Placed(Blank(id, skin, body, angle)).vp
            <==> Around(k, body[0], 3) && Dist2(Centre(k), body[0]) <= 1487.5 * 1487.5
  {
    hide Centroid, BoxRadius, InitEntered, Entered, Inside, Dist2, Crossed, Around;
    var p := body[0];
    assert Inside(p, CENTRE, DEATH);
    FarFromOrigin(p);
    assert Body(p.x, p.y) == p;
  }
}
