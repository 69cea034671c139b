/** What every tick keeps of the body's shape and of the viewport. */
module BodyLaws {
  import opened Geometry
  import opened Config
  import opened Movement
  import opened Grid
  import opened FoodList
  import opened SnakeModel
  import opened SnakeLaws
  import opened Ticks
  import opened TickLaws

  // ---------------------------------------------------------------- growth and shrink

  /** q is p cut short, or continued with copies of its last part. */
  ghost predicate Resized(p: seq<Body>, q: seq<Body>) {
    |p| >= 3 && |q| >= 3 && forall i :: 0 <= i < |q| ==> q[i] == p[if i < |p| then i else |p| - 1]
  }

  lemma {:induction false} GulpResized(s: SnakeState, foods: seq<Food>)
    requires |s.parts| >= 3
    ensures Resized(s.parts, Gulp(s, foods).parts) && |Gulp(s, foods).parts| >= |s.parts|
  {
    if foods != [] {
      GulpResized(s, foods[..|foods| - 1]);
    }
  }

  lemma {:induction false} DropTailResized(o: Pair, count: nat)
    requires FoodOk(o.food) && |o.s.parts| >= 3
    ensures Resized(o.s.parts, DropTail(o, count).s.parts) && |DropTail(o, count).s.parts| <= |o.s.parts|
  {
    if count > 0 {
      DropTailResized(o, count - 1);
    }
  }

  lemma EatResized(o: Pair)
    requires FoodOk(o.food) && |o.s.parts| >= 3
    ensures Resized(o.s.parts, EatFood(o).s.parts) && |EatFood(o).s.parts| >= |o.s.parts|
  {
    hide Trunc, Reach, InRange, Eat;
    var h := Head(o.s);
    var i, j, r := Trunc(h.x) / SECTOR_SIZE, Trunc(h.y) / SECTOR_SIZE, Reach(|o.s.parts|);
    if InMap(i, j) {
      GulpResized(o.s, Eat(o.food[Index(i, j)], Trunc(h.x), InRange(Trunc(h.x), Trunc(h.y), r * r)).eaten);
    }
  }

  lemma BurnResized(o: Pair)
    requires FoodOk(o.food) && |o.s.parts| >= 3
    ensures Resized(o.s.parts, Burn(o).s.parts) && |Burn(o).s.parts| <= |o.s.parts|
  {
    if 33 > o.s.fullness {
      DropTailResized(o, 1 + (33 - o.s.fullness) / 100);
    }
  }

  /** The head's target of a tick. */
  function NewHead(s: SnakeState, dt: nat, dir: Body): Body
    requires 0 < s.speed <= BOOST_SPEED && s.parts != []
  {
    s.parts[0].Plus(dir.Times(Distance(s.speed, Frames(s, dt))))
  }

  /** A moving tick makes the body follow the new head, then only resizes it; a still tick leaves it alone. */
  lemma TickBody(s: SnakeState, food: FoodMap, dt: nat, inp: Input)
    requires FoodOk(food) && Sane(s) && Quiet(s)
    ensures var q := Tick(s, food, dt, inp).s.parts;
            if Moves(s, dt) then Resized(Follow(s.parts, NewHead(s, dt, inp.dir)), q)
            else q == s.parts
  {
    hide Aimed, Tick, EatFood, Burn, Interval, FoodOk, Distance, Follow;
    AimedFrame(s, dt, inp);
    if Moves(s, dt) {
      var a := Aimed(s, dt, inp);
      TickMoving(s, food, dt, inp);
      AdvanceFrame(a, dt, inp.dir);
      EatResized(Pair(AdvancePhase(a, dt, inp.dir), food));
      BurnResized(EatPhase(a, food, dt, inp.dir));
    } else {
      TickStill(s, food, dt, inp);
    }
  }

  // ---------------------------------------------------------------- containment

  /** All parts behind the head are strictly inside the death disc. */
  ghost predicate TailInside(parts: seq<Body>) {
    forall i :: 1 <= i < |parts| ==> Inside(parts[i], CENTRE, DEATH)
  }

  predicate OnMap(p: Body) {
    0.0 <= p.x < 43200.0 && 0.0 <= p.y < 43200.0
  }

  lemma {:induction false} FollowTailInside(was: seq<Body>, head: Body, i: nat)
    requires 1 <= i < |was| && AllInside(was, CENTRE, DEATH)
    ensures Inside(FollowAt(was, head, i), CENTRE, DEATH)
  {
    hide Inside;
    if i == 1 {
      assert FollowAt(was, head, 1) == was[0] by { FollowFirst(was, head); }
    } else {
      FollowTailInside(was, head, i - 1);
      ConvexDisc(was[i - 1], FollowAt(was, head, i - 1), CENTRE, DEATH, Coeff(i));
    }
  }

  lemma FollowFirst(was: seq<Body>, head: Body)
    requires |was| > 1
    ensures FollowAt(was, head, 1) == was[0]
  {
  }

  lemma DiscMargin(p: Body, h: Body)
    requires Inside(p, CENTRE, DEATH) && Near(h, p, 294.0)
    ensures OnMap(h)
  {
    ShortAxis(p.Minus(CENTRE), DEATH);
    ShortAxis(h.Minus(p), 294.0);
  }

  /** From inside the disc, a tick of up to 517 ms cannot carry the head off the map. */
  lemma HeadStays(s: SnakeState, dt: nat, dir: Body)
    requires Sane(s) && dt <= 517 && Dot(dir, dir) == 1.0 && AllInside(s.parts, CENTRE, DEATH) && Moves(s, dt)
    ensures OnMap(NewHead(s, dt, dir))
  {
    hide Inside, OnMap, Short, Distance, Interval;
    StepBound(s, dt);
    var p, d, head := s.parts[0], StepOf(s, dt), NewHead(s, dt, dir);
    HeadStep(p, dir, d);
    ShortWeaken(head.Minus(p), d, 294.0);
    DiscMargin(p, head);
  }

  /** Convex containment, one tick of up to 517 ms from inside the disc: all parts behind the head stay in the
      disc, whatever the head does, and the head stays on the map, so its food sector exists. */
  lemma TickContained(s: SnakeState, food: FoodMap, dt: nat, inp: Input)
    requires FoodOk(food) && Sane(s) && Quiet(s) && dt <= 517 && Dot(inp.dir, inp.dir) == 1.0
    requires AllInside(s.parts, CENTRE, DEATH)
    ensures var t := Tick(s, food, dt, inp).s;
            && |t.parts| >= 3 && TailInside(t.parts) && OnMap(t.parts[0])
            && (Moves(s, dt) ==> OnMap(NewHead(s, dt, inp.dir)) && t.parts[0] == NewHead(s, dt, inp.dir))
            && (!Moves(s, dt) ==> t.parts == s.parts)
  {
    hide Tick, Inside, OnMap, Short, Distance, Interval;
    StepBound(s, dt);
    TickBody(s, food, dt, inp);
    var p := s.parts[0];
    if Moves(s, dt) {
      var head := NewHead(s, dt, inp.dir);
      HeadStays(s, dt, inp.dir);
      forall i | 1 <= i < |s.parts|
        ensures Inside(Follow(s.parts, head)[i], CENTRE, DEATH)
      {
        FollowTailInside(s.parts, head, i);
      }
    } else {
      ShortWeaken(p.Minus(p), 0.0, 294.0) by { NearSelf(p, 0.0); }
      DiscMargin(p, p);
    }
  }

  // ---------------------------------------------------------------- gaps

  lemma ResizedGaps(p: seq<Body>, q: seq<Body>, g: real)
    requires Resized(p, q) && GapsWithin(p, g)
    ensures GapsWithin(q, g)
  {
    hide Short;
    assert Near(p[0], p[1], g);
    NearSelf(p[|p| - 1], g);
    forall i | 0 < i < |q|
      ensures Near(q[i - 1], q[i], g)
    {
      assert i < |p| ==> Near(p[i - 1], p[i], g);
    }
  }

  lemma ResizedProfile(p: seq<Body>, q: seq<Body>, h: real)
    requires Resized(p, q) && GapProfile(p, h) && h >= 0.0
    ensures GapProfile(q, h)
  {
    hide Short, GapCap;
    forall i | 0 < i < |q|
      ensures Near(q[i - 1], q[i], GapCap(i, h))
    {
      if i < |p| {
        assert Near(p[i - 1], p[i], GapCap(i, h));
      } else {
        NearCap(p[|p| - 1], h, i);
      }
    }
  }

  lemma ResizedSettled(p: seq<Body>, q: seq<Body>, h: real, k: nat)
    requires Resized(p, q) && SettledTo(p, h, k) && h >= 0.0
    ensures SettledTo(q, h, k)
  {
    hide Short, GapCap;
    forall i | 0 < i < |q| && i <= k
      ensures Near(q[i - 1], q[i], GapCap(i, h))
    {
      if i < |p| {
        assert Near(p[i - 1], p[i], GapCap(i, h));
      } else {
        NearCap(p[|p| - 1], h, i);
      }
    }
  }

  lemma NearCap(p: Body, h: real, i: nat)
    requires h >= 0.0
    ensures Near(p, p, GapCap(i, h))
  {
    ProductMonotone(0.0, 1.0 - Coeff(i), 0.0, h);
    hide Short;
    NearSelf(p, GapCap(i, h));
  }

  /** The gap invariant, one tick: any g that bounds the step and the old gaps bounds the new gaps,
      growth and shrink included. */
  lemma TickGaps(s: SnakeState, food: FoodMap, dt: nat, inp: Input, g: real)
    requires FoodOk(food) && Sane(s) && Quiet(s) && Dot(inp.dir, inp.dir) == 1.0
    requires 0.0 <= StepOf(s, dt) <= g && GapsWithin(s.parts, g)
    ensures GapsWithin(Tick(s, food, dt, inp).s.parts, g)
  {
    hide Tick, Short, Distance, Interval, Frames, GapsWithin, Follow, Resized;
    TickBody(s, food, dt, inp);
    if Moves(s, dt) {
      var head := NewHead(s, dt, inp.dir);
      HeadStep(s.parts[0], inp.dir, StepOf(s, dt));
      ShortWeaken(head.Minus(s.parts[0]), StepOf(s, dt), g);
      MoveKeepsGaps(s.parts, head, g);
      ResizedGaps(Follow(s.parts, head), Tick(s, food, dt, inp).s.parts, g);
    }
  }

  /** The tight profile, one tick of at most one step. */
  lemma TickProfile(s: SnakeState, food: FoodMap, dt: nat, inp: Input, h: real)
    requires FoodOk(food) && Sane(s) && Quiet(s) && Dot(inp.dir, inp.dir) == 1.0
    requires 0.0 <= StepOf(s, dt) <= h && GapProfile(s.parts, h)
    ensures GapProfile(Tick(s, food, dt, inp).s.parts, h)
  {
    hide Tick, Short, Distance, Interval, Frames, GapProfile, Follow, Resized;
    TickBody(s, food, dt, inp);
    if Moves(s, dt) {
      var head := NewHead(s, dt, inp.dir);
      HeadStep(s.parts[0], inp.dir, StepOf(s, dt));
      ShortWeaken(head.Minus(s.parts[0]), StepOf(s, dt), h);
      MoveKeepsProfile(s.parts, head, h);
      ResizedProfile(Follow(s.parts, head), Tick(s, food, dt, inp).s.parts, h);
    }
  }

  /** Settling, one tick: a move of at most h settles one more gap, growth and shrink included. */
  lemma TickSettles(s: SnakeState, food: FoodMap, dt: nat, inp: Input, h: real, k: nat)
    requires FoodOk(food) && Sane(s) && Quiet(s) && Dot(inp.dir, inp.dir) == 1.0
    requires 0.0 <= StepOf(s, dt) <= h && SettledTo(s.parts, h, k)
    ensures SettledTo(Tick(s, food, dt, inp).s.parts, h, if Moves(s, dt) then k + 1 else k)
  {
    hide Tick, Short, Distance, Interval, Frames, SettledTo, Follow, Resized;
    TickBody(s, food, dt, inp);
    if Moves(s, dt) {
      var head := NewHead(s, dt, inp.dir);
      HeadStep(s.parts[0], inp.dir, StepOf(s, dt));
      ShortWeaken(head.Minus(s.parts[0]), StepOf(s, dt), h);
      MoveSettles(s.parts, head, h, k);
      ResizedSettled(Follow(s.parts, head), Tick(s, food, dt, inp).s.parts, h, k + 1);
    }
  }

  // ---------------------------------------------------------------- viewport

  /** The viewport circle follows the head, and what lies within two cells of it is in view. */
  ghost predicate Watching(s: SnakeState) {
    s.parts != [] && s.view == ViewCircle(s.parts[0]) && (!s.bot ==> Covers(s.vp, s.parts[0]))
  }

  /** After a moving tick the sector sets and circles are those of the advance. */
  lemma TickRegion(s: SnakeState, food: FoodMap, dt: nat, inp: Input)
    requires FoodOk(food) && Sane(s) && Quiet(s) && Moves(s, dt)
    ensures Aimed(s, dt, inp).parts == s.parts && Aimed(s, dt, inp).speed == s.speed && Aimed(s, dt, inp).mov == s.mov
    ensures var t, adv := Tick(s, food, dt, inp).s, AdvancePhase(Aimed(s, dt, inp), dt, inp.dir);
            && t.box == adv.box && t.sbb == adv.sbb && t.view == adv.view
            && t.vp == adv.vp && t.newS == adv.newS && t.oldS == adv.oldS
  {
    hide Aimed, Tick, EatFood, Burn, Interval, FoodOk, AdvancePhase;
    AimedFrame(s, dt, inp);
    var a := Aimed(s, dt, inp);
    TickMoving(s, food, dt, inp);
    EatFrame(Pair(AdvancePhase(a, dt, inp.dir), food));
    BurnFrame(EatPhase(a, food, dt, inp.dir));
  }

  /** The viewport part of an advance: gain around the new cell against the old circle, lose against the new. */
  lemma AdvanceView(s: SnakeState, dt: nat, dir: Body)
    requires 0 < s.speed <= BOOST_SPEED && s.parts != []
    ensures var r, h := AdvancePhase(s, dt, dir), NewHead(s, dt, dir);
            var gained := if s.bot then {} else Appearing(s.view, h, s.parts[0]) - s.vp;
            && r.view == ViewCircle(h)
            && r.newS == s.newS + gained
            && r.vp == (if s.bot then s.vp else (s.vp + gained) * Meeting(ViewCircle(h)))
            && r.oldS == (if s.bot then s.oldS else s.oldS + ((s.vp + gained) - Meeting(ViewCircle(h))))
  {
    hide Follow, Distance, EnteredUpTo, Appearing, Meeting, Centroid, BoxRadius, ViewCircle;
  }

  lemma TickCovers(s: SnakeState, food: FoodMap, dt: nat, inp: Input)
    requires FoodOk(food) && Sane(s) && Quiet(s) && dt <= 517 && Dot(inp.dir, inp.dir) == 1.0 && Moves(s, dt)
    requires AllInside(s.parts, CENTRE, DEATH) && Watching(s)
    ensures Watching(Tick(s, food, dt, inp).s)
  {
    hide Inside, Short, Distance, Interval, Covers, Meets, Around, Tick, Appearing, Aimed, AdvancePhase, ViewCircle;
    TickContained(s, food, dt, inp);
    AimedFrame(s, dt, inp);
    TickRegion(s, food, dt, inp);
    AdvanceView(Aimed(s, dt, inp), dt, inp.dir);
    TickBot(s, food, dt, inp);
    if !s.bot {
      StepBound(s, dt);
      var p, h := s.parts[0], NewHead(s, dt, inp.dir);
      HeadStep(p, inp.dir, StepOf(s, dt));
      ShortWeaken(h.Minus(p), StepOf(s, dt), 300.0);
      CoverageStep(s.vp, h, p);
      var seen := Appearing(ViewCircle(p), h, p);
      assert s.vp + (seen - s.vp) == s.vp + seen;
    }
  }

  /** Identity, kind and colour never change in a tick. */
  lemma TickBot(s: SnakeState, food: FoodMap, dt: nat, inp: Input)
    requires FoodOk(food) && 0 < s.speed <= BOOST_SPEED && s.parts != [] && Quiet(s)
    ensures var t := Tick(s, food, dt, inp).s;
            t.id == s.id && t.bot == s.bot && t.clientParts == s.clientParts
  {
    hide Aimed, EatFood, Burn, Interval, FoodOk, Tick;
    AimedFrame(s, dt, inp);
    if Moves(s, dt) {
      var a := Aimed(s, dt, inp);
      TickMoving(s, food, dt, inp);
      AdvanceFrame(a, dt, inp.dir);
      EatFrame(Pair(AdvancePhase(a, dt, inp.dir), food));
      BurnFrame(EatPhase(a, food, dt, inp.dir));
    } else {
      TickStill(s, food, dt, inp);
    }
  }

  /** A tick without a whole step leaves nothing to broadcast except a turn. */
  lemma TickIdle(s: SnakeState, food: FoodMap, dt: nat, inp: Input)
    requires FoodOk(food) && Sane(s) && Quiet(s) && !Moves(s, dt)
    ensures var t := Tick(s, food, dt, inp).s;
            && t.vp == s.vp && t.newS == s.newS && t.oldS == s.oldS && !t.flags.pos && t.view == s.view
            && t.eaten == s.eaten && t.spawn == s.spawn && t.sbb == s.sbb && t.box == s.box && t.parts == s.parts
  {
    hide Aimed, Tick, Interval, FoodOk;
    AimedFrame(s, dt, inp);
    TickStill(s, food, dt, inp);
  }

  /** One tick of a player whose deltas are flushed: the deltas explain exactly how the viewport changed. */
  lemma TickDelta(s: SnakeState, food: FoodMap, dt: nat, inp: Input)
    requires FoodOk(food) && Sane(s) && Quiet(s) && s.newS == {} && s.oldS == {}
    ensures var t := Tick(s, food, dt, inp).s;
            if s.bot then t.vp == s.vp && t.newS == {} && t.oldS == {}
            else t.vp == (s.vp + t.newS) - t.oldS && t.newS !! s.vp && t.oldS <= s.vp + t.newS
  {
    hide Distance, Interval, Meets, Tick, Appearing, Aimed, AdvancePhase, ViewCircle, FoodOk;
    AimedFrame(s, dt, inp);
    if Moves(s, dt) {
      TickRegion(s, food, dt, inp);
      AdvanceView(Aimed(s, dt, inp), dt, inp.dir);
    } else {
      TickIdle(s, food, dt, inp);
    }
  }
}
