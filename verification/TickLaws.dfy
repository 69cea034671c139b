/** What every tick of a live snake keeps: the mass ledger, the control-loop bounds, containment in the
    death disc, the gap bound, and the viewport with its deltas. */
module TickLaws {
  import opened Geometry
  import opened Config
  import opened Movement
  import opened Grid
  import opened FoodList
  import opened SnakeModel
  import opened SnakeLaws
  import opened Ticks

  // ---------------------------------------------------------------- time and distance

  lemma IntervalBounds(speed: nat)
    requires BASE_SPEED <= speed <= BOOST_SPEED
    ensures ROT_INTERVAL <= Interval(speed) <= 227
    ensures speed * Interval(speed) <= 42000
  {
    var i := Interval(speed);
    assert speed * i <= 42000;
    if i > 227 {
      ScaleMonotone(i, 185, speed);
      assert false;
    }
  }

  lemma DistanceBound(speed: nat, frames: nat)
    requires BASE_SPEED <= speed <= BOOST_SPEED
    ensures 0.0 <= Distance(speed, frames) <= 42.0 * frames as real
  {
    IntervalBounds(speed);
    var i := Interval(speed);
    assert speed * (frames * i) == frames * (speed * i);
    ScaleMonotone(frames, speed * i, 42000);
    assert (speed * (frames * i)) as real <= (frames * 42000) as real;
  }

  lemma ScaleMonotone(k: nat, a: nat, b: nat)
    requires a <= b
    ensures k * a <= k * b
  {
    assert k * (b - a) >= 0;
  }

  /** Leftover time never reaches 227 ms, and a tick of up to 517 ms moves the head by at most seven steps. */
  lemma StepBound(s: SnakeState, dt: nat)
    requires Sane(s) && dt <= 517
    ensures 0.0 <= StepOf(s, dt) <= 294.0
    ensures Moves(s, dt) ==> (s.mov + dt) % Interval(s.speed) < 227
  {
    IntervalBounds(s.speed);
    DistanceBound(s.speed, Frames(s, dt));
    var i, f := Interval(s.speed), Frames(s, dt);
    if f > 7 {
      ScaleMonotone(8, ROT_INTERVAL, i);
      ScaleMonotone(i, 8, f);
      assert false;
    }
  }

  lemma DivideOnce(m: nat, i: nat)
    requires 0 < i <= m < 2 * i
    ensures m / i == 1 && m % i == m - i
  {
    assert m == 1 * i + (m - i);
  }

  /** Ticks of at most 93 ms keep every move to a single step of at most 42. */
  lemma SingleStep(s: SnakeState, dt: nat)
    requires Sane(s) && s.mov < Interval(s.speed) && dt <= ROT_INTERVAL
    ensures 0.0 <= StepOf(s, dt) <= 42.0
    ensures Moves(s, dt) ==> (s.mov + dt) % Interval(s.speed) < ROT_INTERVAL
  {
    IntervalBounds(s.speed);
    if Moves(s, dt) {
      DivideOnce(s.mov + dt, Interval(s.speed));
      DistanceBound(s.speed, 1);
      hide Interval, Distance;
    }
  }

  /** A unit heading moves the head by exactly the step length at most. */
  lemma HeadStep(p: Body, dir: Body, d: real)
    requires Dot(dir, dir) == 1.0 && d >= 0.0
    ensures Near(p.Plus(dir.Times(d)), p, d)
  {
    assert Short(dir, 1.0);
    ShortScale(dir, 1.0, d);
    assert p.Plus(dir.Times(d)).Minus(p) == dir.Times(d);
  }

  // ---------------------------------------------------------------- mass ledger and control bounds

  /** Food a snake that has advanced eats at its new head. */
  function MealAt(adv: SnakeState, food: FoodMap): seq<Food>
    requires FoodOk(food)
  {
    var h := Head(adv);
    var i, j, r := Trunc(h.x) / SECTOR_SIZE, Trunc(h.y) / SECTOR_SIZE, Reach(|adv.parts|);
    if InMap(i, j) then Eat(food[Index(i, j)], Trunc(h.x), InRange(Trunc(h.x), Trunc(h.y), r * r)).eaten else []
  }

  /** Food eaten in this tick. */
  function Meal(s: SnakeState, food: FoodMap, dt: nat, inp: Input): seq<Food>
    requires FoodOk(food) && Sane(s)
  {
    AimedFrame(s, dt, inp);
    if Moves(s, dt) then MealAt(AdvancePhase(Aimed(s, dt, inp), dt, inp.dir), food) else []
  }

  /** Does this tick pay for boosting? */
  predicate Boosts(s: SnakeState, food: FoodMap, dt: nat, inp: Input)
    requires FoodOk(food) && Sane(s)
  {
    AimedFrame(s, dt, inp);
    Moves(s, dt) && s.accel && |EatPhase(Aimed(s, dt, inp), food, dt, inp.dir).s.parts| > 3
  }

  lemma AdvanceFrame(s: SnakeState, dt: nat, dir: Body)
    requires 0 < s.speed <= BOOST_SPEED && s.parts != []
    ensures var a := AdvancePhase(s, dt, dir);
            a == s.(parts := a.parts, box := a.box, view := a.view, sbb := a.sbb, vp := a.vp,
                    newS := a.newS, oldS := a.oldS, mov := s.mov + dt)
            && a.parts == Follow(s.parts, s.parts[0].Plus(dir.Times(Distance(s.speed, Frames(s, dt)))))
  {
    hide Follow, Distance, Frames, EnteredUpTo, Appearing, Meeting, Centroid, BoxRadius;
  }

  lemma EatLedger(o: Pair)
    requires FoodOk(o.food) && AllSizesOk(o.food) && Fed(o.s)
    ensures AllSizesOk(EatFood(o).food) && Fed(EatFood(o).s)
    ensures Mass(EatFood(o).s) == Mass(o.s) + Sizes(MealAt(o.s, o.food))
    ensures EatFood(o).s.eaten == o.s.eaten + MealAt(o.s, o.food)
  {
    hide Trunc, Reach, InRange, Eat, Mass, Fed;
    var h := Head(o.s);
    var i, j, r := Trunc(h.x) / SECTOR_SIZE, Trunc(h.y) / SECTOR_SIZE, Reach(|o.s.parts|);
    if InMap(i, j) {
      var k, near := Index(i, j), InRange(Trunc(h.x), Trunc(h.y), r * r);
      var sweep := Eat(o.food[k], Trunc(h.x), near);
      EatConserves(o.food[k], Trunc(h.x), near);
      forall f | f in sweep.eaten || f in sweep.rest
        ensures f in o.food[k]
      {
        assert f in multiset(sweep.eaten) + multiset(sweep.rest);
      }
      GulpLedger(o.s, sweep.eaten);
      GulpFrame(o.s, sweep.eaten);
    }
  }

  lemma {:induction false} DropTailSizes(o: Pair, count: nat)
    requires FoodOk(o.food) && AllSizesOk(o.food)
    ensures AllSizesOk(DropTail(o, count).food)
  {
    if count > 0 {
      DropTailSizes(o, count - 1);
      var o1 := DropTail(o, count - 1);
      InsertSizes(o1, TailDrop(o1.s));
      hide SpawnFood;
    }
  }

  lemma InsertSizes(o: Pair, f: Food)
    requires FoodOk(o.food) && AllSizesOk(o.food) && 0 <= f.size <= 100
    ensures AllSizesOk(SpawnFood(o, f).food)
  {
    var i, j := f.x / SECTOR_SIZE, f.y / SECTOR_SIZE;
    if InMap(i, j) {
      var k := Index(i, j);
      var r := FoodList.Insert(o.food[k], f);
      forall g | g in r
        ensures g in o.food[k] || g == f
      {
        assert g in multiset(r);
      }
    }
  }

  lemma BurnSizes(o: Pair)
    requires FoodOk(o.food) && AllSizesOk(o.food)
    ensures AllSizesOk(Burn(o).food)
  {
    if 33 > o.s.fullness {
      DropTailSizes(o, 1 + (33 - o.s.fullness) / 100);
    }
  }

  lemma PhaseLedger(a: SnakeState, food: FoodMap, dt: nat, dir: Body)
    requires FoodOk(food) && AllSizesOk(food) && Fed(a) && 0 < a.speed <= BOOST_SPEED
    ensures var o := BurnPhase(a, food, dt, dir);
            var meal := MealAt(AdvancePhase(a, dt, dir), food);
            && Mass(o.s) == Mass(a) + Sizes(meal)
                 - (if a.accel && |EatPhase(a, food, dt, dir).s.parts| > 3 then 33 else 0)
            && o.s.eaten == a.eaten + meal && Fed(o.s) && AllSizesOk(o.food)
  {
    AdvanceFrame(a, dt, dir);
    var adv := AdvancePhase(a, dt, dir);
    EatLedger(Pair(adv, food));
    EatFrame(Pair(adv, food));
    var o := EatPhase(a, food, dt, dir);
    BurnLedger(o);
    BurnSizes(o);
    BurnFrame(o);
    hide AdvancePhase, EatFood, Burn, Sizes, MealAt, FoodOk, AllSizesOk;
  }

  /** The ledger of one tick: the meal is added, a boosted move costs 33, and the bounds hold again. */
  lemma TickLedger(s: SnakeState, food: FoodMap, dt: nat, inp: Input)
    requires FoodOk(food) && AllSizesOk(food) && Sane(s) && Quiet(s) && dt <= 517
    ensures var t := Tick(s, food, dt, inp);
            && Mass(t.s) == Mass(s) + Sizes(Meal(s, food, dt, inp)) - (if Boosts(s, food, dt, inp) then 33 else 0)
            && t.s.eaten == s.eaten + Meal(s, food, dt, inp)
            && Sane(t.s) && AllSizesOk(t.food)
  {
    hide Aimed, Tick, BurnPhase, EatPhase, AdvancePhase, Interval, AllSizesOk, FoodOk, MealAt, StepOf, NewSpeed;
    StepBound(s, dt);
    IntervalBounds(s.speed);
    AimedFrame(s, dt, inp);
    if Moves(s, dt) {
      TickMoving(s, food, dt, inp);
      var a := Aimed(s, dt, inp);
      PhaseLedger(a, food, dt, inp.dir);
      assert BASE_SPEED <= NewSpeed(a, BurnPhase(a, food, dt, inp.dir).s, dt) <= BOOST_SPEED;
    } else {
      TickStill(s, food, dt, inp);
    }
  }
}
