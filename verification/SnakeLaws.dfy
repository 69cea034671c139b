/** Laws of one snake tick: what it leaves alone, the mass ledger, bounds, containment, gaps, viewport. */
module SnakeLaws {
  import opened Geometry
  import opened Config
  import opened Grid
  import opened FoodList
  import opened SnakeModel

  // ---------------------------------------------------------------- frames

  lemma IncreaseFrame(s: SnakeState, volume: int)
    ensures var r := Increase(s, volume);
            r == s.(fullness := r.fullness, parts := r.parts, flags := s.flags.(fullness := r.flags.fullness))
  {
  }

  lemma {:induction false} GulpFrame(s: SnakeState, foods: seq<Food>)
    ensures var r := Gulp(s, foods);
            r == s.(fullness := r.fullness, parts := r.parts, eaten := s.eaten + foods,
                    flags := s.flags.(fullness := r.flags.fullness))
  {
    hide Increase;
    if foods != [] {
      var front := foods[..|foods| - 1];
      GulpFrame(s, front);
      IncreaseFrame(Gulp(s, front), foods[|foods| - 1].size);
      assert s.eaten + foods == s.eaten + front + [foods[|foods| - 1]];
    } else {
      assert s.eaten + foods == s.eaten;
    }
  }

  lemma DropOneFrame(o: Pair)
    requires FoodOk(o.food)
    ensures var r := DropOne(o).s;
            r == o.s.(parts := r.parts, spawn := r.spawn)
  {
    hide FoodOk;
  }

  lemma {:induction false} DropTailFrame(o: Pair, count: nat)
    requires FoodOk(o.food)
    ensures var r := DropTail(o, count).s;
            r == o.s.(parts := r.parts, spawn := r.spawn)
  {
    hide DropOne, FoodOk;
    if count > 0 {
      DropTailFrame(o, count - 1);
      DropOneFrame(DropTail(o, count - 1));
    }
  }

  lemma EatFrame(o: Pair)
    requires FoodOk(o.food)
    ensures var r := EatFood(o).s;
            r == o.s.(fullness := r.fullness, parts := r.parts, eaten := r.eaten,
                      flags := o.s.flags.(fullness := r.flags.fullness))
  {
    var i, j := Trunc(Head(o.s).x) / SECTOR_SIZE, Trunc(Head(o.s).y) / SECTOR_SIZE;
    if InMap(i, j) {
      var k, r := Index(i, j), Reach(|o.s.parts|);
      GulpFrame(o.s, Eat(o.food[k], Trunc(Head(o.s).x), InRange(Trunc(Head(o.s).x), Trunc(Head(o.s).y), r * r)).eaten);
    }
  }

  lemma BurnFrame(o: Pair)
    requires FoodOk(o.food)
    ensures var r := Burn(o).s;
            r == o.s.(fullness := r.fullness, parts := r.parts, spawn := r.spawn, accel := r.accel,
                      flags := o.s.flags.(fullness := r.flags.fullness))
  {
    if 33 > o.s.fullness {
      DropTailFrame(o, 1 + (33 - o.s.fullness) / 100);
    }
  }

  /** State after the steering and turning blocks. */
  function Aimed(s: SnakeState, dt: nat, inp: Input): SnakeState {
    Rotate(Steer(s, dt, inp.atan2), dt).s
  }

  lemma SteerFrame(s: SnakeState, dt: nat, atan2: Atan2)
    ensures var r := Steer(s, dt, atan2);
            r == s.(wangle := r.wangle, ai := r.ai, flags := s.flags.(wangle := r.flags.wangle))
  {
    hide Abs;
  }

  lemma RotateFrame(s: SnakeState, dt: nat)
    ensures var r := Rotate(s, dt).s;
            r == s.(angle := r.angle, rot := r.rot)
  {
    hide Turn, Rotation;
  }

  lemma AimedFrame(s: SnakeState, dt: nat, inp: Input)
    ensures var r := Aimed(s, dt, inp);
            r == s.(angle := r.angle, wangle := r.wangle, rot := r.rot, ai := r.ai,
                    flags := s.flags.(wangle := r.flags.wangle))
  {
    SteerFrame(s, dt, inp.atan2);
    RotateFrame(Steer(s, dt, inp.atan2), dt);
    hide Steer, Rotate;
  }

  // ---------------------------------------------------------------- mass ledger

  function Mass(s: SnakeState): int {
    100 * |s.parts| + s.fullness
  }

  function Sizes(foods: seq<Food>): int {
    if foods == [] then 0 else Sizes(foods[..|foods| - 1]) + foods[|foods| - 1].size
  }

  /** Food sizes are what the code ever creates. */
  ghost predicate SizesOk(foods: seq<Food>) {
    forall f :: f in foods ==> 0 <= f.size <= 100
  }

  ghost predicate AllSizesOk(food: FoodMap) {
    forall k :: 0 <= k < |food| ==> SizesOk(food[k])
  }

  predicate Fed(s: SnakeState) {
    |s.parts| >= 3 && 0 <= s.fullness < 100
  }

  /** Eating adds exactly the sizes eaten and keeps fullness below 100. */
  lemma {:induction false} GulpLedger(s: SnakeState, foods: seq<Food>)
    requires Fed(s) && SizesOk(foods)
    ensures Fed(Gulp(s, foods)) && Mass(Gulp(s, foods)) == Mass(s) + Sizes(foods)
  {
    if foods != [] {
      assert foods[|foods| - 1] in foods;
      GulpLedger(s, foods[..|foods| - 1]);
    }
  }

  lemma {:induction false} DropTailLength(o: Pair, count: nat)
    requires FoodOk(o.food) && |o.s.parts| >= 3
    ensures |DropTail(o, count).s.parts| == if |o.s.parts| - count >= 3 then |o.s.parts| - count else 3
  {
    if count > 0 {
      DropTailLength(o, count - 1);
    }
  }

  /** `DecreaseSnake` removes exactly `volume` of mass if and only if the parts it has to drop are there,
      and leaves fullness below 100 if and only if no whole number of parts is left over to pay. */
  lemma DecreaseExactly(o: Pair, volume: nat)
    requires FoodOk(o.food) && Fed(o.s)
    ensures var short := volume - o.s.fullness;
            var r := Decrease(o, volume).s;
            && (Mass(r) == Mass(o.s) - volume <==> (short > 0 ==> |o.s.parts| >= 4 + short / 100))
            && (r.fullness < 100 <==> (short > 0 ==> short % 100 != 0))
            && 0 <= r.fullness <= 100 && |r.parts| >= 3
  {
    var short := volume - o.s.fullness;
    if short > 0 {
      DropTailLength(o, 1 + short / 100);
      DropTailFrame(o, 1 + short / 100);
    }
  }

  /** A boosted move costs exactly 33 as long as a fourth part exists. */
  lemma BurnLedger(o: Pair)
    requires FoodOk(o.food) && Fed(o.s)
    ensures Fed(Burn(o).s)
    ensures Mass(Burn(o).s) == Mass(o.s) - (if o.s.accel && |o.s.parts| > 3 then 33 else 0)
    ensures Burn(o).s.accel <==> o.s.accel && |o.s.parts| > 3
  {
    if o.s.accel && |o.s.parts| > 3 {
      DecreaseExactly(o, 33);
      DropTailFrame(o, 1);
    }
  }

  // ---------------------------------------------------------------- the sweep stops early

  /** The sector of a head, and what it reaches there. */
  function HeadSector(s: SnakeState): int {
    var i, j := Trunc(Head(s).x) / SECTOR_SIZE, Trunc(Head(s).y) / SECTOR_SIZE;
    if InMap(i, j) then Index(i, j) else -1
  }

  function NearHead(s: SnakeState): Food -> bool {
    InRange(Trunc(Head(s).x), Trunc(Head(s).y), Reach(|s.parts|) * Reach(|s.parts|))
  }

  /** A meal leaves nothing in reach anywhere on the map if and only if in the head's sector no item in reach hides
      behind a miss, and no other sector holds an item in reach. */
  lemma MealClearsIff(o: Pair)
    requires FoodOk(o.food) && 0 <= HeadSector(o.s)
    ensures FoodOk(EatFood(o).food)
    ensures var k, near := HeadSector(o.s), NearHead(o.s);
            (forall m, f :: 0 <= m < SECTORS && f in EatFood(o).food[m] ==> !near(f))
            <==> (forall i :: 0 <= i < |o.food[k]| && near(o.food[k][i]) ==> Reachable(o.food[k], i, Trunc(Head(o.s).x), near))
                 && (forall m, f :: 0 <= m < SECTORS && m != k && f in o.food[m] ==> !near(f))
  {
    hide Eat, Reachable, Trunc, Reach, InRange, Gulp;
    var k, near := HeadSector(o.s), NearHead(o.s);
    EatsAllIff(o.food[k], Trunc(Head(o.s).x), near);
    var rest := Eat(o.food[k], Trunc(Head(o.s).x), near).rest;
    assert EatFood(o).food == o.food[k := rest];
    assert forall f :: f in rest ==> f in EatFood(o).food[k];
    assert forall m, f :: 0 <= m < SECTORS && m != k && f in o.food[m] ==> f in EatFood(o).food[m];
  }

  /** Food two units from the head, but filed across a sector border, is not even looked at. */
  lemma MealStopsAtBorder(o: Pair)
    requires FoodOk(o.food) && |o.s.parts| == 3 && Head(o.s) == Body(21601.0, 21650.0)
    requires o.food[Index(72, 72)] == [] && o.food[Index(71, 72)] == [Food(21599, 21650, 1, 0)]
    ensures HeadSector(o.s) == Index(72, 72) && NearHead(o.s)(o.food[Index(71, 72)][0])
    ensures EatFood(o).food == o.food && EatFood(o).s == o.s
  {
    assert BodyRadius(3) == 14.5;
    assert Reach(3) == 70;
    var near := NearHead(o.s);
    assert Eat([], 21601, near) == Sweep([], []);
    assert Gulp(o.s, []) == o.s;
    assert o.food[Index(72, 72) := []] == o.food;
  }

  /** A snake of three parts with its head at (21650, 21650) reaches 70 far. Of two pieces of food in that sector,
      the one at (21640, 21650) is within reach and survives the meal, hidden behind the one at (21645, 21750). */
  lemma MealLeavesFood(o: Pair)
    requires FoodOk(o.food) && |o.s.parts| == 3 && Head(o.s) == Body(21650.0, 21650.0)
    requires o.food[Index(72, 72)] == [Food(21640, 21650, 1, 0), Food(21645, 21750, 1, 0)]
    ensures Reach(3) == 70 && InRange(21650, 21650, 70 * 70)(o.food[Index(72, 72)][0])
    ensures EatFood(o).food == o.food && EatFood(o).s == o.s
  {
    var s, near := o.food[Index(72, 72)], InRange(21650, 21650, 70 * 70);
    assert BodyRadius(3) == 14.5;
    assert Closest(s, 21650) == 2;
    assert !near(s[1]) && near(s[0]);
    assert LeftEdge(s, 2, near) == 2 && RightEdge(s, 2, near) == 2;
    assert s[2..] == [] && s[2..2] == [] && s[..2] == s;
    assert Eat(s, 21650, near) == Sweep([], s);
    assert Gulp(o.s, []) == o.s;
    assert o.food[Index(72, 72) := s] == o.food;
  }

  // ---------------------------------------------------------------- single pieces

  /** The only piece of food in the head's sector is eaten if and only if it is within 56 and the body radius of the
      head, cut to a whole number; then it is gone from the map, and nothing else happens to food. */
  lemma BiteReach(o: Pair, f: Food, r: nat)
    requires FoodOk(o.food) && 0 <= HeadSector(o.s) && o.food[HeadSector(o.s)] == [f]
    requires r as real <= 56.0 + BodyRadius(|o.s.parts|) < r as real + 1.0
    ensures var x, y := f.x - Trunc(Head(o.s).x), f.y - Trunc(Head(o.s).y);
            var t, bite := EatFood(o), x * x + y * y <= r * r;
            && t.food == (if bite then o.food[HeadSector(o.s) := []] else o.food)
            && t.s.eaten == (if bite then o.s.eaten + [f] else o.s.eaten)
  {
    hide Trunc, Gulp, BodyRadius, Eat, InRange, Reach;
    ReachIs(|o.s.parts|, r);
    var k, hx, near := HeadSector(o.s), Trunc(Head(o.s).x), NearHead(o.s);
    NearIs(Trunc(Head(o.s).x), Trunc(Head(o.s).y), r, f);
    EatOne(f, hx, near);
    GulpFrame(o.s, Eat([f], hx, near).eaten);
    assert o.food[k := [f]] == o.food;
  }

  lemma ReachIs(n: nat, r: nat)
    requires r as real <= 56.0 + BodyRadius(n) < r as real + 1.0
    ensures Reach(n) == r
  {
    hide BodyRadius;
  }

  lemma NearIs(hx: int, hy: int, r: nat, f: Food)
    ensures InRange(hx, hy, r * r)(f) <==> (f.x - hx) * (f.x - hx) + (f.y - hy) * (f.y - hy) <= r * r
  {
  }

  lemma EatOne(f: Food, hx: int, near: Food -> bool)
    ensures Eat([f], hx, near) == if near(f) then Sweep([f], []) else Sweep([], [f])
  {
    var p := Closest([f], hx);
    assert Reverse([]) == [];
    if near(f) {
      assert LeftEdge([f], p, near) == 0 && RightEdge([f], p, near) == 1;
      assert p == 0 || p == 1;
      assert [f][..0] == [] && [f][1..] == [] && [f][0..1] == [f] && [f][0..0] == [] && [f][1..1] == [];
      assert p == 1 ==> Reverse([f]) == [f];
    } else {
      assert LeftEdge([f], p, near) == p && RightEdge([f], p, near) == p;
      assert [f][..p] + [f][p..] == [f] && [f][p..p] == [];
    }
  }

  /** A boosted move of a snake with less than 33 fullness turns its last part into food of size 100 of its colour,
      lying where the part was, if the snake is registered in the sector there; 67 of the part are kept. */
  lemma BurnDrops(o: Pair)
    requires FoodOk(o.food) && o.s.accel && |o.s.parts| > 3 && 0 <= o.s.fullness < 33
    ensures var t, n, tail := Burn(o), |o.s.parts| - 1, o.s.parts[|o.s.parts| - 1];
            var f := Food(Trunc(tail.x), Trunc(tail.y), 100, o.s.skin);
            var i, j := f.x / 300, f.y / 300;
            && t.s.parts == o.s.parts[..n] && t.s.fullness == o.s.fullness + 67
            && (if InMap(i, j) && Index(i, j) in o.s.sbb
                then t.s.spawn == o.s.spawn + [f] && multiset(t.food[Index(i, j)]) == multiset(o.food[Index(i, j)]) + multiset{f}
                     && forall k :: 0 <= k < SECTORS && k != Index(i, j) ==> t.food[k] == o.food[k]
                else t.s.spawn == o.s.spawn && t.food == o.food)
  {
    hide Trunc, FoodList.Insert;
    var short := 33 - o.s.fullness;
    assert 1 + short / 100 == 1 && short % 100 == short;
    assert DropTail(o, 0) == o;
    assert DropTail(o, 1) == DropOne(o);
  }
}
