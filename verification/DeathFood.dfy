/** The food a dead snake leaves. A piece is filed in its part's sector, but its coordinates may lie in another. */
module DeathFood {
  import opened Geometry
  import opened Config
  import opened Grid
  import opened FoodList
  import opened SnakeModel
  import opened SnakeLaws
  import opened Packets

  /** Pieces of food per part of a dead snake. */
  function DropCount(n: nat): nat {
    if Scale(n) * 2.0 >= 1.0 then Trunc(Scale(n) * 2.0) else 1
  }

  /** One piece near part p, from three draws. */
  function Scatter(p: Body, n: nat, a: real, b: real, c: real): Food {
    var r := BodyRadius(n);
    var r2 := Trunc(r * 3.0) as real;
    Food(Trunc(p.x + r - a * r2), Trunc(p.y + r - b * r2), 100 / DropCount(n), Trunc(29.0 * c))
  }

  /** A sector with a piece of food for it. */
  datatype Drop = Drop(sector: nat, food: Food)

  /** The first j pieces of a part whose draws start at `from`. */
  function PartDrops(p: Body, k: nat, n: nat, draw: nat -> real, from: nat, j: nat): (d: seq<Drop>)
    ensures |d| == j && forall i :: 0 <= i < j ==> d[i].sector == k
  {
    if j == 0 then []
    else
      var at := from + 3 * (j - 1);
      PartDrops(p, k, n, draw, from, j - 1) + [Drop(k, Scatter(p, n, draw(at), draw(at + 1), draw(at + 2)))]
  }

  /** Parts in the border sectors leave no food. */
  predicate Inner(p: Body) {
    0 < Cell(p.x) < EDGE - 1 && 0 < Cell(p.y) < EDGE - 1
  }

  /** What the first m parts leave. */
  function Drops(parts: seq<Body>, draw: nat -> real, m: nat): (d: seq<Drop>)
    requires m <= |parts|
    ensures forall i :: 0 <= i < |d| ==> d[i].sector < SECTORS
  {
    if m == 0 then []
    else
      var d := Drops(parts, draw, m - 1);
      var p := parts[m - 1];
      if Inner(p) then
        d + PartDrops(p, Index(Cell(p.x), Cell(p.y)), |parts|, draw, 3 * |d|, DropCount(|parts|))
      else d
  }

  function Fallen(food: FoodMap, d: seq<Drop>): (r: FoodMap)
    requires FoodOk(food) && forall i :: 0 <= i < |d| ==> d[i].sector < SECTORS
    ensures FoodOk(r)
  {
    if d == [] then food
    else
      var f, last := Fallen(food, d[..|d| - 1]), d[|d| - 1];
      f[last.sector := FoodList.Insert(f[last.sector], last.food)]
  }

  function FoodsOf(d: seq<Drop>): (r: seq<Food>)
    ensures |r| == |d| && forall i :: 0 <= i < |d| ==> r[i] == d[i].food
  {
    seq(|d|, i requires 0 <= i < |d| => d[i].food)
  }

  lemma OneMore(food: FoodMap, d: seq<Drop>, last: Drop)
    requires FoodOk(food) && forall i :: 0 <= i < |d + [last]| ==> (d + [last])[i].sector < SECTORS
    ensures forall i :: 0 <= i < |d| ==> d[i].sector < SECTORS
    ensures last.sector < SECTORS
    ensures var f := Fallen(food, d); Fallen(food, d + [last]) == f[last.sector := FoodList.Insert(f[last.sector], last.food)]
    ensures FoodsOf(d + [last]) == FoodsOf(d) + [last.food]
  {
    forall i | 0 <= i < |d|
      ensures d[i].sector < SECTORS
    {
      assert d[i] == (d + [last])[i];
    }
    assert (d + [last])[|d|] == last;
    assert (d + [last])[..|d|] == d;
  }

  // ---------------------------------------------------------------- where it lands

  /** The two ends of what a draw can make of a coordinate. */
  function Low(x: real, n: nat): real {
    x + BodyRadius(n) - Trunc(BodyRadius(n) * 3.0) as real
  }

  function High(x: real, n: nat): real {
    x + BodyRadius(n)
  }

  /** The whole span of draws stays in the cell of the coordinate. */
  predicate StaysInCell(x: real, n: nat) {
    300.0 * Cell(x) as real <= Low(x, n) && High(x, n) < 300.0 * Cell(x) as real + 300.0
  }

  /** A piece with two draws at their upper ends, from a part of a snake of three in the corner of the middle
      sector, is filed in that sector but lies in the sector before it on both axes. */
  lemma Misfiled()
    ensures var p, f := Body(21600.0, 21600.0), Scatter(Body(21600.0, 21600.0), 3, 1.0, 1.0, 0.0);
            && Inner(p) && Index(Cell(p.x), Cell(p.y)) == Index(72, 72)
            && PosOf(f) == (21571, 21571) && Home(PosOf(f)) == Index(71, 71)
  {
    assert BodyRadius(3) == 14.5;
  }

  lemma RadiusBounds(n: nat)
    requires n >= 3
    ensures 14.5 <= BodyRadius(n) <= 87.0 && 43 <= Trunc(BodyRadius(n) * 3.0) <= 261
  {
  }

  /** One coordinate of a piece. */
  function Landed(x: real, n: nat, a: real): int {
    Trunc(x + BodyRadius(n) - a * Trunc(BodyRadius(n) * 3.0) as real)
  }

  lemma LandedBetween(x: real, n: nat, a: real)
    requires n >= 3 && 0.0 <= a <= 1.0
    ensures Low(x, n) <= x + BodyRadius(n) - a * Trunc(BodyRadius(n) * 3.0) as real <= High(x, n)
  {
    hide BodyRadius, Trunc;
    RadiusBounds(n);
    var r2 := Trunc(BodyRadius(n) * 3.0) as real;
    ProductMonotone(a, 1.0, r2, r2);
    ProductMonotone(0.0, a, r2, r2);
  }

  lemma CellOfTrunc(v: real, c: nat)
    ensures Trunc(v) / SECTOR_SIZE == c && v >= 0.0 <==> 300.0 * c as real <= v < 300.0 * c as real + 300.0
  {
  }

  /** Every draw leaves the coordinate in its cell if and only if the whole span does. */
  lemma StaysIff(x: real, n: nat)
    requires n >= 3 && Cell(x) > 0
    ensures (forall a :: 0.0 <= a <= 1.0 ==> Landed(x, n, a) / SECTOR_SIZE == Cell(x)) <==> StaysInCell(x, n)
  {
    hide BodyRadius, Trunc, Cell;
    var c: nat := Cell(x);
    RadiusBounds(n);
    CellPositive(x);
    assert Landed(x, n, 0.0) == Trunc(High(x, n)) && Landed(x, n, 1.0) == Trunc(Low(x, n));
    CellOfTrunc(High(x, n), c);
    CellOfTrunc(Low(x, n), c);
    if StaysInCell(x, n) {
      forall a | 0.0 <= a <= 1.0
        ensures Landed(x, n, a) / SECTOR_SIZE == c
      {
        LandedBetween(x, n, a);
        CellOfTrunc(x + BodyRadius(n) - a * Trunc(BodyRadius(n) * 3.0) as real, c);
      }
    }
  }

  lemma CellPositive(x: real)
    requires Cell(x) > 0
    ensures x >= 300.0
  {
    CellBounds(x);
  }

  /** Death food of a part is always filed in the sector it lies in if and only if the part keeps the margin on
      both axes: at least 3r - r on the low side and more than r on the high side, for the body radius r. */
  lemma FiledIff(p: Body, n: nat)
    requires n >= 3 && Inner(p)
    ensures (forall a, b, c :: 0.0 <= a <= 1.0 && 0.0 <= b <= 1.0 ==>
               Home(PosOf(Scatter(p, n, a, b, c))) == Index(Cell(p.x), Cell(p.y)))
            <==> StaysInCell(p.x, n) && StaysInCell(p.y, n)
  {
    hide BodyRadius, Trunc, Cell, StaysInCell, DropCount;
    StaysIff(p.x, n);
    StaysIff(p.y, n);
    if forall a, b, c :: 0.0 <= a <= 1.0 && 0.0 <= b <= 1.0 ==>
         Home(PosOf(Scatter(p, n, a, b, c))) == Index(Cell(p.x), Cell(p.y)) {
      forall a | 0.0 <= a <= 1.0
        ensures Landed(p.x, n, a) / SECTOR_SIZE == Cell(p.x) && Landed(p.y, n, a) / SECTOR_SIZE == Cell(p.y)
      {
        assert Home(PosOf(Scatter(p, n, a, a, 0.0))) == Index(Cell(p.x), Cell(p.y));
      }
    }
    if StaysInCell(p.x, n) && StaysInCell(p.y, n) {
      forall a, b, c | 0.0 <= a <= 1.0 && 0.0 <= b <= 1.0
        ensures Home(PosOf(Scatter(p, n, a, b, c))) == Index(Cell(p.x), Cell(p.y))
      {
        assert Landed(p.x, n, a) / SECTOR_SIZE == Cell(p.x) && Landed(p.y, n, b) / SECTOR_SIZE == Cell(p.y);
      }
    }
  }

  // ---------------------------------------------------------------- what it is worth

  /** Two pieces per part at three parts, one more for every 53 parts, at most twelve. */
  lemma PieceCount(n: nat)
    requires n >= 3
    ensures DropCount(n) == if n < 533 then 2 + (n - 3) / 53 else 12
  {
    var k, v := (n - 3) / 53, Scale(n) * 2.0;
    if n < 533 {
      var x := (n - 3) as real / 53.0;
      assert v == 2.0 + x;
      assert x * 53.0 == (n - 3) as real && n - 3 == 53 * k + (n - 3) % 53;
      assert k as real <= x < k as real + 1.0;
      assert v.Floor == 2 + k;
    }
  }

  /** The worth of the pieces of one part, for each number of pieces. */
  lemma PartWorth(n: nat)
    requires n >= 3
    ensures var k := DropCount(n); 2 <= k <= 12 && 96 <= 100 / k * k <= 100 && (k <= 5 && k != 3 ==> 100 / k * k == 100)
  {
    hide DropCount;
    PieceCount(n);
    Shares(DropCount(n));
  }

  lemma Shares(k: nat)
    requires 2 <= k <= 12
    ensures 96 <= 100 / k * k <= 100 && (k <= 5 && k != 3 ==> 100 / k * k == 100)
  {
    if k < 6 {
    } else if k < 9 {
    } else if k < 11 {
    }
  }

  lemma SizesSnoc(foods: seq<Food>, f: Food)
    ensures Sizes(foods + [f]) == Sizes(foods) + f.size
  {
    assert (foods + [f])[..|foods|] == foods;
  }

  lemma {:induction false} PartDropsWorth(before: seq<Drop>, p: Body, k: nat, n: nat, draw: nat -> real, from: nat, j: nat)
    ensures DropCount(n) > 0
    ensures Sizes(FoodsOf(before + PartDrops(p, k, n, draw, from, j))) == Sizes(FoodsOf(before)) + j * (100 / DropCount(n))
  {
    hide BodyRadius, Trunc, Sizes;
    SomePieces(n);
    if j > 0 {
      PartDropsWorth(before, p, k, n, draw, from, j - 1);
      var at, d := from + 3 * (j - 1), PartDrops(p, k, n, draw, from, j - 1);
      var last := Drop(k, Scatter(p, n, draw(at), draw(at + 1), draw(at + 2)));
      assert before + (d + [last]) == (before + d) + [last];
      assert FoodsOf((before + d) + [last]) == FoodsOf(before + d) + [last.food];
      SizesSnoc(FoodsOf(before + d), last.food);
      Once(j, 100 / DropCount(n));
    } else {
      assert before + [] == before;
    }
  }

  lemma SomePieces(n: nat)
    ensures DropCount(n) > 0
  {
  }

  lemma Once(j: nat, v: int)
    requires j > 0
    ensures j * v == (j - 1) * v + v
  {
  }

  /** How many of the first m parts lie outside the border sectors. */
  function InnerCount(parts: seq<Body>, m: nat): nat
    requires m <= |parts|
  {
    if m == 0 then 0 else InnerCount(parts, m - 1) + if Inner(parts[m - 1]) then 1 else 0
  }

  /** What a dead body leaves: from every part outside the border sectors as many pieces of the same size as
      `DropCount` says, together worth the part but for what the division loses, which is at most 4 of 100. */
  lemma {:induction false} RemainsWorth(parts: seq<Body>, draw: nat -> real, m: nat)
    requires 3 <= |parts| && m <= |parts|
    ensures var d, k := Drops(parts, draw, m), DropCount(|parts|);
            && k > 0 && |d| == InnerCount(parts, m) * k
            && Sizes(FoodsOf(d)) == InnerCount(parts, m) * (k * (100 / k))
            && 96 * InnerCount(parts, m) <= Sizes(FoodsOf(d)) <= 100 * InnerCount(parts, m)
  {
    hide BodyRadius, Trunc, Sizes, DropCount, Cell, PartDrops;
    var n, k := |parts|, DropCount(|parts|);
    PartWorth(n);
    var w := k * (100 / k);
    if m > 0 {
      RemainsWorth(parts, draw, m - 1);
      var d, p, c := Drops(parts, draw, m - 1), parts[m - 1], InnerCount(parts, m - 1);
      if Inner(p) {
        var sector := Index(Cell(p.x), Cell(p.y));
        PartDropsWorth(d, p, sector, n, draw, 3 * |d|, k);
        assert |PartDrops(p, sector, n, draw, 3 * |d|, k)| == k;
        Once(c + 1, w);
        Once(c + 1, k);
      }
    } else {
      Nothing();
    }
  }

  lemma Nothing()
    ensures Sizes(FoodsOf([])) == 0
  {
  }

  /** The parts that leave food: those at least one sector away from every edge of the map. */
  lemma InnerIs(p: Body)
    ensures Inner(p) <==> 300.0 <= p.x < 42900.0 && 300.0 <= p.y < 42900.0
  {
    CellBounds(p.x);
    CellBounds(p.y);
  }
}
