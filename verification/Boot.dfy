/** The state of the world after initialisation: food by sector, and the bots. */
module Boot {
  import opened Config
  import opened Grid
  import opened Birth
  import opened FoodList
  import opened SnakeModel
  import opened Packets
  import opened WorldModel

  /** Pieces of natural food of a sector, fewer towards the edge of the map. */
  function Density(k: nat): nat {
    var dx, dy := Column(k) - EDGE / 2, Row(k) - EDGE / 2;
    var d := 1.0 - (dx * dx + dy * dy) as real / (EDGE * EDGE) as real;
    if d > 0.0 then Trunc(d * 10.0) else 0
  }

  /** The draws of one piece: where in its sector, how large, which colour. */
  datatype Sowing = Sowing(dx: nat, dy: nat, size: nat, color: nat)

  type Sower = (nat, nat) -> Sowing

  ghost predicate SowerOk(draw: Sower) {
    forall k, i :: draw(k, i).dx < SECTOR_SIZE && draw(k, i).dy < SECTOR_SIZE && draw(k, i).size < 10 && draw(k, i).color < 29
  }

  function Piece(k: nat, w: Sowing): Food {
    Food(SECTOR_SIZE * Column(k) + w.dx, SECTOR_SIZE * Row(k) + w.dy, 1 + w.size, w.color)
  }

  /** The first n pieces of sector k. The sort at the end finds the list sorted. */
  function Sown(k: nat, draw: Sower, n: nat): (s: seq<Food>)
    ensures SortedX(s) && |s| == n
  {
    if n == 0 then [] else FoodList.Insert(Sown(k, draw, n - 1), Piece(k, draw(k, n - 1)))
  }

  /** Every piece of natural food has a size of 1 to 10 and lies in the sector it is filed in. */
  lemma {:induction false} SownRight(k: nat, draw: Sower, n: nat, f: Food)
    requires k < SECTORS && SowerOk(draw) && f in Sown(k, draw, n)
    ensures 1 <= f.size <= 10 && Home(PosOf(f)) == k
  {
    hide FoodList.Insert, Home;
    var w, s := draw(k, n - 1), Sown(k, draw, n - 1);
    Inserted(s, Piece(k, w), f);
    if f in s {
      SownRight(k, draw, n - 1, f);
    } else {
      PieceHome(k, w);
    }
  }

  lemma Inserted(s: seq<Food>, g: Food, f: Food)
    requires SortedX(s)
    ensures f in FoodList.Insert(s, g) ==> f in s || f == g
  {
    hide FoodList.Insert;
    if f in FoodList.Insert(s, g) {
      assert f in multiset(FoodList.Insert(s, g));
    }
  }

  lemma PieceHome(k: nat, w: Sowing)
    requires k < SECTORS && w.dx < SECTOR_SIZE && w.dy < SECTOR_SIZE
    ensures Home(PosOf(Piece(k, w))) == k
  {
    IndexOfColumnRow(k);
  }

  /** The bots of the first n draws, with the ids after `last`. */
  function Bots(last: nat, d: nat -> Draws, n: nat): (r: SnakeMap)
    ensures forall id :: id in r <==> last < id <= last + n
  {
    if n == 0 then map[]
    else
      var id := last + n;
      Bots(last, d, n - 1)[id := Placed(Blank(id, d(n - 1).skin, Drawn(d(n - 1)), d(n - 1).angle)).(bot := true)]
  }

  lemma {:induction false} BotsAre(last: nat, d: nat -> Draws, n: nat, id: nat)
    requires last < id <= last + n
    ensures id in Bots(last, d, n)
    ensures var w := d(id - last - 1);
            Bots(last, d, n)[id] == Placed(Blank(id, w.skin, Drawn(w), w.angle)).(bot := true)
  {
    hide Placed, Blank, Drawn;
    if id < last + n {
      BotsAre(last, d, n - 1, id);
    }
  }

  /** Five to ten pieces per sector: ten times what is left of 1 after the squared distance from the middle sector in
      units of the edge, cut to a whole number. */
  lemma DensityIs(k: nat)
    requires k < SECTORS
    ensures var dx, dy := Column(k) - 72, Row(k) - 72;
            var left := 10 * (20736 - dx * dx - dy * dy);
            Density(k) * 20736 <= left < (Density(k) + 1) * 20736 && 5 <= Density(k) <= 10
  {
    IndexOfColumnRow(k);
    var dx, dy := Column(k) - 72, Row(k) - 72;
    Square(dx);
    Square(dy);
    var q := dx * dx + dy * dy;
    assert 0 <= q <= 10368;
    Tenths(q);
  }

  lemma Square(x: int)
    requires -72 <= x <= 72
    ensures 0 <= x * x <= 5184
  {
    assert (72 - x) * (72 + x) >= 0;
    assert (72 - x) * (72 + x) == 5184 - x * x;
  }

  lemma Tenths(q: nat)
    requires q <= 10368
    ensures var d := 1.0 - q as real / 20736.0;
            d > 0.0 && Trunc(d * 10.0) >= 5 && Trunc(d * 10.0) * 20736 <= 10 * (20736 - q) < (Trunc(d * 10.0) + 1) * 20736
            && Trunc(d * 10.0) <= 10
  {
    var v := (1.0 - q as real / 20736.0) * 10.0;
    assert v * 20736.0 == (10 * (20736 - q)) as real;
    var n := v.Floor;
    assert n as real <= v < n as real + 1.0;
  }
}
