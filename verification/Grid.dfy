/** Geometry of the 144 x 144 sector grid. A sector is named by its index y * 144 + x, which is
    also its address order in the sector vector. */
module Grid {
  import opened Geometry
  import opened Config

  /** The death disc: the game radius on both axes, and the game radius less one sector. */
  const CENTRE := Body(21600.0, 21600.0)
  const DEATH := 21300.0

  /** A C++ float-to-integer cast: truncation toward zero. */
  function Trunc(x: real): int {
    if x >= 0.0 then x.Floor else -((-x).Floor)
  }

  /** The sector coordinate a position coordinate falls in. */
  function Cell(x: real): int {
    Trunc(x / 300.0)
  }

  predicate InMap(i: int, j: int) {
    0 <= i < EDGE && 0 <= j < EDGE
  }

  /** `SectorSeq::get_index`. */
  function Index(i: int, j: int): (k: nat)
    requires InMap(i, j)
    ensures k < SECTORS && Column(k) == i && Row(k) == j
  {
    j * EDGE + i
  }

  function Column(k: nat): nat { k % EDGE }

  function Row(k: nat): nat { k / EDGE }

  lemma IndexOfColumnRow(k: nat)
    requires k < SECTORS
    ensures InMap(Column(k), Row(k)) && Index(Column(k), Row(k)) == k
  {
  }

  /** Centre of the sector's own circle. */
  function Centre(k: nat): Body {
    Body(300.0 * Column(k) as real + 150.0, 300.0 * Row(k) as real + 150.0)
  }

  /** `Sector::Intersect`. */
  predicate Meets(k: nat, c: Circle) {
    IntersectCircle(Centre(k), Body(c.x, c.y), SECTOR_RADIUS + c.r)
  }

  /** All sectors of the map whose circle meets c. */
  function Meeting(c: Circle): set<nat> {
    set k: nat | k < SECTORS && Meets(k, c)
  }

  /** The move from q to p enters another sector. */
  predicate Crossed(p: Body, q: Body) {
    Cell(p.x) != Cell(q.x) || Cell(p.y) != Cell(q.y)
  }

  /** Sector k lies within w cells of the cell of p. */
  predicate Around(k: nat, p: Body, w: int) {
    -w <= Column(k) - Cell(p.x) <= w && -w <= Row(k) - Cell(p.y) <= w
  }

  lemma CellBounds(x: real)
    ensures x >= 0.0 ==> 300.0 * Cell(x) as real <= x < 300.0 * Cell(x) as real + 300.0
    ensures x < 0.0 ==> 300.0 * Cell(x) as real - 300.0 < x <= 300.0 * Cell(x) as real && Cell(x) <= 0
  {
    var q := x / 300.0;
    assert q * 300.0 == x;
    if x < 0.0 {
      assert (-q).Floor >= 0;
    }
  }

  lemma AxisWindow(s: nat, x: real, d: real)
    requires 0.0 <= d < 450.0 && -d <= 300.0 * s as real + 150.0 - x <= d
    ensures -1 <= s - Cell(x) <= 1
  {
    CellBounds(x);
  }

  /** Window completeness: only the 3 x 3 window around a point can meet a circle of radius below 237.5 there,
      so scanning that window finds every sector of the whole map. */
  lemma WindowComplete(k: nat, c: Circle)
    requires 0.0 <= c.r < 237.5 && Meets(k, c)
    ensures Around(k, Body(c.x, c.y), 1)
  {
    var u := Centre(k).Minus(Body(c.x, c.y));
    ShortAxis(u, SECTOR_RADIUS + c.r);
    AxisWindow(Column(k), c.x, SECTOR_RADIUS + c.r);
    AxisWindow(Row(k), c.y, SECTOR_RADIUS + c.r);
  }

  // ---------------------------------------------------------------- snake box and viewport

  /** Sectors of a box after a point of it moved from q to p: on a crossing, all that the circle at p meets. */
  function EnteredWithin(sectors: set<nat>, p: Body, q: Body, r: real): set<nat> {
    if Crossed(p, q) then sectors + Meeting(Circle(p.x, p.y, r)) else sectors
  }

  /** The same for one body part of a snake, whose circle has half a sector as radius. */
  function Entered(sectors: set<nat>, p: Body, q: Body): set<nat> {
    EnteredWithin(sectors, p, q, 150.0)
  }

  /** The viewport circle of a head at p. */
  function ViewCircle(p: Body): Circle {
    Circle(p.x, p.y, 1275.0)
  }

  /** Sectors the viewport gains when the head moves from q to p while the view circle is still `view`. */
  function Appearing(view: Circle, p: Body, q: Body): set<nat> {
    if Crossed(p, q) then set k: nat | k < SECTORS && Around(k, p, 3) && Meets(k, view) else {}
  }

  /** Every map sector within two cells of p is in the viewport. */
  ghost predicate Covers(vp: set<nat>, p: Body) {
    forall k: nat :: k < SECTORS && Around(k, p, 2) ==> k in vp
  }

  /** A sector within two cells is at most 750 away on each axis. */
  lemma NearbyCentre(k: nat, p: Body)
    requires p.x >= 0.0 && p.y >= 0.0 && Around(k, p, 2)
    ensures -750.0 <= Centre(k).x - p.x <= 750.0
    ensures -750.0 <= Centre(k).y - p.y <= 750.0
  {
    CellBounds(p.x);
    CellBounds(p.y);
  }

  lemma SquareWithin(x: real, a: real)
    requires -a <= x <= a
    ensures x * x <= a * a
  {
    assert (a - x) * (a + x) >= 0.0;
    assert (a - x) * (a + x) == a * a - x * x;
  }

  /** Such a sector still meets the view circle of a head up to 300 away. */
  lemma NearbyMeets(k: nat, p: Body, q: Body)
    requires p.x >= 0.0 && p.y >= 0.0 && Around(k, p, 2) && Near(p, q, 300.0)
    ensures Meets(k, ViewCircle(q)) && Meets(k, ViewCircle(p))
  {
    NearbyCentre(k, p);
    var u, v := Centre(k).Minus(p), p.Minus(q);
    SquareWithin(u.x, 750.0);
    SquareWithin(u.y, 750.0);
    assert Short(u, 1070.0);
    ShortSum(u, v, 1070.0, 300.0);
    ShortWeaken(u.Plus(v), 1370.0, 1487.5);
    ShortWeaken(u, 1070.0, 1487.5);
    assert u.Plus(v) == Centre(k).Minus(q);
  }

  /** Viewport coverage, one move of at most 300: inserting against the old view circle, and only on a
      crossing, then filtering against the new one, keeps everything within two cells of the head. */
  lemma CoverageStep(vp: set<nat>, p: Body, q: Body)
    requires p.x >= 0.0 && p.y >= 0.0 && Near(p, q, 300.0)
    requires Covers(vp, q)
    ensures Covers((vp + Appearing(ViewCircle(q), p, q)) * Meeting(ViewCircle(p)), p)
  {
    forall k: nat | k < SECTORS && Around(k, p, 2)
      ensures k in (vp + Appearing(ViewCircle(q), p, q)) * Meeting(ViewCircle(p))
    {
      NearbyMeets(k, p, q);
    }
  }

  /** A fresh viewport is filled from the whole window, its old position being in cell (0, 0). */
  lemma CoverageStart(p: Body)
    requires p.x >= 300.0 && p.y >= 0.0
    ensures Covers(Appearing(ViewCircle(p), p, Body(0.0, 0.0)), p)
  {
    CellBounds(p.x);
    CellBounds(0.0);
    ShortZero(300.0);
    forall k: nat | k < SECTORS && Around(k, p, 2)
      ensures k in Appearing(ViewCircle(p), p, Body(0.0, 0.0))
    {
      NearSelf(p, 300.0);
      NearbyMeets(k, p, p);
    }
  }
}
