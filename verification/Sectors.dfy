/** The sector registry: every sector lists the snake boxes in it, every snake box and viewport keeps a
    sorted vector of its sectors. A box is listed by its owner's id. */
module Sectors {
  import opened Geometry
  import opened Config
  import opened Grid
  import opened SortedVec
  import opened SnakeModel

  /** `Sector::RemoveSnake` on one list. */
  function Without(s: seq<nat>, id: nat): (r: seq<nat>)
    ensures multiset(r) == multiset(s)[id := 0]
  {
    if s == [] then []
    else
      assert s == s[..|s| - 1] + [s[|s| - 1]];
      Without(s[..|s| - 1], id) + if s[|s| - 1] == id then [] else [s[|s| - 1]]
  }

  /** The registry lists `id` once in each sector of S and nowhere else. */
  ghost predicate Registered(reg: seq<seq<nat>>, id: nat, S: set<nat>) {
    |reg| == SECTORS && forall k :: 0 <= k < SECTORS ==> multiset(reg[k])[id] == if k in S then 1 else 0
  }

  /** Registrations of everyone but `id` are the same in both registries. */
  ghost predicate OthersKept(a: seq<seq<nat>>, b: seq<seq<nat>>, id: nat) {
    |a| == |b| && forall k, j :: 0 <= k < |a| && j != id ==> multiset(a[k])[j] == multiset(b[k])[j]
  }

  lemma OthersKeptSelf(a: seq<seq<nat>>, id: nat)
    ensures OthersKept(a, a, id)
  {
  }

  lemma OthersKeptTwice(a: seq<seq<nat>>, b: seq<seq<nat>>, c: seq<seq<nat>>, id: nat)
    requires OthersKept(a, b, id) && OthersKept(b, c, id)
    ensures OthersKept(a, c, id)
  {
  }

  /** Dropping `id` from the list of sector k takes k out of its registered set. */
  lemma Deregistered(reg: seq<seq<nat>>, id: nat, S: set<nat>, k: nat)
    requires Registered(reg, id, S) && k < SECTORS
    ensures var reg' := reg[k := Without(reg[k], id)];
            Registered(reg', id, S - {k}) && OthersKept(reg, reg', id)
  {
  }

  /** Listing `id` in a sector where it is missing adds that sector to its registered set. */
  lemma NewlyRegistered(reg: seq<seq<nat>>, id: nat, S: set<nat>, k: nat)
    requires Registered(reg, id, S) && k < SECTORS && k !in S
    ensures var reg' := reg[k := reg[k] + [id]];
            Registered(reg', id, S + {k}) && OthersKept(reg, reg', id)
  {
  }

  ghost predicate OnGrid(s: seq<nat>) {
    StrictlySorted(s) && forall k :: k in s ==> k < SECTORS
  }

  class SectorSeq {
    var snakes: seq<seq<nat>>   // Sector::snakes
    var food: FoodMap           // Sector::food

    ghost predicate Valid()
      reads this
    {
      |snakes| == SECTORS && FoodOk(food)
    }

    /** `SectorSeq::InitSectors`. */
    constructor ()
      ensures Valid()
      ensures forall id :: Registered(snakes, id, {})
      ensures forall k :: 0 <= k < SECTORS ==> food[k] == []
    {
      snakes := seq(SECTORS, _ => []);
      food := seq(SECTORS, _ => []);
    }

    /** `Sector::Remove`. */
    method RemoveFood(k: nat, n: nat)
      requires k < |food| && n < |food[k]|
      modifies this`food
      ensures food == Erased(old(food), k, n)
    {
      food := food[k := food[k][..n] + food[k][n + 1..]];
    }

    method RemoveSnake(k: nat, id: nat)
      requires Valid() && k < SECTORS
      modifies this`snakes
      ensures Valid()
      ensures snakes == old(snakes)[k := Without(old(snakes[k]), id)]
    {
      snakes := snakes[k := Without(snakes[k], id)];
    }
  }

  /** The food lists without item n of list k. */
  function Erased(food: FoodMap, k: nat, n: nat): FoodMap
    requires k < |food| && n < |food[k]|
  {
    food[k := food[k][..n] + food[k][n + 1..]]
  }

  /** Erasing takes exactly that item: the others keep their order, and all other lists stay. */
  lemma ErasedKeeps(food: FoodMap, k: nat, n: nat)
    requires k < |food| && n < |food[k]|
    ensures var r := Erased(food, k, n);
            && |r| == |food| && (forall j :: 0 <= j < |food| && j != k ==> r[j] == food[j])
            && multiset(r[k]) == multiset(food[k]) - multiset{food[k][n]}
            && (forall i :: 0 <= i < |r[k]| ==> r[k][i] == food[k][if i < n then i else i + 1])
    ensures FoodOk(food) ==> FoodOk(Erased(food, k, n))
  {
    var s := food[k];
    assert s == s[..n] + ([s[n]] + s[n + 1..]);
    var r := s[..n] + s[n + 1..];
    assert forall i :: 0 <= i < |r| ==> r[i] == s[if i < n then i else i + 1];
  }

  /** Position of a 3 x 3 (or 7 x 7) row-by-row scan: sector k has been visited before cell (i, j) is. */
  predicate Scanned(k: nat, left: int, right: int, low: int, i: int, j: int) {
    left <= Column(k) <= right && low <= Row(k) && (Row(k) < j || (Row(k) == j && Column(k) < i))
  }

  class SnakeBoundBox {
    const id: nat
    var x: real
    var y: real
    var r: real
    var sectors: seq<nat>

    constructor (id: nat)
      ensures this.id == id && sectors == []
    {
      this.id := id;
      x, y, r := 0.0, 0.0, 0.0;
      sectors := [];
    }

    ghost predicate Valid()
      reads this
    {
      OnGrid(sectors)
    }

    /** `SnakeBoundBox::InsertSortedWithReg`. */
    method InsertSortedWithReg(ss: SectorSeq, k: nat)
      requires Valid() && ss.Valid() && k < SECTORS && k !in sectors
      requires Registered(ss.snakes, id, Elems(sectors))
      modifies this`sectors, ss`snakes
      ensures Valid() && ss.Valid() && Elems(sectors) == old(Elems(sectors)) + {k}
      ensures Registered(ss.snakes, id, Elems(sectors)) && OthersKept(old(ss.snakes), ss.snakes, id)
    {
      NewlyRegistered(ss.snakes, id, Elems(sectors), k);
      sectors := Insert(sectors, k);
      assert forall m :: m in sectors <==> m in Elems(sectors);
      ss.snakes := ss.snakes[k := ss.snakes[k] + [id]];
    }

    /** One cell of the scan. */
    method Visit(ss: SectorSeq, box: Circle, i: int, j: int)
      requires Valid() && ss.Valid()
      requires Registered(ss.snakes, id, Elems(sectors))
      modifies this`sectors, ss`snakes
      ensures Valid() && ss.Valid()
      ensures Elems(sectors) == old(Elems(sectors))
                                + if InMap(i, j) && Index(i, j) in Meeting(box) then {Index(i, j)} else {}
      ensures Registered(ss.snakes, id, Elems(sectors)) && OthersKept(old(ss.snakes), ss.snakes, id)
    {
      hide Registered, OthersKept, OnGrid, Meets;
      OthersKeptSelf(ss.snakes, id);
      if InMap(i, j) {
        var k := Index(i, j);
        assert StrictlySorted(sectors) by { GridSorted(sectors); }
        if !IsPresent(sectors, k) && Meets(k, box) {
          InsertSortedWithReg(ss, k);
        }
      }
    }

    /** `SnakeBoundBox::UpdateBoxNewSectors`: on a sector crossing the 3 x 3 scan registers every sector of the
        whole map that meets the circle at the new position, in both directions and exactly once. */
    method UpdateBoxNewSectors(ss: SectorSeq, bbR: real, p: Body, q: Body)
      requires Valid() && ss.Valid() && 0.0 <= bbR < 237.5
      requires Registered(ss.snakes, id, Elems(sectors))
      modifies this`sectors, ss`snakes
      ensures Valid() && ss.Valid()
      ensures Elems(sectors) == EnteredWithin(old(Elems(sectors)), p, q, bbR)
      ensures Registered(ss.snakes, id, Elems(sectors)) && OthersKept(old(ss.snakes), ss.snakes, id)
    {
      hide Registered, OthersKept, OnGrid, Meets, Scanned;
      OthersKeptSelf(ss.snakes, id);
      var sx, sy := Cell(p.x), Cell(p.y);
      if sx == Cell(q.x) && sy == Cell(q.y) {
        return;
      }
      var box := Circle(p.x, p.y, bbR);
      ghost var was := Elems(sectors);
      ghost var all := Meeting(box);
      ScanStart(all, sx - 1, sx + 1, sy - 1);
      for j := sy - 1 to sy + 2
        invariant Valid() && ss.Valid()
        invariant Elems(sectors) == was + Visited(all, sx - 1, sx + 1, sy - 1, sx - 1, j)
        invariant Registered(ss.snakes, id, Elems(sectors)) && OthersKept(old(ss.snakes), ss.snakes, id)
      {
        for i := sx - 1 to sx + 2
          invariant Valid() && ss.Valid()
          invariant Elems(sectors) == was + Visited(all, sx - 1, sx + 1, sy - 1, i, j)
          invariant Registered(ss.snakes, id, Elems(sectors)) && OthersKept(old(ss.snakes), ss.snakes, id)
        {
          ghost var reg := ss.snakes;
          Visit(ss, box, i, j);
          OthersKeptTwice(old(ss.snakes), reg, ss.snakes, id);
          ScanStep(all, sx - 1, sx + 1, sy - 1, i, j);
        }
        ScanRow(all, sx - 1, sx + 1, sy - 1, j);
      }
      ScanDone(box, p);
    }

    /** `SnakeBoundBox::UpdateBoxOldSectors`: exactly the sectors that still meet the box stay, re-sorted,
        and exactly the dropped ones lose this box; other boxes' registrations are untouched. */
    method UpdateBoxOldSectors(ss: SectorSeq)
      requires Valid() && ss.Valid()
      requires Registered(ss.snakes, id, Elems(sectors))
      modifies this`sectors, ss`snakes
      ensures Valid() && ss.Valid()
      ensures Elems(sectors) == old(Elems(sectors)) * Meeting(Circle(x, y, r))
      ensures Registered(ss.snakes, id, Elems(sectors)) && OthersKept(old(ss.snakes), ss.snakes, id)
    {
      hide Registered, OthersKept, Meets;
      OthersKeptSelf(ss.snakes, id);
      var prevLen := |sectors|;
      SortedNoDup(sectors);
      var i := 0;
      var box := Circle(x, y, r);
      ghost var was := Elems(sectors);
      while i < |sectors|
        invariant 0 <= i <= |sectors| <= prevLen
        invariant ss.Valid() && NoDup(sectors) && Elems(sectors) <= was
        invariant |sectors| == prevLen ==> sectors == old(sectors)
        invariant forall j :: 0 <= j < i ==> Meets(sectors[j], box)
        invariant forall k :: k in was - Elems(sectors) ==> !Meets(k, box)
        invariant Registered(ss.snakes, id, Elems(sectors)) && OthersKept(old(ss.snakes), ss.snakes, id)
        decreases |sectors| - i
      {
        var k := sectors[i];
        assert k in Elems(sectors);
        if !Meets(k, box) {
          ghost var reg := ss.snakes;
          Deregistered(reg, id, Elems(sectors), k);
          ss.RemoveSnake(k, id);
          OthersKeptTwice(old(ss.snakes), reg, ss.snakes, id);
          sectors := SwapRemove(sectors, i);
        } else {
          i := i + 1;
        }
      }
      assert forall k :: k in Elems(sectors) ==> Meets(k, box);
      if prevLen != |sectors| {
        sectors := Sort(sectors);
      }
      assert forall k :: k in sectors <==> k in Elems(sectors);
    }
  }

  /** Push k unless it is listed already: `ViewPort::RegNewSectorIfMissing` and `RegOldSectorIfMissing`. */
  function Listed(s: seq<nat>, k: nat): (r: seq<nat>)
    ensures Elems(r) == Elems(s) + {k}
    ensures NoDup(s) ==> NoDup(r)
  {
    if k in s then s else s + [k]
  }

  class ViewPort {
    const id: nat
    var x: real
    var y: real
    var r: real
    var sectors: seq<nat>
    var newSectors: seq<nat>
    var oldSectors: seq<nat>

    constructor (id: nat)
      ensures this.id == id && sectors == [] && newSectors == [] && oldSectors == []
    {
      this.id := id;
      x, y, r := 0.0, 0.0, 0.0;
      sectors, newSectors, oldSectors := [], [], [];
    }

    ghost predicate Valid()
      reads this
    {
      OnGrid(sectors) && NoDup(newSectors) && NoDup(oldSectors) && forall k :: k in newSectors ==> k < SECTORS
    }

    /** One cell of the scan, with `ViewPort::InsertSortedWithDelta`. */
    method Visit(i: int, j: int)
      requires Valid()
      modifies this`sectors, this`newSectors
      ensures Valid()
      ensures var hit := if InMap(i, j) && Meets(Index(i, j), Circle(x, y, r)) then {Index(i, j)} else {};
              && Elems(sectors) == old(Elems(sectors)) + hit
              && Elems(newSectors) == old(Elems(newSectors)) + (hit - old(Elems(sectors)))
    {
      hide Meets;
      if InMap(i, j) {
        var k := Index(i, j);
        if !IsPresent(sectors, k) && Meets(k, Circle(x, y, r)) {
          sectors := Insert(sectors, k);
          assert forall m :: m in sectors <==> m in Elems(sectors);
          newSectors := Listed(newSectors, k);
        }
      }
    }

    /** `ViewPort::UpdateBoxNewSectors`: the 7 x 7 window around the new cell, tested against the circle
        the viewport still has; what is gained, and nothing else, is listed as new. */
    method UpdateBoxNewSectors(p: Body, q: Body)
      requires Valid()
      modifies this`sectors, this`newSectors
      ensures Valid()
      ensures Elems(sectors) == old(Elems(sectors)) + Appearing(Circle(x, y, r), p, q)
      ensures Elems(newSectors) == old(Elems(newSectors)) + (Appearing(Circle(x, y, r), p, q) - old(Elems(sectors)))
    {
      hide OnGrid, Meets, Scanned, NoDup;
      var sx, sy := Cell(p.x), Cell(p.y);
      if sx == Cell(q.x) && sy == Cell(q.y) {
        return;
      }
      ghost var was, wasNew, all := Elems(sectors), Elems(newSectors), Appearing(Circle(x, y, r), p, q);
      ScanStart(all, sx - 3, sx + 3, sy - 3);
      for j := sy - 3 to sy + 4
        invariant Valid()
        invariant Elems(sectors) == was + Visited(all, sx - 3, sx + 3, sy - 3, sx - 3, j)
        invariant Elems(newSectors) == wasNew + (Visited(all, sx - 3, sx + 3, sy - 3, sx - 3, j) - was)
      {
        for i := sx - 3 to sx + 4
          invariant Valid()
          invariant Elems(sectors) == was + Visited(all, sx - 3, sx + 3, sy - 3, i, j)
          invariant Elems(newSectors) == wasNew + (Visited(all, sx - 3, sx + 3, sy - 3, i, j) - was)
        {
          Visit(i, j);
          ScanStep(all, sx - 3, sx + 3, sy - 3, i, j);
        }
        ScanRow(all, sx - 3, sx + 3, sy - 3, j);
      }
      ViewScanDone(Circle(x, y, r), p, q);
    }

    /** `ViewPort::UpdateBoxOldSectors`: what no longer meets the circle goes, and is listed as old. */
    method UpdateBoxOldSectors()
      requires Valid()
      modifies this`sectors, this`oldSectors
      ensures Valid()
      ensures Elems(sectors) == old(Elems(sectors)) * Meeting(Circle(x, y, r))
      ensures Elems(oldSectors) == old(Elems(oldSectors)) + (old(Elems(sectors)) - Meeting(Circle(x, y, r)))
    {
      hide Meets;
      var prevLen := |sectors|;
      SortedNoDup(sectors);
      var i := 0;
      var box := Circle(x, y, r);
      ghost var was, wasOld := Elems(sectors), Elems(oldSectors);
      while i < |sectors|
        invariant 0 <= i <= |sectors| <= prevLen
        invariant NoDup(sectors) && NoDup(oldSectors) && Elems(sectors) <= was
        invariant |sectors| == prevLen ==> sectors == old(sectors)
        invariant forall j :: 0 <= j < i ==> Meets(sectors[j], box)
        invariant forall k :: k in was - Elems(sectors) ==> !Meets(k, box)
        invariant Elems(oldSectors) == wasOld + (was - Elems(sectors))
        decreases |sectors| - i
      {
        var k := sectors[i];
        assert k in Elems(sectors);
        if !Meets(k, box) {
          oldSectors := Listed(oldSectors, k);
          sectors := SwapRemove(sectors, i);
        } else {
          i := i + 1;
        }
      }
      assert forall k :: k in Elems(sectors) ==> Meets(k, box);
      if prevLen != |sectors| {
        sectors := Sort(sectors);
      }
      assert forall k :: k in sectors <==> k in Elems(sectors);
    }
  }

  lemma GridSorted(s: seq<nat>)
    requires OnGrid(s)
    ensures StrictlySorted(s)
  {
  }

  /** The part of `all` that a row-by-row scan has visited before cell (i, j). */
  ghost function Visited(all: set<nat>, left: int, right: int, low: int, i: int, j: int): set<nat> {
    set k | k in all && Scanned(k, left, right, low, i, j)
  }

  lemma ScanStart(all: set<nat>, left: int, right: int, low: int)
    ensures Visited(all, left, right, low, left, low) == {}
  {
  }

  lemma ScanRow(all: set<nat>, left: int, right: int, low: int, j: int)
    requires low <= j
    ensures Visited(all, left, right, low, right + 1, j) == Visited(all, left, right, low, left, j + 1)
  {
  }

  /** The 3 x 3 scan around p has visited everything its circle can meet. */
  lemma ScanDone(box: Circle, p: Body)
    requires box.x == p.x && box.y == p.y && 0.0 <= box.r < 237.5
    ensures Visited(Meeting(box), Cell(p.x) - 1, Cell(p.x) + 1, Cell(p.y) - 1, Cell(p.x) - 1, Cell(p.y) + 2)
            == Meeting(box)
  {
    forall k | k in Meeting(box)
      ensures Scanned(k, Cell(p.x) - 1, Cell(p.x) + 1, Cell(p.y) - 1, Cell(p.x) - 1, Cell(p.y) + 2)
    {
      WindowComplete(k, box);
    }
  }

  /** The 7 x 7 scan around p has visited everything that can appear. */
  lemma ViewScanDone(view: Circle, p: Body, q: Body)
    requires Crossed(p, q)
    ensures Visited(Appearing(view, p, q), Cell(p.x) - 3, Cell(p.x) + 3, Cell(p.y) - 3, Cell(p.x) - 3, Cell(p.y) + 4)
            == Appearing(view, p, q)
  {
  }

  /** One step of a row-by-row scan visits exactly the next cell, if it is on the map. */
  lemma ScanStep(all: set<nat>, left: int, right: int, low: int, i: int, j: int)
    requires left <= i <= right && low <= j && forall k :: k in all ==> k < SECTORS
    ensures Visited(all, left, right, low, i + 1, j)
            == Visited(all, left, right, low, i, j)
               + (if InMap(i, j) && Index(i, j) in all then {Index(i, j)} else {})
  {
    forall k | k in all && Scanned(k, left, right, low, i + 1, j) && !Scanned(k, left, right, low, i, j)
      ensures InMap(i, j) && k == Index(i, j)
    {
      IndexOfColumnRow(k);
    }
  }
}
