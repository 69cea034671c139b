/** The mutable snake of the simulation. Every method is proved to compute the function of `SnakeModel`
    that carries its name, on the abstract state `State()`. */
module SnakeObject {
  import opened Geometry
  import opened Config
  import opened Movement
  import opened Grid
  import opened SortedVec
  import FoodList
  import opened SnakeModel
  import opened SnakeLaws
  import opened Ticks
  import opened BodyLaws
  import opened Sectors
  import opened Collision
  import opened DeathFood

  type Food = FoodList.Food

  lemma GulpSnoc(s: SnakeState, foods: seq<Food>, f: Food)
    ensures var g := Gulp(s, foods);
            Gulp(s, foods + [f]) == Increase(g, f.size).(eaten := g.eaten + [f])
  {
    assert (foods + [f])[..|foods|] == foods;
  }

  lemma NothingEaten(s: SnakeState)
    ensures FoodList.Reverse([]) == [] && Gulp(s, []) == s
  {
  }

  lemma {:induction false} GulpConcat(s: SnakeState, a: seq<Food>, b: seq<Food>)
    ensures Gulp(s, a + b) == Gulp(Gulp(s, a), b)
  {
    if b == [] {
      assert a + b == a;
    } else {
      GulpConcat(s, a, b[..|b| - 1]);
      assert (a + b)[..|a + b| - 1] == a + b[..|b| - 1];
    }
  }

  lemma EraseLeft(food: FoodMap, k: nat, list: seq<Food>, i: nat, p: nat)
    requires k < |food| && 0 < i <= p <= |list|
    requires food[k] == list[..i] + list[p..]
    ensures food[k][i - 1] == list[i - 1]
    ensures Erased(food, k, i - 1) == food[k := list[..i - 1] + list[p..]]
    ensures FoodList.Reverse(list[i - 1..p]) == FoodList.Reverse(list[i..p]) + [list[i - 1]]
  {
    assert food[k][..i - 1] == list[..i - 1] && food[k][i..] == list[p..];
    assert list[i - 1..p] == [list[i - 1]] + list[i..p];
    FoodList.ReverseCons(list[i - 1], list[i..p]);
  }

  lemma EraseRight(food: FoodMap, k: nat, list: seq<Food>, i: nat, p: nat, e: nat)
    requires k < |food| && i <= p <= e < |list|
    requires food[k] == list[..i] + list[e..]
    ensures i < |food[k]| && food[k][i] == list[e]
    ensures Erased(food, k, i) == food[k := list[..i] + list[e + 1..]]
    ensures list[p..e + 1] == list[p..e] + [list[e]]
  {
    assert food[k][..i] == list[..i] && food[k][i + 1..] == list[e + 1..];
  }

  lemma EdgesUnique(s: seq<Food>, p: nat, near: Food -> bool, l: nat, r: nat)
    requires l <= p <= r <= |s|
    requires forall i :: l <= i < r ==> near(s[i])
    ensures l == 0 || !near(s[l - 1]) ==> FoodList.LeftEdge(s, p, near) == l
    ensures r == |s| || !near(s[r]) ==> FoodList.RightEdge(s, p, near) == r
  {
    var a, b := FoodList.LeftEdge(s, p, near), FoodList.RightEdge(s, p, near);
  }

  /** The first i parts have followed the head, the rest have not moved yet, prev is the old part before i. */
  ghost predicate Following(was: seq<Body>, head: Body, parts: seq<Body>, prev: Body, i: nat) {
    && 1 <= i <= |was| == |parts|
    && prev == was[i - 1]
    && parts[..i] == Follow(was, head)[..i]
    && parts[i..] == was[i..]
  }

  lemma FollowingStart(was: seq<Body>, head: Body)
    requires was != []
    ensures Following(was, head, was[0 := head], was[0], 1)
    ensures Sum(was[0 := head][..1]) == head
  {
    var parts := was[0 := head];
    assert parts[..1] == [head] == Follow(was, head)[..1];
    assert [head][..0] == [];
    assert Sum([]) == Body(0.0, 0.0);
  }

  lemma FollowingDone(was: seq<Body>, head: Body, parts: seq<Body>, prev: Body)
    requires Following(was, head, parts, prev, |was|)
    ensures parts == Follow(was, head) && parts[..|was|] == parts
  {
  }

  lemma FollowingStep(was: seq<Body>, head: Body, parts: seq<Body>, prev: Body, i: nat, pt: Body)
    requires Following(was, head, parts, prev, i) && i < |was|
    requires pt == prev.Plus(parts[i - 1].Minus(prev).Times(Coeff(i)))
    ensures pt == Follow(was, head)[i] && parts[i] == was[i]
    ensures Following(was, head, parts[i := pt], parts[i], i + 1)
    ensures Sum(parts[i := pt][..i + 1]) == Sum(parts[..i]).Plus(pt)
  {
    hide Coeff;
    var f := Follow(was, head);
    assert parts[i - 1] == parts[..i][i - 1] == f[i - 1];
    assert f[i] == was[i - 1].Plus(f[i - 1].Minus(was[i - 1]).Times(Coeff(i)));
    var next := parts[i := pt];
    assert next[..i] == parts[..i];
    assert next[..i + 1] == next[..i] + [pt];
    assert f[..i + 1] == f[..i] + [f[i]];
    assert next[i + 1..] == parts[i..][1..] && was[i + 1..] == was[i..][1..];
    assert parts[i] == parts[i..][0] == was[i..][0] == was[i];
    SumSnoc(next, i);
  }

  class Snake {
    const id: nat
    const sbb: SnakeBoundBox
    const vp: ViewPort
    var bot: bool
    var skin: int
    var update: Flags
    var acceleration: bool
    var speed: nat
    var angle: real
    var wangle: real
    var fullness: int
    var parts: seq<Body>
    var eaten: seq<Food>
    var spawn: seq<Food>
    var clientPartsIndex: int
    var movTicks: nat
    var rotTicks: nat
    var aiTicks: nat

    ghost function State(): SnakeState
      reads this, sbb, vp
    {
      SnakeState(id, bot, skin, update, acceleration, speed, angle, wangle, fullness, parts,
                 Circle(sbb.x, sbb.y, sbb.r), Elems(sbb.sectors),
                 Circle(vp.x, vp.y, vp.r), Elems(vp.sectors), Elems(vp.newSectors), Elems(vp.oldSectors),
                 eaten, spawn, clientPartsIndex, movTicks, rotTicks, aiTicks)
    }

    ghost predicate Valid()
      reads this, sbb, vp
    {
      sbb.id == id && vp.id == id && sbb.Valid() && vp.Valid()
    }

    /** The registry and this snake's box agree. */
    ghost predicate In(reg: seq<seq<nat>>)
      reads sbb
    {
      Registered(reg, sbb.id, Elems(sbb.sectors))
    }

    // -------------------------------------------------------------- creation

    constructor (id: nat, skin: int, body: seq<Body>, angle: real)
      requires body != []
      ensures Valid() && fresh(sbb) && fresh(vp) && State() == Blank(id, skin, body, angle)
      ensures this.id == id && sbb.sectors == [] && !bot && parts == body
    {
      this.id, this.skin, this.angle, this.wangle, this.parts := id, skin, angle, angle, body;
      bot, update, acceleration, speed, fullness := false, NO_FLAGS, false, BASE_SPEED, 0;
      eaten, spawn, clientPartsIndex, movTicks, rotTicks, aiTicks := [], [], |body|, 0, 0, 0;
      sbb := new SnakeBoundBox(id);
      vp := new ViewPort(id);
      new;
      UpdateBoxCenter();
      sbb.r, vp.r := BoxRadius(|parts|), 1275.0;
    }

    /** `Snake::UpdateBoxCenter`. */
    method UpdateBoxCenter()
      requires parts != []
      modifies sbb`x, sbb`y, vp`x, vp`y
      ensures Body(sbb.x, sbb.y) == Centroid(parts) && Body(vp.x, vp.y) == parts[0]
    {
      var sum := Body(0.0, 0.0);
      for i := 0 to |parts|
        invariant sum == Sum(parts[..i])
      {
        SumSnoc(parts, i);
        sum := sum.Plus(parts[i]);
      }
      assert parts[..|parts|] == parts;
      sbb.x, sbb.y := sum.x / |parts| as real, sum.y / |parts| as real;
      vp.x, vp.y := parts[0].x, parts[0].y;
    }

    method InitBoxNewSectors(ss: SectorSeq)
      requires Valid() && ss.Valid() && In(ss.snakes) && parts != [] && !bot
      modifies sbb`sectors, vp, ss`snakes
      ensures Valid() && ss.Valid() && In(ss.snakes) && OthersKept(old(ss.snakes), ss.snakes, id)
      ensures State() == Placed(old(State()))
    {
      ghost var reg := ss.snakes;
      sbb.UpdateBoxNewSectors(ss, 150.0, parts[0], ORIGIN);
      vp.UpdateBoxNewSectors(parts[0], ORIGIN);
      var i := 3;
      ghost var all := InitEntered(Elems(sbb.sectors), parts, 3);
      while i < |parts|
        invariant Valid() && ss.Valid() && In(ss.snakes) && OthersKept(reg, ss.snakes, id)
        invariant InitEntered(Elems(sbb.sectors), parts, i) == all
        modifies sbb`sectors, ss`snakes
        decreases |parts| - i
      {
        sbb.UpdateBoxNewSectors(ss, 150.0, parts[i], ORIGIN);
        i := i + 12;
      }
    }

    // -------------------------------------------------------------- size

    method IncreaseSnake(volume: int)
      modifies this`fullness, this`parts, this`update
      ensures State() == Increase(old(State()), volume)
    {
      fullness := fullness + volume;
      if fullness >= 100 {
        fullness := fullness - 100;
        parts := parts + [if parts == [] then Body(0.0, 0.0) else parts[|parts| - 1]];
      }
      update := update.(fullness := true);
    }

    method SpawnFood(ss: SectorSeq, f: Food)
      requires ss.Valid() && Valid()
      modifies this`spawn, ss`food
      ensures ss.Valid() && Pair(State(), ss.food) == SnakeModel.SpawnFood(Pair(old(State()), old(ss.food)), f)
    {
      var i, j := f.x / SECTOR_SIZE, f.y / SECTOR_SIZE;
      for n := 0 to |sbb.sectors|
        invariant State() == old(State()) && ss.food == old(ss.food)
        invariant forall m :: 0 <= m < n ==> Column(sbb.sectors[m]) != i || Row(sbb.sectors[m]) != j
      {
        var k := sbb.sectors[n];
        if Column(k) == i && Row(k) == j {
          assert k in Elems(sbb.sectors) && k in sbb.sectors;
          IndexOfColumnRow(k);
          ss.food := ss.food[k := FoodList.Insert(ss.food[k], f)];
          spawn := spawn + [f];
          return;
        }
      }
      assert InMap(i, j) ==> Index(i, j) !in sbb.sectors;
    }

    /** One round of the shrinking loop. */
    method DropPart(ss: SectorSeq)
      requires ss.Valid() && Valid()
      modifies this`spawn, this`parts, ss`food
      ensures ss.Valid() && Pair(State(), ss.food) == DropOne(Pair(old(State()), old(ss.food)))
    {
      if |parts| > 3 {
        var last := parts[|parts| - 1];
        SpawnFood(ss, FoodList.Food(Trunc(last.x), Trunc(last.y), 100, skin));
        parts := parts[..|parts| - 1];
      }
    }

    method DecreaseSnake(ss: SectorSeq, volume: int)
      requires ss.Valid() && Valid()
      modifies this`spawn, this`parts, this`fullness, this`update, ss`food
      ensures ss.Valid() && Pair(State(), ss.food) == Decrease(Pair(old(State()), old(ss.food)), volume)
    {
      hide DropOne;
      ghost var start := Pair(State(), ss.food);
      if volume > fullness {
        var rest := volume - fullness;
        var reduce := 1 + rest / 100;
        for i := 0 to reduce
          invariant ss.Valid() && Pair(State(), ss.food) == DropTail(start, i)
        {
          DropPart(ss);
        }
        DropTailFrame(start, reduce);
        fullness := 100 - rest % 100;
      } else {
        fullness := fullness - volume;
      }
      update := update.(fullness := true);
    }

    // -------------------------------------------------------------- eating

    /** `Snake::on_food_eaten`. */
    method OnFoodEaten(f: Food)
      modifies this`fullness, this`parts, this`update, this`eaten
      ensures State() == Increase(old(State()), f.size).(eaten := old(eaten) + [f])
    {
      IncreaseSnake(f.size);
      eaten := eaten + [f];
    }

    /** The leftward loop: i is the insertion point, and ends at the left edge of the run. */
    method EatLeft(ss: SectorSeq, k: nat, p: nat, near: Food -> bool) returns (i: nat)
      requires |ss.food| == SECTORS && k < SECTORS && p <= |ss.food[k]|
      modifies this`fullness, this`parts, this`update, this`eaten, ss`food
      ensures i == FoodList.LeftEdge(old(ss.food[k]), p, near)
      ensures ss.food == old(ss.food)[k := old(ss.food[k])[..i] + old(ss.food[k])[p..]]
      ensures State() == Gulp(old(State()), FoodList.Reverse(old(ss.food[k])[i..p]))
    {
      hide Increase, FoodList.Reverse, FoodList.LeftEdge, Erased, Gulp;
      ghost var s0, food0, list := State(), ss.food, ss.food[k];
      i := p;
      var left := i - 1;
      assert list[..p] + list[p..] == list && list[p..p] == [];
      NothingEaten(s0);
      while left >= 0 && near(ss.food[k][left])
        invariant -1 <= left < p && i == left + 1
        invariant ss.food == food0[k := list[..i] + list[p..]]
        invariant forall m :: left < m < p ==> near(list[m])
        invariant State() == Gulp(s0, FoodList.Reverse(list[i..p]))
        decreases left + 1
      {
        EraseLeft(ss.food, k, list, i, p);
        GulpSnoc(s0, FoodList.Reverse(list[i..p]), list[left]);
        OnFoodEaten(ss.food[k][left]);
        ss.RemoveFood(k, left);
        i := i - 1;
        left := left - 1;
      }
      EdgesUnique(list, p, near, i, p);
    }

    /** The rightward loop: items are erased at the fixed position i; e runs to the right edge in the old list. */
    method EatRight(ss: SectorSeq, k: nat, i: nat, near: Food -> bool, ghost list: seq<Food>, ghost p: nat)
      returns (ghost e: nat)
      requires |ss.food| == SECTORS && k < SECTORS && i <= p <= |list|
      requires ss.food[k] == list[..i] + list[p..]
      modifies this`fullness, this`parts, this`update, this`eaten, ss`food
      ensures e == FoodList.RightEdge(list, p, near)
      ensures ss.food == old(ss.food)[k := list[..i] + list[e..]]
      ensures State() == Gulp(old(State()), list[p..e])
    {
      hide Increase, FoodList.RightEdge, Erased, Gulp;
      ghost var s0, food0 := State(), ss.food;
      e := p;
      assert list[p..p] == [];
      NothingEaten(s0);
      while i < |ss.food[k]| && near(ss.food[k][i])
        invariant p <= e <= |list|
        invariant ss.food == food0[k := list[..i] + list[e..]]
        invariant forall m :: p <= m < e ==> near(list[m])
        invariant State() == Gulp(s0, list[p..e])
        decreases |list| - e
      {
        EraseRight(ss.food, k, list, i, p, e);
        GulpSnoc(s0, list[p..e], list[e]);
        OnFoodEaten(ss.food[k][i]);
        ss.RemoveFood(k, i);
        e := e + 1;
      }
      EdgesUnique(list, p, near, p, e);
    }

    /** `Snake::UpdateEatenFood`: erasing while walking left, then right, eats exactly the two maximal runs. */
    method UpdateEatenFood(ss: SectorSeq)
      requires ss.Valid() && parts != [] && OnMap(parts[0])
      modifies this`fullness, this`parts, this`update, this`eaten, ss`food
      ensures ss.Valid() && Pair(State(), ss.food) == EatFood(Pair(old(State()), old(ss.food)))
    {
      hide FoodList.InRange, Reach, Trunc, FoodList.LeftEdge, FoodList.RightEdge, Gulp;
      EatOnMap(parts[0]);
      var hx, hy := Trunc(parts[0].x), Trunc(parts[0].y);
      var r := Reach(|parts|);
      var near := FoodList.InRange(hx, hy, r * r);
      var k := Index(hx / SECTOR_SIZE, hy / SECTOR_SIZE);
      ghost var s0, list := State(), ss.food[k];
      var p := FoodList.Closest(ss.food[k], hx);
      var i := EatLeft(ss, k, p, near);
      ghost var e := EatRight(ss, k, i, near, list, p);
      GulpConcat(s0, FoodList.Reverse(list[i..p]), list[p..e]);
      FoodList.EatConserves(list, hx, near);
    }

    // -------------------------------------------------------------- moving

    /** The three follow loops, fused with the centroid sum and the sector updates of the tail. The guard
        `j + 12 >= i` of the last one never fails, so every tail part is tested for a crossing. */
    method FollowHead(ss: SectorSeq, head: Body) returns (sum: Body)
      requires Valid() && ss.Valid() && In(ss.snakes) && parts != []
      modifies this`parts, sbb`sectors, ss`snakes
      ensures Valid() && ss.Valid() && In(ss.snakes) && OthersKept(old(ss.snakes), ss.snakes, id)
      ensures parts == Follow(old(parts), head) && sum == Sum(parts)
      ensures Elems(sbb.sectors) == TailEntered(old(Elems(sbb.sectors)), old(parts), parts, |parts|)
    {
      hide Registered, OthersKept, OnGrid, EnteredWithin, Coeff, Following, Follow, Sum;
      var len := |parts|;
      ghost var was, reg, S0 := parts, ss.snakes, Elems(sbb.sectors);
      ghost var F := Follow(was, head);
      OthersKeptSelf(reg, id);
      FollowingStart(was, head);
      var prev := parts[0];
      parts := parts[0 := head];
      sum := head;
      var i := 1;
      while i < len && i < 3
        modifies this`parts
        invariant 1 <= i <= len && i <= 3 && |parts| == len && Following(was, head, parts, prev, i) && sum == Sum(parts[..i])
      {
        NoFollow(prev, parts[i - 1], i);
        FollowingStep(was, head, parts, prev, i, prev);
        var before := parts[i];
        parts := parts[i := prev];
        sum := sum.Plus(prev);
        prev := before;
        i := i + 1;
      }
      var j := 0;
      while i < len && i < 7
        modifies this`parts
        invariant 1 <= i <= len && i <= 7 && |parts| == len && Following(was, head, parts, prev, i) && sum == Sum(parts[..i])
        invariant i < len ==> j == i - 3
      {
        j := j + 1;
        var pt := prev.Plus(parts[i - 1].Minus(prev).Times(TAIL_K * j as real / 4.0));
        RampCoeff(i, j);
        FollowingStep(was, head, parts, prev, i, pt);
        prev, parts := parts[i], parts[i := pt];
        sum := sum.Plus(pt);
        i := i + 1;
      }
      j := 0;
      while i < len
        modifies this`parts, sbb`sectors, ss`snakes
        invariant 1 <= i <= |parts| == len && Following(was, head, parts, prev, i) && sum == Sum(parts[..i])
        invariant (i < len ==> i >= 7) && j + 12 >= i
        invariant Valid() && ss.Valid() && In(ss.snakes) && OthersKept(reg, ss.snakes, id)
        invariant Elems(sbb.sectors) == TailEntered(S0, was, F, i)
      {
        var pt := prev.Plus(parts[i - 1].Minus(prev).Times(TAIL_K));
        TailCoeff(i);
        FollowingStep(was, head, parts, prev, i, pt);
        var before := parts[i];
        if j + 12 >= i {
          ghost var reg1 := ss.snakes;
          sbb.UpdateBoxNewSectors(ss, 150.0, pt, before);
          OthersKeptTwice(reg, reg1, ss.snakes, id);
          j := i;
        }
        parts := parts[i := pt];
        sum := sum.Plus(pt);
        prev := before;
        i := i + 1;
      }
      FollowingDone(was, head, parts, prev);
    }

    /** The last block of a move: circles, then the two filters. */
    method SettleBoxes(ss: SectorSeq, centre: Body)
      requires Valid() && ss.Valid() && In(ss.snakes) && parts != []
      modifies sbb, vp, ss`snakes
      ensures Valid() && ss.Valid() && In(ss.snakes) && OthersKept(old(ss.snakes), ss.snakes, id)
      ensures var box, view := Circle(centre.x, centre.y, BoxRadius(|parts|)), ViewCircle(parts[0]);
              State() == old(State()).(
                box := box, view := view, sbb := old(Elems(sbb.sectors)) * Meeting(box),
                vp := if bot then old(Elems(vp.sectors)) else old(Elems(vp.sectors)) * Meeting(view),
                oldS := if bot then old(Elems(vp.oldSectors))
                        else old(Elems(vp.oldSectors)) + (old(Elems(vp.sectors)) - Meeting(view)))
    {
      hide Registered, OthersKept, OnGrid, Meeting, NoDup, BoxRadius;
      sbb.x, sbb.y := centre.x, centre.y;
      vp.x, vp.y := parts[0].x, parts[0].y;
      sbb.r, vp.r := BoxRadius(|parts|), 1275.0;
      sbb.UpdateBoxOldSectors(ss);
      if !bot {
        vp.UpdateBoxOldSectors();
      }
    }

    /** The body of one move: head, followers, circles, and the two filters. */
    method MoveBody(ss: SectorSeq, dist: real, dir: Body)
      requires Valid() && ss.Valid() && In(ss.snakes) && parts != []
      modifies this`parts, sbb, vp, ss`snakes
      ensures Valid() && ss.Valid() && In(ss.snakes) && OthersKept(old(ss.snakes), ss.snakes, id)
      ensures State() == Advance(old(State()), dist, dir)
    {
      hide Registered, OthersKept, OnGrid, Follow, EnteredUpTo, Meeting, Appearing, NoDup, Sum, BoxRadius, Entered, TailEntered;
      ghost var reg0, s0 := ss.snakes, State();
      var prev := parts[0];
      var head := prev.Plus(dir.Times(dist));
      sbb.UpdateBoxNewSectors(ss, 150.0, head, prev);
      assert Elems(sbb.sectors) == Entered(s0.sbb, head, prev) by { EnteredIs(s0.sbb, head, prev); }
      ghost var reg1 := ss.snakes;
      if !bot {
        vp.UpdateBoxNewSectors(head, prev);
      }
      ghost var was := parts;
      var sum := FollowHead(ss, head);
      OthersKeptTwice(reg0, reg1, ss.snakes, id);
      TailThenHead(s0.sbb, was, parts, |parts|);
      FollowsHead(was, head);
      ghost var reg2 := ss.snakes;
      SettleBoxes(ss, Body(sum.x / |parts| as real, sum.y / |parts| as real));
      OthersKeptTwice(reg0, reg2, ss.snakes, id);
    }

    // -------------------------------------------------------------- collision

    method MarkDying()
      modifies this`update
      ensures State() == old(State()).(flags := old(State()).flags.(dying := true)) && Valid() == old(Valid())
    {
      update := update.(dying := true);
    }

    /** `Snake::Intersect` over a range: the pairs (start, start + 1) .. (end - 2, end - 1). */
    method IntersectRange(foe: Circle, start: nat, end: nat) returns (hit: bool)
      requires start < end <= |parts|
      ensures hit <==> SegmentHit(parts, foe, start, end)
    {
      hide PairHit;
      var i := start + 1;
      while i < end
        invariant start < i <= end
        invariant forall m :: start < m < i ==> !PairHit(parts, foe, m)
      {
        var r := foe.r + BodyRadius(|parts|);
        PairHitIs(parts, foe, i);
        if IntersectCircle(parts[i], At(foe), 84.0) {
          if IntersectCircle(parts[i], At(foe), r) || IntersectCircle(parts[i - 1], At(foe), r)
             || IntersectCircle(Midpoint(parts[i], parts[i - 1]), At(foe), r) {
            return true;
          }
        }
        i := i + 1;
      }
      return false;
    }

    /** `Snake::Intersect`: all indices stay in bounds for every length. */
    method Intersect(foe: Circle) returns (hit: bool)
      requires parts != []
      ensures hit <==> Hits(parts, foe)
    {
      hide SegmentHit, IntersectCircle;
      if |parts| <= 20 {
        hit := IntersectRange(foe, 0, |parts|);
        return;
      }
      if IntersectCircle(parts[3], At(foe), 150.0) {
        hit := IntersectRange(foe, 0, 9);
        if hit {
          return;
        }
      }
      var i := 13;
      ghost var m := 0;
      while i < |parts|
        invariant i == 13 + 12 * m
        invariant forall n: nat :: n < m ==> 13 + 12 * n < |parts| && !ChunkHit(parts, foe, 13 + 12 * n)
        decreases |parts| - i
      {
        if IntersectCircle(parts[i], At(foe), 150.0) {
          hit := IntersectRange(foe, i - 6, Min(i + 6, |parts|));
          if hit {
            assert ChunkHit(parts, foe, 13 + 12 * m);
            return;
          }
        }
        i := i + 12;
        m := m + 1;
      }
      assert !TailHit(parts, foe, 13);
      return false;
    }

    // -------------------------------------------------------------- death

    /** The pieces d have fallen since food0 and spawn0. */
    ghost predicate Strewn(ss: SectorSeq, d: seq<Drop>, food0: FoodMap, s0: SnakeState)
      reads this, sbb, vp, ss
    {
      && FoodOk(food0) && (forall i :: 0 <= i < |d| ==> d[i].sector < SECTORS)
      && ss.food == Fallen(food0, d) && State() == s0.(spawn := s0.spawn + FoodsOf(d))
    }

    /** One piece. */
    method StrewOne(ss: SectorSeq, k: nat, f: Food, ghost d: seq<Drop>, ghost food0: FoodMap, ghost s0: SnakeState)
      requires k < SECTORS && Strewn(ss, d, food0, s0)
      modifies this`spawn, ss`food
      ensures Strewn(ss, d + [Drop(k, f)], food0, s0)
    {
      hide Fallen, FoodsOf, FoodList.Insert;
      OneMore(food0, d, Drop(k, f));
      ss.food := ss.food[k := FoodList.Insert(ss.food[k], f)];
      assert spawn + [f] == s0.spawn + FoodsOf(d + [Drop(k, f)]);
      spawn := spawn + [f];
    }

    /** The pieces of one part. */
    method StrewPart(ss: SectorSeq, p: Body, draw: nat -> real, from: nat, ghost d: seq<Drop>, ghost food0: FoodMap, ghost s0: SnakeState)
      requires Inner(p) && Strewn(ss, d, food0, s0)
      modifies this`spawn, ss`food
      ensures Strewn(ss, d + PartDrops(p, Index(Cell(p.x), Cell(p.y)), |parts|, draw, from, DropCount(|parts|)), food0, s0)
    {
      hide DropCount, Snake.Strewn, Scatter, Cell;
      var k := Index(Cell(p.x), Cell(p.y));
      assert d + [] == d;
      for j := 0 to DropCount(|parts|)
        invariant Strewn(ss, d + PartDrops(p, k, |parts|, draw, from, j), food0, s0)
      {
        ghost var pieces := PartDrops(p, k, |parts|, draw, from, j);
        var at := from + 3 * j;
        var f := Scatter(p, |parts|, draw(at), draw(at + 1), draw(at + 2));
        assert d + (pieces + [Drop(k, f)]) == d + pieces + [Drop(k, f)];
        StrewOne(ss, k, f, d + pieces, food0, s0);
      }
    }

    /** `Snake::on_dead_food_spawn`, with the stream of draws it consumes. */
    method OnDeadFoodSpawn(ss: SectorSeq, draw: nat -> real)
      requires ss.Valid()
      modifies this`spawn, ss`food
      ensures Strewn(ss, Drops(parts, draw, |parts|), old(ss.food), old(State()))
    {
      hide DropCount, Fallen, Cell, PartDrops;
      ghost var food0, s0 := ss.food, State();
      var drawn := 0;
      StrewnNothing(food0, s0);
      for m := 0 to |parts|
        invariant Strewn(ss, Drops(parts, draw, m), food0, s0) && drawn == 3 * |Drops(parts, draw, m)|
      {
        if Inner(parts[m]) {
          StrewPart(ss, parts[m], draw, drawn, Drops(parts, draw, m), food0, s0);
          drawn := drawn + 3 * DropCount(|parts|);
        }
      }
    }

    // -------------------------------------------------------------- one tick

    /** `Snake::TickAI`; every round after the first finds the angle already set. */
    method TickAI(frames: nat, atan2: Atan2)
      requires frames > 0
      modifies this`wangle, this`update
      ensures var s, aim := old(State()), Tangent(Head(old(State())), atan2);
              State() == if Abs(s.wangle - aim) > 0.01 then s.(wangle := aim, flags := s.flags.(wangle := true)) else s
    {
      for i := 0 to frames
        invariant i == 0 ==> State() == old(State())
        invariant i > 0 ==> var s, aim := old(State()), Tangent(Head(old(State())), atan2);
                    State() == if Abs(s.wangle - aim) > 0.01 then s.(wangle := aim, flags := s.flags.(wangle := true)) else s
      {
        var aim := Tangent(if parts == [] then Body(0.0, 0.0) else parts[0], atan2);
        if Abs(wangle - aim) > 0.01 {
          wangle := aim;
          update := update.(wangle := true);
        }
      }
    }

    /** The bot block. */
    method SteerBot(dt: nat, atan2: Atan2)
      modifies this`wangle, this`update, this`aiTicks
      ensures State() == Steer(old(State()), dt, atan2)
    {
      hide Abs, Tangent;
      if bot {
        aiTicks := aiTicks + dt;
        if aiTicks > AI_INTERVAL {
          var frames := aiTicks / AI_INTERVAL;
          TickAI(frames, atan2);
          aiTicks := aiTicks - frames * AI_INTERVAL;
        }
      }
    }

    /** The rotation block. */
    method TurnHead(dt: nat) returns (changed: bool)
      modifies this`angle, this`rotTicks
      ensures Turned(State(), changed) == Rotate(old(State()), dt)
    {
      hide Normalize;
      changed := false;
      if angle != wangle {
        rotTicks := rotTicks + dt;
        if rotTicks >= ROT_INTERVAL {
          var frames := rotTicks / ROT_INTERVAL;
          var rotation := Rotation(frames);
          var d := Normalize(wangle - angle);
          if d > PI {
            d := d - TWO_PI;
          }
          if Abs(d) < rotation {
            angle := wangle;
          } else {
            angle := angle + (if d > 0.0 then rotation else -rotation);
          }
          angle := Normalize(angle);
          changed := true;
          rotTicks := rotTicks - frames * ROT_INTERVAL;
        }
      }
    }

    /** One move: body, meal, and the cost of boosting. */
    method StepAndEat(ss: SectorSeq, dist: real, dir: Body)
      requires Valid() && ss.Valid() && In(ss.snakes) && parts != []
      requires OnMap(parts[0].Plus(dir.Times(dist)))
      modifies this`parts, this`fullness, this`update, this`eaten, this`spawn, this`acceleration, sbb, vp, ss
      ensures Valid() && ss.Valid() && In(ss.snakes) && OthersKept(old(ss.snakes), ss.snakes, id)
      ensures Pair(State(), ss.food) == Burn(EatFood(Pair(Advance(old(State()), dist, dir), old(ss.food))))
    {
      hide Registered, OthersKept, OnGrid, NoDup, Advance, EatFood, Decrease, OnMap;
      AdvanceHead(State(), dist, dir);
      MoveBody(ss, dist, dir);
      UpdateEatenFood(ss);
      if acceleration {
        if |parts| <= 3 {
          acceleration := false;
        } else {
          DecreaseSnake(ss, 33);
        }
      }
    }

    /** The speed block. */
    method ChangeSpeed(acc: nat) returns (sped: bool)
      modifies this`speed
      ensures var s := old(State());
              State() == s.(speed := Approach(s.speed, Wanted(s), acc)) && sped == (s.speed != Wanted(s))
    {
      var wanted := if acceleration then BOOST_SPEED else BASE_SPEED;
      sped := false;
      if speed != wanted {
        if (if wanted > speed then wanted - speed else speed - wanted) <= acc {
          speed := wanted;
        } else {
          speed := if wanted > speed then speed + acc else speed - acc;
        }
        sped := true;
      }
    }

    /** The movement block; the caller's time step must leave the new head on the map. */
    method Travel(ss: SectorSeq, dt: nat, dir: Body) returns (moved: bool, sped: bool)
      requires Valid() && ss.Valid() && In(ss.snakes) && 0 < speed <= BOOST_SPEED && parts != []
      requires Moves(State(), dt) ==> OnMap(NewHead(State(), dt, dir))
      modifies this, sbb, vp, ss
      ensures Valid() && ss.Valid() && In(ss.snakes) && OthersKept(old(ss.snakes), ss.snakes, id)
      ensures Moved(State(), ss.food, moved, sped) == Move(old(State()), old(ss.food), dt, dir)
    {
      hide Registered, OthersKept, OnGrid, NoDup, Advance, EatFood, Burn, Distance, OnMap, Approach, Wanted, Interval;
      moved, sped := false, false;
      OthersKeptSelf(ss.snakes, id);
      movTicks := movTicks + dt;
      var interval := Interval(speed);
      if movTicks >= interval {
        var frames := movTicks / interval;
        StepAndEat(ss, Distance(speed, frames), dir);
        moved := true;
        sped := ChangeSpeed(frames * interval);
        Remainder(movTicks, interval);
        movTicks := movTicks - frames * interval;
      }
    }

    /** `Snake::Tick`. The registry keeps agreeing with this snake's box and nobody else's entry changes. */
    method Tick(ss: SectorSeq, dt: nat, inp: Input) returns (changed: bool)
      requires Valid() && ss.Valid() && Registered(ss.snakes, id, State().sbb)
      requires 0 < State().speed <= BOOST_SPEED && State().parts != []
      requires !State().flags.dying && !State().flags.dead && Moves(State(), dt) ==> OnMap(NewHead(State(), dt, inp.dir))
      modifies this, sbb, vp, ss
      ensures Valid() && ss.Valid() && Registered(ss.snakes, id, State().sbb)
      ensures OthersKept(old(ss.snakes), ss.snakes, id)
      ensures Ticked(State(), ss.food, changed) == SnakeModel.Tick(old(State()), old(ss.food), dt, inp)
    {
      hide Registered, OthersKept, OnGrid, NoDup, Steer, Rotate, Move, Moves, OnMap, NewHead;
      OthersKeptSelf(ss.snakes, id);
      if update.dying || update.dead {
        return false;
      }
      AimedFrame(State(), dt, inp);
      SameTarget(State(), Aimed(State(), dt, inp), dt, inp.dir);
      SteerBot(dt, inp.atan2);
      var turned := TurnHead(dt);
      var moved, sped := Travel(ss, dt, inp.dir);
      var changes := NO_FLAGS.(pos := moved, angle := turned, speed := sped);
      if changes != NO_FLAGS && changes != update {
        update := Or(update, changes);
        return true;
      }
      return false;
    }
  }

  lemma StrewnNothing(food: FoodMap, s: SnakeState)
    requires FoodOk(food)
    ensures Fallen(food, []) == food && s.(spawn := s.spawn + FoodsOf([])) == s
  {
    assert s.spawn + FoodsOf([]) == s.spawn;
  }

  lemma Remainder(a: nat, b: nat)
    requires b > 0
    ensures a - a / b * b == a % b
  {
  }

  lemma SameTarget(s: SnakeState, a: SnakeState, dt: nat, dir: Body)
    requires 0 < s.speed <= BOOST_SPEED && s.parts != []
    requires a.speed == s.speed && a.mov == s.mov && a.parts == s.parts
    ensures Moves(a, dt) == Moves(s, dt) && NewHead(a, dt, dir) == NewHead(s, dt, dir)
  {
  }

  lemma PairHitIs(parts: seq<Body>, foe: Circle, i: nat)
    requires 0 < i < |parts|
    ensures var r := foe.r + BodyRadius(|parts|);
            PairHit(parts, foe, i) <==>
              IntersectCircle(parts[i], At(foe), 84.0)
              && (IntersectCircle(parts[i], At(foe), r) || IntersectCircle(parts[i - 1], At(foe), r)
                  || IntersectCircle(Midpoint(parts[i], parts[i - 1]), At(foe), r))
  {
    hide IntersectCircle;
  }

  lemma EnteredIs(s: set<nat>, p: Body, q: Body)
    ensures Entered(s, p, q) == EnteredWithin(s, p, q, 150.0)
  {
  }

  lemma FollowsHead(was: seq<Body>, head: Body)
    requires was != []
    ensures Follow(was, head)[0] == head
  {
  }

  lemma NoFollow(prev: Body, last: Body, i: nat)
    requires i < 3
    ensures prev == prev.Plus(last.Minus(prev).Times(Coeff(i)))
  {
  }

  lemma RampCoeff(i: nat, j: nat)
    requires 3 <= i < 7 && j == i - 2
    ensures Coeff(i) == TAIL_K * j as real / 4.0
  {
  }

  lemma TailCoeff(i: nat)
    requires i >= 7
    ensures Coeff(i) == TAIL_K
  {
  }

  /** Sectors after the parts 7 .. n - 1 have been tested. */
  ghost function TailEntered(sbb: set<nat>, was: seq<Body>, parts: seq<Body>, n: nat): set<nat>
    requires n <= |was| == |parts|
  {
    if n <= 7 then sbb else Entered(TailEntered(sbb, was, parts, n - 1), parts[n - 1], was[n - 1])
  }

  lemma {:induction false} TailThenHead(S: set<nat>, was: seq<Body>, parts: seq<Body>, n: nat)
    requires 1 <= n <= |was| == |parts|
    ensures EnteredUpTo(S, was, parts, n) == TailEntered(Entered(S, parts[0], was[0]), was, parts, n)
  {
    hide Entered;
    if n > 1 {
      TailThenHead(S, was, parts, n - 1);
    } else {
      assert EnteredUpTo(S, was, parts, 0) == S;
    }
  }

  lemma EatOnMap(p: Body)
    requires OnMap(p)
    ensures InMap(Trunc(p.x) / SECTOR_SIZE, Trunc(p.y) / SECTOR_SIZE)
  {
  }

  lemma AdvanceHead(s: SnakeState, dist: real, dir: Body)
    requires s.parts != []
    ensures Advance(s, dist, dir).parts != []
    ensures Advance(s, dist, dir).parts[0] == s.parts[0].Plus(dir.Times(dist))
  {
    hide EnteredUpTo, Meeting, Appearing, Centroid, BoxRadius;
  }
}
