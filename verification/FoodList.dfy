/** One sector's food, kept sorted by x, and the two-sided eating sweep over it. */
module FoodList {

  datatype Food = Food(x: int, y: int, size: int, color: int)

  ghost predicate SortedX(s: seq<Food>) {
    forall i, j :: 0 <= i < j < |s| ==> s[i].x <= s[j].x
  }

  /** `std::lower_bound` on x, by halving. */
  function LowerBound(s: seq<Food>, x: int, lo: nat, hi: nat): (p: nat)
    requires SortedX(s) && lo <= hi <= |s|
    requires forall i :: 0 <= i < lo ==> s[i].x < x
    requires forall i :: hi <= i < |s| ==> x <= s[i].x
    ensures lo <= p <= hi
    ensures forall i :: 0 <= i < p ==> s[i].x < x
    ensures forall i :: p <= i < |s| ==> x <= s[i].x
    decreases hi - lo
  {
    if lo == hi then lo
    else
      var mid := (lo + hi) / 2;
      if s[mid].x < x then LowerBound(s, x, mid + 1, hi) else LowerBound(s, x, lo, mid)
  }

  /** `Sector::FindClosestFood`. */
  function Closest(s: seq<Food>, x: int): (p: nat)
    requires SortedX(s)
    ensures p <= |s|
    ensures forall i :: 0 <= i < p ==> s[i].x < x
    ensures forall i :: p <= i < |s| ==> x <= s[i].x
  {
    LowerBound(s, x, 0, |s|)
  }

  /** `Sector::Insert`. */
  function Insert(s: seq<Food>, f: Food): (r: seq<Food>)
    requires SortedX(s)
    ensures SortedX(r)
    ensures multiset(r) == multiset(s) + multiset{f}
  {
    var p := Closest(s, f.x);
    assert s == s[..p] + s[p..];
    s[..p] + [f] + s[p..]
  }

  /** The squared-distance test of the sweep around the head, in whole pixels. */
  function InRange(hx: int, hy: int, r2: int): Food -> bool {
    (f: Food) => (f.x - hx) * (f.x - hx) + (f.y - hy) * (f.y - hy) <= r2
  }

  /** First index of the run of near items that ends just before p. */
  function LeftEdge(s: seq<Food>, p: nat, near: Food -> bool): (l: nat)
    requires p <= |s|
    ensures l <= p
    ensures forall i :: l <= i < p ==> near(s[i])
    ensures l == 0 || !near(s[l - 1])
  {
    if p > 0 && near(s[p - 1]) then LeftEdge(s, p - 1, near) else p
  }

  /** Index just after the run of near items that starts at p. */
  function RightEdge(s: seq<Food>, p: nat, near: Food -> bool): (r: nat)
    requires p <= |s|
    ensures p <= r <= |s|
    ensures forall i :: p <= i < r ==> near(s[i])
    ensures r == |s| || !near(s[r])
    decreases |s| - p
  {
    if p < |s| && near(s[p]) then RightEdge(s, p + 1, near) else p
  }

  function Reverse(s: seq<Food>): (r: seq<Food>)
    ensures |r| == |s|
    ensures forall i :: 0 <= i < |s| ==> r[i] == s[|s| - 1 - i]
  {
    if s == [] then [] else [s[|s| - 1]] + Reverse(s[..|s| - 1])
  }

  lemma {:induction false} ReverseItems(s: seq<Food>)
    ensures multiset(Reverse(s)) == multiset(s)
  {
    if s != [] {
      assert s == s[..|s| - 1] + [s[|s| - 1]];
      ReverseItems(s[..|s| - 1]);
    }
  }

  lemma ReverseCons(f: Food, s: seq<Food>)
    ensures Reverse([f] + s) == Reverse(s) + [f]
  {
    var a, b := Reverse([f] + s), Reverse(s) + [f];
    forall i | 0 <= i < |a|
      ensures a[i] == b[i]
    {
      assert a[i] == ([f] + s)[|s| - i];
    }
  }

  /** The sweep: what is eaten, in order (leftwards from the head, then rightwards), and what remains. */
  datatype Sweep = Sweep(eaten: seq<Food>, rest: seq<Food>)

  function Eat(s: seq<Food>, x: int, near: Food -> bool): (o: Sweep)
    requires SortedX(s)
  {
    var p := Closest(s, x);
    var l, r := LeftEdge(s, p, near), RightEdge(s, p, near);
    Sweep(Reverse(s[l..p]) + s[p..r], s[..l] + s[r..])
  }

  /** The sweep only moves food: eaten and remaining items make up the old list, which stays sorted. */
  lemma EatConserves(s: seq<Food>, x: int, near: Food -> bool)
    requires SortedX(s)
    ensures multiset(Eat(s, x, near).eaten) + multiset(Eat(s, x, near).rest) == multiset(s)
    ensures SortedX(Eat(s, x, near).rest)
  {
    hide Closest, LeftEdge, RightEdge, Reverse;
    var p := Closest(s, x);
    var l, r := LeftEdge(s, p, near), RightEdge(s, p, near);
    CutMultiset(s, l, p, r);
    ReverseItems(s[l..p]);
    CutSorted(s, l, r);
  }

  lemma CutSorted(s: seq<Food>, l: nat, r: nat)
    requires SortedX(s) && l <= r <= |s|
    ensures SortedX(s[..l] + s[r..])
  {
  }

  lemma CutMultiset(s: seq<Food>, l: nat, p: nat, r: nat)
    requires l <= p <= r <= |s|
    ensures multiset(s) == multiset(s[..l]) + multiset(s[l..p]) + multiset(s[p..r]) + multiset(s[r..])
  {
    assert s == s[..l] + s[l..];
    assert s[l..] == s[l..p] + s[p..];
    assert s[p..] == s[p..r] + s[r..];
  }

  /** Everything between item i and the head's insertion point, i included, is near. */
  ghost predicate Reachable(s: seq<Food>, i: nat, x: int, near: Food -> bool)
    requires SortedX(s) && i < |s|
  {
    var p := Closest(s, x);
    if i < p then forall j :: i <= j < p ==> near(s[j])
    else forall j :: p <= j <= i ==> near(s[j])
  }

  /** The sweep removes exactly the reachable items, one maximal run on each side of the head. */
  lemma EatExactly(s: seq<Food>, x: int, near: Food -> bool)
    requires SortedX(s)
    ensures exists l, r :: 0 <= l <= Closest(s, x) <= r <= |s|
              && Eat(s, x, near).rest == s[..l] + s[r..]
              && multiset(Eat(s, x, near).eaten) == multiset(s[l..r])
              && (forall i :: 0 <= i < |s| ==> (l <= i < r <==> Reachable(s, i, x, near)))
  {
    var p := Closest(s, x);
    var l, r := LeftEdge(s, p, near), RightEdge(s, p, near);
    ReverseItems(s[l..p]);
    RunMultiset(s, l, p, r);
    forall i | 0 <= i < |s|
      ensures l <= i < r <==> Reachable(s, i, x, near)
    {
      RunReachable(s, i, x, near);
    }
    hide Closest, LeftEdge, RightEdge, Reverse, Reachable;
  }

  lemma RunMultiset(s: seq<Food>, l: nat, p: nat, r: nat)
    requires l <= p <= r <= |s|
    ensures multiset(s[l..p]) + multiset(s[p..r]) == multiset(s[l..r])
  {
    assert s[l..r] == s[l..p] + s[p..r];
  }

  lemma RunReachable(s: seq<Food>, i: nat, x: int, near: Food -> bool)
    requires SortedX(s) && i < |s|
    ensures var p := Closest(s, x);
            LeftEdge(s, p, near) <= i < RightEdge(s, p, near) <==> Reachable(s, i, x, near)
  {
    var p := Closest(s, x);
    var l, r := LeftEdge(s, p, near), RightEdge(s, p, near);
    if i < l {
      assert !near(s[l - 1]);
    } else if i >= r {
      assert !near(s[r]);
    }
  }

  /** The sweep clears the list of everything in range if and only if no item in range hides behind a miss. */
  lemma EatsAllIff(s: seq<Food>, x: int, near: Food -> bool)
    requires SortedX(s)
    ensures (forall f :: f in Eat(s, x, near).rest ==> !near(f))
            <==> (forall i :: 0 <= i < |s| && near(s[i]) ==> Reachable(s, i, x, near))
  {
    hide Eat, Reachable;
    EatExactly(s, x, near);
    var rest := Eat(s, x, near).rest;
    var l, r :| 0 <= l <= r <= |s| && rest == s[..l] + s[r..]
                && forall i :: 0 <= i < |s| ==> (l <= i < r <==> Reachable(s, i, x, near));
    if forall i :: 0 <= i < |s| && near(s[i]) ==> Reachable(s, i, x, near) {
      forall f | f in rest
        ensures !near(f)
      {
        var i := CutFrom(s, l, r, f);
      }
    }
    if forall f :: f in rest ==> !near(f) {
      forall i | 0 <= i < |s| && near(s[i])
        ensures Reachable(s, i, x, near)
      {
        CutMember(s, l, r, i);
      }
    }
  }

  lemma CutMember(s: seq<Food>, l: nat, r: nat, i: nat)
    requires l <= r <= |s| && i < |s|
    ensures l <= i < r || s[i] in s[..l] + s[r..]
  {
    if i < l {
      assert s[i] == (s[..l] + s[r..])[i];
    } else if i >= r {
      assert s[i] == (s[..l] + s[r..])[i - (r - l)];
    }
  }

  lemma CutFrom(s: seq<Food>, l: nat, r: nat, f: Food) returns (i: nat)
    requires l <= r <= |s| && f in s[..l] + s[r..]
    ensures i < |s| && !(l <= i < r) && s[i] == f
  {
    var k :| 0 <= k < |s[..l] + s[r..]| && (s[..l] + s[r..])[k] == f;
    i := if k < l then k else k + (r - l);
  }
}
