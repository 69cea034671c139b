/** The sorted sector vectors of bounding boxes: binary search, sorted insertion, swap-with-last removal. */
module SortedVec {

  ghost predicate StrictlySorted(s: seq<nat>) {
    forall i, j :: 0 <= i < j < |s| ==> s[i] < s[j]
  }

  ghost predicate NoDup<T>(s: seq<T>) {
    forall i, j :: 0 <= i < j < |s| ==> s[i] != s[j]
  }

  function Elems<T>(s: seq<T>): set<T> {
    set x | x in s
  }

  /** `std::lower_bound` by halving. */
  function LowerBound(s: seq<nat>, k: nat, lo: nat, hi: nat): (p: nat)
    requires StrictlySorted(s) && lo <= hi <= |s|
    requires forall i :: 0 <= i < lo ==> s[i] < k
    requires forall i :: hi <= i < |s| ==> k <= s[i]
    ensures lo <= p <= hi
    ensures forall i :: 0 <= i < p ==> s[i] < k
    ensures forall i :: p <= i < |s| ==> k <= s[i]
    decreases hi - lo
  {
    if lo == hi then lo
    else
      var mid := (lo + hi) / 2;
      if s[mid] < k then LowerBound(s, k, mid + 1, hi) else LowerBound(s, k, lo, mid)
  }

  /** `BoundBox::IsPresent`: binary search decides membership because the vector is sorted. */
  function IsPresent(s: seq<nat>, k: nat): (found: bool)
    requires StrictlySorted(s)
    ensures found <==> k in s
  {
    var p := LowerBound(s, k, 0, |s|);
    p < |s| && s[p] == k
  }

  /** `BoundBox::Insert`. */
  function Insert(s: seq<nat>, k: nat): (r: seq<nat>)
    requires StrictlySorted(s) && k !in s
    ensures StrictlySorted(r)
    ensures Elems(r) == Elems(s) + {k}
  {
    var p := LowerBound(s, k, 0, |s|);
    Spliced(s, k, p);
    s[..p] + [k] + s[p..]
  }

  lemma Spliced(s: seq<nat>, k: nat, p: nat)
    requires StrictlySorted(s) && p <= |s|
    requires (forall i :: 0 <= i < p ==> s[i] < k) && (forall i :: p <= i < |s| ==> k < s[i])
    ensures StrictlySorted(s[..p] + [k] + s[p..])
    ensures Elems(s[..p] + [k] + s[p..]) == Elems(s) + {k}
  {
    var r := s[..p] + [k] + s[p..];
    assert forall i :: 0 <= i < |r| ==> r[i] == if i < p then s[i] else if i == p then k else s[i - 1];
    forall x
      ensures x in r <==> x in s || x == k
    {
      SplicedHas(s, k, p, x);
    }
  }

  lemma SplicedHas(s: seq<nat>, k: nat, p: nat, x: nat)
    requires p <= |s|
    ensures x in s[..p] + [k] + s[p..] <==> x in s || x == k
  {
    assert s == s[..p] + s[p..];
  }

  /** `BoundBox::RemoveUnsorted`: the last element takes the removed one's place. */
  function SwapRemove(s: seq<nat>, i: nat): (r: seq<nat>)
    requires i < |s|
    ensures |r| == |s| - 1
    ensures forall j :: 0 <= j < |r| ==> r[j] == if j == i then s[|s| - 1] else s[j]
    ensures NoDup(s) ==> NoDup(r) && Elems(r) == Elems(s) - {s[i]}
  {
    var r := s[i := s[|s| - 1]][..|s| - 1];
    assert NoDup(s) ==> forall x :: x in r <==> x in s && x != s[i] by {
      if NoDup(s) {
        forall x | x in s && x != s[i]
          ensures x in r
        {
          var j :| 0 <= j < |s| && s[j] == x;
          assert r[if j == |s| - 1 then i else j] == x;
        }
      }
    }
    r
  }

  /** `BoundBox::Sort`. */
  function Sort(s: seq<nat>): (r: seq<nat>)
    requires NoDup(s)
    ensures StrictlySorted(r) && Elems(r) == Elems(s)
  {
    if s == [] then []
    else
      var n := |s| - 1;
      var front := s[..n];
      assert s == front + [s[n]];
      assert s[n] !in front;
      var r := Sort(front);
      assert s[n] !in Elems(r);
      Insert(r, s[n])
  }

  lemma SortedNoDup(s: seq<nat>)
    requires StrictlySorted(s)
    ensures NoDup(s)
  {
  }
}
