/** The body test of a collision: a chunked scan that skips what it thinks is far away. */
module Collision {
  import opened Geometry
  import opened Birth
  import opened SnakeModel

  function At(c: Circle): Body {
    Body(c.x, c.y)
  }

  /** The point halfway between two parts. */
  function Midpoint(p: Body, q: Body): Body {
    Body(p.x + (q.x - p.x) / 2.0, p.y + (q.y - p.y) / 2.0)
  }

  /** The test of part i and the stretch up to part i - 1. */
  predicate PairHit(parts: seq<Body>, foe: Circle, i: nat)
    requires 0 < i < |parts|
  {
    var r := foe.r + BodyRadius(|parts|);
    IntersectCircle(parts[i], At(foe), 84.0)
    && (IntersectCircle(parts[i], At(foe), r) || IntersectCircle(parts[i - 1], At(foe), r)
        || IntersectCircle(Midpoint(parts[i], parts[i - 1]), At(foe), r))
  }

  /** Some pair with its later part strictly between start and end hits. */
  ghost predicate SegmentHit(parts: seq<Body>, foe: Circle, start: int, end: int) {
    exists i: nat :: 0 <= start < i < end && i < |parts| && PairHit(parts, foe, i)
  }

  /** The exhaustive scan over all neighbouring pairs. */
  ghost predicate FullHit(parts: seq<Body>, foe: Circle) {
    SegmentHit(parts, foe, 0, |parts|)
  }

  function Min(a: int, b: int): int {
    if a < b then a else b
  }

  /** One tail chunk, twelve parts around part i, looked at only when part i is near. */
  ghost predicate ChunkHit(parts: seq<Body>, foe: Circle, i: nat)
    requires i < |parts|
  {
    IntersectCircle(parts[i], At(foe), 150.0) && SegmentHit(parts, foe, i - 6, Min(i + 6, |parts|))
  }

  ghost predicate TailHit(parts: seq<Body>, foe: Circle, from: nat) {
    exists m: nat :: from <= 13 + 12 * m < |parts| && ChunkHit(parts, foe, 13 + 12 * m)
  }

  /** `Snake::Intersect`. */
  ghost predicate Hits(parts: seq<Body>, foe: Circle) {
    if |parts| <= 20 then FullHit(parts, foe)
    else (IntersectCircle(parts[3], At(foe), 150.0) && SegmentHit(parts, foe, 0, 9)) || TailHit(parts, foe, 13)
  }

  // ---------------------------------------------------------------- what the chunked scan looks at

  /** The centre of the only chunk that can hold pair i. */
  function ChunkOf(i: nat): nat
    requires i >= 8
  {
    13 + 12 * ((i - 8) / 12)
  }

  /** The scan looks at pair i: always on a short body; on a long one as one of the first eight pairs of a head
      part 3 near the foe, or in a chunk whose centre exists and is near the foe, but never as the pair between
      two chunks. */
  predicate Looked(parts: seq<Body>, foe: Circle, i: nat)
    requires i < |parts|
  {
    || |parts| <= 20
    || (i < 9 && IntersectCircle(parts[3], At(foe), 150.0))
    || (i >= 8 && (i - 8) % 12 != 11 && ChunkOf(i) < |parts| && IntersectCircle(parts[ChunkOf(i)], At(foe), 150.0))
  }

  lemma ChunkSpan(i: nat, m: nat)
    requires i >= 8
    ensures 13 + 12 * m - 6 < i < 13 + 12 * m + 6 <==> m == (i - 8) / 12 && (i - 8) % 12 != 11
  {
  }

  lemma TailLooked(parts: seq<Body>, foe: Circle, i: nat)
    requires |parts| > 20 && 8 <= i < |parts| && PairHit(parts, foe, i)
    requires (i - 8) % 12 != 11 && ChunkOf(i) < |parts| && IntersectCircle(parts[ChunkOf(i)], At(foe), 150.0)
    ensures TailHit(parts, foe, 13)
  {
    hide PairHit, IntersectCircle;
    var m := (i - 8) / 12;
    ChunkSpan(i, m);
    assert SegmentHit(parts, foe, 13 + 12 * m - 6, Min(13 + 12 * m + 6, |parts|));
    assert ChunkHit(parts, foe, 13 + 12 * m);
  }

  /** The chunked scan reports a hit if and only if some pair it looks at hits. */
  lemma HitsExactly(parts: seq<Body>, foe: Circle)
    ensures Hits(parts, foe) <==> exists i: nat :: 0 < i < |parts| && PairHit(parts, foe, i) && Looked(parts, foe, i)
  {
    hide PairHit, IntersectCircle;
    if |parts| > 20 && TailHit(parts, foe, 13) {
      var m: nat :| 13 <= 13 + 12 * m < |parts| && ChunkHit(parts, foe, 13 + 12 * m);
      var c := 13 + 12 * m;
      var i: nat :| c - 6 < i < Min(c + 6, |parts|) && PairHit(parts, foe, i);
      ChunkSpan(i, m);
      assert Looked(parts, foe, i);
    }
    if |parts| > 20 && IntersectCircle(parts[3], At(foe), 150.0) && SegmentHit(parts, foe, 0, 9) {
      var i: nat :| 0 < i < 9 && i < |parts| && PairHit(parts, foe, i);
      assert Looked(parts, foe, i);
    }
    if i: nat :| 0 < i < |parts| && PairHit(parts, foe, i) && Looked(parts, foe, i) {
      if |parts| > 20 && !(i < 9 && IntersectCircle(parts[3], At(foe), 150.0)) {
        TailLooked(parts, foe, i);
      }
    }
  }

  /** The chunked scan and the full scan agree if and only if no pair hits or some hitting pair is looked at;
      what the chunked scan reports is always real. */
  lemma AgreesIff(parts: seq<Body>, foe: Circle)
    ensures Hits(parts, foe) ==> FullHit(parts, foe)
    ensures |parts| <= 20 ==> (Hits(parts, foe) <==> FullHit(parts, foe))
    ensures (Hits(parts, foe) <==> FullHit(parts, foe))
            <==> ((forall i: nat :: 0 < i < |parts| ==> !PairHit(parts, foe, i))
                  || (exists i: nat :: 0 < i < |parts| && PairHit(parts, foe, i) && Looked(parts, foe, i)))
  {
    hide PairHit, IntersectCircle, Hits;
    HitsExactly(parts, foe);
  }

  /** A pair no chunk can hold is looked at by no foe beyond 150 of part 3: the pairs 19, 31, 43, ... between two
      chunks, and the pairs after the last chunk whose centre exists. */
  lemma BlindPairs(parts: seq<Body>, i: nat)
    requires |parts| > 20 && 9 <= i < |parts|
    ensures (forall foe :: !Looked(parts, foe, i)) <==> (i - 8) % 12 == 11 || ChunkOf(i) >= |parts|
  {
    hide IntersectCircle;
    if (i - 8) % 12 != 11 && ChunkOf(i) < |parts| {
      var c := parts[ChunkOf(i)];
      InOwnCircle(c);
      assert Looked(parts, Circle(c.x, c.y, 0.0), i);
    }
  }

  lemma InOwnCircle(p: Body)
    ensures IntersectCircle(p, At(Circle(p.x, p.y, 0.0)), 150.0)
  {
  }

  // ---------------------------------------------------------------- real hits it misses

  lemma CutWhole(n: nat)
    requires n < 0x1_0000
    ensures Cut(n as real) == n
  {
  }

  /** A body laid westwards from an integer position has its parts at exact offsets. */
  lemma {:induction false} LaidWest(x: nat, y: nat, i: nat)
    requires Offset(i) <= x < 0x1_0000 && y < 0x1_0000
    ensures LaidAt(Body(x as real, y as real), WEST, i) == Body((x - Offset(i)) as real, y as real)
  {
    hide Cut;
    if i > 0 {
      LaidWest(x, y, i - 1);
      CutWhole(x - Offset(i));
      CutWhole(y);
      var p := Body((x - Offset(i - 1)) as real, y as real);
      assert p.Plus(WEST.Times(Spacing(i))) == Body((x - Offset(i)) as real, y as real);
    }
  }

  /** Pairs too far along a westward body do not hit: part and neighbour are more than `gap` away along x. */
  lemma FarPair(parts: seq<Body>, foe: Circle, i: nat, dy: real, gap: real)
    requires 0 < i < |parts| && parts[i].y == foe.y - dy && parts[i - 1].y == foe.y - dy
    requires foe.r + BodyRadius(|parts|) >= 0.0 && gap >= 0.0
    requires gap * gap + dy * dy > (foe.r + BodyRadius(|parts|)) * (foe.r + BodyRadius(|parts|))
    requires (parts[i].x >= foe.x + gap && parts[i - 1].x >= foe.x + gap)
             || (parts[i].x <= foe.x - gap && parts[i - 1].x <= foe.x - gap)
    ensures !PairHit(parts, foe, i)
  {
    var mid := Midpoint(parts[i], parts[i - 1]);
    FarPoint(parts[i], foe, dy, gap);
    FarPoint(parts[i - 1], foe, dy, gap);
    FarPoint(mid, foe, dy, gap);
  }

  lemma FarPoint(p: Body, foe: Circle, dy: real, gap: real)
    requires p.y == foe.y - dy && gap >= 0.0 && (p.x >= foe.x + gap || p.x <= foe.x - gap)
    ensures Dist2(p, At(foe)) >= gap * gap + dy * dy
  {
    var dx := p.x - foe.x;
    if dx >= 0.0 {
      SquareMonotone(gap, dx);
    } else {
      SquareMonotone(gap, -dx);
    }
    assert Dist2(p, At(foe)) == dx * dx + dy * dy;
  }

  /** A snake of 32 parts as it is laid west from (22600, 21600), and the head of a snake of 3 parts beside the
      middle of the stretch between its parts 18 and 19: a real hit the chunked scan misses. */
  lemma MissesBetweenChunks()
    ensures var parts, foe := Laid(Body(22600.0, 21600.0), WEST, 32), Circle(22030.0, 21631.5, BodyRadius(3));
            FullHit(parts, foe) && !Hits(parts, foe)
  {
    var parts, foe := Laid(Body(22600.0, 21600.0), WEST, 32), Circle(22030.0, 21631.5, BodyRadius(3));
    WestAt(parts, 32);
    MiddleHit(parts, foe);
    forall i: nat | 0 < i < 32 && i != 19
      ensures !PairHit(parts, foe, i)
    {
      MiddleMiss(parts, foe, i);
    }
    assert !Looked(parts, foe, 19);
    hide PairHit, Looked, Hits;
    HitsExactly(parts, foe);
    assert SegmentHit(parts, foe, 0, 32);
  }

  lemma WestAt(parts: seq<Body>, n: nat)
    requires n <= 40 && parts == Laid(Body(22600.0, 21600.0), WEST, n)
    ensures forall i :: 0 <= i < n ==> parts[i] == Body(22600.0 - Offset(i) as real, 21600.0)
  {
    forall i | 0 <= i < n
      ensures parts[i] == Body(22600.0 - Offset(i) as real, 21600.0)
    {
      LaidWest(22600, 21600, i);
    }
  }

  lemma MiddleHit(parts: seq<Body>, foe: Circle)
    requires |parts| == 32 && parts[18] == Body(22042.0, 21600.0) && parts[19] == Body(22018.0, 21600.0)
    requires foe == Circle(22030.0, 21631.5, BodyRadius(3))
    ensures PairHit(parts, foe, 19)
  {
    var mid := Midpoint(parts[19], parts[18]);
    assert mid == Body(22030.0, 21600.0);
    assert Dist2(mid, At(foe)) == 992.25;
    assert Dist2(parts[19], At(foe)) == 1136.25;
    RadiusSum(32);
  }

  lemma RadiusSum(n: nat)
    requires n == 32 || n == 37
    ensures 32.9 < BodyRadius(3) + BodyRadius(n) < 33.7
    ensures n == 32 ==> BodyRadius(3) + BodyRadius(n) < 33.0
    ensures var r := BodyRadius(3) + BodyRadius(n); 1082.41 < r * r < 1135.69 && (n == 32 ==> r * r < 1089.0)
  {
    var r := BodyRadius(3) + BodyRadius(n);
    assert BodyRadius(3) == 14.5;
    assert BodyRadius(n) == 14.5 + 14.5 * ((n - 3) as real / 106.0);
    assert 32.9 < r < 33.7 && (n == 32 ==> r < 33.0);
    ProductMonotone(32.9, r, 32.9, r);
    ProductMonotone(r, 33.7, r, 33.7);
    if n == 32 {
      ProductMonotone(r, 33.0, r, 33.0);
    }
  }

  lemma MiddleMiss(parts: seq<Body>, foe: Circle, i: nat)
    requires |parts| == 32 && 0 < i < 32 && i != 19 && foe == Circle(22030.0, 21631.5, BodyRadius(3))
    requires forall i :: 0 <= i < 32 ==> parts[i] == Body(22600.0 - Offset(i) as real, 21600.0)
    ensures !PairHit(parts, foe, i)
  {
    RadiusSum(32);
    assert 12.0 * 12.0 + 31.5 * 31.5 == 1136.25;
    FarPair(parts, foe, i, 31.5, 12.0);
  }

  /** A snake of 37 parts and the head of a snake of 3 parts just above its last part: nothing from part 31 on is
      ever looked at, because the chunk there has its centre behind the end. */
  lemma MissesTheEnd()
    ensures var parts, foe := Laid(Body(22600.0, 21600.0), WEST, 37), Circle(21610.0, 21610.0, BodyRadius(3));
            FullHit(parts, foe) && !Hits(parts, foe)
  {
    hide PairHit, IntersectCircle, Laid, Hits, BodyRadius;
    var parts, foe := Laid(Body(22600.0, 21600.0), WEST, 37), Circle(21610.0, 21610.0, BodyRadius(3));
    WestAt(parts, 37);
    EndHit(parts, foe);
    forall i: nat | 0 < i < 37
      ensures !PairHit(parts, foe, i) || !Looked(parts, foe, i)
    {
      if i < 32 {
        EndMiss(parts, foe, i);
      } else {
        assert ChunkOf(i) == 37;
      }
    }
    HitsExactly(parts, foe);
    assert SegmentHit(parts, foe, 0, 37);
  }

  lemma EndHit(parts: seq<Body>, foe: Circle)
    requires |parts| == 37 && parts[36] == Body(21610.0, 21600.0) && foe == Circle(21610.0, 21610.0, BodyRadius(3))
    ensures PairHit(parts, foe, 36)
  {
    assert Dist2(parts[36], At(foe)) == 100.0;
    RadiusSum(37);
  }

  lemma EndMiss(parts: seq<Body>, foe: Circle, i: nat)
    requires |parts| == 37 && 0 < i < 32 && foe == Circle(21610.0, 21610.0, BodyRadius(3))
    requires forall i :: 0 <= i < 37 ==> parts[i] == Body(22600.0 - Offset(i) as real, 21600.0)
    ensures !PairHit(parts, foe, i)
  {
    RadiusSum(37);
    FarPair(parts, foe, i, 10.0, 100.0);
  }
}
