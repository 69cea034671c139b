/** How a body follows its head during one move, as a function of the old body.
    `Snake.MoveBody` computes this function in place; here are its laws. */
module Movement {
  import opened Geometry
  import opened Config

  /** The follow coefficient of part i: 0 for the first three, a ramp for four more, then TAIL_K. */
  function Coeff(i: nat): (c: real)
    ensures 0.0 <= c <= TAIL_K
    ensures i > 0 ==> Coeff(i - 1) <= c
  {
    if i < 3 then 0.0
    else if i < 7 then TAIL_K * (i - 2) as real / 4.0
    else TAIL_K
  }

  /** Part i after a move that puts the head at `head`. */
  function FollowAt(was: seq<Body>, head: Body, i: nat): Body
    requires i < |was|
  {
    if i == 0 then head
    else was[i - 1].Plus(FollowAt(was, head, i - 1).Minus(was[i - 1]).Times(Coeff(i)))
  }

  /** The whole body after such a move. */
  function Follow(was: seq<Body>, head: Body): (parts: seq<Body>)
    ensures |parts| == |was|
  {
    seq(|was|, i requires 0 <= i < |was| => FollowAt(was, head, i))
  }

  /** No two consecutive parts are more than g apart. */
  ghost predicate GapsWithin(parts: seq<Body>, g: real) {
    forall i :: 0 < i < |parts| ==> Near(parts[i - 1], parts[i], g)
  }

  /** The largest gap before part i when no part moves by more than h. */
  function GapCap(i: nat, h: real): real {
    (1.0 - Coeff(i)) * h
  }

  /** The tight profile of a body that moves in steps of at most h: the gap shrinks with the coefficient. */
  ghost predicate GapProfile(parts: seq<Body>, h: real) {
    forall i :: 0 < i < |parts| ==> Near(parts[i - 1], parts[i], GapCap(i, h))
  }

  /** Every part lies strictly inside the disc. */
  ghost predicate AllInside(parts: seq<Body>, centre: Body, r: real) {
    forall i :: 0 <= i < |parts| ==> Inside(parts[i], centre, r)
  }

  // ---------------------------------------------------------------- gaps

  /** A gap of the new body is a fixed fraction of how far the part ahead moved. */
  lemma GapVector(was: seq<Body>, head: Body, i: nat)
    requires 0 < i < |was|
    ensures FollowAt(was, head, i - 1).Minus(FollowAt(was, head, i))
            == FollowAt(was, head, i - 1).Minus(was[i - 1]).Times(1.0 - Coeff(i))
  {
    var a, b, c := FollowAt(was, head, i - 1), was[i - 1], Coeff(i);
    var n := FollowAt(was, head, i);
    assert n == b.Plus(a.Minus(b).Times(c));
    assert a.x - n.x == (1.0 - c) * (a.x - b.x);
    assert a.y - n.y == (1.0 - c) * (a.y - b.y);
  }

  /** The move of a part is its old gap plus a fraction of the move of the part ahead. */
  lemma MoveVector(was: seq<Body>, head: Body, i: nat)
    requires 0 < i < |was|
    ensures FollowAt(was, head, i).Minus(was[i])
            == was[i - 1].Minus(was[i]).Plus(FollowAt(was, head, i - 1).Minus(was[i - 1]).Times(Coeff(i)))
  {
  }

  lemma {:induction false} MoveBound(was: seq<Body>, head: Body, g: real, i: nat)
    requires i < |was|
    requires GapsWithin(was, g) && Near(head, was[0], g)
    ensures Near(FollowAt(was, head, i), was[i], g / (1.0 - Coeff(i)))
  {
    if i > 0 {
      var c, c0 := Coeff(i), Coeff(i - 1);
      MoveBound(was, head, g, i - 1);
      MoveVector(was, head, i);
      var m := FollowAt(was, head, i - 1).Minus(was[i - 1]);
      QuotientMonotone(g, c0, c);
      ShortWeaken(m, g / (1.0 - c0), g / (1.0 - c));
      ShortScale(m, g / (1.0 - c), c);
      ShortSum(was[i - 1].Minus(was[i]), m.Times(c), g, c * (g / (1.0 - c)));
      assert g + c * (g / (1.0 - c)) == g / (1.0 - c);
    }
  }

  lemma QuotientMonotone(g: real, c0: real, c: real)
    requires 0.0 <= g && 0.0 <= c0 <= c < 1.0
    ensures 0.0 <= g / (1.0 - c0) <= g / (1.0 - c)
  {
    var p, q := 1.0 - c0, 1.0 - c;
    var a, b := g / p, g / q;
    assert a * p == g && b * q == g;
    assert a >= 0.0;
    assert a * p - a * q == a * (p - q);
    assert (b - a) * q == b * q - a * q;
    assert (b - a) * q >= 0.0;
  }

  lemma GapBound(was: seq<Body>, head: Body, g: real, i: nat)
    requires 0 < i < |was|
    requires GapsWithin(was, g) && Near(head, was[0], g)
    ensures Near(FollowAt(was, head, i - 1), FollowAt(was, head, i), g)
  {
    hide Short;
    MoveBound(was, head, g, i - 1);
    GapVector(was, head, i);
    FractionBound(FollowAt(was, head, i - 1).Minus(was[i - 1]), g, Coeff(i - 1), Coeff(i));
  }

  lemma FractionBound(m: Body, g: real, c0: real, c: real)
    requires 0.0 <= c0 <= c < 1.0 && 0.0 <= g && Short(m, g / (1.0 - c0))
    ensures Short(m.Times(1.0 - c), g)
  {
    hide Short;
    QuotientMonotone(g, c0, c);
    var k := 1.0 - c;
    var q := g / k;
    ShortWeaken(m, g / (1.0 - c0), q);
    ShortScale(m, q, k);
    assert k * q == g;
    assert Short(m.Times(k), g);
  }

  /** The gap invariant, one move: with g at least the step and every old gap, no new gap exceeds g,
      and part i moves by at most g / (1 - c_i). */
  lemma MoveKeepsGaps(was: seq<Body>, head: Body, g: real)
    requires |was| > 0 && GapsWithin(was, g) && Near(head, was[0], g)
    ensures GapsWithin(Follow(was, head), g)
    ensures forall i :: 0 <= i < |was| ==> Near(Follow(was, head)[i], was[i], g / (1.0 - Coeff(i)))
  {
    hide Short, Coeff, GapCap, FollowAt;
    forall i | 0 <= i < |was|
      ensures Near(Follow(was, head)[i], was[i], g / (1.0 - Coeff(i)))
    {
      MoveBound(was, head, g, i);
    }
    forall i | 0 < i < |was|
      ensures Near(Follow(was, head)[i - 1], Follow(was, head)[i], g)
    {
      GapBound(was, head, g, i);
    }
  }

  lemma {:induction false} ProfileMoveBound(was: seq<Body>, head: Body, h: real, i: nat)
    requires i < |was|
    requires GapProfile(was, h) && Near(head, was[0], h)
    ensures Near(FollowAt(was, head, i), was[i], h)
  {
    hide Short, GapCap, Coeff;
    if i > 0 {
      ProfileMoveBound(was, head, h, i - 1);
      MoveVector(was, head, i);
      MixedBound(was[i - 1].Minus(was[i]), FollowAt(was, head, i - 1).Minus(was[i - 1]), h, i);
    }
  }

  lemma GapAndRest(i: nat, h: real)
    ensures GapCap(i, h) + Coeff(i) * h == h
  {
    hide Coeff;
  }

  lemma MixedBound(u: Body, m: Body, h: real, i: nat)
    requires Short(u, GapCap(i, h)) && Short(m, h)
    ensures Short(u.Plus(m.Times(Coeff(i))), h)
  {
    hide Short, Coeff, GapCap;
    var c, gap := Coeff(i), GapCap(i, h);
    var rest := c * h;
    ShortScale(m, h, c);
    ShortSum(u, m.Times(c), gap, rest);
    GapAndRest(i, h);
    assert gap + rest == h;
  }

  lemma ProfileGapBound(was: seq<Body>, head: Body, h: real, i: nat)
    requires 0 < i < |was|
    requires GapProfile(was, h) && Near(head, was[0], h)
    ensures Near(FollowAt(was, head, i - 1), FollowAt(was, head, i), GapCap(i, h))
  {
    hide Short;
    ProfileMoveBound(was, head, h, i - 1);
    GapVector(was, head, i);
    ShortScale(FollowAt(was, head, i - 1).Minus(was[i - 1]), h, 1.0 - Coeff(i));
  }

  /** The tight profile is kept, and then no part ever moves further than the head's step. */
  lemma MoveKeepsProfile(was: seq<Body>, head: Body, h: real)
    requires |was| > 0 && GapProfile(was, h) && Near(head, was[0], h)
    ensures GapProfile(Follow(was, head), h)
    ensures forall i :: 0 <= i < |was| ==> Near(Follow(was, head)[i], was[i], h)
  {
    hide Short, Coeff, GapCap, FollowAt;
    forall i | 0 <= i < |was|
      ensures Near(Follow(was, head)[i], was[i], h)
    {
      ProfileMoveBound(was, head, h, i);
    }
    forall i | 0 < i < |was|
      ensures Near(Follow(was, head)[i - 1], Follow(was, head)[i], GapCap(i, h))
    {
      ProfileGapBound(was, head, h, i);
    }
  }

  // ---------------------------------------------------------------- settling

  /** The tight profile on the gaps before parts 1 .. k only. */
  ghost predicate SettledTo(parts: seq<Body>, h: real, k: nat) {
    forall i :: 0 < i < |parts| && i <= k ==> Near(parts[i - 1], parts[i], GapCap(i, h))
  }

  /** Part i moves by at most h if the gaps up to its own are settled, whatever the rest of the body is. */
  lemma {:induction false} SettledMoveBound(was: seq<Body>, head: Body, h: real, k: nat, i: nat)
    requires i < |was| && i <= k
    requires SettledTo(was, h, k) && Near(head, was[0], h)
    ensures Near(FollowAt(was, head, i), was[i], h)
  {
    hide Short, GapCap, Coeff;
    if i > 0 {
      SettledMoveBound(was, head, h, k, i - 1);
      MoveVector(was, head, i);
      MixedBound(was[i - 1].Minus(was[i]), FollowAt(was, head, i - 1).Minus(was[i - 1]), h, i);
    }
  }

  /** Every move of at most h settles one more gap, whatever the body looked like before. */
  lemma MoveSettles(was: seq<Body>, head: Body, h: real, k: nat)
    requires |was| > 0 && SettledTo(was, h, k) && Near(head, was[0], h)
    ensures SettledTo(Follow(was, head), h, k + 1)
  {
    hide Short, Coeff, FollowAt, GapCap;
    forall i | 0 < i < |was| && i <= k + 1
      ensures Near(Follow(was, head)[i - 1], Follow(was, head)[i], GapCap(i, h))
    {
      SettledMoveBound(was, head, h, k, i - 1);
      GapVector(was, head, i);
      ScaledCap(FollowAt(was, head, i - 1).Minus(was[i - 1]), h, i);
    }
  }

  lemma ScaledCap(m: Body, h: real, i: nat)
    requires Short(m, h)
    ensures Short(m.Times(1.0 - Coeff(i)), GapCap(i, h))
  {
    hide Short, Coeff, GapCap;
    var k := 1.0 - Coeff(i);
    CapIs(i, h, k);
    ShortScale(m, h, k);
  }

  lemma CapIs(i: nat, h: real, k: real)
    requires k == 1.0 - Coeff(i)
    ensures k >= 0.0 && GapCap(i, h) == k * h
  {
    hide Coeff;
  }

  /** Settled up to the last gap is the tight profile. */
  lemma SettledAll(parts: seq<Body>, h: real, k: nat)
    requires k >= |parts| - 1
    ensures SettledTo(parts, h, k) <==> GapProfile(parts, h)
  {
    hide Short, GapCap;
  }

  // ---------------------------------------------------------------- chain length

  /** The length estimate d behind the bounding-box radius. */
  function BoxLength(n: nat): real {
    42.0 + 42.0 + 42.0 + 37.7 + 37.7 + 33.0 + 28.5 + (if n > 8 then 24.0 * (n - 8) as real else 0.0)
  }

  /** `Snake::UpdateBoxRadius`. */
  function BoxRadius(n: nat): real {
    (BoxLength(n) + STEP as real) / 2.0
  }

  /** Sum of the tight gaps of parts from .. to. */
  function ChainCap(from: nat, upto: nat): real
    requires from <= upto
    decreases upto - from
  {
    if from == upto then 0.0 else ChainCap(from, upto - 1) + GapCap(upto, 42.0)
  }

  lemma {:induction false} ChainCapShort(n: nat)
    requires n > 0
    ensures ChainCap(0, n - 1) <= BoxLength(n)
    ensures n >= 8 ==> ChainCap(0, n - 1) <= BoxLength(n) - 30.0
  {
    if n > 9 {
      ChainCapShort(n - 1);
      assert Coeff(n - 1) == TAIL_K;
    } else {
      assert ChainCap(0, 0) == 0.0;
      if n > 1 { assert ChainCap(0, 1) == 42.0; }
      if n > 2 { assert ChainCap(0, 2) == 84.0; }
      if n > 3 { assert ChainCap(0, 3) == 121.485; }
      if n > 4 { assert ChainCap(0, 4) == 154.455; }
      if n > 5 { assert ChainCap(0, 5) == 182.91; }
      if n > 6 { assert ChainCap(0, 6) == 206.85; }
      if n > 7 { assert ChainCap(0, 7) == 230.79; }
      if n > 8 { assert ChainCap(0, 8) == 254.73; }
    }
  }

  lemma {:induction false} ChainCapSplit(from: nat, upto: nat)
    requires from <= upto
    ensures 0.0 <= ChainCap(from, upto) <= ChainCap(0, upto)
    decreases upto
  {
    if from < upto {
      ChainCapSplit(from, upto - 1);
    } else if upto > 0 {
      ChainCapSplit(upto - 1, upto - 1);
    }
  }

  lemma {:induction false} ChainReach(parts: seq<Body>, i: nat, j: nat)
    requires i <= j < |parts| && GapProfile(parts, 42.0)
    ensures Near(parts[i], parts[j], ChainCap(i, j))
    decreases j - i
  {
    if i < j {
      ChainReach(parts, i, j - 1);
      ShortSum(parts[i].Minus(parts[j - 1]), parts[j - 1].Minus(parts[j]),
               ChainCap(i, j - 1), GapCap(j, 42.0));
      assert parts[i].Minus(parts[j]) == parts[i].Minus(parts[j - 1]).Plus(parts[j - 1].Minus(parts[j]));
    }
  }

  /** With the tight profile the body never stretches beyond the length its box radius is computed from. */
  lemma ChainWithinBoxLength(parts: seq<Body>, i: nat, j: nat)
    requires i <= j < |parts| && GapProfile(parts, 42.0)
    ensures Near(parts[i], parts[j], BoxLength(|parts|))
  {
    ChainReach(parts, i, j);
    ChainCapSplit(i, j);
    ChainCapMonotone(j, |parts| - 1);
    ChainCapShort(|parts|);
    ShortWeaken(parts[i].Minus(parts[j]), ChainCap(i, j), BoxLength(|parts|));
  }

  lemma {:induction false} ChainCapMonotone(j: nat, n: nat)
    requires j <= n
    ensures ChainCap(0, j) <= ChainCap(0, n)
    decreases n - j
  {
    if j < n {
      ChainCapMonotone(j, n - 1);
    }
  }

  // ---------------------------------------------------------------- containment

  lemma {:induction false} FollowAtInside(was: seq<Body>, head: Body, centre: Body, r: real, i: nat)
    requires i < |was| && AllInside(was, centre, r) && Inside(head, centre, r)
    ensures Inside(FollowAt(was, head, i), centre, r)
  {
    if i > 0 {
      FollowAtInside(was, head, centre, r, i - 1);
      ConvexDisc(was[i - 1], FollowAt(was, head, i - 1), centre, r, Coeff(i));
    }
  }

  /** Convex containment: a move whose new head is inside a disc keeps the whole body inside it. */
  lemma MoveKeepsInside(was: seq<Body>, head: Body, centre: Body, r: real)
    requires |was| > 0 && AllInside(was, centre, r) && Inside(head, centre, r)
    ensures AllInside(Follow(was, head), centre, r)
  {
    forall i | 0 <= i < |was|
      ensures Inside(Follow(was, head)[i], centre, r)
    {
      FollowAtInside(was, head, centre, r, i);
    }
  }

  // ---------------------------------------------------------------- centroid

  /** Sum of all part positions. */
  function Sum(parts: seq<Body>): Body {
    if parts == [] then Body(0.0, 0.0) else Sum(parts[..|parts| - 1]).Plus(parts[|parts| - 1])
  }

  lemma SumSnoc(parts: seq<Body>, i: nat)
    requires i < |parts|
    ensures Sum(parts[..i + 1]) == Sum(parts[..i]).Plus(parts[i])
  {
    assert parts[..i + 1][..i] == parts[..i];
  }

  /** The centroid, as `Snake::UpdateBoxCenter` computes it. */
  function Centroid(parts: seq<Body>): Body
    requires |parts| > 0
  {
    Body(Sum(parts).x / |parts| as real, Sum(parts).y / |parts| as real)
  }

  // ---------------------------------------------------------------- gliding

  /** Distance from the head to part i of a body stretched by moves of 42. */
  function Trail(i: nat): real {
    if i <= 2 then 42.0 * i as real
    else if i == 3 then 121.485
    else if i == 4 then 154.455
    else if i == 5 then 182.91
    else 206.85 + 23.94 * (i - 6) as real
  }

  /** A straight body with these distances is carried along by a move of 42 without changing its shape. */
  lemma {:induction false} Glides(was: seq<Body>, head: Body, dir: Body, i: nat)
    requires i < |was| && forall j :: 0 <= j < |was| ==> was[j] == head.Minus(dir.Times(Trail(j)))
    ensures FollowAt(was, head.Plus(dir.Times(42.0)), i) == was[i].Plus(dir.Times(42.0))
  {
    hide Trail, Coeff;
    if i > 0 {
      Glides(was, head, dir, i - 1);
      TrailGap(i);
      GlideStep(head, dir, Trail(i - 1), Trail(i), Coeff(i));
    } else {
      TrailHead();
      assert was[0] == head.Minus(dir.Times(Trail(0)));
      assert dir.Times(0.0) == Body(0.0, 0.0);
    }
  }

  lemma TrailHead()
    ensures Trail(0) == 0.0
  {
  }

  lemma GlideStep(head: Body, dir: Body, a: real, b: real, c: real)
    requires b - a + c * 42.0 == 42.0
    ensures var p, q := head.Minus(dir.Times(a)), head.Minus(dir.Times(b));
            p.Plus(p.Plus(dir.Times(42.0)).Minus(p).Times(c)) == q.Plus(dir.Times(42.0))
  {
    Carried(head.x, dir.x, a, b, c);
    Carried(head.y, dir.y, a, b, c);
  }

  lemma TrailGap(i: nat)
    requires i > 0
    ensures Trail(i) - Trail(i - 1) + Coeff(i) * 42.0 == 42.0
  {
  }

  lemma Carried(x: real, d: real, a: real, b: real, c: real)
    requires b - a + c * 42.0 == 42.0
    ensures x - d * a + (x - d * a + d * 42.0 - (x - d * a)) * c == x - d * b + d * 42.0
  {
    assert d * 42.0 * c == d * (c * 42.0);
    assert d * (b - a + c * 42.0) == d * b - d * a + d * (c * 42.0);
  }
}
