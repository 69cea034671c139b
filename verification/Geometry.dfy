/** Points, circles and the vector inequalities behind the movement proofs.
    Coordinates are exact reals; every distance is kept squared. */
module Geometry {

  datatype Body = Body(x: real, y: real) {
    function Minus(p: Body): Body { Body(x - p.x, y - p.y) }
    function Plus(p: Body): Body { Body(x + p.x, y + p.y) }
    function Times(k: real): Body { Body(k * x, k * y) }
  }

  const EAST := Body(1.0, 0.0)
  const WEST := Body(-1.0, 0.0)

  datatype Circle = Circle(x: real, y: real, r: real)

  function Dot(u: Body, v: Body): real {
    u.x * v.x + u.y * v.y
  }

  /** Squared distance of two points. */
  function Dist2(p: Body, q: Body): real {
    Dot(p.Minus(q), p.Minus(q))
  }

  /** `Math::intersect_circle`: the point lies in the closed disc of radius r around the centre. */
  predicate IntersectCircle(centre: Body, p: Body, r: real) {
    Dist2(centre, p) <= r * r
  }

  /** The vector u is no longer than a. */
  predicate Short(u: Body, a: real)
    ensures Short(u, a) ==> a >= 0.0
  {
    a >= 0.0 && Dot(u, u) <= a * a
  }

  /** p and q are at most d apart. */
  predicate Near(p: Body, q: Body, d: real) {
    Short(p.Minus(q), d)
  }

  lemma SquareMonotone(a: real, b: real)
    requires 0.0 <= a <= b
    ensures a * a <= b * b
  {
    assert b * b - a * a == (b - a) * (b + a);
  }

  lemma ProductMonotone(a: real, b: real, c: real, d: real)
    requires 0.0 <= a <= b && 0.0 <= c <= d
    ensures a * c <= b * d
  {
    assert b * d - a * c == (b - a) * d + a * (d - c);
  }

  /** Cauchy-Schwarz for short vectors. */
  lemma DotBound(u: Body, v: Body, a: real, b: real)
    requires Short(u, a) && Short(v, b)
    ensures Dot(u, v) <= a * b
  {
    var d, c, uu, vv := Dot(u, v), u.x * v.y - u.y * v.x, Dot(u, u), Dot(v, v);
    assert d * d + c * c == uu * vv by {
      LagrangeIdentity(u, v);
    }
    ProductMonotone(uu, a * a, vv, b * b);
    assert (a * a) * (b * b) == (a * b) * (a * b);
    if d > a * b {
      StrictSquare(a * b, d);
      assert false;
    }
  }

  lemma StrictSquare(a: real, b: real)
    requires 0.0 <= a < b
    ensures a * a < b * b
  {
    assert a * (b - a) >= 0.0;
    assert (b - a) * b > 0.0;
  }

  lemma LagrangeIdentity(u: Body, v: Body)
    ensures Dot(u, v) * Dot(u, v) + (u.x * v.y - u.y * v.x) * (u.x * v.y - u.y * v.x)
            == Dot(u, u) * Dot(v, v)
  {
    var p, q, s, t := u.x * v.x, u.y * v.y, u.x * v.y, u.y * v.x;
    assert p * q == s * t;
    assert (p + q) * (p + q) == p * p + 2.0 * (p * q) + q * q;
    assert (s - t) * (s - t) == s * s - 2.0 * (s * t) + t * t;
    assert p * p == (u.x * u.x) * (v.x * v.x);
    assert q * q == (u.y * u.y) * (v.y * v.y);
    assert s * s == (u.x * u.x) * (v.y * v.y);
    assert t * t == (u.y * u.y) * (v.x * v.x);
  }

  /** The triangle inequality. */
  lemma ShortSum(u: Body, v: Body, a: real, b: real)
    requires Short(u, a) && Short(v, b)
    ensures Short(u.Plus(v), a + b)
  {
    DotBound(u, v, a, b);
    var w := u.Plus(v);
    assert w.x * w.x == u.x * u.x + 2.0 * (u.x * v.x) + v.x * v.x;
    assert w.y * w.y == u.y * u.y + 2.0 * (u.y * v.y) + v.y * v.y;
    assert Dot(w, w) == Dot(u, u) + 2.0 * Dot(u, v) + Dot(v, v);
    assert (a + b) * (a + b) == a * a + 2.0 * (a * b) + b * b;
  }

  lemma ShortScale(u: Body, a: real, k: real)
    requires Short(u, a) && k >= 0.0
    ensures Short(u.Times(k), k * a)
  {
    var w := u.Times(k);
    assert w.x * w.x == (k * k) * (u.x * u.x);
    assert w.y * w.y == (k * k) * (u.y * u.y);
    assert Dot(w, w) == (k * k) * Dot(u, u);
    SquareMonotone(0.0, k);
    ProductMonotone(k * k, k * k, Dot(u, u), a * a);
    assert (k * a) * (k * a) == (k * k) * (a * a);
  }

  lemma ShortZero(a: real)
    requires a >= 0.0
    ensures Short(Body(0.0, 0.0), a)
  {
    SquareMonotone(0.0, a);
  }

  lemma NearSelf(p: Body, a: real)
    requires a >= 0.0
    ensures Near(p, p, a)
  {
    hide Short;
    ShortZero(a);
    assert p.Minus(p) == Body(0.0, 0.0);
  }

  lemma ShortWeaken(u: Body, a: real, b: real)
    requires Short(u, a) && a <= b
    ensures Short(u, b)
  {
    SquareMonotone(a, b);
  }

  /** Each coordinate of a short vector is bounded by its length. */
  lemma ShortAxis(u: Body, a: real)
    requires Short(u, a)
    ensures -a <= u.x <= a && -a <= u.y <= a
  {
    AxisBound(u.x, a);
    AxisBound(u.y, a);
  }

  lemma AxisBound(x: real, a: real)
    requires a >= 0.0 && x * x <= a * a
    ensures -a <= x <= a
  {
    if x > a {
      StrictSquare(a, x);
    } else if x < -a {
      StrictSquare(a, -x);
    }
  }

  /** Strictly inside a disc of radius r. */
  predicate Inside(p: Body, centre: Body, r: real) {
    Dist2(p, centre) < r * r
  }

  /** An open disc is convex: p + k (q - p) stays inside with p and q. */
  lemma ConvexDisc(p: Body, q: Body, centre: Body, r: real, k: real)
    requires 0.0 <= k <= 1.0
    requires Inside(p, centre, r) && Inside(q, centre, r)
    ensures Inside(p.Plus(q.Minus(p).Times(k)), centre, r)
  {
    hide Dot;
    var u, v := p.Minus(centre), q.Minus(centre);
    var w := p.Plus(q.Minus(p).Times(k)).Minus(centre);
    var l := 1.0 - k;
    assert w.x == l * u.x + k * v.x && w.y == l * u.y + k * v.y;
    MixDot(u, v, w, l, k);
    MixBelow(Dot(u, u), Dot(v, v), r * r, l, k);
  }

  lemma MixDot(u: Body, v: Body, w: Body, l: real, k: real)
    requires 0.0 <= l && 0.0 <= k && l + k == 1.0
    requires w.x == l * u.x + k * v.x && w.y == l * u.y + k * v.y
    ensures Dot(w, w) <= l * Dot(u, u) + k * Dot(v, v)
  {
    MixSquare(u.x, v.x, l, k);
    MixSquare(u.y, v.y, l, k);
    var a, b, c, d := u.x * u.x, u.y * u.y, v.x * v.x, v.y * v.y;
    assert l * (a + b) == l * a + l * b;
    assert k * (c + d) == k * c + k * d;
  }

  lemma MixSquare(a: real, b: real, l: real, k: real)
    requires 0.0 <= l && 0.0 <= k && l + k == 1.0
    ensures (l * a + k * b) * (l * a + k * b) <= l * (a * a) + k * (b * b)
  {
    var m := l * a + k * b;
    assert m * m == (l * l) * (a * a) + 2.0 * (l * k) * (a * b) + (k * k) * (b * b);
    assert l * l == l - l * k && k * k == k - l * k;
    var e := (a - b) * (a - b);
    assert e == a * a - 2.0 * (a * b) + b * b;
    ProductMonotone(0.0, l * k, 0.0, e);
    assert (l * k) * e == (l * k) * (a * a) - 2.0 * (l * k) * (a * b) + (l * k) * (b * b);
  }

  lemma MixBelow(a: real, b: real, c: real, l: real, k: real)
    requires 0.0 <= l && 0.0 <= k && l + k == 1.0
    requires a < c && b < c
    ensures l * a + k * b < c
  {
    var m := if a < b then b else a;
    assert l * (m - a) >= 0.0 && k * (m - b) >= 0.0;
    assert l * (m - a) == l * m - l * a;
    assert k * (m - b) == k * m - k * b;
    assert l * m + k * m == (l + k) * m;
  }
}
