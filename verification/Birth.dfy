/** The body of a new snake: `World::CreateSnake` lays parts along a line on 16-bit integer coordinates. */
module Birth {
  import opened Geometry
  import opened Movement
  import opened Grid

  /** A starting body: at least three parts, all strictly inside the death disc. */
  ghost predicate StartBody(body: seq<Body>) {
    |body| >= 3 && AllInside(body, CENTRE, DEATH)
  }

  /** A float stored in a 16-bit unsigned coordinate. */
  function Cut(v: real): (x: nat)
    ensures x < 0x1_0000
  {
    Trunc(v) % 0x1_0000
  }

  function CutBody(p: Body): Body {
    Body(Cut(p.x) as real, Cut(p.y) as real)
  }

  /** The distance laid between part i - 1 and part i. */
  function Spacing(i: nat): real {
    if i <= 7 then 42.0 else 24.0
  }

  /** Distance from the head to part i of a laid body. */
  function Offset(i: nat): nat {
    if i <= 7 then 42 * i else 294 + 24 * (i - 7)
  }

  /** Part i of a body that starts at `head` and extends along `dir`; every step is cut to integers. */
  function LaidAt(head: Body, dir: Body, i: nat): Body {
    if i == 0 then head else CutBody(LaidAt(head, dir, i - 1).Plus(dir.Times(Spacing(i))))
  }

  function Laid(head: Body, dir: Body, len: nat): (parts: seq<Body>)
    ensures |parts| == len
  {
    seq(len, i requires 0 <= i < len => LaidAt(head, dir, i))
  }

  /** What a new snake is drawn with: skin, the outward unit vector and the distance of its head from the centre
      of the map, the angle of that vector, and the number of parts on top of the least three. */
  datatype Draws = Draws(skin: int, out: Body, dist: real, angle: real, extra: nat)

  /** The head is cut to integers, and the body points inwards. */
  function Drawn(d: Draws): (body: seq<Body>)
    ensures |body| == 3 + d.extra
  {
    Laid(CutBody(CENTRE.Plus(d.out.Times(d.dist))), d.out.Times(-1.0), 3 + d.extra)
  }

  /** The two loops of `World::CreateSnake`. */
  method LayBody(head: Body, dir: Body, len: nat) returns (parts: seq<Body>)
    ensures parts == Laid(head, dir, len)
  {
    var at := head;
    parts := [];
    var i := 0;
    while i < len && i < 7
      invariant i <= len && i <= 7 && parts == Laid(head, dir, i) && at == LaidAt(head, dir, i)
    {
      parts := parts + [at];
      at := CutBody(at.Plus(dir.Times(42.0)));
      i := i + 1;
    }
    while i < len
      invariant i <= len && (i < len ==> i >= 7) && parts == Laid(head, dir, i) && (i < len ==> at == LaidAt(head, dir, i))
    {
      parts := parts + [at];
      at := CutBody(at.Plus(dir.Times(24.0)));
      i := i + 1;
    }
  }

  /** How far part i can be from the centre of the map. */
  function Spread(i: nat): real {
    if i <= 7 then 6001.5 + 43.5 * i as real else 6306.0 + 25.5 * (i - 7) as real
  }

  lemma CutNear(p: Body)
    requires 0.0 <= p.x < 65536.0 && 0.0 <= p.y < 65536.0
    ensures Short(CutBody(p).Minus(p), 1.5)
  {
    var e := CutBody(p).Minus(p);
    assert -1.0 < e.x <= 0.0 && -1.0 < e.y <= 0.0;
    ProductMonotone(0.0, -e.x, 0.0, 1.0);
    AxisSquare(-e.x);
    AxisSquare(-e.y);
  }

  lemma AxisSquare(x: real)
    requires 0.0 <= x <= 1.0
    ensures x * x <= 1.0
  {
    ProductMonotone(x, 1.0, x, 1.0);
  }

  /** Within 21301 of the centre all coordinates fit. */
  lemma Fits(p: Body, d: real)
    requires Near(p, CENTRE, d) && d <= 21343.0
    ensures 0.0 <= p.x < 65536.0 && 0.0 <= p.y < 65536.0
  {
    ShortAxis(p.Minus(CENTRE), d);
  }

  lemma StepNear(p: Body, dir: Body, step: real, d: real)
    requires Near(p, CENTRE, d) && d <= 21300.0 && Short(dir, 1.0) && 0.0 <= step <= 42.0
    ensures Near(CutBody(p.Plus(dir.Times(step))), p, step + 1.5)
    ensures Near(CutBody(p.Plus(dir.Times(step))), CENTRE, d + step + 1.5)
  {
    hide Short;
    var q := p.Plus(dir.Times(step));
    var r := CutBody(q);
    ShortScale(dir, 1.0, step);
    assert q.Minus(CENTRE) == p.Minus(CENTRE).Plus(dir.Times(step));
    ShortSum(p.Minus(CENTRE), dir.Times(step), d, 1.0 * step);
    Fits(q, d + step);
    CutNear(q);
    ShortSum(q.Minus(CENTRE), r.Minus(q), d + step, 1.5);
    assert r.Minus(CENTRE) == q.Minus(CENTRE).Plus(r.Minus(q));
    ShortSum(dir.Times(step), r.Minus(q), step, 1.5);
    assert r.Minus(p) == dir.Times(step).Plus(r.Minus(q));
  }

  lemma {:induction false} LaidNear(head: Body, dir: Body, i: nat)
    requires Near(head, CENTRE, 6001.5) && Short(dir, 1.0) && i <= 594
    ensures Near(LaidAt(head, dir, i), CENTRE, Spread(i))
    ensures i > 0 ==> Near(LaidAt(head, dir, i), LaidAt(head, dir, i - 1), 43.5)
  {
    hide Short;
    if i > 0 {
      LaidNear(head, dir, i - 1);
      StepNear(LaidAt(head, dir, i - 1), dir, Spacing(i), Spread(i - 1));
      ShortWeaken(LaidAt(head, dir, i).Minus(LaidAt(head, dir, i - 1)), Spacing(i) + 1.5, 43.5);
      ShortWeaken(LaidAt(head, dir, i).Minus(CENTRE), Spread(i - 1) + Spacing(i) + 1.5, Spread(i));
    }
  }

  lemma HeadNear(out: Body, dist: real)
    requires Dot(out, out) == 1.0 && 0.0 <= dist <= 6000.0
    ensures Near(CutBody(CENTRE.Plus(out.Times(dist))), CENTRE, 6001.5)
  {
    hide Dot;
    assert Short(out, 1.0);
    ShortScale(out, 1.0, dist);
    var q := CENTRE.Plus(out.Times(dist));
    var r := CutBody(q);
    assert q.Minus(CENTRE) == out.Times(dist);
    ShortWeaken(out.Times(dist), 1.0 * dist, 6000.0);
    Fits(q, 6000.0);
    CutNear(q);
    ShortSum(q.Minus(CENTRE), r.Minus(q), 6000.0, 1.5);
    assert r.Minus(CENTRE) == q.Minus(CENTRE).Plus(r.Minus(q));
  }

  lemma NearSwap(p: Body, q: Body, d: real)
    requires Near(p, q, d)
    ensures Near(q, p, d)
  {
    assert Dot(q.Minus(p), q.Minus(p)) == Dot(p.Minus(q), p.Minus(q));
  }

  lemma NearInside(p: Body, d: real)
    requires Near(p, CENTRE, d) && d < DEATH
    ensures Inside(p, CENTRE, DEATH)
  {
    StrictSquare(d, DEATH);
  }

  lemma ReversedUnit(out: Body)
    requires Dot(out, out) == 1.0
    ensures Dot(out.Times(-1.0), out.Times(-1.0)) == 1.0
  {
  }

  lemma Reversed(out: Body)
    requires Dot(out, out) == 1.0
    ensures Short(out.Times(-1.0), 1.0)
  {
  }

  /** A new body of 3 to 595 parts lies strictly inside the death disc with gaps of at most 43.5, wherever it
      starts: what the whole-run theorems ask of every opened session. */
  lemma BornWell(d: Draws)
    requires Dot(d.out, d.out) == 1.0 && 0.0 <= d.dist <= 6000.0 && d.extra <= 592
    ensures StartBody(Drawn(d)) && GapsWithin(Drawn(d), 43.5)
  {
    hide Dot, Inside;
    HeadNear(d.out, d.dist);
    Reversed(d.out);
    var head, dir := CutBody(CENTRE.Plus(d.out.Times(d.dist))), d.out.Times(-1.0);
    forall i | 0 <= i < 3 + d.extra
      ensures Inside(LaidAt(head, dir, i), CENTRE, DEATH)
      ensures i > 0 ==> Near(LaidAt(head, dir, i - 1), LaidAt(head, dir, i), 43.5)
    {
      LaidNear(head, dir, i);
      NearInside(LaidAt(head, dir, i), Spread(i));
      if i > 0 {
        NearSwap(LaidAt(head, dir, i), LaidAt(head, dir, i - 1), 43.5);
      }
    }
  }

  /** No new body of four or more parts has the tight profile: its third gap is too wide. */
  lemma BornLoose(d: Draws)
    requires Dot(d.out, d.out) == 1.0 && 0.0 <= d.dist <= 6000.0 && 1 <= d.extra
    ensures !GapProfile(Drawn(d), 42.0)
  {
    hide Dot, Short;
    HeadNear(d.out, d.dist);
    Reversed(d.out);
    var head, dir := CutBody(CENTRE.Plus(d.out.Times(d.dist))), d.out.Times(-1.0);
    LaidNear(head, dir, 2);
    var p, q := LaidAt(head, dir, 2), LaidAt(head, dir, 3);
    assert q == CutBody(p.Plus(dir.Times(42.0)));
    assert Drawn(d)[2] == p && Drawn(d)[3] == q;
    if Near(p, q, GapCap(3, 42.0)) {
      ShortWeaken(p.Minus(CENTRE), Spread(2), 6100.0);
      StepBack(p, dir, q);
      ReversedUnit(d.out);
      LongStep(dir);
    }
  }

  /** A step of 42 cut to integers cannot be short enough for the third gap of the profile. */
  lemma StepBack(p: Body, dir: Body, q: Body)
    requires Near(p, CENTRE, 6100.0) && Short(dir, 1.0) && q == CutBody(p.Plus(dir.Times(42.0))) && Near(p, q, 37.485)
    ensures Short(dir.Times(42.0), 38.985)
  {
    hide Short;
    var r := p.Plus(dir.Times(42.0));
    ShortScale(dir, 1.0, 42.0);
    assert r.Minus(CENTRE) == p.Minus(CENTRE).Plus(dir.Times(42.0));
    ShortSum(p.Minus(CENTRE), dir.Times(42.0), 6100.0, 42.0);
    Fits(r, 6142.0);
    CutNear(r);
    NearSwap(p, q, 37.485);
    NearSwap(q, r, 1.5);
    ShortSum(q.Minus(p), r.Minus(q), 37.485, 1.5);
    assert q.Minus(p).Plus(r.Minus(q)) == dir.Times(42.0);
  }

  lemma LongStep(dir: Body)
    requires Dot(dir, dir) == 1.0
    ensures !Short(dir.Times(42.0), 38.985)
  {
    assert Dot(dir.Times(42.0), dir.Times(42.0)) == 1764.0 * Dot(dir, dir);
  }

  /** Part i lies where an exact line would put it, up to 1.5 for each cut. */
  lemma {:induction false} LaidLine(head: Body, dir: Body, i: nat)
    requires Near(head, CENTRE, 6001.5) && Short(dir, 1.0) && i <= 594
    ensures Near(LaidAt(head, dir, i), head.Plus(dir.Times(Offset(i) as real)), 1.5 * i as real)
  {
    hide Short;
    if i > 0 {
      LaidLine(head, dir, i - 1);
      LaidNear(head, dir, i - 1);
      var p, q := LaidAt(head, dir, i - 1), LaidAt(head, dir, i);
      var step := Spacing(i);
      ExactStep(p, dir, step, Spread(i - 1));
      var line := head.Plus(dir.Times(Offset(i - 1) as real));
      ShortSum(p.Minus(line), q.Minus(p.Plus(dir.Times(step))), 1.5 * (i - 1) as real, 1.5);
      LineStep(head, dir, p, q, Offset(i - 1) as real, step);
    } else {
      assert head.Plus(dir.Times(0.0)) == head;
      NearSelf(head, 0.0);
    }
  }

  lemma LineStep(head: Body, dir: Body, p: Body, q: Body, off: real, step: real)
    ensures p.Minus(head.Plus(dir.Times(off))).Plus(q.Minus(p.Plus(dir.Times(step))))
            == q.Minus(head.Plus(dir.Times(off + step)))
  {
  }

  lemma ExactStep(p: Body, dir: Body, step: real, d: real)
    requires Near(p, CENTRE, d) && d <= 21300.0 && Short(dir, 1.0) && 0.0 <= step <= 42.0
    ensures Short(CutBody(p.Plus(dir.Times(step))).Minus(p.Plus(dir.Times(step))), 1.5)
  {
    hide Short;
    var r := p.Plus(dir.Times(step));
    ShortScale(dir, 1.0, step);
    assert r.Minus(CENTRE) == p.Minus(CENTRE).Plus(dir.Times(step));
    ShortSum(p.Minus(CENTRE), dir.Times(step), d, step);
    Fits(r, d + step);
    CutNear(r);
  }

  /** New bodies of eight to 21 parts are longer, head to tail, than the length their box radius is computed from. */
  lemma BornTooLong(d: Draws)
    requires Dot(d.out, d.out) == 1.0 && 0.0 <= d.dist <= 6000.0 && 5 <= d.extra <= 18
    ensures var body := Drawn(d); !Near(body[|body| - 1], body[0], BoxLength(|body|))
  {
    hide Dot, Short;
    HeadNear(d.out, d.dist);
    Reversed(d.out);
    ReversedUnit(d.out);
    var n, body := 2 + d.extra, Drawn(d);
    var head, dir := CutBody(CENTRE.Plus(d.out.Times(d.dist))), d.out.Times(-1.0);
    LaidLine(head, dir, n);
    var q, off := LaidAt(head, dir, n), Offset(n) as real;
    assert body[n] == q && body[0] == head && |body| == n + 1;
    if Near(q, head, BoxLength(n + 1)) {
      var line := head.Plus(dir.Times(off));
      NearSwap(q, line, 1.5 * n as real);
      ShortSum(q.Minus(head), line.Minus(q), BoxLength(n + 1), 1.5 * n as real);
      assert q.Minus(head).Plus(line.Minus(q)) == dir.Times(off);
      LongLine(dir, off, BoxLength(n + 1) + 1.5 * n as real);
    }
  }

  lemma LongLine(dir: Body, k: real, b: real)
    requires Dot(dir, dir) == 1.0 && 0.0 <= b < k
    ensures !Short(dir.Times(k), b)
  {
    var u := dir.Times(k);
    assert u.x * u.x == (k * k) * (dir.x * dir.x) && u.y * u.y == (k * k) * (dir.y * dir.y);
    assert Dot(u, u) == (k * k) * Dot(dir, dir);
    StrictSquare(b, k);
  }

  /** New bodies of up to seven parts fit. */
  lemma BornShort(d: Draws, a: nat, b: nat)
    requires Dot(d.out, d.out) == 1.0 && 0.0 <= d.dist <= 6000.0 && d.extra <= 4 && a <= b < 3 + d.extra
    ensures Near(Drawn(d)[b], Drawn(d)[a], BoxLength(3 + d.extra))
  {
    hide Dot, Short;
    HeadNear(d.out, d.dist);
    Reversed(d.out);
    var head, dir := CutBody(CENTRE.Plus(d.out.Times(d.dist))), d.out.Times(-1.0);
    LaidSpan(head, dir, a, b);
    ShortWeaken(LaidAt(head, dir, b).Minus(LaidAt(head, dir, a)), 43.5 * (b - a) as real, BoxLength(3 + d.extra));
  }

  lemma {:induction false} LaidSpan(head: Body, dir: Body, a: nat, b: nat)
    requires Near(head, CENTRE, 6001.5) && Short(dir, 1.0) && a <= b <= 594
    ensures Near(LaidAt(head, dir, b), LaidAt(head, dir, a), 43.5 * (b - a) as real)
    decreases b - a
  {
    hide Short, LaidAt;
    if a < b {
      LaidSpan(head, dir, a, b - 1);
      LaidNear(head, dir, b);
      var p, q, r := LaidAt(head, dir, b), LaidAt(head, dir, b - 1), LaidAt(head, dir, a);
      ShortSum(p.Minus(q), q.Minus(r), 43.5, 43.5 * (b - 1 - a) as real);
      assert p.Minus(q).Plus(q.Minus(r)) == p.Minus(r);
    } else {
      NearSelf(LaidAt(head, dir, a), 0.0);
    }
  }

  /** Where the parts of a new snake lie: on the line from the middle of the map outwards, the first eight 42 apart and
      the others 24, each behind the one before on the way to the middle, but for what the cuts to integers add up to. */
  lemma BornLine(d: Draws, i: nat)
    requires Dot(d.out, d.out) == 1.0 && 0.0 <= d.dist <= 6000.0 && i < 3 + d.extra && i <= 594
    ensures var behind := if i <= 7 then 42.0 * i as real else 294.0 + 24.0 * (i - 7) as real;
            Near(Drawn(d)[i], Body(21600.0, 21600.0).Plus(d.out.Times(d.dist - behind)), 1.5 * i as real + 1.5)
  {
    hide Dot, Short;
    HeadNear(d.out, d.dist);
    Reversed(d.out);
    HeadCut(d.out, d.dist);
    var start := CENTRE.Plus(d.out.Times(d.dist));
    var head, dir, off := CutBody(start), d.out.Times(-1.0), Offset(i) as real;
    LaidLine(head, dir, i);
    var p, line := LaidAt(head, dir, i), head.Plus(dir.Times(off));
    ShortSum(p.Minus(line), head.Minus(start), 1.5 * i as real, 1.5);
    var goal := CENTRE.Plus(d.out.Times(d.dist - off));
    assert line.Minus(goal) == head.Minus(start) by { Outwards(d.out, d.dist, off, head); }
    assert p.Minus(goal) == p.Minus(line).Plus(line.Minus(goal));
  }

  lemma Outwards(out: Body, dist: real, off: real, head: Body)
    ensures head.Plus(out.Times(-1.0).Times(off)).Minus(CENTRE.Plus(out.Times(dist - off)))
            == head.Minus(CENTRE.Plus(out.Times(dist)))
  {
    assert out.x * (dist - off) == out.x * dist - out.x * off && out.y * (dist - off) == out.y * dist - out.y * off;
    assert out.x * -1.0 * off == -(out.x * off) && out.y * -1.0 * off == -(out.y * off);
  }

  lemma HeadCut(out: Body, dist: real)
    requires Dot(out, out) == 1.0 && 0.0 <= dist <= 6000.0
    ensures Short(CutBody(CENTRE.Plus(out.Times(dist))).Minus(CENTRE.Plus(out.Times(dist))), 1.5)
  {
    hide Dot;
    assert Short(out, 1.0);
    ShortScale(out, 1.0, dist);
    var q := CENTRE.Plus(out.Times(dist));
    assert q.Minus(CENTRE) == out.Times(dist);
    ShortWeaken(out.Times(dist), 1.0 * dist, 6000.0);
    Fits(q, 6000.0);
    CutNear(q);
  }
}
