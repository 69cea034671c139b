/** When a move is deadly, in distances. */
module Crashes {
  import opened Geometry
  import opened Config
  import opened Grid
  import opened SnakeModel
  import opened Collision
  import opened WorldModel
  import opened Lodging

  /** Part i of the body, the part before it, or the point between them is within r of p, and part i within 84. */
  predicate Touches(parts: seq<Body>, p: Body, r: real, i: nat)
    requires 0 < i < |parts|
  {
    var mid := Body((parts[i].x + parts[i - 1].x) / 2.0, (parts[i].y + parts[i - 1].y) / 2.0);
    && Dist2(parts[i], p) <= 84.0 * 84.0
    && (Dist2(parts[i], p) <= r * r || Dist2(parts[i - 1], p) <= r * r || Dist2(mid, p) <= r * r)
  }

  /** Snake j is registered in sector k, whose centre is within 254.5 of the head of snake id, and has a looked-at
      pair i within the two body radii of it. */
  ghost predicate Crash(snakes: SnakeMap, id: nat, j: nat, k: nat, i: nat)
    requires id in snakes && j in snakes
  {
    var p, parts := Head(snakes[id]), snakes[j].parts;
    && k < SECTORS && k in snakes[j].sbb && Dist2(Centre(k), p) <= 254.5 * 254.5
    && 0 < i < |parts| && Looked(parts, Circle(p.x, p.y, 0.0), i)
    && Touches(parts, p, BodyRadius(|snakes[id].parts|) + BodyRadius(|parts|), i)
  }

  /** A circle of this radius around a head at p. */
  lemma TouchesIs(parts: seq<Body>, c: Circle, i: nat)
    requires 0 < i < |parts|
    ensures PairHit(parts, c, i) <==> Touches(parts, At(c), c.r + BodyRadius(|parts|), i)
    ensures Looked(parts, c, i) <==> Looked(parts, Circle(c.x, c.y, 0.0), i)
  {
    hide Dist2, BodyRadius;
    var p, q := parts[i], parts[i - 1];
    assert Midpoint(p, q) == Body((p.x + q.x) / 2.0, (p.y + q.y) / 2.0);
  }

  lemma StepMeets(p: Body, k: nat)
    ensures k in Meeting(Circle(p.x, p.y, 42.0)) <==> k < SECTORS && Dist2(Centre(k), p) <= 254.5 * 254.5
  {
    assert Body(p.x, p.y) == p;
    hide Dist2;
  }

  lemma BumpsIff(snakes: SnakeMap, id: nat, j: nat)
    requires id in snakes && j in snakes
    ensures Bumps(snakes, id, j) <==> j != id && exists k: nat, i: nat :: Crash(snakes, id, j, k, i)
  {
    hide Hits, PairHit, Looked, Meeting, Touches, BodyRadius, Dist2;
    var p, parts := Head(snakes[id]), snakes[j].parts;
    var c, r := HeadCircle(snakes[id]), BodyRadius(|snakes[id].parts|) + BodyRadius(|parts|);
    assert At(c) == p && c.r + BodyRadius(|parts|) == r;
    HitsExactly(parts, c);
    forall i: nat | 0 < i < |parts|
      ensures PairHit(parts, c, i) <==> Touches(parts, p, r, i)
      ensures Looked(parts, c, i) <==> Looked(parts, Circle(p.x, p.y, 0.0), i)
    {
      TouchesIs(parts, c, i);
    }
    forall k: nat
      ensures k in Meeting(Circle(p.x, p.y, 42.0)) <==> k < SECTORS && Dist2(Centre(k), p) <= 254.5 * 254.5
    {
      StepMeets(p, k);
    }
    if Bumps(snakes, id, j) {
      var k :| k in snakes[j].sbb && k in Meeting(Circle(p.x, p.y, 42.0));
      var i: nat :| 0 < i < |parts| && PairHit(parts, c, i) && Looked(parts, c, i);
      assert Crash(snakes, id, j, k, i);
    }
    if j != id && exists k: nat, i: nat :: Crash(snakes, id, j, k, i) {
      var k: nat, i: nat :| Crash(snakes, id, j, k, i);
      assert k in snakes[j].sbb && k in Meeting(Circle(p.x, p.y, 42.0));
      assert PairHit(parts, c, i) && Looked(parts, c, i);
    }
  }

  /** The collision check in distances: a snake whose head is inside the death disc is doomed if and only if another
      snake is registered in a sector with its centre within 254.5 of the head, and has a pair the scan looks at,
      its later part within 84 of the head, of which one part or the middle is no further from the head than the
      two body radii together. */
  lemma DoomedIff(snakes: SnakeMap, id: nat)
    requires id in snakes && Dist2(Head(snakes[id]), CENTRE) < 21300.0 * 21300.0
    ensures Doomed(snakes, id)
            <==> exists j: nat, k: nat, i: nat :: j in snakes && j != id && Crash(snakes, id, j, k, i)
  {
    hide Bumps, Crash, BodyRadius, Dist2;
    forall j: nat | j in snakes
      ensures Bumps(snakes, id, j)
              <==> j != id && exists k: nat, i: nat :: Crash(snakes, id, j, k, i)
    {
      BumpsIff(snakes, id, j);
    }
    assert forall j :: Bumps(snakes, id, j) ==> j in snakes by { BumpsThere(snakes, id); }
  }

  lemma BumpsThere(snakes: SnakeMap, id: nat)
    ensures forall j :: Bumps(snakes, id, j) ==> j in snakes
  {
  }

  /** Outside the disc a snake is always doomed. */
  lemma DoomedOutside(snakes: SnakeMap, id: nat)
    requires id in snakes && Dist2(Head(snakes[id]), CENTRE) >= 21300.0 * 21300.0
    ensures Doomed(snakes, id)
  {
    hide Dist2;
  }

  /** The body radius grows by 14.5 per 106 parts, from 14.5 at three parts to 87 at 533 and more. */
  lemma RadiusIs(n: nat)
    requires n >= 3
    ensures BodyRadius(n) * 106.0 == if n <= 533 then 14.5 * (103 + n) as real else 9222.0
  {
    var v := (n - 3) as real / 106.0;
    assert v * 106.0 == (n - 3) as real;
  }

  /** What registration is for: a head inside the disc that comes within 42, and within the two body radii, of a
      looked-at part of another snake that lies in a sector that snake is registered in, is doomed. */
  lemma LodgedPartKills(snakes: SnakeMap, id: nat, j: nat, i: nat)
    requires id in snakes && j in snakes && j != id && Dist2(Head(snakes[id]), CENTRE) < 21300.0 * 21300.0
    requires 0 < i && Lodged(snakes[j], i)
    requires var p, r := Head(snakes[id]), BodyRadius(|snakes[id].parts|) + BodyRadius(|snakes[j].parts|);
             && Looked(snakes[j].parts, Circle(p.x, p.y, 0.0), i)
             && Near(snakes[j].parts[i], p, 42.0) && Near(snakes[j].parts[i], p, r)
    ensures Doomed(snakes, id)
  {
    hide Doomed, Looked, BodyRadius, Dot;
    var p, q, r := Head(snakes[id]), snakes[j].parts[i], BodyRadius(|snakes[id].parts|) + BodyRadius(|snakes[j].parts|);
    var k, c := CellOf(q), Circle(p.x, p.y, 42.0);
    assert Body(c.x, c.y) == p;
    CellMeets(q, c);
    StepMeets(p, k);
    assert 42.0 * 42.0 <= 84.0 * 84.0;
    assert Touches(snakes[j].parts, p, r, i);
    assert Crash(snakes, id, j, k, i);
    DoomedIff(snakes, id);
  }

  const BYSTANDER := [Body(22042.0, 21600.0), Body(22000.0, 21600.0), Body(21958.0, 21600.0)]

  /** A head 20 away from the middle part of a three-part snake registered there is doomed; 30 away, with no other
      snake about, it is not. */
  lemma TwoSnakes(snakes: SnakeMap, a: nat, b: nat)
    requires snakes.Keys == {a, b} && a != b && |snakes[a].parts| == 3 && snakes[b].parts == BYSTANDER
    requires Index(73, 72) in snakes[b].sbb
    ensures Head(snakes[a]) == Body(22000.0, 21620.0) ==> Doomed(snakes, a)
    ensures Head(snakes[a]) == Body(22000.0, 21630.0) ==> !Doomed(snakes, a)
  {
    hide Doomed;
    var p, k, r := Head(snakes[a]), Index(73, 72), BodyRadius(3) + BodyRadius(3);
    assert r == 29.0;
    if p == Body(22000.0, 21620.0) {
      CloseBy(p, k);
      assert Crash(snakes, a, b, k, 1);
      DoomedIff(snakes, a);
    } else if p == Body(22000.0, 21630.0) {
      ClearOf(p);
      DoomedIff(snakes, a);
    }
  }

  lemma CloseBy(p: Body, k: nat)
    requires p == Body(22000.0, 21620.0) && k == Index(73, 72)
    ensures Touches(BYSTANDER, p, 29.0, 1) && Dist2(p, CENTRE) < 21300.0 * 21300.0
    ensures k < SECTORS && Dist2(Centre(k), p) <= 254.5 * 254.5
  {
    assert Dist2(BYSTANDER[1], p) == 400.0;
    assert Column(k) == 73 && Row(k) == 72;
    assert Dist2(Centre(k), p) == 19400.0;
  }

  lemma ClearOf(p: Body)
    requires p == Body(22000.0, 21630.0)
    ensures Dist2(p, CENTRE) < 21300.0 * 21300.0
    ensures !Touches(BYSTANDER, p, 29.0, 1) && !Touches(BYSTANDER, p, 29.0, 2)
  {
    var b := BYSTANDER;
    assert Dist2(b[0], p) == 2664.0 && Dist2(b[1], p) == 900.0 && Dist2(b[2], p) == 2664.0;
    assert Dist2(Body(22021.0, 21600.0), p) == 1341.0 && Dist2(Body(21979.0, 21600.0), p) == 1341.0;
  }
}
