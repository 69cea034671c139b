/** The control loops of a snake: turning towards a wanted angle and changing speed. */
module Control {
  import opened Config
  import opened SnakeModel
  import opened SnakeLaws
  import opened Ticks

  /** How far the angle is from the wanted one, around the circle. */
  function Off(angle: real, wangle: real): real {
    Abs(TurnLeft(angle, wangle))
  }

  lemma NormalizeRange(a: real)
    ensures 0.0 <= Normalize(a) < TWO_PI
  {
    var q := a / TWO_PI;
    var f := q.Floor as real;
    assert f <= q < f + 1.0;
    assert q * TWO_PI == a;
    assert a - TWO_PI * f == (q - f) * TWO_PI;
  }

  /** The signed shortest turn is the only representative of the difference in (-PI, PI]. */
  lemma TurnLeftUnique(angle: real, wangle: real, d: real, k: int)
    requires -PI < d <= PI && wangle - angle == d + TWO_PI * k as real
    ensures TurnLeft(angle, wangle) == d
  {
    var x := wangle - angle;
    var q := x / TWO_PI;
    assert q == d / TWO_PI + k as real;
    var e := d / TWO_PI;
    assert e * TWO_PI == d;
    if d >= 0.0 {
      assert 0.0 <= e < 1.0;
      assert q.Floor == k;
    } else {
      assert -1.0 < e < 0.0;
      assert q.Floor == k - 1;
      assert Normalize(x) == d + TWO_PI;
    }
  }

  lemma TurnLeftRange(angle: real, wangle: real)
    ensures -PI < TurnLeft(angle, wangle) <= PI
  {
    NormalizeRange(wangle - angle);
  }

  /** Any turn changes the angle by the chosen amount up to full circles. */
  lemma NormalizeTurns(a: real) returns (k: int)
    ensures Normalize(a) == a - TWO_PI * k as real
  {
    k := (a / TWO_PI).Floor;
  }

  lemma TurnLeftTurns(angle: real, wangle: real) returns (k: int)
    ensures wangle - angle == TurnLeft(angle, wangle) + TWO_PI * k as real
  {
    k := NormalizeTurns(wangle - angle);
    if Normalize(wangle - angle) > PI {
      k := k + 1;
    }
  }

  function Max0(x: real): real {
    if x < 0.0 then 0.0 else x
  }

  /** One turn brings the angle closer by exactly the rotation, or all the way. */
  lemma TurnCloses(angle: real, wangle: real, rotation: real)
    requires rotation >= 0.0
    ensures Off(Turn(angle, wangle, rotation), wangle) == Max0(Off(angle, wangle) - rotation)
    ensures 0.0 <= Turn(angle, wangle, rotation) < TWO_PI
  {
    hide Normalize, TurnLeft;
    var d := TurnLeft(angle, wangle);
    TurnLeftRange(angle, wangle);
    var k := TurnLeftTurns(angle, wangle);
    var target := if Abs(d) < rotation then wangle else if d > 0.0 then angle + rotation else angle - rotation;
    var m := NormalizeTurns(target);
    NormalizeRange(target);
    var left := if Abs(d) < rotation then 0.0 else if d > 0.0 then d - rotation else d + rotation;
    var n := if Abs(d) < rotation then m else k + m;
    assert wangle - Normalize(target) == left + TWO_PI * n as real;
    TurnLeftUnique(Normalize(target), wangle, left, n);
  }

  function Total(rotations: seq<real>): real {
    if rotations == [] then 0.0 else Total(rotations[..|rotations| - 1]) + rotations[|rotations| - 1]
  }

  function TurnAll(angle: real, wangle: real, rotations: seq<real>): real {
    if rotations == [] then angle
    else Turn(TurnAll(angle, wangle, rotations[..|rotations| - 1]), wangle, rotations[|rotations| - 1])
  }

  /** With a fixed target the distance around the circle falls by exactly the total rotation until it is zero. */
  lemma {:induction false} TurnAllCloses(angle: real, wangle: real, rotations: seq<real>)
    requires forall i :: 0 <= i < |rotations| ==> rotations[i] >= 0.0
    ensures Off(TurnAll(angle, wangle, rotations), wangle) == Max0(Off(angle, wangle) - Total(rotations))
    ensures Total(rotations) >= 0.0
  {
    hide Turn, TurnLeft, Off;
    if rotations != [] {
      var front := rotations[..|rotations| - 1];
      TurnAllCloses(angle, wangle, front);
      TurnCloses(TurnAll(angle, wangle, front), wangle, rotations[|rotations| - 1]);
    } else {
      assert Off(angle, wangle) >= 0.0 by { OffNonNegative(angle, wangle); }
    }
  }

  lemma OffNonNegative(angle: real, wangle: real)
    ensures Off(angle, wangle) >= 0.0
  {
  }

  lemma ZeroOff(angle: real, wangle: real)
    requires 0.0 <= angle < TWO_PI && 0.0 <= wangle < TWO_PI
    ensures Off(angle, wangle) == 0.0 <==> angle == wangle
  {
    hide TurnLeft;
    var d := TurnLeft(angle, wangle);
    var k := TurnLeftTurns(angle, wangle);
    if angle == wangle {
      TurnLeftUnique(angle, wangle, 0.0, 0);
    } else if d == 0.0 {
      OneCircle(wangle - angle, k);
    }
  }

  lemma OneCircle(x: real, k: int)
    requires -TWO_PI < x < TWO_PI && x == TWO_PI * k as real
    ensures x == 0.0
  {
    Multiple(k);
  }

  lemma Multiple(k: int)
    ensures k >= 1 ==> TWO_PI * k as real >= TWO_PI
    ensures k <= -1 ==> TWO_PI * k as real <= -TWO_PI
  {
    assert TWO_PI * k as real == TWO_PI * (k as real - 1.0) + TWO_PI == TWO_PI * (k as real + 1.0) - TWO_PI;
  }

  lemma {:induction false} TurnAllNormalized(angle: real, wangle: real, rotations: seq<real>)
    requires rotations != [] && forall i :: 0 <= i < |rotations| ==> rotations[i] >= 0.0
    ensures 0.0 <= TurnAll(angle, wangle, rotations) < TWO_PI
  {
    hide Turn, Off;
    TurnCloses(TurnAll(angle, wangle, rotations[..|rotations| - 1]), wangle, rotations[|rotations| - 1]);
  }

  /** Turning ends exactly on the wanted angle if and only if that angle is normalized and the rotations together
      cover the distance to it, wherever the snake started. */
  lemma SettlesIff(angle: real, wangle: real, rotations: seq<real>)
    requires rotations != [] && forall i :: 0 <= i < |rotations| ==> rotations[i] >= 0.0
    ensures TurnAll(angle, wangle, rotations) == wangle
            <==> 0.0 <= wangle < TWO_PI && Total(rotations) >= Off(angle, wangle)
  {
    hide TurnAll, Off, Total;
    TurnAllCloses(angle, wangle, rotations);
    TurnAllNormalized(angle, wangle, rotations);
    if 0.0 <= wangle < TWO_PI {
      ZeroOff(TurnAll(angle, wangle, rotations), wangle);
    }
  }

  /** The angle a client byte asks for. */
  function ByteAngle(b: nat): real {
    PI * b as real / 125.0
  }

  /** Of the bytes 0 .. 250 a client may send, exactly 250 asks for an angle no turning ever ends on; all others
      are reached by any turns that cover the distance. */
  lemma ByteSettles(b: nat, angle: real, rotations: seq<real>)
    requires b <= 250
    requires rotations != [] && forall i :: 0 <= i < |rotations| ==> rotations[i] >= 0.0
    ensures TurnAll(angle, ByteAngle(b), rotations) == ByteAngle(b)
            <==> b < 250 && Total(rotations) >= Off(angle, ByteAngle(b))
  {
    hide TurnAll, Off, Total;
    SettlesIff(angle, ByteAngle(b), rotations);
    assert ByteAngle(b) == TWO_PI * (b as real / 250.0);
  }

  // ---------------------------------------------------------------- speed

  lemma IntervalDivides(speed: nat)
    requires 0 < speed <= BOOST_SPEED
    ensures speed * Interval(speed) <= 42000 < speed * Interval(speed) + speed
  {
  }

  lemma IntervalAtLeast(speed: nat, cap: nat, ms: nat)
    requires BASE_SPEED <= speed <= cap <= BOOST_SPEED && cap * ms <= 42000
    ensures Interval(speed) >= ms
  {
    hide Interval;
    IntervalDivides(speed);
    var i := Interval(speed);
    if i < ms {
      ProductAtMost(speed, cap, i + 1, ms);
      assert false;
    }
  }

  lemma ProductAtMost(a: nat, b: nat, c: nat, d: nat)
    requires a <= b && c <= d
    ensures a * c <= b * d
  {
    assert b * d - a * c == (b - a) * d + a * (d - c);
  }

  /** With a fixed target, three moves of at least one interval each are enough, without overshoot. */
  lemma SpeedSettles(s0: nat, wanted: nat, d0: nat, d1: nat, d2: nat)
    requires BASE_SPEED <= s0 <= BOOST_SPEED && wanted in {BASE_SPEED, BOOST_SPEED}
    requires d0 >= Interval(s0)
    requires d1 >= Interval(Approach(s0, wanted, d0))
    requires d2 >= Interval(Approach(Approach(s0, wanted, d0), wanted, d1))
    ensures Approach(Approach(Approach(s0, wanted, d0), wanted, d1), wanted, d2) == wanted
  {
    hide Interval;
    var s1 := Approach(s0, wanted, d0);
    var s2 := Approach(s1, wanted, d1);
    if wanted == BASE_SPEED {
      assert s1 <= 355;
      IntervalAtLeast(s1, 355, 118);
      assert s2 <= 237;
      IntervalAtLeast(s2, 237, 177);
    }
  }

  /** Two moves are not always enough. */
  lemma SpeedNeedsThree()
    ensures Interval(448) == 93 && Interval(355) == 118
    ensures Approach(Approach(448, 185, 93), 185, 118) == 237
  {
  }

  // ---------------------------------------------------------------- in a tick

  /** The rotation a tick of dt is worth to this snake. */
  function Worth(s: SnakeState, dt: nat): real {
    if s.angle == s.wangle || s.rot + dt < ROT_INTERVAL then 0.0 else Rotation((s.rot + dt) / ROT_INTERVAL)
  }

  lemma RotateCloses(s: SnakeState, dt: nat)
    ensures Off(Rotate(s, dt).s.angle, s.wangle) == Max0(Off(s.angle, s.wangle) - Worth(s, dt))
    ensures Rotate(s, dt).changed ==> 0.0 <= Rotate(s, dt).s.angle < TWO_PI
  {
    hide Turn, TurnLeft, Off, Rotation;
    OffNonNegative(s.angle, s.wangle);
    if Worth(s, dt) != 0.0 || Rotate(s, dt).changed {
      RotationPositive((s.rot + dt) / ROT_INTERVAL);
      TurnCloses(s.angle, s.wangle, Rotation((s.rot + dt) / ROT_INTERVAL));
    }
  }

  lemma RotationPositive(frames: nat)
    ensures Rotation(frames) >= 0.0
  {
  }

  /** One tick of a player: its target stays, the distance to it falls by exactly the rotation the tick is worth
      or to zero, and if it moves, its speed approaches the wanted one by at least one move interval's worth. */
  lemma TickControls(s: SnakeState, food: FoodMap, dt: nat, inp: Input)
    requires FoodOk(food) && Sane(s) && Quiet(s) && !s.bot
    ensures var t := Tick(s, food, dt, inp).s;
            && t.wangle == s.wangle && Off(t.angle, t.wangle) == Max0(Off(s.angle, s.wangle) - Worth(s, dt))
            && (!Moves(s, dt) ==> t.speed == s.speed)
            && (Moves(s, dt) ==>
                  exists acc: nat :: acc >= Interval(s.speed) && t.speed == Approach(s.speed, Wanted(t), acc))
  {
    hide Tick, Rotate, Off, Worth, Interval, FoodOk, BurnPhase, EatPhase, AdvancePhase;
    RotateCloses(s, dt);
    RotateFrame(s, dt);
    AimedFrame(s, dt, inp);
    if Moves(s, dt) {
      TickMoving(s, food, dt, inp);
      MovingFrame(Aimed(s, dt, inp), food, dt, inp.dir);
      WholeInterval(s, dt);
      var t, acc := Tick(s, food, dt, inp).s, Frames(s, dt) * Interval(s.speed);
      assert t.speed == Approach(s.speed, Wanted(t), acc);
    } else {
      TickStill(s, food, dt, inp);
    }
  }

  lemma MovingFrame(a: SnakeState, food: FoodMap, dt: nat, dir: Geometry.Body)
    requires FoodOk(food) && 0 < a.speed <= BOOST_SPEED && a.parts != []
    ensures var o := BurnPhase(a, food, dt, dir).s; o.angle == a.angle && o.wangle == a.wangle && o.rot == a.rot
  {
    hide EatFood, Burn, FoodOk, Distance, Advance;
    EatFrame(SnakeModel.Pair(AdvancePhase(a, dt, dir), food));
    BurnFrame(EatPhase(a, food, dt, dir));
    AdvanceKeepsAngle(a.(mov := a.mov + dt), Distance(a.speed, Frames(a, dt)), dir);
  }

  lemma AdvanceKeepsAngle(s: SnakeState, dist: real, dir: Geometry.Body)
    requires s.parts != []
    ensures Advance(s, dist, dir).angle == s.angle && Advance(s, dist, dir).wangle == s.wangle
    ensures Advance(s, dist, dir).rot == s.rot
  {
  }

  lemma WholeInterval(s: SnakeState, dt: nat)
    requires 0 < s.speed <= BOOST_SPEED && Moves(s, dt)
    ensures Frames(s, dt) * Interval(s.speed) >= Interval(s.speed)
  {
    hide Interval;
    var f, i := Frames(s, dt), Interval(s.speed);
    assert f >= 1;
    assert f * i == i + (f - 1) * i;
  }

  /** A player that wants an angle outside [0, 2 PI) never rests: from a normalized angle every tick that completes
      a rotation interval reports a turn, no other tick does, and the situation is the same again afterwards. */
  lemma TickRestless(s: SnakeState, food: FoodMap, dt: nat, inp: Input)
    requires FoodOk(food) && Sane(s) && Quiet(s) && !s.bot
    requires 0.0 <= s.angle < TWO_PI && !(0.0 <= s.wangle < TWO_PI)
    ensures var t := Tick(s, food, dt, inp);
            && (t.s.flags.angle <==> s.rot + dt >= ROT_INTERVAL) && (t.s.flags.angle ==> t.changed)
            && t.s.rot == (s.rot + dt) % ROT_INTERVAL
            && 0.0 <= t.s.angle < TWO_PI && t.s.wangle == s.wangle
  {
    hide Tick, Off, Worth, Interval, FoodOk, BurnPhase, EatPhase, AdvancePhase, Turn;
    RotateCloses(s, dt);
    AimedFrame(s, dt, inp);
    if Moves(s, dt) {
      TickMoving(s, food, dt, inp);
      MovingFrame(Aimed(s, dt, inp), food, dt, inp.dir);
    } else {
      TickStill(s, food, dt, inp);
    }
  }

  // ---------------------------------------------------------------- bots

  /** Where a bot steers: more than a second after its last decision it wants, to within 0.01, the normalized angle a
      quarter circle on from the bearing of its head as seen from the middle of the map; until then nothing changes. */
  lemma SteerClose(s: SnakeState, dt: nat, atan2: Atan2) returns (k: int)
    requires s.bot
    ensures var r, due := Steer(s, dt, atan2), s.ai + dt > 1000;
            var want := atan2(Head(s).y - 21600.0, Head(s).x - 21600.0) + PI / 2.0 - TWO_PI * k as real;
            && 0.0 <= want < TWO_PI
            && r.ai == (if due then (s.ai + dt) % 1000 else s.ai + dt)
            && (due ==> -0.01 <= r.wangle - want <= 0.01)
            && (r.wangle != s.wangle ==> due && r.wangle == want && r.flags.wangle)
  {
    hide Normalize;
    var bearing := atan2(Head(s).y - 21600.0, Head(s).x - 21600.0) + PI / 2.0;
    k := NormalizeTurns(bearing);
    NormalizeRange(bearing);
  }
}
