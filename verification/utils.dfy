/**
 * Arithmetic helpers of the firmware: the clamp of main/Trajectory.cpp (Arduino's
 * `constrain` has the same meaning), Arduino's integer `map`, and the inline helpers
 * of main/Utils.h.
 */
module Utils {

  function Abs(x: real): (r: real)
    ensures r >= 0.0 && (r == x || r == -x)
  {
    if x > 0.0 then x else -x
  }

  function Min(a: real, b: real): (r: real)
    ensures r <= a && r <= b && (r == a || r == b)
  {
    if a < b then a else b
  }

  function Max(a: real, b: real): (r: real)
    ensures r >= a && r >= b && (r == a || r == b)
  {
    if a < b then b else a
  }

  /** Bound a value to [lo, hi], testing the lower bound first. */
  function Clamp(v: real, lo: real, hi: real): (r: real)
    ensures v < lo ==> r == lo
    ensures lo <= v <= hi ==> r == v
    ensures lo <= hi ==> lo <= r <= hi
    ensures lo <= hi && v > hi ==> r == hi
  {
    if v < lo then lo else if v > hi then hi else v
  }

  /** A second clamp to the same bounds changes nothing. */
  lemma ClampIdempotent(v: real, lo: real, hi: real)
    requires lo <= hi
    ensures Clamp(Clamp(v, lo, hi), lo, hi) == Clamp(v, lo, hi)
  {
  }

  /** C integer division, which truncates toward zero. */
  function TruncDiv(a: int, b: int): (q: int)
    requires b != 0
    ensures a >= 0 && b > 0 ==> q == a / b
    ensures (a >= 0) == (b > 0) || a == 0 ==> q >= 0
    ensures (a >= 0) != (b > 0) ==> q <= 0
    ensures IntAbs(q) == IntAbs(a) / IntAbs(b)
    ensures IntAbs(a - b * q) < IntAbs(b)
    ensures a - b * q == 0 || (a - b * q < 0) == (a < 0)
  {
    var m := IntAbs(a) / IntAbs(b);
    var q := if (a >= 0) == (b > 0) then m else -m;
    TruncRemainder(a, b, m, q);
    q
  }

  /** The remainder left by the truncated quotient is the magnitude's remainder, with the sign of `a`. */
  lemma TruncRemainder(a: int, b: int, m: int, q: int)
    requires b != 0 && m == IntAbs(a) / IntAbs(b) && q == (if (a >= 0) == (b > 0) then m else -m)
    ensures a - b * q == (if a < 0 then -(IntAbs(a) % IntAbs(b)) else IntAbs(a) % IntAbs(b))
    ensures IntAbs(a - b * q) < IntAbs(b)
    ensures a - b * q == 0 || (a - b * q < 0) == (a < 0)
    ensures m >= 0
  {
    var sa, sb := IntAbs(a), IntAbs(b);
    var p := sb * m;
    var r := sa % sb;
    assert sa == p + r && 0 <= r < sb;
    if m < 0 {
      MulAtLeast(sb, -m);
    }
    if b > 0 {
      assert b * m == p;
    } else {
      assert b * m == -p;
    }
  }

  /** The magnitude of an integer. */
  function IntAbs(x: int): (r: nat)
    ensures r == x || r == -x
  {
    if x < 0 then -x else x
  }

  /**
   * Arduino's `map(x, in_min, in_max, out_min, out_max)` on `long` operands:
   * (x - in_min) * (out_max - out_min) / (in_max - in_min) + out_min, with a truncating division.
   */
  function ArduinoMap(x: int, inMin: int, inMax: int, outMin: int, outMax: int): (r: int)
    requires inMin != inMax
    ensures x == inMin ==> r == outMin
  {
    TruncDiv((x - inMin) * (outMax - outMin), inMax - inMin) + outMin
  }

  lemma ArduinoMapAtMax(inMin: int, inMax: int, outMin: int, outMax: int)
    requires inMin != inMax
    ensures ArduinoMap(inMax, inMin, inMax, outMin, outMax) == outMax
  {
    TruncDivExact(outMax - outMin, inMax - inMin);
  }

  /** With an increasing input range and a non-decreasing output range, inputs in range map into range. */
  lemma {:induction false} ArduinoMapWithin(x: int, inMin: int, inMax: int, outMin: int, outMax: int)
    requires inMin < inMax && inMin <= x <= inMax && outMin <= outMax
    ensures outMin <= ArduinoMap(x, inMin, inMax, outMin, outMax) <= outMax
  {
    var d := inMax - inMin;
    var w := outMax - outMin;
    MulMonotone(x - inMin, d, w);
    DivBounded((x - inMin) * w, d, w);
  }

  lemma TruncDivExact(k: int, d: int)
    requires d != 0
    ensures TruncDiv(d * k, d) == k
  {
    var b := if d < 0 then -d else d;
    var m := if k < 0 then -k else k;
    assert (if d * k < 0 then -(d * k) else d * k) == b * m;
    DivMulExact(m, b);
  }

  lemma DivMulExact(m: nat, b: int)
    requires b > 0
    ensures (b * m) / b == m
  {
    var n := b * m;
    var q, r := n / b, n % b;
    assert n == b * q + r && 0 <= r < b;
    var e := m - q;
    assert b * e == r by {
      assert b * e == b * m - b * q;
    }
    if e >= 1 {
      MulAtLeast(b, e);
    } else if e <= -1 {
      MulAtLeast(b, -e);
    }
  }

  lemma MulAtLeast(b: int, e: int)
    requires b > 0 && e >= 1
    ensures b * e >= b
  {
    assert b * e == b * (e - 1) + b;
  }

  lemma MulMonotone(a: int, b: int, c: int)
    requires 0 <= a <= b && c >= 0
    ensures 0 <= a * c <= b * c
  {
  }

  lemma DivBounded(n: int, d: int, k: int)
    requires d > 0 && 0 <= n <= d * k
    ensures 0 <= n / d <= k
  {
  }

  /** main/Utils.h `mapFloat`: the affine map sending in_min to out_min and in_max to out_max. */
  function MapFloat(x: int, inMin: int, inMax: int, outMin: real, outMax: real): (r: real)
    requires inMin != inMax
    ensures x == inMin ==> r == outMin
    ensures x == inMax ==> r == outMax
  {
    (x - inMin) as real * (outMax - outMin) / (inMax - inMin) as real + outMin
  }

  /** `mapFloat` is affine: differences of outputs are proportional to differences of inputs. */
  lemma {:induction false} MapFloatAffine(x: int, y: int, inMin: int, inMax: int, outMin: real, outMax: real)
    requires inMin != inMax
    ensures MapFloat(x, inMin, inMax, outMin, outMax) - MapFloat(y, inMin, inMax, outMin, outMax)
         == (x - y) as real * ((outMax - outMin) / (inMax - inMin) as real)
  {
    var s := (outMax - outMin) / (inMax - inMin) as real;
    assert (x - inMin) as real * (outMax - outMin) / (inMax - inMin) as real == (x - inMin) as real * s;
    assert (y - inMin) as real * (outMax - outMin) / (inMax - inMin) as real == (y - inMin) as real * s;
  }

  /** Arduino.h's DEG_TO_RAD and RAD_TO_DEG literals. */
  const DegToRad: real := 0.017453292519943295769236907684886
  const RadToDeg: real := 57.295779513082320876798154814105

  function Degrees2Rad(deg: real): (r: real)
    ensures deg == 0.0 ==> r == 0.0
    ensures (r > 0.0) == (deg > 0.0) && (r < 0.0) == (deg < 0.0)
  {
    deg * DegToRad
  }

  function Rad2Degrees(rad: real): (r: real)
    ensures rad == 0.0 ==> r == 0.0
    ensures (r > 0.0) == (rad > 0.0) && (r < 0.0) == (rad < 0.0)
  {
    rad * RadToDeg
  }

  /** The two conversions undo each other up to the rounding of the two literals. */
  lemma DegreesRoundTrip(deg: real)
    ensures Abs(Rad2Degrees(Degrees2Rad(deg)) - deg) <= Abs(deg) / 1000000000000000000000000000.0
  {
    var p := DegToRad * RadToDeg;
    assert Rad2Degrees(Degrees2Rad(deg)) == deg * p;
    assert 1.0 - 1.0 / 1000000000000000000000000000.0 <= p <= 1.0 + 1.0 / 1000000000000000000000000000.0;
    if deg >= 0.0 {
      assert deg * p - deg == deg * (p - 1.0);
    } else {
      assert deg * p - deg == deg * (p - 1.0);
    }
  }

  /** The controller's `unsigned long` difference of two `millis()` readings (32-bit wrap). */
  const U32Modulus: int := 0x1_0000_0000

  function ElapsedU32(now: nat, since: nat): (d: nat)
    ensures d < U32Modulus
    ensures since <= now < since + U32Modulus ==> d == now - since
  {
    (now - since) % U32Modulus
  }
}
