/** Rounding float64 operations to nearest, over the reals: its relative error, and that it keeps numbers that
    are more than one apart apart. */
module Rounding {

  function Distance(x: real, y: real): real {
    if x < y then y - x else x - y
  }

  /** Zero, and the magnitudes from 2^-32 to 2^63, in which the exact result of every operation lies for
      sides and limits up to 2^31: none of them overflows or underflows. */
  predicate InRange(x: real) {
    x == 0.0 || (1.0 <= x * 4294967296.0 && x <= 9223372036854775808.0)
  }

  function Pow2(k: nat): (r: int)
    ensures r >= 1
  {
    if k == 0 then 1 else 2 * Pow2(k - 1)
  }

  predicate ScaledDown(x: real, m: nat, k: nat) {
    x * Pow2(k) as real == m as real
  }

  predicate ScaledUp(x: real, m: nat, k: nat) {
    x == (m * Pow2(k)) as real
  }

  /** A float64 that is not negative: a significand of up to 53 bits times a power of two. For values in range
      the exponents of the format suffice. */
  ghost predicate IsDouble(x: real) {
    exists m: nat, k: nat :: m <= 9007199254740992 && (ScaledDown(x, m, k) || ScaledUp(x, m, k))
  }

  /** No float64 is closer to `x`. */
  ghost predicate IsNearest(y: real, x: real) {
    IsDouble(y) && forall z :: IsDouble(z) ==> Distance(y, x) <= Distance(z, x)
  }

  /** Each operation rounds to nearest, section 4.3.1 of IEEE 754-2019, with ties either way. */
  ghost predicate IsRounding(fl: real -> real) {
    forall x :: InRange(x) ==> IsNearest(fl(x), x)
  }

  ghost predicate IsExact(fl: real -> real) {
    forall x :: fl(x) == x
  }

  // ---- real arithmetic ----

  lemma Mul(a: real, b: real, c: real)
    requires a <= b && 0.0 <= c
    ensures a * c <= b * c
  {
  }

  lemma MulAs(a: real, b: real, c: real, ac: real, bc: real)
    requires a <= b && 0.0 <= c && ac == a * c && bc == b * c
    ensures ac <= bc
  {
    Mul(a, b, c);
  }

  lemma Cancel(a: real, b: real, c: real)
    requires a * c <= b * c && 0.0 < c
    ensures a <= b
  {
  }

  lemma CancelStrict(a: real, b: real, c: real)
    requires a * c < b * c && 0.0 < c
    ensures a < b
  {
    if b <= a {
      Mul(b, a, c);
    }
  }

  lemma QuotientIs(a: real, b: real) returns (q: real)
    requires 0.0 <= a && 0.0 < b
    ensures q == a / b && q * b == a && 0.0 <= q && (a > 0.0 ==> q > 0.0)
  {
    q := a / b;
    assert q * b == a;
    if q < 0.0 {
      Mul(q, 0.0, b);
    }
  }

  // Up to one rounding, that is a factor of 1 - 2^-53 below and of 1 + 2^-53 above.

  predicate AtLeast(y: real, x: real) {
    x * 9007199254740991.0 <= y * 9007199254740992.0
  }

  predicate AtMost(y: real, x: real) {
    y * 9007199254740992.0 <= x * 9007199254740993.0
  }

  predicate Near(y: real, x: real) {
    AtLeast(y, x) && AtMost(y, x)
  }

  // ---- rounding to nearest ----

  lemma IntegerIsDouble(n: nat)
    requires n <= 9007199254740992
    ensures IsDouble(n as real)
  {
    assert ScaledDown(n as real, n, 0);
  }

  /** The same number with its significand shifted by one place, if `x` is twice `y`. */
  lemma Shift(x: real, y: real, p: real, p': real)
    requires x == 2.0 * y && p' == 2.0 * p
    ensures y * p' == x * p
  {
    assert y * p' == y * 2.0 * p;
  }

  lemma HalfOfDown(x: real, y: real, m: nat, k: nat)
    requires ScaledDown(x, m, k) && x == 2.0 * y
    ensures ScaledDown(y, m, k + 1)
  {
    Shift(x, y, Pow2(k) as real, Pow2(k + 1) as real);
  }

  lemma HalfOfUp(x: real, y: real, m: nat, k: nat)
    requires ScaledUp(x, m, k) && x == 2.0 * y
    ensures if k == 0 then ScaledDown(y, m, 1) else ScaledUp(y, m, k - 1)
  {
    if k == 0 {
      assert Pow2(0) == 1 && Pow2(1) == 2;
    } else {
      PowProduct(m, k - 1);
    }
  }

  lemma HalfIsDouble(x: real, y: real)
    requires IsDouble(x) && x == 2.0 * y
    ensures IsDouble(y)
  {
    var m: nat, k: nat :| m <= 9007199254740992 && (ScaledDown(x, m, k) || ScaledUp(x, m, k));
    hide ScaledDown, ScaledUp, Pow2;
    if ScaledDown(x, m, k) {
      HalfOfDown(x, y, m, k);
    } else {
      HalfOfUp(x, y, m, k);
    }
  }

  lemma PowProduct(m: nat, k: nat)
    ensures m * Pow2(k + 1) == 2 * (m * Pow2(k))
  {
    var p := Pow2(k);
    assert m * (2 * p) == 2 * (m * p);
  }

  lemma TwiceUp(x: real, y: real, m: nat, k: nat)
    requires ScaledUp(y, m, k) && x == 2.0 * y
    ensures ScaledUp(x, m, k + 1)
  {
    PowProduct(m, k);
  }

  lemma TwiceDown(x: real, y: real, m: nat, k: nat)
    requires ScaledDown(y, m, k) && x == 2.0 * y
    ensures if k == 0 then ScaledUp(x, m, 1) else ScaledDown(x, m, k - 1)
  {
    if k == 0 {
      assert Pow2(0) == 1 && Pow2(1) == 2;
    } else {
      Shift(x, y, Pow2(k - 1) as real, Pow2(k) as real);
    }
  }

  lemma TwiceIsDouble(x: real, y: real)
    requires IsDouble(y) && x == 2.0 * y
    ensures IsDouble(x)
  {
    var m: nat, k: nat :| m <= 9007199254740992 && (ScaledDown(y, m, k) || ScaledUp(y, m, k));
    hide ScaledDown, ScaledUp, Pow2;
    if ScaledUp(y, m, k) {
      TwiceUp(x, y, m, k);
    } else {
      TwiceDown(x, y, m, k);
    }
  }

  lemma OneLessDown(x: real, m: nat, k: nat) returns (n: nat)
    requires ScaledDown(x, m, k) && 1.0 <= x
    ensures n <= m && ScaledDown(x - 1.0, n, k)
  {
    var p := Pow2(k) as real;
    Mul(1.0, x, p);
    assert 1.0 * p == p && (x - 1.0) * p == x * p - p;
    n := m - Pow2(k);
  }

  lemma OneLessUp(x: real, m: nat, k: nat)
    requires ScaledUp(x, m, k) && 1.0 <= x <= 9007199254740992.0
    ensures IsDouble(x - 1.0)
  {
    var n := m * Pow2(k);
    IntegerIsDouble(n - 1);
  }

  /** The float64 numbers from one on are spaced so that taking one off leads to another. */
  lemma OneLessIsDouble(x: real)
    requires IsDouble(x) && 1.0 <= x <= 9007199254740992.0
    ensures IsDouble(x - 1.0)
  {
    var m: nat, k: nat :| m <= 9007199254740992 && (ScaledDown(x, m, k) || ScaledUp(x, m, k));
    hide ScaledDown, ScaledUp, Pow2;
    if ScaledDown(x, m, k) {
      var n := OneLessDown(x, m, k);
    } else {
      OneLessUp(x, m, k);
    }
  }

  predicate IsClose(y: real, x: real) {
    Distance(y, x) * 9007199254740992.0 <= x
  }

  /** From 2^52 on every float64 is an integer. */
  lemma LargeIsIntegral(z: real) returns (n: int)
    requires IsDouble(z) && 4503599627370496.0 <= z
    ensures z == n as real
  {
    var m: nat, k: nat :| m <= 9007199254740992 && (ScaledDown(z, m, k) || ScaledUp(z, m, k));
    if ScaledUp(z, m, k) {
      n := m * Pow2(k);
    } else if k == 0 {
      n := m;
    } else {
      n := 4503599627370496;
      AtMostHalved(z, Pow2(k), m);
    }
  }

  lemma AtMostHalved(z: real, p: int, m: int)
    requires z * p as real == m as real && m <= 9007199254740992 && 4503599627370496.0 <= z && p >= 2
    ensures z == 4503599627370496.0
  {
    var r := p as real;
    Mul(4503599627370496.0, z, r);
    assert p <= 2;
  }

  lemma ClosestInteger(x: real, n: int, i: int)
    requires n == (x + 0.5).Floor
    ensures Distance(n as real, x) <= 0.5 && Distance(n as real, x) <= Distance(i as real, x)
  {
    if i < n {
      assert i as real <= n as real - 1.0;
    } else if i > n {
      assert i as real >= n as real + 1.0;
    }
  }

  /** With 53 binary places the nearest float64 is the nearest integer. */
  lemma NearestInteger(x: real) returns (y: real)
    requires 4503599627370496.0 <= x <= 9007199254740992.0
    ensures IsNearest(y, x) && IsClose(y, x)
  {
    var n := (x + 0.5).Floor;
    ClosestInteger(x, n, 4503599627370496);
    IntegerIsDouble(n);
    y := n as real;
    hide IsDouble;
    forall z | IsDouble(z)
      ensures Distance(y, x) <= Distance(z, x)
    {
      if 4503599627370496.0 <= z {
        var i := LargeIsIntegral(z);
        ClosestInteger(x, n, i);
      }
    }
  }

  lemma NearestHalf(y: real, x: real)
    requires IsNearest(2.0 * y, 2.0 * x)
    ensures IsNearest(y, x)
  {
    hide IsDouble;
    HalfIsDouble(2.0 * y, y);
    forall z | IsDouble(z)
      ensures Distance(y, x) <= Distance(z, x)
    {
      TwiceIsDouble(2.0 * z, z);
      assert Distance(2.0 * y, 2.0 * x) <= Distance(2.0 * z, 2.0 * x);
    }
  }

  lemma NearestTwice(y: real, x: real)
    requires IsNearest(y, x)
    ensures IsNearest(2.0 * y, 2.0 * x)
  {
    hide IsDouble;
    TwiceIsDouble(2.0 * y, y);
    forall z | IsDouble(z)
      ensures Distance(2.0 * y, 2.0 * x) <= Distance(z, 2.0 * x)
    {
      HalfIsDouble(z, z / 2.0);
      assert Distance(y, x) <= Distance(z / 2.0, x);
    }
  }

  lemma {:induction false} NearestAbove(x: real) returns (y: real)
    requires 4503599627370496.0 <= x
    ensures IsNearest(y, x) && IsClose(y, x)
    decreases x.Floor
  {
    hide IsNearest;
    if x <= 9007199254740992.0 {
      y := NearestInteger(x);
    } else {
      var half := NearestAbove(x / 2.0);
      y := 2.0 * half;
      NearestTwice(half, x / 2.0);
    }
  }

  lemma Doubled(x: real, n: real, n': real)
    requires 0.0 < x < 4503599627370496.0 <= x * n && n <= 2.0 * n'
    ensures n > 1.0 && 4503599627370496.0 <= 2.0 * x * n'
  {
    if n <= 1.0 {
      Mul(n, 1.0, x);
    }
    var d := 2.0 * n';
    Mul(n, d, x);
    assert d * x == 2.0 * x * n' && n * x == x * n;
  }

  /** `n` bounds how far the number is below 53 binary places. */
  lemma {:induction false} NearestBelow(x: real, n: nat) returns (y: real)
    requires 0.0 < x <= 9007199254740992.0 && 4503599627370496.0 <= x * n as real
    ensures IsNearest(y, x) && IsClose(y, x)
    decreases n
  {
    hide IsNearest;
    if 4503599627370496.0 <= x {
      y := NearestInteger(x);
    } else {
      var n' := (n + 1) / 2;
      Doubled(x, n as real, n' as real);
      var twice := NearestBelow(2.0 * x, n');
      y := twice / 2.0;
      NearestHalf(y, x);
    }
  }

  /** Every number in range has a nearest float64, and it is close. */
  lemma NearestExists(x: real) returns (y: real)
    requires InRange(x)
    ensures IsNearest(y, x) && IsClose(y, x)
  {
    if x == 0.0 {
      y := 0.0;
      IntegerIsDouble(0);
    } else if x >= 4503599627370496.0 {
      y := NearestAbove(x);
    } else {
      y := NearestBelow(x, 19342813113834066795298816);
    }
  }

  /** There is an arithmetic that rounds so. */
  lemma RoundingExists() returns (fl: real -> real)
    ensures IsRounding(fl)
  {
    hide IsNearest;
    fl := x => if InRange(x) then SomeNearest(x) else x;
  }

  ghost function SomeNearest(x: real): (y: real)
    requires InRange(x)
    ensures IsNearest(y, x)
  {
    PickNearest(x);
    var y :| IsNearest(y, x); y
  }

  lemma PickNearest(x: real)
    requires InRange(x)
    ensures exists y :: IsNearest(y, x)
  {
    hide IsNearest;
    var y := NearestExists(x);
  }

  /** Rounding to nearest has a relative error of at most 2^-53. */
  lemma Rounds(fl: real -> real, x: real)
    requires IsRounding(fl) && InRange(x)
    ensures IsNearest(fl(x), x) && Near(fl(x), x)
  {
    assert IsNearest(fl(x), x);
    hide IsRounding, IsDouble;
    var y := NearestExists(x);
    assert Distance(fl(x), x) <= Distance(y, x);
  }

  /** A side is converted to float64 without error. */
  lemma ConversionIsExact(fl: real -> real, n: nat)
    requires IsRounding(fl) && n <= 9007199254740992
    ensures fl(n as real) == n as real
  {
    IntegerIsDouble(n);
    assert IsNearest(fl(n as real), n as real);
  }

  /** Rounding keeps the order. */
  lemma NearestInOrder(x: real, y: real, x': real, y': real)
    requires IsNearest(y, x) && IsNearest(y', x') && x < x'
    ensures y <= y'
  {
    hide IsDouble;
    assert Distance(y, x) <= Distance(y', x) && Distance(y', x') <= Distance(y, x');
  }

  /** Numbers more than one apart are rounded to numbers with different integral parts. */
  lemma NearestApart(x: real, y: real, x': real, y': real)
    requires IsNearest(y, x) && IsNearest(y', x') && 0.0 <= x && x + 1.0 < x' <= 4503599627370496.0
    ensures 0.0 <= y && y.Floor + 1 <= y'.Floor
  {
    hide IsDouble;
    IntegerIsDouble(0);
    IntegerIsDouble(1);
    IntegerIsDouble(4503599627370496);
    var n := y.Floor;
    IntegerIsDouble(n);
    IntegerIsDouble(n + 1);
    if y' < n as real + 1.0 {
      assert y == n as real && x < y && x' < n as real + 1.0;
      OneLessIsDouble(y');
    }
  }

  lemma NearTimes(y: real, x: real, c: real)
    requires Near(y, x) && 0.0 <= c
    ensures Near(y * c, x * c)
  {
    Mul(x * 9007199254740991.0, y * 9007199254740992.0, c);
    Mul(y * 9007199254740992.0, x * 9007199254740993.0, c);
  }

  lemma Integral(n: int, m: int)
    requires n as real < m as real + 1.0
    ensures n <= m
  {
  }
}
