/** resizeMax of the image processor: scaling arithmetic, target sizes and the sampling loops. Rounding of
    the float64 operations is a parameter. */
module Resize {
  import opened Rounding

  const MAX_SIDE: int := 0x8000_0000

  predicate Fits(srcW: int, srcH: int, maxW: int, maxH: int) {
    srcW <= maxW && srcH <= maxH
  }

  function Quotient(fl: real -> real, max: int, src: int): real
    requires src > 0
  {
    fl(max as real / src as real)
  }

  /** The smaller quotient; a quotient by an empty side is infinite, so the other one is smaller. */
  function Ratio(fl: real -> real, srcW: int, srcH: int, maxW: int, maxH: int): real
    requires srcW >= 0 && srcH >= 0 && (srcW > 0 || srcH > 0)
  {
    if srcW == 0 then Quotient(fl, maxH, srcH)
    else if srcH == 0 then Quotient(fl, maxW, srcW)
    else
      var ratioW := Quotient(fl, maxW, srcW);
      var ratioH := Quotient(fl, maxH, srcH);
      if ratioH < ratioW then ratioH else ratioW
  }

  /** The height is the axis that binds: its limit asks for the smaller ratio. */
  predicate HeightBinds(srcW: int, srcH: int, maxW: int, maxH: int) {
    maxH * srcW < maxW * srcH
  }

  /** Conversion to int truncates toward zero. */
  function Truncate(x: real): int {
    if x < 0.0 then -(-x).Floor else x.Floor
  }

  function Scaled(fl: real -> real, src: int, ratio: real): int {
    Truncate(fl(src as real * ratio))
  }

  function Target(fl: real -> real, src: int, ratio: real): int {
    if Scaled(fl, src, ratio) < 1 then 1 else Scaled(fl, src, ratio)
  }

  /** The source index before the clamp. */
  function Sampled(fl: real -> real, i: int, ratio: real): int
    requires ratio != 0.0
  {
    Truncate(fl(i as real / ratio))
  }

  function Clamp(i: int, src: int): int {
    if i >= src then src - 1 else i
  }

  /** The source index a target index is filled from. */
  function Source(fl: real -> real, i: int, ratio: real, src: int): int
    requires ratio != 0.0
  {
    Clamp(Sampled(fl, i, ratio), src)
  }

  /** Sides the code is used with: at least one pixel, at most 2^31, and a limit exceeded. */
  predicate Shrinks(srcW: int, srcH: int, maxW: int, maxH: int) {
    && 1 <= srcW <= MAX_SIDE && 1 <= srcH <= MAX_SIDE
    && 1 <= maxW <= MAX_SIDE && 1 <= maxH <= MAX_SIDE
    && !Fits(srcW, srcH, maxW, maxH)
  }

  /** An image with one side empty and the other over its limit. */
  predicate Thin(srcW: int, srcH: int, maxW: int, maxH: int) {
    && 1 <= maxW <= MAX_SIDE && 1 <= maxH <= MAX_SIDE
    && ((srcW == 0 && maxH < srcH <= MAX_SIDE) || (srcH == 0 && maxW < srcW <= MAX_SIDE))
  }

  /** From 2^-32 to (1 - 2^-31) times (1 + 2^-53): where the ratios lie. */
  predicate BelowOne(r: real) {
    && 1.0 <= r * 4294967296.0
    && r * 19342813113834066795298816.0 <= 19342813104826869688041471.0
  }

  // ---- the ratio ----

  /** The rounded quotient of a limit by a side, times that side, is the limit up to one rounding. */
  lemma QuotientTimes(fl: real -> real, max: int, src: int)
    requires IsRounding(fl) && 1 <= max <= MAX_SIDE && 1 <= src <= MAX_SIDE
    ensures Near(Quotient(fl, max, src) * src as real, max as real)
    ensures 1.0 <= Quotient(fl, max, src) * 4294967296.0
  {
    var q := QuotientIs(max as real, src as real);
    QuotientInRange(q, max as real, src as real);
    Rounds(fl, q);
    NearTimes(fl(q), q, src as real);
  }

  lemma QuotientInRange(q: real, max: real, src: real)
    requires 1.0 <= max <= 2147483648.0 && 1.0 <= src <= 2147483648.0 && q * src == max && 0.0 <= q
    ensures 1.0 <= q * 2147483648.0 && q <= 2147483648.0
  {
    assert src * q == max;
    assert max <= 2147483648.0 * q by { Mul(src, 2147483648.0, q); }
    assert q <= max by { Mul(1.0, src, q); }
  }

  /** If the side exceeds its limit, the rounded quotient is below one by more than the rounding. */
  lemma QuotientBelowOne(fl: real -> real, max: int, src: int)
    requires IsRounding(fl) && 1 <= max < src <= MAX_SIDE
    ensures BelowOne(Quotient(fl, max, src))
  {
    var q, s := Quotient(fl, max, src), src as real;
    QuotientTimes(fl, max, src);
    hide Quotient, IsRounding;
    var p := q * s;
    assert 1.0 <= q * 4294967296.0;
    assert max as real * 2147483648.0 <= s * 2147483647.0;
    assert p * 19342813113834066795298816.0 <= 19342813104826869688041471.0 * s;
    Cancel(q * 19342813113834066795298816.0, 19342813104826869688041471.0, s);
  }

  /** What the ratio makes of one side: at most its limit, up to one rounding. */
  predicate Scales(r: real, src: int, max: int) {
    && 1 <= src <= MAX_SIDE && 1 <= max <= MAX_SIDE
    && BelowOne(r) && AtMost(r * src as real, max as real)
  }

  /** The side that the ratio takes to its limit, up to one rounding. */
  predicate Binds(r: real, src: int, max: int) {
    AtLeast(r * src as real, max as real)
  }

  /** The quotient of one side that exceeds its limit. */
  lemma OneSide(fl: real -> real, src: int, max: int)
    requires IsRounding(fl) && 1 <= max < src <= MAX_SIDE
    ensures Scales(Quotient(fl, max, src), src, max) && Binds(Quotient(fl, max, src), src, max)
  {
    QuotientTimes(fl, max, src);
    QuotientBelowOne(fl, max, src);
    hide Quotient, IsRounding;
  }

  lemma RatioForm(fl: real -> real, srcW: int, srcH: int, maxW: int, maxH: int)
    requires IsRounding(fl) && Shrinks(srcW, srcH, maxW, maxH)
    ensures var r := Ratio(fl, srcW, srcH, maxW, maxH);
            && Scales(r, srcW, maxW) && Scales(r, srcH, maxH)
            && if HeightBinds(srcW, srcH, maxW, maxH) then Binds(r, srcH, maxH) else Binds(r, srcW, maxW)
  {
    var w, h := Quotient(fl, maxW, srcW), Quotient(fl, maxH, srcH);
    QuotientTimes(fl, maxW, srcW);
    QuotientTimes(fl, maxH, srcH);
    if srcW > maxW {
      QuotientBelowOne(fl, maxW, srcW);
    } else {
      QuotientBelowOne(fl, maxH, srcH);
    }
    QuotientsInOrder(fl, srcW, srcH, maxW, maxH);
    hide Quotient, HeightBinds;
    var r := if h < w then h else w;
    Mul(r, w, srcW as real);
    Mul(r, h, srcH as real);
  }

  lemma CrossProducts(w: real, h: real, srcW: real, srcH: real, maxW: real, maxH: real)
    requires w * srcW == maxW && h * srcH == maxH && 0.0 < srcW && 0.0 < srcH
    ensures h < w <==> maxH * srcW < maxW * srcH
  {
    var c := srcH * srcW;
    MulStrict(0.0, srcH, srcW);
    Reassociate(h, srcH, srcW, maxH, c);
    Reassociate(w, srcW, srcH, maxW, c);
    if h < w {
      MulStrict(h, w, c);
    } else {
      Mul(w, h, c);
    }
  }

  lemma Reassociate(a: real, b: real, c: real, ab: real, bc: real)
    requires ab == a * b && bc == b * c
    ensures ab * c == a * bc
  {
  }

  lemma MulStrict(a: real, b: real, c: real)
    requires a < b && 0.0 < c
    ensures a * c < b * c
  {
    if b * c <= a * c {
      Cancel(b, a, c);
    }
  }

  lemma RealProducts(srcW: int, srcH: int, maxW: int, maxH: int)
    ensures HeightBinds(srcW, srcH, maxW, maxH) <==> maxH as real * srcW as real < maxW as real * srcH as real
  {
    assert (maxH * srcW) as real == maxH as real * srcW as real;
    assert (maxW * srcH) as real == maxW as real * srcH as real;
  }

  /** The rounded quotients are in the order of the exact ones. */
  lemma QuotientsInOrder(fl: real -> real, srcW: int, srcH: int, maxW: int, maxH: int)
    requires IsRounding(fl) && Shrinks(srcW, srcH, maxW, maxH)
    ensures HeightBinds(srcW, srcH, maxW, maxH) ==> Quotient(fl, maxH, srcH) <= Quotient(fl, maxW, srcW)
    ensures !HeightBinds(srcW, srcH, maxW, maxH) ==> Quotient(fl, maxW, srcW) <= Quotient(fl, maxH, srcH)
  {
    var w, h := ExactQuotients(srcW, srcH, maxW, maxH);
    assert Quotient(fl, maxW, srcW) == fl(w) && Quotient(fl, maxH, srcH) == fl(h);
    hide HeightBinds, IsNearest, Quotient;
    Rounds(fl, w);
    Rounds(fl, h);
    if h < w {
      NearestInOrder(h, fl(h), w, fl(w));
    } else if w < h {
      NearestInOrder(w, fl(w), h, fl(h));
    }
  }

  lemma ExactQuotients(srcW: int, srcH: int, maxW: int, maxH: int) returns (w: real, h: real)
    requires Shrinks(srcW, srcH, maxW, maxH)
    ensures w == maxW as real / srcW as real && h == maxH as real / srcH as real
    ensures InRange(w) && InRange(h) && (h < w <==> HeightBinds(srcW, srcH, maxW, maxH))
  {
    w := QuotientIs(maxW as real, srcW as real);
    h := QuotientIs(maxH as real, srcH as real);
    RealProducts(srcW, srcH, maxW, maxH);
    hide HeightBinds;
    CrossProducts(w, h, srcW as real, srcH as real, maxW as real, maxH as real);
    QuotientInRange(w, maxW as real, srcW as real);
    QuotientInRange(h, maxH as real, srcH as real);
  }

  // ---- target sizes ----

  lemma ScaledForm(fl: real -> real, src: int, ratio: real) returns (t: real)
    requires IsRounding(fl) && 1 <= src <= MAX_SIDE && BelowOne(ratio)
    ensures Near(t, ratio * src as real) && t >= 0.0 && Scaled(fl, src, ratio) == t.Floor
  {
    var p := src as real * ratio;
    assert p == ratio * src as real;
    ProductInRange(ratio, src as real, p);
    Rounds(fl, p);
    t := fl(p);
    hide IsRounding;
  }

  lemma ProductInRange(r: real, c: real, p: real)
    requires BelowOne(r) && 1.0 <= c <= 2147483648.0 && p == r * c
    ensures InRange(p)
  {
    MulAs(1.0, c, r, r, p);
    MulAs(r, 1.0, c, p, c);
  }

  lemma ScaledBelow(r: real, c: real, p: real)
    requires BelowOne(r) && 0.0 <= c && p == r * c
    ensures p * 19342813113834066795298816.0 <= c * 19342813104826869688041471.0
  {
    var a := r * 19342813113834066795298816.0;
    Mul(a, 19342813104826869688041471.0, c);
    assert a * c == p * 19342813113834066795298816.0;
  }

  lemma FloorFits(t: real, p: real, src: int, max: int)
    requires Near(t, p) && AtMost(p, max as real) && 0.0 <= t && 1 <= src && 1 <= max <= MAX_SIDE
    requires p * 19342813113834066795298816.0 <= src as real * 19342813104826869688041471.0
    ensures t.Floor <= max && t.Floor <= src
    ensures AtLeast(p, max as real) ==> t.Floor >= max - 1
  {
    var n := t.Floor;
    Integral(n, max);
    Integral(n, src);
    if AtLeast(p, max as real) {
      Integral(max - 1, n);
    }
  }

  lemma ScaledFits(fl: real -> real, src: int, max: int, r: real)
    requires IsRounding(fl) && Scales(r, src, max)
    ensures 0 <= Scaled(fl, src, r) <= max && Scaled(fl, src, r) <= src
    ensures Binds(r, src, max) ==> Scaled(fl, src, r) >= max - 1
  {
    hide Scaled, IsRounding, Near, AtMost, AtLeast;
    var t := ScaledForm(fl, src, r);
    var p := r * src as real;
    ScaledBelow(r, src as real, p);
    FloorFits(t, p, src, max);
  }

  /** Both targets are at least one pixel, at most the limit and at most the source, and on the axis that binds
      the target is the limit or one less. */
  lemma TargetsFit(fl: real -> real, srcW: int, srcH: int, maxW: int, maxH: int)
    requires IsRounding(fl) && Shrinks(srcW, srcH, maxW, maxH)
    ensures var r := Ratio(fl, srcW, srcH, maxW, maxH);
            var w, h := Target(fl, srcW, r), Target(fl, srcH, r);
            && 1 <= w <= maxW && w <= srcW && 1 <= h <= maxH && h <= srcH
            && if maxH * srcW < maxW * srcH then h >= maxH - 1 else w >= maxW - 1
  {
    var r := Ratio(fl, srcW, srcH, maxW, maxH);
    RatioForm(fl, srcW, srcH, maxW, maxH);
    hide Ratio, Scaled, IsRounding;
    ScaledFits(fl, srcW, maxW, r);
    ScaledFits(fl, srcH, maxH, r);
  }

  // ---- sampling ----

  lemma SampledForm(fl: real -> real, i: int, ratio: real) returns (s: real)
    requires IsRounding(fl) && 0 <= i <= MAX_SIDE && BelowOne(ratio)
    ensures s >= 0.0 && Sampled(fl, i, ratio) == s.Floor && Near(s * ratio, i as real)
  {
    var q := QuotientIs(i as real, ratio);
    assert Sampled(fl, i, ratio) == Truncate(fl(q));
    hide Sampled;
    SampleInRange(q, i as real, ratio);
    Rounds(fl, q);
    hide IsRounding, IsNearest;
    s := fl(q);
    NearTimes(s, q, ratio);
  }

  /** The exact quotient `q`, and `s`, the float64 it is rounded to. */
  lemma NearestSample(fl: real -> real, i: int, r: real) returns (q: real, s: real)
    requires IsRounding(fl) && 0 <= i <= MAX_SIDE && BelowOne(r)
    ensures q * r == i as real && 0.0 <= q && IsNearest(s, q)
    ensures 0.0 <= s ==> Sampled(fl, i, r) == s.Floor
  {
    q := QuotientIs(i as real, r);
    SampleInRange(q, i as real, r);
    hide IsNearest;
    Rounds(fl, q);
    s := fl(q);
  }

  lemma SampleInRange(q: real, i: real, r: real)
    requires BelowOne(r) && q * r == i && 0.0 <= q && (i == 0.0 || 1.0 <= i <= 2147483648.0)
    ensures InRange(q)
  {
    var scaled, rq := r * 4294967296.0, r * q;
    assert rq == i;
    Mul(r, 1.0, q);
    assert 1.0 * q == q && i <= q;
    Mul(1.0, scaled, q);
    assert scaled * q == rq * 4294967296.0;
    assert q <= i * 4294967296.0;
  }

  /** The clamp never fires: the sampled index is inside the source. */
  lemma SampledInBounds(fl: real -> real, src: int, max: int, r: real, i: int)
    requires IsRounding(fl) && Scales(r, src, max) && 0 <= i < Target(fl, src, r)
    ensures 0 <= Sampled(fl, i, r) < src
  {
    var t := ScaledForm(fl, src, r);
    var s := SampledForm(fl, i, r);
    hide Scaled, Sampled, IsRounding;
    var p, sr := r * src as real, s * r;
    assert p > 0.0 by { Mul(0.0, r, src as real); }
    assert i > 0 ==> i as real + 1.0 <= t;
    assert sr < p;
    Below(s, src as real, r, sr, p);
  }

  lemma Below(s: real, c: real, r: real, sr: real, p: real)
    requires sr == s * r && p == r * c && sr < p && 0.0 < r
    ensures s < c
  {
    assert c * r == p;
    CancelStrict(s, c, r);
  }

  /** Where a target index samples: at the source index in proportion, rounded down, but for the rounding. With `src`
      and `max` of the axis that binds, that is i * src / max, up to a factor of (2^53 + 1) / (2^53 - 1). */
  lemma SampledInProportion(fl: real -> real, srcW: int, srcH: int, maxW: int, maxH: int, i: int)
    requires IsRounding(fl) && Shrinks(srcW, srcH, maxW, maxH) && 0 <= i <= MAX_SIDE
    ensures var r := Ratio(fl, srcW, srcH, maxW, maxH);
            var src, max := if maxH * srcW < maxW * srcH then srcH else srcW,
                            if maxH * srcW < maxW * srcH then maxH else maxW;
            && r != 0.0
            && Sampled(fl, i, r) * max * 9007199254740991 <= i * src * 9007199254740993
            && i * src * 9007199254740991 <= (Sampled(fl, i, r) + 1) * max * 9007199254740993
  {
    var r := Ratio(fl, srcW, srcH, maxW, maxH);
    RatioForm(fl, srcW, srcH, maxW, maxH);
    hide Ratio, Sampled, IsRounding, Scales, Binds;
    if maxH * srcW < maxW * srcH {
      SampleOnAxis(fl, r, i, srcH, maxH);
    } else {
      SampleOnAxis(fl, r, i, srcW, maxW);
    }
  }

  lemma SampleOnAxis(fl: real -> real, r: real, i: int, src: int, max: int)
    requires IsRounding(fl) && Scales(r, src, max) && Binds(r, src, max) && 0 <= i <= MAX_SIDE
    ensures r != 0.0
    ensures Sampled(fl, i, r) * max * 9007199254740991 <= i * src * 9007199254740993
    ensures i * src * 9007199254740991 <= (Sampled(fl, i, r) + 1) * max * 9007199254740993
  {
    var s := SampledForm(fl, i, r);
    hide Sampled, IsRounding;
    Proportion(s.Floor, s, r, i, src, max);
  }

  lemma Proportion(n: int, s: real, r: real, i: int, src: int, max: int)
    requires n == s.Floor && 0.0 <= s && 0.0 < r && 0 <= i && 1 <= src && 1 <= max
    requires Near(s * r, i as real) && Near(r * src as real, max as real)
    ensures n * max * 9007199254740991 <= i * src * 9007199254740993
    ensures i * src * 9007199254740991 <= (n + 1) * max * 9007199254740993
  {
    var q := r * src as real;
    TimesSide(s, r, i, src, q);
    FloorTimes(n, s, q, max, s * q);
    Chained(n * max, (n + 1) * max, i * src, s * q);
  }

  lemma Chained(a: int, b: int, c: int, x: real)
    requires a as real * 9007199254740991.0 <= x * 9007199254740992.0 <= b as real * 9007199254740993.0
    requires Near(x, c as real)
    ensures a * 9007199254740991 <= c * 9007199254740993 && c * 9007199254740991 <= b * 9007199254740993
  {
  }

  lemma TimesSide(s: real, r: real, i: int, src: int, q: real)
    requires Near(s * r, i as real) && q == r * src as real && 0 <= i && 1 <= src
    ensures Near(s * q, (i * src) as real)
  {
    var p, c := s * r, src as real;
    NearTimes(p, i as real, c);
    Reassociate(s, r, c, p, q);
    IntProduct(i, src, i as real * c);
  }

  lemma IntProduct(a: int, b: int, ab: real)
    requires ab == a as real * b as real
    ensures (a * b) as real == ab
  {
  }

  lemma FloorProducts(n: int, s: real, max: int)
    requires n == s.Floor && 1 <= max
    ensures (n * max) as real <= s * max as real <= ((n + 1) * max) as real
  {
    var m, lo, hi := max as real, n as real, (n + 1) as real;
    var loM, sM, hiM := lo * m, s * m, hi * m;
    Between(lo, s, hi, m, loM, sM, hiM);
    IntProduct(n, max, loM);
    IntProduct(n + 1, max, hiM);
  }

  lemma Between(lo: real, s: real, hi: real, m: real, loM: real, sM: real, hiM: real)
    requires lo <= s < hi && 0.0 < m && loM == lo * m && sM == s * m && hiM == hi * m
    ensures loM <= sM < hiM
  {
    Mul(lo, s, m);
    MulStrict(s, hi, m);
  }

  lemma FloorTimes(n: int, s: real, q: real, max: int, sq: real)
    requires n == s.Floor && 0.0 <= s && 1 <= max && Near(q, max as real) && sq == s * q
    ensures (n * max) as real * 9007199254740991.0 <= sq * 9007199254740992.0
    ensures sq * 9007199254740992.0 <= ((n + 1) * max) as real * 9007199254740993.0
  {
    var m := max as real;
    NearTimes(q, m, s);
    assert q * s == sq && m * s == s * m;
    FloorProducts(n, s, max);
  }

  /** Sampled indices strictly increase. If the ratio is at most one half the quotients are two apart, more than
      the rounding takes; otherwise they are more than one apart, and rounding to nearest keeps them so. */
  lemma SampledIncreases(fl: real -> real, r: real, i: int, j: int)
    requires IsRounding(fl) && BelowOne(r) && 0 <= i < j <= MAX_SIDE
    ensures Sampled(fl, i, r) < Sampled(fl, j, r)
  {
    hide Sampled, IsRounding, IsNearest;
    assert i as real + 1.0 <= j as real;
    if r <= 0.5 {
      var s := SampledForm(fl, i, r);
      var t := SampledForm(fl, j, r);
      var sr, tr := s * r, t * r;
      OneApart(sr, tr, r, i as real, j as real);
      NextBelow(s, t, r, sr, tr);
    } else {
      var p, x := NearestSample(fl, i, r);
      var q, y := NearestSample(fl, j, r);
      MoreThanOneApart(p, q, r, i as real, j as real);
      NearestApart(p, x, q, y);
    }
  }

  lemma MoreThanOneApart(p: real, q: real, r: real, i: real, j: real)
    requires p * r == i && q * r == j && i + 1.0 <= j <= 2147483648.0 && 0.5 < r < 1.0
    ensures p + 1.0 < q <= 4294967296.0
  {
    var d := q - p - 1.0;
    assert d * r == j - i - r;
    CancelStrict(0.0, d, r);
    if q > 4294967296.0 {
      Mul(4294967296.0, q, r);
    }
  }

  lemma NextBelow(s: real, t: real, r: real, sr: real, tr: real)
    requires sr == s * r && tr == t * r && sr + r <= tr && 0.0 < r
    ensures s + 1.0 <= t
  {
    var d := t - s - 1.0;
    assert d * r == tr - sr - r;
    Cancel(0.0, d, r);
  }

  lemma OneApart(sr: real, tr: real, r: real, i: real, j: real)
    requires Near(sr, i) && Near(tr, j) && r <= 0.5
    requires 0.0 <= i && i + 1.0 <= j && j <= 2147483648.0
    ensures sr + r <= tr
  {
  }

  // ---- proportions ----

  /** How far the result is from the proportions of the source. */
  function Skew(srcW: int, srcH: int, w: int, h: int): int {
    w * srcH - h * srcW
  }

  lemma Products(n: int, c: int, t: real)
    requires n == t.Floor && c >= 1
    ensures (n * c) as real <= t * c as real <= (n * c) as real + c as real
  {
    Mul(n as real, t, c as real);
    Mul(t, n as real + 1.0, c as real);
    assert (n * c) as real == n as real * c as real;
  }

  /** A target times the other side, against the exact common area. */
  lemma AxisBand(n: int, c: int, t: real, p: real, area: real)
    requires Near(t, p) && n == t.Floor && c >= 1 && area == p * c as real
    ensures AtMost((n * c) as real, area) && AtLeast((n * c) as real + c as real, area)
  {
    Products(n, c, t);
    NearTimes(t, p, c as real);
    hide Near;
    var tc := t * c as real;
    NearOut(tc, area);
  }

  lemma NearOut(y: real, x: real)
    requires Near(y, x)
    ensures AtLeast(y, x) && AtMost(y, x)
  {
  }

  /** How much two roundings can add to the skew: nothing for limits up to 2^20, at most 2^10 for all. */
  function Slack(maxW: int): int {
    if maxW <= 0x10_0000 then 0 else 1024
  }

  lemma SkewBound(srcW: int, srcH: int, wH: int, hW: int, area: real, slack: int)
    requires AtMost(wH as real, area) && AtLeast(wH as real + srcH as real, area)
    requires AtMost(hW as real, area) && AtLeast(hW as real + srcW as real, area)
    requires 0.0 <= area && 2.0 * area < (slack as real + 1.0) * 9007199254740992.0
    ensures -srcH - slack <= wH - hW <= srcW + slack
  {
    Integral(wH - hW, srcW + slack);
    Integral(hW - wH, srcH + slack);
  }

  /** When no axis was raised to one pixel, the proportions are off by at most one pixel of the longer side,
      and, for limits above 2^20, the slack of the roundings. */
  lemma ProportionsKept(fl: real -> real, srcW: int, srcH: int, maxW: int, maxH: int)
    requires IsRounding(fl) && Shrinks(srcW, srcH, maxW, maxH)
    requires var r := Ratio(fl, srcW, srcH, maxW, maxH); Scaled(fl, srcW, r) >= 1 && Scaled(fl, srcH, r) >= 1
    ensures var r := Ratio(fl, srcW, srcH, maxW, maxH);
            var skew := Skew(srcW, srcH, Target(fl, srcW, r), Target(fl, srcH, r));
            -srcH - Slack(maxW) <= skew <= srcW + Slack(maxW)
  {
    var r := Ratio(fl, srcW, srcH, maxW, maxH);
    RatioForm(fl, srcW, srcH, maxW, maxH);
    hide Ratio, Scaled, IsRounding;
    var t := ScaledForm(fl, srcW, r);
    var u := ScaledForm(fl, srcH, r);
    var p, q := r * srcW as real, r * srcH as real;
    var area := Area(r, srcW, srcH, maxW);
    AxisBand(t.Floor, srcH, t, p, area);
    AxisBand(u.Floor, srcW, u, q, area);
    SkewBound(srcW, srcH, t.Floor * srcH, u.Floor * srcW, area, Slack(maxW));
  }

  lemma Area(r: real, srcW: int, srcH: int, maxW: int) returns (area: real)
    requires Scales(r, srcW, maxW) && 1 <= srcH <= MAX_SIDE
    ensures area == r * srcW as real * srcH as real == r * srcH as real * srcW as real
    ensures 0.0 <= area && 2.0 * area < (Slack(maxW) as real + 1.0) * 9007199254740992.0
  {
    var p := r * srcW as real;
    area := p * srcH as real;
    Positive(r, srcW as real, p);
    AreaBound(p, srcH as real, area, if maxW <= 0x10_0000 then 1048577.0 else 2147483649.0);
  }

  lemma Positive(r: real, c: real, p: real)
    requires BelowOne(r) && 0.0 <= c && p == r * c
    ensures 0.0 <= p
  {
    Mul(0.0, r, c);
  }

  lemma AreaBound(p: real, h: real, area: real, most: real)
    requires 0.0 <= p <= most && 0.0 <= h <= 2147483648.0 && area == p * h
    ensures 0.0 <= area <= most * 2147483648.0
  {
    assert 0.0 <= area by { Mul(0.0, p, h); }
    assert area <= p * 2147483648.0 by {
      Mul(h, 2147483648.0, p);
      assert h * p == area;
    }
  }

  // ---- exact reals ----

  lemma ExactRatio(fl: real -> real, srcW: int, srcH: int, maxW: int, maxH: int) returns (r: real, p: real, q: real)
    requires IsExact(fl) && srcW >= 1 && srcH >= 1 && maxW >= 1 && maxH >= 1 && !Fits(srcW, srcH, maxW, maxH)
    ensures r == Ratio(fl, srcW, srcH, maxW, maxH) && p == r * srcW as real && q == r * srcH as real
    ensures 0.0 < r < 1.0
    ensures p <= maxW as real && q <= maxH as real
    ensures if HeightBinds(srcW, srcH, maxW, maxH) then q == maxH as real else p == maxW as real
  {
    var w := QuotientIs(maxW as real, srcW as real);
    var h := QuotientIs(maxH as real, srcH as real);
    assert Ratio(fl, srcW, srcH, maxW, maxH) == if h < w then h else w;
    RealProducts(srcW, srcH, maxW, maxH);
    CrossProducts(w, h, srcW as real, srcH as real, maxW as real, maxH as real);
    hide IsExact, Ratio, HeightBinds, Quotient;
    r, p, q := SmallerOf(w, h, srcW as real, srcH as real, maxW as real, maxH as real);
  }

  /** The smaller of two quotients `w` and `h`, one of them below one, and its products. */
  lemma SmallerOf(w: real, h: real, srcW: real, srcH: real, maxW: real, maxH: real)
    returns (r: real, p: real, q: real)
    requires w * srcW == maxW && h * srcH == maxH && 0.0 < w && 0.0 < h && 0.0 < srcW && 0.0 < srcH
    requires maxW < srcW || maxH < srcH
    ensures r == (if h < w then h else w) && 0.0 < r < 1.0 && p == r * srcW && q == r * srcH
    ensures p <= maxW && q <= maxH && if h < w then q == maxH else p == maxW
  {
    r := if h < w then h else w;
    p, q := r * srcW, r * srcH;
    if maxW < srcW {
      SmallQuotient(w, srcW, maxW);
    } else {
      SmallQuotient(h, srcH, maxH);
    }
    if h < w {
      AtMostLimit(r, w, srcW, p, maxW);
    } else {
      AtMostLimit(r, h, srcH, q, maxH);
    }
  }

  lemma AtMostLimit(r: real, q: real, src: real, p: real, max: real)
    requires r <= q && 0.0 <= src && p == r * src && max == q * src
    ensures p <= max
  {
    Mul(r, q, src);
  }

  lemma SmallQuotient(q: real, src: real, max: real)
    requires q * src == max && max < src && 0.0 < src
    ensures q < 1.0
  {
    CancelStrict(q, 1.0, src);
  }

  lemma ExactScaled(fl: real -> real, src: int, r: real, p: real)
    requires IsExact(fl) && p == r * src as real && p >= 0.0
    ensures Scaled(fl, src, r) == p.Floor
  {
  }

  lemma FloorUpTo(p: real, max: int)
    requires 0.0 <= p <= max as real
    ensures 0 <= p.Floor <= max && (p == max as real ==> p.Floor == max)
  {
  }

  /** Over exact reals, for sources and limits of any size: the binding axis meets its limit exactly, and
      when no axis was raised to one pixel the proportions are off by less than a pixel of the longer side. */
  lemma ExactTargets(fl: real -> real, srcW: int, srcH: int, maxW: int, maxH: int)
    requires IsExact(fl) && srcW >= 1 && srcH >= 1 && maxW >= 1 && maxH >= 1 && !Fits(srcW, srcH, maxW, maxH)
    ensures var r := Ratio(fl, srcW, srcH, maxW, maxH);
            var w, h := Target(fl, srcW, r), Target(fl, srcH, r);
            && 1 <= w <= maxW && 1 <= h <= maxH
            && (if maxH * srcW < maxW * srcH
                then h == maxH && w == AtLeastOne(srcW * maxH / srcH)
                else w == maxW && h == AtLeastOne(srcH * maxW / srcW))
            && (Scaled(fl, srcW, r) >= 1 && Scaled(fl, srcH, r) >= 1 ==>
                  -srcH < Skew(srcW, srcH, w, h) < srcW)
  {
    var r, p, q := ExactRatio(fl, srcW, srcH, maxW, maxH);
    Mul(0.0, r, srcW as real);
    Mul(0.0, r, srcH as real);
    ExactScaled(fl, srcW, r, p);
    ExactScaled(fl, srcH, r, q);
    hide IsExact, Ratio, Scaled, Skew;
    FloorUpTo(p, maxW);
    FloorUpTo(q, maxH);
    ExactSkew(srcW, srcH, r, p, q);
    if HeightBinds(srcW, srcH, maxW, maxH) {
      OtherSide(r, p, q, srcW, srcH, maxH);
    } else {
      OtherSide(r, q, p, srcH, srcW, maxW);
    }
  }

  function AtLeastOne(n: int): int {
    if n < 1 then 1 else n
  }

  /** The side that does not bind, in whole numbers. */
  lemma OtherSide(r: real, p: real, q: real, src: int, bound: int, max: int)
    requires p == r * src as real && q == r * bound as real && q == max as real
    requires src >= 1 && bound >= 1 && max >= 1 && 0.0 < r
    ensures p.Floor == src * max / bound
  {
    assert p * bound as real == q * src as real;
    assert (src * max) as real == src as real * max as real;
    Mul(0.0, r, src as real);
    FloorOfQuotient(p, src * max, bound);
  }

  lemma FloorOfQuotient(p: real, n: int, c: int)
    requires p * c as real == n as real && c >= 1
    ensures p.Floor == n / c
  {
    var f := p.Floor;
    var r, lo, hi := c as real, f as real, (f + 1) as real;
    var loR, pR, hiR := lo * r, p * r, hi * r;
    Between(lo, p, hi, r, loR, pR, hiR);
    IntProduct(f, c, loR);
    IntProduct(f + 1, c, hiR);
    Divided(n, c, f, f * c, (f + 1) * c);
  }

  lemma IntMul(a: int, b: int, c: int)
    requires a <= b && 0 <= c
    ensures a * c <= b * c
  {
  }

  lemma Divided(n: int, c: int, f: int, a: int, b: int)
    requires c >= 1 && a == f * c && b == (f + 1) * c && a <= n < b
    ensures n / c == f
  {
    var d := n / c;
    assert n == d * c + n % c;
    if d < f {
      IntMul(d + 1, f, c);
    } else if f < d {
      IntMul(f + 1, d, c);
    }
  }

  lemma ExactSkew(srcW: int, srcH: int, r: real, p: real, q: real)
    requires srcW >= 1 && srcH >= 1 && p == r * srcW as real && q == r * srcH as real
    ensures -srcH < Skew(srcW, srcH, p.Floor, q.Floor) < srcW
  {
    var area := p * srcH as real;
    assert area == q * srcW as real;
    var w, h := p.Floor, q.Floor;
    var wH, hW := w * srcH, h * srcW;
    StrictProducts(p, w, srcH, area, wH);
    StrictProducts(q, h, srcW, area, hW);
    assert Skew(srcW, srcH, w, h) == wH - hW;
  }

  lemma StrictProducts(p: real, n: int, c: int, area: real, nc: int)
    requires n == p.Floor && c >= 1 && area == p * c as real && nc == n * c
    ensures nc as real <= area < nc as real + c as real
  {
    var d := n as real + 1.0 - p;
    assert d * c as real == nc as real + c as real - area by {
      assert nc as real == n as real * c as real;
    }
    Products(n, c, p);
    if d * c as real <= 0.0 {
      Cancel(d, 0.0, c as real);
    }
  }

  /** Over exact reals the sampled rows and columns strictly increase and stay inside the source. */
  lemma ExactSampling(fl: real -> real, srcW: int, srcH: int, maxW: int, maxH: int, i: int, j: int)
    requires IsExact(fl) && srcW >= 1 && srcH >= 1 && maxW >= 1 && maxH >= 1 && !Fits(srcW, srcH, maxW, maxH)
    requires 0 <= i < j
    ensures var r := Ratio(fl, srcW, srcH, maxW, maxH);
            && r != 0.0 && Sampled(fl, i, r) < Sampled(fl, j, r)
            && Sampled(fl, i, r) == (if maxH * srcW < maxW * srcH then i * srcH / maxH else i * srcW / maxW)
            && (i < Target(fl, srcW, r) ==> 0 <= Sampled(fl, i, r) < srcW)
            && (i < Target(fl, srcH, r) ==> 0 <= Sampled(fl, i, r) < srcH)
  {
    var r, p, q := ExactRatio(fl, srcW, srcH, maxW, maxH);
    var s := QuotientIs(i as real, r);
    var t := QuotientIs(j as real, r);
    assert Sampled(fl, i, r) == s.Floor && Sampled(fl, j, r) == t.Floor;
    Mul(0.0, r, srcW as real);
    Mul(0.0, r, srcH as real);
    ExactScaled(fl, srcW, r, p);
    ExactScaled(fl, srcH, r, q);
    hide IsExact, Ratio, Scaled, Sampled;
    NextBelow(s, t, r, s * r, t * r);
    if HeightBinds(srcW, srcH, maxW, maxH) {
      ExactSample(r, s, q, i, srcH, maxH);
    } else {
      ExactSample(r, s, p, i, srcW, maxW);
    }
    if i < Target(fl, srcW, r) {
      InsideSource(i, s, r, p, srcW);
    }
    if i < Target(fl, srcH, r) {
      InsideSource(i, s, r, q, srcH);
    }
  }

  lemma ExactSample(r: real, s: real, q: real, i: int, src: int, max: int)
    requires s * r == i as real && q == r * src as real && q == max as real && max >= 1 && src >= 1
    ensures s.Floor == i * src / max
  {
    assert s * q == s * r * src as real;
    assert (i * src) as real == i as real * src as real;
    FloorOfQuotient(s, i * src, max);
  }

  lemma InsideSource(i: int, s: real, r: real, p: real, src: int)
    requires 0.0 < r && p == r * src as real && s * r == i as real && i >= 0 && src >= 1
    requires i == 0 || i < p.Floor
    ensures s < src as real
  {
    var c := src as real;
    assert c * r == p;
    Mul(1.0, c, r);
    Below(s, c, r, s * r, p);
  }

  // ---- the image ----

  type Image<P> = seq<seq<P>>

  predicate IsImage<P>(img: Image<P>, w: int, h: int) {
    |img| == h && forall y :: 0 <= y < h ==> |img[y]| == w
  }

  /** What the image answers for a pixel; `blank` outside its bounds. */
  function PixelAt<P>(img: Image<P>, x: int, y: int, blank: P): P {
    if 0 <= y < |img| && 0 <= x < |img[y]| then img[y][x] else blank
  }

  /** The sizes resizeMax is modelled for. */
  predicate Resizable(srcW: int, srcH: int, maxW: int, maxH: int) {
    Fits(srcW, srcH, maxW, maxH) || Shrinks(srcW, srcH, maxW, maxH) || Thin(srcW, srcH, maxW, maxH)
  }

  /** What resizeMax makes of an image: itself if it fits, otherwise the pixels at the clamped samples. */
  ghost function Resized<P>(fl: real -> real, img: Image<P>, srcW: int, srcH: int, maxW: int, maxH: int, blank: P)
    : (r: Image<P>)
    requires IsImage(img, srcW, srcH) && IsRounding(fl) && Resizable(srcW, srcH, maxW, maxH)
  {
    if Fits(srcW, srcH, maxW, maxH) then img
    else
      RatioPositive(fl, srcW, srcH, maxW, maxH);
      var r := Ratio(fl, srcW, srcH, maxW, maxH);
      seq(Target(fl, srcH, r), y requires 0 <= y < Target(fl, srcH, r) =>
        seq(Target(fl, srcW, r), x requires 0 <= x < Target(fl, srcW, r) =>
          PixelAt(img, Source(fl, x, r, srcW), Source(fl, y, r, srcH), blank)))
  }

  lemma RatioPositive(fl: real -> real, srcW: int, srcH: int, maxW: int, maxH: int)
    requires IsRounding(fl) && (Shrinks(srcW, srcH, maxW, maxH) || Thin(srcW, srcH, maxW, maxH))
    ensures BelowOne(Ratio(fl, srcW, srcH, maxW, maxH))
  {
    if srcW == 0 {
      OneSide(fl, srcH, maxH);
    } else if srcH == 0 {
      OneSide(fl, srcW, maxW);
    } else {
      RatioForm(fl, srcW, srcH, maxW, maxH);
    }
  }

  /** With no empty side, every target pixel is the source pixel it samples. */
  lemma ResizedSamples<P>(fl: real -> real, img: Image<P>, srcW: int, srcH: int, maxW: int, maxH: int, blank: P)
    requires IsImage(img, srcW, srcH) && IsRounding(fl) && Shrinks(srcW, srcH, maxW, maxH)
    ensures var r := Ratio(fl, srcW, srcH, maxW, maxH);
            var w, h := Target(fl, srcW, r), Target(fl, srcH, r);
            var out := Resized(fl, img, srcW, srcH, maxW, maxH, blank);
            && r != 0.0 && IsImage(out, w, h)
            && (forall x, y :: 0 <= x < w && 0 <= y < h ==>
                  && 0 <= Sampled(fl, x, r) < srcW && 0 <= Sampled(fl, y, r) < srcH
                  && out[y][x] == img[Sampled(fl, y, r)][Sampled(fl, x, r)])
  {
    RatioForm(fl, srcW, srcH, maxW, maxH);
    var r := Ratio(fl, srcW, srcH, maxW, maxH);
    hide Ratio, Scaled, Sampled, IsRounding, Scales, Binds, HeightBinds, BelowOne;
    RatioPositive(fl, srcW, srcH, maxW, maxH);
    NotZero(r);
    Sampling(fl, srcW, maxW, r);
    Sampling(fl, srcH, maxH, r);
    var out := Resized(fl, img, srcW, srcH, maxW, maxH, blank);
    hide Target;
    forall x, y | 0 <= x < Target(fl, srcW, r) && 0 <= y < Target(fl, srcH, r)
      ensures out[y][x] == img[Sampled(fl, y, r)][Sampled(fl, x, r)]
    {
      assert out[y][x] == PixelAt(img, Source(fl, x, r, srcW), Source(fl, y, r, srcH), blank);
      assert Source(fl, x, r, srcW) == Sampled(fl, x, r) && Source(fl, y, r, srcH) == Sampled(fl, y, r);
    }
  }

  /** The clamps leave the samples as they are. */
  lemma SamplesSource(fl: real -> real, srcW: int, srcH: int, maxW: int, maxH: int)
    requires IsRounding(fl) && Shrinks(srcW, srcH, maxW, maxH)
    ensures var r := Ratio(fl, srcW, srcH, maxW, maxH);
            && r != 0.0
            && (forall x :: 0 <= x < Target(fl, srcW, r) ==>
                              Source(fl, x, r, srcW) == Sampled(fl, x, r) && 0 <= Sampled(fl, x, r) < srcW)
            && (forall y :: 0 <= y < Target(fl, srcH, r) ==>
                              Source(fl, y, r, srcH) == Sampled(fl, y, r) && 0 <= Sampled(fl, y, r) < srcH)
  {
    RatioForm(fl, srcW, srcH, maxW, maxH);
    var r := Ratio(fl, srcW, srcH, maxW, maxH);
    hide Ratio, Scaled, Sampled, IsRounding, Binds, HeightBinds;
    Sampling(fl, srcW, maxW, r);
    Sampling(fl, srcH, maxH, r);
  }

  lemma NotZero(r: real)
    requires BelowOne(r)
    ensures r != 0.0
  {
  }

  lemma EmptyTarget(fl: real -> real, r: real)
    requires IsRounding(fl)
    ensures Target(fl, 0, r) == 1
  {
    assert 0.0 * r == 0.0;
    Rounds(fl, 0.0);
  }

  /** With one empty side, the result is one blank pixel wide or high and fits the limits. */
  lemma ThinIsBlank<P>(fl: real -> real, img: Image<P>, srcW: int, srcH: int, maxW: int, maxH: int, blank: P)
    returns (w: int, h: int)
    requires IsImage(img, srcW, srcH) && IsRounding(fl) && Thin(srcW, srcH, maxW, maxH)
    ensures var out := Resized(fl, img, srcW, srcH, maxW, maxH, blank);
            && IsImage(out, w, h) && Fits(w, h, maxW, maxH) && (if srcW == 0 then w == 1 else h == 1)
            && (forall x, y :: 0 <= x < w && 0 <= y < h ==> out[y][x] == blank)
  {
    RatioPositive(fl, srcW, srcH, maxW, maxH);
    var r := Ratio(fl, srcW, srcH, maxW, maxH);
    w, h := Target(fl, srcW, r), Target(fl, srcH, r);
    EmptyTarget(fl, r);
    if srcW == 0 {
      OneSide(fl, srcH, maxH);
      ScaledFits(fl, srcH, maxH, r);
    } else {
      OneSide(fl, srcW, maxW);
      ScaledFits(fl, srcW, maxW, r);
    }
    var out := Resized(fl, img, srcW, srcH, maxW, maxH, blank);
    EmptySource(fl, r);
    hide IsRounding, Ratio, Target, Source, Fits, BelowOne;
    forall x, y | 0 <= x < w && 0 <= y < h
      ensures out[y][x] == blank
    {
      assert out[y][x] == PixelAt(img, Source(fl, x, r, srcW), Source(fl, y, r, srcH), blank);
    }
  }

  /** The one target index of an empty side samples outside the source. */
  lemma EmptySource(fl: real -> real, r: real)
    requires IsRounding(fl) && BelowOne(r)
    ensures Source(fl, 0, r, 0) < 0
  {
    FirstSample(fl, r);
  }

  lemma FirstSample(fl: real -> real, r: real)
    requires IsRounding(fl) && BelowOne(r)
    ensures Sampled(fl, 0, r) == 0
  {
    var q := QuotientIs(0.0, r);
    SampleInRange(q, 0.0, r);
    Rounds(fl, 0.0);
    assert 0 as real / r == 0.0;
  }

  lemma Sampling(fl: real -> real, src: int, max: int, r: real)
    requires IsRounding(fl) && Scales(r, src, max)
    ensures forall i :: 0 <= i < Target(fl, src, r) ==> 0 <= Sampled(fl, i, r) < src
  {
    forall i | 0 <= i < Target(fl, src, r)
      ensures 0 <= Sampled(fl, i, r) < src
    {
      SampledInBounds(fl, src, max, r, i);
    }
  }

  /** The result fits the limits, and unless a side is empty the source too; resizing it again with the same
      limits returns the same pixels. */
  lemma ResizeIdempotent<P>(fl: real -> real, img: Image<P>, srcW: int, srcH: int, maxW: int, maxH: int, blank: P)
    returns (w: int, h: int)
    requires IsImage(img, srcW, srcH) && IsRounding(fl) && Resizable(srcW, srcH, maxW, maxH)
    ensures var once := Resized(fl, img, srcW, srcH, maxW, maxH, blank);
            && IsImage(once, w, h) && Fits(w, h, maxW, maxH)
            && (!Thin(srcW, srcH, maxW, maxH) ==> w <= srcW && h <= srcH)
            && Resized(fl, once, w, h, maxW, maxH, blank) == once
  {
    if Fits(srcW, srcH, maxW, maxH) {
      w, h := srcW, srcH;
    } else if Thin(srcW, srcH, maxW, maxH) {
      w, h := ThinIsBlank(fl, img, srcW, srcH, maxW, maxH, blank);
    } else {
      TargetsFit(fl, srcW, srcH, maxW, maxH);
      ResizedSamples(fl, img, srcW, srcH, maxW, maxH, blank);
      var r := Ratio(fl, srcW, srcH, maxW, maxH);
      w, h := Target(fl, srcW, r), Target(fl, srcH, r);
    }
  }

  /** The pixels of an array indexed by column and row, row by row. */
  ghost function Pixels<P>(a: array2<P>): Image<P>
    reads a
  {
    seq(a.Length1, y requires 0 <= y < a.Length1 reads a =>
      seq(a.Length0, x requires 0 <= x < a.Length0 reads a => a[x, y]))
  }

  /** src.At, with what the image answers outside its bounds. */
  function At<P>(a: array2<P>, x: int, y: int, blank: P): P
    reads a
  {
    if 0 <= x < a.Length0 && 0 <= y < a.Length1 then a[x, y] else blank
  }

  /** Every target pixel is written once, from the source pixel at its clamped sample. */
  method Resample<P(0)>(fl: real -> real, src: array2<P>, targetW: int, targetH: int, ratio: real, blank: P)
    returns (dst: array2<P>)
    requires ratio != 0.0 && targetW >= 0 && targetH >= 0
    ensures fresh(dst) && dst.Length0 == targetW && dst.Length1 == targetH
    ensures forall x, y :: 0 <= x < targetW && 0 <= y < targetH ==>
              dst[x, y] == At(src, Source(fl, x, ratio, src.Length0), Source(fl, y, ratio, src.Length1), blank)
  {
    hide Sampled, Clamp;
    dst := new P[targetW, targetH];
    for y := 0 to targetH
      invariant forall u, v :: 0 <= u < targetW && 0 <= v < y ==>
                  dst[u, v] == At(src, Source(fl, u, ratio, src.Length0), Source(fl, v, ratio, src.Length1), blank)
    {
      var srcY := Source(fl, y, ratio, src.Length1);
      for x := 0 to targetW
        invariant forall u, v :: 0 <= u < targetW && 0 <= v < y ==>
                    dst[u, v] == At(src, Source(fl, u, ratio, src.Length0), Source(fl, v, ratio, src.Length1), blank)
        invariant forall u :: 0 <= u < x ==> dst[u, y] == At(src, Source(fl, u, ratio, src.Length0), srcY, blank)
      {
        var srcX := Source(fl, x, ratio, src.Length0);
        dst[x, y] := At(src, srcX, srcY, blank);
      }
    }
  }

  lemma PixelsAt<P>(a: array2<P>)
    ensures IsImage(Pixels(a), a.Length0, a.Length1)
    ensures forall x, y :: 0 <= x < a.Length0 && 0 <= y < a.Length1 ==> Pixels(a)[y][x] == a[x, y]
    ensures forall x, y, blank :: PixelAt(Pixels(a), x, y, blank) == At(a, x, y, blank)
  {
  }

  lemma SameImage<P>(a: Image<P>, b: Image<P>, w: int, h: int)
    requires IsImage(a, w, h) && IsImage(b, w, h)
    requires forall x, y :: 0 <= x < w && 0 <= y < h ==> a[y][x] == b[y][x]
    ensures a == b
  {
    forall y | 0 <= y < h
      ensures a[y] == b[y]
    {
      assert forall x :: 0 <= x < w ==> a[y][x] == b[y][x];
    }
  }

  method Copied<P(0)>(src: array2<P>) returns (dst: array2<P>)
    ensures fresh(dst) && dst.Length0 == src.Length0 && dst.Length1 == src.Length1
    ensures Pixels(dst) == Pixels(src)
  {
    dst := new P[src.Length0, src.Length1];
    forall x, y | 0 <= x < src.Length0 && 0 <= y < src.Length1 {
      dst[x, y] := src[x, y];
    }
    PixelsAt(src);
    PixelsAt(dst);
    SameImage(Pixels(dst), Pixels(src), src.Length0, src.Length1);
  }

  method ResizeMax<P(0)>(fl: real -> real, src: array2<P>, maxW: int, maxH: int, blank: P)
    returns (dst: array2<P>, targetW: int, targetH: int)
    requires IsRounding(fl) && Resizable(src.Length0, src.Length1, maxW, maxH)
    ensures fresh(dst) && dst.Length0 == targetW && dst.Length1 == targetH
    ensures Pixels(dst) == Resized(fl, Pixels(src), src.Length0, src.Length1, maxW, maxH, blank)
    ensures src.Length0 <= maxW && src.Length1 <= maxH ==>
              && targetW == src.Length0 && targetH == src.Length1
              && forall x, y :: 0 <= x < targetW && 0 <= y < targetH ==> dst[x, y] == src[x, y]
    ensures Shrinks(src.Length0, src.Length1, maxW, maxH) ==>
              var r := Ratio(fl, src.Length0, src.Length1, maxW, maxH);
              && r != 0.0 && targetW == Target(fl, src.Length0, r) && targetH == Target(fl, src.Length1, r)
              && forall x, y :: 0 <= x < targetW && 0 <= y < targetH ==>
                   && 0 <= Sampled(fl, x, r) < src.Length0 && 0 <= Sampled(fl, y, r) < src.Length1
                   && dst[x, y] == src[Sampled(fl, x, r), Sampled(fl, y, r)]
  {
    hide Scaled, Sampled, Quotient, IsRounding, Clamp;
    var srcW, srcH := src.Length0, src.Length1;
    PixelsAt(src);
    if srcW <= maxW && srcH <= maxH {
      dst := Copied(src);
      return dst, srcW, srcH;
    }
    var ratio: real;
    if srcW == 0 {
      ratio := Quotient(fl, maxH, srcH);
    } else {
      ratio := Quotient(fl, maxW, srcW);
      if srcH != 0 && Quotient(fl, maxH, srcH) < ratio {
        ratio := Quotient(fl, maxH, srcH);
      }
    }
    targetW, targetH := Scaled(fl, srcW, ratio), Scaled(fl, srcH, ratio);
    if targetW < 1 {
      targetW := 1;
    }
    if targetH < 1 {
      targetH := 1;
    }
    RatioPositive(fl, srcW, srcH, maxW, maxH);
    dst := Resample(fl, src, targetW, targetH, ratio, blank);
    if Shrinks(srcW, srcH, maxW, maxH) {
      SamplesSource(fl, srcW, srcH, maxW, maxH);
    }
    PixelsAt(dst);
    ghost var spec := Resized(fl, Pixels(src), srcW, srcH, maxW, maxH, blank);
    SameImage(Pixels(dst), spec, targetW, targetH);
  }
}
