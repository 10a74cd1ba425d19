/** Thumbnail fitting (backend/internal/images/thumbnail.go), in binary floating point. */
module Thumbnail {
  /** Edges of decoded images are far below 2 to the power of 24; the format allows 65535. */
  const EDGE_LIMIT := 16_777_216

  /** Above this the numbers of a float64 are normal. */
  const NORMAL: real := 1.0 / 1073741824.0

  /** A difference in units of 2 to the power of -53, half the spacing of the float64 numbers at 1. */
  function Ulps(d: real): real {
    d * 9007199254740992.0
  }

  predicate Exact(fl: real -> real, n: nat) { fl(n as real) == n as real }

  ghost predicate Close(fl: real -> real) {
    forall x: real | x >= NORMAL :: -x <= Ulps(fl(x) - x) <= x
  }

  ghost predicate Monotone(fl: real -> real) {
    forall x: real, y: real | 0.0 <= x <= y :: fl(x) <= fl(y)
  }

  ghost predicate KeepsEdges(fl: real -> real) {
    forall n: nat | n < EDGE_LIMIT :: Exact(fl, n)
  }

  /**
   * What section 4.3 of IEEE 754 says of rounding a result to float64, as far as it matters
   * here: the relative error, the order, and that these integers are exact.
   */
  ghost predicate RoundsLikeFloat64(fl: real -> real) {
    Close(fl) && Monotone(fl) && KeepsEdges(fl)
  }

  /** math.Round of a positive number: halves go up. */
  function Round(x: real): int {
    (x + 0.5).Floor
  }

  function Scaled(v: int, scale: real, fl: real -> real): int {
    var out := Round(fl(v as real * scale));
    if out < 1 then 1 else out
  }

  function Long(width: int, height: int): int {
    if height > width then height else width
  }

  function FitWithin(width: int, height: int, maxEdge: int, fl: real -> real): (int, int)
    requires maxEdge > 0
  {
    var longEdge := Long(width, height);
    if longEdge <= maxEdge then (width, height)
    else
      var scale := fl(maxEdge as real / longEdge as real);
      (Scaled(width, scale, fl), Scaled(height, scale, fl))
  }

  /** The sizes of a decoded image that is over the bound. */
  predicate Shrinks(v: int, maxEdge: int, longEdge: int) {
    1 <= v <= longEdge < EDGE_LIMIT && 1 <= maxEdge < longEdge
  }

  // ---------- Rounding errors ----------

  lemma ProductGrows(x: real, y: real, m: real)
    requires x <= y && m >= 0.0
    ensures x * m <= y * m
  {
  }

  lemma QuotientOfEdges(maxEdge: int, longEdge: int)
    requires 1 <= maxEdge < longEdge < EDGE_LIMIT
    ensures
      var q := maxEdge as real / longEdge as real;
      2.0 * NORMAL < q <= 1.0 && q * longEdge as real == maxEdge as real
  {
    var q, m, l := maxEdge as real / longEdge as real, maxEdge as real, longEdge as real;
    assert q * l == m;
    if q > 1.0 { ProductGrows(1.0, q, l); }
    if q * EDGE_LIMIT as real <= 1.0 { ProductGrows(l, EDGE_LIMIT as real, q); }
  }

  lemma ErrorScales(r: real, s: real, q: real)
    requires r >= 0.0 && -q <= Ulps(s - q) <= q
    ensures -(r * q) <= Ulps(r * s - r * q) <= r * q
  {
    ProductGrows(Ulps(s - q), q, r);
    ProductGrows(-q, Ulps(s - q), r);
    assert Ulps(s - q) * r == Ulps(r * s - r * q);
  }

  lemma OneRounding(x: real, fl: real -> real)
    requires Close(fl) && x >= NORMAL
    ensures -x <= Ulps(fl(x) - x) <= x
  {
  }

  /** The rounded quotient, times an edge. */
  lemma ScaledError(v: int, q: real, s: real)
    requires v >= 1 && q > 2.0 * NORMAL && -q <= Ulps(s - q) <= q
    ensures
      var x, e := v as real * s, v as real * q;
      x >= NORMAL && -e <= Ulps(x - e) <= e
  {
    ErrorScales(v as real, s, q);
    ProductGrows(1.0, v as real, q);
  }

  /** Two roundings move a product by less than three units. */
  lemma TwoRoundings(x: real, e: real, p: real)
    requires -e <= Ulps(x - e) <= e && -x <= Ulps(p - x) <= x
    ensures -3.0 * e <= Ulps(p - e) <= 3.0 * e
  {
  }

  lemma RoundIsNear(x: real)
    ensures x - 0.5 < Round(x) as real <= x + 0.5
  {
  }

  /** The integer nearest to the exact quotient; of two equally near ones, either. */
  predicate Nearest(out: int, v: int, maxEdge: int, longEdge: int) {
    -longEdge <= 2 * (out * longEdge) - 2 * (v * maxEdge) <= longEdge
  }

  lemma ProductsInReals(a: int, b: int)
    ensures (a * b) as real == a as real * b as real
  {
  }

  lemma Regroup(r: real, q: real, l: real, m: real)
    requires q * l == m
    ensures (r * q) * l == r * m
  {
    assert (r * q) * l == r * (q * l);
  }

  /** Half a pixel's worth of edge is a gap far wider than any rounding error. */
  lemma GapIsWide(d: real, l: real)
    requires d * l >= 0.5 && 0.0 < l <= 16777216.0
    ensures d >= 1.0 / 33554432.0
  {
    if d < 1.0 / 33554432.0 { ProductGrows(d, 1.0 / 33554432.0, l); }
  }

  lemma GapScales(o: real, e: real, l: real)
    ensures (o - e - 0.5) * l == o * l - e * l - 0.5 * l
    ensures (e - o - 0.5) * l == e * l - o * l - 0.5 * l
  {
  }

  /** A pixel count that is not nearest misses the exact quotient `e` by clearly more than a half. */
  lemma FarIsFar(out: int, v: int, e: real, maxEdge: int, longEdge: int)
    requires 1 <= longEdge < EDGE_LIMIT && e * longEdge as real == (v * maxEdge) as real
    ensures 2 * (out * longEdge) - 2 * (v * maxEdge) > longEdge ==> out as real - e - 0.5 >= 1.0 / 33554432.0
    ensures 2 * (out * longEdge) - 2 * (v * maxEdge) < -longEdge ==> e - out as real - 0.5 >= 1.0 / 33554432.0
  {
    var o, l := out as real, longEdge as real;
    ProductsInReals(out, longEdge);
    GapScales(o, e, l);
    if 2 * (out * longEdge) - 2 * (v * maxEdge) > longEdge {
      GapIsWide(o - e - 0.5, l);
    } else if 2 * (out * longEdge) - 2 * (v * maxEdge) < -longEdge {
      GapIsWide(e - o - 0.5, l);
    }
  }

  lemma QuotientIsSmall(v: int, e: real, maxEdge: int, longEdge: int)
    requires Shrinks(v, maxEdge, longEdge) && e * longEdge as real == v as real * maxEdge as real
    ensures e <= maxEdge as real
  {
    var l, m := longEdge as real, maxEdge as real;
    ProductGrows(v as real, l, m);
    if e > m { StrictProduct(m, e, l); }
  }

  lemma StrictProduct(x: real, y: real, m: real)
    requires x < y && m > 0.0
    ensures x * m < y * m
  {
  }

  /** A number that misses the exact quotient by three units rounds to its nearest pixel count. */
  lemma RoundedIsNearest(p: real, v: int, e: real, maxEdge: int, longEdge: int)
    requires Shrinks(v, maxEdge, longEdge) && e * longEdge as real == v as real * maxEdge as real
    requires -3.0 * e <= Ulps(p - e) <= 3.0 * e
    ensures Nearest(Round(p), v, maxEdge, longEdge)
  {
    ProductsInReals(v, maxEdge);
    FarIsFar(Round(p), v, e, maxEdge, longEdge);
    QuotientIsSmall(v, e, maxEdge, longEdge);
    RoundIsNear(p);
  }

  lemma ProductIsNearest(v: int, x: real, e: real, maxEdge: int, longEdge: int, fl: real -> real)
    requires Close(fl) && Shrinks(v, maxEdge, longEdge)
    requires x >= NORMAL && -e <= Ulps(x - e) <= e && e * longEdge as real == v as real * maxEdge as real
    ensures Nearest(Round(fl(x)), v, maxEdge, longEdge)
  {
    OneRounding(x, fl);
    TwoRoundings(x, e, fl(x));
    RoundedIsNearest(fl(x), v, e, maxEdge, longEdge);
  }

  /** The scale is the rounded quotient `q` of the edges. */
  predicate Approximates(scale: real, q: real, maxEdge: int, longEdge: int) {
    2.0 * NORMAL < q <= 1.0 && q * longEdge as real == maxEdge as real && -q <= Ulps(scale - q) <= q
  }

  ghost predicate IsScale(scale: real, maxEdge: int, longEdge: int) {
    exists q: real :: Approximates(scale, q, maxEdge, longEdge)
  }

  lemma ScaleIsRounded(maxEdge: int, longEdge: int, fl: real -> real)
    requires RoundsLikeFloat64(fl) && 1 <= maxEdge < longEdge < EDGE_LIMIT
    ensures IsScale(fl(maxEdge as real / longEdge as real), maxEdge, longEdge)
    ensures 0.0 <= fl(maxEdge as real / longEdge as real) <= 1.0
  {
    var q := maxEdge as real / longEdge as real;
    QuotientOfEdges(maxEdge, longEdge);
    OneRounding(q, fl);
    ScaleIsAtMostOne(q, fl);
    assert Approximates(fl(q), q, maxEdge, longEdge);
  }

  lemma ScaleIsAtMostOne(q: real, fl: real -> real)
    requires Close(fl) && Monotone(fl) && KeepsEdges(fl) && NORMAL <= q <= 1.0
    ensures 0.0 <= fl(q) <= 1.0
  {
    assert Exact(fl, 1);
    assert -q <= Ulps(fl(q) - q);
  }

  /** In spite of two roundings, `math.Round` gets the nearest pixel count. */
  lemma ScaledIsNearest(v: int, scale: real, maxEdge: int, longEdge: int, fl: real -> real)
    requires Close(fl) && Shrinks(v, maxEdge, longEdge) && IsScale(scale, maxEdge, longEdge)
    ensures Nearest(Round(fl(v as real * scale)), v, maxEdge, longEdge)
  {
    var q: real :| Approximates(scale, q, maxEdge, longEdge);
    ScaledError(v, q, scale);
    Regroup(v as real, q, longEdge as real, maxEdge as real);
    var x, e: real := v as real * scale, v as real * q;
    ProductIsNearest(v, x, e, maxEdge, longEdge, fl);
  }

  // ---------- Pixels ----------

  lemma NoMultipleFits(k: int, d: int)
    requires d > 0 && -d <= 2 * (k * d) <= d
    ensures k == 0
  {
    assert k >= 1 ==> k * d >= d;
    assert k <= -1 ==> k * d <= -d;
  }

  lemma LongEdgeFits(out: int, maxEdge: int, longEdge: int)
    requires longEdge > 0 && Nearest(out, longEdge, maxEdge, longEdge)
    ensures out == maxEdge
  {
    assert out * longEdge - longEdge * maxEdge == (out - maxEdge) * longEdge;
    NoMultipleFits(out - maxEdge, longEdge);
  }

  lemma RoundGrows(x: real, y: real)
    requires x <= y
    ensures Round(x) <= Round(y)
  {
  }

  lemma RoundingGrows(x: real, y: real, fl: real -> real)
    requires Monotone(fl) && 0.0 <= x <= y
    ensures Round(fl(x)) <= Round(fl(y))
  {
    RoundGrows(fl(x), fl(y));
  }

  lemma ScaledGrows(v: int, w: int, scale: real, fl: real -> real)
    requires Monotone(fl) && 0 <= v <= w && scale >= 0.0
    ensures Scaled(v, scale, fl) <= Scaled(w, scale, fl)
  {
    ProductGrows(v as real, w as real, scale);
    ProductGrows(0.0, v as real, scale);
    RoundingGrows(v as real * scale, w as real * scale, fl);
  }

  lemma LongEdgeIsBound(scale: real, maxEdge: int, longEdge: int, fl: real -> real)
    requires Close(fl) && Shrinks(longEdge, maxEdge, longEdge) && IsScale(scale, maxEdge, longEdge)
    ensures Scaled(longEdge, scale, fl) == maxEdge
  {
    ScaledIsNearest(longEdge, scale, maxEdge, longEdge, fl);
    LongEdgeFits(Round(fl(longEdge as real * scale)), maxEdge, longEdge);
  }

  lemma NoEdgeGrows(v: int, scale: real, fl: real -> real)
    requires Monotone(fl) && KeepsEdges(fl) && 1 <= v < EDGE_LIMIT && 0.0 <= scale <= 1.0
    ensures Scaled(v, scale, fl) <= v
  {
    assert Exact(fl, v);
    ProductGrows(scale, 1.0, v as real);
    ProductGrows(0.0, scale, v as real);
    RoundGrows(fl(v as real * scale), v as real);
  }

  /** The rounded scale is at most 1, so no edge grows. */
  lemma ScaledShrinks(v: int, scale: real, maxEdge: int, longEdge: int, fl: real -> real)
    requires RoundsLikeFloat64(fl) && Shrinks(v, maxEdge, longEdge) && IsScale(scale, maxEdge, longEdge)
    requires 0.0 <= scale <= 1.0
    ensures 1 <= Scaled(v, scale, fl) <= v && Scaled(v, scale, fl) <= maxEdge
  {
    NoEdgeGrows(v, scale, fl);
    LongEdgeIsBound(scale, maxEdge, longEdge, fl);
    ScaledGrows(v, longEdge, scale, fl);
  }

  /** Each output edge is the nearest pixel count, or the clamp 1 where that is 0. */
  predicate Faithful(v: int, scaled: int, maxEdge: int, longEdge: int) {
    Nearest(scaled, v, maxEdge, longEdge) || (scaled == 1 && Nearest(0, v, maxEdge, longEdge))
  }

  lemma ScaledIsFaithful(v: int, scale: real, maxEdge: int, longEdge: int, fl: real -> real)
    requires Close(fl) && Shrinks(v, maxEdge, longEdge) && IsScale(scale, maxEdge, longEdge)
    ensures Faithful(v, Scaled(v, scale, fl), maxEdge, longEdge)
  {
    ScaledIsNearest(v, scale, maxEdge, longEdge, fl);
    ClampIsNearZero(Round(fl(v as real * scale)), v, maxEdge, longEdge);
  }

  lemma ClampIsNearZero(out: int, v: int, maxEdge: int, longEdge: int)
    requires Nearest(out, v, maxEdge, longEdge) && Shrinks(v, maxEdge, longEdge)
    ensures out >= 0
  {
    assert v * maxEdge >= 1;
    assert out <= -1 ==> out * longEdge <= -longEdge;
  }

  /**
   * An image over the bound gets a long edge of exactly the bound; no edge grows, vanishes or
   * leaves 1..maxEdge; each is the nearest pixel count, or the clamp 1 where that would be 0;
   * the shorter edge stays the shorter one. An image within the bound is left alone.
   */
  lemma FitIsBoundedAndFaithful(width: int, height: int, maxEdge: int, fl: real -> real)
    requires RoundsLikeFloat64(fl) && 1 <= width < EDGE_LIMIT && 1 <= height < EDGE_LIMIT && maxEdge > 0
    ensures
      var (w, h) := FitWithin(width, height, maxEdge, fl);
      var longEdge := if width <= height then height else width;
      if width <= maxEdge && height <= maxEdge then (w, h) == (width, height)
      else
        && (if width <= height then h == maxEdge else w == maxEdge)
        && 1 <= w <= width && 1 <= h <= height
        && Faithful(width, w, maxEdge, longEdge) && Faithful(height, h, maxEdge, longEdge)
        && (width <= height ==> w <= h) && (height <= width ==> h <= w)
  {
    var longEdge := Long(width, height);
    if longEdge > maxEdge {
      var scale := fl(maxEdge as real / longEdge as real);
      ScaleIsRounded(maxEdge, longEdge, fl);
      ScaledShrinks(width, scale, maxEdge, longEdge, fl);
      ScaledShrinks(height, scale, maxEdge, longEdge, fl);
      ScaledIsFaithful(width, scale, maxEdge, longEdge, fl);
      ScaledIsFaithful(height, scale, maxEdge, longEdge, fl);
      LongEdgeIsBound(scale, maxEdge, longEdge, fl);
      if width <= height {
        ScaledGrows(width, height, scale, fl);
      } else {
        ScaledGrows(height, width, scale, fl);
      }
    }
  }

  /** Fitting twice is fitting once. */
  lemma RefitChangesNothing(width: int, height: int, maxEdge: int, fl: real -> real)
    requires RoundsLikeFloat64(fl) && 1 <= width < EDGE_LIMIT && 1 <= height < EDGE_LIMIT && maxEdge > 0
    ensures
      var (w, h) := FitWithin(width, height, maxEdge, fl);
      FitWithin(w, h, maxEdge, fl) == (w, h)
  {
    FitIsBoundedAndFaithful(width, height, maxEdge, fl);
  }
}
