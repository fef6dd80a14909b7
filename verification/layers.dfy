/**
 * `generateLayerThresholds` of planet-logic.ts: `count` terrain-layer
 * thresholds, spaced by gaps that grow by 8% each, normalised so that the
 * first is 0.08 and the last 0.83.
 *
 * Arithmetic is on `real`. With `count <= 1` the source divides 0 by 0 and
 * returns `[NaN]`; that result is `None` here.
 */
module Layers {
  import opened Options

  const GapGrowth: real := 1.08
  const Lowest: real := 0.08
  const Span: real := 0.75

  /** `1.08^n`. */
  function Growth(n: nat): (p: real)
    ensures p >= 1.0
  {
    if n == 0 then 1.0 else Growth(n - 1) * GapGrowth
  }

  /** The `n`-th cumulative stop, in units of the first gap: the sum of `1.08^j` for `j < n`. */
  function Geo(n: nat): real
  {
    if n == 0 then 0.0 else Geo(n - 1) + Growth(n - 1)
  }

  /** The first `n` cumulative stops, in units of the first gap. */
  function GeoStops(n: nat): (b: seq<real>)
    ensures |b| == n
  {
    seq(n, i requires 0 <= i < n => Geo(i))
  }

  /** The `n`-th cumulative stop for a first gap of `g`. */
  function Stop(g: real, n: nat): real
  {
    g * Geo(n)
  }

  /** The `n`-th gap for a first gap of `g`. */
  function Gap(g: real, n: nat): real
  {
    g * Growth(n)
  }

  /** Every stop multiplied by the first gap. */
  function Scale(g: real, b: seq<real>): (s: seq<real>)
    ensures |s| == |b|
  {
    seq(|b|, i requires 0 <= i < |b| => g * b[i])
  }

  /** The final `map`: each stop divided by the last one, mapped into [0.08, 0.83]. */
  function Normalise(s: seq<real>): (t: seq<real>)
    requires |s| >= 1 && s[|s| - 1] != 0.0
    ensures |t| == |s|
  {
    seq(|s|, i requires 0 <= i < |s| => Lowest + s[i] / s[|s| - 1] * Span)
  }

  /** The first gap: 0.08 for smooth terrain whatever the solid, else 0.03 for crystal, else 0.05. */
  function InitialGap(solidType: string, roughness: real): (g: real)
    ensures g > 0.0
  {
    if roughness < 0.6 then 0.08 else if solidType == "crystal" then 0.03 else 0.05
  }

  /** The thresholds for `count >= 2`, which depend on nothing else. */
  function Thresholds(count: nat): (t: seq<real>)
    requires count >= 2
    ensures |t| == count
  {
    GeoPositive(count - 1);
    Normalise(GeoStops(count))
  }

  /**
   * The loop of `generateLayerThresholds`: the stops `0, g, g + 1.08 g, ...`,
   * one per layer (and the single stop 0 when `count <= 1`), where `g` is the
   * first gap the three assignments leave.
   */
  method CumulativeStops(solidType: string, roughness: real, count: int) returns (stops: seq<real>)
    ensures stops == Scale(InitialGap(solidType, roughness), GeoStops(if count <= 1 then 1 else count))
  {
    stops := [0.0];
    var current := 0.0;
    var gapBase := 0.05;
    if solidType == "crystal" {
      gapBase := 0.03;
    }
    if roughness < 0.6 {
      gapBase := 0.08;
    }
    ghost var g := InitialGap(solidType, roughness);
    assert gapBase == g;
    var i := 1;
    while i < count
      invariant 1 <= i <= if count <= 1 then 1 else count
      invariant stops == Scale(g, GeoStops(i))
      invariant current == Stop(g, i - 1)
      invariant gapBase == Gap(g, i - 1)
    {
      NextStop(g, i);
      StopsSnoc(g, i);
      current := current + gapBase;
      stops := stops + [current];
      gapBase := gapBase * GapGrowth;
      i := i + 1;
    }
  }

  /**
   * The thresholds for `count` layers. They do not depend on the solid type
   * or the roughness: the first gap scales every stop, the last included.
   */
  method GenerateLayerThresholds(solidType: string, roughness: real, count: int) returns (r: Option<seq<real>>)
    ensures count <= 1 <==> r == None
    ensures count >= 2 ==> r == Some(Thresholds(count))
  {
    var stops := CumulativeStops(solidType, roughness, count);
    var maxVal := stops[|stops| - 1];
    ghost var g := InitialGap(solidType, roughness);
    if count >= 2 {
      GeoPositive(count - 1);
      PositiveProduct(g, Geo(count - 1));
    }
    if maxVal == 0.0 {
      // 0 / 0: every threshold is NaN
      return None;
    }
    var t := seq(|stops|, j requires 0 <= j < |stops| => Lowest + stops[j] / maxVal * Span);
    NormaliseScaled(g, GeoStops(count));
    assert t == Normalise(stops);
    r := Some(t);
  }

  /** For `count >= 2`: `count` thresholds, from 0.08 to 0.83, strictly increasing. */
  lemma ThresholdsShape(count: nat)
    requires count >= 2
    ensures |Thresholds(count)| == count
    ensures Thresholds(count)[0] == Lowest && Thresholds(count)[count - 1] == Lowest + Span
    ensures forall i, j :: 0 <= i < j < count ==> Thresholds(count)[i] < Thresholds(count)[j]
    ensures forall i :: 0 <= i < count ==> Lowest <= Thresholds(count)[i] <= Lowest + Span
  {
    var t, d := Thresholds(count), Geo(count - 1);
    GeoPositive(count - 1);
    forall i, j | 0 <= i < j < count
      ensures t[i] < t[j]
    {
      GeoIncreasing(i, j);
      DivLess(Geo(i), Geo(j), d);
    }
    assert d / d == 1.0;
    forall i | 0 <= i < count
      ensures Lowest <= t[i] <= Lowest + Span
    {
      if i < count - 1 {
        GeoIncreasing(i, count - 1);
        DivLess(Geo(i), d, d);
      }
      GeoNonNegative(i);
      DivNonNegative(Geo(i), d);
    }
  }

  /** One more gap: the next stop and the next gap, scaled by the first gap. */
  lemma NextStop(g: real, i: nat)
    requires i >= 1
    ensures Stop(g, i) == Stop(g, i - 1) + Gap(g, i - 1)
    ensures Gap(g, i) == Gap(g, i - 1) * GapGrowth
  {
    var a, b := Geo(i - 1), Growth(i - 1);
    assert Geo(i) == a + b && Growth(i) == b * GapGrowth;
    Distribute(g, a, b);
  }

  lemma StopsSnoc(g: real, i: nat)
    ensures Scale(g, GeoStops(i + 1)) == Scale(g, GeoStops(i)) + [Stop(g, i)]
  {
    var x := Geo(i);
    assert GeoStops(i + 1) == GeoStops(i) + [x];
    ScaleSnoc(g, GeoStops(i), x);
    assert Stop(g, i) == g * x;
  }

  lemma ScaleSnoc(g: real, b: seq<real>, x: real)
    ensures Scale(g, b + [x]) == Scale(g, b) + [g * x]
  {
    var l, r := Scale(g, b + [x]), Scale(g, b) + [g * x];
    forall j | 0 <= j < |l|
      ensures l[j] == r[j]
    {
      if j < |b| {
        assert (b + [x])[j] == b[j];
      }
    }
    assert l == r;
  }

  lemma Distribute(g: real, a: real, b: real)
    ensures g * (a + b) == g * a + g * b
  {
  }

  lemma PositiveProduct(x: real, y: real)
    requires x > 0.0 && y > 0.0
    ensures x * y > 0.0
  {
  }

  /** Normalising cancels a common positive factor. */
  lemma NormaliseScaled(g: real, b: seq<real>)
    requires g > 0.0 && |b| >= 1 && b[|b| - 1] != 0.0
    ensures Scale(g, b)[|b| - 1] != 0.0
    ensures Normalise(Scale(g, b)) == Normalise(b)
  {
    var s, d := Scale(g, b), b[|b| - 1];
    if s[|b| - 1] == 0.0 {
      ZeroProduct(g, d);
    }
    forall i | 0 <= i < |b|
      ensures Normalise(s)[i] == Normalise(b)[i]
    {
      CancelFactor(g, b[i], d, s[i], s[|b| - 1]);
    }
  }

  lemma ZeroProduct(x: real, y: real)
    requires x * y == 0.0 && x != 0.0
    ensures y == 0.0
  {
  }

  lemma {:induction false} GeoNonNegative(n: nat)
    ensures Geo(n) >= 0.0
  {
    if n > 0 {
      GeoNonNegative(n - 1);
    }
  }

  lemma GeoPositive(n: nat)
    requires n >= 1
    ensures Geo(n) > 0.0
  {
    GeoIncreasing(0, n);
  }

  /** The stops strictly increase: every gap is positive. */
  lemma {:induction false} GeoIncreasing(i: nat, j: nat)
    requires i < j
    ensures Geo(i) < Geo(j)
  {
    if i < j - 1 {
      GeoIncreasing(i, j - 1);
    }
  }

  lemma CancelFactor(g: real, a: real, d: real, x: real, y: real)
    requires g != 0.0 && d != 0.0 && x == g * a && y == g * d
    ensures x / y == a / d
  {
    var q := a / d;
    assert q * d == a;
    assert (g * d) * q == g * a;
  }

  lemma DivLess(a: real, b: real, d: real)
    requires a < b && d > 0.0
    ensures a / d < b / d
  {
    var x, y := a / d, b / d;
    assert x * d == a && y * d == b;
    assert (y - x) * d == b - a;
  }

  lemma DivNonNegative(a: real, d: real)
    requires a >= 0.0 && d > 0.0
    ensures a / d >= 0.0
  {
  }
}
