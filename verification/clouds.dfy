/**
 * `generateCloudPaths` of planet-logic.ts: three or four cloud clusters, each
 * a stack of offset outlines along a wandering spine plus a smaller "sidecar"
 * stack attached at one end.
 *
 * Every number the generator computes is kept, on `real`, except the three
 * calls into `Math` it makes on floating-point values: `Math.sqrt`,
 * `Math.sin(x * Math.PI)` and `Math.pow`, which are the fields of a
 * `Geometry` parameter. An outline is kept as its list of path commands
 * rather than the `toFixed(1)` text.
 */
module Clouds {
  import opened Color
  import opened Planet
  import SeededStream
  import opened Options

  datatype Point = Point(x: real, y: real)

  /** One command of an SVG path. */
  datatype Segment = MoveTo(p: Point) | LineTo(p: Point) | Close

  /** `Math.sqrt`, `x => Math.sin(x * Math.PI)` and `Math.pow`. */
  datatype Geometry = Geometry(sqrt: real -> real, sinPi: real -> real, pow: (real, real) -> real)

  /** `Math.sqrt` of a non-negative number is non-negative. */
  ghost predicate SqrtNonNegative(g: Geometry) {
    forall x: real :: 0.0 <= x ==> 0.0 <= g.sqrt(x)
  }

  /**
   * One cloud outline. The key `cloud-<cluster>-<layer>-<serial>` is kept as
   * its three numbers.
   */
  datatype CloudElement = CloudElement(outline: seq<Segment>, fill: string, opacity: real, cluster: nat, layer: nat, serial: nat)

  const Radius: real := 640.0
  const Steps: nat := 60
  const SpineLength: nat := 61
  const DriftStrength: real := 1.0
  const ThicknessVariance: real := 10.0
  const MinThickness: real := 5.0
  const TaperPower: real := 0.5
  const CloudOpacity: real := 0.6
  /** The latitude range, as a fraction of the radius, shared out between the clusters. */
  const LatRange: real := 1.85
  /** How far a sidecar spine reaches back over the main spine. */
  const Overlap: real := 40.0

  // ---------------------------------------------------------------------------
  // generateCloudSpine

  /** `yDrift` after `n` steps of the random walk that reads calls `k, k + 1, ...`. */
  function Drift(rng: nat -> real, k: nat, n: nat): real
  {
    if n == 0 then 0.0 else (Drift(rng, k, n - 1) + (rng(k + n - 1) - 0.5) * DriftStrength) * 0.95
  }

  /** The damped walk never leaves [-9.5, 9.5]: a step adds less than 0.5 and the damping takes back 5%. */
  lemma {:induction false} DriftBounded(rng: nat -> real, k: nat, n: nat)
    requires SeededStream.UnitSource(rng)
    ensures -9.5 <= Drift(rng, k, n) <= 9.5
  {
    if n > 0 {
      DriftBounded(rng, k, n - 1);
      assert 0.0 <= rng(k + n - 1) < 1.0;
    }
  }

  /** The vertical bend that follows the sphere: `(xRel / R)^2 * yBase * -0.8`. */
  function SphereCurve(xRel: real, yBase: real): real
  {
    (xRel / Radius) * (xRel / Radius) * yBase * -0.8
  }

  /** The offset from the centre of spine point `i`: `startX + i * stepSize`. */
  function SpineX(width: real, xOffset: real, i: nat): real
  {
    -width / 2.0 + xOffset + i as real * (width / Steps as real)
  }

  /** Spine point `i`; the walk reads call `k + i`. */
  function SpinePoint(rng: nat -> real, k: nat, yBase: real, width: real, xOffset: real, i: nat): Point
  {
    var xRel := SpineX(width, xOffset, i);
    Point(500.0 + xRel, 500.0 + (yBase + SphereCurve(xRel, yBase)) + Drift(rng, k, i + 1))
  }

  /** The spine runs from `xOffset - width / 2` to `xOffset + width / 2` around the centre. */
  lemma SpineEnds(width: real, xOffset: real)
    ensures SpineX(width, xOffset, 0) == xOffset - width / 2.0
    ensures SpineX(width, xOffset, Steps) == xOffset + width / 2.0
  {
    assert Steps as real * (width / Steps as real) == width;
  }

  /** A spine point lies within 9.5 of the sphere curve at its own abscissa. */
  lemma SpinePointNearCurve(rng: nat -> real, k: nat, yBase: real, width: real, xOffset: real, i: nat)
    requires SeededStream.UnitSource(rng)
    ensures var p := SpinePoint(rng, k, yBase, width, xOffset, i);
      -9.5 <= p.y - 500.0 - yBase - SphereCurve(p.x - 500.0, yBase) <= 9.5
  {
    var xRel := SpineX(width, xOffset, i);
    assert (500.0 + xRel) - 500.0 == xRel;
    DriftBounded(rng, k, i + 1);
  }

  /** `generateCloudSpine(yBase, width, xOffset, R)`: 61 points, one call each. */
  method CloudSpine(rng: nat -> real, k: nat, yBase: real, width: real, xOffset: real)
    returns (points: seq<Point>, k': nat)
    requires SeededStream.UnitSource(rng)
    ensures k' == k + SpineLength && |points| == SpineLength
    ensures forall i :: 0 <= i < SpineLength ==> points[i] == SpinePoint(rng, k, yBase, width, xOffset, i)
    ensures forall i :: 0 <= i < SpineLength ==>
      -9.5 <= points[i].y - 500.0 - yBase - SphereCurve(points[i].x - 500.0, yBase) <= 9.5
    ensures points[0].x == 500.0 + xOffset - width / 2.0 && points[Steps].x == 500.0 + xOffset + width / 2.0
  {
    var startX := -width / 2.0 + xOffset;
    var stepSize := width / Steps as real;
    var yDrift := 0.0;
    points := [];
    k' := k;
    for i := 0 to Steps + 1
      invariant |points| == i && k' == k + i
      invariant yDrift == Drift(rng, k, i)
      invariant forall j :: 0 <= j < i ==> points[j] == SpinePoint(rng, k, yBase, width, xOffset, j)
    {
      var p;
      p, yDrift := SpineStep(rng, k, yBase, width, xOffset, startX, stepSize, i, yDrift);
      points := points + [p];
      k' := k' + 1;
    }
    forall i | 0 <= i < SpineLength
      ensures -9.5 <= points[i].y - 500.0 - yBase - SphereCurve(points[i].x - 500.0, yBase) <= 9.5
    {
      SpinePointNearCurve(rng, k, yBase, width, xOffset, i);
    }
    SpineEnds(width, xOffset);
  }

  /** One pass of `generateCloudSpine`'s loop: point `i`, with the walk's step read from call `k + i`. */
  method SpineStep(rng: nat -> real, k: nat, yBase: real, width: real, xOffset: real, startX: real, stepSize: real,
                   i: nat, yDrift: real)
    returns (p: Point, yDrift': real)
    requires startX == -width / 2.0 + xOffset && stepSize == width / Steps as real
    requires yDrift == Drift(rng, k, i)
    ensures p == SpinePoint(rng, k, yBase, width, xOffset, i) && yDrift' == Drift(rng, k, i + 1)
  {
    var xRel := startX + i as real * stepSize;
    assert xRel == SpineX(width, xOffset, i);
    var y := yBase + SphereCurve(xRel, yBase);
    yDrift' := yDrift + (rng(k + i) - 0.5) * DriftStrength;
    yDrift' := yDrift' * 0.95;
    y := y + yDrift';
    p := Point(500.0 + xRel, 500.0 + y);
  }

  // ---------------------------------------------------------------------------
  // generateCloudShapeFromSpine

  /**
   * The unit normal at point `j` of `s`, taken from the chord between its
   * neighbours (the point itself at either end): `(-dy, dx)`, divided by its
   * length when that is positive.
   */
  function Normal(g: Geometry, s: seq<Point>, j: nat): Point
    requires j < |s|
  {
    var prev := s[if j == 0 then 0 else j - 1];
    var next := s[if j + 1 < |s| then j + 1 else |s| - 1];
    var nx := -(next.y - prev.y);
    var ny := next.x - prev.x;
    var len := g.sqrt(nx * nx + ny * ny);
    if len > 0.0 then Point(nx / len, ny / len) else Point(nx, ny)
  }

  /** `thickness` after `n` points of the walk that reads calls `k, k + 2, ...`. */
  function Thickness(rng: nat -> real, k: nat, base: real, n: nat): real
  {
    if n == 0 then base
    else Max(MinThickness, Thickness(rng, k, base, n - 1) + (rng(k + 2 * (n - 1)) - 0.5) * (ThicknessVariance / 5.0))
  }

  /**
   * After the first point the thickness is at least 5, and it grows by less
   * than 1 per point from the larger of the base and 5.
   */
  lemma {:induction false} ThicknessRange(rng: nat -> real, k: nat, base: real, n: nat)
    requires SeededStream.UnitSource(rng)
    ensures n > 0 ==> MinThickness <= Thickness(rng, k, base, n)
    ensures Thickness(rng, k, base, n) <= Max(base, MinThickness) + n as real
  {
    if n > 0 {
      ThicknessRange(rng, k, base, n - 1);
      assert 0.0 <= rng(k + 2 * (n - 1)) < 1.0;
    }
  }

  /** The half-width of the outline at point `i`: `currentThick * 0.5 + jag`. */
  function Offset(rng: nat -> real, k: nat, base: real, noise: real, g: Geometry, n: nat, i: nat): real
    requires 2 <= n
  {
    var thickMod := g.pow(g.sinPi(i as real / (n - 1) as real), TaperPower);
    Thickness(rng, k, base, i + 1) * thickMod * 0.5 + (rng(k + 2 * i + 1) - 0.5) * noise * thickMod
  }

  /** `p` moved by `off` along the normal `nrm`. */
  function Above(p: Point, nrm: Point, off: real): Point
  {
    Point(p.x + nrm.x * off, p.y + nrm.y * off)
  }

  /** `p` moved by `off` against the normal `nrm`. */
  function Below(p: Point, nrm: Point, off: real): Point
  {
    Point(p.x - nrm.x * off, p.y - nrm.y * off)
  }

  /** Point `i` of the upper edge. */
  function TopAt(s: seq<Point>, rng: nat -> real, k: nat, base: real, noise: real, g: Geometry, i: nat): Point
    requires 3 <= |s| && i < |s|
  {
    Above(s[i], Normal(g, s, i), Offset(rng, k, base, noise, g, |s|, i))
  }

  /** Point `i` of the lower edge. */
  function BottomAt(s: seq<Point>, rng: nat -> real, k: nat, base: real, noise: real, g: Geometry, i: nat): Point
    requires 3 <= |s| && i < |s|
  {
    Below(s[i], Normal(g, s, i), Offset(rng, k, base, noise, g, |s|, i))
  }

  /** The two edges are mirror images of each other through the spine. */
  lemma EdgesMirror(s: seq<Point>, rng: nat -> real, k: nat, base: real, noise: real, g: Geometry, i: nat)
    requires 3 <= |s| && i < |s|
    ensures TopAt(s, rng, k, base, noise, g, i).x + BottomAt(s, rng, k, base, noise, g, i).x == 2.0 * s[i].x
    ensures TopAt(s, rng, k, base, noise, g, i).y + BottomAt(s, rng, k, base, noise, g, i).y == 2.0 * s[i].y
  {
  }

  /** The closed outline: along the upper edge, back along the lower edge, and `Z`. */
  function Outline(tops: seq<Point>, bots: seq<Point>): (d: seq<Segment>)
    requires 1 <= |tops| == |bots|
    ensures |d| == 2 * |tops| + 1
    ensures d[0] == MoveTo(tops[0]) && d[|d| - 1] == Close
    ensures forall j :: 1 <= j < |tops| ==> d[j] == LineTo(tops[j])
    ensures forall j :: 0 <= j < |bots| ==> d[2 * |tops| - 1 - j] == LineTo(bots[j])
  {
    var n := |tops|;
    [MoveTo(tops[0])]
      + seq(n - 1, j requires 0 <= j < n - 1 => LineTo(tops[j + 1]))
      + seq(n, j requires 0 <= j < n => LineTo(bots[n - 1 - j]))
      + [Close]
  }

  /** The outline `generateCloudShapeFromSpine` draws around a spine of at least three points. */
  function ShapeOutline(s: seq<Point>, rng: nat -> real, k: nat, base: real, noise: real, g: Geometry): seq<Segment>
    requires 3 <= |s|
  {
    Outline(seq(|s|, i requires 0 <= i < |s| => TopAt(s, rng, k, base, noise, g, i)),
            seq(|s|, i requires 0 <= i < |s| => BottomAt(s, rng, k, base, noise, g, i)))
  }

  /**
   * `generateCloudShapeFromSpine(s, {baseThickness: base, edgeNoise: noise})`:
   * nothing (the empty string) for fewer than three points, otherwise the
   * outline, with two calls per point.
   */
  method CloudShape(s: seq<Point>, base: real, noise: real, g: Geometry, rng: nat -> real, k: nat)
    returns (d: seq<Segment>, k': nat)
    ensures |s| < 3 ==> d == [] && k' == k
    ensures 3 <= |s| ==> d == ShapeOutline(s, rng, k, base, noise, g) && k' == k + 2 * |s|
    ensures 3 <= |s| ==> |d| == 2 * |s| + 1
  {
    if |s| < 3 {
      return [], k;
    }
    var tops, bots := [], [];
    var thickness := base;
    k' := k;
    for i := 0 to |s|
      invariant |tops| == |bots| == i && k' == k + 2 * i
      invariant thickness == Thickness(rng, k, base, i)
      invariant forall j :: 0 <= j < i ==> tops[j] == TopAt(s, rng, k, base, noise, g, j) && bots[j] == BottomAt(s, rng, k, base, noise, g, j)
    {
      var top, bot;
      top, bot, thickness := ShapePoint(s, base, noise, g, rng, k, i, thickness);
      tops, bots := tops + [top], bots + [bot];
      k' := k' + 2;
    }
    d := Outline(tops, bots);
    assert tops == seq(|s|, i requires 0 <= i < |s| => TopAt(s, rng, k, base, noise, g, i));
    assert bots == seq(|s|, i requires 0 <= i < |s| => BottomAt(s, rng, k, base, noise, g, i));
  }

  /**
   * One pass of the loop of `generateCloudShapeFromSpine`: the thickness walk
   * takes its next step, and point `i` of each edge is placed.
   */
  method ShapePoint(s: seq<Point>, base: real, noise: real, g: Geometry, rng: nat -> real, k: nat, i: nat, thickness: real)
    returns (top: Point, bot: Point, thickness': real)
    requires 3 <= |s| && i < |s| && thickness == Thickness(rng, k, base, i)
    ensures thickness' == Thickness(rng, k, base, i + 1)
    ensures top == TopAt(s, rng, k, base, noise, g, i) && bot == BottomAt(s, rng, k, base, noise, g, i)
  {
    var nrm := Normal(g, s, i);
    var progress := i as real / (|s| - 1) as real;
    var taper := g.sinPi(progress);
    var thickMod := g.pow(taper, TaperPower);
    thickness' := thickness + (rng(k + 2 * i) - 0.5) * (ThicknessVariance / 5.0);
    thickness' := Max(MinThickness, thickness');
    var currentThick := thickness' * thickMod;
    var jag := (rng(k + 2 * i + 1) - 0.5) * noise * thickMod;
    var off := currentThick * 0.5 + jag;
    assert off == Offset(rng, k, base, noise, g, |s|, i);
    top, bot := Above(s[i], nrm, off), Below(s[i], nrm, off);
  }

  // ---------------------------------------------------------------------------
  // createStack

  /** `Math.floor(n * Math.max(0.4, 1 - 0.08 i))`: the length of layer `i`'s slice. */
  function SubLength(n: nat, i: nat): int
  {
    (n as real * Max(0.4, 1.0 - i as real * 0.08)).Floor
  }

  /** `Math.floor(r * (slack * 0.8) + slack * 0.1)`: where a slice with `slack` spare points starts. */
  function StartIndex(slack: nat, r: real): int
  {
    (r * (slack as real * 0.8) + slack as real * 0.1).Floor
  }

  /** A slice is never longer than the spine. */
  lemma SubLengthRange(n: nat, i: nat)
    ensures 0 <= SubLength(n, i) <= n
  {
    var ratio := Max(0.4, 1.0 - i as real * 0.08);
    FractionOf(n as real, ratio);
    FloorWithin(n as real * ratio, n);
  }

  /** A slice starts within its slack, so it ends inside the spine. */
  lemma StartRange(slack: nat, r: real)
    requires 0.0 <= r < 1.0
    ensures 0 <= StartIndex(slack, r) <= slack
  {
    FractionOf(slack as real * 0.8, r);
    FloorWithin(r * (slack as real * 0.8) + slack as real * 0.1, slack);
  }

  lemma FloorWithin(x: real, n: int)
    requires 0.0 <= x <= n as real
    ensures 0 <= x.Floor <= n
  {
  }

  lemma FractionOf(a: real, f: real)
    requires 0.0 <= a && 0.0 <= f <= 1.0
    ensures 0.0 <= a * f <= a && f * a == a * f
  {
    MulLe(0.0, f, a);
    MulLe(f, 1.0, a);
    assert f * a == a * f;
  }

  /** On a 61-point spine every slice has at least 24 points, enough for an outline. */
  lemma FullSpineSlice(i: nat)
    ensures 24 <= SubLength(SpineLength, i)
  {
    var ratio := Max(0.4, 1.0 - i as real * 0.08);
    MulLe(0.4, ratio, SpineLength as real);
  }

  /** `baseSubSpine.map(...)`: each point pushed along its normal by `dist`, then sideways by `dx`. */
  function OffsetSpine(s: seq<Point>, g: Geometry, dist: real, dx: real): (o: seq<Point>)
    ensures |o| == |s|
  {
    seq(|s|, j requires 0 <= j < |s| =>
      var nrm := Normal(g, s, j);
      Point(s[j].x + nrm.x * dist + dx, s[j].y + nrm.y * dist))
  }

  /** The fill of layer `i`: the cluster colour, lighter for the lower layers. */
  function LayerFill(col: string, i: nat): (c: string)
    requires IsHexColor(col)
    ensures IsLowerHexColor(c)
  {
    ArtColor(col, 40.0 - i as real * 10.0, -5.0, 0.0)
  }

  /** What every element of cluster `c` satisfies. */
  predicate ClusterElement(e: CloudElement, c: nat, col: string)
    requires IsHexColor(col)
  {
    e.cluster == c && e.opacity == CloudOpacity && e.fill == LayerFill(col, e.layer) && e.outline != []
  }

  /**
   * The calls layer `i` of a stack on a spine of `len` points makes: the
   * start of its slice, its sideways shift, and two per point of its outline
   * when the slice has the three points an outline needs.
   */
  function LayerDraws(len: nat, i: nat): nat
  {
    var m := SubLength(len, i);
    2 + (if 3 <= m then 2 * m else 0)
  }

  /** The calls layers 0 to `n - 1` of a stack on a spine of `len` points make. */
  function StackDraws(len: nat, n: nat): nat
  {
    if n == 0 then 0 else StackDraws(len, n - 1) + LayerDraws(len, n - 1)
  }

  /** The calls of a stack on a 61-point spine, by its number of layers. */
  lemma {:induction false} FullStackDraws(n: nat)
    requires n <= 9
    ensures StackDraws(SpineLength, n) == [0, 124, 238, 342, 436, 520, 594, 658, 712, 762][n]
  {
    if n > 0 {
      FullStackDraws(n - 1);
      FullSlices(n - 1);
    }
  }

  /** The slice lengths of layers 0 to 8 on a 61-point spine. */
  lemma FullSlices(i: nat)
    requires i <= 8
    ensures SubLength(SpineLength, i) == [61, 56, 51, 46, 41, 36, 31, 26, 24][i]
  {
    var ratio := Max(0.4, 1.0 - i as real * 0.08);
    assert ratio == [1.0, 0.92, 0.84, 0.76, 0.68, 0.6, 0.52, 0.44, 0.4][i];
  }

  /**
   * One pass of `createStack`'s loop, for layer `i` of cluster `c`: a call for
   * the start of the slice, a call for the sideways shift, then the outline of
   * the slice offset by `14 i * scale` along its normals in the stacking
   * direction `dir`. No element when the outline is empty.
   */
  method StackLayer(spine: seq<Point>, i: nat, scale: real, dir: real, col: string, c: nat, serial: nat,
                    g: Geometry, rng: nat -> real, k: nat)
    returns (e: Option<CloudElement>, k': nat)
    requires SeededStream.UnitSource(rng) && IsHexColor(col)
    ensures k' == k + LayerDraws(|spine|, i)
    ensures e.Some? <==> 3 <= SubLength(|spine|, i)
    ensures e.Some? ==> ClusterElement(e.value, c, col) && e.value.layer == i && e.value.serial == serial
    ensures |spine| == SpineLength ==> e.Some? && |e.value.outline| == 2 * SubLength(SpineLength, i) + 1
  {
    var subLength := SubLength(|spine|, i);
    var slack := |spine| - subLength;
    SubLengthRange(|spine|, i);
    StartRange(slack, rng(k));
    var startIdx := StartIndex(slack, rng(k));
    var baseSubSpine := spine[startIdx..startIdx + subLength];
    var offsetDist := i as real * 14.0 * scale * dir;
    var disjointX := (rng(k + 1) - 0.5) * 20.0 * scale;
    var offsetSubSpine := OffsetSpine(baseSubSpine, g, offsetDist, disjointX);
    var d;
    d, k' := CloudShape(offsetSubSpine, (35.0 - i as real * 2.0) * scale, (12.0 + i as real) * scale, g, rng, k + 2);
    if |spine| == SpineLength {
      FullSpineSlice(i);
    }
    if d != [] {
      e := Some(CloudElement(d, LayerFill(col, i), CloudOpacity, c, i, serial));
    } else {
      e := None;
    }
  }

  /**
   * `createStack(spine, layers, scale)` for cluster `c`, numbering its
   * elements from `serial`: layers 0 to `layers`, each drawn when its outline
   * is not empty, which on a 61-point spine is every layer.
   */
  method CreateStack(spine: seq<Point>, layers: nat, scale: real, dir: real, col: string, c: nat, serial: nat,
                     g: Geometry, rng: nat -> real, k: nat)
    returns (es: seq<CloudElement>, k': nat)
    requires SeededStream.UnitSource(rng) && IsHexColor(col)
    ensures |es| <= layers + 1 && k' == k + StackDraws(|spine|, layers + 1) && k + 2 * (layers + 1) <= k'
    ensures forall j :: 0 <= j < |es| ==> ClusterElement(es[j], c, col) && es[j].serial == serial + j && es[j].layer <= layers
    ensures |spine| == SpineLength ==> |es| == layers + 1 && forall j :: 0 <= j < |es| ==> es[j].layer == j
  {
    es := [];
    k' := k;
    for i := 0 to layers + 1
      invariant |es| <= i && k' == k + StackDraws(|spine|, i) && k + 2 * i <= k'
      invariant forall j :: 0 <= j < |es| ==> ClusterElement(es[j], c, col) && es[j].serial == serial + j && es[j].layer < i
      invariant |spine| == SpineLength ==> |es| == i && forall j :: 0 <= j < |es| ==> es[j].layer == j
    {
      es, k' := StackStep(spine, i, scale, dir, col, c, serial, g, rng, k, es, k');
    }
  }

  /** One pass of `createStack`'s loop: layer `i` appended when its outline is not empty. */
  method StackStep(spine: seq<Point>, i: nat, scale: real, dir: real, col: string, c: nat, serial: nat,
                   g: Geometry, rng: nat -> real, k: nat, es: seq<CloudElement>, k': nat)
    returns (es': seq<CloudElement>, k'': nat)
    requires SeededStream.UnitSource(rng) && IsHexColor(col)
    requires |es| <= i && k' == k + StackDraws(|spine|, i) && k + 2 * i <= k'
    requires forall j :: 0 <= j < |es| ==> ClusterElement(es[j], c, col) && es[j].serial == serial + j && es[j].layer < i
    requires |spine| == SpineLength ==> |es| == i && forall j :: 0 <= j < |es| ==> es[j].layer == j
    ensures |es'| <= i + 1 && k'' == k + StackDraws(|spine|, i + 1) && k + 2 * (i + 1) <= k''
    ensures forall j :: 0 <= j < |es'| ==> ClusterElement(es'[j], c, col) && es'[j].serial == serial + j && es'[j].layer < i + 1
    ensures |spine| == SpineLength ==> |es'| == i + 1 && forall j :: 0 <= j < |es'| ==> es'[j].layer == j
  {
    var e;
    e, k'' := StackLayer(spine, i, scale, dir, col, c, serial + |es|, g, rng, k');
    es' := es;
    if e.Some? {
      es' := es + [e.value];
    }
  }

  // ---------------------------------------------------------------------------
  // Clusters

  /** The height of each cluster's latitude zone. */
  function Zone(count: nat): real
    requires 0 < count
  {
    LatRange / count as real
  }

  /** The top of cluster `c`'s zone. */
  function ZoneTop(c: nat, count: nat): real
    requires 0 < count
  {
    -(LatRange / 2.0) + c as real * Zone(count)
  }

  /** The chord of the planet at height `yBase`: `Math.sqrt(Math.max(0, R^2 - yBase^2)) * 2`. */
  function Chord(g: Geometry, yBase: real): real
  {
    g.sqrt(Max(0.0, Radius * Radius - yBase * yBase)) * 2.0
  }

  /** The colour of a cluster: the cloud colour, darker and less saturated away from the equator. */
  function ClusterColor(cloudHex: string, latPos: real): (c: string)
    requires IsHexColor(cloudHex)
    ensures IsLowerHexColor(c) && IsHexColor(c)
  {
    var dist := if latPos < 0.0 then -latPos else latPos;
    ArtColor(cloudHex, dist * -15.0, dist * -5.0, 0.0)
  }

  /** The latitude drawn for cluster `c` of `count` by a call returning `r`. */
  function Latitude(c: nat, count: nat, r: real): real
    requires 0 < count
  {
    ZoneTop(c, count) + r * Zone(count) * 0.8 + Zone(count) * 0.1
  }

  /** A latitude drawn in the middle 80% of zone `c` stays strictly inside the range. */
  lemma LatitudeInZone(c: nat, count: nat, r: real)
    requires c < count && 0.0 <= r < 1.0
    ensures ZoneTop(c, count) + Zone(count) * 0.1 <= Latitude(c, count, r) < ZoneTop(c, count) + Zone(count) * 0.9
    ensures -(LatRange / 2.0) < Latitude(c, count, r) < LatRange / 2.0
  {
    var z := Zone(count);
    assert count as real * z == LatRange;
    MulLe(0.0, r, z * 0.8);
    MulLeft(r, 1.0, z * 0.8);
    MulLe(c as real + 0.9, count as real - 0.1, z);
  }

  /** The spine width for a chord and a call returning `r`: 20% to 90% of the chord. */
  function SpineWidth(chord: real, r: real): real
  {
    chord * (0.2 + r * 0.7)
  }

  /** The spine centre for a chord, a width and a call returning `r`. */
  function SpineCentre(chord: real, width: real, r: real): real
  {
    r * ((chord - width) / 2.0) * 2.0 - (chord - width) / 2.0
  }

  /** A width of 20% to 90% of the chord, centred by the offset draw, keeps the spine on the chord. */
  lemma SpineOnChord(chord: real, r1: real, r2: real)
    requires 0.0 <= chord && 0.0 <= r1 < 1.0 && 0.0 <= r2 < 1.0
    ensures 0.2 * chord <= SpineWidth(chord, r1) <= 0.9 * chord
    ensures var w := SpineWidth(chord, r1); var x := SpineCentre(chord, w, r2);
      -(chord / 2.0) <= x - w / 2.0 && x + w / 2.0 <= chord / 2.0
  {
    var w := chord * (0.2 + r1 * 0.7);
    MulLe(0.2, 0.2 + r1 * 0.7, chord);
    MulLe(0.2 + r1 * 0.7, 0.9, chord);
    assert w == SpineWidth(chord, r1);
    var m := (chord - w) / 2.0;
    MulLe(0.0, r2, m * 2.0);
    MulLe(r2, 1.0, m * 2.0);
    assert SpineCentre(chord, w, r2) == r2 * (m * 2.0) - m;
  }

  /**
   * Where cluster `c` of `count` goes, with three calls: a latitude in the
   * middle of its zone, and a spine width and centre that keep the spine on
   * the planet's chord at that latitude.
   */
  method Placement(rng: nat -> real, k: nat, c: nat, count: nat, g: Geometry)
    returns (latPos: real, yBase: real, width: real, xOffset: real, k': nat)
    requires SeededStream.UnitSource(rng) && SqrtNonNegative(g) && c < count
    ensures k' == k + 3 && yBase == latPos * Radius
    ensures latPos == Latitude(c, count, rng(k))
    ensures width == SpineWidth(Chord(g, yBase), rng(k + 1)) && xOffset == SpineCentre(Chord(g, yBase), width, rng(k + 2))
    ensures ZoneTop(c, count) + Zone(count) * 0.1 <= latPos < ZoneTop(c, count) + Zone(count) * 0.9
    ensures -(LatRange / 2.0) < latPos < LatRange / 2.0
    ensures 0.2 * Chord(g, yBase) <= width <= 0.9 * Chord(g, yBase)
    ensures -(Chord(g, yBase) / 2.0) <= xOffset - width / 2.0 && xOffset + width / 2.0 <= Chord(g, yBase) / 2.0
  {
    var zoneSize := LatRange / count as real;
    var zoneTop := -(LatRange / 2.0) + c as real * zoneSize;
    latPos := zoneTop + (rng(k) * zoneSize * 0.8) + (zoneSize * 0.1);
    assert latPos == Latitude(c, count, rng(k));
    LatitudeInZone(c, count, rng(k));
    yBase := latPos * Radius;
    var maxChord := g.sqrt(Max(0.0, Radius * Radius - yBase * yBase)) * 2.0;
    assert maxChord == Chord(g, yBase) && 0.0 <= maxChord;
    width := maxChord * (0.2 + rng(k + 1) * 0.7);
    var maxOffset := (maxChord - width) / 2.0;
    xOffset := (rng(k + 2) * maxOffset * 2.0) - maxOffset;
    assert width == SpineWidth(maxChord, rng(k + 1)) && xOffset == SpineCentre(maxChord, width, rng(k + 2));
    SpineOnChord(maxChord, rng(k + 1), rng(k + 2));
    k' := k + 3;
  }

  /**
   * The sidecar spine, with a call for the side, a call for the width and the
   * spine's own 61: it starts (or ends) 40 inside the end of the main spine it
   * is attached to, on the side the first call chose, and is 80 to 180 wide.
   */
  method Sidecar(rng: nat -> real, k: nat, spine: seq<Point>, yBase: real)
    returns (side: seq<Point>, goRight: bool, k': nat)
    requires SeededStream.UnitSource(rng) && |spine| == SpineLength
    ensures k' == k + 2 + SpineLength && |side| == SpineLength
    ensures goRight <==> rng(k) > 0.5
    ensures goRight ==> side[0].x == spine[Steps].x - Overlap
    ensures !goRight ==> side[Steps].x == spine[0].x + Overlap
    ensures 80.0 <= side[Steps].x - side[0].x < 180.0
  {
    goRight := rng(k) > 0.5;
    var attachPoint := if goRight then spine[|spine| - 1] else spine[0];
    var attachRelX := attachPoint.x - 500.0;
    var sidecarWidth := (rng(k + 1) * 100.0) + 80.0;
    var sidecarCenterOffset := if goRight then attachRelX + (sidecarWidth / 2.0) - Overlap
                               else attachRelX - (sidecarWidth / 2.0) + Overlap;
    side, k' := CloudSpine(rng, k + 2, yBase, sidecarWidth, sidecarCenterOffset);
  }

  /** What every element of a cluster at latitude `latPos` satisfies. */
  predicate ClusterAt(e: CloudElement, c: nat, cloudHex: string, latPos: real)
    requires IsHexColor(cloudHex)
  {
    ClusterElement(e, c, ClusterColor(cloudHex, latPos))
  }

  /** The call that draws the number of main layers of the cluster whose first call is `k`: after the placement and the spine. */
  function MainLayersCall(k: nat): nat
  {
    k + 3 + SpineLength
  }

  /** The index of the last main layer: 4 to 7. */
  function MainLayers(rng: nat -> real, k: nat): nat
    requires SeededStream.UnitSource(rng)
  {
    PickIndex(rng(MainLayersCall(k)), 4) + 4
  }

  /** The call that draws the number of sidecar layers: after the main stack, the side, the width and the sidecar spine. */
  function SidecarLayersCall(rng: nat -> real, k: nat): nat
    requires SeededStream.UnitSource(rng)
  {
    MainLayersCall(k) + 1 + StackDraws(SpineLength, MainLayers(rng, k) + 1) + 2 + SpineLength
  }

  /** The index of the last sidecar layer: 2 to 4. */
  function SidecarLayers(rng: nat -> real, k: nat): nat
    requires SeededStream.UnitSource(rng)
  {
    PickIndex(rng(SidecarLayersCall(rng, k)), 3) + 2
  }

  /** The first call after the cluster whose first call is `k`. */
  function ClusterEnd(rng: nat -> real, k: nat): nat
    requires SeededStream.UnitSource(rng)
  {
    SidecarLayersCall(rng, k) + 1 + StackDraws(SpineLength, SidecarLayers(rng, k) + 1)
  }

  /** A cluster makes 991 to 1361 calls: 129 for its placement, spines and layer counts, and 5 to 8 main and 3 to 5 sidecar layers. */
  lemma ClusterDrawsRange(rng: nat -> real, k: nat)
    requires SeededStream.UnitSource(rng)
    ensures k + 991 <= ClusterEnd(rng, k) <= k + 1361
  {
    FullStackDraws(MainLayers(rng, k) + 1);
    FullStackDraws(SidecarLayers(rng, k) + 1);
  }

  /**
   * Cluster `c` of `count`, numbering its elements from `serial`: the main
   * stack of 5 to 8 layers on a spine of the placement's width, then the
   * sidecar stack of 3 to 5 layers at 0.75 scale. `latPos` is the latitude
   * the placement drew.
   */
  method Cluster(rng: nat -> real, k: nat, c: nat, count: nat, cloudHex: string, g: Geometry, serial: nat)
    returns (es: seq<CloudElement>, ghost latPos: real, k': nat)
    requires SeededStream.UnitSource(rng) && SqrtNonNegative(g) && c < count && IsHexColor(cloudHex)
    ensures |es| == (MainLayers(rng, k) + 1) + (SidecarLayers(rng, k) + 1)
    ensures 8 <= |es| <= 13 && k' == ClusterEnd(rng, k)
    ensures ZoneTop(c, count) + Zone(count) * 0.1 <= latPos < ZoneTop(c, count) + Zone(count) * 0.9
    ensures forall j :: 0 <= j < |es| ==> ClusterAt(es[j], c, cloudHex, latPos) && es[j].serial == serial + j
  {
    var lat, yBase, width, xOffset;
    lat, yBase, width, xOffset, k' := Placement(rng, k, c, count, g);
    latPos := lat;
    var col := ClusterColor(cloudHex, lat);
    var spine;
    spine, k' := CloudSpine(rng, k', yBase, width, xOffset);
    var stackingDirection := if yBase < 0.0 then -1.0 else 1.0;
    assert k' == MainLayersCall(k);
    var mainLayers := PickIndex(rng(k'), 4) + 4;
    assert mainLayers == MainLayers(rng, k);
    var main;
    main, k' := CreateStack(spine, mainLayers, 1.0, stackingDirection, col, c, serial, g, rng, k' + 1);
    var sidecarSpine, goRight;
    sidecarSpine, goRight, k' := Sidecar(rng, k', spine, yBase);
    assert k' == SidecarLayersCall(rng, k);
    var sidecarLayers := PickIndex(rng(k'), 3) + 2;
    assert sidecarLayers == SidecarLayers(rng, k);
    var sidecar;
    sidecar, k' := CreateStack(sidecarSpine, sidecarLayers, 0.75, stackingDirection, col, c, serial + |main|, g, rng, k' + 1);
    es := main + sidecar;
    assert forall j :: 0 <= j < |es| ==> es[j] == if j < |main| then main[j] else sidecar[j - |main|];
  }

  /**
   * The elements of the first `|lats|` clusters, numbered in order: element
   * `j` has serial `j`, clusters follow each other, and every element of
   * cluster `c` carries the colour of the latitude `lats[c]`.
   */
  predicate Numbered(es: seq<CloudElement>, lats: seq<real>, cloudHex: string)
    requires IsHexColor(cloudHex)
  {
    && (forall j :: 0 <= j < |es| ==> es[j].serial == j && es[j].cluster < |lats|)
    && (forall j :: 0 <= j < |es| ==> ClusterAt(es[j], es[j].cluster, cloudHex, lats[es[j].cluster]))
    && (forall i, j :: 0 <= i <= j < |es| ==> es[i].cluster <= es[j].cluster)
  }

  /** Every latitude lies in the middle 80% of its zone. */
  predicate InZones(lats: seq<real>, count: nat)
    requires 0 < count
  {
    forall c :: 0 <= c < |lats| ==> ZoneTop(c, count) + Zone(count) * 0.1 <= lats[c] < ZoneTop(c, count) + Zone(count) * 0.9
  }

  /** The first call after `n` clusters, the first of which starts at call `k`. */
  function CloudsEnd(rng: nat -> real, k: nat, n: nat): nat
    requires SeededStream.UnitSource(rng)
  {
    if n == 0 then k else ClusterEnd(rng, CloudsEnd(rng, k, n - 1))
  }

  /** `n` clusters make 991 to 1361 calls each. */
  lemma {:induction false} CloudsDrawsRange(rng: nat -> real, k: nat, n: nat)
    requires SeededStream.UnitSource(rng)
    ensures k + 991 * n <= CloudsEnd(rng, k, n) <= k + 1361 * n
  {
    if n > 0 {
      CloudsDrawsRange(rng, k, n - 1);
      ClusterDrawsRange(rng, CloudsEnd(rng, k, n - 1));
    }
  }

  /**
   * `generateCloudPaths(rng, data)`: nothing when the atmosphere is thinner
   * than 0.1; otherwise three or four clusters, of 8 to 13 elements each,
   * numbered in order. The first call draws the number of clusters; `used`
   * counts the calls made, and `lats` holds the latitude each cluster drew.
   */
  method GenerateCloudPaths(rng: nat -> real, data: PlanetData, g: Geometry)
    returns (es: seq<CloudElement>, used: nat, ghost lats: seq<real>)
    requires SeededStream.UnitSource(rng) && SqrtNonNegative(g) && ColorsWellFormed(data)
    ensures data.atmosDensity < 0.1 <==> es == []
    ensures data.atmosDensity >= 0.1 ==> 24 <= |es| <= 52 && forall j :: 0 <= j < |es| ==> es[j].serial == j && es[j].cluster < 4
    ensures data.atmosDensity < 0.1 ==> lats == [] && used == 0
    ensures data.atmosDensity >= 0.1 ==> |lats| == PickIndex(rng(0), 2) + 3 && used == CloudsEnd(rng, 1, |lats|)
    ensures data.atmosDensity >= 0.1 ==> 3 <= |lats| <= 4 && 8 * |lats| <= |es| <= 13 * |lats| && InZones(lats, |lats|)
    ensures Numbered(es, lats, data.cloudHex)
  {
    es, used, lats := [], 0, [];
    if data.atmosDensity < 0.1 {
      return;
    }
    var clusterCount := PickIndex(rng(0), 2) + 3;
    used := 1;
    for c := 0 to clusterCount
      invariant |lats| == c && 8 * c <= |es| <= 13 * c && used == CloudsEnd(rng, 1, c)
      invariant InZones(lats, clusterCount) && Numbered(es, lats, data.cloudHex)
    {
      es, used, lats := NextCluster(rng, c, clusterCount, data.cloudHex, g, es, used, lats);
    }
  }

  /** One pass of `generateCloudPaths`'s loop: cluster `c` appended after the first `c`. */
  method NextCluster(rng: nat -> real, c: nat, count: nat, cloudHex: string, g: Geometry,
                     es: seq<CloudElement>, used: nat, ghost lats: seq<real>)
    returns (es': seq<CloudElement>, used': nat, ghost lats': seq<real>)
    requires SeededStream.UnitSource(rng) && SqrtNonNegative(g) && c < count && IsHexColor(cloudHex)
    requires |lats| == c && 8 * c <= |es| <= 13 * c && used == CloudsEnd(rng, 1, c)
    requires InZones(lats, count) && Numbered(es, lats, cloudHex)
    ensures |lats'| == c + 1 && 8 * (c + 1) <= |es'| <= 13 * (c + 1) && used' == CloudsEnd(rng, 1, c + 1)
    ensures InZones(lats', count) && Numbered(es', lats', cloudHex)
  {
    var cluster;
    ghost var latPos;
    cluster, latPos, used' := Cluster(rng, used, c, count, cloudHex, g, |es|);
    ClustersAppend(es, cluster, lats, latPos, cloudHex);
    InZonesAppend(lats, latPos, count);
    es', lats' := es + cluster, lats + [latPos];
  }

  /** A latitude in the middle of the next zone extends latitudes that are in theirs. */
  lemma InZonesAppend(lats: seq<real>, latPos: real, count: nat)
    requires 0 < count && InZones(lats, count)
    requires ZoneTop(|lats|, count) + Zone(count) * 0.1 <= latPos < ZoneTop(|lats|, count) + Zone(count) * 0.9
    ensures InZones(lats + [latPos], count)
  {
    var lats' := lats + [latPos];
    assert forall c :: 0 <= c < |lats'| ==> lats'[c] == if c < |lats| then lats[c] else latPos;
  }

  lemma ClustersAppend(es: seq<CloudElement>, cluster: seq<CloudElement>, lats: seq<real>, latPos: real, cloudHex: string)
    requires IsHexColor(cloudHex) && Numbered(es, lats, cloudHex)
    requires forall j :: 0 <= j < |cluster| ==> ClusterAt(cluster[j], |lats|, cloudHex, latPos) && cluster[j].serial == |es| + j
    ensures Numbered(es + cluster, lats + [latPos], cloudHex)
  {
    var es', lats' := es + cluster, lats + [latPos];
    var c := |lats|;
    forall j | 0 <= j < |es'|
      ensures es'[j].serial == j && es'[j].cluster < c + 1
      ensures ClusterAt(es'[j], es'[j].cluster, cloudHex, lats'[es'[j].cluster])
    {
      if j < |es| {
        assert es'[j] == es[j] && lats'[es[j].cluster] == lats[es[j].cluster];
      } else {
        assert es'[j] == cluster[j - |es|] && lats'[c] == latPos;
      }
    }
  }
}
