/**
 * `generateGeologyPaths` of planet-logic.ts: fault lines drawn as great-arc
 * segments on the sphere, each sampled 13 times and kept only where the
 * sample faces the viewer.
 *
 * The sphere projection (`cos`, `sin`, the tilt rotation) is not modelled:
 * a sample is kept as its latitude and longitude, and `visible` stands for
 * the test `z > -100` on the projected point. A path is the list of its
 * commands rather than SVG text.
 */
module Geology {
  import SeededStream

  datatype Command = MoveTo | LineTo

  /** A point of an arc, before projection. */
  datatype Sample = Sample(lat: real, lon: real)

  datatype Segment = Segment(cmd: Command, at: Sample)

  type Path = seq<Segment>

  /** The two ends of one fault line. */
  datatype Arc = Arc(lat1: real, lon1: real, lat2: real, lon2: real)

  /** Samples `t = 0 .. 12` are taken along each arc. */
  const LastSample: nat := 12

  /** The number of arcs, `Math.ceil(8 * roughness)`. */
  function ArcCount(roughness: real): (n: int)
    ensures (n - 1) as real < 8.0 * roughness <= n as real
  {
    -((-(8.0 * roughness)).Floor)
  }

  /** The arc drawn from calls `k .. k + 3`; its second longitude is `lon1` plus a draw. */
  function ArcAt(rng: nat -> real, k: nat): Arc
  {
    var lon1 := rng(k + 1) * 6.28;
    Arc(rng(k) * 2.0 - 1.0, lon1, rng(k + 2) * 2.0 - 1.0, lon1 + rng(k + 3))
  }

  /** Sample `t` of an arc, `t / 12` of the way from its first end to its second. */
  function SampleAt(a: Arc, t: nat): Sample
  {
    var step := t as real / LastSample as real;
    Sample(a.lat1 + (a.lat2 - a.lat1) * step, a.lon1 + (a.lon2 - a.lon1) * step)
  }

  /** The path of the first `n` samples: each visible sample, as "M" if it is sample 0 and "L" otherwise. */
  function ArcPath(a: Arc, visible: Sample -> bool, n: nat): Path
  {
    if n == 0 then []
    else
      var t := n - 1;
      ArcPath(a, visible, t) + (if visible(SampleAt(a, t)) then [Segment(if t == 0 then MoveTo else LineTo, SampleAt(a, t))] else [])
  }

  /** The paths of the first `n` arcs drawn from `rng`, dropping empty ones. */
  function GeologyPaths(rng: nat -> real, visible: Sample -> bool, n: nat): seq<Path>
  {
    if n == 0 then []
    else
      var p := ArcPath(ArcAt(rng, 4 * (n - 1)), visible, LastSample + 1);
      GeologyPaths(rng, visible, n - 1) + (if p == [] then [] else [p])
  }

  /**
   * `generateGeologyPaths(rng, data)` for a planet of roughness `roughness`,
   * reading `rng(0), rng(1), ...`; also returns the number of calls made.
   */
  method GenerateGeologyPaths(rng: nat -> real, roughness: real, visible: Sample -> bool)
    returns (paths: seq<Path>, used: nat)
    ensures roughness <= 0.5 ==> paths == [] && used == 0
    ensures roughness > 0.5 ==> used == 4 * ArcCount(roughness)
    ensures roughness > 0.5 ==> paths == GeologyPaths(rng, visible, ArcCount(roughness))
  {
    paths := [];
    used := 0;
    if roughness > 0.5 {
      var count := ArcCount(roughness);
      var i := 0;
      while i < count
        invariant 0 <= i <= count
        invariant used == 4 * i
        invariant paths == GeologyPaths(rng, visible, i)
      {
        var a := DrawArc(rng, used);
        used := used + 4;
        var d := TraceArc(a, visible);
        if d != [] {
          paths := paths + [d];
        }
        i := i + 1;
      }
    }
  }

  /** The four calls that place one arc. */
  method DrawArc(rng: nat -> real, k: nat) returns (a: Arc)
    ensures a == ArcAt(rng, k)
  {
    var lat1 := rng(k) * 2.0 - 1.0;
    var lon1 := rng(k + 1) * 6.28;
    var lat2 := rng(k + 2) * 2.0 - 1.0;
    var lon2 := lon1 + rng(k + 3);
    a := Arc(lat1, lon1, lat2, lon2);
  }

  /** The inner loop: the 13 samples of arc `a`, keeping the visible ones. */
  method TraceArc(a: Arc, visible: Sample -> bool) returns (d: Path)
    ensures d == ArcPath(a, visible, LastSample + 1)
  {
    d := [];
    var t := 0;
    while t <= LastSample
      invariant 0 <= t <= LastSample + 1
      invariant d == ArcPath(a, visible, t)
    {
      var at := SampleAt(a, t);
      if visible(at) {
        d := d + [Segment(if t == 0 then MoveTo else LineTo, at)];
      }
      t := t + 1;
    }
  }

  /**
   * A path holds at most 13 visible samples, in order. It starts with "M"
   * exactly when sample 0 is visible; when sample 0 is hidden it starts with
   * "L", and every later command is "L".
   */
  lemma {:induction false} ArcPathShape(a: Arc, visible: Sample -> bool, n: nat)
    ensures |ArcPath(a, visible, n)| <= n
    ensures forall j :: 0 <= j < |ArcPath(a, visible, n)| ==> visible(ArcPath(a, visible, n)[j].at)
    ensures forall j :: 0 < j < |ArcPath(a, visible, n)| ==> ArcPath(a, visible, n)[j].cmd == LineTo
    ensures n > 0 ==> (ArcPath(a, visible, n) != [] && ArcPath(a, visible, n)[0].cmd == MoveTo <==> visible(SampleAt(a, 0)))
  {
    if n > 0 {
      ArcPathShape(a, visible, n - 1);
      if n == 1 {
        assert ArcPath(a, visible, 0) == [];
      } else {
        var p := ArcPath(a, visible, n - 1);
        assert ArcPath(a, visible, n)[..|p|] == p;
      }
    }
  }

  /** Every kept path is non-empty, and there is at most one per arc. */
  lemma {:induction false} GeologyPathsShape(rng: nat -> real, visible: Sample -> bool, n: nat)
    ensures |GeologyPaths(rng, visible, n)| <= n
    ensures forall j :: 0 <= j < |GeologyPaths(rng, visible, n)| ==> GeologyPaths(rng, visible, n)[j] != []
  {
    if n > 0 {
      GeologyPathsShape(rng, visible, n - 1);
    }
  }

  /** A rough planet (roughness above 0.5) draws at least five arcs; the second longitude lies in `[lon1, lon1 + 1)`. */
  lemma ArcFacts(rng: nat -> real, roughness: real, k: nat)
    requires SeededStream.UnitSource(rng)
    ensures roughness > 0.5 ==> ArcCount(roughness) >= 5
    ensures ArcAt(rng, k).lon1 <= ArcAt(rng, k).lon2 < ArcAt(rng, k).lon1 + 1.0
    ensures -1.0 <= ArcAt(rng, k).lat1 < 1.0 && -1.0 <= ArcAt(rng, k).lat2 < 1.0
  {
    assert 0.0 <= rng(k + 3) < 1.0;
    assert 0.0 <= rng(k) < 1.0 && 0.0 <= rng(k + 2) < 1.0;
  }
}
