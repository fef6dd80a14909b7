/**
 * `generateRingPaths` of planet-logic.ts: the rings around a planet, as
 * half-ellipses drawn twice, once behind the planet (180 to 360 degrees)
 * and once in front of it (0 to 180 degrees).
 *
 * A half-ellipse is kept as its radii and angles; the `cos`/`sin` endpoints
 * and the SVG text are not modelled. `wave` stands for
 * `Math.sin(progress * Math.PI * (10 + f * 10))`.
 */
module Rings {
  import opened Color
  import opened Text
  import opened Planet
  import SeededStream

  /** The half-ellipse centred on (500, 500) between two angles, in degrees. */
  datatype HalfEllipse = HalfEllipse(rx: real, ry: real, startAngle: int, endAngle: int)

  datatype RingElement = RingElement(d: HalfEllipse, stroke: string, width: real, opacity: real, front: bool, key: string)

  /** A band of the complex rings: its radii, its density and its number of particles. */
  datatype Band = Band(start: real, end: real, density: real, particles: nat)

  const Bands: seq<Band> := [Band(540.0, 650.0, 0.8, 200), Band(670.0, 800.0, 0.5, 200), Band(810.0, 825.0, 0.3, 30)]

  /** Particles fainter than this are not drawn. */
  const OpacityFloor: real := 0.04

  /** The back and front elements of one ring, keyed `<family>-back-<n>` and `<family>-front-<n>`. */
  function Pair(family: string, n: nat, rx: real, ry: real, stroke: string, width: real, opacity: real): (p: seq<RingElement>)
    ensures |p| == 2 && IsPair(p[0], p[1])
  {
    [RingElement(HalfEllipse(rx, ry, 180, 360), stroke, width, opacity, false, family + "-back-" + Decimal(n)),
     RingElement(HalfEllipse(rx, ry, 0, 180), stroke, width, opacity, true, family + "-front-" + Decimal(n))]
  }

  /** `b` is drawn behind the planet and `f` is its twin in front: same ellipse, stroke, width and opacity. */
  predicate IsPair(b: RingElement, f: RingElement) {
    && b.d == HalfEllipse(b.d.rx, b.d.ry, 180, 360) && f.d == HalfEllipse(b.d.rx, b.d.ry, 0, 180)
    && !b.front && f.front
    && b.stroke == f.stroke && b.width == f.width && b.opacity == f.opacity
  }

  /** Elements `2i` and `2i + 1` are a back/front pair. */
  predicate PairAt(es: seq<RingElement>, i: nat)
    requires 2 * i + 1 < |es|
  {
    IsPair(es[2 * i], es[2 * i + 1])
  }

  /** The elements come in back/front pairs. */
  predicate Paired(es: seq<RingElement>) {
    |es| % 2 == 0 && forall i :: 0 <= i < |es| / 2 ==> PairAt(es, i)
  }

  lemma PairedAppend(es: seq<RingElement>, p: seq<RingElement>)
    requires Paired(es) && |p| == 2 && IsPair(p[0], p[1])
    ensures Paired(es + p)
  {
    assert PairAt(p, 0);
    PairedConcat(es, p);
  }

  lemma PairedConcat(a: seq<RingElement>, b: seq<RingElement>)
    requires Paired(a) && Paired(b)
    ensures Paired(a + b)
  {
    var r := a + b;
    var h := |a| / 2;
    assert |a| == 2 * h;
    assert |b| % 2 == 0 && |b| == 2 * (|b| / 2);
    assert |r| / 2 == h + |b| / 2;
    forall i | 0 <= i < |r| / 2
      ensures PairAt(r, i)
    {
      if i < h {
        assert PairAt(a, i);
        assert r[2 * i] == a[2 * i] && r[2 * i + 1] == a[2 * i + 1];
      } else {
        var m := i - h;
        assert PairAt(b, m);
        assert r[2 * i] == b[2 * m] && r[2 * i + 1] == b[2 * m + 1];
      }
    }
  }

  // ---------------------------------------------------------------------------
  // Simple rings

  /** The two strokes of the simple rings: the base colour lightened (even rings) and darkened (odd rings). */
  function SimpleStrokes(ringBase: string): (st: (string, string))
    requires IsHexColor(ringBase)
    ensures IsLowerHexColor(st.0) && IsLowerHexColor(st.1)
  {
    (ArtColor(ringBase, 20.0, -10.0, 0.0), ArtColor(ringBase, -20.0, -10.0, 0.0))
  }

  /** Simple ring `i`, whose width and opacity come from calls `k + 2i` and `k + 2i + 1`. */
  function SimplePair(rng: nat -> real, k: nat, st: (string, string), i: nat): (p: seq<RingElement>)
    ensures |p| == 2 && IsPair(p[0], p[1])
  {
    var r := 600.0 + i as real * 20.0;
    Pair("s", i, r, r * 0.25, if i % 2 == 0 then st.0 else st.1, rng(k + 2 * i) * 8.0 + 2.0, rng(k + 2 * i + 1) * 0.3 + 0.1)
  }

  /** The first `n` simple rings. */
  function SimpleRingsUpTo(rng: nat -> real, k: nat, st: (string, string), n: nat): seq<RingElement>
  {
    if n == 0 then [] else SimpleRingsUpTo(rng, k, st, n - 1) + SimplePair(rng, k, st, n - 1)
  }

  /**
   * `b` and `f` are ring `i` of the simple rings: a back/front pair of radius
   * `600 + 20 i`, flattening 0.25, the stroke of its parity, a width in
   * [2, 10), an opacity in [0.1, 0.4), keys `s-back-i` and `s-front-i`.
   */
  predicate SimpleRingFacts(b: RingElement, f: RingElement, st: (string, string), i: nat) {
    && IsPair(b, f)
    && b.d.rx == 600.0 + 20.0 * i as real && b.d.ry == b.d.rx * 0.25
    && b.stroke == (if i % 2 == 0 then st.0 else st.1)
    && 2.0 <= b.width < 10.0 && 0.1 <= b.opacity < 0.4
    && b.key == "s-back-" + Decimal(i) && f.key == "s-front-" + Decimal(i)
  }

  /** Elements `2i` and `2i + 1` of `es` are ring `i` of the simple rings. */
  predicate SimpleRingAt(es: seq<RingElement>, st: (string, string), i: nat)
    requires 2 * i + 1 < |es|
  {
    SimpleRingFacts(es[2 * i], es[2 * i + 1], st, i)
  }

  /** The first `n` simple rings are `n` back/front pairs with the shape `SimpleRingFacts` gives. */
  lemma {:induction false} SimpleRingsShape(rng: nat -> real, k: nat, st: (string, string), n: nat)
    requires SeededStream.UnitSource(rng)
    ensures |SimpleRingsUpTo(rng, k, st, n)| == 2 * n && Paired(SimpleRingsUpTo(rng, k, st, n))
    ensures forall i :: 0 <= i < n ==> SimpleRingAt(SimpleRingsUpTo(rng, k, st, n), st, i)
  {
    if n > 0 {
      var prev := SimpleRingsUpTo(rng, k, st, n - 1);
      SimpleRingsShape(rng, k, st, n - 1);
      var p := SimplePair(rng, k, st, n - 1);
      PairedAppend(prev, p);
      SimplePairFacts(rng, k, st, n - 1);
      SimpleRingsSnoc(prev, p, st, n - 1);
    }
  }

  lemma SimplePairFacts(rng: nat -> real, k: nat, st: (string, string), i: nat)
    requires SeededStream.UnitSource(rng)
    ensures SimpleRingFacts(SimplePair(rng, k, st, i)[0], SimplePair(rng, k, st, i)[1], st, i)
  {
    assert 0.0 <= rng(k + 2 * i) < 1.0 && 0.0 <= rng(k + 2 * i + 1) < 1.0;
  }

  lemma SimpleRingsSnoc(prev: seq<RingElement>, p: seq<RingElement>, st: (string, string), m: nat)
    requires |prev| == 2 * m && |p| == 2
    requires forall i :: 0 <= i < m ==> SimpleRingAt(prev, st, i)
    requires SimpleRingFacts(p[0], p[1], st, m)
    ensures forall i :: 0 <= i < m + 1 ==> SimpleRingAt(prev + p, st, i)
  {
    var es := prev + p;
    forall i | 0 <= i < m + 1
      ensures SimpleRingAt(es, st, i)
    {
      if i < m {
        assert SimpleRingAt(prev, st, i);
        assert es[2 * i] == prev[2 * i] && es[2 * i + 1] == prev[2 * i + 1];
      } else {
        assert es[2 * i] == p[0] && es[2 * i + 1] == p[1];
      }
    }
  }

  /** The keys of the simple rings are pairwise distinct: `s-back-i` and `s-front-i` for each ring `i`. */
  lemma SimpleKeysDistinct(es: seq<RingElement>, st: (string, string), n: nat)
    requires |es| == 2 * n && forall i :: 0 <= i < n ==> SimpleRingAt(es, st, i)
    ensures forall i, j :: 0 <= i < j < |es| ==> es[i].key != es[j].key
  {
    forall i, j | 0 <= i < j < |es|
      ensures es[i].key != es[j].key
    {
      SimpleKey(es, st, n, i);
      SimpleKey(es, st, n, j);
      if i % 2 == j % 2 {
        assert i / 2 < j / 2;
        PrefixedDecimalInjective(SimpleFamily(i), i / 2, j / 2);
      } else {
        assert es[i].key[2] == SimpleFamily(i)[2] && es[j].key[2] == SimpleFamily(j)[2];
      }
    }
  }

  /** The key prefix of simple element `i`: backs at even positions, fronts at odd ones. */
  function SimpleFamily(i: nat): string
  {
    if i % 2 == 0 then "s-back-" else "s-front-"
  }

  lemma SimpleKey(es: seq<RingElement>, st: (string, string), n: nat, i: nat)
    requires |es| == 2 * n && forall i :: 0 <= i < n ==> SimpleRingAt(es, st, i)
    requires i < |es|
    ensures es[i].key == SimpleFamily(i) + Decimal(i / 2)
  {
    assert SimpleRingAt(es, st, i / 2);
  }

  /**
   * Eight rings, with two calls per ring. The stroke of a ring depends only on
   * the parity of its index, so the two strokes (`SimpleStrokes`) are computed
   * by the caller.
   */
  method SimpleRings(rng: nat -> real, k: nat, st: (string, string)) returns (es: seq<RingElement>, k': nat)
    requires SeededStream.UnitSource(rng)
    ensures k' == k + 16
    ensures es == SimpleRingsUpTo(rng, k, st, 8)
    ensures |es| == 16 && Paired(es)
    ensures forall i :: 0 <= i < 8 ==> SimpleRingAt(es, st, i)
  {
    es := [];
    k' := k;
    for i := 0 to 8
      invariant k' == k + 2 * i
      invariant es == SimpleRingsUpTo(rng, k, st, i)
    {
      var r := 600.0 + i as real * 20.0;
      var ry := r * 0.25;
      var width := rng(k') * 8.0 + 2.0;
      var opacity := rng(k' + 1) * 0.3 + 0.1;
      var color := if i % 2 == 0 then st.0 else st.1;
      assert width == rng(k + 2 * i) * 8.0 + 2.0 && opacity == rng(k + 2 * i + 1) * 0.3 + 0.1;
      var p := Pair("s", i, r, ry, color, width, opacity);
      assert p == SimplePair(rng, k, st, i);
      es := es + p;
      k' := k' + 2;
    }
    SimpleRingsShape(rng, k, st, 8);
  }

  // ---------------------------------------------------------------------------
  // Complex rings

  /** `data.liquid.frozenColor || "#e0f2fe"`. */
  function IceColor(data: PlanetData): string
  {
    if data.liquid.frozenColor == "" then "#e0f2fe" else data.liquid.frozenColor
  }

  /** The four particle colours: the solid, the ice, a lighter solid and a darker ice. */
  function RingPalette(data: PlanetData): (pal: seq<string>)
    requires ColorsWellFormed(data)
    ensures |pal| == 4 && forall c :: c in pal ==> IsHexColor(c)
  {
    var ice := IceColor(data);
    [data.solid.color, ice, ArtColor(data.solid.color, 15.0, -10.0, 0.0), ArtColor(ice, -15.0, 5.0, 0.0)]
  }

  /** What every particle element satisfies. */
  predicate Particle(e: RingElement, pal: seq<string>) {
    OpacityFloor <= e.opacity < 0.34 && e.stroke in pal && 1.0 <= e.width < 4.5 && 540.0 <= e.d.rx < 825.0
  }

  /** `Math.sin` returns a value in [-1, 1]. */
  ghost predicate WaveBounded(wave: (real, real) -> real) {
    forall p: real, f: real :: -1.0 <= wave(p, f) <= 1.0
  }

  /** A particle's opacity before the wave is added: the band's density, scaled by a draw. */
  function BaseOpacity(b: Band, r: real): real
  {
    (b.density * 0.3) * (0.5 + r * 0.5)
  }

  /** The base opacity is at most 0.24, reached in the densest band. */
  lemma BaseOpacityBound(b: Band, r: real)
    requires b in Bands && 0.0 <= r < 1.0
    ensures 0.0 <= BaseOpacity(b, r) < 0.24
  {
    var d := b.density * 0.3;
    assert 0.0 < d <= 0.24;
    MulLe(0.0, d, 0.5 + r * 0.5);
    MulLeft(0.5 + r * 0.5, 1.0, d);
  }

  /** What every special-feature element satisfies. */
  predicate Special(e: RingElement, stroke: string) {
    e.stroke == stroke && 0.7 <= e.opacity < 0.9 && 2.0 <= e.width < 4.0 && 540.0 <= e.d.rx < 825.0
  }

  /** The radius a fraction `p` of the way across band `b`. */
  function BandRadius(b: Band, p: real): real
  {
    b.start + p * (b.end - b.start)
  }

  /** The vertical radius of a ring of radius `r` seen at `perspective`. */
  function Flattened(r: real, perspective: real): real
  {
    r * perspective
  }

  /** A radius drawn inside a band lies between the innermost and outermost band edges. */
  lemma RadiusInBands(b: Band, p: real)
    requires b in Bands && 0.0 <= p < 1.0
    ensures 540.0 <= BandRadius(b, p) < 825.0
  {
    var w := b.end - b.start;
    assert 0.0 < w;
    MulLe(0.0, p, w);
    MulLeft(p, 1.0, w);
  }

  /** The particles drawn so far: their elements, the number of pairs (`pIdx`) and the next call. */
  datatype ParticleRun = ParticleRun(es: seq<RingElement>, pairs: nat, next: nat)

  /** The band of particle slot `s`: 200 slots in the first band, 200 in the second, 30 in the third. */
  function SlotBand(s: nat): (b: Band)
    ensures b in Bands
  {
    if s < 200 then Bands[0] else if s < 400 then Bands[1] else Bands[2]
  }

  /** The opacity of a particle of band `b` whose calls start at `j`: position, wave frequency, base opacity. */
  function SlotOpacity(rng: nat -> real, wave: (real, real) -> real, b: Band, j: nat): real
  {
    BaseOpacity(b, rng(j + 2)) + wave(rng(j), rng(j + 1)) * 0.1
  }

  /**
   * One particle slot of band `b` after the run `r`: three calls, and when
   * the opacity reaches the floor a pair keyed by `pIdx`, with two more
   * calls for its colour and width.
   */
  function ParticleStep(rng: nat -> real, pal: seq<string>, perspective: real, wave: (real, real) -> real,
                        b: Band, r: ParticleRun): ParticleRun
    requires SeededStream.UnitSource(rng) && |pal| == 4
  {
    var j := r.next;
    var radius := BandRadius(b, rng(j));
    var opacity := SlotOpacity(rng, wave, b, j);
    if opacity < OpacityFloor then ParticleRun(r.es, r.pairs, j + 3)
    else
      var p := Pair("c", r.pairs, radius, Flattened(radius, perspective), pal[PickIndex(rng(j + 3), 4)], 1.0 + rng(j + 4) * 3.5, opacity);
      ParticleRun(r.es + p, r.pairs + 1, j + 5)
  }

  /** The first `n` particle slots, from call `k` on. */
  function ParticlesUpTo(rng: nat -> real, k: nat, pal: seq<string>, perspective: real, wave: (real, real) -> real,
                         n: nat): ParticleRun
    requires SeededStream.UnitSource(rng) && |pal| == 4
  {
    if n == 0 then ParticleRun([], 0, k)
    else ParticleStep(rng, pal, perspective, wave, SlotBand(n - 1), ParticlesUpTo(rng, k, pal, perspective, wave, n - 1))
  }

  /**
   * A slot adds a pair exactly when its opacity reaches the floor; the pair
   * has that opacity, and the keys `c-back-<pIdx>` and `c-front-<pIdx>`.
   */
  lemma ParticleKept(rng: nat -> real, pal: seq<string>, perspective: real, wave: (real, real) -> real,
                     b: Band, r: ParticleRun)
    requires SeededStream.UnitSource(rng) && |pal| == 4
    ensures var r' := ParticleStep(rng, pal, perspective, wave, b, r);
      && (r'.pairs == r.pairs + 1 <==> SlotOpacity(rng, wave, b, r.next) >= OpacityFloor)
      && (r'.pairs == r.pairs <==> SlotOpacity(rng, wave, b, r.next) < OpacityFloor)
      && (r'.pairs == r.pairs ==> r'.es == r.es)
      && (r'.pairs == r.pairs + 1 ==>
            |r'.es| == |r.es| + 2 && r'.es[..|r.es|] == r.es
            && r'.es[|r.es|].opacity == SlotOpacity(rng, wave, b, r.next)
            && r'.es[|r.es|].key == "c-back-" + Decimal(r.pairs)
            && r'.es[|r.es| + 1].key == "c-front-" + Decimal(r.pairs))
  {
  }

  /**
   * After `n` slots: two elements per pair, at most one pair per slot, every
   * element a particle, and three to five calls per slot.
   */
  lemma {:induction false} ParticlesShape(rng: nat -> real, k: nat, pal: seq<string>, perspective: real,
                                          wave: (real, real) -> real, n: nat)
    requires SeededStream.UnitSource(rng) && |pal| == 4 && WaveBounded(wave)
    ensures var r := ParticlesUpTo(rng, k, pal, perspective, wave, n);
      && |r.es| == 2 * r.pairs && r.pairs <= n && Paired(r.es)
      && (forall j :: 0 <= j < |r.es| ==> Particle(r.es[j], pal))
      && k + 3 * n <= r.next <= k + 5 * n
  {
    if n > 0 {
      ParticlesShape(rng, k, pal, perspective, wave, n - 1);
      ParticleStepShape(rng, pal, perspective, wave, SlotBand(n - 1), ParticlesUpTo(rng, k, pal, perspective, wave, n - 1));
    }
  }

  /** One slot keeps the shape `ParticlesShape` states, and makes three to five calls. */
  lemma ParticleStepShape(rng: nat -> real, pal: seq<string>, perspective: real, wave: (real, real) -> real,
                          b: Band, r: ParticleRun)
    requires SeededStream.UnitSource(rng) && |pal| == 4 && WaveBounded(wave) && b in Bands
    requires |r.es| == 2 * r.pairs && Paired(r.es) && forall j :: 0 <= j < |r.es| ==> Particle(r.es[j], pal)
    ensures var r' := ParticleStep(rng, pal, perspective, wave, b, r);
      && |r'.es| == 2 * r'.pairs && r.pairs <= r'.pairs <= r.pairs + 1 && Paired(r'.es)
      && (forall j :: 0 <= j < |r'.es| ==> Particle(r'.es[j], pal))
      && r.next + 3 <= r'.next <= r.next + 5
  {
    var j := r.next;
    if SlotOpacity(rng, wave, b, j) >= OpacityFloor {
      RadiusInBands(b, rng(j));
      BaseOpacityBound(b, rng(j + 2));
      assert -1.0 <= wave(rng(j), rng(j + 1)) <= 1.0;
      var p := ParticleStep(rng, pal, perspective, wave, b, r).es[|r.es|..];
      assert ParticleStep(rng, pal, perspective, wave, b, r).es == r.es + p;
      assert pal[PickIndex(rng(j + 3), 4)] in pal;
      assert Particle(p[0], pal) && Particle(p[1], pal);
      PairedAppend(r.es, p);
      assert forall i :: 0 <= i < |r.es + p| ==> (r.es + p)[i] == (if i < |r.es| then r.es[i] else p[i - |r.es|]);
    }
  }

  /**
   * The particles of all three bands, in band order. `pairs` is the final
   * `pIdx`.
   */
  method RingParticles(rng: nat -> real, k: nat, pal: seq<string>, perspective: real, wave: (real, real) -> real)
    returns (es: seq<RingElement>, pairs: nat, k': nat)
    requires SeededStream.UnitSource(rng) && |pal| == 4 && WaveBounded(wave)
    ensures ParticleRun(es, pairs, k') == ParticlesUpTo(rng, k, pal, perspective, wave, 430)
    ensures |es| == 2 * pairs && pairs <= 430 && Paired(es)
    ensures forall j :: 0 <= j < |es| ==> Particle(es[j], pal)
    ensures k + 3 * 430 <= k' <= k + 5 * 430
  {
    es := [];
    pairs := 0;
    k' := k;
    ghost var done := 0;
    for b := 0 to 3
      invariant done == (if b == 0 then 0 else if b == 1 then 200 else if b == 2 then 400 else 430)
      invariant ParticleRun(es, pairs, k') == ParticlesUpTo(rng, k, pal, perspective, wave, done)
    {
      var band := Bands[b];
      for i := 0 to band.particles
        invariant ParticleRun(es, pairs, k') == ParticlesUpTo(rng, k, pal, perspective, wave, done + i)
      {
        assert SlotBand(done + i) == band;
        es, pairs, k' := ParticleSlot(rng, pal, perspective, wave, band, es, pairs, k');
      }
      done := done + band.particles;
    }
    ParticlesShape(rng, k, pal, perspective, wave, 430);
  }

  /**
   * One particle of `band`, after `pairs` pairs `es` and before call `k`:
   * position, wave and base opacity, and when the opacity reaches the
   * floor a pair with its colour and width.
   */
  method ParticleSlot(rng: nat -> real, pal: seq<string>, perspective: real, wave: (real, real) -> real, band: Band,
                      es: seq<RingElement>, pairs: nat, k: nat)
    returns (es': seq<RingElement>, pairs': nat, k': nat)
    requires SeededStream.UnitSource(rng) && |pal| == 4
    ensures ParticleRun(es', pairs', k') == ParticleStep(rng, pal, perspective, wave, band, ParticleRun(es, pairs, k))
  {
    es', pairs', k' := es, pairs, k;
    var progress := rng(k');
    var radius := band.start + progress * (band.end - band.start);
    var ry := radius * perspective;
    var w := wave(progress, rng(k' + 1));
    var baseOpacity := (band.density * 0.3) * (0.5 + rng(k' + 2) * 0.5);
    var finalOpacity := baseOpacity + w * 0.1;
    assert radius == BandRadius(band, progress) && ry == Flattened(radius, perspective);
    assert baseOpacity == BaseOpacity(band, rng(k' + 2));
    k' := k' + 3;
    if finalOpacity < OpacityFloor {
      return;
    }
    var color := pal[PickIndex(rng(k'), |pal|)];
    var width := 1.0 + rng(k' + 1) * 3.5;
    k' := k' + 2;
    es' := es' + Pair("c", pairs', radius, ry, color, width, finalOpacity);
    pairs' := pairs' + 1;
  }

  /** Special feature `i`, whose four calls start at `k + 1 + 4i`: band, radius, width, opacity. */
  function Feature(rng: nat -> real, k: nat, stroke: string, perspective: real, i: nat): (p: seq<RingElement>)
    requires SeededStream.UnitSource(rng)
    ensures |p| == 2 && IsPair(p[0], p[1])
  {
    var j := k + 1 + 4 * i;
    var band := Bands[PickIndex(rng(j), 3)];
    var radius := BandRadius(band, rng(j + 1));
    Pair("spec", i, radius, Flattened(radius, perspective), stroke, 2.0 + rng(j + 2) * 2.0, 0.7 + rng(j + 3) * 0.2)
  }

  /** The first `n` special features. */
  function FeaturesUpTo(rng: nat -> real, k: nat, stroke: string, perspective: real, n: nat): seq<RingElement>
    requires SeededStream.UnitSource(rng)
  {
    if n == 0 then [] else FeaturesUpTo(rng, k, stroke, perspective, n - 1) + Feature(rng, k, stroke, perspective, n - 1)
  }

  /** Both halves of one feature are drawn in the ring bands with the feature stroke. */
  lemma FeatureSpecial(rng: nat -> real, k: nat, stroke: string, perspective: real, i: nat)
    requires SeededStream.UnitSource(rng)
    ensures var p := Feature(rng, k, stroke, perspective, i);
      Special(p[0], stroke) && Special(p[1], stroke)
  {
    var j := k + 1 + 4 * i;
    RadiusInBands(Bands[PickIndex(rng(j), 3)], rng(j + 1));
  }

  /** Appending a special pair keeps every element special. */
  lemma SpecialAppend(es: seq<RingElement>, p: seq<RingElement>, stroke: string)
    requires forall j :: 0 <= j < |es| ==> Special(es[j], stroke)
    requires |p| == 2 && Special(p[0], stroke) && Special(p[1], stroke)
    ensures forall j :: 0 <= j < |es + p| ==> Special((es + p)[j], stroke)
  {
    assert forall j :: 0 <= j < |es + p| ==> (es + p)[j] == (if j < |es| then es[j] else p[j - |es|]);
  }

  /** The first `n` special features are `n` back/front pairs of bright rings inside the bands. */
  lemma {:induction false} FeaturesShape(rng: nat -> real, k: nat, stroke: string, perspective: real, n: nat)
    requires SeededStream.UnitSource(rng)
    ensures var es := FeaturesUpTo(rng, k, stroke, perspective, n);
      |es| == 2 * n && Paired(es) && forall j :: 0 <= j < |es| ==> Special(es[j], stroke)
  {
    if n > 0 {
      var prev := FeaturesUpTo(rng, k, stroke, perspective, n - 1);
      FeaturesShape(rng, k, stroke, perspective, n - 1);
      var p := Feature(rng, k, stroke, perspective, n - 1);
      FeatureSpecial(rng, k, stroke, perspective, n - 1);
      PairedAppend(prev, p);
      SpecialAppend(prev, p, stroke);
    }
  }

  /**
   * Zero to two special features: the count is drawn at call `k`, then each
   * feature makes four calls. Their stroke, the ice colour lightened
   * (`FeatureStroke`), does not depend on the feature, so the caller
   * computes it.
   */
  method SpecialFeatures(rng: nat -> real, k: nat, stroke: string, perspective: real)
    returns (es: seq<RingElement>, k': nat)
    requires SeededStream.UnitSource(rng)
    ensures es == FeaturesUpTo(rng, k, stroke, perspective, PickIndex(rng(k), 3))
    ensures |es| == 2 * PickIndex(rng(k), 3) && k' == k + 1 + 4 * PickIndex(rng(k), 3)
    ensures |es| <= 4 && Paired(es)
    ensures forall j :: 0 <= j < |es| ==> Special(es[j], stroke)
  {
    var count := PickIndex(rng(k), 3);
    k' := k + 1;
    es := [];
    for i := 0 to count
      invariant es == FeaturesUpTo(rng, k, stroke, perspective, i)
      invariant k' == k + 1 + 4 * i
    {
      var band := Bands[PickIndex(rng(k'), |Bands|)];
      var radius := band.start + rng(k' + 1) * (band.end - band.start);
      var ry := radius * perspective;
      var width := 2.0 + rng(k' + 2) * 2.0;
      var opacity := 0.7 + rng(k' + 3) * 0.2;
      var p := Pair("spec", i, radius, ry, stroke, width, opacity);
      assert radius == BandRadius(band, rng(k' + 1)) && ry == Flattened(radius, perspective);
      assert p == Feature(rng, k, stroke, perspective, i);
      k' := k' + 4;
      es := es + p;
    }
    FeaturesShape(rng, k, stroke, perspective, count);
  }

  /** The stroke of the special features: the ice colour of the palette, lightened and saturated. */
  function FeatureStroke(data: PlanetData): (c: string)
    requires ColorsWellFormed(data)
    ensures IsLowerHexColor(c)
  {
    ArtColor(RingPalette(data)[1], 40.0, 10.0, 0.0)
  }

  /** The complex rings: the particles, then the special features. */
  predicate ComplexRings(es: seq<RingElement>, pairs: nat, pal: seq<string>, stroke: string) {
    && 2 * pairs <= |es| <= 2 * pairs + 4 && pairs <= 430
    && (forall j :: 0 <= j < 2 * pairs ==> Particle(es[j], pal))
    && (forall j :: 2 * pairs <= j < |es| ==> Special(es[j], stroke))
  }

  lemma ComplexRingsConcat(particles: seq<RingElement>, pairs: nat, specials: seq<RingElement>, pal: seq<string>, stroke: string)
    requires |particles| == 2 * pairs && pairs <= 430 && |specials| <= 4
    requires forall j :: 0 <= j < |particles| ==> Particle(particles[j], pal)
    requires forall j :: 0 <= j < |specials| ==> Special(specials[j], stroke)
    ensures ComplexRings(particles + specials, pairs, pal, stroke)
  {
    var es := particles + specials;
    assert forall j :: 0 <= j < 2 * pairs ==> es[j] == particles[j];
    assert forall j :: 2 * pairs <= j < |es| ==> es[j] == specials[j - 2 * pairs];
  }

  /** The flattening of the complex rings, drawn at call 1. */
  function Perspective(rng: nat -> real): real
  {
    0.25 + rng(1) * 0.15
  }

  /**
   * The complex rings from call 1 on, with particle colours `pal` and
   * feature stroke `stroke`: the perspective, the 430 particle slots, the
   * feature count and the features; with the number of pairs and the call
   * that follows.
   */
  function ComplexRingsAt(rng: nat -> real, pal: seq<string>, stroke: string, wave: (real, real) -> real): ParticleRun
    requires SeededStream.UnitSource(rng) && |pal| == 4
  {
    var perspective := Perspective(rng);
    var ps := ParticlesUpTo(rng, 2, pal, perspective, wave, 430);
    var count := PickIndex(rng(ps.next), 3);
    ParticleRun(ps.es + FeaturesUpTo(rng, ps.next, stroke, perspective, count), ps.pairs, ps.next + 1 + 4 * count)
  }

  /** The complex branch of `generateRingPaths`: the perspective, the particles, then the special features. */
  method ComplexRingPaths(rng: nat -> real, pal: seq<string>, stroke: string, wave: (real, real) -> real)
    returns (es: seq<RingElement>, pairs: nat, used: nat)
    requires SeededStream.UnitSource(rng) && |pal| == 4 && WaveBounded(wave)
    ensures ParticleRun(es, pairs, used) == ComplexRingsAt(rng, pal, stroke, wave)
    ensures Paired(es) && ComplexRings(es, pairs, pal, stroke)
    ensures 2 + 3 * 430 + 1 <= used <= 2 + 5 * 430 + 1 + 8
  {
    var perspective := Perspective(rng);
    var particles, k;
    particles, pairs, k := RingParticles(rng, 2, pal, perspective, wave);
    var specials;
    specials, used := SpecialFeatures(rng, k, stroke, perspective);
    es := particles + specials;
    PairedConcat(particles, specials);
    ComplexRingsConcat(particles, pairs, specials, pal, stroke);
  }

  /**
   * `generateRingPaths(rng, data)`, reading `rng(0), rng(1), ...`: the first
   * call chooses simple rings (above 0.2) or complex ones. Also returns the
   * number of particle pairs (`pIdx`; 0 for simple rings) and of calls made.
   */
  method GenerateRingPaths(rng: nat -> real, data: PlanetData, wave: (real, real) -> real)
    returns (es: seq<RingElement>, pairs: nat, used: nat)
    requires SeededStream.UnitSource(rng) && ColorsWellFormed(data) && WaveBounded(wave)
    ensures Paired(es)
    ensures rng(0) > 0.2 ==> es == SimpleRingsUpTo(rng, 1, SimpleStrokes(data.solid.color), 8) && used == 17 && pairs == 0
    ensures rng(0) <= 0.2 ==>
      ParticleRun(es, pairs, used) == ComplexRingsAt(rng, RingPalette(data), FeatureStroke(data), wave)
    ensures rng(0) <= 0.2 ==> ComplexRings(es, pairs, RingPalette(data), FeatureStroke(data))
    ensures rng(0) <= 0.2 ==> 2 + 3 * 430 + 1 <= used <= 2 + 5 * 430 + 1 + 8
  {
    if rng(0) > 0.2 {
      es, used := SimpleRings(rng, 1, SimpleStrokes(data.solid.color));
      pairs := 0;
      return;
    }
    es, pairs, used := ComplexRingPaths(rng, RingPalette(data), FeatureStroke(data), wave);
  }
}
