/**
 * The seeded pseudo-random stream of planet-logic.ts (`createRNG`).
 *
 * A seed string is folded into a 32-bit hash the way Java's `String.hashCode`
 * does it; the unsigned view of that hash (or 1, when it is 0) is the initial
 * state. Each call then performs one mulberry32 round: a Weyl increment of the
 * state followed by xorshift/multiply mixing, and returns `u / 2^32`.
 *
 * The fold is done on unbounded integers with JavaScript's ToInt32 written out;
 * the mixing round is done on `bv32`, whose wrap-around is exactly that of
 * `| 0`, `Math.imul` and `>>>`.
 */
module SeededStream {

  /** A UTF-16 code unit: what `String.prototype.charCodeAt` returns. */
  type CodeUnit = c: int | 0 <= c < 0x1_0000

  const TwoTo32: int := 0x1_0000_0000
  const TwoTo31: int := 0x8000_0000

  /** The increment added to the state on every call. */
  const Weyl: bv32 := 0x6D2B79F5

  /** Two integers that have the same 32-bit pattern. */
  predicate Congruent(a: int, b: int) {
    (a - b) % TwoTo32 == 0
  }

  /** JavaScript's ToInt32: the signed 32-bit integer with the same low 32 bits. */
  function ToInt32(x: int): (r: int)
    ensures -TwoTo31 <= r < TwoTo31
    ensures Congruent(r, x)
  {
    var m := x % TwoTo32;
    if m >= TwoTo31 then m - TwoTo32 else m
  }

  /** One step of the fold: `hash = ((hash << 5) - hash) + code; hash = hash & hash`. */
  function HashStep(hash: int, code: CodeUnit): int
  {
    ToInt32(ToInt32(hash * 32) - hash + code)
  }

  /** The hash of a whole seed string, folded from the left. */
  function Hash(s: seq<CodeUnit>): (h: int)
    ensures -TwoTo31 <= h < TwoTo31
  {
    if s == [] then 0 else HashStep(Hash(s[..|s| - 1]), s[|s| - 1])
  }

  function Pow31(n: nat): (p: int)
    ensures p >= 1
  {
    if n == 0 then 1 else 31 * Pow31(n - 1)
  }

  /** Java's `String.hashCode` polynomial, sum of `s[i] * 31^(n-1-i)`, without any reduction. */
  function PolyHash(s: seq<CodeUnit>): int
  {
    if s == [] then 0 else s[0] * Pow31(|s| - 1) + PolyHash(s[1..])
  }

  /** The initial state as an unsigned integer: `(hash >>> 0) || 1`. */
  function InitialValue(s: seq<CodeUnit>): (v: int)
    ensures 1 <= v < TwoTo32
  {
    var u := Hash(s) % TwoTo32;
    if u == 0 then 1 else u
  }

  /** The initial state as the 32-bit pattern the closure captures; never the zero state. */
  function InitialSeed(s: seq<CodeUnit>): (seed: bv32)
    ensures seed != 0
  {
    InitialValue(s) as bv32
  }

  /** The state after one call. */
  function Advance(state: bv32): bv32
  {
    state + Weyl
  }

  /** The xorshift/multiply mixing of a freshly advanced state. */
  function Mix(s: bv32): bv32
  {
    var t := (s ^ (s >> 15)) * (1 | s);
    var t' := (t + (t ^ (t >> 7)) * (61 | t)) ^ t;
    t' ^ (t' >> 14)
  }

  /** The unsigned 32-bit integer produced by the call made in state `state`. */
  function Output(state: bv32): (u: nat)
    ensures u < TwoTo32
  {
    Mix(Advance(state)) as nat
  }

  /** The number returned by the call made in state `state`: `u / 2^32`. */
  function Draw(state: bv32): (x: real)
    ensures 0.0 <= x < 1.0
    ensures x * 4294967296.0 == Output(state) as real
  {
    Output(state) as real / 4294967296.0
  }

  /** The first `n` numbers a stream in state `state` returns. */
  function Draws(state: bv32, n: nat): (xs: seq<real>)
    ensures |xs| == n
    ensures forall i :: 0 <= i < n ==> 0.0 <= xs[i] < 1.0
    decreases n
  {
    if n == 0 then [] else [Draw(state)] + Draws(Advance(state), n - 1)
  }

  /** The state after `n` calls. */
  function AdvanceBy(state: bv32, n: nat): bv32
    decreases n
  {
    if n == 0 then state else AdvanceBy(Advance(state), n - 1)
  }

  /**
   * A stream seen as an unbounded source: call number `i` (from 0) of a
   * stream in state `state` returns `Source(state)(i)`.
   */
  function Source(state: bv32): nat -> real
  {
    (i: nat) => Draw(AdvanceBy(state, i))
  }

  /** Every call of a source returns a number in [0, 1). */
  ghost predicate UnitSource(rng: nat -> real) {
    forall i: nat :: 0.0 <= rng(i) < 1.0
  }

  /** Call `i` of the first `n` is the draw made in the state reached after `i` calls. */
  lemma {:induction false} DrawsAt(state: bv32, n: nat, i: nat)
    requires i < n
    ensures Draws(state, n)[i] == Draw(AdvanceBy(state, i))
    decreases i
  {
    if i > 0 {
      DrawsAt(Advance(state), n - 1, i - 1);
    }
  }

  /** The two views agree: the first `n` calls of the source are `Draws(state, n)`. */
  lemma SourceIsDraws(state: bv32, n: nat)
    ensures UnitSource(Source(state))
    ensures forall i :: 0 <= i < n ==> Draws(state, n)[i] == Source(state)(i)
  {
    forall i | 0 <= i < n
      ensures Draws(state, n)[i] == Source(state)(i)
    {
      DrawsAt(state, n, i);
    }
  }

  /** The seed fold, as the loop of `createRNG` runs it. */
  method FoldHash(str: seq<CodeUnit>) returns (hash: int)
    ensures hash == Hash(str)
  {
    hash := 0;
    var i := 0;
    while i < |str|
      invariant 0 <= i <= |str|
      invariant hash == Hash(str[..i])
    {
      assert str[..i + 1][..i] == str[..i];
      hash := ToInt32(ToInt32(hash * 32) - hash + str[i]);
      i := i + 1;
    }
    assert str[..|str|] == str;
  }

  /** The closure returned by `createRNG`: its captured `seed` is the field. */
  class Stream {
    var seed: bv32

    constructor (str: seq<CodeUnit>)
      ensures seed == InitialSeed(str)
    {
      var hash := FoldHash(str);
      var u := hash % TwoTo32;
      seed := (if u == 0 then 1 else u) as bv32;
    }

    /** One call of the closure. */
    method Next() returns (x: real)
      modifies this
      ensures seed == Advance(old(seed))
      ensures x == Draw(old(seed))
      ensures 0.0 <= x < 1.0
    {
      x := Draw(seed);
      seed := Advance(seed);
    }
  }

  /**
   * Two streams built from the same string and advanced `n` times return the
   * same `n` numbers, and those are `Draws(InitialSeed(str), n)`.
   */
  method Replay(str: seq<CodeUnit>, n: nat) returns (a: seq<real>, b: seq<real>)
    ensures a == b
    ensures a == Draws(InitialSeed(str), n)
  {
    var s1 := new Stream(str);
    var s2 := new Stream(str);
    a, b := [], [];
    var i := 0;
    while i < n
      invariant 0 <= i <= n
      invariant s1 != s2
      invariant s1.seed == s2.seed
      invariant a == b
      invariant a + Draws(s1.seed, n - i) == Draws(InitialSeed(str), n)
    {
      ghost var st := s1.seed;
      DrawsCons(st, n - i);
      var x := s1.Next();
      var y := s2.Next();
      assert (a + [x]) + Draws(Advance(st), n - i - 1) == a + Draws(st, n - i);
      a, b := a + [x], b + [y];
      i := i + 1;
    }
  }

  lemma DrawsCons(state: bv32, n: nat)
    requires n > 0
    ensures Draws(state, n) == [Draw(state)] + Draws(Advance(state), n - 1)
  {
  }

  lemma MulModZero(k: int)
    ensures (k * TwoTo32) % TwoTo32 == 0
  {
  }

  /** Congruence is kept by `x |-> 31 * x + c`. */
  lemma CongruentStep(a: int, b: int, c: int)
    requires Congruent(a, b)
    ensures Congruent(31 * a + c, 31 * b + c)
  {
    var k := (a - b) / TwoTo32;
    assert a - b == k * TwoTo32;
    assert (31 * a + c) - (31 * b + c) == (31 * k) * TwoTo32;
    MulModZero(31 * k);
  }

  lemma CongruentTrans(a: int, b: int, c: int)
    requires Congruent(a, b) && Congruent(b, c)
    ensures Congruent(a, c)
  {
    var p := (a - b) / TwoTo32;
    var q := (b - c) / TwoTo32;
    assert a - c == (p + q) * TwoTo32;
    MulModZero(p + q);
  }

  lemma {:induction false} PolyHashSnoc(s: seq<CodeUnit>, c: CodeUnit)
    ensures PolyHash(s + [c]) == 31 * PolyHash(s) + c
  {
    if s == [] {
      assert PolyHash([c]) == c * Pow31(0) + PolyHash([]);
    } else {
      assert (s + [c])[1..] == s[1..] + [c];
      PolyHashSnoc(s[1..], c);
      calc {
        PolyHash(s + [c]);
        s[0] * Pow31(|s|) + PolyHash(s[1..] + [c]);
        s[0] * (31 * Pow31(|s| - 1)) + 31 * PolyHash(s[1..]) + c;
        31 * (s[0] * Pow31(|s| - 1) + PolyHash(s[1..])) + c;
      }
    }
  }

  /** One fold step multiplies by 31 and adds the code unit, modulo 2^32. */
  lemma HashStepIsTimes31(h: int, c: CodeUnit)
    ensures Congruent(HashStep(h, c), 31 * h + c)
  {
    var inner := ToInt32(h * 32);
    assert Congruent(inner - h + c, 31 * h + c) by {
      var k := (inner - h * 32) / TwoTo32;
      assert inner - h * 32 == k * TwoTo32;
      MulModZero(k);
    }
    CongruentTrans(HashStep(h, c), inner - h + c, 31 * h + c);
  }

  /** The fold computes Java's `String.hashCode` modulo 2^32. */
  lemma {:induction false} HashIsPolyHash(s: seq<CodeUnit>)
    ensures Congruent(Hash(s), PolyHash(s))
  {
    if s != [] {
      var init, c := s[..|s| - 1], s[|s| - 1];
      assert s == init + [c];
      HashIsPolyHash(init);
      HashStepIsTimes31(Hash(init), c);
      CongruentStep(Hash(init), PolyHash(init), c);
      PolyHashSnoc(init, c);
      CongruentTrans(Hash(s), 31 * Hash(init) + c, 31 * PolyHash(init) + c);
    }
  }

  /**
   * The initial state is the unsigned value of Java's `String.hashCode` of the
   * seed, or 1 when that value is 0; in particular it is never 0.
   */
  lemma InitialValueIsHashCode(s: seq<CodeUnit>)
    ensures InitialValue(s) == if PolyHash(s) % TwoTo32 == 0 then 1 else PolyHash(s) % TwoTo32
  {
    var h, p := Hash(s), PolyHash(s);
    HashIsPolyHash(s);
    var k := (h - p) / TwoTo32;
    assert h == p + k * TwoTo32;
    ModAddMultiple(p, k);
  }

  lemma ModAddMultiple(p: int, k: int)
    ensures (p + k * TwoTo32) % TwoTo32 == p % TwoTo32
  {
  }
}
