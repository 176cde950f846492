/** The seeded pseudorandom generator `mulberry32` (app.py:61-68).
    The generator is a closure over one accumulator `a`. Every draw adds the
    odd constant 0x6d2b79f5 to `a` and then mixes `a` with 32-bit integer
    operations. The bitwise operators and `Math.imul` only ever see `a` modulo
    2^32, so the model keeps exactly that word: a `bv32` with wrapping
    addition. The class Mulberry32 stands for the closure, the functions below
    give the value-level view of the same draws. */
module Prng {

  /** The amount added to the accumulator on every draw. */
  const Increment: bv32 := 0x6d2b79f5

  /** The mixing of one draw on the 32-bit word: `Math.imul` is multiplication
      modulo 2^32, `^`, `|` and `>>>` act on the same 32 bits, and the final
      `>>> 0` reads them as an unsigned number. */
  function Mix(s: bv32): bv32 {
    var t1 := (s ^ (s >> 15)) * (s | 1);
    var t2 := t1 ^ (t1 + (t1 ^ (t1 >> 7)) * (t1 | 61));
    t2 ^ (t2 >> 14)
  }

  /** Scaling of an unsigned 32-bit word into a float of [0, 1). */
  function Uniform(k: bv32): (r: real)
    ensures 0.0 <= r < 1.0
    ensures r * 4294967296.0 == k as int as real
  {
    k as int as real / 4294967296.0
  }

  /** The value returned by a draw that leaves the accumulator at `a`. */
  function Output(a: bv32): real {
    Uniform(Mix(a))
  }

  /** The accumulator after `n` draws from `a0`. */
  function Advanced(a0: bv32, n: nat): bv32 {
    if n == 0 then a0 else Advanced(a0, n - 1) + Increment
  }

  /** Advancing n + m times is advancing n times and then m times. */
  lemma {:induction false} AdvancedAdd(a0: bv32, n: nat, m: nat)
    ensures Advanced(a0, n + m) == Advanced(Advanced(a0, n), m)
  {
    if m != 0 {
      AdvancedAdd(a0, n, m - 1);
    }
  }

  /** The first `n` values drawn from a generator whose accumulator is `a0`. */
  function Draws(a0: bv32, n: nat): (rs: seq<real>)
    ensures |rs| == n
  {
    if n == 0 then [] else Draws(a0, n - 1) + [Output(Advanced(a0, n))]
  }

  /** The k-th draw (from 0) sees the accumulator advanced k+1 times by the
      constant: the accumulator moves independently of the mixing. */
  lemma {:induction false} DrawAt(a0: bv32, n: nat, k: nat)
    requires k < n
    ensures Draws(a0, n)[k] == Output(Advanced(a0, k + 1))
  {
    if k < n - 1 {
      DrawAt(a0, n - 1, k);
    }
  }

  /** Every draw lies in [0, 1). */
  lemma DrawsInRange(a0: bv32, n: nat)
    ensures forall k :: 0 <= k < n ==> 0.0 <= Draws(a0, n)[k] < 1.0
  {
    forall k | 0 <= k < n
      ensures 0.0 <= Draws(a0, n)[k] < 1.0
    {
      DrawAt(a0, n, k);
    }
  }

  /** Drawing n + m values is drawing n values and then m values from the
      accumulator those n draws left behind. */
  lemma {:induction false} DrawsSplit(a0: bv32, n: nat, m: nat)
    ensures Draws(a0, n + m) == Draws(a0, n) + Draws(Advanced(a0, n), m)
  {
    if m != 0 {
      DrawsSplit(a0, n, m - 1);
      AdvancedAdd(a0, n, m);
    }
  }

  /** The first three draws of `mulberry32(1)`. */
  lemma FirstDrawsOfSeedOne()
    ensures Draws(1, 3) == [2693262067.0 / 4294967296.0, 11749833.0 / 4294967296.0, 2265367787.0 / 4294967296.0]
  {
    assert Advanced(1, 1) == 0x6d2b79f6;
    assert Mix(0x6d2b79f6) == 2693262067;
    assert Mix(Advanced(1, 2)) == 11749833;
    assert Mix(Advanced(1, 3)) == 2265367787;
  }

  /** The closure returned by `mulberry32(seed)`. `drawn` records the values
      returned so far. */
  class Mulberry32 {
    var a: bv32
    ghost const seed: bv32
    ghost var drawn: seq<real>

    ghost predicate Valid()
      reads this
    {
      a == Advanced(seed, |drawn|) && drawn == Draws(seed, |drawn|)
    }

    constructor (seed: bv32)
      ensures Valid() && this.seed == seed && a == seed && drawn == []
    {
      this.seed := seed;
      a := seed;
      drawn := [];
    }

    /** One call of the closure: `a` grows by exactly the constant and the
        result is the mixed new accumulator scaled into [0, 1). */
    method Next() returns (r: real)
      requires Valid()
      modifies this
      ensures Valid()
      ensures a == old(a) + Increment
      ensures r == Output(a) && 0.0 <= r < 1.0
      ensures drawn == old(drawn) + [r]
    {
      a := a + Increment;
      r := Uniform(Mix(a));
      drawn := drawn + [r];
    }
  }
}
