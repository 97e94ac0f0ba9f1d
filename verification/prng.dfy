/**
 `mulberry32`: a 32-bit counter-based generator. Each draw adds a fixed odd
 constant to the state and mixes the new state into a 32-bit numerator; the
 value handed to callers is that numerator divided by 2^32.

 The JavaScript accumulator is a double that grows by the constant on every
 draw, but every use of it goes through ToInt32/ToUint32, so only its value
 modulo 2^32 matters; the state here is that residue.
 */
module Prng {

  const Modulus: int := 0x1_0000_0000

  /** The constant added to the state on every draw. */
  const Increment: bv32 := 0x6D2B79F5

  /** `seed >>> 0`: ToUint32 of an integral seed. */
  function SeedState(seed: int): bv32
  {
    (seed % Modulus) as bv32
  }

  /** The mixing rounds applied to an advanced state. `Math.imul` keeps the
      low 32 bits of the product, `>>>` is a logical shift and `^`, `|`
      act on the 32-bit pattern, so all of it is bv32 arithmetic. */
  function Mix(t: bv32): bv32
  {
    var r := (t ^ (t >> 15)) * (1 | t);
    var r' := r ^ (r + (r ^ (r >> 7)) * (61 | r));
    r' ^ (r' >> 14)
  }

  /** The number the generator returns for a numerator. */
  function Unit(n: bv32): (x: real)
    ensures 0.0 <= x < 1.0
    ensures x * 4294967296.0 == n as int as real
  {
    n as int as real / 4294967296.0
  }

  /** The state after `n` draws from `s`. */
  function Advance(s: bv32, n: nat): bv32
  {
    if n == 0 then s else Advance(s, n - 1) + Increment
  }

  /** Advancing the start by one draw is the same as one more draw. */
  lemma {:induction false} AdvanceShift(s: bv32, n: nat)
    ensures Advance(s + Increment, n) == Advance(s, n + 1)
  {
    if n > 0 {
      AdvanceShift(s, n - 1);
    }
  }

  /** The numerators of the first `k` draws from state `s`, drawn one after
      the other as the returned closure does: each call advances the state,
      then mixes the new state. The mixing is a parameter so that facts about
      the sequence of states are proved once, without unfolding `Mix`. */
  function Numerators(mix: bv32 -> bv32, s: bv32, k: nat): (r: seq<bv32>)
    ensures |r| == k
    decreases k
  {
    if k == 0 then [] else var t := s + Increment; [mix(t)] + Numerators(mix, t, k - 1)
  }

  /** Draw `i` mixes the state reached after `i + 1` increments. */
  lemma {:induction false} NumeratorAt(mix: bv32 -> bv32, s: bv32, k: nat, i: nat)
    requires i < k
    ensures Numerators(mix, s, k)[i] == mix(Advance(s, i + 1))
    decreases k
  {
    if i > 0 {
      NumeratorAt(mix, s + Increment, k - 1, i - 1);
      AdvanceShift(s, i);
    }
  }

  /** The stream a seed produces: the first `k` numerators of `mulberry32(seed)`. */
  function Stream(seed: int, k: nat): (r: seq<bv32>)
    ensures |r| == k
  {
    Numerators(Mix, SeedState(seed), k)
  }

  /** Element `i` of the stream is the mixed state after `i + 1` increments of the seed. */
  lemma StreamAt(seed: int, k: nat, i: nat)
    requires i < k
    ensures Stream(seed, k)[i] == Mix(Advance(SeedState(seed), i + 1))
  {
    NumeratorAt(Mix, SeedState(seed), k, i);
  }

  /** Drawing more extends the stream: the stream is restartable and its prefixes agree. */
  lemma StreamPrefix(seed: int, j: nat, k: nat)
    requires j <= k
    ensures Stream(seed, k)[..j] == Stream(seed, j)
  {
    NumeratorsSplit(Mix, SeedState(seed), j, k - j);
  }

  /** Seeds equal modulo 2^32 (as `seed >>> 0` sees them) produce identical streams. */
  lemma SeedsModulo(a: int, b: int, k: nat)
    requires a % Modulus == b % Modulus
    ensures Stream(a, k) == Stream(b, k)
  {
  }

  /** Drawing `j` numerators then `k` more from where the first run stopped
      is drawing `j + k` in one run. */
  lemma {:induction false} NumeratorsSplit(mix: bv32 -> bv32, s: bv32, j: nat, k: nat)
    ensures Numerators(mix, s, j + k) == Numerators(mix, s, j) + Numerators(mix, Advance(s, j), k)
    decreases j
  {
    if j > 0 {
      var t := s + Increment;
      NumeratorsSplit(mix, t, j - 1, k);
      AdvanceShift(s, j - 1);
      assert Numerators(mix, s, j + k) == [mix(t)] + Numerators(mix, t, j - 1 + k);
    }
  }

  /** Advancing `m` then `n` draws is advancing `m + n`. */
  lemma {:induction false} AdvanceAdd(s: bv32, m: nat, n: nat)
    ensures Advance(Advance(s, m), n) == Advance(s, m + n)
  {
    if n > 0 {
      AdvanceAdd(s, m, n - 1);
    }
  }
}
