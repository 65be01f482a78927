/// The service's seeded pseudo-random numbers. `pseudo_random(seed)` is a
/// linear congruential generator whose closure keeps the current seed and
/// replaces it on every call; numpy's `RandomState`, which picks scale steps,
/// is seen from outside only.
module Seeded {

  const Multiplier := 9301
  const Increment := 49297
  const Modulus := 233280

  /// An index into an eight-step scale: what `rng.randint(0, len(scale))` returns.
  type ScaleIndex = i: nat | i < 8

  /// `np.random.RandomState(seed)` seen from outside: `draws(seed, k)` is the
  /// k-th value of `randint(0, 8)` drawn from a generator seeded with `seed`.
  type Draws = (nat, nat) -> ScaleIndex

  /// The seed after one call. Python's `%` with a positive modulus is never
  /// negative, like Dafny's.
  function Step(seed: int): (next: int)
    ensures 0 <= next < Modulus
  {
    (seed * Multiplier + Increment) % Modulus
  }

  /// The seed after `n` calls.
  function SeedAfter(seed: int, n: nat): (s: int)
    ensures n > 0 ==> 0 <= s < Modulus
  {
    if n == 0 then seed else Step(SeedAfter(seed, n - 1))
  }

  /// The value returned by call number `k` (counting from 0) of a generator
  /// created with `seed`: the new seed divided by the modulus.
  function Draw(seed: int, k: nat): (r: real)
    ensures 0.0 <= r < 1.0
  {
    SeedAfter(seed, k + 1) as real / Modulus as real
  }

  /// The first `n` values of the generator: `n` numbers in [0, 1), which
  /// `Take` shows are what `n` calls of the closure return.
  function Stream(seed: int, n: nat): (vs: seq<real>)
    ensures |vs| == n
    ensures forall k :: 0 <= k < n ==> 0.0 <= vs[k] < 1.0
  {
    seq(n, k requires 0 <= k < n => Draw(seed, k))
  }

  /// Running the generator `n` times and then `m` more is running it `n + m`
  /// times: the state is the seed and nothing else.
  lemma {:induction false} SeedAfterAdd(seed: int, n: nat, m: nat)
    ensures SeedAfter(seed, n + m) == SeedAfter(SeedAfter(seed, n), m)
  {
    if m > 0 {
      SeedAfterAdd(seed, n, m - 1);
    }
  }

  lemma StreamSplit(seed: int, n: nat, m: nat)
    ensures Stream(seed, n + m) == Stream(seed, n) + Stream(SeedAfter(seed, n), m)
  {
    forall k | n <= k < n + m
      ensures Draw(seed, k) == Draw(SeedAfter(seed, n), k - n)
    {
      SeedAfterAdd(seed, n, k - n + 1);
    }
  }

  /// One step only looks at the seed modulo 233280.
  lemma StepResidue(seed: int)
    ensures Step(seed) == Step(seed % Modulus)
  {
    var q := seed / Modulus;
    var r := seed % Modulus;
    assert seed == q * Modulus + r;
    assert seed * Multiplier + Increment == (q * Multiplier) * Modulus + (r * Multiplier + Increment);
    ModShift(r * Multiplier + Increment, q * Multiplier);
  }

  lemma ModShift(a: int, q: int)
    ensures (q * Modulus + a) % Modulus == a % Modulus
  {
  }

  /// Seeds that agree modulo 233280 produce the same values forever; in
  /// particular equal seeds give identical sequences.
  lemma {:induction false} SeedAfterResidue(seed: int, n: nat)
    requires n > 0
    ensures SeedAfter(seed, n) == SeedAfter(seed % Modulus, n)
  {
    if n == 1 {
      StepResidue(seed);
    } else {
      SeedAfterResidue(seed, n - 1);
    }
  }

  lemma StreamResidue(seed: int, n: nat)
    ensures Stream(seed, n) == Stream(seed % Modulus, n)
  {
    forall k | 0 <= k < n
      ensures Draw(seed, k) == Draw(seed % Modulus, k)
    {
      SeedAfterResidue(seed, k + 1);
    }
  }

  /// The closure returned by `pseudo_random(seed)`: the `nonlocal seed` is a
  /// field and each call of the closure is a call of `Next`.
  class Generator {
    var seed: int

    constructor (seed: int)
      ensures this.seed == seed
    {
      this.seed := seed;
    }

    method Next() returns (r: real)
      modifies this
      ensures seed == Step(old(seed))
      ensures 0 <= seed < Modulus
      ensures r == seed as real / Modulus as real
      ensures 0.0 <= r < 1.0
    {
      seed := (seed * Multiplier + Increment) % Modulus;
      r := seed as real / Modulus as real;
    }
  }

  /// `n` calls of the closure in a row, as `make_waveform` makes them: the
  /// values returned are the stream of the seed the generator held, and the
  /// generator ends up `n` steps further on.
  method Take(g: Generator, n: nat) returns (vs: seq<real>)
    modifies g
    ensures vs == Stream(old(g.seed), n)
    ensures g.seed == SeedAfter(old(g.seed), n)
  {
    ghost var start := g.seed;
    vs := [];
    for k := 0 to n
      invariant g.seed == SeedAfter(start, k)
      invariant vs == Stream(start, k)
    {
      var x := g.Next();
      assert x == Draw(start, k);
      vs := vs + [x];
    }
  }
}
