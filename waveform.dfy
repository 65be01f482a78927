/// `make_waveform(length, seed)`: the list of `(t, v)` points the client
/// draws for a track, with `t` running evenly from 0 to 1 and `v` a noise
/// level clamped into [-1, 1].
module Waveform {
  import opened Outcome
  import opened RealMath
  import opened Seeded

  /// `TrackWaveformPoint(t=..., v=...)`.
  datatype WavePoint = WavePoint(t: real, v: real)

  /// `(rnd() - 0.5) * 2 * (0.6 + 0.4 * w)` before clamping, where `w` stands
  /// for `math.sin(i / 12)`.
  function RawLevel(x: real, w: real): real
  {
    (x - 0.5) * 2.0 * (0.6 + 0.4 * w)
  }

  /// Point `i` of a waveform of `length` points; `wobble(i)` is the
  /// `math.sin(i / 12)` factor, which the model leaves as a parameter.
  function Point(length: int, seed: int, wobble: nat -> real, i: nat): (p: WavePoint)
    requires length > 1
    ensures p.t == Time(length, i)
    ensures -1.0 <= p.v <= 1.0
  {
    WavePoint(Time(length, i), Clamp(-1.0, 1.0, RawLevel(Draw(seed, i), wobble(i))))
  }

  /// `t = i / (length - 1)`.
  function Time(length: int, i: nat): (t: real)
    requires length > 1
    ensures 0.0 <= t
    ensures i < length ==> t <= 1.0
  {
    i as real / (length - 1) as real
  }

  /// What `make_waveform(length, seed)` returns or raises: a single point
  /// divides by `length - 1 == 0`; no points for a length below 1.
  function Waveform(length: int, seed: int, wobble: nat -> real): (r: Result<seq<WavePoint>>)
    ensures r.Err? <==> length == 1
    ensures r.Err? ==> r.error == Raised(DivisionByZero)
    ensures r.Ok? ==> |r.value| == (if length < 0 then 0 else length)
    ensures r.Ok? ==> forall i :: 0 <= i < |r.value| ==> -1.0 <= r.value[i].v <= 1.0
  {
    if length == 1 then Err(Raised(DivisionByZero))
    else if length <= 0 then Ok([])
    else Ok(seq(length, i requires 0 <= i < length => Point(length, seed, wobble, i)))
  }

  /// The times start at 0, end at 1 and rise strictly in between.
  lemma WaveformTimes(length: int, seed: int, wobble: nat -> real)
    requires length > 1
    ensures var pts := Waveform(length, seed, wobble).value;
            pts[0].t == 0.0 && pts[length - 1].t == 1.0 &&
            forall i, j :: 0 <= i < j < length ==> pts[i].t < pts[j].t
  {
    TimeEnds(length);
    forall i, j | 0 <= i < j < length
      ensures Time(length, i) < Time(length, j)
    {
      QuotientIncreasing(i as real, j as real, (length - 1) as real);
    }
  }

  lemma TimeEnds(length: int)
    requires length > 1
    ensures Time(length, 0) == 0.0 && Time(length, length - 1) == 1.0
  {
  }

  lemma QuotientIncreasing(a: real, b: real, d: real)
    requires a < b && d > 0.0
    ensures a / d < b / d
  {
    assert b / d - a / d == (b - a) / d;
  }

  /// Where the wobble factor is a sine value in [-1, 1] the clamp never
  /// fires: the level is the raw noise itself.
  lemma ClampInactive(length: int, seed: int, wobble: nat -> real, i: nat)
    requires length > 1 && i < length
    requires -1.0 <= wobble(i) <= 1.0
    ensures Waveform(length, seed, wobble).value[i].v == RawLevel(Draw(seed, i), wobble(i))
  {
    RawLevelBound(Draw(seed, i), wobble(i));
  }

  lemma RawLevelBound(x: real, w: real)
    requires 0.0 <= x < 1.0 && -1.0 <= w <= 1.0
    ensures -1.0 <= RawLevel(x, w) <= 1.0
  {
    var a := (x - 0.5) * 2.0;
    var b := 0.6 + 0.4 * w;
    assert RawLevel(x, w) == a * b;
    assert -1.0 <= a < 1.0 && 0.2 <= b <= 1.0;
    if a >= 0.0 {
      assert 0.0 <= a * b <= 1.0 * b;
    } else {
      assert 0.0 <= (-a) * b <= 1.0 * b;
      assert a * b == -((-a) * b);
    }
  }

  /// Seeds that agree modulo 233280 draw the same waveform.
  lemma WaveformResidue(length: int, seed: int, wobble: nat -> real)
    ensures Waveform(length, seed, wobble) == Waveform(length, seed % Modulus, wobble)
  {
    if length > 1 {
      forall i | 0 <= i < length
        ensures Point(length, seed, wobble, i) == Point(length, seed % Modulus, wobble, i)
      {
        SeedAfterResidue(seed, i + 1);
      }
      assert Waveform(length, seed, wobble).value == Waveform(length, seed % Modulus, wobble).value;
    }
  }

  /// `make_waveform(length, seed)`.
  method MakeWaveform(length: int, seed: int, wobble: nat -> real) returns (r: Result<seq<WavePoint>>)
    ensures r == Waveform(length, seed, wobble)
  {
    var rnd := new Generator(seed);
    var waveform: seq<WavePoint> := [];
    var i := 0;
    while i < length
      invariant 0 <= i && (length >= 0 ==> i <= length) && (length <= 1 ==> i == 0)
      invariant rnd.seed == SeedAfter(seed, i)
      invariant |waveform| == i
      invariant forall k :: 0 <= k < i ==> length > 1 && waveform[k] == Point(length, seed, wobble, k)
    {
      if length - 1 == 0 {
        return Err(Raised(DivisionByZero));
      }
      var t := Time(length, i);
      var x := rnd.Next();
      var v := RawLevel(x, wobble(i));
      v := Clamp(-1.0, 1.0, v);
      waveform := waveform + [WavePoint(t, v)];
      i := i + 1;
    }
    if length > 1 {
      assert waveform == Waveform(length, seed, wobble).value;
    }
    return Ok(waveform);
  }
}
