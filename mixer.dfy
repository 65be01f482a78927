/// `mix_tracks`: zero-pad the tracks to the longest one, add them sample by
/// sample, then scale the mix so its loudest sample sits at 0.8; and the
/// 16-bit conversion `wav_data_url` applies to the result.
module Mixer {
  import opened Outcome
  import opened RealMath
  import opened Buffers

  /// Headroom left by the normalisation.
  const Headroom: real := 0.8

  /// `max(len(track) for track in tracks)`.
  function MaxLen(tracks: seq<seq<real>>): (m: nat)
    requires |tracks| > 0
    ensures forall j :: 0 <= j < |tracks| ==> |tracks[j]| <= m
    ensures exists j :: 0 <= j < |tracks| && |tracks[j]| == m
  {
    var last := |tracks| - 1;
    if last == 0 then |tracks[0]|
    else
      var m := MaxLen(tracks[..last]);
      assert forall j :: 0 <= j < last ==> tracks[..last][j] == tracks[j];
      if m < |tracks[last]| then |tracks[last]| else m
  }

  /// Sample `i` of a track once it is zero-padded: 0 past its end.
  function At(track: seq<real>, i: nat): real
  {
    if i < |track| then track[i] else 0.0
  }

  /// `padded = np.zeros(n); padded[:len(track)] = track`.
  function Padded(track: seq<real>, n: nat): (p: seq<real>)
    requires |track| <= n
    ensures |p| == n && forall i :: 0 <= i < n ==> p[i] == At(track, i)
  {
    track + Zeros(n - |track|)
  }

  /// The sum of the tracks' (padded) samples at index `i`.
  function SumAt(tracks: seq<seq<real>>, i: nat): real
  {
    if tracks == [] then 0.0 else SumAt(tracks[..|tracks| - 1], i) + At(tracks[|tracks| - 1], i)
  }

  /// The mix before normalisation: `n` samples, each the sum of the tracks there.
  function MixSum(tracks: seq<seq<real>>, n: nat): (s: seq<real>)
    ensures |s| == n && forall i :: 0 <= i < n ==> s[i] == SumAt(tracks, i)
  {
    seq(n, i requires 0 <= i < n => SumAt(tracks, i))
  }

  /// `np.abs(s).max()`: the largest magnitude of a non-empty signal.
  function Peak(s: seq<real>): (p: real)
    requires |s| > 0
    ensures forall i :: 0 <= i < |s| ==> Abs(s[i]) <= p
    ensures exists i :: 0 <= i < |s| && Abs(s[i]) == p
  {
    var last := |s| - 1;
    if last == 0 then Abs(s[0])
    else
      var p := Peak(s[..last]);
      assert forall i :: 0 <= i < last ==> s[..last][i] == s[i];
      if p < Abs(s[last]) then Abs(s[last]) else p
  }

  /// `s / max_val * 0.8` when the peak is positive, `s` itself otherwise.
  function Normalize(s: seq<real>): (r: seq<real>)
    requires |s| > 0
    ensures |r| == |s|
  {
    var peak := Peak(s);
    if peak > 0.0 then seq(|s|, i requires 0 <= i < |s| => s[i] / peak * Headroom) else s
  }

  /// What `mix_tracks(tracks)` returns or raises.
  function Mixed(tracks: seq<seq<real>>): (r: Result<seq<real>>)
    ensures tracks == [] <==> r == Err(Raised(NoTracksToMix))
    ensures tracks != [] && MaxLen(tracks) == 0 ==> r == Err(Raised(EmptyReduction))
    ensures r.Ok? ==> |r.value| == MaxLen(tracks) > 0
  {
    if tracks == [] then Err(Raised(NoTracksToMix))
    else if MaxLen(tracks) == 0 then Err(Raised(EmptyReduction))
    else Ok(Normalize(MixSum(tracks, MaxLen(tracks))))
  }

  /// Normalising a signal that is not silent puts its peak at exactly 0.8.
  lemma NormalizedPeak(s: seq<real>)
    requires |s| > 0 && Peak(s) > 0.0
    ensures Peak(Normalize(s)) == Headroom
  {
    var r := Normalize(s);
    var w := NormalizedReaches(s);
    var v :| 0 <= v < |r| && Abs(r[v]) == Peak(r);
    NormalizedBelow(s, v);
  }

  /// The sample where the peak was reached is at 0.8 after normalising.
  lemma NormalizedReaches(s: seq<real>) returns (w: nat)
    requires |s| > 0 && Peak(s) > 0.0
    ensures w < |s| && Abs(Normalize(s)[w]) == Headroom
  {
    var peak := Peak(s);
    w :| 0 <= w < |s| && Abs(s[w]) == peak;
    NormalizedAt(s, w);
    QuotientAtMostOne(peak, peak);
  }

  /// No sample is above 0.8 after normalising.
  lemma NormalizedBelow(s: seq<real>, i: nat)
    requires i < |s| && Peak(s) > 0.0
    ensures Abs(Normalize(s)[i]) <= Headroom
  {
    NormalizedAt(s, i);
    QuotientAtMostOne(Abs(s[i]), Peak(s));
  }

  /// The magnitude of a normalised sample is its old magnitude over the peak, times 0.8.
  lemma NormalizedAt(s: seq<real>, i: nat)
    requires i < |s| && Peak(s) > 0.0
    ensures Abs(Normalize(s)[i]) == Abs(s[i]) / Peak(s) * Headroom
  {
    assert Normalize(s)[i] == s[i] / Peak(s) * Headroom;
    ScaleAbs(s[i], Peak(s));
  }

  lemma ScaleAbs(x: real, peak: real)
    requires peak > 0.0
    ensures Abs(x / peak * Headroom) == Abs(x) / peak * Headroom
  {
    var q := x / peak;
    assert q * peak == x;
    if x < 0.0 {
      assert q < 0.0;
      assert (-x) / peak == -q;
    } else {
      assert q >= 0.0;
    }
  }

  lemma QuotientAtMostOne(x: real, peak: real)
    requires 0.0 <= x <= peak && peak > 0.0
    ensures x / peak * Headroom <= Headroom
    ensures x == peak ==> x / peak * Headroom == Headroom
  {
    assert x / peak <= 1.0;
  }

  /// A silent mix (peak 0) is returned unchanged, and every sample of it is 0.
  lemma NormalizeSilent(s: seq<real>)
    requires |s| > 0 && Peak(s) == 0.0
    ensures Normalize(s) == s
    ensures forall i :: 0 <= i < |s| ==> s[i] == 0.0
  {
    forall i | 0 <= i < |s|
      ensures s[i] == 0.0
    {
      assert Abs(s[i]) <= 0.0;
    }
  }

  /// Every normalised sample lies in [-0.8, 0.8].
  lemma NormalizeBound(s: seq<real>)
    requires |s| > 0
    ensures forall i :: 0 <= i < |s| ==> -Headroom <= Normalize(s)[i] <= Headroom
  {
    var r := Normalize(s);
    if Peak(s) > 0.0 {
      NormalizedPeak(s);
      forall i | 0 <= i < |s|
        ensures -Headroom <= r[i] <= Headroom
      {
        assert Abs(r[i]) <= Peak(r);
      }
    } else {
      NormalizeSilent(s);
    }
  }

  /// A successful mix holds, at every index, the sum of the tracks there,
  /// rescaled by one common factor when the sum is not silent.
  lemma MixedAt(tracks: seq<seq<real>>, i: nat)
    requires Mixed(tracks).Ok? && i < MaxLen(tracks)
    ensures var sum := MixSum(tracks, MaxLen(tracks));
            var peak := Peak(sum);
            Mixed(tracks).value[i] == if peak > 0.0 then SumAt(tracks, i) / peak * Headroom else SumAt(tracks, i)
  {
  }

  /// The mix only fails for an empty list of tracks or when every track is empty.
  lemma MixedFails(tracks: seq<seq<real>>)
    ensures Mixed(tracks).Err? <==> tracks == [] || forall j :: 0 <= j < |tracks| ==> tracks[j] == []
  {
    if tracks != [] && Mixed(tracks).Err? {
      forall j | 0 <= j < |tracks|
        ensures tracks[j] == []
      {
        assert |tracks[j]| <= MaxLen(tracks);
      }
    }
  }

  /// `mix_tracks(tracks)`.
  method MixTracks(tracks: seq<seq<real>>) returns (r: Result<seq<real>>)
    ensures r == Mixed(tracks)
  {
    if |tracks| == 0 {
      return Err(Raised(NoTracksToMix));
    }
    var maxLength := MaxLen(tracks);
    var mixed := new real[maxLength](_ => 0.0);
    assert mixed[..] == MixSum([], maxLength);
    for k := 0 to |tracks|
      invariant mixed[..] == MixSum(tracks[..k], maxLength)
    {
      var track := tracks[k];
      var before := mixed[..];
      if |track| < maxLength {
        var padded := Padded(track, maxLength);
        AddInPlace(mixed, Placement(0, padded));
      } else {
        AddInPlace(mixed, Placement(0, track));
      }
      MixStep(tracks, k, maxLength, before, mixed[..]);
    }
    assert tracks[..|tracks|] == tracks;
    if maxLength == 0 {
      return Err(Raised(EmptyReduction));
    }
    return Ok(Normalize(mixed[..]));
  }

  /// One pass of the mixing loop adds track `k`, zero-padded, to the sum of
  /// the tracks before it.
  lemma MixStep(tracks: seq<seq<real>>, k: nat, n: nat, before: seq<real>, after: seq<real>)
    requires k < |tracks| && |tracks[k]| <= n
    requires before == MixSum(tracks[..k], n)
    requires after == AddInto(before, Placement(0, Padded(tracks[k], n)))
          || (|tracks[k]| == n && after == AddInto(before, Placement(0, tracks[k])))
    ensures after == MixSum(tracks[..k + 1], n)
  {
    assert tracks[..k + 1][..k] == tracks[..k];
    forall i | 0 <= i < n
      ensures after[i] == SumAt(tracks[..k + 1], i)
    {
    }
  }

  /// `np.array(x * 32767, dtype=np.int16)` on one sample: numpy truncates
  /// toward zero.
  function Pcm16(x: real): (q: int)
    ensures 0.0 <= x ==> 0 <= q
    ensures x <= 0.0 ==> q <= 0
  {
    Trunc(x * 32767.0)
  }

  /// A normalised sample converts to an int16 without overflow: it lands in
  /// [-26213, 26213], well inside [-32768, 32767].
  lemma Pcm16InRange(x: real)
    requires -Headroom <= x <= Headroom
    ensures -26213 <= Pcm16(x) <= 26213
  {
    assert -26213.6 <= x * 32767.0 <= 26213.6;
  }

  /// Every sample of a successful mix fits the 16-bit WAV format.
  lemma MixedFitsPcm16(tracks: seq<seq<real>>)
    requires Mixed(tracks).Ok?
    ensures forall i :: 0 <= i < |Mixed(tracks).value| ==> -32768 <= Pcm16(Mixed(tracks).value[i]) <= 32767
  {
    var sum := MixSum(tracks, MaxLen(tracks));
    NormalizeBound(sum);
    forall i | 0 <= i < |Mixed(tracks).value|
      ensures -32768 <= Pcm16(Mixed(tracks).value[i]) <= 32767
    {
      Pcm16InRange(Mixed(tracks).value[i]);
    }
  }
}
