/// `synth_track`: one object's track. Notes of half a second are laid end to
/// end over a zeroed buffer and added into it in place; the buffer is then
/// scaled by the object's volume. What each note sounds like (sine and
/// triangle mix, tremolo, envelope ramps) is an opaque `Oscillator`; the model
/// keeps the index arithmetic that decides where each note goes.
module Synth {
  import opened Outcome
  import opened RealMath
  import opened Buffers
  import opened Seeded

  /// `SAMPLE_RATE`, shared by both endpoints.
  const SampleRate: nat := 44100
  const NoteDuration: real := 0.5
  const MajorScale: seq<nat> := [0, 2, 4, 5, 7, 9, 11, 12]
  /// `np.random.RandomState` accepts seeds in [0, 2^32).
  const SeedBound: nat := 0x1_0000_0000

  const BaseFreqs: map<string, nat> := map["bass" := 110, "tenor" := 196, "alto" := 262, "soprano" := 392]
  const DefaultBaseFreq: nat := 262

  /// The dictionary `obj.model_dump()` that `synth_track` reads with `.get`.
  datatype ObjectDict = ObjectDict(
    id: Option<string>,
    vocalRange: Option<string>,
    mood: map<string, real>,
    volume: Option<real>)

  /// Everything the sample values of one note depend on.
  datatype NoteSpec = NoteSpec(
    baseFreq: nat,
    semitones: nat,
    samples: nat,
    sampleRate: nat,
    brightness: real,
    energy: real,
    sustain: real)

  /// Sample `j` of a note (mix * envelope * tremolo * energy * sustain).
  type Oscillator = (NoteSpec, nat) -> real

  /// `base_freqs.get(obj.get('vocalRange', 'alto'), 262)`.
  function BaseFreq(vocalRange: Option<string>): (hz: nat)
    ensures vocalRange.None? ==> hz == BaseFreqs["alto"]
    ensures vocalRange.Some? && vocalRange.value in BaseFreqs ==> hz == BaseFreqs[vocalRange.value]
    ensures vocalRange.Some? && vocalRange.value !in BaseFreqs ==> hz == DefaultBaseFreq
  {
    var name := if vocalRange.Some? then vocalRange.value else "alto";
    if name in BaseFreqs then BaseFreqs[name] else DefaultBaseFreq
  }

  /// `sum(ord(c) for c in s)`.
  function CharCodeSum(s: string): nat
  {
    if s == [] then 0 else CharCodeSum(s[..|s| - 1]) + s[|s| - 1] as nat
  }

  lemma {:induction false} CharCodeSumAppend(a: string, b: string)
    ensures CharCodeSum(a + b) == CharCodeSum(a) + CharCodeSum(b)
  {
    if b != [] {
      assert (a + b)[..|a + b| - 1] == a + b[..|b| - 1];
      CharCodeSumAppend(a, b[..|b| - 1]);
    } else {
      assert a + b == a;
    }
  }

  /// The melody seed: the code-point sum of the object id, or of "default".
  function IdSeed(id: Option<string>): nat
  {
    CharCodeSum(if id.Some? then id.value else "default")
  }

  lemma DefaultIdSeed()
    ensures IdSeed(None) == 741
  {
    assert CharCodeSum("d") == 100 by { assert "d"[..0] == []; }
    assert CharCodeSum("de") == 201 by { assert "de"[..1] == "d"; }
    assert CharCodeSum("def") == 303 by { assert "def"[..2] == "de"; }
    assert CharCodeSum("defa") == 400 by { assert "defa"[..3] == "def"; }
    assert CharCodeSum("defau") == 517 by { assert "defau"[..4] == "defa"; }
    assert CharCodeSum("defaul") == 625 by { assert "defaul"[..5] == "defau"; }
    assert CharCodeSum("default") == 741 by { assert "default"[..6] == "defaul"; }
  }

  /// `mood.get(key, 0.5)`.
  function MoodLevel(mood: map<string, real>, key: string): real
  {
    if key in mood then mood[key] else 0.5
  }

  /// `obj.get('volume', 0.7)`.
  function Volume(obj: ObjectDict): real
  {
    if obj.volume.Some? then obj.volume.value else 0.7
  }

  /// `num_samples = int(duration * sr)`.
  function SampleCount(duration: real, sr: nat): int
  {
    Trunc(duration * sr as real)
  }

  /// `notes_count = int(duration / note_duration)`; `range` of a negative
  /// count is empty, so the number of notes played is never negative.
  function NotesPlayed(duration: real): (count: nat)
    ensures 0.0 <= duration ==> count as real * NoteDuration <= duration < (count + 1) as real * NoteDuration
    ensures duration < NoteDuration ==> count == 0
  {
    var c := Trunc(duration / NoteDuration);
    if c < 0 then 0 else c
  }

  /// `int(note_idx * note_duration * sr)`: the first sample of note `k`, which
  /// is half of the whole number `k * sr`, rounded down (NoteStartIsFloor).
  function NoteStart(k: nat, sr: nat): nat
  {
    k * sr / 2
  }

  /// `int((note_idx + 1) * note_duration * sr)`, cut back to `num_samples`.
  function NoteEnd(k: nat, sr: nat, n: nat): nat
  {
    Min(NoteStart(k + 1, sr), n)
  }

  /// The integer form of the first sample agrees with the source's float
  /// formula evaluated exactly.
  lemma NoteStartIsFloor(k: nat, sr: nat)
    ensures NoteStart(k, sr) == (k as real * NoteDuration * sr as real).Floor
  {
    var m := k * sr;
    var q := m / 2;
    assert m == 2 * q + m % 2;
    assert k as real * NoteDuration * sr as real == m as real * 0.5;
    assert m as real * 0.5 == q as real + (m % 2) as real * 0.5;
  }

  lemma NoteStartMonotone(k: nat, m: nat, sr: nat)
    requires k <= m
    ensures NoteStart(k, sr) <= NoteStart(m, sr)
  {
    assert k * sr <= m * sr by {
      assert (m - k) * sr >= 0;
    }
  }

  /// The notes played end within the buffer: note `NotesPlayed - 1` ends
  /// no later than sample `num_samples`.
  lemma NotesWithinBuffer(duration: real, sr: nat)
    requires SampleCount(duration, sr) >= 0
    ensures NoteStart(NotesPlayed(duration), sr) <= SampleCount(duration, sr)
  {
    var m := NotesPlayed(duration);
    if m > 0 {
      PlayedWithin(duration);
      StartWithin(m, sr, duration);
    }
  }

  /// A note that starts no later than `d` seconds starts within the first
  /// `int(d * sr)` samples.
  lemma StartWithin(m: nat, sr: nat, d: real)
    requires m as real * NoteDuration <= d
    ensures NoteStart(m, sr) <= SampleCount(d, sr)
  {
    var y := d * sr as real;
    HalfProductWithin(m, sr, d);
    assert NoteStart(m, sr) as real <= y;
    assert SampleCount(d, sr) == Trunc(y);
  }

  lemma HalfProductWithin(m: nat, sr: nat, d: real)
    requires m as real * NoteDuration <= d
    ensures (m * sr / 2) as real <= d * sr as real
  {
    var p := m * sr;
    assert 2 * (p / 2) <= p;
    assert p as real == m as real * sr as real;
    MulMonotone(m as real * NoteDuration, d, sr as real);
    assert m as real * NoteDuration * sr as real == p as real * 0.5;
  }

  lemma PlayedWithin(duration: real)
    requires NotesPlayed(duration) > 0
    ensures 0.0 <= NotesPlayed(duration) as real * NoteDuration <= duration
  {
  }

  lemma MulMonotone(a: real, b: real, c: real)
    requires a <= b && 0.0 <= c
    ensures a * c <= b * c
  {
    assert b * c - a * c == (b - a) * c;
  }

  /// The note segments tile the front of a buffer of `n` samples: note k
  /// covers [NoteStart(k), NoteEnd(k)), it ends where note k + 1 begins, and
  /// it ends inside the buffer (so the cut-back at main.py:87-88 never fires).
  lemma NoteTiling(count: nat, sr: nat, n: nat, k: nat)
    requires NoteStart(count, sr) <= n && k < count
    ensures NoteStart(k, sr) <= NoteEnd(k, sr, n) == NoteStart(k + 1, sr) <= n
  {
    NoteStartMonotone(k, k + 1, sr);
    NoteStartMonotone(k + 1, count, sr);
  }

  /// What `synth_track` fails with, if anything: RandomState rejects the seed
  /// before `np.zeros` rejects a negative length.
  function SynthFailure(obj: ObjectDict, duration: real, sr: nat): (f: Option<Cause>)
    ensures f.None? <==> IdSeed(obj.id) < SeedBound && SampleCount(duration, sr) >= 0
    ensures f == Some(NegativeDimensions) ==> IdSeed(obj.id) < SeedBound
    ensures IdSeed(obj.id) >= SeedBound ==> f == Some(SeedOutOfRange)
    ensures f.Some? && IdSeed(obj.id) < SeedBound ==> f == Some(NegativeDimensions)
  {
    if IdSeed(obj.id) >= SeedBound then Some(SeedOutOfRange)
    else if SampleCount(duration, sr) < 0 then Some(NegativeDimensions)
    else None
  }

  /// What the oscillator is given for note `k`: the base frequency, the
  /// scale step drawn for it, its sample count, and the brightness, energy
  /// and sustain of the object's mood.
  function NoteSpecOf(obj: ObjectDict, sr: nat, draws: Draws, samples: nat, k: nat): NoteSpec
  {
    NoteSpec(
      BaseFreq(obj.vocalRange),
      MajorScale[draws(IdSeed(obj.id), k)],
      samples,
      sr,
      MoodLevel(obj.mood, "bright"),
      0.3 + MoodLevel(obj.mood, "happy") * 0.5,
      MoodLevel(obj.mood, "calm") * 0.8 + 0.2)
  }

  /// Note `k` of a track of `n` samples, as a block of samples at its segment.
  function NoteAt(obj: ObjectDict, sr: nat, n: nat, draws: Draws, tone: Oscillator, k: nat): (p: Placement)
    requires NoteStart(k + 1, sr) <= n
    ensures p.start == NoteStart(k, sr) && End(p) == NoteEnd(k, sr, n)
  {
    NoteStartMonotone(k, k + 1, sr);
    var len := NoteEnd(k, sr, n) - NoteStart(k, sr);
    Placement(NoteStart(k, sr), Sound(tone, NoteSpecOf(obj, sr, draws, len, k)))
  }

  /// The samples of one note: `note_audio` in the source.
  function Sound(tone: Oscillator, spec: NoteSpec): (s: seq<real>)
    ensures |s| == spec.samples
  {
    seq(spec.samples, j requires 0 <= j < spec.samples => tone(spec, j))
  }

  /// The first `k` notes, in order.
  function Notes(obj: ObjectDict, sr: nat, n: nat, draws: Draws, tone: Oscillator, k: nat): (ps: seq<Placement>)
    requires NoteStart(k, sr) <= n
    ensures |ps| == k
  {
    if k == 0 then []
    else
      NoteStartMonotone(k - 1, k, sr);
      Notes(obj, sr, n, draws, tone, k - 1) + [NoteAt(obj, sr, n, draws, tone, k - 1)]
  }

  lemma {:induction false} NotesAt(obj: ObjectDict, sr: nat, n: nat, draws: Draws, tone: Oscillator, k: nat, j: nat)
    requires NoteStart(k, sr) <= n && j < k
    ensures NoteStart(j + 1, sr) <= n
    ensures Notes(obj, sr, n, draws, tone, k)[j] == NoteAt(obj, sr, n, draws, tone, j)
  {
    NoteStartMonotone(k - 1, k, sr);
    if j < k - 1 {
      NotesAt(obj, sr, n, draws, tone, k - 1, j);
    }
  }

  /// Laying one more note adds it on top of the earlier ones.
  lemma NotesStep(obj: ObjectDict, sr: nat, n: nat, draws: Draws, tone: Oscillator, k: nat)
    requires NoteStart(k + 1, sr) <= n
    ensures NoteStart(k, sr) <= n
    ensures Lay(Zeros(n), Notes(obj, sr, n, draws, tone, k + 1))
         == AddInto(Lay(Zeros(n), Notes(obj, sr, n, draws, tone, k)),
                    Placement(NoteStart(k, sr),
                              Sound(tone, NoteSpecOf(obj, sr, draws, NoteEnd(k, sr, n) - NoteStart(k, sr), k))))
  {
    NoteStartMonotone(k, k + 1, sr);
    var ps := Notes(obj, sr, n, draws, tone, k + 1);
    assert ps[..k] == Notes(obj, sr, n, draws, tone, k);
  }

  /// The notes fit the buffer and follow one another without overlapping.
  lemma NotesTile(obj: ObjectDict, sr: nat, n: nat, draws: Draws, tone: Oscillator, k: nat)
    requires NoteStart(k, sr) <= n
    ensures Fits(Notes(obj, sr, n, draws, tone, k), n)
    ensures Ordered(Notes(obj, sr, n, draws, tone, k))
  {
    var ps := Notes(obj, sr, n, draws, tone, k);
    forall j | 0 <= j < k
      ensures End(ps[j]) <= n
    {
      NotesAt(obj, sr, n, draws, tone, k, j);
      NoteTiling(k, sr, n, j);
    }
    forall j, m | 0 <= j < m < k
      ensures End(ps[j]) <= ps[m].start
    {
      NotesAt(obj, sr, n, draws, tone, k, j);
      NotesAt(obj, sr, n, draws, tone, k, m);
      NoteTiling(k, sr, n, j);
      NoteStartMonotone(j + 1, m, sr);
    }
  }

  /// The track `synth_track` returns when it does not fail: the notes laid
  /// over silence, then scaled by the volume.
  function Track(obj: ObjectDict, duration: real, sr: nat, draws: Draws, tone: Oscillator): (audio: seq<real>)
    requires SynthFailure(obj, duration, sr).None?
    ensures |audio| == SampleCount(duration, sr)
  {
    var n := SampleCount(duration, sr);
    NotesWithinBuffer(duration, sr);
    Scaled(Lay(Zeros(n), Notes(obj, sr, n, draws, tone, NotesPlayed(duration))), Volume(obj))
  }

  /// Inside note k's segment the laid notes hold exactly note k's
  /// oscillator output; the volume is applied afterwards (TrackInNote).
  lemma LaidInNote(obj: ObjectDict, sr: nat, n: nat, draws: Draws, tone: Oscillator, count: nat, k: nat, i: nat)
    requires NoteStart(count, sr) <= n && k < count
    requires NoteStart(k, sr) <= i < NoteEnd(k, sr, n)
    ensures i < n
    ensures Lay(Zeros(n), Notes(obj, sr, n, draws, tone, count))[i]
         == tone(NoteSpecOf(obj, sr, draws, NoteEnd(k, sr, n) - NoteStart(k, sr), k), i - NoteStart(k, sr))
  {
    NotesTile(obj, sr, n, draws, tone, count);
    NotesAt(obj, sr, n, draws, tone, count, k);
    LayCovered(Zeros(n), Notes(obj, sr, n, draws, tone, count), k, i);
  }

  /// Samples after the last note stay silent.
  lemma LaidAfterNotes(obj: ObjectDict, sr: nat, n: nat, draws: Draws, tone: Oscillator, count: nat, i: nat)
    requires NoteStart(count, sr) <= i < n
    ensures Lay(Zeros(n), Notes(obj, sr, n, draws, tone, count))[i] == 0.0
  {
    var ps := Notes(obj, sr, n, draws, tone, count);
    forall j | 0 <= j < count
      ensures !Covers(ps[j], i)
    {
      NotesAt(obj, sr, n, draws, tone, count, j);
      NoteStartMonotone(j + 1, count, sr);
    }
    LayUncovered(Zeros(n), ps, i);
  }

  /// Inside note k's segment, the track holds note k's oscillator output
  /// times the volume.
  lemma TrackInNote(obj: ObjectDict, duration: real, sr: nat, draws: Draws, tone: Oscillator,
                    audio: seq<real>, k: nat, i: nat)
    requires SynthFailure(obj, duration, sr).None? && audio == Track(obj, duration, sr, draws, tone)
    requires k < NotesPlayed(duration)
    requires NoteStart(k, sr) <= i < NoteEnd(k, sr, |audio|)
    ensures i < |audio|
    ensures audio[i] == Gain(tone(NoteSpecOf(obj, sr, draws, NoteEnd(k, sr, |audio|) - NoteStart(k, sr), k),
                                  i - NoteStart(k, sr)), Volume(obj))
  {
    var n, laid := TrackLaid(obj, duration, sr, draws, tone);
    assert |audio| == n;
    LaidInNote(obj, sr, n, draws, tone, NotesPlayed(duration), k, i);
    ScaledAtValue(audio, laid, Volume(obj), i, tone(NoteSpecOf(obj, sr, draws, NoteEnd(k, sr, n) - NoteStart(k, sr), k), i - NoteStart(k, sr)));
  }

  /// The buffer of laid notes that `Track` scales, and its length.
  lemma TrackLaid(obj: ObjectDict, duration: real, sr: nat, draws: Draws, tone: Oscillator)
    returns (n: nat, laid: seq<real>)
    requires SynthFailure(obj, duration, sr).None?
    ensures n == SampleCount(duration, sr) && NoteStart(NotesPlayed(duration), sr) <= n
    ensures laid == Lay(Zeros(n), Notes(obj, sr, n, draws, tone, NotesPlayed(duration)))
    ensures Track(obj, duration, sr, draws, tone) == Scaled(laid, Volume(obj))
  {
    n := SampleCount(duration, sr);
    NotesWithinBuffer(duration, sr);
    laid := Lay(Zeros(n), Notes(obj, sr, n, draws, tone, NotesPlayed(duration)));
  }

  /// After the last note that `range(notes_count)` plays, the track is silent.
  lemma TrackAfterNotes(obj: ObjectDict, duration: real, sr: nat, draws: Draws, tone: Oscillator, i: nat)
    requires SynthFailure(obj, duration, sr).None?
    requires NoteStart(NotesPlayed(duration), sr) <= i < SampleCount(duration, sr)
    ensures Track(obj, duration, sr, draws, tone)[i] == 0.0
  {
    var n := SampleCount(duration, sr);
    LaidAfterNotes(obj, sr, n, draws, tone, NotesPlayed(duration), i);
    ScaledAt(Lay(Zeros(n), Notes(obj, sr, n, draws, tone, NotesPlayed(duration))), Volume(obj), i);
  }

  /// `synth_track(obj, duration, sr)`.
  method SynthTrack(obj: ObjectDict, duration: real, sr: nat, draws: Draws, tone: Oscillator)
    returns (r: Result<seq<real>>)
    ensures SynthFailure(obj, duration, sr).Some? ==> r == Err(Raised(SynthFailure(obj, duration, sr).value))
    ensures SynthFailure(obj, duration, sr).None? ==> r == Ok(Track(obj, duration, sr, draws, tone))
  {
    var numSamples := SampleCount(duration, sr);
    var seed := IdSeed(obj.id);
    if seed >= SeedBound {
      return Err(Raised(SeedOutOfRange));
    }
    var notesCount := Trunc(duration / NoteDuration);
    if numSamples < 0 {
      return Err(Raised(NegativeDimensions));
    }
    NotesWithinBuffer(duration, sr);
    var audio := new real[numSamples](_ => 0.0);
    assert audio[..] == Zeros(numSamples);
    AddNotes(audio, obj, sr, draws, tone, notesCount);
    ScaleInPlace(audio, Volume(obj));
    return Ok(audio[..]);
  }

  /// The note loop of `synth_track`: adds each of the `notesCount` notes
  /// into the buffer in turn.
  method AddNotes(audio: array<real>, obj: ObjectDict, sr: nat, draws: Draws, tone: Oscillator, notesCount: int)
    requires NoteStart(if notesCount < 0 then 0 else notesCount, sr) <= audio.Length
    requires audio[..] == Zeros(audio.Length)
    modifies audio
    ensures audio[..] == Lay(Zeros(audio.Length),
                             Notes(obj, sr, audio.Length, draws, tone, if notesCount < 0 then 0 else notesCount))
  {
    // `range(notes_count)` is empty when the count is negative.
    var count: nat := if notesCount < 0 then 0 else notesCount;
    var noteIdx := 0;
    while noteIdx < count
      invariant 0 <= noteIdx <= count
      invariant NoteStart(noteIdx, sr) <= audio.Length
      invariant audio[..] == Lay(Zeros(audio.Length), Notes(obj, sr, audio.Length, draws, tone, noteIdx))
    {
      NoteStartMonotone(noteIdx + 1, count, sr);
      AddNote(audio, obj, sr, draws, tone, noteIdx);
      noteIdx := noteIdx + 1;
    }
  }

  /// One pass of the note loop: note `noteIdx` is cut to the buffer's end
  /// and added into its segment.
  method AddNote(audio: array<real>, obj: ObjectDict, sr: nat, draws: Draws, tone: Oscillator, noteIdx: nat)
    requires NoteStart(noteIdx + 1, sr) <= audio.Length
    requires audio[..] == Lay(Zeros(audio.Length), Notes(obj, sr, audio.Length, draws, tone, noteIdx))
    modifies audio
    ensures audio[..] == Lay(Zeros(audio.Length), Notes(obj, sr, audio.Length, draws, tone, noteIdx + 1))
  {
    var numSamples := audio.Length;
    NotesStep(obj, sr, numSamples, draws, tone, noteIdx);
    var startSample := NoteStart(noteIdx, sr);
    var endSample := NoteStart(noteIdx + 1, sr);
    if endSample > numSamples {
      endSample := numSamples;
    }
    var noteSamples := endSample - startSample;
    var spec := NoteSpecOf(obj, sr, draws, noteSamples, noteIdx);
    var noteAudio := Sound(tone, spec);
    AddInPlace(audio, Placement(startSample, noteAudio));
  }
}
