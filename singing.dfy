/// `compose_singing`: validate the request, turn the lyrics into phonemes and
/// the tempo into a melody, then place one tone per sounding phoneme along a
/// time cursor and normalise the result. What a tone sounds like (sine times
/// attack and release ramps) is an opaque `Voice`; the model keeps where the
/// tones go.
module Singing {
  import opened Outcome
  import opened RealMath
  import opened Buffers
  import opened Lyrics
  import opened Melodies
  import Synth
  import Seeded
  import Mixer

  /// The gain `tone * envelope * 0.3` applies to every tone.
  const ToneGain: real := 0.3

  datatype SingingInput = SingingInput(lyrics: string, seconds: real, bpm: nat, scale: string, preset: string)

  /// The `data` part of a successful answer; `audio` stands for the samples
  /// that `audioUrl` encodes.
  datatype SingingData = SingingData(audio: seq<real>, duration: real, bpm: nat, scale: string, preset: string)

  /// Everything the samples of one tone depend on: the note (its MIDI
  /// number fixes the frequency), the phoneme's length in seconds and the
  /// number of samples written.
  datatype ToneSpec = ToneSpec(midi: int, duration: real, samples: nat)

  /// Sample `j` of `tone * envelope`.
  type Voice = (ToneSpec, nat) -> real

  predicate Sounds(p: Phoneme)
  {
    p.symbol != ""
  }

  predicate NonNegative(ps: seq<Phoneme>)
  {
    forall j :: 0 <= j < |ps| ==> ps[j].duration >= 0.0
  }

  /// `current_time` before phoneme `k`: the lengths, in seconds, of the
  /// sounding phonemes before it. Pauses do not move it.
  function Cursor(ps: seq<Phoneme>, k: nat): (c: real)
    requires k <= |ps|
    ensures NonNegative(ps) ==> c >= 0.0
  {
    if k == 0 then 0.0
    else Cursor(ps, k - 1) + (if Sounds(ps[k - 1]) then ps[k - 1].duration / 1000.0 else 0.0)
  }

  /// `int(t * SAMPLE_RATE)`.
  function SampleAt(t: real): (i: nat)
    requires t >= 0.0
    ensures i as real <= t * Synth.SampleRate as real < i as real + 1.0
  {
    Trunc(t * Synth.SampleRate as real)
  }

  lemma SampleAtMonotone(t: real, u: real)
    requires 0.0 <= t <= u
    ensures SampleAt(t) <= SampleAt(u)
  {
    FloorMonotone(t * Synth.SampleRate as real, u * Synth.SampleRate as real);
  }

  /// A request of at least one second has at least a second of samples.
  lemma SamplesInDuration(seconds: real)
    requires seconds >= 1.0
    ensures SampleAt(seconds) >= 44100
  {
    SampleAtMonotone(1.0, seconds);
  }

  /// The cursor never moves back.
  lemma {:induction false} CursorMonotone(ps: seq<Phoneme>, k: nat, m: nat)
    requires NonNegative(ps) && k <= m <= |ps|
    ensures Cursor(ps, k) <= Cursor(ps, m)
    decreases m - k
  {
    if k < m {
      CursorMonotone(ps, k, m - 1);
    }
  }

  /// The block phoneme `k` adds into a buffer of `n` samples, if any: a
  /// sounding phoneme whose start lies inside the buffer writes its tone from
  /// the cursor to the cursor after it, cut back to the buffer's end.
  function Write(ps: seq<Phoneme>, melody: seq<MelodyNote>, n: nat, voice: Voice, k: nat): (w: Option<Placement>)
    requires NonNegative(ps) && k < |ps| && melody != []
    ensures w.Some? <==> Sounds(ps[k]) && SampleAt(Cursor(ps, k)) < n
    ensures w.Some? ==> w.value.start == SampleAt(Cursor(ps, k))
    ensures w.Some? ==> End(w.value) == Min(SampleAt(Cursor(ps, k + 1)), n)
  {
    if !Sounds(ps[k]) then None
    else
      var currentTime := Cursor(ps, k);
      var duration := ps[k].duration / 1000.0;
      var startSample := SampleAt(currentTime);
      var endSample := Min(SampleAt(currentTime + duration), n);
      if startSample < n then
        SampleAtMonotone(currentTime, currentTime + duration);
        var spec := ToneSpec(melody[k % |melody|].midi, duration, endSample - startSample);
        Some(Placement(startSample, Tone(voice, spec)))
      else None
  }

  /// `tone * envelope * 0.3`.
  function Tone(voice: Voice, spec: ToneSpec): (s: seq<real>)
    ensures |s| == spec.samples
  {
    seq(spec.samples, j requires 0 <= j < spec.samples => voice(spec, j) * ToneGain)
  }

  /// The blocks written by the first `k` phonemes, in order.
  function Writes(ps: seq<Phoneme>, melody: seq<MelodyNote>, n: nat, voice: Voice, k: nat): (ws: seq<Placement>)
    requires NonNegative(ps) && k <= |ps| && melody != []
    ensures |ws| <= k
  {
    if k == 0 then []
    else
      var w := Write(ps, melody, n, voice, k - 1);
      Writes(ps, melody, n, voice, k - 1) + (if w.Some? then [w.value] else [])
  }

  /// The blocks lie inside the buffer, run left to right without
  /// overlapping, and end no later than the cursor has reached.
  lemma {:induction false} WritesTile(ps: seq<Phoneme>, melody: seq<MelodyNote>, n: nat, voice: Voice, k: nat)
    requires NonNegative(ps) && k <= |ps| && melody != []
    ensures Fits(Writes(ps, melody, n, voice, k), n)
    ensures Ordered(Writes(ps, melody, n, voice, k))
    ensures forall j :: 0 <= j < |Writes(ps, melody, n, voice, k)| ==>
              End(Writes(ps, melody, n, voice, k)[j]) <= SampleAt(Cursor(ps, k))
  {
    if k > 0 {
      var init := Writes(ps, melody, n, voice, k - 1);
      WritesTile(ps, melody, n, voice, k - 1);
      CursorMonotone(ps, k - 1, k);
      SampleAtMonotone(Cursor(ps, k - 1), Cursor(ps, k));
      var w := Write(ps, melody, n, voice, k - 1);
      if w.Some? {
        var ws := init + [w.value];
        assert Writes(ps, melody, n, voice, k) == ws;
        forall j | 0 <= j < |ws|
          ensures End(ws[j]) <= SampleAt(Cursor(ps, k)) && End(ws[j]) <= n
        {
          if j < |init| {
            assert ws[j] == init[j];
          }
        }
        forall j, m | 0 <= j < m < |ws|
          ensures End(ws[j]) <= ws[m].start
        {
          assert ws[j] == init[j];
        }
      }
    }
  }

  /// What the placement loop leaves in a buffer of `n` samples, or the
  /// `ZeroDivisionError` of `melody[i % len(melody)]` when the melody is
  /// empty and some phoneme sounds.
  function Sung(ps: seq<Phoneme>, melody: seq<MelodyNote>, n: nat, voice: Voice): (r: Result<seq<real>>)
    requires NonNegative(ps)
    ensures r.Err? <==> melody == [] && CountSounding(ps) > 0
    ensures r.Err? ==> r.error == Raised(DivisionByZero)
    ensures r.Ok? ==> |r.value| == n
  {
    if melody == [] then
      if CountSounding(ps) > 0 then Err(Raised(DivisionByZero)) else Ok(Zeros(n))
    else Ok(Lay(Zeros(n), Writes(ps, melody, n, voice, |ps|)))
  }

  /// Inside a block the buffer holds exactly that phoneme's tone; the blocks
  /// never add into one another.
  lemma SungInWrite(ps: seq<Phoneme>, melody: seq<MelodyNote>, n: nat, voice: Voice, j: nat, i: nat)
    requires NonNegative(ps) && melody != []
    requires j < |Writes(ps, melody, n, voice, |ps|)|
    requires Covers(Writes(ps, melody, n, voice, |ps|)[j], i)
    ensures i < n
    ensures Sung(ps, melody, n, voice).value[i]
         == Writes(ps, melody, n, voice, |ps|)[j].piece[i - Writes(ps, melody, n, voice, |ps|)[j].start]
  {
    WritesTile(ps, melody, n, voice, |ps|);
    LayCovered(Zeros(n), Writes(ps, melody, n, voice, |ps|), j, i);
  }

  /// Samples from the final cursor position on stay silent.
  lemma SungAfterCursor(ps: seq<Phoneme>, melody: seq<MelodyNote>, n: nat, voice: Voice, i: nat)
    requires NonNegative(ps) && melody != []
    requires SampleAt(Cursor(ps, |ps|)) <= i < n
    ensures Sung(ps, melody, n, voice).value[i] == 0.0
  {
    var ws := Writes(ps, melody, n, voice, |ps|);
    WritesTile(ps, melody, n, voice, |ps|);
    LayUncovered(Zeros(n), ws, i);
  }

  lemma WritesStep(ps: seq<Phoneme>, melody: seq<MelodyNote>, n: nat, voice: Voice, k: nat)
    requires NonNegative(ps) && k < |ps| && melody != []
    ensures Write(ps, melody, n, voice, k).Some? ==>
              Lay(Zeros(n), Writes(ps, melody, n, voice, k + 1))
              == AddInto(Lay(Zeros(n), Writes(ps, melody, n, voice, k)), Write(ps, melody, n, voice, k).value)
    ensures Write(ps, melody, n, voice, k).None? ==>
              Writes(ps, melody, n, voice, k + 1) == Writes(ps, melody, n, voice, k)
  {
    var w := Write(ps, melody, n, voice, k);
    if w.Some? {
      var ws := Writes(ps, melody, n, voice, k + 1);
      assert ws[..|ws| - 1] == Writes(ps, melody, n, voice, k);
    }
  }

  /// The placement loop of `compose_singing` over a buffer of `numSamples`.
  method PlacePhonemes(phonemes: seq<Phoneme>, melody: seq<MelodyNote>, numSamples: nat, voice: Voice)
    returns (r: Result<seq<real>>)
    requires NonNegative(phonemes)
    ensures r == Sung(phonemes, melody, numSamples, voice)
  {
    var audio := new real[numSamples](_ => 0.0);
    var currentTime := 0.0;
    for i := 0 to |phonemes|
      invariant currentTime == Cursor(phonemes, i)
      invariant melody == [] ==> CountSounding(phonemes[..i]) == 0 && audio[..] == Zeros(numSamples)
      invariant melody != [] ==> audio[..] == Lay(Zeros(numSamples), Writes(phonemes, melody, numSamples, voice, i))
    {
      assert phonemes[..i + 1] == phonemes[..i] + [phonemes[i]];
      CountSoundingAppend(phonemes[..i], [phonemes[i]]);
      if melody != [] {
        WritesStep(phonemes, melody, numSamples, voice, i);
      }
      if phonemes[i].symbol != "" {
        if |melody| == 0 {
          CountSoundingPrefix(phonemes, i + 1);
          return Err(Raised(DivisionByZero));
        }
        currentTime := PlaceOne(audio, phonemes, melody, voice, i, currentTime);
      }
    }
    if melody == [] {
      assert phonemes[..|phonemes|] == phonemes;
    }
    return Ok(audio[..]);
  }

  /// Sounding phonemes in a prefix are sounding phonemes of the whole list.
  lemma {:induction false} CountSoundingPrefix(ps: seq<Phoneme>, k: nat)
    requires k <= |ps|
    ensures CountSounding(ps[..k]) <= CountSounding(ps)
  {
    assert ps == ps[..k] + ps[k..];
    CountSoundingAppend(ps[..k], ps[k..]);
  }

  /// One sounding phoneme of the placement loop: work out its samples, add
  /// its tone there if it starts inside the buffer, and move the cursor on.
  method PlaceOne(audio: array<real>, phonemes: seq<Phoneme>, melody: seq<MelodyNote>, voice: Voice, i: nat, currentTime: real)
    returns (nextTime: real)
    requires NonNegative(phonemes) && i < |phonemes| && melody != [] && Sounds(phonemes[i])
    requires currentTime == Cursor(phonemes, i)
    requires audio[..] == Lay(Zeros(audio.Length), Writes(phonemes, melody, audio.Length, voice, i))
    modifies audio
    ensures nextTime == Cursor(phonemes, i + 1)
    ensures audio[..] == Lay(Zeros(audio.Length), Writes(phonemes, melody, audio.Length, voice, i + 1))
  {
    var numSamples := audio.Length;
    WritesStep(phonemes, melody, numSamples, voice, i);
    var note := melody[i % |melody|];
    var duration := phonemes[i].duration / 1000.0;
    var startSample := SampleAt(currentTime);
    var endSample := SampleAt(currentTime + duration);
    endSample := Min(endSample, numSamples);
    if startSample < numSamples {
      SampleAtMonotone(currentTime, currentTime + duration);
      var samples := endSample - startSample;
      var tone := Tone(voice, ToneSpec(note.midi, duration, samples));
      assert Write(phonemes, melody, numSamples, voice, i) == Some(Placement(startSample, tone));
      AddInPlace(audio, Placement(startSample, tone));
    } else {
      assert Write(phonemes, melody, numSamples, voice, i).None?;
    }
    nextTime := currentTime + duration;
  }

  /// The 400 answers, checked in this order.
  function Rejection(request: SingingInput): (r: Option<Failure>)
    ensures r == Some(BadRequest("Lyrics cannot be empty")) <==> IsBlank(request.lyrics)
    ensures r.None? <==> !IsBlank(request.lyrics) && 1.0 <= request.seconds <= 60.0
    ensures !IsBlank(request.lyrics) && (request.seconds < 1.0 || request.seconds > 60.0) ==>
              r == Some(BadRequest("Duration must be between 1 and 60 seconds"))
  {
    StripEmpty(request.lyrics);
    if |Strip(request.lyrics)| == 0 then Some(BadRequest("Lyrics cannot be empty"))
    else if request.seconds < 1.0 || request.seconds > 60.0 then Some(BadRequest("Duration must be between 1 and 60 seconds"))
    else None
  }

  /// What `compose_singing(request)` answers; `draws` stands for the melody's
  /// RandomState and `voice` for the tone samples.
  function Singing(request: SingingInput, draws: Seeded.Draws, voice: Voice): (r: Result<SingingData>)
    ensures Rejection(request).Some? ==> r == Err(Rejection(request).value)
    ensures r.Ok? ==> request.seconds >= 1.0 && |r.value.audio| == SampleAt(request.seconds)
  {
    if Rejection(request).Some? then Err(Rejection(request).value)
    else Accepted(request, draws, voice)
  }

  /// What `compose_singing` answers once the request has passed validation.
  function Accepted(request: SingingInput, draws: Seeded.Draws, voice: Voice): (r: Result<SingingData>)
    requires request.seconds >= 1.0
    ensures request.bpm == 0 ==> r == Err(Raised(DivisionByZero))
    ensures r.Ok? ==> |r.value.audio| == SampleAt(request.seconds)
  {
    if request.bpm == 0 then Err(Raised(DivisionByZero))
    else
      var phonemes := Phonemes(request.lyrics, request.bpm).value;
      var melody := Melody(request.bpm, request.seconds, request.scale, RootNote(request.preset), draws).value;
      PhonemesNonNegative(Words(Strip(request.lyrics)), SyllableMs(request.bpm));
      Answer(request, phonemes, melody, voice)
  }

  /// The tail of `compose_singing` once the phonemes and the melody are
  /// known: place the tones over `int(seconds * SAMPLE_RATE)` samples and
  /// normalise.
  function Answer(request: SingingInput, phonemes: seq<Phoneme>, melody: seq<MelodyNote>, voice: Voice): (r: Result<SingingData>)
    requires NonNegative(phonemes) && request.seconds >= 1.0
    ensures r.Ok? ==> |r.value.audio| == SampleAt(request.seconds)
  {
    SamplesInDuration(request.seconds);
    var sung := Sung(phonemes, melody, SampleAt(request.seconds), voice);
    if sung.Err? then Err(sung.error)
    else Ok(SingingData(Mixer.Normalize(sung.value), request.seconds, request.bpm, request.scale, request.preset))
  }

  /// A valid request with a positive tempo fails only when fewer than one
  /// eighth note fits (`seconds * bpm < 30`) and the lyrics hold a letter;
  /// then `melody[i % 0]` divides by zero.
  lemma SingingFails(request: SingingInput, draws: Seeded.Draws, voice: Voice)
    requires Rejection(request).None? && request.bpm > 0
    ensures Singing(request, draws, voice).Err? <==>
              request.seconds * request.bpm as real < 30.0 && CountLettersIn(Words(Strip(request.lyrics))) > 0
    ensures Singing(request, draws, voice).Err? ==> Singing(request, draws, voice).error == Raised(DivisionByZero)
  {
    MelodyEmpty(request.bpm, request.seconds, request.scale, RootNote(request.preset), draws);
    PhonemesCount(Words(Strip(request.lyrics)), SyllableMs(request.bpm));
  }

  /// A successful answer carries the placed tones normalised to a peak of
  /// 0.8 and echoes the request's duration, tempo, scale and preset.
  lemma SingingAnswer(request: SingingInput, draws: Seeded.Draws, voice: Voice)
    requires Singing(request, draws, voice).Ok?
    ensures var data := Singing(request, draws, voice).value;
            data.duration == request.seconds && data.bpm == request.bpm &&
            data.scale == request.scale && data.preset == request.preset
    ensures var data := Singing(request, draws, voice).value;
            var phonemes := Phonemes(request.lyrics, request.bpm).value;
            var melody := Melody(request.bpm, request.seconds, request.scale, RootNote(request.preset), draws).value;
            Rejection(request).None? && request.bpm > 0 && request.seconds >= 1.0 && NonNegative(phonemes) &&
            Sung(phonemes, melody, SampleAt(request.seconds), voice).Ok? &&
            data.audio == Mixer.Normalize(Sung(phonemes, melody, SampleAt(request.seconds), voice).value)
  {
    PhonemesNonNegative(Words(Strip(request.lyrics)), SyllableMs(request.bpm));
  }

  /// Every sample of a successful answer converts to a 16-bit PCM value
  /// without overflow.
  lemma AnswerFitsPcm16(request: SingingInput, phonemes: seq<Phoneme>, melody: seq<MelodyNote>, voice: Voice)
    requires NonNegative(phonemes) && request.seconds >= 1.0
    requires Answer(request, phonemes, melody, voice).Ok?
    ensures forall i :: 0 <= i < |Answer(request, phonemes, melody, voice).value.audio| ==>
              -32768 <= Mixer.Pcm16(Answer(request, phonemes, melody, voice).value.audio[i]) <= 32767
  {
    var audio := Answer(request, phonemes, melody, voice).value.audio;
    SamplesInDuration(request.seconds);
    Mixer.NormalizeBound(Sung(phonemes, melody, SampleAt(request.seconds), voice).value);
    forall i | 0 <= i < |audio|
      ensures -32768 <= Mixer.Pcm16(audio[i]) <= 32767
    {
      Mixer.Pcm16InRange(audio[i]);
    }
  }

  /// `compose_singing(request)`.
  method ComposeSinging(request: SingingInput, draws: Seeded.Draws, voice: Voice) returns (r: Result<SingingData>)
    ensures r == Singing(request, draws, voice)
  {
    if |Strip(request.lyrics)| == 0 {
      assert Rejection(request) == Some(BadRequest("Lyrics cannot be empty"));
      return Err(BadRequest("Lyrics cannot be empty"));
    }
    if request.seconds < 1.0 || request.seconds > 60.0 {
      assert Rejection(request) == Some(BadRequest("Duration must be between 1 and 60 seconds"));
      return Err(BadRequest("Duration must be between 1 and 60 seconds"));
    }
    assert Rejection(request).None?;
    r := Compose(request, draws, voice);
  }

  /// `compose_singing` after validation: phonemes, melody, synthesis.
  method Compose(request: SingingInput, draws: Seeded.Draws, voice: Voice) returns (r: Result<SingingData>)
    requires request.seconds >= 1.0
    ensures r == Accepted(request, draws, voice)
  {
    var rootNote := RootNote(request.preset);
    var phonemes := TextToPhonemes(request.lyrics, request.bpm);
    if phonemes.Err? {
      return Err(phonemes.error);
    }
    var melody := GenerateMelody(request.bpm, request.seconds, request.scale, rootNote, draws);
    PhonemesNonNegative(Words(Strip(request.lyrics)), SyllableMs(request.bpm));
    r := Synthesize(request, phonemes.value, melody.value, voice);
  }

  /// The synthesis and normalisation steps of `compose_singing`.
  method Synthesize(request: SingingInput, phonemes: seq<Phoneme>, melody: seq<MelodyNote>, voice: Voice)
    returns (r: Result<SingingData>)
    requires NonNegative(phonemes) && request.seconds >= 1.0
    ensures r == Answer(request, phonemes, melody, voice)
  {
    var numSamples := SampleAt(request.seconds);
    SamplesInDuration(request.seconds);
    var audio := PlacePhonemes(phonemes, melody, numSamples, voice);
    if audio.Err? {
      return Err(audio.error);
    }
    var normalized := Mixer.Normalize(audio.value);
    return Ok(SingingData(normalized, request.seconds, request.bpm, request.scale, request.preset));
  }
}
