/// `compose_song`: keep the enabled objects, check their number, synthesise
/// one track and one waveform per object, mix the tracks and title the song.
module Compose {
  import opened Outcome
  import opened Synth
  import opened Waveform
  import Mixer
  import Seeded

  const MaxTracks: nat := 10
  /// `DEFAULT_DURATION`, in seconds.
  const DefaultDuration: real := 8.0
  const WaveformLength: nat := 256
  const BaseSeed: nat := 42
  const SeedStride: nat := 137

  /// The fields of a `SingingObject` the endpoint reads.
  datatype SingingObject = SingingObject(
    id: string,
    name: string,
    genre: string,
    vocalRange: string,
    enabled: bool,
    volume: real,
    mood: map<string, real>)

  /// `ComposeRequest`; an absent or empty title both mean "no title".
  datatype ComposeRequest = ComposeRequest(objects: seq<SingingObject>, harmonyMode: bool, title: Option<string>)

  datatype SongTrack = SongTrack(
    objectId: string,
    displayName: string,
    genre: string,
    vocalRange: string,
    enabled: bool,
    volume: real,
    waveform: seq<WavePoint>)

  /// The deterministic part of `SongResult`; `mixed` stands for the samples
  /// `mixedAudioUrl` encodes.
  datatype Song = Song(title: string, harmonyMode: bool, mixed: seq<real>, tracks: seq<SongTrack>)

  /// `obj.model_dump()` as `synth_track` sees it: every key is present.
  function ToDict(obj: SingingObject): ObjectDict
  {
    ObjectDict(Some(obj.id), Some(obj.vocalRange), obj.mood, Some(obj.volume))
  }

  /// `[obj for obj in objects if obj.enabled]`.
  function Enabled(objects: seq<SingingObject>): (r: seq<SingingObject>)
    ensures |r| <= |objects|
  {
    if objects == [] then []
    else
      var last := objects[|objects| - 1];
      Enabled(objects[..|objects| - 1]) + (if last.enabled then [last] else [])
  }

  /// The filter keeps order: filtering a concatenation filters each part.
  lemma {:induction false} EnabledAppend(a: seq<SingingObject>, b: seq<SingingObject>)
    ensures Enabled(a + b) == Enabled(a) + Enabled(b)
  {
    if b == [] {
      assert a + b == a;
    } else {
      assert (a + b)[..|a + b| - 1] == a + b[..|b| - 1];
      EnabledAppend(a, b[..|b| - 1]);
    }
  }

  /// The filter keeps exactly the enabled objects.
  lemma {:induction false} EnabledMembers(objects: seq<SingingObject>, x: SingingObject)
    ensures x in Enabled(objects) <==> x in objects && x.enabled
  {
    if objects != [] {
      var init := objects[..|objects| - 1];
      EnabledMembers(init, x);
      assert objects == init + [objects[|objects| - 1]];
    }
  }

  /// The 400 answers, checked in this order.
  function Rejection(enabled: seq<SingingObject>): (r: Option<Failure>)
    ensures r.None? <==> 1 <= |enabled| <= MaxTracks
    ensures |enabled| == 0 ==> r == Some(BadRequest("At least one object must be enabled"))
    ensures |enabled| > MaxTracks ==> r == Some(BadRequest("Too many tracks (max 10)"))
  {
    if |enabled| == 0 then Some(BadRequest("At least one object must be enabled"))
    else if |enabled| > MaxTracks then Some(BadRequest("Too many tracks (max 10)"))
    else None
  }

  /// `42 + (index * 137) if request.harmonyMode else 42`.
  function WaveformSeed(harmonyMode: bool, index: nat): (seed: nat)
    ensures !harmonyMode ==> seed == 42
    ensures harmonyMode ==> seed == 42 + 137 * index
  {
    if harmonyMode then BaseSeed + index * SeedStride else BaseSeed
  }

  /// In harmony mode every track of a valid request gets its own waveform
  /// seed, and no two of them agree modulo the generator's modulus, so no two
  /// generators start in the same state.
  lemma HarmonySeedsDistinct(i: nat, j: nat)
    requires i < j < MaxTracks
    ensures WaveformSeed(true, i) % Seeded.Modulus != WaveformSeed(true, j) % Seeded.Modulus
  {
    assert WaveformSeed(true, j) < Seeded.Modulus;
    assert WaveformSeed(true, i) < WaveformSeed(true, j);
  }

  /// Digits with no leading zero: the form in which an f-string prints a
  /// natural number.
  predicate Canonical(s: string)
  {
    |s| >= 1 && (forall k :: 0 <= k < |s| ==> '0' <= s[k] <= '9') && (|s| == 1 || s[0] != '0')
  }

  /// The decimal digits of `n`, as an f-string prints it.
  function Decimal(n: nat): (s: string)
    ensures |s| >= 1 && forall k :: 0 <= k < |s| ==> '0' <= s[k] <= '9'
    ensures n > 0 ==> s[0] != '0'
    ensures n == 0 ==> s == "0"
  {
    if n < 10 then [('0' as int + n) as char] else Decimal(n / 10) + [('0' as int + n % 10) as char]
  }

  function DecimalValue(s: string): int
  {
    if s == [] then 0 else DecimalValue(s[..|s| - 1]) * 10 + (s[|s| - 1] as int - '0' as int)
  }

  /// Reading the digits back gives the number.
  lemma {:induction false} DecimalRoundTrip(n: nat)
    ensures DecimalValue(Decimal(n)) == n
  {
    if n >= 10 {
      DecimalRoundTrip(n / 10);
      var s := Decimal(n);
      assert s[..|s| - 1] == Decimal(n / 10);
    }
  }

  /// Canonical digits are the decimal form of their own value: no other
  /// digit string reads back to the same number.
  lemma {:induction false} CanonicalDecimal(s: string)
    requires Canonical(s)
    ensures DecimalValue(s) >= 0
    ensures Decimal(DecimalValue(s)) == s
  {
    if |s| > 1 {
      var init := s[..|s| - 1];
      var d := s[|s| - 1] as int - '0' as int;
      assert Canonical(init);
      LeadingDigitValue(init);
      CanonicalDecimal(init);
      var v := DecimalValue(s);
      assert v == DecimalValue(init) * 10 + d && 0 <= d < 10;
      LastDigit(DecimalValue(init), d);
      assert Decimal(v) == Decimal(v / 10) + [('0' as int + v % 10) as char];
    }
  }

  /// Appending digit `d` to the digits of `q` and dropping it again.
  lemma LastDigit(q: int, d: int)
    requires q >= 1 && 0 <= d < 10
    ensures (q * 10 + d) / 10 == q && (q * 10 + d) % 10 == d && q * 10 + d >= 10
  {
  }

  /// Digits that do not start with '0' read back to a positive number.
  lemma {:induction false} LeadingDigitValue(s: string)
    requires |s| >= 1 && forall k :: 0 <= k < |s| ==> '0' <= s[k] <= '9'
    requires s[0] != '0'
    ensures DecimalValue(s) >= 1
  {
    if |s| > 1 {
      LeadingDigitValue(s[..|s| - 1]);
    } else {
      assert s[..0] == [];
    }
  }

  /// `request.title or default_title`.
  function Title(title: Option<string>, harmonyMode: bool, enabled: seq<SingingObject>): (s: string)
    requires |enabled| > 0
    ensures title.Some? && title.value != "" ==> s == title.value
    ensures (title.None? || title.value == "") && !harmonyMode ==> s == enabled[0].name
    ensures (title.None? || title.value == "") && harmonyMode ==>
              |s| >= 20 && s[..11] == "Harmony of " && s[|s| - 8..] == " Objects" &&
              Canonical(s[11..|s| - 8]) && DecimalValue(s[11..|s| - 8]) == |enabled|
  {
    if title.Some? && title.value != "" then title.value
    else if harmonyMode then
      var digits := Decimal(|enabled|);
      var s := "Harmony of " + digits + " Objects";
      DecimalRoundTrip(|enabled|);
      assert s[11..|s| - 8] == digits;
      s
    else enabled[0].name
  }

  /// The track metadata for object `index` of the enabled list: the object's
  /// own fields and the waveform drawn from seed `42 + 137 * index` in
  /// harmony mode, 42 otherwise.
  function TrackOf(obj: SingingObject, harmonyMode: bool, index: nat, wobble: nat -> real): (t: SongTrack)
    ensures t.objectId == obj.id && t.displayName == obj.name && t.volume == obj.volume
    ensures t.genre == obj.genre && t.vocalRange == obj.vocalRange && t.enabled == obj.enabled
    ensures t.waveform == Waveform.Waveform(256, if harmonyMode then 42 + 137 * index else 42, wobble).value
    ensures |t.waveform| == WaveformLength
  {
    SongTrack(obj.id, obj.name, obj.genre, obj.vocalRange, obj.enabled, obj.volume,
              Waveform.Waveform(WaveformLength, WaveformSeed(harmonyMode, index), wobble).value)
  }

  predicate Synthesises(obj: SingingObject)
  {
    SynthFailure(ToDict(obj), DefaultDuration, SampleRate).None?
  }

  predicate AllSynthesise(enabled: seq<SingingObject>)
  {
    forall k :: 0 <= k < |enabled| ==> Synthesises(enabled[k])
  }

  /// The first exception `synth_track` raises for the enabled objects, in order.
  function FirstFailure(enabled: seq<SingingObject>): Option<Cause>
  {
    if enabled == [] then None
    else
      var earlier := FirstFailure(enabled[..|enabled| - 1]);
      if earlier.Some? then earlier
      else SynthFailure(ToDict(enabled[|enabled| - 1]), DefaultDuration, SampleRate)
  }

  /// Nothing fails exactly when every object synthesises.
  lemma {:induction false} FirstFailureNone(enabled: seq<SingingObject>)
    ensures FirstFailure(enabled).None? <==> AllSynthesise(enabled)
  {
    if enabled != [] {
      var init := enabled[..|enabled| - 1];
      FirstFailureNone(init);
      assert forall k :: 0 <= k < |init| ==> init[k] == enabled[k];
    }
  }

  /// A failure among the first `i` objects is the first failure of all of them.
  lemma {:induction false} FirstFailurePrefix(enabled: seq<SingingObject>, i: nat)
    requires i <= |enabled| && FirstFailure(enabled[..i]).Some?
    ensures FirstFailure(enabled) == FirstFailure(enabled[..i])
  {
    if i == |enabled| {
      assert enabled[..i] == enabled;
    } else {
      var init := enabled[..|enabled| - 1];
      assert init[..i] == enabled[..i];
      FirstFailurePrefix(init, i);
    }
  }

  /// The audio of each enabled object's track.
  function Tracks(enabled: seq<SingingObject>, draws: Seeded.Draws, tone: Oscillator): (ts: seq<seq<real>>)
    requires AllSynthesise(enabled)
    ensures |ts| == |enabled|
  {
    seq(|enabled|, k requires 0 <= k < |enabled| => Track(ToDict(enabled[k]), DefaultDuration, SampleRate, draws, tone))
  }

  /// The track records, one per enabled object, in order.
  function SongTracks(enabled: seq<SingingObject>, harmonyMode: bool, wobble: nat -> real): (ts: seq<SongTrack>)
    ensures |ts| == |enabled|
  {
    seq(|enabled|, k requires 0 <= k < |enabled| => TrackOf(enabled[k], harmonyMode, k, wobble))
  }

  /// What `compose_song(request)` answers, leaving out the random key and
  /// tempo, the time-stamped id and the WAV encoding.
  function Composed(request: ComposeRequest, draws: Seeded.Draws, tone: Oscillator, wobble: nat -> real): (r: Result<Song>)
    ensures r.Ok? ==> |r.value.tracks| == |Enabled(request.objects)| <= MaxTracks
  {
    Respond(request.harmonyMode, request.title, Enabled(request.objects), draws, tone, wobble)
  }

  /// The answer as a function of the enabled objects alone.
  function Respond(harmonyMode: bool, title: Option<string>, enabled: seq<SingingObject>,
                   draws: Seeded.Draws, tone: Oscillator, wobble: nat -> real): (r: Result<Song>)
    ensures r.Ok? ==> 1 <= |r.value.tracks| == |enabled| <= MaxTracks
    ensures Rejection(enabled).Some? ==> r == Err(Rejection(enabled).value)
  {
    if Rejection(enabled).Some? then Err(Rejection(enabled).value)
    else Produced(harmonyMode, title, enabled, draws, tone, wobble)
  }

  /// The answer for a valid number of enabled objects.
  function Produced(harmonyMode: bool, title: Option<string>, enabled: seq<SingingObject>,
                    draws: Seeded.Draws, tone: Oscillator, wobble: nat -> real): (r: Result<Song>)
    requires 1 <= |enabled| <= MaxTracks
    ensures r.Ok? ==> |r.value.tracks| == |enabled| && r.value.harmonyMode == harmonyMode
    ensures FirstFailure(enabled).Some? ==> r == Err(Raised(FirstFailure(enabled).value))
  {
    if FirstFailure(enabled).Some? then Err(Raised(FirstFailure(enabled).value))
    else
      FirstFailureNone(enabled);
      var mixed := Mixer.Mixed(Tracks(enabled, draws, tone));
      if mixed.Err? then Err(mixed.error)
      else Ok(Song(Title(title, harmonyMode, enabled), harmonyMode, mixed.value, SongTracks(enabled, harmonyMode, wobble)))
  }

  /// Every track of the 8-second default lasts 352800 samples, so mixing
  /// them never fails.
  lemma MixSucceeds(enabled: seq<SingingObject>, draws: Seeded.Draws, tone: Oscillator)
    requires |enabled| > 0 && AllSynthesise(enabled)
    ensures Mixer.Mixed(Tracks(enabled, draws, tone)).Ok?
    ensures |Mixer.Mixed(Tracks(enabled, draws, tone)).value| == 352800
  {
    var ts := Tracks(enabled, draws, tone);
    assert SampleCount(DefaultDuration, SampleRate) == 352800;
    assert |ts[0]| == 352800;
    assert forall k :: 0 <= k < |ts| ==> |ts[k]| == 352800;
  }

  /// The four outcomes of a request: two 400 answers on the number of
  /// enabled objects, the first `synth_track` exception, or a song.
  lemma ComposedOutcome(request: ComposeRequest, draws: Seeded.Draws, tone: Oscillator, wobble: nat -> real)
    ensures var r := Composed(request, draws, tone, wobble);
            var enabled := Enabled(request.objects);
            (|enabled| == 0 ==> r == Err(BadRequest("At least one object must be enabled"))) &&
            (|enabled| > MaxTracks ==> r == Err(BadRequest("Too many tracks (max 10)"))) &&
            (1 <= |enabled| <= MaxTracks && FirstFailure(enabled).Some? ==> r == Err(Raised(FirstFailure(enabled).value))) &&
            (r.Ok? <==> 1 <= |enabled| <= MaxTracks && AllSynthesise(enabled))
  {
    var enabled := Enabled(request.objects);
    FirstFailureNone(enabled);
    if 1 <= |enabled| <= MaxTracks && AllSynthesise(enabled) {
      MixSucceeds(enabled, draws, tone);
    }
  }

  /// A song has one track per enabled object, in order, each with its
  /// object's fields, a 256-point waveform and the mix of all the tracks.
  lemma ComposedSong(request: ComposeRequest, draws: Seeded.Draws, tone: Oscillator, wobble: nat -> real)
    requires Composed(request, draws, tone, wobble).Ok?
    ensures var song := Composed(request, draws, tone, wobble).value;
            var enabled := Enabled(request.objects);
            |song.tracks| == |enabled| && |song.mixed| == 352800 &&
            forall k :: 0 <= k < |enabled| ==>
              song.tracks[k].objectId == enabled[k].id &&
              song.tracks[k].displayName == enabled[k].name &&
              song.tracks[k].volume == enabled[k].volume &&
              |song.tracks[k].waveform| == WaveformLength
  {
    ComposedContent(request, draws, tone, wobble);
    MixSucceeds(Enabled(request.objects), draws, tone);
  }

  /// The song's title is `Title`'s, its mix is the mix of the enabled
  /// objects' tracks and its track `k` is `TrackOf` the `k`-th enabled object.
  lemma ComposedContent(request: ComposeRequest, draws: Seeded.Draws, tone: Oscillator, wobble: nat -> real)
    requires Composed(request, draws, tone, wobble).Ok?
    ensures var song := Composed(request, draws, tone, wobble).value;
            var enabled := Enabled(request.objects);
            1 <= |enabled| && AllSynthesise(enabled) && Mixer.Mixed(Tracks(enabled, draws, tone)).Ok? &&
            song.title == Title(request.title, request.harmonyMode, enabled) &&
            song.harmonyMode == request.harmonyMode &&
            song.mixed == Mixer.Mixed(Tracks(enabled, draws, tone)).value &&
            |song.tracks| == |enabled| &&
            forall k :: 0 <= k < |enabled| ==> song.tracks[k] == TrackOf(enabled[k], request.harmonyMode, k, wobble)
  {
    var enabled := Enabled(request.objects);
    FirstFailureNone(enabled);
    MixSucceeds(enabled, draws, tone);
    var mixed := Mixer.Mixed(Tracks(enabled, draws, tone)).value;
    var tracks := SongTracks(enabled, request.harmonyMode, wobble);
    assert Composed(request, draws, tone, wobble)
        == Ok(Song(Title(request.title, request.harmonyMode, enabled), request.harmonyMode, mixed, tracks));
  }

  /// Inserting a disabled object between two lists leaves the filtered list as it was.
  lemma EnabledSkips(before: seq<SingingObject>, obj: SingingObject, after: seq<SingingObject>)
    requires !obj.enabled
    ensures Enabled(before + [obj] + after) == Enabled(before + after)
  {
    assert Enabled([obj]) == [] by {
      assert [obj][..0] == [];
    }
    EnabledAppend(before + [obj], after);
    EnabledAppend(before, [obj]);
    EnabledAppend(before, after);
  }

  /// Adding a disabled object anywhere changes nothing in the answer.
  lemma DisabledIgnored(request: ComposeRequest, i: nat, obj: SingingObject, draws: Seeded.Draws, tone: Oscillator, wobble: nat -> real)
    requires i <= |request.objects| && !obj.enabled
    ensures Composed(request.(objects := request.objects[..i] + [obj] + request.objects[i..]), draws, tone, wobble)
         == Composed(request, draws, tone, wobble)
  {
    assert request.objects[..i] + request.objects[i..] == request.objects;
    EnabledSkips(request.objects[..i], obj, request.objects[i..]);
  }

  /// `compose_song(request)`.
  method ComposeSong(request: ComposeRequest, draws: Seeded.Draws, tone: Oscillator, wobble: nat -> real) returns (r: Result<Song>)
    ensures r == Composed(request, draws, tone, wobble)
  {
    var enabledObjects := Enabled(request.objects);
    if |enabledObjects| == 0 {
      return Err(BadRequest("At least one object must be enabled"));
    }
    if |enabledObjects| > MaxTracks {
      return Err(BadRequest("Too many tracks (max 10)"));
    }
    r := ProduceSong(request.harmonyMode, request.title, enabledObjects, draws, tone, wobble);
  }

  /// The loop over the enabled objects, the mix and the title.
  method ProduceSong(harmonyMode: bool, title: Option<string>, enabledObjects: seq<SingingObject>,
                     draws: Seeded.Draws, tone: Oscillator, wobble: nat -> real) returns (r: Result<Song>)
    requires 1 <= |enabledObjects| <= MaxTracks
    ensures r == Produced(harmonyMode, title, enabledObjects, draws, tone, wobble)
  {
    var audioTracks: seq<seq<real>> := [];
    var songTracks: seq<SongTrack> := [];
    for index := 0 to |enabledObjects|
      invariant AllSynthesise(enabledObjects[..index])
      invariant audioTracks == Tracks(enabledObjects[..index], draws, tone)
      invariant songTracks == SongTracks(enabledObjects[..index], harmonyMode, wobble)
    {
      var obj := enabledObjects[index];
      var trackAudio := SynthTrack(ToDict(obj), DefaultDuration, SampleRate, draws, tone);
      if trackAudio.Err? {
        FailureFound(enabledObjects, index);
        return Err(trackAudio.error);
      }
      var seed := if harmonyMode then BaseSeed + index * SeedStride else BaseSeed;
      var waveform := MakeWaveform(WaveformLength, seed, wobble);
      var track := SongTrack(obj.id, obj.name, obj.genre, obj.vocalRange, obj.enabled, obj.volume, waveform.value);
      TracksStep(enabledObjects, index, harmonyMode, draws, tone, wobble);
      audioTracks := audioTracks + [trackAudio.value];
      songTracks := songTracks + [track];
    }
    assert enabledObjects[..|enabledObjects|] == enabledObjects;
    r := FinishSong(harmonyMode, title, enabledObjects, audioTracks, songTracks, draws, tone, wobble);
  }

  /// The mix and the title once every enabled object has a track.
  method FinishSong(harmonyMode: bool, title: Option<string>, enabledObjects: seq<SingingObject>,
                    audioTracks: seq<seq<real>>, songTracks: seq<SongTrack>,
                    draws: Seeded.Draws, tone: Oscillator, wobble: nat -> real) returns (r: Result<Song>)
    requires 1 <= |enabledObjects| <= MaxTracks && AllSynthesise(enabledObjects)
    requires audioTracks == Tracks(enabledObjects, draws, tone)
    requires songTracks == SongTracks(enabledObjects, harmonyMode, wobble)
    ensures r == Produced(harmonyMode, title, enabledObjects, draws, tone, wobble)
  {
    FirstFailureNone(enabledObjects);
    var mixedAudio := Mixer.MixTracks(audioTracks);
    if mixedAudio.Err? {
      return Err(mixedAudio.error);
    }
    var defaultTitle := if harmonyMode then "Harmony of " + Decimal(|enabledObjects|) + " Objects"
                        else enabledObjects[0].name;
    var songTitle := if title.Some? && title.value != "" then title.value else defaultTitle;
    assert songTitle == Title(title, harmonyMode, enabledObjects);
    return Ok(Song(songTitle, harmonyMode, mixedAudio.value, songTracks));
  }

  /// One more object that synthesises extends both track lists by its own.
  lemma TracksStep(enabled: seq<SingingObject>, index: nat, harmonyMode: bool,
                   draws: Seeded.Draws, tone: Oscillator, wobble: nat -> real)
    requires index < |enabled|
    requires AllSynthesise(enabled[..index]) && Synthesises(enabled[index])
    ensures AllSynthesise(enabled[..index + 1])
    ensures Tracks(enabled[..index + 1], draws, tone)
         == Tracks(enabled[..index], draws, tone) + [Track(ToDict(enabled[index]), DefaultDuration, SampleRate, draws, tone)]
    ensures SongTracks(enabled[..index + 1], harmonyMode, wobble)
         == SongTracks(enabled[..index], harmonyMode, wobble) + [TrackOf(enabled[index], harmonyMode, index, wobble)]
  {
    var p := enabled[..index + 1];
    assert forall k :: 0 <= k < index ==> p[k] == enabled[..index][k];
    assert p[index] == enabled[index];
  }

  /// The objects before `index` synthesised and object `index` did not: it
  /// raises the first failure.
  lemma FailureFound(enabled: seq<SingingObject>, index: nat)
    requires index < |enabled|
    requires AllSynthesise(enabled[..index])
    requires SynthFailure(ToDict(enabled[index]), DefaultDuration, SampleRate).Some?
    ensures FirstFailure(enabled) == SynthFailure(ToDict(enabled[index]), DefaultDuration, SampleRate)
  {
    var p := enabled[..index + 1];
    assert p[..index] == enabled[..index];
    FirstFailureNone(enabled[..index]);
    FirstFailurePrefix(enabled, index + 1);
  }
}
