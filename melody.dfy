/// `generate_melody` inside `compose_singing`, with the scale and root-note
/// lookups it is called with. The note frequency `440 * 2 ** ((midi - 69) / 12)`
/// is a function of the MIDI number alone, so a note keeps its MIDI number.
module Melodies {
  import opened Outcome
  import opened RealMath
  import Seeded

  datatype MelodyNote = MelodyNote(midi: int, start: real, duration: real)

  const Scales: map<string, seq<nat>> := map[
    "major" := [0, 2, 4, 5, 7, 9, 11, 12],
    "minor" := [0, 2, 3, 5, 7, 8, 10, 12]]

  const RootNotes: map<string, int> := map[
    "soprano-airy" := 67,
    "alto-soft" := 60,
    "tenor-bright" := 55,
    "baritone-warm" := 50]
  const DefaultRoot := 60

  /// The seed of the generator `generate_melody` creates on every call.
  const MelodySeed: nat := 42

  /// `scales.get(scale_type, scales['major'])`.
  function Scale(scaleType: string): (s: seq<nat>)
    ensures scaleType == "minor" ==> s == Scales["minor"]
    ensures scaleType != "minor" ==> s == Scales["major"]
    ensures |s| == 8 && forall i :: 0 <= i < 8 ==> s[i] <= 12
  {
    if scaleType in Scales then Scales[scaleType] else Scales["major"]
  }

  /// `root_notes.get(preset, 60)`.
  function RootNote(preset: string): (root: int)
    ensures preset in RootNotes ==> root == RootNotes[preset]
    ensures preset !in RootNotes ==> root == DefaultRoot
    ensures 50 <= root <= 67
  {
    if preset in RootNotes then RootNotes[preset] else DefaultRoot
  }

  /// `(60 / bpm) / 2`: seconds per eighth note.
  function EighthDuration(bpm: nat): (seconds: real)
    requires bpm > 0
    ensures seconds > 0.0
  {
    (60.0 / bpm as real) / 2.0
  }

  /// `int(seconds / eighth_duration)`.
  function TotalNotes(bpm: nat, seconds: real): (count: int)
    requires bpm > 0
    ensures seconds >= 0.0 ==> count >= 0
  {
    Trunc(seconds / EighthDuration(bpm))
  }

  /// Note `i`: the `i`-th draw picks the scale step above the root, and the
  /// note starts `i` eighths in.
  function NoteOf(scale: seq<nat>, root: int, eighth: real, draws: Seeded.Draws, i: nat): (note: MelodyNote)
    requires |scale| == 8
    ensures note.midi - root in scale
    ensures note.duration == eighth
  {
    MelodyNote(root + scale[draws(MelodySeed, i)], i as real * eighth, eighth)
  }

  /// What `generate_melody(bpm, seconds, scale_type, root_note)` returns or
  /// raises; `draws` stands for `np.random.RandomState(42)`.
  function Melody(bpm: nat, seconds: real, scaleType: string, root: int, draws: Seeded.Draws): (r: Result<seq<MelodyNote>>)
    ensures r.Err? <==> bpm == 0
    ensures r.Err? ==> r.error == Raised(DivisionByZero)
    ensures r.Ok? ==> |r.value| == (if TotalNotes(bpm, seconds) < 0 then 0 else TotalNotes(bpm, seconds))
  {
    if bpm == 0 then Err(Raised(DivisionByZero))
    else
      var total := TotalNotes(bpm, seconds);
      var count := if total < 0 then 0 else total;
      Ok(seq(count, i requires 0 <= i < count => NoteOf(Scale(scaleType), root, EighthDuration(bpm), draws, i)))
  }

  /// Every note lies between the root and the octave above it, starts `i`
  /// eighths in and lasts one eighth.
  lemma MelodyNotes(bpm: nat, seconds: real, scaleType: string, root: int, draws: Seeded.Draws)
    requires bpm > 0
    ensures var m := Melody(bpm, seconds, scaleType, root, draws).value;
            forall i :: 0 <= i < |m| ==>
              root <= m[i].midi <= root + 12 &&
              m[i].start == i as real * EighthDuration(bpm) &&
              m[i].duration == EighthDuration(bpm)
  {
    var m := Melody(bpm, seconds, scaleType, root, draws).value;
    forall i | 0 <= i < |m|
      ensures root <= m[i].midi <= root + 12
    {
      assert m[i] == NoteOf(Scale(scaleType), root, EighthDuration(bpm), draws, i);
    }
  }

  /// The melody is empty exactly when `seconds * bpm < 30`: less than one
  /// eighth note fits.
  lemma MelodyEmpty(bpm: nat, seconds: real, scaleType: string, root: int, draws: Seeded.Draws)
    requires bpm > 0
    ensures Melody(bpm, seconds, scaleType, root, draws).value == [] <==> seconds * bpm as real < 30.0
  {
    var x := seconds * bpm as real;
    EighthsInSeconds(bpm as real, seconds);
    assert TotalNotes(bpm, seconds) == Trunc(x / 30.0);
    assert x / 30.0 >= 1.0 <==> x >= 30.0;
  }

  lemma EighthsInSeconds(b: real, seconds: real)
    requires b >= 1.0
    ensures seconds / ((60.0 / b) / 2.0) == seconds * b / 30.0
  {
    assert (60.0 / b) / 2.0 == 30.0 / b;
    assert seconds / (30.0 / b) == seconds * b / 30.0;
  }

  /// `generate_melody(bpm, seconds, scale_type, root_note)`.
  method GenerateMelody(bpm: nat, seconds: real, scaleType: string, root: int, draws: Seeded.Draws)
    returns (r: Result<seq<MelodyNote>>)
    ensures r == Melody(bpm, seconds, scaleType, root, draws)
  {
    var scale := Scale(scaleType);
    if bpm == 0 {
      return Err(Raised(DivisionByZero));
    }
    var eighthDuration := EighthDuration(bpm);
    var totalNotes := TotalNotes(bpm, seconds);
    ghost var count := if totalNotes < 0 then 0 else totalNotes;
    var notes: seq<MelodyNote> := [];
    var i := 0;
    while i < totalNotes
      invariant 0 <= i <= count
      invariant |notes| == i
      invariant forall k :: 0 <= k < i ==> notes[k] == NoteOf(scale, root, eighthDuration, draws, k)
    {
      var semitones := scale[draws(MelodySeed, i)];
      var midiNote := root + semitones;
      notes := notes + [MelodyNote(midiNote, i as real * eighthDuration, eighthDuration)];
      i := i + 1;
    }
    assert i == count;
    assert notes == Melody(bpm, seconds, scaleType, root, draws).value;
    return Ok(notes);
  }
}
