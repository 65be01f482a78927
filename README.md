# Singing Object Studio audio service — a Dafny model

This project models the deterministic core of the service in
`pyservice/main.py`. The service turns "singing objects" into audio in two ways:

- `/compose` synthesises one track per enabled object, mixes the tracks and
  returns a song with one waveform summary per track;
- `/compose_singing` turns lyrics into phonemes, draws a melody, places one
  tone per sounding phoneme and normalises the result.

The model covers the integer and index arithmetic of both paths:

- the seeded generator `pseudo_random`;
- the note tiling of `synth_track` and its in-place `+=`;
- the padding, summing and peak normalisation of `mix_tracks`;
- the point list of `make_waveform`;
- `text_to_phonemes`, `generate_melody` and the phoneme placement loop;
- the request checks of both endpoints.

Every exception the code can raise on these paths is an explicit error:

- `Failure.BadRequest` is a 400 answer with its detail string;
- `Failure.Raised` is an exception that the handler turns into a 500 answer.

Modules, one file each:

| module | file | models |
|---|---|---|
| `Outcome` | outcome.dfy | result, option and failure types, the HTTP status of a failure |
| `RealMath` | realmath.dfy | `int()` truncation, `max(lo, min(hi, x))`, `abs`, `min` |
| `Seeded` | seeded.dfy | `pseudo_random`: the step function, the stream it yields, and the `Generator` class whose `seed` field the closure updates; numpy's seeded `RandomState` seen from outside (`Draws`) |
| `Buffers` | buffers.dfy | numpy buffers: a block of samples added at an offset (`audio[a:b] += x`) and scaling (`audio *= v`), as array methods and as functions on sequences |
| `Synth` | synth.dfy | `synth_track` |
| `Mixer` | mixer.dfy | `mix_tracks` and the int16 cast of `wav_data_url` |
| `Waveform` | waveform.dfy | `make_waveform` |
| `Lyrics` | lyrics.dfy | `text_to_phonemes`, with `str.strip`, `str.split` and `str.isspace` |
| `Melodies` | melody.dfy | `generate_melody` and the `root_notes` lookup |
| `Singing` | singing.dfy | `compose_singing`: validation, phoneme placement, normalisation |
| `Compose` | compose.dfy | `compose_song`: filtering, validation, the track loop, seeds, mixing, title |

The functions say what each operation answers. Each method does what the
source does, step by step, and its `ensures` ties its result (or its new array
contents) to the matching function. The lemmas prove what the source promises
about those functions.

Python floats are modelled as exact reals. Three kinds of value are left as
parameters:

- the oscillator sample values are a function from a note description and a
  sample index to a real (`tone`, `voice`);
- numpy's `RandomState` is a deterministic choice of a scale index from a seed
  and a draw number (`Draws`);
- `math.sin(i / 12)` in `make_waveform` is a function of `i` (`wobble`).

Three points of main.py the model keeps as they are written:

- normalisation always rescales a non-silent mix to peak 0.8, whatever its
  peak (pyservice/main.py:169-171);
- the int16 conversion is a numpy cast of `x * 32767`, which truncates toward
  zero and neither rounds nor clamps (pyservice/main.py:188);
- `compose_song` always synthesises 8 seconds, so it has no duration to
  reject, while `compose_singing` rejects durations outside `[1, 60]`.

## Model

| member | source | states |
|---|---|---|
| Outcome.Status | pyservice/main.py:316-326 | a request error answers 400; any other exception answers 500 |
| RealMath.Trunc | pyservice/main.py:61 | `int(x)` rounds toward zero: the result is at most `x` and more than `x - 1` for `x >= 0`, and mirrored for negative `x` |
| RealMath.Clamp | pyservice/main.py:212 | the result lies in `[lo, hi]`; it is `x` itself when `x` is already inside, and the nearer bound otherwise |
| Seeded.Step | pyservice/main.py:44 | the next seed always lies in `[0, 233280)` |
| Seeded.Draw | pyservice/main.py:44-45 | every drawn value lies in `[0, 1)` |
| Seeded.SeedAfter | pyservice/main.py:43-44 | after one step or more the seed lies in `[0, 233280)` |
| Seeded.Stream | pyservice/main.py:40-46 | the first `n` values of a generator: `n` of them, each in `[0, 1)` |
| Seeded.SeedAfterAdd | pyservice/main.py:43-44 | stepping `n + m` times is stepping `n` times and then `m` times |
| Seeded.StreamSplit | pyservice/main.py:40-46 | the stream of `n + m` values is the first `n` values followed by the stream of a generator started from the seed reached after `n` steps |
| Seeded.SeedAfterResidue | pyservice/main.py:44 | after at least one step, seeds that agree modulo 233280 are in the same state |
| Seeded.StreamResidue | pyservice/main.py:40-46 | seeds that agree modulo 233280 yield identical streams; equal seeds give identical sequences |
| Seeded.Generator.constructor | pyservice/main.py:40 | a new generator holds the given seed |
| Seeded.Generator.Next | pyservice/main.py:42-45 | one call sets `seed := (seed * 9301 + 49297) % 233280`, leaves it in `[0, 233280)`, and returns `seed / 233280`, which lies in `[0, 1)` |
| Seeded.Take | pyservice/main.py:40-46 | calling a generator `n` times returns exactly `Stream(seed, n)` and leaves its seed at `SeedAfter(seed, n)` |
| Buffers.Zeros | pyservice/main.py:82 | `np.zeros(n)` has `n` samples, all 0 |
| Buffers.AddInto | pyservice/main.py:133 | `audio[start:end] += piece` on a sequence keeps the buffer's length |
| Buffers.Lay | pyservice/main.py:133 | adding a list of blocks in order keeps the buffer's length |
| Buffers.Scaled | pyservice/main.py:137 | `audio *= volume` on a sequence keeps its length |
| Buffers.LayCovered | pyservice/main.py:133 | when blocks fit the buffer and do not overlap, a sample inside block `j` is the old sample plus block `j`'s value there |
| Buffers.LayUncovered | pyservice/main.py:133 | a sample that no block covers keeps its old value |
| Buffers.ScaledAt | pyservice/main.py:137 | scaling multiplies every sample by the factor |
| Buffers.AddInPlace | pyservice/main.py:133 | `audio[start:end] += piece` on an array: the new contents add the block at its offset and leave every other sample unchanged |
| Buffers.ScaleInPlace | pyservice/main.py:137 | `audio *= volume` on an array: every sample is multiplied by the volume |
| Synth.BaseFreq | pyservice/main.py:64-70 | a missing vocal range means 'alto' (262 Hz); a known range maps to its table entry; an unknown one falls back to 262 |
| Synth.SynthFailure | pyservice/main.py:74-82 | `synth_track` raises nothing exactly when the id seed is below `2**32` and the buffer length is not negative; a seed of `2**32` or more raises `RandomState`'s error, and any other failure is the negative-length error of `np.zeros` |
| Synth.DefaultIdSeed | pyservice/main.py:73 | an object without an id is seeded from 'default', which is 741 |
| Synth.CharCodeSumAppend | pyservice/main.py:73 | the id seed of a concatenation is the sum of the parts' seeds |
| Synth.NotesPlayed | pyservice/main.py:78-84 | the number of notes is `floor(duration / 0.5)`: that many half-second notes fit the duration and one more does not; a duration below half a second plays none |
| Synth.NoteStartIsFloor | pyservice/main.py:85 | the integer first sample of note `k` equals the source's formula `int(k * 0.5 * sr)` evaluated exactly |
| Synth.NoteStartMonotone | pyservice/main.py:85 | later notes never start earlier |
| Synth.NotesWithinBuffer | pyservice/main.py:61-85 | every note played starts inside the `int(duration * sr)`-sample buffer, the last one included |
| Synth.NoteTiling | pyservice/main.py:84-90 | note `k` covers `[start(k), end(k))`, it ends exactly where note `k + 1` starts, and it ends inside the buffer, so the cut-back to `num_samples` never fires |
| Synth.NoteAt | pyservice/main.py:85-90 | note `k`'s block starts at `int(k * 0.5 * sr)` and ends at `min(int((k + 1) * 0.5 * sr), num_samples)` |
| Synth.Sound | pyservice/main.py:90-91 | a note's audio has exactly `note_samples` samples |
| Synth.Notes | pyservice/main.py:84 | the first `k` notes, one block per note, in order |
| Synth.NotesTile | pyservice/main.py:84-90 | the note blocks fit the buffer and do not overlap, so `+=` never writes out of bounds |
| Synth.NotesStep | pyservice/main.py:133 | laying one more note adds its block on top of the notes before it |
| Synth.Track | pyservice/main.py:61-139 | a synthesised track has exactly `int(duration * sr)` samples |
| Synth.LaidInNote | pyservice/main.py:84-133 | inside note `k`'s segment, the buffer holds that note's audio and nothing else |
| Synth.LaidAfterNotes | pyservice/main.py:82-133 | the samples after the last note stay 0 |
| Synth.TrackInNote | pyservice/main.py:84-137 | inside note `k`'s segment, track sample `i` is that note's tone at offset `i - start(k)`, times the object's volume |
| Synth.TrackAfterNotes | pyservice/main.py:82-137 | every track sample after the last note is 0 |
| Synth.SynthTrack | pyservice/main.py:49-139 | `synth_track` raises when the id seed is too large for `RandomState` or the buffer length is negative; otherwise it returns the track |
| Synth.AddNotes | pyservice/main.py:84-133 | the note loop leaves the buffer holding all the notes laid over silence |
| Synth.AddNote | pyservice/main.py:85-133 | one pass of the note loop adds note `k` at its segment |
| Mixer.MaxLen | pyservice/main.py:156 | `max_length` is at least every track's length and equals one of them |
| Mixer.Padded | pyservice/main.py:160-163 | a padded track has `max_length` samples: its own samples, then zeros |
| Mixer.MixSum | pyservice/main.py:157-166 | each mixed sample is the sum of the tracks' samples at that index, a shorter track adding 0 past its end |
| Mixer.Peak | pyservice/main.py:169 | `max_val` bounds every absolute sample and is reached by one of them |
| Mixer.Mixed | pyservice/main.py:152-173 | an empty list raises "No tracks to mix"; tracks that are all empty raise the error of `.max()` on an empty array; otherwise the mix has `max_length` samples |
| Mixer.MixedAt | pyservice/main.py:157-171 | each sample of a successful mix is the sum at that index, divided by the peak and multiplied by 0.8 when the sum is not silent |
| Mixer.MixedFails | pyservice/main.py:152-169 | the mix fails exactly when there are no tracks, or every track is empty (the maximum of an empty array raises) |
| Mixer.NormalizedPeak | pyservice/main.py:169-171 | a mix that is not silent comes out with peak exactly 0.8 |
| Mixer.NormalizedAt | pyservice/main.py:171 | each normalised magnitude is the old magnitude over the peak, times 0.8 |
| Mixer.NormalizeSilent | pyservice/main.py:170 | an all-zero mix is returned unchanged |
| Mixer.NormalizeBound | pyservice/main.py:168-171 | every normalised sample lies in `[-0.8, 0.8]` |
| Mixer.Normalize | pyservice/main.py:168-171 | normalisation keeps the mix's length |
| Mixer.MixTracks | pyservice/main.py:142-173 | `mix_tracks` returns exactly the mix described above, or raises where it does |
| Mixer.Pcm16 | pyservice/main.py:188 | the cast keeps the sign: a non-negative sample gives a non-negative integer and a non-positive sample a non-positive one |
| Mixer.Pcm16InRange | pyservice/main.py:188 | a sample in `[-0.8, 0.8]` becomes an int16 value in `[-26213, 26213]` |
| Mixer.MixedFitsPcm16 | pyservice/main.py:188 | every sample of a successful mix converts to int16 without overflow |
| Waveform.Waveform | pyservice/main.py:202-215 | a single point divides by zero; a length below 1 gives no points; otherwise there are exactly `length` points, every `v` in `[-1, 1]` |
| Waveform.Point | pyservice/main.py:208-213 | point `i` has time `i / (length - 1)` and a level in `[-1, 1]` |
| Waveform.Time | pyservice/main.py:208 | the time of a point is never negative, and at most 1 for a point of the waveform |
| Waveform.WaveformTimes | pyservice/main.py:208 | `t` starts at 0, ends at 1 and rises strictly |
| Waveform.ClampInactive | pyservice/main.py:211-212 | when the wobble factor is a sine value, the clamp never changes `v` |
| Waveform.RawLevelBound | pyservice/main.py:211 | the raw level lies in `[-1, 1]` when the wobble factor lies in `[-1, 1]` |
| Waveform.WaveformResidue | pyservice/main.py:204 | seeds that agree modulo 233280 draw the same waveform |
| Waveform.MakeWaveform | pyservice/main.py:202-215 | `make_waveform` returns the points described above, drawing one generator value per point |
| Lyrics.StripLeft | pyservice/main.py:354 | `lstrip` removes a blank prefix and leaves a suffix that is empty or starts with a non-space |
| Lyrics.StripRight | pyservice/main.py:354 | `rstrip` removes a blank suffix and leaves a prefix that is empty or ends with a non-space |
| Lyrics.Strip | pyservice/main.py:354 | `strip()` leaves a slice `s[i..j]` of the string whose rims `s[..i]` and `s[j..]` are blank, and that slice is empty or starts and ends with a non-space |
| Lyrics.StripEmpty | pyservice/main.py:345 | `len(lyrics.strip()) == 0` exactly when the lyrics are all whitespace |
| Lyrics.Word | pyservice/main.py:354 | a word is the longest space-free prefix |
| Lyrics.WordsCover | pyservice/main.py:354 | `split()` yields non-empty, space-free words that together hold exactly the non-space characters, in order |
| Lyrics.WordsAtSpace | pyservice/main.py:354 | the words are maximal runs: a whitespace character splits the words on its left from those on its right |
| Lyrics.WordsOfRun | pyservice/main.py:354 | a non-empty run without whitespace is a single word |
| Lyrics.Upper | pyservice/main.py:360 | `upper()` on ASCII: lower-case letters move to upper case, everything else is kept, and letters stay letters |
| Lyrics.SyllableMs | pyservice/main.py:355-356 | a syllable lasts a positive number of milliseconds |
| Lyrics.Classify | pyservice/main.py:360-372 | a character yields an entry exactly when it is a letter; a vowel, in either case, yields its upper-case self for 0.7 syllable, any other letter yields 'C' for 0.15 syllable |
| Lyrics.Phonemes | pyservice/main.py:352-356 | `text_to_phonemes` with tempo 0 divides by zero; otherwise it returns the entries of the stripped, split text |
| Lyrics.LetterPhonemesCount | pyservice/main.py:359-372 | a word yields one entry per letter, and every one of them sounds |
| Lyrics.PhonemesCount | pyservice/main.py:358-378 | there are as many entries as letters plus words, and exactly the letters' entries sound (one silent pause per word) |
| Lyrics.PhonemesNonNegative | pyservice/main.py:355-378 | with a positive tempo no duration is negative |
| Lyrics.TextToPhonemes | pyservice/main.py:352-380 | the method returns exactly what `text_to_phonemes` returns or raises |
| Lyrics.AppendWords | pyservice/main.py:358-378 | the word loop appends each word's entries and then one pause |
| Lyrics.AppendLetters | pyservice/main.py:359-372 | the character loop appends exactly the word's letter entries |
| Melodies.Scale | pyservice/main.py:384-388 | 'minor' gives the minor scale and every other name the major one; both have 8 steps of at most 12 semitones |
| Melodies.RootNote | pyservice/main.py:409-415 | a known preset gives its root, an unknown one 60; every root lies in `[50, 67]` |
| Melodies.EighthDuration | pyservice/main.py:389-390 | an eighth note lasts a positive time |
| Melodies.TotalNotes | pyservice/main.py:389-391 | `int(seconds / eighth)` is never negative for a non-negative duration |
| Melodies.NoteOf | pyservice/main.py:397-404 | note `i` is the root plus one of the scale's steps, and lasts one eighth |
| Melodies.Melody | pyservice/main.py:383-406 | tempo 0 divides by zero; otherwise there are `int(seconds / eighth)` notes, or none when that is negative |
| Melodies.MelodyNotes | pyservice/main.py:396-404 | note `i` lies in `[root, root + 12]`, starts at `i * eighth` and lasts one eighth |
| Melodies.MelodyEmpty | pyservice/main.py:391 | the melody is empty exactly when `seconds * bpm < 30` |
| Melodies.GenerateMelody | pyservice/main.py:383-406 | the method returns exactly what `generate_melody` returns or raises |
| Singing.Cursor | pyservice/main.py:425-455 | the time cursor is never negative when no phoneme has a negative duration |
| Singing.CursorMonotone | pyservice/main.py:455 | the cursor never moves back |
| Singing.SampleAt | pyservice/main.py:432-433 | `int(t * SAMPLE_RATE)` is the largest whole number of samples not past `t` |
| Singing.SampleAtMonotone | pyservice/main.py:432-433 | a later time never maps to an earlier sample |
| Singing.Write | pyservice/main.py:427-437 | phoneme `k` writes exactly when it sounds and its start sample lies inside the buffer; the block starts at `int(cursor * 44100)` and ends at `min(int(next cursor * 44100), num_samples)` |
| Singing.Tone | pyservice/main.py:437-453 | a tone has exactly `samples` samples |
| Singing.Writes | pyservice/main.py:427-437 | the first `k` phonemes write at most one block each |
| Singing.WritesTile | pyservice/main.py:432-436 | the written blocks fit the buffer, do not overlap, and end no later than the cursor's sample |
| Singing.Sung | pyservice/main.py:423-455 | placement divides by zero exactly when the melody is empty and some phoneme sounds; otherwise the buffer has `num_samples` samples |
| Singing.SungInWrite | pyservice/main.py:453 | inside a written block the buffer holds exactly that phoneme's tone |
| Singing.SungAfterCursor | pyservice/main.py:423-455 | every sample after the final cursor stays 0 |
| Singing.PlacePhonemes | pyservice/main.py:423-455 | the placement loop returns exactly the buffer described above, or raises where it does |
| Singing.PlaceOne | pyservice/main.py:428-455 | one sounding phoneme adds its block and advances the cursor by its duration |
| Singing.Rejection | pyservice/main.py:345-349 | "Lyrics cannot be empty" exactly for blank lyrics; non-blank lyrics with `seconds` outside 1..60 get "Duration must be between 1 and 60 seconds"; the request passes exactly when the lyrics are not blank and `1 <= seconds <= 60` |
| Singing.Singing | pyservice/main.py:341-460 | a rejected request answers its 400; an accepted one has `int(seconds * 44100)` samples |
| Singing.Accepted | pyservice/main.py:351-460 | after validation a tempo of 0 raises division by zero, and an answer has `int(seconds * 44100)` samples |
| Singing.Answer | pyservice/main.py:422-460 | the normalised audio has `int(seconds * 44100)` samples |
| Singing.SingingFails | pyservice/main.py:419-428 | a valid request with a positive tempo fails exactly when `seconds * bpm < 30` and the lyrics hold a letter, by dividing by zero |
| Singing.SingingAnswer | pyservice/main.py:415-474 | a successful answer comes from a valid request with a positive tempo; its audio is the tones of the lyrics' phonemes on the drawn melody over `int(seconds * 44100)` samples, normalised; it echoes the request's duration, bpm, scale and preset |
| Singing.AnswerFitsPcm16 | pyservice/main.py:458-463 | every sample of a successful answer converts to int16 without overflow |
| Singing.ComposeSinging | pyservice/main.py:341-474 | the method answers exactly what `compose_singing` answers |
| Singing.Compose | pyservice/main.py:415-419 | after validation: phonemes, melody, then synthesis |
| Singing.Synthesize | pyservice/main.py:422-460 | the placement and normalisation steps |
| Compose.Enabled | pyservice/main.py:248 | the filter never lengthens the list |
| Compose.EnabledAppend | pyservice/main.py:248 | the filter keeps input order: filtering a concatenation filters each part |
| Compose.EnabledMembers | pyservice/main.py:248 | an object is kept exactly when it is in the request and enabled |
| Compose.EnabledSkips | pyservice/main.py:248 | inserting a disabled object leaves the filtered list unchanged |
| Compose.DisabledIgnored | pyservice/main.py:248-314 | inserting a disabled object anywhere leaves the whole answer unchanged |
| Compose.Rejection | pyservice/main.py:250-257 | no enabled object answers "At least one object must be enabled", more than 10 answer "Too many tracks (max 10)", and 1 to 10 pass |
| Compose.WaveformSeed | pyservice/main.py:272 | track `index` gets seed `42 + 137 * index` in harmony mode and 42 otherwise |
| Compose.HarmonySeedsDistinct | pyservice/main.py:272 | in harmony mode the tracks of a valid request get seeds that differ even modulo 233280 |
| Compose.Decimal | pyservice/main.py:299 | the count is written with one or more decimal digits, with no leading zero unless it is 0 |
| Compose.DecimalRoundTrip | pyservice/main.py:299 | reading those digits back gives the count |
| Compose.CanonicalDecimal | pyservice/main.py:299 | digits with no leading zero are the decimal form of their own value, so only one digit string names each count |
| Compose.Title | pyservice/main.py:298-306 | a non-empty request title wins; otherwise "Harmony of N Objects" in harmony mode, with N digits without a leading zero whose value is the number of enabled objects, else the first enabled object's name |
| Compose.TrackOf | pyservice/main.py:272-284 | a track record carries its object's id, name, genre, vocal range, enabled flag and volume, and the 256-point waveform drawn from seed `42 + 137 * index` in harmony mode, 42 otherwise |
| Compose.Tracks | pyservice/main.py:263-269 | one audio track per enabled object |
| Compose.SongTracks | pyservice/main.py:263-285 | one track record per enabled object |
| Compose.FirstFailureNone | pyservice/main.py:263-268 | no `synth_track` call raises exactly when every enabled object synthesises |
| Compose.FirstFailurePrefix | pyservice/main.py:263-268 | the first exception among the first `i` objects is the one the loop raises |
| Compose.MixSucceeds | pyservice/main.py:268-288 | every 8-second track has 352800 samples, so mixing them never fails |
| Compose.Composed | pyservice/main.py:246-314 | a song has one track per enabled object, and at most 10 |
| Compose.Respond | pyservice/main.py:250-314 | the two 400 answers on the enabled count come first; a song has 1 to 10 tracks, one per enabled object |
| Compose.Produced | pyservice/main.py:259-312 | the first `synth_track` exception is raised; a song has one track per enabled object and echoes the harmony flag |
| Compose.ComposedOutcome | pyservice/main.py:246-288 | the answer is one of the two 400s by enabled count, the first `synth_track` exception, or a song, and a song exactly when 1 to 10 objects are enabled and all synthesise |
| Compose.ComposedSong | pyservice/main.py:263-288 | a song has one track per enabled object, in order, with that object's id, name and volume and a 256-point waveform, and a 352800-sample mix |
| Compose.ComposedContent | pyservice/main.py:263-288 | a song's title is `Title`'s for the enabled objects, its harmony flag is the request's, its mix is the mix of the enabled objects' tracks, and its track `k` is `TrackOf` the `k`-th enabled object at index `k` |
| Compose.ComposeSong | pyservice/main.py:237-314 | the method answers exactly what `compose_song` answers |
| Compose.ProduceSong | pyservice/main.py:259-285 | the track loop answers what `compose_song` answers for a valid number of enabled objects |
| Compose.FinishSong | pyservice/main.py:287-312 | the mix and the title, once every enabled object has a track |

Some definitions carry no contract of their own. The rows above state their properties:

- `Synth.CharCodeSum` and `Synth.IdSeed` (pyservice/main.py:73): `Synth.DefaultIdSeed` and `Synth.CharCodeSumAppend`;
- `Lyrics.Words` (pyservice/main.py:354): `Lyrics.WordsCover`, `Lyrics.WordsAtSpace` and `Lyrics.WordsOfRun`;
- `Lyrics.LetterPhonemes` and `Lyrics.PhonemesOf` (pyservice/main.py:358-378): `Lyrics.LetterPhonemesCount`, `Lyrics.PhonemesCount` and `Lyrics.PhonemesNonNegative`;
- `Waveform.RawLevel` (pyservice/main.py:211): `Waveform.RawLevelBound`;
- `Compose.FirstFailure` (pyservice/main.py:263-268): `Compose.FirstFailureNone` and `Compose.FirstFailurePrefix`;
- `Compose.Synthesises` and `Compose.AllSynthesise` (pyservice/main.py:263-268): `Compose.FirstFailureNone` and `Compose.ComposedOutcome`;
- `Compose.ToDict` (pyservice/main.py:265): `Compose.Tracks` and `Compose.MixSucceeds`;
- `Synth.SampleCount` (pyservice/main.py:61): `Synth.Track`, `Synth.NotesWithinBuffer` and `Synth.TrackAfterNotes`;
- `Synth.NoteStart` and `Synth.NoteEnd` (pyservice/main.py:85-88): `Synth.NoteStartIsFloor`, `Synth.NoteStartMonotone`, `Synth.NoteTiling` and `Synth.NoteAt`;
- `Synth.Volume` (pyservice/main.py:136): `Synth.TrackInNote`;
- `Synth.NoteSpecOf` and `Synth.MoodLevel` (pyservice/main.py:94-127, with the mood lookups at 115-118): `Synth.Sound` and `Synth.TrackInNote`. These only gather the oscillator's inputs, and the oscillator is a parameter;
- `Lyrics.IsSpace` (`str.isspace`, which `strip` and `split` use at pyservice/main.py:354): `Lyrics.StripLeft`, `Lyrics.StripRight`, `Lyrics.StripEmpty`, `Lyrics.Word`, `Lyrics.WordsCover`, `Lyrics.WordsAtSpace` and `Lyrics.WordsOfRun`;
- `Lyrics.IsLetter` and `Lyrics.IsVowel` (pyservice/main.py:361, 367): `Lyrics.Upper` and `Lyrics.Classify`;
- `Lyrics.Pause` (pyservice/main.py:374-378): `Lyrics.PhonemesCount`;
- `Lyrics.CountSounding` (the entries that pass the test at pyservice/main.py:427): `Lyrics.PhonemesCount`, `Singing.Sung` and `Singing.SingingFails`;
- `Mixer.At` and `Mixer.SumAt` (pyservice/main.py:160-166): `Mixer.Padded`, `Mixer.MixSum` and `Mixer.MixedAt`.

## Left out

- The oscillator sample values of `synth_track` (sine and triangle mix, envelope, tremolo, energy, sustain; pyservice/main.py:91-130) and of the singing tone (pyservice/main.py:438-453). They are floating-point numerics, so they are a parameter. The model tracks where each block goes and how long it is.
- numpy's `RandomState` (a Mersenne Twister in a foreign library) is a deterministic choice of a scale index from the seed and the draw number. What the model keeps is that it raises for a seed of `2**32` or more.
- `math.sin(i / 12)` in `make_waveform` is a parameter `wobble`.
- `wav_data_url`: the WAV header and the base64 data URL are library calls. Only the int16 cast of line 188 is modelled (`Mixer.Pcm16`), as a truncation toward zero.
- Service plumbing is not modelled: the FastAPI app, CORS, the `/` and `/health` endpoints, `time.time()` song ids, and the random key and tempo of a song (`random.choice`, `random.randint`).
- The logging in the `except` blocks of both handlers (`print` and `traceback.print_exc()`) is output only and is not modelled.
- The 500 answers carry the exception's text as their detail. The model keeps only which exception was raised (`Outcome.Cause`).
- The `models` module is not part of this model. Its records are datatypes holding the fields main.py reads: `Compose.SingingObject`, `Compose.ComposeRequest`, `Compose.SongTrack`, `Compose.Song`, `Singing.SingingInput` and `Singing.SingingData`.
- As written, importing main.py raises `NameError`. The annotation `request: SingingInput` on `compose_singing` (pyservice/main.py:330) is evaluated when the function is defined. There is no `from __future__ import annotations`, and the module-level import at pyservice/main.py:17 does not bring in `SingingInput`; that name is imported only inside the function body (pyservice/main.py:342). So neither endpoint is served as the file stands. The model describes both handlers as if the module had loaded, with the request record reaching `compose_singing`.
- Python floats are exact reals. Rounding error, infinities and NaN are not modelled.
- `str.upper`, `str.isalpha` and the vowel test are modelled for ASCII letters only. Whitespace is Python's full `str.isspace` set. For a non-ASCII letter the model yields no entry, while Python yields a 'C', or a vowel when its upper case is one (`'ı'.upper() == 'I'`). So for lyrics with such letters, `Lyrics.PhonemesCount` undercounts Python's entries, and the letter condition of `Singing.SingingFails` counts ASCII letters only.
- The tempo `bpm` is a natural number. A negative tempo would give negative durations and negative slice indices, which are not modelled.
- Singing.PlacePhonemes: requires non-negative phoneme durations. This always holds for the entries `text_to_phonemes` builds with a positive tempo (`Lyrics.PhonemesNonNegative`).
- Compose.Enabled: its contract states only the length. Order and membership are stated by `Compose.EnabledAppend` and `Compose.EnabledMembers`.
- Mixing is stated for the track lengths `compose_song` produces. Tracks of different lengths are covered by `Mixer.MixSum` and `Mixer.MixTracks`.
