/// `text_to_phonemes` inside `compose_singing`, and the whitespace handling
/// (`str.strip`, `str.split`) it and the lyrics check rely on.
module Lyrics {
  import opened Outcome

  /// One entry of the phoneme list: `{'grapheme', 'phoneme', 'duration'}`,
  /// the duration in milliseconds. A pause has the empty phoneme.
  datatype Phoneme = Phoneme(grapheme: char, symbol: string, duration: real)

  /// Python's `str.isspace` on one character, which is also what `strip()`
  /// and `split()` without arguments treat as whitespace.
  predicate IsSpace(c: char)
  {
    c == ' ' || '\t' <= c <= '\r' || '\U{1c}' <= c <= '\U{1f}' || c == '\U{85}' || c == '\U{a0}'
    || c == '\U{1680}' || '\U{2000}' <= c <= '\U{200a}' || c == '\U{2028}' || c == '\U{2029}'
    || c == '\U{202f}' || c == '\U{205f}' || c == '\U{3000}'
  }

  predicate IsBlank(s: string)
  {
    forall i :: 0 <= i < |s| ==> IsSpace(s[i])
  }

  /// `s.lstrip()`.
  function StripLeft(s: string): (r: string)
    ensures |r| <= |s| && r == s[|s| - |r|..]
    ensures IsBlank(s[..|s| - |r|])
    ensures r == [] || !IsSpace(r[0])
  {
    if s == [] || !IsSpace(s[0]) then s
    else
      var r := StripLeft(s[1..]);
      SkipSpace(s, r);
      r
  }

  /// One more leading space before `s[1..]`'s stripped suffix is still blank.
  lemma SkipSpace(s: string, r: string)
    requires s != [] && IsSpace(s[0])
    requires |r| < |s| && r == s[1..][|s| - 1 - |r|..] && IsBlank(s[1..][..|s| - 1 - |r|])
    ensures r == s[|s| - |r|..] && IsBlank(s[..|s| - |r|])
  {
    assert s[..|s| - |r|] == [s[0]] + s[1..][..|s| - 1 - |r|];
  }

  /// `s.rstrip()`.
  function StripRight(s: string): (r: string)
    ensures |r| <= |s| && r == s[..|r|]
    ensures IsBlank(s[|r|..])
    ensures r == [] || !IsSpace(r[|r| - 1])
  {
    if s == [] || !IsSpace(s[|s| - 1]) then s
    else
      var r := StripRight(s[..|s| - 1]);
      SkipTrailingSpace(s, r);
      r
  }

  /// One more trailing space after `s[..|s| - 1]`'s stripped prefix is still blank.
  lemma SkipTrailingSpace(s: string, r: string)
    requires s != [] && IsSpace(s[|s| - 1])
    requires |r| < |s| && r == s[..|s| - 1][..|r|] && IsBlank(s[..|s| - 1][|r|..])
    ensures r == s[..|r|] && IsBlank(s[|r|..])
  {
    assert s[|r|..] == s[..|s| - 1][|r|..] + [s[|s| - 1]];
  }

  /// `s.strip()`: the slice of `s` left once the blank rims on both sides
  /// are cut off.
  function Strip(s: string): (r: string)
    ensures r == [] || (!IsSpace(r[0]) && !IsSpace(r[|r| - 1]))
    ensures |r| <= |s|
    ensures exists i :: 0 <= i <= |s| - |r| && r == s[i..i + |r|] && IsBlank(s[..i]) && IsBlank(s[i + |r|..])
  {
    var left := StripLeft(s);
    var r := StripRight(left);
    var i := |s| - |left|;
    assert IsBlank(s[..i]);
    BlankRims(s, i, left, r);
    r
  }

  /// Cutting a blank rim `s[..i]` off the left and then a blank rim off the
  /// right of what is left leaves a slice of `s` with blank rims.
  lemma BlankRims(s: string, i: nat, left: string, r: string)
    requires i <= |s| && left == s[i..] && IsBlank(s[..i])
    requires |r| <= |left| && r == left[..|r|] && IsBlank(left[|r|..])
    ensures exists j :: 0 <= j <= |s| - |r| && r == s[j..j + |r|] && IsBlank(s[..j]) && IsBlank(s[j + |r|..])
  {
    assert left[|r|..] == s[i + |r|..];
    assert r == s[i..i + |r|];
  }

  /// `len(s.strip()) == 0` exactly when `s` is made of whitespace only.
  lemma StripEmpty(s: string)
    ensures Strip(s) == [] <==> IsBlank(s)
  {
    var l := StripLeft(s);
    if Strip(s) == [] {
      assert l[0..] == l;
      assert |l| == 0;
      assert s[..|s|] == s;
    }
  }

  /// The first word of `s`: its leading run of non-whitespace characters.
  function Word(s: string): (w: string)
    ensures |w| <= |s| && w == s[..|w|]
    ensures forall i :: 0 <= i < |w| ==> !IsSpace(w[i])
    ensures |w| == |s| || IsSpace(s[|w|])
  {
    if s == [] || IsSpace(s[0]) then [] else [s[0]] + Word(s[1..])
  }

  /// `s.split()`: the maximal runs of non-whitespace characters, in order.
  function Words(s: string): (ws: seq<string>)
    decreases |s|
  {
    if s == [] then []
    else if IsSpace(s[0]) then Words(s[1..])
    else
      var w := Word(s);
      [w] + Words(s[|w|..])
  }

  /// The characters of `s` other than whitespace, in order.
  function NonSpace(s: string): string
  {
    if s == [] then [] else (if IsSpace(s[0]) then [] else [s[0]]) + NonSpace(s[1..])
  }

  function Concat(ws: seq<string>): string
  {
    if ws == [] then [] else ws[0] + Concat(ws[1..])
  }

  /// Every word is non-empty and free of whitespace, and together the words
  /// hold exactly the non-whitespace characters of `s`, in order.
  lemma {:induction false} WordsCover(s: string)
    ensures forall k :: 0 <= k < |Words(s)| ==> Words(s)[k] != [] && forall i :: 0 <= i < |Words(s)[k]| ==> !IsSpace(Words(s)[k][i])
    ensures Concat(Words(s)) == NonSpace(s)
    decreases |s|
  {
    if s == [] {
    } else if IsSpace(s[0]) {
      WordsCover(s[1..]);
    } else {
      var w := Word(s);
      WordsCover(s[|w|..]);
      WordNonSpace(s);
      assert Words(s) == [w] + Words(s[|w|..]);
      assert Words(s)[1..] == Words(s[|w|..]);
    }
  }

  /// Splitting off the first word leaves the non-whitespace characters split
  /// between it and the rest.
  lemma {:induction false} WordNonSpace(s: string)
    ensures NonSpace(s) == Word(s) + NonSpace(s[|Word(s)|..])
  {
    if s != [] && !IsSpace(s[0]) {
      WordNonSpace(s[1..]);
      assert s[1..][|Word(s[1..])|..] == s[|Word(s)|..];
    }
  }

  /// The words are maximal runs: a whitespace character always separates
  /// the words on its left from those on its right...
  lemma {:induction false} WordsAtSpace(a: string, c: char, b: string)
    requires IsSpace(c)
    ensures Words(a + [c] + b) == Words(a) + Words(b)
    decreases |a|
  {
    if a == [] {
      assert a + [c] + b == [c] + b && ([c] + b)[1..] == b;
    } else if IsSpace(a[0]) {
      SpaceThenRest(a, c, b);
      WordsAtSpace(a[1..], c, b);
    } else {
      WordThenSpace(a, c, b);
      WordsAtSpace(a[|Word(a)|..], c, b);
      assert Words(a) == [Word(a)] + Words(a[|Word(a)|..]);
    }
  }

  /// Leading whitespace contributes no word.
  lemma SpaceThenRest(a: string, c: char, b: string)
    requires a != [] && IsSpace(a[0])
    ensures Words(a + [c] + b) == Words(a[1..] + [c] + b)
  {
    assert (a + [c] + b)[1..] == a[1..] + [c] + b;
  }

  /// A string that starts with a word splits into that word and the words after it.
  lemma WordThenSpace(a: string, c: char, b: string)
    requires IsSpace(c) && a != [] && !IsSpace(a[0])
    ensures Words(a + [c] + b) == [Word(a)] + Words(a[|Word(a)|..] + [c] + b)
  {
    var s := a + [c] + b;
    WordBeforeSpace(a, [c] + b);
    assert s == a + ([c] + b);
    assert s[|Word(a)|..] == a[|Word(a)|..] + [c] + b;
  }

  /// ...and a run with no whitespace in it is a single word.
  lemma WordsOfRun(w: string)
    requires w != [] && forall i :: 0 <= i < |w| ==> !IsSpace(w[i])
    ensures Words(w) == [w]
  {
    assert Word(w) == w;
    assert w[|w|..] == [];
  }

  /// A word ends no later than the whitespace that follows it.
  lemma {:induction false} WordBeforeSpace(a: string, t: string)
    requires t != [] && IsSpace(t[0])
    ensures Word(a + t) == Word(a)
  {
    if a != [] && !IsSpace(a[0]) {
      assert (a + t)[1..] == a[1..] + t;
      WordBeforeSpace(a[1..], t);
    }
  }

  /// An ASCII letter (`str.isalpha` on ASCII).
  predicate IsLetter(c: char)
  {
    'A' <= c <= 'Z' || 'a' <= c <= 'z'
  }

  /// `c.upper()` on ASCII: lower-case letters move up by 32, everything
  /// else is left alone.
  function Upper(c: char): (u: char)
    ensures IsLetter(u) <==> IsLetter(c)
    ensures 'a' <= c <= 'z' ==> u as int == c as int - 32
    ensures !('a' <= c <= 'z') ==> u == c
  {
    if 'a' <= c <= 'z' then (c as int - 32) as char else c
  }

  /// `c.upper() in 'AEIOU'` for an ASCII character.
  predicate IsVowel(c: char)
  {
    c in "AEIOUaeiou"
  }

  /// `(60 / bpm) * 1000 / 2`: the milliseconds of one syllable.
  function SyllableMs(bpm: nat): (ms: real)
    requires bpm > 0
    ensures ms > 0.0
  {
    (60.0 / bpm as real) * 1000.0 / 2.0
  }

  /// The entry one character of a word yields, if any: a vowel keeps its
  /// upper-case self for 0.7 of a syllable, any other letter is a 'C' for
  /// 0.15 of a syllable, and a non-letter yields nothing.
  function Classify(c: char, syllable: real): (r: Option<Phoneme>)
    ensures r.Some? <==> IsLetter(c)
    ensures r.Some? ==> r.value.grapheme == c
    ensures r.Some? && IsVowel(c) ==> r.value.symbol == [Upper(c)] && r.value.duration == syllable * 0.7
    ensures r.Some? && !IsVowel(c) ==> r.value.symbol == "C" && r.value.duration == syllable * 0.15
  {
    var upper := Upper(c);
    if upper in "AEIOU" then Some(Phoneme(c, [upper], syllable * 0.7))
    else if IsLetter(upper) then Some(Phoneme(c, "C", syllable * 0.15))
    else None
  }

  /// The pause appended after each word.
  function Pause(syllable: real): Phoneme
  {
    Phoneme(' ', "", syllable * 0.2)
  }

  /// The entries the characters of `w` yield.
  function LetterPhonemes(w: string, syllable: real): seq<Phoneme>
  {
    if w == [] then []
    else
      var c := Classify(w[|w| - 1], syllable);
      LetterPhonemes(w[..|w| - 1], syllable) + (if c.Some? then [c.value] else [])
  }

  /// The entries of a run of words: each word's letters, then a pause.
  function PhonemesOf(words: seq<string>, syllable: real): seq<Phoneme>
  {
    if words == [] then []
    else PhonemesOf(words[..|words| - 1], syllable) + LetterPhonemes(words[|words| - 1], syllable) + [Pause(syllable)]
  }

  /// What `text_to_phonemes(text, bpm)` returns or raises (`60 / bpm`
  /// divides by zero before any word is looked at).
  function Phonemes(text: string, bpm: nat): (r: Result<seq<Phoneme>>)
    ensures r.Err? <==> bpm == 0
    ensures r.Err? ==> r.error == Raised(DivisionByZero)
  {
    if bpm == 0 then Err(Raised(DivisionByZero))
    else Ok(PhonemesOf(Words(Strip(text)), SyllableMs(bpm)))
  }

  function CountLetters(w: string): nat
  {
    if w == [] then 0 else CountLetters(w[..|w| - 1]) + (if IsLetter(w[|w| - 1]) then 1 else 0)
  }

  function CountLettersIn(words: seq<string>): nat
  {
    if words == [] then 0 else CountLettersIn(words[..|words| - 1]) + CountLetters(words[|words| - 1])
  }

  /// The number of entries with a non-empty phoneme.
  function CountSounding(ps: seq<Phoneme>): nat
  {
    if ps == [] then 0 else CountSounding(ps[..|ps| - 1]) + (if ps[|ps| - 1].symbol != "" then 1 else 0)
  }

  lemma {:induction false} CountSoundingAppend(a: seq<Phoneme>, b: seq<Phoneme>)
    ensures CountSounding(a + b) == CountSounding(a) + CountSounding(b)
  {
    if b != [] {
      assert (a + b)[..|a + b| - 1] == a + b[..|b| - 1];
      CountSoundingAppend(a, b[..|b| - 1]);
    } else {
      assert a + b == a;
    }
  }

  /// Each letter of a word yields one entry, and every one of them sounds.
  lemma {:induction false} LetterPhonemesCount(w: string, syllable: real)
    ensures |LetterPhonemes(w, syllable)| == CountLetters(w)
    ensures CountSounding(LetterPhonemes(w, syllable)) == CountLetters(w)
  {
    if w != [] {
      var c := Classify(w[|w| - 1], syllable);
      LetterPhonemesCount(w[..|w| - 1], syllable);
      CountSoundingAppend(LetterPhonemes(w[..|w| - 1], syllable), if c.Some? then [c.value] else []);
    }
  }

  /// There are as many entries as letters plus words, of which exactly the
  /// one pause per word is silent.
  lemma {:induction false} PhonemesCount(words: seq<string>, syllable: real)
    ensures |PhonemesOf(words, syllable)| == CountLettersIn(words) + |words|
    ensures CountSounding(PhonemesOf(words, syllable)) == CountLettersIn(words)
  {
    if words != [] {
      var init, w := words[..|words| - 1], words[|words| - 1];
      PhonemesCount(init, syllable);
      LetterPhonemesCount(w, syllable);
      CountSoundingAppend(PhonemesOf(init, syllable), LetterPhonemes(w, syllable));
      CountSoundingAppend(PhonemesOf(init, syllable) + LetterPhonemes(w, syllable), [Pause(syllable)]);
    }
  }

  /// No duration is negative when the tempo is positive.
  lemma {:induction false} PhonemesNonNegative(words: seq<string>, syllable: real)
    requires syllable >= 0.0
    ensures forall i :: 0 <= i < |PhonemesOf(words, syllable)| ==> PhonemesOf(words, syllable)[i].duration >= 0.0
  {
    if words != [] {
      PhonemesNonNegative(words[..|words| - 1], syllable);
      LetterPhonemesNonNegative(words[|words| - 1], syllable);
    }
  }

  lemma {:induction false} LetterPhonemesNonNegative(w: string, syllable: real)
    requires syllable >= 0.0
    ensures forall i :: 0 <= i < |LetterPhonemes(w, syllable)| ==> LetterPhonemes(w, syllable)[i].duration >= 0.0
  {
    if w != [] {
      LetterPhonemesNonNegative(w[..|w| - 1], syllable);
    }
  }

  /// `text_to_phonemes(text, bpm)`.
  method TextToPhonemes(text: string, bpm: nat) returns (r: Result<seq<Phoneme>>)
    ensures r == Phonemes(text, bpm)
  {
    var words := Words(Strip(text));
    if bpm == 0 {
      return Err(Raised(DivisionByZero));
    }
    var syllableDuration := SyllableMs(bpm);
    var phonemes := AppendWords(words, syllableDuration);
    return Ok(phonemes);
  }

  /// The outer loop of `text_to_phonemes`: each word's entries, then a pause.
  method AppendWords(words: seq<string>, syllableDuration: real) returns (phonemes: seq<Phoneme>)
    ensures phonemes == PhonemesOf(words, syllableDuration)
  {
    phonemes := [];
    for wi := 0 to |words|
      invariant phonemes == PhonemesOf(words[..wi], syllableDuration)
    {
      PhonemesOfStep(words, wi, syllableDuration);
      phonemes := AppendLetters(phonemes, words[wi], syllableDuration);
      phonemes := phonemes + [Phoneme(' ', "", syllableDuration * 0.2)];
    }
    assert words[..|words|] == words;
  }

  lemma PhonemesOfStep(words: seq<string>, k: nat, syllable: real)
    requires k < |words|
    ensures PhonemesOf(words[..k + 1], syllable)
         == PhonemesOf(words[..k], syllable) + LetterPhonemes(words[k], syllable) + [Pause(syllable)]
  {
    assert words[..k + 1][..k] == words[..k];
  }

  /// The inner loop of `text_to_phonemes`: the entries of one word's
  /// characters, appended to `phonemes`.
  method AppendLetters(phonemes: seq<Phoneme>, word: string, syllableDuration: real) returns (r: seq<Phoneme>)
    ensures r == phonemes + LetterPhonemes(word, syllableDuration)
  {
    r := phonemes;
    for ci := 0 to |word|
      invariant r == phonemes + LetterPhonemes(word[..ci], syllableDuration)
    {
      var ch := word[ci];
      var upper := Upper(ch);
      assert word[..ci + 1][..ci] == word[..ci];
      if upper in "AEIOU" {
        r := r + [Phoneme(ch, [upper], syllableDuration * 0.7)];
      } else if IsLetter(upper) {
        r := r + [Phoneme(ch, "C", syllableDuration * 0.15)];
      }
    }
    assert word[..|word|] == word;
  }
}
