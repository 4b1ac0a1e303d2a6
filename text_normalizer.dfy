/**
 * `TicketPredictor.preprocess_text` (ml_predictions.py:28-42): lower-case the
 * text, delete every character that is neither an ASCII letter nor white
 * space, then collapse white space (`' '.join(text.split())`).
 *
 * The result is a sequence of words made of the letters a-z, separated by
 * single spaces; normalising twice is the same as normalising once.
 */
module TextNormalizer {
  import opened Wrappers
  import opened PyText

  predicate IsLowerLetter(c: char) { 'a' <= c <= 'z' }
  predicate IsUpperLetter(c: char) { 'A' <= c <= 'Z' }

  /** U+212A KELVIN SIGN, which Python lower-cases to the ASCII letter `k`. */
  const Kelvin: char := 0x212A as char
  /** U+0130 LATIN CAPITAL LETTER I WITH DOT ABOVE, which Python lower-cases to `i` + U+0307. */
  const DottedCapitalI: char := 0x0130 as char
  const CombiningDot: char := 0x0307 as char

  /**
   * `c.lower()` as far as it matters before the letter filter: ASCII capitals
   * and the two non-ASCII characters whose lower case contains an ASCII letter.
   * Every other character is kept; if it is not white space the filter then
   * deletes it whatever its lower case is.
   */
  function LowerChar(c: char): (r: string)
    ensures forall i | 0 <= i < |r| :: !IsUpperLetter(r[i])
    ensures forall i | 0 <= i < |r| :: IsSpace(r[i]) <==> IsSpace(c)
  {
    if IsUpperLetter(c) then [(c as int + 32) as char]
    else if c == Kelvin then "k"
    else if c == DottedCapitalI then ['i', CombiningDot]
    else [c]
  }

  /** `text.lower()`. */
  function Lowered(s: string): (r: string)
    ensures forall i | 0 <= i < |r| :: !IsUpperLetter(r[i])
  {
    if s == [] then []
    else
      var h, t := LowerChar(s[0]), Lowered(s[1..]);
      assert forall i | |h| <= i < |h + t| :: (h + t)[i] == t[i - |h|];
      h + t
  }

  /** The characters `re.sub(r'[^a-zA-Z\s]', '', text)` keeps. */
  predicate Kept(c: char) { IsLowerLetter(c) || IsUpperLetter(c) || IsSpace(c) }

  /** `re.sub(r'[^a-zA-Z\s]', '', text)`: deletion, not replacement. */
  function Filtered(s: string): (r: string)
    ensures |r| <= |s|
    ensures forall i | 0 <= i < |r| :: Kept(r[i])
  {
    if s == [] then []
    else if Kept(s[0]) then [s[0]] + Filtered(s[1..])
    else Filtered(s[1..])
  }

  /** Length of the leading run of non-space characters. */
  function WordLength(s: string): (n: nat)
    ensures n <= |s|
    ensures forall i | 0 <= i < n :: !IsSpace(s[i])
    ensures n < |s| ==> IsSpace(s[n])
  {
    if s == [] || IsSpace(s[0]) then 0 else 1 + WordLength(s[1..])
  }

  /** `text.split()`: the maximal runs of non-space characters, in order. */
  function Words(s: string): seq<string>
    decreases |s|
  {
    if s == [] then []
    else if IsSpace(s[0]) then Words(s[1..])
    else
      var n := WordLength(s);
      [s[..n]] + Words(s[n..])
  }

  /** `' '.join(words)`. */
  function JoinWords(ws: seq<string>): string {
    if ws == [] then ""
    else if |ws| == 1 then ws[0]
    else ws[0] + " " + JoinWords(ws[1..])
  }

  /** A word as `split()` returns it: non-empty, without white space. */
  predicate IsWord(w: string) {
    w != [] && forall i | 0 <= i < |w| :: !IsSpace(w[i])
  }

  /**
   * The canonical form: only the letters a-z and spaces, no space at either
   * end and never two spaces in a row.
   */
  predicate Normalized(s: string) {
    && (forall i | 0 <= i < |s| :: IsLowerLetter(s[i]) || s[i] == ' ')
    && (s != [] ==> s[0] != ' ' && s[|s| - 1] != ' ')
    && (forall i | 0 <= i < |s| - 1 :: !(s[i] == ' ' && s[i + 1] == ' '))
  }

  /**
   * `preprocess_text(text)`; `None` stands for Python's `None` and for a pandas
   * NaN, both of which give the empty string.
   */
  function Preprocess(text: Option<string>): (r: string)
    ensures Normalized(r)
    ensures text.None? ==> r == ""
  {
    match text
    case None => ""
    case Some(s) =>
      var f := Filtered(Lowered(s));
      FilteredIsLettersAndSpace(Lowered(s));
      WordsOfLetters(f);
      JoinNormalized(Words(f));
      JoinWords(Words(f))
  }

  /** After lower-casing, the filter leaves only lower-case letters and white space. */
  lemma {:induction false} FilteredIsLettersAndSpace(s: string)
    requires forall i | 0 <= i < |s| :: !IsUpperLetter(s[i])
    ensures forall i | 0 <= i < |Filtered(s)| :: IsLowerLetter(Filtered(s)[i]) || IsSpace(Filtered(s)[i])
  {
    if s != [] {
      FilteredIsLettersAndSpace(s[1..]);
    }
  }

  // ---------------------------------------------------------------------------
  // Lemmas about split and join
  // ---------------------------------------------------------------------------

  /** The words of a string whose characters are lower-case letters or white space consist of lower-case letters. */
  lemma {:induction false} WordsOfLetters(s: string)
    requires forall i | 0 <= i < |s| :: IsLowerLetter(s[i]) || IsSpace(s[i])
    ensures forall k | 0 <= k < |Words(s)| :: IsWord(Words(s)[k])
    ensures forall k, i | 0 <= k < |Words(s)| && 0 <= i < |Words(s)[k]| :: IsLowerLetter(Words(s)[k][i])
    decreases |s|
  {
    if s == [] {
    } else if IsSpace(s[0]) {
      WordsOfLetters(s[1..]);
    } else {
      var n := WordLength(s);
      WordsOfLetters(s[n..]);
      assert Words(s) == [s[..n]] + Words(s[n..]);
    }
  }

  /** Joining words made of lower-case letters gives a normalised string. */
  lemma {:induction false} JoinNormalized(ws: seq<string>)
    requires forall k | 0 <= k < |ws| :: IsWord(ws[k])
    requires forall k, i | 0 <= k < |ws| && 0 <= i < |ws[k]| :: IsLowerLetter(ws[k][i])
    ensures Normalized(JoinWords(ws))
  {
    if |ws| > 1 {
      JoinNormalized(ws[1..]);
      var w, rest := ws[0], JoinWords(ws[1..]);
      var s := w + " " + rest;
      assert rest != [] && IsLowerLetter(rest[0]) by {
        JoinStartsWithWord(ws[1..]);
      }
      forall i | 0 <= i < |s| - 1
        ensures !(s[i] == ' ' && s[i + 1] == ' ')
      {
        if i + 1 < |w| {
          assert s[i] == w[i];
        } else if i + 1 == |w| {
          assert s[i] == w[i];
        } else if i == |w| {
          assert s[i + 1] == rest[0];
        } else {
          assert s[i] == rest[i - |w| - 1] && s[i + 1] == rest[i - |w|];
        }
      }
    }
  }

  /** A non-empty join starts with the first word. */
  lemma JoinStartsWithWord(ws: seq<string>)
    requires ws != [] && IsWord(ws[0])
    ensures JoinWords(ws) != [] && JoinWords(ws)[..|ws[0]|] == ws[0]
  {
  }

  /** The word run of `w + rest` is exactly `w` when `rest` starts with white space. */
  lemma {:induction false} WordLengthOfWord(w: string, rest: string)
    requires forall i | 0 <= i < |w| :: !IsSpace(w[i])
    requires rest == [] || IsSpace(rest[0])
    ensures WordLength(w + rest) == |w|
  {
    if w != [] {
      assert (w + rest)[1..] == w[1..] + rest;
      WordLengthOfWord(w[1..], rest);
    }
  }

  /** `' '.join(ws).split() == ws`: splitting undoes joining. */
  lemma {:induction false} WordsOfJoin(ws: seq<string>)
    requires forall k | 0 <= k < |ws| :: IsWord(ws[k])
    ensures Words(JoinWords(ws)) == ws
  {
    if ws == [] {
    } else if |ws| == 1 {
      WordLengthOfWord(ws[0], []);
      assert ws[0] + [] == ws[0];
      assert ws[0][|ws[0]|..] == [];
    } else {
      var w, rest := ws[0], JoinWords(ws[1..]);
      var s := w + " " + rest;
      assert s == w + (" " + rest);
      WordLengthOfWord(w, " " + rest);
      assert s[..|w|] == w;
      assert s[|w|..] == " " + rest;
      assert (" " + rest)[1..] == rest;
      WordsOfJoin(ws[1..]);
    }
  }

  /** A suffix of a canonical string that starts with a letter is canonical. */
  lemma NormalizedSuffix(s: string, k: nat)
    requires Normalized(s) && k < |s| && s[k] != ' '
    ensures Normalized(s[k..])
  {
    var tail := s[k..];
    forall i | 0 <= i < |tail|
      ensures IsLowerLetter(tail[i]) || tail[i] == ' '
    {
      assert tail[i] == s[k + i];
    }
    forall i | 0 <= i < |tail| - 1
      ensures !(tail[i] == ' ' && tail[i + 1] == ' ')
    {
      assert tail[i] == s[k + i] && tail[i + 1] == s[k + i + 1];
    }
  }

  /** After the first word of a canonical string come one space and a canonical, non-empty rest. */
  lemma NormalizedTail(s: string, n: nat)
    requires Normalized(s) && n == WordLength(s) && n < |s|
    ensures s[n] == ' ' && n + 1 < |s|
    ensures Normalized(s[n + 1..]) && !IsSpace(s[n + 1])
  {
    assert s[n] == ' ' by {
      assert IsSpace(s[n]);
      assert IsLowerLetter(s[n]) || s[n] == ' ';
    }
    assert n + 1 < |s| by {
      assert s[|s| - 1] != ' ';
    }
    assert IsLowerLetter(s[n + 1]) by {
      assert !(s[n] == ' ' && s[n + 1] == ' ');
    }
    NormalizedSuffix(s, n + 1);
  }

  /** Cutting a string around position `n` and gluing it back with a space there. */
  lemma SplitAtSpace(s: string, n: nat)
    requires n < |s| && s[n] == ' '
    ensures s == s[..n] + " " + s[n + 1..]
  {
  }

  /** `split()` of a word, one space and a rest that starts with a word. */
  lemma WordsAfterWord(s: string, n: nat)
    requires s != [] && !IsSpace(s[0]) && n == WordLength(s)
    requires n < |s| && s[n] == ' ' && n + 1 < |s| && !IsSpace(s[n + 1])
    ensures Words(s) == [s[..n]] + Words(s[n + 1..])
    ensures Words(s[n + 1..]) != []
  {
    assert s[n..][1..] == s[n + 1..];
  }

  /** `' '.join(s.split()) == s` for a string already in canonical form. */
  lemma {:induction false} JoinWordsOfNormalized(s: string)
    requires Normalized(s)
    ensures forall k | 0 <= k < |Words(s)| :: IsWord(Words(s)[k])
    ensures JoinWords(Words(s)) == s
    decreases |s|
  {
    WordsOfLetters(s);
    if s != [] {
      var n := WordLength(s);
      if n == |s| {
        assert s[..n] == s && s[n..] == [];
        assert Words(s) == [s];
      } else {
        var tail := s[n + 1..];
        NormalizedTail(s, n);
        SplitAtSpace(s, n);
        WordsAfterWord(s, n);
        JoinWordsOfNormalized(tail);
        var ws := Words(s);
        assert ws[1..] == Words(tail);
      }
    }
  }

  /** The filter keeps text made only of kept characters as it is. */
  lemma {:induction false} FilteredIdentity(s: string)
    requires forall i | 0 <= i < |s| :: Kept(s[i])
    ensures Filtered(s) == s
  {
    if s != [] {
      FilteredIdentity(s[1..]);
    }
  }

  /** Lower-casing and filtering leave a canonical string unchanged. */
  lemma NormalizedUnchangedByFilters(s: string)
    requires forall i | 0 <= i < |s| :: IsLowerLetter(s[i]) || s[i] == ' '
    ensures Filtered(Lowered(s)) == s
  {
    LoweredIdentity(s);
    FilteredIdentity(s);
  }

  /** A canonical string is a fixed point of `preprocess_text`. */
  lemma NormalizedIsFixpoint(s: string)
    requires Normalized(s)
    ensures Preprocess(Some(s)) == s
  {
    NormalizedUnchangedByFilters(s);
    JoinWordsOfNormalized(s);
  }

  /** Applying `preprocess_text` twice is the same as applying it once. */
  lemma PreprocessIdempotent(text: Option<string>)
    ensures Preprocess(Some(Preprocess(text))) == Preprocess(text)
  {
    NormalizedIsFixpoint(Preprocess(text));
  }

  /** Deleting a character merges its neighbours: no space is put in its place. */
  lemma {:induction false} FilterDeletes(a: string, c: char, b: string)
    requires !Kept(c)
    ensures Filtered(a + [c] + b) == Filtered(a) + Filtered(b)
  {
    if a == [] {
      assert [c] + b == a + [c] + b;
      assert ([c] + b)[1..] == b;
    } else {
      assert (a + [c] + b)[1..] == a[1..] + [c] + b;
      FilterDeletes(a[1..], c, b);
    }
  }

  /** Lower-casing leaves text without capitals unchanged. */
  lemma {:induction false} LoweredIdentity(s: string)
    requires forall i | 0 <= i < |s| :: !IsUpperLetter(s[i]) && s[i] != Kelvin && s[i] != DottedCapitalI
    ensures Lowered(s) == s
  {
    if s != [] {
      LoweredIdentity(s[1..]);
    }
  }

  /** Only the letters a-z. */
  predicate AllLower(w: string) {
    forall i | 0 <= i < |w| :: IsLowerLetter(w[i])
  }

  /** A run of lower-case letters passes lower-casing and the filter unchanged. */
  lemma LettersUnchanged(w: string)
    requires AllLower(w)
    ensures Lowered(w) == w && Filtered(w) == w
  {
    LoweredIdentity(w);
    NormalizedUnchangedByFilters(w);
  }

  /** A hyphenated pair of lower-case words has nothing for `lower()` to change. */
  lemma HyphenatedLowered(a: string, b: string)
    requires AllLower(a) && AllLower(b)
    ensures Lowered(a + ['-'] + b) == a + ['-'] + b
  {
    var s := a + ['-'] + b;
    forall i | 0 <= i < |s|
      ensures !IsUpperLetter(s[i]) && s[i] != Kelvin && s[i] != DottedCapitalI
    {
      if i < |a| {
        assert s[i] == a[i];
      } else if i > |a| {
        assert s[i] == b[i - |a| - 1];
      }
    }
    LoweredIdentity(s);
  }

  /** Two lower-case words joined without a space are canonical. */
  lemma ConcatNormalized(a: string, b: string)
    requires AllLower(a) && AllLower(b)
    ensures Normalized(a + b)
  {
    var s := a + b;
    forall i | 0 <= i < |s| ensures IsLowerLetter(s[i]) {
      if i < |a| {
        assert s[i] == a[i];
      } else {
        assert s[i] == b[i - |a|];
      }
    }
  }

  /** Removing the hyphen between two lower-case words merges them into one. */
  lemma HyphenJoins(a: string, b: string)
    requires AllLower(a) && AllLower(b)
    ensures Preprocess(Some(a + ['-'] + b)) == a + b
  {
    HyphenatedLowered(a, b);
    LettersUnchanged(a);
    LettersUnchanged(b);
    FilterDeletes(a, '-', b);
    ConcatNormalized(a, b);
    JoinWordsOfNormalized(a + b);
  }

  /** Example: `"e-mail"` normalises to `"email"`. */
  lemma HyphenMerges()
    ensures Preprocess(Some("e-mail")) == "email"
  {
    var e, mail := "e", "mail";
    assert AllLower(e) && AllLower(mail);
    HyphenJoins(e, mail);
    assert e + ['-'] + mail == "e-mail";
    assert e + mail == "email";
  }

  /** Text with no ASCII letter (digits, punctuation, white space only) normalises to "". */
  lemma {:induction false} NoLettersGivesEmpty(s: string)
    requires forall i | 0 <= i < |s| :: !IsLowerLetter(s[i]) && !IsUpperLetter(s[i]) && s[i] != Kelvin && s[i] != DottedCapitalI
    ensures Preprocess(Some(s)) == ""
  {
    NoLettersFilterToSpace(s);
    SpaceHasNoWords(Filtered(Lowered(s)));
  }

  lemma {:induction false} NoLettersFilterToSpace(s: string)
    requires forall i | 0 <= i < |s| :: !IsLowerLetter(s[i]) && !IsUpperLetter(s[i]) && s[i] != Kelvin && s[i] != DottedCapitalI
    ensures AllSpace(Filtered(Lowered(s)))
  {
    if s != [] {
      NoLettersFilterToSpace(s[1..]);
      assert Lowered(s) == [s[0]] + Lowered(s[1..]);
    }
  }

  lemma {:induction false} SpaceHasNoWords(s: string)
    requires AllSpace(s)
    ensures Words(s) == []
  {
    if s != [] {
      SpaceHasNoWords(s[1..]);
    }
  }

  /** Text that starts with an ASCII letter never normalises to "". */
  lemma LeadingLetterNonEmpty(s: string)
    requires s != [] && (IsLowerLetter(s[0]) || IsUpperLetter(s[0]))
    ensures Preprocess(Some(s)) != ""
  {
    var f := Filtered(Lowered(s));
    assert Lowered(s) == LowerChar(s[0]) + Lowered(s[1..]);
    assert f != [] && !IsSpace(f[0]);
    FilteredIsLettersAndSpace(Lowered(s));
    WordsOfLetters(f);
    assert Words(f) != [];
    JoinStartsWithWord(Words(f));
  }
}
