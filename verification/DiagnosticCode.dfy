// Normalization of provider error codes before they are stored in lastError, on ASCII text: the
// upper-casing of other letters is not modelled.

module DiagnosticCode {
  import opened Text

  const MAX_LENGTH := 64

  predicate IsAlnum(c: char) {
    'A' <= c <= 'Z' || '0' <= c <= '9'
  }

  function Upper(s: string): (u: string)
    ensures |u| == |s|
  {
    if s == [] then []
    else [if 'a' <= s[0] <= 'z' then s[0] - 'a' + 'A' else s[0]] + Upper(s[1..])
  }

  /** Each maximal run of other characters becomes one underscore. */
  function Collapse(s: string): string {
    if s == [] then []
    else if IsAlnum(s[0]) then [s[0]] + Collapse(s[1..])
    else if |s| > 1 && !IsAlnum(s[1]) then Collapse(s[1..])
    else ['_'] + Collapse(s[1..])
  }

  function StripLeft(s: string): string {
    if s != [] && s[0] == '_' then StripLeft(s[1..]) else s
  }

  function StripRight(s: string): string {
    if s != [] && s[|s| - 1] == '_' then StripRight(s[..|s| - 1]) else s
  }

  function Cleaned(value: string): string {
    StripRight(StripLeft(Collapse(Upper(Trim(value)))))
  }

  function SanitizeDiagnosticCode(value: string): string {
    var sanitized := Cleaned(value);
    if |sanitized| == 0 then "UNKNOWN"
    else if |sanitized| <= MAX_LENGTH then sanitized
    else sanitized[..MAX_LENGTH]
  }

  // ---------------------------------------------------------------- the reference: words

  /** The maximal runs of letters and digits. */
  function Words(s: string): (words: seq<string>)
    ensures s != [] && IsAlnum(s[0]) ==> words != []
    ensures forall i | 0 <= i < |words| :: IsWord(words[i])
  {
    if s == [] then []
    else if !IsAlnum(s[0]) then Words(s[1..])
    else
      var rest := Words(s[1..]);
      if |s| > 1 && IsAlnum(s[1]) then [[s[0]] + rest[0]] + rest[1..] else [[s[0]]] + rest
  }

  predicate IsWord(w: string) {
    w != [] && forall i | 0 <= i < |w| :: IsAlnum(w[i])
  }

  function Join(words: seq<string>): string {
    if words == [] then []
    else if |words| == 1 then words[0]
    else words[0] + ['_'] + Join(words[1..])
  }

  /** The collapsed text, from its first word on: the words, and an underscore if the text ends in none. */
  lemma {:induction false} CollapseIsJoin(s: string)
    ensures StripLeft(Collapse(s))
            == Join(Words(s)) + if Words(s) != [] && !IsAlnum(s[|s| - 1]) then ['_'] else []
    ensures s != [] && IsAlnum(s[0]) ==> StripLeft(Collapse(s)) == Collapse(s)
    ensures Words(s) != [] ==> s != []
  {
    if s != [] {
      var rest := s[1..];
      CollapseIsJoin(rest);
      if |s| > 1 { assert rest[|rest| - 1] == s[|s| - 1]; }
      if !IsAlnum(s[0]) {
        if |s| == 1 || IsAlnum(s[1]) {
          assert Collapse(s)[1..] == Collapse(rest);
        }
      } else if |s| > 1 && IsAlnum(s[1]) {
        JoinGrowsFirstWord(s[0], Words(rest));
      } else {
        SeparatorThenWords(s);
      }
    }
  }

  lemma JoinGrowsFirstWord(c: char, words: seq<string>)
    requires words != []
    ensures Join([[c] + words[0]] + words[1..]) == [c] + Join(words)
  {
    var grown := [[c] + words[0]] + words[1..];
    assert grown[1..] == words[1..];
    if |words| > 1 {
      assert ([c] + words[0]) + ['_'] + Join(words[1..]) == [c] + (words[0] + ['_'] + Join(words[1..]));
    }
  }

  /** A word of one letter, followed by nothing or by a separator. */
  lemma SeparatorThenWords(s: string)
    requires s != [] && IsAlnum(s[0]) && (|s| == 1 || !IsAlnum(s[1]))
    requires var rest := s[1..];
      StripLeft(Collapse(rest)) == Join(Words(rest)) + if Words(rest) != [] && !IsAlnum(rest[|rest| - 1]) then ['_'] else []
    ensures Collapse(s) == Join(Words(s)) + if !IsAlnum(s[|s| - 1]) then ['_'] else []
  {
    var rest := s[1..];
    OneLetterWord(s);
    if |s| > 1 {
      var words := Words(rest);
      var tail := if !IsAlnum(rest[|rest| - 1]) then ['_'] else [];
      CollapsedSeparator(rest);
      JoinAfterWord([s[0]], words);
      Regroup([s[0]], Join(words), ['_']);
      if words == [] {
        assert Collapse(s) == [s[0]] + ['_'];
      } else {
        assert Collapse(s) == [s[0]] + (['_'] + (Join(words) + tail));
      }
      assert s[|s| - 1] == rest[|rest| - 1];
    }
  }

  lemma OneLetterWord(s: string)
    requires s != [] && IsAlnum(s[0]) && (|s| == 1 || !IsAlnum(s[1]))
    ensures Words(s) == [[s[0]]] + Words(s[1..])
    ensures Collapse(s) == [s[0]] + Collapse(s[1..])
  {
  }

  lemma Regroup(word: string, words: string, tail: string)
    ensures word + (['_'] + (words + tail)) == (word + ['_'] + words) + tail
    ensures word + (['_'] + words) == word + ['_'] + words
  {
  }

  lemma JoinAfterWord(word: string, words: seq<string>)
    ensures Join([word] + words) == if words == [] then word else word + ['_'] + Join(words)
  {
    assert ([word] + words)[1..] == words;
  }

  /** Text that starts with a separator collapses to one underscore, then to no further one. */
  lemma {:induction false} CollapsedSeparator(s: string)
    requires s != [] && !IsAlnum(s[0])
    ensures Collapse(s) == ['_'] + StripLeft(Collapse(s))
    ensures Words(s) == [] ==> !IsAlnum(s[|s| - 1]) && StripLeft(Collapse(s)) == []
  {
    if |s| > 1 && !IsAlnum(s[1]) {
      CollapsedSeparator(s[1..]);
    } else if |s| > 1 {
      assert Collapse(s) == ['_'] + Collapse(s[1..]);
    } else {
      assert Collapse(s) == ['_'];
    }
  }

  lemma {:induction false} JoinEndsInWord(words: seq<string>)
    requires words != [] && forall i | 0 <= i < |words| :: IsWord(words[i])
    ensures Join(words) != [] && IsAlnum(Join(words)[|Join(words)| - 1]) && IsAlnum(Join(words)[0])
  {
    if |words| > 1 { JoinEndsInWord(words[1..]); }
  }

  // ---------------------------------------------------------------- trimming is absorbed

  lemma {:induction false} WordsOfTrimLeft(s: string)
    ensures Words(Upper(TrimLeft(s))) == Words(Upper(s))
  {
    if s != [] && IsSpace(s[0]) {
      WordsOfTrimLeft(s[1..]);
      assert Upper(s)[1..] == Upper(s[1..]);
    }
  }

  lemma {:induction false} WordsDropLast(s: string)
    requires s != [] && !IsAlnum(s[|s| - 1])
    ensures Words(s[..|s| - 1]) == Words(s)
  {
    if |s| > 1 {
      WordsDropLast(s[1..]);
      assert s[..|s| - 1][1..] == s[1..][..|s| - 2];
    }
  }

  lemma {:induction false} UpperDropLast(s: string)
    requires s != []
    ensures Upper(s[..|s| - 1]) == Upper(s)[..|s| - 1]
    ensures IsSpace(s[|s| - 1]) ==> !IsAlnum(Upper(s)[|s| - 1])
  {
    if |s| > 1 {
      UpperDropLast(s[1..]);
      assert s[..|s| - 1][1..] == s[1..][..|s| - 2];
    }
  }

  lemma {:induction false} WordsOfTrimRight(s: string)
    ensures Words(Upper(TrimRight(s))) == Words(Upper(s))
  {
    if s != [] && IsSpace(s[|s| - 1]) {
      WordsOfTrimRight(s[..|s| - 1]);
      UpperDropLast(s);
      WordsDropLast(Upper(s));
    }
  }

  /** Before it is cut, the code is the words of the upper-cased text, joined by underscores. */
  lemma CleanedIsJoinedWords(value: string)
    ensures Cleaned(value) == Join(Words(Upper(value)))
  {
    var trimmed := Upper(Trim(value));
    WordsOfTrimRight(TrimLeft(value));
    WordsOfTrimLeft(value);
    CollapseIsJoin(trimmed);
    var joined := Join(Words(trimmed));
    assert joined + [] == joined;
    if Words(trimmed) != [] {
      JoinEndsInWord(Words(trimmed));
      StripRightOfCode(joined);
    }
  }

  lemma StripRightOfCode(code: string)
    requires code != [] && IsAlnum(code[|code| - 1])
    ensures StripRight(code) == code && StripRight(code + ['_']) == code
  {
    var longer := code + ['_'];
    assert longer[|longer| - 1] == '_' && longer[..|longer| - 1] == code;
  }

  // ---------------------------------------------------------------- normal form

  predicate CodeChar(c: char) {
    IsAlnum(c) || c == '_'
  }

  /** Letters, digits and single underscores between them, and perhaps one at the end. */
  predicate Tidy(s: string) {
    && s != [] && s[0] != '_'
    && (forall i | 0 <= i < |s| :: CodeChar(s[i]))
    && (forall i | 0 < i < |s| :: s[i - 1] == '_' ==> s[i] != '_')
  }

  function Alnums(s: string): string {
    if s == [] then [] else (if IsAlnum(s[0]) then [s[0]] else []) + Alnums(s[1..])
  }

  lemma {:induction false} JoinIsTidy(words: seq<string>)
    requires words != [] && forall i | 0 <= i < |words| :: IsWord(words[i])
    ensures Tidy(Join(words))
  {
    if |words| > 1 {
      JoinIsTidy(words[1..]);
      var tail := Join(words[1..]);
      var joined := words[0] + ['_'] + tail;
      forall i | 0 < i < |joined| ensures joined[i - 1] == '_' ==> joined[i] != '_' {
        if i > |words[0]| + 1 {
          assert joined[i - 1] == tail[i - 1 - |words[0]| - 1] && joined[i] == tail[i - |words[0]| - 1];
        }
      }
    }
  }

  lemma {:induction false} AlnumsConcat(a: string, b: string)
    ensures Alnums(a + b) == Alnums(a) + Alnums(b)
  {
    if a == [] {
      assert a + b == b;
    } else {
      AlnumsConcat(a[1..], b);
      assert (a + b)[0] == a[0] && (a + b)[1..] == a[1..] + b;
      var first := if IsAlnum(a[0]) then [a[0]] else [];
      assert first + (Alnums(a[1..]) + Alnums(b)) == (first + Alnums(a[1..])) + Alnums(b);
    }
  }

  lemma {:induction false} AlnumsOfWord(w: string)
    requires forall i | 0 <= i < |w| :: IsAlnum(w[i])
    ensures Alnums(w) == w
  {
    if w != [] { AlnumsOfWord(w[1..]); }
  }

  /** Joining the words keeps every letter and digit of the text, in order. */
  lemma {:induction false} AlnumsOfJoin(s: string)
    ensures Alnums(Join(Words(s))) == Alnums(s)
  {
    if s != [] {
      var rest := s[1..];
      AlnumsOfJoin(rest);
      if IsAlnum(s[0]) {
        if |s| > 1 && IsAlnum(s[1]) {
          JoinGrowsFirstWord(s[0], Words(rest));
          AlnumsConcat([s[0]], Join(Words(rest)));
        } else if Words(rest) == [] {
          assert Join(Words(s)) == [s[0]];
        } else {
          assert Words(s)[1..] == Words(rest);
          AlnumsConcat([s[0]] + ['_'], Join(Words(rest)));
          AlnumsConcat([s[0]], ['_']);
        }
        assert Alnums([s[0]]) == [s[0]];
      }
    }
  }

  /**
   * The stored code: 1 to 64 letters, digits and underscores, tidy, whose letters and digits are
   * the first ones of the upper-cased text; UNKNOWN exactly when the text has none, or spells it.
   */
  lemma SanitizedNormalForm(value: string)
    ensures var code := SanitizeDiagnosticCode(value);
      && 1 <= |code| <= MAX_LENGTH && Tidy(code)
      && (Alnums(Upper(value)) != [] ==> Alnums(code) <= Alnums(Upper(value)))
      && (Alnums(Upper(value)) == [] ==> code == "UNKNOWN")
  {
    var words := Words(Upper(value));
    CleanedIsJoinedWords(value);
    AlnumsOfJoin(Upper(value));
    if words != [] {
      JoinIsTidy(words);
      PrefixOfTidy(Join(words), |SanitizeDiagnosticCode(value)|);
    }
  }

  lemma PrefixOfTidy(code: string, n: nat)
    requires Tidy(code) && 1 <= n <= |code|
    ensures Tidy(code[..n]) && Alnums(code[..n]) <= Alnums(code) && Alnums(code) != []
  {
    assert code == code[..n] + code[n..];
    AlnumsConcat(code[..n], code[n..]);
  }

  /**
   * Upper-casing takes the ASCII codes of small letters to those of their capitals and leaves all
   * else; words are then made of the letters, small or capital, and the digits.
   */
  lemma {:induction false} UpperCapitalizes(s: string, i: nat)
    requires i < |s|
    ensures var code := s[i] as int;
      && Upper(s)[i] as int == (if 97 <= code <= 122 then code - 32 else code)
      && (IsAlnum(Upper(s)[i]) <==> 48 <= code <= 57 || 65 <= code <= 90 || 97 <= code <= 122)
  {
    if i > 0 {
      UpperCapitalizes(s[1..], i - 1);
      assert Upper(s)[i] == Upper(s[1..])[i - 1];
    }
  }

  /** The code is the words of the upper-cased text, joined by underscores and cut to 64 characters. */
  lemma SanitizedIsCut(value: string)
    ensures var joined := Join(Words(Upper(value)));
      SanitizeDiagnosticCode(value)
      == if joined == [] then "UNKNOWN" else if |joined| <= 64 then joined else joined[..64]
  {
    CleanedIsJoinedWords(value);
  }

  // ---------------------------------------------------------------- a second application

  lemma {:induction false} CollapseOfTidy(s: string)
    requires forall i | 0 <= i < |s| :: CodeChar(s[i])
    requires forall i | 0 < i < |s| :: s[i - 1] == '_' ==> s[i] != '_'
    ensures Collapse(s) == s
  {
    if s != [] { CollapseOfTidy(s[1..]); }
  }

  lemma {:induction false} UpperOfCode(s: string)
    requires forall i | 0 <= i < |s| :: CodeChar(s[i])
    ensures Upper(s) == s
  {
    if s != [] { UpperOfCode(s[1..]); }
  }

  /** Sanitizing a tidy code removes the underscore it may end in, and nothing else. */
  lemma SanitizeOfTidy(code: string)
    requires Tidy(code) && |code| <= MAX_LENGTH
    ensures SanitizeDiagnosticCode(code) == if code[|code| - 1] == '_' then code[..|code| - 1] else code
  {
    UpperOfCode(code);
    CollapseOfTidy(code);
    CollapseIsJoin(code);
    CleanedIsJoinedWords(code);
    var joined := Join(Words(code));
    if code[|code| - 1] == '_' {
      assert code == joined + ['_'];
      assert |code| > 1;
    } else {
      assert code == joined + [];
    }
  }

  /**
   * A second application changes the code exactly when the cut left an underscore at its end,
   * which it then removes; a third application never changes anything.
   */
  lemma SanitizeTwice(value: string)
    ensures var once := SanitizeDiagnosticCode(value); var twice := SanitizeDiagnosticCode(once);
      && once != []
      && (twice == once <==> once[|once| - 1] != '_')
      && (twice != once ==> twice == once[..|once| - 1] && |once| == MAX_LENGTH)
      && SanitizeDiagnosticCode(twice) == twice
  {
    var once := SanitizeDiagnosticCode(value);
    SanitizedNormalForm(value);
    SanitizeOfTidy(once);
    var twice := SanitizeDiagnosticCode(once);
    assert Tidy(twice);
    SanitizeOfTidy(twice);
    UnderscoreOnlyWhenCut(value);
  }

  lemma UnderscoreOnlyWhenCut(value: string)
    ensures var code := SanitizeDiagnosticCode(value);
      code != [] && (code[|code| - 1] == '_' ==> |code| == MAX_LENGTH)
  {
    CleanedIsJoinedWords(value);
    if Words(Upper(value)) != [] { JoinEndsInWord(Words(Upper(value))); }
  }
}
