// ASCII white space and trimming.

module Text {

  predicate IsSpace(c: char) {
    c == ' ' || '\t' <= c <= '\r'
  }

  function TrimLeft(s: string): string {
    if s != [] && IsSpace(s[0]) then TrimLeft(s[1..]) else s
  }

  function TrimRight(s: string): string {
    if s != [] && IsSpace(s[|s| - 1]) then TrimRight(s[..|s| - 1]) else s
  }

  function Trim(s: string): string {
    TrimRight(TrimLeft(s))
  }

  ghost predicate Blank(s: string) {
    forall i | 0 <= i < |s| :: IsSpace(s[i])
  }

  /** Starts and ends in something else than white space. */
  predicate Trimmed(s: string) {
    s != [] && !IsSpace(s[0]) && !IsSpace(s[|s| - 1])
  }

  lemma {:induction false} TrimLeftPadding(left: string, s: string)
    requires Blank(left) && (s == [] || !IsSpace(s[0]))
    ensures TrimLeft(left + s) == s
  {
    if left == [] {
      assert left + s == s;
    } else {
      TrimLeftPadding(left[1..], s);
      assert (left + s)[1..] == left[1..] + s;
    }
  }

  lemma {:induction false} TrimRightPadding(s: string, right: string)
    requires Blank(right) && (s == [] || !IsSpace(s[|s| - 1]))
    ensures TrimRight(s + right) == s
  {
    if right == [] {
      assert s + right == s;
    } else {
      var n := |right| - 1;
      TrimRightPadding(s, right[..n]);
      assert (s + right)[..|s| + n] == s + right[..n];
    }
  }

  lemma TrimPadding(left: string, s: string, right: string)
    requires Blank(left) && Blank(right) && Trimmed(s)
    ensures Trim(left + s + right) == s
  {
    assert left + s + right == left + (s + right);
    TrimLeftPadding(left, s + right);
    TrimRightPadding(s, right);
  }

  lemma TrimBlank(s: string)
    requires Blank(s)
    ensures Trim(s) == []
  {
    TrimLeftPadding(s, []);
    assert s + [] == s;
  }
}
