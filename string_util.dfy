/** `remove_whitespace(s)`: `re.sub("[ \n\t]+", " ", s)`, every maximal run
    of spaces, newlines and tabs becomes one space. Other whitespace, such as
    '\r', is not part of the character class and is kept. */
module StringUtil {

  /** The character class `[ \n\t]`. */
  predicate IsBlank(c: char) { c == ' ' || c == '\n' || c == '\t' }

  /** `s` without its leading run of blanks. */
  function DropBlanks(s: string): (r: string)
    ensures |r| <= |s| && r == s[|s| - |r|..]
    ensures r != [] ==> !IsBlank(r[0])
    ensures forall i :: 0 <= i < |s| - |r| ==> IsBlank(s[i])
  {
    if s != [] && IsBlank(s[0]) then DropBlanks(s[1..]) else s
  }

  function RemoveWhitespace(s: string): (r: string)
    ensures |r| <= |s|
    decreases |s|
  {
    if s == [] then []
    else if IsBlank(s[0]) then " " + RemoveWhitespace(DropBlanks(s))
    else [s[0]] + RemoveWhitespace(s[1..])
  }

  /** The characters outside the class, in order. */
  function Visible(s: string): string {
    if s == [] then [] else (if IsBlank(s[0]) then [] else [s[0]]) + Visible(s[1..])
  }

  /** No newline, no tab, and no two adjacent spaces: a string the
      substitution leaves as it is. */
  predicate Collapsed(s: string) {
    && (forall i :: 0 <= i < |s| ==> s[i] != '\n' && s[i] != '\t')
    && (forall i :: 0 <= i < |s| - 1 ==> !(s[i] == ' ' && s[i + 1] == ' '))
  }

  lemma {:induction false} FirstCharacter(s: string)
    ensures s == [] <==> RemoveWhitespace(s) == []
    ensures s != [] && !IsBlank(s[0]) ==> RemoveWhitespace(s)[0] == s[0]
    ensures s != [] && IsBlank(s[0]) ==> RemoveWhitespace(s)[0] == ' '
  {
  }

  /** The output contains no '\n' or '\t' and never two adjacent spaces. */
  lemma {:induction false} OutputIsCollapsed(s: string)
    ensures Collapsed(RemoveWhitespace(s))
    decreases |s|
  {
    var r := RemoveWhitespace(s);
    if s == [] {
    } else if IsBlank(s[0]) {
      var t := DropBlanks(s);
      OutputIsCollapsed(t);
      FirstCharacter(t);
      assert r == " " + RemoveWhitespace(t);
    } else {
      OutputIsCollapsed(s[1..]);
      assert r == [s[0]] + RemoveWhitespace(s[1..]);
    }
  }

  lemma {:induction false} VisibleOfBlankRun(s: string)
    ensures Visible(DropBlanks(s)) == Visible(s)
    decreases |s|
  {
    if s != [] && IsBlank(s[0]) {
      VisibleOfBlankRun(s[1..]);
    }
  }

  /** Deleting the three blank characters from input and output gives the
      same string: every other character, '\r' included, is kept in order. */
  lemma {:induction false} VisibleKept(s: string)
    ensures Visible(RemoveWhitespace(s)) == Visible(s)
    decreases |s|
  {
    if s == [] {
    } else if IsBlank(s[0]) {
      var t := DropBlanks(s);
      VisibleKept(t);
      VisibleOfBlankRun(s);
      assert (" " + RemoveWhitespace(t))[1..] == RemoveWhitespace(t);
    } else {
      VisibleKept(s[1..]);
      assert ([s[0]] + RemoveWhitespace(s[1..]))[1..] == RemoveWhitespace(s[1..]);
    }
  }

  lemma {:induction false} VisibleMembership(s: string, c: char)
    requires !IsBlank(c)
    ensures c in Visible(s) <==> c in s
    decreases |s|
  {
    if s != [] {
      VisibleMembership(s[1..], c);
      assert s == [s[0]] + s[1..];
    }
  }

  /** A character outside the class (for instance '\r') occurs in the
      output exactly when it occurs in the input. */
  lemma OtherWhitespaceUntouched(s: string, c: char)
    requires !IsBlank(c)
    ensures c in RemoveWhitespace(s) <==> c in s
  {
    VisibleKept(s);
    VisibleMembership(s, c);
    VisibleMembership(RemoveWhitespace(s), c);
  }

  /** The substitution changes a string exactly when the string is not
      collapsed already. */
  lemma {:induction false} FixedPoints(s: string)
    ensures RemoveWhitespace(s) == s <==> Collapsed(s)
    decreases |s|
  {
    if Collapsed(s) {
      CollapsedUnchanged(s);
    }
    OutputIsCollapsed(s);
  }

  lemma CollapsedTail(s: string)
    requires s != [] && Collapsed(s)
    ensures Collapsed(s[1..])
  {
    assert forall i :: 0 <= i < |s| - 1 ==> s[1..][i] == s[i + 1];
  }

  lemma CollapsedRunIsOneSpace(s: string)
    requires s != [] && Collapsed(s) && IsBlank(s[0])
    ensures s[0] == ' ' && DropBlanks(s) == s[1..]
  {
    assert |s| > 1 ==> !IsBlank(s[1]);
  }

  lemma {:induction false} CollapsedUnchanged(s: string)
    requires Collapsed(s)
    ensures RemoveWhitespace(s) == s
    decreases |s|
  {
    if s != [] {
      var rest := s[1..];
      CollapsedTail(s);
      CollapsedUnchanged(rest);
      assert s == [s[0]] + rest;
      if IsBlank(s[0]) {
        CollapsedRunIsOneSpace(s);
        assert RemoveWhitespace(s) == " " + RemoveWhitespace(rest);
      } else {
        assert RemoveWhitespace(s) == [s[0]] + RemoveWhitespace(rest);
      }
    }
  }

  /** `remove_whitespace(remove_whitespace(s)) == remove_whitespace(s)` */
  lemma Idempotent(s: string)
    ensures RemoveWhitespace(RemoveWhitespace(s)) == RemoveWhitespace(s)
  {
    OutputIsCollapsed(s);
    CollapsedUnchanged(RemoveWhitespace(s));
  }

  /** A string with none of the three characters is returned unchanged. */
  lemma NoBlanksUnchanged(s: string)
    requires forall i :: 0 <= i < |s| ==> !IsBlank(s[i])
    ensures RemoveWhitespace(s) == s
  {
    CollapsedUnchanged(s);
  }
}
