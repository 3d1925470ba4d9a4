/**
 * String helpers standing for the JavaScript string operations the windows use:
 * `toLowerCase` (ASCII letters only), `includes`, `trim`, `split('.').pop()`
 * and the relational operators `<`, `>`, `<=`, `>=` on strings.
 */
module Text {

  /** `toLowerCase` on one character, restricted to the ASCII letters. */
  function LowerChar(c: char): char {
    if 'A' <= c <= 'Z' then (c as int + 32) as char else c
  }

  /** `toLowerCase` on a string, character by character. */
  function Lower(s: string): (r: string)
    ensures |r| == |s|
    ensures forall i :: 0 <= i < |s| ==> r[i] == LowerChar(s[i])
  {
    seq(|s|, i requires 0 <= i < |s| => LowerChar(s[i]))
  }

  predicate StartsWith(s: string, prefix: string) {
    |prefix| <= |s| && s[..|prefix|] == prefix
  }

  /** `s.includes(part)`, checked position by position from the left. */
  predicate Contains(s: string, part: string)
    decreases |s|
  {
    StartsWith(s, part) || (|s| > 0 && Contains(s[1..], part))
  }

  /** `part` occurs in `s` starting at index `i`. */
  predicate OccursAt(s: string, part: string, i: int) {
    0 <= i <= |s| - |part| && s[i..i + |part|] == part
  }

  /** `Contains` holds exactly when `part` occurs at some position of `s`. */
  lemma {:induction false} ContainsAtSomeIndex(s: string, part: string)
    ensures Contains(s, part) <==> exists i :: OccursAt(s, part, i)
    decreases |s|
  {
    if StartsWith(s, part) {
      assert OccursAt(s, part, 0);
    } else if |s| > 0 {
      ContainsAtSomeIndex(s[1..], part);
      if Contains(s[1..], part) {
        var i :| OccursAt(s[1..], part, i);
        assert OccursAt(s, part, i + 1);
      }
      if exists i :: OccursAt(s, part, i) {
        var i :| OccursAt(s, part, i);
        assert i != 0;
        assert OccursAt(s[1..], part, i - 1);
      }
    }
  }

  /** Every string contains the empty string. */
  lemma ContainsEmpty(s: string)
    ensures Contains(s, "")
  {
  }

  /** `s.toLowerCase().includes(part.toLowerCase())`. */
  predicate ContainsIgnoringCase(s: string, part: string) {
    Contains(Lower(s), Lower(part))
  }

  /** The characters JavaScript's `trim` removes. */
  predicate IsWhitespace(c: char) {
    c == ' ' || c == '\t' || c == '\n' || c == '\r' || c == '\U{000B}' || c == '\U{000C}'
    || c == '\U{00A0}' || c == '\U{1680}' || ('\U{2000}' <= c <= '\U{200A}')
    || c == '\U{2028}' || c == '\U{2029}' || c == '\U{202F}' || c == '\U{205F}'
    || c == '\U{3000}' || c == '\U{FEFF}'
  }

  function TrimStart(s: string): string
    decreases |s|
  {
    if |s| > 0 && IsWhitespace(s[0]) then TrimStart(s[1..]) else s
  }

  function TrimEnd(s: string): string
    decreases |s|
  {
    if |s| > 0 && IsWhitespace(s[|s| - 1]) then TrimEnd(s[..|s| - 1]) else s
  }

  /** `s.trim()`: leading and trailing whitespace removed. */
  function Trim(s: string): string {
    TrimEnd(TrimStart(s))
  }

  /** `!s.trim()`: nothing but whitespace (or nothing at all). */
  predicate IsBlank(s: string) {
    Trim(s) == ""
  }

  lemma {:induction false} TrimStartEmpty(s: string)
    ensures TrimStart(s) == "" <==> forall i :: 0 <= i < |s| ==> IsWhitespace(s[i])
    decreases |s|
  {
    if |s| > 0 && IsWhitespace(s[0]) {
      TrimStartEmpty(s[1..]);
      assert forall i :: 1 <= i < |s| ==> s[i] == s[1..][i - 1];
    }
  }

  lemma TrimStartStopsAtText(s: string)
    ensures TrimStart(s) == "" || !IsWhitespace(TrimStart(s)[0])
  {
  }

  lemma {:induction false} TrimEndOfText(s: string)
    requires s == "" || !IsWhitespace(s[0])
    ensures TrimEnd(s) == "" <==> s == ""
    decreases |s|
  {
    if |s| > 1 && IsWhitespace(s[|s| - 1]) {
      TrimEndOfText(s[..|s| - 1]);
    }
  }

  /** A string is blank exactly when every character of it is whitespace. */
  lemma BlankIffAllWhitespace(s: string)
    ensures IsBlank(s) <==> forall i :: 0 <= i < |s| ==> IsWhitespace(s[i])
  {
    TrimStartStopsAtText(s);
    TrimEndOfText(TrimStart(s));
    TrimStartEmpty(s);
  }

  /**
   * `s.split(sep).pop()`: the text after the last `sep`, or all of `s` when
   * it has none.
   */
  function AfterLast(s: string, sep: char): string
    decreases |s|
  {
    if |s| == 0 || s[|s| - 1] == sep then "" else AfterLast(s[..|s| - 1], sep) + [s[|s| - 1]]
  }

  /**
   * `AfterLast` is a suffix of `s` free of `sep`, and it is preceded by `sep`
   * unless it is the whole of `s`.
   */
  lemma {:induction false} AfterLastIsLastSegment(s: string, sep: char)
    ensures var r := AfterLast(s, sep);
      && |r| <= |s|
      && s == s[..|s| - |r|] + r
      && sep !in r
      && (|r| < |s| ==> s[|s| - |r| - 1] == sep)
    decreases |s|
  {
    if |s| > 0 && s[|s| - 1] != sep {
      var init, c := s[..|s| - 1], s[|s| - 1];
      AfterLastIsLastSegment(init, sep);
      var r' := AfterLast(init, sep);
      var k := |init| - |r'|;
      assert AfterLast(s, sep) == r' + [c];
      assert s == init + [c];
      assert s[..k] == init[..k];
      assert s == init[..k] + (r' + [c]);
      assert k > 0 ==> s[k - 1] == init[k - 1];
    }
  }

  /** The segment after a final `sep` is the text written after it. */
  lemma {:induction false} AfterLastOfJoin(prefix: string, sep: char, last: string)
    requires sep !in last
    ensures AfterLast(prefix + [sep] + last, sep) == last
    decreases |last|
  {
    if |last| > 0 {
      var init := last[..|last| - 1];
      assert prefix + [sep] + last == (prefix + [sep] + init) + [last[|last| - 1]];
      assert (prefix + [sep] + last)[..|prefix + [sep] + last| - 1] == prefix + [sep] + init;
      AfterLastOfJoin(prefix, sep, init);
      assert init + [last[|last| - 1]] == last;
    }
  }

  /**
   * JavaScript's `a < b` on strings: the first differing character decides,
   * and a proper prefix comes first.
   */
  predicate LexLess(a: string, b: string)
    decreases |a|
  {
    if |a| == 0 then |b| > 0
    else if |b| == 0 then false
    else if a[0] != b[0] then a[0] < b[0]
    else LexLess(a[1..], b[1..])
  }

  /** JavaScript's `a <= b` on strings, which is `!(b < a)`. */
  predicate LexAtMost(a: string, b: string) {
    !LexLess(b, a)
  }

  /** `<` on strings is irreflexive. */
  lemma {:induction false} LexLessIrreflexive(a: string)
    ensures !LexLess(a, a)
    decreases |a|
  {
    if |a| > 0 {
      LexLessIrreflexive(a[1..]);
    }
  }

  /** Exactly one of `a < b`, `a == b`, `b < a` holds. */
  lemma {:induction false} LexTrichotomy(a: string, b: string)
    ensures LexLess(a, b) || a == b || LexLess(b, a)
    ensures !(LexLess(a, b) && LexLess(b, a))
    ensures a == b ==> !LexLess(a, b)
    decreases |a|
  {
    if |a| > 0 && |b| > 0 && a[0] == b[0] {
      LexTrichotomy(a[1..], b[1..]);
      if a[1..] == b[1..] {
        assert a == [a[0]] + a[1..] && b == [b[0]] + b[1..];
      }
    }
    if a == b {
      LexLessIrreflexive(a);
    }
  }

  /** `a <= b` on strings means equal or strictly before. */
  lemma AtMostIffLessOrEqual(a: string, b: string)
    ensures LexAtMost(a, b) <==> a == b || LexLess(a, b)
  {
    LexTrichotomy(a, b);
  }

  /** `<` on strings is transitive. */
  lemma {:induction false} LexLessTransitive(a: string, b: string, c: string)
    requires LexLess(a, b) && LexLess(b, c)
    ensures LexLess(a, c)
    decreases |a|
  {
    if |a| > 0 && |b| > 0 && |c| > 0 && a[0] == b[0] && b[0] == c[0] {
      LexLessTransitive(a[1..], b[1..], c[1..]);
    }
  }
}
