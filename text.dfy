/**
 * The handful of Python string operations the services rely on, with the
 * facts about them that the other modules use: `str.lower`, `str.strip`,
 * the substring test `p in s`, `str.replace` (all occurrences), `str.join`,
 * `str.rstrip(c)`, the basename taken by splitting on both path separators,
 * decimal rendering of a natural number and the word count of `str.split()`.
 */
module Text {

  /**
   * The ASCII part of `str.lower` on one character: `A`-`Z` become `a`-`z`
   * and every other character is kept. Python also lower-cases non-ASCII
   * letters, which this model does not.
   */
  function LowerChar(c: char): char {
    if 'A' <= c <= 'Z' then (c as int + 32) as char else c
  }

  function Lower(s: string): string {
    seq(|s|, i requires 0 <= i < |s| => LowerChar(s[i]))
  }

  /** The characters `str.strip()` and `str.split()` treat as white space: those for which `str.isspace` holds. */
  predicate IsSpace(c: char) {
    c == ' ' || c == '\t' || c == '\n' || c == '\r' || c == '\U{000B}' || c == '\U{000C}'
    || c == '\U{001C}' || c == '\U{001D}' || c == '\U{001E}' || c == '\U{001F}'
    || c == '\U{0085}' || c == '\U{00A0}' || c == '\U{1680}'
    || ('\U{2000}' <= c <= '\U{200A}')
    || c == '\U{2028}' || c == '\U{2029}' || c == '\U{202F}' || c == '\U{205F}' || c == '\U{3000}'
  }

  function TrimStart(s: string): string
    decreases |s|
  {
    if |s| > 0 && IsSpace(s[0]) then TrimStart(s[1..]) else s
  }

  function TrimEnd(s: string): string
    decreases |s|
  {
    if |s| > 0 && IsSpace(s[|s| - 1]) then TrimEnd(s[..|s| - 1]) else s
  }

  /** `str.strip()` */
  function Strip(s: string): string {
    TrimEnd(TrimStart(s))
  }

  lemma {:induction false} TrimStartIsSuffix(s: string)
    ensures var t := TrimStart(s);
      |t| <= |s| && t == s[|s| - |t|..]
      && (|t| > 0 ==> !IsSpace(t[0]))
      && (forall i :: 0 <= i < |s| - |t| ==> IsSpace(s[i]))
    decreases |s|
  {
    if |s| > 0 && IsSpace(s[0]) {
      TrimStartIsSuffix(s[1..]);
    }
  }

  lemma {:induction false} TrimEndIsPrefix(s: string)
    ensures var t := TrimEnd(s);
      |t| <= |s| && t == s[..|t|]
      && (|t| > 0 ==> !IsSpace(t[|t| - 1]))
      && (forall i :: |t| <= i < |s| ==> IsSpace(s[i]))
    decreases |s|
  {
    if |s| > 0 && IsSpace(s[|s| - 1]) {
      TrimEndIsPrefix(s[..|s| - 1]);
    }
  }

  /**
   * What `str.strip()` returns: a contiguous piece of `s`, everything cut
   * away on either side is white space, and the piece neither starts nor
   * ends with white space.
   */
  lemma StripSpec(s: string) returns (lo: nat)
    ensures var t := Strip(s);
      lo <= |s| - |t| && t == s[lo..lo + |t|]
      && (forall i :: 0 <= i < lo ==> IsSpace(s[i]))
      && (forall i :: lo + |t| <= i < |s| ==> IsSpace(s[i]))
      && (|t| > 0 ==> !IsSpace(t[0]) && !IsSpace(t[|t| - 1]))
  {
    var u := TrimStart(s);
    TrimStartIsSuffix(s);
    TrimEndIsPrefix(u);
    var t := TrimEnd(u);
    lo := |s| - |u|;
    assert t == s[lo..lo + |t|];
    forall i | lo + |t| <= i < |s|
      ensures IsSpace(s[i])
    {
      assert s[i] == u[i - lo];
    }
    if |t| > 0 {
      TrimStartIsSuffix(s);
      assert t[0] == u[0];
    }
  }

  /** A string without white space at either end is its own strip. */
  lemma StripKeepsTrimmed(s: string)
    requires |s| > 0 ==> !IsSpace(s[0]) && !IsSpace(s[|s| - 1])
    ensures Strip(s) == s
  {
  }

  /** `p` occurs in `s` starting at index `i`. */
  predicate OccursAt(s: string, p: string, i: int) {
    0 <= i <= |s| - |p| && s[i..i + |p|] == p
  }

  /** Python's `p in s` for strings. */
  predicate Contains(s: string, p: string) {
    exists i | 0 <= i <= |s| - |p| :: OccursAt(s, p, i)
  }

  /** Lower-casing both sides keeps an occurrence. */
  lemma ContainsLower(s: string, p: string)
    requires Contains(s, p)
    ensures Contains(Lower(s), Lower(p))
  {
    var i :| OccursAt(s, p, i);
    assert OccursAt(s, p, i);
    assert Lower(s)[i..i + |p|] == Lower(p);
    assert OccursAt(Lower(s), Lower(p), i);
  }

  /** `sep.join(parts)` */
  function Join(parts: seq<string>, sep: string): string {
    if |parts| == 0 then ""
    else if |parts| == 1 then parts[0]
    else parts[0] + sep + Join(parts[1..], sep)
  }

  /**
   * The text after the last `c` (all of `s` when `c` does not occur), that is
   * `s.split(c)[-1]`.
   */
  function AfterLast(s: string, c: char): (r: string)
    ensures c !in r
    ensures |r| <= |s| && r == s[|s| - |r|..]
    ensures |r| < |s| ==> s[|s| - |r| - 1] == c
  {
    if |s| == 0 then ""
    else if s[|s| - 1] == c then ""
    else AfterLast(s[..|s| - 1], c) + [s[|s| - 1]]
  }

  lemma {:induction false} AfterLastOfFree(s: string, c: char)
    requires c !in s
    ensures AfterLast(s, c) == s
  {
    if |s| > 0 {
      AfterLastOfFree(s[..|s| - 1], c);
    }
  }

  /** `path.split("/")[-1].split("\\")[-1]`: the last path component under either separator. */
  function Basename(path: string): (r: string)
    ensures '/' !in r && '\\' !in r
    ensures |r| <= |path| && r == path[|path| - |r|..]
    ensures |r| < |path| ==> path[|path| - |r| - 1] == '/' || path[|path| - |r| - 1] == '\\'
  {
    var a := AfterLast(path, '/');
    var r := AfterLast(a, '\\');
    SuffixOfSuffix(path, a, r);
    r
  }

  /** A suffix of a suffix of `s` is a suffix of `s`, made of characters of the middle one. */
  lemma SuffixOfSuffix(s: string, a: string, r: string)
    requires |a| <= |s| && a == s[|s| - |a|..]
    requires |r| <= |a| && r == a[|a| - |r|..]
    ensures r == s[|s| - |r|..]
    ensures forall x :: x in r ==> x in a
    ensures |r| < |a| ==> s[|s| - |r| - 1] == a[|a| - |r| - 1]
  {
    assert forall i :: 0 <= i < |r| ==> r[i] == a[|a| - |r| + i];
  }

  lemma BasenameOfPlain(path: string)
    requires '/' !in path && '\\' !in path
    ensures Basename(path) == path
  {
    AfterLastOfFree(path, '/');
    AfterLastOfFree(path, '\\');
  }

  /** `s.rstrip(c)` */
  function RStrip(s: string, c: char): (r: string)
    ensures |r| <= |s| && r == s[..|r|]
    ensures |r| > 0 ==> r[|r| - 1] != c
    ensures forall i :: |r| <= i < |s| ==> s[i] == c
  {
    if |s| > 0 && s[|s| - 1] == c then RStrip(s[..|s| - 1], c) else s
  }

  /**
   * `s.replace(pat, rep)`: every non-overlapping occurrence of `pat`,
   * scanning from the left, is replaced.
   */
  function ReplaceAll(s: string, pat: string, rep: string): string
    requires |pat| > 0
    decreases |s|
  {
    if |s| < |pat| then s
    else if s[..|pat|] == pat then rep + ReplaceAll(s[|pat|..], pat, rep)
    else [s[0]] + ReplaceAll(s[1..], pat, rep)
  }

  lemma {:induction false} ReplaceAllAbsent(s: string, pat: string, rep: string)
    requires |pat| > 0
    requires !Contains(s, pat)
    ensures ReplaceAll(s, pat, rep) == s
    decreases |s|
  {
    if |s| >= |pat| {
      assert s[0..|pat|] == s[..|pat|];
      assert !OccursAt(s, pat, 0);
      assert !Contains(s[1..], pat) by {
        if Contains(s[1..], pat) {
          var i :| OccursAt(s[1..], pat, i);
          assert OccursAt(s[1..], pat, i);
          assert s[i + 1..i + 1 + |pat|] == pat;
          assert OccursAt(s, pat, i + 1);
        }
      }
      ReplaceAllAbsent(s[1..], pat, rep);
    }
  }

  /** Replacing in a prefix free of any occurrence leaves the prefix alone. */
  lemma {:induction false} ReplaceAllAfterFreePrefix(a: string, b: string, pat: string, rep: string)
    requires |pat| > 0
    requires forall i :: 0 <= i < |a| ==> !OccursAt(a + b, pat, i)
    ensures ReplaceAll(a + b, pat, rep) == a + ReplaceAll(b, pat, rep)
    decreases |a|
  {
    if |a| > 0 {
      var s := a + b;
      if |s| < |pat| {
        ReplaceAllAbsent(b, pat, rep);
        assert ReplaceAll(s, pat, rep) == s;
      } else {
        assert s[0..|pat|] == s[..|pat|];
        assert s[1..] == a[1..] + b;
        assert !OccursAt(s, pat, 0);
        assert s[..|pat|] != pat;
        assert ReplaceAll(s, pat, rep) == [s[0]] + ReplaceAll(s[1..], pat, rep);
        FreePrefixShifts(a, b, pat);
        ReplaceAllAfterFreePrefix(a[1..], b, pat, rep);
        assert [s[0]] + (a[1..] + ReplaceAll(b, pat, rep)) == a + ReplaceAll(b, pat, rep);
      }
    } else {
      assert a + b == b;
    }
  }

  /** Dropping the first character of a prefix where `pat` does not start keeps it so. */
  lemma FreePrefixShifts(a: string, b: string, pat: string)
    requires |a| > 0
    requires forall i :: 0 <= i < |a| ==> !OccursAt(a + b, pat, i)
    ensures forall i :: 0 <= i < |a[1..]| ==> !OccursAt(a[1..] + b, pat, i)
  {
    var s := a + b;
    assert s[1..] == a[1..] + b;
    forall i | 0 <= i < |a[1..]|
      ensures !OccursAt(a[1..] + b, pat, i)
    {
      assert !OccursAt(s, pat, i + 1);
      if i + |pat| <= |a[1..] + b| {
        assert (a[1..] + b)[i..i + |pat|] == s[i + 1..i + 1 + |pat|];
      }
    }
  }

  /**
   * When `pat` occurs in `a + pat + b` only at position `|a|`, `replace`
   * puts `rep` exactly there and leaves the rest as it was.
   */
  lemma ReplaceSingleOccurrence(a: string, b: string, pat: string, rep: string)
    requires |pat| > 0
    requires forall i :: i != |a| ==> !OccursAt(a + pat + b, pat, i)
    ensures ReplaceAll(a + pat + b, pat, rep) == a + rep + b
  {
    FreeBeforeOccurrence(a, b, pat);
    NoOccurrenceAfter(a, b, pat);
    ReplaceOccurrenceBetween(a, b, pat, rep);
  }

  /** `replace` on `a + (pat + b)`, with `pat` absent from `b` and not starting inside `a`. */
  lemma ReplaceOccurrenceBetween(a: string, b: string, pat: string, rep: string)
    requires |pat| > 0
    requires forall i :: 0 <= i < |a| ==> !OccursAt(a + (pat + b), pat, i)
    requires !Contains(b, pat)
    ensures ReplaceAll(a + pat + b, pat, rep) == a + rep + b
  {
    var t := pat + b;
    ReplaceAllAfterFreePrefix(a, t, pat, rep);
    assert t[..|pat|] == pat && t[|pat|..] == b;
    assert ReplaceAll(t, pat, rep) == rep + ReplaceAll(b, pat, rep);
    ReplaceAllAbsent(b, pat, rep);
    assert a + pat + b == a + t;
  }

  /** With `pat` in `a + pat + b` only at `|a|`, it does not occur in `a + (pat + b)` before `|a|`. */
  lemma FreeBeforeOccurrence(a: string, b: string, pat: string)
    requires forall i :: i != |a| ==> !OccursAt(a + pat + b, pat, i)
    ensures forall i :: 0 <= i < |a| ==> !OccursAt(a + (pat + b), pat, i)
  {
    assert a + pat + b == a + (pat + b);
  }

  /** With `pat` in `a + pat + b` only at `|a|`, it does not occur in `b`. */
  lemma NoOccurrenceAfter(a: string, b: string, pat: string)
    requires |pat| > 0
    requires forall i :: i != |a| ==> !OccursAt(a + pat + b, pat, i)
    ensures !Contains(b, pat)
  {
    if Contains(b, pat) {
      var s := a + pat + b;
      var i :| 0 <= i <= |b| - |pat| && OccursAt(b, pat, i);
      var k := |a| + |pat| + i;
      assert |s| == |a| + |pat| + |b|;
      assert s[|a| + |pat|..] == b;
      assert s[k..k + |pat|] == s[|a| + |pat|..][i..i + |pat|];
      assert OccursAt(s, pat, k);
    }
  }

  function DigitChar(d: int): (c: char)
    requires 0 <= d <= 9
    ensures '0' <= c <= '9'
  {
    ('0' as int + d) as char
  }

  /** Decimal rendering of a natural number, as `str(n)` / an f-string does. */
  function NatToString(n: nat): (r: string)
    ensures |r| > 0
    ensures forall i :: 0 <= i < |r| ==> '0' <= r[i] <= '9'
    decreases n
  {
    if n < 10 then [DigitChar(n)] else NatToString(n / 10) + [DigitChar(n % 10)]
  }

  /** The number of items `str.split()` returns: maximal runs of non-space characters. */
  function WordCount(s: string): nat
    decreases |s|
  {
    if |s| == 0 then 0
    else if IsSpace(s[0]) then WordCount(s[1..])
    else 1 + WordCount(SkipWord(s[1..]))
  }

  function SkipWord(s: string): (r: string)
    ensures |r| <= |s|
    decreases |s|
  {
    if |s| == 0 || IsSpace(s[0]) then s else SkipWord(s[1..])
  }

  /** No word is longer than the text, and a text with a non-space character has a word. */
  lemma {:induction false} WordCountBounds(s: string)
    ensures WordCount(s) <= |s|
    ensures WordCount(s) == 0 <==> forall i :: 0 <= i < |s| ==> IsSpace(s[i])
    decreases |s|
  {
    if |s| > 0 {
      if IsSpace(s[0]) {
        WordCountBounds(s[1..]);
        assert forall i :: 1 <= i < |s| ==> s[i] == s[1..][i - 1];
      } else {
        WordCountBounds(SkipWord(s[1..]));
      }
    }
  }

  /**
   * `repr(s)` for the characters it escapes by name: single quotes unless
   * `s` holds a single quote and no double quote, and a backslash before
   * `\\`, the chosen quote, and the escapes `\n`, `\r`, `\t`.
   */
  function Repr(s: string): (r: string)
    ensures |r| >= |s| + 2
    ensures r[0] == r[|r| - 1] == ReprQuote(s)
  {
    [ReprQuote(s)] + ReprBody(s, ReprQuote(s)) + [ReprQuote(s)]
  }

  function ReprQuote(s: string): char {
    if '\'' in s && '"' !in s then '"' else '\''
  }

  function ReprBody(s: string, q: char): (r: string)
    ensures |r| >= |s|
  {
    if |s| == 0 then [] else ReprChar(s[0], q) + ReprBody(s[1..], q)
  }

  function ReprChar(c: char, q: char): string {
    if c == '\\' then "\\\\"
    else if c == q then ['\\', q]
    else if c == '\n' then "\\n"
    else if c == '\r' then "\\r"
    else if c == '\t' then "\\t"
    else [c]
  }

  /** Text without quotes, backslashes or named control characters is shown as itself in single quotes. */
  lemma {:induction false} ReprOfPlain(s: string)
    requires forall i :: 0 <= i < |s| ==> s[i] !in "'\"\\\n\r\t"
    ensures Repr(s) == "'" + s + "'"
  {
    PlainBody(s, '\'');
  }

  lemma {:induction false} PlainBody(s: string, q: char)
    requires forall i :: 0 <= i < |s| ==> s[i] !in "'\"\\\n\r\t"
    requires q == '\'' || q == '"'
    ensures ReprBody(s, q) == s
    decreases |s|
  {
    if |s| > 0 {
      assert s[0] !in "'\"\\\n\r\t";
      PlainBody(s[1..], q);
      assert s == [s[0]] + s[1..];
    }
  }

  /** A text holding a single quote and no double quote is shown in double quotes, its single quotes unescaped. */
  lemma {:induction false} ReprPrefersDoubleQuotes(s: string)
    requires '\'' in s && '"' !in s
    ensures Repr(s)[0] == '"'
  {
  }
}
