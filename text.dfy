/**
 * String operations that the JavaScript and Python sources call on names:
 * substring search, prefix/suffix tests, ASCII lower-casing, whitespace
 * stripping, and the two `replace` flavours (JavaScript's string-pattern
 * `replace` rewrites the first match only, Python's `str.replace` rewrites
 * every non-overlapping match from left to right).
 */
module Text {

  /** `p` occurs in `s` starting at index `i`. */
  predicate OccursAt(s: string, p: string, i: int)
  {
    0 <= i && i + |p| <= |s| && s[i..i + |p|] == p
  }

  /** JavaScript `startsWith` / Python `startswith`. */
  predicate StartsWith(s: string, p: string)
  {
    |p| <= |s| && s[..|p|] == p
  }

  /** JavaScript `endsWith` / Python `endswith`. */
  predicate EndsWith(s: string, p: string)
  {
    |p| <= |s| && s[|s| - |p|..] == p
  }

  /** JavaScript `includes`. */
  function Contains(s: string, p: string): (r: bool)
    ensures r <==> exists i :: OccursAt(s, p, i)
  {
    IndexOf(s, p) >= 0
  }

  /** JavaScript `indexOf`: the first index at which `p` occurs, or -1. */
  function IndexOf(s: string, p: string): (r: int)
    ensures -1 <= r
    ensures r >= 0 ==> OccursAt(s, p, r) && forall j :: 0 <= j < r ==> !OccursAt(s, p, j)
    ensures r == -1 <==> forall j :: !OccursAt(s, p, j)
    decreases |s|
  {
    if StartsWith(s, p) then
      assert OccursAt(s, p, 0);
      0
    else if |s| <= |p| then
      OccursAtStart(s, p);
      assert forall i :: OccursAt(s, p, i) ==> i == 0;
      -1
    else
      ShiftOccurrence(s, p);
      OccursAtStart(s, p);
      var k := IndexOf(s[1..], p);
      if k < 0 then
        assert forall j :: !OccursAt(s, p, j) by {
          forall j | j != 0 ensures !OccursAt(s, p, j) {
            assert !OccursAt(s[1..], p, j - 1);
          }
        }
        -1
      else
        assert forall j :: 0 <= j < k + 1 ==> !OccursAt(s, p, j) by {
          forall j | 0 < j < k + 1 ensures !OccursAt(s, p, j) {
            assert !OccursAt(s[1..], p, j - 1);
          }
        }
        k + 1
  }

  /** An occurrence with none before it is the one `indexOf` finds. */
  lemma IndexOfFirst(s: string, p: string, i: int)
    requires OccursAt(s, p, i)
    requires forall j :: 0 <= j < i ==> !OccursAt(s, p, j)
    ensures IndexOf(s, p) == i
  {
  }

  /** An occurrence at index 0 is a prefix. */
  lemma OccursAtStart(s: string, p: string)
    ensures OccursAt(s, p, 0) <==> StartsWith(s, p)
  {
    if |p| <= |s| {
      assert s[0..0 + |p|] == s[..|p|];
    }
  }

  /** Occurrences in `s[1..]` are the occurrences in `s` after index 0. */
  lemma ShiftOccurrence(s: string, p: string)
    requires |s| > 0
    ensures forall j :: 0 <= j ==> (OccursAt(s[1..], p, j) <==> OccursAt(s, p, j + 1))
  {
    forall j | 0 <= j ensures OccursAt(s[1..], p, j) <==> OccursAt(s, p, j + 1) {
      if 0 <= j && j + |p| <= |s| - 1 {
        assert s[1..][j..j + |p|] == s[j + 1..j + 1 + |p|];
      }
    }
  }

  /** JavaScript `s.replace(p, r)` with a string pattern: only the first match is rewritten. */
  function ReplaceFirst(s: string, p: string, r: string): (t: string)
    ensures IndexOf(s, p) < 0 ==> t == s
    ensures IndexOf(s, p) >= 0 ==>
      var i := IndexOf(s, p); t == s[..i] + r + s[i + |p|..]
  {
    var i := IndexOf(s, p);
    if i < 0 then s else s[..i] + r + s[i + |p|..]
  }

  /** Python `s.replace(p, r)`: every non-overlapping match, scanning from the left. */
  function ReplaceAll(s: string, p: string, r: string): (t: string)
    requires |p| > 0
    decreases |s|
  {
    if |s| < |p| then s
    else if StartsWith(s, p) then r + ReplaceAll(s[|p|..], p, r)
    else [s[0]] + ReplaceAll(s[1..], p, r)
  }

  /** Rewriting a string that lacks one of the pattern's characters changes nothing. */
  lemma {:induction false} ReplaceAllWithoutChar(s: string, p: string, r: string, c: char)
    requires |p| > 0 && c in p && c !in s
    ensures ReplaceAll(s, p, r) == s
    decreases |s|
  {
    if |s| >= |p| {
      var k :| 0 <= k < |p| && p[k] == c;
      assert s[..|p|][k] != c;
      ReplaceAllWithoutChar(s[1..], p, r, c);
      assert [s[0]] + s[1..] == s;
    }
  }

  /** A rewrite of a string that starts with the pattern removes that match first. */
  lemma ReplaceAllLeadingMatch(p: string, s: string, r: string)
    requires |p| > 0
    ensures ReplaceAll(p + s, p, r) == r + ReplaceAll(s, p, r)
  {
    assert (p + s)[..|p|] == p;
    assert StartsWith(p + s, p);
    assert (p + s)[|p|..] == s;
  }

  /** A prefix free of the pattern's first character passes through a rewrite unchanged. */
  lemma {:induction false} ReplaceAllFreePrefix(a: string, b: string, p: string, r: string)
    requires |p| > 0 && p[0] !in a
    ensures ReplaceAll(a + b, p, r) == a + ReplaceAll(b, p, r)
    decreases |a|
  {
    if a == [] {
      assert a + b == b;
    } else {
      assert (a + b)[0] == a[0];
      if |a + b| >= |p| {
        assert (a + b)[..|p|][0] != p[0];
        assert (a + b)[1..] == a[1..] + b;
        ReplaceAllFreePrefix(a[1..], b, p, r);
        calc {
          ReplaceAll(a + b, p, r);
          [a[0]] + ReplaceAll(a[1..] + b, p, r);
          [a[0]] + (a[1..] + ReplaceAll(b, p, r));
          { assert [a[0]] + a[1..] == a; }
          a + ReplaceAll(b, p, r);
        }
      } else {
        ReplaceAllShort(a + b, p, r);
        ReplaceAllShort(b, p, r);
      }
    }
  }

  /** A string shorter than the pattern is left as it is. */
  lemma ReplaceAllShort(s: string, p: string, r: string)
    requires 0 < |p| && |s| < |p|
    ensures ReplaceAll(s, p, r) == s
  {
  }

  /** ASCII lower-casing of one character (other characters are left as they are). */
  function LowerChar(c: char): (d: char)
    ensures 'A' <= c <= 'Z' ==> 'a' <= d <= 'z'
    ensures !('A' <= c <= 'Z') ==> d == c
  {
    if 'A' <= c <= 'Z' then (c as int - 'A' as int + 'a' as int) as char else c
  }

  /** JavaScript `toLowerCase` / Python `lower`, restricted to ASCII letters. */
  function ToLower(s: string): (t: string)
    ensures |t| == |s|
    ensures forall i :: 0 <= i < |s| ==> t[i] == LowerChar(s[i])
  {
    seq(|s|, i requires 0 <= i < |s| => LowerChar(s[i]))
  }

  /** The characters Python's `str.isspace` accepts. */
  predicate IsPythonSpace(c: char)
  {
    c == ' ' || '\t' <= c <= '\r' || '\U{1c}' <= c <= '\U{1f}' || c == '\U{85}' || c == '\U{a0}'
    || c == '\U{1680}' || '\U{2000}' <= c <= '\U{200a}' || c == '\U{2028}' || c == '\U{2029}'
    || c == '\U{202f}' || c == '\U{205f}' || c == '\U{3000}'
  }

  /** The characters of the JavaScript regular-expression class `\s`. */
  predicate IsJsSpace(c: char)
  {
    c == ' ' || '\t' <= c <= '\r' || c == '\U{a0}' || c == '\U{1680}' || '\U{2000}' <= c <= '\U{200a}'
    || c == '\U{2028}' || c == '\U{2029}' || c == '\U{202f}' || c == '\U{205f}' || c == '\U{3000}'
    || c == '\U{feff}'
  }

  /** Python `str.lstrip()` with no argument. */
  function StripLeft(s: string): (t: string)
    ensures |t| <= |s| && t == s[|s| - |t|..]
    ensures forall i :: 0 <= i < |s| - |t| ==> IsPythonSpace(s[i])
    ensures t != [] ==> !IsPythonSpace(t[0])
  {
    if s != [] && IsPythonSpace(s[0]) then StripLeft(s[1..]) else s
  }

  /** Python `str.rstrip()` with no argument. */
  function StripRight(s: string): (t: string)
    ensures |t| <= |s| && t == s[..|t|]
    ensures forall i :: |t| <= i < |s| ==> IsPythonSpace(s[i])
    ensures t != [] ==> !IsPythonSpace(t[|t| - 1])
  {
    if s != [] && IsPythonSpace(s[|s| - 1]) then StripRight(s[..|s| - 1]) else s
  }

  /** Python `str.strip()` with no argument. */
  function Strip(s: string): (t: string)
  {
    StripRight(StripLeft(s))
  }
}
