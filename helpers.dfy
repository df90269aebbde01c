/**
 * The display helpers (frontend/src/utils/helpers.js): remaining-budget
 * percentage and its colour band, text truncation, the e-mail shape check
 * and thousands separators. The e-mail expression is modelled as a pattern
 * predicate (what the expression matches) and a scanner (how the helper
 * decides), proved equivalent. The thousands-separator expression is pinned
 * down by its round trip (removing the commas gives the digits back) and by
 * the shape of its groups.
 */
module Helpers {
  import opened Common
  import opened Text

  /** `calculateBudgetPercentage`: the remaining share of the total, in percent. */
  function BudgetPercentage(spent: real, total: real): real
    requires total != 0.0
  {
    ((total - spent) / total) * 100.0
  }

  /** Nothing spent is 100%, everything spent is 0%, and spending more never raises the percentage. */
  lemma BudgetPercentageSpec(spent: real, more: real, total: real)
    requires total > 0.0 && spent <= more
    ensures BudgetPercentage(0.0, total) == 100.0
    ensures BudgetPercentage(total, total) == 0.0
    ensures BudgetPercentage(more, total) <= BudgetPercentage(spent, total)
    ensures spent > total ==> BudgetPercentage(spent, total) < 0.0
  {
    assert (total - 0.0) / total == 1.0;
    var a, b := (total - spent) / total, (total - more) / total;
    assert a * total == total - spent;
    assert b * total == total - more;
    assert (a - b) * total == more - spent;
    if a < b {
      assert (b - a) * total > 0.0;
    }
    if spent > total {
      assert a * total < 0.0;
    }
  }

  /** The three bands of `getBudgetColor`. */
  datatype BudgetColor = Green | Yellow | Red

  /** `getBudgetColor`: above 60 green, above 30 yellow, otherwise red. */
  function GetBudgetColor(percentage: real): (c: BudgetColor)
    ensures c == Green <==> percentage > 60.0
    ensures c == Yellow <==> 30.0 < percentage <= 60.0
    ensures c == Red <==> percentage <= 30.0
  {
    if percentage > 60.0 then Green else if percentage > 30.0 then Yellow else Red
  }

  /** How healthy a band is. */
  function Rank(c: BudgetColor): nat
  {
    match c
    case Red => 0
    case Yellow => 1
    case Green => 2
  }

  /** A larger percentage never gets a worse colour, and spending more never gets a better one. */
  lemma BudgetColorMonotone(p: real, q: real, spent: real, more: real, total: real)
    requires p <= q && total > 0.0 && spent <= more
    ensures Rank(GetBudgetColor(p)) <= Rank(GetBudgetColor(q))
    ensures Rank(GetBudgetColor(BudgetPercentage(more, total))) <= Rank(GetBudgetColor(BudgetPercentage(spent, total)))
  {
    BudgetPercentageSpec(spent, more, total);
  }

  /** The default `maxLength` of `truncateText`. */
  const DefaultMaxLength: int := 50

  /** A UTF-16 code unit: JavaScript strings are sequences of these. */
  type CodeUnit = u: int | 0 <= u < 0x1_0000

  /** "..." as code units. */
  const Ellipsis: seq<CodeUnit> := [46, 46, 46]

  /**
   * `truncateText`: short enough text is returned as is; otherwise the first
   * `maxLength` code units (none for a negative length, as `substring`
   * clamps) followed by "...". `length` and `substring` count UTF-16 code
   * units, so the text is given as its code units.
   */
  function TruncateText(text: seq<CodeUnit>, maxLength: int): (r: seq<CodeUnit>)
    ensures |text| <= maxLength ==> r == text
    ensures |text| > maxLength ==> r == text[..if maxLength < 0 then 0 else maxLength] + Ellipsis
    ensures |text| > maxLength ==> |r| <= (if maxLength < 0 then 0 else maxLength) + 3
  {
    if |text| <= maxLength then text
    else
      var end := if maxLength < 0 then 0 else maxLength;
      text[..end] + Ellipsis
  }

  /** The result always starts with a prefix of the text, and truncating twice is truncating once. */
  lemma TruncateTextIdempotent(text: seq<CodeUnit>, maxLength: int)
    ensures TruncateText(TruncateText(text, maxLength), maxLength) == TruncateText(text, maxLength)
    ensures var k := if |text| <= maxLength then |text| else if maxLength < 0 then 0 else maxLength;
      k <= |TruncateText(text, maxLength)| && TruncateText(text, maxLength)[..k] == text[..k]
  {
    var r := TruncateText(text, maxLength);
    if |text| > maxLength {
      var end := if maxLength < 0 then 0 else maxLength;
      assert r[..end] == text[..end];
      if |r| > maxLength {
        assert r[..end] + Ellipsis == r;
      }
    }
  }

  /**
   * A cut can fall inside a surrogate pair: two emoji (four code units)
   * truncated at 3 keep the first emoji and a lone high surrogate.
   */
  lemma TruncateSplitsSurrogatePair()
    ensures TruncateText([0xD83D, 0xDE00, 0xD83D, 0xDE00], 3) == [0xD83D, 0xDE00, 0xD83D, 46, 46, 46]
  {
  }

  /** A character the class `[^\s@]` accepts. */
  predicate Plain(c: char)
  {
    !IsJsSpace(c) && c != '@'
  }

  /** Every character of `t` is accepted by `[^\s@]`. */
  predicate AllPlain(t: string)
  {
    forall k :: 0 <= k < |t| ==> Plain(t[k])
  }

  /**
   * What `/^[^\s@]+@[^\s@]+\.[^\s@]+$/` matches: a non-empty local part, an
   * '@', a non-empty run, a '.', a non-empty run, with no whitespace and no
   * other '@' anywhere.
   */
  ghost predicate MatchesEmailPattern(s: string)
  {
    exists i, j :: 0 < i && i + 1 < j && j + 1 < |s| && s[i] == '@' && s[j] == '.'
                   && AllPlain(s[..i]) && AllPlain(s[i + 1..j]) && AllPlain(s[j + 1..])
  }

  /** `d` has a '.' that is neither its first nor its last character. */
  predicate HasInnerDot(d: string)
  {
    |d| >= 3 && '.' in d[1..|d| - 1]
  }

  /** `isValidEmail`: split at the first '@'; the domain part must hold an inner '.'. */
  function IsValidEmail(s: string): bool
  {
    var i := IndexOf(s, "@");
    0 < i && AllPlain(s[..i]) && AllPlain(s[i + 1..]) && HasInnerDot(s[i + 1..])
  }

  /** The scanner accepts exactly the strings the regular expression matches. */
  lemma IsValidEmailMatchesPattern(s: string)
    ensures IsValidEmail(s) <==> MatchesEmailPattern(s)
  {
    if IsValidEmail(s) {
      ScannerImpliesPattern(s);
    }
    if MatchesEmailPattern(s) {
      var a, b :| 0 < a && a + 1 < b && b + 1 < |s| && s[a] == '@' && s[b] == '.'
                  && AllPlain(s[..a]) && AllPlain(s[a + 1..b]) && AllPlain(s[b + 1..]);
      PatternImpliesScanner(s, a, b);
    }
  }

  /** An accepted address splits as the expression requires: at the first '@' and at an inner '.'. */
  lemma ScannerImpliesPattern(s: string)
    requires IsValidEmail(s)
    ensures MatchesEmailPattern(s)
  {
    var i := IndexOf(s, "@");
    assert OccursAt(s, "@", i);
    assert s[i..i + 1][0] == s[i];
    var d := s[i + 1..];
    var m :| 0 <= m < |d[1..|d| - 1]| && d[1..|d| - 1][m] == '.';
    var j := i + 2 + m;
    assert s[j] == '.';
    AllPlainSlice(d, 0, m + 1);
    assert s[i + 1..j] == d[..m + 1];
    AllPlainSlice(d, m + 2, |d|);
    assert s[j + 1..] == d[m + 2..];
    assert 0 < i && i + 1 < j && j + 1 < |s| && s[i] == '@' && s[j] == '.'
           && AllPlain(s[..i]) && AllPlain(s[i + 1..j]) && AllPlain(s[j + 1..]);
  }

  /** A match of the expression is accepted by the scanner. */
  lemma PatternImpliesScanner(s: string, a: int, b: int)
    requires 0 < a && a + 1 < b && b + 1 < |s| && s[a] == '@' && s[b] == '.'
    requires AllPlain(s[..a]) && AllPlain(s[a + 1..b]) && AllPlain(s[b + 1..])
    ensures IsValidEmail(s)
  {
    forall k | 0 <= k < a ensures s[k] != '@' {
      assert s[..a][k] == s[k];
    }
    FirstOccurrence(s, a);
    var d := s[a + 1..];
    assert d[1..|d| - 1][b - a - 2] == '.';
    assert d == s[a + 1..b] + ['.'] + s[b + 1..];
    AllPlainJoin(s[a + 1..b], ['.'], s[b + 1..]);
  }

  /** An '@' at `a` with none before it is the one `indexOf` finds. */
  lemma FirstOccurrence(s: string, a: int)
    requires 0 <= a < |s| && s[a] == '@'
    requires forall k :: 0 <= k < a ==> s[k] != '@'
    ensures IndexOf(s, "@") == a
  {
    assert s[a..a + 1] == "@";
    assert OccursAt(s, "@", a);
    var i := IndexOf(s, "@");
    assert OccursAt(s, "@", i);
    assert s[i..i + 1][0] == s[i];
  }

  /** Every slice of a plain string is plain. */
  lemma AllPlainSlice(t: string, lo: int, hi: int)
    requires AllPlain(t) && 0 <= lo <= hi <= |t|
    ensures AllPlain(t[lo..hi])
  {
    forall k | 0 <= k < hi - lo ensures Plain(t[lo..hi][k]) {
      assert t[lo..hi][k] == t[lo + k];
    }
  }

  /** Plain pieces joined around a plain character are plain. */
  lemma AllPlainJoin(x: string, y: string, z: string)
    requires AllPlain(x) && AllPlain(y) && AllPlain(z)
    ensures AllPlain(x + y + z)
  {
    var w := x + y + z;
    forall k | 0 <= k < |w| ensures Plain(w[k]) {
      if k < |x| {
        assert w[k] == x[k];
      } else if k < |x| + |y| {
        assert w[k] == y[k - |x|];
      } else {
        assert w[k] == z[k - |x| - |y|];
      }
    }
  }

  /** Two '@' are never accepted, and neither is whitespace; "a@b.c" is. */
  lemma EmailExamples()
    ensures !IsValidEmail("a@b@c.d")
    ensures !IsValidEmail("a b@c.d")
    ensures IsValidEmail("a@b.c")
  {
    SecondAtRejected();
    SpaceRejected();
    ShortAddressAccepted();
  }

  /** The domain part after the first '@' holds another '@'. */
  lemma SecondAtRejected()
    ensures !IsValidEmail("a@b@c.d")
  {
    var two := "a@b@c.d";
    FirstOccurrence(two, 1);
    assert two[2..][1] == '@';
  }

  /** A one-letter local part, host and top-level domain. */
  lemma ShortAddressAccepted()
    ensures IsValidEmail("a@b.c")
  {
    var s := "a@b.c";
    assert s[..1] == "a" && s[2..3] == "b" && s[4..] == "c";
    assert AllPlain("a") && AllPlain("b") && AllPlain("c");
    PatternImpliesScanner(s, 1, 3);
  }

  /** The local part before the '@' holds a space. */
  lemma SpaceRejected()
    ensures !IsValidEmail("a b@c.d")
  {
    var spaced := "a b@c.d";
    FirstOccurrence(spaced, 3);
    assert spaced[..3][1] == ' ';
  }

  /** The decimal digit of a value below ten. */
  function DigitChar(d: nat): (c: char)
    requires d < 10
    ensures '0' <= c <= '9'
  {
    "0123456789"[d]
  }

  /** `n.toString()` for a natural number. */
  function DecimalString(n: nat): (s: string)
    ensures |s| >= 1 && forall k :: 0 <= k < |s| ==> '0' <= s[k] <= '9'
    ensures n < 10 ==> |s| == 1
    ensures n >= 10 ==> |s| == |DecimalString(n / 10)| + 1
  {
    if n < 10 then [DigitChar(n)] else DecimalString(n / 10) + [DigitChar(n % 10)]
  }

  /**
   * The comma insertion of `formatNumber` on a digit string: a comma before
   * every position that is not the start and has a positive multiple of
   * three digits after it, i.e. groups of three counted from the right.
   */
  function GroupThousands(d: string): string
    decreases |d|
  {
    if |d| <= 3 then d else GroupThousands(d[..|d| - 3]) + "," + d[|d| - 3..]
  }

  /** `formatNumber` for a natural number. */
  function FormatNumber(n: nat): string
  {
    GroupThousands(DecimalString(n))
  }

  /** A character other than the separator. */
  predicate NotComma(c: char)
  {
    c != ','
  }

  /** The string with every comma removed. */
  function WithoutCommas(s: string): string
  {
    Filter(s, NotComma)
  }

  /** A string without commas is its own comma-free form. */
  lemma WithoutCommasOfDigits(t: string)
    requires ',' !in t
    ensures WithoutCommas(t) == t
  {
    FilterAll(t, NotComma);
  }

  /** A digit string is made of groups: the first of one to three digits, every later one of exactly three. */
  predicate WellGrouped(r: string)
    decreases |r|
  {
    if ',' !in r then 1 <= |r| <= 3
    else |r| >= 5 && r[|r| - 4] == ',' && ',' !in r[|r| - 3..] && WellGrouped(r[..|r| - 4])
  }

  /** Removing the commas of a grouped digit string gives the digits back. */
  lemma {:induction false} GroupThousandsRoundTrip(d: string)
    requires ',' !in d
    ensures WithoutCommas(GroupThousands(d)) == d
    decreases |d|
  {
    if |d| <= 3 {
      WithoutCommasOfDigits(d);
    } else {
      var head, tail := d[..|d| - 3], d[|d| - 3..];
      assert ',' !in head && ',' !in tail;
      GroupThousandsRoundTrip(head);
      var g := GroupThousands(head);
      assert GroupThousands(d) == g + "," + tail;
      WithoutCommasAroundComma(g, tail);
      WithoutCommasOfDigits(tail);
      assert head + tail == d;
    }
  }

  /** Removing the commas of `x + "," + y` removes them from each side. */
  lemma WithoutCommasAroundComma(x: string, y: string)
    ensures WithoutCommas(x + "," + y) == WithoutCommas(x) + WithoutCommas(y)
  {
    FilterConcat(x + ",", y, NotComma);
    FilterConcat(x, ",", NotComma);
    FilterSingleton(',', NotComma);
  }

  /** The grouping of a non-empty digit string is well grouped. */
  lemma {:induction false} GroupThousandsWellGrouped(d: string)
    requires |d| >= 1 && ',' !in d
    ensures WellGrouped(GroupThousands(d))
    decreases |d|
  {
    if |d| > 3 {
      var head, tail := d[..|d| - 3], d[|d| - 3..];
      assert ',' !in head && ',' !in tail;
      GroupThousandsWellGrouped(head);
      var r := GroupThousands(head) + "," + tail;
      assert r[|r| - 4] == ',';
      assert r[|r| - 3..] == tail;
      assert r[..|r| - 4] == GroupThousands(head);
      assert ',' in r by { assert r[|r| - 4] == ','; }
    }
  }

  /**
   * `formatNumber` on a natural number: removing the commas gives the
   * decimal string, the groups are well formed, and values below 1000 are
   * unchanged.
   */
  lemma FormatNumberSpec(n: nat)
    ensures WithoutCommas(FormatNumber(n)) == DecimalString(n)
    ensures WellGrouped(FormatNumber(n))
    ensures n < 1000 ==> FormatNumber(n) == DecimalString(n)
  {
    var d := DecimalString(n);
    assert ',' !in d by {
      forall k | 0 <= k < |d| ensures d[k] != ',' {
      }
    }
    GroupThousandsRoundTrip(d);
    GroupThousandsWellGrouped(d);
    if n < 1000 {
      ShortDecimal(n);
    }
  }

  /** A value below 1000 has at most three digits. */
  lemma ShortDecimal(n: nat)
    requires n < 1000
    ensures |DecimalString(n)| <= 3
  {
    if n >= 10 {
      assert n / 10 < 100;
      if n / 10 >= 10 {
        assert n / 10 / 10 < 10;
      }
    }
  }
}
