/**
 * Character classes, the two regular-expression clean-ups shared by both
 * line readers, splitting on a separator, and decimal conversion of integers
 * as Swift performs it (`String(n)` and `Int(s)`).
 */
module Text {
  import opened Wrappers

  /** The regex class `\s`, restricted to ASCII. */
  predicate IsWhitespace(c: char) {
    c == ' ' || c == '\t' || c == '\n' || c == '\U{000B}' || c == '\U{000C}' || c == '\r'
  }

  /** The regex class `\w`, restricted to ASCII. */
  predicate IsWordChar(c: char) {
    ('a' <= c <= 'z') || ('A' <= c <= 'Z') || ('0' <= c <= '9') || c == '_'
  }

  predicate IsDigit(c: char) {
    '0' <= c <= '9'
  }

  predicate AllDigits(s: string) {
    forall i :: 0 <= i < |s| ==> IsDigit(s[i])
  }

  predicate NoWhitespace(s: string) {
    forall i :: 0 <= i < |s| ==> !IsWhitespace(s[i])
  }

  /** Every character of `s` that is not `c`, in order. */
  function Without(s: string, c: char): (r: string)
    ensures |r| <= |s|
    ensures forall i :: 0 <= i < |r| ==> r[i] != c && r[i] in s
    ensures c !in s ==> r == s
  {
    if s == [] then []
    else if s[0] == c then Without(s[1..], c)
    else [s[0]] + Without(s[1..], c)
  }

  /** `replacingOccurrences(of: #"\s"#, with: "")`: every whitespace character removed. */
  function StripWhitespace(s: string): (r: string)
    ensures |r| <= |s|
    ensures NoWhitespace(r)
    ensures NoWhitespace(s) ==> r == s
  {
    if s == [] then []
    else if IsWhitespace(s[0]) then StripWhitespace(s[1..])
    else [s[0]] + StripWhitespace(s[1..])
  }

  lemma {:induction false} StripWhitespaceAppend(a: string, b: string)
    ensures StripWhitespace(a + b) == StripWhitespace(a) + StripWhitespace(b)
  {
    if a != [] {
      assert (a + b)[1..] == a[1..] + b;
      StripWhitespaceAppend(a[1..], b);
    } else {
      assert a + b == b;
    }
  }

  /**
   * Where the regex `//.+` first matches: the first `//` that has at least
   * one character after it.
   */
  function CommentStart(s: string, from: nat := 0): (r: Option<nat>)
    decreases |s| - from
    ensures r.Some? ==> from <= r.value && r.value + 2 < |s| && s[r.value] == '/' && s[r.value + 1] == '/'
    ensures r.Some? ==> forall j :: from <= j < r.value ==> !(s[j] == '/' && s[j + 1] == '/')
    ensures r.None? ==> forall j :: from <= j && j + 2 < |s| ==> !(s[j] == '/' && s[j + 1] == '/')
  {
    if from + 2 >= |s| then None
    else if s[from] == '/' && s[from + 1] == '/' then Some(from)
    else CommentStart(s, from + 1)
  }

  /**
   * `replacingOccurrences(of: #"//.+"#, with: "")`: the greedy `.+` runs to the
   * end of the line, so the line is cut at the first match.
   */
  function StripComments(s: string): (r: string)
  {
    match CommentStart(s)
    case None => s
    case Some(i) => s[..i]
  }

  lemma StripCommentsCuts(s: string)
    ensures StripComments(s) <= s
    ensures |StripComments(s)| < |s| <==> exists j :: 0 <= j && j + 2 < |s| && s[j] == '/' && s[j + 1] == '/'
  {
  }

  /** A line without any slash has no comment. */
  lemma {:induction false} NoSlashNoComment(s: string, from: nat)
    requires '/' !in s
    ensures CommentStart(s, from).None?
    decreases |s| - from
  {
    if from + 2 < |s| {
      NoSlashNoComment(s, from + 1);
    }
  }

  /** A bare `//` at the very end of a line is not a comment for `//.+`. */
  lemma TrailingSlashesSurvive(s: string)
    requires forall j :: 0 <= j < |s| ==> s[j] != '/'
    ensures StripComments(s + "//") == s + "//"
  {
    NoCommentFrom(s + "//", 0);
  }

  lemma {:induction false} NoCommentFrom(t: string, from: nat)
    requires |t| >= 2 && t[|t| - 2..] == "//"
    requires forall j :: 0 <= j < |t| - 2 ==> t[j] != '/'
    ensures CommentStart(t, from).None?
    decreases |t| - from
  {
    if from + 2 < |t| {
      assert t[from] != '/';
      NoCommentFrom(t, from + 1);
    }
  }

  /** Index of the first occurrence of `c` in `s`. */
  function IndexOf(s: string, c: char): (r: Option<nat>)
    ensures r.Some? ==> r.value < |s| && s[r.value] == c && c !in s[..r.value]
    ensures r.None? <==> c !in s
  {
    if s == [] then None
    else if s[0] == c then Some(0)
    else match IndexOf(s[1..], c)
      case None => None
      case Some(i) => Some(i + 1)
  }

  /** Index of the last occurrence of `c` in `s`. */
  function LastIndexOf(s: string, c: char): (r: Option<nat>)
    ensures r.Some? ==> r.value < |s| && s[r.value] == c && c !in s[r.value + 1..]
    ensures r.None? <==> c !in s
  {
    if s == [] then None
    else if s[|s| - 1] == c then Some(|s| - 1)
    else
      assert s == s[..|s| - 1] + [s[|s| - 1]];
      LastIndexOf(s[..|s| - 1], c)
  }

  /**
   * Swift's `split(separator:)` with its default of omitting empty pieces: the
   * maximal runs of characters other than `sep`, in order.
   */
  function Split(s: string, sep: char): (pieces: seq<string>)
    ensures forall k :: 0 <= k < |pieces| ==> pieces[k] != [] && sep !in pieces[k]
  {
    match IndexOf(s, sep)
    case None => if s == [] then [] else [s]
    case Some(i) =>
      var rest := Split(s[i + 1..], sep);
      if i == 0 then rest else [s[..i]] + rest
  }

  /** A line without the separator is one piece, or none when it is empty. */
  lemma SplitWithoutSeparator(s: string, sep: char)
    requires sep !in s
    ensures Split(s, sep) == if s == [] then [] else [s]
  {
  }

  // ---------------------------------------------------------------------
  // Decimal numerals

  function DigitChar(d: nat): (c: char)
    requires d < 10
    ensures IsDigit(c)
  {
    ['0', '1', '2', '3', '4', '5', '6', '7', '8', '9'][d]
  }

  function DigitValue(c: char): (d: nat)
    requires IsDigit(c)
    ensures d < 10
  {
    (c as int - '0' as int) as nat
  }

  lemma DigitRoundTrip(d: nat)
    requires d < 10
    ensures DigitValue(DigitChar(d)) == d
  {
  }

  /** `String(n)` for a non-negative integer: most significant digit first, no leading zeros. */
  function NatToString(n: nat): (r: string)
    ensures |r| > 0 && AllDigits(r)
  {
    if n < 10 then [DigitChar(n)] else NatToString(n / 10) + [DigitChar(n % 10)]
  }

  /** The value of a string of decimal digits (0 for the empty string). */
  function DigitsValue(s: string): (n: nat)
    requires AllDigits(s)
  {
    if s == [] then 0 else DigitsValue(s[..|s| - 1]) * 10 + DigitValue(s[|s| - 1])
  }

  lemma {:induction false} NatToStringRoundTrip(n: nat)
    ensures DigitsValue(NatToString(n)) == n
  {
    var r := NatToString(n);
    if n < 10 {
      DigitRoundTrip(n);
    } else {
      NatToStringRoundTrip(n / 10);
      DigitRoundTrip(n % 10);
      assert r[..|r| - 1] == NatToString(n / 10);
    }
  }

  /** Distinct numbers print differently. */
  lemma NatToStringInjective(m: nat, n: nat)
    requires NatToString(m) == NatToString(n)
    ensures m == n
  {
    NatToStringRoundTrip(m);
    NatToStringRoundTrip(n);
  }

  /** `String(i)` for any integer: a minus sign before the digits of a negative value. */
  function IntToString(i: int): (r: string)
    ensures |r| > 0
    ensures i >= 0 ==> AllDigits(r)
    ensures i < 0 ==> r[0] == '-' && AllDigits(r[1..])
  {
    if i < 0 then "-" + NatToString(-i) else NatToString(i)
  }

  const IntMin: int := -0x8000_0000_0000_0000
  const IntMax: int := 0x7FFF_FFFF_FFFF_FFFF

  /**
   * Swift's `Int(s)`: an optional `+` or `-`, then one or more ASCII digits,
   * whose value must fit a 64-bit `Int`; anything else is `nil`.
   */
  function ParseInt(s: string): (r: Option<int>)
    ensures r.Some? ==> IntMin <= r.value <= IntMax
    ensures r.Some? ==> |s| > 0 && (IsDigit(s[0]) || s[0] == '+' || s[0] == '-')
  {
    if s == [] then None
    else
      var negative := s[0] == '-';
      var digits := if s[0] == '+' || s[0] == '-' then s[1..] else s;
      if digits == [] || !AllDigits(digits) then None
      else
        var magnitude: int := DigitsValue(digits);
        var v := if negative then 0 - magnitude else magnitude;
        if IntMin <= v <= IntMax then Some(v) else None
  }

  /** `Int(String(i)) == i` for every value of a 64-bit `Int`. */
  lemma IntToStringRoundTrip(i: int)
    requires IntMin <= i <= IntMax
    ensures ParseInt(IntToString(i)) == Some(i)
  {
    if i < 0 {
      NatToStringRoundTrip(-i);
      assert IntToString(i)[1..] == NatToString(-i);
    } else {
      NatToStringRoundTrip(i);
    }
  }

  /** A string with no digit at all is never a number. */
  lemma ParseIntNeedsDigit(s: string)
    requires forall i :: 0 <= i < |s| ==> !IsDigit(s[i])
    ensures ParseInt(s).None?
  {
    if |s| > 1 {
      assert !IsDigit(s[1]);
    }
  }
}
