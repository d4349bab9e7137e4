/** String and result helpers shared by the modules of the model.
    Strings are sequences of Unicode scalar values; case mapping is modelled
    over ASCII only. */
module Text {

  datatype Option<+T> = None | Some(value: T)

  datatype Result<+T, +E> = Ok(value: T) | Err(error: E)

  // ---------------------------------------------------------------------------
  // Prefixes and searching

  predicate StartsWith(s: string, prefix: string) {
    |prefix| <= |s| && s[..|prefix|] == prefix
  }

  /** JavaScript's `s.indexOf(c)`: the first index holding `c`, if any. */
  function IndexOf(s: string, c: char): (r: Option<nat>)
    ensures r.None? <==> c !in s
    ensures r.Some? ==> r.value < |s| && s[r.value] == c && c !in s[..r.value]
  {
    if s == [] then None
    else if s[0] == c then Some(0)
    else
      match IndexOf(s[1..], c)
      case None => None
      case Some(k) =>
        assert s[1..][..k] == s[1..k + 1];
        assert s[..k + 1] == [s[0]] + s[1..k + 1];
        Some(k + 1)
  }

  // ---------------------------------------------------------------------------
  // JavaScript `trim`: the WhiteSpace and LineTerminator code points of
  // section 12.2 and 12.3 of ECMA-262.

  predicate IsJsSpace(c: char) {
    || c == '\t' || c == '\n' || c == '\U{000B}' || c == '\U{000C}' || c == '\r' || c == ' '
    || c == '\U{00A0}' || c == '\U{1680}' || ('\U{2000}' <= c <= '\U{200A}')
    || c == '\U{2028}' || c == '\U{2029}' || c == '\U{202F}' || c == '\U{205F}'
    || c == '\U{3000}' || c == '\U{FEFF}'
  }

  predicate IsTrimmed(s: string) {
    s == [] || (!IsJsSpace(s[0]) && !IsJsSpace(s[|s| - 1]))
  }

  /** The number of white-space characters `s` starts with. */
  function LeadingSpaces(s: string): (n: nat)
    ensures n <= |s| && (n < |s| ==> !IsJsSpace(s[n]))
    ensures forall k :: 0 <= k < n ==> IsJsSpace(s[k])
  {
    if s != [] && IsJsSpace(s[0]) then
      var n := 1 + LeadingSpaces(s[1..]);
      assert forall k :: 1 <= k < n ==> s[k] == s[1..][k - 1];
      n
    else 0
  }

  /** The number of white-space characters `s` ends with. */
  function TrailingSpaces(s: string): (m: nat)
    ensures m <= |s| && (m < |s| ==> !IsJsSpace(s[|s| - 1 - m]))
    ensures forall k :: |s| - m <= k < |s| ==> IsJsSpace(s[k])
  {
    if s != [] && IsJsSpace(s[|s| - 1]) then
      var m := 1 + TrailingSpaces(s[..|s| - 1]);
      assert forall k :: |s| - m <= k < |s| - 1 ==> s[k] == s[..|s| - 1][k];
      m
    else 0
  }

  /** `s.trimStart()`. */
  function TrimStart(s: string): (r: string)
    ensures |r| <= |s| && r == s[|s| - |r|..]
    ensures r == [] || !IsJsSpace(r[0])
    ensures forall k :: 0 <= k < |s| - |r| ==> IsJsSpace(s[k])
  {
    s[LeadingSpaces(s)..]
  }

  /** `s.trimEnd()`. */
  function TrimEnd(s: string): (r: string)
    ensures |r| <= |s| && r == s[..|r|]
    ensures r == [] || !IsJsSpace(r[|r| - 1])
    ensures forall k :: |r| <= k < |s| ==> IsJsSpace(s[k])
  {
    s[..|s| - TrailingSpaces(s)]
  }

  /** `s.trim()`: drops leading and trailing white space and nothing else. */
  function Trim(s: string): (r: string)
    ensures IsTrimmed(r)
    ensures var n := |s| - |TrimStart(s)|;
      && n + |r| <= |s| && r == s[n..n + |r|]
      && (forall k :: 0 <= k < n ==> IsJsSpace(s[k]))
      && (forall k :: n + |r| <= k < |s| ==> IsJsSpace(s[k]))
  {
    var n := LeadingSpaces(s);
    var m := TrailingSpaces(s[n..]);
    TrailingOfSuffix(s, n, m);
    s[n..|s| - m]
  }

  /** The white space ending `s[n..]` is the white space ending `s`. */
  lemma TrailingOfSuffix(s: string, n: nat, m: nat)
    requires n <= |s| && m == TrailingSpaces(s[n..])
    ensures n + m <= |s|
    ensures forall k :: |s| - m <= k < |s| ==> IsJsSpace(s[k])
    ensures n + m < |s| ==> !IsJsSpace(s[|s| - 1 - m])
  {
    forall k | |s| - m <= k < |s|
      ensures IsJsSpace(s[k])
    {
      assert s[k] == s[n..][k - n];
    }
    if n + m < |s| {
      assert s[|s| - 1 - m] == s[n..][|s| - n - 1 - m];
    }
  }

  lemma TrimOfTrimmed(s: string)
    requires IsTrimmed(s)
    ensures Trim(s) == s
  {
    assert TrimStart(s) == s;
  }

  lemma TrimIdempotent(s: string)
    ensures Trim(Trim(s)) == Trim(s)
  {
    TrimOfTrimmed(Trim(s));
  }

  lemma TrimLeadingSpace(s: string)
    requires IsTrimmed(s)
    ensures Trim(" " + s) == s
  {
    var t := " " + s;
    assert t[1..] == s;
    TrimStartSpace(t);
    TrimOfTrimmed(s);
  }

  lemma TrimStartSpace(t: string)
    requires t != [] && t[0] == ' '
    ensures Trim(t) == Trim(t[1..])
  {
    assert IsJsSpace(t[0]);
    assert TrimStart(t) == TrimStart(t[1..]);
  }

  lemma TrimTrailingSpace(s: string)
    requires IsTrimmed(s)
    ensures Trim(s + " ") == s
  {
    var t := s + " ";
    assert t[..|t| - 1] == s;
    if s == [] {
      assert TrimStart(t) == TrimStart(t[1..]);
    } else {
      assert t[0] == s[0];
      assert TrimStart(t) == t;
      assert TrimEnd(t) == TrimEnd(s);
    }
  }

  /** One space before or after a trimmed string is dropped again. */
  lemma TrimOneSpace(s: string)
    requires IsTrimmed(s)
    ensures Trim(" " + s) == s && Trim(s + " ") == s
  {
    TrimLeadingSpace(s);
    TrimTrailingSpace(s);
  }

  /** A string that starts and ends with a non-space character keeps its
      leading and trailing characters under `trim`. */
  lemma TrimKeepsEnds(s: string)
    requires s != [] && !IsJsSpace(s[0])
    ensures Trim(s) == TrimEnd(s) && Trim(s) != [] && Trim(s)[0] == s[0]
  {
  }

  // ---------------------------------------------------------------------------
  // ASCII case mapping (`toLowerCase` / `toUpperCase` restricted to ASCII)

  function LowerChar(c: char): char {
    if 'A' <= c <= 'Z' then (c as int + 32) as char else c
  }

  function UpperChar(c: char): char {
    if 'a' <= c <= 'z' then (c as int - 32) as char else c
  }

  function Lower(s: string): (r: string)
    ensures |r| == |s| && forall i :: 0 <= i < |s| ==> r[i] == LowerChar(s[i])
  {
    seq(|s|, i requires 0 <= i < |s| => LowerChar(s[i]))
  }

  function Upper(s: string): (r: string)
    ensures |r| == |s| && forall i :: 0 <= i < |s| ==> r[i] == UpperChar(s[i])
  {
    seq(|s|, i requires 0 <= i < |s| => UpperChar(s[i]))
  }

  predicate IsLowerCase(s: string) {
    forall i :: 0 <= i < |s| ==> !('A' <= s[i] <= 'Z')
  }

  lemma LowerOfLowerCase(s: string)
    requires IsLowerCase(s)
    ensures Lower(s) == s
  {
  }

  // ---------------------------------------------------------------------------
  // Decimal rendering of integers (JavaScript's `String(n)` for integral n)

  predicate IsDigit(c: char) { '0' <= c <= '9' }

  predicate AllDigits(s: string) { forall i :: 0 <= i < |s| ==> IsDigit(s[i]) }

  function DigitChar(d: nat): (c: char)
    requires d < 10
    ensures IsDigit(c) && c as int - '0' as int == d
  {
    ('0' as int + d) as char
  }

  function NatToString(n: nat): (r: string)
    ensures r != [] && AllDigits(r)
    ensures n > 0 ==> r[0] != '0'
    decreases n
  {
    if n < 10 then [DigitChar(n)] else NatToString(n / 10) + [DigitChar(n % 10)]
  }

  function IntToString(i: int): (r: string)
    ensures r != []
  {
    if i < 0 then "-" + NatToString(-i) else NatToString(i)
  }

  /** The value of a string of decimal digits, most significant first. */
  function DigitsValue(s: string): nat
    requires AllDigits(s)
  {
    if s == [] then 0 else DigitsValue(s[..|s| - 1]) * 10 + (s[|s| - 1] as int - '0' as int)
  }

  /** Reading back what `NatToString` wrote gives the number again. */
  lemma {:induction false} NatToStringRoundTrip(n: nat)
    ensures DigitsValue(NatToString(n)) == n
    decreases n
  {
    if n >= 10 {
      NatToStringRoundTrip(n / 10);
      var s := NatToString(n);
      assert s[..|s| - 1] == NatToString(n / 10);
    }
  }

  lemma NatToStringInjective(m: nat, n: nat)
    requires NatToString(m) == NatToString(n)
    ensures m == n
  {
    NatToStringRoundTrip(m);
    NatToStringRoundTrip(n);
  }

  // ---------------------------------------------------------------------------
  // Joining and splitting

  /** `parts.join(sep)`. */
  function Join(parts: seq<string>, sep: string): string {
    if parts == [] then ""
    else if |parts| == 1 then parts[0]
    else parts[0] + sep + Join(parts[1..], sep)
  }

  /** `s.split(c)` for a one-character separator: the maximal pieces between
      occurrences of `c`, always at least one. */
  function SplitOn(s: string, c: char): (r: seq<string>)
    ensures |r| >= 1
    ensures forall k :: 0 <= k < |r| ==> c !in r[k]
    decreases |s|
  {
    match IndexOf(s, c)
    case None => [s]
    case Some(k) => [s[..k]] + SplitOn(s[k + 1..], c)
  }

  /** Splitting and re-joining with the same separator gives back the input. */
  lemma {:induction false} SplitJoinRoundTrip(s: string, c: char)
    ensures Join(SplitOn(s, c), [c]) == s
    decreases |s|
  {
    match IndexOf(s, c)
    case None =>
    case Some(k) =>
      SplitJoinRoundTrip(s[k + 1..], c);
      var rest := SplitOn(s[k + 1..], c);
      assert SplitOn(s, c) == [s[..k]] + rest;
      assert Join(SplitOn(s, c), [c]) == s[..k] + [c] + Join(rest, [c]);
      assert s == s[..k] + [c] + s[k + 1..];
  }

  lemma SplitOnAbsent(s: string, c: char)
    requires c !in s
    ensures SplitOn(s, c) == [s]
  {
  }

  lemma SplitOnFirst(a: string, c: char, b: string)
    requires c !in a
    ensures SplitOn(a + [c] + b, c) == [a] + SplitOn(b, c)
  {
    var s := a + [c] + b;
    assert s[|a|] == c;
    assert s[..|a|] == a && s[|a| + 1..] == b;
  }

  /** Joining pieces that do not contain the separator and splitting again
      gives back the pieces. */
  lemma {:induction false} JoinSplitRoundTrip(xs: seq<string>, c: char)
    requires |xs| >= 1
    requires forall k :: 0 <= k < |xs| ==> c !in xs[k]
    ensures SplitOn(Join(xs, [c]), c) == xs
  {
    if |xs| == 1 {
      SplitOnAbsent(xs[0], c);
    } else {
      JoinSplitRoundTrip(xs[1..], c);
      SplitOnFirst(xs[0], c, Join(xs[1..], [c]));
      assert [xs[0]] + xs[1..] == xs;
    }
  }

  /** `xs.filter(Boolean)` on strings: the non-empty ones, in order. */
  function NonEmpty(xs: seq<string>): (r: seq<string>)
    ensures |r| <= |xs|
    ensures forall k :: 0 <= k < |r| ==> r[k] != [] && r[k] in xs
    ensures forall k :: 0 <= k < |xs| && xs[k] != [] ==> xs[k] in r
  {
    if xs == [] then []
    else if xs[0] == [] then NonEmpty(xs[1..])
    else [xs[0]] + NonEmpty(xs[1..])
  }

  /** Filtering keeps the order: the kept entries of a concatenation are
      those of the first part followed by those of the second. */
  lemma {:induction false} NonEmptyAppend(a: seq<string>, b: seq<string>)
    ensures NonEmpty(a + b) == NonEmpty(a) + NonEmpty(b)
  {
    if a == [] {
      assert a + b == b;
    } else {
      var x, t := a[0], a[1..];
      NonEmptyAppend(t, b);
      assert a == [x] + t;
      AppendAssoc([x], t, b);
      NonEmptyCons(x, t);
      NonEmptyCons(x, t + b);
      if x != [] {
        AppendAssoc([x], NonEmpty(t), NonEmpty(b));
      }
    }
  }

  lemma AppendAssoc<T>(a: seq<T>, b: seq<T>, c: seq<T>)
    ensures a + (b + c) == (a + b) + c
  {
  }

  lemma NonEmptyCons(x: string, t: seq<string>)
    ensures NonEmpty([x] + t) == if x == [] then NonEmpty(t) else [x] + NonEmpty(t)
  {
    assert ([x] + t)[1..] == t;
  }

}
