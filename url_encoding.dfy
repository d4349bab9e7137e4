/** The `urlencode` template filter, which for a string is JavaScript's
    `encodeURIComponent`: the unreserved characters of RFC 3986 together with
    `! ~ * ' ( )` are kept, every other character is written as the UTF-8
    bytes of its code point, each as `%` followed by two upper-case hex
    digits. `UrlDecode` is the inverse (`decodeURIComponent`) and the two
    form a round trip. */
module UrlEncoding {
  import opened Text

  predicate IsUnreserved(c: char) {
    || ('a' <= c <= 'z') || ('A' <= c <= 'Z') || ('0' <= c <= '9')
    || c == '-' || c == '_' || c == '.' || c == '!' || c == '~' || c == '*'
    || c == '\'' || c == '(' || c == ')'
  }

  predicate IsByte(b: int) { 0 <= b < 256 }

  /** The UTF-8 encoding of a Unicode scalar value (section 3 of RFC 3629). */
  function Utf8(c: char): (bytes: seq<int>)
    ensures 1 <= |bytes| <= 4
    ensures forall k :: 0 <= k < |bytes| ==> IsByte(bytes[k])
  {
    var cp := c as int;
    if cp < 0x80 then [cp]
    else if cp < 0x800 then [0xC0 + cp / 64, 0x80 + cp % 64]
    else if cp < 0x10000 then [0xE0 + cp / 4096, 0x80 + (cp / 64) % 64, 0x80 + cp % 64]
    else [0xF0 + cp / 262144, 0x80 + (cp / 4096) % 64, 0x80 + (cp / 64) % 64, 0x80 + cp % 64]
  }

  function HexDigit(d: int): char
    requires 0 <= d < 16
  {
    "0123456789ABCDEF"[d]
  }

  function PercentBytes(bytes: seq<int>): (r: string)
    requires forall k :: 0 <= k < |bytes| ==> IsByte(bytes[k])
    ensures |r| == 3 * |bytes|
  {
    if bytes == [] then []
    else
      assert IsByte(bytes[0]);
      ['%', HexDigit(bytes[0] / 16), HexDigit(bytes[0] % 16)] + PercentBytes(bytes[1..])
  }

  function EncodeChar(c: char): string {
    if IsUnreserved(c) then [c] else PercentBytes(Utf8(c))
  }

  /** `encodeURIComponent(s)`. */
  function UrlEncode(s: string): string {
    if s == [] then [] else EncodeChar(s[0]) + UrlEncode(s[1..])
  }

  // ---------------------------------------------------------------------------
  // Decoding

  function HexValue(c: char): Option<int> {
    if '0' <= c <= '9' then Some(c as int - '0' as int)
    else if 'A' <= c <= 'F' then Some(c as int - 'A' as int + 10)
    else if 'a' <= c <= 'f' then Some(c as int - 'a' as int + 10)
    else None
  }

  /** The byte written as `%XY` at position `3 * k` of `t`, if there is one. */
  function ByteAt(t: string, k: nat): (r: Option<int>)
    ensures r.Some? ==> IsByte(r.value) && 3 * k + 3 <= |t|
  {
    if 3 * k + 3 <= |t| && t[3 * k] == '%' then
      match (HexValue(t[3 * k + 1]), HexValue(t[3 * k + 2]))
      case (Some(h), Some(l)) => Some(h * 16 + l)
      case _ => None
    else None
  }

  /** The length of the UTF-8 sequence a leading byte announces. */
  function SequenceLength(b0: int): (n: int)
    ensures 0 <= n <= 4
  {
    if b0 < 0x80 then 1
    else if 0xC0 <= b0 < 0xE0 then 2
    else if 0xE0 <= b0 < 0xF0 then 3
    else if 0xF0 <= b0 < 0xF8 then 4
    else 0
  }

  predicate IsContinuation(b: Option<int>) {
    b.Some? && 0x80 <= b.value < 0xC0
  }

  predicate IsScalarValue(cp: int) {
    (0 <= cp < 0xD800) || (0xE000 <= cp < 0x11_0000)
  }

  /** Decodes the UTF-8 sequence announced by leading byte `b0` at the start
      of `t`. */
  function DecodeSequence(t: string, b0: int): (r: Option<char>)
    requires IsByte(b0)
  {
    var n := SequenceLength(b0);
    if n == 0 || (n >= 2 && !IsContinuation(ByteAt(t, 1)))
       || (n >= 3 && !IsContinuation(ByteAt(t, 2))) || (n == 4 && !IsContinuation(ByteAt(t, 3)))
    then None
    else
      var cp :=
        if n == 1 then b0
        else if n == 2 then (b0 - 0xC0) * 64 + (ByteAt(t, 1).value - 0x80)
        else if n == 3 then ((b0 - 0xE0) * 64 + (ByteAt(t, 1).value - 0x80)) * 64 + (ByteAt(t, 2).value - 0x80)
        else (((b0 - 0xF0) * 64 + (ByteAt(t, 1).value - 0x80)) * 64 + (ByteAt(t, 2).value - 0x80)) * 64
             + (ByteAt(t, 3).value - 0x80);
      if IsScalarValue(cp) then Some(cp as char) else None
  }

  /** `decodeURIComponent(t)`; `None` where that throws. */
  function UrlDecode(t: string): Option<string>
    decreases |t|
  {
    if t == [] then Some([])
    else if t[0] != '%' then
      match UrlDecode(t[1..])
      case None => None
      case Some(r) => Some([t[0]] + r)
    else
      match ByteAt(t, 0)
      case None => None
      case Some(b0) =>
        match DecodeSequence(t, b0)
        case None => None
        case Some(c) =>
          var n := SequenceLength(b0);
          match UrlDecode(t[3 * n..])
          case None => None
          case Some(r) => Some([c] + r)
  }

  // ---------------------------------------------------------------------------
  // Round trip

  lemma HexDigitValue(d: int)
    requires 0 <= d < 16
    ensures HexValue(HexDigit(d)) == Some(d)
  {
  }

  /** Three characters in front shift the byte positions by one. */
  lemma ByteAtShift(p: string, t: string, k: nat)
    requires |p| == 3 && k >= 1
    ensures ByteAt(p + t, k) == ByteAt(t, k - 1)
  {
    var j := 3 * (k - 1);
    assert 3 * k == j + 3;
    var u := p + t;
    if j + 3 <= |t| {
      assert u[j + 3] == t[j] && u[j + 4] == t[j + 1] && u[j + 5] == t[j + 2];
    }
  }

  /** The bytes written by `PercentBytes` are read back by `ByteAt`. */
  lemma {:induction false} PercentBytesRead(bytes: seq<int>, rest: string, k: nat)
    requires forall i :: 0 <= i < |bytes| ==> IsByte(bytes[i])
    requires k < |bytes|
    ensures ByteAt(PercentBytes(bytes) + rest, k) == Some(bytes[k])
  {
    var b := bytes[0];
    var head := ['%', HexDigit(b / 16), HexDigit(b % 16)];
    var t' := PercentBytes(bytes[1..]) + rest;
    assert PercentBytes(bytes) + rest == head + t';
    if k == 0 {
      HexDigitValue(b / 16);
      HexDigitValue(b % 16);
      assert (head + t')[0] == '%';
      assert (head + t')[1] == HexDigit(b / 16) && (head + t')[2] == HexDigit(b % 16);
    } else {
      PercentBytesRead(bytes[1..], rest, k - 1);
      ByteAtShift(head, t', k);
    }
  }

  lemma SplitDigit(x: int)
    requires 0 <= x
    ensures x == (x / 64) * 64 + x % 64 && 0 <= x % 64 < 64
    ensures x / 4096 == (x / 64) / 64
  {
  }

  lemma DecodeTwoBytes(t: string, c: char)
    requires 0x80 <= c as int < 0x800
    requires ByteAt(t, 1) == Some(0x80 + c as int % 64)
    ensures DecodeSequence(t, 0xC0 + c as int / 64) == Some(c)
  {
    SplitDigit(c as int);
  }

  lemma DecodeThreeBytes(t: string, c: char)
    requires 0x800 <= c as int < 0x10000
    requires ByteAt(t, 1) == Some(0x80 + (c as int / 64) % 64)
    requires ByteAt(t, 2) == Some(0x80 + c as int % 64)
    ensures DecodeSequence(t, 0xE0 + c as int / 4096) == Some(c)
  {
    var cp := c as int;
    var q := cp / 64;
    SplitDigit(cp);
    SplitDigit(q);
    var b0 := 0xE0 + q / 64;
    assert SequenceLength(b0) == 3;
    assert ((b0 - 0xE0) * 64 + (ByteAt(t, 1).value - 0x80)) * 64 + (ByteAt(t, 2).value - 0x80) == cp;
  }

  lemma DecodeFourBytes(t: string, c: char)
    requires 0x10000 <= c as int
    requires ByteAt(t, 1) == Some(0x80 + (c as int / 4096) % 64)
    requires ByteAt(t, 2) == Some(0x80 + (c as int / 64) % 64)
    requires ByteAt(t, 3) == Some(0x80 + c as int % 64)
    ensures DecodeSequence(t, 0xF0 + c as int / 262144) == Some(c)
  {
    var cp := c as int;
    assert cp < 0x11_0000;
    var q := cp / 64;
    var q2 := q / 64;
    SplitDigit(cp);
    SplitDigit(q);
    SplitDigit(q2);
    assert cp / 262144 == q2 / 64 by {
      SplitDigit(cp / 64);
    }
    var b0 := 0xF0 + q2 / 64;
    assert SequenceLength(b0) == 4;
    assert (((b0 - 0xF0) * 64 + (ByteAt(t, 1).value - 0x80)) * 64 + (ByteAt(t, 2).value - 0x80)) * 64
      + (ByteAt(t, 3).value - 0x80) == cp;
  }

  /** The leading byte of a character's UTF-8 encoding announces its length,
      and the announced sequence decodes to the character. */
  lemma Utf8Decodes(c: char, t: string)
    requires forall k :: 0 <= k < |Utf8(c)| ==> ByteAt(t, k) == Some(Utf8(c)[k])
    ensures SequenceLength(Utf8(c)[0]) == |Utf8(c)|
    ensures DecodeSequence(t, Utf8(c)[0]) == Some(c)
  {
    var cp := c as int;
    var bytes := Utf8(c);
    if cp < 0x80 {
    } else if cp < 0x800 {
      assert ByteAt(t, 1) == Some(bytes[1]);
      DecodeTwoBytes(t, c);
    } else if cp < 0x10000 {
      assert ByteAt(t, 1) == Some(bytes[1]);
      assert ByteAt(t, 2) == Some(bytes[2]);
      DecodeThreeBytes(t, c);
    } else {
      assert ByteAt(t, 1) == Some(bytes[1]);
      assert ByteAt(t, 2) == Some(bytes[2]);
      assert ByteAt(t, 3) == Some(bytes[3]);
      DecodeFourBytes(t, c);
    }
  }

  /** Decoding the encoding of one character, followed by anything, yields
      that character and then the decoding of what follows. */
  lemma DecodeEncodedChar(c: char, rest: string)
    ensures UrlDecode(EncodeChar(c) + rest) ==
      match UrlDecode(rest)
      case None => None
      case Some(r) => Some([c] + r)
  {
    var t := EncodeChar(c) + rest;
    if IsUnreserved(c) {
      assert t[1..] == rest;
    } else {
      var bytes := Utf8(c);
      forall k | 0 <= k < |bytes| ensures ByteAt(t, k) == Some(bytes[k]) {
        PercentBytesRead(bytes, rest, k);
      }
      Utf8Decodes(c, t);
      assert t[3 * |bytes|..] == rest;
    }
  }

  /** `decodeURIComponent(encodeURIComponent(s)) == s`. */
  lemma {:induction false} UrlRoundTrip(s: string)
    ensures UrlDecode(UrlEncode(s)) == Some(s)
  {
    if s != [] {
      UrlRoundTrip(s[1..]);
      DecodeEncodedChar(s[0], UrlEncode(s[1..]));
      assert [s[0]] + s[1..] == s;
    }
  }

  /** A string made of unreserved characters is left as it is. */
  lemma {:induction false} UnreservedKept(s: string)
    requires forall i :: 0 <= i < |s| ==> IsUnreserved(s[i])
    ensures UrlEncode(s) == s
  {
    if s != [] {
      UnreservedKept(s[1..]);
      assert [s[0]] + s[1..] == s;
    }
  }

  /** Encoding works character by character, so it distributes over
      concatenation. */
  lemma {:induction false} UrlEncodeAppend(a: string, b: string)
    ensures UrlEncode(a + b) == UrlEncode(a) + UrlEncode(b)
  {
    if a == [] {
      assert a + b == b;
    } else {
      assert (a + b)[0] == a[0] && (a + b)[1..] == a[1..] + b;
      calc {
        UrlEncode(a + b);
        EncodeChar(a[0]) + UrlEncode(a[1..] + b);
        { UrlEncodeAppend(a[1..], b); }
        EncodeChar(a[0]) + (UrlEncode(a[1..]) + UrlEncode(b));
        UrlEncode(a) + UrlEncode(b);
      }
    }
  }

  /** A space is written `%20`. */
  lemma SpaceEncoding()
    ensures EncodeChar(' ') == "%20"
  {
  }
}
