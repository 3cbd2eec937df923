/** UTF-8, as the library's conversions between strings and byte buffers perform it. */
module Utf8 {
  import opened Base

  predicate Continuation(b: Byte) { 0x80 <= b < 0xC0 }

  function EncodeChar(c: char): (b: Bytes)
    ensures 1 <= |b| <= 4
  {
    var n := c as int;
    if n < 0x80 then [n]
    else if n < 0x800 then [0xC0 + n / 64, 0x80 + n % 64]
    else if n < 0x10000 then [0xE0 + n / 4096, 0x80 + n / 64 % 64, 0x80 + n % 64]
    else [0xF0 + n / 262144, 0x80 + n / 4096 % 64, 0x80 + n / 64 % 64, 0x80 + n % 64]
  }

  /** How many bytes the lead byte announces; 0 when it can start no character. */
  function LeadLength(b: Byte): nat {
    if b < 0x80 then 1
    else if 0xC2 <= b < 0xE0 then 2
    else if 0xE0 <= b < 0xF0 then 3
    else if 0xF0 <= b < 0xF5 then 4
    else 0
  }

  /** Whether `second` may follow `lead`: no overlong form, no surrogate, nothing past U+10FFFF. */
  predicate SecondFits(lead: Byte, second: Byte) {
    Continuation(second)
    && (lead == 0xE0 ==> 0xA0 <= second)
    && (lead == 0xED ==> second < 0xA0)
    && (lead == 0xF0 ==> 0x90 <= second)
    && (lead == 0xF4 ==> second < 0x90)
  }

  /** Length of the well-formed start of one character at the front of b, at least 1. */
  function Intact(b: Bytes): (n: nat)
    requires b != []
    ensures 1 <= n <= |b|
  {
    var want := LeadLength(b[0]);
    if want < 2 || |b| < 2 || !SecondFits(b[0], b[1]) then 1
    else if want < 3 || |b| < 3 || !Continuation(b[2]) then 2
    else if want < 4 || |b| < 4 || !Continuation(b[3]) then 3
    else 4
  }

  /** The code point spelled by a well-formed character. */
  function Scalar(b: Bytes): (n: int)
    requires b != [] && Intact(b) == LeadLength(b[0])
    ensures 0 <= n < 0xD800 || 0xE000 <= n < 0x11_0000
  {
    var b0: int := b[0];
    if |b| == 1 || LeadLength(b[0]) == 1 then b0
    else
      var b1: int := b[1] as int - 0x80;
      if LeadLength(b[0]) == 2 then (b0 - 0xC0) * 64 + b1
      else
        var b2: int := b[2] as int - 0x80;
        if LeadLength(b[0]) == 3 then (b0 - 0xE0) * 4096 + b1 * 64 + b2
        else
          var b3: int := b[3] as int - 0x80;
          (b0 - 0xF0) * 262144 + b1 * 4096 + b2 * 64 + b3
  }

  /** The character at the front of b, if b starts with a whole one. */
  function DecodeChar(b: Bytes): (c: Option<char>)
    requires b != []
  {
    if Intact(b) == LeadLength(b[0]) then Some(Scalar(b) as char) else None
  }

  function Encode(s: string): Bytes {
    if s == [] then [] else EncodeChar(s[0]) + Encode(s[1..])
  }

  /** The strict conversion: every byte must belong to a well-formed character. */
  function Decode(b: Bytes): Option<string> {
    if b == [] then Some([])
    else
      match DecodeChar(b)
      case None => None
      case Some(c) =>
        match Decode(b[Intact(b)..])
        case None => None
        case Some(rest) => Some([c] + rest)
  }

  const REPLACEMENT := 0xFFFD as char

  /** The lossy conversion: each ill-formed stretch becomes one replacement character. */
  function Lossy(b: Bytes): string {
    if b == [] then []
    else
      [match DecodeChar(b) case Some(c) => c case None => REPLACEMENT] + Lossy(b[Intact(b)..])
  }

  lemma CharRoundTrip(c: char, rest: Bytes)
    ensures DecodeChar(EncodeChar(c) + rest) == Some(c)
    ensures Intact(EncodeChar(c) + rest) == |EncodeChar(c)|
  {
    var b, e := EncodeChar(c) + rest, EncodeChar(c);
    assert forall k | 0 <= k < |e| :: b[k] == e[k];
    var n: int := c as int;
    Digits(n);
    if 0x800 <= n < 0x10000 {
      assert SecondFits(b[0], b[1]) && Continuation(b[2]);
    } else if 0x10000 <= n {
      assert SecondFits(b[0], b[1]) && Continuation(b[2]) && Continuation(b[3]);
    }
  }

  /** Base-64 digits of a code point, highest first. */
  lemma Digits(n: int)
    requires 0 <= n < 0x11_0000
    ensures n == n / 64 * 64 + n % 64
    ensures n / 64 == n / 4096 * 64 + n / 64 % 64
    ensures n / 4096 == n / 262144 * 64 + n / 4096 % 64
  {
    assert n / 4096 == n / 64 / 64;
    assert n / 262144 == n / 4096 / 64;
  }

  lemma DigitsUnique(n: int, hi: int, lo: int)
    requires n == hi * 64 + lo && 0 <= lo < 64
    ensures n / 64 == hi && n % 64 == lo
  {
  }

  lemma CharCanonical(b: Bytes)
    requires b != [] && DecodeChar(b).Some?
    ensures EncodeChar(DecodeChar(b).value) == b[..Intact(b)]
  {
    var n := Scalar(b);
    var want := LeadLength(b[0]);
    Digits(n);
    var b0: int := b[0];
    if want == 2 {
      DigitsUnique(n, b0 - 0xC0, b[1] as int - 0x80);
    } else if want == 3 {
      DigitsUnique(n, (b0 - 0xE0) * 64 + (b[1] as int - 0x80), b[2] as int - 0x80);
      DigitsUnique(n / 64, b0 - 0xE0, b[1] as int - 0x80);
      assert n / 4096 == n / 64 / 64;
    } else if want == 4 {
      DigitsUnique(n, (b0 - 0xF0) * 4096 + (b[1] as int - 0x80) * 64 + (b[2] as int - 0x80), b[3] as int - 0x80);
      DigitsUnique(n / 64, (b0 - 0xF0) * 64 + (b[1] as int - 0x80), b[2] as int - 0x80);
      DigitsUnique(n / 4096, b0 - 0xF0, b[1] as int - 0x80);
      assert n / 4096 == n / 64 / 64 && n / 262144 == n / 4096 / 64;
    }
    var e := EncodeChar(n as char);
    assert |e| == want;
    assert forall k | 0 <= k < want :: e[k] == b[k];
  }

  /** A string survives being written as bytes and read back, strictly or leniently. */
  lemma {:induction false} RoundTrip(s: string)
    ensures Decode(Encode(s)) == Some(s)
    ensures Lossy(Encode(s)) == s
  {
    if s == [] {
    } else {
      CharRoundTrip(s[0], Encode(s[1..]));
      assert Encode(s)[|EncodeChar(s[0])|..] == Encode(s[1..]);
      RoundTrip(s[1..]);
      assert s == [s[0]] + s[1..];
    }
  }

  /** Each string has one encoding: bytes that decode are the encoding of what they decode to. */
  lemma {:induction false} Canonical(b: Bytes)
    requires Decode(b).Some?
    ensures Encode(Decode(b).value) == b
  {
    if b == [] {
    } else {
      CharCanonical(b);
      Canonical(b[Intact(b)..]);
      var s := Decode(b).value;
      assert s[1..] == Decode(b[Intact(b)..]).value;
      assert b == b[..Intact(b)] + b[Intact(b)..];
    }
  }
}
