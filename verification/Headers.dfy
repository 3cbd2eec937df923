/** HTTP header maps: names in lower case, each with its values in order. */
module Headers {
  import opened Base
  import Ascii

  type Name = string

  /** Only the order of values under one name means anything. */
  type HeaderMap = seq<(Name, Bytes)>

  function Values(h: HeaderMap, name: Name): seq<Bytes> {
    if h == [] then []
    else (if h[0].0 == name then [h[0].1] else []) + Values(h[1..], name)
  }

  predicate Has(h: HeaderMap, name: Name) { Values(h, name) != [] }

  function Append(h: HeaderMap, name: Name, value: Bytes): HeaderMap { h + [(name, value)] }

  function Remove(h: HeaderMap, name: Name): HeaderMap {
    if h == [] then [] else (if h[0].0 == name then [] else [h[0]]) + Remove(h[1..], name)
  }

  /** Replaces whatever is under the name. */
  function Insert(h: HeaderMap, name: Name, value: Bytes): HeaderMap { Append(Remove(h, name), name, value) }

  lemma {:induction false} ValuesConcat(a: HeaderMap, b: HeaderMap, name: Name)
    ensures Values(a + b, name) == Values(a, name) + Values(b, name)
  {
    if a == [] {
      assert a + b == b;
    } else {
      assert (a + b)[1..] == a[1..] + b;
      ValuesConcat(a[1..], b, name);
    }
  }

  lemma ValuesAppend(h: HeaderMap, name: Name, value: Bytes, other: Name)
    ensures Values(Append(h, name, value), other) == Values(h, other) + if other == name then [value] else []
  {
    ValuesConcat(h, [(name, value)], other);
  }

  lemma {:induction false} ValuesRemove(h: HeaderMap, name: Name, other: Name)
    ensures Values(Remove(h, name), other) == if other == name then [] else Values(h, other)
  {
    if h != [] {
      ValuesRemove(h[1..], name, other);
      ValuesConcat(if h[0].0 == name then [] else [h[0]], Remove(h[1..], name), other);
    }
  }

  lemma ValuesInsert(h: HeaderMap, name: Name, value: Bytes, other: Name)
    ensures Values(Insert(h, name, value), other) == if other == name then [value] else Values(h, other)
  {
    ValuesRemove(h, name, other);
    ValuesAppend(Remove(h, name), name, value, other);
  }

  // -- names and values as text ---------------------------------------------------------------

  /** A byte a header value may show as text: visible ASCII, a space or a tab. */
  predicate Visible(b: Byte) { 32 <= b < 127 || b == 9 }

  predicate IsText(v: Bytes) { forall b | b in v :: Visible(b) }

  function ToText(v: Bytes): (r: Option<string>)
    ensures r.Some? <==> IsText(v)
    ensures r.Some? ==> |r.value| == |v| && forall i | 0 <= i < |v| :: r.value[i] as int == v[i]
  {
    if IsText(v) then Some(seq(|v|, i requires 0 <= i < |v| => v[i] as char)) else None
  }

  function OneByte(c: char): (b: Byte)
    ensures c as int < 256 ==> b == c as int
  {
    c as int % 256
  }

  predicate Printable(s: string) { forall c | c in s :: 32 <= c as int < 127 || c == '\t' }

  function FromText(s: string): (r: Option<Bytes>)
    ensures r.Some? <==> Printable(s)
    ensures r.Some? ==> |r.value| == |s| && forall i | 0 <= i < |s| :: r.value[i] == s[i] as int
  {
    if Printable(s) then
      var bytes: Bytes := seq(|s|, i requires 0 <= i < |s| => OneByte(s[i]));
      assert forall i | 0 <= i < |s| :: s[i] in s && bytes[i] == OneByte(s[i]);
      Some(bytes)
    else None
  }

  lemma TextRoundTrip(v: Bytes)
    requires IsText(v)
    ensures FromText(ToText(v).value) == Some(v)
  {
    var s := ToText(v).value;
    forall c | c in s ensures 32 <= c as int < 127 || c == '\t' {
      var i :| 0 <= i < |s| && s[i] == c;
      assert v[i] in v;
    }
    assert FromText(s).value == v;
  }

  predicate TokenChar(c: char) {
    'a' <= c <= 'z' || 'A' <= c <= 'Z' || '0' <= c <= '9' || c in "!#$%&'*+-.^_`|~"
  }

  /** What can be a header name at all; maps hold the lower-case form. */
  function ParseName(s: string): Option<Name> {
    if 0 < |s| < 65536 && forall c | c in s :: TokenChar(c) then Some(Ascii.Lower(s)) else None
  }

  predicate WellNamed(h: HeaderMap) {
    forall e | e in h :: ParseName(e.0) == Some(e.0)
  }
}
