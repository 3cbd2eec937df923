/** A cached response in bytes: what it was, then the body, which a digest in the former guards. */
module Entry {
  import opened Base
  import opened Headers

  const MAGIC: Bytes := [0x43, 0x49, 0x43, 0x48]

  const HOP_BY_HOP: seq<string> := [
    "connection", "keep-alive", "proxy-authenticate", "proxy-authorization", "proxy-connection", "te", "trailer",
    "transfer-encoding", "upgrade"]

  datatype Header = Header(url: string, status: nat, headers: seq<(string, string)>, sha256: string, storedAt: nat)

  datatype Entry = Entry(header: Header, body: Bytes)

  /** What the libraries supply: a printer and a parser of header records, and a digest in hex. */
  datatype Codec = Codec(write: Header -> Bytes, parse: Bytes -> Option<Header>, digest: Bytes -> string)

  /** The one law used of the printer and the parser, of the header at hand. */
  predicate Readable(c: Codec, h: Header) {
    c.parse(c.write(h)) == Some(h) && |c.write(h)| < 0x1_0000_0000
  }

  predicate HopByHop(name: Name) { name in HOP_BY_HOP }

  /** The headers an entry records: those of the payload whose value is text. */
  function Recorded(headers: HeaderMap): (list: seq<(string, string)>)
    ensures |list| <= |headers|
  {
    if headers == [] then []
    else
      var (name, value) := headers[0];
      (if HopByHop(name) || ToText(value) == None then [] else [(name, ToText(value).value)]) + Recorded(headers[1..])
  }

  function New(c: Codec, url: string, status: nat, headers: HeaderMap, body: Bytes, now: nat): Entry {
    Entry(Header(url, status, Recorded(headers), c.digest(body), now), body)
  }

  // -- wire format ----------------------------------------------------------------------------

  function Encoded(c: Codec, e: Entry): Bytes {
    var header := c.write(e.header);
    MAGIC + Le(|header|, 4) + header + e.body
  }

  method Encode(c: Codec, e: Entry) returns (out: Bytes)
    ensures out == Encoded(c, e)
  {
    var header := c.write(e.header);
    out := [];
    out := out + MAGIC;
    out := out + Le(|header|, 4);
    out := out + header;
    out := out + e.body;
  }

  /** Reads an entry and checks its body against the recorded digest. */
  function Decoded(c: Codec, raw: Bytes): Option<Entry> {
    if |raw| < 8 || raw[..4] != MAGIC then None
    else
      var bodyStart := 8 + FromLe(raw[4..8]);
      if |raw| < bodyStart then None
      else
        match c.parse(raw[8..bodyStart])
        case None => None
        case Some(header) =>
          var body := raw[bodyStart..];
          if c.digest(body) != header.sha256 then None else Some(Entry(header, body))
  }

  lemma Parts(lead: Bytes, header: Bytes, body: Bytes)
    requires |lead| == 4
    ensures var raw := MAGIC + lead + header + body;
      && raw[..4] == MAGIC && raw[4..8] == lead && raw[8..8 + |header|] == header && raw[8 + |header|..] == body
  {
  }

  /** Whatever stands after an entry's header is accepted exactly when it has the recorded digest;
      and nothing shorter than the header is an entry. */
  lemma BodyIsGuarded(c: Codec, h: Header, body: Bytes)
    requires Readable(c, h)
    ensures Decoded(c, Encoded(c, Entry(h, body))) ==
      if c.digest(body) == h.sha256 then Some(Entry(h, body)) else None
  {
    var header := c.write(h);
    Widths();
    LeRoundTrip(|header|, 4);
    hide FromLe, Le;
    Parts(Le(|header|, 4), header, body);
  }

  /** What was written is what is read, for every entry built from a response: its URL and status, its
      headers as recorded, the digest of its body, the time, and the body. */
  lemma RoundTrip(c: Codec, url: string, status: nat, headers: HeaderMap, body: Bytes, now: nat)
    requires Readable(c, New(c, url, status, headers, body, now).header)
    ensures Decoded(c, Encoded(c, New(c, url, status, headers, body, now)))
      == Some(Entry(Header(url, status, Recorded(headers), c.digest(body), now), body))
  {
    BodyIsGuarded(c, New(c, url, status, headers, body, now).header, body);
  }

  /** A cut anywhere is noticed: in the header always, in the body unless what is left of it has the
      digest of the whole. */
  lemma TruncationIsRejected(c: Codec, e: Entry, n: nat)
    requires Readable(c, e.header) && n < |Encoded(c, e)|
    ensures var start := 8 + |c.write(e.header)|;
      Decoded(c, Encoded(c, e)[..n]).Some? <==> n >= start && c.digest(e.body[..n - start]) == e.header.sha256
  {
    var header, raw := c.write(e.header), Encoded(c, e);
    Widths();
    LeRoundTrip(|header|, 4);
    hide FromLe, Le;
    Parts(Le(|header|, 4), header, e.body);
    if n >= 8 + |header| {
      var body := e.body[..n - 8 - |header|];
      assert raw[..n] == Encoded(c, Entry(e.header, body));
      BodyIsGuarded(c, e.header, body);
    } else if n >= 8 {
      assert raw[..n][4..8] == raw[4..8];
    }
  }

  /** Bytes added at the end are noticed unless the longer body has the same digest. */
  lemma ExtensionIsRejected(c: Codec, e: Entry, more: Bytes)
    requires Readable(c, e.header) && more != []
    ensures Decoded(c, Encoded(c, e) + more).Some? <==> c.digest(e.body + more) == e.header.sha256
  {
    hide Le;
    var header := c.write(e.header);
    assert Encoded(c, e) + more == MAGIC + Le(|header|, 4) + header + (e.body + more);
    BodyIsGuarded(c, e.header, e.body + more);
  }

  /** Nothing is served under a digest its body does not have, whatever the bytes came from. */
  lemma ServedBodiesMatch(c: Codec, raw: Bytes)
    requires Decoded(c, raw).Some?
    ensures var e := Decoded(c, raw).value;
      && c.digest(e.body) == e.header.sha256
      && e.body <= raw[|raw| - |e.body|..]
      && exists text: Bytes :: c.parse(text) == Some(e.header) && raw == MAGIC + Le(|text|, 4) + text + e.body
  {
    var bodyStart := 8 + FromLe(raw[4..8]);
    var text, e := raw[8..bodyStart], Decoded(c, raw).value;
    LeCanonical(raw[4..8]);
    assert Le(|text|, 4) == raw[4..8];
    assert raw == raw[..4] + raw[4..8] + text + e.body;
  }

  // -- replaying headers ----------------------------------------------------------------------

  /** One recorded header as it is put back; dropped when it cannot be one. */
  function Restored(list: seq<(string, string)>): HeaderMap {
    if list == [] then []
    else
      var (name, value) := list[0];
      (match (ParseName(name), FromText(value))
       case (Some(n), Some(v)) => [(n, v)]
       case _ => []) + Restored(list[1..])
  }

  lemma {:induction false} RestoredAppend(list: seq<(string, string)>, e: (string, string))
    ensures Restored(list + [e]) == Restored(list) + Restored([e])
  {
    hide ParseName, FromText;
    if list == [] {
      assert list + [e] == [e];
    } else {
      assert (list + [e])[1..] == list[1..] + [e];
      RestoredAppend(list[1..], e);
    }
  }

  method ToHeaderMap(list: seq<(string, string)>) returns (headers: HeaderMap)
    ensures headers == Restored(list)
  {
    hide ParseName, FromText;
    headers := [];
    for i := 0 to |list|
      invariant headers == Restored(list[..i])
    {
      assert list[..i + 1] == list[..i] + [list[i]];
      RestoredAppend(list[..i], list[i]);
      var name, value := ParseName(list[i].0), FromText(list[i].1);
      if name.Some? && value.Some? {
        headers := Append(headers, name.value, value.value);
      }
    }
    assert list[..|list|] == list;
  }

  function OnlyText(values: seq<Bytes>): seq<Bytes> {
    if values == [] then [] else (if IsText(values[0]) then [values[0]] else []) + OnlyText(values[1..])
  }

  /** Recording and restoring keeps, under every name of the payload, the values that are text, in
      their order, and nothing else. */
  lemma {:induction false} ReplayedValues(headers: HeaderMap, name: Name)
    requires WellNamed(headers)
    ensures Values(Restored(Recorded(headers)), name) == if HopByHop(name) then [] else OnlyText(Values(headers, name))
  {
    hide HopByHop, IsText, ParseName, FromText, ToText;
    if headers != [] {
      var (n, v) := headers[0];
      var rest := headers[1..];
      assert headers[0] in headers;
      ReplayedValues(rest, name);
      OneReplayed(n, v);
      RestoredCons(headers);
      ValuesConcat(Restored(Recorded([headers[0]])), Restored(Recorded(rest)), name);
      OnlyTextCons(headers, name);
    }
  }

  lemma OneReplayed(n: Name, v: Bytes)
    requires ParseName(n) == Some(n)
    ensures Restored(Recorded([(n, v)])) == if !HopByHop(n) && IsText(v) then [(n, v)] else []
  {
    hide ParseName, HopByHop;
    var one := [(n, v)];
    assert one[1..] == [] && Recorded(one[1..]) == [];
    if IsText(v) {
      TextRoundTrip(v);
      if !HopByHop(n) {
        assert Recorded([(n, v)]) == [(n, ToText(v).value)];
      }
    }
  }

  lemma {:induction false} RestoredConcat(a: seq<(string, string)>, b: seq<(string, string)>)
    ensures Restored(a + b) == Restored(a) + Restored(b)
  {
    hide ParseName, FromText;
    if a == [] {
      assert a + b == b;
    } else {
      assert (a + b)[1..] == a[1..] + b;
      RestoredConcat(a[1..], b);
    }
  }

  lemma RestoredCons(headers: HeaderMap)
    requires headers != []
    ensures Restored(Recorded(headers)) == Restored(Recorded([headers[0]])) + Restored(Recorded(headers[1..]))
  {
    hide ParseName, FromText, ToText, HopByHop;
    var one := [headers[0]];
    assert one[1..] == [] && Recorded(one[1..]) == [];
    assert Recorded(headers) == Recorded([headers[0]]) + Recorded(headers[1..]);
    RestoredConcat(Recorded([headers[0]]), Recorded(headers[1..]));
  }

  lemma OnlyTextCons(headers: HeaderMap, name: Name)
    requires headers != []
    ensures OnlyText(Values(headers, name)) ==
      (if headers[0].0 == name && IsText(headers[0].1) then [headers[0].1] else []) + OnlyText(Values(headers[1..], name))
  {
    hide IsText;
    if headers[0].0 == name {
      assert Values(headers, name)[1..] == Values(headers[1..], name);
    } else {
      assert Values(headers, name) == Values(headers[1..], name);
    }
  }

  lemma {:induction false} OnlyTextIsAll(values: seq<Bytes>)
    ensures OnlyText(values) == values <==> forall v | v in values :: IsText(v)
    ensures forall v | v in OnlyText(values) :: IsText(v)
  {
    hide IsText;
    if values != [] {
      OnlyTextIsAll(values[1..]);
      if !IsText(values[0]) {
        assert |OnlyText(values[1..])| < |values| by { OnlyTextShort(values[1..]); }
      } else {
        assert OnlyText(values)[1..] == OnlyText(values[1..]);
      }
    }
  }

  lemma {:induction false} OnlyTextShort(values: seq<Bytes>)
    ensures |OnlyText(values)| <= |values|
  {
    if values != [] {
      OnlyTextShort(values[1..]);
    }
  }
}
