/** The container small objects travel in: a magic number, then length-prefixed records. */
module Pack {
  import opened Base
  import Utf8

  datatype Object = Object(key: string, body: Bytes)

  const MAGIC: Bytes := [0x43, 0x49, 0x43, 0x50]

  // -- specification --------------------------------------------------------------------------

  function Size(o: Object): nat { 4 + |Utf8.Encode(o.key)| + 8 + |o.body| }

  function Total(objects: seq<Object>): nat {
    if objects == [] then 0 else Size(objects[0]) + Total(objects[1..])
  }

  function Record(o: Object): (r: Bytes)
    ensures |r| == Size(o)
  {
    var key := Utf8.Encode(o.key);
    Le(|key|, 4) + key + Le(|o.body|, 8) + o.body
  }

  function Records(objects: seq<Object>): (r: Bytes)
    ensures |r| == Total(objects)
  {
    if objects == [] then [] else Record(objects[0]) + Records(objects[1..])
  }

  /** What a writer with `used` bytes already out keeps: each record in turn, if it still fits. */
  function Kept(objects: seq<Object>, used: nat, max: nat): (kept: seq<Object>)
    ensures |kept| <= |objects|
  {
    if objects == [] then []
    else if used + Size(objects[0]) > max then Kept(objects[1..], used, max)
    else [objects[0]] + Kept(objects[1..], used + Size(objects[0]), max)
  }

  function Encoded(objects: seq<Object>, max: nat): Bytes {
    MAGIC + Records(Kept(objects, |MAGIC|, max))
  }

  /** The record starting at `at`, if a whole and well-formed one is there. */
  function Head(raw: Bytes, at: nat): (o: Option<Object>)
    requires at <= |raw|
    ensures o.Some? ==> at < at + Size(o.value) <= |raw|
  {
    if at + 4 > |raw| then None
    else
      var keyEnd := at + 4 + FromLe(raw[at..at + 4]);
      if keyEnd + 8 > |raw| then None
      else
        match Utf8.Decode(raw[at + 4..keyEnd])
        case None => None
        case Some(key) =>
          var bodyEnd := keyEnd + 8 + FromLe(raw[keyEnd..keyEnd + 8]);
          if bodyEnd > |raw| then None
          else
            Utf8.Canonical(raw[at + 4..keyEnd]);
            Some(Object(key, raw[keyEnd + 8..bodyEnd]))
  }

  function Unpacked(raw: Bytes, at: nat): seq<Object>
    requires at <= |raw|
    decreases |raw| - at
  {
    match Head(raw, at)
    case None => []
    case Some(o) => [o] + Unpacked(raw, at + Size(o))
  }

  function Decoded(raw: Bytes): (objects: Option<seq<Object>>)
  {
    if MAGIC <= raw then Some(Unpacked(raw, |MAGIC|)) else None
  }

  // -- the two algorithms ---------------------------------------------------------------------

  /** Writes the container: each object whose record still fits is appended, the others are passed over. */
  method Encode(objects: seq<Object>, max: nat) returns (out: Bytes)
    ensures out == Encoded(objects, max)
  {
    hide Utf8.Encode, Le;
    out := MAGIC;
    for i := 0 to |objects|
      invariant out + Records(Kept(objects[i..], |out|, max)) == Encoded(objects, max)
    {
      var key := Utf8.Encode(objects[i].key);
      var record := 4 + |key| + 8 + |objects[i].body|;
      ghost var before := out;
      assert objects[i..][1..] == objects[i + 1..];
      if |out| + record > max {
        continue;
      }
      out := out + Le(|key|, 4);
      out := out + key;
      out := out + Le(|objects[i].body|, 8);
      out := out + objects[i].body;
      assert out == before + Record(objects[i]);
    }
    assert objects[|objects|..] == [];
  }

  /** One turn of the cursor: the record at `at`, and where the next one starts. */
  method ReadRecord(raw: Bytes, at: nat) returns (o: Option<Object>, next: nat)
    requires at + 4 <= |raw|
    ensures o == Head(raw, at)
    ensures o.Some? ==> at < next == at + Size(o.value) <= |raw|
  {
    hide FromLe, Utf8.Decode, Utf8.Encode;
    o, next := None, at;
    var keyLen := FromLe(raw[next..next + 4]);
    next := next + 4;
    if next + keyLen + 8 > |raw| {
      return;
    }
    var key := Utf8.Decode(raw[next..next + keyLen]);
    if key == None {
      return;
    }
    Utf8.Canonical(raw[next..next + keyLen]);
    next := next + keyLen;
    var bodyLen := FromLe(raw[next..next + 8]);
    next := next + 8;
    if next + bodyLen > |raw| {
      return;
    }
    o := Some(Object(key.value, raw[next..next + bodyLen]));
    next := next + bodyLen;
  }

  /** A cursor at `at` with `objects` behind it has the rest of the container ahead of it. */
  ghost predicate Reading(raw: Bytes, at: nat, objects: seq<Object>) {
    |MAGIC| <= at <= |raw| && objects + Unpacked(raw, at) == Unpacked(raw, |MAGIC|)
  }

  lemma ReadingOn(raw: Bytes, at: nat, objects: seq<Object>)
    requires Reading(raw, at, objects)
    ensures Head(raw, at) == None ==> objects == Unpacked(raw, |MAGIC|)
    ensures Head(raw, at).Some? ==>
      var o := Head(raw, at).value; Reading(raw, at + Size(o), objects + [o])
  {
    hide Head, Size;
    if Head(raw, at).Some? {
      var o := Head(raw, at).value;
      assert objects + ([o] + Unpacked(raw, at + Size(o))) == objects + [o] + Unpacked(raw, at + Size(o));
    }
  }

  /** The cursor loop over a container: it ends at the first record that is not whole. */
  method Decode(raw: Bytes) returns (result: Option<seq<Object>>)
    ensures result == Decoded(raw)
  {
    if |raw| < |MAGIC| || raw[..|MAGIC|] != MAGIC {
      return None;
    }
    var objects: seq<Object> := [];
    var at := |MAGIC|;
    assert Reading(raw, at, objects);
    hide *;
    while at + 4 <= |raw|
      invariant at <= |raw|
      invariant Reading(raw, at, objects)
      decreases |raw| - at
    {
      ReadingOn(raw, at, objects);
      var o, next := ReadRecord(raw, at);
      if o == None {
        break;
      }
      objects := objects + [o.value];
      at := next;
    }
    Finish(raw, at, objects);
    result := Some(objects);
  }

  lemma Finish(raw: Bytes, at: nat, objects: seq<Object>)
    requires MAGIC <= raw && Reading(raw, at, objects)
    requires at + 4 > |raw| || Head(raw, at) == None
    ensures Decoded(raw) == Some(objects)
  {
    ReadingOn(raw, at, objects);
  }

  // -- round trip -----------------------------------------------------------------------------

  /** Lengths the record header can hold. */
  predicate Narrow(o: Object) {
    |Utf8.Encode(o.key)| < 0x1_0000_0000 && |o.body| < 0x1_0000_0000_0000_0000
  }

  lemma Fields(before: Bytes, a: Bytes, b: Bytes, c: Bytes, d: Bytes, rest: Bytes)
    ensures var raw, n := before + (a + b + c + d) + rest, |before|;
      && raw[n..n + |a|] == a
      && raw[n + |a|..n + |a| + |b|] == b
      && raw[n + |a| + |b|..n + |a| + |b| + |c|] == c
      && raw[n + |a| + |b| + |c|..n + |a| + |b| + |c| + |d|] == d
  {
  }

  lemma HeadOfRecord(before: Bytes, o: Object, rest: Bytes)
    requires Narrow(o)
    ensures Head(before + Record(o) + rest, |before|) == Some(o)
  {
    Widths();
    hide FromLe, Le, Utf8.Encode, Utf8.Decode;
    var key := Utf8.Encode(o.key);
    Fields(before, Le(|key|, 4), key, Le(|o.body|, 8), o.body, rest);
    LeRoundTrip(|key|, 4);
    LeRoundTrip(|o.body|, 8);
    Utf8.RoundTrip(o.key);
  }

  lemma {:induction false} UnpackRecords(before: Bytes, objects: seq<Object>)
    requires forall o | o in objects :: Narrow(o)
    ensures Unpacked(before + Records(objects), |before|) == objects
    decreases |objects|
  {
    hide Head, Record, Narrow;
    if objects == [] {
      assert before + [] == before;
    } else {
      var o, rest := objects[0], objects[1..];
      HeadOfRecord(before, o, Records(rest));
      UnpackRecords(before + Record(o), rest);
      assert before + Records(objects) == before + Record(o) + Records(rest);
      assert objects == [o] + rest;
    }
  }

  lemma HeadIsNarrow(raw: Bytes, at: nat)
    requires at <= |raw| && Head(raw, at).Some?
    ensures Narrow(Head(raw, at).value)
  {
    Widths();
    var keyEnd := at + 4 + FromLe(raw[at..at + 4]);
    Utf8.Canonical(raw[at + 4..keyEnd]);
    assert |raw[keyEnd..keyEnd + 8]| == 8;
  }

  lemma {:induction false} UnpackedAreNarrow(raw: Bytes, at: nat)
    requires at <= |raw|
    ensures forall o | o in Unpacked(raw, at) :: Narrow(o)
    decreases |raw| - at
  {
    hide Head, Size, Narrow;
    match Head(raw, at)
    case None =>
    case Some(o) =>
      HeadIsNarrow(raw, at);
      UnpackedAreNarrow(raw, at + Size(o));
  }

  /** Decoding what was encoded gives exactly the kept objects, if and only if each one's key and
      body have lengths their header fields can hold. */
  lemma RoundTrip(objects: seq<Object>, max: nat)
    ensures Decoded(Encoded(objects, max)) == Some(Kept(objects, |MAGIC|, max))
      <==> forall o | o in Kept(objects, |MAGIC|, max) :: Narrow(o)
  {
    hide Head, Record, Narrow, Kept;
    var kept := Kept(objects, |MAGIC|, max);
    UnpackedAreNarrow(Encoded(objects, max), |MAGIC|);
    if forall o | o in kept :: Narrow(o) {
      UnpackRecords(MAGIC, kept);
    }
  }

  // -- the ceiling ----------------------------------------------------------------------------

  predicate Subsequence<T(==)>(s: seq<T>, t: seq<T>) {
    s == [] || (t != [] && (if s[0] == t[0] then Subsequence(s[1..], t[1..]) else Subsequence(s, t[1..])))
  }

  lemma {:induction false} SubsequenceTail<T>(s: seq<T>, t: seq<T>)
    requires s != [] && Subsequence(s, t)
    ensures Subsequence(s[1..], t)
    decreases |t|
  {
    if s[0] == t[0] {
      if |s| > 1 {
        if s[1] == t[0] {
          SubsequenceTail(s[1..], t[1..]);
        }
      }
    } else {
      SubsequenceTail(s, t[1..]);
      if |s| > 1 && s[1] == t[0] {
        SubsequenceTail(s[1..], t[1..]);
      }
    }
  }

  lemma {:induction false} KeptFits(objects: seq<Object>, used: nat, max: nat)
    ensures var kept := Kept(objects, used, max);
      Subsequence(kept, objects) && (kept != [] ==> used + Total(kept) <= max)
  {
    if objects == [] {
    } else {
      var first, rest := objects[0], objects[1..];
      var kept := Kept(objects, used, max);
      if used + Size(first) > max {
        KeptFits(rest, used, max);
        if kept != [] && kept[0] == first {
          SubsequenceTail(kept, rest);
        }
      } else {
        KeptFits(rest, used + Size(first), max);
        assert kept[1..] == Kept(rest, used + Size(first), max);
      }
    }
  }

  /** The records the writer passes over. */
  function Skipped(objects: seq<Object>, used: nat, max: nat): seq<Object> {
    if objects == [] then []
    else if used + Size(objects[0]) > max then [objects[0]] + Skipped(objects[1..], used, max)
    else Skipped(objects[1..], used + Size(objects[0]), max)
  }

  lemma {:induction false} SkippedOverflow(objects: seq<Object>, used: nat, max: nat)
    ensures forall o | o in Skipped(objects, used, max) ::
      used + Total(Kept(objects, used, max)) + Size(o) > max
  {
    hide Size;
    if objects == [] {
    } else if used + Size(objects[0]) > max {
      SkippedOverflow(objects[1..], used, max);
    } else {
      SkippedOverflow(objects[1..], used + Size(objects[0]), max);
      assert Kept(objects, used, max)[1..] == Kept(objects[1..], used + Size(objects[0]), max);
    }
  }

  /** Kept and skipped together are everything, repetitions included. */
  lemma {:induction false} KeptOrSkipped(objects: seq<Object>, used: nat, max: nat)
    ensures multiset(Kept(objects, used, max)) + multiset(Skipped(objects, used, max)) == multiset(objects)
  {
    hide Size;
    if objects == [] {
    } else {
      assert objects == [objects[0]] + objects[1..];
      if used + Size(objects[0]) > max {
        KeptOrSkipped(objects[1..], used, max);
      } else {
        KeptOrSkipped(objects[1..], used + Size(objects[0]), max);
      }
    }
  }

  /** The container never exceeds its ceiling (or a bare magic number), every object left out would
      still overflow the finished buffer, and nothing is left out exactly when everything fits. */
  lemma Ceiling(objects: seq<Object>, max: nat)
    ensures var kept := Kept(objects, |MAGIC|, max);
      && |Encoded(objects, max)| <= (if max < 4 then 4 else max)
      && Subsequence(kept, objects)
      && (forall o | o in Skipped(objects, |MAGIC|, max) :: |Encoded(objects, max)| + Size(o) > max)
      && multiset(kept) + multiset(Skipped(objects, |MAGIC|, max)) == multiset(objects)
      && (kept == objects <==> objects == [] || |MAGIC| + Total(objects) <= max)
  {
    hide Size, Subsequence, Skipped;
    KeptFits(objects, |MAGIC|, max);
    SkippedOverflow(objects, |MAGIC|, max);
    KeptOrSkipped(objects, |MAGIC|, max);
    if |MAGIC| + Total(objects) <= max {
      KeepAll(objects, |MAGIC|, max);
    }
  }

  lemma {:induction false} KeepAll(objects: seq<Object>, used: nat, max: nat)
    requires used + Total(objects) <= max
    ensures Kept(objects, used, max) == objects
  {
    if objects == [] {
    } else {
      KeepAll(objects[1..], used + Size(objects[0]), max);
    }
  }

  // -- damage ---------------------------------------------------------------------------------

  /** The leading objects whose records all lie within the first n bytes. */
  function Inside(objects: seq<Object>, n: nat): (whole: seq<Object>)
    ensures whole <= objects
  {
    if objects == [] || Size(objects[0]) > n then []
    else [objects[0]] + Inside(objects[1..], n - Size(objects[0]))
  }

  lemma HeadOfPrefix(raw: Bytes, at: nat, n: nat)
    requires at <= n <= |raw|
    ensures var whole := Head(raw, at);
      Head(raw[..n], at) == if whole.Some? && at + Size(whole.value) <= n then whole else None
  {
    hide FromLe, Utf8.Encode, Utf8.Decode;
    var cut := raw[..n];
    if at + 4 <= n {
      assert cut[at..at + 4] == raw[at..at + 4];
      var keyEnd := at + 4 + FromLe(raw[at..at + 4]);
      if keyEnd + 8 <= n {
        assert cut[at + 4..keyEnd] == raw[at + 4..keyEnd];
        assert cut[keyEnd..keyEnd + 8] == raw[keyEnd..keyEnd + 8];
        if Utf8.Decode(raw[at + 4..keyEnd]).Some? {
          Utf8.Canonical(raw[at + 4..keyEnd]);
          var bodyEnd := keyEnd + 8 + FromLe(raw[keyEnd..keyEnd + 8]);
          if bodyEnd <= n {
            assert cut[keyEnd + 8..bodyEnd] == raw[keyEnd + 8..bodyEnd];
          }
        }
      } else if keyEnd + 8 <= |raw| && Utf8.Decode(raw[at + 4..keyEnd]).Some? {
        Utf8.Canonical(raw[at + 4..keyEnd]);
      }
    }
  }

  lemma {:induction false} UnpackPrefix(raw: Bytes, at: nat, n: nat)
    requires at <= n <= |raw|
    ensures Unpacked(raw[..n], at) == Inside(Unpacked(raw, at), n - at)
    decreases |raw| - at
  {
    hide Head, Size;
    HeadOfPrefix(raw, at, n);
    match Head(raw, at)
    case None =>
    case Some(o) =>
      if at + Size(o) <= n {
        UnpackPrefix(raw, at + Size(o), n);
      }
  }

  /** Cutting a container anywhere past its magic number loses exactly the records the cut touches,
      and what follows them: for every byte string, whoever wrote it. */
  lemma Truncation(raw: Bytes, n: nat)
    requires MAGIC <= raw && |MAGIC| <= n <= |raw|
    ensures Decoded(raw[..n]) == Some(Inside(Decoded(raw).value, n - |MAGIC|))
    ensures Decoded(raw[..n]).value <= Decoded(raw).value
  {
    hide Head, Size;
    UnpackPrefix(raw, |MAGIC|, n);
    assert MAGIC <= raw[..n];
  }

  lemma RecordOfHead(raw: Bytes, at: nat)
    requires at <= |raw| && Head(raw, at).Some?
    ensures var o := Head(raw, at).value; Record(o) == raw[at..at + Size(o)]
  {
    hide FromLe, Le, Utf8.Encode, Utf8.Decode;
    var o := Head(raw, at).value;
    var keyEnd := at + 4 + FromLe(raw[at..at + 4]);
    var key, width := raw[at + 4..keyEnd], raw[keyEnd..keyEnd + 8];
    Utf8.Canonical(key);
    LeCanonical(raw[at..at + 4]);
    LeCanonical(width);
    Pieces(raw, at, at + 4, keyEnd, keyEnd + 8, at + Size(o));
  }

  lemma Pieces(raw: Bytes, a: nat, b: nat, c: nat, d: nat, e: nat)
    requires a <= b <= c <= d <= e <= |raw|
    ensures raw[a..e] == raw[a..b] + raw[b..c] + raw[c..d] + raw[d..e]
  {
    assert raw[a..c] == raw[a..b] + raw[b..c];
    assert raw[a..d] == raw[a..c] + raw[c..d];
    assert raw[a..e] == raw[a..d] + raw[d..e];
  }

  lemma {:induction false} RecordsOfUnpacked(raw: Bytes, at: nat)
    requires at <= |raw|
    ensures var objects := Unpacked(raw, at);
      at + Total(objects) <= |raw| && Records(objects) == raw[at..at + Total(objects)]
    decreases |raw| - at
  {
    hide Head, Size, Record;
    match Head(raw, at)
    case None =>
    case Some(o) =>
      RecordOfHead(raw, at);
      RecordsOfUnpacked(raw, at + Size(o));
      var rest := Unpacked(raw, at + Size(o));
      assert Unpacked(raw, at)[1..] == rest;
      assert raw[at..at + Size(o) + Total(rest)]
          == raw[at..at + Size(o)] + raw[at + Size(o)..at + Size(o) + Total(rest)];
  }

  /** One container per content: encoding what was decoded, without a ceiling, reproduces exactly
      the bytes decoding consumed. */
  lemma Canonical(raw: Bytes, max: nat)
    requires MAGIC <= raw && |raw| <= max
    ensures var objects := Decoded(raw).value;
      && |MAGIC| + Total(objects) <= |raw|
      && Encoded(objects, max) == raw[..|MAGIC| + Total(objects)]
  {
    hide Head, Size, Record;
    var objects := Unpacked(raw, |MAGIC|);
    RecordsOfUnpacked(raw, |MAGIC|);
    KeepAll(objects, |MAGIC|, max);
    var n := |MAGIC| + Total(objects);
    assert raw[..n] == raw[..|MAGIC|] + raw[|MAGIC|..n];
  }
}
