/** Sets of keys written down as text, a line each, and read back. */
module Manifest {
  import opened Base
  import Text
  import Utf8

  // -- order ----------------------------------------------------------------------------------

  /** The order strings sort in: by code point, which is also the order of their bytes. */
  predicate Less(a: string, b: string) {
    b != [] && (a == [] || a[0] < b[0] || (a[0] == b[0] && Less(a[1..], b[1..])))
  }

  lemma {:induction false} LessTransitive(a: string, b: string, c: string)
    requires Less(a, b) && Less(b, c)
    ensures Less(a, c)
  {
    if a != [] && a[0] == b[0] && b[0] == c[0] {
      LessTransitive(a[1..], b[1..], c[1..]);
    }
  }

  lemma {:induction false} LessTotal(a: string, b: string)
    ensures Less(a, b) || a == b || Less(b, a)
    ensures !(Less(a, b) && Less(b, a)) && !Less(a, a)
  {
    if a != [] && b != [] && a[0] == b[0] {
      LessTotal(a[1..], b[1..]);
      LessTotal(a[1..], a[1..]);
      assert a == [a[0]] + a[1..] && b == [b[0]] + b[1..];
    } else if a != [] {
      LessTotal(a[1..], a[1..]);
    }
  }

  predicate Sorted(keys: seq<string>) {
    forall i, j | 0 <= i < j < |keys| :: Less(keys[i], keys[j])
  }

  /** Sorted, without repetitions, and exactly the members of the set. */
  ghost predicate Lists(keys: seq<string>, index: set<string>) {
    Sorted(keys) && (set k | k in keys) == index
  }

  lemma SortedFirst(a: seq<string>, b: seq<string>)
    requires Sorted(a) && Sorted(b) && a != [] && b != []
    requires a[0] in b && b[0] in a
    ensures a[0] == b[0]
  {
    var i :| 0 <= i < |b| && b[i] == a[0];
    var j :| 0 <= j < |a| && a[j] == b[0];
    LessTotal(a[0], b[0]);
  }

  lemma SortedTail(a: seq<string>, index: set<string>)
    requires Lists(a, index) && a != []
    ensures Lists(a[1..], index - {a[0]})
  {
    assert a == [a[0]] + a[1..];
    forall k | k in a[1..] ensures k != a[0] {
      var i :| 0 <= i < |a[1..]| && a[1..][i] == k;
      LessTotal(a[0], a[i + 1]);
    }
  }

  lemma FirstListed(keys: seq<string>, index: set<string>)
    requires Lists(keys, index) && keys != []
    ensures keys[0] in index
  {
    assert keys[0] in set k | k in keys;
  }

  /** However the set is iterated, sorting yields one list. */
  lemma {:induction false} ListingUnique(a: seq<string>, b: seq<string>, index: set<string>)
    requires Lists(a, index) && Lists(b, index)
    ensures a == b
  {
    if a != [] {
      FirstListed(a, index);
    }
    if b != [] {
      FirstListed(b, index);
    }
    if a != [] && b != [] {
      SortedFirst(a, b);
      SortedTail(a, index);
      SortedTail(b, index);
      ListingUnique(a[1..], b[1..], index - {a[0]});
      assert a == [a[0]] + a[1..] && b == [b[0]] + b[1..];
    }
  }

  /** Where a key belongs in a sorted list, by linear search. */
  method InsertKey(keys: seq<string>, k: string) returns (out: seq<string>)
    requires Sorted(keys) && k !in keys
    ensures Sorted(out) && (set x | x in out) == (set x | x in keys) + {k}
  {
    var i := 0;
    while i < |keys| && Less(keys[i], k)
      invariant i <= |keys|
      invariant forall j | 0 <= j < i :: Less(keys[j], k)
    {
      i := i + 1;
    }
    forall j | i <= j < |keys| ensures Less(k, keys[j]) {
      LessTotal(k, keys[i]);
      if i < j {
        LessTransitive(k, keys[i], keys[j]);
      }
    }
    out := keys[..i] + [k] + keys[i..];
    assert keys == keys[..i] + keys[i..];
  }

  /** Collects a set, in whatever order it comes, into its sorted list. */
  method Collect(index: set<string>) returns (keys: seq<string>)
    ensures Lists(keys, index)
  {
    keys := [];
    var rest := index;
    while rest != {}
      invariant rest <= index
      invariant Lists(keys, index - rest)
      decreases rest
    {
      var k :| k in rest;
      assert k !in keys by {
        assert k !in (set x | x in keys);
      }
      keys := InsertKey(keys, k);
      rest := rest - {k};
    }
  }

  // -- text -----------------------------------------------------------------------------------

  function Render(keys: seq<string>): Bytes { Utf8.Encode(Text.Join(keys, '\n')) }

  function NonBlank(lines: seq<string>): seq<string> {
    if lines == [] then []
    else (if Text.Blank(lines[0]) then [] else [lines[0]]) + NonBlank(lines[1..])
  }

  /** The keys a manifest body lists, in order. */
  function Listed(raw: Bytes): seq<string> { NonBlank(Text.Lines(Utf8.Lossy(raw))) }

  /** Reading a manifest: each listed key joins the set. */
  method Absorb(index: set<string>, raw: Bytes) returns (merged: set<string>)
    ensures merged == index + Keys(raw)
  {
    merged := index;
    var lines := Text.Lines(Utf8.Lossy(raw));
    for i := 0 to |lines|
      invariant merged + (set k | k in NonBlank(lines[i..])) == index + Keys(raw)
    {
      assert lines[i..][1..] == lines[i + 1..];
      if !Text.Blank(lines[i]) {
        merged := merged + {lines[i]};
      }
    }
    assert lines[|lines|..] == [];
  }

  ghost function Keys(raw: Bytes): set<string> { set k | k in Listed(raw) }

  /** A key that keeps its own line when written: not blank, no newline, no carriage return at the end. */
  predicate Clean(k: string) {
    !Text.Blank(k) && '\n' !in k && k[|k| - 1] != '\r'
  }

  lemma JoinOfCons(keys: seq<string>)
    requires |keys| > 1
    ensures Text.Join(keys, '\n') == keys[0] + ['\n'] + Text.Join(keys[1..], '\n')
  {
  }

  /** Every line but the last loses a carriage return at its end. */
  function Stripped(keys: seq<string>): (lines: seq<string>)
    ensures |lines| == |keys|
    ensures forall i | 0 <= i < |keys| :: lines[i] == if i == |keys| - 1 then keys[i] else Text.StripCr(keys[i])
  {
    if |keys| <= 1 then keys else [Text.StripCr(keys[0])] + Stripped(keys[1..])
  }

  lemma {:induction false} LinesOfJoin(keys: seq<string>)
    requires forall k | k in keys :: '\n' !in k && !Text.Blank(k)
    ensures Text.Lines(Text.Join(keys, '\n')) == Stripped(keys)
  {
    if keys == [] {
    } else if |keys| == 1 {
      Text.IndexOfAbsent(keys[0], '\n');
    } else {
      hide Text.Lines, Text.Blank, Text.StripCr, Text.Join;
      JoinOfCons(keys);
      Text.LinesOfJoint(keys[0], Text.Join(keys[1..], '\n'));
      LinesOfJoin(keys[1..]);
    }
  }

  lemma {:induction false} NonBlankAll(lines: seq<string>)
    requires forall l | l in lines :: !Text.Blank(l)
    ensures NonBlank(lines) == lines
  {
    if lines != [] {
      NonBlankAll(lines[1..]);
    }
  }

  lemma {:induction false} NonBlankMembers(lines: seq<string>)
    ensures forall l | l in NonBlank(lines) :: l in lines && !Text.Blank(l)
  {
    if lines != [] {
      NonBlankMembers(lines[1..]);
    }
  }

  lemma StripKeepsInk(k: string)
    requires !Text.Blank(k)
    ensures !Text.Blank(Text.StripCr(k))
  {
    var c :| c in k && !Text.Whitespace(c);
    if k[|k| - 1] == '\r' {
      assert k == k[..|k| - 1] + ['\r'];
      assert c in k[..|k| - 1];
    }
  }

  /** The list read back is the list written, exactly when every key has ink and no newline, and none
      but the last ends in a carriage return. */
  lemma ListRoundTrip(keys: seq<string>)
    ensures Listed(Render(keys)) == keys <==>
      && (forall k | k in keys :: '\n' !in k && !Text.Blank(k))
      && (forall i | 0 <= i < |keys| - 1 :: Text.StripCr(keys[i]) == keys[i])
  {
    Utf8.RoundTrip(Text.Join(keys, '\n'));
    var lines := Text.Lines(Text.Join(keys, '\n'));
    NonBlankMembers(lines);
    Text.LinesAreLines(Text.Join(keys, '\n'));
    if forall k | k in keys :: '\n' !in k && !Text.Blank(k) {
      LinesOfJoin(keys);
      forall l | l in lines ensures !Text.Blank(l) {
        var i :| 0 <= i < |lines| && lines[i] == l;
        StripKeepsInk(keys[i]);
      }
      NonBlankAll(lines);
    } else {
      var k :| k in keys && ('\n' in k || Text.Blank(k));
      assert k !in NonBlank(lines);
    }
  }

  /** Clean keys survive a manifest: the set read back is the set written. */
  lemma KeysRoundTrip(keys: seq<string>, index: set<string>)
    requires Lists(keys, index) && forall k | k in index :: Clean(k)
    ensures Keys(Render(keys)) == index
  {
    forall k | k in keys ensures Clean(k) {
      assert k in index;
    }
    forall i | 0 <= i < |keys| ensures Text.StripCr(keys[i]) == keys[i] {
      assert Clean(keys[i]);
    }
    ListRoundTrip(keys);
    assert Keys(Render(keys)) == set k | k in keys;
  }
}
