/** Decimal numbers and letter case. */
module Ascii {
  import opened Base
  import Text

  predicate Digit(c: char) { '0' <= c <= '9' }

  function Figure(c: char): (d: nat)
    requires Digit(c)
    ensures d < 10
  {
    c as int - '0' as int
  }

  predicate Digits(s: string) { forall c | c in s :: Digit(c) }

  /** The number a string of digits stands for. */
  function Value(s: string): nat
    requires Digits(s)
  {
    if s == [] then 0 else 10 * Value(s[..|s| - 1]) + Figure(s[|s| - 1])
  }

  function Print(n: nat): (s: string)
    ensures s != [] && Digits(s)
  {
    var last := ['0' + (n % 10) as char];
    if n < 10 then last else Print(n / 10) + last
  }

  lemma {:induction false} PrintRoundTrip(n: nat)
    ensures Value(Print(n)) == n
  {
    var s := Print(n);
    assert s[|s| - 1] == '0' + (n % 10) as char;
    if n < 10 {
      assert s[..|s| - 1] == [];
    } else {
      assert s[..|s| - 1] == Print(n / 10);
      PrintRoundTrip(n / 10);
    }
  }

  // -- parsing 64-bit numbers -----------------------------------------------------------------

  const U64: nat := 0x1_0000_0000_0000_0000

  /** Digit by digit with checked arithmetic: an overflow on the way is a failure. */
  function Accumulate(s: string, acc: nat): (r: Option<nat>)
    decreases |s|
  {
    if s == [] then Some(acc)
    else if !Digit(s[0]) then None
    else if 10 * acc >= U64 || 10 * acc + Figure(s[0]) >= U64 then None
    else Accumulate(s[1..], 10 * acc + Figure(s[0]))
  }

  /** An unsigned 64-bit number: an optional plus sign and at least one digit. */
  function ParseU64(s: string): Option<nat> {
    var body := if s != [] && s[0] == '+' then s[1..] else s;
    if body == [] then None else Accumulate(body, 0)
  }

  lemma ValueOfCons(d: string, c: char, rest: string)
    requires Digits(d) && Digit(c) && Digits(rest)
    ensures Digits(d + [c] + rest) && Digits(d + [c])
    ensures Value(d + [c]) == 10 * Value(d) + Figure(c)
  {
    assert (d + [c])[..|d|] == d;
  }

  lemma {:induction false} ValueGrows(d: string, more: string)
    requires Digits(d) && Digits(more)
    ensures Digits(d + more) && Value(d) <= Value(d + more)
    decreases |more|
  {
    if more == [] {
      assert d + more == d;
    } else {
      var shorter := more[..|more| - 1];
      ValueGrows(d, shorter);
      assert (d + more)[..|d + more| - 1] == d + shorter;
    }
  }

  lemma {:induction false} AccumulateIsValue(done: string, s: string)
    requires Digits(done) && Value(done) < U64
    ensures Accumulate(s, Value(done)) ==
      if Digits(s) && Value(done + s) < U64 then Some(Value(done + s)) else None
    decreases |s|
  {
    if s == [] {
      assert done + s == done;
    } else if !Digit(s[0]) {
      assert s[0] in s;
    } else {
      var next, rest := done + [s[0]], s[1..];
      ValueOfCons(done, s[0], []);
      assert next + rest == done + s;
      assert s == [s[0]] + rest;
      if Value(next) < U64 {
        AccumulateIsValue(next, rest);
      } else if Digits(rest) {
        ValueGrows(next, rest);
      }
    }
  }

  /** Parsing succeeds exactly on an optional plus and a run of digits below 2^64, and gives their
      value; leading zeros never matter, and an overflow is no number at all. */
  lemma ParseU64Exact(s: string, n: nat)
    ensures ParseU64(s) == Some(n) <==>
      exists d: string | d != [] && Digits(d) :: (s == d || s == ['+'] + d) && Value(d) == n && n < U64
  {
    var body := if s != [] && s[0] == '+' then s[1..] else s;
    AccumulateIsValue([], body);
    assert [] + body == body;
    if ParseU64(s) == Some(n) {
      assert s == body || s == ['+'] + body;
    }
    forall d: string | d != [] && Digits(d) && (s == d || s == ['+'] + d) ensures d == body {
      assert d[0] in d;
    }
  }

  // -- letter case ----------------------------------------------------------------------------

  function LowerChar(c: char): char {
    if 'A' <= c <= 'Z' then c - 'A' + 'a' else c
  }

  function Lower(s: string): (t: string)
    ensures |t| == |s|
    ensures forall i | 0 <= i < |s| :: t[i] == LowerChar(s[i])
  {
    if s == [] then [] else [LowerChar(s[0])] + Lower(s[1..])
  }

  lemma LowerAlready(s: string)
    requires forall c | c in s :: !('A' <= c <= 'Z')
    ensures Lower(s) == s
  {
    forall i | 0 <= i < |s| ensures Lower(s)[i] == s[i] {
      assert s[i] in s;
    }
  }
}
