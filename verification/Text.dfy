/** The string operations the program leans on, as its standard library performs them. */
module Text {
  import opened Base

  predicate EndsWith(s: string, suffix: string) {
    |suffix| <= |s| && s[|s| - |suffix|..] == suffix
  }

  predicate FoundAt(s: string, part: string, i: nat) {
    i + |part| <= |s| && s[i..i + |part|] == part
  }

  predicate Contains(s: string, part: string) {
    exists i | 0 <= i <= |s| :: FoundAt(s, part, i)
  }

  lemma ContainsMiddle(before: string, part: string, after: string)
    ensures Contains(before + part + after, part)
  {
    assert FoundAt(before + part + after, part, |before|);
  }

  /** What cannot span a separator is on one side of it. */
  lemma ContainsAcross(a: string, c: char, b: string, part: string)
    requires c !in part && part != ""
    ensures Contains(a + [c] + b, part) <==> Contains(a, part) || Contains(b, part)
  {
    var s := a + [c] + b;
    if Contains(s, part) {
      var i :| 0 <= i <= |s| && FoundAt(s, part, i);
      NotAcross(a, c, b, part, i);
    }
    if Contains(a, part) {
      var i :| 0 <= i <= |a| && FoundAt(a, part, i);
      FoundShift(s, 0, a, part, i);
    }
    if Contains(b, part) {
      var i :| 0 <= i <= |b| && FoundAt(b, part, i);
      FoundShift(s, |a| + 1, b, part, i);
    }
  }

  lemma FoundShift(s: string, n: nat, t: string, part: string, i: nat)
    requires n + |t| <= |s| && s[n..n + |t|] == t && FoundAt(t, part, i)
    ensures FoundAt(s, part, n + i)
  {
    forall k | 0 <= k < |part| ensures s[n + i..n + i + |part|][k] == part[k] {
      FoundChar(t, part, i, k);
      assert s[n..n + |t|][i + k] == s[n + i + k];
    }
  }

  lemma FoundBack(s: string, n: nat, t: string, part: string, i: nat)
    requires n + |t| <= |s| && s[n..n + |t|] == t && FoundAt(s, part, n + i) && i + |part| <= |t|
    ensures FoundAt(t, part, i)
  {
    forall k | 0 <= k < |part| ensures t[i..i + |part|][k] == part[k] {
      FoundChar(s, part, n + i, k);
      assert s[n..n + |t|][i + k] == s[n + i + k];
    }
  }

  lemma FoundChar(s: string, part: string, i: nat, k: nat)
    requires FoundAt(s, part, i) && k < |part|
    ensures s[i + k] == part[k] && part[k] in s
  {
    assert s[i..i + |part|][k] == s[i + k];
  }

  lemma NotAcross(a: string, c: char, b: string, part: string, i: nat)
    requires c !in part && part != "" && FoundAt(a + [c] + b, part, i)
    ensures Contains(a, part) || Contains(b, part)
  {
    var s := a + [c] + b;
    if i <= |a| && |a| < i + |part| {
      FoundChar(s, part, i, |a| - i);
    }
    if i > |a| {
      FoundBack(s, |a| + 1, b, part, i - |a| - 1);
    } else {
      FoundBack(s, 0, a, part, i);
    }
  }

  lemma NotContained(s: string, part: string, c: char)
    requires c in part && c !in s
    ensures !Contains(s, part)
  {
    var k :| 0 <= k < |part| && part[k] == c;
    forall i: nat | FoundAt(s, part, i) ensures false {
      FoundChar(s, part, i, k);
    }
  }

  predicate Whitespace(c: char) {
    var n := c as int;
    9 <= n <= 13 || n == 0x20 || n == 0x85 || n == 0xA0 || n == 0x1680 || 0x2000 <= n <= 0x200A
    || n == 0x2028 || n == 0x2029 || n == 0x202F || n == 0x205F || n == 0x3000
  }

  /** What is empty once trimmed. */
  predicate Blank(s: string) {
    forall c | c in s :: Whitespace(c)
  }

  function TrimStart(s: string): string {
    if s != [] && Whitespace(s[0]) then TrimStart(s[1..]) else s
  }

  function TrimEnd(s: string): string {
    if s != [] && Whitespace(s[|s| - 1]) then TrimEnd(s[..|s| - 1]) else s
  }

  function Trim(s: string): string { TrimEnd(TrimStart(s)) }

  lemma Associate<T>(a: seq<T>, b: seq<T>, c: seq<T>)
    ensures a + b + c == a + (b + c)
  {
  }

  function IndexOf(s: string, c: char): (i: nat)
    ensures i <= |s| && c !in s[..i]
    ensures i < |s| ==> s[i] == c
  {
    if s == [] || s[0] == c then 0 else 1 + IndexOf(s[1..], c)
  }

  lemma {:induction false} IndexOfJoint(left: string, c: char, right: string)
    requires c !in left
    ensures IndexOf(left + [c] + right, c) == |left|
  {
    if left == [] {
    } else {
      assert (left + [c] + right)[1..] == left[1..] + [c] + right;
      IndexOfJoint(left[1..], c, right);
    }
  }

  lemma {:induction false} IndexOfAbsent(s: string, c: char)
    requires c !in s
    ensures IndexOf(s, c) == |s|
  {
    if s != [] {
      IndexOfAbsent(s[1..], c);
    }
  }

  /** The pieces between separators; always at least one. */
  function Split(s: string, c: char): (pieces: seq<string>)
    ensures pieces != []
    decreases |s|
  {
    var i := IndexOf(s, c);
    if i == |s| then [s] else [s[..i]] + Split(s[i + 1..], c)
  }

  function Join(pieces: seq<string>, c: char): string {
    if pieces == [] then []
    else if |pieces| == 1 then pieces[0]
    else pieces[0] + [c] + Join(pieces[1..], c)
  }

  lemma {:induction false} JoinOfSplit(s: string, c: char)
    ensures Join(Split(s, c), c) == s
    decreases |s|
  {
    var i := IndexOf(s, c);
    if i < |s| {
      JoinOfSplit(s[i + 1..], c);
      assert Split(s, c)[1..] == Split(s[i + 1..], c);
      assert s == s[..i] + [c] + s[i + 1..];
    }
  }

  lemma {:induction false} SplitOfJoint(left: string, c: char, right: string)
    ensures Split(left + [c] + right, c) == Split(left, c) + Split(right, c)
    decreases |left|
  {
    var i := IndexOf(left, c);
    if i == |left| {
      SplitFirst(left, c, right);
    } else {
      var first, rest := left[..i], left[i + 1..];
      hide *;
      assert left == first + [c] + rest && c !in first by { assert left == left[..i] + [left[i]] + left[i + 1..]; }
      SplitFirst(first, c, rest);
      SplitFirst(first, c, rest + [c] + right);
      SplitOfJoint(rest, c, right);
      Associate(first + [c], rest, [c] + right);
      Associate(left, [c], right);
      Associate(rest, [c], right);
      Associate([first], Split(rest, c), Split(right, c));
    }
  }

  lemma SplitFirst(first: string, c: char, rest: string)
    requires c !in first
    ensures Split(first + [c] + rest, c) == [first] + Split(rest, c)
    ensures Split(first, c) == [first]
  {
    var s := first + [c] + rest;
    IndexOfJoint(first, c, rest);
    IndexOfAbsent(first, c);
    assert s[..|first|] == first && s[|first| + 1..] == rest;
  }

  lemma {:induction false} JoinAppend(a: seq<string>, b: seq<string>, c: char)
    requires a != [] && b != []
    ensures Join(a + b, c) == Join(a, c) + [c] + Join(b, c)
  {
    if |a| == 1 {
      assert (a + b)[1..] == b;
    } else {
      assert (a + b)[1..] == a[1..] + b;
      JoinAppend(a[1..], b, c);
    }
  }

  // -- lines ----------------------------------------------------------------------------------

  function StripCr(s: string): string {
    if s != [] && s[|s| - 1] == '\r' then s[..|s| - 1] else s
  }

  /** Lines without their endings; a carriage return belongs to the ending only before a newline. */
  function Lines(s: string): seq<string>
    decreases |s|
  {
    if s == [] then []
    else
      var i := IndexOf(s, '\n');
      if i == |s| then [s] else [StripCr(s[..i])] + Lines(s[i + 1..])
  }

  lemma {:induction false} LinesAreLines(s: string)
    ensures forall l | l in Lines(s) :: '\n' !in l
    decreases |s|
  {
    if s != [] && IndexOf(s, '\n') < |s| {
      LinesAreLines(s[IndexOf(s, '\n') + 1..]);
    }
  }

  lemma LinesOfJoint(line: string, rest: string)
    requires '\n' !in line
    ensures Lines(line + ['\n'] + rest) == [StripCr(line)] + Lines(rest)
  {
    var s := line + ['\n'] + rest;
    IndexOfJoint(line, '\n', rest);
    assert s[..|line|] == line && s[|line| + 1..] == rest;
  }

  predicate Terminated(s: string) { s == [] || s[|s| - 1] == '\n' }

  /** Text that ends with a newline is a first line and more such text. */
  lemma FirstLine(s: string) returns (line: string, rest: string)
    requires Terminated(s) && s != []
    ensures '\n' !in line && s == line + ['\n'] + rest && Terminated(rest)
  {
    var i := IndexOf(s, '\n');
    assert forall k | 0 <= k < i :: s[..i][k] == s[k];
    line, rest := s[..i], s[i + 1..];
  }

  lemma {:induction false} LinesAppend(s: string, t: string)
    requires Terminated(s)
    ensures Lines(s + t) == Lines(s) + Lines(t)
    decreases |s|
  {
    if s == [] {
      assert s + t == t;
    } else {
      hide *;
      var line, rest := FirstLine(s);
      LinesOfJoint(line, rest);
      LinesOfJoint(line, rest + t);
      LinesAppend(rest, t);
      Associate(line + ['\n'], rest, t);
      Associate([StripCr(line)], Lines(rest), Lines(t));
    }
  }
}
