/** The lines the program adds to curl's configuration for the time of a job, and takes out after. */
module Curlrc {
  import opened Base
  import Text

  const MARKER := "# added by cicache"
  const SETTING := "cacert = "

  /** The file's text; none when there is no file (or, for reading, none that can be read). */
  type File = Option<string>

  function Ended(text: string): string {
    if text != "" && text[|text| - 1] != '\n' then text + "\n" else text
  }

  function Added(bundle: string): string { MARKER + "\n" + SETTING + bundle + "\n" }

  /** Adding the setting; only on macOS, only where HOME is known, and only once. */
  function Written(macos: bool, home: bool, file: File, bundle: string): File {
    var existing := match file case Some(text) => text case None => "";
    if !macos || !home || Text.Contains(existing, MARKER) then file
    else Some(Ended(existing) + Added(bundle))
  }

  predicate Ours(line: string) { MARKER <= line || SETTING <= line }

  function KeptLines(lines: seq<string>): seq<string> {
    if lines == [] then [] else (if Ours(lines[0]) then [] else [lines[0]]) + KeptLines(lines[1..])
  }

  predicate AllBlank(lines: seq<string>) { forall l | l in lines :: Text.Blank(l) }

  /** Taking it out again, from the whole text of a file that has the marker. */
  function Cleared(home: bool, file: File): File {
    match file
    case None => None
    case Some(text) =>
      if !home || !Text.Contains(text, MARKER) then file
      else
        var kept := KeptLines(Text.Lines(text));
        if AllBlank(kept) then None else Some(Text.Join(kept, '\n') + "\n")
  }

  method Write(macos: bool, home: bool, file: File, bundle: string) returns (after: File)
    ensures after == Written(macos, home, file, bundle)
  {
    if !macos || !home {
      return file;
    }
    var existing := match file case Some(text) => text case None => "";
    if Text.Contains(existing, MARKER) {
      return file;
    }
    var contents := existing;
    if contents != "" && contents[|contents| - 1] != '\n' {
      contents := contents + "\n";
    }
    contents := contents + (MARKER + "\n" + SETTING + bundle + "\n");
    after := Some(contents);
  }

  // -- undoing --------------------------------------------------------------------------------

  lemma {:induction false} KeptConcat(a: seq<string>, b: seq<string>)
    ensures KeptLines(a + b) == KeptLines(a) + KeptLines(b)
  {
    hide Ours;
    if a == [] {
      assert a + b == b;
    } else {
      assert (a + b)[1..] == a[1..] + b;
      KeptConcat(a[1..], b);
    }
  }

  lemma {:induction false} KeptAll(lines: seq<string>)
    ensures KeptLines(lines) == lines <==> forall l | l in lines :: !Ours(l)
    ensures |KeptLines(lines)| <= |lines|
  {
    hide Ours;
    if lines != [] {
      KeptAll(lines[1..]);
      if Ours(lines[0]) {
        assert lines[0] in lines;
      } else {
        assert KeptLines(lines)[1..] == KeptLines(lines[1..]);
      }
    }
  }

  lemma AddedLines(bundle: string)
    requires '\n' !in bundle
    ensures Text.Lines(Added(bundle)) == [MARKER, Text.StripCr(SETTING + bundle)]
    ensures KeptLines(Text.Lines(Added(bundle))) == []
  {
    var second := SETTING + bundle;
    assert Added(bundle) == MARKER + ['\n'] + (second + ['\n'] + "");
    assert '\n' !in MARKER && '\n' !in SETTING;
    hide Text.Lines, Text.StripCr;
    Text.LinesOfJoint(MARKER, second + ['\n'] + "");
    Text.LinesOfJoint(second, "");
    assert Text.Lines("") == [] by { NoLines(); }
    assert Text.StripCr(MARKER) == MARKER && SETTING <= Text.StripCr(second) by { Strips(bundle); }
    var lines := [MARKER, Text.StripCr(second)];
    assert lines[1..] == [Text.StripCr(second)] && lines[1..][1..] == [];
    assert KeptLines(lines[1..][1..]) == [];
  }

  lemma NoLines()
    ensures Text.Lines("") == []
  {
  }

  lemma Strips(bundle: string)
    ensures Text.StripCr(MARKER) == MARKER && SETTING <= Text.StripCr(SETTING + bundle)
  {
    assert MARKER[|MARKER| - 1] == 'e';
    assert SETTING[|SETTING| - 1] == ' ';
  }

  lemma EndedTerminated(text: string)
    ensures Text.Terminated(Ended(text))
  {
  }

  /** What clearing leaves of what writing made: the user's own lines. */
  lemma ClearedOfWritten(text: string, bundle: string)
    requires '\n' !in bundle
    ensures Text.Contains(Ended(text) + Added(bundle), MARKER)
    ensures KeptLines(Text.Lines(Ended(text) + Added(bundle))) == KeptLines(Text.Lines(Ended(text)))
  {
    hide Text.Lines, KeptLines, Text.Contains;
    Text.ContainsMiddle(Ended(text), MARKER, "\n" + SETTING + bundle + "\n");
    assert Ended(text) + Added(bundle) == Ended(text) + MARKER + ("\n" + SETTING + bundle + "\n");
    EndedTerminated(text);
    Text.LinesAppend(Ended(text), Added(bundle));
    AddedLines(bundle);
    KeptConcat(Text.Lines(Ended(text)), Text.Lines(Added(bundle)));
  }

  /** What writing adds to a file without the marker: after its own lines, the last of them ended, the
      marker's line and the setting with the bundle's path; a file that was not there has just these two. */
  lemma WriteAddsTheSetting(file: File, bundle: string)
    requires '\n' !in bundle && (file.Some? ==> !Text.Contains(file.value, "# added by cicache"))
    ensures var after := Written(true, true, file, bundle);
      after.Some? && Text.Lines(after.value) ==
        (match file
         case Some(text) => Text.Lines(if text == "" || text[|text| - 1] == '\n' then text else text + "\n")
         case None => [])
        + ["# added by cicache", Text.StripCr("cacert = " + bundle)]
  {
    var text := match file case Some(text) => text case None => "";
    hide Text.Lines, Text.StripCr, Text.Contains, Added;
    EndedTerminated(text);
    Text.LinesAppend(Ended(text), Added(bundle));
    AddedLines(bundle);
    NoLines();
    NoMarkerInNothing();
  }

  lemma NoMarkerInNothing()
    ensures !Text.Contains("", MARKER)
  {
  }

  // -- text and its lines ---------------------------------------------------------------------

  /** Lines, each with a newline after it. */
  function Flat(lines: seq<string>): string {
    if lines == [] then "" else lines[0] + "\n" + Flat(lines[1..])
  }

  lemma {:induction false} JoinIsFlat(lines: seq<string>)
    requires lines != []
    ensures Text.Join(lines, '\n') + "\n" == Flat(lines)
  {
    if |lines| > 1 {
      JoinIsFlat(lines[1..]);
    }
  }

  /** No line ends in a carriage return before its newline. */
  predicate NoCrLf(s: string) { forall i | 0 < i < |s| && s[i] == '\n' :: s[i - 1] != '\r' }

  lemma NoCrLfParts(line: string, rest: string)
    requires '\n' !in line
    ensures NoCrLf(line + ['\n'] + rest) <==> Text.StripCr(line) == line && NoCrLf(rest)
  {
    var s, n := line + ['\n'] + rest, |line|;
    assert s[n] == '\n' && forall i | 0 <= i < |rest| :: s[n + 1 + i] == rest[i];
    assert forall i | 0 <= i < n :: s[i] in line;
    if NoCrLf(rest) && Text.StripCr(line) == line {
      forall i | 0 < i < |s| && s[i] == '\n' ensures s[i - 1] != '\r' {
        assert i > n + 1 ==> rest[i - n - 1] == '\n';
      }
    }
    if NoCrLf(s) {
      assert n > 0 ==> s[n - 1] == line[n - 1];
      forall i | 0 < i < |rest| && rest[i] == '\n' ensures rest[i - 1] != '\r' {
        assert s[n + 1 + i] == '\n';
      }
    }
  }

  lemma {:induction false} FlatOfLines(s: string)
    requires Text.Terminated(s)
    ensures Flat(Text.Lines(s)) == s <==> NoCrLf(s)
    ensures |Flat(Text.Lines(s))| <= |s|
    decreases |s|
  {
    if s != "" {
      var line, rest := Text.FirstLine(s);
      hide Text.Lines;
      Text.LinesOfJoint(line, rest);
      FlatOfLines(rest);
      NoCrLfParts(line, rest);
      var bare, tail := Text.StripCr(line), Flat(Text.Lines(rest));
      assert ([bare] + Text.Lines(rest))[1..] == Text.Lines(rest);
      hide NoCrLf, Flat;
      assert Flat(Text.Lines(s)) == bare + "\n" + tail by { FlatCons(bare, Text.Lines(rest)); }
      if bare == line && tail != rest {
        assert (line + ['\n'] + tail)[|line| + 1..] == tail && s[|line| + 1..] == rest;
      }
    }
  }

  lemma FlatCons(line: string, rest: seq<string>)
    ensures Flat([line] + rest) == line + "\n" + Flat(rest)
  {
    assert ([line] + rest)[1..] == rest;
  }

  lemma {:induction false} FlatOfKept(lines: seq<string>)
    ensures |Flat(KeptLines(lines))| <= |Flat(lines)|
    ensures |Flat(KeptLines(lines))| == |Flat(lines)| ==> forall l | l in lines :: !Ours(l)
  {
    hide Ours;
    if lines != [] {
      FlatOfKept(lines[1..]);
      if Ours(lines[0]) {
        assert KeptLines(lines) == KeptLines(lines[1..]);
      } else {
        assert KeptLines(lines) == [lines[0]] + KeptLines(lines[1..]);
        FlatCons(lines[0], KeptLines(lines[1..]));
      }
    }
  }

  // -- the marker -----------------------------------------------------------------------------

  lemma {:induction false} LineIsContained(s: string, line: string, part: string)
    requires line in Text.Lines(s) && part <= line
    ensures Text.Contains(s, part)
    decreases |s|
  {
    var i := Text.IndexOf(s, '\n');
    if i == |s| {
      StartIsContained(s, line, part);
    } else if line == Text.StripCr(s[..i]) {
      assert line <= s;
      StartIsContained(s, line, part);
    } else {
      var rest := s[i + 1..];
      hide Text.Lines;
      assert line in Text.Lines(rest) by { RestHasIt(s, line); }
      LineIsContained(rest, line, part);
      var k :| 0 <= k <= |rest| && Text.FoundAt(rest, part, k);
      Text.FoundShift(s, i + 1, rest, part, k);
    }
  }

  lemma RestHasIt(s: string, line: string)
    requires line in Text.Lines(s)
    ensures var i := Text.IndexOf(s, '\n');
      i < |s| && line != Text.StripCr(s[..i]) ==> line in Text.Lines(s[i + 1..])
  {
  }

  lemma StartIsContained(s: string, line: string, part: string)
    requires line <= s && part <= line
    ensures Text.Contains(s, part)
  {
    assert s[0..0 + |part|] == part;
    assert Text.FoundAt(s, part, 0);
  }

  lemma EndedAddsNoMarker(text: string)
    requires Text.Contains(Ended(text), MARKER)
    ensures Text.Contains(text, MARKER)
  {
    var t := Ended(text);
    var i :| 0 <= i <= |t| && Text.FoundAt(t, MARKER, i);
    assert t[i + |MARKER| - 1] == MARKER[|MARKER| - 1] by {
      assert t[i..i + |MARKER|][|MARKER| - 1] == t[i + |MARKER| - 1];
    }
    assert MARKER[|MARKER| - 1] == 'e';
    assert i + |MARKER| <= |text|;
    assert text[i..i + |MARKER|] == t[i..i + |MARKER|];
    assert Text.FoundAt(text, MARKER, i);
  }

  lemma OnlySettingsAreOurs(text: string)
    requires !Text.Contains(text, MARKER)
    ensures forall l | l in Text.Lines(Ended(text)) :: Ours(l) <==> SETTING <= l
  {
    forall l | l in Text.Lines(Ended(text)) && MARKER <= l ensures false {
      LineIsContained(Ended(text), l, MARKER);
      EndedAddsNoMarker(text);
    }
  }

  // -- results --------------------------------------------------------------------------------

  /** Writing and then clearing gives a file without the marker back, its last line ended, exactly
      when it has a line with ink, no line beginning with the setting's own words, and no carriage
      return before a newline; and it removes the file exactly when nothing but such lines and blank
      ones is in it. */
  lemma ClearUndoesWrite(text: string, bundle: string)
    requires !Text.Contains(text, MARKER) && '\n' !in bundle
    ensures var lines := Text.Lines(Ended(text));
      var back := Cleared(true, Written(true, true, Some(text), bundle));
      && (back == Some(Ended(text)) <==>
            && (exists l | l in lines :: !Text.Blank(l))
            && (forall l | l in lines :: !(SETTING <= l))
            && NoCrLf(Ended(text)))
      && (back == None <==> forall l | l in lines :: Text.Blank(l) || SETTING <= l)
  {
    var t := Ended(text);
    var lines := Text.Lines(t);
    var kept := KeptLines(lines);
    ClearedOfWritten(text, bundle);
    OnlySettingsAreOurs(text);
    KeptMembers(lines);
    hide Text.Lines, Text.Blank, Text.Contains, KeptLines, Ours, NoCrLf, MARKER, SETTING;
    EndedTerminated(text);
    FlatOfLines(t);
    FlatOfKept(lines);
    KeptAll(lines);
    if kept != [] {
      JoinIsFlat(kept);
    }
  }

  lemma {:induction false} KeptMembers(lines: seq<string>)
    ensures forall l :: l in KeptLines(lines) <==> l in lines && !Ours(l)
  {
    hide Ours;
    if lines != [] {
      KeptMembers(lines[1..]);
    }
  }

  /** Where there was no file, there is none again; elsewhere than on macOS nothing is written, and a
      file without the marker is left alone; and writing twice is writing once. */
  lemma WriteOnce(macos: bool, home: bool, file: File, bundle: string)
    requires '\n' !in bundle
    ensures Written(macos, home, Written(macos, home, file, bundle), bundle) == Written(macos, home, file, bundle)
    ensures Cleared(home, Written(macos, home, None, bundle)) == None
    ensures !macos || !home ==> Written(macos, home, file, bundle) == file
    ensures !home || (file.Some? && !Text.Contains(file.value, "# added by cicache")) ==> Cleared(home, file) == file
  {
    hide Text.Lines, Text.Contains, KeptLines, Added;
    var text := match file case Some(text) => text case None => "";
    ClearedOfWritten(text, bundle);
    ClearedOfWritten("", bundle);
    assert Ended("") == "";
    NothingKept();
  }

  lemma NothingKept()
    ensures KeptLines(Text.Lines("")) == []
  {
  }
}
