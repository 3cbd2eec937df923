/** The caching decisions about requests and responses, and the naming of entries. */
module Policy {
  import opened Base
  import opened Headers
  import Ascii
  import Text
  import Utf8
  import World

  const ALWAYS_BYPASS: seq<string> := [
    "actions.githubusercontent.com", "blob.core.windows.net", "results-receiver.actions.githubusercontent.com",
    "localhost", "127.0.0.1", "::1", "169.254.169.254"]

  const IMMUTABLE: seq<(string, string)> := [
    ("registry.npmjs.org", "/-/"), ("registry.yarnpkg.com", "/-/"), ("files.pythonhosted.org", ""),
    ("static.crates.io", ""), ("crates.io", "/download"), ("index.crates.io", ""), ("proxy.golang.org", "/@v/"),
    ("objects.githubusercontent.com", ""), ("github.com", "/releases/download/"), ("repo1.maven.org", ""),
    ("repo.maven.apache.org", ""), ("registry-1.docker.io", "/blobs/"), ("production.cloudflare.docker.com", ""),
    ("ghcr.io", "/blobs/"), ("nodejs.org", "/dist/"), ("static.rust-lang.org", ""), ("deb.debian.org", ".deb"),
    ("archive.ubuntu.com", ".deb"), ("security.ubuntu.com", ".deb"), ("azure.archive.ubuntu.com", ".deb")]

  const SIGNATURE_PARAMS: seq<string> := [
    "x-amz-signature", "x-goog-signature", "signature", "sig", "token", "se", "sp"]

  datatype Policy = Policy(minSize: nat, maxSize: nat, minMaxAge: nat, cacheAll: bool, cacheAuthorized: bool,
                           extraBypass: seq<string>, keyPrefix: string)

  datatype Reject =
    | NotGet | BypassHost | Authorized | SignedUrl | Status | NoStore | TooSmall | TooLarge | NotImmutable

  /** A parsed URL; `site` is the user information and host as spelled, `host` the host alone. */
  datatype Url = Url(scheme: string, site: string, host: string, port: Option<nat>, path: string,
                     query: Option<string>, fragment: Option<string>)

  // -- hosts ----------------------------------------------------------------------------------

  /** Equality, or the pattern after a dot at the host's end. */
  predicate HostMatches(host: string, pattern: string) {
    host == pattern
    || (|host| > |pattern| && Text.EndsWith(host, pattern) && host[|host| - |pattern| - 1] == '.')
  }

  predicate SuffixOf(a: seq<string>, b: seq<string>) { |a| <= |b| && b[|b| - |a|..] == a }

  function Labels(host: string): seq<string> { Text.Split(host, '.') }

  lemma MatchSharesLabels(host: string, pattern: string)
    requires HostMatches(host, pattern)
    ensures SuffixOf(Labels(pattern), Labels(host))
  {
    var p, h := Labels(pattern), Labels(host);
    if host == pattern {
      assert h[0..] == p;
    } else {
      var left := host[..|host| - |pattern| - 1];
      assert host == left + ['.'] + pattern;
      Text.SplitOfJoint(left, '.', pattern);
      hide Text.Split;
      assert h[|h| - |p|..] == p;
    }
  }

  lemma SharedLabelsMatch(host: string, pattern: string)
    requires SuffixOf(Labels(pattern), Labels(host))
    ensures HostMatches(host, pattern)
  {
    var p, h := Labels(pattern), Labels(host);
    Text.JoinOfSplit(host, '.');
    Text.JoinOfSplit(pattern, '.');
    var front := h[..|h| - |p|];
    assert h == front + p;
    if front != [] {
      Text.JoinAppend(front, p, '.');
      assert host == Text.Join(front, '.') + ['.'] + pattern;
    }
  }

  /** Matching by characters is matching by labels, from the right. */
  lemma HostMatchesLabels(host: string, pattern: string)
    ensures HostMatches(host, pattern) <==> SuffixOf(Labels(pattern), Labels(host))
  {
    hide HostMatches, SuffixOf;
    if HostMatches(host, pattern) {
      MatchSharesLabels(host, pattern);
    }
    if SuffixOf(Labels(pattern), Labels(host)) {
      SharedLabelsMatch(host, pattern);
    }
  }

  /** Being a subdomain is a partial order. */
  lemma SubdomainOrder(a: string, b: string, c: string)
    ensures HostMatches(a, a)
    ensures HostMatches(a, b) && HostMatches(b, a) ==> a == b
    ensures HostMatches(a, b) && HostMatches(b, c) ==> HostMatches(a, c)
  {
    if HostMatches(a, b) && HostMatches(b, c) {
      HostMatchesLabels(a, b);
      HostMatchesLabels(b, c);
      HostMatchesLabels(a, c);
      hide Labels;
      var la, lb, lc := Labels(a), Labels(b), Labels(c);
      assert la[|la| - |lc|..] == la[|la| - |lb|..][|lb| - |lc|..];
    }
  }

  function TrimFront(s: string, c: char): (t: string)
    ensures |t| <= |s| && s[|s| - |t|..] == t
  {
    if s != [] && s[0] == c then TrimFront(s[1..], c) else s
  }

  function TrimBack(s: string, c: char): (t: string)
    ensures t <= s
  {
    if s != [] && s[|s| - 1] == c then TrimBack(s[..|s| - 1], c) else s
  }

  /** A host without the brackets an IPv6 address is spelled with. */
  function Bare(host: string): string { TrimBack(TrimFront(host, '['), ']') }

  predicate Below(host: string, patterns: seq<string>) {
    exists pattern | pattern in patterns :: HostMatches(host, pattern)
  }

  predicate IsBypassed(p: Policy, host: string) { Below(Bare(host), ALWAYS_BYPASS + p.extraBypass) }

  lemma {:induction false} TrimBackJoint(left: string, c: char, right: string)
    requires c != '.'
    ensures TrimBack(left + ['.'] + right, c) == left + ['.'] + TrimBack(right, c)
    decreases |right|
  {
    var s := left + ['.'] + right;
    if right != [] && right[|right| - 1] == c {
      assert s[..|s| - 1] == left + ['.'] + right[..|right| - 1];
      TrimBackJoint(left, c, right[..|right| - 1]);
    }
  }

  lemma {:induction false} TrimFrontJoint(left: string, c: char, right: string)
    requires c != '.'
    ensures TrimFront(left + ['.'] + right, c) == TrimFront(left, c) + ['.'] + right
  {
    var s := left + ['.'] + right;
    if left != [] && left[0] == c {
      assert s[1..] == left[1..] + ['.'] + right;
      TrimFrontJoint(left[1..], c, right);
    }
  }

  /** Whatever lies below a bypassed host is bypassed, unless that host is spelled with a bracket. */
  lemma BypassCoversSubdomains(p: Policy, host: string, sub: string)
    requires (host == "" || host[0] != '[') && HostMatches(sub, host) && IsBypassed(p, host)
    ensures IsBypassed(p, sub)
  {
    hide ALWAYS_BYPASS, Below, Bare, HostMatches;
    BareBelow(host, sub);
    BelowCovers(Bare(sub), Bare(host), ALWAYS_BYPASS + p.extraBypass);
  }

  lemma BelowCovers(a: string, b: string, patterns: seq<string>)
    requires HostMatches(a, b) && Below(b, patterns)
    ensures Below(a, patterns)
  {
    hide HostMatches;
    var pattern :| pattern in patterns && HostMatches(b, pattern);
    SubdomainOrder(a, b, pattern);
  }

  lemma BareBelow(host: string, sub: string)
    requires (host == "" || host[0] != '[') && HostMatches(sub, host)
    ensures HostMatches(Bare(sub), Bare(host))
  {
    if sub != host {
      var left := sub[..|sub| - |host| - 1];
      assert sub == left + ['.'] + host;
      TrimFrontJoint(left, '[', host);
      TrimBackJoint(TrimFront(left, '['), ']', host);
      assert Bare(sub)[|Bare(sub)| - |Bare(host)|..] == Bare(host);
    }
  }

  /** What a URL parser yields as a host has a bracket at its front or nowhere. */
  predicate HostLike(host: string) { forall i | 0 < i < |host| :: host[i] != '[' }

  /** Among hosts a URL can have, everything below a bypassed one is bypassed, without exception:
      below a bracketed address there is only the address. */
  lemma BypassIsClosed(p: Policy, host: string, sub: string)
    requires HostLike(host) && HostLike(sub) && HostMatches(sub, host) && IsBypassed(p, host)
    ensures IsBypassed(p, sub)
  {
    hide IsBypassed;
    if host == "" || host[0] != '[' {
      BypassCoversSubdomains(p, host, sub);
    } else {
      assert sub[|sub| - |host|..][0] == sub[|sub| - |host|] == '[';
    }
  }

  /** The host without opening brackets in front of it and closing ones behind. */
  function Unbracketed(host: string): string
    decreases |host|
  {
    if host != "" && host[0] == '[' then Unbracketed(host[1..])
    else if host != "" && host[|host| - 1] == ']' then Unbracketed(host[..|host| - 1])
    else host
  }

  lemma {:induction false} BareIsUnbracketed(host: string)
    ensures Bare(host) == Unbracketed(host)
    decreases |host|
  {
    if host != "" && host[0] == '[' {
      BareIsUnbracketed(host[1..]);
    } else if host != "" && host[|host| - 1] == ']' {
      var less := host[..|host| - 1];
      BareIsUnbracketed(less);
      assert less != "" ==> less[0] == host[0];
      assert TrimFront(less, '[') == less && TrimFront(host, '[') == host;
    }
  }

  /** The labels of a configured or built-in host are the last labels of this one, brackets aside. */
  ghost predicate Named(p: Policy, host: string) {
    exists pattern | pattern in ALWAYS_BYPASS || pattern in p.extraBypass ::
      SuffixOf(Labels(pattern), Labels(Unbracketed(host)))
  }

  lemma BypassedIsNamed(p: Policy, host: string)
    ensures IsBypassed(p, host) <==> Named(p, host)
  {
    hide ALWAYS_BYPASS, Labels, SuffixOf, Bare, Unbracketed, HostMatches;
    BareIsUnbracketed(host);
    forall pattern ensures HostMatches(Bare(host), pattern) <==> SuffixOf(Labels(pattern), Labels(Unbracketed(host))) {
      HostMatchesLabels(Bare(host), pattern);
    }
    forall pattern ensures pattern in ALWAYS_BYPASS + p.extraBypass <==> pattern in ALWAYS_BYPASS || pattern in p.extraBypass {
    }
  }

  /** A GET is refused for its host exactly when a configured or built-in host's labels are the last
      labels of its own; and no request to such a host is eligible. */
  lemma BypassedExactly(p: Policy, url: Url, headers: HeaderMap)
    ensures RequestEligible(p, "GET", url, headers) == Some(BypassHost) <==> Named(p, url.host)
    ensures Named(p, url.host) ==> forall verb :: RequestEligible(p, verb, url, headers).Some?
  {
    BypassedIsNamed(p, url.host);
    hide IsBypassed, Named, IsSigned, Has;
  }

  // -- requests -------------------------------------------------------------------------------

  function HexValue(b: Byte): (d: Option<nat>)
    ensures d.Some? ==> d.value < 16
  {
    if 0x30 <= b <= 0x39 then Some(b - 0x30)
    else if 0x41 <= b <= 0x46 then Some(b - 0x37)
    else if 0x61 <= b <= 0x66 then Some(b - 0x57)
    else None
  }

  /** Escapes undone; a percent sign that starts none stands for itself. */
  function PercentDecode(b: Bytes): Bytes {
    if b == [] then []
    else if b[0] == 0x25 && |b| >= 3 && HexValue(b[1]).Some? && HexValue(b[2]).Some? then
      [16 * HexValue(b[1]).value + HexValue(b[2]).value] + PercentDecode(b[3..])
    else [b[0]] + PercentDecode(b[1..])
  }

  function PlusAsSpace(b: Bytes): (r: Bytes)
    ensures |r| == |b| && forall i | 0 <= i < |b| :: r[i] == if b[i] == 0x2B then 0x20 else b[i]
  {
    if b == [] then [] else [if b[0] == 0x2B then 0x20 else b[0]] + PlusAsSpace(b[1..])
  }

  function ParamName(piece: string): string {
    Utf8.Lossy(PercentDecode(PlusAsSpace(Utf8.Encode(piece[..Text.IndexOf(piece, '=')]))))
  }

  /** Whether some parameter of the query, its name decoded and in any case, is a signature's. */
  predicate IsSigned(url: Url) {
    var query := match url.query case Some(q) => q case None => "";
    exists piece | piece in Text.Split(query, '&') :: piece != "" && Ascii.Lower(ParamName(piece)) in SIGNATURE_PARAMS
  }

  predicate PlainByte(b: Byte) { b != 0x25 && b != 0x2B }

  lemma {:induction false} NothingToDecode(b: Bytes)
    requires forall x | x in b :: PlainByte(x)
    ensures PercentDecode(PlusAsSpace(b)) == b
  {
    if b != [] {
      assert b[0] in b;
      assert PlusAsSpace(b)[1..] == PlusAsSpace(b[1..]);
      NothingToDecode(b[1..]);
      assert b == [b[0]] + b[1..];
    }
  }

  lemma {:induction false} EncodeKeepsPlain(s: string)
    requires '%' !in s && '+' !in s
    ensures forall x | x in Utf8.Encode(s) :: PlainByte(x)
  {
    if s != [] {
      assert s[0] in s;
      EncodeKeepsPlain(s[1..]);
      assert forall x | x in Utf8.EncodeChar(s[0]) :: PlainByte(x);
    }
  }

  /** A parameter spelled plainly is seen under its own name, wherever in the query it stands. */
  lemma ParamAnywhere(before: string, name: string, value: string, after: string)
    requires name != "" && forall c | c in name :: c !in "%+=&"
    requires '&' !in value && (before == "" || before[|before| - 1] == '&') && (after == "" || after[0] == '&')
    ensures var piece := name + "=" + value;
      ParamName(piece) == name && piece in Text.Split(before + piece + after, '&')
  {
    var piece := name + "=" + value;
    Text.IndexOfJoint(name, '=', value);
    assert piece == name + ['='] + value && piece[..|name|] == name;
    EncodeKeepsPlain(name);
    NothingToDecode(Utf8.Encode(name));
    Utf8.RoundTrip(name);
    PieceAnywhere(before, piece, after);
  }

  /** What a hexadecimal digit, in either case, stands for. */
  predicate Nibble(b: Byte, d: nat) {
    d < 16 && (b as char == "0123456789abcdef"[d] || b as char == "0123456789ABCDEF"[d])
  }

  /** One way to spell bytes in a query: each as itself, a space as a plus, or any as an escape. */
  predicate Spelled(raw: Bytes, spelling: Bytes)
    decreases |raw|
  {
    if raw == [] then spelling == []
    else
      || (spelling != [] && spelling[0] == raw[0] && PlainByte(raw[0]) && Spelled(raw[1..], spelling[1..]))
      || (spelling != [] && spelling[0] == 0x2B && raw[0] == 0x20 && Spelled(raw[1..], spelling[1..]))
      || (|spelling| >= 3 && spelling[0] == 0x25 && Nibble(spelling[1], raw[0] / 16) && Nibble(spelling[2], raw[0] % 16)
          && Spelled(raw[1..], spelling[3..]))
  }

  lemma NibbleValue(b: Byte, d: nat)
    requires Nibble(b, d)
    ensures HexValue(b) == Some(d) && b != 0x2B
  {
  }

  lemma EscapeDecodes(spelling: Bytes, first: Byte)
    requires |spelling| >= 3 && spelling[0] == 0x25 && Nibble(spelling[1], first / 16) && Nibble(spelling[2], first % 16)
    ensures PercentDecode(PlusAsSpace(spelling)) == [first] + PercentDecode(PlusAsSpace(spelling[3..]))
  {
    NibbleValue(spelling[1], first / 16);
    NibbleValue(spelling[2], first % 16);
    hide HexValue, Nibble, PlusAsSpace, PercentDecode;
    var p := PlusAsSpace(spelling);
    assert p[3..] == PlusAsSpace(spelling[3..]);
    PercentEscape(p, first);
  }

  lemma PercentEscape(b: Bytes, first: Byte)
    requires |b| >= 3 && b[0] == 0x25 && HexValue(b[1]) == Some(first / 16) && HexValue(b[2]) == Some(first % 16)
    ensures PercentDecode(b) == [first] + PercentDecode(b[3..])
  {
    hide HexValue;
  }

  lemma ByteDecodes(spelling: Bytes, first: Byte)
    requires spelling != [] && ((spelling[0] == first && PlainByte(first)) || (spelling[0] == 0x2B && first == 0x20))
    ensures PercentDecode(PlusAsSpace(spelling)) == [first] + PercentDecode(PlusAsSpace(spelling[1..]))
  {
    hide HexValue;
    assert PlusAsSpace(spelling)[1..] == PlusAsSpace(spelling[1..]);
  }

  lemma {:induction false} SpelledDecodes(raw: Bytes, spelling: Bytes)
    requires Spelled(raw, spelling)
    ensures PercentDecode(PlusAsSpace(spelling)) == raw
    decreases |raw|
  {
    if raw != [] {
      hide PercentDecode, PlusAsSpace, Nibble;
      assert raw == [raw[0]] + raw[1..];
      if spelling[0] == raw[0] && PlainByte(raw[0]) && Spelled(raw[1..], spelling[1..]) {
        SpelledDecodes(raw[1..], spelling[1..]);
        ByteDecodes(spelling, raw[0]);
      } else if spelling[0] == 0x2B && raw[0] == 0x20 && Spelled(raw[1..], spelling[1..]) {
        SpelledDecodes(raw[1..], spelling[1..]);
        ByteDecodes(spelling, raw[0]);
      } else {
        SpelledDecodes(raw[1..], spelling[3..]);
        EscapeDecodes(spelling, raw[0]);
      }
    }
  }

  /** However a parameter's name is spelled, in full or in part by escapes, it is seen under its own
      name, wherever in the query it stands. */
  lemma EscapesDoNotHide(before: string, spelling: string, name: string, value: string, after: string)
    requires spelling != "" && Spelled(Utf8.Encode(name), Utf8.Encode(spelling)) && '=' !in spelling && '&' !in spelling
    requires '&' !in value && (before == "" || before[|before| - 1] == '&') && (after == "" || after[0] == '&')
    ensures var piece := spelling + "=" + value;
      ParamName(piece) == name && piece in Text.Split(before + piece + after, '&')
  {
    var piece := spelling + "=" + value;
    Text.IndexOfJoint(spelling, '=', value);
    assert piece == spelling + ['='] + value && piece[..|spelling|] == spelling;
    SpelledDecodes(Utf8.Encode(name), Utf8.Encode(spelling));
    Utf8.RoundTrip(name);
    PieceAnywhere(before, piece, after);
  }

  lemma PieceAnywhere(before: string, piece: string, after: string)
    requires '&' !in piece
    requires (before == "" || before[|before| - 1] == '&') && (after == "" || after[0] == '&')
    ensures piece in Text.Split(before + piece + after, '&')
  {
    hide Text.Split;
    var tail := piece + after;
    if after == "" {
      assert tail == piece;
      Text.SplitFirst(piece, '&', "");
    } else {
      assert tail == piece + ['&'] + after[1..];
      Text.SplitFirst(piece, '&', after[1..]);
    }
    assert piece in Text.Split(tail, '&');
    if before == "" {
      assert before + piece + after == tail;
    } else {
      var front := before[..|before| - 1];
      assert before + piece + after == front + ['&'] + tail;
      Text.SplitOfJoint(front, '&', tail);
    }
  }

  /** Whether a lookup may be tried; the reason when not. */
  function RequestEligible(p: Policy, verb: string, url: Url, headers: HeaderMap): Option<Reject> {
    if verb != "GET" then Some(NotGet)
    else if IsBypassed(p, url.host) then Some(BypassHost)
    else if !p.cacheAuthorized && (Has(headers, "authorization") || Has(headers, "cookie")) then Some(Authorized)
    else if IsSigned(url) then Some(SignedUrl)
    else None
  }

  /** A URL with a signature parameter is never eligible, whatever its letter case, however it is
      spelled and wherever in the query it stands. */
  lemma SignedNeverEligible(p: Policy, verb: string, url: Url, headers: HeaderMap,
                            before: string, spelling: string, name: string, value: string, after: string)
    requires spelling != "" && Spelled(Utf8.Encode(name), Utf8.Encode(spelling)) && '=' !in spelling && '&' !in spelling
    requires Ascii.Lower(name) in SIGNATURE_PARAMS
    requires '&' !in value && (before == "" || before[|before| - 1] == '&') && (after == "" || after[0] == '&')
    requires url.query == Some(before + (spelling + "=" + value) + after)
    ensures RequestEligible(p, verb, url, headers).Some?
  {
    hide Text.Split, ParamName, ALWAYS_BYPASS, SIGNATURE_PARAMS, Ascii.Lower, Spelled, Utf8.Encode;
    EscapesDoNotHide(before, spelling, name, value, after);
  }

  // -- responses ------------------------------------------------------------------------------

  /** The first Cache-Control field line, in lower case; nothing when it is not text. */
  function CacheControl(headers: HeaderMap): string {
    var lines := Values(headers, "cache-control");
    if lines == [] then ""
    else match ToText(lines[0]) case Some(text) => Ascii.Lower(text) case None => ""
  }

  predicate Forbids(cc: string) {
    Text.Contains(cc, "no-store") || Text.Contains(cc, "no-cache") || Text.Contains(cc, "private")
  }

  const MAX_AGE := "max-age="

  function FindMaxAge(pieces: seq<string>): Option<nat> {
    if pieces == [] then None
    else if MAX_AGE <= Text.Trim(pieces[0]) then Ascii.ParseU64(Text.Trim(pieces[0])[|MAX_AGE|..])
    else FindMaxAge(pieces[1..])
  }

  function MaxAge(cc: string): Option<nat> { FindMaxAge(Text.Split(cc, ',')) }

  predicate IsImmutableArtifact(url: Url) {
    exists e | e in IMMUTABLE :: HostMatches(url.host, e.0) && (e.1 == "" || Text.Contains(url.path, e.1))
  }

  predicate Lasting(p: Policy, url: Url, cc: string) {
    p.cacheAll || Text.Contains(cc, "immutable")
    || (match MaxAge(cc) case Some(age) => age >= p.minMaxAge case None => false)
    || IsImmutableArtifact(url)
  }

  function ResponseStorable(p: Policy, url: Url, status: nat, headers: HeaderMap, len: nat): Option<Reject> {
    if status != 200 then Some(Status)
    else
      var cc := CacheControl(headers);
      if Forbids(cc) then Some(NoStore)
      else if len < p.minSize then Some(TooSmall)
      else if len > p.maxSize then Some(TooLarge)
      else if Lasting(p, url, cc) then None
      else Some(NotImmutable)
  }

  /** What the first Cache-Control field line says, if there is one and it is text; else nothing. */
  predicate Reads(headers: HeaderMap, line: string) {
    if Has(headers, "cache-control") && ToText(Values(headers, "cache-control")[0]).Some?
    then ToText(Values(headers, "cache-control")[0]) == Some(line)
    else line == ""
  }

  lemma ReadsOne(headers: HeaderMap) returns (line: string)
    ensures Reads(headers, line) && CacheControl(headers) == Ascii.Lower(line)
    ensures forall other | Reads(headers, other) :: other == line
  {
    line := "";
    if Has(headers, "cache-control") && ToText(Values(headers, "cache-control")[0]).Some? {
      line := ToText(Values(headers, "cache-control")[0]).value;
    }
  }

  /** Some piece of the line mentions a word that forbids storing. */
  ghost predicate Mentions(line: string) { exists piece | piece in Text.Split(line, ',') :: MentionsForbidding(piece) }

  /** The URL is one of those known to serve artifacts that never change. */
  ghost predicate Artifact(url: Url) {
    exists host, mark | (host, mark) in IMMUTABLE ::
      SuffixOf(Labels(host), Labels(url.host)) && (mark == "" || Text.Contains(url.path, mark))
  }

  /** The pieces give an age of at least the minimum. */
  ghost predicate SaysAgeFrom(pieces: seq<string>, least: nat) {
    exists n: nat :: SaysAge(pieces, n) && n >= least
  }

  /** A signal that the response may be kept: by configuration, by the line, or by where it is from. */
  ghost predicate WorthKeeping(p: Policy, url: Url, line: string) {
    || p.cacheAll
    || Text.Contains(Ascii.Lower(line), "immutable")
    || SaysAgeFrom(Text.Split(Ascii.Lower(line), ','), p.minMaxAge)
    || Artifact(url)
  }

  lemma ArtifactExactly(url: Url)
    ensures IsImmutableArtifact(url) <==> Artifact(url)
  {
    hide HostMatches, Labels, SuffixOf, IMMUTABLE, Text.Contains;
    forall host: string, mark: string | (host, mark) in IMMUTABLE
      ensures HostMatches(url.host, host) <==> SuffixOf(Labels(host), Labels(url.host))
    {
      HostMatchesLabels(url.host, host);
    }
    if IsImmutableArtifact(url) {
      var e :| e in IMMUTABLE && HostMatches(url.host, e.0) && (e.1 == "" || Text.Contains(url.path, e.1));
      assert (e.0, e.1) in IMMUTABLE;
    }
  }

  lemma LastingExactly(p: Policy, url: Url, line: string)
    ensures Lasting(p, url, Ascii.Lower(line)) <==> WorthKeeping(p, url, line)
  {
    var cc := Ascii.Lower(line);
    ArtifactExactly(url);
    hide Artifact, IsImmutableArtifact, Text.Contains, Ascii.Lower, MaxAge, SaysAge, Text.Split;
    forall n: nat ensures MaxAge(cc) == Some(n) <==> SaysAge(Text.Split(cc, ','), n) {
      MaxAgeExact(cc, n);
    }
  }

  /** Which responses are accepted, for every policy and every response, Cache-Control or not: those of
      status 200 whose first field line mentions no forbidding word, whose size is within the limits, and
      for which the configuration, the word immutable, a max-age of at least the minimum or the place
      they come from speaks. */
  lemma AcceptedExactly(p: Policy, url: Url, status: nat, headers: HeaderMap, len: nat, line: string)
    requires Reads(headers, line)
    ensures ResponseStorable(p, url, status, headers, len) == None <==>
      && status == 200
      && (forall piece | piece in Text.Split(line, ',') :: !MentionsForbidding(piece))
      && p.minSize <= len <= p.maxSize
      && (|| p.cacheAll
          || Text.Contains(Ascii.Lower(line), "immutable")
          || SaysAgeFrom(Text.Split(Ascii.Lower(line), ','), p.minMaxAge)
          || Artifact(url))
  {
    hide ResponseStorable, Artifact, SaysAge, Text.Split, Text.Contains, MentionsForbidding, Reads, Ascii.Lower;
    AcceptedBy(p, url, status, headers, len, line);
  }

  lemma AcceptedBy(p: Policy, url: Url, status: nat, headers: HeaderMap, len: nat, line: string)
    requires Reads(headers, line)
    ensures ResponseStorable(p, url, status, headers, len) == None <==>
      status == 200 && !Mentions(line) && p.minSize <= len <= p.maxSize && WorthKeeping(p, url, line)
  {
    hide Forbids, Lasting, Mentions, WorthKeeping, Reads, CacheControl;
    LineDecides(p, url, headers, line);
  }

  /** The policy's view of a field line, in the line's own terms. */
  lemma LineDecides(p: Policy, url: Url, headers: HeaderMap, line: string)
    requires Reads(headers, line)
    ensures Forbids(CacheControl(headers)) <==> Mentions(line)
    ensures Lasting(p, url, CacheControl(headers)) <==> WorthKeeping(p, url, line)
    ensures forall other | Reads(headers, other) :: other == line
  {
    var one := ReadsOne(headers);
    hide Forbids, Lasting, WorthKeeping, MentionsForbidding, Reads, CacheControl, Ascii.Lower;
    ForbidsByPiece(line);
    LastingExactly(p, url, line);
  }

  /** What speaks against a request or a response, each reason by itself. */
  ghost predicate Against(p: Policy, verb: string, url: Url, request: HeaderMap, why: Reject) {
    match why
    case NotGet => verb != "GET"
    case BypassHost => Named(p, url.host)
    case Authorized => !p.cacheAuthorized && (Has(request, "authorization") || Has(request, "cookie"))
    case SignedUrl => IsSigned(url)
    case _ => false
  }

  ghost predicate AgainstResponse(p: Policy, url: Url, status: nat, headers: HeaderMap, len: nat, why: Reject) {
    match why
    case Status => status != 200
    case NoStore => exists line | Reads(headers, line) :: Mentions(line)
    case TooSmall => len < p.minSize
    case TooLarge => len > p.maxSize
    case NotImmutable => forall line | Reads(headers, line) :: !WorthKeeping(p, url, line)
    case _ => false
  }

  function Rank(why: Reject): nat {
    match why
    case NotGet => 0 case BypassHost => 1 case Authorized => 2 case SignedUrl => 3
    case Status => 4 case NoStore => 5 case TooSmall => 6 case TooLarge => 7 case NotImmutable => 8
  }

  /** Both decisions name the first reason there is, and pass only when there is none. */
  lemma FirstReasonDecides(p: Policy, verb: string, url: Url, request: HeaderMap, status: nat, headers: HeaderMap, len: nat)
    ensures match RequestEligible(p, verb, url, request)
      case None => forall q :: !Against(p, verb, url, request, q)
      case Some(why) => (Against(p, verb, url, request, why)
                         && forall q | Rank(q) < Rank(why) :: !Against(p, verb, url, request, q))
    ensures match ResponseStorable(p, url, status, headers, len)
      case None => forall q :: !AgainstResponse(p, url, status, headers, len, q)
      case Some(why) => (AgainstResponse(p, url, status, headers, len, why)
                         && forall q | Rank(q) < Rank(why) :: !AgainstResponse(p, url, status, headers, len, q))
  {
    hide IsBypassed, Named, Has, IsSigned, Forbids, Lasting, Mentions, WorthKeeping, Reads, CacheControl, Ascii.Lower;
    BypassedIsNamed(p, url.host);
    var line := ReadsOne(headers);
    LineDecides(p, url, headers, line);
    OneLine(p, url, headers, line);
  }

  lemma OneLine(p: Policy, url: Url, headers: HeaderMap, line: string)
    requires Reads(headers, line) && forall other | Reads(headers, other) :: other == line
    ensures (exists other | Reads(headers, other) :: Mentions(other)) <==> Mentions(line)
    ensures (forall other | Reads(headers, other) :: !WorthKeeping(p, url, other)) <==> !WorthKeeping(p, url, line)
  {
    hide Reads, Mentions, WorthKeeping;
  }

  /** The name of a directive: what precedes the equals sign, without blanks, in lower case. */
  function DirectiveName(piece: string): string {
    Ascii.Lower(Text.Trim(piece[..Text.IndexOf(piece, '=')]))
  }

  predicate Forbidding(name: string) { name == "no-store" || name == "no-cache" || name == "private" }

  /** The field line lists a directive that forbids a shared cache to store or to reuse unasked. */
  predicate HasForbiddingDirective(line: string) {
    exists piece | piece in Text.Split(line, ',') :: Forbidding(DirectiveName(piece))
  }

  lemma SliceOfSlice(a: string, i: nat, n: nat, k: nat, m: nat)
    requires i + n <= |a| && k + m <= n
    ensures a[i..i + n][k..k + m] == a[i + k..i + k + m]
  {
    var left, right := a[i..i + n][k..k + m], a[i + k..i + k + m];
    forall j | 0 <= j < m ensures left[j] == right[j] {
      assert a[i..i + n][k + j] == a[i + k + j];
    }
  }

  lemma ContainsIn(a: string, b: string, c: string)
    requires Text.Contains(a, b) && Text.Contains(b, c)
    ensures Text.Contains(a, c)
  {
    var i :| 0 <= i <= |a| && Text.FoundAt(a, b, i);
    var k :| 0 <= k <= |b| && Text.FoundAt(b, c, k);
    SliceOfSlice(a, i, |b|, k, |c|);
    assert Text.FoundAt(a, c, i + k);
  }

  lemma SliceIsContained(s: string, i: nat, n: nat)
    requires i + n <= |s|
    ensures Text.Contains(s, s[i..i + n])
  {
    assert Text.FoundAt(s, s[i..i + n], i);
  }

  lemma {:induction false} TrimIsSlice(s: string)
    ensures Text.Contains(s, Text.TrimEnd(s)) && Text.Contains(s, Text.TrimStart(s))
    decreases |s|
  {
    assert s[0..0 + |s|] == s;
    SliceIsContained(s, 0, |s|);
    if s != [] {
      var n := |s| - 1;
      TrimIsSlice(s[..n]);
      TrimIsSlice(s[1..]);
      SliceIsContained(s, 0, n);
      SliceIsContained(s, 1, n);
      hide Text.Contains, Text.Whitespace;
      assert s[0..0 + n] == s[..n] && s[1..1 + n] == s[1..];
      ContainsIn(s, s[..n], Text.TrimEnd(s[..n]));
      ContainsIn(s, s[1..], Text.TrimStart(s[1..]));
    }
  }

  lemma {:induction false} PieceIsContained(s: string, c: char, piece: string)
    requires piece in Text.Split(s, c)
    ensures Text.Contains(s, piece)
    decreases |s|
  {
    var i := Text.IndexOf(s, c);
    SliceIsContained(s, 0, i);
    assert s[0..0 + i] == s[..i];
    if i == |s| {
      assert s[..i] == s;
    } else {
      var rest := s[i + 1..];
      SliceIsContained(s, i + 1, |s| - i - 1);
      assert s[i + 1..i + 1 + (|s| - i - 1)] == rest;
      hide Text.Contains;
      if piece != s[..i] {
        assert Text.Split(s, c) == [s[..i]] + Text.Split(rest, c);
        PieceIsContained(rest, c, piece);
        ContainsIn(s, rest, piece);
      }
    }
  }

  lemma LowerKeepsContained(s: string, part: string)
    requires Text.Contains(s, part)
    ensures Text.Contains(Ascii.Lower(s), Ascii.Lower(part))
  {
    var i :| 0 <= i <= |s| && Text.FoundAt(s, part, i);
    var low := Ascii.Lower(s);
    forall k | 0 <= k < |part| ensures low[i..i + |part|][k] == Ascii.LowerChar(part[k]) {
      assert s[i..i + |part|][k] == s[i + k];
    }
    assert low[i..i + |part|] == Ascii.Lower(part);
    assert Text.FoundAt(low, Ascii.Lower(part), i);
  }

  lemma NameIsContained(line: string, piece: string)
    requires piece in Text.Split(line, ',')
    ensures Text.Contains(Ascii.Lower(line), DirectiveName(piece))
  {
    var i := Text.IndexOf(piece, '=');
    var head := piece[..i];
    PieceIsContained(line, ',', piece);
    SliceIsContained(piece, 0, i);
    assert piece[0..0 + i] == head;
    TrimIsSlice(head);
    TrimIsSlice(Text.TrimStart(head));
    hide Text.Contains, Text.Split, Text.TrimStart, Text.TrimEnd, Text.IndexOf;
    ContainsIn(head, Text.TrimStart(head), Text.Trim(head));
    ContainsIn(piece, head, Text.Trim(head));
    ContainsIn(line, piece, Text.Trim(head));
    LowerKeepsContained(line, Text.Trim(head));
  }

  /** Sections 5.2.2.4, 5.2.2.5 and 5.2.2.7 of RFC 9111: a no-cache, no-store or private directive,
      with or without an argument, in any case and at any position of the first field line, keeps a
      response out of the cache. */
  lemma DirectivesAreHonoured(p: Policy, url: Url, headers: HeaderMap, len: nat, line: string)
    requires Has(headers, "cache-control") && ToText(Values(headers, "cache-control")[0]) == Some(line)
    requires HasForbiddingDirective(line)
    ensures ResponseStorable(p, url, 200, headers, len) == Some(NoStore)
  {
    var piece :| piece in Text.Split(line, ',') && Forbidding(DirectiveName(piece));
    hide Text.Contains, Text.Split, DirectiveName, Lasting, ToText;
    NameIsContained(line, piece);
  }

  lemma LowerAcross(a: string, b: string)
    ensures Forbids(Ascii.Lower(a + [','] + b)) <==> Forbids(Ascii.Lower(a)) || Forbids(Ascii.Lower(b))
  {
    var x, y := Ascii.Lower(a), Ascii.Lower(b);
    assert Ascii.Lower(a + [','] + b) == x + [','] + y;
    Text.ContainsAcross(x, ',', y, "no-store");
    Text.ContainsAcross(x, ',', y, "no-cache");
    Text.ContainsAcross(x, ',', y, "private");
    hide Text.Contains, Ascii.Lower;
  }

  /** In any case and anywhere in it. */
  predicate MentionsForbidding(piece: string) {
    exists word | word in ["no-store", "no-cache", "private"] :: Text.Contains(Ascii.Lower(piece), word)
  }

  lemma ForbidsIsMention(piece: string)
    ensures Forbids(Ascii.Lower(piece)) <==> MentionsForbidding(piece)
  {
    hide Text.Contains, Ascii.Lower;
    assert "no-store" in ["no-store", "no-cache", "private"] && "no-cache" in ["no-store", "no-cache", "private"]
      && "private" in ["no-store", "no-cache", "private"];
  }

  lemma {:induction false} ForbidsByPiece(line: string)
    ensures Forbids(Ascii.Lower(line)) <==> exists piece | piece in Text.Split(line, ',') :: MentionsForbidding(piece)
    decreases |line|
  {
    var i := Text.IndexOf(line, ',');
    if i == |line| {
      assert Text.Split(line, ',') == [line];
      ForbidsIsMention(line);
      assert line in Text.Split(line, ',');
    } else {
      var first, rest := line[..i], line[i + 1..];
      assert line == first + [','] + rest;
      assert Text.Split(line, ',') == [first] + Text.Split(rest, ',');
      hide Forbids, Text.Split, Ascii.Lower, MentionsForbidding;
      LowerAcross(first, rest);
      ForbidsByPiece(rest);
      ForbidsIsMention(first);
      assert first in Text.Split(line, ',');
      assert forall piece | piece in Text.Split(line, ',') :: piece == first || piece in Text.Split(rest, ',');
    }
  }

  /** What is refused as not to be stored, exactly: a first field line some piece of which mentions one
      of the three words, in any case and anywhere in the piece. A forbidding directive is a piece whose
      whole name is the word; so a line is refused without having one exactly when some piece mentions
      a word and no piece is named by one. */
  lemma RefusedExactly(p: Policy, url: Url, headers: HeaderMap, len: nat, line: string)
    requires Has(headers, "cache-control") && ToText(Values(headers, "cache-control")[0]) == Some(line)
    ensures var refused := ResponseStorable(p, url, 200, headers, len) == Some(NoStore);
      var pieces := Text.Split(line, ',');
      && (refused <==> exists piece | piece in pieces :: MentionsForbidding(piece))
      && (refused && !HasForbiddingDirective(line) <==>
            (exists piece | piece in pieces :: MentionsForbidding(piece))
            && forall piece | piece in pieces :: !Forbidding(DirectiveName(piece)))
  {
    ForbidsByPiece(line);
    hide Forbids, Lasting, ToText, Text.Split, DirectiveName, MentionsForbidding;
  }

  /** For one: a word inside another. */
  lemma MentionsAreRefusedToo(p: Policy, url: Url, headers: HeaderMap, len: nat)
    requires Has(headers, "cache-control") && ToText(Values(headers, "cache-control")[0]) == Some("unprivate")
    ensures !HasForbiddingDirective("unprivate")
    ensures ResponseStorable(p, url, 200, headers, len) == Some(NoStore)
  {
    Unprivate();
    hide Text.Contains, Text.Split, ToText, Lasting, HasForbiddingDirective;
  }

  lemma Unprivate()
    ensures !HasForbiddingDirective("unprivate")
    ensures Text.Contains(Ascii.Lower("unprivate"), "private")
  {
    hide Text.Contains, Text.Split, DirectiveName, Ascii.Lower;
    Text.ContainsMiddle("un", "private", "");
    assert "un" + "private" + "" == "unprivate";
    Ascii.LowerAlready("unprivate");
    OnePiece("unprivate");
    assert DirectiveName("unprivate")[0] == 'u';
  }

  lemma OnePiece(line: string)
    requires ',' !in line && '=' !in line && line != "" && Ascii.Lower(line) == line
    requires !Text.Whitespace(line[0]) && !Text.Whitespace(line[|line| - 1])
    ensures Text.Split(line, ',') == [line] && DirectiveName(line) == line
  {
    Text.IndexOfAbsent(line, ',');
    Text.IndexOfAbsent(line, '=');
    assert line[..|line|] == line;
  }

  /** Nothing but the first field line is read: a directive on a later line changes nothing. */
  lemma LaterLinesUnread(p: Policy, url: Url, status: nat, h: HeaderMap, more: HeaderMap, len: nat)
    requires Has(h, "cache-control")
    ensures ResponseStorable(p, url, status, h + more, len) == ResponseStorable(p, url, status, h, len)
  {
    ValuesConcat(h, more, "cache-control");
    hide Forbids, Lasting, Values, ToText;
  }

  /** `piece` is the first max-age among the pieces and `digits` its decimal argument. */
  ghost predicate SaysMaxAge(pieces: seq<string>, i: nat, digits: string) {
    && i < |pieces| && digits != "" && Ascii.Digits(digits)
    && (Text.Trim(pieces[i]) == MAX_AGE + digits || Text.Trim(pieces[i]) == MAX_AGE + "+" + digits)
    && forall k | 0 <= k < i :: !(MAX_AGE <= Text.Trim(pieces[k]))
  }

  ghost predicate SaysAge(pieces: seq<string>, n: nat) {
    exists i: nat, digits: string :: SaysMaxAge(pieces, i, digits) && Ascii.Value(digits) == n && n < Ascii.U64
  }

  lemma {:induction false} FindMaxAgeExact(pieces: seq<string>, n: nat)
    ensures FindMaxAge(pieces) == Some(n) <==> SaysAge(pieces, n)
  {
    hide Text.Trim, Ascii.ParseU64, Ascii.Value;
    if pieces != [] {
      var t := Text.Trim(pieces[0]);
      if MAX_AGE <= t {
        var arg := t[|MAX_AGE|..];
        assert t == MAX_AGE + arg;
        Ascii.ParseU64Exact(arg, n);
        forall digits | digits != "" && Ascii.Digits(digits)
          ensures SaysMaxAge(pieces, 0, digits) <==> arg == digits || arg == ['+'] + digits
        {
          Argument(t, arg, digits);
        }
        if FindMaxAge(pieces) == Some(n) {
          var digits: string :| digits != [] && Ascii.Digits(digits) && (arg == digits || arg == ['+'] + digits)
            && Ascii.Value(digits) == n;
          assert SaysMaxAge(pieces, 0, digits);
        }
        if i: nat, digits :| SaysMaxAge(pieces, i, digits) && Ascii.Value(digits) == n && n < Ascii.U64 {
          assert i == 0;
        }
      } else {
        FindMaxAgeExact(pieces[1..], n);
        forall i: nat, digits ensures SaysMaxAge(pieces, i + 1, digits) <==> SaysMaxAge(pieces[1..], i, digits) {
          ShiftMaxAge(pieces, i, digits);
        }
        if FindMaxAge(pieces) == Some(n) {
          var i: nat, digits :| SaysMaxAge(pieces[1..], i, digits) && Ascii.Value(digits) == n && n < Ascii.U64;
          assert SaysMaxAge(pieces, i + 1, digits);
        }
        if i: nat, digits :| SaysMaxAge(pieces, i, digits) && Ascii.Value(digits) == n && n < Ascii.U64 {
          assert SaysMaxAge(pieces[1..], i - 1, digits);
        }
      }
    }
  }

  lemma ShiftMaxAge(pieces: seq<string>, i: nat, digits: string)
    requires pieces != [] && !(MAX_AGE <= Text.Trim(pieces[0]))
    ensures SaysMaxAge(pieces, i + 1, digits) <==> SaysMaxAge(pieces[1..], i, digits)
  {
    hide Text.Trim;
    if SaysMaxAge(pieces, i + 1, digits) {
      forall k | 0 <= k < i ensures !(MAX_AGE <= Text.Trim(pieces[1..][k])) {
        assert pieces[1..][k] == pieces[k + 1];
      }
    }
    if SaysMaxAge(pieces[1..], i, digits) {
      forall k | 0 <= k < i + 1 ensures !(MAX_AGE <= Text.Trim(pieces[k])) {
        assert k > 0 ==> pieces[k] == pieces[1..][k - 1];
      }
    }
  }

  /** The age read is the decimal, with or without a plus sign, that follows the first max-age of the
      line; one of 2^64 or more reads as no age at all, unlike section 1.2.2 of RFC 9111 has it. */
  lemma MaxAgeExact(cc: string, n: nat)
    ensures MaxAge(cc) == Some(n) <==> SaysAge(Text.Split(cc, ','), n)
  {
    FindMaxAgeExact(Text.Split(cc, ','), n);
  }

  lemma Argument(t: string, arg: string, digits: string)
    requires t == MAX_AGE + arg
    ensures t == MAX_AGE + digits <==> arg == digits
    ensures t == MAX_AGE + "+" + digits <==> arg == ['+'] + digits
  {
    assert t[|MAX_AGE|..] == arg;
    assert (MAX_AGE + digits)[|MAX_AGE|..] == digits;
    assert (MAX_AGE + "+" + digits)[|MAX_AGE|..] == ['+'] + digits;
    assert MAX_AGE + "+" + digits == MAX_AGE + (['+'] + digits);
  }

  // -- keys -----------------------------------------------------------------------------------

  predicate DefaultPort(url: Url) {
    (url.scheme == "https" && url.port == Some(443)) || (url.scheme == "http" && url.port == Some(80))
  }

  /** Without its fragment, and without a port that goes without saying. */
  function Normal(url: Url): Url {
    url.(fragment := None, port := if DefaultPort(url) then None else url.port)
  }

  function Tail(mark: string, part: Option<string>): string {
    match part case Some(text) => mark + text case None => ""
  }

  function Authority(url: Url): string {
    url.site + match url.port case Some(n) => ":" + Ascii.Print(n) case None => ""
  }

  function Spell(url: Url): string {
    url.scheme + "://" + (Authority(url) + (url.path + (Tail("?", url.query) + Tail("#", url.fragment))))
  }

  function Preimage(url: Url): Bytes { Utf8.Encode("GET\n" + Spell(Normal(url))) }

  /** The key, given what the hash makes of a byte string: its digest in lower-case hex. */
  function Key(p: Policy, url: Url, hash: Bytes -> string): string {
    p.keyPrefix + "-" + hash(Preimage(url))
  }

  predicate Digest(s: string) { |s| == 64 && forall c | c in s :: World.Hex(c) }

  /** What is hashed for a parsed URL: the method and a newline, then scheme, user and host, the port
      unless it is the scheme's own, path and query. */
  lemma KeySpelledOut(p: Policy, u: Url, hash: Bytes -> string)
    ensures var port := if u.port == None || u.port == PortOf(u.(port := None)) then "" else ":" + Ascii.Print(u.port.value);
      var query := match u.query { case Some(q) => "?" + q case None => "" };
      Key(p, u, hash) ==
        p.keyPrefix + "-" + hash(Utf8.Encode("GET\n" + (u.scheme + "://" + (u.site + port + (u.path + query)))))
  {
    hide Utf8.Encode, Ascii.Print;
    assert Tail("?", u.query) + Tail("#", None) == Tail("?", u.query);
    assert u.site + "" == u.site;
  }

  /** The policy's keys have the shape the store relies on. */
  lemma KeysAreObjectKeys(p: Policy, url: Url, hash: Bytes -> string)
    requires Digest(hash(Preimage(url)))
    ensures World.ObjectKey(p.keyPrefix, Key(p, url, hash))
  {
    var d, k := hash(Preimage(url)), Key(p, url, hash);
    forall i | |p.keyPrefix| < i < |k| ensures World.Hex(k[i]) {
      assert k[i] == d[i - |p.keyPrefix| - 1];
    }
  }

  predicate Free(s: string, marks: string) { forall c | c in s :: c !in marks }

  /** How many digits a string ends with. */
  function DigitRun(s: string): (n: nat)
    ensures n <= |s|
  {
    if s != [] && Ascii.Digit(s[|s| - 1]) then 1 + DigitRun(s[..|s| - 1]) else 0
  }

  /** Nothing at the end of the site could be read as a port. */
  predicate NoPortInside(site: string) {
    var n := |site| - DigitRun(site);
    n == 0 || site[n - 1] != ':'
  }

  /** What a URL parser guarantees: no part contains the mark that would end it. */
  predicate Parsed(url: Url) {
    && Free(url.scheme, ":") && Free(url.site, "/?#") && NoPortInside(url.site)
    && url.path != "" && url.path[0] == '/' && Free(url.path, "?#")
    && (match url.query case Some(q) => Free(q, "#") case None => true)
  }

  /** The same but for the fragment, and for naming a port that goes without saying. */
  predicate SameTarget(u: Url, v: Url) {
    u.scheme == v.scheme && u.site == v.site && PortOf(u) == PortOf(v) && u.path == v.path && u.query == v.query
  }

  /** The port a URL is about: the one it names, or else its scheme's own. */
  function PortOf(url: Url): Option<nat> {
    if url.port.Some? then url.port
    else if url.scheme == "https" then Some(443)
    else if url.scheme == "http" then Some(80)
    else None
  }

  lemma SameNormal(u: Url, v: Url)
    ensures SameTarget(u, v) <==> Normal(u).(host := "") == Normal(v).(host := "")
  {
  }

  /** Where the first mark is. */
  function Upto(s: string, marks: string): (n: nat)
    ensures n <= |s|
  {
    if s == [] || s[0] in marks then 0 else 1 + Upto(s[1..], marks)
  }

  lemma {:induction false} UptoJoint(a: string, x: string, marks: string)
    requires Free(a, marks) && (x == "" || x[0] in marks)
    ensures Upto(a + x, marks) == |a|
  {
    if a == "" {
      assert a + x == x;
    } else {
      assert a[0] in a && (a + x)[1..] == a[1..] + x;
      UptoJoint(a[1..], x, marks);
    }
  }

  /** Strings split at their first mark split alike. */
  lemma FirstMark(a: string, b: string, x: string, y: string, marks: string)
    requires Free(a, marks) && Free(b, marks) && a + x == b + y
    requires x == "" || x[0] in marks
    requires y == "" || y[0] in marks
    ensures a == b && x == y
  {
    UptoJoint(a, x, marks);
    UptoJoint(b, y, marks);
    var s := a + x;
    assert s[..|a|] == a && s[..|b|] == b && s[|a|..] == x && s[|b|..] == y;
  }

  lemma {:induction false} DigitRunJoint(a: string, x: string)
    requires Ascii.Digits(x)
    ensures DigitRun(a + ":" + x) == |x|
    decreases |x|
  {
    var s := a + ":" + x;
    if x != "" {
      var short := x[..|x| - 1];
      assert s[|s| - 1] == x[|x| - 1] && x[|x| - 1] in x;
      assert s[..|s| - 1] == a + ":" + short;
      DigitRunJoint(a, short);
    }
  }

  lemma LastMark(a: string, b: string, x: string, y: string)
    requires Ascii.Digits(x) && Ascii.Digits(y) && a + ":" + x == b + ":" + y
    ensures a == b && x == y
  {
    DigitRunJoint(a, x);
    DigitRunJoint(b, y);
    var s := a + ":" + x;
    assert s[..|a|] == a && s[|a| + 1..] == x;
    assert s[..|b|] == b && s[|b| + 1..] == y;
  }

  lemma PortEnds(site: string, digits: string)
    requires Ascii.Digits(digits)
    ensures !NoPortInside(site + ":" + digits)
  {
    DigitRunJoint(site, digits);
  }

  lemma AuthorityInjective(u: Url, v: Url)
    requires NoPortInside(u.site) && NoPortInside(v.site) && Authority(u) == Authority(v)
    ensures u.site == v.site && u.port == v.port
  {
    hide NoPortInside, Ascii.Print;
    if u.port.Some? {
      assert u.site + ":" + Ascii.Print(u.port.value) == Authority(u);
      PortEnds(u.site, Ascii.Print(u.port.value));
      Ascii.PrintRoundTrip(u.port.value);
    }
    if v.port.Some? {
      assert v.site + ":" + Ascii.Print(v.port.value) == Authority(v);
      PortEnds(v.site, Ascii.Print(v.port.value));
      Ascii.PrintRoundTrip(v.port.value);
    }
    if u.port.Some? && v.port.Some? {
      LastMark(u.site, v.site, Ascii.Print(u.port.value), Ascii.Print(v.port.value));
    } else {
      assert u.port == None ==> Authority(u) == u.site;
      assert v.port == None ==> Authority(v) == v.site;
    }
  }

  lemma AuthorityFree(u: Url)
    requires Free(u.site, "/?#")
    ensures Free(Authority(u), "/?#")
  {
    if u.port.Some? {
      forall c | c in Authority(u) ensures c !in "/?#" {
        assert c in u.site || c == ':' || c in Ascii.Print(u.port.value);
      }
    }
  }

  lemma TailsInjective(p: string, q: string, a: Option<string>, b: Option<string>, x: Option<string>, y: Option<string>)
    requires Free(p, "?#") && Free(q, "?#")
    requires (a.Some? ==> Free(a.value, "#")) && (b.Some? ==> Free(b.value, "#"))
    requires p + (Tail("?", a) + Tail("#", x)) == q + (Tail("?", b) + Tail("#", y))
    ensures p == q && a == b && x == y
  {
    FirstMark(p, q, Tail("?", a) + Tail("#", x), Tail("?", b) + Tail("#", y), "?#");
    FirstMark(Tail("?", a), Tail("?", b), Tail("#", x), Tail("#", y), "#");
    if a.Some? && b.Some? {
      assert Tail("?", a)[1..] == a.value && Tail("?", b)[1..] == b.value;
    }
    if x.Some? && y.Some? {
      assert Tail("#", x)[1..] == x.value && Tail("#", y)[1..] == y.value;
    }
  }

  /** A parsed URL can be read off its spelling. */
  lemma SpellInjective(u: Url, v: Url)
    requires Parsed(u) && Parsed(v) && Spell(u) == Spell(v)
    ensures u.(host := "") == v.(host := "")
  {
    hide Ascii.Print, NoPortInside, Authority, Tail, Free;
    var restU := u.path + (Tail("?", u.query) + Tail("#", u.fragment));
    var restV := v.path + (Tail("?", v.query) + Tail("#", v.fragment));
    assert Spell(u) == u.scheme + ("://" + (Authority(u) + restU));
    assert Spell(v) == v.scheme + ("://" + (Authority(v) + restV));
    FirstMark(u.scheme, v.scheme, "://" + (Authority(u) + restU), "://" + (Authority(v) + restV), ":");
    assert ("://" + (Authority(u) + restU))[3..] == Authority(u) + restU;
    assert ("://" + (Authority(v) + restV))[3..] == Authority(v) + restV;
    AuthorityFree(u);
    AuthorityFree(v);
    FirstMark(Authority(u), Authority(v), restU, restV, "/?#");
    AuthorityInjective(u, v);
    TailsInjective(u.path, v.path, u.query, v.query, u.fragment, v.fragment);
  }

  /** Two URLs share a key exactly when scheme, user and host, port, path and query are the same, a port
      not named being the scheme's own; unless the hash gives their two byte strings one digest. */
  lemma KeysTellTargetsApart(p: Policy, u: Url, v: Url, hash: Bytes -> string)
    requires Parsed(u) && Parsed(v)
    requires hash(Preimage(u)) == hash(Preimage(v)) ==> Preimage(u) == Preimage(v)
    ensures Key(p, u, hash) == Key(p, v, hash) <==> SameTarget(u, v)
  {
    var a, b := hash(Preimage(u)), hash(Preimage(v));
    SameNormal(u, v);
    hide Utf8.Encode, Utf8.Decode, Ascii.Print, NoPortInside, Tail, Free;
    if Key(p, u, hash) == Key(p, v, hash) {
      assert Key(p, u, hash)[|p.keyPrefix| + 1..] == a && Key(p, v, hash)[|p.keyPrefix| + 1..] == b;
      Utf8.RoundTrip("GET\n" + Spell(Normal(u)));
      Utf8.RoundTrip("GET\n" + Spell(Normal(v)));
      assert ("GET\n" + Spell(Normal(u)))[4..] == Spell(Normal(u));
      assert ("GET\n" + Spell(Normal(v)))[4..] == Spell(Normal(v));
      hide Spell;
      SpellInjective(Normal(u), Normal(v));
    }
  }
}
