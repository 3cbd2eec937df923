/** What becomes of one request: forwarded, answered from the cache, or fetched and perhaps stored. */
module Proxy {
  import opened Base
  import opened Headers
  import opened Gha
  import opened Job
  import Ascii
  import Entry
  import P = Policy
  import S = Store
  import T = Stats
  import Utf8

  // -- requests and responses -----------------------------------------------------------------

  /** A request as the listener hands it over: what its URI and headers say, the absolute URL made of
      them (none when that does not parse), and its body (none when reading it fails). */
  datatype Request = Request(tunnelled: bool, authority: bool, verb: string, url: Option<P.Url>, headers: HeaderMap,
                             body: Option<Bytes>)

  datatype Payload = Whole(bytes: Bytes) | Streamed

  datatype Response = Response(status: nat, headers: HeaderMap, payload: Payload)

  /** The origin's answer; the body is none when reading it fails. */
  datatype Upstream = Upstream(status: nat, headers: HeaderMap, declared: Option<nat>, body: Option<Bytes>)

  datatype Upcall = Upcall(verb: string, url: P.Url, headers: HeaderMap, body: Bytes)

  /** What the surroundings will do for one request: the disk, the cache service, the origin, the
      clocks, and the text of whatever goes wrong. */
  datatype Env = Env(readable: bool, reply: Reply<Offer>, fetched: bool, wrote: bool, upstream: Option<Upstream>,
                     now: nat, millis: nat, fault: string)

  /** The parts of the proxy that do not change while it runs. */
  datatype Setup = Setup(policy: P.Policy, codec: Entry.Codec, hash: Bytes -> string, spell: P.Url -> string)

  function Ink(s: string): Bytes { seq(|s|, i requires 0 <= i < |s| => OneByte(s[i])) }

  function Sanitized(headers: HeaderMap): HeaderMap {
    if headers == [] then []
    else
      (if Entry.HopByHop(headers[0].0) || headers[0].0 == "host" then [] else [headers[0]]) + Sanitized(headers[1..])
  }

  function WithCache(headers: HeaderMap, cache: string): HeaderMap { Insert(headers, "x-cicache", Ink(cache)) }

  function Built(status: nat, headers: HeaderMap, body: Bytes, cache: string): Response {
    Response(status, WithCache(Insert(headers, "content-length", Ink(Ascii.Print(|body|))), cache), Whole(body))
  }

  /** A stored entry as a response; a status no response can have becomes 200. */
  function Replayed(e: Entry.Entry): Response {
    Built(if 100 <= e.header.status <= 999 then e.header.status else 200, Entry.Restored(e.header.headers), e.body, "HIT")
  }

  function PlainText(status: nat, message: string): Response {
    Response(status, [("content-type", Ink("text/plain"))], Whole(Utf8.Encode(message + "\n")))
  }

  function Reason(why: P.Reject): string {
    match why
    case NotGet => "not a GET"
    case BypassHost => "bypassed host"
    case Authorized => "authenticated request"
    case SignedUrl => "pre-signed URL"
    case Status => "non-200 status"
    case NoStore => "no-store/no-cache/private"
    case TooSmall => "below min-size"
    case TooLarge => "above max-size"
    case NotImmutable => "no immutability signal"
  }

  // -- what a request comes to ----------------------------------------------------------------

  /** The store afterwards, what was recorded, what went upstream, the calls made to the cache
      service, and the response; none of it when the request fails. */
  datatype Outcome = Outcome(core: Core, note: Option<T.Note>, sent: Option<Upcall>, calls: nat, response: Option<Response>)

  function Declared(u: Upstream): nat { match u.declared case Some(n) => n case None => 0 }

  function Pinned(headers: HeaderMap): HeaderMap {
    Insert(Remove(Sanitized(headers), "accept-encoding"), "accept-encoding", Ink("identity"))
  }

  function AfterForward(c: Core, verb: string, url: P.Url, headers: HeaderMap, body: Bytes, why: P.Reject, env: Env): Outcome {
    var sent := Some(Upcall(verb, url, Sanitized(headers), body));
    match env.upstream
    case None => Outcome(c, None, sent, 0, None)
    case Some(u) =>
      Outcome(c, Some(T.Note(T.Pass(Reason(why)), Declared(u), env.millis)), sent, 0,
              Some(Response(u.status, WithCache(Sanitized(u.headers), "PASS"), Streamed)))
  }

  /** What a stored response leaves in the store. */
  function FiledAs(setup: Setup, key: Key, url: P.Url, status: nat, headers: HeaderMap, body: Bytes, now: nat): Msg {
    Msg(key, Entry.Encoded(setup.codec, Entry.New(setup.codec, setup.spell(url), status, headers, body, now)))
  }

  function AfterFetchAndStore(setup: Setup, cfg: Config, c: Core, verb: string, url: P.Url, headers: HeaderMap, key: Key,
                              env: Env): Outcome {
    var sent := Some(Upcall(verb, url, Pinned(headers), []));
    match env.upstream
    case None => Outcome(c, None, sent, 0, None)
    case Some(u) =>
      var clean := Sanitized(u.headers);
      if Declared(u) > setup.policy.maxSize then
        Outcome(c, Some(T.Note(T.Miss(Reason(P.TooLarge)), Declared(u), env.millis)), sent, 0,
                Some(Response(u.status, WithCache(clean, "MISS"), Streamed)))
      else
        match u.body
        case None => Outcome(c, None, sent, 0, None)
        case Some(body) =>
          var response := Some(Built(u.status, clean, body, "MISS"));
          match P.ResponseStorable(setup.policy, url, u.status, clean, |body|)
          case None =>
            Outcome(S.AfterPut(cfg, c, FiledAs(setup, key, url, u.status, clean, body, env.now), env.wrote),
                    Some(T.Note(T.Stored, |body|, env.millis)), sent, 0, response)
          case Some(why) => Outcome(c, Some(T.Note(T.Miss(Reason(why)), |body|, env.millis)), sent, 0, response)
  }

  function AfterHandle(setup: Setup, cfg: Config, c: Core, req: Request, url: P.Url, env: Env): Outcome {
    match req.body
    case None => Outcome(c, None, None, 0, None)
    case Some(body) =>
      match P.RequestEligible(setup.policy, req.verb, url, req.headers)
      case Some(why) => AfterForward(c, req.verb, url, req.headers, body, why, env)
      case None =>
        var key := P.Key(setup.policy, url, setup.hash);
        var found := S.AfterGet(cfg, c, key, env.readable, env.reply, env.fetched);
        var entry := match found.answer case Some(raw) => Entry.Decoded(setup.codec, raw) case None => None;
        match entry
        case Some(e) =>
          Outcome(found.core, Some(T.Note(T.Hit, |e.body|, 0)), None, found.calls, Some(Replayed(e)))
        case None =>
          var o := AfterFetchAndStore(setup, cfg, found.core, req.verb, url, req.headers, key, env);
          o.(calls := found.calls)
  }

  /** Whether a request gets as far as being handled: not a tunnel's opening, not one of the control
      endpoints, and with a URL that parses. */
  predicate Reaches(req: Request) {
    (req.tunnelled || (req.verb != "CONNECT" && req.authority)) && req.url.Some?
  }

  function AfterDispatch(setup: Setup, cfg: Config, c: Core, req: Request, env: Env): Outcome
    requires req.tunnelled || (req.verb != "CONNECT" && req.authority)
  {
    match req.url
    case None => Outcome(c, None, None, 0, Some(PlainText(400, env.fault)))
    case Some(url) =>
      var o := AfterHandle(setup, cfg, c, req, url, env);
      if o.response.Some? then o
      else o.(note := Some(T.Note(T.Error(env.fault), 0, 0)), response := Some(PlainText(502, env.fault)))
  }

  /** The counters after an outcome. */
  function Noted(s: T.Summary, note: Option<T.Note>): T.Summary {
    match note case Some(n) => T.Recorded(s, n) case None => s
  }

  // -- the object -----------------------------------------------------------------------------

  method Sanitize(headers: HeaderMap) returns (out: HeaderMap)
    ensures out == Sanitized(headers)
  {
    out := [];
    for i := 0 to |headers|
      invariant out + Sanitized(headers[i..]) == Sanitized(headers)
    {
      assert headers[i..][1..] == headers[i + 1..];
      if Entry.HopByHop(headers[i].0) || headers[i].0 == "host" {
        continue;
      }
      out := Append(out, headers[i].0, headers[i].1);
    }
    assert headers[|headers|..] == [];
  }

  method Build(status: nat, headers: HeaderMap, body: Bytes, cache: string) returns (response: Response)
    ensures response == Built(status, headers, body, cache)
  {
    var target := headers;
    target := Remove(target, "content-length");
    target := Insert(target, "content-length", Ink(Ascii.Print(|body|)));
    RemoveTwice(headers, "content-length");
    target := WithCache(target, cache);
    response := Response(status, target, Whole(body));
  }

  lemma {:induction false} RemoveTwice(h: HeaderMap, name: Name)
    ensures Remove(Remove(h, name), name) == Remove(h, name)
  {
    if h != [] {
      RemoveTwice(h[1..], name);
      if h[0].0 != name {
        assert Remove(h, name)[1..] == Remove(h[1..], name);
      } else {
        assert Remove(h, name) == Remove(h[1..], name);
      }
    }
  }

  method Replay(e: Entry.Entry) returns (response: Response)
    ensures response == Replayed(e)
  {
    var headers := Entry.ToHeaderMap(e.header.headers);
    response := Build(if 100 <= e.header.status <= 999 then e.header.status else 200, headers, e.body, "HIT");
  }

  class Proxy {
    const setup: Setup
    const store: S.Store
    const stats: T.Stats

    constructor (setup: Setup, store: S.Store, stats: T.Stats)
      ensures this.setup == setup && this.store == store && this.stats == stats
    {
      this.setup, this.store, this.stats := setup, store, stats;
    }

    /** Passes a request through. */
    method Forward(verb: string, url: P.Url, headers: HeaderMap, body: Bytes, why: P.Reject, env: Env)
      returns (sent: Option<Upcall>, response: Option<Response>, ghost note: Option<T.Note>)
      modifies stats
      ensures Outcome(store.View(), note, sent, 0, response)
        == AfterForward(old(store.View()), verb, url, headers, body, why, env)
      ensures stats.View() == Noted(old(stats.View()), note)
    {
      var clean := Sanitize(headers);
      sent, response, note := Some(Upcall(verb, url, clean, body)), None, None;
      if env.upstream == None {
        return;
      }
      var u := env.upstream.value;
      var back := Sanitize(u.headers);
      stats.Record(T.Pass(Reason(why)), Declared(u), env.millis);
      note := Some(T.Note(T.Pass(Reason(why)), Declared(u), env.millis));
      response := Some(Response(u.status, WithCache(back, "PASS"), Streamed));
    }

    /** Asks the origin, stores what may be stored, and answers. */
    method FetchAndStore(verb: string, url: P.Url, headers: HeaderMap, key: Key, env: Env)
      returns (sent: Option<Upcall>, response: Option<Response>, ghost note: Option<T.Note>)
      requires store.Valid()
      modifies store, stats
      ensures store.Valid()
      ensures Outcome(store.View(), note, sent, 0, response)
        == AfterFetchAndStore(setup, store.cfg, old(store.View()), verb, url, headers, key, env)
      ensures stats.View() == Noted(old(stats.View()), note)
    {
      var up := Sanitize(headers);
      up := Remove(up, "accept-encoding");
      up := Insert(up, "accept-encoding", Ink("identity"));
      sent, response, note := Some(Upcall(verb, url, up, [])), None, None;
      if env.upstream == None {
        return;
      }
      var u := env.upstream.value;
      var clean := Sanitize(u.headers);
      if Declared(u) > setup.policy.maxSize {
        stats.Record(T.Miss(Reason(P.TooLarge)), Declared(u), env.millis);
        note := Some(T.Note(T.Miss(Reason(P.TooLarge)), Declared(u), env.millis));
        response := Some(Response(u.status, WithCache(clean, "MISS"), Streamed));
        return;
      }
      if u.body == None {
        return;
      }
      var body := u.body.value;
      var storable := P.ResponseStorable(setup.policy, url, u.status, clean, |body|);
      var outcome;
      if storable == None {
        var entry := Entry.New(setup.codec, setup.spell(url), u.status, clean, body, env.now);
        var encoded := Entry.Encode(setup.codec, entry);
        store.Put(key, encoded, env.wrote);
        outcome := T.Stored;
      } else {
        outcome := T.Miss(Reason(storable.value));
      }
      stats.Record(outcome, |body|, env.millis);
      note := Some(T.Note(outcome, |body|, env.millis));
      var built := Build(u.status, clean, body, "MISS");
      response := Some(built);
    }

    method Handle(req: Request, url: P.Url, env: Env)
      returns (sent: Option<Upcall>, calls: nat, response: Option<Response>, ghost note: Option<T.Note>)
      requires store.Valid()
      modifies store, store.gha, stats
      ensures store.Valid()
      ensures Outcome(store.View(), note, sent, calls, response)
        == AfterHandle(setup, store.cfg, old(store.View()), req, url, env)
      ensures stats.View() == Noted(old(stats.View()), note)
    {
      hide P.RequestEligible, P.Key, S.AfterGet, Entry.Decoded, AfterForward, AfterFetchAndStore, T.Recorded, Replayed;
      sent, calls, response, note := None, 0, None, None;
      if req.body == None {
        return;
      }
      var why := P.RequestEligible(setup.policy, req.verb, url, req.headers);
      if why != None {
        sent, response, note := Forward(req.verb, url, req.headers, req.body.value, why.value, env);
        return;
      }
      var key := P.Key(setup.policy, url, setup.hash);
      var raw;
      raw, calls := store.Get(key, env.readable, env.reply, env.fetched);
      if raw.Some? {
        var entry := Entry.Decoded(setup.codec, raw.value);
        if entry.Some? {
          stats.Record(T.Hit, |entry.value.body|, 0);
          note := Some(T.Note(T.Hit, |entry.value.body|, 0));
          var replayed := Replay(entry.value);
          response := Some(replayed);
          return;
        }
      }
      sent, response, note := FetchAndStore(req.verb, url, req.headers, key, env);
    }

    /** Every request but a tunnel's opening and the control endpoints. */
    method Dispatch(req: Request, env: Env)
      returns (sent: Option<Upcall>, calls: nat, response: Option<Response>, ghost note: Option<T.Note>)
      requires store.Valid() && (req.tunnelled || (req.verb != "CONNECT" && req.authority))
      modifies store, store.gha, stats
      ensures store.Valid()
      ensures Outcome(store.View(), note, sent, calls, response)
        == AfterDispatch(setup, store.cfg, old(store.View()), req, env)
      ensures stats.View() == Noted(old(stats.View()), note)
    {
      hide AfterHandle, T.Recorded;
      sent, calls, response, note := None, 0, None, None;
      if req.url == None {
        response := Some(PlainText(400, env.fault));
        return;
      }
      sent, calls, response, note := Handle(req, req.url.value, env);
      if response == None {
        Fails(setup, store.cfg, old(store.View()), req, req.url.value, env);
        stats.Record(T.Error(env.fault), 0, 0);
        note := Some(T.Note(T.Error(env.fault), 0, 0));
        response := Some(PlainText(502, env.fault));
      }
    }
  }

  /** A request that fails has recorded nothing before. */
  lemma Fails(setup: Setup, cfg: Config, c: Core, req: Request, url: P.Url, env: Env)
    ensures var o := AfterHandle(setup, cfg, c, req, url, env); o.note.Some? <==> o.response.Some?
  {
    hide P.RequestEligible, P.Key, P.ResponseStorable, S.AfterGet, S.AfterPut, Entry.Decoded, Replayed, FiledAs, Built, WithCache;
  }

  // -- one outcome a request ------------------------------------------------------------------

  /** The entry a request would be answered with, if it is eligible and finds one that decodes. */
  function Cached(setup: Setup, cfg: Config, c: Core, req: Request, url: P.Url, env: Env): Option<Entry.Entry> {
    if req.body == None || P.RequestEligible(setup.policy, req.verb, url, req.headers).Some? then None
    else
      match S.AfterGet(cfg, c, P.Key(setup.policy, url, setup.hash), env.readable, env.reply, env.fetched).answer
      case Some(raw) => Entry.Decoded(setup.codec, raw)
      case None => None
  }

  /** The origin's answer to a request may be stored: the whole of it was read, its declared size is
      within the ceiling, and the policy accepts it. */
  predicate Storable(setup: Setup, url: P.Url, u: Upstream) {
    Declared(u) <= setup.policy.maxSize && u.body.Some?
    && P.ResponseStorable(setup.policy, url, u.status, Sanitized(u.headers), |u.body.value|) == None
  }

  /** The origin declares more than the policy lets in. */
  predicate Oversized(setup: Setup, u: Upstream) { u.declared.Some? && u.declared.value > setup.policy.maxSize }

  /** Every request is answered; exactly those that are handled record an outcome, and just one; and
      the outcome says what happened. */
  lemma OutcomeSaysWhatHappened(setup: Setup, cfg: Config, c: Core, req: Request, env: Env)
    requires req.tunnelled || (req.verb != "CONNECT" && req.authority)
    ensures var o := AfterDispatch(setup, cfg, c, req, env);
      && o.response.Some?
      && (o.note.Some? <==> Reaches(req))
      && (Reaches(req) ==>
            var url, said := req.url.value, o.note.value.outcome;
            var eligible := P.RequestEligible(setup.policy, req.verb, url, req.headers) == None;
            var cached := Cached(setup, cfg, c, req, url, env);
            && (said.Hit? <==> cached.Some?)
            && (said.Hit? ==> o.sent == None && o.response == Some(Replayed(cached.value)))
            && (said.Pass? <==> req.body.Some? && !eligible && env.upstream.Some?)
            && (said.Stored? <==> (req.body.Some? && eligible && cached == None
                                   && env.upstream.Some? && Storable(setup, url, env.upstream.value)))
            && (said.Error? <==> (req.body == None
                                  || (cached == None && env.upstream == None)
                                  || (eligible && cached == None && env.upstream.value.body == None
                                      && Declared(env.upstream.value) <= setup.policy.maxSize))))
  {
    hide P.RequestEligible, P.Key, P.ResponseStorable, S.AfterGet, S.AfterPut, Entry.Decoded, Replayed, FiledAs, Built,
      WithCache, Sanitized, PlainText, Pinned;
  }

  /** What is recorded with the outcome: the bytes of the body the client is given (as declared, when
      they are streamed), the time the origin took, and why a response was passed or not stored. The
      cache service is asked by the lookup of an eligible request and nothing else. */
  lemma RecordSaysWhy(setup: Setup, cfg: Config, c: Core, req: Request, env: Env)
    requires Reaches(req)
    ensures var o := AfterDispatch(setup, cfg, c, req, env);
      var note, why := o.note, P.RequestEligible(setup.policy, req.verb, req.url.value, req.headers);
      && note.Some?
      && o.calls == (if req.body == None || why.Some? then 0
                     else S.AfterGet(cfg, c, P.Key(setup.policy, req.url.value, setup.hash), env.readable, env.reply, env.fetched).calls)
      && match note.value
        case Note(Hit, n, t) =>
          Cached(setup, cfg, c, req, req.url.value, env).Some?
          && n == |Cached(setup, cfg, c, req, req.url.value, env).value.body| && t == 0
        case Note(Pass(said), n, t) =>
          why.Some? && said == Reason(why.value) && env.upstream.Some?
          && n == (match env.upstream.value.declared case Some(d) => d case None => 0) && t == env.millis
        case Note(Stored, n, t) =>
          env.upstream.Some? && env.upstream.value.body.Some? && n == |env.upstream.value.body.value| && t == env.millis
        case Note(Miss(said), n, t) =>
          env.upstream.Some? && t == env.millis
          && (var u := env.upstream.value;
              if Oversized(setup, u) then said == Reason(P.TooLarge) && n == u.declared.value
              else
                u.body.Some? && n == |u.body.value|
                && (var against := P.ResponseStorable(setup.policy, req.url.value, u.status, Sanitized(u.headers), n);
                    against.Some? && said == Reason(against.value)))
        case Note(Error(said), n, t) => said == env.fault && n == 0 && t == 0
  {
    hide P.RequestEligible, P.Key, P.ResponseStorable, S.AfterGet, S.AfterPut, Entry.Decoded, Replayed, FiledAs, Built,
      WithCache, Sanitized, PlainText, Pinned, Reason;
  }

  /** No two reasons read the same. */
  lemma ReasonsDiffer(a: P.Reject, b: P.Reject)
    ensures Reason(a) == Reason(b) <==> a == b
  {
    var letter := (s: string) => (|s|, if |s| > 5 then s[4] else ' ');
    assert letter(Reason(a)) == letter(Reason(b)) ==> a == b;
  }

  /** The store takes a message from a request exactly when the outcome is recorded as stored, and it
      is the origin's response to that request, filed under the request's key; otherwise an eligible
      request leaves what its lookup left, and any other touches nothing. */
  lemma OnlyAcceptedAreFiled(setup: Setup, cfg: Config, c: Core, req: Request, url: P.Url, env: Env)
    ensures var o := AfterHandle(setup, cfg, c, req, url, env);
      var key := P.Key(setup.policy, url, setup.hash);
      var looked := S.AfterGet(cfg, c, key, env.readable, env.reply, env.fetched).core;
      if o.note.Some? && o.note.value.outcome.Stored? then
        && P.RequestEligible(setup.policy, req.verb, url, req.headers) == None
        && env.upstream.Some? && Storable(setup, url, env.upstream.value)
        && o.core == S.AfterPut(cfg, looked, FiledAs(setup, key, url, env.upstream.value.status,
             Sanitized(env.upstream.value.headers), env.upstream.value.body.value, env.now), env.wrote)
      else o.core == if req.body == None || P.RequestEligible(setup.policy, req.verb, url, req.headers).Some? then c else looked
  {
    hide P.RequestEligible, P.Key, P.ResponseStorable, S.AfterGet, S.AfterPut, Entry.Decoded, Replayed, FiledAs, Built,
      WithCache, Sanitized, PlainText, Pinned;
  }

  // -- headers --------------------------------------------------------------------------------

  predicate Dropped(name: Name) { Entry.HopByHop(name) || name == "host" }

  lemma {:induction false} SanitizedValues(headers: HeaderMap, name: Name)
    ensures Values(Sanitized(headers), name) == if Dropped(name) then [] else Values(headers, name)
  {
    hide Entry.HopByHop;
    if headers != [] {
      SanitizedValues(headers[1..], name);
      if !Dropped(headers[0].0) {
        ValuesConcat([headers[0]], Sanitized(headers[1..]), name);
      } else {
        assert Sanitized(headers) == Sanitized(headers[1..]);
      }
    }
  }

  lemma {:induction false} SanitizedMembers(headers: HeaderMap)
    ensures forall e | e in Sanitized(headers) :: e in headers && !Dropped(e.0)
  {
    hide Entry.HopByHop;
    if headers != [] {
      SanitizedMembers(headers[1..]);
    }
  }

  /** Upstream sees every header of the client in order, but for those of the hop and the host; when
      the answer may be stored, the encoding is pinned and no body is sent, else the body is the
      client's. */
  lemma UpstreamSees(setup: Setup, cfg: Config, c: Core, req: Request, url: P.Url, env: Env, name: Name)
    requires AfterHandle(setup, cfg, c, req, url, env).sent.Some?
    ensures var sent := AfterHandle(setup, cfg, c, req, url, env).sent.value;
      var eligible := P.RequestEligible(setup.policy, req.verb, url, req.headers) == None;
      && req.body.Some?
      && sent.verb == req.verb && sent.url == url && sent.body == (if eligible then [] else req.body.value)
      && Values(sent.headers, name) ==
           if eligible && name == "accept-encoding" then [Ink("identity")]
           else if Dropped(name) then [] else Values(req.headers, name)
  {
    SanitizedValues(req.headers, name);
    ValuesRemove(Sanitized(req.headers), "accept-encoding", name);
    ValuesInsert(Remove(Sanitized(req.headers), "accept-encoding"), "accept-encoding", Ink("identity"), name);
    hide P.RequestEligible, P.Key, P.ResponseStorable, S.AfterGet, S.AfterPut, Entry.Decoded, Replayed, FiledAs, Built,
      WithCache, Sanitized, Values, Remove, Insert, Ink, Dropped;
  }

  lemma BuiltValues(status: nat, headers: HeaderMap, body: Bytes, cache: string, name: Name)
    ensures Values(Built(status, headers, body, cache).headers, name) ==
      if name == "x-cicache" then [Ink(cache)]
      else if name == "content-length" then [Ink(Ascii.Print(|body|))]
      else Values(headers, name)
  {
    var length := Ink(Ascii.Print(|body|));
    ValuesInsert(headers, "content-length", length, name);
    ValuesInsert(Insert(headers, "content-length", length), "x-cicache", Ink(cache), name);
    hide Values, Insert, Ink;
  }

  /** Under this name the origin sent only text. */
  predicate TextUnder(headers: HeaderMap, name: Name) { forall v | v in Values(headers, name) :: IsText(v) }

  /** What goes into a header for a text of printable characters reads back as that text. */
  lemma InkIsText(s: string)
    requires forall c | c in s :: ' ' <= c <= '~'
    ensures ToText(Ink(s)) == Some(s)
  {
    forall i | 0 <= i < |s| ensures Ink(s)[i] == s[i] as int && Visible(Ink(s)[i]) {
      assert s[i] in s;
    }
    assert ToText(Ink(s)).value == s;
  }

  /** The request reaches the origin: it is handled, its body was read, it is eligible or not as said,
      nothing usable is in the cache, and the origin answers. */
  predicate AsksOrigin(setup: Setup, cfg: Config, c: Core, req: Request, env: Env, eligible: bool) {
    && Reaches(req) && req.body.Some? && env.upstream.Some?
    && (P.RequestEligible(setup.policy, req.verb, req.url.value, req.headers) == None <==> eligible)
    && Cached(setup, cfg, c, req, req.url.value, env) == None
  }

  /** On a miss the client gets what the origin said: its status, its body (streamed above the ceiling,
      else whole), and under each name its values in order, less those of the hop and the host, with
      the cache's mark and, for a whole body, the length written anew. Only when the body cannot be
      read is it told of the failure instead. */
  lemma MissAnswers(setup: Setup, cfg: Config, c: Core, req: Request, env: Env, name: Name)
    requires AsksOrigin(setup, cfg, c, req, env, true)
    ensures var r, u := AfterDispatch(setup, cfg, c, req, env).response, env.upstream.value;
      && r.Some?
      && (if Oversized(setup, u) then r.value.status == u.status && r.value.payload == Streamed
          else match u.body
            case Some(bytes) => r.value.status == u.status && r.value.payload == Whole(bytes)
            case None => r.value.status == 502 && r.value.payload == Whole(Utf8.Encode(env.fault + "\n")))
      && (Oversized(setup, u) || u.body.Some? ==>
            Values(r.value.headers, name) ==
              if name == "x-cicache" then [Ink("MISS")]
              else if name == "content-length" && !Oversized(setup, u) then [Ink(Ascii.Print(|u.body.value|))]
              else if Dropped(name) then [] else Values(u.headers, name))
  {
    MissShape(setup, cfg, c, req, env);
    var u := env.upstream.value;
    var clean := Sanitized(u.headers);
    hide *;
    SanitizedValues(u.headers, name);
    if Oversized(setup, u) {
      ValuesInsert(clean, "x-cicache", Ink("MISS"), name);
      MarkIsInsert(clean, "MISS");
    } else if u.body.Some? {
      BuiltValues(u.status, clean, u.body.value, "MISS", name);
      BuiltBasics(u.status, clean, u.body.value, "MISS");
    }
  }

  lemma MarkIsInsert(headers: HeaderMap, cache: string)
    ensures WithCache(headers, cache) == Insert(headers, "x-cicache", Ink(cache))
  {
  }

  lemma MissShape(setup: Setup, cfg: Config, c: Core, req: Request, env: Env)
    requires AsksOrigin(setup, cfg, c, req, env, true)
    ensures var u := env.upstream.value;
      var clean := Sanitized(u.headers);
      AfterDispatch(setup, cfg, c, req, env).response == Some(
        if Oversized(setup, u) then Response(u.status, WithCache(clean, "MISS"), Streamed)
        else match u.body
          case Some(body) => Built(u.status, clean, body, "MISS")
          case None => PlainText(502, env.fault))
    ensures PlainText(502, env.fault).status == 502
    ensures PlainText(502, env.fault).payload == Whole(Utf8.Encode(env.fault + "\n"))
  {
    hide P.RequestEligible, P.Key, P.ResponseStorable, S.AfterGet, S.AfterPut, Entry.Decoded, Replayed, FiledAs, Built,
      Sanitized, Pinned, WithCache, Utf8.Encode, Ascii.Print;
  }

  /** A request that is not eligible is answered with the origin's status, its body streamed, and the
      origin's values under each name, less those of the hop and the host, with the cache's mark. */
  lemma PassAnswers(setup: Setup, cfg: Config, c: Core, req: Request, env: Env, name: Name)
    requires AsksOrigin(setup, cfg, c, req, env, false)
    ensures var r, u := AfterDispatch(setup, cfg, c, req, env).response, env.upstream.value;
      && r.Some? && r.value.status == u.status && r.value.payload == Streamed
      && Values(r.value.headers, name) ==
           if name == "x-cicache" then [Ink("PASS")] else if Dropped(name) then [] else Values(u.headers, name)
  {
    var clean := Sanitized(env.upstream.value.headers);
    SanitizedValues(env.upstream.value.headers, name);
    ValuesInsert(clean, "x-cicache", Ink("PASS"), name);
    hide P.RequestEligible, P.Key, P.ResponseStorable, S.AfterGet, S.AfterPut, Entry.Decoded, Replayed, FiledAs, Built,
      Sanitized, Pinned, Values, Insert, Ink, Dropped, Utf8.Encode, Ascii.Print;
  }

  /** A request with no URL to ask for is refused, one whose handling fails is told so, and either way
      the client is given the reason on a line of its own. */
  lemma FailureAnswers(setup: Setup, cfg: Config, c: Core, req: Request, env: Env)
    requires req.tunnelled || (req.verb != "CONNECT" && req.authority)
    requires req.url == None || req.body == None
             || (Cached(setup, cfg, c, req, req.url.value, env) == None && env.upstream == None)
    ensures var r := AfterDispatch(setup, cfg, c, req, env).response;
      && r.Some? && r.value.status == (if req.url == None then 400 else 502)
      && r.value.payload == Whole(Utf8.Encode(env.fault + "\n"))
      && Values(r.value.headers, "content-type") == [Ink("text/plain")]
  {
    hide P.RequestEligible, P.Key, P.ResponseStorable, S.AfterGet, S.AfterPut, Entry.Decoded, Replayed, FiledAs, Built,
      Sanitized, Pinned, Insert, Ink, Utf8.Encode;
    var headers := [("content-type", Ink("text/plain"))];
    assert headers[1..] == [] && Values(headers[1..], "content-type") == [];
  }

  /** Under this name the response has those of the origin's values that are text, in order; the length
      of the body is written anew, what was the hop's or the host's is gone, and the cache's mark is
      that of a hit. */
  predicate Replays(response: Response, u: Upstream, body: Bytes, name: Name) {
    Values(response.headers, name) ==
      if name == "x-cicache" then [Ink("HIT")]
      else if name == "content-length" then [Ink(Ascii.Print(|body|))]
      else if Dropped(name) then [] else Entry.OnlyText(Values(u.headers, name))
  }

  /** What a hit answers with, when the entry was made of this answer of the origin: its status, its
      whole body, and under each name those of its values that are text, in order. */
  lemma HitAnswers(setup: Setup, url: P.Url, u: Upstream, now: nat, name: Name)
    requires u.body.Some? && WellNamed(u.headers)
    ensures var body := u.body.value;
      var hit := Replayed(Entry.New(setup.codec, setup.spell(url), u.status, Sanitized(u.headers), body, now));
      && (100 <= u.status <= 999 ==> hit.status == u.status) && hit.payload == Whole(body)
      && Replays(hit, u, body, name)
  {
    var clean, body := Sanitized(u.headers), u.body.value;
    var e := Entry.New(setup.codec, setup.spell(url), u.status, clean, body, now);
    SanitizedMembers(u.headers);
    assert WellNamed(clean);
    assert Entry.OnlyText([]) == [];
    hide Entry.HopByHop, ParseName, IsText, Ink, Built, Sanitized, Values, Entry.Recorded, Entry.Restored, Entry.OnlyText;
    BuiltValues(if 100 <= u.status <= 999 then u.status else 200, Entry.Restored(e.header.headers), body, "HIT", name);
    Entry.ReplayedValues(clean, name);
    SanitizedValues(u.headers, name);
    BuiltBasics(if 100 <= u.status <= 999 then u.status else 200, Entry.Restored(e.header.headers), body, "HIT");
  }

  /** The request stored what the origin said to it, and the later one finds those very bytes. */
  ghost predicate FindsWhatWasFiled(setup: Setup, cfg: Config, c: Core, req: Request, env: Env,
                              site: Setup, conf: Config, core: Core, later: Request, around: Env) {
    && Reaches(req) && Reaches(later) && site.codec == setup.codec
    && env.upstream.Some? && env.upstream.value.body.Some?
    && (var u := env.upstream.value;
        var e := Entry.New(setup.codec, setup.spell(req.url.value), u.status, Sanitized(u.headers), u.body.value, env.now);
        var note := AfterDispatch(setup, cfg, c, req, env).note;
        && note.Some? && note.value.outcome.Stored?
        && later.body.Some? && P.RequestEligible(site.policy, later.verb, later.url.value, later.headers) == None
        && Entry.Readable(setup.codec, e.header)
        && S.AfterGet(conf, core, P.Key(site.policy, later.url.value, site.hash), around.readable, around.reply, around.fetched).answer
             == Some(Entry.Encoded(setup.codec, e)))
  }

  /** A hit is the miss replayed. When a request was answered by the origin and stored, and a later one
      finds what was stored, the two responses have the same status and the same body, and under each
      header name but the cache's own the same values in the same order if and only if the origin's
      values under it were text (the content length is written anew either way). */
  lemma HitReplaysMiss(setup: Setup, cfg: Config, c: Core, req: Request, env: Env,
                       site: Setup, conf: Config, core: Core, later: Request, around: Env, name: Name)
    requires FindsWhatWasFiled(setup, cfg, c, req, env, site, conf, core, later, around)
    requires WellNamed(env.upstream.value.headers)
    ensures var miss := AfterDispatch(setup, cfg, c, req, env).response;
      var hit := AfterDispatch(site, conf, core, later, around).response;
      && miss.Some? && hit.Some?
      && hit.value.status == miss.value.status == env.upstream.value.status
      && hit.value.payload == miss.value.payload == Whole(env.upstream.value.body.value)
      && (name != "x-cicache" ==>
            (Values(hit.value.headers, name) == Values(miss.value.headers, name)
             <==> name == "content-length" || Dropped(name) || TextUnder(env.upstream.value.headers, name)))
      && Values(hit.value.headers, "x-cicache") == [Ink("HIT")]
      && Values(miss.value.headers, "x-cicache") == [Ink("MISS")]
  {
    var u := env.upstream.value;
    StoredAsked(setup, cfg, c, req, env);
    FoundIsCached(setup, cfg, c, req, env, site, conf, core, later, around);
    hide *;
    MissAnswers(setup, cfg, c, req, env, name);
    MissAnswers(setup, cfg, c, req, env, "x-cicache");
    HitAnswers(setup, req.url.value, u, env.now, name);
    HitAnswers(setup, req.url.value, u, env.now, "x-cicache");
    OnlyTextUnder(u.headers, name);
  }

  lemma OnlyTextUnder(headers: HeaderMap, name: Name)
    ensures Entry.OnlyText(Values(headers, name)) == Values(headers, name) <==> TextUnder(headers, name)
  {
    Entry.OnlyTextIsAll(Values(headers, name));
  }

  lemma StoredAsked(setup: Setup, cfg: Config, c: Core, req: Request, env: Env)
    requires Reaches(req)
    requires var note := AfterDispatch(setup, cfg, c, req, env).note; note.Some? && note.value.outcome.Stored?
    ensures AsksOrigin(setup, cfg, c, req, env, true)
    ensures env.upstream.value.body.Some? && !Oversized(setup, env.upstream.value) && env.upstream.value.status == 200
  {
    OutcomeSaysWhatHappened(setup, cfg, c, req, env);
    hide P.RequestEligible, AfterDispatch, Cached, Sanitized;
  }

  lemma FoundIsCached(setup: Setup, cfg: Config, c: Core, req: Request, env: Env,
                      site: Setup, conf: Config, core: Core, later: Request, around: Env)
    requires FindsWhatWasFiled(setup, cfg, c, req, env, site, conf, core, later, around)
    ensures var u := env.upstream.value;
      AfterDispatch(site, conf, core, later, around).response == Some(Replayed(
        Entry.New(setup.codec, setup.spell(req.url.value), u.status, Sanitized(u.headers), u.body.value, env.now)))
  {
    var u := env.upstream.value;
    Entry.RoundTrip(setup.codec, setup.spell(req.url.value), u.status, Sanitized(u.headers), u.body.value, env.now);
    hide P.RequestEligible, P.Key, S.AfterGet, S.AfterPut, Entry.Decoded, Entry.Encoded, Entry.Readable, Replayed, Entry.New,
      Sanitized, AfterFetchAndStore, AfterForward, FiledAs;
  }

  lemma BuiltBasics(status: nat, headers: HeaderMap, body: Bytes, cache: string)
    ensures Built(status, headers, body, cache).status == status
    ensures Built(status, headers, body, cache).payload == Whole(body)
  {
  }
}
