/** Across all runs: a hit answers with what the origin once said to an eligible request for the same
    target, and was allowed to be kept. */
module Transparency {
  import opened Base
  import opened Headers
  import Gha
  import opened Job
  import Entry
  import P = Policy
  import Pack
  import Proxy
  import opened Requests
  import S = Store
  import World

  /** A request that stores does so with an accepted exchange: its put is what the proxy's own
      handling makes of an upstream answer. */
  lemma StoringIsAnExchange(setup: Proxy.Setup, cfg: Config, c: Core, req: Proxy.Request, url: P.Url, env: Proxy.Env)
    requires var o := Proxy.AfterHandle(setup, cfg, c, req, url, env); o.note.Some? && o.note.value.outcome.Stored?
    ensures env.upstream.Some?
    ensures var x := Exchange(setup, req, url, env.upstream.value, env.now);
      && Accepted(x)
      && Proxy.AfterHandle(setup, cfg, c, req, url, env).core ==
           S.AfterPut(cfg, S.AfterGet(cfg, c, KeyOf(x), env.readable, env.reply, env.fetched).core, Filed(x), env.wrote)
  {
    Proxy.OnlyAcceptedAreFiled(setup, cfg, c, req, url, env);
    hide Proxy.AfterHandle, P.RequestEligible, Proxy.Storable, S.AfterPut, S.AfterGet, Entry.Encoded, Entry.New;
    assert Proxy.Storable(setup, url, env.upstream.value);
    StorableHasBody(setup, url, env.upstream.value);
  }

  lemma StorableHasBody(setup: Proxy.Setup, url: P.Url, u: Proxy.Upstream)
    requires Proxy.Storable(setup, url, u)
    ensures u.body.Some? && u.status == 200
  {
  }

  /** Somewhere in the world these bytes are kept under that key: on a run's disk, in its queue, at the
      service in the clear or in one of its packs. */
  ghost predicate KeptSomewhere(prefix: string, w: World.World, m: Msg) {
    || (m in w.service && World.ObjectKey(prefix, m.key))
    || (exists run | run in w.jobs :: m.key in w.jobs[run].core.disk && w.jobs[run].core.disk[m.key] == m.bytes)
    || (exists run | run in w.jobs :: m in w.jobs[run].core.channel)
    || (exists run, id | run in w.jobs && id in w.jobs[run].tasks :: w.jobs[run].tasks[id].msg == m)
    || (exists e | e in w.service && World.KindKey(prefix, "pack", e.key) && Pack.Decoded(e.bytes).Some?
          :: Pack.Object(m.key, m.bytes) in Pack.Decoded(e.bytes).value)
  }

  /** Whatever is kept anywhere, after any history of requests in any runs, is an answer the origin gave
      to an eligible request and was accepted; so nothing of an ineligible request is anywhere. */
  lemma NothingIneligibleIsKept(sh: Shared, events: seq<Requests.Event>, s: System, m: Msg)
    requires Requests.Run(sh, events) == Some(s) && KeptSomewhere(sh.prefix, s.world, m)
    ensures exists x | x in s.heard :: Accepted(x) && Filed(x) == m
  {
    AlwaysLawful(sh, events, s);
    World.SoundAlways(sh.prefix, s.past, s.world);
    KeptIsPut(sh.prefix, s.world, m);
    hide World.Sound, World.ObjectKey, World.History, SiteOk, P.RequestEligible, Proxy.Storable, Filed;
  }

  lemma KeptIsPut(prefix: string, w: World.World, m: Msg)
    requires World.Sound(prefix, w) && KeptSomewhere(prefix, w, m)
    ensures m in w.puts
  {
    assert Msg(m.key, m.bytes) == m;
    if m in w.service && World.ObjectKey(prefix, m.key) {
      World.FoundObject(prefix, w, m.key, Gha.Found(m.bytes));
    } else if run :| run in w.jobs && m.key in w.jobs[run].core.disk && w.jobs[run].core.disk[m.key] == m.bytes {
      assert World.Genuine(w.jobs[run], w.puts);
    } else if run :| run in w.jobs && m in w.jobs[run].core.channel {
      assert World.Genuine(w.jobs[run], w.puts);
    } else if run, id :| run in w.jobs && id in w.jobs[run].tasks && w.jobs[run].tasks[id].msg == m {
      assert World.Genuine(w.jobs[run], w.puts);
    } else if e :| e in w.service && World.KindKey(prefix, "pack", e.key) && Pack.Decoded(e.bytes).Some?
                   && Pack.Object(m.key, m.bytes) in Pack.Decoded(e.bytes).value {
      PackedIsPut(prefix, w, e, m);
    }
  }

  lemma PackedIsPut(prefix: string, w: World.World, e: Msg, m: Msg)
    requires World.Sound(prefix, w) && e in w.service && World.KindKey(prefix, "pack", e.key)
    requires Pack.Decoded(e.bytes).Some? && Pack.Object(m.key, m.bytes) in Pack.Decoded(e.bytes).value
    ensures m in w.puts
  {
    assert World.EntryGenuine(prefix, e, w.puts);
    World.KindsApart(prefix, e.key);
    hide World.Genuine, Pack.Decoded;
    var o := Pack.Object(m.key, m.bytes);
    assert Msg(o.key, o.body) == m;
  }

  /** The header record of what was filed reads back, and the hash does not collide on its URL and this
      one. */
  predicate Separable(sh: Shared, x: Exchange, url: P.Url) {
    && (x.answer.body.Some? ==> Entry.Readable(sh.codec, EntryOf(x).header))
    && (sh.hash(P.Preimage(x.url)) == sh.hash(P.Preimage(url)) ==> P.Preimage(x.url) == P.Preimage(url))
  }

  /** The response is the origin's answer in x, which was for the same target: its status, its body, and
      under every header name its values that are text. */
  ghost predicate Explains(x: Exchange, url: P.Url, response: Proxy.Response)
    requires x.answer.body.Some?
  {
    && P.SameTarget(x.url, url)
    && response.status == x.answer.status == 200
    && response.payload == Proxy.Whole(x.answer.body.value)
    && (WellNamed(x.answer.headers) ==>
          forall name: Name :: Proxy.Replays(response, x.answer, x.answer.body.value, name))
  }

  /** Cache transparency. In any history of requests in runs that overlap as they like, whatever the
      service hides or evicts: when a request's lookup ends in a hit, the response says what an
      answer said that the origin gave earlier, to an eligible request for the same target, that was accepted
      under the policy of the run that stored it. */
  lemma HitsAreOriginResponses(sh: Shared, events: seq<Requests.Event>, s: System, run: nat, id: nat, a: Action)
    requires Requests.Run(sh, events) == Some(s) && Requests.Possible(sh, s, Requests.Store(run, a))
    requires id in s.sites[run].open && s.sites[run].open[id].stage.Looking?
    requires Hits(s.sites[run], s.world.jobs[run], a, id)
    requires forall x | x in s.heard :: Separable(sh, x, s.sites[run].open[id].url)
    ensures After(sh, s, Requests.Store(run, a)).sites[run] == MovedOn(s.sites[run], s.world.jobs[run], a)
    ensures exists x | x in s.heard ::
      (Accepted(x)
       && Explains(x, s.sites[run].open[id].url, MovedOn(s.sites[run], s.world.jobs[run], a).open[id].stage.response))
  {
    var site, job := s.sites[run], s.world.jobs[run];
    var url := site.open[id].url;
    hide *;
    StoreShape(sh, s, run, a);
    AlwaysLawful(sh, events, s);
    LawfulAt(sh, s, run);
    SiteParts(sh, site, job);
    var raw, e := HitOf(site, job, a, id);
    World.Provenance(sh.prefix, s.past, s.world, run, a, KeyFor(site.setup, site.open[id]), raw);
    var x := ExplainedBy(sh, s, Msg(KeyFor(site.setup, site.open[id]), raw));
    ReadBack(sh, site, job, id, x, raw, e);
  }

  /** The step ends the lookup of this request, with an entry that decodes. */
  ghost predicate Hits(site: Site, job: Job, a: Action, id: nat)
    requires Enabled(job, a)
  {
    id in MovedOn(site, job, a).open && MovedOn(site, job, a).open[id].stage.Ready?
  }

  lemma HitOf(site: Site, job: Job, a: Action, id: nat) returns (raw: Bytes, e: Entry.Entry)
    requires Enabled(job, a) && id in site.open && site.open[id].stage.Looking? && Hits(site, job, a, id)
    requires Attended(site.setup, site.open, job.handlers)
    ensures Answer(job, a) == Some((KeyFor(site.setup, site.open[id]), Some(raw)))
    ensures Entry.Decoded(site.setup.codec, raw) == Some(e)
    ensures MovedOn(site, job, a).open[id].stage.response == Proxy.Replayed(e)
  {
    hide Entry.Decoded, Proxy.Replayed, P.Key, Enabled;
    assert a.Handle? && a.id == id;
    var h := job.handlers[id];
    assert Serves(site.setup, site.open[id], h);
    AnswerOf(job, id, a.event);
    hide Answer;
    var (k, answer) := Answer(job, a).value;
    OneKey(h, k, KeyFor(site.setup, site.open[id]));
    raw := answer.value;
    e := Entry.Decoded(site.setup.codec, raw).value;
  }

  lemma ExplainedBy(sh: Shared, s: System, m: Msg) returns (x: Exchange)
    requires Lawful(sh, s) && m in s.world.puts
    ensures x in s.heard && Known(sh, x) && Accepted(x) && x.answer.body.Some? && Filed(x) == m
  {
    hide World.History, SiteOk, P.RequestEligible, P.ResponseStorable, Filed, Known;
    x :| x in s.heard && Accepted(x) && Filed(x) == m;
    StorableHasBody(x.setup, x.url, x.answer);
  }

  lemma Replayed(x: Exchange)
    requires x.answer.body.Some?
    ensures WellNamed(x.answer.headers) ==>
      forall name: Name :: Proxy.Replays(Proxy.Replayed(EntryOf(x)), x.answer, x.answer.body.value, name)
  {
    hide WellNamed, Proxy.Replayed, Proxy.Replays, Proxy.Sanitized;
    if WellNamed(x.answer.headers) {
      forall name: Name ensures Proxy.Replays(Proxy.Replayed(EntryOf(x)), x.answer, x.answer.body.value, name) {
        Proxy.HitAnswers(x.setup, x.url, x.answer, x.now, name);
      }
    }
  }

  lemma ReadBack(sh: Shared, site: Site, job: Job, id: nat, x: Exchange, raw: Bytes, e: Entry.Entry)
    requires SiteOk(sh, site, job) && id in site.open && Known(sh, x) && Accepted(x) && x.answer.body.Some?
    requires Separable(sh, x, site.open[id].url) && Filed(x) == Msg(KeyFor(site.setup, site.open[id]), raw)
    requires Entry.Decoded(site.setup.codec, raw) == Some(e)
    ensures Explains(x, site.open[id].url, Proxy.Replayed(e))
  {
    assert InOrder(site.setup, site.open[id]);
    StorableHasBody(x.setup, x.url, x.answer);
    hide SiteOk, P.Parsed, P.Preimage, P.SameTarget, Entry.Decoded, Entry.Encoded, Entry.Recorded, Entry.Restored,
      Proxy.Sanitized, P.RequestEligible, Proxy.Storable, Entry.Readable, P.Digest;
    Entry.RoundTrip(sh.codec, x.setup.spell(x.url), x.answer.status, Proxy.Sanitized(x.answer.headers),
                    x.answer.body.value, x.now);
    assert e == EntryOf(x);
    assert P.Key(x.setup.policy, x.url, sh.hash) == P.Key(site.setup.policy, x.url, sh.hash);
    P.KeysTellTargetsApart(site.setup.policy, x.url, site.open[id].url, sh.hash);
    Proxy.BuiltBasics(200, Entry.Restored(e.header.headers), e.body, "HIT");
    Replayed(x);
  }
}
