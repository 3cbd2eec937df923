/** Many requests in many runs at once: each goes through the proxy's decisions step by step, and the
    store is touched only by the requests these steps send there. */
module Requests {
  import opened Base
  import opened Headers
  import opened Job
  import Ascii
  import Drain
  import Entry
  import Gha
  import P = Policy
  import Pack
  import Proxy
  import S = Store
  import T = Stats
  import Traffic
  import Uploads
  import World

  // -- exchanges with the origin --------------------------------------------------------------

  /** One answer of the origin, to one request, under the setup of the run it went through. */
  datatype Exchange = Exchange(setup: Proxy.Setup, req: Proxy.Request, url: P.Url, answer: Proxy.Upstream, now: nat)

  predicate Accepted(x: Exchange) {
    && P.RequestEligible(x.setup.policy, x.req.verb, x.url, x.req.headers) == None
    && Proxy.Storable(x.setup, x.url, x.answer)
  }

  function KeyOf(x: Exchange): Key { P.Key(x.setup.policy, x.url, x.setup.hash) }

  function EntryOf(x: Exchange): Entry.Entry
    requires x.answer.body.Some?
  {
    Entry.New(x.setup.codec, x.setup.spell(x.url), x.answer.status, Proxy.Sanitized(x.answer.headers),
              x.answer.body.value, x.now)
  }

  function Filed(x: Exchange): Msg
    requires x.answer.body.Some?
  {
    Msg(KeyOf(x), Entry.Encoded(x.setup.codec, EntryOf(x)))
  }

  // -- the state ------------------------------------------------------------------------------

  /** What every run has in common: the key prefix, the library that prints and parses header records,
      and the hash. */
  datatype Shared = Shared(prefix: string, codec: Entry.Codec, hash: Bytes -> string)

  /** Where a request is. While it is looking or storing, the store's handler of its number works for it. */
  datatype Stage =
    | Arrived
    | Forwarding
    | Looking
    | Fetching
    | Storing(note: T.Note, response: Proxy.Response)
    | Ready(note: T.Note, response: Proxy.Response)

  datatype Open = Open(req: Proxy.Request, url: P.Url, stage: Stage)

  /** The proxy of one run: the requests it is at, how many ever arrived, and the counters with the
      moves that made them. */
  datatype Site = Site(setup: Proxy.Setup, open: map<nat, Open>, arrived: nat, ledger: T.Ledger, moves: seq<T.Move>)

  /** All runs and the service, what happened to them so far, and every answer the origin gave. */
  datatype System = System(world: World.World, past: seq<World.Event>, sites: map<nat, Site>, heard: seq<Exchange>)

  const NOTHING := System(World.EMPTY, [], map[], [])

  datatype Event =
    | Launch(run: nat, cfg: Config, setup: Proxy.Setup)
    | Store(run: nat, action: Action)
    | Arrive(run: nat, id: nat, req: Proxy.Request, url: P.Url)
    | Decide(run: nat, id: nat, fault: string)
    | Hear(run: nat, id: nat, env: Proxy.Env)
    | Finish(run: nat, id: nat)
    | Count(run: nat, i: nat)

  // -- one request's steps --------------------------------------------------------------------

  function KeyFor(setup: Proxy.Setup, o: Open): Key { P.Key(setup.policy, o.url, setup.hash) }

  function Verdict(setup: Proxy.Setup, o: Open): Option<P.Reject> {
    P.RequestEligible(setup.policy, o.req.verb, o.url, o.req.headers)
  }

  function Failing(fault: string): Stage { Ready(T.Note(T.Error(fault), 0, 0), Proxy.PlainText(502, fault)) }

  /** The body is read and the policy asked. */
  function Decided(setup: Proxy.Setup, o: Open, fault: string): Stage {
    if o.req.body == None then Failing(fault)
    else if Verdict(setup, o).Some? then Forwarding
    else Looking
  }

  /** The lookup has ended. */
  function LookedUp(setup: Proxy.Setup, answer: Option<Bytes>): Stage {
    match answer
    case None => Fetching
    case Some(raw) =>
      match Entry.Decoded(setup.codec, raw)
      case Some(e) => Ready(T.Note(T.Hit, |e.body|, 0), Proxy.Replayed(e))
      case None => Fetching
  }

  /** What the request's handling comes to once the origin has answered, or not. */
  function Upshot(setup: Proxy.Setup, job: Job, o: Open, env: Proxy.Env): Proxy.Outcome {
    if o.stage.Forwarding? then
      match (o.req.body, Verdict(setup, o))
      case (Some(body), Some(why)) => Proxy.AfterForward(job.core, o.req.verb, o.url, o.req.headers, body, why, env)
      case _ => Proxy.Outcome(job.core, None, None, 0, None)
    else Proxy.AfterFetchAndStore(setup, job.cfg, job.core, o.req.verb, o.url, o.req.headers, KeyFor(setup, o), env)
  }

  function HeardBack(setup: Proxy.Setup, job: Job, o: Open, env: Proxy.Env): Stage {
    var u := Upshot(setup, job, o, env);
    match (u.note, u.response)
    case (Some(note), Some(response)) => if note.outcome.Stored? then Storing(note, response) else Ready(note, response)
    case _ => Failing(env.fault)
  }

  // -- the system -----------------------------------------------------------------------------

  ghost predicate Suited(sh: Shared, setup: Proxy.Setup) {
    && setup.codec == sh.codec && setup.hash == sh.hash && setup.policy.keyPrefix == sh.prefix
    && forall b :: P.Digest(setup.hash(b))
  }

  /** The event has what it is about. */
  ghost predicate Shaped(sh: Shared, s: System, e: Event) {
    match e
    case Launch(run, cfg, setup) => run !in s.sites && Suited(sh, setup)
    case Store(run, a) => run in s.sites && run in s.world.jobs && Enabled(s.world.jobs[run], a) && !a.StartPut? && !a.StartGet?
    case Arrive(run, id, req, url) =>
      run in s.sites && run in s.world.jobs && Live(s.world.jobs[run]) && id !in s.sites[run].open
      && Proxy.Reaches(req) && req.url == Some(url) && P.Parsed(url)
    case Decide(run, id, _) =>
      run in s.sites && run in s.world.jobs && id in s.sites[run].open && s.sites[run].open[id].stage.Arrived?
    case Hear(run, id, _) =>
      run in s.sites && run in s.world.jobs && id in s.sites[run].open
      && (s.sites[run].open[id].stage.Forwarding? || s.sites[run].open[id].stage.Fetching?)
    case Finish(run, id) =>
      run in s.sites && run in s.world.jobs && id in s.sites[run].open
      && (s.sites[run].open[id].stage.Ready? || (s.sites[run].open[id].stage.Storing? && id !in s.world.jobs[run].handlers))
      && T.Able(s.sites[run].ledger, T.Begin(s.sites[run].open[id].stage.note))
    case Count(run, i) => run in s.sites && run in s.world.jobs && T.Able(s.sites[run].ledger, T.Tick(i))
  }

  function Answering(setup: Proxy.Setup, o: Open, env: Proxy.Env): Exchange
    requires env.upstream.Some?
  {
    Exchange(setup, o.req, o.url, env.upstream.value, env.now)
  }

  lemma StoringIsStorable(setup: Proxy.Setup, job: Job, o: Open, env: Proxy.Env)
    requires HeardBack(setup, job, o, env).Storing?
    ensures !o.stage.Forwarding? && env.upstream.Some? && env.upstream.value.body.Some?
    ensures Proxy.Storable(setup, o.url, env.upstream.value)
  {
    hide P.ResponseStorable, Proxy.Built, Proxy.WithCache, Proxy.Sanitized, Proxy.FiledAs, S.AfterPut, P.RequestEligible;
  }

  /** What the event does to the run's store, as an event of the world. */
  ghost function Worldly(sh: Shared, s: System, e: Event): Option<World.Event>
    requires Shaped(sh, s, e)
  {
    match e
    case Launch(run, cfg, _) => Some(World.Launch(run, cfg))
    case Store(run, a) => Some(World.Step(run, a))
    case Decide(run, id, fault) =>
      var site := s.sites[run];
      if Decided(site.setup, site.open[id], fault).Looking?
      then Some(World.Step(run, StartGet(id, KeyFor(site.setup, site.open[id])))) else None
    case Hear(run, id, env) =>
      var site, job := s.sites[run], s.world.jobs[run];
      if HeardBack(site.setup, job, site.open[id], env).Storing? then
        StoringIsStorable(site.setup, job, site.open[id], env);
        Some(World.Step(run, StartPut(id, Filed(Answering(site.setup, site.open[id], env)))))
      else None
    case _ => None
  }

  ghost predicate Possible(sh: Shared, s: System, e: Event) {
    Shaped(sh, s, e)
    && match Worldly(sh, s, e) case Some(we) => World.Possible(sh.prefix, s.world, we) case None => true
  }

  function At(site: Site, id: nat, stage: Stage): Site
    requires id in site.open
  {
    site.(open := site.open[id := site.open[id].(stage := stage)])
  }

  function Moved(site: Site, m: T.Move): Site
    requires T.Able(site.ledger, m)
  {
    site.(ledger := T.Moved(site.ledger, m), moves := site.moves + [m])
  }

  function Joined(site: Site, id: nat, req: Proxy.Request, url: P.Url): Site {
    site.(open := site.open[id := Open(req, url, Arrived)], arrived := site.arrived + 1)
  }

  function Left(site: Site, id: nat): Site
    requires id in site.open && (site.open[id].stage.Ready? || site.open[id].stage.Storing?)
    requires T.Able(site.ledger, T.Begin(site.open[id].stage.note))
  {
    Moved(site.(open := site.open - {id}), T.Begin(site.open[id].stage.note))
  }

  /** A step of the store that ends a lookup moves its request on. */
  ghost function MovedOn(site: Site, job: Job, a: Action): Site
    requires Enabled(job, a)
  {
    match Answer(job, a)
    case Some((_, answer)) =>
      if a.id in site.open && site.open[a.id].stage.Looking? then At(site, a.id, LookedUp(site.setup, answer)) else site
    case None => site
  }

  /** The run's proxy after the event. */
  ghost function SiteAfter(site: Site, job: Job, e: Event): Site
    requires !e.Launch? && (e.Store? ==> Enabled(job, e.action))
    requires e.Decide? || e.Hear? || e.Finish? ==> e.id in site.open
    requires e.Finish? ==> site.open[e.id].stage.Ready? || site.open[e.id].stage.Storing?
    requires e.Finish? ==> T.Able(site.ledger, T.Begin(site.open[e.id].stage.note))
    requires e.Count? ==> T.Able(site.ledger, T.Tick(e.i))
  {
    match e
    case Store(_, a) => MovedOn(site, job, a)
    case Arrive(_, id, req, url) => Joined(site, id, req, url)
    case Decide(_, id, fault) => At(site, id, Decided(site.setup, site.open[id], fault))
    case Hear(_, id, env) => At(site, id, HeardBack(site.setup, job, site.open[id], env))
    case Finish(_, id) => Left(site, id)
    case Count(_, i) => Moved(site, T.Tick(i))
  }

  ghost function After(sh: Shared, s: System, e: Event): System
    requires Possible(sh, s, e)
  {
    var we := Worldly(sh, s, e);
    System(
      match we case Some(x) => World.After(sh.prefix, s.world, x) case None => s.world,
      match we case Some(x) => s.past + [x] case None => s.past,
      if e.Launch? then s.sites[e.run := Site(e.setup, map[], 0, T.BLANK, [])]
      else s.sites[e.run := SiteAfter(s.sites[e.run], s.world.jobs[e.run], e)],
      if e.Hear? && e.env.upstream.Some?
      then s.heard + [Answering(s.sites[e.run].setup, s.sites[e.run].open[e.id], e.env)] else s.heard)
  }

  ghost function Run(sh: Shared, events: seq<Event>): Option<System> {
    if events == [] then Some(NOTHING)
    else
      match Run(sh, events[..|events| - 1])
      case None => None
      case Some(s) =>
        var e := events[|events| - 1];
        if Possible(sh, s, e) then Some(After(sh, s, e)) else None
  }

  // -- what every event keeps -----------------------------------------------------------------

  predicate Serves(setup: Proxy.Setup, o: Open, h: Handler) {
    if S.Getting(h) then o.stage.Looking? && Traffic.GetFor(h, KeyFor(setup, o)) else o.stage.Storing?
  }

  /** Every handler of the store works for the open request of its number, at the stage that sent it. */
  ghost predicate Attended(setup: Proxy.Setup, open: map<nat, Open>, handlers: map<nat, Handler>) {
    && (forall id | id in handlers :: id in open && Serves(setup, open[id], handlers[id]))
    && (forall id | id in open && open[id].stage.Looking? :: id in handlers)
  }

  /** The stage a request is at agrees with what the policy said of it. */
  predicate InOrder(setup: Proxy.Setup, o: Open) {
    && P.Parsed(o.url) && Proxy.Reaches(o.req) && o.req.url == Some(o.url)
    && match o.stage
       case Arrived => true
       case Forwarding => o.req.body.Some? && Verdict(setup, o).Some?
       case Looking => o.req.body.Some? && Verdict(setup, o) == None
       case Fetching => o.req.body.Some? && Verdict(setup, o) == None
       case Storing(note, _) => o.req.body.Some? && Verdict(setup, o) == None && note.outcome.Stored?
       case Ready(note, _) => !note.outcome.Stored?
  }

  ghost predicate AllCoherent(site: Site) { forall id | id in site.open :: InOrder(site.setup, site.open[id]) }

  function StoringIds(open: map<nat, Open>): set<nat> { set id | id in open && open[id].stage.Storing? }

  /** One note for each request no longer open; the puts are those at it and those noted as stored. */
  ghost predicate Counted(site: Site, job: Job) {
    && |site.ledger.notes| + |site.open| == site.arrived
    && T.Count(site.moves) == Some(site.ledger)
    && |job.core.queued| <= |StoringIds(site.open)| + T.Tally(site.ledger.notes, T.StoredOnes)
  }

  ghost predicate SiteOk(sh: Shared, site: Site, job: Job) {
    && Suited(sh, site.setup) && (site.open != map[] ==> Live(job))
    && Attended(site.setup, site.open, job.handlers) && AllCoherent(site) && Counted(site, job)
    && Uploads.Invariant(job) && Drain.CountsExact(job)
  }

  ghost predicate Known(sh: Shared, x: Exchange) { Suited(sh, x.setup) && P.Parsed(x.url) }

  ghost predicate Explained(puts: set<Msg>, heard: seq<Exchange>) {
    forall m | m in puts :: exists x | x in heard :: Accepted(x) && Filed(x) == m
  }

  ghost predicate Lawful(sh: Shared, s: System) {
    && World.History(sh.prefix, s.past) == Some(s.world)
    && s.sites.Keys == s.world.jobs.Keys
    && (forall run | run in s.sites :: SiteOk(sh, s.sites[run], s.world.jobs[run]))
    && (forall x | x in s.heard :: Known(sh, x))
    && Explained(s.world.puts, s.heard)
  }

  // -- handlers and their requests ------------------------------------------------------------

  /** How a handler's step ends a lookup. */
  lemma AnswerOf(j: Job, id: nat, e: HandlerEvent)
    requires Enabled(j, Handle(id, e))
    ensures var h, a := j.handlers[id], Answer(j, Handle(id, e));
      && (a.Some? <==> S.Getting(h) && HandlerNext(j.cfg, j.core, h, e) == None)
      && (a.Some? ==> Traffic.GetFor(h, a.value.0))
      && match HandlerNext(j.cfg, j.core, h, e) {
           case Some(h') => S.Getting(h') == S.Getting(h) && forall k | Traffic.GetFor(h, k) :: Traffic.GetFor(h', k)
           case None => true }
  {
  }

  lemma OneKey(h: Handler, k: Key, k': Key)
    requires Traffic.GetFor(h, k) && Traffic.GetFor(h, k')
    ensures k == k'
  {
  }

  lemma AttendedHandle(site: Site, j: Job, id: nat, e: HandlerEvent)
    requires Enabled(j, Handle(id, e)) && Attended(site.setup, site.open, j.handlers)
    ensures Attended(site.setup, MovedOn(site, j, Handle(id, e)).open, Next(j, Handle(id, e)).handlers)
  {
    AnswerOf(j, id, e);
    HandleOnly(j, id, e);
    var site', j', h := MovedOn(site, j, Handle(id, e)), Next(j, Handle(id, e)), j.handlers[id];
    assert Serves(site.setup, site.open[id], h);
    hide Next, HandlerCore, HandlerNext, Answer, S.Getting, Traffic.GetFor, P.Key, Entry.Decoded, Proxy.Replayed, Enabled;
    forall other | other in j'.handlers
      ensures other in site'.open && Serves(site.setup, site'.open[other], j'.handlers[other])
    {
      assert other != id ==> Serves(site.setup, site.open[other], j.handlers[other]);
    }
  }

  lemma AttendedRest(site: Site, j: Job, a: Action)
    requires Enabled(j, a) && !a.Handle? && !a.StartPut? && !a.StartGet? && Attended(site.setup, site.open, j.handlers)
    ensures MovedOn(site, j, a) == site && Next(j, a).handlers == j.handlers
  {
    hide HandlerCore, HandlerNext, FlushPhase, FlushCounters, TaskNext, TaskCounters, PackRead, IndexRead;
  }

  /** A step of the store outside of put calls accepts no new key. */
  lemma QueuedGrows(j: Job, a: Action)
    requires Enabled(j, a)
    ensures |Next(j, a).core.queued| <= |j.core.queued| + if a.StartPut? then 1 else 0
  {
    hide HandlerNext, FlushPhase, FlushCounters, TaskNext;
  }

  lemma AtOpen(site: Site, id: nat, stage: Stage)
    requires id in site.open
    ensures |At(site, id, stage).open| == |site.open|
    ensures !site.open[id].stage.Storing? && !stage.Storing? ==>
      StoringIds(At(site, id, stage).open) == StoringIds(site.open)
    ensures !site.open[id].stage.Storing? && stage.Storing? ==>
      |StoringIds(At(site, id, stage).open)| == |StoringIds(site.open)| + 1
  {
    var open' := At(site, id, stage).open;
    assert open'.Keys == site.open.Keys && |open'| == |open'.Keys| && |site.open| == |site.open.Keys|;
    if !site.open[id].stage.Storing? && stage.Storing? {
      assert StoringIds(open') == StoringIds(site.open) + {id} && id !in StoringIds(site.open);
    }
  }

  lemma JobStep(j: Job, a: Action)
    requires Enabled(j, a) && Uploads.Invariant(j) && Drain.CountsExact(j)
    ensures Uploads.Invariant(Next(j, a)) && Drain.CountsExact(Next(j, a))
  {
    Uploads.InvariantStep(j, a);
    assert Uploads.Tasks(j);
    Drain.CountsStep(j, a);
  }

  lemma StoredKeeps(site: Site, j: Job, a: Action)
    requires Enabled(j, a) && AllCoherent(site) && !a.StartPut? && !a.StartGet?
    ensures var site' := MovedOn(site, j, a);
      && AllCoherent(site') && site'.(open := site.open) == site
      && |site'.open| == |site.open| && StoringIds(site'.open) == StoringIds(site.open)
  {
    hide P.Parsed, P.RequestEligible, Entry.Decoded, Proxy.Replayed, Enabled;
    match Answer(j, a)
    case None =>
    case Some((_, answer)) =>
      hide Answer;
      if a.id in site.open && site.open[a.id].stage.Looking? {
        AtOpen(site, a.id, LookedUp(site.setup, answer));
        assert InOrder(site.setup, site.open[a.id]);
        forall id | id in MovedOn(site, j, a).open ensures InOrder(site.setup, MovedOn(site, j, a).open[id]) {
          assert InOrder(site.setup, site.open[id]);
        }
      }
  }

  lemma SiteStore(sh: Shared, site: Site, j: Job, a: Action)
    requires SiteOk(sh, site, j) && Enabled(j, a) && !a.StartPut? && !a.StartGet?
    ensures SiteOk(sh, MovedOn(site, j, a), Next(j, a))
  {
    hide *;
    SiteParts(sh, site, j);
    StoredKeeps(site, j, a);
    JobStep(j, a);
    QueuedGrows(j, a);
    if Live(j) {
      Drain.StaysLive(j, a);
    }
    if a.Handle? {
      AttendedHandle(site, j, a.id, a.event);
    } else {
      AttendedRest(site, j, a);
    }
    StoredCounts(sh, site, j, a);
    EmptyOpen(site.open, MovedOn(site, j, a).open);
    SiteWhole(sh, MovedOn(site, j, a), Next(j, a));
  }

  lemma SiteParts(sh: Shared, site: Site, job: Job)
    requires SiteOk(sh, site, job)
    ensures Suited(sh, site.setup) && (site.open != map[] ==> Live(job))
    ensures Attended(site.setup, site.open, job.handlers) && AllCoherent(site) && Counted(site, job)
    ensures Uploads.Invariant(job) && Drain.CountsExact(job)
  {
  }

  lemma SiteWhole(sh: Shared, site: Site, job: Job)
    requires Suited(sh, site.setup) && (site.open != map[] ==> Live(job))
    requires Attended(site.setup, site.open, job.handlers) && AllCoherent(site) && Counted(site, job)
    requires Uploads.Invariant(job) && Drain.CountsExact(job)
    ensures SiteOk(sh, site, job)
  {
  }

  lemma StoredCounts(sh: Shared, site: Site, j: Job, a: Action)
    requires Enabled(j, a) && !a.StartPut? && Counted(site, j)
    requires var site' := MovedOn(site, j, a);
      site'.(open := site.open) == site && |site'.open| == |site.open| && StoringIds(site'.open) == StoringIds(site.open)
    ensures Counted(MovedOn(site, j, a), Next(j, a))
  {
    QueuedGrows(j, a);
    hide Next, Enabled, MovedOn, StoringIds, T.Count, T.Tally;
  }

  lemma EmptyOpen(a: map<nat, Open>, b: map<nat, Open>)
    requires |a| == |b|
    ensures a == map[] <==> b == map[]
  {
    if |a| == 0 {
      assert a == map[] && b == map[];
    }
  }

  lemma IdleIds(setup: Proxy.Setup, open: map<nat, Open>, handlers: map<nat, Handler>, id: nat)
    requires Attended(setup, open, handlers) && id in open && !open[id].stage.Looking? && !open[id].stage.Storing?
    ensures id !in handlers
  {
  }

  lemma AttendedWith(setup: Proxy.Setup, open: map<nat, Open>, handlers: map<nat, Handler>, id: nat, o: Open,
                     handlers': map<nat, Handler>)
    requires Attended(setup, open, handlers) && id !in handlers
    requires handlers' == handlers || (id in handlers' && handlers' == handlers[id := handlers'[id]])
    requires id in handlers' ==> Serves(setup, o, handlers'[id])
    requires o.stage.Looking? ==> id in handlers'
    ensures Attended(setup, open[id := o], handlers')
  {
    hide Serves;
  }

  lemma CoherentWith(site: Site, id: nat, o: Open)
    requires AllCoherent(site) && InOrder(site.setup, o)
    ensures AllCoherent(site.(open := site.open[id := o]))
  {
    hide InOrder;
  }

  lemma StartGetParts(j: Job, id: nat, key: Key)
    requires Enabled(j, StartGet(id, key))
    ensures var j' := Next(j, StartGet(id, key));
      j'.handlers == j.handlers[id := GetReading(key)] && j'.core.queued == j.core.queued
  {
  }

  lemma StartPutParts(j: Job, id: nat, msg: Msg)
    requires Enabled(j, StartPut(id, msg))
    ensures var j' := Next(j, StartPut(id, msg));
      && j'.handlers == (if msg.key in j.core.queued then j.handlers else j.handlers[id := PutWriting(msg)])
      && |j'.core.queued| <= |j.core.queued| + 1
  {
  }

  lemma LookingServes(setup: Proxy.Setup, o: Open)
    ensures Serves(setup, o.(stage := Looking), GetReading(KeyFor(setup, o)))
  {
  }

  lemma DecidedCoherent(setup: Proxy.Setup, o: Open, fault: string)
    requires InOrder(setup, o)
    ensures InOrder(setup, o.(stage := Decided(setup, o, fault))) && !Decided(setup, o, fault).Storing?
  {
    hide P.Parsed, P.RequestEligible, Proxy.PlainText;
  }

  lemma SiteDecide(sh: Shared, site: Site, j: Job, id: nat, fault: string)
    requires SiteOk(sh, site, j) && id in site.open && site.open[id].stage.Arrived?
    ensures id !in j.handlers && Live(j)
    ensures var stage := Decided(site.setup, site.open[id], fault);
      SiteOk(sh, At(site, id, stage), if stage.Looking? then Next(j, StartGet(id, KeyFor(site.setup, site.open[id]))) else j)
  {
    var o := site.open[id];
    var stage, key := Decided(site.setup, o, fault), KeyFor(site.setup, o);
    hide SiteOk, Suited, Attended, AllCoherent, Counted, Uploads.Invariant, Drain.CountsExact, Decided, KeyFor, Next, Live,
      Serves, InOrder;
    SiteParts(sh, site, j);
    IdleIds(site.setup, site.open, j.handlers, id);
    CoherentOne(site, id);
    DecidedCoherent(site.setup, o, fault);
    CoherentWith(site, id, o.(stage := stage));
    AtOpen(site, id, stage);
    if stage.Looking? {
      assert Enabled(j, StartGet(id, key));
      StartGetParts(j, id, key);
      LookingServes(site.setup, o);
      AttendedWith(site.setup, site.open, j.handlers, id, o.(stage := stage), Next(j, StartGet(id, key)).handlers);
      JobStep(j, StartGet(id, key));
      Drain.StaysLive(j, StartGet(id, key));
      CountedAs(site, j, At(site, id, stage), Next(j, StartGet(id, key)));
      SiteWhole(sh, At(site, id, stage), Next(j, StartGet(id, key)));
    } else {
      AttendedWith(site.setup, site.open, j.handlers, id, o.(stage := stage), j.handlers);
      CountedAs(site, j, At(site, id, stage), j);
      SiteWhole(sh, At(site, id, stage), j);
    }
  }

  lemma CoherentOne(site: Site, id: nat)
    requires AllCoherent(site) && id in site.open
    ensures InOrder(site.setup, site.open[id])
  {
  }

  /** The books still balance when no more is queued and no fewer are storing. */
  lemma CountedAs(site: Site, j: Job, site': Site, j': Job)
    requires Counted(site, j) && |site'.open| == |site.open| && site'.(open := site.open) == site
    requires |j'.core.queued| - |StoringIds(site'.open)| <= |j.core.queued| - |StoringIds(site.open)|
    ensures Counted(site', j')
  {
    hide T.Count, T.Tally, StoringIds;
  }

  lemma HeardShape(setup: Proxy.Setup, j: Job, o: Open, env: Proxy.Env)
    ensures match HeardBack(setup, j, o, env)
      case Storing(note, _) => note.outcome.Stored?
      case Ready(note, _) => !note.outcome.Stored?
      case _ => false
  {
    hide Upshot, Proxy.PlainText;
  }

  lemma HeardCoherent(setup: Proxy.Setup, j: Job, o: Open, env: Proxy.Env)
    requires InOrder(setup, o) && (o.stage.Forwarding? || o.stage.Fetching?)
    ensures var stage := HeardBack(setup, j, o, env);
      InOrder(setup, o.(stage := stage)) && !stage.Looking?
  {
    hide P.Parsed, P.RequestEligible, HeardBack, Upshot, Proxy.Storable;
    HeardShape(setup, j, o, env);
    if HeardBack(setup, j, o, env).Storing? {
      StoringIsStorable(setup, j, o, env);
    }
  }

  lemma SiteHear(sh: Shared, site: Site, j: Job, id: nat, env: Proxy.Env)
    requires SiteOk(sh, site, j) && id in site.open && (site.open[id].stage.Forwarding? || site.open[id].stage.Fetching?)
    ensures id !in j.handlers && Live(j)
    ensures var stage := HeardBack(site.setup, j, site.open[id], env);
      if stage.Storing? then
        env.upstream.Some? && env.upstream.value.body.Some?
        && SiteOk(sh, At(site, id, stage), Next(j, StartPut(id, Filed(Answering(site.setup, site.open[id], env)))))
      else SiteOk(sh, At(site, id, stage), j)
  {
    var o := site.open[id];
    var stage := HeardBack(site.setup, j, o, env);
    hide SiteOk, Suited, Attended, AllCoherent, Counted, Uploads.Invariant, Drain.CountsExact, HeardBack, Next, Live,
      Serves, InOrder, Filed, Answering;
    SiteParts(sh, site, j);
    IdleIds(site.setup, site.open, j.handlers, id);
    CoherentOne(site, id);
    HeardCoherent(site.setup, j, o, env);
    CoherentWith(site, id, o.(stage := stage));
    AtOpen(site, id, stage);
    if stage.Storing? {
      StoringIsStorable(site.setup, j, o, env);
      SiteHearPut(sh, site, j, id, stage, Filed(Answering(site.setup, o, env)));
    } else {
      AttendedWith(site.setup, site.open, j.handlers, id, o.(stage := stage), j.handlers);
      CountedAs(site, j, At(site, id, stage), j);
      SiteWhole(sh, At(site, id, stage), j);
    }
  }

  lemma SiteHearPut(sh: Shared, site: Site, j: Job, id: nat, stage: Stage, msg: Msg)
    requires SiteOk(sh, site, j) && id in site.open && id !in j.handlers && Live(j)
    requires !site.open[id].stage.Storing? && stage.Storing? && AllCoherent(At(site, id, stage))
    ensures SiteOk(sh, At(site, id, stage), Next(j, StartPut(id, msg)))
  {
    var o, a := site.open[id].(stage := stage), StartPut(id, msg);
    hide SiteOk, Suited, Attended, AllCoherent, Counted, Uploads.Invariant, Drain.CountsExact, Next, Live, InOrder;
    SiteParts(sh, site, j);
    StartPutParts(j, id, msg);
    AtOpen(site, id, stage);
    assert Serves(site.setup, o, PutWriting(msg));
    hide Serves;
    AttendedWith(site.setup, site.open, j.handlers, id, o, Next(j, a).handlers);
    JobStep(j, a);
    Drain.StaysLive(j, a);
    CountedAs(site, j, At(site, id, stage), Next(j, a));
    SiteWhole(sh, At(site, id, stage), Next(j, a));
  }

  lemma SiteArrive(sh: Shared, site: Site, j: Job, id: nat, req: Proxy.Request, url: P.Url)
    requires SiteOk(sh, site, j) && Live(j) && id !in site.open && P.Parsed(url) && Proxy.Reaches(req) && req.url == Some(url)
    ensures SiteOk(sh, Joined(site, id, req, url), j)
  {
    var o := Open(req, url, Arrived);
    var open' := site.open[id := o];
    hide SiteOk, Suited, Attended, AllCoherent, Uploads.Invariant, Drain.CountsExact, Live, Serves, T.Count, T.Tally;
    SiteParts(sh, site, j);
    assert id !in j.handlers by { NoHandler(site, j, id); }
    AttendedWith(site.setup, site.open, j.handlers, id, o, j.handlers);
    CoherentWith(site, id, o);
    assert StoringIds(open') == StoringIds(site.open);
    assert AllCoherent(site.(open := open', arrived := site.arrived + 1)) by {
      CoherentSame(site.(open := open'), site.(open := open', arrived := site.arrived + 1));
    }
    SiteWhole(sh, site.(open := open', arrived := site.arrived + 1), j);
  }

  lemma NoHandler(site: Site, j: Job, id: nat)
    requires Attended(site.setup, site.open, j.handlers) && id !in site.open
    ensures id !in j.handlers
  {
  }

  lemma CoherentSame(a: Site, b: Site)
    requires AllCoherent(a) && a.setup == b.setup && (forall id | id in b.open :: id in a.open && a.open[id] == b.open[id])
    ensures AllCoherent(b)
  {
    hide InOrder;
  }

  lemma CountsMore(moves: seq<T.Move>, l: T.Ledger, m: T.Move)
    requires T.Count(moves) == Some(l) && T.Able(l, m)
    ensures T.Count(moves + [m]) == Some(T.Moved(l, m))
  {
    assert (moves + [m])[..|moves|] == moves;
  }

  lemma TallyMore(notes: seq<T.Note>, note: T.Note)
    ensures T.Tally(notes + [note], T.StoredOnes) == T.Tally(notes, T.StoredOnes) + if note.outcome.Stored? then 1 else 0
  {
    assert (notes + [note])[..|notes|] == notes;
  }

  lemma SiteFinish(sh: Shared, site: Site, j: Job, id: nat)
    requires SiteOk(sh, site, j) && id in site.open && id !in j.handlers
    requires site.open[id].stage.Ready? || site.open[id].stage.Storing?
    requires T.Able(site.ledger, T.Begin(site.open[id].stage.note))
    ensures SiteOk(sh, Left(site, id), j)
  {
    var note := site.open[id].stage.note;
    var site' := Moved(site.(open := site.open - {id}), T.Begin(note));
    hide SiteOk, Suited, Attended, AllCoherent, Counted, InOrder, Uploads.Invariant, Drain.CountsExact, Live;
    SiteParts(sh, site, j);
    CoherentOne(site, id);
    CoherentSame(site, site');
    FinishCounts(site, j, id);
    AttendedLess(site.setup, site.open, j.handlers, id);
    SiteWhole(sh, site', j);
  }

  lemma AttendedLess(setup: Proxy.Setup, open: map<nat, Open>, handlers: map<nat, Handler>, id: nat)
    requires Attended(setup, open, handlers) && id !in handlers
    ensures Attended(setup, open - {id}, handlers)
  {
    hide Serves;
  }

  lemma FinishCounts(site: Site, j: Job, id: nat)
    requires Counted(site, j) && id in site.open && (site.open[id].stage.Ready? || site.open[id].stage.Storing?)
    requires T.Able(site.ledger, T.Begin(site.open[id].stage.note)) && InOrder(site.setup, site.open[id])
    ensures Counted(Moved(site.(open := site.open - {id}), T.Begin(site.open[id].stage.note)), j)
  {
    var note := site.open[id].stage.note;
    hide T.Count, T.Tally, P.Parsed, Verdict, StoringIds, T.Able;
    CountsMore(site.moves, site.ledger, T.Begin(note));
    TallyMore(site.ledger.notes, note);
    LeftIds(site.open, id);
  }

  lemma LeftIds(open: map<nat, Open>, id: nat)
    requires id in open
    ensures |open - {id}| == |open| - 1
    ensures |StoringIds(open - {id})| == |StoringIds(open)| - if open[id].stage.Storing? then 1 else 0
  {
    var less := open - {id};
    assert less.Keys == open.Keys - {id} && |less| == |less.Keys| && |open| == |open.Keys|;
    assert StoringIds(less) == StoringIds(open) - {id};
    assert open[id].stage.Storing? <==> id in StoringIds(open);
  }

  lemma SiteCount(sh: Shared, site: Site, j: Job, i: nat)
    requires SiteOk(sh, site, j) && T.Able(site.ledger, T.Tick(i))
    ensures SiteOk(sh, Moved(site, T.Tick(i)), j)
  {
    hide SiteOk, Suited, AllCoherent, Attended, Uploads.Invariant, Drain.CountsExact, Live, T.Count, T.Tally, T.Bumps;
    SiteParts(sh, site, j);
    CoherentSame(site, Moved(site, T.Tick(i)));
    CountsMore(site.moves, site.ledger, T.Tick(i));
    SiteWhole(sh, Moved(site, T.Tick(i)), j);
  }

  lemma SiteLaunch(sh: Shared, cfg: Config, setup: Proxy.Setup)
    requires Suited(sh, setup)
    ensures SiteOk(sh, Site(setup, map[], 0, T.BLANK, []), Fresh(cfg))
  {
    Drain.Always(cfg, [], Fresh(cfg));
  }

  // -- the whole system -----------------------------------------------------------------------

  lemma HistoryMore(prefix: string, past: seq<World.Event>, w: World.World, we: World.Event)
    requires World.History(prefix, past) == Some(w) && World.Possible(prefix, w, we)
    ensures World.History(prefix, past + [we]) == Some(World.After(prefix, w, we))
  {
    assert (past + [we])[..|past|] == past;
  }

  /** What the world's event makes of the jobs and of the puts. */
  lemma WorldParts(prefix: string, w: World.World, run: nat, a: Action)
    requires World.Possible(prefix, w, World.Step(run, a))
    ensures var w' := World.After(prefix, w, World.Step(run, a));
      && w'.jobs == w.jobs[run := Next(w.jobs[run], a)]
      && w'.puts == if a.StartPut? then w.puts + {a.msg} else w.puts
  {
    hide Next, Landed, Enabled;
  }

  /** The pieces of a lawful system after an event of one run. */
  lemma LawfulWith(sh: Shared, s: System, run: nat, site: Site, job: Job, s': System)
    requires Lawful(sh, s) && SiteOk(sh, site, job)
    requires World.History(sh.prefix, s'.past) == Some(s'.world)
    requires s'.sites == s.sites[run := site] && s'.world.jobs == s.world.jobs[run := job]
    requires s.heard <= s'.heard && (forall x | x in s'.heard :: x in s.heard || Known(sh, x))
    requires Explained(s'.world.puts, s'.heard)
    ensures Lawful(sh, s')
  {
    hide SiteOk, Known, Explained, World.History;
  }

  lemma ExplainedMore(puts: set<Msg>, heard: seq<Exchange>, heard': seq<Exchange>)
    requires Explained(puts, heard) && heard <= heard'
    ensures Explained(puts, heard')
  {
    hide P.RequestEligible, P.ResponseStorable, Filed;
    forall m | m in puts ensures exists x | x in heard' :: Accepted(x) && Filed(x) == m {
      var x :| x in heard && Accepted(x) && Filed(x) == m;
      assert x in heard';
    }
  }

  lemma LawfulAt(sh: Shared, s: System, run: nat)
    requires Lawful(sh, s) && run in s.sites
    ensures run in s.world.jobs && SiteOk(sh, s.sites[run], s.world.jobs[run])
    ensures World.History(sh.prefix, s.past) == Some(s.world) && Explained(s.world.puts, s.heard)
  {
    hide SiteOk, Known, Explained, World.History;
  }

  lemma LawfulLaunch(sh: Shared, s: System, run: nat, cfg: Config, setup: Proxy.Setup)
    requires Lawful(sh, s) && Possible(sh, s, Launch(run, cfg, setup))
    ensures Lawful(sh, After(sh, s, Launch(run, cfg, setup)))
  {
    var e, we := Launch(run, cfg, setup), World.Launch(run, cfg);
    var s' := After(sh, s, e);
    HistoryMore(sh.prefix, s.past, s.world, we);
    SiteLaunch(sh, cfg, setup);
    hide SiteOk, Suited, Known, Explained, World.History;
    LawfulWith(sh, s, run, Site(setup, map[], 0, T.BLANK, []), Fresh(cfg), s');
  }

  /** One run's proxy after an event that leaves its store alone. */
  lemma LawfulAside(sh: Shared, s: System, run: nat, site: Site, heard: seq<Exchange>)
    requires Lawful(sh, s) && run in s.sites && SiteOk(sh, site, s.world.jobs[run])
    requires s.heard <= heard && forall x | x in heard :: x in s.heard || Known(sh, x)
    ensures Lawful(sh, System(s.world, s.past, s.sites[run := site], heard))
  {
    hide SiteOk, Known, Explained, World.History;
    assert s.world.jobs == s.world.jobs[run := s.world.jobs[run]];
    ExplainedMore(s.world.puts, s.heard, heard);
    LawfulWith(sh, s, run, site, s.world.jobs[run], System(s.world, s.past, s.sites[run := site], heard));
  }

  /** One run's proxy and store after an event that moves both. */
  lemma LawfulStep(sh: Shared, s: System, run: nat, a: Action, site: Site, heard: seq<Exchange>)
    requires Lawful(sh, s) && run in s.sites && World.Possible(sh.prefix, s.world, World.Step(run, a))
    requires run in s.world.jobs && Enabled(s.world.jobs[run], a) && SiteOk(sh, site, Next(s.world.jobs[run], a))
    requires s.heard <= heard && forall x | x in heard :: x in s.heard || Known(sh, x)
    requires a.StartPut? ==> exists x | x in heard :: Accepted(x) && Filed(x) == a.msg
    ensures Lawful(sh, System(World.After(sh.prefix, s.world, World.Step(run, a)), s.past + [World.Step(run, a)],
                              s.sites[run := site], heard))
  {
    hide SiteOk, Known, World.History, World.Possible, World.After, P.RequestEligible, Proxy.Storable, Filed, Next;
    HistoryMore(sh.prefix, s.past, s.world, World.Step(run, a));
    WorldParts(sh.prefix, s.world, run, a);
    ExplainedMore(s.world.puts, s.heard, heard);
    LawfulWith(sh, s, run, site, Next(s.world.jobs[run], a),
               System(World.After(sh.prefix, s.world, World.Step(run, a)), s.past + [World.Step(run, a)],
                      s.sites[run := site], heard));
  }

  // What each event makes of the system, in one equation.

  lemma StoreShape(sh: Shared, s: System, run: nat, a: Action)
    requires Possible(sh, s, Store(run, a))
    ensures World.Possible(sh.prefix, s.world, World.Step(run, a)) && run in s.sites && run in s.world.jobs
    ensures Enabled(s.world.jobs[run], a) && !a.StartPut? && !a.StartGet?
    ensures After(sh, s, Store(run, a)) ==
      System(World.After(sh.prefix, s.world, World.Step(run, a)), s.past + [World.Step(run, a)],
             s.sites[run := MovedOn(s.sites[run], s.world.jobs[run], a)], s.heard)
  {
    hide World.Possible, World.After, MovedOn, Enabled;
  }

  lemma DecideShape(sh: Shared, s: System, run: nat, id: nat, fault: string)
    requires Possible(sh, s, Decide(run, id, fault))
    ensures run in s.sites && run in s.world.jobs && id in s.sites[run].open && s.sites[run].open[id].stage.Arrived?
    ensures var site := s.sites[run];
      var stage, we := Decided(site.setup, site.open[id], fault), World.Step(run, StartGet(id, KeyFor(site.setup, site.open[id])));
      if stage.Looking? then
        World.Possible(sh.prefix, s.world, we)
        && After(sh, s, Decide(run, id, fault)) ==
             System(World.After(sh.prefix, s.world, we), s.past + [we], s.sites[run := At(site, id, stage)], s.heard)
      else After(sh, s, Decide(run, id, fault)) == System(s.world, s.past, s.sites[run := At(site, id, stage)], s.heard)
  {
    hide World.Possible, World.After, Decided, KeyFor, At;
  }

  /** What was heard, with the answer just given. */
  function HeardNow(s: System, site: Site, o: Open, env: Proxy.Env): seq<Exchange> {
    if env.upstream.Some? then s.heard + [Answering(site.setup, o, env)] else s.heard
  }

  lemma HearShape(sh: Shared, s: System, run: nat, id: nat, env: Proxy.Env)
    requires Possible(sh, s, Event.Hear(run, id, env))
    ensures run in s.sites && run in s.world.jobs && id in s.sites[run].open
    ensures s.sites[run].open[id].stage.Forwarding? || s.sites[run].open[id].stage.Fetching?
    ensures var site, o, s' := s.sites[run], s.sites[run].open[id], After(sh, s, Event.Hear(run, id, env));
      var stage := HeardBack(site.setup, s.world.jobs[run], o, env);
      if stage.Storing? then
        env.upstream.Some? && env.upstream.value.body.Some?
        && var we := World.Step(run, StartPut(id, Filed(Answering(site.setup, o, env))));
          World.Possible(sh.prefix, s.world, we)
          && s' == System(World.After(sh.prefix, s.world, we), s.past + [we], s.sites[run := At(site, id, stage)],
                          HeardNow(s, site, o, env))
      else s' == System(s.world, s.past, s.sites[run := At(site, id, stage)], HeardNow(s, site, o, env))
  {
    hide World.Possible, World.After, HeardBack, Filed, At, Proxy.Storable, P.Parsed;
    var site := s.sites[run];
    if HeardBack(site.setup, s.world.jobs[run], site.open[id], env).Storing? {
      StoringIsStorable(site.setup, s.world.jobs[run], site.open[id], env);
    }
  }

  lemma ArriveShape(sh: Shared, s: System, run: nat, id: nat, req: Proxy.Request, url: P.Url)
    requires Possible(sh, s, Arrive(run, id, req, url))
    ensures run in s.sites && run in s.world.jobs && Live(s.world.jobs[run]) && id !in s.sites[run].open && P.Parsed(url)
    ensures Proxy.Reaches(req) && req.url == Some(url)
    ensures After(sh, s, Arrive(run, id, req, url)) ==
      System(s.world, s.past, s.sites[run := Joined(s.sites[run], id, req, url)], s.heard)
  {
    hide World.Possible, World.After, Live, P.Parsed, Proxy.Reaches;
  }

  /** The request of this number is done with the store. */
  predicate Done(site: Site, job: Job, id: nat) {
    && id in site.open
    && (site.open[id].stage.Ready? || (site.open[id].stage.Storing? && id !in job.handlers))
    && T.Able(site.ledger, T.Begin(site.open[id].stage.note))
  }

  lemma FinishShape(sh: Shared, s: System, run: nat, id: nat)
    requires Possible(sh, s, Finish(run, id))
    ensures run in s.sites && run in s.world.jobs && Done(s.sites[run], s.world.jobs[run], id)
    ensures After(sh, s, Finish(run, id)) == System(s.world, s.past, s.sites[run := Left(s.sites[run], id)], s.heard)
  {
    hide World.Possible, World.After, T.Able, Moved;
  }

  lemma CountShape(sh: Shared, s: System, run: nat, i: nat)
    requires Possible(sh, s, Count(run, i))
    ensures run in s.sites && run in s.world.jobs && T.Able(s.sites[run].ledger, T.Tick(i))
    ensures After(sh, s, Count(run, i)) == System(s.world, s.past, s.sites[run := Moved(s.sites[run], T.Tick(i))], s.heard)
  {
    hide World.Possible, World.After, T.Able, Moved;
  }

  // And that each keeps the system lawful.

  lemma LawfulStore(sh: Shared, s: System, run: nat, a: Action)
    requires Lawful(sh, s) && Possible(sh, s, Store(run, a))
    ensures Lawful(sh, After(sh, s, Store(run, a)))
  {
    hide *;
    StoreShape(sh, s, run, a);
    LawfulAt(sh, s, run);
    SiteStore(sh, s.sites[run], s.world.jobs[run], a);
    LawfulStep(sh, s, run, a, MovedOn(s.sites[run], s.world.jobs[run], a), s.heard);
  }

  lemma LawfulDecide(sh: Shared, s: System, run: nat, id: nat, fault: string)
    requires Lawful(sh, s) && Possible(sh, s, Decide(run, id, fault))
    ensures Lawful(sh, After(sh, s, Decide(run, id, fault)))
  {
    hide *;
    DecideShape(sh, s, run, id, fault);
    LawfulAt(sh, s, run);
    var site := s.sites[run];
    SiteDecide(sh, site, s.world.jobs[run], id, fault);
    var stage := Decided(site.setup, site.open[id], fault);
    if stage.Looking? {
      StepEnabled(sh.prefix, s.world, run, StartGet(id, KeyFor(site.setup, site.open[id])));
      LawfulStep(sh, s, run, StartGet(id, KeyFor(site.setup, site.open[id])), At(site, id, stage), s.heard);
    } else {
      LawfulAside(sh, s, run, At(site, id, stage), s.heard);
    }
  }

  lemma HeardIsKnown(sh: Shared, s: System, site: Site, job: Job, id: nat, env: Proxy.Env)
    requires SiteOk(sh, site, job) && id in site.open
    ensures var heard := HeardNow(s, site, site.open[id], env);
      s.heard <= heard && forall x | x in heard :: x in s.heard || Known(sh, x)
  {
    assert InOrder(site.setup, site.open[id]);
    hide P.Parsed, Attended, Counted, Uploads.Invariant, Drain.CountsExact;
  }

  lemma StoringIsAccepted(sh: Shared, s: System, site: Site, job: Job, id: nat, env: Proxy.Env)
    requires SiteOk(sh, site, job) && id in site.open && (site.open[id].stage.Forwarding? || site.open[id].stage.Fetching?)
    requires HeardBack(site.setup, job, site.open[id], env).Storing?
    ensures env.upstream.Some? && env.upstream.value.body.Some?
    ensures var x := Answering(site.setup, site.open[id], env);
      Accepted(x) && x.answer.body.Some? && x in HeardNow(s, site, site.open[id], env)
  {
    hide P.RequestEligible, HeardBack, Proxy.Storable, P.Parsed, Attended, Counted, Uploads.Invariant, Drain.CountsExact,
      Live, Suited;
    assert InOrder(site.setup, site.open[id]);
    StoringIsStorable(site.setup, job, site.open[id], env);
  }

  lemma LawfulHear(sh: Shared, s: System, run: nat, id: nat, env: Proxy.Env)
    requires Lawful(sh, s) && Possible(sh, s, Event.Hear(run, id, env))
    ensures Lawful(sh, After(sh, s, Event.Hear(run, id, env)))
  {
    hide *;
    HearShape(sh, s, run, id, env);
    LawfulAt(sh, s, run);
    var site, job := s.sites[run], s.world.jobs[run];
    SiteHear(sh, site, job, id, env);
    HeardIsKnown(sh, s, site, job, id, env);
    var stage := HeardBack(site.setup, job, site.open[id], env);
    if stage.Storing? {
      StoringIsAccepted(sh, s, site, job, id, env);
      StepEnabled(sh.prefix, s.world, run, StartPut(id, Filed(Answering(site.setup, site.open[id], env))));
      LawfulStep(sh, s, run, StartPut(id, Filed(Answering(site.setup, site.open[id], env))), At(site, id, stage),
                 HeardNow(s, site, site.open[id], env));
    } else {
      LawfulAside(sh, s, run, At(site, id, stage), HeardNow(s, site, site.open[id], env));
    }
  }

  lemma StepEnabled(prefix: string, w: World.World, run: nat, a: Action)
    requires World.Possible(prefix, w, World.Step(run, a))
    ensures run in w.jobs && Enabled(w.jobs[run], a)
  {
    hide Enabled;
  }

  lemma LawfulArrive(sh: Shared, s: System, run: nat, id: nat, req: Proxy.Request, url: P.Url)
    requires Lawful(sh, s) && Possible(sh, s, Arrive(run, id, req, url))
    ensures Lawful(sh, After(sh, s, Arrive(run, id, req, url)))
  {
    hide *;
    ArriveShape(sh, s, run, id, req, url);
    LawfulAt(sh, s, run);
    SiteArrive(sh, s.sites[run], s.world.jobs[run], id, req, url);
    LawfulAside(sh, s, run, Joined(s.sites[run], id, req, url), s.heard);
  }

  lemma LawfulFinish(sh: Shared, s: System, run: nat, id: nat)
    requires Lawful(sh, s) && Possible(sh, s, Finish(run, id))
    ensures Lawful(sh, After(sh, s, Finish(run, id)))
  {
    hide Lawful, Possible, After, SiteOk, Attended, T.Able, Moved, World.History, Explained;
    FinishShape(sh, s, run, id);
    LawfulAt(sh, s, run);
    var site, job := s.sites[run], s.world.jobs[run];
    if site.open[id].stage.Ready? {
      SiteParts(sh, site, job);
      IdleIds(site.setup, site.open, job.handlers, id);
    }
    SiteFinish(sh, site, job, id);
    LawfulAside(sh, s, run, Left(site, id), s.heard);
  }

  lemma LawfulCount(sh: Shared, s: System, run: nat, i: nat)
    requires Lawful(sh, s) && Possible(sh, s, Count(run, i))
    ensures Lawful(sh, After(sh, s, Count(run, i)))
  {
    hide *;
    CountShape(sh, s, run, i);
    LawfulAt(sh, s, run);
    SiteCount(sh, s.sites[run], s.world.jobs[run], i);
    LawfulAside(sh, s, run, Moved(s.sites[run], T.Tick(i)), s.heard);
  }

  lemma LawfulAfter(sh: Shared, s: System, e: Event)
    requires Lawful(sh, s) && Possible(sh, s, e)
    ensures Lawful(sh, After(sh, s, e))
  {
    hide Lawful, Possible, After;
    match e
    case Launch(run, cfg, setup) => LawfulLaunch(sh, s, run, cfg, setup);
    case Decide(run, id, fault) => LawfulDecide(sh, s, run, id, fault);
    case Hear(run, id, env) => LawfulHear(sh, s, run, id, env);
    case Store(run, a) => LawfulStore(sh, s, run, a);
    case Arrive(run, id, req, url) => LawfulArrive(sh, s, run, id, req, url);
    case Finish(run, id) => LawfulFinish(sh, s, run, id);
    case Count(run, i) => LawfulCount(sh, s, run, i);
  }

  /** Every history of requests in every chain and overlap of runs is a history of the world in which
      the store is touched only by eligible requests, each handler by its own, and every object put is
      an answer the origin gave before, accepted and filed under its request's key. */
  lemma {:induction false} AlwaysLawful(sh: Shared, events: seq<Event>, s: System)
    requires Run(sh, events) == Some(s)
    ensures Lawful(sh, s)
    decreases |events|
  {
    if events == [] {
      assert World.History(sh.prefix, []) == Some(World.EMPTY);
    } else {
      hide Lawful, Possible, After;
      var before := Run(sh, events[..|events| - 1]).value;
      AlwaysLawful(sh, events[..|events| - 1], before);
      LawfulAfter(sh, before, events[|events| - 1]);
    }
  }

  // -- what follows ---------------------------------------------------------------------------

  /** Whenever a handler of a store is at work, in any history: it works for the open request of its
      number, the policy found that request eligible, and a lookup is for that request's own key. So a
      request that is not eligible never has the store look for, write or queue anything. */
  lemma OnlyEligibleTouchTheStore(sh: Shared, events: seq<Event>, s: System, run: nat, id: nat)
    requires Run(sh, events) == Some(s) && run in s.world.jobs && id in s.world.jobs[run].handlers
    ensures run in s.sites && id in s.sites[run].open
    ensures var site, h := s.sites[run], s.world.jobs[run].handlers[id];
      && Verdict(site.setup, site.open[id]) == None && site.open[id].req.body.Some?
      && (S.Getting(h) ==> site.open[id].stage.Looking? && Traffic.GetFor(h, KeyFor(site.setup, site.open[id])))
      && (!S.Getting(h) ==> site.open[id].stage.Storing?)
  {
    AlwaysLawful(sh, events, s);
    assert run in s.sites.Keys;
    LawfulAt(sh, s, run);
    var site, job := s.sites[run], s.world.jobs[run];
    SiteParts(sh, site, job);
    hide Lawful, SiteOk, AllCoherent, Counted, Verdict, S.Getting, Traffic.GetFor, KeyFor, P.Parsed, Uploads.Invariant;
    assert Serves(site.setup, site.open[id], job.handlers[id]);
    CoherentOne(site, id);
  }

  /** One record each: a run's notes are as many as the requests that arrived and are answered, the
      open ones are the rest; when none is open and none half counted, the request counter is the
      number of requests that ever arrived. */
  lemma OneRecordEach(sh: Shared, events: seq<Event>, s: System, run: nat)
    requires Run(sh, events) == Some(s) && run in s.sites
    ensures var site := s.sites[run];
      && |site.ledger.notes| + |site.open| == site.arrived
      && (site.open == map[] && T.Idle(site.ledger) && site.arrived < Ascii.U64 ==>
            var c := site.ledger.counters;
            c.requests == site.arrived == c.hits + c.misses + c.passthrough + c.errors)
  {
    AlwaysLawful(sh, events, s);
    LawfulAt(sh, s, run);
    var site := s.sites[run];
    SiteParts(sh, site, s.world.jobs[run]);
    hide Lawful, SiteOk, T.Count;
    if site.arrived < Ascii.U64 {
      T.Conservation(site.moves, site.ledger);
    }
  }

  /** Something a handler can hear, whatever it waits for. */
  function SomeEvent(h: Handler): (e: HandlerEvent)
    ensures HandlerWaits(h, e)
  {
    match h
    case PutWriting(_) => Io(true)
    case GetReading(_) => Io(true)
    case GetSaving(_) => Io(true)
    case GetAsking(_) => HandlerEvent.Hear(Gha.Unreachable)
    case _ => Go
  }

  /** The surroundings say the same of the origin. */
  predicate SameOrigin(a: Proxy.Env, b: Proxy.Env) {
    a.upstream == b.upstream && a.now == b.now && a.millis == b.millis && a.fault == b.fault
  }

  /** However it was interleaved, what a request comes to once the origin has answered is what the
      proxy's own handling of it comes to, in one go, when its lookup finds nothing: the same outcome is
      noted and the same response given, whatever the store went through in between. */
  lemma AnswersAreTheProxys(sh: Shared, events: seq<Event>, s: System, run: nat, id: nat, env: Proxy.Env, around: Proxy.Env)
    requires Run(sh, events) == Some(s) && Possible(sh, s, Event.Hear(run, id, env)) && SameOrigin(env, around)
    requires var site, job, o := s.sites[run], s.world.jobs[run], s.sites[run].open[id];
      Proxy.Cached(site.setup, job.cfg, job.core, o.req, o.url, around) == None
    ensures var site, job, o := s.sites[run], s.world.jobs[run], s.sites[run].open[id];
      var stage := After(sh, s, Event.Hear(run, id, env)).sites[run].open[id].stage;
      && Proxy.Reaches(o.req) && (stage.Ready? || stage.Storing?)
      && (var whole := Proxy.AfterDispatch(site.setup, job.cfg, job.core, o.req, around);
          Some(stage.note) == whole.note && Some(stage.response) == whole.response)
  {
    var site, job := s.sites[run], s.world.jobs[run];
    hide *;
    AlwaysLawful(sh, events, s);
    LawfulAt(sh, s, run);
    SiteParts(sh, site, job);
    StageHeard(sh, s, run, id, env);
    OneGo(site.setup, job, site.open[id], env, around);
  }

  lemma StageHeard(sh: Shared, s: System, run: nat, id: nat, env: Proxy.Env)
    requires Possible(sh, s, Event.Hear(run, id, env)) && AllCoherent(s.sites[run])
    ensures InOrder(s.sites[run].setup, s.sites[run].open[id])
    ensures s.sites[run].open[id].stage.Forwarding? || s.sites[run].open[id].stage.Fetching?
    ensures After(sh, s, Event.Hear(run, id, env)).sites[run].open[id].stage
      == HeardBack(s.sites[run].setup, s.world.jobs[run], s.sites[run].open[id], env)
  {
    hide HeardBack, InOrder, World.Possible, World.After;
  }

  lemma OneGo(setup: Proxy.Setup, job: Job, o: Open, env: Proxy.Env, around: Proxy.Env)
    requires InOrder(setup, o) && (o.stage.Forwarding? || o.stage.Fetching?) && SameOrigin(env, around)
    requires Proxy.Cached(setup, job.cfg, job.core, o.req, o.url, around) == None
    ensures var stage := HeardBack(setup, job, o, env);
      && (stage.Ready? || stage.Storing?)
      && Proxy.Reaches(o.req)
      && (var whole := Proxy.AfterDispatch(setup, job.cfg, job.core, o.req, around);
          Some(stage.note) == whole.note && Some(stage.response) == whole.response)
  {
    hide P.ResponseStorable, P.RequestEligible, P.Key, Proxy.Built, Proxy.WithCache, Proxy.Sanitized, Proxy.FiledAs, S.AfterPut,
      S.AfterGet, Entry.Decoded, Proxy.Replayed, Proxy.PlainText, Proxy.Pinned;
  }

  /** No request waits for what cannot come: for each one open there is an event of its own that can
      happen next. */
  lemma NeverStuck(sh: Shared, events: seq<Event>, s: System, run: nat, id: nat) returns (e: Event)
    requires Run(sh, events) == Some(s) && run in s.sites && id in s.sites[run].open
    ensures Possible(sh, s, e) && e.run == run
    ensures match e
      case Store(_, a) => a.Handle? && a.id == id
      case Decide(_, other, _) => other == id
      case Hear(_, other, _) => other == id
      case Finish(_, other) => other == id
      case _ => false
  {
    hide *;
    AlwaysLawful(sh, events, s);
    LawfulAt(sh, s, run);
    OfOnePrefix(sh, s, run);
    var site, job := s.sites[run], s.world.jobs[run];
    SiteParts(sh, site, job);
    NotLooking(site, job, id);
    var stage := site.open[id].stage;
    if id in job.handlers {
      e := Store(run, Handle(id, SomeEvent(job.handlers[id])));
      StoreIsPossible(sh, s, run, id);
    } else if stage.Arrived? {
      e := Decide(run, id, "");
      DecideIsPossible(sh, s, run, id);
    } else if stage.Forwarding? || stage.Fetching? {
      e := Event.Hear(run, id, Proxy.Env(false, Gha.Unreachable, false, false, None, 0, 0, ""));
      SilenceIsPossible(sh, s, run, id, e.env);
    } else {
      e := Finish(run, id);
      FinishIsPossible(sh, s, run, id);
    }
  }

  lemma OfOnePrefix(sh: Shared, s: System, run: nat)
    requires World.History(sh.prefix, s.past) == Some(s.world) && run in s.world.jobs
    ensures s.world.jobs[run].cfg.prefix == sh.prefix
  {
    World.SoundAlways(sh.prefix, s.past, s.world);
    hide World.History, World.Genuine, World.EntryGenuine;
  }

  lemma NotLooking(site: Site, job: Job, id: nat)
    requires Attended(site.setup, site.open, job.handlers) && id in site.open && (site.open != map[] ==> Live(job))
    ensures id !in job.handlers ==> !site.open[id].stage.Looking?
    ensures Live(job)
  {
  }

  lemma FinishIsPossible(sh: Shared, s: System, run: nat, id: nat)
    requires run in s.sites && run in s.world.jobs && id in s.sites[run].open && id !in s.world.jobs[run].handlers
    requires s.sites[run].open[id].stage.Ready? || s.sites[run].open[id].stage.Storing?
    requires Counted(s.sites[run], s.world.jobs[run])
    ensures Possible(sh, s, Finish(run, id))
  {
    AbleBegin(s.sites[run], s.world.jobs[run]);
    hide T.Count, T.Tally;
  }

  lemma AbleBegin(site: Site, job: Job)
    requires Counted(site, job)
    ensures |site.ledger.done| == |site.ledger.notes|
  {
    T.CountersAreSums(site.moves, site.ledger, T.Requests);
  }

  lemma StoreIsPossible(sh: Shared, s: System, run: nat, id: nat)
    requires run in s.sites && run in s.world.jobs && id in s.world.jobs[run].handlers
    ensures Possible(sh, s, Store(run, Handle(id, SomeEvent(s.world.jobs[run].handlers[id]))))
  {
    hide HandlerNext, HandlerCore;
  }

  lemma DecideIsPossible(sh: Shared, s: System, run: nat, id: nat)
    requires run in s.sites && run in s.world.jobs && id in s.sites[run].open && s.sites[run].open[id].stage.Arrived?
    requires Live(s.world.jobs[run]) && id !in s.world.jobs[run].handlers
    requires s.world.jobs[run].cfg.prefix == sh.prefix && Suited(sh, s.sites[run].setup)
    ensures Possible(sh, s, Decide(run, id, ""))
  {
    var site := s.sites[run];
    P.KeysAreObjectKeys(site.setup.policy, site.open[id].url, site.setup.hash);
    hide Decided, World.ObjectKey, P.Digest;
  }

  lemma SilenceIsPossible(sh: Shared, s: System, run: nat, id: nat, env: Proxy.Env)
    requires run in s.sites && run in s.world.jobs && id in s.sites[run].open && env.upstream == None
    requires s.sites[run].open[id].stage.Forwarding? || s.sites[run].open[id].stage.Fetching?
    ensures Possible(sh, s, Event.Hear(run, id, env))
  {
    hide P.RequestEligible, P.Key;
  }
}
