/** The theorems about storing and finding runs have something to say: runs, step by step, that meet all
    they ask. */
module Witness {
  import opened Base
  import opened Gha
  import opened Job
  import opened Session
  import opened History
  import opened Holdings
  import opened Overlap
  import opened SecondRun
  import Drain
  import Manifest
  import Pack
  import Text
  import World

  /** The beats lead from s0 to s, smoothly throughout. */
  ghost predicate Smoothly(role: Role, puts: set<Msg>, s0: Scene, beats: seq<Beat>, s: Scene) {
    Play(s0, beats) == Some(s) && Throughout(role, puts, s0, beats)
  }

  lemma OneBeat(role: Role, puts: set<Msg>, s0: Scene, beats: seq<Beat>, s: Scene, a: Action, s': Scene)
    returns (more: seq<Beat>)
    requires Smoothly(role, puts, s0, beats, s) && Smooth(role, puts, s, Ours(a)) && s' == Then(s, Ours(a))
    ensures more == beats + [Ours(a)] && Smoothly(role, puts, s0, more, s')
  {
    assert Can(s, Ours(a));
    hide Smooth, Then, Can;
    more := beats + [Ours(a)];
    assert more[..|beats|] == beats;
  }

  /** A tame and neat step other than a load is smooth, when none of the names it keeps to was taken
      before the run left `zs`. */
  lemma NeatIsSmooth(puts: set<Msg>, plan: Plan, base: seq<Msg>, zs: seq<Msg>, j: Job, a: Action)
    requires Enabled(j, a) && Tame(j.cfg.prefix, plan.put, a) && Neat(plan, zs, j, a) && !a.LoadIndex? && !a.LoadPack?
    requires Unheld(base, j.cfg, plan) && plan.put in puts
    ensures Smooth(Storing, puts, Scene(base + zs, j), Ours(a))
  {
    NeatIsFree(plan, base, zs, j, a);
    hide World.ObjectKey, Pack.Narrow, Holds, Claim, World.Spelled, Unheld;
  }

  lemma {:induction false} Lifted(puts: set<Msg>, plan: Plan, s0: Scene, beats: seq<Beat>, s: Scene, trace: seq<Action>,
                                  j: Job, ys: seq<Msg>) returns (more: seq<Beat>)
    requires Smoothly(Storing, puts, s0, beats, s) && Leads(s.job.cfg.prefix, plan, s.job, trace, j, ys)
    requires forall a | a in trace :: !a.LoadIndex? && !a.LoadPack?
    requires Unheld(s.service, s.job.cfg, plan) && plan.put in puts
    ensures Smoothly(Storing, puts, s0, more, Scene(s.service + ys, j)) && beats <= more
    ensures forall a | a in trace :: Ours(a) in more
    decreases |trace|
  {
    hide *;
    if trace == [] {
      NoStep(s.job.cfg.prefix, plan, s.job, j, ys);
      assert s.service + [] == s.service && Scene(s.service, s.job) == s;
      more := beats;
    } else {
      var early, a := trace[..|trace| - 1], trace[|trace| - 1];
      var m, zs := LastStep(s.job.cfg.prefix, plan, s.job, trace, j, ys);
      assert forall x | x in early :: x in trace;
      SamePrefix(s.job.cfg.prefix, plan, s.job, early, m, zs);
      more := Lifted(puts, plan, s0, beats, s, early, m, zs);
      NeatIsSmooth(puts, plan, s.service, zs, m, a);
      Text.Associate(s.service, zs, LandedSeq(m, a));
      SmoothCan(puts, Scene(s.service + zs, m), a);
      OneThen(s.service + zs, m, a);
      more := OneBeat(Storing, puts, s0, more, Scene(s.service + zs, m), a, Scene(s.service + ys, j));
      assert forall x | x in trace :: x in early || x == a;
    }
  }

  lemma SmoothCan(puts: set<Msg>, s: Scene, a: Action)
    requires Smooth(Storing, puts, s, Ours(a))
    ensures Can(s, Ours(a))
  {
  }

  lemma OneThen(service: seq<Msg>, j: Job, a: Action)
    requires Can(Scene(service, j), Ours(a))
    ensures Then(Scene(service, j), Ours(a)) == Scene(service + LandedSeq(j, a), Next(j, a))
  {
  }

  lemma {:induction false} SamePrefix(prefix: string, plan: Plan, j0: Job, trace: seq<Action>, j: Job, ys: seq<Msg>)
    requires Leads(prefix, plan, j0, trace, j, ys)
    ensures j.cfg == j0.cfg
    decreases |trace|
  {
    if trace != [] {
      var m, zs := LastStep(prefix, plan, j0, trace, j, ys);
      hide Leads, Enabled, Next;
      SamePrefix(prefix, plan, j0, trace[..|trace| - 1], m, zs);
      World.SameConfig(m, trace[|trace| - 1]);
    }
  }

  // -- starting up ----------------------------------------------------------------------------

  /** A lookup that finds bytes at the service. */
  function Offering(bytes: Bytes): Reply<Offer> { Replied(Offer(true, "download", Some(bytes))) }

  /** The newest manifest lists `known`, and there is no pack. */
  ghost predicate Lying(service: seq<Msg>, cfg: Config, known: set<Key>) {
    ManifestOf(service, IndexPrefix(cfg)) == known && Newest(service, PackPrefix(cfg)) == None
  }

  lemma {:induction false} NewestIsThere(service: seq<Msg>, prefix: Key)
    ensures match Newest(service, prefix) case Some(x) => x in service && prefix <= x.key case None => true
  {
    if service != [] && !(prefix <= service[|service| - 1].key) {
      NewestIsThere(service[..|service| - 1], prefix);
    }
  }

  /** What the manifest's lookup hears there. */
  function Told(service: seq<Msg>, cfg: Config): Reply<Offer> {
    match Newest(service, IndexPrefix(cfg)) case Some(x) => Offering(x.bytes) case None => NOTHING
  }

  lemma IndexStep(role: Role, puts: set<Msg>, cfg: Config, service: seq<Msg>, known: set<Key>)
    requires cfg.service && Lying(service, cfg, known)
    ensures Smooth(role, puts, Scene(service, Fresh(cfg)), Ours(LoadIndex(Told(service, cfg))))
    ensures Then(Scene(service, Fresh(cfg)), Ours(LoadIndex(Told(service, cfg))))
      == Scene(service, Overlap.Serving(cfg, known).(phase := Unpacking))
  {
    NewestIsThere(service, IndexPrefix(cfg));
    hide Newest, Manifest.Listed;
    assert service + [] == service && AfterFetch(NOTHING) == Absent;
    if Newest(service, IndexPrefix(cfg)).Some? {
      assert {} + (set k | k in Manifest.Listed(Newest(service, IndexPrefix(cfg)).value.bytes)) == known;
    }
  }

  lemma PackStep(role: Role, puts: set<Msg>, cfg: Config, service: seq<Msg>, known: set<Key>)
    requires cfg.service && Lying(service, cfg, known)
    ensures var s := Scene(service, Overlap.Serving(cfg, known).(phase := Unpacking));
      && Smooth(role, puts, s, Ours(LoadPack(NOTHING, [])))
      && Then(s, Ours(LoadPack(NOTHING, []))) == Scene(service, Overlap.Serving(cfg, known))
  {
    hide Newest, ManifestOf;
    assert service + [] == service && AfterFetch(NOTHING) == Absent;
  }

  lemma Boot(role: Role, puts: set<Msg>, cfg: Config, service: seq<Msg>, known: set<Key>) returns (beats: seq<Beat>)
    requires cfg.service && Lying(service, cfg, known)
    ensures Smoothly(role, puts, Scene(service, Fresh(cfg)), beats, Scene(service, Overlap.Serving(cfg, known)))
  {
    var s0, j1 := Scene(service, Fresh(cfg)), Overlap.Serving(cfg, known).(phase := Unpacking);
    assert Smoothly(role, puts, s0, [], s0);
    hide *;
    IndexStep(role, puts, cfg, service, known);
    beats := OneBeat(role, puts, s0, [], s0, LoadIndex(Told(service, cfg)), Scene(service, j1));
    PackStep(role, puts, cfg, service, known);
    beats := OneBeat(role, puts, s0, beats, Scene(service, j1), LoadPack(NOTHING, []),
                     Scene(service, Overlap.Serving(cfg, known)));
  }

  // -- the storing run ------------------------------------------------------------------------

  function Finished1(cfg: Config, p: Plan): Job {
    var j := Settled(cfg, p, Stored);
    j.(core := j.core.(open := false), up := Ended, phase := Finished)
  }

  /** What such a run leaves at the service. */
  function Leaves(cfg: Config, p: Plan): seq<Msg> { [p.put] + [Listing1(cfg, p)] }

  lemma ReachFinished(cfg: Config, p: Plan) returns (trace: seq<Action>)
    requires Suitable(cfg, p)
    ensures Leads(cfg.prefix, p, Overlap.Serving(cfg, p.known), trace, Finished1(cfg, p), Leaves(cfg, p))
  {
    trace := WholeRun(cfg, p, true);
    assert Leaves(cfg, p) == [p.put] + [Listing1(cfg, p)];
    hide *;
    trace := AfterSave(cfg, p, trace, Leaves(cfg, p));
  }

  lemma AfterSave(cfg: Config, p: Plan, start: seq<Action>, ys: seq<Msg>) returns (trace: seq<Action>)
    requires Leads(cfg.prefix, p, Overlap.Serving(cfg, p.known), start, Saving(cfg, p, Stored, Back(Stored)), ys)
    ensures Leads(cfg.prefix, p, Overlap.Serving(cfg, p.known), trace, Finished1(cfg, p), ys)
  {
    hide Leads;
    var j0, j1 := Overlap.Serving(cfg, p.known), Saving(cfg, p, Stored, Back(Stored));
    var j2 := j1.(phase := IndexSaved);
    trace := Quiet(cfg.prefix, p, j0, start, j1, ys, Flush(SaveDone), j2);
    trace := Quiet(cfg.prefix, p, j0, trace, j2, ys, Flush(Gather([])), Finished1(cfg, p));
  }

  /** The run put its object in the course of its steps. */
  lemma {:induction false} PutItself(prefix: string, plan: Plan, j0: Job, trace: seq<Action>, j: Job, ys: seq<Msg>)
    returns (id: nat)
    requires Leads(prefix, plan, j0, trace, j, ys) && j0.core.queued == {} && plan.put.key in j.core.queued
    ensures StartPut(id, plan.put) in trace
    decreases |trace|
  {
    var a := trace[|trace| - 1];
    var m, zs := LastStep(prefix, plan, j0, trace, j, ys);
    if plan.put.key in m.core.queued {
      hide Leads, Enabled, Next, Tame;
      id := PutItself(prefix, plan, j0, trace[..|trace| - 1], m, zs);
      assert trace[..|trace| - 1] <= trace;
    } else {
      OnlyPutsQueue(m, a, plan.put.key);
      id := a.id;
    }
  }

  lemma OnlyPutsQueue(j: Job, a: Action, k: Key)
    requires Enabled(j, a) && k !in j.core.queued && k in Next(j, a).core.queued
    ensures a.StartPut?
  {
    hide HandlerNext, FlushPhase, FlushCounters, TaskNext;
  }

  lemma {:induction false} NoLoads(prefix: string, plan: Plan, j0: Job, trace: seq<Action>, j: Job, ys: seq<Msg>)
    requires Leads(prefix, plan, j0, trace, j, ys) && Live(j0)
    ensures Live(j) && forall a | a in trace :: !a.LoadIndex? && !a.LoadPack?
    decreases |trace|
  {
    if trace != [] {
      var m, zs := LastStep(prefix, plan, j0, trace, j, ys);
      hide Leads, Next, Tame;
      NoLoads(prefix, plan, j0, trace[..|trace| - 1], m, zs);
      Drain.StaysLive(m, trace[|trace| - 1]);
      assert forall a | a in trace :: a in trace[..|trace| - 1] || a == trace[|trace| - 1];
    }
  }

  /** A storing run of one object, by itself, on a service that has none of its names. */
  lemma StoringRun(puts: set<Msg>, cfg: Config, service: seq<Msg>, p: Plan) returns (beats: seq<Beat>, id: nat)
    requires Suitable(cfg, p) && p.put in puts && Lying(service, cfg, p.known) && Unheld(service, cfg, p)
    ensures Smoothly(Storing, puts, Scene(service, Fresh(cfg)), beats, Scene(service + Leaves(cfg, p), Finished1(cfg, p)))
    ensures Ours(StartPut(id, p.put)) in beats
  {
    var start, end, ys := Overlap.Serving(cfg, p.known), Finished1(cfg, p), Leaves(cfg, p);
    beats := Boot(Storing, puts, cfg, service, p.known);
    var trace := ReachFinished(cfg, p);
    id := PutItself(cfg.prefix, p, start, trace, end, ys);
    NoLoads(cfg.prefix, p, start, trace, end, ys);
    hide Smoothly, Leads, Suitable, Unheld, Leaves, Lying;
    beats := Lifted(puts, p, Scene(service, Fresh(cfg)), beats, Scene(service, start), trace, end, ys);
  }

  lemma NoPackLeft(cfg: Config, p: Plan)
    requires Suitable(cfg, p)
    ensures !(PackPrefix(cfg) <= p.put.key) && !(PackPrefix(cfg) <= Listing1(cfg, p).key)
  {
    var x := Listing1(cfg, p);
    hide World.ObjectKey, World.KindKey, Manifest.Render, Manifest.Lists, Pack.Narrow;
    assert IndexPrefix(cfg) <= x.key;
    hide ScopedPrefix, Named;
    World.KindsApart(cfg.prefix, p.put.key);
    World.KindsApart(cfg.prefix, x.key);
    World.ScopedIsKind(cfg, "index", x.key);
    if PackPrefix(cfg) <= p.put.key {
      World.ScopedIsKind(cfg, "pack", p.put.key);
    }
    if PackPrefix(cfg) <= x.key {
      World.ScopedIsKind(cfg, "pack", x.key);
    }
  }

  /** Neither of the entries it leaves is a pack, and its manifest is the newest. */
  lemma LyingAfter(cfg: Config, service: seq<Msg>, p: Plan)
    requires Suitable(cfg, p) && '\n' !in cfg.prefix && AllClean(p.known) && Lying(service, cfg, p.known)
    ensures Lying(service + Leaves(cfg, p), cfg, p.known + {p.put.key})
  {
    var x := Listing1(cfg, p);
    Text.Associate(service, [p.put], [x]);
    assert Leaves(cfg, p) == [p.put] + [x];
    LyingParts(service, cfg, p.known);
    hide *;
    NoPackLeft(cfg, p);
    NewestLists(service + [p.put], cfg, p);
    NewestAppend(service + [p.put], x, PackPrefix(cfg));
    NewestAppend(service, p.put, PackPrefix(cfg));
    LyingParts(service + Leaves(cfg, p), cfg, p.known + {p.put.key});
  }

  // -- the finding run ------------------------------------------------------------------------

  /** A run in the middle of looking an object up. */
  function Finding0(cfg: Config, known: set<Key>, h: Handler): Job {
    Overlap.Serving(cfg, known).(handlers := map[0 := h])
  }

  /** One step of that lookup. */
  lemma LookStep(puts: set<Msg>, cfg: Config, known: set<Key>, m: Msg, service: seq<Msg>, h: Handler, e: HandlerEvent,
                 h': Handler)
    requires m in service && cfg.service && HandlerWaits(h, e) && (e.Io? ==> e.ok)
    requires e.Hear? ==> h.GetAsking? && h.key == m.key && e.reply == Offering(m.bytes)
    requires HandlerNext(cfg, Overlap.Serving(cfg, known).core, h, e) == Some(h')
    requires HandlerCore(cfg, Overlap.Serving(cfg, known).core, h, e) == Overlap.Serving(cfg, known).core && !h.PutSending?
    ensures var s := Scene(service, Finding0(cfg, known, h));
      && Smooth(Finding, puts, s, Ours(Handle(0, e)))
      && Then(s, Ours(Handle(0, e))) == Scene(service, Finding0(cfg, known, h'))
  {
    hide HandlerCore, HandlerNext;
    assert service + [] == service;
  }

  /** A run that has looked m up as far as having its bytes in hand. */
  lemma FindingRun(puts: set<Msg>, cfg: Config, service: seq<Msg>, known: set<Key>, m: Msg) returns (beats: seq<Beat>)
    requires cfg.service && Lying(service, cfg, known) && m in service && m.key in known && World.ObjectKey(cfg.prefix, m.key)
    ensures Smoothly(Finding, puts, Scene(service, Fresh(cfg)), beats, Scene(service, Finding0(cfg, known, GetSaving(m))))
  {
    beats := Boot(Finding, puts, cfg, service, known);
    hide *;
    var s0 := Scene(service, Fresh(cfg));
    StartLook(puts, cfg, known, m, service);
    beats := OneBeat(Finding, puts, s0, beats, Scene(service, Overlap.Serving(cfg, known)), StartGet(0, m.key),
                     Scene(service, Finding0(cfg, known, GetReading(m.key))));
    beats := Looks(puts, cfg, known, m, service, s0, beats);
  }

  lemma StartLook(puts: set<Msg>, cfg: Config, known: set<Key>, m: Msg, service: seq<Msg>)
    requires World.ObjectKey(cfg.prefix, m.key)
    ensures var s := Scene(service, Overlap.Serving(cfg, known));
      && Smooth(Finding, puts, s, Ours(StartGet(0, m.key)))
      && Then(s, Ours(StartGet(0, m.key))) == Scene(service, Finding0(cfg, known, GetReading(m.key)))
  {
    hide World.ObjectKey;
    assert service + [] == service;
  }

  lemma Looks(puts: set<Msg>, cfg: Config, known: set<Key>, m: Msg, service: seq<Msg>, s0: Scene, start: seq<Beat>)
    returns (beats: seq<Beat>)
    requires m in service && cfg.service && m.key in known
    requires Smoothly(Finding, puts, s0, start, Scene(service, Finding0(cfg, known, GetReading(m.key))))
    ensures Smoothly(Finding, puts, s0, beats, Scene(service, Finding0(cfg, known, GetSaving(m))))
  {
    var k := m.key;
    hide Smoothly, Smooth, Then;
    beats := Look(puts, cfg, known, m, service, s0, start, GetReading(k), Io(true), GetListing(k));
    beats := Look(puts, cfg, known, m, service, s0, beats, GetListing(k), Go, GetRecalling(k));
    beats := Look(puts, cfg, known, m, service, s0, beats, GetRecalling(k), Go, GetChecking(k));
    beats := Look(puts, cfg, known, m, service, s0, beats, GetChecking(k), Go, GetAsking(k));
    assert Msg(k, m.bytes) == m && AfterFetch(Offering(m.bytes)) == Found(m.bytes);
    beats := Look(puts, cfg, known, m, service, s0, beats, GetAsking(k), Hear(Offering(m.bytes)), GetSaving(m));
  }

  lemma Look(puts: set<Msg>, cfg: Config, known: set<Key>, m: Msg, service: seq<Msg>, s0: Scene, start: seq<Beat>,
             h: Handler, e: HandlerEvent, h': Handler) returns (beats: seq<Beat>)
    requires Smoothly(Finding, puts, s0, start, Scene(service, Finding0(cfg, known, h)))
    requires m in service && cfg.service && HandlerWaits(h, e) && (e.Io? ==> e.ok)
    requires e.Hear? ==> h.GetAsking? && h.key == m.key && e.reply == Offering(m.bytes)
    requires HandlerNext(cfg, Overlap.Serving(cfg, known).core, h, e) == Some(h')
    requires HandlerCore(cfg, Overlap.Serving(cfg, known).core, h, e) == Overlap.Serving(cfg, known).core && !h.PutSending?
    ensures Smoothly(Finding, puts, s0, beats, Scene(service, Finding0(cfg, known, h')))
  {
    hide *;
    LookStep(puts, cfg, known, m, service, h, e, h');
    beats := OneBeat(Finding, puts, s0, start, Scene(service, Finding0(cfg, known, h)), Handle(0, e),
                     Scene(service, Finding0(cfg, known, h')));
  }

  // -- three runs -----------------------------------------------------------------------------

  /** Three runs of one scope, one after the other: the first stores an object and lists it, the second
      finds that listed, stores another and lists both under a stamp of its own, the third looks the
      second one's object up. The theorems about chains and about the run after apply to them, and the
      lookup returns what the second-run theorem says. */
  lemma ThreeRuns(cfg: Config, p: Plan, q: Plan)
    returns (first: seq<Beat>, middle: Scene, second: seq<Beat>, end: Scene, id: nat, third: seq<Beat>, s: Scene, a: Action)
    requires Suitable(cfg, p) && Suitable(cfg, q) && p.known == {} && q.known == {p.put.key} && p.stamp != q.stamp
    requires '\n' !in cfg.prefix
    ensures var puts := {p.put, q.put};
      && Play(Scene([], Fresh(cfg)), first) == Some(middle) && Throughout(Storing, puts, Scene([], Fresh(cfg)), first)
      && middle.job.phase.Finished? && ManifestOf(middle.service, IndexPrefix(cfg)) == {p.put.key}
      && Play(Scene(middle.service, Fresh(cfg)), second) == Some(end)
      && Throughout(Storing, puts, Scene(middle.service, Fresh(cfg)), second)
      && end.job.phase.Finished? && Ours(StartPut(id, q.put)) in second && Confirmed(end, q.put.key)
      && ManifestOf(end.service, IndexPrefix(cfg)) == {p.put.key, q.put.key}
      && Play(Scene(end.service, Fresh(cfg)), third) == Some(s) && Throughout(Finding, puts, Scene(end.service, Fresh(cfg)), third)
      && Can(s, Ours(a)) && Answer(s.job, a) == Some((q.put.key, Some(q.put.bytes)))
  {
    var puts, mid := {p.put, q.put}, Leaves(cfg, p);
    var service := mid + Leaves(cfg, q);
    hide *;
    Facts(cfg, p, q);
    var n;
    first, n := StoringRun(puts, cfg, [], p);
    second, id := StoringRun(puts, cfg, mid, q);
    third := FindingRun(puts, cfg, service, {p.put.key, q.put.key}, q.put);
    middle, end := Scene([] + mid, Finished1(cfg, p)), Scene(service, Finished1(cfg, q));
    assert [] + mid == mid;
    s, a := Scene(service, Finding0(cfg, {p.put.key, q.put.key}, GetSaving(q.put))), Handle(0, Io(true));
    var answer := LastLook(cfg, {p.put.key, q.put.key}, service, q.put);
    Premises(cfg, p, q);
    SmoothParts(Storing, puts, Scene([], Fresh(cfg)), first, middle);
    SmoothParts(Storing, puts, Scene(mid, Fresh(cfg)), second, end);
    SmoothParts(Finding, puts, Scene(service, Fresh(cfg)), third, s);
    LyingParts(mid, cfg, {p.put.key});
    LyingParts(service, cfg, {p.put.key, q.put.key});
    SecondRunHits(puts, cfg, mid, second, end, cfg, third, s, id, q.put, a, answer);
  }

  /** What the three runs rest on. */
  lemma Facts(cfg: Config, p: Plan, q: Plan)
    requires Suitable(cfg, p) && Suitable(cfg, q) && p.known == {} && q.known == {p.put.key} && p.stamp != q.stamp
    requires '\n' !in cfg.prefix
    ensures var mid := Leaves(cfg, p);
      && cfg.service && p.put in {p.put, q.put} && q.put in {p.put, q.put}
      && Lying([], cfg, {}) && Unheld([], cfg, p)
      && Lying(mid, cfg, q.known) && Unheld(mid, cfg, q)
      && Lying(mid + Leaves(cfg, q), cfg, {p.put.key, q.put.key}) && q.put in mid + Leaves(cfg, q)
      && World.ObjectKey(cfg.prefix, q.put.key)
  {
    NothingHeld(cfg, p);
    assert ManifestOf([], IndexPrefix(cfg)) == {} && Newest([], PackPrefix(cfg)) == None;
    PolicyKeysAreClean(cfg.prefix, p.put.key);
    hide World.ObjectKey, Pack.Narrow, Lying, Unheld, Manifest.Lists, ManifestOf, Newest;
    assert Lying([], cfg, {}) by { LyingParts([], cfg, {}); }
    LyingAfter(cfg, [], p);
    assert [] + Leaves(cfg, p) == Leaves(cfg, p) && {} + {p.put.key} == {p.put.key};
    LyingAfter(cfg, Leaves(cfg, p), q);
    assert {p.put.key} + {q.put.key} == {p.put.key, q.put.key};
    SecondUnheld(cfg, cfg, p, q);
    assert (Leaves(cfg, p) + Leaves(cfg, q))[2] == q.put;
  }

  lemma LyingParts(service: seq<Msg>, cfg: Config, known: set<Key>)
    ensures Lying(service, cfg, known)
      <==> ManifestOf(service, IndexPrefix(cfg)) == known && Newest(service, PackPrefix(cfg)) == None
  {
  }

  /** The lookup's last step. */
  lemma LastLook(cfg: Config, known: set<Key>, service: seq<Msg>, m: Msg) returns (answer: Option<Bytes>)
    ensures var s, a := Scene(service, Finding0(cfg, known, GetSaving(m))), Handle(0, Io(true));
      Can(s, Ours(a)) && Answer(s.job, a) == Some((m.key, answer)) && !s.job.core.exhausted
  {
    answer := Answer(Finding0(cfg, known, GetSaving(m)), Handle(0, Io(true))).value.1;
  }

  lemma SmoothParts(role: Role, puts: set<Msg>, s0: Scene, beats: seq<Beat>, s: Scene)
    requires Smoothly(role, puts, s0, beats, s)
    ensures Play(s0, beats) == Some(s) && Throughout(role, puts, s0, beats)
  {
  }

  /** What the second-run theorem asks beside the runs. */
  lemma Premises(cfg: Config, p: Plan, q: Plan)
    requires Suitable(cfg, p) && Suitable(cfg, q) && q.known == {p.put.key} && '\n' !in cfg.prefix
    ensures World.Sound(cfg.prefix, World.World(Leaves(cfg, p), map[], {p.put, q.put}))
    ensures forall m | m in {p.put, q.put} :: m.key == q.put.key ==> m == q.put
    ensures Lying(Leaves(cfg, p), cfg, {p.put.key}) ==> AllClean(ManifestOf(Leaves(cfg, p), IndexPrefix(cfg)))
    ensures Finished1(cfg, p).phase.Finished? && Finished1(cfg, q).phase.Finished?
    ensures Confirmed(Scene(Leaves(cfg, p) + Leaves(cfg, q), Finished1(cfg, q)), q.put.key)
  {
    PolicyKeysAreClean(cfg.prefix, p.put.key);
    var x := Listing1(cfg, p);
    assert IndexPrefix(cfg) <= x.key;
    World.ScopedIsKind(cfg, "index", x.key);
    hide World.ObjectKey, Pack.Narrow, World.KindKey, Manifest.Lists, Manifest.Render, ManifestOf, Manifest.Clean, Pack.Decoded, Holds;
    assert World.EntryGenuine(cfg.prefix, x, {p.put, q.put}) && World.EntryGenuine(cfg.prefix, p.put, {p.put, q.put});
    assert forall m | m in Leaves(cfg, p) :: m == p.put || m == x;
  }
}
