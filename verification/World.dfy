/** Any number of runs, started at any time and interleaved in any way, around one cache service. */
module World {
  import opened Base
  import opened Gha
  import opened Job
  import Ascii
  import Manifest
  import Pack
  import Text

  /** The service's entries in the order they landed, the runs, and everything any run was given to
      store. */
  datatype World = World(service: seq<Msg>, jobs: map<nat, Job>, puts: set<Msg>)

  datatype Event = Launch(id: nat, cfg: Config) | Step(id: nat, action: Action)

  const EMPTY := World([], map[], {})

  // -- keys -----------------------------------------------------------------------------------

  predicate Hex(c: char) { '0' <= c <= '9' || 'a' <= c <= 'f' }

  /** The shape of the policy's keys: the prefix, a dash and a digest in lower-case hex. */
  predicate ObjectKey(prefix: string, k: Key) {
    |k| == |prefix| + 65 && prefix + "-" <= k && forall i | |prefix| < i < |k| :: Hex(k[i])
  }

  predicate KindKey(prefix: string, kind: string, k: Key) {
    prefix + "-" + kind + "-" <= k
  }

  lemma PrefixAt(a: string, k: string, i: nat)
    requires a <= k && i < |a|
    ensures k[i] == a[i]
  {
  }

  /** Objects, manifests and packs under one prefix can never be taken for one another. */
  lemma KindsApart(prefix: string, k: Key)
    ensures ObjectKey(prefix, k) ==> !KindKey(prefix, "index", k) && !KindKey(prefix, "pack", k)
    ensures !(KindKey(prefix, "index", k) && KindKey(prefix, "pack", k))
  {
    var n := |prefix| + 1;
    if KindKey(prefix, "index", k) {
      assert (prefix + "-" + "index" + "-")[n] == 'i';
      PrefixAt(prefix + "-" + "index" + "-", k, n);
    }
    if KindKey(prefix, "pack", k) {
      assert (prefix + "-" + "pack" + "-")[n] == 'p';
      PrefixAt(prefix + "-" + "pack" + "-", k, n);
    }
  }

  lemma ScopedIsKind(cfg: Config, kind: string, k: Key)
    requires ScopedPrefix(cfg.prefix, cfg.scope, kind) <= k
    ensures KindKey(cfg.prefix, kind, k)
  {
    var a, b := cfg.prefix + "-" + kind + "-", cfg.scope + "-";
    assert ScopedPrefix(cfg.prefix, cfg.scope, kind) == a + b;
  }

  /** The name of a save, spelled out. */
  function Spelled(cfg: Config, kind: string, stamp: Stamp): Key {
    cfg.prefix + "-" + kind + "-" + cfg.scope + "-" + Ascii.Print(stamp.secs) + "-" + stamp.run
  }

  /** Every save of a kind goes under the prefix, the kind, the scope, the second and the run, in this
      order with dashes between; so two saves of a run's scope have the same name exactly when they are
      of the same second and the same run's number. */
  lemma SavesAreNamed(cfg: Config, kind: string, one: Stamp, two: Stamp)
    ensures Named(cfg, kind, one) == Spelled(cfg, kind, one)
    ensures Named(cfg, kind, one) == Named(cfg, kind, two) <==> one == two
  {
    var p := ScopedPrefix(cfg.prefix, cfg.scope, kind);
    var x, y := Ascii.Print(one.secs) + "-" + one.run, Ascii.Print(two.secs) + "-" + two.run;
    assert Named(cfg, kind, one) == p + x && Named(cfg, kind, two) == p + y;
    if p + x == p + y {
      assert (p + x)[|p|..] == x && (p + y)[|p|..] == y;
      StampsApart(one, two);
    }
  }

  lemma StampsApart(one: Stamp, two: Stamp)
    requires Ascii.Print(one.secs) + "-" + one.run == Ascii.Print(two.secs) + "-" + two.run
    ensures one == two
  {
    var a, b := Ascii.Print(one.secs), Ascii.Print(two.secs);
    assert '-' !in a && '-' !in b;
    Text.IndexOfJoint(a, '-', one.run);
    Text.IndexOfJoint(b, '-', two.run);
    assert a == (a + "-" + one.run)[..|a|] && b == (b + "-" + two.run)[..|b|];
    assert one.run == (a + "-" + one.run)[|a| + 1..] && two.run == (b + "-" + two.run)[|b| + 1..];
    Ascii.PrintRoundTrip(one.secs);
    Ascii.PrintRoundTrip(two.secs);
  }

  // -- what the service may say ---------------------------------------------------------------

  /** A looked-up object is an entry under exactly that key. */
  predicate OffersObject(service: seq<Msg>, k: Key, f: Fetched) {
    f.Found? ==> Msg(k, f.bytes) in service
  }

  /** A looked-up manifest or pack is some entry under the scope's prefix; which one is left open,
      so eviction and branch visibility are covered. */
  predicate OffersScoped(service: seq<Msg>, cfg: Config, kind: string, f: Fetched) {
    f.Found? ==> exists m | m in service :: m.bytes == f.bytes && ScopedPrefix(cfg.prefix, cfg.scope, kind) <= m.key
  }

  /** Entries are immutable: a key is given away, by a reservation or to an entry, only while the
      service has none under it. */
  predicate Free(service: seq<Msg>, claim: Option<Key>) {
    match claim case Some(k) => !Holds(service, k) case None => true
  }

  ghost predicate Plausible(service: seq<Msg>, j: Job, a: Action)
    requires Enabled(j, a)
  {
    Free(service, Claim(j, a))
    && match a
    case LoadIndex(reply) => OffersScoped(service, j.cfg, "index", FetchNow(j, reply))
    case LoadPack(reply, _) => OffersScoped(service, j.cfg, "pack", FetchNow(j, reply))
    case Handle(id, Hear(reply)) => OffersObject(service, j.handlers[id].key, AfterFetch(reply))
    case StartPut(_, msg) =>
      ObjectKey(j.cfg.prefix, msg.key) && Pack.Narrow(Pack.Object(msg.key, msg.bytes))
    case StartGet(_, key) => ObjectKey(j.cfg.prefix, key)
    case _ => true
  }

  ghost predicate Possible(prefix: string, w: World, e: Event) {
    match e
    case Launch(id, cfg) => id !in w.jobs && cfg.prefix == prefix
    case Step(id, a) => id in w.jobs && Enabled(w.jobs[id], a) && Plausible(w.service, w.jobs[id], a)
  }

  function After(prefix: string, w: World, e: Event): World
    requires Possible(prefix, w, e)
  {
    match e
    case Launch(id, cfg) => w.(jobs := w.jobs[id := Fresh(cfg)])
    case Step(id, a) =>
      var j := w.jobs[id];
      World(w.service + (match Landed(j, a) case Some(m) => [m] case None => []),
            w.jobs[id := Next(j, a)],
            if a.StartPut? then w.puts + {a.msg} else w.puts)
  }

  ghost function History(prefix: string, events: seq<Event>): Option<World> {
    if events == [] then Some(EMPTY)
    else
      match History(prefix, events[..|events| - 1])
      case None => None
      case Some(w) =>
        var e := events[|events| - 1];
        if Possible(prefix, w, e) then Some(After(prefix, w, e)) else None
  }

  // -- immutability ---------------------------------------------------------------------------

  /** No two entries share a key. */
  predicate Single(service: seq<Msg>) {
    forall i, k | 0 <= i < k < |service| :: service[i].key != service[k].key
  }

  lemma LandedIsClaimed(j: Job, a: Action)
    requires Enabled(j, a) && Landed(j, a).Some?
    ensures Claim(j, a) == Some(Landed(j, a).value.key)
  {
  }

  lemma SingleAfter(prefix: string, w: World, e: Event)
    requires Single(w.service) && Possible(prefix, w, e)
    ensures Single(After(prefix, w, e).service) && w.service <= After(prefix, w, e).service
  {
    if e.Step? {
      var j := w.jobs[e.id];
      if Landed(j, e.action).Some? {
        LandedIsClaimed(j, e.action);
      }
    }
    hide Enabled, Landed, Next;
  }

  lemma {:induction false} AlwaysSingle(prefix: string, events: seq<Event>, w: World)
    requires History(prefix, events) == Some(w)
    ensures Single(w.service)
    decreases |events|
  {
    if events != [] {
      hide Possible, After, Single;
      var before := History(prefix, events[..|events| - 1]).value;
      AlwaysSingle(prefix, events[..|events| - 1], before);
      SingleAfter(prefix, before, events[|events| - 1]);
    }
  }

  /** Whatever the runs do, in whatever order, the service never has two entries under one key, and
      what it has it keeps: a key once taken stands for the same bytes for good. */
  lemma {:induction false} OneEntryPerKey(prefix: string, events: seq<Event>, w: World, more: seq<Event>, later: World)
    requires History(prefix, events) == Some(w) && History(prefix, events + more) == Some(later)
    ensures Single(later.service) && w.service <= later.service
    ensures forall m, other | m in w.service && other in later.service :: m.key == other.key ==> m == other
    decreases |more|
  {
    AlwaysSingle(prefix, events + more, later);
    if more == [] {
      assert events + more == events;
    } else {
      hide Possible, After, Single;
      var early := more[..|more| - 1];
      assert (events + more)[..|events + more| - 1] == events + early;
      var before := History(prefix, events + early).value;
      OneEntryPerKey(prefix, events, w, early, before);
      AlwaysSingle(prefix, events + early, before);
      SingleAfter(prefix, before, (events + more)[|events + more| - 1]);
    }
    SameKeySameEntry(w.service, later.service);
  }

  lemma SameKeySameEntry(some: seq<Msg>, all: seq<Msg>)
    requires some <= all && Single(all)
    ensures forall m, other | m in some && other in all :: m.key == other.key ==> m == other
  {
    forall m, other | m in some && other in all && m.key == other.key ensures m == other {
      var i :| 0 <= i < |some| && some[i] == m;
      var k :| 0 <= k < |all| && all[k] == other;
      assert all[i] == m;
      assert !(i < k) && !(k < i);
    }
  }

  // -- provenance -----------------------------------------------------------------------------

  predicate AllPut(objects: seq<Pack.Object>, puts: set<Msg>) {
    forall o | o in objects :: Msg(o.key, o.body) in puts
  }

  /** Every key-body pair a handler carries was put under that key by some run. */
  predicate HandlerGenuine(h: Handler, puts: set<Msg>) {
    match h
    case PutWriting(msg) => msg in puts
    case PutFiling(msg) => msg in puts
    case PutSending(msg) => msg in puts
    case GetSaving(msg) => msg in puts
    case _ => true
  }

  predicate HandlerKeyed(h: Handler, prefix: string) {
    match h
    case GetReading(key) => ObjectKey(prefix, key)
    case GetListing(key) => ObjectKey(prefix, key)
    case GetRecalling(key) => ObjectKey(prefix, key)
    case GetChecking(key) => ObjectKey(prefix, key)
    case GetAsking(key) => ObjectKey(prefix, key)
    case _ => true
  }

  predicate PhaseGenuine(cfg: Config, phase: Phase, puts: set<Msg>) {
    match phase
    case SavingIndex(_, name, _) => ScopedPrefix(cfg.prefix, cfg.scope, "index") <= name
    case Packing(_, got) => AllPut(got, puts)
    case SavingPack(got, name, _) => AllPut(got, puts) && ScopedPrefix(cfg.prefix, cfg.scope, "pack") <= name
    case _ => true
  }

  predicate DiskGenuine(disk: map<Key, Bytes>, puts: set<Msg>) {
    forall k | k in disk :: Msg(k, disk[k]) in puts
  }

  ghost predicate Genuine(j: Job, puts: set<Msg>) {
    && DiskGenuine(j.core.disk, puts)
    && (forall m | m in j.core.channel :: m in puts)
    && (j.up.Holding? ==> j.up.msg in puts)
    && (forall id | id in j.tasks :: j.tasks[id].msg in puts)
    && (forall id | id in j.handlers :: HandlerGenuine(j.handlers[id], puts) && HandlerKeyed(j.handlers[id], j.cfg.prefix))
    && PhaseGenuine(j.cfg, j.phase, puts)
  }

  predicate EntryGenuine(prefix: string, m: Msg, puts: set<Msg>) {
    || m in puts
    || KindKey(prefix, "index", m.key)
    || (KindKey(prefix, "pack", m.key)
        && match Pack.Decoded(m.bytes) case Some(objects) => AllPut(objects, puts) case None => true)
  }

  predicate PutsGenuine(prefix: string, puts: set<Msg>) {
    forall m | m in puts :: ObjectKey(prefix, m.key) && Pack.Narrow(Pack.Object(m.key, m.bytes))
  }

  ghost predicate Sound(prefix: string, w: World) {
    && PutsGenuine(prefix, w.puts)
    && (forall m | m in w.service :: EntryGenuine(prefix, m, w.puts))
    && (forall id | id in w.jobs :: w.jobs[id].cfg.prefix == prefix && Genuine(w.jobs[id], w.puts))
  }

  lemma {:induction false} UnpackGenuine(c: Core, objects: seq<Pack.Object>, wrote: seq<bool>, puts: set<Msg>)
    requires |wrote| == |objects| && AllPut(objects, puts) && DiskGenuine(c.disk, puts)
    ensures DiskGenuine(Unpack(c, objects, wrote).disk, puts)
    decreases |objects|
  {
    if objects != [] {
      var o := objects[0];
      var next := if wrote[0] then c.(disk := c.disk[o.key := o.body], packed := c.packed + {o.key}) else c;
      assert DiskGenuine(next.disk, puts);
      UnpackGenuine(next, objects[1..], wrote[1..], puts);
    }
  }

  /** A pack built from genuine objects unpacks to genuine objects, whatever the ceiling dropped. */
  lemma PackGenuine(prefix: string, objects: seq<Pack.Object>, max: nat, puts: set<Msg>)
    requires PutsGenuine(prefix, puts) && AllPut(objects, puts)
    ensures match Pack.Decoded(Pack.Encoded(objects, max))
      case Some(kept) => AllPut(kept, puts) case None => true
  {
    hide Pack.Decoded, Pack.Encoded, Pack.Narrow;
    var kept := Pack.Kept(objects, |Pack.MAGIC|, max);
    Pack.KeptOrSkipped(objects, |Pack.MAGIC|, max);
    forall o | o in kept ensures Msg(o.key, o.body) in puts && Pack.Narrow(o) {
      assert o in multiset(kept) && o in multiset(objects);
      assert o in objects;
      assert Pack.Object(o.key, o.body) == o;
    }
    Pack.RoundTrip(objects, max);
  }

  /** A lookup under the pack prefix can only have found a pack. */
  lemma FoundPack(prefix: string, w: World, j: Job, reply: Reply<Offer>)
    requires Sound(prefix, w) && j.cfg.prefix == prefix
    requires OffersScoped(w.service, j.cfg, "pack", FetchNow(j, reply))
    ensures AllPut(PackObjects(j, reply), w.puts)
  {
    if FetchNow(j, reply).Found? {
      var m :| m in w.service && m.bytes == FetchNow(j, reply).bytes
               && ScopedPrefix(j.cfg.prefix, j.cfg.scope, "pack") <= m.key;
      assert EntryGenuine(prefix, m, w.puts);
      KindsApart(prefix, m.key);
      ScopedIsKind(j.cfg, "pack", m.key);
    }
  }

  /** A lookup of an object can only have found that object. */
  lemma FoundObject(prefix: string, w: World, k: Key, f: Fetched)
    requires Sound(prefix, w) && ObjectKey(prefix, k) && OffersObject(w.service, k, f) && f.Found?
    ensures Msg(k, f.bytes) in w.puts
  {
    assert EntryGenuine(prefix, Msg(k, f.bytes), w.puts);
    KindsApart(prefix, k);
  }

  /** One handler's step, with the lookup's answer already known to be genuine. */
  lemma HandlerStaysGenuine(cfg: Config, c: Core, h: Handler, e: HandlerEvent, puts: set<Msg>)
    requires HandlerWaits(h, e) && HandlerGenuine(h, puts) && HandlerKeyed(h, cfg.prefix)
    requires DiskGenuine(c.disk, puts) && (forall m | m in c.channel :: m in puts)
    requires h.GetAsking? && AfterFetch(e.reply).Found? ==> Msg(h.key, AfterFetch(e.reply).bytes) in puts
    ensures DiskGenuine(HandlerCore(cfg, c, h, e).disk, puts)
    ensures forall m | m in HandlerCore(cfg, c, h, e).channel :: m in puts
    ensures match HandlerNext(cfg, c, h, e)
      case Some(h') => HandlerGenuine(h', puts) && HandlerKeyed(h', cfg.prefix) case None => true
  {
    hide ObjectKey, AfterFetch;
  }

  lemma GenuineHandle(prefix: string, w: World, j: Job, id: nat, e: HandlerEvent)
    requires Sound(prefix, w) && Genuine(j, w.puts) && j.cfg.prefix == prefix
    requires Enabled(j, Handle(id, e)) && Plausible(w.service, j, Handle(id, e))
    ensures Genuine(Next(j, Handle(id, e)), w.puts)
  {
    var h := j.handlers[id];
    assert HandlerGenuine(h, w.puts) && HandlerKeyed(h, prefix);
    if h.GetAsking? && AfterFetch(e.reply).Found? {
      FoundObject(prefix, w, h.key, AfterFetch(e.reply));
    }
    HandlerStaysGenuine(j.cfg, j.core, h, e, w.puts);
    HandleOnly(j, id, e);
    hide Sound, ObjectKey, ScopedPrefix, Next, HandlerCore, HandlerNext, DiskGenuine, HandlerGenuine, HandlerKeyed;
  }

  lemma GenuineFlush(j: Job, e: FlushEvent, puts: set<Msg>)
    requires Genuine(j, puts) && Enabled(j, Flush(e))
    ensures Genuine(Next(j, Flush(e)), puts)
  {
    hide FlushCounters, ObjectKey, ScopedPrefix;
  }

  lemma GenuineUpload(j: Job, id: nat, e: TaskEvent, puts: set<Msg>)
    requires Genuine(j, puts) && Enabled(j, Upload(id, e))
    ensures Genuine(Next(j, Upload(id, e)), puts)
  {
    hide TaskCounters, TaskCore, TaskNext;
  }

  lemma GenuineStart(j: Job, a: Action, puts: set<Msg>)
    requires Genuine(j, puts) && Enabled(j, a) && (a.StartPut? || a.StartGet?)
    requires a.StartPut? ==> a.msg in puts
    requires a.StartGet? ==> ObjectKey(j.cfg.prefix, a.key)
    ensures Genuine(Next(j, a), puts)
  {
    hide ObjectKey, ScopedPrefix, PhaseGenuine;
  }

  lemma GenuineQueue(j: Job, a: Action, puts: set<Msg>)
    requires Genuine(j, puts) && Enabled(j, a) && (a.Receive? || a.Spawn? || a.HangUp? || a.Join? || a.LoadIndex?)
    ensures Genuine(Next(j, a), puts)
  {
    hide ObjectKey, ScopedPrefix, IndexRead;
  }

  lemma GenuineUnpack(prefix: string, w: World, j: Job, a: Action)
    requires Sound(prefix, w) && Genuine(j, w.puts) && j.cfg.prefix == prefix
    requires a.LoadPack? && Enabled(j, a) && Plausible(w.service, j, a)
    ensures Genuine(Next(j, a), w.puts)
  {
    FoundPack(prefix, w, j, a.reply);
    UnpackGenuine(Latch(j.core, CallsNow(j) && a.reply.Limited?), PackObjects(j, a.reply), a.wrote, w.puts);
    hide Sound, ObjectKey, ScopedPrefix;
  }

  lemma GenuineStep(prefix: string, w: World, j: Job, a: Action)
    requires Sound(prefix, w) && Genuine(j, w.puts) && j.cfg.prefix == prefix
    requires Enabled(j, a) && Plausible(w.service, j, a)
    ensures Genuine(Next(j, a), if a.StartPut? then w.puts + {a.msg} else w.puts)
  {
    if a.StartPut? {
      GenuineGrows(j, w.puts, w.puts + {a.msg});
      GenuineStart(j, a, w.puts + {a.msg});
    } else if a.StartGet? {
      GenuineStart(j, a, w.puts);
    } else if a.LoadPack? {
      GenuineUnpack(prefix, w, j, a);
    } else if a.Handle? {
      GenuineHandle(prefix, w, j, a.id, a.event);
    } else if a.Flush? {
      GenuineFlush(j, a.step, w.puts);
    } else if a.Upload? {
      GenuineUpload(j, a.id, a.what, w.puts);
    } else {
      GenuineQueue(j, a, w.puts);
    }
  }

  lemma GenuineGrows(j: Job, puts: set<Msg>, more: set<Msg>)
    requires Genuine(j, puts) && puts <= more
    ensures Genuine(j, more)
  {
    hide ObjectKey, ScopedPrefix;
  }

  /** Whatever lands is a put object, a manifest, or a pack of put objects. */
  lemma LandedGenuine(prefix: string, w: World, j: Job, a: Action)
    requires Sound(prefix, w) && Genuine(j, w.puts) && j.cfg.prefix == prefix
    requires Enabled(j, a) && Landed(j, a).Some?
    ensures EntryGenuine(prefix, Landed(j, a).value, w.puts)
  {
    if a.Flush? {
      if j.phase.SavingIndex? {
        ScopedIsKind(j.cfg, "index", j.phase.name);
      } else {
        ScopedIsKind(j.cfg, "pack", j.phase.name);
        PackGenuine(prefix, j.phase.got, j.cfg.packLimit, w.puts);
      }
    }
  }

  /** Soundness of a world in which one run moved, from soundness of the pieces. */
  lemma SoundWith(prefix: string, w: World, id: nat, j': Job, landed: seq<Msg>, puts: set<Msg>)
    requires Sound(prefix, w) && w.puts <= puts && PutsGenuine(prefix, puts)
    requires j'.cfg.prefix == prefix && Genuine(j', puts)
    requires forall m | m in landed :: EntryGenuine(prefix, m, w.puts)
    ensures Sound(prefix, World(w.service + landed, w.jobs[id := j'], puts))
  {
    hide Genuine, EntryGenuine, ObjectKey;
    var jobs := w.jobs[id := j'];
    forall other | other in jobs ensures Genuine(jobs[other], puts) {
      if other != id {
        GenuineGrows(w.jobs[other], w.puts, puts);
      }
    }
    forall m | m in w.service + landed ensures EntryGenuine(prefix, m, puts) {
      EntryGrows(prefix, m, w.puts, puts);
    }
  }

  lemma SoundStep(prefix: string, w: World, id: nat, a: Action)
    requires Sound(prefix, w) && Possible(prefix, w, Step(id, a))
    ensures Sound(prefix, After(prefix, w, Step(id, a)))
  {
    hide Move, Note, SaveBody, Pack.Narrow, ObjectKey, FetchNow, AfterFetch;
    var j := w.jobs[id];
    var w' := After(prefix, w, Step(id, a));
    var landed := match Landed(j, a) case Some(m) => [m] case None => [];
    GenuineStep(prefix, w, j, a);
    if Landed(j, a).Some? {
      LandedGenuine(prefix, w, j, a);
    }
    SameConfig(j, a);
    assert PutsGenuine(prefix, w'.puts);
    hide Genuine, EntryGenuine, Landed, Next, Enabled, Sound;
    SoundWith(prefix, w, id, Next(j, a), landed, w'.puts);
  }

  lemma SoundAfter(prefix: string, w: World, e: Event)
    requires Sound(prefix, w) && Possible(prefix, w, e)
    ensures Sound(prefix, After(prefix, w, e))
  {
    match e
    case Launch(id, cfg) =>
      SoundWith(prefix, w, id, Fresh(cfg), [], w.puts);
      assert w.service + [] == w.service;
    case Step(id, a) => SoundStep(prefix, w, id, a);
  }

  lemma SameConfig(j: Job, a: Action)
    requires Enabled(j, a)
    ensures Next(j, a).cfg == j.cfg
  {
  }

  lemma EntryGrows(prefix: string, m: Msg, puts: set<Msg>, more: set<Msg>)
    requires EntryGenuine(prefix, m, puts) && puts <= more
    ensures EntryGenuine(prefix, m, more)
  {
    hide KindKey, Pack.Decoded;
  }

  lemma {:induction false} SoundAlways(prefix: string, events: seq<Event>, w: World)
    requires History(prefix, events) == Some(w)
    ensures Sound(prefix, w)
    decreases |events|
  {
    if events != [] {
      hide Sound, Possible, After;
      var before := History(prefix, events[..|events| - 1]).value;
      SoundAlways(prefix, events[..|events| - 1], before);
      SoundAfter(prefix, before, events[|events| - 1]);
    }
  }

  /** Across all runs, however they overlap and whatever the service evicts or hides: the bytes a
      lookup of k returns are bytes some run was given to store under k. */
  lemma Provenance(prefix: string, events: seq<Event>, w: World, id: nat, a: Action, k: Key, bytes: Bytes)
    requires History(prefix, events) == Some(w) && Possible(prefix, w, Step(id, a))
    requires Answer(w.jobs[id], a) == Some((k, Some(bytes)))
    ensures Msg(k, bytes) in w.puts
  {
    SoundAlways(prefix, events, w);
    assert Genuine(w.jobs[id], w.puts);
    assert a.id in w.jobs[id].handlers;
  }

  /** And the other way: what a run was given to store was really handed to it, as a step of the
      history. */
  lemma {:induction false} PutsAreSteps(prefix: string, events: seq<Event>, w: World, m: Msg)
    requires History(prefix, events) == Some(w) && m in w.puts
    ensures exists i | 0 <= i < |events| :: events[i].Step? && events[i].action.StartPut? && events[i].action.msg == m
    decreases |events|
  {
    if events != [] {
      var e, earlier := events[|events| - 1], events[..|events| - 1];
      var before := History(prefix, earlier).value;
      if m in before.puts {
        PutsAreSteps(prefix, earlier, before, m);
        var i :| 0 <= i < |earlier| && earlier[i].Step? && earlier[i].action.StartPut? && earlier[i].action.msg == m;
        assert events[i] == earlier[i];
      } else {
        assert events[|events| - 1] == e;
      }
    }
  }
}
