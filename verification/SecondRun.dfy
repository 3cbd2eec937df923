/** What one run stores, the next run of the same scope finds. */
module SecondRun {
  import opened Base
  import opened Gha
  import opened Job
  import opened Session
  import opened History
  import opened Holdings
  import Drain
  import Manifest
  import Pack
  import Teardown
  import Traffic
  import Uploads
  import World

  // -- well-behaved runs ----------------------------------------------------------------------

  function PackPrefix(cfg: Config): Key { ScopedPrefix(cfg.prefix, cfg.scope, "pack") }

  predicate Putting(h: Handler) { h.PutWriting? || h.PutFiling? || h.PutFlagging? || h.PutSending? }

  /** Start-up lookups succeed and give the newest entry, the disk works, only `puts` are put or were
      ever put by anybody, and no other writer files a manifest or a pack under this scope. */
  ghost predicate Honest(puts: set<Msg>, s: Scene, b: Beat)
    requires Can(s, b)
  {
    match b
    case Ours(a) =>
      && World.Plausible(s.service, s.job, a)
      && (a.StartPut? ==> a.msg in puts)
      && (a.LoadIndex? ==> TruthfulScoped(s.service, s.job.cfg, "index", a.reply))
      && (a.LoadPack? ==> TruthfulScoped(s.service, s.job.cfg, "pack", a.reply) && forall w | w in a.wrote :: w)
      && (a.Handle? && a.event.Io? ==> a.event.ok)
    case Theirs(m) =>
      World.EntryGenuine(s.job.cfg.prefix, m, puts) && !(IndexPrefix(s.job.cfg) <= m.key) && !(PackPrefix(s.job.cfg) <= m.key)
  }

  /** No entry of the kind and the scope carries this stamp. */
  ghost predicate NewStamp(s: Scene, kind: string, stamp: Stamp) {
    forall other: Stamp :: Holds(s.service, World.Spelled(s.job.cfg, kind, other)) ==> other != stamp
  }

  /** The service goes along with a save: the latch is open, what it has nothing under it grants and
      confirms, and the upload goes through. */
  predicate Obliging(s: Scene, e: PutEvent)
    requires s.job.phase.SavingIndex? || s.job.phase.SavingPack?
  {
    match e
    case Check => !s.job.core.exhausted
    case Create(grant) => World.Free(s.service, Some(s.job.phase.name)) ==> Granted(grant)
    case Blob(accepted) => accepted
    case Finalize(done, _) => World.Free(s.service, Some(s.job.phase.name)) ==> done == Replied(true)
  }

  /** Puts run to completion before the queue closes; the saves are made under stamps no earlier save
      had, and the service goes along with them; the pack fits. */
  ghost predicate Tidy(s: Scene, a: Action)
    requires Enabled(s.job, a)
  {
    && (a.StartPut? ==> s.job.phase.Serving?)
    && (a == Flush(CloseQueue) ==> forall id | id in s.job.handlers :: !Putting(s.job.handlers[id]))
    && (a.Flush? && a.step.ReadNext? ==> a.step.ok)
    && (a.Flush? && a.step.QueueDrained? ==> NewStamp(s, "index", a.step.stamp))
    && (a.Flush? && a.step.Ship? ==>
          NewStamp(s, "pack", a.step.stamp) && |Pack.MAGIC| + Pack.Total(s.job.phase.got) <= s.job.cfg.packLimit)
    && (a.Flush? && a.step.Save? ==> Obliging(s, a.step.e))
  }

  /** A lookup of an object the service holds succeeds. */
  ghost predicate Answering(s: Scene, a: Action)
    requires Enabled(s.job, a)
  {
    a.Handle? && a.event.Hear? ==>
      a.event.reply.Replied? && (Holds(s.service, s.job.handlers[a.id].key) ==> AfterFetch(a.event.reply).Found?)
  }

  datatype Role = Storing | Finding

  ghost predicate Smooth(role: Role, puts: set<Msg>, s: Scene, b: Beat) {
    Can(s, b) && Honest(puts, s, b) && (b.Ours? ==> if role.Storing? then Tidy(s, b.action) else Answering(s, b.action))
  }

  ghost predicate Throughout(role: Role, puts: set<Msg>, s: Scene, beats: seq<Beat>) {
    beats == [] ||
    (Throughout(role, puts, s, beats[..|beats| - 1])
     && match Play(s, beats[..|beats| - 1])
        case Some(m) => Smooth(role, puts, m, beats[|beats| - 1])
        case None => false)
  }

  // -- provenance, for a scene ----------------------------------------------------------------

  ghost predicate Backed(s: Scene, puts: set<Msg>) {
    World.Sound(s.job.cfg.prefix, World.World(s.service, map[0 := s.job], puts))
  }

  lemma BackedOurs(puts: set<Msg>, s: Scene, a: Action)
    requires Backed(s, puts) && Can(s, Ours(a)) && Honest(puts, s, Ours(a))
    ensures Backed(Then(s, Ours(a)), puts)
  {
    hide World.Sound, Next, Landed, Enabled, World.Plausible, TruthfulScoped;
    var prefix, w := s.job.cfg.prefix, World.World(s.service, map[0 := s.job], puts);
    World.SoundAfter(prefix, w, World.Step(0, a));
    World.SameConfig(s.job, a);
    assert w.jobs[0 := Next(s.job, a)] == map[0 := Next(s.job, a)];
    assert a.StartPut? ==> puts + {a.msg} == puts;
  }

  lemma BackedTheirs(puts: set<Msg>, s: Scene, m: Msg)
    requires Backed(s, puts) && Can(s, Theirs(m)) && Honest(puts, s, Theirs(m))
    ensures Backed(Then(s, Theirs(m)), puts)
  {
    var prefix, w := s.job.cfg.prefix, World.World(s.service, map[0 := s.job], puts);
    hide World.Genuine, World.PutsGenuine, World.EntryGenuine;
    assert World.Genuine(w.jobs[0], puts) && World.PutsGenuine(prefix, puts);
    World.SoundWith(prefix, w, 0, s.job, [m], puts);
    assert w.jobs[0 := s.job] == w.jobs;
  }

  lemma BackedStep(puts: set<Msg>, s: Scene, b: Beat)
    requires Backed(s, puts) && Can(s, b) && Honest(puts, s, b)
    ensures Backed(Then(s, b), puts)
  {
    match b
    case Ours(a) => BackedOurs(puts, s, a);
    case Theirs(m) => BackedTheirs(puts, s, m);
  }

  lemma BackedAtFirst(cfg: Config, service: seq<Msg>, puts: set<Msg>)
    requires World.Sound(cfg.prefix, World.World(service, map[], puts))
    ensures Backed(Scene(service, Fresh(cfg)), puts)
  {
    hide World.EntryGenuine, World.PutsGenuine;
    assert World.Genuine(Fresh(cfg), puts);
  }

  // -- the storing run ------------------------------------------------------------------------

  predicate Closing(j: Job) { j.phase.Draining? || Uploads.TornDown(j) }

  ghost predicate Calm(j: Job) {
    Closing(j) ==> forall id | id in j.handlers :: !Putting(j.handlers[id])
  }

  /** Every accepted put is on its way, sent or packed; what is packed is on disk. */
  ghost predicate Filed(j: Job) {
    && (forall k | k in j.core.queued ::
          k in j.core.packed || (exists m | m in j.log.sent :: m.key == k)
          || exists id | id in j.handlers :: Uploads.Carrying(j.handlers[id]) && j.handlers[id].msg.key == k)
    && j.core.packed <= j.core.disk.Keys
    && (forall id | id in j.handlers && j.handlers[id].PutFiling? :: j.handlers[id].msg.key in j.core.disk)
  }

  predicate HasKey(objects: seq<Pack.Object>, k: Key) { exists o | o in objects :: o.key == k }

  /** The newest pack of a scope holds an object under k. */
  predicate PackHas(service: seq<Msg>, prefix: Key, k: Key) {
    match Newest(service, prefix)
    case Some(m) => (match Pack.Decoded(m.bytes) case Some(objects) => HasKey(objects, k) case None => false)
    case None => false
  }

  ghost predicate Flagger(j: Job, id: nat) { id in j.handlers && j.handlers[id].PutFlagging? }

  /** Where the pack is between the disk and the service, for a packed key. */
  ghost predicate PackAt(s: Scene, k: Key) {
    var j, held := s.job, PackHas(s.service, PackPrefix(s.job.cfg), k);
    match j.phase
    case Starting => false
    case Unpacking => false
    case Packing(todo, got) => k in todo || HasKey(got, k)
    case SavingPack(got, name, put) =>
      HasKey(got, k) && |Pack.MAGIC| + Pack.Total(got) <= j.cfg.packLimit && (put == Back(Stored) ==> held)
    case Finished => held
    case _ => held || j.core.packDirty || exists id :: Flagger(j, id)
  }

  ghost predicate PackExact(s: Scene) { forall k | k in s.job.core.packed :: PackAt(s, k) }

  /** The newest manifest is the one loaded until this run's own replaces it. */
  ghost predicate IndexAt(s: Scene, first: set<Key>) {
    var j, now := s.job, ManifestOf(s.service, IndexPrefix(s.job.cfg));
    match j.phase
    case Starting => !j.core.exhausted && now == first
    case Unpacking => !j.core.exhausted && now == first && j.log.loaded == first
    case Serving => now == first && j.log.loaded == first
    case Draining => now == first && j.log.loaded == first
    case SavingIndex(_, _, put) => j.log.loaded == first && (put == Back(Stored) ==> now == j.core.index)
    case _ => j.log.loaded == first && now == j.core.index
  }

  // -- its steps ------------------------------------------------------------------------------

  lemma CalmStep(puts: set<Msg>, s: Scene, a: Action)
    requires Smooth(Storing, puts, s, Ours(a)) && Calm(s.job)
    ensures Calm(Next(s.job, a))
  {
    hide Honest, HandlerCore, FlushCore, FlushCounters, IndexRead, PackRead, TaskNext, TaskCore;
    var j, j' := s.job, Next(s.job, a);
    if Closing(j') {
      assert Closing(j) || a == Flush(CloseQueue);
      assert forall id | id in j'.handlers && Putting(j'.handlers[id]) :: id in j.handlers && Putting(j.handlers[id]);
    }
  }

  /** What a handler's step leaves for the key it carried. */
  lemma FiledHandle(j: Job, id: nat, e: HandlerEvent)
    requires Enabled(j, Handle(id, e)) && Filed(j) && (e.Io? ==> e.ok)
    requires Uploads.Queue(j) && Calm(j)
    ensures Filed(Next(j, Handle(id, e)))
  {
    var j', h := Next(j, Handle(id, e)), j.handlers[id];
    HandleOnly(j, id, e);
    assert j'.log.sent == if h.PutSending? then j.log.sent + [h.msg] else j.log.sent;
    assert Uploads.Carrying(h) ==> j.core.open;
    FiledOne(j.cfg, j.core, h, e);
    hide Next, HandlerCore, HandlerNext, Uploads.Queue, Calm;
    forall k | k in j'.core.queued
      ensures k in j'.core.packed || (exists m | m in j'.log.sent :: m.key == k)
        || exists id' | id' in j'.handlers :: Uploads.Carrying(j'.handlers[id']) && j'.handlers[id'].msg.key == k
    {
      if m :| m in j.log.sent && m.key == k {
        assert m in j'.log.sent;
      } else if k !in j.core.packed {
        var other :| other in j.handlers && Uploads.Carrying(j.handlers[other]) && j.handlers[other].msg.key == k;
        if other != id {
          assert other in j'.handlers && j'.handlers[other] == j.handlers[other];
        } else if h.PutSending? {
          assert h.msg in j'.log.sent;
        } else if k !in j'.core.packed {
          assert id in j'.handlers && Uploads.Carrying(j'.handlers[id]) && j'.handlers[id].msg.key == k;
        }
      }
    }
  }

  lemma FiledOne(cfg: Config, c: Core, h: Handler, e: HandlerEvent)
    requires HandlerWaits(h, e) && (e.Io? ==> e.ok)
    requires c.packed <= c.disk.Keys && (h.PutFiling? ==> h.msg.key in c.disk)
    ensures var c' := HandlerCore(cfg, c, h, e);
      && c'.packed <= c'.disk.Keys
      && match HandlerNext(cfg, c, h, e) {
           case Some(h') => (h'.PutFiling? ==> h'.msg.key in c'.disk)
             && (Uploads.Carrying(h) && c.open && h.msg.key !in c'.packed ==> Uploads.Carrying(h') && h'.msg == h.msg)
           case None => Uploads.Carrying(h) && c.open && !h.PutSending? ==> h.msg.key in c'.packed }
  {
  }

  lemma {:induction false} UnpackKeys(c: Core, objects: seq<Pack.Object>, wrote: seq<bool>)
    requires |wrote| == |objects| && forall w | w in wrote :: w
    ensures var c' := Unpack(c, objects, wrote);
      && (forall o | o in objects :: o.key in c'.disk)
      && (forall k | k in c'.packed :: k in c.packed || HasKey(objects, k))
      && (c.packed <= c.disk.Keys ==> c'.packed <= c'.disk.Keys)
    decreases |objects|
  {
    if objects != [] {
      var o := objects[0];
      var next := c.(disk := c.disk[o.key := o.body], packed := c.packed + {o.key});
      assert wrote[0] in wrote && forall w | w in wrote[1..] :: w in wrote;
      assert Unpack(c, objects, wrote) == Unpack(next, objects[1..], wrote[1..]);
      UnpackKeys(next, objects[1..], wrote[1..]);
      assert o in objects;
    }
  }

  lemma FiledStep(puts: set<Msg>, s: Scene, a: Action)
    requires Smooth(Storing, puts, s, Ours(a)) && Filed(s.job) && Uploads.Queue(s.job) && Uploads.Early(s.job) && Calm(s.job)
    ensures Filed(Next(s.job, a))
  {
    if a.Handle? {
      FiledHandle(s.job, a.id, a.event);
    } else if a.LoadPack? {
      UnpackKeys(Latch(s.job.core, CallsNow(s.job) && a.reply.Limited?), PackObjects(s.job, a.reply), a.wrote);
    } else if a.StartPut? {
      FiledPut(s.job, a.id, a.msg);
    } else {
      FiledRest(s.job, a);
    }
  }

  lemma FiledPut(j: Job, id: nat, msg: Msg)
    requires Enabled(j, StartPut(id, msg)) && Filed(j)
    ensures Filed(Next(j, StartPut(id, msg)))
  {
    var j' := Next(j, StartPut(id, msg));
    if msg.key !in j.core.queued {
      assert id in j'.handlers && Uploads.Carrying(j'.handlers[id]) && j'.handlers[id].msg.key == msg.key;
      assert forall other | other in j.handlers :: other in j'.handlers && j'.handlers[other] == j.handlers[other];
    }
  }

  /** Other steps touch no field that filing is about, and start no put. */
  lemma FiledParts(j: Job, a: Action)
    requires Enabled(j, a) && !a.Handle? && !a.LoadPack? && !a.StartPut?
    ensures var j' := Next(j, a);
      && j'.core.queued == j.core.queued && j'.core.packed == j.core.packed && j'.core.disk == j.core.disk
      && j'.log.sent == j.log.sent
      && j'.handlers == if a.StartGet? then j.handlers[a.id := GetReading(a.key)] else j.handlers
  {
    hide HandlerCore, HandlerNext, FlushPhase, FlushCounters, TaskNext, TaskCounters, PackRead, IndexRead,
      FlushWaits, TaskWaits, HandlerWaits;
  }

  lemma FiledRest(j: Job, a: Action)
    requires Enabled(j, a) && Filed(j) && !a.Handle? && !a.LoadPack? && !a.StartPut?
    ensures Filed(Next(j, a))
  {
    FiledParts(j, a);
    var j' := Next(j, a);
    assert a.StartGet? ==> a.id !in j.handlers;
    hide Next, Enabled;
    assert forall id | id in j.handlers :: id in j'.handlers && j'.handlers[id] == j.handlers[id];
    assert forall id | id in j'.handlers && j'.handlers[id].PutFiling? :: id in j.handlers;
  }

  // -- the saves ------------------------------------------------------------------------------

  /** A save under way has a name the service has nothing under; one that is back was stored. */
  ghost predicate Unclaimed(s: Scene) {
    s.job.phase.SavingIndex? || s.job.phase.SavingPack? ==>
      if s.job.phase.put.Back? then s.job.phase.put == Back(Stored) else !Holds(s.service, s.job.phase.name)
  }

  lemma HoldsAppend(service: seq<Msg>, m: Msg, k: Key)
    ensures Holds(service + [m], k) <==> Holds(service, k) || m.key == k
  {
    if Holds(service, k) {
      var x :| x in service && x.key == k;
      assert x in service + [m];
    }
    assert m in service + [m];
  }

  /** While a run saves, nothing else of it lands. */
  lemma NothingElseLands(j: Job, a: Action)
    requires Known(j) && Enabled(j, a) && !a.Flush? && (j.phase.SavingIndex? || j.phase.SavingPack?)
    ensures Landed(j, a) == None
  {
    hide Teardown.Answered, Teardown.Saving, Keyed, HandlerWaits, TaskWaits;
  }

  lemma SamePhase(j: Job, a: Action)
    requires Enabled(j, a) && !a.Flush? && Live(j)
    ensures Next(j, a).phase == j.phase
  {
    hide HandlerCore, HandlerNext, TaskNext, TaskCore, TaskCounters, IndexRead, PackRead;
  }

  lemma UnclaimedRest(s: Scene, a: Action)
    requires Can(s, Ours(a)) && !a.Flush? && Live(s.job) && Known(s.job) && Unclaimed(s)
    ensures Unclaimed(Then(s, Ours(a)))
  {
    SamePhase(s.job, a);
    if s.job.phase.SavingIndex? || s.job.phase.SavingPack? {
      NothingElseLands(s.job, a);
      assert s.service + [] == s.service;
    }
    hide Known, Enabled, Next, Landed, Holds;
  }

  /** A new stamp makes a new name. */
  lemma NewName(s: Scene, kind: string, stamp: Stamp)
    requires NewStamp(s, kind, stamp)
    ensures !Holds(s.service, Named(s.job.cfg, kind, stamp))
  {
    World.SavesAreNamed(s.job.cfg, kind, stamp, stamp);
  }

  lemma UnclaimedFlush(s: Scene, e: FlushEvent)
    requires Can(s, Ours(Flush(e))) && Tidy(s, Flush(e)) && Unclaimed(s)
    ensures Unclaimed(Then(s, Ours(Flush(e))))
  {
    match e
    case QueueDrained(_, stamp) =>
      NewName(s, "index", stamp);
      assert s.service + [] == s.service;
    case Ship(stamp) =>
      NewName(s, "pack", stamp);
      assert s.service + [] == s.service;
    case Save(put) => UnclaimedSave(s, put);
    case _ => assert s.service + [] == s.service;
  }

  lemma UnclaimedSave(s: Scene, e: PutEvent)
    requires Can(s, Ours(Flush(Save(e)))) && Obliging(s, e) && Unclaimed(s)
    ensures Unclaimed(Then(s, Ours(Flush(Save(e)))))
  {
    hide Holds, SaveBody;
    assert s.service + [] == s.service;
    assert Next(s.job, Flush(Save(e))).phase == s.job.phase.(put := Advance(s.job.phase.put, s.job.core.exhausted, e));
  }

  lemma UnclaimedStep(puts: set<Msg>, s: Scene, a: Action)
    requires Smooth(Storing, puts, s, Ours(a)) && Known(s.job) && Unclaimed(s)
    ensures Unclaimed(Then(s, Ours(a)))
  {
    hide Honest, Known, Unclaimed, Tidy;
    if a.Flush? {
      UnclaimedFlush(s, a.step);
    } else if Live(s.job) {
      UnclaimedRest(s, a);
    } else {
      UnclaimedEarly(s, a);
    }
  }

  lemma UnclaimedEarly(s: Scene, a: Action)
    requires Can(s, Ours(a)) && !Live(s.job) && !a.Flush?
    ensures Unclaimed(Then(s, Ours(a)))
  {
    hide HandlerCore, HandlerNext, TaskNext, TaskCore, TaskCounters, IndexRead, PackRead;
  }

  lemma UnclaimedTheirs(puts: set<Msg>, s: Scene, m: Msg)
    requires Can(s, Theirs(m)) && Honest(puts, s, Theirs(m)) && Known(s.job) && Unclaimed(s)
    ensures Unclaimed(Then(s, Theirs(m)))
  {
    if s.job.phase.SavingIndex? || s.job.phase.SavingPack? {
      HoldsAppend(s.service, m, s.job.phase.name);
    }
    hide Holds, Uploads.Invariant, Teardown.Answered, Teardown.Saving, Keyed, World.EntryGenuine;
  }

  // -- the pack -------------------------------------------------------------------------------

  lemma HasKeyGrows(got: seq<Pack.Object>, o: Pack.Object, k: Key)
    ensures HasKey(got + [o], k) <==> HasKey(got, k) || o.key == k
  {
    if HasKey(got, k) {
      var x :| x in got && x.key == k;
      assert x in got + [o];
    }
    if o.key == k {
      assert o in got + [o];
    }
  }

  lemma PackHasAppend(service: seq<Msg>, m: Msg, prefix: Key, k: Key)
    ensures PackHas(service + [m], prefix, k) ==
      if prefix <= m.key then PackHas([m], prefix, k) else PackHas(service, prefix, k)
  {
    NewestAppend(service, m, prefix);
    NewestAppend([], m, prefix);
    assert [] + [m] == [m];
    hide Pack.Decoded, HasKey, Newest;
  }

  /** A pack that fits is read back whole. */
  lemma PackReadBack(prefix: string, puts: set<Msg>, got: seq<Pack.Object>, max: nat, name: Key, under: Key, k: Key)
    requires World.PutsGenuine(prefix, puts) && World.AllPut(got, puts)
    requires |Pack.MAGIC| + Pack.Total(got) <= max && under <= name && HasKey(got, k)
    ensures PackHas([Msg(name, Pack.Encoded(got, max))], under, k)
  {
    hide Pack.Decoded, Pack.Encoded, Pack.Narrow, Pack.Total, HasKey;
    Pack.KeepAll(got, |Pack.MAGIC|, max);
    forall o | o in got ensures Pack.Narrow(o) {
      assert Msg(o.key, o.body) in puts && Pack.Object(o.key, o.body) == o;
    }
    Pack.RoundTrip(got, max);
    NewestAppend([], Msg(name, Pack.Encoded(got, max)), under);
    assert [] + [Msg(name, Pack.Encoded(got, max))] == [Msg(name, Pack.Encoded(got, max))];
  }

  /** Only a pack save lands under the pack prefix. */
  lemma OnlyPacksLandThere(j: Job, a: Action)
    requires Known(j) && Enabled(j, a) && Landed(j, a).Some?
    ensures PackPrefix(j.cfg) <= Landed(j, a).value.key <==> a.Flush? && j.phase.SavingPack?
  {
    var k := Landed(j, a).value.key;
    World.KindsApart(j.cfg.prefix, k);
    if PackPrefix(j.cfg) <= k {
      World.ScopedIsKind(j.cfg, "pack", k);
    }
    if a.Upload? {
      assert j.tasks[a.id].msg in j.log.sent by {
        assert Uploads.Tasks(j);
        assert j.tasks[a.id].msg == j.log.sent[a.id];
      }
    } else if j.phase.SavingIndex? {
      World.ScopedIsKind(j.cfg, "index", k);
    }
  }

  /** The newest pack after a step that saves none. */
  lemma PackStays(s: Scene, a: Action, k: Key)
    requires Can(s, Ours(a)) && Known(s.job) && !(a.Flush? && s.job.phase.SavingPack?)
    ensures PackHas(Then(s, Ours(a)).service, PackPrefix(s.job.cfg), k) == PackHas(s.service, PackPrefix(s.job.cfg), k)
  {
    match Landed(s.job, a)
    case None => assert s.service + [] == s.service;
    case Some(m) =>
      OnlyPacksLandThere(s.job, a);
      PackHasAppend(s.service, m, PackPrefix(s.job.cfg), k);
  }

  /** A handler's step and the packed keys. */
  lemma PackedByHandle(j: Job, id: nat, e: HandlerEvent)
    requires Enabled(j, Handle(id, e)) && Calm(j)
    ensures var j', h := Next(j, Handle(id, e)), j.handlers[id];
      && j'.phase == j.phase && j'.cfg == j.cfg
      && (forall k | k in j'.core.packed && k !in j.core.packed :: Flagger(j', id) && !Closing(j))
      && (forall other | Flagger(j, other) :: Flagger(j', other) || j'.core.packDirty)
      && (j.core.packDirty ==> j'.core.packDirty)
  {
    HandleOnly(j, id, e);
  }

  lemma PackExactHandle(s: Scene, a: Action)
    requires Can(s, Ours(a)) && a.Handle? && Known(s.job) && PackExact(s) && Calm(s.job) && Live(s.job)
    ensures PackExact(Then(s, Ours(a)))
  {
    var j, s' := s.job, Then(s, Ours(a));
    PackedByHandle(j, a.id, a.event);
    hide Next, Enabled, Known, PackHas, Landed, Calm, Flagger;
    forall k | k in s'.job.core.packed ensures PackAt(s', k) {
      PackStays(s, a, k);
      if k in j.core.packed {
        assert PackAt(s, k);
      }
    }
  }

  lemma PackExactGather(s: Scene, e: FlushEvent, k: Key)
    requires Can(s, Ours(Flush(e))) && e.Gather? && PackAt(s, k) && k in s.job.core.packed && Calm(s.job)
    ensures PackAt(Then(s, Ours(Flush(e))), k)
  {
    assert forall id :: !Flagger(s.job, id);
    assert s.service + [] == s.service;
    if s.job.core.packDirty {
      assert k in set x | x in e.names;
    }
  }

  lemma PackExactRead(s: Scene, e: FlushEvent, k: Key)
    requires Can(s, Ours(Flush(e))) && e.ReadNext? && e.ok && PackAt(s, k)
    requires k in s.job.core.disk
    ensures PackAt(Then(s, Ours(Flush(e))), k)
  {
    hide Pack.Decoded, PackHas;
    var key := s.job.phase.todo[0];
    assert s.job.phase.todo == [key] + s.job.phase.todo[1..];
    if key in s.job.core.disk {
      HasKeyGrows(s.job.phase.got, Pack.Object(key, s.job.core.disk[key]), k);
    }
  }

  /** The pack's own save, up to and including the landing. */
  lemma PackExactSave(puts: set<Msg>, s: Scene, e: PutEvent, k: Key)
    requires Can(s, Ours(Flush(Save(e)))) && s.job.phase.SavingPack? && PackAt(s, k) && Backed(s, puts)
    ensures PackAt(Then(s, Ours(Flush(Save(e)))), k)
  {
    var j, s' := s.job, Then(s, Ours(Flush(Save(e))));
    assert World.PutsGenuine(j.cfg.prefix, puts) && World.PhaseGenuine(j.cfg, j.phase, puts) by {
      assert World.Genuine(map[0 := j][0], puts);
      hide World.PutsGenuine, World.PhaseGenuine, World.EntryGenuine;
    }
    assert s'.job.phase == SavingPack(j.phase.got, j.phase.name, Advance(j.phase.put, j.core.exhausted, e));
    assert PackPrefix(j.cfg) <= j.phase.name && World.AllPut(j.phase.got, puts);
    if s'.job.phase.put == Back(Stored) {
      assert Lands(e);
      var m := Msg(j.phase.name, Pack.Encoded(j.phase.got, j.cfg.packLimit));
      hide Backed, Pack.Encoded, Pack.Decoded, HasKey, PackHas, World.PutsGenuine, World.AllPut, PackPrefix, Next, Enabled;
      assert s'.service == s.service + [m];
      PackHasAppend(s.service, m, PackPrefix(j.cfg), k);
      PackReadBack(j.cfg.prefix, puts, j.phase.got, j.cfg.packLimit, j.phase.name, PackPrefix(j.cfg), k);
    }
  }

  lemma FlushParts(j: Job, e: FlushEvent)
    requires Enabled(j, Flush(e))
    ensures var j' := Next(j, Flush(e));
      && j'.cfg == j.cfg && j'.handlers == j.handlers && j'.phase == FlushPhase(j, e)
      && j'.core.packed == j.core.packed && j'.core.packDirty == j.core.packDirty && j'.core.disk == j.core.disk
      && j'.core.index == j.core.index && j'.log == j.log
  {
    hide FlushPhase, FlushCounters;
  }

  /** Steps of the queue, the tasks and the start of a request leave the pack alone. */
  lemma RestParts(j: Job, a: Action)
    requires Enabled(j, a) && !a.Handle? && !a.Flush? && !a.LoadPack? && !a.LoadIndex?
    ensures var j' := Next(j, a);
      && j'.cfg == j.cfg && j'.phase == j.phase
      && j'.core.packed == j.core.packed && j'.core.packDirty == j.core.packDirty
  {
    hide TaskNext, TaskCounters;
  }

  lemma RestFlaggers(j: Job, a: Action, id: nat)
    requires Enabled(j, a) && !a.Handle? && !a.Flush? && !a.LoadPack? && !a.LoadIndex?
    ensures Flagger(j, id) ==> Flagger(Next(j, a), id)
  {
    hide TaskNext, TaskCounters, TaskCore;
  }

  /** The teardown steps that only move between phases. */
  lemma PackExactMove(s: Scene, e: FlushEvent, k: Key)
    requires Can(s, Ours(Flush(e))) && Tidy(s, Flush(e)) && Known(s.job) && PackAt(s, k) && s.job.cfg.service
    requires Unclaimed(s)
    requires e.CloseQueue? || e.QueueDrained? || e.SaveDone? || e.Ship? || (e.Save? && s.job.phase.SavingIndex?)
    ensures PackAt(Then(s, Ours(Flush(e))), k)
  {
    hide Known, PackHas, Next, Landed, Pack.Encoded, Pack.Decoded, PackPrefix;
    PackStaysFlush(s, e, k);
    FlushParts(s.job, e);
    assert forall id :: Flagger(s.job, id) ==> Flagger(Next(s.job, Flush(e)), id);
  }

  /** Landing or not, a flush step that is not the pack's save leaves the newest pack. */
  lemma PackStaysFlush(s: Scene, e: FlushEvent, k: Key)
    requires Can(s, Ours(Flush(e))) && Known(s.job) && !(e.Save? && s.job.phase.SavingPack?)
    ensures PackHas(Then(s, Ours(Flush(e))).service, PackPrefix(s.job.cfg), k)
      == PackHas(s.service, PackPrefix(s.job.cfg), k)
  {
    if e.Save? {
      PackStays(s, Flush(e), k);
    } else {
      assert s.service + [] == s.service;
    }
  }

  lemma PackExactFlush(puts: set<Msg>, s: Scene, e: FlushEvent)
    requires Smooth(Storing, puts, s, Ours(Flush(e))) && s.job.cfg.service
    requires Known(s.job) && Backed(s, puts) && Calm(s.job) && Filed(s.job) && PackExact(s) && Unclaimed(s)
    ensures PackExact(Then(s, Ours(Flush(e))))
  {
    var s' := Then(s, Ours(Flush(e)));
    hide Next, Known, Backed, Calm, Landed, PackAt, Honest;
    FlushParts(s.job, e);
    forall k | k in s.job.core.packed ensures PackAt(s', k) {
      if e.Gather? {
        PackExactGather(s, e, k);
      } else if e.ReadNext? {
        PackExactRead(s, e, k);
      } else if e.Save? && s.job.phase.SavingPack? {
        PackExactSave(puts, s, e.e, k);
      } else {
        PackExactMove(s, e, k);
      }
    }
  }

  /** Unpacking the newest pack makes every packed key one the service's pack holds. */
  lemma PackExactLoad(puts: set<Msg>, s: Scene, a: Action)
    requires Can(s, Ours(a)) && a.LoadPack? && Honest(puts, s, Ours(a)) && s.job.core.packed == {}
    ensures PackExact(Then(s, Ours(a)))
  {
    var j, s' := s.job, Then(s, Ours(a));
    assert s.service + [] == s.service;
    UnpackKeys(Latch(j.core, CallsNow(j) && a.reply.Limited?), PackObjects(j, a.reply), a.wrote);
    hide Pack.Decoded, Newest, Unpack, AfterFetch;
    assert s'.job.phase.Serving? && s'.job.cfg == j.cfg && s'.service == s.service;
    forall k | k in s'.job.core.packed ensures PackHas(s.service, PackPrefix(j.cfg), k) {
      assert HasKey(PackObjects(j, a.reply), k);
    }
  }

  lemma PackExactRest(s: Scene, a: Action)
    requires Can(s, Ours(a)) && !a.Handle? && !a.Flush? && !a.LoadPack? && !a.LoadIndex?
    requires Known(s.job) && PackExact(s) && Live(s.job)
    ensures PackExact(Then(s, Ours(a)))
  {
    var j, s' := s.job, Then(s, Ours(a));
    hide Next, Enabled, Known, PackHas, Landed, Flagger, PackPrefix;
    RestParts(j, a);
    forall id | Flagger(j, id) ensures Flagger(s'.job, id) {
      RestFlaggers(j, a, id);
    }
    forall k | k in j.core.packed ensures PackAt(s', k) {
      PackStays(s, a, k);
      assert PackAt(s, k);
    }
  }

  // -- the manifest ---------------------------------------------------------------------------

  lemma IndexAtLoad(puts: set<Msg>, s: Scene, a: Action, first: set<Key>)
    requires Can(s, Ours(a)) && Honest(puts, s, Ours(a)) && (a.LoadIndex? || a.LoadPack?)
    requires Known(s.job) && IndexAt(s, first) && s.job.cfg.service
    ensures IndexAt(Then(s, Ours(a)), first)
  {
    assert s.service + [] == s.service;
    hide Unpack, Newest, AfterFetch, Manifest.Listed, Pack.Decoded;
    assert s.job.phase.Starting? ==> s.job.core.index == {};
  }

  /** A save comes back stored on the very step its entry lands; other teardown steps land nothing. */
  lemma SavedLands(j: Job, e: FlushEvent)
    requires Enabled(j, Flush(e))
    ensures Landed(j, Flush(e)).Some? <==> e.Save? && Lands(e.e)
    ensures e.Save? && Advance(j.phase.put, j.core.exhausted, e.e) == Back(Stored) ==> Lands(e.e)
  {
  }

  lemma NothingNew(j: Job)
    requires Known(j) && j.up.Ended? && !j.core.indexDirty
    ensures j.core.index == j.log.loaded
  {
    assert Uploads.DirtyExact(j) && Uploads.Queue(j);
  }

  lemma KnownCourse(j: Job, a: Action)
    requires Known(j) && Enabled(j, a)
    ensures !j.phase.Starting? ==> Next(j, a).log.loaded == j.log.loaded
    ensures Uploads.TornDown(j) ==> Next(j, a).core.index == j.core.index
  {
    Course(j, a);
  }

  lemma IndexAtFlush(puts: set<Msg>, s: Scene, e: FlushEvent, first: set<Key>)
    requires Smooth(Storing, puts, s, Ours(Flush(e))) && Known(s.job) && IndexAt(s, first) && s.job.cfg.service && Unclaimed(s)
    requires AllClean(s.job.core.index)
    ensures IndexAt(Then(s, Ours(Flush(e))), first)
  {
    hide Next, Known, Landed, ManifestOf, Honest, AllClean, Advance;
    var j, a := s.job, Flush(e);
    Landing(s, a);
    KnownCourse(j, a);
    FlushParts(j, e);
    SavedLands(j, e);
    if e.QueueDrained? && !j.core.indexDirty {
      NothingNew(j);
    }
  }

  lemma IndexAtRest(s: Scene, a: Action, first: set<Key>)
    requires Can(s, Ours(a)) && !a.LoadIndex? && !a.LoadPack? && !a.Flush? && Live(s.job)
    requires Known(s.job) && IndexAt(s, first) && AllClean(s.job.core.index)
    ensures IndexAt(Then(s, Ours(a)), first)
  {
    var j := s.job;
    Landing(s, a);
    Course(j, a);
    World.SameConfig(j, a);
    assert Next(j, a).phase == j.phase;
    assert j.phase.SavingIndex? ==> Uploads.TornDown(j);
    hide Next, Enabled, Known, Landed, ManifestOf;
  }

  lemma IndexAtTheirs(puts: set<Msg>, s: Scene, m: Msg, first: set<Key>)
    requires Can(s, Theirs(m)) && Honest(puts, s, Theirs(m)) && IndexAt(s, first)
    ensures IndexAt(Then(s, Theirs(m)), first)
  {
    ManifestAppend(s.service, m, IndexPrefix(s.job.cfg));
    hide ManifestOf;
  }

  // -- the storing run as a whole -------------------------------------------------------------

  ghost predicate Ready(puts: set<Msg>, s: Scene, first: set<Key>) {
    && Known(s.job) && Backed(s, puts) && Calm(s.job) && Filed(s.job) && Landings(s)
    && PackExact(s) && IndexAt(s, first) && Unclaimed(s)
    && s.job.cfg.service && '\n' !in s.job.cfg.prefix && AllClean(first)
  }

  lemma KnownParts(j: Job)
    requires Known(j)
    ensures Uploads.Queue(j) && Uploads.Early(j) && Uploads.Tasks(j)
    ensures AllClean(j.log.loaded) && '\n' !in j.cfg.prefix ==> AllClean(j.core.index)
    ensures !Live(j) ==> j.handlers == map[]
  {
  }

  lemma IndexClean(s: Scene, first: set<Key>)
    requires Known(s.job) && IndexAt(s, first) && AllClean(first) && '\n' !in s.job.cfg.prefix && Live(s.job)
    ensures AllClean(s.job.core.index)
  {
    hide AllClean, ManifestOf;
  }

  lemma ReadyIndex(puts: set<Msg>, s: Scene, a: Action, first: set<Key>)
    requires Ready(puts, s, first) && Smooth(Storing, puts, s, Ours(a))
    ensures IndexAt(Then(s, Ours(a)), first)
  {
    if a.LoadIndex? || a.LoadPack? {
      IndexAtLoad(puts, s, a, first);
    } else {
      assert Live(s.job) by {
        KnownParts(s.job);
      }
      IndexClean(s, first);
      hide Known, Backed, PackExact, Landings, Filed, IndexAt, Then, AllClean;
      if a.Flush? {
        IndexAtFlush(puts, s, a.step, first);
      } else {
        IndexAtRest(s, a, first);
      }
    }
  }

  lemma ReadyPack(puts: set<Msg>, s: Scene, a: Action, first: set<Key>)
    requires Ready(puts, s, first) && Smooth(Storing, puts, s, Ours(a))
    ensures PackExact(Then(s, Ours(a)))
  {
    KnownParts(s.job);
    if a.LoadPack? {
      assert s.job.core.packed == {};
      PackExactLoad(puts, s, a);
    } else if a.LoadIndex? {
      assert s.job.core.packed == {};
      assert Next(s.job, a).core.packed == {};
    } else {
      assert Live(s.job);
      hide Known, Backed, PackExact, Landings, Filed, IndexAt, Then, AllClean;
      if a.Flush? {
        PackExactFlush(puts, s, a.step);
      } else if a.Handle? {
        PackExactHandle(s, a);
      } else {
        PackExactRest(s, a);
      }
    }
  }

  lemma ReadyOurs(puts: set<Msg>, s: Scene, a: Action, first: set<Key>)
    requires Ready(puts, s, first) && Smooth(Storing, puts, s, Ours(a))
    ensures Ready(puts, Then(s, Ours(a)), first)
  {
    assert PutsKeyed(Ours(a), s.job.cfg.prefix);
    hide Known, Backed, PackExact, Landings, Filed, IndexAt, Unclaimed, AllClean, Next, Calm, Enabled, Honest, Tidy, Landed;
    UnclaimedStep(puts, s, a);
    KnownParts(s.job);
    KnownStep(s.job, a);
    BackedStep(puts, s, Ours(a));
    CalmStep(puts, s, a);
    FiledStep(puts, s, a);
    LandingsStep(s, a);
    ReadyPack(puts, s, a, first);
    ReadyIndex(puts, s, a, first);
    World.SameConfig(s.job, a);
  }

  lemma PackExactTheirs(puts: set<Msg>, s: Scene, m: Msg)
    requires Can(s, Theirs(m)) && Honest(puts, s, Theirs(m)) && PackExact(s)
    ensures PackExact(Then(s, Theirs(m)))
  {
    hide PackHas, Flagger, Pack.Total, World.EntryGenuine;
    forall k | k in s.job.core.packed ensures PackAt(Then(s, Theirs(m)), k) {
      assert PackAt(s, k);
      PackHasAppend(s.service, m, PackPrefix(s.job.cfg), k);
    }
  }

  lemma ReadyTheirs(puts: set<Msg>, s: Scene, m: Msg, first: set<Key>)
    requires Ready(puts, s, first) && Smooth(Storing, puts, s, Theirs(m))
    ensures Ready(puts, Then(s, Theirs(m)), first)
  {
    hide Known, Backed, Filed, IndexAt, AllClean, Calm, PackExact, Unclaimed, Honest;
    BackedStep(puts, s, Theirs(m));
    IndexAtTheirs(puts, s, m, first);
    PackExactTheirs(puts, s, m);
    UnclaimedTheirs(puts, s, m);
  }

  lemma {:induction false} ReadyAlways(puts: set<Msg>, cfg: Config, service: seq<Msg>, beats: seq<Beat>, s: Scene)
    requires Play(Scene(service, Fresh(cfg)), beats) == Some(s)
    requires Throughout(Storing, puts, Scene(service, Fresh(cfg)), beats)
    requires World.Sound(cfg.prefix, World.World(service, map[], puts))
    requires cfg.service && '\n' !in cfg.prefix && AllClean(ManifestOf(service, IndexPrefix(cfg)))
    ensures Ready(puts, s, ManifestOf(service, IndexPrefix(cfg))) && s.job.cfg == cfg
    decreases |beats|
  {
    var first := ManifestOf(service, IndexPrefix(cfg));
    if beats == [] {
      hide Known, AllClean, ManifestOf, World.Sound, Backed;
      KnownAtFirst(cfg);
      BackedAtFirst(cfg, service, puts);
    } else {
      hide Ready, Smooth, Can, Then, ManifestOf, AllClean;
      var before, b := Play(Scene(service, Fresh(cfg)), beats[..|beats| - 1]).value, beats[|beats| - 1];
      ReadyAlways(puts, cfg, service, beats[..|beats| - 1], before);
      match b
      case Ours(a) =>
        ReadyOurs(puts, before, a, first);
        SameScene(before, b);
      case Theirs(m) =>
        ReadyTheirs(puts, before, m, first);
        SameScene(before, b);
    }
  }

  lemma SameScene(s: Scene, b: Beat)
    requires Can(s, b)
    ensures Then(s, b).job.cfg == s.job.cfg && s.service <= Then(s, b).service
  {
    if b.Ours? {
      World.SameConfig(s.job, b.action);
    }
  }

  /** What the next run needs of the service: the newest pack holds k, or the newest manifest lists it
      and the service holds it. */
  ghost predicate Kept(service: seq<Msg>, cfg: Config, k: Key) {
    PackHas(service, PackPrefix(cfg), k) || (k in ManifestOf(service, IndexPrefix(cfg)) && Holds(service, k))
  }

  /** The upload of k, if there was one, was stored, or declined with an entry under k at the service. */
  ghost predicate Confirmed(s: Scene, k: Key) {
    forall i | i in s.job.log.results && i < |s.job.log.sent| && s.job.log.sent[i].key == k ::
      s.job.log.results[i] == Stored || (s.job.log.results[i] == Declined && Holds(s.service, k))
  }

  lemma StoredIsKept(puts: set<Msg>, cfg: Config, service: seq<Msg>, beats: seq<Beat>, s: Scene, k: Key)
    requires Play(Scene(service, Fresh(cfg)), beats) == Some(s)
    requires Ready(puts, s, ManifestOf(service, IndexPrefix(cfg))) && s.job.cfg == cfg
    requires s.job.phase.Finished? && k in s.job.core.queued && Confirmed(s, k)
    ensures Kept(s.service, cfg, k)
  {
    var j, first := s.job, ManifestOf(service, IndexPrefix(cfg));
    hide *;
    ReadyParts(puts, s, first);
    if k in j.core.packed {
      PackedIsKept(s, k);
    } else {
      var m := SentFor(j, k);
      PlayIsExec(Scene(service, Fresh(cfg)), beats, s);
      JobOf(cfg, service);
      Uploads.ExactIndex(cfg, Own(beats), j);
      IndexSettled(s, first);
      SentIsKept(s, m);
    }
  }

  lemma JobOf(cfg: Config, service: seq<Msg>)
    ensures Scene(service, Fresh(cfg)).job == Fresh(cfg)
  {
  }

  lemma ReadyParts(puts: set<Msg>, s: Scene, first: set<Key>)
    requires Ready(puts, s, first) && s.job.phase.Finished?
    ensures s.job.cfg.service && Calm(s.job) && Filed(s.job) && Landings(s) && PackExact(s) && IndexAt(s, first)
    ensures Closing(s.job) && s.job.up.Ended?
  {
    KnownParts(s.job);
    hide Known, Backed, IndexAt, Filed, Landings, PackExact, Uploads.Early, Uploads.Tasks;
  }

  lemma PackedIsKept(s: Scene, k: Key)
    requires PackExact(s) && s.job.phase.Finished? && k in s.job.core.packed
    ensures Kept(s.service, s.job.cfg, k)
  {
    assert PackAt(s, k);
    hide PackHas, ManifestOf;
  }

  lemma SentFor(j: Job, k: Key) returns (m: Msg)
    requires Filed(j) && Calm(j) && Closing(j) && k in j.core.queued && k !in j.core.packed
    ensures m in j.log.sent && m.key == k
  {
    assert forall id | id in j.handlers :: !Putting(j.handlers[id]);
    m :| m in j.log.sent && m.key == k;
  }

  lemma SentIsKept(s: Scene, m: Msg)
    requires m in s.job.log.sent && Landings(s) && Confirmed(s, m.key)
    requires ManifestOf(s.service, IndexPrefix(s.job.cfg)) == s.job.core.index
    requires s.job.core.index == s.job.log.loaded + Uploads.Taken(s.job)
    requires forall i: nat :: i in s.job.log.results <==> i < |s.job.log.sent|
    ensures Kept(s.service, s.job.cfg, m.key)
  {
    hide PackHas, ManifestOf;
    var j := s.job;
    var i :| 0 <= i < |j.log.sent| && j.log.sent[i] == m;
    assert i in j.log.results && j.log.results[i] != Failed;
    assert j.log.results[i] == Stored ==> m in s.service;
    assert m.key in Uploads.Taken(j);
  }

  lemma IndexSettled(s: Scene, first: set<Key>)
    requires IndexAt(s, first) && s.job.phase.Finished?
    ensures ManifestOf(s.service, IndexPrefix(s.job.cfg)) == s.job.core.index
  {
    hide ManifestOf;
  }

  /** What a run publishes. If its puts complete, its stamps are new and the service goes along with its
      saves, then at its end the newest manifest lists what it listed before and what the service took
      from this run, and nothing else. */
  lemma Publishes(puts: set<Msg>, cfg: Config, service: seq<Msg>, beats: seq<Beat>, end: Scene)
    requires Play(Scene(service, Fresh(cfg)), beats) == Some(end) && end.job.phase.Finished?
    requires Throughout(Storing, puts, Scene(service, Fresh(cfg)), beats)
    requires World.Sound(cfg.prefix, World.World(service, map[], puts))
    requires cfg.service && '\n' !in cfg.prefix && AllClean(ManifestOf(service, IndexPrefix(cfg)))
    ensures ManifestOf(end.service, IndexPrefix(cfg)) == ManifestOf(service, IndexPrefix(cfg)) + Uploads.Taken(end.job)
    ensures AllClean(ManifestOf(end.service, IndexPrefix(cfg)))
    ensures World.Sound(cfg.prefix, World.World(end.service, map[], puts))
  {
    var first := ManifestOf(service, IndexPrefix(cfg));
    hide *;
    ReadyAlways(puts, cfg, service, beats, end);
    SoundOf(puts, cfg, end, first);
    PlayIsExec(Scene(service, Fresh(cfg)), beats, end);
    JobOf(cfg, service);
    ReadyParts(puts, end, first);
    Uploads.ExactIndex(cfg, Own(beats), end.job);
    ReadyClean(puts, end, first);
    IndexSettled(end, first);
  }

  lemma ReadyClean(puts: set<Msg>, s: Scene, first: set<Key>)
    requires Ready(puts, s, first) && s.job.phase.Finished?
    ensures s.job.log.loaded == first && AllClean(s.job.core.index)
  {
    KnownParts(s.job);
    hide Known, Backed, Filed, Landings, PackExact, Calm, Unclaimed, AllClean, ManifestOf;
  }

  /** Such runs of one scope, one after the other: the service then, and everything it took from them. */
  ghost function Chain(puts: set<Msg>, service: seq<Msg>, runs: seq<Run>): Option<(seq<Msg>, set<Key>)> {
    if runs == [] then Some((service, {}))
    else
      match Chain(puts, service, runs[..|runs| - 1])
      case None => None
      case Some((middle, taken)) =>
        var start, r := Scene(middle, Fresh(runs[|runs| - 1].cfg)), runs[|runs| - 1];
        match Play(start, r.beats)
        case Some(end) =>
          if Throughout(Storing, puts, start, r.beats) && end.job.phase.Finished?
          then Some((end.service, taken + Uploads.Taken(end.job))) else None
        case None => None
  }

  /** Over any number of such runs the manifest lists what it listed at first and everything the service
      ever took. */
  lemma {:induction false} Accumulates(puts: set<Msg>, prefix: string, scope: string, service: seq<Msg>, runs: seq<Run>,
                                       end: seq<Msg>, taken: set<Key>)
    requires Chain(puts, service, runs) == Some((end, taken)) && '\n' !in prefix
    requires forall r | r in runs :: r.cfg.prefix == prefix && r.cfg.scope == scope && r.cfg.service
    requires World.Sound(prefix, World.World(service, map[], puts))
    requires AllClean(ManifestOf(service, ScopedPrefix(prefix, scope, "index")))
    ensures var index := ScopedPrefix(prefix, scope, "index");
      ManifestOf(end, index) == ManifestOf(service, index) + taken && AllClean(ManifestOf(end, index))
    ensures World.Sound(prefix, World.World(end, map[], puts))
    decreases |runs|
  {
    hide ManifestOf, AllClean, Play, Throughout, ScopedPrefix, World.Sound, Uploads.Taken;
    if runs != [] {
      var (middle, before) := Chain(puts, service, runs[..|runs| - 1]).value;
      var r := runs[|runs| - 1];
      Accumulates(puts, prefix, scope, service, runs[..|runs| - 1], middle, before);
      Publishes(puts, r.cfg, middle, r.beats, Play(Scene(middle, Fresh(r.cfg)), r.beats).value);
    }
  }

  lemma QueuedStep(j: Job, a: Action)
    requires Enabled(j, a)
    ensures j.core.queued <= Next(j, a).core.queued
    ensures a.StartPut? ==> a.msg.key in Next(j, a).core.queued
  {
    hide HandlerNext, FlushPhase, FlushCounters, TaskNext;
  }

  lemma {:induction false} PutIsQueued(s0: Scene, beats: seq<Beat>, s: Scene, id: nat, msg: Msg)
    requires Play(s0, beats) == Some(s) && Ours(StartPut(id, msg)) in beats
    ensures msg.key in s.job.core.queued
    decreases |beats|
  {
    hide Enabled, Next;
    var before, b := Play(s0, beats[..|beats| - 1]).value, beats[|beats| - 1];
    if b.Ours? {
      QueuedStep(before.job, b.action);
    }
    if b != Ours(StartPut(id, msg)) {
      PutIsQueued(s0, beats[..|beats| - 1], before, id, msg);
    }
  }

  // -- the finding run ------------------------------------------------------------------------

  /** For an object of the pack: still to be unpacked, or on disk for every lookup. */
  ghost predicate AtHand(s: Scene, k: Key) {
    if Live(s.job) then Traffic.AtHome(s.job, k)
    else !s.job.core.exhausted && PackHas(s.service, PackPrefix(s.job.cfg), k)
  }

  /** For an object stored singly: listed, held and never recorded as a miss. */
  ghost predicate InReach(s: Scene, k: Key) {
    && s.job.cfg.service && Holds(s.service, k) && k !in s.job.core.misses
    && (forall id | id in s.job.handlers :: s.job.handlers[id] != GetForgetting(k))
    && if s.job.phase.Starting? then !s.job.core.exhausted && k in ManifestOf(s.service, IndexPrefix(s.job.cfg))
       else k in s.job.core.index
  }

  lemma AtHandOurs(puts: set<Msg>, s: Scene, a: Action, k: Key)
    requires Smooth(Finding, puts, s, Ours(a)) && AtHand(s, k) && Uploads.Early(s.job) && Uploads.Queue(s.job) && s.job.cfg.service
    ensures AtHand(Then(s, Ours(a)), k)
  {
    var j := s.job;
    if Live(j) {
      Traffic.AtHomeStep(j, a, k);
      Drain.StaysLive(j, a);
      hide Next, Enabled, Honest, Traffic.AtHome, Uploads.Early;
    } else if a.LoadIndex? {
      assert s.service + [] == s.service;
      hide PackHas, Newest, AfterFetch, Manifest.Listed;
      assert Next(j, a).phase.Unpacking? && !Next(j, a).core.exhausted;
    } else {
      assert a.LoadPack? by {
        hide HandlerWaits, TaskWaits;
      }
      AtHandLoad(puts, s, a, k);
    }
  }

  lemma AtHandLoad(puts: set<Msg>, s: Scene, a: Action, k: Key)
    requires Can(s, Ours(a)) && Honest(puts, s, Ours(a)) && a.LoadPack? && s.job.cfg.service
    requires AtHand(s, k) && Uploads.Early(s.job)
    ensures AtHand(Then(s, Ours(a)), k)
  {
    var j := s.job;
    UnpackKeys(Latch(j.core, CallsNow(j) && a.reply.Limited?), PackObjects(j, a.reply), a.wrote);
    hide Pack.Decoded, Newest, Unpack, AfterFetch;
    assert HasKey(PackObjects(j, a.reply), k);
    assert Next(j, a).handlers == map[];
  }

  lemma InReachHandle(j: Job, id: nat, e: HandlerEvent, k: Key)
    requires Enabled(j, Handle(id, e)) && !j.core.exhausted
    requires j.handlers[id] == GetAsking(k) ==> AfterFetch(e.reply).Found?
    requires j.handlers[id] != GetForgetting(k)
    ensures k in Next(j, Handle(id, e)).core.misses ==> k in j.core.misses
    ensures id in Next(j, Handle(id, e)).handlers ==> Next(j, Handle(id, e)).handlers[id] != GetForgetting(k)
  {
    HandleOnly(j, id, e);
    hide Next;
  }

  lemma InReachOurs(puts: set<Msg>, s: Scene, a: Action, k: Key)
    requires Smooth(Finding, puts, s, Ours(a)) && InReach(s, k) && !s.job.core.exhausted && Uploads.Early(s.job) && Uploads.Queue(s.job)
    ensures InReach(Then(s, Ours(a)), k)
  {
    var j, s' := s.job, Then(s, Ours(a));
    World.SameConfig(j, a);
    assert forall m | m in s.service :: m in s'.service;
    if a.LoadIndex? {
      InReachLoad(puts, s, a, k);
    } else {
      if a.Handle? {
        InReachHandle(j, a.id, a.event, k);
      }
      InReachRest(j, a, k);
      hide Next, Enabled, Honest, ManifestOf;
    }
  }

  lemma InReachLoad(puts: set<Msg>, s: Scene, a: Action, k: Key)
    requires Can(s, Ours(a)) && Honest(puts, s, Ours(a)) && a.LoadIndex? && InReach(s, k) && Uploads.Early(s.job)
    ensures InReach(Then(s, Ours(a)), k)
  {
    assert s.service + [] == s.service;
    hide Newest, AfterFetch, Manifest.Listed;
  }

  lemma InReachRest(j: Job, a: Action, k: Key)
    requires Enabled(j, a) && !a.LoadIndex? && Uploads.Early(j) && Uploads.Queue(j)
    ensures j.core.index <= Next(j, a).core.index
    ensures j.phase.Starting? == false ==> !Next(j, a).phase.Starting?
    ensures !a.Handle? ==> Next(j, a).core.misses == j.core.misses
    ensures forall id | id in Next(j, a).handlers && (!a.Handle? || id != a.id) ::
      (id in j.handlers && Next(j, a).handlers[id] == j.handlers[id]) || Next(j, a).handlers[id] != GetForgetting(k)
    ensures !j.phase.Starting?
  {
    hide HandlerCore, HandlerNext, FlushCore, FlushCounters, TaskNext, TaskCore, PackRead;
  }

  ghost predicate Findable(s: Scene, k: Key) { AtHand(s, k) || InReach(s, k) }

  lemma FindableStep(puts: set<Msg>, s: Scene, b: Beat, k: Key)
    requires Smooth(Finding, puts, s, b) && Findable(s, k) && !Then(s, b).job.core.exhausted
    requires Uploads.Invariant(s.job) && s.job.cfg.service
    ensures Findable(Then(s, b), k) && !s.job.core.exhausted
  {
    match b
    case Ours(a) =>
      Teardown.LatchOnly(s.job, a);
      assert Uploads.Early(s.job) && Uploads.Queue(s.job);
      hide Smooth, AtHand, InReach, Then, Uploads.Early, Uploads.Queue, Next, Enabled;
      if AtHand(s, k) {
        AtHandOurs(puts, s, a, k);
      } else {
        InReachOurs(puts, s, a, k);
      }
    case Theirs(m) =>
      PackHasAppend(s.service, m, PackPrefix(s.job.cfg), k);
      ManifestAppend(s.service, m, IndexPrefix(s.job.cfg));
      assert forall x | x in s.service :: x in s.service + [m];
      hide PackHas, ManifestOf, Traffic.AtHome;
  }

  lemma {:induction false} FindableAlways(puts: set<Msg>, cfg: Config, service: seq<Msg>, beats: seq<Beat>, s: Scene,
                                          k: Key)
    requires Play(Scene(service, Fresh(cfg)), beats) == Some(s) && !s.job.core.exhausted
    requires Throughout(Finding, puts, Scene(service, Fresh(cfg)), beats)
    requires World.Sound(cfg.prefix, World.World(service, map[], puts))
    requires cfg.service && Kept(service, cfg, k)
    ensures Findable(s, k) && Backed(s, puts) && s.job.cfg == cfg
    decreases |beats|
  {
    if beats == [] {
      hide World.Sound, Backed, PackHas, ManifestOf;
      BackedAtFirst(cfg, service, puts);
    } else {
      var before, b := Play(Scene(service, Fresh(cfg)), beats[..|beats| - 1]).value, beats[|beats| - 1];
      PlayIsExec(Scene(service, Fresh(cfg)), beats[..|beats| - 1], before);
      Uploads.Always(cfg, Own(beats[..|beats| - 1]), before.job);
      SameScene(before, b);
      LatchScene(before, b);
      hide Findable, Backed, Can, Then, Kept, Exec, Uploads.Invariant, Honest, Answering;
      FindableAlways(puts, cfg, service, beats[..|beats| - 1], before, k);
      FindableStep(puts, before, b, k);
      BackedStep(puts, before, b);
    }
  }

  lemma LatchScene(s: Scene, b: Beat)
    requires Can(s, b)
    ensures s.job.core.exhausted ==> Then(s, b).job.core.exhausted
  {
    if b.Ours? {
      Teardown.LatchOnly(s.job, b.action);
    }
  }

  /** A lookup that ends on a findable key finds it. */
  lemma AnswersFound(s: Scene, a: Action, k: Key, answer: Option<Bytes>)
    requires Can(s, Ours(a)) && Answer(s.job, a) == Some((k, answer)) && Findable(s, k)
    requires Uploads.Early(s.job)
    ensures answer.Some?
  {
    var j, h := s.job, s.job.handlers[a.id];
    assert Live(j);
    assert Traffic.GetFor(h, k);
  }

  lemma AnswersBacked(puts: set<Msg>, s: Scene, a: Action, k: Key, bytes: Bytes)
    requires Can(s, Ours(a)) && Answer(s.job, a) == Some((k, Some(bytes))) && Backed(s, puts)
    ensures Msg(k, bytes) in puts
  {
    var w := World.World(s.service, map[0 := s.job], puts);
    assert World.Genuine(w.jobs[0], puts);
    hide World.EntryGenuine, World.PutsGenuine, World.PhaseGenuine, World.ObjectKey;
  }

  /** The second run hits. Let one run put `msg` to completion, its upload be stored or declined for an
      entry that is there, its saves carry stamps of their own and be gone along with by the service, and
      the pack fit; let a later run of the same prefix and scope load what is newest, with lookups
      answered and the latch never set. Then whatever else the two runs and other writers do, each
      lookup of that key that ends in the later run returns exactly the bytes put: small objects
      through the pack, large ones as entries found through the manifest. `puts` stands for everything
      ever put under the prefix; `msg` is the only thing in it under its key. */
  lemma SecondRunHits(puts: set<Msg>, first: Config, service: seq<Msg>, beats: seq<Beat>, end: Scene,
                      second: Config, later: seq<Beat>, s: Scene,
                      id: nat, msg: Msg, a: Action, answer: Option<Bytes>)
    requires first.service && second.service && '\n' !in first.prefix
    requires first.prefix == second.prefix && first.scope == second.scope
    requires World.Sound(first.prefix, World.World(service, map[], puts))
    requires AllClean(ManifestOf(service, IndexPrefix(first)))
    requires forall m | m in puts :: m.key == msg.key ==> m == msg
    requires Play(Scene(service, Fresh(first)), beats) == Some(end)
    requires Throughout(Storing, puts, Scene(service, Fresh(first)), beats)
    requires end.job.phase.Finished? && Ours(StartPut(id, msg)) in beats
    requires Confirmed(end, msg.key)
    requires Play(Scene(end.service, Fresh(second)), later) == Some(s) && !s.job.core.exhausted
    requires Throughout(Finding, puts, Scene(end.service, Fresh(second)), later)
    requires Can(s, Ours(a)) && Answer(s.job, a) == Some((msg.key, answer))
    ensures answer == Some(msg.bytes)
  {
    hide *;
    ReadyAlways(puts, first, service, beats, end);
    PutIsQueued(Scene(service, Fresh(first)), beats, end, id, msg);
    StoredIsKept(puts, first, service, beats, end, msg.key);
    SoundOf(puts, first, end, ManifestOf(service, IndexPrefix(first)));
    SamePlace(end.service, first, second, msg.key);
    FindableAlways(puts, second, end.service, later, s, msg.key);
    PlayIsExec(Scene(end.service, Fresh(second)), later, s);
    Uploads.Always(second, Own(later), s.job);
    EarlyOf(s.job);
    AnswersFound(s, a, msg.key, answer);
    AnswersBacked(puts, s, a, msg.key, answer.value);
  }

  lemma SoundOf(puts: set<Msg>, cfg: Config, s: Scene, first: set<Key>)
    requires Ready(puts, s, first) && s.job.cfg == cfg
    ensures World.Sound(cfg.prefix, World.World(s.service, map[], puts))
  {
    hide Known, Calm, Filed, Landings, PackExact, IndexAt, AllClean, World.EntryGenuine, World.PutsGenuine, World.Genuine;
  }

  lemma SamePlace(service: seq<Msg>, first: Config, second: Config, k: Key)
    requires first.prefix == second.prefix && first.scope == second.scope
    ensures Kept(service, first, k) == Kept(service, second, k)
  {
  }

  lemma EarlyOf(j: Job)
    requires Uploads.Invariant(j)
    ensures Uploads.Early(j)
  {
  }
}
