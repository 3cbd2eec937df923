/** When a run writes its pack again, and what becomes of an object put under a key that came out of
    the old one. */
module Repack {
  import opened Base
  import opened Gha
  import opened Job
  import opened Session
  import opened History
  import opened Holdings
  import opened SecondRun
  import Drain
  import Pack
  import Traffic
  import Uploads
  import World

  // -- the pack's flag ------------------------------------------------------------------------

  /** The flag is up only when the packed set grew beyond what was unpacked; and when it grew the flag
      is up or a put is about to raise it. */
  ghost predicate FlagExact(j: Job, unpacked: set<Key>) {
    && unpacked <= j.core.packed
    && (j.core.packDirty ==> j.core.packed != unpacked)
    && (j.core.packed != unpacked ==> j.core.packDirty || exists id :: Flagger(j, id))
    && (forall id | Flagger(j, id) :: j.core.packed != unpacked)
  }

  lemma FlagHandle(j: Job, id: nat, e: HandlerEvent, unpacked: set<Key>)
    requires Enabled(j, Handle(id, e)) && FlagExact(j, unpacked)
    ensures FlagExact(Next(j, Handle(id, e)), unpacked)
  {
    HandleOnly(j, id, e);
    var j', h := Next(j, Handle(id, e)), j.handlers[id];
    assert h.PutFlagging? ==> Flagger(j, id);
    assert h.PutFiling? && j'.core.packed != j.core.packed ==> Flagger(j', id);
    hide Next;
    assert forall other | Flagger(j, other) && other != id :: Flagger(j', other);
    assert forall other | Flagger(j', other) && other != id :: Flagger(j, other);
    assert Flagger(j', id) ==> h.PutFiling? && h.msg.key !in j.core.packed && h.msg.key in j'.core.packed;
  }

  /** Nothing else touches what the flag is about. */
  lemma FlagParts(j: Job, a: Action)
    requires Enabled(j, a) && Live(j) && !a.Handle?
    ensures var j' := Next(j, a);
      && j'.core.packed == j.core.packed && j'.core.packDirty == j.core.packDirty
      && (forall id :: Flagger(j, id) <==> Flagger(j', id))
  {
    hide FlushPhase, FlushCounters, TaskNext, TaskCounters, HandlerCore, HandlerNext, IndexRead, PackRead;
  }

  lemma FlagStep(j: Job, a: Action, unpacked: set<Key>)
    requires Enabled(j, a) && Live(j) && FlagExact(j, unpacked)
    ensures FlagExact(Next(j, a), unpacked)
  {
    if a.Handle? {
      FlagHandle(j, a.id, a.event, unpacked);
    } else {
      FlagParts(j, a);
      hide Next, Enabled, Flagger;
    }
  }

  lemma {:induction false} CleanBeforeServing(cfg: Config, trace: seq<Action>, j: Job)
    requires Exec(Fresh(cfg), trace) == Some(j)
    ensures !Live(j) ==> j.handlers == map[] && j.core.queued == {} && !j.core.packDirty && j.core.packed == {}
    decreases |trace|
  {
    Uploads.Always(cfg, trace, j);
    if trace != [] {
      var before, a := Exec(Fresh(cfg), trace[..|trace| - 1]).value, trace[|trace| - 1];
      CleanBeforeServing(cfg, trace[..|trace| - 1], before);
      if !Live(j) {
        if Live(before) {
          Drain.StaysLive(before, a);
        } else {
          Uploads.Always(cfg, trace[..|trace| - 1], before);
          hide Exec, Uploads.Tasks, Uploads.SentOnce, Uploads.IndexExact, Uploads.DirtyExact;
          EarlyStepClean(before, a);
        }
      }
    }
  }

  lemma EarlyStepClean(j: Job, a: Action)
    requires Enabled(j, a) && !Live(j) && !Live(Next(j, a)) && Uploads.Early(j) && Uploads.Queue(j)
    ensures Next(j, a).core.packDirty == j.core.packDirty && Next(j, a).core.packed == j.core.packed
  {
    hide HandlerCore, HandlerNext, FlushCore, FlushCounters, TaskNext, TaskCore;
  }

  lemma {:induction false} FlagFrom(start: Job, trace: seq<Action>, j: Job, unpacked: set<Key>)
    requires Live(start) && FlagExact(start, unpacked) && Exec(start, trace) == Some(j)
    ensures Live(j) && FlagExact(j, unpacked)
    decreases |trace|
  {
    if trace != [] {
      hide FlagExact, Live, Enabled, Next;
      var before, a := Exec(start, trace[..|trace| - 1]).value, trace[|trace| - 1];
      FlagFrom(start, trace[..|trace| - 1], before, unpacked);
      FlagStep(before, a, unpacked);
      Drain.StaysLive(before, a);
    }
  }

  /** The pack's flag is exact: from the step that unpacks on, through any interleaving, it is up only
      when some key joined the packed set, and lags only behind a put between joining and raising it. */
  lemma PackFlagExact(cfg: Config, boot: seq<Action>, before: Job, load: Action, trace: seq<Action>, j: Job)
    requires Exec(Fresh(cfg), boot) == Some(before) && load.LoadPack? && Enabled(before, load)
    requires Exec(Next(before, load), trace) == Some(j)
    ensures FlagExact(j, Next(before, load).core.packed)
  {
    CleanBeforeServing(cfg, boot, before);
    var start := Next(before, load);
    assert Live(start) && start.handlers == map[] && !start.core.packDirty by {
      hide PackRead;
    }
    assert FlagExact(start, start.core.packed);
    hide Next, Enabled, Exec;
    FlagFrom(start, trace, j, start.core.packed);
  }

  // -- first puts -----------------------------------------------------------------------------

  /** The message a key was first put with: the only one the store takes. */
  function FirstPut(trace: seq<Action>, k: Key): Option<Msg> {
    if trace == [] then None
    else
      var p, a := FirstPut(trace[..|trace| - 1], k), trace[|trace| - 1];
      if p.Some? then p else if a.StartPut? && a.msg.key == k then Some(a.msg) else None
  }

  predicate Small(cfg: Config, m: Option<Msg>) { m.Some? && |m.value.bytes| < cfg.packThreshold }

  /** A key is queued exactly when it was put; what is carried is the first put of its key; the packed
      set is what was unpacked and the small first puts, but for those on their way. */
  ghost predicate PutsTold(j: Job, trace: seq<Action>, unpacked: set<Key>) {
    && (forall k :: k in j.core.queued <==> FirstPut(trace, k).Some?)
    && (forall id | id in j.handlers && Uploads.Carrying(j.handlers[id]) ::
          FirstPut(trace, j.handlers[id].msg.key) == Some(j.handlers[id].msg))
    && (forall k | k in j.core.packed :: k in unpacked || Small(j.cfg, FirstPut(trace, k)))
    && (forall k | Small(j.cfg, FirstPut(trace, k)) ::
          k in j.core.packed
          || exists id | id in j.handlers :: (j.handlers[id].PutWriting? || j.handlers[id].PutFiling?) && j.handlers[id].msg.key == k)
    && unpacked <= j.core.packed
  }

  lemma FirstPutMore(trace: seq<Action>, a: Action, k: Key)
    ensures FirstPut(trace + [a], k) ==
      if FirstPut(trace, k).Some? then FirstPut(trace, k)
      else if a.StartPut? && a.msg.key == k then Some(a.msg) else None
  {
    assert (trace + [a])[..|trace|] == trace;
  }

  lemma ToldStart(j: Job, trace: seq<Action>, id: nat, msg: Msg, unpacked: set<Key>)
    requires Enabled(j, StartPut(id, msg)) && PutsTold(j, trace, unpacked)
    ensures PutsTold(Next(j, StartPut(id, msg)), trace + [StartPut(id, msg)], unpacked)
  {
    forall k ensures FirstPut(trace + [StartPut(id, msg)], k) ==
      if FirstPut(trace, k).Some? then FirstPut(trace, k) else if msg.key == k then Some(msg) else None
    {
      FirstPutMore(trace, StartPut(id, msg), k);
    }
    var j' := Next(j, StartPut(id, msg));
    hide FirstPut;
    if msg.key !in j.core.queued {
      assert id in j'.handlers && j'.handlers[id] == PutWriting(msg);
      assert forall other | other in j.handlers :: other in j'.handlers && j'.handlers[other] == j.handlers[other];
    }
  }

  lemma SameFirsts(trace: seq<Action>, a: Action)
    requires !a.StartPut?
    ensures forall k :: FirstPut(trace + [a], k) == FirstPut(trace, k)
  {
    forall k ensures FirstPut(trace + [a], k) == FirstPut(trace, k) {
      FirstPutMore(trace, a, k);
    }
  }

  /** A handler's step, as far as the packed set and the puts under way are concerned. */
  lemma HandledParts(j: Job, id: nat, e: HandlerEvent)
    requires Enabled(j, Handle(id, e))
    ensures var j', h := Next(j, Handle(id, e)), j.handlers[id];
      var next := HandlerNext(j.cfg, j.core, h, e);
      && j'.cfg == j.cfg && j'.core.queued == j.core.queued
      && j'.handlers == (match next case Some(h') => j.handlers[id := h'] case None => j.handlers - {id})
      && j'.core.packed ==
           (if h.PutFiling? && |h.msg.bytes| < j.cfg.packThreshold then j.core.packed + {h.msg.key} else j.core.packed)
      && (forall h' | next == Some(h') && Uploads.Carrying(h') :: Uploads.Carrying(h) && h'.msg == h.msg)
      && (h.PutWriting? ==> next == Some(PutFiling(h.msg)))
  {
    HandleOnly(j, id, e);
    hide Next;
  }

  lemma ToldHandle(j: Job, trace: seq<Action>, id: nat, e: HandlerEvent, unpacked: set<Key>)
    requires Enabled(j, Handle(id, e)) && PutsTold(j, trace, unpacked)
    ensures PutsTold(Next(j, Handle(id, e)), trace + [Handle(id, e)], unpacked)
  {
    var j', h := Next(j, Handle(id, e)), j.handlers[id];
    HandledParts(j, id, e);
    SameFirsts(trace, Handle(id, e));
    hide FirstPut, Next, HandlerCore, HandlerNext, Enabled;
    forall k | Small(j.cfg, FirstPut(trace, k)) && k !in j'.core.packed
      ensures exists id' | id' in j'.handlers ::
        (j'.handlers[id'].PutWriting? || j'.handlers[id'].PutFiling?) && j'.handlers[id'].msg.key == k
    {
      var other :| other in j.handlers && (j.handlers[other].PutWriting? || j.handlers[other].PutFiling?)
        && j.handlers[other].msg.key == k;
      assert FirstPut(trace, k) == Some(j.handlers[other].msg);
      assert other != id ==> other in j'.handlers && j'.handlers[other] == j.handlers[other];
      assert other == id ==> h.PutWriting?;
      assert other in j'.handlers;
    }
  }

  /** Of the rest, only a lookup's start touches the handlers. */
  lemma ToldParts(j: Job, a: Action)
    requires Enabled(j, a) && Live(j) && !a.Handle? && !a.StartPut?
    ensures var j' := Next(j, a);
      && j'.core.packed == j.core.packed && j'.core.queued == j.core.queued && j'.core.disk == j.core.disk && j'.cfg == j.cfg
      && j'.handlers == if a.StartGet? then j.handlers[a.id := GetReading(a.key)] else j.handlers
  {
    hide FlushPhase, FlushCounters, TaskNext, TaskCounters, HandlerCore, HandlerNext, IndexRead, PackRead;
  }

  lemma ToldStep(j: Job, trace: seq<Action>, a: Action, unpacked: set<Key>)
    requires Enabled(j, a) && Live(j) && PutsTold(j, trace, unpacked)
    ensures PutsTold(Next(j, a), trace + [a], unpacked)
  {
    if a.Handle? {
      ToldHandle(j, trace, a.id, a.event, unpacked);
    } else if a.StartPut? {
      ToldStart(j, trace, a.id, a.msg, unpacked);
    } else {
      ToldParts(j, a);
      SameFirsts(trace, a);
      assert a.StartGet? ==> a.id !in j.handlers;
      ToldSame(j, Next(j, a), trace, trace + [a], unpacked, if a.StartGet? then Some(a.id) else None);
    }
  }

  lemma ToldSame(j: Job, j': Job, trace: seq<Action>, trace': seq<Action>, unpacked: set<Key>, asked: Option<nat>)
    requires PutsTold(j, trace, unpacked) && forall k :: FirstPut(trace', k) == FirstPut(trace, k)
    requires j'.core.packed == j.core.packed && j'.core.queued == j.core.queued && j'.cfg == j.cfg
    requires forall id | id in j.handlers :: id in j'.handlers && j'.handlers[id] == j.handlers[id]
    requires forall id | id in j'.handlers :: id in j.handlers || (asked == Some(id) && j'.handlers[id].GetReading?)
    ensures PutsTold(j', trace', unpacked)
  {
    hide FirstPut;
  }

  // -- the bytes on disk ----------------------------------------------------------------------

  ghost predicate WritesNext(j: Job, k: Key, id: nat) {
    id in j.handlers && j.handlers[id].PutWriting? && j.handlers[id].msg.key == k
  }

  /** On disk under k are the bytes found there at first, until the first put of k has written its own. */
  ghost predicate BodyNow(j: Job, trace: seq<Action>, k: Key, old_: Bytes) {
    && Traffic.AtHome(j, k)
    && (FirstPut(trace, k).Some? && (forall id :: !WritesNext(j, k, id)) ==> j.core.disk[k] == FirstPut(trace, k).value.bytes)
    && (FirstPut(trace, k) == None || (exists id :: WritesNext(j, k, id)) ==> j.core.disk[k] == old_)
  }

  lemma BodyHandle(j: Job, trace: seq<Action>, id: nat, e: HandlerEvent, k: Key, old_: Bytes, unpacked: set<Key>)
    requires Enabled(j, Handle(id, e)) && PutsTold(j, trace, unpacked) && BodyNow(j, trace, k, old_) && Uploads.SentOnce(j)
    requires e.Io? ==> e.ok
    ensures BodyNow(Next(j, Handle(id, e)), trace + [Handle(id, e)], k, old_)
  {
    var j', h := Next(j, Handle(id, e)), j.handlers[id];
    Traffic.AtHomeStep(j, Handle(id, e), k);
    HandleOnly(j, id, e);
    SameFirsts(trace, Handle(id, e));
    WritingHandle(j, id, e, k);
    assert h.PutWriting? ==> FirstPut(trace, h.msg.key) == Some(h.msg);
    DiskHandle(j, id, e, k);
    hide Next, Enabled, HandlerCore, HandlerNext, Traffic.AtHome, FirstPut, Uploads.SentOnce, PutsTold, WritesNext;
    if h.PutWriting? && h.msg.key == k {
      assert forall other :: !WritesNext(j', k, other);
    } else {
      assert forall other :: WritesNext(j', k, other) <==> WritesNext(j, k, other);
    }
  }

  lemma DiskHandle(j: Job, id: nat, e: HandlerEvent, k: Key)
    requires Enabled(j, Handle(id, e)) && Traffic.AtHome(j, k) && (e.Io? ==> e.ok)
    ensures k in Next(j, Handle(id, e)).core.disk
    ensures var h := j.handlers[id];
      Next(j, Handle(id, e)).core.disk[k] == if h.PutWriting? && h.msg.key == k then h.msg.bytes else j.core.disk[k]
  {
    HandleOnly(j, id, e);
    assert Traffic.GetFor(j.handlers[id], k) ==> j.handlers[id].GetReading?;
    hide Next, Traffic.AtHome;
  }

  /** A write of k is under way after a handler's step as before, unless it was this one: a key has one
      writer. */
  lemma WritingHandle(j: Job, id: nat, e: HandlerEvent, k: Key)
    requires Enabled(j, Handle(id, e)) && Uploads.SentOnce(j)
    ensures var h := j.handlers[id];
      if h.PutWriting? && h.msg.key == k then forall other :: !WritesNext(Next(j, Handle(id, e)), k, other)
      else forall other :: WritesNext(Next(j, Handle(id, e)), k, other) <==> WritesNext(j, k, other)
    ensures j.handlers[id].PutWriting? && j.handlers[id].msg.key == k ==> WritesNext(j, k, id)
  {
    HandleOnly(j, id, e);
    var j', h := Next(j, Handle(id, e)), j.handlers[id];
    assert id in j'.handlers ==> !j'.handlers[id].PutWriting?;
    hide Next, HandlerNext, HandlerCore, Enabled;
    forall other | other != id ensures WritesNext(j', k, other) <==> WritesNext(j, k, other) {
    }
    if h.PutWriting? && h.msg.key == k {
      forall other | other != id && other in j.handlers && j.handlers[other].PutWriting?
        ensures j.handlers[other].msg.key != k
      {
        assert Uploads.Carrying(j.handlers[other]) && Uploads.Carrying(h);
      }
    }
  }

  lemma BodyStart(j: Job, trace: seq<Action>, id: nat, msg: Msg, k: Key, old_: Bytes, unpacked: set<Key>)
    requires Enabled(j, StartPut(id, msg)) && PutsTold(j, trace, unpacked) && BodyNow(j, trace, k, old_)
    ensures BodyNow(Next(j, StartPut(id, msg)), trace + [StartPut(id, msg)], k, old_)
  {
    var j' := Next(j, StartPut(id, msg));
    FirstPutMore(trace, StartPut(id, msg), k);
    Traffic.AtHomeStep(j, StartPut(id, msg), k);
    assert j'.core.disk == j.core.disk;
    hide FirstPut, Traffic.AtHome;
    assert msg.key in j.core.queued ==> j' == j;
    if msg.key !in j.core.queued {
      assert msg.key == k ==> WritesNext(j', k, id);
      assert forall other | other != id :: WritesNext(j', k, other) <==> WritesNext(j, k, other);
      assert msg.key != k ==> !WritesNext(j', k, id) && !WritesNext(j, k, id);
    }
  }

  lemma BodyStep(j: Job, trace: seq<Action>, a: Action, k: Key, old_: Bytes, unpacked: set<Key>)
    requires Enabled(j, a) && Live(j) && PutsTold(j, trace, unpacked) && BodyNow(j, trace, k, old_) && Uploads.SentOnce(j)
    requires a.Handle? && a.event.Io? ==> a.event.ok
    ensures BodyNow(Next(j, a), trace + [a], k, old_)
  {
    if a.Handle? {
      BodyHandle(j, trace, a.id, a.event, k, old_, unpacked);
    } else if a.StartPut? {
      BodyStart(j, trace, a.id, a.msg, k, old_, unpacked);
    } else {
      ToldParts(j, a);
      SameFirsts(trace, a);
      Traffic.AtHomeStep(j, a, k);
      var j' := Next(j, a);
      assert a.StartGet? ==> a.id !in j.handlers;
      hide FirstPut, Next, Enabled, Traffic.AtHome, Uploads.SentOnce, PutsTold;
      assert forall id :: WritesNext(j', k, id) <==> WritesNext(j, k, id);
    }
  }

  // -- the pack at the service ----------------------------------------------------------------

  /** The objects in the newest pack under a prefix. */
  function PackOf(service: seq<Msg>, prefix: Key): seq<Pack.Object> {
    match Newest(service, prefix)
    case Some(m) => (match Pack.Decoded(m.bytes) case Some(objects) => objects case None => [])
    case None => []
  }

  /** The body a container leaves on disk under k: that of the last record with this key. */
  function LastBody(objects: seq<Pack.Object>, k: Key): Option<Bytes> {
    if objects == [] then None
    else
      var o := objects[|objects| - 1];
      if o.key == k then Some(o.body) else LastBody(objects[..|objects| - 1], k)
  }

  lemma LastBodyMore(objects: seq<Pack.Object>, o: Pack.Object, k: Key)
    ensures LastBody(objects + [o], k) == if o.key == k then Some(o.body) else LastBody(objects, k)
  {
    assert (objects + [o])[..|objects|] == objects;
  }

  lemma {:induction false} LastBodyCons(o: Pack.Object, rest: seq<Pack.Object>, k: Key)
    ensures LastBody([o] + rest, k) ==
      if LastBody(rest, k).Some? then LastBody(rest, k) else if o.key == k then Some(o.body) else None
    decreases |rest|
  {
    if rest == [] {
      assert [o] + rest == [o];
      assert [o][..0] == [];
    } else {
      var init := rest[..|rest| - 1];
      assert [o] + rest == ([o] + init) + [rest[|rest| - 1]];
      LastBodyMore([o] + init, rest[|rest| - 1], k);
      LastBodyCons(o, init, k);
    }
  }

  lemma {:induction false} UnpackLast(c: Core, objects: seq<Pack.Object>, wrote: seq<bool>, k: Key)
    requires |wrote| == |objects| && forall w | w in wrote :: w
    ensures var c' := Unpack(c, objects, wrote);
      match LastBody(objects, k) {
        case Some(body) => k in c'.disk && c'.disk[k] == body
        case None => k in c'.disk <==> k in c.disk }
    decreases |objects|
  {
    if objects != [] {
      var o := objects[0];
      var next := c.(disk := c.disk[o.key := o.body], packed := c.packed + {o.key});
      assert wrote[0] in wrote && forall w | w in wrote[1..] :: w in wrote;
      assert Unpack(c, objects, wrote) == Unpack(next, objects[1..], wrote[1..]);
      UnpackLast(next, objects[1..], wrote[1..], k);
      assert objects == [o] + objects[1..];
      LastBodyCons(o, objects[1..], k);
      if LastBody(objects[1..], k) == None && o.key == k {
        UnpackNone(next, objects[1..], wrote[1..], k);
      }
    }
  }

  lemma {:induction false} UnpackNone(c: Core, objects: seq<Pack.Object>, wrote: seq<bool>, k: Key)
    requires |wrote| == |objects| && LastBody(objects, k) == None && k in c.disk
    ensures k in Unpack(c, objects, wrote).disk && Unpack(c, objects, wrote).disk[k] == c.disk[k]
    decreases |objects|
  {
    if objects != [] {
      var o := objects[0];
      assert objects == [o] + objects[1..];
      LastBodyCons(o, objects[1..], k);
      var next := if wrote[0] then c.(disk := c.disk[o.key := o.body], packed := c.packed + {o.key}) else c;
      UnpackNone(next, objects[1..], wrote[1..], k);
    }
  }

  lemma PackOfAppend(service: seq<Msg>, m: Msg, prefix: Key)
    ensures PackOf(service + [m], prefix) == if prefix <= m.key then PackOf([m], prefix) else PackOf(service, prefix)
  {
    NewestAppend(service, m, prefix);
    NewestAppend([], m, prefix);
    assert [] + [m] == [m];
    hide Pack.Decoded, Newest;
  }

  /** Where a re-put key is between the disk and the service; `found` is the pack the run unpacked. */
  ghost predicate RepackAt(s: Scene, k: Key, found: seq<Pack.Object>, body: Bytes) {
    var j, now := s.job, PackOf(s.service, PackPrefix(s.job.cfg));
    match j.phase
    case Packing(todo, got) => j.core.packDirty && (k in todo || LastBody(got, k) == Some(body))
    case SavingPack(got, _, put) =>
      && j.core.packDirty && LastBody(got, k) == Some(body)
      && |Pack.MAGIC| + Pack.Total(got) <= j.cfg.packLimit && (put == Back(Stored) ==> now == got)
    case Finished => if j.core.packDirty then LastBody(now, k) == Some(body) else now == found
    case _ => now == found
  }

  /** The newest pack after a step that saves none. */
  lemma PackOfStays(s: Scene, a: Action)
    requires Can(s, Ours(a)) && Known(s.job) && !(a.Flush? && a.step.Save? && s.job.phase.SavingPack?)
    ensures PackOf(Then(s, Ours(a)).service, PackPrefix(s.job.cfg)) == PackOf(s.service, PackPrefix(s.job.cfg))
  {
    match Landed(s.job, a)
    case None => assert s.service + [] == s.service;
    case Some(m) =>
      OnlyPacksLandThere(s.job, a);
      PackOfAppend(s.service, m, PackPrefix(s.job.cfg));
  }

  /** A pack that fits is read back as it was. */
  lemma PackOfSaved(prefix: string, puts: set<Msg>, got: seq<Pack.Object>, max: nat, name: Key, under: Key)
    requires World.PutsGenuine(prefix, puts) && World.AllPut(got, puts)
    requires |Pack.MAGIC| + Pack.Total(got) <= max && under <= name
    ensures PackOf([Msg(name, Pack.Encoded(got, max))], under) == got
  {
    hide Pack.Decoded, Pack.Encoded, Pack.Narrow, Pack.Total;
    Pack.KeepAll(got, |Pack.MAGIC|, max);
    forall o | o in got ensures Pack.Narrow(o) {
      assert Msg(o.key, o.body) in puts && Pack.Object(o.key, o.body) == o;
    }
    Pack.RoundTrip(got, max);
    NewestAppend([], Msg(name, Pack.Encoded(got, max)), under);
    assert [] + [Msg(name, Pack.Encoded(got, max))] == [Msg(name, Pack.Encoded(got, max))];
  }

  lemma RepackSave(puts: set<Msg>, s: Scene, e: PutEvent, k: Key, found: seq<Pack.Object>, body: Bytes)
    requires Can(s, Ours(Flush(Save(e)))) && s.job.phase.SavingPack? && RepackAt(s, k, found, body) && Backed(s, puts)
    ensures RepackAt(Then(s, Ours(Flush(Save(e)))), k, found, body)
  {
    var j, s' := s.job, Then(s, Ours(Flush(Save(e))));
    assert World.PutsGenuine(j.cfg.prefix, puts) && World.PhaseGenuine(j.cfg, j.phase, puts) by {
      assert World.Genuine(map[0 := j][0], puts);
      hide World.PutsGenuine, World.PhaseGenuine, World.EntryGenuine;
    }
    assert s'.job.phase == SavingPack(j.phase.got, j.phase.name, Advance(j.phase.put, j.core.exhausted, e));
    assert s'.job.core.packDirty == j.core.packDirty && s'.job.cfg == j.cfg;
    assert PackPrefix(j.cfg) <= j.phase.name && World.AllPut(j.phase.got, puts);
    if s'.job.phase.put == Back(Stored) {
      assert Lands(e);
      var m := Msg(j.phase.name, Pack.Encoded(j.phase.got, j.cfg.packLimit));
      hide Backed, Pack.Encoded, Pack.Decoded, World.PutsGenuine, World.AllPut, PackPrefix, Next, Enabled, LastBody, PackOf;
      assert s'.service == s.service + [m];
      PackOfAppend(s.service, m, PackPrefix(j.cfg));
      PackOfSaved(j.cfg.prefix, puts, j.phase.got, j.cfg.packLimit, j.phase.name, PackPrefix(j.cfg));
    }
  }

  lemma RepackRead(s: Scene, e: FlushEvent, k: Key, found: seq<Pack.Object>, body: Bytes)
    requires Can(s, Ours(Flush(e))) && e.ReadNext? && e.ok && RepackAt(s, k, found, body)
    requires k in s.job.core.disk && s.job.core.disk[k] == body
    ensures RepackAt(Then(s, Ours(Flush(e))), k, found, body)
  {
    hide Pack.Decoded, PackOf;
    var key := s.job.phase.todo[0];
    assert s.job.phase.todo == [key] + s.job.phase.todo[1..];
    if key in s.job.core.disk {
      LastBodyMore(s.job.phase.got, Pack.Object(key, s.job.core.disk[key]), k);
    }
  }

  lemma RepackMove(s: Scene, e: FlushEvent, k: Key, found: seq<Pack.Object>, body: Bytes)
    requires Can(s, Ours(Flush(e))) && Tidy(s, Flush(e)) && Known(s.job) && RepackAt(s, k, found, body) && s.job.cfg.service
    requires !e.ReadNext? && !(e.Save? && s.job.phase.SavingPack?) && k in s.job.core.packed && Unclaimed(s)
    ensures RepackAt(Then(s, Ours(Flush(e))), k, found, body)
  {
    hide Known, PackOf, Next, Landed, Pack.Encoded, Pack.Decoded, PackPrefix, LastBody;
    PackOfStays(s, Flush(e));
    FlushParts(s.job, e);
    if e.Gather? && s.job.core.packDirty {
      assert k in set x | x in e.names;
    }
    if e.Ship? {
      NoBody(k);
    }
  }

  lemma NoBody(k: Key)
    ensures LastBody([], k) == None
  {
  }

  lemma RepackRest(s: Scene, a: Action, k: Key, found: seq<Pack.Object>, body: Bytes)
    requires Can(s, Ours(a)) && !a.Flush? && Live(s.job) && Known(s.job) && RepackAt(s, k, found, body)
    requires Next(s.job, a).core.packDirty == s.job.core.packDirty || (!s.job.phase.Finished? && !s.job.core.packDirty)
    ensures RepackAt(Then(s, Ours(a)), k, found, body)
  {
    hide Next, Enabled, Landed, Known, PackOf, LastBody, PackPrefix, Live;
    PackOfStays(s, a);
    World.SameConfig(s.job, a);
    SamePhase(s.job, a);
  }

  // -- a whole run ----------------------------------------------------------------------------

  /** What is under k at the end of a run's requests: its first put, if there was one. */
  function BodyOf(trace: seq<Action>, k: Key, old_: Bytes): Bytes {
    match FirstPut(trace, k) case Some(m) => m.bytes case None => old_
  }

  /** A run that unpacked `found`, with `old_` under k, and has since taken the steps of `trace`. */
  ghost predicate Going(puts: set<Msg>, s: Scene, trace: seq<Action>, first: set<Key>, unpacked: set<Key>,
                        found: seq<Pack.Object>, k: Key, old_: Bytes) {
    && Ready(puts, s, first) && Live(s.job) && k in unpacked
    && FlagExact(s.job, unpacked) && PutsTold(s.job, trace, unpacked) && BodyNow(s.job, trace, k, old_)
    && RepackAt(s, k, found, BodyOf(trace, k, old_))
  }

  lemma QuietBody(j: Job, trace: seq<Action>, k: Key, old_: Bytes)
    requires BodyNow(j, trace, k, old_) && Calm(j) && SecondRun.Closing(j)
    ensures k in j.core.disk && j.core.disk[k] == BodyOf(trace, k, old_)
  {
    assert forall id :: !WritesNext(j, k, id);
    hide FirstPut;
  }

  lemma RepackFlush(puts: set<Msg>, s: Scene, trace: seq<Action>, e: FlushEvent, first: set<Key>, unpacked: set<Key>,
                    found: seq<Pack.Object>, k: Key, old_: Bytes)
    requires Going(puts, s, trace, first, unpacked, found, k, old_) && Smooth(Storing, puts, s, Ours(Flush(e)))
    ensures RepackAt(Then(s, Ours(Flush(e))), k, found, BodyOf(trace, k, old_))
  {
    hide Known, Backed, PackExact, Landings, Filed, IndexAt, AllClean, Honest, RepackAt, Then, PutsTold, BodyOf, FirstPut;
    if e.ReadNext? {
      QuietBody(s.job, trace, k, old_);
      RepackRead(s, e, k, found, BodyOf(trace, k, old_));
    } else if e.Save? && s.job.phase.SavingPack? {
      RepackSave(puts, s, e.e, k, found, BodyOf(trace, k, old_));
    } else {
      RepackMove(s, e, k, found, BodyOf(trace, k, old_));
    }
  }

  /** The pack's flag rises only in a put, and only while the run serves. */
  lemma FlagRises(j: Job, a: Action)
    requires Enabled(j, a) && Live(j) && Calm(j) && !a.Flush?
    ensures Next(j, a).core.packDirty == j.core.packDirty || (!SecondRun.Closing(j) && !j.core.packDirty)
  {
    if a.Handle? {
      HandleOnly(j, a.id, a.event);
    } else {
      FlagParts(j, a);
    }
  }

  lemma RepackOther(puts: set<Msg>, s: Scene, trace: seq<Action>, a: Action, first: set<Key>, unpacked: set<Key>,
                    found: seq<Pack.Object>, k: Key, old_: Bytes)
    requires Going(puts, s, trace, first, unpacked, found, k, old_) && Smooth(Storing, puts, s, Ours(a)) && !a.Flush?
    ensures RepackAt(Then(s, Ours(a)), k, found, BodyOf(trace + [a], k, old_))
  {
    FlagRises(s.job, a);
    FirstPutMore(trace, a, k);
    assert a.StartPut? ==> s.job.phase.Serving?;
    assert BodyOf(trace + [a], k, old_) == BodyOf(trace, k, old_) || s.job.phase.Serving?;
    assert RepackAt(s, k, found, BodyOf(trace + [a], k, old_)) by {
      hide PackOf, LastBody, FirstPut, Ready, PutsTold, BodyNow, FlagExact;
    }
    hide Known, Backed, PackExact, Landings, Filed, IndexAt, AllClean, Honest, RepackAt, Then, PutsTold, BodyOf, Next;
    RepackRest(s, a, k, found, BodyOf(trace + [a], k, old_));
  }

  lemma GoingOurs(puts: set<Msg>, s: Scene, trace: seq<Action>, a: Action, first: set<Key>, unpacked: set<Key>,
                  found: seq<Pack.Object>, k: Key, old_: Bytes)
    requires Going(puts, s, trace, first, unpacked, found, k, old_) && Smooth(Storing, puts, s, Ours(a))
    ensures Going(puts, Then(s, Ours(a)), trace + [a], first, unpacked, found, k, old_)
  {
    SmoothIo(puts, s, a);
    ReadySent(puts, s, first);
    FirstPutMore(trace, a, k);
    hide Smooth, Ready, Known, FlagExact, PutsTold, BodyNow, RepackAt, Next, FirstPut;
    ReadyOurs(puts, s, a, first);
    Drain.StaysLive(s.job, a);
    FlagStep(s.job, a, unpacked);
    ToldStep(s.job, trace, a, unpacked);
    BodyStep(s.job, trace, a, k, old_, unpacked);
    if a.Flush? {
      RepackFlush(puts, s, trace, a.step, first, unpacked, found, k, old_);
    } else {
      RepackOther(puts, s, trace, a, first, unpacked, found, k, old_);
    }
  }

  lemma SmoothIo(puts: set<Msg>, s: Scene, a: Action)
    requires Smooth(Storing, puts, s, Ours(a))
    ensures Can(s, Ours(a)) && (a.Handle? && a.event.Io? ==> a.event.ok)
  {
  }

  lemma ReadySent(puts: set<Msg>, s: Scene, first: set<Key>)
    requires Ready(puts, s, first)
    ensures Uploads.SentOnce(s.job)
  {
    hide Backed, PackExact, Landings, Filed, IndexAt, AllClean, Uploads.SentOnce;
  }

  lemma GoingTheirs(puts: set<Msg>, s: Scene, trace: seq<Action>, m: Msg, first: set<Key>, unpacked: set<Key>,
                    found: seq<Pack.Object>, k: Key, old_: Bytes)
    requires Going(puts, s, trace, first, unpacked, found, k, old_) && Smooth(Storing, puts, s, Theirs(m))
    ensures Going(puts, Then(s, Theirs(m)), trace, first, unpacked, found, k, old_)
  {
    ReadyTheirs(puts, s, m, first);
    PackOfAppend(s.service, m, PackPrefix(s.job.cfg));
    hide Ready, FlagExact, PutsTold, BodyNow, PackOf, LastBody, BodyOf;
  }

  lemma {:induction false} GoingAlways(puts: set<Msg>, start: Scene, rest: seq<Beat>, s: Scene, first: set<Key>,
                                       unpacked: set<Key>, found: seq<Pack.Object>, k: Key, old_: Bytes)
    requires Going(puts, start, [], first, unpacked, found, k, old_)
    requires Play(start, rest) == Some(s) && Throughout(Storing, puts, start, rest)
    ensures Going(puts, s, Own(rest), first, unpacked, found, k, old_)
    decreases |rest|
  {
    if rest != [] {
      hide Going, Smooth, Can, Then;
      var before, b := Play(start, rest[..|rest| - 1]).value, rest[|rest| - 1];
      GoingAlways(puts, start, rest[..|rest| - 1], before, first, unpacked, found, k, old_);
      match b
      case Ours(a) => GoingOurs(puts, before, Own(rest[..|rest| - 1]), a, first, unpacked, found, k, old_);
      case Theirs(m) => GoingTheirs(puts, before, Own(rest[..|rest| - 1]), m, first, unpacked, found, k, old_);
    }
  }

  lemma {:induction false} UnpackPacked(c: Core, objects: seq<Pack.Object>, wrote: seq<bool>, k: Key)
    requires |wrote| == |objects| && (forall w | w in wrote :: w) && (LastBody(objects, k).Some? || k in c.packed)
    ensures k in Unpack(c, objects, wrote).packed
    decreases |objects|
  {
    if objects != [] {
      var o := objects[0];
      var next := c.(disk := c.disk[o.key := o.body], packed := c.packed + {o.key});
      assert wrote[0] in wrote && forall w | w in wrote[1..] :: w in wrote;
      assert Unpack(c, objects, wrote) == Unpack(next, objects[1..], wrote[1..]);
      assert objects == [o] + objects[1..];
      LastBodyCons(o, objects[1..], k);
      UnpackPacked(next, objects[1..], wrote[1..], k);
    }
  }

  /** The disk and the packed set after the unpacking step, and the pack it read. */
  lemma Unpacks(puts: set<Msg>, s: Scene, load: Action, k: Key)
    requires Can(s, Ours(load)) && Honest(puts, s, Ours(load)) && load.LoadPack? && s.job.cfg.service && !s.job.core.exhausted
    ensures PackObjects(s.job, load.reply) == PackOf(s.service, PackPrefix(s.job.cfg))
    ensures var found, c' := PackObjects(s.job, load.reply), Next(s.job, load).core;
      LastBody(found, k).Some? ==> k in c'.disk && c'.disk[k] == LastBody(found, k).value && k in c'.packed
  {
    var j := s.job;
    var c, objects := Latch(j.core, CallsNow(j) && load.reply.Limited?), PackObjects(j, load.reply);
    UnpackLast(c, objects, load.wrote, k);
    if LastBody(objects, k).Some? {
      UnpackPacked(c, objects, load.wrote, k);
    }
    hide Unpack, LastBody, Pack.Decoded, Newest, AfterFetch;
  }

  lemma LoadedParts(puts: set<Msg>, s: Scene, load: Action, k: Key)
    requires Can(s, Ours(load)) && Honest(puts, s, Ours(load)) && load.LoadPack? && s.job.cfg.service && !s.job.core.exhausted
    requires s.job.handlers == map[] && s.job.core.queued == {} && !s.job.core.packDirty
    requires LastBody(PackObjects(s.job, load.reply), k).Some?
    ensures var start, found := Then(s, Ours(load)), PackObjects(s.job, load.reply);
      var unpacked, old_ := start.job.core.packed, LastBody(found, k).value;
      && Live(start.job) && k in unpacked && FlagExact(start.job, unpacked) && PutsTold(start.job, [], unpacked)
      && BodyNow(start.job, [], k, old_) && RepackAt(start, k, found, BodyOf([], k, old_))
  {
    Unpacks(puts, s, load, k);
    hide LastBody, PackOf, PackObjects, PackRead, Unpack, Honest;
    assert s.service + [] == s.service;
    assert forall x :: FirstPut([], x) == None;
    var start := Then(s, Ours(load));
    assert start.job.phase.Serving? && start.job.handlers == map[] && start.job.cfg == s.job.cfg;
  }

  /** The step that unpacks, and what the run stands on then. */
  lemma GoingFirst(puts: set<Msg>, cfg: Config, service: seq<Msg>, boot: seq<Beat>, before: Scene, load: Action, k: Key)
    requires Booted(puts, cfg, service, boot, before, load)
    requires LastBody(PackObjects(before.job, load.reply), k).Some?
    ensures var start, found := Then(before, Ours(load)), PackObjects(before.job, load.reply);
      Going(puts, start, [], ManifestOf(service, IndexPrefix(cfg)), start.job.core.packed, found, k, LastBody(found, k).value)
  {
    var start, found, first := Then(before, Ours(load)), PackObjects(before.job, load.reply), ManifestOf(service, IndexPrefix(cfg));
    ReadyAlways(puts, cfg, service, boot, before);
    PlayIsExec(Scene(service, Fresh(cfg)), boot, before);
    CleanBeforeServing(cfg, Own(boot), before.job);
    hide Play, Exec, Throughout, Ready, ManifestOf, LastBody, Own;
    ReadyOurs(puts, before, load, first);
    LoadedParts(puts, before, load, k);
  }

  /** A run as far as its unpacking, as the storing run of the second-run theorem has it. */
  ghost predicate Booted(puts: set<Msg>, cfg: Config, service: seq<Msg>, boot: seq<Beat>, before: Scene, load: Action) {
    && cfg.service && '\n' !in cfg.prefix && AllClean(ManifestOf(service, IndexPrefix(cfg)))
    && World.Sound(cfg.prefix, World.World(service, map[], puts))
    && Play(Scene(service, Fresh(cfg)), boot) == Some(before) && Throughout(Storing, puts, Scene(service, Fresh(cfg)), boot)
    && Smooth(Storing, puts, before, Ours(load)) && load.LoadPack?
  }

  /** What such a run leaves: whether it packed anything new, and which body of k is in the newest pack. */
  lemma RunLeaves(puts: set<Msg>, s: Scene, trace: seq<Action>, first: set<Key>, unpacked: set<Key>,
                  found: seq<Pack.Object>, k: Key, old_: Bytes)
    requires Going(puts, s, trace, first, unpacked, found, k, old_) && s.job.phase.Finished?
    requires LastBody(found, k) == Some(old_)
    ensures var grew := exists x :: x !in unpacked && Small(s.job.cfg, FirstPut(trace, x));
      LastBody(PackOf(s.service, PackPrefix(s.job.cfg)), k) == Some(if grew then BodyOf(trace, k, old_) else old_)
  {
    ReadyCalm(puts, s, first);
    hide Ready, PackOf, LastBody, BodyOf, BodyNow, Small;
    assert forall id :: !Flagger(s.job, id);
    assert s.job.core.packDirty <==> s.job.core.packed != unpacked;
    hide FirstPut;
    GrewExactly(s.job, trace, unpacked);
  }

  lemma ReadyCalm(puts: set<Msg>, s: Scene, first: set<Key>)
    requires Ready(puts, s, first) && s.job.phase.Finished?
    ensures forall id | id in s.job.handlers :: !SecondRun.Putting(s.job.handlers[id])
  {
    hide Known, Backed, PackExact, Landings, Filed, IndexAt, AllClean;
  }

  lemma GrewExactly(j: Job, trace: seq<Action>, unpacked: set<Key>)
    requires PutsTold(j, trace, unpacked) && forall id | id in j.handlers :: !SecondRun.Putting(j.handlers[id])
    ensures j.core.packed != unpacked <==> exists x :: x !in unpacked && Small(j.cfg, FirstPut(trace, x))
  {
    hide FirstPut;
    if j.core.packed != unpacked {
      var x :| x in j.core.packed && x !in unpacked;
      assert Small(j.cfg, FirstPut(trace, x));
    }
  }

  /** An object put under a key that came out of the pack, with whatever bytes. Let a run unpack the
      newest pack, with `old_` under k in it, and go on as in the second-run theorem to its end. Then
      what the next run of the scope unpacks under k is the bytes of the first put of k, if some small
      object under a key that was not in the pack was put as well; and if none was, it is `old_` again,
      whatever was put under k. */
  lemma RePutComesBack(puts: set<Msg>, cfg: Config, service: seq<Msg>, boot: seq<Beat>, before: Scene, load: Action,
                       rest: seq<Beat>, end: Scene, k: Key, next: Scene, reload: Action)
    requires Booted(puts, cfg, service, boot, before, load)
    requires LastBody(PackObjects(before.job, load.reply), k).Some?
    requires Play(Then(before, Ours(load)), rest) == Some(end) && Throughout(Storing, puts, Then(before, Ours(load)), rest)
    requires end.job.phase.Finished?
    requires next.job.cfg.service && next.job.cfg.prefix == cfg.prefix && next.job.cfg.scope == cfg.scope
    requires Newest(next.service, PackPrefix(cfg)) == Newest(end.service, PackPrefix(cfg)) && !next.job.core.exhausted
    requires Can(next, Ours(reload)) && Honest(puts, next, Ours(reload)) && reload.LoadPack?
    ensures var old_ := LastBody(PackObjects(before.job, load.reply), k).value;
      var unpacked, trace := Next(before.job, load).core.packed, Own(rest);
      var grew := exists x :: x !in unpacked && Small(cfg, FirstPut(trace, x));
      var disk := Next(next.job, reload).core.disk;
      k in disk && disk[k] == if grew then BodyOf(trace, k, old_) else old_
  {
    var found := PackObjects(before.job, load.reply);
    var old_, start, first := LastBody(found, k).value, Then(before, Ours(load)), ManifestOf(service, IndexPrefix(cfg));
    hide *;
    GoingFirst(puts, cfg, service, boot, before, load, k);
    GoingAlways(puts, start, rest, end, first, start.job.core.packed, found, k, old_);
    RunLeaves(puts, end, Own(rest), first, start.job.core.packed, found, k, old_);
    Unpacks(puts, next, reload, k);
    SamePack(puts, cfg, service, boot, before, load, rest, end, next);
    ThenJob(before, load);
  }

  lemma ThenJob(s: Scene, a: Action)
    requires Can(s, Ours(a))
    ensures Then(s, Ours(a)).job == Next(s.job, a)
  {
    hide Next, Landed, Enabled;
  }

  lemma {:induction false} PlayKeepsConfig(start: Scene, beats: seq<Beat>, s: Scene)
    requires Play(start, beats) == Some(s)
    ensures s.job.cfg == start.job.cfg
    decreases |beats|
  {
    if beats != [] {
      hide Enabled, Next;
      var before, b := Play(start, beats[..|beats| - 1]).value, beats[|beats| - 1];
      PlayKeepsConfig(start, beats[..|beats| - 1], before);
      SameScene(before, b);
    }
  }

  /** The next run's pack is this one's. */
  lemma SamePack(puts: set<Msg>, cfg: Config, service: seq<Msg>, boot: seq<Beat>, before: Scene, load: Action,
                 rest: seq<Beat>, end: Scene, next: Scene)
    requires Booted(puts, cfg, service, boot, before, load) && Play(Then(before, Ours(load)), rest) == Some(end)
    requires next.job.cfg.prefix == cfg.prefix && next.job.cfg.scope == cfg.scope
    requires Newest(next.service, PackPrefix(cfg)) == Newest(end.service, PackPrefix(cfg))
    ensures before.job.cfg == cfg && end.job.cfg == cfg && Can(before, Ours(load))
    ensures PackOf(next.service, PackPrefix(next.job.cfg)) == PackOf(end.service, PackPrefix(end.job.cfg))
  {
    PlayKeepsConfig(Scene(service, Fresh(cfg)), boot, before);
    SmoothIo(puts, before, load);
    SameScene(before, Ours(load));
    PlayKeepsConfig(Then(before, Ours(load)), rest, end);
    assert PackPrefix(next.job.cfg) == PackPrefix(cfg);
    hide Play, Newest, Pack.Decoded, Throughout, Smooth, PackPrefix, World.Sound, AllClean, ManifestOf;
  }
}
