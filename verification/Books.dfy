/** The request counters and the uploader's, over a whole run. */
module Books {
  import opened Base
  import Gha
  import opened Job
  import opened Stats
  import Ascii
  import Drain
  import Requests
  import Uploads

  lemma {:induction false} DistinctKeys(sent: seq<Msg>, keys: set<Key>)
    requires forall i, k | 0 <= i < k < |sent| :: sent[i].key != sent[k].key
    requires forall m | m in sent :: m.key in keys
    ensures |sent| <= |keys|
  {
    if sent != [] {
      var n := |sent| - 1;
      assert sent[n] in sent;
      DistinctKeys(sent[..n], keys - {sent[n].key});
    }
  }

  lemma SentWithinQueued(j: Job)
    requires Uploads.Invariant(j)
    ensures |j.log.sent| <= |j.core.queued|
  {
    hide Uploads.Early, Uploads.Queue, Uploads.Tasks, Uploads.IndexExact, Uploads.DirtyExact;
    DistinctKeys(j.log.sent, j.core.queued);
  }

  /** In any history, at any moment: the uploads that succeeded and those that failed are together no
      more than the requests that are storing or were noted as stored. Once no request is open and none
      half counted, they are no more than the responses recorded as stored, and those no more than the
      misses. */
  lemma UploadsWithinStored(sh: Requests.Shared, events: seq<Requests.Event>, s: Requests.System, run: nat)
    requires Requests.Run(sh, events) == Some(s) && run in s.sites
    ensures run in s.world.jobs
    ensures var site, n := s.sites[run], s.world.jobs[run].counters;
      && n.entriesStored + n.uploadsFailed <=
           |Requests.StoringIds(site.open)| + Tally(site.ledger.notes, StoredOnes)
      && (site.open == map[] && Idle(site.ledger) && site.arrived < Ascii.U64 ==>
            n.entriesStored + n.uploadsFailed <= site.ledger.counters.stored <= site.ledger.counters.misses)
  {
    hide *;
    Requests.AlwaysLawful(sh, events, s);
    Requests.LawfulAt(sh, s, run);
    Requests.SiteParts(sh, s.sites[run], s.world.jobs[run]);
    WithinStored(s.sites[run], s.world.jobs[run]);
  }

  lemma WithinStored(site: Requests.Site, j: Job)
    requires Requests.Counted(site, j) && Uploads.Invariant(j) && Drain.CountsExact(j)
    ensures j.counters.entriesStored + j.counters.uploadsFailed <=
      |Requests.StoringIds(site.open)| + Tally(site.ledger.notes, StoredOnes)
    ensures site.open == map[] && Idle(site.ledger) && site.arrived < Ascii.U64 ==>
      j.counters.entriesStored + j.counters.uploadsFailed <= site.ledger.counters.stored <= site.ledger.counters.misses
  {
    hide Count, Uploads.Invariant, Drain.CountsExact, Tally, Idle;
    Drain.CountedWithinSent(j);
    SentWithinQueued(j);
    if site.open == map[] && Idle(site.ledger) && site.arrived < Ascii.U64 {
      assert Requests.StoringIds(site.open) == {};
      Conservation(site.moves, site.ledger);
      assert Get(site.ledger.counters, StoredOnes) == Tally(site.ledger.notes, StoredOnes);
    }
  }

  // -- two ways of counting uploads -----------------------------------------------------------

  /** What a step of the run reports to the counters: each upload that came back stored or failed, and
      the pack once it was taken. */
  function Told(s: Summary, j: Job, a: Action): Summary
    requires Enabled(j, a)
  {
    match a
    case Upload(id, _) =>
      (match j.tasks[id].stage
       case Putting(Back(result)) =>
         if result == Gha.PutResult.Stored then Uploaded(s, |j.tasks[id].msg.bytes|, true)
         else if result == Gha.PutResult.Failed then Uploaded(s, 0, false)
         else s
       case _ => s)
    case Flush(SaveDone) =>
      if j.phase.SavingPack? && j.phase.put.result != Gha.PutResult.Failed
      then s.(packed := |j.phase.got|, packedBytes := |SaveBody(j.cfg, j.phase)|) else s
    case _ => s
  }

  ghost function Heard(cfg: Config, trace: seq<Action>): Summary {
    if trace == [] then ZERO
    else
      var s := Heard(cfg, trace[..|trace| - 1]);
      match Exec(Fresh(cfg), trace[..|trace| - 1])
      case Some(j) => (if Enabled(j, trace[|trace| - 1]) then Told(s, j, trace[|trace| - 1]) else s)
      case None => s
  }

  /** The counters are those of the machine, modulo 2^64. */
  predicate Mirrors(s: Summary, n: Counters) {
    && s.entriesStored == n.entriesStored % Ascii.U64 && s.uploadsFailed == n.uploadsFailed % Ascii.U64
    && s.packed == n.packed
  }

  lemma MirrorStep(s: Summary, j: Job, a: Action)
    requires Enabled(j, a) && Mirrors(s, j.counters)
    ensures Mirrors(Told(s, j, a), Next(j, a).counters)
  {
    Modular(j.counters.entriesStored, 1);
    Modular(j.counters.uploadsFailed, 1);
    hide Plus, HandlerCore, HandlerNext, FlushCore, FlushPhase, TaskNext, TaskCore, IndexRead, PackRead, SaveBody;
  }

  /** The bytes of the messages of these numbers. */
  function Size(sent: seq<Msg>, ids: set<nat>): nat {
    if sent == [] then 0
    else
      var n := |sent| - 1;
      Size(sent[..n], ids) + if n in ids then |sent[n].bytes| else 0
  }

  lemma {:induction false} SizeOfMore(sent: seq<Msg>, ids: set<nat>, id: nat)
    requires id < |sent| && id !in ids
    ensures Size(sent, ids + {id}) == Size(sent, ids) + |sent[id].bytes|
  {
    var n := |sent| - 1;
    if id < n {
      SizeOfMore(sent[..n], ids, id);
    } else {
      SizeSame(sent[..n], ids, ids + {id});
    }
  }

  lemma {:induction false} SizeSame(sent: seq<Msg>, ids: set<nat>, others: set<nat>)
    requires forall i: nat | i < |sent| :: i in ids <==> i in others
    ensures Size(sent, ids) == Size(sent, others)
  {
    if sent != [] {
      SizeSame(sent[..|sent| - 1], ids, others);
    }
  }

  lemma SizeOfSent(sent: seq<Msg>, m: Msg, ids: set<nat>)
    requires |sent| !in ids
    ensures Size(sent + [m], ids) == Size(sent, ids)
  {
    assert (sent + [m])[..|sent|] == sent;
  }

  /** The bytes reported are those of the uploads stored and counted so far, modulo 2^64. */
  ghost predicate Weighed(s: Summary, j: Job) {
    s.bytesUploaded == Size(j.log.sent, Drain.CountedIds(j, Gha.PutResult.Stored)) % Ascii.U64
  }

  /** What an upload's step reports. */
  lemma ToldBytes(s: Summary, j: Job, id: nat, e: TaskEvent)
    requires Enabled(j, Upload(id, e))
    ensures Told(s, j, Upload(id, e)).bytesUploaded ==
      if j.tasks[id].stage == Putting(Gha.Back(Gha.PutResult.Stored))
      then Plus(s.bytesUploaded, |j.tasks[id].msg.bytes|) else s.bytesUploaded
  {
    hide Plus;
  }

  lemma UploadOf(j: Job, id: nat, e: TaskEvent)
    requires Enabled(j, Upload(id, e)) && Uploads.Tasks(j)
    ensures id < |j.log.sent| && j.log.sent[id] == j.tasks[id].msg
  {
  }

  lemma WeighedUpload(s: Summary, j: Job, id: nat, e: TaskEvent)
    requires Enabled(j, Upload(id, e)) && Weighed(s, j) && Uploads.Tasks(j)
    ensures Weighed(Told(s, j, Upload(id, e)), Next(j, Upload(id, e)))
  {
    var stored, t, a := Gha.PutResult.Stored, j.tasks[id], Upload(id, e);
    var ids, j' := Drain.CountedIds(j, stored), Next(j, a);
    hide Next, Enabled, Uploads.Tasks, Drain.CountedIds, Size, Told, Plus;
    UploadOf(j, id, e);
    SentByUpload(j, id, e);
    ToldBytes(s, j, id, e);
    Drain.CountedUpload(j, id, e, stored);
    if t.stage == Putting(Gha.Back(stored)) {
      SizeOfMore(j.log.sent, ids, id);
      Modular(Size(j.log.sent, ids), |t.msg.bytes|);
    }
  }

  lemma ToldRest(s: Summary, j: Job, a: Action)
    requires Enabled(j, a) && !a.Upload?
    ensures Told(s, j, a).bytesUploaded == s.bytesUploaded
  {
    hide Enabled, SaveBody;
  }

  /** Other steps count no upload. */
  lemma CountedRest(j: Job, a: Action)
    requires Enabled(j, a) && !a.Upload? && j.log.spawned !in j.log.results
    ensures Drain.CountedIds(Next(j, a), Gha.PutResult.Stored) == Drain.CountedIds(j, Gha.PutResult.Stored)
  {
    var j', r := Next(j, a), Gha.PutResult.Stored;
    Drain.CountersQuiet(j, a);
    hide Next, Enabled;
    assert forall i :: Drain.Counted(j', i, r) <==> Drain.Counted(j, i, r);
  }

  lemma ResultsWithinSent(j: Job)
    requires Uploads.Invariant(j)
    ensures forall i | i in j.log.results :: i < j.log.spawned <= |j.log.sent|
  {
    hide Uploads.SentOnce, Uploads.IndexExact, Uploads.DirtyExact;
  }

  lemma WeighedRest(s: Summary, j: Job, a: Action)
    requires Enabled(j, a) && !a.Upload? && Weighed(s, j) && Uploads.Invariant(j)
    ensures Weighed(Told(s, j, a), Next(j, a))
  {
    var ids := Drain.CountedIds(j, Gha.PutResult.Stored);
    ResultsWithinSent(j);
    assert |j.log.sent| !in ids && j.log.spawned !in j.log.results;
    hide Next, Enabled, Told, Drain.CountedIds, Size, Uploads.Invariant;
    ToldRest(s, j, a);
    CountedRest(j, a);
    SentMore(j, a);
    if Next(j, a).log.sent != j.log.sent {
      var m :| Next(j, a).log.sent == j.log.sent + [m];
      SizeOfSent(j.log.sent, m, ids);
    }
  }

  lemma SentMore(j: Job, a: Action)
    requires Enabled(j, a)
    ensures var j' := Next(j, a);
      j'.log.sent == j.log.sent || (a.Handle? && exists m :: j'.log.sent == j.log.sent + [m])
  {
    hide HandlerCore, HandlerNext, FlushCore, FlushPhase, TaskNext, TaskCore, IndexRead, PackRead, NoteTask;
    if a.Handle? && j.handlers[a.id].PutSending? {
      assert Next(j, a).log.sent == j.log.sent + [j.handlers[a.id].msg];
    } else if a.Upload? {
      SentByUpload(j, a.id, a.what);
    }
  }

  lemma SentByUpload(j: Job, id: nat, e: TaskEvent)
    requires Enabled(j, Upload(id, e))
    ensures Next(j, Upload(id, e)).log.sent == j.log.sent
  {
    hide TaskNext, TaskCore;
  }

  lemma WeighedStep(s: Summary, j: Job, a: Action)
    requires Enabled(j, a) && Weighed(s, j) && Uploads.Invariant(j)
    ensures Weighed(Told(s, j, a), Next(j, a))
  {
    if a.Upload? {
      assert Uploads.Tasks(j);
      hide Weighed, Told, Next, Enabled, Uploads.Tasks;
      WeighedUpload(s, j, a.id, a.what);
    } else {
      WeighedRest(s, j, a);
    }
  }

  lemma {:induction false} AlwaysWeighed(cfg: Config, trace: seq<Action>, j: Job)
    requires Exec(Fresh(cfg), trace) == Some(j)
    ensures Mirrors(Heard(cfg, trace), j.counters) && Weighed(Heard(cfg, trace), j)
    decreases |trace|
  {
    if trace != [] {
      hide Mirrors, Told, Enabled, Next, Weighed, Uploads.Invariant;
      var before, a := Exec(Fresh(cfg), trace[..|trace| - 1]).value, trace[|trace| - 1];
      AlwaysWeighed(cfg, trace[..|trace| - 1], before);
      Uploads.Always(cfg, trace[..|trace| - 1], before);
      MirrorStep(Heard(cfg, trace[..|trace| - 1]), before, a);
      WeighedStep(Heard(cfg, trace[..|trace| - 1]), before, a);
    }
  }

  /** Every upload is reported once, with its own result and its own bytes, and the pack with what was
      gathered for it: what the reports add up to is what the machine counts, after any run; and when the
      uploader has ended, the bytes reported are those of the messages whose result was stored. */
  lemma ReportsMirrorTheRun(cfg: Config, trace: seq<Action>, j: Job)
    requires Exec(Fresh(cfg), trace) == Some(j)
    ensures Mirrors(Heard(cfg, trace), j.counters)
    ensures j.up.Ended? ==>
      Heard(cfg, trace).bytesUploaded
        == Size(j.log.sent, Drain.Having(j.log.results, Gha.PutResult.Stored)) % Ascii.U64
  {
    hide *;
    AlwaysWeighed(cfg, trace, j);
    Uploads.Always(cfg, trace, j);
    if j.up.Ended? {
      WeighedAtEnd(Heard(cfg, trace), j);
    }
  }

  lemma WeighedAtEnd(s: Summary, j: Job)
    requires Weighed(s, j) && Uploads.Invariant(j) && j.up.Ended?
    ensures s.bytesUploaded == Size(j.log.sent, Drain.Having(j.log.results, Gha.PutResult.Stored)) % Ascii.U64
  {
    assert j.tasks == map[];
    hide Uploads.Invariant, Size;
    assert Drain.CountedIds(j, Gha.PutResult.Stored) == Drain.Having(j.log.results, Gha.PutResult.Stored);
  }

  /** A pack that was stored is reported with the objects gathered for it and the size of the entry that
      landed. */
  lemma PackReported(s: Summary, j: Job, e: Gha.PutEvent)
    requires Enabled(j, Flush(Save(e))) && j.phase.SavingPack?
    requires Next(j, Flush(Save(e))).phase.put == Gha.Back(Gha.PutResult.Stored)
    ensures var j' := Next(j, Flush(Save(e)));
      && Landed(j, Flush(Save(e))).Some? && Enabled(j', Flush(SaveDone))
      && Told(s, j', Flush(SaveDone)).packed == |j.phase.got|
      && Told(s, j', Flush(SaveDone)).packedBytes == |Landed(j, Flush(Save(e))).value.bytes|
  {
    hide FlushCounters;
  }
}
