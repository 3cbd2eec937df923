/** What a published manifest can say. */
module Teardown {
  import opened Base
  import opened Gha
  import opened Job
  import Manifest
  import Pack
  import Uploads

  /** A reservation the service answered stands behind this stage, or the latch is set. */
  predicate Backed(stage: TaskStage) {
    match stage
    case Putting(put) => put.Reserved? || put.Uploaded? || (put.Back? && put.result != Failed)
    case Listing => true
    case _ => false
  }

  ghost predicate Answered(j: Job) {
    && (forall k | k in j.core.index :: k in j.log.loaded || k in j.log.answered || j.core.exhausted)
    && (forall id | id in j.tasks && Backed(j.tasks[id].stage) ::
          j.tasks[id].msg.key in j.log.answered || j.core.exhausted)
  }

  predicate Under(put: PutStage) { put.Passed? || put.Reserved? || put.Uploaded? || put == Back(Stored) }

  /** A manifest past its latch check lists only keys that were loaded or answered for. */
  ghost predicate Saving(j: Job) {
    j.phase.SavingIndex? ==>
      && Manifest.Lists(j.phase.keys, j.core.index)
      && (Under(j.phase.put) ==> forall k | k in j.phase.keys :: k in j.log.loaded || k in j.log.answered)
  }

  lemma AnsweredUpload(j: Job, id: nat, e: TaskEvent)
    requires Enabled(j, Upload(id, e)) && Answered(j)
    ensures Answered(Next(j, Upload(id, e)))
  {
    hide TaskCounters;
    var t, j' := j.tasks[id], Next(j, Upload(id, e));
    assert j.log.answered <= j'.log.answered && (j.core.exhausted ==> j'.core.exhausted);
    assert forall other | other in j'.tasks && other != id :: j'.tasks[other] == j.tasks[other];
    assert id in j'.tasks && Backed(j'.tasks[id].stage) ==>
      Backed(t.stage) || t.msg.key in j'.log.answered || j'.core.exhausted;
  }

  lemma LatchOnly(j: Job, a: Action)
    requires Enabled(j, a)
    ensures j.core.exhausted ==> Next(j, a).core.exhausted
  {
    hide HandlerCore, HandlerNext, FlushCore, FlushPhase, FlushCounters, IndexRead, PackRead, TaskNext, TaskCore;
  }

  lemma AnsweredStep(j: Job, a: Action)
    requires Enabled(j, a) && Answered(j) && Uploads.Early(j)
    ensures Answered(Next(j, a))
  {
    if a.Upload? {
      AnsweredUpload(j, a.id, a.what);
    } else if a.LoadIndex? {
    } else {
      Uploads.Quiet(j, a);
      LatchOnly(j, a);
      hide Next, Enabled, Uploads.Early;
    }
  }

  lemma SavingStep(j: Job, a: Action)
    requires Enabled(j, a) && Answered(j) && Saving(j) && Uploads.Early(j) && Uploads.Queue(j)
    ensures Saving(Next(j, a))
  {
    if a.Flush? {
    } else if j.phase.SavingIndex? && !a.Upload? {
      Uploads.Quiet(j, a);
      assert Next(j, a).phase == j.phase;
    }
  }

  lemma {:induction false} Always(cfg: Config, trace: seq<Action>, j: Job)
    requires Exec(Fresh(cfg), trace) == Some(j)
    ensures Answered(j) && Saving(j) && Uploads.Invariant(j) && j.cfg == cfg
    decreases |trace|
  {
    Uploads.Always(cfg, trace, j);
    if trace != [] {
      hide Answered, Saving, Enabled, Next;
      var before, a := Exec(Fresh(cfg), trace[..|trace| - 1]).value, trace[|trace| - 1];
      Always(cfg, trace[..|trace| - 1], before);
      AnsweredStep(before, a);
      SavingStep(before, a);
    }
  }

  /** When a manifest lands it lists, sorted and without repetitions, exactly the loaded keys plus
      the keys the service took; and each newly listed key had its reservation answered by the
      service. Keys the latch let into the index never get that far. */
  lemma PublishedManifest(cfg: Config, trace: seq<Action>, j: Job, e: PutEvent)
    requires Exec(Fresh(cfg), trace) == Some(j) && cfg.service
    requires Enabled(j, Flush(Save(e))) && j.phase.SavingIndex?
    requires Landed(j, Flush(Save(e))).Some?
    ensures var item := Landed(j, Flush(Save(e))).value;
      && item.bytes == Manifest.Render(j.phase.keys)
      && Manifest.Lists(j.phase.keys, j.log.loaded + Uploads.Taken(j))
      && (forall k | k in j.phase.keys :: k in j.log.loaded || k in j.log.answered)
  {
    Always(cfg, trace, j);
    Uploads.ExactIndex(cfg, trace, j);
  }

  lemma {:induction false} KeptAllOrFewer(objects: seq<Pack.Object>, used: nat, max: nat)
    ensures |Pack.Kept(objects, used, max)| == |objects| ==> Pack.Kept(objects, used, max) == objects
  {
    hide Pack.Size;
    if objects != [] {
      KeptAllOrFewer(objects[1..], used + Pack.Size(objects[0]), max);
      assert objects == [objects[0]] + objects[1..];
    }
  }

  /** The number published for the pack counts what was gathered, whether the service stored or
      declined it; so it is only an upper bound on the objects inside, met exactly when all fit. */
  lemma PackedIsAnUpperBound(j: Job)
    requires Enabled(j, Flush(SaveDone)) && j.phase.SavingPack? && j.phase.put.result != Failed && j.phase.got != []
    ensures var written := Pack.Kept(j.phase.got, |Pack.MAGIC|, j.cfg.packLimit);
      var packed := Next(j, Flush(SaveDone)).counters.packed;
      && packed == |j.phase.got| && |written| <= packed
      && (|written| == packed <==> |Pack.MAGIC| + Pack.Total(j.phase.got) <= j.cfg.packLimit)
  {
    hide Pack.Kept, Pack.Total, Pack.Encoded, Pack.Skipped, Pack.Subsequence;
    Pack.Ceiling(j.phase.got, j.cfg.packLimit);
    KeptAllOrFewer(j.phase.got, |Pack.MAGIC|, j.cfg.packLimit);
  }
}
