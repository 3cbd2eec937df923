/** The uploader finishes, and its numbers add up. */
module Drain {
  import opened Base
  import opened Gha
  import opened Job
  import Uploads

  // -- counters -------------------------------------------------------------------------------

  /** Message i came back with r and its task has recorded that. */
  predicate Counted(j: Job, i: nat, r: PutResult) {
    i in j.log.results && j.log.results[i] == r
    && (i in j.tasks ==> j.tasks[i].stage != Putting(Back(r)))
  }

  function CountedIds(j: Job, r: PutResult): set<nat> {
    set i | i in j.log.results && Counted(j, i, r)
  }

  ghost predicate CountsExact(j: Job) {
    && j.counters.entriesStored == |CountedIds(j, Stored)|
    && j.counters.uploadsFailed == |CountedIds(j, Failed)|
  }

  /** The step from j to j' counts message id under r, if that is what its task is about to do. */
  ghost predicate Adds(j: Job, j': Job, t: Task, id: nat, r: PutResult) {
    if t.stage == Putting(Back(r)) then id !in CountedIds(j, r) && CountedIds(j', r) == CountedIds(j, r) + {id}
    else CountedIds(j', r) == CountedIds(j, r)
  }

  lemma CountedUpload(j: Job, id: nat, e: TaskEvent, r: PutResult)
    requires Enabled(j, Upload(id, e)) && Uploads.Tasks(j)
    ensures Adds(j, Next(j, Upload(id, e)), j.tasks[id], id, r)
  {
    hide TaskCore, TaskCounters;
    var j' := Next(j, Upload(id, e));
    assert Uploads.Recorded(j.log.results, id, j.tasks[id].stage);
    assert forall i | i != id :: Counted(j', i, r) <==> Counted(j, i, r);
    assert Counted(j', id, r) <==> Counted(j, id, r) || j.tasks[id].stage == Putting(Back(r));
  }

  lemma CountersUpload(j: Job, id: nat, e: TaskEvent)
    requires Enabled(j, Upload(id, e))
    ensures Next(j, Upload(id, e)).counters == TaskCounters(j.counters, j.tasks[id])
  {
  }

  lemma CountsCarry(j: Job, j': Job, t: Task, id: nat)
    requires CountsExact(j) && j'.counters == TaskCounters(j.counters, t)
    requires Adds(j, j', t, id, Stored) && Adds(j, j', t, id, Failed)
    ensures CountsExact(j')
  {
    hide CountedIds;
  }

  lemma CountsUpload(j: Job, id: nat, e: TaskEvent)
    requires Enabled(j, Upload(id, e)) && Uploads.Tasks(j) && CountsExact(j)
    ensures CountsExact(Next(j, Upload(id, e)))
  {
    var t := j.tasks[id];
    hide *;
    CountedUpload(j, id, e, Stored);
    CountedUpload(j, id, e, Failed);
    CountersUpload(j, id, e);
    CountsCarry(j, Next(j, Upload(id, e)), t, id);
  }

  lemma CountersQuiet(j: Job, a: Action)
    requires Enabled(j, a) && !a.Upload?
    ensures Next(j, a).counters.(packed := j.counters.packed) == j.counters
    ensures Next(j, a).log.results == j.log.results
    ensures Next(j, a).tasks == if a.Spawn? then j.tasks[j.log.spawned := Task(j.up.msg, Putting(Entering))] else j.tasks
  {
    hide HandlerCore, HandlerNext, FlushCore, FlushPhase, IndexRead, PackRead, TaskNext, TaskCore;
  }

  lemma CountsStep(j: Job, a: Action)
    requires Enabled(j, a) && Uploads.Tasks(j) && CountsExact(j)
    ensures CountsExact(Next(j, a))
  {
    if a.Upload? {
      CountsUpload(j, a.id, a.what);
    } else {
      CountersQuiet(j, a);
      var j' := Next(j, a);
      hide Next, Enabled;
      assert forall i, r :: Counted(j', i, r) <==> Counted(j, i, r);
      assert CountedIds(j', Stored) == CountedIds(j, Stored) && CountedIds(j', Failed) == CountedIds(j, Failed);
    }
  }

  lemma {:induction false} Always(cfg: Config, trace: seq<Action>, j: Job)
    requires Exec(Fresh(cfg), trace) == Some(j)
    ensures CountsExact(j) && Uploads.Invariant(j) && j.cfg == cfg
    decreases |trace|
  {
    Uploads.Always(cfg, trace, j);
    if trace != [] {
      hide CountsExact, Enabled, Next;
      var before, a := Exec(Fresh(cfg), trace[..|trace| - 1]).value, trace[|trace| - 1];
      Always(cfg, trace[..|trace| - 1], before);
      CountsStep(before, a);
    }
  }

  function Having(results: map<nat, PutResult>, r: PutResult): set<nat> {
    set i | i in results && results[i] == r
  }

  lemma Partition(results: map<nat, PutResult>)
    ensures |Having(results, Stored)| + |Having(results, Declined)| + |Having(results, Failed)| == |results.Keys|
  {
    assert results.Keys == Having(results, Stored) + Having(results, Declined) + Having(results, Failed);
  }

  lemma {:induction false} Counting(s: set<nat>, n: nat)
    requires forall i: nat :: i in s <==> i < n
    ensures |s| == n
  {
    if n == 0 {
      assert s == {};
    } else {
      Counting(s - {n - 1}, n - 1);
    }
  }

  /** When the uploader has ended, the stored, declined and failed messages are all the messages, and
      the two published counters are the numbers of stored and of failed ones. */
  lemma Conservation(cfg: Config, trace: seq<Action>, j: Job)
    requires Exec(Fresh(cfg), trace) == Some(j) && cfg.service && j.up.Ended?
    ensures j.counters.entriesStored == |Having(j.log.results, Stored)|
    ensures j.counters.uploadsFailed == |Having(j.log.results, Failed)|
    ensures j.counters.entriesStored + |Having(j.log.results, Declined)| + j.counters.uploadsFailed == |j.log.sent|
  {
    Always(cfg, trace, j);
    Uploads.ExactIndex(cfg, trace, j);
    assert j.tasks == map[];
    hide Exec, Uploads.Invariant;
    assert CountedIds(j, Stored) == Having(j.log.results, Stored);
    assert CountedIds(j, Failed) == Having(j.log.results, Failed);
    Partition(j.log.results);
    Counting(j.log.results.Keys, |j.log.sent|);
  }

  lemma CountedWithinSent(j: Job)
    requires CountsExact(j) && Uploads.Invariant(j)
    ensures j.counters.entriesStored + j.counters.uploadsFailed <= |j.log.sent|
  {
    var s, f := CountedIds(j, Stored), CountedIds(j, Failed);
    assert s !! f;
    Bounded(s + f, |j.log.sent|);
  }

  /** At any moment the counters are bounded by what was sent. */
  lemma NeverMoreThanSent(cfg: Config, trace: seq<Action>, j: Job)
    requires Exec(Fresh(cfg), trace) == Some(j)
    ensures j.counters.entriesStored + j.counters.uploadsFailed <= |j.log.sent|
  {
    Always(cfg, trace, j);
    CountedWithinSent(j);
  }

  lemma {:induction false} Bounded(s: set<nat>, n: nat)
    requires forall i | i in s :: i < n
    ensures |s| <= n
  {
    if n == 0 {
      assert s == {};
    } else {
      Bounded(s - {n - 1}, n - 1);
    }
  }

  // -- the end of the queue -------------------------------------------------------------------

  predicate UploaderStep(a: Action) { a.Receive? || a.Spawn? || a.HangUp? || a.Join? || a.Upload? }

  function PutRank(put: PutStage): nat { 4 + Distance(put) }

  /** How many steps a task has left at most. */
  function Rank(t: Task): nat {
    match t.stage
    case Putting(put) => PutRank(put)
    case Listing => 3
    case Flagging => 2
    case Closing => 1
  }

  /** A weight summed over the tasks numbered below n. */
  function Total(weight: Task -> nat, tasks: map<nat, Task>, n: nat): nat {
    if n == 0 then 0
    else (if n - 1 in tasks then weight(tasks[n - 1]) else 0) + Total(weight, tasks, n - 1)
  }

  function Work(j: Job): nat {
    Total(Rank, j.tasks, j.log.spawned) + 11 * |j.core.channel|
    + match j.up { case Receiving => 2 case Holding(_) => 12 case Joining => 1 case Ended => 0 }
  }

  function WeightAt(weight: Task -> nat, tasks: map<nat, Task>, id: nat): nat {
    if id in tasks then weight(tasks[id]) else 0
  }

  lemma {:induction false} TotalChange(weight: Task -> nat, tasks: map<nat, Task>, tasks': map<nat, Task>,
                                       id: nat, n: nat)
    requires forall i | i != id :: i in tasks <==> i in tasks'
    requires forall i | i != id && i in tasks :: tasks'[i] == tasks[i]
    ensures Total(weight, tasks', n) ==
      Total(weight, tasks, n) + if id < n then WeightAt(weight, tasks', id) - WeightAt(weight, tasks, id) else 0
  {
    if n != 0 {
      TotalChange(weight, tasks, tasks', id, n - 1);
    }
  }

  lemma WorkUpload(j: Job, id: nat, e: TaskEvent)
    requires Enabled(j, Upload(id, e)) && Uploads.Tasks(j)
    ensures Work(Next(j, Upload(id, e))) < Work(j)
  {
    hide TaskCore, TaskCounters;
    var j' := Next(j, Upload(id, e));
    assert j'.core.channel == j.core.channel && j'.log.spawned == j.log.spawned;
    assert id in j'.tasks ==> Rank(j'.tasks[id]) < Rank(j.tasks[id]);
    TotalChange(Rank, j.tasks, j'.tasks, id, j.log.spawned);
  }

  /** Every step of the uploader or of a task brings the end nearer, whatever the service answers. */
  lemma WorkShrinks(j: Job, a: Action)
    requires Enabled(j, a) && UploaderStep(a) && Uploads.Tasks(j)
    ensures Work(Next(j, a)) < Work(j)
  {
    match a
    case Upload(id, e) => WorkUpload(j, id, e);
    case Spawn =>
      var j', n := Next(j, Spawn), j.log.spawned;
      assert n !in j.tasks;
      TotalChange(Rank, j.tasks, j'.tasks, n, n + 1);
      assert Total(Rank, j.tasks, n + 1) == Total(Rank, j.tasks, n);
    case _ =>
  }

  /** A reply for each stage, so that no task waits for an answer that cannot come. */
  function SomeEvent(stage: TaskStage): TaskEvent {
    match stage
    case Putting(Entering) => Service(Check)
    case Putting(Passed) => Service(Create(Unreachable))
    case Putting(Reserved) => Service(Blob(false))
    case Putting(Uploaded) => Service(Finalize(Unreachable, false))
    case _ => Proceed
  }

  /** After the queue is closed the uploader is never stuck before it has ended. */
  lemma Progress(j: Job) returns (a: Action)
    requires Closed(j) && !j.up.Ended? && Uploads.Queue(j)
    ensures Enabled(j, a) && UploaderStep(a)
  {
    if j.tasks != map[] {
      assert exists id :: id in j.tasks;
      var id :| id in j.tasks;
      a := Upload(id, SomeEvent(j.tasks[id].stage));
    } else {
      match j.up
      case Receiving => a := if j.core.channel == [] then HangUp else Receive;
      case Holding(_) => a := Spawn;
      case Joining => a := Join;
      case Ended =>
    }
  }

  /** A scheduler that names a possible step of the uploader as long as there is one. */
  ghost predicate Fair(scheduler: Job -> Action) {
    forall j | Closed(j) && !j.up.Ended? && Uploads.Invariant(j) ::
      Enabled(j, scheduler(j)) && UploaderStep(scheduler(j))
  }

  lemma StaysClosed(j: Job, a: Action)
    requires Enabled(j, a) && UploaderStep(a) && Closed(j)
    ensures Closed(Next(j, a))
  {
  }

  /** The receive loop and the join loop after the queue is closed, under any scheduling and any
      replies: it terminates, in at most as many steps as there is work, with nothing left over. */
  method UploadLoop(j: Job, scheduler: Job -> Action) returns (end: Job, ghost steps: seq<Action>)
    requires Closed(j) && Uploads.Invariant(j) && Fair(scheduler)
    ensures end.up.Ended? && end.core.channel == [] && end.tasks == map[]
    ensures Exec(j, steps) == Some(end) && |steps| <= Work(j) && forall a | a in steps :: UploaderStep(a)
  {
    end, steps := j, [];
    while !end.up.Ended?
      invariant Exec(j, steps) == Some(end)
      invariant Closed(end) && Uploads.Invariant(end)
      invariant |steps| + Work(end) <= Work(j)
      invariant forall a | a in steps :: UploaderStep(a)
      decreases Work(end)
    {
      var a := scheduler(end);
      WorkShrinks(end, a);
      Uploads.InvariantStep(end, a);
      StaysClosed(end, a);
      ghost var longer := steps + [a];
      assert longer[..|steps|] == steps;
      hide Closed, Work, Enabled, Next, Uploads.Queue, Uploads.Tasks, Uploads.SentOnce, Uploads.IndexExact, Uploads.DirtyExact, Uploads.Early;
      end := Next(end, a);
      steps := longer;
    }
  }

  // -- whatever else moves --------------------------------------------------------------------

  lemma StaysLive(j: Job, a: Action)
    requires Enabled(j, a) && Live(j)
    ensures Live(Next(j, a))
  {
    hide HandlerCore, HandlerNext, FlushCore, FlushCounters, TaskNext, TaskCore;
  }

  /** Once the queue is closed nothing but the uploader adds to or takes from its work. */
  lemma OthersLeaveWork(j: Job, a: Action)
    requires Enabled(j, a) && !UploaderStep(a) && Closed(j) && Live(j)
    ensures Work(Next(j, a)) == Work(j) && Closed(Next(j, a)) && Live(Next(j, a))
  {
    StaysLive(j, a);
    hide FlushPhase, FlushCounters, IndexRead, PackRead, Rank;
    var j' := Next(j, a);
    if a.Handle? {
      HandleOnly(j, a.id, a.event);
      assert !j.handlers[a.id].PutSending?;
    }
    assert j'.tasks == j.tasks && j'.log.spawned == j.log.spawned && j'.up == j.up && j'.core.channel == j.core.channel;
  }

  function UploaderSteps(trace: seq<Action>): nat {
    if trace == [] then 0
    else UploaderSteps(trace[..|trace| - 1]) + if UploaderStep(trace[|trace| - 1]) then 1 else 0
  }

  /** From a closed queue on, the uploader takes at most as many steps as there is work, whatever
      requests and the teardown do in between; with Progress, it ends wherever it is not starved. */
  lemma {:induction false} BoundedInAnyTrace(j: Job, trace: seq<Action>, end: Job)
    requires Closed(j) && Live(j) && Uploads.Invariant(j) && Exec(j, trace) == Some(end)
    ensures Closed(end) && Live(end) && Uploads.Invariant(end)
    ensures UploaderSteps(trace) + Work(end) <= Work(j)
    decreases |trace|
  {
    if trace != [] {
      var before, a := Exec(j, trace[..|trace| - 1]).value, trace[|trace| - 1];
      BoundedInAnyTrace(j, trace[..|trace| - 1], before);
      Uploads.InvariantStep(before, a);
      assert Uploads.Tasks(before);
      hide Closed, Live, Work, Enabled, Next, Uploads.Invariant, UploaderStep;
      if UploaderStep(a) {
        WorkShrinks(before, a);
        StaysClosed(before, a);
        StaysLive(before, a);
      } else {
        OthersLeaveWork(before, a);
      }
    }
  }
}
