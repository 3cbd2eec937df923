/** What the uploader keeps under every interleaving: each key is sent once, every message ends in
    exactly one result, and the manifest lists exactly what was loaded plus what the service took. */
module Uploads {
  import opened Base
  import opened Gha
  import opened Job
  import Manifest

  // -- the invariant --------------------------------------------------------------------------

  ghost predicate Early(j: Job) {
    !Live(j) ==>
      && j.handlers == map[] && j.tasks == map[] && j.up.Receiving? && j.core.channel == []
      && j.log.sent == [] && j.log.results == map[] && j.log.spawned == 0 && j.core.queued == {}
      && !j.core.indexDirty && j.core.index == j.log.loaded
      && (j.phase.Starting? ==> j.core.index == {})
  }

  predicate TornDown(j: Job) { Live(j) && !j.phase.Serving? && !j.phase.Draining? }

  function Held(up: Uploader): seq<Msg> { if up.Holding? then [up.msg] else [] }

  /** Messages leave the queue in order; the queue closes once and for all; permits bound the tasks. */
  ghost predicate Queue(j: Job) {
    && (j.core.open <==> !Live(j) || j.phase.Serving?)
    && j.log.spawned <= |j.log.sent|
    && (j.cfg.service ==> j.log.sent[j.log.spawned..] == Held(j.up) + j.core.channel)
    && (!j.cfg.service ==> j.tasks == map[] && !j.up.Holding? && j.log.spawned == 0)
    && (j.up.Joining? || j.up.Ended? ==> j.core.channel == [] && Closed(j))
    && (j.up.Ended? ==> j.tasks == map[])
    && (TornDown(j) ==> j.up.Ended?)
    && |j.tasks| <= Permits(j.cfg)
  }

  /** A result is recorded exactly when the store call has returned, and the stage agrees with it. */
  predicate Recorded(results: map<nat, PutResult>, id: nat, stage: TaskStage) {
    match stage
    case Putting(put) => if put.Back? then id in results && results[id] == put.result else id !in results
    case Listing => id in results && results[id] != Failed
    case Flagging => id in results && results[id] != Failed
    case Closing => id in results
  }

  ghost predicate Tasks(j: Job) {
    && j.log.spawned <= |j.log.sent|
    && (forall id | id in j.tasks ::
          id < j.log.spawned && j.tasks[id].msg == j.log.sent[id]
          && Recorded(j.log.results, id, j.tasks[id].stage))
    && (forall id | id in j.log.results :: id < j.log.spawned)
    && (forall id | 0 <= id < j.log.spawned :: id in j.tasks || id in j.log.results)
  }

  predicate Carrying(h: Handler) { h.PutWriting? || h.PutFiling? || h.PutSending? }

  ghost predicate SentOnce(j: Job) {
    && (forall i, k | 0 <= i < k < |j.log.sent| :: j.log.sent[i].key != j.log.sent[k].key)
    && (forall m | m in j.log.sent :: m.key in j.core.queued)
    && (forall id | id in j.handlers && Carrying(j.handlers[id]) ::
          j.handlers[id].msg.key in j.core.queued
          && forall m | m in j.log.sent :: m.key != j.handlers[id].msg.key)
    && (forall id, other | id in j.handlers && other in j.handlers && id != other
          && Carrying(j.handlers[id]) && Carrying(j.handlers[other]) ::
          j.handlers[id].msg.key != j.handlers[other].msg.key)
  }

  /** Message i was taken by the service and its task has passed the insertion. */
  predicate Inserted(j: Job, i: nat) {
    && i < |j.log.sent| && i in j.log.results && j.log.results[i] != Failed
    && (i in j.tasks ==> j.tasks[i].stage.Flagging? || j.tasks[i].stage.Closing?)
  }

  function InsertedKeys(j: Job): set<Key> {
    set i | i in j.log.results && Inserted(j, i) :: j.log.sent[i].key
  }

  ghost predicate IndexExact(j: Job) { j.core.index == j.log.loaded + InsertedKeys(j) }

  ghost predicate Flagger(j: Job, id: nat) {
    id in j.tasks && j.tasks[id].stage.Flagging?
  }

  /** The dirty flag tells whether the index grew, but for a task about to set it. */
  ghost predicate DirtyExact(j: Job) {
    && (j.core.indexDirty ==> j.core.index != j.log.loaded)
    && (j.core.index != j.log.loaded ==> j.core.indexDirty || exists id :: Flagger(j, id))
    && (forall id | Flagger(j, id) :: j.tasks[id].msg.key in j.core.index - j.log.loaded)
  }

  ghost predicate Invariant(j: Job) {
    Early(j) && Queue(j) && Tasks(j) && SentOnce(j) && IndexExact(j) && DirtyExact(j)
  }

  // -- every step keeps it --------------------------------------------------------------------

  lemma EarlyStep(j: Job, a: Action)
    requires Enabled(j, a) && Early(j) && Queue(j)
    ensures Early(Next(j, a))
  {
  }

  lemma QueueHandle(j: Job, id: nat, e: HandlerEvent)
    requires Enabled(j, Handle(id, e)) && Queue(j)
    ensures Queue(Next(j, Handle(id, e)))
  {
    var h, j' := j.handlers[id], Next(j, Handle(id, e));
    if h.PutSending? {
      assert !Closed(j);
      assert j'.log.sent[j.log.spawned..] == j.log.sent[j.log.spawned..] + [h.msg];
    } else {
      assert Closed(j) ==> Closed(j');
    }
  }

  lemma QueueReceive(j: Job)
    requires Enabled(j, Receive) && Queue(j)
    ensures Queue(Next(j, Receive))
  {
    assert j.core.channel == [j.core.channel[0]] + j.core.channel[1..];
  }

  lemma QueueSpawn(j: Job)
    requires Enabled(j, Spawn) && Queue(j) && Tasks(j)
    ensures Queue(Next(j, Spawn))
  {
    var n := j.log.spawned;
    assert j.log.sent[n..] == [j.up.msg] + j.core.channel;
    assert j.log.sent[n + 1..] == j.log.sent[n..][1..];
    assert n !in j.tasks;
    assert |j.tasks[n := Task(j.up.msg, Putting(Entering))]| == |j.tasks| + 1;
  }

  lemma QueueUpload(j: Job, id: nat, e: TaskEvent)
    requires Enabled(j, Upload(id, e)) && Queue(j)
    ensures Queue(Next(j, Upload(id, e)))
  {
    var j' := Next(j, Upload(id, e));
    if id in j'.tasks {
      assert j'.tasks.Keys == j.tasks.Keys;
      assert |j'.tasks| == |j'.tasks.Keys| && |j.tasks| == |j.tasks.Keys|;
    } else {
      assert j'.tasks.Keys == j.tasks.Keys - {id};
      assert |j'.tasks| == |j'.tasks.Keys| && |j.tasks| == |j.tasks.Keys|;
    }
  }

  lemma QueueFlush(j: Job, e: FlushEvent)
    requires Enabled(j, Flush(e)) && Queue(j)
    ensures Queue(Next(j, Flush(e)))
  {
  }

  lemma QueueStep(j: Job, a: Action)
    requires Enabled(j, a) && Early(j) && Queue(j) && Tasks(j)
    ensures Queue(Next(j, a))
  {
    match a
    case Handle(id, e) => QueueHandle(j, id, e);
    case Receive => QueueReceive(j);
    case Spawn => QueueSpawn(j);
    case Upload(id, e) => QueueUpload(j, id, e);
    case Flush(e) => QueueFlush(j, e);
    case _ =>
  }

  lemma SpawnParts(j: Job)
    requires Enabled(j, Spawn)
    ensures j.up.Holding?
    ensures Next(j, Spawn) == j.(tasks := j.tasks[j.log.spawned := Task(j.up.msg, Putting(Entering))], up := Receiving,
                                 log := j.log.(spawned := j.log.spawned + 1))
  {
  }

  lemma TasksSpawn(j: Job)
    requires Enabled(j, Spawn) && Queue(j) && Tasks(j)
    ensures Tasks(Next(j, Spawn))
  {
    SpawnParts(j);
    hide Next, Enabled, Recorded;
    var n := j.log.spawned;
    assert j.log.sent[n..] == [j.up.msg] + j.core.channel;
    assert j.log.sent[n] == j.log.sent[n..][0];
  }

  lemma TasksUpload(j: Job, id: nat, e: TaskEvent)
    requires Enabled(j, Upload(id, e)) && Tasks(j)
    ensures Tasks(Next(j, Upload(id, e)))
  {
    var j' := Next(j, Upload(id, e));
    assert id in j'.tasks ==> Recorded(j'.log.results, id, j'.tasks[id].stage);
    forall i | i in j'.tasks && i != id ensures Recorded(j'.log.results, i, j'.tasks[i].stage) {
      assert Recorded(j.log.results, i, j.tasks[i].stage);
    }
  }

  lemma TasksStep(j: Job, a: Action)
    requires Enabled(j, a) && Queue(j) && Tasks(j)
    ensures Tasks(Next(j, a))
  {
    if a.Upload? {
      TasksUpload(j, a.id, a.what);
    } else if a.Spawn? {
      TasksSpawn(j);
    } else {
      var j' := Next(j, a);
      assert j'.tasks == j.tasks && j'.log.results == j.log.results && j'.log.spawned == j.log.spawned;
      assert j.log.sent <= j'.log.sent;
    }
  }

  lemma SentOncePut(j: Job, id: nat, msg: Msg)
    requires Enabled(j, StartPut(id, msg)) && SentOnce(j)
    ensures SentOnce(Next(j, StartPut(id, msg)))
  {
  }

  lemma SentOnceHandle(j: Job, id: nat, e: HandlerEvent)
    requires Enabled(j, Handle(id, e)) && SentOnce(j)
    ensures SentOnce(Next(j, Handle(id, e)))
  {
    var h, j' := j.handlers[id], Next(j, Handle(id, e));
    assert id in j'.handlers && Carrying(j'.handlers[id]) ==> Carrying(h) && j'.handlers[id].msg == h.msg;
    assert forall other | other in j'.handlers && other != id ::
      other in j.handlers && j'.handlers[other] == j.handlers[other];
    if h.PutSending? {
      assert forall m | m in j'.log.sent :: m in j.log.sent || m == h.msg;
    }
  }

  lemma SentOnceStep(j: Job, a: Action)
    requires Enabled(j, a) && SentOnce(j)
    ensures SentOnce(Next(j, a))
  {
    match a
    case StartPut(id, msg) => SentOncePut(j, id, msg);
    case Handle(id, e) => SentOnceHandle(j, id, e);
    case _ =>
      var j' := Next(j, a);
      assert j'.log.sent == j.log.sent && j'.core.queued == j.core.queued;
      assert forall id | id in j'.handlers && Carrying(j'.handlers[id]) ::
        id in j.handlers && j'.handlers[id] == j.handlers[id];
  }

  lemma InsertedUpload(j: Job, id: nat, e: TaskEvent)
    requires Enabled(j, Upload(id, e)) && Tasks(j)
    ensures InsertedKeys(Next(j, Upload(id, e))) ==
      InsertedKeys(j) + if j.tasks[id].stage.Listing? then {j.tasks[id].msg.key} else {}
  {
    var j' := Next(j, Upload(id, e));
    forall i ensures Inserted(j', i) <==> Inserted(j, i) || (i == id && j.tasks[id].stage.Listing?) {
      if i == id {
        assert Recorded(j.log.results, id, j.tasks[id].stage);
      }
    }
  }

  /** Only upload tasks touch the index after start-up. */
  lemma Quiet(j: Job, a: Action)
    requires Enabled(j, a) && !a.Upload? && !a.LoadIndex?
    ensures var j' := Next(j, a);
      && j'.core.index == j.core.index && j'.core.indexDirty == j.core.indexDirty
      && j'.log.loaded == j.log.loaded && j'.log.results == j.log.results && j'.log.answered == j.log.answered
      && j.log.sent <= j'.log.sent
      && j'.tasks == if a.Spawn? then j.tasks[j.log.spawned := Task(j.up.msg, Putting(Entering))] else j.tasks
  {
    hide HandlerCore, HandlerNext, FlushCore, FlushPhase, FlushCounters, PackRead, TaskNext, TaskCore;
  }

  lemma InsertedQuiet(j: Job, a: Action)
    requires Enabled(j, a) && !a.Upload? && !a.LoadIndex? && Tasks(j)
    ensures InsertedKeys(Next(j, a)) == InsertedKeys(j)
  {
    Quiet(j, a);
    var j' := Next(j, a);
    hide Next, Enabled;
    assert forall i :: Inserted(j', i) <==> Inserted(j, i);
  }

  lemma IndexExactStep(j: Job, a: Action)
    requires Enabled(j, a) && Early(j) && Tasks(j) && IndexExact(j)
    ensures IndexExact(Next(j, a))
  {
    if a.Upload? {
      InsertedUpload(j, a.id, a.what);
    } else if a.LoadIndex? {
      assert InsertedKeys(Next(j, a)) == {};
    } else {
      Quiet(j, a);
      InsertedQuiet(j, a);
      hide Next, Enabled, InsertedKeys;
    }
  }

  lemma DirtyExactUpload(j: Job, id: nat, e: TaskEvent)
    requires Enabled(j, Upload(id, e)) && IndexExact(j) && DirtyExact(j)
    ensures DirtyExact(Next(j, Upload(id, e)))
  {
    var t, j' := j.tasks[id], Next(j, Upload(id, e));
    assert t.stage.Flagging? ==> Flagger(j, id);
    forall other | Flagger(j', other) ensures j'.tasks[other].msg.key in j'.core.index - j'.log.loaded {
      assert other != id ==> Flagger(j, other);
    }
    if j'.core.index != j'.log.loaded && !j'.core.indexDirty {
      if j.core.index != j.log.loaded {
        var other :| Flagger(j, other);
        assert Flagger(j', other);
      } else {
        assert Flagger(j', id);
      }
    }
  }

  lemma DirtyExactStep(j: Job, a: Action)
    requires Enabled(j, a) && Early(j) && Tasks(j) && IndexExact(j) && DirtyExact(j)
    ensures DirtyExact(Next(j, a))
  {
    if a.Upload? {
      DirtyExactUpload(j, a.id, a.what);
    } else if a.LoadIndex? {
    } else {
      Quiet(j, a);
      var j' := Next(j, a);
      hide Next, Enabled, Early, IndexExact;
      assert forall id :: Flagger(j', id) <==> Flagger(j, id);
    }
  }

  lemma InvariantStep(j: Job, a: Action)
    requires Enabled(j, a) && Invariant(j)
    ensures Invariant(Next(j, a)) && Next(j, a).cfg == j.cfg
  {
    EarlyStep(j, a);
    QueueStep(j, a);
    TasksStep(j, a);
    SentOnceStep(j, a);
    IndexExactStep(j, a);
    DirtyExactStep(j, a);
    hide Early, Queue, Tasks, SentOnce, IndexExact, DirtyExact, Enabled;
  }

  lemma {:induction false} Always(cfg: Config, trace: seq<Action>, j: Job)
    requires Exec(Fresh(cfg), trace) == Some(j)
    ensures Invariant(j) && j.cfg == cfg
    decreases |trace|
  {
    if trace == [] {
      assert InsertedKeys(j) == {};
    } else {
      hide Invariant, Enabled, Next;
      var before := Exec(Fresh(cfg), trace[..|trace| - 1]).value;
      Always(cfg, trace[..|trace| - 1], before);
      InvariantStep(before, trace[|trace| - 1]);
    }
  }

  // -- results --------------------------------------------------------------------------------

  /** Keys whose store the service took: stored by it now, or reported as there already. */
  function Taken(j: Job): set<Key> {
    set i | i in j.log.results && i < |j.log.sent| && j.log.results[i] != Failed :: j.log.sent[i].key
  }

  /** Once the uploader has ended, the index is what was loaded plus exactly the keys the service
      took; the flag says whether that is more than was loaded; and a key whose upload failed is
      there only if it was loaded. Every message sent has its result by then. */
  lemma ExactIndex(cfg: Config, trace: seq<Action>, j: Job)
    requires Exec(Fresh(cfg), trace) == Some(j) && cfg.service && j.up.Ended?
    ensures j.core.index == j.log.loaded + Taken(j)
    ensures j.core.indexDirty <==> j.core.index != j.log.loaded
    ensures forall i: nat :: i in j.log.results <==> i < |j.log.sent|
    ensures forall i | i in j.log.results && j.log.results[i] == Failed ::
      j.log.sent[i].key in j.core.index <==> j.log.sent[i].key in j.log.loaded
  {
    Always(cfg, trace, j);
    hide Exec;
    assert j.log.sent[j.log.spawned..] == [];
    assert j.log.spawned == |j.log.sent|;
    assert InsertedKeys(j) == Taken(j);
    forall i | i in j.log.results && j.log.results[i] == Failed
      ensures j.log.sent[i].key !in Taken(j)
    {
      assert forall k | k in j.log.results && k != i :: j.log.sent[k].key != j.log.sent[i].key;
    }
  }

  /** While uploads run the flag may lag, and only behind a task that is about to set it. */
  lemma FlagLag(cfg: Config, trace: seq<Action>, j: Job)
    requires Exec(Fresh(cfg), trace) == Some(j)
    ensures j.core.index == j.log.loaded + InsertedKeys(j)
    ensures j.core.indexDirty ==> j.core.index != j.log.loaded
    ensures j.core.index != j.log.loaded && !j.core.indexDirty ==> exists id :: Flagger(j, id)
  {
    Always(cfg, trace, j);
  }

  /** No key is handed to the uploader twice in a run, and permits bound the tasks in flight. */
  lemma OncePerKey(cfg: Config, trace: seq<Action>, j: Job)
    requires Exec(Fresh(cfg), trace) == Some(j)
    ensures forall i, k | 0 <= i < k < |j.log.sent| :: j.log.sent[i].key != j.log.sent[k].key
    ensures |j.tasks| <= if cfg.concurrency == 0 then 1 else cfg.concurrency
  {
    Always(cfg, trace, j);
  }
}
