/** How often the service is called: hardly at all once it has refused for rate, and for each key at
    most once a run to look it up. */
module Traffic {
  import opened Base
  import opened Gha
  import opened Job
  import Uploads
  import Drain

  datatype Caller = Loading | Getting | Uploading | Saving

  /** Whether the step calls the service on behalf of `who`. */
  predicate Issues(j: Job, a: Action, who: Caller)
    requires Enabled(j, a)
  {
    match a
    case LoadIndex(_) => who.Loading? && CallsNow(j)
    case LoadPack(_, _) => who.Loading? && CallsNow(j)
    case Handle(id, _) => who.Getting? && j.handlers[id].GetAsking?
    case Upload(_, Service(e)) => who.Uploading? && Calls(e)
    case Flush(Save(e)) => who.Saving? && Calls(e)
    case _ => false
  }

  /** How many calls a run of steps made on behalf of `who`. */
  ghost function Issued(j: Job, trace: seq<Action>, who: Caller): nat {
    if trace == [] then 0
    else
      var a := trace[|trace| - 1];
      Issued(j, trace[..|trace| - 1], who)
      + match Exec(j, trace[..|trace| - 1])
        case Some(m) => (if Enabled(m, a) && Issues(m, a, who) then 1 else 0)
        case None => 0
  }

  // -- after the latch ------------------------------------------------------------------------

  function PutCredit(put: PutStage): nat {
    match put
    case Passed => 2
    case Reserved => 1
    case Uploaded => 1
    case _ => 0
  }

  function TaskCredit(t: Task): nat {
    if t.stage.Putting? then PutCredit(t.stage.put) else 0
  }

  function AskingIds(j: Job): set<nat> {
    set id | id in j.handlers && j.handlers[id].GetAsking?
  }

  /** Calls that can still be made by work already past its look at the latch. */
  function Credit(j: Job, who: Caller): nat {
    match who
    case Loading => 0
    case Getting => |AskingIds(j)|
    case Uploading => Drain.Total(TaskCredit, j.tasks, j.log.spawned)
    case Saving => if j.phase.SavingIndex? || j.phase.SavingPack? then PutCredit(j.phase.put) else 0
  }

  lemma {:induction false} Smaller(s: set<nat>, t: set<nat>)
    requires s <= t
    ensures |s| <= |t|
  {
    if s != {} {
      var x :| x in s;
      Smaller(s - {x}, t - {x});
    }
  }

  lemma GettingCredit(j: Job, a: Action)
    requires Enabled(j, a) && j.core.exhausted
    ensures Credit(Next(j, a), Getting) + (if Issues(j, a, Getting) then 1 else 0) <= Credit(j, Getting)
  {
    var j' := Next(j, a);
    if a.Handle? {
      var h := j.handlers[a.id];
      assert AskingIds(j') == AskingIds(j) - {a.id};
      assert h.GetAsking? <==> a.id in AskingIds(j);
    } else {
      assert AskingIds(j') <= AskingIds(j);
      Smaller(AskingIds(j'), AskingIds(j));
    }
  }

  lemma OneTaskCredit(j: Job, id: nat, e: TaskEvent)
    requires Enabled(j, Upload(id, e)) && j.core.exhausted
    ensures Drain.WeightAt(TaskCredit, Next(j, Upload(id, e)).tasks, id)
      + (if Issues(j, Upload(id, e), Uploading) then 1 else 0) <= Drain.WeightAt(TaskCredit, j.tasks, id)
  {
    hide TaskCore, TaskCounters;
  }

  lemma TasksAside(j: Job, a: Action)
    requires Enabled(j, a)
    ensures Next(j, a).log.spawned == if a.Spawn? then j.log.spawned + 1 else j.log.spawned
    ensures !a.Upload? && !a.Spawn? ==> Next(j, a).tasks == j.tasks
    ensures a.Upload? ==> Next(j, a).tasks.Keys + {a.id} == j.tasks.Keys
    ensures a.Upload? ==> forall i | i in j.tasks && i != a.id :: Next(j, a).tasks[i] == j.tasks[i]
  {
    hide HandlerCore, HandlerNext, FlushCore, FlushPhase, FlushCounters, IndexRead, PackRead, TaskCore, TaskCounters;
  }

  lemma UploadingCredit(j: Job, a: Action)
    requires Enabled(j, a) && j.core.exhausted && Uploads.Tasks(j)
    ensures Credit(Next(j, a), Uploading) + (if Issues(j, a, Uploading) then 1 else 0) <= Credit(j, Uploading)
  {
    if a.Upload? {
      UploadCredit(j, a);
    } else if a.Spawn? {
      SpawnCredit(j);
    } else {
      TasksAside(j, a);
      hide Next, Enabled, Uploads.Tasks;
    }
  }

  lemma UploadCredit(j: Job, a: Action)
    requires Enabled(j, a) && a.Upload? && j.core.exhausted && Uploads.Tasks(j)
    ensures Credit(Next(j, a), Uploading) + (if Issues(j, a, Uploading) then 1 else 0) <= Credit(j, Uploading)
  {
    TasksAside(j, a);
    OneTaskCredit(j, a.id, a.what);
    hide TaskCore, TaskCounters, NoteTask;
    Drain.TotalChange(TaskCredit, j.tasks, Next(j, a).tasks, a.id, j.log.spawned);
  }

  lemma SpawnCredit(j: Job)
    requires Enabled(j, Spawn) && j.core.exhausted && Uploads.Tasks(j)
    ensures Credit(Next(j, Spawn), Uploading) <= Credit(j, Uploading)
  {
    TasksAside(j, Spawn);
    var j', n := Next(j, Spawn), j.log.spawned;
    Drain.TotalChange(TaskCredit, j.tasks, j'.tasks, n, n + 1);
    assert n !in j.tasks;
    assert Drain.Total(TaskCredit, j.tasks, n + 1) == Drain.Total(TaskCredit, j.tasks, n);
  }

  lemma SavingCredit(j: Job, a: Action)
    requires Enabled(j, a) && j.core.exhausted
    ensures Credit(Next(j, a), Saving) + (if Issues(j, a, Saving) then 1 else 0) <= Credit(j, Saving)
  {
    hide HandlerCore, HandlerNext, FlushCore, FlushCounters, IndexRead, PackRead, TaskNext, TaskCore, TaskCounters;
  }

  lemma CreditStep(j: Job, a: Action, who: Caller)
    requires Enabled(j, a) && j.core.exhausted && Uploads.Tasks(j)
    ensures Credit(Next(j, a), who) + (if Issues(j, a, who) then 1 else 0) <= Credit(j, who)
  {
    match who
    case Loading =>
    case Getting => GettingCredit(j, a);
    case Uploading => UploadingCredit(j, a);
    case Saving => SavingCredit(j, a);
  }

  ghost predicate Latched(j: Job) { j.core.exhausted && Uploads.Invariant(j) }

  lemma LatchedStep(j: Job, a: Action)
    requires Enabled(j, a) && Latched(j)
    ensures Latched(Next(j, a))
  {
    Uploads.InvariantStep(j, a);
    hide HandlerCore, HandlerNext, FlushCore, FlushPhase, FlushCounters, IndexRead, PackRead, TaskNext, TaskCore, Uploads.Invariant;
  }

  lemma {:induction false} Spending(j: Job, trace: seq<Action>, end: Job, who: Caller)
    requires Latched(j) && Exec(j, trace) == Some(end)
    ensures Latched(end) && Issued(j, trace, who) + Credit(end, who) <= Credit(j, who)
    decreases |trace|
  {
    if trace != [] {
      hide Latched, Enabled, Next, Credit, Issues;
      var before, a := Exec(j, trace[..|trace| - 1]).value, trace[|trace| - 1];
      Spending(j, trace[..|trace| - 1], before, who);
      LatchedStep(before, a);
      assert Uploads.Tasks(before) && before.core.exhausted by { LatchedTasks(before); }
      CreditStep(before, a, who);
    }
  }

  lemma LatchedTasks(j: Job)
    requires Latched(j)
    ensures Uploads.Tasks(j) && j.core.exhausted
  {
  }

  lemma {:induction false} CreditBound(tasks: map<nat, Task>, n: nat)
    ensures Drain.Total(TaskCredit, tasks, n) <= 2 * |tasks|
  {
    if n == 0 {
    } else if n - 1 !in tasks {
      CreditBound(tasks, n - 1);
    } else {
      var rest := tasks - {n - 1};
      assert |rest| == |tasks| - 1 by {
        assert rest.Keys == tasks.Keys - {n - 1} && |rest| == |rest.Keys| && |tasks| == |tasks.Keys|;
      }
      CreditBound(rest, n - 1);
      Drain.TotalChange(TaskCredit, tasks, rest, n - 1, n - 1);
      assert TaskCredit(tasks[n - 1]) <= 2;
    }
  }

  /** From any moment the latch is set: upload tasks together make at most two calls for each permit,
      lookups at most one for each that had already passed its check, and the teardown none at all
      unless its own save had already passed; so a later get, put or save makes none. */
  lemma AfterTheLatch(cfg: Config, past: seq<Action>, j: Job, trace: seq<Action>, end: Job)
    requires Exec(Fresh(cfg), past) == Some(j) && j.core.exhausted && Exec(j, trace) == Some(end)
    ensures Issued(j, trace, Loading) == 0
    ensures Issued(j, trace, Getting) <= |AskingIds(j)|
    ensures Issued(j, trace, Uploading) <= 2 * |j.tasks| <= 2 * (if cfg.concurrency == 0 then 1 else cfg.concurrency)
    ensures Issued(j, trace, Saving) <=
      if j.phase.SavingIndex? || j.phase.SavingPack? then PutCredit(j.phase.put) else 0
  {
    Uploads.Always(cfg, past, j);
    Spending(j, trace, end, Loading);
    Spending(j, trace, end, Getting);
    Spending(j, trace, end, Uploading);
    Spending(j, trace, end, Saving);
    CreditBound(j.tasks, j.log.spawned);
  }

  // -- one lookup a key -----------------------------------------------------------------------

  /** The key a lookup in progress is for. */
  predicate GetFor(h: Handler, k: Key) {
    match h
    case GetReading(key) => key == k
    case GetListing(key) => key == k
    case GetRecalling(key) => key == k
    case GetChecking(key) => key == k
    case GetAsking(key) => key == k
    case GetSaving(msg) => msg.key == k
    case GetForgetting(key) => key == k
    case _ => false
  }

  predicate Looking(j: Job, k: Key) { exists id | id in j.handlers :: GetFor(j.handlers[id], k) }

  predicate Asks(j: Job, a: Action, k: Key)
    requires Enabled(j, a)
  {
    a.Handle? && j.handlers[a.id] == GetAsking(k)
  }

  /** The disk does what it is asked, and no lookup of k begins while another is under way. */
  predicate OrderlyStep(j: Job, a: Action, k: Key) {
    && (a.Handle? && a.event.Io? ==> a.event.ok)
    && (a.StartGet? && a.key == k ==> !Looking(j, k))
  }

  ghost function Orderly(j: Job, trace: seq<Action>, k: Key): bool {
    if trace == [] then true
    else
      Orderly(j, trace[..|trace| - 1], k)
      && match Exec(j, trace[..|trace| - 1])
         case Some(m) => OrderlyStep(m, trace[|trace| - 1], k)
         case None => false
  }

  ghost function Lookups(j: Job, trace: seq<Action>, k: Key): nat {
    if trace == [] then 0
    else
      var a := trace[|trace| - 1];
      Lookups(j, trace[..|trace| - 1], k)
      + match Exec(j, trace[..|trace| - 1])
        case Some(m) => (if Enabled(m, a) && Asks(m, a, k) then 1 else 0)
        case None => 0
  }

  /** At most one lookup of k is under way. */
  ghost predicate OneLooking(j: Job, k: Key) {
    forall id, other | id in j.handlers && other in j.handlers
      && GetFor(j.handlers[id], k) && GetFor(j.handlers[other], k) :: id == other
  }

  predicate Leaving(h: Handler) { h.GetSaving? || h.GetForgetting? }

  /** After the one call: its outcome is on disk or remembered as a miss, or about to be, and no
      lookup can get as far as asking again. */
  ghost predicate Answered(j: Job, k: Key) {
    && (k in j.core.disk || k in j.core.misses
        || exists id | id in j.handlers :: GetFor(j.handlers[id], k) && Leaving(j.handlers[id]))
    && forall id | id in j.handlers && GetFor(j.handlers[id], k) ::
         match j.handlers[id]
         case GetReading(_) => k in j.core.disk || k in j.core.misses
         case GetListing(_) => k in j.core.misses
         case GetRecalling(_) => k in j.core.misses
         case GetChecking(_) => false
         case GetAsking(_) => false
         case _ => true
  }

  /** A lookup past the manifest check is for a key the manifest lists. */
  ghost predicate ListedOnly(j: Job) {
    forall id | id in j.handlers ::
      match j.handlers[id]
      case GetRecalling(key) => key in j.core.index
      case GetChecking(key) => key in j.core.index
      case GetAsking(key) => key in j.core.index
      case _ => true
  }

  lemma OneLookingStep(j: Job, a: Action, k: Key)
    requires Enabled(j, a) && OrderlyStep(j, a, k) && OneLooking(j, k)
    ensures OneLooking(Next(j, a), k)
  {
    hide HandlerCore, FlushCore, FlushPhase, FlushCounters, IndexRead, PackRead, TaskNext, TaskCore;
    var j' := Next(j, a);
    forall id | id in j'.handlers && GetFor(j'.handlers[id], k)
      ensures (id in j.handlers && GetFor(j.handlers[id], k)) || (a.StartGet? && a.id == id && a.key == k)
    {
    }
  }

  lemma ListedOnlyStep(j: Job, a: Action)
    requires Enabled(j, a) && ListedOnly(j)
    ensures ListedOnly(Next(j, a))
  {
    hide FlushCore, FlushPhase, FlushCounters, IndexRead, PackRead, TaskNext, TaskCore, HandlerCore;
  }

  lemma AnsweredOther(j: Job, id: nat, e: HandlerEvent, k: Key)
    requires Enabled(j, Handle(id, e)) && Answered(j, k) && !GetFor(j.handlers[id], k)
    ensures Answered(Next(j, Handle(id, e)), k)
  {
    HandleOnly(j, id, e);
    var j' := Next(j, Handle(id, e));
    assert forall h' | HandlerNext(j.cfg, j.core, j.handlers[id], e) == Some(h') :: !GetFor(h', k);
    hide Next, HandlerCore, HandlerNext;
    assert forall other | other in j.handlers && other != id ::
      other in j'.handlers && j'.handlers[other] == j.handlers[other];
  }

  lemma AnsweredOwn(j: Job, id: nat, e: HandlerEvent, k: Key)
    requires Enabled(j, Handle(id, e)) && OrderlyStep(j, Handle(id, e), k) && OneLooking(j, k)
    requires GetFor(j.handlers[id], k)
    requires Answered(j, k) || j.handlers[id] == GetAsking(k)
    ensures Answered(Next(j, Handle(id, e)), k)
  {
    HandleOnly(j, id, e);
    var j' := Next(j, Handle(id, e));
    hide Next;
    assert forall other | other in j'.handlers && GetFor(j'.handlers[other], k) :: other == id;
    assert j.core.disk.Keys <= j'.core.disk.Keys && j.core.misses <= j'.core.misses;
    var h := j.handlers[id];
    if h.GetAsking? {
      assert id in j'.handlers && GetFor(j'.handlers[id], k) && Leaving(j'.handlers[id]);
    } else if Leaving(h) {
      assert id !in j'.handlers && (k in j'.core.disk || k in j'.core.misses);
    } else {
      assert k in j.core.disk || k in j.core.misses;
    }
  }

  lemma AnsweredStep(j: Job, a: Action, k: Key)
    requires Enabled(j, a) && OrderlyStep(j, a, k) && OneLooking(j, k)
    requires Answered(j, k) || Asks(j, a, k)
    ensures Answered(Next(j, a), k)
    ensures Answered(j, k) ==> !Asks(j, a, k)
  {
    if a.Handle? {
      if GetFor(j.handlers[a.id], k) {
        AnsweredOwn(j, a.id, a.event, k);
      } else {
        AnsweredOther(j, a.id, a.event, k);
      }
    } else {
      hide FlushPhase, FlushCounters, FlushCore, TaskNext, TaskCore, TaskCounters, IndexRead, PackRead;
      var j' := Next(j, a);
      assert j.core.disk.Keys <= j'.core.disk.Keys && j'.core.misses == j.core.misses;
      assert forall id | id in j.handlers :: id in j'.handlers && j'.handlers[id] == j.handlers[id];
    }
  }

  lemma {:induction false} LookupsAlways(cfg: Config, trace: seq<Action>, j: Job, k: Key)
    requires Exec(Fresh(cfg), trace) == Some(j) && Orderly(Fresh(cfg), trace, k)
    ensures OneLooking(j, k) && Lookups(Fresh(cfg), trace, k) <= 1
    ensures Lookups(Fresh(cfg), trace, k) == 1 ==> Answered(j, k)
    decreases |trace|
  {
    if trace != [] {
      hide OneLooking, Answered, Enabled, Next, OrderlyStep, Asks;
      var before, a := Exec(Fresh(cfg), trace[..|trace| - 1]).value, trace[|trace| - 1];
      LookupsAlways(cfg, trace[..|trace| - 1], before, k);
      OneLookingStep(before, a, k);
      if Lookups(Fresh(cfg), trace[..|trace| - 1], k) == 1 || Asks(before, a, k) {
        AnsweredStep(before, a, k);
      }
    }
  }

  /** In a run whose disk works and whose lookups of k do not overlap, k is asked of the service at
      most once, whatever else runs beside. */
  lemma AtMostOneLookup(cfg: Config, trace: seq<Action>, j: Job, k: Key)
    requires Exec(Fresh(cfg), trace) == Some(j) && Orderly(Fresh(cfg), trace, k)
    ensures Lookups(Fresh(cfg), trace, k) <= 1
  {
    LookupsAlways(cfg, trace, j, k);
  }

  lemma {:induction false} ListedOnlyAlways(cfg: Config, trace: seq<Action>, j: Job)
    requires Exec(Fresh(cfg), trace) == Some(j)
    ensures ListedOnly(j)
    decreases |trace|
  {
    if trace != [] {
      hide ListedOnly, Enabled, Next;
      var before := Exec(Fresh(cfg), trace[..|trace| - 1]).value;
      ListedOnlyAlways(cfg, trace[..|trace| - 1], before);
      ListedOnlyStep(before, trace[|trace| - 1]);
    }
  }

  /** Only keys the manifest lists are ever asked for. */
  lemma OnlyListedKeys(cfg: Config, trace: seq<Action>, j: Job, a: Action, k: Key)
    requires Exec(Fresh(cfg), trace) == Some(j) && Enabled(j, a) && Asks(j, a, k)
    ensures k in j.core.index
  {
    ListedOnlyAlways(cfg, trace, j);
  }

  /** On disk, with no lookup already past its read of the disk. */
  ghost predicate AtHome(j: Job, k: Key) {
    k in j.core.disk && forall id | id in j.handlers && GetFor(j.handlers[id], k) :: j.handlers[id].GetReading?
  }

  lemma AtHomeStep(j: Job, a: Action, k: Key)
    requires Enabled(j, a) && AtHome(j, k) && (a.Handle? && a.event.Io? ==> a.event.ok)
    ensures AtHome(Next(j, a), k) && !Asks(j, a, k)
  {
    if a.Handle? {
      HandleOnly(j, a.id, a.event);
      hide Next, HandlerCore;
    } else {
      hide FlushPhase, FlushCounters, FlushCore, TaskNext, TaskCore, TaskCounters, IndexRead, PackRead;
      var j' := Next(j, a);
      assert j.core.disk.Keys <= j'.core.disk.Keys;
      assert forall id | id in j'.handlers && GetFor(j'.handlers[id], k) ::
        j'.handlers[id].GetReading? || (id in j.handlers && j'.handlers[id] == j.handlers[id]);
    }
  }

  ghost predicate Readable(trace: seq<Action>) {
    forall a | a in trace && a.Handle? && a.event.Io? :: a.event.ok
  }

  /** Once a key is on disk - because it was put, unpacked or fetched - lookups that start after that
      never ask the service for it. */
  lemma {:induction false} NoLookupOnceOnDisk(j: Job, trace: seq<Action>, end: Job, k: Key)
    requires AtHome(j, k) && Exec(j, trace) == Some(end) && Readable(trace)
    ensures AtHome(end, k) && Lookups(j, trace, k) == 0
    decreases |trace|
  {
    if trace != [] {
      hide AtHome, Enabled, Next, Asks;
      var before, a := Exec(j, trace[..|trace| - 1]).value, trace[|trace| - 1];
      NoLookupOnceOnDisk(j, trace[..|trace| - 1], before, k);
      AtHomeStep(before, a, k);
    }
  }
}
