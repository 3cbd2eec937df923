/** One run of the proxy's store as a machine of atomic steps.

    Request handlers, upload tasks, the receive loop and the teardown interleave at every point where
    the program awaits. A step is what happens between two such points; the answers of the disk and
    of the cache service are part of the step that receives them. */
module Job {
  import opened Base
  import opened Gha
  import Ascii
  import Manifest
  import Pack

  type Key = string

  datatype Msg = Msg(key: Key, bytes: Bytes)

  /** What sets a save's name apart from those before it: the second it is made in, and the run's number. */
  datatype Stamp = Stamp(secs: nat, run: string)

  /** The service has an entry under exactly this key. */
  predicate Holds(service: seq<Msg>, k: Key) { exists m | m in service :: m.key == k }

  datatype Config = Config(prefix: string, scope: string, packThreshold: nat, packLimit: nat,
                           concurrency: nat, service: bool)

  /** The store's own fields. */
  datatype Core = Core(disk: map<Key, Bytes>, queued: set<Key>, packed: set<Key>, index: set<Key>,
                       misses: set<Key>, indexDirty: bool, packDirty: bool, open: bool,
                       channel: seq<Msg>, exhausted: bool)

  /** A request inside `put` or `get`, by what it does next. */
  datatype Handler =
    | PutWriting(msg: Msg)
    | PutFiling(msg: Msg)
    | PutFlagging
    | PutSending(msg: Msg)      // holds a clone of the sender
    | GetReading(key: Key)
    | GetListing(key: Key)
    | GetRecalling(key: Key)
    | GetChecking(key: Key)
    | GetAsking(key: Key)
    | GetSaving(msg: Msg)
    | GetForgetting(key: Key)

  datatype TaskStage = Putting(put: PutStage) | Listing | Flagging | Closing

  datatype Task = Task(msg: Msg, stage: TaskStage)

  datatype Uploader = Receiving | Holding(msg: Msg) | Joining | Ended

  datatype Phase =
    | Starting
    | Unpacking
    | Serving
    | Draining
    | SavingIndex(keys: seq<Key>, name: Key, put: PutStage)
    | IndexSaved
    | Packing(todo: seq<Key>, got: seq<Pack.Object>)
    | SavingPack(got: seq<Pack.Object>, name: Key, put: PutStage)
    | Finished

  datatype Counters = Counters(entriesStored: nat, uploadsFailed: nat, packed: nat)

  /** What happened, kept beside the state for the properties to speak about. */
  datatype Log = Log(loaded: set<Key>, sent: seq<Msg>, spawned: nat, results: map<nat, PutResult>,
                     answered: set<Key>)

  datatype Job = Job(cfg: Config, core: Core, counters: Counters, handlers: map<nat, Handler>,
                     tasks: map<nat, Task>, up: Uploader, phase: Phase, log: Log)

  datatype HandlerEvent = Io(ok: bool) | Go | Hear(reply: Reply<Offer>)

  datatype TaskEvent = Service(e: PutEvent) | Proceed

  datatype FlushEvent =
    | CloseQueue
    | QueueDrained(names: seq<Key>, stamp: Stamp)
    | Save(e: PutEvent)
    | SaveDone
    | Gather(names: seq<Key>)
    | ReadNext(ok: bool)
    | Ship(stamp: Stamp)

  datatype Action =
    | LoadIndex(reply: Reply<Offer>)
    | LoadPack(reply: Reply<Offer>, wrote: seq<bool>)
    | StartPut(id: nat, msg: Msg)
    | StartGet(id: nat, key: Key)
    | Handle(id: nat, event: HandlerEvent)
    | Receive
    | Spawn
    | HangUp
    | Join
    | Upload(id: nat, what: TaskEvent)
    | Flush(step: FlushEvent)

  function Fresh(cfg: Config): Job {
    Job(cfg, Core(map[], {}, {}, {}, {}, false, false, true, [], false), Counters(0, 0, 0), map[], map[],
        Receiving, Starting, Log({}, [], 0, map[], {}))
  }

  function Permits(cfg: Config): nat { if cfg.concurrency == 0 then 1 else cfg.concurrency }

  // -- start-up -------------------------------------------------------------------------------

  /** A lookup with nobody else running: the latch is consulted and the call made in one go. */
  function FetchNow(j: Job, reply: Reply<Offer>): Fetched {
    if !j.cfg.service || j.core.exhausted then Absent else AfterFetch(reply)
  }

  predicate CallsNow(j: Job) { j.cfg.service && !j.core.exhausted }

  function Latch(c: Core, limited: bool): Core { c.(exhausted := c.exhausted || limited) }

  function IndexRead(j: Job, reply: Reply<Offer>): (c: Core)
    ensures c.(index := j.core.index, exhausted := j.core.exhausted) == j.core
    ensures j.core.index <= c.index
    ensures j.core.exhausted ==> c.exhausted
  {
    var c := Latch(j.core, CallsNow(j) && reply.Limited?);
    match FetchNow(j, reply)
    case Found(bytes) => c.(index := c.index + (set k | k in Manifest.Listed(bytes)))
    case _ => c
  }

  /** Each unpacked object whose write succeeds is on disk and counts as packed. */
  function Unpack(c: Core, objects: seq<Pack.Object>, wrote: seq<bool>): (c': Core)
    requires |wrote| == |objects|
    ensures c'.(disk := c.disk, packed := c.packed) == c
    ensures c.disk.Keys <= c'.disk.Keys && c.packed <= c'.packed
    decreases |objects|
  {
    if objects == [] then c
    else
      var o := objects[0];
      var next := if wrote[0] then c.(disk := c.disk[o.key := o.body], packed := c.packed + {o.key}) else c;
      Unpack(next, objects[1..], wrote[1..])
  }

  function PackObjects(j: Job, reply: Reply<Offer>): seq<Pack.Object> {
    match FetchNow(j, reply)
    case Found(bytes) => (match Pack.Decoded(bytes) case Some(objects) => objects case None => [])
    case _ => []
  }

  function PackRead(j: Job, reply: Reply<Offer>, wrote: seq<bool>): (c: Core)
    requires |wrote| == |PackObjects(j, reply)|
    ensures c.(disk := j.core.disk, packed := j.core.packed, exhausted := j.core.exhausted) == j.core
    ensures j.core.disk.Keys <= c.disk.Keys && j.core.packed <= c.packed
    ensures j.core.exhausted ==> c.exhausted
  {
    Unpack(Latch(j.core, CallsNow(j) && reply.Limited?), PackObjects(j, reply), wrote)
  }

  // -- handlers -------------------------------------------------------------------------------

  predicate HandlerWaits(h: Handler, e: HandlerEvent) {
    match h
    case PutWriting(_) => e.Io?
    case GetReading(_) => e.Io?
    case GetSaving(_) => e.Io?
    case GetAsking(_) => e.Hear?
    case _ => e.Go?
  }

  /** The handler afterwards; none when it returns. */
  function HandlerNext(cfg: Config, c: Core, h: Handler, e: HandlerEvent): Option<Handler>
    requires HandlerWaits(h, e)
  {
    match h
    case PutWriting(msg) => Some(PutFiling(msg))
    case PutFiling(msg) =>
      if |msg.bytes| < cfg.packThreshold then (if msg.key in c.packed then None else Some(PutFlagging))
      else if c.open then Some(PutSending(msg)) else None
    case PutFlagging => None
    case PutSending(_) => None
    case GetReading(key) => if e.ok && key in c.disk then None else Some(GetListing(key))
    case GetListing(key) => if cfg.service && key in c.index then Some(GetRecalling(key)) else None
    case GetRecalling(key) => if key in c.misses then None else Some(GetChecking(key))
    case GetChecking(key) => Some(if c.exhausted then GetForgetting(key) else GetAsking(key))
    case GetAsking(key) =>
      (match AfterFetch(e.reply) case Found(bytes) => Some(GetSaving(Msg(key, bytes))) case _ => Some(GetForgetting(key)))
    case GetSaving(_) => None
    case GetForgetting(_) => None
  }

  function HandlerCore(cfg: Config, c: Core, h: Handler, e: HandlerEvent): (c': Core)
    requires HandlerWaits(h, e)
    ensures c'.index == c.index && c'.indexDirty == c.indexDirty && c'.open == c.open && c'.queued == c.queued
    ensures c.exhausted ==> c'.exhausted
    ensures c.disk.Keys <= c'.disk.Keys && c.misses <= c'.misses && c.packed <= c'.packed
    ensures c'.channel == if h.PutSending? then c.channel + [h.msg] else c.channel
  {
    match h
    case PutWriting(msg) => if e.ok then c.(disk := c.disk[msg.key := msg.bytes]) else c
    case PutFiling(msg) => if |msg.bytes| < cfg.packThreshold then c.(packed := c.packed + {msg.key}) else c
    case PutFlagging => c.(packDirty := true)
    case PutSending(msg) => c.(channel := c.channel + [msg])
    case GetAsking(_) => Latch(c, e.reply.Limited?)
    case GetSaving(msg) => if e.ok then c.(disk := c.disk[msg.key := msg.bytes]) else c
    case GetForgetting(key) => c.(misses := c.misses + {key})
    case _ => c
  }

  /** What a lookup returns to its caller, on the step that ends it. */
  function Answer(j: Job, a: Action): (answer: Option<(Key, Option<Bytes>)>)
    requires Enabled(j, a)
  {
    if !a.Handle? then None
    else
      var h := j.handlers[a.id];
      if HandlerNext(j.cfg, j.core, h, a.event).Some? then None
      else
        match h
        case GetReading(key) => Some((key, Some(j.core.disk[key])))
        case GetSaving(msg) => Some((msg.key, Some(msg.bytes)))
        case GetListing(key) => Some((key, None))
        case GetRecalling(key) => Some((key, None))
        case GetForgetting(key) => Some((key, None))
        case _ => None
  }

  // -- upload tasks ---------------------------------------------------------------------------

  predicate TaskWaits(t: Task, e: TaskEvent) {
    match t.stage
    case Putting(put) => if put.Back? then e.Proceed? else e.Service? && Expects(put, e.e)
    case _ => e.Proceed?
  }

  /** The stage afterwards; none when the task ends and gives its permit back. */
  function TaskNext(c: Core, t: Task, e: TaskEvent): Option<TaskStage>
    requires TaskWaits(t, e)
  {
    match t.stage
    case Putting(put) =>
      if put.Back? then Some(if put.result == Failed then Closing else Listing)
      else Some(Putting(Advance(put, c.exhausted, e.e)))
    case Listing => Some(if t.msg.key in c.index then Closing else Flagging)
    case Flagging => Some(Closing)
    case Closing => None
  }

  function TaskCore(c: Core, t: Task, e: TaskEvent): (c': Core)
    requires TaskWaits(t, e)
    ensures c'.(index := c.index, indexDirty := c.indexDirty, exhausted := c.exhausted) == c
    ensures c.index <= c'.index
    ensures c.exhausted ==> c'.exhausted
  {
    match t.stage
    case Putting(put) => if put.Back? then c else Latch(c, SetsLatch(e.e))
    case Listing => c.(index := c.index + {t.msg.key})
    case Flagging => c.(indexDirty := true)
    case Closing => c
  }

  function TaskCounters(n: Counters, t: Task): Counters {
    match t.stage
    case Putting(Back(Stored)) => n.(entriesStored := n.entriesStored + 1)
    case Putting(Back(Failed)) => n.(uploadsFailed := n.uploadsFailed + 1)
    case _ => n
  }

  // -- teardown -------------------------------------------------------------------------------

  function Named(cfg: Config, kind: string, stamp: Stamp): Key {
    ScopedPrefix(cfg.prefix, cfg.scope, kind) + Ascii.Print(stamp.secs) + "-" + stamp.run
  }

  ghost predicate FlushWaits(j: Job, e: FlushEvent) {
    match e
    case CloseQueue => j.phase.Serving?
    case QueueDrained(names, _) =>
      j.phase.Draining? && j.up.Ended?
      && (j.cfg.service && j.core.indexDirty ==> Manifest.Lists(names, j.core.index))
    case Save(put) => (j.phase.SavingIndex? || j.phase.SavingPack?) && Expects(j.phase.put, put)
    case SaveDone => (j.phase.SavingIndex? || j.phase.SavingPack?) && j.phase.put.Back?
    case Gather(names) => j.phase.IndexSaved? && (j.core.packDirty ==> Manifest.Lists(names, j.core.packed))
    case ReadNext(_) => j.phase.Packing? && j.phase.todo != []
    case Ship(_) => j.phase.Packing? && j.phase.todo == []
  }

  function FlushPhase(j: Job, e: FlushEvent): Phase
    requires FlushWaits(j, e)
  {
    match e
    case CloseQueue => Draining
    case QueueDrained(names, stamp) =>
      if !j.cfg.service then Finished
      else if j.core.indexDirty then SavingIndex(names, Named(j.cfg, "index", stamp), Entering)
      else IndexSaved
    case Save(put) => j.phase.(put := Advance(j.phase.put, j.core.exhausted, put))
    case SaveDone => if j.phase.SavingIndex? then IndexSaved else Finished
    case Gather(names) => if j.core.packDirty then Packing(names, []) else Finished
    case ReadNext(ok) =>
      var key := j.phase.todo[0];
      Packing(j.phase.todo[1..],
              if ok && key in j.core.disk then j.phase.got + [Pack.Object(key, j.core.disk[key])] else j.phase.got)
    case Ship(stamp) =>
      if j.phase.got == [] then Finished else SavingPack(j.phase.got, Named(j.cfg, "pack", stamp), Entering)
  }

  function FlushCore(c: Core, e: FlushEvent): (c': Core)
    ensures c'.(open := c.open, exhausted := c.exhausted) == c
    ensures c.exhausted ==> c'.exhausted
  {
    match e
    case CloseQueue => c.(open := false)
    case Save(put) => Latch(c, SetsLatch(put))
    case _ => c
  }

  function FlushCounters(j: Job, e: FlushEvent): Counters {
    if e.SaveDone? && j.phase.SavingPack? && j.phase.put.Back? && j.phase.put.result != Failed
    then j.counters.(packed := |j.phase.got|)
    else j.counters
  }

  /** The body a save in progress carries. */
  function SaveBody(cfg: Config, phase: Phase): Bytes
    requires phase.SavingIndex? || phase.SavingPack?
  {
    if phase.SavingIndex? then Manifest.Render(phase.keys) else Pack.Encoded(phase.got, cfg.packLimit)
  }

  // -- the machine ----------------------------------------------------------------------------

  predicate Live(j: Job) { !j.phase.Starting? && !j.phase.Unpacking? }

  /** No sender is left: the queue was closed and nobody holds a clone. */
  predicate Closed(j: Job) {
    !j.core.open && forall id | id in j.handlers :: !j.handlers[id].PutSending?
  }

  ghost predicate Enabled(j: Job, a: Action) {
    match a
    case LoadIndex(_) => j.phase.Starting?
    case LoadPack(reply, wrote) => j.phase.Unpacking? && |wrote| == |PackObjects(j, reply)|
    case StartPut(id, _) => Live(j) && id !in j.handlers
    case StartGet(id, _) => Live(j) && id !in j.handlers
    case Handle(id, e) => id in j.handlers && HandlerWaits(j.handlers[id], e)
    case Receive => j.up.Receiving? && j.core.channel != []
    case Spawn => j.up.Holding? && |j.tasks| < Permits(j.cfg)
    case HangUp => j.up.Receiving? && j.core.channel == [] && Closed(j)
    case Join => j.up.Joining? && j.tasks == map[]
    case Upload(id, e) => id in j.tasks && TaskWaits(j.tasks[id], e)
    case Flush(e) => FlushWaits(j, e)
  }

  function Received(j: Job): Job
    requires j.core.channel != []
  {
    j.(core := j.core.(channel := j.core.channel[1..]),
       up := if j.cfg.service then Holding(j.core.channel[0]) else Receiving)
  }

  function Move(j: Job, a: Action): Job
    requires Enabled(j, a)
  {
    match a
    case LoadIndex(reply) => j.(core := IndexRead(j, reply), phase := Unpacking)
    case LoadPack(reply, wrote) => j.(core := PackRead(j, reply, wrote), phase := Serving)
    case StartPut(id, msg) =>
      if msg.key in j.core.queued then j
      else j.(core := j.core.(queued := j.core.queued + {msg.key}), handlers := j.handlers[id := PutWriting(msg)])
    case StartGet(id, key) => j.(handlers := j.handlers[id := GetReading(key)])
    case Handle(id, e) =>
      var h := j.handlers[id];
      j.(core := HandlerCore(j.cfg, j.core, h, e),
         handlers := match HandlerNext(j.cfg, j.core, h, e)
                     case Some(h') => j.handlers[id := h']
                     case None => j.handlers - {id})
    case Receive => Received(j)
    case Spawn => j.(tasks := j.tasks[j.log.spawned := Task(j.up.msg, Putting(Entering))], up := Receiving)
    case HangUp => j.(up := Joining)
    case Join => j.(up := Ended)
    case Upload(id, e) =>
      var t := j.tasks[id];
      j.(core := TaskCore(j.core, t, e), counters := TaskCounters(j.counters, t),
         tasks := match TaskNext(j.core, t, e)
                  case Some(stage) => j.tasks[id := t.(stage := stage)]
                  case None => j.tasks - {id})
    case Flush(e) =>
      j.(core := FlushCore(j.core, e), counters := FlushCounters(j, e), phase := FlushPhase(j, e))
  }

  /** The record of the step: what was loaded, sent, spawned, answered and returned. */
  function Note(j: Job, a: Action): Log
    requires Enabled(j, a)
  {
    match a
    case LoadIndex(reply) => j.log.(loaded := IndexRead(j, reply).index)
    case Handle(id, _) =>
      if j.handlers[id].PutSending? then j.log.(sent := j.log.sent + [j.handlers[id].msg]) else j.log
    case Spawn => j.log.(spawned := j.log.spawned + 1)
    case Upload(id, e) => NoteTask(j.core, j.log, id, j.tasks[id], e)
    case _ => j.log
  }

  function NoteTask(c: Core, log: Log, id: nat, t: Task, e: TaskEvent): Log
    requires TaskWaits(t, e)
  {
    if e.Proceed? then log
    else
      var put := Advance(t.stage.put, c.exhausted, e.e);
      var log' := if put.Back? then log.(results := log.results[id := put.result]) else log;
      // The service answered a reservation unless it refused it for rate or failed it.
      if e.e.Create? && !e.e.grant.Limited? && put != Back(Failed)
      then log'.(answered := log'.answered + {t.msg.key})
      else log'
  }

  function Next(j: Job, a: Action): Job
    requires Enabled(j, a)
  {
    Move(j, a).(log := Note(j, a))
  }

  /** The state after a sequence of steps, if each is enabled in turn. */
  ghost function Exec(j: Job, trace: seq<Action>): Option<Job> {
    if trace == [] then Some(j)
    else
      match Exec(j, trace[..|trace| - 1])
      case None => None
      case Some(m) =>
        var a := trace[|trace| - 1];
        if Enabled(m, a) then Some(Next(m, a)) else None
  }

  /** The landed entry a step adds to the service: its key and its body. */
  function Landed(j: Job, a: Action): Option<Msg>
    requires Enabled(j, a)
  {
    match a
    case Upload(id, Service(e)) => if Lands(e) then Some(j.tasks[id].msg) else None
    case Flush(Save(e)) => if Lands(e) then Some(Msg(j.phase.name, SaveBody(j.cfg, j.phase))) else None
    case _ => None
  }

  /** The key a step has the service give away, by a granted reservation or an entry that lands. */
  function Claim(j: Job, a: Action): Option<Key>
    requires Enabled(j, a)
  {
    match a
    case Upload(id, Service(e)) => if Claims(e) then Some(j.tasks[id].msg.key) else None
    case Flush(Save(e)) => if Claims(e) then Some(j.phase.name) else None
    case _ => None
  }

  /** A handler's step touches the store's fields and that handler. */
  lemma HandleOnly(j: Job, id: nat, e: HandlerEvent)
    requires Enabled(j, Handle(id, e))
    ensures var j', h := Next(j, Handle(id, e)), j.handlers[id];
      && j' == j.(core := j'.core, handlers := j'.handlers, log := j'.log)
      && j'.core == HandlerCore(j.cfg, j.core, h, e)
      && j'.handlers == match HandlerNext(j.cfg, j.core, h, e) {
           case Some(h') => j.handlers[id := h'] case None => j.handlers - {id} }
  {
  }
}
