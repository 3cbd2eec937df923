/** The store's own operations, each run without interruption, and how they sit inside the machine:
    an operation is what its steps come to when nothing else moves between them. */
module Store {
  import opened Base
  import opened Gha
  import opened Job
  import Manifest
  import Overlap
  import Pack
  import Session
  import World

  /** A serving run with nothing in progress and the given fields. */
  function At(cfg: Config, c: Core): Job { Fresh(cfg).(core := c, phase := Phase.Serving) }

  // -- what each operation comes to -----------------------------------------------------------

  function Written(c: Core, m: Msg, wrote: bool): Core {
    if wrote then c.(disk := c.disk[m.key := m.bytes]) else c
  }

  /** A put: once a key; small objects join the pack, large ones the queue while it is open. */
  function AfterPut(cfg: Config, c: Core, m: Msg, wrote: bool): Core {
    if m.key in c.queued then c
    else
      var filed := Written(c.(queued := c.queued + {m.key}), m, wrote);
      if |m.bytes| < cfg.packThreshold then
        filed.(packed := c.packed + {m.key}, packDirty := c.packDirty || m.key !in c.packed)
      else if c.open then filed.(channel := c.channel + [m])
      else filed
  }

  datatype Lookup = Lookup(core: Core, answer: Option<Bytes>, calls: nat)

  /** A lookup: the disk first; the service only for a listed key not known to be missing. */
  function AfterGet(cfg: Config, c: Core, k: Key, readable: bool, reply: Reply<Offer>, wrote: bool): Lookup {
    if readable && k in c.disk then Lookup(c, Some(c.disk[k]), 0)
    else if !cfg.service || k !in c.index || k in c.misses then Lookup(c, None, 0)
    else if c.exhausted then Lookup(c.(misses := c.misses + {k}), None, 0)
    else
      match AfterFetch(reply)
      case Found(bytes) => Lookup(Written(c, Msg(k, bytes), wrote), Some(bytes), 1)
      case _ => Lookup(Latch(c, reply.Limited?).(misses := c.misses + {k}), None, 1)
  }

  datatype Filing = Filing(core: Core, result: PutResult, landed: Option<Msg>)

  /** Storing one entry, uninterrupted. */
  function AfterStore(c: Core, m: Msg, s: Script): Filing
    requires Coherent(s)
  {
    var end := Drive(Entering, s, c.exhausted, 0, false);
    Filing(c.(exhausted := end.exhausted), end.result, if end.landed then Some(m) else None)
  }

  /** An upload task: whatever the service took is listed from then on. */
  function AfterUpload(c: Core, m: Msg, s: Script): Filing
    requires Coherent(s)
  {
    var f := AfterStore(c, m, s);
    if f.result == Failed then f
    else f.(core := f.core.(index := c.index + {m.key}, indexDirty := c.indexDirty || m.key !in c.index))
  }

  /** The objects under `keys` that can be read back, in that order. */
  function Readable(disk: map<Key, Bytes>, keys: seq<Key>, readable: Key -> bool): seq<Pack.Object> {
    if keys == [] then []
    else
      (if readable(keys[0]) && keys[0] in disk then [Pack.Object(keys[0], disk[keys[0]])] else [])
      + Readable(disk, keys[1..], readable)
  }

  // -- the object -----------------------------------------------------------------------------

  class Store {
    const cfg: Config
    const gha: GhaCache?
    var disk: map<Key, Bytes>
    var queued: set<Key>
    var packed: set<Key>
    var index: set<Key>
    var misses: set<Key>
    var indexDirty: bool
    var packDirty: bool
    var open: bool
    var channel: seq<Msg>

    ghost predicate Valid()
      reads this
    {
      cfg.service <==> gha != null
    }

    ghost function View(): Core
      reads this, gha
    {
      Core(disk, queued, packed, index, misses, indexDirty, packDirty, open, channel, gha != null && gha.exhausted)
    }

    constructor (cfg: Config, gha: GhaCache?)
      requires cfg.service <==> gha != null
      ensures Valid() && this.cfg == cfg && this.gha == gha
      ensures gha == null || !gha.exhausted ==> View() == Fresh(cfg).core
    {
      this.cfg, this.gha := cfg, gha;
      disk, queued, packed, index, misses := map[], {}, {}, {}, {};
      indexDirty, packDirty, open, channel := false, false, true, [];
    }

    /** Start-up: the listed keys join the index. */
    method LoadIndex(reply: Reply<Offer>)
      requires Valid()
      modifies this, gha
      ensures Valid() && View() == IndexRead(At(cfg, old(View())), reply)
    {
      if gha == null {
        return;
      }
      var fetched, calls := gha.Fetch(reply);
      if fetched.Found? {
        index := Manifest.Absorb(index, fetched.bytes);
      }
    }

    /** Start-up: the packed objects go to disk; `wrote` says which writes succeed. */
    method LoadPack(reply: Reply<Offer>, wrote: seq<bool>)
      requires Valid() && |wrote| == |PackObjects(At(cfg, View()), reply)|
      modifies this, gha
      ensures Valid() && View() == PackRead(At(cfg, old(View())), reply, wrote)
    {
      ghost var start := View();
      ghost var objs := PackObjects(At(cfg, start), reply);
      if gha == null {
        assert objs == [];
        return;
      }
      var fetched, calls := gha.Fetch(reply);
      if !fetched.Found? {
        assert objs == [];
        return;
      }
      var decoded := Pack.Decode(fetched.bytes);
      if decoded == None {
        assert objs == [];
        return;
      }
      var objects := decoded.value;
      assert objects == objs;
      ghost var end := PackRead(At(cfg, start), reply, wrote);
      hide Pack.Decoded, PackObjects, PackRead;
      for i := 0 to |objects|
        invariant Valid() && Unpack(View(), objects[i..], wrote[i..]) == end
      {
        assert objects[i..][1..] == objects[i + 1..] && wrote[i..][1..] == wrote[i + 1..];
        if wrote[i] {
          disk := disk[objects[i].key := objects[i].body];
          packed := packed + {objects[i].key};
        }
      }
      assert objects[|objects|..] == [];
    }

    /** Takes an object in: on disk now, at the service by the end of the run. */
    method Put(key: Key, bytes: Bytes, wrote: bool)
      modifies this
      ensures View() == AfterPut(cfg, old(View()), Msg(key, bytes), wrote)
      ensures Valid() == old(Valid())
    {
      if key in queued {
        return;
      }
      queued := queued + {key};
      if wrote {
        disk := disk[key := bytes];
      }
      if |bytes| < cfg.packThreshold {
        if key !in packed {
          packed := packed + {key};
          packDirty := true;
        } else {
          assert packed + {key} == packed;
        }
        return;
      }
      if open {
        channel := channel + [Msg(key, bytes)];
      }
    }

    /** Looks an object up. */
    method Get(key: Key, readable: bool, reply: Reply<Offer>, wrote: bool) returns (answer: Option<Bytes>, calls: nat)
      requires Valid()
      modifies this, gha
      ensures Valid()
      ensures Lookup(View(), answer, calls) == AfterGet(cfg, old(View()), key, readable, reply, wrote)
    {
      if readable && key in disk {
        return Some(disk[key]), 0;
      }
      if gha == null || key !in index || key in misses {
        return None, 0;
      }
      var fetched, n := gha.Fetch(reply);
      calls := n;
      if fetched.Found? {
        if wrote {
          disk := disk[key := fetched.bytes];
        }
        return Some(fetched.bytes), calls;
      }
      misses := misses + {key};
      answer := None;
    }

    /** One upload task. */
    method Upload(m: Msg, s: Script) returns (result: PutResult, landed: bool)
      requires Valid() && gha != null && Coherent(s)
      modifies this, gha
      ensures Valid()
      ensures Filing(View(), result, if landed then Some(m) else None) == AfterUpload(old(View()), m, s)
    {
      var calls;
      result, calls, landed := gha.Put(s);
      if result == Failed {
        return;
      }
      if m.key !in index {
        index := index + {m.key};
        indexDirty := true;
      } else {
        assert index + {m.key} == index;
      }
    }

    /** Teardown, manifest: a new entry when the index grew. */
    method SaveIndex(s: Script, stamp: Stamp) returns (landed: Option<Msg>, ghost keys: seq<Key>)
      requires Valid() && Coherent(s)
      modifies gha
      ensures Valid() && Manifest.Lists(keys, index)
      ensures if cfg.service && indexDirty
        then (View(), landed) == (var f := AfterStore(old(View()), Msg(World.Spelled(cfg, "index", stamp), Manifest.Render(keys)), s);
                                  (f.core, f.landed))
        else View() == old(View()) && landed == None
    {
      landed := None;
      var list := Manifest.Collect(index);
      keys := list;
      if gha == null || !indexDirty {
        return;
      }
      World.SavesAreNamed(cfg, "index", stamp, stamp);
      var result, calls, stored := gha.Put(s);
      if stored {
        landed := Some(Msg(Named(cfg, "index", stamp), Manifest.Render(list)));
      }
    }

    method Gather(keys: seq<Key>, readable: Key -> bool) returns (objects: seq<Pack.Object>)
      ensures objects == Readable(disk, keys, readable)
    {
      objects := [];
      for i := 0 to |keys|
        invariant objects + Readable(disk, keys[i..], readable) == Readable(disk, keys, readable)
      {
        assert keys[i..][1..] == keys[i + 1..];
        if readable(keys[i]) && keys[i] in disk {
          objects := objects + [Pack.Object(keys[i], disk[keys[i]])];
        }
      }
      assert keys[|keys|..] == [];
    }

    /** Teardown, pack: what can be gathered from the disk becomes a new entry; `readable` says which reads
        succeed. */
    method SavePack(s: Script, stamp: Stamp, readable: Key -> bool)
      returns (landed: Option<Msg>, counted: Option<nat>, ghost keys: seq<Key>)
      requires Valid() && Coherent(s)
      modifies gha
      ensures Valid() && Manifest.Lists(keys, packed)
      ensures var got := Readable(disk, keys, readable);
        if cfg.service && packDirty && got != [] then
          var f := AfterStore(old(View()), Msg(World.Spelled(cfg, "pack", stamp), Pack.Encoded(got, cfg.packLimit)), s);
          View() == f.core && landed == f.landed && counted == if f.result == Failed then None else Some(|got|)
        else View() == old(View()) && landed == None && counted == None
    {
      landed, counted := None, None;
      var list := Manifest.Collect(packed);
      keys := list;
      if gha == null || !packDirty {
        return;
      }
      var objects := Gather(list, readable);
      if objects == [] {
        return;
      }
      var body := Pack.Encode(objects, cfg.packLimit);
      World.SavesAreNamed(cfg, "pack", stamp, stamp);
      var result, calls, stored := gha.Put(s);
      if stored {
        landed := Some(Msg(Named(cfg, "pack", stamp), body));
      }
      if result != Failed {
        counted := Some(|objects|);
      }
    }
  }

  // -- the operations inside the machine ------------------------------------------------------

  lemma OneMore(start: Job, trace: seq<Action>, j: Job, a: Action) returns (longer: seq<Action>)
    requires Exec(start, trace) == Some(j) && Enabled(j, a)
    ensures Exec(start, longer) == Some(Next(j, a)) && longer == trace + [a]
  {
    longer := trace + [a];
    assert longer[..|trace|] == trace;
  }

  /** The machine with one handler in progress. */
  function With(cfg: Config, c: Core, h: Handler, log: Log): Job {
    At(cfg, c).(handlers := map[0 := h], log := log)
  }

  lemma HandlerStep(cfg: Config, c: Core, h: Handler, log: Log, e: HandlerEvent)
    requires HandlerWaits(h, e)
    ensures var j := With(cfg, c, h, log);
      && Enabled(j, Handle(0, e))
      && var log' := if h.PutSending? then log.(sent := log.sent + [h.msg]) else log;
        Next(j, Handle(0, e)) == match HandlerNext(cfg, c, h, e) {
          case Some(h') => With(cfg, HandlerCore(cfg, c, h, e), h', log')
          case None => At(cfg, HandlerCore(cfg, c, h, e)).(log := log') }
  {
    hide HandlerNext, HandlerCore;
  }

  /** A put by itself is a run of the machine with the same outcome. */
  lemma PutIsSteps(cfg: Config, c: Core, m: Msg, wrote: bool) returns (trace: seq<Action>, end: Job)
    ensures Exec(At(cfg, c), trace) == Some(end)
    ensures end.core == AfterPut(cfg, c, m, wrote) && end.handlers == map[]
  {
    var start := At(cfg, c);
    trace := OneMore(start, [], start, StartPut(0, m));
    if m.key in c.queued {
      end := start;
      return;
    }
    var log := start.log;
    var c1 := c.(queued := c.queued + {m.key});
    assert Next(start, StartPut(0, m)) == With(cfg, c1, PutWriting(m), log);
    HandlerStep(cfg, c1, PutWriting(m), log, Io(wrote));
    trace := OneMore(start, trace, With(cfg, c1, PutWriting(m), log), Handle(0, Io(wrote)));
    var c2 := Written(c1, m, wrote);
    trace, end := FilingIsSteps(cfg, c, m, wrote, trace, c2);
  }

  lemma FilingIsSteps(cfg: Config, c: Core, m: Msg, wrote: bool, before: seq<Action>, c2: Core)
    returns (trace: seq<Action>, end: Job)
    requires m.key !in c.queued && c2 == Written(c.(queued := c.queued + {m.key}), m, wrote)
    requires Exec(At(cfg, c), before) == Some(With(cfg, c2, PutFiling(m), At(cfg, c).log))
    ensures Exec(At(cfg, c), trace) == Some(end)
    ensures end.core == AfterPut(cfg, c, m, wrote) && end.handlers == map[]
  {
    hide Exec, Next, Enabled;
    var start, log := At(cfg, c), At(cfg, c).log;
    HandlerStep(cfg, c2, PutFiling(m), log, Go);
    trace := OneMore(start, before, With(cfg, c2, PutFiling(m), log), Handle(0, Go));
    var c3 := HandlerCore(cfg, c2, PutFiling(m), Go);
    match HandlerNext(cfg, c2, PutFiling(m), Go)
    case None =>
      end := At(cfg, c3);
      assert m.key in c2.packed ==> c2.packed + {m.key} == c2.packed;
    case Some(h) =>
      HandlerStep(cfg, c3, h, log, Go);
      trace := OneMore(start, trace, With(cfg, c3, h, log), Handle(0, Go));
      end := At(cfg, HandlerCore(cfg, c3, h, Go)).(log := if h.PutSending? then log.(sent := log.sent + [h.msg]) else log);
  }

  predicate Getting(h: Handler) {
    h.GetReading? || h.GetListing? || h.GetRecalling? || h.GetChecking? || h.GetAsking? || h.GetSaving? || h.GetForgetting?
  }

  function StepsLeft(h: Handler): nat {
    match h
    case GetReading(_) => 6 case GetListing(_) => 5 case GetRecalling(_) => 4 case GetChecking(_) => 3
    case GetAsking(_) => 2 case _ => 1
  }

  /** What each step of a lookup hears, when the disk and the service will say this. */
  function Prompt(h: Handler, readable: bool, reply: Reply<Offer>, wrote: bool): (e: HandlerEvent)
    ensures Getting(h) ==> HandlerWaits(h, e)
  {
    match h
    case GetReading(_) => Io(readable)
    case GetSaving(_) => Io(wrote)
    case GetAsking(_) => Hear(reply)
    case _ => Go
  }

  function Returned(c: Core, h: Handler): Option<Bytes> {
    match h
    case GetReading(key) => if key in c.disk then Some(c.disk[key]) else None
    case GetSaving(msg) => Some(msg.bytes)
    case _ => None
  }

  /** A lookup's remaining steps in one go. */
  function Finish(cfg: Config, c: Core, h: Handler, readable: bool, reply: Reply<Offer>, wrote: bool): Lookup
    requires Getting(h)
    decreases StepsLeft(h)
  {
    var e := Prompt(h, readable, reply, wrote);
    var c', calls := HandlerCore(cfg, c, h, e), if h.GetAsking? then 1 else 0;
    match HandlerNext(cfg, c, h, e)
    case None => Lookup(c', Returned(c, h), calls)
    case Some(h') =>
      var rest := Finish(cfg, c', h', readable, reply, wrote);
      rest.(calls := calls + rest.calls)
  }

  lemma FinishStep(cfg: Config, c: Core, h: Handler, readable: bool, reply: Reply<Offer>, wrote: bool)
    requires Getting(h)
    ensures var e := Prompt(h, readable, reply, wrote);
      var c', calls := HandlerCore(cfg, c, h, e), if h.GetAsking? then 1 else 0;
      Finish(cfg, c, h, readable, reply, wrote) ==
      match HandlerNext(cfg, c, h, e) {
        case None => Lookup(c', Returned(c, h), calls)
        case Some(h') => (var rest := Finish(cfg, c', h', readable, reply, wrote); rest.(calls := calls + rest.calls)) }
  {
    hide HandlerCore, HandlerNext, Prompt, Returned;
  }

  lemma FinishForgetting(cfg: Config, c: Core, k: Key, readable: bool, reply: Reply<Offer>, wrote: bool)
    ensures Finish(cfg, c, GetForgetting(k), readable, reply, wrote) == Lookup(c.(misses := c.misses + {k}), None, 0)
  {
    hide Finish;
    FinishStep(cfg, c, GetForgetting(k), readable, reply, wrote);
  }

  lemma FinishAsking(cfg: Config, c: Core, k: Key, readable: bool, reply: Reply<Offer>, wrote: bool)
    ensures Finish(cfg, c, GetAsking(k), readable, reply, wrote) ==
      match AfterFetch(reply) {
        case Found(bytes) => Lookup(Written(c, Msg(k, bytes), wrote), Some(bytes), 1)
        case _ => Lookup(Latch(c, reply.Limited?).(misses := c.misses + {k}), None, 1) }
  {
    hide Finish;
    FinishStep(cfg, c, GetAsking(k), readable, reply, wrote);
    match AfterFetch(reply)
    case Found(bytes) =>
      assert !reply.Limited? && Latch(c, false) == c;
      FinishStep(cfg, c, GetSaving(Msg(k, bytes)), readable, reply, wrote);
    case _ =>
      FinishForgetting(cfg, Latch(c, reply.Limited?), k, readable, reply, wrote);
  }

  lemma FinishIsGet(cfg: Config, c: Core, k: Key, readable: bool, reply: Reply<Offer>, wrote: bool)
    ensures Finish(cfg, c, GetReading(k), readable, reply, wrote) == AfterGet(cfg, c, k, readable, reply, wrote)
  {
    hide Finish, AfterFetch;
    FinishStep(cfg, c, GetReading(k), readable, reply, wrote);
    FinishStep(cfg, c, GetListing(k), readable, reply, wrote);
    FinishStep(cfg, c, GetRecalling(k), readable, reply, wrote);
    FinishStep(cfg, c, GetChecking(k), readable, reply, wrote);
    FinishForgetting(cfg, c, k, readable, reply, wrote);
    FinishAsking(cfg, c, k, readable, reply, wrote);
  }

  lemma LastAnswer(cfg: Config, c: Core, h: Handler, log: Log, k: Key, readable: bool, reply: Reply<Offer>, wrote: bool)
    requires Getting(h) && (if h.GetSaving? then h.msg.key else h.key) == k
    requires HandlerNext(cfg, c, h, Prompt(h, readable, reply, wrote)) == None
    ensures var j, a := With(cfg, c, h, log), Handle(0, Prompt(h, readable, reply, wrote));
      Enabled(j, a) && Answer(j, a) == Some((k, Returned(c, h)))
  {
  }

  /** The steps left of a lookup, walked through in the machine. */
  lemma Walk(start: Job, trace: seq<Action>, cfg: Config, c: Core, h: Handler, log: Log, k: Key, readable: bool,
             reply: Reply<Offer>, wrote: bool) returns (steps: seq<Action>, before: Job, a: Action)
    requires Getting(h) && (if h.GetSaving? then h.msg.key else h.key) == k
    requires Exec(start, trace) == Some(With(cfg, c, h, log))
    ensures Exec(start, steps) == Some(before) && Enabled(before, a)
    ensures var end := Finish(cfg, c, h, readable, reply, wrote);
      Answer(before, a) == Some((k, end.answer)) && Next(before, a).core == end.core && Next(before, a).handlers == map[]
    decreases StepsLeft(h)
  {
    hide Exec, Next, Enabled, Answer, With;
    var e := Prompt(h, readable, reply, wrote);
    HandlerStep(cfg, c, h, log, e);
    match HandlerNext(cfg, c, h, e)
    case None =>
      steps, before, a := trace, With(cfg, c, h, log), Handle(0, e);
      LastAnswer(cfg, c, h, log, k, readable, reply, wrote);
    case Some(h') =>
      var longer := OneMore(start, trace, With(cfg, c, h, log), Handle(0, e));
      steps, before, a := Walk(start, longer, cfg, HandlerCore(cfg, c, h, e), h', log, k, readable, reply, wrote);
  }

  /** A lookup returns bytes exactly when the disk has them and can be read, or else when the key is
      listed and not known to be missing, the latch is open, and the service finds them; it asks the
      service in just the latter case, found or not; and it keeps a found object on disk if the write
      succeeds, and a key not found, though listed, as missing. */
  lemma GetExactly(cfg: Config, c: Core, k: Key, readable: bool, reply: Reply<Offer>, wrote: bool)
    ensures var end := AfterGet(cfg, c, k, readable, reply, wrote);
      var local := readable && k in c.disk;
      var listed := !local && cfg.service && k in c.index && k !in c.misses;
      var asked := listed && !c.exhausted;
      && end.calls == (if asked then 1 else 0)
      && (forall bytes: Bytes :: end.answer == Some(bytes) <==>
            (local && c.disk[k] == bytes) || (asked && AfterFetch(reply) == Found(bytes)))
      && end.core.disk == (if asked && AfterFetch(reply).Found? && wrote then c.disk[k := AfterFetch(reply).bytes] else c.disk)
      && end.core.misses == (if listed && end.answer == None then c.misses + {k} else c.misses)
      && end.core.exhausted == (c.exhausted || (asked && reply.Limited?))
      && end.core.(disk := c.disk, misses := c.misses, exhausted := c.exhausted) == c
  {
  }

  /** A lookup by itself is a run of the machine with the same answer and the same outcome. */
  lemma GetIsSteps(cfg: Config, c: Core, k: Key, readable: bool, reply: Reply<Offer>, wrote: bool)
    returns (steps: seq<Action>, before: Job, a: Action)
    ensures Exec(At(cfg, c), steps) == Some(before) && Enabled(before, a)
    ensures var end := AfterGet(cfg, c, k, readable, reply, wrote);
      Answer(before, a) == Some((k, end.answer)) && Next(before, a).core == end.core && Next(before, a).handlers == map[]
  {
    var start := At(cfg, c);
    var trace := OneMore(start, [], start, StartGet(0, k));
    assert Next(start, StartGet(0, k)) == With(cfg, c, GetReading(k), start.log);
    steps, before, a := Walk(start, trace, cfg, c, GetReading(k), start.log, k, readable, reply, wrote);
    FinishIsGet(cfg, c, k, readable, reply, wrote);
  }

  /** The machine with one upload task in progress. */
  function During(cfg: Config, c: Core, t: Task, log: Log, n: Counters): Job {
    At(cfg, c).(tasks := map[0 := t], log := log, counters := n)
  }

  lemma TaskStep(cfg: Config, c: Core, t: Task, log: Log, n: Counters, e: TaskEvent)
    requires TaskWaits(t, e)
    ensures var j := During(cfg, c, t, log, n);
      && Enabled(j, Action.Upload(0, e))
      && Next(j, Action.Upload(0, e)) ==
           var c', log', n' := TaskCore(c, t, e), NoteTask(c, log, 0, t, e), TaskCounters(n, t);
           match TaskNext(c, t, e) {
             case Some(stage) => During(cfg, c', t.(stage := stage), log', n')
             case None => At(cfg, c').(log := log', counters := n') }
  {
    hide TaskNext, TaskCore, NoteTask, TaskCounters;
  }

  /** Storing through the machine's steps ends as the uninterrupted store does. */
  lemma WalkPut(start: Job, trace: seq<Action>, cfg: Config, c: Core, m: Msg, stage: PutStage, s: Script, log: Log,
                n: Counters, calls: nat, landed: bool) returns (steps: seq<Action>, log': Log)
    requires Coherent(s)
    requires Exec(start, trace) == Some(During(cfg, c, Task(m, Putting(stage)), log, n))
    ensures var end := Drive(stage, s, c.exhausted, calls, landed);
      Exec(start, steps)
        == Some(During(cfg, c.(exhausted := end.exhausted), Task(m, Putting(Back(end.result))), log', n))
    decreases Distance(stage)
  {
    hide Exec, Next, Enabled, During;
    if stage.Back? {
      steps, log' := trace, log;
    } else {
      var t, e := Task(m, Putting(stage)), Cue(stage, s);
      TaskStep(cfg, c, t, log, n, Service(e));
      var longer := OneMore(start, trace, During(cfg, c, t, log, n), Action.Upload(0, Service(e)));
      steps, log' := WalkPut(start, longer, cfg, Latch(c, SetsLatch(e)), m, Advance(stage, c.exhausted, e), s,
                             NoteTask(c, log, 0, t, Service(e)), n,
                             calls + (if Calls(e) then 1 else 0), landed || Lands(e));
    }
  }

  /** An upload task by itself is a run of the machine with the same outcome. */
  lemma UploadIsSteps(cfg: Config, c: Core, m: Msg, s: Script, log: Log, n: Counters)
    returns (steps: seq<Action>, end: Job)
    requires Coherent(s)
    ensures Exec(During(cfg, c, Task(m, Putting(Entering)), log, n), steps) == Some(end)
    ensures end.core == AfterUpload(c, m, s).core && end.tasks == map[]
    ensures end.counters == TaskCounters(n, Task(m, Putting(Back(AfterUpload(c, m, s).result))))
  {
    var start := During(cfg, c, Task(m, Putting(Entering)), log, n);
    var log';
    steps, log' := WalkPut(start, [], cfg, c, m, Entering, s, log, n, 0, false);
    hide Drive;
    var f := AfterStore(c, m, s);
    steps, end := Settle(start, steps, cfg, f.core, m, f.result, log', n);
    if f.result != Failed && m.key in c.index {
      assert c.index + {m.key} == c.index;
    }
  }

  lemma Settle(start: Job, trace: seq<Action>, cfg: Config, c: Core, m: Msg, result: PutResult, log: Log, n: Counters)
    returns (steps: seq<Action>, end: Job)
    requires Exec(start, trace) == Some(During(cfg, c, Task(m, Putting(Back(result))), log, n))
    ensures Exec(start, steps) == Some(end) && end.tasks == map[]
    ensures end.counters == TaskCounters(n, Task(m, Putting(Back(result))))
    ensures end.core == if result == Failed then c
      else c.(index := c.index + {m.key}, indexDirty := c.indexDirty || m.key !in c.index)
  {
    hide Exec, Next, Enabled;
    var t, n' := Task(m, Putting(Back(result))), TaskCounters(n, Task(m, Putting(Back(result))));
    steps := OneProceed(start, trace, cfg, c, t, log, n);
    var c' := c;
    if result != Failed {
      steps := OneProceed(start, steps, cfg, c, Task(m, Listing), log, n');
      c' := c.(index := c.index + {m.key});
      if m.key !in c.index {
        steps := OneProceed(start, steps, cfg, c', Task(m, Flagging), log, n');
        c' := c'.(indexDirty := true);
      }
    }
    steps := OneProceed(start, steps, cfg, c', Task(m, Closing), log, n');
    end := At(cfg, c').(log := log, counters := n');
  }

  lemma OneProceed(start: Job, trace: seq<Action>, cfg: Config, c: Core, t: Task, log: Log, n: Counters)
    returns (steps: seq<Action>)
    requires Exec(start, trace) == Some(During(cfg, c, t, log, n)) && TaskWaits(t, Proceed)
    ensures Exec(start, steps) == Some(
      match TaskNext(c, t, Proceed) {
        case Some(stage) => During(cfg, TaskCore(c, t, Proceed), t.(stage := stage), log, TaskCounters(n, t))
        case None => At(cfg, TaskCore(c, t, Proceed)).(log := log, counters := TaskCounters(n, t)) })
  {
    hide Exec, TaskNext, TaskCore, TaskCounters, Next, Enabled, During, At;
    TaskStep(cfg, c, t, log, n, Proceed);
    steps := OneMore(start, trace, During(cfg, c, t, log, n), Action.Upload(0, Proceed));
  }

  // -- the saves inside the machine -----------------------------------------------------------

  /** The machine at teardown, its uploader ended. */
  function Leaving(cfg: Config, c: Core, phase: Phase): Job { At(cfg, c).(up := Ended, phase := phase) }

  /** The steps lead to this state and leave these entries at the service. */
  ghost predicate Gets(start: Job, trace: seq<Action>, j: Job, ys: seq<Msg>) {
    Exec(start, trace) == Some(j) && Overlap.Yields(start, trace) == ys
  }

  lemma OneFlush(start: Job, trace: seq<Action>, j: Job, ys: seq<Msg>, e: FlushEvent) returns (longer: seq<Action>)
    requires Gets(start, trace, j, ys) && Enabled(j, Flush(e))
    ensures Gets(start, longer, Next(j, Flush(e)), ys + Session.LandedSeq(j, Flush(e)))
  {
    hide Enabled, Next, Landed;
    longer := trace + [Flush(e)];
    assert longer[..|trace|] == trace;
  }

  predicate SavingPhase(phase: Phase) { phase.SavingIndex? || phase.SavingPack? }

  function Kept(cfg: Config, phase: Phase): Msg
    requires SavingPhase(phase)
  {
    Msg(phase.name, SaveBody(cfg, phase))
  }

  lemma SaveStep(cfg: Config, c: Core, phase: Phase, e: PutEvent)
    requires SavingPhase(phase) && Expects(phase.put, e)
    ensures var j := Leaving(cfg, c, phase);
      && Enabled(j, Flush(Save(e)))
      && Next(j, Flush(Save(e)))
           == Leaving(cfg, Latch(c, SetsLatch(e)), phase.(put := Advance(phase.put, c.exhausted, e)))
      && Session.LandedSeq(j, Flush(Save(e))) == if Lands(e) then [Kept(cfg, phase)] else []
  {
    hide Advance, SaveBody;
  }

  lemma DriveStep(stage: PutStage, s: Script, exhausted: bool, calls: nat, landed: bool)
    requires Coherent(s) && !stage.Back?
    ensures var e := Cue(stage, s);
      && Expects(stage, e) && Distance(Advance(stage, exhausted, e)) < Distance(stage)
      && (Lands(e) ==> Advance(stage, exhausted, e).Back?)
      && Drive(stage, s, exhausted, calls, landed)
           == Drive(Advance(stage, exhausted, e), s, exhausted || SetsLatch(e), calls + (if Calls(e) then 1 else 0),
                    landed || Lands(e))
    ensures landed ==> Drive(stage, s, exhausted, calls, landed).landed
  {
    hide AlreadyExists;
    DriveLands(stage, s, exhausted, calls, landed);
  }

  lemma {:induction false} DriveLands(stage: PutStage, s: Script, exhausted: bool, calls: nat, landed: bool)
    requires Coherent(s)
    ensures landed ==> Drive(stage, s, exhausted, calls, landed).landed
    decreases Distance(stage)
  {
    hide AlreadyExists;
    if !stage.Back? {
      var e := Cue(stage, s);
      DriveLands(Advance(stage, exhausted, e), s, exhausted || SetsLatch(e), calls + (if Calls(e) then 1 else 0),
                 landed || Lands(e));
    }
  }

  lemma SaveOnce(start: Job, trace: seq<Action>, ys: seq<Msg>, cfg: Config, c: Core, phase: Phase, e: PutEvent)
    returns (longer: seq<Action>)
    requires SavingPhase(phase) && Expects(StageOf(phase), e) && Gets(start, trace, Leaving(cfg, c, phase), ys)
    ensures Gets(start, longer,
                 Leaving(cfg, Latch(c, SetsLatch(e)), PutAt(phase, Advance(StageOf(phase), c.exhausted, e))),
                 ys + if Lands(e) then [Kept(cfg, phase)] else [])
  {
    assert Expects(phase.put, e) && phase.put == StageOf(phase);
    var j' := Leaving(cfg, Latch(c, SetsLatch(e)), PutAt(phase, Advance(StageOf(phase), c.exhausted, e)));
    assert j' == Leaving(cfg, Latch(c, SetsLatch(e)), phase.(put := Advance(phase.put, c.exhausted, e)));
    hide *;
    SaveStep(cfg, c, phase, e);
    longer := OneFlush(start, trace, Leaving(cfg, c, phase), ys, Save(e));
  }

  lemma DriveEnded(stage: PutStage, s: Script, exhausted: bool, calls: nat, landed: bool)
    requires Coherent(s) && stage.Back?
    ensures Drive(stage, s, exhausted, calls, landed) == Ending(stage.result, exhausted, calls, landed)
  {
  }

  function StageOf(phase: Phase): PutStage
    requires SavingPhase(phase)
  {
    phase.put
  }

  function PutAt(phase: Phase, put: PutStage): Phase
    requires SavingPhase(phase)
  {
    phase.(put := put)
  }

  function Shut(c: Core, exhausted: bool): Core { c.(exhausted := exhausted) }

  /** What a save changes of its phase and of the store, and what it does not. */
  lemma SaveKeeps(cfg: Config, c: Core, phase: Phase, put: PutStage, limited: bool)
    requires SavingPhase(phase)
    ensures SavingPhase(PutAt(phase, put)) && StageOf(PutAt(phase, put)) == put
    ensures Kept(cfg, PutAt(phase, put)) == Kept(cfg, phase)
    ensures Latch(c, limited).exhausted == (c.exhausted || limited)
    ensures forall end, stage ::
      (Leaving(cfg, Shut(Latch(c, limited), end), PutAt(PutAt(phase, put), stage))
       == Leaving(cfg, Shut(c, end), PutAt(phase, stage)))
    ensures Leaving(cfg, Shut(c, c.exhausted), PutAt(phase, StageOf(phase))) == Leaving(cfg, c, phase)
  {
  }

  lemma Joined(ys: seq<Msg>, m: Msg, first: bool, later: bool)
    requires first ==> later
    ensures ys + (if first then [m] else []) + (if later && !first then [m] else []) == ys + if later then [m] else []
  {
  }

  /** A save's remaining steps, walked through in the machine. */
  lemma WalkSave(start: Job, trace: seq<Action>, ys: seq<Msg>, cfg: Config, c: Core, phase: Phase, s: Script, calls: nat,
                 landed: bool) returns (steps: seq<Action>)
    requires Coherent(s) && SavingPhase(phase) && (landed ==> StageOf(phase).Back?)
    requires Gets(start, trace, Leaving(cfg, c, phase), ys)
    ensures var end := Drive(StageOf(phase), s, c.exhausted, calls, landed);
      Gets(start, steps, Leaving(cfg, Shut(c, end.exhausted), PutAt(phase, Back(end.result))),
           ys + if end.landed && !landed then [Kept(cfg, phase)] else [])
    decreases Distance(StageOf(phase))
  {
    hide *;
    var stage := StageOf(phase);
    if stage.Back? {
      steps := trace;
      DriveEnded(stage, s, c.exhausted, calls, landed);
      SaveKeeps(cfg, c, phase, stage, false);
      assert ys + [] == ys;
    } else {
      DriveStep(stage, s, c.exhausted, calls, landed);
      var e := Cue(stage, s);
      var put, more := Advance(stage, c.exhausted, e), calls + if Calls(e) then 1 else 0;
      SaveKeeps(cfg, c, phase, put, SetsLatch(e));
      var longer := SaveOnce(start, trace, ys, cfg, c, phase, e);
      DriveLands(put, s, c.exhausted || SetsLatch(e), more, Lands(e));
      steps := WalkSave(start, longer, ys + if Lands(e) then [Kept(cfg, phase)] else [], cfg, Latch(c, SetsLatch(e)),
                        PutAt(phase, put), s, more, Lands(e));
      Joined(ys, Kept(cfg, phase), Lands(e), Drive(stage, s, c.exhausted, calls, landed).landed);
    }
  }

  /** The manifest's save by itself is a run of the machine with the same outcome: the same fields
      after it, and the same entry left at the service. */
  lemma SaveIndexIsSteps(cfg: Config, c: Core, names: seq<Key>, stamp: Stamp, s: Script)
    returns (steps: seq<Action>, end: Job)
    requires cfg.service && Coherent(s) && (c.indexDirty ==> Manifest.Lists(names, c.index))
    ensures Exec(Leaving(cfg, c, Draining), steps) == Some(end) && end.phase.IndexSaved?
    ensures var f := AfterStore(c, Msg(World.Spelled(cfg, "index", stamp), Manifest.Render(names)), s);
      && end.core == (if c.indexDirty then f.core else c)
      && Overlap.Yields(Leaving(cfg, c, Draining), steps)
           == (match f.landed case Some(m) => if c.indexDirty then [m] else [] case None => [])
  {
    var start := Leaving(cfg, c, Draining);
    assert Gets(start, [], start, []);
    World.SavesAreNamed(cfg, "index", stamp, stamp);
    hide Gets, Manifest.Lists, Manifest.Render, Drive, Named, World.Spelled;
    steps := OneFlush(start, [], start, [], QueueDrained(names, stamp));
    assert [] + Session.LandedSeq(start, Flush(QueueDrained(names, stamp))) == [];
    end := Next(start, Flush(QueueDrained(names, stamp)));
    if c.indexDirty {
      var phase := SavingIndex(names, Named(cfg, "index", stamp), Entering);
      assert end == Leaving(cfg, c, phase);
      steps, end := SaveEnds(start, steps, cfg, c, phase, s);
    }
    GetsParts(start, steps, end);
  }

  lemma GetsParts(start: Job, trace: seq<Action>, j: Job)
    ensures forall ys :: Gets(start, trace, j, ys) <==> Exec(start, trace) == Some(j) && Overlap.Yields(start, trace) == ys
  {
  }

  /** The save and the step after it. */
  lemma SaveEnds(start: Job, trace: seq<Action>, cfg: Config, c: Core, phase: Phase, s: Script)
    returns (steps: seq<Action>, end: Job)
    requires Coherent(s) && SavingPhase(phase) && phase.put.Entering? && Gets(start, trace, Leaving(cfg, c, phase), [])
    ensures var f := AfterStore(c, Kept(cfg, phase), s);
      && Gets(start, steps, end, match f.landed case Some(m) => [m] case None => [])
      && end.core == f.core && end.phase == (if phase.SavingIndex? then IndexSaved else Finished)
      && end.counters.packed == if phase.SavingPack? && f.result != Failed then |phase.got| else 0
  {
    hide Gets, Drive, Kept;
    var f := Drive(Entering, s, c.exhausted, 0, false);
    var j := Leaving(cfg, c.(exhausted := f.exhausted), phase.(put := Back(f.result)));
    var ys := [] + if f.landed then [Kept(cfg, phase)] else [];
    steps := WalkSave(start, trace, [], cfg, c, phase, s, 0, false);
    steps := OneFlush(start, steps, j, ys, SaveDone);
    end := Next(j, Flush(SaveDone));
    assert ys + Session.LandedSeq(j, Flush(SaveDone)) == ys;
    assert ys == if f.landed then [Kept(cfg, phase)] else [];
  }

  lemma ReadStep(cfg: Config, c: Core, todo: seq<Key>, got: seq<Pack.Object>, ok: bool)
    requires todo != []
    ensures var j, e := Leaving(cfg, c, Packing(todo, got)), ReadNext(ok);
      var one := if ok && todo[0] in c.disk then [Pack.Object(todo[0], c.disk[todo[0]])] else [];
      && Enabled(j, Flush(e)) && Next(j, Flush(e)) == Leaving(cfg, c, Packing(todo[1..], got + one))
      && [] + Session.LandedSeq(j, Flush(e)) == []
  {
    assert got + [] == got;
  }

  lemma ReadableCons(disk: map<Key, Bytes>, todo: seq<Key>, got: seq<Pack.Object>, readable: Key -> bool)
    requires todo != []
    ensures var one := if readable(todo[0]) && todo[0] in disk then [Pack.Object(todo[0], disk[todo[0]])] else [];
      got + one + Readable(disk, todo[1..], readable) == got + Readable(disk, todo, readable)
  {
  }

  lemma ReadableNone(disk: map<Key, Bytes>, got: seq<Pack.Object>, readable: Key -> bool)
    ensures got + Readable(disk, [], readable) == got
  {
  }

  /** Gathering one object after the other is gathering them. */
  lemma GatherIsSteps(start: Job, trace: seq<Action>, cfg: Config, c: Core, todo: seq<Key>, got: seq<Pack.Object>,
                      readable: Key -> bool) returns (steps: seq<Action>)
    requires Gets(start, trace, Leaving(cfg, c, Packing(todo, got)), [])
    ensures Gets(start, steps, Leaving(cfg, c, Packing([], got + Readable(c.disk, todo, readable))), [])
    decreases |todo|
  {
    hide *;
    if todo == [] {
      ReadableNone(c.disk, got, readable);
      steps := trace;
    } else {
      var j, ok := Leaving(cfg, c, Packing(todo, got)), readable(todo[0]);
      var one := if ok && todo[0] in c.disk then [Pack.Object(todo[0], c.disk[todo[0]])] else [];
      ReadableCons(c.disk, todo, got, readable);
      ReadStep(cfg, c, todo, got, ok);
      var longer := OneFlush(start, trace, j, [], ReadNext(ok));
      steps := GatherIsSteps(start, longer, cfg, c, todo[1..], got + one, readable);
    }
  }

  /** The pack's save by itself is a run of the machine with the same outcome. */
  lemma SavePackIsSteps(cfg: Config, c: Core, names: seq<Key>, stamp: Stamp, s: Script, readable: Key -> bool)
    returns (steps: seq<Action>, end: Job)
    requires cfg.service && Coherent(s) && (c.packDirty ==> Manifest.Lists(names, c.packed))
    ensures Exec(Leaving(cfg, c, IndexSaved), steps) == Some(end) && end.phase.Finished?
    ensures var got := Readable(c.disk, names, readable);
      var f := AfterStore(c, Msg(World.Spelled(cfg, "pack", stamp), Pack.Encoded(got, cfg.packLimit)), s);
      var saves := c.packDirty && got != [];
      && end.core == (if saves then f.core else c)
      && end.counters.packed == (if saves && f.result != Failed then |got| else 0)
      && Overlap.Yields(Leaving(cfg, c, IndexSaved), steps)
           == (match f.landed case Some(m) => if saves then [m] else [] case None => [])
  {
    var start := Leaving(cfg, c, IndexSaved);
    assert Gets(start, [], start, []);
    World.SavesAreNamed(cfg, "pack", stamp, stamp);
    hide Gets, Manifest.Lists, Pack.Encoded, Drive, Named, World.Spelled, Readable;
    assert [] + Session.LandedSeq(start, Flush(FlushEvent.Gather(names))) == [];
    steps := OneFlush(start, [], start, [], FlushEvent.Gather(names));
    end := Next(start, Flush(FlushEvent.Gather(names)));
    if c.packDirty {
      assert end == Leaving(cfg, c, Packing(names, []));
      steps := GatherIsSteps(start, steps, cfg, c, names, [], readable);
      var got := Readable(c.disk, names, readable);
      assert [] + got == got;
      steps, end := Shipping(start, steps, cfg, c, got, stamp, s);
    }
    GetsParts(start, steps, end);
  }

  lemma Shipping(start: Job, trace: seq<Action>, cfg: Config, c: Core, got: seq<Pack.Object>, stamp: Stamp, s: Script)
    returns (steps: seq<Action>, end: Job)
    requires Coherent(s) && Gets(start, trace, Leaving(cfg, c, Packing([], got)), [])
    ensures var f := AfterStore(c, Msg(Named(cfg, "pack", stamp), Pack.Encoded(got, cfg.packLimit)), s);
      && Gets(start, steps, end, match f.landed case Some(m) => if got != [] then [m] else [] case None => [])
      && end.core == (if got != [] then f.core else c) && end.phase.Finished?
      && end.counters.packed == (if got != [] && f.result != Failed then |got| else 0)
  {
    hide Gets, Pack.Encoded, Drive, Named;
    var j := Leaving(cfg, c, Packing([], got));
    assert [] + Session.LandedSeq(j, Flush(Ship(stamp))) == [];
    steps := OneFlush(start, trace, j, [], Ship(stamp));
    end := Next(j, Flush(Ship(stamp)));
    if got != [] {
      var phase := SavingPack(got, Named(cfg, "pack", stamp), Entering);
      assert end == Leaving(cfg, c, phase);
      steps, end := SaveEnds(start, steps, cfg, c, phase, s);
    }
  }
}
