/** Runs, spelled out step by step, that the manifest does not serve: one that lists a key the service
    never took, and two that overlap, of which the second loses what the first listed. */
module Overlap {
  import opened Base
  import opened Gha
  import opened Job
  import opened Session
  import opened History
  import Manifest
  import Pack
  import Text
  import World

  // -- runs as lists of steps -----------------------------------------------------------------

  /** What a run leaves at the service, in order. */
  ghost function Yields(j: Job, trace: seq<Action>): seq<Msg> {
    if trace == [] then []
    else
      Yields(j, trace[..|trace| - 1]) +
      match Exec(j, trace[..|trace| - 1])
      case Some(m) => (if Enabled(m, trace[|trace| - 1]) then LandedSeq(m, trace[|trace| - 1]) else [])
      case None => []
  }

  const NOTHING: Reply<Offer> := Replied(Offer(false, "", None))

  /** A step the service has no say in but by taking entries, or finding none. */
  predicate Tame(prefix: string, m: Msg, a: Action) {
    match a
    case LoadIndex(reply) => reply == NOTHING
    case LoadPack(reply, _) => reply == NOTHING
    case Handle(_, Hear(_)) => false
    case StartGet(_, key) => World.ObjectKey(prefix, key)
    case StartPut(_, msg) => msg == m && World.ObjectKey(prefix, msg.key) && Pack.Narrow(Pack.Object(msg.key, msg.bytes))
    case _ => true
  }

  /** What a run finds listed, what it is to put, and the stamp and the lines of its manifest. */
  datatype Plan = Plan(put: Msg, stamp: Stamp, known: set<Key>, names: seq<Key>)

  /** The only keys such a run has the service give away. */
  function Names(cfg: Config, plan: Plan): set<Key> { {plan.put.key, World.Spelled(cfg, "index", plan.stamp)} }

  /** The service grants, takes and confirms what a save asks. */
  predicate Yes(c: Core, e: PutEvent) {
    match e
    case Check => !c.exhausted
    case Create(grant) => Granted(grant)
    case Blob(accepted) => accepted
    case Finalize(done, _) => done == Replied(true)
  }

  /** A step as orderly as the second-run theorem asks of a storing run that has left `zs` so far, and
      that keeps to its names. */
  predicate Neat(plan: Plan, zs: seq<Msg>, j: Job, a: Action)
    requires Enabled(j, a)
  {
    && (a.StartPut? ==> j.phase.Serving?)
    && (a.Handle? && a.event.Io? ==> a.event.ok)
    && (a.Flush? ==>
          && (a.step.CloseQueue? ==> j.handlers == map[])
          && (a.step.QueueDrained? ==>
                a.step.stamp == plan.stamp && !Holds(zs, World.Spelled(j.cfg, "index", plan.stamp)))
          && (a.step.Save? ==> Yes(j.core, a.step.e))
          && !a.step.ReadNext? && !a.step.Ship?)
    && (match Claim(j, a) case Some(k) => k in Names(j.cfg, plan) && !Holds(zs, k) case None => true)
  }

  ghost predicate NeatAll(plan: Plan, j: Job, trace: seq<Action>) {
    trace == [] ||
    (NeatAll(plan, j, trace[..|trace| - 1])
     && match Exec(j, trace[..|trace| - 1])
        case Some(m) =>
          Enabled(m, trace[|trace| - 1]) && Neat(plan, Yields(j, trace[..|trace| - 1]), m, trace[|trace| - 1])
        case None => false)
  }

  /** The steps lead from j0 to j and leave ys at the service; if anything is put, it is as planned. */
  ghost predicate Leads(prefix: string, plan: Plan, j0: Job, trace: seq<Action>, j: Job, ys: seq<Msg>) {
    && Exec(j0, trace) == Some(j) && Yields(j0, trace) == ys && NeatAll(plan, j0, trace)
    && forall a | a in trace :: Tame(prefix, plan.put, a)
  }

  /** One more step. */
  lemma Step(prefix: string, plan: Plan, j0: Job, trace: seq<Action>, j: Job, ys: seq<Msg>, a: Action, j': Job)
    returns (longer: seq<Action>)
    requires Leads(prefix, plan, j0, trace, j, ys) && Enabled(j, a) && Next(j, a) == j'
    requires Tame(prefix, plan.put, a) && Neat(plan, ys, j, a)
    ensures longer == trace + [a] && Leads(prefix, plan, j0, longer, j', ys + LandedSeq(j, a))
  {
    hide Tame, Neat, Enabled, Next, Landed;
    longer := trace + [a];
    assert longer[..|trace|] == trace;
  }

  /** One more step, that lands nothing. */
  lemma Quiet(prefix: string, plan: Plan, j0: Job, trace: seq<Action>, j: Job, ys: seq<Msg>, a: Action, j': Job)
    returns (longer: seq<Action>)
    requires Leads(prefix, plan, j0, trace, j, ys) && Enabled(j, a) && Next(j, a) == j' && Landed(j, a) == None
    requires Tame(prefix, plan.put, a) && Neat(plan, ys, j, a)
    ensures longer == trace + [a] && Leads(prefix, plan, j0, longer, j', ys)
  {
    hide Leads, Tame, Neat, Enabled, Next;
    longer := Step(prefix, plan, j0, trace, j, ys, a, j');
    assert ys + [] == ys;
  }

  function Steps(id: nat, trace: seq<Action>): seq<World.Event> {
    if trace == [] then [] else Steps(id, trace[..|trace| - 1]) + [World.Step(id, trace[|trace| - 1])]
  }

  /** The run's steps as steps of the world. */
  lemma {:induction false} InWorld(prefix: string, plan: Plan, events: seq<World.Event>, w: World.World, id: nat,
                                   trace: seq<Action>, j: Job, ys: seq<Msg>) returns (w': World.World)
    requires World.History(prefix, events) == Some(w) && id in w.jobs && Leads(prefix, plan, w.jobs[id], trace, j, ys)
    requires w.jobs[id].cfg.prefix == prefix && Unheld(w.service, w.jobs[id].cfg, plan)
    ensures World.History(prefix, events + Steps(id, trace)) == Some(w')
    ensures w'.service == w.service + ys && w'.jobs == w.jobs[id := j] && j.cfg == w.jobs[id].cfg
    decreases |trace|
  {
    hide *;
    if trace == [] {
      NoStep(prefix, plan, w.jobs[id], j, ys);
      StepsOfNone(id);
      assert events + [] == events && w.service + [] == w.service && w.jobs[id := w.jobs[id]] == w.jobs;
      w' := w;
    } else {
      var early, a := trace[..|trace| - 1], trace[|trace| - 1];
      var m, zs := LastStep(prefix, plan, w.jobs[id], trace, j, ys);
      var v := InWorld(prefix, plan, events, w, id, early, m, zs);
      w' := OneInWorld(prefix, plan, events + Steps(id, early), v, id, a, w.service, zs);
      StepsOfMore(id, trace);
      Text.Associate(events, Steps(id, early), [World.Step(id, a)]);
      Text.Associate(w.service, zs, LandedSeq(m, a));
      assert w.jobs[id := m][id := j] == w.jobs[id := j];
    }
  }

  lemma StepsOfNone(id: nat)
    ensures Steps(id, []) == []
  {
  }

  lemma StepsOfMore(id: nat, trace: seq<Action>)
    requires trace != []
    ensures Steps(id, trace) == Steps(id, trace[..|trace| - 1]) + [World.Step(id, trace[|trace| - 1])]
  {
  }

  lemma NoStep(prefix: string, plan: Plan, j0: Job, j: Job, ys: seq<Msg>)
    requires Leads(prefix, plan, j0, [], j, ys)
    ensures j == j0 && ys == []
  {
  }

  lemma LastStep(prefix: string, plan: Plan, j0: Job, trace: seq<Action>, j: Job, ys: seq<Msg>)
    returns (m: Job, zs: seq<Msg>)
    requires trace != [] && Leads(prefix, plan, j0, trace, j, ys)
    ensures var a := trace[|trace| - 1];
      && Leads(prefix, plan, j0, trace[..|trace| - 1], m, zs) && Tame(prefix, plan.put, a)
      && Enabled(m, a) && Neat(plan, zs, m, a) && Next(m, a) == j && ys == zs + LandedSeq(m, a)
  {
    hide Tame, Neat, Enabled, Next, Landed;
    m, zs := Exec(j0, trace[..|trace| - 1]).value, Yields(j0, trace[..|trace| - 1]);
    assert forall x | x in trace[..|trace| - 1] :: x in trace;
  }

  /** None of the names the run keeps to is taken. */
  predicate Unheld(service: seq<Msg>, cfg: Config, plan: Plan) {
    forall k | k in Names(cfg, plan) :: !Holds(service, k)
  }

  lemma HoldsConcat(some: seq<Msg>, more: seq<Msg>, k: Key)
    ensures Holds(some + more, k) <==> Holds(some, k) || Holds(more, k)
  {
    if x :| x in some && x.key == k {
      assert x in some + more;
    }
    if x :| x in more && x.key == k {
      assert x in some + more;
    }
  }

  lemma NothingHeld(cfg: Config, plan: Plan)
    ensures Unheld([], cfg, plan)
  {
  }

  lemma NeatIsFree(plan: Plan, base: seq<Msg>, zs: seq<Msg>, j: Job, a: Action)
    requires Enabled(j, a) && Neat(plan, zs, j, a) && Unheld(base, j.cfg, plan)
    ensures World.Free(base + zs, Claim(j, a))
    ensures a.Flush? && a.step.QueueDrained? ==> !Holds(base + zs, World.Spelled(j.cfg, "index", a.step.stamp))
  {
    HoldsConcat(base, zs, plan.put.key);
    HoldsConcat(base, zs, World.Spelled(j.cfg, "index", plan.stamp));
    hide Enabled, Holds, Claim, World.Spelled;
  }

  lemma OneInWorld(prefix: string, plan: Plan, events: seq<World.Event>, w: World.World, id: nat, a: Action,
                   base: seq<Msg>, zs: seq<Msg>) returns (w': World.World)
    requires World.History(prefix, events) == Some(w) && id in w.jobs && w.jobs[id].cfg.prefix == prefix
    requires Enabled(w.jobs[id], a) && Tame(prefix, plan.put, a) && Neat(plan, zs, w.jobs[id], a)
    requires w.service == base + zs && Unheld(base, w.jobs[id].cfg, plan)
    ensures World.History(prefix, events + [World.Step(id, a)]) == Some(w')
    ensures w'.service == w.service + LandedSeq(w.jobs[id], a) && w'.jobs == w.jobs[id := Next(w.jobs[id], a)]
    ensures Next(w.jobs[id], a).cfg == w.jobs[id].cfg
  {
    NeatIsFree(plan, base, zs, w.jobs[id], a);
    TameIsPlausible(prefix, plan, w, id, a);
    World.SameConfig(w.jobs[id], a);
    hide Tame, Enabled, Next, Landed, World.Plausible, Neat, Unheld, Claim;
    w' := World.After(prefix, w, World.Step(id, a));
    assert (events + [World.Step(id, a)])[..|events|] == events;
  }

  lemma TameIsPlausible(prefix: string, plan: Plan, w: World.World, id: nat, a: Action)
    requires id in w.jobs && Enabled(w.jobs[id], a) && Tame(prefix, plan.put, a) && w.jobs[id].cfg.prefix == prefix
    requires World.Free(w.service, Claim(w.jobs[id], a))
    ensures World.Possible(prefix, w, World.Step(id, a))
  {
    hide World.ObjectKey, Pack.Narrow, Claim, World.Free;
  }

  // -- one run of one object ------------------------------------------------------------------

  /** The object is one to be stored singly and not listed yet, and the lines are right. */
  ghost predicate Suitable(cfg: Config, p: Plan) {
    && cfg.service && |p.put.bytes| >= cfg.packThreshold
    && World.ObjectKey(cfg.prefix, p.put.key) && Pack.Narrow(Pack.Object(p.put.key, p.put.bytes))
    && p.put.key !in p.known && Manifest.Lists(p.names, p.known + {p.put.key})
  }

  /** A run that found these keys listed, no pack, and is serving. */
  function Serving(cfg: Config, known: set<Key>): Job {
    var j := Fresh(cfg);
    j.(core := j.core.(index := known), phase := Phase.Serving, log := j.log.(loaded := known))
  }

  lemma ReachServing(cfg: Config, p: Plan) returns (trace: seq<Action>)
    requires cfg.service && p.known == {}
    ensures Leads(cfg.prefix, p, Fresh(cfg), trace, Serving(cfg, p.known), [])
  {
    var j0, j1 := Fresh(cfg), Fresh(cfg).(phase := Unpacking);
    assert AfterFetch(NOTHING) == Absent;
    assert Leads(cfg.prefix, p, j0, [], j0, []);
    hide Leads;
    trace := Quiet(cfg.prefix, p, j0, [], j0, [], LoadIndex(NOTHING), j1);
    trace := Quiet(cfg.prefix, p, j0, trace, j1, [], LoadPack(NOTHING, []), Serving(cfg, p.known));
  }

  /** The same run with its object put and its upload task at the given stage. */
  function Task0(cfg: Config, p: Plan, stage: TaskStage, results: map<nat, PutResult>, answered: set<Key>): Job {
    var j := Serving(cfg, p.known);
    j.(core := j.core.(disk := map[p.put.key := p.put.bytes], queued := {p.put.key}),
       tasks := map[0 := Task(p.put, stage)], log := Log(p.known, [p.put], 1, results, answered))
  }

  lemma ReachTask(cfg: Config, p: Plan) returns (trace: seq<Action>)
    requires Suitable(cfg, p)
    ensures Leads(cfg.prefix, p, Serving(cfg, p.known), trace, Task0(cfg, p, Putting(Entering), map[], {}), [])
  {
    var j0 := Serving(cfg, p.known);
    assert Leads(cfg.prefix, p, j0, [], j0, []);
    hide Leads, World.ObjectKey, Pack.Narrow, Manifest.Lists;
    trace := Quiet(cfg.prefix, p, j0, [], j0, [], StartPut(0, p.put), Writing(cfg, p));
    trace := WriteTask(cfg, p, trace);
  }

  /** The same run, its object about to be written. */
  function Writing(cfg: Config, p: Plan): Job {
    var j := Serving(cfg, p.known);
    j.(core := j.core.(queued := {p.put.key}), handlers := map[0 := PutWriting(p.put)])
  }

  /** The same run, its object written and its put at the given step. */
  function Written(cfg: Config, p: Plan, h: Handler): Job {
    var j := Writing(cfg, p);
    j.(core := j.core.(disk := map[p.put.key := p.put.bytes]), handlers := map[0 := h])
  }

  lemma WriteTask(cfg: Config, p: Plan, start: seq<Action>) returns (trace: seq<Action>)
    requires Suitable(cfg, p) && Leads(cfg.prefix, p, Serving(cfg, p.known), start, Writing(cfg, p), [])
    ensures Leads(cfg.prefix, p, Serving(cfg, p.known), trace, Task0(cfg, p, Putting(Entering), map[], {}), [])
  {
    hide Leads, World.ObjectKey, Pack.Narrow, Manifest.Lists;
    var j0, j1 := Serving(cfg, p.known), Writing(cfg, p);
    trace := Quiet(cfg.prefix, p, j0, start, j1, [], Handle(0, Io(true)), Written(cfg, p, PutFiling(p.put)));
    trace := FileTask(cfg, p, trace);
  }

  lemma FileTask(cfg: Config, p: Plan, start: seq<Action>) returns (trace: seq<Action>)
    requires Suitable(cfg, p)
    requires Leads(cfg.prefix, p, Serving(cfg, p.known), start, Written(cfg, p, PutFiling(p.put)), [])
    ensures Leads(cfg.prefix, p, Serving(cfg, p.known), trace, Task0(cfg, p, Putting(Entering), map[], {}), [])
  {
    hide Leads, World.ObjectKey, Pack.Narrow;
    var j0 := Serving(cfg, p.known);
    trace := Quiet(cfg.prefix, p, j0, start, Written(cfg, p, PutFiling(p.put)), [], Handle(0, Go),
                   Written(cfg, p, PutSending(p.put)));
    trace := SendTask(cfg, p, trace);
  }

  lemma SendTask(cfg: Config, p: Plan, start: seq<Action>) returns (trace: seq<Action>)
    requires Suitable(cfg, p)
    requires Leads(cfg.prefix, p, Serving(cfg, p.known), start, Written(cfg, p, PutSending(p.put)), [])
    ensures Leads(cfg.prefix, p, Serving(cfg, p.known), trace, Task0(cfg, p, Putting(Entering), map[], {}), [])
  {
    hide Leads, World.ObjectKey, Pack.Narrow;
    var j0 := Serving(cfg, p.known);
    var j3 := Written(cfg, p, PutSending(p.put));
    var j4 := j3.(core := j3.core.(channel := [p.put]), handlers := map[], log := j3.log.(sent := [p.put]));
    trace := Quiet(cfg.prefix, p, j0, start, j3, [], Handle(0, Go), j4);
    var j5 := j4.(core := j4.core.(channel := []), up := Uploader.Holding(p.put));
    trace := Quiet(cfg.prefix, p, j0, trace, j4, [], Receive, j5);
    trace := Quiet(cfg.prefix, p, j0, trace, j5, [], Spawn, Task0(cfg, p, Putting(Entering), map[], {}));
  }

  const GRANT: Reply<Grant> := Replied(Grant(true, "upload"))
  const REFUSAL: Reply<Grant> := Replied(Grant(false, ""))
  const DONE: PutEvent := Finalize(Replied(true), true)

  lemma Stages()
    ensures AfterCreate(GRANT) == Reserved && AfterCreate(REFUSAL) == Back(Declined)
    ensures AfterFinalize(Replied(true)) == Back(Stored)
  {
  }

  /** The upload is declined without a word: nothing lands. */
  lemma ReachDeclined(cfg: Config, p: Plan, start: seq<Action>) returns (trace: seq<Action>)
    requires Leads(cfg.prefix, p, Serving(cfg, p.known), start, Task0(cfg, p, Putting(Entering), map[], {}), [])
    ensures Leads(cfg.prefix, p, Serving(cfg, p.known), trace,
                  Task0(cfg, p, Putting(Back(Declined)), map[0 := Declined], {p.put.key}), [])
  {
    hide Leads;
    Stages();
    var j0 := Serving(cfg, p.known);
    var j1 := Task0(cfg, p, Putting(Passed), map[], {});
    trace := Quiet(cfg.prefix, p, j0, start, Task0(cfg, p, Putting(Entering), map[], {}), [],
                   Upload(0, Service(Check)), j1);
    trace := Quiet(cfg.prefix, p, j0, trace, j1, [], Upload(0, Service(Create(REFUSAL))),
                   Task0(cfg, p, Putting(Back(Declined)), map[0 := Declined], {p.put.key}));
  }

  /** The upload goes through, and its entry lands. */
  lemma ReachStored(cfg: Config, p: Plan, start: seq<Action>) returns (trace: seq<Action>)
    requires Leads(cfg.prefix, p, Serving(cfg, p.known), start, Task0(cfg, p, Putting(Entering), map[], {}), [])
    ensures Leads(cfg.prefix, p, Serving(cfg, p.known), trace,
                  Task0(cfg, p, Putting(Back(Stored)), map[0 := Stored], {p.put.key}), [p.put])
  {
    hide Leads;
    Stages();
    var j0, j1 := Serving(cfg, p.known), Task0(cfg, p, Putting(Passed), map[], {});
    trace := Quiet(cfg.prefix, p, j0, start, Task0(cfg, p, Putting(Entering), map[], {}), [],
                   Upload(0, Service(Check)), j1);
    trace := Quiet(cfg.prefix, p, j0, trace, j1, [], Upload(0, Service(Create(GRANT))),
                   Task0(cfg, p, Putting(Reserved), map[], {p.put.key}));
    trace := ReachStowed(cfg, p, trace);
  }

  lemma ReachStowed(cfg: Config, p: Plan, start: seq<Action>) returns (trace: seq<Action>)
    requires Leads(cfg.prefix, p, Serving(cfg, p.known), start, Task0(cfg, p, Putting(Reserved), map[], {p.put.key}), [])
    ensures Leads(cfg.prefix, p, Serving(cfg, p.known), trace,
                  Task0(cfg, p, Putting(Back(Stored)), map[0 := Stored], {p.put.key}), [p.put])
  {
    hide Leads;
    Stages();
    var j0, j3 := Serving(cfg, p.known), Task0(cfg, p, Putting(Uploaded), map[], {p.put.key});
    trace := Quiet(cfg.prefix, p, j0, start, Task0(cfg, p, Putting(Reserved), map[], {p.put.key}), [],
                   Upload(0, Service(Blob(true))), j3);
    assert [] + [p.put] == [p.put];
    trace := Step(cfg.prefix, p, j0, trace, j3, [], Upload(0, Service(DONE)),
                  Task0(cfg, p, Putting(Back(Stored)), map[0 := Stored], {p.put.key}));
  }

  /** Uploads of that run counted as stored. */
  function Stowings(result: PutResult): nat { if result == Stored then 1 else 0 }

  /** The task gone, its key in the index. */
  function Settled(cfg: Config, p: Plan, result: PutResult): Job {
    var j := Serving(cfg, p.known);
    j.(core := j.core.(disk := map[p.put.key := p.put.bytes], queued := {p.put.key}, index := p.known + {p.put.key},
                       indexDirty := true),
       counters := Counters(Stowings(result), 0, 0),
       log := Log(p.known, [p.put], 1, map[0 := result], {p.put.key}))
  }

  lemma ReachSettled(cfg: Config, p: Plan, result: PutResult, start: seq<Action>, ys: seq<Msg>)
    returns (trace: seq<Action>)
    requires result != Failed && Suitable(cfg, p)
    requires Leads(cfg.prefix, p, Serving(cfg, p.known), start,
                   Task0(cfg, p, Putting(Back(result)), map[0 := result], {p.put.key}), ys)
    ensures Leads(cfg.prefix, p, Serving(cfg, p.known), trace, Settled(cfg, p, result), ys)
  {
    hide Leads, World.ObjectKey, Pack.Narrow, Manifest.Lists;
    var j0, j4 := Serving(cfg, p.known), Task0(cfg, p, Putting(Back(result)), map[0 := result], {p.put.key});
    var j5 := j4.(counters := Counters(Stowings(result), 0, 0), tasks := map[0 := Task(p.put, Listing)]);
    trace := Quiet(cfg.prefix, p, j0, start, j4, ys, Upload(0, Proceed), j5);
    var j6 := j5.(core := j5.core.(index := p.known + {p.put.key}), tasks := map[0 := Task(p.put, Flagging)]);
    trace := Quiet(cfg.prefix, p, j0, trace, j5, ys, Upload(0, Proceed), j6);
    var j7 := j6.(core := j6.core.(indexDirty := true), tasks := map[0 := Task(p.put, Closing)]);
    trace := Quiet(cfg.prefix, p, j0, trace, j6, ys, Upload(0, Proceed), j7);
    trace := Quiet(cfg.prefix, p, j0, trace, j7, ys, Upload(0, Proceed), Settled(cfg, p, result));
  }

  /** The same run torn down as far as the given stage of its manifest save. */
  function Saving(cfg: Config, p: Plan, result: PutResult, put: PutStage): Job {
    var j := Settled(cfg, p, result);
    j.(core := j.core.(open := false), up := Ended, phase := SavingIndex(p.names, Named(cfg, "index", p.stamp), put))
  }

  function Listing1(cfg: Config, p: Plan): Msg {
    Msg(Named(cfg, "index", p.stamp), Manifest.Render(p.names))
  }

  lemma ReachPublished(cfg: Config, p: Plan, result: PutResult, start: seq<Action>, ys: seq<Msg>)
    returns (trace: seq<Action>)
    requires Suitable(cfg, p) && Leads(cfg.prefix, p, Serving(cfg, p.known), start, Settled(cfg, p, result), ys)
    requires !Holds(ys, Named(cfg, "index", p.stamp))
    ensures Leads(cfg.prefix, p, Serving(cfg, p.known), trace, Saving(cfg, p, result, Back(Stored)),
                  ys + [Listing1(cfg, p)])
  {
    World.SavesAreNamed(cfg, "index", p.stamp, p.stamp);
    hide Leads, Manifest.Render, Holds, Named, World.Spelled, World.ObjectKey, Pack.Narrow;
    Stages();
    var j0, j := Serving(cfg, p.known), Settled(cfg, p, result);
    var j1 := j.(core := j.core.(open := false), phase := Draining);
    trace := Quiet(cfg.prefix, p, j0, start, j, ys, Flush(CloseQueue), j1);
    var j2 := j1.(up := Joining);
    trace := Quiet(cfg.prefix, p, j0, trace, j1, ys, HangUp, j2);
    var j3 := j2.(up := Ended);
    trace := Quiet(cfg.prefix, p, j0, trace, j2, ys, Join, j3);
    trace := Quiet(cfg.prefix, p, j0, trace, j3, ys, Flush(QueueDrained(p.names, p.stamp)),
                   Saving(cfg, p, result, Entering));
    trace := ReachLanded(cfg, p, result, trace, ys);
  }

  lemma ReachLanded(cfg: Config, p: Plan, result: PutResult, start: seq<Action>, ys: seq<Msg>)
    returns (trace: seq<Action>)
    requires Leads(cfg.prefix, p, Serving(cfg, p.known), start, Saving(cfg, p, result, Entering), ys)
    requires !Holds(ys, Named(cfg, "index", p.stamp))
    ensures Leads(cfg.prefix, p, Serving(cfg, p.known), trace, Saving(cfg, p, result, Back(Stored)),
                  ys + [Listing1(cfg, p)])
  {
    World.SavesAreNamed(cfg, "index", p.stamp, p.stamp);
    hide Leads, Manifest.Render, Holds, Named, World.Spelled, World.ObjectKey, Pack.Narrow;
    Stages();
    var j0 := Serving(cfg, p.known);
    trace := Quiet(cfg.prefix, p, j0, start, Saving(cfg, p, result, Entering), ys, Flush(Save(Check)),
                   Saving(cfg, p, result, Passed));
    trace := Quiet(cfg.prefix, p, j0, trace, Saving(cfg, p, result, Passed), ys, Flush(Save(Create(GRANT))),
                   Saving(cfg, p, result, Reserved));
    trace := Quiet(cfg.prefix, p, j0, trace, Saving(cfg, p, result, Reserved), ys, Flush(Save(Blob(true))),
                   Saving(cfg, p, result, Uploaded));
    trace := Step(cfg.prefix, p, j0, trace, Saving(cfg, p, result, Uploaded), ys, Flush(Save(DONE)),
                  Saving(cfg, p, result, Back(Stored)));
  }

  /** Such a run as a whole, its object stored or declined. */
  lemma WholeRun(cfg: Config, p: Plan, stored: bool) returns (trace: seq<Action>)
    requires Suitable(cfg, p)
    ensures var result := if stored then Stored else Declined;
      Leads(cfg.prefix, p, Serving(cfg, p.known), trace, Saving(cfg, p, result, Back(Stored)),
            (if stored then [p.put] else []) + [Listing1(cfg, p)])
  {
    trace := ReachTask(cfg, p);
    ListingIsNoObject(cfg, p, p.put.key);
    assert !Holds([p.put], Named(cfg, "index", p.stamp)) && !Holds([], Named(cfg, "index", p.stamp));
    hide *;
    if stored {
      trace := ReachStored(cfg, p, trace);
      trace := ReachSettled(cfg, p, Stored, trace, [p.put]);
      trace := ReachPublished(cfg, p, Stored, trace, [p.put]);
    } else {
      trace := ReachDeclined(cfg, p, trace);
      trace := ReachSettled(cfg, p, Declined, trace, []);
      trace := ReachPublished(cfg, p, Declined, trace, []);
    }
  }

  // -- what the newest manifest says then -----------------------------------------------------

  lemma NewestLists(service: seq<Msg>, cfg: Config, p: Plan)
    requires Suitable(cfg, p) && '\n' !in cfg.prefix && AllClean(p.known)
    ensures ManifestOf(service + [Listing1(cfg, p)], IndexPrefix(cfg)) == p.known + {p.put.key}
  {
    PolicyKeysAreClean(cfg.prefix, p.put.key);
    assert IndexPrefix(cfg) <= Listing1(cfg, p).key;
    hide World.ObjectKey, Manifest.Clean, Manifest.Render, ManifestOf, Pack.Narrow;
    ManifestAppend(service, Listing1(cfg, p), IndexPrefix(cfg));
    Manifest.KeysRoundTrip(p.names, p.known + {p.put.key});
  }

  lemma ListingIsNoObject(cfg: Config, p: Plan, k: Key)
    requires World.ObjectKey(cfg.prefix, k)
    ensures Listing1(cfg, p).key != k
  {
    World.KindsApart(cfg.prefix, k);
    assert IndexPrefix(cfg) <= Named(cfg, "index", p.stamp);
    World.ScopedIsKind(cfg, "index", Named(cfg, "index", p.stamp));
  }

  /** A run alone with an empty service, its latch never set: one upload is declined without an entry
      being there, and the manifest that lands lists its key all the same. */
  lemma ListsWhatIsNotThere(cfg: Config, p: Plan) returns (events: seq<World.Event>, w: World.World)
    requires Suitable(cfg, p) && '\n' !in cfg.prefix && p.known == {}
    ensures World.History(cfg.prefix, events) == Some(w) && 0 in w.jobs && !w.jobs[0].core.exhausted
    ensures ManifestOf(w.service, IndexPrefix(cfg)) == {p.put.key}
    ensures !Holds(w.service, p.put.key)
  {
    events := [World.Launch(0, cfg)];
    var w0 := World.World([], map[0 := Fresh(cfg)], {});
    assert events[..0] == [] && World.History(cfg.prefix, events) == Some(w0);
    var load := ReachServing(cfg, p);
    var rest := WholeRun(cfg, p, false);
    NewestLists([], cfg, p);
    ListingIsNoObject(cfg, p, p.put.key);
    NothingHeld(cfg, p);
    hide World.History, Leads, Steps, ManifestOf, World.ObjectKey, Pack.Narrow, Unheld;
    var w1 := InWorld(cfg.prefix, p, events, w0, 0, load, Serving(cfg, {}), []);
    w := InWorld(cfg.prefix, p, events + Steps(0, load), w1, 0, rest, Saving(cfg, p, Declined, Back(Stored)),
                 [] + [Listing1(cfg, p)]);
    events := events + Steps(0, load) + Steps(0, rest);
  }

  /** Two runs of one scope, both started before either has published, both with their object stored
      and their manifest landed under a stamp of its own: the newest manifest lists only the second
      one's key, though it had listed the first one's and its object is at the service. */
  lemma LostUpdate(one: Config, two: Config, a: Plan, b: Plan)
    returns (early: seq<World.Event>, w0: World.World, middle: seq<World.Event>, w1: World.World,
             events: seq<World.Event>, w: World.World)
    requires Suitable(one, a) && Suitable(two, b) && a.known == b.known == {} && '\n' !in one.prefix
    requires one.prefix == two.prefix && one.scope == two.scope && a.put.key != b.put.key && a.stamp != b.stamp
    ensures early <= middle <= events
    ensures World.History(one.prefix, early) == Some(w0)
    ensures w0.service == [] && w0.jobs == map[0 := Serving(one, {}), 1 := Serving(two, {})]
    ensures World.History(one.prefix, middle) == Some(w1) && ManifestOf(w1.service, IndexPrefix(one)) == {a.put.key}
    ensures World.History(one.prefix, events) == Some(w) && ManifestOf(w.service, IndexPrefix(one)) == {b.put.key}
    ensures a.put in w.service && b.put in w.service
    ensures w.jobs == map[0 := Saving(one, a, Stored, Back(Stored)), 1 := Saving(two, b, Stored, Back(Stored))]
  {
    hide *;
    SuitableService(one, a);
    SuitableService(two, b);
    early, w0 := BothServing(one, two, a, b);
    var first := WholeRun(one, a, true);
    var second := WholeRun(two, b, true);
    BothList(one, two, a, b);
    ServingConfig(one, {});
    ServingConfig(two, {});
    NothingHeld(one, a);
    SecondUnheld(one, two, a, b);
    var x, y := Listing1(one, a), Listing1(two, b);
    var ja, jb := Saving(one, a, Stored, Back(Stored)), Saving(two, b, Stored, Back(Stored));
    assert [] + ([a.put] + [x]) == [a.put] + [x] && [a.put] + [x] + ([b.put] + [y]) == [a.put, x, b.put] + [y];
    w1 := InWorld(one.prefix, a, early, w0, 0, first, ja, [a.put] + [x]);
    middle := early + Steps(0, first);
    w := InWorld(one.prefix, b, middle, w1, 1, second, jb, [b.put] + [y]);
    events := middle + Steps(1, second);
    assert w.service[0] == a.put && w.service[2] == b.put;
    assert w0.jobs[0 := ja][1 := jb] == map[0 := ja, 1 := jb];
  }

  lemma SuitableService(cfg: Config, p: Plan)
    requires Suitable(cfg, p)
    ensures cfg.service
  {
  }

  lemma BothList(one: Config, two: Config, a: Plan, b: Plan)
    requires Suitable(one, a) && Suitable(two, b) && a.known == b.known == {} && '\n' !in one.prefix
    requires one.prefix == two.prefix && one.scope == two.scope
    ensures var x, y, index := Listing1(one, a), Listing1(two, b), IndexPrefix(one);
      ManifestOf([a.put] + [x], index) == {a.put.key} && ManifestOf([a.put, x, b.put] + [y], index) == {b.put.key}
  {
    hide Listing1, ManifestOf, Suitable;
    NewestLists([a.put], one, a);
    NewestLists([a.put, Listing1(one, a), b.put], two, b);
    assert IndexPrefix(one) == IndexPrefix(two);
  }

  /** The names of the second run are none of the first one's. */
  lemma SecondUnheld(one: Config, two: Config, a: Plan, b: Plan)
    requires Suitable(one, a) && Suitable(two, b) && one.prefix == two.prefix && one.scope == two.scope
    requires a.put.key != b.put.key && a.stamp != b.stamp
    ensures Unheld([a.put] + [Listing1(one, a)], two, b)
  {
    ListingIsNoObject(one, a, b.put.key);
    ListingIsNoObject(two, b, a.put.key);
    World.SavesAreNamed(one, "index", a.stamp, b.stamp);
    World.SavesAreNamed(two, "index", b.stamp, b.stamp);
    hide World.ObjectKey, Pack.Narrow, Manifest.Render;
    assert forall m | m in [a.put] + [Listing1(one, a)] :: m == a.put || m == Listing1(one, a);
  }

  lemma ServingConfig(cfg: Config, known: set<Key>)
    ensures Serving(cfg, known).cfg == cfg
  {
  }

  lemma BothServing(one: Config, two: Config, a: Plan, b: Plan) returns (events: seq<World.Event>, w: World.World)
    requires one.service && two.service && one.prefix == two.prefix && a.known == b.known == {}
    ensures World.History(one.prefix, events) == Some(w)
    ensures w.service == [] && w.jobs == map[0 := Serving(one, {}), 1 := Serving(two, {})]
  {
    var start := [World.Launch(0, one), World.Launch(1, two)];
    var w0 := World.World([], map[0 := Fresh(one), 1 := Fresh(two)], {});
    assert start[..1] == [World.Launch(0, one)] && start[..1][..0] == [];
    assert World.History(one.prefix, start[..1]) == Some(World.World([], map[0 := Fresh(one)], {}));
    assert World.History(one.prefix, start) == Some(w0);
    var load := ReachServing(one, a);
    var load' := ReachServing(two, b);
    NothingHeld(one, a);
    NothingHeld(two, b);
    hide World.History, Leads, Steps, Fresh, Unheld;
    var w1 := InWorld(one.prefix, a, start, w0, 0, load, Serving(one, {}), []);
    w := InWorld(one.prefix, b, start + Steps(0, load), w1, 1, load', Serving(two, {}), []);
    events := start + Steps(0, load) + Steps(1, load');
  }
}
