/** What is on a run's disk, and what it counts as packed, are what was really written. */
module Disk {
  import opened Base
  import opened Gha
  import opened Job
  import Pack

  /** The objects of a pack whose write succeeds. */
  function Landing(objects: seq<Pack.Object>, wrote: seq<bool>): seq<Msg>
    requires |wrote| == |objects|
    decreases |objects|
  {
    if objects == [] then []
    else (if wrote[0] then [Msg(objects[0].key, objects[0].body)] else []) + Landing(objects[1..], wrote[1..])
  }

  function Carried(h: Handler): seq<Msg> {
    match h case PutWriting(m) => [m] case GetSaving(m) => [m] case _ => []
  }

  /** What a step writes to disk, in order: of a pack, of a put, or of a lookup that found something,
      where the write succeeds. */
  function Writes(j: Job, a: Action): seq<Msg>
    requires Enabled(j, a)
  {
    match a
    case LoadPack(reply, wrote) => Landing(PackObjects(j, reply), wrote)
    case Handle(id, Io(ok)) => if ok then Carried(j.handlers[id]) else []
    case _ => []
  }

  function Keys(writes: seq<Msg>): set<Key> { set m | m in writes :: m.key }

  /** The keys a step has join the packed ones: those unpacked to disk, and those of small puts. */
  function Joins(j: Job, a: Action): set<Key>
    requires Enabled(j, a)
  {
    match a
    case LoadPack(_, _) => Keys(Writes(j, a))
    case Handle(id, Go) =>
      (match j.handlers[id] case PutFiling(m) => if |m.bytes| < j.cfg.packThreshold then {m.key} else {} case _ => {})
    case _ => {}
  }

  /** All that a run wrote, in order. */
  ghost function AllWrites(cfg: Config, trace: seq<Action>): seq<Msg> {
    if trace == [] then []
    else
      AllWrites(cfg, trace[..|trace| - 1]) +
      match Exec(Fresh(cfg), trace[..|trace| - 1])
      case Some(j) => (if Enabled(j, trace[|trace| - 1]) then Writes(j, trace[|trace| - 1]) else [])
      case None => []
  }

  ghost function AllJoins(cfg: Config, trace: seq<Action>): set<Key> {
    if trace == [] then {}
    else
      AllJoins(cfg, trace[..|trace| - 1]) +
      match Exec(Fresh(cfg), trace[..|trace| - 1])
      case Some(j) => (if Enabled(j, trace[|trace| - 1]) then Joins(j, trace[|trace| - 1]) else {})
      case None => {}
  }

  /** What was written last under k. */
  function Last(writes: seq<Msg>, k: Key): Option<Bytes> {
    if writes == [] then None
    else if writes[|writes| - 1].key == k then Some(writes[|writes| - 1].bytes)
    else Last(writes[..|writes| - 1], k)
  }

  lemma {:induction false} LastOfConcat(a: seq<Msg>, b: seq<Msg>, k: Key)
    ensures Last(a + b, k) == if Last(b, k).Some? then Last(b, k) else Last(a, k)
    decreases |b|
  {
    if b == [] {
      assert a + b == a;
    } else {
      assert (a + b)[..|a + b| - 1] == a + b[..|b| - 1];
      LastOfConcat(a, b[..|b| - 1], k);
    }
  }

  function Under(disk: map<Key, Bytes>, k: Key): Option<Bytes> { if k in disk then Some(disk[k]) else None }

  /** The second disk is the first with these writes done. */
  ghost predicate Follows(disk: map<Key, Bytes>, disk': map<Key, Bytes>, writes: seq<Msg>) {
    forall k :: Under(disk', k) == if Last(writes, k).Some? then Last(writes, k) else Under(disk, k)
  }

  lemma OneWrite(disk: map<Key, Bytes>, m: Msg)
    ensures Follows(disk, disk[m.key := m.bytes], [m])
  {
    var one := [m];
    assert one[..0] == [];
    forall k ensures Last(one, k) == if m.key == k then Some(m.bytes) else None {
      assert Last(one[..0], k) == None;
    }
  }

  lemma FollowsThrough(disk: map<Key, Bytes>, middle: map<Key, Bytes>, end: map<Key, Bytes>, a: seq<Msg>, b: seq<Msg>)
    requires Follows(disk, middle, a) && Follows(middle, end, b)
    ensures Follows(disk, end, a + b)
  {
    hide Last;
    forall k ensures Under(end, k) == if Last(a + b, k).Some? then Last(a + b, k) else Under(disk, k) {
      LastOfConcat(a, b, k);
    }
  }

  lemma {:induction false} UnpackFollows(c: Core, objects: seq<Pack.Object>, wrote: seq<bool>)
    requires |wrote| == |objects|
    ensures Follows(c.disk, Unpack(c, objects, wrote).disk, Landing(objects, wrote))
    ensures Unpack(c, objects, wrote).packed == c.packed + Keys(Landing(objects, wrote))
    decreases |objects|
  {
    if objects != [] {
      var o, rest := objects[0], Landing(objects[1..], wrote[1..]);
      var m := Msg(o.key, o.body);
      var next := if wrote[0] then c.(disk := c.disk[o.key := o.body], packed := c.packed + {o.key}) else c;
      UnpackFollows(next, objects[1..], wrote[1..]);
      assert Unpack(c, objects, wrote) == Unpack(next, objects[1..], wrote[1..]);
      hide Follows, Unpack;
      if wrote[0] {
        OneWrite(c.disk, m);
        FollowsThrough(c.disk, next.disk, Unpack(c, objects, wrote).disk, [m], rest);
        assert Keys([m] + rest) == {o.key} + Keys(rest);
      } else {
        assert [] + rest == rest;
      }
    }
  }

  lemma FollowsNothing(disk: map<Key, Bytes>)
    ensures Follows(disk, disk, [])
  {
  }

  lemma HandleFollows(j: Job, id: nat, e: HandlerEvent)
    requires Enabled(j, Handle(id, e))
    ensures Follows(j.core.disk, Next(j, Handle(id, e)).core.disk, Writes(j, Handle(id, e)))
    ensures Next(j, Handle(id, e)).core.packed == j.core.packed + Joins(j, Handle(id, e))
  {
    var h := j.handlers[id];
    HandleOnly(j, id, e);
    FollowsNothing(j.core.disk);
    if h.PutWriting? || h.GetSaving? {
      OneWrite(j.core.disk, h.msg);
    }
    hide Follows, Next;
  }

  lemma RestFollows(j: Job, a: Action)
    requires Enabled(j, a) && !a.Handle? && !a.LoadPack?
    ensures Next(j, a).core.disk == j.core.disk && Next(j, a).core.packed == j.core.packed
  {
    hide HandlerCore, HandlerNext, FlushPhase, FlushCounters, TaskNext, TaskCounters, NoteTask;
  }

  lemma LoadFollows(j: Job, a: Action)
    requires Enabled(j, a) && a.LoadPack?
    ensures Follows(j.core.disk, Next(j, a).core.disk, Writes(j, a))
    ensures Next(j, a).core.packed == j.core.packed + Joins(j, a)
  {
    UnpackFollows(Latch(j.core, CallsNow(j) && a.reply.Limited?), PackObjects(j, a.reply), a.wrote);
    hide Follows, Unpack, Landing, PackObjects;
  }

  lemma StepFollows(j: Job, a: Action)
    requires Enabled(j, a)
    ensures Follows(j.core.disk, Next(j, a).core.disk, Writes(j, a))
    ensures Next(j, a).core.packed == j.core.packed + Joins(j, a)
  {
    if a.Handle? {
      HandleFollows(j, a.id, a.event);
    } else if a.LoadPack? {
      LoadFollows(j, a);
    } else {
      RestFollows(j, a);
      FollowsNothing(j.core.disk);
      hide Next, Enabled, Follows;
    }
  }

  lemma {:induction false} AlwaysFollows(cfg: Config, trace: seq<Action>, j: Job)
    requires Exec(Fresh(cfg), trace) == Some(j)
    ensures Follows(map[], j.core.disk, AllWrites(cfg, trace)) && j.core.packed == AllJoins(cfg, trace)
    decreases |trace|
  {
    if trace == [] {
      FollowsNothing(map[]);
    } else {
      var before, a := Exec(Fresh(cfg), trace[..|trace| - 1]).value, trace[|trace| - 1];
      hide Follows, Enabled, Next, Writes, Joins;
      AlwaysFollows(cfg, trace[..|trace| - 1], before);
      StepFollows(before, a);
      FollowsThrough(map[], before.core.disk, j.core.disk, AllWrites(cfg, trace[..|trace| - 1]), Writes(before, a));
    }
  }

  /** After any run, whatever failed on the way: under each key the disk has what was last written there
      with success, by the pack, a put or a fetch, and nothing under the others; and the packed keys are
      those unpacked with success and those of small puts, written or not. */
  lemma WhatWasWritten(cfg: Config, trace: seq<Action>, j: Job, k: Key)
    requires Exec(Fresh(cfg), trace) == Some(j)
    ensures k in j.core.disk <==> Last(AllWrites(cfg, trace), k).Some?
    ensures k in j.core.disk ==> Last(AllWrites(cfg, trace), k) == Some(j.core.disk[k])
    ensures j.core.packed == AllJoins(cfg, trace)
  {
    hide AllWrites, AllJoins, Last;
    AlwaysFollows(cfg, trace, j);
    assert Under(j.core.disk, k) == if Last(AllWrites(cfg, trace), k).Some? then Last(AllWrites(cfg, trace), k) else None;
  }
}
