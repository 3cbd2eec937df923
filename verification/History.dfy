/** The newest manifest over a history of runs. */
module History {
  import opened Base
  import opened Gha
  import opened Job
  import opened Session
  import Manifest
  import Uploads
  import Teardown
  import World

  function IndexPrefix(cfg: Config): Key { ScopedPrefix(cfg.prefix, cfg.scope, "index") }

  /** The keys the newest manifest of a scope lists. */
  ghost function ManifestOf(service: seq<Msg>, prefix: Key): set<Key> {
    match Newest(service, prefix) case Some(m) => Manifest.Keys(m.bytes) case None => {}
  }

  ghost predicate AllClean(keys: set<Key>) { forall k | k in keys :: Manifest.Clean(k) }

  ghost predicate PutsKeyed(b: Beat, prefix: string) {
    b.Ours? && b.action.StartPut? ==> World.ObjectKey(prefix, b.action.msg.key)
  }

  // -- what is known of a run at any point ----------------------------------------------------

  ghost predicate Known(j: Job) {
    && Uploads.Invariant(j) && Teardown.Answered(j) && Teardown.Saving(j) && Keyed(j)
    && (j.phase.SavingIndex? ==> IndexPrefix(j.cfg) <= j.phase.name)
    && (j.phase.SavingPack? ==> ScopedPrefix(j.cfg.prefix, j.cfg.scope, "pack") <= j.phase.name)
    && (AllClean(j.log.loaded) && '\n' !in j.cfg.prefix ==> AllClean(j.core.index))
  }

  lemma SentAreClean(j: Job)
    requires Uploads.IndexExact(j) && Uploads.Tasks(j) && Keyed(j) && AllClean(j.log.loaded) && '\n' !in j.cfg.prefix
    ensures AllClean(j.core.index)
  {
    hide Manifest.Clean, World.ObjectKey;
    forall k | k in Uploads.InsertedKeys(j) ensures Manifest.Clean(k) {
      var i :| i in j.log.results && Uploads.Inserted(j, i) && j.log.sent[i].key == k;
      assert j.log.sent[i] in j.log.sent;
      PolicyKeysAreClean(j.cfg.prefix, k);
    }
  }

  lemma NamesStep(j: Job, a: Action)
    requires Enabled(j, a) && Known(j)
    ensures var j' := Next(j, a);
      && (j'.phase.SavingIndex? ==> IndexPrefix(j'.cfg) <= j'.phase.name)
      && (j'.phase.SavingPack? ==> ScopedPrefix(j'.cfg.prefix, j'.cfg.scope, "pack") <= j'.phase.name)
  {
    hide Uploads.Invariant, Teardown.Answered, Teardown.Saving, Keyed, AllClean, ScopedPrefix,
      HandlerCore, HandlerNext, FlushCore, FlushCounters, IndexRead, PackRead, TaskNext, TaskCore;
  }

  lemma KnownStep(j: Job, a: Action)
    requires Enabled(j, a) && Known(j) && PutsKeyed(Ours(a), j.cfg.prefix)
    ensures Known(Next(j, a))
  {
    NamesStep(j, a);
    Uploads.InvariantStep(j, a);
    Teardown.AnsweredStep(j, a);
    Teardown.SavingStep(j, a);
    KeyedStep(j, a);
    var j' := Next(j, a);
    if AllClean(j'.log.loaded) && '\n' !in j'.cfg.prefix {
      SentAreClean(j');
    }
    hide Next, Enabled, Uploads.Queue, Uploads.Tasks, Uploads.SentOnce, Teardown.Answered, Teardown.Saving, Keyed, AllClean;
  }

  lemma KnownAtFirst(cfg: Config)
    ensures Known(Fresh(cfg))
  {
    Uploads.Always(cfg, [], Fresh(cfg));
    Teardown.Always(cfg, [], Fresh(cfg));
  }

  lemma ManifestAppend(service: seq<Msg>, m: Msg, prefix: Key)
    ensures ManifestOf(service + [m], prefix) ==
      if prefix <= m.key then Manifest.Keys(m.bytes) else ManifestOf(service, prefix)
  {
    NewestAppend(service, m, prefix);
  }

  /** Only a manifest save lands under the manifest prefix. */
  lemma OthersLandElsewhere(j: Job, a: Action)
    requires Known(j) && Enabled(j, a) && Landed(j, a).Some?
    ensures IndexPrefix(j.cfg) <= Landed(j, a).value.key <==> a.Flush? && j.phase.SavingIndex?
  {
    var k := Landed(j, a).value.key;
    World.KindsApart(j.cfg.prefix, k);
    if IndexPrefix(j.cfg) <= k {
      World.ScopedIsKind(j.cfg, "index", k);
    }
    if a.Upload? {
      assert j.tasks[a.id].msg in j.log.sent by {
        assert Uploads.Tasks(j);
        assert j.tasks[a.id].msg == j.log.sent[a.id];
      }
    } else if j.phase.SavingPack? {
      World.ScopedIsKind(j.cfg, "pack", k);
    }
  }

  /** When a manifest lands it becomes the newest, and lists exactly what this run loaded plus what
      the service took from it. So a key some overlapping run had published meanwhile is lost exactly
      when this run neither loaded it nor had it taken; and a key this run put that the service
      stored or declined is listed, lost before or not. */
  lemma PublishReplaces(cfg: Config, service: seq<Msg>, beats: seq<Beat>, s: Scene, e: PutEvent)
    requires Play(Scene(service, Fresh(cfg)), beats) == Some(s) && cfg.service && '\n' !in cfg.prefix
    requires forall b | b in beats :: PutsKeyed(b, cfg.prefix)
    requires Can(s, Ours(Flush(Save(e)))) && s.job.phase.SavingIndex? && Landed(s.job, Flush(Save(e))).Some?
    requires AllClean(s.job.log.loaded)
    ensures var after := ManifestOf(Then(s, Ours(Flush(Save(e)))).service, IndexPrefix(cfg));
      && after == s.job.log.loaded + Uploads.Taken(s.job)
      && (forall k | k in ManifestOf(s.service, IndexPrefix(cfg)) ::
            k !in after <==> k !in s.job.log.loaded && k !in Uploads.Taken(s.job))
      && (forall i | i in s.job.log.results && i < |s.job.log.sent| && s.job.log.results[i] != Failed ::
            s.job.log.sent[i].key in after)
  {
    KnownAlways(cfg, service, beats, s);
    PlayIsExec(Scene(service, Fresh(cfg)), beats, s);
    Teardown.PublishedManifest(cfg, Own(beats), s.job, e);
    Uploads.ExactIndex(cfg, Own(beats), s.job);
    hide Play, Exec, Uploads.Invariant;
    var m := Landed(s.job, Flush(Save(e))).value;
    ManifestAppend(s.service, m, IndexPrefix(cfg));
    OthersLandElsewhere(s.job, Flush(Save(e)));
    Manifest.KeysRoundTrip(s.job.phase.keys, s.job.core.index);
  }

  lemma {:induction false} KnownAlways(cfg: Config, service: seq<Msg>, beats: seq<Beat>, s: Scene)
    requires Play(Scene(service, Fresh(cfg)), beats) == Some(s)
    requires forall b | b in beats :: PutsKeyed(b, cfg.prefix)
    ensures Known(s.job) && s.job.cfg == cfg
    decreases |beats|
  {
    if beats == [] {
      KnownAtFirst(cfg);
    } else {
      hide Known, Enabled, Next, Landed, PutsKeyed;
      var before, b := Play(Scene(service, Fresh(cfg)), beats[..|beats| - 1]).value, beats[|beats| - 1];
      KnownAlways(cfg, service, beats[..|beats| - 1], before);
      if b.Ours? {
        KnownStep(before.job, b.action);
        World.SameConfig(before.job, b.action);
      }
    }
  }

  // -- runs that do not overlap ---------------------------------------------------------------

  /** The manifest lookup succeeds, and nobody else files a manifest under this scope meanwhile. */
  ghost predicate Alone(s: Scene, b: Beat) {
    && PutsKeyed(b, s.job.cfg.prefix)
    && (b.Ours? && b.action.LoadIndex? ==> TruthfulScoped(s.service, s.job.cfg, "index", b.action.reply))
    && (b.Theirs? ==> !(IndexPrefix(s.job.cfg) <= b.entry.key))
  }

  ghost predicate Undisturbed(s: Scene, beats: seq<Beat>) {
    beats == [] ||
    (Undisturbed(s, beats[..|beats| - 1])
     && match Play(s, beats[..|beats| - 1])
        case Some(m) => Alone(m, beats[|beats| - 1])
        case None => false)
  }

  /** The newest manifest is the one this run found, or this run's own, which extends it. */
  ghost predicate Holding(s: Scene, first: set<Key>) {
    && Known(s.job) && s.job.cfg.service && '\n' !in s.job.cfg.prefix
    && (s.job.phase.Starting? ==> !s.job.core.exhausted && ManifestOf(s.service, IndexPrefix(s.job.cfg)) == first)
    && (!s.job.phase.Starting? ==> s.job.log.loaded == first)
    && (ManifestOf(s.service, IndexPrefix(s.job.cfg)) == first
        || (Uploads.TornDown(s.job) && ManifestOf(s.service, IndexPrefix(s.job.cfg)) == s.job.core.index))
  }

  lemma HoldingTheirs(s: Scene, m: Msg, first: set<Key>)
    requires Holding(s, first) && Can(s, Theirs(m)) && Alone(s, Theirs(m))
    ensures Holding(Then(s, Theirs(m)), first)
  {
    ManifestAppend(s.service, m, IndexPrefix(s.job.cfg));
    hide Known, ManifestOf;
  }

  lemma Landing(s: Scene, a: Action)
    requires Can(s, Ours(a)) && Known(s.job) && AllClean(s.job.core.index)
    ensures var prefix := IndexPrefix(s.job.cfg);
      ManifestOf(Then(s, Ours(a)).service, prefix) ==
        if Landed(s.job, a).Some? && a.Flush? && s.job.phase.SavingIndex? then s.job.core.index
        else ManifestOf(s.service, prefix)
  {
    match Landed(s.job, a)
    case None => assert s.service + [] == s.service;
    case Some(m) =>
      ManifestAppend(s.service, m, IndexPrefix(s.job.cfg));
      OthersLandElsewhere(s.job, a);
      if s.job.phase.SavingIndex? && a.Flush? {
        Manifest.KeysRoundTrip(s.job.phase.keys, s.job.core.index);
      }
  }

  /** How a step moves through start-up and teardown. */
  lemma Course(j: Job, a: Action)
    requires Enabled(j, a) && Uploads.Early(j) && Uploads.Queue(j)
    ensures j.phase.Starting? ==> a.LoadIndex? && !Next(j, a).phase.Starting?
    ensures !j.phase.Starting? ==> !Next(j, a).phase.Starting? && Next(j, a).log.loaded == j.log.loaded
    ensures Uploads.TornDown(j) ==> Uploads.TornDown(Next(j, a)) && Next(j, a).core.index == j.core.index
    ensures a.LoadIndex? ==> Next(j, a).log.loaded == IndexRead(j, a.reply).index && j.core.index == {}
  {
    StartUp(j, a);
    if Uploads.TornDown(j) {
      TearDown(j, a);
    }
    hide *;
  }

  lemma StartUp(j: Job, a: Action)
    requires Enabled(j, a) && Uploads.Early(j) && Uploads.Queue(j)
    ensures j.phase.Starting? ==> a.LoadIndex? && !Next(j, a).phase.Starting?
    ensures !j.phase.Starting? ==> !Next(j, a).phase.Starting? && Next(j, a).log.loaded == j.log.loaded
    ensures a.LoadIndex? ==> Next(j, a).log.loaded == IndexRead(j, a.reply).index && j.core.index == {}
  {
    if a.Upload? {
      StartUpUpload(j, a.id, a.what);
    } else {
      hide HandlerCore, HandlerNext, FlushCore, FlushCounters, IndexRead, PackRead, TaskNext, TaskCore, TaskCounters, NoteTask;
    }
  }

  lemma StartUpUpload(j: Job, id: nat, e: TaskEvent)
    requires Enabled(j, Upload(id, e)) && Uploads.Early(j)
    ensures var j' := Next(j, Upload(id, e));
      !j.phase.Starting? && j'.phase == j.phase && j'.log.loaded == j.log.loaded
  {
    hide TaskNext, TaskCore, TaskCounters;
  }

  lemma TearDown(j: Job, a: Action)
    requires Enabled(j, a) && Uploads.Early(j) && Uploads.Queue(j) && Uploads.TornDown(j)
    ensures Uploads.TornDown(Next(j, a)) && Next(j, a).core.index == j.core.index
  {
    hide HandlerCore, HandlerNext, FlushCore, FlushCounters, IndexRead, PackRead, TaskNext, TaskCore, TaskCounters;
  }

  lemma HoldingOurs(s: Scene, a: Action, first: set<Key>)
    requires Holding(s, first) && AllClean(first) && Can(s, Ours(a)) && Alone(s, Ours(a))
    ensures Holding(Then(s, Ours(a)), first)
  {
    var j := s.job;
    KnownStep(j, a);
    World.SameConfig(j, a);
    Course(j, a);
    assert AllClean(j.core.index);
    Landing(s, a);
    hide Known, Next, Enabled, Landed, Manifest.Clean, ManifestOf, Uploads.Early, Uploads.Queue;
  }

  lemma {:induction false} HoldingAlways(cfg: Config, service: seq<Msg>, beats: seq<Beat>, s: Scene)
    requires Play(Scene(service, Fresh(cfg)), beats) == Some(s) && Undisturbed(Scene(service, Fresh(cfg)), beats)
    requires cfg.service && '\n' !in cfg.prefix && AllClean(ManifestOf(service, IndexPrefix(cfg)))
    ensures Holding(s, ManifestOf(service, IndexPrefix(cfg))) && s.job.cfg == cfg
    decreases |beats|
  {
    var first := ManifestOf(service, IndexPrefix(cfg));
    if beats == [] {
      KnownAtFirst(cfg);
    } else {
      hide Holding, Enabled, Next, Landed, Alone, ManifestOf;
      var before, b := Play(Scene(service, Fresh(cfg)), beats[..|beats| - 1]).value, beats[|beats| - 1];
      HoldingAlways(cfg, service, beats[..|beats| - 1], before);
      match b
      case Ours(a) =>
        HoldingOurs(before, a, first);
        World.SameConfig(before.job, a);
      case Theirs(m) => HoldingTheirs(before, m, first);
    }
  }

  /** A run that shares its scope with nobody while it lasts leaves a manifest at least as large as
      the one it found, and one that can be read back. */
  lemma OneRun(cfg: Config, service: seq<Msg>, beats: seq<Beat>, end: Scene)
    requires Play(Scene(service, Fresh(cfg)), beats) == Some(end) && Undisturbed(Scene(service, Fresh(cfg)), beats)
    requires cfg.service && '\n' !in cfg.prefix && AllClean(ManifestOf(service, IndexPrefix(cfg)))
    ensures ManifestOf(service, IndexPrefix(cfg)) <= ManifestOf(end.service, IndexPrefix(cfg))
    ensures AllClean(ManifestOf(end.service, IndexPrefix(cfg)))
  {
    HoldingAlways(cfg, service, beats, end);
    hide Play, Undisturbed, Manifest.Clean, ManifestOf;
  }

  datatype Run = Run(cfg: Config, beats: seq<Beat>)

  /** One run after another on the same service. */
  ghost function Through(service: seq<Msg>, runs: seq<Run>): Option<seq<Msg>> {
    if runs == [] then Some(service)
    else
      match Through(service, runs[..|runs| - 1])
      case None => None
      case Some(middle) =>
        var start, r := Scene(middle, Fresh(runs[|runs| - 1].cfg)), runs[|runs| - 1];
        match Play(start, r.beats)
        case Some(end) => if Undisturbed(start, r.beats) then Some(end.service) else None
        case None => None
  }

  /** Over any number of runs of one scope that do not overlap and whose manifest loads succeed, the
      newest manifest never loses a key. */
  lemma {:induction false} NeverShrinks(prefix: string, scope: string, service: seq<Msg>, runs: seq<Run>,
                                        end: seq<Msg>)
    requires Through(service, runs) == Some(end) && '\n' !in prefix
    requires forall r | r in runs :: r.cfg.prefix == prefix && r.cfg.scope == scope && r.cfg.service
    requires AllClean(ManifestOf(service, ScopedPrefix(prefix, scope, "index")))
    ensures var index := ScopedPrefix(prefix, scope, "index");
      ManifestOf(service, index) <= ManifestOf(end, index) && AllClean(ManifestOf(end, index))
    decreases |runs|
  {
    hide ManifestOf, AllClean, Play, Undisturbed, ScopedPrefix;
    if runs != [] {
      var middle, r := Through(service, runs[..|runs| - 1]).value, runs[|runs| - 1];
      NeverShrinks(prefix, scope, service, runs[..|runs| - 1], middle);
      OneRun(r.cfg, middle, r.beats, Play(Scene(middle, Fresh(r.cfg)), r.beats).value);
    }
  }
}
