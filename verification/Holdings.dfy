/** Which of the keys a manifest lists the service holds. */
module Holdings {
  import opened Base
  import opened Gha
  import opened Job
  import opened Session
  import opened History
  import Manifest
  import Uploads

  /** A result of `Stored` means the service holds the message. */
  ghost predicate Landings(s: Scene) {
    forall i | i in s.job.log.results && s.job.log.results[i] == Stored ::
      i < |s.job.log.sent| && s.job.log.sent[i] in s.service
  }

  lemma LandingsStep(s: Scene, a: Action)
    requires Can(s, Ours(a)) && Landings(s) && Uploads.Tasks(s.job) && Uploads.Early(s.job)
    ensures Landings(Then(s, Ours(a)))
  {
    var j, j' := s.job, Next(s.job, a);
    if a.Upload? {
      LandingsUpload(j, a.id, a.what);
      assert forall m | m in s.service :: m in Then(s, Ours(a)).service;
    } else {
      assert j'.log.results == j.log.results && j.log.sent <= j'.log.sent by {
        if !a.LoadIndex? {
          Uploads.Quiet(j, a);
        }
      }
      assert forall m | m in s.service :: m in Then(s, Ours(a)).service;
      hide Next, Enabled, Landed, Uploads.Tasks, Uploads.Early;
    }
  }

  lemma LandingsUpload(j: Job, id: nat, e: TaskEvent)
    requires Enabled(j, Upload(id, e)) && Uploads.Tasks(j)
    ensures var j' := Next(j, Upload(id, e));
      && j'.log.sent == j.log.sent
      && forall i | i in j'.log.results && j'.log.results[i] == Stored ::
        (i in j.log.results && j.log.results[i] == Stored)
        || (i < |j.log.sent| && Landed(j, Upload(id, e)) == Some(j.log.sent[i]))
  {
    hide TaskCore, TaskCounters;
  }

  lemma {:induction false} LandingsAlways(cfg: Config, service: seq<Msg>, beats: seq<Beat>, s: Scene)
    requires Play(Scene(service, Fresh(cfg)), beats) == Some(s)
    ensures Landings(s)
    decreases |beats|
  {
    if beats != [] {
      var before, b := Play(Scene(service, Fresh(cfg)), beats[..|beats| - 1]).value, beats[|beats| - 1];
      LandingsAlways(cfg, service, beats[..|beats| - 1], before);
      match b
      case Ours(a) =>
        PlayIsExec(Scene(service, Fresh(cfg)), beats[..|beats| - 1], before);
        Uploads.Always(cfg, Own(beats[..|beats| - 1]), before.job);
        assert Uploads.Tasks(before.job) && Uploads.Early(before.job);
        hide Landings, Play, Exec, Then, Uploads.Invariant, Enabled;
        LandingsStep(before, a);
      case Theirs(m) => assert forall x | x in before.service :: x in before.service + [m];
    }
  }

  /** The service holds an entry under the key of each of these messages. */
  ghost predicate AllHeld(service: seq<Msg>, j: Job, result: PutResult) {
    forall i | i in j.log.results && i < |j.log.sent| && j.log.results[i] == result :: Holds(service, j.log.sent[i].key)
  }

  /** A landed manifest lists what was loaded and what the service took; what came back stored is held;
      so every key newly taken is held if and only if the service holds every key whose upload it
      declined - which nothing in a decline ensures. */
  lemma AdvertisedAreHeld(cfg: Config, service: seq<Msg>, beats: seq<Beat>, s: Scene, e: PutEvent)
    requires Play(Scene(service, Fresh(cfg)), beats) == Some(s) && cfg.service && '\n' !in cfg.prefix
    requires forall b | b in beats :: PutsKeyed(b, cfg.prefix)
    requires Can(s, Ours(Flush(Save(e)))) && s.job.phase.SavingIndex? && Landed(s.job, Flush(Save(e))).Some?
    requires AllClean(s.job.log.loaded)
    ensures var after := Then(s, Ours(Flush(Save(e)))).service;
      && ManifestOf(after, IndexPrefix(cfg)) == s.job.log.loaded + Uploads.Taken(s.job)
      && AllHeld(after, s.job, Stored)
      && ((forall k | k in Uploads.Taken(s.job) :: Holds(after, k)) <==> AllHeld(after, s.job, Declined))
  {
    PublishReplaces(cfg, service, beats, s, e);
    LandingsAlways(cfg, service, beats, s);
    hide Play, ManifestOf, Manifest.Clean, IndexPrefix, PutsKeyed;
    var after := Then(s, Ours(Flush(Save(e)))).service;
    assert forall m | m in s.service :: m in after;
    hide Next, Enabled, Landed;
    HeldTogether(s, after);
  }

  lemma HeldTogether(s: Scene, after: seq<Msg>)
    requires Landings(s) && forall m | m in s.service :: m in after
    ensures AllHeld(after, s.job, Stored)
    ensures (forall k | k in Uploads.Taken(s.job) :: Holds(after, k)) <==> AllHeld(after, s.job, Declined)
  {
    var j := s.job;
    forall i | i in j.log.results && i < |j.log.sent| && j.log.results[i] == Stored ensures Holds(after, j.log.sent[i].key) {
      assert j.log.sent[i] in after;
    }
    if forall k | k in Uploads.Taken(j) :: Holds(after, k) {
      forall i | i in j.log.results && i < |j.log.sent| && j.log.results[i] == Declined
        ensures Holds(after, j.log.sent[i].key)
      {
        assert j.log.sent[i].key in Uploads.Taken(j);
      }
    }
  }
}
