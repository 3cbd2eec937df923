/** One run against a service that answers lookups truthfully, with other writers' entries landing
    in between. */
module Session {
  import opened Base
  import opened Gha
  import opened Job
  import Manifest
  import Uploads
  import Teardown
  import World

  datatype Scene = Scene(service: seq<Msg>, job: Job)

  /** A step of this run, or an entry somebody else stored. */
  datatype Beat = Ours(action: Action) | Theirs(entry: Msg)

  /** Whoever it is, the service gives away only keys it has no entry under. */
  ghost predicate Can(s: Scene, b: Beat) {
    match b
    case Ours(a) => Enabled(s.job, a) && World.Free(s.service, Claim(s.job, a))
    case Theirs(m) => World.Free(s.service, Some(m.key))
  }

  function LandedSeq(j: Job, a: Action): seq<Msg>
    requires Enabled(j, a)
  {
    match Landed(j, a) case Some(m) => [m] case None => []
  }

  function Then(s: Scene, b: Beat): Scene
    requires Can(s, b)
  {
    match b
    case Ours(a) => Scene(s.service + LandedSeq(s.job, a), Next(s.job, a))
    case Theirs(m) => s.(service := s.service + [m])
  }

  ghost function Play(s: Scene, beats: seq<Beat>): Option<Scene> {
    if beats == [] then Some(s)
    else
      match Play(s, beats[..|beats| - 1])
      case None => None
      case Some(m) =>
        var b := beats[|beats| - 1];
        if Can(m, b) then Some(Then(m, b)) else None
  }

  /** The beats of this run alone. */
  function Own(beats: seq<Beat>): seq<Action> {
    if beats == [] then []
    else
      var rest, b := Own(beats[..|beats| - 1]), beats[|beats| - 1];
      if b.Ours? then rest + [b.action] else rest
  }

  /** What other writers do does not reach into the run: everything proved of a run's own steps holds
      here. */
  lemma {:induction false} PlayIsExec(s: Scene, beats: seq<Beat>, end: Scene)
    requires Play(s, beats) == Some(end)
    ensures Exec(s.job, Own(beats)) == Some(end.job)
    decreases |beats|
  {
    if beats != [] {
      hide Enabled, Next, Landed;
      var before, b := Play(s, beats[..|beats| - 1]).value, beats[|beats| - 1];
      PlayIsExec(s, beats[..|beats| - 1], before);
      if b.Ours? {
        var own := Own(beats[..|beats| - 1]);
        assert (own + [b.action])[..|own|] == own;
      }
    }
  }

  /** The newest entry whose key starts with the prefix. */
  function Newest(service: seq<Msg>, prefix: Key): Option<Msg> {
    if service == [] then None
    else if prefix <= service[|service| - 1].key then Some(service[|service| - 1])
    else Newest(service[..|service| - 1], prefix)
  }

  lemma NewestAppend(service: seq<Msg>, m: Msg, prefix: Key)
    ensures Newest(service + [m], prefix) == if prefix <= m.key then Some(m) else Newest(service, prefix)
  {
    assert (service + [m])[..|service|] == service;
  }

  function Offered(m: Option<Msg>): Fetched {
    match m case Some(e) => Found(e.bytes) case None => Absent
  }

  /** The lookup succeeds and gives the newest entry, or nothing when there is none. */
  predicate TruthfulScoped(service: seq<Msg>, cfg: Config, kind: string, reply: Reply<Offer>) {
    reply.Replied? && AfterFetch(reply) == Offered(Newest(service, ScopedPrefix(cfg.prefix, cfg.scope, kind)))
  }

  // -- put keys -------------------------------------------------------------------------------

  /** Everything on its way to the uploader, or past it, has a policy key. */
  ghost predicate Keyed(j: Job) {
    && (forall id | id in j.handlers && Uploads.Carrying(j.handlers[id]) ::
          World.ObjectKey(j.cfg.prefix, j.handlers[id].msg.key))
    && (forall m | m in j.log.sent :: World.ObjectKey(j.cfg.prefix, m.key))
  }

  lemma KeyedHandle(j: Job, id: nat, e: HandlerEvent)
    requires Enabled(j, Handle(id, e)) && Keyed(j)
    ensures Keyed(Next(j, Handle(id, e)))
  {
    var j', h := Next(j, Handle(id, e)), j.handlers[id];
    HandleOnly(j, id, e);
    assert j'.log.sent == if h.PutSending? then j.log.sent + [h.msg] else j.log.sent;
    assert forall h' | HandlerNext(j.cfg, j.core, h, e) == Some(h') && Uploads.Carrying(h') ::
      Uploads.Carrying(h) && h'.msg == h.msg;
    hide World.ObjectKey, Next, HandlerCore, HandlerNext;
  }

  lemma KeyedStep(j: Job, a: Action)
    requires Enabled(j, a) && Keyed(j)
    requires a.StartPut? ==> World.ObjectKey(j.cfg.prefix, a.msg.key)
    ensures Keyed(Next(j, a))
  {
    if a.Handle? {
      KeyedHandle(j, a.id, a.event);
    } else {
      hide World.ObjectKey, FlushCore, FlushPhase, FlushCounters, TaskNext, TaskCore, IndexRead, PackRead;
    }
  }

  lemma PolicyKeysAreClean(prefix: string, k: Key)
    requires World.ObjectKey(prefix, k) && '\n' !in prefix
    ensures Manifest.Clean(k)
  {
    var last := k[|k| - 1];
    assert World.Hex(last) && last in k;
    forall i | 0 <= i < |k| ensures k[i] != '\n' {
      if i < |prefix| {
        World.PrefixAt(prefix + "-", k, i);
        assert k[i] in prefix;
      } else if i == |prefix| {
        World.PrefixAt(prefix + "-", k, i);
      } else {
        assert World.Hex(k[i]);
      }
    }
  }

  // -- scopes ---------------------------------------------------------------------------------

  predicate Comparable(a: string, b: string) { a <= b || b <= a }

  lemma CancelPrefix(p: string, a: string, b: string)
    ensures p + a <= p + b <==> a <= b
  {
    if p + a <= p + b {
      assert (p + b)[|p|..][..|a|] == (p + b)[..|p| + |a|][|p|..];
      assert (p + a)[|p|..] == a && (p + b)[|p|..] == b;
    }
    if a <= b {
      assert p + b == p + a + b[|a|..];
    }
  }

  /** Two scopes can take each other's entries for their own, for some stamp, exactly when one of
      scope-dash is a prefix of the other; so a scope that extends another with a dash does. */
  lemma ScopesApart(prefix: string, kind: string, a: string, b: string)
    ensures (exists stamp :: ScopedPrefix(prefix, a, kind) <= ScopedPrefix(prefix, b, kind) + stamp)
      <==> Comparable(a + "-", b + "-")
  {
    var p, x, y := prefix + "-" + kind + "-", a + "-", b + "-";
    assert ScopedPrefix(prefix, a, kind) == p + x && ScopedPrefix(prefix, b, kind) == p + y;
    forall stamp: string ensures p + x <= p + y + stamp <==> x <= y + stamp {
      assert p + y + stamp == p + (y + stamp);
      CancelPrefix(p, x, y + stamp);
    }
    if x <= y {
      assert x <= y + "";
      assert p + x <= p + y + "";
    } else if y <= x {
      assert y + x[|y|..] == x;
      assert p + x <= p + y + x[|y|..];
    }
    forall stamp: string ensures x <= y + stamp ==> Comparable(x, y) {
      PrefixOfAppend(x, y, stamp);
    }
  }

  lemma PrefixOfAppend(x: string, y: string, more: string)
    ensures x <= y + more ==> Comparable(x, y)
  {
    if x <= y + more {
      if |x| <= |y| {
        assert (y + more)[..|x|] == y[..|x|];
      } else {
        assert (y + more)[..|x|][..|y|] == y;
      }
    }
  }
}
