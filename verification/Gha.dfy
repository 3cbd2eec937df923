/** Client for the cache service: a reservation, an upload and a finalisation to store, one lookup
    to fetch, and a latch that stops every call once the service has refused one for rate. */
module Gha {
  import opened Base
  import Text

  /** What one service call came back with. */
  datatype Reply<+T> =
    | Replied(value: T)
    | Limited(text: string)                    // 429
    | Refused(status: string, text: string)    // any other status that is not a success
    | Garbled(text: string)                    // a success whose body does not parse
    | Unreachable

  datatype Grant = Grant(ok: bool, url: string)

  /** The lookup's answer, and what the signed URL then yielded. */
  datatype Offer = Offer(ok: bool, url: string, blob: Option<Bytes>)

  datatype Fetched = Found(bytes: Bytes) | Absent | Broken

  datatype PutResult = Stored | Declined | Failed

  datatype PutStage = Entering | Passed | Reserved | Uploaded | Back(result: PutResult)

  datatype PutEvent =
    | Check
    | Create(grant: Reply<Grant>)
    | Blob(accepted: bool)
    | Finalize(done: Reply<bool>, landed: bool)

  /** The text of the error a failed call turns into. */
  function Message<T>(call: string, reply: Reply<T>): string {
    match reply
    case Replied(_) => ""
    case Limited(text) => call + " returned 429 Too Many Requests: " + text
    case Refused(status, text) => call + " returned " + status + ": " + text
    case Garbled(text) => "decoding " + call + " response: " + text
    case Unreachable => "calling " + call
  }

  /** Whether an error is read as the entry being there already. It is the text that decides. */
  predicate AlreadyExists(message: string) {
    Text.Contains(message, "409") || Text.Contains(message, "already_exists")
  }

  function AfterCreate(grant: Reply<Grant>): PutStage {
    match grant
    case Replied(g) => if !g.ok || g.url == "" then Back(Declined) else Reserved
    case _ => if AlreadyExists(Message("CreateCacheEntry", grant)) then Back(Declined) else Back(Failed)
  }

  function AfterFinalize(done: Reply<bool>): PutStage {
    match done
    case Replied(ok) => Back(if ok then Stored else Declined)
    case _ => Back(Failed)
  }

  function AfterFetch(reply: Reply<Offer>): Fetched {
    match reply
    case Replied(o) =>
      if !o.ok || o.url == "" then Absent
      else (match o.blob case Some(bytes) => Found(bytes) case None => Broken)
    case _ => Broken
  }

  /** Whether the event is what the stage waits for. A confirmed finalisation has landed, a refused
      or rate-limited one has not; after any other failure it may have. */
  predicate Expects(stage: PutStage, e: PutEvent) {
    match e
    case Check => stage.Entering?
    case Create(_) => stage.Passed?
    case Blob(_) => stage.Reserved?
    case Finalize(done, landed) =>
      stage.Uploaded? && (done.Replied? ==> landed == done.value) && (done.Limited? ==> !landed)
  }

  function Advance(stage: PutStage, exhausted: bool, e: PutEvent): PutStage
    requires Expects(stage, e)
  {
    match e
    case Check => if exhausted then Back(Declined) else Passed
    case Create(grant) => AfterCreate(grant)
    case Blob(accepted) => if accepted then Uploaded else Back(Failed)
    case Finalize(done, _) => AfterFinalize(done)
  }

  /** Whether the event is a call to the service itself; the blob travels elsewhere. */
  predicate Calls(e: PutEvent) { e.Create? || e.Finalize? }

  predicate SetsLatch(e: PutEvent) { (e.Create? && e.grant.Limited?) || (e.Finalize? && e.done.Limited?) }

  predicate Lands(e: PutEvent) { e.Finalize? && e.landed }

  /** A reservation granted with a place to upload to. */
  predicate Granted(grant: Reply<Grant>) { grant.Replied? && grant.value.ok && grant.value.url != "" }

  /** The service gives the key away: it grants its reservation, or an entry lands under it. */
  predicate Claims(e: PutEvent) { Lands(e) || (e.Create? && Granted(e.grant)) }

  // -- one store, start to end ----------------------------------------------------------------

  /** Everything the service will say to one store, should it be asked. */
  datatype Script = Script(grant: Reply<Grant>, accepted: bool, done: Reply<bool>, landed: bool)

  function Cue(stage: PutStage, s: Script): PutEvent
    requires !stage.Back?
  {
    match stage
    case Entering => Check
    case Passed => Create(s.grant)
    case Reserved => Blob(s.accepted)
    case Uploaded => Finalize(s.done, s.landed)
  }

  predicate Coherent(s: Script) { Expects(Uploaded, Finalize(s.done, s.landed)) }

  function Distance(stage: PutStage): nat {
    match stage
    case Entering => 4 case Passed => 3 case Reserved => 2 case Uploaded => 1 case Back(_) => 0
  }

  datatype Ending = Ending(result: PutResult, exhausted: bool, calls: nat, landed: bool)

  /** The small steps run without interruption. */
  function Drive(stage: PutStage, s: Script, exhausted: bool, calls: nat, landed: bool): Ending
    requires Coherent(s)
    decreases Distance(stage)
  {
    if stage.Back? then Ending(stage.result, exhausted, calls, landed)
    else
      var e := Cue(stage, s);
      Drive(Advance(stage, exhausted, e), s, exhausted || SetsLatch(e),
            calls + (if Calls(e) then 1 else 0), landed || Lands(e))
  }

  class GhaCache {
    var exhausted: bool

    constructor ()
      ensures !exhausted
    {
      exhausted := false;
    }

    /** One call: the latch closes on a 429 and never opens. */
    method Rpc<T>(reply: Reply<T>) returns (value: Option<T>)
      modifies this
      ensures exhausted == (old(exhausted) || reply.Limited?)
      ensures value == if reply.Replied? then Some(reply.value) else None
    {
      if reply.Limited? {
        exhausted := true;
      }
      value := if reply.Replied? then Some(reply.value) else None;
    }

    method Fetch(reply: Reply<Offer>) returns (result: Fetched, calls: nat)
      modifies this
      ensures old(exhausted) ==> result == Absent && calls == 0 && exhausted
      ensures !old(exhausted) ==> result == AfterFetch(reply) && calls == 1 && exhausted == reply.Limited?
    {
      if exhausted {
        return Absent, 0;
      }
      var offer := Rpc(reply);
      calls := 1;
      if offer == None {
        return Broken, 1;
      }
      if !offer.value.ok || offer.value.url == "" {
        return Absent, 1;
      }
      result := match offer.value.blob case Some(bytes) => Found(bytes) case None => Broken;
    }

    /** Stores an object: reserve, upload, finalise. */
    method Put(s: Script) returns (result: PutResult, calls: nat, landed: bool)
      requires Coherent(s)
      modifies this
      ensures Ending(result, exhausted, calls, landed) == Drive(Entering, s, old(exhausted), 0, false)
    {
      if exhausted {
        return Declined, 0, false;
      }
      var grant := Rpc(s.grant);
      if grant == None {
        if AlreadyExists(Message("CreateCacheEntry", s.grant)) {
          return Declined, 1, false;
        }
        return Failed, 1, false;
      }
      if !grant.value.ok || grant.value.url == "" {
        return Declined, 1, false;
      }
      if !s.accepted {
        return Failed, 1, false;
      }
      var done := Rpc(s.done);
      if done == None {
        return Failed, 2, s.landed;
      }
      result, calls, landed := if done.value then Stored else Declined, 2, s.landed;
    }
  }

  /** What one store amounts to: nothing is asked once the latch is set; otherwise one call or two;
      a stored result means the entry landed; an entry lands only after two calls. */
  lemma StoreOutcome(s: Script, exhausted: bool)
    requires Coherent(s)
    ensures var end := Drive(Entering, s, exhausted, 0, false);
      && (exhausted ==> end == Ending(Declined, true, 0, false))
      && (!exhausted ==> 1 <= end.calls <= 2)
      && (end.result == Stored ==> end.landed)
      && (end.landed ==> end.calls == 2)
      && (end.exhausted <==> exhausted || s.grant.Limited? || (end.calls == 2 && s.done.Limited?))
  {
    var e1 := Advance(Entering, exhausted, Check);
    if e1.Passed? {
      var e2 := Advance(e1, exhausted, Create(s.grant));
      if e2.Reserved? {
        var e3 := Advance(e2, false, Blob(s.accepted));
        if e3.Uploaded? {
          var e4 := Advance(e3, false, Finalize(s.done, s.landed));
          assert Drive(e4, s, s.done.Limited?, 2, s.landed) == Ending(e4.result, s.done.Limited?, 2, s.landed);
        }
      }
    }
  }

  /** When a store comes back declined, which its caller takes for the entry being there: exactly when
      the latch was set, the reservation was answered without a place to upload to, it failed with a
      message read as an existing entry, or the uploaded blob's finalisation was answered with a no. */
  lemma DeclinedExactly(s: Script, exhausted: bool)
    requires Coherent(s)
    ensures Drive(Entering, s, exhausted, 0, false).result == Declined <==>
      || exhausted
      || (s.grant.Replied? && !Granted(s.grant))
      || (!s.grant.Replied? && AlreadyExists(Message("CreateCacheEntry", s.grant)))
      || (Granted(s.grant) && s.accepted && s.done == Replied(false))
    ensures Drive(Entering, s, exhausted, 0, false).result == Stored <==>
      !exhausted && Granted(s.grant) && s.accepted && s.done == Replied(true)
  {
    hide AlreadyExists, Message;
    StoreOutcome(s, exhausted);
    var e1 := Advance(Entering, exhausted, Check);
    if e1.Passed? {
      var e2 := Advance(e1, exhausted, Create(s.grant));
      if e2.Reserved? {
        var e3 := Advance(e2, false, Blob(s.accepted));
        if e3.Uploaded? {
          var e4 := Advance(e3, false, Finalize(s.done, s.landed));
          assert Drive(e4, s, s.done.Limited?, 2, s.landed) == Ending(e4.result, s.done.Limited?, 2, s.landed);
        }
      }
    }
  }

  /** What a lookup comes to: an entry exactly when the service says yes, offers a place to fetch it from,
      and it is there; nothing exactly when the answer is a no or offers no place; in all other cases it
      failed. */
  lemma FoundExactly(reply: Reply<Offer>, bytes: Bytes)
    ensures var f := AfterFetch(reply);
      && (f == Found(bytes) <==> exists url: string | url != "" :: reply == Replied(Offer(true, url, Some(bytes))))
      && (f == Absent <==> reply.Replied? && (reply.value.ok ==> reply.value.url == ""))
      && (f == Broken <==> !reply.Replied? || (reply.value.ok && reply.value.url != "" && reply.value.blob == None))
  {
    if AfterFetch(reply) == Found(bytes) {
      assert reply == Replied(Offer(true, reply.value.url, Some(bytes)));
    }
  }

  predicate Tells(text: string) { Text.Contains(text, "409") || Text.Contains(text, "already_exists") }

  /** Neither mark of an existing entry can begin before a colon and end after it. */
  lemma TellsAcross(a: string, b: string)
    ensures Tells(a + [':'] + b) <==> Tells(a) || Tells(b)
  {
    Text.ContainsAcross(a, ':', b, "409");
    Text.ContainsAcross(a, ':', b, "already_exists");
  }

  lemma TellsAfterSpace(a: string, b: string)
    ensures Tells(a + [' '] + b) <==> Tells(a) || Tells(b)
  {
    Text.ContainsAcross(a, ' ', b, "409");
    Text.ContainsAcross(a, ' ', b, "already_exists");
  }

  lemma TellsNothing(a: string)
    requires '4' !in a && '_' !in a
    ensures !Tells(a)
  {
    Text.NotContained(a, "409", '4');
    Text.NotContained(a, "already_exists", '_');
  }

  /** Whether a reservation that failed is taken for an entry already there: exactly when the status or
      the text the service sent says 409 or already_exists anywhere - also under a rate limit, also in
      a success that does not parse; never when there was no answer. */
  lemma ExistenceIsReadFromText(grant: Reply<Grant>)
    requires !grant.Replied?
    ensures AfterCreate(grant) == Back(Declined) <==>
      match grant {
        case Refused(status, text) => Tells(status) || Tells(text)
        case Limited(text) => Tells(text)
        case Garbled(text) => Tells(text)
        case Unreachable => false
        case Replied(_) => false }
    ensures AfterCreate(grant) == Back(Declined) || AfterCreate(grant) == Back(Failed)
  {
    var m := Message("CreateCacheEntry", grant);
    hide Tells, Message;
    assert AlreadyExists(m) == Tells(m) by { SameMarks(m); }
    match grant
    case Refused(status, text) => RefusedTells(status, text);
    case Limited(text) => LimitedTells(text);
    case Garbled(text) => GarbledTells(text);
    case Unreachable => UnreachableTells();
  }

  lemma SameMarks(m: string)
    ensures AlreadyExists(m) == Tells(m)
  {
  }

  lemma StatusTells(head: string, status: string, text: string)
    requires '4' !in head && '_' !in head
    ensures Tells(head + [' '] + status + [':'] + ([' '] + text)) <==> Tells(status) || Tells(text)
  {
    hide Tells;
    TellsAcross(head + [' '] + status, [' '] + text);
    TellsAfterSpace(head, status);
    TellsAfterSpace([], text);
    assert [] + [' '] + text == [' '] + text;
    TellsNothing(head);
    TellsNothing([]);
  }

  lemma RefusedTells(status: string, text: string)
    ensures Tells(Message("CreateCacheEntry", Reply<Grant>.Refused(status, text))) <==> Tells(status) || Tells(text)
  {
    hide Tells;
    var head := "CreateCacheEntry" + " returned";
    StatusTells(head, status, text);
    assert head + [' '] + status + [':'] + ([' '] + text) == "CreateCacheEntry" + " returned " + status + ": " + text;
  }

  lemma LimitedTells(text: string)
    ensures Tells(Message("CreateCacheEntry", Reply<Grant>.Limited(text))) <==> Tells(text)
  {
    hide Tells;
    var head, rate := "CreateCacheEntry" + " returned", "429 Too Many Requests";
    StatusTells(head, rate, text);
    RateTells();
    assert head + [' '] + rate + [':'] + ([' '] + text)
        == "CreateCacheEntry" + (" returned " + rate + ": ") + text;
    assert " returned " + rate + ": " == " returned 429 Too Many Requests: ";
  }

  lemma RateTells()
    ensures !Tells("429 Too Many Requests")
  {
    Text.NotContained("429 Too Many Requests", "409", '0');
    Text.NotContained("429 Too Many Requests", "already_exists", '_');
  }

  lemma GarbledTells(text: string)
    ensures Tells(Message("CreateCacheEntry", Reply<Grant>.Garbled(text))) <==> Tells(text)
  {
    hide Tells;
    var head := "decoding " + "CreateCacheEntry" + " response";
    TellsAcross(head, [' '] + text);
    TellsAfterSpace([], text);
    assert [] + [' '] + text == [' '] + text;
    TellsNothing(head);
    TellsNothing([]);
    assert head + [':'] + ([' '] + text) == "decoding " + "CreateCacheEntry" + " response: " + text;
  }

  lemma UnreachableTells()
    ensures !Tells(Message("CreateCacheEntry", Reply<Grant>.Unreachable))
  {
    hide Tells;
    TellsNothing("calling " + "CreateCacheEntry");
  }

  /** What the keys of a scope's manifests, or packs, all begin with. */
  function ScopedPrefix(prefix: string, scope: string, kind: string): string {
    prefix + "-" + kind + "-" + scope + "-"
  }
}
