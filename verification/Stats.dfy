/** The run's counters: each request adds to several of them, one atomic addition at a time, while
    other requests do the same. */
module Stats {
  import opened Base
  import Ascii

  datatype Outcome = Hit | Stored | Miss(reason: string) | Pass(reason: string) | Error(reason: string)

  datatype Field =
    | Requests | Hits | Misses | StoredOnes | Passthrough | Errors | BytesFromCache | BytesFromNetwork
    | BytesUploaded | EntriesStored | Packed | PackedBytes | UploadsFailed | UpstreamMillis

  datatype Summary = Summary(
    requests: nat, hits: nat, misses: nat, stored: nat, passthrough: nat, errors: nat, bytesFromCache: nat,
    bytesFromNetwork: nat, bytesUploaded: nat, entriesStored: nat, packed: nat, packedBytes: nat,
    uploadsFailed: nat, upstreamMillis: nat)

  const ZERO := Summary(0, 0, 0, 0, 0, 0, 0, 0, 0, 0, 0, 0, 0, 0)

  function Get(s: Summary, f: Field): nat {
    match f
    case Requests => s.requests case Hits => s.hits case Misses => s.misses case StoredOnes => s.stored
    case Passthrough => s.passthrough case Errors => s.errors case BytesFromCache => s.bytesFromCache
    case BytesFromNetwork => s.bytesFromNetwork case BytesUploaded => s.bytesUploaded
    case EntriesStored => s.entriesStored case Packed => s.packed case PackedBytes => s.packedBytes
    case UploadsFailed => s.uploadsFailed case UpstreamMillis => s.upstreamMillis
  }

  /** An atomic addition on 64 bits: it wraps around. */
  function Plus(a: nat, b: nat): nat { (a + b) % Ascii.U64 }

  datatype Bump = Bump(field: Field, amount: nat)

  function Bumped(s: Summary, b: Bump): Summary {
    match b.field
    case Requests => s.(requests := Plus(s.requests, b.amount))
    case Hits => s.(hits := Plus(s.hits, b.amount))
    case Misses => s.(misses := Plus(s.misses, b.amount))
    case StoredOnes => s.(stored := Plus(s.stored, b.amount))
    case Passthrough => s.(passthrough := Plus(s.passthrough, b.amount))
    case Errors => s.(errors := Plus(s.errors, b.amount))
    case BytesFromCache => s.(bytesFromCache := Plus(s.bytesFromCache, b.amount))
    case BytesFromNetwork => s.(bytesFromNetwork := Plus(s.bytesFromNetwork, b.amount))
    case BytesUploaded => s.(bytesUploaded := Plus(s.bytesUploaded, b.amount))
    case EntriesStored => s.(entriesStored := Plus(s.entriesStored, b.amount))
    case Packed => s.(packed := Plus(s.packed, b.amount))
    case PackedBytes => s.(packedBytes := Plus(s.packedBytes, b.amount))
    case UploadsFailed => s.(uploadsFailed := Plus(s.uploadsFailed, b.amount))
    case UpstreamMillis => s.(upstreamMillis := Plus(s.upstreamMillis, b.amount))
  }

  datatype Note = Note(outcome: Outcome, bytes: nat, millis: nat)

  /** The additions one request makes, in their order. */
  function Bumps(r: Note): (b: seq<Bump>)
    ensures b != [] && b[0] == Bump(Requests, 1)
    ensures forall i | 0 < i < |b| :: b[i].field != Requests
  {
    [Bump(Requests, 1)] +
    match r.outcome
    case Hit => [Bump(Hits, 1), Bump(BytesFromCache, r.bytes)]
    case Stored => [Bump(Misses, 1), Bump(StoredOnes, 1), Bump(BytesFromNetwork, r.bytes), Bump(UpstreamMillis, r.millis)]
    case Miss(_) => [Bump(Misses, 1), Bump(BytesFromNetwork, r.bytes), Bump(UpstreamMillis, r.millis)]
    case Pass(_) => [Bump(Passthrough, 1), Bump(BytesFromNetwork, r.bytes)]
    case Error(_) => [Bump(Errors, 1)]
  }

  function All(s: Summary, bumps: seq<Bump>): Summary
    decreases |bumps|
  {
    if bumps == [] then s else All(Bumped(s, bumps[0]), bumps[1..])
  }

  /** What one request's outcome adds up to. */
  function Recorded(s: Summary, r: Note): Summary {
    var t := Bumped(s, Bump(Requests, 1));
    match r.outcome
    case Hit => Bumped(Bumped(t, Bump(Hits, 1)), Bump(BytesFromCache, r.bytes))
    case Stored =>
      Bumped(Bumped(Bumped(Bumped(t, Bump(Misses, 1)), Bump(StoredOnes, 1)), Bump(BytesFromNetwork, r.bytes)),
             Bump(UpstreamMillis, r.millis))
    case Miss(_) =>
      Bumped(Bumped(Bumped(t, Bump(Misses, 1)), Bump(BytesFromNetwork, r.bytes)), Bump(UpstreamMillis, r.millis))
    case Pass(_) => Bumped(Bumped(t, Bump(Passthrough, 1)), Bump(BytesFromNetwork, r.bytes))
    case Error(_) => Bumped(t, Bump(Errors, 1))
  }

  lemma AllCons(s: Summary, b: Bump, rest: seq<Bump>)
    ensures All(s, [b] + rest) == All(Bumped(s, b), rest)
    ensures All(s, [b]) == Bumped(s, b)
  {
    assert ([b] + rest)[1..] == rest;
    var one := [b];
    assert one[1..] == [];
  }

  /** The additions of one request are the list of them, in its order. */
  lemma RecordedIsBumps(s: Summary, r: Note)
    ensures Recorded(s, r) == All(s, Bumps(r))
  {
    hide Bumped, All;
    var first, rest := Bump(Requests, 1), Bumps(r)[1..];
    assert Bumps(r) == [first] + rest;
    AllCons(s, first, rest);
    var t := Bumped(s, first);
    if |rest| == 1 {
      assert rest == [rest[0]];
      AllCons(t, rest[0], []);
    } else if |rest| == 2 {
      assert rest == [rest[0]] + [rest[1]];
      AllCons(t, rest[0], [rest[1]]);
      AllCons(Bumped(t, rest[0]), rest[1], []);
    } else {
      var u := Bumped(Bumped(t, rest[0]), rest[1]);
      assert rest == [rest[0]] + ([rest[1]] + rest[2..]);
      AllCons(t, rest[0], [rest[1]] + rest[2..]);
      AllCons(Bumped(t, rest[0]), rest[1], rest[2..]);
      if |rest| == 3 {
        assert rest[2..] == [rest[2]];
        AllCons(u, rest[2], []);
      } else {
        assert rest[2..] == [rest[2]] + [rest[3]];
        AllCons(u, rest[2], [rest[3]]);
        AllCons(Bumped(u, rest[2]), rest[3], []);
      }
    }
  }

  class Stats {
    var requests: nat
    var hits: nat
    var misses: nat
    var stored: nat
    var passthrough: nat
    var errors: nat
    var bytesFromCache: nat
    var bytesFromNetwork: nat
    var bytesUploaded: nat
    var entriesStored: nat
    var packed: nat
    var packedBytes: nat
    var uploadsFailed: nat
    var upstreamMillis: nat

    ghost function View(): Summary
      reads this
    {
      Summary(requests, hits, misses, stored, passthrough, errors, bytesFromCache, bytesFromNetwork, bytesUploaded,
              entriesStored, packed, packedBytes, uploadsFailed, upstreamMillis)
    }

    constructor ()
      ensures View() == ZERO
    {
      requests, hits, misses, stored, passthrough, errors := 0, 0, 0, 0, 0, 0;
      bytesFromCache, bytesFromNetwork, bytesUploaded, entriesStored := 0, 0, 0, 0;
      packed, packedBytes, uploadsFailed, upstreamMillis := 0, 0, 0, 0;
    }

    /** One atomic addition to one counter. */
    method FetchAdd(f: Field, amount: nat)
      modifies this
      ensures View() == Bumped(old(View()), Bump(f, amount))
    {
      hide Plus;
      match f {
        case Requests => requests := Plus(requests, amount);
        case Hits => hits := Plus(hits, amount);
        case Misses => misses := Plus(misses, amount);
        case StoredOnes => stored := Plus(stored, amount);
        case Passthrough => passthrough := Plus(passthrough, amount);
        case Errors => errors := Plus(errors, amount);
        case BytesFromCache => bytesFromCache := Plus(bytesFromCache, amount);
        case BytesFromNetwork => bytesFromNetwork := Plus(bytesFromNetwork, amount);
        case BytesUploaded => bytesUploaded := Plus(bytesUploaded, amount);
        case EntriesStored => entriesStored := Plus(entriesStored, amount);
        case Packed => packed := Plus(packed, amount);
        case PackedBytes => packedBytes := Plus(packedBytes, amount);
        case UploadsFailed => uploadsFailed := Plus(uploadsFailed, amount);
        case UpstreamMillis => upstreamMillis := Plus(upstreamMillis, amount);
      }
    }

    /** One outcome for one request. */
    method Record(outcome: Outcome, bytes: nat, millis: nat)
      modifies this
      ensures View() == Recorded(old(View()), Note(outcome, bytes, millis))
    {
      hide View, Bumped;
      FetchAdd(Requests, 1);
      match outcome {
        case Hit =>
          FetchAdd(Hits, 1);
          FetchAdd(BytesFromCache, bytes);
        case Stored =>
          FetchAdd(Misses, 1);
          FetchAdd(StoredOnes, 1);
          FetchAdd(BytesFromNetwork, bytes);
          FetchAdd(UpstreamMillis, millis);
        case Miss(_) =>
          FetchAdd(Misses, 1);
          FetchAdd(BytesFromNetwork, bytes);
          FetchAdd(UpstreamMillis, millis);
        case Pass(_) =>
          FetchAdd(Passthrough, 1);
          FetchAdd(BytesFromNetwork, bytes);
        case Error(_) =>
          FetchAdd(Errors, 1);
      }
    }

    /** One finished upload. */
    method RecordUpload(bytes: nat, ok: bool)
      modifies this
      ensures View() == Uploaded(old(View()), bytes, ok)
    {
      if ok {
        FetchAdd(EntriesStored, 1);
        FetchAdd(BytesUploaded, bytes);
      } else {
        FetchAdd(UploadsFailed, 1);
      }
    }

    /** The pack written: not added up but replaced. */
    method RecordPacked(objects: nat, bytes: nat)
      modifies this
      ensures View() == old(View()).(packed := objects, packedBytes := bytes)
    {
      packed := objects;
      packedBytes := bytes;
    }

    method Summarise() returns (s: Summary)
      ensures s == View()
    {
      s := Summary(requests, hits, misses, stored, passthrough, errors, bytesFromCache, bytesFromNetwork, bytesUploaded,
                   entriesStored, packed, packedBytes, uploadsFailed, upstreamMillis);
    }
  }

  function Uploaded(s: Summary, bytes: nat, ok: bool): Summary {
    if ok then Bumped(Bumped(s, Bump(EntriesStored, 1)), Bump(BytesUploaded, bytes))
    else Bumped(s, Bump(UploadsFailed, 1))
  }

  // -- many requests at once ------------------------------------------------------------------

  /** The counters, and how far each request has got with its additions. */
  datatype Ledger = Ledger(counters: Summary, notes: seq<Note>, done: seq<nat>)

  datatype Move = Begin(note: Note) | Tick(i: nat)

  const BLANK := Ledger(ZERO, [], [])

  predicate Able(l: Ledger, m: Move) {
    |l.done| == |l.notes| && (m.Tick? ==> m.i < |l.notes| && l.done[m.i] < |Bumps(l.notes[m.i])|)
  }

  function Moved(l: Ledger, m: Move): Ledger
    requires Able(l, m)
  {
    match m
    case Begin(note) => l.(notes := l.notes + [note], done := l.done + [0])
    case Tick(i) =>
      l.(counters := Bumped(l.counters, Bumps(l.notes[i])[l.done[i]]), done := l.done[i := l.done[i] + 1])
  }

  function Count(moves: seq<Move>): (l: Option<Ledger>) {
    if moves == [] then Some(BLANK)
    else
      match Count(moves[..|moves| - 1])
      case None => None
      case Some(l) => if Able(l, moves[|moves| - 1]) then Some(Moved(l, moves[|moves| - 1])) else None
  }

  predicate Idle(l: Ledger) {
    |l.done| == |l.notes| && forall i | 0 <= i < |l.notes| :: l.done[i] == |Bumps(l.notes[i])|
  }

  /** What a list of additions adds to one field. */
  function Amount(b: seq<Bump>, f: Field): nat {
    if b == [] then 0 else Amount(b[..|b| - 1], f) + if b[|b| - 1].field == f then b[|b| - 1].amount else 0
  }

  /** What the additions made so far add up to. */
  function Sum(notes: seq<Note>, done: seq<nat>, f: Field): nat
    requires |done| == |notes| && forall i | 0 <= i < |notes| :: done[i] <= |Bumps(notes[i])|
  {
    if notes == [] then 0
    else
      var n := |notes| - 1;
      Sum(notes[..n], done[..n], f) + Amount(Bumps(notes[n])[..done[n]], f)
  }

  predicate Within(notes: seq<Note>, done: seq<nat>) {
    |done| == |notes| && forall i | 0 <= i < |notes| :: done[i] <= |Bumps(notes[i])|
  }

  lemma {:induction false} SumTick(notes: seq<Note>, done: seq<nat>, i: nat, f: Field)
    requires Within(notes, done) && i < |notes| && done[i] < |Bumps(notes[i])|
    ensures Within(notes, done[i := done[i] + 1])
    ensures var b := Bumps(notes[i])[done[i]];
      Sum(notes, done[i := done[i] + 1], f) == Sum(notes, done, f) + if b.field == f then b.amount else 0
  {
    hide Bumps;
    var n, next := |notes| - 1, done[i := done[i] + 1];
    if i < n {
      assert next[..n] == done[..n][i := done[i] + 1];
      SumTick(notes[..n], done[..n], i, f);
    } else {
      assert next[..n] == done[..n];
      var some := Bumps(notes[n])[..done[n] + 1];
      assert some[..|some| - 1] == Bumps(notes[n])[..done[n]];
    }
  }

  lemma SumBegin(notes: seq<Note>, done: seq<nat>, note: Note, f: Field)
    requires Within(notes, done)
    ensures Within(notes + [note], done + [0]) && Sum(notes + [note], done + [0], f) == Sum(notes, done, f)
  {
    hide Bumps;
    var n := |notes|;
    assert (notes + [note])[..n] == notes && (done + [0])[..n] == done;
    assert Bumps(note)[..0] == [];
  }

  lemma BumpedGet(s: Summary, b: Bump, f: Field)
    ensures Get(Bumped(s, b), f) == if b.field == f then Plus(Get(s, f), b.amount) else Get(s, f)
  {
    hide Plus;
  }

  lemma Modular(a: nat, b: nat)
    ensures Plus(a % Ascii.U64, b) == (a + b) % Ascii.U64
  {
  }

  /** Each counter is the sum of the additions made to it, modulo 2^64, however they interleaved. */
  lemma {:induction false} CountersAreSums(moves: seq<Move>, l: Ledger, f: Field)
    requires Count(moves) == Some(l)
    ensures Within(l.notes, l.done) && Get(l.counters, f) == Sum(l.notes, l.done, f) % Ascii.U64
  {
    hide Bumps, Bumped, Get, Plus, Sum;
    if moves == [] {
      ZeroGet(f);
    } else {
      var before, m := Count(moves[..|moves| - 1]).value, moves[|moves| - 1];
      CountersAreSums(moves[..|moves| - 1], before, f);
      match m
      case Begin(note) => SumBegin(before.notes, before.done, note, f);
      case Tick(i) =>
        var b := Bumps(before.notes[i])[before.done[i]];
        SumTick(before.notes, before.done, i, f);
        BumpedGet(before.counters, b, f);
        if b.field == f {
          Modular(Sum(before.notes, before.done, f), b.amount);
        }
    }
  }

  lemma ZeroGet(f: Field)
    ensures Get(ZERO, f) == 0 && Sum([], [], f) == 0
  {
  }

  lemma AmountStep(b: seq<Bump>, k: nat, f: Field)
    requires k < |b|
    ensures Amount(b[..k + 1], f) == Amount(b[..k], f) + if b[k].field == f then b[k].amount else 0
  {
    assert b[..k + 1][..k] == b[..k];
  }

  predicate Classes(f: Field) { f.Hits? || f.Misses? || f.Passthrough? || f.Errors? }

  /** One request's share of a field once it has made its first k additions. */
  function Share(r: Note, k: nat, f: Field): nat {
    var b := Bumps(r);
    match f
    case Requests => if k >= 1 then 1 else 0
    case StoredOnes => if k >= 3 && r.outcome.Stored? then 1 else 0
    case Hits => if k >= 2 && r.outcome.Hit? then 1 else 0
    case Misses => if k >= 2 && (r.outcome.Stored? || r.outcome.Miss?) then 1 else 0
    case Passthrough => if k >= 2 && r.outcome.Pass? then 1 else 0
    case Errors => if k >= 2 && r.outcome.Error? then 1 else 0
    case BytesFromCache => if k >= 3 && r.outcome.Hit? then r.bytes else 0
    case BytesFromNetwork =>
      if (k >= 4 && r.outcome.Stored?) || (k >= 3 && (r.outcome.Miss? || r.outcome.Pass?)) then r.bytes else 0
    case UpstreamMillis => if (k >= 5 && r.outcome.Stored?) || (k >= 4 && r.outcome.Miss?) then r.millis else 0
    case _ => 0
  }

  /** What a request is worth to a counter. */
  function Worth(n: Note, f: Field): nat {
    match f
    case Requests => 1
    case Hits => if n.outcome.Hit? then 1 else 0
    case Misses => if n.outcome.Miss? || n.outcome.Stored? then 1 else 0
    case StoredOnes => if n.outcome.Stored? then 1 else 0
    case Passthrough => if n.outcome.Pass? then 1 else 0
    case Errors => if n.outcome.Error? then 1 else 0
    case BytesFromCache => if n.outcome.Hit? then n.bytes else 0
    case BytesFromNetwork => if n.outcome.Hit? || n.outcome.Error? then 0 else n.bytes
    case UpstreamMillis => if n.outcome.Miss? || n.outcome.Stored? then n.millis else 0
    case _ => 0
  }

  predicate Counted(f: Field) { Classes(f) || f.Requests? || f.StoredOnes? }

  lemma {:induction false} AmountIsShare(r: Note, k: nat, f: Field)
    requires k <= |Bumps(r)|
    ensures Amount(Bumps(r)[..k], f) == Share(r, k, f)
  {
    if k > 0 {
      AmountIsShare(r, k - 1, f);
      AmountStep(Bumps(r), k - 1, f);
      hide Amount, Share, Bumps;
      ShareStep(r, k - 1, f);
    }
  }

  lemma ShareStep(r: Note, k: nat, f: Field)
    requires k < |Bumps(r)|
    ensures Share(r, k + 1, f) == Share(r, k, f) + if Bumps(r)[k].field == f then Bumps(r)[k].amount else 0
  {
  }

  /** The sums keep to the books: every class counted has been counted as a request first. */
  lemma {:induction false} SumsInOrder(notes: seq<Note>, done: seq<nat>)
    requires Within(notes, done)
    ensures Sum(notes, done, Hits) + Sum(notes, done, Misses) + Sum(notes, done, Passthrough) + Sum(notes, done, Errors)
      <= Sum(notes, done, Requests) <= |notes|
    ensures Sum(notes, done, StoredOnes) <= Sum(notes, done, Misses)
  {
    hide Bumps, Amount;
    if notes != [] {
      var n := |notes| - 1;
      SumsInOrder(notes[..n], done[..n]);
      AmountIsShare(notes[n], done[n], Hits);
      AmountIsShare(notes[n], done[n], Misses);
      AmountIsShare(notes[n], done[n], Passthrough);
      AmountIsShare(notes[n], done[n], Errors);
      AmountIsShare(notes[n], done[n], Requests);
      AmountIsShare(notes[n], done[n], StoredOnes);
    }
  }

  /** What the notes are worth to a counter together. */
  function Tally(notes: seq<Note>, f: Field): nat {
    if notes == [] then 0
    else Tally(notes[..|notes| - 1], f) + Worth(notes[|notes| - 1], f)
  }

  lemma {:induction false} SumsWhenDone(notes: seq<Note>, done: seq<nat>, f: Field)
    requires Within(notes, done) && forall i | 0 <= i < |notes| :: done[i] == |Bumps(notes[i])|
    ensures Sum(notes, done, f) == Tally(notes, f)
  {
    hide Amount;
    if notes != [] {
      var n := |notes| - 1;
      SumsWhenDone(notes[..n], done[..n], f);
      AmountIsShare(notes[n], done[n], f);
    }
  }

  lemma {:induction false} TallyClasses(notes: seq<Note>)
    ensures Tally(notes, Hits) + Tally(notes, Misses) + Tally(notes, Passthrough) + Tally(notes, Errors) == |notes|
    ensures Tally(notes, Requests) == |notes|
  {
    if notes != [] {
      TallyClasses(notes[..|notes| - 1]);
    }
  }

  lemma {:induction false} SumAtMost(notes: seq<Note>, done: seq<nat>, f: Field)
    requires Within(notes, done) && Counted(f)
    ensures Sum(notes, done, f) <= |notes|
  {
    hide Bumps, Amount;
    if notes != [] {
      SumAtMost(notes[..|notes| - 1], done[..|notes| - 1], f);
      AmountIsShare(notes[|notes| - 1], done[|notes| - 1], f);
    }
  }

  lemma NoWrap(moves: seq<Move>, l: Ledger, f: Field)
    requires Count(moves) == Some(l) && |l.notes| < Ascii.U64 && Counted(f)
    ensures Within(l.notes, l.done) && Get(l.counters, f) == Sum(l.notes, l.done, f)
    ensures Idle(l) ==> Get(l.counters, f) == Tally(l.notes, f)
  {
    hide Bumps, Count, Get, Tally, Sum;
    CountersAreSums(moves, l, f);
    SumAtMost(l.notes, l.done, f);
    if Idle(l) {
      SumsWhenDone(l.notes, l.done, f);
    }
  }

  /** Below 2^64 requests: whatever additions of whatever requests interleave, the classes never add
      up to more than the requests, nor the stored ones to more than the misses; and when no request
      is half counted, every counter is the number of requests of its class, which together make up
      all the requests. */
  lemma Conservation(moves: seq<Move>, l: Ledger)
    requires Count(moves) == Some(l) && |l.notes| < Ascii.U64
    ensures var c := l.counters;
      && c.hits + c.misses + c.passthrough + c.errors <= c.requests
      && c.stored <= c.misses
      && (Idle(l) ==>
            && c.requests == |l.notes| == c.hits + c.misses + c.passthrough + c.errors
            && forall f | Counted(f) :: Get(c, f) == Tally(l.notes, f))
  {
    hide Bumps, Count, Tally, Sum, Idle;
    forall f | Counted(f)
      ensures Within(l.notes, l.done) && Get(l.counters, f) == Sum(l.notes, l.done, f)
      ensures Idle(l) ==> Get(l.counters, f) == Tally(l.notes, f)
    {
      NoWrap(moves, l, f);
    }
    assert Get(l.counters, Requests) == l.counters.requests && Get(l.counters, StoredOnes) == l.counters.stored;
    assert Get(l.counters, Hits) == l.counters.hits && Get(l.counters, Misses) == l.counters.misses;
    assert Get(l.counters, Passthrough) == l.counters.passthrough && Get(l.counters, Errors) == l.counters.errors;
    SumsInOrder(l.notes, l.done);
    TallyClasses(l.notes);
  }

  /** When no request is half counted, each counter is what the requests are worth to it, modulo 2^64:
      bytes from the cache are those of the hits, bytes from the network those of all the others that did
      not fail, and the time upstream is that of the misses. */
  lemma CountersSayWhatHappened(moves: seq<Move>, l: Ledger, f: Field)
    requires Count(moves) == Some(l) && Idle(l)
    ensures Get(l.counters, f) == Tally(l.notes, f) % Ascii.U64
  {
    hide Bumps, Get, Count, Sum, Tally;
    CountersAreSums(moves, l, f);
    SumsWhenDone(l.notes, l.done, f);
  }

  // -- reading the counters -------------------------------------------------------------------

  /** The counters after the first n moves. */
  function CountersAt(moves: seq<Move>, n: nat): Summary
    requires n <= |moves| && Count(moves[..n]).Some?
  {
    Count(moves[..n]).value.counters
  }

  lemma {:induction false} PrefixCounts(moves: seq<Move>, n: nat)
    requires Count(moves).Some? && n <= |moves|
    ensures Count(moves[..n]).Some?
    decreases |moves|
  {
    if n == |moves| {
      assert moves[..n] == moves;
    } else {
      PrefixCounts(moves[..|moves| - 1], n);
      assert moves[..|moves| - 1][..n] == moves[..n];
    }
  }

  function Load(moves: seq<Move>, at: Field -> nat, f: Field): nat
    requires Count(moves).Some? && at(f) <= |moves|
  {
    PrefixCounts(moves, at(f));
    Get(CountersAt(moves, at(f)), f)
  }

  /** What a summary shows: each field as it was when its turn came. */
  function Loaded(moves: seq<Move>, at: Field -> nat): Summary
    requires Count(moves).Some? && forall f :: at(f) <= |moves|
  {
    Summary(Load(moves, at, Requests), Load(moves, at, Hits), Load(moves, at, Misses), Load(moves, at,
            StoredOnes), Load(moves, at, Passthrough), Load(moves, at, Errors), Load(moves, at, BytesFromCache),
            Load(moves, at, BytesFromNetwork), Load(moves, at, BytesUploaded), Load(moves, at, EntriesStored),
            Load(moves, at, Packed), Load(moves, at, PackedBytes), Load(moves, at, UploadsFailed), Load(moves,
            at, UpstreamMillis))
  }

  /** Without an addition between the first load and the last, a summary is the counters at one
      moment; requests may begin meanwhile. */
  lemma QuietReadsAreWhole(moves: seq<Move>, at: Field -> nat, first: nat, last: nat)
    requires Count(moves).Some? && last <= |moves| && forall f :: first <= at(f) <= last
    requires forall i | first <= i < last :: moves[i].Begin?
    ensures Count(moves[..first]).Some? && Loaded(moves, at) == CountersAt(moves, first)
  {
    assert first <= at(Requests) <= last;
    PrefixCounts(moves, first);
    forall f ensures Load(moves, at, f) == Get(CountersAt(moves, first), f) {
      Unchanged(moves, first, at(f));
    }
    LoadedIs(moves, at, CountersAt(moves, first));
  }

  lemma LoadedIs(moves: seq<Move>, at: Field -> nat, s: Summary)
    requires Count(moves).Some? && (forall f :: at(f) <= |moves|) && forall f :: Load(moves, at, f) == Get(s, f)
    ensures Loaded(moves, at) == s
  {
    hide Load, Count;
  }

  lemma {:induction false} Unchanged(moves: seq<Move>, first: nat, n: nat)
    requires Count(moves).Some? && first <= n <= |moves| && forall i | first <= i < n :: moves[i].Begin?
    ensures Count(moves[..first]).Some? && Count(moves[..n]).Some?
    ensures CountersAt(moves, n) == CountersAt(moves, first)
  {
    PrefixCounts(moves, first);
    PrefixCounts(moves, n);
    if first < n {
      Unchanged(moves, first, n - 1);
      assert moves[..n][..n - 1] == moves[..n - 1];
    }
  }

  lemma {:induction false} CountersGrow(moves: seq<Move>, n: nat, f: Field)
    requires Count(moves).Some? && |Count(moves).value.notes| < Ascii.U64 && Counted(f) && n <= |moves|
    ensures Count(moves[..n]).Some? && Get(CountersAt(moves, n), f) <= Get(Count(moves).value.counters, f)
    decreases |moves|
  {
    if n == |moves| {
      assert moves[..n] == moves;
    } else {
      var earlier := moves[..|moves| - 1];
      assert Count(earlier).Some? && |Count(earlier).value.notes| < Ascii.U64 by { OneMoveGrows(moves, f); }
      CountersGrow(earlier, n, f);
      assert earlier[..n] == moves[..n];
      hide Get;
      OneMoveGrows(moves, f);
    }
  }

  lemma OneMoveGrows(moves: seq<Move>, f: Field)
    requires moves != [] && Count(moves).Some? && |Count(moves).value.notes| < Ascii.U64 && Counted(f)
    ensures var before := Count(moves[..|moves| - 1]);
      && before.Some? && |before.value.notes| < Ascii.U64
      && Get(before.value.counters, f) <= Get(Count(moves).value.counters, f)
  {
    hide Bumps, Bumped, Get, Sum;
    var l, m, before := Count(moves).value, moves[|moves| - 1], Count(moves[..|moves| - 1]).value;
    assert l == Moved(before, m) && Able(before, m) && |before.notes| <= |l.notes|;
    hide Count, Able, Moved;
    NoWrap(moves, l, f);
    NoWrap(moves[..|moves| - 1], before, f);
    SumsGrow(before, m, f);
  }

  lemma SumsGrow(l: Ledger, m: Move, f: Field)
    requires Able(l, m) && Within(l.notes, l.done)
    ensures var l' := Moved(l, m); Within(l'.notes, l'.done) && Sum(l.notes, l.done, f) <= Sum(l'.notes, l'.done, f)
  {
    hide Bumps, Bumped, Sum;
    match m
    case Begin(note) => SumBegin(l.notes, l.done, note, f);
    case Tick(i) => SumTick(l.notes, l.done, i, f);
  }

  /** However requests are counted meanwhile, the outcome classes a summary shows are together no more
      than the requests counted by the time of its last load. */
  lemma ReadsAreBounded(moves: seq<Move>, at: Field -> nat)
    requires Count(moves).Some? && |Count(moves).value.notes| < Ascii.U64 && forall f :: at(f) <= |moves|
    ensures var s, now := Loaded(moves, at), Count(moves).value.counters;
      && s.hits + s.misses + s.passthrough + s.errors <= now.requests
      && s.requests <= now.requests && s.stored <= now.misses
  {
    var now := Count(moves).value.counters;
    forall f | Counted(f) ensures Load(moves, at, f) <= Get(now, f) {
      assert at(f) <= |moves|;
      CountersGrow(moves, at(f), f);
    }
    Conservation(moves, Count(moves).value);
    BoundedLoads(moves, at, now);
  }

  lemma BoundedLoads(moves: seq<Move>, at: Field -> nat, now: Summary)
    requires Count(moves).Some? && (forall f :: at(f) <= |moves|)
    requires forall f | Counted(f) :: Load(moves, at, f) <= Get(now, f)
    requires now.hits + now.misses + now.passthrough + now.errors <= now.requests
    ensures var s := Loaded(moves, at);
      && s.hits + s.misses + s.passthrough + s.errors <= now.requests
      && s.requests <= now.requests && s.stored <= now.stored
  {
    hide Load, Count;
    assert Load(moves, at, Requests) <= now.requests && Load(moves, at, StoredOnes) <= now.stored;
    assert Load(moves, at, Hits) <= now.hits && Load(moves, at, Misses) <= now.misses;
    assert Load(moves, at, Passthrough) <= now.passthrough && Load(moves, at, Errors) <= now.errors;
  }

  /** But it can show more hits than requests: when a hit is counted between the first load, which is
      that of the requests, and the second. */
  lemma SummariesTear(bytes: nat, millis: nat) returns (moves: seq<Move>, at: Field -> nat)
    ensures Count(moves).Some? && (forall f :: at(f) <= |moves|) && (forall f :: at(Requests) <= at(f))
    ensures Loaded(moves, at).requests < Loaded(moves, at).hits
  {
    var note := Note(Hit, bytes, millis);
    moves, at := [Begin(note), Tick(0), Tick(0)], f => if f == Requests then 0 else 3;
    var l1 := Ledger(ZERO, [note], [0]);
    var l2 := Ledger(ZERO.(requests := 1), [note], [1]);
    assert moves[..2] == [Begin(note), Tick(0)] && moves[..2][..1] == [Begin(note)];
    var first := [Begin(note)];
    assert first[..0] == [] && Count(first[..0]) == Some(BLANK);
    assert Moved(BLANK, Begin(note)) == l1;
    assert Count(first) == Some(l1);
    assert Moved(l1, Tick(0)) == l2;
    assert Count(moves[..2]) == Some(l2);
    assert Moved(l2, Tick(0)) == Ledger(ZERO.(requests := 1, hits := 1), [note], [2]);
    assert moves[..3] == moves && moves[..0] == [];
  }
}
