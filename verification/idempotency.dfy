/**
 Request deduplication for the chat pipeline: the reserve / complete / release
 scripts over one key-value store, and the protocol that concurrent chat requests
 run over them, from reservation to accounting.

 A script call can be lost, or take effect without its answer arriving; a key can
 expire at any moment; a request can stop anywhere.
 */
module Idempotency {
  import opened Prelude

  type Id = nat

  datatype Record =
    | Processing(requestId: Id, fingerprint: int)
    | Completed(requestId: Id, fingerprint: int)
    | Corrupt

  type Records = map<Id, Record>

  // ---------------------------------------------------------------------
  // The scripts
  // ---------------------------------------------------------------------

  predicate Owns(records: Records, key: Id, requestId: Id) {
    key in records && records[key].Processing? && records[key].requestId == requestId
  }

  function Reserved(records: Records, key: Id, requestId: Id, fingerprint: int): Records {
    if key in records then records else records[key := Processing(requestId, fingerprint)]
  }

  function Finalised(records: Records, key: Id, requestId: Id, fingerprint: int): Records {
    if Owns(records, key, requestId) then records[key := Completed(requestId, fingerprint)] else records
  }

  function Released(records: Records, key: Id, requestId: Id): Records {
    if Owns(records, key, requestId) then records - {key} else records
  }

  datatype Refusal = FingerprintMismatch | InProgress | AlreadyCompleted | Unreadable

  class IdempotencyStore {
    var records: Records

    constructor()
      ensures records == map[]
    {
      records := map[];
    }

    /** Reserves the key for one request, or says why not and leaves the store alone. */
    method Reserve(key: Id, requestId: Id, fingerprint: int) returns (refusal: Option<Refusal>)
      modifies this
      ensures records == Reserved(old(records), key, requestId, fingerprint)
      ensures refusal.None? <==> key !in old(records)
      ensures refusal.Some? ==> records == old(records)
      ensures refusal.None? ==> Owns(records, key, requestId)
      ensures refusal == Some(InProgress) <==>
                key in old(records) && old(records)[key].Processing? && old(records)[key].fingerprint == fingerprint
      ensures refusal == Some(AlreadyCompleted) <==>
                key in old(records) && old(records)[key].Completed? && old(records)[key].fingerprint == fingerprint
      ensures refusal == Some(FingerprintMismatch) <==>
                key in old(records) && !old(records)[key].Corrupt? && old(records)[key].fingerprint != fingerprint
      ensures refusal == Some(Unreadable) <==> key in old(records) && old(records)[key].Corrupt?
    {
      if key !in records {
        records := records[key := Processing(requestId, fingerprint)];
        return None;
      }
      var existing := records[key];
      if existing.Corrupt? { return Some(Unreadable); }
      if existing.fingerprint != fingerprint { return Some(FingerprintMismatch); }
      if existing.Processing? { return Some(InProgress); }
      return Some(AlreadyCompleted);
    }

    method Complete(key: Id, requestId: Id, fingerprint: int) returns (code: int)
      modifies this
      ensures records == Finalised(old(records), key, requestId, fingerprint)
      ensures code == 1 <==> Owns(old(records), key, requestId)
      ensures code == -1 <==> key in old(records) && old(records)[key].Corrupt?
    {
      if key !in records { return 0; }
      var current := records[key];
      if current.Corrupt? { return -1; }
      if !current.Processing? || current.requestId != requestId { return 0; }
      records := records[key := Completed(requestId, fingerprint)];
      return 1;
    }

    method Release(key: Id, requestId: Id) returns (code: int)
      modifies this
      ensures records == Released(old(records), key, requestId)
      ensures code == 1 <==> Owns(old(records), key, requestId)
      ensures code == -1 <==> key in old(records) && old(records)[key].Corrupt?
    {
      if key !in records { return 0; }
      var current := records[key];
      if current.Corrupt? { return -1; }
      if !current.Processing? || current.requestId != requestId { return 0; }
      records := records - {key};
      return 1;
    }
  }

  /** What a request holds after reserving: it may release only while its provider run has not begun. */
  class Reservation {
    const key: Id
    const requestId: Id
    const fingerprint: int
    var providerExecutionStarted: bool

    constructor(key: Id, requestId: Id, fingerprint: int)
      ensures this.key == key && this.requestId == requestId && this.fingerprint == fingerprint
      ensures !providerExecutionStarted
    {
      this.key, this.requestId, this.fingerprint := key, requestId, fingerprint;
      providerExecutionStarted := false;
    }

    method MarkProviderExecutionStarted()
      modifies this
      ensures providerExecutionStarted
    {
      providerExecutionStarted := true;
    }

    method MarkCompleted(store: IdempotencyStore) returns (ok: bool)
      modifies store
      ensures store.records == Finalised(old(store.records), key, requestId, fingerprint)
      ensures ok <==> Owns(old(store.records), key, requestId)
    {
      var code := store.Complete(key, requestId, fingerprint);
      ok := code == 1;
    }

    method ReleaseBeforeExecution(store: IdempotencyStore) returns (ok: bool)
      modifies store
      ensures store.records == if providerExecutionStarted then old(store.records)
                               else Released(old(store.records), key, requestId)
      ensures ok <==> !providerExecutionStarted && Owns(old(store.records), key, requestId)
    {
      if providerExecutionStarted { return false; }
      var code := store.Release(key, requestId);
      ok := code == 1;
    }
  }

  // ---------------------------------------------------------------------
  // The protocol
  // ---------------------------------------------------------------------

  datatype Pc =
    | Admitted        // reserved; rate limit, budget, policy, audit and routing still to pass
    | Blocking        // policy said BLOCK; about to append the usage row
    | BlockLogged     // usage row of the blocked request stored; about to complete the key
    | Streaming       // provider execution started
    | Accounting      // the stream ended in some way; about to append the usage row
    | Logged          // usage row stored; about to complete the key
    | Releasing       // failed before execution; about to release the key
    | Ended

  /** `generation` counts the key's expiries before the reservation; `appends` counts usage-append attempts. */
  datatype Request = Request(key: Id, fingerprint: int, generation: nat, started: bool, appends: nat, pc: Pc)

  /** A provider start: `generation` is the reservation's, `during` the key's expiry count at the start itself. */
  datatype Start = Start(key: Id, generation: nat, during: nat, requestId: Id)

  /** `expiries`, `starts` and `logs` are history; `logs` is the set of requests with a usage row. */
  datatype State = State(records: Records, reqs: map<Id, Request>, expiries: map<Id, nat>, starts: set<Start>,
      logs: set<Id>)

  const Init := State(map[], map[], map[], {}, {})

  datatype Fault = Ok | Lost | Unacknowledged

  datatype Event =
    | Reserve(req: Id, key: Id, fingerprint: int, fault: Fault)
    | Fail(req: Id)
    | Block(req: Id)
    | StartProvider(req: Id)
    | StreamEnds(req: Id)
    | AppendUsage(req: Id, fault: Fault)
    | Complete(req: Id, fault: Fault)
    | Release(req: Id, fault: Fault)
    | Expire(key: Id)
    | Crash(req: Id)

  function Generation(s: State, key: Id): nat { if key in s.expiries then s.expiries[key] else 0 }

  predicate At(s: State, r: Id, pc: Pc) { r in s.reqs && s.reqs[r].pc == pc }

  function Move(s: State, r: Id, pc: Pc): State
    requires r in s.reqs
  {
    s.(reqs := s.reqs[r := s.reqs[r].(pc := pc)])
  }

  function ExecReserve(s: State, r: Id, key: Id, fingerprint: int, fault: Fault): State {
    if r in s.reqs || fault.Lost? then s
    else if key in s.records then s
    else
      var req := Request(key, fingerprint, Generation(s, key), false, 0, if fault.Ok? then Admitted else Ended);
      s.(records := Reserved(s.records, key, r, fingerprint), reqs := s.reqs[r := req])
  }

  function ExecAppend(s: State, r: Id, fault: Fault): State {
    if r !in s.reqs || !(s.reqs[r].pc.Blocking? || s.reqs[r].pc.Accounting?) then s
    else
      var blocking := s.reqs[r].pc.Blocking?;
      var next := if fault.Ok? then (if blocking then BlockLogged else Logged)
        else (if blocking then Releasing else Ended);
      s.(reqs := s.reqs[r := s.reqs[r].(pc := next, appends := s.reqs[r].appends + 1)],
         logs := if fault.Lost? then s.logs else s.logs + {r})
  }

  function ExecComplete(s: State, r: Id, fault: Fault): State {
    if r !in s.reqs || !(s.reqs[r].pc.BlockLogged? || s.reqs[r].pc.Logged?) then s
    else
      var req := s.reqs[r];
      var done := fault.Ok? && Owns(s.records, req.key, r);
      var s1 := if fault.Lost? then s else s.(records := Finalised(s.records, req.key, r, req.fingerprint));
      Move(s1, r, if req.pc.BlockLogged? && !done then Releasing else Ended)
  }

  function ExecRelease(s: State, r: Id, fault: Fault): State {
    if !At(s, r, Releasing) then s
    else
      var req := s.reqs[r];
      Move(if fault.Lost? || req.started then s else s.(records := Released(s.records, req.key, r)), r, Ended)
  }

  function ExecStart(s: State, r: Id): State {
    if !At(s, r, Admitted) then s
    else
      var req := s.reqs[r];
      s.(reqs := s.reqs[r := req.(pc := Streaming, started := true)],
         starts := s.starts + {Start(req.key, req.generation, Generation(s, req.key), r)})
  }

  function ExecExpire(s: State, key: Id): State {
    if key !in s.records then s
    else s.(records := s.records - {key}, expiries := s.expiries[key := Generation(s, key) + 1])
  }

  function Exec(s: State, e: Event): State {
    match e
    case Reserve(r, key, fingerprint, fault) => ExecReserve(s, r, key, fingerprint, fault)
    case Fail(r) => if At(s, r, Admitted) then Move(s, r, Releasing) else s
    case Block(r) => if At(s, r, Admitted) then Move(s, r, Blocking) else s
    case StartProvider(r) => ExecStart(s, r)
    case StreamEnds(r) => if At(s, r, Streaming) then Move(s, r, Accounting) else s
    case AppendUsage(r, fault) => ExecAppend(s, r, fault)
    case Complete(r, fault) => ExecComplete(s, r, fault)
    case Release(r, fault) => ExecRelease(s, r, fault)
    case Expire(key) => ExecExpire(s, key)
    case Crash(r) => if r in s.reqs then Move(s, r, Ended) else s
  }

  function Run(s: State, es: seq<Event>): State
    decreases |es|
  {
    if es == [] then s else Run(Exec(s, es[0]), es[1..])
  }

  // ---------------------------------------------------------------------
  // Invariant
  // ---------------------------------------------------------------------

  predicate Holds(s: State, key: Id, r: Id) {
    key in s.records && !s.records[key].Corrupt? && s.records[key].requestId == r
  }

  predicate ReqOk(s: State, r: Id) {
    && r in s.reqs
    && var req := s.reqs[r];
    && req.generation <= Generation(s, req.key)
    && (!req.pc.Ended? && req.generation == Generation(s, req.key) ==> Holds(s, req.key, r))
    && (req.pc.Streaming? || req.pc.Accounting? || req.pc.Logged? ==> req.started)
    && (req.pc.Admitted? || req.pc.Blocking? || req.pc.BlockLogged? || req.pc.Releasing? ==> !req.started)
    && (req.pc.BlockLogged? || req.pc.Logged? ==> r in s.logs)
    && (req.pc.Admitted? || req.pc.Blocking? || req.pc.Streaming? || req.pc.Accounting? ==> req.appends == 0)
    && req.appends <= 1
    && (forall a :: a in s.starts && a.key == req.key && a.generation == req.generation && !req.pc.Ended? ==>
           a.requestId == r)
  }

  predicate StartOk(s: State, a: Start) {
    && a.requestId in s.reqs
    && s.reqs[a.requestId].started && s.reqs[a.requestId].key == a.key && s.reqs[a.requestId].generation == a.generation
    && (a.generation == Generation(s, a.key) ==> Holds(s, a.key, a.requestId))
    && a.during <= Generation(s, a.key)
  }

  predicate RecordOk(s: State, key: Id) {
    && key in s.records && !s.records[key].Corrupt?
    && s.records[key].requestId in s.reqs
    && (s.records[key].Completed? ==> s.records[key].requestId in s.logs)
  }

  predicate OneHolder(s: State) {
    forall q, r :: q in s.reqs && r in s.reqs && q != r && !s.reqs[q].pc.Ended? && !s.reqs[r].pc.Ended? ==>
      s.reqs[q].key != s.reqs[r].key || s.reqs[q].generation != s.reqs[r].generation
  }

  predicate OneStart(starts: set<Start>) {
    forall a, b :: a in starts && b in starts && a.key == b.key && a.generation == b.generation ==>
      a.requestId == b.requestId
  }

  predicate Inv(s: State) {
    && (forall r :: r in s.reqs ==> ReqOk(s, r))
    && (forall a :: a in s.starts ==> StartOk(s, a))
    && (forall key :: key in s.records ==> RecordOk(s, key))
    && OneHolder(s)
    && OneStart(s.starts)
  }

  lemma ReserveKeepsInv(s: State, r: Id, key: Id, fingerprint: int, fault: Fault)
    requires Inv(s)
    ensures Inv(ExecReserve(s, r, key, fingerprint, fault))
  {
    var s' := ExecReserve(s, r, key, fingerprint, fault);
    if s' != s {
      forall a | a in s'.starts ensures StartOk(s', a) { assert StartOk(s, a); }
      forall q | q in s'.reqs ensures ReqOk(s', q) { assert q != r ==> ReqOk(s, q); }
      forall k | k in s'.records ensures RecordOk(s', k) { assert k != key ==> RecordOk(s, k); }
    }
  }

  lemma StartKeepsReq(s: State, r: Id, q: Id)
    requires Inv(s) && At(s, r, Admitted) && q in s.reqs
    ensures ReqOk(ExecStart(s, r), q)
  {
    assert ReqOk(s, r) && ReqOk(s, q);
  }

  lemma StartKeepsInv(s: State, r: Id)
    requires Inv(s)
    ensures Inv(ExecStart(s, r))
  {
    var s' := ExecStart(s, r);
    if s' != s {
      assert ReqOk(s, r);
      forall a | a in s'.starts ensures StartOk(s', a) { assert a in s.starts ==> StartOk(s, a); }
      forall q | q in s'.reqs ensures ReqOk(s', q) { StartKeepsReq(s, r, q); }
      forall k | k in s'.records ensures RecordOk(s', k) { assert RecordOk(s, k); }
    }
  }

  lemma ExpireKeepsInv(s: State, key: Id)
    requires Inv(s)
    ensures Inv(ExecExpire(s, key))
  {
    var s' := ExecExpire(s, key);
    forall a | a in s'.starts ensures StartOk(s', a) { assert StartOk(s, a); assert ReqOk(s, a.requestId); }
    forall q | q in s'.reqs ensures ReqOk(s', q) { assert ReqOk(s, q); }
    forall k | k in s'.records ensures RecordOk(s', k) { assert RecordOk(s, k); }
  }

  lemma MoveKeepsInv(s: State, r: Id, pc: Pc)
    requires Inv(s) && r in s.reqs
    requires !s.reqs[r].pc.Ended? || pc.Ended?
    requires ReqOk(Move(s, r, pc), r)
    ensures Inv(Move(s, r, pc))
  {
    var s' := Move(s, r, pc);
    forall a | a in s'.starts ensures StartOk(s', a) { assert StartOk(s, a); }
    forall q | q in s'.reqs ensures ReqOk(s', q) { if q != r { assert ReqOk(s, q); } }
    forall k | k in s'.records ensures RecordOk(s', k) { assert RecordOk(s, k); }
  }

  lemma AppendKeepsInv(s: State, r: Id, fault: Fault)
    requires Inv(s)
    ensures Inv(ExecAppend(s, r, fault))
  {
    var s' := ExecAppend(s, r, fault);
    forall a | a in s'.starts ensures StartOk(s', a) { assert StartOk(s, a); }
    forall q | q in s'.reqs ensures ReqOk(s', q) { assert ReqOk(s, q); }
    forall k | k in s'.records ensures RecordOk(s', k) { assert RecordOk(s, k); }
  }

  lemma FinaliseKeepsInv(s: State, r: Id)
    requires Inv(s) && r in s.reqs && r in s.logs
    ensures Inv(s.(records := Finalised(s.records, s.reqs[r].key, r, s.reqs[r].fingerprint)))
  {
    var s' := s.(records := Finalised(s.records, s.reqs[r].key, r, s.reqs[r].fingerprint));
    forall a | a in s'.starts ensures StartOk(s', a) { assert StartOk(s, a); }
    forall q | q in s'.reqs ensures ReqOk(s', q) { assert ReqOk(s, q); }
    forall k | k in s'.records ensures RecordOk(s', k) { assert RecordOk(s, k); }
  }

  lemma CompleteKeepsInv(s: State, r: Id, fault: Fault)
    requires Inv(s)
    ensures Inv(ExecComplete(s, r, fault))
  {
    if r in s.reqs && (s.reqs[r].pc.BlockLogged? || s.reqs[r].pc.Logged?) {
      assert ReqOk(s, r);
      var s1 := if fault.Lost? then s else s.(records := Finalised(s.records, s.reqs[r].key, r, s.reqs[r].fingerprint));
      FinaliseKeepsInv(s, r);
      assert ReqOk(s1, r);
      MoveKeepsInv(s1, r, ExecComplete(s, r, fault).reqs[r].pc);
    }
  }

  lemma ReleaseKeepsInv(s: State, r: Id, fault: Fault)
    requires Inv(s)
    ensures Inv(ExecRelease(s, r, fault))
  {
    if At(s, r, Releasing) {
      assert ReqOk(s, r);
      var s' := ExecRelease(s, r, fault);
      forall a | a in s'.starts ensures StartOk(s', a) { assert StartOk(s, a); }
      forall q | q in s'.reqs ensures ReqOk(s', q) { assert ReqOk(s, q); }
      forall k | k in s'.records ensures RecordOk(s', k) { assert RecordOk(s, k); }
    }
  }

  lemma StepKeepsInv(s: State, e: Event)
    requires Inv(s)
    ensures Inv(Exec(s, e))
  {
    match e
    case Reserve(r, key, fingerprint, fault) => ReserveKeepsInv(s, r, key, fingerprint, fault);
    case StartProvider(r) => StartKeepsInv(s, r);
    case AppendUsage(r, fault) => AppendKeepsInv(s, r, fault);
    case Complete(r, fault) => CompleteKeepsInv(s, r, fault);
    case Release(r, fault) => ReleaseKeepsInv(s, r, fault);
    case Expire(key) => ExpireKeepsInv(s, key);
    case Fail(r) => if At(s, r, Admitted) { assert ReqOk(s, r); MoveKeepsInv(s, r, Releasing); }
    case Block(r) => if At(s, r, Admitted) { assert ReqOk(s, r); MoveKeepsInv(s, r, Blocking); }
    case StreamEnds(r) => if At(s, r, Streaming) { assert ReqOk(s, r); MoveKeepsInv(s, r, Accounting); }
    case Crash(r) => if r in s.reqs { assert ReqOk(s, r); MoveKeepsInv(s, r, Ended); }
  }

  lemma {:induction false} RunKeepsInv(s: State, es: seq<Event>)
    requires Inv(s)
    ensures Inv(Run(s, es))
    decreases |es|
  {
    if es != [] {
      StepKeepsInv(s, es[0]);
      RunKeepsInv(Exec(s, es[0]), es[1..]);
    }
  }

  // ---------------------------------------------------------------------
  // Theorems over every run
  // ---------------------------------------------------------------------

  /** For each key, of all requests that reserved it between the same two expiries, at most one ever
      starts the provider; until the next expiry that request keeps the key. */
  lemma {:induction false} AtMostOneStart(es: seq<Event>, a: Start, b: Start)
    requires var s := Run(Init, es); a in s.starts && b in s.starts && a.key == b.key && a.generation == b.generation
    ensures a.requestId == b.requestId
    ensures var s := Run(Init, es); a.generation == Generation(s, a.key) ==> Holds(s, a.key, a.requestId)
  {
    RunKeepsInv(Init, es);
    assert StartOk(Run(Init, es), a);
  }

  /** A completed key belongs to a request whose usage row is stored, and no request appends usage twice. */
  lemma {:induction false} CompletedIsLogged(es: seq<Event>, key: Id, r: Id)
    ensures var s := Run(Init, es);
            && (key in s.records && s.records[key].Completed? ==> s.records[key].requestId in s.logs)
            && (r in s.reqs ==> s.reqs[r].appends <= 1)
  {
    RunKeepsInv(Init, es);
    var s := Run(Init, es);
    assert key in s.records ==> RecordOk(s, key);
    assert r in s.reqs ==> ReqOk(s, r);
  }

  function Actor(e: Event): Option<Id> {
    if e.Expire? then None else Some(e.req)
  }

  /** A stored key changes only by its own request's hand or by expiry, and is deleted by its own
      request only before that request started the provider. */
  lemma OnlyTheOwnerTouches(s: State, e: Event, key: Id)
    requires Inv(s) && key in s.records
    ensures var s' := Exec(s, e);
            && (key in s'.records && s'.records[key] != s.records[key] ==> Actor(e) == Some(s.records[key].requestId))
            && (key !in s'.records ==>
                  || e == Expire(key)
                  || (Actor(e) == Some(s.records[key].requestId) && !s.reqs[s.records[key].requestId].started))
  {
    assert RecordOk(s, key);
    if e.Release? && At(s, e.req, Releasing) { assert ReqOk(s, e.req); }
  }

  // ---------------------------------------------------------------------
  // Starts counted by the moment they happen
  // ---------------------------------------------------------------------

  /** Between two consecutive expiries of the key, at most one request starts. */
  predicate OneStartPerPeriod(s: State, key: Id) {
    forall a, b :: a in s.starts && b in s.starts && a.key == key && b.key == key && a.during == b.during ==>
      a.requestId == b.requestId
  }

  /** A request that reserved the key and has not decided yet; its record can expire under it. */
  predicate Undecided(s: State, key: Id, r: Id) {
    At(s, r, Admitted) && s.reqs[r].key == key
  }

  /** Nobody undecided about the key has outlived its reservation; since the period `from` nobody who started on it
      had, and the periods before saw one start each at most. */
  predicate PromptSince(s: State, key: Id, from: nat) {
    && (forall r :: r in s.reqs && Undecided(s, key, r) ==> s.reqs[r].generation == Generation(s, key))
    && (forall a :: a in s.starts && a.key == key && a.during >= from ==> a.during == a.generation)
    && (forall a, b :: a in s.starts && b in s.starts && a.key == key && b.key == key && a.during == b.during < from ==>
          a.requestId == b.requestId)
    && from <= Generation(s, key)
  }

  /** Along the run the key's record never expires while its request is still undecided. */
  predicate NoEarlyExpiry(s: State, es: seq<Event>, key: Id)
    decreases |es|
  {
    es == [] || (
      && (es[0] == Expire(key) ==> forall r :: r in s.reqs ==> !Undecided(s, key, r))
      && NoEarlyExpiry(Exec(s, es[0]), es[1..], key))
  }

  lemma StepKeepsPrompt(s: State, e: Event, key: Id, from: nat)
    requires PromptSince(s, key, from) && (e == Expire(key) ==> forall r :: r in s.reqs ==> !Undecided(s, key, r))
    ensures PromptSince(Exec(s, e), key, from)
  {
  }

  /** When nobody is undecided, expiry begins a new period. */
  lemma ExpiryIsPrompt(s: State, key: Id)
    requires Inv(s) && OneStartPerPeriod(s, key) && key in s.records
    requires forall r :: r in s.reqs ==> !Undecided(s, key, r)
    ensures PromptSince(Exec(s, Expire(key)), key, Generation(s, key) + 1)
  {
    forall a | a in s.starts && a.key == key ensures a.during <= Generation(s, key) { assert StartOk(s, a); }
  }

  lemma {:induction false} PromptRuns(s: State, es: seq<Event>, key: Id, from: nat)
    requires Inv(s) && PromptSince(s, key, from) && NoEarlyExpiry(s, es, key)
    ensures OneStartPerPeriod(Run(s, es), key)
    decreases |es|
  {
    if es != [] {
      StepKeepsInv(s, es[0]);
      StepKeepsPrompt(s, es[0], key, from);
      PromptRuns(Exec(s, es[0]), es[1..], key, from);
    }
  }

  lemma {:induction false} RunThree(s: State, a: Event, b: Event, c: Event)
    ensures Run(s, [a, b, c]) == Exec(Exec(Exec(s, a), b), c)
  {
    assert [a, b, c][1..] == [b, c] && [b, c][1..] == [c] && [c][1..] == [];
    assert Run(s, [a, b, c]) == Run(Exec(s, a), [b, c]);
    assert Run(Exec(Exec(s, a), b), [c]) == Exec(Exec(Exec(s, a), b), c);
  }

  lemma {:induction false} WithoutExpiry(s: State, es: seq<Event>, key: Id)
    requires forall i :: 0 <= i < |es| ==> !es[i].Expire?
    ensures NoEarlyExpiry(s, es, key)
    decreases |es|
  {
    if es != [] { WithoutExpiry(Exec(s, es[0]), es[1..], key); }
  }

  /** From the key's expiry on, whatever happens to other keys and as long as this one does not expire early again,
      each of its periods sees one start at most. */
  ghost predicate SafeAfterExpiry(s: State, key: Id) {
    forall es :: NoEarlyExpiry(Exec(s, Expire(key)), es, key) ==> OneStartPerPeriod(Run(Exec(s, Expire(key)), es), key)
  }

  /** The undecided request outlives its record, another request takes the key, and both start. */
  lemma EarlyExpiryBreaks(s: State, key: Id, r: Id)
    requires Inv(s) && key in s.records && Undecided(s, key, r)
    ensures !SafeAfterExpiry(s, key)
  {
    var q := FreshId(s.reqs.Keys);
    var s1 := Exec(s, Expire(key));
    var es := [Reserve(q, key, 0, Ok), StartProvider(q), StartProvider(r)];
    RunThree(s1, es[0], es[1], es[2]);
    var s2 := Exec(s1, es[0]);
    var s3 := Exec(s2, es[1]);
    var s4 := Exec(s3, es[2]);
    assert At(s2, q, Admitted) && At(s3, r, Admitted);
    var now := Generation(s1, key);
    assert Start(key, now, now, q) in s4.starts && Start(key, s.reqs[r].generation, now, r) in s4.starts;
    WithoutExpiry(s1, es, key);
  }

  /** A key that expires has one start per period in every continuation, exactly when it had so far and no undecided
      request holds it or held it before. */
  lemma ExpiryIsSafeIff(s: State, key: Id)
    requires Inv(s) && key in s.records
    ensures SafeAfterExpiry(s, key)
       <==> OneStartPerPeriod(s, key) && forall r :: r in s.reqs ==> !Undecided(s, key, r)
  {
    if r :| r in s.reqs && Undecided(s, key, r) {
      EarlyExpiryBreaks(s, key, r);
    } else if !OneStartPerPeriod(s, key) {
      assert NoEarlyExpiry(Exec(s, Expire(key)), [], key) && !OneStartPerPeriod(Run(Exec(s, Expire(key)), []), key);
    } else {
      StepKeepsInv(s, Expire(key));
      ExpiryIsPrompt(s, key);
      forall es | NoEarlyExpiry(Exec(s, Expire(key)), es, key)
        ensures OneStartPerPeriod(Run(Exec(s, Expire(key)), es), key)
      {
        PromptRuns(Exec(s, Expire(key)), es, key, Generation(s, key) + 1);
      }
    }
  }

  /** In every run in which the key's records outlive their undecided requests, each period of the key sees one start at
      most, whatever becomes of other keys. */
  lemma {:induction false} OneStartBetweenExpiries(es: seq<Event>, key: Id)
    requires NoEarlyExpiry(Init, es, key)
    ensures OneStartPerPeriod(Run(Init, es), key)
  {
    PromptRuns(Init, es, key, 0);
  }

  // ---------------------------------------------------------------------
  // One request from its reservation to its end
  // ---------------------------------------------------------------------

  lemma {:induction false} RunCons(s: State, e: Event, es: seq<Event>)
    ensures Run(s, [e] + es) == Run(Exec(s, e), es)
  {
    assert ([e] + es)[1..] == es;
  }

  lemma {:induction false} RunFour(s: State, a: Event, b: Event, c: Event, d: Event)
    ensures Run(s, [a, b, c, d]) == Exec(Exec(Exec(Exec(s, a), b), c), d)
  {
    assert [a, b, c, d] == [a] + [b, c, d];
    RunCons(s, a, [b, c, d]);
    RunThree(Exec(s, a), b, c, d);
  }

  /** Of a key that is free: reserved for this request, with its fingerprint. */
  lemma ReserveTakesTheKey(s: State, r: Id, key: Id, fingerprint: int)
    requires r !in s.reqs && key !in s.records
    ensures var t := Exec(s, Reserve(r, key, fingerprint, Ok));
            && t.records == s.records[key := Processing(r, fingerprint)] && t.logs == s.logs && t.starts == s.starts
            && t.expiries == s.expiries
            && r in t.reqs && t.reqs[r] == Request(key, fingerprint, Generation(s, key), false, 0, Admitted)
  {
  }

  /** A request that starts the provider completes its key when its usage row is stored and the completion arrives; in
      every other case the key stays as reserved, and it is never given back. */
  lemma {:induction false} StartedRequestEnds(s: State, r: Id, append: Fault, complete: Fault, release: Fault)
    requires At(s, r, Admitted) && !s.reqs[r].started && Owns(s.records, s.reqs[r].key, r)
    ensures var es := [StartProvider(r), StreamEnds(r), AppendUsage(r, append), Complete(r, complete)];
            var t, key := Exec(Run(s, es), Release(r, release)), s.reqs[r].key;
            && t.records == (if append.Ok? && !complete.Lost? then s.records[key := Completed(r, s.reqs[r].fingerprint)]
                             else s.records)
            && t.logs == (if append.Lost? then s.logs else s.logs + {r})
            && t.starts == s.starts + {Start(key, s.reqs[r].generation, Generation(s, key), r)}
  {
    RunFour(s, StartProvider(r), StreamEnds(r), AppendUsage(r, append), Complete(r, complete));
    var s1 := Exec(s, StartProvider(r));
    assert s1.records == s.records && s1.logs == s.logs && At(s1, r, Streaming);
    var s2 := Exec(s1, StreamEnds(r));
    assert s2.records == s.records && s2.logs == s.logs && s2.starts == s1.starts && At(s2, r, Accounting);
    AccountingEnds(s2, r, append, complete, release);
  }

  lemma AccountingEnds(s: State, r: Id, append: Fault, complete: Fault, release: Fault)
    requires At(s, r, Accounting) && s.reqs[r].started && Owns(s.records, s.reqs[r].key, r)
    ensures var t := Exec(Exec(Exec(s, AppendUsage(r, append)), Complete(r, complete)), Release(r, release));
            && t.records == (if append.Ok? && !complete.Lost?
                             then s.records[s.reqs[r].key := Completed(r, s.reqs[r].fingerprint)] else s.records)
            && t.logs == (if append.Lost? then s.logs else s.logs + {r}) && t.starts == s.starts
  {
    var s1 := Exec(s, AppendUsage(r, append));
    assert s1.records == s.records && At(s1, r, if append.Ok? then Logged else Ended);
    var s2 := Exec(s1, Complete(r, complete));
    assert At(s2, r, Ended) && s2.logs == s1.logs;
  }

  /** A blocked request completes its key when its row is stored, and gives it back when that fails or the completion is
      lost. */
  lemma {:induction false} BlockedRequestEnds(s: State, r: Id, append: Fault, complete: Fault, release: Fault)
    requires At(s, r, Admitted) && !s.reqs[r].started && Owns(s.records, s.reqs[r].key, r)
    ensures var t := Run(s, [Block(r), AppendUsage(r, append), Complete(r, complete), Release(r, release)]);
            var key := s.reqs[r].key;
            && t.records == (if append.Ok? && !complete.Lost? then s.records[key := Completed(r, s.reqs[r].fingerprint)]
                             else if release.Lost? then s.records else s.records - {key})
            && t.logs == (if append.Lost? then s.logs else s.logs + {r}) && t.starts == s.starts
  {
    RunFour(s, Block(r), AppendUsage(r, append), Complete(r, complete), Release(r, release));
    var s1 := Exec(s, Block(r));
    assert s1.records == s.records && s1.logs == s.logs && At(s1, r, Blocking);
    var s2 := Exec(s1, AppendUsage(r, append));
    assert s2.records == s.records && At(s2, r, if append.Ok? then BlockLogged else Releasing);
    BlockedEnds(s2, r, complete, release);
  }

  lemma BlockedEnds(s: State, r: Id, complete: Fault, release: Fault)
    requires (At(s, r, BlockLogged) || At(s, r, Releasing)) && !s.reqs[r].started && Owns(s.records, s.reqs[r].key, r)
    ensures var t := Exec(Exec(s, Complete(r, complete)), Release(r, release)); var key := s.reqs[r].key;
            && t.records == (if At(s, r, BlockLogged) && !complete.Lost?
                             then s.records[key := Completed(r, s.reqs[r].fingerprint)]
                             else if release.Lost? then s.records else s.records - {key})
            && t.logs == s.logs && t.starts == s.starts
  {
    var s1 := Exec(s, Complete(r, complete));
    assert At(s1, r, if At(s, r, BlockLogged) && complete.Ok? then Ended else Releasing);
    assert s1.logs == s.logs && s1.starts == s.starts;
  }

  /** A request that fails before it starts the provider gives its key back. */
  lemma {:induction false} FailedRequestEnds(s: State, r: Id, release: Fault)
    requires At(s, r, Admitted) && !s.reqs[r].started && Owns(s.records, s.reqs[r].key, r)
    ensures var t := Exec(Exec(s, Fail(r)), Release(r, release));
            && t.records == (if release.Lost? then s.records else s.records - {s.reqs[r].key})
            && t.logs == s.logs && t.starts == s.starts
  {
    var s1 := Exec(s, Fail(r));
    assert s1.records == s.records && At(s1, r, Releasing);
  }

  // ---------------------------------------------------------------------
  // Usage is asked for once
  // ---------------------------------------------------------------------

  /** The step sends the request's usage row to the log. */
  predicate AsksToAppend(s: State, e: Event, r: Id) {
    e.AppendUsage? && e.req == r && (At(s, r, Blocking) || At(s, r, Accounting))
  }

  function AppendsAsked(s: State, es: seq<Event>, r: Id): nat
    decreases |es|
  {
    if es == [] then 0 else (if AsksToAppend(s, es[0], r) then 1 else 0) + AppendsAsked(Exec(s, es[0]), es[1..], r)
  }

  predicate PastAppend(s: State, r: Id) {
    At(s, r, BlockLogged) || At(s, r, Logged) || At(s, r, Releasing) || At(s, r, Ended)
  }

  lemma StepKeepsPast(s: State, e: Event, r: Id)
    ensures PastAppend(s, r) ==> PastAppend(Exec(s, e), r) && !AsksToAppend(s, e, r)
    ensures AsksToAppend(s, e, r) ==> PastAppend(Exec(s, e), r)
  {
  }

  lemma {:induction false} PastAsksNoMore(s: State, es: seq<Event>, r: Id)
    requires PastAppend(s, r)
    ensures AppendsAsked(s, es, r) == 0
    decreases |es|
  {
    if es != [] {
      StepKeepsPast(s, es[0], r);
      PastAsksNoMore(Exec(s, es[0]), es[1..], r);
    }
  }

  /** In every run each request asks for its usage row at most once. */
  lemma {:induction false} AppendIsAskedOnce(s: State, es: seq<Event>, r: Id)
    ensures AppendsAsked(s, es, r) <= 1
    decreases |es|
  {
    if es != [] {
      StepKeepsPast(s, es[0], r);
      if AsksToAppend(s, es[0], r) { PastAsksNoMore(Exec(s, es[0]), es[1..], r); }
      else { AppendIsAskedOnce(Exec(s, es[0]), es[1..], r); }
    }
  }
}
