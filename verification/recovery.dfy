/**
 Recovery of jobs that were never enqueued: the recovery records and their transitions, the
 discovery loop that makes sure every logged request has its records, and the scanners that
 take the records forward, possibly several at a time.
 */
module Recovery {
  import opened Prelude

  datatype Queue = BillingQueue | AnalyticsQueue
  datatype JobType = RequestCompleted | RequestBlocked
  datatype Scope = Scope(orgId: nat, requestId: nat, queue: Queue, jobType: JobType)

  datatype RecoveryState = PENDING | ENQUEUED | COMPLETED | FAILED
  datatype Category = ENQUEUE_UNAVAILABLE | SOURCE_UNAVAILABLE | TERMINAL_JOB_FAILURE

  datatype Record = Record(
    state: RecoveryState, attemptCount: int, nextAttemptAt: Option<int>, lastAttemptAt: Option<int>,
    completedAt: Option<int>, failedAt: Option<int>, errorCategory: Option<Category>)
  {
    predicate Open() { state.PENDING? || state.ENQUEUED? }
    predicate DueAt(now: int) { nextAttemptAt.None? || nextAttemptAt.value <= now }
  }

  /** Which fields a record has in each state. */
  predicate RecordOk(r: Record) {
    && 0 <= r.attemptCount <= 3
    && (r.lastAttemptAt.Some? <==> r.attemptCount > 0)
    && (r.completedAt.Some? <==> r.state.COMPLETED?)
    && (r.failedAt.Some? <==> r.state.FAILED?)
    && (r.nextAttemptAt.Some? <==> r.Open())
    && (r.state.FAILED? ==> r.errorCategory.Some?)
    && (r.state.ENQUEUED? || r.state.COMPLETED? ==> r.errorCategory.None?)
  }

  // ---------------------------------------------------------------------
  // The collection
  // ---------------------------------------------------------------------

  type Records = map<Scope, Record>

  function Fresh(now: int, error: Option<Category>): Record { Record(PENDING, 0, Some(now), None, None, None, error) }

  function Ensured(rs: Records, sc: Scope, now: int, error: Option<Category>): Records {
    if sc in rs then rs else rs[sc := Fresh(now, error)]
  }

  predicate Claimable(rs: Records, sc: Scope, now: int) {
    sc in rs && rs[sc].Open() && rs[sc].attemptCount < 3 && rs[sc].DueAt(now)
  }

  function ClaimedRecord(r: Record, now: int, until: int): Record {
    r.(state := PENDING, lastAttemptAt := Some(now), nextAttemptAt := Some(until), attemptCount := r.attemptCount + 1,
       completedAt := None, failedAt := None, errorCategory := None)
  }

  datatype Mark =
    | MarkEnqueued(next: int)
    | MarkPendingRetry(next: int, error: Category)
    | MarkCompleted(now: int)
    | MarkFailed(now: int, error: Category)

  /** The marks are applied whatever state the record is in. */
  function MarkedRecord(r: Record, m: Mark): Record {
    match m
    case MarkEnqueued(next) => r.(state := ENQUEUED, nextAttemptAt := Some(next), completedAt := None,
          failedAt := None, errorCategory := None)
    case MarkPendingRetry(next, error) => r.(state := PENDING, nextAttemptAt := Some(next),
          errorCategory := Some(error), completedAt := None, failedAt := None)
    case MarkCompleted(now) => r.(state := COMPLETED, completedAt := Some(now), nextAttemptAt := None,
          failedAt := None, errorCategory := None)
    case MarkFailed(now, error) => r.(state := FAILED, failedAt := Some(now), errorCategory := Some(error),
          nextAttemptAt := None, completedAt := None)
  }

  function Marked(rs: Records, sc: Scope, m: Mark): Records {
    if sc in rs then rs[sc := MarkedRecord(rs[sc], m)] else rs
  }

  /** Every transition of a well-formed record gives a well-formed record. */
  lemma TransitionsKeepRecords(r: Record, m: Mark, now: int, until: int, error: Option<Category>)
    ensures RecordOk(Fresh(now, error))
    ensures RecordOk(r) ==> RecordOk(MarkedRecord(r, m))
    ensures RecordOk(r) && r.attemptCount < 3 ==> RecordOk(ClaimedRecord(r, now, until))
  {
  }

  // ---------------------------------------------------------------------
  // Discovery
  // ---------------------------------------------------------------------

  /** A request log row as discovery sees it. */
  datatype Source = Source(cursorId: int, requestId: nat, orgId: nat, blocked: bool)

  function ExpectedScopes(src: Source): seq<Scope> {
    var trigger := if src.blocked then RequestBlocked else RequestCompleted;
    var analytics := Scope(src.orgId, src.requestId, AnalyticsQueue, trigger);
    if src.blocked then [analytics] else [Scope(src.orgId, src.requestId, BillingQueue, RequestCompleted), analytics]
  }

  function AllExpected(rows: seq<Source>): seq<Scope> {
    if rows == [] then [] else AllExpected(rows[..|rows| - 1]) + ExpectedScopes(rows[|rows| - 1])
  }

  function Blocked(rows: seq<Source>): nat {
    if rows == [] then 0 else Blocked(rows[..|rows| - 1]) + if rows[|rows| - 1].blocked then 1 else 0
  }

  /** Two records for each request that reached a provider, one for each that did not. */
  lemma {:induction false} ExpectedCount(rows: seq<Source>)
    ensures Blocked(rows) <= |rows| && |AllExpected(rows)| == 2 * (|rows| - Blocked(rows)) + Blocked(rows)
  {
    if rows != [] { ExpectedCount(rows[..|rows| - 1]); }
  }

  /** The clock is read once for each record; `from` is the number of the first reading. */
  function EnsuredAll(rs: Records, scs: seq<Scope>, clock: nat -> int, from: nat): Records {
    if scs == [] then rs
    else Ensured(EnsuredAll(rs, scs[..|scs| - 1], clock, from), scs[|scs| - 1], clock(from + |scs| - 1), None)
  }

  /** The record was made at the reading of the first time it was called for. */
  ghost predicate MadeAtFirstCall(r: Record, scs: seq<Scope>, clock: nat -> int, from: nat, sc: Scope) {
    exists k: nat :: IsFirst(scs, k, sc) && r == Fresh(clock(from + k), None)
  }

  predicate IsFirst(scs: seq<Scope>, k: nat, sc: Scope) { k < |scs| && scs[k] == sc && sc !in scs[..k] }

  lemma FirstCallStays(r: Record, scs: seq<Scope>, more: Scope, clock: nat -> int, from: nat, sc: Scope)
    requires MadeAtFirstCall(r, scs, clock, from, sc)
    ensures MadeAtFirstCall(r, scs + [more], clock, from, sc)
  {
    var k: nat :| IsFirst(scs, k, sc) && r == Fresh(clock(from + k), None);
    assert (scs + [more])[..k] == scs[..k] && IsFirst(scs + [more], k, sc);
  }

  /** Discovery adds exactly the missing records, as of the first time they are called for, and touches no other. */
  lemma {:induction false} EnsuredAllOk(rs: Records, scs: seq<Scope>, clock: nat -> int, from: nat, sc: Scope)
    ensures sc in EnsuredAll(rs, scs, clock, from) <==> sc in rs || sc in scs
    ensures sc in rs ==> EnsuredAll(rs, scs, clock, from)[sc] == rs[sc]
    ensures sc !in rs && sc in scs ==> MadeAtFirstCall(EnsuredAll(rs, scs, clock, from)[sc], scs, clock, from, sc)
  {
    if scs != [] {
      var n := |scs| - 1;
      EnsuredAllOk(rs, scs[..n], clock, from, sc);
      assert scs == scs[..n] + [scs[n]];
      if sc !in rs && sc in scs[..n] {
        FirstCallStays(EnsuredAll(rs, scs[..n], clock, from)[sc], scs[..n], scs[n], clock, from, sc);
      } else if sc !in rs && sc == scs[n] {
        FirstCallNow(scs[..n], clock, from, sc);
      }
    }
  }

  lemma FirstCallNow(scs: seq<Scope>, clock: nat -> int, from: nat, sc: Scope)
    requires sc !in scs
    ensures MadeAtFirstCall(Fresh(clock(from + |scs|), None), scs + [sc], clock, from, sc)
  {
    assert (scs + [sc])[..|scs|] == scs && IsFirst(scs + [sc], |scs|, sc);
  }

  lemma {:induction false} EnsuredAllConcat(rs: Records, a: seq<Scope>, b: seq<Scope>, clock: nat -> int, from: nat)
    ensures EnsuredAll(rs, a + b, clock, from) == EnsuredAll(EnsuredAll(rs, a, clock, from), b, clock, from + |a|)
  {
    if b == [] {
      assert a + b == a;
    } else {
      var n := |b| - 1;
      EnsuredAllConcat(rs, a, b[..n], clock, from);
      assert (a + b)[..|a + b| - 1] == a + b[..n];
    }
  }

  lemma ExpectedNext(rows: seq<Source>, i: nat)
    requires i < |rows|
    ensures AllExpected(rows[..i + 1]) == AllExpected(rows[..i]) + ExpectedScopes(rows[i])
  {
    assert rows[..i + 1][..i] == rows[..i];
  }

  lemma {:induction false} AllExpectedConcat(a: seq<Source>, b: seq<Source>)
    ensures AllExpected(a + b) == AllExpected(a) + AllExpected(b)
  {
    if b == [] {
      assert a + b == a;
    } else {
      var n, all := |b| - 1, a + b;
      assert all[..|all| - 1] == a + b[..n] && all[|all| - 1] == b[n];
      AllExpectedConcat(a, b[..n]);
      Associative(AllExpected(a), AllExpected(b[..n]), ExpectedScopes(b[n]));
    }
  }

  lemma Associative(a: seq<Scope>, b: seq<Scope>, c: seq<Scope>)
    ensures a + b + c == a + (b + c)
  {
  }

  const RECOVERY_BATCH_SIZE := 100

  predicate Ascending(rows: seq<Source>) { forall i, j :: 0 <= i < j < |rows| ==> rows[i].cursorId < rows[j].cursorId }

  function After(rows: seq<Source>, cursor: Option<int>): seq<Source> {
    if rows == [] then []
    else if Passes(rows[0], cursor) then [rows[0]] + After(rows[1..], cursor)
    else After(rows[1..], cursor)
  }

  /** One batch of an organisation's log, in id order, after the cursor. */
  function Batch(rows: seq<Source>, cursor: Option<int>): seq<Source> {
    var rest := After(rows, cursor);
    if |rest| <= RECOVERY_BATCH_SIZE then rest else rest[..RECOVERY_BATCH_SIZE]
  }

  predicate Passes(row: Source, cursor: Option<int>) { cursor.None? || row.cursorId > cursor.value }

  lemma {:induction false} AfterElements(rows: seq<Source>, cursor: Option<int>, x: Source)
    ensures x in After(rows, cursor) <==> x in rows && Passes(x, cursor)
  {
    if rows != [] {
      AfterElements(rows[1..], cursor, x);
      assert rows == [rows[0]] + rows[1..];
    }
  }

  lemma {:induction false} AfterAscends(rows: seq<Source>, cursor: Option<int>)
    requires Ascending(rows)
    ensures Ascending(After(rows, cursor))
  {
    if rows != [] {
      AfterAscends(rows[1..], cursor);
      var rest := After(rows[1..], cursor);
      forall j | 0 <= j < |rest| ensures rows[0].cursorId < rest[j].cursorId {
        AfterElements(rows[1..], cursor, rest[j]);
        assert rest[j] in rows[1..];
      }
    }
  }

  /** A batch holds rows behind the cursor, in order, and leaves none behind except beyond its own end when it is
      full. */
  lemma BatchIsNext(rows: seq<Source>, cursor: Option<int>)
    requires Ascending(rows)
    ensures var batch := Batch(rows, cursor);
            && Ascending(batch) && |batch| <= RECOVERY_BATCH_SIZE
            && (forall x :: x in batch ==> x in rows && Passes(x, cursor))
            && (forall x :: x in rows && Passes(x, cursor) ==>
                  x in batch || (|batch| == RECOVERY_BATCH_SIZE && x.cursorId > batch[|batch| - 1].cursorId))
  {
    var all, batch := After(rows, cursor), Batch(rows, cursor);
    AfterAscends(rows, cursor);
    forall x | x in batch ensures x in rows && Passes(x, cursor) { assert x in all; AfterElements(rows, cursor, x); }
    forall x | x in rows && Passes(x, cursor)
      ensures x in batch || (|batch| == RECOVERY_BATCH_SIZE && x.cursorId > batch[|batch| - 1].cursorId)
    {
      AfterElements(rows, cursor, x);
      var i :| 0 <= i < |all| && all[i] == x;
      if i < |batch| { assert batch[i] == x; }
    }
  }

  /** Moving the cursor to a row it had not passed leaves fewer rows. */
  lemma {:induction false} AfterShrinks(rows: seq<Source>, cursor: Option<int>, x: Source)
    requires Passes(x, cursor)
    ensures |After(rows, Some(x.cursorId))| <= |After(rows, cursor)|
    ensures x in rows ==> |After(rows, Some(x.cursorId))| < |After(rows, cursor)|
  {
    if rows != [] {
      AfterShrinks(rows[1..], cursor, x);
      assert rows == [rows[0]] + rows[1..];
    }
  }

  class RecoveryStore {
    var records: Records

    method EnsurePending(sc: Scope, now: int, error: Option<Category>)
      modifies this
      ensures records == Ensured(old(records), sc, now, error)
    {
      if sc !in records { records := records[sc := Fresh(now, error)]; }
    }

    method ClaimAttempt(sc: Scope, now: int, until: int) returns (claimed: Option<Record>)
      modifies this
      ensures claimed.Some? <==> Claimable(old(records), sc, now)
      ensures claimed.Some? ==>
                claimed.value == ClaimedRecord(old(records)[sc], now, until)
                  && records == old(records)[sc := claimed.value]
      ensures claimed.None? ==> records == old(records)
    {
      if sc in records && records[sc].Open() && records[sc].attemptCount < 3 && records[sc].DueAt(now) {
        records := records[sc := ClaimedRecord(records[sc], now, until)];
        claimed := Some(records[sc]);
      } else {
        claimed := None;
      }
    }

    method ApplyMark(sc: Scope, m: Mark)
      modifies this
      ensures records == Marked(old(records), sc, m)
    {
      if sc in records { records := records[sc := MarkedRecord(records[sc], m)]; }
    }

    method EnsureScopes(scopes: seq<Scope>, clock: nat -> int, from: nat) returns (discovered: nat)
      modifies this
      ensures records == EnsuredAll(old(records), scopes, clock, from) && discovered == |scopes|
    {
      discovered := 0;
      for j := 0 to |scopes|
        invariant records == EnsuredAll(old(records), scopes[..j], clock, from) && discovered == j
      {
        assert scopes[..j + 1][..j] == scopes[..j];
        EnsurePending(scopes[j], clock(from + j), None);
        discovered := discovered + 1;
      }
      assert scopes[..|scopes|] == scopes;
    }

    /** The records that one batch calls for. */
    method EnsureBatch(batch: seq<Source>, clock: nat -> int, from: nat) returns (discovered: nat)
      modifies this
      ensures records == EnsuredAll(old(records), AllExpected(batch), clock, from)
      ensures discovered == |AllExpected(batch)|
    {
      discovered := 0;
      for i := 0 to |batch|
        invariant records == EnsuredAll(old(records), AllExpected(batch[..i]), clock, from)
        invariant discovered == |AllExpected(batch[..i])|
      {
        ExpectedNext(batch, i);
        EnsuredAllConcat(old(records), AllExpected(batch[..i]), ExpectedScopes(batch[i]), clock, from);
        var found := EnsureScopes(ExpectedScopes(batch[i]), clock, from + discovered);
        discovered := discovered + found;
      }
      assert batch[..|batch|] == batch;
    }

    /** The paging loop, while requests go on being logged: `logs(k)` is the organisation's log at the k-th query, and
        `last` all that is logged by the end.  The loop ends; it visits each row at most once, every row that was there
        at the start, and leaves exactly the records that the visited rows call for. */
    method DiscoverMissingRecoveryRecords(logs: nat -> seq<Source>, last: seq<Source>, clock: nat -> int)
      returns (discovered: nat, ghost seen: seq<Source>)
      requires Growing(logs, last)
      modifies this
      ensures Ascending(seen)
      ensures forall x :: x in logs(0) ==> x in seen
      ensures forall x :: x in seen ==> x in last
      ensures records == EnsuredAll(old(records), AllExpected(seen), clock, 0)
      ensures Blocked(seen) <= |seen| && discovered == 2 * (|seen| - Blocked(seen)) + Blocked(seen)
    {
      var afterCursor: Option<int> := None;
      var k := 0;
      discovered := 0;
      seen := [];
      while true
        invariant Visited(logs(0), last, afterCursor, seen) && forall x :: x in logs(0) ==> x in logs(k)
        invariant Progress(old(records), seen, clock, records, discovered)
        decreases |After(last, afterCursor)|
      {
        var batch := Batch(logs(k), afterCursor);
        ProgressGrows(old(records), seen, clock, records, discovered, batch);
        var found := EnsureBatch(batch, clock, discovered);
        discovered := discovered + found;
        VisitBatch(logs(0), logs(k), last, afterCursor, seen);
        seen := seen + batch;
        afterCursor := if batch == [] then None else Some(batch[|batch| - 1].cursorId);
        if |batch| < RECOVERY_BATCH_SIZE {
          break;
        }
        k := k + 1;
      }
      ExpectedCount(seen);
    }
  }

  /** Rows are only added, and finitely many in all. */
  ghost predicate Growing(logs: nat -> seq<Source>, last: seq<Source>) {
    && (forall k: nat :: Ascending(logs(k)))
    && (forall k: nat, x :: x in logs(k) ==> x in logs(k + 1) && x in last)
  }

  /** The rows visited lie up to the cursor, in order, and none of the first rows up to there is missing. */
  ghost predicate Visited(first: seq<Source>, last: seq<Source>, cursor: Option<int>, seen: seq<Source>) {
    && Ascending(seen)
    && (forall x :: x in seen ==> x in last && !Passes(x, cursor))
    && (forall x :: x in first && !Passes(x, cursor) ==> x in seen)
  }

  /** The records that the rows visited so far call for are there. */
  predicate Progress(before: Records, seen: seq<Source>, clock: nat -> int, records: Records, discovered: nat) {
    records == EnsuredAll(before, AllExpected(seen), clock, 0) && discovered == |AllExpected(seen)|
  }

  lemma {:induction false} ProgressGrows(before: Records, seen: seq<Source>, clock: nat -> int, records: Records,
                                         discovered: nat, batch: seq<Source>)
    requires Progress(before, seen, clock, records, discovered)
    ensures Progress(before, seen + batch, clock, EnsuredAll(records, AllExpected(batch), clock, discovered),
                     discovered + |AllExpected(batch)|)
  {
    AllExpectedConcat(seen, batch);
    EnsuredAllConcat(before, AllExpected(seen), AllExpected(batch), clock, 0);
  }

  /** A short batch is the last; after a full one fewer rows are left. */
  lemma VisitBatch(first: seq<Source>, rows: seq<Source>, last: seq<Source>, cursor: Option<int>, seen: seq<Source>)
    requires Ascending(rows) && Visited(first, last, cursor, seen)
    requires (forall x :: x in first ==> x in rows) && (forall x :: x in rows ==> x in last)
    ensures var batch := Batch(rows, cursor);
            && Ascending(seen + batch) && (forall x :: x in seen + batch ==> x in last)
            && (|batch| < RECOVERY_BATCH_SIZE ==> forall x :: x in first ==> x in seen + batch)
            && (|batch| >= RECOVERY_BATCH_SIZE ==>
                  var end := Some(batch[|batch| - 1].cursorId);
                  Visited(first, last, end, seen + batch) && |After(last, end)| < |After(last, cursor)|)
  {
    var batch := Batch(rows, cursor);
    BatchIsNext(rows, cursor);
    VisitedAscends(last, cursor, seen, batch);
    forall x | x in seen + batch ensures x in last { assert x in seen || x in batch; }
    if |batch| >= RECOVERY_BATCH_SIZE {
      var end := batch[|batch| - 1];
      assert end in batch;
      AfterShrinks(last, cursor, end);
      VisitedMoves(first, rows, last, cursor, seen, batch);
    } else {
      forall x | x in first ensures x in seen + batch { assert x in seen || x in batch; }
    }
  }

  lemma VisitedAscends(last: seq<Source>, cursor: Option<int>, seen: seq<Source>, batch: seq<Source>)
    requires Ascending(seen) && Ascending(batch)
    requires (forall x :: x in seen ==> !Passes(x, cursor)) && (forall x :: x in batch ==> Passes(x, cursor))
    ensures Ascending(seen + batch)
  {
    var all := seen + batch;
    forall i, j | 0 <= i < j < |all| ensures all[i].cursorId < all[j].cursorId {
      if i < |seen| <= j { assert all[i] in seen && all[j] in batch; }
    }
  }

  lemma VisitedMoves(first: seq<Source>, rows: seq<Source>, last: seq<Source>, cursor: Option<int>, seen: seq<Source>,
                     batch: seq<Source>)
    requires Visited(first, last, cursor, seen) && Ascending(seen + batch) && Ascending(batch) && batch != []
    requires (forall x :: x in first ==> x in rows) && (forall x :: x in batch ==> x in last && Passes(x, cursor))
    requires forall x :: x in rows && Passes(x, cursor) ==> x in batch || x.cursorId > batch[|batch| - 1].cursorId
    ensures Visited(first, last, Some(batch[|batch| - 1].cursorId), seen + batch)
  {
    var end := batch[|batch| - 1];
    assert end in batch;
    forall x | x in seen + batch ensures x in last && !Passes(x, Some(end.cursorId)) {
      if x in batch {
        var i :| 0 <= i < |batch| && batch[i] == x;
      } else {
        assert x in seen;
      }
    }
    forall x | x in first && !Passes(x, Some(end.cursorId)) ensures x in seen + batch {
      assert x in seen || x in batch;
    }
  }

  /** While nothing is logged, the rows visited are the whole log. */
  lemma QuietLogIsVisitedWhole(seen: seq<Source>, log: seq<Source>)
    requires Ascending(seen) && Ascending(log) && forall x :: x in seen <==> x in log
    ensures seen == log
  {
    var before := (x: Source, y: Source) => x.cursorId < y.cursorId;
    assert StrictWeakOrder(before);
    StrictlySortedIsUnique(seen, log, before);
  }

  // ---------------------------------------------------------------------
  // The scanners
  // ---------------------------------------------------------------------

  /** Where a scanner is with its current record. */
  datatype Phase =
    | Begun | SourceFound | NotInLedger | NotQueued | Claimed(attempt: nat) | Deciding(mark: Mark, after: Option<nat>)

  datatype Scanner = Scanner(batch: seq<Scope>, current: Option<(Scope, Phase)>)

  datatype Ledger = NoRow | LedgerProcessing | LedgerCompleted
  datatype QueueJob = Missing | JobFailed | JobPresent

  /** What a scanner has seen that closes a record. */
  datatype Cause = NoSource | LedgerIsCompleted | QueueJobFailed | LastAttemptFailed

  /** Enqueue calls are remembered with the number of the attempt that made them, and causes when they are seen. */
  datatype State = State(records: Records, scanners: map<nat, Scanner>, enqueues: multiset<(Scope, nat)>,
      causes: set<(Scope, Cause)>)

  datatype Event =
    | Ensure(sc: Scope, now: int, error: Option<Category>)
    | List(w: nat, batch: seq<Scope>, now: int)
    | Next(w: nat)
    | FindSource(w: nat, found: bool, now: int)
    | ReadLedger(w: nat, ledger: Ledger, now: int)
    | ReadQueue(w: nat, job: QueueJob, now: int)
    | Claim(w: nat, now: int, until: int)
    | Enqueue(w: nat, ok: bool, now: int)
    | ApplyDecision(w: nat)
    | MarkFails(w: nat, now: int)
    | Crash(w: nat)

  function Initial(): State { State(map[], map[], multiset{}, {}) }

  predicate Busy(s: State, w: nat) { w in s.scanners && s.scanners[w].current.Some? }

  function Current(s: State, w: nat): Scope
    requires Busy(s, w)
  {
    s.scanners[w].current.value.0
  }

  function PhaseOf(s: State, w: nat): Phase
    requires Busy(s, w)
  {
    s.scanners[w].current.value.1
  }

  function Become(s: State, w: nat, phase: Phase): State
    requires Busy(s, w)
  {
    s.(scanners := s.scanners[w := s.scanners[w].(current := Some((Current(s, w), phase)))])
  }

  function Saw(s: State, w: nat, cause: Cause): State
    requires Busy(s, w)
  {
    s.(causes := s.causes + {(Current(s, w), cause)})
  }

  function Finish(s: State, w: nat): State
    requires w in s.scanners
  {
    s.(scanners := s.scanners[w := s.scanners[w].(current := None)])
  }

  predicate Listable(s: State, batch: seq<Scope>, now: int) {
    && |batch| <= RECOVERY_BATCH_SIZE
    && (forall i :: 0 <= i < |batch| ==>
           batch[i] in s.records && s.records[batch[i]].Open() && s.records[batch[i]].DueAt(now))
    && (forall i, j :: 0 <= i < j < |batch| ==> batch[i] != batch[j])
  }

  const CLAIM_WINDOW := 60000
  const BACKOFF := 1000

  function Backoff(attempt: nat): int { if attempt <= 1 then BACKOFF else 2 * Backoff(attempt - 1) }

  /** What a failed enqueue leads to. */
  function Fallback(attempt: nat, now: int): Mark {
    if attempt >= 3 then MarkFailed(now, ENQUEUE_UNAVAILABLE)
      else MarkPendingRetry(now + Backoff(attempt), ENQUEUE_UNAVAILABLE)
  }

  function GiveUp(s: State, w: nat, attempt: nat, now: int): State
    requires Busy(s, w)
  {
    Become(if attempt >= 3 then Saw(s, w, LastAttemptFailed) else s, w, Deciding(Fallback(attempt, now), None))
  }

  function ExecDecide(s: State, e: Event): State
    requires (e.FindSource? || e.ReadLedger? || e.ReadQueue?) && Busy(s, e.w)
  {
    match e
    case FindSource(w, found, now) =>
      if !PhaseOf(s, w).Begun? then s
      else if found then Become(s, w, SourceFound)
      else Become(Saw(s, w, NoSource), w, Deciding(MarkFailed(now, SOURCE_UNAVAILABLE), None))
    case ReadLedger(w, ledger, now) =>
      if !PhaseOf(s, w).SourceFound? then s
      else (match ledger
            case NoRow => Become(s, w, NotInLedger)
            case LedgerProcessing => Become(s, w, Deciding(MarkEnqueued(now + CLAIM_WINDOW), None))
            case LedgerCompleted => Become(Saw(s, w, LedgerIsCompleted), w, Deciding(MarkCompleted(now), None)))
    case ReadQueue(w, job, now) =>
      if !PhaseOf(s, w).NotInLedger? then s
      else (match job
            case Missing => Become(s, w, NotQueued)
            case JobFailed => Become(Saw(s, w, QueueJobFailed), w,
                  Deciding(MarkFailed(now, TERMINAL_JOB_FAILURE), None))
            case JobPresent => Become(s, w, Deciding(MarkEnqueued(now + CLAIM_WINDOW), None)))
  }

  function ExecClaim(s: State, w: nat, now: int, until: int): State
    requires Busy(s, w)
  {
    var sc := Current(s, w);
    if !PhaseOf(s, w).NotQueued? then s
    else if Claimable(s.records, sc, now) && s.records[sc].attemptCount >= 0 then
      var r := ClaimedRecord(s.records[sc], now, until);
      Become(s.(records := s.records[sc := r]), w, Claimed(r.attemptCount))
    else Finish(s, w)
  }

  function ExecEnqueue(s: State, w: nat, ok: bool, now: int): State
    requires Busy(s, w)
  {
    if !PhaseOf(s, w).Claimed? then s
    else
      var a := PhaseOf(s, w).attempt;
      var s1 := s.(enqueues := s.enqueues + multiset{(Current(s, w), a)});
      if ok then Become(s1, w, Deciding(MarkEnqueued(now + CLAIM_WINDOW), Some(a))) else GiveUp(s1, w, a, now)
  }

  function ExecMark(s: State, w: nat): State
    requires Busy(s, w)
  {
    if !PhaseOf(s, w).Deciding? then s
    else Finish(s.(records := Marked(s.records, Current(s, w), PhaseOf(s, w).mark)), w)
  }

  /** After an enqueue the failed mark is handled like a failed enqueue; any other failure ends the scan. */
  function ExecMarkFails(s: State, w: nat, now: int): State
    requires Busy(s, w)
  {
    if !PhaseOf(s, w).Deciding? then s
    else if PhaseOf(s, w).after.Some? then GiveUp(s, w, PhaseOf(s, w).after.value, now)
    else s.(scanners := s.scanners[w := Scanner([], None)])
  }

  function Exec(s: State, e: Event): State {
    match e
    case Ensure(sc, now, error) => s.(records := Ensured(s.records, sc, now, error))
    case List(w, batch, now) =>
      if w in s.scanners && (s.scanners[w].current.Some? || s.scanners[w].batch != []) then s
      else if !Listable(s, batch, now) then s
      else s.(scanners := s.scanners[w := Scanner(batch, None)])
    case Next(w) =>
      if w !in s.scanners || s.scanners[w].current.Some? || s.scanners[w].batch == [] then s
      else s.(scanners := s.scanners[w := Scanner(s.scanners[w].batch[1..], Some((s.scanners[w].batch[0], Begun)))])
    case FindSource(w, _, _) => if Busy(s, w) then ExecDecide(s, e) else s
    case ReadLedger(w, _, _) => if Busy(s, w) then ExecDecide(s, e) else s
    case ReadQueue(w, _, _) => if Busy(s, w) then ExecDecide(s, e) else s
    case Claim(w, now, until) => if Busy(s, w) then ExecClaim(s, w, now, until) else s
    case Enqueue(w, ok, now) => if Busy(s, w) then ExecEnqueue(s, w, ok, now) else s
    case ApplyDecision(w) => if Busy(s, w) then ExecMark(s, w) else s
    case MarkFails(w, now) => if Busy(s, w) then ExecMarkFails(s, w, now) else s
    case Crash(w) => if w in s.scanners then s.(scanners := s.scanners[w := Scanner([], None)]) else s
  }

  function Run(s: State, es: seq<Event>): State
    decreases |es|
  {
    if es == [] then s else Run(Exec(s, es[0]), es[1..])
  }

  // ---------------------------------------------------------------------
  // Records and attempts, with any number of scanners
  // ---------------------------------------------------------------------

  ghost predicate RecordsOk(s: State) { forall sc :: sc in s.records ==> RecordOk(s.records[sc]) }

  lemma StepKeepsRecords(s: State, e: Event)
    requires RecordsOk(s)
    ensures RecordsOk(Exec(s, e))
  {
  }

  /** Attempts of a scope so far. */
  function Attempts(s: State, sc: Scope): int { if sc in s.records then s.records[sc].attemptCount else 0 }

  predicate HoldsAttempt(s: State, w: nat, sc: Scope, a: nat) {
    Busy(s, w) && Current(s, w) == sc && PhaseOf(s, w) == Claimed(a)
  }

  /** Every attempt number is given out once, used by one scanner, and enqueues at most once. */
  ghost predicate AttemptsOk(s: State, sc: Scope) {
    && Attempts(s, sc) >= 0
    && (forall a: nat :: s.enqueues[(sc, a)] <= 1 && (s.enqueues[(sc, a)] > 0 ==> 1 <= a <= Attempts(s, sc)))
    && (forall w, a: nat :: HoldsAttempt(s, w, sc, a) ==> 1 <= a <= Attempts(s, sc) && s.enqueues[(sc, a)] == 0)
    && (forall v, w, a: nat :: HoldsAttempt(s, v, sc, a) && HoldsAttempt(s, w, sc, a) ==> v == w)
  }

  lemma AttemptsNeverFall(s: State, e: Event, sc: Scope)
    ensures Attempts(s, sc) <= Attempts(Exec(s, e), sc)
  {
  }

  lemma EnqueuesGrowOnlyBy(s: State, e: Event, sc: Scope, a: nat)
    ensures var t := Exec(s, e);
            t.enqueues[(sc, a)] == s.enqueues[(sc, a)]
            || (e.Enqueue? && HoldsAttempt(s, e.w, sc, a) && !HoldsAttempt(t, e.w, sc, a)
                 && t.enqueues[(sc, a)] == s.enqueues[(sc, a)] + 1)
  {
  }

  lemma AttemptIsNew(s: State, e: Event, w: nat, sc: Scope, a: nat)
    requires HoldsAttempt(Exec(s, e), w, sc, a) && !HoldsAttempt(s, w, sc, a)
    ensures e.Claim? && e.w == w && a == Attempts(s, sc) + 1 == Attempts(Exec(s, e), sc)
  {
  }

  lemma StepKeepsAttempts(s: State, e: Event, sc: Scope)
    requires AttemptsOk(s, sc)
    ensures AttemptsOk(Exec(s, e), sc)
  {
    var t := Exec(s, e);
    AttemptsNeverFall(s, e, sc);
    forall a: nat ensures t.enqueues[(sc, a)] <= 1 && (t.enqueues[(sc, a)] > 0 ==> 1 <= a <= Attempts(t, sc)) {
      EnqueuesGrowOnlyBy(s, e, sc, a);
    }
    forall w, a: nat | HoldsAttempt(t, w, sc, a) ensures 1 <= a <= Attempts(t, sc) && t.enqueues[(sc, a)] == 0 {
      EnqueuesGrowOnlyBy(s, e, sc, a);
      if !HoldsAttempt(s, w, sc, a) { AttemptIsNew(s, e, w, sc, a); }
    }
    forall v, w, a: nat | HoldsAttempt(t, v, sc, a) && HoldsAttempt(t, w, sc, a) ensures v == w {
      if !HoldsAttempt(s, v, sc, a) { AttemptIsNew(s, e, v, sc, a); }
      if !HoldsAttempt(s, w, sc, a) { AttemptIsNew(s, e, w, sc, a); }
    }
  }

  lemma {:induction false} RunKeepsRecords(s: State, es: seq<Event>, sc: Scope)
    requires RecordsOk(s) && AttemptsOk(s, sc)
    ensures RecordsOk(Run(s, es)) && AttemptsOk(Run(s, es), sc)
    decreases |es|
  {
    if es != [] {
      StepKeepsRecords(s, es[0]);
      StepKeepsAttempts(s, es[0], sc);
      RunKeepsRecords(Exec(s, es[0]), es[1..], sc);
    }
  }

  /** Calls to enqueue a scope, over all attempts. */
  function Enqueues(s: State, sc: Scope): nat { s.enqueues[(sc, 1)] + s.enqueues[(sc, 2)] + s.enqueues[(sc, 3)] }

  /** Whatever the scanners do, every record is consistent and recovery enqueues a scope at most three times. */
  lemma {:induction false} AtMostThreeEnqueues(es: seq<Event>, sc: Scope, a: nat)
    ensures var s := Run(Initial(), es);
            && (sc in s.records ==> RecordOk(s.records[sc]))
            && (s.enqueues[(sc, a)] > 0 ==> 1 <= a <= 3)
            && Enqueues(s, sc) <= Attempts(s, sc) <= 3
  {
    RunKeepsRecords(Initial(), es, sc);
    var s := Run(Initial(), es);
    assert AttemptsOk(s, sc);
    assert s.enqueues[(sc, 1)] <= 1 && s.enqueues[(sc, 2)] <= 1 && s.enqueues[(sc, 3)] <= 1;
  }

  // ---------------------------------------------------------------------
  // No record is closed without cause
  // ---------------------------------------------------------------------

  /** The cause that a failure must have. */
  function CauseOf(error: Category): Cause {
    match error
    case SOURCE_UNAVAILABLE => NoSource
    case TERMINAL_JOB_FAILURE => QueueJobFailed
    case ENQUEUE_UNAVAILABLE => LastAttemptFailed
  }

  predicate MarkHasCause(s: State, sc: Scope, m: Mark) {
    && (m.MarkCompleted? ==> (sc, LedgerIsCompleted) in s.causes)
    && (m.MarkFailed? ==> (sc, CauseOf(m.error)) in s.causes)
  }

  predicate RecordHasCause(s: State, sc: Scope) {
    sc in s.records ==>
      && (s.records[sc].state.COMPLETED? ==> (sc, LedgerIsCompleted) in s.causes)
      && (s.records[sc].state.FAILED? && s.records[sc].errorCategory.Some? ==>
             (sc, CauseOf(s.records[sc].errorCategory.value)) in s.causes)
  }

  ghost predicate CausesOk(s: State) {
    && (forall sc :: RecordHasCause(s, sc))
    && (forall w :: Busy(s, w) && PhaseOf(s, w).Deciding? ==> MarkHasCause(s, Current(s, w), PhaseOf(s, w).mark))
  }

  lemma StepKeepsCauses(s: State, e: Event)
    requires CausesOk(s)
    ensures CausesOk(Exec(s, e))
  {
    forall sc ensures RecordHasCause(Exec(s, e), sc) { RecordKeepsCause(s, e, sc); }
    forall w | Busy(Exec(s, e), w) && PhaseOf(Exec(s, e), w).Deciding?
      ensures MarkHasCause(Exec(s, e), Current(Exec(s, e), w), PhaseOf(Exec(s, e), w).mark)
    {
      DecisionHasCause(s, e, w);
    }
  }

  lemma RecordKeepsCause(s: State, e: Event, sc: Scope)
    requires CausesOk(s)
    ensures RecordHasCause(Exec(s, e), sc)
  {
    assert RecordHasCause(s, sc);
  }

  lemma DecisionHasCause(s: State, e: Event, w: nat)
    requires CausesOk(s) && Busy(Exec(s, e), w) && PhaseOf(Exec(s, e), w).Deciding?
    ensures MarkHasCause(Exec(s, e), Current(Exec(s, e), w), PhaseOf(Exec(s, e), w).mark)
  {
    if Busy(s, w) && PhaseOf(s, w).Deciding? { assert MarkHasCause(s, Current(s, w), PhaseOf(s, w).mark); }
    if e.Ensure? || e.w != w { OthersKeepScanner(s, e, w); }
  }

  lemma {:induction false} RunKeepsCauses(s: State, es: seq<Event>)
    requires CausesOk(s)
    ensures CausesOk(Run(s, es))
    decreases |es|
  {
    if es != [] {
      StepKeepsCauses(s, es[0]);
      RunKeepsCauses(Exec(s, es[0]), es[1..]);
    }
  }

  /** A scanner's attempt number is not ahead of its record's count. */
  predicate AttemptCounted(s: State, w: nat) {
    Busy(s, w) ==>
      && (PhaseOf(s, w).Claimed? ==> PhaseOf(s, w).attempt <= Attempts(s, Current(s, w)))
      && (PhaseOf(s, w).Deciding? && PhaseOf(s, w).after.Some? ==>
             PhaseOf(s, w).after.value <= Attempts(s, Current(s, w)))
  }

  predicate LastIsThird(s: State, sc: Scope) { (sc, LastAttemptFailed) in s.causes ==> Attempts(s, sc) >= 3 }

  /** A failed last attempt really was the third. */
  ghost predicate LastMeansThird(s: State) {
    (forall sc :: LastIsThird(s, sc)) && (forall w :: AttemptCounted(s, w))
  }

  lemma AttemptStaysCounted(s: State, e: Event, w: nat)
    requires AttemptCounted(s, w)
    ensures AttemptCounted(Exec(s, e), w)
  {
    if Busy(Exec(s, e), w) { AttemptsNeverFall(s, e, Current(Exec(s, e), w)); }
    if e.Ensure? || e.w != w { OthersKeepScanner(s, e, w); }
  }

  lemma OthersKeepScanner(s: State, e: Event, w: nat)
    requires e.Ensure? || e.w != w
    ensures w in Exec(s, e).scanners <==> w in s.scanners
    ensures w in s.scanners ==> Exec(s, e).scanners[w] == s.scanners[w]
  {
  }

  lemma LastStaysThird(s: State, e: Event, sc: Scope)
    requires LastMeansThird(s)
    ensures LastIsThird(Exec(s, e), sc)
  {
    AttemptsNeverFall(s, e, sc);
    assert LastIsThird(s, sc);
    if e.Enqueue? || e.MarkFails? { assert AttemptCounted(s, e.w); }
  }

  lemma StepKeepsThird(s: State, e: Event)
    requires LastMeansThird(s)
    ensures LastMeansThird(Exec(s, e))
  {
    forall sc ensures LastIsThird(Exec(s, e), sc) { LastStaysThird(s, e, sc); }
    forall w ensures AttemptCounted(Exec(s, e), w) { AttemptStaysCounted(s, e, w); }
  }

  lemma {:induction false} RunKeepsThird(s: State, es: seq<Event>)
    requires LastMeansThird(s)
    ensures LastMeansThird(Run(s, es))
    decreases |es|
  {
    if es != [] {
      StepKeepsThird(s, es[0]);
      RunKeepsThird(Exec(s, es[0]), es[1..]);
    }
  }

  /** In every run a record is COMPLETED only after a scanner saw its ledger row completed, and FAILED only after one
      saw the cause its error names; a record given up as not enqueuable has used all three attempts. */
  lemma {:induction false} ClosedForCause(es: seq<Event>, sc: Scope)
    requires sc in Run(Initial(), es).records
    ensures var s := Run(Initial(), es); var r := s.records[sc];
            && (r.state.COMPLETED? ==> (sc, LedgerIsCompleted) in s.causes)
            && (r.state.FAILED? ==> r.errorCategory.Some? && (sc, CauseOf(r.errorCategory.value)) in s.causes)
            && (r.state.FAILED? && r.errorCategory == Some(ENQUEUE_UNAVAILABLE) ==> r.attemptCount == 3)
  {
    RunKeepsRecords(Initial(), es, sc);
    RunKeepsCauses(Initial(), es);
    RunKeepsThird(Initial(), es);
    assert RecordHasCause(Run(Initial(), es), sc) && LastIsThird(Run(Initial(), es), sc);
  }

  // ---------------------------------------------------------------------
  // Terminal records
  // ---------------------------------------------------------------------

  predicate Terminal(s: State, sc: Scope) { sc in s.records && !s.records[sc].Open() }

  predicate OpenMark(m: Mark) { m.MarkEnqueued? || m.MarkPendingRetry? }

  /** From this phase a scanner can still come to mark its record as open.  It cannot when it is about to claim it,
      which a closed record refuses, nor when it has decided to close it and will not reconsider. */
  predicate CanOpen(ph: Phase) {
    match ph
    case NotQueued => false
    case Deciding(mark, after) => OpenMark(mark) || (after.Some? && after.value < 3)
    case _ => true
  }

  predicate Engaged(s: State, w: nat, sc: Scope) {
    w in s.scanners && (sc in s.scanners[w].batch || (Busy(s, w) && Current(s, w) == sc))
  }

  predicate MayReopen(s: State, w: nat, sc: Scope) {
    w in s.scanners && (sc in s.scanners[w].batch || (Busy(s, w) && Current(s, w) == sc && CanOpen(PhaseOf(s, w))))
  }

  /** From here some run opens the record again. */
  ghost predicate Reopens(s: State, sc: Scope) { exists es :: !Terminal(Run(s, es), sc) }

  lemma {:induction false} ReopensBefore(s: State, e: Event, sc: Scope)
    requires Reopens(Exec(s, e), sc)
    ensures Reopens(s, sc)
  {
    var es :| !Terminal(Run(Exec(s, e), es), sc);
    assert ([e] + es)[1..] == es;
    assert Run(s, [e] + es) == Run(Exec(s, e), es);
  }

  lemma {:induction false} ReopensNow(s: State, sc: Scope)
    requires !Terminal(s, sc)
    ensures Reopens(s, sc)
  {
    assert Run(s, []) == s;
  }

  /** The answers that lead a scanner to an open mark. */
  function TowardsOpen(w: nat, ph: Phase): Event {
    match ph
    case Begun => FindSource(w, true, 0)
    case SourceFound => ReadLedger(w, LedgerProcessing, 0)
    case NotInLedger => ReadQueue(w, JobPresent, 0)
    case NotQueued => Claim(w, 0, 0)
    case Claimed(_) => Enqueue(w, true, 0)
    case Deciding(mark, _) => if OpenMark(mark) then ApplyDecision(w) else MarkFails(w, 0)
  }

  function StepsToOpen(ph: Phase): nat {
    match ph
    case Begun => 4 case SourceFound => 3 case NotInLedger => 3 case NotQueued => 3 case Claimed(_) => 3
    case Deciding(mark, _) => if OpenMark(mark) then 1 else 2
  }

  lemma {:induction false} HolderReopens(s: State, w: nat, sc: Scope)
    requires Terminal(s, sc) && Busy(s, w) && Current(s, w) == sc && CanOpen(PhaseOf(s, w))
    ensures Reopens(s, sc)
    decreases StepsToOpen(PhaseOf(s, w))
  {
    var e := TowardsOpen(w, PhaseOf(s, w));
    var t := Exec(s, e);
    if e.ApplyDecision? {
      assert !Terminal(t, sc);
      ReopensNow(t, sc);
    } else {
      HolderReopens(t, w, sc);
    }
    ReopensBefore(s, e, sc);
  }

  /** The answers that lead a scanner to be done with its record. */
  function TowardsDone(w: nat, ph: Phase): Event {
    match ph
    case Begun => FindSource(w, false, 0)
    case SourceFound => ReadLedger(w, LedgerCompleted, 0)
    case NotInLedger => ReadQueue(w, JobFailed, 0)
    case NotQueued => Claim(w, 0, 0)
    case Claimed(_) => Enqueue(w, true, 0)
    case Deciding(_, _) => ApplyDecision(w)
  }

  function StepsToDone(s: State, w: nat): nat {
    if !Busy(s, w) then 0
    else match PhaseOf(s, w)
         case Deciding(_, _) => 1 case Claimed(_) => 2 case _ => 3
  }

  lemma DoneIsNearer(s: State, w: nat)
    requires Busy(s, w)
    ensures var t := Exec(s, TowardsDone(w, PhaseOf(s, w)));
            w in t.scanners && t.scanners[w].batch == s.scanners[w].batch && StepsToDone(t, w) < StepsToDone(s, w)
  {
  }

  /** A scanner that has the record ahead of it can work its way there. */
  lemma {:induction false} WaiterReopens(s: State, w: nat, sc: Scope)
    requires Terminal(s, sc) && w in s.scanners && sc in s.scanners[w].batch
    ensures Reopens(s, sc)
    decreases |s.scanners[w].batch|, StepsToDone(s, w)
  {
    var e := if Busy(s, w) then TowardsDone(w, PhaseOf(s, w)) else Next(w);
    var t := Exec(s, e);
    if Busy(s, w) { DoneIsNearer(s, w); }
    if !Terminal(t, sc) {
      ReopensNow(t, sc);
    } else if !Busy(s, w) && s.scanners[w].batch[0] == sc {
      HolderReopens(t, w, sc);
    } else {
      WaiterReopens(t, w, sc);
    }
    ReopensBefore(s, e, sc);
  }

  /** No step gives a scanner that cannot open the closed record the means to do so. */
  lemma StepMakesNoReopener(s: State, e: Event, w: nat, sc: Scope)
    requires Terminal(s, sc) && !MayReopen(s, w, sc)
    ensures !MayReopen(Exec(s, e), w, sc)
  {
    if e.Ensure? || e.w != w { OthersKeepScanner(s, e, w); }
    else if e.List? && Listable(s, e.batch, e.now) { ListTakesOpen(s, e, sc); }
  }

  lemma ListTakesOpen(s: State, e: Event, sc: Scope)
    requires Terminal(s, sc) && e.List? && Listable(s, e.batch, e.now)
    ensures sc !in e.batch
  {
  }

  lemma StepKeepsClosed(s: State, e: Event, sc: Scope)
    requires Terminal(s, sc) && forall w :: w in s.scanners ==> !MayReopen(s, w, sc)
    ensures Terminal(Exec(s, e), sc)
  {
    if e.ApplyDecision? && e.w in s.scanners { assert !MayReopen(s, e.w, sc); }
  }

  lemma {:induction false} ClosedForGood(s: State, es: seq<Event>, sc: Scope)
    requires Terminal(s, sc) && forall w :: !MayReopen(s, w, sc)
    ensures Terminal(Run(s, es), sc)
    decreases |es|
  {
    if es != [] {
      StepKeepsClosed(s, es[0], sc);
      forall w ensures !MayReopen(Exec(s, es[0]), w, sc) { StepMakesNoReopener(s, es[0], w, sc); }
      ClosedForGood(Exec(s, es[0]), es[1..], sc);
    }
  }

  /** The marks have no state filter.  A closed record can be opened again exactly when some scanner still has it ahead
      of it, or holds it in a phase that can still end in an open mark. */
  lemma ReopensIff(s: State, sc: Scope)
    requires Terminal(s, sc)
    ensures Reopens(s, sc) <==> exists w :: MayReopen(s, w, sc)
  {
    if w :| MayReopen(s, w, sc) {
      if sc in s.scanners[w].batch { WaiterReopens(s, w, sc); } else { HolderReopens(s, w, sc); }
    } else {
      forall es ensures Terminal(Run(s, es), sc) { ClosedForGood(s, es, sc); }
    }
  }

  /** A closed record that no scanner is engaged with stays as it is. */
  lemma StepKeepsUnengaged(s: State, e: Event, w: nat, sc: Scope)
    requires Terminal(s, sc) && !Engaged(s, w, sc)
    ensures !Engaged(Exec(s, e), w, sc)
  {
    if e.Ensure? || e.w != w { OthersKeepScanner(s, e, w); }
    else if e.List? && Listable(s, e.batch, e.now) { ListTakesOpen(s, e, sc); }
  }

  lemma UnengagedIsUntouched(s: State, e: Event, sc: Scope)
    requires Terminal(s, sc) && forall w :: !Engaged(s, w, sc)
    ensures sc in Exec(s, e).records && Exec(s, e).records[sc] == s.records[sc]
  {
    if !e.Ensure? { assert !Engaged(s, e.w, sc); }
  }

  lemma {:induction false} UnengagedForGood(s: State, es: seq<Event>, sc: Scope)
    requires Terminal(s, sc) && forall w :: !Engaged(s, w, sc)
    ensures sc in Run(s, es).records && Run(s, es).records[sc] == s.records[sc]
    decreases |es|
  {
    if es != [] {
      UnengagedIsUntouched(s, es[0], sc);
      forall w ensures !Engaged(Exec(s, es[0]), w, sc) { StepKeepsUnengaged(s, es[0], w, sc); }
      UnengagedForGood(Exec(s, es[0]), es[1..], sc);
    }
  }

  /** Whatever the scanner has listed and not yet finished is still open. */
  predicate Fits(rs: Records, x: Scanner) {
    && (forall i :: 0 <= i < |x.batch| ==> x.batch[i] in rs && rs[x.batch[i]].Open())
    && (forall i, j :: 0 <= i < j < |x.batch| ==> x.batch[i] != x.batch[j])
    && (x.current.Some? ==> x.current.value.0 in rs && rs[x.current.value.0].Open() && x.current.value.0 !in x.batch)
  }

  ghost predicate Alone(s: State, w: nat) {
    (forall v :: v in s.scanners ==> v == w) && (w in s.scanners ==> Fits(s.records, s.scanners[w]))
  }

  predicate By(e: Event, w: nat) { e.Ensure? || e.w == w }

  lemma NextFits(rs: Records, x: Scanner)
    requires Fits(rs, x) && x.batch != []
    ensures Fits(rs, Scanner(x.batch[1..], Some((x.batch[0], Begun))))
  {
  }

  lemma ListKeepsAlone(s: State, e: Event, w: nat)
    requires Alone(s, w) && By(e, w) && (e.List? || e.Next?)
    ensures Alone(Exec(s, e), w)
  {
    if e.Next? && w in s.scanners && s.scanners[w].batch != [] { NextFits(s.records, s.scanners[w]); }
  }

  predicate KeepsOrDrops(x: Scanner, y: Scanner) {
    || y == Scanner([], None)
    || (y.batch == x.batch && (y.current.Some? ==> x.current.Some? && y.current.value.0 == x.current.value.0))
  }

  /** The other steps that read keep the batch or drop it, and keep the current record or drop it. */
  lemma ReadKeepsAlone(s: State, e: Event, w: nat)
    requires Alone(s, w) && By(e, w) && !e.Ensure? && !e.List? && !e.Next? && !e.Claim? && !e.ApplyDecision?
    ensures Alone(Exec(s, e), w)
  {
    var t := Exec(s, e);
    assert t.records == s.records;
    assert w in t.scanners ==> w in s.scanners && KeepsOrDrops(s.scanners[w], t.scanners[w]);
  }

  lemma UpdateKeepsAlone(s: State, e: Event, w: nat)
    requires Alone(s, w) && By(e, w) && (e.Ensure? || e.Claim? || e.ApplyDecision?)
    ensures Alone(Exec(s, e), w)
  {
  }

  lemma StepKeepsAlone(s: State, e: Event, w: nat)
    requires Alone(s, w) && By(e, w)
    ensures Alone(Exec(s, e), w)
  {
    if e.Ensure? || e.Claim? || e.ApplyDecision? { UpdateKeepsAlone(s, e, w); }
    else if e.List? || e.Next? { ListKeepsAlone(s, e, w); }
    else { ReadKeepsAlone(s, e, w); }
  }

  lemma {:induction false} RunKeepsAlone(s: State, es: seq<Event>, w: nat)
    requires Alone(s, w) && forall i :: 0 <= i < |es| ==> By(es[i], w)
    ensures Alone(Run(s, es), w)
    decreases |es|
  {
    if es != [] {
      StepKeepsAlone(s, es[0], w);
      RunKeepsAlone(Exec(s, es[0]), es[1..], w);
    }
  }

  /** A record that a single scanner has closed never changes again, whatever scanners come later. */
  lemma {:induction false} TerminalIsFinalAlone(s: State, es: seq<Event>, w: nat, sc: Scope, more: seq<Event>)
    requires Alone(s, w) && (forall i :: 0 <= i < |es| ==> By(es[i], w)) && Terminal(Run(s, es), sc)
    ensures var t := Run(s, es);
            sc in Run(t, more).records && Run(t, more).records[sc] == t.records[sc] && !Reopens(t, sc)
  {
    var t := Run(s, es);
    RunKeepsAlone(s, es, w);
    forall v ensures !Engaged(t, v, sc) {
      if v in t.scanners { assert v == w && Fits(t.records, t.scanners[w]); }
    }
    UnengagedForGood(t, more, sc);
    forall v ensures !MayReopen(t, v, sc) { assert !Engaged(t, v, sc); }
    ReopensIff(t, sc);
  }

  lemma {:induction false} RunConcat(s: State, a: seq<Event>, b: seq<Event>)
    ensures Run(s, a + b) == Run(Run(s, a), b)
    decreases |a|
  {
    if a == [] {
      assert a + b == b;
    } else {
      assert (a + b)[1..] == a[1..] + b;
      RunConcat(Exec(s, a[0]), a[1..], b);
    }
  }

  /** A scanner takes up a record and decides by what the ledger says. */
  function Scan(w: nat, sc: Scope, ledger: Ledger): seq<Event> {
    [List(w, [sc], 0), Next(w), FindSource(w, true, 0), ReadLedger(w, ledger, 0)]
  }

  lemma {:induction false} ScanDecides(s: State, w: nat, sc: Scope, ledger: Ledger)
    requires w !in s.scanners && sc in s.records && s.records[sc].Open() && s.records[sc].DueAt(0) && !ledger.NoRow?
    ensures var mark := if ledger.LedgerCompleted? then MarkCompleted(0) else MarkEnqueued(CLAIM_WINDOW);
            Run(s, Scan(w, sc, ledger))
              == s.(scanners := s.scanners[w := Scanner([], Some((sc, Deciding(mark, None))))],
                    causes := s.causes + if ledger.LedgerCompleted? then {(sc, LedgerIsCompleted)} else {})
  {
    var es := Scan(w, sc, ledger);
    var s1 := Exec(s, es[0]);
    var s2 := Exec(s1, es[1]);
    var s3 := Exec(s2, es[2]);
    assert s1.scanners[w] == Scanner([sc], None);
    assert [sc][1..] == [];
    assert s2.scanners[w] == Scanner([], Some((sc, Begun)));
    assert Run(s, es) == Run(s1, es[1..]);
    assert Run(s1, es[1..]) == Run(s2, es[2..]) by { assert es[1..][1..] == es[2..]; }
    assert Run(s2, es[2..]) == Run(s3, es[3..]) by { assert es[2..][1..] == es[3..]; }
    assert Run(s3, es[3..]) == Run(Exec(s3, es[3]), []) by { assert es[3..][1..] == []; }
  }

  /** With two scanners a completed record can be opened again: the slower one marks what it saw earlier. */
  lemma CompletedCanReopen(sc: Scope) returns (es: seq<Event>)
    ensures es != []
    ensures var before, after := Run(Initial(), es[..|es| - 1]), Run(Initial(), es);
            && sc in before.records && before.records[sc].state.COMPLETED?
            && sc in after.records && after.records[sc].state.ENQUEUED?
  {
    var a := [Ensure(sc, 0, None)];
    var b, c, d := Scan(1, sc, LedgerProcessing), Scan(2, sc, LedgerCompleted), [ApplyDecision(2)];
    var s0 := Exec(Initial(), a[0]);
    assert Run(Initial(), a) == Run(s0, []);
    ScanDecides(s0, 1, sc, LedgerProcessing);
    var s1 := Run(s0, b);
    ScanDecides(s1, 2, sc, LedgerCompleted);
    var s2 := Run(s1, c);
    var s3 := Exec(s2, ApplyDecision(2));
    assert Run(s2, d) == Run(s3, []);
    var e := [ApplyDecision(1)];
    assert Run(s3, e) == Run(Exec(s3, ApplyDecision(1)), []);
    RunConcat(Initial(), a, b);
    RunConcat(Initial(), a + b, c);
    RunConcat(Initial(), a + b + c, d);
    RunConcat(Initial(), a + b + c + d, e);
    es := a + b + c + d + e;
    assert es[..|es| - 1] == a + b + c + d;
  }

  // ---------------------------------------------------------------------
  // What one scan decides
  // ---------------------------------------------------------------------

  /** The records a log calls for: analytics for every row, and billing for those that reached a provider. */
  lemma {:induction false} ExpectedIff(rows: seq<Source>, sc: Scope)
    ensures sc in AllExpected(rows) <==>
              exists src :: src in rows && src.orgId == sc.orgId && src.requestId == sc.requestId
                && (if src.blocked then sc.queue == AnalyticsQueue && sc.jobType == RequestBlocked
                    else sc.jobType == RequestCompleted)
  {
    if rows != [] {
      var n := |rows| - 1;
      ExpectedIff(rows[..n], sc);
      assert rows == rows[..n] + [rows[n]];
      ExpectedOfOne(rows[n], sc);
    }
  }

  lemma ExpectedOfOne(src: Source, sc: Scope)
    ensures sc in ExpectedScopes(src) <==>
              && src.orgId == sc.orgId && src.requestId == sc.requestId
              && (if src.blocked then sc.queue == AnalyticsQueue && sc.jobType == RequestBlocked
                  else sc.jobType == RequestCompleted)
  {
    var es := ExpectedScopes(src);
    assert es[0] in es && es[|es| - 1] in es;
    assert sc.queue.BillingQueue? || sc.queue.AnalyticsQueue?;
  }

  /** An idle scanner takes a batch and then its records one after the other; a scanner at work takes no new batch. */
  lemma ScannersTakeTurns(s: State, w: nat, batch: seq<Scope>, now: int)
    requires Listable(s, batch, now) && batch != []
    ensures var t := Exec(s, List(w, batch, now)); var u := Exec(t, Next(w));
            if w in s.scanners && (s.scanners[w].batch != [] || s.scanners[w].current != None) then t == s
            else
              && t == s.(scanners := s.scanners[w := Scanner(batch, None)])
              && u == s.(scanners := s.scanners[w := Scanner(batch[1..], Some((batch[0], Begun)))])
  {
  }

  /** What a scan finds out about a record, and whether its enqueue works. */
  datatype Findings = Findings(found: bool, ledger: Ledger, job: QueueJob, enqueues: bool)
  {
    predicate NothingThere() { found && ledger.NoRow? && job.Missing? }
  }

  function Recover(w: nat, x: Findings, now: int): seq<Event> {
    [FindSource(w, x.found, now), ReadLedger(w, x.ledger, now), ReadQueue(w, x.job, now)]
    + Act(w, x.enqueues, now)
  }

  /** The steps after the reads. */
  function Act(w: nat, ok: bool, now: int): seq<Event> {
    [Claim(w, now, now + 60000), Enqueue(w, ok, now), ApplyDecision(w)]
  }

  predicate IsOpen(r: Record) { r.state == PENDING || r.state == ENQUEUED }

  /** How a scan leaves the record.  Nothing to be found at all means an attempt, if there is one left and it is due. */
  predicate Recovered(r: Record, x: Findings, now: int, after: Record) {
    if !x.found then Closes(r, after, FAILED, now, Some(SOURCE_UNAVAILABLE))
    else if x.ledger.LedgerCompleted? then Closes(r, after, COMPLETED, now, None)
    else if x.ledger.LedgerProcessing? then LooksAgain(r, after, now)
    else if x.job.JobFailed? then Closes(r, after, FAILED, now, Some(TERMINAL_JOB_FAILURE))
    else if x.job.JobPresent? then LooksAgain(r, after, now)
    else if !(IsOpen(r) && r.attemptCount < 3 && (r.nextAttemptAt.None? || r.nextAttemptAt.value <= now))
      then after == r
    else
      var tried := r.(attemptCount := r.attemptCount + 1, lastAttemptAt := Some(now));
      if x.enqueues then LooksAgain(tried, after, now) else Postponed(tried, after, now)
  }

  predicate Closes(r: Record, after: Record, state: RecoveryState, now: int, error: Option<Category>) {
    after == Record(state, r.attemptCount, None, r.lastAttemptAt,
                    if state == COMPLETED then Some(now) else None, if state == FAILED then Some(now) else None, error)
  }

  /** Enqueued by somebody; looked at again in a minute. */
  predicate LooksAgain(r: Record, after: Record, now: int) {
    after == Record(ENQUEUED, r.attemptCount, Some(now + 60000), r.lastAttemptAt, None, None, None)
  }

  /** The enqueue of this attempt failed: another one a second after the first, two after the second, none after it. */
  predicate Postponed(r: Record, after: Record, now: int) {
    if r.attemptCount >= 3 then Closes(r, after, FAILED, now, Some(ENQUEUE_UNAVAILABLE))
    else
      var wait := if r.attemptCount <= 1 then 1000 else 2000;
      after == Record(PENDING, r.attemptCount, Some(now + wait), r.lastAttemptAt, None, None, Some(ENQUEUE_UNAVAILABLE))
  }

  /** A scan that nobody disturbs: it enqueues exactly once when nothing is there and an attempt is left, never
      otherwise, leaves the record as its findings call for, and touches no other. */
  lemma {:induction false} ScanRecovers(s: State, w: nat, x: Findings, now: int)
    requires Busy(s, w) && PhaseOf(s, w) == Begun && Current(s, w) in s.records && RecordOk(s.records[Current(s, w)])
    ensures var t, sc := Run(s, Recover(w, x, now)), Current(s, w);
            && sc in t.records && Recovered(s.records[sc], x, now, t.records[sc])
            && t.records == s.records[sc := t.records[sc]]
            && w in t.scanners && t.scanners[w] == Scanner(s.scanners[w].batch, None)
            && t.enqueues == (if x.NothingThere() && Claimable(s.records, sc, now)
                              then s.enqueues + multiset{(sc, s.records[sc].attemptCount + 1)} else s.enqueues)
  {
    var s1 := ReadsDecide(s, w, x, now);
    if PhaseOf(s1, w).NotQueued? {
      ClaimsAndEnqueues(s1, w, x.enqueues, now);
    } else {
      AppliesDecision(s1, w, x.enqueues, now);
    }
  }

  lemma {:induction false} RunThreeMore(s: State, a: Event, b: Event, c: Event, rest: seq<Event>)
    ensures Run(s, [a, b, c] + rest) == Run(Exec(Exec(Exec(s, a), b), c), rest)
  {
    var es := [a, b, c] + rest;
    assert es[1..] == [b, c] + rest && es[1..][1..] == [c] + rest && es[1..][1..][1..] == rest;
    assert Run(s, es) == Run(Exec(s, a), es[1..]);
    assert Run(Exec(s, a), es[1..]) == Run(Exec(Exec(s, a), b), es[1..][1..]);
  }

  /** The decision that the three reads lead to, or that nothing is there. */
  function Decided(x: Findings, now: int): Phase {
    if !x.found then Deciding(MarkFailed(now, SOURCE_UNAVAILABLE), None)
    else match x.ledger
      case LedgerCompleted => Deciding(MarkCompleted(now), None)
      case LedgerProcessing => Deciding(MarkEnqueued(now + 60000), None)
      case NoRow =>
        match x.job
        case JobFailed => Deciding(MarkFailed(now, TERMINAL_JOB_FAILURE), None)
        case JobPresent => Deciding(MarkEnqueued(now + 60000), None)
        case Missing => NotQueued
  }

  lemma {:induction false} ReadsDecide(s: State, w: nat, x: Findings, now: int) returns (t: State)
    requires Busy(s, w) && PhaseOf(s, w) == Begun
    ensures Run(s, Recover(w, x, now)) == Run(t, Act(w, x.enqueues, now))
    ensures t.records == s.records && t.enqueues == s.enqueues
    ensures Busy(t, w) && Current(t, w) == Current(s, w) && t.scanners[w].batch == s.scanners[w].batch
    ensures PhaseOf(t, w) == Decided(x, now)
  {
    var s1 := Exec(s, FindSource(w, x.found, now));
    assert Busy(s1, w) && Current(s1, w) == Current(s, w) && s1.records == s.records && s1.enqueues == s.enqueues;
    var s2 := Exec(s1, ReadLedger(w, x.ledger, now));
    assert Busy(s2, w) && Current(s2, w) == Current(s, w) && s2.records == s.records && s2.enqueues == s.enqueues;
    t := Exec(s2, ReadQueue(w, x.job, now));
    RunThreeMore(s, FindSource(w, x.found, now), ReadLedger(w, x.ledger, now), ReadQueue(w, x.job, now),
                 Act(w, x.enqueues, now));
  }

  lemma {:induction false} ActRuns(s: State, w: nat, ok: bool, now: int)
    ensures Run(s, Act(w, ok, now))
         == Exec(Exec(Exec(s, Claim(w, now, now + 60000)), Enqueue(w, ok, now)), ApplyDecision(w))
  {
    assert Act(w, ok, now) == Act(w, ok, now) + [];
    RunThreeMore(s, Claim(w, now, now + 60000), Enqueue(w, ok, now), ApplyDecision(w), []);
  }

  lemma {:induction false} AppliesDecision(s: State, w: nat, ok: bool, now: int)
    requires Busy(s, w) && PhaseOf(s, w).Deciding? && Current(s, w) in s.records
    ensures var t, sc := Run(s, Act(w, ok, now)), Current(s, w);
            && t.records == s.records[sc := MarkedRecord(s.records[sc], PhaseOf(s, w).mark)]
            && w in t.scanners && t.scanners[w] == Scanner(s.scanners[w].batch, None) && t.enqueues == s.enqueues
  {
    ActRuns(s, w, ok, now);
    assert Exec(s, Claim(w, now, now + 60000)) == s && Exec(s, Enqueue(w, ok, now)) == s;
  }

  lemma {:induction false} ClaimsAndEnqueues(s: State, w: nat, ok: bool, now: int)
    requires Busy(s, w) && PhaseOf(s, w).NotQueued? && Current(s, w) in s.records && RecordOk(s.records[Current(s, w)])
    ensures var t, sc := Run(s, Act(w, ok, now)), Current(s, w);
            && sc in t.records && Recovered(s.records[sc], Findings(true, NoRow, Missing, ok), now, t.records[sc])
            && t.records == s.records[sc := t.records[sc]]
            && w in t.scanners && t.scanners[w] == Scanner(s.scanners[w].batch, None)
            && t.enqueues == (if Claimable(s.records, sc, now)
                              then s.enqueues + multiset{(sc, s.records[sc].attemptCount + 1)} else s.enqueues)
  {
    var claimed := ActClaims(s, w, ok, now);
    if Busy(claimed, w) { EnqueuesAndMarks(claimed, w, ok, now); }
  }

  lemma {:induction false} ActClaims(s: State, w: nat, ok: bool, now: int) returns (t: State)
    requires Busy(s, w) && PhaseOf(s, w).NotQueued? && Current(s, w) in s.records && RecordOk(s.records[Current(s, w)])
    ensures Busy(t, w) <==> Claimable(s.records, Current(s, w), now)
    ensures t.enqueues == s.enqueues && w in t.scanners && t.scanners[w].batch == s.scanners[w].batch
    ensures !Busy(t, w) ==> t.records == s.records && Run(s, Act(w, ok, now)) == t
    ensures Busy(t, w) ==>
              && var sc := Current(s, w);
              && Current(t, w) == sc && PhaseOf(t, w) == Claimed(s.records[sc].attemptCount + 1)
              && t.records == s.records[sc :=
                     Record(PENDING, s.records[sc].attemptCount + 1, Some(now + 60000), Some(now),
                                                     None, None, None)]
              && Run(s, Act(w, ok, now)) == Exec(Exec(t, Enqueue(w, ok, now)), ApplyDecision(w))
  {
    ActRuns(s, w, ok, now);
    t := Exec(s, Claim(w, now, now + 60000));
    if Claimable(s.records, Current(s, w), now) {
      ClaimIsExact(s, w, now, now + 60000);
    } else {
      assert !Busy(t, w);
      assert Exec(t, Enqueue(w, ok, now)) == t && Exec(t, ApplyDecision(w)) == t;
    }
  }

  lemma EnqueuesAndMarks(s: State, w: nat, ok: bool, now: int)
    requires Busy(s, w) && PhaseOf(s, w).Claimed? && Current(s, w) in s.records
    requires s.records[Current(s, w)].attemptCount == PhaseOf(s, w).attempt
    ensures var t, sc := Exec(Exec(s, Enqueue(w, ok, now)), ApplyDecision(w)), Current(s, w);
            && sc in t.records && t.records == s.records[sc := t.records[sc]]
            && (if ok then LooksAgain(s.records[sc], t.records[sc], now)
                 else Postponed(s.records[sc], t.records[sc], now))
            && w in t.scanners && t.scanners[w] == Scanner(s.scanners[w].batch, None)
            && t.enqueues == s.enqueues + multiset{(sc, PhaseOf(s, w).attempt)}
  {
    var s1 := Exec(s, Enqueue(w, ok, now));
    assert Busy(s1, w) && PhaseOf(s1, w).Deciding? && Current(s1, w) == Current(s, w) && s1.records == s.records;
  }

  /** A claim counts the attempt, hides the record from other scanners for its window, and forgets the last error. */
  lemma ClaimIsExact(s: State, w: nat, now: int, until: int)
    requires Busy(s, w) && PhaseOf(s, w).NotQueued? && Claimable(s.records, Current(s, w), now)
    requires RecordOk(s.records[Current(s, w)])
    ensures var t, sc := Exec(s, Claim(w, now, until)), Current(s, w);
            && t.records == s.records[sc :=
                   Record(PENDING, s.records[sc].attemptCount + 1, Some(until), Some(now), None, None, None)]
            && t.scanners == s.scanners[w :=
                   Scanner(s.scanners[w].batch, Some((sc, Claimed(s.records[sc].attemptCount + 1))))]
            && t.enqueues == s.enqueues
  {
  }

  /** When the job was enqueued but the mark fails, the attempt counts as failed. */
  lemma UnmarkedEnqueueFails(s: State, w: nat, now: int)
    requires Busy(s, w) && PhaseOf(s, w).Claimed? && Current(s, w) in s.records
    requires s.records[Current(s, w)].attemptCount == PhaseOf(s, w).attempt
    ensures var t, sc := Exec(Exec(Exec(s, Enqueue(w, true, now)), MarkFails(w, now)), ApplyDecision(w)), Current(s, w);
            && sc in t.records && Postponed(s.records[sc], t.records[sc], now)
            && t.enqueues == s.enqueues + multiset{(sc, PhaseOf(s, w).attempt)}
  {
    var s1 := Exec(s, Enqueue(w, true, now));
    assert Busy(s1, w) && PhaseOf(s1, w).Deciding? && s1.records == s.records;
    var s2 := Exec(s1, MarkFails(w, now));
    assert Busy(s2, w) && PhaseOf(s2, w).Deciding? && s2.records == s.records;
  }
}
