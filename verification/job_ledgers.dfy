/**
 The job ledgers of the billing and analytics workers under duplicate deliveries, retries,
 crashes and lost replies, and the rollups that billing jobs and budget checks write.
 */
module JobLedgers {
  import opened Prelude
  import opened RequestLog
  import opened Billing

  datatype Scope = Scope(requestId: nat, billing: bool)
  datatype LedgerState = PROCESSING | COMPLETE

  // ---------------------------------------------------------------------
  // The ledger collection
  // ---------------------------------------------------------------------

  type Rows = map<Scope, LedgerState>

  function Inserted(ledger: Rows, sc: Scope): Rows { if sc in ledger then ledger else ledger[sc := PROCESSING] }
  predicate Claimed(ledger: Rows, sc: Scope) { sc in ledger && ledger[sc] == PROCESSING }
  function Completed(ledger: Rows, sc: Scope): Rows { if Claimed(ledger, sc) then ledger[sc := COMPLETE] else ledger }
  function Released(ledger: Rows, sc: Scope): Rows { if Claimed(ledger, sc) then ledger - {sc} else ledger }

  datatype Acquired = ACQUIRED | EXISTING(state: LedgerState)

  class JobLedger {
    var ledger: Rows

    method AcquireJobProcessing(sc: Scope) returns (r: Acquired)
      modifies this
      ensures ledger == Inserted(old(ledger), sc)
      ensures r == if sc in old(ledger) then EXISTING(old(ledger)[sc]) else ACQUIRED
    {
      if sc !in ledger {
        ledger := ledger[sc := PROCESSING];
        r := ACQUIRED;
      } else {
        r := EXISTING(ledger[sc]);
      }
    }

    /** False is the lost-claim error. */
    method CompleteJobProcessing(sc: Scope) returns (ok: bool)
      modifies this
      ensures ledger == Completed(old(ledger), sc) && (ok <==> Claimed(old(ledger), sc))
    {
      ok := sc in ledger && ledger[sc] == PROCESSING;
      if ok { ledger := ledger[sc := COMPLETE]; }
    }

    method ReleaseJobProcessing(sc: Scope)
      modifies this
      ensures ledger == Released(old(ledger), sc)
    {
      if sc in ledger && ledger[sc] == PROCESSING { ledger := ledger - {sc}; }
    }
  }

  // ---------------------------------------------------------------------
  // The workers
  // ---------------------------------------------------------------------

  datatype Period = Period(orgId: nat, start: int, end: int)

  ghost function Due(log: seq<Row>, p: Period): Option<Rollup> { DueRollup(PeriodRows(log, p.orgId, p.start, p.end)) }

  /** A rollup on its way, with how much of the log its aggregation had seen. */
  datatype Pending = Pending(period: Period, seen: nat, rollup: Rollup)

  datatype Kind = BillingJob(retry: bool) | AnalyticsJob | BudgetCheck

  datatype Phase =
    | Acquiring | LookingUp | Working | Aggregating(period: Period) | Writing(pending: Pending)
    | Completing(outcome: Option<Outcome>) | Releasing | Exited

  datatype Worker = Worker(kind: Kind, scope: Scope, phase: Phase)

  datatype State = State(
    log: seq<Row>, ledger: Rows, workers: map<nat, Worker>,
    rollups: map<Period, Pending>, written: seq<Pending>,
    completions: multiset<Scope>, outcomes: map<Scope, Option<Outcome>>)

  /** `replyLost`: the store did it, the worker sees an error. */
  datatype Event =
    | Append(row: Row)
    | Deliver(w: nat, kind: Kind, requestId: nat)
    | CheckBudget(w: nat, period: Period)
    | CreateClaim(w: nat, replyLost: bool)
    | LookUp(w: nat)
    | FindUsage(w: nat, period: Period)
    | UpdateAnalytics(w: nat)
    | Aggregate(w: nat)
    | Write(w: nat)
    | Complete(w: nat, replyLost: bool)
    | Fail(w: nat)
    | Release(w: nat, fails: bool)
    | Crash(w: nat)

  function Initial(): State { State([], map[], map[], map[], [], multiset{}, map[]) }

  predicate Inside(x: Worker) {
    !x.kind.BudgetCheck? && !x.phase.Acquiring? && !x.phase.LookingUp? && !x.phase.Exited?
  }

  function Move(s: State, w: nat, phase: Phase): State
    requires w in s.workers
  {
    s.(workers := s.workers[w := s.workers[w].(phase := phase)])
  }

  /** The scope of a job; both kinds of job are about one request. */
  function ScopeOf(kind: Kind, requestId: nat): Scope { Scope(requestId, kind.BillingJob?) }

  function ExecClaim(s: State, w: nat, replyLost: bool): State
    requires w in s.workers
  {
    var sc := s.workers[w].scope;
    if !s.workers[w].phase.Acquiring? then s
    else if sc in s.ledger then Move(s, w, LookingUp)
    else Move(s.(ledger := Inserted(s.ledger, sc)), w, if replyLost then Exited else Working)
  }

  /** Only a billing retry goes on while the claim is held. */
  function ExecLookUp(s: State, w: nat): State
    requires w in s.workers
  {
    var x := s.workers[w];
    if !x.phase.LookingUp? then s
    else Move(s, w, if Claimed(s.ledger, x.scope) && x.kind == BillingJob(true) then Working else Exited)
  }

  function FindRequest(log: seq<Row>, id: nat): Option<Row> {
    if log == [] then None else if log[0].requestId == id then Some(log[0]) else FindRequest(log[1..], id)
  }

  /** The request's own row decides: no row is a failure, unknown usage needs no rollup. */
  function ExecFindUsage(s: State, w: nat, p: Period): State
    requires w in s.workers
  {
    var x := s.workers[w];
    if !x.phase.Working? || !x.kind.BillingJob? then s
    else
      var own := FindRequest(s.log, x.scope.requestId);
      if own.None? then Move(s, w, Releasing)
      else if !own.value.UsageKnown() then Move(s, w, Completing(Some(USAGE_UNAVAILABLE)))
      else if p.orgId == own.value.orgId && p.start <= own.value.createdAt < p.end then Move(s, w, Aggregating(p))
      else s
  }

  ghost function ExecAggregate(s: State, w: nat): State
    requires w in s.workers
  {
    var x := s.workers[w];
    if !x.phase.Aggregating? then s
    else
      var due := Due(s.log, x.phase.period);
      if due.Some? then Move(s, w, Writing(Pending(x.phase.period, |s.log|, due.value)))
      else Move(s, w, if x.kind.BudgetCheck? then Exited
          else if AnyUnknown(s.log, x.phase.period) then Completing(Some(USAGE_UNAVAILABLE)) else Releasing)
  }

  ghost predicate AnyUnknown(log: seq<Row>, p: Period) {
    exists r :: r in PeriodRows(log, p.orgId, p.start, p.end) && !r.UsageKnown()
  }

  function ExecWrite(s: State, w: nat): State
    requires w in s.workers
  {
    var x := s.workers[w];
    if !x.phase.Writing? then s
    else
      var p := x.phase.pending;
      Move(s.(rollups := s.rollups[p.period := p], written := s.written + [p]), w,
           if x.kind.BudgetCheck? then Exited else Completing(Some(APPLIED)))
  }

  function ExecComplete(s: State, w: nat, replyLost: bool): State
    requires w in s.workers
  {
    var x := s.workers[w];
    if !x.phase.Completing? then s
    else if Claimed(s.ledger, x.scope) then
      Move(s.(ledger := Completed(s.ledger, x.scope), completions := s.completions + multiset{x.scope},
              outcomes := s.outcomes[x.scope := x.phase.outcome]), w, if replyLost then Releasing else Exited)
    else Move(s, w, Releasing)
  }

  function ExecRelease(s: State, w: nat, fails: bool): State
    requires w in s.workers
  {
    var x := s.workers[w];
    if !x.phase.Releasing? then s
    else Move(if fails then s else s.(ledger := Released(s.ledger, x.scope)), w, Exited)
  }

  ghost function Exec(s: State, e: Event): State {
    match e
    case Append(row) => if ValidRow(row) && (forall r :: r in s.log ==> r.requestId != row.requestId)
      then s.(log := s.log + [row]) else s
    case Deliver(w, kind, id) =>
      if w in s.workers || kind.BudgetCheck? then s
        else s.(workers := s.workers[w := Worker(kind, ScopeOf(kind, id), Acquiring)])
    case CheckBudget(w, period) =>
      if w in s.workers then s
        else s.(workers := s.workers[w := Worker(BudgetCheck, Scope(0, true), Aggregating(period))])
    case CreateClaim(w, lost) => if w in s.workers then ExecClaim(s, w, lost) else s
    case LookUp(w) => if w in s.workers then ExecLookUp(s, w) else s
    case FindUsage(w, p) => if w in s.workers then ExecFindUsage(s, w, p) else s
    case UpdateAnalytics(w) => if w in s.workers && s.workers[w].kind.AnalyticsJob? && s.workers[w].phase.Working?
      then Move(s, w, Completing(None)) else s
    case Aggregate(w) => if w in s.workers then ExecAggregate(s, w) else s
    case Write(w) => if w in s.workers then ExecWrite(s, w) else s
    case Complete(w, lost) => if w in s.workers then ExecComplete(s, w, lost) else s
    case Fail(w) => if w in s.workers && Inside(s.workers[w]) then Move(s, w, Releasing) else s
    case Release(w, fails) => if w in s.workers then ExecRelease(s, w, fails) else s
    case Crash(w) => if w in s.workers then Move(s, w, Exited) else s
  }

  ghost function Run(s: State, es: seq<Event>): State
    decreases |es|
  {
    if es == [] then s else Run(Exec(s, es[0]), es[1..])
  }

  // ---------------------------------------------------------------------
  // One worker at a time
  // ---------------------------------------------------------------------

  /** Kinds go with scopes, and a budget check never touches a ledger. */
  predicate WorkerOk(x: Worker) {
    && (x.kind.BillingJob? ==> x.scope.billing)
    && (x.kind.AnalyticsJob? ==> !x.scope.billing)
    && (x.kind.BudgetCheck? ==> x.phase.Aggregating? || x.phase.Writing? || x.phase.Exited?)
  }

  ghost predicate WorkersOk(s: State) { forall w :: w in s.workers ==> WorkerOk(s.workers[w]) }

  /** A step moves no worker but its own, and no worker changes its kind or scope. */
  lemma StepFrame(s: State, e: Event, v: nat)
    requires v in s.workers
    ensures Framed(s, Exec(s, e), e, v)
  {
    if e.Aggregate? { AggregateFrame(s, e, v); }
    else if IsEntry(e) { EntryFrame(s, e, v); }
    else { ExitFrame(s, e, v); }
  }

  /** The steps up to the work itself, and the steps from the write on. */
  predicate IsEntry(e: Event) {
    e.Append? || e.Deliver? || e.CheckBudget? || e.CreateClaim? || e.LookUp? || e.FindUsage? || e.UpdateAnalytics?
  }

  predicate IsExit(e: Event) { e.Write? || e.Complete? || e.Fail? || e.Release? || e.Crash? }

  predicate Framed(s: State, t: State, e: Event, v: nat) {
    && v in s.workers && v in t.workers
    && t.workers[v].kind == s.workers[v].kind && t.workers[v].scope == s.workers[v].scope
    && (e.Append? || e.w != v ==> t.workers[v] == s.workers[v])
  }

  /** An aggregation only moves its worker. */
  lemma AggregateMoves(s: State, w: nat)
    requires w in s.workers
    ensures var t := Exec(s, Event.Aggregate(w));
            t == s || (s.workers[w].phase.Aggregating? && w in t.workers && t == Move(s, w, t.workers[w].phase)
                       && AggregateLeads(s.log, s.workers[w], t.workers[w].phase))
  {
  }

  ghost predicate AggregateLeads(log: seq<Row>, x: Worker, next: Phase)
    requires x.phase.Aggregating?
  {
    if next.Writing? then next.pending.period == x.phase.period && next.pending.seen == |log|
      && Due(log, x.phase.period) == Some(next.pending.rollup)
    else next == Completing(Some(USAGE_UNAVAILABLE)) || next.Releasing? || next.Exited?
  }

  lemma AggregateFrame(s: State, e: Event, v: nat)
    requires v in s.workers && e.Aggregate?
    ensures Framed(s, Exec(s, e), e, v)
  {
  }

  lemma EntryFrame(s: State, e: Event, v: nat)
    requires v in s.workers && IsEntry(e)
    ensures Framed(s, Exec(s, e), e, v)
  {
    if !e.Append? && e.w != v { EntryLeavesOthers(s, e, v); }
  }

  lemma EntryLeavesOthers(s: State, e: Event, v: nat)
    requires v in s.workers && IsEntry(e) && (e.Append? || e.w != v)
    ensures v in Exec(s, e).workers && Exec(s, e).workers[v] == s.workers[v]
  {
  }

  lemma ExitFrame(s: State, e: Event, v: nat)
    requires v in s.workers && IsExit(e)
    ensures Framed(s, Exec(s, e), e, v)
  {
  }

  lemma NewWorker(s: State, e: Event, v: nat)
    requires v !in s.workers && v in Exec(s, e).workers
    ensures e.Deliver? || e.CheckBudget?
    ensures var x := Exec(s, e).workers[v]; WorkerOk(x) && !Inside(x) && !x.phase.Writing?
  {
    if IsExit(e) { ExitAddsNobody(s, e); }
  }

  lemma ExitAddsNobody(s: State, e: Event)
    requires IsExit(e)
    ensures Exec(s, e).workers.Keys == s.workers.Keys
  {
    assert e.w in s.workers ==> s.workers.Keys + {e.w} == s.workers.Keys;
  }

  lemma StepKeepsWorker(s: State, e: Event, v: nat)
    requires v in s.workers && WorkerOk(s.workers[v])
    ensures v in Exec(s, e).workers && WorkerOk(Exec(s, e).workers[v])
  {
    StepFrame(s, e, v);
    if s.workers[v].kind.BudgetCheck? && !e.Append? && e.w == v {
      if e.Aggregate? || e.Write? { BudgetCheckWrites(s, e, v); }
      else if IsEntry(e) { BudgetCheckWaits(s, e, v); }
      else { BudgetCheckStops(s, e, v); }
    }
  }

  lemma BudgetCheckWrites(s: State, e: Event, v: nat)
    requires v in s.workers && s.workers[v].kind.BudgetCheck? && WorkerOk(s.workers[v])
             && (e == Event.Aggregate(v) || e == Write(v))
    ensures v in Exec(s, e).workers && WorkerOk(Exec(s, e).workers[v])
  {
  }

  lemma BudgetCheckWaits(s: State, e: Event, v: nat)
    requires v in s.workers && s.workers[v].kind.BudgetCheck? && WorkerOk(s.workers[v]) && IsEntry(e) && !e.Append?
    ensures v in Exec(s, e).workers && Exec(s, e).workers[v] == s.workers[v]
  {
    if e.w != v { EntryLeavesOthers(s, e, v); }
  }

  lemma BudgetCheckStops(s: State, e: Event, v: nat)
    requires v in s.workers && s.workers[v].kind.BudgetCheck? && WorkerOk(s.workers[v]) && IsExit(e) && !e.Write?
    ensures v in Exec(s, e).workers && (Exec(s, e).workers[v] == s.workers[v] || Exec(s, e).workers[v].phase.Exited?)
  {
  }

  lemma StepKeepsWorkers(s: State, e: Event)
    requires WorkersOk(s)
    ensures WorkersOk(Exec(s, e))
  {
    forall v | v in Exec(s, e).workers ensures WorkerOk(Exec(s, e).workers[v]) {
      if v in s.workers { StepKeepsWorker(s, e, v); } else { NewWorker(s, e, v); }
    }
  }

  // ---------------------------------------------------------------------
  // Completion
  // ---------------------------------------------------------------------

  predicate IsComplete(s: State, sc: Scope) { sc in s.ledger && s.ledger[sc] == COMPLETE }

  /** A scope has been completed once if its row says so, and never otherwise. */
  ghost predicate CompletedOnce(s: State) {
    forall sc :: s.completions[sc] == if IsComplete(s, sc) then 1 else 0
  }

  /** The ledgers change only by claims, completions and releases. */
  lemma LedgerUntouched(s: State, e: Event)
    requires !e.CreateClaim? && !e.Complete? && !e.Release?
    ensures Exec(s, e).ledger == s.ledger && Exec(s, e).completions == s.completions
  {
  }

  lemma StepKeepsCompletions(s: State, e: Event)
    requires CompletedOnce(s)
    ensures CompletedOnce(Exec(s, e))
  {
    if !e.CreateClaim? && !e.Complete? && !e.Release? {
      LedgerUntouched(s, e);
    } else if e.w in s.workers {
      forall sc ensures Exec(s, e).completions[sc] == if IsComplete(Exec(s, e), sc) then 1 else 0 {
        StepKeepsCount(s, e, sc);
      }
    }
  }

  lemma CompletesNothing(s: State, e: Event, sc: Scope)
    requires e.CreateClaim? || e.Release? || (e.Complete? && e.w !in s.workers)
    ensures Exec(s, e).completions == s.completions && (IsComplete(Exec(s, e), sc) <==> IsComplete(s, sc))
  {
  }

  lemma StepKeepsCount(s: State, e: Event, sc: Scope)
    requires CompletedOnce(s) && (e.CreateClaim? || e.Complete? || e.Release?)
    ensures Exec(s, e).completions[sc] == if IsComplete(Exec(s, e), sc) then 1 else 0
  {
    if e.Complete? && e.w in s.workers {
      assert Exec(s, e) == ExecComplete(s, e.w, e.replyLost);
    } else {
      CompletesNothing(s, e, sc);
    }
  }

  lemma StepKeepsComplete(s: State, e: Event, sc: Scope)
    requires IsComplete(s, sc)
    ensures IsComplete(Exec(s, e), sc)
  {
  }

  /** COMPLETED is final: no retry, release, crash or late reply undoes it. */
  lemma {:induction false} CompletedIsFinal(s: State, es: seq<Event>, sc: Scope)
    requires IsComplete(s, sc)
    ensures IsComplete(Run(s, es), sc)
    decreases |es|
  {
    if es != [] {
      StepKeepsComplete(s, es[0], sc);
      CompletedIsFinal(Exec(s, es[0]), es[1..], sc);
    }
  }

  lemma {:induction false} RunKeepsCompletions(s: State, es: seq<Event>)
    requires CompletedOnce(s)
    ensures CompletedOnce(Run(s, es))
    decreases |es|
  {
    if es != [] {
      StepKeepsCompletions(s, es[0]);
      RunKeepsCompletions(Exec(s, es[0]), es[1..]);
    }
  }

  /** In every run, each scope is completed successfully at most once, exactly once when its row is COMPLETED. */
  lemma {:induction false} AtMostOneCompletion(es: seq<Event>, sc: Scope)
    ensures var s := Run(Initial(), es); s.completions[sc] == if IsComplete(s, sc) then 1 else 0
  {
    RunKeepsCompletions(Initial(), es);
  }

  // ---------------------------------------------------------------------
  // Mutual exclusion
  // ---------------------------------------------------------------------

  predicate Holds(s: State, w: nat, sc: Scope) { w in s.workers && s.workers[w].scope == sc && Inside(s.workers[w]) }

  /** At most one worker is between acquiring the scope and completing or releasing it. */
  ghost predicate OneInside(s: State, sc: Scope) { forall v, w :: Holds(s, v, sc) && Holds(s, w, sc) ==> v == w }

  ghost predicate Exclusive(s: State, sc: Scope) { OneInside(s, sc) && forall w :: Holds(s, w, sc) ==> sc in s.ledger }

  /** A billing retry that finds the claim on the scope. */
  predicate Retries(s: State, e: Event, sc: Scope) {
    && e.LookUp? && e.w in s.workers && Claimed(s.ledger, sc)
    && s.workers[e.w].scope == sc && s.workers[e.w].phase.LookingUp? && s.workers[e.w].kind == BillingJob(true)
  }

  /** There are two ways in: to create the row, and to find it as a retry. */
  lemma WayIn(s: State, e: Event, w: nat, sc: Scope)
    requires Holds(Exec(s, e), w, sc) && !Holds(s, w, sc)
    ensures !e.Append? && e.w == w && sc in Exec(s, e).ledger
    ensures (e.CreateClaim? && sc !in s.ledger) || Retries(s, e, sc)
  {
    if w !in s.workers { NewWorker(s, e, w); } else { StepFrame(s, e, w); }
  }

  /** The row goes only when a worker inside releases it, on its way out. */
  lemma WayOut(s: State, e: Event, sc: Scope)
    requires WorkersOk(s) && sc in s.ledger && sc !in Exec(s, e).ledger
    ensures e.Release? && Holds(s, e.w, sc) && !Holds(Exec(s, e), e.w, sc)
  {
    assert e.Release? && e.w in s.workers;
    assert WorkerOk(s.workers[e.w]);
  }

  /** A retry takes over a claim whose holder is still at work; an orphaned claim has none. */
  ghost predicate TakesOverHeld(s: State, e: Event, sc: Scope) { Retries(s, e, sc) && exists v :: Holds(s, v, sc) }

  lemma StepKeepsExclusive(s: State, e: Event, sc: Scope)
    requires WorkersOk(s) && Exclusive(s, sc) && !TakesOverHeld(s, e, sc)
    ensures Exclusive(Exec(s, e), sc)
  {
    var t := Exec(s, e);
    forall w | Holds(t, w, sc) ensures sc in t.ledger {
      if !Holds(s, w, sc) { WayIn(s, e, w, sc); } else if sc !in t.ledger { WayOut(s, e, sc); }
    }
    forall v, w | Holds(t, v, sc) && Holds(t, w, sc) ensures v == w {
      if !Holds(s, v, sc) { WayIn(s, e, v, sc); }
      if !Holds(s, w, sc) { WayIn(s, e, w, sc); }
    }
  }

  /** The retry and the holder it found are then inside together. */
  lemma TakingOverBreaks(s: State, e: Event, sc: Scope)
    requires TakesOverHeld(s, e, sc)
    ensures !OneInside(Exec(s, e), sc)
  {
    var v :| Holds(s, v, sc);
    assert v != e.w && Holds(Exec(s, e), v, sc) && Holds(Exec(s, e), e.w, sc);
  }

  ghost predicate AlwaysExclusive(s: State, es: seq<Event>, sc: Scope)
    decreases |es|
  {
    Exclusive(s, sc) && (es == [] || AlwaysExclusive(Exec(s, es[0]), es[1..], sc))
  }

  ghost predicate NeverTakesOverHeld(s: State, es: seq<Event>, sc: Scope)
    decreases |es|
  {
    es == [] || (!TakesOverHeld(s, es[0], sc) && NeverTakesOverHeld(Exec(s, es[0]), es[1..], sc))
  }

  /** Along any run the scope has one worker inside at a time, over its row, if and only if no retry looks the claim
      up while its holder is at work: retries that take over an orphaned claim do no harm. */
  lemma {:induction false} ExclusiveIff(s: State, es: seq<Event>, sc: Scope)
    requires WorkersOk(s) && Exclusive(s, sc)
    ensures AlwaysExclusive(s, es, sc) <==> NeverTakesOverHeld(s, es, sc)
    decreases |es|
  {
    if es != [] {
      var t := Exec(s, es[0]);
      if TakesOverHeld(s, es[0], sc) {
        TakingOverBreaks(s, es[0], sc);
        assert !AlwaysExclusive(t, es[1..], sc);
      } else {
        StepKeepsExclusive(s, es[0], sc);
        StepKeepsWorkers(s, es[0]);
        ExclusiveIff(t, es[1..], sc);
      }
    }
  }

  lemma {:induction false} ExclusiveAtTheEnd(s: State, es: seq<Event>, sc: Scope)
    requires AlwaysExclusive(s, es, sc)
    ensures Exclusive(Run(s, es), sc)
    decreases |es|
  {
    if es != [] { ExclusiveAtTheEnd(Exec(s, es[0]), es[1..], sc); }
  }

  /** No retry that may take over was ever delivered for the scope. */
  ghost predicate NoRetries(s: State, sc: Scope) {
    forall w :: w in s.workers && s.workers[w].scope == sc ==> s.workers[w].kind != BillingJob(true)
  }

  lemma {:induction false} WithoutRetries(s: State, es: seq<Event>, sc: Scope)
    requires NoRetries(Run(s, es), sc)
    ensures NoRetries(s, sc) && NeverTakesOverHeld(s, es, sc)
    decreases |es|
  {
    if es != [] {
      WithoutRetries(Exec(s, es[0]), es[1..], sc);
      forall w | w in s.workers && s.workers[w].scope == sc ensures s.workers[w].kind != BillingJob(true) {
        StepFrame(s, es[0], w);
      }
    }
  }

  /** In particular a run without retries has one worker inside at a time. */
  lemma {:induction false} ExclusiveWithoutRetries(s: State, es: seq<Event>, sc: Scope)
    requires WorkersOk(s) && Exclusive(s, sc) && NoRetries(Run(s, es), sc)
    ensures AlwaysExclusive(s, es, sc)
  {
    WithoutRetries(s, es, sc);
    ExclusiveIff(s, es, sc);
  }

  lemma {:induction false} RunKeepsWorkers(s: State, es: seq<Event>)
    requires WorkersOk(s)
    ensures WorkersOk(Run(s, es))
    decreases |es|
  {
    if es != [] {
      StepKeepsWorkers(s, es[0]);
      RunKeepsWorkers(Exec(s, es[0]), es[1..]);
    }
  }

  /** Analytics jobs never overlap: no two deliveries for one scope are ever inside together. */
  lemma {:induction false} AnalyticsJobsNeverOverlap(es: seq<Event>, v: nat, w: nat, sc: Scope)
    requires !sc.billing && Holds(Run(Initial(), es), v, sc) && Holds(Run(Initial(), es), w, sc)
    ensures v == w
  {
    RunKeepsWorkers(Initial(), es);
    ExclusiveWithoutRetries(Initial(), es, sc);
    ExclusiveAtTheEnd(Initial(), es, sc);
  }

  /** A billing retry enters whenever the claim is held: the exclusion then fails. */
  lemma {:induction false} RetryOverlaps(s: State, v: nat, w: nat, id: nat)
    requires Holds(s, v, Scope(id, true)) && Claimed(s.ledger, Scope(id, true)) && w !in s.workers
    ensures var t := Run(s, [Deliver(w, BillingJob(true), id), CreateClaim(w, false), LookUp(w)]);
            v != w && Holds(t, v, Scope(id, true)) && Holds(t, w, Scope(id, true))
  {
    var es := [Deliver(w, BillingJob(true), id), CreateClaim(w, false), LookUp(w)];
    var s1 := Exec(s, es[0]);
    var s2 := Exec(s1, es[1]);
    assert Run(s, es) == Run(s1, es[1..]);
    assert Run(s1, es[1..]) == Run(s2, es[2..]) by { assert es[1..][1..] == es[2..]; }
    assert Run(s2, es[2..]) == Run(Exec(s2, es[2]), []) by { assert es[2..][1..] == []; }
  }

  lemma {:induction false} RunConcat(s: State, a: seq<Event>, b: seq<Event>)
    ensures Run(s, a + b) == Run(Run(s, a), b)
    decreases |a|
  {
    if a == [] {
      assert a + b == b;
    } else {
      assert (a + b)[1..] == a[1..] + b;
      RunConcat(Exec(s, a[0]), a[1..], b);
    }
  }

  lemma {:induction false} RunTwo(s: State, a: Event, b: Event)
    ensures Run(s, [a, b]) == Exec(Exec(s, a), b)
  {
    assert [a, b][1..] == [b];
    assert Run(Exec(s, a), [b]) == Run(Exec(Exec(s, a), b), []);
  }

  /** A run in which two deliveries of one billing job are inside together. */
  lemma BillingJobsCanOverlap() returns (es: seq<Event>)
    ensures var s := Run(Initial(), es); Holds(s, 1, Scope(0, true)) && Holds(s, 2, Scope(0, true))
  {
    var first := [Deliver(1, BillingJob(false), 0), CreateClaim(1, false)];
    RunTwo(Initial(), first[0], first[1]);
    var s := Run(Initial(), first);
    RetryOverlaps(s, 1, 2, 0);
    var second := [Deliver(2, BillingJob(true), 0), CreateClaim(2, false), LookUp(2)];
    RunConcat(Initial(), first, second);
    es := first + second;
  }

  // ---------------------------------------------------------------------
  // Rollups
  // ---------------------------------------------------------------------

  /** The rollup is what the log, as it once was, called for: the exact sums with all usage known. */
  ghost predicate FromSnapshot(log: seq<Row>, p: Pending) {
    p.seen <= |log| && Due(log[..p.seen], p.period) == Some(p.rollup)
  }

  ghost predicate RollupsOk(s: State) {
    && (forall w :: w in s.workers && s.workers[w].phase.Writing? ==> FromSnapshot(s.log, s.workers[w].phase.pending))
    && (forall i :: 0 <= i < |s.written| ==> FromSnapshot(s.log, s.written[i]))
    && (forall k :: k in s.rollups ==> s.rollups[k].period == k && FromSnapshot(s.log, s.rollups[k]))
  }

  lemma AppendKeepsSnapshot(log: seq<Row>, row: Row, p: Pending)
    requires FromSnapshot(log, p)
    ensures FromSnapshot(log + [row], p)
  {
    assert (log + [row])[..p.seen] == log[..p.seen];
  }

  lemma AppendKeepsRollups(s: State, row: Row)
    requires RollupsOk(s)
    ensures RollupsOk(Exec(s, Append(row)))
  {
    if Exec(s, Append(row)) != s {
      forall w | w in s.workers && s.workers[w].phase.Writing?
        ensures FromSnapshot(s.log + [row], s.workers[w].phase.pending)
      {
        AppendKeepsSnapshot(s.log, row, s.workers[w].phase.pending);
      }
      forall i | 0 <= i < |s.written| ensures FromSnapshot(s.log + [row], s.written[i]) {
        AppendKeepsSnapshot(s.log, row, s.written[i]);
      }
      forall k | k in s.rollups ensures FromSnapshot(s.log + [row], s.rollups[k]) {
        AppendKeepsSnapshot(s.log, row, s.rollups[k]);
      }
    }
  }

  lemma AggregateKeepsRollups(s: State, e: Event)
    requires RollupsOk(s) && e.Aggregate?
    ensures RollupsOk(Exec(s, e))
  {
    assert s.log[..|s.log|] == s.log;
    if e.w in s.workers { AggregateMoves(s, e.w); }
  }

  lemma WriteKeepsRollups(s: State, e: Event)
    requires RollupsOk(s) && e.Write?
    ensures RollupsOk(Exec(s, e))
  {
  }

  /** Only a write changes what is stored. */
  lemma OthersDoNotWrite(s: State, e: Event)
    requires !e.Append? && !e.Aggregate? && !e.Write?
    ensures Exec(s, e).log == s.log && Exec(s, e).written == s.written && Exec(s, e).rollups == s.rollups
  {
    if IsEntry(e) { EntryStoresNothing(s, e); } else { ExitStoresNothing(s, e); }
  }

  predicate SameStored(s: State, t: State) {
    t.log == s.log && t.written == s.written && t.rollups == s.rollups
  }

  lemma EntryStoresNothing(s: State, e: Event)
    requires IsEntry(e) && !e.Append?
    ensures SameStored(s, Exec(s, e)) && Exec(s, e).outcomes == s.outcomes
  {
  }

  lemma ExitStoresNothing(s: State, e: Event)
    requires IsExit(e) && !e.Write?
    ensures SameStored(s, Exec(s, e)) && (!e.Complete? ==> Exec(s, e).outcomes == s.outcomes)
  {
  }

  /** Only an aggregation starts a write. */
  lemma OthersStartNoWrite(s: State, e: Event, w: nat)
    requires !e.Append? && !e.Aggregate? && !e.Write?
    ensures var t := Exec(s, e);
            w in t.workers && t.workers[w].phase.Writing? ==> w in s.workers && t.workers[w].phase == s.workers[w].phase
  {
    if w in s.workers {
      StepFrame(s, e, w);
      if e.w == w { if IsEntry(e) { EntryWritesNothing(s, e); } else { ExitWritesNothing(s, e); } }
    } else if w in Exec(s, e).workers {
      NewWorker(s, e, w);
    }
  }

  lemma EntryWritesNothing(s: State, e: Event)
    requires IsEntry(e) && !e.Append? && e.w in s.workers && e.w in Exec(s, e).workers
    ensures Exec(s, e).workers[e.w].phase.Writing? ==> Exec(s, e).workers[e.w].phase == s.workers[e.w].phase
  {
  }

  lemma ExitWritesNothing(s: State, e: Event)
    requires IsExit(e) && !e.Write? && e.w in s.workers && e.w in Exec(s, e).workers
    ensures Exec(s, e).workers[e.w].phase.Writing? ==> Exec(s, e).workers[e.w].phase == s.workers[e.w].phase
  {
  }

  lemma OthersKeepRollups(s: State, e: Event)
    requires RollupsOk(s) && !e.Append? && !e.Aggregate? && !e.Write?
    ensures RollupsOk(Exec(s, e))
  {
    OthersDoNotWrite(s, e);
    forall w | w in Exec(s, e).workers && Exec(s, e).workers[w].phase.Writing?
      ensures FromSnapshot(s.log, Exec(s, e).workers[w].phase.pending)
    {
      OthersStartNoWrite(s, e, w);
    }
  }

  lemma {:induction false} RunKeepsRollups(s: State, es: seq<Event>)
    requires RollupsOk(s)
    ensures RollupsOk(Run(s, es))
    decreases |es|
  {
    if es != [] {
      if es[0].Append? { AppendKeepsRollups(s, es[0].row); }
      else if es[0].Aggregate? { AggregateKeepsRollups(s, es[0]); }
      else if es[0].Write? { WriteKeepsRollups(s, es[0]); }
      else { OthersKeepRollups(s, es[0]); }
      RunKeepsRollups(Exec(s, es[0]), es[1..]);
    }
  }

  /** Every rollup ever written, by a job or by a budget check, is exact for a state the log once had, in which
      all usage of the period was known. */
  lemma {:induction false} RollupsAreSnapshots(es: seq<Event>, i: nat)
    requires i < |Run(Initial(), es).written|
    ensures var s := Run(Initial(), es); var p := s.written[i];
            p.seen <= |s.log| && Due(s.log[..p.seen], p.period) == Some(p.rollup)
  {
    RunKeepsRollups(Initial(), es);
  }

  // ---------------------------------------------------------------------
  // A job completed as applied has been counted
  // ---------------------------------------------------------------------

  /** The request is among the period's rows in the first n rows of the log. */
  ghost predicate InSnapshot(log: seq<Row>, n: nat, id: nat, p: Period) {
    n <= |log| && exists i :: 0 <= i < n && log[i].requestId == id && InPeriod(p.orgId, p.start, p.end)(log[i])
  }

  /** Some rollup that was written had seen the request. */
  ghost predicate Counted(log: seq<Row>, written: seq<Pending>, id: nat) {
    exists i :: 0 <= i < |written| && InSnapshot(log, written[i].seen, id, written[i].period)
  }

  ghost predicate JobOk(log: seq<Row>, written: seq<Pending>, x: Worker) {
    x.kind.BillingJob? ==>
      && (x.phase.Aggregating? ==> InSnapshot(log, |log|, x.scope.requestId, x.phase.period))
      && (x.phase.Writing? ==> InSnapshot(log, x.phase.pending.seen, x.scope.requestId, x.phase.pending.period))
      && (x.phase == Completing(Some(APPLIED)) ==> Counted(log, written, x.scope.requestId))
  }

  ghost predicate OutcomeOk(s: State, sc: Scope) {
    sc.billing && sc in s.outcomes && s.outcomes[sc] == Some(APPLIED) ==> Counted(s.log, s.written, sc.requestId)
  }

  ghost predicate JobsOk(s: State) {
    && ValidLog(s.log) && WorkersOk(s)
    && (forall w :: w in s.workers ==> JobOk(s.log, s.written, s.workers[w]))
    && (forall sc :: OutcomeOk(s, sc))
  }

  lemma SnapshotGrows(log: seq<Row>, row: Row, n: nat, m: nat, id: nat, p: Period)
    requires InSnapshot(log, n, id, p) && n <= m <= |log| + 1
    ensures InSnapshot(log + [row], m, id, p)
  {
    var i :| 0 <= i < n && log[i].requestId == id && InPeriod(p.orgId, p.start, p.end)(log[i]);
    assert (log + [row])[i] == log[i];
  }

  lemma CountedGrows(log: seq<Row>, row: Row, written: seq<Pending>, id: nat)
    requires Counted(log, written, id)
    ensures Counted(log + [row], written, id)
  {
    var i :| 0 <= i < |written| && InSnapshot(log, written[i].seen, id, written[i].period);
    SnapshotGrows(log, row, written[i].seen, written[i].seen, id, written[i].period);
  }

  lemma CountedStays(log: seq<Row>, written: seq<Pending>, p: Pending, id: nat)
    ensures Counted(log, written, id) ==> Counted(log, written + [p], id)
    ensures InSnapshot(log, p.seen, id, p.period) ==> Counted(log, written + [p], id)
  {
    var all := written + [p];
    if i :| 0 <= i < |written| && InSnapshot(log, written[i].seen, id, written[i].period) {
      assert all[i] == written[i];
    }
    if InSnapshot(log, p.seen, id, p.period) { assert all[|written|] == p; }
  }

  lemma JobGrows(log: seq<Row>, row: Row, written: seq<Pending>, x: Worker)
    requires JobOk(log, written, x)
    ensures JobOk(log + [row], written, x)
  {
    if x.kind.BillingJob? {
      if x.phase.Aggregating? { SnapshotGrows(log, row, |log|, |log| + 1, x.scope.requestId, x.phase.period); }
      if x.phase.Writing? {
        SnapshotGrows(log, row, x.phase.pending.seen, x.phase.pending.seen, x.scope.requestId, x.phase.pending.period);
      }
      if x.phase == Completing(Some(APPLIED)) { CountedGrows(log, row, written, x.scope.requestId); }
    }
  }

  lemma AppendKeepsJobs(s: State, row: Row)
    requires JobsOk(s)
    ensures JobsOk(Exec(s, Append(row)))
  {
    if Exec(s, Append(row)) != s {
      forall w | w in s.workers ensures JobOk(s.log + [row], s.written, s.workers[w]) {
        JobGrows(s.log, row, s.written, s.workers[w]);
      }
      forall sc ensures OutcomeOk(Exec(s, Append(row)), sc) {
        assert OutcomeOk(s, sc);
        if Counted(s.log, s.written, sc.requestId) { CountedGrows(s.log, row, s.written, sc.requestId); }
      }
    }
  }

  lemma {:induction false} FoundInLog(log: seq<Row>, id: nat)
    ensures var r := FindRequest(log, id); r.Some? ==>
              r.value.requestId == id && exists i :: 0 <= i < |log| && log[i] == r.value
  {
    if log != [] && log[0].requestId != id {
      FoundInLog(log[1..], id);
      var r := FindRequest(log[1..], id);
      if r.Some? {
        var i :| 0 <= i < |log[1..]| && log[1..][i] == r.value;
        assert log[i + 1] == r.value;
      }
    }
  }

  lemma MoveKeepsJobs(s: State, w: nat, phase: Phase)
    requires JobsOk(s) && w in s.workers && WorkerOk(s.workers[w].(phase := phase))
    requires JobOk(s.log, s.written, s.workers[w].(phase := phase))
    ensures JobsOk(Move(s, w, phase))
  {
    forall sc ensures OutcomeOk(Move(s, w, phase), sc) { assert OutcomeOk(s, sc); }
  }

  lemma {:induction false} OwnRowInSnapshot(s: State, id: nat, p: Period)
    requires ValidLog(s.log) && FindRequest(s.log, id).Some?
    ensures var r := FindRequest(s.log, id).value;
            r.UsageKnown() && p.orgId == r.orgId && p.start <= r.createdAt < p.end ==> InSnapshot(s.log, |s.log|, id, p)
  {
    FoundInLog(s.log, id);
    var i :| 0 <= i < |s.log| && s.log[i] == FindRequest(s.log, id).value;
    assert ValidRow(s.log[i]);
  }

  /** The own row that starts the aggregation is in the log, and with known usage it counts for the period. */
  lemma FindUsageKeepsJobs(s: State, e: Event)
    requires JobsOk(s) && e.FindUsage?
    ensures JobsOk(Exec(s, e))
  {
    if e.w in s.workers && s.workers[e.w].phase.Working? && s.workers[e.w].kind.BillingJob? {
      var x := s.workers[e.w];
      var own := FindRequest(s.log, x.scope.requestId);
      if own.None? { MoveKeepsJobs(s, e.w, Releasing); }
      else if !own.value.UsageKnown() { MoveKeepsJobs(s, e.w, Completing(Some(USAGE_UNAVAILABLE))); }
      else if e.period.orgId == own.value.orgId && e.period.start <= own.value.createdAt < e.period.end {
        OwnRowInSnapshot(s, x.scope.requestId, e.period);
        MoveKeepsJobs(s, e.w, Aggregating(e.period));
      }
    }
  }

  lemma OutcomesUntouched(s: State, e: Event)
    requires !e.Append? && !e.Aggregate? && !e.Write? && !e.Complete?
    ensures Exec(s, e).log == s.log && Exec(s, e).written == s.written && Exec(s, e).outcomes == s.outcomes
  {
    if IsEntry(e) { EntryStoresNothing(s, e); } else { ExitStoresNothing(s, e); }
  }

  lemma AggregateKeepsJobs(s: State, e: Event)
    requires JobsOk(s) && e.Aggregate?
    ensures JobsOk(Exec(s, e))
  {
    if e.w in s.workers && Exec(s, e) != s {
      AggregateMoves(s, e.w);
      StepKeepsWorkers(s, e);
      assert JobOk(s.log, s.written, s.workers[e.w]);
      MoveKeepsJobs(s, e.w, Exec(s, e).workers[e.w].phase);
    }
  }

  lemma WriteKeepsJobs(s: State, e: Event)
    requires JobsOk(s) && e.Write? && e.w in s.workers && s.workers[e.w].phase.Writing?
    ensures JobsOk(Exec(s, e))
  {
    StepKeepsWorkers(s, e);
    var t, p := Exec(s, e), s.workers[e.w].phase.pending;
    assert JobOk(s.log, s.written, s.workers[e.w]);
    forall w | w in t.workers ensures JobOk(t.log, t.written, t.workers[w]) {
      assert JobOk(s.log, s.written, s.workers[w]);
      CountedStays(s.log, s.written, p, s.workers[w].scope.requestId);
    }
    forall sc ensures OutcomeOk(t, sc) {
      assert OutcomeOk(s, sc);
      CountedStays(s.log, s.written, p, sc.requestId);
    }
  }

  lemma CompleteKeepsJobs(s: State, e: Event)
    requires JobsOk(s) && e.Complete?
    ensures JobsOk(Exec(s, e))
  {
    StepKeepsWorkers(s, e);
    if e.w in s.workers { assert JobOk(s.log, s.written, s.workers[e.w]) && WorkerOk(s.workers[e.w]); }
    forall sc ensures OutcomeOk(Exec(s, e), sc) { assert OutcomeOk(s, sc); }
  }

  lemma OtherJobPhases(s: State, e: Event, w: nat)
    requires !e.Append? && !e.FindUsage? && !e.Aggregate? && !e.Write? && !e.Complete?
    requires w in Exec(s, e).workers && Exec(s, e).workers[w].kind.BillingJob?
    ensures (w in s.workers && Exec(s, e).workers[w] == s.workers[w])
            || !(Exec(s, e).workers[w].phase.Aggregating? || Exec(s, e).workers[w].phase.Writing?
                 || Exec(s, e).workers[w].phase.Completing?)
  {
  }

  lemma OthersKeepJobs(s: State, e: Event)
    requires JobsOk(s) && !e.Append? && !e.FindUsage? && !e.Aggregate? && !e.Write? && !e.Complete?
    ensures JobsOk(Exec(s, e))
  {
    StepKeepsWorkers(s, e);
    OutcomesUntouched(s, e);
    var t := Exec(s, e);
    forall w | w in t.workers ensures JobOk(t.log, t.written, t.workers[w]) {
      if t.workers[w].kind.BillingJob? { OtherJobPhases(s, e, w); }
    }
    forall sc ensures OutcomeOk(t, sc) { assert OutcomeOk(s, sc); }
  }

  lemma {:induction false} RunKeepsJobs(s: State, es: seq<Event>)
    requires JobsOk(s)
    ensures JobsOk(Run(s, es))
    decreases |es|
  {
    if es != [] {
      var e := es[0];
      if e.Append? { AppendKeepsJobs(s, e.row); }
      else if e.FindUsage? { FindUsageKeepsJobs(s, e); }
      else if e.Aggregate? { AggregateKeepsJobs(s, e); }
      else if e.Write? { if e.w in s.workers && s.workers[e.w].phase.Writing? { WriteKeepsJobs(s, e); } }
      else if e.Complete? { CompleteKeepsJobs(s, e); }
      else { OthersKeepJobs(s, e); }
      RunKeepsJobs(Exec(s, e), es[1..]);
    }
  }

  /** A billing job that completed as APPLIED has had its own request counted: some rollup was written, exact for a
      state of the log in which that request was among the period's rows. */
  lemma {:induction false} AppliedJobsAreCounted(es: seq<Event>, id: nat)
    requires var s := Run(Initial(), es); Scope(id, true) in s.outcomes && s.outcomes[Scope(id, true)] == Some(APPLIED)
    ensures var s := Run(Initial(), es);
            exists i :: 0 <= i < |s.written| && FromSnapshot(s.log, s.written[i])
              && InSnapshot(s.log, s.written[i].seen, id, s.written[i].period)
  {
    RunKeepsJobs(Initial(), es);
    RunKeepsRollups(Initial(), es);
    var s := Run(Initial(), es);
    assert OutcomeOk(s, Scope(id, true));
    var i :| 0 <= i < |s.written| && InSnapshot(s.log, s.written[i].seen, id, s.written[i].period);
    assert FromSnapshot(s.log, s.written[i]);
  }

  // ---------------------------------------------------------------------
  // Rollups can go back
  // ---------------------------------------------------------------------

  /** Rows of the period logged from position a up to b. */
  function PeriodBetween(log: seq<Row>, a: nat, b: nat, p: Period): seq<Row>
    requires a <= b <= |log|
  {
    PeriodRows(log[a..b], p.orgId, p.start, p.end)
  }

  predicate LoggedBetween(log: seq<Row>, a: nat, b: nat, p: Period) {
    exists i :: a <= i < b && i < |log| && InPeriod(p.orgId, p.start, p.end)(log[i])
  }

  predicate SpentBetween(log: seq<Row>, a: nat, b: nat, p: Period) {
    exists i :: a <= i < b && i < |log| && InPeriod(p.orgId, p.start, p.end)(log[i]) && Tokens(log[i]) > 0
  }

  /** Counts and tokens of a later snapshot exceed those of an earlier one by what was logged in between. */
  lemma SnapshotsDiffer(log: seq<Row>, p: Pending, q: Pending)
    requires FromSnapshot(log, p) && FromSnapshot(log, q) && p.period == q.period && p.seen <= q.seen
    ensures var more := PeriodBetween(log, p.seen, q.seen, p.period);
            && q.rollup.sourceRequestCount == p.rollup.sourceRequestCount + |more|
            && q.rollup.usedTokens == p.rollup.usedTokens + Total(more, Tokens)
  {
    var early, late := log[..p.seen], log[p.seen..q.seen];
    assert log[..q.seen] == early + late;
    SelectGrows(early, late, InPeriod(p.period.orgId, p.period.start, p.period.end));
    TotalGrows(PeriodRows(early, p.period.orgId, p.period.start, p.period.end),
        PeriodBetween(log, p.seen, q.seen, p.period), Tokens);
  }

  lemma BetweenRows(log: seq<Row>, a: nat, b: nat, p: Period)
    requires a <= b <= |log|
    ensures |PeriodBetween(log, a, b, p)| > 0 <==> LoggedBetween(log, a, b, p)
    ensures Total(PeriodBetween(log, a, b, p), Tokens) > 0 <==> SpentBetween(log, a, b, p)
  {
    var rows, part := PeriodBetween(log, a, b, p), log[a..b];
    forall r ensures r in part <==> exists i :: a <= i < b && log[i] == r {
      if r in part { var j :| 0 <= j < |part| && part[j] == r; assert log[a + j] == r; }
      if i :| a <= i < b && log[i] == r { assert part[i - a] == r; }
    }
    TotalOfNothing(rows, Tokens);
    if rows != [] { assert rows[0] in part; }
    if i :| a <= i < b && InPeriod(p.orgId, p.start, p.end)(log[i]) { assert log[i] in part && log[i] in rows; }
    if i :| a <= i < b && InPeriod(p.orgId, p.start, p.end)(log[i]) && Tokens(log[i]) > 0 {
      assert log[i] in part && log[i] in rows;
    }
  }

  /** The overwrite is unguarded.  A write takes the stored count back exactly when a request of the period was logged
      after the writer's aggregation and before the stored one, and the stored usage exactly when one of them had a
      cost. */
  lemma WriteGoesBackIff(s: State, w: nat)
    requires RollupsOk(s) && w in s.workers && s.workers[w].phase.Writing?
    requires s.workers[w].phase.pending.period in s.rollups
    ensures var p := s.workers[w].phase.pending; var q := s.rollups[p.period]; var t := Exec(s, Write(w));
            && p.period in t.rollups
            && (t.rollups[p.period].rollup.sourceRequestCount < q.rollup.sourceRequestCount
                <==> LoggedBetween(s.log, p.seen, q.seen, p.period))
            && (t.rollups[p.period].rollup.usedTokens < q.rollup.usedTokens
                <==> SpentBetween(s.log, p.seen, q.seen, p.period))
  {
    var p := s.workers[w].phase.pending;
    var q := s.rollups[p.period];
    if p.seen <= q.seen {
      SnapshotsDiffer(s.log, p, q);
      BetweenRows(s.log, p.seen, q.seen, p.period);
    } else {
      SnapshotsDiffer(s.log, q, p);
    }
  }

  const MONTH := Period(1, 0, 1)

  function KnownRow(): Row { Row(0, 1, 1, COMPLETED, ALLOW, Some(Groq), Some("m"), Some(1), Some(1), Some(2), 0) }

  lemma DueForOne(r: Row, p: Period)
    requires InPeriod(p.orgId, p.start, p.end)(r) && r.UsageKnown() && Tokens(r) <= MAX_SAFE_INTEGER
    ensures Due([r], p) == Some(Rollup(Tokens(r), 1))
  {
    var rows := PeriodRows([r], p.orgId, p.start, p.end);
    SelectLast([r], InPeriod(p.orgId, p.start, p.end));
    assert [r][..0] == [] && rows == [r];
    assert Total(rows, Tokens) == Tokens(r);
  }

  lemma DueAtFirst()
    ensures Due([], MONTH) == Some(Rollup(0, 0)) && Due([KnownRow()], MONTH) == Some(Rollup(2, 1))
  {
    DueForOne(KnownRow(), MONTH);
    assert PeriodRows([], 1, 0, 1) == [];
  }

  /** A budget check between its aggregation and its write. */
  function Pausing(seen: nat, rollup: Rollup): Worker {
    Worker(BudgetCheck, Scope(0, true), Writing(Pending(MONTH, seen, rollup)))
  }

  lemma {:induction false} CheckPauses(s: State, w: nat, rollup: Rollup)
    requires w !in s.workers && Due(s.log, MONTH) == Some(rollup)
    ensures Run(s, [CheckBudget(w, MONTH), Event.Aggregate(w)])
            == s.(workers := s.workers[w := Pausing(|s.log|, rollup)])
  {
    RunTwo(s, CheckBudget(w, MONTH), Event.Aggregate(w));
  }

  lemma {:induction false} OlderWriteWins(s: State, newer: nat, older: nat, a: Rollup, b: Rollup)
    requires newer != older && newer in s.workers && older in s.workers
    requires s.workers[newer] == Pausing(1, a) && s.workers[older] == Pausing(0, b)
    ensures MONTH in Exec(s, Write(newer)).rollups && Exec(s, Write(newer)).rollups[MONTH].rollup == a
    ensures MONTH in Run(s, [Write(newer), Write(older)]).rollups
            && Run(s, [Write(newer), Write(older)]).rollups[MONTH].rollup == b
  {
    RunTwo(s, Write(newer), Write(older));
  }

  /** Two budget checks, the first of which is slow: its write takes the stored usage back to nothing. */
  lemma RollupCanGoBack() returns (es: seq<Event>)
    ensures es != []
    ensures var before, after := Run(Initial(), es[..|es| - 1]), Run(Initial(), es);
            && MONTH in before.rollups && before.rollups[MONTH].rollup == Rollup(2, 1)
            && MONTH in after.rollups && after.rollups[MONTH].rollup == Rollup(0, 0)
  {
    DueAtFirst();
    var a := [CheckBudget(1, MONTH), Event.Aggregate(1)];
    var b := [Append(KnownRow())];
    var c := [CheckBudget(2, MONTH), Event.Aggregate(2)];
    var d := [Write(2), Write(1)];
    CheckPauses(Initial(), 1, Rollup(0, 0));
    var s1 := Run(Initial(), a);
    var s2 := s1.(log := [KnownRow()]);
    assert Exec(s1, b[0]) == s2;
    assert Run(s1, b) == Run(s2, []);
    CheckPauses(s2, 2, Rollup(2, 1));
    var s3 := Run(s2, c);
    OlderWriteWins(s3, 2, 1, Rollup(2, 1), Rollup(0, 0));
    RunConcat(Initial(), a, b);
    RunConcat(Initial(), a + b, c);
    RunConcat(Initial(), a + b + c, d);
    RunConcat(Initial(), a + b + c, d[..1]);
    assert Run(s3, d[..1]) == Run(Exec(s3, Write(2)), []);
    es := a + b + c + d;
    assert es[..|es| - 1] == a + b + c + d[..1];
  }

  // ---------------------------------------------------------------------
  // One delivery from its claim to its end
  // ---------------------------------------------------------------------

  /** The steps that decide whether a delivered job works at all. */
  function Entering(w: nat, kind: Kind, id: nat): seq<Event> {
    [Deliver(w, kind, id), CreateClaim(w, false), LookUp(w)]
  }

  /** The job goes to work exactly when its request has no row in its ledger yet, or a billing retry finds a claim. */
  predicate Enters(s: State, kind: Kind, id: nat) {
    var sc := Scope(id, kind.BillingJob?);
    sc !in s.ledger || (s.ledger[sc] == PROCESSING && kind == BillingJob(true))
  }

  lemma {:induction false} JobEnters(s: State, w: nat, kind: Kind, id: nat, rest: seq<Event>) returns (t: State)
    requires w !in s.workers && !kind.BudgetCheck?
    ensures Run(s, Entering(w, kind, id) + rest) == Run(t, rest)
    ensures var sc := Scope(id, kind.BillingJob?);
            t == s.(ledger := if Enters(s, kind, id) then s.ledger[sc := PROCESSING] else s.ledger,
                    workers := s.workers[w := Worker(kind, sc, if Enters(s, kind, id) then Working else Exited)])
  {
    var e := Entering(w, kind, id);
    RunThree(s, e[0], e[1], e[2], rest);
    assert e + rest == [e[0], e[1], e[2]] + rest;
    var s1 := Exec(s, e[0]);
    assert s1 == s.(workers := s.workers[w := Worker(kind, Scope(id, kind.BillingJob?), Acquiring)]);
    t := Exec(Exec(s1, e[1]), e[2]);
    var sc := Scope(id, kind.BillingJob?);
    if sc in s.ledger && s.ledger[sc] == PROCESSING { assert s.ledger[sc := PROCESSING] == s.ledger; }
  }

  lemma {:induction false} RunThree(s: State, a: Event, b: Event, c: Event, rest: seq<Event>)
    ensures Run(s, [a, b, c] + rest) == Run(Exec(Exec(Exec(s, a), b), c), rest)
  {
    var es := [a, b, c] + rest;
    assert es[1..] == [b, c] + rest && es[1..][1..] == [c] + rest && es[1..][1..][1..] == rest;
    assert Run(s, es) == Run(Exec(s, a), es[1..]);
    assert Run(Exec(s, a), es[1..]) == Run(Exec(Exec(s, a), b), es[1..][1..]);
  }

  /** What a working billing job leaves behind: the rollup that its request's period calls for, and its ledger row
      completed; or the row alone, when usage is missing; or nothing but a released claim, when the request is not in
      the log or the sums are not safe. */
  ghost predicate BillingDone(s: State, t: State, id: nat, p: Period) {
    var sc := Scope(id, true);
    var rows := PeriodRows(s.log, p.orgId, p.start, p.end);
    if !(exists r :: r in s.log && r.requestId == id) then
      t.ledger == s.ledger - {sc} && t.rollups == s.rollups && t.outcomes == s.outcomes
    else if (exists r :: r in s.log && r.requestId == id && !r.UsageKnown())
      || (exists r :: r in rows && !r.UsageKnown()) then
      && t.ledger == s.ledger[sc := COMPLETE] && t.rollups == s.rollups
      && t.outcomes == s.outcomes[sc := Some(USAGE_UNAVAILABLE)]
    else if Total(rows, Tokens) > MAX_SAFE_INTEGER || |rows| > MAX_SAFE_INTEGER then
      t.ledger == s.ledger - {sc} && t.rollups == s.rollups && t.outcomes == s.outcomes
    else
      && t.ledger == s.ledger[sc := COMPLETE]
      && t.rollups == s.rollups[p := Pending(p, |s.log|, Rollup(Total(rows, Tokens), |rows|))]
      && t.outcomes == s.outcomes[sc := Some(APPLIED)]
  }

  function BillingWork(w: nat, p: Period): seq<Event> {
    [FindUsage(w, p), Event.Aggregate(w), Write(w), Complete(w, false), Release(w, false)]
  }

  ghost predicate IsPeriodOf(log: seq<Row>, id: nat, p: Period) {
    forall r :: r in log && r.requestId == id ==> r.orgId == p.orgId && p.start <= r.createdAt < p.end
  }

  /** A billing job that nothing disturbs does its work, or leaves everything as it was. */
  lemma {:induction false} BillingJobEnds(s: State, w: nat, retry: bool, id: nat, p: Period)
    requires w !in s.workers && ValidLog(s.log) && IsPeriodOf(s.log, id, p)
    ensures var t := Run(s, Entering(w, BillingJob(retry), id) + BillingWork(w, p));
            && t.log == s.log && w in t.workers && t.workers[w].phase == Exited
            && if Enters(s, BillingJob(retry), id) then BillingDone(s, t, id, p)
               else t.ledger == s.ledger && t.rollups == s.rollups && t.outcomes == s.outcomes
  {
    var s1 := JobEnters(s, w, BillingJob(retry), id, BillingWork(w, p));
    if Enters(s, BillingJob(retry), id) {
      BillingWorks(s1, w, id, p);
      DoneFromClaim(s, s1, Run(s1, BillingWork(w, p)), id, p);
    } else {
      IdleWorks(s1, w, p);
    }
  }

  lemma DoneFromClaim(s: State, s1: State, t: State, id: nat, p: Period)
    requires s1.log == s.log && s1.rollups == s.rollups && s1.outcomes == s.outcomes
    requires s1.ledger == s.ledger[Scope(id, true) := PROCESSING] && BillingDone(s1, t, id, p)
    ensures BillingDone(s, t, id, p)
  {
    var sc := Scope(id, true);
    assert s1.ledger - {sc} == s.ledger - {sc} && s1.ledger[sc := COMPLETE] == s.ledger[sc := COMPLETE];
  }

  lemma {:induction false} FirstFoundInLog(log: seq<Row>, id: nat)
    ensures var r := FindRequest(log, id);
            && (r.Some? <==> exists x :: x in log && x.requestId == id)
            && (r.Some? ==> r.value in log && r.value.requestId == id)
  {
    if log != [] { FirstFoundInLog(log[1..], id); }
  }

  lemma {:induction false} WorkRuns(s: State, w: nat, p: Period)
    ensures Run(s, BillingWork(w, p))
         == Exec(Exec(Exec(Exec(Exec(s, FindUsage(w, p)), Event.Aggregate(w)), Write(w)), Complete(w, false)),
             Release(w, false))
  {
    var es := BillingWork(w, p);
    assert es == [es[0], es[1], es[2]] + [es[3], es[4]];
    RunThree(s, es[0], es[1], es[2], [es[3], es[4]]);
    RunTwo(Exec(Exec(Exec(s, es[0]), es[1]), es[2]), es[3], es[4]);
  }

  lemma {:induction false} IdleWorks(s: State, w: nat, p: Period)
    requires w in s.workers && s.workers[w].phase == Exited
    ensures Run(s, BillingWork(w, p)) == s
  {
    WorkRuns(s, w, p);
    ExitedStays(s, w, FindUsage(w, p));
    ExitedStays(s, w, Event.Aggregate(w));
    ExitedStays(s, w, Write(w));
    ExitedStays(s, w, Complete(w, false));
    ExitedStays(s, w, Release(w, false));
  }

  lemma ExitedStays(s: State, w: nat, e: Event)
    requires w in s.workers && s.workers[w].phase == Exited
    requires (e.FindUsage? || e.Aggregate? || e.Write? || e.Complete? || e.Release?) && e.w == w
    ensures Exec(s, e) == s
  {
  }

  /** The work up to the completion, and what is left to do. */
  lemma {:induction false} BillingWorks(s: State, w: nat, id: nat, p: Period)
    requires w in s.workers && s.workers[w].kind.BillingJob? && s.workers[w].scope == Scope(id, true)
    requires s.workers[w].phase == Working && Claimed(s.ledger, Scope(id, true)) && ValidLog(s.log)
             && IsPeriodOf(s.log, id, p)
    ensures var t := Run(s, BillingWork(w, p));
            && t.log == s.log && w in t.workers && t.workers[w].phase == Exited && BillingDone(s, t, id, p)
  {
    FirstFoundInLog(s.log, id);
    OneRowPerRequest(s.log, id);
    var s1 := WorkFinds(s, w, id, p);
    match s1.workers[w].phase {
      case Releasing => Releases(s1, w);
      case Completing(_) => Completes(s1, w);
      case Aggregating(_) => AggregationEnds(s1, w, p);
    }
  }

  /** The first step of the work looks at the request's own row. */
  lemma {:induction false} WorkFinds(s: State, w: nat, id: nat, p: Period) returns (t: State)
    requires w in s.workers && s.workers[w].kind.BillingJob? && s.workers[w].scope == Scope(id, true)
    requires s.workers[w].phase == Working && IsPeriodOf(s.log, id, p)
    ensures Run(s, BillingWork(w, p))
         == Exec(Exec(Exec(Exec(t, Event.Aggregate(w)), Write(w)), Complete(w, false)), Release(w, false))
    ensures var own := FindRequest(s.log, id);
            t == Move(s, w, if own.None? then Releasing
                            else if !own.value.UsageKnown() then Completing(Some(USAGE_UNAVAILABLE))
                              else Aggregating(p))
  {
    WorkRuns(s, w, p);
    FirstFoundInLog(s.log, id);
    t := Exec(s, FindUsage(w, p));
  }

  /** From the aggregation on. */
  lemma AggregationEnds(s: State, w: nat, p: Period)
    requires w in s.workers && s.workers[w].kind.BillingJob? && s.workers[w].phase == Aggregating(p)
    requires Claimed(s.ledger, s.workers[w].scope)
    ensures var t := Exec(Exec(Exec(Exec(s, Event.Aggregate(w)), Write(w)), Complete(w, false)), Release(w, false));
            var sc, rows := s.workers[w].scope, PeriodRows(s.log, p.orgId, p.start, p.end);
            && t.log == s.log && w in t.workers && t.workers[w].phase == Exited
            && if exists r :: r in rows && !r.UsageKnown() then
                 && t.ledger == s.ledger[sc := COMPLETE] && t.rollups == s.rollups
                 && t.outcomes == s.outcomes[sc := Some(USAGE_UNAVAILABLE)]
               else if Total(rows, Tokens) > MAX_SAFE_INTEGER || |rows| > MAX_SAFE_INTEGER then
                 t.ledger == s.ledger - {sc} && t.rollups == s.rollups && t.outcomes == s.outcomes
               else
                 && t.ledger == s.ledger[sc := COMPLETE] && t.outcomes == s.outcomes[sc := Some(APPLIED)]
                 && t.rollups == s.rollups[p := Pending(p, |s.log|, Rollup(Total(rows, Tokens), |rows|))]
  {
    var s2 := AggregatesAndWrites(s, w, p);
    if s2.workers[w].phase.Completing? { CompletesNow(s2, w); } else { ReleasesNow(s2, w); }
  }

  lemma OneRowPerRequest(log: seq<Row>, id: nat)
    requires ValidLog(log)
    ensures forall a, b :: a in log && b in log && a.requestId == id && b.requestId == id ==> a == b
  {
  }

  lemma CompletesNow(s: State, w: nat)
    requires w in s.workers && s.workers[w].phase.Completing? && Claimed(s.ledger, s.workers[w].scope)
    ensures var t, sc := Exec(Exec(s, Complete(w, false)), Release(w, false)), s.workers[w].scope;
            && t.log == s.log && w in t.workers && t.workers[w].phase == Exited
            && t.ledger == s.ledger[sc := COMPLETE] && t.rollups == s.rollups
            && t.outcomes == s.outcomes[sc := s.workers[w].phase.outcome]
  {
    var s1 := Exec(s, Complete(w, false));
    assert w in s1.workers && s1.workers[w].phase == Exited;
  }

  lemma ReleasesNow(s: State, w: nat)
    requires w in s.workers && s.workers[w].phase == Releasing && Claimed(s.ledger, s.workers[w].scope)
    ensures var t, sc := Exec(Exec(s, Complete(w, false)), Release(w, false)), s.workers[w].scope;
            && t.log == s.log && w in t.workers && t.workers[w].phase == Exited
            && t.ledger == s.ledger - {sc} && t.rollups == s.rollups && t.outcomes == s.outcomes
  {
    assert Exec(s, Complete(w, false)) == s;
  }

  lemma Completes(s: State, w: nat)
    requires w in s.workers && s.workers[w].phase.Completing?
    ensures Exec(Exec(s, Event.Aggregate(w)), Write(w)) == s
    ensures Claimed(s.ledger, s.workers[w].scope) ==>
              var t, sc := Exec(Exec(s, Complete(w, false)), Release(w, false)), s.workers[w].scope;
              && t.log == s.log && w in t.workers && t.workers[w].phase == Exited
              && t.ledger == s.ledger[sc := COMPLETE] && t.rollups == s.rollups
              && t.outcomes == s.outcomes[sc := s.workers[w].phase.outcome]
  {
    assert Exec(s, Event.Aggregate(w)) == s && Exec(s, Write(w)) == s;
    if Claimed(s.ledger, s.workers[w].scope) { CompletesNow(s, w); }
  }

  lemma Releases(s: State, w: nat)
    requires w in s.workers && s.workers[w].phase == Releasing
    ensures Exec(Exec(s, Event.Aggregate(w)), Write(w)) == s
    ensures Claimed(s.ledger, s.workers[w].scope) ==>
              var t, sc := Exec(Exec(s, Complete(w, false)), Release(w, false)), s.workers[w].scope;
              && t.log == s.log && w in t.workers && t.workers[w].phase == Exited
              && t.ledger == s.ledger - {sc} && t.rollups == s.rollups && t.outcomes == s.outcomes
  {
    assert Exec(s, Event.Aggregate(w)) == s && Exec(s, Write(w)) == s;
    if Claimed(s.ledger, s.workers[w].scope) { ReleasesNow(s, w); }
  }

  /** A rollup is written exactly when the period calls for one. */
  lemma AggregatesAndWrites(s: State, w: nat, p: Period) returns (t: State)
    requires w in s.workers && s.workers[w].kind.BillingJob? && s.workers[w].phase == Aggregating(p)
    ensures t == Exec(Exec(s, Event.Aggregate(w)), Write(w))
    ensures var rows := PeriodRows(s.log, p.orgId, p.start, p.end);
            && t.log == s.log && t.ledger == s.ledger && t.outcomes == s.outcomes
            && w in t.workers && t.workers[w].scope == s.workers[w].scope
            && if exists r :: r in rows && !r.UsageKnown() then
                 t.workers[w].phase == Completing(Some(USAGE_UNAVAILABLE)) && t.rollups == s.rollups
               else if Total(rows, Tokens) > MAX_SAFE_INTEGER || |rows| > MAX_SAFE_INTEGER then
                 t.workers[w].phase == Releasing && t.rollups == s.rollups
               else
                 && t.workers[w].phase == Completing(Some(APPLIED))
                 && t.rollups == s.rollups[p := Pending(p, |s.log|, Rollup(Total(rows, Tokens), |rows|))]
  {
    var s1 := Exec(s, Event.Aggregate(w));
    assert w in s1.workers && s1 == Move(s, w, s1.workers[w].phase);
    t := Exec(s1, Write(w));
  }

  /** An analytics job that nothing disturbs completes its row, or finds one and leaves it. */
  lemma {:induction false} AnalyticsJobEnds(s: State, w: nat, id: nat)
    requires w !in s.workers
    ensures var t := Run(s, Entering(w, AnalyticsJob, id) + [UpdateAnalytics(w), Complete(w, false)]);
            var sc := Scope(id, false);
            && t.ledger == (if sc in s.ledger then s.ledger else s.ledger[sc := COMPLETE])
            && t.rollups == s.rollups && w in t.workers && t.workers[w].phase == Exited
  {
    var s1 := JobEnters(s, w, AnalyticsJob, id, [UpdateAnalytics(w), Complete(w, false)]);
    RunTwo(s1, UpdateAnalytics(w), Complete(w, false));
    var s2 := Exec(s1, UpdateAnalytics(w));
    if Enters(s, AnalyticsJob, id) {
      assert s2 == Move(s1, w, Completing(None));
    } else {
      assert s2 == s1 && Exec(s1, Complete(w, false)) == s1;
    }
  }

  /** A budget check that nothing disturbs refreshes the rollup exactly when one is due, and touches no ledger. */
  lemma {:induction false} BudgetCheckEnds(s: State, w: nat, p: Period)
    requires w !in s.workers
    ensures var t, due := Run(s, [CheckBudget(w, p), Event.Aggregate(w), Write(w)]), Due(s.log, p);
            && t.ledger == s.ledger && t.outcomes == s.outcomes
            && t.rollups == if due.Some? then s.rollups[p := Pending(p, |s.log|, due.value)] else s.rollups
  {
    var es := [CheckBudget(w, p), Event.Aggregate(w), Write(w)];
    assert es == es + [];
    RunThree(s, es[0], es[1], es[2], []);
    var s1 := Exec(s, es[0]);
    assert s1 == s.(workers := s.workers[w := Worker(BudgetCheck, Scope(0, true), Aggregating(p))]);
    var s2 := Exec(s1, es[1]);
    assert w in s2.workers && s2 == Move(s1, w, s2.workers[w].phase);
  }

  /** A failing job gives its claim back, unless that fails as well; a row that is complete by then stays. */
  lemma FailingJobEnds(s: State, w: nat, fails: bool)
    requires w in s.workers && Inside(s.workers[w])
    ensures var t, sc := Exec(Exec(s, Fail(w)), Release(w, fails)), s.workers[w].scope;
            && t.ledger == (if !fails && Claimed(s.ledger, sc) then s.ledger - {sc} else s.ledger)
            && t.rollups == s.rollups && t.outcomes == s.outcomes
            && w in t.workers && t.workers[w].phase == Exited
  {
    var s1 := Exec(s, Fail(w));
    assert s1 == Move(s, w, Releasing);
  }

  /** A completion whose reply is lost makes the job fail, but its row stays complete; one that finds no claim changes
      nothing. */
  lemma LostCompletionEnds(s: State, w: nat, replyLost: bool)
    requires w in s.workers && s.workers[w].phase.Completing?
    requires replyLost || !Claimed(s.ledger, s.workers[w].scope)
    ensures var t, sc := Exec(s, Complete(w, replyLost)), s.workers[w].scope;
            && w in t.workers && t.workers[w].phase == Releasing && Exec(t, Release(w, false)).ledger == t.ledger
            && t.ledger == (if sc in s.ledger && s.ledger[sc] == PROCESSING then s.ledger[sc := COMPLETE] else s.ledger)
            && t.rollups == s.rollups
  {
    var t := Exec(s, Complete(w, replyLost));
    assert w in t.workers && t.workers[w].phase == Releasing;
  }
}
