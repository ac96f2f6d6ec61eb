/**
 The per-provider circuit breaker.  An operation begins with `PrepareRequest` and ends,
 any time later and in any order with other operations, with its outcome; it keeps the
 record it began on even when the breaker has been reset in between.
 */
module CircuitBreaker {
  import opened Prelude
  import opened ProviderRetry

  datatype CircuitState = CLOSED | OPEN | HALF_OPEN

  datatype Rec = Rec(state: CircuitState, failureCount: nat, openedAt: Option<int>, lastFailureAt: Option<int>,
      trials: nat)

  const Fresh := Rec(CLOSED, 0, None, None, 0)

  datatype BreakerPolicy = BreakerPolicy(failureThreshold: int, cooldownMs: int, halfOpenMaxTrials: int)
  {
    predicate Valid() { failureThreshold >= 1 && cooldownMs >= 1 && halfOpenMaxTrials >= 1 }
  }

  datatype Result = Succeeds | Fails(error: Error)

  // ---------------------------------------------------------------------
  // What one step does to one record
  // ---------------------------------------------------------------------

  predicate CooldownElapsed(p: BreakerPolicy, r: Rec, now: int) {
    r.openedAt.Some? && now - r.openedAt.value >= p.cooldownMs
  }

  predicate Admits(p: BreakerPolicy, r: Rec, now: int) {
    match r.state
    case CLOSED => true
    case OPEN => CooldownElapsed(p, r, now) && 0 < p.halfOpenMaxTrials
    case HALF_OPEN => r.trials < p.halfOpenMaxTrials
  }

  function Begun(p: BreakerPolicy, r: Rec, now: int): Rec {
    var r1 := if r.state == OPEN && CooldownElapsed(p, r, now) then r.(state := HALF_OPEN, trials := 0) else r;
    if r1.state == HALF_OPEN && r1.trials < p.halfOpenMaxTrials then r1.(trials := r1.trials + 1) else r1
  }

  function Opened(r: Rec, now: int): Rec { r.(state := OPEN, openedAt := Some(now), trials := 0) }

  function Failed(p: BreakerPolicy, r: Rec, e: Error, now: int): Rec {
    if !ShouldRetry(e) then r
    else
      var r1 := r.(lastFailureAt := Some(now));
      if r1.state == HALF_OPEN then Opened(r1, now)
      else
        var r2 := r1.(failureCount := r1.failureCount + 1);
        if r2.failureCount >= p.failureThreshold then Opened(r2, now) else r2
  }

  function Settled(r: Rec): Rec {
    if r.state == HALF_OPEN && r.trials > 0 then r.(trials := r.trials - 1) else r
  }

  function Ended(p: BreakerPolicy, r: Rec, result: Result, now: int): Rec {
    Settled(if result.Succeeds? then Fresh else Failed(p, r, result.error, now))
  }

  /** A record's fields: open or half open exactly when it has an opening time and enough failures, and
      trial slots are in use only while half open and never beyond the limit. */
  predicate RecOk(p: BreakerPolicy, r: Rec) {
    && (r.state != CLOSED <==> r.openedAt.Some?)
    && (r.openedAt.Some? <==> r.failureCount >= p.failureThreshold)
    && (r.state != HALF_OPEN ==> r.trials == 0)
    && r.trials <= p.halfOpenMaxTrials
  }

  lemma RecStepsOk(p: BreakerPolicy, r: Rec, result: Result, now: int)
    requires p.Valid() && RecOk(p, r)
    ensures RecOk(p, Begun(p, r, now)) && RecOk(p, Ended(p, r, result, now)) && RecOk(p, Fresh)
    ensures !Admits(p, r, now) ==> Begun(p, r, now) == r
  {
  }

  // ---------------------------------------------------------------------
  // The breaker object
  // ---------------------------------------------------------------------

  class CircuitRecord {
    var state: CircuitState
    var failureCount: nat
    var openedAt: Option<int>
    var lastFailureAt: Option<int>
    var halfOpenTrialCount: nat

    constructor()
      ensures Value() == Fresh
    {
      state, failureCount, openedAt, lastFailureAt, halfOpenTrialCount := CLOSED, 0, None, None, 0;
    }

    function Value(): Rec
      reads this
    {
      Rec(state, failureCount, openedAt, lastFailureAt, halfOpenTrialCount)
    }
  }

  class ProviderCircuitBreaker {
    const policy: BreakerPolicy
    var records: map<nat, CircuitRecord>

    ghost predicate Valid()
      reads this, records.Values
    {
      && policy.Valid()
      && (forall p :: p in records ==> RecOk(policy, records[p].Value()))
      && forall p, q :: p in records && q in records && p != q ==> records[p] != records[q]
    }

    constructor(policy: BreakerPolicy)
      requires policy.Valid()
      ensures Valid() && this.policy == policy && records == map[]
    {
      this.policy := policy;
      records := map[];
    }

    method GetRecord(provider: nat) returns (r: CircuitRecord)
      requires Valid()
      modifies this
      ensures Valid() && provider in records && records[provider] == r
      ensures provider in old(records) ==> records == old(records)
      ensures provider !in old(records) ==> fresh(r) && r.Value() == Fresh && records == old(records)[provider := r]
      ensures unchanged(old(records.Values))
    {
      if provider in records {
        r := records[provider];
      } else {
        r := new CircuitRecord();
        RecStepsOk(policy, Fresh, Succeeds, 0);
        records := records[provider := r];
      }
    }

    /** Begins an operation, or rejects it and leaves the record as it was. */
    method PrepareRequest(provider: nat, now: int) returns (r: CircuitRecord, admitted: bool)
      requires Valid()
      modifies this, records.Values
      ensures Valid() && provider in records && records[provider] == r
      ensures var before := if provider in old(records) then old(records[provider].Value()) else Fresh;
              && (admitted <==> Admits(policy, before, now))
              && r.Value() == Begun(policy, before, now)
              && (!admitted ==> r.Value() == before)
      ensures forall q :: q in old(records) && q != provider ==>
                q in records && records[q] == old(records[q]) && records[q].Value() == old(records[q].Value())
    {
      r := GetRecord(provider);
      ghost var before := r.Value();
      RecStepsOk(policy, before, Succeeds, now);
      if r.state == OPEN {
        if r.openedAt.Some? && now - r.openedAt.value >= policy.cooldownMs {
          r.state := HALF_OPEN;
          r.halfOpenTrialCount := 0;
        } else {
          return r, false;
        }
      }
      if r.state == HALF_OPEN {
        if r.halfOpenTrialCount >= policy.halfOpenMaxTrials {
          return r, false;
        }
        r.halfOpenTrialCount := r.halfOpenTrialCount + 1;
      }
      admitted := true;
    }

    /** Ends an operation on the record it began on; that record need not be the provider's current one. */
    method FinishRequest(r: CircuitRecord, result: Result, now: int)
      requires policy.Valid()
      modifies r
      ensures r.Value() == Ended(policy, old(r.Value()), result, now)
    {
      if result.Succeeds? {
        r.state, r.failureCount, r.halfOpenTrialCount := CLOSED, 0, 0;
        r.openedAt, r.lastFailureAt := None, None;
      } else if ShouldRetry(result.error) {
        r.lastFailureAt := Some(now);
        if r.state == HALF_OPEN {
          OpenCircuit(r, now);
        } else {
          r.failureCount := r.failureCount + 1;
          if r.failureCount >= policy.failureThreshold {
            OpenCircuit(r, now);
          }
        }
      }
      if r.state == HALF_OPEN && r.halfOpenTrialCount > 0 {
        r.halfOpenTrialCount := r.halfOpenTrialCount - 1;
      }
    }

    method OpenCircuit(r: CircuitRecord, now: int)
      modifies r
      ensures r.Value() == Opened(old(r.Value()), now)
    {
      r.state := OPEN;
      r.openedAt := Some(now);
      r.halfOpenTrialCount := 0;
    }

    method IsOpen(provider: nat, now: int) returns (open: bool)
      requires Valid()
      modifies this
      ensures Valid()
      ensures open <==> provider in old(records) && old(records[provider].Value()).state == OPEN
                        && !Admits(policy, old(records[provider].Value()), now)
      ensures unchanged(old(records.Values))
    {
      var r := GetRecord(provider);
      open := r.state == OPEN && !(r.openedAt.Some? && now - r.openedAt.value >= policy.cooldownMs);
    }

    method Reset(provider: Option<nat>)
      requires Valid()
      modifies this
      ensures Valid()
      ensures records == if provider.None? then map[] else old(records) - {provider.value}
      ensures unchanged(old(records.Values))
    {
      if provider.None? {
        records := map[];
      } else {
        records := records - {provider.value};
      }
    }
  }

  // ---------------------------------------------------------------------
  // Many operations in flight
  // ---------------------------------------------------------------------

  /** `period` counts how often the record went from open to half open. */
  datatype Entry = Entry(rec: Rec, period: nat)

  /** An operation in flight: the record it began on and, if it was admitted as a trial, in which period. */
  datatype Op = Op(entry: nat, trial: Option<nat>)

  datatype State = State(entries: map<nat, Entry>, current: map<nat, nat>, ops: map<nat, Op>, seen: set<nat>)

  const Init := State(map[], map[], map[], {})

  /** Any access to a provider first looks its record up, creating it when there is none (`Locate`). */
  datatype Event =
    | Locate(provider: nat, newEntry: nat)
    | Begin(op: nat, provider: nat, now: int)
    | End(op: nat, result: Result, now: int)
    | Reset(provider: nat)

  function ExecLocate(s: State, provider: nat, newEntry: nat): State {
    if provider in s.current || newEntry in s.entries then s
    else s.(entries := s.entries[newEntry := Entry(Fresh, 0)], current := s.current[provider := newEntry])
  }

  function NextEntry(p: BreakerPolicy, e: Entry, now: int): Entry {
    var after := Begun(p, e.rec, now);
    Entry(after, e.period + (if e.rec.state == OPEN && after.state == HALF_OPEN then 1 else 0))
  }

  function ExecBegin(p: BreakerPolicy, s: State, op: nat, provider: nat, now: int): State {
    if op in s.seen || provider !in s.current || s.current[provider] !in s.entries then s
    else
      var id := s.current[provider];
      var after := NextEntry(p, s.entries[id], now);
      var s1 := s.(entries := s.entries[id := after]);
      if !Admits(p, s.entries[id].rec, now) then s1
      else s1.(ops := s.ops[op := Op(id, if after.rec.state == HALF_OPEN then Some(after.period) else None)],
            seen := s.seen + {op})
  }

  function ExecEnd(p: BreakerPolicy, s: State, op: nat, result: Result, now: int): State {
    if op !in s.ops || s.ops[op].entry !in s.entries then s
    else
      var id := s.ops[op].entry;
      s.(entries := s.entries[id := s.entries[id].(rec := Ended(p, s.entries[id].rec, result, now))],
          ops := s.ops - {op})
  }

  function Exec(p: BreakerPolicy, s: State, e: Event): State {
    match e
    case Locate(provider, newEntry) => ExecLocate(s, provider, newEntry)
    case Begin(op, provider, now) => ExecBegin(p, s, op, provider, now)
    case End(op, result, now) => ExecEnd(p, s, op, result, now)
    case Reset(provider) => s.(current := s.current - {provider})
  }

  function Run(p: BreakerPolicy, s: State, es: seq<Event>): State
    decreases |es|
  {
    if es == [] then s else Run(p, Exec(p, s, es[0]), es[1..])
  }

  /** The operations admitted as trials in the record's current half-open period and still in flight. */
  function Trials(s: State, id: nat): set<nat>
    requires id in s.entries
  {
    set op | op in s.ops && s.ops[op] == Op(id, Some(s.entries[id].period))
  }

  predicate EntryOk(p: BreakerPolicy, s: State, id: nat) {
    && id in s.entries
    && RecOk(p, s.entries[id].rec)
    && s.entries[id].rec.trials <= |Trials(s, id)|
  }

  predicate OpOk(s: State, op: nat) {
    && op in s.ops && op in s.seen && s.ops[op].entry in s.entries
    && (s.ops[op].trial.Some? ==> s.ops[op].trial.value <= s.entries[s.ops[op].entry].period)
  }

  predicate Inv(p: BreakerPolicy, s: State) {
    && (forall id :: id in s.entries ==> EntryOk(p, s, id))
    && (forall op :: op in s.ops ==> OpOk(s, op))
    && (forall q :: q in s.current ==> s.current[q] in s.entries)
    && (forall q, r :: q in s.current && r in s.current && q != r ==> s.current[q] != s.current[r])
  }

  lemma Removed(xs: set<nat>, x: nat)
    ensures |xs - {x}| >= |xs| - 1 && (x !in xs ==> xs - {x} == xs)
  {
    if x in xs { assert |xs - {x}| == |xs| - 1; }
  }

  lemma EndKeepsEntry(p: BreakerPolicy, s: State, op: nat, result: Result, now: int, id: nat)
    requires p.Valid() && op in s.ops && id in s.entries && EntryOk(p, s, id) && s.ops[op].entry in s.entries
    ensures EntryOk(p, ExecEnd(p, s, op, result, now), id)
  {
    RecStepsOk(p, s.entries[id].rec, result, now);
    assert Trials(ExecEnd(p, s, op, result, now), id) == Trials(s, id) - {op};
    Removed(Trials(s, id), op);
  }

  lemma EndKeepsInv(p: BreakerPolicy, s: State, op: nat, result: Result, now: int)
    requires p.Valid() && Inv(p, s)
    ensures Inv(p, ExecEnd(p, s, op, result, now))
  {
    if op in s.ops {
      assert OpOk(s, op);
      var s' := ExecEnd(p, s, op, result, now);
      forall id | id in s'.entries ensures EntryOk(p, s', id) { EndKeepsEntry(p, s, op, result, now, id); }
      forall o | o in s'.ops ensures OpOk(s', o) { assert OpOk(s, o); }
    }
  }

  /** Nothing points at an id that is not in use. */
  lemma LocateKeepsInv(p: BreakerPolicy, s: State, provider: nat, newEntry: nat)
    requires p.Valid() && Inv(p, s)
    ensures Inv(p, ExecLocate(s, provider, newEntry))
  {
    var s' := ExecLocate(s, provider, newEntry);
    forall id | id in s'.entries ensures EntryOk(p, s', id) {
      if id in s.entries { assert EntryOk(p, s, id); assert Trials(s', id) == Trials(s, id); }
    }
    forall o | o in s'.ops ensures OpOk(s', o) { assert OpOk(s, o); }
  }

  /** How a begin changes the in-flight trials of one record. */
  lemma BeginTrials(p: BreakerPolicy, s: State, op: nat, provider: nat, now: int, id: nat)
    requires op !in s.seen && op !in s.ops && provider in s.current && s.current[provider] in s.entries
             && id in s.entries
    ensures var s' := ExecBegin(p, s, op, provider, now);
            && id in s'.entries
            && (s'.entries[id].period == s.entries[id].period ==>
                  Trials(s', id) == Trials(s, id)
                    + (if op in s'.ops && s'.ops[op] == Op(id, Some(s.entries[id].period)) then {op} else {}))
            && (op in s'.ops && s'.ops[op].entry == id && s'.entries[id].rec.state == HALF_OPEN ==>
                   op in Trials(s', id))
  {
  }

  lemma BeginKeepsOthers(p: BreakerPolicy, s: State, op: nat, provider: nat, now: int, i: nat)
    requires Inv(p, s) && op !in s.seen && provider in s.current && i in s.entries && i != s.current[provider]
    ensures EntryOk(p, ExecBegin(p, s, op, provider, now), i)
  {
    assert EntryOk(p, s, i);
    assert op !in s.ops by { assert op in s.ops ==> OpOk(s, op); }
    assert Trials(ExecBegin(p, s, op, provider, now), i) == Trials(s, i);
  }

  lemma BeginKeepsOwn(p: BreakerPolicy, s: State, op: nat, provider: nat, now: int)
    requires p.Valid() && Inv(p, s) && op !in s.seen && provider in s.current
    ensures EntryOk(p, ExecBegin(p, s, op, provider, now), s.current[provider])
  {
    var id, s' := s.current[provider], ExecBegin(p, s, op, provider, now);
    assert EntryOk(p, s, id);
    assert op !in s.ops by { assert op in s.ops ==> OpOk(s, op); }
    RecStepsOk(p, s.entries[id].rec, Succeeds, now);
    BeginTrials(p, s, op, provider, now, id);
    if s.entries[id].rec.state != HALF_OPEN && op in Trials(s', id) {
      Removed(Trials(s', id), op);
    }
  }

  lemma BeginKeepsInv(p: BreakerPolicy, s: State, op: nat, provider: nat, now: int)
    requires p.Valid() && Inv(p, s)
    ensures Inv(p, ExecBegin(p, s, op, provider, now))
  {
    if op !in s.seen && provider in s.current {
      var s' := ExecBegin(p, s, op, provider, now);
      forall i | i in s'.entries ensures EntryOk(p, s', i) {
        if i == s.current[provider] {
          BeginKeepsOwn(p, s, op, provider, now);
        } else {
          BeginKeepsOthers(p, s, op, provider, now, i);
        }
      }
      forall o | o in s'.ops ensures OpOk(s', o) { assert o in s.ops ==> OpOk(s, o); }
    }
  }

  lemma ResetKeepsInv(p: BreakerPolicy, s: State, provider: nat)
    requires Inv(p, s)
    ensures Inv(p, Exec(p, s, Reset(provider)))
  {
    var s' := Exec(p, s, Reset(provider));
    forall id | id in s'.entries ensures EntryOk(p, s', id) {
      assert EntryOk(p, s, id);
      assert Trials(s', id) == Trials(s, id);
    }
    forall o | o in s'.ops ensures OpOk(s', o) { assert OpOk(s, o); }
  }

  lemma StepKeepsInv(p: BreakerPolicy, s: State, e: Event)
    requires p.Valid() && Inv(p, s)
    ensures Inv(p, Exec(p, s, e))
  {
    match e
    case Locate(provider, newEntry) => LocateKeepsInv(p, s, provider, newEntry);
    case Begin(op, provider, now) => BeginKeepsInv(p, s, op, provider, now);
    case End(op, result, now) => EndKeepsInv(p, s, op, result, now);
    case Reset(provider) => ResetKeepsInv(p, s, provider);
  }

  lemma {:induction false} RunKeepsInv(p: BreakerPolicy, s: State, es: seq<Event>)
    requires p.Valid() && Inv(p, s)
    ensures Inv(p, Run(p, s, es))
    decreases |es|
  {
    if es != [] {
      StepKeepsInv(p, s, es[0]);
      RunKeepsInv(p, Exec(p, s, es[0]), es[1..]);
    }
  }

  /** In every interleaving every record is consistent, and its used trial slots never exceed the trials of
      the current half-open period that are still in flight: no slot leaks. */
  lemma {:induction false} RecordsAreConsistent(p: BreakerPolicy, es: seq<Event>, id: nat)
    requires p.Valid() && id in Run(p, Init, es).entries
    ensures var s := Run(p, Init, es); RecOk(p, s.entries[id].rec) && s.entries[id].rec.trials <= |Trials(s, id)|
  {
    RunKeepsInv(p, Init, es);
    assert EntryOk(p, Run(p, Init, es), id);
  }

  /** A breaker with nothing in flight admits the next operation as soon as its cooldown is over. */
  lemma IdleBreakerAdmits(p: BreakerPolicy, s: State, provider: nat, op: nat, now: int)
    requires p.Valid() && Inv(p, s) && provider in s.current && op !in s.seen
    requires forall o :: o in s.ops ==> s.ops[o].entry != s.current[provider]
    requires var r := s.entries[s.current[provider]].rec; r.state == OPEN ==> now >= r.openedAt.value + p.cooldownMs
    ensures op in Exec(p, s, Begin(op, provider, now)).ops
  {
    var id := s.current[provider];
    assert EntryOk(p, s, id);
    assert Trials(s, id) == {};
  }

  /** A rejected operation changes no record: it is not counted as a failure. */
  lemma RejectionCountsNothing(p: BreakerPolicy, s: State, provider: nat, op: nat, now: int)
    requires p.Valid() && Inv(p, s) && provider in s.current && op !in s.seen
    requires op !in Exec(p, s, Begin(op, provider, now)).ops
    ensures Exec(p, s, Begin(op, provider, now)) == s
  {
    var id := s.current[provider];
    assert EntryOk(p, s, id);
    RecStepsOk(p, s.entries[id].rec, Succeeds, now);
    assert s.entries[id := s.entries[id]] == s.entries;
  }

  // ---------------------------------------------------------------------
  // Reset
  // ---------------------------------------------------------------------

  /** None of these operations began on the provider's current record. */
  predicate Detached(s: State, olds: set<nat>, provider: nat) {
    && olds <= s.seen
    && (provider in s.current ==> forall op :: op in olds && op in s.ops ==> s.ops[op].entry != s.current[provider])
  }

  lemma StepKeepsDetached(p: BreakerPolicy, s: State, e: Event, olds: set<nat>, provider: nat)
    requires Inv(p, s) && Detached(s, olds, provider)
    ensures Detached(Exec(p, s, e), olds, provider)
  {
    match e
    case Locate(q, newEntry) =>
      forall op | op in olds && op in s.ops ensures newEntry !in s.entries ==> s.ops[op].entry != newEntry {
        assert OpOk(s, op);
      }
    case _ =>
  }

  lemma {:induction false} ResetDetaches(p: BreakerPolicy, s: State, es: seq<Event>, olds: set<nat>, provider: nat)
    requires p.Valid() && Inv(p, s) && Detached(s, olds, provider)
    ensures Detached(Run(p, s, es), olds, provider)
    decreases |es|
  {
    if es != [] {
      StepKeepsInv(p, s, es[0]);
      StepKeepsDetached(p, s, es[0], olds, provider);
      ResetDetaches(p, Exec(p, s, es[0]), es[1..], olds, provider);
    }
  }

  lemma EndLeavesOthers(p: BreakerPolicy, s: State, op: nat, result: Result, now: int, id: nat)
    requires p.Valid() && id in s.entries && (op in s.ops ==> s.ops[op].entry != id)
    ensures id in Exec(p, s, End(op, result, now)).entries
    ensures Exec(p, s, End(op, result, now)).entries[id] == s.entries[id]
  {
  }

  /** However long it takes them, operations begun before a reset never touch the record in use after it. */
  lemma {:induction false} CompletionsBeforeResetAreHarmless(p: BreakerPolicy, s: State, es: seq<Event>,
      provider: nat, op: nat, result: Result, now: int)
    requires p.Valid() && Inv(p, s) && op in s.ops
    ensures var s' := Run(p, Exec(p, s, Reset(provider)), es);
            provider in s'.current ==>
              && s'.current[provider] in s'.entries && s'.current[provider] in Exec(p, s', End(op, result, now)).entries
              && Exec(p, s', End(op, result, now)).entries[s'.current[provider]] == s'.entries[s'.current[provider]]
  {
    var s0 := Exec(p, s, Reset(provider));
    StepKeepsInv(p, s, Reset(provider));
    assert OpOk(s, op);
    ResetDetaches(p, s0, es, {op}, provider);
    RunKeepsInv(p, s0, es);
    var s' := Run(p, s0, es);
    if provider in s'.current { EndLeavesOthers(p, s', op, result, now, s'.current[provider]); }
  }

  // ---------------------------------------------------------------------
  // A record's state is told by what happened on it
  // ---------------------------------------------------------------------

  /** What counts of a record's past: the counted failures since it was made or last saw a success, when the last of
      them came, and whether an operation has come after the cooldown that followed it. */
  datatype Story = Story(failures: nat, last: Option<int>, probed: bool)

  const Blank := Story(0, None, false)

  function Told(p: BreakerPolicy, y: Story, s: State, e: Event, id: nat): Story {
    match e
    case End(op, Succeeds, _) => if op in s.ops && s.ops[op].entry == id then Blank else y
    case End(op, Fails(error), now) =>
      if op in s.ops && s.ops[op].entry == id && Transient(error) then Story(y.failures + 1, Some(now), false) else y
    case Begin(op, provider, now) =>
      if op !in s.seen && provider in s.current && s.current[provider] == id && y.failures >= p.failureThreshold
         && y.last.Some? && now >= y.last.value + p.cooldownMs
      then y.(probed := true) else y
    case _ => y
  }

  /** The record is closed while fewer failures than the threshold have come since its last success, and otherwise open
      from the last of them on, until an operation comes after the cooldown. */
  predicate Tells(p: BreakerPolicy, y: Story, r: Rec) {
    && r.state == (if y.failures < p.failureThreshold then CLOSED else if y.probed then HALF_OPEN else OPEN)
    && (r.state == CLOSED ==> r.failureCount == y.failures)
    && r.lastFailureAt == y.last
    && r.openedAt == (if y.failures < p.failureThreshold then None else y.last)
    && (y.failures > 0 <==> y.last.Some?)
    && (y.failures < p.failureThreshold ==> !y.probed)
  }

  function StoryOf(p: BreakerPolicy, y: Story, s: State, es: seq<Event>, id: nat): Story
    decreases |es|
  {
    if es == [] then y else StoryOf(p, Told(p, y, s, es[0], id), Exec(p, s, es[0]), es[1..], id)
  }

  lemma EndTells(p: BreakerPolicy, y: Story, r: Rec, result: Result, now: int)
    requires p.Valid() && RecOk(p, r) && Tells(p, y, r)
    ensures Tells(p, if result.Succeeds? then Blank
                     else if Transient(result.error) then Story(y.failures + 1, Some(now), false) else y,
                  Ended(p, r, result, now))
  {
    if result.Fails? { ShouldRetryIsTransient(result.error); }
  }

  lemma BeginTells(p: BreakerPolicy, y: Story, r: Rec, now: int)
    requires p.Valid() && Tells(p, y, r)
    ensures Tells(p, if y.failures >= p.failureThreshold && y.last.Some? && now >= y.last.value + p.cooldownMs
                     then y.(probed := true) else y,
                  Begun(p, r, now))
  {
  }

  lemma StepTells(p: BreakerPolicy, y: Story, s: State, e: Event, id: nat)
    requires p.Valid() && Inv(p, s) && id in s.entries && Tells(p, y, s.entries[id].rec)
    ensures id in Exec(p, s, e).entries && Tells(p, Told(p, y, s, e, id), Exec(p, s, e).entries[id].rec)
  {
    assert EntryOk(p, s, id);
    match e
    case End(op, result, now) => if op in s.ops { EndTells(p, y, s.entries[id].rec, result, now); }
    case Begin(op, provider, now) => BeginTells(p, y, s.entries[id].rec, now);
    case _ =>
  }

  lemma {:induction false} RunTells(p: BreakerPolicy, y: Story, s: State, es: seq<Event>, id: nat)
    requires p.Valid() && Inv(p, s) && id in s.entries && Tells(p, y, s.entries[id].rec)
    ensures id in Run(p, s, es).entries && Tells(p, StoryOf(p, y, s, es, id), Run(p, s, es).entries[id].rec)
    decreases |es|
  {
    if es != [] {
      StepKeepsInv(p, s, es[0]);
      StepTells(p, y, s, es[0], id);
      RunTells(p, Told(p, y, s, es[0], id), Exec(p, s, es[0]), es[1..], id);
    }
  }

  /** From the moment a provider's record is made, whatever happens to it and around it: it is closed, open or half open
      as its story tells, and counts just the failures of it. */
  lemma {:induction false} RecordsTellTheirStory(p: BreakerPolicy, s: State, provider: nat, id: nat, es: seq<Event>)
    requires p.Valid() && Inv(p, s) && provider !in s.current && id !in s.entries
    ensures var t := Run(p, Exec(p, s, Locate(provider, id)), es);
            && id in t.entries
            && Tells(p, StoryOf(p, Blank, Exec(p, s, Locate(provider, id)), es, id), t.entries[id].rec)
  {
    StepKeepsInv(p, s, Locate(provider, id));
    RunTells(p, Blank, Exec(p, s, Locate(provider, id)), es, id);
  }

  /** An operation is admitted on a record exactly when it is closed, or when the cooldown after its last failure is
      over and not all slots of its half-open period are taken. */
  lemma AdmissionIff(p: BreakerPolicy, y: Story, r: Rec, now: int)
    requires p.Valid() && Tells(p, y, r)
    ensures Admits(p, r, now) <==>
            || y.failures < p.failureThreshold
            || (y.probed && r.trials < p.halfOpenMaxTrials)
            || (!y.probed && now >= y.last.value + p.cooldownMs)
  {
  }

  /** The events end different operations of the record, each with a counted failure. */
  predicate AllFail(s: State, id: nat, fails: seq<Event>) {
    && (forall i :: 0 <= i < |fails| ==> FailsOn(s, id, fails[i]))
    && forall i, j :: 0 <= i < j < |fails| ==> fails[i].End? && fails[j].End? && fails[i].op != fails[j].op
  }

  predicate FailsOn(s: State, id: nat, e: Event) {
    e.End? && e.result.Fails? && Transient(e.result.error) && e.op in s.ops && s.ops[e.op].entry == id
  }

  lemma RestFails(p: BreakerPolicy, s: State, id: nat, fails: seq<Event>)
    requires AllFail(s, id, fails) && fails != [] && id in s.entries
    ensures AllFail(Exec(p, s, fails[0]), id, fails[1..]) && id in Exec(p, s, fails[0]).entries
  {
    var t := Exec(p, s, fails[0]);
    assert FailsOn(s, id, fails[0]) && t.ops == s.ops - {fails[0].op};
    forall i | 0 <= i < |fails[1..]| ensures FailsOn(t, id, fails[1..][i]) { assert FailsOn(s, id, fails[i + 1]); }
  }

  /** A provider that was never used, or was reset, gets a record of its own and is admitted. */
  lemma NewProviderAdmits(p: BreakerPolicy, s: State, provider: nat, id: nat, op: nat, now: int)
    requires provider !in s.current && id !in s.entries && op !in s.seen
    ensures var t := Exec(p, Exec(p, s, Locate(provider, id)), Begin(op, provider, now));
            && t.current == s.current[provider := id] && t.entries == s.entries[id := Entry(Fresh, 0)]
            && t.ops == s.ops[op := Op(id, None)]
  {
    var s1 := Exec(p, s, Locate(provider, id));
    assert s1.entries[id] == Entry(Fresh, 0) && s1.entries[id := Entry(Fresh, 0)] == s1.entries;
  }

  /** The first operation after the cooldown begins a new half-open period, of which it is the only trial. */
  lemma ProbeStartsPeriod(p: BreakerPolicy, s: State, provider: nat, id: nat, op: nat, now: int)
    requires p.Valid() && Inv(p, s) && provider in s.current && s.current[provider] == id && op !in s.seen
    requires s.entries[id].rec.state == OPEN && CooldownElapsed(p, s.entries[id].rec, now)
    ensures var t := Exec(p, s, Begin(op, provider, now));
            && id in t.entries && t.entries[id].rec.state == HALF_OPEN && t.entries[id].rec.trials == 1
            && Trials(t, id) == {op}
  {
    var t := Exec(p, s, Begin(op, provider, now));
    forall o | o in t.ops ensures t.ops[o] == Op(id, Some(t.entries[id].period)) <==> o == op {
      assert o in s.ops ==> OpOk(s, o);
    }
  }

  /** As many operations as the threshold, all of which fail in a counted way, open a fresh record with the last one's
      failure, and not sooner. */
  lemma {:induction false} FailuresOpen(p: BreakerPolicy, s: State, id: nat, fails: seq<Event>)
    requires p.Valid() && Inv(p, s) && id in s.entries && s.entries[id].rec == Fresh
    requires AllFail(s, id, fails)
    ensures var t := Run(p, s, fails);
            && id in t.entries
            && (t.entries[id].rec.state == OPEN <==> |fails| >= p.failureThreshold)
            && (t.entries[id].rec.state == OPEN ==>
                  fails[|fails| - 1].End? && t.entries[id].rec.openedAt == Some(fails[|fails| - 1].now))
            && (|fails| < p.failureThreshold ==>
                  t.entries[id].rec.state == CLOSED && t.entries[id].rec.failureCount == |fails|)
  {
    RunTells(p, Blank, s, fails, id);
    StoryOfFailures(p, Blank, s, id, fails);
  }

  lemma {:induction false} StoryOfFailures(p: BreakerPolicy, y: Story, s: State, id: nat, fails: seq<Event>)
    requires id in s.entries
    requires AllFail(s, id, fails)
    ensures StoryOf(p, y, s, fails, id)
         == if fails == [] then y
            else assert FailsOn(s, id, fails[|fails| - 1]);
                 Story(y.failures + |fails|, Some(fails[|fails| - 1].now), false)
    decreases |fails|
  {
    if fails != [] {
      assert FailsOn(s, id, fails[0]);
      RestFails(p, s, id, fails);
      StoryOfFailures(p, Told(p, y, s, fails[0], id), Exec(p, s, fails[0]), id, fails[1..]);
    }
  }

  // ---------------------------------------------------------------------
  // Trials beyond the limit
  // ---------------------------------------------------------------------

  /** In flight on the record, but not as a trial of its current period. */
  predicate Foreign(s: State, id: nat, op: nat) {
    id in s.entries && op in s.ops && s.ops[op].entry == id && s.ops[op].trial != Some(s.entries[id].period)
  }

  predicate InPeriod(s: State, id: nat, period: nat) {
    id in s.entries && s.entries[id].rec.state == HALF_OPEN && s.entries[id].period == period
  }

  /** The record stays half open in this period at every step of the run. */
  predicate StaysIn(p: BreakerPolicy, s: State, es: seq<Event>, id: nat, period: nat)
    decreases |es|
  {
    InPeriod(s, id, period) && (es == [] || StaysIn(p, Exec(p, s, es[0]), es[1..], id, period))
  }

  predicate Exact(s: State, id: nat) {
    id in s.entries && s.entries[id].rec.trials == |Trials(s, id)| && forall op :: op in s.ops ==> !Foreign(s, id, op)
  }

  lemma BeginKeepsExact(p: BreakerPolicy, s: State, op: nat, provider: nat, now: int, id: nat, period: nat)
    requires (op in s.ops ==> op in s.seen) && (provider in s.current ==> s.current[provider] in s.entries)
    requires Exact(s, id) && InPeriod(s, id, period) && InPeriod(ExecBegin(p, s, op, provider, now), id, period)
    ensures Exact(ExecBegin(p, s, op, provider, now), id)
  {
    var s' := ExecBegin(p, s, op, provider, now);
    if op !in s.seen && provider in s.current {
      BeginTrials(p, s, op, provider, now, id);
      forall o | o in s'.ops ensures !Foreign(s', id, o) { assert o in s.ops ==> !Foreign(s, id, o); }
    }
  }

  lemma EndKeepsExact(p: BreakerPolicy, s: State, op: nat, result: Result, now: int, id: nat, period: nat)
    requires p.Valid() && Exact(s, id) && InPeriod(s, id, period)
             && InPeriod(ExecEnd(p, s, op, result, now), id, period)
    ensures Exact(ExecEnd(p, s, op, result, now), id)
  {
    var s' := ExecEnd(p, s, op, result, now);
    if op in s.ops && s.ops[op].entry == id {
      assert !Foreign(s, id, op);
      assert op in Trials(s, id);
      assert Trials(s', id) == Trials(s, id) - {op};
    } else {
      assert Trials(s', id) == Trials(s, id);
    }
    forall o | o in s'.ops ensures !Foreign(s', id, o) { assert !Foreign(s, id, o); }
  }

  lemma StepKeepsExact(p: BreakerPolicy, s: State, e: Event, id: nat, period: nat)
    requires p.Valid() && Inv(p, s) && Exact(s, id) && InPeriod(s, id, period) && InPeriod(Exec(p, s, e), id, period)
    ensures Exact(Exec(p, s, e), id)
  {
    match e
    case Begin(op, provider, now) =>
      assert op in s.ops ==> OpOk(s, op);
      BeginKeepsExact(p, s, op, provider, now, id, period);
    case End(op, result, now) => EndKeepsExact(p, s, op, result, now, id, period);
    case _ =>
      var s' := Exec(p, s, e);
      assert Trials(s', id) == Trials(s, id);
      forall o | o in s'.ops ensures !Foreign(s', id, o) { assert !Foreign(s, id, o); }
  }

  lemma {:induction false} ExactRuns(p: BreakerPolicy, s: State, es: seq<Event>, id: nat, period: nat)
    requires p.Valid() && Inv(p, s) && Exact(s, id) && StaysIn(p, s, es, id, period)
    ensures id in Run(p, s, es).entries && |Trials(Run(p, s, es), id)| <= p.halfOpenMaxTrials
    decreases |es|
  {
    if es == [] {
      assert EntryOk(p, s, id);
    } else {
      StepKeepsInv(p, s, es[0]);
      assert InPeriod(Exec(p, s, es[0]), id, period);
      StepKeepsExact(p, s, es[0], id, period);
      ExactRuns(p, Exec(p, s, es[0]), es[1..], id, period);
    }
  }

  /** From here, some run inside the current period has more trials in flight than the limit. */
  ghost predicate CanOverAdmit(p: BreakerPolicy, s: State, id: nat) {
    && id in s.entries
    && exists es ::
         && StaysIn(p, s, es, id, s.entries[id].period)
         && id in Run(p, s, es).entries && |Trials(Run(p, s, es), id)| > p.halfOpenMaxTrials
  }

  lemma {:induction false} OverAdmitsNow(p: BreakerPolicy, s: State, id: nat)
    requires id in s.entries && InPeriod(s, id, s.entries[id].period) && |Trials(s, id)| > p.halfOpenMaxTrials
    ensures CanOverAdmit(p, s, id)
  {
    assert StaysIn(p, s, [], id, s.entries[id].period) && Run(p, s, []) == s;
  }

  lemma {:induction false} OverAdmitsBefore(p: BreakerPolicy, s: State, e: Event, id: nat)
    requires id in s.entries && InPeriod(s, id, s.entries[id].period)
    requires InPeriod(Exec(p, s, e), id, s.entries[id].period) && CanOverAdmit(p, Exec(p, s, e), id)
    ensures CanOverAdmit(p, s, id)
  {
    var period := s.entries[id].period;
    var es :| StaysIn(p, Exec(p, s, e), es, id, period)
              && id in Run(p, Exec(p, s, e), es).entries
              && |Trials(Run(p, Exec(p, s, e), es), id)| > p.halfOpenMaxTrials;
    assert ([e] + es)[1..] == es;
    assert StaysIn(p, s, [e] + es, id, period) && Run(p, s, [e] + es) == Run(p, Exec(p, s, e), es);
  }

  /** While a slot is free, one more operation is admitted as a trial of the period. */
  lemma TrialBegins(p: BreakerPolicy, s: State, id: nat, provider: nat, newOp: nat)
    requires Inv(p, s) && provider in s.current && s.current[provider] == id && newOp !in s.seen
    requires InPeriod(s, id, s.entries[id].period) && s.entries[id].rec.trials < p.halfOpenMaxTrials
    ensures var t := Exec(p, s, Begin(newOp, provider, 0));
            && InPeriod(t, id, s.entries[id].period) && t.entries[id].rec.trials == s.entries[id].rec.trials + 1
            && newOp !in s.ops && t.ops == s.ops[newOp := Op(id, Some(s.entries[id].period))]
            && |Trials(t, id)| == |Trials(s, id)| + 1
  {
    assert newOp in s.ops ==> OpOk(s, newOp);
    var t := Exec(p, s, Begin(newOp, provider, 0));
    assert t.entries[id] == Entry(s.entries[id].rec.(trials := s.entries[id].rec.trials + 1), s.entries[id].period);
    assert Trials(t, id) == Trials(s, id) + {newOp};
  }

  /** An outsider's uncounted error frees a slot it never took. */
  lemma ForeignFreesSlot(p: BreakerPolicy, s: State, id: nat, op: nat)
    requires id in s.entries && InPeriod(s, id, s.entries[id].period) && s.entries[id].rec.trials > 0
             && Foreign(s, id, op)
    ensures var t := Exec(p, s, End(op, Fails(OtherError), 0));
            && InPeriod(t, id, s.entries[id].period) && t.entries[id].rec.trials == s.entries[id].rec.trials - 1
            && Trials(t, id) == Trials(s, id)
  {
  }

  /** A slot that was freed without its trial ending lets the free slots be filled once too often. */
  lemma {:induction false} LeakOverAdmits(p: BreakerPolicy, s: State, id: nat, provider: nat)
    requires p.Valid() && Inv(p, s) && provider in s.current && s.current[provider] == id
    requires InPeriod(s, id, s.entries[id].period) && s.entries[id].rec.trials < |Trials(s, id)|
    ensures CanOverAdmit(p, s, id)
    decreases p.halfOpenMaxTrials - s.entries[id].rec.trials
  {
    assert EntryOk(p, s, id);
    if s.entries[id].rec.trials == p.halfOpenMaxTrials {
      OverAdmitsNow(p, s, id);
    } else {
      var newOp := FreshId(s.seen);
      var e := Begin(newOp, provider, 0);
      TrialBegins(p, s, id, provider, newOp);
      StepKeepsInv(p, s, e);
      LeakOverAdmits(p, Exec(p, s, e), id, provider);
      OverAdmitsBefore(p, s, e, id);
    }
  }

  /** An outsider frees a slot as soon as one is taken. */
  lemma ForeignOverAdmits(p: BreakerPolicy, s: State, id: nat, provider: nat, op: nat)
    requires p.Valid() && Inv(p, s) && provider in s.current && s.current[provider] == id
    requires InPeriod(s, id, s.entries[id].period) && s.entries[id].rec.trials > 0 && Foreign(s, id, op)
    ensures CanOverAdmit(p, s, id)
  {
    var e := End(op, Fails(OtherError), 0);
    assert EntryOk(p, s, id);
    ForeignFreesSlot(p, s, id, op);
    StepKeepsInv(p, s, e);
    LeakOverAdmits(p, Exec(p, s, e), id, provider);
    OverAdmitsBefore(p, s, e, id);
  }

  lemma IdleForeignOverAdmits(p: BreakerPolicy, s: State, id: nat, provider: nat, op: nat)
    requires p.Valid() && Inv(p, s) && provider in s.current && s.current[provider] == id
    requires InPeriod(s, id, s.entries[id].period) && s.entries[id].rec.trials == 0 && Foreign(s, id, op)
    ensures CanOverAdmit(p, s, id)
  {
    var newOp := FreshId(s.seen);
    var e := Begin(newOp, provider, 0);
    TrialBegins(p, s, id, provider, newOp);
    StepKeepsInv(p, s, e);
    assert newOp != op && Foreign(Exec(p, s, e), id, op);
    ForeignOverAdmits(p, Exec(p, s, e), id, provider, op);
    OverAdmitsBefore(p, s, e, id);
  }

  /** Some provider's requests still go to the record: it was not reset. */
  predicate InUse(s: State, id: nat) { exists provider :: provider in s.current && s.current[provider] == id }

  lemma StepAddsNoTrial(p: BreakerPolicy, s: State, e: Event, id: nat)
    requires id in s.entries && !InUse(s, id)
    ensures !InUse(Exec(p, s, e), id) && id in Exec(p, s, e).entries
    ensures Exec(p, s, e).entries[id].period == s.entries[id].period ==> Trials(Exec(p, s, e), id) <= Trials(s, id)
  {
  }

  lemma {:induction false} UnusedRuns(p: BreakerPolicy, s: State, es: seq<Event>, id: nat, period: nat)
    requires !InUse(s, id) && StaysIn(p, s, es, id, period)
    ensures id in Run(p, s, es).entries && |Trials(Run(p, s, es), id)| <= |Trials(s, id)|
    decreases |es|
  {
    if es != [] {
      StepAddsNoTrial(p, s, es[0], id);
      assert InPeriod(Exec(p, s, es[0]), id, period);
      UnusedRuns(p, Exec(p, s, es[0]), es[1..], id, period);
      SubsetIsSmaller(Trials(Exec(p, s, es[0]), id), Trials(s, id));
    }
  }

  lemma SubsetIsSmaller(a: set<nat>, b: set<nat>)
    requires a <= b
    ensures |a| <= |b|
  {
    assert b == a + (b - a);
  }

  /** Within a half-open period the limit on trials in flight can be broken exactly when it already is, or the record is
      in use and either a slot was freed without its trial ending, or some operation on the record is in flight that is
      not a trial of the period. */
  lemma OverAdmissionIff(p: BreakerPolicy, s: State, id: nat)
    requires p.Valid() && Inv(p, s) && id in s.entries && InPeriod(s, id, s.entries[id].period)
    ensures CanOverAdmit(p, s, id) <==>
            || |Trials(s, id)| > p.halfOpenMaxTrials
            || (InUse(s, id) && s.entries[id].rec.trials < |Trials(s, id)|)
            || (InUse(s, id) && exists op :: op in s.ops && Foreign(s, id, op))
  {
    if |Trials(s, id)| > p.halfOpenMaxTrials {
      OverAdmitsNow(p, s, id);
    } else if provider :| provider in s.current && s.current[provider] == id {
      InUseOverAdmissionIff(p, s, id, provider);
    } else {
      forall es | StaysIn(p, s, es, id, s.entries[id].period)
        ensures id in Run(p, s, es).entries && |Trials(Run(p, s, es), id)| <= p.halfOpenMaxTrials
      {
        UnusedRuns(p, s, es, id, s.entries[id].period);
      }
    }
  }

  lemma InUseOverAdmissionIff(p: BreakerPolicy, s: State, id: nat, provider: nat)
    requires p.Valid() && Inv(p, s) && provider in s.current && s.current[provider] == id
    requires id in s.entries && InPeriod(s, id, s.entries[id].period)
    ensures CanOverAdmit(p, s, id) <==>
            s.entries[id].rec.trials < |Trials(s, id)| || exists op :: op in s.ops && Foreign(s, id, op)
  {
    assert EntryOk(p, s, id);
    if s.entries[id].rec.trials < |Trials(s, id)| {
      LeakOverAdmits(p, s, id, provider);
    } else if op :| op in s.ops && Foreign(s, id, op) {
      if s.entries[id].rec.trials > 0 { ForeignOverAdmits(p, s, id, provider, op); }
      else { IdleForeignOverAdmits(p, s, id, provider, op); }
    } else {
      forall es | StaysIn(p, s, es, id, s.entries[id].period)
        ensures id in Run(p, s, es).entries && |Trials(Run(p, s, es), id)| <= p.halfOpenMaxTrials
      {
        ExactRuns(p, s, es, id, s.entries[id].period);
      }
    }
  }

  // ---------------------------------------------------------------------
  // How long an open circuit stays open
  // ---------------------------------------------------------------------

  /** Everything happens from the opening on and before the cooldown is over. */
  predicate InCooldown(es: seq<Event>, openedAt: int, cooldownMs: int) {
    forall i :: 0 <= i < |es| && (es[i].Begin? || es[i].End?) ==> openedAt <= es[i].now < openedAt + cooldownMs
  }

  /** Open, and not before the given moment. */
  predicate OpenSince(s: State, id: nat, at: int) {
    && id in s.entries && s.entries[id].rec.state == OPEN
    && s.entries[id].rec.openedAt.Some? && s.entries[id].rec.openedAt.value >= at
  }

  /** An operation that began on the record succeeds. */
  predicate Succeeded(s: State, e: Event, id: nat) {
    e.End? && e.result.Succeeds? && e.op in s.ops && s.ops[e.op].entry == id
  }

  predicate StaysOpen(p: BreakerPolicy, s: State, es: seq<Event>, id: nat, at: int)
    decreases |es|
  {
    OpenSince(s, id, at) && (es == [] || StaysOpen(p, Exec(p, s, es[0]), es[1..], id, at))
  }

  predicate NoSuccess(p: BreakerPolicy, s: State, es: seq<Event>, id: nat)
    decreases |es|
  {
    es == [] || (!Succeeded(s, es[0], id) && NoSuccess(p, Exec(p, s, es[0]), es[1..], id))
  }

  /** An open record admits nothing before its cooldown is over. */
  lemma OpenAdmitsNothing(p: BreakerPolicy, s: State, id: nat, at: int, op: nat, provider: nat, now: int)
    requires OpenSince(s, id, at) && now < at + p.cooldownMs && provider in s.current && s.current[provider] == id
    ensures Exec(p, s, Begin(op, provider, now)).ops == s.ops && OpenSince(Exec(p, s, Begin(op, provider, now)), id, at)
  {
  }

  lemma StepKeepsOpen(p: BreakerPolicy, s: State, e: Event, id: nat, at: int)
    requires p.Valid() && Inv(p, s) && OpenSince(s, id, at)
    requires e.Begin? || e.End? ==> at <= e.now < at + p.cooldownMs
    ensures OpenSince(Exec(p, s, e), id, at) <==> !Succeeded(s, e, id)
  {
    assert EntryOk(p, s, id);
    if e.Begin? && e.provider in s.current && s.current[e.provider] == id {
      OpenAdmitsNothing(p, s, id, at, e.op, e.provider, e.now);
    }
    if e.End? && e.op in s.ops { assert OpOk(s, e.op); }
  }

  /** During its cooldown a circuit stays open, and so admits nothing, exactly as long as no operation that began on it
      succeeds: failures only put the opening off, and time alone does not close it. */
  lemma {:induction false} StaysOpenIff(p: BreakerPolicy, s: State, es: seq<Event>, id: nat, at: int)
    requires p.Valid() && Inv(p, s) && OpenSince(s, id, at) && InCooldown(es, at, p.cooldownMs)
    ensures StaysOpen(p, s, es, id, at) <==> NoSuccess(p, s, es, id)
    decreases |es|
  {
    if es != [] {
      var t := Exec(p, s, es[0]);
      StepKeepsOpen(p, s, es[0], id, at);
      if Succeeded(s, es[0], id) {
        assert !StaysOpen(p, t, es[1..], id, at);
      } else {
        StepKeepsInv(p, s, es[0]);
        StaysOpenIff(p, t, es[1..], id, at);
      }
    }
  }

  ghost predicate Unused(s: State, id: nat) { forall op :: op in s.ops ==> s.ops[op].entry != id }

  lemma StepKeepsUnused(p: BreakerPolicy, s: State, e: Event, id: nat, at: int)
    requires OpenSince(s, id, at) && Unused(s, id) && (e.Begin? ==> e.now < at + p.cooldownMs)
    ensures Unused(Exec(p, s, e), id)
  {
    if e.Begin? && e.provider in s.current && s.current[e.provider] == id {
      OpenAdmitsNothing(p, s, id, at, e.op, e.provider, e.now);
    }
  }

  lemma {:induction false} NothingToSucceed(p: BreakerPolicy, s: State, es: seq<Event>, id: nat, at: int)
    requires p.Valid() && Inv(p, s) && OpenSince(s, id, at) && InCooldown(es, at, p.cooldownMs)
    requires Unused(s, id)
    ensures StaysOpen(p, s, es, id, at)
    decreases |es|
  {
    if es != [] {
      StepKeepsOpen(p, s, es[0], id, at);
      StepKeepsInv(p, s, es[0]);
      StepKeepsUnused(p, s, es[0], id, at);
      NothingToSucceed(p, Exec(p, s, es[0]), es[1..], id, at);
    }
  }

  /** A circuit can be closed before its cooldown is over exactly when an operation that began on it is still in
      flight. */
  lemma {:induction false} ClosesEarlyIff(p: BreakerPolicy, s: State, id: nat, at: int)
    requires p.Valid() && Inv(p, s) && OpenSince(s, id, at)
    ensures (exists es :: InCooldown(es, at, p.cooldownMs) && !StaysOpen(p, s, es, id, at)) <==>
            exists op :: op in s.ops && s.ops[op].entry == id
  {
    if op :| op in s.ops && s.ops[op].entry == id {
      var es := [End(op, Succeeds, at)];
      assert Succeeded(s, es[0], id);
      StaysOpenIff(p, s, es, id, at);
      assert InCooldown(es, at, p.cooldownMs) && !StaysOpen(p, s, es, id, at);
    } else {
      forall es | InCooldown(es, at, p.cooldownMs) ensures StaysOpen(p, s, es, id, at) {
        NothingToSucceed(p, s, es, id, at);
      }
    }
  }
}
