/**
 Daily analytics: counters summed over the request log, and the guarded upsert by which any
 number of workers keep the stored counters, each from its own earlier look at the log.
 */
module Analytics {
  import opened Prelude
  import opened RequestLog

  // ---------------------------------------------------------------------
  // The aggregate
  // ---------------------------------------------------------------------

  datatype Counter =
    | TotalRequests | SuccessfulRequests | BlockedRequests | MaskedRequests | FailedRequests | InterruptedRequests
    | KnownUsageRequests | UnknownUsageRequests | InputTokens | OutputTokens | TotalTokens

  function If(b: bool): nat { if b then 1 else 0 }
  function Known(r: Row, v: Option<int>): nat { if r.UsageKnown() && v.Some? && v.value >= 0 then v.value else 0 }

  /** What one row adds to a counter. */
  function Amount(c: Counter, r: Row): nat {
    match c
    case TotalRequests => 1
    case SuccessfulRequests => If(r.status == COMPLETED)
    case BlockedRequests => If(r.status == BLOCKED)
    case MaskedRequests => If(r.policyAction == ALLOW_WITH_MASK)
    case FailedRequests => If(r.status == FAILED)
    case InterruptedRequests => If(r.status == INTERRUPTED)
    case KnownUsageRequests => If(r.UsageKnown())
    case UnknownUsageRequests => If(r.status != BLOCKED && !r.UsageKnown())
    case InputTokens => Known(r, r.inputTokens)
    case OutputTokens => Known(r, r.outputTokens)
    case TotalTokens => Known(r, r.totalTokens)
  }

  function Measure(c: Counter): Row -> nat { r => Amount(c, r) }

  /** The aggregate, counter by counter. */
  type Summary = Counter -> nat

  function Summarise(rows: seq<Row>): Summary { c => Total(rows, Measure(c)) }

  /** Every request has one outcome, and its usage is known, unknown or not applicable. */
  predicate AddsUp(s: Summary) {
    && s(TotalRequests) == s(SuccessfulRequests) + s(BlockedRequests) + s(FailedRequests) + s(InterruptedRequests)
    && s(TotalRequests) == s(KnownUsageRequests) + s(UnknownUsageRequests) + s(BlockedRequests)
    && s(TotalTokens) == s(InputTokens) + s(OutputTokens)
    && s(MaskedRequests) + s(BlockedRequests) <= s(TotalRequests)
  }

  /** The outcome shape and the usage rule of valid rows make every summary add up. */
  lemma {:induction false} SummariesAddUp(rows: seq<Row>)
    requires forall r :: r in rows ==> ValidRow(r)
    ensures AddsUp(Summarise(rows))
  {
    if rows != [] {
      var n := |rows| - 1;
      SummariesAddUp(rows[..n]);
      RowAddsUp(rows[n]);
    }
  }

  lemma RowAddsUp(r: Row)
    requires ValidRow(r)
    ensures Amount(TotalRequests, r)
            == Amount(SuccessfulRequests, r) + Amount(BlockedRequests, r) + Amount(FailedRequests, r)
              + Amount(InterruptedRequests, r)
    ensures Amount(TotalRequests, r)
            == Amount(KnownUsageRequests, r) + Amount(UnknownUsageRequests, r) + Amount(BlockedRequests, r)
    ensures Amount(TotalTokens, r) == Amount(InputTokens, r) + Amount(OutputTokens, r)
    ensures Amount(MaskedRequests, r) + Amount(BlockedRequests, r) <= Amount(TotalRequests, r)
  {
  }

  function WithStatus(status: Status): Row -> bool { (r: Row) => r.status == status }

  /** Each outcome counter is the number of the rows that it names. */
  lemma {:induction false} OutcomesAreCounted(rows: seq<Row>)
    ensures var s := Summarise(rows);
            && s(TotalRequests) == |rows|
            && s(SuccessfulRequests) == |Select(rows, WithStatus(COMPLETED))|
            && s(BlockedRequests) == |Select(rows, WithStatus(BLOCKED))|
            && s(FailedRequests) == |Select(rows, WithStatus(FAILED))|
            && s(InterruptedRequests) == |Select(rows, WithStatus(INTERRUPTED))|
  {
    CountIsSelection(rows, Measure(TotalRequests), r => true);
    EverythingSelected(rows);
    CountIsSelection(rows, Measure(SuccessfulRequests), WithStatus(COMPLETED));
    CountIsSelection(rows, Measure(BlockedRequests), WithStatus(BLOCKED));
    CountIsSelection(rows, Measure(FailedRequests), WithStatus(FAILED));
    CountIsSelection(rows, Measure(InterruptedRequests), WithStatus(INTERRUPTED));
  }

  /** So are masked requests, and those with and without usage. */
  lemma {:induction false} UsageIsCounted(rows: seq<Row>)
    ensures var s := Summarise(rows);
            && s(MaskedRequests) == |Select(rows, (r: Row) => r.policyAction == ALLOW_WITH_MASK)|
            && s(KnownUsageRequests)
               == |Select(rows, (r: Row) => r.inputTokens.Some? && r.outputTokens.Some? && r.totalTokens.Some?)|
            && s(UnknownUsageRequests)
               == |Select(rows, (r: Row) => r.status != BLOCKED
                                            && (r.inputTokens.None? || r.outputTokens.None? || r.totalTokens.None?))|
  {
    CountIsSelection(rows, Measure(MaskedRequests), (r: Row) => r.policyAction == ALLOW_WITH_MASK);
    CountIsSelection(rows, Measure(KnownUsageRequests),
                     (r: Row) => r.inputTokens.Some? && r.outputTokens.Some? && r.totalTokens.Some?);
    CountIsSelection(rows, Measure(UnknownUsageRequests),
                     (r: Row) => r.status != BLOCKED
                                 && (r.inputTokens.None? || r.outputTokens.None? || r.totalTokens.None?));
  }

  lemma {:induction false} CountIsSelection(rows: seq<Row>, m: Row -> nat, p: Row -> bool)
    requires forall r :: m(r) == if p(r) then 1 else 0
    ensures Total(rows, m) == |Select(rows, p)|
  {
    if rows != [] { CountIsSelection(rows[..|rows| - 1], m, p); }
  }

  lemma {:induction false} EverythingSelected(rows: seq<Row>)
    ensures |Select(rows, r => true)| == |rows|
  {
    if rows != [] { EverythingSelected(rows[..|rows| - 1]); }
  }

  /** The token counters start at nothing, and each valid row with usage adds its own input, output and sum. */
  lemma {:induction false} TokenCountersAdd(rows: seq<Row>, r: Row)
    requires ValidRow(r)
    ensures forall c: Counter :: Summarise([])(c) == 0
    ensures var s, t := Summarise(rows), Summarise(rows + [r]);
            && t(InputTokens) == s(InputTokens) + (if r.inputTokens.Some? then r.inputTokens.value else 0)
            && t(OutputTokens) == s(OutputTokens) + (if r.outputTokens.Some? then r.outputTokens.value else 0)
            && t(TotalTokens) == s(TotalTokens) + (if r.inputTokens.Some? && r.outputTokens.Some?
                                                   then r.inputTokens.value + r.outputTokens.value else 0)
  {
    assert (rows + [r])[..|rows|] == rows;
  }

  /** A day of an organisation, or of one of its users. */
  datatype DayKey = DayKey(orgId: nat, userId: Option<nat>, start: int, end: int)

  function Matches(k: DayKey): Row -> bool {
    (r: Row) => r.orgId == k.orgId && (k.userId.Some? ==> r.userId == k.userId.value) && k.start <= r.createdAt < k.end
  }

  function DaySummary(log: seq<Row>, k: DayKey): Summary { Summarise(Select(log, Matches(k))) }

  // ---------------------------------------------------------------------
  // An organisation is its users
  // ---------------------------------------------------------------------

  function UserOf(r: Row): nat { r.userId }

  function SumOverUsers(log: seq<Row>, k: DayKey, users: seq<nat>, c: Counter): nat {
    if users == [] then 0
    else SumOverUsers(log, k, users[..|users| - 1], c) + DaySummary(log, k.(userId := Some(users[|users| - 1])))(c)
  }

  function Where(p: Row -> bool, m: Row -> nat): Row -> nat { r => if p(r) then m(r) else 0 }

  lemma {:induction false} SelectTotal(rows: seq<Row>, p: Row -> bool, m: Row -> nat)
    ensures Total(Select(rows, p), m) == Total(rows, Where(p, m))
  {
    if rows != [] {
      var n := |rows| - 1;
      SelectTotal(rows[..n], p, m);
      SelectLast(rows, p);
      TotalGrows(Select(rows[..n], p), if p(rows[n]) then [rows[n]] else [], m);
      assert Total([rows[n]], m) == m(rows[n]) && Total([], m) == 0;
    }
  }

  /** A user's sum is the organisation's sum over that user's rows. */
  lemma {:induction false} UserShare(log: seq<Row>, k: DayKey, u: nat, m: Row -> nat)
    requires k.userId.None?
    ensures Total(Select(log, Matches(k.(userId := Some(u)))), m) == Total(Select(log, Matches(k)), Only(UserOf, u, m))
  {
    var p, q := Matches(k.(userId := Some(u))), Matches(k);
    SelectTotal(log, p, m);
    SelectTotal(log, q, Only(UserOf, u, m));
    TotalsAgree(log, Where(p, m), Where(q, Only(UserOf, u, m)));
  }

  lemma {:induction false} UsersByKey(log: seq<Row>, k: DayKey, users: seq<nat>, c: Counter)
    requires k.userId.None?
    ensures SumOverUsers(log, k, users, c) == ByKey(Select(log, Matches(k)), UserOf, users, Measure(c))
  {
    if users != [] {
      UsersByKey(log, k, users[..|users| - 1], c);
      UserShare(log, k, users[|users| - 1], Measure(c));
    }
  }

  /** Every counter of an organisation's day is the sum of its users' counters. */
  lemma {:induction false} OrganisationIsItsUsers(log: seq<Row>, k: DayKey, users: seq<nat>, c: Counter)
    requires k.userId.None? && forall i, j :: 0 <= i < j < |users| ==> users[i] != users[j]
    requires forall r :: r in Select(log, Matches(k)) ==> r.userId in users
    ensures DaySummary(log, k)(c) == SumOverUsers(log, k, users, c)
  {
    UsersByKey(log, k, users, c);
    PartitionTotal(Select(log, Matches(k)), UserOf, users, Measure(c));
  }

  // ---------------------------------------------------------------------
  // Requests by provider and model
  // ---------------------------------------------------------------------

  datatype ProviderRow = ProviderRow(providerId: Provider, model: string, requestCount: nat)

  function ModelOf(r: Row): (Option<Provider>, Option<string>) { (r.providerId, r.model) }
  function Reached(r: Row): nat { If(r.status != BLOCKED && r.providerId.Some? && r.model.Some?) }

  function ModelKeys(ps: seq<ProviderRow>): (ks: seq<(Option<Provider>, Option<string>)>)
    ensures |ks| == |ps| && forall i :: 0 <= i < |ps| ==> ks[i] == (Some(ps[i].providerId), Some(ps[i].model))
  {
    seq(|ps|, i requires 0 <= i < |ps| => (Some(ps[i].providerId), Some(ps[i].model)))
  }

  /** The second query: one row for each provider and model that was reached. */
  ghost predicate IsProviderRows(rows: seq<Row>, ps: seq<ProviderRow>) {
    && (forall i :: 0 <= i < |ps| ==> ps[i].requestCount == Total(rows, Only(ModelOf, ModelKeys(ps)[i], Reached)))
    && (forall i, j :: 0 <= i < j < |ps| ==> ModelKeys(ps)[i] != ModelKeys(ps)[j])
    && (forall r :: r in rows && Reached(r) == 1 ==> ModelOf(r) in ModelKeys(ps))
  }

  /** Distinct provider and model pairs that cover the rows that were reached. */
  ghost predicate CoversModels(rows: seq<Row>, ms: seq<(Provider, string)>) {
    && (forall i, j :: 0 <= i < j < |ms| ==> ms[i] != ms[j])
    && (forall r :: r in rows && Reached(r) == 1 ==> (r.providerId.value, r.model.value) in ms)
  }

  lemma {:induction false} ModelsExist(rows: seq<Row>) returns (ms: seq<(Provider, string)>)
    ensures CoversModels(rows, ms)
  {
    ms := [];
    if rows != [] {
      var n := |rows| - 1;
      ms := ModelsExist(rows[..n]);
      assert rows == rows[..n] + [rows[n]];
      if Reached(rows[n]) == 1 && (rows[n].providerId.value, rows[n].model.value) !in ms {
        ms := ms + [(rows[n].providerId.value, rows[n].model.value)];
      }
    }
  }

  /** The second query always has an answer. */
  lemma ProviderRowsExist(rows: seq<Row>) returns (ps: seq<ProviderRow>)
    ensures IsProviderRows(rows, ps)
  {
    var ms := ModelsExist(rows);
    ps := seq(|ms|, i requires 0 <= i < |ms| =>
      ProviderRow(ms[i].0, ms[i].1, Total(rows, Only(ModelOf, (Some(ms[i].0), Some(ms[i].1)), Reached))));
    assert forall i :: 0 <= i < |ms| ==> ModelKeys(ps)[i] == (Some(ms[i].0), Some(ms[i].1));
    forall r | r in rows && Reached(r) == 1 ensures ModelOf(r) in ModelKeys(ps) {
      var i :| 0 <= i < |ms| && ms[i] == (r.providerId.value, r.model.value);
      assert ModelKeys(ps)[i] == ModelOf(r);
    }
  }

  function Requests(ps: seq<ProviderRow>): nat {
    if ps == [] then 0 else Requests(ps[..|ps| - 1]) + ps[|ps| - 1].requestCount
  }

  lemma {:induction false} RequestsByKey(rows: seq<Row>, ps: seq<ProviderRow>)
    requires forall i :: 0 <= i < |ps| ==> ps[i].requestCount == Total(rows, Only(ModelOf, ModelKeys(ps)[i], Reached))
    ensures Requests(ps) == ByKey(rows, ModelOf, ModelKeys(ps), Reached)
  {
    if ps != [] {
      var n := |ps| - 1;
      assert ModelKeys(ps)[..n] == ModelKeys(ps[..n]);
      RequestsByKey(rows, ps[..n]);
    }
  }

  /** Over one snapshot the provider rows add up to the requests that were not blocked. */
  lemma {:induction false} ProviderRowsAddUp(rows: seq<Row>, ps: seq<ProviderRow>)
    requires IsProviderRows(rows, ps) && forall r :: r in rows ==> ValidRow(r)
    ensures Requests(ps) == Summarise(rows)(TotalRequests) - Summarise(rows)(BlockedRequests)
  {
    RequestsByKey(rows, ps);
    ByKeyIsAmong(rows, ModelOf, ModelKeys(ps), Reached);
    TotalsAgree(rows, Among(ModelOf, ModelKeys(ps), Reached), Reached);
    TotalsAdd(rows, Reached, Measure(BlockedRequests), Measure(TotalRequests));
  }

  // ---------------------------------------------------------------------
  // The protocol
  // ---------------------------------------------------------------------

  /** A stored day; the two positions record how much of the log each query had seen. */
  datatype Stored = Stored(summary: Summary, seen: nat, providers: seq<ProviderRow>, providersSeen: nat)

  /** The collection of daily documents, unique by key. */
  class DailyStore {
    var stored: map<DayKey, Stored>

    method FindOneAndUpdate(key: DayKey, values: Stored) returns (updated: bool)
      modifies this
      ensures updated
              <==> key in old(stored) && old(stored)[key].summary(TotalRequests) <= values.summary(TotalRequests)
      ensures stored == if updated then old(stored)[key := values] else old(stored)
    {
      updated := key in stored && stored[key].summary(TotalRequests) <= values.summary(TotalRequests);
      if updated { stored := stored[key := values]; }
    }

    method Insert(key: DayKey, values: Stored) returns (ok: bool)
      modifies this
      ensures ok <==> key !in old(stored)
      ensures stored == if ok then old(stored)[key := values] else old(stored)
    {
      ok := key !in stored;
      if ok { stored := stored[key := values]; }
    }

    /** Run on its own, the three steps leave the fresher of the two days; run among others, see below. */
    method UpsertDailyAggregate(key: DayKey, values: Stored) returns (document: Stored)
      modifies this
      ensures stored == if key in old(stored) && old(stored)[key].summary(TotalRequests) > values.summary(TotalRequests)
                        then old(stored) else old(stored)[key := values]
      ensures key in stored && document == stored[key]
      ensures document.summary(TotalRequests) >= values.summary(TotalRequests)
    {
      var updated := FindOneAndUpdate(key, values);
      if updated || key in stored { return stored[key]; }
      var ok := Insert(key, values);
      document := stored[key];
    }
  }

  datatype Phase = Started | Summarised | Ready | NotUpdated | Absent | Done

  /** One aggregation followed by one upsert; a worker runs one for the organisation and one for the user. */
  datatype Writer = Writer(key: DayKey, phase: Phase, values: Stored)

  datatype State = State(log: seq<Row>, stored: map<DayKey, Stored>, writers: map<nat, Writer>)

  datatype Event =
    | Append(row: Row)
    | Begin(w: nat, key: DayKey)
    | ReadSummary(w: nat)
    | ReadProviders(w: nat, providers: seq<ProviderRow>)
    | UpdateGuarded(w: nat)
    | FindExisting(w: nat)
    | Create(w: nat)

  function Initial(): State { State([], map[], map[]) }

  predicate At(s: State, w: nat, phase: Phase) { w in s.writers && s.writers[w].phase == phase }

  function Move(s: State, w: nat, phase: Phase): State
    requires w in s.writers
  {
    s.(writers := s.writers[w := s.writers[w].(phase := phase)])
  }

  /** The write happens only over an older or equal total. */
  predicate GuardHolds(s: State, w: nat)
    requires w in s.writers
  {
    var x := s.writers[w];
    x.key in s.stored && s.stored[x.key].summary(TotalRequests) <= x.values.summary(TotalRequests)
  }

  function Put(s: State, w: nat): State
    requires w in s.writers
  {
    s.(stored := s.stored[s.writers[w].key := s.writers[w].values])
  }

  ghost function Exec(s: State, e: Event): State {
    match e
    case Append(row) => if ValidRow(row) && (forall r :: r in s.log ==> r.requestId != row.requestId)
      then s.(log := s.log + [row]) else s
    case Begin(w, key) =>
      if w in s.writers then s
      else s.(writers := s.writers[w := Writer(key, Started, Stored(Summarise([]), 0, [], 0))])
    case ReadSummary(w) =>
      if !At(s, w, Started) then s
      else
        var x := s.writers[w];
        s.(writers := s.writers[w :=
            x.(phase := Summarised, values := x.values.(summary := DaySummary(s.log, x.key), seen := |s.log|))])
    case ReadProviders(w, ps) =>
      if !At(s, w, Summarised) || !IsProviderRows(Select(s.log, Matches(s.writers[w].key)), ps) then s
      else
        var x := s.writers[w];
        s.(writers := s.writers[w :=
            x.(phase := Ready, values := x.values.(providers := ps, providersSeen := |s.log|))])
    case UpdateGuarded(w) =>
      if !At(s, w, Ready) then s else if GuardHolds(s, w) then Move(Put(s, w), w, Done) else Move(s, w, NotUpdated)
    case FindExisting(w) =>
      if !At(s, w, NotUpdated) then s else Move(s, w, if s.writers[w].key in s.stored then Done else Absent)
    case Create(w) =>
      if !At(s, w, Absent) then s else if s.writers[w].key in s.stored then Move(s, w, Done)
        else Move(Put(s, w), w, Done)
  }

  ghost function Run(s: State, es: seq<Event>): State
    decreases |es|
  {
    if es == [] then s else Run(Exec(s, es[0]), es[1..])
  }

  /** The values are what the two queries answered at their positions in the log. */
  ghost predicate FromSnapshots(log: seq<Row>, k: DayKey, v: Stored) {
    && v.seen <= v.providersSeen <= |log|
    && v.summary == DaySummary(log[..v.seen], k)
    && IsProviderRows(Select(log[..v.providersSeen], Matches(k)), v.providers)
  }

  ghost predicate WriterOk(log: seq<Row>, x: Writer) {
    && (x.phase.Summarised? ==> x.values.seen <= |log| && x.values.summary == DaySummary(log[..x.values.seen], x.key))
    && (!x.phase.Started? && !x.phase.Summarised? ==> FromSnapshots(log, x.key, x.values))
  }

  ghost predicate Inv(s: State) {
    && ValidLog(s.log)
    && (forall k :: k in s.stored ==> FromSnapshots(s.log, k, s.stored[k]))
    && (forall w :: w in s.writers ==> WriterOk(s.log, s.writers[w]))
  }

  lemma AppendKeepsSnapshots(log: seq<Row>, row: Row, k: DayKey, v: Stored)
    requires FromSnapshots(log, k, v)
    ensures FromSnapshots(log + [row], k, v)
  {
    assert (log + [row])[..v.seen] == log[..v.seen];
    assert (log + [row])[..v.providersSeen] == log[..v.providersSeen];
  }

  lemma AppendKeepsWriter(log: seq<Row>, row: Row, x: Writer)
    requires WriterOk(log, x)
    ensures WriterOk(log + [row], x)
  {
    if x.phase.Summarised? {
      assert (log + [row])[..x.values.seen] == log[..x.values.seen];
    } else if !x.phase.Started? {
      AppendKeepsSnapshots(log, row, x.key, x.values);
    }
  }

  lemma AppendKeepsInv(s: State, row: Row)
    requires Inv(s)
    ensures Inv(Exec(s, Append(row)))
  {
    if Exec(s, Append(row)) != s {
      forall k | k in s.stored ensures FromSnapshots(s.log + [row], k, s.stored[k]) {
        AppendKeepsSnapshots(s.log, row, k, s.stored[k]);
      }
      forall w | w in s.writers ensures WriterOk(s.log + [row], s.writers[w]) {
        AppendKeepsWriter(s.log, row, s.writers[w]);
      }
    }
  }

  lemma ReadKeepsInv(s: State, e: Event)
    requires Inv(s) && (e.Begin? || e.ReadSummary? || e.ReadProviders?)
    ensures Inv(Exec(s, e))
  {
    assert s.log[..|s.log|] == s.log;
    if Exec(s, e) != s { assert WriterOk(s.log, Exec(s, e).writers[e.w]); }
  }

  lemma MoveKeepsInv(s: State, w: nat, phase: Phase)
    requires Inv(s) && w in s.writers && FromSnapshots(s.log, s.writers[w].key, s.writers[w].values)
    requires !phase.Started? && !phase.Summarised?
    ensures Inv(Move(s, w, phase))
  {
    assert WriterOk(s.log, s.writers[w].(phase := phase));
  }

  lemma PutKeepsInv(s: State, w: nat)
    requires Inv(s) && w in s.writers && FromSnapshots(s.log, s.writers[w].key, s.writers[w].values)
    ensures Inv(Put(s, w))
  {
  }

  lemma WriteKeepsInv(s: State, e: Event)
    requires Inv(s) && (e.UpdateGuarded? || e.FindExisting? || e.Create?)
    ensures Inv(Exec(s, e))
  {
    if e.w in s.writers && FromSnapshots(s.log, s.writers[e.w].key, s.writers[e.w].values) {
      PutKeepsInv(s, e.w);
      MoveKeepsInv(s, e.w, NotUpdated);
      MoveKeepsInv(s, e.w, Absent);
      MoveKeepsInv(s, e.w, Done);
      MoveKeepsInv(Put(s, e.w), e.w, Done);
    } else {
      assert e.w in s.writers ==> WriterOk(s.log, s.writers[e.w]);
    }
  }

  /** Every step keeps what is stored, and what is about to be stored, tied to a past state of the log. */
  lemma StepKeepsInv(s: State, e: Event)
    requires Inv(s)
    ensures Inv(Exec(s, e))
  {
    match e
    case Append(row) => AppendKeepsInv(s, row);
    case Begin(_, _) => ReadKeepsInv(s, e);
    case ReadSummary(_) => ReadKeepsInv(s, e);
    case ReadProviders(_, _) => ReadKeepsInv(s, e);
    case UpdateGuarded(_) => WriteKeepsInv(s, e);
    case FindExisting(_) => WriteKeepsInv(s, e);
    case Create(_) => WriteKeepsInv(s, e);
  }

  lemma {:induction false} RunKeepsInv(s: State, es: seq<Event>)
    requires Inv(s)
    ensures Inv(Run(s, es))
    decreases |es|
  {
    if es != [] {
      StepKeepsInv(s, es[0]);
      RunKeepsInv(Exec(s, es[0]), es[1..]);
    }
  }

  lemma ValidSelection(log: seq<Row>, n: nat, k: DayKey)
    requires ValidLog(log) && n <= |log|
    ensures forall r :: r in Select(log[..n], Matches(k)) ==> ValidRow(r)
  {
    assert forall r :: r in log[..n] ==> r in log;
  }

  /** In every run, each stored day is the aggregate of the log as it once was, and adds up. */
  lemma {:induction false} StoredIsASnapshot(es: seq<Event>, k: DayKey)
    requires k in Run(Initial(), es).stored
    ensures var s := Run(Initial(), es); var v := s.stored[k];
            v.seen <= |s.log| && v.summary == DaySummary(s.log[..v.seen], k) && AddsUp(v.summary)
  {
    RunKeepsInv(Initial(), es);
    var s := Run(Initial(), es);
    ValidSelection(s.log, s.stored[k].seen, k);
    SummariesAddUp(Select(s.log[..s.stored[k].seen], Matches(k)));
  }

  // ---------------------------------------------------------------------
  // Nothing stored ever shrinks
  // ---------------------------------------------------------------------

  lemma SummaryGrows(log: seq<Row>, a: nat, b: nat, k: DayKey, c: Counter)
    requires a <= b <= |log|
    ensures DaySummary(log[..a], k)(c) <= DaySummary(log[..b], k)(c)
    ensures DaySummary(log[..a], k)(TotalRequests) == DaySummary(log[..b], k)(TotalRequests)
            ==> DaySummary(log[..a], k)(c) == DaySummary(log[..b], k)(c)
  {
    var early, late := log[..a], log[a..b];
    assert log[..b] == early + late;
    SelectGrows(early, late, Matches(k));
    var x, y := Select(early, Matches(k)), Select(late, Matches(k));
    TotalGrows(x, y, Measure(c));
    TotalGrows(x, y, Measure(TotalRequests));
    TotalOfNothing(y, Measure(TotalRequests));
    if Total(y, Measure(TotalRequests)) == 0 { TotalOfNothing(y, Measure(c)); NothingSelected(y); }
  }

  lemma {:induction false} NothingSelected(rows: seq<Row>)
    ensures Total(rows, Measure(TotalRequests)) == 0 ==> rows == []
  {
    if rows != [] { assert Measure(TotalRequests)(rows[|rows| - 1]) == 1; }
  }

  /** A larger total of requests means no smaller counter at all: the log only grows. */
  lemma TotalsOrderSummaries(log: seq<Row>, a: nat, b: nat, k: DayKey, c: Counter)
    requires a <= |log| && b <= |log|
             && DaySummary(log[..a], k)(TotalRequests) <= DaySummary(log[..b], k)(TotalRequests)
    ensures DaySummary(log[..a], k)(c) <= DaySummary(log[..b], k)(c)
  {
    if a <= b {
      SummaryGrows(log, a, b, k, c);
    } else {
      SummaryGrows(log, b, a, k, c);
      SummaryGrows(log, b, a, k, TotalRequests);
    }
  }

  lemma StepGrowsCounters(s: State, e: Event, k: DayKey, c: Counter)
    requires Inv(s) && k in s.stored
    ensures k in Exec(s, e).stored && s.stored[k].summary(c) <= Exec(s, e).stored[k].summary(c)
  {
    if e.UpdateGuarded? && At(s, e.w, Ready) && GuardHolds(s, e.w) && s.writers[e.w].key == k {
      UpdateGrowsCounters(s, e.w, c);
      assert Exec(s, e).stored == s.stored[k := s.writers[e.w].values];
    } else {
      OthersKeepStored(s, e, k);
    }
  }

  lemma UpdateGrowsCounters(s: State, w: nat, c: Counter)
    requires Inv(s) && At(s, w, Ready) && GuardHolds(s, w)
    ensures s.stored[s.writers[w].key].summary(c) <= s.writers[w].values.summary(c)
  {
    var x := s.writers[w];
    assert WriterOk(s.log, x) && FromSnapshots(s.log, x.key, s.stored[x.key]);
    TotalsOrderSummaries(s.log, s.stored[x.key].seen, x.values.seen, x.key, c);
  }

  lemma OthersKeepStored(s: State, e: Event, k: DayKey)
    requires k in s.stored
    requires !(e.UpdateGuarded? && At(s, e.w, Ready) && GuardHolds(s, e.w) && s.writers[e.w].key == k)
    ensures k in Exec(s, e).stored && Exec(s, e).stored[k] == s.stored[k]
  {
  }

  /** Along every run, no counter of a stored day ever decreases, although workers write in any order. */
  lemma {:induction false} CountersNeverShrink(s: State, es: seq<Event>, k: DayKey, c: Counter)
    requires Inv(s) && k in s.stored
    ensures k in Run(s, es).stored && s.stored[k].summary(c) <= Run(s, es).stored[k].summary(c)
    decreases |es|
  {
    if es != [] {
      StepGrowsCounters(s, es[0], k, c);
      StepKeepsInv(s, es[0]);
      CountersNeverShrink(Exec(s, es[0]), es[1..], k, c);
    }
  }

  // ---------------------------------------------------------------------
  // Whether a finished write is reflected
  // ---------------------------------------------------------------------

  /** The stored day counts at least what the writer counted. */
  predicate Covered(s: State, w: nat) {
    && w in s.writers && s.writers[w].key in s.stored
    && s.writers[w].values.summary(TotalRequests) <= s.stored[s.writers[w].key].summary(TotalRequests)
  }

  /** Only its own steps move a writer. */
  lemma OthersLeaveWriter(s: State, e: Event, w: nat)
    requires w in s.writers && !(e.Append? || e.w == w)
    ensures w in Exec(s, e).writers && Exec(s, e).writers[w] == s.writers[w]
  {
  }

  /** The writer has read its values and not finished. */
  predicate Upserting(s: State, w: nat) { At(s, w, Ready) || At(s, w, NotUpdated) || At(s, w, Absent) }

  /** Another writer in flight for the same day that has counted fewer requests. */
  predicate LesserRival(s: State, w: nat, v: nat)
    requires w in s.writers
  {
    && v != w && v in s.writers && s.writers[v].key == s.writers[w].key
    && (At(s, v, Summarised) || Upserting(s, v))
    && s.writers[v].values.summary(TotalRequests) < s.writers[w].values.summary(TotalRequests)
  }

  /** Nothing can come between the writer and the stored day: there is a document, still to be guarded against or
      already counting as much, or there is none and no lesser rival could create it. */
  ghost predicate Safe(s: State, w: nat) {
    && w in s.writers && !s.writers[w].phase.Started? && !s.writers[w].phase.Summarised?
    && if s.writers[w].key in s.stored then s.writers[w].phase.Ready? || Covered(s, w)
       else !s.writers[w].phase.Done? && forall v :: v in s.writers ==> !LesserRival(s, w, v)
  }

  lemma OwnStepKeepsSafe(s: State, e: Event, w: nat)
    requires Safe(s, w) && !e.Append? && e.w == w
    ensures Safe(Exec(s, e), w)
  {
    if s.writers[w].key !in s.stored {
      forall v | v in Exec(s, e).writers ensures !LesserRival(Exec(s, e), w, v) {
        assert v in s.writers ==> !LesserRival(s, w, v);
      }
    }
  }

  /** With a document stored, the others can only raise its total. */
  lemma OthersKeepDocumented(s: State, e: Event, w: nat)
    requires Inv(s) && Safe(s, w) && (e.Append? || e.w != w) && s.writers[w].key in s.stored
    ensures Safe(Exec(s, e), w)
  {
    if !e.Append? { OthersLeaveWriter(s, e, w); }
    StepGrowsCounters(s, e, s.writers[w].key, TotalRequests);
  }

  /** A writer that reads the log now counts at least what this one counted. */
  lemma ReadersAreNoRivals(s: State, w: nat, v: nat)
    requires Inv(s) && Upserting(s, w) && v != w && v in s.writers && s.writers[v].key == s.writers[w].key
    ensures s.writers[w].values.summary(TotalRequests) <= DaySummary(s.log, s.writers[v].key)(TotalRequests)
  {
    var x := s.writers[w];
    assert WriterOk(s.log, x);
    assert s.log[..|s.log|] == s.log;
    SummaryGrows(s.log, x.values.seen, |s.log|, x.key, TotalRequests);
  }

  /** No other step makes a lesser rival of a writer that was none. */
  lemma RivalsAreNotMade(s: State, e: Event, w: nat, v: nat)
    requires w in s.writers && w in Exec(s, e).writers && Exec(s, e).writers[w] == s.writers[w]
    requires !(e.ReadSummary? && e.w == v) && v in Exec(s, e).writers && LesserRival(Exec(s, e), w, v)
    ensures v in s.writers && LesserRival(s, w, v)
  {
  }

  lemma NewReadersAreNoRivals(s: State, e: Event, w: nat, v: nat)
    requires Inv(s) && Safe(s, w) && (e.Append? || e.w != w) && s.writers[w].key !in s.stored
    requires w in Exec(s, e).writers && Exec(s, e).writers[w] == s.writers[w] && v in Exec(s, e).writers
    ensures !LesserRival(Exec(s, e), w, v)
  {
    if LesserRival(Exec(s, e), w, v) {
      if e.ReadSummary? && e.w == v {
        if At(s, v, Started) && s.writers[v].key == s.writers[w].key { ReadersAreNoRivals(s, w, v); }
      } else {
        RivalsAreNotMade(s, e, w, v);
      }
    }
  }

  /** Without a document, whoever creates it counted no less. */
  lemma OthersKeepUndocumented(s: State, e: Event, w: nat)
    requires Inv(s) && Safe(s, w) && (e.Append? || e.w != w) && s.writers[w].key !in s.stored
    ensures Safe(Exec(s, e), w)
  {
    var t := Exec(s, e);
    if !e.Append? { OthersLeaveWriter(s, e, w); }
    if s.writers[w].key in t.stored {
      assert e.Create? && At(s, e.w, Absent) && !LesserRival(s, w, e.w);
    } else {
      forall v | v in t.writers ensures !LesserRival(t, w, v) { NewReadersAreNoRivals(s, e, w, v); }
    }
  }

  lemma {:induction false} SafeWritesAreCovered(s: State, es: seq<Event>, w: nat)
    requires Inv(s) && Safe(s, w)
    ensures Safe(Run(s, es), w) && (At(Run(s, es), w, Done) ==> Covered(Run(s, es), w))
    decreases |es|
  {
    if es != [] {
      if !es[0].Append? && es[0].w == w { OwnStepKeepsSafe(s, es[0], w); }
      else if s.writers[w].key in s.stored { OthersKeepDocumented(s, es[0], w); }
      else { OthersKeepUndocumented(s, es[0], w); }
      StepKeepsInv(s, es[0]);
      SafeWritesAreCovered(Exec(s, es[0]), es[1..], w);
    }
  }

  /** When the day's document exists before the upsert, the write is never lost, in any counter, whatever else runs. */
  lemma {:induction false} LaterWritesAreCovered(s: State, es: seq<Event>, w: nat, c: Counter)
    requires Inv(s) && At(s, w, Ready) && s.writers[w].key in s.stored && At(Run(s, es), w, Done)
    ensures var t := Run(s, es);
            Covered(t, w) && t.writers[w].values.summary(c) <= t.stored[t.writers[w].key].summary(c)
  {
    SafeWritesAreCovered(s, es, w);
    RunKeepsInv(s, es);
    var t := Run(s, es);
    var x := t.writers[w];
    assert WriterOk(t.log, x);
    TotalsOrderSummaries(t.log, x.values.seen, t.stored[x.key].seen, x.key, c);
  }

  /** From here some run finishes the writer without the stored day counting what it counted. */
  ghost predicate CanBeLost(s: State, w: nat) {
    exists es :: At(Run(s, es), w, Done) && !Covered(Run(s, es), w)
  }

  lemma {:induction false} CanBeLostBefore(s: State, e: Event, w: nat)
    requires CanBeLost(Exec(s, e), w)
    ensures CanBeLost(s, w)
  {
    var es :| At(Run(Exec(s, e), es), w, Done) && !Covered(Run(Exec(s, e), es), w);
    assert ([e] + es)[1..] == es;
    assert Run(s, [e] + es) == Run(Exec(s, e), es);
  }

  /** Past its guarded update, the writer takes whatever document it finds. */
  lemma {:induction false} LosesToDocument(s: State, w: nat)
    requires (At(s, w, NotUpdated) || At(s, w, Absent)) && s.writers[w].key in s.stored && !Covered(s, w)
    ensures CanBeLost(s, w)
  {
    var e := if At(s, w, NotUpdated) then FindExisting(w) else Create(w);
    var t := Exec(s, e);
    assert Run(t, []) == t && At(t, w, Done) && !Covered(t, w);
    CanBeLostBefore(s, e, w);
  }

  /** A lesser rival can be brought to the point of creating the document first. */
  lemma {:induction false} LosesToRival(s: State, w: nat, v: nat)
    requires (At(s, w, NotUpdated) || At(s, w, Absent)) && s.writers[w].key !in s.stored && LesserRival(s, w, v)
    ensures CanBeLost(s, w)
    decreases if At(s, v, Summarised) then 3 else if At(s, v, Ready) then 2 else if At(s, v, NotUpdated) then 1 else 0
  {
    var e: Event;
    if At(s, v, Absent) {
      e := Create(v);
      LosesToDocument(Exec(s, e), w);
    } else {
      if At(s, v, Summarised) {
        var ps := ProviderRowsExist(Select(s.log, Matches(s.writers[v].key)));
        e := ReadProviders(v, ps);
      } else if At(s, v, Ready) {
        e := UpdateGuarded(v);
      } else {
        e := FindExisting(v);
      }
      LosesToRival(Exec(s, e), w, v);
    }
    CanBeLostBefore(s, e, w);
  }

  lemma ReadyLosesToRival(s: State, w: nat, v: nat)
    requires At(s, w, Ready) && s.writers[w].key !in s.stored && LesserRival(s, w, v)
    ensures CanBeLost(s, w)
  {
    LosesToRival(Exec(s, UpdateGuarded(w)), w, v);
    CanBeLostBefore(s, UpdateGuarded(w), w);
  }

  /** The guard protects updates, but not the first write of a day.  A writer that has read its values can still be lost
      exactly when a document that counts less came in after its guarded update, or when there is no document yet and
      another writer in flight for the day has counted fewer requests. */
  lemma LostIff(s: State, w: nat)
    requires Inv(s) && Upserting(s, w)
    ensures CanBeLost(s, w) <==>
            if s.writers[w].key in s.stored then !At(s, w, Ready) && !Covered(s, w)
            else exists v :: v in s.writers && LesserRival(s, w, v)
  {
    if Safe(s, w) {
      forall es ensures At(Run(s, es), w, Done) ==> Covered(Run(s, es), w) { SafeWritesAreCovered(s, es, w); }
    } else if s.writers[w].key in s.stored {
      LosesToDocument(s, w);
    } else {
      var v :| v in s.writers && LesserRival(s, w, v);
      if At(s, w, Ready) { ReadyLosesToRival(s, w, v); } else { LosesToRival(s, w, v); }
    }
  }

  function BlockedRow(id: nat): Row { Row(id, 1, 1, BLOCKED, BLOCK, None, None, None, None, None, 0) }

  const DAY := DayKey(1, None, 0, 1)

  function Prepare(w: nat): seq<Event> { [Begin(w, DAY), ReadSummary(w), ReadProviders(w, [])] }

  function ReadyWith(rows: seq<Row>): Writer { Writer(DAY, Ready, Stored(DaySummary(rows, DAY), |rows|, [], |rows|)) }

  lemma {:induction false} RunConcat(s: State, a: seq<Event>, b: seq<Event>)
    ensures Run(s, a + b) == Run(Run(s, a), b)
    decreases |a|
  {
    if a == [] {
      assert a + b == b;
    } else {
      assert (a + b)[1..] == a[1..] + b;
      RunConcat(Exec(s, a[0]), a[1..], b);
    }
  }

  lemma {:induction false} NoProviders(rows: seq<Row>)
    requires forall r :: r in rows ==> r.status == BLOCKED
    ensures IsProviderRows(Select(rows, Matches(DAY)), [])
  {
  }

  lemma {:induction false} PrepareOk(s: State, w: nat)
    requires w !in s.writers && IsProviderRows(Select(s.log, Matches(DAY)), [])
    ensures Run(s, Prepare(w)) == s.(writers := s.writers[w := ReadyWith(s.log)])
  {
    var es := Prepare(w);
    var s1 := Exec(s, es[0]);
    var s2 := Exec(s1, es[1]);
    assert Run(s, es) == Run(s1, es[1..]);
    assert Run(s1, es[1..]) == Run(s2, es[2..]) by { assert es[1..][1..] == es[2..]; }
    assert Run(s2, es[2..]) == Run(Exec(s2, es[2]), []) by { assert es[2..][1..] == []; }
  }

  /** One writer looks at the log after the first request, the other after the second. */
  function BothReady(): seq<Event> {
    [Append(BlockedRow(0))] + Prepare(1) + ([Append(BlockedRow(1))] + Prepare(2))
  }

  lemma {:induction false} LogThenPrepare(s: State, id: nat, w: nat)
    requires w !in s.writers && forall r :: r in s.log ==> r.status == BLOCKED && r.requestId != id
    ensures var log := s.log + [BlockedRow(id)];
            Run(s, [Append(BlockedRow(id))] + Prepare(w)) == State(log, s.stored, s.writers[w := ReadyWith(log)])
  {
    var t := Exec(s, Append(BlockedRow(id)));
    assert t == s.(log := s.log + [BlockedRow(id)]);
    RunConcat(s, [Append(BlockedRow(id))], Prepare(w));
    assert Run(s, [Append(BlockedRow(id))]) == Run(t, []);
    NoProviders(t.log);
    PrepareOk(t, w);
  }

  lemma BothReadyState()
    ensures var rows := [BlockedRow(0), BlockedRow(1)];
            Run(Initial(), BothReady())
              == State(rows, map[], map[1 := ReadyWith([BlockedRow(0)]), 2 := ReadyWith(rows)])
  {
    var one, two := [BlockedRow(0)], [BlockedRow(0), BlockedRow(1)];
    LogThenPrepare(Initial(), 0, 1);
    assert [] + one == one;
    var s := State(one, map[], map[1 := ReadyWith(one)]);
    LogThenPrepare(s, 1, 2);
    assert one + [BlockedRow(1)] == two;
    RunConcat(Initial(), [Append(BlockedRow(0))] + Prepare(1), [Append(BlockedRow(1))] + Prepare(2));
  }

  /** A run in which a finished job's own request is missing from the stored day. */
  lemma FirstWriteCanBeLost() returns (es: seq<Event>)
    ensures At(Run(Initial(), es), 2, Done) && !Covered(Run(Initial(), es), 2)
  {
    BothReadyState();
    CountsOfBlocked();
    var s := Run(Initial(), BothReady());
    ReadyLosesToRival(s, 2, 1);
    var rest :| At(Run(s, rest), 2, Done) && !Covered(Run(s, rest), 2);
    es := BothReady() + rest;
    RunConcat(Initial(), BothReady(), rest);
  }

  lemma CountsOfBlocked()
    ensures DaySummary([BlockedRow(0)], DAY)(TotalRequests) == 1
    ensures DaySummary([BlockedRow(0), BlockedRow(1)], DAY)(TotalRequests) == 2
  {
    var one, two := [BlockedRow(0)], [BlockedRow(0), BlockedRow(1)];
    SelectLast(one, Matches(DAY));
    assert one[..0] == [] && two[..1] == one;
    SelectLast(two, Matches(DAY));
    assert Select(one, Matches(DAY)) == one && Select(two, Matches(DAY)) == two;
    assert Total(one, Measure(TotalRequests)) == 1;
    assert Total(two, Measure(TotalRequests)) == 2;
  }

  // ---------------------------------------------------------------------
  // The two queries
  // ---------------------------------------------------------------------

  /** Provider rows taken over x and y count the requests of x that were not blocked, and those of y too. */
  lemma {:induction false} ProviderExcess(x: seq<Row>, y: seq<Row>, ps: seq<ProviderRow>)
    requires IsProviderRows(x + y, ps) && forall r :: r in x + y ==> ValidRow(r)
    ensures var passed := Summarise(x)(TotalRequests) - Summarise(x)(BlockedRequests);
            Requests(ps) >= passed && (Requests(ps) == passed <==> forall r :: r in y ==> r.status == BLOCKED)
  {
    ProviderRowsAddUp(x + y, ps);
    TotalGrows(x, y, Measure(TotalRequests));
    TotalGrows(x, y, Measure(BlockedRequests));
    TotalsAdd(y, Passed, Measure(BlockedRequests), Measure(TotalRequests));
    TotalOfNothing(y, Passed);
  }

  function Passed(r: Row): nat { If(r.status != BLOCKED) }

  /** Provider rows and counters may come from different moments: the provider rows then count too much, and they
      agree exactly when no request that reached a provider was logged in between. */
  lemma ProvidersAgreeIff(log: seq<Row>, k: DayKey, v: Stored)
    requires ValidLog(log) && FromSnapshots(log, k, v)
    ensures var between := Select(log[v.seen..v.providersSeen], Matches(k));
            var passed := v.summary(TotalRequests) - v.summary(BlockedRequests);
            Requests(v.providers) >= passed
              && (Requests(v.providers) == passed <==> forall r :: r in between ==> r.status == BLOCKED)
  {
    var early, late := log[..v.seen], log[v.seen..v.providersSeen];
    assert log[..v.providersSeen] == early + late;
    SelectGrows(early, late, Matches(k));
    ValidSelection(log, v.providersSeen, k);
    ProviderExcess(Select(early, Matches(k)), Select(late, Matches(k)), v.providers);
  }

  // ---------------------------------------------------------------------
  // A worker that nothing disturbs
  // ---------------------------------------------------------------------

  function Aggregation(w: nat, key: DayKey, ps: seq<ProviderRow>): seq<Event> {
    [Begin(w, key), ReadSummary(w), ReadProviders(w, ps)] + Upsert(w)
  }

  function Upsert(w: nat): seq<Event> { [UpdateGuarded(w), FindExisting(w), Create(w)] }

  lemma {:induction false} RunThree(s: State, a: Event, b: Event, c: Event, rest: seq<Event>)
    ensures Run(s, [a, b, c] + rest) == Run(Exec(Exec(Exec(s, a), b), c), rest)
  {
    var es := [a, b, c] + rest;
    assert es[1..] == [b, c] + rest && es[1..][1..] == [c] + rest && es[1..][1..][1..] == rest;
    assert Run(s, es) == Run(Exec(s, a), es[1..]);
    assert Run(Exec(s, a), es[1..]) == Run(Exec(Exec(s, a), b), es[1..][1..]);
  }

  /** It brings the stored day up to date with the log, whatever was stored before, and touches no other day. */
  lemma {:induction false} AloneBringsUpToDate(s: State, w: nat, key: DayKey, ps: seq<ProviderRow>)
    requires Inv(s) && w !in s.writers && IsProviderRows(Select(s.log, Matches(key)), ps)
    ensures var t := Run(s, Aggregation(w, key, ps));
            && t.log == s.log && At(t, w, Done)
            && t.stored == s.stored[key := Stored(DaySummary(s.log, key), |s.log|, ps, |s.log|)]
  {
    var ready := BothQueriesRead(s, w, key, ps);
    if key in s.stored {
      SummaryGrows(s.log, s.stored[key].seen, |s.log|, key, TotalRequests);
      assert s.log[..|s.log|] == s.log;
    }
    UpsertAlone(ready, w);
  }

  lemma {:induction false} BothQueriesRead(s: State, w: nat, key: DayKey, ps: seq<ProviderRow>) returns (t: State)
    requires w !in s.writers && IsProviderRows(Select(s.log, Matches(key)), ps)
    ensures Run(s, Aggregation(w, key, ps)) == Run(t, Upsert(w))
    ensures t.log == s.log && t.stored == s.stored && At(t, w, Ready)
    ensures t.writers[w] == Writer(key, Ready, Stored(DaySummary(s.log, key), |s.log|, ps, |s.log|))
  {
    RunThree(s, Begin(w, key), ReadSummary(w), ReadProviders(w, ps), Upsert(w));
    t := Exec(Exec(Exec(s, Begin(w, key)), ReadSummary(w)), ReadProviders(w, ps));
  }

  lemma {:induction false} UpsertAlone(s: State, w: nat)
    requires At(s, w, Ready)
    requires s.writers[w].key in s.stored ==>
               s.stored[s.writers[w].key].summary(TotalRequests) <= s.writers[w].values.summary(TotalRequests)
    ensures var t := Run(s, Upsert(w));
            && t.log == s.log && At(t, w, Done) && t.stored == s.stored[s.writers[w].key := s.writers[w].values]
  {
    assert Upsert(w) == Upsert(w) + [];
    RunThree(s, UpdateGuarded(w), FindExisting(w), Create(w), []);
    var s1 := Exec(s, UpdateGuarded(w));
    if s.writers[w].key in s.stored {
      assert At(s1, w, Done);
      assert Exec(s1, FindExisting(w)) == s1 && Exec(s1, Create(w)) == s1;
    } else {
      assert At(s1, w, NotUpdated) && s1.stored == s.stored;
      var s2 := Exec(s1, FindExisting(w));
      assert At(s2, w, Absent) && s2.stored == s.stored;
    }
  }

  /** A day counts the rows of its organisation, and of its user if it has one, within its bounds. */
  lemma {:induction false} DayRows(log: seq<Row>, key: DayKey, r: Row)
    ensures r in Select(log, Matches(key)) <==>
              && r in log && key.start <= r.createdAt && r.createdAt < key.end
              && r.orgId == key.orgId && (key.userId == None || key.userId == Some(r.userId))
  {
  }
}
