/**
 Token budgets: the usage of a period is grouped by the database, folded, topped up with a
 reservation for requests whose usage is unknown, and compared with the budget.
 */
module Billing {
  import opened Prelude
  import opened RequestLog

  // ---------------------------------------------------------------------
  // Numbers
  // ---------------------------------------------------------------------

  /** Addition of large numbers may round, but integers up to 2^53 are exact and rounding never falls below
      that again. */
  ghost predicate Faithful(round: nat -> nat) {
    forall n: nat :: (n <= MAX_SAFE_INTEGER + 1 ==> round(n) == n)
      && (n > MAX_SAFE_INTEGER ==> round(n) > MAX_SAFE_INTEGER)
  }

  /** A computed value is right while it is safe, and visibly unsafe when the exact one is. */
  predicate Tracks(computed: nat, exact: nat) {
    if exact <= MAX_SAFE_INTEGER then computed == exact else computed > MAX_SAFE_INTEGER
  }

  lemma RoundedSumTracks(round: nat -> nat, a: nat, b: nat, x: nat, y: nat)
    requires Faithful(round) && Tracks(a, x) && Tracks(b, y)
    ensures Tracks(round(a + b), x + y)
  {
  }

  lemma RoundedTracks(round: nat -> nat, x: nat)
    requires Faithful(round)
    ensures Tracks(round(x), x)
  {
  }

  // ---------------------------------------------------------------------
  // Groups and the fold
  // ---------------------------------------------------------------------

  datatype Key = Key(providerId: Option<Provider>, model: Option<string>, usageKnown: bool)

  function KeyOf(r: Row): Key { Key(r.providerId, r.model, r.UsageKnown()) }
  function Tokens(r: Row): nat { if r.totalTokens.Some? && r.totalTokens.value >= 0 then r.totalTokens.value else 0 }
  function KnownOne(r: Row): nat { if r.UsageKnown() then 1 else 0 }
  function One(r: Row): nat { 1 }

  /** Used tokens add up to the input and output of the rows with usage; a row without usage is reserved its model's
      maximum instead, and a row is never both. */
  lemma RowCosts(g: Registry, r: Row)
    requires ValidRow(r) && r.status != BLOCKED
    ensures r.inputTokens.Some? && r.outputTokens.Some? ==>
              Tokens(r) == r.inputTokens.value + r.outputTokens.value && Ceiling(g, r) == 0
    ensures r.inputTokens.None? ==>
              && Tokens(r) == 0 && r.providerId.Some? && r.model.Some?
              && Ceiling(g, r) == (if (r.providerId.value, r.model.value) in g
                                   then g[(r.providerId.value, r.model.value)] else 0)
  {
  }

  datatype Group = Group(key: Key, usedTokens: nat, sourceRequestCount: nat, knownUsageCount: nat)

  function GroupOf(rows: seq<Row>, k: Key): Group {
    Group(k, Total(rows, Only(KeyOf, k, Tokens)), Total(rows, Only(KeyOf, k, One)),
        Total(rows, Only(KeyOf, k, KnownOne)))
  }

  function Keys(gs: seq<Group>): (ks: seq<Key>)
    ensures |ks| == |gs| && forall i :: 0 <= i < |gs| ==> ks[i] == gs[i].key
  {
    seq(|gs|, i requires 0 <= i < |gs| => gs[i].key)
  }

  /** What the grouping stage returns: one group for each key that occurs, in no particular order. */
  ghost predicate IsGrouping(rows: seq<Row>, gs: seq<Group>) {
    && (forall i :: 0 <= i < |gs| ==> gs[i] == GroupOf(rows, gs[i].key))
    && (forall i, j :: 0 <= i < j < |gs| ==> gs[i].key != gs[j].key)
    && (forall r :: r in rows ==> KeyOf(r) in Keys(gs))
    && (forall k :: k in Keys(gs) ==> exists r :: r in rows && KeyOf(r) == k)
  }

  datatype Unresolved = Unresolved(providerId: Option<Provider>, model: Option<string>, requestCount: nat)
  datatype Aggregate = Aggregate(usedTokens: nat, sourceRequestCount: nat, knownUsageCount: nat,
      unresolved: seq<Unresolved>)

  function Fold(gs: seq<Group>, round: nat -> nat): Aggregate {
    if gs == [] then Aggregate(0, 0, 0, [])
    else
      var a, g := Fold(gs[..|gs| - 1], round), gs[|gs| - 1];
      Aggregate(
        round(a.usedTokens + round(g.usedTokens)),
        a.sourceRequestCount + g.sourceRequestCount,
        a.knownUsageCount + g.knownUsageCount,
        if g.key.usageKnown then a.unresolved
        else a.unresolved + [UnresolvedIn(g)])
  }

  /** Grouping and summing in any order is summing. */
  lemma {:induction false} GroupsCoverTheRows(rows: seq<Row>, gs: seq<Group>, m: Row -> nat)
    requires IsGrouping(rows, gs)
    ensures ByKey(rows, KeyOf, Keys(gs), m) == Total(rows, m)
  {
    PartitionTotal(rows, KeyOf, Keys(gs), m);
  }

  lemma {:induction false} FoldCounts(rows: seq<Row>, gs: seq<Group>, round: nat -> nat)
    requires Faithful(round) && forall i :: 0 <= i < |gs| ==> gs[i] == GroupOf(rows, gs[i].key)
    ensures Tracks(Fold(gs, round).usedTokens, ByKey(rows, KeyOf, Keys(gs), Tokens))
    ensures Fold(gs, round).sourceRequestCount == ByKey(rows, KeyOf, Keys(gs), One)
    ensures Fold(gs, round).knownUsageCount == ByKey(rows, KeyOf, Keys(gs), KnownOne)
  {
    if gs != [] {
      var n := |gs| - 1;
      FoldCounts(rows, gs[..n], round);
      assert Keys(gs)[..n] == Keys(gs[..n]);
      RoundedTracks(round, gs[n].usedTokens);
      RoundedSumTracks(round, Fold(gs[..n], round).usedTokens, round(gs[n].usedTokens),
          ByKey(rows, KeyOf, Keys(gs[..n]), Tokens), gs[n].usedTokens);
    }
  }

  /** The fold equals the direct sums over the period's rows, whatever order the groups come in. */
  lemma {:induction false} FoldIsDirectSum(rows: seq<Row>, gs: seq<Group>, round: nat -> nat)
    requires IsGrouping(rows, gs) && Faithful(round)
    ensures Tracks(Fold(gs, round).usedTokens, Total(rows, Tokens))
    ensures Fold(gs, round).sourceRequestCount == |rows|
    ensures Fold(gs, round).knownUsageCount == Total(rows, KnownOne)
  {
    FoldCounts(rows, gs, round);
    GroupsCoverTheRows(rows, gs, Tokens);
    GroupsCoverTheRows(rows, gs, One);
    GroupsCoverTheRows(rows, gs, KnownOne);
    TotalOfOnes(rows);
  }

  lemma {:induction false} TotalOfOnes(rows: seq<Row>)
    ensures Total(rows, One) == |rows|
  {
    if rows != [] { TotalOfOnes(rows[..|rows| - 1]); }
  }

  // ---------------------------------------------------------------------
  // The reservation
  // ---------------------------------------------------------------------

  /** Per provider and model, the most input and output tokens that one request can use together. */
  type Registry = map<(Provider, string), nat>

  ghost predicate RegistryOk(g: Registry) { forall k :: k in g ==> g[k] > 0 }

  predicate Registered(g: Registry, p: Option<Provider>, m: Option<string>) {
    p.Some? && m.Some? && (p.value, m.value) in g
  }

  function MaximumOf(g: Registry, p: Option<Provider>, m: Option<string>): nat {
    if Registered(g, p, m) then g[(p.value, m.value)] else 0
  }

  /** None stands for the service-unavailable error. */
  function Reservation(g: Registry, us: seq<Unresolved>, round: nat -> nat): Option<nat> {
    if us == [] then Some(0)
    else
      var total, u := Reservation(g, us[..|us| - 1], round), us[|us| - 1];
      if total.None? || !Registered(g, u.providerId, u.model) then None
      else
        var next := round(total.value + round(MaximumOf(g, u.providerId, u.model) * u.requestCount));
        if next > MAX_SAFE_INTEGER then None else Some(next)
  }

  /** What an unresolved request could have used at most. */
  function Ceiling(g: Registry, r: Row): nat { if r.UsageKnown() then 0 else MaximumOf(g, r.providerId, r.model) }
  function CeilingIn(g: Registry): Row -> nat { r => Ceiling(g, r) }

  predicate AllRegistered(g: Registry, us: seq<Unresolved>) {
    forall i :: 0 <= i < |us| ==> Registered(g, us[i].providerId, us[i].model)
  }

  lemma {:induction false} GroupCeiling(g: Registry, rows: seq<Row>, k: Key)
    ensures Total(rows, Only(KeyOf, k, CeilingIn(g))) == if k.usageKnown then 0
            else MaximumOf(g, k.providerId, k.model) * Total(rows, Only(KeyOf, k, One))
  {
    if rows != [] {
      var n := |rows| - 1;
      GroupCeiling(g, rows[..n], k);
      var c, count := MaximumOf(g, k.providerId, k.model), Total(rows[..n], Only(KeyOf, k, One));
      assert c * (count + 1) == c * count + c;
      assert One(rows[n]) == 1;
    }
  }

  lemma AllRegisteredGrows(g: Registry, us: seq<Unresolved>, u: Unresolved)
    ensures AllRegistered(g, us + [u]) <==> AllRegistered(g, us) && Registered(g, u.providerId, u.model)
  {
    var all := us + [u];
    assert all[|us|] == u;
    assert forall i :: 0 <= i < |us| ==> all[i] == us[i];
  }

  lemma ReservationStep(g: Registry, us: seq<Unresolved>, u: Unresolved, round: nat -> nat, exact: nat)
    requires Faithful(round)
    requires ReservationOk(g, us, round, exact)
    ensures ReservationOk(g, us + [u], round, exact + MaximumOf(g, u.providerId, u.model) * u.requestCount)
  {
    var cost := MaximumOf(g, u.providerId, u.model) * u.requestCount;
    assert (us + [u])[..|us + [u]| - 1] == us;
    AllRegisteredGrows(g, us, u);
    RoundedTracks(round, cost);
    if exact <= MAX_SAFE_INTEGER { RoundedSumTracks(round, exact, round(cost), exact, cost); }
  }

  function UnresolvedIn(g: Group): Unresolved { Unresolved(g.key.providerId, g.key.model, g.sourceRequestCount) }

  lemma {:induction false} ByKeyGrows(rows: seq<Row>, gs: seq<Group>, m: Row -> nat)
    requires gs != []
    ensures ByKey(rows, KeyOf, Keys(gs), m)
            == ByKey(rows, KeyOf, Keys(gs[..|gs| - 1]), m) + Total(rows, Only(KeyOf, gs[|gs| - 1].key, m))
  {
    assert Keys(gs)[..|gs| - 1] == Keys(gs[..|gs| - 1]);
  }

  /** The reservation is the exact ceiling of the unresolved requests, or an error. */
  ghost predicate ReservationOk(g: Registry, us: seq<Unresolved>, round: nat -> nat, exact: nat) {
    && (Reservation(g, us, round).Some? <==> AllRegistered(g, us) && exact <= MAX_SAFE_INTEGER)
    && (Reservation(g, us, round).Some? ==> Reservation(g, us, round).value == exact)
  }

  lemma {:induction false} ReservationTracks(g: Registry, rows: seq<Row>, gs: seq<Group>, round: nat -> nat)
    requires Faithful(round) && forall i :: 0 <= i < |gs| ==> gs[i] == GroupOf(rows, gs[i].key)
    ensures ReservationOk(g, Fold(gs, round).unresolved, round, ByKey(rows, KeyOf, Keys(gs), CeilingIn(g)))
  {
    if gs != [] {
      var n := |gs| - 1;
      ReservationTracks(g, rows, gs[..n], round);
      ByKeyGrows(rows, gs, CeilingIn(g));
      GroupCeiling(g, rows, gs[n].key);
      ReservationStep(g, Fold(gs[..n], round).unresolved, UnresolvedIn(gs[n]), round,
          ByKey(rows, KeyOf, Keys(gs[..n]), CeilingIn(g)));
    }
  }

  // ---------------------------------------------------------------------
  // The budget status
  // ---------------------------------------------------------------------

  datatype BudgetStatus = BudgetStatus(
    monthlyBudgetTokens: nat, usedTokens: nat, reservedTokens: nat, remainingTokens: nat, remainingPercent: real,
      exceeded: bool)

  function CreateBudgetStatus(budget: nat, used: nat, reserved: nat, round: nat -> nat): Option<BudgetStatus> {
    var budgeted := round(used + reserved);
    if budgeted > MAX_SAFE_INTEGER then None
    else
      var remaining := if budget > budgeted then budget - budgeted else 0;
      Some(BudgetStatus(budget, used, reserved, remaining,
                        if budget == 0 then 0.0 else (remaining as real / budget as real) * 100.0,
                        budgeted >= budget))
  }

  /** The numbers of a status: what is left is the budget less used and reserved tokens, if any is left, and its share
      of the budget in percent. */
  predicate StatusShows(s: BudgetStatus, budget: nat, used: nat, reserved: nat) {
    && s.monthlyBudgetTokens == budget && s.usedTokens == used && s.reservedTokens == reserved
    && (s.exceeded <==> used + reserved >= budget)
    && s.remainingTokens == (if used + reserved >= budget then 0 else budget - used - reserved)
    && s.remainingPercent * budget as real == 100.0 * s.remainingTokens as real
    && (budget == 0 ==> s.remainingPercent == 0.0)
  }

  lemma CreatedStatusShows(budget: nat, used: nat, reserved: nat, round: nat -> nat)
    requires Faithful(round) && used + reserved <= MAX_SAFE_INTEGER
    ensures CreateBudgetStatus(budget, used, reserved, round).Some?
    ensures StatusShows(CreateBudgetStatus(budget, used, reserved, round).value, budget, used, reserved)
  {
    var s := CreateBudgetStatus(budget, used, reserved, round).value;
    if budget > 0 {
      var q := s.remainingTokens as real / budget as real;
      assert q * budget as real == s.remainingTokens as real;
    }
  }

  function StatusOf(budget: nat, gs: seq<Group>, g: Registry, round: nat -> nat): Option<BudgetStatus> {
    var aggregate := Fold(gs, round);
    var reserved := Reservation(g, aggregate.unresolved, round);
    if reserved.None? then None else CreateBudgetStatus(budget, aggregate.usedTokens, reserved.value, round)
  }

  function Exact(g: Registry, rows: seq<Row>): nat { Total(rows, Tokens) + Total(rows, CeilingIn(g)) }

  ghost predicate Priced(g: Registry, rows: seq<Row>) {
    forall r :: r in rows && !r.UsageKnown() ==> Registered(g, r.providerId, r.model)
  }

  lemma {:induction false} UnresolvedOf(gs: seq<Group>, round: nat -> nat, u: Unresolved)
    ensures u in Fold(gs, round).unresolved
            <==> exists i :: 0 <= i < |gs| && !gs[i].key.usageKnown && u == UnresolvedIn(gs[i])
  {
    if gs != [] {
      var n := |gs| - 1;
      UnresolvedOf(gs[..n], round, u);
      assert forall i :: 0 <= i < n ==> gs[i] == gs[..n][i];
    }
  }

  lemma {:induction false} UnresolvedArePriced(g: Registry, rows: seq<Row>, gs: seq<Group>, round: nat -> nat)
    requires IsGrouping(rows, gs)
    ensures AllRegistered(g, Fold(gs, round).unresolved) <==> Priced(g, rows)
  {
    var us := Fold(gs, round).unresolved;
    if AllRegistered(g, us) {
      forall r | r in rows && !r.UsageKnown() ensures Registered(g, r.providerId, r.model) {
        var i :| 0 <= i < |gs| && Keys(gs)[i] == KeyOf(r);
        var u := UnresolvedIn(gs[i]);
        UnresolvedOf(gs, round, u);
        assert u in us;
      }
    }
    if Priced(g, rows) {
      forall i | 0 <= i < |us| ensures Registered(g, us[i].providerId, us[i].model) {
        assert us[i] in us;
        UnresolvedOf(gs, round, us[i]);
        var j :| 0 <= j < |gs| && !gs[j].key.usageKnown && us[i] == UnresolvedIn(gs[j]);
        assert Keys(gs)[j] in Keys(gs);
        var r :| r in rows && KeyOf(r) == Keys(gs)[j];
      }
    }
  }

  /** A status is given exactly when every unresolved request can be priced and the exact total is a safe integer;
      it then holds the exact numbers.  Nothing depends on the order of the groups or on how large sums are rounded. */
  lemma {:induction false} StatusIsExact(budget: nat, rows: seq<Row>, gs: seq<Group>, g: Registry, round: nat -> nat)
    requires IsGrouping(rows, gs) && Faithful(round)
    ensures StatusOf(budget, gs, g, round).Some? <==> Priced(g, rows) && Exact(g, rows) <= MAX_SAFE_INTEGER
    ensures StatusOf(budget, gs, g, round).Some? ==>
              var s := StatusOf(budget, gs, g, round).value;
              StatusShows(s, budget, Total(rows, Tokens), Total(rows, CeilingIn(g)))
  {
    FoldIsDirectSum(rows, gs, round);
    ReservationTracks(g, rows, gs, round);
    GroupsCoverTheRows(rows, gs, CeilingIn(g));
    UnresolvedArePriced(g, rows, gs, round);
    if Exact(g, rows) <= MAX_SAFE_INTEGER {
      CreatedStatusShows(budget, Total(rows, Tokens), Total(rows, CeilingIn(g)), round);
    }
  }

  /** The order of the groups is immaterial. */
  lemma StatusIgnoresOrder(budget: nat, rows: seq<Row>, gs: seq<Group>, hs: seq<Group>, g: Registry, round: nat -> nat)
    requires IsGrouping(rows, gs) && IsGrouping(rows, hs) && Faithful(round)
    ensures StatusOf(budget, gs, g, round) == StatusOf(budget, hs, g, round)
  {
    StatusIsExact(budget, rows, gs, g, round);
    StatusIsExact(budget, rows, hs, g, round);
  }

  /** The two writers of the rollup ask the same question: no reservation means no unknown usage. */
  lemma {:induction false} ReservationZeroIff(rows: seq<Row>, gs: seq<Group>, g: Registry, round: nat -> nat)
    requires IsGrouping(rows, gs) && Faithful(round) && RegistryOk(g)
    ensures Reservation(g, Fold(gs, round).unresolved, round) == Some(0)
            <==> Fold(gs, round).knownUsageCount == Fold(gs, round).sourceRequestCount
    ensures Reservation(g, Fold(gs, round).unresolved, round) == Some(0) <==> forall r :: r in rows ==> r.UsageKnown()
  {
    FoldIsDirectSum(rows, gs, round);
    ReservationTracks(g, rows, gs, round);
    GroupsCoverTheRows(rows, gs, CeilingIn(g));
    UnresolvedArePriced(g, rows, gs, round);
    TotalOfNothing(rows, CeilingIn(g));
    AllKnownIff(rows);
    assert Priced(g, rows) ==> forall r :: r in rows ==> (CeilingIn(g)(r) == 0 <==> r.UsageKnown());
  }

  lemma {:induction false} AllKnownIff(rows: seq<Row>)
    ensures Total(rows, KnownOne) == |rows| <==> forall r :: r in rows ==> r.UsageKnown()
  {
    var unknown := r => 1 - KnownOne(r);
    TotalsAdd(rows, KnownOne, unknown, One);
    TotalOfOnes(rows);
    TotalOfNothing(rows, unknown);
  }

  /** If no unresolved request used more than its model allows, "not exceeded" is the truth. */
  lemma {:induction false} NotExceededIsSafe(budget: nat, rows: seq<Row>, gs: seq<Group>, g: Registry,
                                             round: nat -> nat, used: Row -> nat)
    requires IsGrouping(rows, gs) && Faithful(round)
    requires forall r :: r in rows ==>
               used(r) <= if r.UsageKnown() then Tokens(r) else MaximumOf(g, r.providerId, r.model)
    requires StatusOf(budget, gs, g, round).Some? && !StatusOf(budget, gs, g, round).value.exceeded
    ensures Total(rows, used) < budget
  {
    StatusIsExact(budget, rows, gs, g, round);
    var most := r => Tokens(r) + Ceiling(g, r);
    TotalsAdd(rows, Tokens, CeilingIn(g), most);
    TotalsCompare(rows, used, most);
  }

  function InPeriod(orgId: nat, start: int, end: int): Row -> bool {
    (r: Row) => r.orgId == orgId && r.status != BLOCKED && start <= r.createdAt < end
  }

  /** The rows that count towards an organisation's period. */
  function PeriodRows(log: seq<Row>, orgId: nat, start: int, end: int): seq<Row> {
    Select(log, InPeriod(orgId, start, end))
  }

  /** A period counts the organisation's rows that reached a provider, from its start on and before its end. */
  lemma PeriodCounts(log: seq<Row>, orgId: nat, start: int, end: int, r: Row)
    ensures r in PeriodRows(log, orgId, start, end) <==>
              && r in log && r.orgId == orgId && start <= r.createdAt && r.createdAt < end
              && r.status in {COMPLETED, FAILED, INTERRUPTED}
  {
  }

  /** Once exceeded, whatever is logged later never makes the budget look free again. */
  lemma ExceededStays(budget: nat, log: seq<Row>, more: seq<Row>, orgId: nat, start: int, end: int,
                      gs: seq<Group>, hs: seq<Group>, g: Registry, round: nat -> nat)
    requires IsGrouping(PeriodRows(log, orgId, start, end), gs)
             && IsGrouping(PeriodRows(log + more, orgId, start, end), hs)
    requires Faithful(round) && StatusOf(budget, gs, g, round).Some? && StatusOf(budget, gs, g, round).value.exceeded
    ensures StatusOf(budget, hs, g, round).Some? ==> StatusOf(budget, hs, g, round).value.exceeded
  {
    var rows, added := PeriodRows(log, orgId, start, end), PeriodRows(more, orgId, start, end);
    SelectGrows(log, more, InPeriod(orgId, start, end));
    StatusIsExact(budget, rows, gs, g, round);
    StatusIsExact(budget, rows + added, hs, g, round);
    TotalGrows(rows, added, Tokens);
    TotalGrows(rows, added, CeilingIn(g));
  }

  /** Nothing remains exactly when the budget is used up. */
  lemma NothingRemainsIffExceeded(budget: nat, used: nat, reserved: nat, round: nat -> nat)
    ensures var s := CreateBudgetStatus(budget, used, reserved, round);
            s.Some? ==>
              && (s.value.remainingTokens == 0 <==> s.value.exceeded)
              && (s.value.remainingPercent == 0.0 <==> s.value.exceeded)
                        && 0.0 <= s.value.remainingPercent <= 100.0
  {
    var s := CreateBudgetStatus(budget, used, reserved, round);
    if s.Some? && budget > 0 { Percentage(s.value.remainingTokens, budget); }
  }

  lemma Percentage(part: nat, whole: nat)
    requires part <= whole && whole > 0
    ensures var p := part as real / whole as real * 100.0; 0.0 <= p <= 100.0 && (p == 0.0 <==> part == 0)
  {
    var q := part as real / whole as real;
    assert q * whole as real == part as real;
    assert 0.0 <= q <= 1.0;
  }

  // ---------------------------------------------------------------------
  // The rollups
  // ---------------------------------------------------------------------

  datatype Rollup = Rollup(usedTokens: nat, sourceRequestCount: nat)
  datatype Outcome = APPLIED | USAGE_UNAVAILABLE

  /** The rollup that a period's rows call for: the exact sums, when all usage is known and they are safe integers. */
  ghost function DueRollup(rows: seq<Row>): Option<Rollup> {
    if (forall r :: r in rows ==> r.UsageKnown()) && Total(rows, Tokens) <= MAX_SAFE_INTEGER
      && |rows| <= MAX_SAFE_INTEGER
    then Some(Rollup(Total(rows, Tokens), |rows|)) else None
  }

  /** The rollup collection, by organisation and period. */
  class RollupStore {
    var rollups: map<(nat, string), Rollup>

    /** A plain overwrite, checked only by the field validators. */
    method UpsertRollup(orgId: nat, period: string, usedTokens: nat, sourceRequestCount: nat) returns (ok: bool)
      modifies this
      ensures ok <==> usedTokens <= MAX_SAFE_INTEGER && sourceRequestCount <= MAX_SAFE_INTEGER
      ensures rollups == if ok then old(rollups)[(orgId, period) := Rollup(usedTokens, sourceRequestCount)]
              else old(rollups)
    {
      ok := usedTokens <= MAX_SAFE_INTEGER && sourceRequestCount <= MAX_SAFE_INTEGER;
      if ok { rollups := rollups[(orgId, period) := Rollup(usedTokens, sourceRequestCount)]; }
    }

    /** None is the service-unavailable error.  The rollup is refreshed exactly when one is due. */
    method ReadAuthoritativeBudgetStatus(orgId: nat, period: string, budget: Option<nat>, rows: seq<Row>,
                                         gs: seq<Group>, g: Registry, round: nat -> nat)
      returns (status: Option<BudgetStatus>)
      requires IsGrouping(rows, gs) && Faithful(round) && RegistryOk(g)
      modifies this
      ensures status.Some? <==> budget.Some? && Priced(g, rows) && Exact(g, rows) <= MAX_SAFE_INTEGER
                                && ((forall r :: r in rows ==> r.UsageKnown()) ==> |rows| <= MAX_SAFE_INTEGER)
      ensures status.Some? ==>
                StatusShows(status.value, budget.value, Total(rows, Tokens), Total(rows, CeilingIn(g)))
      ensures rollups == if budget.Some? && DueRollup(rows).Some?
              then old(rollups)[(orgId, period) := DueRollup(rows).value] else old(rollups)
    {
      if budget.None? { return None; }
      var aggregate := Fold(gs, round);
      var reserved := Reservation(g, aggregate.unresolved, round);
      StatusIsExact(budget.value, rows, gs, g, round);
      ReservationZeroIff(rows, gs, g, round);
      FoldIsDirectSum(rows, gs, round);
      NoneUnknownCostNothing(rows, g);
      if reserved.None? { return None; }
      if reserved.value == 0 {
        var ok := UpsertRollup(orgId, period, aggregate.usedTokens, aggregate.sourceRequestCount);
        if !ok { return None; }
      }
      status := CreateBudgetStatus(budget.value, aggregate.usedTokens, reserved.value, round);
    }

    /** None is the failure that makes the job retry. */
    method ReconcileAuthoritativeTokenRollup(orgId: nat, period: string, rows: seq<Row>, gs: seq<Group>,
                                             round: nat -> nat)
      returns (outcome: Option<Outcome>)
      requires IsGrouping(rows, gs) && Faithful(round)
      modifies this
      ensures outcome == Some(USAGE_UNAVAILABLE) <==> exists r :: r in rows && !r.UsageKnown()
      ensures outcome == Some(APPLIED) <==> DueRollup(rows).Some?
      ensures outcome == Some(APPLIED) <==>
                && (forall r :: r in rows ==> r.UsageKnown())
                && Total(rows, Tokens) <= 9_007_199_254_740_991 && |rows| <= 9_007_199_254_740_991
      ensures rollups == if DueRollup(rows).Some? then old(rollups)[(orgId, period) := DueRollup(rows).value]
              else old(rollups)
    {
      var aggregate := Fold(gs, round);
      FoldIsDirectSum(rows, gs, round);
      AllKnownIff(rows);
      if aggregate.knownUsageCount != aggregate.sourceRequestCount { return Some(USAGE_UNAVAILABLE); }
      var ok := UpsertRollup(orgId, period, aggregate.usedTokens, aggregate.sourceRequestCount);
      outcome := if ok then Some(APPLIED) else None;
    }
  }

  lemma {:induction false} NoneUnknownCostNothing(rows: seq<Row>, g: Registry)
    ensures (forall r :: r in rows ==> r.UsageKnown()) ==> Total(rows, CeilingIn(g)) == 0 && Priced(g, rows)
  {
    TotalOfNothing(rows, CeilingIn(g));
  }
}
