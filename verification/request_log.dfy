/** The append-only record of request outcomes, and sums over it. */
module RequestLog {
  import opened Prelude

  datatype Status = COMPLETED | BLOCKED | FAILED | INTERRUPTED
  datatype Action = ALLOW | ALLOW_WITH_MASK | BLOCK
  datatype Provider = Groq | Gemini | Third

  const MAX_SAFE_INTEGER := 9007199254740991

  datatype Row = Row(
    requestId: nat, orgId: nat, userId: nat, status: Status, policyAction: Action,
    providerId: Option<Provider>, model: Option<string>,
    inputTokens: Option<int>, outputTokens: Option<int>, totalTokens: Option<int>, createdAt: int)
  {
    predicate UsageKnown() { inputTokens.Some? && outputTokens.Some? && totalTokens.Some? }
  }

  predicate TokenFieldOk(v: Option<int>) { v.Some? ==> 0 <= v.value <= MAX_SAFE_INTEGER }

  function Present(v: Option<int>): nat { if v.Some? then 1 else 0 }

  /** Usage is all there, and adds up, or is all missing. */
  predicate UsageComplete(r: Row) {
    var present := Present(r.inputTokens) + Present(r.outputTokens) + Present(r.totalTokens);
    && (present == 0 || present == 3)
    && (r.UsageKnown() ==> r.totalTokens.value == r.inputTokens.value + r.outputTokens.value)
  }

  /** A blocked request never reached a provider; every other one did. */
  predicate OutcomeShape(r: Row) {
    if r.status == BLOCKED then
      && r.policyAction == BLOCK
      && r.providerId.None? && r.model.None? && r.inputTokens.None? && r.outputTokens.None? && r.totalTokens.None?
    else
      r.policyAction != BLOCK && r.providerId.Some? && r.model.Some?
  }

  predicate ValidRow(r: Row) {
    && TokenFieldOk(r.inputTokens) && TokenFieldOk(r.outputTokens) && TokenFieldOk(r.totalTokens)
    && (r.model.Some? ==> 1 <= |r.model.value| <= 200)
    && UsageComplete(r) && OutcomeShape(r)
  }

  /** Exactly two kinds of rows pass: blocked requests without a trace of a provider, and provider outcomes whose
      usage is either missing or the sum of its parts. */
  lemma ValidRowsAre(r: Row)
    ensures ValidRow(r) <==>
            || r == Row(r.requestId, r.orgId, r.userId, BLOCKED, BLOCK, None, None, None, None, None, r.createdAt)
            || (&& r.status in {COMPLETED, FAILED, INTERRUPTED} && r.policyAction in {ALLOW, ALLOW_WITH_MASK}
                && r.providerId.Some? && r.model.Some? && 1 <= |r.model.value| <= 200
                && (|| (r.inputTokens.None? && r.outputTokens.None? && r.totalTokens.None?)
                    || (exists i: nat, o: nat :: i + o <= MAX_SAFE_INTEGER
                          && r.inputTokens == Some(i) && r.outputTokens == Some(o) && r.totalTokens == Some(i + o))))
  {
    if ValidRow(r) && r.UsageKnown() {
      var i: nat, o: nat := r.inputTokens.value, r.outputTokens.value;
      assert r.totalTokens == Some(i + o);
    }
  }

  ghost predicate ValidLog(log: seq<Row>) {
    && (forall r :: r in log ==> ValidRow(r))
    && (forall i, j :: 0 <= i < j < |log| ==> log[i].requestId != log[j].requestId)
  }

  /** The collection: rows can be added, under a unique request id, and never changed. */
  class RequestLogStore {
    var rows: seq<Row>

    constructor ()
      ensures rows == []
    {
      rows := [];
    }

    method Append(row: Row) returns (ok: bool)
      requires ValidLog(rows)
      modifies this
      ensures ValidLog(rows)
      ensures ok <==> ValidRow(row) && forall r :: r in old(rows) ==> r.requestId != row.requestId
      ensures rows == if ok then old(rows) + [row] else old(rows)
    {
      ok := ValidRow(row) && forall r | r in rows :: r.requestId != row.requestId;
      if ok { rows := rows + [row]; }
    }
  }

  // ---------------------------------------------------------------------
  // Sums over rows
  // ---------------------------------------------------------------------

  function Total(rows: seq<Row>, f: Row -> nat): nat {
    if rows == [] then 0 else Total(rows[..|rows| - 1], f) + f(rows[|rows| - 1])
  }

  lemma {:induction false} TotalsAdd(rows: seq<Row>, f: Row -> nat, g: Row -> nat, h: Row -> nat)
    requires forall r :: r in rows ==> h(r) == f(r) + g(r)
    ensures Total(rows, h) == Total(rows, f) + Total(rows, g)
  {
    if rows != [] { TotalsAdd(rows[..|rows| - 1], f, g, h); }
  }

  lemma {:induction false} TotalsAgree(rows: seq<Row>, f: Row -> nat, g: Row -> nat)
    requires forall r :: r in rows ==> f(r) == g(r)
    ensures Total(rows, f) == Total(rows, g)
  {
    if rows != [] { TotalsAgree(rows[..|rows| - 1], f, g); }
  }

  lemma {:induction false} TotalsCompare(rows: seq<Row>, f: Row -> nat, g: Row -> nat)
    requires forall r :: r in rows ==> f(r) <= g(r)
    ensures Total(rows, f) <= Total(rows, g)
  {
    if rows != [] { TotalsCompare(rows[..|rows| - 1], f, g); }
  }

  lemma {:induction false} TotalOfNothing(rows: seq<Row>, f: Row -> nat)
    ensures Total(rows, f) == 0 <==> forall r :: r in rows ==> f(r) == 0
  {
    if rows != [] {
      var n := |rows| - 1;
      TotalOfNothing(rows[..n], f);
      assert rows == rows[..n] + [rows[n]];
    }
  }

  lemma {:induction false} TotalGrows(a: seq<Row>, b: seq<Row>, f: Row -> nat)
    ensures Total(a + b, f) == Total(a, f) + Total(b, f)
  {
    if b == [] {
      assert a + b == a;
    } else {
      var n := |b| - 1;
      TotalGrows(a, b[..n], f);
      assert (a + b)[..|a + b| - 1] == a + b[..n];
    }
  }

  function Select(rows: seq<Row>, p: Row -> bool): (s: seq<Row>)
    ensures forall r :: r in s <==> r in rows && p(r)
  {
    if rows == [] then []
    else
      assert rows == rows[..|rows| - 1] + [rows[|rows| - 1]];
      Select(rows[..|rows| - 1], p) + if p(rows[|rows| - 1]) then [rows[|rows| - 1]] else []
  }

  lemma {:induction false} SelectLast(rows: seq<Row>, p: Row -> bool)
    requires rows != []
    ensures Select(rows, p) == Select(rows[..|rows| - 1], p) + if p(rows[|rows| - 1]) then [rows[|rows| - 1]] else []
  {
  }

  lemma {:induction false} SelectGrows(a: seq<Row>, b: seq<Row>, p: Row -> bool)
    ensures Select(a + b, p) == Select(a, p) + Select(b, p)
  {
    if b == [] {
      assert a + b == a;
    } else {
      var n := |b| - 1;
      SelectGrows(a, b[..n], p);
      var all, last := a + b, if p(b[n]) then [b[n]] else [];
      assert all[..|all| - 1] == a + b[..n] && all[|all| - 1] == b[n];
      SelectLast(all, p);
      SelectLast(b, p);
    }
  }

  // ---------------------------------------------------------------------
  // Sums by key
  // ---------------------------------------------------------------------

  /** A measure restricted to the rows with one key. */
  function Only<K(==)>(key: Row -> K, k: K, m: Row -> nat): Row -> nat { r => if key(r) == k then m(r) else 0 }
  function Among<K(==)>(key: Row -> K, ks: seq<K>, m: Row -> nat): Row -> nat { r => if key(r) in ks then m(r) else 0 }

  /** The sum of a measure, key by key. */
  function ByKey<K(==)>(rows: seq<Row>, key: Row -> K, ks: seq<K>, m: Row -> nat): nat {
    if ks == [] then 0 else ByKey(rows, key, ks[..|ks| - 1], m) + Total(rows, Only(key, ks[|ks| - 1], m))
  }

  lemma {:induction false} ByKeyIsAmong<K>(rows: seq<Row>, key: Row -> K, ks: seq<K>, m: Row -> nat)
    requires forall i, j :: 0 <= i < j < |ks| ==> ks[i] != ks[j]
    ensures ByKey(rows, key, ks, m) == Total(rows, Among(key, ks, m))
  {
    if ks == [] {
      TotalOfNothing(rows, Among(key, ks, m));
    } else {
      var n := |ks| - 1;
      ByKeyIsAmong(rows, key, ks[..n], m);
      assert ks == ks[..n] + [ks[n]];
      TotalsAdd(rows, Among(key, ks[..n], m), Only(key, ks[n], m), Among(key, ks, m));
    }
  }

  /** Summing key by key, in any order of the keys, is summing. */
  lemma {:induction false} PartitionTotal<K>(rows: seq<Row>, key: Row -> K, ks: seq<K>, m: Row -> nat)
    requires forall i, j :: 0 <= i < j < |ks| ==> ks[i] != ks[j]
    requires forall r :: r in rows ==> key(r) in ks
    ensures ByKey(rows, key, ks, m) == Total(rows, m)
  {
    ByKeyIsAmong(rows, key, ks, m);
    TotalsAgree(rows, Among(key, ks, m), m);
  }
}
