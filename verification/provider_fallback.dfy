/** Ordered fallback over provider candidates, for one-shot completions and for streams. */
module ProviderFallback {
  import opened Prelude
  import opened ProviderRetry

  datatype Candidate = Candidate(providerId: nat, model: nat)

  datatype AttemptStatus = Succeeded | Failed | SkippedOpenCircuit
  datatype Attempt = Attempt(providerId: nat, model: nat, status: AttemptStatus, attemptNumber: nat,
                             errorCategory: Option<Category>, statusCode: Option<int>)

  function SkippedAttempt(c: Candidate, n: nat): Attempt {
    Attempt(c.providerId, c.model, SkippedOpenCircuit, n, Some(Unavailable), Some(503))
  }

  function SucceededAttempt(c: Candidate, n: nat): Attempt {
    Attempt(c.providerId, c.model, Succeeded, n, None, None)
  }

  function FailedAttempt(c: Candidate, n: nat, e: Error): Attempt {
    if e.ProviderError? then Attempt(c.providerId, c.model, Failed, n, Some(e.category), e.statusCode)
    else Attempt(c.providerId, c.model, Failed, n, Some(ProviderFault), None)
  }

  /** Per candidate: whether its circuit reads as open when its turn comes, and what its operations do. */
  datatype FallbackEnv<!T> = FallbackEnv(isOpen: nat -> bool, candidates: nat -> RetryEnv<T>, abortFrom: nat)
  {
    ghost predicate Valid() { forall i :: candidates(i).abortFrom == abortFrom }
  }

  /** An adapter call: candidate index and attempt. An operation the breaker rejects calls no adapter. */
  datatype Call = Call(candidate: nat, attempt: nat)

  function CallsOf<T>(env: RetryEnv<T>, i: nat, ops: nat): seq<Call> {
    if ops == 0 then []
    else CallsOf(env, i, ops - 1) + (if env.attempts(ops).CircuitOpen? then [] else [Call(i, ops)])
  }

  /** The adapter calls of the candidates so far, `ops[i]` operations having begun on candidate `i`. */
  function AllCalls<T>(env: FallbackEnv<T>, ops: seq<nat>): seq<Call> {
    if ops == [] then []
    else AllCalls(env, ops[..|ops| - 1]) + CallsOf(env.candidates(|ops| - 1), |ops| - 1, ops[|ops| - 1])
  }

  lemma {:induction false} CallsOfElements<T>(env: RetryEnv<T>, i: nat, ops: nat, c: Call)
    ensures |CallsOf(env, i, ops)| <= ops
    ensures c in CallsOf(env, i, ops) <==>
              c.candidate == i && 1 <= c.attempt <= ops && !env.attempts(c.attempt).CircuitOpen?
  {
    if ops > 0 { CallsOfElements(env, i, ops - 1, c); }
  }

  /** A candidate's adapter is called by just the operations that its breaker lets through. */
  lemma {:induction false} AllCallsElements<T>(env: FallbackEnv<T>, ops: seq<nat>, c: Call)
    ensures c in AllCalls(env, ops) <==>
              && c.candidate < |ops| && 1 <= c.attempt <= ops[c.candidate]
              && !env.candidates(c.candidate).attempts(c.attempt).CircuitOpen?
  {
    if ops != [] {
      var n := |ops| - 1;
      AllCallsElements(env, ops[..n], c);
      CallsOfElements(env.candidates(n), n, ops[n], c);
    }
  }

  datatype Selected<+T> = Selected(candidate: nat, attempt: nat, value: T)

  /** The operations and the record of one candidate whose turn came at tick `start`. */
  ghost predicate TurnOk<T>(c: Candidate, p: RetryPolicy, env: FallbackEnv<T>, i: nat, start: nat, ops: nat, a: Attempt)
  {
    && a.providerId == c.providerId && a.model == c.model && a.attemptNumber == i + 1
    && if env.isOpen(i) then
         ops == 0 && a.status.SkippedOpenCircuit? && a.errorCategory == Some(Unavailable) && a.statusCode == Some(503)
       else
         && BeginsExactly(p, env.candidates(i), start, ops)
         && match Verdict(p, env.candidates(i), ops)
            case Success(_) => a.status.Succeeded? && a.errorCategory.None? && a.statusCode.None?
            case Failure(e) =>
              && a.status.Failed?
              && a.errorCategory == Some(if e.ProviderError? then e.category else ProviderFault)
              && a.statusCode == if e.ProviderError? then e.statusCode else None
  }

  /** The ticks pass by as the operations look at the signal; an interrupted candidate has seen it aborted. */
  ghost predicate TicksPass<T>(p: RetryPolicy, env: FallbackEnv<T>, i: nat, start: nat, ops: nat, next: nat) {
    && start <= next <= start + 3 * ops + 1
    && (p.Valid() && !env.isOpen(i) && !Settles(p, env.candidates(i), ops) ==>
          next > env.abortFrom || (ops >= 1 && env.candidates(i).sleepRejects(ops)))
  }

  /** The turns of the first candidates: when they came, what began, and what was recorded. */
  ghost predicate TurnsOk<T>(cands: seq<Candidate>, p: RetryPolicy, env: FallbackEnv<T>, attempts: seq<Attempt>,
                             ops: seq<nat>, starts: seq<nat>)
  {
    && |attempts| == |ops| <= |cands| && |starts| == |ops| + 1 && starts[0] == 0
    && forall i :: 0 <= i < |ops| ==>
         && TurnOk(cands[i], p, env, i, starts[i], ops[i], attempts[i])
         && TicksPass(p, env, i, starts[i], ops[i], starts[i + 1])
  }

  predicate Selects<T>(p: RetryPolicy, env: FallbackEnv<T>, i: nat, ops: nat) {
    !env.isOpen(i) && Verdict(p, env.candidates(i), ops).Success?
  }

  /** What a run of the loop over the candidates guarantees; `got` is the selected operation's result.  Every candidate
      up to the selected one has had its turn, and none before it was successful. */
  ghost predicate FallbackRun<T>(cands: seq<Candidate>, p: RetryPolicy, env: FallbackEnv<T>, got: Option<Selected<T>>,
                                 attempts: seq<Attempt>, calls: seq<Call>, ops: seq<nat>, starts: seq<nat>)
  {
    && TurnsOk(cands, p, env, attempts, ops, starts) && calls == AllCalls(env, ops)
    && (forall i :: 0 <= i < |ops| - 1 ==> !Selects(p, env, i, ops[i]))
    && match got
       case None => |ops| == |cands| && (ops != [] ==> !Selects(p, env, |ops| - 1, ops[|ops| - 1]))
       case Some(x) =>
         && |ops| == x.candidate + 1 && ops[x.candidate] == x.attempt && !env.isOpen(x.candidate)
         && Verdict(p, env.candidates(x.candidate), x.attempt) == Success(x.value)
  }

  lemma {:induction false} TurnsNext<T>(cands: seq<Candidate>, p: RetryPolicy, env: FallbackEnv<T>,
                                        attempts: seq<Attempt>, ops: seq<nat>, starts: seq<nat>,
                                        a: Attempt, n: nat, next: nat)
    requires TurnsOk(cands, p, env, attempts, ops, starts) && |ops| < |cands|
    requires TurnOk(cands[|ops|], p, env, |ops|, starts[|ops|], n, a)
    requires TicksPass(p, env, |ops|, starts[|ops|], n, next)
    ensures TurnsOk(cands, p, env, attempts + [a], ops + [n], starts + [next])
    ensures AllCalls(env, ops + [n]) == AllCalls(env, ops) + CallsOf(env.candidates(|ops|), |ops|, n)
  {
    assert (ops + [n])[..|ops|] == ops;
  }

  function RecordOf<T>(c: Candidate, i: nat, r: Result<T>): Attempt {
    if r.Success? then SucceededAttempt(c, i + 1) else FailedAttempt(c, i + 1, r.error)
  }

  lemma RecordTells<T>(c: Candidate, p: RetryPolicy, env: FallbackEnv<T>, i: nat, start: nat, n: nat)
    requires !env.isOpen(i) && BeginsExactly(p, env.candidates(i), start, n)
    ensures TurnOk(c, p, env, i, start, n, RecordOf(c, i, Verdict(p, env.candidates(i), n)))
  {
  }

  lemma {:induction false} CallsBounded<T>(cands: seq<Candidate>, p: RetryPolicy, env: FallbackEnv<T>,
                                           attempts: seq<Attempt>, ops: seq<nat>, starts: seq<nat>, n: nat)
    requires TurnsOk(cands, p, env, attempts, ops, starts) && n <= |ops|
    ensures |AllCalls(env, ops[..n])| <= Times(n, p.MaxOps())
    decreases n
  {
    if n > 0 {
      CallsBounded(cands, p, env, attempts, ops, starts, n - 1);
      assert ops[..n][..n - 1] == ops[..n - 1];
      assert TurnOk(cands[n - 1], p, env, n - 1, starts[n - 1], ops[n - 1], attempts[n - 1]);
      if p.Valid() { OpsBounded(p, env.candidates(n - 1), starts[n - 1], ops[n - 1], env.isOpen(n - 1)); }
      CallsOfElements(env.candidates(n - 1), n - 1, ops[n - 1], Call(0, 0));
    }
  }

  /** Tries the candidates in order until one is successful. */
  method OrderedFallback<T>(cands: seq<Candidate>, p: RetryPolicy, env: FallbackEnv<T>)
    returns (got: Option<Selected<T>>, attempts: seq<Attempt>, calls: seq<Call>, ghost ops: seq<nat>,
             ghost starts: seq<nat>)
    requires env.Valid()
    ensures FallbackRun(cands, p, env, got, attempts, calls, ops, starts)
  {
    attempts, calls, ops, starts := [], [], [], [0];
    var tick := 0;
    var index := 0;
    while index < |cands|
      invariant 0 <= index <= |cands| && |ops| == index
      invariant TurnsOk(cands, p, env, attempts, ops, starts) && calls == AllCalls(env, ops) && tick == starts[index]
      invariant forall i :: 0 <= i < |ops| ==> !Selects(p, env, i, ops[i])
    {
      var candidate := cands[index];
      if env.isOpen(index) {
        var attempt := SkippedAttempt(candidate, index + 1);
        TurnsNext(cands, p, env, attempts, ops, starts, attempt, 0, tick);
        assert calls + [] == calls;
        attempts, ops, starts := attempts + [attempt], ops + [0], starts + [tick];
        index := index + 1;
        continue;
      }
      var result, n, delay;
      ghost var waits;
      result, n, delay, tick, waits := RetryProviderOperation(p, env.candidates(index), tick);
      var attempt := if result.Success? then SucceededAttempt(candidate, index + 1)
        else FailedAttempt(candidate, index + 1, result.error);
      RecordTells(candidate, p, env, index, starts[index], n);
      TurnsNext(cands, p, env, attempts, ops, starts, attempt, n, tick);
      calls := calls + CallsOf(env.candidates(index), index, n);
      attempts, ops, starts := attempts + [attempt], ops + [n], starts + [tick];
      if result.Success? {
        return Some(Selected(index, n, result.value)), attempts, calls, ops, starts;
      }
      index := index + 1;
    }
    got := None;
  }

  // ---------------------------------------------------------------------
  // Which candidate is selected
  // ---------------------------------------------------------------------

  /** The candidate's n-th operation is successful, and those before it fail in a way worth retrying. */
  ghost predicate WorksAt<T>(p: RetryPolicy, env: RetryEnv<T>, n: nat) {
    1 <= n <= p.maxAttempts && RetriedUpTo(env, n) && env.attempts(n).Returns?
  }

  /** The candidate's n-th operation fails for good or is the last one allowed, and those before it fail in a way worth
      retrying. */
  ghost predicate FailsAt<T>(p: RetryPolicy, env: RetryEnv<T>, n: nat) {
    && 1 <= n <= p.maxAttempts && RetriedUpTo(env, n) && !env.attempts(n).Returns?
    && (n == p.maxAttempts || !Transient(ErrorOf(env.attempts(n))))
  }

  /** No wait is cut short and the signal is not aborted while the first n candidates have their turn. */
  ghost predicate Undisturbed<T>(p: RetryPolicy, env: FallbackEnv<T>, n: nat) {
    && env.abortFrom > Times(n, 3 * p.MaxOps() + 1)
    && forall i: nat, k: nat :: i < n ==> !env.candidates(i).sleepRejects(k)
  }

  lemma {:induction false} StartsBounded<T>(cands: seq<Candidate>, p: RetryPolicy, env: FallbackEnv<T>,
                                            attempts: seq<Attempt>, ops: seq<nat>, starts: seq<nat>, i: nat)
    requires TurnsOk(cands, p, env, attempts, ops, starts) && i <= |ops| && p.Valid()
    ensures starts[i] <= Times(i, 3 * p.MaxOps() + 1)
    decreases i
  {
    if i > 0 {
      StartsBounded(cands, p, env, attempts, ops, starts, i - 1);
      assert TurnOk(cands[i - 1], p, env, i - 1, starts[i - 1], ops[i - 1], attempts[i - 1]);
      OpsBounded(p, env.candidates(i - 1), starts[i - 1], ops[i - 1], env.isOpen(i - 1));
    }
  }

  lemma OpsBounded<T>(p: RetryPolicy, env: RetryEnv<T>, start: nat, ops: nat, open: bool)
    requires p.Valid() && (if open then ops == 0 else BeginsExactly(p, env, start, ops))
    ensures ops <= p.maxAttempts
  {
    if !open && ops >= 1 { assert Begins(p, env, start, ops); }
  }

  /** Undisturbed, a candidate either works or fails, and its last operation shows which. */
  lemma {:induction false} TurnDecides<T>(p: RetryPolicy, env: RetryEnv<T>, start: nat, ops: nat)
    requires p.Valid() && BeginsExactly(p, env, start, ops) && start + 3 * p.maxAttempts < env.abortFrom
    requires forall k: nat :: !env.sleepRejects(k)
    ensures WorksAt(p, env, ops) || FailsAt(p, env, ops)
    ensures forall n: nat :: WorksAt(p, env, n) ==> n == ops
    ensures Verdict(p, env, ops).Success? <==> WorksAt(p, env, ops)
  {
    assert Begins(p, env, start, 1);
    assert Begins(p, env, start, ops) && !Begins(p, env, start, ops + 1);
    forall n: nat | WorksAt(p, env, n) ensures n == ops {
      assert Begins(p, env, start, n) && !Begins(p, env, start, n + 1);
    }
    if !WorksAt(p, env, ops) && !FailsAt(p, env, ops) {
      assert RetriedUpTo(env, ops + 1);
      assert false;
    }
  }

  /** Undisturbed, the first candidate that works is selected, with its first successful operation; every candidate
      before it, or every one if none is selected, was skipped because its circuit was open, or really failed, and its
      record tells how. */
  lemma {:induction false} FirstWorkingIsSelected<T>(cands: seq<Candidate>, p: RetryPolicy, env: FallbackEnv<T>,
      got: Option<Selected<T>>, attempts: seq<Attempt>, calls: seq<Call>, ops: seq<nat>, starts: seq<nat>)
    requires p.Valid() && env.Valid() && FallbackRun(cands, p, env, got, attempts, calls, ops, starts)
    requires Undisturbed(p, env, |cands|)
    ensures got.Some? <==> exists i: nat, n: nat :: i < |cands| && !env.isOpen(i) && WorksAt(p, env.candidates(i), n)
    ensures got.Some? ==>
              && got.value.candidate < |cands| && !env.isOpen(got.value.candidate)
              && WorksAt(p, env.candidates(got.value.candidate), got.value.attempt)
              && env.candidates(got.value.candidate).attempts(got.value.attempt) == Returns(got.value.value)
    ensures forall i: nat :: i < (if got.Some? then got.value.candidate else |cands|) && !env.isOpen(i) ==>
              && i < |ops| && i < |attempts| && attempts[i].status.Failed? && FailsAt(p, env.candidates(i), ops[i])
              && var e := ErrorOf(env.candidates(i).attempts(ops[i]));
                 && attempts[i].errorCategory == Some(if e.ProviderError? then e.category else ProviderFault)
                 && attempts[i].statusCode == if e.ProviderError? then e.statusCode else None
  {
    forall i: nat | i < |ops| && !env.isOpen(i)
      ensures WorksAt(p, env.candidates(i), ops[i]) || FailsAt(p, env.candidates(i), ops[i])
      ensures forall n: nat :: WorksAt(p, env.candidates(i), n) ==> n == ops[i]
      ensures Selects(p, env, i, ops[i]) <==> WorksAt(p, env.candidates(i), ops[i])
    {
      StartsBounded(cands, p, env, attempts, ops, starts, i);
      TimesGrows(i + 1, |cands|, 3 * p.MaxOps() + 1);
      assert TurnOk(cands[i], p, env, i, starts[i], ops[i], attempts[i]);
      TurnDecides(p, env.candidates(i), starts[i], ops[i]);
    }
    if got.None? {
      forall i: nat | i < |cands| && !env.isOpen(i) ensures !Selects(p, env, i, ops[i]) { }
    }
    forall i: nat | i < |ops| && !env.isOpen(i)
      ensures TurnOk(cands[i], p, env, i, starts[i], ops[i], attempts[i]) { }
  }

  // ---------------------------------------------------------------------
  // Streams
  // ---------------------------------------------------------------------

  /** A stream whose first pull worked: the chunks it will yield and how it ends. */
  datatype Stream<+C> = Stream(chunks: seq<C>, end: Option<Error>)

  datatype StreamEnd = Finished | Broke(error: Error) | Abandoned | AllUnavailable | NoCandidates

  /** Pulls at most `wanted` chunks.  Once a stream is selected its chunks are the only ones yielded, in order
      and without gaps; no other provider is called, and a failure is passed on, not retried. */
  method StreamWithOrderedFallback<C>(cands: seq<Candidate>, p: RetryPolicy, env: FallbackEnv<Stream<C>>, wanted: nat)
    returns (yielded: seq<C>, end: StreamEnd, attempts: seq<Attempt>, calls: seq<Call>,
             ghost got: Option<Selected<Stream<C>>>, ghost ops: seq<nat>, ghost starts: seq<nat>)
    requires env.Valid()
    ensures FallbackRun(cands, p, env, got, attempts, calls, ops, starts)
    ensures |calls| <= Times(|cands|, p.MaxOps())
    ensures end.NoCandidates? <==> cands == []
    ensures end.AllUnavailable? <==> got.None? && cands != []
    ensures got.None? ==> yielded == []
    ensures got.Some? ==>
              && yielded <= got.value.value.chunks && |yielded| <= wanted
              && (end.Finished? ==> yielded == got.value.value.chunks && got.value.value.end.None?)
              && (end.Broke? ==> yielded == got.value.value.chunks && got.value.value.end == Some(end.error))
              && (end.Abandoned? <==> |yielded| == wanted)
  {
    var selected;
    selected, attempts, calls, ops, starts := OrderedFallback(cands, p, env);
    got := selected;
    yielded := [];
    CallsBounded(cands, p, env, attempts, ops, starts, |ops|);
    assert ops[..|ops|] == ops;
    TimesGrows(|ops|, |cands|, p.MaxOps());
    if cands == [] {
      return [], NoCandidates, attempts, calls, got, ops, starts;
    }
    if selected.None? {
      return [], AllUnavailable, attempts, calls, got, ops, starts;
    }
    var stream := selected.value.value;
    while |yielded| < wanted
      invariant |yielded| <= |stream.chunks| && |yielded| <= wanted
      invariant yielded == stream.chunks[..|yielded|]
    {
      if |yielded| == |stream.chunks| {
        end := if stream.end.None? then Finished else Broke(stream.end.value);
        return yielded, end, attempts, calls, got, ops, starts;
      }
      yielded := yielded + [stream.chunks[|yielded|]];
    }
    end := Abandoned;
  }
}
