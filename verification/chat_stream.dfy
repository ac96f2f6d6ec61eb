/**
 One chat request from reservation to answer: preparation, the streaming loop of the
 controller, and the accounting both end in.  Every call that can fail takes its
 outcome from an environment record; the methods return the effects they performed,
 in order.
 */
module ChatStream {
  import opened Prelude

  datatype Status = COMPLETED | FAILED | INTERRUPTED | BLOCKED
  datatype Usage = Usage(inputTokens: nat, outputTokens: nat)
  datatype Chunk = Token(text: string) | Done(usage: Option<Usage>)
  datatype Queue = Billing | Analytics

  datatype Effect =
    | Reserve(ok: bool)
    | StartProvider
    | Append(status: Status, usage: Option<Usage>, ok: bool)
    | PersistMessages(content: string, ok: bool)
    | Enqueue(queue: Queue, ok: bool)
    | RecordRecovery(queue: Queue, ok: bool)
    | Complete(ok: bool)
    | Release(ok: bool)

  /** How often a usage row is asked for. */
  function Appends(es: seq<Effect>): nat {
    if es == [] then 0 else Appends(es[..|es| - 1]) + (if es[|es| - 1].Append? then 1 else 0)
  }

  lemma {:induction false} AppendsAdd(a: seq<Effect>, b: seq<Effect>)
    ensures Appends(a + b) == Appends(a) + Appends(b)
  {
    if b == [] {
      assert a + b == a;
    } else {
      assert (a + b)[..|a + b| - 1] == a + b[..|b| - 1];
      AppendsAdd(a, b[..|b| - 1]);
    }
  }

  lemma {:induction false} NoAppends(es: seq<Effect>)
    requires forall i :: 0 <= i < |es| ==> !es[i].Append?
    ensures Appends(es) == 0
  {
    if es != [] { NoAppends(es[..|es| - 1]); }
  }

  // ---------------------------------------------------------------------
  // Accounting
  // ---------------------------------------------------------------------

  /** What becomes of a job: it is enqueued, or that failed and was recorded for recovery, or both failed. */
  datatype Delivery = Enqueued | Recorded | Dropped

  datatype AccountingEnv = AccountingEnv(appends: bool, persists: bool, billing: Delivery, analytics: Delivery,
      completes: bool)

  datatype Final = Final(status: Status, usage: Option<Usage>, content: Option<string>)

  function EnqueueOrRecord(queue: Queue, d: Delivery): seq<Effect> {
    if d.Enqueued? then [Enqueue(queue, true)] else [Enqueue(queue, false), RecordRecovery(queue, d.Recorded?)]
  }

  function Persisted(f: Final, ok: bool): seq<Effect> {
    if f.status == COMPLETED && f.content.Some? then [PersistMessages(f.content.value, ok)] else []
  }

  function Middle(f: Final, env: AccountingEnv): seq<Effect> {
    Persisted(f, env.persists) + EnqueueOrRecord(Billing, env.billing) + EnqueueOrRecord(Analytics, env.analytics)
  }

  function Accounting(f: Final, env: AccountingEnv): seq<Effect> {
    [Append(f.status, f.usage, env.appends)] + (if env.appends then Middle(f, env) + [Complete(env.completes)] else [])
  }

  method RecordUsageAndComplete(f: Final, env: AccountingEnv) returns (effects: seq<Effect>, threw: bool)
    ensures effects == Accounting(f, env)
    ensures threw <==> !env.appends || !env.completes || (f.status == COMPLETED && f.content.Some? && !env.persists)
  {
    effects := [Append(f.status, f.usage, env.appends)];
    if !env.appends { return effects, true; }
    ghost var start := effects;
    var messagePersistenceError := false;
    if f.status == COMPLETED && f.content.Some? {
      effects := effects + [PersistMessages(f.content.value, env.persists)];
      messagePersistenceError := !env.persists;
    }
    assert effects == start + Persisted(f, env.persists);
    effects := effects + [Enqueue(Billing, env.billing.Enqueued?)];
    if !env.billing.Enqueued? { effects := effects + [RecordRecovery(Billing, env.billing.Recorded?)]; }
    assert effects == start + (Persisted(f, env.persists) + EnqueueOrRecord(Billing, env.billing));
    effects := effects + [Enqueue(Analytics, env.analytics.Enqueued?)];
    if !env.analytics.Enqueued? { effects := effects + [RecordRecovery(Analytics, env.analytics.Recorded?)]; }
    assert effects == start + Middle(f, env);
    effects := effects + [Complete(env.completes)];
    threw := messagePersistenceError || !env.completes;
  }

  predicate Plain(e: Effect) { e.PersistMessages? || e.Enqueue? || e.RecordRecovery? }

  lemma MiddleIsPlain(f: Final, env: AccountingEnv)
    ensures forall e :: e in Middle(f, env) ==> Plain(e)
    ensures forall q, ok :: Enqueue(q, ok) in Middle(f, env) <==> ok == DeliveryOf(env, q).Enqueued?
    ensures forall q, ok :: RecordRecovery(q, ok) in Middle(f, env)
              <==> !DeliveryOf(env, q).Enqueued? && ok == DeliveryOf(env, q).Recorded?
    ensures forall c, ok :: PersistMessages(c, ok) in Middle(f, env)
              <==> f.status == COMPLETED && f.content == Some(c) && ok == env.persists
  {
    var p, b, a := Persisted(f, env.persists), EnqueueOrRecord(Billing, env.billing),
        EnqueueOrRecord(Analytics, env.analytics);
    forall e ensures e in Middle(f, env) <==> e in p || e in b || e in a {
      assert Middle(f, env) == p + b + a;
    }
    assert b[0] in b && a[0] in a;
    assert !env.billing.Enqueued? ==> b[1] in b;
    assert !env.analytics.Enqueued? ==> a[1] in a;
  }

  function DeliveryOf(env: AccountingEnv, queue: Queue): Delivery {
    match queue case Billing => env.billing case Analytics => env.analytics
  }

  /** Asks for a usage row once; without it nothing else happens.  With it each job is handed over exactly when it is
      enqueued or its failure is recorded, since a failed recording is swallowed, and the last act is in any case to
      complete the key. */
  lemma AccountingIsSound(f: Final, env: AccountingEnv)
    ensures var es := Accounting(f, env);
            && Appends(es) == 1 && es[0] == Append(f.status, f.usage, env.appends)
            && (forall e :: e in es ==> !e.Release? && !e.StartProvider? && !e.Reserve?)
            && CompletesAfterAppend(es)
            && (Complete(env.completes) in es <==> env.appends)
            && (env.appends ==> es[|es| - 1] == Complete(env.completes))
            && (forall queue :: Handed(es, queue) <==> env.appends && !DeliveryOf(env, queue).Dropped?)
  {
    AccountingAppendsOnce(f, env);
    AccountingMembers(f, env);
    AccountingCompletesAfter(f, env);
    AccountingHands(f, env);
  }

  lemma AccountingHands(f: Final, env: AccountingEnv)
    ensures forall queue :: Handed(Accounting(f, env), queue) <==> env.appends && !DeliveryOf(env, queue).Dropped?
  {
    AccountingMembers(f, env);
    MiddleIsPlain(f, env);
  }

  /** Which calls accounting makes besides the append and the completion. */
  lemma AccountingCalls(f: Final, env: AccountingEnv)
    ensures forall text, ok :: PersistMessages(text, ok) in Accounting(f, env) <==>
              env.appends && f.status == COMPLETED && f.content == Some(text) && ok == env.persists
    ensures forall queue, ok :: Enqueue(queue, ok) in Accounting(f, env) <==>
              env.appends && ok == DeliveryOf(env, queue).Enqueued?
    ensures forall queue, ok :: RecordRecovery(queue, ok) in Accounting(f, env) <==>
              env.appends && !DeliveryOf(env, queue).Enqueued? && ok == DeliveryOf(env, queue).Recorded?
  {
    AccountingMembers(f, env);
    MiddleIsPlain(f, env);
  }

  lemma AccountingCompletesAfter(f: Final, env: AccountingEnv)
    ensures CompletesAfterAppend(Accounting(f, env))
  {
    var es := Accounting(f, env);
    AccountingMembers(f, env);
    forall i | 0 <= i < |es| && es[i] == Complete(true) ensures exists j :: 0 <= j < i && es[j].Append? && es[j].ok {
      assert es[i] in es && es[0] == Append(f.status, f.usage, env.appends);
    }
  }

  /** The job was enqueued, or its failure was recorded for recovery. */
  predicate Handed(es: seq<Effect>, queue: Queue) {
    Enqueue(queue, true) in es || RecordRecovery(queue, true) in es
  }

  lemma AccountingMembers(f: Final, env: AccountingEnv)
    ensures forall e :: e in Accounting(f, env)
              <==> || e == Append(f.status, f.usage, env.appends)
                   || (env.appends && (e in Middle(f, env) || e == Complete(env.completes)))
    ensures forall e :: e in Middle(f, env) ==> Plain(e)
  {
    MiddleIsPlain(f, env);
    var tail := Middle(f, env) + [Complete(env.completes)];
    assert forall e :: e in tail <==> e in Middle(f, env) || e == Complete(env.completes);
  }

  lemma AccountingAppendsOnce(f: Final, env: AccountingEnv)
    ensures Appends(Accounting(f, env)) == 1
  {
    var es := Accounting(f, env);
    MiddleIsPlain(f, env);
    AppendsAdd([es[0]], es[1..]);
    assert es == [es[0]] + es[1..];
    assert [es[0]][..0] == [];
    forall i | 0 <= i < |es[1..]| ensures !es[1..][i].Append? {
      assert es[1..] == Middle(f, env) + [Complete(env.completes)];
      assert i < |Middle(f, env)| ==> es[1..][i] in Middle(f, env);
    }
    NoAppends(es[1..]);
  }

  /** The key is completed only after a usage row was stored. */
  predicate CompletesAfterAppend(es: seq<Effect>) {
    forall i :: 0 <= i < |es| && es[i] == Complete(true) ==> exists j :: 0 <= j < i && es[j].Append? && es[j].ok
  }

  lemma CompletesAfterConcat(a: seq<Effect>, b: seq<Effect>)
    requires CompletesAfterAppend(a) && CompletesAfterAppend(b)
    ensures CompletesAfterAppend(a + b)
  {
    var es := a + b;
    forall i | 0 <= i < |es| && es[i] == Complete(true) ensures exists j :: 0 <= j < i && es[j].Append? && es[j].ok {
      if i < |a| {
        var j :| 0 <= j < i && a[j].Append? && a[j].ok;
        assert es[j] == a[j];
      } else {
        var j :| 0 <= j < i - |a| && b[j].Append? && b[j].ok;
        assert es[|a| + j] == b[j];
      }
    }
  }

  // ---------------------------------------------------------------------
  // Preparation
  // ---------------------------------------------------------------------

  datatype Decision = ALLOW | ALLOW_WITH_MASK | BLOCK
  datatype FirstPull = Pulled | Exhausted | Throws

  /** `allowed` covers conversation ownership, the organisation and the requested routing; `checksPass` covers rate
      limit, budget, prompt processing and the policy audit row; `routed` covers candidate selection, history and
      opening the stream. */
  datatype PrepareEnv = PrepareEnv(
    allowed: bool, reserves: bool,
    checksPass: bool, decision: Decision,
    blockedAppend: bool, blockedDelivery: Delivery, blockedComplete: bool,
    routed: bool, first: FirstPull, accounting: AccountingEnv, releases: bool)
  {
    predicate Admitted() { allowed && reserves }
    predicate Blocks() { Admitted() && checksPass && decision.BLOCK? }
    predicate Starts() { Admitted() && checksPass && !decision.BLOCK? && routed }
    predicate Ready() { Starts() && first.Pulled? }
  }

  function Blocked(env: PrepareEnv): seq<Effect> {
    [Append(BLOCKED, None, env.blockedAppend)]
    + (if env.blockedAppend then EnqueueOrRecord(Analytics, env.blockedDelivery) + [Complete(env.blockedComplete)]
      else [])
    + (if env.blockedAppend && env.blockedComplete then [] else [Release(env.releases)])
  }

  /** What happens once the key is reserved. */
  function Reserved(env: PrepareEnv): seq<Effect> {
    if env.Ready() then [StartProvider]
    else if env.Starts() then [StartProvider] + Accounting(Final(FAILED, None, None), env.accounting)
    else if env.Blocks() then Blocked(env)
    else [Release(env.releases)]
  }

  function Preparation(env: PrepareEnv): seq<Effect> {
    if !env.allowed then [] else if !env.reserves then [Reserve(false)] else [Reserve(true)] + Reserved(env)
  }

  method PrepareChatStream(env: PrepareEnv) returns (ready: bool, effects: seq<Effect>)
    ensures ready <==> env.Ready()
    ensures effects == Preparation(env)
  {
    if !env.allowed { return false, []; }
    if !env.reserves { return false, [Reserve(false)]; }
    effects := [];
    var providerStarted, reservationFinalized, threw := false, false, false;
    if !env.checksPass {
      threw := true;
    } else if env.decision.BLOCK? {
      effects := effects + [Append(BLOCKED, None, env.blockedAppend)];
      if env.blockedAppend {
        effects := effects + [Enqueue(Analytics, env.blockedDelivery.Enqueued?)];
        if !env.blockedDelivery.Enqueued? {
          effects := effects + [RecordRecovery(Analytics, env.blockedDelivery.Recorded?)];
        }
        assert effects == [Append(BLOCKED, None, true)] + EnqueueOrRecord(Analytics, env.blockedDelivery);
        effects := effects + [Complete(env.blockedComplete)];
        reservationFinalized := env.blockedComplete;
      }
      threw := true;
    } else if !env.routed {
      threw := true;
    } else {
      effects := effects + [StartProvider];
      providerStarted := true;
      threw := !env.first.Pulled?;
    }
    ready := !threw;
    if threw && !reservationFinalized {
      if providerStarted {
        var more, unfinished := RecordUsageAndComplete(Final(FAILED, None, None), env.accounting);
        effects := effects + more;
      } else {
        effects := effects + [Release(env.releases)];
      }
    }
    assert effects == Reserved(env);
    effects := [Reserve(true)] + effects;
  }

  lemma BlockedIsSound(env: PrepareEnv)
    ensures Appends(Blocked(env)) == 1 && CompletesAfterAppend(Blocked(env)) && StartProvider !in Blocked(env)
  {
    BlockedAppendsOnce(env);
    var es := Blocked(env);
    assert es[0] == Append(BLOCKED, None, env.blockedAppend);
  }

  lemma BlockedAppendsOnce(env: PrepareEnv)
    ensures Appends(Blocked(env)) == 1
  {
    var es := Blocked(env);
    AppendsAdd([es[0]], es[1..]);
    assert es == [es[0]] + es[1..];
    assert [es[0]][..0] == [];
    NoAppends(es[1..]);
  }

  /** A blocked request's analytics job is handed over exactly when its row is stored and the job enqueued or
      recorded. */
  lemma BlockedHands(env: PrepareEnv)
    ensures Handed(Blocked(env), Analytics) <==> env.blockedAppend && !env.blockedDelivery.Dropped?
    ensures forall ok :: Enqueue(Billing, ok) !in Blocked(env) && RecordRecovery(Billing, ok) !in Blocked(env)
  {
    var es := Blocked(env);
    if env.blockedAppend {
      assert es[1] == Enqueue(Analytics, env.blockedDelivery.Enqueued?);
      assert !env.blockedDelivery.Enqueued? ==> es[2] == RecordRecovery(Analytics, env.blockedDelivery.Recorded?);
    }
  }

  lemma ReservedIsSound(env: PrepareEnv)
    requires env.Admitted()
    ensures var es := Reserved(env);
            && (StartProvider in es <==> env.Starts())
            && (env.Starts() ==> forall e :: e in es ==> !e.Release?)
            && CompletesAfterAppend(es)
            && Appends(es) == (if env.Ready() then 0 else if env.Starts() || env.Blocks() then 1 else 0)
            && (!env.Starts() && Complete(true) !in es ==> Release(env.releases) in es)
  {
    var acc := Accounting(Final(FAILED, None, None), env.accounting);
    AccountingIsSound(Final(FAILED, None, None), env.accounting);
    BlockedIsSound(env);
    AppendsAdd([StartProvider], acc);
    CompletesAfterConcat([StartProvider], acc);
    assert [StartProvider][..0] == [] && [Release(env.releases)][..0] == [];
    assert forall e :: e in [StartProvider] + acc <==> e == StartProvider || e in acc;
    var blocked := Blocked(env);
    assert env.blockedAppend && env.blockedComplete ==> blocked[|blocked| - 1] == Complete(true);
    assert !(env.blockedAppend && env.blockedComplete) ==> blocked[|blocked| - 1] == Release(env.releases);
  }

  /** However preparation ends: nothing but the attempt to reserve happens before the key is reserved; the provider
      starts only for an allowed request, a started one is never released, and unless it is ready a started or blocked
      request has asked for its usage row once; whatever is reserved is completed, released, or left to its started
      request. */
  lemma PreparationIsSound(env: PrepareEnv)
    ensures var es := Preparation(env);
            && (StartProvider in es <==> env.Starts())
            && (env.Starts() ==> forall e :: e in es ==> !e.Release?)
            && CompletesAfterAppend(es)
            && Appends(es) == (if env.Ready() then 0 else if env.Starts() || env.Blocks() then 1 else 0)
            && (env.Admitted() && !env.Starts() && Complete(true) !in es ==> Release(env.releases) in es)
            && (forall i :: 0 <= i < |es| ==> (es[i].Reserve? <==> i == 0))
            && (|es| > 1 ==> es[0] == Reserve(true))
  {
    if env.Admitted() {
      var rest := Reserved(env);
      ReservedIsSound(env);
      AppendsAdd([Reserve(true)], rest);
      CompletesAfterConcat([Reserve(true)], rest);
      assert [Reserve(true)][..0] == [];
      assert forall e :: e in [Reserve(true)] + rest <==> e == Reserve(true) || e in rest;
      ReservesOnce(env);
    } else {
      assert [Reserve(false)][..0] == [];
    }
  }

  lemma ReservesOnce(env: PrepareEnv)
    ensures forall e :: e in Reserved(env) ==> !e.Reserve?
  {
    AccountingIsSound(Final(FAILED, None, None), env.accounting);
  }

  // ---------------------------------------------------------------------
  // The streaming controller
  // ---------------------------------------------------------------------

  datatype WriteResult = Written | Refused | WriteThrows
  datatype Ending = Finishes | Breaks

  /** `chunks` is what the provider iterator yields, first chunk included, and `ending` what its next pull does.
      The client's close event may fire before the headers (`closedBefore`), with the initial events (`closesEarly`),
      or while chunk `i` is handled and the next one awaited (`closes(i)`). */
  datatype StreamEnv = StreamEnv(
    closedBefore: bool, closesEarly: bool, initialEventsThrow: bool,
    chunks: seq<Chunk>, ending: Ending,
    writes: nat -> WriteResult, closes: nat -> bool, doneEventThrows: bool, serverShutdown: bool,
    accounting: AccountingEnv)

  /** The loop gets as far as chunk `k`: everything before it was a token that could be written. */
  predicate Reaches(env: StreamEnv, k: nat) {
    && k < |env.chunks| && !env.initialEventsThrow
    && forall i :: 0 <= i < k ==> env.chunks[i].Token? && env.writes(i).Written?
  }

  predicate CompletesAt(env: StreamEnv, k: nat) { Reaches(env, k) && env.chunks[k].Done? }

  function Text(chunks: seq<Chunk>): string {
    if chunks == [] then ""
    else Text(chunks[..|chunks| - 1]) + (if chunks[|chunks| - 1].Token? then chunks[|chunks| - 1].text else "")
  }

  lemma {:induction false} TextAdds(a: seq<Chunk>, b: seq<Chunk>)
    ensures Text(a + b) == Text(a) + Text(b)
    ensures |a| == 1 ==> Text(a) == match a[0] case Token(text) => text case Done(_) => ""
  {
    if b == [] {
      assert a + b == a;
    } else {
      assert (a + b)[..|a + b| - 1] == a + b[..|b| - 1];
      TextAdds(a, b[..|b| - 1]);
    }
    if |a| == 1 { assert a[..0] == []; }
  }

  /** The one accounting call of a stream: COMPLETED with all the text before it exactly when a done chunk
      was reached, and otherwise without content or usage. */
  ghost predicate StreamAccounted(env: StreamEnv, finals: seq<Final>) {
    && |finals| == 1
    && (forall k: nat :: CompletesAt(env, k) ==>
           finals[0] == Final(COMPLETED, env.chunks[k].usage, Some(Text(env.chunks[..k]))))
    && (finals[0].status == COMPLETED ==> exists k: nat :: CompletesAt(env, k))
    && (finals[0].status != COMPLETED ==> finals[0] == Final(finals[0].status, None, None))
  }

  /** The client was seen to leave: its close event fired, or a write was refused, while the loop got that far. */
  predicate Disconnected(env: StreamEnv) {
    env.closesEarly || exists j :: 0 <= j < |env.chunks| && Reaches(env, j) && LeavesAt(env, j)
  }

  predicate LeavesAt(env: StreamEnv, j: nat)
    requires j < |env.chunks|
  {
    env.closes(j) || (env.chunks[j].Token? && env.writes(j).Refused?)
  }

  /** Something throws before the stream has ended in any other way. */
  predicate Throws(env: StreamEnv) {
    || env.initialEventsThrow
    || (exists j :: 0 <= j < |env.chunks| && Reaches(env, j) && env.chunks[j].Token? && env.writes(j).WriteThrows?)
    || (env.ending.Breaks? && forall j :: 0 <= j < |env.chunks| ==> env.chunks[j].Token? && env.writes(j).Written?)
  }

  /** The status an unfinished stream is accounted with. */
  function UnfinishedStatus(env: StreamEnv): Status {
    if Disconnected(env) || (Throws(env) && env.serverShutdown) then INTERRUPTED else FAILED
  }

  lemma OneCompletion(env: StreamEnv, j: nat, k: nat)
    requires CompletesAt(env, j) && CompletesAt(env, k)
    ensures j == k
  {
    assert env.chunks[j].Done? && env.chunks[k].Done?;
  }

  /** The first n chunks were tokens that could be written. */
  predicate WrittenUpTo(env: StreamEnv, n: nat) {
    n <= |env.chunks| && forall i :: 0 <= i < n ==> env.chunks[i].Token? && env.writes(i).Written?
  }

  predicate StopsAt(env: StreamEnv, n: nat) {
    WrittenUpTo(env, n) && (n < |env.chunks| ==> !(env.chunks[n].Token? && env.writes(n).Written?))
  }

  lemma ReachedChunks(env: StreamEnv, n: nat, j: nat)
    requires StopsAt(env, n) && j < |env.chunks|
    ensures Reaches(env, j) <==> !env.initialEventsThrow && j <= n
  {
  }

  predicate ClosedBy(env: StreamEnv, n: nat) { env.closesEarly || exists j: nat :: j < n && env.closes(j) }

  /** Where the loop stops decides what it has seen. */
  lemma StopDecides(env: StreamEnv, n: nat)
    requires StopsAt(env, n) && !env.initialEventsThrow
    ensures Disconnected(env) <==>
            ClosedBy(env, if n < |env.chunks| then n + 1 else n)
            || (n < |env.chunks| && env.chunks[n].Token? && env.writes(n).Refused?)
    ensures Throws(env) <==> if n < |env.chunks| then env.chunks[n].Token? && env.writes(n).WriteThrows?
            else env.ending.Breaks?
    ensures (exists k: nat :: CompletesAt(env, k)) <==> n < |env.chunks| && env.chunks[n].Done?
  {
    forall j: nat | j < |env.chunks| ensures Reaches(env, j) <==> j <= n { ReachedChunks(env, n, j); }
    StopDecidesLeaving(env, n);
    if k: nat :| CompletesAt(env, k) { assert k == n; }
    if n < |env.chunks| && env.chunks[n].Done? { assert CompletesAt(env, n); }
    if n < |env.chunks| { assert Reaches(env, n); }
  }

  lemma StopDecidesLeaving(env: StreamEnv, n: nat)
    requires WrittenUpTo(env, n) && forall j: nat :: j < |env.chunks| ==> (Reaches(env, j) <==> j <= n)
    ensures Disconnected(env) <==>
            ClosedBy(env, if n < |env.chunks| then n + 1 else n)
            || (n < |env.chunks| && env.chunks[n].Token? && env.writes(n).Refused?)
  {
    var m := if n < |env.chunks| then n + 1 else n;
    if j :| 0 <= j < |env.chunks| && Reaches(env, j) && LeavesAt(env, j) { assert j < m; }
    if j: nat :| j < m && env.closes(j) { assert Reaches(env, j) && LeavesAt(env, j); }
    if n < |env.chunks| && env.chunks[n].Token? && env.writes(n).Refused? {
      assert Reaches(env, n) && LeavesAt(env, n);
    }
  }

  lemma ThrowingEarly(env: StreamEnv)
    requires env.initialEventsThrow
    ensures Throws(env) && (Disconnected(env) <==> env.closesEarly) && forall k: nat :: !CompletesAt(env, k)
  {
  }

  /** The loop over the chunks; `stop` is the chunk it ended on. */
  method PullChunks(env: StreamEnv) returns (content: string, stop: nat, done: bool, disconnected: bool, threw: bool)
    ensures done <==> exists k: nat :: CompletesAt(env, k)
    ensures done ==> CompletesAt(env, stop) && content == Text(env.chunks[..stop])
    ensures disconnected <==> Disconnected(env)
    ensures !done ==> (threw <==> Throws(env))
    ensures done ==> !threw
  {
    disconnected, done, content, stop, threw := env.closesEarly, false, "", 0, false;
    if env.initialEventsThrow {
      ThrowingEarly(env);
      threw := true;
      return;
    }
    while stop < |env.chunks|
      invariant WrittenUpTo(env, stop) && content == Text(env.chunks[..stop])
      invariant disconnected <==> ClosedBy(env, stop)
      invariant !done && !threw
    {
      var currentChunk := env.chunks[stop];
      if env.closes(stop) { disconnected := true; }
      assert ClosedBy(env, stop + 1) <==> ClosedBy(env, stop) || env.closes(stop);
      if currentChunk.Done? {
        StopDecides(env, stop);
        done := true;
        return;
      }
      match env.writes(stop) {
        case Refused =>
          StopDecides(env, stop);
          disconnected := true;
          return;
        case WriteThrows =>
          StopDecides(env, stop);
          threw := true;
          return;
        case Written =>
          assert env.chunks[..stop + 1][..stop] == env.chunks[..stop];
          content := content + currentChunk.text;
          stop := stop + 1;
      }
    }
    StopDecides(env, stop);
    threw := env.ending.Breaks?;
  }

  /** After the response headers are sent: whatever the chunks, writes, closes and failures are, accounting is asked for
      exactly once, as COMPLETED with all the text when a done chunk was reached, otherwise as INTERRUPTED exactly when
      the client was seen to leave or the server's shutdown broke the stream off, and else as FAILED. */
  method StreamChunks(env: StreamEnv) returns (finals: seq<Final>, effects: seq<Effect>)
    ensures StreamAccounted(env, finals)
    ensures effects == Accounting(finals[0], env.accounting)
    ensures finals[0].status != COMPLETED ==> finals[0].status == UnfinishedStatus(env)
  {
    var accountingStarted := false;
    var content, stop, done, disconnected, threw := PullChunks(env);
    finals, effects := [], [];
    if done {
      accountingStarted := true;
      var f := Final(COMPLETED, env.chunks[stop].usage, Some(content));
      var failed;
      effects, failed := RecordUsageAndComplete(f, env.accounting);
      finals := finals + [f];
      threw := failed || env.doneEventThrows;
      forall k: nat | CompletesAt(env, k) ensures k == stop { OneCompletion(env, k, stop); }
    }
    if !threw && !accountingStarted {
      accountingStarted := true;
      var f := Final(if disconnected then INTERRUPTED else FAILED, None, None);
      var failed;
      effects, failed := RecordUsageAndComplete(f, env.accounting);
      finals := finals + [f];
      threw := failed;
    }
    if threw && !accountingStarted {
      var f := Final(if disconnected || env.serverShutdown then INTERRUPTED else FAILED, None, None);
      var failed;
      effects, failed := RecordUsageAndComplete(f, env.accounting);
      finals := finals + [f];
    }
  }

  // ---------------------------------------------------------------------
  // The whole request
  // ---------------------------------------------------------------------

  /** The provider starts exactly for an allowed request that is routed, and the headers go out exactly when its first
      chunk arrives before the client leaves. */
  predicate StartsRight(prepare: PrepareEnv, env: StreamEnv, es: seq<Effect>, headersSent: bool) {
    && (StartProvider in es <==>
          && prepare.allowed && prepare.reserves && prepare.checksPass && !prepare.decision.BLOCK? && prepare.routed)
    && (headersSent <==> StartProvider in es && prepare.first.Pulled? && !env.closedBefore)
  }

  /** The request asks for the one usage row it should, or for none: BLOCKED when the policy blocks it, FAILED when
      the provider gives no first chunk, INTERRUPTED when the client leaves before the headers, and after them
      COMPLETED with the done chunk's usage when one is reached and otherwise INTERRUPTED or FAILED. */
  ghost predicate AppendsRight(prepare: PrepareEnv, env: StreamEnv, es: seq<Effect>, headersSent: bool) {
    && Appends(es) == (if StartProvider in es || IsBlocked(prepare) then 1 else 0)
    && (IsBlocked(prepare) ==> Append(BLOCKED, None, prepare.blockedAppend) in es)
    && (StartProvider in es && !prepare.first.Pulled? ==> Append(FAILED, None, prepare.accounting.appends) in es)
    && (StartProvider in es && prepare.first.Pulled? && env.closedBefore ==>
          Append(INTERRUPTED, None, env.accounting.appends) in es)
    && (headersSent ==>
          && (forall k: nat :: CompletesAt(env, k) ==>
                Append(COMPLETED, env.chunks[k].usage, env.accounting.appends) in es)
          && ((forall k: nat :: !CompletesAt(env, k)) ==>
                Append(UnfinishedStatus(env), None, env.accounting.appends) in es))
  }

  predicate IsBlocked(prepare: PrepareEnv) {
    prepare.allowed && prepare.reserves && prepare.checksPass && prepare.decision.BLOCK?
  }

  /** Messages are persisted exactly for a completed stream whose row was stored, with all its text. */
  ghost predicate PersistsRight(env: StreamEnv, es: seq<Effect>, headersSent: bool) {
    forall text, ok :: PersistMessages(text, ok) in es <==>
      && headersSent && env.accounting.appends && ok == env.accounting.persists
      && exists k: nat :: CompletesAt(env, k) && text == Text(env.chunks[..k])
  }

  /** A started request hands over both jobs, unless a recording fails as well, and completes its key, if its row was
      stored, and neither otherwise. */
  ghost predicate FinishesRight(prepare: PrepareEnv, env: StreamEnv, es: seq<Effect>) {
    StartProvider in es ==>
      var accounting := if prepare.first.Pulled? then env.accounting else prepare.accounting;
      && (Complete(accounting.completes) in es <==> accounting.appends)
      && (forall queue :: Handed(es, queue) <==> accounting.appends && !DeliveryOf(accounting, queue).Dropped?)
      && (forall e :: e in es ==> !e.Release?)
  }

  function Chat(prepare: PrepareEnv, env: StreamEnv, f: Final): seq<Effect> {
    Preparation(prepare) + (if prepare.Ready() then Accounting(f, env.accounting) else [])
  }

  /** The final accounting of a request whose first chunk has arrived. */
  ghost predicate IsFinal(env: StreamEnv, f: Final) {
    if env.closedBefore then f == Final(INTERRUPTED, None, None)
    else StreamAccounted(env, [f]) && (f.status != COMPLETED ==> f.status == UnfinishedStatus(env))
  }

  lemma ChatMembers(prepare: PrepareEnv, env: StreamEnv, f: Final)
    ensures forall e :: e in Chat(prepare, env, f) <==>
              e in Preparation(prepare) || (prepare.Ready() && e in Accounting(f, env.accounting))
    ensures Appends(Chat(prepare, env, f)) == Appends(Preparation(prepare)) + if prepare.Ready() then 1 else 0
  {
    var more := if prepare.Ready() then Accounting(f, env.accounting) else [];
    AppendsAdd(Preparation(prepare), more);
    AccountingAppendsOnce(f, env.accounting);
  }

  /** What preparation does in each of its four endings. */
  lemma PreparationEndings(env: PrepareEnv)
    ensures forall e :: e in Preparation(env) ==>
              || e.Reserve? || e.Release?
              || (env.Starts() && (e.StartProvider? || (!env.Ready() && e in Failing(env))))
              || (env.Blocks() && e in Blocked(env))
    ensures env.Starts() && !env.Ready() ==> forall e :: e in Failing(env) ==> e in Preparation(env)
    ensures env.Blocks() ==> forall e :: e in Blocked(env) ==> e in Preparation(env)
  {
  }

  function Failing(env: PrepareEnv): seq<Effect> { Accounting(Final(FAILED, None, None), env.accounting) }

  lemma ChatStartsRight(prepare: PrepareEnv, env: StreamEnv, f: Final)
    ensures StartsRight(prepare, env, Chat(prepare, env, f), prepare.Ready() && !env.closedBefore)
    ensures Appends(Chat(prepare, env, f)) == (if prepare.Starts() || prepare.Blocks() then 1 else 0)
  {
    ChatMembers(prepare, env, f);
    PreparationIsSound(prepare);
    AccountingIsSound(f, env.accounting);
  }

  lemma ChatAppendsRight(prepare: PrepareEnv, env: StreamEnv, f: Final)
    requires prepare.Ready() ==> IsFinal(env, f)
    ensures AppendsRight(prepare, env, Chat(prepare, env, f), prepare.Ready() && !env.closedBefore)
  {
    ChatMembers(prepare, env, f);
    ChatStartsRight(prepare, env, f);
    PreparationEndings(prepare);
    assert prepare.Blocks() ==> Blocked(prepare)[0] == Append(BLOCKED, None, prepare.blockedAppend);
    assert Failing(prepare)[0] == Append(FAILED, None, prepare.accounting.appends);
    assert Accounting(f, env.accounting)[0] == Append(f.status, f.usage, env.accounting.appends);
  }

  lemma ChatPersists(prepare: PrepareEnv, env: StreamEnv, f: Final, text: string, ok: bool)
    ensures PersistMessages(text, ok) in Chat(prepare, env, f) <==>
              && prepare.Ready() && env.accounting.appends && f.status == COMPLETED && f.content == Some(text)
              && ok == env.accounting.persists
  {
    ChatMembers(prepare, env, f);
    PreparationEndings(prepare);
    AccountingCalls(f, env.accounting);
    AccountingCalls(Final(FAILED, None, None), prepare.accounting);
  }

  lemma ChatPersistsRight(prepare: PrepareEnv, env: StreamEnv, f: Final)
    requires prepare.Ready() ==> IsFinal(env, f)
    ensures PersistsRight(env, Chat(prepare, env, f), prepare.Ready() && !env.closedBefore)
  {
    forall text, ok
      ensures PersistMessages(text, ok) in Chat(prepare, env, f) <==>
                && prepare.Ready() && !env.closedBefore && env.accounting.appends && ok == env.accounting.persists
                && exists k: nat :: CompletesAt(env, k) && text == Text(env.chunks[..k])
    {
      ChatPersists(prepare, env, f, text, ok);
      if prepare.Ready() && !env.closedBefore { FinalText(env, f, text); }
    }
  }

  lemma FinalText(env: StreamEnv, f: Final, text: string)
    requires !env.closedBefore && IsFinal(env, f)
    ensures f.status == COMPLETED && f.content == Some(text)
       <==> exists k: nat :: CompletesAt(env, k) && text == Text(env.chunks[..k])
  {
    if f.status == COMPLETED {
      var k: nat :| CompletesAt(env, k);
      forall j: nat | CompletesAt(env, j) ensures j == k { OneCompletion(env, j, k); }
    }
  }

  lemma ChatFinishesRight(prepare: PrepareEnv, env: StreamEnv, f: Final)
    ensures FinishesRight(prepare, env, Chat(prepare, env, f))
  {
    ChatStartsRight(prepare, env, f);
    if prepare.Starts() {
      var es := Chat(prepare, env, f);
      var accounted := if prepare.Ready() then Accounting(f, env.accounting) else Failing(prepare);
      StartedMembers(prepare, env, f);
      AccountingIsSound(f, env.accounting);
      AccountingIsSound(Final(FAILED, None, None), prepare.accounting);
      forall queue ensures Handed(es, queue) <==> Handed(accounted, queue) { }
    }
  }

  /** A started request reserves its key, starts the provider, and is accounted. */
  lemma StartedMembers(prepare: PrepareEnv, env: StreamEnv, f: Final)
    requires prepare.Starts()
    ensures forall e :: e in Chat(prepare, env, f) <==>
              || e == Reserve(true) || e == StartProvider
              || e in (if prepare.Ready() then Accounting(f, env.accounting) else Failing(prepare))
  {
    ChatMembers(prepare, env, f);
  }

  lemma ChatCompletesAfter(prepare: PrepareEnv, env: StreamEnv, f: Final)
    ensures CompletesAfterAppend(Chat(prepare, env, f))
  {
    PreparationIsSound(prepare);
    AccountingCompletesAfter(f, env.accounting);
    CompletesAfterConcat(Preparation(prepare), if prepare.Ready() then Accounting(f, env.accounting) else []);
  }

  /** A request from its reservation to its last effect. */
  method StreamChat(prepare: PrepareEnv, env: StreamEnv) returns (effects: seq<Effect>, headersSent: bool)
    ensures StartsRight(prepare, env, effects, headersSent)
    ensures AppendsRight(prepare, env, effects, headersSent)
    ensures PersistsRight(env, effects, headersSent)
    ensures FinishesRight(prepare, env, effects)
    ensures CompletesAfterAppend(effects)
  {
    var ready;
    ready, effects := PrepareChatStream(prepare);
    headersSent := false;
    var f := Final(INTERRUPTED, None, None);
    if ready {
      var more: seq<Effect>;
      if env.closedBefore {
        var failed;
        more, failed := RecordUsageAndComplete(f, env.accounting);
      } else {
        headersSent := true;
        var finals;
        finals, more := StreamChunks(env);
        f := finals[0];
        assert finals == [f];
      }
      effects := effects + more;
    }
    assert effects == Chat(prepare, env, f);
    ChatStartsRight(prepare, env, f);
    ChatAppendsRight(prepare, env, f);
    ChatPersistsRight(prepare, env, f);
    ChatFinishesRight(prepare, env, f);
    ChatCompletesAfter(prepare, env, f);
  }
}
