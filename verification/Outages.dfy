/** Endpoints that others use too, and the outages retrying outlasts (sdk/rpc/retry_client.go, sdk/rpc/failover.go). */
module Outages {
  import opened Basics
  import opened Errors
  import opened Rpc
  import opened Retry
  import opened Failover

  // ---- calls in between ----

  datatype Request =
    | AccountRequest(ctx: Context, a: Address)
    | BatchRequest(ctx: Context, addresses: seq<Address>)
    | QueryRequest(ctx: Context, q: Query)

  datatype Line = First | Second

  /** Two endpoints on one world. */
  datatype Lines<!W> = Lines(first: Client<W>, second: Client<W>) {
    function On(line: Line): Client<W> {
      if line.First? then first else second
    }
  }

  /** A request, and the endpoint it is made of. */
  datatype Placed = Placed(line: Line, request: Request)

  function ErrorOf<T, W>(reply: (Result<T, Error>, W)): (Option<Error>, W) {
    (if reply.0.Err? then Some(reply.0.error) else None, reply.1)
  }

  /** Its error, if any, and the world it leaves. */
  function Place<W>(lines: Lines<W>, p: Placed, w: W): (Option<Error>, W) {
    var c := lines.On(p.line);
    match p.request
    case AccountRequest(ctx, a) => ErrorOf(c.getAccount(ctx, a, w))
    case BatchRequest(ctx, addresses) => ErrorOf(c.getMultipleAccounts(ctx, addresses, w))
    case QueryRequest(ctx, q) => ErrorOf(c.query(ctx, q, w))
  }

  function After<W>(lines: Lines<W>, w: W, calls: seq<Placed>): W {
    if calls == [] then w else After(lines, Place(lines, calls[0], w).1, calls[1..])
  }

  /**
   * An endpoint as one goroutine finds it while others use both: between any two of its own calls, the others make
   * whatever calls they like.  A world may hold the schedule, so every pattern of calls in between is some `others`.
   */
  function Amid<W>(lines: Lines<W>, line: Line, others: W -> seq<Placed>): Client<W> {
    var c := lines.On(line);
    Client(
      (ctx: Context, a: Address, w: W) => c.getAccount(ctx, a, After(lines, w, others(w))),
      (ctx: Context, addresses: seq<Address>, w: W) =>
        c.getMultipleAccounts(ctx, addresses, After(lines, w, others(w))),
      (ctx: Context, q: Query, w: W) => c.query(ctx, q, After(lines, w, others(w))))
  }

  /** Failing over between the two, with the others' calls in between. */
  function Endpoints<W>(lines: Lines<W>, primaryTimeout: int, fallbackTimeout: int, others: W -> seq<Placed>)
    : Client<W>
  {
    NewFailoverClient(Amid(lines, First, others), Amid(lines, Second, others), primaryTimeout, fallbackTimeout)
  }

  /** Promises about answers survive whatever happens in between. */
  lemma AmidKeepsPromises<W(!new)>(lines: Lines<W>, line: Line, others: W -> seq<Placed>, l: Ledger)
    ensures var c, amid := lines.On(line), Amid(lines, line, others);
            && (NeverLong(c) ==> NeverLong(amid))
            && (Weak(c, l) ==> Weak(amid, l))
            && (Faithful(c, l) ==> Faithful(amid, l))
            && (Exact(c, l) ==> Exact(amid, l))
            && (SinglesComplete(c) ==> SinglesComplete(amid))
  {
    var c, amid := lines.On(line), Amid(lines, line, others);
    forall ctx: Context, a: Address, w: W
      ensures amid.getAccount(ctx, a, w) == c.getAccount(ctx, a, After(lines, w, others(w)))
    {
    }
    forall ctx: Context, addresses: seq<Address>, w: W
      ensures amid.getMultipleAccounts(ctx, addresses, w)
           == c.getMultipleAccounts(ctx, addresses, After(lines, w, others(w)))
    {
    }
    forall ctx: Context, q: Query, w: W
      ensures amid.query(ctx, q, w) == c.query(ctx, q, After(lines, w, others(w)))
    {
    }
  }

  lemma EndpointsKeepPromises<W(!new)>(
    lines: Lines<W>, primaryTimeout: int, fallbackTimeout: int, others: W -> seq<Placed>, l: Ledger)
    requires Faithful(lines.first, l) && SinglesComplete(lines.first)
    requires Faithful(lines.second, l) && SinglesComplete(lines.second)
    ensures var c := Endpoints(lines, primaryTimeout, fallbackTimeout, others); Faithful(c, l) && SinglesComplete(c)
  {
    AmidKeepsPromises(lines, First, others, l);
    AmidKeepsPromises(lines, Second, others, l);
    FailoverKeepsPromises(Amid(lines, First, others), Amid(lines, Second, others), primaryTimeout, fallbackTimeout, l);
  }

  // ---- retrying never fails exactly when enough attempts in a row answer ----

  /** In this context, of any n + 1 calls in a row for the same thing one answers. */
  ghost predicate Recovers<W(!new)>(c: Client<W>, ctx: Context, n: nat) {
    && (forall a: Address, w: W :: AnswersWithin(AccountCall(c, ctx, a), w, n))
    && (forall addresses: seq<Address>, w: W :: AnswersWithin(BatchCall(c, ctx, addresses), w, n))
    && (forall q: Query, w: W :: AnswersWithin(QueryCall(c, ctx, q), w, n))
  }

  function Retries(config: RetryConfig): nat {
    if config.maxRetries > 0 then config.maxRetries else 0
  }

  lemma {:induction false} WrappingAnswersAlike<T, W(!new)>(
    operation: string, fn: Attempt<W, T>, wrapped: Attempt<W, T>, w: W, n: nat)
    requires forall w': W :: wrapped(w') == Wrapped(operation, fn(w'))
    ensures AnswersWithin(wrapped, w, n) <==> AnswersWithin(fn, w, n)
  {
    assert wrapped(w) == Wrapped(operation, fn(w));
    if fn(w).0.Err? && n > 0 {
      WrappingKeepsRetryable(operation, fn(w).0.error);
      WrappingAnswersAlike(operation, fn, wrapped, fn(w).1, n - 1);
    }
  }

  lemma RetryingExactly<T, W(!new)>(
    config: RetryConfig, env: Environment<W>, operation: string, fn: Attempt<W, T>, wrapped: Attempt<W, T>, w: W)
    requires forall w': W :: wrapped(w') == Wrapped(operation, fn(w'))
    requires Endless(env)
    ensures (if config.maxRetries > 0 then Retrying(Defaulted(config), env, wrapped, w).0.Ok? else fn(w).0.Ok?) <==>
            AnswersWithin(fn, w, Retries(config))
  {
    if config.maxRetries > 0 {
      var cfg := Defaulted(config);
      RetryAnswersExactly(cfg, env, wrapped, 0, cfg.initialBackoff, w);
      WrappingAnswersAlike(operation, fn, wrapped, w, cfg.maxRetries);
    }
  }

  /** In contexts that do not end, the retry client never fails exactly when its inner client recovers in time. */
  lemma RetryNeverFails<W(!new)>(inner: Client<W>, config: RetryConfig, env: Environment<W>, ctx: Context)
    requires Endless(env)
    ensures NeverFails(NewRetryClient(inner, config, env), ctx) <==> Recovers(inner, ctx, Retries(config))
  {
    var c, n := NewRetryClient(inner, config, env), Retries(config);
    forall a: Address, w: W
      ensures c.getAccount(ctx, a, w).0.Ok? <==> AnswersWithin(AccountCall(inner, ctx, a), w, n)
    {
      RetryingExactly(config, env, "get_account", AccountCall(inner, ctx, a),
                      (w': W) => Wrapped("get_account", inner.getAccount(ctx, a, w')), w);
    }
    forall addresses: seq<Address>, w: W
      ensures c.getMultipleAccounts(ctx, addresses, w).0.Ok? <==> AnswersWithin(BatchCall(inner, ctx, addresses), w, n)
    {
      RetryingExactly(config, env, "get_multiple_accounts", BatchCall(inner, ctx, addresses),
                      (w': W) => Wrapped("get_multiple_accounts", inner.getMultipleAccounts(ctx, addresses, w')), w);
    }
    forall q: Query, w: W
      ensures c.query(ctx, q, w).0.Ok? <==> AnswersWithin(QueryCall(inner, ctx, q), w, n)
    {
      RetryingExactly(config, env, OperationName(q), QueryCall(inner, ctx, q),
                      (w': W) => Wrapped(OperationName(q), inner.query(ctx, q, w')), w);
    }
  }

  // ---- outages that are over in time, whoever calls ----

  /** How many of the calls are this one and fail. */
  function FailuresOf<W>(lines: Lines<W>, w: W, calls: seq<Placed>, p: Placed): nat {
    if calls == [] then 0
    else
      var (error, w') := Place(lines, calls[0], w);
      (if calls[0] == p && error.Some? then 1 else 0) + FailuresOf(lines, w', calls[1..], p)
  }

  /** However calls follow each other, and whoever makes them, this one fails at most n times. */
  ghost predicate FailsAtMost<W(!new)>(lines: Lines<W>, p: Placed, n: nat) {
    forall w: W, calls: seq<Placed> :: FailuresOf(lines, w, calls, p) <= n
  }

  /** So for every request to an endpoint, in this context. */
  ghost predicate SeldomFails<W(!new)>(lines: Lines<W>, line: Line, ctx: Context, n: nat) {
    && (forall a: Address :: FailsAtMost(lines, Placed(line, AccountRequest(ctx, a)), n))
    && (forall addresses: seq<Address> :: FailsAtMost(lines, Placed(line, BatchRequest(ctx, addresses)), n))
    && (forall q: Query :: FailsAtMost(lines, Placed(line, QueryRequest(ctx, q)), n))
  }

  /** In this context, the client fails in ways worth a retry only. */
  ghost predicate FailsRetryably<W(!new)>(c: Client<W>, ctx: Context) {
    && (forall a: Address, w: W | c.getAccount(ctx, a, w).0.Err? :: IsRetryableError(c.getAccount(ctx, a, w).0.error))
    && (forall addresses: seq<Address>, w: W | c.getMultipleAccounts(ctx, addresses, w).0.Err? ::
          IsRetryableError(c.getMultipleAccounts(ctx, addresses, w).0.error))
    && (forall q: Query, w: W | c.query(ctx, q, w).0.Err? :: IsRetryableError(c.query(ctx, q, w).0.error))
  }

  lemma {:induction false} CallsInTurn<W>(lines: Lines<W>, w: W, first: seq<Placed>, second: seq<Placed>, p: Placed)
    ensures After(lines, w, first + second) == After(lines, After(lines, w, first), second)
    ensures FailuresOf(lines, w, first + second, p)
         == FailuresOf(lines, w, first, p) + FailuresOf(lines, After(lines, w, first), second, p)
  {
    if first == [] {
      assert first + second == second;
    } else {
      assert (first + second)[1..] == first[1..] + second;
      CallsInTurn(lines, Place(lines, first[0], w).1, first[1..], second, p);
    }
  }

  /** The world came about by calls among which this one failed. */
  ghost predicate ByFailing<W(!new)>(lines: Lines<W>, w: W, w': W, p: Placed) {
    exists calls: seq<Placed> :: After(lines, w, calls) == w' && FailuresOf(lines, w, calls, p) >= 1
  }

  lemma OneFailure<W(!new)>(lines: Lines<W>, w: W, before: seq<Placed>, p: Placed)
    requires Place(lines, p, After(lines, w, before)).0.Some?
    ensures ByFailing(lines, w, Place(lines, p, After(lines, w, before)).1, p)
  {
    CallsInTurn(lines, w, before, [p], p);
    assert [p][0] == p && [p][1..] == [];
    assert FailuresOf(lines, w, before + [p], p) >= 1;
  }

  lemma FailureStays<W(!new)>(lines: Lines<W>, w: W, w1: W, after: seq<Placed>, p: Placed)
    requires ByFailing(lines, w, w1, p)
    ensures ByFailing(lines, w, After(lines, w1, after), p)
  {
    var calls :| After(lines, w, calls) == w1 && FailuresOf(lines, w, calls, p) >= 1;
    CallsInTurn(lines, w, calls, after, p);
  }

  lemma FailureLater<W(!new)>(lines: Lines<W>, w: W, before: seq<Placed>, w2: W, p: Placed)
    requires ByFailing(lines, After(lines, w, before), w2, p)
    ensures ByFailing(lines, w, w2, p)
  {
    var calls :| After(lines, After(lines, w, before), calls) == w2
                 && FailuresOf(lines, After(lines, w, before), calls, p) >= 1;
    CallsInTurn(lines, w, before, calls, p);
  }

  /** Every failure of fn is worth a retry and comes with a failure of p. */
  ghost predicate FailsWith<T, W(!new)>(fn: Attempt<W, T>, lines: Lines<W>, p: Placed) {
    forall w: W | fn(w).0.Err? :: IsRetryableError(fn(w).0.error) && ByFailing(lines, w, fn(w).1, p)
  }

  /** Each failed attempt uses up one of the few failures, so there is an attempt that does not fail. */
  lemma {:induction false} FewFailures<T, W(!new)>(
    fn: Attempt<W, T>, lines: Lines<W>, p: Placed, n: nat, start: W, past: seq<Placed>, left: nat)
    requires FailsWith(fn, lines, p) && FailsAtMost(lines, p, n) && FailuresOf(lines, start, past, p) + left >= n
    ensures AnswersWithin(fn, After(lines, start, past), left)
    decreases left
  {
    var w := After(lines, start, past);
    if fn(w).0.Err? {
      assert ByFailing(lines, w, fn(w).1, p);
      var calls :| After(lines, w, calls) == fn(w).1 && FailuresOf(lines, w, calls, p) >= 1;
      CallsInTurn(lines, start, past, calls, p);
      assert FailuresOf(lines, start, past + calls, p) <= n;
      FewFailures(fn, lines, p, n, start, past + calls, left - 1);
    }
  }

  lemma FewFailuresFrom<T, W(!new)>(fn: Attempt<W, T>, lines: Lines<W>, p: Placed, n: nat, w: W)
    requires FailsWith(fn, lines, p) && FailsAtMost(lines, p, n)
    ensures AnswersWithin(fn, w, n)
  {
    FewFailures(fn, lines, p, n, w, [], n);
  }

  // ---- one endpoint, and two with failover ----

  /** fn makes the call, amid the others' calls. */
  ghost predicate Makes<T, W(!new)>(fn: Attempt<W, T>, lines: Lines<W>, others: W -> seq<Placed>, p: Placed) {
    forall w: W :: ErrorOf(fn(w)) == Place(lines, p, After(lines, w, others(w)))
  }

  lemma MadeFails<T, W(!new)>(fn: Attempt<W, T>, lines: Lines<W>, others: W -> seq<Placed>, p: Placed, w: W)
    requires Makes(fn, lines, others, p) && fn(w).0.Err?
    ensures ByFailing(lines, w, fn(w).1, p)
  {
    assert ErrorOf(fn(w)) == Place(lines, p, After(lines, w, others(w)));
    OneFailure(lines, w, others(w), p);
  }

  lemma LoneCallRecovers<T, W(!new)>(
    fn: Attempt<W, T>, lines: Lines<W>, others: W -> seq<Placed>, p: Placed, n: nat, w: W)
    requires Makes(fn, lines, others, p) && FailsAtMost(lines, p, n)
    requires forall w': W | fn(w').0.Err? :: IsRetryableError(fn(w').0.error)
    ensures AnswersWithin(fn, w, n)
  {
    forall w': W | fn(w').0.Err?
      ensures ByFailing(lines, w', fn(w').1, p)
    {
      MadeFails(fn, lines, others, p, w');
    }
    FewFailuresFrom(fn, lines, p, n, w);
  }

  /** An endpoint that seldom fails, whoever calls, recovers for each of its callers. */
  lemma LoneEndpointRecovers<W(!new)>(
    lines: Lines<W>, line: Line, others: W -> seq<Placed>, ctx: Context, n: nat)
    requires FailsRetryably(lines.On(line), ctx) && SeldomFails(lines, line, ctx, n)
    ensures Recovers(Amid(lines, line, others), ctx, n)
  {
    var amid := Amid(lines, line, others);
    forall a: Address, w: W
      ensures AnswersWithin(AccountCall(amid, ctx, a), w, n)
    {
      LoneCallRecovers(AccountCall(amid, ctx, a), lines, others, Placed(line, AccountRequest(ctx, a)), n, w);
    }
    forall addresses: seq<Address>, w: W
      ensures AnswersWithin(BatchCall(amid, ctx, addresses), w, n)
    {
      LoneCallRecovers(BatchCall(amid, ctx, addresses), lines, others, Placed(line, BatchRequest(ctx, addresses)), n,
                       w);
    }
    forall q: Query, w: W
      ensures AnswersWithin(QueryCall(amid, ctx, q), w, n)
    {
      LoneCallRecovers(QueryCall(amid, ctx, q), lines, others, Placed(line, QueryRequest(ctx, q)), n, w);
    }
  }

  /** When failover fails, both endpoints did. */
  lemma BothFail<T, W(!new)>(
    first: Attempt<W, T>, second: Attempt<W, T>, lines: Lines<W>, others: W -> seq<Placed>, p: Placed, q: Placed, w: W)
    requires Makes(first, lines, others, p) && Makes(second, lines, others, q)
    requires WithFallback(first, second, w).0.Err?
    ensures first(w).0.Err? && WithFallback(first, second, w).0 == first(w).0
    ensures ByFailing(lines, w, WithFallback(first, second, w).1, p)
    ensures ByFailing(lines, w, WithFallback(first, second, w).1, q)
  {
    var w1 := first(w).1;
    MadeFails(first, lines, others, p, w);
    MadeFails(second, lines, others, q, w1);
    assert ErrorOf(first(w)) == Place(lines, p, After(lines, w, others(w)));
    assert ErrorOf(second(w1)) == Place(lines, q, After(lines, w1, others(w1)));
    CallsInTurn(lines, w1, others(w1), [q], p);
    FailureStays(lines, w, w1, others(w1) + [q], p);
    assert [q][0] == q && [q][1..] == [];
    CallsInTurn(lines, w, others(w), [p], q);
    assert [p][0] == p && [p][1..] == [];
    FailureLater(lines, w, others(w) + [p], second(w1).1, q);
  }

  lemma FailoverCallRecovers<T, W(!new)>(
    fn: Attempt<W, T>, first: Attempt<W, T>, second: Attempt<W, T>, lines: Lines<W>, others: W -> seq<Placed>,
    p: Placed, q: Placed, n: nat, w: W)
    requires forall w': W :: fn(w') == WithFallback(first, second, w')
    requires Makes(first, lines, others, p) && Makes(second, lines, others, q)
    requires forall w': W | first(w').0.Err? :: IsRetryableError(first(w').0.error)
    requires FailsAtMost(lines, p, n) || FailsAtMost(lines, q, n)
    ensures AnswersWithin(fn, w, n)
  {
    var one := if FailsAtMost(lines, p, n) then p else q;
    forall w': W | fn(w').0.Err?
      ensures IsRetryableError(fn(w').0.error) && ByFailing(lines, w', fn(w').1, one)
    {
      assert fn(w') == WithFallback(first, second, w');
      BothFail(first, second, lines, others, p, q, w');
    }
    FewFailuresFrom(fn, lines, one, n, w);
  }

  /** One endpoint that seldom fails is enough, whichever it is, where the primary fails in ways worth a retry. */
  lemma EitherEndpointRecovers<W(!new)>(
    lines: Lines<W>, primaryTimeout: int, fallbackTimeout: int, others: W -> seq<Placed>, ctx: Context, n: nat)
    requires FailsRetryably(lines.first, WithTimeout(ctx, Failover.Timeout(primaryTimeout)))
    requires SeldomFails(lines, First, WithTimeout(ctx, Failover.Timeout(primaryTimeout)), n)
          || SeldomFails(lines, Second, WithTimeout(ctx, Failover.Timeout(fallbackTimeout)), n)
    ensures Recovers(Endpoints(lines, primaryTimeout, fallbackTimeout, others), ctx, n)
  {
    var c := Endpoints(lines, primaryTimeout, fallbackTimeout, others);
    var first, second := Amid(lines, First, others), Amid(lines, Second, others);
    var p := WithTimeout(ctx, Failover.Timeout(primaryTimeout));
    var f := WithTimeout(ctx, Failover.Timeout(fallbackTimeout));
    forall a: Address, w: W
      ensures AnswersWithin(AccountCall(c, ctx, a), w, n)
    {
      FailoverCallRecovers(AccountCall(c, ctx, a), AccountCall(first, p, a), AccountCall(second, f, a), lines, others,
                           Placed(First, AccountRequest(p, a)), Placed(Second, AccountRequest(f, a)), n, w);
    }
    forall addresses: seq<Address>, w: W
      ensures AnswersWithin(BatchCall(c, ctx, addresses), w, n)
    {
      FailoverCallRecovers(BatchCall(c, ctx, addresses), BatchCall(first, p, addresses),
                           BatchCall(second, f, addresses), lines, others, Placed(First, BatchRequest(p, addresses)),
                           Placed(Second, BatchRequest(f, addresses)), n, w);
    }
    forall q: Query, w: W
      ensures AnswersWithin(QueryCall(c, ctx, q), w, n)
    {
      FailoverCallRecovers(QueryCall(c, ctx, q), QueryCall(first, p, q), QueryCall(second, f, q), lines, others,
                           Placed(First, QueryRequest(p, q)), Placed(Second, QueryRequest(f, q)), n, w);
    }
  }

  // ---- recovering for a lone caller is not enough ----

  datatype Mood = Busy | Free

  const BUSY := ClientError("", RateLimited, None)

  /** A backend that turns down every second call. */
  function MoodyBackend(): Client<Mood> {
    Client(
      (ctx: Context, a: Address, w: Mood) => if w.Busy? then (Err(BUSY), Free) else (Ok(Some(Absent(a))), Busy),
      (ctx: Context, addresses: seq<Address>, w: Mood) => (Err(BUSY), w),
      (ctx: Context, q: Query, w: Mood) => (Err(BUSY), w))
  }

  /** Another goroutine that calls whenever it would be answered. */
  function Snatching(ctx: Context, a: Address): Mood -> seq<Placed> {
    (w: Mood) => if w.Busy? then [] else [Placed(First, AccountRequest(ctx, a))]
  }

  /**
   * It is not enough that the backend answers every caller left alone with it.  One that turns down every second call
   * answers on the one retry; but let another goroutine call in between, and both attempts fail.
   */
  lemma LoneRecoveryIsNotEnough(ctx: Context, a: Address, config: RetryConfig, env: Environment<Mood>, w: Mood)
    requires config.maxRetries == 1 && Endless(env)
    ensures var backend := MoodyBackend();
            var amid := Amid(Lines(backend, backend), First, Snatching(ctx, a));
            && NewRetryClient(backend, config, env).getAccount(ctx, a, w).0.Ok?
            && NewRetryClient(amid, config, env).getAccount(ctx, a, Busy).0.Err?
  {
    var backend := MoodyBackend();
    var lines := Lines(backend, backend);
    var amid := Amid(lines, First, Snatching(ctx, a));
    assert IsRetryableError(BUSY);
    assert backend.getAccount(ctx, a, Busy) == (Err(BUSY), Free) && backend.getAccount(ctx, a, Free).0.Ok?;
    RetriesOnce(backend, config, env, ctx, a, w);
    var calls := Snatching(ctx, a)(Free);
    assert calls == [Placed(First, AccountRequest(ctx, a))] && calls[1..] == [] && Snatching(ctx, a)(Busy) == [];
    assert After(lines, Free, calls) == After(lines, Busy, calls[1..]);
    assert amid.getAccount(ctx, a, Busy) == (Err(BUSY), Free) && amid.getAccount(ctx, a, Free) == (Err(BUSY), Free);
    RetriesOnce(amid, config, env, ctx, a, Busy);
  }

  lemma RetriesOnce<W(!new)>(
    inner: Client<W>, config: RetryConfig, env: Environment<W>, ctx: Context, a: Address, w: W)
    requires config.maxRetries == 1 && Endless(env)
    requires inner.getAccount(ctx, a, w).0.Err? ==> IsRetryableError(inner.getAccount(ctx, a, w).0.error)
    ensures NewRetryClient(inner, config, env).getAccount(ctx, a, w).0.Ok? <==>
            || inner.getAccount(ctx, a, w).0.Ok?
            || inner.getAccount(ctx, a, inner.getAccount(ctx, a, w).1).0.Ok?
  {
    var fn := AccountCall(inner, ctx, a);
    RetryingExactly(config, env, "get_account", fn, (w': W) => Wrapped("get_account", inner.getAccount(ctx, a, w')), w);
    assert fn(w) == inner.getAccount(ctx, a, w);
    assert AnswersWithin(fn, w, 1) <==> fn(w).0.Ok? || AnswersWithin(fn, fn(w).1, 0);
  }

  // ---- nor is a fallback that recovers ----

  const REFUSED := ClientError("", Unknown, None)

  function RefusingBackend(): Client<Mood> {
    Client(
      (ctx: Context, a: Address, w: Mood) => (Err(REFUSED), w),
      (ctx: Context, addresses: seq<Address>, w: Mood) => (Err(REFUSED), w),
      (ctx: Context, q: Query, w: Mood) => (Err(REFUSED), w))
  }

  /** The fallback would answer on the one retry, but the primary's error, which failover returns, is not retried. */
  lemma PermanentPrimaryEndsIt(
    ctx: Context, a: Address, primaryTimeout: int, fallbackTimeout: int, config: RetryConfig, env: Environment<Mood>)
    requires config.maxRetries == 1 && Endless(env)
    ensures var failover := NewFailoverClient(RefusingBackend(), MoodyBackend(), primaryTimeout, fallbackTimeout);
            && NewRetryClient(MoodyBackend(), config, env).getAccount(ctx, a, Busy).0.Ok?
            && NewRetryClient(failover, config, env).getAccount(ctx, a, Busy).0.Err?
  {
    var failover := NewFailoverClient(RefusingBackend(), MoodyBackend(), primaryTimeout, fallbackTimeout);
    assert IsRetryableError(BUSY) && !IsRetryableError(REFUSED);
    RetriesOnce(MoodyBackend(), config, env, ctx, a, Busy);
    assert failover.getAccount(ctx, a, Busy) == (Err(REFUSED), Free);
    var fn := AccountCall(failover, ctx, a);
    RetryingExactly(config, env, "get_account", fn,
                    (w': Mood) => Wrapped("get_account", failover.getAccount(ctx, a, w')), Busy);
    assert fn(Busy) == failover.getAccount(ctx, a, Busy);
  }
}
