/** sdk/rpc/failover.go: a primary client with a fallback tried once after a failure. */
module Failover {
  import opened Basics
  import opened Errors
  import opened Rpc
  import opened Retry

  /** withFallback and its pair and tuple variants. */
  function WithFallback<T, W>(primary: Attempt<W, T>, fallback: Attempt<W, T>, w: W): (Result<T, Error>, W) {
    var (out, w1) := primary(w);
    if out.Ok? then (out, w1)
    else
      var (second, w2) := fallback(w1);
      (if second.Ok? then second else Err(out.error), w2)
  }

  function WithTimeout(ctx: Context, timeout: int): Context {
    ctx.(timeouts := ctx.timeouts + [timeout])
  }

  const DEFAULT_TIMEOUT := 4_000_000_000

  function Timeout(configured: int): int {
    if configured <= 0 then DEFAULT_TIMEOUT else configured
  }

  /** NewFailoverClient for two clients that are there; with one of them missing the other is used as it is. */
  function NewFailoverClient<W>(primary: Client<W>, fallback: Client<W>, primaryTimeout: int, fallbackTimeout: int)
    : Client<W>
  {
    var p, f := Timeout(primaryTimeout), Timeout(fallbackTimeout);
    Client(
      (ctx: Context, a: Address, w: W) =>
        WithFallback((w': W) => primary.getAccount(WithTimeout(ctx, p), a, w'),
                     (w': W) => fallback.getAccount(WithTimeout(ctx, f), a, w'), w),
      (ctx: Context, addresses: seq<Address>, w: W) =>
        WithFallback((w': W) => primary.getMultipleAccounts(WithTimeout(ctx, p), addresses, w'),
                     (w': W) => fallback.getMultipleAccounts(WithTimeout(ctx, f), addresses, w'), w),
      (ctx: Context, q: Query, w: W) =>
        WithFallback((w': W) => primary.query(WithTimeout(ctx, p), q, w'),
                     (w': W) => fallback.query(WithTimeout(ctx, f), q, w'), w))
  }

  /** The first reply if it answers, else the second if that does, else the first's error in the second's world. */
  function Either<T, W>(first: (Result<T, Error>, W), second: (Result<T, Error>, W)): (Result<T, Error>, W) {
    if first.0.Ok? then first else if second.0.Ok? then second else (first.0, second.1)
  }

  /**
   * A call that fails over, in the endpoints' own replies: the primary is asked under its own deadline, 4 seconds where
   * none is configured, and its answer is the answer; else the fallback is asked under its, and answers, or else the
   * call has the primary's error.
   */
  lemma FailsOver<W(!new)>(
    primary: Client<W>, fallback: Client<W>, primaryTimeout: int, fallbackTimeout: int, ctx: Context, w: W)
    ensures var c := NewFailoverClient(primary, fallback, primaryTimeout, fallbackTimeout);
            var p := Context(ctx.chunkSize,
                             ctx.timeouts + [if primaryTimeout <= 0 then 4_000_000_000 else primaryTimeout]);
            var f := Context(ctx.chunkSize,
                             ctx.timeouts + [if fallbackTimeout <= 0 then 4_000_000_000 else fallbackTimeout]);
            && (forall a: Address ::
                  var first := primary.getAccount(p, a, w);
                  var second := fallback.getAccount(f, a, first.1);
                  c.getAccount(ctx, a, w) == if first.0.Ok? then first else if second.0.Ok? then second
                                             else (first.0, second.1))
            && (forall addresses: seq<Address> ::
                  var first := primary.getMultipleAccounts(p, addresses, w);
                  var second := fallback.getMultipleAccounts(f, addresses, first.1);
                  c.getMultipleAccounts(ctx, addresses, w) == if first.0.Ok? then first else if second.0.Ok? then second
                                                              else (first.0, second.1))
            && (forall q: Query ::
                  var first := primary.query(p, q, w);
                  var second := fallback.query(f, q, first.1);
                  c.query(ctx, q, w) == if first.0.Ok? then first else if second.0.Ok? then second
                                        else (first.0, second.1))
  {
    var c := NewFailoverClient(primary, fallback, primaryTimeout, fallbackTimeout);
    var p, f := WithTimeout(ctx, Timeout(primaryTimeout)), WithTimeout(ctx, Timeout(fallbackTimeout));
    assert p == Context(ctx.chunkSize, ctx.timeouts + [if primaryTimeout <= 0 then 4_000_000_000 else primaryTimeout]);
    assert f == Context(ctx.chunkSize,
                        ctx.timeouts + [if fallbackTimeout <= 0 then 4_000_000_000 else fallbackTimeout]);
    forall a: Address
      ensures c.getAccount(ctx, a, w)
           == Either(primary.getAccount(p, a, w), fallback.getAccount(f, a, primary.getAccount(p, a, w).1))
    {
    }
    forall addresses: seq<Address>
      ensures c.getMultipleAccounts(ctx, addresses, w)
           == Either(primary.getMultipleAccounts(p, addresses, w),
                     fallback.getMultipleAccounts(f, addresses, primary.getMultipleAccounts(p, addresses, w).1))
    {
    }
    forall q: Query
      ensures c.query(ctx, q, w)
           == Either(primary.query(p, q, w), fallback.query(f, q, primary.query(p, q, w).1))
    {
    }
  }

  /** One endpoint that never fails is enough, whichever it is. */
  lemma FailoverNeedsOne<W(!new)>(
    primary: Client<W>, fallback: Client<W>, primaryTimeout: int, fallbackTimeout: int, ctx: Context)
    requires NeverFails(primary, WithTimeout(ctx, Timeout(primaryTimeout)))
          || NeverFails(fallback, WithTimeout(ctx, Timeout(fallbackTimeout)))
    ensures NeverFails(NewFailoverClient(primary, fallback, primaryTimeout, fallbackTimeout), ctx)
  {
    var c := NewFailoverClient(primary, fallback, primaryTimeout, fallbackTimeout);
    var p, f := WithTimeout(ctx, Timeout(primaryTimeout)), WithTimeout(ctx, Timeout(fallbackTimeout));
    forall a: Address, w: W
      ensures c.getAccount(ctx, a, w).0.Ok?
    {
      var first := primary.getAccount(p, a, w);
      assert first.0.Ok? || fallback.getAccount(f, a, first.1).0.Ok?;
    }
    forall addresses: seq<Address>, w: W
      ensures c.getMultipleAccounts(ctx, addresses, w).0.Ok?
    {
      var first := primary.getMultipleAccounts(p, addresses, w);
      assert first.0.Ok? || fallback.getMultipleAccounts(f, addresses, first.1).0.Ok?;
    }
    forall q: Query, w: W
      ensures c.query(ctx, q, w).0.Ok?
    {
      var first := primary.query(p, q, w);
      assert first.0.Ok? || fallback.query(f, q, first.1).0.Ok?;
    }
  }

  /** Failing over between two clients keeps whatever both promise about their answers. */
  lemma FailoverKeepsPromises<W(!new)>(
    primary: Client<W>, fallback: Client<W>, primaryTimeout: int, fallbackTimeout: int, l: Ledger)
    ensures var c := NewFailoverClient(primary, fallback, primaryTimeout, fallbackTimeout);
            && (Weak(primary, l) && Weak(fallback, l) ==> Weak(c, l))
            && (Faithful(primary, l) && Faithful(fallback, l) ==> Faithful(c, l))
            && (Exact(primary, l) && Exact(fallback, l) ==> Exact(c, l))
            && (SinglesComplete(primary) && SinglesComplete(fallback) ==> SinglesComplete(c))
  {
    var c := NewFailoverClient(primary, fallback, primaryTimeout, fallbackTimeout);
    var p, f := Timeout(primaryTimeout), Timeout(fallbackTimeout);
    forall ctx: Context, addresses: seq<Address>, w: W
      ensures c.getMultipleAccounts(ctx, addresses, w).0.Ok? ==>
                || c.getMultipleAccounts(ctx, addresses, w).0
                   == primary.getMultipleAccounts(WithTimeout(ctx, p), addresses, w).0
                || exists w': W :: c.getMultipleAccounts(ctx, addresses, w).0
                                   == fallback.getMultipleAccounts(WithTimeout(ctx, f), addresses, w').0
    {
    }
    forall ctx: Context, a: Address, w: W
      ensures c.getAccount(ctx, a, w).0.Ok? ==>
                || c.getAccount(ctx, a, w).0 == primary.getAccount(WithTimeout(ctx, p), a, w).0
                || exists w': W :: c.getAccount(ctx, a, w).0 == fallback.getAccount(WithTimeout(ctx, f), a, w').0
    {
    }
    forall ctx: Context, q: Query, w: W
      ensures c.query(ctx, q, w).0.Ok? ==>
                || c.query(ctx, q, w).0 == primary.query(WithTimeout(ctx, p), q, w).0
                || exists w': W :: c.query(ctx, q, w).0 == fallback.query(WithTimeout(ctx, f), q, w').0
    {
    }
  }
}
