/** The client NewClient builds (sdk/market/client.go), and the layers' promises put together. */
module Stack {
  import opened Basics
  import opened Integers
  import opened Rpc
  import opened Retry
  import opened Batching
  import opened Failover
  import opened Outages
  import opened Preload

  /** Retrying keeps whatever the inner client promises about its answers, however often it fails. */
  lemma RetryKeepsPromises<W(!new)>(inner: Client<W>, config: RetryConfig, env: Environment<W>, l: Ledger)
    ensures var c := NewRetryClient(inner, config, env);
            && (NeverLong(inner) ==> NeverLong(c))
            && (Weak(inner, l) ==> Weak(c, l))
            && (Faithful(inner, l) ==> Faithful(c, l))
            && (Exact(inner, l) ==> Exact(c, l))
  {
    RetryClientAnswers(inner, config, env);
  }

  /** NewClient: chunking over retry over the configured client. */
  function NewClientStack<W(!new)>(
    backend: Client<W>, config: RetryConfig, env: Environment<W>, bulkChunkSize: int): Client<W>
    requires NeverLong(backend)
  {
    RetryClientAnswers(backend, config, env);
    NewChunkingClient(NewRetryClient(backend, config, env), bulkChunkSize)
  }

  /** Single accounts and everything else go through the retry client alone, and with no chunk size batches do too. */
  lemma StackIsRetry<W(!new)>(backend: Client<W>, config: RetryConfig, env: Environment<W>, bulkChunkSize: int)
    requires NeverLong(backend)
    ensures NeverLong(NewRetryClient(backend, config, env))
    ensures var c := NewClientStack(backend, config, env, bulkChunkSize);
            var retrying := NewRetryClient(backend, config, env);
            && (forall ctx: Context, a: Address, w: W :: c.getAccount(ctx, a, w) == retrying.getAccount(ctx, a, w))
            && (forall ctx: Context, q: Query, w: W :: c.query(ctx, q, w) == retrying.query(ctx, q, w))
            && (bulkChunkSize <= 0 ==> forall ctx: Context, addresses: seq<Address>, w: W ::
                  c.getMultipleAccounts(ctx, addresses, w) == retrying.getMultipleAccounts(ctx, addresses, w))
            && (bulkChunkSize > 0 ==> forall ctx: Context, addresses: seq<Address>, w: W ::
                  c.getMultipleAccounts(ctx, addresses, w)
                  == ChunkedLookup(retrying, bulkChunkSize, ctx, addresses, w))
  {
    RetryClientAnswers(backend, config, env);
    assert NeverLong(NewRetryClient(backend, config, env));
  }

  /**
   * For any number of failures, the stack answers from the ledger if its backend does; with a positive chunk size its
   * batches are complete and free of nil even when the backend's are not.
   */
  lemma StackKeepsPromises<W(!new)>(
    backend: Client<W>, config: RetryConfig, env: Environment<W>, bulkChunkSize: int, l: Ledger)
    requires Weak(backend, l)
    ensures var c := NewClientStack(backend, config, env, bulkChunkSize);
            && Weak(c, l)
            && (Faithful(backend, l) ==> Faithful(c, l))
            && (Faithful(backend, l) && bulkChunkSize > 0 ==>
                  forall ctx: Context, addresses: seq<Address>, w: W ::
                    var r := c.getMultipleAccounts(ctx, addresses, w).0;
                    r.Ok? ==> r.value == LookupAll(l, addresses))
            && (Exact(backend, l) ==> Exact(c, l))
  {
    RetryKeepsPromises(backend, config, env, l);
    var retrying := NewRetryClient(backend, config, env);
    ChunkingClientWeak(retrying, l, bulkChunkSize);
    if Faithful(backend, l) {
      ChunkingClientAgrees(retrying, l, bulkChunkSize);
    }
    if Exact(backend, l) {
      ExactIsFaithful(retrying, l);
      ChunkingClientAgrees(retrying, l, bulkChunkSize);
    }
  }

  /** Chunking makes good the nil entries and short replies of faithful batches, so the stack is exact. */
  lemma StackIsExact<W(!new)>(
    backend: Client<W>, config: RetryConfig, env: Environment<W>, bulkChunkSize: int, l: Ledger)
    requires Faithful(backend, l) && SinglesComplete(backend) && bulkChunkSize > 0
    ensures Exact(NewClientStack(backend, config, env, bulkChunkSize), l)
  {
    FaithfulIsWeak(backend, l);
    StackKeepsPromises(backend, config, env, bulkChunkSize, l);
    RetryClientAnswers(backend, config, env);
    var retrying, c := NewRetryClient(backend, config, env), NewClientStack(backend, config, env, bulkChunkSize);
    forall ctx: Context, a: Address, w: W | c.getAccount(ctx, a, w).0.Ok?
      ensures c.getAccount(ctx, a, w).0.value == Some(Lookup(l, a))
    {
      assert c.getAccount(ctx, a, w) == retrying.getAccount(ctx, a, w);
      var w': W :| backend.getAccount(ctx, a, w').0 == retrying.getAccount(ctx, a, w).0;
      assert Agrees(l, a, backend.getAccount(ctx, a, w').0.value);
    }
  }

  /**
   * The whole tower of a bulk call: two endpoints with failover, retry, chunking, and the preload cache on top.  If
   * each endpoint is right about single accounts and about batch entries it reports as existing, every answer the
   * tower gives is the ledger's, and its cache stays true, for any pattern of failures.
   */
  lemma TowerAgrees<W(!new)>(
    primary: Client<W>, fallback: Client<W>, primaryTimeout: int, fallbackTimeout: int,
    config: RetryConfig, env: Environment<W>, bulkChunkSize: int, l: Ledger,
    ctx: Context, cache: Cache, addresses: seq<Address>, w: W)
    requires Weak(primary, l) && Weak(fallback, l) && TableAgrees(l, cache)
    ensures NeverLong(NewFailoverClient(primary, fallback, primaryTimeout, fallbackTimeout))
    ensures var failover := NewFailoverClient(primary, fallback, primaryTimeout, fallbackTimeout);
            var f := Fetch(NewClientStack(failover, config, env, bulkChunkSize), ctx, cache, addresses, w);
            && TableAgrees(l, f.cache)
            && (f.reply.Ok? ==> f.reply.value == LookupAll(l, addresses))
            && (f.reply.Err? ==> f.cache == cache)
  {
    var failover := NewFailoverClient(primary, fallback, primaryTimeout, fallbackTimeout);
    FailoverKeepsPromises(primary, fallback, primaryTimeout, fallbackTimeout, l);
    StackKeepsPromises(failover, config, env, bulkChunkSize, l);
    var stack := NewClientStack(failover, config, env, bulkChunkSize);
    FetchAgrees(stack, l, ctx, cache, addresses, w);
    FetchAllOrNothing(stack, ctx, cache, addresses, w);
  }

  // ---- outages ----

  lemma {:induction false} FetchChunksSucceeds<W(!new)>(
    inner: Client<W>, ctx: Context, chunks: seq<seq<Address>>, byAddress: ByAddress, w: W)
    requires NeverLong(inner) && NeverFails(inner, ctx)
    ensures FetchChunks(inner, ctx, chunks, byAddress, w).0.Ok?
    decreases |chunks|
  {
    if chunks != [] {
      var (reply, w1) := inner.getMultipleAccounts(ctx, chunks[0], w);
      FetchChunksSucceeds(inner, ctx, chunks[1..], Gather(byAddress, chunks[0], reply.value), w1);
    }
  }

  /** The chunk size in effect is none of those that make ChunkPubkeys panic. */
  predicate SafeChunks(bulkChunkSize: int, ctx: Context) {
    bulkChunkSize > 0 ==> ChunkSize(bulkChunkSize, ctx) <= TWO_63 + 1 - MAX_KEYS
  }

  /**
   * Where the backend answers within the retries, the stack never fails, in contexts that do not end and with chunk
   * sizes that do not panic.
   */
  lemma StackRecovers<W(!new)>(
    backend: Client<W>, config: RetryConfig, env: Environment<W>, bulkChunkSize: int, ctx: Context)
    requires NeverLong(backend) && Recovers(backend, ctx, Retries(config)) && SafeChunks(bulkChunkSize, ctx)
    requires Endless(env)
    ensures NeverFails(NewClientStack(backend, config, env, bulkChunkSize), ctx)
  {
    var c := NewRetryClient(backend, config, env);
    RetryNeverFails(backend, config, env, ctx);
    RetryClientAnswers(backend, config, env);
    var stack := NewClientStack(backend, config, env, bulkChunkSize);
    forall addresses: seq<Address>, w: W
      ensures stack.getMultipleAccounts(ctx, addresses, w).0.Ok?
    {
      var size := ChunkSize(bulkChunkSize, ctx);
      if bulkChunkSize > 0 && addresses != [] && size > 0 {
        PanicFreeExactly(size);
        FetchChunksSucceeds(c, ctx, Chunks(Fresh(addresses, {}), size), map[], w);
      }
    }
  }
}
