/** The bulk call on the client NewClient builds: chunking over retry over two endpoints with failover. */
module EndToEnd {
  import opened Basics
  import opened Errors
  import opened Rpc
  import opened Preload
  import opened Retry
  import opened Failover
  import opened Calculators
  import opened Service
  import opened Bulk
  import opened Outages
  import opened Stack
  import opened BulkProtocol
  import opened Mishaps
  import opened BulkAnswers

  /** What a call comes to, item by item: settled, and where nothing was lost, what the ledger allows. */
  ghost predicate ServedFairly<W(!new)>(job: Job<W>, l: Ledger) {
    forall steps, end | Reaches(job, Start(job), steps, end) && end.returned ::
      |end.results| == |job.pools| && |end.workers| == |job.order| &&
      forall i | 0 <= i < |job.pools| ::
        && Settled(end.results[i], job.pools[i])
        && (BulkRefusal(job.s, job.pools[i]).Some? || !Disturbed(job, end, i) ==>
              && Fair(l, job.s, job.pools[i], end.results[i])
              && (PlanDecided(l, PlanFor(job.s, job.pools[i])) ==>
                    end.results[i] == FinalResult(job.pools[i], Expected(l, job.s, job.pools[i]))))
  }

  /** Nothing was lost: every item has what the ledger allows it, and so have the counters where no schedule matters. */
  ghost predicate ServedFully<W(!new)>(job: Job<W>, l: Ledger) {
    forall steps, end | Reaches(job, Start(job), steps, end) && end.returned ::
      && Undisturbed(end) && |end.results| == |job.pools|
      && (forall i | 0 <= i < |job.pools| :: Fair(l, job.s, job.pools[i], end.results[i]))
      && (forall i | 0 <= i < |job.pools| :: PlanDecided(l, PlanFor(job.s, job.pools[i])) ==>
            end.results[i] == FinalResult(job.pools[i], Expected(l, job.s, job.pools[i])))
      && (PoolsSteady(l, job.defaults, job.s, job.pools) ==> forall c: Counter ::
            Count(c, end.total) == TotalOf(RouteDue(c, l, job.defaults, job.s, job.pools), job.order))
  }

  lemma ItemIsFair<W(!new)>(job: Job<W>, l: Ledger, steps: seq<Step<W>>, end: System, i: nat)
    requires Fit(job) && Wired(job.defaults, job.s) && Exact(job.inner, l)
    requires Reaches(job, Start(job), steps, end) && end.returned && i < |job.pools|
    ensures Sized(job, end) && Settled(end.results[i], job.pools[i])
    ensures BulkRefusal(job.s, job.pools[i]).Some? || !Disturbed(job, end, i) ==>
              && Fair(l, job.s, job.pools[i], end.results[i])
              && (PlanDecided(l, PlanFor(job.s, job.pools[i])) ==>
                    end.results[i] == FinalResult(job.pools[i], Expected(l, job.s, job.pools[i])))
  {
    LengthsAgree(job, steps, end);
    EveryItemSettled(job, steps, end, i);
    UndisturbedItem(job, l, steps, end, i);
    if (BulkRefusal(job.s, job.pools[i]).Some? || !Disturbed(job, end, i))
       && PlanDecided(l, PlanFor(job.s, job.pools[i])) {
      FairIsExpected(l, job.s, job.pools[i], end.results[i]);
    }
  }

  lemma ExactServesFairly<W(!new)>(job: Job<W>, l: Ledger)
    requires Fit(job) && Wired(job.defaults, job.s) && Exact(job.inner, l)
    ensures ServedFairly(job, l)
  {
    forall steps, end | Reaches(job, Start(job), steps, end) && end.returned
      ensures |end.results| == |job.pools| && |end.workers| == |job.order|
      ensures forall i | 0 <= i < |job.pools| ::
                && Settled(end.results[i], job.pools[i])
                && (BulkRefusal(job.s, job.pools[i]).Some? || !Disturbed(job, end, i) ==>
                      && Fair(l, job.s, job.pools[i], end.results[i])
                      && (PlanDecided(l, PlanFor(job.s, job.pools[i])) ==>
                            end.results[i] == FinalResult(job.pools[i], Expected(l, job.s, job.pools[i]))))
    {
      LengthsAgree(job, steps, end);
      forall i: nat | i < |job.pools|
        ensures && Settled(end.results[i], job.pools[i])
                && (BulkRefusal(job.s, job.pools[i]).Some? || !Disturbed(job, end, i) ==>
                      && Fair(l, job.s, job.pools[i], end.results[i])
                      && (PlanDecided(l, PlanFor(job.s, job.pools[i])) ==>
                            end.results[i] == FinalResult(job.pools[i], Expected(l, job.s, job.pools[i]))))
      {
        ItemIsFair(job, l, steps, end, i);
      }
    }
  }

  lemma UnfailingServesFully<W(!new)>(job: Job<W>, l: Ledger)
    requires Fit(job) && Wired(job.defaults, job.s) && Exact(job.inner, l) && NeverFails(job.inner, job.ctx)
    ensures ServedFully(job, l)
  {
    forall steps, end | Reaches(job, Start(job), steps, end) && end.returned
      ensures Undisturbed(end) && |end.results| == |job.pools|
      ensures forall i | 0 <= i < |job.pools| :: Fair(l, job.s, job.pools[i], end.results[i])
      ensures forall i | 0 <= i < |job.pools| :: PlanDecided(l, PlanFor(job.s, job.pools[i])) ==>
                end.results[i] == FinalResult(job.pools[i], Expected(l, job.s, job.pools[i]))
      ensures PoolsSteady(l, job.defaults, job.s, job.pools) ==> forall c: Counter ::
                Count(c, end.total) == TotalOf(RouteDue(c, l, job.defaults, job.s, job.pools), job.order)
    {
      StartIsCalm(job);
      RunUndisturbed(job, Start(job), steps, end);
      LengthsAgree(job, steps, end);
      forall i: nat | i < |job.pools|
        ensures Fair(l, job.s, job.pools[i], end.results[i])
        ensures PlanDecided(l, PlanFor(job.s, job.pools[i])) ==>
                  end.results[i] == FinalResult(job.pools[i], Expected(l, job.s, job.pools[i]))
      {
        ItemIsFair(job, l, steps, end, i);
      }
      if PoolsSteady(l, job.defaults, job.s, job.pools) {
        forall c: Counter
          ensures Count(c, end.total) == TotalOf(RouteDue(c, l, job.defaults, job.s, job.pools), job.order)
        {
          UndisturbedTotal(c, job, l, steps, end);
        }
      }
    }
  }

  /**
   * Every layer at once.  The endpoints' batches may be short or hold nil for absent accounts; they may fail whenever
   * they like, and anybody may use them in between.  However often calls are retried, failed over, chunked and cached,
   * and however the groups are scheduled, an item that lost no read ends up with what the ledger allows it, and with
   * just the one outcome where its calculator's branches leave no choice of error.  A chunk size that makes the source
   * panic would end its process, so the size in effect is none of those.
   */
  lemma BulkOverTheStack<W(!new)>(
    lines: Lines<W>, primaryTimeout: int, fallbackTimeout: int, others: W -> seq<Placed>,
    config: RetryConfig, env: Environment<W>, bulkChunkSize: int,
    ctx: Context, defaults: map<Route, Compute>, s: Fields, pools: seq<Pool>,
    maxConcurrency: int, chunkSize: int, order: seq<Route>, l: Ledger)
    requires Faithful(lines.first, l) && SinglesComplete(lines.first)
    requires Faithful(lines.second, l) && SinglesComplete(lines.second) && bulkChunkSize > 0
    requires SafeChunks(bulkChunkSize, ResolveBulkExecution(s.cfg, maxConcurrency, chunkSize, |pools|, ctx).1)
    requires Wired(defaults, s) && IsOrder(order, GroupRoutes(s, pools, |pools|))
    ensures NeverLong(Endpoints(lines, primaryTimeout, fallbackTimeout, others))
    ensures var endpoints := Endpoints(lines, primaryTimeout, fallbackTimeout, others);
            var stack := NewClientStack(endpoints, config, env, bulkChunkSize);
            ServedFairly(NewJob(stack, ctx, defaults, s, pools, maxConcurrency, chunkSize, order), l)
  {
    var endpoints := Endpoints(lines, primaryTimeout, fallbackTimeout, others);
    EndpointsKeepPromises(lines, primaryTimeout, fallbackTimeout, others, l);
    StackIsExact(endpoints, config, env, bulkChunkSize, l);
    var stack := NewClientStack(endpoints, config, env, bulkChunkSize);
    NewJobIsFit(stack, ctx, defaults, s, pools, maxConcurrency, chunkSize, order);
    ExactServesFairly(NewJob(stack, ctx, defaults, s, pools, maxConcurrency, chunkSize, order), l);
  }

  /**
   * And whatever was lost, every served item is accounted for: it shows an error the stack gave its group's priming, or
   * what its route's calculator, run on that pool, concludes from the ledger's answers and the stack's own errors.
   */
  lemma AccountedOverTheStack<W(!new)>(
    backend: Client<W>, config: RetryConfig, env: Environment<W>, bulkChunkSize: int,
    ctx: Context, defaults: map<Route, Compute>, s: Fields, pools: seq<Pool>,
    maxConcurrency: int, chunkSize: int, order: seq<Route>, l: Ledger,
    steps: seq<Step<W>>, end: System, i: nat, c: Calculator)
    returns (outcome: Result<Metrics, Error>)
    requires Faithful(backend, l) && SinglesComplete(backend) && bulkChunkSize > 0
    requires SafeChunks(bulkChunkSize, ResolveBulkExecution(s.cfg, maxConcurrency, chunkSize, |pools|, ctx).1)
    requires Wired(defaults, s) && IsOrder(order, GroupRoutes(s, pools, |pools|))
    requires i < |pools| && Served(s, pools[i], c)
    requires var stack := NewClientStack(backend, config, env, bulkChunkSize);
             var job := NewJob(stack, ctx, defaults, s, pools, maxConcurrency, chunkSize, order);
             Reaches(job, Start(job), steps, end) && end.returned
    ensures |end.results| == |pools| && end.results[i] == FinalResult(pools[i], outcome)
    ensures var stack := NewClientStack(backend, config, env, bulkChunkSize);
            var itemCtx := ResolveBulkExecution(s.cfg, maxConcurrency, chunkSize, |pools|, ctx).1;
            var among := RouteAddresses(s, pools, Route(pools[i].dex, pools[i].version));
            || (outcome.Err? && ClientSaid(stack, itemCtx, among, outcome.error))
            || MayMeet(DeskOf(stack, itemCtx, c), l, c.compute(pools[i]), outcome)
  {
    StackIsExact(backend, config, env, bulkChunkSize, l);
    var stack := NewClientStack(backend, config, env, bulkChunkSize);
    var job := NewJob(stack, ctx, defaults, s, pools, maxConcurrency, chunkSize, order);
    NewJobIsFit(stack, ctx, defaults, s, pools, maxConcurrency, chunkSize, order);
    outcome := EveryItemAccounted(job, l, steps, end, i, c);
  }

  /** Where the configured client answers within the retries and no context ends, no schedule loses an item. */
  lemma RecoveredServesFully<W(!new)>(
    backend: Client<W>, config: RetryConfig, env: Environment<W>, bulkChunkSize: int,
    ctx: Context, defaults: map<Route, Compute>, s: Fields, pools: seq<Pool>,
    maxConcurrency: int, chunkSize: int, order: seq<Route>, l: Ledger)
    requires Faithful(backend, l) && SinglesComplete(backend) && bulkChunkSize > 0
    requires Wired(defaults, s) && IsOrder(order, GroupRoutes(s, pools, |pools|))
    requires var (_, itemCtx) := ResolveBulkExecution(s.cfg, maxConcurrency, chunkSize, |pools|, ctx);
             Recovers(backend, itemCtx, Retries(config)) && SafeChunks(bulkChunkSize, itemCtx)
    requires Endless(env)
    ensures var stack := NewClientStack(backend, config, env, bulkChunkSize);
            ServedFully(NewJob(stack, ctx, defaults, s, pools, maxConcurrency, chunkSize, order), l)
  {
    StackIsExact(backend, config, env, bulkChunkSize, l);
    var (_, itemCtx) := ResolveBulkExecution(s.cfg, maxConcurrency, chunkSize, |pools|, ctx);
    StackRecovers(backend, config, env, bulkChunkSize, itemCtx);
    var stack := NewClientStack(backend, config, env, bulkChunkSize);
    NewJobIsFit(stack, ctx, defaults, s, pools, maxConcurrency, chunkSize, order);
    UnfailingServesFully(NewJob(stack, ctx, defaults, s, pools, maxConcurrency, chunkSize, order), l);
  }

  /**
   * Where one of the two endpoints, whichever it is, fails no request more often than it is retried, whoever makes it
   * and whatever else is called in between, the primary's failures are worth a retry, and no context ends, no schedule
   * loses an item.
   */
  lemma OutagesOutlived<W(!new)>(
    lines: Lines<W>, primaryTimeout: int, fallbackTimeout: int, others: W -> seq<Placed>,
    config: RetryConfig, env: Environment<W>, bulkChunkSize: int,
    ctx: Context, defaults: map<Route, Compute>, s: Fields, pools: seq<Pool>,
    maxConcurrency: int, chunkSize: int, order: seq<Route>, l: Ledger)
    requires Faithful(lines.first, l) && SinglesComplete(lines.first)
    requires Faithful(lines.second, l) && SinglesComplete(lines.second) && bulkChunkSize > 0
    requires Wired(defaults, s) && IsOrder(order, GroupRoutes(s, pools, |pools|))
    requires var (_, itemCtx) := ResolveBulkExecution(s.cfg, maxConcurrency, chunkSize, |pools|, ctx);
             var p := WithTimeout(itemCtx, Failover.Timeout(primaryTimeout));
             var f := WithTimeout(itemCtx, Failover.Timeout(fallbackTimeout));
             && FailsRetryably(lines.first, p)
             && (SeldomFails(lines, First, p, Retries(config)) || SeldomFails(lines, Second, f, Retries(config)))
             && SafeChunks(bulkChunkSize, itemCtx)
    requires Endless(env)
    ensures NeverLong(Endpoints(lines, primaryTimeout, fallbackTimeout, others))
    ensures var endpoints := Endpoints(lines, primaryTimeout, fallbackTimeout, others);
            var stack := NewClientStack(endpoints, config, env, bulkChunkSize);
            ServedFully(NewJob(stack, ctx, defaults, s, pools, maxConcurrency, chunkSize, order), l)
  {
    var (_, itemCtx) := ResolveBulkExecution(s.cfg, maxConcurrency, chunkSize, |pools|, ctx);
    EndpointsKeepPromises(lines, primaryTimeout, fallbackTimeout, others, l);
    EitherEndpointRecovers(lines, primaryTimeout, fallbackTimeout, others, itemCtx, Retries(config));
    RecoveredServesFully(Endpoints(lines, primaryTimeout, fallbackTimeout, others), config, env, bulkChunkSize,
                         ctx, defaults, s, pools, maxConcurrency, chunkSize, order, l);
  }
}
