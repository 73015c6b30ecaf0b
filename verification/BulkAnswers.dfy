/**
 * Where the answers of a bulk call come from, over a client that may fail at any call: what a caller reads in an item
 * is what the client answered for the item's group, or what the item's calculator concludes from the client's answers.
 */
module BulkAnswers {
  import opened Basics
  import opened Errors
  import opened Rpc
  import opened Batching
  import opened Preload
  import opened Calculators
  import opened Calls
  import opened Calculations
  import opened Mishaps
  import opened Service
  import opened Bulk
  import opened BulkProtocol
  import opened BulkSchedules
  import P = Processes

  // ---- a pool in the request's own terms ----

  predicate WellFormed(pool: Pool) {
    pool.dex != "" && pool.version != "" && pool.address.id != 0
    && !(pool.dex == "pumpfun" && pool.version == "bonding_curve")
  }

  /** A pool that has all it needs and whose route has a calculator. */
  ghost predicate Served(s: Fields, pool: Pool, c: Calculator) {
    && WellFormed(pool) && Route(pool.dex, pool.version) in s.calculators
    && s.calculators[Route(pool.dex, pool.version)] == Some(c)
  }

  /** The calculator of its route runs on the pool itself. */
  lemma ServedPlan(s: Fields, pool: Pool, c: Calculator)
    requires Served(s, pool, c)
    ensures PlanFor(s, pool) == Use(c, c.compute(pool)) && BulkRefusal(s, pool).None?
  {
  }

  // ---- what a pool comes to where no call fails ----

  lemma FairServed(l: Ledger, s: Fields, pool: Pool, c: Calculator, m: Metrics, e: Error)
    requires Served(s, pool, c)
    ensures Fair(l, s, pool, ItemResult(pool, Some(m), None)) <==> May(l, c.provider, c.compute(pool), Ok(m))
    ensures Fair(l, s, pool, ItemResult(pool, None, Some(e))) <==>
            exists cause :: ToSDKError(cause) == e && May(l, c.provider, c.compute(pool), Err(cause))
  {
    ServedPlan(s, pool, c);
    if May(l, c.provider, c.compute(pool), Ok(m)) {
      assert MayCome(l, PlanFor(s, pool), Ok(m)) && ItemResult(pool, Some(m), None) == FinalResult(pool, Ok(m));
    }
    if cause :| ToSDKError(cause) == e && May(l, c.provider, c.compute(pool), Err(cause)) {
      assert MayCome(l, PlanFor(s, pool), Err(cause));
      assert ItemResult(pool, None, Some(e)) == FinalResult(pool, Err(cause));
    }
  }

  /**
   * Over an exact client that never fails, an item can show metrics just where its own calculator may come to them on
   * the ledger, and an error just where the calculator may come to an error shown so.
   */
  lemma ServedInBulk<W(!new)>(job: Job<W>, l: Ledger, i: nat, c: Calculator, m: Metrics, e: Error, w: W)
    requires Fit(job) && Wired(job.defaults, job.s) && Exact(job.inner, l) && NeverFails(job.inner, job.ctx)
    requires i < |job.pools| && Served(job.s, job.pools[i], c)
    ensures SomeRunGives(job, i, ItemResult(job.pools[i], Some(m), None)) <==>
            May(l, c.provider, c.compute(job.pools[i]), Ok(m))
    ensures SomeRunGives(job, i, ItemResult(job.pools[i], None, Some(e))) <==>
            exists cause :: ToSDKError(cause) == e && May(l, c.provider, c.compute(job.pools[i]), Err(cause))
  {
    var pool := job.pools[i];
    FairServed(l, job.s, pool, c, m, e);
    BulkOutcomesExactly(job, l, i, ItemResult(pool, Some(m), None), w);
    BulkOutcomesExactly(job, l, i, ItemResult(pool, None, Some(e)), w);
  }

  /** GetMetricsByPool alone. */
  lemma ServedAlone<W(!new)>(
    inner: Client<W>, l: Ledger, ctx: Context, s: Fields, pool: Pool, c: Calculator, cache: Cache,
    stats: PreloadStats, outcome: Result<Metrics, Error>, w: W)
    requires Exact(inner, l) && NeverFails(inner, ctx) && TableAgrees(l, cache) && Served(s, pool, c)
    ensures May(l, c.provider, c.compute(pool), outcome) <==>
            exists ticks, end :: Gives(inner, ctx, s, pool, cache, stats, ticks, end, outcome, true)
  {
    ServedPlan(s, pool, c);
    SingleExactly(inner, l, ctx, s, pool, cache, stats, outcome, w);
  }

  /** How the single path turns a pool away. */
  lemma TurnedAwayAlone<W>(
    inner: Client<W>, ctx: Context, s: Fields, pool: Pool, cache: Cache, stats: PreloadStats,
    ticks: seq<P.Tick<W>>, end: P.Run, outcome: Result<Metrics, Error>, answered: bool)
    requires Gives(inner, ctx, s, pool, cache, stats, ticks, end, outcome, answered)
    ensures pool.dex == "" ==> outcome == Err(SDKError(InvalidArgument, "pool dex is required", None))
    ensures pool.dex != "" && pool.version == "" ==>
              outcome == Err(SDKError(InvalidArgument, "pool version is required", None))
    ensures pool.dex != "" && pool.version != "" && pool.address.id == 0 ==>
              outcome == Err(SDKError(InvalidArgument, "pool address is required", None))
  {
  }

  lemma CurvesTurnedAwayAlone<W>(
    inner: Client<W>, ctx: Context, s: Fields, pool: Pool, cache: Cache, stats: PreloadStats,
    ticks: seq<P.Tick<W>>, end: P.Run, outcome: Result<Metrics, Error>, answered: bool)
    requires Gives(inner, ctx, s, pool, cache, stats, ticks, end, outcome, answered)
    requires pool.dex == "pumpfun" && pool.version == "bonding_curve" && pool.address.id != 0
    ensures outcome == Err(SDKError(
              InvalidArgument,
              "pumpfun bonding_curve requires GetMetricsByPumpfunBondingCurve (mint-based) instead of GetMetricsByPool",
              None))
  {
  }

  lemma UnroutedAlone<W>(
    inner: Client<W>, ctx: Context, s: Fields, pool: Pool, cache: Cache, stats: PreloadStats,
    ticks: seq<P.Tick<W>>, end: P.Run, outcome: Result<Metrics, Error>, answered: bool)
    requires Gives(inner, ctx, s, pool, cache, stats, ticks, end, outcome, answered) && WellFormed(pool)
    requires var route := Route(pool.dex, pool.version); route !in s.calculators || s.calculators[route].None?
    ensures outcome
            == Err(SDKError(UnsupportedRoute, "unsupported pool route: " + pool.dex + "/" + pool.version, None))
  {
  }

  ghost predicate ReturnsWith<W(!new)>(job: Job<W>, i: nat, shown: Error) {
    forall steps, end | Reaches(job, Start(job), steps, end) && end.returned ::
      |end.results| == |job.pools| && i < |end.results| && end.results[i] == ItemResult(job.pools[i], None, Some(shown))
  }

  lemma RefusedInBulk<W(!new)>(job: Job<W>, i: nat)
    requires Fit(job) && i < |job.pools| && BulkRefusal(job.s, job.pools[i]).Some?
    ensures ReturnsWith(job, i, ToSDKError(BulkRefusal(job.s, job.pools[i]).value))
  {
    forall steps, end | Reaches(job, Start(job), steps, end) && end.returned
      ensures |end.results| == |job.pools|
      ensures end.results[i]
              == ItemResult(job.pools[i], None, Some(ToSDKError(BulkRefusal(job.s, job.pools[i]).value)))
    {
      EveryItemSettled(job, steps, end, i);
    }
  }

  /** In bulk they are turned away alike, over any client and on every schedule. */
  lemma TurnedAwayInBulk<W(!new)>(job: Job<W>, i: nat)
    requires Fit(job) && i < |job.pools|
    ensures var pool := job.pools[i];
            && (pool.dex == "" ==> ReturnsWith(job, i, SDKError(InvalidArgument, "pool dex is required", None)))
            && (pool.dex != "" && pool.version == "" ==>
                  ReturnsWith(job, i, SDKError(InvalidArgument, "pool version is required", None)))
            && (pool.dex != "" && pool.version != "" && pool.address.id == 0 ==>
                  ReturnsWith(job, i, SDKError(InvalidArgument, "pool address is required", None)))
  {
    if BulkRefusal(job.s, job.pools[i]).Some? {
      RefusedInBulk(job, i);
    }
  }

  lemma CurvesTurnedAwayInBulk<W(!new)>(job: Job<W>, i: nat)
    requires Fit(job) && i < |job.pools| && job.pools[i].dex == "pumpfun"
    requires job.pools[i].version == "bonding_curve" && job.pools[i].address.id != 0
    ensures ReturnsWith(job, i, SDKError(
              InvalidArgument,
              "pumpfun bonding_curve requires GetMetricsByPumpfunBondingCurve (mint-based) instead of GetMetricsByPool",
              None))
  {
    RefusedInBulk(job, i);
  }

  lemma UnroutedInBulk<W(!new)>(job: Job<W>, i: nat)
    requires Fit(job) && i < |job.pools| && WellFormed(job.pools[i])
    requires Route(job.pools[i].dex, job.pools[i].version) !in job.s.calculators
    ensures ReturnsWith(job, i, SDKError(
              UnsupportedRoute, "unsupported pool route: " + job.pools[i].dex + "/" + job.pools[i].version, None))
  {
    RefusedInBulk(job, i);
  }

  /** The numbers a call runs with: no more workers at once than asked for, than pools, or than groups. */
  lemma JobNumbers<W>(
    inner: Client<W>, ctx: Context, defaults: map<Route, Compute>, s: Fields, pools: seq<Pool>,
    maxConcurrency: int, chunkSize: int, order: seq<Route>)
    ensures var job := NewJob(inner, ctx, defaults, s, pools, maxConcurrency, chunkSize, order);
            var asked := if maxConcurrency > 0 then maxConcurrency
                         else if s.cfg.maxBulkConcurrency > 0 then s.cfg.maxBulkConcurrency else 1;
            && job.limit <= asked && job.limit <= |pools| && job.limit <= |order|
            && (job.limit == asked || job.limit == |pools| || job.limit == |order|)
            && job.ctx.timeouts == ctx.timeouts
            && job.ctx.chunkSize == if chunkSize > 0 then Some(chunkSize)
                                    else if s.cfg.bulkChunkSize > 0 then Some(s.cfg.bulkChunkSize) else ctx.chunkSize
  {
  }

  // ---- the addresses a group primes ----

  /** What belongs in a group: a well-formed pool of the group's route, which has an entry in the service. */
  predicate Belongs(s: Fields, pool: Pool, route: Route) {
    WellFormed(pool) && Route(pool.dex, pool.version) == route && route in s.calculators
  }

  ghost predicate IsAddressIn(s: Fields, pools: seq<Pool>, route: Route, a: Address) {
    exists pool :: pool in pools && Belongs(s, pool, route) && pool.address == a
  }

  lemma GroupAddressBelongs(s: Fields, pools: seq<Pool>, route: Route, a: Address)
    requires a in RouteAddresses(s, pools, route)
    ensures IsAddressIn(s, pools, route, a)
  {
    GroupIndicesMeaning(s, pools, route, |pools|);
    var ix := GroupIndices(s, pools, route, |pools|);
    var k: nat :| k < |ix| && RouteAddresses(s, pools, route)[k] == a;
    assert ix[k] in ix;
    assert pools[ix[k]] in pools && Belongs(s, pools[ix[k]], route) && pools[ix[k]].address == a;
  }

  lemma AddressIsGrouped(s: Fields, pools: seq<Pool>, route: Route, i: nat)
    requires i < |pools| && Belongs(s, pools[i], route)
    ensures pools[i].address in RouteAddresses(s, pools, route)
  {
    GroupIndicesMeaning(s, pools, route, |pools|);
    var ix := GroupIndices(s, pools, route, |pools|);
    assert i in ix;
    var k: nat :| k < |ix| && ix[k] == i;
    assert RouteAddresses(s, pools, route)[k] == pools[i].address;
  }

  /** The addresses a group primes are those of the pools that belong in it, and no others. */
  lemma GroupAddresses(s: Fields, pools: seq<Pool>, route: Route, a: Address)
    ensures a in RouteAddresses(s, pools, route) <==>
            exists pool :: pool in pools && Belongs(s, pool, route) && pool.address == a
  {
    if a in RouteAddresses(s, pools, route) {
      GroupAddressBelongs(s, pools, route, a);
    }
    if pool :| pool in pools && Belongs(s, pool, route) && pool.address == a {
      var i: nat :| i < |pools| && pools[i] == pool;
      AddressIsGrouped(s, pools, route, i);
    }
  }

  // ---- a failed priming is the client's own failure, over any client ----

  /** A priming under way has heard of no failure but the client's own. */
  ghost predicate PrimeSaid<W(!new)>(job: Job<W>, s: System, g: nat)
    requires Sized(job, s) && g < |job.order|
  {
    var me := s.workers[g];
    && (me.phase.Priming? ==> CallSaid(PrimeDesk(job), PrimeRead(job, g), me.phase.call, {}))
    && (me.failure.Some? ==> ClientSaid(job.inner, job.ctx, Addresses(job, g), me.failure.value))
  }

  lemma PrimeStepSaid<W(!new)>(job: Job<W>, s: System, g: nat, tick: P.Tick<W>)
    requires Enabled(job, s, Move(g, tick)) && PrimeSaid(job, s, g)
    ensures var next := Next(job, s, g, tick);
            && (next.phase.Priming? ==> CallSaid(PrimeDesk(job), PrimeRead(job, g), next.phase.call, {}))
            && (next.failure.Some? ==> ClientSaid(job.inner, job.ctx, Addresses(job, g), next.failure.value))
  {
    var me := s.workers[g];
    if me.phase.Priming? && !me.phase.call.Answered? {
      var none: set<Error> := {};
      ProceedSaid(PrimeDesk(job), PrimeRead(job, g), me.phase.call, tick.w, None, me.cache, none);
      assert none + {} == none;
    }
  }

  lemma StepSaid<W(!new)>(job: Job<W>, s: System, step: Step<W>, g: nat)
    requires Enabled(job, s, step) && g < |job.order| && PrimeSaid(job, s, g)
    ensures Sized(job, Apply(job, s, step)) && PrimeSaid(job, Apply(job, s, step), g)
  {
    match step
    case Move(g', tick) =>
      MoveShape(job, s, g', tick);
      if g' == g {
        PrimeStepSaid(job, s, g, tick);
      } else {
        assert Apply(job, s, step).workers[g] == s.workers[g];
      }
    case Launch =>
      if g == s.launched {
        BeginSaid(PrimeDesk(job), PrimeRead(job, g));
      } else {
        assert Apply(job, s, step).workers[g] == s.workers[g];
      }
    case _ =>
  }

  lemma {:induction false} RunSaid<W(!new)>(job: Job<W>, s: System, steps: seq<Step<W>>, end: System, g: nat)
    requires Sized(job, s) && g < |job.order| && PrimeSaid(job, s, g) && Reaches(job, s, steps, end)
    ensures Sized(job, end) && PrimeSaid(job, end, g)
    decreases |steps|
  {
    if steps != [] {
      StepSaid(job, s, steps[0], g);
      RunSaid(job, Apply(job, s, steps[0]), steps[1..], end, g);
    }
  }

  /**
   * In every reachable state, over any client: what a group records as its priming's failure is an error the client
   * itself gave, in a batch of addresses of the group or on one of them.
   */
  lemma FailureIsTheClients<W(!new)>(job: Job<W>, steps: seq<Step<W>>, s: System, g: nat)
    requires Reaches(job, Start(job), steps, s) && g < |job.order|
    ensures Sized(job, s)
    ensures s.workers[g].failure.Some? ==>
              ClientSaid(job.inner, job.ctx, Addresses(job, g), s.workers[g].failure.value)
  {
    RunSaid(job, Start(job), steps, s, g);
  }

  /** The code a caller reads for an error of the client that no SDK error is in the chain of. */
  predicate ShowsKind(r: ItemResult, pool: Pool, kind: Kind) {
    && r.pool == pool && r.metrics.None? && r.error.Some? && r.error.value.SDKError?
    && (kind == RateLimited ==> CodeText(r.error.value.code) == "rate_limited")
    && (kind == Timeout ==> CodeText(r.error.value.code) == "timeout")
    && (kind == RpcUnavailable ==> CodeText(r.error.value.code) == "rpc_unavailable")
  }

  lemma KindIsShown(pool: Pool, e: Error)
    requires OutermostSDKError(e).None? && OutermostClientError(e).Some?
    ensures ShowsKind(ItemResult(pool, None, Some(ToSDKError(e))), pool, OutermostClientError(e).value.kind)
  {
  }

  lemma PrimedInTheEnd<W>(job: Job<W>, steps: seq<Step<W>>, end: System, g: nat)
    requires Fit(job) && Reaches(job, Start(job), steps, end) && end.returned && g < |job.order|
    ensures Sized(job, end)
    ensures end.workers[g].failure.None? ==> forall a :: a in Addresses(job, g) ==> a in end.workers[g].cache
  {
    StartIsSafe(job);
    RunKeepsSafe(job, Start(job), steps, end);
    TokensAreWorkers(job, steps, end);
    assert CacheInv(job, end, g);
    if end.workers[g].failure.None? {
      forall a | a in Addresses(job, g)
        ensures a in end.workers[g].cache
      {
        assert a in PrimedAt(job, g);
      }
    }
  }

  lemma GroupOf<W>(job: Job<W>, i: nat) returns (g: nat, k: nat)
    requires Fit(job) && i < |job.pools|
    requires Belongs(job.s, job.pools[i], Route(job.pools[i].dex, job.pools[i].version))
    ensures g < |job.order| && job.order[g] == Route(job.pools[i].dex, job.pools[i].version)
    ensures k < |Indices(job, g)| && Indices(job, g)[k] == i && job.pools[i].address in Addresses(job, g)
  {
    g, k := Whereabouts(job, i);
    AddressIsGrouped(job.s, job.pools, job.order[g], i);
  }

  /**
   * When the call returns, every item of a group whose priming failed shows that one error of the client and no
   * metrics, under the code of its outermost ClientError where no coded error is in its chain.  Otherwise the item's
   * own address is cached.
   */
  lemma PrimingFailureShows<W(!new)>(job: Job<W>, steps: seq<Step<W>>, end: System, i: nat) returns (g: nat)
    requires Fit(job) && Reaches(job, Start(job), steps, end) && end.returned && i < |job.pools|
    requires Belongs(job.s, job.pools[i], Route(job.pools[i].dex, job.pools[i].version))
    ensures Sized(job, end) && g < |job.order| && job.order[g] == Route(job.pools[i].dex, job.pools[i].version)
    ensures match end.workers[g].failure
            case Some(e) =>
              && ClientSaid(job.inner, job.ctx, Addresses(job, g), e)
              && end.results[i] == ItemResult(job.pools[i], None, Some(ToSDKError(e)))
              && (OutermostSDKError(e).None? && OutermostClientError(e).Some? ==>
                    ShowsKind(end.results[i], job.pools[i], OutermostClientError(e).value.kind))
            case None => job.pools[i].address in end.workers[g].cache
  {
    var k;
    g, k := GroupOf(job, i);
    FailureIsTheClients(job, steps, end, g);
    GroupSettled(job, steps, end, g, k);
    PrimedInTheEnd(job, steps, end, g);
    if end.workers[g].failure.Some? && OutermostSDKError(end.workers[g].failure.value).None?
       && OutermostClientError(end.workers[g].failure.value).Some? {
      KindIsShown(job.pools[i], end.workers[g].failure.value);
    }
  }

  // ---- what an item can come to, over a client that may fail ----

  ghost predicate CouldMeet<W(!new)>(job: Job<W>, l: Ledger, plan: Plan, outcome: Result<Metrics, Error>) {
    match plan
    case Refuse(e) => outcome == Err(e)
    case Use(c, p) => MayMeet(DeskOf(job.inner, job.ctx, c), l, p, outcome)
  }

  ghost predicate Accounted<W(!new)>(job: Job<W>, l: Ledger, plan: Plan, pool: Pool, r: ItemResult) {
    exists outcome :: CouldMeet(job, l, plan, outcome) && r == FinalResult(pool, outcome)
  }

  ghost predicate ComputesHonestly<W(!new)>(job: Job<W>, l: Ledger, plans: seq<Plan>, phase: Phase) {
    phase.Computing? && phase.k < |plans| ==>
      match plans[phase.k]
      case Refuse(e) => phase.process == P.Concluded(Err(e))
      case Use(c, p) => Honest(DeskOf(job.inner, job.ctx, c), l, p, phase.process)
  }

  ghost predicate HonestInv<W(!new)>(job: Job<W>, l: Ledger, s: System, g: nat)
    requires Sized(job, s) && g < |job.order|
  {
    var me, n := s.workers[g], |Indices(job, g)|;
    && ComputesHonestly(job, l, Plans(job, g), me.phase)
    && (me.failure.None? ==> forall k | 0 <= k < n && k < Through(me.phase, n) ::
          Accounted(job, l, Plans(job, g)[k], Item(job, g, k), Slot(job, s, g, k)))
  }

  lemma TickHonest<W(!new)>(job: Job<W>, l: Ledger, s: System, g: nat, tick: P.Tick<W>)
    requires Enabled(job, s, Move(g, tick)) && InProcess(s.workers[g].phase, Plans(job, g))
    requires WorkerInv(job, s, g) && TrueInv(job, l, s, g)
    requires ComputesHonestly(job, l, Plans(job, g), s.workers[g].phase)
    ensures ComputesHonestly(job, l, Plans(job, g), Next(job, s, g, tick).phase)
  {
    var me, k := s.workers[g], s.workers[g].phase.k;
    var Use(c, p) := Plans(job, g)[k];
    AdvanceHonest(DeskOf(job.inner, job.ctx, c), l, p,
                  P.Run(me.phase.process, me.cache, me.stats, Indices(job, g)[k] in s.tainted), tick);
  }

  lemma NextHonest<W(!new)>(job: Job<W>, l: Ledger, s: System, g: nat, tick: P.Tick<W>)
    requires Enabled(job, s, Move(g, tick)) && WorkerInv(job, s, g) && TrueInv(job, l, s, g)
    requires ComputesHonestly(job, l, Plans(job, g), s.workers[g].phase)
    ensures ComputesHonestly(job, l, Plans(job, g), Next(job, s, g, tick).phase)
  {
    var me, plans := s.workers[g], Plans(job, g);
    if InProcess(me.phase, plans) {
      TickHonest(job, l, s, g, tick);
    } else {
      NextPlain(job, s, g, tick);
      if me.phase.Picking? && me.phase.k < |plans| && plans[me.phase.k].Use? {
        StartIsHonest(DeskOf(job.inner, job.ctx, plans[me.phase.k].calculator), l, plans[me.phase.k].calculation);
      }
    }
  }

  lemma MoveHonest<W(!new)>(job: Job<W>, l: Ledger, s: System, g: nat, tick: P.Tick<W>)
    requires Fit(job) && Enabled(job, s, Move(g, tick)) && WorkerInv(job, s, g) && SlotInv(job, s, g)
    requires TrueInv(job, l, s, g) && HonestInv(job, l, s, g)
    ensures Sized(job, Apply(job, s, Move(g, tick))) && HonestInv(job, l, Apply(job, s, Move(g, tick)), g)
  {
    var s', me, next, n := Apply(job, s, Move(g, tick)), s.workers[g], Next(job, s, g, tick), |Indices(job, g)|;
    MoveShape(job, s, g, tick);
    NextFailure(job, s, g, tick);
    NextHonest(job, l, s, g, tick);
    if next.failure.None? {
      forall k: nat | k < n && k < Through(next.phase, n)
        ensures Accounted(job, l, Plans(job, g)[k], Item(job, g, k), Slot(job, s', g, k))
      {
        OwnSlots(job, s, g, tick, k);
        if k == Through(me.phase, n) {
          assert CouldMeet(job, l, Plans(job, g)[k], me.phase.process.outcome);
        }
      }
    }
  }

  lemma OthersHonest<W(!new)>(job: Job<W>, l: Ledger, s: System, step: Step<W>, g: nat)
    requires Fit(job) && Enabled(job, s, step) && g < |job.order| && HonestInv(job, l, s, g)
    requires step.Move? ==> step.g != g
    requires WorkerInv(job, s, g) && (s.workers[g].phase.Waiting? <==> g >= s.launched)
    ensures Sized(job, Apply(job, s, step)) && HonestInv(job, l, Apply(job, s, step), g)
  {
    var s' := Apply(job, s, step);
    forall k: nat | k < |Indices(job, g)|
      ensures Slot(job, s', g, k) == Slot(job, s, g, k)
    {
      if step.Move? {
        OthersUntouched(job, s, step.g, step.tick, g, k);
      }
    }
    if step.Move? {
      MoveShape(job, s, step.g, step.tick);
    }
  }

  lemma StepHonest<W(!new)>(job: Job<W>, l: Ledger, s: System, step: Step<W>, g: nat)
    requires Fit(job) && TruthInv(job, l, s) && Enabled(job, s, step) && g < |job.order| && HonestInv(job, l, s, g)
    ensures Sized(job, Apply(job, s, step)) && HonestInv(job, l, Apply(job, s, step), g)
  {
    assert WorkerInv(job, s, g) && SlotInv(job, s, g) && TrueInv(job, l, s, g);
    if step.Move? && step.g == g {
      MoveHonest(job, l, s, g, step.tick);
    } else {
      OthersHonest(job, l, s, step, g);
    }
  }

  lemma {:induction false} RunHonest<W(!new)>(
    job: Job<W>, l: Ledger, s: System, steps: seq<Step<W>>, end: System, g: nat)
    requires Fit(job) && Wired(job.defaults, job.s) && Exact(job.inner, l) && TruthInv(job, l, s)
    requires Reaches(job, s, steps, end) && g < |job.order| && HonestInv(job, l, s, g)
    ensures Sized(job, end) && HonestInv(job, l, end, g)
    decreases |steps|
  {
    if steps != [] {
      var s1 := Apply(job, s, steps[0]);
      assert [steps[0]][1..] == [];
      RunKeepsTruth(job, l, s, [steps[0]], s1);
      StepHonest(job, l, s, steps[0], g);
      RunHonest(job, l, s1, steps[1..], end, g);
    }
  }

  /** The group's service and the service itself leave a pool the same outcomes. */
  lemma SamePlanMeets<W(!new)>(job: Job<W>, l: Ledger, p: Plan, q: Plan, outcome: Result<Metrics, Error>)
    requires SamePlan(p, q) && CouldMeet(job, l, q, outcome)
    ensures CouldMeet(job, l, p, outcome)
  {
    if p.Use? {
      SameMeets(DeskOf(job.inner, job.ctx, q.calculator), p.calculator.source, l, q.calculation, outcome);
    }
  }

  lemma EndIsHonest<W(!new)>(job: Job<W>, l: Ledger, steps: seq<Step<W>>, end: System, g: nat)
    requires Fit(job) && Wired(job.defaults, job.s) && Exact(job.inner, l)
    requires Reaches(job, Start(job), steps, end) && end.returned && g < |job.order|
    ensures Sized(job, end) && HonestInv(job, l, end, g) && end.workers[g].phase.Finished?
  {
    StartIsTrue(job, l);
    RunHonest(job, l, Start(job), steps, end, g);
    TokensAreWorkers(job, steps, end);
  }

  lemma AccountedAlike<W(!new)>(job: Job<W>, l: Ledger, g: nat, k: nat, r: ItemResult)
    requires Fit(job) && Wired(job.defaults, job.s) && g < |job.order| && k < |Indices(job, g)|
    requires Accounted(job, l, Plans(job, g)[k], Item(job, g, k), r)
    ensures Accounted(job, l, PlanFor(job.s, Item(job, g, k)), Item(job, g, k), r)
  {
    PlanIsFair(job, l, g, k);
    var outcome :| CouldMeet(job, l, Plans(job, g)[k], outcome) && r == FinalResult(Item(job, g, k), outcome);
    SamePlanMeets(job, l, PlanFor(job.s, Item(job, g, k)), Plans(job, g)[k], outcome);
  }

  lemma GroupAccounted<W(!new)>(job: Job<W>, l: Ledger, steps: seq<Step<W>>, end: System, g: nat, k: nat)
    requires Fit(job) && Wired(job.defaults, job.s) && Exact(job.inner, l)
    requires Reaches(job, Start(job), steps, end) && end.returned && g < |job.order| && k < |Indices(job, g)|
    ensures Sized(job, end)
    ensures end.workers[g].failure.None? ==>
              Accounted(job, l, PlanFor(job.s, Item(job, g, k)), Item(job, g, k), Slot(job, end, g, k))
  {
    EndIsHonest(job, l, steps, end, g);
    if end.workers[g].failure.None? {
      AccountedAlike(job, l, g, k, Slot(job, end, g, k));
    }
  }

  /**
   * Over an exact client that may fail at any call, on every schedule: a pool with a calculator shows the error its
   * group's priming had of the client, or what that calculator, run on that pool, concludes from the ledger's answers
   * and the client's own errors.
   */
  lemma EveryItemAccounted<W(!new)>(
    job: Job<W>, l: Ledger, steps: seq<Step<W>>, end: System, i: nat, c: Calculator)
    returns (outcome: Result<Metrics, Error>)
    requires Fit(job) && Wired(job.defaults, job.s) && Exact(job.inner, l)
    requires Reaches(job, Start(job), steps, end) && end.returned
    requires i < |job.pools| && Served(job.s, job.pools[i], c)
    ensures |end.results| == |job.pools| && end.results[i] == FinalResult(job.pools[i], outcome)
    ensures var route := Route(job.pools[i].dex, job.pools[i].version);
            || (outcome.Err? && ClientSaid(job.inner, job.ctx, RouteAddresses(job.s, job.pools, route), outcome.error))
            || MayMeet(DeskOf(job.inner, job.ctx, c), l, c.compute(job.pools[i]), outcome)
  {
    var pool := job.pools[i];
    ServedPlan(job.s, pool, c);
    var g, k := Whereabouts(job, i);
    GroupAccounted(job, l, steps, end, g, k);
    GroupSettled(job, steps, end, g, k);
    FailureIsTheClients(job, steps, end, g);
    if end.workers[g].failure.Some? {
      outcome := Err(end.workers[g].failure.value);
    } else {
      outcome :| CouldMeet(job, l, PlanFor(job.s, pool), outcome) && end.results[i] == FinalResult(pool, outcome);
    }
  }

  /** The same of GetMetricsByPool alone. */
  lemma AloneAccounted<W(!new)>(
    inner: Client<W>, l: Ledger, ctx: Context, s: Fields, pool: Pool, c: Calculator, cache: Cache,
    stats: PreloadStats, ticks: seq<P.Tick<W>>, end: P.Run, outcome: Result<Metrics, Error>, answered: bool)
    requires Exact(inner, l) && TableAgrees(l, cache) && Served(s, pool, c)
    requires Gives(inner, ctx, s, pool, cache, stats, ticks, end, outcome, answered)
    ensures MayMeet(DeskOf(inner, ctx, c), l, c.compute(pool), outcome)
  {
    ServedPlan(s, pool, c);
    RunIsHonest(DeskOf(inner, ctx, c), l, c.compute(pool), P.Run(P.START, cache, stats, false), ticks, end);
  }
}
