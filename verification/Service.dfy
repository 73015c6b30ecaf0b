/**
 * sdk/market/service.go and the single-item path of sdk/market/metrics_service.go: which calculator a pool gets, and
 * why a bulk group may compute with a service rebuilt around another client.
 */
module Service {
  import opened Basics
  import opened Errors
  import opened Rpc
  import opened Batching
  import opened Preload
  import opened Calculators
  import opened Calls
  import opened Calculations
  import opened Costs
  import opened Processes
  import opened Schedules

  datatype Pool = Pool(dex: string, version: string, address: Address)
  datatype Route = Route(dex: string, version: string)

  function RouteOf(pool: Pool): Route {
    Route(pool.dex, pool.version)
  }

  const DEX_PUMPFUN := "pumpfun"
  const BONDING_CURVE := "bonding_curve"

  type Compute = Pool -> Calculation

  /** A calculator built for a configuration: what it computes, and the client and supply provider it captured. */
  datatype Calculator = Calculator(compute: Compute, source: Source, provider: Provider)

  /** A factory may return a nil calculator. */
  datatype Factory = Factory(compute: Option<Compute>)

  datatype Config = Config(
    source: Source, provider: Provider, maxBulkConcurrency: int, bulkChunkSize: int,
    factories: map<Route, Option<Factory>>)

  type RouteTable = map<Route, Option<Calculator>>

  /** The fields of a *Service. */
  datatype Fields = Fields(cfg: Config, calculators: RouteTable)

  function Build(factory: Factory, cfg: Config): Option<Calculator> {
    if factory.compute.Some? then Some(Calculator(factory.compute.value, cfg.source, cfg.provider)) else None
  }

  // ---- NewService ----

  /** The calculator NewService registers for a route: the custom factory's if there is one, else the default's. */
  function Registered(defaults: map<Route, Compute>, cfg: Config, route: Route): Option<Option<Calculator>> {
    if route in cfg.factories && cfg.factories[route].Some? then Some(Build(cfg.factories[route].value, cfg))
    else if route in defaults then Some(Some(Calculator(defaults[route], cfg.source, cfg.provider)))
    else None
  }

  function NewCalculators(defaults: map<Route, Compute>, cfg: Config): RouteTable {
    map route | route in defaults.Keys + cfg.factories.Keys && Registered(defaults, cfg, route).Some? ::
      Registered(defaults, cfg, route).value
  }

  function NewFields(defaults: map<Route, Compute>, cfg: Config): Fields {
    Fields(cfg, NewCalculators(defaults, cfg))
  }

  /**
   * What a route is registered with: the calculator its custom factory makes, which may be none; without a factory, or
   * with a nil one, the built-in calculator; and otherwise nothing.  All of them take client and supply provider from
   * the configuration.
   */
  lemma CustomFactoriesWin(defaults: map<Route, Compute>, cfg: Config, route: Route)
    ensures var table := NewCalculators(defaults, cfg);
            var custom := if route in cfg.factories then cfg.factories[route] else None;
            && (custom.Some? ==>
                  route in table && match custom.value.compute
                                    case Some(compute) =>
                                      table[route] == Some(Calculator(compute, cfg.source, cfg.provider))
                                    case None => table[route].None?)
            && (custom.None? && route in defaults ==>
                  route in table && table[route] == Some(Calculator(defaults[route], cfg.source, cfg.provider)))
            && (custom.None? && route !in defaults ==> route !in table)
  {
  }

  class MarketService {
    const cfg: Config
    var calculators: RouteTable

    /** NewService: both maps are walked in whatever order the runtime picks. */
    constructor (defaults: map<Route, Compute>, config: Config)
      ensures cfg == config
      ensures calculators == NewCalculators(defaults, config)
    {
      cfg := config;
      calculators := map[];
      new;
      var todo := defaults.Keys;
      while todo != {}
        invariant todo <= defaults.Keys
        invariant calculators.Keys == defaults.Keys - todo
        invariant forall r :: r in calculators ==>
                    calculators[r] == Some(Calculator(defaults[r], cfg.source, cfg.provider))
        decreases todo
      {
        var route :| route in todo;
        calculators := calculators[route := Some(Calculator(defaults[route], cfg.source, cfg.provider))];
        todo := todo - {route};
      }
      todo := cfg.factories.Keys;
      while todo != {}
        invariant todo <= cfg.factories.Keys
        invariant forall r :: r in calculators <==>
                    r in defaults || (r in cfg.factories.Keys - todo && cfg.factories[r].Some?)
        invariant forall r :: r in calculators ==>
                    calculators[r] == if r in cfg.factories.Keys - todo && cfg.factories[r].Some?
                                      then Build(cfg.factories[r].value, cfg)
                                      else Some(Calculator(defaults[r], cfg.source, cfg.provider))
        decreases todo
      {
        var route :| route in todo;
        var factory := cfg.factories[route];
        if factory.Some? {
          calculators := calculators[route := Build(factory.value, cfg)];
        }
        todo := todo - {route};
      }
      assert calculators == NewCalculators(defaults, cfg);
    }
  }

  /** withRPCClient(preloaded): a default supply provider follows the client, as every DefaultProvider does here. */
  function WithPreloadedClient(defaults: map<Route, Compute>, s: Fields): Fields {
    NewFields(defaults, s.cfg.(source := Preloaded))
  }

  predicate CanRebuildRoute(defaults: map<Route, Compute>, s: Fields, route: Route) {
    route in s.cfg.factories || route in defaults
  }

  // ---- GetMetricsByPool ----

  function ArgumentError(message: string): Error {
    SDKError(InvalidArgument, message, None)
  }

  /** What validateMetricsRequest, or the refusal of bonding-curve pools both paths share, holds against a pool. */
  datatype Objection = NoDex | NoVersion | NoAddress | NeedsMint

  function ObjectionTo(pool: Pool): Option<Objection> {
    if pool.dex == "" then Some(NoDex)
    else if pool.version == "" then Some(NoVersion)
    else if pool.address.IsZero() then Some(NoAddress)
    else if pool.dex == DEX_PUMPFUN && pool.version == BONDING_CURVE then Some(NeedsMint)
    else None
  }

  function ObjectionText(objection: Objection): string {
    match objection
    case NoDex => "pool dex is required"
    case NoVersion => "pool version is required"
    case NoAddress => "pool address is required"
    case NeedsMint =>
      "pumpfun bonding_curve requires GetMetricsByPumpfunBondingCurve (mint-based) instead of GetMetricsByPool"
  }

  function EntryError(pool: Pool): Option<Error> {
    match ObjectionTo(pool)
    case None => None
    case Some(objection) => Some(ArgumentError(ObjectionText(objection)))
  }

  function UnsupportedRouteError(pool: Pool): Error {
    SDKError(UnsupportedRoute, "unsupported pool route: " + pool.dex + "/" + pool.version, None)
  }

  /** What GetMetricsByPool sets out to do with a pool. */
  datatype Plan = Refuse(error: Error) | Use(calculator: Calculator, calculation: Calculation)

  function PlanFor(s: Fields, pool: Pool): Plan {
    if EntryError(pool).Some? then Refuse(EntryError(pool).value)
    else if RouteOf(pool) !in s.calculators || s.calculators[RouteOf(pool)].None? then
      Refuse(UnsupportedRouteError(pool))
    else
      var c := s.calculators[RouteOf(pool)].value;
      Use(c, c.compute(pool))
  }

  function DeskOf<W>(inner: Client<W>, ctx: Context, c: Calculator): Desk<W> {
    Desk(inner, ctx, c.source, c.provider)
  }

  /** One run of GetMetricsByPool: how its branches interleave, its outcome, and whether its reads were answered. */
  ghost predicate Gives<W>(
    inner: Client<W>, ctx: Context, s: Fields, pool: Pool, cache: Cache, stats: PreloadStats,
    ticks: seq<Tick<W>>, end: Run, outcome: Result<Metrics, Error>, answered: bool)
  {
    match PlanFor(s, pool)
    case Refuse(e) => outcome == Err(e) && answered
    case Use(c, p) =>
      && Reaches(DeskOf(inner, ctx, c), p, Run(START, cache, stats, false), ticks, end)
      && end.process == Concluded(outcome) && answered == !end.faulted
  }

  /** What a pool can come to on a ledger; a calculator whose branches both fail may show either error. */
  ghost predicate MayCome(l: Ledger, plan: Plan, outcome: Result<Metrics, Error>) {
    match plan
    case Refuse(e) => outcome == Err(e)
    case Use(c, p) => May(l, c.provider, p, outcome)
  }

  ghost predicate PlanDecided(l: Ledger, plan: Plan) {
    plan.Use? ==> Decided(l, plan.calculator.provider, plan.calculation)
  }

  ghost predicate PlanSteady(l: Ledger, plan: Plan, known: set<Address>) {
    plan.Use? ==> Steady(l, plan.calculator.source, plan.calculator.provider, plan.calculation, known)
  }

  function PlanValue(l: Ledger, plan: Plan): Result<Metrics, Error> {
    match plan
    case Refuse(e) => Err(e)
    case Use(c, p) => Value(l, c.provider, p)
  }

  /** A pool's metrics or error on a ledger, the first branch's error where branches fail. */
  function Expected(l: Ledger, s: Fields, pool: Pool): Result<Metrics, Error> {
    PlanValue(l, PlanFor(s, pool))
  }

  lemma PlanComesTo(l: Ledger, plan: Plan, outcome: Result<Metrics, Error>)
    requires PlanDecided(l, plan)
    ensures MayCome(l, plan, outcome) <==> outcome == PlanValue(l, plan)
  {
    if plan.Use? {
      DecidedValue(l, plan.calculator.provider, plan.calculation, outcome);
    }
  }

  /** Alone, a pool comes to something the ledger allows unless one of its reads went unanswered. */
  lemma SingleIsExpected<W(!new)>(
    inner: Client<W>, l: Ledger, ctx: Context, s: Fields, pool: Pool, cache: Cache, stats: PreloadStats,
    ticks: seq<Tick<W>>, end: Run, outcome: Result<Metrics, Error>)
    requires Exact(inner, l) && TableAgrees(l, cache)
    requires Gives(inner, ctx, s, pool, cache, stats, ticks, end, outcome, true)
    ensures MayCome(l, PlanFor(s, pool), outcome)
    ensures PlanDecided(l, PlanFor(s, pool)) ==> outcome == Expected(l, s, pool)
  {
    match PlanFor(s, pool)
    case Refuse(_) =>
    case Use(c, p) =>
      RunIsTrue(DeskOf(inner, ctx, c), l, p, Run(START, cache, stats, false), ticks, end);
      if PlanDecided(l, PlanFor(s, pool)) {
        PlanComesTo(l, PlanFor(s, pool), outcome);
      }
  }

  /** Over a client that never fails, what a pool comes to alone is exactly what the ledger allows. */
  lemma SingleExactly<W(!new)>(
    inner: Client<W>, l: Ledger, ctx: Context, s: Fields, pool: Pool, cache: Cache, stats: PreloadStats,
    outcome: Result<Metrics, Error>, w: W)
    requires Exact(inner, l) && NeverFails(inner, ctx) && TableAgrees(l, cache)
    ensures MayCome(l, PlanFor(s, pool), outcome) <==>
            exists ticks, end :: Gives(inner, ctx, s, pool, cache, stats, ticks, end, outcome, true)
  {
    var run := Run(START, cache, stats, false);
    match PlanFor(s, pool)
    case Refuse(e) =>
      if outcome == Err(e) {
        assert Gives(inner, ctx, s, pool, cache, stats, [], run, outcome, true);
      }
    case Use(c, p) =>
      OutcomesExactly(DeskOf(inner, ctx, c), l, p, cache, stats, outcome, w);
      if MayCome(l, PlanFor(s, pool), outcome) {
        var ticks, end :| EndsIn(DeskOf(inner, ctx, c), p, run, ticks, end, outcome);
        assert Gives(inner, ctx, s, pool, cache, stats, ticks, end, outcome, true);
      }
      forall ticks, end | Gives(inner, ctx, s, pool, cache, stats, ticks, end, outcome, true)
        ensures MayCome(l, PlanFor(s, pool), outcome)
      {
        assert EndsIn(DeskOf(inner, ctx, c), p, run, ticks, end, outcome);
      }
  }

  // ---- rebuilding around the preloaded client changes nothing but the client ----

  /**
   * A service on the direct client whose calculators are, on every route a rebuild covers, those the rebuild makes
   * again: whatever NewService returns, and that with calculators registered by hand on other routes.
   */
  ghost predicate Wired(defaults: map<Route, Compute>, s: Fields) {
    && s.cfg.source == Direct
    && (forall r :: r in s.calculators && CanRebuildRoute(defaults, s, r) ==>
          r in NewCalculators(defaults, s.cfg) && s.calculators[r] == NewCalculators(defaults, s.cfg)[r])
    && (forall r :: r in s.calculators && s.calculators[r].Some? && !CanRebuildRoute(defaults, s, r) ==>
          s.calculators[r].value.source == Direct)
  }

  /** Every service NewService builds on the direct client is wired, nil factories and nil calculators included. */
  lemma NewServiceIsWired(defaults: map<Route, Compute>, cfg: Config, extra: RouteTable)
    requires cfg.source == Direct
    requires forall r :: r in extra ==> r !in cfg.factories && r !in defaults
    requires forall r :: r in extra && extra[r].Some? ==> extra[r].value.source == Direct
    ensures Wired(defaults, NewFields(defaults, cfg))
    ensures Wired(defaults, Fields(cfg, NewCalculators(defaults, cfg) + extra))
  {
  }

  /** The service a bulk group computes its items with. */
  function GroupService(defaults: map<Route, Compute>, s: Fields, route: Route): Fields {
    if CanRebuildRoute(defaults, s, route) then WithPreloadedClient(defaults, s) else s
  }

  /** The same refusal, or the same calculation with the same provider. */
  ghost predicate SamePlan(p: Plan, q: Plan) {
    match (p, q)
    case (Refuse(e), Refuse(f)) => e == f
    case (Use(c, x), Use(d, y)) => x == y && c.provider == d.provider
    case _ => false
  }

  /**
   * Every route the bulk path groups has an entry in the service that computes it, and a pool meets the same plan
   * there as in the service itself: only the client differs.
   */
  lemma GroupServiceAgrees(defaults: map<Route, Compute>, s: Fields, pool: Pool)
    requires Wired(defaults, s) && RouteOf(pool) in s.calculators
    ensures var g := GroupService(defaults, s, RouteOf(pool));
            && RouteOf(pool) in g.calculators
            && (s.calculators[RouteOf(pool)].Some? <==> g.calculators[RouteOf(pool)].Some?)
            && SamePlan(PlanFor(s, pool), PlanFor(g, pool))
            && (PlanFor(g, pool).Use? ==>
                  PlanFor(g, pool).calculator.source
                  == if CanRebuildRoute(defaults, s, RouteOf(pool)) then Preloaded else Direct)
  {
  }

  lemma SamePlanComesTo(l: Ledger, p: Plan, q: Plan)
    requires SamePlan(p, q)
    ensures forall outcome :: MayCome(l, p, outcome) <==> MayCome(l, q, outcome)
    ensures PlanValue(l, p) == PlanValue(l, q)
    ensures PlanDecided(l, p) <==> PlanDecided(l, q)
  {
  }

  /**
   * A calculator registered by hand serves its route alone.  In bulk the route is refused exactly when the rebuilt
   * service covers it without giving it a calculator: a custom factory that returns nil, or a nil factory on a route
   * without a default.  NewService by itself registers no such calculator, so it never gets there.
   */
  lemma RefusedInBulkExactly(defaults: map<Route, Compute>, cfg: Config, extra: RouteTable, pool: Pool)
    requires EntryError(pool).None? && RouteOf(pool) in extra && extra[RouteOf(pool)].Some?
    ensures var s, route := Fields(cfg, NewCalculators(defaults, cfg) + extra), RouteOf(pool);
            && PlanFor(s, pool).Use?
            && (PlanFor(GroupService(defaults, s, route), pool).Refuse? <==>
                  route in cfg.factories &&
                  match cfg.factories[route]
                  case Some(factory) => factory.compute.None?
                  case None => route !in defaults)
  {
  }

  /** It happens, with a nil factory. */
  lemma NilFactoryBreaksBulk(defaults: map<Route, Compute>, c: Calculator, pool: Pool) returns (s: Fields)
    requires RouteOf(pool) !in defaults && EntryError(pool).None?
    ensures RouteOf(pool) in s.calculators && PlanFor(s, pool).Use?
    ensures PlanFor(GroupService(defaults, s, RouteOf(pool)), pool) == Refuse(UnsupportedRouteError(pool))
  {
    var cfg := Config(Direct, DefaultProvider, 8, 100, map[RouteOf(pool) := None]);
    s := Fields(cfg, map[RouteOf(pool) := Some(c)]);
  }

  // ---- resolveBulkExecution ----

  function ResolveBulkExecution(cfg: Config, maxConcurrency: int, chunkSize: int, totalItems: nat, ctx: Context)
    : (int, Context)
  {
    var asked := if maxConcurrency <= 0 then cfg.maxBulkConcurrency else maxConcurrency;
    var positive := if asked <= 0 then 1 else asked;
    var chunk := if chunkSize <= 0 then cfg.bulkChunkSize else chunkSize;
    (if positive > totalItems then totalItems else positive,
     if chunk > 0 then ctx.(chunkSize := Some(chunk)) else ctx)
  }

  /** With work to do there is at least one worker, never more than items, nor than a positive cap asked for. */
  lemma ConcurrencyRange(cfg: Config, maxConcurrency: int, chunkSize: int, totalItems: nat, ctx: Context)
    requires totalItems > 0
    ensures var (limit, itemCtx) := ResolveBulkExecution(cfg, maxConcurrency, chunkSize, totalItems, ctx);
            && 1 <= limit <= totalItems
            && (maxConcurrency > 0 ==> limit <= maxConcurrency)
            && (chunkSize > 0 ==> ChunkSize(cfg.bulkChunkSize, itemCtx) == chunkSize)
            && (chunkSize <= 0 && cfg.bulkChunkSize > 0 ==> ChunkSize(cfg.bulkChunkSize, itemCtx) == cfg.bulkChunkSize)
  {
  }

  /** What a bulk call runs with: the caller's numbers where they are positive, else the service's, else one or none. */
  lemma BulkNumbers(cfg: Config, maxConcurrency: int, chunkSize: int, totalItems: nat, ctx: Context)
    ensures var (limit, itemCtx) := ResolveBulkExecution(cfg, maxConcurrency, chunkSize, totalItems, ctx);
            && (maxConcurrency > 0 ==> limit == if maxConcurrency < totalItems then maxConcurrency else totalItems)
            && (maxConcurrency <= 0 && cfg.maxBulkConcurrency > 0 ==>
                  limit == if cfg.maxBulkConcurrency < totalItems then cfg.maxBulkConcurrency else totalItems)
            && (maxConcurrency <= 0 && cfg.maxBulkConcurrency <= 0 ==> limit == if totalItems == 0 then 0 else 1)
            && itemCtx.timeouts == ctx.timeouts
            && (chunkSize > 0 ==> itemCtx.chunkSize == Some(chunkSize))
            && (chunkSize <= 0 && cfg.bulkChunkSize > 0 ==> itemCtx.chunkSize == Some(cfg.bulkChunkSize))
            && (chunkSize <= 0 && cfg.bulkChunkSize <= 0 ==> itemCtx == ctx)
  {
  }
}
