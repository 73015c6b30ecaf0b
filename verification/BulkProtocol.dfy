/**
 * The goroutines of GetMetricsByPools (sdk/market/metrics_service.go): one worker per route group behind a semaphore,
 * each with a preload cache of its own, all writing into shared results and totals, and each computing its items with
 * calculators that may fork goroutines of their own.
 *
 * One step is one access to something shared, or one reply of the RPC client.  The launch order of the groups and the
 * interleaving of steps are arbitrary.  No world is threaded through the system: every call of the client may find the
 * backend in any world, whatever the other goroutines, or anyone else, did to it since.
 */
module BulkProtocol {
  import opened Basics
  import opened Errors
  import opened Rpc
  import opened Batching
  import opened Preload
  import opened Calculators
  import opened Calls
  import opened Costs
  import opened Service
  import opened Bulk
  import P = Processes

  /** order: the groups in the order the map iteration happened to deliver; limit: the capacity of the semaphore. */
  datatype Job<!W> = Job(
    inner: Client<W>, ctx: Context, defaults: map<Route, Compute>, s: Fields, pools: seq<Pool>,
    order: seq<Route>, limit: int)

  datatype Phase =
    | Waiting                                    // not launched yet
    | Priming(call: Call)
    | Failing(k: nat)                            // hands the priming error to item k of its group
    | Picking(k: nat)                            // about to compute item k of its group
    | Computing(k: nat, process: P.Process)      // computing item k, or about to write what that came to
    | Totalling
    | Releasing                                  // the deferred receive from the semaphore
    | Signalling                                 // the deferred wg.Done
    | Finished

  /** failure: what PrimeAccounts returned, once it failed. */
  datatype Worker = Worker(phase: Phase, cache: Cache, stats: PreloadStats, failure: Option<Error>)

  /**
   * announced: wg.Add ran for a group that does not hold a token yet; pending: the wait group's counter.  tainted only
   * records history: the items a read of whose calculator the RPC client left unanswered.
   */
  datatype System = System(
    results: seq<ItemResult>, workers: seq<Worker>, launched: nat, announced: bool, tokens: int, pending: int,
    total: PreloadStats, tainted: set<nat>, returned: bool)

  datatype Step<W> = Announce | Launch | Move(g: nat, tick: P.Tick<W>) | Return

  ghost predicate IsOrder(order: seq<Route>, routes: set<Route>) {
    Distinct(order) && forall r :: r in order <==> r in routes
  }

  /** The call up to its first goroutine. */
  function NewJob<W>(
    inner: Client<W>, ctx: Context, defaults: map<Route, Compute>, s: Fields, pools: seq<Pool>,
    maxConcurrency: int, chunkSize: int, order: seq<Route>): Job<W>
  {
    var (limit, itemCtx) := ResolveBulkExecution(s.cfg, maxConcurrency, chunkSize, |pools|, ctx);
    Job(inner, itemCtx, defaults, s, pools, order, if limit > |order| then |order| else limit)
  }

  ghost predicate Fit<W>(job: Job<W>) {
    && IsOrder(job.order, GroupRoutes(job.s, job.pools, |job.pools|))
    && (job.order != [] ==> 1 <= job.limit <= |job.order|)
  }

  /** Whatever the caller asks for, the semaphore has at least one token and no more than there are groups. */
  lemma NewJobIsFit<W>(
    inner: Client<W>, ctx: Context, defaults: map<Route, Compute>, s: Fields, pools: seq<Pool>,
    maxConcurrency: int, chunkSize: int, order: seq<Route>)
    requires IsOrder(order, GroupRoutes(s, pools, |pools|))
    ensures var job := NewJob(inner, ctx, defaults, s, pools, maxConcurrency, chunkSize, order);
            Fit(job) && (maxConcurrency > 0 ==> job.limit <= maxConcurrency)
  {
    if order != [] {
      assert order[0] in GroupRoutes(s, pools, |pools|);
      ConcurrencyRange(s.cfg, maxConcurrency, chunkSize, |pools|, ctx);
    }
  }

  function Start<W>(job: Job<W>): System {
    System(FirstResults(job.s, job.pools), seq(|job.order|, _ => Worker(Waiting, map[], NO_STATS, None)),
           0, false, 0, 0, NO_STATS, {}, false)
  }

  // ---- a group's items ----

  function Indices<W>(job: Job<W>, g: nat): (r: seq<nat>)
    requires g < |job.order|
    ensures forall k | 0 <= k < |r| :: r[k] < |job.pools|
  {
    GroupIndicesInRange(job.s, job.pools, job.order[g], |job.pools|);
    GroupIndices(job.s, job.pools, job.order[g], |job.pools|)
  }

  function Item<W>(job: Job<W>, g: nat, k: nat): Pool
    requires g < |job.order| && k < |Indices(job, g)|
  {
    job.pools[Indices(job, g)[k]]
  }

  function RouteAddresses(s: Fields, pools: seq<Pool>, route: Route): seq<Address> {
    GroupIndicesInRange(s, pools, route, |pools|);
    var ix := GroupIndices(s, pools, route, |pools|);
    seq(|ix|, k requires 0 <= k < |ix| => pools[ix[k]].address)
  }

  function Addresses<W>(job: Job<W>, g: nat): seq<Address>
    requires g < |job.order|
  {
    RouteAddresses(job.s, job.pools, job.order[g])
  }

  /** What priming leaves in the cache of a route's group. */
  function Primed(s: Fields, pools: seq<Pool>, route: Route): set<Address> {
    set a | a in RouteAddresses(s, pools, route)
  }

  /** What the items of a route's group are in for. */
  function RoutePlans(defaults: map<Route, Compute>, s: Fields, pools: seq<Pool>, route: Route): seq<Plan> {
    GroupIndicesInRange(s, pools, route, |pools|);
    var ix := GroupIndices(s, pools, route, |pools|);
    seq(|ix|, k requires 0 <= k < |ix| => PlanFor(GroupService(defaults, s, route), pools[ix[k]]))
  }

  function Plans<W>(job: Job<W>, g: nat): seq<Plan>
    requires g < |job.order|
  {
    RoutePlans(job.defaults, job.s, job.pools, job.order[g])
  }

  // ---- steps ----

  /** PrimeAccounts reads through the group's preloaded client without being counted. */
  function PrimeDesk<W>(job: Job<W>): Desk<W> {
    Desk(job.inner, job.ctx, Preloaded, DefaultProvider)
  }

  function PrimeRead<W>(job: Job<W>, g: nat): Read
    requires g < |job.order|
  {
    AccountsRead(Addresses(job, g))
  }

  predicate Sized<W>(job: Job<W>, s: System) {
    |s.workers| == |job.order| && |s.results| == |job.pools| && s.launched <= |job.order|
  }

  /** The item a worker is computing, if it still is. */
  predicate InProcess(phase: Phase, plans: seq<Plan>) {
    phase.Computing? && phase.k < |plans| && plans[phase.k].Use? && !phase.process.Concluded?
  }

  predicate Enabled<W>(job: Job<W>, s: System, step: Step<W>) {
    Sized(job, s) && !s.returned &&
    match step
    case Announce => s.launched < |job.order| && !s.announced
    case Launch => s.launched < |job.order| && s.announced && s.tokens < job.limit
    case Move(g, tick) =>
      && g < |job.order| && !s.workers[g].phase.Waiting? && !s.workers[g].phase.Finished?
      && if InProcess(s.workers[g].phase, Plans(job, g)) then P.CanTick(s.workers[g].phase.process, tick) else tick.Go?
    case Return => s.launched == |job.order| && s.pending == 0
  }

  function Apply<W>(job: Job<W>, s: System, step: Step<W>): System
    requires Enabled(job, s, step)
  {
    match step
    case Announce => s.(announced := true, pending := s.pending + 1)
    case Launch =>
      var call := Begin(Preloaded, PrimeRead(job, s.launched));
      s.(announced := false, tokens := s.tokens + 1, launched := s.launched + 1,
         workers := s.workers[s.launched := s.workers[s.launched].(phase := Priming(call))])
    case Move(g, tick) =>
      var s' := Touch(job, s, g, tick);
      s'.(workers := s.workers[g := Next(job, s, g, tick)])
    case Return => s.(returned := true)
  }

  /** The calculation of the item in hand, one tick on. */
  function Ticked<W>(job: Job<W>, s: System, g: nat, tick: P.Tick<W>): P.Run
    requires Enabled(job, s, Move(g, tick)) && InProcess(s.workers[g].phase, Plans(job, g))
  {
    var me := s.workers[g];
    var k := me.phase.k;
    var Use(c, p) := Plans(job, g)[k];
    P.Advance(DeskOf(job.inner, job.ctx, c), p,
              P.Run(me.phase.process, me.cache, me.stats, Indices(job, g)[k] in s.tainted), tick)
  }

  /** What a worker's step does to its own variables. */
  function Next<W>(job: Job<W>, s: System, g: nat, tick: P.Tick<W>): Worker
    requires Enabled(job, s, Move(g, tick))
  {
    var me, plans := s.workers[g], Plans(job, g);
    match me.phase
    case Priming(call) =>
      if call.Answered? then
        (match call.answer
         case AccountsAnswer(Err(e)) => Worker(Failing(0), me.cache, me.stats, Some(e))
         case _ => me.(phase := Picking(0)))
      else
        me.(phase := Priming(Proceed(PrimeDesk(job), PrimeRead(job, g), call, tick.w, None, me.cache)),
            cache := Filled(PrimeDesk(job), call, tick.w, None, me.cache))
    case Failing(k) => me.(phase := if k < |plans| then Failing(k + 1) else Totalling)
    case Picking(k) =>
      if k >= |plans| then me.(phase := Totalling)
      else
        (match plans[k]
         case Refuse(e) => me.(phase := Computing(k, P.Concluded(Err(e))))
         case Use(_, _) => me.(phase := Computing(k, P.START)))
    case Computing(k, process) =>
      if InProcess(me.phase, plans) then
        var run := Ticked(job, s, g, tick);
        me.(phase := Computing(k, run.process), cache := run.cache, stats := run.stats)
      else me.(phase := Picking(k + 1))
    case Totalling => me.(phase := Releasing)
    case Releasing => me.(phase := Signalling)
    case Signalling => me.(phase := Finished)
  }

  function WithOutcome(r: ItemResult, outcome: Result<Metrics, Error>): ItemResult {
    match outcome
    case Err(e) => r.(error := Some(ToSDKError(e)))
    case Ok(m) => r.(metrics := Some(m))
  }

  /** The one slot a worker's step may fill, and with what. */
  function Fills(me: Worker, plans: seq<Plan>): Option<(nat, Result<Metrics, Error>)> {
    match me.phase
    case Failing(k) => if k < |plans| && me.failure.Some? then Some((k, Err(me.failure.value))) else None
    case Computing(k, process) => if k < |plans| && process.Concluded? then Some((k, process.outcome)) else None
    case _ => None
  }

  /** What it does to the variables it shares with the others. */
  function Touch<W>(job: Job<W>, s: System, g: nat, tick: P.Tick<W>): System
    requires Enabled(job, s, Move(g, tick))
  {
    var me, ix := s.workers[g], Indices(job, g);
    var fills := Fills(me, Plans(job, g));
    if fills.Some? then
      var (k, outcome) := fills.value;
      s.(results := s.results[ix[k] := WithOutcome(s.results[ix[k]], outcome)])
    else if InProcess(me.phase, Plans(job, g)) then
      s.(tainted := if Ticked(job, s, g, tick).faulted then s.tainted + {ix[me.phase.k]} else s.tainted)
    else
      match me.phase
      case Totalling => s.(total := Plus(s.total, me.stats))
      case Releasing => s.(tokens := s.tokens - 1)
      case Signalling => s.(pending := s.pending - 1)
      case _ => s
  }

  function Plus(a: PreloadStats, b: PreloadStats): PreloadStats {
    PreloadStats(a.getAccountCalls + b.getAccountCalls, a.getMultipleAccountsCalls + b.getMultipleAccountsCalls,
                 a.totalAccountsRequested + b.totalAccountsRequested)
  }

  ghost predicate Reaches<W>(job: Job<W>, s: System, steps: seq<Step<W>>, s': System)
    decreases |steps|
  {
    if steps == [] then s == s'
    else Enabled(job, s, steps[0]) && Reaches(job, Apply(job, s, steps[0]), steps[1..], s')
  }

  // ---- sums over workers ----

  function Sum(f: (nat, Worker) -> int, workers: seq<Worker>): int {
    if workers == [] then 0
    else Sum(f, workers[..|workers| - 1]) + f(|workers| - 1, workers[|workers| - 1])
  }

  lemma {:induction false} SumAfter(f: (nat, Worker) -> int, workers: seq<Worker>, g: nat, worker: Worker)
    requires g < |workers|
    ensures Sum(f, workers[g := worker]) == Sum(f, workers) - f(g, workers[g]) + f(g, worker)
  {
    var n, after := |workers| - 1, workers[g := worker];
    if g < n {
      assert after[..n] == workers[..n][g := worker];
      SumAfter(f, workers[..n], g, worker);
    } else {
      assert after[..n] == workers[..n];
    }
  }

  lemma {:induction false} SumOfZeros(f: (nat, Worker) -> int, workers: seq<Worker>)
    requires forall g: nat | g < |workers| :: f(g, workers[g]) == 0
    ensures Sum(f, workers) == 0
  {
    if workers != [] {
      SumOfZeros(f, workers[..|workers| - 1]);
    }
  }

  lemma {:induction false} SumZeroMeans(f: (nat, Worker) -> int, workers: seq<Worker>)
    requires forall g: nat | g < |workers| :: f(g, workers[g]) >= 0
    ensures Sum(f, workers) >= 0
    ensures Sum(f, workers) == 0 ==> forall g: nat | g < |workers| :: f(g, workers[g]) == 0
  {
    if workers != [] {
      var n := |workers| - 1;
      forall g: nat | g < n
        ensures f(g, workers[..n][g]) >= 0
      {
        assert workers[..n][g] == workers[g];
      }
      SumZeroMeans(f, workers[..n]);
      if Sum(f, workers) == 0 {
        forall g: nat | g < |workers|
          ensures f(g, workers[g]) == 0
        {
          if g < n {
            assert workers[..n][g] == workers[g];
          }
        }
      }
    }
  }

  // ---- the shape of a worker, over any client ----

  /** How many items of its group a worker is through with. */
  function Through(phase: Phase, n: nat): nat {
    match phase
    case Waiting => 0
    case Priming(_) => 0
    case Failing(k) => k
    case Picking(k) => k
    case Computing(k, _) => k
    case _ => n
  }

  ghost predicate PhaseInv(phase: Phase, failed: bool, plans: seq<Plan>, prime: Read) {
    Through(phase, |plans|) <= |plans| &&
    match phase
    case Waiting => !failed
    case Priming(call) => !failed && P.CallFits(prime, call)
    case Failing(_) => failed
    case Picking(_) => !failed
    case Computing(k, process) =>
      && !failed && k < |plans|
      && (match plans[k]
          case Refuse(_) => process.Concluded?
          case Use(_, c) => P.Shape(c, process))
    case _ => true
  }

  ghost predicate WorkerInv<W>(job: Job<W>, s: System, g: nat)
    requires Sized(job, s) && g < |job.order|
  {
    PhaseInv(s.workers[g].phase, s.workers[g].failure.Some?, Plans(job, g), PrimeRead(job, g))
  }

  lemma TickKeepsInv<W>(job: Job<W>, s: System, g: nat, tick: P.Tick<W>)
    requires Enabled(job, s, Move(g, tick)) && WorkerInv(job, s, g) && InProcess(s.workers[g].phase, Plans(job, g))
    ensures P.Shape(Plans(job, g)[s.workers[g].phase.k].calculation, Ticked(job, s, g, tick).process)
  {
    var me, k := s.workers[g], s.workers[g].phase.k;
    var Use(c, p) := Plans(job, g)[k];
    P.AdvanceShape(DeskOf(job.inner, job.ctx, c), p,
                   P.Run(me.phase.process, me.cache, me.stats, Indices(job, g)[k] in s.tainted), tick);
  }

  lemma NextKeepsInv<W>(job: Job<W>, s: System, g: nat, tick: P.Tick<W>)
    requires Enabled(job, s, Move(g, tick)) && WorkerInv(job, s, g)
    ensures var next := Next(job, s, g, tick);
            PhaseInv(next.phase, next.failure.Some?, Plans(job, g), PrimeRead(job, g))
  {
    var me, plans := s.workers[g], Plans(job, g);
    if me.phase.Priming? && !me.phase.call.Answered? {
      P.ProceedFits(PrimeDesk(job), PrimeRead(job, g), me.phase.call, tick.w, None, me.cache);
    } else if InProcess(me.phase, plans) {
      TickKeepsInv(job, s, g, tick);
    }
  }

  // ---- tokens and the wait group ----

  predicate Running(phase: Phase) {
    !phase.Waiting? && !phase.Signalling? && !phase.Finished?
  }

  function Holds(g: nat, worker: Worker): int {
    if Running(worker.phase) then 1 else 0
  }

  function Lives(g: nat, worker: Worker): int {
    if worker.phase.Waiting? || worker.phase.Finished? then 0 else 1
  }

  ghost predicate Balanced<W>(job: Job<W>, s: System) {
    && Sized(job, s)
    && s.tokens == Sum(Holds, s.workers) && 0 <= s.tokens
    && (job.order != [] ==> s.tokens <= job.limit)
    && s.pending == Sum(Lives, s.workers) + (if s.announced then 1 else 0)
    && (s.announced ==> s.launched < |job.order|)
    && (forall g | 0 <= g < |job.order| :: s.workers[g].phase.Waiting? <==> g >= s.launched)
    && (forall g | 0 <= g < |job.order| :: WorkerInv(job, s, g))
    && (s.returned ==> s.launched == |job.order| && s.pending == 0)
  }

  lemma StartIsBalanced<W>(job: Job<W>)
    requires Fit(job)
    ensures Balanced(job, Start(job))
  {
    SumOfZeros(Holds, Start(job).workers);
    SumOfZeros(Lives, Start(job).workers);
  }

  /** A worker's step moves only its own worker record, and gives back at most its own token or wait-group slot. */
  lemma MoveShape<W>(job: Job<W>, s: System, g: nat, tick: P.Tick<W>)
    requires Enabled(job, s, Move(g, tick))
    ensures var s' := Apply(job, s, Move(g, tick));
            var next := Next(job, s, g, tick);
            && s'.workers == s.workers[g := next]
            && |s'.results| == |s.results| && s'.launched == s.launched && s'.announced == s.announced
            && s'.returned == s.returned
            && s'.tokens - s.tokens == Holds(g, next) - Holds(g, s.workers[g])
            && s'.pending - s.pending == Lives(g, next) - Lives(g, s.workers[g])
            && s'.tokens <= s.tokens && !next.phase.Waiting?
  {
  }

  lemma MoveKeepsWorkers<W>(job: Job<W>, s: System, g: nat, tick: P.Tick<W>, g': nat)
    requires Enabled(job, s, Move(g, tick)) && g' < |job.order|
    requires WorkerInv(job, s, g) && WorkerInv(job, s, g')
    ensures Sized(job, Apply(job, s, Move(g, tick))) && WorkerInv(job, Apply(job, s, Move(g, tick)), g')
  {
    MoveShape(job, s, g, tick);
    if g' == g {
      NextKeepsInv(job, s, g, tick);
    } else {
      assert Apply(job, s, Move(g, tick)).workers[g'] == s.workers[g'];
    }
  }

  lemma TokensCount(workers: seq<Worker>)
    ensures Sum(Holds, workers) >= 0
  {
    SumZeroMeans(Holds, workers);
  }

  lemma MoveKeepsBalanced<W>(job: Job<W>, s: System, g: nat, tick: P.Tick<W>)
    requires Balanced(job, s) && Enabled(job, s, Move(g, tick))
    ensures Balanced(job, Apply(job, s, Move(g, tick)))
  {
    var s' := Apply(job, s, Move(g, tick));
    MoveShape(job, s, g, tick);
    forall g' | 0 <= g' < |job.order|
      ensures WorkerInv(job, s', g')
    {
      MoveKeepsWorkers(job, s, g, tick, g');
    }
    SumAfter(Holds, s.workers, g, Next(job, s, g, tick));
    SumAfter(Lives, s.workers, g, Next(job, s, g, tick));
    TokensCount(s'.workers);
  }

  lemma LaunchKeepsBalanced<W>(job: Job<W>, s: System)
    requires Balanced(job, s) && Enabled(job, s, Launch)
    ensures Balanced(job, Apply(job, s, Launch))
  {
    var s' := Apply(job, s, Launch);
    var worker := s.workers[s.launched].(phase := Priming(Begin(Preloaded, PrimeRead(job, s.launched))));
    assert s'.workers == s.workers[s.launched := worker];
    SumAfter(Holds, s.workers, s.launched, worker);
    SumAfter(Lives, s.workers, s.launched, worker);
    P.BeginFits(Preloaded, PrimeRead(job, s.launched));
    forall g | 0 <= g < |job.order|
      ensures WorkerInv(job, s', g)
    {
      assert WorkerInv(job, s, g);
    }
  }

  lemma StepKeepsBalanced<W>(job: Job<W>, s: System, step: Step<W>)
    requires Balanced(job, s) && Enabled(job, s, step)
    ensures Balanced(job, Apply(job, s, step))
  {
    match step
    case Launch => LaunchKeepsBalanced(job, s);
    case Move(g, tick) => MoveKeepsBalanced(job, s, g, tick);
    case _ =>
      forall g | 0 <= g < |job.order|
        ensures WorkerInv(job, Apply(job, s, step), g)
      {
        assert WorkerInv(job, s, g);
      }
  }

  // ---- every run ends ----

  function PlanLeft(plan: Plan): nat {
    match plan
    case Refuse(_) => 2
    case Use(_, c) => c.left([]) + 3
  }

  function ItemsLeft(plans: seq<Plan>, k: nat): nat
    decreases |plans| - k
  {
    if k >= |plans| then 0 else PlanLeft(plans[k]) + ItemsLeft(plans, k + 1)
  }

  /** More than the steps a worker in this phase can still take. */
  function PhaseLeft(plans: seq<Plan>, prime: Read, phase: Phase): int {
    var n := |plans|;
    match phase
    case Waiting => Demand(prime) + ItemsLeft(plans, 0) + n + 6
    case Priming(call) => CallLeft(call) + ItemsLeft(plans, 0) + n + 5
    case Failing(k) => (if k < n then n - k else 0) + 4
    case Picking(k) => ItemsLeft(plans, k) + 4
    case Computing(k, process) =>
      (if k < n && plans[k].Use? then P.Left(plans[k].calculation, process) else 0) + 1 + ItemsLeft(plans, k + 1) + 4
    case Totalling => 3
    case Releasing => 2
    case Signalling => 1
    case Finished => 0
  }

  function WorkLeft<W>(job: Job<W>, g: nat, worker: Worker): int {
    if g < |job.order| then PhaseLeft(Plans(job, g), PrimeRead(job, g), worker.phase) else 0
  }

  function WorkIn<W>(job: Job<W>): (nat, Worker) -> int {
    (g: nat, worker: Worker) => WorkLeft(job, g, worker)
  }

  function Remaining<W>(job: Job<W>, s: System): int {
    Sum(WorkIn(job), s.workers) + 2 * (|job.order| - s.launched) - (if s.announced then 1 else 0)
    + if s.returned then 0 else 1
  }

  lemma PhaseLeftIsNatural(plans: seq<Plan>, prime: Read, phase: Phase, failed: bool)
    requires PhaseInv(phase, failed, plans, prime)
    ensures PhaseLeft(plans, prime, phase) >= 0
  {
    if phase.Computing? && plans[phase.k].Use? {
      P.LeftIsNatural(plans[phase.k].calculation, phase.process);
    }
  }

  lemma PrimeWorks<W>(job: Job<W>, s: System, g: nat, tick: P.Tick<W>)
    requires Enabled(job, s, Move(g, tick)) && WorkerInv(job, s, g) && s.workers[g].phase.Priming?
    ensures WorkLeft(job, g, Next(job, s, g, tick)) < WorkLeft(job, g, s.workers[g])
  {
    var me := s.workers[g];
    if !me.phase.call.Answered? {
      ProceedRunsOut(PrimeDesk(job), PrimeRead(job, g), me.phase.call, tick.w, None, me.cache);
    }
  }

  lemma ComputingWorks(plans: seq<Plan>, prime: Read, k: nat, process: P.Process, next: P.Process)
    requires k < |plans| && plans[k].Use?
    requires P.Left(plans[k].calculation, next) < P.Left(plans[k].calculation, process)
    ensures PhaseLeft(plans, prime, Computing(k, next)) < PhaseLeft(plans, prime, Computing(k, process))
  {
  }

  lemma TickWorks<W>(job: Job<W>, s: System, g: nat, tick: P.Tick<W>)
    requires Enabled(job, s, Move(g, tick)) && WorkerInv(job, s, g) && InProcess(s.workers[g].phase, Plans(job, g))
    ensures WorkLeft(job, g, Next(job, s, g, tick)) < WorkLeft(job, g, s.workers[g])
  {
    var me, k := s.workers[g], s.workers[g].phase.k;
    var Use(c, p) := Plans(job, g)[k];
    P.AdvanceRunsOut(DeskOf(job.inner, job.ctx, c), p,
                     P.Run(me.phase.process, me.cache, me.stats, Indices(job, g)[k] in s.tainted), tick);
    ComputingWorks(Plans(job, g), PrimeRead(job, g), k, me.phase.process, Ticked(job, s, g, tick).process);
  }

  /** The phases a worker goes through outside its calculations and its priming. */
  lemma PlainPhaseWorks(plans: seq<Plan>, prime: Read, phase: Phase, next: Phase)
    requires match phase
             case Failing(k) => next == if k < |plans| then Failing(k + 1) else Totalling
             case Picking(k) =>
               if k >= |plans| then next == Totalling
               else next.Computing? && next.k == k
                    && (plans[k].Use? ==> next.process == P.START)
             case Computing(k, process) =>
               next == Picking(k + 1)
               && (k < |plans| && plans[k].Use? ==> P.Left(plans[k].calculation, process) >= 0)
             case Totalling => next == Releasing
             case Releasing => next == Signalling
             case Signalling => next == Finished
             case _ => false
    ensures PhaseLeft(plans, prime, next) < PhaseLeft(plans, prime, phase)
  {
  }

  lemma NextWorks<W>(job: Job<W>, s: System, g: nat, tick: P.Tick<W>)
    requires Enabled(job, s, Move(g, tick)) && WorkerInv(job, s, g)
    ensures WorkLeft(job, g, Next(job, s, g, tick)) < WorkLeft(job, g, s.workers[g])
  {
    var me, plans := s.workers[g], Plans(job, g);
    if me.phase.Priming? {
      PrimeWorks(job, s, g, tick);
    } else if InProcess(me.phase, plans) {
      TickWorks(job, s, g, tick);
    } else {
      if me.phase.Computing? && plans[me.phase.k].Use? {
        P.LeftIsNatural(plans[me.phase.k].calculation, me.phase.process);
      }
      PlainPhaseWorks(plans, PrimeRead(job, g), me.phase, Next(job, s, g, tick).phase);
    }
  }

  lemma StepWorks<W>(job: Job<W>, s: System, step: Step<W>)
    requires Balanced(job, s) && Enabled(job, s, step)
    ensures Remaining(job, Apply(job, s, step)) < Remaining(job, s)
  {
    match step
    case Announce =>
    case Return =>
    case Launch =>
      var call := Begin(Preloaded, PrimeRead(job, s.launched));
      BeginIsCovered(Preloaded, PrimeRead(job, s.launched));
      SumAfter(WorkIn(job), s.workers, s.launched, s.workers[s.launched].(phase := Priming(call)));
    case Move(g, tick) =>
      MoveShape(job, s, g, tick);
      assert WorkerInv(job, s, g);
      NextWorks(job, s, g, tick);
      SumAfter(WorkIn(job), s.workers, g, Next(job, s, g, tick));
  }

  /** In every reachable state the running workers are the held tokens, never more than the limit. */
  lemma {:induction false} RunKeepsBalanced<W>(job: Job<W>, s: System, steps: seq<Step<W>>, s': System)
    requires Balanced(job, s) && Reaches(job, s, steps, s')
    ensures Balanced(job, s') && |steps| <= Remaining(job, s) - Remaining(job, s')
    decreases |steps|
  {
    if steps != [] {
      StepKeepsBalanced(job, s, steps[0]);
      StepWorks(job, s, steps[0]);
      RunKeepsBalanced(job, Apply(job, s, steps[0]), steps[1..], s');
    }
  }

  lemma RemainingIsNatural<W>(job: Job<W>, s: System)
    requires Balanced(job, s)
    ensures Remaining(job, s) >= 0
  {
    forall g: nat | g < |s.workers|
      ensures WorkIn(job)(g, s.workers[g]) >= 0
    {
      assert WorkerInv(job, s, g);
      PhaseLeftIsNatural(Plans(job, g), PrimeRead(job, g), s.workers[g].phase, s.workers[g].failure.Some?);
    }
    SumZeroMeans(WorkIn(job), s.workers);
  }

  /**
   * In every reachable state: the workers between launch and release are exactly the held tokens, never more than the
   * semaphore holds; the wait group counts the workers that are not done; and the run is no longer than its work.
   */
  lemma TokensAreWorkers<W>(job: Job<W>, steps: seq<Step<W>>, s: System)
    requires Fit(job) && Reaches(job, Start(job), steps, s)
    ensures s.tokens == Sum(Holds, s.workers) && 0 <= s.tokens && (job.order != [] ==> s.tokens <= job.limit)
    ensures s.pending == Sum(Lives, s.workers) + if s.announced then 1 else 0
    ensures s.returned ==> |s.workers| == |job.order| && forall g | 0 <= g < |s.workers| :: s.workers[g].phase.Finished?
    ensures |steps| <= Remaining(job, Start(job))
  {
    StartIsBalanced(job);
    RunKeepsBalanced(job, Start(job), steps, s);
    RemainingIsNatural(job, s);
    if s.returned {
      SumZeroMeans(Lives, s.workers);
      forall g: nat | g < |s.workers|
        ensures s.workers[g].phase.Finished?
      {
        assert Lives(g, s.workers[g]) == 0;
      }
    }
  }

  /** Until the call returns, something can always happen. */
  lemma NeverStuck<W>(job: Job<W>, s: System, w: W) returns (step: Step<W>)
    requires Fit(job) && Balanced(job, s) && !s.returned
    ensures Enabled(job, s, step)
  {
    if g: nat :| g < |s.workers| && Lives(g, s.workers[g]) != 0 {
      assert WorkerInv(job, s, g);
      var phase := s.workers[g].phase;
      if InProcess(phase, Plans(job, g)) {
        var tick := P.CanGoOn(Plans(job, g)[phase.k].calculation, phase.process, w);
        return Move(g, tick);
      }
      return Move(g, P.Go(w));
    }
    SumOfZeros(Lives, s.workers);
    SumOfZeros(Holds, s.workers);
    step := if s.launched == |job.order| then Return else if s.announced then Launch else Announce;
  }

  lemma {:induction false} RunsToReturn<W>(job: Job<W>, s: System, w: W) returns (more: seq<Step<W>>, end: System)
    requires Fit(job) && Balanced(job, s)
    ensures Reaches(job, s, more, end) && end.returned
    decreases Remaining(job, s)
  {
    if s.returned {
      more, end := [], s;
    } else {
      var step := NeverStuck(job, s, w);
      StepKeepsBalanced(job, s, step);
      StepWorks(job, s, step);
      RemainingIsNatural(job, s);
      RemainingIsNatural(job, Apply(job, s, step));
      var rest;
      rest, end := RunsToReturn(job, Apply(job, s, step), w);
      more := [step] + rest;
      assert more[1..] == rest;
    }
  }

  /** wg.Wait is reached: from every reachable state the call can be brought to its return, in bounded time. */
  lemma EveryRunReturns<W>(job: Job<W>, steps: seq<Step<W>>, s: System, w: W) returns (more: seq<Step<W>>, end: System)
    requires Fit(job) && Reaches(job, Start(job), steps, s)
    ensures Reaches(job, s, more, end) && end.returned
    ensures |steps| + |more| <= Remaining(job, Start(job))
  {
    StartIsBalanced(job);
    RunKeepsBalanced(job, Start(job), steps, s);
    more, end := RunsToReturn(job, s, w);
    RunKeepsBalanced(job, s, more, end);
    RemainingIsNatural(job, end);
  }

  // ---- what the slots hold, over any client ----

  predicate Blank(r: ItemResult, pool: Pool) {
    r == ItemResult(pool, None, None)
  }

  /** An item that is through: its own input, and metrics or an SDK error, not both. */
  predicate Settled(r: ItemResult, pool: Pool) {
    r.pool == pool && (r.metrics.Some? <==> r.error.None?) && (r.error.Some? ==> r.error.value.SDKError?)
  }

  function Slot<W>(job: Job<W>, s: System, g: nat, k: nat): ItemResult
    requires Sized(job, s) && g < |job.order| && k < |Indices(job, g)|
  {
    s.results[Indices(job, g)[k]]
  }

  predicate SlotInv<W>(job: Job<W>, s: System, g: nat)
    requires Sized(job, s) && g < |job.order|
  {
    var me, n := s.workers[g], |Indices(job, g)|;
    && (forall k | 0 <= k < n && k < Through(me.phase, n) ::
          if me.failure.Some? then Slot(job, s, g, k) == FinalResult(Item(job, g, k), Err(me.failure.value))
          else Settled(Slot(job, s, g, k), Item(job, g, k)))
    && (forall k | Through(me.phase, n) <= k < n :: Blank(Slot(job, s, g, k), Item(job, g, k)))
  }

  predicate RefusalsKept<W>(job: Job<W>, s: System)
    requires Sized(job, s)
  {
    forall i | 0 <= i < |job.pools| ::
      BulkRefusal(job.s, job.pools[i]).Some? ==> s.results[i] == FirstResult(job.s, job.pools[i])
  }

  predicate SlotsInv<W>(job: Job<W>, s: System) {
    Sized(job, s) && RefusalsKept(job, s) && forall g | 0 <= g < |job.order| :: SlotInv(job, s, g)
  }

  /** No two places in the groups hold the same index. */
  lemma IndicesApart<W>(job: Job<W>, g: nat, g': nat, j: nat, k: nat)
    requires Fit(job) && g < |job.order| && g' < |job.order|
    requires j < |Indices(job, g)| && k < |Indices(job, g')|
    ensures Indices(job, g)[j] == Indices(job, g')[k] ==> g == g' && j == k
  {
    var i, i' := Indices(job, g)[j], Indices(job, g')[k];
    GroupIndicesMeaning(job.s, job.pools, job.order[g], |job.pools|);
    GroupIndicesMeaning(job.s, job.pools, job.order[g'], |job.pools|);
    assert i in Indices(job, g) && i' in Indices(job, g');
  }

  /** A worker writes results and taints only inside its own group. */
  lemma TouchIsLocal<W>(job: Job<W>, s: System, g: nat, tick: P.Tick<W>, i: nat)
    requires Enabled(job, s, Move(g, tick)) && i < |job.pools| && i !in Indices(job, g)
    ensures var s' := Apply(job, s, Move(g, tick));
            s'.results[i] == s.results[i] && (i in s'.tainted <==> i in s.tainted)
  {
  }

  /** What it taints is the item it computes, and exactly when that item's calculation meets an unanswered read. */
  lemma TouchTaints<W>(job: Job<W>, s: System, g: nat, tick: P.Tick<W>)
    requires Enabled(job, s, Move(g, tick))
    ensures Apply(job, s, Move(g, tick)).tainted
         == if InProcess(s.workers[g].phase, Plans(job, g)) && Ticked(job, s, g, tick).faulted
            then s.tainted + {Indices(job, g)[s.workers[g].phase.k]} else s.tainted
  {
  }

  lemma OthersUntouched<W>(job: Job<W>, s: System, g: nat, tick: P.Tick<W>, g': nat, k: nat)
    requires Fit(job) && Enabled(job, s, Move(g, tick)) && g' < |job.order| && g' != g && k < |Indices(job, g')|
    ensures var s' := Apply(job, s, Move(g, tick));
            && Sized(job, s') && s'.workers[g'] == s.workers[g']
            && Slot(job, s', g', k) == Slot(job, s, g', k)
            && (Indices(job, g')[k] in s'.tainted <==> Indices(job, g')[k] in s.tainted)
  {
    var i := Indices(job, g')[k];
    if i in Indices(job, g) {
      var j :| 0 <= j < |Indices(job, g)| && Indices(job, g)[j] == i;
      IndicesApart(job, g, g', j, k);
      assert false;
    }
    TouchIsLocal(job, s, g, tick, i);
  }

  lemma OwnSlots<W>(job: Job<W>, s: System, g: nat, tick: P.Tick<W>, k: nat)
    requires Fit(job) && Enabled(job, s, Move(g, tick)) && SlotInv(job, s, g) && k < |Indices(job, g)|
    ensures Sized(job, Apply(job, s, Move(g, tick)))
    ensures var fills := Fills(s.workers[g], Plans(job, g));
            Slot(job, Apply(job, s, Move(g, tick)), g, k)
            == if fills.Some? && fills.value.0 == k then FinalResult(Item(job, g, k), fills.value.1)
               else Slot(job, s, g, k)
  {
    var fills := Fills(s.workers[g], Plans(job, g));
    if fills.Some? {
      IndicesApart(job, g, g, fills.value.0, k);
      assert Blank(Slot(job, s, g, fills.value.0), Item(job, g, fills.value.0));
    }
  }

  lemma NextFailure<W>(job: Job<W>, s: System, g: nat, tick: P.Tick<W>)
    requires Enabled(job, s, Move(g, tick)) && WorkerInv(job, s, g)
    ensures var me, next := s.workers[g], Next(job, s, g, tick);
            if me.phase.Priming? then next.failure.Some? <==> next.phase.Failing? else next.failure == me.failure
    ensures var me, next, n := s.workers[g], Next(job, s, g, tick), |Plans(job, g)|;
            var fills := Fills(me, Plans(job, g));
            if fills.Some? then
              fills.value.0 == Through(me.phase, n) && Through(next.phase, n) == Through(me.phase, n) + 1
            else Through(next.phase, n) == Through(me.phase, n)
  {
  }

  lemma MoveKeepsOwnSlots<W>(job: Job<W>, s: System, g: nat, tick: P.Tick<W>)
    requires Fit(job) && Enabled(job, s, Move(g, tick)) && WorkerInv(job, s, g) && SlotInv(job, s, g)
    ensures Sized(job, Apply(job, s, Move(g, tick))) && SlotInv(job, Apply(job, s, Move(g, tick)), g)
  {
    var s', fills := Apply(job, s, Move(g, tick)), Fills(s.workers[g], Plans(job, g));
    MoveShape(job, s, g, tick);
    NextFailure(job, s, g, tick);
    forall k: nat | k < |Indices(job, g)|
      ensures Slot(job, s', g, k)
              == if fills.Some? && fills.value.0 == k then FinalResult(Item(job, g, k), fills.value.1)
                 else Slot(job, s, g, k)
    {
      OwnSlots(job, s, g, tick, k);
    }
  }

  lemma MoveKeepsSlots<W>(job: Job<W>, s: System, g: nat, tick: P.Tick<W>)
    requires Fit(job) && Enabled(job, s, Move(g, tick)) && Balanced(job, s) && SlotsInv(job, s)
    ensures SlotsInv(job, Apply(job, s, Move(g, tick)))
  {
    var s' := Apply(job, s, Move(g, tick));
    MoveShape(job, s, g, tick);
    assert WorkerInv(job, s, g);
    MoveKeepsOwnSlots(job, s, g, tick);
    forall g' | 0 <= g' < |job.order|
      ensures SlotInv(job, s', g')
    {
      if g' != g {
        assert SlotInv(job, s, g') && s'.workers[g'] == s.workers[g'];
        forall k: nat | k < |Indices(job, g')|
          ensures Slot(job, s', g', k) == Slot(job, s, g', k)
        {
          OthersUntouched(job, s, g, tick, g', k);
        }
      }
    }
    forall i: nat | i < |job.pools| && BulkRefusal(job.s, job.pools[i]).Some?
      ensures s'.results[i] == s.results[i]
    {
      GroupIndicesMeaning(job.s, job.pools, job.order[g], |job.pools|);
      TouchIsLocal(job, s, g, tick, i);
    }
  }

  lemma StartIsBlank<W>(job: Job<W>)
    requires Fit(job)
    ensures SlotsInv(job, Start(job))
  {
    var s := Start(job);
    forall g | 0 <= g < |job.order|
      ensures SlotInv(job, s, g)
    {
      GroupIndicesMeaning(job.s, job.pools, job.order[g], |job.pools|);
      forall k: nat | k < |Indices(job, g)|
        ensures Blank(Slot(job, s, g, k), Item(job, g, k))
      {
        assert Indices(job, g)[k] in Indices(job, g);
      }
    }
  }

  /** What a worker past its last critical section has put on a shared total. */
  function Totalled(c: Counter): (nat, Worker) -> int {
    (g: nat, worker: Worker) =>
      if worker.phase.Releasing? || worker.phase.Signalling? || worker.phase.Finished? then Count(c, worker.stats)
      else 0
  }

  ghost predicate TotalInv(s: System) {
    forall c: Counter :: Count(c, s.total) == Sum(Totalled(c), s.workers)
  }

  lemma MoveKeepsTotal<W>(job: Job<W>, s: System, g: nat, tick: P.Tick<W>)
    requires Enabled(job, s, Move(g, tick)) && TotalInv(s)
    ensures TotalInv(Apply(job, s, Move(g, tick)))
  {
    var s', next := Apply(job, s, Move(g, tick)), Next(job, s, g, tick);
    MoveShape(job, s, g, tick);
    forall c: Counter
      ensures Count(c, s'.total) == Sum(Totalled(c), s'.workers)
    {
      SumAfter(Totalled(c), s.workers, g, next);
      MoveCounts(job, s, g, tick, c);
    }
  }

  lemma MoveCounts<W>(job: Job<W>, s: System, g: nat, tick: P.Tick<W>, c: Counter)
    requires Enabled(job, s, Move(g, tick))
    ensures Count(c, Apply(job, s, Move(g, tick)).total) - Count(c, s.total)
         == Totalled(c)(g, Next(job, s, g, tick)) - Totalled(c)(g, s.workers[g])
  {
  }

  // ---- what the caches hold, over any client ----

  function PrimedAt<W>(job: Job<W>, g: nat): set<Address>
    requires g < |job.order|
  {
    Primed(job.s, job.pools, job.order[g])
  }

  /** The item in hand asks for no address primed. */
  ghost predicate ComputesKept(plan: Plan, primed: set<Address>, process: P.Process, cache: Cache) {
    plan.Use? ==>
      P.CallsKeep(plan.calculator.source, primed, plan.calculation, P.Run(process, cache, NO_STATS, false))
  }

  /** Priming is on its way, or has put the group's addresses into the cache, and no read in progress asks for them. */
  ghost predicate CacheInv<W>(job: Job<W>, s: System, g: nat)
    requires Sized(job, s) && g < |job.order|
  {
    var me, plans := s.workers[g], Plans(job, g);
    match me.phase
    case Waiting => me.cache == map[]
    case Priming(call) =>
      CallKeeps(Preloaded, {}, PrimeRead(job, g), me.cache, call) && me.cache.Keys <= PrimedAt(job, g)
    case Failing(_) => true
    case Computing(k, process) =>
      && PrimedAt(job, g) <= me.cache.Keys
      && (k < |plans| ==> ComputesKept(plans[k], PrimedAt(job, g), process, me.cache))
    case _ =>
      && (me.failure.None? ==> PrimedAt(job, g) <= me.cache.Keys)
      && (me.phase == Picking(0) ==> me.cache.Keys <= PrimedAt(job, g))
  }

  lemma TickKeepsCache<W>(job: Job<W>, s: System, g: nat, tick: P.Tick<W>)
    requires Enabled(job, s, Move(g, tick)) && InProcess(s.workers[g].phase, Plans(job, g))
    requires WorkerInv(job, s, g) && CacheInv(job, s, g)
    ensures var run := Ticked(job, s, g, tick);
            && PrimedAt(job, g) <= run.cache.Keys
            && ComputesKept(Plans(job, g)[s.workers[g].phase.k], PrimedAt(job, g), run.process, run.cache)
  {
    var me, k := s.workers[g], s.workers[g].phase.k;
    var Use(c, p) := Plans(job, g)[k];
    P.AdvanceCallsKeep(DeskOf(job.inner, job.ctx, c), PrimedAt(job, g), p,
                       P.Run(me.phase.process, me.cache, me.stats, Indices(job, g)[k] in s.tainted), tick);
  }

  lemma PrimeKeepsCache<W>(job: Job<W>, s: System, g: nat, tick: P.Tick<W>)
    requires Enabled(job, s, Move(g, tick)) && s.workers[g].phase.Priming? && CacheInv(job, s, g)
    ensures var next := Next(job, s, g, tick);
            && next.cache.Keys <= PrimedAt(job, g)
            && if next.phase.Priming? then CallKeeps(Preloaded, {}, PrimeRead(job, g), next.cache, next.phase.call)
               else next.failure.None? ==> PrimedAt(job, g) <= next.cache.Keys
  {
    var me := s.workers[g];
    assert forall a :: a in ReadKeys(Preloaded, PrimeRead(job, g)) <==> a in PrimedAt(job, g);
    if !me.phase.call.Answered? {
      ProceedKeeps(PrimeDesk(job), {}, PrimeRead(job, g), me.phase.call, tick.w, None, me.cache);
    } else if Next(job, s, g, tick).failure.None? && !Failed(me.phase.call.answer) {
      assert forall a :: a in PrimedAt(job, g) ==> a in Addresses(job, g);
    }
  }

  lemma MoveKeepsCache<W>(job: Job<W>, s: System, g: nat, tick: P.Tick<W>)
    requires Enabled(job, s, Move(g, tick)) && WorkerInv(job, s, g) && CacheInv(job, s, g)
    ensures Sized(job, Apply(job, s, Move(g, tick))) && CacheInv(job, Apply(job, s, Move(g, tick)), g)
  {
    MoveShape(job, s, g, tick);
    if s.workers[g].phase.Priming? {
      PrimeKeepsCache(job, s, g, tick);
    } else if InProcess(s.workers[g].phase, Plans(job, g)) {
      TickKeepsCache(job, s, g, tick);
    }
  }

  ghost predicate SafeInv<W>(job: Job<W>, s: System) {
    && Balanced(job, s) && SlotsInv(job, s) && TotalInv(s)
    && forall g | 0 <= g < |job.order| :: CacheInv(job, s, g)
  }

  lemma StepKeepsCache<W>(job: Job<W>, s: System, step: Step<W>, g: nat)
    requires SafeInv(job, s) && Enabled(job, s, step) && g < |job.order|
    ensures Sized(job, Apply(job, s, step)) && CacheInv(job, Apply(job, s, step), g)
  {
    assert CacheInv(job, s, g) && WorkerInv(job, s, g);
    match step
    case Move(g', tick) =>
      MoveShape(job, s, g', tick);
      if g' == g {
        MoveKeepsCache(job, s, g, tick);
      } else {
        assert Apply(job, s, step).workers[g] == s.workers[g];
      }
    case Launch =>
      if g == s.launched {
        BeginKeeps(Preloaded, {}, PrimeRead(job, g), s.workers[g].cache);
      } else {
        assert Apply(job, s, step).workers[g] == s.workers[g];
      }
    case _ =>
  }

  lemma LaunchKeepsSafe<W>(job: Job<W>, s: System)
    requires Fit(job) && SafeInv(job, s) && Enabled(job, s, Launch)
    ensures SlotsInv(job, Apply(job, s, Launch)) && TotalInv(Apply(job, s, Launch))
  {
    var s' := Apply(job, s, Launch);
    var next := s.workers[s.launched].(phase := Priming(Begin(Preloaded, PrimeRead(job, s.launched))));
    assert s'.workers == s.workers[s.launched := next];
    forall c: Counter
      ensures Count(c, s'.total) == Sum(Totalled(c), s'.workers)
    {
      SumAfter(Totalled(c), s.workers, s.launched, next);
    }
    forall g | 0 <= g < |job.order|
      ensures SlotInv(job, s', g)
    {
      assert SlotInv(job, s, g) && WorkerInv(job, s, g);
      forall k: nat | k < |Indices(job, g)|
        ensures Slot(job, s', g, k) == Slot(job, s, g, k)
      {
      }
    }
  }

  lemma StepKeepsSafe<W>(job: Job<W>, s: System, step: Step<W>)
    requires Fit(job) && SafeInv(job, s) && Enabled(job, s, step)
    ensures SafeInv(job, Apply(job, s, step))
  {
    StepKeepsBalanced(job, s, step);
    StepKeepsSlots(job, s, step);
    forall g | 0 <= g < |job.order|
      ensures CacheInv(job, Apply(job, s, step), g)
    {
      StepKeepsCache(job, s, step, g);
    }
  }

  lemma StepKeepsSlots<W>(job: Job<W>, s: System, step: Step<W>)
    requires Fit(job) && SafeInv(job, s) && Enabled(job, s, step)
    ensures SlotsInv(job, Apply(job, s, step)) && TotalInv(Apply(job, s, step))
  {
    match step
    case Move(g, tick) =>
      MoveKeepsSlots(job, s, g, tick);
      MoveKeepsTotal(job, s, g, tick);
    case Launch => LaunchKeepsSafe(job, s);
    case _ =>
      forall g | 0 <= g < |job.order|
        ensures SlotInv(job, Apply(job, s, step), g)
      {
        assert SlotInv(job, s, g);
      }
  }

  lemma StartIsSafe<W>(job: Job<W>)
    requires Fit(job)
    ensures SafeInv(job, Start(job))
  {
    StartIsBalanced(job);
    StartIsBlank(job);
    forall c: Counter
      ensures Count(c, Start(job).total) == Sum(Totalled(c), Start(job).workers)
    {
      SumOfZeros(Totalled(c), Start(job).workers);
    }
  }

  lemma {:induction false} RunKeepsSafe<W>(job: Job<W>, s: System, steps: seq<Step<W>>, s': System)
    requires Fit(job) && SafeInv(job, s) && Reaches(job, s, steps, s')
    ensures SafeInv(job, s')
    decreases |steps|
  {
    if steps != [] {
      StepKeepsSafe(job, s, steps[0]);
      RunKeepsSafe(job, Apply(job, s, steps[0]), steps[1..], s');
    }
  }

  // ---- what the slots hold, over a client that answers from a ledger ----

  predicate Clean<W>(job: Job<W>, s: System, g: nat, k: nat)
    requires g < |job.order| && k < |Indices(job, g)|
  {
    Indices(job, g)[k] !in s.tainted
  }

  /** The slot holds something the single path may come to. */
  ghost predicate Fair(l: Ledger, s: Fields, pool: Pool, r: ItemResult) {
    exists outcome :: MayCome(l, PlanFor(s, pool), outcome) && r == FinalResult(pool, outcome)
  }

  /** The item in hand is on a course the ledger allows. */
  ghost predicate OnCourseWith(l: Ledger, plans: seq<Plan>, me: Worker, tainted: bool) {
    me.phase.Computing? && me.phase.k < |plans| ==>
      match plans[me.phase.k]
      case Refuse(e) => me.phase.process == P.Concluded(Err(e))
      case Use(c, p) => P.Truth(l, c.provider, p, P.Run(me.phase.process, me.cache, me.stats, tainted))
  }

  ghost predicate TrueInv<W>(job: Job<W>, l: Ledger, s: System, g: nat)
    requires Sized(job, s) && g < |job.order|
  {
    var me, n := s.workers[g], |Indices(job, g)|;
    && TableAgrees(l, me.cache)
    && (me.phase.Priming? ==> CallInv(l, DefaultProvider, PrimeRead(job, g), me.cache, me.phase.call, false))
    && (me.failure.None? ==> forall k | 0 <= k < n && k < Through(me.phase, n) :: Clean(job, s, g, k) ==>
          Fair(l, job.s, Item(job, g, k), Slot(job, s, g, k)))
    && (me.phase.Computing? && me.phase.k < n ==>
          OnCourseWith(l, Plans(job, g), me, Indices(job, g)[me.phase.k] in s.tainted))
  }

  /** An item's plan in the group's service comes to just what it comes to in the service itself. */
  lemma PlanIsFair<W>(job: Job<W>, l: Ledger, g: nat, k: nat)
    requires Fit(job) && Wired(job.defaults, job.s) && g < |job.order| && k < |Indices(job, g)|
    ensures SamePlan(PlanFor(job.s, Item(job, g, k)), Plans(job, g)[k])
    ensures forall outcome ::
              MayCome(l, PlanFor(job.s, Item(job, g, k)), outcome) <==> MayCome(l, Plans(job, g)[k], outcome)
  {
    GroupIndicesMeaning(job.s, job.pools, job.order[g], |job.pools|);
    assert Indices(job, g)[k] in Indices(job, g);
    GroupServiceAgrees(job.defaults, job.s, Item(job, g, k));
    SamePlanComesTo(l, PlanFor(job.s, Item(job, g, k)), Plans(job, g)[k]);
  }

  lemma PrimeIsTrue<W(!new)>(job: Job<W>, l: Ledger, s: System, g: nat, tick: P.Tick<W>)
    requires Exact(job.inner, l) && Enabled(job, s, Move(g, tick)) && s.workers[g].phase.Priming?
    requires TrueInv(job, l, s, g)
    ensures var next := Next(job, s, g, tick);
            && TableAgrees(l, next.cache)
            && (next.phase.Priming? ==>
                  CallInv(l, DefaultProvider, PrimeRead(job, g), next.cache, next.phase.call, false))
  {
    var me := s.workers[g];
    if !me.phase.call.Answered? {
      ProceedIsTrue(PrimeDesk(job), l, PrimeRead(job, g), me.phase.call, tick.w, None, me.cache, false);
    }
  }

  lemma TickIsTrue<W(!new)>(job: Job<W>, l: Ledger, s: System, g: nat, tick: P.Tick<W>)
    requires Exact(job.inner, l) && Enabled(job, s, Move(g, tick)) && InProcess(s.workers[g].phase, Plans(job, g))
    requires WorkerInv(job, s, g) && TrueInv(job, l, s, g)
    ensures var Use(c, p) := Plans(job, g)[s.workers[g].phase.k];
            P.Truth(l, c.provider, p, Ticked(job, s, g, tick))
    ensures Indices(job, g)[s.workers[g].phase.k] in s.tainted ==> Ticked(job, s, g, tick).faulted
  {
    var me, k := s.workers[g], s.workers[g].phase.k;
    var Use(c, p) := Plans(job, g)[k];
    P.AdvanceIsTrue(DeskOf(job.inner, job.ctx, c), l, p,
                    P.Run(me.phase.process, me.cache, me.stats, Indices(job, g)[k] in s.tainted), tick);
  }

  lemma MoveKeepsCourse<W(!new)>(job: Job<W>, l: Ledger, s: System, g: nat, tick: P.Tick<W>)
    requires Fit(job) && Exact(job.inner, l)
    requires Enabled(job, s, Move(g, tick)) && WorkerInv(job, s, g) && TrueInv(job, l, s, g)
    ensures var s', next := Apply(job, s, Move(g, tick)), Next(job, s, g, tick);
            && TableAgrees(l, next.cache)
            && (next.phase.Priming? ==>
                  CallInv(l, DefaultProvider, PrimeRead(job, g), next.cache, next.phase.call, false))
            && (next.phase.Computing? && next.phase.k < |Plans(job, g)| ==>
                  OnCourseWith(l, Plans(job, g), next, Indices(job, g)[next.phase.k] in s'.tainted))
  {
    TouchTaints(job, s, g, tick);
    if s.workers[g].phase.Priming? {
      PrimeIsTrue(job, l, s, g, tick);
    } else if InProcess(s.workers[g].phase, Plans(job, g)) {
      TickIsTrue(job, l, s, g, tick);
    }
  }

  /** What is written for an untainted item is fair. */
  lemma FillIsFair<W>(job: Job<W>, l: Ledger, s: System, g: nat)
    requires Fit(job) && Wired(job.defaults, job.s) && Sized(job, s) && g < |job.order|
    requires WorkerInv(job, s, g) && TrueInv(job, l, s, g)
    requires s.workers[g].phase.Computing? && s.workers[g].phase.process.Concluded?
    requires s.workers[g].phase.k < |Indices(job, g)| && Clean(job, s, g, s.workers[g].phase.k)
    ensures var k := s.workers[g].phase.k;
            Fair(l, job.s, Item(job, g, k), FinalResult(Item(job, g, k), s.workers[g].phase.process.outcome))
  {
    var k, outcome := s.workers[g].phase.k, s.workers[g].phase.process.outcome;
    PlanIsFair(job, l, g, k);
    assert MayCome(l, Plans(job, g)[k], outcome);
  }

  lemma MoveKeepsOwnTruth<W(!new)>(job: Job<W>, l: Ledger, s: System, g: nat, tick: P.Tick<W>)
    requires Fit(job) && Wired(job.defaults, job.s) && Exact(job.inner, l)
    requires Enabled(job, s, Move(g, tick)) && WorkerInv(job, s, g) && SlotInv(job, s, g) && TrueInv(job, l, s, g)
    ensures Sized(job, Apply(job, s, Move(g, tick))) && TrueInv(job, l, Apply(job, s, Move(g, tick)), g)
  {
    var s', me, next, n := Apply(job, s, Move(g, tick)), s.workers[g], Next(job, s, g, tick), |Indices(job, g)|;
    MoveShape(job, s, g, tick);
    NextFailure(job, s, g, tick);
    MoveKeepsCourse(job, l, s, g, tick);
    TouchTaints(job, s, g, tick);
    if next.failure.None? {
      forall k: nat | k < n && k < Through(next.phase, n) && Clean(job, s', g, k)
        ensures Fair(l, job.s, Item(job, g, k), Slot(job, s', g, k))
      {
        OwnSlots(job, s, g, tick, k);
        if k == Through(me.phase, n) {
          FillIsFair(job, l, s, g);
        }
      }
    }
  }

  lemma OthersKeepTruth<W>(job: Job<W>, l: Ledger, s: System, g: nat, tick: P.Tick<W>, g': nat)
    requires Fit(job) && Enabled(job, s, Move(g, tick)) && g' < |job.order| && g' != g && TrueInv(job, l, s, g')
    ensures Sized(job, Apply(job, s, Move(g, tick))) && TrueInv(job, l, Apply(job, s, Move(g, tick)), g')
  {
    var s' := Apply(job, s, Move(g, tick));
    MoveShape(job, s, g, tick);
    assert s'.workers[g'] == s.workers[g'];
    forall k: nat | k < |Indices(job, g')|
      ensures Slot(job, s', g', k) == Slot(job, s, g', k) && (Clean(job, s', g', k) <==> Clean(job, s, g', k))
    {
      OthersUntouched(job, s, g, tick, g', k);
    }
  }

  // ---- what the counters hold ----

  function PlanCharge(c: Counter, l: Ledger, plan: Plan): int {
    match plan
    case Refuse(_) => 0
    case Use(calculator, p) => TotalCharge(c, l, calculator.source, calculator.provider, p)
  }

  /** What the first k items of a group put on a counter, undisturbed. */
  function Due(c: Counter, l: Ledger, plans: seq<Plan>, k: nat): int
    requires k <= |plans|
  {
    if k == 0 then 0 else Due(c, l, plans, k - 1) + PlanCharge(c, l, plans[k - 1])
  }

  /** The counters a group's preloaded client ends with, undisturbed. */
  function RouteDue(c: Counter, l: Ledger, defaults: map<Route, Compute>, s: Fields, pools: seq<Pool>): Route -> int {
    route => Due(c, l, RoutePlans(defaults, s, pools, route), |RoutePlans(defaults, s, pools, route)|)
  }

  ghost predicate Unfaulted<W>(job: Job<W>, s: System, g: nat)
    requires Sized(job, s) && g < |job.order|
  {
    s.workers[g].failure.None? && forall k | 0 <= k < |Indices(job, g)| :: Clean(job, s, g, k)
  }

  ghost predicate AllSteady(l: Ledger, plans: seq<Plan>, known: set<Address>) {
    forall k | 0 <= k < |plans| :: PlanSteady(l, plans[k], known)
  }

  ghost predicate OnBudget<W>(
    c: Counter, job: Job<W>, l: Ledger, plans: seq<Plan>, known: set<Address>, me: Worker)
  {
    var n := |plans|;
    match me.phase
    case Computing(k, process) =>
      && k < n
      && (match plans[k]
          case Refuse(_) => Count(c, me.stats) == Due(c, l, plans, k)
          case Use(d, p) =>
            && Accounted(c, DeskOf(job.inner, job.ctx, d), l, p, P.Run(process, me.cache, me.stats, false),
                         Due(c, l, plans, k))
            && Keeps(l, d.source, d.provider, known, p, P.Run(process, me.cache, me.stats, false)))
    case _ => Through(me.phase, n) <= n && Count(c, me.stats) == Due(c, l, plans, Through(me.phase, n))
  }

  ghost predicate StatsInv<W>(c: Counter, job: Job<W>, l: Ledger, s: System, g: nat)
    requires Sized(job, s) && g < |job.order|
  {
    Unfaulted(job, s, g) && AllSteady(l, Plans(job, g), PrimedAt(job, g)) ==>
      OnBudget(c, job, l, Plans(job, g), PrimedAt(job, g), s.workers[g])
  }

  lemma TickOnBudget<W(!new)>(c: Counter, job: Job<W>, l: Ledger, s: System, g: nat, tick: P.Tick<W>)
    requires Exact(job.inner, l) && Enabled(job, s, Move(g, tick)) && InProcess(s.workers[g].phase, Plans(job, g))
    requires WorkerInv(job, s, g) && TrueInv(job, l, s, g)
    requires OnBudget(c, job, l, Plans(job, g), PrimedAt(job, g), s.workers[g])
    requires AllSteady(l, Plans(job, g), PrimedAt(job, g)) && Clean(job, s, g, s.workers[g].phase.k)
    requires !Ticked(job, s, g, tick).faulted
    ensures OnBudget(c, job, l, Plans(job, g), PrimedAt(job, g), Next(job, s, g, tick))
  {
    var me, k := s.workers[g], s.workers[g].phase.k;
    var Use(d, p) := Plans(job, g)[k];
    var desk, run := DeskOf(job.inner, job.ctx, d), P.Run(me.phase.process, me.cache, me.stats, false);
    assert PlanSteady(l, Plans(job, g)[k], PrimedAt(job, g));
    AdvanceKeeps(desk, l, PrimedAt(job, g), p, run, tick);
    AdvanceAccounted(c, desk, l, PrimedAt(job, g), p, run, tick, Due(c, l, Plans(job, g), k));
  }

  lemma PickOnBudget<W(!new)>(
    c: Counter, job: Job<W>, l: Ledger, plans: seq<Plan>, known: set<Address>, me: Worker, process: P.Process)
    requires me.phase.Picking? && me.phase.k < |plans| && OnBudget(c, job, l, plans, known, me)
    requires known <= me.cache.Keys
    requires match plans[me.phase.k]
             case Refuse(e) => process == P.Concluded(Err(e))
             case Use(_, _) => process == P.START
    ensures OnBudget(c, job, l, plans, known, me.(phase := Computing(me.phase.k, process)))
  {
    if plans[me.phase.k].Use? {
      var Use(d, p) := plans[me.phase.k];
      StartPaid(c, l, d.source, d.provider, p);
      StartKeeps(l, d.source, d.provider, known, p, me.cache, me.stats, false);
    }
  }

  lemma WriteOnBudget<W(!new)>(
    c: Counter, job: Job<W>, l: Ledger, plans: seq<Plan>, known: set<Address>, me: Worker)
    requires me.phase.Computing? && me.phase.process.Concluded? && OnBudget(c, job, l, plans, known, me)
    ensures OnBudget(c, job, l, plans, known, me.(phase := Picking(me.phase.k + 1)))
  {
    assert Due(c, l, plans, me.phase.k + 1) == Due(c, l, plans, me.phase.k) + PlanCharge(c, l, plans[me.phase.k]);
  }

  /** Outside its calculations a worker's counters rest. */
  lemma PlainOnBudget<W(!new)>(
    c: Counter, job: Job<W>, l: Ledger, plans: seq<Plan>, known: set<Address>, me: Worker, next: Worker)
    requires OnBudget(c, job, l, plans, known, me) && !me.phase.Computing? && !next.phase.Computing?
    requires next.stats == me.stats && Through(next.phase, |plans|) == Through(me.phase, |plans|)
    ensures OnBudget(c, job, l, plans, known, next)
  {
  }

  lemma NextPlain<W(!new)>(job: Job<W>, s: System, g: nat, tick: P.Tick<W>)
    requires Enabled(job, s, Move(g, tick)) && !InProcess(s.workers[g].phase, Plans(job, g))
    ensures var me, next := s.workers[g], Next(job, s, g, tick);
            && next.stats == me.stats
            && (next.phase.Computing? ==> me.phase.Picking? && me.phase.k < |Plans(job, g)|)
            && (me.phase.Computing? ==> next == me.(phase := Picking(me.phase.k + 1)))
            && (me.phase.Picking? && me.phase.k < |Plans(job, g)| ==>
                  next.phase.Computing? && next == me.(phase := Computing(me.phase.k, next.phase.process))
                  && match Plans(job, g)[me.phase.k]
                     case Refuse(e) => next.phase.process == P.Concluded(Err(e))
                     case Use(_, _) => next.phase.process == P.START)
  {
  }

  lemma RestOnBudget<W(!new)>(c: Counter, job: Job<W>, l: Ledger, s: System, g: nat, tick: P.Tick<W>)
    requires Enabled(job, s, Move(g, tick)) && !InProcess(s.workers[g].phase, Plans(job, g)) && WorkerInv(job, s, g)
    requires !s.workers[g].phase.Computing?
    requires s.workers[g].phase.Picking? ==> s.workers[g].phase.k >= |Plans(job, g)|
    requires s.workers[g].failure.None? && Next(job, s, g, tick).failure.None?
    requires OnBudget(c, job, l, Plans(job, g), PrimedAt(job, g), s.workers[g])
    ensures OnBudget(c, job, l, Plans(job, g), PrimedAt(job, g), Next(job, s, g, tick))
  {
    NextPlain(job, s, g, tick);
    NextFailure(job, s, g, tick);
    PlainOnBudget(c, job, l, Plans(job, g), PrimedAt(job, g), s.workers[g], Next(job, s, g, tick));
  }

  lemma NextOnBudget<W(!new)>(c: Counter, job: Job<W>, l: Ledger, s: System, g: nat, tick: P.Tick<W>)
    requires Enabled(job, s, Move(g, tick)) && !InProcess(s.workers[g].phase, Plans(job, g))
    requires WorkerInv(job, s, g) && CacheInv(job, s, g)
    requires OnBudget(c, job, l, Plans(job, g), PrimedAt(job, g), s.workers[g])
    requires s.workers[g].failure.None? && Next(job, s, g, tick).failure.None?
    ensures OnBudget(c, job, l, Plans(job, g), PrimedAt(job, g), Next(job, s, g, tick))
  {
    var me, plans := s.workers[g], Plans(job, g);
    if me.phase.Picking? && me.phase.k < |plans| {
      NextPlain(job, s, g, tick);
      PickOnBudget(c, job, l, plans, PrimedAt(job, g), me, Next(job, s, g, tick).phase.process);
    } else if me.phase.Computing? {
      NextPlain(job, s, g, tick);
      WriteOnBudget(c, job, l, plans, PrimedAt(job, g), me);
    } else {
      RestOnBudget(c, job, l, s, g, tick);
    }
  }

  lemma MoveKeepsOwnStats<W(!new)>(c: Counter, job: Job<W>, l: Ledger, s: System, g: nat, tick: P.Tick<W>)
    requires Fit(job) && Exact(job.inner, l)
    requires Enabled(job, s, Move(g, tick))
    requires WorkerInv(job, s, g) && CacheInv(job, s, g) && TrueInv(job, l, s, g) && StatsInv(c, job, l, s, g)
    ensures Sized(job, Apply(job, s, Move(g, tick))) && StatsInv(c, job, l, Apply(job, s, Move(g, tick)), g)
  {
    var s', me := Apply(job, s, Move(g, tick)), s.workers[g];
    MoveShape(job, s, g, tick);
    NextFailure(job, s, g, tick);
    TouchTaints(job, s, g, tick);
    if Unfaulted(job, s', g) && AllSteady(l, Plans(job, g), PrimedAt(job, g)) {
      forall k | 0 <= k < |Indices(job, g)|
        ensures Clean(job, s, g, k)
      {
        assert Clean(job, s', g, k);
      }
      if InProcess(me.phase, Plans(job, g)) {
        assert Clean(job, s', g, me.phase.k);
        TickOnBudget(c, job, l, s, g, tick);
      } else {
        NextOnBudget(c, job, l, s, g, tick);
      }
    }
  }

  // ---- whole runs ----

  ghost predicate TruthInv<W>(job: Job<W>, l: Ledger, s: System) {
    && SafeInv(job, s)
    && (forall g | 0 <= g < |job.order| :: TrueInv(job, l, s, g))
    && (forall g, c: Counter | 0 <= g < |job.order| :: StatsInv(c, job, l, s, g))
  }

  lemma OthersKeepStats<W(!new)>(c: Counter, job: Job<W>, l: Ledger, s: System, g: nat, tick: P.Tick<W>, g': nat)
    requires Fit(job) && Enabled(job, s, Move(g, tick)) && g' < |job.order| && g' != g && StatsInv(c, job, l, s, g')
    ensures Sized(job, Apply(job, s, Move(g, tick))) && StatsInv(c, job, l, Apply(job, s, Move(g, tick)), g')
  {
    var s' := Apply(job, s, Move(g, tick));
    MoveShape(job, s, g, tick);
    assert s'.workers[g'] == s.workers[g'];
    forall k: nat | k < |Indices(job, g')|
      ensures Clean(job, s', g', k) <==> Clean(job, s, g', k)
    {
      OthersUntouched(job, s, g, tick, g', k);
    }
  }

  lemma MoveKeepsTruth<W(!new)>(c: Counter, job: Job<W>, l: Ledger, s: System, g: nat, tick: P.Tick<W>, g': nat)
    requires Fit(job) && Wired(job.defaults, job.s) && Exact(job.inner, l) && g' < |job.order|
    requires TruthInv(job, l, s) && Enabled(job, s, Move(g, tick))
    ensures Sized(job, Apply(job, s, Move(g, tick)))
    ensures TrueInv(job, l, Apply(job, s, Move(g, tick)), g') && StatsInv(c, job, l, Apply(job, s, Move(g, tick)), g')
  {
    assert TrueInv(job, l, s, g') && StatsInv(c, job, l, s, g') && SlotInv(job, s, g') && WorkerInv(job, s, g');
    assert CacheInv(job, s, g');
    if g' == g {
      MoveKeepsOwnTruth(job, l, s, g, tick);
      MoveKeepsOwnStats(c, job, l, s, g, tick);
    } else {
      OthersKeepTruth(job, l, s, g, tick, g');
      OthersKeepStats(c, job, l, s, g, tick, g');
    }
  }

  lemma LaunchIsTrue<W>(c: Counter, job: Job<W>, l: Ledger, s: System, g: nat)
    requires Fit(job) && TruthInv(job, l, s) && Enabled(job, s, Launch) && g < |job.order|
    ensures Sized(job, Apply(job, s, Launch))
    ensures TrueInv(job, l, Apply(job, s, Launch), g) && StatsInv(c, job, l, Apply(job, s, Launch), g)
  {
    var s' := Apply(job, s, Launch);
    assert TrueInv(job, l, s, g) && StatsInv(c, job, l, s, g) && WorkerInv(job, s, g);
    forall k: nat | k < |Indices(job, g)|
      ensures Slot(job, s', g, k) == Slot(job, s, g, k) && (Clean(job, s', g, k) <==> Clean(job, s, g, k))
    {
    }
    if g == s.launched {
      BeginIsTrue(l, DefaultProvider, Preloaded, PrimeRead(job, g), s.workers[g].cache, false);
    }
  }

  /** Every step of every worker keeps finished items fair, items in hand on course and counters on budget. */
  lemma StepKeepsTruth<W(!new)>(c: Counter, job: Job<W>, l: Ledger, s: System, step: Step<W>, g: nat)
    requires Fit(job) && Wired(job.defaults, job.s) && Exact(job.inner, l) && g < |job.order|
    requires TruthInv(job, l, s) && Enabled(job, s, step)
    ensures Sized(job, Apply(job, s, step))
    ensures TrueInv(job, l, Apply(job, s, step), g) && StatsInv(c, job, l, Apply(job, s, step), g)
  {
    match step
    case Move(g', tick) => MoveKeepsTruth(c, job, l, s, g', tick, g);
    case Launch => LaunchIsTrue(c, job, l, s, g);
    case _ =>
      var s' := Apply(job, s, step);
      assert TrueInv(job, l, s, g) && StatsInv(c, job, l, s, g);
      forall k: nat | k < |Indices(job, g)|
        ensures Slot(job, s', g, k) == Slot(job, s, g, k) && (Clean(job, s', g, k) <==> Clean(job, s, g, k))
      {
      }
  }

  lemma {:induction false} RunKeepsTruth<W(!new)>(job: Job<W>, l: Ledger, s: System, steps: seq<Step<W>>, s': System)
    requires Fit(job) && Wired(job.defaults, job.s) && Exact(job.inner, l)
    requires TruthInv(job, l, s) && Reaches(job, s, steps, s')
    ensures TruthInv(job, l, s')
    decreases |steps|
  {
    if steps != [] {
      var s1 := Apply(job, s, steps[0]);
      StepKeepsSafe(job, s, steps[0]);
      forall g, c: Counter | 0 <= g < |job.order|
        ensures StatsInv(c, job, l, s1, g)
      {
        StepKeepsTruth(c, job, l, s, steps[0], g);
      }
      forall g | 0 <= g < |job.order|
        ensures TrueInv(job, l, s1, g)
      {
        StepKeepsTruth(Singles, job, l, s, steps[0], g);
      }
      RunKeepsTruth(job, l, s1, steps[1..], s');
    }
  }

  lemma StartIsTrue<W>(job: Job<W>, l: Ledger)
    requires Fit(job)
    ensures TruthInv(job, l, Start(job))
  {
    StartIsSafe(job);
  }

  // ---- the call as a whole ----

  /** Where a grouped item's group is in the launch order, and where the item is in the group. */
  lemma Whereabouts<W>(job: Job<W>, i: nat) returns (g: nat, k: nat)
    requires Fit(job) && i < |job.pools| && BulkRefusal(job.s, job.pools[i]).None?
    ensures g < |job.order| && job.order[g] == RouteOf(job.pools[i])
    ensures k < |Indices(job, g)| && Indices(job, g)[k] == i
  {
    var route := RouteOf(job.pools[i]);
    assert route in GroupRoutes(job.s, job.pools, |job.pools|);
    g :| 0 <= g < |job.order| && job.order[g] == route;
    GroupIndicesMeaning(job.s, job.pools, route, |job.pools|);
    assert i in Indices(job, g);
    k :| 0 <= k < |Indices(job, g)| && Indices(job, g)[k] == i;
  }

  /**
   * Over any client: when the call returns, every item has its own input and either metrics or an SDK error, and an
   * item turned away has the error of the single path.
   */
  lemma EveryItemSettled<W>(job: Job<W>, steps: seq<Step<W>>, end: System, i: nat)
    requires Fit(job) && Reaches(job, Start(job), steps, end) && end.returned && i < |job.pools|
    ensures |end.results| == |job.pools| && Settled(end.results[i], job.pools[i])
    ensures BulkRefusal(job.s, job.pools[i]).Some? ==>
              end.results[i] == FinalResult(job.pools[i], Err(BulkRefusal(job.s, job.pools[i]).value))
  {
    StartIsSafe(job);
    RunKeepsSafe(job, Start(job), steps, end);
    if BulkRefusal(job.s, job.pools[i]).None? {
      var g, k := Whereabouts(job, i);
      GroupSettled(job, steps, end, g, k);
    }
  }

  /** Where PrimeAccounts failed, every item of the group has that error and no metrics. */
  lemma GroupSettled<W>(job: Job<W>, steps: seq<Step<W>>, end: System, g: nat, k: nat)
    requires Fit(job) && Reaches(job, Start(job), steps, end) && end.returned
    requires g < |job.order| && k < |Indices(job, g)|
    ensures Sized(job, end)
    ensures Settled(Slot(job, end, g, k), Item(job, g, k))
    ensures end.workers[g].failure.Some? ==>
              Slot(job, end, g, k) == ItemResult(Item(job, g, k), None, Some(ToSDKError(end.workers[g].failure.value)))
  {
    EndIsSafe(job, steps, end, g);
  }

  /** What holds of a group once the call has returned. */
  lemma EndIsSafe<W>(job: Job<W>, steps: seq<Step<W>>, end: System, g: nat)
    requires Fit(job) && Reaches(job, Start(job), steps, end) && end.returned && g < |job.order|
    ensures Sized(job, end) && SlotInv(job, end, g) && end.workers[g].phase.Finished?
  {
    StartIsSafe(job);
    RunKeepsSafe(job, Start(job), steps, end);
    TokensAreWorkers(job, steps, end);
  }

  /** The failure counts the debug metadata reports, over any listing of the codes that occur, miss no failed item. */
  lemma FailuresAddUp<W>(job: Job<W>, steps: seq<Step<W>>, end: System, codes: seq<string>)
    requires Fit(job) && Reaches(job, Start(job), steps, end) && end.returned
    requires Distinct(codes) && forall i | 0 <= i < |end.results| ::
               CodeOf(end.results[i]).Some? ==> CodeOf(end.results[i]).value in codes
    ensures SumFailures(end.results, codes) == AllFailures(end.results)
  {
    StartIsSafe(job);
    RunKeepsSafe(job, Start(job), steps, end);
    forall i | 0 <= i < |end.results|
      ensures end.results[i].error.Some? ==> CodeOf(end.results[i]).Some?
    {
      EveryItemSettled(job, steps, end, i);
    }
    CountsAddUp(end.results, codes);
  }

  /** A failed priming of its group, or a failed read of its own calculator, lies behind an item's outcome. */
  ghost predicate Disturbed<W>(job: Job<W>, s: System, i: nat)
    requires i < |job.pools| && |s.workers| == |job.order|
  {
    || i in s.tainted
    || exists g | 0 <= g < |job.order| :: job.order[g] == RouteOf(job.pools[i]) && s.workers[g].failure.Some?
  }

  /** An item that was turned away, or whose group was primed and whose reads were answered, is fair. */
  lemma UndisturbedItem<W(!new)>(job: Job<W>, l: Ledger, steps: seq<Step<W>>, end: System, i: nat)
    requires Fit(job) && Wired(job.defaults, job.s) && Exact(job.inner, l)
    requires Reaches(job, Start(job), steps, end) && end.returned && i < |job.pools|
    ensures |end.workers| == |job.order| && |end.results| == |job.pools|
    ensures BulkRefusal(job.s, job.pools[i]).Some? || !Disturbed(job, end, i) ==>
              Fair(l, job.s, job.pools[i], end.results[i])
  {
    LengthsAgree(job, steps, end);
    if BulkRefusal(job.s, job.pools[i]).Some? {
      EveryItemSettled(job, steps, end, i);
      PartitionIsExact(job.s, job.pools, i);
      assert MayCome(l, PlanFor(job.s, job.pools[i]), Err(BulkRefusal(job.s, job.pools[i]).value));
    } else if !Disturbed(job, end, i) {
      var g, k := Whereabouts(job, i);
      EndIsFair(job, l, steps, end, g);
      assert Clean(job, end, g, k) && Slot(job, end, g, k) == end.results[i];
    }
  }

  lemma EndIsFair<W(!new)>(job: Job<W>, l: Ledger, steps: seq<Step<W>>, end: System, g: nat)
    requires Fit(job) && Wired(job.defaults, job.s) && Exact(job.inner, l)
    requires Reaches(job, Start(job), steps, end) && end.returned && g < |job.order|
    ensures Sized(job, end) && TrueInv(job, l, end, g) && end.workers[g].phase.Finished?
  {
    StartIsTrue(job, l);
    RunKeepsTruth(job, l, Start(job), steps, end);
    TokensAreWorkers(job, steps, end);
  }

  /** A fair slot of a pool that leaves no choice holds its one outcome. */
  lemma FairIsExpected(l: Ledger, s: Fields, pool: Pool, r: ItemResult)
    requires Fair(l, s, pool, r) && PlanDecided(l, PlanFor(s, pool))
    ensures r == FinalResult(pool, Expected(l, s, pool))
  {
    var outcome :| MayCome(l, PlanFor(s, pool), outcome) && r == FinalResult(pool, outcome);
    PlanComesTo(l, PlanFor(s, pool), outcome);
  }

  /**
   * Bulk refines single: whatever the routes' calculators read and however they fork, whatever the launch order,
   * concurrency limit and interleaving, an item that was turned away, or that no failed read disturbed, ends up with
   * metrics or an error that GetMetricsByPool alone can give through a client that answers from the same ledger; and
   * with exactly what it gives, where the calculator's branches leave no choice of error.
   */
  lemma BulkRefinesSingle<W(!new), V(!new)>(
    inner: Client<W>, ctx: Context, defaults: map<Route, Compute>, s: Fields, pools: seq<Pool>,
    maxConcurrency: int, chunkSize: int, order: seq<Route>, steps: seq<Step<W>>, end: System, i: nat,
    l: Ledger, alone: Client<V>, ctx': Context, cache: Cache, stats: PreloadStats, v: V)
    requires Exact(inner, l) && Wired(defaults, s) && IsOrder(order, GroupRoutes(s, pools, |pools|))
    requires var job := NewJob(inner, ctx, defaults, s, pools, maxConcurrency, chunkSize, order);
             Reaches(job, Start(job), steps, end)
    requires end.returned && i < |pools|
    requires Exact(alone, l) && TableAgrees(l, cache)
    ensures var job := NewJob(inner, ctx, defaults, s, pools, maxConcurrency, chunkSize, order);
            |end.workers| == |order| && |end.results| == |pools| &&
            (BulkRefusal(s, pools[i]).Some? || !Disturbed(job, end, i) ==>
               && (NeverFails(alone, ctx') ==> exists ticks, last, outcome ::
                     Gives(alone, ctx', s, pools[i], cache, stats, ticks, last, outcome, true)
                     && end.results[i] == FinalResult(pools[i], outcome))
               && (PlanDecided(l, PlanFor(s, pools[i])) ==> forall ticks, last, outcome ::
                     Gives(alone, ctx', s, pools[i], cache, stats, ticks, last, outcome, true) ==>
                       end.results[i] == FinalResult(pools[i], outcome)))
  {
    var job := NewJob(inner, ctx, defaults, s, pools, maxConcurrency, chunkSize, order);
    NewJobIsFit(inner, ctx, defaults, s, pools, maxConcurrency, chunkSize, order);
    UndisturbedItem(job, l, steps, end, i);
    if BulkRefusal(s, pools[i]).Some? || !Disturbed(job, end, i) {
      if NeverFails(alone, ctx') {
        var outcome :| MayCome(l, PlanFor(s, pools[i]), outcome) && end.results[i] == FinalResult(pools[i], outcome);
        SingleExactly(alone, l, ctx', s, pools[i], cache, stats, outcome, v);
        var ticks, last :| Gives(alone, ctx', s, pools[i], cache, stats, ticks, last, outcome, true);
        assert Gives(alone, ctx', s, pools[i], cache, stats, ticks, last, outcome, true)
            && end.results[i] == FinalResult(pools[i], outcome);
      }
      if PlanDecided(l, PlanFor(s, pools[i])) {
        FairIsExpected(l, s, pools[i], end.results[i]);
        forall ticks, last, outcome | Gives(alone, ctx', s, pools[i], cache, stats, ticks, last, outcome, true)
          ensures end.results[i] == FinalResult(pools[i], outcome)
        {
          SingleIsExpected(alone, l, ctx', s, pools[i], cache, stats, ticks, last, outcome);
        }
      }
    }
  }

  // ---- schedules do not matter ----

  /** No priming and no read of the run failed. */
  predicate Undisturbed(s: System) {
    s.tainted == {} && forall g | 0 <= g < |s.workers| :: s.workers[g].failure.None?
  }

  /** Nothing in progress has met an unanswered call. */
  ghost predicate WorkerCalm<W>(job: Job<W>, s: System, g: nat)
    requires Sized(job, s) && g < |job.order|
  {
    var me, plans := s.workers[g], Plans(job, g);
    match me.phase
    case Priming(call) => Untroubled(DefaultProvider, PrimeRead(job, g), call)
                          && (call.Answered? ==> call.answer.AccountsAnswer?)
    case Computing(k, process) =>
      k < |plans| && plans[k].Use? ==>
        P.Calm(plans[k].calculator.provider, plans[k].calculation, P.Run(process, me.cache, me.stats, false))
    case _ => true
  }

  ghost predicate CalmInv<W>(job: Job<W>, s: System) {
    Balanced(job, s) && Undisturbed(s) && forall g | 0 <= g < |job.order| :: WorkerCalm(job, s, g)
  }

  lemma MoveCalm<W(!new)>(job: Job<W>, s: System, g: nat, tick: P.Tick<W>)
    requires Fit(job) && NeverFails(job.inner, job.ctx) && CalmInv(job, s) && Enabled(job, s, Move(g, tick))
    ensures Undisturbed(Apply(job, s, Move(g, tick)))
    ensures Sized(job, Apply(job, s, Move(g, tick))) && WorkerCalm(job, Apply(job, s, Move(g, tick)), g)
  {
    var me, plans := s.workers[g], Plans(job, g);
    assert WorkerInv(job, s, g) && WorkerCalm(job, s, g);
    TouchTaints(job, s, g, tick);
    MoveShape(job, s, g, tick);
    if me.phase.Priming? && !me.phase.call.Answered? {
      ProceedUntroubled(PrimeDesk(job), PrimeRead(job, g), me.phase.call, tick.w, me.cache);
    } else if InProcess(me.phase, plans) {
      var Use(c, p) := plans[me.phase.k];
      P.AdvanceCalm(DeskOf(job.inner, job.ctx, c), p, P.Run(me.phase.process, me.cache, me.stats, false), tick);
    }
  }

  lemma StepCalm<W(!new)>(job: Job<W>, s: System, step: Step<W>)
    requires Fit(job) && NeverFails(job.inner, job.ctx) && CalmInv(job, s) && Enabled(job, s, step)
    ensures CalmInv(job, Apply(job, s, step))
  {
    var s' := Apply(job, s, step);
    StepKeepsBalanced(job, s, step);
    if step.Move? {
      MoveCalm(job, s, step.g, step.tick);
      MoveShape(job, s, step.g, step.tick);
    }
    forall g | 0 <= g < |job.order|
      ensures WorkerCalm(job, s', g)
    {
      assert WorkerCalm(job, s, g);
    }
  }

  /** Over a client that never fails, no run is disturbed. */
  lemma {:induction false} RunUndisturbed<W(!new)>(job: Job<W>, s: System, steps: seq<Step<W>>, s': System)
    requires Fit(job) && NeverFails(job.inner, job.ctx) && CalmInv(job, s) && Reaches(job, s, steps, s')
    ensures Undisturbed(s')
    decreases |steps|
  {
    if steps != [] {
      StepCalm(job, s, steps[0]);
      RunUndisturbed(job, Apply(job, s, steps[0]), steps[1..], s');
    }
  }

  lemma StartIsCalm<W>(job: Job<W>)
    requires Fit(job)
    ensures CalmInv(job, Start(job))
  {
    StartIsBalanced(job);
  }

  function TotalOf(each: Route -> int, order: seq<Route>): int {
    if order == [] then 0 else TotalOf(each, order[..|order| - 1]) + each(order[|order| - 1])
  }

  function Without(order: seq<Route>, j: nat): seq<Route>
    requires j < |order|
  {
    order[..j] + order[j + 1..]
  }

  lemma {:induction false} TotalWithout(each: Route -> int, order: seq<Route>, j: nat)
    requires j < |order|
    ensures TotalOf(each, order) == TotalOf(each, Without(order, j)) + each(order[j])
  {
    var n := |order| - 1;
    var rest := Without(order, j);
    if j < n {
      TotalWithout(each, order[..n], j);
      assert Without(order[..n], j) == rest[..n - 1];
      assert rest[n - 1] == order[n];
    } else {
      assert rest == order[..n];
    }
  }

  lemma WithoutKeeps(order: seq<Route>, j: nat, r: Route)
    requires j < |order| && Distinct(order)
    ensures r in Without(order, j) <==> r in order && r != order[j]
    ensures Distinct(Without(order, j))
  {
    var rest := Without(order, j);
    if r in order && r != order[j] {
      var k :| 0 <= k < |order| && order[k] == r;
      assert r == rest[if k < j then k else k - 1];
    }
  }

  /** The total does not depend on the order the groups came in. */
  lemma {:induction false} TotalOfAnyOrder(each: Route -> int, a: seq<Route>, b: seq<Route>)
    requires Distinct(a) && Distinct(b) && forall r :: r in a <==> r in b
    ensures TotalOf(each, a) == TotalOf(each, b)
    decreases |a|
  {
    assert forall k | 0 <= k < |b| :: b[k] in a;
    if a != [] {
      var n := |a| - 1;
      assert a[n] in b;
      var j :| 0 <= j < |b| && b[j] == a[n];
      assert Without(a, n) == a[..n];
      forall r
        ensures r in a[..n] <==> r in Without(b, j)
      {
        WithoutKeeps(a, n, r);
        WithoutKeeps(b, j, r);
      }
      WithoutKeeps(b, j, b[j]);
      TotalOfAnyOrder(each, a[..n], Without(b, j));
      TotalWithout(each, b, j);
    }
  }

  lemma {:induction false} TotalOfWorkers(c: Counter, each: Route -> int, workers: seq<Worker>, order: seq<Route>)
    requires |workers| == |order|
    requires forall g | 0 <= g < |workers| :: workers[g].phase.Finished? && Count(c, workers[g].stats) == each(order[g])
    ensures Sum(Totalled(c), workers) == TotalOf(each, order)
  {
    if workers != [] {
      var n := |workers| - 1;
      TotalOfWorkers(c, each, workers[..n], order[..n]);
    }
  }

  /** A grouped pool's calculation, in the service of its group and from the group's addresses on, is steady. */
  ghost predicate PoolSteady(l: Ledger, defaults: map<Route, Compute>, s: Fields, pools: seq<Pool>, i: nat)
    requires i < |pools|
  {
    var route := RouteOf(pools[i]);
    PlanSteady(l, PlanFor(GroupService(defaults, s, route), pools[i]), Primed(s, pools, route))
  }

  ghost predicate PoolsSteady(l: Ledger, defaults: map<Route, Compute>, s: Fields, pools: seq<Pool>) {
    forall i: nat | i < |pools| && BulkRefusal(s, pools[i]).None? :: PoolSteady(l, defaults, s, pools, i)
  }

  lemma GroupsSteady<W>(job: Job<W>, l: Ledger, g: nat)
    requires Fit(job) && PoolsSteady(l, job.defaults, job.s, job.pools) && g < |job.order|
    ensures AllSteady(l, Plans(job, g), PrimedAt(job, g))
  {
    GroupIndicesMeaning(job.s, job.pools, job.order[g], |job.pools|);
    forall k: nat | k < |Plans(job, g)|
      ensures PlanSteady(l, Plans(job, g)[k], PrimedAt(job, g))
    {
      assert Indices(job, g)[k] in Indices(job, g);
      assert PoolSteady(l, job.defaults, job.s, job.pools, Indices(job, g)[k]);
    }
  }

  lemma FinishedOnBudget<W>(c: Counter, job: Job<W>, l: Ledger, end: System, g: nat)
    requires Sized(job, end) && g < |job.order| && StatsInv(c, job, l, end, g)
    requires AllSteady(l, Plans(job, g), PrimedAt(job, g)) && Undisturbed(end) && end.workers[g].phase.Finished?
    ensures Count(c, end.workers[g].stats) == RouteDue(c, l, job.defaults, job.s, job.pools)(job.order[g])
  {
    assert Unfaulted(job, end, g);
    assert OnBudget(c, job, l, Plans(job, g), PrimedAt(job, g), end.workers[g]);
  }

  lemma FinishedTotal<W>(c: Counter, job: Job<W>, l: Ledger, end: System)
    requires Sized(job, end) && TotalInv(end) && Undisturbed(end)
    requires forall g | 0 <= g < |job.order| ::
               && StatsInv(c, job, l, end, g) && AllSteady(l, Plans(job, g), PrimedAt(job, g))
               && end.workers[g].phase.Finished?
    ensures Count(c, end.total) == TotalOf(RouteDue(c, l, job.defaults, job.s, job.pools), job.order)
  {
    var each := RouteDue(c, l, job.defaults, job.s, job.pools);
    forall g: nat | g < |end.workers|
      ensures end.workers[g].phase.Finished? && Count(c, end.workers[g].stats) == each(job.order[g])
    {
      FinishedOnBudget(c, job, l, end, g);
    }
    TotalOfWorkers(c, each, end.workers, job.order);
  }

  /** What holds of a group once the call has returned. */
  lemma EndIsTrue<W(!new)>(c: Counter, job: Job<W>, l: Ledger, steps: seq<Step<W>>, end: System, g: nat)
    requires Fit(job) && Wired(job.defaults, job.s) && Exact(job.inner, l)
    requires Reaches(job, Start(job), steps, end) && end.returned && g < |job.order|
    ensures Sized(job, end) && StatsInv(c, job, l, end, g) && end.workers[g].phase.Finished?
  {
    StartIsTrue(job, l);
    RunKeepsTruth(job, l, Start(job), steps, end);
    TokensAreWorkers(job, steps, end);
  }

  lemma EndTotal<W>(job: Job<W>, steps: seq<Step<W>>, end: System)
    requires Fit(job) && Reaches(job, Start(job), steps, end)
    ensures Sized(job, end) && TotalInv(end)
  {
    StartIsSafe(job);
    RunKeepsSafe(job, Start(job), steps, end);
  }

  /** What an undisturbed call reports in its counters: its schedule has no say in them. */
  lemma UndisturbedTotal<W(!new)>(c: Counter, job: Job<W>, l: Ledger, steps: seq<Step<W>>, end: System)
    requires Fit(job) && Wired(job.defaults, job.s) && Exact(job.inner, l)
    requires PoolsSteady(l, job.defaults, job.s, job.pools)
    requires Reaches(job, Start(job), steps, end) && end.returned && Undisturbed(end)
    ensures Count(c, end.total) == TotalOf(RouteDue(c, l, job.defaults, job.s, job.pools), job.order)
  {
    EndTotal(job, steps, end);
    forall g: nat | g < |job.order|
      ensures StatsInv(c, job, l, end, g) && end.workers[g].phase.Finished?
      ensures AllSteady(l, Plans(job, g), PrimedAt(job, g))
    {
      EndIsTrue(c, job, l, steps, end, g);
      GroupsSteady(job, l, g);
    }
    FinishedTotal(c, job, l, end);
  }

  /**
   * Two undisturbed calls for the same pools agree, whatever their launch orders, concurrency limits, chunk sizes,
   * interleavings and clients: on every item whose calculator's branches leave no choice of error, and, where no branch
   * fails by itself, on the counters.  The ledger alone decides.
   */
  lemma SchedulesAgree<W(!new), V(!new)>(
    a: Job<W>, b: Job<V>, l: Ledger, aSteps: seq<Step<W>>, bSteps: seq<Step<V>>, aEnd: System, bEnd: System)
    requires Fit(a) && Fit(b) && Exact(a.inner, l) && Exact(b.inner, l)
    requires Wired(a.defaults, a.s) && (a.defaults, a.s, a.pools) == (b.defaults, b.s, b.pools)
    requires Reaches(a, Start(a), aSteps, aEnd) && aEnd.returned && Undisturbed(aEnd)
    requires Reaches(b, Start(b), bSteps, bEnd) && bEnd.returned && Undisturbed(bEnd)
    ensures |aEnd.results| == |bEnd.results| == |a.pools|
    ensures forall i | 0 <= i < |a.pools| :: PlanDecided(l, PlanFor(a.s, a.pools[i])) ==>
              aEnd.results[i] == bEnd.results[i] == FinalResult(a.pools[i], Expected(l, a.s, a.pools[i]))
    ensures PoolsSteady(l, a.defaults, a.s, a.pools) ==> aEnd.total == bEnd.total
  {
    TokensAreWorkers(a, aSteps, aEnd);
    TokensAreWorkers(b, bSteps, bEnd);
    LengthsAgree(a, aSteps, aEnd);
    LengthsAgree(b, bSteps, bEnd);
    forall i | 0 <= i < |a.pools| && PlanDecided(l, PlanFor(a.s, a.pools[i]))
      ensures aEnd.results[i] == bEnd.results[i] == FinalResult(a.pools[i], Expected(l, a.s, a.pools[i]))
    {
      DecidedItem(a, l, aSteps, aEnd, i);
      DecidedItem(b, l, bSteps, bEnd, i);
    }
    if PoolsSteady(l, a.defaults, a.s, a.pools) {
      forall c: Counter
        ensures Count(c, aEnd.total) == Count(c, bEnd.total)
      {
        UndisturbedTotal(c, a, l, aSteps, aEnd);
        UndisturbedTotal(c, b, l, bSteps, bEnd);
        TotalOfAnyOrder(RouteDue(c, l, a.defaults, a.s, a.pools), a.order, b.order);
      }
      SameCounts(aEnd.total, bEnd.total);
    }
  }

  lemma LengthsAgree<W>(job: Job<W>, steps: seq<Step<W>>, end: System)
    requires Fit(job) && Reaches(job, Start(job), steps, end)
    ensures Sized(job, end)
  {
    StartIsBalanced(job);
    RunKeepsBalanced(job, Start(job), steps, end);
  }

  /** In an undisturbed call, a pool that leaves no choice has its one outcome. */
  lemma DecidedItem<W(!new)>(job: Job<W>, l: Ledger, steps: seq<Step<W>>, end: System, i: nat)
    requires Fit(job) && Wired(job.defaults, job.s) && Exact(job.inner, l)
    requires Reaches(job, Start(job), steps, end) && end.returned && Undisturbed(end)
    requires i < |job.pools| && PlanDecided(l, PlanFor(job.s, job.pools[i]))
    ensures |end.results| == |job.pools|
    ensures end.results[i] == FinalResult(job.pools[i], Expected(l, job.s, job.pools[i]))
  {
    UndisturbedItem(job, l, steps, end, i);
    LengthsAgree(job, steps, end);
    FairIsExpected(l, job.s, job.pools[i], end.results[i]);
  }
}
