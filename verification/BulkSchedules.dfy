/**
 * What schedules of a bulk call can bring about: a worker can be brought to any item of its group, and there follow any
 * course of its calculation.
 */
module BulkSchedules {
  import opened Basics
  import opened Errors
  import opened Rpc
  import opened Batching
  import opened Preload
  import opened Calculators
  import opened Calls
  import opened Calculations
  import opened CostSchedules
  import opened Service
  import opened Bulk
  import opened BulkProtocol
  import S = Schedules

  lemma {:induction false} StepsOn<W>(
    job: Job<W>, s: System, steps: seq<Step<W>>, mid: System, more: seq<Step<W>>, end: System)
    requires Reaches(job, s, steps, mid) && Reaches(job, mid, more, end)
    ensures Reaches(job, s, steps + more, end)
    decreases |steps|
  {
    if steps == [] {
      assert steps + more == more;
    } else {
      assert (steps + more)[1..] == steps[1..] + more;
      StepsOn(job, Apply(job, s, steps[0]), steps[1..], mid, more, end);
    }
  }

  lemma OneStep<W>(job: Job<W>, s: System, step: Step<W>)
    requires Enabled(job, s, step)
    ensures Reaches(job, s, [step], Apply(job, s, step))
  {
    assert [step][1..] == [];
  }

  // ---- primed reads stay local ----

  /** It asks only what it has to ask when the primed addresses are cached. */
  predicate StaysLocal(source: Source, primed: set<Address>, read: Read, call: Call) {
    Exposed(call) ==> Open(source, primed, read)
  }

  predicate ReadsStayLocal(source: Source, primed: set<Address>, c: Calculation, process: P.Process) {
    match process
    case Main(h, call) =>
      call.Some? && c.next(h).Consult? ==> StaysLocal(source, primed, c.next(h).read, call.value)
    case Forked(_, branches, _, threads) =>
      |branches| == |threads| &&
      forall t | 0 <= t < |threads| && threads[t].call.Some? && branches[t].act(threads[t].h).Ask? ::
        StaysLocal(source, primed, branches[t].act(threads[t].h).read, threads[t].call.value)
    case Concluded(_) => true
  }

  /**
   * In every interleaving, over any client, no read of addresses of the group reaches the client once priming has
   * succeeded, be it made by the calculator or by one of its branches.
   */
  lemma NoPrimedReadAsks<W>(job: Job<W>, steps: seq<Step<W>>, s: System, g: nat)
    requires Fit(job) && Reaches(job, Start(job), steps, s) && g < |job.order|
    ensures Sized(job, s)
    ensures InProcess(s.workers[g].phase, Plans(job, g)) ==>
              var plan := Plans(job, g)[s.workers[g].phase.k];
              ReadsStayLocal(plan.calculator.source, PrimedAt(job, g), plan.calculation, s.workers[g].phase.process)
  {
    StartIsSafe(job);
    RunKeepsSafe(job, Start(job), steps, s);
    assert CacheInv(job, s, g);
    if InProcess(s.workers[g].phase, Plans(job, g)) {
      var Use(c, p) := Plans(job, g)[s.workers[g].phase.k];
      var cache := s.workers[g].cache;
      match s.workers[g].phase.process
      case Main(h, call) =>
        if call.Some? && p.next(h).Consult? && Exposed(call.value) {
          ExposedIsOpen(c.source, PrimedAt(job, g), p.next(h).read, cache, call.value);
        }
      case Forked(_, branches, _, threads) =>
        forall t | 0 <= t < |threads| && threads[t].call.Some? && branches[t].act(threads[t].h).Ask?
          ensures StaysLocal(c.source, PrimedAt(job, g), branches[t].act(threads[t].h).read, threads[t].call.value)
        {
          if Exposed(threads[t].call.value) {
            ExposedIsOpen(c.source, PrimedAt(job, g), branches[t].act(threads[t].h).read, cache,
                          threads[t].call.value);
          }
        }
    }
  }

  /** Item k of group g reads what priming has put into the cache, and nothing else. */
  ghost predicate ReadsPrimed<W>(job: Job<W>, g: nat, k: nat)
    requires g < |job.order| && k < |Plans(job, g)|
  {
    var plan := Plans(job, g)[k];
    plan.Use? ==> P.ReadsWithin(plan.calculator.source, PrimedAt(job, g), plan.calculation)
  }

  lemma StepKeepsClean<W>(job: Job<W>, s: System, step: Step<W>, g: nat, k: nat)
    requires Fit(job) && SafeInv(job, s) && Enabled(job, s, step) && g < |job.order| && k < |Indices(job, g)|
    requires ReadsPrimed(job, g, k) && Clean(job, s, g, k)
    ensures Clean(job, Apply(job, s, step), g, k)
  {
    if step.Move? {
      if step.g != g {
        OthersUntouched(job, s, step.g, step.tick, g, k);
      } else if InProcess(s.workers[g].phase, Plans(job, g)) {
        var at := s.workers[g].phase.k;
        TouchTaints(job, s, g, step.tick);
        if at == k {
          assert CacheInv(job, s, g) && WorkerInv(job, s, g);
          var Use(c, p) := Plans(job, g)[k];
          P.AdvanceStaysWithin(DeskOf(job.inner, job.ctx, c), PrimedAt(job, g), p,
                               P.Run(s.workers[g].phase.process, s.workers[g].cache, s.workers[g].stats, false),
                               step.tick);
        } else {
          IndicesApart(job, g, g, at, k);
        }
      } else {
        TouchTaints(job, s, g, step.tick);
      }
    }
  }

  lemma {:induction false} RunKeepsClean<W>(
    job: Job<W>, s: System, steps: seq<Step<W>>, end: System, g: nat, k: nat)
    requires Fit(job) && SafeInv(job, s) && g < |job.order| && k < |Indices(job, g)|
    requires ReadsPrimed(job, g, k) && Clean(job, s, g, k) && Reaches(job, s, steps, end)
    ensures Clean(job, end, g, k)
    decreases |steps|
  {
    if steps != [] {
      StepKeepsSafe(job, s, steps[0]);
      StepKeepsClean(job, s, steps[0], g, k);
      RunKeepsClean(job, Apply(job, s, steps[0]), steps[1..], end, g, k);
    }
  }

  lemma DisturbedByGroup<W>(job: Job<W>, s: System, g: nat, k: nat)
    requires Fit(job) && Sized(job, s) && g < |job.order| && k < |Indices(job, g)|
    ensures Disturbed(job, s, Indices(job, g)[k]) ==> !Clean(job, s, g, k) || s.workers[g].failure.Some?
  {
    var i := Indices(job, g)[k];
    GroupIndicesMeaning(job.s, job.pools, job.order[g], |job.pools|);
    assert i in Indices(job, g);
    assert RouteOf(job.pools[i]) == job.order[g];
  }

  /** So an item that reads primed addresses only loses no read, whatever the client does after the priming. */
  lemma PrimedItemUndisturbed<W>(job: Job<W>, steps: seq<Step<W>>, s: System, g: nat, k: nat)
    requires Fit(job) && Reaches(job, Start(job), steps, s) && g < |job.order| && k < |Indices(job, g)|
    requires ReadsPrimed(job, g, k)
    ensures Sized(job, s) && Clean(job, s, g, k)
    ensures Disturbed(job, s, Indices(job, g)[k]) ==> s.workers[g].failure.Some?
  {
    StartIsSafe(job);
    RunKeepsSafe(job, Start(job), steps, s);
    RunKeepsClean(job, Start(job), steps, s, g, k);
    DisturbedByGroup(job, s, g, k);
  }

  // ---- a worker brought to an item ----

  predicate Before(phase: Phase, k: nat) {
    match phase
    case Waiting => true
    case Priming(_) => true
    case Picking(j) => j <= k
    case Computing(j, _) => j < k
    case _ => false
  }

  lemma NextStaysBefore<W(!new)>(job: Job<W>, s: System, g: nat, k: nat, tick: P.Tick<W>)
    requires CalmInv(job, s) && Enabled(job, s, Move(g, tick)) && k < |Plans(job, g)|
    requires Before(s.workers[g].phase, k) && s.workers[g].phase != Picking(k)
    ensures Before(Next(job, s, g, tick).phase, k)
  {
    assert WorkerCalm(job, s, g) && WorkerInv(job, s, g);
  }

  lemma {:induction false} RunsToItem<W(!new)>(job: Job<W>, s: System, g: nat, k: nat, w: W)
    returns (steps: seq<Step<W>>, end: System)
    requires Fit(job) && NeverFails(job.inner, job.ctx) && CalmInv(job, s)
    requires g < |job.order| && k < |Plans(job, g)| && Before(s.workers[g].phase, k)
    ensures Reaches(job, s, steps, end) && CalmInv(job, end) && end.workers[g].phase == Picking(k) && !end.returned
    decreases Remaining(job, s)
  {
    if s.returned {
      SumZeroMeans(Lives, s.workers);
      assert false;
    }
    if s.workers[g].phase == Picking(k) {
      steps, end := [], s;
    } else {
      var step := NeverStuck(job, s, w);
      var s' := Apply(job, s, step);
      StepCalm(job, s, step);
      StepWorks(job, s, step);
      RemainingIsNatural(job, s);
      RemainingIsNatural(job, s');
      OneStep(job, s, step);
      if step.Move? {
        MoveShape(job, s, step.g, step.tick);
        if step.g == g {
          NextStaysBefore(job, s, g, k, step.tick);
        } else {
          assert s'.workers[g] == s.workers[g];
        }
      }
      var more;
      more, end := RunsToItem(job, s', g, k, w);
      StepsOn(job, s, [step], s', more, end);
      steps := [step] + more;
    }
  }

  // ---- a worker following a calculation ----

  function Moves<W>(g: nat, ticks: seq<P.Tick<W>>): seq<Step<W>> {
    seq(|ticks|, i requires 0 <= i < |ticks| => Move(g, ticks[i]))
  }

  /** The worker is at a state of its item's calculation. */
  ghost predicate At<W>(job: Job<W>, s: System, g: nat, k: nat, run: P.Run) {
    && Sized(job, s) && g < |job.order| && k < |Plans(job, g)| && Plans(job, g)[k].Use? && !s.returned
    && s.workers[g] == Worker(Computing(k, run.process), run.cache, run.stats, None)
    && (Indices(job, g)[k] in s.tainted <==> run.faulted)
  }

  lemma TickFollows<W>(job: Job<W>, s: System, g: nat, k: nat, run: P.Run, tick: P.Tick<W>)
    requires At(job, s, g, k, run) && P.CanTick(run.process, tick)
    ensures Enabled(job, s, Move(g, tick))
    ensures var Use(c, p) := Plans(job, g)[k];
            At(job, Apply(job, s, Move(g, tick)), g, k, P.Advance(DeskOf(job.inner, job.ctx, c), p, run, tick))
  {
    MoveShape(job, s, g, tick);
    TouchTaints(job, s, g, tick);
  }

  lemma {:induction false} WorkerFollows<W>(
    job: Job<W>, s: System, g: nat, k: nat, run: P.Run, ticks: seq<P.Tick<W>>, end: P.Run)
    returns (s': System)
    requires At(job, s, g, k, run)
    requires var Use(c, p) := Plans(job, g)[k]; P.Reaches(DeskOf(job.inner, job.ctx, c), p, run, ticks, end)
    ensures Reaches(job, s, Moves(g, ticks), s') && At(job, s', g, k, end)
    decreases |ticks|
  {
    if ticks == [] {
      s' := s;
    } else {
      var Use(c, p) := Plans(job, g)[k];
      TickFollows(job, s, g, k, run, ticks[0]);
      var s1 := Apply(job, s, Move(g, ticks[0]));
      s' := WorkerFollows(job, s1, g, k, P.Advance(DeskOf(job.inner, job.ctx, c), p, run, ticks[0]), ticks[1..], end);
      assert Moves(g, ticks)[1..] == Moves(g, ticks[1..]);
    }
  }

  // ---- what it comes to is what the slot holds in the end ----

  ghost predicate Promised<W>(job: Job<W>, s: System, g: nat, k: nat, outcome: Result<Metrics, Error>) {
    && SafeInv(job, s) && g < |job.order| && k < |Indices(job, g)|
    && (|| s.workers[g].phase == Computing(k, P.Concluded(outcome))
        || (k < Through(s.workers[g].phase, |Plans(job, g)|)
            && Slot(job, s, g, k) == FinalResult(Item(job, g, k), outcome)))
  }

  lemma StepKeepsPromise<W>(
    job: Job<W>, s: System, step: Step<W>, g: nat, k: nat, outcome: Result<Metrics, Error>)
    requires Fit(job) && Promised(job, s, g, k, outcome) && Enabled(job, s, step)
    ensures Promised(job, Apply(job, s, step), g, k, outcome)
  {
    StepKeepsSafe(job, s, step);
    assert SlotInv(job, s, g) && WorkerInv(job, s, g);
    match step
    case Move(g', tick) =>
      MoveShape(job, s, g', tick);
      if g' == g {
        OwnSlots(job, s, g, tick, k);
        NextFailure(job, s, g, tick);
      } else {
        assert Apply(job, s, step).workers[g] == s.workers[g];
        OthersUntouched(job, s, g', tick, g, k);
      }
    case _ =>
      assert Apply(job, s, step).workers[g].phase == s.workers[g].phase;
  }

  lemma {:induction false} RunKeepsPromise<W>(
    job: Job<W>, s: System, steps: seq<Step<W>>, end: System, g: nat, k: nat, outcome: Result<Metrics, Error>)
    requires Fit(job) && Promised(job, s, g, k, outcome) && Reaches(job, s, steps, end)
    ensures Promised(job, end, g, k, outcome)
    decreases |steps|
  {
    if steps != [] {
      StepKeepsPromise(job, s, steps[0], g, k, outcome);
      RunKeepsPromise(job, Apply(job, s, steps[0]), steps[1..], end, g, k, outcome);
    }
  }

  // ---- every outcome of the single path ----

  /** A worker about to pick item k, on an undisturbed schedule. */
  lemma BroughtToItem<W(!new)>(job: Job<W>, l: Ledger, g: nat, k: nat, w: W)
    returns (steps: seq<Step<W>>, s: System)
    requires Fit(job) && Wired(job.defaults, job.s) && Exact(job.inner, l) && NeverFails(job.inner, job.ctx)
    requires g < |job.order| && k < |Plans(job, g)|
    ensures Reaches(job, Start(job), steps, s) && SafeInv(job, s) && CalmInv(job, s) && !s.returned
    ensures s.workers[g].phase == Picking(k) && TableAgrees(l, s.workers[g].cache)
    ensures k == 0 ==> s.workers[g].cache.Keys == PrimedAt(job, g)
  {
    StartIsCalm(job);
    steps, s := RunsToItem(job, Start(job), g, k, w);
    StartIsSafe(job);
    RunKeepsSafe(job, Start(job), steps, s);
    StartIsTrue(job, l);
    RunKeepsTruth(job, l, Start(job), steps, s);
    assert TrueInv(job, l, s, g) && CacheInv(job, s, g);
  }

  lemma PickIsAt<W>(job: Job<W>, s: System, g: nat, k: nat, w: W)
    requires CalmInv(job, s) && !s.returned && g < |job.order| && k < |Plans(job, g)|
    requires s.workers[g].phase == Picking(k)
    ensures Enabled(job, s, Move(g, P.Go(w)))
    ensures var s' := Apply(job, s, Move(g, P.Go(w)));
            match Plans(job, g)[k]
            case Use(_, _) => At(job, s', g, k, P.Run(P.START, s.workers[g].cache, s.workers[g].stats, false))
            case Refuse(e) => Sized(job, s') && s'.workers[g].phase == Computing(k, P.Concluded(Err(e)))
  {
    MoveShape(job, s, g, P.Go(w));
    TouchTaints(job, s, g, P.Go(w));
    assert WorkerInv(job, s, g);
  }

  /** A schedule on which item k of group g comes to an outcome the ledger allows it. */
  lemma ItemComesTo<W(!new)>(job: Job<W>, l: Ledger, g: nat, k: nat, outcome: Result<Metrics, Error>, w: W)
    returns (steps: seq<Step<W>>, s: System)
    requires Fit(job) && Wired(job.defaults, job.s) && Exact(job.inner, l) && NeverFails(job.inner, job.ctx)
    requires g < |job.order| && k < |Plans(job, g)| && MayCome(l, Plans(job, g)[k], outcome)
    ensures Reaches(job, Start(job), steps, s) && Sized(job, s)
    ensures s.workers[g].phase == Computing(k, P.Concluded(outcome))
  {
    var before;
    steps, before := BroughtToItem(job, l, g, k, w);
    PickIsAt(job, before, g, k, w);
    OneStep(job, before, Move(g, P.Go(w)));
    s := Apply(job, before, Move(g, P.Go(w)));
    StepsOn(job, Start(job), steps, before, [Move(g, P.Go(w))], s);
    steps := steps + [Move(g, P.Go(w))];
    if Plans(job, g)[k].Use? {
      var Use(c, p) := Plans(job, g)[k];
      var cache, stats := before.workers[g].cache, before.workers[g].stats;
      var run := P.Run(P.START, cache, stats, false);
      S.OutcomesExactly(DeskOf(job.inner, job.ctx, c), l, p, cache, stats, outcome, w);
      var ticks, last :| S.EndsIn(DeskOf(job.inner, job.ctx, c), p, run, ticks, last, outcome);
      var picked := s;
      s := WorkerFollows(job, picked, g, k, run, ticks, last);
      StepsOn(job, Start(job), steps, picked, Moves(g, ticks), s);
      steps := steps + Moves(g, ticks);
    }
  }

  lemma GroupedComesTo<W(!new)>(job: Job<W>, l: Ledger, i: nat, outcome: Result<Metrics, Error>, w: W)
    returns (steps: seq<Step<W>>, end: System)
    requires Fit(job) && Wired(job.defaults, job.s) && Exact(job.inner, l) && NeverFails(job.inner, job.ctx)
    requires i < |job.pools| && BulkRefusal(job.s, job.pools[i]).None?
    requires MayCome(l, PlanFor(job.s, job.pools[i]), outcome)
    ensures Reaches(job, Start(job), steps, end) && end.returned
    ensures |end.results| == |job.pools| && end.results[i] == FinalResult(job.pools[i], outcome)
  {
    var g, k := Whereabouts(job, i);
    PlanIsFair(job, l, g, k);
    var before, s := ItemComesTo(job, l, g, k, outcome, w);
    StartIsSafe(job);
    RunKeepsSafe(job, Start(job), before, s);
    assert Promised(job, s, g, k, outcome);
    var more;
    more, end := RunsToReturn(job, s, w);
    RunKeepsPromise(job, s, more, end, g, k, outcome);
    StepsOn(job, Start(job), before, s, more, end);
    steps := before + more;
    TokensAreWorkers(job, steps, end);
    assert end.workers[g].phase.Finished?;
  }

  ghost predicate SomeRunGives<W(!new)>(job: Job<W>, i: nat, r: ItemResult) {
    exists steps, end ::
      Reaches(job, Start(job), steps, end) && end.returned && i < |end.results| && end.results[i] == r
  }

  /**
   * Over a client that never fails, what an item can hold when the call returns, over all schedules, is exactly what
   * GetMetricsByPool can come to alone.
   */
  lemma BulkOutcomesExactly<W(!new)>(job: Job<W>, l: Ledger, i: nat, r: ItemResult, w: W)
    requires Fit(job) && Wired(job.defaults, job.s) && Exact(job.inner, l) && NeverFails(job.inner, job.ctx)
    requires i < |job.pools|
    ensures SomeRunGives(job, i, r) <==> Fair(l, job.s, job.pools[i], r)
  {
    forall steps, end | Reaches(job, Start(job), steps, end) && end.returned
      ensures i < |end.results| && Fair(l, job.s, job.pools[i], end.results[i])
    {
      StartIsCalm(job);
      RunUndisturbed(job, Start(job), steps, end);
      LengthsAgree(job, steps, end);
      UndisturbedItem(job, l, steps, end, i);
    }
    if Fair(l, job.s, job.pools[i], r) {
      var outcome :| MayCome(l, PlanFor(job.s, job.pools[i]), outcome) && r == FinalResult(job.pools[i], outcome);
      if BulkRefusal(job.s, job.pools[i]).None? {
        var steps, end := GroupedComesTo(job, l, i, outcome, w);
        assert Reaches(job, Start(job), steps, end) && end.returned && i < |end.results| && end.results[i] == r;
      } else {
        StartIsBalanced(job);
        var steps, end := RunsToReturn(job, Start(job), w);
        EveryItemSettled(job, steps, end, i);
        PartitionIsExact(job.s, job.pools, i);
        assert Reaches(job, Start(job), steps, end) && end.returned && i < |end.results| && end.results[i] == r;
      }
    }
  }

  /** The same, said of the single path itself. */
  lemma BulkGivesWhatSingleGives<W(!new), V(!new)>(
    job: Job<W>, l: Ledger, i: nat, r: ItemResult, w: W,
    alone: Client<V>, ctx: Context, cache: Cache, stats: PreloadStats, v: V)
    requires Fit(job) && Wired(job.defaults, job.s) && Exact(job.inner, l) && NeverFails(job.inner, job.ctx)
    requires i < |job.pools| && Exact(alone, l) && NeverFails(alone, ctx) && TableAgrees(l, cache)
    ensures SomeRunGives(job, i, r) <==> exists ticks, last, outcome ::
              Gives(alone, ctx, job.s, job.pools[i], cache, stats, ticks, last, outcome, true)
              && r == FinalResult(job.pools[i], outcome)
  {
    BulkOutcomesExactly(job, l, i, r, w);
    forall outcome
      ensures MayCome(l, PlanFor(job.s, job.pools[i]), outcome) <==> exists ticks, last ::
                Gives(alone, ctx, job.s, job.pools[i], cache, stats, ticks, last, outcome, true)
    {
      SingleExactly(alone, l, ctx, job.s, job.pools[i], cache, stats, outcome, v);
    }
  }

  // ---- the totals of a request for one pool ----

  /** The worker is through with its calculations, and has these counters. */
  ghost predicate Counted<W>(job: Job<W>, s: System, g: nat, stats: PreloadStats) {
    && SafeInv(job, s) && g < |job.order| && s.workers[g].stats == stats && s.workers[g].failure.None?
    && match s.workers[g].phase
       case Computing(k, process) => k + 1 == |Plans(job, g)| && process.Concluded?
       case phase => Through(phase, |Plans(job, g)|) == |Plans(job, g)| && !phase.Failing?
  }

  lemma StepKeepsCounted<W>(job: Job<W>, s: System, step: Step<W>, g: nat, stats: PreloadStats)
    requires Fit(job) && Counted(job, s, g, stats) && |Plans(job, g)| > 0 && Enabled(job, s, step)
    ensures Counted(job, Apply(job, s, step), g, stats)
  {
    StepKeepsSafe(job, s, step);
    assert WorkerInv(job, s, g);
    if step.Move? {
      MoveShape(job, s, step.g, step.tick);
      if step.g != g {
        assert Apply(job, s, step).workers[g] == s.workers[g];
      }
    } else {
      assert Apply(job, s, step).workers[g] == s.workers[g];
    }
  }

  lemma {:induction false} RunKeepsCounted<W>(
    job: Job<W>, s: System, steps: seq<Step<W>>, end: System, g: nat, stats: PreloadStats)
    requires Fit(job) && Counted(job, s, g, stats) && |Plans(job, g)| > 0 && Reaches(job, s, steps, end)
    ensures Counted(job, end, g, stats)
    decreases |steps|
  {
    if steps != [] {
      StepKeepsCounted(job, s, steps[0], g, stats);
      RunKeepsCounted(job, Apply(job, s, steps[0]), steps[1..], end, g, stats);
    }
  }

  lemma TotalOfOne(s: System, stats: PreloadStats)
    requires TotalInv(s) && |s.workers| == 1 && s.workers[0].phase.Finished? && s.workers[0].stats == stats
    ensures s.total == stats
  {
    forall c: Counter
      ensures Count(c, s.total) == Count(c, stats)
    {
      assert s.workers[..0] == [];
      assert Sum(Totalled(c), s.workers) == Sum(Totalled(c), s.workers[..0]) + Totalled(c)(0, s.workers[0]);
    }
    SameCounts(s.total, stats);
  }

  /** With one group, the counters of its worker are the totals. */
  lemma LoneTotal<W>(job: Job<W>, steps: seq<Step<W>>, s: System, stats: PreloadStats, w: W)
    returns (more: seq<Step<W>>, end: System)
    requires Fit(job) && |job.order| == 1 && |Plans(job, 0)| == 1
    requires Reaches(job, Start(job), steps, s) && Counted(job, s, 0, stats)
    ensures Reaches(job, Start(job), more, end) && end.returned && end.total == stats
  {
    StartIsSafe(job);
    RunKeepsSafe(job, Start(job), steps, s);
    more, end := RunsToReturn(job, s, w);
    RunKeepsCounted(job, s, more, end, 0, stats);
    StepsOn(job, Start(job), steps, s, more, end);
    more := steps + more;
    TokensAreWorkers(job, more, end);
    TotalOfOne(end, stats);
  }

  /** A course of the one pool's calculation, as a run of the call. */
  lemma LoneRun<W>(
    job: Job<W>, before: seq<Step<W>>, s: System, ticks: seq<P.Tick<W>>, last: P.Run,
    outcome: Result<Metrics, Error>, w: W)
    returns (steps: seq<Step<W>>, end: System)
    requires Fit(job) && |job.order| == 1 && |Plans(job, 0)| == 1 && Plans(job, 0)[0].Use?
    requires Reaches(job, Start(job), before, s) && SafeInv(job, s)
    requires At(job, s, 0, 0, P.Run(P.START, s.workers[0].cache, s.workers[0].stats, false))
    requires var Use(c, p) := Plans(job, 0)[0];
             S.EndsIn(DeskOf(job.inner, job.ctx, c), p, P.Run(P.START, s.workers[0].cache, s.workers[0].stats, false),
                      ticks, last, outcome)
    ensures Reaches(job, Start(job), steps, end) && end.returned && end.total == last.stats
  {
    var run := P.Run(P.START, s.workers[0].cache, s.workers[0].stats, false);
    var followed := WorkerFollows(job, s, 0, 0, run, ticks, last);
    RunKeepsSafe(job, s, Moves(0, ticks), followed);
    StepsOn(job, Start(job), before, s, Moves(0, ticks), followed);
    steps, end := LoneTotal(job, before + Moves(0, ticks), followed, last.stats, w);
  }

  ghost predicate SameTotals<W(!new)>(job: Job<W>) {
    forall a, aEnd, b, bEnd |
      Reaches(job, Start(job), a, aEnd) && aEnd.returned && Reaches(job, Start(job), b, bEnd) && bEnd.returned ::
      aEnd.total == bEnd.total
  }

  lemma LoneGroup<W>(job: Job<W>)
    requires Fit(job) && |job.pools| == 1 && BulkRefusal(job.s, job.pools[0]).None?
    ensures |job.order| == 1 && |Plans(job, 0)| == 1
    ensures job.order[0] == RouteOf(job.pools[0])
    ensures Plans(job, 0)[0] == PlanFor(GroupService(job.defaults, job.s, RouteOf(job.pools[0])), job.pools[0])
  {
    var g, k := Whereabouts(job, 0);
    forall x | 0 <= x < |job.order|
      ensures job.order[x] == RouteOf(job.pools[0])
    {
      assert job.order[x] in GroupRoutes(job.s, job.pools, 1);
    }
    var n := |job.order|;
    assert job.order[0] == job.order[n - 1];
    assert n == 1;
    GroupIndicesMeaning(job.s, job.pools, job.order[0], 1);
    assert forall x | 0 <= x < |Indices(job, 0)| :: Indices(job, 0)[x] == 0;
    assert |Indices(job, 0)| == 1;
  }

  lemma UnsteadyTotalsDiffer<W(!new)>(job: Job<W>, l: Ledger, w: W)
    requires Fit(job) && Wired(job.defaults, job.s) && Exact(job.inner, l) && NeverFails(job.inner, job.ctx)
    requires |job.order| == 1 && |Plans(job, 0)| == 1 && Plans(job, 0)[0].Use?
    requires Prompt(Plans(job, 0)[0].calculation) && !PlanSteady(l, Plans(job, 0)[0], PrimedAt(job, 0))
    ensures !SameTotals(job)
  {
    var Use(c, p) := Plans(job, 0)[0];
    var desk := DeskOf(job.inner, job.ctx, c);
    var before, picking := BroughtToItem(job, l, 0, 0, w);
    PickIsAt(job, picking, 0, 0, w);
    OneStep(job, picking, Move(0, P.Go(w)));
    var s := Apply(job, picking, Move(0, P.Go(w)));
    StepsOn(job, Start(job), before, picking, [Move(0, P.Go(w))], s);
    StepKeepsSafe(job, picking, Move(0, P.Go(w)));
    before := before + [Move(0, P.Go(w))];
    var run := P.Run(P.START, s.workers[0].cache, s.workers[0].stats, false);
    UnsteadyDiffers(desk, l, p, s.workers[0].cache, s.workers[0].stats, w);
    var ticks, last, outcome, ticks', last', outcome' :|
      S.EndsIn(desk, p, run, ticks, last, outcome) && S.EndsIn(desk, p, run, ticks', last', outcome')
      && last.stats != last'.stats;
    var a, aEnd := LoneRun(job, before, s, ticks, last, outcome, w);
    var b, bEnd := LoneRun(job, before, s, ticks', last', outcome', w);
    assert aEnd.total != bEnd.total;
  }

  lemma SteadyTotalsAgree<W(!new)>(job: Job<W>, l: Ledger)
    requires Fit(job) && Wired(job.defaults, job.s) && Exact(job.inner, l) && NeverFails(job.inner, job.ctx)
    requires PoolsSteady(l, job.defaults, job.s, job.pools)
    ensures SameTotals(job)
  {
    forall a, aEnd, b, bEnd |
      Reaches(job, Start(job), a, aEnd) && aEnd.returned && Reaches(job, Start(job), b, bEnd) && bEnd.returned
      ensures aEnd.total == bEnd.total
    {
      StartIsCalm(job);
      RunUndisturbed(job, Start(job), a, aEnd);
      RunUndisturbed(job, Start(job), b, bEnd);
      SchedulesAgree(job, job, l, a, b, aEnd, bEnd);
    }
  }

  lemma OnePoolSteady(l: Ledger, defaults: map<Route, Compute>, s: Fields, pools: seq<Pool>)
    requires |pools| == 1 && PoolSteady(l, defaults, s, pools, 0)
    ensures PoolsSteady(l, defaults, s, pools)
  {
    forall i: nat | i < |pools|
      ensures PoolSteady(l, defaults, s, pools, i)
    {
      assert i == 0;
    }
  }

  lemma LoneUnsteady<W(!new)>(job: Job<W>, l: Ledger, w: W)
    requires Fit(job) && Wired(job.defaults, job.s) && Exact(job.inner, l) && NeverFails(job.inner, job.ctx)
    requires |job.pools| == 1 && BulkRefusal(job.s, job.pools[0]).None?
    requires var plan := PlanFor(GroupService(job.defaults, job.s, RouteOf(job.pools[0])), job.pools[0]);
             plan.Use? ==> Prompt(plan.calculation)
    requires !PoolSteady(l, job.defaults, job.s, job.pools, 0)
    ensures !SameTotals(job)
  {
    LoneGroup(job);
    UnsteadyTotalsDiffer(job, l, w);
  }

  /**
   * For a request of one pool whose calculator gives up when something fails, over a client that never fails, all
   * schedules report the same counters if and only if the pool's calculation is steady.
   */
  lemma LoneTotalsExactly<W(!new)>(job: Job<W>, l: Ledger, w: W)
    requires Fit(job) && Wired(job.defaults, job.s) && Exact(job.inner, l) && NeverFails(job.inner, job.ctx)
    requires |job.pools| == 1 && BulkRefusal(job.s, job.pools[0]).None?
    requires var plan := PlanFor(GroupService(job.defaults, job.s, RouteOf(job.pools[0])), job.pools[0]);
             plan.Use? ==> Prompt(plan.calculation)
    ensures SameTotals(job) <==> PoolSteady(l, job.defaults, job.s, job.pools, 0)
  {
    if PoolSteady(l, job.defaults, job.s, job.pools, 0) {
      OnePoolSteady(l, job.defaults, job.s, job.pools);
      SteadyTotalsAgree(job, l);
    } else {
      LoneUnsteady(job, l, w);
    }
  }
}
