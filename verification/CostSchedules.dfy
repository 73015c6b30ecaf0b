/**
 * For calculators that give up when something fails, as the built-in ones do, the counters are the same in every
 * interleaving exactly when the calculation is steady: otherwise let a branch that fails come before, or between, the
 * reads of another.
 */
module CostSchedules {
  import opened Basics
  import opened Errors
  import opened Rpc
  import opened Batching
  import opened Preload
  import opened Calculators
  import opened Calls
  import opened Calculations
  import opened Processes
  import opened Costs
  import opened Schedules

  /** A failed join ends the calculation, and a read cut short ends its branch. */
  ghost predicate Prompt(c: Calculation) {
    forall h | c.next(h).Split? ::
      && (forall e :: c.next(h + [Joined(Err(e))]).Conclude?)
      && forall k | 0 <= k < |c.next(h).branches| :: GivesUp(c.next(h).branches[k])
  }

  ghost predicate SameCounters<W(!new)>(desk: Desk<W>, c: Calculation, run: Run) {
    forall ticks, end, outcome, ticks', end', outcome' |
      EndsIn(desk, c, run, ticks, end, outcome) && EndsIn(desk, c, run, ticks', end', outcome') ::
      end.stats == end'.stats
  }

  // ---- steady calculations ----

  lemma {:induction false} RunAccounted<W(!new)>(
    k: Counter, desk: Desk<W>, l: Ledger, start: set<Address>, c: Calculation, run: Run, ticks: seq<Tick<W>>, end: Run,
    before: int)
    requires Exact(desk.inner, l) && Shape(c, run.process) && Truth(l, desk.provider, c, run)
    requires Steady(l, desk.source, desk.provider, c, start) && Keeps(l, desk.source, desk.provider, start, c, run)
    requires Accounted(k, desk, l, c, run, before) && Reaches(desk, c, run, ticks, end)
    ensures Accounted(k, desk, l, c, end, before)
    decreases |ticks|
  {
    if ticks != [] {
      AdvanceShape(desk, c, run, ticks[0]);
      AdvanceIsTrue(desk, l, c, run, ticks[0]);
      AdvanceKeeps(desk, l, start, c, run, ticks[0]);
      AdvanceAccounted(k, desk, l, start, c, run, ticks[0], before);
      RunAccounted(k, desk, l, start, c, Advance(desk, c, run, ticks[0]), ticks[1..], end, before);
    }
  }

  lemma SteadyCounts<W(!new)>(desk: Desk<W>, l: Ledger, c: Calculation, cache: Cache, stats: PreloadStats)
    requires Exact(desk.inner, l) && TableAgrees(l, cache)
    requires Steady(l, desk.source, desk.provider, c, cache.Keys)
    ensures SameCounters(desk, c, Run(START, cache, stats, false))
  {
    var run := Run(START, cache, stats, false);
    StartKeeps(l, desk.source, desk.provider, cache.Keys, c, cache, stats, false);
    forall ticks, end, outcome, ticks', end', outcome' |
      EndsIn(desk, c, run, ticks, end, outcome) && EndsIn(desk, c, run, ticks', end', outcome')
      ensures end.stats == end'.stats
    {
      forall k: Counter
        ensures Count(k, end.stats) == Count(k, end'.stats)
      {
        StartPaid(k, l, desk.source, desk.provider, c);
        RunAccounted(k, desk, l, cache.Keys, c, run, ticks, end, Count(k, stats));
        RunAccounted(k, desk, l, cache.Keys, c, run, ticks', end', Count(k, stats));
      }
      Calculators.SameCounts(end.stats, end'.stats);
    }
  }

  // ---- the counters within a split ----

  function Depth(process: Process): nat {
    if process.Concluded? then 0 else |process.h|
  }

  lemma {:induction false} DepthGrows<W>(desk: Desk<W>, c: Calculation, run: Run, ticks: seq<Tick<W>>, end: Run)
    requires Reaches(desk, c, run, ticks, end) && !end.process.Concluded?
    ensures !run.process.Concluded? && Depth(run.process) <= Depth(end.process)
    decreases |ticks|
  {
    if ticks != [] {
      DepthGrows(desk, c, Advance(desk, c, run, ticks[0]), ticks[1..], end);
    }
  }

  function Tally(k: Counter, source: Source, run: Run): int
    requires run.process.Forked? && Paired(run.process)
  {
    Count(k, run.stats) - ThreadsSpent(k, source, run.process.branches, run.process.threads)
  }

  lemma AdvanceTally<W>(k: Counter, desk: Desk<W>, c: Calculation, run: Run, tick: Tick<W>)
    requires run.process.Forked? && Shape(c, run.process) && CanTick(run.process, tick)
    ensures var run' := Advance(desk, c, run, tick);
            run'.process.Forked? ==>
              && run'.process.branches == run.process.branches && run'.process.h == run.process.h
              && Paired(run'.process) && Tally(k, desk.source, run') == Tally(k, desk.source, run)
  {
    AdvanceShape(desk, c, run, tick);
    if tick.Task? && TaskPoolStep(run.process, tick.t).None? {
      TaskReadsTally(k, desk, c, run, tick.t, tick.w, tick.cut);
    }
  }

  lemma {:induction false} RunTally<W>(
    k: Counter, desk: Desk<W>, c: Calculation, run: Run, ticks: seq<Tick<W>>, end: Run)
    requires Shape(c, run.process) && run.process.Forked? && Reaches(desk, c, run, ticks, end)
    requires end.process.Forked? && Depth(end.process) == Depth(run.process)
    ensures Paired(end.process) && end.process.branches == run.process.branches
    ensures Tally(k, desk.source, end) == Tally(k, desk.source, run)
    decreases |ticks|
  {
    if ticks != [] {
      var run' := Advance(desk, c, run, ticks[0]);
      DepthGrows(desk, c, run', ticks[1..], end);
      AdvanceShape(desk, c, run, ticks[0]);
      AdvanceTally(k, desk, c, run, ticks[0]);
      RunTally(k, desk, c, run', ticks[1..], end);
    }
  }

  // ---- no more is cached than was read ----

  function ThreadReach(source: Source, p: Program, th: Thread): set<Address> {
    PathKeys(source, p, th.h)
    + if th.call.Some? && p.act(th.h).Ask? then ReadKeys(source, p.act(th.h).read) else {}
  }

  /** Every address cached, beyond those known, is one some branch has read. */
  ghost predicate Reached(
    source: Source, known: set<Address>, branches: seq<Program>, threads: seq<Thread>, cache: Cache)
  {
    |branches| == |threads| &&
    forall a | a in cache.Keys && a !in known ::
      exists t :: 0 <= t < |threads| && a in ThreadReach(source, branches[t], threads[t])
  }

  ghost predicate Bounded(
    l: Ledger, source: Source, provider: Provider, start: set<Address>, c: Calculation, run: Run)
  {
    match run.process
    case Main(h, call) =>
      !c.next(h).Conclude? ==>
        run.cache.Keys <= start + CourseKeys(l, source, provider, c, h)
                          + if call.Some? && c.next(h).Consult? then ReadKeys(source, c.next(h).read) else {}
    case Forked(h, branches, _, threads) =>
      Reached(source, start + CourseKeys(l, source, provider, c, h), branches, threads, run.cache)
    case Concluded(_) => true
  }

  ghost predicate Traced<W>(desk: Desk<W>, l: Ledger, start: set<Address>, c: Calculation, run: Run) {
    && Sound(desk, l, c, run) && CallsKeep(desk.source, {}, c, run)
    && Bounded(l, desk.source, desk.provider, start, c, run)
  }

  lemma MainBounded<W(!new)>(desk: Desk<W>, l: Ledger, start: set<Address>, c: Calculation, run: Run, w: W)
    requires run.process.Main? && Traced(desk, l, start, c, run)
    ensures Bounded(l, desk.source, desk.provider, start, c, GoMain(desk, c, run, w))
  {
    var h := run.process.h;
    match c.next(h)
    case Consult(read) =>
      ReadOnKeeps(desk, {}, read, run.process.call, w, None, run.cache, run.stats);
      var p := ReadOn(desk, read, run.process.call, w, None, run.cache, run.stats);
      if p.answer.Some? {
        CourseKeysGrow(l, desk.source, desk.provider, c, h, Got(p.answer.value));
      }
    case _ =>
  }

  lemma TaskReadsBounded<W(!new)>(
    desk: Desk<W>, l: Ledger, start: set<Address>, c: Calculation, run: Run, t: nat, w: W, cut: Option<Error>)
    requires run.process.Forked? && Traced(desk, l, start, c, run)
    requires CanTick(run.process, Task(t, w, cut)) && TaskPoolStep(run.process, t).None?
    ensures var read := run.process.branches[t].act(run.process.threads[t].h).read;
            Bounded(l, desk.source, desk.provider, start, c, TaskReads(desk, run, t, read, w, cut))
  {
    var process := run.process;
    var th, p := process.threads[t], process.branches[t];
    var read := p.act(th.h).read;
    assert ThreadShape(p, process.pool.tasks[t], th, process.pool.cancelled);
    ReadOnKeeps(desk, {}, read, th.call, w, cut, run.cache, run.stats);
    var run' := TaskReads(desk, run, t, read, w, cut);
    var progress := ReadOn(desk, read, th.call, w, cut, run.cache, run.stats);
    if progress.answer.Some? {
      PathKeysGrow(desk.source, p, th.h, progress.answer.value);
    }
    ReachGrows(desk.source, start + CourseKeys(l, desk.source, desk.provider, c, process.h), process.branches,
               process.threads, t, run'.process.threads[t], run.cache, run'.cache);
  }

  lemma ReachGrows(
    source: Source, known: set<Address>, branches: seq<Program>, threads: seq<Thread>, t: nat, th: Thread,
    cache: Cache, cache': Cache)
    requires Reached(source, known, branches, threads, cache) && t < |threads|
    requires ThreadReach(source, branches[t], threads[t]) <= ThreadReach(source, branches[t], th)
    requires cache'.Keys <= cache.Keys + ThreadReach(source, branches[t], th)
    ensures Reached(source, known, branches, threads[t := th], cache')
  {
    var threads' := threads[t := th];
    forall a | a in cache'.Keys && a !in known
      ensures exists k :: 0 <= k < |threads'| && a in ThreadReach(source, branches[k], threads'[k])
    {
      if a in cache.Keys {
        var k :| 0 <= k < |threads| && a in ThreadReach(source, branches[k], threads[k]);
        assert a in ThreadReach(source, branches[k], threads'[k]);
      } else {
        assert a in ThreadReach(source, branches[t], threads'[t]);
      }
    }
  }

  lemma {:induction false} BranchKeysIncluded(
    l: Ledger, source: Source, provider: Provider, branches: seq<Program>, t: nat)
    requires t < |branches|
    ensures LedgerKeys(l, source, provider, branches[t], []) <= BranchesKeys(l, source, provider, branches)
  {
    if t > 0 {
      BranchKeysIncluded(l, source, provider, branches[1..], t - 1);
    }
  }

  lemma JoinBounded<W(!new)>(desk: Desk<W>, l: Ledger, start: set<Address>, c: Calculation, run: Run)
    requires run.process.Forked? && Traced(desk, l, start, c, run) && Prompt(c)
    requires !PX.Enabled(run.process.pool, PX.Launch) && PX.Enabled(run.process.pool, PX.Finish)
    ensures Bounded(l, desk.source, desk.provider, start, c, GoFork(run))
  {
    var process := run.process;
    var branches, threads, pool := process.branches, process.threads, process.pool;
    var r := Processes.Result(process, PX.Apply(pool, PX.Finish).result.value);
    CourseKeysGrow(l, desk.source, desk.provider, c, process.h, Joined(r));
    if r.Ok? {
      forall t | 0 <= t < |threads|
        ensures ThreadReach(desk.source, branches[t], threads[t])
             <= BranchesKeys(l, desk.source, desk.provider, branches)
      {
        assert ThreadShape(branches[t], pool.tasks[t], threads[t], pool.cancelled);
        assert ThreadTruth(l, desk.provider, run.cache, branches[t], threads[t], false);
        PathKeysAll(l, desk.source, desk.provider, branches[t], threads[t].h);
        BranchKeysIncluded(l, desk.source, desk.provider, branches, t);
      }
    }
  }

  lemma {:induction false} RunTraced<W(!new)>(
    desk: Desk<W>, l: Ledger, start: set<Address>, c: Calculation, run: Run, ticks: seq<Tick<W>>, end: Run)
    requires Serves(desk, l) && Prompt(c) && Traced(desk, l, start, c, run) && Reaches(desk, c, run, ticks, end)
    ensures Traced(desk, l, start, c, end)
    decreases |ticks|
  {
    if ticks != [] {
      var run', tick := Advance(desk, c, run, ticks[0]), ticks[0];
      AdvanceSound(desk, l, c, run, tick);
      AdvanceCallsKeep(desk, {}, c, run, tick);
      if run.process.Main? {
        MainBounded(desk, l, start, c, run, tick.w);
      } else if tick.Go? {
        if !PX.Enabled(run.process.pool, PX.Launch) {
          JoinBounded(desk, l, start, c, run);
        }
      } else if TaskPoolStep(run.process, tick.t).None? {
        TaskReadsBounded(desk, l, start, c, run, tick.t, tick.w, tick.cut);
      }
      RunTraced(desk, l, start, c, run', ticks[1..], end);
    }
  }

  // ---- a branch up to a read that may be cut short ----

  /** At a read that has to ask, about to ask, with counted reads still to come. */
  ghost predicate Vulnerable(
    l: Ledger, source: Source, provider: Provider, known: set<Address>, p: Program, th: Thread)
  {
    && !th.cut && th.call.Some? && Exposed(th.call.value) && p.act(th.h).Ask?
    && CountsOn(l, source, provider, p, th.h + [LedgerAnswer(l, provider, p.act(th.h).read)])
  }

  /** On the way there, with nothing cached but what was known and what it has read. */
  ghost predicate Heading(
    l: Ledger, source: Source, provider: Provider, known: set<Address>, p: Program, th: Thread, cache: Cache)
  {
    var here := known + PathKeys(source, p, th.h);
    && !th.cut
    && match th.call
       case None => cache.Keys <= here && Loose(l, source, provider, p, here, th.h)
       case Some(call) =>
         && p.act(th.h).Ask?
         && var read := p.act(th.h).read;
            var h' := th.h + [LedgerAnswer(l, provider, read)];
            || (cache.Keys <= here && Open(source, here, read) && CountsOn(l, source, provider, p, h')
                && (Exposed(call) || (call.Sharing? && call.caller.phase.Scanning?)))
            || (cache.Keys <= here + ReadKeys(source, read)
                && Loose(l, source, provider, p, here + ReadKeys(source, read), h'))
  }

  /** Scanning for what is not cached does not come to an end without something to fetch. */
  lemma ScanningLeads<W>(
    desk: Desk<W>, here: set<Address>, read: Read, caller: PC.Caller, w: W, cache: Cache)
    requires CallKeeps(desk.source, {}, read, cache, Sharing(caller)) && caller.phase.Scanning?
    requires cache.Keys <= here && Open(desk.source, here, read)
    ensures var call := Proceed(desk, read, Sharing(caller), w, None, cache);
            Exposed(call) || (call.Sharing? && call.caller.phase.Scanning?)
    ensures Filled(desk, Sharing(caller), w, None, cache) == cache
  {
    var call := Proceed(desk, read, Sharing(caller), w, None, cache);
    ProceedKeeps(desk, {}, read, Sharing(caller), w, None, cache);
    if call.caller.phase.Reading? {
      forall a | a in ReadKeys(desk.source, read)
        ensures a in here
      {
        assert a in caller.addresses;
      }
      assert false;
    }
  }

  lemma HeadingStep<W(!new)>(
    desk: Desk<W>, l: Ledger, c: Calculation, run: Run, t: nat, known: set<Address>, w: W)
    requires Serves(desk, l) && Sound(desk, l, c, run) && CallsKeep(desk.source, {}, c, run)
    requires run.process.Forked? && t < |run.process.threads| && run.process.pool.tasks[t].Running?
    requires Heading(l, desk.source, desk.provider, known, run.process.branches[t], run.process.threads[t], run.cache)
    requires !Vulnerable(l, desk.source, desk.provider, known, run.process.branches[t], run.process.threads[t])
    ensures CanTick(run.process, Task(t, w, None))
    ensures var run' := Advance(desk, c, run, Task(t, w, None));
            && OnlyBranch(run.process, run'.process, t) && run'.process.pool == run.process.pool
            && Heading(l, desk.source, desk.provider, known, run.process.branches[t], run'.process.threads[t],
                       run'.cache)
  {
    var process := run.process;
    var th, p := process.threads[t], process.branches[t];
    var read := p.act(th.h).read;
    assert ThreadShape(p, process.pool.tasks[t], th, process.pool.cancelled);
    var progress := ReadOn(desk, read, th.call, w, None, run.cache, run.stats);
    if progress.answer.Some? {
      AnswerIsLedgers(desk, l, c, run, t, w);
      HeadingPast(l, desk.source, desk.provider, known, p, th, run.cache);
    } else {
      HeadingGoesOn(desk, l, known, p, th, w, run.cache, run.stats);
    }
  }

  /** A read of an uncut branch is answered as the ledger has it. */
  lemma AnswerIsLedgers<W(!new)>(desk: Desk<W>, l: Ledger, c: Calculation, run: Run, t: nat, w: W)
    requires Serves(desk, l) && Sound(desk, l, c, run) && run.process.Forked? && t < |run.process.threads|
    requires CanTick(run.process, Task(t, w, None)) && TaskPoolStep(run.process, t).None?
    requires !run.process.threads[t].cut
    ensures var p, th := run.process.branches[t], run.process.threads[t];
            var progress := ReadOn(desk, p.act(th.h).read, th.call, w, None, run.cache, run.stats);
            progress.answer.Some? ==> progress.answer.value == LedgerAnswer(l, desk.provider, p.act(th.h).read)
  {
    var process := run.process;
    var th, p := process.threads[t], process.branches[t];
    assert ThreadShape(p, process.pool.tasks[t], th, process.pool.cancelled);
    assert ThreadTruth(l, desk.provider, run.cache, p, th, false);
    AdvanceCalm(desk, c, run, Task(t, w, None));
    ReadOnIsTrue(desk, l, p.act(th.h).read, th.call, w, None, run.cache, run.stats, false);
  }

  /** Past a read that is answered. */
  lemma HeadingPast(
    l: Ledger, source: Source, provider: Provider, known: set<Address>, p: Program, th: Thread, cache: Cache)
    requires Heading(l, source, provider, known, p, th, cache)
    requires th.call.Some? && th.call.value.Answered?
    ensures Heading(l, source, provider, known, p,
                    Thread(th.h + [LedgerAnswer(l, provider, p.act(th.h).read)], None, false), cache)
  {
    var read := p.act(th.h).read;
    PathKeysGrow(source, p, th.h, LedgerAnswer(l, provider, read));
    KeysInTurn(known, PathKeys(source, p, th.h), ReadKeys(source, read));
  }

  lemma HeadingGoesOn<W(!new)>(
    desk: Desk<W>, l: Ledger, known: set<Address>, p: Program, th: Thread, w: W, cache: Cache, stats: PreloadStats)
    requires Heading(l, desk.source, desk.provider, known, p, th, cache) && p.act(th.h).Ask?
    requires !Vulnerable(l, desk.source, desk.provider, known, p, th)
    requires th.call.Some? ==> CallKeeps(desk.source, {}, p.act(th.h).read, cache, th.call.value)
    requires ReadOn(desk, p.act(th.h).read, th.call, w, None, cache, stats).answer.None?
    ensures var progress := ReadOn(desk, p.act(th.h).read, th.call, w, None, cache, stats);
            Heading(l, desk.source, desk.provider, known, p, Thread(th.h, progress.call, false), progress.cache)
  {
    var read := p.act(th.h).read;
    var here := known + PathKeys(desk.source, p, th.h);
    ReadOnKeeps(desk, {}, read, th.call, w, None, cache, stats);
    if th.call.Some? && th.call.value.Sharing? && th.call.value.caller.phase.Scanning? {
      if cache.Keys <= here && Open(desk.source, here, read) {
        ScanningLeads(desk, here, read, th.call.value.caller, w, cache);
      }
    }
  }

  lemma {:induction false} BranchHeads<W(!new)>(
    desk: Desk<W>, l: Ledger, c: Calculation, run: Run, t: nat, known: set<Address>, w: W)
    returns (ticks: seq<Tick<W>>, end: Run)
    requires Serves(desk, l) && Sound(desk, l, c, run) && CallsKeep(desk.source, {}, c, run)
    requires run.process.Forked? && t < |run.process.threads| && run.process.pool.tasks[t].Running?
    requires Heading(l, desk.source, desk.provider, known, run.process.branches[t], run.process.threads[t], run.cache)
    ensures Reaches(desk, c, run, ticks, end) && Sound(desk, l, c, end)
    ensures OnlyBranch(run.process, end.process, t) && end.process.pool == run.process.pool
    ensures Vulnerable(l, desk.source, desk.provider, known, run.process.branches[t], end.process.threads[t])
    decreases Left(c, run.process)
  {
    if Vulnerable(l, desk.source, desk.provider, known, run.process.branches[t], run.process.threads[t]) {
      ticks, end := [], run;
    } else {
      var tick := Task(t, w, None);
      HeadingStep(desk, l, c, run, t, known, w);
      var run' := Advance(desk, c, run, tick);
      AdvanceSound(desk, l, c, run, tick);
      AdvanceCallsKeep(desk, {}, c, run, tick);
      AdvanceRunsOut(desk, c, run, tick);
      LeftIsNatural(c, run.process);
      LeftIsNatural(c, run'.process);
      ReachesOne(desk, c, run, tick);
      var more;
      more, end := BranchHeads(desk, l, c, run', t, known, w);
      ReachesOn(desk, c, run, [tick], run', more, end);
      ticks := [tick] + more;
    }
  }

  // ---- cutting it short ----

  /** A read that comes back with an error is taken, and the branch asks nothing more. */
  lemma {:induction false} TurnedIsTaken<W(!new)>(
    desk: Desk<W>, l: Ledger, c: Calculation, run: Run, t: nat, w: W)
    returns (ticks: seq<Tick<W>>, end: Run)
    requires Serves(desk, l) && Sound(desk, l, c, run) && run.process.Forked? && t < |run.process.threads|
    requires run.process.pool.tasks[t].Running? && run.process.threads[t].cut && GivesUp(run.process.branches[t])
    requires run.process.threads[t].call.Some? && run.process.branches[t].act(run.process.threads[t].h).Ask?
    requires Turned(run.process.branches[t].act(run.process.threads[t].h).read, run.process.threads[t].call.value)
    ensures Reaches(desk, c, run, ticks, end) && Sound(desk, l, c, end)
    ensures OnlyBranch(run.process, end.process, t) && end.process.pool == run.process.pool
    ensures end.process.threads[t].call.None? && end.process.branches[t].act(end.process.threads[t].h).Finish?
    ensures forall k: Counter :: ThreadSpent(k, desk.source, run.process.branches[t], end.process.threads[t])
                              == ThreadSpent(k, desk.source, run.process.branches[t], run.process.threads[t])
    decreases Left(c, run.process)
  {
    var tick := Task(t, w, None);
    var th, p := run.process.threads[t], run.process.branches[t];
    var read := p.act(th.h).read;
    assert ThreadShape(p, run.process.pool.tasks[t], th, run.process.pool.cancelled);
    var run' := Advance(desk, c, run, tick);
    AdvanceSound(desk, l, c, run, tick);
    ReachesOne(desk, c, run, tick);
    StaysTurned(desk, read, th.call.value, w, None, run.cache);
    if th.call.value.Answered? {
      forall k: Counter
        ensures PathSpent(k, desk.source, p, th.h + [th.call.value.answer])
             == PathSpent(k, desk.source, p, th.h) + ReadCharge(k, desk.source, p, th.h)
      {
        PathSpentGrows(k, desk.source, p, th.h, th.call.value.answer);
      }
      ticks, end := [tick], run';
    } else {
      AdvanceRunsOut(desk, c, run, tick);
      LeftIsNatural(c, run.process);
      LeftIsNatural(c, run'.process);
      var more;
      more, end := TurnedIsTaken(desk, l, c, run', t, w);
      ReachesOn(desk, c, run, [tick], run', more, end);
      ticks := [tick] + more;
    }
  }

  /** A branch that asks nothing more, to its end, whatever it returns. */
  lemma FinishedEnds<W(!new)>(desk: Desk<W>, l: Ledger, c: Calculation, run: Run, t: nat, w: W)
    returns (ticks: seq<Tick<W>>, end: Run)
    requires Serves(desk, l) && Sound(desk, l, c, run) && run.process.Forked? && t < |run.process.threads|
    requires run.process.pool.tasks[t].Running?
    requires run.process.branches[t].act(run.process.threads[t].h).Finish?
    ensures Reaches(desk, c, run, ticks, end) && Sound(desk, l, c, end)
    ensures OnlyBranch(run.process, end.process, t) && end.process.threads == run.process.threads
    ensures end.process.pool.tasks[t].Ended? && run.process.pool.queue <= end.process.pool.queue
  {
    assert ThreadShape(run.process.branches[t], run.process.pool.tasks[t], run.process.threads[t],
                       run.process.pool.cancelled);
    var returned := PoolTick(desk, l, c, run, t, w);
    ticks, end := [Task(t, w, None)], returned;
    if returned.process.pool.tasks[t].Failed? {
      end := BranchReports(desk, l, c, returned, t, w);
      ReachesOn(desk, c, run, ticks, returned, [Task(t, w, None), Task(t, w, None)], end);
      ticks := ticks + [Task(t, w, None), Task(t, w, None)];
    }
  }

  /** A branch about to ask, cut short and brought to its end: it is charged for that read and no more. */
  lemma BranchCut<W(!new)>(desk: Desk<W>, l: Ledger, c: Calculation, run: Run, t: nat, e: Error, w: W)
    returns (ticks: seq<Tick<W>>, end: Run)
    requires Serves(desk, l) && Sound(desk, l, c, run) && run.process.Forked? && t < |run.process.threads|
    requires run.process.pool.cancelled && run.process.pool.tasks[t].Running? && GivesUp(run.process.branches[t])
    requires !run.process.threads[t].cut && run.process.threads[t].call.Some?
    requires Exposed(run.process.threads[t].call.value)
    ensures Reaches(desk, c, run, ticks, end) && Sound(desk, l, c, end)
    ensures OnlyBranch(run.process, end.process, t)
    ensures end.process.pool.tasks[t].Ended? && run.process.pool.queue <= end.process.pool.queue
    ensures forall k: Counter :: ThreadSpent(k, desk.source, run.process.branches[t], end.process.threads[t])
                              == ThreadSpent(k, desk.source, run.process.branches[t], run.process.threads[t])
  {
    var tick := Task(t, w, Some(e));
    var th, p := run.process.threads[t], run.process.branches[t];
    assert ThreadShape(p, run.process.pool.tasks[t], th, run.process.pool.cancelled);
    CutTurns(desk, p.act(th.h).read, th.call.value, w, e, run.cache);
    var cut := Advance(desk, c, run, tick);
    AdvanceSound(desk, l, c, run, tick);
    ReachesOne(desk, c, run, tick);
    var taken, more, rest;
    more, taken := TurnedIsTaken(desk, l, c, cut, t, w);
    ReachesOn(desk, c, run, [tick], cut, more, taken);
    rest, end := FinishedEnds(desk, l, c, taken, t, w);
    ReachesOn(desk, c, run, [tick] + more, taken, rest, end);
    ticks := [tick] + more + rest;
  }

  // ---- the split as a whole ----

  /** With a failed branch first in the queue, the others end, and the calculation gives up. */
  lemma ForkFails<W(!new)>(desk: Desk<W>, l: Ledger, c: Calculation, run: Run, first: nat, w: W)
    returns (going: seq<Tick<W>>, ended: Run, ticks: seq<Tick<W>>, end: Run, outcome: Result<Metrics, Error>)
    requires Serves(desk, l) && Sound(desk, l, c, run) && UnderWay(run.process) && Prompt(c)
    requires run.process.pool.queue != [] && run.process.pool.queue[0].task == first < |run.process.branches|
    requires Eval(l, desk.provider, run.process.branches[first], []).Err?
    ensures EndsIn(desk, c, run, ticks, end, outcome) && end.stats == ended.stats
    ensures Reaches(desk, c, run, going, ended) && Sound(desk, l, c, ended) && UnderWay(ended.process)
    ensures ended.process.h == run.process.h && ended.process.branches == run.process.branches
    ensures |ended.process.threads| == |run.process.threads|
    ensures forall k | 0 <= k < |ended.process.threads| ::
              && ended.process.pool.tasks[k].Ended?
              && if run.process.pool.tasks[k].Ended? then ended.process.threads[k] == run.process.threads[k]
                 else !ended.process.threads[k].cut
  {
    var r := Err(Eval(l, desk.provider, run.process.branches[first], []).error);
    going, ended := RestEnds(desk, l, c, run, 0, w);
    assert MayJoin(l, desk.provider, ended.process.branches, r);
    var joined := ForkJoins(desk, l, c, ended, r, first, w);
    ReachesOn(desk, c, run, going, ended, [Go(w)], joined);
    assert c.next(run.process.h) == Split(run.process.branches);
    end := CourseConcludes(desk, l, c, joined, w);
    ReachesOn(desk, c, run, going + [Go(w)], joined, [Go(w)], end);
    ticks, outcome := going + [Go(w)] + [Go(w)], end.process.outcome;
  }

  lemma ForkFailsAfter<W(!new)>(
    desk: Desk<W>, l: Ledger, c: Calculation, start: Run, before: seq<Tick<W>>, run: Run, first: nat, w: W)
    returns (going: seq<Tick<W>>, ended: Run, ticks: seq<Tick<W>>, end: Run, outcome: Result<Metrics, Error>)
    requires Reaches(desk, c, start, before, run)
    requires Serves(desk, l) && Sound(desk, l, c, run) && UnderWay(run.process) && Prompt(c)
    requires run.process.pool.queue != [] && run.process.pool.queue[0].task == first < |run.process.branches|
    requires Eval(l, desk.provider, run.process.branches[first], []).Err?
    ensures EndsIn(desk, c, start, ticks, end, outcome) && end.stats == ended.stats
    ensures Reaches(desk, c, start, going, ended) && Sound(desk, l, c, ended) && UnderWay(ended.process)
    ensures ended.process.h == run.process.h && ended.process.branches == run.process.branches
    ensures |ended.process.threads| == |run.process.threads|
    ensures forall k | 0 <= k < |ended.process.threads| ::
              && ended.process.pool.tasks[k].Ended?
              && if run.process.pool.tasks[k].Ended? then ended.process.threads[k] == run.process.threads[k]
                 else !ended.process.threads[k].cut
  {
    going, ended, ticks, end, outcome := ForkFails(desk, l, c, run, first, w);
    ReachesOn(desk, c, start, before, run, going, ended);
    ReachesOn(desk, c, start, before, run, ticks, end);
    going, ticks := before + going, before + ticks;
  }

  /** A branch that ended uncut has cost what it costs on the ledger. */
  lemma UncutCosts<W>(k: Counter, desk: Desk<W>, l: Ledger, c: Calculation, run: Run, t: nat)
    requires Sound(desk, l, c, run) && run.process.Forked? && t < |run.process.threads|
    requires run.process.pool.tasks[t].Ended? && !run.process.threads[t].cut
    ensures ThreadSpent(k, desk.source, run.process.branches[t], run.process.threads[t])
         == Charges(k, l, desk.source, desk.provider, run.process.branches[t], [])
  {
    var th, p := run.process.threads[t], run.process.branches[t];
    assert ThreadShape(p, run.process.pool.tasks[t], th, run.process.pool.cancelled);
    assert ThreadTruth(l, desk.provider, run.cache, p, th, false);
    PathCharges(k, l, desk.source, desk.provider, p, th.h);
  }

  lemma {:induction false} OneShort(
    k: Counter, l: Ledger, source: Source, provider: Provider, branches: seq<Program>, threads: seq<Thread>, t: nat)
    requires |branches| == |threads| && t < |threads|
    requires forall i | 0 <= i < |threads| && i != t ::
               ThreadSpent(k, source, branches[i], threads[i]) == Charges(k, l, source, provider, branches[i], [])
    requires ThreadSpent(k, source, branches[t], threads[t]) < Charges(k, l, source, provider, branches[t], [])
    ensures ThreadsSpent(k, source, branches, threads) < BranchesCharge(k, l, source, provider, branches)
  {
    if t > 0 {
      OneShort(k, l, source, provider, branches[1..], threads[1..], t - 1);
    } else {
      EndedThreadsSpent(k, l, source, provider, branches[1..], threads[1..]);
    }
  }

  lemma {:induction false} ChargesAreNatural(
    k: Counter, l: Ledger, source: Source, provider: Provider, p: Program, h: seq<Answer>)
    ensures Charges(k, l, source, provider, p, h) >= 0
    decreases p.left(h)
  {
    if p.act(h).Ask? {
      var h' := h + [LedgerAnswer(l, provider, p.act(h).read)];
      assert p.left(h') < p.left(h);
      ChargesAreNatural(k, l, source, provider, p, h');
    }
  }

  /** A counted read still to come counts somewhere. */
  lemma {:induction false} SomethingMore(l: Ledger, source: Source, provider: Provider, p: Program, h: seq<Answer>)
    returns (k: Counter)
    requires CountsOn(l, source, provider, p, h)
    ensures Charges(k, l, source, provider, p, h) > 0
    decreases p.left(h)
  {
    var read := p.act(h).read;
    var h' := h + [LedgerAnswer(l, provider, read)];
    assert p.left(h') < p.left(h);
    if IsShared(source, read) {
      k := if read.AccountRead? then Singles else Batches;
      ChargesAreNatural(k, l, source, provider, p, h');
    } else {
      k := SomethingMore(l, source, provider, p, h');
    }
  }

  /** All branches of the split at h are running and none has begun to read. */
  ghost predicate Launched(c: Calculation, process: Process) {
    && UnderWay(process) && process.pool.queue == [] && c.next(process.h) == Split(process.branches)
    && forall t | 0 <= t < |process.threads| ::
         process.pool.tasks[t].Running? && process.threads[t] == Thread([], None, false)
  }

  lemma LaunchedTally<W>(k: Counter, desk: Desk<W>, c: Calculation, run: Run, ticks: seq<Tick<W>>, ended: Run)
    requires Shape(c, run.process) && Launched(c, run.process) && Reaches(desk, c, run, ticks, ended)
    requires ended.process.Forked? && ended.process.h == run.process.h
    ensures Paired(ended.process) && ended.process.branches == run.process.branches
    ensures Count(k, ended.stats)
         == Count(k, run.stats) + ThreadsSpent(k, desk.source, ended.process.branches, ended.process.threads)
  {
    RunTally(k, desk, c, run, ticks, ended);
    NewThreadsSpent(k, desk.source, run.process.branches, run.process.threads);
  }

  lemma AllUncutCost<W(!new)>(
    k: Counter, desk: Desk<W>, l: Ledger, c: Calculation, run: Run, ticks: seq<Tick<W>>, ended: Run)
    requires Sound(desk, l, c, run) && Launched(c, run.process) && Reaches(desk, c, run, ticks, ended)
    requires Sound(desk, l, c, ended) && ended.process.Forked? && ended.process.h == run.process.h
    requires Paired(ended.process)
    requires forall t | 0 <= t < |ended.process.threads| ::
               ended.process.pool.tasks[t].Ended? && !ended.process.threads[t].cut
    ensures Count(k, ended.stats)
         == Count(k, run.stats) + BranchesCharge(k, l, desk.source, desk.provider, run.process.branches)
  {
    LaunchedTally(k, desk, c, run, ticks, ended);
    forall t | 0 <= t < |ended.process.threads|
      ensures ThreadSpent(k, desk.source, ended.process.branches[t], ended.process.threads[t])
           == Charges(k, l, desk.source, desk.provider, ended.process.branches[t], [])
    {
      UncutCosts(k, desk, l, c, ended, t);
    }
    EndedThreadsSpent(k, l, desk.source, desk.provider, ended.process.branches, ended.process.threads);
  }

  /** Branch j fails, and no branch is cut short. */
  lemma FailsUncut<W(!new)>(desk: Desk<W>, l: Ledger, c: Calculation, run: Run, j: nat, w: W)
    returns (ticks: seq<Tick<W>>, end: Run, outcome: Result<Metrics, Error>)
    requires Serves(desk, l) && Sound(desk, l, c, run) && Launched(c, run.process) && Prompt(c)
    requires j < |run.process.branches| && Eval(l, desk.provider, run.process.branches[j], []).Err?
    ensures EndsIn(desk, c, run, ticks, end, outcome)
    ensures forall k: Counter :: Count(k, end.stats)
              == Count(k, run.stats) + BranchesCharge(k, l, desk.source, desk.provider, run.process.branches)
  {
    var first, failed := BranchEnds(desk, l, c, run, j, w);
    var going, ended;
    going, ended, ticks, end, outcome := ForkFailsAfter(desk, l, c, run, first, failed, j, w);
    forall k: Counter
      ensures Count(k, end.stats)
           == Count(k, run.stats) + BranchesCharge(k, l, desk.source, desk.provider, run.process.branches)
    {
      AllUncutCost(k, desk, l, c, run, going, ended);
    }
  }

  lemma FailureCancels(branches: seq<Program>, pool: PX.Pool, threads: seq<Thread>)
    requires ForkShape(branches, pool, threads) && pool.queue != [] && pool.tasks[pool.queue[0].task].Ended?
    ensures pool.cancelled
  {
    assert PX.Sent(pool.tasks[pool.queue[0].task]) == Some(pool.queue[0]);
  }

  lemma BothEnded(before: Process, mid: Process, after: Process, j: nat, t: nat)
    requires UnderWay(before) && OnlyBranch(before, mid, j) && OnlyBranch(mid, after, t)
    requires j < |before.threads| && t < |before.threads| && j != t
    requires forall i | 0 <= i < |before.threads| :: before.pool.tasks[i].Running?
    requires mid.pool.tasks[j].Ended? && !mid.threads[j].cut && after.pool.tasks[t].Ended?
    ensures UnderWay(after) && after.h == before.h && after.branches == before.branches
    ensures |after.threads| == |before.threads| && after.pool.tasks[j].Ended? && !after.threads[j].cut
    ensures forall i | 0 <= i < |before.threads| && i != j && i != t :: !after.pool.tasks[i].Ended?
  {
  }

  /** Where branch t is about to ask, branch j fails and t is cut short. */
  lemma FailsAndCuts<W(!new)>(
    desk: Desk<W>, l: Ledger, c: Calculation, run: Run, j: nat, t: nat, e: Error, w: W)
    returns (ticks: seq<Tick<W>>, cut: Run)
    requires Serves(desk, l) && Sound(desk, l, c, run) && UnderWay(run.process) && run.process.pool.queue == []
    requires j < |run.process.branches| && t < |run.process.branches| && j != t
    requires forall i | 0 <= i < |run.process.threads| :: run.process.pool.tasks[i].Running?
    requires Eval(l, desk.provider, run.process.branches[j], []).Err? && GivesUp(run.process.branches[t])
    requires run.process.threads[t].call.Some? && Exposed(run.process.threads[t].call.value)
    ensures Reaches(desk, c, run, ticks, cut) && Sound(desk, l, c, cut) && UnderWay(cut.process)
    ensures cut.process.h == run.process.h && cut.process.branches == run.process.branches
    ensures cut.process.pool.queue != [] && cut.process.pool.queue[0].task == j
    ensures |cut.process.threads| == |run.process.threads| && cut.process.pool.tasks[t].Ended?
    ensures cut.process.pool.tasks[j].Ended? && !cut.process.threads[j].cut
    ensures forall i | 0 <= i < |run.process.threads| && i != j && i != t :: !cut.process.pool.tasks[i].Ended?
    ensures forall k: Counter :: ThreadSpent(k, desk.source, run.process.branches[t], cut.process.threads[t])
                              == ThreadSpent(k, desk.source, run.process.branches[t], run.process.threads[t])
  {
    var failing, failed := BranchEnds(desk, l, c, run, j, w);
    FailureCancels(failed.process.branches, failed.process.pool, failed.process.threads);
    var cutting;
    cutting, cut := BranchCut(desk, l, c, failed, t, e, w);
    BothEnded(run.process, failed.process, cut.process, j, t);
    ReachesOn(desk, c, run, failing, failed, cutting, cut);
    ticks := failing + cutting;
  }

  /** Branch t is brought to where it can be cut short; then that happens. */
  lemma CutAfter<W(!new)>(
    desk: Desk<W>, l: Ledger, c: Calculation, run: Run, j: nat, t: nat, known: set<Address>, e: Error, w: W)
    returns (ticks: seq<Tick<W>>, cut: Run, h: seq<Answer>)
    requires Serves(desk, l) && Sound(desk, l, c, run) && CallsKeep(desk.source, {}, c, run)
    requires Launched(c, run.process) && Prompt(c) && run.cache.Keys <= known
    requires j < |run.process.branches| && t < |run.process.branches| && j != t
    requires Eval(l, desk.provider, run.process.branches[j], []).Err?
    requires Loose(l, desk.source, desk.provider, run.process.branches[t], known, [])
    ensures Reaches(desk, c, run, ticks, cut) && Sound(desk, l, c, cut) && UnderWay(cut.process)
    ensures cut.process.h == run.process.h && cut.process.branches == run.process.branches
    ensures cut.process.pool.queue != [] && cut.process.pool.queue[0].task == j
    ensures |cut.process.threads| == |run.process.threads| && cut.process.pool.tasks[t].Ended?
    ensures cut.process.pool.tasks[j].Ended? && !cut.process.threads[j].cut
    ensures forall i | 0 <= i < |run.process.threads| && i != j && i != t :: !cut.process.pool.tasks[i].Ended?
    ensures var p := run.process.branches[t];
            && OnPath(l, desk.provider, p, h) && p.act(h).Ask?
            && CountsOn(l, desk.source, desk.provider, p, h + [LedgerAnswer(l, desk.provider, p.act(h).read)])
            && forall k: Counter :: ThreadSpent(k, desk.source, p, cut.process.threads[t])
                 == PathSpent(k, desk.source, p, h) + ReadCharge(k, desk.source, p, h)
  {
    var p := run.process.branches[t];
    assert known + PathKeys(desk.source, p, []) == known;
    var heading, vulnerable := BranchHeads(desk, l, c, run, t, known, w);
    h := vulnerable.process.threads[t].h;
    assert ThreadTruth(l, desk.provider, vulnerable.cache, p, vulnerable.process.threads[t], false);
    assert c.next(run.process.h) == Split(run.process.branches);
    var cutting;
    cutting, cut := FailsAndCuts(desk, l, c, vulnerable, j, t, e, w);
    ReachesOn(desk, c, run, heading, vulnerable, cutting, cut);
    ticks := heading + cutting;
  }

  /** With branch t charged up to a read in its path and no further, and the others in full, a counter is lower. */
  lemma OneCutCosts<W(!new)>(
    desk: Desk<W>, l: Ledger, c: Calculation, run: Run, ticks: seq<Tick<W>>, ended: Run, t: nat, h: seq<Answer>)
    returns (k: Counter)
    requires Sound(desk, l, c, run) && Launched(c, run.process) && Reaches(desk, c, run, ticks, ended)
    requires Sound(desk, l, c, ended) && ended.process.Forked? && ended.process.h == run.process.h
    requires Paired(ended.process) && t < |ended.process.threads|
    requires forall i | 0 <= i < |ended.process.threads| && i != t ::
               ended.process.pool.tasks[i].Ended? && !ended.process.threads[i].cut
    requires var p := ended.process.branches[t];
             && OnPath(l, desk.provider, p, h) && p.act(h).Ask?
             && CountsOn(l, desk.source, desk.provider, p, h + [LedgerAnswer(l, desk.provider, p.act(h).read)])
             && forall k: Counter :: ThreadSpent(k, desk.source, p, ended.process.threads[t])
                  == PathSpent(k, desk.source, p, h) + ReadCharge(k, desk.source, p, h)
    ensures Count(k, ended.stats)
          < Count(k, run.stats) + BranchesCharge(k, l, desk.source, desk.provider, run.process.branches)
  {
    var p := ended.process.branches[t];
    k := SomethingMore(l, desk.source, desk.provider, p, h + [LedgerAnswer(l, desk.provider, p.act(h).read)]);
    PathCharges(k, l, desk.source, desk.provider, p, h);
    LaunchedTally(k, desk, c, run, ticks, ended);
    forall i | 0 <= i < |ended.process.threads| && i != t
      ensures ThreadSpent(k, desk.source, ended.process.branches[i], ended.process.threads[i])
           == Charges(k, l, desk.source, desk.provider, ended.process.branches[i], [])
    {
      UncutCosts(k, desk, l, c, ended, i);
    }
    OneShort(k, l, desk.source, desk.provider, ended.process.branches, ended.process.threads, t);
  }

  /** That run leaves a counter lower. */
  lemma FailsCut<W(!new)>(
    desk: Desk<W>, l: Ledger, c: Calculation, run: Run, j: nat, t: nat, known: set<Address>, e: Error, w: W)
    returns (k: Counter, ticks: seq<Tick<W>>, end: Run, outcome: Result<Metrics, Error>)
    requires Serves(desk, l) && Sound(desk, l, c, run) && CallsKeep(desk.source, {}, c, run)
    requires Launched(c, run.process) && Prompt(c) && run.cache.Keys <= known
    requires j < |run.process.branches| && t < |run.process.branches| && j != t
    requires Eval(l, desk.provider, run.process.branches[j], []).Err?
    requires Loose(l, desk.source, desk.provider, run.process.branches[t], known, [])
    ensures EndsIn(desk, c, run, ticks, end, outcome)
    ensures Count(k, end.stats)
          < Count(k, run.stats) + BranchesCharge(k, l, desk.source, desk.provider, run.process.branches)
  {
    var first, cut, h := CutAfter(desk, l, c, run, j, t, known, e, w);
    var going, ended;
    going, ended, ticks, end, outcome := ForkFailsAfter(desk, l, c, run, first, cut, j, w);
    k := OneCutCosts(desk, l, c, run, going, ended, t, h);
  }

  // ---- exactly ----

  /** Where a prompt calculation is not steady, some branch stands loose beside one that fails. */
  lemma LooseBranch(l: Ledger, source: Source, provider: Provider, c: Calculation, known: set<Address>)
    returns (h: seq<Input>, j: nat, t: nat)
    requires Prompt(c) && !Steady(l, source, provider, c, known)
    ensures OnCourse(l, provider, c, h) && c.next(h).Split?
    ensures j < |c.next(h).branches| && t < |c.next(h).branches| && j != t
    ensures Eval(l, provider, c.next(h).branches[j], []).Err?
    ensures Loose(l, source, provider, c.next(h).branches[t], known + CourseKeys(l, source, provider, c, h), [])
  {
    h :| OnCourse(l, provider, c, h) && c.next(h).Split?
         && !SteadyAt(l, source, provider, c, h, known + CourseKeys(l, source, provider, c, h));
    var branches := c.next(h).branches;
    var here := known + CourseKeys(l, source, provider, c, h);
    j, t :| 0 <= j < |branches| && 0 <= t < |branches| && j != t
            && Eval(l, provider, branches[j], []).Err? && Loose(l, source, provider, branches[t], here, []);
  }

  /** The split at h, launched, with nothing cached but what the course has read. */
  lemma ForkAt<W(!new)>(
    desk: Desk<W>, l: Ledger, c: Calculation, cache: Cache, stats: PreloadStats, h: seq<Input>, w: W)
    returns (ticks: seq<Tick<W>>, forked: Run)
    requires Serves(desk, l) && TableAgrees(l, cache) && Prompt(c)
    requires OnCourse(l, desk.provider, c, h) && c.next(h).Split?
    ensures Reaches(desk, c, Run(START, cache, stats, false), ticks, forked)
    ensures Sound(desk, l, c, forked) && CallsKeep(desk.source, {}, c, forked)
    ensures Launched(c, forked.process) && forked.process.h == h
    ensures forked.cache.Keys <= cache.Keys + CourseKeys(l, desk.source, desk.provider, c, h)
  {
    var run := Run(START, cache, stats, false);
    var mid, more;
    ticks, mid := CourseGoesOn(desk, l, c, run, h, w);
    RunTraced(desk, l, cache.Keys, c, run, ticks, mid);
    more, forked := ForkStarts(desk, l, c, mid, w);
    RunTraced(desk, l, cache.Keys, c, mid, more, forked);
    ReachesOn(desk, c, run, ticks, mid, more, forked);
    ticks := ticks + more;
  }

  /** From there, two runs to the end, one of which leaves a counter lower. */
  lemma ForkDiffers<W(!new)>(
    desk: Desk<W>, l: Ledger, c: Calculation, run: Run, j: nat, t: nat, known: set<Address>, w: W)
    returns (uncut: seq<Tick<W>>, end: Run, outcome: Result<Metrics, Error>,
             cut: seq<Tick<W>>, end': Run, outcome': Result<Metrics, Error>)
    requires Serves(desk, l) && Sound(desk, l, c, run) && CallsKeep(desk.source, {}, c, run)
    requires Launched(c, run.process) && Prompt(c) && run.cache.Keys <= known
    requires j < |run.process.branches| && t < |run.process.branches| && j != t
    requires Eval(l, desk.provider, run.process.branches[j], []).Err?
    requires Loose(l, desk.source, desk.provider, run.process.branches[t], known, [])
    ensures EndsIn(desk, c, run, uncut, end, outcome) && EndsIn(desk, c, run, cut, end', outcome')
    ensures end.stats != end'.stats
  {
    var e := Eval(l, desk.provider, run.process.branches[j], []).error;
    var k;
    uncut, end, outcome := FailsUncut(desk, l, c, run, j, w);
    k, cut, end', outcome' := FailsCut(desk, l, c, run, j, t, known, e, w);
    assert Count(k, end.stats) != Count(k, end'.stats);
  }

  lemma BothCount<W(!new)>(
    desk: Desk<W>, c: Calculation, run: Run, ticks: seq<Tick<W>>, forked: Run,
    a: seq<Tick<W>>, end: Run, outcome: Result<Metrics, Error>,
    b: seq<Tick<W>>, end': Run, outcome': Result<Metrics, Error>)
    requires Reaches(desk, c, run, ticks, forked)
    requires EndsIn(desk, c, forked, a, end, outcome) && EndsIn(desk, c, forked, b, end', outcome')
    requires end.stats != end'.stats
    ensures !SameCounters(desk, c, run)
  {
    ReachesOn(desk, c, run, ticks, forked, a, end);
    ReachesOn(desk, c, run, ticks, forked, b, end');
    assert EndsIn(desk, c, run, ticks + a, end, outcome) && EndsIn(desk, c, run, ticks + b, end', outcome');
  }

  lemma UnsteadyDiffers<W(!new)>(
    desk: Desk<W>, l: Ledger, c: Calculation, cache: Cache, stats: PreloadStats, w: W)
    requires Serves(desk, l) && TableAgrees(l, cache) && Prompt(c)
    requires !Steady(l, desk.source, desk.provider, c, cache.Keys)
    ensures !SameCounters(desk, c, Run(START, cache, stats, false))
  {
    var run := Run(START, cache, stats, false);
    var h, j, t := LooseBranch(l, desk.source, desk.provider, c, cache.Keys);
    var ticks, forked := ForkAt(desk, l, c, cache, stats, h, w);
    var known := cache.Keys + CourseKeys(l, desk.source, desk.provider, c, h);
    var uncut, end, outcome, cut, end', outcome' := ForkDiffers(desk, l, c, forked, j, t, known, w);
    BothCount(desk, c, run, ticks, forked, uncut, end, outcome, cut, end', outcome');
  }

  /**
   * Over a client that answers everything, a prompt calculation leaves the same counters in every interleaving of its
   * branches if and only if it is steady.
   */
  lemma CountersExactly<W(!new)>(
    desk: Desk<W>, l: Ledger, c: Calculation, cache: Cache, stats: PreloadStats, w: W)
    requires Serves(desk, l) && TableAgrees(l, cache) && Prompt(c)
    ensures SameCounters(desk, c, Run(START, cache, stats, false)) <==>
            Steady(l, desk.source, desk.provider, c, cache.Keys)
  {
    if Steady(l, desk.source, desk.provider, c, cache.Keys) {
      SteadyCounts(desk, l, c, cache, stats);
    } else {
      UnsteadyDiffers(desk, l, c, cache, stats, w);
    }
  }

  // ---- an unsteady calculation ----

  /** As a supply task: a query, and only if that is answered, a counted read. */
  function SupplyBranch(q: Query, a: Address): Program {
    Strategy(
      (h: seq<Answer>) => if |h| == 0 then 14 else if |h| == 1 then 10 else 0,
      (h: seq<Answer>) =>
        if |h| == 0 then Ask(QueryRead(q))
        else if |h| == 1 && !Failed(h[0]) then Ask(AccountRead(a))
        else Finish(Ok([])))
  }

  lemma FailingGivesUp(e: Error)
    ensures GivesUp(FailingBranch(e))
  {
  }

  lemma SupplyGivesUp(q: Query, a: Address)
    ensures GivesUp(SupplyBranch(q, a))
  {
  }

  lemma SplittingIsPrompt(branches: seq<Program>)
    requires forall k | 0 <= k < |branches| :: GivesUp(branches[k])
    ensures Prompt(Splitting(branches))
  {
  }

  lemma SplittingIsDecided(l: Ledger, provider: Provider, branches: seq<Program>)
    requires OneError(l, provider, branches)
    ensures Decided(l, provider, Splitting(branches))
  {
  }

  /**
   * Beside a branch that fails, a supply branch may be cut short before its counted read or not: the outcome is decided
   * and the counters are not.
   */
  lemma FailureSwaysCounters<W(!new)>(
    desk: Desk<W>, l: Ledger, e: Error, q: Query, a: Address, cache: Cache, stats: PreloadStats, w: W)
    requires Serves(desk, l) && desk.source == Preloaded && TableAgrees(l, cache)
    ensures var c := Splitting([FailingBranch(e), SupplyBranch(q, a)]);
            && Prompt(c) && Decided(l, desk.provider, c)
            && !SameCounters(desk, c, Run(START, cache, stats, false))
  {
    var branches := [FailingBranch(e), SupplyBranch(q, a)];
    FailingGivesUp(e);
    SupplyGivesUp(q, a);
    SplittingIsPrompt(branches);
    SupplyIsLoose(l, desk.provider, q, a, cache.Keys);
    assert Eval(l, desk.provider, branches[0], []) == Err(e);
    assert OneError(l, desk.provider, branches);
    SplittingIsDecided(l, desk.provider, branches);
    LooseSplits(l, desk.source, desk.provider, branches, cache.Keys);
    UnsteadyDiffers(desk, l, Splitting(branches), cache, stats, w);
  }

  lemma LooseSplits(l: Ledger, source: Source, provider: Provider, branches: seq<Program>, known: set<Address>)
    requires |branches| == 2 && Eval(l, provider, branches[0], []).Err?
    requires Loose(l, source, provider, branches[1], known, [])
    ensures !Steady(l, source, provider, Splitting(branches), known)
  {
    var c := Splitting(branches);
    assert OnCourse(l, provider, c, []) && c.next([]) == Split(branches);
    assert known + CourseKeys(l, source, provider, c, []) == known;
    assert !SteadyAt(l, source, provider, c, [], known);
  }

  lemma SupplyIsLoose(l: Ledger, provider: Provider, q: Query, a: Address, known: set<Address>)
    ensures Loose(l, Preloaded, provider, SupplyBranch(q, a), known, [])
    ensures Eval(l, provider, SupplyBranch(q, a), []).Ok?
  {
    var p := SupplyBranch(q, a);
    var x := LedgerAnswer(l, provider, QueryRead(q));
    assert [] + [x] == [x];
    assert CountsOn(l, Preloaded, provider, p, [x]);
    var y := LedgerAnswer(l, provider, AccountRead(a));
    assert p.act([x] + [y]) == Finish(Ok([]));
  }
}
