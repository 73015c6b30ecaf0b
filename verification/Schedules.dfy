/**
 * Every outcome the ledger allows a calculation is one some interleaving of its branches gives: to get the error of a
 * certain branch, let that branch run first.
 */
module Schedules {
  import opened Basics
  import opened Errors
  import opened Rpc
  import opened Batching
  import opened Preload
  import opened Calculators
  import opened Calls
  import opened Calculations
  import opened Processes

  ghost predicate Sound<W>(desk: Desk<W>, l: Ledger, c: Calculation, run: Run) {
    Shape(c, run.process) && Truth(l, desk.provider, c, run) && Calm(desk.provider, c, run)
  }

  /** A client that answers everything, exactly. */
  ghost predicate Serves<W(!new)>(desk: Desk<W>, l: Ledger) {
    Exact(desk.inner, l) && NeverFails(desk.inner, desk.ctx)
  }

  lemma AdvanceSound<W(!new)>(desk: Desk<W>, l: Ledger, c: Calculation, run: Run, tick: Tick<W>)
    requires Serves(desk, l) && Sound(desk, l, c, run) && CanTick(run.process, tick)
    ensures Sound(desk, l, c, Advance(desk, c, run, tick))
  {
    AdvanceShape(desk, c, run, tick);
    AdvanceIsTrue(desk, l, c, run, tick);
    AdvanceCalm(desk, c, run, tick);
  }

  lemma {:induction false} ReachesOn<W>(
    desk: Desk<W>, c: Calculation, run: Run, ticks: seq<Tick<W>>, mid: Run, more: seq<Tick<W>>, end: Run)
    requires Reaches(desk, c, run, ticks, mid) && Reaches(desk, c, mid, more, end)
    ensures Reaches(desk, c, run, ticks + more, end)
    decreases |ticks|
  {
    if ticks == [] {
      assert ticks + more == more;
    } else {
      assert (ticks + more)[1..] == ticks[1..] + more;
      ReachesOn(desk, c, Advance(desk, c, run, ticks[0]), ticks[1..], mid, more, end);
    }
  }

  lemma ReachesOne<W>(desk: Desk<W>, c: Calculation, run: Run, tick: Tick<W>)
    requires CanTick(run.process, tick)
    ensures Reaches(desk, c, run, [tick], Advance(desk, c, run, tick))
  {
    assert [tick][1..] == [];
  }

  // ---- reading in the main goroutine ----

  lemma {:induction false} MainReads<W(!new)>(desk: Desk<W>, l: Ledger, c: Calculation, run: Run, w: W)
    returns (ticks: seq<Tick<W>>, end: Run)
    requires Serves(desk, l) && Sound(desk, l, c, run) && run.process.Main? && c.next(run.process.h).Consult?
    ensures Reaches(desk, c, run, ticks, end) && Sound(desk, l, c, end)
    ensures end.process == Main(run.process.h + [Got(LedgerAnswer(l, desk.provider, c.next(run.process.h).read))], None)
    decreases Left(c, run.process)
  {
    var tick, h := Go(w), run.process.h;
    var run' := Advance(desk, c, run, tick);
    AdvanceSound(desk, l, c, run, tick);
    AdvanceRunsOut(desk, c, run, tick);
    LeftIsNatural(c, run.process);
    LeftIsNatural(c, run'.process);
    ReachesOne(desk, c, run, tick);
    if run'.process.h == h {
      var more;
      more, end := MainReads(desk, l, c, run', w);
      ReachesOn(desk, c, run, [tick], run', more, end);
      ticks := [tick] + more;
    } else {
      ticks, end := [tick], run';
      assert Fits(l, desk.provider, c.next(run'.process.h[..|h|]), run'.process.h[|h|]);
      assert run'.process.h[..|h|] == h;
    }
  }

  // ---- branches ----

  /** Everything but branch t is as it was. */
  ghost predicate OnlyBranch(before: Process, after: Process, t: nat)
    requires before.Forked? && Paired(before)
  {
    && after.Forked? && Paired(after) && after.h == before.h && after.branches == before.branches
    && after.pool.launched == before.pool.launched
    && |after.threads| == |before.threads|
    && forall k | 0 <= k < |before.threads| && k != t ::
         after.threads[k] == before.threads[k] && after.pool.tasks[k] == before.pool.tasks[k]
  }

  lemma {:induction false} BranchReads<W(!new)>(desk: Desk<W>, l: Ledger, c: Calculation, run: Run, t: nat, w: W)
    returns (ticks: seq<Tick<W>>, end: Run)
    requires Serves(desk, l) && Sound(desk, l, c, run) && run.process.Forked? && t < |run.process.threads|
    requires run.process.pool.tasks[t].Running? && !run.process.threads[t].cut
    ensures Reaches(desk, c, run, ticks, end) && Sound(desk, l, c, end)
    ensures OnlyBranch(run.process, end.process, t) && end.process.pool == run.process.pool
    ensures end.process.branches[t].act(end.process.threads[t].h).Finish? && !end.process.threads[t].cut
    decreases Left(c, run.process)
  {
    var process := run.process;
    if process.branches[t].act(process.threads[t].h).Finish? {
      ticks, end := [], run;
    } else {
      var tick := Task(t, w, None);
      var run' := Advance(desk, c, run, tick);
      AdvanceSound(desk, l, c, run, tick);
      AdvanceRunsOut(desk, c, run, tick);
      LeftIsNatural(c, run.process);
      LeftIsNatural(c, run'.process);
      ReachesOne(desk, c, run, tick);
      var more;
      more, end := BranchReads(desk, l, c, run', t, w);
      ReachesOn(desk, c, run, [tick], run', more, end);
      ticks := [tick] + more;
    }
  }

  /** A pool step of task t, as a tick. */
  lemma PoolTick<W(!new)>(desk: Desk<W>, l: Ledger, c: Calculation, run: Run, t: nat, w: W) returns (end: Run)
    requires Serves(desk, l) && Sound(desk, l, c, run) && run.process.Forked? && t < |run.process.threads|
    requires TaskPoolStep(run.process, t).Some?
    ensures Reaches(desk, c, run, [Task(t, w, None)], end) && Sound(desk, l, c, end)
    ensures PX.Enabled(run.process.pool, TaskPoolStep(run.process, t).value)
    ensures end.process
         == run.process.(pool := PX.Apply(run.process.pool, TaskPoolStep(run.process, t).value))
  {
    var tick := Task(t, w, None);
    TaskPoolShape(run.process, t);
    assert ThreadShape(run.process.branches[t], run.process.pool.tasks[t], run.process.threads[t],
                       run.process.pool.cancelled);
    AdvanceSound(desk, l, c, run, tick);
    ReachesOne(desk, c, run, tick);
    end := Advance(desk, c, run, tick);
  }

  /** A branch that has finished reading, to its return. */
  lemma BranchReturns<W(!new)>(desk: Desk<W>, l: Ledger, c: Calculation, run: Run, t: nat, w: W) returns (end: Run)
    requires Serves(desk, l) && Sound(desk, l, c, run) && run.process.Forked? && t < |run.process.threads|
    requires run.process.pool.tasks[t].Running? && !run.process.threads[t].cut
    requires run.process.branches[t].act(run.process.threads[t].h).Finish?
    ensures Reaches(desk, c, run, [Task(t, w, None)], end) && Sound(desk, l, c, end)
    ensures OnlyBranch(run.process, end.process, t) && end.process.threads == run.process.threads
    ensures end.process.pool.queue == run.process.pool.queue
    ensures if Eval(l, desk.provider, run.process.branches[t], []).Err? then
              end.process.pool.tasks[t].Failed? && end.process.pool.tasks[t].report.task == t
            else end.process.pool.tasks[t].Ended?
  {
    assert ThreadTruth(l, desk.provider, run.cache, run.process.branches[t], run.process.threads[t], run.faulted);
    EndedIsEval(l, desk.provider, run.cache, run.process.branches[t], run.process.threads[t]);
    end := PoolTick(desk, l, c, run, t, w);
  }

  /** A failed branch sends its report and cancels the others. */
  lemma BranchReports<W(!new)>(desk: Desk<W>, l: Ledger, c: Calculation, run: Run, t: nat, w: W) returns (end: Run)
    requires Serves(desk, l) && Sound(desk, l, c, run) && run.process.Forked? && t < |run.process.threads|
    requires run.process.pool.tasks[t].Failed? && run.process.pool.tasks[t].report.task == t
    ensures Reaches(desk, c, run, [Task(t, w, None), Task(t, w, None)], end) && Sound(desk, l, c, end)
    ensures OnlyBranch(run.process, end.process, t) && end.process.threads == run.process.threads
    ensures end.process.pool.tasks[t].Ended?
    ensures end.process.pool.queue == run.process.pool.queue + [run.process.pool.tasks[t].report]
  {
    PX.RoomInQueue(run.process.pool, t);
    var sent := PoolTick(desk, l, c, run, t, w);
    end := PoolTick(desk, l, c, sent, t, w);
    ReachesOn(desk, c, run, [Task(t, w, None)], sent, [Task(t, w, None)], end);
    assert [Task(t, w, None)] + [Task(t, w, None)] == [Task(t, w, None), Task(t, w, None)];
  }

  /** Branch t from wherever it is to its end, while the others wait. */
  lemma BranchEnds<W(!new)>(desk: Desk<W>, l: Ledger, c: Calculation, run: Run, t: nat, w: W)
    returns (ticks: seq<Tick<W>>, end: Run)
    requires Serves(desk, l) && Sound(desk, l, c, run) && run.process.Forked? && t < |run.process.threads|
    requires run.process.pool.tasks[t].Running? && !run.process.threads[t].cut
    ensures Reaches(desk, c, run, ticks, end) && Sound(desk, l, c, end)
    ensures OnlyBranch(run.process, end.process, t) && end.process.pool.tasks[t].Ended?
    ensures !end.process.threads[t].cut && run.process.pool.queue <= end.process.pool.queue
    ensures Eval(l, desk.provider, run.process.branches[t], []).Err? ==>
              |end.process.pool.queue| > |run.process.pool.queue|
              && end.process.pool.queue[|run.process.pool.queue|].task == t
  {
    var read;
    ticks, read := BranchReads(desk, l, c, run, t, w);
    end := BranchReturns(desk, l, c, read, t, w);
    ReachesOn(desk, c, run, ticks, read, [Task(t, w, None)], end);
    ticks := ticks + [Task(t, w, None)];
    if Eval(l, desk.provider, run.process.branches[t], []).Err? {
      var returned := end;
      end := BranchReports(desk, l, c, returned, t, w);
      ReachesOn(desk, c, run, ticks, returned, [Task(t, w, None), Task(t, w, None)], end);
      ticks := ticks + [Task(t, w, None), Task(t, w, None)];
    }
  }

  /** All branches are running or ended, and those running have not been cut short. */
  ghost predicate UnderWay(process: Process) {
    process.Forked? && Paired(process) && process.pool.launched == |process.threads| &&
    forall k | 0 <= k < |process.threads| ::
      process.pool.tasks[k].Ended? || (process.pool.tasks[k].Running? && !process.threads[k].cut)
  }

  lemma {:induction false} LaunchAll<W(!new)>(desk: Desk<W>, l: Ledger, c: Calculation, run: Run, w: W)
    returns (ticks: seq<Tick<W>>, end: Run)
    requires Serves(desk, l) && Sound(desk, l, c, run) && run.process.Forked? && run.process.pool.queue == []
    requires forall k | 0 <= k < |run.process.threads| ::
               if k < run.process.pool.launched then run.process.pool.tasks[k].Running? && !run.process.threads[k].cut
               else run.process.pool.tasks[k].Ready?
    ensures Reaches(desk, c, run, ticks, end) && Sound(desk, l, c, end)
    ensures UnderWay(end.process) && end.process.pool.queue == []
    ensures end.process.h == run.process.h && end.process.branches == run.process.branches
    ensures end.process.threads == run.process.threads && end.cache == run.cache && end.stats == run.stats
    ensures forall k | 0 <= k < |end.process.threads| :: end.process.pool.tasks[k].Running?
    decreases |run.process.threads| - run.process.pool.launched
  {
    var pool := run.process.pool;
    if pool.launched == |run.process.threads| {
      ticks, end := [], run;
    } else {
      var tick := Go(w);
      assert ThreadShape(run.process.branches[pool.launched], pool.tasks[pool.launched],
                         run.process.threads[pool.launched], pool.cancelled);
      var run' := Advance(desk, c, run, tick);
      AdvanceSound(desk, l, c, run, tick);
      ReachesOne(desk, c, run, tick);
      var more;
      more, end := LaunchAll(desk, l, c, run', w);
      ReachesOn(desk, c, run, [tick], run', more, end);
      ticks := [tick] + more;
    }
  }

  /** The branches from n on, one after another. */
  lemma {:induction false} RestEnds<W(!new)>(desk: Desk<W>, l: Ledger, c: Calculation, run: Run, n: nat, w: W)
    returns (ticks: seq<Tick<W>>, end: Run)
    requires Serves(desk, l) && Sound(desk, l, c, run) && UnderWay(run.process) && n <= |run.process.threads|
    requires forall k | 0 <= k < n :: run.process.pool.tasks[k].Ended?
    ensures Reaches(desk, c, run, ticks, end) && Sound(desk, l, c, end) && UnderWay(end.process)
    ensures forall k | 0 <= k < |end.process.threads| :: end.process.pool.tasks[k].Ended?
    ensures end.process.h == run.process.h && end.process.branches == run.process.branches
    ensures |end.process.threads| == |run.process.threads|
    ensures forall k | 0 <= k < |end.process.threads| ::
              if run.process.pool.tasks[k].Ended? then end.process.threads[k] == run.process.threads[k]
              else !end.process.threads[k].cut
    ensures run.process.pool.queue <= end.process.pool.queue
    decreases |run.process.threads| - n
  {
    if n == |run.process.threads| {
      ticks, end := [], run;
    } else if run.process.pool.tasks[n].Ended? {
      ticks, end := RestEnds(desk, l, c, run, n + 1, w);
    } else {
      var mid, more;
      ticks, mid := BranchEnds(desk, l, c, run, n, w);
      more, end := RestEnds(desk, l, c, mid, n + 1, w);
      ReachesOn(desk, c, run, ticks, mid, more, end);
      ticks := ticks + more;
    }
  }

  /** A split, with its branches under way. */
  lemma ForkStarts<W(!new)>(desk: Desk<W>, l: Ledger, c: Calculation, run: Run, w: W)
    returns (ticks: seq<Tick<W>>, end: Run)
    requires Serves(desk, l) && Sound(desk, l, c, run) && run.process.Main? && c.next(run.process.h).Split?
    ensures Reaches(desk, c, run, ticks, end) && Sound(desk, l, c, end)
    ensures UnderWay(end.process) && end.process.pool.queue == []
    ensures end.process.h == run.process.h && end.process.branches == c.next(run.process.h).branches
    ensures end.cache == run.cache && end.stats == run.stats
    ensures forall k | 0 <= k < |end.process.threads| ::
              end.process.pool.tasks[k].Running? && end.process.threads[k] == Thread([], None, false)
  {
    var forked := Advance(desk, c, run, Go(w));
    AdvanceSound(desk, l, c, run, Go(w));
    ReachesOne(desk, c, run, Go(w));
    ticks, end := LaunchAll(desk, l, c, forked, w);
    ReachesOn(desk, c, run, [Go(w)], forked, ticks, end);
    ticks := [Go(w)] + ticks;
  }

  /** With all branches ended, the join. */
  lemma ForkJoins<W(!new)>(
    desk: Desk<W>, l: Ledger, c: Calculation, run: Run, r: Result<seq<Metrics>, Error>, first: nat, w: W)
    returns (end: Run)
    requires Serves(desk, l) && Sound(desk, l, c, run) && UnderWay(run.process)
    requires forall k | 0 <= k < |run.process.threads| :: run.process.pool.tasks[k].Ended?
    requires MayJoin(l, desk.provider, run.process.branches, r)
    requires r.Err? ==> run.process.pool.queue != [] && run.process.pool.queue[0].task == first < |run.process.branches|
                        && Eval(l, desk.provider, run.process.branches[first], []) == Err(r.error)
    ensures Reaches(desk, c, run, [Go(w)], end) && Sound(desk, l, c, end)
    ensures end.process == Main(run.process.h + [Joined(r)], None)
  {
    JoinGives(desk, l, c, run, r, first);
    AdvanceSound(desk, l, c, run, Go(w));
    ReachesOne(desk, c, run, Go(w));
    end := Advance(desk, c, run, Go(w));
  }

  /** A split that comes back with any result the ledger allows. */
  lemma ForkGives<W(!new)>(
    desk: Desk<W>, l: Ledger, c: Calculation, run: Run, r: Result<seq<Metrics>, Error>, w: W)
    returns (ticks: seq<Tick<W>>, end: Run)
    requires Serves(desk, l) && Sound(desk, l, c, run) && run.process.Main? && c.next(run.process.h).Split?
    requires MayJoin(l, desk.provider, c.next(run.process.h).branches, r)
    ensures Reaches(desk, c, run, ticks, end) && Sound(desk, l, c, end)
    ensures end.process == Main(run.process.h + [Joined(r)], None)
  {
    var branches := c.next(run.process.h).branches;
    var mid, more, ended;
    ticks, mid := ForkStarts(desk, l, c, run, w);
    var first := 0;
    if r.Err? {
      first :| 0 <= first < |branches| && Eval(l, desk.provider, branches[first], []) == Err(r.error);
      var going, gone := BranchEnds(desk, l, c, mid, first, w);
      ReachesOn(desk, c, run, ticks, mid, going, gone);
      ticks, mid := ticks + going, gone;
    }
    more, ended := RestEnds(desk, l, c, mid, 0, w);
    ReachesOn(desk, c, run, ticks, mid, more, ended);
    end := ForkJoins(desk, l, c, ended, r, first, w);
    ReachesOn(desk, c, run, ticks + more, ended, [Go(w)], end);
    ticks := ticks + more + [Go(w)];
  }

  lemma JoinGives<W(!new)>(
    desk: Desk<W>, l: Ledger, c: Calculation, run: Run, r: Result<seq<Metrics>, Error>, first: nat)
    requires Sound(desk, l, c, run) && UnderWay(run.process)
    requires forall k | 0 <= k < |run.process.threads| :: run.process.pool.tasks[k].Ended?
    requires MayJoin(l, desk.provider, run.process.branches, r)
    requires r.Err? ==> run.process.pool.queue != [] && run.process.pool.queue[0].task == first < |run.process.branches|
                        && Eval(l, desk.provider, run.process.branches[first], []) == Err(r.error)
    ensures GoFork(run).process == Main(run.process.h + [Joined(r)], None)
  {
    var process := run.process;
    assert PX.Enabled(process.pool, PX.Finish);
    var returned := PX.Apply(process.pool, PX.Finish).result.value;
    if r.Err? {
      FirstReportIsOwn(process.branches, process.pool, process.threads);
      EndedIsEval(l, desk.provider, run.cache, process.branches[first], process.threads[first]);
    } else {
      assert AllSucceed(l, desk.provider, process.branches);
      JoinIsPossible(l, desk.provider, run.cache, process);
      JoinsAgree(l, desk.provider, process.branches, r, Processes.Result(process, returned));
    }
  }

  // ---- whole calculations ----

  /** From any point of a course, any later one can be had. */
  lemma {:induction false} CourseGoesOn<W(!new)>(
    desk: Desk<W>, l: Ledger, c: Calculation, run: Run, h: seq<Input>, w: W)
    returns (ticks: seq<Tick<W>>, end: Run)
    requires Serves(desk, l) && Sound(desk, l, c, run) && OnCourse(l, desk.provider, c, h)
    requires run.process.Main? && run.process.call.None? && run.process.h <= h
    ensures Reaches(desk, c, run, ticks, end) && Sound(desk, l, c, end) && end.process == Main(h, None)
    decreases |h| - |run.process.h|
  {
    var at := |run.process.h|;
    if at == |h| {
      assert run.process.h == h;
      ticks, end := [], run;
    } else {
      assert run.process.h == h[..at];
      assert Fits(l, desk.provider, c.next(h[..at]), h[at]);
      assert h[..at + 1] == h[..at] + [h[at]];
      var mid, more;
      if c.next(h[..at]).Consult? {
        ticks, mid := MainReads(desk, l, c, run, w);
      } else {
        ticks, mid := ForkGives(desk, l, c, run, h[at].result, w);
      }
      more, end := CourseGoesOn(desk, l, c, mid, h, w);
      ReachesOn(desk, c, run, ticks, mid, more, end);
      ticks := ticks + more;
    }
  }

  /** The last step of a course. */
  lemma CourseConcludes<W(!new)>(desk: Desk<W>, l: Ledger, c: Calculation, run: Run, w: W) returns (end: Run)
    requires Serves(desk, l) && Sound(desk, l, c, run) && run.process.Main? && c.next(run.process.h).Conclude?
    ensures Reaches(desk, c, run, [Go(w)], end) && !end.faulted && end.stats == run.stats
    ensures end.process == Concluded(c.next(run.process.h).outcome)
  {
    ReachesOne(desk, c, run, Go(w));
    AdvanceSound(desk, l, c, run, Go(w));
    end := Advance(desk, c, run, Go(w));
  }

  /** A run to the end in which every read was answered. */
  ghost predicate EndsIn<W>(
    desk: Desk<W>, c: Calculation, run: Run, ticks: seq<Tick<W>>, end: Run, outcome: Result<Metrics, Error>)
  {
    Reaches(desk, c, run, ticks, end) && !end.faulted && end.process == Concluded(outcome)
  }

  /**
   * The outcomes of a calculation on its own, over all interleavings of its branches, are exactly those the ledger
   * allows.
   */
  lemma OutcomesExactly<W(!new)>(
    desk: Desk<W>, l: Ledger, c: Calculation, cache: Cache, stats: PreloadStats, outcome: Result<Metrics, Error>, w: W)
    requires Serves(desk, l) && TableAgrees(l, cache)
    ensures May(l, desk.provider, c, outcome) <==>
            exists ticks, end :: EndsIn(desk, c, Run(START, cache, stats, false), ticks, end, outcome)
  {
    var run := Run(START, cache, stats, false);
    if May(l, desk.provider, c, outcome) {
      var h :| OnCourse(l, desk.provider, c, h) && c.next(h) == Conclude(outcome);
      var ticks, mid := CourseGoesOn(desk, l, c, run, h, w);
      var end := CourseConcludes(desk, l, c, mid, w);
      ReachesOn(desk, c, run, ticks, mid, [Go(w)], end);
      assert EndsIn(desk, c, run, ticks + [Go(w)], end, outcome);
    }
    forall ticks, end | EndsIn(desk, c, run, ticks, end, outcome)
      ensures May(l, desk.provider, c, outcome)
    {
      RunIsTrue(desk, l, c, run, ticks, end);
    }
  }

  // ---- branches that both fail ----

  /** A branch that fails without reading. */
  function FailingBranch(e: Error): Program {
    Strategy(_ => 0, _ => Finish(Err(e)))
  }

  /** Splits into the branches, and comes back with their error if there is one. */
  function Splitting(branches: seq<Program>): Calculation {
    Blueprint(
      (h: seq<Input>) => if h == [] then BranchesDemand(branches) + 4 else 0,
      (h: seq<Input>) =>
        if h == [] then Split(branches)
        else Conclude(if h[0].Joined? && h[0].result.Err? then Err(h[0].result.error) else Ok([])))
  }

  /** With two branches that fail by themselves, either error may come back: some interleaving brings each. */
  lemma EitherErrorComesBack<W(!new)>(
    desk: Desk<W>, l: Ledger, e: Error, f: Error, cache: Cache, stats: PreloadStats, w: W)
    requires Serves(desk, l) && TableAgrees(l, cache) && e != f
    ensures var c := Splitting([FailingBranch(e), FailingBranch(f)]);
            && !Decided(l, desk.provider, c)
            && (exists ticks, end :: EndsIn(desk, c, Run(START, cache, stats, false), ticks, end, Err(e)))
            && (exists ticks, end :: EndsIn(desk, c, Run(START, cache, stats, false), ticks, end, Err(f)))
  {
    var branches := [FailingBranch(e), FailingBranch(f)];
    var c := Splitting(branches);
    assert Eval(l, desk.provider, branches[0], []) == Err(e) && Eval(l, desk.provider, branches[1], []) == Err(f);
    assert OnCourse(l, desk.provider, c, []) && c.next([]) == Split(branches);
    assert !OneError(l, desk.provider, branches);
    JoinedErrorComes(l, desk.provider, branches, e, 0);
    JoinedErrorComes(l, desk.provider, branches, f, 1);
    OutcomesExactly(desk, l, c, cache, stats, Err(e), w);
    OutcomesExactly(desk, l, c, cache, stats, Err(f), w);
  }

  lemma JoinedErrorComes(l: Ledger, provider: Provider, branches: seq<Program>, e: Error, j: nat)
    requires j < |branches| && Eval(l, provider, branches[j], []) == Err(e)
    ensures May(l, provider, Splitting(branches), Err(e))
  {
    var c := Splitting(branches);
    var x: Input := Joined(Err(e));
    assert MayJoin(l, provider, branches, Err(e));
    CourseGrows(l, provider, c, [], x);
    assert [] + [x] == [x];
    assert c.next([x]) == Conclude(Err(e));
  }
}
