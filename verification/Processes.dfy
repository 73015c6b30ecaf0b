/**
 * A calculation under way: its main goroutine and, between a split and its join, the branches parallelx.Run started,
 * all sharing the cache and the counters of one client.  One step is one access to something shared, or one reply of
 * the RPC client; the interleaving is arbitrary.
 */
module Processes {
  import opened Basics
  import opened Errors
  import opened Rpc
  import opened Batching
  import opened Preload
  import opened Calculators
  import opened Calls
  import opened Calculations
  import PX = ParallelX

  /** A branch: the answers it has had, its read in progress, and whether cancellation has cut a read of it short. */
  datatype Thread = Thread(h: seq<Answer>, call: Option<Call>, cut: bool)

  datatype Process =
    | Main(h: seq<Input>, call: Option<Call>)
    | Forked(h: seq<Input>, branches: seq<Program>, pool: PX.Pool, threads: seq<Thread>)
    | Concluded(outcome: Result<Metrics, Error>)

  /** faulted records history: a read not cut short by cancellation went unanswered. */
  datatype Run = Run(process: Process, cache: Cache, stats: PreloadStats, faulted: bool)

  /**
   * Who moves next, the world its call to the client would meet, and for a branch whose context is cancelled the error
   * that may come back instead of an answer.
   */
  datatype Tick<W> = Go(w: W) | Task(t: nat, w: W, cut: Option<Error>)

  const START := Main([], None)

  // ---- one goroutine reading ----

  datatype Progress = Progress(call: Option<Call>, answer: Option<Answer>, cache: Cache, stats: PreloadStats)

  /** The next step of a read: begin it, carry it on, or take its answer. */
  function ReadOn<W>(
    desk: Desk<W>, read: Read, call: Option<Call>, w: W, cut: Option<Error>, cache: Cache, stats: PreloadStats)
    : Progress
  {
    match call
    case None => Progress(Some(Begin(desk.source, read)), None, cache, Begun(desk.source, read, stats))
    case Some(Answered(answer)) => Progress(None, Some(answer), cache, stats)
    case Some(c) =>
      Progress(Some(Proceed(desk, read, c, w, cut, cache)), None, Filled(desk, c, w, cut, cache), stats)
  }

  // ---- steps ----

  function NewPool(n: nat): PX.Pool {
    PX.Pool(seq(n, _ => PX.Ready), 0, [], false, false, None)
  }

  function NewThreads(n: nat): (r: seq<Thread>)
    ensures |r| == n && forall t | 0 <= t < n :: r[t] == Thread([], None, false)
  {
    seq(n, _ => Thread([], None, false))
  }

  function GoMain<W>(desk: Desk<W>, c: Calculation, run: Run, w: W): Run
    requires run.process.Main?
  {
    var h := run.process.h;
    match c.next(h)
    case Conclude(outcome) => run.(process := Concluded(outcome))
    case Split(branches) =>
      run.(process := Forked(h, branches, NewPool(|branches|), NewThreads(|branches|)))
    case Consult(read) =>
      var p := ReadOn(desk, read, run.process.call, w, None, run.cache, run.stats);
      if p.answer.None? then Run(Main(h, p.call), p.cache, p.stats, run.faulted)
      else
        Run(Main(h + [Got(p.answer.value)], None), p.cache, p.stats,
            run.faulted || Fault(desk.provider, read, p.answer.value))
  }

  function Payload(p: Program, h: seq<Answer>): Metrics {
    match p.act(h)
    case Finish(Ok(m)) => m
    case _ => []
  }

  /** What parallelx.Run returned, with the payloads the branches left behind. */
  function Result(process: Process, returned: Option<PX.Report>): Result<seq<Metrics>, Error>
    requires process.Forked? && |process.threads| == |process.branches|
  {
    if returned.Some? then Err(returned.value.error)
    else
      Ok(seq(|process.branches|, t requires 0 <= t < |process.branches| =>
               Payload(process.branches[t], process.threads[t].h)))
  }

  predicate Paired(process: Process) {
    process.Forked? ==>
      |process.branches| == |process.threads| == |process.pool.tasks|
  }

  predicate CanTick<W>(process: Process, tick: Tick<W>) {
    Paired(process) &&
    match process
    case Concluded(_) => false
    case Main(_, _) => tick.Go?
    case Forked(_, branches, pool, threads) =>
      match tick
      case Go(_) => PX.Enabled(pool, PX.Launch) || PX.Enabled(pool, PX.Finish)
      case Task(t, _, cut) =>
        && t < |threads| && pool.result.None?
        && (pool.tasks[t].Running? || pool.tasks[t].Failed? || pool.tasks[t].Reported?)
        && (threads[t].cut ==> pool.cancelled)
        && (cut.Some? ==>
              && pool.cancelled && pool.tasks[t].Running?
              && threads[t].call.Some? && Exposed(threads[t].call.value))
  }

  /** The main goroutine inside parallelx.Run: launching tasks, then waiting for all of them. */
  function GoFork(run: Run): Run
    requires run.process.Forked? && Paired(run.process)
    requires PX.Enabled(run.process.pool, PX.Launch) || PX.Enabled(run.process.pool, PX.Finish)
  {
    var process := run.process;
    if PX.Enabled(process.pool, PX.Launch)
    then run.(process := process.(pool := PX.Apply(process.pool, PX.Launch)))
    else
      var returned := PX.Apply(process.pool, PX.Finish).result.value;
      run.(process := Main(process.h + [Joined(Result(process, returned))], None))
  }

  function Returned(t: nat, th: Thread, outcome: Result<Metrics, Error>): PX.Step {
    PX.Return(t, if outcome.Err? then Some(PX.Report(t, outcome.error, th.cut)) else None)
  }

  /** The pool's step a task takes when it is not reading. */
  function TaskPoolStep(process: Process, t: nat): Option<PX.Step>
    requires process.Forked? && Paired(process) && t < |process.threads|
  {
    match process.pool.tasks[t]
    case Failed(_) => Some(PX.Send(t))
    case Reported(_) => Some(PX.Cancel(t))
    case Running =>
      (match process.branches[t].act(process.threads[t].h)
       case Finish(outcome) => Some(Returned(t, process.threads[t], outcome))
       case Ask(_) => None)
    case _ => None
  }

  function TaskReads<W>(desk: Desk<W>, run: Run, t: nat, read: Read, w: W, cut: Option<Error>): Run
    requires run.process.Forked? && t < |run.process.threads|
  {
    var th := run.process.threads[t];
    var p := ReadOn(desk, read, th.call, w, cut, run.cache, run.stats);
    var th' := if p.answer.Some? then Thread(th.h + [p.answer.value], None, th.cut)
               else Thread(th.h, p.call, th.cut || cut.Some?);
    Run(run.process.(threads := run.process.threads[t := th']), p.cache, p.stats,
        run.faulted || (p.answer.Some? && !th.cut && Fault(desk.provider, read, p.answer.value)))
  }

  function Advance<W>(desk: Desk<W>, c: Calculation, run: Run, tick: Tick<W>): Run
    requires CanTick(run.process, tick)
  {
    if run.process.Main? then GoMain(desk, c, run, tick.w)
    else if tick.Go? then GoFork(run)
    else
      var process := run.process;
      var step := TaskPoolStep(process, tick.t);
      if step.Some? then run.(process := process.(pool := PX.Apply(process.pool, step.value)))
      else TaskReads(desk, run, tick.t, process.branches[tick.t].act(process.threads[tick.t].h).read, tick.w, tick.cut)
  }

  ghost predicate Reaches<W>(desk: Desk<W>, c: Calculation, run: Run, ticks: seq<Tick<W>>, end: Run)
    decreases |ticks|
  {
    if ticks == [] then run == end
    else CanTick(run.process, ticks[0]) && Reaches(desk, c, Advance(desk, c, run, ticks[0]), ticks[1..], end)
  }

  // ---- the shape of a process, over any client ----

  ghost predicate CallFits(read: Read, call: Call) {
    call.Sharing? ==> (read.AccountRead? || read.AccountsRead?) && CallSized(call)
  }

  predicate Reports(p: Program, th: Thread, r: PX.Report) {
    p.act(th.h).Finish? && p.act(th.h).outcome == Err(r.error) && r.induced == th.cut
  }

  ghost predicate ThreadShape(p: Program, task: PX.Task, th: Thread, cancelled: bool) {
    && (th.cut ==> cancelled)
    && (th.call.Some? ==> task.Running? && p.act(th.h).Ask? && CallFits(p.act(th.h).read, th.call.value))
    && match task
       case Nil => false
       case Ready => th == Thread([], None, false)
       case Running => true
       case Failed(r) => Reports(p, th, r)
       case Reported(r) => Reports(p, th, r)
       case Ended(Some(r)) => Reports(p, th, r)
       case Ended(None) => p.act(th.h).Finish? && p.act(th.h).outcome.Ok?
  }

  ghost predicate ForkShape(branches: seq<Program>, pool: PX.Pool, threads: seq<Thread>) {
    && |branches| == |threads| == |pool.tasks|
    && PX.Inv(pool) && !pool.parentDone && pool.result.None?
    && forall t | 0 <= t < |threads| :: ThreadShape(branches[t], pool.tasks[t], threads[t], pool.cancelled)
  }

  ghost predicate Shape(c: Calculation, process: Process) {
    match process
    case Main(h, call) =>
      call.Some? ==> c.next(h).Consult? && CallFits(c.next(h).read, call.value)
    case Forked(h, branches, pool, threads) =>
      c.next(h) == Split(branches) && ForkShape(branches, pool, threads)
    case Concluded(_) => true
  }

  lemma BeginFits(source: Source, read: Read)
    ensures CallFits(read, Begin(source, read))
  {
  }

  lemma ProceedFits<W>(desk: Desk<W>, read: Read, call: Call, w: W, cut: Option<Error>, cache: Cache)
    requires CallFits(read, call)
    ensures CallFits(read, Proceed(desk, read, call, w, cut, cache))
  {
    if !call.Answered? {
      ProceedRunsOut(desk, read, call, w, cut, cache);
    }
  }

  lemma ReadOnFits<W>(
    desk: Desk<W>, read: Read, call: Option<Call>, w: W, cut: Option<Error>, cache: Cache, stats: PreloadStats)
    requires call.Some? ==> CallFits(read, call.value)
    ensures var p := ReadOn(desk, read, call, w, cut, cache, stats);
            && (p.call.Some? <==> p.answer.None?)
            && (p.call.Some? ==> CallFits(read, p.call.value))
  {
    BeginFits(desk.source, read);
    if call.Some? {
      ProceedFits(desk, read, call.value, w, cut, cache);
    }
  }

  lemma NewForkShape(branches: seq<Program>)
    ensures ForkShape(branches, NewPool(|branches|), NewThreads(|branches|))
  {
  }

  lemma LaunchShape(branches: seq<Program>, pool: PX.Pool, threads: seq<Thread>)
    requires ForkShape(branches, pool, threads) && PX.Enabled(pool, PX.Launch)
    ensures ForkShape(branches, PX.Apply(pool, PX.Launch), threads)
  {
    PX.StepKeepsInv(pool, PX.Launch);
    assert ThreadShape(branches[pool.launched], pool.tasks[pool.launched], threads[pool.launched], pool.cancelled);
    assert pool.tasks[pool.launched].Ready?;
  }

  lemma TaskPoolShape(process: Process, t: nat)
    requires process.Forked? && ForkShape(process.branches, process.pool, process.threads) && t < |process.threads|
    requires TaskPoolStep(process, t).Some?
    ensures PX.Enabled(process.pool, TaskPoolStep(process, t).value)
    ensures ForkShape(process.branches, PX.Apply(process.pool, TaskPoolStep(process, t).value), process.threads)
  {
    var step := TaskPoolStep(process, t).value;
    var pool, threads, branches := process.pool, process.threads, process.branches;
    assert ThreadShape(branches[t], pool.tasks[t], threads[t], pool.cancelled);
    PX.StepKeepsInv(pool, step);
    var pool' := PX.Apply(pool, step);
    forall k | 0 <= k < |threads|
      ensures ThreadShape(branches[k], pool'.tasks[k], threads[k], pool'.cancelled)
    {
      assert ThreadShape(branches[k], pool.tasks[k], threads[k], pool.cancelled);
    }
  }

  lemma TaskReadsShape<W>(desk: Desk<W>, run: Run, t: nat, w: W, cut: Option<Error>)
    requires run.process.Forked? && ForkShape(run.process.branches, run.process.pool, run.process.threads)
    requires CanTick(run.process, Task(t, w, cut)) && TaskPoolStep(run.process, t).None?
    ensures var read := run.process.branches[t].act(run.process.threads[t].h).read;
            var process := TaskReads(desk, run, t, read, w, cut).process;
            process.Forked? && ForkShape(process.branches, process.pool, process.threads)
  {
    var process := run.process;
    var th, p := process.threads[t], process.branches[t];
    assert ThreadShape(p, process.pool.tasks[t], th, process.pool.cancelled);
    ReadOnFits(desk, p.act(th.h).read, th.call, w, cut, run.cache, run.stats);
    var process' := TaskReads(desk, run, t, p.act(th.h).read, w, cut).process;
    forall k | 0 <= k < |process'.threads|
      ensures ThreadShape(process'.branches[k], process'.pool.tasks[k], process'.threads[k], process'.pool.cancelled)
    {
      assert ThreadShape(process.branches[k], process.pool.tasks[k], process.threads[k], process.pool.cancelled);
    }
  }

  lemma AdvanceShape<W>(desk: Desk<W>, c: Calculation, run: Run, tick: Tick<W>)
    requires Shape(c, run.process) && CanTick(run.process, tick)
    ensures Shape(c, Advance(desk, c, run, tick).process)
  {
    match run.process
    case Main(h, call) =>
      match c.next(h) {
        case Consult(read) => ReadOnFits(desk, read, call, tick.w, None, run.cache, run.stats);
        case Split(branches) => NewForkShape(branches);
        case Conclude(_) =>
      }
    case Forked(h, branches, pool, threads) =>
      if tick.Go? {
        if PX.Enabled(pool, PX.Launch) {
          LaunchShape(branches, pool, threads);
        }
      } else if TaskPoolStep(run.process, tick.t).Some? {
        TaskPoolShape(run.process, tick.t);
      } else {
        TaskReadsShape(desk, run, tick.t, tick.w, tick.cut);
      }
  }

  // ---- the ledger's truth, over an exact client ----

  /** The answers so far are the ledger's. */
  ghost predicate OnPath(l: Ledger, provider: Provider, p: Program, h: seq<Answer>) {
    forall i | 0 <= i < |h| :: p.act(h[..i]).Ask? && h[i] == LedgerAnswer(l, provider, p.act(h[..i]).read)
  }

  lemma PathGrows(l: Ledger, provider: Provider, p: Program, h: seq<Answer>)
    requires OnPath(l, provider, p, h) && p.act(h).Ask?
    ensures OnPath(l, provider, p, h + [LedgerAnswer(l, provider, p.act(h).read)])
  {
    var h' := h + [LedgerAnswer(l, provider, p.act(h).read)];
    forall i | 0 <= i < |h'|
      ensures p.act(h'[..i]).Ask? && h'[i] == LedgerAnswer(l, provider, p.act(h'[..i]).read)
    {
      if i < |h| {
        assert h'[..i] == h[..i];
      } else {
        assert h'[..i] == h;
      }
    }
  }

  /** The last answer, and the path before it. */
  lemma LastOnPath(l: Ledger, provider: Provider, p: Program, h: seq<Answer>) returns (before: seq<Answer>)
    requires OnPath(l, provider, p, h) && h != []
    ensures before == h[..|h| - 1] && OnPath(l, provider, p, before) && p.act(before).Ask?
    ensures h == before + [LedgerAnswer(l, provider, p.act(before).read)]
  {
    var n := |h| - 1;
    before := h[..n];
    assert p.act(h[..n]).Ask? && h[n] == LedgerAnswer(l, provider, p.act(h[..n]).read);
    assert forall i | 0 <= i < n :: before[..i] == h[..i];
  }

  lemma {:induction false} PathValue(l: Ledger, provider: Provider, p: Program, h: seq<Answer>)
    requires OnPath(l, provider, p, h)
    ensures Eval(l, provider, p, h) == Eval(l, provider, p, [])
    decreases |h|
  {
    if h != [] {
      var before := LastOnPath(l, provider, p, h);
      PathValue(l, provider, p, before);
    }
  }

  ghost predicate ThreadTruth(l: Ledger, provider: Provider, cache: Cache, p: Program, th: Thread, faulted: bool) {
    && (th.call.Some? ==> p.act(th.h).Ask? && CallInv(l, provider, p.act(th.h).read, cache, th.call.value, th.cut))
    && (!faulted && !th.cut ==> OnPath(l, provider, p, th.h))
  }

  ghost predicate Truth(l: Ledger, provider: Provider, c: Calculation, run: Run) {
    && TableAgrees(l, run.cache)
    && match run.process
       case Main(h, call) =>
         && (call.Some? ==> c.next(h).Consult?
                            && CallInv(l, provider, c.next(h).read, run.cache, call.value, false))
         && (!run.faulted ==> OnCourse(l, provider, c, h))
       case Forked(h, branches, _, threads) =>
         && |branches| == |threads|
         && (!run.faulted ==> OnCourse(l, provider, c, h))
         && (forall t | 0 <= t < |threads| ::
               ThreadTruth(l, provider, run.cache, branches[t], threads[t], run.faulted))
       case Concluded(outcome) => !run.faulted ==> May(l, provider, c, outcome)
  }

  lemma ReadOnIsTrue<W(!new)>(
    desk: Desk<W>, l: Ledger, read: Read, call: Option<Call>, w: W, cut: Option<Error>, cache: Cache,
    stats: PreloadStats, interrupted: bool)
    requires Exact(desk.inner, l) && TableAgrees(l, cache)
    requires call.Some? ==> CallInv(l, desk.provider, read, cache, call.value, interrupted)
    requires cut.Some? ==> call.Some?
    ensures var p := ReadOn(desk, read, call, w, cut, cache, stats);
            && TableAgrees(l, p.cache) && cache.Keys <= p.cache.Keys
            && (p.call.Some? ==> CallInv(l, desk.provider, read, p.cache, p.call.value, interrupted || cut.Some?))
            && (p.answer.Some? && !interrupted && !Fault(desk.provider, read, p.answer.value) ==>
                  p.answer.value == LedgerAnswer(l, desk.provider, read))
  {
    match call
    case None => BeginIsTrue(l, desk.provider, desk.source, read, cache, interrupted);
    case Some(c) => ProceedIsTrue(desk, l, read, c, w, cut, cache, interrupted);
  }

  lemma GoMainIsTrue<W(!new)>(desk: Desk<W>, l: Ledger, c: Calculation, run: Run, w: W)
    requires Exact(desk.inner, l) && run.process.Main? && Truth(l, desk.provider, c, run)
    ensures Truth(l, desk.provider, c, GoMain(desk, c, run, w))
  {
    var h := run.process.h;
    match c.next(h)
    case Conclude(_) =>
    case Split(_) =>
    case Consult(read) =>
      ReadOnIsTrue(desk, l, read, run.process.call, w, None, run.cache, run.stats, false);
      var p := ReadOn(desk, read, run.process.call, w, None, run.cache, run.stats);
      if p.answer.Some? && !run.faulted && !Fault(desk.provider, read, p.answer.value) {
        CourseGrows(l, desk.provider, c, h, Got(p.answer.value));
      }
  }

  /** A thread that ended undisturbed did what its program does on the ledger. */
  lemma EndedIsEval(l: Ledger, provider: Provider, cache: Cache, p: Program, th: Thread)
    requires ThreadTruth(l, provider, cache, p, th, false) && !th.cut && p.act(th.h).Finish?
    ensures Eval(l, provider, p, []) == p.act(th.h).outcome
  {
    PathValue(l, provider, p, th.h);
  }

  /** The first report in the queue comes from a branch nothing was cut short of. */
  lemma FirstReportIsOwn(branches: seq<Program>, pool: PX.Pool, threads: seq<Thread>)
    requires ForkShape(branches, pool, threads) && pool.queue != []
    ensures var r := pool.queue[0];
            && r.task < |threads| && !threads[r.task].cut
            && branches[r.task].act(threads[r.task].h).Finish?
            && branches[r.task].act(threads[r.task].h).outcome == Err(r.error)
  {
    var r := pool.queue[0];
    assert ThreadShape(branches[r.task], pool.tasks[r.task], threads[r.task], pool.cancelled);
    assert PX.Sent(pool.tasks[r.task]) == Some(r);
  }

  /** What parallelx.Run returns undisturbed is a result the ledger allows. */
  lemma JoinIsPossible(l: Ledger, provider: Provider, cache: Cache, process: Process)
    requires process.Forked? && ForkShape(process.branches, process.pool, process.threads)
    requires PX.Enabled(process.pool, PX.Finish)
    requires forall t | 0 <= t < |process.threads| ::
               ThreadTruth(l, provider, cache, process.branches[t], process.threads[t], false)
    ensures MayJoin(l, provider, process.branches, Result(process, PX.Apply(process.pool, PX.Finish).result.value))
  {
    var branches, pool, threads := process.branches, process.pool, process.threads;
    if pool.queue != [] {
      FirstReportIsOwn(branches, pool, threads);
      var r := pool.queue[0];
      EndedIsEval(l, provider, cache, branches[r.task], threads[r.task]);
    } else {
      forall t | 0 <= t < |threads|
        ensures Eval(l, provider, branches[t], []) == Ok(Payload(branches[t], threads[t].h))
      {
        assert ThreadShape(branches[t], pool.tasks[t], threads[t], pool.cancelled);
        EndedIsEval(l, provider, cache, branches[t], threads[t]);
      }
    }
  }

  lemma GoForkIsTrue(l: Ledger, provider: Provider, c: Calculation, run: Run)
    requires run.process.Forked? && Shape(c, run.process) && Truth(l, provider, c, run)
    requires PX.Enabled(run.process.pool, PX.Launch) || PX.Enabled(run.process.pool, PX.Finish)
    ensures Truth(l, provider, c, GoFork(run))
  {
    var process := run.process;
    if !PX.Enabled(process.pool, PX.Launch) && !run.faulted {
      JoinIsPossible(l, provider, run.cache, process);
      CourseGrows(l, provider, c, process.h, Joined(Result(process, PX.Apply(process.pool, PX.Finish).result.value)));
    }
  }

  lemma TaskReadsIsTrue<W(!new)>(desk: Desk<W>, l: Ledger, c: Calculation, run: Run, t: nat, w: W, cut: Option<Error>)
    requires Exact(desk.inner, l) && run.process.Forked? && Shape(c, run.process) && Truth(l, desk.provider, c, run)
    requires CanTick(run.process, Task(t, w, cut)) && TaskPoolStep(run.process, t).None?
    ensures var read := run.process.branches[t].act(run.process.threads[t].h).read;
            Truth(l, desk.provider, c, TaskReads(desk, run, t, read, w, cut))
  {
    var process := run.process;
    var th, p := process.threads[t], process.branches[t];
    var read := p.act(th.h).read;
    assert ThreadTruth(l, desk.provider, run.cache, p, th, run.faulted);
    ReadOnIsTrue(desk, l, read, th.call, w, cut, run.cache, run.stats, th.cut);
    var run' := TaskReads(desk, run, t, read, w, cut);
    if !run'.faulted && !run'.process.threads[t].cut {
      PathGrows(l, desk.provider, p, th.h);
    }
    forall k | 0 <= k < |process.threads|
      ensures ThreadTruth(l, desk.provider, run'.cache, process.branches[k], run'.process.threads[k], run'.faulted)
    {
      assert ThreadTruth(l, desk.provider, run.cache, process.branches[k], process.threads[k], run.faulted);
      if k != t && process.threads[k].call.Some? {
        GrowthKeepsCall(l, desk.provider, process.branches[k].act(process.threads[k].h).read, run.cache, run'.cache,
                        process.threads[k].call.value, process.threads[k].cut);
      }
    }
  }

  lemma AdvanceIsTrue<W(!new)>(desk: Desk<W>, l: Ledger, c: Calculation, run: Run, tick: Tick<W>)
    requires Exact(desk.inner, l) && Shape(c, run.process) && Truth(l, desk.provider, c, run)
    requires CanTick(run.process, tick)
    ensures Truth(l, desk.provider, c, Advance(desk, c, run, tick))
    ensures run.faulted ==> Advance(desk, c, run, tick).faulted
  {
    if run.process.Main? {
      GoMainIsTrue(desk, l, c, run, tick.w);
    } else if tick.Go? {
      GoForkIsTrue(l, desk.provider, c, run);
    } else if TaskPoolStep(run.process, tick.t).None? {
      TaskReadsIsTrue(desk, l, c, run, tick.t, tick.w, tick.cut);
    }
  }

  /** An undisturbed calculation ends in a way the ledger allows, whatever the interleaving of its branches. */
  lemma {:induction false} RunIsTrue<W(!new)>(
    desk: Desk<W>, l: Ledger, c: Calculation, run: Run, ticks: seq<Tick<W>>, end: Run)
    requires Exact(desk.inner, l) && Shape(c, run.process) && Truth(l, desk.provider, c, run)
    requires Reaches(desk, c, run, ticks, end)
    ensures Shape(c, end.process) && Truth(l, desk.provider, c, end)
    decreases |ticks|
  {
    if ticks != [] {
      AdvanceShape(desk, c, run, ticks[0]);
      AdvanceIsTrue(desk, l, c, run, ticks[0]);
      RunIsTrue(desk, l, c, Advance(desk, c, run, ticks[0]), ticks[1..], end);
    }
  }

  // ---- calculations end, over any client ----

  function ReadLeft(read: Read, call: Call): int {
    CallLeft(call) - Demand(read)
  }

  function ThreadLeft(p: Program, th: Thread): int {
    p.left(th.h) + if th.call.Some? && p.act(th.h).Ask? then ReadLeft(p.act(th.h).read, th.call.value) else 0
  }

  function ThreadsLeft(branches: seq<Program>, threads: seq<Thread>): int
    requires |branches| == |threads|
  {
    if branches == [] then 0 else ThreadLeft(branches[0], threads[0]) + ThreadsLeft(branches[1..], threads[1..])
  }

  /** More than the steps a process can still take. */
  function Left(c: Calculation, process: Process): int {
    match process
    case Main(h, call) =>
      c.left(h) + 1 + if call.Some? && c.next(h).Consult? then ReadLeft(c.next(h).read, call.value) else 0
    case Forked(h, branches, pool, threads) =>
      if |branches| != |threads| then 0
      else c.left(h) - TurnDemand(c.next(h)) + PX.StepsLeft(pool) + ThreadsLeft(branches, threads)
    case Concluded(_) => 0
  }

  lemma {:induction false} ThreadsLeftAfter(branches: seq<Program>, threads: seq<Thread>, t: nat, th: Thread)
    requires |branches| == |threads| && t < |threads|
    ensures ThreadsLeft(branches, threads[t := th])
         == ThreadsLeft(branches, threads) - ThreadLeft(branches[t], threads[t]) + ThreadLeft(branches[t], th)
  {
    if t > 0 {
      assert threads[t := th][1..] == threads[1..][t - 1 := th];
      ThreadsLeftAfter(branches[1..], threads[1..], t - 1, th);
    }
  }

  lemma ProgramLess(p: Program, h: seq<Answer>, answer: Answer)
    requires p.act(h).Ask?
    ensures p.left(h + [answer]) + Demand(p.act(h).read) <= p.left(h)
  {
    assert Halts(p);
  }

  lemma ReadOnRunsOut<W>(
    desk: Desk<W>, read: Read, call: Option<Call>, w: W, cut: Option<Error>, cache: Cache, stats: PreloadStats)
    requires call.Some? ==> CallFits(read, call.value)
    ensures var p := ReadOn(desk, read, call, w, cut, cache, stats);
            var before := if call.Some? then ReadLeft(read, call.value) else 0;
            if p.call.Some? then ReadLeft(read, p.call.value) < before else before == 1 - Demand(read)
  {
    BeginIsCovered(desk.source, read);
    if call.Some? && !call.value.Answered? {
      if !call.value.Sharing? || CallSized(call.value) {
        ProceedRunsOut(desk, read, call.value, w, cut, cache);
      }
    }
  }

  lemma {:induction false} NewThreadsLeft(branches: seq<Program>, threads: seq<Thread>)
    requires |branches| == |threads| && forall t | 0 <= t < |threads| :: threads[t] == Thread([], None, false)
    ensures ThreadsLeft(branches, threads) == BranchesDemand(branches) - 5 * |branches|
  {
    if branches != [] {
      NewThreadsLeft(branches[1..], threads[1..]);
    }
  }

  lemma {:induction false} ReadyWeights(n: nat)
    ensures PX.Weights(seq(n, _ => PX.Ready)) == 4 * n
  {
    if n > 0 {
      assert seq(n, _ => PX.Ready)[1..] == seq(n - 1, _ => PX.Ready);
      ReadyWeights(n - 1);
    }
  }

  lemma MainRunsOut<W>(desk: Desk<W>, c: Calculation, run: Run, w: W)
    requires run.process.Main? && Shape(c, run.process)
    ensures Left(c, GoMain(desk, c, run, w).process) < Left(c, run.process)
  {
    var h := run.process.h;
    match c.next(h)
    case Conclude(_) =>
    case Split(branches) =>
      NewThreadsLeft(branches, NewThreads(|branches|));
      ReadyWeights(|branches|);
    case Consult(read) =>
      ReadOnRunsOut(desk, read, run.process.call, w, None, run.cache, run.stats);
      var p := ReadOn(desk, read, run.process.call, w, None, run.cache, run.stats);
      if p.answer.Some? {
        OneLess(c, h, Got(p.answer.value));
      }
  }

  lemma {:induction false} ThreadsLeftIsNatural(branches: seq<Program>, threads: seq<Thread>)
    requires |branches| == |threads|
    requires forall t | 0 <= t < |threads| :: threads[t].call.Some? ==> branches[t].act(threads[t].h).Ask?
    ensures ThreadsLeft(branches, threads) >= 0
  {
    if branches != [] {
      if threads[0].call.Some? {
        ProgramLess(branches[0], threads[0].h, AccountAnswer(Ok(None)));
      }
      ThreadsLeftIsNatural(branches[1..], threads[1..]);
    }
  }

  lemma ForkLeftIsPositive(branches: seq<Program>, pool: PX.Pool, threads: seq<Thread>)
    requires ForkShape(branches, pool, threads)
    ensures PX.StepsLeft(pool) > 0 && ThreadsLeft(branches, threads) >= 0
  {
    PX.WeightsRange(pool.tasks);
    forall t | 0 <= t < |threads|
      ensures threads[t].call.Some? ==> branches[t].act(threads[t].h).Ask?
    {
      assert ThreadShape(branches[t], pool.tasks[t], threads[t], pool.cancelled);
    }
    ThreadsLeftIsNatural(branches, threads);
  }

  lemma ForkRunsOut(c: Calculation, run: Run)
    requires run.process.Forked? && Shape(c, run.process)
    requires PX.Enabled(run.process.pool, PX.Launch) || PX.Enabled(run.process.pool, PX.Finish)
    ensures Left(c, GoFork(run).process) < Left(c, run.process)
  {
    var process := run.process;
    if PX.Enabled(process.pool, PX.Launch) {
      PX.StepShrinks(process.pool, PX.Launch);
    } else {
      ForkLeftIsPositive(process.branches, process.pool, process.threads);
      OneLess(c, process.h, Joined(Result(process, PX.Apply(process.pool, PX.Finish).result.value)));
    }
  }

  lemma TaskReadsRunsOut<W>(desk: Desk<W>, c: Calculation, run: Run, t: nat, w: W, cut: Option<Error>)
    requires run.process.Forked? && Shape(c, run.process)
    requires CanTick(run.process, Task(t, w, cut)) && TaskPoolStep(run.process, t).None?
    ensures var read := run.process.branches[t].act(run.process.threads[t].h).read;
            Left(c, TaskReads(desk, run, t, read, w, cut).process) < Left(c, run.process)
  {
    var process := run.process;
    var th, p := process.threads[t], process.branches[t];
    var read := p.act(th.h).read;
    assert ThreadShape(p, process.pool.tasks[t], th, process.pool.cancelled);
    ReadOnRunsOut(desk, read, th.call, w, cut, run.cache, run.stats);
    var run' := TaskReads(desk, run, t, read, w, cut);
    var progress := ReadOn(desk, read, th.call, w, cut, run.cache, run.stats);
    if progress.answer.Some? {
      ProgramLess(p, th.h, progress.answer.value);
    }
    ThreadsLeftAfter(process.branches, process.threads, t, run'.process.threads[t]);
  }

  /** Every step of a calculation brings it closer to its end, whatever its client answers. */
  lemma AdvanceRunsOut<W>(desk: Desk<W>, c: Calculation, run: Run, tick: Tick<W>)
    requires Shape(c, run.process) && CanTick(run.process, tick)
    ensures Left(c, Advance(desk, c, run, tick).process) < Left(c, run.process)
  {
    if run.process.Main? {
      MainRunsOut(desk, c, run, tick.w);
    } else if tick.Go? {
      ForkRunsOut(c, run);
    } else {
      var step := TaskPoolStep(run.process, tick.t);
      if step.Some? {
        TaskPoolShape(run.process, tick.t);
        PX.StepShrinks(run.process.pool, step.value);
      } else {
        TaskReadsRunsOut(desk, c, run, tick.t, tick.w, tick.cut);
      }
    }
  }

  lemma LeftIsNatural(c: Calculation, process: Process)
    requires Shape(c, process)
    ensures Left(c, process) >= 0
  {
    match process
    case Main(h, call) =>
      if call.Some? {
        OneLess(c, h, Joined(Ok([])));
      }
    case Forked(h, branches, pool, threads) =>
      OneLess(c, h, Joined(Ok([])));
      ForkLeftIsPositive(branches, pool, threads);
    case Concluded(_) =>
  }

  /** Until it is concluded, a calculation can go on. */
  lemma CanGoOn<W>(c: Calculation, process: Process, w: W) returns (tick: Tick<W>)
    requires Shape(c, process) && !process.Concluded?
    ensures CanTick(process, tick)
  {
    if process.Main? || process.pool.launched < |process.pool.tasks| {
      return Go(w);
    }
    if t: nat :| t < |process.threads| && !process.pool.tasks[t].Ended? {
      assert ThreadShape(process.branches[t], process.pool.tasks[t], process.threads[t], process.pool.cancelled);
      return Task(t, w, None);
    }
    return Go(w);
  }

  // ---- what is cached already, over any client ----

  lemma ReadOnKeeps<W>(
    desk: Desk<W>, known: set<Address>, read: Read, call: Option<Call>, w: W, cut: Option<Error>, cache: Cache,
    stats: PreloadStats)
    requires known <= cache.Keys && (call.Some? ==> CallKeeps(desk.source, known, read, cache, call.value))
    ensures var p := ReadOn(desk, read, call, w, cut, cache, stats);
            && cache.Keys <= p.cache.Keys <= cache.Keys + ReadKeys(desk.source, read)
            && (p.call.Some? ==> CallKeeps(desk.source, known, read, p.cache, p.call.value))
            && (p.answer.Some? ==> CallKeeps(desk.source, known, read, p.cache, Answered(p.answer.value)))
  {
    BeginKeeps(desk.source, known, read, cache);
    if call.Some? {
      ProceedKeeps(desk, known, read, call.value, w, cut, cache);
    }
  }

  /** The cache holds what is known to be cached, and no read in progress asks for that. */
  ghost predicate CallsKeep(source: Source, known: set<Address>, c: Calculation, run: Run) {
    && known <= run.cache.Keys
    && match run.process
       case Main(h, call) =>
         call.Some? && c.next(h).Consult? ==> CallKeeps(source, known, c.next(h).read, run.cache, call.value)
       case Forked(_, branches, _, threads) =>
         |branches| == |threads| &&
         forall t | 0 <= t < |threads| && threads[t].call.Some? && branches[t].act(threads[t].h).Ask? ::
           CallKeeps(source, known, branches[t].act(threads[t].h).read, run.cache, threads[t].call.value)
       case Concluded(_) => true
  }

  lemma AdvanceCallsKeep<W>(desk: Desk<W>, known: set<Address>, c: Calculation, run: Run, tick: Tick<W>)
    requires Shape(c, run.process) && CanTick(run.process, tick) && CallsKeep(desk.source, known, c, run)
    ensures CallsKeep(desk.source, known, c, Advance(desk, c, run, tick))
  {
    match run.process
    case Main(h, call) =>
      if c.next(h).Consult? {
        ReadOnKeeps(desk, known, c.next(h).read, call, tick.w, None, run.cache, run.stats);
      }
    case Forked(_, branches, pool, threads) =>
      if tick.Task? && TaskPoolStep(run.process, tick.t).None? {
        var t := tick.t;
        assert ThreadShape(branches[t], pool.tasks[t], threads[t], pool.cancelled);
        ReadOnKeeps(desk, known, branches[t].act(threads[t].h).read, threads[t].call, tick.w, tick.cut, run.cache,
                    run.stats);
        var run' := Advance(desk, c, run, tick);
        forall k | 0 <= k < |threads| && k != t && threads[k].call.Some? && branches[k].act(threads[k].h).Ask?
          ensures CallKeeps(desk.source, known, branches[k].act(threads[k].h).read, run'.cache, threads[k].call.value)
        {
          GrowthKeeps(desk.source, known, branches[k].act(threads[k].h).read, run.cache, run'.cache,
                      threads[k].call.value);
        }
      }
  }

  /** It reads through the cache only, and only what is known to be there. */
  ghost predicate ReadsWithin(source: Source, known: set<Address>, c: Calculation) {
    forall h :: match c.next(h)
                case Consult(read) => !Open(source, known, read)
                case Split(branches) =>
                  forall t, h' | 0 <= t < |branches| && branches[t].act(h').Ask? ::
                    !Open(source, known, branches[t].act(h').read)
                case Conclude(_) => true
  }

  /** Over any client, such a calculation has every read answered. */
  lemma AdvanceStaysWithin<W>(desk: Desk<W>, known: set<Address>, c: Calculation, run: Run, tick: Tick<W>)
    requires Shape(c, run.process) && CanTick(run.process, tick) && CallsKeep(desk.source, known, c, run)
    requires ReadsWithin(desk.source, known, c)
    ensures Advance(desk, c, run, tick).faulted ==> run.faulted
  {
    match run.process
    case Main(h, call) =>
      if c.next(h).Consult? {
        ReadOnKeeps(desk, known, c.next(h).read, call, tick.w, None, run.cache, run.stats);
      }
    case Forked(h, branches, pool, threads) =>
      if tick.Task? && TaskPoolStep(run.process, tick.t).None? {
        var t := tick.t;
        assert c.next(h) == Split(branches);
        assert ThreadShape(branches[t], pool.tasks[t], threads[t], pool.cancelled);
        assert !Open(desk.source, known, branches[t].act(threads[t].h).read);
        ReadOnKeeps(desk, known, branches[t].act(threads[t].h).read, threads[t].call, tick.w, tick.cut, run.cache,
                    run.stats);
      }
  }

  // ---- over a client that never fails ----

  ghost predicate Calm(provider: Provider, c: Calculation, run: Run) {
    && !run.faulted
    && match run.process
       case Main(h, call) =>
         call.Some? && c.next(h).Consult? ==> Untroubled(provider, c.next(h).read, call.value)
       case Forked(h, branches, _, threads) =>
         |branches| == |threads| &&
         forall t | 0 <= t < |threads| ::
           !threads[t].cut && threads[t].call.Some? && branches[t].act(threads[t].h).Ask? ==>
             Untroubled(provider, branches[t].act(threads[t].h).read, threads[t].call.value)
       case Concluded(_) => true
  }

  lemma ReadOnCalm<W(!new)>(
    desk: Desk<W>, read: Read, call: Option<Call>, w: W, cache: Cache, stats: PreloadStats)
    requires NeverFails(desk.inner, desk.ctx)
    requires call.Some? ==> CallFits(read, call.value) && Untroubled(desk.provider, read, call.value)
    ensures var p := ReadOn(desk, read, call, w, None, cache, stats);
            && (p.call.Some? ==> Untroubled(desk.provider, read, p.call.value))
            && (p.answer.Some? ==> !Fault(desk.provider, read, p.answer.value))
  {
    if call.Some? {
      ProceedUntroubled(desk, read, call.value, w, cache);
    }
  }

  /** Cancellation may cut reads short, but no read goes unanswered by itself. */
  lemma AdvanceCalm<W(!new)>(desk: Desk<W>, c: Calculation, run: Run, tick: Tick<W>)
    requires NeverFails(desk.inner, desk.ctx)
    requires Shape(c, run.process) && CanTick(run.process, tick) && Calm(desk.provider, c, run)
    ensures Calm(desk.provider, c, Advance(desk, c, run, tick))
  {
    match run.process
    case Main(h, call) =>
      if c.next(h).Consult? {
        ReadOnCalm(desk, c.next(h).read, call, tick.w, run.cache, run.stats);
      }
    case Forked(_, branches, pool, threads) =>
      if tick.Task? && TaskPoolStep(run.process, tick.t).None? {
        var th := threads[tick.t];
        assert ThreadShape(branches[tick.t], pool.tasks[tick.t], th, pool.cancelled);
        if !th.cut && tick.cut.None? {
          ReadOnCalm(desk, branches[tick.t].act(th.h).read, th.call, tick.w, run.cache, run.stats);
        }
      }
  }
}
