/**
 * Calculations over a client that answers from the ledger but may fail at any call.  Whatever fails, a calculation
 * goes by the ledger's answers and by errors of the client itself: nothing else ever reaches it.
 */
module Mishaps {
  import opened Basics
  import opened Errors
  import opened Rpc
  import opened Batching
  import opened Preload
  import opened Calculators
  import opened Calls
  import opened Calculations
  import opened P = Processes
  import PX = ParallelX

  /** What a read can bring: the ledger's answer, or an error of the client itself. */
  ghost predicate Brings<W(!new)>(desk: Desk<W>, l: Ledger, read: Read, answer: Answer) {
    || answer == LedgerAnswer(l, desk.provider, read)
    || (Failed(answer) && OwnFailure(desk.inner, desk.ctx, desk.provider, read, answer))
  }

  /** A history of answers a branch can have had. */
  ghost predicate Heard<W(!new)>(desk: Desk<W>, l: Ledger, p: Program, h: seq<Answer>) {
    forall i | 0 <= i < |h| :: p.act(h[..i]).Ask? && Brings(desk, l, p.act(h[..i]).read, h[i])
  }

  /** What a branch can end in by itself. */
  ghost predicate BranchMay<W(!new)>(desk: Desk<W>, l: Ledger, p: Program, outcome: Result<Metrics, Error>) {
    exists h :: Heard(desk, l, p, h) && p.act(h) == Finish(outcome)
  }

  /** What parallelx.Run can bring: every branch's payload, or the error some branch ends in by itself. */
  ghost predicate JoinMay<W(!new)>(
    desk: Desk<W>, l: Ledger, branches: seq<Program>, r: Result<seq<Metrics>, Error>)
  {
    match r
    case Ok(ms) => |ms| == |branches| && forall t | 0 <= t < |branches| :: BranchMay(desk, l, branches[t], Ok(ms[t]))
    case Err(e) => exists t :: 0 <= t < |branches| && BranchMay(desk, l, branches[t], Err(e))
  }

  ghost predicate Turns<W(!new)>(desk: Desk<W>, l: Ledger, turn: Turn, x: Input) {
    match (turn, x)
    case (Consult(read), Got(answer)) => Brings(desk, l, read, answer)
    case (Split(branches), Joined(r)) => JoinMay(desk, l, branches, r)
    case _ => false
  }

  ghost predicate Lived<W(!new)>(desk: Desk<W>, l: Ledger, c: Calculation, h: seq<Input>) {
    forall i | 0 <= i < |h| :: Turns(desk, l, c.next(h[..i]), h[i])
  }

  /** What a calculation can come to over a client that may fail. */
  ghost predicate MayMeet<W(!new)>(desk: Desk<W>, l: Ledger, c: Calculation, outcome: Result<Metrics, Error>) {
    exists h :: Lived(desk, l, c, h) && c.next(h) == Conclude(outcome)
  }

  // ---- histories grow ----

  lemma HeardGrows<W(!new)>(desk: Desk<W>, l: Ledger, p: Program, h: seq<Answer>, answer: Answer)
    requires Heard(desk, l, p, h) && p.act(h).Ask? && Brings(desk, l, p.act(h).read, answer)
    ensures Heard(desk, l, p, h + [answer])
  {
    var h' := h + [answer];
    forall i | 0 <= i < |h'|
      ensures p.act(h'[..i]).Ask? && Brings(desk, l, p.act(h'[..i]).read, h'[i])
    {
      if i < |h| {
        assert h'[..i] == h[..i];
      } else {
        assert h'[..i] == h;
      }
    }
  }

  lemma LivedGrows<W(!new)>(desk: Desk<W>, l: Ledger, c: Calculation, h: seq<Input>, x: Input)
    requires Lived(desk, l, c, h) && Turns(desk, l, c.next(h), x)
    ensures Lived(desk, l, c, h + [x])
  {
    var h' := h + [x];
    forall i | 0 <= i < |h'|
      ensures Turns(desk, l, c.next(h'[..i]), h'[i])
    {
      if i < |h| {
        assert h'[..i] == h[..i];
      } else {
        assert h'[..i] == h;
      }
    }
  }

  // ---- the invariant ----

  /** A branch no cancellation has cut a read of short. */
  ghost predicate ThreadHeard<W(!new)>(desk: Desk<W>, l: Ledger, p: Program, th: Thread) {
    !th.cut ==>
      && Heard(desk, l, p, th.h)
      && (th.call.Some? ==> p.act(th.h).Ask? && CallSaid(desk, p.act(th.h).read, th.call.value, {}))
  }

  ghost predicate Honest<W(!new)>(desk: Desk<W>, l: Ledger, c: Calculation, process: Process) {
    match process
    case Main(h, call) =>
      && Lived(desk, l, c, h)
      && (call.Some? ==> c.next(h).Consult? && CallSaid(desk, c.next(h).read, call.value, {}))
    case Forked(h, branches, _, threads) =>
      && Lived(desk, l, c, h) && |branches| == |threads|
      && forall t | 0 <= t < |threads| :: ThreadHeard(desk, l, branches[t], threads[t])
    case Concluded(outcome) => MayMeet(desk, l, c, outcome)
  }

  lemma StartIsHonest<W(!new)>(desk: Desk<W>, l: Ledger, c: Calculation)
    ensures Honest(desk, l, c, START)
  {
  }

  /** An answered read has brought what a read can bring. */
  lemma AnswerBrings<W(!new)>(desk: Desk<W>, l: Ledger, read: Read, cache: Cache, answer: Answer)
    requires CallSaid(desk, read, Answered(answer), {})
    requires CallInv(l, desk.provider, read, cache, Answered(answer), false)
    ensures Brings(desk, l, read, answer)
  {
  }

  lemma ReadOnSaid<W(!new)>(
    desk: Desk<W>, read: Read, call: Option<Call>, w: W, cache: Cache, stats: PreloadStats)
    requires call.Some? ==> CallSaid(desk, read, call.value, {})
    ensures var p := ReadOn(desk, read, call, w, None, cache, stats);
            p.call.Some? ==> CallSaid(desk, read, p.call.value, {})
  {
    match call
    case None => BeginSaid(desk, read);
    case Some(c) =>
      ProceedSaid(desk, read, c, w, None, cache, {});
      var none: set<Error> := {};
      assert none + {} == none;
  }

  lemma GoMainHonest<W(!new)>(desk: Desk<W>, l: Ledger, c: Calculation, run: Run, w: W)
    requires run.process.Main? && Truth(l, desk.provider, c, run) && Honest(desk, l, c, run.process)
    ensures Honest(desk, l, c, GoMain(desk, c, run, w).process)
  {
    var h := run.process.h;
    match c.next(h)
    case Conclude(_) =>
    case Split(_) =>
    case Consult(read) =>
      ReadOnSaid(desk, read, run.process.call, w, run.cache, run.stats);
      var p := ReadOn(desk, read, run.process.call, w, None, run.cache, run.stats);
      if p.answer.Some? {
        AnswerBrings(desk, l, read, run.cache, p.answer.value);
        LivedGrows(desk, l, c, h, Got(p.answer.value));
      }
  }

  lemma JoinHonest<W(!new)>(desk: Desk<W>, l: Ledger, process: Process)
    requires process.Forked? && ForkShape(process.branches, process.pool, process.threads)
    requires PX.Enabled(process.pool, PX.Finish)
    requires forall t | 0 <= t < |process.threads| :: ThreadHeard(desk, l, process.branches[t], process.threads[t])
    ensures JoinMay(desk, l, process.branches, P.Result(process, PX.Apply(process.pool, PX.Finish).result.value))
  {
    var branches, pool, threads := process.branches, process.pool, process.threads;
    if pool.queue != [] {
      FirstReportIsOwn(branches, pool, threads);
      var r := pool.queue[0];
      assert ThreadHeard(desk, l, branches[r.task], threads[r.task]);
      assert BranchMay(desk, l, branches[r.task], Err(r.error));
    } else {
      forall t | 0 <= t < |threads|
        ensures BranchMay(desk, l, branches[t], Ok(Payload(branches[t], threads[t].h)))
      {
        assert ThreadShape(branches[t], pool.tasks[t], threads[t], pool.cancelled);
        assert ThreadHeard(desk, l, branches[t], threads[t]);
        assert branches[t].act(threads[t].h) == Finish(Ok(Payload(branches[t], threads[t].h)));
      }
    }
  }

  lemma TaskReadsHonest<W(!new)>(
    desk: Desk<W>, l: Ledger, c: Calculation, run: Run, t: nat, w: W, cut: Option<Error>)
    requires run.process.Forked? && Truth(l, desk.provider, c, run) && Honest(desk, l, c, run.process)
    requires CanTick(run.process, Task(t, w, cut)) && TaskPoolStep(run.process, t).None?
    ensures var read := run.process.branches[t].act(run.process.threads[t].h).read;
            Honest(desk, l, c, TaskReads(desk, run, t, read, w, cut).process)
  {
    var process := run.process;
    var th, p := process.threads[t], process.branches[t];
    var read := p.act(th.h).read;
    assert ThreadHeard(desk, l, p, th) && ThreadTruth(l, desk.provider, run.cache, p, th, run.faulted);
    if !th.cut && cut.None? {
      ReadOnSaid(desk, read, th.call, w, run.cache, run.stats);
      var progress := ReadOn(desk, read, th.call, w, None, run.cache, run.stats);
      if progress.answer.Some? {
        AnswerBrings(desk, l, read, run.cache, progress.answer.value);
        HeardGrows(desk, l, p, th.h, progress.answer.value);
      }
    }
    var process' := TaskReads(desk, run, t, read, w, cut).process;
    forall k | 0 <= k < |process.threads|
      ensures ThreadHeard(desk, l, process.branches[k], process'.threads[k])
    {
      assert ThreadHeard(desk, l, process.branches[k], process.threads[k]);
    }
  }

  lemma AdvanceHonest<W(!new)>(desk: Desk<W>, l: Ledger, c: Calculation, run: Run, tick: Tick<W>)
    requires Shape(c, run.process) && Truth(l, desk.provider, c, run) && Honest(desk, l, c, run.process)
    requires CanTick(run.process, tick)
    ensures Honest(desk, l, c, Advance(desk, c, run, tick).process)
  {
    if run.process.Main? {
      GoMainHonest(desk, l, c, run, tick.w);
    } else if tick.Go? {
      var process := run.process;
      if !PX.Enabled(process.pool, PX.Launch) {
        JoinHonest(desk, l, process);
        LivedGrows(desk, l, c, process.h, Joined(P.Result(process, PX.Apply(process.pool, PX.Finish).result.value)));
      }
    } else if TaskPoolStep(run.process, tick.t).None? {
      TaskReadsHonest(desk, l, c, run, tick.t, tick.w, tick.cut);
    }
  }

  /**
   * Whatever the client fails at, and however the branches interleave, a calculation comes to what it concludes from
   * the ledger's answers and the client's own errors; an error joined from branches is one a branch ended in by itself.
   */
  lemma {:induction false} RunIsHonest<W(!new)>(
    desk: Desk<W>, l: Ledger, c: Calculation, run: Run, ticks: seq<Tick<W>>, end: Run)
    requires Exact(desk.inner, l) && Shape(c, run.process) && Truth(l, desk.provider, c, run)
    requires Honest(desk, l, c, run.process) && Reaches(desk, c, run, ticks, end)
    ensures Honest(desk, l, c, end.process)
    decreases |ticks|
  {
    if ticks != [] {
      AdvanceShape(desk, c, run, ticks[0]);
      AdvanceIsTrue(desk, l, c, run, ticks[0]);
      AdvanceHonest(desk, l, c, run, ticks[0]);
      RunIsHonest(desk, l, c, Advance(desk, c, run, ticks[0]), ticks[1..], end);
    }
  }

  /** The same of a program run by one caller. */
  lemma {:induction false} ExecuteHonest<W(!new)>(
    desk: Desk<W>, l: Ledger, p: Program, h: seq<Answer>, s: State<W>)
    requires Exact(desk.inner, l) && TableAgrees(l, s.cache) && Heard(desk, l, p, h)
    ensures BranchMay(desk, l, p, Execute(desk.inner, desk.ctx, desk.source, desk.provider, p, h, s).0)
    decreases p.left(h)
  {
    match p.act(h)
    case Finish(_) =>
    case Ask(read) =>
      ReadIsTrue(desk.inner, l, desk.ctx, desk.source, desk.provider, read, s);
      ReadFails(desk.inner, desk.ctx, desk.source, desk.provider, read, s);
      var (answer, s1) := Perform(desk.inner, desk.ctx, desk.source, desk.provider, read, s);
      assert p.left(h + [answer]) < p.left(h);
      HeardGrows(desk, l, p, h, answer);
      ExecuteHonest(desk, l, p, h + [answer], s1);
  }

  // ---- whose cache a calculation reads through does not matter ----

  lemma SameBranch<W(!new)>(desk: Desk<W>, source: Source, l: Ledger, p: Program, outcome: Result<Metrics, Error>)
    requires BranchMay(desk, l, p, outcome)
    ensures BranchMay(desk.(source := source), l, p, outcome)
  {
    var h :| Heard(desk, l, p, h) && p.act(h) == Finish(outcome);
    assert Heard(desk.(source := source), l, p, h);
  }

  lemma SameTurn<W(!new)>(desk: Desk<W>, source: Source, l: Ledger, turn: Turn, x: Input)
    requires Turns(desk, l, turn, x)
    ensures Turns(desk.(source := source), l, turn, x)
  {
    match (turn, x)
    case (Split(branches), Joined(Ok(ms))) =>
      forall t | 0 <= t < |branches|
        ensures BranchMay(desk.(source := source), l, branches[t], Ok(ms[t]))
      {
        SameBranch(desk, source, l, branches[t], Ok(ms[t]));
      }
    case (Split(branches), Joined(Err(e))) =>
      var t :| 0 <= t < |branches| && BranchMay(desk, l, branches[t], Err(e));
      SameBranch(desk, source, l, branches[t], Err(e));
    case _ =>
  }

  lemma SameMeets<W(!new)>(
    desk: Desk<W>, source: Source, l: Ledger, c: Calculation, outcome: Result<Metrics, Error>)
    requires MayMeet(desk, l, c, outcome)
    ensures MayMeet(desk.(source := source), l, c, outcome)
  {
    var h :| Lived(desk, l, c, h) && c.next(h) == Conclude(outcome);
    forall i | 0 <= i < |h|
      ensures Turns(desk.(source := source), l, c.next(h[..i]), h[i])
    {
      SameTurn(desk, source, l, c.next(h[..i]), h[i]);
    }
    assert Lived(desk.(source := source), l, c, h);
  }

  // ---- where nothing fails ----

  lemma HeardIsOnPath<W(!new)>(desk: Desk<W>, l: Ledger, p: Program, h: seq<Answer>)
    requires NeverFails(desk.inner, desk.ctx) && Heard(desk, l, p, h)
    ensures OnPath(l, desk.provider, p, h)
  {
    forall i | 0 <= i < |h|
      ensures h[i] == LedgerAnswer(l, desk.provider, p.act(h[..i]).read)
    {
      assert p.act(h[..i]).Ask? && Brings(desk, l, p.act(h[..i]).read, h[i]);
    }
  }

  lemma BranchIsEval<W(!new)>(desk: Desk<W>, l: Ledger, p: Program, outcome: Result<Metrics, Error>)
    requires NeverFails(desk.inner, desk.ctx) && BranchMay(desk, l, p, outcome)
    ensures Eval(l, desk.provider, p, []) == outcome
  {
    var h :| Heard(desk, l, p, h) && p.act(h) == Finish(outcome);
    HeardIsOnPath(desk, l, p, h);
    PathValue(l, desk.provider, p, h);
  }

  lemma TurnFits<W(!new)>(desk: Desk<W>, l: Ledger, turn: Turn, x: Input)
    requires NeverFails(desk.inner, desk.ctx) && Turns(desk, l, turn, x)
    ensures Fits(l, desk.provider, turn, x)
  {
    match (turn, x)
    case (Split(branches), Joined(Ok(ms))) =>
      forall t | 0 <= t < |branches|
        ensures Eval(l, desk.provider, branches[t], []) == Ok(ms[t])
      {
        BranchIsEval(desk, l, branches[t], Ok(ms[t]));
      }
    case (Split(branches), Joined(Err(e))) =>
      var t :| 0 <= t < |branches| && BranchMay(desk, l, branches[t], Err(e));
      BranchIsEval(desk, l, branches[t], Err(e));
    case _ =>
  }

  /** Over a client that never fails, a calculation can come to nothing but what the ledger allows. */
  lemma UnfailingMeetsLedger<W(!new)>(desk: Desk<W>, l: Ledger, c: Calculation, outcome: Result<Metrics, Error>)
    requires NeverFails(desk.inner, desk.ctx) && MayMeet(desk, l, c, outcome)
    ensures May(l, desk.provider, c, outcome)
  {
    var h :| Lived(desk, l, c, h) && c.next(h) == Conclude(outcome);
    forall i | 0 <= i < |h|
      ensures Fits(l, desk.provider, c.next(h[..i]), h[i])
    {
      TurnFits(desk, l, c.next(h[..i]), h[i]);
    }
    assert OnCourse(l, desk.provider, c, h);
  }
}
