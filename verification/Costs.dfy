/**
 * What a calculation costs: the counters of its group's preloaded client, what it leaves in the cache, and when no
 * interleaving of its branches can change the counters.
 */
module Costs {
  import opened Basics
  import opened Errors
  import opened Rpc
  import opened Preload
  import opened Calculators
  import opened Calls
  import opened Calculations
  import opened Processes

  // ---- charges, on the ledger ----

  function BranchesCharge(k: Counter, l: Ledger, source: Source, provider: Provider, branches: seq<Program>): int {
    if branches == [] then 0
    else Charges(k, l, source, provider, branches[0], []) + BranchesCharge(k, l, source, provider, branches[1..])
  }

  function TurnCharge(k: Counter, l: Ledger, source: Source, provider: Provider, turn: Turn): int {
    match turn
    case Consult(read) => Charge(k, source, read)
    case Split(branches) => BranchesCharge(k, l, source, provider, branches)
    case Conclude(_) => 0
  }

  /** What the turns of a history add to a counter. */
  function Spent(k: Counter, l: Ledger, source: Source, provider: Provider, c: Calculation, h: seq<Input>): int
    decreases |h|
  {
    if h == [] then 0
    else
      var before := h[..|h| - 1];
      Spent(k, l, source, provider, c, before) + TurnCharge(k, l, source, provider, c.next(before))
  }

  function TotalCharge(k: Counter, l: Ledger, source: Source, provider: Provider, c: Calculation): int {
    Spent(k, l, source, provider, c, Follow(l, provider, c, []))
  }

  function ReadCharge(k: Counter, source: Source, p: Program, h: seq<Answer>): int {
    if p.act(h).Ask? then Charge(k, source, p.act(h).read) else 0
  }

  function PathSpent(k: Counter, source: Source, p: Program, h: seq<Answer>): int
    decreases |h|
  {
    if h == [] then 0
    else PathSpent(k, source, p, h[..|h| - 1]) + ReadCharge(k, source, p, h[..|h| - 1])
  }

  function ThreadSpent(k: Counter, source: Source, p: Program, th: Thread): int {
    PathSpent(k, source, p, th.h) + if th.call.Some? then ReadCharge(k, source, p, th.h) else 0
  }

  function ThreadsSpent(k: Counter, source: Source, branches: seq<Program>, threads: seq<Thread>): int
    requires |branches| == |threads|
  {
    if branches == [] then 0
    else ThreadSpent(k, source, branches[0], threads[0]) + ThreadsSpent(k, source, branches[1..], threads[1..])
  }

  /** What a process has put on a counter. */
  function Paid(k: Counter, l: Ledger, source: Source, provider: Provider, c: Calculation, process: Process): int {
    match process
    case Main(h, call) =>
      Spent(k, l, source, provider, c, h)
      + if call.Some? && c.next(h).Consult? then Charge(k, source, c.next(h).read) else 0
    case Forked(h, branches, _, threads) =>
      if |branches| != |threads| then 0
      else Spent(k, l, source, provider, c, h) + ThreadsSpent(k, source, branches, threads)
    case Concluded(_) => TotalCharge(k, l, source, provider, c)
  }

  lemma StartPaid(k: Counter, l: Ledger, source: Source, provider: Provider, c: Calculation)
    ensures Paid(k, l, source, provider, c, START) == 0
  {
  }

  predicate Accounted<W>(k: Counter, desk: Desk<W>, l: Ledger, c: Calculation, run: Run, before: int) {
    !run.faulted ==> Count(k, run.stats) == before + Paid(k, l, desk.source, desk.provider, c, run.process)
  }

  lemma ReadOnCounts<W>(
    k: Counter, desk: Desk<W>, read: Read, call: Option<Call>, w: W, cut: Option<Error>, cache: Cache,
    stats: PreloadStats)
    ensures Count(k, ReadOn(desk, read, call, w, cut, cache, stats).stats)
         == Count(k, stats) + if call.None? then Charge(k, desk.source, read) else 0
  {
    BegunCounts(k, desk.source, read, stats);
  }

  lemma SpentGrows(
    k: Counter, l: Ledger, source: Source, provider: Provider, c: Calculation, h: seq<Input>, x: Input)
    ensures Spent(k, l, source, provider, c, h + [x])
         == Spent(k, l, source, provider, c, h) + TurnCharge(k, l, source, provider, c.next(h))
  {
    assert (h + [x])[..|h + [x]| - 1] == h;
  }

  lemma PathSpentGrows(k: Counter, source: Source, p: Program, h: seq<Answer>, x: Answer)
    ensures PathSpent(k, source, p, h + [x]) == PathSpent(k, source, p, h) + ReadCharge(k, source, p, h)
  {
    assert (h + [x])[..|h + [x]| - 1] == h;
  }

  lemma {:induction false} PathCharges(
    k: Counter, l: Ledger, source: Source, provider: Provider, p: Program, h: seq<Answer>)
    requires OnPath(l, provider, p, h)
    ensures PathSpent(k, source, p, h) + Charges(k, l, source, provider, p, h) == Charges(k, l, source, provider, p, [])
    decreases |h|
  {
    if h != [] {
      var before := LastOnPath(l, provider, p, h);
      PathCharges(k, l, source, provider, p, before);
      assert ReadCharge(k, source, p, before) + Charges(k, l, source, provider, p, h)
          == Charges(k, l, source, provider, p, before);
    }
  }

  lemma {:induction false} ThreadsSpentAfter(
    k: Counter, source: Source, branches: seq<Program>, threads: seq<Thread>, t: nat, th: Thread)
    requires |branches| == |threads| && t < |threads|
    ensures ThreadsSpent(k, source, branches, threads[t := th])
         == ThreadsSpent(k, source, branches, threads) - ThreadSpent(k, source, branches[t], threads[t])
            + ThreadSpent(k, source, branches[t], th)
  {
    if t > 0 {
      assert threads[t := th][1..] == threads[1..][t - 1 := th];
      ThreadsSpentAfter(k, source, branches[1..], threads[1..], t - 1, th);
    }
  }

  lemma {:induction false} NewThreadsSpent(k: Counter, source: Source, branches: seq<Program>, threads: seq<Thread>)
    requires |branches| == |threads| && forall t | 0 <= t < |threads| :: threads[t] == Thread([], None, false)
    ensures ThreadsSpent(k, source, branches, threads) == 0
  {
    if branches != [] {
      NewThreadsSpent(k, source, branches[1..], threads[1..]);
    }
  }

  // ---- what a calculation leaves in the cache ----

  function LedgerKeys(l: Ledger, source: Source, provider: Provider, p: Program, h: seq<Answer>): set<Address>
    decreases p.left(h)
  {
    match p.act(h)
    case Finish(_) => {}
    case Ask(read) =>
      var h' := h + [LedgerAnswer(l, provider, read)];
      assert p.left(h') < p.left(h);
      ReadKeys(source, read) + LedgerKeys(l, source, provider, p, h')
  }

  function BranchesKeys(l: Ledger, source: Source, provider: Provider, branches: seq<Program>): set<Address> {
    if branches == [] then {}
    else LedgerKeys(l, source, provider, branches[0], []) + BranchesKeys(l, source, provider, branches[1..])
  }

  function TurnKeys(l: Ledger, source: Source, provider: Provider, turn: Turn): set<Address> {
    match turn
    case Consult(read) => ReadKeys(source, read)
    case Split(branches) => BranchesKeys(l, source, provider, branches)
    case Conclude(_) => {}
  }

  /** The addresses the turns of a history have read through the cache. */
  function CourseKeys(l: Ledger, source: Source, provider: Provider, c: Calculation, h: seq<Input>): set<Address>
    decreases |h|
  {
    if h == [] then {}
    else
      var before := h[..|h| - 1];
      CourseKeys(l, source, provider, c, before) + TurnKeys(l, source, provider, c.next(before))
  }

  /** The addresses the answers of a branch have brought. */
  function PathKeys(source: Source, p: Program, h: seq<Answer>): set<Address>
    decreases |h|
  {
    if h == [] then {}
    else
      var before := h[..|h| - 1];
      PathKeys(source, p, before) + if p.act(before).Ask? then ReadKeys(source, p.act(before).read) else {}
  }

  lemma CourseKeysGrow(l: Ledger, source: Source, provider: Provider, c: Calculation, h: seq<Input>, x: Input)
    ensures CourseKeys(l, source, provider, c, h + [x])
         == CourseKeys(l, source, provider, c, h) + TurnKeys(l, source, provider, c.next(h))
  {
    assert (h + [x])[..|h + [x]| - 1] == h;
  }

  lemma PathKeysGrow(source: Source, p: Program, h: seq<Answer>, x: Answer)
    ensures PathKeys(source, p, h + [x])
         == PathKeys(source, p, h) + if p.act(h).Ask? then ReadKeys(source, p.act(h).read) else {}
  {
    assert (h + [x])[..|h + [x]| - 1] == h;
  }

  lemma KeysInTurn(a: set<Address>, b: set<Address>, c: set<Address>)
    ensures (a + b) + c == a + (b + c)
  {
  }

  lemma {:induction false} PathKeysAll(
    l: Ledger, source: Source, provider: Provider, p: Program, h: seq<Answer>)
    requires OnPath(l, provider, p, h)
    ensures PathKeys(source, p, h) + LedgerKeys(l, source, provider, p, h) == LedgerKeys(l, source, provider, p, [])
    decreases |h|
  {
    if h != [] {
      var before := LastOnPath(l, provider, p, h);
      PathKeysAll(l, source, provider, p, before);
      KeysInTurn(PathKeys(source, p, before), ReadKeys(source, p.act(before).read),
                 LedgerKeys(l, source, provider, p, h));
    }
  }

  lemma {:induction false} BranchesKeysCovered(
    l: Ledger, source: Source, provider: Provider, branches: seq<Program>, cached: set<Address>)
    requires forall t | 0 <= t < |branches| :: LedgerKeys(l, source, provider, branches[t], []) <= cached
    ensures BranchesKeys(l, source, provider, branches) <= cached
  {
    if branches != [] {
      BranchesKeysCovered(l, source, provider, branches[1..], cached);
    }
  }

  // ---- when no schedule can change the counters ----

  /** Whether a counted read is still to come. */
  predicate CountsOn(l: Ledger, source: Source, provider: Provider, p: Program, h: seq<Answer>)
    decreases p.left(h)
  {
    match p.act(h)
    case Finish(_) => false
    case Ask(read) =>
      var h' := h + [LedgerAnswer(l, provider, read)];
      assert p.left(h') < p.left(h);
      IsShared(source, read) || CountsOn(l, source, provider, p, h')
  }

  /** Whether a counted read comes after one that has to ask, and so may be cut short. */
  predicate Loose(l: Ledger, source: Source, provider: Provider, p: Program, known: set<Address>, h: seq<Answer>)
    decreases p.left(h)
  {
    match p.act(h)
    case Finish(_) => false
    case Ask(read) =>
      var h' := h + [LedgerAnswer(l, provider, read)];
      assert p.left(h') < p.left(h);
      || (Open(source, known, read) && CountsOn(l, source, provider, p, h'))
      || Loose(l, source, provider, p, known + ReadKeys(source, read), h')
  }

  /** A branch that asks nothing more once a read was cut short. */
  ghost predicate GivesUp(p: Program) {
    forall h: seq<Answer>, e: Error | p.act(h).Ask? :: p.act(h + [Refused(p.act(h).read, e)]).Finish?
  }

  /** A split whose branches all succeed, or where failing leaves no schedule a say in what is counted. */
  ghost predicate SteadyAt(
    l: Ledger, source: Source, provider: Provider, c: Calculation, h: seq<Input>, known: set<Address>)
    requires c.next(h).Split?
  {
    var branches := c.next(h).branches;
    || AllSucceed(l, provider, branches)
    || (&& (forall e :: c.next(h + [Joined(Err(e))]).Conclude?)
        && (forall k | 0 <= k < |branches| :: GivesUp(branches[k]))
        && forall j, k | 0 <= j < |branches| && 0 <= k < |branches| && j != k ::
             Eval(l, provider, branches[j], []).Err? ==> !Loose(l, source, provider, branches[k], known, []))
  }

  /**
   * Wherever the calculation splits on a course the ledger allows and a branch fails by itself, the calculation gives
   * up, so do its branches, and no other branch has a counted read after one that may be cut short.  In particular, a
   * calculation none of whose branches fail by themselves is steady.
   */
  ghost predicate Steady(l: Ledger, source: Source, provider: Provider, c: Calculation, known: set<Address>) {
    forall h | OnCourse(l, provider, c, h) && c.next(h).Split? ::
      SteadyAt(l, source, provider, c, h, known + CourseKeys(l, source, provider, c, h))
  }

  // ---- branches of a steady calculation ----

  lemma {:induction false} StillTight(
    l: Ledger, source: Source, provider: Provider, p: Program, known: set<Address>, h: seq<Answer>)
    requires OnPath(l, provider, p, h) && !Loose(l, source, provider, p, known, [])
    ensures !Loose(l, source, provider, p, known + PathKeys(source, p, h), h)
    decreases |h|
  {
    if h == [] {
      assert known + PathKeys(source, p, h) == known;
    } else {
      var before := LastOnPath(l, provider, p, h);
      StillTight(l, source, provider, p, known, before);
      KeysInTurn(known, PathKeys(source, p, before), ReadKeys(source, p.act(before).read));
    }
  }

  lemma {:induction false} NothingMore(
    k: Counter, l: Ledger, source: Source, provider: Provider, p: Program, h: seq<Answer>)
    requires !CountsOn(l, source, provider, p, h)
    ensures Charges(k, l, source, provider, p, h) == 0
    decreases p.left(h)
  {
    if p.act(h).Ask? {
      var h' := h + [LedgerAnswer(l, provider, p.act(h).read)];
      assert p.left(h') < p.left(h);
      NothingMore(k, l, source, provider, p, h');
    }
  }

  /** A read of a tight branch that has to ask is the last one counted. */
  lemma CutCostsAll(
    k: Counter, l: Ledger, source: Source, provider: Provider, p: Program, known: set<Address>, h: seq<Answer>)
    requires OnPath(l, provider, p, h) && p.act(h).Ask? && !Loose(l, source, provider, p, known, [])
    requires Open(source, known + PathKeys(source, p, h), p.act(h).read)
    ensures PathSpent(k, source, p, h) + ReadCharge(k, source, p, h) == Charges(k, l, source, provider, p, [])
  {
    StillTight(l, source, provider, p, known, h);
    NothingMore(k, l, source, provider, p, h + [LedgerAnswer(l, provider, p.act(h).read)]);
    PathCharges(k, l, source, provider, p, h);
  }

  /** A call that comes back with an error. */
  ghost predicate Turned(read: Read, call: Call) {
    match call
    case Sharing(caller) => (read.AccountRead? || read.AccountsRead?) && caller.phase.Done? && caller.phase.reply.Err?
    case Passing => false
    case Answered(answer) => exists e :: answer == Refused(read, e)
  }

  lemma CutTurns<W>(desk: Desk<W>, read: Read, call: Call, w: W, e: Error, cache: Cache)
    requires CallFits(read, call) && Exposed(call)
    ensures Turned(read, Proceed(desk, read, call, w, Some(e), cache))
  {
    if call.Passing? {
      assert Proceed(desk, read, call, w, Some(e), cache).answer == Refused(read, e);
    }
  }

  lemma StaysTurned<W>(desk: Desk<W>, read: Read, call: Call, w: W, cut: Option<Error>, cache: Cache)
    requires Turned(read, call)
    ensures Turned(read, Proceed(desk, read, call, w, cut, cache)) && Filled(desk, call, w, cut, cache) == cache
  {
    if call.Sharing? {
      assert Proceed(desk, read, call, w, cut, cache).answer == Refused(read, call.caller.phase.reply.error);
    }
  }

  /**
   * A branch in an undisturbed split.  Uncut, it leaves its addresses cached and asks for nothing known to be; cut
   * short, it has already been charged all it would be.
   */
  ghost predicate ThreadKeeps(
    l: Ledger, source: Source, provider: Provider, known: set<Address>, cache: Cache, p: Program, th: Thread)
  {
    if th.cut then
      && GivesUp(p)
      && (if th.call.Some? then p.act(th.h).Ask? && Turned(p.act(th.h).read, th.call.value) else p.act(th.h).Finish?)
      && (forall k: Counter :: ThreadSpent(k, source, p, th) == Charges(k, l, source, provider, p, []))
    else
      && known + PathKeys(source, p, th.h) <= cache.Keys
      && (th.call.Some? ==>
            p.act(th.h).Ask?
            && CallKeeps(source, known + PathKeys(source, p, th.h), p.act(th.h).read, cache, th.call.value))
  }

  ghost predicate Keeps(
    l: Ledger, source: Source, provider: Provider, start: set<Address>, c: Calculation, run: Run)
  {
    !run.faulted ==>
      match run.process
      case Main(h, call) =>
        !c.next(h).Conclude? ==>
          var known := start + CourseKeys(l, source, provider, c, h);
          && known <= run.cache.Keys
          && (call.Some? ==> c.next(h).Consult? && CallKeeps(source, known, c.next(h).read, run.cache, call.value))
      case Forked(h, branches, _, threads) =>
        var known := start + CourseKeys(l, source, provider, c, h);
        && known <= run.cache.Keys && |branches| == |threads|
        && forall t | 0 <= t < |threads| :: ThreadKeeps(l, source, provider, known, run.cache, branches[t], threads[t])
      case Concluded(_) => true
  }

  lemma StartKeeps(
    l: Ledger, source: Source, provider: Provider, start: set<Address>, c: Calculation, cache: Cache,
    stats: PreloadStats, faulted: bool)
    requires start <= cache.Keys
    ensures Keeps(l, source, provider, start, c, Run(START, cache, stats, faulted))
  {
  }

  lemma MainKeeps<W>(desk: Desk<W>, l: Ledger, start: set<Address>, c: Calculation, run: Run, w: W)
    requires run.process.Main? && Keeps(l, desk.source, desk.provider, start, c, run)
    ensures Keeps(l, desk.source, desk.provider, start, c, GoMain(desk, c, run, w))
  {
    var h := run.process.h;
    if !run.faulted {
      match c.next(h)
      case Consult(read) =>
        var known := start + CourseKeys(l, desk.source, desk.provider, c, h);
        ReadOnKeeps(desk, known, read, run.process.call, w, None, run.cache, run.stats);
        var p := ReadOn(desk, read, run.process.call, w, None, run.cache, run.stats);
        if p.answer.Some? {
          CourseKeysGrow(l, desk.source, desk.provider, c, h, Got(p.answer.value));
        }
      case _ =>
    }
  }

  /** A cancelled pool has a branch that failed by itself, other than any that is still running. */
  lemma CancelledByOther(
    l: Ledger, provider: Provider, cache: Cache, branches: seq<Program>, pool: PX.Pool, threads: seq<Thread>, t: nat)
    returns (j: nat)
    requires ForkShape(branches, pool, threads) && pool.cancelled && t < |threads| && pool.tasks[t].Running?
    requires forall k | 0 <= k < |threads| :: ThreadTruth(l, provider, cache, branches[k], threads[k], false)
    ensures j < |branches| && j != t && Eval(l, provider, branches[j], []).Err?
  {
    FirstReportIsOwn(branches, pool, threads);
    j := pool.queue[0].task;
    EndedIsEval(l, provider, cache, branches[j], threads[j]);
  }

  /** The branch that reads, cut short. */
  lemma CutKeeps<W>(
    desk: Desk<W>, l: Ledger, known: set<Address>, c: Calculation, run: Run, t: nat, w: W, e: Error)
    requires !run.faulted && run.process.Forked? && Shape(c, run.process) && Truth(l, desk.provider, c, run)
    requires CanTick(run.process, Task(t, w, Some(e))) && TaskPoolStep(run.process, t).None?
    requires SteadyAt(l, desk.source, desk.provider, c, run.process.h, known)
    requires ThreadKeeps(l, desk.source, desk.provider, known, run.cache, run.process.branches[t],
                         run.process.threads[t])
    ensures var read := run.process.branches[t].act(run.process.threads[t].h).read;
            var run' := TaskReads(desk, run, t, read, w, Some(e));
            && run.cache.Keys <= run'.cache.Keys
            && ThreadKeeps(l, desk.source, desk.provider, known, run'.cache, run.process.branches[t],
                           run'.process.threads[t])
  {
    var process := run.process;
    var th, p := process.threads[t], process.branches[t];
    var read := p.act(th.h).read;
    assert ThreadShape(p, process.pool.tasks[t], th, process.pool.cancelled);
    assert Exposed(th.call.value) && !th.cut;
    var j := CancelledByOther(l, desk.provider, run.cache, process.branches, process.pool, process.threads, t);
    assert ThreadTruth(l, desk.provider, run.cache, p, th, false);
    ExposedIsOpen(desk.source, known + PathKeys(desk.source, p, th.h), read, run.cache, th.call.value);
    ProceedKeeps(desk, known + PathKeys(desk.source, p, th.h), read, th.call.value, w, Some(e), run.cache);
    CutTurns(desk, read, th.call.value, w, e, run.cache);
    forall k: Counter
      ensures PathSpent(k, desk.source, p, th.h) + ReadCharge(k, desk.source, p, th.h)
           == Charges(k, l, desk.source, desk.provider, p, [])
    {
      CutCostsAll(k, l, desk.source, desk.provider, p, known, th.h);
    }
  }

  /** The branch that reads, otherwise. */
  lemma UncutKeeps<W>(desk: Desk<W>, l: Ledger, known: set<Address>, c: Calculation, run: Run, t: nat, w: W)
    requires run.process.Forked? && Shape(c, run.process)
    requires CanTick(run.process, Task(t, w, None)) && TaskPoolStep(run.process, t).None?
    requires ThreadKeeps(l, desk.source, desk.provider, known, run.cache, run.process.branches[t],
                         run.process.threads[t])
    ensures var read := run.process.branches[t].act(run.process.threads[t].h).read;
            var run' := TaskReads(desk, run, t, read, w, None);
            && run.cache.Keys <= run'.cache.Keys
            && (!run'.faulted ==> ThreadKeeps(l, desk.source, desk.provider, known, run'.cache, run.process.branches[t],
                                              run'.process.threads[t]))
  {
    var process := run.process;
    var th, p := process.threads[t], process.branches[t];
    var read := p.act(th.h).read;
    assert ThreadShape(p, process.pool.tasks[t], th, process.pool.cancelled);
    var progress := ReadOn(desk, read, th.call, w, None, run.cache, run.stats);
    if th.cut {
      StaysTurned(desk, read, th.call.value, w, None, run.cache);
      if progress.answer.Some? {
        forall k: Counter
          ensures PathSpent(k, desk.source, p, th.h + [progress.answer.value])
               == PathSpent(k, desk.source, p, th.h) + ReadCharge(k, desk.source, p, th.h)
        {
          PathSpentGrows(k, desk.source, p, th.h, progress.answer.value);
        }
      }
    } else {
      ReadOnKeeps(desk, known + PathKeys(desk.source, p, th.h), read, th.call, w, None, run.cache, run.stats);
      if progress.answer.Some? {
        PathKeysGrow(desk.source, p, th.h, progress.answer.value);
      }
    }
  }

  lemma OtherThreadKeeps(
    l: Ledger, source: Source, provider: Provider, known: set<Address>, cache: Cache, cache': Cache, p: Program,
    th: Thread)
    requires ThreadKeeps(l, source, provider, known, cache, p, th) && cache.Keys <= cache'.Keys
    ensures ThreadKeeps(l, source, provider, known, cache', p, th)
  {
    if !th.cut && th.call.Some? {
      GrowthKeeps(source, known + PathKeys(source, p, th.h), p.act(th.h).read, cache, cache', th.call.value);
    }
  }

  lemma TaskReadsKeeps<W>(
    desk: Desk<W>, l: Ledger, start: set<Address>, c: Calculation, run: Run, t: nat, w: W, cut: Option<Error>)
    requires run.process.Forked? && Shape(c, run.process) && Truth(l, desk.provider, c, run)
    requires CanTick(run.process, Task(t, w, cut)) && TaskPoolStep(run.process, t).None?
    requires Steady(l, desk.source, desk.provider, c, start) && Keeps(l, desk.source, desk.provider, start, c, run)
    ensures var read := run.process.branches[t].act(run.process.threads[t].h).read;
            Keeps(l, desk.source, desk.provider, start, c, TaskReads(desk, run, t, read, w, cut))
  {
    var process := run.process;
    var run' := TaskReads(desk, run, t, process.branches[t].act(process.threads[t].h).read, w, cut);
    if !run'.faulted {
      var known := start + CourseKeys(l, desk.source, desk.provider, c, process.h);
      assert ThreadKeeps(l, desk.source, desk.provider, known, run.cache, process.branches[t], process.threads[t]);
      if cut.Some? {
        CutKeeps(desk, l, known, c, run, t, w, cut.value);
      } else {
        UncutKeeps(desk, l, known, c, run, t, w);
      }
      forall k | 0 <= k < |process.threads|
        ensures ThreadKeeps(l, desk.source, desk.provider, known, run'.cache, process.branches[k],
                            run'.process.threads[k])
      {
        assert ThreadKeeps(l, desk.source, desk.provider, known, run.cache, process.branches[k], process.threads[k]);
        if k != t {
          OtherThreadKeeps(l, desk.source, desk.provider, known, run.cache, run'.cache, process.branches[k],
                           process.threads[k]);
        }
      }
    }
  }

  /** A branch that has ended has been charged what it costs on the ledger, cut short or not. */
  lemma EndedThread(
    l: Ledger, source: Source, provider: Provider, known: set<Address>, cache: Cache, p: Program, task: PX.Task,
    th: Thread, cancelled: bool)
    requires ThreadShape(p, task, th, cancelled) && task.Ended?
    requires ThreadTruth(l, provider, cache, p, th, false) && ThreadKeeps(l, source, provider, known, cache, p, th)
    ensures forall k: Counter :: ThreadSpent(k, source, p, th) == Charges(k, l, source, provider, p, [])
    ensures !th.cut ==> LedgerKeys(l, source, provider, p, []) <= cache.Keys
  {
    if !th.cut {
      PathKeysAll(l, source, provider, p, th.h);
      forall k: Counter
        ensures ThreadSpent(k, source, p, th) == Charges(k, l, source, provider, p, [])
      {
        PathCharges(k, l, source, provider, p, th.h);
      }
    }
  }

  lemma {:induction false} EndedThreadsSpent(
    k: Counter, l: Ledger, source: Source, provider: Provider, branches: seq<Program>, threads: seq<Thread>)
    requires |branches| == |threads|
    requires forall t | 0 <= t < |threads| ::
               ThreadSpent(k, source, branches[t], threads[t]) == Charges(k, l, source, provider, branches[t], [])
    ensures ThreadsSpent(k, source, branches, threads) == BranchesCharge(k, l, source, provider, branches)
  {
    if branches != [] {
      EndedThreadsSpent(k, l, source, provider, branches[1..], threads[1..]);
    }
  }

  lemma JoinKeeps(l: Ledger, source: Source, provider: Provider, start: set<Address>, c: Calculation, run: Run)
    requires run.process.Forked? && Shape(c, run.process) && Truth(l, provider, c, run)
    requires !PX.Enabled(run.process.pool, PX.Launch) && PX.Enabled(run.process.pool, PX.Finish)
    requires Steady(l, source, provider, c, start) && Keeps(l, source, provider, start, c, run)
    ensures Keeps(l, source, provider, start, c, GoFork(run))
    ensures !run.faulted ==> forall k: Counter ::
              ThreadsSpent(k, source, run.process.branches, run.process.threads)
              == BranchesCharge(k, l, source, provider, run.process.branches)
  {
    var process := run.process;
    var h, branches, pool, threads := process.h, process.branches, process.pool, process.threads;
    if !run.faulted {
      var known := start + CourseKeys(l, source, provider, c, h);
      forall t | 0 <= t < |threads|
        ensures forall k: Counter ::
                  ThreadSpent(k, source, branches[t], threads[t]) == Charges(k, l, source, provider, branches[t], [])
        ensures !threads[t].cut ==> LedgerKeys(l, source, provider, branches[t], []) <= run.cache.Keys
      {
        assert ThreadShape(branches[t], pool.tasks[t], threads[t], pool.cancelled);
        assert ThreadKeeps(l, source, provider, known, run.cache, branches[t], threads[t]);
        assert ThreadTruth(l, provider, run.cache, branches[t], threads[t], false);
        EndedThread(l, source, provider, known, run.cache, branches[t], pool.tasks[t], threads[t], pool.cancelled);
      }
      forall k: Counter
        ensures ThreadsSpent(k, source, branches, threads) == BranchesCharge(k, l, source, provider, branches)
      {
        EndedThreadsSpent(k, l, source, provider, branches, threads);
      }
      JoinLeaves(l, source, provider, start, c, run);
    }
  }

  /** Where the calculation goes on after a join, all its branches succeeded and their addresses are cached. */
  lemma JoinLeaves(l: Ledger, source: Source, provider: Provider, start: set<Address>, c: Calculation, run: Run)
    requires !run.faulted && run.process.Forked? && Shape(c, run.process) && Truth(l, provider, c, run)
    requires !PX.Enabled(run.process.pool, PX.Launch) && PX.Enabled(run.process.pool, PX.Finish)
    requires Steady(l, source, provider, c, start) && Keeps(l, source, provider, start, c, run)
    requires forall t | 0 <= t < |run.process.threads| && !run.process.threads[t].cut ::
               LedgerKeys(l, source, provider, run.process.branches[t], []) <= run.cache.Keys
    ensures Keeps(l, source, provider, start, c, GoFork(run))
  {
    var process := run.process;
    var h, branches, pool, threads := process.h, process.branches, process.pool, process.threads;
    var r := Processes.Result(process, PX.Apply(pool, PX.Finish).result.value);
    JoinIsPossible(l, provider, run.cache, process);
    CourseKeysGrow(l, source, provider, c, h, Joined(r));
    assert SteadyAt(l, source, provider, c, h, start + CourseKeys(l, source, provider, c, h));
    if r.Ok? {
      forall t | 0 <= t < |branches|
        ensures LedgerKeys(l, source, provider, branches[t], []) <= run.cache.Keys
      {
        assert ThreadShape(branches[t], pool.tasks[t], threads[t], pool.cancelled);
      }
      BranchesKeysCovered(l, source, provider, branches, run.cache.Keys);
    }
  }

  /** Every step of a steady calculation keeps its branches so. */
  lemma AdvanceKeeps<W>(desk: Desk<W>, l: Ledger, start: set<Address>, c: Calculation, run: Run, tick: Tick<W>)
    requires Shape(c, run.process) && Truth(l, desk.provider, c, run) && CanTick(run.process, tick)
    requires Steady(l, desk.source, desk.provider, c, start) && Keeps(l, desk.source, desk.provider, start, c, run)
    ensures Keeps(l, desk.source, desk.provider, start, c, Advance(desk, c, run, tick))
  {
    if run.process.Main? {
      MainKeeps(desk, l, start, c, run, tick.w);
    } else if tick.Go? {
      if !PX.Enabled(run.process.pool, PX.Launch) {
        JoinKeeps(l, desk.source, desk.provider, start, c, run);
      }
    } else if TaskPoolStep(run.process, tick.t).None? {
      TaskReadsKeeps(desk, l, start, c, run, tick.t, tick.w, tick.cut);
    }
  }

  // ---- the counters of a steady calculation ----

  /** A join has one success at most. */
  lemma OneSuccess(
    l: Ledger, provider: Provider, branches: seq<Program>,
    r: Result<seq<Metrics>, Error>, r': Result<seq<Metrics>, Error>)
    requires MayJoin(l, provider, branches, r) && MayJoin(l, provider, branches, r') && r != r'
    ensures r.Err? && r'.Err? && !AllSucceed(l, provider, branches)
  {
    if r.Ok? && r'.Ok? {
      JoinsAgree(l, provider, branches, r, r');
    }
  }

  /** Where a steady calculation leaves the one course, both courses conclude at once. */
  lemma OtherJoinConcludes(
    l: Ledger, source: Source, provider: Provider, c: Calculation, known: set<Address>, h: seq<Input>, x: Input)
    requires Steady(l, source, provider, c, known) && OnCourse(l, provider, c, h) && !c.next(h).Conclude?
    requires Fits(l, provider, c.next(h), x) && x != LedgerInput(l, provider, c.next(h))
    ensures c.next(h + [x]).Conclude? && c.next(h + [LedgerInput(l, provider, c.next(h))]).Conclude?
  {
    assert SteadyAt(l, source, provider, c, h, known + CourseKeys(l, source, provider, c, h));
    LedgerJoinIsPossible(l, provider, c.next(h).branches);
    OneSuccess(l, provider, c.next(h).branches, x.result, LedgerInput(l, provider, c.next(h)).result);
  }

  lemma PartingCostsTheSame(
    k: Counter, l: Ledger, source: Source, provider: Provider, c: Calculation, known: set<Address>, h: seq<Input>,
    x: Input)
    requires Steady(l, source, provider, c, known) && OnCourse(l, provider, c, h) && !c.next(h).Conclude?
    requires Fits(l, provider, c.next(h), x)
    ensures Spent(k, l, source, provider, c, Follow(l, provider, c, h + [x]))
         == Spent(k, l, source, provider, c, Follow(l, provider, c, h))
  {
    var x' := LedgerInput(l, provider, c.next(h));
    OneLess(c, h, x');
    if x != x' {
      OtherJoinConcludes(l, source, provider, c, known, h, x);
      SpentGrows(k, l, source, provider, c, h, x);
      SpentGrows(k, l, source, provider, c, h, x');
    }
  }

  lemma LastOnCourse(l: Ledger, provider: Provider, c: Calculation, h: seq<Input>)
    returns (before: seq<Input>, x: Input)
    requires OnCourse(l, provider, c, h) && h != []
    ensures h == before + [x] && OnCourse(l, provider, c, before)
    ensures !c.next(before).Conclude? && Fits(l, provider, c.next(before), x)
  {
    var n := |h| - 1;
    before, x := h[..n], h[n];
    PrefixOnCourse(l, provider, c, h, n);
    assert Fits(l, provider, c.next(h[..n]), h[n]);
  }

  /** All courses of a steady calculation cost the same: they part at most at a join that makes it give up. */
  lemma {:induction false} CoursesCostTheSame(
    k: Counter, l: Ledger, source: Source, provider: Provider, c: Calculation, known: set<Address>, h: seq<Input>)
    requires Steady(l, source, provider, c, known) && OnCourse(l, provider, c, h)
    ensures Spent(k, l, source, provider, c, Follow(l, provider, c, h)) == TotalCharge(k, l, source, provider, c)
    decreases |h|
  {
    if h != [] {
      var before, x := LastOnCourse(l, provider, c, h);
      CoursesCostTheSame(k, l, source, provider, c, known, before);
      PartingCostsTheSame(k, l, source, provider, c, known, before, x);
    }
  }

  lemma MainAccounted<W(!new)>(
    k: Counter, desk: Desk<W>, l: Ledger, start: set<Address>, c: Calculation, run: Run, w: W, before: int)
    requires run.process.Main? && Shape(c, run.process) && Truth(l, desk.provider, c, run)
    requires Steady(l, desk.source, desk.provider, c, start) && Accounted(k, desk, l, c, run, before)
    ensures Accounted(k, desk, l, c, GoMain(desk, c, run, w), before)
  {
    var h := run.process.h;
    match c.next(h)
    case Conclude(_) =>
      if !run.faulted {
        CoursesCostTheSame(k, l, desk.source, desk.provider, c, start, h);
      }
    case Split(branches) => NewThreadsSpent(k, desk.source, branches, NewThreads(|branches|));
    case Consult(read) =>
      var p := ReadOn(desk, read, run.process.call, w, None, run.cache, run.stats);
      ReadOnCounts(k, desk, read, run.process.call, w, None, run.cache, run.stats);
      if p.answer.Some? {
        SpentGrows(k, l, desk.source, desk.provider, c, h, Got(p.answer.value));
      }
  }

  lemma ForkAccounted<W>(
    k: Counter, desk: Desk<W>, l: Ledger, start: set<Address>, c: Calculation, run: Run, before: int)
    requires run.process.Forked? && Shape(c, run.process) && Truth(l, desk.provider, c, run)
    requires PX.Enabled(run.process.pool, PX.Launch) || PX.Enabled(run.process.pool, PX.Finish)
    requires Steady(l, desk.source, desk.provider, c, start) && Keeps(l, desk.source, desk.provider, start, c, run)
    requires Accounted(k, desk, l, c, run, before)
    ensures Accounted(k, desk, l, c, GoFork(run), before)
  {
    if !PX.Enabled(run.process.pool, PX.Launch) && !run.faulted {
      JoinKeeps(l, desk.source, desk.provider, start, c, run);
      SpentGrows(k, l, desk.source, desk.provider, c, run.process.h,
                 Joined(Processes.Result(run.process, PX.Apply(run.process.pool, PX.Finish).result.value)));
    }
  }

  /** Within a split, the counters move with what its branches have been charged. */
  lemma TaskReadsTally<W>(
    k: Counter, desk: Desk<W>, c: Calculation, run: Run, t: nat, w: W, cut: Option<Error>)
    requires run.process.Forked? && Shape(c, run.process)
    requires CanTick(run.process, Task(t, w, cut)) && TaskPoolStep(run.process, t).None?
    ensures var process := run.process;
            var run' := TaskReads(desk, run, t, process.branches[t].act(process.threads[t].h).read, w, cut);
            Count(k, run'.stats) - Count(k, run.stats)
            == ThreadsSpent(k, desk.source, process.branches, run'.process.threads)
               - ThreadsSpent(k, desk.source, process.branches, process.threads)
  {
    var process := run.process;
    var th, p := process.threads[t], process.branches[t];
    var read := p.act(th.h).read;
    var run' := TaskReads(desk, run, t, read, w, cut);
    var progress := ReadOn(desk, read, th.call, w, cut, run.cache, run.stats);
    if progress.answer.Some? {
      PathSpentGrows(k, desk.source, p, th.h, progress.answer.value);
    }
    ReadOnCounts(k, desk, read, th.call, w, cut, run.cache, run.stats);
    ThreadsSpentAfter(k, desk.source, process.branches, process.threads, t, run'.process.threads[t]);
  }

  /** In every interleaving of a steady calculation the counters hold what its reads so far cost, and no more. */
  lemma AdvanceAccounted<W(!new)>(
    k: Counter, desk: Desk<W>, l: Ledger, start: set<Address>, c: Calculation, run: Run, tick: Tick<W>, before: int)
    requires Shape(c, run.process) && Truth(l, desk.provider, c, run) && CanTick(run.process, tick)
    requires Steady(l, desk.source, desk.provider, c, start) && Keeps(l, desk.source, desk.provider, start, c, run)
    requires Accounted(k, desk, l, c, run, before)
    ensures Accounted(k, desk, l, c, Advance(desk, c, run, tick), before)
  {
    if run.process.Main? {
      MainAccounted(k, desk, l, start, c, run, tick.w, before);
    } else if tick.Go? {
      ForkAccounted(k, desk, l, start, c, run, before);
    } else if TaskPoolStep(run.process, tick.t).None? {
      TaskReadsTally(k, desk, c, run, tick.t, tick.w, tick.cut);
    }
  }
}
