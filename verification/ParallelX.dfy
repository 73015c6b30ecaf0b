/** sdk/internal/parallelx/parallelx.go: Run, as a step system of tasks, an error queue and a cancel flag. */
module ParallelX {
  import opened Basics
  import opened Errors

  /** What a failed task sends: who it is, its error, and whether it only gave up because the context was cancelled. */
  datatype Report = Report(task: nat, error: Error, induced: bool)

  datatype Task =
    | Nil                          // a nil task, skipped by Run
    | Ready                        // not launched yet
    | Running
    | Failed(report: Report)       // returned an error, about to send it
    | Reported(report: Report)     // past the send, about to cancel
    | Ended(outcome: Option<Report>)

  /** parentDone: the caller's own context ended.  result: what Run returned, once it did. */
  datatype Pool = Pool(
    tasks: seq<Task>, launched: nat, queue: seq<Report>, cancelled: bool, parentDone: bool,
    result: Option<Option<Report>>)

  datatype Step =
    | Launch
    | Return(t: nat, outcome: Option<Report>)
    | Send(t: nat)
    | Cancel(t: nat)
    | EndParent
    | Finish

  predicate Start(s: Pool) {
    && (forall t | 0 <= t < |s.tasks| :: s.tasks[t] in {Nil, Ready})
    && s.launched == 0 && s.queue == [] && !s.cancelled && s.result.None?
  }

  /** A task gives the cancellation error only after seeing the shared context done; else it returns what it likes. */
  predicate Enabled(s: Pool, step: Step) {
    s.result.None? &&
    match step
    case Launch => s.launched < |s.tasks|
    case Return(t, outcome) =>
      && t < |s.tasks| && s.tasks[t].Running?
      && (outcome.Some? ==> outcome.value.task == t && (outcome.value.induced ==> s.cancelled || s.parentDone))
    case Send(t) => t < |s.tasks| && s.tasks[t].Failed?
    case Cancel(t) => t < |s.tasks| && s.tasks[t].Reported?
    case EndParent => !s.parentDone
    case Finish => s.launched == |s.tasks| && forall t | 0 <= t < |s.tasks| :: s.tasks[t].Nil? || s.tasks[t].Ended?
  }

  function Apply(s: Pool, step: Step): Pool
    requires Enabled(s, step)
  {
    match step
    case Launch =>
      var task := s.tasks[s.launched];
      s.(tasks := s.tasks[s.launched := if task.Ready? then Running else task], launched := s.launched + 1)
    case Return(t, outcome) =>
      s.(tasks := s.tasks[t := if outcome.Some? then Failed(outcome.value) else Ended(None)])
    case Send(t) =>
      var report := s.tasks[t].report;
      s.(tasks := s.tasks[t := Reported(report)],
         queue := if |s.queue| < |s.tasks| then s.queue + [report] else s.queue)
    case Cancel(t) =>
      s.(tasks := s.tasks[t := Ended(Some(s.tasks[t].report))], cancelled := true)
    case EndParent => s.(parentDone := true)
    case Finish => s.(result := Some(if s.queue == [] then None else Some(s.queue[0])))
  }

  predicate Reaches(s: Pool, steps: seq<Step>, s': Pool)
    decreases |steps|
  {
    if steps == [] then s == s'
    else Enabled(s, steps[0]) && Reaches(Apply(s, steps[0]), steps[1..], s')
  }

  // ---- the invariant ----

  function Sent(task: Task): Option<Report> {
    match task
    case Reported(r) => Some(r)
    case Ended(r) => r
    case _ => None
  }

  /** The queue holds the report of every task past its send, once each, and nothing else. */
  predicate QueueInv(s: Pool) {
    && (forall k | 0 <= k < |s.queue| ::
          s.queue[k].task < |s.tasks| && Sent(s.tasks[s.queue[k].task]) == Some(s.queue[k]))
    && (forall j, k | 0 <= j < k < |s.queue| :: s.queue[j].task != s.queue[k].task)
    && (forall t | 0 <= t < |s.tasks| :: Sent(s.tasks[t]).Some? ==>
          Sent(s.tasks[t]).value.task == t && Sent(s.tasks[t]).value in s.queue)
    && (forall t | 0 <= t < |s.tasks| :: s.tasks[t].Failed? ==> s.tasks[t].report.task == t)
  }

  predicate CancelInv(s: Pool) {
    && (s.cancelled ==> s.queue != [])
    && (forall t | 0 <= t < |s.tasks| :: s.tasks[t].Ended? && s.tasks[t].outcome.Some? ==> s.cancelled)
    && (!s.parentDone ==>
          && (s.queue != [] ==> !s.queue[0].induced)
          && (forall t | 0 <= t < |s.tasks| :: s.tasks[t].Failed? && s.tasks[t].report.induced ==> s.queue != []))
  }

  predicate LaunchInv(s: Pool) {
    && s.launched <= |s.tasks|
    && (forall t | 0 <= t < s.launched :: !s.tasks[t].Ready?)
    && (forall t | s.launched <= t < |s.tasks| :: s.tasks[t] in {Nil, Ready})
  }

  predicate ResultInv(s: Pool) {
    s.result.Some? ==>
      && s.result.value == (if s.queue == [] then None else Some(s.queue[0]))
      && forall t | 0 <= t < |s.tasks| :: s.tasks[t].Nil? || s.tasks[t].Ended?
  }

  predicate Inv(s: Pool) {
    QueueInv(s) && CancelInv(s) && LaunchInv(s) && ResultInv(s)
  }

  /** Reports of distinct tasks other than t leave room in a queue of one slot per task. */
  lemma RoomInQueue(s: Pool, t: nat)
    requires QueueInv(s) && t < |s.tasks| && s.tasks[t].Failed?
    ensures |s.queue| < |s.tasks|
  {
    forall k | 0 <= k < |s.queue|
      ensures s.queue[k].task != t
    {
      assert Sent(s.tasks[s.queue[k].task]).Some?;
    }
    var senders := Senders(s.queue, |s.tasks|, t);
    assert senders <= Below(|s.tasks|) - {t};
    Subset(senders, Below(|s.tasks|) - {t});
  }

  lemma {:induction false} Senders(queue: seq<Report>, n: nat, t: nat) returns (senders: set<nat>)
    requires forall k | 0 <= k < |queue| :: queue[k].task < n && queue[k].task != t
    requires forall j, k | 0 <= j < k < |queue| :: queue[j].task != queue[k].task
    ensures |senders| == |queue|
    ensures forall i :: i in senders ==> i < n && i != t && exists k :: 0 <= k < |queue| && queue[k].task == i
  {
    if queue == [] {
      senders := {};
    } else {
      var last := |queue| - 1;
      var rest := Senders(queue[..last], n, t);
      senders := rest + {queue[last].task};
      forall i | i in senders
        ensures exists k :: 0 <= k < |queue| && queue[k].task == i
      {
        if i in rest {
          var k :| 0 <= k < last && queue[..last][k].task == i;
          assert queue[k].task == i;
        } else {
          assert queue[last].task == i;
        }
      }
    }
  }

  function Below(n: nat): (r: set<nat>)
    ensures |r| == n && forall i: nat :: i in r <==> i < n
  {
    if n == 0 then {} else Below(n - 1) + {n - 1}
  }

  lemma {:induction false} Subset<T>(a: set<T>, b: set<T>)
    requires a <= b
    ensures |a| <= |b|
  {
    if a != {} {
      var x :| x in a;
      Subset(a - {x}, b - {x});
    }
  }

  lemma StepKeepsQueue(s: Pool, step: Step)
    requires QueueInv(s) && LaunchInv(s) && Enabled(s, step)
    ensures QueueInv(Apply(s, step))
    ensures Apply(s, step).queue == if step.Send? then s.queue + [s.tasks[step.t].report] else s.queue
  {
    if step.Send? {
      RoomInQueue(s, step.t);
      var s', report := Apply(s, step), s.tasks[step.t].report;
      assert s'.queue[|s.queue|] == report;
      forall k | 0 <= k < |s.queue|
        ensures s.queue[k].task != step.t
      {
        assert Sent(s.tasks[s.queue[k].task]).Some?;
      }
    }
  }

  lemma StepKeepsCancel(s: Pool, step: Step)
    requires QueueInv(s) && CancelInv(s) && LaunchInv(s) && Enabled(s, step)
    ensures CancelInv(Apply(s, step))
  {
    StepKeepsQueue(s, step);
  }

  lemma StepKeepsLaunch(s: Pool, step: Step)
    requires LaunchInv(s) && Enabled(s, step)
    ensures LaunchInv(Apply(s, step)) && |Apply(s, step).tasks| == |s.tasks|
    ensures forall t | 0 <= t < |s.tasks| :: Apply(s, step).tasks[t].Nil? <==> s.tasks[t].Nil?
  {
  }

  lemma StepKeepsInv(s: Pool, step: Step)
    requires Inv(s) && Enabled(s, step)
    ensures Inv(Apply(s, step)) && |Apply(s, step).tasks| == |s.tasks|
    ensures forall t | 0 <= t < |s.tasks| :: Apply(s, step).tasks[t].Nil? <==> s.tasks[t].Nil?
  {
    StepKeepsQueue(s, step);
    StepKeepsCancel(s, step);
    StepKeepsLaunch(s, step);
  }

  lemma {:induction false} RunKeepsInv(s: Pool, steps: seq<Step>, s': Pool)
    requires Inv(s) && Reaches(s, steps, s')
    ensures Inv(s') && |s'.tasks| == |s.tasks|
    ensures forall t | 0 <= t < |s.tasks| :: s'.tasks[t].Nil? <==> s.tasks[t].Nil?
    decreases |steps|
  {
    if steps != [] {
      StepKeepsInv(s, steps[0]);
      RunKeepsInv(Apply(s, steps[0]), steps[1..], s');
    }
  }

  /** In every reachable state, no error send was dropped: each task past its send has its report in the queue. */
  lemma NoSendDropped(s: Pool, steps: seq<Step>, s': Pool)
    requires Start(s) && Reaches(s, steps, s')
    ensures forall t | 0 <= t < |s'.tasks| :: Sent(s'.tasks[t]).Some? ==> Sent(s'.tasks[t]).value in s'.queue
    ensures forall t | 0 <= t < |s'.tasks| :: s'.tasks[t].Failed? ==> |s'.queue| < |s'.tasks|
  {
    RunKeepsInv(s, steps, s');
    forall t | 0 <= t < |s'.tasks| && s'.tasks[t].Failed?
      ensures |s'.queue| < |s'.tasks|
    {
      RoomInQueue(s', t);
    }
  }

  /**
   * What Run returns, in every interleaving: nil exactly when every task that is there succeeded; otherwise the
   * report of a failed task, and unless the caller's own context ended, never a merely cancellation-induced one.
   */
  lemma RunReturnsRootCause(s: Pool, steps: seq<Step>, s': Pool)
    requires Start(s) && Reaches(s, steps, s') && s'.result.Some?
    ensures |s'.tasks| == |s.tasks|
    ensures s'.result.value.None? <==>
            forall t | 0 <= t < |s.tasks| :: s.tasks[t].Nil? || s'.tasks[t] == Ended(None)
    ensures s'.result.value.Some? ==>
              var r := s'.result.value.value;
              && r.task < |s.tasks| && s'.tasks[r.task] == Ended(Some(r)) && s'.cancelled
              && (r.induced ==> s'.parentDone)
  {
    RunKeepsInv(s, steps, s');
    if s'.queue != [] {
      assert s'.tasks[s'.queue[0].task].Ended?;
    }
    forall t | 0 <= t < |s.tasks| && !s.tasks[t].Nil? && s'.result.value.None?
      ensures s'.tasks[t] == Ended(None)
    {
      assert !s'.tasks[t].Nil?;
    }
  }

  /** What a task is past its return with, it returned in one of these steps. */
  predicate TaskSaid(task: Task, t: nat, said: seq<Step>) {
    match task
    case Failed(r) => Return(t, Some(r)) in said
    case Reported(r) => Return(t, Some(r)) in said
    case Ended(outcome) => Return(t, outcome) in said
    case _ => true
  }

  lemma {:induction false} RunSaid(s: Pool, steps: seq<Step>, s': Pool, said: seq<Step>)
    requires Reaches(s, steps, s') && forall t | 0 <= t < |s.tasks| :: TaskSaid(s.tasks[t], t, said)
    ensures |s'.tasks| == |s.tasks| && forall t | 0 <= t < |s.tasks| :: TaskSaid(s'.tasks[t], t, said + steps)
    decreases |steps|
  {
    if steps == [] {
      assert said + steps == said;
    } else {
      var s1 := Apply(s, steps[0]);
      forall t | 0 <= t < |s1.tasks|
        ensures TaskSaid(s1.tasks[t], t, said + [steps[0]])
      {
        assert TaskSaid(s.tasks[t], t, said);
      }
      RunSaid(s1, steps[1..], s', said + [steps[0]]);
      assert said + [steps[0]] + steps[1..] == said + steps;
    }
  }

  /** The first step of a run that sends an error. */
  function FirstSender(steps: seq<Step>): Option<nat> {
    if steps == [] then None else if steps[0].Send? then Some(steps[0].t) else FirstSender(steps[1..])
  }

  lemma {:induction false} QueueHead(s: Pool, steps: seq<Step>, s': Pool)
    requires Inv(s) && Reaches(s, steps, s')
    ensures s.queue != [] ==> s'.queue != [] && s'.queue[0] == s.queue[0]
    ensures s.queue == [] ==>
              match FirstSender(steps)
              case Some(t) => s'.queue != [] && s'.queue[0].task == t
              case None => s'.queue == []
    decreases |steps|
  {
    if steps != [] {
      StepKeepsQueue(s, steps[0]);
      StepKeepsInv(s, steps[0]);
      QueueHead(Apply(s, steps[0]), steps[1..], s');
    }
  }

  /**
   * Run's answer in its tasks' own words: the error one of them returned, namely the one that sent its error first; or
   * nil, and then every task that is there returned nil.
   */
  lemma FirstErrorWins(s: Pool, steps: seq<Step>, s': Pool)
    requires Start(s) && Reaches(s, steps, s') && s'.result.Some?
    ensures match s'.result.value
            case Some(r) => Return(r.task, Some(r)) in steps && FirstSender(steps) == Some(r.task)
            case None =>
              && FirstSender(steps).None?
              && forall t | 0 <= t < |s.tasks| :: s.tasks[t].Ready? ==> Return(t, None) in steps
  {
    RunReturnsRootCause(s, steps, s');
    RunSaid(s, steps, s', []);
    assert [] + steps == steps;
    RunKeepsInv(s, steps, s');
    QueueHead(s, steps, s');
    if s'.result.value.Some? {
      var r := s'.result.value.value;
      assert TaskSaid(s'.tasks[r.task], r.task, steps);
    } else {
      forall t | 0 <= t < |s.tasks| && s.tasks[t].Ready?
        ensures Return(t, None) in steps
      {
        assert TaskSaid(s'.tasks[t], t, steps);
      }
    }
  }

  /** Once the caller's context has ended, a cancellation-induced error can indeed be the one that comes back. */
  lemma ParentCancellationShows(e: Error) returns (s: Pool, steps: seq<Step>, s': Pool)
    ensures Start(s) && Reaches(s, steps, s') && s'.result == Some(Some(Report(0, e, true)))
  {
    var r := Report(0, e, true);
    s := Pool([Ready], 0, [], false, false, None);
    var s1 := Apply(s, Launch);
    var s2 := Apply(s1, EndParent);
    var s3 := Apply(s2, Return(0, Some(r)));
    var s4 := Apply(s3, Send(0));
    var s5 := Apply(s4, Cancel(0));
    s' := Apply(s5, Finish);
    steps := [Launch, EndParent, Return(0, Some(r)), Send(0), Cancel(0), Finish];
    assert Reaches(s', [], s');
    assert [Finish][1..] == [] && Reaches(s5, [Finish], s');
    assert steps[4..] == [Cancel(0), Finish] && steps[4..][1..] == [Finish] && Reaches(s4, steps[4..], s');
    assert steps[3..][1..] == steps[4..] && Reaches(s3, steps[3..], s');
    assert steps[2..][1..] == steps[3..] && Reaches(s2, steps[2..], s');
    assert steps[1..][1..] == steps[2..] && Reaches(s1, steps[1..], s');
  }

  // ---- Run comes to an end ----

  function Weight(task: Task): nat {
    match task
    case Nil => 0
    case Ready => 4
    case Running => 3
    case Failed(_) => 2
    case Reported(_) => 1
    case Ended(_) => 0
  }

  function Weights(tasks: seq<Task>): nat {
    if tasks == [] then 0 else Weight(tasks[0]) + Weights(tasks[1..])
  }

  lemma {:induction false} WeightOfUpdate(tasks: seq<Task>, t: nat, task: Task)
    requires t < |tasks|
    ensures Weights(tasks[t := task]) == Weights(tasks) - Weight(tasks[t]) + Weight(task)
  {
    if t > 0 {
      assert tasks[t := task][1..] == tasks[1..][t - 1 := task];
      WeightOfUpdate(tasks[1..], t - 1, task);
    }
  }

  function StepsLeft(s: Pool): int {
    Weights(s.tasks) + (|s.tasks| - s.launched) + (if s.parentDone then 0 else 1) + (if s.result.Some? then 0 else 1)
  }

  lemma StepShrinks(s: Pool, step: Step)
    requires LaunchInv(s) && Enabled(s, step)
    ensures StepsLeft(Apply(s, step)) < StepsLeft(s)
  {
    match step
    case Launch =>
      var task := s.tasks[s.launched];
      WeightOfUpdate(s.tasks, s.launched, if task.Ready? then Running else task);
    case Return(t, outcome) => WeightOfUpdate(s.tasks, t, if outcome.Some? then Failed(outcome.value) else Ended(None));
    case Send(t) => WeightOfUpdate(s.tasks, t, Reported(s.tasks[t].report));
    case Cancel(t) => WeightOfUpdate(s.tasks, t, Ended(Some(s.tasks[t].report)));
    case EndParent =>
    case Finish =>
  }

  lemma {:induction false} StepsAddUp(s: Pool, steps: seq<Step>, s': Pool)
    requires Inv(s) && Reaches(s, steps, s')
    ensures |steps| + StepsLeft(s') <= StepsLeft(s)
    decreases |steps|
  {
    if steps != [] {
      StepKeepsInv(s, steps[0]);
      StepShrinks(s, steps[0]);
      StepsAddUp(Apply(s, steps[0]), steps[1..], s');
    }
  }

  lemma {:induction false} WeightsRange(tasks: seq<Task>)
    ensures 0 <= Weights(tasks) <= 4 * |tasks|
  {
    if tasks != [] {
      WeightsRange(tasks[1..]);
    }
  }

  /** No execution is longer than five steps a task plus two. */
  lemma RunIsBounded(s: Pool, steps: seq<Step>, s': Pool)
    requires Start(s) && Reaches(s, steps, s')
    ensures |steps| <= 5 * |s.tasks| + 2
  {
    StepsAddUp(s, steps, s');
    RunKeepsInv(s, steps, s');
    WeightsRange(s.tasks);
    WeightsRange(s'.tasks);
  }

  /** Until Run has returned, some step other than the parent's end can be taken, given that running tasks return. */
  lemma NeverStuck(s: Pool) returns (step: Step)
    requires Inv(s) && s.result.None?
    ensures Enabled(s, step) && !step.EndParent?
  {
    if s.launched < |s.tasks| {
      step := Launch;
    } else if t :| 0 <= t < |s.tasks| && !s.tasks[t].Nil? && !s.tasks[t].Ended? {
      step := if s.tasks[t].Running? then Return(t, None) else if s.tasks[t].Failed? then Send(t) else Cancel(t);
    } else {
      step := Finish;
    }
  }
}
