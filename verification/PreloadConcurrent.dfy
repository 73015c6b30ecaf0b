/**
 * fetchMissingAccounts under concurrency.  Callers share one preload cache; each cache access under the lock is one
 * step, and so is each reply of the inner client, which may be any weak answer or any error.
 */
module PreloadConcurrent {
  import opened Basics
  import opened Errors
  import opened Rpc
  import opened Batching
  import opened Preload

  datatype Phase =
    | Scanning(next: nat, missing: seq<Address>)
    | Fetching(missing: seq<Address>)
    | Repairing(missing: seq<Address>, infos: Infos, next: nat)
    | Reading(out: Infos)
    | Done(reply: Result<Infos, Error>)

  datatype Caller = Caller(addresses: seq<Address>, phase: Phase)

  datatype System = System(cache: Cache, callers: seq<Caller>)

  datatype Step =
    | Scan(t: nat)
    | Batch(t: nat, reply: Result<Infos, Error>)
    | Keep(t: nat)
    | Single(t: nat, info: Result<Info, Error>)
    | Commit(t: nat)
    | Read(t: nat)

  /** Whether a caller can take a step; replies of the inner client are only bound by what a weak client promises. */
  ghost predicate Allowed(l: Ledger, c: Caller, step: Step) {
    match (step, c.phase)
    case (Scan(_), Scanning(_, _)) => true
    case (Batch(_, reply), Fetching(missing)) =>
      reply.Ok? ==> forall i | 0 <= i < |missing| :: WeaklyAgrees(l, missing[i], Entry(reply.value, i))
    case (Keep(_), Repairing(missing, infos, i)) =>
      i < |missing| && i < |infos| && infos[i].Some? && infos[i].value.present
    case (Single(_, info), Repairing(missing, infos, i)) =>
      && i < |missing| && i < |infos| && !(infos[i].Some? && infos[i].value.present)
      && (info.Ok? ==> Agrees(l, missing[i], info.value))
    case (Commit(_), Repairing(missing, infos, i)) => i >= |missing| && |infos| >= |missing|
    case (Read(_), Reading(_)) => true
    case _ => false
  }

  ghost predicate Enabled(l: Ledger, s: System, step: Step) {
    step.t < |s.callers| && Allowed(l, s.callers[step.t], step)
  }

  /** The caller's next phase; the cache it sees is the shared one at this moment. */
  function Advance(cache: Cache, c: Caller, step: Step): Phase {
    match (step, c.phase)
    case (Scan(_), Scanning(i, missing)) =>
      if i < |c.addresses| then
        var a := c.addresses[i];
        Scanning(i + 1, if a in cache || a in missing then missing else missing + [a])
      else if missing == [] then Reading([])
      else Fetching(missing)
    case (Batch(_, reply), Fetching(missing)) =>
      if reply.Ok? then Repairing(missing, Pad(reply.value, |missing|), 0) else Done(Err(reply.error))
    case (Keep(_), Repairing(missing, infos, i)) => Repairing(missing, infos, i + 1)
    case (Single(_, info), Repairing(missing, infos, i)) =>
      if info.Err? then Done(Err(info.error))
      else if i < |infos| then Repairing(missing, infos[i := info.value], i + 1)
      else c.phase
    case (Commit(_), Repairing(_, _, _)) => Reading([])
    case (Read(_), Reading(out)) =>
      if |out| < |c.addresses| then
        var a := c.addresses[|out|];
        Reading(out + [if a in cache then Some(cache[a]) else None])
      else Done(Ok(out))
    case _ => c.phase
  }

  function Committed(cache: Cache, c: Caller, step: Step): Cache {
    match (step, c.phase)
    case (Commit(_), Repairing(missing, infos, _)) =>
      if |infos| >= |missing| then Gather(cache, missing, infos[..|missing|]) else cache
    case _ => cache
  }

  function Apply(s: System, step: Step): System
    requires step.t < |s.callers|
  {
    var c := s.callers[step.t];
    System(Committed(s.cache, c, step), s.callers[step.t := c.(phase := Advance(s.cache, c, step))])
  }

  ghost predicate Reaches(l: Ledger, s: System, steps: seq<Step>, s': System)
    decreases |steps|
  {
    if steps == [] then s == s'
    else Enabled(l, s, steps[0]) && Reaches(l, Apply(s, steps[0]), steps[1..], s')
  }

  // ---- the invariant ----

  predicate Covered(cache: Cache, addresses: seq<Address>, missing: seq<Address>) {
    forall a :: a in addresses ==> a in cache || a in missing
  }

  ghost predicate CallerInv(l: Ledger, cache: Cache, c: Caller) {
    match c.phase
    case Scanning(i, missing) => i <= |c.addresses| && Covered(cache, c.addresses[..i], missing)
    case Fetching(missing) => Covered(cache, c.addresses, missing)
    case Repairing(missing, infos, i) =>
      && Covered(cache, c.addresses, missing) && i <= |missing| <= |infos|
      && (forall k | 0 <= k < i :: Agrees(l, missing[k], infos[k]))
      && (forall k | i <= k < |missing| :: WeaklyAgrees(l, missing[k], infos[k]))
    case Reading(out) =>
      && Covered(cache, c.addresses, []) && |out| <= |c.addresses|
      && (forall k | 0 <= k < |out| :: out[k] == Some(Lookup(l, c.addresses[k])))
    case Done(reply) => reply.Ok? ==> reply.value == LookupAll(l, c.addresses)
  }

  ghost predicate Inv(l: Ledger, s: System) {
    && TableAgrees(l, s.cache)
    && forall t | 0 <= t < |s.callers| :: CallerInv(l, s.cache, s.callers[t])
  }

  lemma CommitGrows(l: Ledger, cache: Cache, c: Caller, step: Step)
    requires TableAgrees(l, cache) && CallerInv(l, cache, c) && Allowed(l, c, step)
    ensures var cache' := Committed(cache, c, step);
            TableAgrees(l, cache') && cache.Keys <= cache'.Keys
            && (step.Commit? ==> forall a :: a in c.phase.missing ==> a in cache')
  {
    if step.Commit? {
      GatherAgrees(l, cache, c.phase.missing, c.phase.infos[..|c.phase.missing|]);
    }
  }

  /** One caller's step, whatever the others have cached meanwhile. */
  lemma CallerStep(l: Ledger, cache: Cache, c: Caller, step: Step)
    requires TableAgrees(l, cache) && CallerInv(l, cache, c) && Allowed(l, c, step)
    ensures CallerInv(l, Committed(cache, c, step), c.(phase := Advance(cache, c, step)))
  {
    CommitGrows(l, cache, c, step);
    match (step, c.phase)
    case (Scan(_), Scanning(i, missing)) =>
      if i < |c.addresses| {
        assert c.addresses[..i + 1] == c.addresses[..i] + [c.addresses[i]];
      } else {
        assert c.addresses[..i] == c.addresses;
      }
    case (Batch(_, reply), Fetching(missing)) =>
      if reply.Ok? {
        forall k | 0 <= k < |missing|
          ensures WeaklyAgrees(l, missing[k], Pad(reply.value, |missing|)[k])
        {
          assert WeaklyAgrees(l, missing[k], Entry(reply.value, k));
        }
      }
    case (Keep(_), Repairing(missing, infos, i)) =>
      assert WeaklyAgrees(l, missing[i], infos[i]);
    case (Read(_), Reading(out)) =>
      if |out| < |c.addresses| {
        assert c.addresses[|out|] in c.addresses;
      }
    case _ =>
  }

  lemma OtherCallersKeep(l: Ledger, cache: Cache, cache': Cache, c: Caller)
    requires CallerInv(l, cache, c) && cache.Keys <= cache'.Keys
    ensures CallerInv(l, cache', c)
  {
  }

  lemma StepKeepsInv(l: Ledger, s: System, step: Step)
    requires Inv(l, s) && Enabled(l, s, step)
    ensures Inv(l, Apply(s, step)) && s.cache.Keys <= Apply(s, step).cache.Keys
  {
    var c := s.callers[step.t];
    CommitGrows(l, s.cache, c, step);
    CallerStep(l, s.cache, c, step);
    var s' := Apply(s, step);
    forall t | 0 <= t < |s'.callers|
      ensures CallerInv(l, s'.cache, s'.callers[t])
    {
      if t != step.t {
        OtherCallersKeep(l, s.cache, s'.cache, s.callers[t]);
      }
    }
  }

  lemma {:induction false} RunKeepsInv(l: Ledger, s: System, steps: seq<Step>, s': System)
    requires Inv(l, s) && Reaches(l, s, steps, s')
    ensures Inv(l, s') && s.cache.Keys <= s'.cache.Keys
    ensures |s'.callers| == |s.callers|
    ensures forall t | 0 <= t < |s.callers| :: s'.callers[t].addresses == s.callers[t].addresses
    decreases |steps|
  {
    if steps != [] {
      StepKeepsInv(l, s, steps[0]);
      RunKeepsInv(l, Apply(s, steps[0]), steps[1..], s');
    }
  }

  predicate Starts(s: System) {
    forall t | 0 <= t < |s.callers| :: s.callers[t].phase == Scanning(0, [])
  }

  /**
   * In every interleaving the cache stays true to the ledger and only grows, a caller that reads finds every address
   * it asked for, and a caller that returns without an error returns the ledger's record for every address.
   */
  lemma EveryInterleaving(l: Ledger, s: System, steps: seq<Step>, s': System, t: nat)
    requires Starts(s) && TableAgrees(l, s.cache) && Reaches(l, s, steps, s') && t < |s.callers|
    ensures TableAgrees(l, s'.cache) && s.cache.Keys <= s'.cache.Keys
    ensures |s'.callers| == |s.callers|
    ensures var addresses := s.callers[t].addresses;
            match s'.callers[t].phase
            case Reading(_) => forall a :: a in addresses ==> a in s'.cache
            case Done(Ok(out)) => out == LookupAll(l, addresses)
            case _ => true
  {
    assert Inv(l, s);
    RunKeepsInv(l, s, steps, s');
    assert CallerInv(l, s'.cache, s'.callers[t]);
  }

  // ---- callers finish ----

  /** How many more steps a caller can take. */
  function Left(c: Caller): nat {
    var n := |c.addresses|;
    match c.phase
    case Scanning(i, missing) =>
      (if i < n then n - i else 0) + 2 * n + 4 + (if |missing| <= i then 0 else |missing| - i)
    case Fetching(missing) => |missing| + n + 3
    case Repairing(missing, _, i) => (if i < |missing| then |missing| - i else 0) + n + 2
    case Reading(out) => (if |out| < n then n - |out| else 0) + 1
    case Done(_) => 0
  }

  predicate Sized(c: Caller) {
    match c.phase
    case Scanning(i, missing) => |missing| <= i <= |c.addresses|
    case Fetching(missing) => |missing| <= |c.addresses|
    case Repairing(missing, infos, _) => |missing| <= |infos|
    case _ => true
  }

  /** The step is one the caller's phase calls for, whatever the inner client answers. */
  predicate Due(c: Caller, step: Step) {
    match (step, c.phase)
    case (Scan(_), Scanning(_, _)) => true
    case (Batch(_, _), Fetching(_)) => true
    case (Keep(_), Repairing(missing, infos, i)) => i < |missing|
    case (Single(_, _), Repairing(missing, infos, i)) => i < |missing|
    case (Commit(_), Repairing(missing, _, i)) => i >= |missing|
    case (Read(_), Reading(_)) => true
    case _ => false
  }

  /** Each step brings its caller closer to its end. */
  lemma StepsRunOut(cache: Cache, c: Caller, step: Step)
    requires Due(c, step) && Sized(c)
    ensures var c' := c.(phase := Advance(cache, c, step)); Left(c') < Left(c) && Sized(c')
  {
  }

  function LeftOf(callers: seq<Caller>): nat {
    if callers == [] then 0 else Left(callers[0]) + LeftOf(callers[1..])
  }

  lemma {:induction false} LeftOfUpdate(callers: seq<Caller>, t: nat, c: Caller)
    requires t < |callers|
    ensures LeftOf(callers[t := c]) == LeftOf(callers) - Left(callers[t]) + Left(c)
  {
    if t > 0 {
      assert callers[t := c][1..] == callers[1..][t - 1 := c];
      LeftOfUpdate(callers[1..], t - 1, c);
    }
  }

  lemma {:induction false} StepsAddUp(l: Ledger, s: System, steps: seq<Step>, s': System)
    requires Reaches(l, s, steps, s') && forall t | 0 <= t < |s.callers| :: Sized(s.callers[t])
    ensures |steps| + LeftOf(s'.callers) <= LeftOf(s.callers)
    decreases |steps|
  {
    if steps != [] {
      var c := s.callers[steps[0].t];
      StepsRunOut(s.cache, c, steps[0]);
      LeftOfUpdate(s.callers, steps[0].t, c.(phase := Advance(s.cache, c, steps[0])));
      StepsAddUp(l, Apply(s, steps[0]), steps[1..], s');
    }
  }

  /** The requested addresses, and the callers, bound every execution. */
  function Asked(callers: seq<Caller>): nat {
    if callers == [] then 0 else |callers[0].addresses| + Asked(callers[1..])
  }

  lemma {:induction false} LeftAtStart(callers: seq<Caller>)
    requires forall t | 0 <= t < |callers| :: callers[t].phase == Scanning(0, [])
    ensures LeftOf(callers) == 3 * Asked(callers) + 4 * |callers|
  {
    if callers != [] {
      LeftAtStart(callers[1..]);
    }
  }

  /** No interleaving is longer than three steps a requested address plus four a caller. */
  lemma RunIsBounded(l: Ledger, s: System, steps: seq<Step>, s': System)
    requires Starts(s) && Reaches(l, s, steps, s')
    ensures |steps| <= 3 * Asked(s.callers) + 4 * |s.callers|
  {
    LeftAtStart(s.callers);
    StepsAddUp(l, s, steps, s');
  }

  /** A caller that is not done can always be answered. */
  lemma NeverStuck(l: Ledger, s: System, t: nat) returns (step: Step)
    requires Inv(l, s) && t < |s.callers| && !s.callers[t].phase.Done?
    ensures Enabled(l, s, step) && step.t == t
  {
    var c := s.callers[t];
    assert CallerInv(l, s.cache, c);
    match c.phase
    case Scanning(_, _) => step := Scan(t);
    case Fetching(missing) =>
      step := Batch(t, Ok([]));
    case Repairing(missing, infos, i) =>
      step := if i >= |missing| then Commit(t)
              else if infos[i].Some? && infos[i].value.present then Keep(t)
              else Single(t, Ok(Some(Lookup(l, missing[i]))));
    case Reading(_) => step := Read(t);
  }

  // ---- what a caller asks for, and what its failure says ----

  predicate Among(addresses: seq<Address>, missing: seq<Address>) {
    Distinct(missing) && forall a :: a in missing ==> a in addresses
  }

  /** A caller asks for addresses of its own, none twice, and fails with one of the errors it was told. */
  predicate AsksItsOwn(c: Caller, told: set<Error>) {
    match c.phase
    case Scanning(_, missing) => Among(c.addresses, missing)
    case Fetching(missing) => Among(c.addresses, missing) && missing != []
    case Repairing(missing, _, _) => Among(c.addresses, missing)
    case Reading(_) => true
    case Done(reply) => reply.Err? ==> reply.error in told
  }

  /** The error the inner client answers a step with. */
  function Told(step: Step): set<Error> {
    match step
    case Batch(_, Err(e)) => {e}
    case Single(_, Err(e)) => {e}
    case _ => {}
  }

  lemma StepAsksItsOwn(cache: Cache, c: Caller, step: Step, told: set<Error>)
    requires AsksItsOwn(c, told)
    ensures AsksItsOwn(c.(phase := Advance(cache, c, step)), told + Told(step))
  {
  }

  /** The errors the inner client answers caller t with in a run. */
  function ToldTo(t: nat, steps: seq<Step>): set<Error> {
    if steps == [] then {}
    else (if steps[0].t == t then Told(steps[0]) else {}) + ToldTo(t, steps[1..])
  }

  lemma {:induction false} RunAsksItsOwn(
    l: Ledger, s: System, steps: seq<Step>, s': System, t: nat, told: set<Error>)
    requires Reaches(l, s, steps, s') && t < |s.callers| && AsksItsOwn(s.callers[t], told)
    ensures |s'.callers| == |s.callers| && AsksItsOwn(s'.callers[t], told + ToldTo(t, steps))
    ensures s'.callers[t].addresses == s.callers[t].addresses
    decreases |steps|
  {
    if steps != [] {
      var now := if steps[0].t == t then Told(steps[0]) else {};
      if steps[0].t == t {
        StepAsksItsOwn(s.cache, s.callers[t], steps[0], told);
      }
      RunAsksItsOwn(l, Apply(s, steps[0]), steps[1..], s', t, told + now);
      assert told + now + ToldTo(t, steps[1..]) == told + ToldTo(t, steps);
    } else {
      assert told + ToldTo(t, steps) == told;
    }
  }

  /**
   * In every interleaving a caller's one batch asks for addresses of its own, each once, and a caller that fails hands
   * on an error the inner client answered it with.
   */
  lemma FailuresAreTheClients(l: Ledger, s: System, steps: seq<Step>, s': System, t: nat)
    requires Starts(s) && Reaches(l, s, steps, s') && t < |s.callers|
    ensures |s'.callers| == |s.callers|
    ensures match s'.callers[t].phase
            case Fetching(missing) =>
              missing != [] && Distinct(missing) && forall a :: a in missing ==> a in s.callers[t].addresses
            case Done(Err(e)) => e in ToldTo(t, steps)
            case _ => true
  {
    RunAsksItsOwn(l, s, steps, s', t, {});
    assert {} + ToldTo(t, steps) == ToldTo(t, steps);
  }
}
