/**
 * Reads in progress.  A read through the preloaded client goes step by step through fetchMissingAccounts, sharing the
 * cache with whoever else reads; any other read is one call handed straight on.  Each call to the RPC client may find
 * the backend in any world, so everything other goroutines do in between is covered.
 */
module Calls {
  import opened Basics
  import opened Errors
  import opened Rpc
  import opened Batching
  import opened Preload
  import opened Calculators
  import PC = PreloadConcurrent

  datatype Call =
    | Sharing(caller: PC.Caller)   // in fetchMissingAccounts
    | Passing                      // about to be handed to the client or the supply provider
    | Answered(answer: Answer)

  /** What a calculator was built with, and the context it computes in. */
  datatype Desk<!W> = Desk(inner: Client<W>, ctx: Context, source: Source, provider: Provider)

  predicate IsShared(source: Source, read: Read) {
    source.Preloaded? && (read.AccountRead? || read.AccountsRead?)
  }

  function Wanted(read: Read): seq<Address> {
    match read
    case AccountRead(a) => [a]
    case AccountsRead(addresses) => addresses
    case _ => []
  }

  function Begin(source: Source, read: Read): Call {
    if IsShared(source, read) then Sharing(PC.Caller(Wanted(read), PC.Scanning(0, []))) else Passing
  }

  /** The step a caller in fetchMissingAccounts takes next; cut is the error a cancelled context answers with. */
  function NextStep<W>(desk: Desk<W>, caller: PC.Caller, w: W, cut: Option<Error>): PC.Step {
    match caller.phase
    case Scanning(_, _) => PC.Scan(0)
    case Fetching(missing) =>
      PC.Batch(0, if cut.Some? then Err(cut.value) else desk.inner.getMultipleAccounts(desk.ctx, missing, w).0)
    case Repairing(missing, infos, i) =>
      if i >= |missing| then PC.Commit(0)
      else if i < |infos| && infos[i].Some? && infos[i].value.present then PC.Keep(0)
      else PC.Single(0, if cut.Some? then Err(cut.value) else desk.inner.getAccount(desk.ctx, missing[i], w).0)
    case _ => PC.Read(0)
  }

  function Refused(read: Read, e: Error): Answer {
    match read
    case AccountRead(_) => AccountAnswer(Err(e))
    case AccountsRead(_) => AccountsAnswer(Err(e))
    case _ => DatumAnswer(Err(e))
  }

  function Handed<W>(desk: Desk<W>, read: Read, w: W): Answer {
    match read
    case AccountRead(a) => AccountAnswer(desk.inner.getAccount(desk.ctx, a, w).0)
    case AccountsRead(addresses) => AccountsAnswer(desk.inner.getMultipleAccounts(desk.ctx, addresses, w).0)
    case SupplyRead(mint) =>
      DatumAnswer(if desk.provider.CustomProvider? then desk.provider.answer(mint)
                  else desk.inner.query(desk.ctx, TokenSupply(mint), w).0)
    case QueryRead(q) => DatumAnswer(desk.inner.query(desk.ctx, q, w).0)
  }

  function Shared(read: Read, reply: Result<Infos, Error>): Answer {
    if read.AccountsRead? then AccountsAnswer(reply)
    else if reply.Err? then AccountAnswer(Err(reply.error))
    else AccountAnswer(Ok(if |reply.value| > 0 then reply.value[0] else None))
  }

  function Proceed<W>(desk: Desk<W>, read: Read, call: Call, w: W, cut: Option<Error>, cache: Cache): Call {
    match call
    case Answered(_) => call
    case Passing => Answered(if cut.Some? then Refused(read, cut.value) else Handed(desk, read, w))
    case Sharing(caller) =>
      if caller.phase.Done? then Answered(Shared(read, caller.phase.reply))
      else Sharing(caller.(phase := PC.Advance(cache, caller, NextStep(desk, caller, w, cut))))
  }

  /** The shared cache after that step. */
  function Filled<W>(desk: Desk<W>, call: Call, w: W, cut: Option<Error>, cache: Cache): Cache {
    if call.Sharing? && !call.caller.phase.Done?
    then PC.Committed(cache, call.caller, NextStep(desk, call.caller, w, cut))
    else cache
  }

  // ---- answers are the ledger's ----

  /** interrupted: whether a cancelled context has answered for the client; then an answer says nothing. */
  ghost predicate CallInv(l: Ledger, provider: Provider, read: Read, cache: Cache, call: Call, interrupted: bool) {
    match call
    case Sharing(caller) =>
      && (read.AccountRead? || read.AccountsRead?) && caller.addresses == Wanted(read)
      && PC.CallerInv(l, cache, caller) && PC.Sized(caller)
    case Passing => true
    case Answered(answer) =>
      !interrupted && !Fault(provider, read, answer) ==> answer == LedgerAnswer(l, provider, read)
  }

  lemma BeginIsTrue(l: Ledger, provider: Provider, source: Source, read: Read, cache: Cache, interrupted: bool)
    ensures CallInv(l, provider, read, cache, Begin(source, read), interrupted)
  {
  }

  lemma StepAllowed<W(!new)>(desk: Desk<W>, l: Ledger, cache: Cache, caller: PC.Caller, w: W, cut: Option<Error>)
    requires Exact(desk.inner, l) && PC.CallerInv(l, cache, caller) && !caller.phase.Done?
    ensures PC.Allowed(l, caller, NextStep(desk, caller, w, cut))
  {
    match caller.phase
    case Fetching(missing) =>
      ExactIsFaithful(desk.inner, l);
      FaithfulIsWeak(desk.inner, l);
    case _ =>
  }

  /** One step of a read over an exact client: the shared cache stays true and grows, and the read stays sound. */
  lemma ProceedIsTrue<W(!new)>(
    desk: Desk<W>, l: Ledger, read: Read, call: Call, w: W, cut: Option<Error>, cache: Cache, interrupted: bool)
    requires Exact(desk.inner, l) && TableAgrees(l, cache) && CallInv(l, desk.provider, read, cache, call, interrupted)
    ensures var cache' := Filled(desk, call, w, cut, cache);
            && TableAgrees(l, cache') && cache.Keys <= cache'.Keys
            && CallInv(l, desk.provider, read, cache', Proceed(desk, read, call, w, cut, cache),
                       interrupted || cut.Some?)
  {
    match call
    case Sharing(caller) =>
      if !caller.phase.Done? {
        var step := NextStep(desk, caller, w, cut);
        StepAllowed(desk, l, cache, caller, w, cut);
        PC.CommitGrows(l, cache, caller, step);
        PC.CallerStep(l, cache, caller, step);
        PC.StepsRunOut(cache, caller, step);
      }
    case _ =>
  }

  /** What others cache meanwhile does not disturb a read. */
  lemma GrowthKeepsCall(
    l: Ledger, provider: Provider, read: Read, cache: Cache, cache': Cache, call: Call, interrupted: bool)
    requires CallInv(l, provider, read, cache, call, interrupted) && cache.Keys <= cache'.Keys
    ensures CallInv(l, provider, read, cache', call, interrupted)
  {
    if call.Sharing? {
      PC.OtherCallersKeep(l, cache, cache', call.caller);
    }
  }

  // ---- what a read finds in the cache and leaves there, over any client ----

  /** About to ask the client or the supply provider, which is where a cancelled context can cut a read short. */
  predicate Exposed(call: Call) {
    match call
    case Sharing(caller) =>
      (match caller.phase
       case Fetching(_) => true
       case Repairing(missing, infos, i) =>
         i < |missing| && !(i < |infos| && infos[i].Some? && infos[i].value.present)
       case _ => false)
    case Passing => true
    case Answered(_) => false
  }

  /** The addresses a read leaves in the cache once it is answered. */
  function ReadKeys(source: Source, read: Read): set<Address> {
    if IsShared(source, read) then set a | a in Wanted(read) else {}
  }

  /** A read that has to ask when no more than `known` is cached. */
  predicate Open(source: Source, known: set<Address>, read: Read) {
    IsShared(source, read) ==> !(ReadKeys(source, read) <= known)
  }

  predicate Unknown(known: set<Address>, read: Read, missing: seq<Address>) {
    forall a :: a in missing ==> a in Wanted(read) && a !in known
  }

  /** It asks for nothing known to be cached, fails only if it has to ask, and leaves cached what it wanted. */
  ghost predicate CallKeeps(source: Source, known: set<Address>, read: Read, cache: Cache, call: Call) {
    match call
    case Sharing(caller) =>
      && IsShared(source, read) && caller.addresses == Wanted(read)
      && (match caller.phase
          case Scanning(i, missing) =>
            && i <= |caller.addresses| && PC.Covered(cache, caller.addresses[..i], missing)
            && Unknown(known, read, missing)
          case Fetching(missing) =>
            PC.Covered(cache, caller.addresses, missing) && Unknown(known, read, missing) && missing != []
          case Repairing(missing, infos, _) =>
            && |missing| <= |infos| && PC.Covered(cache, caller.addresses, missing)
            && Unknown(known, read, missing) && missing != []
          case Reading(_) => PC.Covered(cache, caller.addresses, [])
          case Done(reply) =>
            if reply.Err? then Open(source, known, read) else PC.Covered(cache, caller.addresses, []))
    case Passing => !IsShared(source, read)
    case Answered(answer) =>
      && (read.AccountsRead? ==> answer.AccountsAnswer?)
      && (IsShared(source, read) ==>
            if Failed(answer) then Open(source, known, read) else PC.Covered(cache, Wanted(read), []))
  }

  lemma BeginKeeps(source: Source, known: set<Address>, read: Read, cache: Cache)
    ensures CallKeeps(source, known, read, cache, Begin(source, read))
  {
  }

  lemma KeepsAsked(source: Source, known: set<Address>, read: Read, missing: seq<Address>)
    requires IsShared(source, read) && Unknown(known, read, missing) && missing != []
    ensures Open(source, known, read)
  {
    assert missing[0] in ReadKeys(source, read);
  }

  lemma ExposedIsOpen(source: Source, known: set<Address>, read: Read, cache: Cache, call: Call)
    requires CallKeeps(source, known, read, cache, call) && Exposed(call)
    ensures Open(source, known, read)
  {
    if call.Sharing? {
      KeepsAsked(source, known, read, call.caller.phase.missing);
    }
  }

  lemma ScanKeeps(source: Source, known: set<Address>, read: Read, caller: PC.Caller, cache: Cache)
    requires CallKeeps(source, known, read, cache, Sharing(caller)) && known <= cache.Keys && caller.phase.Scanning?
    ensures CallKeeps(source, known, read, cache, Sharing(caller.(phase := PC.Advance(cache, caller, PC.Scan(0)))))
  {
    var i := caller.phase.next;
    if i < |caller.addresses| {
      assert caller.addresses[..i + 1] == caller.addresses[..i] + [caller.addresses[i]];
    } else {
      assert caller.addresses[..i] == caller.addresses;
    }
  }

  lemma RepairKeeps(
    source: Source, known: set<Address>, read: Read, caller: PC.Caller, step: PC.Step, cache: Cache)
    requires CallKeeps(source, known, read, cache, Sharing(caller)) && caller.phase.Repairing?
    requires step.Keep? || step.Single? || step.Commit?
    ensures var cache' := PC.Committed(cache, caller, step);
            && cache.Keys <= cache'.Keys <= cache.Keys + ReadKeys(source, read)
            && CallKeeps(source, known, read, cache', Sharing(caller.(phase := PC.Advance(cache, caller, step))))
  {
    var missing, infos := caller.phase.missing, caller.phase.infos;
    KeepsAsked(source, known, read, missing);
    GatherKeys(cache, missing, infos[..|missing|]);
    assert missing[..|missing|] == missing;
  }

  lemma SharingKeeps<W>(
    desk: Desk<W>, known: set<Address>, read: Read, caller: PC.Caller, w: W, cut: Option<Error>, cache: Cache)
    requires CallKeeps(desk.source, known, read, cache, Sharing(caller)) && known <= cache.Keys && !caller.phase.Done?
    ensures var step := NextStep(desk, caller, w, cut);
            var cache' := PC.Committed(cache, caller, step);
            && cache.Keys <= cache'.Keys <= cache.Keys + ReadKeys(desk.source, read)
            && CallKeeps(desk.source, known, read, cache',
                         Sharing(caller.(phase := PC.Advance(cache, caller, step))))
  {
    match caller.phase
    case Scanning(_, _) => ScanKeeps(desk.source, known, read, caller, cache);
    case Fetching(missing) => KeepsAsked(desk.source, known, read, missing);
    case Repairing(_, _, _) => RepairKeeps(desk.source, known, read, caller, NextStep(desk, caller, w, cut), cache);
    case _ =>
  }

  /** One step of a read, whatever it is answered: the cache grows by what the read wants at most. */
  lemma ProceedKeeps<W>(
    desk: Desk<W>, known: set<Address>, read: Read, call: Call, w: W, cut: Option<Error>, cache: Cache)
    requires CallKeeps(desk.source, known, read, cache, call) && known <= cache.Keys
    ensures var cache' := Filled(desk, call, w, cut, cache);
            && cache.Keys <= cache'.Keys <= cache.Keys + ReadKeys(desk.source, read)
            && CallKeeps(desk.source, known, read, cache', Proceed(desk, read, call, w, cut, cache))
  {
    if call.Sharing? && !call.caller.phase.Done? {
      SharingKeeps(desk, known, read, call.caller, w, cut, cache);
    }
  }

  lemma GrowthKeeps(
    source: Source, known: set<Address>, read: Read, cache: Cache, cache': Cache, call: Call)
    requires CallKeeps(source, known, read, cache, call) && cache.Keys <= cache'.Keys
    ensures CallKeeps(source, known, read, cache', call)
  {
  }

  // ---- reads end ----

  function CallLeft(call: Call): nat {
    match call
    case Sharing(caller) => PC.Left(caller) + 2
    case Passing => 2
    case Answered(_) => 1
  }

  lemma BeginIsCovered(source: Source, read: Read)
    ensures CallLeft(Begin(source, read)) < Demand(read)
  {
  }

  ghost predicate CallSized(call: Call) {
    call.Sharing? ==> PC.Sized(call.caller)
  }

  lemma NextIsDue<W>(desk: Desk<W>, caller: PC.Caller, w: W, cut: Option<Error>)
    requires !caller.phase.Done? && PC.Sized(caller)
    ensures PC.Due(caller, NextStep(desk, caller, w, cut))
  {
  }

  /** Whatever the client answers, a read not answered yet comes closer to its end. */
  lemma ProceedRunsOut<W>(desk: Desk<W>, read: Read, call: Call, w: W, cut: Option<Error>, cache: Cache)
    requires !call.Answered? && CallSized(call)
    ensures var call' := Proceed(desk, read, call, w, cut, cache); CallLeft(call') < CallLeft(call) && CallSized(call')
  {
    if call.Sharing? && !call.caller.phase.Done? {
      NextIsDue(desk, call.caller, w, cut);
      PC.StepsRunOut(cache, call.caller, NextStep(desk, call.caller, w, cut));
    }
  }

  // ---- reads are answered ----

  predicate Untroubled(provider: Provider, read: Read, call: Call) {
    match call
    case Sharing(caller) => caller.phase.Done? ==> caller.phase.reply.Ok?
    case Passing => true
    case Answered(answer) => !Fault(provider, read, answer)
  }

  /** Over a client that never fails, a read that is not cut short is answered. */
  lemma ProceedUntroubled<W(!new)>(desk: Desk<W>, read: Read, call: Call, w: W, cache: Cache)
    requires NeverFails(desk.inner, desk.ctx) && Untroubled(desk.provider, read, call)
    requires call.Sharing? ==> !read.SupplyRead? && !read.QueryRead?
    ensures Untroubled(desk.provider, read, Proceed(desk, read, call, w, None, cache))
  {
  }

  // ---- failures are the client's own ----

  /** cuts: the errors cancelled contexts have answered with in the client's place. */
  ghost predicate CallSaid<W(!new)>(desk: Desk<W>, read: Read, call: Call, cuts: set<Error>) {
    match call
    case Sharing(caller) =>
      && (read.AccountRead? || read.AccountsRead?) && caller.addresses == Wanted(read)
      && (match caller.phase
          case Done(reply) =>
            reply.Err? ==> reply.error in cuts || ClientSaid(desk.inner, desk.ctx, Wanted(read), reply.error)
          case _ => PC.AsksItsOwn(caller, {}))
    case Passing => true
    case Answered(answer) =>
      || OwnFailure(desk.inner, desk.ctx, desk.provider, read, answer)
      || exists e :: e in cuts && answer == Refused(read, e)
  }

  lemma BeginSaid<W(!new)>(desk: Desk<W>, read: Read)
    ensures CallSaid(desk, read, Begin(desk.source, read), {})
  {
  }

  lemma FetchingSaid<W(!new)>(
    desk: Desk<W>, read: Read, caller: PC.Caller, w: W, cut: Option<Error>, cache: Cache, cuts: set<Error>)
    requires CallSaid(desk, read, Sharing(caller), cuts) && !caller.phase.Done?
    ensures var phase := PC.Advance(cache, caller, NextStep(desk, caller, w, cut));
            CallSaid(desk, read, Sharing(caller.(phase := phase)), cuts + if cut.Some? then {cut.value} else {})
  {
    var step := NextStep(desk, caller, w, cut);
    PC.StepAsksItsOwn(cache, caller, step, {});
    if cut.None? {
      match caller.phase
      case Fetching(missing) =>
        var reply := desk.inner.getMultipleAccounts(desk.ctx, missing, w).0;
        assert reply.Err? ==> BatchFails(desk.inner, desk.ctx, missing, w, reply.error);
      case Repairing(missing, infos, i) =>
        if i < |missing| {
          var reply := desk.inner.getAccount(desk.ctx, missing[i], w).0;
          assert missing[i] in Wanted(read);
          assert reply.Err? ==> SingleFails(desk.inner, desk.ctx, missing[i], w, reply.error);
        }
      case _ =>
    }
  }

  lemma PassingSaid<W(!new)>(desk: Desk<W>, read: Read, w: W)
    ensures OwnFailure(desk.inner, desk.ctx, desk.provider, read, Handed(desk, read, w))
  {
    match read
    case AccountRead(a) =>
      var r := desk.inner.getAccount(desk.ctx, a, w).0;
      assert r.Err? ==> SingleFails(desk.inner, desk.ctx, a, w, r.error);
    case AccountsRead(addresses) =>
      var r := desk.inner.getMultipleAccounts(desk.ctx, addresses, w).0;
      assert r.Err? ==> BatchFails(desk.inner, desk.ctx, addresses, w, r.error);
    case SupplyRead(mint) =>
      var r := desk.inner.query(desk.ctx, TokenSupply(mint), w).0;
      assert r.Err? ==> QueryFails(desk.inner, desk.ctx, TokenSupply(mint), w, r.error);
    case QueryRead(q) =>
      var r := desk.inner.query(desk.ctx, q, w).0;
      assert r.Err? ==> QueryFails(desk.inner, desk.ctx, q, w, r.error);
  }

  /** Step by step, over any client and among any others: a read fails with the client's own error or a context's. */
  lemma ProceedSaid<W(!new)>(
    desk: Desk<W>, read: Read, call: Call, w: W, cut: Option<Error>, cache: Cache, cuts: set<Error>)
    requires CallSaid(desk, read, call, cuts)
    ensures CallSaid(desk, read, Proceed(desk, read, call, w, cut, cache),
                     cuts + if cut.Some? then {cut.value} else {})
  {
    match call
    case Sharing(caller) =>
      if !caller.phase.Done? {
        FetchingSaid(desk, read, caller, w, cut, cache, cuts);
      }
    case Passing =>
      PassingSaid(desk, read, w);
    case Answered(_) =>
  }
}
