/**
 * Reading accounts for a calculation: what is read, through which client, and programs that read one thing after
 * another.  What a program does next may depend in any way on the answers it has had, errors included.
 */
module Calculators {
  import opened Basics
  import opened Errors
  import opened Rpc
  import opened Batching
  import opened Preload

  type Metrics = seq<nat>

  datatype Read =
    | AccountRead(a: Address)
    | AccountsRead(addresses: seq<Address>)
    | SupplyRead(mint: Address)
    | QueryRead(q: Query)

  datatype Answer =
    | AccountAnswer(info: Result<Info, Error>)
    | AccountsAnswer(infos: Result<Infos, Error>)
    | DatumAnswer(datum: Result<Datum, Error>)

  datatype Action = Ask(read: Read) | Finish(outcome: Result<Metrics, Error>)

  /** left: more than the reads still to come can demand, so that a program comes to an end. */
  datatype Strategy = Strategy(left: seq<Answer> -> nat, act: seq<Answer> -> Action)

  /** More than the steps a read can take, by the number of addresses it asks for. */
  function Demand(read: Read): nat {
    match read
    case AccountRead(_) => 10
    case AccountsRead(addresses) => 3 * |addresses| + 7
    case SupplyRead(_) => 4
    case QueryRead(_) => 4
  }

  ghost predicate Halts(p: Strategy) {
    forall h: seq<Answer>, a: Answer :: p.act(h).Ask? ==> p.left(h + [a]) + Demand(p.act(h).read) <= p.left(h)
  }

  type Program = p: Strategy | Halts(p) witness Strategy(_ => 0, _ => Finish(Ok([])))

  /** The default provider reads the supply through the calculator's own client; a custom one answers by itself. */
  datatype Provider = DefaultProvider | CustomProvider(answer: Address -> Result<Datum, Error>)

  /** Which client a calculator was built with: the service's own, or the preloaded one of its group. */
  datatype Source = Direct | Preloaded

  // ---- reading ----

  /** One read through the client of the given source; a direct read leaves cache and counters alone. */
  function Perform<W>(inner: Client<W>, ctx: Context, source: Source, provider: Provider, read: Read, s: State<W>)
    : (Answer, State<W>)
  {
    match read
    case AccountRead(a) =>
      if source.Preloaded? then
        var (r, s') := Do(inner, ctx, s, One(a));
        (AccountAnswer(if r.Err? then Err(r.error) else Ok(r.value[0])), s')
      else
        var (r, w') := inner.getAccount(ctx, a, s.world);
        (AccountAnswer(r), s.(world := w'))
    case AccountsRead(addresses) =>
      if source.Preloaded? then
        var (r, s') := Do(inner, ctx, s, Many(addresses));
        (AccountsAnswer(r), s')
      else
        var (r, w') := inner.getMultipleAccounts(ctx, addresses, s.world);
        (AccountsAnswer(r), s.(world := w'))
    case SupplyRead(mint) =>
      (match provider
       case DefaultProvider =>
         var (r, w') := inner.query(ctx, TokenSupply(mint), s.world);
         (DatumAnswer(r), s.(world := w'))
       case CustomProvider(answer) => (DatumAnswer(answer(mint)), s))
    case QueryRead(q) =>
      var (r, w') := inner.query(ctx, q, s.world);
      (DatumAnswer(r), s.(world := w'))
  }

  predicate Failed(answer: Answer) {
    match answer
    case AccountAnswer(r) => r.Err?
    case AccountsAnswer(r) => r.Err?
    case DatumAnswer(r) => r.Err?
  }

  /** A read the RPC client failed to answer.  What a custom provider answers is its own business. */
  predicate Fault(provider: Provider, read: Read, answer: Answer) {
    !(read.SupplyRead? && provider.CustomProvider?) && Failed(answer)
  }

  function LedgerAnswer(l: Ledger, provider: Provider, read: Read): Answer {
    match read
    case AccountRead(a) => AccountAnswer(Ok(Some(Lookup(l, a))))
    case AccountsRead(addresses) => AccountsAnswer(Ok(LookupAll(l, addresses)))
    case SupplyRead(mint) =>
      DatumAnswer(if provider.CustomProvider? then provider.answer(mint) else Ok(l.answers(TokenSupply(mint))))
    case QueryRead(q) => DatumAnswer(Ok(l.answers(q)))
  }

  const NO_STATS := PreloadStats(0, 0, 0)

  datatype Counter = Singles | Batches | Accounts

  function Count(k: Counter, stats: PreloadStats): int {
    match k
    case Singles => stats.getAccountCalls
    case Batches => stats.getMultipleAccountsCalls
    case Accounts => stats.totalAccountsRequested
  }

  /** A read through a preloaded client is counted when it begins. */
  function Begun(source: Source, read: Read, stats: PreloadStats): PreloadStats {
    if source.Direct? then stats
    else
      match read
      case AccountRead(a) => Counted(stats, One(a))
      case AccountsRead(addresses) => Counted(stats, Many(addresses))
      case _ => stats
  }

  /** What that adds to a counter. */
  function Charge(k: Counter, source: Source, read: Read): int {
    if source.Preloaded? && read.AccountRead? then if k == Batches then 0 else 1
    else if source.Preloaded? && read.AccountsRead? then
      (match k
       case Singles => 0
       case Batches => 1
       case Accounts => |read.addresses|)
    else 0
  }

  lemma BegunCounts(k: Counter, source: Source, read: Read, stats: PreloadStats)
    ensures Count(k, Begun(source, read, stats)) == Count(k, stats) + Charge(k, source, read)
  {
  }

  lemma SameCounts(a: PreloadStats, b: PreloadStats)
    requires forall k :: Count(k, a) == Count(k, b)
    ensures a == b
  {
    assert Count(Singles, a) == Count(Singles, b) && Count(Batches, a) == Count(Batches, b)
        && Count(Accounts, a) == Count(Accounts, b);
  }

  /** Over an exact client and a true cache, an answered read is the ledger's answer, and the cache stays true. */
  lemma ReadIsTrue<W(!new)>(
    inner: Client<W>, l: Ledger, ctx: Context, source: Source, provider: Provider, read: Read, s: State<W>)
    requires Exact(inner, l) && TableAgrees(l, s.cache)
    ensures var (answer, s') := Perform(inner, ctx, source, provider, read, s);
            && TableAgrees(l, s'.cache)
            && s'.stats == Begun(source, read, s.stats)
            && (!Fault(provider, read, answer) ==> answer == LedgerAnswer(l, provider, read))
            && (NeverFails(inner, ctx) ==> !Fault(provider, read, answer))
  {
    ExactIsFaithful(inner, l);
    FaithfulIsWeak(inner, l);
    if source.Preloaded? && (read.AccountRead? || read.AccountsRead?) {
      var addresses := if read.AccountRead? then [read.a] else read.addresses;
      FetchAgrees(inner, l, ctx, s.cache, addresses, s.world);
      if NeverFails(inner, ctx) {
        FetchSucceeds(inner, ctx, s.cache, addresses, s.world);
      }
    }
  }

  // ---- running ----

  /** What a program makes of the ledger, from a history of answers on. */
  function Eval(l: Ledger, provider: Provider, p: Program, h: seq<Answer>): Result<Metrics, Error>
    decreases p.left(h)
  {
    match p.act(h)
    case Finish(outcome) => outcome
    case Ask(read) =>
      var h' := h + [LedgerAnswer(l, provider, read)];
      assert p.left(h') < p.left(h);
      Eval(l, provider, p, h')
  }

  /** What the rest of that run adds to a counter. */
  function Charges(k: Counter, l: Ledger, source: Source, provider: Provider, p: Program, h: seq<Answer>): int
    decreases p.left(h)
  {
    match p.act(h)
    case Finish(_) => 0
    case Ask(read) =>
      var h' := h + [LedgerAnswer(l, provider, read)];
      assert p.left(h') < p.left(h);
      Charge(k, source, read) + Charges(k, l, source, provider, p, h')
  }

  /** A program run to its end by one caller; the flag tells whether every read was answered. */
  function Execute<W>(
    inner: Client<W>, ctx: Context, source: Source, provider: Provider, p: Program, h: seq<Answer>, s: State<W>)
    : (Result<Metrics, Error>, State<W>, bool)
    decreases p.left(h)
  {
    match p.act(h)
    case Finish(outcome) => (outcome, s, true)
    case Ask(read) =>
      var (answer, s1) := Perform(inner, ctx, source, provider, read, s);
      assert p.left(h + [answer]) < p.left(h);
      var (outcome, s2, clean) := Execute(inner, ctx, source, provider, p, h + [answer], s1);
      (outcome, s2, clean && !Fault(provider, read, answer))
  }

  /** Undisturbed, a program computes from any client what it computes from the ledger. */
  lemma {:induction false} ExecuteIsEval<W(!new)>(
    inner: Client<W>, l: Ledger, ctx: Context, source: Source, provider: Provider, p: Program, h: seq<Answer>,
    s: State<W>)
    requires Exact(inner, l) && TableAgrees(l, s.cache)
    ensures var (outcome, s', clean) := Execute(inner, ctx, source, provider, p, h, s);
            && TableAgrees(l, s'.cache)
            && (clean ==> outcome == Eval(l, provider, p, h))
            && (NeverFails(inner, ctx) ==> clean)
    decreases p.left(h)
  {
    match p.act(h)
    case Finish(_) =>
    case Ask(read) =>
      ReadIsTrue(inner, l, ctx, source, provider, read, s);
      var (answer, s1) := Perform(inner, ctx, source, provider, read, s);
      assert p.left(h + [answer]) < p.left(h);
      ExecuteIsEval(inner, l, ctx, source, provider, p, h + [answer], s1);
  }

  /** Undisturbed, it leaves the counters where the reads it makes of the ledger put them. */
  lemma {:induction false} ExecuteCounts<W(!new)>(
    k: Counter, inner: Client<W>, l: Ledger, ctx: Context, source: Source, provider: Provider, p: Program,
    h: seq<Answer>, s: State<W>)
    requires Exact(inner, l) && TableAgrees(l, s.cache) && Execute(inner, ctx, source, provider, p, h, s).2
    ensures Count(k, Execute(inner, ctx, source, provider, p, h, s).1.stats)
            == Count(k, s.stats) + Charges(k, l, source, provider, p, h)
    decreases p.left(h)
  {
    match p.act(h)
    case Finish(_) =>
    case Ask(read) =>
      ReadIsTrue(inner, l, ctx, source, provider, read, s);
      BegunCounts(k, source, read, s.stats);
      var (answer, s1) := Perform(inner, ctx, source, provider, read, s);
      assert p.left(h + [answer]) < p.left(h);
      ExecuteCounts(k, inner, l, ctx, source, provider, p, h + [answer], s1);
  }

  // ---- failed reads ----

  /** A failed answer carries the error of the client itself, or of a custom supply provider. */
  ghost predicate OwnFailure<W(!new)>(
    inner: Client<W>, ctx: Context, provider: Provider, read: Read, answer: Answer)
  {
    match (read, answer)
    case (AccountRead(a), AccountAnswer(r)) => r.Err? ==> ClientSaid(inner, ctx, [a], r.error)
    case (AccountsRead(addresses), AccountsAnswer(r)) => r.Err? ==> ClientSaid(inner, ctx, addresses, r.error)
    case (SupplyRead(mint), DatumAnswer(r)) =>
      if provider.CustomProvider? then r == provider.answer(mint)
      else r.Err? ==> QueryCanFail(inner, ctx, TokenSupply(mint), r.error)
    case (QueryRead(q), DatumAnswer(r)) => r.Err? ==> QueryCanFail(inner, ctx, q, r.error)
    case _ => false
  }

  lemma ReadFails<W(!new)>(
    inner: Client<W>, ctx: Context, source: Source, provider: Provider, read: Read, s: State<W>)
    ensures OwnFailure(inner, ctx, provider, read, Perform(inner, ctx, source, provider, read, s).0)
  {
    match read
    case AccountRead(a) =>
      var (r, _) := inner.getAccount(ctx, a, s.world);
      if source.Direct? && r.Err? {
        assert SingleFails(inner, ctx, a, s.world, r.error);
      } else if source.Preloaded? && Fetch(inner, ctx, s.cache, [a], s.world).reply.Err? {
        FetchFails(inner, ctx, s.cache, [a], s.world);
      }
    case AccountsRead(addresses) =>
      var (r, _) := inner.getMultipleAccounts(ctx, addresses, s.world);
      if source.Direct? && r.Err? {
        assert BatchFails(inner, ctx, addresses, s.world, r.error);
      } else if source.Preloaded? && Fetch(inner, ctx, s.cache, addresses, s.world).reply.Err? {
        FetchFails(inner, ctx, s.cache, addresses, s.world);
      }
    case SupplyRead(mint) =>
      var r := inner.query(ctx, TokenSupply(mint), s.world).0;
      assert r.Err? ==> QueryFails(inner, ctx, TokenSupply(mint), s.world, r.error);
    case QueryRead(q) =>
      var r := inner.query(ctx, q, s.world).0;
      assert r.Err? ==> QueryFails(inner, ctx, q, s.world, r.error);
  }
}
