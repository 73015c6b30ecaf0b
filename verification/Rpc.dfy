/**
 * The rpc.Client interface, the ledger behind it, and what it means for a client to answer from that ledger.
 *
 * A client threads a world W through every call.  The world stands for everything a backend may remember or be
 * disturbed by (its call history, rate limits, outages), so a client may fail whenever it likes.
 */
module Rpc {
  import opened Basics
  import opened Errors

  /** A public key; its base58 String() is injective, so the address itself is the key of the source's maps. */
  datatype Address = Address(id: nat) {
    predicate IsZero() { id == 0 }
  }

  datatype AccountInfo = AccountInfo(
    address: Address, owner: Address, lamports: nat, data: seq<nat>, slot: nat, present: bool)

  function Absent(a: Address): AccountInfo {
    AccountInfo(a, Address(0), 0, [], 0, false)
  }

  /** The calls every wrapper passes through: token supply, signatures, transactions. */
  datatype Query = TokenSupply(mint: Address) | Other(operation: string, request: string)
  type Datum = seq<nat>

  /** chunkSize is the value WithGetMultipleAccountsChunkSize stored; timeouts are the deadlines added on the way. */
  datatype Context = Context(chunkSize: Option<int>, timeouts: seq<int>)

  type Info = Option<AccountInfo>
  type Infos = seq<Option<AccountInfo>>

  datatype Client<!W> = Client(
    getAccount: (Context, Address, W) -> (Result<Info, Error>, W),
    getMultipleAccounts: (Context, seq<Address>, W) -> (Result<Infos, Error>, W),
    query: (Context, Query, W) -> (Result<Datum, Error>, W))

  /** NewNoopClient */
  function NoopClient<W>(): Client<W> {
    Client(
      (ctx: Context, a: Address, w: W) => (Ok(Some(Absent(a))), w),
      (ctx: Context, addresses: seq<Address>, w: W) =>
        (Ok(seq(|addresses|, i requires 0 <= i < |addresses| => Some(Absent(addresses[i])))), w),
      (ctx: Context, q: Query, w: W) => (Ok([]), w))
  }

  // ---- the ledger ----

  datatype Ledger = Ledger(accounts: map<Address, AccountInfo>, answers: Query -> Datum)

  function Lookup(l: Ledger, a: Address): AccountInfo {
    if a in l.accounts then l.accounts[a] else Absent(a)
  }

  function LookupAll(l: Ledger, addresses: seq<Address>): (r: Infos)
    ensures |r| == |addresses|
    ensures forall i | 0 <= i < |r| :: r[i] == Some(Lookup(l, addresses[i]))
  {
    seq(|addresses|, i requires 0 <= i < |addresses| => Some(Lookup(l, addresses[i])))
  }

  /** A nil entry reads as "no such account". */
  predicate Agrees(l: Ledger, a: Address, info: Info) {
    Lookup(l, a) == if info.Some? then info.value else Absent(a)
  }

  /** An entry of a weak batch: it can only be trusted when it reports an existing account. */
  predicate WeaklyAgrees(l: Ledger, a: Address, info: Info) {
    info.Some? && info.value.present ==> info.value == Lookup(l, a)
  }

  /** Entry i of a batch reply; a reply shorter than the request reads as nil there. */
  function Entry(infos: Infos, i: nat): Info {
    if i < |infos| then infos[i] else None
  }

  // ---- what a client promises; every promise is about successful answers only ----

  ghost predicate SinglesAgree<W(!new)>(c: Client<W>, l: Ledger) {
    forall ctx: Context, a: Address, w: W ::
      var r := c.getAccount(ctx, a, w).0;
      r.Ok? ==> Agrees(l, a, r.value)
  }

  ghost predicate QueriesAgree<W(!new)>(c: Client<W>, l: Ledger) {
    forall ctx: Context, q: Query, w: W ::
      var r := c.query(ctx, q, w).0;
      r.Ok? ==> r.value == l.answers(q)
  }

  ghost predicate BatchesWeak<W(!new)>(c: Client<W>, l: Ledger) {
    forall ctx: Context, addresses: seq<Address>, w: W ::
      var r := c.getMultipleAccounts(ctx, addresses, w).0;
      r.Ok? ==> forall i | 0 <= i < |addresses| :: WeaklyAgrees(l, addresses[i], Entry(r.value, i))
  }

  ghost predicate BatchesAgree<W(!new)>(c: Client<W>, l: Ledger) {
    forall ctx: Context, addresses: seq<Address>, w: W ::
      var r := c.getMultipleAccounts(ctx, addresses, w).0;
      r.Ok? ==> forall i | 0 <= i < |addresses| :: Agrees(l, addresses[i], Entry(r.value, i))
  }

  /** Batch replies are never longer than the request. */
  ghost predicate NeverLong<W(!new)>(c: Client<W>) {
    forall ctx: Context, addresses: seq<Address>, w: W ::
      var r := c.getMultipleAccounts(ctx, addresses, w).0;
      r.Ok? ==> |r.value| <= |addresses|
  }

  /** Answers can be trusted up to missing, nil or falsely absent batch entries. */
  ghost predicate Weak<W(!new)>(c: Client<W>, l: Ledger) {
    SinglesAgree(c, l) && QueriesAgree(c, l) && BatchesWeak(c, l) && NeverLong(c)
  }

  /** Answers agree with the ledger, nil entries and short replies standing for absent accounts. */
  ghost predicate Faithful<W(!new)>(c: Client<W>, l: Ledger) {
    SinglesAgree(c, l) && QueriesAgree(c, l) && BatchesAgree(c, l) && NeverLong(c)
  }

  /** Faithful, and every answer is a non-nil record. */
  ghost predicate Exact<W(!new)>(c: Client<W>, l: Ledger) {
    && (forall ctx: Context, a: Address, w: W ::
          var r := c.getAccount(ctx, a, w).0;
          r.Ok? ==> r.value == Some(Lookup(l, a)))
    && (forall ctx: Context, addresses: seq<Address>, w: W ::
          var r := c.getMultipleAccounts(ctx, addresses, w).0;
          r.Ok? ==> r.value == LookupAll(l, addresses))
    && QueriesAgree(c, l)
  }

  /** Single lookups never answer nil: an absent account is a record that says so. */
  ghost predicate SinglesComplete<W(!new)>(c: Client<W>) {
    forall ctx: Context, a: Address, w: W ::
      var r := c.getAccount(ctx, a, w).0;
      r.Ok? ==> r.value.Some?
  }

  /** In this context, no call ever fails. */
  ghost predicate NeverFails<W(!new)>(c: Client<W>, ctx: Context) {
    && (forall a: Address, w: W :: c.getAccount(ctx, a, w).0.Ok?)
    && (forall addresses: seq<Address>, w: W :: c.getMultipleAccounts(ctx, addresses, w).0.Ok?)
    && (forall q: Query, w: W :: c.query(ctx, q, w).0.Ok?)
  }

  predicate BatchFails<W>(inner: Client<W>, ctx: Context, addresses: seq<Address>, w: W, e: Error) {
    inner.getMultipleAccounts(ctx, addresses, w).0 == Err(e)
  }

  ghost predicate BatchCanFail<W(!new)>(inner: Client<W>, ctx: Context, addresses: seq<Address>, e: Error) {
    exists w: W :: BatchFails(inner, ctx, addresses, w, e)
  }

  predicate SingleFails<W>(inner: Client<W>, ctx: Context, a: Address, w: W, e: Error) {
    inner.getAccount(ctx, a, w).0 == Err(e)
  }

  predicate QueryFails<W>(inner: Client<W>, ctx: Context, q: Query, w: W, e: Error) {
    inner.query(ctx, q, w).0 == Err(e)
  }

  ghost predicate QueryCanFail<W(!new)>(inner: Client<W>, ctx: Context, q: Query, e: Error) {
    exists w: W :: QueryFails(inner, ctx, q, w, e)
  }

  lemma ExactIsFaithful<W(!new)>(c: Client<W>, l: Ledger)
    requires Exact(c, l)
    ensures Faithful(c, l)
  {
    forall ctx: Context, addresses: seq<Address>, w: W | c.getMultipleAccounts(ctx, addresses, w).0.Ok?
      ensures c.getMultipleAccounts(ctx, addresses, w).0.value == LookupAll(l, addresses)
    {
    }
  }

  lemma FaithfulIsWeak<W(!new)>(c: Client<W>, l: Ledger)
    requires Faithful(c, l)
    ensures Weak(c, l)
  {
    forall ctx: Context, addresses: seq<Address>, w: W | c.getMultipleAccounts(ctx, addresses, w).0.Ok?
      ensures forall i | 0 <= i < |addresses| ::
                WeaklyAgrees(l, addresses[i], Entry(c.getMultipleAccounts(ctx, addresses, w).0.value, i))
    {
      var r := c.getMultipleAccounts(ctx, addresses, w).0;
      forall i | 0 <= i < |addresses|
        ensures WeaklyAgrees(l, addresses[i], Entry(r.value, i))
      {
        assert Agrees(l, addresses[i], Entry(r.value, i));
      }
    }
  }

  /** The no-op client answers everything, as if from an empty ledger. */
  lemma NoopIsExact<W(!new)>(ctx: Context)
    ensures Exact(NoopClient<W>(), Ledger(map[], _ => [])) && NeverFails(NoopClient<W>(), ctx)
    ensures forall a: Address, w: W :: NoopClient<W>().getAccount(ctx, a, w).1 == w
  {
    var c, l := NoopClient<W>(), Ledger(map[], _ => []);
    forall ctx: Context, addresses: seq<Address>, w: W
      ensures c.getMultipleAccounts(ctx, addresses, w).0 == Ok(LookupAll(l, addresses))
    {
      assert c.getMultipleAccounts(ctx, addresses, w).0.value == LookupAll(l, addresses);
    }
  }
}
