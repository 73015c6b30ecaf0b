/** sdk/rpc/preload_client.go: a request-scoped cache that repairs batch replies by single lookups. */
module Preload {
  import opened Basics
  import opened Errors
  import opened Rpc
  import opened Batching

  datatype PreloadStats = PreloadStats(getAccountCalls: nat, getMultipleAccountsCalls: nat, totalAccountsRequested: nat)

  type Cache = map<Address, AccountInfo>

  datatype Fetched<W> = Fetched(reply: Result<Infos, Error>, cache: Cache, world: W)

  /** The batch reply as the repair loop sees it: at least n entries, nil where the reply was short. */
  function Pad(infos: Infos, n: nat): (r: Infos)
    ensures |r| >= n && forall i: nat | i < |r| :: r[i] == Entry(infos, i)
  {
    if |infos| < n then infos + seq(n - |infos|, _ => None) else infos
  }

  /** From entry i on, everything the batch did not report as existing is looked up on its own. */
  function Repair<W>(inner: Client<W>, ctx: Context, missing: seq<Address>, infos: Infos, i: nat, w: W)
    : (r: (Result<Infos, Error>, W))
    requires |infos| >= |missing|
    ensures r.0.Ok? ==> |r.0.value| == |infos|
    decreases |missing| - i
  {
    if i >= |missing| then (Ok(infos), w)
    else if infos[i].Some? && infos[i].value.present then Repair(inner, ctx, missing, infos, i + 1, w)
    else
      var (single, w1) := inner.getAccount(ctx, missing[i], w);
      if single.Err? then (Err(single.error), w1)
      else Repair(inner, ctx, missing, infos[i := single.value], i + 1, w1)
  }

  function ReadAll(cache: Cache, addresses: seq<Address>): (r: Infos)
    ensures |r| == |addresses|
  {
    seq(|addresses|, i requires 0 <= i < |addresses| =>
          if addresses[i] in cache then Some(cache[addresses[i]]) else None)
  }

  /** fetchMissingAccounts */
  function Fetch<W>(inner: Client<W>, ctx: Context, cache: Cache, addresses: seq<Address>, w: W): (f: Fetched<W>)
    ensures f.reply.Ok? ==> |f.reply.value| == |addresses|
  {
    var missing := Fresh(addresses, cache.Keys);
    if missing == [] then Fetched(Ok(ReadAll(cache, addresses)), cache, w)
    else
      var (batch, w1) := inner.getMultipleAccounts(ctx, missing, w);
      if batch.Err? then Fetched(Err(batch.error), cache, w1)
      else
        var (full, w2) := Repair(inner, ctx, missing, Pad(batch.value, |missing|), 0, w1);
        if full.Err? then Fetched(Err(full.error), cache, w2)
        else
          var cache' := Gather(cache, missing, full.value[..|missing|]);
          Fetched(Ok(ReadAll(cache', addresses)), cache', w2)
  }

  // ---- what callers do, one call at a time ----

  datatype Op = Prime(addresses: seq<Address>) | One(address: Address) | Many(addresses: seq<Address>)

  function Requested(op: Op): seq<Address> {
    match op
    case Prime(addresses) => addresses
    case One(a) => [a]
    case Many(addresses) => addresses
  }

  function Counted(stats: PreloadStats, op: Op): PreloadStats {
    match op
    case Prime(_) => stats
    case One(_) => stats.(getAccountCalls := stats.getAccountCalls + 1,
                          totalAccountsRequested := stats.totalAccountsRequested + 1)
    case Many(addresses) => stats.(getMultipleAccountsCalls := stats.getMultipleAccountsCalls + 1,
                                   totalAccountsRequested := stats.totalAccountsRequested + |addresses|)
  }

  datatype State<W> = State(cache: Cache, stats: PreloadStats, world: W)

  function Do<W>(inner: Client<W>, ctx: Context, s: State<W>, op: Op): (r: (Result<Infos, Error>, State<W>))
    ensures r.0.Ok? ==> |r.0.value| == |Requested(op)|
  {
    var f := Fetch(inner, ctx, s.cache, Requested(op), s.world);
    (f.reply, State(f.cache, Counted(s.stats, op), f.world))
  }

  // ---- the client ----

  class PreloadedClient<W(!new)> {
    const inner: Client<W>
    var cache: Cache
    var stats: PreloadStats

    /** NewPreloadedClient: without an inner client, the no-op client. */
    constructor (client: Option<Client<W>>)
      ensures inner == if client.Some? then client.value else NoopClient()
      ensures cache == map[] && stats == PreloadStats(0, 0, 0)
    {
      inner := if client.Some? then client.value else NoopClient();
      cache := map[];
      stats := PreloadStats(0, 0, 0);
    }

    function Snapshot(w: W): State<W>
      reads this
    {
      State(cache, stats, w)
    }

    function GetCached(a: Address): Info
      reads this
    {
      if a in cache then Some(cache[a]) else None
    }

    method FetchMissingAccounts(ctx: Context, addresses: seq<Address>, w: W)
      returns (reply: Result<Infos, Error>, world: W)
      modifies this`cache
      ensures Fetched(reply, cache, world) == Fetch(inner, ctx, old(cache), addresses, w)
    {
      world := w;
      if |addresses| == 0 {
        return Ok([]), world;
      }

      var missingUnique: seq<Address> := [];
      var missingSeen: set<Address> := {};
      for k := 0 to |addresses|
        invariant cache == old(cache)
        invariant missingUnique == Fresh(addresses[..k], cache.Keys)
        invariant forall a :: a in missingSeen <==> a in addresses[..k] && a !in cache
      {
        FreshAppend(addresses[..k], addresses[k], cache.Keys);
        assert addresses[..k + 1] == addresses[..k] + [addresses[k]];
        if GetCached(addresses[k]).None? && addresses[k] !in missingSeen {
          missingSeen := missingSeen + {addresses[k]};
          missingUnique := missingUnique + [addresses[k]];
        }
      }
      assert addresses[..|addresses|] == addresses;

      if |missingUnique| > 0 {
        var (batch, w1) := inner.getMultipleAccounts(ctx, missingUnique, world);
        world := w1;
        if batch.Err? {
          return Err(batch.error), world;
        }
        var infos := Pad(batch.value, |missingUnique|);
        ghost var padded := infos;
        for i := 0 to |missingUnique|
          invariant cache == old(cache) && |infos| == |padded|
          invariant Repair(inner, ctx, missingUnique, padded, 0, w1)
                 == Repair(inner, ctx, missingUnique, infos, i, world)
        {
          if infos[i].None? || !infos[i].value.present {
            var (single, w2) := inner.getAccount(ctx, missingUnique[i], world);
            world := w2;
            if single.Err? {
              return Err(single.error), world;
            }
            infos := infos[i := single.value];
          }
        }
        assert infos[..0] == [];
        for i := 0 to |missingUnique|
          modifies this`cache
          invariant cache == Gather(old(cache), missingUnique, infos[..i])
        {
          assert infos[..i + 1][..i] == infos[..i];
          cache := cache[missingUnique[i] := if infos[i].Some? then infos[i].value else Absent(missingUnique[i])];
        }
      }

      var out: Infos := [];
      for i := 0 to |addresses|
        invariant |out| == i && forall k | 0 <= k < i :: out[k] == ReadAll(cache, addresses)[k]
      {
        out := out + [GetCached(addresses[i])];
      }
      assert out == ReadAll(cache, addresses);
      return Ok(out), world;
    }

    method PrimeAccounts(ctx: Context, addresses: seq<Address>, w: W) returns (error: Option<Error>, world: W)
      modifies this`cache
      ensures var (reply, s) := Do(inner, ctx, old(Snapshot(w)), Prime(addresses));
              Snapshot(world) == s && error == if reply.Err? then Some(reply.error) else None
    {
      var reply;
      reply, world := FetchMissingAccounts(ctx, addresses, w);
      error := if reply.Err? then Some(reply.error) else None;
    }

    method GetAccount(ctx: Context, address: Address, w: W) returns (reply: Result<Info, Error>, world: W)
      modifies this
      ensures var (infos, s) := Do(inner, ctx, old(Snapshot(w)), One(address));
              Snapshot(world) == s
              && reply == if infos.Err? then Err(infos.error) else Ok(infos.value[0])
    {
      stats := Counted(stats, One(address));
      var cached := GetCached(address);
      if cached.Some? {
        FetchCached(inner, ctx, cache, [address], w);
        return Ok(cached), w;
      }
      var infos;
      infos, world := FetchMissingAccounts(ctx, [address], w);
      reply := if infos.Err? then Err(infos.error) else Ok(infos.value[0]);
    }

    method GetMultipleAccounts(ctx: Context, addresses: seq<Address>, w: W)
      returns (reply: Result<Infos, Error>, world: W)
      modifies this
      ensures (reply, Snapshot(world)) == Do(inner, ctx, old(Snapshot(w)), Many(addresses))
    {
      stats := Counted(stats, Many(addresses));
      reply, world := FetchMissingAccounts(ctx, addresses, w);
    }
  }

  // ---- any inner client: all or nothing, and no nil entry ----

  lemma {:induction false} GatherKeys(cache: Cache, missing: seq<Address>, infos: Infos)
    requires |infos| <= |missing|
    ensures forall a :: a in Gather(cache, missing, infos) <==> a in cache || a in missing[..|infos|]
    ensures forall a :: a in cache && a !in missing ==> Gather(cache, missing, infos)[a] == cache[a]
    decreases |infos|
  {
    if infos != [] {
      var n := |infos| - 1;
      GatherKeys(cache, missing, infos[..n]);
      assert missing[..n + 1] == missing[..n] + [missing[n]];
    }
  }

  /** On an error nothing is cached; on success exactly the requested addresses are added and nothing cached changes. */
  lemma FetchAllOrNothing<W>(inner: Client<W>, ctx: Context, cache: Cache, addresses: seq<Address>, w: W)
    ensures var f := Fetch(inner, ctx, cache, addresses, w);
            && (f.reply.Err? ==> f.cache == cache)
            && (f.reply.Ok? ==>
                  && (forall a :: a in f.cache <==> a in cache || a in addresses)
                  && (forall a :: a in cache ==> f.cache[a] == cache[a])
                  && |f.reply.value| == |addresses|
                  && (forall i | 0 <= i < |addresses| :: f.reply.value[i] == Some(f.cache[addresses[i]])))
  {
    var missing := Fresh(addresses, cache.Keys);
    FreshMembers(addresses, cache.Keys);
    var f := Fetch(inner, ctx, cache, addresses, w);
    if missing == [] {
      forall i | 0 <= i < |addresses|
        ensures addresses[i] in cache
      {
        assert addresses[i] !in missing;
      }
    } else {
      var (batch, w1) := inner.getMultipleAccounts(ctx, missing, w);
      if batch.Ok? {
        var (full, w2) := Repair(inner, ctx, missing, Pad(batch.value, |missing|), 0, w1);
        if full.Ok? {
          GatherKeys(cache, missing, full.value[..|missing|]);
          assert missing[..|missing|] == missing;
        }
      }
    }
  }

  /** When everything asked for is cached, the inner client is left alone. */
  lemma FetchCached<W>(inner: Client<W>, ctx: Context, cache: Cache, addresses: seq<Address>, w: W)
    requires forall a :: a in addresses ==> a in cache
    ensures Fetch(inner, ctx, cache, addresses, w) == Fetched(Ok(ReadAll(cache, addresses)), cache, w)
  {
    NothingFresh(addresses, cache.Keys);
  }

  // ---- what it fails with, and what it asks for ----

  /** The client itself failed with this error, in a batch of some of these addresses or on one of them. */
  ghost predicate ClientSaid<W(!new)>(inner: Client<W>, ctx: Context, among: seq<Address>, e: Error) {
    || (exists asked: seq<Address>, w: W ::
          (forall a :: a in asked ==> a in among) && BatchFails(inner, ctx, asked, w, e))
    || (exists a: Address, w: W :: a in among && SingleFails(inner, ctx, a, w, e))
  }

  lemma {:induction false} RepairFails<W(!new)>(
    inner: Client<W>, ctx: Context, missing: seq<Address>, infos: Infos, i: nat, w: W)
    requires |infos| >= |missing| && Repair(inner, ctx, missing, infos, i, w).0.Err?
    ensures exists a: Address, w': W ::
              a in missing && SingleFails(inner, ctx, a, w', Repair(inner, ctx, missing, infos, i, w).0.error)
    decreases |missing| - i
  {
    if infos[i].Some? && infos[i].value.present {
      RepairFails(inner, ctx, missing, infos, i + 1, w);
    } else {
      var (single, w1) := inner.getAccount(ctx, missing[i], w);
      if single.Err? {
        assert SingleFails(inner, ctx, missing[i], w, single.error);
      } else {
        RepairFails(inner, ctx, missing, infos[i := single.value], i + 1, w1);
      }
    }
  }

  /** A failed fetch hands on the inner client's own error: that of the one batch, or of a lookup repairing it. */
  lemma FetchFails<W(!new)>(inner: Client<W>, ctx: Context, cache: Cache, addresses: seq<Address>, w: W)
    requires Fetch(inner, ctx, cache, addresses, w).reply.Err?
    ensures var e := Fetch(inner, ctx, cache, addresses, w).reply.error;
            var missing := Fresh(addresses, cache.Keys);
            || BatchFails(inner, ctx, missing, w, e)
            || exists a: Address, w': W :: a in addresses && a !in cache && SingleFails(inner, ctx, a, w', e)
    ensures ClientSaid(inner, ctx, addresses, Fetch(inner, ctx, cache, addresses, w).reply.error)
  {
    var missing := Fresh(addresses, cache.Keys);
    FreshMembers(addresses, cache.Keys);
    var (batch, w1) := inner.getMultipleAccounts(ctx, missing, w);
    if batch.Ok? {
      RepairFails(inner, ctx, missing, Pad(batch.value, |missing|), 0, w1);
      var e := Fetch(inner, ctx, cache, addresses, w).reply.error;
      var a: Address, w': W :| a in missing && SingleFails(inner, ctx, a, w', e);
      assert a in addresses && a !in cache;
    }
  }

  lemma {:induction false} NothingToRepair<W>(
    inner: Client<W>, ctx: Context, missing: seq<Address>, infos: Infos, i: nat, w: W)
    requires |infos| >= |missing| && forall k | 0 <= k < |missing| :: infos[k].Some? && infos[k].value.present
    ensures Repair(inner, ctx, missing, infos, i, w) == (Ok(infos), w)
    decreases |missing| - i
  {
    if i < |missing| {
      NothingToRepair(inner, ctx, missing, infos, i + 1, w);
    }
  }

  /** Where the batch reports every account as existing, there is no other call, and its entries are what is cached. */
  lemma CompleteBatchSuffices<W>(inner: Client<W>, ctx: Context, cache: Cache, addresses: seq<Address>, w: W)
    requires var missing := Fresh(addresses, cache.Keys);
             var batch := inner.getMultipleAccounts(ctx, missing, w).0;
             && missing != [] && batch.Ok? && |batch.value| == |missing|
             && forall k | 0 <= k < |missing| :: batch.value[k].Some? && batch.value[k].value.present
    ensures var missing := Fresh(addresses, cache.Keys);
            var (batch, w1) := inner.getMultipleAccounts(ctx, missing, w);
            var f := Fetch(inner, ctx, cache, addresses, w);
            && f.reply.Ok? && f.world == w1
            && forall k | 0 <= k < |missing| :: missing[k] in f.cache && f.cache[missing[k]] == batch.value[k].value
  {
    var missing := Fresh(addresses, cache.Keys);
    var (batch, w1) := inner.getMultipleAccounts(ctx, missing, w);
    NothingToRepair(inner, ctx, missing, Pad(batch.value, |missing|), 0, w1);
    assert Pad(batch.value, |missing|) == batch.value;
    assert batch.value[..|missing|] == batch.value;
    FreshMembers(addresses, cache.Keys);
    GatheredEntries(cache, missing, batch.value);
  }

  lemma {:induction false} GatheredEntries(cache: Cache, missing: seq<Address>, infos: Infos)
    requires |infos| <= |missing| && Distinct(missing) && forall k | 0 <= k < |infos| :: infos[k].Some?
    ensures forall k | 0 <= k < |infos| ::
              missing[k] in Gather(cache, missing, infos) && Gather(cache, missing, infos)[missing[k]] == infos[k].value
    decreases |infos|
  {
    if infos != [] {
      var n := |infos| - 1;
      GatheredEntries(cache, missing, infos[..n]);
      forall k | 0 <= k < |infos|
        ensures missing[k] in Gather(cache, missing, infos)
        ensures Gather(cache, missing, infos)[missing[k]] == infos[k].value
      {
        if k < n {
          assert infos[..n][k] == infos[k] && missing[k] != missing[n];
        }
      }
    }
  }

  /** What each call adds to the three counters; priming adds nothing. */
  lemma CallsCounted<W>(inner: Client<W>, ctx: Context, s: State<W>, a: Address, addresses: seq<Address>)
    ensures var PreloadStats(singles, batches, accounts) := s.stats;
            && Do(inner, ctx, s, Prime(addresses)).1.stats == s.stats
            && Do(inner, ctx, s, One(a)).1.stats == PreloadStats(singles + 1, batches, accounts + 1)
            && Do(inner, ctx, s, Many(addresses)).1.stats
               == PreloadStats(singles, batches + 1, accounts + |addresses|)
  {
  }

  // ---- a weak inner client: every answer is the ledger's ----

  lemma {:induction false} RepairAgrees<W(!new)>(
    inner: Client<W>, l: Ledger, ctx: Context, missing: seq<Address>, infos: Infos, i: nat, w: W)
    requires SinglesAgree(inner, l) && i <= |missing| <= |infos|
    requires forall k | 0 <= k < i :: Agrees(l, missing[k], infos[k])
    requires forall k | i <= k < |missing| :: WeaklyAgrees(l, missing[k], infos[k])
    ensures var full := Repair(inner, ctx, missing, infos, i, w).0;
            full.Ok? ==> forall k | 0 <= k < |missing| :: Agrees(l, missing[k], full.value[k])
    decreases |missing| - i
  {
    if i < |missing| {
      if infos[i].Some? && infos[i].value.present {
        assert WeaklyAgrees(l, missing[i], infos[i]);
        RepairAgrees(inner, l, ctx, missing, infos, i + 1, w);
      } else {
        var (single, w1) := inner.getAccount(ctx, missing[i], w);
        if single.Ok? {
          assert Agrees(l, missing[i], single.value);
          RepairAgrees(inner, l, ctx, missing, infos[i := single.value], i + 1, w1);
        }
      }
    }
  }

  /**
   * Batches may be short, nil or falsely absent: as long as single lookups agree with the ledger, so does every
   * answer, and so does the cache.
   */
  lemma FetchAgrees<W(!new)>(inner: Client<W>, l: Ledger, ctx: Context, cache: Cache, addresses: seq<Address>, w: W)
    requires SinglesAgree(inner, l) && BatchesWeak(inner, l) && TableAgrees(l, cache)
    ensures var f := Fetch(inner, ctx, cache, addresses, w);
            TableAgrees(l, f.cache) && (f.reply.Ok? ==> f.reply.value == LookupAll(l, addresses))
  {
    var missing := Fresh(addresses, cache.Keys);
    var f := Fetch(inner, ctx, cache, addresses, w);
    FetchAllOrNothing(inner, ctx, cache, addresses, w);
    if missing != [] {
      var (batch, w1) := inner.getMultipleAccounts(ctx, missing, w);
      if batch.Ok? {
        var padded := Pad(batch.value, |missing|);
        forall k | 0 <= k < |missing|
          ensures WeaklyAgrees(l, missing[k], padded[k])
        {
          assert WeaklyAgrees(l, missing[k], Entry(batch.value, k));
        }
        RepairAgrees(inner, l, ctx, missing, padded, 0, w1);
        var (full, w2) := Repair(inner, ctx, missing, padded, 0, w1);
        if full.Ok? {
          GatherAgrees(l, cache, missing, full.value[..|missing|]);
        }
      }
    }
  }

  lemma {:induction false} RepairSucceeds<W(!new)>(
    inner: Client<W>, ctx: Context, missing: seq<Address>, infos: Infos, i: nat, w: W)
    requires NeverFails(inner, ctx) && |infos| >= |missing|
    ensures Repair(inner, ctx, missing, infos, i, w).0.Ok?
    decreases |missing| - i
  {
    if i < |missing| {
      if infos[i].Some? && infos[i].value.present {
        RepairSucceeds(inner, ctx, missing, infos, i + 1, w);
      } else {
        var (single, w1) := inner.getAccount(ctx, missing[i], w);
        RepairSucceeds(inner, ctx, missing, infos[i := single.value], i + 1, w1);
      }
    }
  }

  lemma FetchSucceeds<W(!new)>(inner: Client<W>, ctx: Context, cache: Cache, addresses: seq<Address>, w: W)
    requires NeverFails(inner, ctx)
    ensures Fetch(inner, ctx, cache, addresses, w).reply.Ok?
  {
    var missing := Fresh(addresses, cache.Keys);
    if missing != [] {
      var (batch, w1) := inner.getMultipleAccounts(ctx, missing, w);
      RepairSucceeds(inner, ctx, missing, Pad(batch.value, |missing|), 0, w1);
    }
  }

  // ---- whole runs ----

  function Run<W>(inner: Client<W>, ctx: Context, s: State<W>, ops: seq<Op>): State<W>
    decreases |ops|
  {
    if ops == [] then s else Run(inner, ctx, Do(inner, ctx, s, ops[0]).1, ops[1..])
  }

  /** The addresses that successful fetches of a run asked the inner client for, in order. */
  function Asked<W>(inner: Client<W>, ctx: Context, s: State<W>, ops: seq<Op>): seq<Address>
    decreases |ops|
  {
    if ops == [] then []
    else
      var (reply, s') := Do(inner, ctx, s, ops[0]);
      (if reply.Ok? then Fresh(Requested(ops[0]), s.cache.Keys) else []) + Asked(inner, ctx, s', ops[1..])
  }

  /** Over a whole run, no address is asked for again once a fetch of it succeeded. */
  lemma {:induction false} AskedOnce<W>(inner: Client<W>, ctx: Context, s: State<W>, ops: seq<Op>)
    ensures Distinct(Asked(inner, ctx, s, ops))
    ensures forall a :: a in Asked(inner, ctx, s, ops) ==> a !in s.cache
    decreases |ops|
  {
    if ops != [] {
      var addresses := Requested(ops[0]);
      var (reply, s') := Do(inner, ctx, s, ops[0]);
      FetchAllOrNothing(inner, ctx, s.cache, addresses, s.world);
      FreshMembers(addresses, s.cache.Keys);
      AskedOnce(inner, ctx, s', ops[1..]);
      var now := if reply.Ok? then Fresh(addresses, s.cache.Keys) else [];
      var later := Asked(inner, ctx, s', ops[1..]);
      forall i, j | 0 <= i < j < |now + later|
        ensures (now + later)[i] != (now + later)[j]
      {
        if i < |now| <= j {
          assert now[i] in now && later[j - |now|] in later;
        }
      }
    }
  }

  /** An operation whose inner batch call succeeds, whatever the repair then meets. */
  predicate BatchAnswered<W>(inner: Client<W>, ctx: Context, s: State<W>, op: Op) {
    var missing := Fresh(Requested(op), s.cache.Keys);
    missing != [] && inner.getMultipleAccounts(ctx, missing, s.world).0.Ok?
  }

  /** The addresses of a run's successful inner batch calls, in order. */
  function Batched<W>(inner: Client<W>, ctx: Context, s: State<W>, ops: seq<Op>): seq<Address>
    decreases |ops|
  {
    if ops == [] then []
    else
      (if BatchAnswered(inner, ctx, s, ops[0]) then Fresh(Requested(ops[0]), s.cache.Keys) else [])
      + Batched(inner, ctx, Do(inner, ctx, s, ops[0]).1, ops[1..])
  }

  /** What a run's successful batches ask for was not cached when the run began. */
  lemma {:induction false} BatchedUncached<W>(inner: Client<W>, ctx: Context, s: State<W>, ops: seq<Op>)
    ensures forall a :: a in Batched(inner, ctx, s, ops) ==> a !in s.cache
    decreases |ops|
  {
    if ops != [] {
      FetchAllOrNothing(inner, ctx, s.cache, Requested(ops[0]), s.world);
      FreshMembers(Requested(ops[0]), s.cache.Keys);
      BatchedUncached(inner, ctx, Do(inner, ctx, s, ops[0]).1, ops[1..]);
    }
  }

  /** Wherever a batch was answered and its repair then failed, no later successful batch needs any of its addresses. */
  ghost predicate LossesNotRefetched<W>(inner: Client<W>, ctx: Context, s: State<W>, ops: seq<Op>)
    decreases |ops|
  {
    ops == [] ||
    var (reply, s') := Do(inner, ctx, s, ops[0]);
    && (BatchAnswered(inner, ctx, s, ops[0]) && reply.Err? ==>
          forall a :: a in Requested(ops[0]) && a !in s.cache ==> a !in Batched(inner, ctx, s', ops[1..]))
    && LossesNotRefetched(inner, ctx, s', ops[1..])
  }

  /**
   * Over a whole run, each address is in at most one successful inner batch exactly when what a failed repair threw
   * away is not successfully fetched again.
   */
  lemma {:induction false} BatchedOnceExactly<W>(inner: Client<W>, ctx: Context, s: State<W>, ops: seq<Op>)
    ensures Distinct(Batched(inner, ctx, s, ops)) <==> LossesNotRefetched(inner, ctx, s, ops)
    decreases |ops|
  {
    if ops != [] {
      var (reply, s') := Do(inner, ctx, s, ops[0]);
      var now, later := Fresh(Requested(ops[0]), s.cache.Keys), Batched(inner, ctx, s', ops[1..]);
      FetchAllOrNothing(inner, ctx, s.cache, Requested(ops[0]), s.world);
      FreshMembers(Requested(ops[0]), s.cache.Keys);
      BatchedUncached(inner, ctx, s', ops[1..]);
      BatchedOnceExactly(inner, ctx, s', ops[1..]);
      if BatchAnswered(inner, ctx, s, ops[0]) {
        DistinctConcat(now, later);
        assert forall a :: a in now <==> a in Requested(ops[0]) && a !in s.cache;
        assert Batched(inner, ctx, s, ops) == now + later;
        if reply.Ok? {
          forall a | a in now
            ensures a !in later
          {
            assert a in s'.cache;
          }
        }
      } else {
        assert Batched(inner, ctx, s, ops) == later;
      }
    }
  }

  /** No repair of the run fails after its batch call succeeded. */
  predicate RepairsSucceed<W>(inner: Client<W>, ctx: Context, s: State<W>, ops: seq<Op>)
    decreases |ops|
  {
    ops == [] ||
    ((BatchAnswered(inner, ctx, s, ops[0]) ==> Do(inner, ctx, s, ops[0]).0.Ok?)
     && RepairsSucceed(inner, ctx, Do(inner, ctx, s, ops[0]).1, ops[1..]))
  }

  /** While repairs succeed, each address is in at most one successful inner batch of the run. */
  lemma {:induction false} BatchedOnce<W>(inner: Client<W>, ctx: Context, s: State<W>, ops: seq<Op>)
    requires RepairsSucceed(inner, ctx, s, ops)
    ensures Batched(inner, ctx, s, ops) == Asked(inner, ctx, s, ops) && Distinct(Batched(inner, ctx, s, ops))
    decreases |ops|
  {
    AskedOnce(inner, ctx, s, ops);
    if ops != [] {
      BatchedOnce(inner, ctx, Do(inner, ctx, s, ops[0]).1, ops[1..]);
    }
  }

  lemma DistinctConcat<T>(a: seq<T>, b: seq<T>)
    ensures Distinct(a + b) <==> Distinct(a) && Distinct(b) && forall x :: x in a ==> x !in b
  {
    var all := a + b;
    if Distinct(all) {
      assert forall i | 0 <= i < |a| :: all[i] == a[i];
      assert forall j | 0 <= j < |b| :: all[|a| + j] == b[j];
    }
    if Distinct(a) && Distinct(b) && forall x :: x in a ==> x !in b {
      forall i, j | 0 <= i < j < |all|
        ensures all[i] != all[j]
      {
        if i < |a| <= j {
          assert a[i] in a && b[j - |a|] in b;
        }
      }
    }
  }

  /** It happens: the batch reports an account as missing and the single lookup that should settle it fails. */
  lemma FailedRepairRefetches(ctx: Context, a: Address, e: Error) returns (inner: Client<nat>, s: State<nat>)
    ensures !Distinct(Batched(inner, ctx, s, [Many([a]), Many([a])]))
  {
    inner := Client(
      (ctx: Context, a: Address, w: nat) => (Err(e), w),
      (ctx: Context, addresses: seq<Address>, w: nat) => (Ok([]), w),
      (ctx: Context, q: Query, w: nat) => (Err(e), w));
    s := State(map[], PreloadStats(0, 0, 0), 0);
    var op := Many([a]);
    assert Fresh([a], {}) == [a] by {
      assert [a][1..] == [];
    }
    assert [op, op][1..] == [op] && [op][1..] == [];
    assert inner.getMultipleAccounts(ctx, [a], 0) == (Ok([]), 0);
    assert Repair(inner, ctx, [a], Pad([], 1), 0, 0).0.Err?;
    assert Do(inner, ctx, s, op).1.cache == s.cache && Do(inner, ctx, s, op).1.world == 0;
    var ops, s' := [op, op], Do(inner, ctx, s, op).1;
    assert BatchAnswered(inner, ctx, s, op) && BatchAnswered(inner, ctx, s', op);
    assert Batched(inner, ctx, s', [op]) == [a] + Batched(inner, ctx, Do(inner, ctx, s', op).1, []);
    assert ops[0] == op && ops[1..] == [op];
    var twice := Batched(inner, ctx, s, ops);
    assert twice == [a] + Batched(inner, ctx, s', ops[1..]);
    assert twice[0] == twice[1];
  }

  lemma {:induction false} RepairKeepsLog<W>(
    inner: Client<W>, ctx: Context, missing: seq<Address>, infos: Infos, i: nat, s: (W, seq<seq<Address>>))
    requires |infos| >= |missing|
    ensures Repair(Logged(inner), ctx, missing, infos, i, s).1.1 == s.1
    decreases |missing| - i
  {
    if i < |missing| {
      if infos[i].Some? && infos[i].value.present {
        RepairKeepsLog(inner, ctx, missing, infos, i + 1, s);
      } else {
        var (single, s1) := Logged(inner).getAccount(ctx, missing[i], s);
        if single.Ok? {
          RepairKeepsLog(inner, ctx, missing, infos[i := single.value], i + 1, s1);
        }
      }
    }
  }

  /** Every inner batch call of an operation, whatever becomes of it, asks for exactly its uncached addresses. */
  lemma OneBatchPerOp<W(!new)>(inner: Client<W>, ctx: Context, s: State<(W, seq<seq<Address>>)>, op: Op)
    ensures var uncached := Fresh(Requested(op), s.cache.Keys);
            Do(Logged(inner), ctx, s, op).1.world.1 == s.world.1 + if uncached == [] then [] else [uncached]
  {
    var uncached := Fresh(Requested(op), s.cache.Keys);
    if uncached != [] {
      var (batch, w1) := Logged(inner).getMultipleAccounts(ctx, uncached, s.world);
      if batch.Ok? {
        RepairKeepsLog(inner, ctx, uncached, Pad(batch.value, |uncached|), 0, w1);
      }
    }
  }

  /** While no call fails, the inner batch calls of a run spell out pairwise distinct, so far uncached addresses. */
  lemma {:induction false} BatchesOfRun<W(!new)>(
    inner: Client<W>, ctx: Context, s: State<(W, seq<seq<Address>>)>, ops: seq<Op>) returns (calls: seq<seq<Address>>)
    requires NeverFails(Logged(inner), ctx)
    ensures Run(Logged(inner), ctx, s, ops).world.1 == s.world.1 + calls
    ensures Concat(calls) == Asked(Logged(inner), ctx, s, ops)
    ensures Distinct(Concat(calls))
    decreases |ops|
  {
    AskedOnce(Logged(inner), ctx, s, ops);
    if ops == [] {
      calls := [];
    } else {
      var uncached := Fresh(Requested(ops[0]), s.cache.Keys);
      OneBatchPerOp(inner, ctx, s, ops[0]);
      FetchSucceeds(Logged(inner), ctx, s.cache, Requested(ops[0]), s.world);
      var (reply, s') := Do(Logged(inner), ctx, s, ops[0]);
      assert reply.Ok?;
      var later := BatchesOfRun(inner, ctx, s', ops[1..]);
      calls := (if uncached == [] then [] else [uncached]) + later;
      if uncached != [] {
        assert calls[0] == uncached && calls[1..] == later;
      } else {
        assert calls == later;
      }
    }
  }

  /** After a successful PrimeAccounts(primed), reads within it never reach the inner client and change no entry. */
  lemma {:induction false} PrimedReadsStayLocal<W>(
    inner: Client<W>, ctx: Context, s: State<W>, primed: seq<Address>, ops: seq<Op>)
    requires Do(inner, ctx, s, Prime(primed)).0.Ok?
    requires forall i | 0 <= i < |ops| :: forall a :: a in Requested(ops[i]) ==> a in primed
    ensures var ready := Do(inner, ctx, s, Prime(primed)).1;
            var end := Run(inner, ctx, ready, ops);
            end.world == ready.world && end.cache == ready.cache
  {
    FetchAllOrNothing(inner, ctx, s.cache, primed, s.world);
    var ready := Do(inner, ctx, s, Prime(primed)).1;
    CachedRun(inner, ctx, ready, ops);
  }

  lemma {:induction false} CachedRun<W>(inner: Client<W>, ctx: Context, s: State<W>, ops: seq<Op>)
    requires forall i | 0 <= i < |ops| :: forall a :: a in Requested(ops[i]) ==> a in s.cache
    ensures Run(inner, ctx, s, ops).world == s.world && Run(inner, ctx, s, ops).cache == s.cache
    decreases |ops|
  {
    if ops != [] {
      FetchCached(inner, ctx, s.cache, Requested(ops[0]), s.world);
      var s' := Do(inner, ctx, s, ops[0]).1;
      forall i | 0 <= i < |ops[1..]|
        ensures forall a :: a in Requested(ops[1..][i]) ==> a in s'.cache
      {
        assert ops[1..][i] == ops[i + 1];
      }
      CachedRun(inner, ctx, s', ops[1..]);
    }
  }

  function Singles(ops: seq<Op>): nat {
    if ops == [] then 0 else (if ops[0].One? then 1 else 0) + Singles(ops[1..])
  }

  function BatchSizes(ops: seq<Op>): nat {
    if ops == [] then 0 else (if ops[0].Many? then |ops[0].addresses| else 0) + BatchSizes(ops[1..])
  }

  /** The counters of a run: one per single call, and every requested account once, cached or not. */
  lemma {:induction false} StatsAddUp<W>(inner: Client<W>, ctx: Context, s: State<W>, ops: seq<Op>)
    ensures var end := Run(inner, ctx, s, ops).stats;
            && end.getAccountCalls == s.stats.getAccountCalls + Singles(ops)
            && end.totalAccountsRequested == s.stats.totalAccountsRequested + Singles(ops) + BatchSizes(ops)
    decreases |ops|
  {
    if ops != [] {
      StatsAddUp(inner, ctx, Do(inner, ctx, s, ops[0]).1, ops[1..]);
    }
  }
}
