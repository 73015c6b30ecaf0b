/** sdk/rpc/batching.go and sdk/rpc/batching_client.go: deduplicated, chunked batch lookups. */
module Batching {
  import opened Basics
  import opened Errors
  import opened Integers
  import opened Rpc

  // ---- ChunkPubkeys ----

  function EffectiveSize(size: int): (r: int)
    ensures r >= 1
  {
    if size <= 0 then 100 else size
  }

  function Concat<T>(parts: seq<seq<T>>): seq<T> {
    if parts == [] then [] else parts[0] + Concat(parts[1..])
  }

  function Chunks(keys: seq<Address>, size: int): seq<seq<Address>>
    requires size >= 1
  {
    if keys == [] then []
    else if |keys| <= size then [keys]
    else [keys[..size]] + Chunks(keys[size..], size)
  }

  /** A slice of 32-byte keys that fits a 63-bit address space has fewer keys than this. */
  const MAX_KEYS := 0x400_0000_0000_0000

  /** The capacity ChunkPubkeys asks for, in 64 bits. */
  function ChunkCapacity(n: nat, size: int): int
    requires size >= 1
  {
    Quotient(Wrap64(n + size - 1), size)
  }

  /** make panics on a negative capacity. */
  predicate ChunkPanics(n: nat, size: int)
    requires size >= 1
  {
    n < MAX_KEYS && ChunkCapacity(n, size) < 0
  }

  /** None stands for the panic. */
  method ChunkPubkeys(keys: seq<Address>, size: int) returns (chunks: Option<seq<seq<Address>>>)
    ensures chunks == if ChunkPanics(|keys|, EffectiveSize(size)) then None else Some(Chunks(keys, EffectiveSize(size)))
  {
    var step := EffectiveSize(size);
    if ChunkPanics(|keys|, step) {
      return None;
    }
    var out: seq<seq<Address>> := [];
    var i := 0;
    while i < |keys|
      invariant 0 <= i
      invariant i <= |keys| ==> Chunks(keys, step) == out + Chunks(keys[i..], step)
      invariant i > |keys| ==> Chunks(keys, step) == out
    {
      var j := i + step;
      if j > |keys| {
        j := |keys|;
      }
      ghost var before, rest := out, keys[i..];
      out := out + [keys[i..j]];
      if i + step <= |keys| {
        assert rest[..step] == keys[i..j] && rest[step..] == keys[i + step..];
        assert Chunks(rest, step) == [keys[i..j]] + Chunks(keys[i + step..], step) by {
          if |rest| == step {
            assert rest[..step] == rest;
          }
        }
        assert before + ([keys[i..j]] + Chunks(keys[i + step..], step)) == out + Chunks(keys[i + step..], step);
      } else {
        assert keys[i..j] == rest;
      }
      i := i + step;
    }
    assert i == |keys| ==> out + Chunks(keys[i..], step) == out;
    return Some(out);
  }

  /** A size near 2^63 makes the capacity wrap: it panics exactly when the wrapped sum is at least a size below zero. */
  lemma ChunkPanicsExactly(n: nat, size: int)
    requires n < MAX_KEYS && 1 <= size < TWO_63
    ensures ChunkPanics(n, size) <==> n + size - 1 >= TWO_63 && TWO_64 - (n + size - 1) >= size
  {
    var sum := n + size - 1;
    WrapOnce(sum);
    AtLeastOnce(if sum >= TWO_63 then TWO_64 - sum else sum, size);
  }

  lemma WrapOnce(x: int)
    requires 0 <= x < TWO_64
    ensures Wrap64(x) == if x < TWO_63 then x else x - TWO_64
  {
  }

  lemma AtLeastOnce(x: int, y: int)
    requires x >= 0 && y > 0
    ensures x / y >= 0 && (x / y >= 1 <==> x >= y)
  {
  }

  /** Which sizes never panic. */
  lemma PanicFreeExactly(size: int)
    requires 1 <= size < TWO_63
    ensures (forall n: nat :: !ChunkPanics(n, size)) <==> size <= TWO_63 + 1 - MAX_KEYS
  {
    forall n: nat | n < MAX_KEYS
      ensures ChunkPanics(n, size) <==> n + size - 1 >= TWO_63 && TWO_64 - (n + size - 1) >= size
    {
      ChunkPanicsExactly(n, size);
    }
    if size > TWO_63 + 1 - MAX_KEYS {
      assert ChunkPanics(TWO_63 + 1 - size, size);
    }
  }

  /** It happens: two keys and the largest int. */
  lemma ChunkCanPanic()
    ensures ChunkPanics(2, TWO_63 - 1)
  {
    ChunkPanicsExactly(2, TWO_63 - 1);
  }

  /** c is n / size rounded up. */
  predicate RoundedUp(c: nat, n: nat, size: int) {
    (c - 1) * size < n <= c * size
  }

  /** Chunks tile the keys in order: all of size `size` but the last, which holds 1 to `size` keys. */
  lemma {:induction false} ChunksTile(keys: seq<Address>, size: int)
    requires size >= 1
    ensures var cs := Chunks(keys, size);
            && Concat(cs) == keys
            && RoundedUp(|cs|, |keys|, size)
            && (forall i | 0 <= i < |cs| :: 1 <= |cs[i]| <= size)
            && (forall i | 0 <= i < |cs| - 1 :: |cs[i]| == size)
  {
    var cs := Chunks(keys, size);
    if keys == [] {
    } else if |keys| <= size {
      assert cs[1..] == [];
    } else {
      ChunksTile(keys[size..], size);
      assert cs[1..] == Chunks(keys[size..], size);
      var n := |cs| - 1;
      assert (n + 1) * size == n * size + size && (n - 1) * size == n * size - size;
      forall i | 0 <= i < |cs|
        ensures 1 <= |cs[i]| <= size && (i < |cs| - 1 ==> |cs[i]| == size)
      {
        if i > 0 {
          assert cs[i] == cs[1..][i - 1];
        }
      }
    }
  }

  // ---- first-occurrence order without repeats ----

  /** The addresses not in `known`, each once, in the order of their first occurrence. */
  function Fresh(addresses: seq<Address>, known: set<Address>): seq<Address> {
    if addresses == [] then []
    else if addresses[0] in known then Fresh(addresses[1..], known)
    else [addresses[0]] + Fresh(addresses[1..], known + {addresses[0]})
  }

  predicate Distinct<T(==)>(xs: seq<T>) {
    forall i, j | 0 <= i < j < |xs| :: xs[i] != xs[j]
  }

  lemma {:induction false} FreshMembers(addresses: seq<Address>, known: set<Address>)
    ensures Distinct(Fresh(addresses, known))
    ensures forall a :: a in Fresh(addresses, known) <==> a in addresses && a !in known
  {
    if addresses != [] {
      var rest := addresses[1..];
      assert addresses == [addresses[0]] + rest;
      FreshMembers(rest, known);
      FreshMembers(rest, known + {addresses[0]});
    }
  }

  lemma {:induction false} NothingFresh(addresses: seq<Address>, known: set<Address>)
    requires forall a :: a in addresses ==> a in known
    ensures Fresh(addresses, known) == []
  {
    if addresses != [] {
      assert addresses[0] in known;
      NothingFresh(addresses[1..], known);
    }
  }

  lemma {:induction false} FreshAppend(addresses: seq<Address>, a: Address, known: set<Address>)
    ensures Fresh(addresses + [a], known)
         == Fresh(addresses, known) + (if a in known || a in addresses then [] else [a])
  {
    var all := addresses + [a];
    if addresses == [] {
      assert all[1..] == [];
    } else {
      assert all[0] == addresses[0] && all[1..] == addresses[1..] + [a];
      assert addresses == [addresses[0]] + addresses[1..];
      FreshAppend(addresses[1..], a, known);
      FreshAppend(addresses[1..], a, known + {addresses[0]});
    }
  }

  /** The order is that of first occurrences: an earlier fresh key first occurs earlier in the request. */
  lemma {:induction false} FreshOrder(addresses: seq<Address>, known: set<Address>, i: nat, j: nat)
    requires i < j < |Fresh(addresses, known)|
    ensures exists p: nat :: p < |addresses| && addresses[p] == Fresh(addresses, known)[i]
                             && Fresh(addresses, known)[j] !in addresses[..p + 1]
  {
    FreshMembers(addresses, known);
    var f := Fresh(addresses, known);
    var rest := addresses[1..];
    if addresses[0] !in known && i == 0 {
      assert addresses[..1] == [addresses[0]];
      assert addresses[0] == f[0] && f[j] !in addresses[..0 + 1];
    } else {
      var known' := if addresses[0] in known then known else known + {addresses[0]};
      var shift := if addresses[0] in known then 0 else 1;
      FreshOrder(rest, known', i - shift, j - shift);
      var p: nat :| p < |rest| && rest[p] == Fresh(rest, known')[i - shift]
                    && Fresh(rest, known')[j - shift] !in rest[..p + 1];
      FreshMembers(rest, known');
      assert addresses[..p + 1 + 1] == [addresses[0]] + rest[..p + 1];
      assert addresses[p + 1] == f[i] && f[j] !in addresses[..p + 1 + 1];
    }
  }

  // ---- the chunking client ----

  type ByAddress = map<Address, AccountInfo>

  /** What one chunk's reply adds to the lookup table: a nil entry becomes an absent record. */
  function Gather(byAddress: ByAddress, chunk: seq<Address>, infos: Infos): ByAddress
    requires |infos| <= |chunk|
    decreases |infos|
  {
    if infos == [] then byAddress
    else
      var n := |infos| - 1;
      Gather(byAddress, chunk, infos[..n])[chunk[n] := if infos[n].Some? then infos[n].value else Absent(chunk[n])]
  }

  function FetchChunks<W(!new)>(inner: Client<W>, ctx: Context, chunks: seq<seq<Address>>, byAddress: ByAddress, w: W)
    : (Result<ByAddress, Error>, W)
    requires NeverLong(inner)
    decreases |chunks|
  {
    if chunks == [] then (Ok(byAddress), w)
    else
      var (reply, w1) := inner.getMultipleAccounts(ctx, chunks[0], w);
      if reply.Err? then (Err(reply.error), w1)
      else FetchChunks(inner, ctx, chunks[1..], Gather(byAddress, chunks[0], reply.value), w1)
  }

  function Found(byAddress: ByAddress, a: Address): AccountInfo {
    if a in byAddress then byAddress[a] else Absent(a)
  }

  function Scatter(byAddress: ByAddress, addresses: seq<Address>): Infos {
    seq(|addresses|, i requires 0 <= i < |addresses| => Some(Found(byAddress, addresses[i])))
  }

  /** The configured size, unless the context carries a positive override. */
  function ChunkSize(configured: int, ctx: Context): int {
    match ctx.chunkSize
    case Some(override) => if override > 0 then override else configured
    case None => configured
  }

  /** Stands for the panic of ChunkPubkeys, which never answers: in the source it ends the process. */
  const CAPACITY_PANIC := Plain("makeslice: cap out of range", None, "", false, None)

  function ChunkedLookup<W(!new)>(inner: Client<W>, configured: int, ctx: Context, addresses: seq<Address>, w: W)
    : (Result<Infos, Error>, W)
    requires NeverLong(inner)
  {
    if addresses == [] then (Ok([]), w)
    else if ChunkSize(configured, ctx) <= 0 then inner.getMultipleAccounts(ctx, addresses, w)
    else
      var unique, size := Fresh(addresses, {}), ChunkSize(configured, ctx);
      if ChunkPanics(|unique|, size) then (Err(CAPACITY_PANIC), w)
      else
        var (table, w1) := FetchChunks(inner, ctx, Chunks(unique, size), map[], w);
        (if table.Ok? then Ok(Scatter(table.value, addresses)) else Err(table.error), w1)
  }

  method GetMultipleAccounts<W(!new)>(inner: Client<W>, configured: int, ctx: Context, addresses: seq<Address>, w: W)
    returns (reply: Result<Infos, Error>, world: W)
    requires NeverLong(inner)
    ensures (reply, world) == ChunkedLookup(inner, configured, ctx, addresses, w)
  {
    world := w;
    if |addresses| == 0 {
      return Ok([]), world;
    }
    var chunkSize := ChunkSize(configured, ctx);
    if chunkSize <= 0 {
      var (infos, w1) := inner.getMultipleAccounts(ctx, addresses, world);
      return infos, w1;
    }

    var unique: seq<Address> := [];
    var seen: set<Address> := {};
    for k := 0 to |addresses|
      invariant unique == Fresh(addresses[..k], {})
      invariant forall a :: a in seen <==> a in addresses[..k]
    {
      FreshAppend(addresses[..k], addresses[k], {});
      assert addresses[..k + 1] == addresses[..k] + [addresses[k]];
      if addresses[k] !in seen {
        seen := seen + {addresses[k]};
        unique := unique + [addresses[k]];
      }
    }
    assert addresses[..|addresses|] == addresses;

    var chunked := ChunkPubkeys(unique, chunkSize);
    if chunked.None? {
      return Err(CAPACITY_PANIC), world;
    }
    var chunks := chunked.value;
    var byAddress: ByAddress := map[];
    for c := 0 to |chunks|
      invariant FetchChunks(inner, ctx, chunks, map[], w) == FetchChunks(inner, ctx, chunks[c..], byAddress, world)
    {
      var chunk := chunks[c];
      assert chunks[c..][0] == chunk && chunks[c..][1..] == chunks[c + 1..];
      var (infos, w1) := inner.getMultipleAccounts(ctx, chunk, world);
      if infos.Err? {
        return Err(infos.error), w1;
      }
      ghost var before := byAddress;
      for i := 0 to |infos.value|
        invariant byAddress == Gather(before, chunk, infos.value[..i])
      {
        assert infos.value[..i + 1][..i] == infos.value[..i];
        if infos.value[i].None? {
          byAddress := byAddress[chunk[i] := Absent(chunk[i])];
        } else {
          byAddress := byAddress[chunk[i] := infos.value[i].value];
        }
      }
      assert infos.value[..|infos.value|] == infos.value;
      world := w1;
    }

    var out: Infos := [];
    for i := 0 to |addresses|
      invariant |out| == i
      invariant forall k | 0 <= k < i :: out[k] == Some(Found(byAddress, addresses[k]))
    {
      if addresses[i] in byAddress {
        out := out + [Some(byAddress[addresses[i]])];
      } else {
        out := out + [Some(Absent(addresses[i]))];
      }
    }
    assert out == Scatter(byAddress, addresses);
    return Ok(out), world;
  }

  /** NewChunkingClient: without a positive size the inner client is returned as it is, overrides and all. */
  function NewChunkingClient<W(!new)>(inner: Client<W>, configured: int): Client<W>
    requires NeverLong(inner)
  {
    if configured <= 0 then inner
    else
      Client(
        inner.getAccount,
        (ctx: Context, addresses: seq<Address>, w: W) => ChunkedLookup(inner, configured, ctx, addresses, w),
        inner.query)
  }

  // ---- a chunked lookup is a pointwise lookup ----

  predicate TableAgrees(l: Ledger, byAddress: ByAddress) {
    forall a :: a in byAddress ==> byAddress[a] == Lookup(l, a)
  }

  lemma {:induction false} GatherAgrees(l: Ledger, byAddress: ByAddress, chunk: seq<Address>, infos: Infos)
    requires |infos| <= |chunk| && TableAgrees(l, byAddress)
    requires forall i | 0 <= i < |infos| :: Agrees(l, chunk[i], infos[i])
    ensures TableAgrees(l, Gather(byAddress, chunk, infos))
    ensures byAddress.Keys <= Gather(byAddress, chunk, infos).Keys
    ensures forall i | 0 <= i < |infos| :: chunk[i] in Gather(byAddress, chunk, infos)
    decreases |infos|
  {
    if infos != [] {
      var n := |infos| - 1;
      GatherAgrees(l, byAddress, chunk, infos[..n]);
      assert Agrees(l, chunk[n], infos[n]);
      forall i | 0 <= i < |infos|
        ensures chunk[i] in Gather(byAddress, chunk, infos)
      {
        if i < n {
          assert chunk[i] in Gather(byAddress, chunk, infos[..n]);
        }
      }
    }
  }

  /** The table agrees with the ledger, and a key a chunk asked about but the table lacks is absent from the ledger. */
  lemma {:induction false} FetchChunksAgrees<W(!new)>(
    inner: Client<W>, l: Ledger, ctx: Context, chunks: seq<seq<Address>>, byAddress: ByAddress, w: W)
    requires NeverLong(inner) && BatchesAgree(inner, l) && TableAgrees(l, byAddress)
    ensures var table := FetchChunks(inner, ctx, chunks, byAddress, w).0;
            table.Ok? ==>
              && TableAgrees(l, table.value) && byAddress.Keys <= table.value.Keys
              && forall a :: a in Concat(chunks) && a !in table.value ==> Lookup(l, a) == Absent(a)
    decreases |chunks|
  {
    if chunks != [] {
      var (reply, w1) := inner.getMultipleAccounts(ctx, chunks[0], w);
      if reply.Ok? {
        forall i | 0 <= i < |chunks[0]|
          ensures Agrees(l, chunks[0][i], Entry(reply.value, i))
        {
        }
        forall i | 0 <= i < |reply.value|
          ensures Agrees(l, chunks[0][i], reply.value[i])
        {
          assert Entry(reply.value, i) == reply.value[i];
        }
        GatherAgrees(l, byAddress, chunks[0], reply.value);
        FetchChunksAgrees(inner, l, ctx, chunks[1..], Gather(byAddress, chunks[0], reply.value), w1);
        assert Concat(chunks) == chunks[0] + Concat(chunks[1..]);
      }
    }
  }

  /**
   * Over a client that agrees with the ledger, every successful answer is the pointwise ledger lookup: same length,
   * same order, equal answers for equal addresses, whatever the chunk size or override; a size that panics for the
   * distinct addresses gives none.
   */
  lemma ChunkedLookupIsPointwise<W(!new)>(
    inner: Client<W>, l: Ledger, configured: int, ctx: Context, addresses: seq<Address>, w: W)
    requires NeverLong(inner) && BatchesAgree(inner, l) && ChunkSize(configured, ctx) > 0
    ensures var reply := ChunkedLookup(inner, configured, ctx, addresses, w).0;
            && (reply.Ok? ==> reply.value == LookupAll(l, addresses))
            && (ChunkPanics(|Fresh(addresses, {})|, ChunkSize(configured, ctx)) && addresses != [] ==>
                  reply == Err(CAPACITY_PANIC))
  {
    if addresses != [] {
      var unique := Fresh(addresses, {});
      FreshMembers(addresses, {});
      ChunksTile(unique, ChunkSize(configured, ctx));
      FetchChunksAgrees(inner, l, ctx, Chunks(unique, ChunkSize(configured, ctx)), map[], w);
    }
  }

  /** Chunking turns a client that agrees with the ledger into one that is exact wherever its single lookups are. */
  lemma ChunkingClientAgrees<W(!new)>(inner: Client<W>, l: Ledger, configured: int)
    requires Faithful(inner, l)
    ensures Faithful(NewChunkingClient(inner, configured), l)
    ensures configured > 0 ==>
              forall ctx: Context, addresses: seq<Address>, w: W ::
                var r := NewChunkingClient(inner, configured).getMultipleAccounts(ctx, addresses, w).0;
                r.Ok? ==> r.value == LookupAll(l, addresses)
  {
    if configured > 0 {
      forall ctx: Context, addresses: seq<Address>, w: W
        | NewChunkingClient(inner, configured).getMultipleAccounts(ctx, addresses, w).0.Ok?
        ensures NewChunkingClient(inner, configured).getMultipleAccounts(ctx, addresses, w).0.value
             == LookupAll(l, addresses)
      {
        ChunkedLookupIsPointwise(inner, l, configured, ctx, addresses, w);
      }
    }
  }

  // ---- over a weak client ----

  predicate TableWeak(l: Ledger, byAddress: ByAddress) {
    forall a :: a in byAddress ==> WeaklyAgrees(l, a, Some(byAddress[a]))
  }

  lemma {:induction false} GatherWeak(l: Ledger, byAddress: ByAddress, chunk: seq<Address>, infos: Infos)
    requires |infos| <= |chunk| && TableWeak(l, byAddress)
    requires forall i | 0 <= i < |infos| :: WeaklyAgrees(l, chunk[i], infos[i])
    ensures TableWeak(l, Gather(byAddress, chunk, infos))
    decreases |infos|
  {
    if infos != [] {
      var n := |infos| - 1;
      GatherWeak(l, byAddress, chunk, infos[..n]);
      assert WeaklyAgrees(l, chunk[n], infos[n]);
    }
  }

  lemma {:induction false} FetchChunksWeak<W(!new)>(
    inner: Client<W>, l: Ledger, ctx: Context, chunks: seq<seq<Address>>, byAddress: ByAddress, w: W)
    requires NeverLong(inner) && BatchesWeak(inner, l) && TableWeak(l, byAddress)
    ensures var table := FetchChunks(inner, ctx, chunks, byAddress, w).0; table.Ok? ==> TableWeak(l, table.value)
    decreases |chunks|
  {
    if chunks != [] {
      var (reply, w1) := inner.getMultipleAccounts(ctx, chunks[0], w);
      if reply.Ok? {
        forall i | 0 <= i < |reply.value|
          ensures WeaklyAgrees(l, chunks[0][i], reply.value[i])
        {
          assert WeaklyAgrees(l, chunks[0][i], Entry(reply.value, i));
        }
        GatherWeak(l, byAddress, chunks[0], reply.value);
        FetchChunksWeak(inner, l, ctx, chunks[1..], Gather(byAddress, chunks[0], reply.value), w1);
      }
    }
  }

  /** Chunking a weak client yields a weak client. */
  lemma ChunkingClientWeak<W(!new)>(inner: Client<W>, l: Ledger, configured: int)
    requires Weak(inner, l)
    ensures Weak(NewChunkingClient(inner, configured), l)
  {
    var c := NewChunkingClient(inner, configured);
    if configured > 0 {
      forall ctx: Context, addresses: seq<Address>, w: W | c.getMultipleAccounts(ctx, addresses, w).0.Ok?
        ensures var r := c.getMultipleAccounts(ctx, addresses, w).0;
                |r.value| <= |addresses|
                && forall i | 0 <= i < |addresses| :: WeaklyAgrees(l, addresses[i], Entry(r.value, i))
      {
        if addresses != [] {
          FetchChunksWeak(inner, l, ctx, Chunks(Fresh(addresses, {}), ChunkSize(configured, ctx)), map[], w);
        }
      }
    }
  }

  // ---- which calls reach the inner client ----

  /** A client that writes down the addresses of every batch call before passing it on. */
  function Logged<W>(inner: Client<W>): Client<(W, seq<seq<Address>>)> {
    Client(
      (ctx: Context, a: Address, s: (W, seq<seq<Address>>)) =>
        var (r, w') := inner.getAccount(ctx, a, s.0); (r, (w', s.1)),
      (ctx: Context, addresses: seq<Address>, s: (W, seq<seq<Address>>)) =>
        var (r, w') := inner.getMultipleAccounts(ctx, addresses, s.0); (r, (w', s.1 + [addresses])),
      (ctx: Context, q: Query, s: (W, seq<seq<Address>>)) =>
        var (r, w') := inner.query(ctx, q, s.0); (r, (w', s.1)))
  }

  lemma {:induction false} FetchChunksCalls<W(!new)>(
    inner: Client<W>, ctx: Context, chunks: seq<seq<Address>>, byAddress: ByAddress, s: (W, seq<seq<Address>>))
    returns (n: nat)
    requires NeverLong(Logged(inner))
    ensures var (table, s') := FetchChunks(Logged(inner), ctx, chunks, byAddress, s);
            && n <= |chunks| && s'.1 == s.1 + chunks[..n]
            && (table.Ok? ==> n == |chunks|)
            && (table.Err? ==> n > 0 && BatchCanFail(inner, ctx, chunks[n - 1], table.error))
    decreases |chunks|
  {
    if chunks == [] {
      n := 0;
    } else {
      var (reply, s1) := Logged(inner).getMultipleAccounts(ctx, chunks[0], s);
      if reply.Err? {
        n := 1;
        assert BatchFails(inner, ctx, chunks[0], s.0, reply.error);
      } else {
        var m := FetchChunksCalls(inner, ctx, chunks[1..], Gather(byAddress, chunks[0], reply.value), s1);
        n := m + 1;
        assert chunks[..n] == [chunks[0]] + chunks[1..][..m];
      }
    }
  }

  /**
   * On success the inner batch calls, in order, spell out the distinct addresses by first occurrence: each address is
   * asked for once, in ceil(distinct / size) calls of 1 to size addresses.  On failure the calls stop at the failing
   * chunk, and its error is the whole answer.
   */
  lemma ChunkedCalls<W(!new)>(
    inner: Client<W>, configured: int, ctx: Context, addresses: seq<Address>, s: (W, seq<seq<Address>>))
    returns (calls: seq<seq<Address>>)
    requires NeverLong(Logged(inner)) && ChunkSize(configured, ctx) > 0
    ensures var (reply, s') := ChunkedLookup(Logged(inner), configured, ctx, addresses, s);
            var size := ChunkSize(configured, ctx);
            var distinct := Fresh(addresses, {});
            && s'.1 == s.1 + calls
            && (forall i | 0 <= i < |calls| :: 1 <= |calls[i]| <= size)
            && Concat(calls) <= distinct
            && Distinct(distinct) && (forall a :: a in distinct <==> a in addresses)
            && (reply.Ok? ==> Concat(calls) == distinct && RoundedUp(|calls|, |distinct|, size))
            && (reply.Err? && !ChunkPanics(|distinct|, size) ==>
                  calls != [] && BatchCanFail(inner, ctx, calls[|calls| - 1], reply.error))
  {
    FreshMembers(addresses, {});
    var size := ChunkSize(configured, ctx);
    var chunks := Chunks(Fresh(addresses, {}), size);
    ChunksTile(Fresh(addresses, {}), size);
    if addresses == [] || ChunkPanics(|Fresh(addresses, {})|, size) {
      calls := [];
    } else {
      var n := FetchChunksCalls(inner, ctx, chunks, map[], s);
      calls := chunks[..n];
      ConcatPrefix(chunks, n);
      assert chunks[..|chunks|] == chunks;
      var (table, s') := FetchChunks(Logged(inner), ctx, chunks, map[], s);
      var (reply, t) := ChunkedLookup(Logged(inner), configured, ctx, addresses, s);
      assert t == s' && (reply.Err? <==> table.Err?);
      assert |calls| == n;
    }
  }

  /** The size in effect: a positive one in the context goes before the one configured. */
  lemma OverrideWins(configured: int, size: int, timeouts: seq<int>)
    ensures ChunkSize(configured, Context(None, timeouts)) == configured
    ensures size > 0 ==> ChunkSize(configured, Context(Some(size), timeouts)) == size
    ensures size <= 0 ==> ChunkSize(configured, Context(Some(size), timeouts)) == configured
  {
  }

  // ---- defaults, and entries that are not there ----

  /** A size that is not positive stands for 100, which never panics. */
  lemma HundredAtATime(keys: seq<Address>, size: int)
    requires size <= 0
    ensures !ChunkPanics(|keys|, EffectiveSize(size))
    ensures var chunks := Chunks(keys, EffectiveSize(size));
            && Concat(chunks) == keys
            && (forall i | 0 <= i < |chunks| - 1 :: |chunks[i]| == 100)
            && (chunks != [] ==> 1 <= |chunks[|chunks| - 1]| <= 100)
  {
    ChunksTile(keys, 100);
    ChunkPanicsExactly(if |keys| < MAX_KEYS then |keys| else 0, 100);
  }

  ghost predicate AllNil<W(!new)>(inner: Client<W>) {
    forall ctx: Context, addresses: seq<Address>, w: W ::
      inner.getMultipleAccounts(ctx, addresses, w).0 == Ok(Nils(|addresses|))
  }

  function Nils(n: nat): Infos {
    seq(n, _ => None)
  }

  predicate NothingExists(byAddress: ByAddress) {
    forall a :: a in byAddress ==> byAddress[a] == AccountInfo(a, Address(0), 0, [], 0, false)
  }

  lemma {:induction false} GatherNil(byAddress: ByAddress, chunk: seq<Address>, n: nat)
    requires n <= |chunk| && NothingExists(byAddress)
    ensures NothingExists(Gather(byAddress, chunk, Nils(n)))
  {
    if n > 0 {
      var infos, before := Nils(n), Gather(byAddress, chunk, Nils(n - 1));
      assert infos[..n - 1] == Nils(n - 1);
      GatherNil(byAddress, chunk, n - 1);
      assert Gather(byAddress, chunk, infos) == before[chunk[n - 1] := Absent(chunk[n - 1])];
    }
  }

  lemma {:induction false} FetchNil<W(!new)>(
    inner: Client<W>, ctx: Context, chunks: seq<seq<Address>>, byAddress: ByAddress, w: W)
    requires NeverLong(inner) && AllNil(inner) && NothingExists(byAddress)
    ensures var table := FetchChunks(inner, ctx, chunks, byAddress, w).0; table.Ok? && NothingExists(table.value)
    decreases |chunks|
  {
    if chunks != [] {
      var (reply, w1) := inner.getMultipleAccounts(ctx, chunks[0], w);
      assert reply == Ok(Nils(|chunks[0]|));
      GatherNil(byAddress, chunks[0], |chunks[0]|);
      FetchNil(inner, ctx, chunks[1..], Gather(byAddress, chunks[0], reply.value), w1);
    }
  }

  /** An account the inner client knows nothing of is reported under its address as not existing. */
  lemma NilIsNonExistent<W(!new)>(inner: Client<W>, configured: int, ctx: Context, addresses: seq<Address>, w: W)
    requires NeverLong(inner) && AllNil(inner) && ChunkSize(configured, ctx) > 0
    requires !ChunkPanics(|Fresh(addresses, {})|, ChunkSize(configured, ctx))
    ensures var reply := ChunkedLookup(inner, configured, ctx, addresses, w).0;
            && reply.Ok? && |reply.value| == |addresses|
            && forall i | 0 <= i < |addresses| ::
                 reply.value[i] == Some(AccountInfo(addresses[i], Address(0), 0, [], 0, false))
  {
    FetchNil(inner, ctx, Chunks(Fresh(addresses, {}), ChunkSize(configured, ctx)), map[], w);
  }

  lemma {:induction false} ConcatPrefix<T>(parts: seq<seq<T>>, n: nat)
    requires n <= |parts|
    ensures Concat(parts[..n]) <= Concat(parts)
  {
    if n > 0 {
      ConcatPrefix(parts[1..], n - 1);
      assert parts[..n][1..] == parts[1..][..n - 1];
    }
  }
}
