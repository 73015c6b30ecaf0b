/** sdk/market/metrics_service.go: what GetMetricsByPools does before and after its goroutines. */
module Bulk {
  import opened Basics
  import opened Errors
  import opened Calculators
  import opened Service

  datatype ItemResult = ItemResult(pool: Pool, metrics: Option<Metrics>, error: Option<Error>)

  predicate Accepted(s: Fields, pool: Pool) {
    ObjectionTo(pool).None? && RouteOf(pool) in s.calculators
  }

  /** Why the bulk path turns a pool away before grouping. */
  function BulkRefusal(s: Fields, pool: Pool): Option<Error> {
    if EntryError(pool).Some? then EntryError(pool)
    else if RouteOf(pool) !in s.calculators then Some(UnsupportedRouteError(pool))
    else None
  }

  /** The result slot of a pool before any goroutine runs. */
  function FirstResult(s: Fields, pool: Pool): ItemResult {
    var refusal := BulkRefusal(s, pool);
    ItemResult(pool, None, if refusal.Some? then Some(ToSDKError(refusal.value)) else None)
  }

  function FirstResults(s: Fields, pools: seq<Pool>): (r: seq<ItemResult>)
    ensures |r| == |pools|
    ensures forall i | 0 <= i < |r| :: r[i] == FirstResult(s, pools[i])
  {
    seq(|pools|, i requires 0 <= i < |pools| => FirstResult(s, pools[i]))
  }

  /** The slot a pool's outcome fills. */
  function FinalResult(pool: Pool, outcome: Result<Metrics, Error>): ItemResult {
    match outcome
    case Ok(m) => ItemResult(pool, Some(m), None)
    case Err(e) => ItemResult(pool, None, Some(ToSDKError(e)))
  }

  predicate Grouped(s: Fields, pool: Pool, route: Route) {
    Accepted(s, pool) && RouteOf(pool) == route
  }

  /** The indices below n that belong to a route's group, in order. */
  function GroupIndices(s: Fields, pools: seq<Pool>, route: Route, n: nat): seq<nat>
    requires n <= |pools|
  {
    if n == 0 then []
    else GroupIndices(s, pools, route, n - 1) + if Grouped(s, pools[n - 1], route) then [n - 1] else []
  }

  /** The keys of `grouped`: the routes of the pools below n that were not turned away. */
  function GroupRoutes(s: Fields, pools: seq<Pool>, n: nat): set<Route>
    requires n <= |pools|
  {
    set i | 0 <= i < n && Accepted(s, pools[i]) :: RouteOf(pools[i])
  }

  lemma FirstResultIs(s: Fields, pool: Pool)
    ensures FirstResult(s, pool) ==
            if EntryError(pool).Some? then ItemResult(pool, None, Some(ToSDKError(EntryError(pool).value)))
            else if RouteOf(pool) !in s.calculators then
              ItemResult(pool, None, Some(ToSDKError(UnsupportedRouteError(pool))))
            else ItemResult(pool, None, None)
    ensures Accepted(s, pool) <==> EntryError(pool).None? && RouteOf(pool) in s.calculators
  {
  }

  lemma GroupRoutesStep(s: Fields, pools: seq<Pool>, i: nat)
    requires i < |pools|
    ensures GroupRoutes(s, pools, i + 1)
         == GroupRoutes(s, pools, i) + if Accepted(s, pools[i]) then {RouteOf(pools[i])} else {}
  {
  }

  /** The map holds the groups of the pools below n. */
  ghost predicate GroupsOf(grouped: map<Route, seq<nat>>, s: Fields, pools: seq<Pool>, n: nat)
    requires n <= |pools|
  {
    && grouped.Keys == GroupRoutes(s, pools, n)
    && forall route: Route :: GroupIndices(s, pools, route, n) == if route in grouped then grouped[route] else []
  }

  function AppendTo(grouped: map<Route, seq<nat>>, route: Route, i: nat): map<Route, seq<nat>> {
    grouped[route := (if route in grouped then grouped[route] else []) + [i]]
  }

  function GroupMap(s: Fields, pools: seq<Pool>, n: nat): map<Route, seq<nat>>
    requires n <= |pools|
  {
    if n == 0 then map[]
    else if Accepted(s, pools[n - 1]) then AppendTo(GroupMap(s, pools, n - 1), RouteOf(pools[n - 1]), n - 1)
    else GroupMap(s, pools, n - 1)
  }

  lemma {:induction false} GroupMapMeaning(s: Fields, pools: seq<Pool>, n: nat)
    requires n <= |pools|
    ensures GroupsOf(GroupMap(s, pools, n), s, pools, n)
  {
    if n > 0 {
      GroupMapMeaning(s, pools, n - 1);
      GroupRoutesStep(s, pools, n - 1);
    }
  }

  /** The loop that fills `results` and `grouped`. */
  method Partition(s: Fields, pools: seq<Pool>) returns (results: array<ItemResult>, grouped: map<Route, seq<nat>>)
    ensures fresh(results) && results[..] == FirstResults(s, pools)
    ensures GroupsOf(grouped, s, pools, |pools|)
  {
    results := new ItemResult[|pools|](i requires 0 <= i < |pools| => ItemResult(pools[i], None, None));
    grouped := map[];
    for i := 0 to |pools|
      invariant forall k | 0 <= k < i :: results[k] == FirstResult(s, pools[k])
      invariant forall k | i <= k < |pools| :: results[k] == ItemResult(pools[k], None, None)
      invariant grouped == GroupMap(s, pools, i)
    {
      var pool := pools[i];
      var route := RouteOf(pool);
      FirstResultIs(s, pool);
      var invalid := EntryError(pool);
      if invalid.Some? {
        results[i] := results[i].(error := Some(ToSDKError(invalid.value)));
      } else if route !in s.calculators {
        results[i] := results[i].(error := Some(ToSDKError(UnsupportedRouteError(pool))));
      } else {
        grouped := AppendTo(grouped, route, i);
      }
    }
    GroupMapMeaning(s, pools, |pools|);
  }

  lemma {:induction false} GroupIndicesInRange(s: Fields, pools: seq<Pool>, route: Route, n: nat)
    requires n <= |pools|
    ensures forall k | 0 <= k < |GroupIndices(s, pools, route, n)| :: GroupIndices(s, pools, route, n)[k] < n
  {
    if n > 0 {
      GroupIndicesInRange(s, pools, route, n - 1);
    }
  }

  lemma {:induction false} GroupIndicesMembers(s: Fields, pools: seq<Pool>, route: Route, n: nat, i: nat)
    requires n <= |pools|
    ensures i in GroupIndices(s, pools, route, n) <==> i < n && Grouped(s, pools[i], route)
  {
    if n > 0 {
      GroupIndicesMembers(s, pools, route, n - 1, i);
      if Grouped(s, pools[n - 1], route) {
        assert GroupIndices(s, pools, route, n) == GroupIndices(s, pools, route, n - 1) + [n - 1];
      } else {
        assert GroupIndices(s, pools, route, n) == GroupIndices(s, pools, route, n - 1);
      }
    }
  }

  lemma {:induction false} GroupIndicesIncrease(s: Fields, pools: seq<Pool>, route: Route, n: nat, j: nat, k: nat)
    requires n <= |pools| && j < k < |GroupIndices(s, pools, route, n)|
    ensures GroupIndices(s, pools, route, n)[j] < GroupIndices(s, pools, route, n)[k]
  {
    if k < |GroupIndices(s, pools, route, n - 1)| {
      GroupIndicesIncrease(s, pools, route, n - 1, j, k);
    } else {
      GroupIndicesInRange(s, pools, route, n - 1);
    }
  }

  /** A group is the strictly increasing list of the indices that belong to it. */
  lemma GroupIndicesMeaning(s: Fields, pools: seq<Pool>, route: Route, n: nat)
    requires n <= |pools|
    ensures var g := GroupIndices(s, pools, route, n);
            && (forall i: nat :: i in g <==> i < n && Grouped(s, pools[i], route))
            && (forall j, k | 0 <= j < k < |g| :: g[j] < g[k])
  {
    forall i: nat
      ensures i in GroupIndices(s, pools, route, n) <==> i < n && Grouped(s, pools[i], route)
    {
      GroupIndicesMembers(s, pools, route, n, i);
    }
    var g := GroupIndices(s, pools, route, n);
    forall j, k | 0 <= j < k < |g|
      ensures g[j] < g[k]
    {
      GroupIndicesIncrease(s, pools, route, n, j, k);
    }
  }

  /**
   * The turned-away indices and the groups partition the request: every index is in one or the other, in at most one
   * group; groups are strictly increasing, hold one route each, are never empty, and their route has an entry in the
   * service.  A turned-away pool already carries the error the single path gives it.
   */
  lemma PartitionIsExact(s: Fields, pools: seq<Pool>, i: nat)
    requires i < |pools|
    ensures var routes := GroupRoutes(s, pools, |pools|);
            && (BulkRefusal(s, pools[i]).None? <==>
                  exists route :: route in routes && i in GroupIndices(s, pools, route, |pools|))
            && (forall route :: route in routes && i in GroupIndices(s, pools, route, |pools|) ==>
                  route == RouteOf(pools[i]) && route in s.calculators)
            && (forall route :: route in routes ==> GroupIndices(s, pools, route, |pools|) != [])
            && (BulkRefusal(s, pools[i]).Some? ==> PlanFor(s, pools[i]) == Refuse(BulkRefusal(s, pools[i]).value))
  {
    var routes := GroupRoutes(s, pools, |pools|);
    forall route
      ensures forall k: nat ::
                k in GroupIndices(s, pools, route, |pools|) <==> k < |pools| && Grouped(s, pools[k], route)
    {
      GroupIndicesMeaning(s, pools, route, |pools|);
    }
    if BulkRefusal(s, pools[i]).None? {
      assert RouteOf(pools[i]) in routes && i in GroupIndices(s, pools, RouteOf(pools[i]), |pools|);
    }
    forall route | route in routes
      ensures GroupIndices(s, pools, route, |pools|) != []
    {
      var k :| 0 <= k < |pools| && Accepted(s, pools[k]) && RouteOf(pools[k]) == route;
      assert k in GroupIndices(s, pools, route, |pools|);
    }
  }

  // ---- annotateBulkDebug: failures by code ----

  function Failures(results: seq<ItemResult>, c: string): nat {
    if results == [] then 0
    else Failures(results[..|results| - 1], c) + if FailedWith(results[|results| - 1], c) then 1 else 0
  }

  /** The code text of an item's error; toSDKError only makes SDKErrors, so there always is one. */
  function CodeOf(r: ItemResult): Option<string> {
    if r.error.Some? && r.error.value.SDKError? then Some(CodeText(r.error.value.code)) else None
  }

  predicate FailedWith(r: ItemResult, c: string) {
    CodeOf(r) == Some(c)
  }

  /** How many items carry an error, whatever its code. */
  function AllFailures(results: seq<ItemResult>): nat {
    if results == [] then 0
    else AllFailures(results[..|results| - 1]) + if results[|results| - 1].error.Some? then 1 else 0
  }

  method CountFailures(results: seq<ItemResult>) returns (failedByCode: map<string, nat>)
    ensures forall c :: c in failedByCode ==> failedByCode[c] == Failures(results, c) > 0
    ensures forall c :: c !in failedByCode ==> Failures(results, c) == 0
  {
    failedByCode := map[];
    for i := 0 to |results|
      invariant forall c :: Failures(results[..i], c) == if c in failedByCode then failedByCode[c] else 0
      invariant forall c :: c in failedByCode ==> failedByCode[c] > 0
    {
      assert results[..i + 1][..i] == results[..i];
      var code := CodeOf(results[i]);
      if code.Some? {
        var c := code.value;
        failedByCode := failedByCode[c := (if c in failedByCode then failedByCode[c] else 0) + 1];
      }
    }
    assert results[..|results|] == results;
  }

  /** Counts over pairwise distinct codes. */
  function SumFailures(results: seq<ItemResult>, codes: seq<string>): nat {
    if codes == [] then 0 else Failures(results, codes[0]) + SumFailures(results, codes[1..])
  }

  lemma {:induction false} SumOfNone(codes: seq<string>)
    ensures SumFailures([], codes) == 0
  {
    if codes != [] {
      SumOfNone(codes[1..]);
    }
  }

  lemma {:induction false} SumStep(results: seq<ItemResult>, codes: seq<string>)
    requires results != [] && Batching.Distinct(codes)
    ensures SumFailures(results, codes) == SumFailures(results[..|results| - 1], codes)
            + if CodeOf(results[|results| - 1]).Some? && CodeOf(results[|results| - 1]).value in codes then 1 else 0
  {
    if codes != [] {
      SumStep(results, codes[1..]);
    }
  }

  /** The counts of all codes that occur add up to the number of failed items. */
  lemma {:induction false} CountsAddUp(results: seq<ItemResult>, codes: seq<string>)
    requires Batching.Distinct(codes)
    requires forall i | 0 <= i < |results| ::
               results[i].error.Some? ==> CodeOf(results[i]).Some? && CodeOf(results[i]).value in codes
    ensures SumFailures(results, codes) == AllFailures(results)
  {
    if results == [] {
      SumOfNone(codes);
    } else {
      var n := |results| - 1;
      forall i | 0 <= i < n
        ensures results[..n][i].error.Some? ==> CodeOf(results[..n][i]).Some? && CodeOf(results[..n][i]).value in codes
      {
        assert results[..n][i] == results[i];
      }
      CountsAddUp(results[..n], codes);
      SumStep(results, codes);
    }
  }
}
