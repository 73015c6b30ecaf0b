/**
 * GetMetricsByPumpfunBondingCurves and GetMetricsByPumpfunBondingCurve (sdk/market/metrics_service.go): the mint-based
 * bulk path primes one preload cache for all items and then serves them one after another.
 */
module BondingCurves {
  import opened Basics
  import opened Errors
  import opened Rpc
  import opened Batching
  import opened Preload
  import opened Calculators
  import opened Calls
  import opened Mishaps
  import Service

  /** solana.SolMint: some address that is not the zero address. */
  const SOL_MINT := Address(1)

  /** derive: the program address of a token's curve; compute: the curve calculator for an address and two mints. */
  datatype Curves = Curves(derive: Address -> Result<Address, Error>, compute: (Address, Address, Address) -> Program)

  datatype CurveResult = CurveResult(token: Address, metrics: Option<Metrics>, error: Option<Error>)

  // ---- one curve ----

  /** The address a token's curve lives at. */
  function CurveAddress(curves: Curves, token: Address): Result<Address, Error> {
    var r := curves.derive(token);
    if r.Ok? then r
    else Err(SDKError(ClassifyErrorCode(r.error), "derive pumpfun bonding curve address", Some(r.error)))
  }

  /** What GetMetricsByPumpfunBondingCurve checks before it computes. */
  function Request(curves: Curves, mintA: Address, mintB: Address): Result<Address, Error> {
    if mintA.IsZero() || mintB.IsZero() then Err(Service.ArgumentError("mintA and mintB are required"))
    else if mintA != SOL_MINT && mintB != SOL_MINT then
      Err(Service.ArgumentError("pumpfun bonding curve requires one side to be SOL"))
    else CurveAddress(curves, if mintA == SOL_MINT then mintB else mintA)
  }

  function Wrapped(outcome: Result<Metrics, Error>): Result<Metrics, Error> {
    if outcome.Ok? then outcome
    else Err(SDKError(ClassifyErrorCode(outcome.error), "pumpfun bonding curve metrics failed", Some(outcome.error)))
  }

  /** GetMetricsByPumpfunBondingCurve; the flag tells whether every read it made was answered. */
  function GetMetrics<W>(
    inner: Client<W>, ctx: Context, source: Source, provider: Provider, curves: Curves,
    mintA: Address, mintB: Address, s: State<W>)
    : (Result<Metrics, Error>, State<W>, bool)
  {
    var request := Request(curves, mintA, mintB);
    if request.Err? then (Err(request.error), s, true)
    else
      var (outcome, s', answered) :=
        Execute(inner, ctx, source, provider, curves.compute(request.value, mintA, mintB), [], s);
      (Wrapped(outcome), s', answered)
  }

  /** What it comes to on a ledger. */
  function Expected(l: Ledger, provider: Provider, curves: Curves, mintA: Address, mintB: Address)
    : Result<Metrics, Error>
  {
    var request := Request(curves, mintA, mintB);
    if request.Err? then Err(request.error)
    else Wrapped(Eval(l, provider, curves.compute(request.value, mintA, mintB), []))
  }

  lemma SingleIsExpected<W(!new)>(
    inner: Client<W>, l: Ledger, ctx: Context, source: Source, provider: Provider, curves: Curves,
    mintA: Address, mintB: Address, s: State<W>)
    requires Exact(inner, l) && TableAgrees(l, s.cache)
    ensures var (outcome, s', answered) := GetMetrics(inner, ctx, source, provider, curves, mintA, mintB, s);
            && TableAgrees(l, s'.cache)
            && (answered ==> outcome == Expected(l, provider, curves, mintA, mintB))
            && (NeverFails(inner, ctx) ==> answered)
  {
    var request := Request(curves, mintA, mintB);
    if request.Ok? {
      ExecuteIsEval(inner, l, ctx, source, provider, curves.compute(request.value, mintA, mintB), [], s);
    }
  }

  // ---- many curves ----

  predicate Admissible(curves: Curves, token: Address) {
    !token.IsZero() && token != SOL_MINT && curves.derive(token).Ok?
  }

  /** What the bulk path checks of an item. */
  function Admit(curves: Curves, token: Address): (r: Result<Address, Error>)
    ensures r.Ok? <==> Admissible(curves, token)
  {
    if token.IsZero() then Err(Service.ArgumentError("token mint is required"))
    else if token == SOL_MINT then Err(Service.ArgumentError("token mint cannot be SOL"))
    else CurveAddress(curves, token)
  }

  function Filled(token: Address, outcome: Result<Metrics, Error>): CurveResult {
    match outcome
    case Ok(m) => CurveResult(token, Some(m), None)
    case Err(e) => CurveResult(token, None, Some(ToSDKError(e)))
  }

  /** The slot of an item the bulk path turns away. */
  function Refused(curves: Curves, token: Address): CurveResult
    requires !Admissible(curves, token)
  {
    Filled(token, Err(Admit(curves, token).error))
  }

  predicate IsSlot(slot: CurveResult, curves: Curves, token: Address, ready: CurveResult) {
    slot == if Admissible(curves, token) then ready else Refused(curves, token)
  }

  /** validIndices */
  function Valid(curves: Curves, items: seq<Address>): (r: seq<nat>)
    ensures forall j | 0 <= j < |r| :: r[j] < |items| && Admissible(curves, items[r[j]])
  {
    if items == [] then []
    else
      var n := |items| - 1;
      Valid(curves, items[..n]) + if Admissible(curves, items[n]) then [n] else []
  }

  lemma {:induction false} ValidMeaning(curves: Curves, items: seq<Address>)
    ensures forall i: nat | i < |items| :: i in Valid(curves, items) <==> Admissible(curves, items[i])
    ensures forall j, k | 0 <= j < k < |Valid(curves, items)| :: Valid(curves, items)[j] < Valid(curves, items)[k]
  {
    if items != [] {
      ValidMeaning(curves, items[..|items| - 1]);
    }
  }

  function ValidAddresses(curves: Curves, items: seq<Address>): seq<Address> {
    var valid := Valid(curves, items);
    seq(|valid|, j requires 0 <= j < |valid| => curves.derive(items[valid[j]]).value)
  }

  /** The preloaded client after PrimeAccounts, which is left out when no item is valid. */
  function Primed<W>(inner: Client<W>, ctx: Context, curves: Curves, items: seq<Address>, w: W)
    : (Option<Error>, State<W>)
  {
    var s := State(map[], PreloadStats(0, 0, 0), w);
    if Valid(curves, items) == [] then (None, s)
    else
      var (reply, s') := Do(inner, ctx, s, Prime(ValidAddresses(curves, items)));
      (if reply.Err? then Some(reply.error) else None, s')
  }

  // ---- serving one item after another ----

  type Turn<!W> = (Address, State<W>) -> (Result<Metrics, Error>, State<W>, bool)

  /** One item's turn: the token against SOL, through the preloaded client. */
  function TurnOf<W>(inner: Client<W>, ctx: Context, provider: Provider, curves: Curves): Turn<W> {
    (token: Address, s: State<W>) => GetMetrics(inner, ctx, Preloaded, provider, curves, token, SOL_MINT, s)
  }

  /** The client after j turns; after a failed priming there are none. */
  function StateAfter<W>(turn: Turn<W>, failure: Option<Error>, tokens: seq<Address>, s: State<W>, j: nat): State<W>
    requires j <= |tokens|
  {
    if j == 0 || failure.Some? then s else turn(tokens[j - 1], StateAfter(turn, failure, tokens, s, j - 1)).1
  }

  /** What turn j comes to, and whether its reads were answered. */
  function TurnOutcome<W>(turn: Turn<W>, failure: Option<Error>, tokens: seq<Address>, s: State<W>, j: nat)
    : (Result<Metrics, Error>, bool)
    requires j < |tokens|
  {
    if failure.Some? then (Err(failure.value), false)
    else
      var (outcome, _, answered) := turn(tokens[j], StateAfter(turn, failure, tokens, s, j));
      (outcome, answered)
  }

  function TurnOutcomes<W>(turn: Turn<W>, failure: Option<Error>, tokens: seq<Address>, s: State<W>)
    : (r: seq<Result<Metrics, Error>>)
    ensures |r| == |tokens|
  {
    seq(|tokens|, j requires 0 <= j < |tokens| => TurnOutcome(turn, failure, tokens, s, j).0)
  }

  function ValidTokens(curves: Curves, items: seq<Address>): (r: seq<Address>)
    ensures |r| == |Valid(curves, items)|
  {
    seq(|Valid(curves, items)|, j requires 0 <= j < |Valid(curves, items)| => items[Valid(curves, items)[j]])
  }

  /** The client after the first j valid items were served. */
  function Served<W>(
    inner: Client<W>, ctx: Context, provider: Provider, curves: Curves, items: seq<Address>, w: W, j: nat): State<W>
    requires j <= |Valid(curves, items)|
  {
    var (failure, s) := Primed(inner, ctx, curves, items, w);
    StateAfter(TurnOf(inner, ctx, provider, curves), failure, ValidTokens(curves, items), s, j)
  }

  /** The outcome of valid item j. */
  function Outcome<W>(
    inner: Client<W>, ctx: Context, provider: Provider, curves: Curves, items: seq<Address>, w: W, j: nat)
    : (Result<Metrics, Error>, bool)
    requires j < |Valid(curves, items)|
  {
    var (failure, s) := Primed(inner, ctx, curves, items, w);
    TurnOutcome(TurnOf(inner, ctx, provider, curves), failure, ValidTokens(curves, items), s, j)
  }

  function Outcomes<W>(
    inner: Client<W>, ctx: Context, provider: Provider, curves: Curves, items: seq<Address>, w: W)
    : (r: seq<Result<Metrics, Error>>)
    ensures |r| == |Valid(curves, items)|
  {
    var (failure, s) := Primed(inner, ctx, curves, items, w);
    TurnOutcomes(TurnOf(inner, ctx, provider, curves), failure, ValidTokens(curves, items), s)
  }

  /** Slot i holds what its item gets: its refusal, or the outcome of its turn. */
  predicate Answered(
    curves: Curves, items: seq<Address>, outcomes: seq<Result<Metrics, Error>>, results: seq<CurveResult>)
  {
    && |results| == |items| && |outcomes| == |Valid(curves, items)|
    && (forall i: nat | i < |items| && !Admissible(curves, items[i]) :: results[i] == Refused(curves, items[i]))
    && (forall j: nat | j < |Valid(curves, items)| ::
          results[Valid(curves, items)[j]] == Filled(items[Valid(curves, items)[j]], outcomes[j]))
  }

  function ReadySlot(token: Address, outcome: Option<Result<Metrics, Error>>): CurveResult {
    if outcome.Some? then Filled(token, outcome.value) else CurveResult(token, None, None)
  }

  lemma SlotsReady(
    curves: Curves, items: seq<Address>, results: seq<CurveResult>, outcome: Option<Result<Metrics, Error>>)
    requires |results| == |items|
    requires forall i: nat | i < |items| :: IsSlot(results[i], curves, items[i], ReadySlot(items[i], outcome))
    ensures forall i: nat | i < |items| && i in Valid(curves, items) :: results[i] == ReadySlot(items[i], outcome)
    ensures forall i: nat | i < |items| && !Admissible(curves, items[i]) :: results[i] == Refused(curves, items[i])
    ensures forall j, k | 0 <= j < k < |Valid(curves, items)| :: Valid(curves, items)[j] < Valid(curves, items)[k]
  {
    ValidMeaning(curves, items);
  }

  lemma AllAnswered(
    curves: Curves, items: seq<Address>, outcomes: seq<Result<Metrics, Error>>,
    before: seq<CurveResult>, results: seq<CurveResult>)
    requires |before| == |results| == |items| && |outcomes| == |Valid(curves, items)|
    requires forall i: nat | i < |items| && !Admissible(curves, items[i]) :: before[i] == Refused(curves, items[i])
    requires forall i: nat | i < |items| && i !in Valid(curves, items) :: results[i] == before[i]
    requires forall j: nat | j < |Valid(curves, items)| ::
               results[Valid(curves, items)[j]] == Filled(items[Valid(curves, items)[j]], outcomes[j])
    ensures Answered(curves, items, outcomes, results)
  {
    ValidMeaning(curves, items);
  }

  /** Turn by turn a primed client goes from one state to the next; an unprimed one is left alone. */
  ghost predicate TurnByTurn<W>(
    turn: Turn<W>, tokens: seq<Address>, outcomes: seq<Result<Metrics, Error>>, states: seq<State<W>>,
    failure: Option<Error>)
  {
    && |outcomes| == |tokens| == |states| - 1
    && forall j | 0 <= j < |tokens| ::
         if failure.Some? then outcomes[j] == Err(failure.value) && states[j + 1] == states[j]
         else (outcomes[j], states[j + 1]) == (turn(tokens[j], states[j]).0, turn(tokens[j], states[j]).1)
  }

  lemma Turns<W>(turn: Turn<W>, failure: Option<Error>, tokens: seq<Address>, s: State<W>)
    returns (states: seq<State<W>>)
    ensures TurnByTurn(turn, tokens, TurnOutcomes(turn, failure, tokens, s), states, failure) && states[0] == s
    ensures states[|tokens|] == StateAfter(turn, failure, tokens, s, |tokens|)
  {
    states := seq(|tokens| + 1, j requires 0 <= j <= |tokens| => StateAfter(turn, failure, tokens, s, j));
  }

  lemma OneTurn<W>(
    inner: Client<W>, ctx: Context, provider: Provider, curves: Curves, tokens: seq<Address>,
    outcomes: seq<Result<Metrics, Error>>, states: seq<State<W>>, failure: Option<Error>, j: nat)
    requires TurnByTurn(TurnOf(inner, ctx, provider, curves), tokens, outcomes, states, failure)
    requires failure.None? && j < |tokens|
    ensures var turn := GetMetrics(inner, ctx, Preloaded, provider, curves, tokens[j], SOL_MINT, states[j]);
            (turn.0, turn.1) == (outcomes[j], states[j + 1])
  {
  }

  method GetMetricsByPumpfunBondingCurves<W>(
    inner: Client<W>, ctx: Context, provider: Provider, curves: Curves, items: seq<Address>, w: W)
    returns (results: array<CurveResult>, stats: PreloadStats, world: W)
    ensures fresh(results) && Answered(curves, items, Outcomes(inner, ctx, provider, curves, items, w), results[..])
    ensures var end := Served(inner, ctx, provider, curves, items, w, |Valid(curves, items)|);
            stats == end.stats && world == end.world
  {
    var validIndices: seq<nat>, validAddresses: seq<Address>;
    results, validIndices, validAddresses := Sift(curves, items);
    var failure, primed := PrimeAll(inner, ctx, curves, items, w, results, validIndices, validAddresses);
    ghost var turn, tokens := TurnOf(inner, ctx, provider, curves), ValidTokens(curves, items);
    ghost var outcomes := TurnOutcomes(turn, failure, tokens, primed);
    ghost var states := Turns(turn, failure, tokens, primed);
    ghost var before := results[..];
    SlotsReady(curves, items, before, if failure.Some? then Some(Err(failure.value)) else None);
    var preloaded :=
      ServeAll(inner, ctx, provider, curves, items, results, validIndices, primed, tokens, outcomes, states, failure);
    AllAnswered(curves, items, outcomes, before, results[..]);
    stats, world := preloaded.stats, preloaded.world;
  }

  /** The loop that validates and derives. */
  method Sift(curves: Curves, items: seq<Address>)
    returns (results: array<CurveResult>, validIndices: seq<nat>, validAddresses: seq<Address>)
    ensures fresh(results) && results.Length == |items|
    ensures forall i | 0 <= i < |items| :: IsSlot(results[i], curves, items[i], ReadySlot(items[i], None))
    ensures validIndices == Valid(curves, items) && validAddresses == ValidAddresses(curves, items)
  {
    results := new CurveResult[|items|](i requires 0 <= i < |items| => CurveResult(items[i], None, None));
    validIndices := [];
    validAddresses := [];
    for i := 0 to |items|
      invariant forall k | 0 <= k < i :: IsSlot(results[k], curves, items[k], ReadySlot(items[k], None))
      invariant forall k | i <= k < |items| :: results[k] == CurveResult(items[k], None, None)
      invariant validIndices == Valid(curves, items[..i])
      invariant validAddresses == ValidAddresses(curves, items[..i])
    {
      assert items[..i + 1][..i] == items[..i];
      var admitted := Admit(curves, items[i]);
      if admitted.Err? {
        results[i] := results[i].(error := Some(ToSDKError(admitted.error)));
      } else {
        validIndices := validIndices + [i];
        validAddresses := validAddresses + [admitted.value];
      }
      assert validAddresses == ValidAddresses(curves, items[..i + 1]);
    }
    assert items[..|items|] == items;
  }

  /** PrimeAccounts for all valid items at once; when it fails, every one of them has its error. */
  method PrimeAll<W>(
    inner: Client<W>, ctx: Context, curves: Curves, items: seq<Address>, w: W,
    results: array<CurveResult>, validIndices: seq<nat>, validAddresses: seq<Address>)
    returns (ghost failure: Option<Error>, primed: State<W>)
    requires results.Length == |items|
    requires forall i: nat | i < |items| :: IsSlot(results[i], curves, items[i], ReadySlot(items[i], None))
    requires validIndices == Valid(curves, items) && validAddresses == ValidAddresses(curves, items)
    modifies results
    ensures Primed(inner, ctx, curves, items, w) == (failure, primed)
    ensures forall i: nat | i < |items| ::
              IsSlot(results[i], curves, items[i],
                     ReadySlot(items[i], if failure.Some? then Some(Err(failure.value)) else None))
  {
    ValidMeaning(curves, items);
    primed := State(map[], PreloadStats(0, 0, 0), w);
    failure := None;
    if |validAddresses| > 0 {
      var (reply, after) := Do(inner, ctx, primed, Prime(validAddresses));
      primed := after;
      if reply.Err? {
        failure := Some(reply.error);
        FailAll(results, validIndices, reply.error);
      }
    }
  }

  method FailAll(results: array<CurveResult>, validIndices: seq<nat>, error: Error)
    requires forall k | 0 <= k < |validIndices| :: validIndices[k] < results.Length
    modifies results
    ensures forall i | 0 <= i < results.Length ::
              results[i]
              == if i in validIndices then old(results[i]).(error := Some(ToSDKError(error))) else old(results[i])
  {
    for j := 0 to |validIndices|
      invariant forall i | 0 <= i < results.Length ::
                  results[i] == if i in validIndices[..j] then old(results[i]).(error := Some(ToSDKError(error)))
                                else old(results[i])
    {
      assert validIndices[..j + 1] == validIndices[..j] + [validIndices[j]];
      results[validIndices[j]] := results[validIndices[j]].(error := Some(ToSDKError(error)));
    }
    assert validIndices[..|validIndices|] == validIndices;
  }

  /** outcomes and states: what each turn gives, and the client before and after it. */
  method ServeAll<W>(
    inner: Client<W>, ctx: Context, provider: Provider, curves: Curves, items: seq<Address>,
    results: array<CurveResult>, validIndices: seq<nat>, primed: State<W>, ghost tokens: seq<Address>,
    ghost outcomes: seq<Result<Metrics, Error>>, ghost states: seq<State<W>>, ghost failure: Option<Error>)
    returns (preloaded: State<W>)
    requires results.Length == |items|
    requires |tokens| == |validIndices| && forall j | 0 <= j < |tokens| ::
               validIndices[j] < |items| && tokens[j] == items[validIndices[j]]
    requires TurnByTurn(TurnOf(inner, ctx, provider, curves), tokens, outcomes, states, failure) && states[0] == primed
    requires forall j, k | 0 <= j < k < |validIndices| :: validIndices[j] < validIndices[k]
    requires forall i: nat | i < |items| && i in validIndices ::
               results[i] == ReadySlot(items[i], if failure.Some? then Some(Err(failure.value)) else None)
    modifies results
    ensures forall i: nat | i < |items| && i !in validIndices :: results[i] == old(results[i])
    ensures forall j: nat | j < |validIndices| ::
              results[validIndices[j]] == Filled(items[validIndices[j]], outcomes[j])
    ensures preloaded == states[|validIndices|]
  {
    preloaded := primed;
    for j := 0 to |validIndices|
      invariant preloaded == states[j]
      invariant forall k: nat | k < j :: results[validIndices[k]] == Filled(items[validIndices[k]], outcomes[k])
      invariant forall i: nat | i < |items| && i !in validIndices[..j] :: results[i] == old(results[i])
    {
      var index := validIndices[j];
      assert validIndices[..j + 1] == validIndices[..j] + [index];
      assert index !in validIndices[..j];
      if results[index].error.Some? {
        continue;
      }
      OneTurn(inner, ctx, provider, curves, tokens, outcomes, states, failure, j);
      var (outcome, next, _) := GetMetrics(inner, ctx, Preloaded, provider, curves, items[index], SOL_MINT, preloaded);
      preloaded := next;
      match outcome {
        case Err(e) => results[index] := results[index].(error := Some(ToSDKError(e)));
        case Ok(m) => results[index] := results[index].(metrics := Some(m));
      }
    }
  }

  // ---- bulk against single ----

  lemma PrimedIsTrue<W(!new)>(inner: Client<W>, l: Ledger, ctx: Context, curves: Curves, items: seq<Address>, w: W)
    requires Exact(inner, l)
    ensures TableAgrees(l, Primed(inner, ctx, curves, items, w).1.cache)
  {
    ExactIsFaithful(inner, l);
    FaithfulIsWeak(inner, l);
    FetchAgrees(inner, l, ctx, map[], ValidAddresses(curves, items), w);
  }

  /** Turns that keep the cache true leave it true. */
  lemma {:induction false} StatesAreTrue<W(!new)>(
    l: Ledger, turn: Turn<W>, failure: Option<Error>, tokens: seq<Address>, s: State<W>, j: nat)
    requires j <= |tokens| && TableAgrees(l, s.cache)
    requires forall token: Address, s: State<W> :: TableAgrees(l, s.cache) ==> TableAgrees(l, turn(token, s).1.cache)
    ensures TableAgrees(l, StateAfter(turn, failure, tokens, s, j).cache)
  {
    if j > 0 {
      StatesAreTrue(l, turn, failure, tokens, s, j - 1);
    }
  }

  lemma ServedIsTrue<W(!new)>(
    inner: Client<W>, l: Ledger, ctx: Context, provider: Provider, curves: Curves, items: seq<Address>, w: W, j: nat)
    requires Exact(inner, l) && j <= |Valid(curves, items)|
    ensures TableAgrees(l, Served(inner, ctx, provider, curves, items, w, j).cache)
  {
    var turn := TurnOf(inner, ctx, provider, curves);
    var (failure, primed) := Primed(inner, ctx, curves, items, w);
    PrimedIsTrue(inner, l, ctx, curves, items, w);
    forall token: Address, s: State<W> | TableAgrees(l, s.cache)
      ensures TableAgrees(l, turn(token, s).1.cache)
    {
      SingleIsExpected(inner, l, ctx, Preloaded, provider, curves, token, SOL_MINT, s);
    }
    StatesAreTrue(l, turn, failure, ValidTokens(curves, items), primed, j);
  }

  /**
   * Bulk refines single: a valid item whose reads were answered, after a successful priming, has exactly the metrics or
   * error that GetMetricsByPumpfunBondingCurve(token, SOL) alone gives through any client on the same ledger.
   */
  lemma CurvesRefineSingle<W(!new), V(!new)>(
    inner: Client<W>, l: Ledger, ctx: Context, provider: Provider, curves: Curves, items: seq<Address>, w: W, j: nat,
    alone: Client<V>, ctx': Context, before: State<V>, results: seq<CurveResult>)
    requires Exact(inner, l) && Exact(alone, l) && TableAgrees(l, before.cache)
    requires j < |Valid(curves, items)|
    requires Answered(curves, items, Outcomes(inner, ctx, provider, curves, items, w), results)
    ensures var token := items[Valid(curves, items)[j]];
            var (outcome, _, answered) := GetMetrics(alone, ctx', Direct, provider, curves, token, SOL_MINT, before);
            && (NeverFails(alone, ctx') ==> answered)
            && (NeverFails(inner, ctx) ==> Outcome(inner, ctx, provider, curves, items, w, j).1)
            && (answered && Outcome(inner, ctx, provider, curves, items, w, j).1 ==>
                  results[Valid(curves, items)[j]] == Filled(token, outcome))
  {
    var token := items[Valid(curves, items)[j]];
    ServedIsTrue(inner, l, ctx, provider, curves, items, w, j);
    SingleIsExpected(inner, l, ctx, Preloaded, provider, curves, token, SOL_MINT,
                     Served(inner, ctx, provider, curves, items, w, j));
    SingleIsExpected(alone, l, ctx', Direct, provider, curves, token, SOL_MINT, before);
    if NeverFails(inner, ctx) {
      FetchSucceeds(inner, ctx, map[], ValidAddresses(curves, items), w);
    }
  }

  /**
   * Where the two paths refuse differently: the bulk path turns SOL itself away, the single path does not; a zero mint
   * gets the same code in other words; for every other token the refusals are equal.
   */
  lemma RefusalsCompared(curves: Curves, token: Address)
    ensures Admit(curves, token) == Request(curves, token, SOL_MINT) <==> !token.IsZero() && token != SOL_MINT
    ensures CodeOf(Admit(curves, token)) == CodeOf(Request(curves, token, SOL_MINT)) <==> token != SOL_MINT
    ensures Admit(curves, SOL_MINT).Err?
    ensures curves.derive(SOL_MINT).Ok? ==> Request(curves, SOL_MINT, SOL_MINT).Ok?
  {
    assert "token mint is required"[0] != "mintA and mintB are required"[0];
    assert "token mint cannot be SOL"[0] != "derive pumpfun bonding curve address"[0];
  }

  function CodeOf(r: Result<Address, Error>): Option<Code> {
    if r.Err? && r.error.SDKError? then Some(r.error.code) else None
  }

  // ---- in the caller's terms ----

  /** A token's curve is the same whichever of the two mints the token is. */
  lemma OneCurveForBothOrders(curves: Curves, token: Address)
    requires token.id != 0 && token != SOL_MINT
    ensures Request(curves, SOL_MINT, token) == Request(curves, token, SOL_MINT)
    ensures match curves.derive(token)
            case Ok(address) => Request(curves, token, SOL_MINT) == Ok(address)
            case Err(e) =>
              Request(curves, token, SOL_MINT)
              == Err(SDKError(ClassifyErrorCode(e), "derive pumpfun bonding curve address", Some(e)))
  {
  }

  /** What a computation on a ledger comes to, with a failure of it as the caller sees it. */
  predicate ComesTo(computed: Result<Metrics, Error>, outcome: Result<Metrics, Error>) {
    match computed
    case Ok(m) => outcome == Ok(m)
    case Err(e) => outcome == Err(SDKError(ClassifyErrorCode(e), "pumpfun bonding curve metrics failed", Some(e)))
  }

  /**
   * A token against SOL, in either order and over any exact client that never fails: the calculator of the token's own
   * curve, run with the mints as they were given, decides.
   */
  lemma CurveOutcome<W(!new)>(
    inner: Client<W>, l: Ledger, ctx: Context, source: Source, provider: Provider, curves: Curves,
    token: Address, mintA: Address, mintB: Address, s: State<W>)
    requires Exact(inner, l) && TableAgrees(l, s.cache) && NeverFails(inner, ctx)
    requires token.id != 0 && token != SOL_MINT
    requires (mintA, mintB) == (token, SOL_MINT) || (mintA, mintB) == (SOL_MINT, token)
    ensures var outcome := GetMetrics(inner, ctx, source, provider, curves, mintA, mintB, s).0;
            var derived := curves.derive(token);
            && (derived.Ok? ==> ComesTo(Eval(l, provider, curves.compute(derived.value, mintA, mintB), []), outcome))
            && (derived.Err? ==>
                  outcome
                  == Err(SDKError(ClassifyErrorCode(derived.error), "derive pumpfun bonding curve address",
                                  Some(derived.error))))
  {
    OneCurveForBothOrders(curves, token);
    SingleIsExpected(inner, l, ctx, source, provider, curves, mintA, mintB, s);
  }

  /** The mints the single path turns away, before it asks any client. */
  lemma MintsRefused<W>(
    inner: Client<W>, ctx: Context, source: Source, provider: Provider, curves: Curves,
    mintA: Address, mintB: Address, s: State<W>)
    requires mintA.id == 0 || mintB.id == 0 || (mintA != SOL_MINT && mintB != SOL_MINT)
    ensures var message := if mintA.id == 0 || mintB.id == 0 then "mintA and mintB are required"
                           else "pumpfun bonding curve requires one side to be SOL";
            GetMetrics(inner, ctx, source, provider, curves, mintA, mintB, s)
            == (Err(SDKError(InvalidArgument, message, None)), s, true)
  {
  }

  /** The slots of the items the bulk path turns away, over any client. */
  lemma RefusedSlots<W>(
    inner: Client<W>, ctx: Context, provider: Provider, curves: Curves, items: seq<Address>, w: W,
    results: seq<CurveResult>, i: nat)
    requires Answered(curves, items, Outcomes(inner, ctx, provider, curves, items, w), results) && i < |items|
    ensures items[i].id == 0 ==>
              results[i] == CurveResult(items[i], None, Some(SDKError(InvalidArgument, "token mint is required", None)))
    ensures items[i] == SOL_MINT ==>
              results[i]
              == CurveResult(items[i], None, Some(SDKError(InvalidArgument, "token mint cannot be SOL", None)))
    ensures items[i].id != 0 && items[i] != SOL_MINT && curves.derive(items[i]).Err? ==>
              var e := curves.derive(items[i]).error;
              results[i]
              == CurveResult(items[i], None, Some(SDKError(ClassifyErrorCode(e), "derive pumpfun bonding curve address",
                                                           Some(e))))
  {
  }

  predicate Shows(slot: CurveResult, token: Address, computed: Result<Metrics, Error>) {
    match computed
    case Ok(m) => slot == CurveResult(token, Some(m), None)
    case Err(e) =>
      && slot.token == token && slot.metrics.None?
      && slot.error == Some(SDKError(ClassifyErrorCode(e), "pumpfun bonding curve metrics failed", Some(e)))
  }

  lemma ShownOutcome(token: Address, computed: Result<Metrics, Error>, outcome: Result<Metrics, Error>)
    requires ComesTo(computed, outcome)
    ensures Shows(Filled(token, outcome), token, computed)
  {
  }

  lemma TurnOfItem(curves: Curves, items: seq<Address>, i: nat) returns (j: nat)
    requires i < |items| && Admissible(curves, items[i])
    ensures j < |Valid(curves, items)| && Valid(curves, items)[j] == i
  {
    ValidMeaning(curves, items);
    j :| 0 <= j < |Valid(curves, items)| && Valid(curves, items)[j] == i;
  }

  /** The slot of an item with a curve, over an exact client that never fails. */
  lemma CurveSlot<W(!new)>(
    inner: Client<W>, l: Ledger, ctx: Context, provider: Provider, curves: Curves, items: seq<Address>, w: W,
    results: seq<CurveResult>, i: nat)
    requires Exact(inner, l) && NeverFails(inner, ctx)
    requires Answered(curves, items, Outcomes(inner, ctx, provider, curves, items, w), results) && i < |items|
    requires items[i].id != 0 && items[i] != SOL_MINT && curves.derive(items[i]).Ok?
    ensures var address := curves.derive(items[i]).value;
            Shows(results[i], items[i], Eval(l, provider, curves.compute(address, items[i], SOL_MINT), []))
  {
    var token := items[i];
    var j := TurnOfItem(curves, items, i);
    var s := State(map[], PreloadStats(0, 0, 0), w);
    CurvesRefineSingle(inner, l, ctx, provider, curves, items, w, j, inner, ctx, s, results);
    CurveOutcome(inner, l, ctx, Direct, provider, curves, token, token, SOL_MINT, s);
    ShownOutcome(token, Eval(l, provider, curves.compute(curves.derive(token).value, token, SOL_MINT), []),
                 GetMetrics(inner, ctx, Direct, provider, curves, token, SOL_MINT, s).0);
  }

  /** The addresses primed are those of the curves asked for, and of no others. */
  lemma CurvesPrimed(curves: Curves, items: seq<Address>, a: Address)
    ensures a in ValidAddresses(curves, items) <==>
            exists token :: token in items && token.id != 0 && token != SOL_MINT && curves.derive(token) == Ok(a)
  {
    ValidMeaning(curves, items);
    var valid := Valid(curves, items);
    if token :| token in items && token.id != 0 && token != SOL_MINT && curves.derive(token) == Ok(a) {
      var i: nat :| i < |items| && items[i] == token;
      assert i in valid;
      var j: nat :| j < |valid| && valid[j] == i;
      assert ValidAddresses(curves, items)[j] == a;
    }
    if a in ValidAddresses(curves, items) {
      var j: nat :| j < |valid| && ValidAddresses(curves, items)[j] == a;
      var token := items[valid[j]];
      assert token in items && token.id != 0 && token != SOL_MINT && curves.derive(token) == Ok(a);
    }
  }

  /**
   * Priming: the one batch asks for every curve address, each once.  Where it fails the priming fails with that error;
   * a failure is always the client's own.  Otherwise every curve is cached.
   */
  lemma CurvesPriming<W(!new)>(inner: Client<W>, ctx: Context, curves: Curves, items: seq<Address>, w: W)
    requires ValidAddresses(curves, items) != []
    ensures var (failure, s) := Primed(inner, ctx, curves, items, w);
            var addresses := ValidAddresses(curves, items);
            var batch := inner.getMultipleAccounts(ctx, Fresh(addresses, {}), w).0;
            && (batch.Err? ==> failure == Some(batch.error))
            && match failure
               case Some(e) => ClientSaid(inner, ctx, addresses, e)
               case None => forall a :: a in addresses ==> a in s.cache
  {
    var addresses, none: Cache := ValidAddresses(curves, items), map[];
    assert none.Keys == {};
    FreshMembers(addresses, {});
    assert addresses[0] in Fresh(addresses, {});
    FetchAllOrNothing(inner, ctx, none, addresses, w);
    if Fetch(inner, ctx, none, addresses, w).reply.Err? {
      FetchFails(inner, ctx, none, addresses, w);
    }
  }

  /** After a failed priming every item with a curve shows its error. */
  lemma PrimingReaches<W>(
    inner: Client<W>, ctx: Context, provider: Provider, curves: Curves, items: seq<Address>, w: W,
    results: seq<CurveResult>, i: nat)
    requires Answered(curves, items, Outcomes(inner, ctx, provider, curves, items, w), results) && i < |items|
    requires items[i].id != 0 && items[i] != SOL_MINT && curves.derive(items[i]).Ok?
    requires Primed(inner, ctx, curves, items, w).0.Some?
    ensures var e := Primed(inner, ctx, curves, items, w).0.value;
            results[i] == CurveResult(items[i], None, Some(ToSDKError(e)))
  {
    var j := TurnOfItem(curves, items, i);
    assert Outcome(inner, ctx, provider, curves, items, w, j).0.Err?;
  }

  lemma TurnHonest<W(!new)>(
    inner: Client<W>, l: Ledger, ctx: Context, provider: Provider, curves: Curves, token: Address, s: State<W>)
    requires Exact(inner, l) && TableAgrees(l, s.cache) && Admissible(curves, token)
    ensures var p := curves.compute(curves.derive(token).value, token, SOL_MINT);
            exists outcome :: BranchMay(Desk(inner, ctx, Preloaded, provider), l, p, outcome)
                              && ComesTo(outcome, TurnOf(inner, ctx, provider, curves)(token, s).0)
  {
    var p := curves.compute(curves.derive(token).value, token, SOL_MINT);
    ExecuteHonest(Desk(inner, ctx, Preloaded, provider), l, p, [], s);
    assert ComesTo(Execute(inner, ctx, Preloaded, provider, p, [], s).0,
                   TurnOf(inner, ctx, provider, curves)(token, s).0);
  }

  /**
   * Over an exact client that may fail at any call: after a successful priming an item with a curve shows what the
   * calculator of that curve concludes from the ledger's answers and the client's own errors.
   */
  lemma CurveAccounted<W(!new)>(
    inner: Client<W>, l: Ledger, ctx: Context, provider: Provider, curves: Curves, items: seq<Address>, w: W,
    results: seq<CurveResult>, i: nat)
    requires Exact(inner, l) && Primed(inner, ctx, curves, items, w).0.None?
    requires Answered(curves, items, Outcomes(inner, ctx, provider, curves, items, w), results) && i < |items|
    requires items[i].id != 0 && items[i] != SOL_MINT && curves.derive(items[i]).Ok?
    ensures var p := curves.compute(curves.derive(items[i]).value, items[i], SOL_MINT);
            exists outcome :: BranchMay(Desk(inner, ctx, Preloaded, provider), l, p, outcome)
                              && Shows(results[i], items[i], outcome)
  {
    var token := items[i];
    var j := TurnOfItem(curves, items, i);
    var p := curves.compute(curves.derive(token).value, token, SOL_MINT);
    var s := Served(inner, ctx, provider, curves, items, w, j);
    ServedIsTrue(inner, l, ctx, provider, curves, items, w, j);
    TurnHonest(inner, l, ctx, provider, curves, token, s);
    var outcome :| BranchMay(Desk(inner, ctx, Preloaded, provider), l, p, outcome)
                   && ComesTo(outcome, TurnOf(inner, ctx, provider, curves)(token, s).0);
    ShownOutcome(token, outcome, TurnOf(inner, ctx, provider, curves)(token, s).0);
    assert Outcome(inner, ctx, provider, curves, items, w, j).0 == TurnOf(inner, ctx, provider, curves)(token, s).0;
  }

  /** What item after item adds to a counter. */
  function CurveCharges(k: Counter, l: Ledger, provider: Provider, curves: Curves, items: seq<Address>): int {
    if items == [] then 0
    else
      var token := items[|items| - 1];
      var rest := CurveCharges(k, l, provider, curves, items[..|items| - 1]);
      if token.id != 0 && token != SOL_MINT && curves.derive(token).Ok?
      then rest + Charges(k, l, Preloaded, provider, curves.compute(curves.derive(token).value, token, SOL_MINT), [])
      else rest
  }

  lemma {:induction false} ChargesOfValid(
    k: Counter, l: Ledger, provider: Provider, curves: Curves, items: seq<Address>)
    ensures CurveCharges(k, l, provider, curves, ValidTokens(curves, items))
            == CurveCharges(k, l, provider, curves, items)
  {
    if items != [] {
      var n := |items| - 1;
      var tokens, before := ValidTokens(curves, items), ValidTokens(curves, items[..n]);
      ChargesOfValid(k, l, provider, curves, items[..n]);
      if Admissible(curves, items[n]) {
        assert tokens == before + [items[n]];
        assert tokens[..|before|] == before;
      } else {
        assert tokens == before;
      }
    }
  }

  lemma TurnCounts<W(!new)>(
    k: Counter, inner: Client<W>, l: Ledger, ctx: Context, provider: Provider, curves: Curves,
    token: Address, s: State<W>)
    requires Exact(inner, l) && NeverFails(inner, ctx) && TableAgrees(l, s.cache) && Admissible(curves, token)
    ensures var p := curves.compute(curves.derive(token).value, token, SOL_MINT);
            var end := TurnOf(inner, ctx, provider, curves)(token, s).1;
            && TableAgrees(l, end.cache)
            && Count(k, end.stats) == Count(k, s.stats) + Charges(k, l, Preloaded, provider, p, [])
  {
    var p := curves.compute(curves.derive(token).value, token, SOL_MINT);
    ExecuteIsEval(inner, l, ctx, Preloaded, provider, p, [], s);
    ExecuteCounts(k, inner, l, ctx, Preloaded, provider, p, [], s);
  }

  lemma {:induction false} TurnsCount<W(!new)>(
    k: Counter, inner: Client<W>, l: Ledger, ctx: Context, provider: Provider, curves: Curves,
    tokens: seq<Address>, s: State<W>, j: nat)
    requires Exact(inner, l) && NeverFails(inner, ctx) && TableAgrees(l, s.cache) && j <= |tokens|
    requires forall token | token in tokens :: Admissible(curves, token)
    ensures var end := StateAfter(TurnOf(inner, ctx, provider, curves), None, tokens, s, j);
            && TableAgrees(l, end.cache)
            && Count(k, end.stats) == Count(k, s.stats) + CurveCharges(k, l, provider, curves, tokens[..j])
  {
    if j > 0 {
      var token := tokens[j - 1];
      assert token in tokens && Admissible(curves, token);
      var before := StateAfter(TurnOf(inner, ctx, provider, curves), None, tokens, s, j - 1);
      TurnsCount(k, inner, l, ctx, provider, curves, tokens, s, j - 1);
      TurnCounts(k, inner, l, ctx, provider, curves, token, before);
      assert tokens[..j][..j - 1] == tokens[..j - 1];
    }
  }

  /** Priming aside, the counters come to what the calculators read, item after item. */
  lemma CurvesCount<W(!new)>(
    k: Counter, inner: Client<W>, l: Ledger, ctx: Context, provider: Provider, curves: Curves, items: seq<Address>,
    w: W)
    requires Exact(inner, l) && NeverFails(inner, ctx)
    ensures Count(k, Served(inner, ctx, provider, curves, items, w, |Valid(curves, items)|).stats)
            == CurveCharges(k, l, provider, curves, items)
  {
    var tokens := ValidTokens(curves, items);
    var (failure, s) := Primed(inner, ctx, curves, items, w);
    PrimedIsTrue(inner, l, ctx, curves, items, w);
    FetchSucceeds(inner, ctx, map[], ValidAddresses(curves, items), w);
    assert failure.None? && Count(k, s.stats) == 0;
    TurnsCount(k, inner, l, ctx, provider, curves, tokens, s, |tokens|);
    assert tokens[..|tokens|] == tokens;
    ChargesOfValid(k, l, provider, curves, items);
  }
}
