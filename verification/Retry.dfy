/** sdk/rpc/retry_client.go: bounded retries with capped exponential backoff and jitter.  Durations are nanoseconds. */
module Retry {
  import opened Basics
  import opened Errors
  import opened Integers
  import opened Rpc

  datatype RetryConfig = RetryConfig(maxRetries: int, initialBackoff: int, maxBackoff: int, jitterFraction: real)

  /**
   * What retrying meets outside: the random draw of a wait, and ctx.Err() when the context ends during it, which may
   * depend on how long the wait is.
   */
  datatype Environment<!W> = Environment(draw: (nat, W) -> real, cut: (nat, int, W) -> Option<Error>)

  /** The context ends during no wait. */
  ghost predicate Endless<W(!new)>(env: Environment<W>) {
    forall k: nat, wait: int, w: W :: env.cut(k, wait, w).None?
  }

  function NextBackoff(current: int, max: int): int {
    var next := Wrap64(current * 2);
    if next > max then max else next
  }

  function Mix(draw: real, low: real, high: real): real {
    low + draw * (high - low)
  }

  /** applyJitter, with draw standing for rand.Float64(). */
  function ApplyJitter(backoff: int, jitterFraction: real, draw: real): int {
    if backoff <= 0 || jitterFraction <= 0.0 then backoff
    else Drawn(backoff as real, backoff as real * jitterFraction, draw)
  }

  /** A draw from [centre - delta, centre + delta], cut off at zero. */
  function Drawn(centre: real, delta: real, draw: real): int {
    var low, high := centre - delta, centre + delta;
    Mix(draw, if low < 0.0 then 0.0 else low, high).Floor
  }

  /** sleepWithBackoff: a wait that is not positive never looks at the context. */
  function Interruption<W>(env: Environment<W>, attempt: nat, wait: int, w: W): Option<Error> {
    if wait <= 0 then None else env.cut(attempt, wait, w)
  }

  type Attempt<!W, T> = W -> (Result<T, Error>, W)

  /** One withRetry call: its answer, the world after it, the error of every failed attempt, and the waits served. */
  datatype Retried<T, W> = Retried(reply: Result<T, Error>, world: W, errors: seq<Error>, waits: seq<int>) {
    function Calls(): nat { |errors| + if reply.Ok? then 1 else 0 }

    function After(errs: seq<Error>, served: seq<int>): Retried<T, W> {
      this.(errors := errs + errors, waits := served + waits)
    }
  }

  function RetryFrom<T, W>(cfg: RetryConfig, env: Environment<W>, fn: Attempt<W, T>, attempt: nat, backoff: int, w: W)
    : Retried<T, W>
    decreases cfg.maxRetries - attempt
  {
    var (out, w1) := fn(w);
    if out.Ok? then Retried(out, w1, [], [])
    else if attempt >= cfg.maxRetries || !IsRetryableError(out.error) then Retried(out, w1, [out.error], [])
    else
      var wait := ApplyJitter(backoff, cfg.jitterFraction, env.draw(attempt, w1));
      match Interruption(env, attempt, wait, w1)
      case Some(why) => Retried(Err(WrapClientError("retry_wait", why)), w1, [out.error], [])
      case None =>
        RetryFrom(cfg, env, fn, attempt + 1, NextBackoff(backoff, cfg.maxBackoff), w1).After([out.error], [wait])
  }

  method WithRetry<T, W>(cfg: RetryConfig, env: Environment<W>, fn: Attempt<W, T>, w: W)
    returns (reply: Result<T, Error>, world: W, errors: seq<Error>, waits: seq<int>)
    ensures Retried(reply, world, errors, waits) == RetryFrom(cfg, env, fn, 0, cfg.initialBackoff, w)
  {
    var backoff := cfg.initialBackoff;
    var attempt: nat := 0;
    world, errors, waits := w, [], [];
    while true
      invariant RetryFrom(cfg, env, fn, 0, cfg.initialBackoff, w)
             == RetryFrom(cfg, env, fn, attempt, backoff, world).After(errors, waits)
      decreases cfg.maxRetries - attempt
    {
      var (out, w1) := fn(world);
      if out.Ok? {
        return out, w1, errors, waits;
      }
      if attempt >= cfg.maxRetries || !IsRetryableError(out.error) {
        return out, w1, errors + [out.error], waits;
      }
      var wait := ApplyJitter(backoff, cfg.jitterFraction, env.draw(attempt, w1));
      var interruption := Interruption(env, attempt, wait, w1);
      if interruption.Some? {
        return Err(WrapClientError("retry_wait", interruption.value)), w1, errors + [out.error], waits;
      }
      ghost var rest := RetryFrom(cfg, env, fn, attempt + 1, NextBackoff(backoff, cfg.maxBackoff), w1);
      assert rest.After([out.error], [wait]).After(errors, waits)
          == rest.After(errors + [out.error], waits + [wait]) by {
        assert errors + ([out.error] + rest.errors) == errors + [out.error] + rest.errors;
        assert waits + ([wait] + rest.waits) == waits + [wait] + rest.waits;
      }
      backoff := NextBackoff(backoff, cfg.maxBackoff);
      errors, waits, world, attempt := errors + [out.error], waits + [wait], w1, attempt + 1;
    }
  }

  // ---- how often it calls, and why it stops ----

  /** A backoff after n steps of the loop. */
  function BackoffAfter(backoff: int, max: int, n: nat): int
    decreases n
  {
    if n == 0 then backoff else BackoffAfter(NextBackoff(backoff, max), max, n - 1)
  }

  /**
   * Between 1 and maxRetries+1 calls.  Every failed attempt but the last was retryable; so was the last one unless
   * it is the answer.  A final failure is the last attempt's, unless the context ended during the wait that followed.
   */
  lemma {:induction false} RetryStops<T, W>(
    cfg: RetryConfig, env: Environment<W>, fn: Attempt<W, T>, attempt: nat, backoff: int, w: W)
    requires attempt <= cfg.maxRetries
    ensures var r := RetryFrom(cfg, env, fn, attempt, backoff, w);
            && 1 <= r.Calls() <= cfg.maxRetries - attempt + 1
            && |r.waits| == r.Calls() - 1
            && (forall i | 0 <= i < |r.waits| :: IsRetryableError(r.errors[i]))
            && (r.reply.Err? ==>
                  var last := r.errors[|r.errors| - 1];
                  || (r.reply == Err(last)
                      && (r.Calls() == cfg.maxRetries - attempt + 1 || !IsRetryableError(last)))
                  || (r.Calls() <= cfg.maxRetries - attempt && IsRetryableError(last)
                      && var n := r.Calls() - 1;
                         var wait := ApplyJitter(BackoffAfter(backoff, cfg.maxBackoff, n), cfg.jitterFraction,
                                                 env.draw(attempt + n, r.world));
                         var why := env.cut(attempt + n, wait, r.world);
                         why.Some? && r.reply == Err(WrapClientError("retry_wait", why.value))))
    decreases cfg.maxRetries - attempt
  {
    var (out, w1) := fn(w);
    if out.Err? && attempt < cfg.maxRetries && IsRetryableError(out.error) {
      var wait := ApplyJitter(backoff, cfg.jitterFraction, env.draw(attempt, w1));
      if Interruption(env, attempt, wait, w1).None? {
        RetryStops(cfg, env, fn, attempt + 1, NextBackoff(backoff, cfg.maxBackoff), w1);
      }
    }
  }

  /** The world after n attempts. */
  function WorldAfter<T, W>(fn: Attempt<W, T>, w: W, n: nat): W {
    if n == 0 then w else WorldAfter(fn, fn(w).1, n - 1)
  }

  /** A successful answer is the wrapped call's own, in the world its earlier attempts left behind. */
  lemma {:induction false} RetryAnswers<T, W>(
    cfg: RetryConfig, env: Environment<W>, fn: Attempt<W, T>, attempt: nat, backoff: int, w: W)
    requires RetryFrom(cfg, env, fn, attempt, backoff, w).reply.Ok?
    ensures var r := RetryFrom(cfg, env, fn, attempt, backoff, w);
            fn(WorldAfter(fn, w, r.Calls() - 1)) == (r.reply, r.world)
    decreases cfg.maxRetries - attempt
  {
    var (out, w1) := fn(w);
    if out.Err? {
      RetryAnswers(cfg, env, fn, attempt + 1, NextBackoff(backoff, cfg.maxBackoff), w1);
    }
  }

  /** Error i of the record is what the wrapped call returned at attempt i, in the world its earlier attempts left. */
  ghost predicate Records<T, W>(fn: Attempt<W, T>, w: W, errors: seq<Error>) {
    forall i | 0 <= i < |errors| :: fn(WorldAfter(fn, w, i)).0 == Err(errors[i])
  }

  /** Every error on record is the wrapped call's own, and so are the answer and the world the call leaves. */
  lemma {:induction false} RetryReports<T, W>(
    cfg: RetryConfig, env: Environment<W>, fn: Attempt<W, T>, attempt: nat, backoff: int, w: W)
    requires attempt <= cfg.maxRetries
    ensures var r := RetryFrom(cfg, env, fn, attempt, backoff, w);
            && Records(fn, w, r.errors)
            && r.Calls() >= 1 && r.world == fn(WorldAfter(fn, w, r.Calls() - 1)).1
            && (r.reply.Ok? ==> r.reply == fn(WorldAfter(fn, w, r.Calls() - 1)).0)
    decreases cfg.maxRetries - attempt
  {
    var (out, w1) := fn(w);
    if out.Err? && attempt < cfg.maxRetries && IsRetryableError(out.error) {
      var wait := ApplyJitter(backoff, cfg.jitterFraction, env.draw(attempt, w1));
      if Interruption(env, attempt, wait, w1).None? {
        var next := RetryFrom(cfg, env, fn, attempt + 1, NextBackoff(backoff, cfg.maxBackoff), w1);
        RetryReports(cfg, env, fn, attempt + 1, NextBackoff(backoff, cfg.maxBackoff), w1);
        RecordsGrow(fn, w, next.errors);
      }
    }
  }

  lemma RecordsGrow<T, W>(fn: Attempt<W, T>, w: W, errors: seq<Error>)
    requires fn(w).0.Err? && Records(fn, fn(w).1, errors)
    ensures Records(fn, w, [fn(w).0.error] + errors)
  {
    var all := [fn(w).0.error] + errors;
    forall i | 0 <= i < |all|
      ensures fn(WorldAfter(fn, w, i)).0 == Err(all[i])
    {
      if i > 0 {
        assert fn(WorldAfter(fn, fn(w).1, i - 1)).0 == Err(errors[i - 1]);
      }
    }
  }

  /** In a context that does not end, the last attempt decides, be it an answer or a failure. */
  lemma RetryIsLastAttempt<T, W(!new)>(
    cfg: RetryConfig, env: Environment<W>, fn: Attempt<W, T>, attempt: nat, backoff: int, w: W)
    requires attempt <= cfg.maxRetries && Endless(env)
    ensures var r := RetryFrom(cfg, env, fn, attempt, backoff, w);
            && r.Calls() >= 1 && fn(WorldAfter(fn, w, r.Calls() - 1)) == (r.reply, r.world)
            && forall i | 0 <= i < |r.errors| :: fn(WorldAfter(fn, w, i)).0 == Err(r.errors[i])
  {
    var r := RetryFrom(cfg, env, fn, attempt, backoff, w);
    RetryReports(cfg, env, fn, attempt, backoff, w);
    RetryStops(cfg, env, fn, attempt, backoff, w);
    if r.reply.Err? {
      assert fn(WorldAfter(fn, w, |r.errors| - 1)).0 == Err(r.errors[|r.errors| - 1]);
    }
  }

  ghost predicate FailsThenAnswers<T, W>(fn: Attempt<W, T>, w: W, failures: nat) {
    && fn(WorldAfter(fn, w, failures)).0.Ok?
    && forall i: nat | i < failures ::
         fn(WorldAfter(fn, w, i)).0.Err? && IsRetryableError(fn(WorldAfter(fn, w, i)).0.error)
  }

  /** Left alone by the context, it gets an answer exactly when the transient failures do not outnumber the retries. */
  lemma {:induction false} RetryMasks<T, W(!new)>(
    cfg: RetryConfig, env: Environment<W>, fn: Attempt<W, T>, attempt: nat, backoff: int, w: W, failures: nat)
    requires attempt <= cfg.maxRetries
    requires FailsThenAnswers(fn, w, failures)
    requires Endless(env)
    ensures var r := RetryFrom(cfg, env, fn, attempt, backoff, w);
            && (r.reply.Ok? <==> failures <= cfg.maxRetries - attempt)
            && (r.reply.Ok? ==> r.reply == fn(WorldAfter(fn, w, failures)).0 && r.Calls() == failures + 1)
    decreases failures
  {
    if failures > 0 {
      assert WorldAfter(fn, w, 0) == w;
      var w1 := fn(w).1;
      forall i: nat | i < failures - 1
        ensures fn(WorldAfter(fn, w1, i)).0.Err? && IsRetryableError(fn(WorldAfter(fn, w1, i)).0.error)
      {
        assert WorldAfter(fn, w1, i) == WorldAfter(fn, w, i + 1);
      }
      if attempt < cfg.maxRetries {
        RetryMasks(cfg, env, fn, attempt + 1, NextBackoff(backoff, cfg.maxBackoff), w1, failures - 1);
      }
    }
  }

  /** Of n + 1 calls in a row from w one answers, and those before it fail in ways worth a retry. */
  predicate AnswersWithin<T, W>(fn: Attempt<W, T>, w: W, n: nat) {
    fn(w).0.Ok? || (n > 0 && IsRetryableError(fn(w).0.error) && AnswersWithin(fn, fn(w).1, n - 1))
  }

  /** A retryable failure with attempts left hands on to the next attempt. */
  lemma OneMoreAttempt<T, W(!new)>(
    cfg: RetryConfig, env: Environment<W>, fn: Attempt<W, T>, attempt: nat, backoff: int, w: W)
    requires fn(w).0.Err? && IsRetryableError(fn(w).0.error) && attempt < cfg.maxRetries
    requires Endless(env)
    ensures RetryFrom(cfg, env, fn, attempt, backoff, w).reply
         == RetryFrom(cfg, env, fn, attempt + 1, NextBackoff(backoff, cfg.maxBackoff), fn(w).1).reply
  {
  }

  /** Left alone by the context, a retried call answers exactly when one of its attempts in a row does. */
  lemma {:induction false} RetryAnswersExactly<T, W(!new)>(
    cfg: RetryConfig, env: Environment<W>, fn: Attempt<W, T>, attempt: nat, backoff: int, w: W)
    requires attempt <= cfg.maxRetries && Endless(env)
    ensures RetryFrom(cfg, env, fn, attempt, backoff, w).reply.Ok? <==> AnswersWithin(fn, w, cfg.maxRetries - attempt)
    decreases cfg.maxRetries - attempt
  {
    if fn(w).0.Err? && attempt < cfg.maxRetries && IsRetryableError(fn(w).0.error) {
      OneMoreAttempt(cfg, env, fn, attempt, backoff, w);
      RetryAnswersExactly(cfg, env, fn, attempt + 1, NextBackoff(backoff, cfg.maxBackoff), fn(w).1);
    }
  }

  // ---- how long it waits ----

  function Min(a: int, b: int): int { if a <= b then a else b }

  /** The backoff used before retry k (counting from 0). */
  function BackoffAt(cfg: RetryConfig, k: nat): int {
    if k == 0 then cfg.initialBackoff else NextBackoff(BackoffAt(cfg, k - 1), cfg.maxBackoff)
  }

  /** Doubling is capped doubling exactly as long as the double still fits; past that it turns negative. */
  lemma NextBackoffExact(current: int, max: int)
    requires 0 < current < TWO_63 && 0 < max < TWO_63
    ensures NextBackoff(current, max) == Min(2 * current, max) <==> 2 * current < TWO_63
    ensures 2 * current >= TWO_63 ==> NextBackoff(current, max) < 0
  {
    if 2 * current >= TWO_63 {
      assert (2 * current) % TWO_64 == 2 * current;
    }
  }

  lemma DoubleCapped(x: int, max: int)
    requires 0 < x && 0 < max < TWO_62
    requires x < TWO_62 || x >= max
    ensures NextBackoff(Min(x, max), max) == Min(2 * x, max)
  {
    NextBackoffExact(Min(x, max), max);
  }

  lemma TimesPow2(x: int, k: nat)
    requires x > 0
    ensures x * Pow2(k) >= x
    ensures x * Pow2(k + 1) == 2 * (x * Pow2(k))
  {
    var p := Pow2(k);
    assert x * (p - 1) >= 0;
  }

  lemma {:induction false} BackoffClosedForm(cfg: RetryConfig, k: nat)
    requires 0 < cfg.initialBackoff < TWO_62 && 0 < cfg.maxBackoff < TWO_62
    ensures BackoffAt(cfg, k)
         == if k == 0 then cfg.initialBackoff else Min(cfg.initialBackoff * Pow2(k), cfg.maxBackoff)
    ensures 0 < BackoffAt(cfg, k) < TWO_62
  {
    if k == 1 {
      TimesPow2(cfg.initialBackoff, 0);
      NextBackoffExact(cfg.initialBackoff, cfg.maxBackoff);
    } else if k > 1 {
      BackoffClosedForm(cfg, k - 1);
      TimesPow2(cfg.initialBackoff, k - 1);
      DoubleCapped(cfg.initialBackoff * Pow2(k - 1), cfg.maxBackoff);
    }
  }

  ghost predicate UnitDraws<W(!new)>(env: Environment<W>) {
    forall k: nat, w: W :: 0.0 <= env.draw(k, w) <= 1.0
  }

  lemma Between(draw: real, low: real, high: real)
    requires 0.0 <= draw <= 1.0 && low <= high
    ensures low <= Mix(draw, low, high) <= high
  {
    var spread := high - low;
    assert 0.0 <= draw * spread;
    assert (1.0 - draw) * spread >= 0.0;
  }

  lemma DrawnRange(centre: real, delta: real, draw: real)
    requires centre >= 0.0 && delta >= 0.0 && 0.0 <= draw <= 1.0
    ensures 0 <= Drawn(centre, delta, draw)
    ensures centre - delta - 1.0 < Drawn(centre, delta, draw) as real <= centre + delta
  {
    Between(draw, if centre - delta < 0.0 then 0.0 else centre - delta, centre + delta);
  }

  /** A jittered wait lies within the jitter fraction of its backoff, rounded down, and never below zero. */
  lemma JitterRange(backoff: int, jitterFraction: real, draw: real, delta: real)
    requires backoff >= 0 && jitterFraction >= 0.0 && 0.0 <= draw <= 1.0
    requires delta == backoff as real * jitterFraction
    ensures var wait := ApplyJitter(backoff, jitterFraction, draw);
            0 <= wait && backoff as real - delta - 1.0 < wait as real <= backoff as real + delta
  {
    if backoff == 0 || jitterFraction == 0.0 {
      assert delta == 0.0;
    } else {
      assert delta >= 0.0;
      DrawnRange(backoff as real, delta, draw);
    }
  }

  ghost predicate IsJittered(wait: int, backoff: int, jitterFraction: real) {
    exists draw: real :: 0.0 <= draw <= 1.0 && wait == ApplyJitter(backoff, jitterFraction, draw)
  }

  ghost predicate AllJittered(waits: seq<int>, cfg: RetryConfig, attempt: nat) {
    forall i | 0 <= i < |waits| :: IsJittered(waits[i], BackoffAt(cfg, attempt + i), cfg.jitterFraction)
  }

  /** Wait k is the jittered k-th backoff. */
  lemma {:induction false} EachWait<T, W(!new)>(
    cfg: RetryConfig, env: Environment<W>, fn: Attempt<W, T>, attempt: nat, w: W)
    requires UnitDraws(env)
    ensures AllJittered(RetryFrom(cfg, env, fn, attempt, BackoffAt(cfg, attempt), w).waits, cfg, attempt)
    decreases cfg.maxRetries - attempt
  {
    var backoff := BackoffAt(cfg, attempt);
    var (out, w1) := fn(w);
    if out.Err? && attempt < cfg.maxRetries && IsRetryableError(out.error) {
      var wait := ApplyJitter(backoff, cfg.jitterFraction, env.draw(attempt, w1));
      if Interruption(env, attempt, wait, w1).None? {
        assert IsJittered(wait, backoff, cfg.jitterFraction);
        EachWait(cfg, env, fn, attempt + 1, w1);
        AddWait(cfg, attempt, wait, RetryFrom(cfg, env, fn, attempt + 1, BackoffAt(cfg, attempt + 1), w1).waits);
      }
    }
  }

  lemma AddWait(cfg: RetryConfig, attempt: nat, wait: int, rest: seq<int>)
    requires IsJittered(wait, BackoffAt(cfg, attempt), cfg.jitterFraction)
    requires AllJittered(rest, cfg, attempt + 1)
    ensures AllJittered([wait] + rest, cfg, attempt)
  {
    var waits := [wait] + rest;
    forall i | 0 < i < |waits|
      ensures IsJittered(waits[i], BackoffAt(cfg, attempt + i), cfg.jitterFraction)
    {
      assert IsJittered(rest[i - 1], BackoffAt(cfg, attempt + 1 + (i - 1)), cfg.jitterFraction);
    }
  }

  /** The unjittered waiting ahead of an attempt when every retry is used. */
  function WaitAhead(cfg: RetryConfig, attempt: nat): int
    decreases cfg.maxRetries - attempt
  {
    if attempt >= cfg.maxRetries then 0 else BackoffAt(cfg, attempt) + WaitAhead(cfg, attempt + 1)
  }

  lemma {:induction false} WaitAheadNonNegative(cfg: RetryConfig, attempt: nat)
    requires 0 < cfg.initialBackoff < TWO_62 && 0 < cfg.maxBackoff < TWO_62
    ensures 0 <= WaitAhead(cfg, attempt)
    decreases cfg.maxRetries - attempt
  {
    if attempt < cfg.maxRetries {
      BackoffClosedForm(cfg, attempt);
      WaitAheadNonNegative(cfg, attempt + 1);
    }
  }

  lemma {:induction false} WaitAheadBound(cfg: RetryConfig, attempt: nat)
    requires 1 <= attempt <= cfg.maxRetries
    requires 0 < cfg.initialBackoff < TWO_62 && 0 < cfg.maxBackoff < TWO_62
    ensures WaitAhead(cfg, attempt) <= (cfg.maxRetries - attempt) * cfg.maxBackoff
    decreases cfg.maxRetries - attempt
  {
    if attempt < cfg.maxRetries {
      WaitAheadBound(cfg, attempt + 1);
      BackoffClosedForm(cfg, attempt);
      OneLess(cfg.maxRetries - attempt, cfg.maxBackoff);
    }
  }

  lemma OneLess(n: int, x: int)
    ensures (n - 1) * x == n * x - x
  {
  }

  /** Scaling by a non-negative factor, as far as sums and order can tell. */
  ghost predicate Scaling(up: real -> real) {
    && up(0.0) == 0.0
    && (forall a: real, b: real :: up(a + b) == up(a) + up(b))
    && (forall a: real, b: real :: a <= b ==> up(a) <= up(b))
  }

  lemma {:induction false} SumOfWaits(cfg: RetryConfig, attempt: nat, waits: seq<int>, up: real -> real)
    requires attempt + |waits| <= cfg.maxRetries && Scaling(up)
    requires 0 < cfg.initialBackoff < TWO_62 && 0 < cfg.maxBackoff < TWO_62
    requires forall i | 0 <= i < |waits| :: waits[i] as real <= up(BackoffAt(cfg, attempt + i) as real)
    ensures Sum(waits) as real <= up(WaitAhead(cfg, attempt) as real)
    decreases |waits|
  {
    if waits == [] {
      WaitAheadNonNegative(cfg, attempt);
      assert up(0.0) <= up(WaitAhead(cfg, attempt) as real);
    } else {
      forall i | 0 <= i < |waits[1..]|
        ensures waits[1..][i] as real <= up(BackoffAt(cfg, attempt + 1 + i) as real)
      {
        assert waits[i + 1] as real <= up(BackoffAt(cfg, attempt + (i + 1)) as real);
      }
      SumOfWaits(cfg, attempt + 1, waits[1..], up);
      assert waits[0] as real <= up(BackoffAt(cfg, attempt + 0) as real);
      var first, later := BackoffAt(cfg, attempt) as real, WaitAhead(cfg, attempt + 1) as real;
      assert up(first + later) == up(first) + up(later);
    }
  }

  /** Scaling by 1 + j, the most a wait can be stretched. */
  function Stretch(jitterFraction: real): real -> real {
    x => x + jitterFraction * x
  }

  lemma StretchAdds(jitterFraction: real, a: real, b: real)
    ensures Stretch(jitterFraction)(a + b) == Stretch(jitterFraction)(a) + Stretch(jitterFraction)(b)
  {
  }

  lemma StretchGrows(jitterFraction: real, a: real, b: real)
    requires jitterFraction >= 0.0 && a <= b
    ensures Stretch(jitterFraction)(a) <= Stretch(jitterFraction)(b)
  {
    assert jitterFraction * (b - a) >= 0.0;
  }

  lemma StretchScales(jitterFraction: real)
    requires jitterFraction >= 0.0
    ensures Scaling(Stretch(jitterFraction))
  {
    var up := Stretch(jitterFraction);
    forall a: real, b: real
      ensures up(a + b) == up(a) + up(b)
    {
      StretchAdds(jitterFraction, a, b);
    }
    forall a: real, b: real | a <= b
      ensures up(a) <= up(b)
    {
      StretchGrows(jitterFraction, a, b);
    }
  }

  lemma JitteredAtMost(wait: int, backoff: int, jitterFraction: real)
    requires backoff >= 0 && jitterFraction >= 0.0 && IsJittered(wait, backoff, jitterFraction)
    ensures wait as real <= Stretch(jitterFraction)(backoff as real)
  {
    var draw: real :| 0.0 <= draw <= 1.0 && wait == ApplyJitter(backoff, jitterFraction, draw);
    JitterRange(backoff, jitterFraction, draw, backoff as real * jitterFraction);
  }

  lemma WaitsAtMost(cfg: RetryConfig, attempt: nat, waits: seq<int>)
    requires cfg.jitterFraction >= 0.0 && AllJittered(waits, cfg, attempt)
    requires 0 < cfg.initialBackoff < TWO_62 && 0 < cfg.maxBackoff < TWO_62
    ensures forall i | 0 <= i < |waits| ::
              waits[i] as real <= Stretch(cfg.jitterFraction)(BackoffAt(cfg, attempt + i) as real)
  {
    forall i | 0 <= i < |waits|
      ensures waits[i] as real <= Stretch(cfg.jitterFraction)(BackoffAt(cfg, attempt + i) as real)
    {
      BackoffClosedForm(cfg, attempt + i);
      JitteredAtMost(waits[i], BackoffAt(cfg, attempt + i), cfg.jitterFraction);
    }
  }

  /** From any attempt on, the waits add up to at most (1 + j) times the unjittered waiting ahead. */
  lemma TotalWait<T, W(!new)>(cfg: RetryConfig, env: Environment<W>, fn: Attempt<W, T>, attempt: nat, w: W)
    requires attempt <= cfg.maxRetries && cfg.jitterFraction >= 0.0 && UnitDraws(env)
    requires 0 < cfg.initialBackoff < TWO_62 && 0 < cfg.maxBackoff < TWO_62
    ensures Sum(RetryFrom(cfg, env, fn, attempt, BackoffAt(cfg, attempt), w).waits) as real
         <= Stretch(cfg.jitterFraction)(WaitAhead(cfg, attempt) as real)
  {
    var waits := RetryFrom(cfg, env, fn, attempt, BackoffAt(cfg, attempt), w).waits;
    assert attempt + |waits| <= cfg.maxRetries by {
      RetryStops(cfg, env, fn, attempt, BackoffAt(cfg, attempt), w);
    }
    StretchScales(cfg.jitterFraction);
    EachWait(cfg, env, fn, attempt, w);
    WaitsAtMost(cfg, attempt, waits);
    SumOfWaits(cfg, attempt, waits, Stretch(cfg.jitterFraction));
  }

  /** Used up, the retries of a whole call wait at most initial + (maxRetries - 1) max before jitter. */
  lemma WaitAheadOfCall(cfg: RetryConfig)
    requires cfg.maxRetries >= 1
    requires 0 < cfg.initialBackoff < TWO_62 && 0 < cfg.maxBackoff < TWO_62
    ensures BackoffAt(cfg, 0) == cfg.initialBackoff
    ensures 0 < WaitAhead(cfg, 0) <= cfg.initialBackoff + (cfg.maxRetries - 1) * cfg.maxBackoff
  {
    WaitAheadBound(cfg, 1);
    WaitAheadNonNegative(cfg, 1);
  }

  /** All the waiting of one withRetry call: at most (1 + j) (initial + (maxRetries - 1) max). */
  lemma CallWait<T, W(!new)>(cfg: RetryConfig, env: Environment<W>, fn: Attempt<W, T>, w: W)
    requires cfg.maxRetries >= 1 && cfg.jitterFraction >= 0.0 && UnitDraws(env)
    requires 0 < cfg.initialBackoff < TWO_62 && 0 < cfg.maxBackoff < TWO_62
    ensures Sum(RetryFrom(cfg, env, fn, 0, cfg.initialBackoff, w).waits) as real
         <= Stretch(cfg.jitterFraction)((cfg.initialBackoff + (cfg.maxRetries - 1) * cfg.maxBackoff) as real)
  {
    WaitAheadOfCall(cfg);
    TotalWait(cfg, env, fn, 0, w);
    StretchGrows(cfg.jitterFraction, WaitAhead(cfg, 0) as real,
                 (cfg.initialBackoff + (cfg.maxRetries - 1) * cfg.maxBackoff) as real);
  }

  // ---- the client ----

  function Defaulted(cfg: RetryConfig): RetryConfig {
    RetryConfig(
      cfg.maxRetries,
      if cfg.initialBackoff <= 0 then 100_000_000 else cfg.initialBackoff,
      if cfg.maxBackoff <= 0 then 2_000_000_000 else cfg.maxBackoff,
      if cfg.jitterFraction < 0.0 then 0.0 else cfg.jitterFraction)
  }

  function Wrapped<T, W>(operation: string, reply: (Result<T, Error>, W)): (Result<T, Error>, W) {
    if reply.0.Err? then (Err(WrapClientError(operation, reply.0.error)), reply.1) else reply
  }

  function Retrying<T, W>(cfg: RetryConfig, env: Environment<W>, fn: Attempt<W, T>, w: W): (Result<T, Error>, W) {
    var r := RetryFrom(cfg, env, fn, 0, cfg.initialBackoff, w);
    (r.reply, r.world)
  }

  function OperationName(q: Query): string {
    match q
    case TokenSupply(_) => "get_token_supply"
    case Other(operation, _) => operation
  }

  function NewRetryClient<W>(inner: Client<W>, config: RetryConfig, env: Environment<W>): Client<W> {
    if config.maxRetries <= 0 then inner
    else
      var cfg := Defaulted(config);
      Client(
        (ctx: Context, a: Address, w: W) =>
          Retrying(cfg, env, (w': W) => Wrapped("get_account", inner.getAccount(ctx, a, w')), w),
        (ctx: Context, addresses: seq<Address>, w: W) =>
          Retrying(cfg, env,
                   (w': W) => Wrapped("get_multiple_accounts", inner.getMultipleAccounts(ctx, addresses, w')), w),
        (ctx: Context, q: Query, w: W) =>
          Retrying(cfg, env, (w': W) => Wrapped(OperationName(q), inner.query(ctx, q, w')), w))
  }

  // ---- what it answers ----

  function AccountCall<W>(c: Client<W>, ctx: Context, a: Address): Attempt<W, Info> {
    (w: W) => c.getAccount(ctx, a, w)
  }

  function BatchCall<W>(c: Client<W>, ctx: Context, addresses: seq<Address>): Attempt<W, Infos> {
    (w: W) => c.getMultipleAccounts(ctx, addresses, w)
  }

  function QueryCall<W>(c: Client<W>, ctx: Context, q: Query): Attempt<W, Datum> {
    (w: W) => c.query(ctx, q, w)
  }

  lemma {:induction false} SameWorlds<T, W(!new)>(
    operation: string, fn: Attempt<W, T>, wrapped: Attempt<W, T>, w: W, n: nat)
    requires forall w': W :: wrapped(w') == Wrapped(operation, fn(w'))
    ensures WorldAfter(wrapped, w, n) == WorldAfter(fn, w, n)
  {
    if n > 0 {
      SameWorlds(operation, fn, wrapped, fn(w).1, n - 1);
    }
  }

  /** The reply is what the call itself gives after at most `most` attempts of its own. */
  ghost predicate GivenWithin<T, W>(fn: Attempt<W, T>, w: W, most: int, reply: Result<T, Error>) {
    exists n: nat :: n <= most && fn(WorldAfter(fn, w, n)).0 == reply
  }

  lemma AnsweringCall<T, W>(cfg: RetryConfig, env: Environment<W>, fn: Attempt<W, T>, w: W) returns (n: nat)
    requires cfg.maxRetries > 0 && Retrying(cfg, env, fn, w).0.Ok?
    ensures n <= cfg.maxRetries && fn(WorldAfter(fn, w, n)).0 == Retrying(cfg, env, fn, w).0
  {
    RetryAnswers(cfg, env, fn, 0, cfg.initialBackoff, w);
    RetryStops(cfg, env, fn, 0, cfg.initialBackoff, w);
    n := RetryFrom(cfg, env, fn, 0, cfg.initialBackoff, w).Calls() - 1;
  }

  lemma RetryingAnswers<T, W(!new)>(
    config: RetryConfig, env: Environment<W>, operation: string, fn: Attempt<W, T>, wrapped: Attempt<W, T>, w: W)
    requires config.maxRetries > 0
    requires forall w': W :: wrapped(w') == Wrapped(operation, fn(w'))
    requires Retrying(Defaulted(config), env, wrapped, w).0.Ok?
    ensures GivenWithin(fn, w, config.maxRetries, Retrying(Defaulted(config), env, wrapped, w).0)
  {
    var n := AnsweringCall(Defaulted(config), env, wrapped, w);
    SameWorlds(operation, fn, wrapped, w, n);
    assert fn(WorldAfter(fn, w, n)).0 == Retrying(Defaulted(config), env, wrapped, w).0;
  }

  /** Whatever it answers, the inner client answered to the same request, within maxRetries + 1 attempts from there. */
  lemma RetryClientAnswers<W(!new)>(inner: Client<W>, config: RetryConfig, env: Environment<W>)
    ensures var c, most := NewRetryClient(inner, config, env), if config.maxRetries > 0 then config.maxRetries else 0;
            && (forall ctx: Context, a: Address, w: W :: c.getAccount(ctx, a, w).0.Ok? ==>
                  GivenWithin(AccountCall(inner, ctx, a), w, most, c.getAccount(ctx, a, w).0))
            && (forall ctx: Context, addresses: seq<Address>, w: W :: c.getMultipleAccounts(ctx, addresses, w).0.Ok? ==>
                  GivenWithin(BatchCall(inner, ctx, addresses), w, most, c.getMultipleAccounts(ctx, addresses, w).0))
            && (forall ctx: Context, q: Query, w: W :: c.query(ctx, q, w).0.Ok? ==>
                  GivenWithin(QueryCall(inner, ctx, q), w, most, c.query(ctx, q, w).0))
  {
    var c := NewRetryClient(inner, config, env);
    forall ctx: Context, a: Address, w: W | c.getAccount(ctx, a, w).0.Ok?
      ensures GivenWithin(AccountCall(inner, ctx, a), w, if config.maxRetries > 0 then config.maxRetries else 0,
                          c.getAccount(ctx, a, w).0)
    {
      if config.maxRetries > 0 {
        RetryingAnswers(config, env, "get_account", AccountCall(inner, ctx, a),
                        (w': W) => Wrapped("get_account", inner.getAccount(ctx, a, w')), w);
      } else {
        assert AccountCall(inner, ctx, a)(WorldAfter(AccountCall(inner, ctx, a), w, 0)).0 == c.getAccount(ctx, a, w).0;
      }
    }
    forall ctx: Context, addresses: seq<Address>, w: W | c.getMultipleAccounts(ctx, addresses, w).0.Ok?
      ensures GivenWithin(BatchCall(inner, ctx, addresses), w, if config.maxRetries > 0 then config.maxRetries else 0,
                          c.getMultipleAccounts(ctx, addresses, w).0)
    {
      if config.maxRetries > 0 {
        RetryingAnswers(config, env, "get_multiple_accounts", BatchCall(inner, ctx, addresses),
                        (w': W) => Wrapped("get_multiple_accounts", inner.getMultipleAccounts(ctx, addresses, w')), w);
      } else {
        assert BatchCall(inner, ctx, addresses)(WorldAfter(BatchCall(inner, ctx, addresses), w, 0)).0
            == c.getMultipleAccounts(ctx, addresses, w).0;
      }
    }
    forall ctx: Context, q: Query, w: W | c.query(ctx, q, w).0.Ok?
      ensures GivenWithin(QueryCall(inner, ctx, q), w, if config.maxRetries > 0 then config.maxRetries else 0,
                          c.query(ctx, q, w).0)
    {
      if config.maxRetries > 0 {
        RetryingAnswers(config, env, OperationName(q), QueryCall(inner, ctx, q),
                        (w': W) => Wrapped(OperationName(q), inner.query(ctx, q, w')), w);
      } else {
        assert QueryCall(inner, ctx, q)(WorldAfter(QueryCall(inner, ctx, q), w, 0)).0 == c.query(ctx, q, w).0;
      }
    }
  }

  // ---- what it fails with ----

  /**
   * The error is that of call n of those made in a row: as it is where there is a ClientError in its chain, else
   * wrapped under the name of the operation.  Calls before it failed retryably; it is the last of the retries, or not
   * retryable.
   */
  ghost predicate GivesUpAt<T, W>(fn: Attempt<W, T>, w: W, n: nat, retries: int, operation: string, e: Error) {
    && n <= retries
    && (forall i: nat | i < n ::
          fn(WorldAfter(fn, w, i)).0.Err? && IsRetryableError(fn(WorldAfter(fn, w, i)).0.error))
    && fn(WorldAfter(fn, w, n)).0.Err?
    && var last := fn(WorldAfter(fn, w, n)).0.error;
       && (n == retries || !IsRetryableError(last))
       && e == if OutermostClientError(last).Some? then last
               else ClientError(operation, ClassifyError(last), Some(last))
  }

  lemma WrappingKeepsRetryable(operation: string, e: Error)
    ensures IsRetryableError(WrapClientError(operation, e)) <==> IsRetryableError(e)
  {
    WrappingKeepsKind([operation], e);
    assert WrapAll([operation], e) == WrapClientError(operation, e) by {
      assert [operation][1..] == [];
    }
  }

  lemma WrappedFailure<T, W(!new)>(
    operation: string, fn: Attempt<W, T>, wrapped: Attempt<W, T>, w: W, i: nat, e: Error)
    requires forall w': W :: wrapped(w') == Wrapped(operation, fn(w'))
    requires wrapped(WorldAfter(wrapped, w, i)).0 == Err(e)
    ensures var reply := fn(WorldAfter(fn, w, i)).0;
            && reply.Err? && e == WrapClientError(operation, reply.error)
            && (IsRetryableError(reply.error) <==> IsRetryableError(e))
  {
    SameWorlds(operation, fn, wrapped, w, i);
    WrappingKeepsRetryable(operation, fn(WorldAfter(fn, w, i)).0.error);
  }

  lemma FailingCall<T, W(!new)>(cfg: RetryConfig, env: Environment<W>, fn: Attempt<W, T>, w: W) returns (n: nat)
    requires cfg.maxRetries > 0 && Endless(env) && Retrying(cfg, env, fn, w).0.Err?
    ensures n <= cfg.maxRetries && fn(WorldAfter(fn, w, n)).0 == Retrying(cfg, env, fn, w).0
    ensures n == cfg.maxRetries || !IsRetryableError(Retrying(cfg, env, fn, w).0.error)
    ensures forall i: nat | i < n ::
              fn(WorldAfter(fn, w, i)).0.Err? && IsRetryableError(fn(WorldAfter(fn, w, i)).0.error)
  {
    var r := RetryFrom(cfg, env, fn, 0, cfg.initialBackoff, w);
    RetryReports(cfg, env, fn, 0, cfg.initialBackoff, w);
    RetryStops(cfg, env, fn, 0, cfg.initialBackoff, w);
    n := r.Calls() - 1;
    assert fn(WorldAfter(fn, w, n)).0 == Err(r.errors[n]);
  }

  lemma RetryingFails<T, W(!new)>(
    config: RetryConfig, env: Environment<W>, operation: string, fn: Attempt<W, T>, wrapped: Attempt<W, T>, w: W)
    requires config.maxRetries > 0 && Endless(env)
    requires forall w': W :: wrapped(w') == Wrapped(operation, fn(w'))
    requires Retrying(Defaulted(config), env, wrapped, w).0.Err?
    ensures exists n: nat ::
              GivesUpAt(fn, w, n, config.maxRetries, operation, Retrying(Defaulted(config), env, wrapped, w).0.error)
  {
    var n := FailingCall(Defaulted(config), env, wrapped, w);
    forall i: nat | i <= n
      ensures fn(WorldAfter(fn, w, i)).0.Err?
      ensures var e := wrapped(WorldAfter(wrapped, w, i)).0.error;
              && e == WrapClientError(operation, fn(WorldAfter(fn, w, i)).0.error)
              && (IsRetryableError(fn(WorldAfter(fn, w, i)).0.error) <==> IsRetryableError(e))
    {
      WrappedFailure(operation, fn, wrapped, w, i, wrapped(WorldAfter(wrapped, w, i)).0.error);
    }
    assert GivesUpAt(fn, w, n, config.maxRetries, operation, Retrying(Defaulted(config), env, wrapped, w).0.error);
  }

  /** In contexts that do not end, whatever the retry client fails with, its inner client failed with in that call. */
  lemma RetryClientFails<W(!new)>(inner: Client<W>, config: RetryConfig, env: Environment<W>, ctx: Context, w: W)
    requires config.maxRetries > 0 && Endless(env)
    ensures var c := NewRetryClient(inner, config, env);
            && (forall a: Address :: c.getAccount(ctx, a, w).0.Err? ==> exists n: nat ::
                  GivesUpAt(AccountCall(inner, ctx, a), w, n, config.maxRetries, "get_account",
                            c.getAccount(ctx, a, w).0.error))
            && (forall addresses: seq<Address> ::
                  c.getMultipleAccounts(ctx, addresses, w).0.Err? ==> exists n: nat ::
                  GivesUpAt(BatchCall(inner, ctx, addresses), w, n, config.maxRetries, "get_multiple_accounts",
                            c.getMultipleAccounts(ctx, addresses, w).0.error))
            && (forall mint: Address :: c.query(ctx, TokenSupply(mint), w).0.Err? ==> exists n: nat ::
                  GivesUpAt(QueryCall(inner, ctx, TokenSupply(mint)), w, n, config.maxRetries, "get_token_supply",
                            c.query(ctx, TokenSupply(mint), w).0.error))
            && (forall name: string, request: string ::
                  c.query(ctx, Other(name, request), w).0.Err? ==> exists n: nat ::
                    GivesUpAt(QueryCall(inner, ctx, Other(name, request)), w, n, config.maxRetries, name,
                              c.query(ctx, Other(name, request), w).0.error))
  {
    var c := NewRetryClient(inner, config, env);
    forall a: Address | c.getAccount(ctx, a, w).0.Err?
      ensures exists n: nat :: GivesUpAt(AccountCall(inner, ctx, a), w, n, config.maxRetries, "get_account",
                                         c.getAccount(ctx, a, w).0.error)
    {
      RetryingFails(config, env, "get_account", AccountCall(inner, ctx, a),
                    (w': W) => Wrapped("get_account", inner.getAccount(ctx, a, w')), w);
    }
    forall addresses: seq<Address> | c.getMultipleAccounts(ctx, addresses, w).0.Err?
      ensures exists n: nat ::
                GivesUpAt(BatchCall(inner, ctx, addresses), w, n, config.maxRetries, "get_multiple_accounts",
                          c.getMultipleAccounts(ctx, addresses, w).0.error)
    {
      RetryingFails(config, env, "get_multiple_accounts", BatchCall(inner, ctx, addresses),
                    (w': W) => Wrapped("get_multiple_accounts", inner.getMultipleAccounts(ctx, addresses, w')), w);
    }
    forall q: Query | c.query(ctx, q, w).0.Err?
      ensures exists n: nat :: GivesUpAt(QueryCall(inner, ctx, q), w, n, config.maxRetries, OperationName(q),
                                         c.query(ctx, q, w).0.error)
    {
      RetryingFails(config, env, OperationName(q), QueryCall(inner, ctx, q),
                    (w': W) => Wrapped(OperationName(q), inner.query(ctx, q, w')), w);
    }
  }

  // ---- how long the client waits ----

  /** A context that ends during every wait longer than the limit, and during no other. */
  ghost predicate EndsBeyond<W(!new)>(env: Environment<W>, limit: int, why: Error) {
    forall k: nat, wait: int, w: W :: env.cut(k, wait, w) == if wait > limit then Some(why) else None
  }

  lemma {:induction false} WaitTooLong<T, W(!new)>(
    cfg: RetryConfig, env: Environment<W>, fn: Attempt<W, T>, attempt: nat, k: nat, w: W, limit: int, why: Error)
    requires attempt <= k < cfg.maxRetries && cfg.jitterFraction <= 0.0 && limit >= 0 && EndsBeyond(env, limit, why)
    requires forall i: nat | i <= k - attempt ::
               fn(WorldAfter(fn, w, i)).0.Err? && IsRetryableError(fn(WorldAfter(fn, w, i)).0.error)
    requires forall i: nat | attempt <= i < k :: BackoffAt(cfg, i) <= limit
    requires BackoffAt(cfg, k) > limit
    ensures RetryFrom(cfg, env, fn, attempt, BackoffAt(cfg, attempt), w).reply
         == Err(WrapClientError("retry_wait", why))
    decreases k - attempt
  {
    assert WorldAfter(fn, w, 0) == w;
    if attempt < k {
      var w1 := fn(w).1;
      forall i: nat | i <= k - (attempt + 1)
        ensures fn(WorldAfter(fn, w1, i)).0.Err? && IsRetryableError(fn(WorldAfter(fn, w1, i)).0.error)
      {
        assert WorldAfter(fn, w1, i) == WorldAfter(fn, w, i + 1);
      }
      WaitTooLong(cfg, env, fn, attempt + 1, k, w1, limit, why);
    }
  }

  /** Without jitter, wait k of a call in the configuration's own numbers, with defaults for what is not positive. */
  function ConfiguredWait(config: RetryConfig, k: nat): int {
    var initial := if config.initialBackoff <= 0 then 100_000_000 else config.initialBackoff;
    var most := if config.maxBackoff <= 0 then 2_000_000_000 else config.maxBackoff;
    if k == 0 then initial else if initial * Pow2(k) < most then initial * Pow2(k) else most
  }

  /**
   * The retry client waits just as long as configured: a context that bears waits up to a limit ends the call at the
   * first longer one of initial, min(2 initial, max), min(4 initial, max) and so on.
   */
  lemma ClientWaits<W(!new)>(
    inner: Client<W>, config: RetryConfig, env: Environment<W>, ctx: Context, a: Address, w: W, k: nat, limit: int,
    why: Error)
    requires k < config.maxRetries && config.jitterFraction <= 0.0
    requires config.initialBackoff < TWO_62 && config.maxBackoff < TWO_62
    requires limit >= 0 && EndsBeyond(env, limit, why)
    requires var fn := AccountCall(inner, ctx, a);
             forall i: nat | i <= k ::
               fn(WorldAfter(fn, w, i)).0.Err? && IsRetryableError(fn(WorldAfter(fn, w, i)).0.error)
    requires (forall i: nat | i < k :: ConfiguredWait(config, i) <= limit) && ConfiguredWait(config, k) > limit
    ensures NewRetryClient(inner, config, env).getAccount(ctx, a, w).0
         == Err(if OutermostClientError(why).Some? then why
                else ClientError("retry_wait", ClassifyError(why), Some(why)))
  {
    var cfg, fn := Defaulted(config), AccountCall(inner, ctx, a);
    var wrapped := (w': W) => Wrapped("get_account", inner.getAccount(ctx, a, w'));
    forall i: nat | i <= k
      ensures BackoffAt(cfg, i) == ConfiguredWait(config, i)
      ensures wrapped(WorldAfter(wrapped, w, i)).0.Err?
      ensures IsRetryableError(wrapped(WorldAfter(wrapped, w, i)).0.error)
    {
      BackoffClosedForm(cfg, i);
      SameWorlds("get_account", fn, wrapped, w, i);
      assert fn(WorldAfter(fn, w, i)).0.Err?;
      WrappingKeepsRetryable("get_account", fn(WorldAfter(fn, w, i)).0.error);
    }
    WaitTooLong(cfg, env, wrapped, 0, k, w, limit, why);
  }

  /** From backoff (1 - j), cut off at zero, by the draw towards backoff (1 + j), rounded down. */
  function DrawnWait(backoff: int, jitterFraction: real, draw: real): int {
    var spread := backoff as real * jitterFraction;
    var low := if spread <= backoff as real then backoff as real - spread else 0.0;
    (low + draw * (backoff as real + spread - low)).Floor
  }

  /** applyJitter is that, for backoffs and fractions above zero. */
  lemma JitterIs(backoff: int, jitterFraction: real, draw: real)
    requires backoff > 0 && jitterFraction > 0.0
    ensures ApplyJitter(backoff, jitterFraction, draw) == DrawnWait(backoff, jitterFraction, draw)
  {
    var centre := backoff as real;
    var spread := centre * jitterFraction;
    var low := if spread <= centre then centre - spread else 0.0;
    assert Drawn(centre, spread, draw) == Mix(draw, low, centre + spread).Floor;
  }

  /** A wait of no length never looks at the context: without any backoff, no end of one shows. */
  lemma {:induction false} NoWaitNoEnd<T, W>(
    cfg: RetryConfig, env: Environment<W>, other: Environment<W>, fn: Attempt<W, T>, attempt: nat, w: W)
    requires cfg.maxBackoff >= 0
    ensures RetryFrom(cfg, env, fn, attempt, 0, w) == RetryFrom(cfg, other, fn, attempt, 0, w)
    decreases cfg.maxRetries - attempt
  {
    var (out, w1) := fn(w);
    if out.Err? && attempt < cfg.maxRetries && IsRetryableError(out.error) {
      NoWaitNoEnd(cfg, env, other, fn, attempt + 1, w1);
    }
  }

  lemma OneRetry<T, W(!new)>(
    cfg: RetryConfig, env: Environment<W>, fn: Attempt<W, T>, backoff: int, w: W, limit: int, why: Error)
    requires cfg.maxRetries > 0 && limit >= 0 && EndsBeyond(env, limit, why)
    requires fn(w).0.Err? && IsRetryableError(fn(w).0.error) && fn(fn(w).1).0.Ok?
    ensures RetryFrom(cfg, env, fn, 0, backoff, w).reply
         == if ApplyJitter(backoff, cfg.jitterFraction, env.draw(0, fn(w).1)) > limit
            then Err(WrapClientError("retry_wait", why)) else fn(fn(w).1).0
  {
    var w1 := fn(w).1;
    assert RetryFrom(cfg, env, fn, 1, NextBackoff(backoff, cfg.maxBackoff), w1).reply == fn(w1).0;
  }

  /**
   * The client's first wait, jitter and all, in the configuration's own numbers: a context that bears waits up to a
   * limit ends the call exactly when that wait is longer; else the second call answers.
   */
  lemma FirstWait<W(!new)>(
    inner: Client<W>, config: RetryConfig, env: Environment<W>, ctx: Context, a: Address, w: W, limit: int, why: Error)
    requires config.maxRetries > 0 && config.jitterFraction > 0.0 && limit >= 0 && EndsBeyond(env, limit, why)
    requires OutermostClientError(why).Some?
    requires var (first, w1) := inner.getAccount(ctx, a, w);
             first.Err? && IsRetryableError(first.error) && inner.getAccount(ctx, a, w1).0.Ok?
    ensures var w1 := inner.getAccount(ctx, a, w).1;
            var backoff := if config.initialBackoff <= 0 then 100_000_000 else config.initialBackoff;
            NewRetryClient(inner, config, env).getAccount(ctx, a, w).0
            == if DrawnWait(backoff, config.jitterFraction, env.draw(0, w1)) > limit then Err(why)
               else inner.getAccount(ctx, a, w1).0
  {
    var (first, w1) := inner.getAccount(ctx, a, w);
    var cfg := Defaulted(config);
    JitterIs(cfg.initialBackoff, config.jitterFraction, env.draw(0, w1));
    WrappingKeepsRetryable("get_account", first.error);
    OneRetry(cfg, env, (w': W) => Wrapped("get_account", inner.getAccount(ctx, a, w')), cfg.initialBackoff, w, limit,
             why);
  }
}
