/** sdk/protocols/meteora/damm_v1/metrics.go: locked-profit decay and sharing a vault, in exact floor arithmetic. */
module Vault {
  import opened Integers

  const DENOMINATOR := 1_000_000_000_000

  datatype VaultState = VaultState(totalAmount: u64, lastLockedProfit: u64, lastReport: u64, profitDegrade: u64)

  /** big.Int.Uint64(): the low 64 bits. */
  function Low64(x: nat): u64 {
    x % TWO_64
  }

  function Duration(currentUnix: i64, lastReport: u64): u64 {
    if currentUnix > 0 && currentUnix > lastReport then currentUnix - lastReport else 0
  }

  function LockedProfit(currentUnix: i64, lastLockedProfit: u64, lastReport: u64, degrade: u64): u64 {
    if lastLockedProfit == 0 || degrade == 0 then 0
    else
      var ratio := Duration(currentUnix, lastReport) * degrade;
      if ratio > DENOMINATOR then 0
      else
        assert ratio >= 0 by { NonNegative(Duration(currentUnix, lastReport), degrade); }
        assert lastLockedProfit * (DENOMINATOR - ratio) >= 0 by { NonNegative(lastLockedProfit, DENOMINATOR - ratio); }
        Low64(lastLockedProfit * (DENOMINATOR - ratio) / DENOMINATOR)
  }

  /** vaultWithdrawableAmount: what can be withdrawn, and what is still locked. */
  function Withdrawable(currentUnix: i64, state: VaultState): (u64, u64) {
    var locked := LockedProfit(currentUnix, state.lastLockedProfit, state.lastReport, state.profitDegrade);
    if locked > state.totalAmount then (0, locked) else (state.totalAmount - locked, locked)
  }

  function AmountByShare(share: u64, totalAmount: u64, totalSupply: u64): u64 {
    if share == 0 || totalAmount == 0 || totalSupply == 0 then 0
    else
      assert share * totalAmount >= 0 by { NonNegative(share, totalAmount); }
      var value := share * totalAmount / totalSupply;
      assert value >= 0 by { Floor(share * totalAmount, totalSupply); }
      if value >= TWO_64 then 0 else value
  }

  /** The pool's reserve: its vault shares turned into the token, at a moment of the clock. */
  function PoolReserve(currentUnix: i64, state: VaultState, share: u64, supply: u64): u64 {
    AmountByShare(share, Withdrawable(currentUnix, state).0, supply)
  }

  // ---- products and floors ----

  lemma NonNegative(x: int, y: int)
    requires x >= 0 && y >= 0
    ensures x * y >= 0
  {
  }

  lemma Grows(x: int, y: int, z: int)
    requires x <= y && z >= 0
    ensures x * z <= y * z && z * x <= z * y
  {
    NonNegative(y - x, z);
  }

  lemma Cancel(x: int, y: int, d: int)
    requires d > 0 && x * d < y * d
    ensures x < y
  {
    if y <= x {
      Grows(y, x, d);
    }
  }

  lemma Floor(a: int, d: int)
    requires d > 0
    ensures a / d * d <= a < a / d * d + d
    ensures a >= 0 ==> a / d >= 0
  {
    assert a == d * (a / d) + a % d;
  }

  lemma FloorGrows(a: int, b: int, d: int)
    requires d > 0 && a <= b
    ensures a / d <= b / d
  {
    Floor(a, d);
    Floor(b, d);
    Cancel(a / d, b / d + 1, d);
  }

  lemma FloorOfProduct(x: int, y: int, d: int)
    requires d > 0 && y >= 0 && x <= d
    ensures x * y / d <= y
  {
    Floor(x * y, d);
    Grows(x, d, y);
    Cancel(x * y / d, y + 1, d);
  }

  // ---- locked profit decays ----

  /** Locked profit never exceeds what was locked at the last report, and its 64-bit reading loses nothing. */
  lemma LockedProfitRange(currentUnix: i64, lastLockedProfit: u64, lastReport: u64, degrade: u64)
    ensures var locked := LockedProfit(currentUnix, lastLockedProfit, lastReport, degrade);
            var ratio := Duration(currentUnix, lastReport) * degrade;
            && locked <= lastLockedProfit
            && (degrade != 0 && ratio <= DENOMINATOR ==>
                  locked * DENOMINATOR <= lastLockedProfit * (DENOMINATOR - ratio) < locked * DENOMINATOR + DENOMINATOR)
            && (degrade != 0 && ratio == 0 ==> locked == lastLockedProfit)
            && (ratio >= DENOMINATOR ==> locked == 0)
  {
    var ratio := Duration(currentUnix, lastReport) * degrade;
    NonNegative(Duration(currentUnix, lastReport), degrade);
    if ratio <= DENOMINATOR {
      var left := DENOMINATOR - ratio;
      NonNegative(lastLockedProfit, left);
      Floor(lastLockedProfit * left, DENOMINATOR);
      Grows(left, DENOMINATOR, lastLockedProfit);
    }
  }

  lemma DurationGrows(earlier: i64, later: i64, lastReport: u64, degrade: u64)
    requires earlier <= later
    ensures 0 <= Duration(earlier, lastReport) * degrade <= Duration(later, lastReport) * degrade
  {
    NonNegative(Duration(earlier, lastReport), degrade);
    Grows(Duration(earlier, lastReport), Duration(later, lastReport), degrade);
  }

  /** As the clock moves on, from before the epoch too, locked profit never rises. */
  lemma LockedProfitDecays(earlier: i64, later: i64, lastLockedProfit: u64, lastReport: u64, degrade: u64)
    requires earlier <= later
    ensures LockedProfit(later, lastLockedProfit, lastReport, degrade)
         <= LockedProfit(earlier, lastLockedProfit, lastReport, degrade)
  {
    DurationGrows(earlier, later, lastReport, degrade);
    LockedProfitRange(earlier, lastLockedProfit, lastReport, degrade);
    LockedProfitRange(later, lastLockedProfit, lastReport, degrade);
    var r1, r2 := Duration(earlier, lastReport) * degrade, Duration(later, lastReport) * degrade;
    if degrade != 0 && r2 <= DENOMINATOR {
      Grows(DENOMINATOR - r2, DENOMINATOR - r1, lastLockedProfit);
    }
  }

  /** So what can be withdrawn never falls, and never exceeds the vault. */
  lemma WithdrawableGrows(earlier: i64, later: i64, state: VaultState)
    requires earlier <= later
    ensures Withdrawable(earlier, state).0 <= Withdrawable(later, state).0 <= state.totalAmount
    ensures Withdrawable(later, state).1 <= state.totalAmount ==>
              Withdrawable(later, state).0 + Withdrawable(later, state).1 == state.totalAmount
  {
    LockedProfitDecays(earlier, later, state.lastLockedProfit, state.lastReport, state.profitDegrade);
  }

  /**
   * What is still locked, in plain numbers: the profit of the last report, going down linearly at a rate of degrade in
   * 10^12 a second, rounded down, and nothing from the point of full release on.  A clock that shows no positive time,
   * or none since the report, counts as the moment of the report.
   */
  lemma LockedInNumbers(now: i64, state: VaultState)
    requires state.profitDegrade > 0
    ensures now > 0 && now >= state.lastReport
            && (now - state.lastReport) * state.profitDegrade <= 1_000_000_000_000 ==>
              Withdrawable(now, state).1
              == state.lastLockedProfit * (1_000_000_000_000 - (now - state.lastReport) * state.profitDegrade)
                 / 1_000_000_000_000
    ensures now > 0 && now >= state.lastReport
            && (now - state.lastReport) * state.profitDegrade >= 1_000_000_000_000 ==>
              Withdrawable(now, state).1 == 0
    ensures now <= 0 || now <= state.lastReport ==> Withdrawable(now, state).1 == state.lastLockedProfit
  {
    LockedProfitRange(now, state.lastLockedProfit, state.lastReport, state.profitDegrade);
    var elapsed := if now > 0 && now >= state.lastReport then now - state.lastReport else 0;
    assert Duration(now, state.lastReport) == elapsed;
    var ratio := elapsed * state.profitDegrade;
    NonNegative(elapsed, state.profitDegrade);
    if ratio <= 1_000_000_000_000 {
      NonNegative(state.lastLockedProfit, 1_000_000_000_000 - ratio);
      FloorOfProduct(1_000_000_000_000 - ratio, state.lastLockedProfit, 1_000_000_000_000);
    }
  }

  /** What is not locked can be withdrawn, and without a rate nothing is locked; no vault gives more than it holds. */
  lemma TheRestIsFree(now: i64, state: VaultState)
    ensures var (free, locked) := Withdrawable(now, state);
            && free == (if locked > state.totalAmount then 0 else state.totalAmount - locked)
            && (state.profitDegrade == 0 || state.lastLockedProfit == 0 ==> locked == 0)
  {
  }

  /** So, for a profit no larger than the vault, it is released linearly from the last report on, until all of it is. */
  lemma ReleasedLinearly(now: i64, state: VaultState)
    requires state.profitDegrade > 0 && state.lastLockedProfit <= state.totalAmount
    ensures now > 0 && now >= state.lastReport
            && (now - state.lastReport) * state.profitDegrade <= 1_000_000_000_000 ==>
              Withdrawable(now, state).0
              == state.totalAmount
                 - state.lastLockedProfit * (1_000_000_000_000 - (now - state.lastReport) * state.profitDegrade)
                   / 1_000_000_000_000
    ensures now > 0 && now >= state.lastReport
            && (now - state.lastReport) * state.profitDegrade >= 1_000_000_000_000 ==>
              Withdrawable(now, state).0 == state.totalAmount
    ensures now <= 0 || now <= state.lastReport ==>
              Withdrawable(now, state).0 == state.totalAmount - state.lastLockedProfit
  {
    LockedInNumbers(now, state);
    LockedProfitRange(now, state.lastLockedProfit, state.lastReport, state.profitDegrade);
    TheRestIsFree(now, state);
  }

  // ---- one share ----

  /** A share of at most the supply is the exact floor; the overflow guard is out of the picture. */
  lemma ShareIsFloor(share: u64, totalAmount: u64, totalSupply: u64)
    requires totalSupply > 0 && share <= totalSupply
    ensures AmountByShare(share, totalAmount, totalSupply) == share * totalAmount / totalSupply <= totalAmount
  {
    FloorOfProduct(share, totalAmount, totalSupply);
    if share == 0 || totalAmount == 0 {
      assert share * totalAmount == 0;
    }
  }

  /**
   * For any share at all, more in the vault means no less for the share exactly when the larger amount stays clear of
   * the 64-bit guard, or the smaller one rounds to nothing or is past the guard already.
   */
  lemma ShareGrowsExactly(share: u64, less: u64, more: u64, totalSupply: u64)
    requires totalSupply > 0 && less <= more
    ensures AmountByShare(share, less, totalSupply) <= AmountByShare(share, more, totalSupply) <==>
            || share * more / totalSupply < TWO_64
            || share * less < totalSupply
            || share * less / totalSupply >= TWO_64
  {
    Grows(less, more, share);
    FloorGrows(share * less, share * more, totalSupply);
    NonNegative(share, less);
    NonNegative(share, more);
    FloorIsZero(share * less, totalSupply);
    if share == 0 || less == 0 {
      assert share * less == 0;
    }
    if share == 0 || more == 0 {
      assert share * more == 0;
    }
  }

  lemma FloorIsZero(a: int, d: int)
    requires a >= 0 && d > 0
    ensures 0 <= a / d && (a / d == 0 <==> a < d)
  {
    Floor(a, d);
    if a / d >= 1 {
      Grows(1, a / d, d);
    }
  }

  /** It happens: one more unit in the vault, and the share of 2^63 drops from 2^63 to nothing. */
  lemma ShareCanShrink()
    ensures AmountByShare(TWO_63, 1, 1) == TWO_63 && AmountByShare(TWO_63, 2, 1) == 0
  {
  }

  /** The pool's reserve never falls as the clock moves on, and is at most what the vault holds. */
  lemma ReserveGrows(earlier: i64, later: i64, state: VaultState, share: u64, supply: u64)
    requires earlier <= later && share <= supply
    ensures PoolReserve(earlier, state, share, supply) <= PoolReserve(later, state, share, supply) <= state.totalAmount
  {
    WithdrawableGrows(earlier, later, state);
    if supply > 0 {
      var w1, w2 := Withdrawable(earlier, state).0, Withdrawable(later, state).0;
      ShareIsFloor(share, w1, supply);
      ShareIsFloor(share, w2, supply);
      Grows(w1, w2, share);
      FloorGrows(share * w1, share * w2, supply);
    }
  }

  /** A pool's share of a vault is of what can be withdrawn, out of the supply, rounded down. */
  lemma ReserveIs(now: i64, state: VaultState, share: u64, supply: u64)
    requires 0 < supply && share <= supply
    ensures PoolReserve(now, state, share, supply) == share * Withdrawable(now, state).0 / supply
  {
    ShareIsFloor(share, Withdrawable(now, state).0, supply);
  }

  /** For shares beyond the supply too, the exact floor, or nothing where that does not fit 64 bits. */
  lemma ShareOrNothing(share: u64, totalAmount: u64, totalSupply: u64)
    requires totalSupply > 0
    ensures AmountByShare(share, totalAmount, totalSupply)
         == if share * totalAmount / totalSupply < 18_446_744_073_709_551_616 then share * totalAmount / totalSupply
            else 0
  {
    if share == 0 || totalAmount == 0 {
      assert share * totalAmount == 0;
    }
  }

  // ---- all the shares ----

  function Payouts(shares: seq<u64>, totalAmount: u64, totalSupply: u64): seq<u64> {
    seq(|shares|, i requires 0 <= i < |shares| => AmountByShare(shares[i], totalAmount, totalSupply))
  }

  lemma {:induction false} SumBounds(xs: seq<u64>)
    ensures Sum(xs) >= 0
    ensures forall i | 0 <= i < |xs| :: xs[i] <= Sum(xs)
  {
    if xs != [] {
      SumBounds(xs[1..]);
      forall i | 0 <= i < |xs|
        ensures xs[i] <= Sum(xs)
      {
        if i > 0 {
          assert xs[i] == xs[1..][i - 1];
        }
      }
    }
  }

  /** One payout, scaled up by the supply, against its exact value. */
  lemma ScaledPayout(share: u64, totalAmount: u64, totalSupply: u64)
    requires totalSupply > 0 && share <= totalSupply
    ensures var paid := AmountByShare(share, totalAmount, totalSupply) * totalSupply;
            share * totalAmount - (totalSupply - 1) <= paid <= share * totalAmount
  {
    ShareIsFloor(share, totalAmount, totalSupply);
    Floor(share * totalAmount, totalSupply);
  }

  lemma {:induction false} ScaledPayouts(shares: seq<u64>, totalAmount: u64, totalSupply: u64)
    requires totalSupply > 0 && Sum(shares) <= totalSupply
    ensures var paid := Sum(Payouts(shares, totalAmount, totalSupply)) * totalSupply;
            Sum(shares) * totalAmount - |shares| * (totalSupply - 1) <= paid <= Sum(shares) * totalAmount
  {
    SumBounds(shares);
    if shares != [] {
      var share, rest := shares[0], shares[1..];
      SumBounds(rest);
      ScaledPayouts(rest, totalAmount, totalSupply);
      ScaledPayout(share, totalAmount, totalSupply);
      assert Payouts(shares, totalAmount, totalSupply)[1..] == Payouts(rest, totalAmount, totalSupply);
      Distribute(share, Sum(rest), totalAmount);
      Distribute(AmountByShare(share, totalAmount, totalSupply), Sum(Payouts(rest, totalAmount, totalSupply)),
                 totalSupply);
      Distribute(1, |rest|, totalSupply - 1);
    }
  }

  lemma Distribute(a: int, b: int, c: int)
    ensures (a + b) * c == a * c + b * c
  {
  }

  /** Holders whose shares fit in the supply never take out more than the vault amount; without a supply, nothing. */
  lemma PayoutsConserve(shares: seq<u64>, totalAmount: u64, totalSupply: u64)
    requires Sum(shares) <= totalSupply
    ensures Sum(Payouts(shares, totalAmount, totalSupply)) <= totalAmount
    ensures forall i | 0 <= i < |shares| ::
              Payouts(shares, totalAmount, totalSupply)[i]
              == if totalSupply == 0 then 0 else shares[i] * totalAmount / totalSupply
  {
    SumBounds(shares);
    if totalSupply == 0 {
      NothingPaid(shares, totalAmount);
    } else {
      ScaledPayouts(shares, totalAmount, totalSupply);
      Grows(Sum(shares), totalSupply, totalAmount);
      Distribute(totalAmount, 1, totalSupply);
      Cancel(Sum(Payouts(shares, totalAmount, totalSupply)), totalAmount + 1, totalSupply);
      forall i | 0 <= i < |shares|
        ensures Payouts(shares, totalAmount, totalSupply)[i] == shares[i] * totalAmount / totalSupply
      {
        ShareIsFloor(shares[i], totalAmount, totalSupply);
      }
    }
  }

  lemma {:induction false} NothingPaid(shares: seq<u64>, totalAmount: u64)
    ensures Sum(Payouts(shares, totalAmount, 0)) == 0
  {
    if shares != [] {
      NothingPaid(shares[1..], totalAmount);
      assert Payouts(shares, totalAmount, 0)[1..] == Payouts(shares[1..], totalAmount, 0);
    }
  }

  lemma Shortfall(paid: int, n: int, totalAmount: int, totalSupply: int)
    requires totalSupply > 0 && n > 0
    requires totalSupply * totalAmount - n * (totalSupply - 1) <= paid * totalSupply
    ensures totalAmount - n < paid
  {
    assert (totalAmount - n) * totalSupply == totalSupply * totalAmount - n * totalSupply;
    assert n * (totalSupply - 1) == n * totalSupply - n;
    Cancel(totalAmount - n, paid, totalSupply);
  }

  /** When n holders hold the whole supply, rounding leaves at most n - 1 units behind. */
  lemma PayoutsShortfall(shares: seq<u64>, totalAmount: u64, totalSupply: u64)
    requires totalSupply > 0 && Sum(shares) == totalSupply
    ensures totalAmount - (|shares| - 1) <= Sum(Payouts(shares, totalAmount, totalSupply)) <= totalAmount
  {
    PayoutsConserve(shares, totalAmount, totalSupply);
    ScaledPayouts(shares, totalAmount, totalSupply);
    Shortfall(Sum(Payouts(shares, totalAmount, totalSupply)), |shares|, totalAmount, totalSupply);
  }
}
