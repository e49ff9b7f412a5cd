/** What a routed change is worth (helpers/tangopayout.py), and when a delivery is tried, held back or
    given up (helpers/tangopayoutrun.py). Percentages are real numbers. */
module PayoutPolicy {
  import opened Results
  import opened TangoPlan

  // ----- `payout_plan` -----

  datatype PayoutPlan = PayoutPlan(gross: int, fee: int, net: int, routed: bool)

  function Percent(pct: real): real {
    if pct > 0.0 then pct else 0.0
  }

  function Floor0(floor: int): int {
    if floor > 0 then floor else 0
  }

  function Share(change: int, pct: real): int {
    if Percent(pct) == 0.0 then 0 else Ceil(change as real * Percent(pct))
  }

  /** The fee on a change: the percentage rounded up, or the floor if that is more. */
  function ServiceFee(change: int, pct: real, floor: int): int {
    if Share(change, pct) > Floor0(floor) then Share(change, pct) else Floor0(floor)
  }

  function PlanPayout(change: int, pct: real, floor: int): PayoutPlan {
    if change <= 0 then PayoutPlan(0, 0, 0, false)
    else if change < DUST_SATS then PayoutPlan(change, 0, 0, false)
    else
      var fee := ServiceFee(change, pct, floor);
      if change - fee < DUST_SATS then PayoutPlan(change, 0, 0, false)
      else PayoutPlan(change, fee, change - fee, true)
  }

  /** A routed change splits exactly into fee and payout, and the payout is above the dust limit; an
      unrouted one owes nobody anything. */
  lemma PayoutSplits(change: int, pct: real, floor: int)
    ensures var p := PlanPayout(change, pct, floor);
      if p.routed then p.gross == change == p.fee + p.net && p.net >= DUST_SATS && p.fee >= Floor0(floor)
                       && p.fee as real >= change as real * Percent(pct)
      else p.fee == 0 && p.net == 0
  {
  }

  predicate Routes(change: int, pct: real, floor: int) {
    PlanPayout(change, pct, floor).routed
  }

  // ----- `min_change_to_route` -----

  lemma CeilShift(x: real, n: nat)
    ensures Ceil(x + n as real) == Ceil(x) + n
  {
  }

  lemma ShareOf(c: int, d: int, p: real)
    requires c <= d && 0.0 <= p <= 1.0
    ensures d as real * p <= c as real * p + (d - c) as real
  {
    var n := (d - c) as real;
    assert d as real == c as real + n;
    assert n * p <= n * 1.0;
    assert (c as real + n) * p == c as real * p + n * p;
  }

  lemma ShareGrows(c: int, d: int, pct: real)
    requires c <= d && Percent(pct) < 1.0
    ensures Share(d, pct) <= Share(c, pct) + (d - c)
  {
    var p := Percent(pct);
    ShareOf(c, d, p);
    CeilMonotone(d as real * p, c as real * p + (d - c) as real);
    CeilShift(c as real * p, d - c);
  }

  /** One satoshi more of change is never less to pay out. */
  lemma NetGrows(c: int, d: int, pct: real, floor: int)
    requires c <= d && Percent(pct) < 1.0
    ensures c - ServiceFee(c, pct, floor) <= d - ServiceFee(d, pct, floor)
  {
    ShareGrows(c, d, pct);
  }

  lemma RoutesMonotone(c: int, d: int, pct: real, floor: int)
    requires c <= d && Percent(pct) < 1.0 && Routes(c, pct, floor)
    ensures Routes(d, pct, floor)
  {
    NetGrows(c, d, pct, floor);
  }

  /** Changes up to c do not route. */
  ghost predicate NoneUpTo(c: int, pct: real, floor: int) {
    forall m :: m <= c ==> !Routes(m, pct, floor)
  }

  lemma NoneBelow(c: int, pct: real, floor: int)
    requires Percent(pct) < 1.0 && !Routes(c, pct, floor)
    ensures NoneUpTo(c, pct, floor)
  {
    forall m | m <= c ensures !Routes(m, pct, floor) {
      if Routes(m, pct, floor) {
        RoutesMonotone(m, c, pct, floor);
      }
    }
  }

  lemma TooDear(m: int, pct: real, floor: int)
    requires Percent(pct) >= 1.0
    ensures !Routes(m, pct, floor)
  {
    if m > 0 {
      assert m as real * Percent(pct) >= m as real * 1.0;
    }
  }

  function Doubled(first: int, i: nat): int {
    if i == 0 then first else Doubled(first, i - 1) * 2
  }

  function FirstTried(floor: int): int {
    DUST_SATS + (if Floor0(floor) > 1 then Floor0(floor) else 1)
  }

  /** The last value the doubling search looks at, its sixty-fourth. */
  function LastTried(floor: int): int {
    Doubled(FirstTried(floor), 63)
  }

  /** The search is exact: what it returns is the least change that routes, and everything from there on
      routes; and it returns nothing exactly when nothing up to the last value it tries routes. */
  method MinChangeToRoute(pct: real, floor: int) returns (least: Option<int>)
    ensures least.Some? ==> Routes(least.value, pct, floor) && NoneUpTo(least.value - 1, pct, floor)
    ensures least.Some? ==> forall m :: m >= least.value ==> Routes(m, pct, floor)
    ensures least.None? <==> NoneUpTo(LastTried(floor), pct, floor)
  {
    if Percent(pct) >= 1.0 {
      assert NoneUpTo(LastTried(floor), pct, floor) by {
        forall m | m <= LastTried(floor) ensures !Routes(m, pct, floor) {
          TooDear(m, pct, floor);
        }
      }
      return None;
    }
    var lo := DUST_SATS;
    if Routes(lo, pct, floor) {
      DoubledGrows(FirstTried(floor), 0, 63);
      FoundLeast(lo, pct, floor);
      return Some(lo);
    }
    var hi := FirstTried(floor);
    var found := false;
    for i := 0 to 64
      invariant DUST_SATS <= lo < hi && hi == Doubled(FirstTried(floor), i)
      invariant !Routes(lo, pct, floor) && !found
      invariant i > 0 ==> lo == Doubled(FirstTried(floor), i - 1)
    {
      if Routes(hi, pct, floor) {
        found := true;
        DoubledGrows(FirstTried(floor), i, 63);
        break;
      }
      lo, hi := hi, hi * 2;
    }
    if !found {
      NoneBelow(lo, pct, floor);
      return None;
    }
    while lo + 1 < hi
      invariant lo < hi <= LastTried(floor) && !Routes(lo, pct, floor) && Routes(hi, pct, floor)
    {
      var mid := (lo + hi) / 2;
      if Routes(mid, pct, floor) {
        hi := mid;
      } else {
        lo := mid;
      }
    }
    NoneBelow(lo, pct, floor);
    FoundLeast(hi, pct, floor);
    least := Some(hi);
  }

  lemma FoundLeast(c: int, pct: real, floor: int)
    requires Percent(pct) < 1.0 && Routes(c, pct, floor) && c <= LastTried(floor)
    ensures forall m :: m >= c ==> Routes(m, pct, floor)
    ensures !NoneUpTo(LastTried(floor), pct, floor)
  {
    forall m | m >= c ensures Routes(m, pct, floor) {
      RoutesMonotone(c, m, pct, floor);
    }
  }

  lemma {:induction false} DoubledGrows(first: int, m: nat, n: nat)
    requires first >= 0 && m <= n
    ensures 0 <= Doubled(first, m) <= Doubled(first, n)
    decreases n
  {
    if m < n {
      DoubledGrows(first, m, n - 1);
    } else if m > 0 {
      DoubledGrows(first, m - 1, m - 1);
    }
  }

  // ----- when to try, and when to stop -----

  datatype PayStatus = Pending | Paid | Failed | Unpayable

  const MAX_ATTEMPTS: nat := 6
  const DEFER_SECONDS: nat := 300
  const DEFER_MAX_SECONDS: nat := 86400

  const BACKOFF_SECONDS: seq<nat> := [60, 300, 900, 1800, 3600]

  function BackoffFor(attempts: nat): nat {
    if attempts >= |BACKOFF_SECONDS| then 3600 else BACKOFF_SECONDS[attempts]
  }

  function StatusAfter(attempts: nat, permanent: bool): PayStatus {
    if !(permanent || attempts >= MAX_ATTEMPTS) then Pending
    else if permanent then Unpayable
    else Failed
  }

  /** Held back only when the balance is known, does not cover the payout, and the payout is not a day old. */
  predicate ShouldDefer(balance: Option<int>, net: int, age: nat) {
    balance.Some? && age < DEFER_MAX_SECONDS && balance.value < net
  }
}
