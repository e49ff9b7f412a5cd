/** The payout rules in figures: the fee, when a change routes, how long a delivery waits and what each step
    leaves in the table. */
module PayoutRules {
  import opened TangoPlan
  import opened PayoutPolicy
  import opened Payouts

  // ----- the fee -----

  /** What a fee has to be: no less than the floor, nothing negative, and the percentage in full. */
  ghost predicate CoversFee(fee: int, change: int, pct: real, floor: int) {
    fee >= floor && fee >= 0 && fee as real >= change as real * pct
  }

  lemma NotPositive(change: int, pct: real)
    requires change >= 0 && pct <= 0.0
    ensures change as real * pct <= 0.0
  {
  }

  /** The fee is the least that is one. */
  lemma FeeIsLeastDue(change: int, pct: real, floor: int)
    requires change >= 0
    ensures CoversFee(ServiceFee(change, pct, floor), change, pct, floor)
    ensures forall fee :: CoversFee(fee, change, pct, floor) ==> ServiceFee(change, pct, floor) <= fee
  {
    if pct <= 0.0 {
      NotPositive(change, pct);
    }
    forall fee | CoversFee(fee, change, pct, floor) ensures ServiceFee(change, pct, floor) <= fee {
      if pct > 0.0 {
        CeilIsLeast(change as real * pct, fee);
      }
    }
  }

  lemma CeilIsLeast(x: real, n: int)
    ensures n as real >= x ==> Ceil(x) <= n
  {
  }

  /** A change routes exactly if it is no dust, and some fee that is enough leaves no dust of it. */
  lemma RoutesExactly(change: int, pct: real, floor: int)
    ensures Routes(change, pct, floor) <==> change >= 546 && exists fee :: CoversFee(fee, change, pct, floor) && change - fee >= 546
    ensures var p := PlanPayout(change, pct, floor);
      p == if Routes(change, pct, floor) then PayoutPlan(change, p.fee, change - p.fee, true)
           else PayoutPlan(if change > 0 then change else 0, 0, 0, false)
    ensures Routes(change, pct, floor) ==>
      && CoversFee(PlanPayout(change, pct, floor).fee, change, pct, floor)
      && forall fee :: CoversFee(fee, change, pct, floor) ==> PlanPayout(change, pct, floor).fee <= fee
  {
    if change >= 546 {
      FeeIsLeastDue(change, pct, floor);
      if change - ServiceFee(change, pct, floor) >= 546 {
        assert CoversFee(ServiceFee(change, pct, floor), change, pct, floor);
      }
    }
  }

  lemma DoubledEight(first: int, i: nat)
    ensures Doubled(first, i + 8) == 256 * Doubled(first, i)
  {
    assert Doubled(first, i + 4) == 16 * Doubled(first, i) by {
      assert Doubled(first, i + 2) == 4 * Doubled(first, i);
    }
    assert Doubled(first, i + 8) == 16 * Doubled(first, i + 4) by {
      assert Doubled(first, i + 6) == 4 * Doubled(first, i + 4);
    }
  }

  /** The search looks no further than two to the sixty-third times the dust limit and the floor together. */
  lemma LastTriedIs(floor: int)
    ensures LastTried(floor) == (546 + if floor > 1 then floor else 1) * 0x8000_0000_0000_0000
  {
    var f := FirstTried(floor);
    DoubledEight(f, 55);
    DoubledEight(f, 47);
    DoubledEight(f, 39);
    DoubledEight(f, 31);
    DoubledEight(f, 23);
    DoubledEight(f, 15);
    DoubledEight(f, 7);
    assert Doubled(f, 7) == 128 * f by {
      assert Doubled(f, 1) == 2 * f;
      assert Doubled(f, 3) == 4 * Doubled(f, 1);
      assert Doubled(f, 5) == 4 * Doubled(f, 3);
    }
  }

  // ----- one attempt -----

  /** The payout wallet is known to hold too little, and the payout is less than a day old. */
  ghost predicate TooPoor(l: Ledger, row: Payout) {
    && row.address != "" && row.network in l.balances && l.balances[row.network] < row.net
    && l.clock - row.createdAt < 24 * 60 * 60
  }

  /** There is an address and a wallet, the address resolves, and the payment goes through. */
  ghost predicate GoesThrough(row: Payout, env: AttemptEnv) {
    row.address != "" && env.walletSet && env.resolution == Resolved && env.pays
  }

  /** The address is missing, or its provider says that it never will be one. */
  ghost predicate NeverWill(row: Payout, env: AttemptEnv) {
    row.address == "" || (env.walletSet && env.resolution == Permanent)
  }

  /** Five minutes after the first failure, a quarter of an hour after the second, half an hour after the third,
      and then an hour. */
  function WaitAfter(failures: nat): nat {
    match failures
    case 0 => 1 * 60
    case 1 => 5 * 60
    case 2 => 15 * 60
    case 3 => 30 * 60
    case _ => 60 * 60
  }

  lemma BackoffIs(attempts: nat)
    ensures BackoffFor(attempts) == WaitAfter(attempts)
  {
  }

  /** What is left of the pass. */
  ghost predicate Rest(l: Ledger, l': Ledger, k: Key, row: Payout) {
    l.due == [(k, row)] + l'.due && l'.clock == l.clock
  }

  /** Held back: the row waits five minutes and is otherwise as it was. */
  lemma HeldExactly(l: Ledger, env: AttemptEnv, k: Key, row: Payout)
    requires l.due != [] && l.due[0] == (k, row) && k in l.rows && TooPoor(l, row)
    ensures var (l', o) := Attempt(l, env);
      && o == Deferred && Rest(l, l', k, row)
      && l' == l.(due := l'.due, rows := l.rows[k := l.rows[k].(nextAttempt := l.clock + 300)])
  {
  }

  /** Paid: the payment is on record, the wallet is down by the payout and the routing fee, and the pass counts
      on so much less on that network, and never on less than nothing. */
  lemma PaidExactly(l: Ledger, env: AttemptEnv, k: Key, row: Payout)
    requires l.due != [] && l.due[0] == (k, row) && k in l.rows && !TooPoor(l, row) && GoesThrough(row, env)
    ensures var (l', o) := Attempt(l, env);
      && o == Became(Paid) && Rest(l, l', k, row)
      && l' == l.(due := l'.due, rows := l.rows[k := l.rows[k].(status := Paid, attempts := row.attempts + 1)],
                  sent := l.sent + [k], wallet := l.wallet - row.net - env.routingFee, balances := l'.balances)
      && l'.balances.Keys == l.balances.Keys
      && (forall net :: net in l.balances ==>
            l'.balances[net] == if net != row.network then l.balances[net]
                                else if l.balances[net] >= row.net then l.balances[net] - row.net else 0)
  {
  }

  /** Neither: the row is given up at once if it never will be paid, after the sixth failure otherwise, and the
      user is told once; until then it waits longer each time. Nothing else changes. */
  lemma FailedExactly(l: Ledger, env: AttemptEnv, k: Key, row: Payout)
    requires l.due != [] && l.due[0] == (k, row) && k in l.rows && !TooPoor(l, row) && !GoesThrough(row, env)
    ensures var (l', o) := Attempt(l, env); var n := row.attempts + 1; var p := l.rows[k];
      && Rest(l, l', k, row)
      && o == Became(if NeverWill(row, env) then Unpayable else if n >= 6 then Failed else PayStatus.Pending)
      && l' == l.(due := l'.due,
                  rows := l.rows[k := if NeverWill(row, env) then p.(status := Unpayable, attempts := n, notified := p.notified || !row.notified)
                                      else if n >= 6 then p.(status := Failed, attempts := n, notified := p.notified || !row.notified)
                                      else p.(status := PayStatus.Pending, attempts := n, nextAttempt := l.clock + WaitAfter(n))])
  {
    BackoffIs(row.attempts + 1);
  }

  // ----- the other steps -----

  /** An obligation is recorded unless the output has a row, which then stays as it is. */
  lemma CreateExactly(l: Ledger, k: Key, p: Payout)
    ensures Create(l, k, p).1 <==> k !in l.rows
    ensures k in l.rows ==> Create(l, k, p).0 == l
    ensures k !in l.rows ==> Create(l, k, p).0 == l.(rows := l.rows[k := p])
  {
  }

  /** A retry puts back any row but a paid one, to be tried at once and as often as a new one, to the address
      the user has saved since if there is one. */
  lemma RetryExactly(l: Ledger, k: Key, saved: string)
    ensures Retry(l, k, saved).1 == if k !in l.rows then NotFound else if l.rows[k].status == Paid then Conflict else Done
    ensures Retry(l, k, saved).1 != Done ==> Retry(l, k, saved).0 == l
    ensures Retry(l, k, saved).1 == Done ==>
      Retry(l, k, saved).0
      == l.(rows := l.rows[k := l.rows[k].(status := PayStatus.Pending, attempts := 0, nextAttempt := l.clock, notified := false,
                                           address := if saved == "" then l.rows[k].address else saved)])
  {
  }

  /** The batch puts back the failed rows of one network, and no others. */
  lemma RequeueFailedExactly(l: Ledger, net: Network)
    ensures var l' := RequeueFailed(l, net);
      && l' == l.(rows := l'.rows) && l'.rows.Keys == l.rows.Keys
      && forall k :: k in l.rows ==>
           l'.rows[k] == if l.rows[k].network == net && l.rows[k].status == Failed
                         then l.rows[k].(status := PayStatus.Pending, attempts := 0, nextAttempt := l.clock) else l.rows[k]
  {
  }

  /** Redacting takes the user's name and address off every row of theirs, and nothing else. */
  lemma RedactExactly(l: Ledger, user: string)
    ensures var l' := Redact(l, user);
      && l' == l.(rows := l'.rows) && l'.rows.Keys == l.rows.Keys
      && forall k :: k in l.rows ==>
           l'.rows[k] == if l.rows[k].user == user then l.rows[k].(user := "deleted", address := "") else l.rows[k]
  {
  }

  /** A listing holds at most twenty-five rows, all pending and due and the oldest first; any due row it leaves
      out is no older than those it holds, and it leaves none out while it has room. */
  lemma ListingHolds(l: Ledger, due: seq<(Key, Payout)>)
    requires IsListing(l, due)
    ensures |due| <= 25
    ensures forall i :: 0 <= i < |due| ==>
      due[i].0 in l.rows && l.rows[due[i].0] == due[i].1 && due[i].1.status == PayStatus.Pending && due[i].1.nextAttempt <= l.clock
    ensures forall i, j :: 0 <= i < j < |due| ==> due[i].0 != due[j].0 && due[i].1.createdAt <= due[j].1.createdAt
    ensures forall k :: k in l.rows && l.rows[k].status == PayStatus.Pending && l.rows[k].nextAttempt <= l.clock && !IsListed(due, k) ==>
      |due| == 25 && forall i :: 0 <= i < |due| ==> due[i].1.createdAt <= l.rows[k].createdAt
  {
    forall k | k in l.rows && l.rows[k].status == PayStatus.Pending && l.rows[k].nextAttempt <= l.clock && !IsListed(due, k)
      ensures |due| == 25 && NoneNewer(due, l.rows[k])
    {
      assert IsDue(l.rows[k], l.clock);
    }
    forall i | 0 <= i < |due| ensures IsDue(due[i].1, l.clock) {
    }
  }
}
