/** The sums of the payout ledger: what was collected, delivered, earned and is still owed. */
module PayoutTotals {
  import opened Results
  import opened PayoutPolicy
  import opened Payouts

  ghost function SumOf(rows: map<Key, Payout>, f: Payout -> int): int
    decreases |rows|
  {
    if rows == map[] then 0
    else
      var k :| k in rows;
      f(rows[k]) + SumOf(rows - {k}, f)
  }

  /** It does not matter which row is counted first. */
  lemma {:induction false} SumRemove(rows: map<Key, Payout>, k: Key, f: Payout -> int)
    requires k in rows
    ensures SumOf(rows, f) == f(rows[k]) + SumOf(rows - {k}, f)
    decreases |rows|
  {
    var j :| j in rows && SumOf(rows, f) == f(rows[j]) + SumOf(rows - {j}, f);
    if j != k {
      SumRemove(rows - {j}, k, f);
      SumRemove(rows - {k}, j, f);
      assert (rows - {j}) - {k} == (rows - {k}) - {j};
    }
  }

  lemma SumReplace(rows: map<Key, Payout>, k: Key, p: Payout, f: Payout -> int)
    requires k in rows
    ensures SumOf(rows[k := p], f) == SumOf(rows, f) - f(rows[k]) + f(p)
  {
    SumRemove(rows, k, f);
    SumRemove(rows[k := p], k, f);
    assert rows[k := p] - {k} == rows - {k};
  }

  lemma SumInsert(rows: map<Key, Payout>, k: Key, p: Payout, f: Payout -> int)
    requires k !in rows
    ensures SumOf(rows[k := p], f) == SumOf(rows, f) + f(p)
  {
    SumRemove(rows[k := p], k, f);
    assert rows[k := p] - {k} == rows;
  }

  lemma {:induction false} SumSame(rows: map<Key, Payout>, rows': map<Key, Payout>, f: Payout -> int)
    requires rows'.Keys == rows.Keys && forall k :: k in rows ==> f(rows'[k]) == f(rows[k])
    ensures SumOf(rows', f) == SumOf(rows, f)
    decreases |rows|
  {
    if rows == map[] {
      assert rows' == map[];
    } else {
      var k :| k in rows;
      SumRemove(rows, k, f);
      SumRemove(rows', k, f);
      SumSame(rows - {k}, rows' - {k}, f);
    }
  }

  lemma {:induction false} SumSplit(rows: map<Key, Payout>, f: Payout -> int, g: Payout -> int, h: Payout -> int)
    requires forall k :: k in rows ==> f(rows[k]) == g(rows[k]) + h(rows[k])
    ensures SumOf(rows, f) == SumOf(rows, g) + SumOf(rows, h)
    decreases |rows|
  {
    if rows != map[] {
      var k :| k in rows;
      SumRemove(rows, k, f);
      SumRemove(rows, k, g);
      SumRemove(rows, k, h);
      SumSplit(rows - {k}, f, g, h);
    }
  }

  // ----- `tango_payout_totals` -----

  predicate In(p: Payout, net: Option<Network>) {
    net.None? || p.network == net.value
  }

  function Gross(net: Option<Network>): Payout -> int {
    p => if In(p, net) then p.gross else 0
  }

  function PaidNet(net: Option<Network>): Payout -> int {
    p => if In(p, net) && p.status.Paid? then p.net else 0
  }

  function PaidFee(net: Option<Network>): Payout -> int {
    p => if In(p, net) && p.status.Paid? then p.fee else 0
  }

  function PaidGross(net: Option<Network>): Payout -> int {
    p => if In(p, net) && p.status.Paid? then p.gross else 0
  }

  function UnpaidNet(net: Option<Network>): Payout -> int {
    p => if In(p, net) && !p.status.Paid? then p.net else 0
  }

  function UnpaidFee(net: Option<Network>): Payout -> int {
    p => if In(p, net) && !p.status.Paid? then p.fee else 0
  }

  function UnpaidGross(net: Option<Network>): Payout -> int {
    p => if In(p, net) && !p.status.Paid? then p.gross else 0
  }

  datatype Totals = Totals(collected: int, paidNet: int, feesEarned: int, owed: int)

  ghost function TotalsOf(rows: map<Key, Payout>, net: Option<Network>): Totals {
    Totals(SumOf(rows, Gross(net)), SumOf(rows, PaidNet(net)), SumOf(rows, PaidFee(net)), SumOf(rows, UnpaidNet(net)))
  }

  /** A total over all networks counts every row and one over a network the rows there: its gross as collected,
      and its net and its fee as paid and earned if it is paid, and otherwise its net as owed. */
  lemma TotalsCount(rows: map<Key, Payout>, k: Key, p: Payout, net: Option<Network>)
    requires k !in rows
    ensures TotalsOf(map[], net) == Totals(0, 0, 0, 0)
    ensures var t := TotalsOf(rows, net);
      TotalsOf(rows[k := p], net)
      == if net != None && net != Some(p.network) then t
         else if p.status == Paid then Totals(t.collected + p.gross, t.paidNet + p.net, t.feesEarned + p.fee, t.owed)
         else Totals(t.collected + p.gross, t.paidNet, t.feesEarned, t.owed + p.net)
  {
    SumInsert(rows, k, p, Gross(net));
    SumInsert(rows, k, p, PaidNet(net));
    SumInsert(rows, k, p, PaidFee(net));
    SumInsert(rows, k, p, UnpaidNet(net));
  }

  /** Conservation: what was collected is what was paid out, what was earned, what is owed, and the fees of
      rows not yet paid. */
  lemma Conserved(rows: map<Key, Payout>, net: Option<Network>)
    requires AllSound(rows)
    ensures var t := TotalsOf(rows, net);
      t.collected == t.paidNet + t.feesEarned + t.owed + SumOf(rows, UnpaidFee(net))
  {
    forall k | k in rows ensures rows[k].gross == rows[k].fee + rows[k].net {
      assert Sound(rows[k]);
    }
    SumSplit(rows, Gross(net), PaidGross(net), UnpaidGross(net));
    SumSplit(rows, PaidGross(net), PaidNet(net), PaidFee(net));
    SumSplit(rows, UnpaidGross(net), UnpaidNet(net), UnpaidFee(net));
  }

  lemma RunConserves(events: seq<Event>, net: Option<Network>)
    requires Runs(EMPTY, events)
    ensures var rows := After(EMPTY, events).rows;
      var t := TotalsOf(rows, net);
      t.collected == t.paidNet + t.feesEarned + t.owed + SumOf(rows, UnpaidFee(net))
  {
    AtMostOnce(events);
    Conserved(After(EMPTY, events).rows, net);
  }

  // ----- what each step does to the sums -----

  lemma RetoldTotals(rows: map<Key, Payout>, rows': map<Key, Payout>, net: Option<Network>)
    requires rows'.Keys == rows.Keys && forall k :: k in rows ==> Retold(rows[k], rows'[k])
    ensures TotalsOf(rows', net) == TotalsOf(rows, net)
  {
    SumSame(rows, rows', Gross(net));
    SumSame(rows, rows', PaidNet(net));
    SumSame(rows, rows', PaidFee(net));
    SumSame(rows, rows', UnpaidNet(net));
  }

  /** A recorded obligation is collected, and owed less the fee. */
  lemma CreateTotals(l: Ledger, k: Key, p: Payout, net: Option<Network>)
    requires IsFresh(p) && k !in l.rows
    ensures var t, t' := TotalsOf(l.rows, net), TotalsOf(Create(l, k, p).0.rows, net);
      t' == if In(p, net) then t.(collected := t.collected + p.gross, owed := t.owed + p.net) else t
  {
    SumInsert(l.rows, k, p, Gross(net));
    SumInsert(l.rows, k, p, PaidNet(net));
    SumInsert(l.rows, k, p, PaidFee(net));
    SumInsert(l.rows, k, p, UnpaidNet(net));
  }

  ghost predicate Pays(l: Ledger, e: Event) {
    e.DoAttempt? && l.due != [] && !HeldBack(l, l.due[0].1) && Delivers(l.due[0].1, e.env)
  }

  /** A payment moves exactly that row's net from owed to paid and its fee to earned, and nothing else. */
  lemma PaymentTotals(l: Ledger, env: AttemptEnv, net: Option<Network>)
    requires Inv(l) && Pays(l, DoAttempt(env))
    ensures var (k, row) := l.due[0];
      var t, t' := TotalsOf(l.rows, net), TotalsOf(Attempt(l, env).0.rows, net);
      t' == if In(row, net)
            then t.(owed := t.owed - row.net, paidNet := t.paidNet + row.net, feesEarned := t.feesEarned + row.fee)
            else t
  {
    var (k, row) := l.due[0];
    HeadFacts(l);
    var p := l.rows[k].(status := Paid, attempts := row.attempts + 1);
    SumReplace(l.rows, k, p, Gross(net));
    SumReplace(l.rows, k, p, PaidNet(net));
    SumReplace(l.rows, k, p, PaidFee(net));
    SumReplace(l.rows, k, p, UnpaidNet(net));
  }

  /** What the wallet holds beyond what is owed is lowered by a payment by the routing fee alone. */
  lemma PaymentIsNeutral(l: Ledger, env: AttemptEnv)
    requires Inv(l) && Pays(l, DoAttempt(env))
    ensures var l' := Attempt(l, env).0;
      l'.wallet - TotalsOf(l'.rows, None).owed == l.wallet - TotalsOf(l.rows, None).owed - env.routingFee
  {
    PaymentTotals(l, env, None);
  }

  lemma AttemptRetold(l: Ledger, env: AttemptEnv)
    requires Inv(l) && l.due != [] && !Pays(l, DoAttempt(env))
    ensures Attempt(l, env).0.rows.Keys == l.rows.Keys
    ensures forall k :: k in l.rows ==> Retold(l.rows[k], Attempt(l, env).0.rows[k])
  {
    var (k, row) := l.due[0];
    HeadFacts(l);
    AfterFailureRetold(l.rows[k], row, env, l.clock);
    var l' := Attempt(l, env).0;
    forall j | j in l.rows ensures Retold(l.rows[j], l'.rows[j]) {
      assert Sound(l.rows[j]);
    }
  }

  lemma RequeueRetold(l: Ledger, net: Network)
    requires Inv(l)
    ensures forall k :: k in l.rows ==> Retold(l.rows[k], RequeueFailed(l, net).rows[k])
  {
    forall k | k in l.rows ensures Retold(l.rows[k], RequeueFailed(l, net).rows[k]) {
      assert Sound(l.rows[k]);
    }
  }

  lemma RedactRetold(l: Ledger, user: string)
    requires Inv(l)
    ensures forall k :: k in l.rows ==> Retold(l.rows[k], Redact(l, user).rows[k])
  {
    forall k | k in l.rows ensures Retold(l.rows[k], Redact(l, user).rows[k]) {
      assert Sound(l.rows[k]);
    }
  }

  lemma RetryRetold(l: Ledger, k: Key, saved: string)
    requires Inv(l)
    ensures Retry(l, k, saved).0.rows.Keys == l.rows.Keys
    ensures forall j :: j in l.rows ==> Retold(l.rows[j], Retry(l, k, saved).0.rows[j])
  {
    forall j | j in l.rows ensures Retold(l.rows[j], Retry(l, k, saved).0.rows[j]) {
      assert Sound(l.rows[j]);
    }
  }

  /** Failures, deferrals, retries, requeues and redaction leave every total as it was, and the wallet too. */
  lemma OthersKeepTotals(l: Ledger, e: Event, net: Option<Network>)
    requires Inv(l) && Enabled(l, e) && !e.DoCreate? && !Pays(l, e)
    ensures TotalsOf(Step(l, e).rows, net) == TotalsOf(l.rows, net) && Step(l, e).wallet == l.wallet
  {
    match e
    case DoAttempt(env) =>
      AttemptRetold(l, env);
      RetoldTotals(l.rows, Attempt(l, env).0.rows, net);
    case DoRetry(k, saved) =>
      RetryRetold(l, k, saved);
      RetoldTotals(l.rows, Retry(l, k, saved).0.rows, net);
    case DoRequeueFailed(n) =>
      RequeueRetold(l, n);
      RetoldTotals(l.rows, RequeueFailed(l, n).rows, net);
    case DoRedact(user) =>
      RedactRetold(l, user);
      RetoldTotals(l.rows, Redact(l, user).rows, net);
    case _ =>
  }

  // ----- the budget of one pass -----

  /** What the payments of a run sent on a network for rows that the balance test let through. */
  ghost function Admitted(l: Ledger, events: seq<Event>, net: Network): int
    requires Runs(l, events)
    decreases |events|
  {
    if events == [] then 0
    else
      var before := After(l, events[..|events| - 1]);
      Admitted(l, events[..|events| - 1], net) + ByTest(before, events[|events| - 1], net)
  }

  /** A payment counts when the row's amount is within the known balance; a row that is a day old is let
      through whatever the balance, and is counted apart. */
  ghost function ByTest(l: Ledger, e: Event, net: Network): int {
    if Pays(l, e) && l.due[0].1.network == net && net in l.balances && l.due[0].1.net <= l.balances[net]
    then l.due[0].1.net
    else 0
  }

  ghost predicate NoStart(events: seq<Event>) {
    forall i :: 0 <= i < |events| ==> !events[i].DoStart?
  }

  lemma StepBudget(l: Ledger, e: Event, net: Network)
    requires Inv(l) && Enabled(l, e) && !e.DoStart? && net in l.balances && l.balances[net] >= 0
    ensures net in Step(l, e).balances && Step(l, e).balances[net] >= 0
    ensures ByTest(l, e, net) + Step(l, e).balances[net] <= l.balances[net]
  {
    if e.DoAttempt? {
      HeadFacts(l);
    }
  }

  /** Within one pass that knows its balance, whatever else happens in between, the payments that the balance
      test admits never come to more than that balance. */
  lemma {:induction false} BudgetKept(l: Ledger, events: seq<Event>, net: Network)
    requires Inv(l) && Runs(l, events) && NoStart(events) && net in l.balances && l.balances[net] >= 0
    ensures Inv(After(l, events)) && net in After(l, events).balances && After(l, events).balances[net] >= 0
    ensures Admitted(l, events, net) + After(l, events).balances[net] <= l.balances[net]
  {
    if events != [] {
      var n := |events| - 1;
      BudgetKept(l, events[..n], net);
      StepKeeps(After(l, events[..n]), events[n]);
      StepBudget(After(l, events[..n]), events[n], net);
    }
  }
}
