/** What enqueuing records, told from the rounds: for which side of which round, under which key and with which
    figures, and what it leaves alone. */
module QueueRules {
  import opened Results
  import opened Bip69
  import opened PayoutPolicy
  import P = Payouts
  import opened TangoRounds
  import opened PayoutQueue
  import opened PayoutRules

  /** The round has its transaction, the instance pays out on its network, and the transaction is as deep as is
      asked there, and in a block at any rate. */
  ghost predicate IsTaken(r: Round, env: Env) {
    match r.unsignedTx
    case None => false
    case Some(tx) =>
      && |tx.outs| > 0 && env.config(r.network).ready
      && env.depth(TxId(tx)) >= 1 && env.depth(TxId(tx)) >= env.config(r.network).minConfirmations
  }

  lemma TakenMeans(r: Round, env: Env)
    ensures Confirmed(r, env) <==> IsTaken(r, env)
  {
  }

  /** The last output to this script. */
  ghost predicate IsLast(outs: seq<Output>, script: Script, vout: nat) {
    && vout < |outs| && outs[vout].script == script
    && forall j :: vout < j < |outs| ==> outs[j].script != script
  }

  lemma {:induction false} VoutOfIsLast(outs: seq<Output>, script: Script, vout: nat)
    ensures VoutOf(outs, script) == Some(vout) <==> IsLast(outs, script, vout)
  {
    if outs != [] {
      var n := |outs| - 1;
      VoutOfIsLast(outs[..n], script, vout);
      if outs[n].script != script && IsLast(outs, script, vout) {
        assert vout != n;
      }
    }
  }

  /** One side of a round: whether its change was routed, the script and the worth of that change, and whose
      side it is. */
  datatype Side = Side(routed: bool, spk: Option<Script>, change: int, user: User)

  function SideA(r: Round): Side {
    Side(r.aPayout, r.aChangeSpk, r.sums.aChange, r.aUser)
  }

  function SideB(r: Round): Side {
    Side(r.bPayout, r.bChangeSpk, r.sums.bChange, r.bUser)
  }

  /** What the service keeps of a change: its fee, or nothing if the change would not route today. */
  ghost predicate IsCut(fee: int, change: int, cfg: Config) {
    if exists f :: CoversFee(f, change, cfg.feePct, cfg.feeFloor) && change >= 546 && change - f >= 546
    then CoversFee(fee, change, cfg.feePct, cfg.feeFloor) && forall f :: CoversFee(f, change, cfg.feePct, cfg.feeFloor) ==> fee <= f
    else fee == 0
  }

  /** A debt to this side: for the output that holds its change, over that change less the fee, to the address
      the user has saved, due at once and not yet tried. */
  ghost predicate IsDebt(k: P.Key, p: P.Payout, id: RoundId, tx: Tx, net: Network, s: Side, env: Env, now: nat) {
    match s.spk
    case None => false
    case Some(script) =>
      && s.routed && s.change != 0 && s.user != ""
      && k.txid == TxId(tx) && IsLast(tx.outs, script, k.vout)
      && p.roundId == id && p.user == s.user && p.network == net && p.address == env.saved(s.user, net)
      && p.gross == s.change == p.fee + p.net && IsCut(p.fee, s.change, env.config(net))
      && p.status == PayStatus.Pending && p.attempts == 0 && p.nextAttempt == now && p.createdAt == now && !p.notified
  }

  lemma CutIs(change: int, cfg: Config)
    ensures IsCut(PlanPayout(change, cfg.feePct, cfg.feeFloor).fee, change, cfg)
  {
    RoutesExactly(change, cfg.feePct, cfg.feeFloor);
    PayoutSplits(change, cfg.feePct, cfg.feeFloor);
  }

  function OwedTo(id: RoundId, tx: Tx, net: Network, s: Side, env: Env, now: nat): Option<(P.Key, P.Payout)> {
    Owed(id, tx, net, s.routed, s.spk, s.change, s.user, env, now)
  }

  /** A side is owed something exactly if its routed change has a script, is not zero, is some output's and has
      an owner; and then it is that debt. */
  lemma OwedExactly(id: RoundId, tx: Tx, net: Network, s: Side, env: Env, now: nat)
    ensures OwedTo(id, tx, net, s, env, now).Some?
      <==> && s.routed && s.spk.Some? && s.change != 0 && s.user != ""
           && exists i :: 0 <= i < |tx.outs| && tx.outs[i].script == s.spk.value
    ensures OwedTo(id, tx, net, s, env, now).Some? ==>
      IsDebt(OwedTo(id, tx, net, s, env, now).value.0, OwedTo(id, tx, net, s, env, now).value.1, id, tx, net, s, env, now)
  {
    if s.spk.Some? {
      VoutOfFinds(tx.outs, s.spk.value);
      CutIs(s.change, env.config(net));
      PayoutSplits(s.change, env.config(net).feePct, env.config(net).feeFloor);
      match VoutOf(tx.outs, s.spk.value)
      case None =>
      case Some(vout) => VoutOfIsLast(tx.outs, s.spk.value, vout);
    }
  }

  /** The row comes from a side of this round. */
  ghost predicate ComesFrom(k: P.Key, p: P.Payout, id: RoundId, r: Round, env: Env, now: nat) {
    match r.unsignedTx
    case None => false
    case Some(tx) =>
      IsTaken(r, env) && (IsDebt(k, p, id, tx, r.network, SideA(r), env, now) || IsDebt(k, p, id, tx, r.network, SideB(r), env, now))
  }

  /** Whatever is owed to a side of this round has a row, under whatever figures. */
  ghost predicate IsRecorded(rows: map<P.Key, P.Payout>, id: RoundId, r: Round, env: Env) {
    match r.unsignedTx
    case None => true
    case Some(tx) => IsTaken(r, env) ==> SideRecorded(rows, tx, SideA(r)) && SideRecorded(rows, tx, SideB(r))
  }

  ghost predicate SideRecorded(rows: map<P.Key, P.Payout>, tx: Tx, s: Side) {
    match s.spk
    case None => true
    case Some(script) =>
      forall vout: nat :: s.routed && s.change != 0 && s.user != "" && IsLast(tx.outs, script, vout) ==> P.Key(TxId(tx), vout) in rows
  }

  lemma SideIsRecorded(l: P.Ledger, id: RoundId, tx: Tx, net: Network, s: Side, env: Env, now: nat)
    requires Holds(l, OwedTo(id, tx, net, s, env, now))
    ensures SideRecorded(l.rows, tx, s)
  {
    if s.spk.Some? {
      forall vout: nat | s.routed && s.change != 0 && s.user != "" && IsLast(tx.outs, s.spk.value, vout)
        ensures P.Key(TxId(tx), vout) in l.rows
      {
        VoutOfIsLast(tx.outs, s.spk.value, vout);
      }
    }
  }

  /** What one step of the queue does to the table. */
  ghost predicate Grown(rows: map<P.Key, P.Payout>, rows': map<P.Key, P.Payout>, id: RoundId, r: Round, env: Env, now: nat) {
    && (forall k :: k in rows ==> k in rows' && rows'[k] == rows[k])
    && (forall k :: k in rows' && k !in rows ==> ComesFrom(k, rows'[k], id, r, env, now))
    && IsRecorded(rows', id, r, env)
  }

  lemma EnqueueOneExactly(l: P.Ledger, id: RoundId, r: Round, env: Env)
    ensures EnqueueOne(l, id, r, env) == l.(rows := EnqueueOne(l, id, r, env).rows)
    ensures Grown(l.rows, EnqueueOne(l, id, r, env).rows, id, r, env, l.clock)
  {
    TakenMeans(r, env);
    if Confirmed(r, env) {
      var tx := r.unsignedTx.value;
      var l' := EnqueueOne(l, id, r, env);
      EnqueueOneCovers(l, id, r, env);
      assert Holds(l', OwedA(id, r, env, l.clock)) && Holds(l', OwedB(id, r, env, l.clock));
      SideIsRecorded(l', id, tx, r.network, SideA(r), env, l.clock);
      SideIsRecorded(l', id, tx, r.network, SideB(r), env, l.clock);
      OwedExactly(id, tx, r.network, SideA(r), env, l.clock);
      OwedExactly(id, tx, r.network, SideB(r), env, l.clock);
    }
  }

  /** Some round of the list is where this row comes from. */
  ghost predicate HasOrigin(k: P.Key, p: P.Payout, rounds: seq<(RoundId, Round)>, env: Env, now: nat) {
    exists i :: 0 <= i < |rounds| && ComesFrom(k, p, rounds[i].0, rounds[i].1, env, now)
  }

  /** Enqueuing touches no row there is; every row it adds is a debt to a side of a round it was given; and
      afterwards every such debt has its row. */
  lemma {:induction false} EnqueueExactly(l: P.Ledger, rounds: seq<(RoundId, Round)>, env: Env)
    ensures var l' := Enqueue(l, rounds, env);
      && l' == l.(rows := l'.rows)
      && (forall k :: k in l.rows ==> k in l'.rows && l'.rows[k] == l.rows[k])
      && (forall k :: k in l'.rows && k !in l.rows ==> HasOrigin(k, l'.rows[k], rounds, env, l.clock))
      && (forall i :: 0 <= i < |rounds| ==> IsRecorded(l'.rows, rounds[i].0, rounds[i].1, env))
  {
    if rounds != [] {
      var n := |rounds| - 1;
      var before, l' := Enqueue(l, rounds[..n], env), Enqueue(l, rounds, env);
      EnqueueExactly(l, rounds[..n], env);
      EnqueueOneExactly(before, rounds[n].0, rounds[n].1, env);
      forall k | k in l'.rows && k !in l.rows ensures HasOrigin(k, l'.rows[k], rounds, env, l.clock) {
        if k in before.rows {
          var i :| 0 <= i < n && ComesFrom(k, before.rows[k], rounds[..n][i].0, rounds[..n][i].1, env, l.clock);
          assert ComesFrom(k, l'.rows[k], rounds[i].0, rounds[i].1, env, l.clock);
        } else {
          assert ComesFrom(k, l'.rows[k], rounds[n].0, rounds[n].1, env, l.clock);
        }
      }
      forall i | 0 <= i < |rounds| ensures IsRecorded(l'.rows, rounds[i].0, rounds[i].1, env) {
        if i < n {
          assert rounds[..n][i] == rounds[i];
          StillRecorded(before.rows, l'.rows, rounds[i].0, rounds[i].1, env);
        }
      }
    }
  }

  lemma StillRecorded(rows: map<P.Key, P.Payout>, rows': map<P.Key, P.Payout>, id: RoundId, r: Round, env: Env)
    requires IsRecorded(rows, id, r, env) && forall k :: k in rows ==> k in rows'
    ensures IsRecorded(rows', id, r, env)
  {
  }
}
