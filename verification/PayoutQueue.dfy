/** Where payouts come from: `enqueue_tango_payouts` reads broadcast rounds, whose rows may since have been
    redacted by `purge_tango_side`. What the configuration, the explorer and the users' settings say comes
    in as an argument. */
module PayoutQueue {
  import opened Results
  import opened Bip69
  import opened PayoutPolicy
  import P = Payouts
  import opened TangoRounds

  /** The id of a transaction. */
  const TxId: Tx -> string

  datatype Config = Config(ready: bool, minConfirmations: nat, feePct: real, feeFloor: int)

  datatype Env = Env(config: Network -> Config, depth: string -> nat, saved: (User, Network) -> string)

  /** `_tango_outputs`: the position of a script in the transaction, the last one if there are several. */
  function VoutOf(outs: seq<Output>, script: Script): Option<nat> {
    if outs == [] then None
    else if outs[|outs| - 1].script == script then Some(|outs| - 1)
    else VoutOf(outs[..|outs| - 1], script)
  }

  lemma {:induction false} VoutOfFinds(outs: seq<Output>, script: Script)
    ensures VoutOf(outs, script).Some? ==> VoutOf(outs, script).value < |outs| && outs[VoutOf(outs, script).value].script == script
    ensures VoutOf(outs, script).None? <==> forall i :: 0 <= i < |outs| ==> outs[i].script != script
  {
    if outs != [] {
      VoutOfFinds(outs[..|outs| - 1], script);
    }
  }

  // ----- one side's obligation -----

  /** What one side of a confirmed round is owed, if it routed its change. */
  function Owed(id: RoundId, tx: Tx, net: Network, routed: bool, spk: Option<Script>, change: int, user: User, env: Env, now: nat)
    : Option<(P.Key, P.Payout)>
  {
    if !routed || spk.None? || change == 0 || user == "" then None
    else
      match VoutOf(tx.outs, spk.value)
      case None => None
      case Some(vout) =>
        var cfg := env.config(net);
        var plan := PlanPayout(change, cfg.feePct, cfg.feeFloor);
        var (fee, pay) := if plan.routed then (plan.fee, plan.net) else (0, change);
        Some((P.Key(TxId(tx), vout), P.Payout(id, user, net, env.saved(user, net), change, fee, pay, PayStatus.Pending, 0, now, now, false)))
  }

  function OwedA(id: RoundId, r: Round, env: Env, now: nat): Option<(P.Key, P.Payout)> {
    match r.unsignedTx
    case None => None
    case Some(tx) => Owed(id, tx, r.network, r.aPayout, r.aChangeSpk, r.sums.aChange, r.aUser, env, now)
  }

  function OwedB(id: RoundId, r: Round, env: Env, now: nat): Option<(P.Key, P.Payout)> {
    match r.unsignedTx
    case None => None
    case Some(tx) => Owed(id, tx, r.network, r.bPayout, r.bChangeSpk, r.sums.bChange, r.bUser, env, now)
  }

  /** Every obligation is born balanced: its fee and its payout come to the change that was routed, also when
      today's fee would no longer let it through. */
  lemma OwedIsFresh(id: RoundId, tx: Tx, net: Network, routed: bool, spk: Option<Script>, change: int, user: User, env: Env, now: nat)
    requires change >= 0 && Owed(id, tx, net, routed, spk, change, user, env, now).Some?
    ensures P.IsFresh(Owed(id, tx, net, routed, spk, change, user, env, now).value.1)
    ensures var p := Owed(id, tx, net, routed, spk, change, user, env, now).value.1;
      && p.gross == change && p.user == user && p.network == net
      && p.fee == (if Routes(change, env.config(net).feePct, env.config(net).feeFloor)
                   then ServiceFee(change, env.config(net).feePct, env.config(net).feeFloor) else 0)
  {
    PayoutSplits(change, env.config(net).feePct, env.config(net).feeFloor);
  }

  // ----- the queue -----

  /** Whether a round is taken at all. */
  predicate Confirmed(r: Round, env: Env) {
    && r.unsignedTx.Some? && r.unsignedTx.value.outs != []
    && env.config(r.network).ready
    && env.depth(TxId(r.unsignedTx.value)) >= (if env.config(r.network).minConfirmations > 1 then env.config(r.network).minConfirmations else 1)
  }

  function Record(l: P.Ledger, owed: Option<(P.Key, P.Payout)>): P.Ledger {
    match owed
    case None => l
    case Some((k, p)) => P.Create(l, k, p).0
  }

  function EnqueueOne(l: P.Ledger, id: RoundId, r: Round, env: Env): P.Ledger {
    if !Confirmed(r, env) then l
    else Record(Record(l, OwedA(id, r, env, l.clock)), OwedB(id, r, env, l.clock))
  }

  /** `enqueue_tango_payouts` over the rounds the query returns. */
  function Enqueue(l: P.Ledger, rounds: seq<(RoundId, Round)>, env: Env): P.Ledger {
    if rounds == [] then l
    else
      var (id, r) := rounds[|rounds| - 1];
      EnqueueOne(Enqueue(l, rounds[..|rounds| - 1], env), id, r, env)
  }

  ghost predicate Sane(r: Round) {
    r.sums.aChange >= 0 && r.sums.bChange >= 0
  }

  lemma RecordKeeps(l: P.Ledger, owed: Option<(P.Key, P.Payout)>)
    requires P.Inv(l) && (owed.Some? ==> P.IsFresh(owed.value.1))
    ensures P.Inv(Record(l, owed))
  {
    if owed.Some? {
      P.CreateKeeps(l, owed.value.0, owed.value.1);
    }
  }

  lemma EnqueueOneKeeps(l: P.Ledger, id: RoundId, r: Round, env: Env)
    requires P.Inv(l) && Sane(r)
    ensures P.Inv(EnqueueOne(l, id, r, env)) && EnqueueOne(l, id, r, env).clock == l.clock
  {
    if Confirmed(r, env) {
      var tx := r.unsignedTx.value;
      var a, b := OwedA(id, r, env, l.clock), OwedB(id, r, env, l.clock);
      if a.Some? {
        OwedIsFresh(id, tx, r.network, r.aPayout, r.aChangeSpk, r.sums.aChange, r.aUser, env, l.clock);
      }
      if b.Some? {
        OwedIsFresh(id, tx, r.network, r.bPayout, r.bChangeSpk, r.sums.bChange, r.bUser, env, l.clock);
      }
      RecordKeeps(l, a);
      RecordKeeps(Record(l, a), b);
    }
  }

  /** Enqueuing keeps the ledger's invariant: it never touches a row that is there. */
  lemma {:induction false} EnqueueKeeps(l: P.Ledger, rounds: seq<(RoundId, Round)>, env: Env)
    requires P.Inv(l) && forall i :: 0 <= i < |rounds| ==> Sane(rounds[i].1)
    ensures P.Inv(Enqueue(l, rounds, env)) && Enqueue(l, rounds, env).clock == l.clock
  {
    if rounds != [] {
      var n := |rounds| - 1;
      EnqueueKeeps(l, rounds[..n], env);
      EnqueueOneKeeps(Enqueue(l, rounds[..n], env), rounds[n].0, rounds[n].1, env);
    }
  }

  // ----- running it again changes nothing -----

  ghost predicate Holds(l: P.Ledger, owed: Option<(P.Key, P.Payout)>) {
    owed.Some? ==> owed.value.0 in l.rows
  }

  /** Everything a round is owed, whenever it was recorded, has its row. */
  ghost predicate Covers(l: P.Ledger, id: RoundId, r: Round, env: Env) {
    Confirmed(r, env) ==> forall now: nat :: Holds(l, OwedA(id, r, env, now)) && Holds(l, OwedB(id, r, env, now))
  }

  ghost predicate Extends(l: P.Ledger, l': P.Ledger) {
    forall k :: k in l.rows ==> k in l'.rows && l'.rows[k] == l.rows[k]
  }

  /** The key of an obligation does not depend on when it is recorded. */
  lemma KeyOfOwed(id: RoundId, r: Round, env: Env, now: nat, later: nat)
    ensures OwedA(id, r, env, now).Some? <==> OwedA(id, r, env, later).Some?
    ensures OwedA(id, r, env, now).Some? ==> OwedA(id, r, env, now).value.0 == OwedA(id, r, env, later).value.0
    ensures OwedB(id, r, env, now).Some? <==> OwedB(id, r, env, later).Some?
    ensures OwedB(id, r, env, now).Some? ==> OwedB(id, r, env, now).value.0 == OwedB(id, r, env, later).value.0
  {
  }

  lemma EnqueueOneCovers(l: P.Ledger, id: RoundId, r: Round, env: Env)
    ensures Covers(EnqueueOne(l, id, r, env), id, r, env) && Extends(l, EnqueueOne(l, id, r, env))
  {
    var l' := EnqueueOne(l, id, r, env);
    if Confirmed(r, env) {
      forall now: nat ensures Holds(l', OwedA(id, r, env, now)) && Holds(l', OwedB(id, r, env, now)) {
        KeyOfOwed(id, r, env, now, l.clock);
      }
    }
  }

  lemma CoveredStays(l: P.Ledger, l': P.Ledger, id: RoundId, r: Round, env: Env)
    requires Covers(l, id, r, env) && Extends(l, l')
    ensures Covers(l', id, r, env)
  {
    if Confirmed(r, env) {
      forall now: nat ensures Holds(l', OwedA(id, r, env, now)) && Holds(l', OwedB(id, r, env, now)) {
        assert Holds(l, OwedA(id, r, env, now)) && Holds(l, OwedB(id, r, env, now));
      }
    }
  }

  lemma CoveredIsDone(l: P.Ledger, id: RoundId, r: Round, env: Env)
    requires Covers(l, id, r, env)
    ensures EnqueueOne(l, id, r, env) == l
  {
    if Confirmed(r, env) {
      assert Holds(l, OwedA(id, r, env, l.clock)) && Holds(l, OwedB(id, r, env, l.clock));
    }
  }

  lemma {:induction false} EnqueueCovers(l: P.Ledger, rounds: seq<(RoundId, Round)>, env: Env)
    ensures Extends(l, Enqueue(l, rounds, env))
    ensures forall i :: 0 <= i < |rounds| ==> Covers(Enqueue(l, rounds, env), rounds[i].0, rounds[i].1, env)
  {
    if rounds != [] {
      var n := |rounds| - 1;
      var before := Enqueue(l, rounds[..n], env);
      EnqueueCovers(l, rounds[..n], env);
      EnqueueOneCovers(before, rounds[n].0, rounds[n].1, env);
      forall i | 0 <= i < n ensures Covers(Enqueue(l, rounds, env), rounds[i].0, rounds[i].1, env) {
        assert rounds[..n][i] == rounds[i];
        CoveredStays(before, Enqueue(l, rounds, env), rounds[i].0, rounds[i].1, env);
      }
    }
  }

  lemma {:induction false} AllCovered(l: P.Ledger, rounds: seq<(RoundId, Round)>, env: Env)
    requires forall i :: 0 <= i < |rounds| ==> Covers(l, rounds[i].0, rounds[i].1, env)
    ensures Enqueue(l, rounds, env) == l
  {
    if rounds != [] {
      var n := |rounds| - 1;
      AllCovered(l, rounds[..n], env);
      CoveredIsDone(l, rounds[n].0, rounds[n].1, env);
    }
  }

  /** A restart, or an overlapping sweep, records nothing twice. */
  lemma EnqueueTwice(l: P.Ledger, rounds: seq<(RoundId, Round)>, env: Env)
    ensures Enqueue(Enqueue(l, rounds, env), rounds, env) == Enqueue(l, rounds, env)
  {
    EnqueueCovers(l, rounds, env);
    AllCovered(Enqueue(l, rounds, env), rounds, env);
  }

  // ----- redaction and the queue -----

  /** The broadcast rounds after one wallet has been taken off them. */
  function Purged(rounds: seq<(RoundId, Round)>, walletId: WalletId, forget: bool): (r: seq<(RoundId, Round)>)
    requires forall i :: 0 <= i < |rounds| ==> PurgeSide(rounds[i].1, walletId, forget).Some?
    ensures |r| == |rounds|
  {
    seq(|rounds|, i requires 0 <= i < |rounds| => (rounds[i].0, PurgeSide(rounds[i].1, walletId, forget).value))
  }

  /** Removing a wallet clears its side's coins and wallet and nothing else of a broadcast round. */
  lemma PurgeIsNarrow(r: Round, walletId: WalletId, forget: bool)
    requires r.status.Broadcast? && PurgeSide(r, walletId, forget).Some?
    ensures var r' := PurgeSide(r, walletId, forget).value;
      if r.aWallet == Some(walletId) then
        r' == r.(aInputs := [], aWallet := None, aUser := r'.aUser) && r'.aUser == (if forget then "" else r.aUser)
      else if r.bWallet == Some(walletId) then
        r' == r.(bInputs := [], bWallet := None, bUser := r'.bUser) && r'.bUser == (if forget then "" else r.bUser)
      else r' == r
  {
  }

  lemma RemovalKeepsRow(r: Round, walletId: WalletId)
    requires r.status.Broadcast?
    ensures PurgeSide(r, walletId, false).Some?
  {
  }

  lemma RemovalKeepsOwed(id: RoundId, r: Round, walletId: WalletId, env: Env, now: nat)
    requires r.status.Broadcast?
    ensures PurgeSide(r, walletId, false).Some?
    ensures var r' := PurgeSide(r, walletId, false).value;
      && OwedA(id, r', env, now) == OwedA(id, r, env, now) && OwedB(id, r', env, now) == OwedB(id, r, env, now)
      && (Confirmed(r', env) <==> Confirmed(r, env))
  {
    PurgeIsNarrow(r, walletId, false);
  }

  /** Removing a wallet commutes with enqueuing: the same payouts are recorded before and after. */
  lemma {:induction false} RemovalCommutes(l: P.Ledger, rounds: seq<(RoundId, Round)>, walletId: WalletId, env: Env)
    requires forall i :: 0 <= i < |rounds| ==> rounds[i].1.status.Broadcast?
    ensures forall i :: 0 <= i < |rounds| ==> PurgeSide(rounds[i].1, walletId, false).Some?
    ensures Enqueue(l, Purged(rounds, walletId, false), env) == Enqueue(l, rounds, env)
  {
    forall i | 0 <= i < |rounds| ensures PurgeSide(rounds[i].1, walletId, false).Some? {
      RemovalKeepsRow(rounds[i].1, walletId);
    }
    if rounds != [] {
      var n := |rounds| - 1;
      RemovalCommutes(l, rounds[..n], walletId, env);
      var purged := Purged(rounds, walletId, false);
      assert purged[..n] == Purged(rounds[..n], walletId, false);
      RemovalKeepsOwed(rounds[n].0, rounds[n].1, walletId, env, Enqueue(l, rounds[..n], env).clock);
    }
  }

  lemma ForgottenOwed(id: RoundId, r: Round, walletId: WalletId, env: Env, now: nat)
    requires r.status.Broadcast? && PurgeSide(r, walletId, true).Some?
    ensures var r' := PurgeSide(r, walletId, true).value;
      && (Confirmed(r', env) <==> Confirmed(r, env))
      && OwedA(id, r', env, now) == (if r.aWallet == Some(walletId) then None else OwedA(id, r, env, now))
      && OwedB(id, r', env, now) == (if r.aWallet != Some(walletId) && r.bWallet == Some(walletId) then None else OwedB(id, r, env, now))
  {
  }

  /** Two obligations of different people are told apart, even over one output. */
  lemma OtherPayee(l: P.Ledger, k: P.Key, p: P.Payout, owed: Option<(P.Key, P.Payout)>)
    requires k !in l.rows && (owed.Some? ==> owed.value.1.user != p.user)
    ensures Record(P.Create(l, k, p).0, owed) != Record(l, owed)
  {
    assert Record(P.Create(l, k, p).0, owed).rows[k] == p;
  }

  /** Forgetting an account before the round is enqueued comes to the same as after it exactly if the round
      is not taken yet or the forgotten side has nothing left to record: it is owed nothing, or its output has
      a row already. */
  lemma ForgettingDropsOwed(l: P.Ledger, id: RoundId, r: Round, walletId: WalletId, env: Env)
    requires r.status.Broadcast? && PurgeSide(r, walletId, true).Some? && (r.aUser != "" ==> r.aUser != r.bUser)
    requires r.aWallet == Some(walletId) || r.bWallet == Some(walletId)
    ensures EnqueueOne(l, id, PurgeSide(r, walletId, true).value, env) == EnqueueOne(l, id, r, env)
      <==> (Confirmed(r, env) ==>
              if r.aWallet == Some(walletId) then Holds(l, OwedA(id, r, env, l.clock))
              else Holds(Record(l, OwedA(id, r, env, l.clock)), OwedB(id, r, env, l.clock)))
  {
    ForgottenOwed(id, r, walletId, env, l.clock);
    var a, b := OwedA(id, r, env, l.clock), OwedB(id, r, env, l.clock);
    if Confirmed(r, env) && r.aWallet == Some(walletId) && !Holds(l, a) {
      OtherPayee(l, a.value.0, a.value.1, b);
    }
  }
}
