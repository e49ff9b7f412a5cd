/** What a payout comes from: in every run of rounds and payouts together, an obligation is a routed change
    of a broadcast round, kept in an output of its transaction. */
module PayoutOrigin {
  import opened Results
  import opened Bip69
  import opened TangoPlan
  import P = Payouts
  import opened TangoRounds
  import opened TangoSafety
  import opened TangoHistory
  import opened TangoSweep
  import opened PayoutQueue

  // ----- what a broadcast row still says of its outputs -----

  /** The outputs of the stored transaction are those of the stored amounts and scripts. */
  ghost predicate Built(r: Round) {
    match r.status
    case Broadcast =>
      && r.unsignedTx.Some?
      && OutputsFor(TangoAmounts(r), r.aMix, r.bMix, r.aChangeSpk, r.bChangeSpk) == Ok(r.unsignedTx.value.outs)
      && r.sums.aChange >= 0 && r.sums.bChange >= 0
    case _ => true
  }

  ghost predicate AllBuilt(w: World) {
    forall id :: id in w.rounds ==> Built(w.rounds[id])
  }

  /** The row keeps all that the outputs and the payouts are read from. */
  ghost predicate SameOutputs(r: Round, r': Round) {
    match (r, r')
    case (_, _) =>
      && r'.unsignedTx == r.unsignedTx && r'.denom == r.denom && r'.pieces == r.pieces && r'.sums == r.sums
      && r'.aMix == r.aMix && r'.bMix == r.bMix && r'.aChangeSpk == r.aChangeSpk && r'.bChangeSpk == r.bChangeSpk
  }

  lemma SameOutputsBuilt(r: Round, r': Round)
    requires SameOutputs(r, r') && Built(r) && r.status.Broadcast?
    ensures Built(r')
  {
    assert TangoAmounts(r') == TangoAmounts(r);
  }

  lemma SignedIsBuilt(r: Round, bw: map<nat, Signature>)
    requires Sound(r) && r.status.ASigned?
    ensures Built(r.(status := Broadcast, bWitnesses := bw))
  {
    PlanConserves(r.aInputs, r.bInputs, r.denom, r.feeRate, PiecesOr1(r));
    assert TangoAmounts(r.(status := Broadcast, bWitnesses := bw)) == TangoAmounts(r);
  }

  /** A broadcast row was broadcast before, or is a signed one that B has just signed. */
  ghost predicate ComesFrom(w: World, id: RoundId, r': Round) {
    match r'.status
    case Broadcast =>
      && id in w.rounds
      && ((w.rounds[id].status.Broadcast? && SameOutputs(w.rounds[id], r'))
          || (w.rounds[id].status.ASigned? && r' == w.rounds[id].(status := Broadcast, bWitnesses := r'.bWitnesses)))
    case _ => true
  }

  lemma StillComesFrom(w: World, id: RoundId)
    requires id in w.rounds
    ensures ComesFrom(w, id, w.rounds[id])
  {
  }

  lemma AcceptComesFrom(w: World, uid: User, id: RoundId, d: AcceptData, env: AcceptEnv)
    requires id in w.rounds
    ensures id in Accept(w, uid, id, d, env).0.rounds && ComesFrom(w, id, Accept(w, uid, id, d, env).0.rounds[id])
  {
    var r' := AcceptOutcome(w, uid, id, d, env);
  }

  lemma SignComesFrom(w: World, uid: User, id: RoundId, d: SignData, env: SignEnv)
    requires Inv(w) && id in w.rounds
    ensures id in Sign(w, uid, id, d, env).0.rounds && ComesFrom(w, id, Sign(w, uid, id, d, env).0.rounds[id])
  {
    StillComesFrom(w, id);
    if SignRefusal(w, uid, id, env).None? {
      SignChecked(w, uid, id, env);
      assert Sound(w.rounds[id]);
      if w.rounds[id].status.Accepted? {
        var r' := SignAOutcome(w, id, d);
      } else if w.rounds[id].status.Proposed? {
        TooEarlyForB(w.rounds[id], d);
      } else {
        SignBComesFrom(w, id, d, env);
      }
    }
  }

  lemma SignBComesFrom(w: World, id: RoundId, d: SignData, env: SignEnv)
    requires id in w.rounds && w.rounds[id].status.ASigned?
    ensures id in SignB(w, id, d, env).0.rounds && ComesFrom(w, id, SignB(w, id, d, env).0.rounds[id])
  {
  }

  lemma PurgeComesFrom(w: World, walletId: WalletId, forget: bool, id: RoundId)
    requires id in w.rounds && id in RemoveWallet(w, walletId, forget).rounds
    ensures ComesFrom(w, id, RemoveWallet(w, walletId, forget).rounds[id])
  {
    StillComesFrom(w, id);
    if walletId in w.wallets {
      assert RemoveWallet(w, walletId, forget).rounds == PurgeRounds(w.rounds, walletId, forget);
    }
  }

  lemma CancelComesFrom(w: World, e: Event, id: RoundId)
    requires Inv(w) && id in w.rounds && id in Step(w, e).rounds
    requires e.DoCancel? || e.DoClose? || e.DoRemoveContact?
    ensures ComesFrom(w, id, Step(w, e).rounds[id])
  {
    StillComesFrom(w, id);
  }

  lemma RowComesFrom(w: World, e: Event, id: RoundId)
    requires Inv(w) && id in Step(w, e).rounds
    ensures ComesFrom(w, id, Step(w, e).rounds[id])
  {
    if id !in w.rounds {
      NewComesFrom(w, e, id);
    } else if !Touches(e, id) {
      OthersUntouched(w, e, id);
      StillComesFrom(w, id);
    } else {
      match e
      case DoAccept(uid, _, d, env) => AcceptComesFrom(w, uid, id, d, env);
      case DoSign(uid, _, d, env) => SignComesFrom(w, uid, id, d, env);
      case DoRemoveWallet(walletId, forget) => PurgeComesFrom(w, walletId, forget, id);
      case _ => CancelComesFrom(w, e, id);
    }
  }

  lemma NewComesFrom(w: World, e: Event, id: RoundId)
    requires id in Step(w, e).rounds && id !in w.rounds
    ensures ComesFrom(w, id, Step(w, e).rounds[id])
  {
    match e
    case DoAccept(uid, i, d, env) => AcceptIds(w, uid, i, d, env);
    case DoSign(uid, i, d, env) => SignIds(w, uid, i, d, env);
    case _ =>
  }

  lemma StepBuilt(w: World, e: Event)
    requires Inv(w) && AllBuilt(w)
    ensures AllBuilt(Step(w, e))
  {
    var w' := Step(w, e);
    forall id | id in w'.rounds ensures Built(w'.rounds[id]) {
      RowComesFrom(w, e, id);
      if w'.rounds[id].status.Broadcast? {
        assert Sound(w.rounds[id]) && Built(w.rounds[id]);
        if w.rounds[id].status.ASigned? {
          SignedIsBuilt(w.rounds[id], w'.rounds[id].bWitnesses);
        } else {
          SameOutputsBuilt(w.rounds[id], w'.rounds[id]);
        }
      }
    }
  }

  // ----- the output an obligation names -----

  lemma ListedChange(p: Amounts, aMix: seq<Script>, bMix: seq<Script>, aChange: Option<Script>, bChange: Option<Script>)
    requires OutputsFor(p, aMix, bMix, aChange, bChange).Ok?
    ensures var outs := OutputsFor(p, aMix, bMix, aChange, bChange).value;
      && (p.aChange != 0 ==> aChange.Some? && Output(p.aChange, aChange.value) in outs)
      && (p.bChange != 0 ==> bChange.Some? && Output(p.bChange, bChange.value) in outs)
  {
    var listed := Listed(p, aMix, bMix, aChange, bChange);
    var front := Pay(p.share, aMix) + Pay(p.share, bMix);
    assert listed == front + Change(p.aChange, aChange) + Change(p.bChange, bChange);
    if p.aChange != 0 {
      assert listed[|front|] == Output(p.aChange, aChange.value);
      InSorted(listed, Output(p.aChange, aChange.value));
    }
    if p.bChange != 0 {
      assert listed[|listed| - 1] == Output(p.bChange, bChange.value);
      InSorted(listed, Output(p.bChange, bChange.value));
    }
  }

  lemma InSorted(listed: seq<Output>, o: Output)
    requires o in listed
    ensures o in Sort(OutputLeq, listed)
  {
    assert o in multiset(listed);
    assert o in multiset(Sort(OutputLeq, listed));
  }

  lemma OutputsOrdered(p: Amounts, aMix: seq<Script>, bMix: seq<Script>, aChange: Option<Script>, bChange: Option<Script>)
    requires OutputsFor(p, aMix, bMix, aChange, bChange).Ok?
    ensures Ordered(OutputLeq, OutputsFor(p, aMix, bMix, aChange, bChange).value)
  {
    OutputOrder();
    SortOrdered(OutputLeq, Listed(p, aMix, bMix, aChange, bChange));
  }

  /** The position found is the last with that script. */
  lemma {:induction false} VoutOfLast(outs: seq<Output>, script: Script, j: nat)
    requires j < |outs| && outs[j].script == script
    ensures VoutOf(outs, script).Some? && j <= VoutOf(outs, script).value < |outs|
    ensures outs[VoutOf(outs, script).value].script == script
  {
    var n := |outs| - 1;
    if outs[n].script != script {
      VoutOfLast(outs[..n], script, j);
    }
  }

  /** No output to the script is worth more than the change. */
  ghost predicate Dearest(outs: seq<Output>, script: Script, change: int) {
    forall j :: 0 <= j < |outs| && outs[j].script == script ==> outs[j].value <= change
  }

  /** Of a list in BIP-69 order that holds the change, the position found is an output to its script worth at
      least the change, and worth exactly the change if and only if no output to that script is worth more. */
  lemma ChangeFound(outs: seq<Output>, script: Script, change: int)
    requires Ordered(OutputLeq, outs) && Output(change, script) in outs
    ensures VoutOf(outs, script).Some?
    ensures var v := VoutOf(outs, script).value;
      && v < |outs| && outs[v].script == script && outs[v].value >= change
      && (outs[v].value == change <==> Dearest(outs, script, change))
  {
    var j :| 0 <= j < |outs| && outs[j] == Output(change, script);
    VoutOfLast(outs, script, j);
    var v := VoutOf(outs, script).value;
    forall i | 0 <= i < |outs| && outs[i].script == script ensures outs[i].value <= outs[v].value {
      VoutOfLast(outs, script, i);
      assert i == v || OutputLeq(outs[i], outs[v]);
    }
  }

  /** An obligation names an output of the transaction. */
  ghost predicate Backs(tx: Tx, k: P.Key, p: P.Payout) {
    k.txid == TxId(tx) && k.vout < |tx.outs| && 0 < p.gross <= tx.outs[k.vout].value
  }

  /** A routed side of a broadcast round is owed its change exactly while it has a change and a name, and what
      it is owed is kept in an output to its script; in exactly that amount unless the script is also paid
      more, which takes somebody to have used it twice. */
  lemma OwedIsKept(id: RoundId, r: Round, env: Env, now: nat)
    requires Built(r) && r.status.Broadcast?
    ensures OwedA(id, r, env, now).Some? <==> r.aPayout && r.sums.aChange != 0 && r.aUser != ""
    ensures OwedB(id, r, env, now).Some? <==> r.bPayout && r.sums.bChange != 0 && r.bUser != ""
    ensures OwedA(id, r, env, now).Some? ==>
      Kept(r.unsignedTx.value, OwedA(id, r, env, now).value, r.aChangeSpk, r.sums.aChange, r.aUser)
    ensures OwedB(id, r, env, now).Some? ==>
      Kept(r.unsignedTx.value, OwedB(id, r, env, now).value, r.bChangeSpk, r.sums.bChange, r.bUser)
  {
    var outs := r.unsignedTx.value.outs;
    ListedChange(TangoAmounts(r), r.aMix, r.bMix, r.aChangeSpk, r.bChangeSpk);
    OutputsOrdered(TangoAmounts(r), r.aMix, r.bMix, r.aChangeSpk, r.bChangeSpk);
    if r.sums.aChange != 0 {
      ChangeFound(outs, r.aChangeSpk.value, r.sums.aChange);
    }
    if r.sums.bChange != 0 {
      ChangeFound(outs, r.bChangeSpk.value, r.sums.bChange);
    }
  }

  ghost predicate Kept(tx: Tx, owed: (P.Key, P.Payout), spk: Option<Script>, change: int, user: User) {
    match owed
    case (k, p) =>
      && Backs(tx, k, p) && p.gross == change && p.user == user
      && spk.Some? && tx.outs[k.vout].script == spk.value
      && (p.gross == tx.outs[k.vout].value <==> Dearest(tx.outs, spk.value, change))
  }

  /** Two sides with different scripts are owed different outputs. */
  lemma KeysApart(id: RoundId, r: Round, env: Env, now: nat)
    requires Built(r) && r.status.Broadcast? && r.aChangeSpk != r.bChangeSpk
    requires OwedA(id, r, env, now).Some? && OwedB(id, r, env, now).Some?
    ensures OwedA(id, r, env, now).value.0 != OwedB(id, r, env, now).value.0
  {
    OwedIsKept(id, r, env, now);
  }

  // ----- rounds and payouts together -----

  datatype Books = Books(world: World, ledger: P.Ledger)

  datatype Entry =
    | OfRounds(e: Event)
    | OfPayouts(p: P.Event)
    | OfQueue(rounds: seq<(RoundId, Round)>, env: Env)

  /** `list_broadcast_tango_rounds_with_payouts`, in any order. */
  ghost predicate FromTable(w: World, rounds: seq<(RoundId, Round)>) {
    forall i :: 0 <= i < |rounds| ==>
      rounds[i].0 in w.rounds && w.rounds[rounds[i].0] == rounds[i].1 && rounds[i].1.status.Broadcast?
  }

  /** Obligations come from the queue alone. */
  ghost predicate MayEnter(b: Books, x: Entry) {
    match x
    case OfRounds(e) => Enabled(b.world, e)
    case OfPayouts(p) => P.Enabled(b.ledger, p) && !p.DoCreate?
    case OfQueue(rounds, _) => FromTable(b.world, rounds)
  }

  ghost function Enter(b: Books, x: Entry): Books
    requires MayEnter(b, x)
  {
    match x
    case OfRounds(e) => b.(world := Step(b.world, e))
    case OfPayouts(p) => b.(ledger := P.Step(b.ledger, p))
    case OfQueue(rounds, env) => b.(ledger := Enqueue(b.ledger, rounds, env))
  }

  /** Every payout is over an output that a broadcast round really made, and for no more than it holds. */
  ghost predicate Backed(chain: map<RoundId, Sent>, rows: map<P.Key, P.Payout>) {
    forall k :: k in rows ==> exists id :: id in chain && Backs(chain[id].tx, k, rows[k])
  }

  ghost predicate BooksInv(b: Books) {
    match b
    case Books(w, l) => Inv(w) && AllBuilt(w) && P.Inv(l) && Backed(w.chain, l.rows)
  }

  lemma ChainGrowsBacked(chain: map<RoundId, Sent>, chain': map<RoundId, Sent>, rows: map<P.Key, P.Payout>)
    requires Backed(chain, rows) && forall id :: id in chain ==> id in chain' && chain'[id] == chain[id]
    ensures Backed(chain', rows)
  {
    forall k | k in rows ensures exists id :: id in chain' && Backs(chain'[id].tx, k, rows[k]) {
      var id :| id in chain && Backs(chain[id].tx, k, rows[k]);
      assert Backs(chain'[id].tx, k, rows[k]);
    }
  }

  lemma SameGrossBacked(chain: map<RoundId, Sent>, rows: map<P.Key, P.Payout>, rows': map<P.Key, P.Payout>)
    requires Backed(chain, rows) && rows'.Keys == rows.Keys && forall k :: k in rows ==> rows'[k].gross == rows[k].gross
    ensures Backed(chain, rows')
  {
    forall k | k in rows' ensures exists id :: id in chain && Backs(chain[id].tx, k, rows'[k]) {
      var id :| id in chain && Backs(chain[id].tx, k, rows[k]);
      assert Backs(chain[id].tx, k, rows'[k]);
    }
  }

  lemma PayoutsKeepGross(l: P.Ledger, e: P.Event)
    requires P.Inv(l) && P.Enabled(l, e) && !e.DoCreate?
    ensures P.Step(l, e).rows.Keys == l.rows.Keys
    ensures forall k :: k in l.rows ==> P.Step(l, e).rows[k].gross == l.rows[k].gross
  {
    if e.DoAttempt? {
      P.HeadFacts(l);
    }
  }

  lemma RecordBacked(chain: map<RoundId, Sent>, l: P.Ledger, owed: Option<(P.Key, P.Payout)>, id: RoundId)
    requires Backed(chain, l.rows) && id in chain
    requires owed.Some? ==> Backs(chain[id].tx, owed.value.0, owed.value.1)
    ensures Backed(chain, Record(l, owed).rows)
  {
    var rows' := Record(l, owed).rows;
    forall k | k in rows' ensures exists i :: i in chain && Backs(chain[i].tx, k, rows'[k]) {
      if k in l.rows {
        var i :| i in chain && Backs(chain[i].tx, k, l.rows[k]);
        assert Backs(chain[i].tx, k, rows'[k]);
      } else {
        assert Backs(chain[id].tx, k, rows'[k]);
      }
    }
  }

  lemma EnqueueOneBooks(w: World, l: P.Ledger, id: RoundId, r: Round, env: Env)
    requires BooksInv(Books(w, l)) && id in w.rounds && w.rounds[id] == r && r.status.Broadcast?
    ensures BooksInv(Books(w, EnqueueOne(l, id, r, env)))
  {
    assert Built(r) && Stands(r, id, w.chain);
    EnqueueOneKeeps(l, id, r, env);
    if Confirmed(r, env) {
      OwedIsKept(id, r, env, l.clock);
      var a, b := OwedA(id, r, env, l.clock), OwedB(id, r, env, l.clock);
      RecordBacked(w.chain, l, a, id);
      RecordBacked(w.chain, Record(l, a), b, id);
    }
  }

  /** Enqueuing what the table holds keeps the ledger's invariant: no amount is assumed of the rounds. */
  lemma {:induction false} EnqueueBooks(w: World, l: P.Ledger, rounds: seq<(RoundId, Round)>, env: Env)
    requires BooksInv(Books(w, l)) && FromTable(w, rounds)
    ensures BooksInv(Books(w, Enqueue(l, rounds, env)))
  {
    if rounds != [] {
      var n := |rounds| - 1;
      EnqueueBooks(w, l, rounds[..n], env);
      EnqueueOneBooks(w, Enqueue(l, rounds[..n], env), rounds[n].0, rounds[n].1, env);
    }
  }

  lemma EnterKeeps(b: Books, x: Entry)
    requires BooksInv(b) && MayEnter(b, x)
    ensures BooksInv(Enter(b, x))
  {
    match x
    case OfRounds(e) =>
      StepKeeps(b.world, e);
      StepBuilt(b.world, e);
      ChainOnlyGrows(b.world, e);
      ChainGrowsBacked(b.world.chain, Step(b.world, e).chain, b.ledger.rows);
    case OfPayouts(p) =>
      P.StepKeeps(b.ledger, p);
      PayoutsKeepGross(b.ledger, p);
      SameGrossBacked(b.world.chain, b.ledger.rows, P.Step(b.ledger, p).rows);
    case OfQueue(rounds, env) =>
      EnqueueBooks(b.world, b.ledger, rounds, env);
  }

  ghost predicate Entered(b: Books, xs: seq<Entry>)
    decreases |xs|, 0
  {
    xs == [] || (Entered(b, xs[..|xs| - 1]) && MayEnter(BooksAfter(b, xs[..|xs| - 1]), xs[|xs| - 1]))
  }

  ghost function BooksAfter(b: Books, xs: seq<Entry>): Books
    requires Entered(b, xs)
    decreases |xs|, 1
  {
    if xs == [] then b else Enter(BooksAfter(b, xs[..|xs| - 1]), xs[|xs| - 1])
  }

  /** Over every run of rounds and payouts together: nothing is owed or paid that no broadcast output holds,
      every output is paid at most once, and for no more than it is worth. */
  lemma {:induction false} AlwaysBacked(xs: seq<Entry>)
    requires Entered(Books(EMPTY, P.EMPTY), xs)
    ensures var b := BooksAfter(Books(EMPTY, P.EMPTY), xs);
      Inv(b.world) && P.Inv(b.ledger) && Backed(b.world.chain, b.ledger.rows) && BooksInv(b)
  {
    if xs != [] {
      AlwaysBacked(xs[..|xs| - 1]);
      EnterKeeps(BooksAfter(Books(EMPTY, P.EMPTY), xs[..|xs| - 1]), xs[|xs| - 1]);
    }
  }
}
