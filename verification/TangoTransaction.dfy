/** The one transaction of a Tango round, told from the row: which coins it spends, what it pays to whom and in
    which order, and what each of the two signatures writes. */
module TangoTransaction {
  import opened Results
  import opened Bytes
  import opened Bip69
  import opened TangoPlan
  import opened TangoRounds
  import opened TangoHandlers

  // ----- what goes in -----

  /** By transaction id, and within one transaction by output. */
  ghost predicate CoinBefore(a: Coin, b: Coin) {
    if a.txid == b.txid then a.vout <= b.vout else FirstSmaller(a.txid, b.txid)
  }

  /** These coins, each as often as it is given, in order. */
  ghost predicate InCoinOrder(ordered: seq<Coin>, coins: seq<Coin>) {
    && multiset(ordered) == multiset(coins)
    && forall i, j :: 0 <= i < j < |ordered| ==> CoinBefore(ordered[i], ordered[j])
  }

  lemma CanonicalOrder(coins: seq<Coin>)
    ensures InCoinOrder(Canonical(coins), coins)
  {
    CoinOrder();
    SortOrdered(CoinLeq, coins);
    var s := Canonical(coins);
    forall i, j | 0 <= i < j < |s| ensures CoinBefore(s[i], s[j]) {
      assert CoinLeq(s[i], s[j]);
      LexIsDictionary(s[i].txid, s[j].txid);
    }
  }

  // ----- what comes out -----

  /** By value, and among equal values by script. */
  ghost predicate OutputBefore(a: Output, b: Output) {
    a.value < b.value || (a.value == b.value && FirstSmaller(a.script, b.script))
  }

  /** An equal coin for each script of A and then of B, and then the changes that are not zero. */
  ghost predicate IsList(given: seq<Output>, share: int, aMix: seq<Script>, bMix: seq<Script>,
                         aChange: int, aSpk: Option<Script>, bChange: int, bSpk: Option<Script>)
  {
    var n := |aMix| + |bMix|;
    var atB := if aChange != 0 then n + 1 else n;
    && |given| == (if bChange != 0 then atB + 1 else atB)
    && (forall i :: 0 <= i < |aMix| ==> given[i] == Output(share, aMix[i]))
    && (forall i :: 0 <= i < |bMix| ==> given[|aMix| + i] == Output(share, bMix[i]))
    && (aChange != 0 ==> aSpk.Some? && given[n] == Output(aChange, aSpk.value))
    && (bChange != 0 ==> bSpk.Some? && given[atB] == Output(bChange, bSpk.value))
  }

  ghost predicate InOutputOrder(outs: seq<Output>, given: seq<Output>) {
    && multiset(outs) == multiset(given)
    && forall i, j :: 0 <= i < j < |outs| ==> OutputBefore(outs[i], outs[j])
  }

  lemma SortedOrder(given: seq<Output>)
    ensures InOutputOrder(Sort(OutputLeq, given), given)
  {
    OutputOrder();
    SortOrdered(OutputLeq, given);
    var s := Sort(OutputLeq, given);
    forall i, j | 0 <= i < j < |s| ensures OutputBefore(s[i], s[j]) {
      assert OutputLeq(s[i], s[j]);
      LexIsDictionary(s[i].script, s[j].script);
    }
  }

  lemma ListedIs(p: Amounts, aMix: seq<Script>, bMix: seq<Script>, aSpk: Option<Script>, bSpk: Option<Script>)
    requires (p.aChange != 0 ==> aSpk.Some?) && (p.bChange != 0 ==> bSpk.Some?)
    ensures IsList(Listed(p, aMix, bMix, aSpk, bSpk), p.share, aMix, bMix, p.aChange, aSpk, p.bChange, bSpk)
  {
  }

  // ----- the transaction -----

  /** As many scripts on each side as pieces, and one for each change there is. */
  ghost predicate CanBuild(r: Round) {
    && |r.aMix| == |r.bMix| == (if r.pieces < 1 then 1 else r.pieces)
    && (r.sums.aChange != 0 ==> r.aChangeSpk.Some?)
    && (r.sums.bChange != 0 ==> r.bChangeSpk.Some?)
  }

  /** It spends the coins of both sides, each once and in order; and it pays each side its pieces, all of one
      size, and its own change to its own script, in order. */
  ghost predicate IsRoundTx(tx: Tx, r: Round) {
    match tx
    case Tx(ins, outs) => SpendsBoth(ins, r) && PaysBoth(outs, r)
  }

  ghost predicate SpendsBoth(ins: seq<Outpoint>, r: Round) {
    exists coins: seq<Coin> :: InCoinOrder(coins, r.aInputs + r.bInputs) && AreOf(ins, coins)
  }

  ghost predicate AreOf(ins: seq<Outpoint>, coins: seq<Coin>) {
    |ins| == |coins| && forall i :: 0 <= i < |coins| ==> ins[i].txid == coins[i].txid && ins[i].vout == coins[i].vout
  }

  ghost predicate PaysBoth(outs: seq<Output>, r: Round) {
    exists given: seq<Output> :: IsListOf(given, r) && InOutputOrder(outs, given)
  }

  ghost predicate IsListOf(given: seq<Output>, r: Round) {
    IsList(given, r.denom / (if r.pieces < 1 then 1 else r.pieces), r.aMix, r.bMix,
           r.sums.aChange, r.aChangeSpk, r.sums.bChange, r.bChangeSpk)
  }

  lemma TransactionExactly(r: Round)
    ensures Assemble(r).Ok? <==> CanBuild(r)
    ensures Assemble(r).Ok? ==> IsRoundTx(Assemble(r).value, r)
  {
    if Assemble(r).Ok? {
      BuiltSpends(r);
      BuiltPays(r);
    }
  }

  lemma BuiltSpends(r: Round)
    ensures SpendsBoth(Spends(Frozen(r)), r)
  {
    CanonicalOrder(r.aInputs + r.bInputs);
    assert AreOf(Spends(Frozen(r)), Frozen(r));
  }

  lemma BuiltPays(r: Round)
    requires CanBuild(r)
    ensures PaysBoth(Sort(OutputLeq, Listed(TangoAmounts(r), r.aMix, r.bMix, r.aChangeSpk, r.bChangeSpk)), r)
  {
    var given := Listed(TangoAmounts(r), r.aMix, r.bMix, r.aChangeSpk, r.bChangeSpk);
    SortedOrder(given);
    ListedIs(TangoAmounts(r), r.aMix, r.bMix, r.aChangeSpk, r.bChangeSpk);
    assert IsListOf(given, r);
  }

  // ----- what a signature writes -----

  /** A's scripts on the row; a routed change stays as it was fixed. */
  ghost predicate Scripted(r: Round, r': Round, d: SignData) {
    && r'.aMix == d.mix
    && (r.aPayout ==> r'.aChangeSpk == r.aChangeSpk && r'.aTweak == r.aTweak)
    && (!r.aPayout ==> r'.aChangeSpk == d.changeSpk && r'.aTweak == None)
    && r' == r.(aMix := r'.aMix, aChangeSpk := r'.aChangeSpk, aTweak := r'.aTweak, status := r'.status,
                aWitnesses := r'.aWitnesses, unsignedTx := r'.unsignedTx)
  }

  /** A's signature puts A's scripts, the witnesses and the transaction they sign on the row and hands over to
      B; a refusal of the scripts leaves no trace, and a refusal of the signatures leaves the scripts behind. */
  ghost predicate AWrites(w: World, w': World, id: RoundId, d: SignData, reply: Reply)
    requires id in w.rounds
  {
    && id in w'.rounds && w' == w.(rounds := w.rounds[id := w'.rounds[id]])
    && RowSigned(w.rounds[id], w'.rounds[id], d, reply)
  }

  ghost predicate RowSigned(r: Round, r': Round, d: SignData, reply: Reply) {
    match reply
    case Done =>
      && Scripted(r, r', d) && r'.status == ASigned && r'.aWitnesses == d.witnesses
      && r'.unsignedTx.Some? && IsRoundTx(r'.unsignedTx.value, r')
    case Refused(_) =>
      if AScriptsFit(r, d)
      then Scripted(r, r', d) && r' == r.(aMix := d.mix, aChangeSpk := r'.aChangeSpk, aTweak := r'.aTweak)
      else r' == r
  }

  lemma ASignWrites(w: World, uid: User, id: RoundId, d: SignData, env: SignEnv)
    requires MayMove(w, uid, id, env) && w.rounds[id].aUser == uid
    ensures AWrites(w, Sign(w, uid, id, d, env).0, id, d, Sign(w, uid, id, d, env).1)
  {
    RefusesSign(w, uid, id, env);
    SameRow(w.rounds, id);
    AWritten(w, id, d);
  }

  lemma AWritten(w: World, id: RoundId, d: SignData)
    requires id in w.rounds
    ensures AWrites(w, SignA(w, id, d).0, id, d, SignA(w, id, d).1)
  {
    SameRow(w.rounds, id);
    var r1 := WithAScripts(w.rounds[id], d);
    ASignsMeans(w.rounds[id], d);
    if AScriptsOk(w.rounds[id], d) && SignaturesOk(r1, r1.aInputs, d) {
      SignedRow(w.rounds[id], d);
    }
  }

  lemma SignedRow(r: Round, d: SignData)
    requires Assemble(WithAScripts(r, d)).Ok?
    ensures RowSigned(r, ASignedRow(WithAScripts(r, d), d), d, Done)
  {
    TransactionExactly(WithAScripts(r, d));
    SameBuild(Assemble(WithAScripts(r, d)).value, WithAScripts(r, d), ASignedRow(WithAScripts(r, d), d));
  }

  lemma SameBuild(tx: Tx, r: Round, s: Round)
    requires IsRoundTx(tx, r)
    requires s == r.(status := s.status, aWitnesses := s.aWitnesses, unsignedTx := s.unsignedTx)
    ensures IsRoundTx(tx, s)
  {
    var coins :| InCoinOrder(coins, r.aInputs + r.bInputs) && AreOf(tx.ins, coins);
    assert s.aInputs + s.bInputs == r.aInputs + r.bInputs;
    var given :| IsListOf(given, r) && InOutputOrder(tx.outs, given);
    assert IsListOf(given, s);
  }

  /** A signature of B's, or else of A's, for every input. */
  ghost predicate Carries(s: Sent, a: map<nat, Signature>, b: map<nat, Signature>) {
    match s
    case Sent(tx, _, sigs) =>
      && |sigs| == |tx.ins|
      && forall n: nat :: n < |sigs| ==>
           || (n in b && sigs[n] == b[n])
           || (n in a && n !in b && sigs[n] == a[n])
  }

  /** B's signature ends the round: the row keeps B's witnesses, and the transaction of the row goes out with a
      signature of A's or of B's for every input. Any refusal leaves no trace. */
  lemma BSignWrites(w: World, uid: User, id: RoundId, d: SignData, env: SignEnv)
    requires MayMove(w, uid, id, env) && w.rounds[id].aUser != uid
    ensures var (w', reply) := Sign(w, uid, id, d, env); var r := w.rounds[id];
      && (reply != Done ==> w' == w)
      && (reply == Done ==>
            && id in w'.chain && IsRoundTx(w'.chain[id].tx, r) && Carries(w'.chain[id], r.aWitnesses, d.witnesses)
            && w' == w.(rounds := w.rounds[id := r.(status := Broadcast, bWitnesses := d.witnesses)],
                        chain := w.chain[id := w'.chain[id]]))
  {
    RefusesSign(w, uid, id, env);
    BWritten(w, id, d, env);
  }

  lemma BWritten(w: World, id: RoundId, d: SignData, env: SignEnv)
    requires id in w.rounds
    ensures var (w', reply) := SignB(w, id, d, env); var r := w.rounds[id];
      && (reply != Done ==> w' == w)
      && (reply == Done ==>
            && id in w'.chain && IsRoundTx(w'.chain[id].tx, r) && Carries(w'.chain[id], r.aWitnesses, d.witnesses)
            && w' == w.(rounds := w.rounds[id := r.(status := Broadcast, bWitnesses := d.witnesses)],
                        chain := w.chain[id := w'.chain[id]]))
  {
    var r := w.rounds[id];
    if SignaturesOk(r, r.bInputs, d) {
      TransactionExactly(r);
      match Finalize(Assemble(r).value, r.aWitnesses + d.witnesses)
      case None =>
      case Some(sigs) => SignaturesCarried(Sent(Assemble(r).value, Frozen(r), sigs), r.aWitnesses, d.witnesses);
    }
  }

  lemma SignaturesCarried(s: Sent, a: map<nat, Signature>, b: map<nat, Signature>)
    requires Finalize(s.tx, a + b) == Some(s.sigs)
    ensures Carries(s, a, b)
  {
    forall n: nat | n < |s.sigs| ensures n in a + b && s.sigs[n] == (a + b)[n] {
    }
  }
}
