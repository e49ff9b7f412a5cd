/** What every step of the Tango protocol keeps, and so what holds in every state a run can reach. */
module TangoSafety {
  import opened Results
  import opened Bip69
  import opened Sequences
  import opened TangoPlan
  import opened TangoRounds

  // ----- the invariant -----

  /** Of every row: no coin is listed twice, the sides are two people, and a forgotten side has no coins. */
  ghost predicate Plain(r: Round) {
    && DistinctCoins(r.aInputs + r.bInputs)
    && (r.aUser != "" ==> r.aUser != r.bUser)
    && (r.aUser == "" ==> r.aInputs == [] && r.status.Broadcast?)
    && (r.bUser == "" ==> r.bInputs == [] && r.status.Broadcast?)
    && r.expiresAt > 0
  }

  /** One row by itself, state by state. */
  ghost predicate Sound(r: Round) {
    match r.status
    case Proposed => Plain(r) && r.bInputs == [] && r.bWallet.None? && r.aMix == []
    case Accepted => Plain(r) && Planned(r)
    case ASigned => Plain(r) && Planned(r) && SignedByA(r)
    case Broadcast => Plain(r) && r.unsignedTx.Some?
    case Cancelled => Plain(r)
  }

  /** The stored amounts are those `plan` gives for the stored coins: nothing is lost in the row. */
  ghost predicate Planned(r: Round) {
    PlanOf(r.aInputs, r.bInputs, r.denom, r.feeRate, PiecesOr1(r)) == Ok(TangoAmounts(r))
  }

  /** The transaction rebuilt from the row is the stored one, and A's stored signatures are over it. */
  ghost predicate SignedByA(r: Round) {
    && r.unsignedTx.Some? && Assemble(r) == Ok(r.unsignedTx.value)
    && WitnessesOk(r.unsignedTx.value, Frozen(r), r.aWitnesses, OwnerIndices(r, r.aInputs))
  }

  ghost predicate AllRows<T(!new)>(table: map<nat, T>, ok: T -> bool) {
    forall id :: id in table ==> ok(table[id])
  }

  ghost predicate AllSound(rounds: map<RoundId, Round>) {
    AllRows(rounds, Sound)
  }

  ghost predicate Apart(r: Round, s: Round, u: User) {
    Live(r) && Live(s) ==> OwnCoins(r, u) !! OwnCoins(s, u)
  }

  /** No user has one coin in two live rounds. */
  ghost predicate Disjoint(rounds: map<RoundId, Round>) {
    forall i, j, u :: i in rounds && j in rounds && i != j ==> Apart(rounds[i], rounds[j], u)
  }

  /** A finished transaction: every input carries a valid signature over this one transaction, no output
      is dust, and the outputs pay no more than the inputs bring. */
  ghost predicate Complete(s: Sent) {
    match s
    case Sent(tx, coins, sigs) =>
      && tx.ins == Spends(coins) && |sigs| == |coins|
      && (forall n :: 0 <= n < |coins| ==> Signs(tx, coins, n, sigs[n]))
      && (forall i :: 0 <= i < |tx.outs| ==> tx.outs[i].value >= 546)
      && Value(tx.outs) <= Total(coins)
  }

  ghost predicate AllComplete(chain: map<RoundId, Sent>) {
    AllRows(chain, Complete)
  }

  /** The round stands by what was broadcast for it: it says so, and it is the transaction A signed. */
  ghost predicate Stands(r: Round, id: RoundId, chain: map<RoundId, Sent>) {
    && (r.status.Broadcast? <==> id in chain)
    && (id in chain ==> r.unsignedTx == Some(chain[id].tx))
  }

  ghost predicate Recorded(rounds: map<RoundId, Round>, chain: map<RoundId, Sent>) {
    forall id :: id in rounds ==> Stands(rounds[id], id, chain)
  }

  ghost predicate FreshIds(w: World) {
    && (forall id :: id in w.rounds ==> id < w.nextRound)
    && (forall id :: id in w.chain ==> id < w.nextRound)
    && (forall id :: id in w.listed ==> id < w.nextRound)
    && (forall c :: c in w.contacts ==> c < w.nextContact)
  }

  /** Closed already, or still unfinished and out of time. */
  predicate Closable(r: Round, clock: nat) {
    r.status.Cancelled? || (Unfinished(r) && r.expiresAt <= clock)
  }

  ghost predicate ListedClosable(rounds: map<RoundId, Round>, listed: seq<RoundId>, clock: nat) {
    forall id :: id in listed && id in rounds ==> Closable(rounds[id], clock)
  }

  ghost predicate Inv(w: World) {
    && AllSound(w.rounds) && Disjoint(w.rounds) && AllComplete(w.chain) && Recorded(w.rounds, w.chain)
    && FreshIds(w) && ListedClosable(w.rounds, w.listed, w.clock)
  }

  // ----- the row and the plan -----

  lemma DistinctTogether(a: seq<Coin>, b: seq<Coin>)
    requires DistinctCoins(a) && DistinctCoins(b) && Outpoints(a) !! Outpoints(b)
    ensures DistinctCoins(a + b)
  {
    forall i, j | 0 <= i < j < |a + b| ensures At((a + b)[i]) != At((a + b)[j]) {
      if i < |a| <= j {
        assert At(a[i]) in Outpoints(a) && At(b[j - |a|]) in Outpoints(b);
      }
    }
  }

  lemma DistinctParts(a: seq<Coin>, b: seq<Coin>)
    requires DistinctCoins(a + b)
    ensures DistinctCoins(a) && DistinctCoins(b)
  {
    forall i, j | 0 <= i < j < |a| ensures At(a[i]) != At(a[j]) {
      assert At((a + b)[i]) != At((a + b)[j]);
    }
    forall i, j | 0 <= i < j < |b| ensures At(b[i]) != At(b[j]) {
      assert At((a + b)[|a| + i]) != At((a + b)[|a| + j]);
    }
  }

  /** What `_tango_amounts` reads back is what `plan` returned, for every number of pieces. */
  lemma {:induction false} AmountsSurvive(r: Round, p: Amounts)
    requires PlanOf(r.aInputs, r.bInputs, r.denom, r.feeRate, PiecesOr1(r)) == Ok(p) && r.sums == SumsOf(p)
    ensures TangoAmounts(r) == p
  {
    var nIn := |r.aInputs| + |r.bInputs|;
    PricesGrow(nIn, r.feeRate);
    var q, share, n := SettledPlan(Sizes(nIn), Prices(nIn, r.feeRate), r.aInputs != [] && r.bInputs != [],
                                   Total(r.aInputs), Total(r.bInputs), r.denom, PiecesOr1(r));
  }

  // ----- signatures -----

  lemma FrozenMembers(r: Round)
    requires Sound(r)
    ensures |Frozen(r)| == |r.aInputs| + |r.bInputs|
    ensures forall n :: 0 <= n < |Frozen(r)| ==>
      (At(Frozen(r)[n]) in Outpoints(r.aInputs) || At(Frozen(r)[n]) in Outpoints(r.bInputs))
  {
    var all := r.aInputs + r.bInputs;
    SameLength(Frozen(r), all);
    forall n | 0 <= n < |Frozen(r)|
      ensures At(Frozen(r)[n]) in Outpoints(r.aInputs) || At(Frozen(r)[n]) in Outpoints(r.bInputs)
    {
      var i := FindIn(Frozen(r), all, Frozen(r)[n]);
      if i < |r.aInputs| {
        assert At(r.aInputs[i]) in Outpoints(r.aInputs);
      } else {
        assert At(r.bInputs[i - |r.aInputs|]) in Outpoints(r.bInputs);
      }
    }
  }

  /** The two sides' positions cover every input, and no input is both sides'. */
  lemma PositionsPartition(r: Round)
    requires Sound(r)
    ensures forall n :: 0 <= n < |Frozen(r)| ==> (n in OwnerIndices(r, r.aInputs) <==> n !in OwnerIndices(r, r.bInputs))
  {
    FrozenMembers(r);
    PartsDisjoint(r.aInputs, r.bInputs);
    forall n | 0 <= n < |Frozen(r)|
      ensures n in OwnerIndices(r, r.aInputs) <==> n !in OwnerIndices(r, r.bInputs)
    {
      assert At(Frozen(r)[n]) in Outpoints(r.aInputs) <==> At(Frozen(r)[n]) !in Outpoints(r.bInputs);
    }
  }

  lemma PartsDisjoint(a: seq<Coin>, b: seq<Coin>)
    requires DistinctCoins(a + b)
    ensures Outpoints(a) !! Outpoints(b)
  {
    forall i, j | 0 <= i < |a| && 0 <= j < |b| ensures At(a[i]) != At(b[j]) {
      assert At((a + b)[i]) != At((a + b)[|a| + j]);
    }
  }

  lemma TotalOne(c: Coin)
    ensures Total([c]) == c.amount
  {
    assert [c][..0] == [];
  }

  lemma {:induction false} TotalWithout(t: seq<Coin>, i: nat)
    requires i < |t|
    ensures Total(t) == Total(t[..i] + t[i + 1..]) + t[i].amount
  {
    assert t == t[..i] + [t[i]] + t[i + 1..];
    TotalConcat(t[..i] + [t[i]], t[i + 1..]);
    TotalConcat(t[..i], [t[i]]);
    TotalConcat(t[..i], t[i + 1..]);
    TotalOne(t[i]);
  }

  lemma {:induction false} TotalPermuted(s: seq<Coin>, t: seq<Coin>)
    requires multiset(s) == multiset(t)
    ensures Total(s) == Total(t)
    decreases |s|
  {
    SameLength(s, t);
    if s != [] {
      var n := |s| - 1;
      var i := FindIn(s, t, s[n]);
      Without(t, i);
      InitMultiset(s, n);
      TotalPermuted(s[..n], t[..i] + t[i + 1..]);
      TotalWithout(t, i);
    }
  }

  /** A planned round's transaction conserves value. */
  lemma {:induction false} RoundConserves(r: Round)
    requires Planned(r) && Assemble(r).Ok?
    ensures Value(Assemble(r).value.outs) + r.sums.fee == Total(Frozen(r)) && r.sums.fee >= 0
    ensures forall i :: 0 <= i < |Assemble(r).value.outs| ==> Assemble(r).value.outs[i].value >= DUST_SATS
  {
    TotalPermuted(Frozen(r), r.aInputs + r.bInputs);
    TotalConcat(r.aInputs, r.bInputs);
    PlanConserves(r.aInputs, r.bInputs, r.denom, r.feeRate, PiecesOr1(r));
    OutputsConserve(r.aInputs, r.bInputs, r.denom, r.feeRate, PiecesOr1(r), r.aMix, r.bMix, r.aChangeSpk, r.bChangeSpk);
  }

  /** Two sets of witnesses whose positions split the inputs between them sign every input. */
  lemma SignedTogether(tx: Tx, coins: seq<Coin>, aw: map<nat, Signature>, bw: map<nat, Signature>, ai: set<nat>, bi: set<nat>)
    requires WitnessesOk(tx, coins, aw, ai) && WitnessesOk(tx, coins, bw, bi) && |tx.ins| == |coins|
    requires forall n :: 0 <= n < |coins| ==> (n in ai <==> n !in bi)
    ensures Finalize(tx, aw + bw).Some? && |Finalize(tx, aw + bw).value| == |coins|
    ensures forall n :: 0 <= n < |coins| ==> Signs(tx, coins, n, Finalize(tx, aw + bw).value[n])
  {
    forall n | 0 <= n < |tx.ins| ensures n in aw + bw && Signs(tx, coins, n, (aw + bw)[n]) {
      if n in bi {
        assert n in bw;
      } else {
        assert n in aw && n !in bw;
      }
    }
  }

  /** When B's signatures pass, every input is signed: `finalize` cannot refuse, and what goes out is
      complete. */
  lemma BothSigned(r: Round, d: SignData)
    requires Sound(r) && r.status.ASigned? && SignaturesOk(r, r.bInputs, d)
    ensures var f := Finalize(Assemble(r).value, r.aWitnesses + d.witnesses);
      f.Some? && Complete(Sent(Assemble(r).value, Frozen(r), f.value))
  {
    PositionsPartition(r);
    SignedTogether(Assemble(r).value, Frozen(r), r.aWitnesses, d.witnesses,
                   OwnerIndices(r, r.aInputs), OwnerIndices(r, r.bInputs));
    RoundConserves(r);
  }

  /** B's turn comes twice, and at the first of them `/sign` has nothing to sign: A has no scripts yet. */
  lemma TooEarlyForB(r: Round, d: SignData)
    requires Sound(r) && r.status.Proposed?
    ensures !SignaturesOk(r, r.bInputs, d)
  {
    assert OutputsFor(TangoAmounts(r), r.aMix, r.bMix, r.aChangeSpk, r.bChangeSpk) == Err(WrongScriptCount);
  }

  // ----- rows that shrink -----

  /** r' lets go of a side's coins or keeps them, and takes none. */
  ghost predicate Shrinks(r: Round, r': Round) {
    && (Live(r') ==> Live(r))
    && (r'.aInputs == [] || (r'.aUser == r.aUser && r'.aInputs == r.aInputs))
    && (r'.bInputs == [] || (r'.bUser == r.bUser && r'.bInputs == r.bInputs))
  }

  lemma TakesNone(r: Round, r': Round, u: User)
    requires Shrinks(r, r')
    ensures OwnCoins(r', u) <= OwnCoins(r, u)
  {
    assert Outpoints([]) == {};
  }

  ghost predicate RoundsShrink(rounds: map<RoundId, Round>, rounds': map<RoundId, Round>) {
    forall id :: id in rounds' ==> id in rounds && Shrinks(rounds[id], rounds'[id])
  }

  lemma ShrinkingStaysDisjoint(rounds: map<RoundId, Round>, rounds': map<RoundId, Round>)
    requires Disjoint(rounds) && RoundsShrink(rounds, rounds')
    ensures Disjoint(rounds')
  {
    forall i, j, u | i in rounds' && j in rounds' && i != j ensures Apart(rounds'[i], rounds'[j], u) {
      assert Apart(rounds[i], rounds[j], u);
      TakesNone(rounds[i], rounds'[i], u);
      TakesNone(rounds[j], rounds'[j], u);
    }
  }

  // ----- one row replaced, the rest as they were -----

  lemma ReplaceSound(rounds: map<RoundId, Round>, id: RoundId, r: Round)
    requires AllSound(rounds) && Sound(r)
    ensures AllSound(rounds[id := r])
  {
  }

  lemma ApartSymmetric(r: Round, s: Round, u: User)
    ensures Apart(r, s, u) <==> Apart(s, r, u)
  {
  }

  lemma ReplaceDisjoint(rounds: map<RoundId, Round>, id: RoundId, r: Round)
    requires Disjoint(rounds) && (forall j, u :: j in rounds && j != id ==> Apart(r, rounds[j], u))
    ensures Disjoint(rounds[id := r])
  {
    var rounds' := rounds[id := r];
    forall i, j, u | i in rounds' && j in rounds' && i != j ensures Apart(rounds'[i], rounds'[j], u) {
      if j == id {
        ApartSymmetric(r, rounds[i], u);
      } else if i != id {
        assert Apart(rounds[i], rounds[j], u);
      }
    }
  }

  lemma ReplaceShrunk(rounds: map<RoundId, Round>, id: RoundId, r: Round)
    requires Disjoint(rounds) && id in rounds && Shrinks(rounds[id], r)
    ensures Disjoint(rounds[id := r])
  {
    forall j, u | j in rounds && j != id ensures Apart(r, rounds[j], u) {
      assert Apart(rounds[id], rounds[j], u);
      TakesNone(rounds[id], r, u);
    }
    ReplaceDisjoint(rounds, id, r);
  }

  lemma ReplaceRecorded(rounds: map<RoundId, Round>, chain: map<RoundId, Sent>, id: RoundId, r: Round)
    requires Recorded(rounds, chain) && Stands(r, id, chain)
    ensures Recorded(rounds[id := r], chain)
  {
  }

  lemma ReplaceClosable(rounds: map<RoundId, Round>, listed: seq<RoundId>, clock: nat, id: RoundId, r: Round)
    requires ListedClosable(rounds, listed, clock) && (id in listed ==> Closable(r, clock))
    ensures ListedClosable(rounds[id := r], listed, clock)
  {
  }

  /** A row may be replaced by a sound one that takes no new coins, stays off the chain and, if it was
      listed, may still be closed. */
  lemma ReplaceRow(w: World, id: RoundId, r: Round)
    requires Inv(w) && id in w.rounds && Sound(r) && Shrinks(w.rounds[id], r)
    requires !w.rounds[id].status.Broadcast? && !r.status.Broadcast?
    requires id in w.listed ==> Closable(r, w.clock)
    ensures Inv(w.(rounds := w.rounds[id := r]))
  {
    ReplaceSound(w.rounds, id, r);
    ReplaceShrunk(w.rounds, id, r);
    assert Stands(w.rounds[id], id, w.chain);
    ReplaceRecorded(w.rounds, w.chain, id, r);
    ReplaceClosable(w.rounds, w.listed, w.clock, id, r);
  }

  lemma CancelledSound(r: Round, why: Reason)
    requires Sound(r) && !r.status.Broadcast?
    ensures Sound(Cancel(r, why)) && Shrinks(r, Cancel(r, why))
  {
  }

  // ----- /rounds -----

  lemma ProposeKeeps(w: World, uid: User, walletId: WalletId, partner: User, denom: int, rate: real, pieces: int,
                     rows: seq<Coin>, spendable: bool, routes: Option<string>)
    requires Inv(w) && uid != "" && partner != ""
    ensures Inv(Propose(w, uid, walletId, partner, denom, rate, pieces, rows, spendable, routes).0)
  {
    var (w', reply) := Propose(w, uid, walletId, partner, denom, rate, pieces, rows, spendable, routes);
    if reply == Done {
      var r := w'.rounds[w.nextRound];
      assert r.aInputs + r.bInputs == rows;
      InsertRow(w, r, rows, uid);
    }
  }

  lemma InsertRow(w: World, r: Round, rows: seq<Coin>, uid: User)
    requires Inv(w) && Sound(r) && r.status.Proposed? && Outpoints(rows) !! Reserved(w, uid)
    requires r.aUser == uid && r.aInputs == rows && r.bInputs == []
    ensures Inv(w.(rounds := w.rounds[w.nextRound := r], nextRound := w.nextRound + 1))
  {
    var id := w.nextRound;
    assert id !in w.rounds && id !in w.chain && id !in w.listed;
    ReplaceSound(w.rounds, id, r);
    forall j, u | j in w.rounds && j != id ensures Apart(r, w.rounds[j], u) {
      NewRoundApart(w, r, rows, uid, j, u);
    }
    ReplaceDisjoint(w.rounds, id, r);
    ReplaceRecorded(w.rounds, w.chain, id, r);
    ReplaceClosable(w.rounds, w.listed, w.clock, id, r);
  }

  lemma ReservedHolds(w: World, id: RoundId, u: User)
    requires id in w.rounds && Live(w.rounds[id])
    ensures OwnCoins(w.rounds[id], u) <= Reserved(w, u)
  {
  }

  lemma NewRoundApart(w: World, r: Round, rows: seq<Coin>, uid: User, id: RoundId, u: User)
    requires id in w.rounds && Outpoints(rows) !! Reserved(w, uid)
    requires r.aUser == uid && r.aInputs == rows && r.bInputs == []
    ensures Apart(r, w.rounds[id], u)
  {
    if Live(w.rounds[id]) {
      ReservedHolds(w, id, u);
      assert Outpoints([]) == {};
    }
  }

  // ----- /accept -----

  lemma AcceptedSound(r: Round, r': Round, p: Amounts)
    requires Plain(r) && !r.status.Broadcast? && RowsOk(r'.bInputs) && Outpoints(r'.bInputs) !! Outpoints(r.aInputs)
    requires r'.status.Accepted? && r'.aUser == r.aUser && r'.bUser == r.bUser && r'.aInputs == r.aInputs
    requires r'.expiresAt == r.expiresAt && r'.sums == SumsOf(p)
    requires PlanOf(r'.aInputs, r'.bInputs, r'.denom, r'.feeRate, PiecesOr1(r')) == Ok(p)
    ensures Sound(r')
  {
    DistinctParts(r.aInputs, r.bInputs);
    DistinctTogether(r'.aInputs, r'.bInputs);
    AmountsSurvive(r', p);
  }

  lemma AcceptedApart(w: World, id: RoundId, r': Round, rows: seq<Coin>, j: RoundId, u: User)
    requires Disjoint(w.rounds) && id in w.rounds && j in w.rounds && id != j && Live(w.rounds[id])
    requires r'.aUser == w.rounds[id].aUser && r'.bUser == w.rounds[id].bUser && r'.aInputs == w.rounds[id].aInputs
    requires r'.bInputs == rows && Outpoints(rows) !! Reserved(w, w.rounds[id].bUser)
    ensures Apart(r', w.rounds[j], u)
  {
    assert Apart(w.rounds[id], w.rounds[j], u);
    if Live(w.rounds[j]) {
      ReservedHolds(w, j, u);
    }
  }

  lemma AcceptDisjoint(w: World, id: RoundId, r': Round, rows: seq<Coin>)
    requires Disjoint(w.rounds) && id in w.rounds && Live(w.rounds[id])
    requires r'.aUser == w.rounds[id].aUser && r'.bUser == w.rounds[id].bUser && r'.aInputs == w.rounds[id].aInputs
    requires r'.bInputs == rows && Outpoints(rows) !! Reserved(w, w.rounds[id].bUser)
    ensures Disjoint(w.rounds[id := r'])
  {
    forall j, u | j in w.rounds && j != id ensures Apart(r', w.rounds[j], u) {
      AcceptedApart(w, id, r', rows, j, u);
    }
    ReplaceDisjoint(w.rounds, id, r');
  }

  lemma AcceptRow(w: World, id: RoundId, r': Round, rows: seq<Coin>)
    requires Inv(w) && id in w.rounds && Sound(r') && Unfinished(w.rounds[id]) && r'.status.Accepted?
    requires r'.aUser == w.rounds[id].aUser && r'.bUser == w.rounds[id].bUser && r'.aInputs == w.rounds[id].aInputs
    requires r'.bInputs == rows && Outpoints(rows) !! Reserved(w, w.rounds[id].bUser) && id !in w.listed
    ensures Inv(w.(rounds := w.rounds[id := r']))
  {
    ReplaceSound(w.rounds, id, r');
    AcceptDisjoint(w, id, r', rows);
    assert Stands(w.rounds[id], id, w.chain);
    ReplaceRecorded(w.rounds, w.chain, id, r');
    ReplaceClosable(w.rounds, w.listed, w.clock, id, r');
  }

  /** A round that may still be signed is not on the sweeper's list. */
  lemma NotListed(w: World, id: RoundId)
    requires Inv(w) && id in w.rounds && Unfinished(w.rounds[id]) && !IsExpired(w.rounds[id], w.clock)
    ensures id !in w.listed
  {
    assert Sound(w.rounds[id]);
  }

  /** Nothing in the invariant reads the instance's address. */
  lemma AddressSound(r: Round, a: Option<string>)
    requires Sound(r)
    ensures Sound(r.(payoutAddress := a)) && Shrinks(r, r.(payoutAddress := a))
  {
    var r' := r.(payoutAddress := a);
    assert TangoAmounts(r') == TangoAmounts(r) && Frozen(r') == Frozen(r);
  }

  lemma AcceptChecked(w: World, uid: User, id: RoundId, d: AcceptData, env: AcceptEnv)
    requires AcceptRefusal(w, uid, id, d, env).None?
    ensures id in w.rounds && w.rounds[id].bUser == uid && !IsExpired(w.rounds[id], w.clock)
    ensures w.rounds[id].status.Proposed? || w.rounds[id].status.ASigned?
    ensures RowsOk(d.rows) && Outpoints(d.rows) !! Reserved(w, uid) && Outpoints(d.rows) !! Outpoints(w.rounds[id].aInputs)
    ensures PlanOf(w.rounds[id].aInputs, d.rows, w.rounds[id].denom, w.rounds[id].feeRate, PiecesOr1(w.rounds[id])).Ok?
    ensures d.walletId in w.wallets && w.wallets[d.walletId] == Wallet(uid, w.rounds[id].network)
    ensures MixOk(d.mix, PiecesOr1(w.rounds[id]))
  {
  }

  lemma AcceptKeeps(w: World, uid: User, id: RoundId, d: AcceptData, env: AcceptEnv)
    requires Inv(w) && uid != ""
    ensures Inv(Accept(w, uid, id, d, env).0)
  {
    if AcceptRefusal(w, uid, id, d, env).None? {
      AcceptChecked(w, uid, id, d, env);
      var r := w.rounds[id];
      var p := PlanOf(r.aInputs, d.rows, r.denom, r.feeRate, PiecesOr1(r)).value;
      var named := WithAddress(r, p, env);
      NotListed(w, id);
      AddressSound(r, named.payoutAddress);
      assert named == r.(payoutAddress := named.payoutAddress);
      ReplaceRow(w, id, named);
      SoundIsPlain(r);
      AcceptedSound(r, AcceptedRow(named, p, d, env), p);
      AcceptRow(w, id, AcceptedRow(named, p, d, env), d.rows);
    }
  }

  lemma SoundIsPlain(r: Round)
    requires Sound(r)
    ensures Plain(r)
  {
  }

  // ----- /sign -----

  lemma AScriptsSound(r: Round, d: SignData)
    requires Sound(r) && r.status.Accepted?
    ensures Sound(WithAScripts(r, d)) && Shrinks(r, WithAScripts(r, d))
  {
  }

  /** Recording A's signatures changes nothing the transaction is rebuilt from. */
  lemma ASignedSound(r: Round, d: SignData)
    requires Sound(r) && r.status.Accepted? && SignaturesOk(r, r.aInputs, d)
    ensures Sound(ASignedRow(r, d)) && Shrinks(r, ASignedRow(r, d))
  {
    var r' := ASignedRow(r, d);
    assert TangoAmounts(r') == TangoAmounts(r) && Frozen(r') == Frozen(r);
  }

  lemma SignAKeeps(w: World, id: RoundId, d: SignData)
    requires Inv(w) && id in w.rounds && w.rounds[id].status.Accepted? && !IsExpired(w.rounds[id], w.clock)
    ensures Inv(SignA(w, id, d).0)
  {
    var r := w.rounds[id];
    NotListed(w, id);
    assert Sound(r);
    if AScriptsOk(r, d) {
      var r1 := WithAScripts(r, d);
      AScriptsSound(r, d);
      if SignaturesOk(r1, r1.aInputs, d) {
        ASignedSound(r1, d);
        ReplaceRow(w, id, ASignedRow(r1, d));
      } else {
        ReplaceRow(w, id, r1);
      }
    }
  }

  lemma ChainGrows(rounds: map<RoundId, Round>, chain: map<RoundId, Sent>, id: RoundId, r: Round, s: Sent)
    requires Recorded(rounds, chain) && r.status.Broadcast? && r.unsignedTx == Some(s.tx)
    ensures Recorded(rounds[id := r], chain[id := s])
  {
    var rounds', chain' := rounds[id := r], chain[id := s];
    forall i | i in rounds' ensures Stands(rounds'[i], i, chain') {
      if i != id {
        assert Stands(rounds[i], i, chain);
      }
    }
  }

  lemma BroadcastRow(w: World, id: RoundId, r: Round, s: Sent)
    requires Inv(w) && id in w.rounds && Sound(r) && Shrinks(w.rounds[id], r) && id !in w.listed
    requires r.status.Broadcast? && r.unsignedTx == Some(s.tx) && Complete(s)
    ensures Inv(w.(rounds := w.rounds[id := r], chain := w.chain[id := s]))
  {
    ReplaceSound(w.rounds, id, r);
    ReplaceShrunk(w.rounds, id, r);
    ChainGrows(w.rounds, w.chain, id, r, s);
    ReplaceClosable(w.rounds, w.listed, w.clock, id, r);
  }

  lemma BroadcastSound(r: Round, d: SignData)
    requires Sound(r) && r.status.ASigned?
    ensures Sound(r.(status := Broadcast, bWitnesses := d.witnesses))
    ensures Shrinks(r, r.(status := Broadcast, bWitnesses := d.witnesses))
  {
  }

  /** B's part of `/sign` when the signatures pass: nothing, or the broadcast. */
  lemma SignBOutcome(w: World, id: RoundId, d: SignData, env: SignEnv)
    requires id in w.rounds && SignaturesOk(w.rounds[id], w.rounds[id].bInputs, d)
    requires Finalize(Assemble(w.rounds[id]).value, w.rounds[id].aWitnesses + d.witnesses).Some?
    ensures var r := w.rounds[id]; var tx := Assemble(r).value;
      SignB(w, id, d, env).0
      == if !env.accepted then w
         else w.(rounds := w.rounds[id := r.(status := Broadcast, bWitnesses := d.witnesses)],
                 chain := w.chain[id := Sent(tx, Frozen(r), Finalize(tx, r.aWitnesses + d.witnesses).value)])
  {
  }

  lemma SignBKeeps(w: World, id: RoundId, d: SignData, env: SignEnv)
    requires Inv(w) && id in w.rounds && w.rounds[id].status.ASigned? && !IsExpired(w.rounds[id], w.clock)
    ensures Inv(SignB(w, id, d, env).0)
  {
    var r := w.rounds[id];
    NotListed(w, id);
    assert Sound(r);
    if SignaturesOk(r, r.bInputs, d) {
      BothSigned(r, d);
      BroadcastSound(r, d);
      var tx := Assemble(r).value;
      var sent := Sent(tx, Frozen(r), Finalize(tx, r.aWitnesses + d.witnesses).value);
      SignBOutcome(w, id, d, env);
      BroadcastRow(w, id, r.(status := Broadcast, bWitnesses := d.witnesses), sent);
    }
  }

  lemma SignChecked(w: World, uid: User, id: RoundId, env: SignEnv)
    requires SignRefusal(w, uid, id, env).None?
    ensures id in w.rounds && !IsExpired(w.rounds[id], w.clock)
    ensures RoleOf(w.rounds[id], uid) == Some(A) ==> w.rounds[id].status.Accepted?
    ensures RoleOf(w.rounds[id], uid) == Some(B) ==> w.rounds[id].status.Proposed? || w.rounds[id].status.ASigned?
    ensures RoleOf(w.rounds[id], uid).Some?
  {
  }

  lemma SignKeeps(w: World, uid: User, id: RoundId, d: SignData, env: SignEnv)
    requires Inv(w) && uid != ""
    ensures Inv(Sign(w, uid, id, d, env).0)
  {
    if SignRefusal(w, uid, id, env).None? {
      SignChecked(w, uid, id, env);
      if RoleOf(w.rounds[id], uid) == Some(A) {
        SignAKeeps(w, id, d);
      } else if w.rounds[id].status.Proposed? {
        assert Sound(w.rounds[id]);
        TooEarlyForB(w.rounds[id], d);
      } else {
        SignBKeeps(w, id, d, env);
      }
    }
  }

  // ----- /cancel, the sweeper, connections -----

  lemma CancelKeeps(w: World, uid: User, id: RoundId)
    requires Inv(w)
    ensures Inv(CancelRound(w, uid, id).0)
  {
    if CancelRound(w, uid, id).1 == Done {
      assert Sound(w.rounds[id]);
      CancelledSound(w.rounds[id], CancelledByA);
      CancelledSound(w.rounds[id], CancelledByB);
      ReplaceRow(w, id, Cancel(w.rounds[id], CancelledByA));
      ReplaceRow(w, id, Cancel(w.rounds[id], CancelledByB));
    }
  }

  lemma DropListed(w: World)
    requires Inv(w) && w.listed != []
    ensures Inv(w.(listed := w.listed[1..]))
  {
    var rest := w.listed[1..];
    assert forall i :: i in rest ==> i in w.listed;
    assert ListedClosable(w.rounds, rest, w.clock);
  }

  /** The second phase of the sweep never finds a broadcast round: it closes what is due or closed. */
  lemma CloseNextKeeps(w: World)
    requires Inv(w)
    ensures Inv(CloseNext(w))
    ensures w.listed != [] && w.listed[0] in w.rounds ==> !w.rounds[w.listed[0]].status.Broadcast?
  {
    if w.listed != [] {
      var id := w.listed[0];
      assert id in w.listed;
      if id in w.rounds {
        assert Closable(w.rounds[id], w.clock) && Sound(w.rounds[id]);
        CancelledSound(w.rounds[id], Expired);
        var closed := w.(rounds := w.rounds[id := Cancel(w.rounds[id], Expired)]);
        ReplaceRow(w, id, Cancel(w.rounds[id], Expired));
        DropListed(closed);
      } else {
        DropListed(w);
      }
    }
  }

  /** Many rows change at once, each to a sound one with no more coins and the same standing. */
  lemma ReplaceMany(w: World, w': World)
    requires Inv(w) && w'.chain == w.chain && w'.clock == w.clock && w'.listed == w.listed
    requires w'.nextRound == w.nextRound && w'.nextContact == w.nextContact && w'.contacts.Keys <= w.contacts.Keys
    requires forall id :: id in w'.rounds ==> id in w.rounds && Follows(w.rounds[id], w'.rounds[id], w.clock)
    ensures Inv(w')
  {
    forall id | id in w'.rounds
      ensures Sound(w'.rounds[id]) && Shrinks(w.rounds[id], w'.rounds[id]) && Stands(w'.rounds[id], id, w.chain)
      ensures Closable(w.rounds[id], w.clock) ==> Closable(w'.rounds[id], w.clock)
    {
      assert Sound(w.rounds[id]) && Stands(w.rounds[id], id, w.chain);
      assert Follows(w.rounds[id], w'.rounds[id], w.clock);
    }
    assert RoundsShrink(w.rounds, w'.rounds);
    ShrinkingStaysDisjoint(w.rounds, w'.rounds);
    forall c | c in w'.contacts ensures c < w'.nextContact {
      assert c in w.contacts;
    }
  }

  ghost predicate Follows(r: Round, r': Round, clock: nat) {
    && (Sound(r) ==> Sound(r')) && (Sound(r) ==> Shrinks(r, r'))
    && (r'.status.Broadcast? <==> r.status.Broadcast?) && r'.unsignedTx == r.unsignedTx
    && (Closable(r, clock) ==> Closable(r', clock))
  }

  lemma RemoveContactKeeps(w: World, uid: User, c: ContactId)
    requires Inv(w)
    ensures Inv(RemoveContact(w, uid, c).0)
  {
    var (w', reply) := RemoveContact(w, uid, c);
    if reply == Done {
      forall id | id in w'.rounds ensures Follows(w.rounds[id], w'.rounds[id], w.clock) {
        SeverFollows(w.rounds[id], w.clock);
      }
      ReplaceMany(w, w');
    }
  }

  lemma SeverFollows(r: Round, clock: nat)
    ensures Follows(r, r, clock)
    ensures Unfinished(r) ==> Follows(r, Cancel(r, ConnectionRemoved), clock)
  {
    if Sound(r) && Unfinished(r) {
      CancelledSound(r, ConnectionRemoved);
    }
  }

  // ----- wallets -----

  lemma PurgedSound(r: Round, walletId: WalletId, forget: bool)
    requires Sound(r) && PurgeSide(r, walletId, forget).Some?
    ensures Sound(PurgeSide(r, walletId, forget).value) && Shrinks(r, PurgeSide(r, walletId, forget).value)
  {
    var r' := PurgeSide(r, walletId, forget).value;
    if r' != r {
      DistinctParts(r.aInputs, r.bInputs);
      if r.aWallet == Some(walletId) {
        assert [] + r.bInputs == r.bInputs;
      } else {
        assert r.aInputs + [] == r.aInputs;
      }
    }
  }

  lemma PurgeFollows(r: Round, walletId: WalletId, forget: bool, clock: nat)
    requires PurgeSide(r, walletId, forget).Some?
    ensures Follows(r, PurgeSide(r, walletId, forget).value, clock)
  {
    if Sound(r) {
      PurgedSound(r, walletId, forget);
    }
  }

  lemma RemoveWalletKeeps(w: World, walletId: WalletId, forget: bool)
    requires Inv(w)
    ensures Inv(RemoveWallet(w, walletId, forget))
  {
    if walletId in w.wallets {
      var w' := RemoveWallet(w, walletId, forget);
      assert w'.rounds == PurgeRounds(w.rounds, walletId, forget);
      forall id | id in w'.rounds ensures Follows(w.rounds[id], w'.rounds[id], w.clock) {
        PurgeFollows(w.rounds[id], walletId, forget, w.clock);
      }
      ReplaceMany(w, w');
    }
  }

  // ----- every step, every run -----

  lemma OtherKeeps(w: World, e: Event)
    requires Inv(w) && Enabled(w, e)
    requires e.DoRequest? || e.DoAnswer? || e.DoTick? || e.DoList? || e.DoAddWallet? || e.DoForgetContacts?
    ensures Inv(Step(w, e))
  {
    match e
    case DoList(ids) =>
      assert forall id :: id in ids ==> Due(w, id);
    case _ =>
  }

  /** Every step keeps the invariant. */
  lemma StepKeeps(w: World, e: Event)
    requires Inv(w) && Enabled(w, e)
    ensures Inv(Step(w, e))
  {
    match e
    case DoPropose(uid, walletId, partner, denom, rate, pieces, rows, spendable, routes) =>
      ProposeKeeps(w, uid, walletId, partner, denom, rate, pieces, rows, spendable, routes);
    case DoAccept(uid, id, d, env) => AcceptKeeps(w, uid, id, d, env);
    case DoSign(uid, id, d, env) => SignKeeps(w, uid, id, d, env);
    case DoCancel(uid, id) => CancelKeeps(w, uid, id);
    case DoClose => CloseNextKeeps(w);
    case DoRemoveContact(uid, c) => RemoveContactKeeps(w, uid, c);
    case DoRemoveWallet(walletId, forget) => RemoveWalletKeeps(w, walletId, forget);
    case _ => OtherKeeps(w, e);
  }

  lemma {:induction false} RunKeeps(w: World, events: seq<Event>)
    requires Inv(w) && Runs(w, events)
    ensures Inv(After(w, events))
  {
    if events != [] {
      var n := |events| - 1;
      RunKeeps(w, events[..n]);
      StepKeeps(After(w, events[..n]), events[n]);
    }
  }

  /** In every reachable state, no user has a coin in two live rounds, the two sides of a round share no
      coin, and every transaction ever broadcast is signed for every input. */
  lemma Reachable(events: seq<Event>)
    requires Runs(EMPTY, events)
    ensures Inv(After(EMPTY, events))
  {
    RunKeeps(EMPTY, events);
  }

  /** Reservations: in every reachable state a coin one user has in one live round is in no other live
      round of that user, and the two sides of a round have no coin in common. */
  lemma CoinsReservedOnce(events: seq<Event>, i: RoundId, j: RoundId, u: User)
    requires Runs(EMPTY, events)
    ensures var rounds := After(EMPTY, events).rounds;
      && (i in rounds && j in rounds && i != j && Live(rounds[i]) && Live(rounds[j])
          ==> OwnCoins(rounds[i], u) !! OwnCoins(rounds[j], u))
      && (i in rounds ==> Outpoints(rounds[i].aInputs) !! Outpoints(rounds[i].bInputs))
  {
    Reachable(events);
    var rounds := After(EMPTY, events).rounds;
    if i in rounds {
      assert Sound(rounds[i]);
      PartsDisjoint(rounds[i].aInputs, rounds[i].bInputs);
      if j in rounds && i != j {
        assert Apart(rounds[i], rounds[j], u);
      }
    }
  }

  /** One transaction, two signatures: in every reachable state, what B's step rebuilds from an A_SIGNED row
      is the transaction A's stored signatures are over, and what was broadcast for a round is the
      transaction A signed, with a valid signature for every input. */
  lemma OneTransactionTwoSignatures(events: seq<Event>, id: RoundId)
    requires Runs(EMPTY, events)
    ensures var w := After(EMPTY, events);
      && (id in w.rounds && w.rounds[id].status.ASigned? ==> SignedByA(w.rounds[id]))
      && (id in w.chain ==> Complete(w.chain[id]))
      && (id in w.chain && id in w.rounds ==> w.rounds[id].status.Broadcast? && w.rounds[id].unsignedTx == Some(w.chain[id].tx))
  {
    Reachable(events);
    var w := After(EMPTY, events);
    if id in w.rounds {
      assert Sound(w.rounds[id]) && Stands(w.rounds[id], id, w.chain);
    }
  }
}
