/** How a Tango row may move from one state to the next: what is frozen when, which coins are given
    back, and why the sweeper never takes a broadcast round back. */
module TangoHistory {
  import opened Results
  import opened Bip69
  import opened TangoPlan
  import opened TangoRounds
  import opened TangoSafety

  // ----- what a row keeps -----

  /** Everything `_tango_assemble` reads. */
  ghost predicate SameTransaction(r: Round, r': Round) {
    match (r, r')
    case (_, _) =>
      && r'.aInputs == r.aInputs && r'.bInputs == r.bInputs && r'.denom == r.denom && r'.pieces == r.pieces
      && r'.sums == r.sums && r'.aMix == r.aMix && r'.bMix == r.bMix
      && r'.aChangeSpk == r.aChangeSpk && r'.bChangeSpk == r.bChangeSpk
  }

  lemma SameTransactionSameTx(r: Round, r': Round)
    requires SameTransaction(r, r')
    ensures Assemble(r') == Assemble(r)
  {
    assert TangoAmounts(r') == TangoAmounts(r) && Frozen(r') == Frozen(r);
  }

  /** Whether every routed change the plan calls for could be derived. */
  predicate ChangesDerived(r: Round, d: AcceptData, env: AcceptEnv) {
    match PlanOf(r.aInputs, d.rows, r.denom, r.feeRate, PiecesOr1(r))
    case Err(_) => false
    case Ok(p) =>
      && (env.routes.Some? && p.bChange != 0 ==> env.bDerived.Some?)
      && (r.aPayout && p.aChange != 0 ==> env.aDerived.Some?)
  }

  /** B accepting once more. The turn table gives A_SIGNED to B, and `/accept` asks for nothing but B's
      turn: with coins that are not yet held, B may go back and match the offer again. */
  ghost predicate Reaccepts(w: World, e: Event, id: RoundId) {
    && e.DoAccept? && e.id == id && AcceptRefusal(w, e.uid, id, e.accept, e.acceptEnv).None?
    && ChangesDerived(w.rounds[id], e.accept, e.acceptEnv)
  }

  lemma ReacceptsIsDone(w: World, e: Event, id: RoundId)
    requires e.DoAccept? && e.id == id && id in w.rounds
    ensures Reaccepts(w, e, id) <==> Accept(w, e.uid, id, e.accept, e.acceptEnv).1 == Done
  {
  }

  /** How one row may move, state by state. */
  ghost predicate Moves(r: Round, r': Round) {
    match r.status
    case Proposed => Fixed(r, r') && (r'.status.Proposed? || r'.status.Accepted? || r'.status.Cancelled?)
    case Accepted =>
      && Fixed(r, r') && (r'.status.Accepted? || r'.status.ASigned? || r'.status.Cancelled?)
      && r'.bInputs == r.bInputs && r'.sums == r.sums && r'.bMix == r.bMix && r'.bChangeSpk == r.bChangeSpk
      && (r.aPayout ==> r'.aChangeSpk == r.aChangeSpk && r'.aTweak == r.aTweak)
    case ASigned => Fixed(r, r') && (SameTransaction(r, r') || (r'.status.Accepted? && r'.bInputs != r.bInputs))
    case Broadcast => r'.status.Broadcast? && r'.unsignedTx == r.unsignedTx && r'.expiresAt == r.expiresAt
    case Cancelled => r'.status.Cancelled? && SameTransaction(r, r') && r'.expiresAt == r.expiresAt
  }

  /** What no step changes before the broadcast: the two people, A's coins, and the terms. */
  ghost predicate Fixed(r: Round, r': Round) {
    match (r, r')
    case (_, _) =>
      && r'.aUser == r.aUser && r'.bUser == r.bUser && r'.aInputs == r.aInputs && r'.network == r.network
      && r'.denom == r.denom && r'.feeRate == r.feeRate && r'.pieces == r.pieces && r'.aPayout == r.aPayout
      && r'.expiresAt == r.expiresAt && r'.aWallet == r.aWallet
  }

  lemma StillMoves(r: Round)
    ensures Moves(r, r)
  {
  }

  lemma CancelMoves(r: Round, why: Reason)
    requires !r.status.Broadcast?
    ensures Moves(r, Cancel(r, why))
  {
  }

  lemma NewCoins(w: World, id: RoundId, rows: seq<Coin>)
    requires id in w.rounds && Live(w.rounds[id]) && rows != [] && Outpoints(rows) !! Reserved(w, w.rounds[id].bUser)
    ensures rows != w.rounds[id].bInputs
  {
    ReservedHolds(w, id, w.rounds[id].bUser);
    assert Outpoints(w.rounds[id].bInputs) <= OwnCoins(w.rounds[id], w.rounds[id].bUser);
    assert At(rows[0]) in Outpoints(rows);
  }

  /** The row after `/accept`: untouched, with the instance's address, or accepted. */
  lemma AcceptOutcome(w: World, uid: User, id: RoundId, d: AcceptData, env: AcceptEnv) returns (r': Round)
    requires id in w.rounds
    ensures Accept(w, uid, id, d, env).0 == w.(rounds := w.rounds[id := r'])
    ensures Accept(w, uid, id, d, env).1 == Done ==>
      r'.status.Accepted? && r'.bWallet == Some(d.walletId) && Fixed(w.rounds[id], r') && r'.bInputs == d.rows != w.rounds[id].bInputs
      && (w.rounds[id].status.Proposed? || w.rounds[id].status.ASigned?)
    ensures Accept(w, uid, id, d, env).1 != Done ==> r' == w.rounds[id].(payoutAddress := r'.payoutAddress)
  {
    var r := w.rounds[id];
    r' := r;
    if AcceptRefusal(w, uid, id, d, env).None? {
      AcceptChecked(w, uid, id, d, env);
      NewCoins(w, id, d.rows);
      r' := Accept(w, uid, id, d, env).0.rounds[id];
    }
  }

  lemma NamedMoves(r: Round, a: Option<string>)
    ensures Moves(r, r.(payoutAddress := a)) && SameTransaction(r, r.(payoutAddress := a))
  {
  }

  lemma AcceptMoves(w: World, uid: User, id: RoundId, d: AcceptData, env: AcceptEnv)
    requires id in w.rounds
    ensures id in Accept(w, uid, id, d, env).0.rounds
    ensures Moves(w.rounds[id], Accept(w, uid, id, d, env).0.rounds[id])
    ensures w.rounds[id].status.ASigned? ==>
      (SameTransaction(w.rounds[id], Accept(w, uid, id, d, env).0.rounds[id]) <==> Accept(w, uid, id, d, env).1 != Done)
  {
    var r' := AcceptOutcome(w, uid, id, d, env);
    NamedMoves(w.rounds[id], r'.payoutAddress);
  }

  /** The row after A's part of `/sign`: untouched, with A's scripts, or signed. */
  lemma SignAOutcome(w: World, id: RoundId, d: SignData) returns (r': Round)
    requires id in w.rounds
    ensures SignA(w, id, d).0.rounds == w.rounds[id := r']
    ensures r' == w.rounds[id] || r' == WithAScripts(w.rounds[id], d)
         || (r'.status.ASigned? && SameTransaction(WithAScripts(w.rounds[id], d), r') && Fixed(w.rounds[id], r')
             && r'.aTweak == WithAScripts(w.rounds[id], d).aTweak)
  {
    var r := w.rounds[id];
    var r1 := WithAScripts(r, d);
    if !AScriptsOk(r, d) {
      r' := r;
      assert w.rounds == w.rounds[id := r];
    } else if !SignaturesOk(r1, r1.aInputs, d) {
      r' := r1;
    } else {
      r' := ASignedRow(r1, d);
      SignedKeeps(r, d);
    }
  }

  lemma SignedKeeps(r: Round, d: SignData)
    requires Assemble(WithAScripts(r, d)).Ok?
    ensures var r1 := WithAScripts(r, d); var r' := ASignedRow(r1, d);
      r'.status.ASigned? && SameTransaction(r1, r') && Fixed(r, r') && r'.aTweak == r1.aTweak
  {
  }

  lemma SignAMoves(w: World, id: RoundId, d: SignData)
    requires id in w.rounds && w.rounds[id].status.Accepted?
    ensures id in SignA(w, id, d).0.rounds && Moves(w.rounds[id], SignA(w, id, d).0.rounds[id])
  {
    var r' := SignAOutcome(w, id, d);
  }

  lemma SignBMoves(w: World, id: RoundId, d: SignData, env: SignEnv)
    requires id in w.rounds && w.rounds[id].status.ASigned?
    ensures id in SignB(w, id, d, env).0.rounds && Moves(w.rounds[id], SignB(w, id, d, env).0.rounds[id])
    ensures SameTransaction(w.rounds[id], SignB(w, id, d, env).0.rounds[id])
  {
    StillMoves(w.rounds[id]);
  }

  lemma SignMoves(w: World, uid: User, id: RoundId, d: SignData, env: SignEnv)
    requires Inv(w) && id in w.rounds
    ensures id in Sign(w, uid, id, d, env).0.rounds && Moves(w.rounds[id], Sign(w, uid, id, d, env).0.rounds[id])
    ensures w.rounds[id].status.ASigned? ==> SameTransaction(w.rounds[id], Sign(w, uid, id, d, env).0.rounds[id])
  {
    var r := w.rounds[id];
    StillMoves(r);
    if SignRefusal(w, uid, id, env).None? {
      SignChecked(w, uid, id, env);
      if r.status.Accepted? {
        SignAMoves(w, id, d);
      } else if r.status.ASigned? {
        SignBMoves(w, id, d, env);
      } else {
        assert Sound(r);
        TooEarlyForB(r, d);
      }
    }
  }

  lemma CancelRoundMoves(w: World, uid: User, id: RoundId)
    requires id in w.rounds
    ensures id in CancelRound(w, uid, id).0.rounds && Moves(w.rounds[id], CancelRound(w, uid, id).0.rounds[id])
    ensures w.rounds[id].status.ASigned? ==> SameTransaction(w.rounds[id], CancelRound(w, uid, id).0.rounds[id])
  {
    StillMoves(w.rounds[id]);
    if CanCancel(w.rounds[id].status) {
      CancelMoves(w.rounds[id], CancelledByA);
      CancelMoves(w.rounds[id], CancelledByB);
    }
  }

  lemma RemoveWalletMoves(w: World, walletId: WalletId, forget: bool, id: RoundId)
    requires id in w.rounds && id in RemoveWallet(w, walletId, forget).rounds
    ensures Moves(w.rounds[id], RemoveWallet(w, walletId, forget).rounds[id])
    ensures w.rounds[id].status.ASigned? ==> SameTransaction(w.rounds[id], RemoveWallet(w, walletId, forget).rounds[id])
  {
    StillMoves(w.rounds[id]);
    if walletId in w.wallets {
      assert RemoveWallet(w, walletId, forget).rounds == PurgeRounds(w.rounds, walletId, forget);
      PurgeMoves(w.rounds[id], walletId, forget);
    }
  }

  /** The steps that can change an existing row. */
  ghost predicate Touches(e: Event, id: RoundId) {
    match e
    case DoAccept(_, i, _, _) => i == id
    case DoSign(_, i, _, _) => i == id
    case DoCancel(_, i) => i == id
    case DoClose => true
    case DoRemoveContact(_, _) => true
    case DoRemoveWallet(_, _) => true
    case _ => false
  }

  /** A request about one round leaves the others alone. */
  lemma OthersUntouched(w: World, e: Event, id: RoundId)
    requires id in w.rounds && id < w.nextRound && !Touches(e, id)
    ensures id in Step(w, e).rounds && Step(w, e).rounds[id] == w.rounds[id]
  {
    match e
    case DoPropose(uid, walletId, partner, denom, rate, pieces, rows, spendable, routes) =>
      ProposeOthers(w, uid, walletId, partner, denom, rate, pieces, rows, spendable, routes, id);
    case DoAccept(uid, i, d, env) => AcceptOthers(w, uid, i, d, env, id);
    case DoSign(uid, i, d, env) => SignOthers(w, uid, i, d, env, id);
    case _ =>
  }

  lemma ProposeOthers(w: World, uid: User, walletId: WalletId, partner: User, denom: int, rate: real, pieces: int,
                      rows: seq<Coin>, spendable: bool, routes: Option<string>, id: RoundId)
    requires id in w.rounds && id < w.nextRound
    ensures var w' := Propose(w, uid, walletId, partner, denom, rate, pieces, rows, spendable, routes).0;
      id in w'.rounds && w'.rounds[id] == w.rounds[id]
  {
  }

  lemma AcceptOthers(w: World, uid: User, i: RoundId, d: AcceptData, env: AcceptEnv, id: RoundId)
    requires id in w.rounds && i != id
    ensures var w' := Accept(w, uid, i, d, env).0; id in w'.rounds && w'.rounds[id] == w.rounds[id]
  {
    if i in w.rounds {
      var r' := AcceptOutcome(w, uid, i, d, env);
    }
  }

  lemma SignOthers(w: World, uid: User, i: RoundId, d: SignData, env: SignEnv, id: RoundId)
    requires id in w.rounds && i != id
    ensures var w' := Sign(w, uid, i, d, env).0; id in w'.rounds && w'.rounds[id] == w.rounds[id]
  {
  }

  lemma PurgeMoves(r: Round, walletId: WalletId, forget: bool)
    requires PurgeSide(r, walletId, forget).Some?
    ensures Moves(r, PurgeSide(r, walletId, forget).value)
    ensures r.status.ASigned? ==> SameTransaction(r, PurgeSide(r, walletId, forget).value)
  {
  }

  lemma RemoveContactMoves(w: World, uid: User, c: ContactId, id: RoundId)
    requires id in w.rounds
    ensures id in RemoveContact(w, uid, c).0.rounds
    ensures Moves(w.rounds[id], RemoveContact(w, uid, c).0.rounds[id])
    ensures w.rounds[id].status.ASigned? ==> SameTransaction(w.rounds[id], RemoveContact(w, uid, c).0.rounds[id])
  {
    StillMoves(w.rounds[id]);
    if Unfinished(w.rounds[id]) {
      CancelMoves(w.rounds[id], ConnectionRemoved);
    }
  }

  lemma CloseMoves(w: World, id: RoundId)
    requires Inv(w) && id in w.rounds
    ensures id in CloseNext(w).rounds && Moves(w.rounds[id], CloseNext(w).rounds[id])
    ensures w.rounds[id].status.ASigned? ==> SameTransaction(w.rounds[id], CloseNext(w).rounds[id])
  {
    CloseNextKeeps(w);
    StillMoves(w.rounds[id]);
    if !w.rounds[id].status.Broadcast? {
      CancelMoves(w.rounds[id], Expired);
    }
  }

  lemma TouchedMoves(w: World, e: Event, id: RoundId)
    requires Inv(w) && id in w.rounds && id in Step(w, e).rounds && Touches(e, id) && !e.DoAccept?
    ensures Moves(w.rounds[id], Step(w, e).rounds[id])
    ensures w.rounds[id].status.ASigned? ==> SameTransaction(w.rounds[id], Step(w, e).rounds[id])
  {
    match e
    case DoSign(uid, _, d, env) => SignMoves(w, uid, id, d, env);
    case DoCancel(uid, _) => CancelRoundMoves(w, uid, id);
    case DoClose => CloseMoves(w, id);
    case DoRemoveContact(uid, c) => RemoveContactMoves(w, uid, c, id);
    case DoRemoveWallet(walletId, forget) => RemoveWalletMoves(w, walletId, forget, id);
  }

  /** Every step moves every row it keeps as its state allows. */
  lemma StepMoves(w: World, e: Event, id: RoundId)
    requires Inv(w) && id in w.rounds && id in Step(w, e).rounds
    ensures Moves(w.rounds[id], Step(w, e).rounds[id])
  {
    if !Touches(e, id) {
      OthersUntouched(w, e, id);
      StillMoves(w.rounds[id]);
    } else if e.DoAccept? {
      AcceptMoves(w, e.uid, id, e.accept, e.acceptEnv);
    } else {
      TouchedMoves(w, e, id);
    }
  }

  /** Once A has signed, what the transaction is rebuilt from changes exactly when B accepts again: when the
      checks of `/accept` find nothing to refuse and the routed changes can be derived. */
  lemma FrozenOnceSigned(w: World, e: Event, id: RoundId)
    requires Inv(w) && id in w.rounds && id in Step(w, e).rounds && w.rounds[id].status.ASigned?
    ensures SameTransaction(w.rounds[id], Step(w, e).rounds[id]) <==> !Reaccepts(w, e, id)
  {
    if !Touches(e, id) {
      OthersUntouched(w, e, id);
    } else if e.DoAccept? {
      AcceptMoves(w, e.uid, id, e.accept, e.acceptEnv);
      ReacceptsIsDone(w, e, id);
    } else {
      TouchedMoves(w, e, id);
    }
  }

  /** So, unless B accepts again, what any step leaves of a signed round is rebuilt into the transaction A signed. */
  lemma RebuildsTheSame(w: World, e: Event, id: RoundId)
    requires Inv(w) && id in w.rounds && id in Step(w, e).rounds && w.rounds[id].status.ASigned? && !Reaccepts(w, e, id)
    ensures w.rounds[id].unsignedTx.Some?
    ensures Assemble(Step(w, e).rounds[id]) == Ok(w.rounds[id].unsignedTx.value)
  {
    FrozenOnceSigned(w, e, id);
    SameTransactionSameTx(w.rounds[id], Step(w, e).rounds[id]);
    assert Sound(w.rounds[id]);
  }

  /** Wherever B brings fresh coins to an A_SIGNED round, the row goes back to ACCEPTED with other coins
      than the ones A signed for. */
  lemma ReacceptUnfreezes(w: World, e: Event, id: RoundId)
    requires id in w.rounds && w.rounds[id].status.ASigned? && Reaccepts(w, e, id)
    ensures id in Step(w, e).rounds && Step(w, e).rounds[id].status.Accepted?
    ensures Step(w, e).rounds[id].bInputs == e.accept.rows != w.rounds[id].bInputs
  {
    ReacceptsIsDone(w, e, id);
    var r' := AcceptOutcome(w, e.uid, id, e.accept, e.acceptEnv);
  }

  // ----- the chain -----

  /** What has been broadcast stays as it was, and each round broadcasts at most one transaction: only a
      round that has none yet can add one, and it is the one A signed. */
  lemma ChainOnlyGrows(w: World, e: Event)
    requires Inv(w) && Enabled(w, e)
    ensures forall id :: id in w.chain ==> id in Step(w, e).chain && Step(w, e).chain[id] == w.chain[id]
    ensures forall id :: id in Step(w, e).chain && id !in w.chain ==>
      && id in w.rounds && w.rounds[id].status.ASigned?
      && w.rounds[id].unsignedTx == Some(Step(w, e).chain[id].tx) && Step(w, e).chain[id].coins == Frozen(w.rounds[id])
  {
    match e
    case DoSign(uid, id, d, env) => SignChain(w, uid, id, d, env);
    case _ => OthersKeepChain(w, e);
  }

  lemma OthersKeepChain(w: World, e: Event)
    requires !e.DoSign?
    ensures Step(w, e).chain == w.chain
  {
  }

  lemma SignBChain(w: World, id: RoundId, d: SignData, env: SignEnv)
    requires id in w.rounds && Sound(w.rounds[id]) && w.rounds[id].status.ASigned?
    ensures var w' := SignB(w, id, d, env).0;
      w'.chain == w.chain
      || (id in w'.chain && w'.chain == w.chain[id := w'.chain[id]]
          && w.rounds[id].unsignedTx == Some(w'.chain[id].tx) && w'.chain[id].coins == Frozen(w.rounds[id]))
  {
  }

  lemma SignChain(w: World, uid: User, id: RoundId, d: SignData, env: SignEnv)
    requires Inv(w)
    ensures var w' := Sign(w, uid, id, d, env).0;
      w'.chain == w.chain
      || (id !in w.chain && id in w'.chain && w'.chain == w.chain[id := w'.chain[id]] && id in w.rounds
          && w.rounds[id].status.ASigned?
          && w.rounds[id].unsignedTx == Some(w'.chain[id].tx) && w'.chain[id].coins == Frozen(w.rounds[id]))
  {
    if SignRefusal(w, uid, id, env).None? {
      SignChecked(w, uid, id, env);
      var r := w.rounds[id];
      assert Sound(r) && Stands(r, id, w.chain);
      if r.status.Proposed? {
        TooEarlyForB(r, d);
      } else if r.status.ASigned? {
        SignBChain(w, id, d, env);
      }
    }
  }

  /** Over a whole run: a round once broadcast is never cancelled, and its transaction never changes. */
  lemma {:induction false} BroadcastIsFinal(w: World, events: seq<Event>, id: RoundId)
    requires Inv(w) && Runs(w, events) && id in w.chain
    ensures id in After(w, events).chain && After(w, events).chain[id] == w.chain[id]
    ensures id in After(w, events).rounds ==> After(w, events).rounds[id].status.Broadcast?
  {
    RunKeeps(w, events);
    var w' := After(w, events);
    if events == [] {
    } else {
      var n := |events| - 1;
      BroadcastIsFinal(w, events[..n], id);
      RunKeeps(w, events[..n]);
      ChainOnlyGrows(After(w, events[..n]), events[n]);
    }
    if id in w'.rounds {
      assert Stands(w'.rounds[id], id, w'.chain);
    }
  }

  // ----- coins given back -----

  /** The rounds of `closed` were live and are cancelled, with their coins still listed on them; the other
      rounds are as they were. */
  ghost predicate ClosesExactly(w: World, w': World, closed: set<RoundId>) {
    && w'.rounds.Keys == w.rounds.Keys
    && (forall id :: id in w.rounds && id !in closed ==> w'.rounds[id] == w.rounds[id])
    && (forall id :: id in closed ==> id in w.rounds && Live(w.rounds[id]) && !Live(w'.rounds[id]))
  }

  /** Closing rounds gives back exactly their own coins: by disjointness, no coin of theirs is held by
      another round of the same user. */
  lemma ReleasesExactly(w: World, w': World, closed: set<RoundId>, u: User, p: Outpoint)
    requires Disjoint(w.rounds) && ClosesExactly(w, w', closed)
    ensures p in Reserved(w', u) <==> p in Reserved(w, u) && !exists id :: id in closed && p in OwnCoins(w.rounds[id], u)
  {
    if p in Reserved(w', u) {
      var i :| i in w'.rounds && Live(w'.rounds[i]) && p in OwnCoins(w'.rounds[i], u);
      assert i !in closed;
      forall id | id in closed ensures p !in OwnCoins(w.rounds[id], u) {
        assert Apart(w.rounds[i], w.rounds[id], u);
      }
    } else if p in Reserved(w, u) {
      var i :| i in w.rounds && Live(w.rounds[i]) && p in OwnCoins(w.rounds[i], u);
      assert i in closed;
    }
  }

  lemma CancelReleases(w: World, uid: User, id: RoundId, u: User, p: Outpoint)
    requires Inv(w) && CancelRound(w, uid, id).1 == Done
    ensures id in w.rounds
    ensures p in Reserved(CancelRound(w, uid, id).0, u) <==> p in Reserved(w, u) && p !in OwnCoins(w.rounds[id], u)
  {
    ReleasesExactly(w, CancelRound(w, uid, id).0, {id}, u, p);
  }

  /** Removing a connection gives back the coins of the unfinished rounds between the two, and no others. */
  lemma RemovalReleases(w: World, uid: User, c: ContactId, u: User, p: Outpoint)
    requires Inv(w) && RemoveContact(w, uid, c).1 == Done
    ensures c in w.contacts
    ensures p in Reserved(RemoveContact(w, uid, c).0, u)
      <==> (p in Reserved(w, u)
            && !exists id :: id in w.rounds && p in OwnCoins(w.rounds[id], u)
                             && UnfinishedBetween(w.rounds[id], w.contacts[c].requester, w.contacts[c].target, w.contacts[c].network))
  {
    var k := w.contacts[c];
    var closed := set id | id in w.rounds && UnfinishedBetween(w.rounds[id], k.requester, k.target, k.network);
    ReleasesExactly(w, RemoveContact(w, uid, c).0, closed, u, p);
  }

  /** The sweeper gives back the coins of what it closes. */
  lemma CloseReleases(w: World, u: User, p: Outpoint)
    requires Inv(w) && w.listed != []
    ensures p in Reserved(CloseNext(w), u)
      <==> p in Reserved(w, u) && !(w.listed[0] in w.rounds && p in OwnCoins(w.rounds[w.listed[0]], u) && Live(w.rounds[w.listed[0]]))
  {
    var id := w.listed[0];
    if id in w.rounds && Live(w.rounds[id]) {
      ReleasesExactly(w, CloseNext(w), {id}, u, p);
    } else if id in w.rounds {
      NotLiveReserved(w, CloseNext(w), id, u);
    }
  }

  lemma NotLiveReserved(w: World, w': World, id: RoundId, u: User)
    requires id in w.rounds && w'.rounds.Keys == w.rounds.Keys && !Live(w.rounds[id]) && !Live(w'.rounds[id])
    requires forall i :: i in w.rounds && i != id ==> w'.rounds[i] == w.rounds[i]
    ensures Reserved(w', u) == Reserved(w, u)
  {
    forall p ensures p in Reserved(w', u) <==> p in Reserved(w, u) {
      if p in Reserved(w, u) {
        var i :| i in w.rounds && Live(w.rounds[i]) && p in OwnCoins(w.rounds[i], u);
        assert w'.rounds[i] == w.rounds[i];
      }
      if p in Reserved(w', u) {
        var i :| i in w'.rounds && Live(w'.rounds[i]) && p in OwnCoins(w'.rounds[i], u);
        assert w'.rounds[i] == w.rounds[i];
      }
    }
  }

  // ----- signing in two halves -----

  lemma OnlyOneDue(w: World, id: RoundId, now: nat)
    requires id in w.rounds && w.rounds[id].status.ASigned? && w.rounds[id].expiresAt <= now
    requires forall i :: i in w.rounds && i != id && Unfinished(w.rounds[i]) ==> w.rounds[i].expiresAt > now
    ensures IsListing(w.(clock := now), [id])
  {
  }

  /** What happens when the checks of `/sign` and its writes are not one step: B's request is checked before
      the round expires, the sweeper lists it, B's writes go through, and the sweeper's second phase then
      cancels a round that is on the chain. */
  lemma SplitSignIsSwept(w: World, id: RoundId, d: SignData, now: nat) returns (listed: World, signed: World)
    requires Inv(w) && id in w.rounds && w.rounds[id].status.ASigned? && w.clock < w.rounds[id].expiresAt <= now
    requires SignaturesOk(w.rounds[id], w.rounds[id].bInputs, d) && w.listed == []
    requires forall i :: i in w.rounds && i != id && Unfinished(w.rounds[i]) ==> w.rounds[i].expiresAt > now
    ensures SignRefusal(w, w.rounds[id].bUser, id, SignEnv(true, true)).None?
    ensures IsListing(w.(clock := now), [id]) && listed == w.(clock := now, listed := [id])
    ensures signed == SignB(listed, id, d, SignEnv(true, true)).0
    ensures id in signed.rounds && signed.rounds[id].status.Broadcast? && id in signed.chain
    ensures id in CloseNext(signed).rounds && CloseNext(signed).rounds[id].status.Cancelled?
  {
    var r := w.rounds[id];
    OnlyOneDue(w, id, now);
    assert Sound(r);
    BothSigned(r, d);
    SoundIsPlain(r);
    listed := w.(clock := now, listed := [id]);
    signed := SignB(listed, id, d, SignEnv(true, true)).0;
  }
}
