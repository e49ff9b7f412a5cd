/** Exactly when each request to the Tango endpoints is granted, and exactly what it then changes: what a caller
    can tell from the rows and from the request, without the handlers' own checks. */
module TangoHandlers {
  import opened Results
  import opened Bip69
  import opened TangoPlan
  import opened TangoRounds
  import opened TangoSafety
  import opened TangoHistory
  import opened TangoConsent

  // ----- connections -----

  ghost predicate HasWallet(w: World, u: User, net: Network) {
    exists id :: id in w.wallets && w.wallets[id].owner == u && w.wallets[id].network == net
  }

  /** A row about these two on this network, whoever asked. */
  ghost predicate About(k: Contact, a: User, b: User, net: Network) {
    k.network == net && {k.requester, k.target} == {a, b}
  }

  /** Two different people with wallets there, and between them nothing, or a request that uid has declined. */
  ghost predicate MayRequest(w: World, uid: User, target: User, net: Network) {
    && uid != target && HasWallet(w, uid, net) && HasWallet(w, target, net)
    && forall c :: c in w.contacts && About(w.contacts[c], uid, target, net) ==>
         w.contacts[c].status.Declined? && w.contacts[c].requester == target
  }

  lemma AboutJoins(k: Contact, a: User, b: User, net: Network)
    requires a != b
    ensures About(k, a, b, net) <==> Joins(k, a, b, net)
  {
    if About(k, a, b, net) {
      assert a in {k.requester, k.target} && b in {k.requester, k.target} && k.requester in {a, b} && k.target in {a, b};
    }
  }

  lemma BetweenIs(w: World, a: User, b: User, net: Network, c: ContactId)
    requires OnePerPair(w.contacts) && c in w.contacts && Joins(w.contacts[c], a, b, net)
    ensures Between(w, a, b, net) == Some(c)
  {
    var d := Between(w, a, b, net).value;
    assert d == c || !Rivals(w.contacts[c], w.contacts[d]);
  }

  lemma NetworkMeans(w: World, u: User, net: Network)
    ensures OnNetwork(w, u, net) <==> HasWallet(w, u, net)
  {
  }

  /** A request is granted exactly then; it is written into the declined row, or into a new one, and nothing
      else changes. */
  lemma RequestExactly(w: World, uid: User, target: User, net: Network)
    requires OnePerPair(w.contacts)
    ensures RequestContact(w, uid, target, net).1 == Done <==> MayRequest(w, uid, target, net)
    ensures RequestContact(w, uid, target, net).1 != Done ==> RequestContact(w, uid, target, net).0 == w
    ensures MayRequest(w, uid, target, net) ==>
      exists c :: RequestWritten(w, RequestContact(w, uid, target, net).0, c, Contact(Pending, uid, target, net))
  {
    NetworkMeans(w, uid, net);
    NetworkMeans(w, target, net);
    forall c | c in w.contacts && uid != target
      ensures About(w.contacts[c], uid, target, net) <==> Joins(w.contacts[c], uid, target, net)
      ensures Joins(w.contacts[c], uid, target, net) ==> Between(w, uid, target, net) == Some(c)
    {
      AboutJoins(w.contacts[c], uid, target, net);
      if Joins(w.contacts[c], uid, target, net) {
        BetweenIs(w, uid, target, net, c);
      }
    }
    if MayRequest(w, uid, target, net) {
      match Between(w, uid, target, net)
      case Some(c) => assert RequestWritten(w, RequestContact(w, uid, target, net).0, c, Contact(Pending, uid, target, net));
      case None =>
        assert RequestWritten(w, RequestContact(w, uid, target, net).0, w.nextContact, Contact(Pending, uid, target, net));
    }
  }

  /** One row is written: the one the two had, or a new one. */
  ghost predicate RequestWritten(w: World, w': World, c: ContactId, k: Contact) {
    && (if exists d :: d in w.contacts && About(w.contacts[d], k.requester, k.target, k.network)
        then c in w.contacts && About(w.contacts[c], k.requester, k.target, k.network)
        else c == w.nextContact)
    && w' == w.(contacts := w.contacts[c := k], nextContact := w'.nextContact)
    && w'.nextContact == (if c in w.contacts && About(w.contacts[c], k.requester, k.target, k.network)
                          then w.nextContact else w.nextContact + 1)
  }

  /** Only the person asked answers, and only once. */
  lemma AnswerExactly(w: World, uid: User, c: ContactId, yes: bool)
    ensures Answer(w, uid, c, yes).1 == Done <==> c in w.contacts && w.contacts[c].target == uid && w.contacts[c].status == Pending
    ensures Answer(w, uid, c, yes).1 == Refused(NotFound) <==> !(c in w.contacts && w.contacts[c].target == uid)
    ensures Answer(w, uid, c, yes).1 != Done ==> Answer(w, uid, c, yes).0 == w && Answer(w, uid, c, yes).1.why in {NotFound, BadRequest}
    ensures Answer(w, uid, c, yes).1 == Done ==>
      var k := w.contacts[c];
      Answer(w, uid, c, yes).0
      == w.(contacts := w.contacts[c := Contact(if yes then Approved else Declined, k.requester, uid, k.network)])
  {
  }

  /** Either of the two removes a connection; every unfinished round it carried is cancelled, and nothing else
      changes. */
  lemma RemoveExactly(w: World, uid: User, c: ContactId)
    ensures RemoveContact(w, uid, c).1 == Done <==> c in w.contacts && uid in {w.contacts[c].requester, w.contacts[c].target}
    ensures RemoveContact(w, uid, c).1 != Done ==> RemoveContact(w, uid, c) == (w, Refused(NotFound))
    ensures RemoveContact(w, uid, c).1 == Done ==>
      var k, w' := w.contacts[c], RemoveContact(w, uid, c).0;
      && w' == w.(rounds := w'.rounds, contacts := w.contacts - {c}) && w'.rounds.Keys == w.rounds.Keys
      && forall id :: id in w.rounds ==>
           var r := w.rounds[id];
           w'.rounds[id] == if r.status in {Proposed, Accepted, ASigned} && r.network == k.network && {r.aUser, r.bUser} == {k.requester, k.target}
                            then r.(status := Cancelled, reason := Some(ConnectionRemoved)) else r
  {
    if RemoveContact(w, uid, c).1 == Done {
      var k := w.contacts[c];
      forall id | id in w.rounds
        ensures ({w.rounds[id].aUser, w.rounds[id].bUser} == {k.requester, k.target})
             <==> (w.rounds[id].aUser == k.requester && w.rounds[id].bUser == k.target)
                  || (w.rounds[id].aUser == k.target && w.rounds[id].bUser == k.requester)
      {
        SamePair(w.rounds[id].aUser, w.rounds[id].bUser, k.requester, k.target);
      }
    }
  }

  lemma SamePair(a: User, b: User, c: User, d: User)
    ensures {a, b} == {c, d} <==> (a == c && b == d) || (a == d && b == c)
  {
    if {a, b} == {c, d} {
      assert a in {c, d} && b in {c, d} && c in {a, b} && d in {a, b};
    }
  }

  // ----- what the requests carry -----

  /** At least one coin, each with a 32-byte id and key and worth something, and none twice. */
  ghost predicate CoinsInOrder(rows: seq<Coin>) {
    && |rows| > 0
    && (forall i :: 0 <= i < |rows| ==> |rows[i].txid| == 32 && |rows[i].pubKey| == 32 && rows[i].amount > 0)
    && (forall i, j :: 0 <= i < |rows| && 0 <= j < |rows| && i != j ==> rows[i].txid != rows[j].txid || rows[i].vout != rows[j].vout)
  }

  lemma RowsInOrder(rows: seq<Coin>)
    ensures RowsOk(rows) <==> CoinsInOrder(rows)
  {
    if RowsOk(rows) {
      forall i, j | 0 <= i < |rows| && 0 <= j < |rows| && i != j ensures At(rows[i]) != At(rows[j]) {
        if i < j {
        } else {
          assert At(rows[j]) != At(rows[i]);
        }
      }
    }
  }

  ghost predicate Holds(rows: seq<Coin>, p: Outpoint) {
    exists i :: 0 <= i < |rows| && rows[i].txid == p.txid && rows[i].vout == p.vout
  }

  /** None of these coins is on the user's side of a round that is not cancelled. */
  ghost predicate Free(w: World, u: User, rows: seq<Coin>) {
    forall id, i :: id in w.rounds && w.rounds[id].status != Cancelled && 0 <= i < |rows| ==>
      && (w.rounds[id].aUser == u ==> !Holds(w.rounds[id].aInputs, At(rows[i])))
      && (w.rounds[id].bUser == u ==> !Holds(w.rounds[id].bInputs, At(rows[i])))
  }

  lemma OutpointsHold(rows: seq<Coin>, p: Outpoint)
    ensures p in Outpoints(rows) <==> Holds(rows, p)
  {
    if p in Outpoints(rows) {
      var i :| 0 <= i < |rows| && At(rows[i]) == p;
    }
    if Holds(rows, p) {
      var i :| 0 <= i < |rows| && rows[i].txid == p.txid && rows[i].vout == p.vout;
      assert At(rows[i]) == p;
    }
  }

  lemma ReservedMeans(w: World, u: User, rows: seq<Coin>)
    ensures Outpoints(rows) !! Reserved(w, u) <==> Free(w, u, rows)
  {
    forall id, p | id in w.rounds
      ensures p in OwnCoins(w.rounds[id], u)
        <==> (w.rounds[id].aUser == u && Holds(w.rounds[id].aInputs, p)) || (w.rounds[id].bUser == u && Holds(w.rounds[id].bInputs, p))
    {
      OutpointsHold(w.rounds[id].aInputs, p);
      OutpointsHold(w.rounds[id].bInputs, p);
    }
    if Outpoints(rows) !! Reserved(w, u) {
      forall id, i | id in w.rounds && w.rounds[id].status != Cancelled && 0 <= i < |rows|
        ensures At(rows[i]) !in OwnCoins(w.rounds[id], u)
      {
        assert At(rows[i]) in Outpoints(rows);
      }
    }
  }

  /** As many taproot scripts as pieces, and none twice. */
  ghost predicate ScriptsInOrder(spks: seq<Script>, pieces: int) {
    && |spks| == pieces
    && (forall i :: 0 <= i < |spks| ==> |spks[i]| == 34 && spks[i][..2] == [0x51, 0x20])
    && (forall i, j :: 0 <= i < |spks| && 0 <= j < |spks| && i != j ==> spks[i] != spks[j])
  }

  lemma MixInOrder(spks: seq<Script>, pieces: int)
    ensures MixOk(spks, pieces) <==> ScriptsInOrder(spks, pieces)
  {
    forall i | 0 <= i < |spks| ensures P2tr(spks[i]) <==> |spks[i]| == 34 && spks[i][..2] == [0x51, 0x20] {
      Taproot34(spks[i]);
    }
    if MixOk(spks, pieces) {
      forall i, j | 0 <= i < |spks| && 0 <= j < |spks| && i != j ensures spks[i] != spks[j] {
        if j < i {
          assert spks[j] != spks[i];
        }
      }
    }
  }

  lemma Taproot34(s: Script)
    ensures P2tr(s) <==> |s| == 34 && s[..2] == [0x51, 0x20]
  {
    if |s| == 34 && s[..2] == [0x51, 0x20] {
      assert s[..2][0] == 0x51 && s[..2][1] == 0x20;
    }
  }

  // ----- `/rounds` -----

  ghost predicate MayPropose(w: World, uid: User, walletId: WalletId, partner: User, denom: int, rate: real, pieces: int,
                             rows: seq<Coin>, spendable: bool)
  {
    && walletId in w.wallets && w.wallets[walletId].owner == uid && partner != uid
    && (exists c :: c in w.contacts && w.contacts[c].status == Approved
                    && About(w.contacts[c], uid, partner, w.wallets[walletId].network))
    && CoinsInOrder(rows) && spendable && Free(w, uid, rows)
    && PlanOf(rows, rows, denom, rate, pieces).Ok?
  }

  /** An offer is taken exactly then: from one's own wallet, to somebody one is connected with there, of coins
      that are in order, spendable and in no other round, and if a partner with such coins could match it. */
  lemma ProposeExactly(w: World, uid: User, walletId: WalletId, partner: User, denom: int, rate: real, pieces: int,
                       rows: seq<Coin>, spendable: bool, routes: Option<string>)
    ensures Propose(w, uid, walletId, partner, denom, rate, pieces, rows, spendable, routes).1 == Done
      <==> MayPropose(w, uid, walletId, partner, denom, rate, pieces, rows, spendable)
  {
    RowsInOrder(rows);
    ReservedMeans(w, uid, rows);
    if walletId in w.wallets && partner != uid {
      var net := w.wallets[walletId].network;
      forall c | c in w.contacts ensures About(w.contacts[c], uid, partner, net) <==> Joins(w.contacts[c], uid, partner, net) {
        AboutJoins(w.contacts[c], uid, partner, net);
      }
    }
  }

  /** A new row holds the offer for a day, with nothing of B's yet; a refusal changes nothing. */
  lemma ProposeWrites(w: World, uid: User, walletId: WalletId, partner: User, denom: int, rate: real, pieces: int,
                      rows: seq<Coin>, spendable: bool, routes: Option<string>)
    ensures var (w', reply) := Propose(w, uid, walletId, partner, denom, rate, pieces, rows, spendable, routes);
      && (reply != Done ==> w' == w)
      && (reply == Done ==>
            && walletId in w.wallets && w.nextRound in w'.rounds
            && w' == w.(rounds := w.rounds[w.nextRound := w'.rounds[w.nextRound]], nextRound := w.nextRound + 1)
            && Offered(w'.rounds[w.nextRound], w.wallets[walletId].network, uid, walletId, partner, denom, rate, pieces, rows,
                       routes, w.clock))
  {
  }

  ghost predicate Offered(r: Round, net: Network, uid: User, walletId: WalletId, partner: User, denom: int, rate: real,
                          pieces: int, rows: seq<Coin>, routes: Option<string>, now: nat)
  {
    match r.status
    case Proposed =>
      && r.network == net && r.aUser == uid && r.bUser == partner && r.aWallet == Some(walletId) && r.bWallet == None
      && r.denom == denom && r.feeRate == rate && (pieces != 0 ==> r.pieces == pieces) && (pieces == 0 ==> r.pieces == 1)
      && r.aInputs == rows && r.bInputs == [] && r.aMix == [] && r.bMix == [] && r.aChangeSpk == None && r.bChangeSpk == None
      && (r.aPayout <==> routes.Some?) && !r.bPayout && r.payoutAddress == routes && r.expiresAt == now + 24 * 60 * 60
      && r.aWitnesses == map[] && r.bWitnesses == map[] && r.unsignedTx == None && r.reason == None
    case _ => false
  }

  // ----- `/accept` -----

  /** It is B's turn while B has not signed and A's signature is not being waited for. */
  predicate BToMove(r: Round) {
    r.status == Proposed || r.status == ASigned
  }

  predicate InTime(r: Round, now: nat) {
    r.expiresAt == 0 || now < r.expiresAt
  }

  ghost predicate MayAccept(w: World, uid: User, id: RoundId, d: AcceptData, env: AcceptEnv) {
    id in w.rounds && MayMatch(w, uid, w.rounds[id], d, env)
  }

  ghost predicate MayMatch(w: World, uid: User, r: Round, d: AcceptData, env: AcceptEnv) {
    match r.status
    case Proposed | ASigned => MatchInOrder(w, uid, r, d, env)
    case _ => false
  }

  ghost predicate MatchInOrder(w: World, uid: User, r: Round, d: AcceptData, env: AcceptEnv) {
    && r.bUser == uid && InTime(r, w.clock)
    && d.walletId in w.wallets && w.wallets[d.walletId] == Wallet(uid, r.network)
    && CoinsInOrder(d.rows) && env.spendable && Free(w, uid, d.rows)
    && (forall i :: 0 <= i < |d.rows| ==> !Holds(r.aInputs, At(d.rows[i])))
    && ScriptsInOrder(d.mix, if r.pieces == 0 then 1 else r.pieces)
    && (d.changeSpk.Some? ==> |d.changeSpk.value| == 34 && d.changeSpk.value[..2] == [0x51, 0x20])
    && ChangeSettled(r, d, env)
  }

  /** The plan works out, and every change it leaves has a script: B's own, or one derived for the instance if
      B's change is routed, and then B sends none; and the same for A's if that is routed. */
  ghost predicate ChangeSettled(r: Round, d: AcceptData, env: AcceptEnv) {
    match PlanOf(r.aInputs, d.rows, r.denom, r.feeRate, if r.pieces == 0 then 1 else r.pieces)
    case Err(_) => false
    case Ok(p) =>
      && (if env.routes.Some? then d.changeSpk.None? && (p.bChange != 0 ==> env.bDerived.Some?) else p.bChange != 0 ==> d.changeSpk.Some?)
      && (r.aPayout && p.aChange != 0 ==> env.aDerived.Some?)
  }

  lemma Overlap(a: seq<Coin>, b: seq<Coin>)
    ensures Outpoints(a) !! Outpoints(b) <==> forall i :: 0 <= i < |a| ==> !Holds(b, At(a[i]))
  {
    forall i | 0 <= i < |a| ensures At(a[i]) in Outpoints(a) && (At(a[i]) in Outpoints(b) <==> Holds(b, At(a[i]))) {
      OutpointsHold(b, At(a[i]));
    }
  }

  /** Of an unrefused match, only what could not be derived is left to stop it. */
  lemma Unrefused(w: World, uid: User, id: RoundId, d: AcceptData, env: AcceptEnv)
    requires id in w.rounds && AcceptRefusal(w, uid, id, d, env).None?
    ensures MayAccept(w, uid, id, d, env) <==> ChangesDerived(w.rounds[id], d, env)
  {
    OnlyChangesLeft(w, uid, w.rounds[id], d, env);
    SettledMeans(w.rounds[id], d, env);
  }

  lemma OnlyChangesLeft(w: World, uid: User, r: Round, d: AcceptData, env: AcceptEnv)
    requires r.bUser == uid && !IsExpired(r, w.clock) && (r.status.Proposed? || r.status.ASigned?)
    requires d.walletId in w.wallets && w.wallets[d.walletId].owner == uid && w.wallets[d.walletId].network == r.network
    requires RowsOk(d.rows) && (d.changeSpk.Some? ==> P2tr(d.changeSpk.value)) && MixOk(d.mix, PiecesOr1(r)) && env.spendable
    requires Outpoints(d.rows) !! Reserved(w, uid) && Outpoints(d.rows) !! Outpoints(r.aInputs)
    ensures MayMatch(w, uid, r, d, env) <==> ChangeSettled(r, d, env)
  {
    MatchParts(w, uid, r, d);
  }

  lemma SettledMeans(r: Round, d: AcceptData, env: AcceptEnv)
    requires PlanOf(r.aInputs, d.rows, r.denom, r.feeRate, PiecesOr1(r)).Ok?
    requires if env.routes.Some? then d.changeSpk.None?
             else PlanOf(r.aInputs, d.rows, r.denom, r.feeRate, PiecesOr1(r)).value.bChange != 0 ==> d.changeSpk.Some?
    ensures ChangeSettled(r, d, env) <==> ChangesDerived(r, d, env)
  {
  }

  lemma RefusedMayNot(w: World, uid: User, id: RoundId, d: AcceptData, env: AcceptEnv)
    requires id in w.rounds && AcceptRefusal(w, uid, id, d, env).Some?
    ensures !MayAccept(w, uid, id, d, env)
  {
    MatchParts(w, uid, w.rounds[id], d);
  }

  lemma MatchParts(w: World, uid: User, r: Round, d: AcceptData)
    ensures RowsOk(d.rows) <==> CoinsInOrder(d.rows)
    ensures Outpoints(d.rows) !! Reserved(w, uid) <==> Free(w, uid, d.rows)
    ensures Outpoints(d.rows) !! Outpoints(r.aInputs) <==> forall i :: 0 <= i < |d.rows| ==> !Holds(r.aInputs, At(d.rows[i]))
    ensures MixOk(d.mix, PiecesOr1(r)) <==> ScriptsInOrder(d.mix, if r.pieces == 0 then 1 else r.pieces)
    ensures d.changeSpk.Some? ==> (P2tr(d.changeSpk.value) <==> |d.changeSpk.value| == 34 && d.changeSpk.value[..2] == [0x51, 0x20])
  {
    RowsInOrder(d.rows);
    ReservedMeans(w, uid, d.rows);
    Overlap(d.rows, r.aInputs);
    MixInOrder(d.mix, PiecesOr1(r));
    if d.changeSpk.Some? {
      Taproot34(d.changeSpk.value);
    }
  }

  /** A match is taken exactly then. */
  lemma AcceptExactly(w: World, uid: User, id: RoundId, d: AcceptData, env: AcceptEnv)
    ensures Accept(w, uid, id, d, env).1 == Done <==> MayAccept(w, uid, id, d, env)
  {
    if id in w.rounds {
      if AcceptRefusal(w, uid, id, d, env).None? {
        Unrefused(w, uid, id, d, env);
      } else {
        RefusedMayNot(w, uid, id, d, env);
      }
      ReacceptsIsDone(w, DoAccept(uid, id, d, env), id);
    }
  }

  /** The row of a match: B's side is what B sent, the amounts are the plan's, and a routed change goes to the
      script that was derived for it. */
  ghost predicate IsMatched(r: Round, r': Round, p: Amounts, d: AcceptData, env: AcceptEnv) {
    match r'.status
    case Accepted =>
      && r'.bWallet == Some(d.walletId) && r'.bInputs == d.rows && r'.bMix == d.mix && (r'.bPayout <==> env.routes.Some?)
      && r'.sums.aIn == p.aIn && r'.sums.bIn == p.bIn && r'.sums.aChange == p.aChange && r'.sums.bChange == p.bChange
      && r'.sums.aFee == p.aFee && r'.sums.bFee == p.bFee && r'.sums.fee == p.fee && r'.sums.vsize == p.vsize
      && (r'.sums.clean <==> p.clean)
      && (env.routes.Some? && p.bChange != 0 ==> env.bDerived.Some? && r'.bChangeSpk == Some(env.bDerived.value.0) && r'.bTweak == Some(env.bDerived.value.1))
      && (!(env.routes.Some? && p.bChange != 0) ==> r'.bChangeSpk == d.changeSpk && r'.bTweak == None)
      && (r.aPayout && p.aChange != 0 ==> env.aDerived.Some? && r'.aChangeSpk == Some(env.aDerived.value.0) && r'.aTweak == Some(env.aDerived.value.1))
      && (!(r.aPayout && p.aChange != 0) ==> r'.aChangeSpk == r.aChangeSpk && r'.aTweak == r.aTweak)
      && IsNamed(r, r', p, env)
      && r' == r.(status := Accepted, bWallet := r'.bWallet, bInputs := r'.bInputs, bMix := r'.bMix, bPayout := r'.bPayout,
                  sums := r'.sums, bChangeSpk := r'.bChangeSpk, bTweak := r'.bTweak, aChangeSpk := r'.aChangeSpk,
                  aTweak := r'.aTweak, payoutAddress := r'.payoutAddress)
    case _ => false
  }

  /** The instance's address is put on the row when a change is routed and none is there. */
  ghost predicate IsNamed(r: Round, r': Round, p: Amounts, env: AcceptEnv) {
    r'.payoutAddress ==
      if r.payoutAddress == None && env.routes.Some? && (p.bChange != 0 || (r.aPayout && p.aChange != 0)) then env.routes
      else r.payoutAddress
  }

  /** What `/accept` writes: one row, matched; of a refusal nothing, unless a routed change could not be derived,
      when the instance's address may already be there. */
  lemma AcceptWrites(w: World, uid: User, id: RoundId, d: AcceptData, env: AcceptEnv)
    requires id in w.rounds
    ensures var (w', reply) := Accept(w, uid, id, d, env); var r := w.rounds[id];
      && id in w'.rounds && w' == w.(rounds := w.rounds[id := w'.rounds[id]])
      && (match PlanOf(r.aInputs, d.rows, r.denom, r.feeRate, PiecesOr1(r))
          case Err(_) => reply == Done ==> false
          case Ok(p) => reply == Done ==> IsMatched(r, w'.rounds[id], p, d, env))
      && (reply != Done ==> w'.rounds[id] == r.(payoutAddress := w'.rounds[id].payoutAddress))
      && (reply != Done && reply != Refused(ServerError) ==> w' == w)
  {
    SameRow(w.rounds, id);
    if AcceptRefusal(w, uid, id, d, env).None? {
      MatchedRow(w, uid, id, d, env);
    }
  }

  lemma SameRow(rounds: map<RoundId, Round>, id: RoundId)
    requires id in rounds
    ensures rounds[id := rounds[id]] == rounds
  {
  }

  lemma MatchedIs(r: Round, p: Amounts, d: AcceptData, env: AcceptEnv)
    requires env.routes.Some? && p.bChange != 0 ==> env.bDerived.Some?
    requires r.aPayout && p.aChange != 0 ==> env.aDerived.Some?
    ensures IsMatched(r, AcceptedRow(WithAddress(r, p, env), p, d, env), p, d, env)
  {
  }

  lemma MatchedRow(w: World, uid: User, id: RoundId, d: AcceptData, env: AcceptEnv)
    requires AcceptRefusal(w, uid, id, d, env).None? && id in w.rounds
    ensures var (w', reply) := Accept(w, uid, id, d, env); var r := w.rounds[id];
      && PlanOf(r.aInputs, d.rows, r.denom, r.feeRate, PiecesOr1(r)).Ok?
      && id in w'.rounds && w' == w.(rounds := w.rounds[id := w'.rounds[id]])
      && (reply == Done ==> IsMatched(r, w'.rounds[id], PlanOf(r.aInputs, d.rows, r.denom, r.feeRate, PiecesOr1(r)).value, d, env))
      && (reply != Done ==> reply == Refused(ServerError) && w'.rounds[id] == r.(payoutAddress := w'.rounds[id].payoutAddress))
  {
    var r := w.rounds[id];
    var p := PlanOf(r.aInputs, d.rows, r.denom, r.feeRate, PiecesOr1(r)).value;
    if ChangesDerived(r, d, env) {
      MatchedIs(r, p, d, env);
    }
  }

  // ----- `/sign` -----

  /** The coins in signing order have a 64-byte signature that passes for every one of one's own, and no other. */
  ghost predicate PassesFor(tx: Tx, coins: seq<Coin>, mine: seq<Coin>, witnesses: map<nat, Signature>) {
    && witnesses.Keys == (set n | 0 <= n < |coins| && Holds(mine, At(coins[n])))
    && (forall n :: n in witnesses ==>
          n < |coins| && |witnesses[n]| == 64 && Verify(coins[n].pubKey, witnesses[n], Sighash(tx, coins, n)))
  }

  lemma PassesMeans(tx: Tx, coins: seq<Coin>, mine: seq<Coin>, witnesses: map<nat, Signature>, own: set<nat>)
    requires forall n :: n in own <==> 0 <= n < |coins| && At(coins[n]) in Outpoints(mine)
    ensures WitnessesOk(tx, coins, witnesses, own) <==> PassesFor(tx, coins, mine, witnesses)
  {
    forall n | 0 <= n < |coins| ensures n in own <==> Holds(mine, At(coins[n])) {
      OutpointsHold(mine, At(coins[n]));
    }
    assert own == (set n | 0 <= n < |coins| && Holds(mine, At(coins[n])));
  }

  /** The signatures pass for the transaction of the row, and the device, if it says which transaction it signed,
      says this one. */
  ghost predicate SignsOwn(r: Round, mine: seq<Coin>, d: SignData) {
    match Assemble(r)
    case Err(_) => false
    case Ok(tx) => (d.theirTx == None || d.theirTx == Some(tx)) && PassesFor(tx, Frozen(r), mine, d.witnesses)
  }

  lemma SignsOwnMeans(r: Round, mine: seq<Coin>, d: SignData)
    ensures SignaturesOk(r, mine, d) <==> SignsOwn(r, mine, d)
  {
    if Assemble(r).Ok? {
      PassesMeans(Assemble(r).value, Frozen(r), mine, d.witnesses, OwnerIndices(r, mine));
    }
  }

  /** A's turn is after a match, B's before it and after A's signature. */
  predicate HasTurn(r: Round, uid: User) {
    if r.aUser == uid then r.status == Accepted else r.bUser == uid && BToMove(r)
  }

  /** What both sides need: to be the one whose turn it is, in time, and every coin of the round unspent. */
  ghost predicate MayMove(w: World, uid: User, id: RoundId, env: SignEnv) {
    && id in w.rounds && InTime(w.rounds[id], w.clock) && env.unspent
    && HasTurn(w.rounds[id], uid)
  }

  /** A signs: the scripts are in order, no change script comes for a routed change, one comes for any other
      change, and the signatures pass for the transaction with these scripts. */
  ghost predicate ASigns(r: Round, d: SignData) {
    && AScriptsFit(r, d)
    && SignsOwn(r.(aMix := d.mix, aChangeSpk := if r.aPayout then r.aChangeSpk else d.changeSpk,
                   aTweak := if r.aPayout then r.aTweak else None), r.aInputs, d)
  }

  ghost predicate AScriptsFit(r: Round, d: SignData) {
    && ScriptsInOrder(d.mix, if r.pieces == 0 then 1 else r.pieces)
    && (r.aPayout ==> d.changeSpk == None)
    && (!r.aPayout && r.sums.aChange != 0 ==> d.changeSpk.Some? && |d.changeSpk.value| == 34 && d.changeSpk.value[..2] == [0x51, 0x20])
  }

  /** B signs: the signatures pass, and the network takes the transaction. */
  ghost predicate BSigns(r: Round, d: SignData, env: SignEnv) {
    SignsOwn(r, r.bInputs, d) && env.accepted
  }

  lemma RefusesSign(w: World, uid: User, id: RoundId, env: SignEnv)
    ensures SignRefusal(w, uid, id, env).None? <==> MayMove(w, uid, id, env)
  {
  }

  lemma ASignsMeans(r: Round, d: SignData)
    ensures AScriptsOk(r, d) <==> AScriptsFit(r, d)
    ensures AScriptsOk(r, d) && SignaturesOk(WithAScripts(r, d), WithAScripts(r, d).aInputs, d) <==> ASigns(r, d)
  {
    MixInOrder(d.mix, PiecesOr1(r));
    SignsOwnMeans(WithAScripts(r, d), r.aInputs, d);
    if d.changeSpk.Some? {
      Taproot34(d.changeSpk.value);
    }
  }

  /** A signature is taken exactly then; nobody's is with a spent coin in the round. */
  lemma SignExactly(w: World, uid: User, id: RoundId, d: SignData, env: SignEnv)
    requires Inv(w)
    ensures Sign(w, uid, id, d, env).1 == Done
      <==> MayMove(w, uid, id, env) && (if w.rounds[id].aUser == uid then ASigns(w.rounds[id], d) else BSigns(w.rounds[id], d, env))
    ensures !MayMove(w, uid, id, env) ==> Sign(w, uid, id, d, env).0 == w
  {
    RefusesSign(w, uid, id, env);
    if MayMove(w, uid, id, env) {
      var r := w.rounds[id];
      assert Sound(r);
      if r.aUser == uid {
        ASignsMeans(r, d);
        SignADone(w, id, d);
      } else {
        SignsOwnMeans(r, r.bInputs, d);
        if SignaturesOk(r, r.bInputs, d) {
          BRefusals(r, d);
        }
        SignBDone(w, id, d, env);
      }
    }
  }

  lemma SignADone(w: World, id: RoundId, d: SignData)
    requires id in w.rounds
    ensures SignA(w, id, d).1 == Done
      <==> AScriptsOk(w.rounds[id], d) && SignaturesOk(WithAScripts(w.rounds[id], d), WithAScripts(w.rounds[id], d).aInputs, d)
  {
  }

  lemma SignBDone(w: World, id: RoundId, d: SignData, env: SignEnv)
    requires id in w.rounds
    requires SignaturesOk(w.rounds[id], w.rounds[id].bInputs, d) ==>
      Finalize(Assemble(w.rounds[id]).value, w.rounds[id].aWitnesses + d.witnesses).Some?
    ensures SignB(w, id, d, env).1 == Done <==> SignaturesOk(w.rounds[id], w.rounds[id].bInputs, d) && env.accepted
  {
  }

  /** What a refusal of `/sign` says: 404 to anybody else, 409 out of turn or with a coin spent, 410 too late,
      502 if the network will not have it, and 400 for everything about the scripts and signatures. */
  lemma SignRefusals(w: World, uid: User, id: RoundId, d: SignData, env: SignEnv)
    requires Inv(w)
    ensures !MayMove(w, uid, id, env) ==> Sign(w, uid, id, d, env).1 == Refused(FirstRefusal(w, uid, id))
    ensures MayMove(w, uid, id, env) && w.rounds[id].aUser == uid ==> Sign(w, uid, id, d, env).1 in {Done, Refused(BadRequest)}
    ensures MayMove(w, uid, id, env) && w.rounds[id].aUser != uid ==>
      Sign(w, uid, id, d, env).1
      == if !SignsOwn(w.rounds[id], w.rounds[id].bInputs, d) then Refused(BadRequest)
         else if env.accepted then Done else Refused(BadGateway)
  {
    RefusesSign(w, uid, id, env);
    if MayMove(w, uid, id, env) && w.rounds[id].aUser != uid {
      assert Sound(w.rounds[id]);
      BReply(w, id, d, env);
    }
  }

  function FirstRefusal(w: World, uid: User, id: RoundId): Refusal {
    if id !in w.rounds || uid !in {w.rounds[id].aUser, w.rounds[id].bUser} then NotFound
    else if HasTurn(w.rounds[id], uid) && !InTime(w.rounds[id], w.clock) then Gone
    else Conflict
  }

  lemma BReply(w: World, id: RoundId, d: SignData, env: SignEnv)
    requires id in w.rounds && Sound(w.rounds[id]) && BToMove(w.rounds[id])
    ensures SignB(w, id, d, env).1
         == if !SignsOwn(w.rounds[id], w.rounds[id].bInputs, d) then Refused(BadRequest)
            else if env.accepted then Done else Refused(BadGateway)
  {
    SignsOwnMeans(w.rounds[id], w.rounds[id].bInputs, d);
    if SignaturesOk(w.rounds[id], w.rounds[id].bInputs, d) {
      BRefusals(w.rounds[id], d);
    }
  }

  lemma BRefusals(r: Round, d: SignData)
    requires Sound(r) && BToMove(r) && SignaturesOk(r, r.bInputs, d)
    ensures Finalize(Assemble(r).value, r.aWitnesses + d.witnesses).Some?
  {
    if r.status.Proposed? {
      TooEarlyForB(r, d);
    } else {
      BothSigned(r, d);
    }
  }

  // ----- `/cancel` and the sweeper -----

  /** Either side cancels a round that is not broadcast and not cancelled, and the row says who did. */
  lemma CancelExactly(w: World, uid: User, id: RoundId)
    ensures CancelRound(w, uid, id).1 == Done
      <==> id in w.rounds && uid in {w.rounds[id].aUser, w.rounds[id].bUser} && w.rounds[id].status in {Proposed, Accepted, ASigned}
    ensures CancelRound(w, uid, id).1 == Refused(NotFound) <==> !(id in w.rounds && uid in {w.rounds[id].aUser, w.rounds[id].bUser})
    ensures CancelRound(w, uid, id).1 != Done ==> CancelRound(w, uid, id).0 == w && CancelRound(w, uid, id).1.why in {NotFound, Conflict}
    ensures CancelRound(w, uid, id).1 == Done ==>
      CancelRound(w, uid, id).0
      == w.(rounds := w.rounds[id := w.rounds[id].(status := Cancelled,
                                     reason := Some(if w.rounds[id].aUser == uid then CancelledByA else CancelledByB))])
  {
  }

  /** The sweeper's second phase takes the next listed round and cancels it as expired, if it still has a row. */
  lemma CloseExactly(w: World, id: RoundId, rest: seq<RoundId>)
    requires w.listed == [id] + rest
    ensures CloseNext(w)
      == w.(listed := rest,
            rounds := if id in w.rounds then w.rounds[id := w.rounds[id].(status := Cancelled, reason := Some(Expired))] else w.rounds)
  {
    assert w.listed[1..] == rest;
  }

  /** A listing takes unfinished rounds whose time is up and at most two hundred of them; any it leaves is no
      older than those it takes, and it leaves none while it has room. */
  lemma ListingExactly(w: World, ids: seq<RoundId>)
    requires IsListing(w, ids)
    ensures |ids| <= 200
    ensures forall i :: 0 <= i < |ids| ==>
      ids[i] in w.rounds && w.rounds[ids[i]].status in {Proposed, Accepted, ASigned} && w.rounds[ids[i]].expiresAt <= w.clock
    ensures forall i, j :: 0 <= i < j < |ids| ==> ids[i] != ids[j]
    ensures forall id :: id in w.rounds && w.rounds[id].status in {Proposed, Accepted, ASigned} && w.rounds[id].expiresAt <= w.clock && id !in ids ==>
      |ids| == 200 && forall i :: 0 <= i < |ids| ==> w.rounds[ids[i]].expiresAt <= w.rounds[id].expiresAt
  {
    forall id | id in w.rounds && w.rounds[id].status in {Proposed, Accepted, ASigned} && w.rounds[id].expiresAt <= w.clock ensures Due(w, id) {
    }
    forall i | 0 <= i < |ids| ensures Due(w, ids[i]) {
    }
  }

  // ----- wallets -----

  /** What removing a wallet leaves of a round: nothing of one that is not broadcast, and nothing of a broadcast
      one whose other side was forgotten before if this side is to be forgotten too; else the row without this
      side's coins and wallet, and without its name if it is to be forgotten. */
  ghost predicate LeftOf(r: Round, rounds: map<RoundId, Round>, id: RoundId, walletId: WalletId, forget: bool) {
    if r.aWallet == Some(walletId) then
      (id in rounds <==> r.status == Broadcast && !(forget && r.bUser == ""))
      && (id in rounds ==> rounds[id] == r.(aInputs := [], aWallet := None, aUser := if forget then "" else r.aUser))
    else if r.bWallet == Some(walletId) then
      (id in rounds <==> r.status == Broadcast && !(forget && r.aUser == ""))
      && (id in rounds ==> rounds[id] == r.(bInputs := [], bWallet := None, bUser := if forget then "" else r.bUser))
    else id in rounds && rounds[id] == r
  }

  /** Whether a connection outlives the removal: it is not the owner's there, or the owner has another wallet
      there, or the whole account is being deleted and its connections go later. */
  ghost predicate Outlives(w: World, k: Contact, walletId: WalletId, forget: bool)
    requires walletId in w.wallets
  {
    var owner, net := w.wallets[walletId].owner, w.wallets[walletId].network;
    || forget || k.network != net || owner !in {k.requester, k.target}
    || exists id :: id in w.wallets && id != walletId && w.wallets[id].owner == owner && w.wallets[id].network == net
  }

  lemma AnotherWallet(w: World, left: World, walletId: WalletId)
    requires walletId in w.wallets && left.wallets == w.wallets - {walletId}
    ensures OnNetwork(left, w.wallets[walletId].owner, w.wallets[walletId].network)
      <==> exists id :: id in w.wallets && id != walletId && w.wallets[id].owner == w.wallets[walletId].owner
                        && w.wallets[id].network == w.wallets[walletId].network
  {
    var k := w.wallets[walletId];
    if OnNetwork(left, k.owner, k.network) {
      var id :| id in left.wallets && left.wallets[id] == Wallet(k.owner, k.network);
      assert id in w.wallets && id != walletId;
    }
    if id :| id in w.wallets && id != walletId && w.wallets[id].owner == k.owner && w.wallets[id].network == k.network {
      assert id in left.wallets && left.wallets[id] == Wallet(k.owner, k.network);
    }
  }

  lemma RemoveWalletExactly(w: World, walletId: WalletId, forget: bool)
    ensures walletId !in w.wallets ==> RemoveWallet(w, walletId, forget) == w
    ensures walletId in w.wallets ==>
      var w' := RemoveWallet(w, walletId, forget);
      && w' == w.(rounds := w'.rounds, contacts := w'.contacts, wallets := w.wallets - {walletId})
      && w'.rounds.Keys <= w.rounds.Keys && (forall id :: id in w.rounds ==> LeftOf(w.rounds[id], w'.rounds, id, walletId, forget))
      && (forall c :: c in w'.contacts ==> c in w.contacts && w'.contacts[c] == w.contacts[c])
      && (forall c :: c in w.contacts ==> (c in w'.contacts <==> Outlives(w, w.contacts[c], walletId, forget)))
  {
    if walletId in w.wallets {
      var k, left := w.wallets[walletId], w.(rounds := PurgeRounds(w.rounds, walletId, forget), wallets := w.wallets - {walletId});
      AnotherWallet(w, left, walletId);
    }
  }

  /** The rest of deleting an account takes every connection of the user's, and nothing else. */
  lemma ForgetContactsExactly(w: World, uid: User)
    ensures var w' := ForgetContacts(w, uid);
      && w' == w.(contacts := w'.contacts)
      && forall c :: c in w'.contacts <==> c in w.contacts && uid !in {w.contacts[c].requester, w.contacts[c].target}
    ensures forall c :: c in ForgetContacts(w, uid).contacts ==> ForgetContacts(w, uid).contacts[c] == w.contacts[c]
  {
  }
}
