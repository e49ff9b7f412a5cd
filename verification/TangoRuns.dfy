/** Runs from the empty tables that end where the protocol promises not to: a signed round that is accepted
    again, a recorded size that no transaction has, an invitation between strangers. */
module TangoRuns {
  import opened Results
  import opened Bip69
  import opened TangoPlan
  import opened TangoRounds
  import opened TangoSafety
  import opened TangoHistory
  import opened TangoConsent

  /** Some run ends here. */
  ghost predicate Arises(w: World) {
    exists events :: Runs(EMPTY, events) && After(EMPTY, events) == w
  }

  lemma Onward(w: World, e: Event, w': World)
    requires Arises(w) && Enabled(w, e) && Step(w, e) == w'
    ensures Arises(w')
  {
    var events :| Runs(EMPTY, events) && After(EMPTY, events) == w;
    var longer := events + [e];
    assert longer[..|longer| - 1] == events;
    assert Runs(EMPTY, longer) && After(EMPTY, longer) == w';
  }

  lemma EmptyArises()
    ensures Arises(EMPTY)
  {
    assert Runs(EMPTY, []) && After(EMPTY, []) == EMPTY;
  }

  lemma ArisesInv(w: World)
    requires Arises(w)
    ensures Inv(w)
  {
    var events :| Runs(EMPTY, events) && After(EMPTY, events) == w;
    Reachable(events);
  }

  lemma ArisesHoused(w: World)
    requires Arises(w)
    ensures AllHoused(w)
  {
    var events :| Runs(EMPTY, events) && After(EMPTY, events) == w;
    RunHoused(events);
  }

  // ----- two people, connected -----

  /** Alice has two wallets and Bob has one. */
  function Wallets(): map<WalletId, Wallet> {
    map["wa" := Wallet("alice", "net"), "wa2" := Wallet("alice", "net"), "wb" := Wallet("bob", "net")]
  }

  function Housing(): World {
    EMPTY.(wallets := Wallets())
  }

  function Meeting(): World {
    Housing().(contacts := map[0 := Contact(Approved, "alice", "bob", "net")], nextContact := 1)
  }

  lemma Adding(w: World, walletId: WalletId, owner: User, net: Network)
    requires walletId !in w.wallets
    ensures Step(w, DoAddWallet(walletId, owner, net)) == w.(wallets := w.wallets[walletId := Wallet(owner, net)])
  {
  }

  lemma HousingArises()
    ensures Arises(Housing())
  {
    EmptyArises();
    Adding(EMPTY, "wa", "alice", "net");
    var w1 := EMPTY.(wallets := map["wa" := Wallet("alice", "net")]);
    var w2 := w1.(wallets := w1.wallets["wa2" := Wallet("alice", "net")]);
    Onward(EMPTY, DoAddWallet("wa", "alice", "net"), w1);
    Adding(w1, "wa2", "alice", "net");
    Adding(w2, "wb", "bob", "net");
    Onward(w1, DoAddWallet("wa2", "alice", "net"), w2);
    Onward(w2, DoAddWallet("wb", "bob", "net"), Housing());
  }

  function Asked(): World {
    Housing().(contacts := map[0 := Contact(Pending, "alice", "bob", "net")], nextContact := 1)
  }

  lemma AskedArises()
    ensures Arises(Asked())
  {
    HousingArises();
    var w := Housing();
    assert w.wallets["wa"] == Wallet("alice", "net") && w.wallets["wb"] == Wallet("bob", "net");
    assert OnNetwork(w, "alice", "net") && OnNetwork(w, "bob", "net");
    Onward(w, DoRequest("alice", "bob", "net"), Asked());
  }

  lemma MeetingArises()
    ensures Arises(Meeting())
  {
    AskedArises();
    assert Asked().contacts[0 := Contact(Approved, "alice", "bob", "net")] == Meeting().contacts;
    Onward(Asked(), DoAnswer("bob", 0, true), Meeting());
  }

  // ----- an offer, matched -----

  /** A coin of 10,680. */
  function ACoin(vout: nat): Coin {
    Coin(seq(32, _ => 0), vout, 10680, seq(32, _ => 0))
  }

  function AScript(n: nat): Script
    requires n < 256
  {
    [0x51, 0x20] + seq(32, _ => n)
  }

  lemma CoinRow(vout: nat)
    ensures RowsOk([ACoin(vout)]) && Outpoints([ACoin(vout)]) == {At(ACoin(vout))}
  {
    forall p | p in Outpoints([ACoin(vout)]) ensures p == At(ACoin(vout)) {
    }
    assert At([ACoin(vout)][0]) in Outpoints([ACoin(vout)]);
  }

  lemma ScriptRow(n: nat)
    requires n < 256
    ensures MixOk([AScript(n)], 1)
  {
    assert P2tr(AScript(n));
  }

  /** Alice offers 10,000 at one satoshi a byte. */
  function Offer(): Round {
    NewRound("net", "alice", "wa", "bob", 10000, 1.0, 1, [ACoin(0)], None, 0)
  }

  /** The two people's world with one round in it. */
  function With(r: Round): World {
    Meeting().(rounds := map[0 := r], nextRound := 1)
  }

  lemma Replaced(r: Round, r': Round)
    ensures With(r).(rounds := With(r).rounds[0 := r']) == With(r')
  {
  }

  /** `/rounds`, when nothing is refused. */
  lemma Proposing(w: World, uid: User, walletId: WalletId, partner: User, denom: int, rate: real, pieces: int,
                  rows: seq<Coin>, routes: Option<string>)
    requires ProposeRefusal(w, uid, walletId, partner, denom, rate, pieces, rows, true).None? && walletId in w.wallets
    ensures Step(w, DoPropose(uid, walletId, partner, denom, rate, pieces, rows, true, routes))
         == w.(rounds := w.rounds[w.nextRound := NewRound(w.wallets[walletId].network, uid, walletId, partner, denom, rate, pieces,
                                                          rows, routes, w.clock)],
               nextRound := w.nextRound + 1)
  {
  }

  lemma OfferPasses(w: World)
    requires w == Meeting()
    ensures ProposeRefusal(w, "alice", "wa", "bob", 10000, 1.0, 1, [ACoin(0)], true).None?
  {
    CoinRow(0);
    var p := ThePlan(0);
    assert Joins(w.contacts[0], "alice", "bob", "net");
    assert Reserved(w, "alice") == {};
  }

  lemma OfferArises()
    ensures Arises(With(Offer()))
  {
    MeetingArises();
    var w := Meeting();
    OfferPasses(w);
    Proposing(w, "alice", "wa", "bob", 10000, 1.0, 1, [ACoin(0)], None);
    Onward(w, DoPropose("alice", "wa", "bob", 10000, 1.0, 1, [ACoin(0)], true, None), With(Offer()));
  }

  function Matching(n: nat): AcceptData {
    AcceptData("wb", [ACoin(n)], [AScript(1)], None)
  }

  const ASKED: AcceptEnv := AcceptEnv(true, None, None, None)

  /** p is what `plan` makes of one such coin a side. */
  ghost predicate Plans(n: nat, p: Amounts) {
    match PlanOf([ACoin(0)], [ACoin(n)], 10000, 1.0, 1)
    case Ok(q) => q == p
    case Err(_) => false
  }

  lemma ThePlan(n: nat) returns (p: Amounts)
    ensures Plans(n, p) && p.aChange == 0 && p.bChange == 0
    ensures p.vsize == Vsize(2, 4) && OutputCount(p) == 2 && Vsize(2, 4) > Vsize(2, 2)
  {
    Oscillates(ACoin(0), ACoin(n));
    p := PlanOf([ACoin(0)], [ACoin(n)], 10000, 1.0, 1).value;
  }

  function Match(p: Amounts): Round {
    AcceptedRow(Offer(), p, Matching(1), ASKED)
  }

  /** The round is Bob's to match. */
  ghost predicate Matchable(r: Round) {
    match r
    case _ =>
      && (r.status.Proposed? || r.status.ASigned?)
      && r.aUser == "alice" && r.bUser == "bob" && r.network == "net" && r.aInputs == [ACoin(0)] && r.denom == 10000
      && r.feeRate == 1.0 && r.pieces == 1 && r.expiresAt == EXPIRY_SECONDS && !r.aPayout
      && (r.bInputs == [] || r.bInputs == [ACoin(1)])
  }

  lemma BobsCoins(r: Round)
    requires Matchable(r)
    ensures OwnCoins(r, "bob") <= {At(ACoin(1))}
  {
    CoinRow(1);
    assert Outpoints([]) == {};
  }

  /** Bob may match the offer, or a match of it, with any such coin that neither holds yet. */
  lemma MayMatch(w: World, r: Round, n: nat, p: Amounts)
    requires w.rounds == map[0 := r] && w.wallets == Wallets() && w.clock == 0 && Matchable(r)
    requires n > 1 || (n == 1 && r.bInputs == [])
    requires Plans(n, p) && p.aChange == 0 && p.bChange == 0
    ensures AcceptRefusal(w, "bob", 0, Matching(n), ASKED).None? && ChangesDerived(r, Matching(n), ASKED)
    ensures PlanOf(r.aInputs, [ACoin(n)], r.denom, r.feeRate, PiecesOr1(r)) == Ok(p)
  {
    CoinRow(0);
    CoinRow(n);
    ScriptRow(1);
    BobsCoins(r);
    assert Outpoints([]) == {};
    forall q | q in Reserved(w, "bob") ensures q != At(ACoin(n)) {
      assert q in OwnCoins(r, "bob");
    }
    assert Outpoints([ACoin(n)]) !! Reserved(w, "bob");
  }

  /** `/accept`, when nothing is refused and nothing routed. */
  lemma Accepting(w: World, id: RoundId, d: AcceptData, env: AcceptEnv, p: Amounts)
    requires id in w.rounds && AcceptRefusal(w, w.rounds[id].bUser, id, d, env).None?
    requires PlanOf(w.rounds[id].aInputs, d.rows, w.rounds[id].denom, w.rounds[id].feeRate, PiecesOr1(w.rounds[id])) == Ok(p)
    requires env.routes.None? && !w.rounds[id].aPayout
    ensures Step(w, DoAccept(w.rounds[id].bUser, id, d, env))
         == w.(rounds := w.rounds[id := AcceptedRow(w.rounds[id], p, d, env)])
  {
  }

  lemma MatchArises(p: Amounts)
    requires Plans(1, p) && p.aChange == 0 && p.bChange == 0
    ensures Arises(With(Match(p)))
  {
    var w := With(Offer());
    OfferArises();
    MayMatch(w, Offer(), 1, p);
    Accepting(w, 0, Matching(1), ASKED, p);
    Replaced(Offer(), Match(p));
    Onward(w, DoAccept("bob", 0, Matching(1), ASKED), With(Match(p)));
  }

  /** The size `/accept` records in a run: that of two outputs more than the round can have. */
  lemma RecordedTooBig() returns (w: World)
    ensures Arises(w) && 0 in w.rounds && w.rounds[0].status.Accepted?
    ensures OutputCount(TangoAmounts(w.rounds[0])) == 2 && w.rounds[0].sums.vsize == Vsize(2, 4) > Vsize(2, 2)
  {
    var p := ThePlan(1);
    MatchArises(p);
    w := With(Match(p));
  }

  // ----- signed, and accepted again -----

  /** Alice's answer: one mixed script, and witnesses for her coin. */
  function AlicesAnswer(aw: map<nat, Signature>): SignData {
    SignData([AScript(0)], None, aw, None)
  }

  /** The row with both sides' scripts. */
  function Scripted(p: Amounts, aw: map<nat, Signature>): Round {
    WithAScripts(Match(p), AlicesAnswer(aw))
  }

  /** Witnesses that pass for Alice's side of the round. */
  ghost predicate AliceSigns(p: Amounts, aw: map<nat, Signature>) {
    SignaturesOk(Scripted(p, aw), Match(p).aInputs, AlicesAnswer(aw))
  }

  /** A's part of `/sign`, when nothing is refused. */
  lemma SigningAsA(w: World, id: RoundId, d: SignData, env: SignEnv)
    requires id in w.rounds && SignRefusal(w, w.rounds[id].aUser, id, env).None?
    requires AScriptsOk(w.rounds[id], d) && SignaturesOk(WithAScripts(w.rounds[id], d), w.rounds[id].aInputs, d)
    ensures Step(w, DoSign(w.rounds[id].aUser, id, d, env)) == w.(rounds := w.rounds[id := ASignedRow(WithAScripts(w.rounds[id], d), d)])
  {
    SignStep(w, w.rounds[id].aUser, id, d, env);
    SigningA(w, id, d);
  }

  lemma SignStep(w: World, uid: User, id: RoundId, d: SignData, env: SignEnv)
    requires id in w.rounds && SignRefusal(w, uid, id, env).None?
    ensures Step(w, DoSign(uid, id, d, env)) == (if w.rounds[id].aUser == uid then SignA(w, id, d).0 else SignB(w, id, d, env).0)
  {
  }

  lemma SigningA(w: World, id: RoundId, d: SignData)
    requires id in w.rounds
    requires AScriptsOk(w.rounds[id], d) && SignaturesOk(WithAScripts(w.rounds[id], d), w.rounds[id].aInputs, d)
    ensures SignA(w, id, d).0 == w.(rounds := w.rounds[id := ASignedRow(WithAScripts(w.rounds[id], d), d)])
  {
  }

  /** B's part, when nothing is refused and the network takes the transaction. */
  lemma SigningAsB(w: World, id: RoundId, d: SignData)
    requires Inv(w) && id in w.rounds && w.rounds[id].status.ASigned? && w.rounds[id].aUser != w.rounds[id].bUser
    requires SignRefusal(w, w.rounds[id].bUser, id, SignEnv(true, true)).None?
    requires SignaturesOk(w.rounds[id], w.rounds[id].bInputs, d)
    ensures Step(w, DoSign(w.rounds[id].bUser, id, d, SignEnv(true, true))).rounds
         == w.rounds[id := w.rounds[id].(status := Broadcast, bWitnesses := d.witnesses)]
    ensures var w' := Step(w, DoSign(w.rounds[id].bUser, id, d, SignEnv(true, true)));
      w' == w.(rounds := w'.rounds, chain := w'.chain)
  {
    assert Sound(w.rounds[id]);
    BothSigned(w.rounds[id], d);
    SignStep(w, w.rounds[id].bUser, id, d, SignEnv(true, true));
    SigningB(w, id, d);
  }

  lemma SigningB(w: World, id: RoundId, d: SignData)
    requires id in w.rounds && SignaturesOk(w.rounds[id], w.rounds[id].bInputs, d)
    requires Finalize(Assemble(w.rounds[id]).value, w.rounds[id].aWitnesses + d.witnesses).Some?
    ensures var w' := SignB(w, id, d, SignEnv(true, true)).0;
      w' == w.(rounds := w.rounds[id := w.rounds[id].(status := Broadcast, bWitnesses := d.witnesses)], chain := w'.chain)
  {
  }

  ghost function HalfRow(p: Amounts, aw: map<nat, Signature>): Round
    requires AliceSigns(p, aw)
  {
    ASignedRow(Scripted(p, aw), AlicesAnswer(aw))
  }

  lemma HalfRowArises(p: Amounts, aw: map<nat, Signature>)
    requires Plans(1, p) && p.aChange == 0 && p.bChange == 0 && AliceSigns(p, aw)
    ensures Arises(With(HalfRow(p, aw)))
  {
    var w, d := With(Match(p)), AlicesAnswer(aw);
    MatchArises(p);
    ScriptRow(0);
    MatchReady(p, d);
    SigningAsA(w, 0, d, SignEnv(true, true));
    Replaced(Match(p), HalfRow(p, aw));
    Onward(w, DoSign("alice", 0, d, SignEnv(true, true)), With(HalfRow(p, aw)));
  }

  lemma MatchReady(p: Amounts, d: SignData)
    requires p.aChange == 0 && d.changeSpk.None? && MixOk(d.mix, 1)
    ensures SignRefusal(With(Match(p)), "alice", 0, SignEnv(true, true)).None? && AScriptsOk(Match(p), d)
  {
  }

  lemma HalfRowMatchable(p: Amounts, aw: map<nat, Signature>)
    requires AliceSigns(p, aw)
    ensures Matchable(HalfRow(p, aw)) && HalfRow(p, aw).status.ASigned?
  {
  }

  /** A run in which Alice has signed and Bob accepts once more: whatever witnesses passed for her, they are
      over a transaction the row is no longer rebuilt into. */
  lemma ReacceptPasses(p: Amounts, aw: map<nat, Signature>) returns (w: World, e: Event)
    requires Plans(1, p) && AliceSigns(p, aw)
    ensures Arises(w) && Enabled(w, e) && 0 in w.rounds && w.rounds[0].status.ASigned? && w.rounds[0].aWitnesses == aw
    ensures Reaccepts(w, e, 0)
    ensures 0 in Step(w, e).rounds && !SameTransaction(w.rounds[0], Step(w, e).rounds[0])
  {
    var p1 := ThePlan(1);
    var p2 := ThePlan(2);
    HalfRowArises(p, aw);
    HalfRowMatchable(p, aw);
    w, e := With(HalfRow(p, aw)), DoAccept("bob", 0, Matching(2), ASKED);
    MayMatch(w, HalfRow(p, aw), 2, p2);
    ArisesInv(w);
    ReacceptUnfreezes(w, e, 0);
  }

  // ----- signed twice, and broadcast -----

  function BobsAnswer(bw: map<nat, Signature>): SignData {
    SignData([], None, bw, None)
  }

  /** Witnesses that pass for Bob's side of the round as Alice left it. */
  ghost predicate BobSigns(p: Amounts, aw: map<nat, Signature>, bw: map<nat, Signature>) {
    AliceSigns(p, aw) && SignaturesOk(HalfRow(p, aw), HalfRow(p, aw).bInputs, BobsAnswer(bw))
  }

  ghost function SentRow(p: Amounts, aw: map<nat, Signature>, bw: map<nat, Signature>): Round
    requires AliceSigns(p, aw)
  {
    HalfRow(p, aw).(status := Broadcast, bWitnesses := bw)
  }

  lemma SentArises(p: Amounts, aw: map<nat, Signature>, bw: map<nat, Signature>) returns (w: World)
    requires Plans(1, p) && BobSigns(p, aw, bw)
    ensures Arises(w) && w == With(SentRow(p, aw, bw)).(chain := w.chain)
  {
    var q := ThePlan(1);
    var half, d := With(HalfRow(p, aw)), BobsAnswer(bw);
    HalfRowArises(p, aw);
    ArisesInv(half);
    BobMaySign(p, aw);
    SigningAsB(half, 0, d);
    Replaced(HalfRow(p, aw), SentRow(p, aw, bw));
    w := Step(half, DoSign("bob", 0, d, SignEnv(true, true)));
    Onward(half, DoSign("bob", 0, d, SignEnv(true, true)), w);
  }

  lemma BobMaySign(p: Amounts, aw: map<nat, Signature>)
    requires AliceSigns(p, aw)
    ensures SignRefusal(With(HalfRow(p, aw)), "bob", 0, SignEnv(true, true)).None?
    ensures HalfRow(p, aw).bUser == "bob" && HalfRow(p, aw).aUser == "alice"
  {
    HalfRowMatchable(p, aw);
    MaySignLast(With(HalfRow(p, aw)), HalfRow(p, aw));
  }

  lemma MaySignLast(w: World, r: Round)
    requires w.rounds == map[0 := r] && w.clock == 0 && Matchable(r) && r.status.ASigned?
    ensures SignRefusal(w, "bob", 0, SignEnv(true, true)).None? && r.bUser == "bob" && r.aUser == "alice"
  {
  }

  // ----- an invitation that outlives the connection -----

  /** Bob removes his only wallet while Alice's offer stands: the connection goes, the offer stays. */
  lemma InvitationOutlives() returns (w: World, e: Event)
    ensures Arises(w) && Enabled(w, e) && Consent(w) && Abandons(w, e)
    ensures Arises(Step(w, e)) && !Consent(Step(w, e))
    ensures 0 in Step(w, e).rounds && Step(w, e).rounds[0].status.Proposed? && Step(w, e).contacts == map[]
  {
    w, e := With(Offer()), DoRemoveWallet("wb", false);
    OfferArises();
    OfferConsent();
    BobGone(w);
    ArisesInv(w);
    LastWalletConsent(w, "wb");
    Onward(w, e, Step(w, e));
  }

  lemma OfferConsent()
    ensures Consent(With(Offer())) && AllHoused(With(Offer())) && Invited(With(Offer()), "bob", "net")
  {
    var w := With(Offer());
    assert w.contacts[0].status.Approved? && Joins(w.contacts[0], "alice", "bob", "net");
    assert w.rounds[0].status.Proposed? && w.rounds[0].bUser == "bob";
  }

  lemma BobGone(w: World)
    requires w == With(Offer())
    ensures !OnNetwork(w.(wallets := w.wallets - {"wb"}), "bob", "net")
    ensures RemoveWallet(w, "wb", false).rounds == w.rounds && RemoveWallet(w, "wb", false).contacts == map[]
  {
    assert PurgeSide(Offer(), "wb", false) == Some(Offer());
  }
}
