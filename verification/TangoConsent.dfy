/** Consent: who may be in an unfinished round with whom, and what deleting a wallet or an account does
    to it. */
module TangoConsent {
  import Bip69
  import opened Results
  import opened TangoRounds
  import opened TangoSafety
  import opened TangoHistory
  import opened TangoSweep

  ghost predicate Agreed(w: World, r: Round) {
    Unfinished(r) ==> Connected(w, r.aUser, r.bUser, r.network)
  }

  /** Every unfinished round is between two people connected on its own network. */
  ghost predicate Consent(w: World) {
    forall id :: id in w.rounds ==> Agreed(w, w.rounds[id])
  }

  ghost predicate Rivals(c: Contact, d: Contact) {
    Joins(d, c.requester, c.target, c.network)
  }

  /** At most one row for two people on one network. */
  ghost predicate OnePerPair(contacts: map<ContactId, Contact>) {
    forall c, d :: c in contacts && d in contacts && c != d ==> !Rivals(contacts[c], contacts[d])
  }

  /** An unfinished round's sides are wallets of its two people on its network; so is whatever side of a
      broadcast one still names a wallet. */
  ghost predicate Housed(r: Round, wallets: map<WalletId, Wallet>) {
    match r.status
    case Proposed => HousedA(r, wallets)
    case Accepted => HousedA(r, wallets) && HousedB(r, wallets)
    case ASigned => HousedA(r, wallets) && HousedB(r, wallets)
    case Broadcast =>
      && (r.aWallet.Some? ==> HousedA(r, wallets) && r.aWallet != r.bWallet)
      && (r.bWallet.Some? ==> HousedB(r, wallets))
    case Cancelled => true
  }

  ghost predicate HousedA(r: Round, wallets: map<WalletId, Wallet>) {
    r.aWallet.Some? && r.aWallet.value in wallets && wallets[r.aWallet.value] == Wallet(r.aUser, r.network)
  }

  ghost predicate HousedB(r: Round, wallets: map<WalletId, Wallet>) {
    r.bWallet.Some? && r.bWallet.value in wallets && wallets[r.bWallet.value] == Wallet(r.bUser, r.network)
  }

  ghost predicate AllHoused(w: World) {
    forall id :: id in w.rounds ==> Housed(w.rounds[id], w.wallets)
  }

  // ----- rows that stay with the same two people -----

  ghost predicate SamePeople(r: Round, r': Round) {
    Unfinished(r') ==> Unfinished(r) && r'.aUser == r.aUser && r'.bUser == r.bUser && r'.network == r.network
  }

  lemma MovesKeepsPeople(r: Round, r': Round)
    requires Moves(r, r')
    ensures SamePeople(r, r')
  {
  }

  lemma PeopleKeepConsent(w: World, w': World)
    requires Consent(w) && w'.contacts == w.contacts
    requires forall id :: id in w'.rounds ==> id in w.rounds && SamePeople(w.rounds[id], w'.rounds[id])
    ensures Consent(w')
  {
    forall id | id in w'.rounds ensures Agreed(w', w'.rounds[id]) {
      assert Agreed(w, w.rounds[id]) && SamePeople(w.rounds[id], w'.rounds[id]);
      if Unfinished(w'.rounds[id]) {
        SameContacts(w, w', w.rounds[id].aUser, w.rounds[id].bUser, w.rounds[id].network);
      }
    }
  }

  lemma SameContacts(w: World, w': World, a: User, b: User, net: Network)
    requires forall c :: c in w.contacts && w.contacts[c].status.Approved? ==> c in w'.contacts && w'.contacts[c] == w.contacts[c]
    requires Connected(w, a, b, net)
    ensures Connected(w', a, b, net)
  {
    var c :| c in w.contacts && w.contacts[c].status.Approved? && Joins(w.contacts[c], a, b, net);
    assert w'.contacts[c] == w.contacts[c];
  }

  /** Approved rows stay; rounds stay: consent stays. */
  lemma ApprovalsKeepConsent(w: World, w': World)
    requires Consent(w) && w'.rounds == w.rounds
    requires forall c :: c in w.contacts && w.contacts[c].status.Approved? ==> c in w'.contacts && w'.contacts[c] == w.contacts[c]
    ensures Consent(w')
  {
    forall id | id in w'.rounds ensures Agreed(w', w'.rounds[id]) {
      assert Agreed(w, w.rounds[id]);
      if Unfinished(w.rounds[id]) {
        SameContacts(w, w', w.rounds[id].aUser, w.rounds[id].bUser, w.rounds[id].network);
      }
    }
  }

  // ----- connections -----

  lemma RequestKeepsConsent(w: World, uid: User, target: User, net: Network)
    requires Consent(w) && FreshIds(w)
    ensures Consent(RequestContact(w, uid, target, net).0)
  {
    var w' := RequestContact(w, uid, target, net).0;
    assert w.nextContact !in w.contacts;
    ApprovalsKeepConsent(w, w');
  }

  lemma AnswerKeepsConsent(w: World, uid: User, c: ContactId, yes: bool)
    requires Consent(w)
    ensures Consent(Answer(w, uid, c, yes).0)
  {
    ApprovalsKeepConsent(w, Answer(w, uid, c, yes).0);
  }

  /** Severing a connection cancels what it carried; a round that another row carries goes on. */
  lemma RemoveKeepsConsent(w: World, uid: User, c: ContactId)
    requires Consent(w)
    ensures Consent(RemoveContact(w, uid, c).0)
  {
    var (w', reply) := RemoveContact(w, uid, c);
    if reply == Done {
      var k := w.contacts[c];
      forall id | id in w'.rounds ensures Agreed(w', w'.rounds[id]) {
        var r := w.rounds[id];
        assert Agreed(w, r);
        if Unfinished(w'.rounds[id]) {
          var d :| d in w.contacts && w.contacts[d].status.Approved? && Joins(w.contacts[d], r.aUser, r.bUser, r.network);
          assert d != c;
          assert d in w'.contacts && w'.contacts[d] == w.contacts[d];
        }
      }
    }
  }

  lemma RivalsSymmetric(c: Contact, d: Contact)
    ensures Rivals(c, d) <==> Rivals(d, c)
  {
  }

  lemma ReplaceContact(contacts: map<ContactId, Contact>, c: ContactId, k: Contact)
    requires OnePerPair(contacts) && (forall d :: d in contacts && d != c ==> !Rivals(k, contacts[d]))
    ensures OnePerPair(contacts[c := k])
  {
    var contacts' := contacts[c := k];
    forall i, j | i in contacts' && j in contacts' && i != j ensures !Rivals(contacts'[i], contacts'[j]) {
      if j == c {
        RivalsSymmetric(contacts[i], k);
      } else if i != c {
        assert !Rivals(contacts[i], contacts[j]);
      }
    }
  }

  lemma RequestKeepsOne(w: World, uid: User, target: User, net: Network)
    requires OnePerPair(w.contacts)
    ensures OnePerPair(RequestContact(w, uid, target, net).0.contacts)
  {
    var (w', reply) := RequestContact(w, uid, target, net);
    if reply == Done {
      var k := Contact(Pending, uid, target, net);
      match Between(w, uid, target, net)
      case None =>
        ReplaceContact(w.contacts, w.nextContact, k);
      case Some(c) =>
        forall d | d in w.contacts && d != c ensures !Rivals(k, w.contacts[d]) {
          assert !Rivals(w.contacts[c], w.contacts[d]);
        }
        ReplaceContact(w.contacts, c, k);
    }
  }

  lemma AnswerKeepsOne(w: World, uid: User, c: ContactId, yes: bool)
    requires OnePerPair(w.contacts)
    ensures OnePerPair(Answer(w, uid, c, yes).0.contacts)
  {
    var (w', reply) := Answer(w, uid, c, yes);
    if reply == Done {
      forall d | d in w.contacts && d != c ensures !Rivals(w'.contacts[c], w.contacts[d]) {
        assert !Rivals(w.contacts[c], w.contacts[d]);
      }
      ReplaceContact(w.contacts, c, w'.contacts[c]);
    }
  }

  lemma FewerKeepOne(contacts: map<ContactId, Contact>, contacts': map<ContactId, Contact>)
    requires OnePerPair(contacts) && (forall c :: c in contacts' ==> c in contacts && contacts'[c] == contacts[c])
    ensures OnePerPair(contacts')
  {
    forall c, d | c in contacts' && d in contacts' && c != d ensures !Rivals(contacts'[c], contacts'[d]) {
      assert !Rivals(contacts[c], contacts[d]);
    }
  }

  // ----- proposing, and moving rounds on -----

  lemma ProposeKeepsConsent(w: World, uid: User, walletId: WalletId, partner: User, denom: int, rate: real, pieces: int,
                            rows: seq<Bip69.Coin>, spendable: bool, routes: Option<string>)
    requires Consent(w)
    ensures Consent(Propose(w, uid, walletId, partner, denom, rate, pieces, rows, spendable, routes).0)
  {
    var (w', reply) := Propose(w, uid, walletId, partner, denom, rate, pieces, rows, spendable, routes);
    if reply == Done {
      forall id | id in w'.rounds ensures Agreed(w', w'.rounds[id]) {
        if id == w.nextRound {
          SameContacts(w, w', uid, partner, w.wallets[walletId].network);
        } else {
          assert Agreed(w, w.rounds[id]);
          if Unfinished(w.rounds[id]) {
            SameContacts(w, w', w.rounds[id].aUser, w.rounds[id].bUser, w.rounds[id].network);
          }
        }
      }
    }
  }

  lemma MovingKeepsConsent(w: World, e: Event)
    requires Inv(w) && Consent(w)
    requires e.DoAccept? || e.DoSign? || e.DoCancel? || e.DoClose? || e.DoTick? || e.DoList? || e.DoAddWallet?
    ensures Consent(Step(w, e))
  {
    var w' := Step(w, e);
    SameRowsAndContacts(w, e);
    forall id | id in w'.rounds ensures id in w.rounds && SamePeople(w.rounds[id], w'.rounds[id]) {
      StepMoves(w, e, id);
      MovesKeepsPeople(w.rounds[id], w'.rounds[id]);
    }
    PeopleKeepConsent(w, w');
  }

  lemma SameRowsAndContacts(w: World, e: Event)
    requires e.DoAccept? || e.DoSign? || e.DoCancel? || e.DoClose? || e.DoTick? || e.DoList? || e.DoAddWallet?
    ensures Step(w, e).rounds.Keys == w.rounds.Keys && Step(w, e).contacts == w.contacts
  {
    match e
    case DoAccept(uid, id, d, env) =>
      AcceptIds(w, uid, id, d, env);
      AcceptContacts(w, uid, id, d, env);
    case DoSign(uid, id, d, env) =>
      SignIds(w, uid, id, d, env);
      SignContacts(w, uid, id, d, env);
    case DoCancel(uid, id) => CancelTables(w, uid, id);
    case _ =>
  }

  lemma AcceptContacts(w: World, uid: User, id: RoundId, d: AcceptData, env: AcceptEnv)
    ensures Accept(w, uid, id, d, env).0.contacts == w.contacts
  {
  }

  lemma SignContacts(w: World, uid: User, id: RoundId, d: SignData, env: SignEnv)
    ensures Sign(w, uid, id, d, env).0.contacts == w.contacts
  {
  }

  lemma CancelTables(w: World, uid: User, id: RoundId)
    ensures CancelRound(w, uid, id).0.rounds.Keys == w.rounds.Keys && CancelRound(w, uid, id).0.contacts == w.contacts
  {
  }

  // ----- wallets and accounts -----

  lemma PurgedPeople(w: World, walletId: WalletId, forget: bool, id: RoundId)
    requires id in PurgeRounds(w.rounds, walletId, forget)
    ensures id in w.rounds && SamePeople(w.rounds[id], PurgeRounds(w.rounds, walletId, forget)[id])
    ensures Unfinished(PurgeRounds(w.rounds, walletId, forget)[id]) ==>
      PurgeRounds(w.rounds, walletId, forget)[id] == w.rounds[id]
      && w.rounds[id].aWallet != Some(walletId) && w.rounds[id].bWallet != Some(walletId)
  {
  }

  /** Invitations to u on a network: rounds of which u's side is still to come. */
  ghost predicate Invited(w: World, u: User, net: Network) {
    exists id :: id in w.rounds && w.rounds[id].status.Proposed? && w.rounds[id].bUser == u && w.rounds[id].network == net
  }

  /** Deleting a wallet while another one, or nothing, is left on the network keeps consent. */
  lemma RemoveWalletKeepsConsent(w: World, walletId: WalletId, forget: bool)
    requires Consent(w)
    requires RemoveWallet(w, walletId, forget).contacts == w.contacts
    ensures Consent(RemoveWallet(w, walletId, forget))
  {
    if walletId in w.wallets {
      var w' := RemoveWallet(w, walletId, forget);
      assert w'.rounds == PurgeRounds(w.rounds, walletId, forget);
      forall id | id in w'.rounds ensures id in w.rounds && SamePeople(w.rounds[id], w'.rounds[id]) {
        PurgedPeople(w, walletId, forget, id);
      }
      PeopleKeepConsent(w, w');
    }
  }

  /** Deleting the last wallet on a network takes the connections there with it. Rounds the wallet is in go
      as well, but invitations name no wallet yet: consent survives exactly when there are none. */
  lemma LastWalletConsent(w: World, walletId: WalletId)
    requires Inv(w) && Consent(w) && AllHoused(w) && walletId in w.wallets
    requires !OnNetwork(w.(wallets := w.wallets - {walletId}), w.wallets[walletId].owner, w.wallets[walletId].network)
    ensures Consent(RemoveWallet(w, walletId, false))
      <==> !Invited(w, w.wallets[walletId].owner, w.wallets[walletId].network)
  {
    var k := w.wallets[walletId];
    var w' := RemoveWallet(w, walletId, false);
    assert w'.rounds == PurgeRounds(w.rounds, walletId, false);
    if Invited(w, k.owner, k.network) {
      var id :| id in w.rounds && w.rounds[id].status.Proposed? && w.rounds[id].bUser == k.owner && w.rounds[id].network == k.network;
      assert Sound(w.rounds[id]) && Housed(w.rounds[id], w.wallets);
      InvitationStays(w, walletId, id);
    } else {
      forall id | id in w'.rounds ensures Agreed(w', w'.rounds[id]) {
        PurgedPeople(w, walletId, false, id);
        assert Agreed(w, w.rounds[id]) && Housed(w.rounds[id], w.wallets);
        if Unfinished(w'.rounds[id]) {
          Elsewhere(w, walletId, w.rounds[id]);
          KeptConnection(w, walletId, w.rounds[id]);
        }
      }
    }
  }

  /** A housed round that survives the purge is not the owner's, on that network. */
  lemma Elsewhere(w: World, walletId: WalletId, r: Round)
    requires walletId in w.wallets && Unfinished(r) && Housed(r, w.wallets)
    requires !OnNetwork(w.(wallets := w.wallets - {walletId}), w.wallets[walletId].owner, w.wallets[walletId].network)
    requires r.aWallet != Some(walletId) && r.bWallet != Some(walletId)
    requires !(r.status.Proposed? && r.bUser == w.wallets[walletId].owner && r.network == w.wallets[walletId].network)
    ensures r.network != w.wallets[walletId].network || (r.aUser != w.wallets[walletId].owner && r.bUser != w.wallets[walletId].owner)
  {
    var k := w.wallets[walletId];
    var rest := w.(wallets := w.wallets - {walletId});
    forall id | id in w.wallets && id != walletId ensures w.wallets[id] != k {
      assert id in rest.wallets && rest.wallets[id] == w.wallets[id];
    }
  }

  lemma KeptConnection(w: World, walletId: WalletId, r: Round)
    requires walletId in w.wallets && Connected(w, r.aUser, r.bUser, r.network)
    requires r.network != w.wallets[walletId].network || (r.aUser != w.wallets[walletId].owner && r.bUser != w.wallets[walletId].owner)
    ensures Connected(RemoveWallet(w, walletId, false), r.aUser, r.bUser, r.network)
  {
    var c :| c in w.contacts && w.contacts[c].status.Approved? && Joins(w.contacts[c], r.aUser, r.bUser, r.network);
    var w' := RemoveWallet(w, walletId, false);
    assert c in w'.contacts && w'.contacts[c] == w.contacts[c];
  }

  lemma InvitationStays(w: World, walletId: WalletId, id: RoundId)
    requires walletId in w.wallets && id in w.rounds && w.rounds[id].status.Proposed? && Housed(w.rounds[id], w.wallets)
    requires w.rounds[id].bUser == w.wallets[walletId].owner && w.rounds[id].network == w.wallets[walletId].network
    requires !OnNetwork(w.(wallets := w.wallets - {walletId}), w.wallets[walletId].owner, w.wallets[walletId].network)
    requires w.rounds[id].aUser != w.rounds[id].bUser && w.rounds[id].bWallet.None?
    ensures id in RemoveWallet(w, walletId, false).rounds
    ensures !Agreed(RemoveWallet(w, walletId, false), RemoveWallet(w, walletId, false).rounds[id])
  {
    var k := w.wallets[walletId];
    var w' := RemoveWallet(w, walletId, false);
    var r := w.rounds[id];
    assert PurgeSide(r, walletId, false) == Some(r);
    forall c | c in w'.contacts ensures !Joins(w'.contacts[c], r.aUser, r.bUser, r.network) {
    }
  }

  lemma ForgetContactsConsent(w: World, uid: User)
    requires Consent(w)
    ensures Consent(ForgetContacts(w, uid))
      <==> forall id :: id in w.rounds && Unfinished(w.rounds[id]) ==> w.rounds[id].aUser != uid && w.rounds[id].bUser != uid
  {
    var w' := ForgetContacts(w, uid);
    forall id | id in w.rounds && Unfinished(w.rounds[id])
      ensures Agreed(w', w.rounds[id]) <==> w.rounds[id].aUser != uid && w.rounds[id].bUser != uid
    {
      var r := w.rounds[id];
      assert Agreed(w, r);
      var c :| c in w.contacts && w.contacts[c].status.Approved? && Joins(w.contacts[c], r.aUser, r.bUser, r.network);
      if r.aUser != uid && r.bUser != uid {
        assert c in w'.contacts && w'.contacts[c] == w.contacts[c];
      }
    }
  }

  // ----- wallets of unfinished rounds -----

  lemma HousedKept(r: Round, r': Round, wallets: map<WalletId, Wallet>)
    requires Housed(r, wallets) && Moves(r, r') && r'.bWallet == r.bWallet && r.aUser != r.bUser
    requires r.status.Accepted? || r.status.ASigned?
    ensures Housed(r', wallets)
  {
  }

  lemma HousedInMore(r: Round, wallets: map<WalletId, Wallet>, walletId: WalletId, k: Wallet)
    requires Housed(r, wallets) && walletId !in wallets
    ensures Housed(r, wallets[walletId := k])
  {
  }

  lemma HousedInFewer(r: Round, wallets: map<WalletId, Wallet>, walletId: WalletId)
    requires Housed(r, wallets) && (Live(r) ==> r.aWallet != Some(walletId) && r.bWallet != Some(walletId))
    ensures Housed(r, wallets - {walletId})
  {
  }

  lemma AcceptedHoused(w: World, uid: User, id: RoundId, d: AcceptData, env: AcceptEnv)
    requires AllHoused(w)
    ensures AllHoused(Accept(w, uid, id, d, env).0)
  {
    if AcceptRefusal(w, uid, id, d, env).None? {
      AcceptChecked(w, uid, id, d, env);
      assert Housed(w.rounds[id], w.wallets);
      var r' := AcceptOutcome(w, uid, id, d, env);
      AcceptedRowHoused(w.rounds[id], r', w.wallets, d.walletId);
      ReplaceHoused(w, id, r');
    }
  }

  lemma AcceptedRowHoused(r: Round, r': Round, wallets: map<WalletId, Wallet>, walletId: WalletId)
    requires Housed(r, wallets) && walletId in wallets && wallets[walletId] == Wallet(r.bUser, r.network)
    requires r.status.Proposed? || r.status.ASigned?
    requires r' == r.(payoutAddress := r'.payoutAddress)
          || (r'.status.Accepted? && r'.bWallet == Some(walletId) && Fixed(r, r'))
    ensures Housed(r', wallets)
  {
  }

  lemma ReplaceHoused(w: World, id: RoundId, r: Round)
    requires AllHoused(w) && Housed(r, w.wallets)
    ensures AllHoused(w.(rounds := w.rounds[id := r]))
  {
    var rounds' := w.rounds[id := r];
    forall i | i in rounds' ensures Housed(rounds'[i], w.wallets) {
      if i != id {
        assert Housed(w.rounds[i], w.wallets);
      }
    }
  }

  lemma SignedHoused(w: World, uid: User, id: RoundId, d: SignData, env: SignEnv)
    requires Inv(w) && AllHoused(w)
    ensures AllHoused(Sign(w, uid, id, d, env).0)
  {
    if SignRefusal(w, uid, id, env).None? {
      SignChecked(w, uid, id, env);
      var w' := Sign(w, uid, id, d, env).0;
      assert Sound(w.rounds[id]) && Housed(w.rounds[id], w.wallets);
      if w.rounds[id].status.Proposed? {
        TooEarlyForB(w.rounds[id], d);
      } else {
        SignMoves(w, uid, id, d, env);
        SignKeepsWallets(w, uid, id, d, env);
        HousedKept(w.rounds[id], w'.rounds[id], w.wallets);
        SignIds(w, uid, id, d, env);
        forall i | i in w'.rounds ensures Housed(w'.rounds[i], w'.wallets) {
          if i != id {
            SignOthers(w, uid, id, d, env, i);
            assert Housed(w.rounds[i], w.wallets);
          }
        }
      }
    }
  }

  lemma SignKeepsWallets(w: World, uid: User, id: RoundId, d: SignData, env: SignEnv)
    requires id in w.rounds
    ensures id in Sign(w, uid, id, d, env).0.rounds && Sign(w, uid, id, d, env).0.rounds[id].bWallet == w.rounds[id].bWallet
    ensures Sign(w, uid, id, d, env).0.wallets == w.wallets
  {
  }

  lemma PurgedHoused(r: Round, wallets: map<WalletId, Wallet>, walletId: WalletId, forget: bool)
    requires Housed(r, wallets) && PurgeSide(r, walletId, forget).Some?
    ensures Housed(PurgeSide(r, walletId, forget).value, wallets - {walletId})
  {
    if r.aWallet != Some(walletId) && r.bWallet != Some(walletId) {
      HousedInFewer(r, wallets, walletId);
    }
  }

  lemma RemovedHoused(w: World, walletId: WalletId, forget: bool)
    requires AllHoused(w)
    ensures AllHoused(RemoveWallet(w, walletId, forget))
  {
    if walletId in w.wallets {
      var w' := RemoveWallet(w, walletId, forget);
      assert w'.rounds == PurgeRounds(w.rounds, walletId, forget) && w'.wallets == w.wallets - {walletId};
      forall id | id in w'.rounds ensures Housed(w'.rounds[id], w'.wallets) {
        assert Housed(w.rounds[id], w.wallets);
        PurgedHoused(w.rounds[id], w.wallets, walletId, forget);
      }
    }
  }

  lemma ProposedHoused(w: World, uid: User, walletId: WalletId, partner: User, denom: int, rate: real, pieces: int,
                       rows: seq<Bip69.Coin>, spendable: bool, routes: Option<string>)
    requires AllHoused(w)
    ensures AllHoused(Propose(w, uid, walletId, partner, denom, rate, pieces, rows, spendable, routes).0)
  {
    var w' := Propose(w, uid, walletId, partner, denom, rate, pieces, rows, spendable, routes).0;
    forall id | id in w'.rounds ensures Housed(w'.rounds[id], w'.wallets) {
      if id != w.nextRound {
        assert Housed(w.rounds[id], w.wallets);
      }
    }
  }

  lemma AddedHoused(w: World, walletId: WalletId, owner: User, net: Network)
    requires AllHoused(w)
    ensures AllHoused(AddWallet(w, walletId, owner, net))
  {
    if walletId !in w.wallets {
      forall id | id in w.rounds ensures Housed(w.rounds[id], w.wallets[walletId := Wallet(owner, net)]) {
        HousedInMore(w.rounds[id], w.wallets, walletId, Wallet(owner, net));
      }
    }
  }

  /** Steps that leave every row as it is or cancel it. */
  ghost predicate OnlyCancels(w: World, w': World) {
    w'.wallets == w.wallets
    && forall id :: id in w'.rounds ==> id in w.rounds && (w'.rounds[id] == w.rounds[id] || w'.rounds[id].status.Cancelled?)
  }

  lemma CancellingHoused(w: World, w': World)
    requires AllHoused(w) && OnlyCancels(w, w')
    ensures AllHoused(w')
  {
    forall id | id in w'.rounds ensures Housed(w'.rounds[id], w'.wallets) {
      assert Housed(w.rounds[id], w.wallets);
    }
  }

  lemma OthersOnlyCancel(w: World, e: Event)
    requires !e.DoAccept? && !e.DoSign? && !e.DoRemoveWallet? && !e.DoPropose? && !e.DoAddWallet?
    ensures OnlyCancels(w, Step(w, e))
  {
  }

  lemma StepHoused(w: World, e: Event)
    requires Inv(w) && AllHoused(w)
    ensures AllHoused(Step(w, e))
  {
    match e
    case DoAccept(uid, id, d, env) => AcceptedHoused(w, uid, id, d, env);
    case DoSign(uid, id, d, env) => SignedHoused(w, uid, id, d, env);
    case DoRemoveWallet(walletId, forget) => RemovedHoused(w, walletId, forget);
    case DoPropose(uid, walletId, partner, denom, rate, pieces, rows, spendable, routes) =>
      ProposedHoused(w, uid, walletId, partner, denom, rate, pieces, rows, spendable, routes);
    case DoAddWallet(walletId, owner, net) => AddedHoused(w, walletId, owner, net);
    case _ =>
      OthersOnlyCancel(w, e);
      CancellingHoused(w, Step(w, e));
  }

  // ----- every step, every run -----

  /** Deleting a user's last wallet on a network, or an account, while an invitation stands. */
  ghost predicate Abandons(w: World, e: Event) {
    match e
    case DoRemoveWallet(walletId, forget) =>
      && walletId in w.wallets && !forget
      && !OnNetwork(w.(wallets := w.wallets - {walletId}), w.wallets[walletId].owner, w.wallets[walletId].network)
      && Invited(w, w.wallets[walletId].owner, w.wallets[walletId].network)
    case DoForgetContacts(uid) =>
      exists id :: id in w.rounds && Unfinished(w.rounds[id]) && (w.rounds[id].aUser == uid || w.rounds[id].bUser == uid)
    case _ => false
  }

  lemma RemovalConsent(w: World, walletId: WalletId, forget: bool)
    requires Inv(w) && Consent(w) && AllHoused(w)
    ensures Consent(RemoveWallet(w, walletId, forget)) <==> !Abandons(w, DoRemoveWallet(walletId, forget))
  {
    if walletId in w.wallets {
      var k := w.wallets[walletId];
      if !forget && !OnNetwork(w.(wallets := w.wallets - {walletId}), k.owner, k.network) {
        LastWalletConsent(w, walletId);
      } else {
        OnNetworkOf(w, walletId, forget);
        RemoveWalletKeepsConsent(w, walletId, forget);
      }
    } else {
      RemoveWalletKeepsConsent(w, walletId, forget);
    }
  }

  lemma OnNetworkOf(w: World, walletId: WalletId, forget: bool)
    requires walletId in w.wallets
    requires forget || OnNetwork(w.(wallets := w.wallets - {walletId}), w.wallets[walletId].owner, w.wallets[walletId].network)
    ensures RemoveWallet(w, walletId, forget).contacts == w.contacts
  {
  }

  /** Consent is kept by every step but two kinds, and by those exactly when nobody who is invited leaves. */
  lemma StepConsent(w: World, e: Event)
    requires Inv(w) && Consent(w) && AllHoused(w)
    ensures Consent(Step(w, e)) <==> !Abandons(w, e)
  {
    match e
    case DoRequest(uid, target, net) => RequestKeepsConsent(w, uid, target, net);
    case DoAnswer(uid, c, yes) => AnswerKeepsConsent(w, uid, c, yes);
    case DoRemoveContact(uid, c) => RemoveKeepsConsent(w, uid, c);
    case DoPropose(uid, walletId, partner, denom, rate, pieces, rows, spendable, routes) =>
      ProposeKeepsConsent(w, uid, walletId, partner, denom, rate, pieces, rows, spendable, routes);
    case DoRemoveWallet(walletId, forget) => RemovalConsent(w, walletId, forget);
    case DoForgetContacts(uid) => ForgetContactsConsent(w, uid);
    case _ => MovingKeepsConsent(w, e);
  }

  lemma OthersKeepContacts(w: World, e: Event)
    requires !e.DoRequest? && !e.DoAnswer?
    ensures forall c :: c in Step(w, e).contacts ==> c in w.contacts && Step(w, e).contacts[c] == w.contacts[c]
  {
  }

  lemma StepOnePerPair(w: World, e: Event)
    requires OnePerPair(w.contacts)
    ensures OnePerPair(Step(w, e).contacts)
  {
    match e
    case DoRequest(uid, target, net) => RequestKeepsOne(w, uid, target, net);
    case DoAnswer(uid, c, yes) => AnswerKeepsOne(w, uid, c, yes);
    case _ =>
      OthersKeepContacts(w, e);
      FewerKeepOne(w.contacts, Step(w, e).contacts);
  }

  ghost predicate NobodyAbandons(w: World, events: seq<Event>) {
    events == [] ||
    (NobodyAbandons(w, events[..|events| - 1]) && !Abandons(After(w, events[..|events| - 1]), events[|events| - 1]))
  }

  /** In every state a run can reach, the wallets that rounds name are those of their people. */
  lemma {:induction false} RunHoused(events: seq<Event>)
    requires Runs(EMPTY, events)
    ensures AllHoused(After(EMPTY, events))
  {
    if events != [] {
      var n := |events| - 1;
      RunHoused(events[..n]);
      Reachable(events[..n]);
      StepHoused(After(EMPTY, events[..n]), events[n]);
    }
  }

  /** Over every run in which nobody abandons an invitation: every unfinished round is between two people
      connected on its network, and two people have at most one row there. */
  lemma {:induction false} RunConsent(events: seq<Event>)
    requires Runs(EMPTY, events) && NobodyAbandons(EMPTY, events)
    ensures Consent(After(EMPTY, events)) && OnePerPair(After(EMPTY, events).contacts)
  {
    if events != [] {
      var n := |events| - 1;
      RunConsent(events[..n]);
      Reachable(events[..n]);
      RunHoused(events[..n]);
      StepConsent(After(EMPTY, events[..n]), events[n]);
      StepOnePerPair(After(EMPTY, events[..n]), events[n]);
    }
  }
}
