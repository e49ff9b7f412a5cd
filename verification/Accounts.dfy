/** Deleting an account, and what is left of it on the broadcast rounds it was in. */
module Accounts {
  import opened Results
  import opened TangoPlan
  import opened TangoRounds
  import opened TangoSafety
  import opened TangoHistory
  import opened TangoSweep
  import opened TangoConsent
  import opened TangoRuns

  // ----- who is still named on a broadcast round -----

  /** A broadcast row goes only when an account is deleted whose partner has been forgotten already. */
  lemma GoesOnlyForgotten(w: World, e: Event, id: RoundId)
    requires Inv(w) && id in w.rounds && w.rounds[id].status.Broadcast? && id !in Step(w, e).rounds
    ensures e.DoRemoveWallet? && e.forget
    ensures (w.rounds[id].aWallet == Some(e.walletId) && w.rounds[id].bUser == "")
         || (w.rounds[id].bWallet == Some(e.walletId) && w.rounds[id].aUser == "")
  {
    if e.DoRemoveWallet? {
      PurgeTakes(w, e.walletId, e.forget, id);
    } else {
      RowsStay(w, e, id);
    }
  }

  lemma PurgeTakes(w: World, walletId: WalletId, forget: bool, id: RoundId)
    requires id in w.rounds && id !in RemoveWallet(w, walletId, forget).rounds
    ensures PurgeSide(w.rounds[id], walletId, forget).None?
  {
  }

  lemma RowsStay(w: World, e: Event, id: RoundId)
    requires Inv(w) && id in w.rounds && !e.DoRemoveWallet?
    ensures id in Step(w, e).rounds
  {
    if !Touches(e, id) {
      OthersUntouched(w, e, id);
    } else {
      TouchedStays(w, e, id);
    }
  }

  lemma TouchedStays(w: World, e: Event, id: RoundId)
    requires Inv(w) && id in w.rounds && Touches(e, id) && !e.DoRemoveWallet?
    ensures id in Step(w, e).rounds
  {
    match e
    case DoAccept(uid, i, d, env) => AcceptIds(w, uid, i, d, env);
    case DoSign(uid, i, d, env) => SignIds(w, uid, i, d, env);
    case DoCancel(uid, i) => CancelRoundMoves(w, uid, id);
    case DoClose => CloseMoves(w, id);
    case DoRemoveContact(uid, c) => RemoveContactMoves(w, uid, c, id);
  }

  // ----- one row, and a list of wallets deleted with the account -----

  /** What deleting these wallets one after the other leaves of a row; None means that the row is deleted. */
  function Forgotten(r: Round, ids: seq<WalletId>): Option<Round> {
    if ids == [] then Some(r)
    else
      match Forgotten(r, ids[..|ids| - 1])
      case None => None
      case Some(s) => PurgeSide(s, ids[|ids| - 1], true)
  }

  predicate Names(side: Option<WalletId>, ids: seq<WalletId>) {
    side.Some? && side.value in ids
  }

  /** The row with the sides taken off whose wallets are on the list. */
  function Stripped(r: Round, ids: seq<WalletId>): Round {
    var inA, inB := Names(r.aWallet, ids), Names(r.bWallet, ids);
    r.(aInputs := if inA then [] else r.aInputs, aWallet := if inA then None else r.aWallet, aUser := if inA then "" else r.aUser,
       bInputs := if inB then [] else r.bInputs, bWallet := if inB then None else r.bWallet, bUser := if inB then "" else r.bUser)
  }

  predicate Gone(r: Round, ids: seq<WalletId>) {
    match Stripped(r, ids)
    case s => (Names(r.aWallet, ids) || Names(r.bWallet, ids)) && s.aUser == "" && s.bUser == ""
  }

  /** One more wallet. */
  lemma StripOne(r: Round, ids: seq<WalletId>, walletId: WalletId)
    requires r.status.Broadcast? && (r.aWallet.Some? ==> r.aWallet != r.bWallet) && !Gone(r, ids)
    ensures PurgeSide(Stripped(r, ids), walletId, true)
         == if Gone(r, ids + [walletId]) then None else Some(Stripped(r, ids + [walletId]))
  {
    assert forall side :: Names(side, ids + [walletId]) <==> Names(side, ids) || side == Some(walletId);
  }

  lemma StaysGone(r: Round, ids: seq<WalletId>, walletId: WalletId)
    requires Gone(r, ids)
    ensures Gone(r, ids + [walletId])
  {
    assert forall side :: Names(side, ids) ==> Names(side, ids + [walletId]);
  }

  /** The row goes exactly if one of its wallets is on the list and then neither side has a name left;
      otherwise it keeps everything but the sides on the list. */
  lemma {:induction false} RowForgotten(r: Round, ids: seq<WalletId>)
    requires r.status.Broadcast? && (r.aWallet.Some? ==> r.aWallet != r.bWallet)
    ensures Forgotten(r, ids) == if Gone(r, ids) then None else Some(Stripped(r, ids))
  {
    if ids != [] {
      var n := |ids| - 1;
      RowForgotten(r, ids[..n]);
      assert ids == ids[..n] + [ids[n]];
      if Gone(r, ids[..n]) {
        StaysGone(r, ids[..n], ids[n]);
      } else {
        StripOne(r, ids[..n], ids[n]);
      }
    }
  }

  /** A side's name stays exactly if the wallet it took part with is none of those deleted with the account. */
  lemma NameStays(r: Round, ids: seq<WalletId>)
    requires r.status.Broadcast? && (r.aWallet.Some? ==> r.aWallet != r.bWallet)
    ensures Forgotten(r, ids).Some? ==>
      && (r.aUser != "" ==> (Forgotten(r, ids).value.aUser == r.aUser <==> !Names(r.aWallet, ids)))
      && (r.bUser != "" ==> (Forgotten(r, ids).value.bUser == r.bUser <==> !Names(r.bWallet, ids)))
  {
    RowForgotten(r, ids);
  }

  // ----- the tables -----

  /** `delete_all_silnt_data_for_user`'s loop over the wallets. */
  function ForgetWallets(w: World, ids: seq<WalletId>): World {
    if ids == [] then w else RemoveWallet(ForgetWallets(w, ids[..|ids| - 1]), ids[|ids| - 1], true)
  }

  /** The user's wallets, each once. */
  ghost predicate WalletsOf(w: World, uid: User, ids: seq<WalletId>) {
    && (forall i, j :: 0 <= i < j < |ids| ==> ids[i] != ids[j])
    && (forall id :: id in ids <==> id in w.wallets && w.wallets[id].owner == uid)
  }

  /** Deleting an account. Without a wallet the source returns before it has cleaned anything. */
  function DeleteAccount(w: World, uid: User, ids: seq<WalletId>): World {
    if ids == [] then w else ForgetContacts(ForgetWallets(w, ids), uid)
  }

  ghost predicate Present(w: World, ids: seq<WalletId>) {
    && (forall i :: 0 <= i < |ids| ==> ids[i] in w.wallets)
    && (forall i, j :: 0 <= i < j < |ids| ==> ids[i] != ids[j])
  }

  lemma {:induction false} WalletsGone(w: World, ids: seq<WalletId>)
    ensures ForgetWallets(w, ids).wallets == w.wallets - (set x | x in ids)
  {
    if ids != [] {
      var n := |ids| - 1;
      WalletsGone(w, ids[..n]);
      assert ids == ids[..n] + [ids[n]];
    }
  }

  /** Each row goes its own way. */
  lemma {:induction false} RowByRow(w: World, ids: seq<WalletId>, id: RoundId)
    requires Present(w, ids) && id in w.rounds
    ensures id in ForgetWallets(w, ids).rounds <==> Forgotten(w.rounds[id], ids).Some?
    ensures id in ForgetWallets(w, ids).rounds ==> ForgetWallets(w, ids).rounds[id] == Forgotten(w.rounds[id], ids).value
  {
    if ids != [] {
      var n := |ids| - 1;
      var before := ForgetWallets(w, ids[..n]);
      RowByRow(w, ids[..n], id);
      WalletsGone(w, ids[..n]);
      assert ids[n] in before.wallets;
      assert ForgetWallets(w, ids).rounds == PurgeRounds(before.rounds, ids[n], true);
      NoNewRows(w, ids[..n]);
    }
  }

  lemma {:induction false} NoNewRows(w: World, ids: seq<WalletId>)
    ensures ForgetWallets(w, ids).rounds.Keys <= w.rounds.Keys
  {
    if ids != [] {
      NoNewRows(w, ids[..|ids| - 1]);
    }
  }

  predicate StillNames(w: World, id: RoundId, uid: User, side: Role) {
    id in w.rounds && uid == if side == A then w.rounds[id].aUser else w.rounds[id].bUser
  }

  /** Deleting an account finds its rounds by wallet. On a broadcast round the account's id stays exactly if
      the wallet it took part with had been removed before: then the row names none, and nothing leads to it. */
  lemma AccountRemembered(w: World, uid: User, ids: seq<WalletId>, id: RoundId)
    requires AllHoused(w) && uid != "" && WalletsOf(w, uid, ids) && id in w.rounds && w.rounds[id].status.Broadcast?
    ensures w.rounds[id].aUser == uid ==> (w.rounds[id].aWallet.None? <==> StillNames(DeleteAccount(w, uid, ids), id, uid, A))
    ensures w.rounds[id].bUser == uid ==> (w.rounds[id].bWallet.None? <==> StillNames(DeleteAccount(w, uid, ids), id, uid, B))
  {
    var r := w.rounds[id];
    assert Housed(r, w.wallets);
    RowByRow(w, ids, id);
    RowForgotten(r, ids);
  }

  // ----- in a run -----

  lemma {:induction false} ForgetWalletsArises(w: World, ids: seq<WalletId>)
    requires Arises(w)
    ensures Arises(ForgetWallets(w, ids))
  {
    if ids != [] {
      var n := |ids| - 1;
      ForgetWalletsArises(w, ids[..n]);
      Onward(ForgetWallets(w, ids[..n]), DoRemoveWallet(ids[n], true), ForgetWallets(w, ids));
    }
  }

  /** Deleting an account is a run of steps, so everything proved of runs holds after it. */
  lemma DeleteAccountArises(w: World, uid: User, ids: seq<WalletId>)
    requires Arises(w) && uid != ""
    ensures Arises(DeleteAccount(w, uid, ids))
  {
    ForgetWalletsArises(w, ids);
    if ids != [] {
      Onward(ForgetWallets(w, ids), DoForgetContacts(uid), DeleteAccount(w, uid, ids));
    }
  }

  /** A run in which Alice mixes with one wallet, removes that wallet, and then deletes her account: she has
      another wallet, so the deletion does clean, and her name is still on the round. */
  lemma RemovedFirstIsRemembered(p: Amounts, aw: map<nat, Signature>, bw: map<nat, Signature>) returns (w: World)
    requires Plans(1, p) && BobSigns(p, aw, bw)
    ensures Arises(w) && WalletsOf(w, "alice", ["wa2"]) && Arises(DeleteAccount(w, "alice", ["wa2"]))
    ensures StillNames(DeleteAccount(w, "alice", ["wa2"]), 0, "alice", A)
  {
    var sent := SentArises(p, aw, bw);
    w := RemoveWallet(sent, "wa", false);
    AfterRemoval(sent, SentRow(p, aw, bw));
    Onward(sent, DoRemoveWallet("wa", false), w);
    ArisesHoused(w);
    AccountRemembered(w, "alice", ["wa2"], 0);
    DeleteAccountArises(w, "alice", ["wa2"]);
  }

  lemma AfterRemoval(sent: World, r: Round)
    requires sent.rounds == map[0 := r] && sent.wallets == Wallets()
    requires r.status.Broadcast? && r.aWallet == Some("wa") && r.aUser == "alice"
    ensures var w := RemoveWallet(sent, "wa", false);
      && WalletsOf(w, "alice", ["wa2"])
      && 0 in w.rounds && w.rounds[0].status.Broadcast? && w.rounds[0].aUser == "alice" && w.rounds[0].aWallet.None?
  {
    assert RemoveWallet(sent, "wa", false).rounds == PurgeRounds(sent.rounds, "wa", false);
    OneWalletLeft(RemoveWallet(sent, "wa", false));
  }

  lemma OneWalletLeft(w: World)
    requires w.wallets == Wallets() - {"wa"}
    ensures WalletsOf(w, "alice", ["wa2"])
  {
    assert w.wallets == map["wa2" := Wallet("alice", "net"), "wb" := Wallet("bob", "net")];
  }
}
