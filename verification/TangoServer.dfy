/** The handlers as they run: they read the tables, refuse, or rewrite a row, and each of them does to the
    tables exactly what module TangoRounds says. */
module TangoServer {
  import opened Results
  import opened Bip69
  import opened TangoPlan
  import opened TangoRounds
  import opened TangoSafety
  import opened TangoSweep
  import opened TangoConsent

  lemma BetweenUnique(w: World, a: User, b: User, net: Network, c: ContactId)
    requires OnePerPair(w.contacts) && c in w.contacts && Joins(w.contacts[c], a, b, net)
    ensures Between(w, a, b, net) == Some(c)
  {
    forall d | d in w.contacts && d != c ensures !Joins(w.contacts[d], a, b, net) {
      assert !Rivals(w.contacts[c], w.contacts[d]);
    }
  }

  lemma Overwritten(rounds: map<RoundId, Round>, id: RoundId, r: Round, r': Round)
    ensures rounds[id := r][id := r'] == rounds[id := r']
  {
  }

  /** The rows in `left` are as they were, the others as they will be. */
  ghost predicate HalfSevered(was: map<RoundId, Round>, now: map<RoundId, Round>, left: set<RoundId>, after: map<RoundId, Round>) {
    && left <= was.Keys == now.Keys == after.Keys
    && forall id :: id in now ==> now[id] == if id in left then was[id] else after[id]
  }

  lemma SeverStep(was: map<RoundId, Round>, now: map<RoundId, Round>, left: set<RoundId>, a: User, b: User, net: Network,
                  id: RoundId)
    requires id in left && HalfSevered(was, now, left, SeverRows(was, a, b, net))
    ensures now[id] == was[id]
    ensures var next := if UnfinishedBetween(was[id], a, b, net) then now[id := Cancel(was[id], ConnectionRemoved)] else now;
      HalfSevered(was, next, left - {id}, SeverRows(was, a, b, net))
  {
  }

  class Server {
    var rounds: map<RoundId, Round>
    var contacts: map<ContactId, Contact>
    var wallets: map<WalletId, Wallet>
    var clock: nat
    var listed: seq<RoundId>
    var chain: map<RoundId, Sent>
    var nextRound: RoundId
    var nextContact: ContactId

    ghost function State(): World
      reads this
    {
      World(rounds, contacts, wallets, clock, listed, chain, nextRound, nextContact)
    }

    ghost predicate Valid()
      reads this
    {
      match State()
      case w => Inv(w) && OnePerPair(w.contacts)
    }

    constructor ()
      ensures Valid() && State() == EMPTY
    {
      rounds, contacts, wallets, clock := map[], map[], map[], 0;
      listed, chain, nextRound, nextContact := [], map[], 0, 0;
    }

    // ----- crud.py: looking things up -----

    /** `get_reserved_tango_outpoints` */
    method ReservedOutpoints(uid: User) returns (held: set<Outpoint>)
      ensures held == Reserved(State(), uid)
    {
      held := {};
      var left := rounds.Keys;
      while left != {}
        invariant left <= rounds.Keys
        invariant forall p :: p in held <==>
          exists id :: id in rounds && id !in left && Live(rounds[id]) && p in OwnCoins(rounds[id], uid)
        decreases |left|
      {
        var id :| id in left;
        if Live(rounds[id]) {
          if rounds[id].aUser == uid {
            held := held + Outpoints(rounds[id].aInputs);
          }
          if rounds[id].bUser == uid {
            held := held + Outpoints(rounds[id].bInputs);
          }
        }
        left := left - {id};
      }
    }

    /** `get_payjoin_contact_between` */
    method FindContact(a: User, b: User, net: Network) returns (found: Option<ContactId>)
      requires OnePerPair(contacts)
      ensures found == Between(State(), a, b, net)
    {
      var left := contacts.Keys;
      while left != {}
        invariant left <= contacts.Keys
        invariant forall c :: c in contacts && c !in left ==> !Joins(contacts[c], a, b, net)
        decreases |left|
      {
        var c :| c in left;
        if Joins(contacts[c], a, b, net) {
          BetweenUnique(State(), a, b, net, c);
          return Some(c);
        }
        left := left - {c};
      }
      found := None;
    }

    /** `partner.id in set(await list_accepted_contact_user_ids(uid, network))` */
    method IsConnected(a: User, b: User, net: Network) returns (yes: bool)
      ensures yes == Connected(State(), a, b, net)
    {
      var left := contacts.Keys;
      while left != {}
        invariant left <= contacts.Keys
        invariant forall c :: c in contacts && c !in left ==> !(contacts[c].status.Approved? && Joins(contacts[c], a, b, net))
        decreases |left|
      {
        var c :| c in left;
        if contacts[c].status.Approved? && Joins(contacts[c], a, b, net) {
          return true;
        }
        left := left - {c};
      }
      yes := false;
    }

    // ----- connections -----

    method Request(uid: User, target: User, net: Network) returns (reply: Reply)
      requires Valid()
      modifies this`contacts, this`nextContact
      ensures (State(), reply) == RequestContact(old(State()), uid, target, net)
      ensures uid != "" && target != "" ==> Valid()
    {
      ghost var was := State();
      if uid != "" && target != "" {
        StepKeeps(was, DoRequest(uid, target, net));
      }
      StepOnePerPair(was, DoRequest(uid, target, net));
      if uid == target {
        return Refused(BadRequest);
      }
      if !(exists id :: id in wallets && wallets[id] == Wallet(uid, net)) {
        return Refused(BadRequest);
      }
      var existing := FindContact(uid, target, net);
      if existing.Some? {
        var k := contacts[existing.value];
        if !(k.status.Declined? && k.requester != uid) {
          return Refused(Conflict);
        }
      }
      if !(exists id :: id in wallets && wallets[id] == Wallet(target, net)) {
        return Refused(NotFound);
      }
      if existing.Some? {
        contacts := contacts[existing.value := Contact(Pending, uid, target, net)];
      } else {
        contacts := contacts[nextContact := Contact(Pending, uid, target, net)];
        nextContact := nextContact + 1;
      }
      reply := Done;
    }

    method AnswerRequest(uid: User, c: ContactId, yes: bool) returns (reply: Reply)
      requires Valid() && uid != ""
      modifies this`contacts
      ensures (State(), reply) == Answer(old(State()), uid, c, yes)
      ensures Valid()
    {
      StepKeeps(State(), DoAnswer(uid, c, yes));
      StepOnePerPair(State(), DoAnswer(uid, c, yes));
      if c !in contacts || contacts[c].target != uid {
        return Refused(NotFound);
      }
      if !contacts[c].status.Pending? {
        return Refused(BadRequest);
      }
      contacts := contacts[c := contacts[c].(status := if yes then Approved else Declined)];
      reply := Done;
    }

    /** Unfinished rounds between the two are cancelled one by one, and then the connection goes. */
    method Remove(uid: User, c: ContactId) returns (reply: Reply)
      requires Valid() && uid != ""
      modifies this`rounds, this`contacts
      ensures (State(), reply) == RemoveContact(old(State()), uid, c)
      ensures Valid()
    {
      StepKeeps(State(), DoRemoveContact(uid, c));
      StepOnePerPair(State(), DoRemoveContact(uid, c));
      if c !in contacts || (uid != contacts[c].requester && uid != contacts[c].target) {
        return Refused(NotFound);
      }
      var k := contacts[c];
      var other := if k.requester == uid then k.target else k.requester;
      Sever(uid, other, k.network);
      contacts := contacts - {c};
      reply := Done;
    }

    method Sever(a: User, b: User, net: Network)
      modifies this`rounds
      ensures rounds == SeverRows(old(rounds), a, b, net)
    {
      ghost var was := rounds;
      var left := rounds.Keys;
      while left != {}
        invariant HalfSevered(was, rounds, left, SeverRows(was, a, b, net))
        decreases |left|
      {
        var id :| id in left;
        SeverStep(was, rounds, left, a, b, net, id);
        if UnfinishedBetween(rounds[id], a, b, net) {
          rounds := rounds[id := Cancel(rounds[id], ConnectionRemoved)];
        }
        left := left - {id};
      }
    }

    // ----- rounds -----

    method ProposeRound(uid: User, walletId: WalletId, partner: User, denom: int, rate: real, pieces: int,
                        rows: seq<Coin>, spendable: bool, routes: Option<string>) returns (reply: Reply)
      requires Valid() && uid != "" && partner != ""
      modifies this`rounds, this`nextRound
      ensures (State(), reply) == Propose(old(State()), uid, walletId, partner, denom, rate, pieces, rows, spendable, routes)
      ensures Valid()
    {
      StepKeeps(State(), DoPropose(uid, walletId, partner, denom, rate, pieces, rows, spendable, routes));
      var refusal := CheckProposal(uid, walletId, partner, denom, rate, pieces, rows, spendable);
      if refusal.Some? {
        return Refused(refusal.value);
      }
      rounds := rounds[nextRound := NewRound(wallets[walletId].network, uid, walletId, partner, denom, rate, pieces, rows, routes, clock)];
      nextRound := nextRound + 1;
      reply := Done;
    }

    method CheckProposal(uid: User, walletId: WalletId, partner: User, denom: int, rate: real, pieces: int,
                         rows: seq<Coin>, spendable: bool) returns (why: Option<Refusal>)
      ensures why == ProposeRefusal(State(), uid, walletId, partner, denom, rate, pieces, rows, spendable)
    {
      if walletId !in wallets {
        return Some(NotFound);
      }
      if wallets[walletId].owner != uid {
        return Some(Forbidden);
      }
      if partner == uid {
        return Some(BadRequest);
      }
      var connected := IsConnected(uid, partner, wallets[walletId].network);
      if !connected {
        return Some(Forbidden);
      }
      if !RowsOk(rows) || !spendable {
        return Some(BadRequest);
      }
      var held := ReservedOutpoints(uid);
      if !(Outpoints(rows) !! held) {
        return Some(Conflict);
      }
      var p := Plan(rows, rows, denom, rate, pieces);
      why := if p.Err? then Some(BadRequest) else None;
    }

    method AcceptRound(uid: User, id: RoundId, d: AcceptData, env: AcceptEnv) returns (reply: Reply)
      requires Valid() && uid != ""
      modifies this`rounds
      ensures (State(), reply) == Accept(old(State()), uid, id, d, env)
      ensures Valid()
    {
      StepKeeps(State(), DoAccept(uid, id, d, env));
      if id !in rounds || rounds[id].bUser != uid {
        return Refused(NotFound);
      }
      var r := rounds[id];
      if TurnOf(r.status) != Some(B) {
        return Refused(Conflict);
      }
      if IsExpired(r, clock) {
        return Refused(Gone);
      }
      if d.walletId !in wallets {
        return Refused(NotFound);
      }
      if wallets[d.walletId].owner != uid {
        return Refused(Forbidden);
      }
      if wallets[d.walletId].network != r.network {
        return Refused(BadRequest);
      }
      if !RowsOk(d.rows) || (d.changeSpk.Some? && !P2tr(d.changeSpk.value)) {
        return Refused(BadRequest);
      }
      if !MixOk(d.mix, PiecesOr1(r)) || !env.spendable {
        return Refused(BadRequest);
      }
      var held := ReservedOutpoints(uid);
      if !(Outpoints(d.rows) !! held) {
        return Refused(Conflict);
      }
      if !(Outpoints(d.rows) !! Outpoints(r.aInputs)) {
        return Refused(BadRequest);
      }
      var planned := Plan(r.aInputs, d.rows, r.denom, r.feeRate, PiecesOr1(r));
      if planned.Err? {
        return Refused(BadRequest);
      }
      reply := FinishAccept(id, d, env, planned.value);
    }

    /** The routed changes, and the two writes. */
    method FinishAccept(id: RoundId, d: AcceptData, env: AcceptEnv, p: Amounts) returns (reply: Reply)
      requires id in rounds
      modifies this`rounds
      ensures reply ==
        if (env.routes.Some? && d.changeSpk.Some?) || (env.routes.None? && p.bChange != 0 && d.changeSpk.None?) then Refused(BadRequest)
        else if (env.routes.Some? && p.bChange != 0 && env.bDerived.None?)
             || (old(rounds)[id].aPayout && p.aChange != 0 && env.aDerived.None?) then Refused(ServerError)
        else Done
      ensures rounds ==
        match reply
        case Done => old(rounds)[id := AcceptedRow(WithAddress(old(rounds)[id], p, env), p, d, env)]
        case Refused(why) => if why == ServerError then old(rounds)[id := WithAddress(old(rounds)[id], p, env)] else old(rounds)
    {
      var r := rounds[id];
      if env.routes.Some? {
        if d.changeSpk.Some? {
          return Refused(BadRequest);
        }
      } else if p.bChange != 0 && d.changeSpk.None? {
        return Refused(BadRequest);
      }
      var bChangeSpk, bTweak := d.changeSpk, None;
      if (env.routes.Some? && p.bChange != 0) || (r.aPayout && p.aChange != 0) {
        if env.routes.Some? && r.payoutAddress.None? {
          rounds := rounds[id := r.(payoutAddress := env.routes)];
          r := rounds[id];
        }
      }
      assert rounds == old(rounds)[id := WithAddress(old(rounds)[id], p, env)];
      if env.routes.Some? && p.bChange != 0 {
        if env.bDerived.None? {
          return Refused(ServerError);
        }
        bChangeSpk, bTweak := Some(env.bDerived.value.0), Some(env.bDerived.value.1);
      }
      var aChangeSpk, aTweak := r.aChangeSpk, r.aTweak;
      if r.aPayout && p.aChange != 0 {
        if env.aDerived.None? {
          return Refused(ServerError);
        }
        aChangeSpk, aTweak := Some(env.aDerived.value.0), Some(env.aDerived.value.1);
      }
      rounds := rounds[id := r.(status := Accepted, aChangeSpk := aChangeSpk, aTweak := aTweak, bWallet := Some(d.walletId),
                                bInputs := d.rows, sums := SumsOf(p), bMix := d.mix, bChangeSpk := bChangeSpk,
                                bPayout := env.routes.Some?, bTweak := bTweak)];
      reply := Done;
    }

    method SignRound(uid: User, id: RoundId, d: SignData, env: SignEnv) returns (reply: Reply)
      requires Valid() && uid != ""
      modifies this`rounds, this`chain
      ensures (State(), reply) == Sign(old(State()), uid, id, d, env)
      ensures Valid()
    {
      StepKeeps(State(), DoSign(uid, id, d, env));
      if id !in rounds || RoleOf(rounds[id], uid).None? {
        return Refused(NotFound);
      }
      var role := RoleOf(rounds[id], uid);
      if TurnOf(rounds[id].status) != role {
        return Refused(Conflict);
      }
      if IsExpired(rounds[id], clock) {
        return Refused(Gone);
      }
      if !env.unspent {
        return Refused(Conflict);
      }
      if role == Some(A) {
        reply := SignFirst(id, d);
      } else {
        reply := SignLast(id, d, env);
      }
    }

    /** A's part: the scripts are written before the signatures over them are checked. */
    method SignFirst(id: RoundId, d: SignData) returns (reply: Reply)
      requires id in rounds
      modifies this`rounds
      ensures (State(), reply) == SignA(old(State()), id, d)
    {
      if !AScriptsOk(rounds[id], d) {
        return Refused(BadRequest);
      }
      var r := WithAScripts(rounds[id], d);
      rounds := rounds[id := r];
      if !SignaturesOk(r, r.aInputs, d) {
        return Refused(BadRequest);
      }
      Overwritten(old(rounds), id, r, ASignedRow(r, d));
      rounds := rounds[id := ASignedRow(r, d)];
      reply := Done;
    }

    /** B's part: both sides' witnesses are put together, and the transaction goes out. */
    method SignLast(id: RoundId, d: SignData, env: SignEnv) returns (reply: Reply)
      requires id in rounds
      modifies this`rounds, this`chain
      ensures (State(), reply) == SignB(old(State()), id, d, env)
    {
      var r := rounds[id];
      if !SignaturesOk(r, r.bInputs, d) {
        return Refused(BadRequest);
      }
      var sigs := Finalize(Assemble(r).value, r.aWitnesses + d.witnesses);
      if sigs.None? {
        return Refused(BadRequest);
      }
      if !env.accepted {
        return Refused(BadGateway);
      }
      chain := chain[id := Sent(Assemble(r).value, Frozen(r), sigs.value)];
      rounds := rounds[id := r.(status := Broadcast, bWitnesses := d.witnesses)];
      reply := Done;
    }

    method CancelTango(uid: User, id: RoundId) returns (reply: Reply)
      requires Valid() && uid != ""
      modifies this`rounds
      ensures (State(), reply) == CancelRound(old(State()), uid, id)
      ensures Valid()
    {
      StepKeeps(State(), DoCancel(uid, id));
      if id !in rounds || RoleOf(rounds[id], uid).None? {
        return Refused(NotFound);
      }
      if !CanCancel(rounds[id].status) {
        return Refused(Conflict);
      }
      rounds := rounds[id := Cancel(rounds[id], if RoleOf(rounds[id], uid) == Some(A) then CancelledByA else CancelledByB)];
      reply := Done;
    }

    // ----- the sweeper -----

    /** The oldest due round that is not yet taken. */
    method OldestDue(taken: seq<RoundId>) returns (found: Option<RoundId>)
      ensures found.Some? ==> Due(State(), found.value) && found.value !in taken
      ensures found.Some? ==> forall id :: Due(State(), id) && id !in taken ==> rounds[found.value].expiresAt <= rounds[id].expiresAt
      ensures found.None? ==> forall id :: Due(State(), id) ==> id in taken
    {
      found := None;
      var left := rounds.Keys;
      while left != {}
        invariant left <= rounds.Keys
        invariant found.Some? ==> Due(State(), found.value) && found.value !in taken
        invariant found.Some? ==>
          forall id :: Due(State(), id) && id !in taken && id !in left ==> rounds[found.value].expiresAt <= rounds[id].expiresAt
        invariant found.None? ==> forall id :: Due(State(), id) && id !in left ==> id in taken
        decreases |left|
      {
        var id :| id in left;
        if Unfinished(rounds[id]) && rounds[id].expiresAt <= clock && id !in taken {
          if found.None? || rounds[id].expiresAt < rounds[found.value].expiresAt {
            found := Some(id);
          }
        }
        left := left - {id};
      }
    }

    /** `list_expired_tango_rounds` */
    method ListExpired() returns (ids: seq<RoundId>)
      ensures IsListing(State(), ids)
    {
      ids := [];
      while |ids| < SWEEP_LIMIT
        invariant |ids| <= SWEEP_LIMIT
        invariant forall i :: 0 <= i < |ids| ==> Due(State(), ids[i])
        invariant forall i, j :: 0 <= i < j < |ids| ==> ids[i] != ids[j]
        invariant forall i, id :: 0 <= i < |ids| && Due(State(), id) && id !in ids ==> rounds[ids[i]].expiresAt <= rounds[id].expiresAt
      {
        var next := OldestDue(ids);
        if next.None? {
          return;
        }
        ids := ids + [next.value];
      }
    }

    /** `run_tango_sweep`, with nothing in between its two phases. */
    method RunSweep() returns (ghost ids: seq<RoundId>)
      requires Valid() && listed == []
      modifies this`rounds, this`listed
      ensures IsListing(old(State()), ids) && State() == CloseAll(old(State()).(listed := ids))
      ensures Valid() && listed == []
    {
      var due := ListExpired();
      ids := due;
      StepKeeps(State(), DoList(ids));
      listed := due;
      ghost var start := State();
      while listed != []
        invariant Valid() && CloseAll(State()) == CloseAll(start)
        invariant contacts == old(contacts)
        decreases |listed|
      {
        CloseNextKeeps(State());
        ghost var before := State();
        if listed[0] in rounds {
          rounds := rounds[listed[0] := Cancel(rounds[listed[0]], Expired)];
        }
        listed := listed[1..];
        assert State() == CloseNext(before);
      }
    }
  }
}
