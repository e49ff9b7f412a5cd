/** The Tango round protocol of views_api.py and crud.py: the rows it keeps, and what each request does
    to them. A request is one atomic step; what the outside world answers (the explorer, the network, the
    derivation of a routed change) comes in as an argument. */
module TangoRounds {
  import opened Results
  import opened Bytes
  import opened Bip69
  import opened TangoPlan

  type RoundId = nat
  type ContactId = nat
  type User = string
  type Network = string
  type WalletId = string
  type Script = seq<byte>
  type Signature = seq<byte>

  const EXPIRY_SECONDS: nat := 86400

  // ----- transactions -----

  datatype Tx = Tx(ins: seq<Outpoint>, outs: seq<Output>)

  /** `sighashes`: the BIP-341 digest of one input, any function of the transaction and what it spends. */
  const Sighash: (Tx, seq<Coin>, nat) -> seq<byte>

  /** BIP-340 verification of a signature under an x-only key. */
  const Verify: (seq<byte>, Signature, seq<byte>) -> bool

  /** A 64-byte signature over tx for its n-th input. */
  predicate Signs(tx: Tx, coins: seq<Coin>, n: nat, sig: Signature) {
    n < |coins| && |sig| == 64 && Verify(coins[n].pubKey, sig, Sighash(tx, coins, n))
  }

  // ----- the rows -----

  datatype Status = Proposed | Accepted | ASigned | Broadcast | Cancelled

  datatype Reason = Expired | ConnectionRemoved | CancelledByA | CancelledByB

  /** The columns `/accept` fills from the plan. */
  datatype Sums = Sums(aIn: int, bIn: int, aChange: int, bChange: int, aFee: int, bFee: int, fee: int, vsize: int,
                       clean: bool)

  datatype Round = Round(
    status: Status, network: Network, aUser: User, bUser: User, aWallet: Option<WalletId>, bWallet: Option<WalletId>,
    denom: int, feeRate: real, pieces: int, sums: Sums, aInputs: seq<Coin>, bInputs: seq<Coin>,
    aMix: seq<Script>, bMix: seq<Script>, aChangeSpk: Option<Script>, bChangeSpk: Option<Script>,
    aPayout: bool, bPayout: bool, aTweak: Option<seq<byte>>, bTweak: Option<seq<byte>>, payoutAddress: Option<string>,
    expiresAt: int, aWitnesses: map<nat, Signature>, bWitnesses: map<nat, Signature>, unsignedTx: Option<Tx>,
    reason: Option<Reason>)

  datatype ContactStatus = Pending | Approved | Declined

  datatype Contact = Contact(status: ContactStatus, requester: User, target: User, network: Network)

  datatype Wallet = Wallet(owner: User, network: Network)

  /** A finished transaction handed to the network: what it spends, and one signature per input. */
  datatype Sent = Sent(tx: Tx, coins: seq<Coin>, sigs: seq<Signature>)

  /** `listed` is what the sweeper has listed and not yet closed; `chain` is what was broadcast, by round. */
  datatype World = World(
    rounds: map<RoundId, Round>, contacts: map<ContactId, Contact>, wallets: map<WalletId, Wallet>,
    clock: nat, listed: seq<RoundId>, chain: map<RoundId, Sent>, nextRound: RoundId, nextContact: ContactId)

  // ----- helpers/tango.py: turns, cancelling, expiry -----

  datatype Role = A | B

  function TurnOf(s: Status): Option<Role> {
    match s
    case Proposed => Some(B)
    case Accepted => Some(A)
    case ASigned => Some(B)
    case _ => None
  }

  predicate Unfinished(r: Round) {
    r.status.Proposed? || r.status.Accepted? || r.status.ASigned?
  }

  predicate Live(r: Round) {
    !r.status.Cancelled?
  }

  predicate CanCancel(s: Status) {
    !s.Broadcast? && !s.Cancelled?
  }

  /** `is_expired`; a zero, like a missing value, never expires. */
  predicate IsExpired(r: Round, now: int) {
    Unfinished(r) && r.expiresAt != 0 && r.expiresAt <= now
  }

  // ----- rebuilding the transaction -----

  /** `_tango_amounts`: the plan as the row gives it back. */
  function TangoAmounts(r: Round): Amounts {
    var pieces := if r.pieces < 1 then 1 else r.pieces;
    var s := r.sums;
    Amounts(r.denom, pieces, r.denom / pieces, s.aIn, s.bIn, s.aChange, s.bChange, s.aFee, s.bFee, s.fee, s.vsize, s.clean)
  }

  function SumsOf(p: Amounts): Sums {
    Sums(p.aIn, p.bIn, p.aChange, p.bChange, p.aFee, p.bFee, p.fee, p.vsize, p.clean)
  }

  function Spends(coins: seq<Coin>): (r: seq<Outpoint>)
    ensures |r| == |coins|
  {
    seq(|coins|, i requires 0 <= i < |coins| => At(coins[i]))
  }

  /** The inputs of both sides in transaction order. */
  function Frozen(r: Round): seq<Coin> {
    Canonical(r.aInputs + r.bInputs)
  }

  /** `_tango_assemble` */
  function Assemble(r: Round): Result<Tx, OutputError> {
    match OutputsFor(TangoAmounts(r), r.aMix, r.bMix, r.aChangeSpk, r.bChangeSpk)
    case Ok(outs) => Ok(Tx(Spends(Frozen(r)), outs))
    case Err(e) => Err(e)
  }

  function Outpoints(coins: seq<Coin>): set<Outpoint> {
    set i | 0 <= i < |coins| :: At(coins[i])
  }

  /** `owner_indices` */
  function OwnerIndices(r: Round, mine: seq<Coin>): set<nat> {
    set n | 0 <= n < |Frozen(r)| && At(Frozen(r)[n]) in Outpoints(mine) :: n
  }

  /** `verify_witnesses` accepts: a valid signature for every allowed input, and for no other. */
  predicate WitnessesOk(tx: Tx, coins: seq<Coin>, witnesses: map<nat, Signature>, allowed: set<nat>) {
    witnesses.Keys == allowed && forall n :: n in witnesses ==> Signs(tx, coins, n, witnesses[n])
  }

  /** `finalize`: None when an input has no signature. */
  function Finalize(tx: Tx, witnesses: map<nat, Signature>): Option<seq<Signature>> {
    if forall n :: 0 <= n < |tx.ins| ==> n in witnesses
    then Some(seq(|tx.ins|, n requires 0 <= n < |tx.ins| && n in witnesses => witnesses[n]))
    else None
  }

  // ----- reservations -----

  /** The coins a user has in a round, on the side or sides that are that user's. */
  function OwnCoins(r: Round, u: User): set<Outpoint> {
    (if r.aUser == u then Outpoints(r.aInputs) else {}) + (if r.bUser == u then Outpoints(r.bInputs) else {})
  }

  /** `get_reserved_tango_outpoints` */
  ghost function Reserved(w: World, u: User): set<Outpoint> {
    set id, p | id in w.rounds && Live(w.rounds[id]) && p in OwnCoins(w.rounds[id], u) :: p
  }

  // ----- what arrives over the wire -----

  predicate P2tr(s: Script) {
    |s| == 34 && s[0] == 0x51 && s[1] == 0x20
  }

  /** `validate_wire_inputs` */
  predicate RowsOk(rows: seq<Coin>) {
    && rows != []
    && (forall i :: 0 <= i < |rows| ==> |rows[i].txid| == 32 && |rows[i].pubKey| == 32 && rows[i].amount > 0)
    && (forall i, j :: 0 <= i < j < |rows| ==> At(rows[i]) != At(rows[j]))
  }

  function PiecesOr1(r: Round): int {
    if r.pieces == 0 then 1 else r.pieces
  }

  /** `_tango_mix_spks` accepts. */
  predicate MixOk(spks: seq<Script>, pieces: int) {
    && |spks| == pieces
    && (forall i :: 0 <= i < |spks| ==> P2tr(spks[i]))
    && (forall i, j :: 0 <= i < j < |spks| ==> spks[i] != spks[j])
  }

  datatype Refusal = NotFound | Forbidden | BadRequest | Conflict | Gone | ServerError | BadGateway

  datatype Reply = Done | Refused(why: Refusal)

  // ----- connections -----

  predicate Joins(c: Contact, a: User, b: User, net: Network) {
    c.network == net && ((c.requester == a && c.target == b) || (c.requester == b && c.target == a))
  }

  /** `get_payjoin_contact_between` */
  ghost function Between(w: World, a: User, b: User, net: Network): Option<ContactId> {
    if exists c :: c in w.contacts && Joins(w.contacts[c], a, b, net)
    then
      var c :| c in w.contacts && Joins(w.contacts[c], a, b, net);
      Some(c)
    else None
  }

  /** `list_accepted_contact_user_ids` contains b. */
  ghost predicate Connected(w: World, a: User, b: User, net: Network) {
    exists c :: c in w.contacts && w.contacts[c].status.Approved? && Joins(w.contacts[c], a, b, net)
  }

  predicate OnNetwork(w: World, u: User, net: Network) {
    exists id :: id in w.wallets && w.wallets[id] == Wallet(u, net)
  }

  ghost function RequestContact(w: World, uid: User, target: User, net: Network): (World, Reply) {
    if uid == target then (w, Refused(BadRequest))
    else if !OnNetwork(w, uid, net) then (w, Refused(BadRequest))
    else
      match Between(w, uid, target, net)
      case Some(c) =>
        if !w.contacts[c].status.Declined? || w.contacts[c].requester == uid then (w, Refused(Conflict))
        else if !OnNetwork(w, target, net) then (w, Refused(NotFound))
        else (w.(contacts := w.contacts[c := Contact(Pending, uid, target, net)]), Done)
      case None =>
        if !OnNetwork(w, target, net) then (w, Refused(NotFound))
        else
          (w.(contacts := w.contacts[w.nextContact := Contact(Pending, uid, target, net)],
              nextContact := w.nextContact + 1), Done)
  }

  function Answer(w: World, uid: User, c: ContactId, yes: bool): (World, Reply) {
    if c !in w.contacts || w.contacts[c].target != uid then (w, Refused(NotFound))
    else if !w.contacts[c].status.Pending? then (w, Refused(BadRequest))
    else (w.(contacts := w.contacts[c := w.contacts[c].(status := if yes then Approved else Declined)]), Done)
  }

  /** `list_live_tango_rounds_between` */
  predicate UnfinishedBetween(r: Round, a: User, b: User, net: Network) {
    Unfinished(r) && r.network == net && ((r.aUser == a && r.bUser == b) || (r.aUser == b && r.bUser == a))
  }

  function Cancel(r: Round, why: Reason): Round {
    r.(status := Cancelled, reason := Some(why))
  }

  function SeverRows(rounds: map<RoundId, Round>, a: User, b: User, net: Network): map<RoundId, Round> {
    map id | id in rounds :: if UnfinishedBetween(rounds[id], a, b, net) then Cancel(rounds[id], ConnectionRemoved) else rounds[id]
  }

  function RemoveContact(w: World, uid: User, c: ContactId): (World, Reply) {
    if c !in w.contacts || (uid != w.contacts[c].requester && uid != w.contacts[c].target) then (w, Refused(NotFound))
    else
      var k := w.contacts[c];
      var other := if k.requester == uid then k.target else k.requester;
      (w.(rounds := SeverRows(w.rounds, uid, other, k.network), contacts := w.contacts - {c}), Done)
  }

  // ----- rounds -----

  /** The row `create_tango_round` inserts. */
  function NewRound(net: Network, uid: User, walletId: WalletId, partner: User, denom: int, rate: real, pieces: int,
                    rows: seq<Coin>, routes: Option<string>, now: nat): Round
  {
    Round(Proposed, net, uid, partner, Some(walletId), None, denom, rate, if pieces == 0 then 1 else pieces,
          Sums(Total(rows), 0, 0, 0, 0, 0, 0, 0, false), rows, [], [], [], None, None,
          routes.Some?, false, None, None, routes, now + EXPIRY_SECONDS, map[], map[], None, None)
  }

  /** The checks of `/rounds`; `spendable` says that the wallet's records know all the coins. */
  ghost function ProposeRefusal(w: World, uid: User, walletId: WalletId, partner: User, denom: int, rate: real, pieces: int,
                                rows: seq<Coin>, spendable: bool): Option<Refusal>
  {
    if walletId !in w.wallets then Some(NotFound)
    else if w.wallets[walletId].owner != uid then Some(Forbidden)
    else if partner == uid then Some(BadRequest)
    else if !Connected(w, uid, partner, w.wallets[walletId].network) then Some(Forbidden)
    else if !RowsOk(rows) || !spendable then Some(BadRequest)
    else if !(Outpoints(rows) !! Reserved(w, uid)) then Some(Conflict)
    else if PlanOf(rows, rows, denom, rate, pieces).Err? then Some(BadRequest)
    else None
  }

  /** `/rounds`; `routes` is the instance's address when A's change is to be routed. */
  ghost function Propose(w: World, uid: User, walletId: WalletId, partner: User, denom: int, rate: real, pieces: int,
                         rows: seq<Coin>, spendable: bool, routes: Option<string>): (World, Reply)
  {
    match ProposeRefusal(w, uid, walletId, partner, denom, rate, pieces, rows, spendable)
    case Some(why) => (w, Refused(why))
    case None =>
      var r := NewRound(w.wallets[walletId].network, uid, walletId, partner, denom, rate, pieces, rows, routes, w.clock);
      (w.(rounds := w.rounds[w.nextRound := r], nextRound := w.nextRound + 1), Done)
  }

  /** What `/accept` is told from outside: whether the coins are spendable, the address B's change is
      routed to, and the scripts and tweaks derived for the routed changes. */
  datatype AcceptEnv = AcceptEnv(spendable: bool, routes: Option<string>,
                                 aDerived: Option<(Script, seq<byte>)>, bDerived: Option<(Script, seq<byte>)>)

  datatype AcceptData = AcceptData(walletId: WalletId, rows: seq<Coin>, mix: seq<Script>, changeSpk: Option<Script>)

  /** The checks of `/accept` up to the plan. */
  ghost function AcceptRefusal(w: World, uid: User, id: RoundId, d: AcceptData, env: AcceptEnv): Option<Refusal> {
    if id !in w.rounds || w.rounds[id].bUser != uid then Some(NotFound)
    else
      var r := w.rounds[id];
      if TurnOf(r.status) != Some(B) then Some(Conflict)
      else if IsExpired(r, w.clock) then Some(Gone)
      else if d.walletId !in w.wallets then Some(NotFound)
      else if w.wallets[d.walletId].owner != uid then Some(Forbidden)
      else if w.wallets[d.walletId].network != r.network then Some(BadRequest)
      else if !RowsOk(d.rows) || (d.changeSpk.Some? && !P2tr(d.changeSpk.value)) then Some(BadRequest)
      else if !MixOk(d.mix, PiecesOr1(r)) || !env.spendable then Some(BadRequest)
      else if !(Outpoints(d.rows) !! Reserved(w, uid)) then Some(Conflict)
      else if !(Outpoints(d.rows) !! Outpoints(r.aInputs)) then Some(BadRequest)
      else
        match PlanOf(r.aInputs, d.rows, r.denom, r.feeRate, PiecesOr1(r))
        case Err(_) => Some(BadRequest)
        case Ok(p) =>
          if env.routes.Some? && d.changeSpk.Some? then Some(BadRequest)
          else if env.routes.None? && p.bChange != 0 && d.changeSpk.None? then Some(BadRequest)
          else None
  }

  /** The first write of `/accept`: the instance's address, when nothing on the round names one yet. */
  function WithAddress(r: Round, p: Amounts, env: AcceptEnv): Round {
    if ((env.routes.Some? && p.bChange != 0) || (r.aPayout && p.aChange != 0)) && env.routes.Some? && r.payoutAddress.None?
    then r.(payoutAddress := env.routes)
    else r
  }

  /** The second write. */
  function AcceptedRow(r: Round, p: Amounts, d: AcceptData, env: AcceptEnv): Round {
    var aRouted, bRouted := r.aPayout && p.aChange != 0 && env.aDerived.Some?, env.routes.Some? && p.bChange != 0 && env.bDerived.Some?;
    r.(status := Accepted,
       aChangeSpk := if aRouted then Some(env.aDerived.value.0) else r.aChangeSpk,
       aTweak := if aRouted then Some(env.aDerived.value.1) else r.aTweak,
       bWallet := Some(d.walletId), bInputs := d.rows, sums := SumsOf(p), bMix := d.mix,
       bChangeSpk := if bRouted then Some(env.bDerived.value.0) else d.changeSpk,
       bPayout := env.routes.Some?,
       bTweak := if bRouted then Some(env.bDerived.value.1) else None)
  }

  ghost function Accept(w: World, uid: User, id: RoundId, d: AcceptData, env: AcceptEnv): (World, Reply) {
    match AcceptRefusal(w, uid, id, d, env)
    case Some(why) => (w, Refused(why))
    case None =>
      var r := w.rounds[id];
      var p := PlanOf(r.aInputs, d.rows, r.denom, r.feeRate, PiecesOr1(r)).value;
      var named := WithAddress(r, p, env);
      if (env.routes.Some? && p.bChange != 0 && env.bDerived.None?) || (r.aPayout && p.aChange != 0 && env.aDerived.None?)
      then (w.(rounds := w.rounds[id := named]), Refused(ServerError))
      else (w.(rounds := w.rounds[id := AcceptedRow(named, p, d, env)]), Done)
  }

  /** A device's answer to a round: witnesses by input position, and, from A, its scripts; `theirTx` is the
      transaction the device says it signed, when it says. */
  datatype SignData = SignData(mix: seq<Script>, changeSpk: Option<Script>, witnesses: map<nat, Signature>,
                               theirTx: Option<Tx>)

  /** What `/sign` is told from outside: whether every coin of the round is still unspent, and whether the
      network took the transaction. */
  datatype SignEnv = SignEnv(unspent: bool, accepted: bool)

  function RoleOf(r: Round, uid: User): Option<Role> {
    if r.aUser == uid then Some(A) else if r.bUser == uid then Some(B) else None
  }

  /** The part of `/sign` that both sides share, before anything is written. */
  function SignRefusal(w: World, uid: User, id: RoundId, env: SignEnv): Option<Refusal> {
    if id !in w.rounds || RoleOf(w.rounds[id], uid).None? then Some(NotFound)
    else
      var r := w.rounds[id];
      if TurnOf(r.status) != RoleOf(r, uid) then Some(Conflict)
      else if IsExpired(r, w.clock) then Some(Gone)
      else if !env.unspent then Some(Conflict)
      else None
  }

  /** Whether A's scripts are in order. */
  predicate AScriptsOk(r: Round, d: SignData) {
    && (if r.aPayout then d.changeSpk.None? else r.sums.aChange != 0 ==> d.changeSpk.Some? && P2tr(d.changeSpk.value))
    && MixOk(d.mix, PiecesOr1(r))
  }

  /** A's first write: its scripts. A routed change stays as `/accept` fixed it. */
  function WithAScripts(r: Round, d: SignData): Round {
    r.(aMix := d.mix,
       aChangeSpk := if r.aPayout then r.aChangeSpk else d.changeSpk,
       aTweak := if r.aPayout then r.aTweak else None)
  }

  /** The checks on the signatures themselves, against the transaction rebuilt from the row. */
  predicate SignaturesOk(r: Round, mine: seq<Coin>, d: SignData) {
    && Assemble(r).Ok?
    && (d.theirTx.Some? ==> d.theirTx.value == Assemble(r).value)
    && WitnessesOk(Assemble(r).value, Frozen(r), d.witnesses, OwnerIndices(r, mine))
  }

  function ASignedRow(r: Round, d: SignData): Round
    requires Assemble(r).Ok?
  {
    r.(status := ASigned, aWitnesses := d.witnesses, unsignedTx := Some(Assemble(r).value))
  }

  function SignA(w: World, id: RoundId, d: SignData): (World, Reply)
    requires id in w.rounds
  {
    var r := w.rounds[id];
    if !AScriptsOk(r, d) then (w, Refused(BadRequest))
    else
      var r1 := WithAScripts(r, d);
      if !SignaturesOk(r1, r1.aInputs, d) then (w.(rounds := w.rounds[id := r1]), Refused(BadRequest))
      else (w.(rounds := w.rounds[id := ASignedRow(r1, d)]), Done)
  }

  function SignB(w: World, id: RoundId, d: SignData, env: SignEnv): (World, Reply)
    requires id in w.rounds
  {
    var r := w.rounds[id];
    if !SignaturesOk(r, r.bInputs, d) then (w, Refused(BadRequest))
    else
      var tx := Assemble(r).value;
      match Finalize(tx, r.aWitnesses + d.witnesses)
      case None => (w, Refused(BadRequest))
      case Some(sigs) =>
        if !env.accepted then (w, Refused(BadGateway))
        else (w.(rounds := w.rounds[id := r.(status := Broadcast, bWitnesses := d.witnesses)],
                 chain := w.chain[id := Sent(tx, Frozen(r), sigs)]), Done)
  }

  /** `/sign` */
  function Sign(w: World, uid: User, id: RoundId, d: SignData, env: SignEnv): (World, Reply) {
    match SignRefusal(w, uid, id, env)
    case Some(why) => (w, Refused(why))
    case None => if RoleOf(w.rounds[id], uid) == Some(A) then SignA(w, id, d) else SignB(w, id, d, env)
  }

  /** `/cancel` */
  function CancelRound(w: World, uid: User, id: RoundId): (World, Reply) {
    if id !in w.rounds || RoleOf(w.rounds[id], uid).None? then (w, Refused(NotFound))
    else if !CanCancel(w.rounds[id].status) then (w, Refused(Conflict))
    else
      var why := if RoleOf(w.rounds[id], uid) == Some(A) then CancelledByA else CancelledByB;
      (w.(rounds := w.rounds[id := Cancel(w.rounds[id], why)]), Done)
  }

  // ----- the sweeper: list first, close one by one later -----

  /** `update_tango_round(rnd.id, status="CANCELLED", ...)` for the next listed round, whatever has
      become of it since it was listed. */
  function CloseNext(w: World): World {
    if w.listed == [] then w
    else
      var id := w.listed[0];
      w.(rounds := if id in w.rounds then w.rounds[id := Cancel(w.rounds[id], Expired)] else w.rounds,
         listed := w.listed[1..])
  }

  // ----- wallets -----

  /** `purge_tango_side` for one round; None means that the row is deleted. */
  function PurgeSide(r: Round, walletId: WalletId, forget: bool): Option<Round> {
    if r.aWallet != Some(walletId) && r.bWallet != Some(walletId) then Some(r)
    else if !r.status.Broadcast? then None
    else if r.aWallet == Some(walletId) then
      if forget && r.bUser == "" then None
      else Some(r.(aInputs := [], aWallet := None, aUser := if forget then "" else r.aUser))
    else
      if forget && r.aUser == "" then None
      else Some(r.(bInputs := [], bWallet := None, bUser := if forget then "" else r.bUser))
  }

  function PurgeRounds(rounds: map<RoundId, Round>, walletId: WalletId, forget: bool): map<RoundId, Round> {
    map id | id in rounds && PurgeSide(rounds[id], walletId, forget).Some? :: PurgeSide(rounds[id], walletId, forget).value
  }

  /** Deleting a wallet: its side of every round goes, and with the user's last wallet on a network the
      connections there. With `forget`, one wallet's part of deleting the account. */
  function RemoveWallet(w: World, walletId: WalletId, forget: bool): World {
    if walletId !in w.wallets then w
    else
      var k := w.wallets[walletId];
      var left := w.(rounds := PurgeRounds(w.rounds, walletId, forget), wallets := w.wallets - {walletId});
      if forget || OnNetwork(left, k.owner, k.network) then left
      else left.(contacts := map c | c in w.contacts &&
                                     !(w.contacts[c].network == k.network
                                       && (w.contacts[c].requester == k.owner || w.contacts[c].target == k.owner)) :: w.contacts[c])
  }

  /** The rest of deleting an account. */
  function ForgetContacts(w: World, uid: User): World {
    w.(contacts := map c | c in w.contacts && w.contacts[c].requester != uid && w.contacts[c].target != uid :: w.contacts[c])
  }

  function AddWallet(w: World, walletId: WalletId, owner: User, net: Network): World {
    if walletId in w.wallets then w else w.(wallets := w.wallets[walletId := Wallet(owner, net)])
  }

  // ----- runs -----

  datatype Event =
    | DoRequest(uid: User, target: User, net: Network)
    | DoAnswer(uid: User, c: ContactId, yes: bool)
    | DoRemoveContact(uid: User, c: ContactId)
    | DoPropose(uid: User, walletId: WalletId, partner: User, denom: int, rate: real, pieces: int, rows: seq<Coin>,
                spendable: bool, routes: Option<string>)
    | DoAccept(uid: User, id: RoundId, accept: AcceptData, acceptEnv: AcceptEnv)
    | DoSign(uid: User, id: RoundId, sign: SignData, signEnv: SignEnv)
    | DoCancel(uid: User, id: RoundId)
    | DoTick(now: nat)
    | DoList(ids: seq<RoundId>)
    | DoClose
    | DoAddWallet(walletId: WalletId, owner: User, net: Network)
    | DoRemoveWallet(walletId: WalletId, forget: bool)
    | DoForgetContacts(uid: User)

  const SWEEP_LIMIT: nat := 200

  /** `list_expired_tango_rounds`: due rounds, the oldest first, at most the limit; ties in any order. */
  ghost predicate IsListing(w: World, ids: seq<RoundId>) {
    && (forall i :: 0 <= i < |ids| ==> Due(w, ids[i]))
    && (forall i, j :: 0 <= i < j < |ids| ==> ids[i] != ids[j])
    && |ids| <= SWEEP_LIMIT
    && (forall id :: Due(w, id) && id !in ids ==>
          |ids| == SWEEP_LIMIT && forall i :: 0 <= i < |ids| ==> w.rounds[ids[i]].expiresAt <= w.rounds[id].expiresAt)
  }

  predicate Due(w: World, id: RoundId) {
    id in w.rounds && Unfinished(w.rounds[id]) && w.rounds[id].expiresAt <= w.clock
  }

  /** A caller is an account, and no account has the empty id; the clock never goes back; there is one
      sweeper, and it lists only when it has closed what it listed before. */
  ghost predicate Enabled(w: World, e: Event) {
    match e
    case DoRequest(uid, target, _) => uid != "" && target != ""
    case DoAnswer(uid, _, _) => uid != ""
    case DoRemoveContact(uid, _) => uid != ""
    case DoPropose(uid, _, partner, _, _, _, _, _, _) => uid != "" && partner != ""
    case DoAccept(uid, _, _, _) => uid != ""
    case DoSign(uid, _, _, _) => uid != ""
    case DoCancel(uid, _) => uid != ""
    case DoTick(now) => w.clock <= now
    case DoList(ids) => w.listed == [] && IsListing(w, ids)
    case DoAddWallet(_, owner, _) => owner != ""
    case DoForgetContacts(uid) => uid != ""
    case _ => true
  }

  ghost function Step(w: World, e: Event): World {
    match e
    case DoRequest(uid, target, net) => RequestContact(w, uid, target, net).0
    case DoAnswer(uid, c, yes) => Answer(w, uid, c, yes).0
    case DoRemoveContact(uid, c) => RemoveContact(w, uid, c).0
    case DoPropose(uid, walletId, partner, denom, rate, pieces, rows, spendable, routes) =>
      Propose(w, uid, walletId, partner, denom, rate, pieces, rows, spendable, routes).0
    case DoAccept(uid, id, d, env) => Accept(w, uid, id, d, env).0
    case DoSign(uid, id, d, env) => Sign(w, uid, id, d, env).0
    case DoCancel(uid, id) => CancelRound(w, uid, id).0
    case DoTick(now) => w.(clock := now)
    case DoList(ids) => w.(listed := ids)
    case DoClose => CloseNext(w)
    case DoAddWallet(walletId, owner, net) => AddWallet(w, walletId, owner, net)
    case DoRemoveWallet(walletId, forget) => RemoveWallet(w, walletId, forget)
    case DoForgetContacts(uid) => ForgetContacts(w, uid)
  }

  const EMPTY: World := World(map[], map[], map[], 0, [], map[], 0, 0)

  ghost predicate Runs(w: World, events: seq<Event>) {
    events == [] || (Runs(w, events[..|events| - 1]) && Enabled(After(w, events[..|events| - 1]), events[|events| - 1]))
  }

  ghost function After(w: World, events: seq<Event>): World {
    if events == [] then w else Step(After(w, events[..|events| - 1]), events[|events| - 1])
  }
}
