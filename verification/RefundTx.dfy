/** `build_refund_tx`: the signed script-path refund of a Boltz lockup. */
module RefundTx {
  import opened Results
  import opened Bytes
  import opened TxFormat
  import Curve
  import opened Taproot
  import Address

  datatype RefundError =
    | Reconstruction(taproot: Taproot.Error)
    | AddressMismatch
    | BadDestination(address: Address.Error)
    | FeeExceedsValue
    | OutOfRange

  type Signature = s: seq<byte> | |s| == 64 witness seq(64, _ => 0)

  /** coincurve's compressed public key of a secret, and its BIP-340 signature of a digest. */
  const PublicKeyOf: seq<byte> -> seq<byte>
  const SchnorrSign: (seq<byte>, Digest) -> Signature

  /** The arguments of `build_refund_tx`, hexadecimal decoded. */
  datatype Request = Request(
    secret: seq<byte>,
    claimKey: seq<byte>,
    claimScript: seq<byte>,
    refundScript: seq<byte>,
    lockupAddress: string,
    lockupTxid: seq<byte>,
    lockupVout: int,
    lockupValue: int,
    destination: string,
    timeout: int,
    fee: int,
    network: string)

  const SEGWIT_HRP: map<string, string> :=
    map["regtest" := "bcrt", "testnet" := "tb", "signet" := "tb", "mainnet" := "bc"]

  /** `taproot_address` */
  function TaprootAddress(outkey: seq<byte>, network: string): string {
    Address.Bech32mAddr(if network in SEGWIT_HRP then SEGWIT_HRP[network] else "bcrt", 1, outkey)
  }

  // ----- the key-order search -----

  const ORDERS: seq<AggOrder> := [ClaimFirst, RefundFirst, Sorted]

  function ReconstructFor(req: Request, order: AggOrder): Result<Recon, RefundError> {
    match Reconstruct(req.claimKey, PublicKeyOf(req.secret), req.claimScript, req.refundScript, order)
    case Err(e) => Err(Reconstruction(e))
    case Ok(r) => Ok(r)
  }

  /** The first reconstruction, from order i on, whose address is the funded one. */
  function FirstMatch(req: Request, i: nat): Result<Recon, RefundError>
    decreases |ORDERS| - i
  {
    if i >= |ORDERS| then Err(AddressMismatch)
    else
      var r :- ReconstructFor(req, ORDERS[i]);
      if TaprootAddress(r.outkey, req.network) == req.lockupAddress then Ok(r) else FirstMatch(req, i + 1)
  }

  // ----- the signed digest and the bytes, as the code concatenates them -----

  function JoinOutputs(outs: seq<TxOut>): seq<byte>
    requires forall i :: 0 <= i < |outs| ==> |outs[i].script| < Pow256(8)
  {
    if outs == [] then []
    else
      var o := outs[|outs| - 1];
      JoinOutputs(outs[..|outs| - 1]) + (LE(o.amount, 8) + VarInt(|o.script|) + o.script)
  }

  /** `_script_path_sighash` */
  function ScriptPathSighash(version: nat, locktime: nat, txid: seq<byte>, vout: nat, value: nat, spk: seq<byte>,
                             sequence: nat, outs: seq<TxOut>, leaf: Digest): Digest
    requires |spk| < Pow256(8) && forall i :: 0 <= i < |outs| ==> |outs[i].script| < Pow256(8)
  {
    Tagged("TapSighash",
      [0x00]
      + [0x00]
      + LE(version, 4)
      + LE(locktime, 4)
      + Sha256(Reverse(txid) + LE(vout, 4)) + Sha256(LE(value, 8)) + Sha256(VarInt(|spk|) + spk)
      + Sha256(LE(sequence, 4))
      + Sha256(JoinOutputs(outs))
      + [0x02]
      + LE(0, 4)
      + leaf + [0x00] + [0xFF, 0xFF, 0xFF, 0xFF])
  }

  function WitnessBytes(sig: seq<byte>, script: seq<byte>, control: seq<byte>): seq<byte>
    requires |sig| < Pow256(8) && |script| < Pow256(8) && |control| < Pow256(8)
  {
    VarInt3()
    + VarInt(|sig|) + sig
    + VarInt(|script|) + script
    + VarInt(|control|) + control
  }

  function VarInt3(): seq<byte> {
    Pow256Values();
    VarInt(3)
  }

  const VERSION: nat := 2
  const SEQUENCE: nat := 0xFFFF_FFFE

  /** The integers that `to_bytes` accepts. */
  predicate InRange(req: Request) {
    && 0 <= req.lockupVout < 0x1_0000_0000
    && 0 <= req.timeout < 0x1_0000_0000
    && 0 <= req.lockupValue < 0x1_0000_0000_0000_0000
    && req.lockupValue - req.fee < 0x1_0000_0000_0000_0000
  }

  /** What `build_refund_tx` returns, or why it refuses. */
  function Refund(req: Request): Result<seq<byte>, RefundError> {
    var recon :- FirstMatch(req, 0);
    match Address.SpkFromAddress(req.destination)
    case Err(e) => Err(BadDestination(e))
    case Ok(dest) =>
      if req.lockupValue - req.fee <= 0 then Err(FeeExceedsValue)
      else if !InRange(req) then Err(OutOfRange)
      else
        ScriptSizes(req, recon, dest);
        Ok(SignedBytes(req, recon, dest))
  }

  function LockScript(recon: Recon): seq<byte> {
    [0x51, 0x20] + recon.outkey
  }

  function Signed(req: Request, recon: Recon, dest: seq<byte>): Signature
    requires Sizes(req, recon, dest)
  {
    SchnorrSign(req.secret,
      ScriptPathSighash(VERSION, req.timeout, req.lockupTxid, req.lockupVout, req.lockupValue, LockScript(recon),
                        SEQUENCE, [TxOut(req.lockupValue - req.fee, dest)], Leaf(recon.script)))
  }

  function SignedBytes(req: Request, recon: Recon, dest: seq<byte>): seq<byte>
    requires Sizes(req, recon, dest)
  {
    Pow256Values();
    LE(VERSION, 4)
    + [0x00, 0x01]
    + VarInt(1)
    + Reverse(req.lockupTxid) + LE(req.lockupVout, 4) + VarInt(0) + LE(SEQUENCE, 4)
    + VarInt(1) + JoinOutputs([TxOut(req.lockupValue - req.fee, dest)])
    + WitnessBytes(Signed(req, recon, dest), recon.script, recon.control)
    + LE(req.timeout, 4)
  }

  predicate Sizes(req: Request, recon: Recon, dest: seq<byte>) {
    && InRange(req) && 0 < req.lockupValue - req.fee
    && |recon.script| <= 255 && |recon.control| == 65 && |recon.outkey| == 32 && |dest| <= 257
    && 257 < Pow256(8)
  }

  lemma ScriptSizes(req: Request, recon: Recon, dest: seq<byte>)
    requires FirstMatch(req, 0) == Ok(recon) && Address.SpkFromAddress(req.destination) == Ok(dest)
    requires InRange(req) && 0 < req.lockupValue - req.fee
    ensures Sizes(req, recon, dest)
  {
    Pow256Values();
    var order := MatchFound(req, 0, recon);
    ReconSizes(req.claimKey, PublicKeyOf(req.secret), req.claimScript, req.refundScript, order);
    Address.SpkLength(req.destination);
  }

  lemma {:induction false} MatchFound(req: Request, i: nat, recon: Recon) returns (order: AggOrder)
    requires FirstMatch(req, i) == Ok(recon)
    ensures Reconstruct(req.claimKey, PublicKeyOf(req.secret), req.claimScript, req.refundScript, order) == Ok(recon)
    ensures TaprootAddress(recon.outkey, req.network) == req.lockupAddress
    decreases |ORDERS| - i
  {
    if ReconstructFor(req, ORDERS[i]) == Ok(recon) && TaprootAddress(recon.outkey, req.network) == req.lockupAddress {
      order := ORDERS[i];
    } else {
      order := MatchFound(req, i + 1, recon);
    }
  }

  /** `build_refund_tx`: the search over key orders, then the guards, then the transaction. The keys are summed
      by the loops of `Taproot`, so what is specified holds for keys that are points of the curve. */
  method BuildRefundTx(req: Request) returns (r: Result<seq<byte>, RefundError>)
    ensures Curve.Associative() && KeysCanonical(req.claimKey, PublicKeyOf(req.secret)) ==> r == Refund(req)
  {
    var recon := Search(req);
    if recon.Err? {
      return Err(recon.error);
    }
    var dest := Address.SpkFromAddress(req.destination);
    if dest.Err? {
      return Err(BadDestination(dest.error));
    }
    if req.lockupValue - req.fee <= 0 {
      return Err(FeeExceedsValue);
    }
    if !InRange(req) {
      return Err(OutOfRange);
    }
    Pow256Values();
    Address.SpkLength(req.destination);
    r := Ok(SignedBytes(req, recon.value, dest.value));
  }

  /** The search over key orders. */
  method Search(req: Request) returns (r: Result<Recon, RefundError>)
    ensures Curve.Associative() && KeysCanonical(req.claimKey, PublicKeyOf(req.secret)) ==> r == FirstMatch(req, 0)
    ensures r.Ok? ==> |r.value.control| == 65 && |r.value.outkey| == 32 && |r.value.script| <= 255
  {
    for i := 0 to |ORDERS|
      invariant Curve.Associative() && KeysCanonical(req.claimKey, PublicKeyOf(req.secret)) ==>
        FirstMatch(req, 0) == FirstMatch(req, i)
    {
      var tried := ReconstructTaproot(req.claimKey, PublicKeyOf(req.secret), req.claimScript, req.refundScript, ORDERS[i]);
      if tried.Err? {
        return Err(Reconstruction(tried.error));
      }
      if TaprootAddress(tried.value.outkey, req.network) == req.lockupAddress {
        return Ok(tried.value);
      }
    }
    r := Err(AddressMismatch);
  }

  // ----- the transaction those bytes are -----

  function AsTx(req: Request, recon: Recon, dest: seq<byte>): Tx
    requires Sizes(req, recon, dest)
  {
    Tx(VERSION,
       [TxIn(Reverse(req.lockupTxid), req.lockupVout, [], SEQUENCE)],
       [TxOut(req.lockupValue - req.fee, dest)],
       [[Signed(req, recon, dest), recon.script, recon.control]],
       req.timeout)
  }

  /** The output the lockup transaction created. */
  function Lockup(req: Request, recon: Recon): TxOut
    requires 0 <= req.lockupValue
  {
    TxOut(req.lockupValue, LockScript(recon))
  }

  lemma AsTxGood(req: Request, recon: Recon, dest: seq<byte>)
    requires Sizes(req, recon, dest) && |req.lockupTxid| == 32
    ensures GoodTx(AsTx(req, recon, dest)) && GoodOuts([Lockup(req, recon)])
  {
    Pow256Values();
  }

  lemma FlattenOne(b: seq<byte>)
    ensures Flatten([b]) == b
  {
    assert [b][..0] == [];
  }

  lemma PutOneIn(i: TxIn)
    requires GoodIn(i) && GoodIns([i])
    ensures PutIns([i]) == PutIn(i)
  {
    FlattenOne(PutIn(i));
    assert seq(1, k requires 0 <= k < 1 => PutIn([i][k])) == [PutIn(i)];
  }

  lemma PutOneOut(o: TxOut)
    requires GoodOut(o) && GoodOuts([o])
    ensures PutOuts([o]) == PutOut(o) == JoinOutputs([o])
  {
    FlattenOne(PutOut(o));
    assert seq(1, k requires 0 <= k < 1 => PutOut([o][k])) == [PutOut(o)];
    assert [o][..0] == [];
    assert JoinOutputs([]) == [];
  }

  lemma FlattenThree(a: seq<byte>, b: seq<byte>, c: seq<byte>)
    ensures Flatten([a, b, c]) == a + b + c
  {
    assert [a, b, c][..2] == [a, b] && [a, b][..1] == [a];
    FlattenOne(a);
    assert Flatten([a, b]) == a + b;
  }

  lemma PutItems(sig: seq<byte>, script: seq<byte>, control: seq<byte>)
    requires Sized(sig) && Sized(script) && Sized(control) && GoodStack([sig, script, control])
    ensures PutStack([sig, script, control]) == WitnessBytes(sig, script, control)
  {
    var st := [sig, script, control];
    var a, b, c := PutVarBytes(sig), PutVarBytes(script), PutVarBytes(control);
    assert seq(3, k requires 0 <= k < 3 => PutVarBytes(st[k])) == [a, b, c];
    FlattenThree(a, b, c);
    ReassociateItems(VarInt3(), VarInt(|sig|), sig, VarInt(|script|), script, VarInt(|control|), control);
  }

  lemma ReassociateItems(n: seq<byte>, a: seq<byte>, a': seq<byte>, b: seq<byte>, b': seq<byte>, c: seq<byte>, c': seq<byte>)
    ensures n + a + a' + b + b' + c + c' == n + ((a + a') + (b + b') + (c + c'))
  {
  }

  lemma PutOneStack(sig: seq<byte>, script: seq<byte>, control: seq<byte>)
    requires Sized(sig) && Sized(script) && Sized(control) && GoodStack([sig, script, control])
    ensures PutStacks([[sig, script, control]]) == WitnessBytes(sig, script, control)
  {
    var st := [sig, script, control];
    PutItems(sig, script, control);
    FlattenOne(PutStack(st));
    assert seq(1, k requires 0 <= k < 1 => PutStack([st][k])) == [PutStack(st)];
  }

  /** The bytes are the standard serialization of that transaction. */
  lemma BytesAreTx(req: Request, recon: Recon, dest: seq<byte>)
    requires Sizes(req, recon, dest) && GoodTx(AsTx(req, recon, dest))
    ensures SignedBytes(req, recon, dest) == PutTx(AsTx(req, recon, dest))
  {
    Pow256Values();
    var tx := AsTx(req, recon, dest);
    assert GoodIn(tx.ins[0]) && GoodOut(tx.outs[0]);
    PutOneIn(tx.ins[0]);
    PutOneOut(tx.outs[0]);
    assert GoodStack(tx.witnesses[0]);
    PutOneStack(Signed(req, recon, dest), recon.script, recon.control);
    assert PutVarBytes([]) == VarInt(0);
    Reassociate(LE(VERSION, 4), [0x00, 0x01], VarInt(1), Reverse(req.lockupTxid), LE(req.lockupVout, 4), VarInt(0),
                LE(SEQUENCE, 4), JoinOutputs(tx.outs),
                WitnessBytes(Signed(req, recon, dest), recon.script, recon.control), LE(req.timeout, 4));
    assert PutIn(tx.ins[0]) == Reverse(req.lockupTxid) + LE(req.lockupVout, 4) + VarInt(0) + LE(SEQUENCE, 4);
  }

  lemma Reassociate(v: seq<byte>, m: seq<byte>, n: seq<byte>, t: seq<byte>, i: seq<byte>, z: seq<byte>, q: seq<byte>,
                    o: seq<byte>, w: seq<byte>, l: seq<byte>)
    ensures v + m + n + t + i + z + q + n + o + w + l == v + (m + (n + (t + i + z + q) + (n + o + (w + l))))
  {
  }

  /** The signed digest is the one BIP-341 and BIP-342 define for that transaction spending that
      output by that leaf. */
  lemma DigestAgrees(req: Request, recon: Recon, dest: seq<byte>)
    requires Sizes(req, recon, dest) && GoodTx(AsTx(req, recon, dest)) && GoodOuts([Lockup(req, recon)])
    ensures Signed(req, recon, dest)
         == SchnorrSign(req.secret,
              TapscriptSighash(AsTx(req, recon, dest), [Lockup(req, recon)], 0, Leaf(recon.script)))
  {
    var tx := AsTx(req, recon, dest);
    var spent := [Lockup(req, recon)];
    assert GoodOut(tx.outs[0]);
    PutOneOut(tx.outs[0]);
    assert tx.ins[..0] == [] && spent[..0] == [];
    assert Prevouts(tx.ins) == Reverse(req.lockupTxid) + LE(req.lockupVout, 4);
    assert Sequences(tx.ins) == LE(SEQUENCE, 4);
    assert Amounts(spent) == LE(req.lockupValue, 8);
    assert Scripts(spent) == VarInt(|LockScript(recon)|) + LockScript(recon);
  }

  /** A parsed input always has a 32-byte hash. */
  lemma {:induction false} TakenHashes(n: nat, b: seq<byte>)
    requires TakeMany(TakeIn, n, b).Some?
    ensures |TakeMany(TakeIn, n, b).value.0| == n
    ensures forall i :: 0 <= i < n ==> |TakeMany(TakeIn, n, b).value.0[i].prevHash| == 32
  {
    if n > 0 {
      TakenHashes(n - 1, b);
    }
  }

  lemma RefundBytes(req: Request)
    requires Refund(req).Ok?
    ensures FirstMatch(req, 0).Ok? && Address.SpkFromAddress(req.destination).Ok?
    ensures var recon, dest := FirstMatch(req, 0).value, Address.SpkFromAddress(req.destination).value;
      Sizes(req, recon, dest) && Refund(req) == Ok(SignedBytes(req, recon, dest))
  {
    ScriptSizes(req, FirstMatch(req, 0).value, Address.SpkFromAddress(req.destination).value);
  }

  lemma ParsedHashes(b: seq<byte>)
    requires ParseTx(b).Some?
    ensures forall i :: 0 <= i < |ParseTx(b).value.ins| ==> |ParseTx(b).value.ins[i].prevHash| == 32
  {
    var body := TakeInt(b, 4).value.1[2..];
    var (n, rest) := TakeVarInt(body).value;
    TakenHashes(n, rest);
  }

  lemma BytesParse(req: Request, recon: Recon, dest: seq<byte>)
    requires Sizes(req, recon, dest)
    ensures ParseTx(SignedBytes(req, recon, dest)) == Some(AsTx(req, recon, dest)) <==> |req.lockupTxid| == 32
  {
    var b := SignedBytes(req, recon, dest);
    if |req.lockupTxid| == 32 {
      AsTxGood(req, recon, dest);
      BytesAreTx(req, recon, dest);
      ParsePut(AsTx(req, recon, dest));
    } else if ParseTx(b).Some? {
      ParsedHashes(b);
      assert |AsTx(req, recon, dest).ins[0].prevHash| != 32;
    }
  }

  /** The transaction the refund of a request is meant to be. */
  function Intended(req: Request): Tx
    requires Refund(req).Ok?
  {
    RefundBytes(req);
    AsTx(req, FirstMatch(req, 0).value, Address.SpkFromAddress(req.destination).value)
  }

  /** Serialise and parse agree. What the builder returns parses back to the intended refund,
      exactly when the lockup id was a 32-byte transaction id. */
  lemma RefundParses(req: Request)
    requires Refund(req).Ok?
    ensures ParseTx(Refund(req).value) == Some(Intended(req)) <==> |req.lockupTxid| == 32
  {
    RefundBytes(req);
    BytesParse(req, FirstMatch(req, 0).value, Address.SpkFromAddress(req.destination).value);
  }

  /** What a transaction that spends the funded lockup by the refund leaf has to be: it spends the
      outpoint named in the request, the script it spends is the one the funded address decodes to,
      it pays the destination's script the lockup value less the fee, and its signature is over the
      standard digest of this very transaction. */
  ghost predicate RefundOf(req: Request, tx: Tx, control: seq<byte>) {
    && Address.SpkFromAddress(req.lockupAddress).Ok? && Address.SpkFromAddress(req.destination).Ok?
    && 0 <= req.lockupVout && 0 <= req.lockupValue && 0 <= req.timeout && |req.refundScript| <= 255
    && var lockup := TxOut(req.lockupValue, Address.SpkFromAddress(req.lockupAddress).value);
       && GoodTx(tx) && GoodOuts([lockup])
       && tx.version == 2 && tx.ins == [TxIn(Reverse(req.lockupTxid), req.lockupVout, [], 0xFFFF_FFFE)]
       && |tx.outs| == 1 && tx.outs[0].amount + req.fee == req.lockupValue && tx.outs[0].amount > 0
       && tx.outs[0].script == Address.SpkFromAddress(req.destination).value
       && tx.lockTime == req.timeout
       && tx.witnesses == [[SchnorrSign(req.secret, TapscriptSighash(tx, [lockup], 0, Leaf(req.refundScript))),
                            req.refundScript, control]]
  }

  /** Sign and serialise agree: the parsed bytes are a refund in that sense. */
  lemma RefundAgrees(req: Request)
    requires Refund(req).Ok? && |req.lockupTxid| == 32
    ensures ParseTx(Refund(req).value).Some? && FirstMatch(req, 0).Ok?
    ensures RefundOf(req, ParseTx(Refund(req).value).value, FirstMatch(req, 0).value.control)
  {
    RefundBytes(req);
    var recon, dest := FirstMatch(req, 0).value, Address.SpkFromAddress(req.destination).value;
    RefundParses(req);
    IntendedIsRefund(req, recon, dest);
  }

  lemma IntendedIsRefund(req: Request, recon: Recon, dest: seq<byte>)
    requires FirstMatch(req, 0) == Ok(recon) && Address.SpkFromAddress(req.destination) == Ok(dest)
    requires Sizes(req, recon, dest) && |req.lockupTxid| == 32
    ensures RefundOf(req, AsTx(req, recon, dest), recon.control)
  {
    AsTxGood(req, recon, dest);
    DigestAgrees(req, recon, dest);
    var order := MatchFound(req, 0, recon);
    ReconSizes(req.claimKey, PublicKeyOf(req.secret), req.claimScript, req.refundScript, order);
    LockupDecodes(req, recon);
  }

  lemma LockupDecodes(req: Request, recon: Recon)
    requires |recon.outkey| == 32 && TaprootAddress(recon.outkey, req.network) == req.lockupAddress
    ensures Address.SpkFromAddress(req.lockupAddress) == Ok(LockScript(recon))
  {
    var hrp := if req.network in SEGWIT_HRP then SEGWIT_HRP[req.network] else "bcrt";
    Address.AddressRoundTrip(hrp, 1, recon.outkey);
  }

  /** The witness's control block passes validation against the funded output, when the keys are
      points and the tweak needs no reduction. */
  lemma RefundSpendsLockup(req: Request)
    requires Refund(req).Ok?
    requires KeysCanonical(req.claimKey, PublicKeyOf(req.secret)) && |req.claimScript| < 253 && |req.refundScript| < 253
    ensures FirstMatch(req, 0).Ok?
    ensures var recon := FirstMatch(req, 0).value;
      ScriptCommitted(recon.outkey, recon.control, req.refundScript)
      <==> Tweak(recon.ikey, Branch(Leaf(req.refundScript), Leaf(req.claimScript))) < Curve.N
  {
    var recon := FirstMatch(req, 0).value;
    var order := MatchFound(req, 0, recon);
    ControlBlockValid(req.claimKey, PublicKeyOf(req.secret), req.claimScript, req.refundScript, order);
  }

  // ----- when there is a refund, and when not -----

  /** The orders before order i were reconstructed and gave other addresses. */
  ghost predicate PassedOver(req: Request, i: nat) {
    i <= 3 && forall j :: 0 <= j < i ==> GivesAnother(req, ORDERS[j])
  }

  ghost predicate GivesAnother(req: Request, order: AggOrder) {
    match ReconstructFor(req, order)
    case Err(_) => false
    case Ok(recon) => TaprootAddress(recon.outkey, req.network) != req.lockupAddress
  }

  ghost predicate FoundAt(req: Request, i: nat, recon: Recon) {
    && i < 3 && PassedOver(req, i) && ReconstructFor(req, ORDERS[i]) == Ok(recon)
    && TaprootAddress(recon.outkey, req.network) == req.lockupAddress
  }

  lemma {:induction false} SearchFrom(req: Request, i: nat)
    requires PassedOver(req, i)
    ensures FirstMatch(req, i).Ok? ==> exists j :: FoundAt(req, j, FirstMatch(req, i).value)
    ensures FirstMatch(req, i) == Err(AddressMismatch) <==> PassedOver(req, 3)
    decreases 3 - i
  {
    if i < 3 {
      SearchStep(req, i);
      if GivesAnother(req, ORDERS[i]) {
        assert PassedOver(req, i + 1);
        SearchFrom(req, i + 1);
      } else if FirstMatch(req, i).Ok? {
        assert FoundAt(req, i, FirstMatch(req, i).value);
      }
    }
  }

  lemma SearchStep(req: Request, i: nat)
    requires i < 3
    ensures GivesAnother(req, ORDERS[i]) ==> FirstMatch(req, i) == FirstMatch(req, i + 1)
    ensures !GivesAnother(req, ORDERS[i]) ==> FirstMatch(req, i) == ReconstructFor(req, ORDERS[i])
    ensures FirstMatch(req, i).Ok? && !GivesAnother(req, ORDERS[i]) ==>
      TaprootAddress(FirstMatch(req, i).value.outkey, req.network) == req.lockupAddress
    ensures ReconstructFor(req, ORDERS[i]) != Err(AddressMismatch)
  {
  }

  /** What is returned is the first of the three reconstructions whose address is the funded one, and the
      search ends in a mismatch exactly if all three can be made and none has that address. */
  lemma SearchFinds(req: Request)
    ensures FirstMatch(req, 0).Ok? ==> exists j :: FoundAt(req, j, FirstMatch(req, 0).value)
    ensures FirstMatch(req, 0) == Err(AddressMismatch) <==> PassedOver(req, 3)
    ensures ORDERS == [ClaimFirst, RefundFirst, Sorted]
  {
    SearchFrom(req, 0);
  }

  /** There is a refund exactly if the address was found, the destination can be read, something is left
      after the fee, and every number fits its field. */
  lemma RefundExactly(req: Request)
    ensures Refund(req).Ok?
      <==> && FirstMatch(req, 0).Ok? && Address.SpkFromAddress(req.destination).Ok? && req.lockupValue > req.fee
           && 0 <= req.lockupVout < 0x1_0000_0000 && 0 <= req.timeout < 0x1_0000_0000
           && 0 <= req.lockupValue < 0x1_0000_0000_0000_0000 && req.lockupValue - req.fee < 0x1_0000_0000_0000_0000
    ensures FirstMatch(req, 0).Ok? && Address.SpkFromAddress(req.destination).Ok? ==>
      (Refund(req) == Err(FeeExceedsValue) <==> req.lockupValue <= req.fee)
  {
    if Refund(req).Ok? {
      RefundBytes(req);
    }
  }

  /** The four networks' prefixes, and the one of a network that is none of them. */
  lemma Prefixes(outkey: seq<byte>)
    ensures TaprootAddress(outkey, "mainnet") == Address.Bech32mAddr("bc", 1, outkey)
    ensures TaprootAddress(outkey, "testnet") == Address.Bech32mAddr("tb", 1, outkey) == TaprootAddress(outkey, "signet")
    ensures forall net | net !in ["mainnet", "testnet", "signet"] :: TaprootAddress(outkey, net) == Address.Bech32mAddr("bcrt", 1, outkey)
  {
  }
}
