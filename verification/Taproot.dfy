/** Rebuilding the Boltz lockup output: BIP-327 key aggregation, the BIP-341 tweak and the control
    block of the refund leaf. */
module Taproot {
  import opened Results
  import opened Bytes
  import opened Curve

  datatype Error = NotOnCurve | NoKey | AtInfinity | Overflow | ScriptTooLong

  // ----- keys -----

  /** `_parse_pub` */
  function ParsePub(pk: seq<byte>): Result<Point, Error> {
    if pk == [] then Err(NoKey)
    else match LiftX(FromBE(pk[1..]))
      case None => Err(NotOnCurve)
      case Some(A) =>
        if A.Infinity? then Err(NotOnCurve)
        else if pk[0] == 3 then Ok(Affine(A.x, P - A.y))
        else Ok(A)
  }

  /** The code checks neither that the coordinate is below P nor that a key with y = 0 is not marked
      odd; its result is a point of the curve exactly when both hold. */
  lemma ParsePubCanonical(pk: seq<byte>)
    requires ParsePub(pk).Ok?
    ensures OnCurve(ParsePub(pk).value)
       <==> FromBE(pk[1..]) < P && !(pk[0] == 3 && LiftX(FromBE(pk[1..])).value.y == 0)
  {
    var x := FromBE(pk[1..]);
    LiftXSound(x);
    var A := LiftX(x).value;
    OppositeSquare(P, A.y);
    CurveEqShift(A.x, A.y, P - A.y, (P - A.y) * (P - A.y) - A.y * A.y);
  }

  /** The first key that differs from the first one. */
  function Second(pks: seq<seq<byte>>, i: nat): Option<seq<byte>>
    decreases |pks| - i
  {
    if i >= |pks| then None else if pks[i] != pks[0] then Some(pks[i]) else Second(pks, i + 1)
  }

  function Join(pks: seq<seq<byte>>): seq<byte> {
    if pks == [] then [] else Join(pks[..|pks| - 1]) + pks[|pks| - 1]
  }

  /** The BIP-327 coefficient of one key in a list. */
  function Coefficient(pks: seq<seq<byte>>, pk: seq<byte>): nat {
    if Second(pks, 0) == Some(pk) then 1
    else FromBE(Tagged("KeyAgg coefficient", Tagged("KeyAgg list", Join(pks)) + pk)) % N
  }

  /** The sum of the first n keys, each times its coefficient. */
  function KeySum(pks: seq<seq<byte>>, n: nat): Result<Point, Error>
    requires n <= |pks|
  {
    if n == 0 then Ok(Infinity)
    else
      var Q :- KeySum(pks, n - 1);
      var A :- ParsePub(pks[n - 1]);
      Ok(Add(Q, Times(Coefficient(pks, pks[n - 1]), A)))
  }

  ghost predicate KeysOnCurve(pks: seq<seq<byte>>) {
    forall i :: 0 <= i < |pks| ==> ParsePub(pks[i]).Ok? ==> OnCurve(ParsePub(pks[i]).value)
  }

  lemma {:induction false} KeySumOnCurve(pks: seq<seq<byte>>, n: nat)
    requires n <= |pks| && KeysOnCurve(pks) && KeySum(pks, n).Ok?
    ensures OnCurve(KeySum(pks, n).value)
  {
    if n > 0 {
      KeySumOnCurve(pks, n - 1);
      var A := ParsePub(pks[n - 1]).value;
      var a := Coefficient(pks, pks[n - 1]);
      TimesClosed(a, A);
      AddClosed(KeySum(pks, n - 1).value, Times(a, A));
    }
  }

  /** `_key_agg` */
  method KeyAgg(pks: seq<seq<byte>>) returns (r: Result<Point, Error>)
    ensures Associative() && KeysOnCurve(pks) ==> r == KeySum(pks, |pks|)
    ensures r.Err? <==> exists i :: 0 <= i < |pks| && ParsePub(pks[i]).Err?
  {
    var Q := Infinity;
    for i := 0 to |pks|
      invariant forall j :: 0 <= j < i ==> ParsePub(pks[j]).Ok?
      invariant Associative() && KeysOnCurve(pks) ==> KeySum(pks, i) == Ok(Q)
    {
      var A := ParsePub(pks[i]);
      if A.Err? {
        if Associative() && KeysOnCurve(pks) {
          KeySumFails(pks, i + 1, |pks|);
        }
        return Err(A.error);
      }
      var aA := PMul(Coefficient(pks, pks[i]), A.value);
      Q := Add(Q, aA);
    }
    r := Ok(Q);
  }

  lemma {:induction false} KeySumFails(pks: seq<seq<byte>>, m: nat, n: nat)
    requires m <= n <= |pks| && KeySum(pks, m).Err?
    ensures KeySum(pks, n) == KeySum(pks, m)
  {
    if m < n {
      KeySumFails(pks, m, n - 1);
    }
  }

  // ----- leaves and branches -----

  /** `_leaf_hash`: the length is written as one byte. */
  function LeafHash(script: seq<byte>): Result<Digest, Error> {
    if |script| > 255 then Err(ScriptTooLong)
    else Ok(Leaf(script))
  }

  function Leaf(script: seq<byte>): Digest
    requires |script| <= 255
  {
    Tagged("TapLeaf", [0xC0, |script|] + script)
  }

  function Branch(a: seq<byte>, b: seq<byte>): Digest {
    Tagged("TapBranch", Min(a, b) + Max(a, b))
  }

  /** The branch hash does not depend on which leaf is the spent one. */
  lemma BranchSymmetric(a: seq<byte>, b: seq<byte>)
    ensures Branch(a, b) == Branch(b, a)
  {
    LexTotal(a, b);
  }

  // ----- `reconstruct_taproot` -----

  datatype AggOrder = ClaimFirst | RefundFirst | Sorted

  datatype Recon = Recon(ikey: seq<byte>, outkey: seq<byte>, parity: nat, control: seq<byte>, script: seq<byte>)

  function AggKeys(claim: seq<byte>, refund: seq<byte>, order: AggOrder): seq<seq<byte>> {
    match order
    case RefundFirst => [refund, claim]
    case Sorted => [Min(claim, refund), Max(claim, refund)]
    case ClaimFirst => [claim, refund]
  }

  /** The even-Y point that the x-only internal key stands for. */
  function Evened(A: Point): Point
    requires A.Affine?
  {
    if EvenY(A) then A else Neg(A)
  }

  function InternalKey(keys: seq<seq<byte>>): Result<Point, Error> {
    var A :- KeySum(keys, |keys|);
    if A.Infinity? then Err(AtInfinity)
    else if Evened(A).x < 0 || Evened(A).x >= TWO_256 then Err(Overflow)
    else Ok(Evened(A))
  }

  /** The integer of the "TapTweak" digest, before the code reduces it. */
  function Tweak(ikey: seq<byte>, root: seq<byte>): nat {
    FromBE(Tagged("TapTweak", ikey + root))
  }

  function Reconstruct(claim: seq<byte>, refund: seq<byte>, claimScript: seq<byte>, refundScript: seq<byte>,
                       order: AggOrder): Result<Recon, Error>
  {
    var internal :- InternalKey(AggKeys(claim, refund, order));
    var ikey := BE(internal.x, 32);
    var refundLeaf :- LeafHash(refundScript);
    var claimLeaf :- LeafHash(claimScript);
    Published(ikey, Add(internal, Times(Tweak(ikey, Branch(refundLeaf, claimLeaf)) % N, G)), claimLeaf, refundScript)
  }

  /** The output key, its parity, and the control block of the refund leaf. */
  function Published(ikey: seq<byte>, Q: Point, claimLeaf: Digest, refundScript: seq<byte>): Result<Recon, Error> {
    match Q
    case Infinity => Err(AtInfinity)
    case Affine(x, y) =>
      if x < 0 || x >= TWO_256 then Err(Overflow)
      else
        var parity := if EvenY(Q) then 0 else 1;
        Ok(Recon(ikey, BE(x, 32), parity, [0xC0 + parity] + ikey + claimLeaf, refundScript))
  }

  lemma ReconSizes(claim: seq<byte>, refund: seq<byte>, claimScript: seq<byte>, refundScript: seq<byte>, order: AggOrder)
    requires Reconstruct(claim, refund, claimScript, refundScript, order).Ok?
    ensures var r := Reconstruct(claim, refund, claimScript, refundScript, order).value;
      |r.control| == 65 && |r.outkey| == 32 && |r.ikey| == 32 && r.parity < 2
      && r.script == refundScript && |refundScript| <= 255 && |claimScript| <= 255
  {
  }

  ghost predicate KeysCanonical(claim: seq<byte>, refund: seq<byte>) {
    KeysOnCurve([claim, refund])
  }

  lemma OrderedOnCurve(claim: seq<byte>, refund: seq<byte>, order: AggOrder)
    requires KeysCanonical(claim, refund)
    ensures KeysOnCurve(AggKeys(claim, refund, order))
  {
    assert [claim, refund][0] == claim && [claim, refund][1] == refund;
  }

  /** `reconstruct_taproot`, with the loops of `_key_agg` and `_pmul`. Of a key that is not a point of the
      curve the loops make something else than the sums, and nothing is promised. */
  method ReconstructTaproot(claim: seq<byte>, refund: seq<byte>, claimScript: seq<byte>, refundScript: seq<byte>,
                            order: AggOrder) returns (r: Result<Recon, Error>)
    ensures Associative() && KeysCanonical(claim, refund) ==> r == Reconstruct(claim, refund, claimScript, refundScript, order)
    ensures r.Ok? ==> |r.value.control| == 65 && |r.value.outkey| == 32 && |r.value.script| <= 255
  {
    var keys := AggKeys(claim, refund, order);
    if KeysCanonical(claim, refund) {
      OrderedOnCurve(claim, refund, order);
    }
    var sum := KeyAgg(keys);
    if sum.Err? {
      return Err(sum.error);
    }
    if sum.value.Infinity? {
      return Err(AtInfinity);
    }
    var internal := if EvenY(sum.value) then sum.value else Neg(sum.value);
    if internal.x < 0 || internal.x >= TWO_256 {
      return Err(Overflow);
    }
    var ikey := BE(internal.x, 32);
    var refundLeaf := LeafHash(refundScript);
    if refundLeaf.Err? {
      return Err(refundLeaf.error);
    }
    var claimLeaf := LeafHash(claimScript);
    if claimLeaf.Err? {
      return Err(claimLeaf.error);
    }
    var tG := PMul(Tweak(ikey, Branch(refundLeaf.value, claimLeaf.value)) % N, G);
    var Q := Add(internal, tG);
    if Q.Infinity? {
      return Err(AtInfinity);
    }
    if Q.x < 0 || Q.x >= TWO_256 {
      return Err(Overflow);
    }
    var parity := if EvenY(Q) then 0 else 1;
    r := Ok(Recon(ikey, BE(Q.x, 32), parity, [0xC0 + parity] + ikey + claimLeaf.value, refundScript));
  }

  // ----- BIP-341, "Script validation rules" -----

  /** `lift_x` of BIP-340: it fails on a coordinate that is not reduced. */
  function LiftXStrict(x: nat): Option<Point> {
    if x >= P then None else LiftX(x)
  }

  /** The Merkle root reached from a leaf by folding in the hashes of the path. */
  function PathRoot(k: seq<byte>, path: seq<byte>): seq<byte>
    decreases |path|
  {
    if |path| < 32 then k else PathRoot(Branch(k, path[..32]), path[32..])
  }

  /** A witness with this script and control block may spend the output with x-only key q, as far as
      the commitment to the script goes. */
  ghost predicate ScriptCommitted(q: seq<byte>, control: seq<byte>, script: seq<byte>) {
    && |control| >= 33 && (|control| - 33) % 32 == 0 && (|control| - 33) / 32 <= 128
    && |script| < Pow256(8)
    && Commits(q, control[1..33], control[33..], control[0] - control[0] % 2, control[0] % 2, script)
  }

  ghost predicate Commits(q: seq<byte>, p: seq<byte>, path: seq<byte>, leafVersion: byte, parity: nat, script: seq<byte>)
    requires |script| < Pow256(8)
  {
    var k := PathRoot(Tagged("TapLeaf", [leafVersion] + VarInt(|script|) + script), path);
    match LiftXStrict(FromBE(p))
    case None => false
    case Some(internal) => Tweak(p, k) < N && IsOutput(Add(internal, Times(Tweak(p, k), G)), q, parity)
  }

  ghost predicate IsOutput(Q: Point, q: seq<byte>, parity: nat) {
    Q.Affine? && 0 <= Q.x && q == BE(Q.x, 32) && parity == Q.y % 2
  }

  // ----- the control block passes -----

  /** BIP-341 writes a script's length in CompactSize; the code writes one byte. The two agree
      exactly on scripts shorter than 253 bytes. */
  lemma LeafPreimage(script: seq<byte>)
    requires |script| <= 255
    ensures |script| < Pow256(8)
    ensures [0xC0, |script|] + script == [0xC0] + VarInt(|script|) + script <==> |script| < 253
  {
    Pow256Values();
    var a, b := [0xC0, |script|] + script, [0xC0] + VarInt(|script|) + script;
    if |script| < 253 {
      assert a == b;
    } else {
      assert |a| != |b|;
    }
  }

  lemma EvenedIsLift(A: Point)
    requires OnCurve(A) && A.Affine?
    ensures OnCurve(Evened(A)) && Evened(A).Affine? && EvenY(Evened(A))
    ensures LiftXStrict(Evened(A).x) == Some(Evened(A))
  {
    NegInverse(A);
    if !EvenY(A) {
      OppositeParity(A.y);
    }
    LiftXComplete(Evened(A));
  }

  lemma OppositeParity(y: int)
    requires 0 < y < P && y % 2 == 1
    ensures (P - y) % P == P - y && (P - y) % 2 == 0
  {
    ModSmallP(P - y);
  }

  lemma InternalOnCurve(claim: seq<byte>, refund: seq<byte>, order: AggOrder)
    requires KeysCanonical(claim, refund) && InternalKey(AggKeys(claim, refund, order)).Ok?
    ensures var A := InternalKey(AggKeys(claim, refund, order)).value;
      OnCurve(A) && A.Affine? && EvenY(A) && LiftXStrict(A.x) == Some(A)
  {
    var keys := AggKeys(claim, refund, order);
    OrderedOnCurve(claim, refund, order);
    KeySumOnCurve(keys, |keys|);
    EvenedIsLift(KeySum(keys, |keys|).value);
  }

  lemma ControlParts(b: nat, ikey: seq<byte>, sibling: seq<byte>, control: seq<byte>)
    requires b < 2 && |ikey| == 32 && |sibling| == 32 && control == [0xC0 + b] + ikey + sibling
    ensures |control| == 65 && control[1..33] == ikey && control[33..] == sibling
    ensures control[0] % 2 == b && control[0] - control[0] % 2 == 0xC0
  {
  }

  lemma RootOfPair(script: seq<byte>, sibling: seq<byte>)
    requires |script| < 253 && |sibling| == 32
    ensures |script| < Pow256(8)
    ensures PathRoot(Tagged("TapLeaf", [0xC0] + VarInt(|script|) + script), sibling) == Branch(Leaf(script), sibling)
  {
    LeafPreimage(script);
    assert sibling[..32] == sibling && sibling[32..] == [];
  }

  /** Validation of one leaf, given the output the code computed with the reduced tweak. */
  lemma LeafValidates(internal: Point, script: seq<byte>, sibling: seq<byte>, control: seq<byte>, Q: Point)
    requires OnCurve(internal) && internal.Affine? && LiftXStrict(internal.x) == Some(internal)
    requires |script| < 253 && |sibling| == 32 && OnCurve(Q) && Q.Affine?
    requires Q == Add(internal, Times(Tweak(BE(internal.x, 32), Branch(Leaf(script), sibling)) % N, G))
    requires control == [0xC0 + Q.y % 2] + BE(internal.x, 32) + sibling
    ensures ScriptCommitted(BE(Q.x, 32), control, script)
       <==> Tweak(BE(internal.x, 32), Branch(Leaf(script), sibling)) < N
  {
    Pow256Values();
    FromBEInverse(internal.x, 32);
    var ikey := BE(internal.x, 32);
    ControlParts(Q.y % 2, ikey, sibling, control);
    RootOfPair(script, sibling);
    var t := Tweak(ikey, Branch(Leaf(script), sibling));
    if t < N {
      SmallTweak(t);
    }
    assert IsOutput(Q, BE(Q.x, 32), control[0] % 2);
  }

  lemma SmallTweak(t: nat)
    requires t < N
    ensures t % N == t
  {
  }

  /** The pieces of a reconstruction: the internal point and the output point. */
  lemma ReconstructParts(claim: seq<byte>, refund: seq<byte>, claimScript: seq<byte>, refundScript: seq<byte>,
                         order: AggOrder) returns (internal: Point, Q: Point)
    requires Reconstruct(claim, refund, claimScript, refundScript, order).Ok?
    ensures InternalKey(AggKeys(claim, refund, order)) == Ok(internal) && internal.Affine? && 0 <= internal.x
    ensures |claimScript| <= 255 && |refundScript| <= 255
    ensures Q == Add(internal, Times(Tweak(BE(internal.x, 32), Branch(Leaf(refundScript), Leaf(claimScript))) % N, G))
    ensures Q.Affine? && 0 <= Q.x
    ensures Reconstruct(claim, refund, claimScript, refundScript, order).value
         == Recon(BE(internal.x, 32), BE(Q.x, 32), Q.y % 2, [0xC0 + Q.y % 2] + BE(internal.x, 32) + Leaf(claimScript),
                  refundScript)
  {
    internal := InternalKey(AggKeys(claim, refund, order)).value;
    Q := Add(internal, Times(Tweak(BE(internal.x, 32), Branch(Leaf(refundScript), Leaf(claimScript))) % N, G));
    PublishedParts(BE(internal.x, 32), Q, Leaf(claimScript), refundScript);
  }

  lemma PublishedParts(ikey: seq<byte>, Q: Point, claimLeaf: Digest, refundScript: seq<byte>)
    requires Published(ikey, Q, claimLeaf, refundScript).Ok?
    ensures Q.Affine? && 0 <= Q.x
    ensures Published(ikey, Q, claimLeaf, refundScript).value
         == Recon(ikey, BE(Q.x, 32), Q.y % 2, [0xC0 + Q.y % 2] + ikey + claimLeaf, refundScript)
  {
  }

  lemma OutputOnCurve(internal: Point, t: nat)
    requires OnCurve(internal)
    ensures OnCurve(Add(internal, Times(t, G)))
  {
    TimesClosed(t, G);
    AddClosed(internal, Times(t, G));
  }

  /** The control block of a reconstruction passes BIP-341's validation of the refund leaf against
      the reconstructed output key exactly when the tweak is below the group order (the code
      reduces it, the rules reject it); and so does the claim leaf's, with the sibling swapped. */
  lemma ControlBlockValid(claim: seq<byte>, refund: seq<byte>, claimScript: seq<byte>, refundScript: seq<byte>,
                          order: AggOrder)
    requires KeysCanonical(claim, refund) && |claimScript| < 253 && |refundScript| < 253
    requires Reconstruct(claim, refund, claimScript, refundScript, order).Ok?
    ensures var r := Reconstruct(claim, refund, claimScript, refundScript, order).value;
      var inRange := Tweak(r.ikey, Branch(Leaf(refundScript), Leaf(claimScript))) < N;
      && (ScriptCommitted(r.outkey, r.control, refundScript) <==> inRange)
      && r.parity < 2
      && (ScriptCommitted(r.outkey, [0xC0 + r.parity] + r.ikey + Leaf(refundScript), claimScript) <==> inRange)
  {
    var internal, Q := ReconstructParts(claim, refund, claimScript, refundScript, order);
    InternalOnCurve(claim, refund, order);
    BranchSymmetric(Leaf(refundScript), Leaf(claimScript));
    var r := Reconstruct(claim, refund, claimScript, refundScript, order).value;
    OutputOnCurve(internal, Tweak(r.ikey, Branch(Leaf(refundScript), Leaf(claimScript))) % N);
    LeafValidates(internal, refundScript, Leaf(claimScript), r.control, Q);
    LeafValidates(internal, claimScript, Leaf(refundScript), [0xC0 + r.parity] + r.ikey + Leaf(refundScript), Q);
  }
}
