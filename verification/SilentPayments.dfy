/** BIP-352 outputs derived from public inputs (helpers/_payjoin_sp_check.py), from private ones
    (helpers/wallet.py), and what makes the result spendable. Points are those of module Curve;
    the libsecp256k1 wrappers of helpers/curve_native.py are modelled by the group they implement. */
module SilentPayments {
  import opened NumberTheory
  import opened Results
  import opened Bytes
  import opened Curve
  import opened Sequences

  // ----- helpers/curve_native.py; None is an exception -----

  predicate ValidPoint(A: Point) {
    A.Affine? ==> 0 <= A.x < P && 0 <= A.y < P && (A.y * A.y - A.x * A.x * A.x - 7) % P == 0
  }

  lemma ValidIsOnCurve(A: Point)
    ensures ValidPoint(A) <==> OnCurve(A)
  {
    if A.Affine? {
      ModZero(P, A.y * A.y - A.x * A.x * A.x - 7);
    }
  }

  /** `pubkey_point_gen_from_int` */
  function PubPoint(d: nat): Option<Point> {
    if d % N == 0 then None else Some(Times(d % N, G))
  }

  /** `point_add` */
  function PointAdd(A: Point, B: Point): Option<Point> {
    if A.Infinity? then Some(B)
    else if B.Infinity? then Some(A)
    else if A.x == B.x && A.y != B.y then Some(Infinity)
    else if !ValidPoint(A) || !ValidPoint(B) then None
    else Some(Add(A, B))
  }

  /** `point_mul` */
  function PointMul(A: Point, d: nat): Option<Point> {
    if A.Infinity? || d % N == 0 then Some(Infinity)
    else if !ValidPoint(A) then None
    else Some(Times(d % N, A))
  }

  // ----- keys on the wire -----

  /** `ser256`; no coordinate is ever negative. */
  function Ser256(x: int): seq<byte> {
    BE(if x < 0 then 0 else x, 32)
  }

  /** `bytes([0x02 + y % 2]) + ser256(x)` */
  function Ser(A: Point): seq<byte>
    requires A.Affine?
  {
    [2 + A.y % 2] + Ser256(A.x)
  }

  /** `_spk` */
  function Spk(A: Point): seq<byte>
    requires A.Affine?
  {
    [0x51, 0x20] + Ser256(A.x)
  }

  /** `compressed_pubkey_to_point`: nothing checks that the result is on the curve. */
  function DecodePoint(pk: seq<byte>): Option<Point> {
    if pk == [] then None
    else Some(PointAt(FromBE(if |pk| < 33 then pk[1..] else pk[1..33]), pk[0] == 2))
  }

  /** The candidate square root at x, or its opposite, with the parity asked for. */
  function PointAt(x: int, even: bool): Point {
    var y := Pow((Pow(x, 3) % P + 7) % P, (P + 1) / 4) % P;
    Affine(x, if (y % 2 == 0) != even then P - y else y)
  }

  // ----- inputs -----

  datatype Input = Input(pub: seq<byte>, outpoint: seq<byte>, taproot: bool)

  datatype SecretInput = SecretInput(key: nat, outpoint: seq<byte>, taproot: bool)

  /** The point one input adds to the sum. */
  function Contribution(i: Input): Option<Point> {
    if !i.taproot then DecodePoint(i.pub)
    else if |i.pub| != 32 then None
    else DecodePoint([2] + i.pub)
  }

  function Contributions(inputs: seq<Input>): Option<seq<Point>> {
    Collect(Contribution, inputs)
  }

  function SumPoints(pts: seq<Point>): Option<Point> {
    if pts == [] then Some(Infinity)
    else
      match SumPoints(pts[..|pts| - 1])
      case None => None
      case Some(A) => PointAdd(A, pts[|pts| - 1])
  }

  function MinOutpoint(outpoints: seq<seq<byte>>): seq<byte>
    requires outpoints != []
  {
    if |outpoints| == 1 then outpoints[0]
    else Min(MinOutpoint(outpoints[..|outpoints| - 1]), outpoints[|outpoints| - 1])
  }

  function Outpoints(inputs: seq<Input>): (r: seq<seq<byte>>)
    ensures |r| == |inputs|
  {
    seq(|inputs|, i requires 0 <= i < |inputs| => inputs[i].outpoint)
  }

  function InputHash(outpoints: seq<seq<byte>>, A: Point): nat
    requires outpoints != [] && A.Affine?
  {
    FromBE(Tagged("BIP0352/Inputs", MinOutpoint(outpoints) + Ser(A)))
  }

  /** t_k */
  function OutputTweak(shared: Point, k: nat): nat
    requires shared.Affine? && k < Pow256(4)
  {
    FromBE(Tagged("BIP0352/SharedSecret", Ser(shared) + BE(k, 4)))
  }

  /** B_spend + t_k * G */
  function PayTo(spendPub: seq<byte>, shared: Point, k: nat): Option<Point> {
    if shared.Infinity? || k >= Pow256(4) then None
    else
      match (DecodePoint(spendPub), PubPoint(OutputTweak(shared, k)))
      case (Some(B), Some(T)) => PointAdd(B, T)
      case _ => None
  }

  /** A sum of input keys, when it is a point with coordinates. */
  function FiniteSum(pts: Option<seq<Point>>): Option<Point> {
    if pts.None? || pts.value == [] then None
    else
      match SumPoints(pts.value)
      case Some(Affine(x, y)) => Some(Affine(x, y))
      case _ => None
  }

  function PublicSum(inputs: seq<Input>): Option<Point> {
    FiniteSum(Contributions(inputs))
  }

  /** The ECDH point of `sp_output_point_from_public_inputs`; Infinity is Python's None. */
  function SharedPoint(scan: seq<byte>, inputs: seq<Input>): Option<Point> {
    match PublicSum(inputs)
    case Some(Affine(x, y)) =>
      PointMul(Affine(x, y), ((FromBE(scan) % N) * InputHash(Outpoints(inputs), Affine(x, y))) % N)
    case _ => None
  }

  function OutputPoint(scan: seq<byte>, spendPub: seq<byte>, inputs: seq<Input>, k: nat): Option<Point> {
    match SharedPoint(scan, inputs)
    case None => None
    case Some(S) => PayTo(spendPub, S, k)
  }

  function ScriptOf(A: Option<Point>): Option<seq<byte>> {
    match A
    case Some(Affine(x, y)) => Some(Spk(Affine(x, y)))
    case _ => None
  }

  // ----- the loops -----

  lemma SumPrefix(pts: seq<Point>, k: nat)
    requires k <= |pts| && SumPoints(pts[..k]).None?
    ensures SumPoints(pts).None?
    decreases |pts| - k
  {
    if k < |pts| {
      assert pts[..k + 1][..k] == pts[..k];
      SumPrefix(pts, k + 1);
    } else {
      assert pts[..k] == pts;
    }
  }

  lemma SumOne(pts: seq<Point>)
    requires |pts| >= 1
    ensures SumPoints(pts[..1]) == Some(pts[0])
  {
    assert pts[..1][..0] == [];
  }

  /** `A_points = []; for ...: A_points.append(...)` */
  method CollectPoints(inputs: seq<Input>) returns (r: Option<seq<Point>>)
    ensures r == Contributions(inputs)
  {
    var pts: seq<Point> := [];
    for i := 0 to |inputs|
      invariant Contributions(inputs[..i]) == Some(pts)
    {
      assert inputs[..i + 1][..i] == inputs[..i];
      var A := Contribution(inputs[i]);
      if A.None? {
        CollectPrefix(Contribution, inputs, i + 1);
        return None;
      }
      pts := pts + [A.value];
    }
    assert inputs[..|inputs|] == inputs;
    r := Some(pts);
  }

  /** `A_sum_point = A_points[0]; for pt in A_points[1:]: ...` */
  method AddAll(pts: seq<Point>) returns (r: Option<Point>)
    requires pts != []
    ensures r == SumPoints(pts)
  {
    var sum := pts[0];
    SumOne(pts);
    for i := 1 to |pts|
      invariant SumPoints(pts[..i]) == Some(sum)
    {
      assert pts[..i + 1][..i] == pts[..i];
      var s := PointAdd(sum, pts[i]);
      if s.None? {
        SumPrefix(pts, i + 1);
        return None;
      }
      sum := s.value;
    }
    assert pts[..|pts|] == pts;
    r := Some(sum);
  }

  /** `min(outpoint for ... in inputs)` */
  method SmallestOutpoint(outpoints: seq<seq<byte>>) returns (m: seq<byte>)
    requires outpoints != []
    ensures m == MinOutpoint(outpoints)
  {
    m := outpoints[0];
    for i := 1 to |outpoints|
      invariant m == MinOutpoint(outpoints[..i])
    {
      assert outpoints[..i + 1][..i] == outpoints[..i];
      if !LexLeq(m, outpoints[i]) {
        m := outpoints[i];
      }
    }
    assert outpoints[..|outpoints|] == outpoints;
  }

  /** `sp_output_point_from_public_inputs` */
  method SpOutputPoint(scan: seq<byte>, spendPub: seq<byte>, inputs: seq<Input>, k: nat) returns (r: Option<Point>)
    ensures r == OutputPoint(scan, spendPub, inputs, k)
  {
    if inputs == [] {
      return None;
    }
    var pts := CollectPoints(inputs);
    if pts.None? {
      return None;
    }
    CollectValues(Contribution, inputs);
    var A := AddAll(pts.value);
    if A.None? || A.value.Infinity? {
      return None;
    }
    var m := SmallestOutpoint(Outpoints(inputs));
    var h := FromBE(Tagged("BIP0352/Inputs", m + Ser(A.value)));
    var S := PointMul(A.value, ((FromBE(scan) % N) * h) % N);
    if S.None? {
      return None;
    }
    r := PayTo(spendPub, S.value, k);
  }

  /** `oracle_tweak` does not look at the length of a taproot key. */
  function OracleContribution(i: Input): Option<Point> {
    DecodePoint(if i.taproot then [2] + i.pub else i.pub)
  }

  /** What a BIP-352 index server publishes for a transaction. */
  function OracleTweak(inputs: seq<Input>): Option<seq<byte>> {
    match FiniteSum(Collect(OracleContribution, inputs))
    case Some(Affine(x, y)) =>
      (match PointMul(Affine(x, y), InputHash(Outpoints(inputs), Affine(x, y)))
       case Some(Affine(x', y')) => Some(Ser(Affine(x', y')))
       case _ => None)
    case _ => None
  }

  /** `oracle_tweak` */
  method PublishTweak(inputs: seq<Input>) returns (r: Option<seq<byte>>)
    ensures r == OracleTweak(inputs)
  {
    if inputs == [] {
      return None;
    }
    var pts: seq<Point> := [];
    for i := 0 to |inputs|
      invariant Collect(OracleContribution, inputs[..i]) == Some(pts)
    {
      assert inputs[..i + 1][..i] == inputs[..i];
      var A := OracleContribution(inputs[i]);
      if A.None? {
        CollectPrefix(OracleContribution, inputs, i + 1);
        return None;
      }
      pts := pts + [A.value];
    }
    assert inputs[..|inputs|] == inputs;
    CollectValues(OracleContribution, inputs);
    var A := AddAll(pts);
    if A.None? || A.value.Infinity? {
      return None;
    }
    var m := SmallestOutpoint(Outpoints(inputs));
    var T := PointMul(A.value, FromBE(Tagged("BIP0352/Inputs", m + Ser(A.value))));
    if T.None? || T.value.Infinity? {
      return None;
    }
    r := Some(Ser(T.value));
  }

  // ----- the sender's side: `sp_scriptpubkey_from_inputs` -----

  /** The private key one input adds: an odd-Y taproot key is negated. */
  function Normalised(s: SecretInput): Option<nat> {
    match PubPoint(s.key % N)
    case Some(Affine(x, y)) => Some(if s.taproot && y % 2 == 1 then N - s.key % N else s.key % N)
    case _ => None
  }

  function SecretPoint(s: SecretInput): Option<Point> {
    match Normalised(s)
    case Some(d) => PubPoint(d)
    case None => None
  }

  function SecretPoints(inputs: seq<SecretInput>): Option<seq<Point>> {
    Collect(SecretPoint, inputs)
  }

  function SecretSum(inputs: seq<SecretInput>): nat {
    if inputs == [] then 0
    else
      match Normalised(inputs[|inputs| - 1])
      case Some(d) => (SecretSum(inputs[..|inputs| - 1]) + d) % N
      case None => SecretSum(inputs[..|inputs| - 1])
  }

  function SecretOutpoints(inputs: seq<SecretInput>): (r: seq<seq<byte>>)
    ensures |r| == |inputs|
  {
    seq(|inputs|, i requires 0 <= i < |inputs| => inputs[i].outpoint)
  }

  function SenderShared(scanPub: seq<byte>, inputs: seq<SecretInput>): Option<Point> {
    if inputs == [] then None
    else
      match SecretPoints(inputs)
      case None => None
      case Some(pts) =>
        match (SumPoints(pts), DecodePoint(scanPub))
        case (Some(Affine(x, y)), Some(B)) =>
          PointMul(B, (SecretSum(inputs) * InputHash(SecretOutpoints(inputs), Affine(x, y))) % N)
        case _ => None
  }

  function SenderScript(scanPub: seq<byte>, spendPub: seq<byte>, inputs: seq<SecretInput>): Option<seq<byte>> {
    match SenderShared(scanPub, inputs)
    case None => None
    case Some(S) => ScriptOf(PayTo(spendPub, S, 0))
  }

  /** `sp_scriptpubkey_from_inputs`, with the address already split into its two keys. */
  method SpScriptFromInputs(scanPub: seq<byte>, spendPub: seq<byte>, inputs: seq<SecretInput>)
    returns (r: Option<seq<byte>>)
    ensures r == SenderScript(scanPub, spendPub, inputs)
  {
    if inputs == [] {
      return None;
    }
    var sum: nat, pts: seq<Point> := 0, [];
    for i := 0 to |inputs|
      invariant SecretPoints(inputs[..i]) == Some(pts) && SecretSum(inputs[..i]) == sum
    {
      assert inputs[..i + 1][..i] == inputs[..i];
      var d := inputs[i].key % N;
      var A := PubPoint(d);
      if A.None? || A.value.Infinity? {
        CollectPrefix(SecretPoint, inputs, i + 1);
        return None;
      }
      if inputs[i].taproot && A.value.y % 2 == 1 {
        d := N - d;
        A := PubPoint(d);
        if A.None? {
          CollectPrefix(SecretPoint, inputs, i + 1);
          return None;
        }
      }
      sum := (sum + d) % N;
      pts := pts + [A.value];
    }
    assert inputs[..|inputs|] == inputs;
    CollectValues(SecretPoint, inputs);
    var A := AddAll(pts);
    var B := DecodePoint(scanPub);
    if A.None? || A.value.Infinity? || B.None? {
      return None;
    }
    var m := SmallestOutpoint(SecretOutpoints(inputs));
    var h := FromBE(Tagged("BIP0352/Inputs", m + Ser(A.value)));
    var S := PointMul(B.value, (sum * h) % N);
    if S.None? {
      return None;
    }
    r := ScriptOf(PayTo(spendPub, S.value, 0));
  }

  // ----- `Party`: the taproot key a party controls -----

  /** `utxo_signing_priv`: the key whose point has an even y. None when there is no such point. */
  function UtxoSigningPriv(priv: nat): Option<int> {
    match PubPoint(priv)
    case Some(Affine(x, y)) => Some(if y % 2 == 1 then N - priv else priv)
    case _ => None
  }

  /** `utxo_xonly`: the key as the chain shows it. */
  function UtxoXonly(priv: nat): Option<seq<byte>> {
    match UtxoSigningPriv(priv)
    case None => None
    case Some(d) =>
      if d < 0 then None
      else
        match PubPoint(d)
        case Some(Affine(x, y)) => Some(Ser256(x))
        case _ => None
  }

  /** `spendable`: b_spend + tweak reproduces the key the scanner recorded. */
  predicate Spendable(spend: nat, tweak: nat, pub: seq<byte>) {
    match PubPoint((spend + tweak) % N)
    case Some(Affine(x, y)) => Ser256(x) == pub
    case _ => false
  }
}
