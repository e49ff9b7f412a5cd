/** Silent Payments as BIP-352 writes them down, told without the helpers of module SilentPayments, and the
    derivations of the repository measured against it. */
module Bip352 {
  import opened Bits
  import opened Results
  import opened Bytes
  import opened Curve
  import opened Sequences
  import opened SilentPayments
  import opened SharedSecrets

  // ----- the text -----

  /** serP: 2 or 3 for an even or odd y, then the 32 bytes of x, the first one the most significant. */
  ghost predicate Serialized(s: seq<byte>, A: Point) {
    A.Affine? && |s| == 33 && s[0] == (if A.y % 2 == 0 then 2 else 3) && FromBE(s[1..]) == A.x
  }

  /** The outpoint that comes first in the dictionary. */
  ghost predicate IsLeast(o: seq<byte>, outpoints: seq<seq<byte>>) {
    o in outpoints && forall i :: 0 <= i < |outpoints| ==> FirstSmaller(o, outpoints[i])
  }

  /** input_hash = hash_BIP0352/Inputs(outpoint_L || A) */
  ghost predicate IsInputHash(h: nat, outpoints: seq<seq<byte>>, A: Point) {
    exists o: seq<byte>, s: seq<byte>, d: Digest ::
      IsLeast(o, outpoints) && Serialized(s, A) && IsTaggedHash(d, "BIP0352/Inputs", o + s) && h == FromBE(d)
  }

  /** t_k = hash_BIP0352/SharedSecret(serP(ecdh_shared_secret) || ser32(k)) */
  ghost predicate IsOutputTweak(t: nat, S: Point, k: nat) {
    exists s: seq<byte>, c: seq<byte>, d: Digest ::
      Serialized(s, S) && |c| == 4 && FromBE(c) == k && IsTaggedHash(d, "BIP0352/SharedSecret", s + c) && t == FromBE(d)
  }

  /** The private key of an input: of a taproot input, the one of the two opposite keys whose point has an even y. */
  ghost predicate IsInputKey(s: SecretInput, d: nat) {
    && 0 < d < N && Times(d, G).Affine?
    && (if s.taproot then (d == s.key % N || d + s.key % N == N) && Times(d, G).y % 2 == 0 else d == s.key % N)
  }

  function Sum(ds: seq<nat>): nat {
    if ds == [] then 0 else Sum(ds[..|ds| - 1]) + ds[|ds| - 1]
  }

  // ----- the functions are those of the text -----

  lemma SerIsSerialized(A: Point)
    requires OnCurve(A) && A.Affine?
    ensures Serialized(Ser(A), A)
  {
    Pow256Values();
    FromBEInverse(A.x, 32);
    assert Ser(A)[1..] == BE(A.x, 32);
  }

  lemma MinIsLeast(outpoints: seq<seq<byte>>)
    requires outpoints != []
    ensures IsLeast(MinOutpoint(outpoints), outpoints)
  {
    MinOutpointIsLeast(outpoints);
    forall i | 0 <= i < |outpoints| ensures FirstSmaller(MinOutpoint(outpoints), outpoints[i]) {
      LexIsDictionary(MinOutpoint(outpoints), outpoints[i]);
    }
  }

  lemma InputHashIs(outpoints: seq<seq<byte>>, A: Point)
    requires outpoints != [] && OnCurve(A) && A.Affine?
    ensures IsInputHash(InputHash(outpoints, A), outpoints, A)
  {
    MinIsLeast(outpoints);
    SerIsSerialized(A);
    TaggedIsTagged("BIP0352/Inputs", MinOutpoint(outpoints) + Ser(A));
  }

  lemma OutputTweakIs(S: Point, k: nat)
    requires OnCurve(S) && S.Affine? && k < Pow256(4)
    ensures IsOutputTweak(OutputTweak(S, k), S, k)
  {
    SerIsSerialized(S);
    FromBEInverse(k, 4);
    TaggedIsTagged("BIP0352/SharedSecret", Ser(S) + BE(k, 4));
  }

  lemma InputKeyIs(s: SecretInput)
    requires Group() && s.key % N != 0
    ensures Normalised(s).Some? && IsInputKey(s, Normalised(s).value)
  {
    ContributionIsKey(s);
    ResidueTwice(s.key);
    PublicKeyExists(s.key);
    if s.taproot && Times(s.key % N, G).y % 2 == 1 {
      NegatedKey(s.key % N);
      OppositeIsEven(Times(s.key % N, G));
    }
  }

  lemma OppositeIsEven(A: Point)
    requires OnCurve(A) && A.Affine? && A.y % 2 == 1
    ensures Neg(A).Affine? && Neg(A).y % 2 == 0
  {
    NegResidue(P, A.y);
    OddMinusOdd(P, A.y);
  }

  ghost predicate AreInputKeys(inputs: seq<SecretInput>, ds: seq<nat>) {
    |ds| == |inputs| && forall i :: 0 <= i < |inputs| ==> IsInputKey(inputs[i], ds[i])
  }

  lemma KeysPush(inputs: seq<SecretInput>, front: seq<nat>, d: nat)
    requires inputs != [] && AreInputKeys(inputs[..|inputs| - 1], front) && IsInputKey(inputs[|inputs| - 1], d)
    ensures AreInputKeys(inputs, front + [d])
  {
    var n := |inputs| - 1;
    forall i | 0 <= i < |inputs| ensures IsInputKey(inputs[i], (front + [d])[i]) {
      if i < n {
        assert IsInputKey(inputs[..n][i], front[i]);
      }
    }
  }

  lemma AddReduced(a: nat, b: nat, d: nat)
    requires a == b % N
    ensures (a + d) % N == (b + d) % N
  {
    ModOfSum(b, d);
  }

  lemma {:induction false} KeysAdd(inputs: seq<SecretInput>) returns (ds: seq<nat>)
    requires Group() && Keys(inputs)
    ensures AreInputKeys(inputs, ds)
    ensures SecretSum(inputs) == Sum(ds) % N
  {
    if inputs == [] {
      ds := [];
      NoKeys();
    } else {
      var front := KeysAdd(inputs[..|inputs| - 1]);
      ds := OneMoreKey(inputs, front);
    }
  }

  lemma NoKeys()
    ensures AreInputKeys([], []) && SecretSum([]) == 0 && Sum([]) == 0 && 0 % N == 0
  {
    ModSmall(N, 0);
  }

  lemma OneMoreKey(inputs: seq<SecretInput>, front: seq<nat>) returns (ds: seq<nat>)
    requires Group() && inputs != [] && inputs[|inputs| - 1].key % N != 0
    requires AreInputKeys(inputs[..|inputs| - 1], front) && SecretSum(inputs[..|inputs| - 1]) == Sum(front) % N
    ensures AreInputKeys(inputs, ds) && SecretSum(inputs) == Sum(ds) % N
  {
    var n := |inputs| - 1;
    InputKeyIs(inputs[n]);
    var d := Normalised(inputs[n]).value;
    ds := front + [d];
    KeysPush(inputs, front, d);
    SumPush(front, d);
    SecretSumPush(inputs, d);
    AddReduced(SecretSum(inputs[..n]), Sum(front), d);
  }

  lemma SumPush(ds: seq<nat>, d: nat)
    ensures Sum(ds + [d]) == Sum(ds) + d
  {
    assert (ds + [d])[..|ds|] == ds;
  }

  lemma SecretSumPush(inputs: seq<SecretInput>, d: nat)
    requires inputs != [] && Normalised(inputs[|inputs| - 1]) == Some(d)
    ensures SecretSum(inputs) == (SecretSum(inputs[..|inputs| - 1]) + d) % N
  {
  }

  lemma ModOfSum(a: nat, d: nat)
    ensures (a % N + d) % N == (a + d) % N
  {
    var q, r := QuotientRemainder(a, N);
    var u, v := QuotientRemainder(r + d, N);
    assert a + d == (q + u) * N + v by {
      assert N * q + (N * u + v) == (q + u) * N + v;
    }
    DivModUnique(N, q + u, v, a + d);
  }

  // ----- "Creating outputs" -----

  /** From the shared point on: no output if the shared point or the tweak's point is at infinity or the sum is;
      else the output is B_spend + t_k * G. */
  ghost predicate Pays(S: Point, spend: Point, k: nat, script: Option<seq<byte>>) {
    match S
    case Infinity => script.None?
    case Affine(_, _) => exists t: nat :: IsOutputTweak(t, S, k) && PaysTo(Add(spend, Times(t, G)), t, script)
  }

  ghost predicate PaysTo(Q: Point, t: nat, script: Option<seq<byte>>) {
    if t % N == 0 || Q.Infinity? then script.None?
    else script.Some? && |script.value| == 34 && script.value[..2] == [0x51, 0x20] && FromBE(script.value[2..]) == Q.x
  }

  lemma PayToPays(spendPub: seq<byte>, spend: Point, S: Point, k: nat)
    requires Group() && OnCurve(S) && OnCurve(spend) && DecodePoint(spendPub) == Some(spend) && k < Pow256(4)
    ensures Pays(S, spend, k, ScriptOf(PayTo(spendPub, S, k)))
  {
    if S.Affine? {
      var t := OutputTweak(S, k);
      OutputTweakIs(S, k);
      TweakPays(spendPub, spend, S, k, t);
    }
  }

  lemma TweakPays(spendPub: seq<byte>, spend: Point, S: Point, k: nat, t: nat)
    requires Group() && OnCurve(S) && S.Affine? && OnCurve(spend) && DecodePoint(spendPub) == Some(spend)
    requires k < Pow256(4) && t == OutputTweak(S, k)
    ensures PaysTo(Add(spend, Times(t, G)), t, ScriptOf(PayTo(spendPub, S, k)))
  {
    if t % N != 0 {
      PublicKeyExists(t);
      TimesMod(t, G);
      PointAddIsAdd(spend, Times(t, G));
      AddClosed(spend, Times(t, G));
      var Q := Add(spend, Times(t, G));
      if Q.Affine? {
        ScriptHoldsX(Q);
      }
    }
  }

  lemma ScriptHoldsX(Q: Point)
    requires OnCurve(Q) && Q.Affine?
    ensures |Spk(Q)| == 34 && Spk(Q)[..2] == [0x51, 0x20] && FromBE(Spk(Q)[2..]) == Q.x
  {
    Pow256Values();
    FromBEInverse(Q.x, 32);
    assert Spk(Q)[2..] == BE(Q.x, 32);
  }

  /** The sender's script is BIP-352's: a is the sum of the inputs' keys, the shared point is
      input_hash * a * B_scan, and the output is B_spend plus its tweak; without inputs, or with keys that
      cancel out, there is none. */
  lemma SenderFollows(scanPub: seq<byte>, spendPub: seq<byte>, inputs: seq<SecretInput>, scan: Point, spend: Point)
    returns (ds: seq<nat>, h: nat)
    requires Group() && Keys(inputs) && OnCurve(scan) && OnCurve(spend)
    requires DecodePoint(scanPub) == Some(scan) && DecodePoint(spendPub) == Some(spend)
    ensures AreInputKeys(inputs, ds)
    ensures var A := Times(Sum(ds), G);
      if inputs == [] || A.Infinity? then SenderScript(scanPub, spendPub, inputs).None?
      else IsInputHash(h, SecretOutpoints(inputs), A)
           && Pays(Times(h, Times(Sum(ds), scan)), spend, 0, SenderScript(scanPub, spendPub, inputs))
  {
    ds := KeysAdd(inputs);
    h := 0;
    if inputs != [] {
      SecretSumIsLog(inputs);
      TimesMod(Sum(ds), G);
      TimesClosed(Sum(ds), G);
      var A := Times(Sum(ds), G);
      if A.Affine? {
        h := InputHash(SecretOutpoints(inputs), A);
        InputHashIs(SecretOutpoints(inputs), A);
        SharedPays(spendPub, spend, Sum(ds), h, scan, 0);
      }
    }
  }

  lemma Shared(a: nat, h: nat, B: Point)
    requires Group() && OnCurve(B)
    ensures (a % N) * h >= 0 && PointMul(B, ((a % N) * h) % N) == Some(Times(h, Times(a, B)))
  {
    TimesClosed(a, B);
    PointMulIsTimes(B, ((a % N) * h) % N);
    TimesProduct(a % N, h, B);
    TimesMod(a, B);
    TimesSwap(a % N, h, B);
  }

  lemma SharedPays(spendPub: seq<byte>, spend: Point, a: nat, h: nat, B: Point, k: nat)
    requires Group() && OnCurve(B) && OnCurve(spend) && DecodePoint(spendPub) == Some(spend) && k < 0x1_0000_0000
    ensures (a % N) * h >= 0 && PointMul(B, ((a % N) * h) % N) == Some(Times(h, Times(a, B))) && k < Pow256(4)
    ensures Pays(Times(h, Times(a, B)), spend, k, ScriptOf(PayTo(spendPub, Times(h, Times(a, B)), k)))
  {
    Shared(a, h, B);
    TimesClosed(a, B);
    TimesClosed(h, Times(a, B));
    Pow256Values();
    PayToPays(spendPub, spend, Times(h, Times(a, B)), k);
  }

  // ----- "Scanning", from what is public -----

  lemma DerivedFrom(scanKey: seq<byte>, spendPub: seq<byte>, inputs: seq<Input>, k: nat, A: Point, S: Point)
    requires inputs != [] && PublicSum(inputs) == Some(A) && A.Affine?
    requires PointMul(A, ((FromBE(scanKey) % N) * InputHash(Outpoints(inputs), A)) % N) == Some(S)
    ensures OutputPoint(scanKey, spendPub, inputs, k) == PayTo(spendPub, S, k)
  {
  }

  /** The point derived from the public inputs is BIP-352's as well: with A the sum of the inputs' points, the
      shared point is input_hash * b_scan * A. */
  lemma ReceiverFollows(scanKey: seq<byte>, spendPub: seq<byte>, inputs: seq<Input>, k: nat, spend: Point) returns (h: nat)
    requires Group() && GoodInputs(inputs) && OnCurve(spend) && DecodePoint(spendPub) == Some(spend) && k < 0x1_0000_0000
    ensures Contributions(inputs).Some? && SumPoints(Contributions(inputs).value).Some?
    ensures var A := SumPoints(Contributions(inputs).value).value;
      if inputs == [] || A.Infinity? then OutputPoint(scanKey, spendPub, inputs, k).None?
      else IsInputHash(h, Outpoints(inputs), A)
           && Pays(Times(h, Times(FromBE(scanKey), A)), spend, k, ScriptOf(OutputPoint(scanKey, spendPub, inputs, k)))
  {
    ContributionsGood(inputs);
    SumOnCurve(Contributions(inputs).value);
    var A, b := SumPoints(Contributions(inputs).value).value, FromBE(scanKey);
    h := 0;
    if inputs != [] && A.Affine? {
      h := InputHash(Outpoints(inputs), A);
      InputHashIs(Outpoints(inputs), A);
      SharedPays(spendPub, spend, b, h, A, k);
      DerivedFrom(scanKey, spendPub, inputs, k, A, Times(h, Times(b, A)));
    }
  }

  /** An output counts as spendable exactly if b_spend + t is a key and the record is the x coordinate of its point
      in 32 bytes. */
  lemma SpendableExactly(spend: nat, tweak: nat, pub: seq<byte>)
    requires Group()
    ensures Spendable(spend, tweak, pub)
      <==> && (spend + tweak) % N != 0 && |pub| == 32
           && Times((spend + tweak) % N, G).Affine? && FromBE(pub) == Times((spend + tweak) % N, G).x
  {
    var d := (spend + tweak) % N;
    Reduced(spend + tweak);
    if d != 0 {
      PublicKeyExists(d);
      var A := Times(d, G);
      ScriptHoldsX(A);
      Pow256Values();
      FromBEInverse(A.x, 32);
      if |pub| == 32 && FromBE(pub) == A.x {
        BEOfFromBE(pub);
      }
    }
  }

  lemma Reduced(a: nat)
    ensures a % N % N == a % N < N
  {
    ModSmall(N, a % N);
  }

  /** There are two to the thirty-second outputs for one set of inputs, and no more. */
  lemma IndexFitsFourBytes(scanKey: seq<byte>, spendPub: seq<byte>, inputs: seq<Input>, k: nat)
    requires k >= 0x1_0000_0000
    ensures OutputPoint(scanKey, spendPub, inputs, k).None?
  {
    Pow256Values();
  }

  /** What an index server publishes is input_hash * A. */
  lemma OracleFollows(inputs: seq<Input>) returns (h: nat)
    requires Group() && GoodInputs(inputs)
    ensures Contributions(inputs).Some? && SumPoints(Contributions(inputs).value).Some?
    ensures var A := SumPoints(Contributions(inputs).value).value;
      if inputs == [] || A.Infinity? then OracleTweak(inputs).None?
      else IsInputHash(h, Outpoints(inputs), A)
           && (if Times(h, A).Infinity? then OracleTweak(inputs).None?
               else OracleTweak(inputs).Some? && Serialized(OracleTweak(inputs).value, Times(h, A)))
  {
    ContributionsGood(inputs);
    SumOnCurve(Contributions(inputs).value);
    OracleSees(inputs);
    var A := SumPoints(Contributions(inputs).value).value;
    h := 0;
    if inputs != [] && A.Affine? {
      h := InputHash(Outpoints(inputs), A);
      InputHashIs(Outpoints(inputs), A);
      OraclePublishes(inputs, A, h);
    }
  }

  lemma OraclePublishes(inputs: seq<Input>, A: Point, h: nat)
    requires Group() && OnCurve(A) && A.Affine? && inputs != []
    requires FiniteSum(Collect(OracleContribution, inputs)) == Some(A) && h == InputHash(Outpoints(inputs), A)
    ensures if Times(h, A).Infinity? then OracleTweak(inputs).None?
      else OracleTweak(inputs).Some? && Serialized(OracleTweak(inputs).value, Times(h, A))
  {
    PointMulIsTimes(A, h);
    TimesClosed(h, A);
    if Times(h, A).Affine? {
      SerIsSerialized(Times(h, A));
    }
  }

  // ----- what an input shows -----

  /** A taproot input shows an x coordinate and counts as the point there with an even y; any other shows a
      whole key, and counts as it. */
  lemma InputCounts(A: Point, outpoint: seq<byte>)
    requires OnCurve(A) && A.Affine?
    ensures A.y % 2 == 0 ==> Contribution(Input(BE(A.x, 32), outpoint, true)) == Some(A)
    ensures Contribution(Input([if A.y % 2 == 0 then 2 else 3] + BE(A.x, 32), outpoint, false)) == Some(A)
  {
    if A.y % 2 == 0 {
      DecodeX(A, 2);
    }
    DecodeX(A, if A.y % 2 == 0 then 2 else 3);
  }
}
