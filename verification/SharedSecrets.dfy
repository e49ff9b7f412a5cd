/** Why a Silent Payments output derived from public inputs is the one the sender derives from
    private inputs, and why its owner can spend it. */
module SharedSecrets {
  import opened Bits
  import opened NumberTheory
  import opened Results
  import opened Bytes
  import opened Curve
  import opened Sequences
  import opened SilentPayments

  // ----- what is assumed of the group -----

  ghost predicate Annihilates(A: Point) {
    OnCurve(A) ==> Times(N, A) == Infinity
  }

  ghost predicate NonzeroMultiple(d: nat) {
    0 < d < N ==> Times(d, G).Affine?
  }

  /** secp256k1 as a group: addition associates, every point has order dividing N, and the
      multiples of the generator below N are not infinity. */
  ghost predicate Group() {
    && Associative()
    && (forall A :: Annihilates(A))
    && (forall d: nat :: NonzeroMultiple(d))
  }

  lemma Order(A: Point)
    requires Group() && OnCurve(A)
    ensures Times(N, A) == Infinity
  {
    assert Annihilates(A);
  }

  lemma PublicKeyExists(d: nat)
    requires Group() && d % N != 0
    ensures PubPoint(d).Some? && PubPoint(d).value.Affine? && OnCurve(PubPoint(d).value)
    ensures PubPoint(d).value == Times(d % N, G)
  {
    assert NonzeroMultiple(d % N);
    TimesClosed(d % N, G);
  }

  // ----- scalars modulo N -----

  lemma {:induction false} TimesInfinity(k: nat)
    ensures Times(k, Infinity) == Infinity
  {
    if k > 0 {
      TimesInfinity(k - 1);
    }
  }

  lemma TimesMod(k: nat, A: Point)
    requires Group() && OnCurve(A)
    ensures Times(k % N, A) == Times(k, A)
  {
    var q, r := QuotientRemainder(k, N);
    TimesPeriod(k, q, r, A);
  }

  lemma TimesPeriod(k: nat, q: nat, r: nat, A: Point)
    requires Group() && OnCurve(A) && k == N * q + r
    ensures Times(r, A) == Times(k, A)
  {
    Order(A);
    TimesMul(q, N, A);
    TimesInfinity(q);
    TimesAdd(q * N, r, A);
  }

  lemma TimesProduct(j: nat, k: nat, A: Point)
    requires Group() && OnCurve(A)
    ensures j * k >= 0 && Times((j * k) % N, A) == Times(j, Times(k, A))
  {
    TimesMul(j, k, A);
    TimesMod(j * k, A);
  }

  lemma TimesSwap(j: nat, k: nat, A: Point)
    requires Group() && OnCurve(A)
    ensures Times(j, Times(k, A)) == Times(k, Times(j, A))
  {
    TimesMul(j, k, A);
    TimesMul(k, j, A);
    assert j * k == k * j;
  }

  lemma TimesSum(j: nat, k: nat, A: Point)
    requires Group() && OnCurve(A)
    ensures Times((j + k) % N, A) == Add(Times(j, A), Times(k, A))
  {
    TimesAdd(j, k, A);
    TimesMod(j + k, A);
  }

  /** Negating a private key negates the public key. */
  lemma NegatedKey(d: nat)
    requires Group() && 0 < d < N
    ensures Times(N - d, G) == Neg(Times(d, G))
  {
    Order(G);
    TimesAdd(d, N - d, G);
    TimesClosed(d, G);
    TimesClosed(N - d, G);
    SumInfinity(Times(d, G), Times(N - d, G));
  }

  // ----- the wrappers do what the group does -----

  lemma PointAddIsAdd(A: Point, B: Point)
    requires OnCurve(A) && OnCurve(B)
    ensures PointAdd(A, B) == Some(Add(A, B))
  {
    ValidIsOnCurve(A);
    ValidIsOnCurve(B);
    if A.Affine? && B.Affine? && A.x == B.x && A.y != B.y {
      SameX(A, B);
    }
  }

  lemma PointMulIsTimes(A: Point, d: nat)
    requires Group() && OnCurve(A)
    ensures PointMul(A, d) == Some(Times(d, A))
  {
    ValidIsOnCurve(A);
    TimesMod(d, A);
    if A.Infinity? {
      TimesInfinity(d);
    } else if d % N == 0 {
      assert Times(0, A) == Infinity;
    }
  }

  lemma {:induction false} SumOnCurve(pts: seq<Point>)
    requires forall i :: 0 <= i < |pts| ==> OnCurve(pts[i])
    ensures SumPoints(pts).Some? && OnCurve(SumPoints(pts).value)
  {
    if pts != [] {
      var n := |pts| - 1;
      SumOnCurve(pts[..n]);
      PointAddIsAdd(SumPoints(pts[..n]).value, pts[n]);
      AddClosed(SumPoints(pts[..n]).value, pts[n]);
    }
  }

  // ----- keys survive the wire -----

  lemma RootOrOpposite(A: Point, r: int)
    requires OnCurve(A) && A.Affine? && 0 <= r < P && CurveEq(A.x, r)
    ensures A.y == if (r % 2 == 0) != (A.y % 2 == 0) then P - r else r
  {
    SameX(A, Affine(A.x, r));
    if A.y != r {
      OppositeOrdinates(r, A.y);
      NegResidue(P, r);
      if r % 2 == 1 {
        OddMinusOdd(P, r);
      } else {
        OddMinusEven(P, r);
      }
    }
  }

  /** The root `compressed_pubkey_to_point` extracts, for the x of a curve point. */
  lemma DecodedRoot(A: Point)
    requires OnCurve(A) && A.Affine?
    ensures var r := Pow((Pow(A.x, 3) % P + 7) % P, (P + 1) / 4) % P; 0 <= r < P && CurveEq(A.x, r)
  {
    var x := A.x;
    var y2 := (Pow(x, 3) % P + 7) % P;
    CubeResidue(x);
    DivAdd(P, A.y * A.y - x * x * x - 7, y2 - (x * x * x + 7));
    RightSide(A.y, x, y2);
    CandidateSquares(A.y, y2);
    RootOnCurve(x, y2, Pow(y2, (P + 1) / 4) % P);
  }

  lemma RightSide(y: int, x: int, y2: int)
    ensures y * y - x * x * x - 7 - (y2 - (x * x * x + 7)) == y * y - y2
  {
  }

  /** Decoding a prefix and the 32 bytes of a curve point's x gives the point whose y has the
      parity the prefix asks for. */
  lemma DecodeX(A: Point, prefix: byte)
    requires OnCurve(A) && A.Affine? && (prefix == 2 <==> A.y % 2 == 0)
    ensures DecodePoint([prefix] + BE(A.x, 32)) == Some(A)
  {
    var pk := [prefix] + BE(A.x, 32);
    assert pk[1..33] == BE(A.x, 32);
    Pow256Values();
    FromBEInverse(A.x, 32);
    PointAtX(A);
  }

  lemma PointAtX(A: Point)
    requires OnCurve(A) && A.Affine?
    ensures PointAt(A.x, A.y % 2 == 0) == A
  {
    DecodedRoot(A);
    RootOrOpposite(A, Pow((Pow(A.x, 3) % P + 7) % P, (P + 1) / 4) % P);
  }

  lemma DecodeSer(A: Point)
    requires OnCurve(A) && A.Affine?
    ensures DecodePoint(Ser(A)) == Some(A)
  {
    DecodeX(A, 2 + A.y % 2);
  }

  // ----- public inputs of private ones -----

  /** The input as it stands on chain: a taproot output shows the x of its key, any other input the
      whole compressed key. */
  function PublicOf(s: SecretInput): Input
    requires PubPoint(s.key).Some? && PubPoint(s.key).value.Affine?
  {
    var A := PubPoint(s.key).value;
    Input(if s.taproot then Ser256(A.x) else Ser(A), s.outpoint, s.taproot)
  }

  ghost predicate Keys(inputs: seq<SecretInput>) {
    forall i :: 0 <= i < |inputs| ==> inputs[i].key % N != 0
  }

  function PublicInputs(inputs: seq<SecretInput>): (r: seq<Input>)
    requires forall i :: 0 <= i < |inputs| ==> PubPoint(inputs[i].key).Some? && PubPoint(inputs[i].key).value.Affine?
    ensures |r| == |inputs|
  {
    seq(|inputs|, i requires 0 <= i < |inputs| => PublicOf(inputs[i]))
  }

  lemma KeysArePublic(inputs: seq<SecretInput>)
    requires Group() && Keys(inputs)
    ensures forall i :: 0 <= i < |inputs| ==> PubPoint(inputs[i].key).Some? && PubPoint(inputs[i].key).value.Affine?
  {
    forall i | 0 <= i < |inputs|
      ensures PubPoint(inputs[i].key).Some? && PubPoint(inputs[i].key).value.Affine?
    {
      PublicKeyExists(inputs[i].key);
    }
  }

  lemma ResidueTwice(a: nat)
    ensures (a % N) % N == a % N
  {
    ModSmall(N, a % N);
  }

  /** Lifting a taproot key to even Y is the public side of negating an odd private key; any other
      key is used as it is. */
  lemma ContributionIsKey(s: SecretInput)
    requires Group() && s.key % N != 0
    ensures PubPoint(s.key).Some? && PubPoint(s.key).value.Affine?
    ensures Normalised(s).Some? && 0 < Normalised(s).value < N
    ensures PubPoint(Normalised(s).value) == Some(Times(Normalised(s).value, G))
    ensures Contribution(PublicOf(s)) == Some(Times(Normalised(s).value, G))
    ensures OnCurve(Times(Normalised(s).value, G)) && Times(Normalised(s).value, G).Affine?
  {
    ResidueTwice(s.key);
    PublicKeyExists(s.key);
    var d := s.key % N;
    var A := Times(d, G);
    ModSmall(N, d);
    ModSmall(N, N - d);
    if !s.taproot {
      DecodeSer(A);
    } else {
      if A.y % 2 == 1 {
        NegatedKey(d);
        NegInverse(A);
        NegResidue(P, A.y);
        OddMinusOdd(P, A.y);
        DecodeX(Neg(A), 2);
      } else {
        DecodeX(A, 2);
      }
    }
  }

  /** The sender's sum of private keys is the logarithm of the sum of its points. */
  lemma {:induction false} SecretSumIsLog(inputs: seq<SecretInput>)
    requires Group() && Keys(inputs)
    ensures SecretPoints(inputs).Some?
    ensures SumPoints(SecretPoints(inputs).value) == Some(Times(SecretSum(inputs), G))
  {
    if inputs != [] {
      var n := |inputs| - 1;
      SecretSumIsLog(inputs[..n]);
      SecretKeyPoint(inputs[n]);
      SumGrows(SecretPoints(inputs[..n]).value, SecretSum(inputs[..n]), Normalised(inputs[n]).value);
    }
  }

  lemma SecretKeyPoint(s: SecretInput)
    requires Group() && s.key % N != 0
    ensures Normalised(s).Some? && SecretPoint(s) == Some(Times(Normalised(s).value, G))
  {
    ContributionIsKey(s);
  }

  /** Both sides sum the same points. */
  lemma SamePoints(inputs: seq<SecretInput>)
    requires Group() && Keys(inputs)
    requires forall i :: 0 <= i < |inputs| ==> PubPoint(inputs[i].key).Some? && PubPoint(inputs[i].key).value.Affine?
    ensures Contributions(PublicInputs(inputs)) == SecretPoints(inputs)
  {
    var pub := PublicInputs(inputs);
    forall i | 0 <= i < |inputs| ensures Contribution(pub[i]) == SecretPoint(inputs[i]) {
      ContributionIsKey(inputs[i]);
    }
    CollectSame(Contribution, pub, SecretPoint, inputs);
  }

  lemma SumGrows(pts: seq<Point>, a: nat, d: nat)
    requires Group() && SumPoints(pts) == Some(Times(a, G))
    ensures SumPoints(pts + [Times(d, G)]) == Some(Times((a + d) % N, G))
  {
    TimesClosed(a, G);
    TimesClosed(d, G);
    PointAddIsAdd(Times(a, G), Times(d, G));
    TimesSum(a, d, G);
    var all := pts + [Times(d, G)];
    assert all[..|all| - 1] == pts;
  }

  lemma SameOutpoints(inputs: seq<SecretInput>)
    requires forall i :: 0 <= i < |inputs| ==> PubPoint(inputs[i].key).Some? && PubPoint(inputs[i].key).value.Affine?
    ensures Outpoints(PublicInputs(inputs)) == SecretOutpoints(inputs)
  {
  }

  /** (b * h) * (a * G) == (a * h) * (b * G) */
  lemma SameSecret(a: nat, b: nat, h: nat)
    requires Group()
    ensures (b % N) * h >= 0 && a * h >= 0
    ensures PointMul(Times(a, G), ((b % N) * h) % N) == PointMul(Times(b % N, G), (a * h) % N)
  {
    var c := b % N;
    TimesClosed(a, G);
    TimesClosed(c, G);
    TimesClosed(h, G);
    PointMulIsTimes(Times(a, G), (c * h) % N);
    PointMulIsTimes(Times(c, G), (a * h) % N);
    TimesProduct(c, h, Times(a, G));
    TimesProduct(a, h, Times(c, G));
    TimesSwap(h, a, G);
    TimesSwap(h, c, G);
    TimesSwap(c, a, Times(h, G));
  }

  /** The receiver's derivation from public inputs and the sender's from private ones agree on
      every script and on every failure, for every number and mixture of inputs. */
  lemma PublicEqualsPrivate(scan: seq<byte>, spendPub: seq<byte>, inputs: seq<SecretInput>)
    requires Group() && Keys(inputs) && FromBE(scan) % N != 0
    ensures forall i :: 0 <= i < |inputs| ==> PubPoint(inputs[i].key).Some? && PubPoint(inputs[i].key).value.Affine?
    ensures PubPoint(FromBE(scan)).Some? && PubPoint(FromBE(scan)).value.Affine?
    ensures ScriptOf(OutputPoint(scan, spendPub, PublicInputs(inputs), 0))
      == SenderScript(Ser(PubPoint(FromBE(scan)).value), spendPub, inputs)
  {
    KeysArePublic(inputs);
    PublicKeyExists(FromBE(scan));
    SharedEqualsPrivate(scan, inputs);
  }

  /** input_hash * A_sum * b_scan == input_hash * a_sum * B_scan */
  lemma SharedEqualsPrivate(scan: seq<byte>, inputs: seq<SecretInput>)
    requires Group() && Keys(inputs) && FromBE(scan) % N != 0
    requires forall i :: 0 <= i < |inputs| ==> PubPoint(inputs[i].key).Some? && PubPoint(inputs[i].key).value.Affine?
    requires PubPoint(FromBE(scan)).Some? && PubPoint(FromBE(scan)).value.Affine?
    ensures SharedPoint(scan, PublicInputs(inputs)) == SenderShared(Ser(PubPoint(FromBE(scan)).value), inputs)
  {
    var b := FromBE(scan);
    PublicKeyExists(b);
    var B := PubPoint(b).value;
    if inputs != [] {
      SecretSumIsLog(inputs);
      SamePoints(inputs);
      SameOutpoints(inputs);
      DecodeSer(B);
      var A := Times(SecretSum(inputs), G);
      if A.Affine? {
        SameSecret(SecretSum(inputs), b, InputHash(SecretOutpoints(inputs), A));
      }
    }
  }

  // ----- the published tweak -----

  ghost predicate GoodInputs(inputs: seq<Input>) {
    forall i :: 0 <= i < |inputs| ==> Contribution(inputs[i]).Some? && OnCurve(Contribution(inputs[i]).value)
  }

  lemma ContributionsGood(inputs: seq<Input>)
    requires GoodInputs(inputs)
    ensures Contributions(inputs).Some? && |Contributions(inputs).value| == |inputs|
    ensures forall i :: 0 <= i < |inputs| ==> OnCurve(Contributions(inputs).value[i])
  {
    CollectValues(Contribution, inputs);
    forall i | 0 <= i < |inputs| ensures OnCurve(Contributions(inputs).value[i]) {
      assert Some(Contributions(inputs).value[i]) == Contribution(inputs[i]);
    }
  }

  lemma PublicSumOnCurve(inputs: seq<Input>)
    requires GoodInputs(inputs) && PublicSum(inputs).Some?
    ensures OnCurve(PublicSum(inputs).value)
  {
    ContributionsGood(inputs);
    SumOnCurve(Contributions(inputs).value);
  }

  /** The receiver's shared point is b_scan times the point an index server publishes; where the
      server has nothing to publish, no output can be derived either. */
  lemma OracleSuffices(scan: seq<byte>, inputs: seq<Input>)
    requires Group() && GoodInputs(inputs) && PublicSum(inputs).Some?
    ensures OracleTweak(inputs).Some? ==>
      && DecodePoint(OracleTweak(inputs).value).Some?
      && SharedPoint(scan, inputs) == PointMul(DecodePoint(OracleTweak(inputs).value).value, FromBE(scan))
    ensures OracleTweak(inputs).None? ==> SharedPoint(scan, inputs) == Some(Infinity)
  {
    PublicSumOnCurve(inputs);
    OracleSees(inputs);
    var A := PublicSum(inputs).value;
    var h := InputHash(Outpoints(inputs), A);
    var b := FromBE(scan);
    PointMulIsTimes(A, h);
    TimesClosed(h, A);
    var T := Times(h, A);
    PointMulIsTimes(A, ((b % N) * h) % N);
    TimesProduct(b % N, h, A);
    TimesMod(b, T);
    if T.Affine? {
      DecodeSer(T);
      PointMulIsTimes(T, b);
    } else {
      TimesInfinity(b);
    }
  }

  /** On well-formed inputs the index server sums the points the receiver sums. */
  lemma OracleSees(inputs: seq<Input>)
    requires GoodInputs(inputs)
    ensures Collect(OracleContribution, inputs) == Contributions(inputs)
  {
    CollectSame(OracleContribution, inputs, Contribution, inputs);
  }

  // ----- the order of the inputs does not matter -----

  lemma {:induction false} SumInsert(pts: seq<Point>, i: nat)
    requires Associative() && i < |pts| && forall j :: 0 <= j < |pts| ==> OnCurve(pts[j])
    ensures SumPoints(pts[..i] + pts[i + 1..]).Some? && OnCurve(SumPoints(pts[..i] + pts[i + 1..]).value)
    ensures SumPoints(pts) == Some(Add(SumPoints(pts[..i] + pts[i + 1..]).value, pts[i]))
  {
    var n := |pts| - 1;
    var rest := pts[..i] + pts[i + 1..];
    SumOnCurve(rest);
    SumOnCurve(pts[..n]);
    if i == n {
      assert rest == pts[..n];
      PointAddIsAdd(SumPoints(pts[..n]).value, pts[n]);
    } else {
      var init := pts[..n];
      SumInsert(init, i);
      var rest' := init[..i] + init[i + 1..];
      assert rest[..|rest| - 1] == rest' && rest[|rest| - 1] == pts[n];
      var R := SumPoints(rest').value;
      PointAddIsAdd(SumPoints(init).value, pts[n]);
      PointAddIsAdd(R, pts[n]);
      Exchange(R, pts[i], pts[n]);
    }
  }

  lemma Exchange(R: Point, A: Point, B: Point)
    requires Associative() && OnCurve(R) && OnCurve(A) && OnCurve(B)
    ensures Add(Add(R, A), B) == Add(Add(R, B), A)
  {
    Regroup(R, A, B);
    AddCommutes(A, B);
    Regroup(R, B, A);
  }

  lemma {:induction false} MinOutpointIsLeast(s: seq<seq<byte>>)
    requires s != []
    ensures MinOutpoint(s) in s
    ensures forall i :: 0 <= i < |s| ==> LexLeq(MinOutpoint(s), s[i])
  {
    var n := |s| - 1;
    if n == 0 {
      LexTotal(s[0], s[0]);
    } else {
      var m, x := MinOutpoint(s[..n]), s[n];
      MinOutpointIsLeast(s[..n]);
      LexTotal(m, x);
      LexTotal(x, x);
      forall i | 0 <= i < |s| ensures LexLeq(Min(m, x), s[i]) {
        if i < n {
          assert LexLeq(m, s[..n][i]);
          if !LexLeq(m, x) {
            LexTransitive(x, m, s[i]);
          }
        }
      }
    }
  }

  lemma MinPermuted(s: seq<seq<byte>>, t: seq<seq<byte>>)
    requires s != [] && t != [] && (forall x :: x in s <==> x in t)
    ensures MinOutpoint(s) == MinOutpoint(t)
  {
    MinOutpointIsLeast(s);
    MinOutpointIsLeast(t);
    var i :| 0 <= i < |s| && s[i] == MinOutpoint(t);
    var j :| 0 <= j < |t| && t[j] == MinOutpoint(s);
    LexTotal(MinOutpoint(s), MinOutpoint(t));
  }

  lemma {:induction false} SumPermuted(s: seq<Point>, t: seq<Point>)
    requires Associative() && multiset(s) == multiset(t)
    requires forall j :: 0 <= j < |s| ==> OnCurve(s[j])
    requires forall j :: 0 <= j < |t| ==> OnCurve(t[j])
    ensures SumPoints(s) == SumPoints(t)
    decreases |s|
  {
    SameLength(s, t);
    if s != [] {
      var n := |s| - 1;
      var i := FindIn(s, t, s[n]);
      assert s == s[..n] + [s[n]];
      Without(t, i);
      SumPermuted(s[..n], t[..i] + t[i + 1..]);
      SumInsert(t, i);
      SumLast(s, s[..n], n);
    }
  }

  lemma SumLast(u: seq<Point>, v: seq<Point>, n: nat)
    requires |u| == n + 1 && v == u[..n] && forall j :: 0 <= j < |u| ==> OnCurve(u[j])
    ensures SumPoints(v).Some? && SumPoints(u) == Some(Add(SumPoints(v).value, u[n]))
  {
    SumOnCurve(v);
    PointAddIsAdd(SumPoints(v).value, u[n]);
  }

  lemma OutpointsMembers(s: seq<Input>, t: seq<Input>)
    requires multiset(s) == multiset(t)
    ensures forall x :: x in Outpoints(s) <==> x in Outpoints(t)
  {
    forall x ensures x in Outpoints(s) <==> x in Outpoints(t) {
      OutpointMember(s, t, x);
      OutpointMember(t, s, x);
    }
  }

  lemma OutpointMember(s: seq<Input>, t: seq<Input>, x: seq<byte>)
    requires multiset(s) == multiset(t)
    ensures x in Outpoints(s) ==> x in Outpoints(t)
  {
    if x in Outpoints(s) {
      var i :| 0 <= i < |s| && Outpoints(s)[i] == x;
      var j := FindIn(s, t, s[i]);
      assert Outpoints(t)[j] == x;
    }
  }

  lemma PublicSumPermuted(s: seq<Input>, t: seq<Input>)
    requires Associative() && multiset(s) == multiset(t) && GoodInputs(s) && GoodInputs(t)
    ensures PublicSum(s) == PublicSum(t)
  {
    ContributionsGood(s);
    ContributionsGood(t);
    SameLength(s, t);
    CollectPermuted(Contribution, s, t);
    SumPermuted(Contributions(s).value, Contributions(t).value);
  }

  lemma InputHashPermuted(s: seq<Input>, t: seq<Input>, A: Point)
    requires multiset(s) == multiset(t) && s != [] && A.Affine?
    ensures t != [] && InputHash(Outpoints(s), A) == InputHash(Outpoints(t), A)
  {
    SameLength(s, t);
    OutpointsMembers(s, t);
    MinPermuted(Outpoints(s), Outpoints(t));
  }

  lemma SharedPermuted(scan: seq<byte>, s: seq<Input>, t: seq<Input>)
    requires Associative() && multiset(s) == multiset(t) && GoodInputs(s) && GoodInputs(t)
    ensures SharedPoint(scan, s) == SharedPoint(scan, t)
  {
    PublicSumPermuted(s, t);
    if PublicSum(s).Some? {
      InputHashPermuted(s, t, PublicSum(s).value);
    }
  }

  /** Listing the same inputs in another order derives the same output and publishes the same tweak. */
  lemma OrderIrrelevant(scan: seq<byte>, spendPub: seq<byte>, s: seq<Input>, t: seq<Input>, k: nat)
    requires Associative() && multiset(s) == multiset(t) && GoodInputs(s) && GoodInputs(t)
    ensures OutputPoint(scan, spendPub, s, k) == OutputPoint(scan, spendPub, t, k)
    ensures OracleTweak(s) == OracleTweak(t)
  {
    SharedPermuted(scan, s, t);
    OracleSees(s);
    OracleSees(t);
    PublicSumPermuted(s, t);
    if PublicSum(s).Some? {
      InputHashPermuted(s, t, PublicSum(s).value);
    }
  }

  // ----- spending -----

  /** The scanner's `add_private_keys`. */
  function AddKeys(a: nat, b: nat): nat {
    (a + b) % N
  }

  /** b_spend + t_k is the private key of the derived output. */
  lemma OutputKey(scan: seq<byte>, spend: nat, inputs: seq<Input>, k: nat)
    requires Group() && 0 < spend < N && k < Pow256(4)
    ensures Times(spend, G).Affine?
    ensures var r := OutputPoint(scan, Ser(Times(spend, G)), inputs, k);
      r.Some? ==>
        && SharedPoint(scan, inputs).Some? && SharedPoint(scan, inputs).value.Affine?
        && r.value == Times(AddKeys(spend, OutputTweak(SharedPoint(scan, inputs).value, k)), G)
  {
    ModSmall(N, spend);
    PublicKeyExists(spend);
    if OutputPoint(scan, Ser(Times(spend, G)), inputs, k).Some? {
      PayToKey(spend, SharedPoint(scan, inputs).value, k);
    }
  }

  lemma PayToKey(spend: nat, S: Point, k: nat)
    requires Group() && 0 < spend < N && k < Pow256(4) && Times(spend, G).Affine? && S.Affine?
    ensures PayTo(Ser(Times(spend, G)), S, k).Some? ==>
      PayTo(Ser(Times(spend, G)), S, k).value == Times(AddKeys(spend, OutputTweak(S, k)), G)
  {
    TimesClosed(spend, G);
    DecodeSer(Times(spend, G));
    TweakedKey(spend, OutputTweak(S, k));
  }

  lemma TweakedKey(spend: nat, t: nat)
    requires Group() && 0 < spend < N
    ensures PubPoint(t).Some? ==> PubPoint(t).value.Affine?
    ensures PubPoint(t).Some? ==> PointAdd(Times(spend, G), PubPoint(t).value) == Some(Times(AddKeys(spend, t), G))
    ensures AddKeys(spend, t) == 0 ==> Times(AddKeys(spend, t), G) == Infinity
  {
    if t % N != 0 {
      PublicKeyExists(t);
      TimesClosed(spend, G);
      PointAddIsAdd(Times(spend, G), Times(t % N, G));
      TimesMod(t, G);
      TimesSum(spend, t, G);
    }
    assert Times(0, G) == Infinity;
  }

  /** Adding a label's point adds the label's key: a labelled output is spendable too. */
  lemma LabelledKey(d: nat, m: nat)
    requires Group() && m % N != 0
    ensures PubPoint(m).Some?
    ensures PointAdd(Times(d, G), PubPoint(m).value) == Some(Times(AddKeys(d, m), G))
  {
    PublicKeyExists(m);
    TimesClosed(d, G);
    PointAddIsAdd(Times(d, G), Times(m % N, G));
    TimesMod(m, G);
    TimesSum(d, m, G);
  }

  /** A derived output's script is spendable with the tweak it was derived with. */
  lemma DerivedIsSpendable(scan: seq<byte>, spend: nat, inputs: seq<Input>, k: nat)
    requires Group() && 0 < spend < N && k < Pow256(4)
    ensures Times(spend, G).Affine?
    ensures var r := OutputPoint(scan, Ser(Times(spend, G)), inputs, k);
      r.Some? && r.value.Affine? ==>
        && SharedPoint(scan, inputs).Some? && SharedPoint(scan, inputs).value.Affine?
        && Spendable(spend, OutputTweak(SharedPoint(scan, inputs).value, k), Spk(r.value)[2..])
  {
    OutputKey(scan, spend, inputs, k);
    var r := OutputPoint(scan, Ser(Times(spend, G)), inputs, k);
    if r.Some? && r.value.Affine? {
      SpendableKey(spend, OutputTweak(SharedPoint(scan, inputs).value, k), r.value);
    }
  }

  lemma SpendableKey(spend: nat, t: nat, A: Point)
    requires Group() && A == Times(AddKeys(spend, t), G) && A.Affine?
    ensures Spendable(spend, t, Spk(A)[2..])
  {
    ModSmall(N, AddKeys(spend, t));
    assert Times(0, G) == Infinity;
    PublicKeyExists(AddKeys(spend, t));
    assert Spk(A)[2..] == Ser256(A.x);
  }

  /** So is a labelled one, with the label's key added to the tweak. */
  lemma LabelledIsSpendable(spend: nat, t: nat, m: nat)
    requires Group() && m % N != 0
    ensures PubPoint(m).Some?
    ensures var Q := PointAdd(Times(AddKeys(spend, t), G), PubPoint(m).value);
      Q.Some? && (Q.value.Affine? ==> Spendable(spend, AddKeys(t, m), Spk(Q.value)[2..]))
  {
    LabelledKey(AddKeys(spend, t), m);
    AddKeysAssociate(spend, t, m);
    var Q := PointAdd(Times(AddKeys(spend, t), G), PubPoint(m).value).value;
    if Q.Affine? {
      SpendableKey(spend, AddKeys(t, m), Q);
    }
  }

  lemma AddKeysAssociate(a: nat, b: nat, c: nat)
    ensures AddKeys(AddKeys(a, b), c) == AddKeys(a, AddKeys(b, c))
  {
    ModDiv(N, a + b);
    ModDiv(N, b + c);
    DivAdd(N, (a + b) % N - (a + b), (b + c) - (b + c) % N);
    ModEq(N, (a + b) % N + c, a + (b + c) % N);
  }

  /** The key a party's coin shows, the key it signs with and the key BIP-352 sums are one even-y key. */
  lemma PartyKey(priv: nat, outpoint: seq<byte>)
    requires Group() && 0 < priv < N
    ensures UtxoSigningPriv(priv).Some? && 0 < UtxoSigningPriv(priv).value < N
    ensures var d := UtxoSigningPriv(priv).value;
      && Times(d, G).Affine? && EvenY(Times(d, G))
      && UtxoXonly(priv) == Some(Ser256(Times(d, G).x))
      && Contribution(Input(UtxoXonly(priv).value, outpoint, true)) == Some(Times(d, G))
      && Normalised(SecretInput(d, outpoint, true)) == Some(d)
  {
    ModSmall(N, priv);
    PublicKeyExists(priv);
    var A := Times(priv, G);
    if A.y % 2 == 1 {
      NegatedKey(priv);
      ModSmall(N, N - priv);
      PublicKeyExists(N - priv);
      NegResidue(P, A.y);
      OddMinusOdd(P, A.y);
    }
    EvenKey(UtxoSigningPriv(priv).value, outpoint);
  }

  lemma EvenKey(d: nat, outpoint: seq<byte>)
    requires Group() && 0 < d < N && Times(d, G).Affine? && EvenY(Times(d, G))
    ensures Contribution(Input(Ser256(Times(d, G).x), outpoint, true)) == Some(Times(d, G))
    ensures Normalised(SecretInput(d, outpoint, true)) == Some(d)
  {
    ModSmall(N, d);
    TimesClosed(d, G);
    DecodeX(Times(d, G), 2);
  }

  /** `signing_key`: None stands for its ValueErrors. */
  function SigningKey(spend: nat, tweak: nat, pub: seq<byte>): Option<nat> {
    var total := (spend + tweak) % N;
    match PubPoint(total)
    case Some(Affine(x, y)) =>
      var d := if y % 2 == 1 then N - total else total;
      (match PubPoint(d)
       case Some(Affine(x', y')) => if Ser256(x') == pub then Some(d) else None
       case _ => None)
    case _ => None
  }

  /** For every output found with a tweak, the signing key exists, and its public point is the even-Y
      point of the output's key; for any other key there is none. */
  lemma SigningKeyExists(spend: nat, tweak: nat, pub: seq<byte>)
    requires Group() && (spend + tweak) % N != 0
    ensures Times(AddKeys(spend, tweak), G).Affine?
    ensures SigningKey(spend, tweak, pub).Some? <==> pub == Ser256(Times(AddKeys(spend, tweak), G).x)
    ensures SigningKey(spend, tweak, pub).Some? ==>
      var d := SigningKey(spend, tweak, pub).value;
      0 < d < N && Times(d, G).Affine? && EvenY(Times(d, G)) && Ser256(Times(d, G).x) == pub
  {
    var total := (spend + tweak) % N;
    ModSmall(N, total);
    PublicKeyExists(total);
    var A := Times(total, G);
    if A.y % 2 == 1 {
      NegatedKey(total);
      ModSmall(N, N - total);
      PublicKeyExists(N - total);
      NegResidue(P, A.y);
      OddMinusOdd(P, A.y);
    }
  }

  // ----- helpers/tangochange.py: an output a client can check without any secret -----

  /** `derive_payout_output`, with the address already split into its keys. */
  function DerivePayout(scanPub: seq<byte>, spendPub: seq<byte>, scan: seq<byte>, inputs: seq<Input>, k: nat)
    : Option<(seq<byte>, seq<byte>)>
  {
    match SharedPoint(scan, inputs)
    case Some(Affine(x, y)) =>
      if FromBE(scan) % N == 0 || k >= Pow256(4) then None
      else
        var t := Tagged("BIP0352/SharedSecret", Ser(Affine(x, y)) + BE(k, 4));
        if FromBE(t) == 0 || FromBE(t) >= N || |scanPub| != 33 || |spendPub| != 33 then None
        else
          (match ScriptOf(PayTo(spendPub, Affine(x, y), k))
           case None => None
           case Some(spk) => Some((spk, t)))
    case _ => None
  }

  /** `verify_payout_output` */
  predicate VerifyPayout(spendPub: seq<byte>, tweak: seq<byte>, script: seq<byte>) {
    && |tweak| == 32 && |script| == 34
    && 0 < FromBE(tweak) < N
    && (match (DecodePoint(spendPub), PubPoint(FromBE(tweak)))
        case (Some(B), Some(T)) => ScriptOf(PointAdd(B, T)) == Some(script)
        case _ => false)
  }

  /** Whatever the instance derives, both clients accept. */
  lemma DerivedVerifies(scanPub: seq<byte>, spendPub: seq<byte>, scan: seq<byte>, inputs: seq<Input>, k: nat)
    requires DerivePayout(scanPub, spendPub, scan, inputs, k).Some?
    ensures var (spk, tweak) := DerivePayout(scanPub, spendPub, scan, inputs, k).value;
      VerifyPayout(spendPub, tweak, spk)
  {
  }

  /** And whatever a client accepts, from whomever it came, pays the holder of b_spend: the script is
      the key of b_spend + t_k and of nothing else. */
  lemma VerifiedPaysInstance(spend: nat, tweak: seq<byte>, script: seq<byte>)
    requires Group() && 0 < spend < N
    ensures Times(spend, G).Affine?
    ensures VerifyPayout(Ser(Times(spend, G)), tweak, script)
      <==> && |tweak| == 32 && 0 < FromBE(tweak) < N && AddKeys(spend, FromBE(tweak)) != 0
           && Times(AddKeys(spend, FromBE(tweak)), G).Affine?
           && script == Spk(Times(AddKeys(spend, FromBE(tweak)), G))
  {
    ModSmall(N, spend);
    PublicKeyExists(spend);
    DecodeSer(Times(spend, G));
    if 0 < FromBE(tweak) < N {
      ModSmall(N, FromBE(tweak));
      TweakedKey(spend, FromBE(tweak));
    }
  }
}
