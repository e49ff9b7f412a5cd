/** What BIP-327 and BIP-341 say of the pieces that boltz_refund.py computes, told without its helpers. */
module TaprootRules {
  import opened Results
  import opened Bytes
  import opened Curve
  import opened Taproot

  // ----- keys -----

  /** A key is the point at its coordinate, and its first byte says whether the other coordinate is odd. */
  lemma ParsedKey(pk: seq<byte>)
    requires ParsePub(pk).Ok? && OnCurve(ParsePub(pk).value)
    ensures pk != [] && ParsePub(pk).value.Affine? && ParsePub(pk).value.x == FromBE(pk[1..])
    ensures ParsePub(pk).value.y % 2 == 1 <==> pk[0] == 3
  {
    var x := FromBE(pk[1..]);
    LiftXSound(x);
    if pk[0] == 3 {
      OddMinusEven(P, LiftX(x).value.y);
    }
  }

  /** Whatever point of the curve a compressed key stands for is found. */
  lemma KeyFound(pk: seq<byte>, A: Point)
    requires |pk| == 33 && OnCurve(A) && A.Affine? && A.x == FromBE(pk[1..]) && (pk[0] == 2 || pk[0] == 3)
    requires A.y % 2 == 1 <==> pk[0] == 3
    ensures ParsePub(pk) == Ok(A)
  {
    if EvenY(A) {
      LiftXComplete(A);
    } else {
      NegInverse(A);
      OppositeParity(A.y);
      LiftXComplete(Neg(A));
    }
  }

  // ----- BIP-327, "KeyAgg" -----

  /** j is the first key that is not the first key. */
  ghost predicate IsSecond(pks: seq<seq<byte>>, j: int) {
    0 <= j < |pks| && pks[j] != pks[0] && forall i :: 0 <= i < j ==> pks[i] == pks[0]
  }

  lemma {:induction false} SecondFound(pks: seq<seq<byte>>, i: nat, j: nat)
    requires i <= j && IsSecond(pks, j)
    ensures Second(pks, i) == Some(pks[j])
    decreases j - i
  {
    if i < j {
      SecondFound(pks, i + 1, j);
    }
  }

  lemma {:induction false} NoSecond(pks: seq<seq<byte>>, i: nat)
    requires forall k :: 0 <= k < |pks| ==> pks[k] == pks[0]
    ensures Second(pks, i).None?
    decreases |pks| - i
  {
    if i < |pks| {
      NoSecond(pks, i + 1);
    }
  }

  lemma JoinOne(pk: seq<byte>)
    ensures Join([pk]) == pk
  {
    assert [pk][..0] == [];
  }

  /** All keys, one after the other. */
  lemma {:induction false} JoinConcat(s: seq<seq<byte>>, t: seq<seq<byte>>)
    ensures Join(s + t) == Join(s) + Join(t)
  {
    if t == [] {
      assert s + t == s;
    } else {
      var n := |t| - 1;
      JoinConcat(s, t[..n]);
      assert (s + t)[..|s + t| - 1] == s + t[..n];
    }
  }

  /** The factor of a key, from its hash with the list. */
  ghost predicate Hashed(list: seq<byte>, pk: seq<byte>, factor: nat) {
    exists l: Digest, h: Digest ::
      IsTaggedHash(l, "KeyAgg list", list) && IsTaggedHash(h, "KeyAgg coefficient", l + pk) && factor == FromBE(h) % N
  }

  /** Every key equal to the second distinct one has the factor 1, and every other its hash. */
  ghost predicate ByRule(pks: seq<seq<byte>>, i: nat, factor: nat)
    requires i < |pks|
  {
    if exists j :: SecondIs(pks, j, pks[i]) then factor == 1 else Hashed(Join(pks), pks[i], factor)
  }

  ghost predicate SecondIs(pks: seq<seq<byte>>, j: int, pk: seq<byte>) {
    IsSecond(pks, j) && pks[j] == pk
  }

  lemma OneSecond(pks: seq<seq<byte>>, j: int, k: int)
    requires IsSecond(pks, j) && IsSecond(pks, k)
    ensures j == k
  {
  }

  lemma HashIsHashed(pks: seq<seq<byte>>, pk: seq<byte>)
    ensures Hashed(Join(pks), pk, FromBE(Tagged("KeyAgg coefficient", Tagged("KeyAgg list", Join(pks)) + pk)) % N)
  {
    var l := Tagged("KeyAgg list", Join(pks));
    TaggedIsTagged("KeyAgg list", Join(pks));
    TaggedIsTagged("KeyAgg coefficient", l + pk);
  }

  lemma CoefficientByRule(pks: seq<seq<byte>>, i: nat)
    requires i < |pks|
    ensures ByRule(pks, i, Coefficient(pks, pks[i]))
  {
    HashIsHashed(pks, pks[i]);
    if j :| IsSecond(pks, j) {
      SecondFound(pks, 0, j);
      forall k | IsSecond(pks, k) ensures k == j {
        OneSecond(pks, j, k);
      }
      assert pks[i] == pks[j] ==> SecondIs(pks, j, pks[i]);
    } else {
      AllEqual(pks, |pks|);
      NoSecond(pks, 0);
    }
  }

  lemma {:induction false} AllEqual(pks: seq<seq<byte>>, n: nat)
    requires n <= |pks| && forall j :: !IsSecond(pks, j)
    ensures forall i :: 0 <= i < n ==> pks[i] == pks[0]
  {
    if n > 0 {
      AllEqual(pks, n - 1);
      assert !IsSecond(pks, n - 1);
    }
  }

  /** The sum of the first n keys, each so often. */
  function WeightedSum(keys: seq<Point>, factors: seq<nat>, n: nat): Point
    requires n <= |keys| == |factors|
  {
    if n == 0 then Infinity else Add(WeightedSum(keys, factors, n - 1), Times(factors[n - 1], keys[n - 1]))
  }

  /** Any list of keys that parse is summed by BIP-327's rule. */
  lemma {:induction false} AggregatesByRule(pks: seq<seq<byte>>, keys: seq<Point>, n: nat) returns (factors: seq<nat>)
    requires n <= |pks| == |keys| && forall i :: 0 <= i < |pks| ==> ParsePub(pks[i]) == Ok(keys[i])
    ensures |factors| == |keys| && forall i :: 0 <= i < |pks| ==> ByRule(pks, i, factors[i])
    ensures KeySum(pks, n) == Ok(WeightedSum(keys, factors, n))
  {
    factors := seq(|pks|, i requires 0 <= i < |pks| => Coefficient(pks, pks[i]));
    forall i | 0 <= i < |pks| ensures ByRule(pks, i, factors[i]) {
      CoefficientByRule(pks, i);
    }
    SumsAlike(pks, keys, factors, n);
  }

  lemma {:induction false} SumsAlike(pks: seq<seq<byte>>, keys: seq<Point>, factors: seq<nat>, n: nat)
    requires n <= |pks| == |keys| == |factors|
    requires forall i :: 0 <= i < |pks| ==> ParsePub(pks[i]) == Ok(keys[i]) && factors[i] == Coefficient(pks, pks[i])
    ensures KeySum(pks, n) == Ok(WeightedSum(keys, factors, n))
  {
    if n > 0 {
      SumsAlike(pks, keys, factors, n - 1);
    }
  }

  /** Of two different keys the first comes in as often as its hash says, and the second once. */
  lemma TwoKeys(a: seq<byte>, b: seq<byte>, A: Point, B: Point) returns (factor: nat)
    requires a != b && ParsePub(a) == Ok(A) && ParsePub(b) == Ok(B)
    ensures Hashed(a + b, a, factor)
    ensures KeySum([a, b], 2) == Ok(Add(Times(factor, A), B))
  {
    var pks := [a, b];
    var factors := AggregatesByRule(pks, [A, B], 2);
    JoinOne(a);
    JoinOne(b);
    JoinConcat([a], [b]);
    assert [a] + [b] == pks;
    assert SecondIs(pks, 1, b);
    assert ByRule(pks, 0, factors[0]) && ByRule(pks, 1, factors[1]);
    factor := factors[0];
    assert Times(1, B) == B;
    assert WeightedSum([A, B], factors, 1) == Times(factor, A);
  }

  // ----- the orders that are tried -----

  /** The order sorted by the keys is one of the other two, and those are both there are. */
  lemma OrdersTried(claim: seq<byte>, refund: seq<byte>)
    ensures AggKeys(claim, refund, ClaimFirst) == [claim, refund] && AggKeys(claim, refund, RefundFirst) == [refund, claim]
    ensures AggKeys(claim, refund, Sorted) == if FirstSmaller(claim, refund) then [claim, refund] else [refund, claim]
  {
    LexIsDictionary(claim, refund);
  }

  // ----- BIP-341 -----

  lemma LeafTagged(script: seq<byte>)
    requires |script| <= 255
    ensures IsTaggedHash(Leaf(script), "TapLeaf", [0xC0, |script|] + script)
  {
    TaggedIsTagged("TapLeaf", [0xC0, |script|] + script);
  }

  /** A branch is hashed with the smaller of its two hashes in front. */
  lemma BranchTagged(a: seq<byte>, b: seq<byte>)
    requires FirstSmaller(a, b)
    ensures IsTaggedHash(Branch(a, b), "TapBranch", a + b) && Branch(b, a) == Branch(a, b)
  {
    LexIsDictionary(a, b);
    BranchSymmetric(a, b);
    TaggedIsTagged("TapBranch", a + b);
  }

  lemma TweakTagged(ikey: seq<byte>, root: seq<byte>) returns (h: Digest)
    ensures IsTaggedHash(h, "TapTweak", ikey + root) && Tweak(ikey, root) == FromBE(h)
  {
    h := Tagged("TapTweak", ikey + root);
    TaggedIsTagged("TapTweak", ikey + root);
  }

  /** The internal key is the x coordinate of the sum of the keys, and stands for the point there with even y; there
      is none exactly if the sum is infinity. */
  lemma InternalIsEven(keys: seq<seq<byte>>)
    requires KeySum(keys, |keys|).Ok? && OnCurve(KeySum(keys, |keys|).value)
    ensures InternalKey(keys).Ok? <==> KeySum(keys, |keys|).value.Affine?
    ensures InternalKey(keys).Ok? ==>
      var A := InternalKey(keys).value; OnCurve(A) && A.Affine? && A.x == KeySum(keys, |keys|).value.x && A.y % 2 == 0
  {
    if KeySum(keys, |keys|).value.Affine? {
      EvenedIsLift(KeySum(keys, |keys|).value);
    }
  }

  /** A key can be reconstructed exactly if there is an internal key, both scripts' lengths fit one byte, and the
      tweaked key is not infinity. */
  lemma ReconstructExactly(claim: seq<byte>, refund: seq<byte>, claimScript: seq<byte>, refundScript: seq<byte>, order: AggOrder)
    requires KeysCanonical(claim, refund)
    ensures Reconstruct(claim, refund, claimScript, refundScript, order).Ok?
      <==> && InternalKey(AggKeys(claim, refund, order)).Ok? && |claimScript| <= 255 && |refundScript| <= 255
           && var A := InternalKey(AggKeys(claim, refund, order)).value;
              Add(A, Times(Tweak(BE(A.x, 32), Branch(Leaf(refundScript), Leaf(claimScript))) % N, G)).Affine?
  {
    if InternalKey(AggKeys(claim, refund, order)).Ok? && |claimScript| <= 255 && |refundScript| <= 255 {
      InternalOnCurve(claim, refund, order);
      var A := InternalKey(AggKeys(claim, refund, order)).value;
      OutputOnCurve(A, Tweak(BE(A.x, 32), Branch(Leaf(refundScript), Leaf(claimScript))) % N);
    }
  }
}
