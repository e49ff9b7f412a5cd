/** The size a round is priced at, measured against the bytes of the transactions it can become: BIP-144's
    serialisation and BIP-141's weight. */
module TxSize {
  import opened Results
  import opened Bytes
  import opened Bip69
  import F = TxFormat
  import opened TangoPlan

  // ----- weight -----

  /** The serialisation without marker, flag and witnesses. */
  ghost function Stripped(tx: F.Tx): seq<byte>
    requires F.GoodTx(tx)
  {
    LE(tx.version, 4) + VarInt(|tx.ins|) + F.PutIns(tx.ins) + VarInt(|tx.outs|) + F.PutOuts(tx.outs) + LE(tx.lockTime, 4)
  }

  ghost function Weight(tx: F.Tx): nat
    requires F.GoodTx(tx)
  {
    3 * |Stripped(tx)| + |F.PutTx(tx)|
  }

  /** A transaction that a mix can become: key-path inputs with one 64-byte signature each, and 34-byte scripts. */
  ghost predicate IsMix(tx: F.Tx, nIn: nat, nOut: nat) {
    && F.GoodTx(tx) && |tx.ins| == nIn && |tx.outs| == nOut
    && (forall i :: 0 <= i < nIn ==> tx.ins[i].scriptSig == [])
    && (forall i :: 0 <= i < nIn ==> |tx.witnesses[i]| == 1 && |tx.witnesses[i][0]| == 64)
    && (forall i :: 0 <= i < nOut ==> |tx.outs[i].script| == 34)
  }

  lemma {:induction false} FlattenLength(parts: seq<seq<byte>>, len: nat)
    requires forall i :: 0 <= i < |parts| ==> |parts[i]| == len
    ensures |F.Flatten(parts)| == |parts| * len
  {
    if parts != [] {
      var n := |parts| - 1;
      FlattenLength(parts[..n], len);
      Another(n, len);
    }
  }

  lemma Another(n: nat, len: nat)
    ensures (n + 1) * len == n * len + len
  {
  }

  lemma SmallVarInt(n: nat)
    requires n < 253
    ensures n < Pow256(8) && |VarInt(n)| == 1
  {
    Pow256Values();
  }

  /** 36 bytes of outpoint, an empty script's length, and the sequence number. */
  lemma InLength(i: F.TxIn)
    requires F.GoodIn(i) && i.scriptSig == []
    ensures |F.PutIn(i)| == 41
  {
    SmallVarInt(0);
  }

  /** The value, the script's length, and the script. */
  lemma OutLength(o: F.TxOut)
    requires F.GoodOut(o) && |o.script| == 34
    ensures |F.PutOut(o)| == 43
  {
    SmallVarInt(34);
  }

  /** A count, a length, and the signature. */
  lemma StackLength(st: seq<seq<byte>>)
    requires F.GoodStack(st) && |st| == 1 && |st[0]| == 64
    ensures |F.PutStack(st)| == 66
  {
    SmallVarInt(1);
    SmallVarInt(64);
    var parts := seq(|st|, i requires 0 <= i < |st| => F.PutVarBytes(st[i]));
    FlattenLength(parts, 65);
  }

  lemma InsLength(tx: F.Tx, nIn: nat, nOut: nat)
    requires IsMix(tx, nIn, nOut)
    ensures |F.PutIns(tx.ins)| == nIn * 41
  {
    var parts := seq(|tx.ins|, i requires 0 <= i < |tx.ins| => F.PutIn(tx.ins[i]));
    forall i | 0 <= i < |parts| ensures |parts[i]| == 41 {
      InLength(tx.ins[i]);
    }
    F.PutInsParts(tx.ins, parts);
    FlattenLength(parts, 41);
  }

  lemma OutsLength(tx: F.Tx, nIn: nat, nOut: nat)
    requires IsMix(tx, nIn, nOut)
    ensures |F.PutOuts(tx.outs)| == nOut * 43
  {
    var parts := seq(|tx.outs|, i requires 0 <= i < |tx.outs| => F.PutOut(tx.outs[i]));
    forall i | 0 <= i < |parts| ensures |parts[i]| == 43 {
      OutLength(tx.outs[i]);
    }
    F.PutOutsParts(tx.outs, parts);
    FlattenLength(parts, 43);
  }

  lemma StacksLength(tx: F.Tx, nIn: nat, nOut: nat)
    requires IsMix(tx, nIn, nOut)
    ensures |F.PutStacks(tx.witnesses)| == nIn * 66
  {
    var parts := seq(|tx.witnesses|, i requires 0 <= i < |tx.witnesses| => F.PutStack(tx.witnesses[i]));
    forall i | 0 <= i < |parts| ensures |parts[i]| == 66 {
      StackLength(tx.witnesses[i]);
    }
    F.PutStacksParts(tx.witnesses, parts);
    FlattenLength(parts, 66);
  }

  /** The weight by counts, given how long the two counts are themselves. */
  lemma MixWeight(tx: F.Tx, nIn: nat, nOut: nat)
    requires IsMix(tx, nIn, nOut)
    ensures nIn < Pow256(8) && nOut < Pow256(8)
    ensures Weight(tx) == 34 + 230 * nIn + 172 * nOut + 4 * |VarInt(nIn)| + 4 * |VarInt(nOut)|
  {
    InsLength(tx, nIn, nOut);
    OutsLength(tx, nIn, nOut);
    StacksLength(tx, nIn, nOut);
  }

  // ----- the estimate -----

  /** The estimate is a quarter of the weight of counts that take one byte each, rounded up. */
  lemma VsizeQuarter(nIn: nat, nOut: nat)
    ensures Vsize(nIn, nOut) == (42 + 230 * nIn + 172 * nOut + 3) / 4
  {
    var w := 42 + 230 * nIn + 172 * nOut;
    assert 10.5 + 57.5 * nIn as real + 43.0 * nOut as real == w as real / 4.0;
    CeilQuarter(w);
  }

  lemma CeilQuarter(w: nat)
    ensures Ceil(w as real / 4.0) == (w + 3) / 4
  {
    var q, r := w / 4, w % 4;
    assert w as real / 4.0 == q as real + r as real / 4.0;
    if r == 0 {
      assert (w as real / 4.0).Floor == q;
    } else {
      assert (w as real / 4.0).Floor == q;
    }
  }

  /** A count takes one byte below 253, and at least three from there on. */
  lemma CountLength(n: nat)
    requires n < Pow256(8)
    ensures n < 253 ==> |VarInt(n)| == 1
    ensures n >= 253 ==> |VarInt(n)| >= 3
  {
  }

  /** The estimate is never above the virtual size of the transaction, and is it exactly if there are fewer
      than 253 inputs and fewer than 253 outputs. */
  lemma VsizeIsVirtualSize(tx: F.Tx, nIn: nat, nOut: nat)
    requires IsMix(tx, nIn, nOut)
    ensures Vsize(nIn, nOut) <= (Weight(tx) + 3) / 4
    ensures Vsize(nIn, nOut) == (Weight(tx) + 3) / 4 <==> nIn < 253 && nOut < 253
  {
    MixWeight(tx, nIn, nOut);
    VsizeQuarter(nIn, nOut);
    CountLength(nIn);
    CountLength(nOut);
  }

  // ----- the fee -----

  /** The fee for a size is the least number of satoshis, and at least one, that pays the rate for all of it. */
  lemma FeeIsLeast(vsize: int, rate: real, fee: int)
    ensures FeeFor(vsize, rate) >= 1 && FeeFor(vsize, rate) as real >= vsize as real * rate
    ensures fee >= 1 && fee as real >= vsize as real * rate ==> FeeFor(vsize, rate) <= fee
  {
  }

  lemma QuarterPays(fee: int, vsize: int, w: nat, rate: real)
    requires rate >= 0.0 && fee as real >= vsize as real * rate && 4 * vsize >= w
    ensures 4.0 * fee as real >= w as real * rate
  {
    RealProduct(w as real, 4.0 * vsize as real, rate);
    assert 4.0 * vsize as real * rate == 4.0 * (vsize as real * rate);
  }

  /** The fee pays the rate for every quarter of the weight. */
  ghost predicate PaysRate(fee: int, weight: nat, rate: real) {
    match weight
    case w => 4.0 * fee as real >= w as real * rate
  }

  /** The fee was reckoned for at least this size. */
  ghost predicate PaysSize(fee: int, vsize: int, rate: real) {
    match vsize
    case v => fee >= FeeFor(v, rate)
  }

  lemma SizePaid(fee: int, vsize: int, weight: nat, rate: real)
    requires PaysSize(fee, vsize, rate) && 4 * vsize >= weight
    ensures PaysRate(fee, weight, rate)
  {
    FeeIsLeast(vsize, rate, fee);
    if rate >= 0.0 {
      QuarterPays(fee, vsize, weight, rate);
    } else {
      NegativeProduct(weight as real, rate);
    }
  }

  lemma PlanPaysSize(aInputs: seq<Coin>, bInputs: seq<Coin>, denom: int, rate: real, pieces: int, p: Amounts, nOut: nat)
    requires PlanOf(aInputs, bInputs, denom, rate, pieces) == Ok(p) && nOut == OutputCount(p)
    ensures PaysSize(p.fee, Vsize(|aInputs| + |bInputs|, nOut), rate)
  {
    NeverUnderpays(aInputs, bInputs, denom, rate, pieces);
  }

  /** Whatever transaction the round becomes, with fewer than 253 inputs and outputs: its fee pays at least the
      rate chosen for every quarter of its weight. */
  lemma FeePaysWeight(aInputs: seq<Coin>, bInputs: seq<Coin>, denom: int, rate: real, pieces: int, p: Amounts, nOut: nat, tx: F.Tx)
    requires PlanOf(aInputs, bInputs, denom, rate, pieces) == Ok(p) && nOut == OutputCount(p)
    requires IsMix(tx, |aInputs| + |bInputs|, nOut) && |tx.ins| < 253 && nOut < 253
    ensures PaysRate(p.fee, Weight(tx), rate)
  {
    PlanPaysSize(aInputs, bInputs, denom, rate, pieces, p, nOut);
    VsizeIsVirtualSize(tx, |aInputs| + |bInputs|, nOut);
    SizePaid(p.fee, Vsize(|aInputs| + |bInputs|, nOut), Weight(tx), rate);
  }

  // ----- exactly when the fee pays -----

  /** With both changes made, the price was for just these outputs and nothing was added to it. */
  lemma BothChanges(aInputs: seq<Coin>, bInputs: seq<Coin>, denom: int, rate: real, pieces: int, p: Amounts)
    requires PlanOf(aInputs, bInputs, denom, rate, pieces) == Ok(p) && p.aChange != 0 && p.bChange != 0
    ensures OutputCount(p) == 2 * p.pieces + 2 >= 0
    ensures p.fee == FeeFor(Vsize(|aInputs| + |bInputs|, OutputCount(p)), rate)
  {
    var nIn := |aInputs| + |bInputs|;
    PlanConserves(aInputs, bInputs, denom, rate, pieces);
    PricesGrow(nIn, rate);
    OutputsOfThirdPass(Sizes(nIn), Prices(nIn, rate), aInputs != [] && bInputs != [], Total(aInputs), Total(bInputs), denom, pieces);
    DearestShape(Prices(nIn, rate), p.pieces, Total(aInputs) - denom, Total(bInputs) - denom, 2);
    DustRecovered(aInputs, bInputs, denom, rate, pieces);
  }

  lemma JustTheRate(vsize: nat, weight: nat, rate: real)
    requires vsize >= 1 && rate >= 1.0 && weight >= 4 * vsize + 5
    ensures 4.0 * FeeFor(vsize, rate) as real < weight as real * rate
  {
    var v, w := vsize as real, weight as real;
    RealProduct(1.0, v, rate);
    RealProduct(4.0 * v + 5.0, w, rate);
    assert (4.0 * v + 5.0) * rate == 4.0 * (v * rate) + 5.0 * rate;
  }

  lemma NotPaid(fee: int, vsize: nat, weight: nat, rate: real)
    requires vsize >= 1 && rate >= 1.0 && weight >= 4 * vsize + 5 && fee == FeeFor(vsize, rate)
    ensures !PaysRate(fee, weight, rate)
  {
    JustTheRate(vsize, weight, rate);
  }

  lemma LongCounts(tx: F.Tx, nIn: nat, nOut: nat)
    requires IsMix(tx, nIn, nOut) && (nIn >= 253 || nOut >= 253)
    ensures Vsize(nIn, nOut) >= 1 && Weight(tx) >= 4 * Vsize(nIn, nOut) + 5
  {
    MixWeight(tx, nIn, nOut);
    VsizeQuarter(nIn, nOut);
    CountLength(nIn);
    CountLength(nOut);
  }

  /** A round of at least one satoshi a byte in which both sides get change pays its rate exactly if it has
      fewer than 253 inputs and fewer than 253 outputs. */
  lemma PaysExactly(aInputs: seq<Coin>, bInputs: seq<Coin>, denom: int, rate: real, pieces: int, p: Amounts, nOut: nat, tx: F.Tx)
    requires PlanOf(aInputs, bInputs, denom, rate, pieces) == Ok(p) && rate >= 1.0 && nOut == OutputCount(p)
    requires p.aChange != 0 && p.bChange != 0 && IsMix(tx, |aInputs| + |bInputs|, nOut)
    ensures PaysRate(p.fee, Weight(tx), rate) <==> |tx.ins| < 253 && nOut < 253
  {
    if |tx.ins| < 253 && nOut < 253 {
      FeePaysWeight(aInputs, bInputs, denom, rate, pieces, p, nOut, tx);
    } else {
      BothChanges(aInputs, bInputs, denom, rate, pieces, p);
      LongCounts(tx, |aInputs| + |bInputs|, nOut);
      NotPaid(p.fee, Vsize(|aInputs| + |bInputs|, nOut), Weight(tx), rate);
    }
  }
}
