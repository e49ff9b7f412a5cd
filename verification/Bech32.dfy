/** The Bech32m checksum of boltz_refund.py. */
module Bech32 {
  import opened Bits

  const BECH32M_CONST: nat := 0x2BC830A3
  const TWO_25: nat := 0x2000000
  const TWO_30: nat := 0x40000000

  // ----- `_poly` -----

  const GENERATOR: seq<nat> := [0x3B6A57B2, 0x26508E6D, 0x1EA119FA, 0x3D4233DD, 0x2A1462B3]

  /** Bit i of b selects generator i. */
  function Mask(b: nat, i: nat): nat
    requires i < 5
  {
    if (b / Pow2(i)) % 2 == 1 then GENERATOR[i] else 0
  }

  function Masks(b: nat, n: nat): nat
    requires n <= 5
  {
    if n == 0 then 0 else Xor(Masks(b, n - 1), Mask(b, n - 1))
  }

  /** One round of the checksum: a shift by five bits, the next symbol, and the feedback of the
      five bits shifted out. */
  function Step(c: nat, x: nat): nat {
    Xor(Xor((c % TWO_25) * 32, x), Masks(c / TWO_25, 5))
  }

  function Fold(c: nat, v: seq<nat>): nat {
    if v == [] then c else Step(Fold(c, v[..|v| - 1]), v[|v| - 1])
  }

  function Poly(v: seq<nat>): nat {
    Fold(1, v)
  }

  method PolyMod(v: seq<nat>) returns (c: nat)
    ensures c == Poly(v)
  {
    c := 1;
    for k := 0 to |v|
      invariant c == Fold(1, v[..k])
    {
      var b := c / TWO_25;
      c := Xor((c % TWO_25) * 32, v[k]);
      ghost var base := c;
      XorZero(base);
      for i := 0 to 5
        invariant c == Xor(base, Masks(b, i))
      {
        XorAssoc(base, Masks(b, i), Mask(b, i));
        XorZero(c);
        c := Xor(c, if (b / Pow2(i)) % 2 == 1 then GENERATOR[i] else 0);
      }
      assert v[..k + 1][..k] == v[..k];
    }
    assert v[..|v|] == v;
  }

  // ----- why the checksum is right -----

  lemma XorLowBits(c: nat, d: nat)
    requires d < TWO_25
    ensures Xor(c, d) / TWO_25 == c / TWO_25
    ensures Xor(c, d) % TWO_25 == Xor(c % TWO_25, d)
  {
    var hi, lo := c / TWO_25, c % TWO_25;
    Pow2Values();
    XorBlocks(25, hi, lo, 0, d);
    XorZero(hi);
    DivModUnique(TWO_25, hi, Xor(lo, d), Xor(c, d));
  }

  lemma XorShifted(a: nat, d: nat, e: nat)
    requires e < 32
    ensures Xor(a, d) * 32 == Xor(a * 32, d * 32)
    ensures Xor(d * 32, e) == d * 32 + e
  {
    Pow2Values();
    XorBlocks(5, a, 0, d, 0);
    XorBlocks(5, d, 0, 0, e);
    XorZero(d);
    XorZero(e);
  }

  /** (u ^ d) ^ (x ^ e) ^ m == (u ^ x ^ m) ^ (d ^ e) */
  lemma XorGather(u: nat, d: nat, x: nat, e: nat, m: nat)
    ensures Xor(Xor(Xor(u, d), Xor(x, e)), m) == Xor(Xor(Xor(u, x), m), Xor(d, e))
  {
    XorSwap(u, d, x, e);
    XorRight(Xor(u, x), Xor(d, e), m);
  }

  /** A change below the feedback bits moves up unmixed. */
  lemma StepShift(c: nat, d: nat, x: nat, e: nat)
    requires d < TWO_25 && e < 32
    ensures d * 32 + e < TWO_30
    ensures Step(Xor(c, d), Xor(x, e)) == Xor(Step(c, x), d * 32 + e)
  {
    XorLowBits(c, d);
    XorShifted(c % TWO_25, d, e);
    XorGather((c % TWO_25) * 32, d * 32, x, e, Masks(c / TWO_25, 5));
  }

  lemma Pow2Values()
    ensures Pow2(5) == 32 && Pow2(25) == TWO_25 && Pow2(30) == TWO_30
  {
    assert Pow2(5) == 32;
    Pow2Add(5, 5);
    Pow2Add(5, 10);
    Pow2Add(10, 15);
    Pow2Add(5, 25);
  }

  ghost predicate Symbols(v: seq<nat>) {
    forall i :: 0 <= i < |v| ==> v[i] < 32
  }

  /** Symbols read as one number, five bits each. */
  function Concat(v: seq<nat>): nat {
    if v == [] then 0 else Concat(v[..|v| - 1]) * 32 + v[|v| - 1]
  }

  function XorAll(s: seq<nat>, t: seq<nat>): (r: seq<nat>)
    requires |s| == |t|
    ensures |r| == |s|
  {
    seq(|s|, i requires 0 <= i < |s| => Xor(s[i], t[i]))
  }

  lemma {:induction false} ConcatBound(t: seq<nat>)
    requires Symbols(t)
    ensures Concat(t) < Pow2(5 * |t|)
  {
    if t != [] {
      ConcatBound(t[..|t| - 1]);
      Pow2Add(5 * (|t| - 1), 5);
      Pow2Values();
    }
  }

  lemma ConcatSmall(t: seq<nat>)
    requires Symbols(t) && |t| <= 5
    ensures Concat(t) < TWO_25
  {
    ConcatBound(t);
    Pow2Monotone(5 * |t|, 25);
    Pow2Values();
  }

  /** Up to six symbols exclusive-ored into the input are exclusive-ored, as one 30-bit number,
      into the checksum. */
  lemma {:induction false} FoldDelta(c: nat, s: seq<nat>, t: seq<nat>)
    requires |s| == |t| <= 6 && Symbols(t)
    ensures Fold(c, XorAll(s, t)) == Xor(Fold(c, s), Concat(t))
  {
    if s == [] {
      XorZero(c);
    } else {
      var n := |s| - 1;
      var s', t' := s[..n], t[..n];
      FoldDelta(c, s', t');
      assert XorAll(s, t)[..n] == XorAll(s', t');
      ConcatSmall(t');
      StepShift(Fold(c, s'), Concat(t'), s[n], t[n]);
    }
  }

  lemma {:induction false} Pow2Monotone(m: nat, n: nat)
    requires m <= n
    ensures Pow2(m) <= Pow2(n)
  {
    if m < n {
      Pow2Monotone(m, n - 1);
    }
  }

  lemma {:induction false} FoldConcat(c: nat, s: seq<nat>, t: seq<nat>)
    ensures Fold(c, s + t) == Fold(Fold(c, s), t)
  {
    if t == [] {
      assert s + t == s;
    } else {
      var n := |t| - 1;
      FoldConcat(c, s, t[..n]);
      assert (s + t)[..|s + t| - 1] == s + t[..n];
    }
  }

  lemma MasksBound(b: nat, n: nat)
    requires n <= 5
    ensures Masks(b, n) < TWO_30
  {
    if n > 0 {
      MasksBound(b, n - 1);
      XorBound(Masks(b, n - 1), Mask(b, n - 1));
    }
  }

  lemma XorBound(a: nat, b: nat)
    requires a < TWO_30 && b < TWO_30
    ensures Xor(a, b) < TWO_30
  {
    Pow2Values();
    XorBlocks(30, 0, a, 0, b);
  }

  /** The state stays within 30 bits. */
  lemma StepBound(c: nat, x: nat)
    requires x < TWO_30
    ensures Step(c, x) < TWO_30
  {
    XorBound((c % TWO_25) * 32, x);
    MasksBound(c / TWO_25, 5);
    XorBound(Xor((c % TWO_25) * 32, x), Masks(c / TWO_25, 5));
  }

  /** `[(pm >> 5 * (5 - i)) & 31 for i in range(6)]` */
  function Sextet(pm: nat): (r: seq<nat>)
    ensures |r| == 6 && Symbols(r)
  {
    seq(6, i requires 0 <= i < 6 => (pm / Pow2(5 * (5 - i))) % 32)
  }

  lemma {:induction false} ConcatPush(v: seq<nat>, x: nat)
    ensures Concat(v + [x]) == Concat(v) * 32 + x
  {
    assert (v + [x])[..|v|] == v;
  }

  /** pm shifted right by 5 * (6 - k) bits is its first k symbols. */
  lemma {:induction false} SextetPrefix(pm: nat, k: nat)
    requires pm < TWO_30 && k <= 6
    ensures Concat(Sextet(pm)[..k]) == pm / Pow2(5 * (6 - k))
  {
    var r := Sextet(pm);
    if k == 0 {
      Pow2Values();
      DivSmall(pm, Pow2(30));
    } else {
      var e := 5 * (6 - k);
      SextetPrefix(pm, k - 1);
      assert r[..k] == r[..k - 1] + [r[k - 1]];
      ConcatPush(r[..k - 1], r[k - 1]);
      SextetAt(pm, k - 1, e);
      SextetShift(pm, e);
      assert 5 * (6 - (k - 1)) == e + 5;
    }
  }

  lemma DivSmall(a: nat, m: nat)
    requires a < m
    ensures a / m == 0
  {
  }

  lemma SextetAt(pm: nat, i: nat, e: nat)
    requires i < 6 && e == 5 * (5 - i)
    ensures Sextet(pm)[i] == (pm / Pow2(e)) % 32
  {
  }

  lemma SextetShift(pm: nat, e: nat)
    ensures pm / Pow2(e + 5) * 32 + (pm / Pow2(e)) % 32 == pm / Pow2(e)
  {
    Pow2Values();
    Pow2Add(5, e);
    DivDiv(pm, Pow2(e), 32, Pow2(e + 5));
  }

  lemma DivDiv(a: nat, m: nat, n: nat, nm: nat)
    requires m > 0 && n > 0 && nm == n * m && nm > 0
    ensures a / nm * n + (a / m) % n == a / m
  {
    var q, r := QuotientRemainder(a, m);
    var u, w := QuotientRemainder(q, n);
    MulBound(w, n, m, r);
    Nested(m, n, nm, u, w, r);
    DivModUnique(nm, u, w * m + r, a);
  }

  lemma Nested(m: nat, n: nat, nm: nat, u: nat, w: nat, r: nat)
    requires nm == n * m
    ensures m * (n * u + w) + r == u * nm + (w * m + r)
  {
  }

  lemma MulBound(w: nat, n: nat, m: nat, r: nat)
    requires w < n && r < m
    ensures w * m + r < n * m
  {
    assert (w + 1) * m <= n * m;
  }

  lemma SextetConcat(pm: nat)
    requires pm < TWO_30
    ensures Concat(Sextet(pm)) == pm
  {
    SextetPrefix(pm, 6);
    assert Pow2(0) == 1;
    assert Sextet(pm)[..6] == Sextet(pm);
  }

  /** `_hrpexp` */
  function HrpExpand(h: string): seq<nat> {
    seq(|h|, i requires 0 <= i < |h| => h[i] as nat / 32)
    + [0]
    + seq(|h|, i requires 0 <= i < |h| => h[i] as nat % 32)
  }

  /** BIP-350's expansion of a prefix: for each character the high bits, a zero, and for each the low five. */
  ghost predicate Expands(h: string, e: seq<nat>) {
    |e| == 2 * |h| + 1 && e[|h|] == 0 && forall i :: 0 <= i < |h| ==> Splits(h[i], e[i], e[|h| + 1..][i])
  }

  ghost predicate Splits(c: char, high: nat, low: nat) {
    low < 32 && high * 32 + low == c as nat
  }

  lemma HrpExpands(h: string)
    ensures Expands(h, HrpExpand(h))
  {
    var e := HrpExpand(h);
    assert e[|h| + 1..] == seq(|h|, i requires 0 <= i < |h| => h[i] as nat % 32);
  }

  lemma ExpandsUnique(h: string, e: seq<nat>)
    requires Expands(h, e)
    ensures e == HrpExpand(h)
  {
    var f := HrpExpand(h);
    HrpExpands(h);
    forall i | 0 <= i < |h| ensures e[i] == f[i] && e[|h| + 1..][i] == f[|h| + 1..][i] {
      assert Splits(h[i], e[i], e[|h| + 1..][i]) && Splits(h[i], f[i], f[|h| + 1..][i]);
    }
    assert e == e[..|h|] + [e[|h|]] + e[|h| + 1..] && f == f[..|h|] + [f[|h|]] + f[|h| + 1..];
    assert e[..|h|] == f[..|h|] && e[|h| + 1..] == f[|h| + 1..];
  }

  /** BIP-350's check. */
  ghost predicate Valid(h: string, d: seq<nat>) {
    forall e :: Expands(h, e) ==> Poly(e + d) == 0x2BC830A3
  }

  lemma ValidMeans(h: string, d: seq<nat>)
    ensures Valid(h, d) <==> Poly(HrpExpand(h) + d) == BECH32M_CONST
  {
    HrpExpands(h);
    forall e | Expands(h, e) ensures e == HrpExpand(h) {
      ExpandsUnique(h, e);
    }
  }

  /** The six symbols `_bech32m_addr` appends. */
  function Checksum(hrp: string, data: seq<nat>): seq<nat> {
    Sextet(Xor(Poly(HrpExpand(hrp) + data + [0, 0, 0, 0, 0, 0]), BECH32M_CONST))
  }

  lemma ChecksumCloses(c: nat, zeros: seq<nat>)
    requires zeros == [0, 0, 0, 0, 0, 0]
    ensures Fold(c, Sextet(Xor(Fold(c, zeros), BECH32M_CONST))) == BECH32M_CONST
  {
    var z := Fold(c, zeros);
    StepBound(Fold(c, zeros[..5]), 0);
    var pm := Xor(z, BECH32M_CONST);
    XorBound(z, BECH32M_CONST);
    SextetConcat(pm);
    var chk := Sextet(pm);
    assert XorAll(zeros, chk) == chk by {
      forall i | 0 <= i < 6 ensures Xor(zeros[i], chk[i]) == chk[i] {
        XorZero(chk[i]);
      }
    }
    FoldDelta(c, zeros, chk);
    XorAssoc(z, z, BECH32M_CONST);
    XorSelf(z);
    XorZero(BECH32M_CONST);
  }

  /** For every prefix and every data, the symbols with their checksum verify. */
  lemma ChecksumVerifies(hrp: string, data: seq<nat>)
    ensures Valid(hrp, data + Checksum(hrp, data))
  {
    var v := HrpExpand(hrp) + data;
    ValidMeans(hrp, data + Checksum(hrp, data));
    assert v + Checksum(hrp, data) == HrpExpand(hrp) + (data + Checksum(hrp, data));
    var zeros: seq<nat> := [0, 0, 0, 0, 0, 0];
    FoldConcat(1, v, zeros);
    FoldConcat(1, v, Checksum(hrp, data));
    ChecksumCloses(Poly(v), zeros);
  }

  // ----- what the checksum detects -----

  function Bit(a: nat, j: nat): bool {
    (a / Pow2(j)) % 2 == 1
  }

  lemma {:induction false} BitXor(a: nat, b: nat, j: nat)
    ensures Bit(Xor(a, b), j) == (Bit(a, j) != Bit(b, j))
  {
    XorSplit(a, b);
    if j > 0 {
      BitXor(a / 2, b / 2, j - 1);
      BitHalf(a, j);
      BitHalf(b, j);
      BitHalf(Xor(a, b), j);
    }
  }

  lemma BitHalf(a: nat, j: nat)
    requires j > 0
    ensures Bit(a, j) == Bit(a / 2, j - 1)
  {
    var m := Pow2(j - 1);
    var q, r := a / 2 / m, a / 2 % m;
    assert a / 2 == q * m + r;
    assert a == q * (2 * m) + (2 * r + a % 2) by {
      assert q * (2 * m) == 2 * (q * m);
    }
    DivModUnique(2 * m, q, 2 * r + a % 2, a);
  }

  /** Bit j of the feedback is the parity of the bits of b whose generators have bit j set. */
  lemma MasksBit(b: nat, j: nat)
    requires j < 5
    ensures Bit(Masks(b, 5), j) == (
      (((((Bit(b, 0) && Bit(GENERATOR[0], j)) != (Bit(b, 1) && Bit(GENERATOR[1], j)))
      != (Bit(b, 2) && Bit(GENERATOR[2], j))) != (Bit(b, 3) && Bit(GENERATOR[3], j)))
      != (Bit(b, 4) && Bit(GENERATOR[4], j))))
  {
    MasksBitStep(b, 0, j);
    MasksBitStep(b, 1, j);
    MasksBitStep(b, 2, j);
    MasksBitStep(b, 3, j);
    MasksBitStep(b, 4, j);
    assert Masks(b, 0) == 0 && !Bit(0, j);
  }

  lemma MasksBitStep(b: nat, i: nat, j: nat)
    requires i < 5
    ensures Bit(Masks(b, i + 1), j) == (Bit(Masks(b, i), j) != (Bit(b, i) && Bit(GENERATOR[i], j)))
  {
    BitXor(Masks(b, i), Mask(b, i), j);
    assert !Bit(0, j);
  }

  lemma BitZero(a: nat)
    ensures Bit(a, 0) == (a % 2 == 1)
  {
    assert Pow2(0) == 1;
  }

  lemma {:induction false} LowBits(m: nat, n: nat, j: nat)
    requires j < n
    ensures Bit(m, j) == Bit(m % Pow2(n), j)
  {
    ModHalf(m, Pow2(n), Pow2(n - 1));
    if j == 0 {
      BitZero(m);
      BitZero(m % Pow2(n));
    } else {
      BitHalf(m, j);
      BitHalf(m % Pow2(n), j);
      LowBits(m / 2, n - 1, j - 1);
    }
  }

  lemma LowBit(m: nat, j: nat)
    requires j < 5
    ensures Bit(m, j) == Bit(m % 32, j)
  {
    Pow2Values();
    LowBits(m, 5, j);
  }

  lemma GeneratorLow()
    ensures GENERATOR[0] % 32 == 18 && GENERATOR[1] % 32 == 13 && GENERATOR[2] % 32 == 26
    ensures GENERATOR[3] % 32 == 29 && GENERATOR[4] % 32 == 19
  {
  }

  /** The low five bits of the five generators. */
  lemma GeneratorBits(j: nat)
    requires j < 5
    ensures Bit(GENERATOR[0], j) == (j == 1 || j == 4)
    ensures Bit(GENERATOR[1], j) == (j == 0 || j == 2 || j == 3)
    ensures Bit(GENERATOR[2], j) == (j == 1 || j == 3 || j == 4)
    ensures Bit(GENERATOR[3], j) == (j == 0 || j == 2 || j == 3 || j == 4)
    ensures Bit(GENERATOR[4], j) == (j == 0 || j == 1 || j == 4)
  {
    GeneratorLow();
    LowBit(GENERATOR[0], j);
    LowBit(GENERATOR[1], j);
    LowBit(GENERATOR[2], j);
    LowBit(GENERATOR[3], j);
    LowBit(GENERATOR[4], j);
    SmallPowers();
  }

  lemma SmallPowers()
    ensures Pow2(0) == 1 && Pow2(1) == 2 && Pow2(2) == 4 && Pow2(3) == 8 && Pow2(4) == 16
  {
  }

  /** The feedback's low five bits determine the five bits that caused it. */
  lemma FeedbackInjective(b: nat, b': nat)
    requires b < 32 && b' < 32 && Masks(b, 5) % 32 == Masks(b', 5) % 32
    ensures b == b'
  {
    Parity(b, b', 0);
    Parity(b, b', 1);
    Parity(b, b', 2);
    Parity(b, b', 3);
    Parity(b, b', 4);
    FiveBits(b, b');
  }

  lemma Parity(b: nat, b': nat, j: nat)
    requires j < 5 && Masks(b, 5) % 32 == Masks(b', 5) % 32
    ensures j == 0 ==> ((Bit(b, 1) != Bit(b, 3)) != Bit(b, 4)) == ((Bit(b', 1) != Bit(b', 3)) != Bit(b', 4))
    ensures j == 1 ==> ((Bit(b, 0) != Bit(b, 2)) != Bit(b, 4)) == ((Bit(b', 0) != Bit(b', 2)) != Bit(b', 4))
    ensures j == 2 ==> (Bit(b, 1) != Bit(b, 3)) == (Bit(b', 1) != Bit(b', 3))
    ensures j == 3 ==> ((Bit(b, 1) != Bit(b, 2)) != Bit(b, 3)) == ((Bit(b', 1) != Bit(b', 2)) != Bit(b', 3))
    ensures j == 4 ==>
      (((Bit(b, 0) != Bit(b, 2)) != Bit(b, 3)) != Bit(b, 4))
      == (((Bit(b', 0) != Bit(b', 2)) != Bit(b', 3)) != Bit(b', 4))
  {
    GeneratorBits(j);
    MasksBit(b, j);
    MasksBit(b', j);
    LowBit(Masks(b, 5), j);
    LowBit(Masks(b', 5), j);
  }

  lemma FiveBits(b: nat, b': nat)
    requires b < 32 && b' < 32
    requires Bit(b, 0) == Bit(b', 0) && Bit(b, 1) == Bit(b', 1) && Bit(b, 2) == Bit(b', 2)
    requires Bit(b, 3) == Bit(b', 3) && Bit(b, 4) == Bit(b', 4)
    ensures b == b'
  {
    SmallPowers();
  }

  /** One round is injective on 30-bit states. */
  lemma StepInjective(c: nat, c': nat, x: nat)
    requires c < TWO_30 && c' < TWO_30 && Step(c, x) == Step(c', x)
    ensures c == c'
  {
    var u, m := (c % TWO_25) * 32, Masks(c / TWO_25, 5);
    var u', m' := (c' % TWO_25) * 32, Masks(c' / TWO_25, 5);
    XorRight(u, x, m);
    XorRight(u', x, m');
    XorCancel(Xor(u, m), Xor(u', m'), x);
    XorLow(c % TWO_25, m);
    XorLow(c' % TWO_25, m');
    FeedbackInjective(c / TWO_25, c' / TWO_25);
    XorCancel(u, u', m);
  }

  lemma XorLow(a: nat, m: nat)
    ensures Xor(a * 32, m) % 32 == m % 32
  {
    Pow2Values();
    var q, r := QuotientRemainder(m, 32);
    XorBlocks(5, a, 0, q, r);
    XorZero(r);
    DivModUnique(32, Xor(a, q), r, Xor(a * 32, m));
  }

  ghost predicate Within30(v: seq<nat>) {
    forall i :: 0 <= i < |v| ==> v[i] < TWO_30
  }

  lemma {:induction false} FoldBound(c: nat, w: seq<nat>)
    requires c < TWO_30 && Within30(w)
    ensures Fold(c, w) < TWO_30
  {
    if w != [] {
      FoldBound(c, w[..|w| - 1]);
      StepBound(Fold(c, w[..|w| - 1]), w[|w| - 1]);
    }
  }

  lemma {:induction false} FoldInjective(c: nat, c': nat, w: seq<nat>)
    requires c < TWO_30 && c' < TWO_30 && Within30(w) && Fold(c, w) == Fold(c', w)
    ensures c == c'
  {
    if w != [] {
      var v := w[..|w| - 1];
      FoldBound(c, v);
      FoldBound(c', v);
      StepInjective(Fold(c, v), Fold(c', v), w[|w| - 1]);
      FoldInjective(c, c', v);
    }
  }

  lemma {:induction false} ConcatZero(t: seq<nat>)
    requires Symbols(t) && Concat(t) == 0
    ensures forall i :: 0 <= i < |t| ==> t[i] == 0
  {
    if t != [] {
      ConcatZero(t[..|t| - 1]);
    }
  }

  /** Replacing up to six consecutive symbols by other symbols always changes the checksum,
      wherever they stand and however long the string is. */
  lemma BurstDetected(u: seq<nat>, s: seq<nat>, t: seq<nat>, w: seq<nat>)
    requires |s| == |t| <= 6 && s != t && Symbols(s) && Symbols(t)
    requires Within30(u) && Within30(w)
    ensures Poly(u + s + w) != Poly(u + t + w)
  {
    FoldConcat(1, u + s, w);
    FoldConcat(1, u, s);
    FoldConcat(1, u + t, w);
    FoldConcat(1, u, t);
    var c := Poly(u);
    FoldBound(1, u);
    BurstDiffers(c, s, t);
    FoldBound(c, s);
    FoldBound(c, t);
    if Fold(Fold(c, s), w) == Fold(Fold(c, t), w) {
      FoldInjective(Fold(c, s), Fold(c, t), w);
    }
  }

  lemma SeqEqual(s: seq<nat>, t: seq<nat>)
    requires |s| == |t| && forall i :: 0 <= i < |s| ==> s[i] == t[i]
    ensures s == t
  {
  }

  lemma BurstDiffers(c: nat, s: seq<nat>, t: seq<nat>)
    requires |s| == |t| <= 6 && s != t && Symbols(s) && Symbols(t)
    ensures Fold(c, s) != Fold(c, t)
  {
    var d := XorAll(s, t);
    forall i | 0 <= i < |s| ensures d[i] < 32 && Xor(s[i], d[i]) == t[i] && (d[i] == 0 ==> s[i] == t[i]) {
      Pow2Values();
      XorBlocks(5, 0, s[i], 0, t[i]);
      XorAssoc(s[i], s[i], t[i]);
      XorSelf(s[i]);
      XorZero(t[i]);
      XorNonzero(s[i], t[i]);
    }
    assert XorAll(s, d) == t;
    FoldDelta(c, s, d);
    if Fold(c, s) == Fold(c, t) {
      XorComm(Fold(c, s), Concat(d));
      XorZero(Fold(c, s));
      XorCancel(Concat(d), 0, Fold(c, s));
      ConcatZero(d);
      SeqEqual(s, t);
    }
  }
}
