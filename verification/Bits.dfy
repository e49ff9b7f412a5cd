/** Python's unbounded integers seen as bits: `^`, and strings of bits. */
module Bits {
  import opened NumberTheory

  // ----- exclusive or -----

  function Xor(a: nat, b: nat): nat
    decreases a + b
  {
    if a == 0 then b
    else if b == 0 then a
    else 2 * Xor(a / 2, b / 2) + (if a % 2 == b % 2 then 0 else 1)
  }

  lemma XorSplit(a: nat, b: nat)
    ensures Xor(a, b) % 2 == (if a % 2 == b % 2 then 0 else 1)
    ensures Xor(a, b) / 2 == Xor(a / 2, b / 2)
  {
    if a == 0 {
      XorZero(b);
      XorZero(b / 2);
    } else if b == 0 {
      XorZero(a);
      XorZero(a / 2);
    } else {
      DoubleSplit(Xor(a / 2, b / 2), if a % 2 == b % 2 then 0 else 1);
    }
  }

  lemma DoubleSplit(x: nat, r: nat)
    requires r < 2
    ensures (2 * x + r) % 2 == r && (2 * x + r) / 2 == x
  {
  }

  lemma {:induction false} XorComm(a: nat, b: nat)
    ensures Xor(a, b) == Xor(b, a)
    decreases a + b
  {
    if a != 0 && b != 0 {
      XorComm(a / 2, b / 2);
    }
  }

  lemma {:induction false} XorAssoc(a: nat, b: nat, c: nat)
    ensures Xor(Xor(a, b), c) == Xor(a, Xor(b, c))
    decreases a + b + c
  {
    if a != 0 && b != 0 && c != 0 {
      XorAssoc(a / 2, b / 2, c / 2);
      XorSplit(a, b);
      XorSplit(b, c);
      XorSplit(Xor(a, b), c);
      XorSplit(a, Xor(b, c));
    }
  }

  lemma {:induction false} XorSelf(a: nat)
    ensures Xor(a, a) == 0
  {
    if a != 0 {
      XorSelf(a / 2);
    }
  }

  /** (a ^ b) ^ (c ^ d) == (a ^ c) ^ (b ^ d) */
  lemma XorSwap(a: nat, b: nat, c: nat, d: nat)
    ensures Xor(Xor(a, b), Xor(c, d)) == Xor(Xor(a, c), Xor(b, d))
  {
    XorAssoc(a, b, Xor(c, d));
    XorAssoc(b, c, d);
    XorComm(b, c);
    XorAssoc(c, b, d);
    XorAssoc(a, c, Xor(b, d));
  }

  /** (a ^ b) ^ c == (a ^ c) ^ b */
  lemma XorRight(a: nat, b: nat, c: nat)
    ensures Xor(Xor(a, b), c) == Xor(Xor(a, c), b)
  {
    XorAssoc(a, b, c);
    XorComm(b, c);
    XorAssoc(a, c, b);
  }

  lemma XorCancel(a: nat, b: nat, c: nat)
    requires Xor(a, c) == Xor(b, c)
    ensures a == b
  {
    XorAssoc(a, c, c);
    XorAssoc(b, c, c);
    XorSelf(c);
    XorZero(a);
    XorZero(b);
  }

  lemma XorZero(a: nat)
    ensures Xor(a, 0) == a && Xor(0, a) == a
  {
  }

  lemma XorNonzero(a: nat, b: nat)
    ensures Xor(a, b) == 0 <==> a == b
  {
    XorSelf(b);
    if Xor(a, b) == 0 {
      XorCancel(a, b, b);
    }
  }

  function Pow2(n: nat): nat
    ensures Pow2(n) > 0
  {
    if n == 0 then 1 else 2 * Pow2(n - 1)
  }

  lemma {:induction false} XorUnder(n: nat, b: nat, d: nat)
    requires b < Pow2(n) && d < Pow2(n)
    ensures Xor(b, d) < Pow2(n)
  {
    if n == 0 {
      XorZero(0);
    } else {
      XorUnder(n - 1, b / 2, d / 2);
      XorSplit(b, d);
    }
  }

  /** Exclusive or never carries: it acts on the low n bits and on the rest separately. */
  lemma {:induction false} XorBlocks(n: nat, a: nat, b: nat, c: nat, d: nat)
    requires b < Pow2(n) && d < Pow2(n)
    ensures Xor(b, d) < Pow2(n)
    ensures a * Pow2(n) + b >= 0 && c * Pow2(n) + d >= 0
    ensures Xor(a * Pow2(n) + b, c * Pow2(n) + d) == Xor(a, c) * Pow2(n) + Xor(b, d)
  {
    XorUnder(n, b, d);
    if n == 0 {
      XorBlocksBase(Pow2(n), a, b, c, d);
    } else {
      XorBlocks(n - 1, a, b / 2, c, d / 2);
      XorBlocksStep(Pow2(n - 1), Pow2(n), a, b, c, d);
    }
  }

  lemma XorBlocksBase(p: nat, a: nat, b: nat, c: nat, d: nat)
    requires p == 1 && b == 0 && d == 0
    ensures a * p + b >= 0 && c * p + d >= 0
    ensures Xor(a * p + b, c * p + d) == Xor(a, c) * p + Xor(b, d)
  {
    XorZero(0);
  }

  lemma XorBlocksStep(m: nat, p: nat, a: nat, b: nat, c: nat, d: nat)
    requires p == 2 * m && a * m + b / 2 >= 0 && c * m + d / 2 >= 0
    requires Xor(a * m + b / 2, c * m + d / 2) == Xor(a, c) * m + Xor(b / 2, d / 2)
    ensures a * p + b >= 0 && c * p + d >= 0
    ensures Xor(a * p + b, c * p + d) == Xor(a, c) * p + Xor(b, d)
  {
    Halve(a, m, p, b);
    Halve(c, m, p, d);
    XorSplit(a * p + b, c * p + d);
    XorSplit(b, d);
    Halve(Xor(a, c), m, p, Xor(b, d));
    SameHalves(Xor(a * p + b, c * p + d), Xor(a, c) * p + Xor(b, d));
  }

  lemma SameHalves(x: nat, y: nat)
    requires x / 2 == y / 2 && x % 2 == y % 2
    ensures x == y
  {
  }

  lemma Halve(a: nat, m: nat, p: nat, b: nat)
    requires p == 2 * m
    ensures a * m >= 0 && a * p + b >= 0
    ensures (a * p + b) / 2 == a * m + b / 2
    ensures (a * p + b) % 2 == b % 2
  {
    DoubleProduct(a, m);
    assert a * p == p * a;
    DoubleHalf(a * m, b, a * p + b);
  }

  lemma QuotientRemainder(m: nat, n: nat) returns (q: nat, r: nat)
    requires n > 0
    ensures q == m / n && r == m % n && m == n * q + r && r < n
  {
    q, r := m / n, m % n;
  }

  /** Halving a residue modulo n = 2 * p. */
  lemma ModHalf(m: nat, n: nat, p: nat)
    requires n == 2 * p && p > 0
    ensures (m % n) / 2 == (m / 2) % p && (m % n) % 2 == m % 2
  {
    var q, r := QuotientRemainder(m, n);
    HalveQuotient(m, n, p, q, r);
    DivModUnique(p, q, r / 2, m / 2);
  }

  lemma HalveQuotient(m: nat, n: nat, p: nat, q: nat, r: nat)
    requires n == 2 * p && m == n * q + r
    ensures m / 2 == q * p + r / 2 && m % 2 == r % 2
  {
    DoubleProduct(q, p);
    DoubleHalf(q * p, r, m);
  }

  lemma DoubleProduct(q: nat, p: nat)
    ensures (2 * p) * q == 2 * (q * p) && q * p >= 0
  {
  }

  lemma DoubleHalf(x: nat, r: nat, m: nat)
    requires m == 2 * x + r
    ensures m / 2 == x + r / 2 && m % 2 == r % 2
  {
  }

  // ----- strings of bits, most significant first -----

  function ToBits(v: nat, w: nat): (s: seq<bool>)
    ensures |s| == w
  {
    if w == 0 then [] else ToBits(v / 2, w - 1) + [v % 2 == 1]
  }

  function OfBits(s: seq<bool>): nat {
    if s == [] then 0 else 2 * OfBits(s[..|s| - 1]) + (if s[|s| - 1] then 1 else 0)
  }

  lemma {:induction false} OfBitsBound(s: seq<bool>)
    ensures OfBits(s) < Pow2(|s|)
  {
    if s != [] {
      OfBitsBound(s[..|s| - 1]);
    }
  }

  lemma {:induction false} OfToBits(v: nat, w: nat)
    requires v < Pow2(w)
    ensures OfBits(ToBits(v, w)) == v
  {
    if w > 0 {
      OfToBits(v / 2, w - 1);
      assert ToBits(v, w)[..w - 1] == ToBits(v / 2, w - 1);
    }
  }

  lemma {:induction false} ToOfBits(s: seq<bool>)
    ensures ToBits(OfBits(s), |s|) == s
  {
    if s != [] {
      ToOfBits(s[..|s| - 1]);
      assert s == s[..|s| - 1] + [s[|s| - 1]];
    }
  }

  lemma {:induction false} OfBitsConcat(s: seq<bool>, t: seq<bool>)
    ensures OfBits(s + t) == OfBits(s) * Pow2(|t|) + OfBits(t)
  {
    if t == [] {
      assert s + t == s;
    } else {
      var u := t[..|t| - 1];
      OfBitsConcat(s, u);
      assert (s + t)[..|s + t| - 1] == s + u;
      assert OfBits(s) * (2 * Pow2(|u|)) == 2 * (OfBits(s) * Pow2(|u|));
    }
  }

  /** What `acc >> |t|` and `acc & (2^|t| - 1)` read off an accumulator holding s + t. */
  lemma OfBitsDivMod(s: seq<bool>, t: seq<bool>)
    ensures OfBits(s + t) / Pow2(|t|) == OfBits(s)
    ensures OfBits(s + t) % Pow2(|t|) == OfBits(t)
  {
    OfBitsConcat(s, t);
    OfBitsBound(t);
    DivModUnique(Pow2(|t|), OfBits(s), OfBits(t), OfBits(s + t));
  }

  lemma DivModUnique(m: nat, q: nat, r: nat, v: nat)
    requires r < m && v == q * m + r
    ensures v / m == q && v % m == r
  {
    var q', r' := v / m, v % m;
    assert v == m * q' + r';
    Distribute(m, q', q);
    SmallMultiple(m, q' - q);
  }

  lemma {:induction false} Pow2Add(m: nat, n: nat)
    ensures Pow2(m + n) == Pow2(m) * Pow2(n)
  {
    if m > 0 {
      Pow2Add(m - 1, n);
      assert 2 * (Pow2(m - 1) * Pow2(n)) == (2 * Pow2(m - 1)) * Pow2(n);
    }
  }
}
