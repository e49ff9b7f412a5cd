/** Arithmetic modulo a prime: what `pow(a, m - 2, m)` and `pow(c, (p + 1) // 4, p)` rely on.
    Euclid's lemma and Fermat's little theorem are proved here, not assumed. */
module NumberTheory {

  ghost predicate IsPrime(p: int) {
    p >= 2 && forall d :: 1 < d < p ==> p % d != 0
  }

  // ----- congruences -----

  ghost function Mult(m: int, q: int): int {
    m * q
  }

  /** m divides a. */
  ghost predicate Div(m: int, a: int) {
    exists q :: a == Mult(m, q)
  }

  lemma DivIntro(m: int, a: int, q: int)
    requires a == m * q
    ensures Div(m, a)
  {
    assert a == Mult(m, q);
  }

  lemma DivWitness(m: int, a: int) returns (q: int)
    requires Div(m, a)
    ensures a == m * q
  {
    q :| a == Mult(m, q);
  }

  lemma Distribute(m: int, q: int, r: int)
    ensures m * (q + r) == m * q + m * r && m * (q - r) == m * q - m * r
  {
  }

  lemma DivAdd(m: int, a: int, b: int)
    requires Div(m, a) && Div(m, b)
    ensures Div(m, a + b) && Div(m, a - b)
  {
    var q := DivWitness(m, a);
    var r := DivWitness(m, b);
    Distribute(m, q, r);
    DivIntro(m, a + b, q + r);
    DivIntro(m, a - b, q - r);
  }

  lemma DivMul(m: int, a: int, c: int)
    requires Div(m, a)
    ensures Div(m, c * a)
  {
    var q := DivWitness(m, a);
    assert c * (m * q) == m * (c * q);
    DivIntro(m, c * a, c * q);
  }

  /** A multiple of m between -m and m is zero. */
  lemma SmallMultiple(m: int, q: int)
    requires -m < m * q < m
    ensures q == 0
  {
  }

  /** Congruent numbers have the same residue, and conversely. */
  lemma ModEq(m: int, a: int, b: int)
    requires m > 0
    ensures Div(m, a - b) <==> a % m == b % m
  {
    var qa, qb := a / m, b / m;
    assert a == m * qa + a % m && b == m * qb + b % m;
    Distribute(m, qa, qb);
    if a % m == b % m {
      DivIntro(m, a - b, qa - qb);
    }
    if Div(m, a - b) {
      var q := DivWitness(m, a - b);
      Distribute(m, q, qa - qb);
      SmallMultiple(m, q - (qa - qb));
    }
  }

  lemma ModZero(m: int, a: int)
    requires m > 0
    ensures Div(m, a) <==> a % m == 0
  {
    ModEq(m, a, 0);
  }

  /** a and its residue are congruent. */
  lemma ModDiv(m: int, a: int)
    requires m > 0
    ensures Div(m, a - a % m) && Div(m, a % m - a)
  {
    var q := a / m;
    assert a == m * q + a % m;
    assert m * (-q) == -(m * q);
    DivIntro(m, a - a % m, q);
    DivIntro(m, a % m - a, -q);
  }

  /** Multiplying a residue and multiplying the number itself agree modulo m. */
  lemma DivModMul(m: int, a: int, b: int)
    requires m > 0
    ensures Div(m, (a % m) * b - a * b)
  {
    var r := a % m;
    ModDiv(m, a);
    DivMul(m, r - a, b);
    assert b * (r - a) == r * b - a * b;
  }

  // ----- Euclid's lemma -----

  lemma EuclidRemainder(p: int, q: int, a: int, b: int)
    ensures (p - q * a) * b == p * b - q * (a * b)
  {
  }

  /** A residue strictly between 0 and p is invertible enough: p | a*b forces p | b. */
  lemma {:induction false} EuclidSmall(p: int, a: int, b: int)
    requires IsPrime(p) && 0 < a < p && Div(p, a * b)
    ensures Div(p, b)
    decreases a
  {
    if a > 1 {
      var q, r := p / a, p % a;
      assert p == q * a + r && r != 0;
      DivIntro(p, p * b, b);
      DivMul(p, a * b, q);
      DivAdd(p, p * b, q * (a * b));
      EuclidRemainder(p, q, a, b);
      EuclidSmall(p, r, b);
    }
  }

  /** A prime that divides a product divides a factor. */
  lemma Euclid(p: int, a: int, b: int)
    requires IsPrime(p) && Div(p, a * b)
    ensures Div(p, a) || Div(p, b)
  {
    if !Div(p, a) {
      ModZero(p, a);
      DivModMul(p, a, b);
      DivAdd(p, (a % p) * b - a * b, a * b);
      EuclidSmall(p, a % p, b);
    }
  }

  // ----- powers -----

  function Pow(b: int, e: nat): int {
    if e == 0 then 1 else b * Pow(b, e - 1)
  }

  lemma {:induction false} PowAdd(b: int, m: nat, n: nat)
    ensures Pow(b, m + n) == Pow(b, m) * Pow(b, n)
  {
    if m > 0 {
      PowAdd(b, m - 1, n);
      assert b * (Pow(b, m - 1) * Pow(b, n)) == (b * Pow(b, m - 1)) * Pow(b, n);
    }
  }

  lemma {:induction false} PowMul(b: int, m: nat, n: nat)
    ensures 0 <= m * n && Pow(Pow(b, m), n) == Pow(b, m * n)
  {
    if n > 0 {
      PowMul(b, m, n - 1);
      assert m * n == m + m * (n - 1);
      PowAdd(b, m, m * (n - 1));
    } else {
      assert m * n == 0;
    }
  }

  /** Congruent bases have congruent powers. */
  lemma {:induction false} PowCong(m: int, a: int, b: int, e: nat)
    requires Div(m, a - b)
    ensures Div(m, Pow(a, e) - Pow(b, e))
  {
    if e == 0 {
      DivIntro(m, 0, 0);
    } else {
      PowCong(m, a, b, e - 1);
      var x, y := Pow(a, e - 1), Pow(b, e - 1);
      DivMul(m, x - y, a);
      DivMul(m, a - b, y);
      DivAdd(m, a * (x - y), y * (a - b));
      assert a * x - b * y == a * (x - y) + y * (a - b);
    }
  }

  // ----- the binomial theorem, and Fermat's little theorem from it -----

  function Choose(n: nat, k: int): nat {
    if k < 0 then 0
    else if n == 0 then (if k == 0 then 1 else 0)
    else Choose(n - 1, k - 1) + Choose(n - 1, k)
  }

  lemma {:induction false} ChooseAbove(n: nat, k: int)
    requires k > n
    ensures Choose(n, k) == 0
  {
    if n > 0 {
      ChooseAbove(n - 1, k - 1);
      ChooseAbove(n - 1, k);
    }
  }

  lemma {:induction false} ChooseEnds(n: nat)
    ensures Choose(n, 0) == 1 && Choose(n, n) == 1
  {
    if n > 0 {
      ChooseEnds(n - 1);
      ChooseAbove(n - 1, n);
      assert Choose(n - 1, -1) == 0;
    }
  }

  lemma AbsorbStep(k: int, n: int, a: int, b: int, c: int)
    requires (k - 1) * (a + b) == (n - 1) * a && k * c == (n - 1) * b
    ensures k * (a + b + c) == n * (a + b)
  {
    assert k * (a + b + c) == (k - 1) * (a + b) + (a + b) + k * c;
    assert n * (a + b) == (n - 1) * a + (n - 1) * b + (a + b);
  }

  /** k * C(n, k) = n * C(n-1, k-1) */
  lemma {:induction false} ChooseAbsorb(n: nat, k: nat)
    requires n > 0
    ensures k * Choose(n, k) == n * Choose(n - 1, k - 1)
  {
    if n == 1 {
      assert Choose(0, k) == if k == 0 then 1 else 0;
      assert Choose(0, k - 1) == if k == 1 then 1 else 0;
    } else if k > 0 {
      ChooseAbsorb(n - 1, k);
      ChooseAbsorb(n - 1, k - 1);
      var a, b, c := Choose(n - 2, k - 2), Choose(n - 2, k - 1), Choose(n - 1, k);
      AbsorbStep(k, n, a, b, c);
    }
  }

  lemma PrimeDividesChoose(p: int, k: int)
    requires IsPrime(p) && 0 < k < p
    ensures Div(p, Choose(p, k))
  {
    ChooseAbsorb(p, k);
    DivIntro(p, k * Choose(p, k), Choose(p - 1, k - 1));
    EuclidSmall(p, k, Choose(p, k));
  }

  /** sum of C(n, j) * a^j for 0 <= j <= k */
  ghost function BinomialSum(a: int, n: nat, k: int): int
    decreases if k < 0 then 0 else k + 1
  {
    if k < 0 then 0 else BinomialSum(a, n, k - 1) + Choose(n, k) * Pow(a, k)
  }

  lemma BinomialTerm(a: int, u: int, v: int, w: int, s: int)
    ensures (u + v) * (a * w) == v * (a * w) + a * (u * w)
    ensures a * (s + u * w) == a * s + a * (u * w)
  {
  }

  lemma {:induction false} BinomialStep(a: int, n: nat, k: nat)
    ensures BinomialSum(a, n + 1, k) == BinomialSum(a, n, k) + a * BinomialSum(a, n, k - 1)
  {
    if k == 0 {
      ChooseEnds(n);
      ChooseEnds(n + 1);
      assert BinomialSum(a, n + 1, -1) == 0 && BinomialSum(a, n, -1) == 0;
    } else {
      BinomialStep(a, n, k - 1);
      var u, v, w := Choose(n, k - 1), Choose(n, k), Pow(a, k - 1);
      assert Choose(n + 1, k) == u + v;
      BinomialTerm(a, u, v, w, BinomialSum(a, n, k - 2));
    }
  }

  lemma {:induction false} Binomial(a: int, n: nat)
    ensures Pow(a + 1, n) == BinomialSum(a, n, n)
  {
    if n == 0 {
      assert BinomialSum(a, 0, -1) == 0;
      assert Choose(0, 0) * Pow(a, 0) == 1;
    } else {
      Binomial(a, n - 1);
      BinomialStep(a, n - 1, n);
      ChooseAbove(n - 1, n);
      assert Choose(n - 1, n) * Pow(a, n) == 0;
      var s := BinomialSum(a, n - 1, n - 1);
      assert (a + 1) * s == s + a * s;
    }
  }

  lemma {:induction false} BinomialModPrime(p: int, a: int, k: int)
    requires IsPrime(p) && 0 <= k < p
    ensures Div(p, BinomialSum(a, p, k) - 1)
  {
    if k == 0 {
      ChooseEnds(p);
      assert BinomialSum(a, p, -1) == 0;
      DivIntro(p, 0, 0);
    } else {
      BinomialModPrime(p, a, k - 1);
      PrimeDividesChoose(p, k);
      DivMul(p, Choose(p, k), Pow(a, k));
      assert Pow(a, k) * Choose(p, k) == Choose(p, k) * Pow(a, k);
      DivAdd(p, BinomialSum(a, p, k - 1) - 1, Choose(p, k) * Pow(a, k));
    }
  }

  lemma {:induction false} FermatNat(p: int, a: nat)
    requires IsPrime(p)
    ensures Div(p, Pow(a, p) - a)
  {
    if a == 0 {
      assert Pow(0, p) == 0 * Pow(0, p - 1);
      DivIntro(p, 0, 0);
    } else {
      FermatNat(p, a - 1);
      Binomial(a - 1, p);
      BinomialModPrime(p, a - 1, p - 1);
      ChooseEnds(p);
      // a^p = sum_{j<p} + (a-1)^p, which is 1 + (a-1) modulo p
      assert BinomialSum(a - 1, p, p) == BinomialSum(a - 1, p, p - 1) + Pow(a - 1, p);
      DivAdd(p, BinomialSum(a - 1, p, p - 1) - 1, Pow(a - 1, p) - (a - 1));
    }
  }

  /** Fermat's little theorem: a^p = a modulo p. */
  lemma Fermat(p: int, a: int)
    requires IsPrime(p)
    ensures Div(p, Pow(a, p) - a)
  {
    FermatNat(p, a % p);
    ModDiv(p, a);
    PowCong(p, a, a % p, p);
    DivAdd(p, Pow(a, p) - Pow(a % p, p), Pow(a % p, p) - a % p);
    DivAdd(p, Pow(a, p) - a % p, a % p - a);
  }

  /** a^(p-1) = 1 modulo p when p does not divide a. */
  lemma FermatUnit(p: int, a: int)
    requires IsPrime(p) && !Div(p, a)
    ensures Div(p, Pow(a, p - 1) - 1)
  {
    Fermat(p, a);
    assert Pow(a, p) - a == a * (Pow(a, p - 1) - 1);
    Euclid(p, a, Pow(a, p - 1) - 1);
  }
}
