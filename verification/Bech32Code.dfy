/** The code behind the Bech32m checksum: over the field of 32 elements, the loop of boltz_refund.py computes
    the remainder modulo one polynomial of degree six. */
module Bech32Code {
  import opened Bits
  import opened Bech32

  // ----- the field of 32 elements: five bits, and a^5 == a^3 + 1 -----

  function Twice(v: nat): nat
    requires v < 32
  {
    if v < 16 then 2 * v else Xor(2 * v - 32, 9)
  }

  lemma TwiceBound(v: nat)
    requires v < 32
    ensures Twice(v) < 32
  {
    if v >= 16 {
      Pow2Values();
      XorUnder(5, 2 * v - 32, 9);
    }
  }

  /** The product of the number in the low n bits of b and a field element. */
  function Product(b: nat, n: nat, v: nat): nat
    requires v < 32
  {
    if n == 0 then 0
    else
      TwiceBound(v);
      Xor(if b % 2 == 1 then v else 0, Product(b / 2, n - 1, Twice(v)))
  }

  /** x^6 + 29 x^5 + 22 x^4 + 20 x^3 + 21 x^2 + 29 x + 18, without its leading term. */
  const CODE: seq<nat> := [29, 22, 20, 21, 29, 18]

  // ----- a 30-bit state as six symbols -----

  /** `c >> n` */
  function Shift(c: nat, n: nat): nat
    decreases n
  {
    if n == 0 then c else Shift(c / 2, n - 1)
  }

  lemma {:induction false} ShiftDivides(c: nat, n: nat)
    ensures Shift(c, n) == c / Pow2(n)
    decreases n
  {
    if n > 0 {
      ShiftDivides(c / 2, n - 1);
      HalfFirst(c, Pow2(n - 1), Pow2(n));
    }
  }

  lemma HalfFirst(c: nat, m: nat, n: nat)
    requires m > 0 && n == 2 * m
    ensures c / 2 / m == c / n
  {
    var q, r := QuotientRemainder(c / 2, m);
    Doubled(m, n, q, r, c % 2);
    DivModUnique(n, q, 2 * r + c % 2, c);
  }

  lemma Doubled(m: nat, n: nat, q: nat, r: nat, p: nat)
    requires n == 2 * m
    ensures 2 * (m * q + r) + p == q * n + (2 * r + p)
  {
  }

  lemma {:induction false} ShiftOnce(c: nat, n: nat)
    ensures Shift(c, n + 1) == Shift(c, n) / 2
    decreases n
  {
    if n > 0 {
      ShiftOnce(c / 2, n - 1);
    }
  }

  lemma {:induction false} BitShift(c: nat, n: nat, k: nat)
    ensures Bit(Shift(c, n), k) == Bit(c, n + k)
    decreases n
  {
    if n > 0 {
      BitShift(c / 2, n - 1, k);
      BitHalf(c, n + k);
    }
  }

  function Symbol(c: nat, j: nat): (r: nat)
    requires j < 6
    ensures r < 32
  {
    Shift(c, 5 * (5 - j)) % 32
  }

  lemma SymbolShifts(c: nat)
    ensures Shift(c, 0) == c && Shift(c, 5) == c / 0x20 && Shift(c, 10) == c / 0x400 && Shift(c, 15) == c / 0x8000
    ensures Shift(c, 20) == c / 0x10_0000 && Shift(c, 25) == c / 0x200_0000
  {
    Powers();
    ShiftDivides(c, 5);
    ShiftDivides(c, 10);
    ShiftDivides(c, 15);
    ShiftDivides(c, 20);
    ShiftDivides(c, 25);
  }

  lemma Powers()
    ensures Pow2(0) == 1 && Pow2(5) == 0x20 && Pow2(10) == 0x400 && Pow2(15) == 0x8000 && Pow2(20) == 0x10_0000
    ensures Pow2(25) == 0x200_0000
  {
    Pow2Values();
    Pow2Add(5, 5);
    Pow2Add(10, 5);
    Pow2Add(10, 10);
  }

  lemma SymbolBits(c: nat, j: nat, k: nat)
    requires j < 6 && k < 5
    ensures Bit(Symbol(c, j), k) == Bit(c, 5 * (5 - j) + k)
  {
    LowBit(Shift(c, 5 * (5 - j)), k);
    BitShift(c, 5 * (5 - j), k);
  }

  lemma SymbolXor(a: nat, b: nat, j: nat)
    requires j < 6
    ensures Symbol(Xor(a, b), j) == Xor(Symbol(a, j), Symbol(b, j)) < 32
  {
    Pow2Values();
    XorUnder(5, Symbol(a, j), Symbol(b, j));
    SymbolXorBit(a, b, j, 0);
    SymbolXorBit(a, b, j, 1);
    SymbolXorBit(a, b, j, 2);
    SymbolXorBit(a, b, j, 3);
    SymbolXorBit(a, b, j, 4);
    FiveBits(Symbol(Xor(a, b), j), Xor(Symbol(a, j), Symbol(b, j)));
  }

  lemma SymbolXorBit(a: nat, b: nat, j: nat, k: nat)
    requires j < 6 && k < 5
    ensures Bit(Symbol(Xor(a, b), j), k) == Bit(Xor(Symbol(a, j), Symbol(b, j)), k)
  {
    SymbolBits(Xor(a, b), j, k);
    SymbolBits(a, j, k);
    SymbolBits(b, j, k);
    BitXor(a, b, 5 * (5 - j) + k);
    BitXor(Symbol(a, j), Symbol(b, j), k);
  }

  // ----- the generators -----

  /** What 9 does to the even numbers below 32. */
  lemma NineTable()
    ensures Xor(0, 9) == 9 && Xor(2, 9) == 11 && Xor(4, 9) == 13 && Xor(6, 9) == 15
    ensures Xor(8, 9) == 1 && Xor(10, 9) == 3 && Xor(12, 9) == 5 && Xor(14, 9) == 7
  {
  }

  lemma NineAbove(v: nat)
    requires 16 <= v < 32
    ensures Xor(v, 9) == 16 + Xor(v - 16, 9)
  {
    XorBlocks(4, 1, v - 16, 0, 9);
    XorZero(1);
    assert Pow2(4) == 16;
  }

  /** The generators by symbols. */
  const ROWS: seq<seq<nat>> :=
    [[29, 22, 20, 21, 29, 18], [19, 5, 1, 3, 19, 13], [15, 10, 2, 6, 15, 26], [30, 20, 4, 12, 30, 29], [21, 1, 8, 24, 21, 19]]

  /** Symbol j of a number written in base 32. */
  lemma {:induction false} DigitAt(row: seq<nat>, j: nat)
    requires Symbols(row) && row != [] && 6 - |row| <= j < 6
    ensures Symbol(Concat(row), j) == row[|row| - 6 + j]
  {
    var n := |row| - 1;
    ShiftedDigits(Concat(row[..n]), row[n], j);
    if j < 5 {
      DigitAt(row[..n], j + 1);
    }
  }

  lemma ConcatSix(row: seq<nat>)
    requires |row| == 6
    ensures Concat(row) == ((((row[0] * 32 + row[1]) * 32 + row[2]) * 32 + row[3]) * 32 + row[4]) * 32 + row[5]
  {
    ConcatPush([], row[0]);
    ConcatPush([row[0]], row[1]);
    ConcatPush([row[0], row[1]], row[2]);
    ConcatPush([row[0], row[1], row[2]], row[3]);
    ConcatPush([row[0], row[1], row[2], row[3]], row[4]);
    ConcatPush([row[0], row[1], row[2], row[3], row[4]], row[5]);
    assert row == [row[0], row[1], row[2], row[3], row[4]] + [row[5]];
    assert [row[0], row[1], row[2], row[3], row[4]] == [row[0], row[1], row[2], row[3]] + [row[4]];
    assert [row[0], row[1], row[2], row[3]] == [row[0], row[1], row[2]] + [row[3]];
    assert [row[0], row[1], row[2]] == [row[0], row[1]] + [row[2]];
    assert [row[0], row[1]] == [row[0]] + [row[1]] && [row[0]] == [] + [row[0]];
  }

  lemma RowOf(g: nat, j: nat, row: seq<nat>)
    requires j < 6 && Digits(g, row)
    ensures Symbol(g, j) == row[j]
  {
    ConcatSix(row);
    DigitAt(row, j);
  }

  lemma GeneratorRow(i: nat, j: nat)
    requires i < 5 && j < 6
    ensures Symbol(GENERATOR[i], j) == ROWS[i][j]
  {
    var g, row := GENERATOR[i], ROWS[i];
    Rows(i);
    RowOf(g, j, row);
  }

  ghost predicate Digits(g: nat, row: seq<nat>) {
    && |row| == 6 && (forall i :: 0 <= i < 6 ==> row[i] < 32)
    && g == ((((row[0] * 32 + row[1]) * 32 + row[2]) * 32 + row[3]) * 32 + row[4]) * 32 + row[5]
  }

  lemma Rows(i: nat)
    requires i < 5
    ensures Digits(GENERATOR[i], ROWS[i])
  {
  }

  lemma RowsDouble(i: nat, j: nat)
    requires i < 4 && j < 6
    ensures ROWS[i][j] < 32 && ROWS[i + 1][j] == Twice(ROWS[i][j])
  {
    NineTable();
    if ROWS[i][j] >= 24 {
      NineAbove(2 * ROWS[i][j] - 32);
    }
  }

  lemma ZeroSymbol(j: nat)
    requires j < 6
    ensures Symbol(0, j) == 0
  {
    SymbolShifts(0);
  }

  function Coefficient(i: nat, j: nat): (v: nat)
    requires i <= 5 && j < 6
    ensures v < 32
  {
    if i < 5 then ROWS[i][j] else 0
  }

  /** Bit i of b takes in generator i, and the bits above it the later ones. */
  lemma ProductStep(b: nat, c: nat, i: nat, j: nat)
    requires i < 5 && j < 6 && c == Shift(b, i)
    ensures Product(c, 5 - i, Coefficient(i, j)) == Xor(Symbol(Mask(b, i), j), Product(Shift(b, i + 1), 4 - i, Coefficient(i + 1, j)))
  {
    ShiftDivides(b, i);
    ShiftOnce(b, i);
    GeneratorRow(i, j);
    ZeroSymbol(j);
    if i < 4 {
      RowsDouble(i, j);
    }
  }

  /** What the masks from bit i on put in is the product with the bits from there on. */
  lemma {:induction false} MasksProduct(b: nat, i: nat, j: nat)
    requires i <= 5 && j < 6
    ensures Symbol(Masks(b, 5), j) == Xor(Symbol(Masks(b, i), j), Product(Shift(b, i), 5 - i, Coefficient(i, j)))
    decreases 5 - i
  {
    if i == 5 {
      XorZero(Symbol(Masks(b, 5), j));
    } else {
      MasksProduct(b, i + 1, j);
      MasksStep(b, i, j);
      ProductStep(b, Shift(b, i), i, j);
      XorAssoc(Symbol(Masks(b, i), j), Symbol(Mask(b, i), j), Product(Shift(b, i + 1), 4 - i, Coefficient(i + 1, j)));
    }
  }

  lemma MasksStep(b: nat, i: nat, j: nat)
    requires i < 5 && j < 6
    ensures Symbol(Masks(b, i + 1), j) == Xor(Symbol(Masks(b, i), j), Symbol(Mask(b, i), j))
  {
    SymbolXor(Masks(b, i), Mask(b, i), j);
  }

  lemma AllMasks(b: nat, j: nat)
    requires j < 6
    ensures Symbol(Masks(b, 5), j) == Product(b, 5, CODE[j])
  {
    MasksProduct(b, 0, j);
    ZeroSymbol(j);
    assert Masks(b, 0) == 0 && Shift(b, 0) == b;
    assert Coefficient(0, j) == CODE[j];
    XorZero(Product(b, 5, CODE[j]));
  }

  // ----- the loop -----

  lemma FirstSymbol(c: nat)
    requires c < TWO_30
    ensures Symbol(c, 0) == c / TWO_25
  {
    SymbolShifts(c);
  }

  lemma ShiftedSymbol(c: nat, x: nat, j: nat)
    requires x < 32 && j < 6
    ensures Symbol(Xor(c % TWO_25 * 32, x), j) == if j < 5 then Symbol(c, j + 1) else x
  {
    XorShifted(0, c % TWO_25, x);
    ShiftedDigits(c % TWO_25, x, j);
    LowDigits(c, j);
  }

  lemma ShiftedDigits(d: nat, x: nat, j: nat)
    requires x < 32 && j < 6
    ensures Symbol(d * 32 + x, j) == if j < 5 then Symbol(d, j + 1) else x
  {
    if j < 5 {
      ShiftDivides(d * 32 + x, 5 * (5 - j));
      ShiftDivides(d, 5 * (4 - j));
      Pow2Add(5, 5 * (4 - j));
      Pow2Values();
      HalfOf32(d, x, Pow2(5 * (4 - j)), Pow2(5 * (5 - j)));
    }
  }

  lemma HalfOf32(d: nat, x: nat, m: nat, n: nat)
    requires x < 32 && m > 0 && n == 32 * m
    ensures (d * 32 + x) / n == d / m
  {
    var q, r := QuotientRemainder(d, m);
    assert (m * q + r) * 32 + x == q * (32 * m) + (r * 32 + x);
    DivModUnique(n, q, r * 32 + x, d * 32 + x);
  }

  lemma LowDigits(c: nat, j: nat)
    requires j < 6
    ensures j < 5 ==> Symbol(c % TWO_25, j + 1) == Symbol(c, j + 1)
  {
    if j < 5 {
      ShiftDivides(c % TWO_25, 5 * (4 - j));
      ShiftDivides(c, 5 * (4 - j));
      Pow2Add(5 * j, 5 * (4 - j));
      Pow2Add(5, 5 * j + 5 * (4 - j));
      Pow2Values();
      LowDigit(c, Pow2(5 * (4 - j)), Pow2(5 * j));
    }
  }

  lemma LowDigit(c: nat, m: nat, k: nat)
    requires m > 0 && TWO_25 == 32 * (k * m)
    ensures c % TWO_25 / m % 32 == c / m % 32
  {
    var q, r := QuotientRemainder(c, TWO_25);
    var u, v := QuotientRemainder(r, m);
    var s, t := QuotientRemainder(u, 32);
    Regroup(q, k, m, u, v);
    DivModUnique(m, q * (32 * k) + u, v, c);
    assert q * (32 * k) + (32 * s + t) == (q * k + s) * 32 + t;
    DivModUnique(32, q * k + s, t, q * (32 * k) + u);
  }

  lemma Regroup(q: nat, k: nat, m: nat, u: nat, v: nat)
    ensures (32 * (k * m)) * q + (m * u + v) == (q * (32 * k) + u) * m + v
  {
  }

  /** Multiplying by x: the symbols move up, the new one comes in, and what leaves at the top is taken out of
      the rest as a multiple of the code. So the loop computes the remainder of its input, read as a polynomial
      over the field, modulo the polynomial that BIP-173 and BIP-350 name. */
  lemma StepIsRemainder(c: nat, x: nat, j: nat)
    requires c < TWO_30 && x < 32 && j < 6
    ensures Symbol(Step(c, x), j) == Xor(if j < 5 then Symbol(c, j + 1) else x, Product(Symbol(c, 0), 5, CODE[j]))
  {
    SymbolXor(Xor(c % TWO_25 * 32, x), Masks(c / TWO_25, 5), j);
    ShiftedSymbol(c, x, j);
    FirstSymbol(c);
    AllMasks(c / TWO_25, j);
  }

  /** The loop starts from 1 and takes one symbol after the other. */
  lemma PolyByStep(v: seq<nat>, x: nat)
    ensures Poly([]) == 1 && Poly(v + [x]) == Step(Poly(v), x)
  {
    assert (v + [x])[..|v|] == v;
  }
}
