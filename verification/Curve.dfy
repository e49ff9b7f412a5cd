/** The secp256k1 point arithmetic of boltz_refund.py, over any prime field with p = 3 (mod 4)
    that fits 32 bytes. `None`, Python's point at infinity, is `Infinity`. */
module Curve {
  import opened NumberTheory
  import opened Results

  const TWO_256 := 0x1_0000_0000_0000_0000_0000_0000_0000_0000_0000_0000_0000_0000_0000_0000_0000_0000

  type FieldPrime = p: nat | IsPrime(p) && p % 4 == 3 && 7 < p <= TWO_256 witness 11

  /** `_P`: nothing below uses its value, only that it is such a prime. */
  const P: FieldPrime

  datatype Point = Infinity | Affine(x: int, y: int)

  /** A point in canonical coordinates that satisfies y^2 = x^3 + 7 modulo P, or infinity. */
  ghost predicate OnCurve(A: Point) {
    A.Affine? ==> 0 <= A.x < P && 0 <= A.y < P && CurveEq(A.x, A.y)
  }

  ghost predicate CurveEq(x: int, y: int) {
    Div(P, y * y - x * x * x - 7)
  }

  type CurvePoint = A: Point | OnCurve(A) witness Infinity

  /** `_G`, the generator. */
  const G: CurvePoint

  type GroupOrder = n: nat | 1 < n <= TWO_256 witness 2

  /** `_N`, the order of the group. */
  const N: GroupOrder

  // ----- the code -----

  function Inv(a: int): int {
    Pow(a, P - 2) % P
  }

  function Slope(A: Point, B: Point): int
    requires A.Affine? && B.Affine?
  {
    if A == B then (3 * A.x * A.x) * Inv(2 * A.y) % P
    else (B.y - A.y) * Inv(B.x - A.x) % P
  }

  function Add(A: Point, B: Point): Point {
    if A.Infinity? then B
    else if B.Infinity? then A
    else if A.x == B.x && (A.y + B.y) % P == 0 then Infinity
    else
      var l := Slope(A, B);
      var x3 := (l * l - A.x - B.x) % P;
      Affine(x3, (l * (A.x - x3) - A.y) % P)
  }

  function Neg(A: Point): Point {
    if A.Infinity? then Infinity else Affine(A.x, (P - A.y) % P)
  }

  /** `_lift_x`; None stands for its ValueError. */
  function LiftX(x: int): Option<Point> {
    var y2 := (Pow(x, 3) % P + 7) % P;
    var y := Pow(y2, (P + 1) / 4) % P;
    if (y * y) % P != y2 then None
    else Some(Affine(x, if y % 2 == 1 then P - y else y))
  }

  predicate EvenY(A: Point)
    requires A.Affine?
  {
    A.y % 2 == 0
  }

  // ----- inverses: `_inv` inverts, and is never asked to invert zero -----

  lemma InvInverts(a: int)
    requires !Div(P, a)
    ensures Div(P, a * Inv(a) - 1)
  {
    FermatUnit(P, a);
    var w := Pow(a, P - 2);
    assert Pow(a, P - 1) == a * w;
    InverseResidue(a, w);
  }

  lemma InverseResidue(a: int, w: int)
    requires Div(P, a * w - 1)
    ensures Div(P, a * (w % P) - 1)
  {
    DivModMul(P, w, a);
    assert (w % P) * a == a * (w % P) && w * a == a * w;
    DivAdd(P, a * (w % P) - a * w, a * w - 1);
  }

  /** l = n * inv(d) mod P solves l * d = n modulo P. */
  lemma QuotientSpec(n: int, d: int, l: int)
    requires !Div(P, d) && l == n * Inv(d) % P
    ensures Div(P, l * d - n)
  {
    var i := Inv(d);
    InvInverts(d);
    DivModMul(P, n * i, d);
    DivMul(P, d * i - 1, n);
    QuotientIdentity(n, d, i);
    DivAdd(P, l * d - (n * i) * d, n * (d * i - 1));
  }

  lemma QuotientIdentity(n: int, d: int, i: int)
    ensures n * (d * i - 1) == (n * i) * d - n
  {
  }

  lemma Residues(a: int, b: int)
    requires 0 <= a < P && 0 <= b < P && Div(P, a - b)
    ensures a == b
  {
    var q := DivWitness(P, a - b);
    SmallMultiple(P, q);
  }

  /** Two canonical curve points with the same x are equal or opposite. */
  lemma SameX(A: Point, B: Point)
    requires OnCurve(A) && OnCurve(B) && A.Affine? && B.Affine? && A.x == B.x
    ensures A == B || (A.y + B.y) % P == 0
  {
    DivAdd(P, A.y * A.y - A.x * A.x * A.x - 7, B.y * B.y - B.x * B.x * B.x - 7);
    assert A.y * A.y - B.y * B.y == (A.y - B.y) * (A.y + B.y);
    Euclid(P, A.y - B.y, A.y + B.y);
    ModZero(P, A.y + B.y);
    if Div(P, A.y - B.y) {
      Residues(A.y, B.y);
    }
  }

  /** Whenever `_padd` divides, the divisor is not a multiple of P. */
  lemma NeverInvertsZero(A: Point, B: Point)
    requires OnCurve(A) && OnCurve(B) && A.Affine? && B.Affine? && Add(A, B) != Infinity
    ensures A == B ==> !Div(P, 2 * A.y)
    ensures A != B ==> !Div(P, B.x - A.x)
  {
    if A == B {
      ModZero(P, A.y + A.y);
    } else {
      if Div(P, B.x - A.x) {
        Residues(B.x, A.x);
        SameX(A, B);
      }
    }
  }

  // ----- closure -----

  /** What makes l the slope of the chord or tangent through A and B: the line through A with
      slope l meets the curve again at B. */
  ghost predicate IsSlope(A: Point, B: Point, l: int)
    requires A.Affine? && B.Affine?
  {
    && Div(P, l * (B.x - A.x) - (B.y - A.y))
    && Div(P, Secant(A.x, A.y, B.x, l))
  }

  ghost function Secant(x1: int, y1: int, x2: int, l: int): int {
    x2 * x2 + x1 * x2 + x1 * x1 - l * (2 * y1 + l * (x2 - x1))
  }

  lemma SlopeIsSlope(A: Point, B: Point)
    requires OnCurve(A) && OnCurve(B) && A.Affine? && B.Affine? && Add(A, B) != Infinity
    ensures IsSlope(A, B, Slope(A, B))
  {
    NeverInvertsZero(A, B);
    var l := Slope(A, B);
    if A == B {
      QuotientSpec(3 * A.x * A.x, 2 * A.y, l);
      TangentSecant(A.x, A.y, l);
    } else {
      QuotientSpec(B.y - A.y, B.x - A.x, l);
      ChordSecant(A, B, l);
    }
  }

  lemma TangentSecant(x: int, y: int, l: int)
    requires Div(P, l * (2 * y) - 3 * x * x)
    ensures Div(P, l * (x - x) - (y - y)) && Div(P, Secant(x, y, x, l))
  {
    DivIntro(P, 0, 0);
    DivAdd(P, 0, l * (2 * y) - 3 * x * x);
    TangentIdentity(x, y, l);
  }

  lemma TangentIdentity(x: int, y: int, l: int)
    ensures l * (x - x) - (y - y) == 0
    ensures Secant(x, y, x, l) == 0 - (l * (2 * y) - 3 * x * x)
  {
    assert l * (x - x) == 0;
  }

  lemma ChordSecant(A: Point, B: Point, l: int)
    requires OnCurve(A) && OnCurve(B) && A.Affine? && B.Affine?
    requires !Div(P, B.x - A.x) && Div(P, l * (B.x - A.x) - (B.y - A.y))
    ensures Div(P, Secant(A.x, A.y, B.x, l))
  {
    var e1, e2 := A.y * A.y - A.x * A.x * A.x - 7, B.y * B.y - B.x * B.x * B.x - 7;
    var e := l * (B.x - A.x) - (B.y - A.y);
    var s := Secant(A.x, A.y, B.x, l);
    DivMul(P, e, 2 * B.y + e);
    DivAdd(P, e1, e2);
    DivAdd(P, e1 - e2, (2 * B.y + e) * e);
    ChordIdentity(A.x, A.y, B.x, B.y, l);
    Euclid(P, B.x - A.x, s);
  }

  lemma ChordIdentity(x1: int, y1: int, x2: int, y2: int, l: int)
    ensures
      var e := l * (x2 - x1) - (y2 - y1);
      (x2 - x1) * Secant(x1, y1, x2, l)
      == (y1 * y1 - x1 * x1 * x1 - 7) - (y2 * y2 - x2 * x2 * x2 - 7) - (2 * y2 + e) * e
  {
  }

  /** The third intersection of the line with the curve, before reduction. */
  lemma ThirdPoint(x1: int, y1: int, x2: int, l: int, x3: int, y3: int)
    requires CurveEq(x1, y1) && Div(P, Secant(x1, y1, x2, l))
    requires x3 == l * l - x1 - x2 && y3 == l * (x1 - x3) - y1
    ensures CurveEq(x3, y3)
  {
    var s := Secant(x1, y1, x2, l);
    DivMul(P, s, x3 - x1);
    DivAdd(P, y1 * y1 - x1 * x1 * x1 - 7, (x3 - x1) * s);
    ThirdPointIdentity(x1, y1, x2, l, x3, y3);
  }

  lemma ThirdPointIdentity(x1: int, y1: int, x2: int, l: int, x3: int, y3: int)
    requires x3 == l * l - x1 - x2 && y3 == l * (x1 - x3) - y1
    ensures y3 * y3 - x3 * x3 * x3 - 7
         == (y1 * y1 - x1 * x1 * x1 - 7) - (x3 - x1) * Secant(x1, y1, x2, l)
  {
    var d := x3 - x1;
    assert y3 * y3 == (y1 + l * d) * (y1 + l * d);
    assert (y1 + l * d) * (y1 + l * d) == y1 * y1 + 2 * (l * d) * y1 + (l * d) * (l * d);
    assert x2 == l * l - x1 - x3;
  }

  lemma CurveEqCong(x: int, y: int, x': int, y': int)
    requires CurveEq(x, y) && Div(P, x' - x) && Div(P, y' - y)
    ensures CurveEq(x', y')
  {
    DivMul(P, y' - y, y' + y);
    DivMul(P, x' - x, x' * x' + x' * x + x * x);
    DivAdd(P, y * y - x * x * x - 7, (y' + y) * (y' - y));
    DivAdd(P, y * y - x * x * x - 7 + (y' + y) * (y' - y), (x' * x' + x' * x + x * x) * (x' - x));
    assert (y' + y) * (y' - y) == y' * y' - y * y;
    CubeIdentity(x, x');
  }

  lemma CubeIdentity(x: int, x': int)
    ensures (x' * x' + x' * x + x * x) * (x' - x) == x' * x' * x' - x * x * x
  {
  }

  /** The sum of two curve points is again a canonical curve point. */
  lemma AddClosed(A: Point, B: Point)
    requires OnCurve(A) && OnCurve(B)
    ensures OnCurve(Add(A, B))
  {
    if A.Affine? && B.Affine? && Add(A, B) != Infinity {
      var l := Slope(A, B);
      SlopeIsSlope(A, B);
      var x, y := l * l - A.x - B.x, l * (A.x - (l * l - A.x - B.x)) - A.y;
      ThirdPoint(A.x, A.y, B.x, l, x, y);
      SumCongruent(A, B, l);
      var C := Add(A, B);
      CurveEqCong(x, y, C.x, C.y);
    }
  }

  /** The code reduces x3 before it computes y3; that changes nothing modulo P. */
  lemma SumCongruent(A: Point, B: Point, l: int)
    requires A.Affine? && B.Affine? && Add(A, B) != Infinity && l == Slope(A, B)
    ensures var x := l * l - A.x - B.x;
      && Div(P, Add(A, B).x - x)
      && Div(P, Add(A, B).y - (l * (A.x - x) - A.y))
  {
    var x := l * l - A.x - B.x;
    var C := Add(A, B);
    ModDiv(P, x);
    ModDiv(P, l * (A.x - C.x) - A.y);
    DivMul(P, C.x - x, l);
    DivAdd(P, C.y - (l * (A.x - C.x) - A.y), l * (C.x - x));
    assert l * (A.x - C.x) - A.y - l * (C.x - x) * -1 - l * (C.x - x) == l * (A.x - C.x) - A.y;
    Distribute(l, A.x - C.x, C.x - x);
    assert (A.x - C.x) + (C.x - x) == A.x - x;
  }

  // ----- the chord and tangent rule -----

  /** The line through A and B, or the tangent at A if they are one point, has this slope; it meets the curve
      again in the point opposite to C. */
  ghost predicate ChordMeets(A: Point, B: Point, C: Point, l: int)
    requires A.Affine? && B.Affine? && C.Affine?
  {
    && (if A == B then Div(P, l * (2 * A.y) - 3 * A.x * A.x) else Div(P, l * (B.x - A.x) - (B.y - A.y)))
    && Div(P, A.x + B.x + C.x - l * l)
    && Div(P, C.y + A.y - l * (A.x - C.x))
  }

  /** Infinity is neutral, opposite points add up to it, and any other two to what the chord rule says. */
  lemma ChordRule(A: Point, B: Point)
    requires OnCurve(A) && OnCurve(B)
    ensures Add(Infinity, B) == B && Add(A, Infinity) == A
    ensures A.Affine? && B.Affine? ==> (Add(A, B) == Infinity <==> A.x == B.x && (A.y == 0 == B.y || A.y + B.y == P))
    ensures A.Affine? && B.Affine? && Add(A, B) != Infinity ==> exists l :: ChordMeets(A, B, Add(A, B), l)
  {
    if A.Affine? && B.Affine? {
      OppositeSum(P, A.y, B.y);
      if Add(A, B) != Infinity {
        ChordFound(A, B);
      }
    }
  }

  lemma OppositeSum(p: nat, a: nat, b: nat)
    requires a < p && b < p
    ensures (a + b) % p == 0 <==> a == 0 == b || a + b == p
  {
    if 0 < a + b < p {
      ModSmall(p, a + b);
    } else if p < a + b {
      DivIntro(p, p, 1);
      ModEq(p, a + b, a + b - p);
      ModSmall(p, a + b - p);
    }
  }

  lemma ChordFound(A: Point, B: Point)
    requires OnCurve(A) && OnCurve(B) && A.Affine? && B.Affine? && Add(A, B) != Infinity
    ensures ChordMeets(A, B, Add(A, B), Slope(A, B))
  {
    NeverInvertsZero(A, B);
    var l, C := Slope(A, B), Add(A, B);
    if A == B {
      QuotientSpec(3 * A.x * A.x, 2 * A.y, l);
    } else {
      QuotientSpec(B.y - A.y, B.x - A.x, l);
    }
    SumReduced(A.x + B.x, l * l, C.x);
    SumReduced(A.y, l * (A.x - C.x), C.y);
  }

  lemma SumReduced(a: int, q: int, c: int)
    requires c == (q - a) % P
    ensures Div(P, a + c - q)
  {
    ModDiv(P, q - a);
  }

  // ----- the group laws that need no associativity -----

  lemma AddCommutes(A: Point, B: Point)
    requires OnCurve(A) && OnCurve(B)
    ensures Add(A, B) == Add(B, A)
  {
    if A.Affine? && B.Affine? && A != B && Add(A, B) != Infinity {
      SlopeCommutes(A, B);
      SlopeIsSlope(A, B);
      SameLine(A, B, Slope(A, B), Add(A, B).x);
    }
  }

  /** Both slopes solve the same linear equation. */
  lemma SlopeCommutes(A: Point, B: Point)
    requires OnCurve(A) && OnCurve(B) && A.Affine? && B.Affine? && A != B && Add(A, B) != Infinity
    ensures Slope(A, B) == Slope(B, A)
  {
    var l, m := Slope(A, B), Slope(B, A);
    SlopeIsSlope(A, B);
    SlopeIsSlope(B, A);
    NeverInvertsZero(A, B);
    DivAdd(P, l * (B.x - A.x) - (B.y - A.y), m * (A.x - B.x) - (A.y - B.y));
    SlopesIdentity(A.x, A.y, B.x, B.y, l, m);
    Euclid(P, B.x - A.x, l - m);
    Residues(l, m);
  }

  /** The line through A with slope l is the line through B. */
  lemma SameLine(A: Point, B: Point, l: int, x3: int)
    requires A.Affine? && B.Affine? && Div(P, l * (B.x - A.x) - (B.y - A.y))
    ensures (l * (A.x - x3) - A.y) % P == (l * (B.x - x3) - B.y) % P
  {
    LineIdentity(A.x, A.y, B.x, B.y, l, x3);
    DivIntro(P, 0, 0);
    DivAdd(P, 0, l * (B.x - A.x) - (B.y - A.y));
    ModEq(P, l * (A.x - x3) - A.y, l * (B.x - x3) - B.y);
  }

  lemma SlopesIdentity(x1: int, y1: int, x2: int, y2: int, l: int, m: int)
    ensures l * (x2 - x1) - (y2 - y1) + (m * (x1 - x2) - (y1 - y2)) == (x2 - x1) * (l - m)
  {
  }

  lemma LineIdentity(x1: int, y1: int, x2: int, y2: int, l: int, x3: int)
    ensures (l * (x1 - x3) - y1) - (l * (x2 - x3) - y2) == 0 - (l * (x2 - x1) - (y2 - y1))
  {
  }

  lemma AddIdentity(A: Point)
    ensures Add(Infinity, A) == A && Add(A, Infinity) == A
  {
  }

  lemma NegInverse(A: Point)
    requires OnCurve(A)
    ensures OnCurve(Neg(A)) && Add(A, Neg(A)) == Infinity && Neg(Neg(A)) == A
  {
    if A.Affine? {
      NegResidue(P, A.y);
      if A.y != 0 {
        OppositeSquare(P, A.y);
        CurveEqShift(A.x, A.y, P - A.y, (P - A.y) * (P - A.y) - A.y * A.y);
      }
    }
  }

  lemma NegResidue(p: nat, y: nat)
    requires y < p
    ensures (p - y) % p == if y == 0 then 0 else p - y
    ensures (y + (p - y) % p) % p == 0
    ensures (p - (p - y) % p) % p == y
  {
    assert p % p == 0;
    ModSmall(p, y);
    if y != 0 {
      ModSmall(p, p - y);
    }
  }

  lemma ModSmall(p: nat, a: nat)
    requires a < p
    ensures a % p == a
  {
  }

  lemma OppositeSquare(p: int, y: int)
    ensures Div(p, (p - y) * (p - y) - y * y)
  {
    OppositeIdentity(p, y);
    DivIntro(p, p * (p - 2 * y), p - 2 * y);
  }

  lemma OppositeIdentity(p: int, y: int)
    ensures (p - y) * (p - y) == y * y + p * (p - 2 * y)
  {
  }

  /** Squares that differ by a multiple of P are on the curve together. */
  lemma CurveEqShift(x: int, y: int, z: int, d: int)
    requires CurveEq(x, y) && d == z * z - y * y && Div(P, d)
    ensures CurveEq(x, z)
  {
    DivAdd(P, y * y - x * x * x - 7, d);
  }

  lemma ModSmallP(a: int)
    requires 0 <= a < P
    ensures a % P == a
  {
    ModSmall(P, a);
  }

  lemma OppositeOrdinates(y: int, y': int)
    requires 0 <= y < P && 0 <= y' < P && (y + y') % P == 0
    ensures y' == (P - y) % P
  {
    if y == 0 {
      ModSmallP(y');
      assert P % P == 0;
    } else {
      ModZero(P, y + y');
      DivIntro(P, P, 1);
      DivAdd(P, y + y', P);
      Residues(y', P - y);
      ModSmallP(P - y);
    }
  }

  /** Neg is the only inverse. */
  lemma SumInfinity(A: Point, B: Point)
    requires OnCurve(A) && OnCurve(B) && Add(A, B) == Infinity
    ensures B == Neg(A)
  {
    if A.Affine? && B.Affine? {
      NegInverse(A);
      OppositeOrdinates(A.y, B.y);
    }
  }

  // ----- scalar multiples -----

  ghost predicate Associates(A: Point, B: Point, C: Point) {
    OnCurve(A) && OnCurve(B) && OnCurve(C) ==> Add(Add(A, B), C) == Add(A, Add(B, C))
  }

  /** The one law of the curve group that is assumed, never proved, below. */
  ghost predicate Associative() {
    forall A, B, C :: Associates(A, B, C)
  }

  lemma Regroup(A: Point, B: Point, C: Point)
    requires Associative() && OnCurve(A) && OnCurve(B) && OnCurve(C)
    ensures Add(Add(A, B), C) == Add(A, Add(B, C))
  {
    assert Associates(A, B, C);
  }

  /** A + A + ... + A, k times: what a scalar multiple is. */
  function Times(k: nat, A: Point): Point {
    if k == 0 then Infinity else Add(Times(k - 1, A), A)
  }

  lemma {:induction false} TimesClosed(k: nat, A: Point)
    requires OnCurve(A)
    ensures OnCurve(Times(k, A))
  {
    if k > 0 {
      TimesClosed(k - 1, A);
      AddClosed(Times(k - 1, A), A);
    }
  }

  lemma {:induction false} TimesAdd(j: nat, k: nat, A: Point)
    requires Associative() && OnCurve(A)
    ensures Times(j + k, A) == Add(Times(j, A), Times(k, A))
  {
    if k > 0 {
      TimesAdd(j, k - 1, A);
      TimesClosed(j, A);
      TimesClosed(k - 1, A);
      Regroup(Times(j, A), Times(k - 1, A), A);
    }
  }

  lemma PredecessorTimes(j: int, k: int)
    ensures j * k == (j - 1) * k + k
  {
  }

  lemma {:induction false} TimesMul(j: nat, k: nat, A: Point)
    requires Associative() && OnCurve(A)
    ensures 0 <= j * k && Times(j * k, A) == Times(j, Times(k, A))
  {
    if j == 0 {
      assert j * k == 0;
    } else {
      TimesMul(j - 1, k, A);
      PredecessorTimes(j, k);
      TimesAdd((j - 1) * k, k, A);
    }
  }

  /** Python's `k & 1` and `k >>= 1`. */
  lemma DoubleAndAdd(k: nat, A: Point)
    requires Associative() && OnCurve(A)
    ensures Times(k, A) == Add(if k % 2 == 1 then A else Infinity, Times(k / 2, Add(A, A)))
  {
    assert Times(2, A) == Add(A, A) by {
      assert Times(1, A) == A;
    }
    var h := k / 2;
    TimesMul(h, 2, A);
    if k % 2 == 1 {
      assert k == 1 + h * 2;
      TimesAdd(1, h * 2, A);
      assert Times(1, A) == A;
    } else {
      assert k == h * 2;
    }
  }

  /** One turn of the loop keeps R + n * Q. */
  lemma PMulStep(n: nat, R: Point, Q: Point)
    requires Associative() && OnCurve(R) && OnCurve(Q)
    ensures Add(R, Times(n, Q)) == Add(if n % 2 == 1 then Add(R, Q) else R, Times(n / 2, Add(Q, Q)))
  {
    DoubleAndAdd(n, Q);
    AddClosed(Q, Q);
    TimesClosed(n / 2, Add(Q, Q));
    Regroup(R, if n % 2 == 1 then Q else Infinity, Times(n / 2, Add(Q, Q)));
  }

  /** `_pmul`: the shift-and-add loop computes the k-fold sum. */
  method PMul(k: nat, A: Point) returns (R: Point)
    ensures OnCurve(A) ==> OnCurve(R)
    ensures OnCurve(A) && Associative() ==> R == Times(k, A)
  {
    R := Infinity;
    var n, Q := k, A;
    while n != 0
      invariant OnCurve(A) ==> OnCurve(R) && OnCurve(Q)
      invariant OnCurve(A) && Associative() ==> Add(R, Times(n, Q)) == Times(k, A)
      decreases n
    {
      if OnCurve(A) {
        AddClosed(R, Q);
        AddClosed(Q, Q);
        if Associative() {
          PMulStep(n, R, Q);
        }
      }
      if n % 2 == 1 {
        R := Add(R, Q);
      }
      Q := Add(Q, Q);
      n := n / 2;
    }
  }

  // ----- `_lift_x` -----

  /** If c is a square then c^((P+1)/4) squares to c: the exponent is a true square root because
      P = 3 modulo 4. */
  lemma SquareRoot(y: int, c: int)
    requires Div(P, y * y - c)
    ensures var r := Pow(c, (P + 1) / 4); Div(P, r * r - c)
  {
    var e := (P + 1) / 4;
    var r := Pow(c, e);
    assert 2 * (e + e) == P + 1;
    PowAdd(c, e, e);
    assert r * r == Pow(c, e + e);
    PowCong(P, y * y, c, e + e);
    PowTwo(y);
    PowMul(y, 2, e + e);
    assert Pow(y, P + 1) == y * Pow(y, P);
    Fermat(P, y);
    DivMul(P, Pow(y, P) - y, y);
    assert y * (Pow(y, P) - y) == Pow(y, P + 1) - y * y;
    DivAdd(P, Pow(y, P + 1) - y * y, y * y - c);
    DivAdd(P, Pow(y, P + 1) - c, Pow(y * y, e + e) - Pow(c, e + e));
  }

  lemma PowTwo(x: int)
    ensures Pow(x, 2) == x * x
  {
    assert Pow(x, 2) == x * Pow(x, 1) && Pow(x, 1) == x * Pow(x, 0);
  }

  lemma PowThree(x: int)
    ensures Pow(x, 3) == x * x * x
  {
    PowTwo(x);
    assert Pow(x, 3) == x * Pow(x, 2);
    assert x * (x * x) == x * x * x;
  }

  lemma CubeResidue(x: int)
    ensures var y2 := (Pow(x, 3) % P + 7) % P; 0 <= y2 < P && Div(P, y2 - (x * x * x + 7))
  {
    PowThree(x);
    var c := Pow(x, 3) % P;
    ModDiv(P, Pow(x, 3));
    ModDiv(P, c + 7);
    DivAdd(P, (c + 7) % P - (c + 7), c - x * x * x);
  }

  /** What `_lift_x` returns satisfies the curve equation, with the even y; it is a canonical
      point exactly when the caller's x was below P, which the code does not check. */
  lemma LiftXSound(x: nat)
    requires LiftX(x).Some?
    ensures var A := LiftX(x).value;
      && A.Affine? && A.x == x && EvenY(A) && 0 <= A.y < P && CurveEq(A.x, A.y)
      && (OnCurve(A) <==> x < P)
  {
    var y2 := (Pow(x, 3) % P + 7) % P;
    var y := Pow(y2, (P + 1) / 4) % P;
    CubeResidue(x);
    RootOnCurve(x, y2, y);
    EvenOfRoot(x, y);
  }

  lemma EvenOfRoot(x: int, y: int)
    requires 0 <= y < P && CurveEq(x, y)
    ensures var e := if y % 2 == 1 then P - y else y; e % 2 == 0 && 0 <= e < P && CurveEq(x, e)
  {
    if y % 2 == 1 {
      OppositeSquare(P, y);
      CurveEqShift(x, y, P - y, (P - y) * (P - y) - y * y);
      OddMinusOdd(P, y);
    }
  }

  lemma OddMinusEven(p: int, y: int)
    requires p % 4 == 3 && y % 2 == 0
    ensures (p - y) % 2 == 1
  {
  }

  lemma OddMinusOdd(p: int, y: int)
    requires p % 4 == 3 && y % 2 == 1
    ensures (p - y) % 2 == 0
  {
  }

  lemma RootOnCurve(x: int, y2: int, y: int)
    requires Div(P, y2 - (x * x * x + 7)) && (y * y) % P == y2
    ensures CurveEq(x, y)
  {
    ModDiv(P, y * y);
    DivAdd(P, y * y - y2, y2 - (x * x * x + 7));
    assert y * y - y2 + (y2 - (x * x * x + 7)) == y * y - x * x * x - 7;
  }

  /** The code's candidate squares to y2 whenever y2 is a square. */
  lemma CandidateSquares(v: int, y2: int)
    requires 0 <= y2 < P && Div(P, v * v - y2)
    ensures var y := Pow(y2, (P + 1) / 4) % P; (y * y) % P == y2
  {
    SquareRoot(v, y2);
    var r := Pow(y2, (P + 1) / 4);
    var y := r % P;
    ModDiv(P, r);
    DivMul(P, y - r, y + r);
    DifferenceOfSquares(y, r);
    DivAdd(P, y * y - r * r, r * r - y2);
    ModEq(P, y * y, y2);
    ModSmallP(y2);
  }

  lemma DifferenceOfSquares(y: int, r: int)
    ensures (y + r) * (y - r) == y * y - r * r
  {
  }

  /** Every curve point with an even y is what its x lifts to. */
  lemma LiftXComplete(A: Point)
    requires OnCurve(A) && A.Affine? && EvenY(A)
    ensures LiftX(A.x) == Some(A)
  {
    var x := A.x;
    var y2 := (Pow(x, 3) % P + 7) % P;
    CubeResidue(x);
    DivAdd(P, A.y * A.y - x * x * x - 7, y2 - (x * x * x + 7));
    assert Div(P, A.y * A.y - y2);
    CandidateSquares(A.y, y2);
    LiftXSound(x);
    SameX(A, LiftX(x).value);
    EvenUnique(A.y, LiftX(x).value.y);
  }

  /** P is odd, so opposite non-zero ordinates have opposite parity. */
  lemma EvenUnique(y: int, y': int)
    requires 0 <= y < P && 0 <= y' < P && y % 2 == 0 && y' % 2 == 0
    requires y == y' || (y + y') % P == 0
    ensures y == y'
  {
    if y != y' {
      ModZero(P, y + y');
      var q := DivWitness(P, y + y');
      assert q == 1 by {
        if q >= 2 { MulMono(P, 2, q); }
        if q <= 0 { MulMono(P, q, 0); }
      }
    }
  }

  lemma MulMono(m: int, a: int, b: int)
    requires m >= 0 && a <= b
    ensures m * a <= m * b
  {
  }
}
