/** Pricing a Tango round and building its outputs: helpers/txsize.py, and the amounts half of
    helpers/tango.py. The fee rate is a real number, where Python has a float. */
module TangoPlan {
  import opened Results
  import opened Sequences
  import opened Bytes
  import opened Bip69

  const DUST_SATS := 546

  // ----- helpers/txsize.py -----

  function Ceil(x: real): int {
    if x.Floor as real == x then x.Floor else x.Floor + 1
  }

  /** `estimate_vsize` for taproot inputs and outputs only. */
  function Vsize(nIn: nat, nOut: nat): int {
    Ceil(10.5 + 57.5 * nIn as real + 43.0 * nOut as real)
  }

  /** `fee_for` */
  function FeeFor(vsize: int, rate: real): int {
    var f := Ceil(vsize as real * rate);
    if f > 1 then f else 1
  }

  // ----- shares of the fee -----

  /** `split_fee`, A's part. */
  function AShare(fee: int): int {
    fee - fee / 2
  }

  function BShare(fee: int): int {
    fee / 2
  }

  // ----- `plan` -----

  datatype PlanError = NoPieces | NotDivisible | ShareIsDust | OneSideMissing | ACannotCover | BCannotCover | FeeMoved

  datatype Amounts = Amounts(
    denom: int, pieces: int, share: int, aIn: int, bIn: int,
    aChange: int, bChange: int, aFee: int, bFee: int, fee: int, vsize: int, clean: bool)

  function Total(coins: seq<Coin>): nat {
    if coins == [] then 0 else Total(coins[..|coins| - 1]) + coins[|coins| - 1].amount
  }

  lemma {:induction false} TotalConcat(s: seq<Coin>, t: seq<Coin>)
    ensures Total(s + t) == Total(s) + Total(t)
  {
    if t == [] {
      assert s + t == s;
    } else {
      TotalConcat(s, t[..|t| - 1]);
      assert (s + t)[..|s + t| - 1] == s + t[..|t| - 1];
    }
  }

  lemma TotalOne(c: Coin)
    ensures Total([c]) == c.amount
  {
    assert [c][..0] == [];
  }

  method TotalOf(coins: seq<Coin>) returns (t: nat)
    ensures t == Total(coins)
  {
    t := 0;
    for i := 0 to |coins|
      invariant t == Total(coins[..i])
    {
      assert coins[..i + 1][..i] == coins[..i];
      t := t + coins[i].amount;
    }
    assert coins[..|coins|] == coins;
  }

  function Kept(change: int): nat {
    if change >= DUST_SATS then 1 else 0
  }

  /** The number of outputs when these changes are worth creating. */
  function Shape(pieces: nat, aChange: int, bChange: int): nat {
    2 * pieces + Kept(aChange) + Kept(bChange)
  }

  /** What one side has left over the denomination and its share of a fee. */
  function ALeft(aExcess: int, fee: int): int {
    aExcess - AShare(fee)
  }

  function BLeft(bExcess: int, fee: int): int {
    bExcess - BShare(fee)
  }

  /** The number of outputs priced by pass k: pass 0 prices the dearest shape, and each later pass the
      shape that the changes left by the one before call for. */
  function Priced(price: nat -> int, pieces: nat, aExcess: int, bExcess: int, k: nat): nat {
    if k == 0 then 2 * pieces + 2
    else
      var fee := price(Priced(price, pieces, aExcess, bExcess, k - 1));
      Shape(pieces, ALeft(aExcess, fee), BLeft(bExcess, fee))
  }

  /** `shares`: the size and the fee of a shape, for a fixed number of inputs and a fixed rate. */
  function Sizes(nIn: nat): nat -> int {
    (n: nat) => Vsize(nIn, n)
  }

  function Prices(nIn: nat, rate: real): nat -> int {
    (n: nat) => FeeFor(Vsize(nIn, n), rate)
  }

  method Plan(aInputs: seq<Coin>, bInputs: seq<Coin>, denom: int, rate: real, piecesGiven: int)
    returns (r: Result<Amounts, PlanError>)
    ensures r == PlanOf(aInputs, bInputs, denom, rate, piecesGiven)
    ensures r != Err(FeeMoved)
  {
    var aIn := TotalOf(aInputs);
    var bIn := TotalOf(bInputs);
    var nIn := |aInputs| + |bInputs|;
    PricesGrow(nIn, rate);
    r := PlanPriced(Sizes(nIn), Prices(nIn, rate), aInputs != [] && bInputs != [], aIn, bIn, denom, piecesGiven);
  }

  method PlanPriced(size: nat -> int, price: nat -> int, bothSides: bool, aIn: int, bIn: int, denom: int, piecesGiven: int)
    returns (r: Result<Amounts, PlanError>)
    requires Grows(price)
    ensures r == PlanAt(size, price, bothSides, aIn, bIn, denom, piecesGiven)
  {
    var pieces := if piecesGiven == 0 then 1 else piecesGiven;
    if pieces < 1 {
      return Err(NoPieces);
    }
    if denom % pieces != 0 {
      return Err(NotDivisible);
    }
    var share := denom / pieces;
    if share < DUST_SATS {
      return Err(ShareIsDust);
    }
    if !bothSides {
      return Err(OneSideMissing);
    }
    r := PlanShares(size, price, aIn, bIn, denom, pieces, share);
  }

  method PlanShares(size: nat -> int, price: nat -> int, aIn: int, bIn: int, denom: int, pieces: nat, share: int)
    returns (r: Result<Amounts, PlanError>)
    requires Grows(price)
    ensures r == SharesAt(size, price, aIn, bIn, denom, pieces, share)
  {
    var vsize, fee := size(2 * pieces + 2), price(2 * pieces + 2);
    var aChange, bChange := aIn - denom - AShare(fee), bIn - denom - BShare(fee);
    if aChange < 0 {
      return Err(ACannotCover);
    }
    if bChange < 0 {
      return Err(BCannotCover);
    }
    ghost var a, b := aIn - denom, bIn - denom;
    for k := 0 to 2
      invariant vsize == size(Priced(price, pieces, a, b, k)) && fee == price(Priced(price, pieces, a, b, k))
      invariant aChange == ALeft(a, fee) >= 0 && bChange == BLeft(b, fee) >= 0
    {
      var nOut := Shape(pieces, aChange, bChange);
      PricedStep(price, pieces, a, b, k);
      DearestShape(price, pieces, a, b, k + 1);
      vsize, fee := size(nOut), price(nOut);
      var newA, newB := aIn - denom - AShare(fee), bIn - denom - BShare(fee);
      if newA < 0 || newB < 0 {
        return Err(FeeMoved);
      }
      aChange, bChange := newA, newB;
    }
    var aFee, bFee := AShare(fee), BShare(fee);
    if 0 <= aChange < DUST_SATS {
      aFee, aChange := aFee + aChange, 0;
    }
    if 0 <= bChange < DUST_SATS {
      bFee, bChange := bFee + bChange, 0;
    }
    r := Ok(Amounts(denom, pieces, share, aIn, bIn, aChange, bChange, aFee, bFee, aFee + bFee, vsize,
                    aChange == 0 && bChange == 0));
  }

  function PlanOf(aInputs: seq<Coin>, bInputs: seq<Coin>, denom: int, rate: real, pieces: int)
    : Result<Amounts, PlanError>
  {
    var nIn := |aInputs| + |bInputs|;
    PlanAt(Sizes(nIn), Prices(nIn, rate), aInputs != [] && bInputs != [], Total(aInputs), Total(bInputs), denom, pieces)
  }

  /** What `plan` answers: which error, or the amounts at the price of its second pass. */
  function PlanAt(size: nat -> int, price: nat -> int, bothSides: bool, aIn: int, bIn: int, denom: int, piecesGiven: int)
    : Result<Amounts, PlanError>
  {
    var pieces := if piecesGiven == 0 then 1 else piecesGiven;
    if pieces < 1 then Err(NoPieces)
    else if denom % pieces != 0 then Err(NotDivisible)
    else if denom / pieces < DUST_SATS then Err(ShareIsDust)
    else if !bothSides then Err(OneSideMissing)
    else SharesAt(size, price, aIn, bIn, denom, pieces, denom / pieces)
  }

  function SharesAt(size: nat -> int, price: nat -> int, aIn: int, bIn: int, denom: int, pieces: nat, share: int)
    : Result<Amounts, PlanError>
  {
    if ALeft(aIn - denom, price(2 * pieces + 2)) < 0 then Err(ACannotCover)
    else if BLeft(bIn - denom, price(2 * pieces + 2)) < 0 then Err(BCannotCover)
    else
      var n := Priced(price, pieces, aIn - denom, bIn - denom, 2);
      Ok(Settled(denom, pieces, share, aIn, bIn, size(n), price(n)))
  }

  /** The amounts at a price: a leftover below the dust limit goes to the fee of its own side. */
  function Settled(denom: int, pieces: int, share: int, aIn: int, bIn: int, vsize: int, fee: int): Amounts {
    var aLeft, bLeft := ALeft(aIn - denom, fee), BLeft(bIn - denom, fee);
    var aChange := if aLeft < DUST_SATS then 0 else aLeft;
    var bChange := if bLeft < DUST_SATS then 0 else bLeft;
    var aFee, bFee := aIn - denom - aChange, bIn - denom - bChange;
    Amounts(denom, pieces, share, aIn, bIn, aChange, bChange, aFee, bFee, aFee + bFee, vsize,
            aChange == 0 && bChange == 0)
  }

  // ----- a smaller shape is never dearer -----

  ghost predicate Rises(f: nat -> int, m: nat, n: nat) {
    m <= n ==> f(m) <= f(n)
  }

  /** A bigger transaction never costs less, and none is free. */
  ghost predicate Grows(f: nat -> int) {
    f(0) >= 1 && forall m, n :: Rises(f, m, n)
  }

  lemma CeilMonotone(x: real, y: real)
    requires x <= y
    ensures Ceil(x) <= Ceil(y)
  {
  }

  lemma RealProduct(x: real, y: real, r: real)
    requires x <= y && r >= 0.0
    ensures x * r <= y * r
  {
  }

  lemma NegativeProduct(x: real, r: real)
    requires x >= 0.0 && r <= 0.0
    ensures x * r <= 0.0
  {
  }

  lemma VsizeMonotone(nIn: nat, m: nat, n: nat)
    requires m <= n
    ensures 0 <= Vsize(nIn, m) <= Vsize(nIn, n)
  {
    CeilMonotone(10.5 + 57.5 * nIn as real + 43.0 * m as real, 10.5 + 57.5 * nIn as real + 43.0 * n as real);
  }

  lemma FeeForMonotone(v: int, w: int, rate: real)
    requires 0 <= v <= w
    ensures 1 <= FeeFor(v, rate) <= FeeFor(w, rate)
  {
    if rate >= 0.0 {
      RealProduct(v as real, w as real, rate);
      CeilMonotone(v as real * rate, w as real * rate);
    } else {
      NegativeProduct(v as real, rate);
      CeilMonotone(v as real * rate, 0.0);
    }
  }

  lemma PricesGrow(nIn: nat, rate: real)
    ensures Grows(Prices(nIn, rate))
  {
    var price := Prices(nIn, rate);
    VsizeMonotone(nIn, 0, 0);
    FeeForMonotone(Vsize(nIn, 0), Vsize(nIn, 0), rate);
    forall m, n ensures Rises(price, m, n) {
      if m <= n {
        VsizeMonotone(nIn, m, n);
        FeeForMonotone(Vsize(nIn, m), Vsize(nIn, n), rate);
      }
    }
  }

  lemma PriceMonotone(price: nat -> int, m: nat, n: nat)
    requires Grows(price) && m <= n
    ensures 1 <= price(m) <= price(n)
  {
    assert Rises(price, 0, m) && Rises(price, m, n);
  }

  lemma SharesMonotone(f: int, g: int)
    requires f <= g
    ensures AShare(f) <= AShare(g) && BShare(f) <= BShare(g)
  {
  }

  lemma LeftMonotone(pieces: nat, aExcess: int, bExcess: int, f: int, g: int)
    requires f <= g
    ensures ALeft(aExcess, g) <= ALeft(aExcess, f) && BLeft(bExcess, g) <= BLeft(bExcess, f)
    ensures Shape(pieces, ALeft(aExcess, g), BLeft(bExcess, g)) <= Shape(pieces, ALeft(aExcess, f), BLeft(bExcess, f))
  {
    SharesMonotone(f, g);
  }

  /** No pass prices a dearer shape than the first; so once both sides cover the first price they
      cover every later one. */
  lemma DearestShape(price: nat -> int, pieces: nat, a: int, b: int, k: nat)
    requires Grows(price)
    ensures var n := Priced(price, pieces, a, b, k);
      && 2 * pieces <= n <= 2 * pieces + 2
      && 1 <= price(n) <= price(2 * pieces + 2)
      && ALeft(a, price(n)) >= ALeft(a, price(2 * pieces + 2))
      && BLeft(b, price(n)) >= BLeft(b, price(2 * pieces + 2))
  {
    var n := Priced(price, pieces, a, b, k);
    PriceMonotone(price, n, 2 * pieces + 2);
    SharesMonotone(price(n), price(2 * pieces + 2));
  }

  /** Pass 1 starts from the dearest price, so pass 2 prices at least as many outputs; what is left at
      that price calls for no more. */
  lemma PassesShrink(price: nat -> int, pieces: nat, a: int, b: int)
    requires Grows(price)
    ensures Priced(price, pieces, a, b, 1) <= Priced(price, pieces, a, b, 2)
    ensures Priced(price, pieces, a, b, 3) <= Priced(price, pieces, a, b, 2)
  {
    var n0, n1, n2 := 2 * pieces + 2, Priced(price, pieces, a, b, 1), Priced(price, pieces, a, b, 2);
    PricedStep(price, pieces, a, b, 0);
    PricedStep(price, pieces, a, b, 1);
    PricedStep(price, pieces, a, b, 2);
    PriceMonotone(price, n1, n0);
    LeftMonotone(pieces, a, b, price(n1), price(n0));
    PriceMonotone(price, n1, n2);
    LeftMonotone(pieces, a, b, price(n1), price(n2));
  }

  lemma PricedStep(price: nat -> int, pieces: nat, a: int, b: int, k: nat)
    ensures var f := price(Priced(price, pieces, a, b, k));
      Priced(price, pieces, a, b, k + 1) == Shape(pieces, ALeft(a, f), BLeft(b, f))
  {
  }

  // ----- what every plan keeps -----

  /** Every satoshi that goes in comes out as the denomination, as change of the side it belongs to, or
      as that side's part of the fee; no output is dust; and the parts of the fee are never negative. */
  ghost predicate Balanced(p: Amounts, aIn: int, bIn: int, denom: int) {
    && p.aIn == aIn == denom + p.aChange + p.aFee && p.bIn == bIn == denom + p.bChange + p.bFee
    && p.fee == p.aFee + p.bFee && p.aFee >= 0 && p.bFee >= 0
    && p.denom == denom == p.pieces * p.share && p.pieces >= 1 && p.share >= 546
    && (p.aChange == 0 || p.aChange >= 546) && (p.bChange == 0 || p.bChange >= 546)
    && (p.clean <==> p.aChange == 0 && p.bChange == 0)
  }

  lemma PlanAtBalanced(size: nat -> int, price: nat -> int, bothSides: bool, aIn: int, bIn: int, denom: int, given: int)
    requires Grows(price) && PlanAt(size, price, bothSides, aIn, bIn, denom, given).Ok?
    ensures Balanced(PlanAt(size, price, bothSides, aIn, bIn, denom, given).value, aIn, bIn, denom)
    ensures PlanAt(size, price, bothSides, aIn, bIn, denom, given).value.pieces == if given == 0 then 1 else given
  {
    var pieces := if given == 0 then 1 else given;
    WholePieces(denom, pieces);
    DearestShape(price, pieces, aIn - denom, bIn - denom, 2);
  }

  lemma WholePieces(denom: int, pieces: int)
    requires pieces > 0 && denom % pieces == 0
    ensures denom == pieces * (denom / pieces)
  {
  }

  lemma {:induction false} PlanConserves(aInputs: seq<Coin>, bInputs: seq<Coin>, denom: int, rate: real, pieces: int)
    requires PlanOf(aInputs, bInputs, denom, rate, pieces).Ok?
    ensures Balanced(PlanOf(aInputs, bInputs, denom, rate, pieces).value, Total(aInputs), Total(bInputs), denom)
    ensures PlanOf(aInputs, bInputs, denom, rate, pieces).value.pieces == if pieces == 0 then 1 else pieces
  {
    var nIn := |aInputs| + |bInputs|;
    PricesGrow(nIn, rate);
    PlanAtBalanced(Sizes(nIn), Prices(nIn, rate), aInputs != [] && bInputs != [], Total(aInputs), Total(bInputs), denom, pieces);
  }

  /** The second complaint in the code is never made: a plan is refused exactly when the coins do not
      divide, a piece is dust, a side is missing, or a side does not cover the dearest price. */
  lemma {:induction false} PlanAccepts(aInputs: seq<Coin>, bInputs: seq<Coin>, denom: int, rate: real, pieces: int)
    ensures PlanOf(aInputs, bInputs, denom, rate, pieces) != Err(FeeMoved)
    ensures var q := if pieces == 0 then 1 else pieces;
      PlanOf(aInputs, bInputs, denom, rate, pieces).Ok?
      <==> && q >= 1 && denom % q == 0 && denom / q >= 546 && aInputs != [] && bInputs != []
           && Covers(Prices(|aInputs| + |bInputs|, rate)(2 * q + 2), Total(aInputs), Total(bInputs), denom)
  {
    PlanAtAccepts(Sizes(|aInputs| + |bInputs|), Prices(|aInputs| + |bInputs|, rate), aInputs != [] && bInputs != [],
                  Total(aInputs), Total(bInputs), denom, pieces);
  }

  predicate Covers(fee: int, aIn: int, bIn: int, denom: int) {
    aIn >= denom + AShare(fee) && bIn >= denom + BShare(fee)
  }

  lemma PlanAtAccepts(size: nat -> int, price: nat -> int, bothSides: bool, aIn: int, bIn: int, denom: int, given: int)
    ensures PlanAt(size, price, bothSides, aIn, bIn, denom, given) != Err(FeeMoved)
    ensures var q := if given == 0 then 1 else given;
      PlanAt(size, price, bothSides, aIn, bIn, denom, given).Ok?
      <==> && q >= 1 && denom % q == 0 && denom / q >= DUST_SATS && bothSides
           && Covers(price(2 * q + 2), aIn, bIn, denom)
  {
  }

  function OutputCount(p: Amounts): int {
    2 * p.pieces + (if p.aChange != 0 then 1 else 0) + (if p.bChange != 0 then 1 else 0)
  }

  /** The two shares of the price differ by at most the odd satoshi, which A pays. */
  lemma OddSatoshi(fee: int)
    ensures AShare(fee) + BShare(fee) == fee && AShare(fee) - BShare(fee) == fee % 2
  {
  }

  /** The outputs made are those of a third pass over the second pass's price. */
  lemma OutputsOfThirdPass(size: nat -> int, price: nat -> int, bothSides: bool, aIn: int, bIn: int, denom: int, given: int)
    requires Grows(price) && PlanAt(size, price, bothSides, aIn, bIn, denom, given).Ok?
    ensures var p := PlanAt(size, price, bothSides, aIn, bIn, denom, given).value;
      && p.pieces >= 1
      && OutputCount(p) == Priced(price, p.pieces, aIn - denom, bIn - denom, 3)
      && OutputCount(p) <= Priced(price, p.pieces, aIn - denom, bIn - denom, 2)
      && p.vsize == size(Priced(price, p.pieces, aIn - denom, bIn - denom, 2))
      && p.fee >= price(Priced(price, p.pieces, aIn - denom, bIn - denom, 2))
  {
    var pieces := if given == 0 then 1 else given;
    DearestShape(price, pieces, aIn - denom, bIn - denom, 2);
    PassesShrink(price, pieces, aIn - denom, bIn - denom);
    PricedStep(price, pieces, aIn - denom, bIn - denom, 2);
    OddSatoshi(price(Priced(price, pieces, aIn - denom, bIn - denom, 2)));
  }

  /** The price was for at least the outputs that were made, so the transaction pays the rate chosen. */
  lemma {:induction false} NeverUnderpays(aInputs: seq<Coin>, bInputs: seq<Coin>, denom: int, rate: real, pieces: int)
    requires PlanOf(aInputs, bInputs, denom, rate, pieces).Ok?
    ensures var p := PlanOf(aInputs, bInputs, denom, rate, pieces).value;
      && OutputCount(p) >= 0
      && p.vsize >= Vsize(|aInputs| + |bInputs|, OutputCount(p))
      && p.fee >= FeeFor(Vsize(|aInputs| + |bInputs|, OutputCount(p)), rate)
  {
    var nIn := |aInputs| + |bInputs|;
    PricesGrow(nIn, rate);
    CoversOutputs(nIn, Prices(nIn, rate), aInputs != [] && bInputs != [], Total(aInputs), Total(bInputs), denom, pieces);
  }

  lemma CoversOutputs(nIn: nat, price: nat -> int, bothSides: bool, aIn: int, bIn: int, denom: int, given: int)
    requires Grows(price) && PlanAt(Sizes(nIn), price, bothSides, aIn, bIn, denom, given).Ok?
    ensures var p := PlanAt(Sizes(nIn), price, bothSides, aIn, bIn, denom, given).value;
      && OutputCount(p) >= 0
      && p.vsize >= Vsize(nIn, OutputCount(p))
      && p.fee >= price(OutputCount(p))
  {
    OutputsOfThirdPass(Sizes(nIn), price, bothSides, aIn, bIn, denom, given);
    var p := PlanAt(Sizes(nIn), price, bothSides, aIn, bIn, denom, given).value;
    var n := Priced(price, p.pieces, aIn - denom, bIn - denom, 2);
    PriceMonotone(price, OutputCount(p), n);
    VsizeMonotone(nIn, OutputCount(p), n);
  }

  /** Whether the second pass priced the outputs its own price leaves, told from the prices of the three
      shapes a round of so many pieces can have, without running a pass. A side keeps its change at a price
      if what is left after its share of it is worth an output. */
  predicate SettlesAt(f0: int, f1: int, f2: int, aExcess: int, bExcess: int) {
    var a0, a1, a2 := ALeft(aExcess, f0) >= DUST_SATS, ALeft(aExcess, f1) >= DUST_SATS, ALeft(aExcess, f2) >= DUST_SATS;
    var b0, b1, b2 := BLeft(bExcess, f0) >= DUST_SATS, BLeft(bExcess, f1) >= DUST_SATS, BLeft(bExcess, f2) >= DUST_SATS;
    || (a2 && b2)
    || (!a0 && !b0)
    || (a1 && !b1 && (a2 || !b0))
    || (b1 && !a1 && (b2 || !a0))
  }

  predicate Settles(price: nat -> int, pieces: nat, aExcess: int, bExcess: int) {
    match (price(2 * pieces), price(2 * pieces + 1), price(2 * pieces + 2))
    case (f0, f1, f2) => SettlesAt(f0, f1, f2, aExcess, bExcess)
  }

  /** A third pass prices what the second priced exactly when the prices settle. */
  lemma SettlesExactly(price: nat -> int, pieces: nat, a: int, b: int)
    requires Grows(price)
    ensures Priced(price, pieces, a, b, 3) == Priced(price, pieces, a, b, 2) <==> Settles(price, pieces, a, b)
  {
    PricedStep(price, pieces, a, b, 0);
    PricedStep(price, pieces, a, b, 1);
    PricedStep(price, pieces, a, b, 2);
    PriceMonotone(price, 2 * pieces, 2 * pieces + 1);
    PriceMonotone(price, 2 * pieces + 1, 2 * pieces + 2);
  }

  /** The recorded size is the size of the transaction exactly when the prices settle. */
  lemma {:induction false} SizeExact(aInputs: seq<Coin>, bInputs: seq<Coin>, denom: int, rate: real, pieces: int)
    requires PlanOf(aInputs, bInputs, denom, rate, pieces).Ok?
    ensures var p := PlanOf(aInputs, bInputs, denom, rate, pieces).value;
      var nIn := |aInputs| + |bInputs|;
      && p.pieces >= 0 && OutputCount(p) >= 0
      && (p.vsize == Vsize(nIn, OutputCount(p))
          <==> Settles(Prices(nIn, rate), p.pieces, Total(aInputs) - denom, Total(bInputs) - denom))
  {
    var nIn := |aInputs| + |bInputs|;
    PricesGrow(nIn, rate);
    SizeExactAt(nIn, Prices(nIn, rate), aInputs != [] && bInputs != [], Total(aInputs), Total(bInputs), denom, pieces);
  }

  lemma SizeExactAt(nIn: nat, price: nat -> int, bothSides: bool, aIn: int, bIn: int, denom: int, given: int)
    requires Grows(price) && PlanAt(Sizes(nIn), price, bothSides, aIn, bIn, denom, given).Ok?
    ensures var p := PlanAt(Sizes(nIn), price, bothSides, aIn, bIn, denom, given).value;
      && p.pieces >= 0 && OutputCount(p) >= 0
      && (p.vsize == Vsize(nIn, OutputCount(p)) <==> Settles(price, p.pieces, aIn - denom, bIn - denom))
  {
    OutputsOfThirdPass(Sizes(nIn), price, bothSides, aIn, bIn, denom, given);
    var p := PlanAt(Sizes(nIn), price, bothSides, aIn, bIn, denom, given).value;
    SizeEqual(nIn, OutputCount(p), Priced(price, p.pieces, aIn - denom, bIn - denom, 2));
    SettlesExactly(price, p.pieces, aIn - denom, bIn - denom);
  }

  lemma SizeEqual(nIn: nat, m: nat, n: nat)
    requires m <= n
    ensures Vsize(nIn, n) == Vsize(nIn, m) <==> m == n
  {
    if m < n {
      VsizeStrict(nIn, m, n);
    }
  }

  lemma VsizeStrict(nIn: nat, m: nat, n: nat)
    requires m < n
    ensures Vsize(nIn, m) < Vsize(nIn, n)
  {
  }

  /** Two passes do not settle it, and nor does any number of them: here odd passes price two outputs
      and even ones four, for ever. */
  lemma {:induction false} NeverSettles(k: nat)
    ensures Priced(Prices(2, 1.0), 1, 680, 680, 2 * k) == 4
    ensures Priced(Prices(2, 1.0), 1, 680, 680, 2 * k + 1) == 2
  {
    assert Vsize(2, 4) == 298 && Vsize(2, 2) == 212;
    assert Prices(2, 1.0)(4) == 298 && Prices(2, 1.0)(2) == 212;
    if k > 0 {
      NeverSettles(k - 1);
    }
  }

  /** Such a round: one coin a side, 680 over the denomination. The plan records the size of a
      transaction with two changes, and has none. */
  lemma Oscillates(a: Coin, b: Coin)
    requires a.amount == 10680 && b.amount == 10680
    ensures !Settles(Prices(2, 1.0), 1, 680, 680)
    ensures var p := PlanOf([a], [b], 10000, 1.0, 1);
      && p.Ok? && p.value.vsize == Vsize(2, 4) && OutputCount(p.value) == 2 && Vsize(2, 4) > Vsize(2, 2)
      && p.value.aChange == 0 && p.value.bChange == 0
  {
    TotalOne(a);
    TotalOne(b);
    NeverSettles(0);
    NeverSettles(1);
    PricesGrow(2, 1.0);
    SettlesExactly(Prices(2, 1.0), 1, 680, 680);
  }

  // ----- `dust_to_fee` -----

  /** What the wallet says of a side without change: how much of its fee was change too small to keep. */
  function DustToFee(fee: int, change: int, vsize: int, rate: real, initiator: bool): int {
    if change != 0 then 0
    else
      var planned := if initiator then AShare(FeeFor(vsize, rate)) else BShare(FeeFor(vsize, rate));
      if fee - planned > 0 then fee - planned else 0
  }

  /** The recomputation is exact: taking it off each side's fee leaves that side's share of the price,
      and it is always below the dust limit. */
  lemma {:induction false} DustRecovered(aInputs: seq<Coin>, bInputs: seq<Coin>, denom: int, rate: real, pieces: int)
    requires PlanOf(aInputs, bInputs, denom, rate, pieces).Ok?
    ensures var p := PlanOf(aInputs, bInputs, denom, rate, pieces).value;
      var a, b := DustToFee(p.aFee, p.aChange, p.vsize, rate, true), DustToFee(p.bFee, p.bChange, p.vsize, rate, false);
      && 0 <= a < 546 && 0 <= b < 546
      && p.aFee - a == AShare(FeeFor(p.vsize, rate)) && p.bFee - b == BShare(FeeFor(p.vsize, rate))
      && (p.fee - a - b) == FeeFor(p.vsize, rate)
  {
    var nIn := |aInputs| + |bInputs|;
    PricesGrow(nIn, rate);
    var q, share, n := SettledPlan(Sizes(nIn), Prices(nIn, rate), aInputs != [] && bInputs != [],
                                   Total(aInputs), Total(bInputs), denom, pieces);
    SettledDust(denom, q, share, Total(aInputs), Total(bInputs), Vsize(nIn, n), rate);
  }

  lemma SettledPlan(size: nat -> int, price: nat -> int, bothSides: bool, aIn: int, bIn: int, denom: int, given: int)
    returns (q: int, share: int, n: nat)
    requires Grows(price) && PlanAt(size, price, bothSides, aIn, bIn, denom, given).Ok?
    ensures PlanAt(size, price, bothSides, aIn, bIn, denom, given).value
         == Settled(denom, q, share, aIn, bIn, size(n), price(n))
    ensures ALeft(aIn - denom, price(n)) >= 0 && BLeft(bIn - denom, price(n)) >= 0
  {
    q := if given == 0 then 1 else given;
    share := denom / q;
    n := Priced(price, q, aIn - denom, bIn - denom, 2);
    DearestShape(price, q, aIn - denom, bIn - denom, 2);
  }

  lemma SettledDust(denom: int, pieces: int, share: int, aIn: int, bIn: int, vsize: int, rate: real)
    requires ALeft(aIn - denom, FeeFor(vsize, rate)) >= 0 && BLeft(bIn - denom, FeeFor(vsize, rate)) >= 0
    ensures var p := Settled(denom, pieces, share, aIn, bIn, vsize, FeeFor(vsize, rate));
      var a, b := DustToFee(p.aFee, p.aChange, p.vsize, rate, true), DustToFee(p.bFee, p.bChange, p.vsize, rate, false);
      && 0 <= a < 546 && 0 <= b < 546
      && p.aFee - a == AShare(FeeFor(p.vsize, rate)) && p.bFee - b == BShare(FeeFor(p.vsize, rate))
      && (p.fee - a - b) == FeeFor(p.vsize, rate)
  {
  }

  // ----- `outputs_for` -----

  datatype OutputError = WrongScriptCount | ChangeWithoutScript

  function Pay(value: int, scripts: seq<seq<byte>>): (r: seq<Output>)
    ensures |r| == |scripts|
  {
    seq(|scripts|, i requires 0 <= i < |scripts| => Output(value, scripts[i]))
  }

  function Change(value: int, script: Option<seq<byte>>): seq<Output> {
    if value == 0 || script.None? then [] else [Output(value, script.value)]
  }

  /** The outputs as the code appends them, A's pieces first. */
  function Listed(p: Amounts, aMix: seq<seq<byte>>, bMix: seq<seq<byte>>,
                  aChange: Option<seq<byte>>, bChange: Option<seq<byte>>): seq<Output>
  {
    Pay(p.share, aMix) + Pay(p.share, bMix) + Change(p.aChange, aChange) + Change(p.bChange, bChange)
  }

  function OutputsFor(p: Amounts, aMix: seq<seq<byte>>, bMix: seq<seq<byte>>,
                      aChange: Option<seq<byte>>, bChange: Option<seq<byte>>): Result<seq<Output>, OutputError>
  {
    match OutputRefusal(p, |aMix|, |bMix|, aChange, bChange)
    case Some(why) => Err(why)
    case None => Ok(Sort(OutputLeq, Listed(p, aMix, bMix, aChange, bChange)))
  }

  function OutputRefusal(p: Amounts, nA: nat, nB: nat, aChange: Option<seq<byte>>, bChange: Option<seq<byte>>)
    : Option<OutputError>
  {
    if nA != p.pieces || nB != p.pieces then Some(WrongScriptCount)
    else if (p.aChange != 0 && aChange.None?) || (p.bChange != 0 && bChange.None?) then Some(ChangeWithoutScript)
    else None
  }

  /** The same amounts with the two sides' changes exchanged. */
  function Swap(p: Amounts): Amounts {
    p.(aChange := p.bChange, bChange := p.aChange)
  }

  /** The transaction does not show which side is which: exchanging the two sides, scripts and changes,
      gives the same list of outputs. */
  lemma {:induction false} SidesIndistinguishable(p: Amounts, aMix: seq<seq<byte>>, bMix: seq<seq<byte>>,
                               aChange: Option<seq<byte>>, bChange: Option<seq<byte>>)
    ensures OutputsFor(p, aMix, bMix, aChange, bChange) == OutputsFor(Swap(p), bMix, aMix, bChange, aChange)
  {
    var q := Swap(p);
    RefusalSwapped(p, |aMix|, |bMix|, aChange, bChange);
    SortedSwapped(p, aMix, bMix, aChange, bChange);
    OutputsMatch(p, aMix, bMix, aChange, bChange, q, bMix, aMix, bChange, aChange);
  }

  lemma RefusalSwapped(p: Amounts, nA: nat, nB: nat, aChange: Option<seq<byte>>, bChange: Option<seq<byte>>)
    ensures OutputRefusal(p, nA, nB, aChange, bChange) == OutputRefusal(Swap(p), nB, nA, bChange, aChange)
  {
  }

  lemma OutputsMatch(p: Amounts, aMix: seq<seq<byte>>, bMix: seq<seq<byte>>, aChange: Option<seq<byte>>, bChange: Option<seq<byte>>,
                     q: Amounts, aMix': seq<seq<byte>>, bMix': seq<seq<byte>>, aChange': Option<seq<byte>>, bChange': Option<seq<byte>>)
    requires OutputRefusal(p, |aMix|, |bMix|, aChange, bChange) == OutputRefusal(q, |aMix'|, |bMix'|, aChange', bChange')
    requires Sort(OutputLeq, Listed(p, aMix, bMix, aChange, bChange)) == Sort(OutputLeq, Listed(q, aMix', bMix', aChange', bChange'))
    ensures OutputsFor(p, aMix, bMix, aChange, bChange) == OutputsFor(q, aMix', bMix', aChange', bChange')
  {
  }

  lemma SortedSwapped(p: Amounts, aMix: seq<seq<byte>>, bMix: seq<seq<byte>>,
                      aChange: Option<seq<byte>>, bChange: Option<seq<byte>>)
    ensures Sort(OutputLeq, Listed(p, aMix, bMix, aChange, bChange))
         == Sort(OutputLeq, Listed(Swap(p), bMix, aMix, bChange, aChange))
  {
    ListedSwapped(p, aMix, bMix, aChange, bChange);
    SortedOutputs(Listed(p, aMix, bMix, aChange, bChange), Listed(Swap(p), bMix, aMix, bChange, aChange));
  }

  lemma ListedSwapped(p: Amounts, aMix: seq<seq<byte>>, bMix: seq<seq<byte>>,
                      aChange: Option<seq<byte>>, bChange: Option<seq<byte>>)
    ensures multiset(Listed(p, aMix, bMix, aChange, bChange)) == multiset(Listed(Swap(p), bMix, aMix, bChange, aChange))
  {
    SwappedMultiset(Pay(p.share, aMix), Pay(p.share, bMix), Change(p.aChange, aChange), Change(p.bChange, bChange));
  }

  lemma SwappedMultiset<T>(a: seq<T>, b: seq<T>, c: seq<T>, d: seq<T>)
    ensures multiset(a + b + c + d) == multiset(b + a + d + c)
  {
  }

  lemma SortedOutputs(s: seq<Output>, t: seq<Output>)
    requires multiset(s) == multiset(t)
    ensures Sort(OutputLeq, s) == Sort(OutputLeq, t)
  {
    OutputOrder();
    SortPermuted(OutputLeq, s, t);
  }

  /** Nor which piece is whose: dealing the same mixed scripts to the sides in any other way gives the
      same list of outputs. */
  lemma {:induction false} PiecesIndistinguishable(p: Amounts, aMix: seq<seq<byte>>, bMix: seq<seq<byte>>,
                                aMix': seq<seq<byte>>, bMix': seq<seq<byte>>,
                                aChange: Option<seq<byte>>, bChange: Option<seq<byte>>)
    requires multiset(aMix + bMix) == multiset(aMix' + bMix') && |aMix| == |aMix'|
    ensures OutputsFor(p, aMix, bMix, aChange, bChange) == OutputsFor(p, aMix', bMix', aChange, bChange)
  {
    SameLength(aMix + bMix, aMix' + bMix');
    SortedDealt(p, aMix, bMix, aMix', bMix', aChange, bChange);
    OutputsMatch(p, aMix, bMix, aChange, bChange, p, aMix', bMix', aChange, bChange);
  }

  lemma SortedDealt(p: Amounts, aMix: seq<seq<byte>>, bMix: seq<seq<byte>>, aMix': seq<seq<byte>>, bMix': seq<seq<byte>>,
                    aChange: Option<seq<byte>>, bChange: Option<seq<byte>>)
    requires multiset(aMix + bMix) == multiset(aMix' + bMix')
    ensures Sort(OutputLeq, Listed(p, aMix, bMix, aChange, bChange)) == Sort(OutputLeq, Listed(p, aMix', bMix', aChange, bChange))
  {
    ListedDealt(p, aMix, bMix, aMix', bMix', aChange, bChange);
    SortedOutputs(Listed(p, aMix, bMix, aChange, bChange), Listed(p, aMix', bMix', aChange, bChange));
  }

  lemma ListedDealt(p: Amounts, aMix: seq<seq<byte>>, bMix: seq<seq<byte>>,
                    aMix': seq<seq<byte>>, bMix': seq<seq<byte>>,
                    aChange: Option<seq<byte>>, bChange: Option<seq<byte>>)
    requires multiset(aMix + bMix) == multiset(aMix' + bMix')
    ensures multiset(Listed(p, aMix, bMix, aChange, bChange)) == multiset(Listed(p, aMix', bMix', aChange, bChange))
  {
    var a, b, a', b' := Pay(p.share, aMix), Pay(p.share, bMix), Pay(p.share, aMix'), Pay(p.share, bMix');
    assert a + b == Pay(p.share, aMix + bMix) && a' + b' == Pay(p.share, aMix' + bMix');
    PayPermuted(p.share, aMix + bMix, aMix' + bMix');
    AppendedMultiset(a + b, a' + b', Change(p.aChange, aChange), Change(p.bChange, bChange));
  }

  lemma AppendedMultiset<T>(s: seq<T>, t: seq<T>, c: seq<T>, d: seq<T>)
    requires multiset(s) == multiset(t)
    ensures multiset(s + c + d) == multiset(t + c + d)
  {
  }

  lemma {:induction false} PayPermuted(value: int, s: seq<seq<byte>>, t: seq<seq<byte>>)
    requires multiset(s) == multiset(t)
    ensures multiset(Pay(value, s)) == multiset(Pay(value, t))
  {
    var f := (script: seq<byte>) => Some(Output(value, script));
    PayCollects(f, value, s);
    PayCollects(f, value, t);
    CollectPermuted(f, s, t);
  }

  lemma PayCollects(f: seq<byte> -> Option<Output>, value: int, s: seq<seq<byte>>)
    requires forall x :: f(x) == Some(Output(value, x))
    ensures Collect(f, s) == Some(Pay(value, s))
  {
    CollectValues(f, s);
    var r := Collect(f, s).value;
    assert forall i :: 0 <= i < |s| ==> r[i] == Pay(value, s)[i];
    assert r == Pay(value, s);
  }

  function Value(outs: seq<Output>): int {
    if outs == [] then 0 else Value(outs[..|outs| - 1]) + outs[|outs| - 1].value
  }

  lemma {:induction false} ValueConcat(s: seq<Output>, t: seq<Output>)
    ensures Value(s + t) == Value(s) + Value(t)
  {
    if t == [] {
      assert s + t == s;
    } else {
      ValueConcat(s, t[..|t| - 1]);
      assert (s + t)[..|s + t| - 1] == s + t[..|t| - 1];
    }
  }

  lemma {:induction false} ValuePermuted(s: seq<Output>, t: seq<Output>)
    requires multiset(s) == multiset(t)
    ensures Value(s) == Value(t)
    decreases |s|
  {
    SameLength(s, t);
    if s != [] {
      var n := |s| - 1;
      var i := FindIn(s, t, s[n]);
      Without(t, i);
      InitMultiset(s, n);
      ValuePermuted(s[..n], t[..i] + t[i + 1..]);
      ValueWithout(t, i);
    }
  }

  lemma {:induction false} ValueWithout(t: seq<Output>, i: nat)
    requires i < |t|
    ensures Value(t) == Value(t[..i] + t[i + 1..]) + t[i].value
  {
    assert t == t[..i] + [t[i]] + t[i + 1..];
    ValueThree(t[..i], t[i], t[i + 1..]);
  }

  lemma ValueThree(a: seq<Output>, x: Output, c: seq<Output>)
    ensures Value(a + [x] + c) == Value(a + c) + x.value
  {
    ValueConcat(a + [x], c);
    ValueConcat(a, [x]);
    ValueConcat(a, c);
    ValueOne(x);
  }

  lemma ValueOne(o: Output)
    ensures Value([o]) == o.value
  {
    assert [o][..0] == [];
  }

  lemma {:induction false} ValuePay(value: int, scripts: seq<seq<byte>>)
    ensures Value(Pay(value, scripts)) == |scripts| * value
  {
    if scripts != [] {
      var n := |scripts| - 1;
      ValuePay(value, scripts[..n]);
      assert Pay(value, scripts)[..n] == Pay(value, scripts[..n]);
    }
  }

  /** The transaction of a plan pays out exactly what comes in less the fee, in the planned number of
      outputs, each of them above the dust limit. */
  lemma {:induction false} OutputsConserve(aInputs: seq<Coin>, bInputs: seq<Coin>, denom: int, rate: real, pieces: int,
                        aMix: seq<seq<byte>>, bMix: seq<seq<byte>>, aChange: Option<seq<byte>>, bChange: Option<seq<byte>>)
    requires PlanOf(aInputs, bInputs, denom, rate, pieces).Ok?
    ensures var p := PlanOf(aInputs, bInputs, denom, rate, pieces).value;
      var r := OutputsFor(p, aMix, bMix, aChange, bChange);
      r.Ok? ==>
        && |r.value| == OutputCount(p)
        && Value(r.value) + p.fee == Total(aInputs) + Total(bInputs)
        && (forall i :: 0 <= i < |r.value| ==> r.value[i].value >= 546)
  {
    PlanConserves(aInputs, bInputs, denom, rate, pieces);
    var p := PlanOf(aInputs, bInputs, denom, rate, pieces).value;
    BalancedOutputs(p, Total(aInputs), Total(bInputs), denom, aMix, bMix, aChange, bChange);
  }

  lemma {:induction false} BalancedOutputs(p: Amounts, aIn: int, bIn: int, denom: int, aMix: seq<seq<byte>>, bMix: seq<seq<byte>>,
                        aChange: Option<seq<byte>>, bChange: Option<seq<byte>>)
    requires Balanced(p, aIn, bIn, denom)
    ensures var r := OutputsFor(p, aMix, bMix, aChange, bChange);
      r.Ok? ==>
        && |r.value| == OutputCount(p)
        && Value(r.value) + p.fee == aIn + bIn
        && (forall i :: 0 <= i < |r.value| ==> r.value[i].value >= 546)
  {
    var r := OutputsFor(p, aMix, bMix, aChange, bChange);
    if r.Ok? {
      var all := Listed(p, aMix, bMix, aChange, bChange);
      SameLength(r.value, all);
      ValuePermuted(r.value, all);
      ListedValue(p, denom, aMix, bMix, aChange, bChange);
      ListedCount(p, aMix, bMix, aChange, bChange);
      AboveDust(all, r.value);
    }
  }

  lemma ListedCount(p: Amounts, aMix: seq<seq<byte>>, bMix: seq<seq<byte>>,
                    aChange: Option<seq<byte>>, bChange: Option<seq<byte>>)
    requires |aMix| == p.pieces == |bMix| && p.share >= DUST_SATS
    requires p.aChange == 0 || (aChange.Some? && p.aChange >= DUST_SATS)
    requires p.bChange == 0 || (bChange.Some? && p.bChange >= DUST_SATS)
    ensures |Listed(p, aMix, bMix, aChange, bChange)| == OutputCount(p)
    ensures forall o :: o in Listed(p, aMix, bMix, aChange, bChange) ==> o.value >= DUST_SATS
  {
  }

  lemma ListedValue(p: Amounts, denom: int, aMix: seq<seq<byte>>, bMix: seq<seq<byte>>,
                    aChange: Option<seq<byte>>, bChange: Option<seq<byte>>)
    requires |aMix| == p.pieces == |bMix| && denom == p.pieces * p.share
    requires (p.aChange == 0 || aChange.Some?) && (p.bChange == 0 || bChange.Some?)
    ensures Value(Listed(p, aMix, bMix, aChange, bChange)) == denom + denom + p.aChange + p.bChange
  {
    ValueParts(Pay(p.share, aMix), Pay(p.share, bMix), Change(p.aChange, aChange), Change(p.bChange, bChange));
    ValuePay(p.share, aMix);
    ValuePay(p.share, bMix);
    ValueChange(p.aChange, aChange);
    ValueChange(p.bChange, bChange);
  }

  lemma AboveDust(s: seq<Output>, t: seq<Output>)
    requires multiset(s) == multiset(t) && forall o :: o in s ==> o.value >= DUST_SATS
    ensures forall i :: 0 <= i < |t| ==> t[i].value >= DUST_SATS
  {
    forall i | 0 <= i < |t| ensures t[i].value >= DUST_SATS {
      var j := FindIn(t, s, t[i]);
    }
  }

  lemma ValueChange(value: int, script: Option<seq<byte>>)
    requires value == 0 || script.Some?
    ensures Value(Change(value, script)) == value
  {
    if value != 0 {
      ValueOne(Output(value, script.value));
    }
  }

  lemma ValueParts(a: seq<Output>, b: seq<Output>, c: seq<Output>, d: seq<Output>)
    ensures Value(a + b + c + d) == Value(a) + Value(b) + Value(c) + Value(d)
  {
    ValueConcat(a, b);
    ValueConcat(a + b, c);
    ValueConcat(a + b + c, d);
  }
}
