/** Taker and maker fees: how accumulating a fill's basis compares with averaging its price or rounding per level. */
module Fees {
  import opened Numbers
  import opened PriceGrid

  /** A fee schedule: `rate` times the basis, rounded up to a cent or to the nearest of five decimals. */
  datatype Model = Model(rate: real, roundUpToCent: bool)

  /** Contracts taken at one price. */
  datatype Level = Level(contracts: real, price: real)

  function RoundUpToCent(x: real): real { Ceiling(x * 100.0) as real / 100.0 }

  function RoundToFiveDecimals(x: real): real { RoundHalfEven(x * 100_000.0) as real / 100_000.0 }

  /** An unrounded charge, rounded the venue's way. */
  function Charge(raw: real, roundUpToCent: bool): real {
    if roundUpToCent then RoundUpToCent(raw) else RoundToFiveDecimals(raw)
  }

  /** The fee on an accumulated basis, rounded once. */
  function FeeFromBasis(m: Model, basis: real): real {
    if basis <= 0.0 || m.rate == 0.0 then 0.0 else Charge(Times(m.rate, basis), m.roundUpToCent)
  }

  function BasisOf(contracts: real, price: real): real { contracts * price * (1.0 - price) }

  /** The fee as if the whole fill had gone at one price. */
  function FeeAtPrice(m: Model, price: real, contracts: real): real { FeeFromBasis(m, BasisOf(contracts, price)) }

  // ---- Fills over several levels -------------------------------------------------------------

  function Sum(xs: seq<real>): real {
    if xs == [] then 0.0 else Sum(xs[..|xs| - 1]) + xs[|xs| - 1]
  }

  function Bases(levels: seq<Level>): seq<real> {
    seq(|levels|, i requires 0 <= i < |levels| => BasisOf(levels[i].contracts, levels[i].price))
  }

  function Counts(levels: seq<Level>): seq<real> {
    seq(|levels|, i requires 0 <= i < |levels| => levels[i].contracts)
  }

  function Costs(levels: seq<Level>): seq<real> {
    seq(|levels|, i requires 0 <= i < |levels| => levels[i].contracts * levels[i].price)
  }

  function LevelFees(m: Model, levels: seq<Level>): seq<real> {
    seq(|levels|, i requires 0 <= i < |levels| => FeeAtPrice(m, levels[i].price, levels[i].contracts))
  }

  function Contracts(levels: seq<Level>): real { Sum(Counts(levels)) }

  function Vwap(levels: seq<Level>): real
    requires Contracts(levels) > 0.0
  {
    Sum(Costs(levels)) / Contracts(levels)
  }

  predicate Filled(levels: seq<Level>) {
    forall i | 0 <= i < |levels| :: levels[i].contracts >= 0.0 && 0.0 <= levels[i].price <= 1.0
  }

  lemma {:induction false} SumsCompare(xs: seq<real>, ys: seq<real>)
    requires |xs| == |ys| && forall i | 0 <= i < |xs| :: xs[i] <= ys[i]
    ensures Sum(xs) <= Sum(ys)
  {
    if xs != [] {
      SumsCompare(xs[..|xs| - 1], ys[..|ys| - 1]);
    }
  }

  lemma {:induction false} SumsAdd(xs: seq<real>, ys: seq<real>, both: seq<real>)
    requires |xs| == |ys| == |both| && forall i | 0 <= i < |xs| :: both[i] == xs[i] + ys[i]
    ensures Sum(both) == Sum(xs) + Sum(ys)
  {
    if xs != [] {
      SumsAdd(xs[..|xs| - 1], ys[..|ys| - 1], both[..|both| - 1]);
    }
  }

  ghost predicate AddsAt(f: real -> real, a: real, b: real) { f(a + b) == f(a) + f(b) }

  ghost predicate Linear(f: real -> real) { f(0.0) == 0.0 && forall a, b :: AddsAt(f, a, b) }

  lemma {:induction false} SumsMap(f: real -> real, xs: seq<real>, mapped: seq<real>)
    requires Linear(f) && |xs| == |mapped| && forall i | 0 <= i < |xs| :: mapped[i] == f(xs[i])
    ensures Sum(mapped) == f(Sum(xs))
  {
    if xs != [] {
      var n := |xs| - 1;
      SumsMap(f, xs[..n], mapped[..n]);
      assert AddsAt(f, Sum(xs[..n]), xs[n]);
    }
  }

  lemma Distribute(k: real, a: real, b: real)
    ensures Times(k, a + b) == Times(k, a) + Times(k, b)
  {
  }

  lemma ScalingIsLinear(k: real, f: real -> real)
    requires forall x :: f(x) == Times(k, x)
    ensures Linear(f)
  {
    forall a, b
      ensures AddsAt(f, a, b)
    {
      Distribute(k, a, b);
    }
  }

  lemma SumsScale(k: real, xs: seq<real>, scaled: seq<real>)
    requires scaled == Scaled(k, xs)
    ensures Sum(scaled) == Times(k, Sum(xs))
  {
    var f := (x: real) => Times(k, x);
    ScalingIsLinear(k, f);
    SumsMap(f, xs, scaled);
  }

  function Scaled(k: real, xs: seq<real>): seq<real> {
    seq(|xs|, i requires 0 <= i < |xs| => Times(k, xs[i]))
  }

  // ---- Rounding keeps order ------------------------------------------------------------------

  lemma CeilingIsMonotone(x: real, y: real)
    requires x <= y
    ensures Ceiling(x) <= Ceiling(y)
  {
  }

  lemma ScaledOrder(rate: real, a: real, b: real)
    requires rate >= 0.0 && a <= b
    ensures Times(rate, a) <= Times(rate, b)
  {
  }

  lemma ChargeIsMonotone(raw: real, more: real, roundUpToCent: bool)
    requires 0.0 <= raw <= more
    ensures 0.0 <= Charge(raw, roundUpToCent) <= Charge(more, roundUpToCent)
  {
    CeilingIsMonotone(0.0, raw * 100.0);
    CeilingIsMonotone(raw * 100.0, more * 100.0);
    RoundIsMonotone(0.0, raw * 100_000.0);
    RoundIsMonotone(raw * 100_000.0, more * 100_000.0);
    RoundOfInteger(0);
  }

  lemma NoFee(m: Model, basis: real)
    requires basis <= 0.0 || m.rate == 0.0
    ensures FeeFromBasis(m, basis) == 0.0
  {
  }

  lemma FeeIsCharge(m: Model, basis: real, raw: real)
    requires m.rate != 0.0 && basis > 0.0 && raw == Times(m.rate, basis)
    ensures FeeFromBasis(m, basis) == Charge(raw, m.roundUpToCent)
  {
  }

  lemma ChargesInOrder(fee: real, larger: real, raw: real, more: real, roundUpToCent: bool)
    requires 0.0 <= raw <= more && fee == Charge(raw, roundUpToCent) && larger == Charge(more, roundUpToCent)
    ensures 0.0 <= fee <= larger
  {
    ChargeIsMonotone(raw, more, roundUpToCent);
  }

  lemma NothingCharged(rate: real)
    ensures Times(rate, 0.0) == 0.0
  {
  }

  lemma PositiveFee(m: Model, basis: real)
    requires m.rate > 0.0 && basis > 0.0
    ensures FeeFromBasis(m, basis) >= 0.0
  {
    var raw := Times(m.rate, basis);
    FeeIsCharge(m, basis, raw);
    ScaledOrder(m.rate, 0.0, basis);
    NothingCharged(m.rate);
    ChargesInOrder(FeeFromBasis(m, basis), FeeFromBasis(m, basis), raw, raw, m.roundUpToCent);
  }

  lemma PositiveFees(m: Model, a: real, b: real)
    requires m.rate > 0.0 && 0.0 < a <= b
    ensures 0.0 <= FeeFromBasis(m, a) <= FeeFromBasis(m, b)
  {
    var raw, more := Times(m.rate, a), Times(m.rate, b);
    FeeIsCharge(m, a, raw);
    FeeIsCharge(m, b, more);
    ScaledOrder(m.rate, 0.0, a);
    NothingCharged(m.rate);
    ScaledOrder(m.rate, a, b);
    ChargesInOrder(FeeFromBasis(m, a), FeeFromBasis(m, b), raw, more, m.roundUpToCent);
  }

  /** A larger basis never costs less, and no fee is negative. */
  lemma FeeIsMonotone(m: Model, a: real, b: real)
    requires m.rate >= 0.0 && a <= b
    ensures 0.0 <= FeeFromBasis(m, a) <= FeeFromBasis(m, b)
  {
    if m.rate > 0.0 && a > 0.0 {
      PositiveFees(m, a, b);
    } else if m.rate > 0.0 && b > 0.0 {
      NoFee(m, a);
      PositiveFee(m, b);
    } else {
      NoFee(m, a);
      NoFee(m, b);
    }
  }

  predicate WholeParts(x: real, parts: real) { (x * parts).Floor as real == x * parts }

  lemma ChargeIsRounded(raw: real)
    ensures var cents := Charge(raw, true); WholeParts(cents, 100.0) && raw <= cents < raw + 0.01
    ensures var exact := Charge(raw, false);
            WholeParts(exact, 100_000.0) && raw - 0.000005 <= exact <= raw + 0.000005
  {
    CeilingIs(raw * 100.0);
    RoundIsNear(raw * 100_000.0);
  }

  /**
   What a fill is charged: the rate times its basis, rounded up to whole cents or to the nearest of five decimals,
   the cases without a fee included.
   */
  lemma FeeIsRoundedCharge(m: Model, basis: real)
    requires basis >= 0.0
    ensures var fee, raw := FeeFromBasis(m, basis), Times(m.rate, basis);
            if m.roundUpToCent then WholeParts(fee, 100.0) && raw <= fee < raw + 0.01
            else WholeParts(fee, 100_000.0) && raw - 0.000005 <= fee <= raw + 0.000005
  {
    var raw := Times(m.rate, basis);
    if basis <= 0.0 || m.rate == 0.0 {
      NoFee(m, basis);
      ZeroProductOf(m.rate, basis);
    } else {
      FeeIsCharge(m, basis, raw);
      ChargeIsRounded(raw);
    }
  }

  // ---- The average price overstates ----------------------------------------------------------

  /** The straight line through the fee curve at `average`: `a` per contract and `b` per dollar of premium. */
  lemma CurveLiesBelowTangent(contracts: real, price: real, average: real, a: real, b: real)
    requires contracts >= 0.0 && a == Times(average, average) && b == 1.0 - 2.0 * average
    ensures BasisOf(contracts, price) <= Times(a, contracts) + Times(b, contracts * price)
  {
    var d := price - average;
    SquareIsNonNegative(d);
    ScaledOrder(contracts, 0.0, d * d);
    assert contracts * (d * d) == a * contracts + b * (contracts * price) - BasisOf(contracts, price) by {
      assert d * d == price * price - 2.0 * (average * price) + a;
      assert contracts * (d * d)
             == contracts * (price * price) - 2.0 * (contracts * (average * price)) + contracts * a;
      assert BasisOf(contracts, price) == contracts * price - contracts * (price * price);
      assert b * (contracts * price) == contracts * price - 2.0 * (contracts * (average * price));
    }
  }

  lemma SquareIsNonNegative(x: real)
    ensures x * x >= 0.0
  {
  }

  lemma BelowTangentAt(levels: seq<Level>, average: real, a: real, b: real, i: nat)
    requires Filled(levels) && a == Times(average, average) && b == 1.0 - 2.0 * average && i < |levels|
    ensures Bases(levels)[i] <= Scaled(a, Counts(levels))[i] + Scaled(b, Costs(levels))[i]
  {
    CurveLiesBelowTangent(levels[i].contracts, levels[i].price, average, a, b);
  }

  lemma BasisBelowTangent(levels: seq<Level>, average: real, a: real, b: real)
    requires Filled(levels) && a == Times(average, average) && b == 1.0 - 2.0 * average
    ensures Sum(Bases(levels)) <= Times(a, Sum(Counts(levels))) + Times(b, Sum(Costs(levels)))
  {
    var perContract := Scaled(a, Counts(levels));
    var perDollar := Scaled(b, Costs(levels));
    forall i: nat | i < |levels|
      ensures Bases(levels)[i] <= perContract[i] + perDollar[i]
    {
      BelowTangentAt(levels, average, a, b, i);
    }
    SumsBelow(Bases(levels), perContract, perDollar);
    SumsScale(a, Counts(levels), perContract);
    SumsScale(b, Costs(levels), perDollar);
  }

  lemma SumsBelow(bases: seq<real>, xs: seq<real>, ys: seq<real>)
    requires |bases| == |xs| && |xs| == |ys| && forall i | 0 <= i < |bases| :: bases[i] <= xs[i] + ys[i]
    ensures Sum(bases) <= Sum(xs) + Sum(ys)
  {
    var both := seq(|xs|, i requires 0 <= i < |xs| => xs[i] + ys[i]);
    SumsCompare(bases, both);
    SumsAdd(xs, ys, both);
  }

  /** The line meets the curve at the average price. */
  lemma TangentAtAverage(contracts: real, premium: real, average: real, a: real, b: real)
    requires Times(contracts, average) == premium && a == Times(average, average) && b == 1.0 - 2.0 * average
    ensures Times(a, contracts) + Times(b, premium) == BasisOf(contracts, average)
  {
    assert a * contracts == premium * average;
    assert b * premium == premium - 2.0 * (premium * average);
    assert BasisOf(contracts, average) == premium - premium * average;
  }

  lemma RatioTimes(premium: real, contracts: real, ratio: real)
    requires contracts > 0.0 && ratio == premium / contracts
    ensures Times(contracts, ratio) == premium
  {
  }

  /** The basis at the volume-weighted average price is at least the accumulated one. */
  lemma AverageBasisIsLarger(levels: seq<Level>)
    requires Filled(levels) && Contracts(levels) > 0.0
    ensures Sum(Bases(levels)) <= BasisOf(Contracts(levels), Vwap(levels))
  {
    var average := Vwap(levels);
    var a, b := Times(average, average), 1.0 - 2.0 * average;
    RatioTimes(Sum(Costs(levels)), Contracts(levels), average);
    BasisBelowTangent(levels, average, a, b);
    TangentAtAverage(Contracts(levels), Sum(Costs(levels)), average, a, b);
  }

  /**
   However a fill splits over price levels, it is charged no more than the same contracts at their
   volume-weighted average price.
   */
  lemma AveragePriceOverstates(m: Model, levels: seq<Level>)
    requires m.rate >= 0.0 && Filled(levels) && Contracts(levels) > 0.0
    ensures FeeFromBasis(m, Sum(Bases(levels))) <= FeeAtPrice(m, Vwap(levels), Contracts(levels))
  {
    AverageBasisIsLarger(levels);
    FeeIsMonotone(m, Sum(Bases(levels)), BasisOf(Contracts(levels), Vwap(levels)));
  }

  lemma SumOfTwo(x: real, y: real)
    ensures Sum([x, y]) == x + y
  {
    assert [x, y][..1] == [x];
    assert Sum([x]) == x by {
      assert [x][..0] == [];
    }
  }

  lemma ExampleSums(levels: seq<Level>)
    requires levels == [Level(100.0, 0.1), Level(100.0, 0.9)]
    ensures Contracts(levels) == 200.0 && Sum(Costs(levels)) == 100.0 && Sum(Bases(levels)) == 18.0
  {
    SumOfTwo(100.0, 100.0);
    SumOfTwo(10.0, 90.0);
    SumOfTwo(9.0, 9.0);
    assert Counts(levels) == [100.0, 100.0] && Costs(levels) == [10.0, 90.0] && Bases(levels) == [9.0, 9.0];
  }

  lemma ExampleFees()
    ensures FeeFromBasis(Model(0.07, true), 18.0) == 1.26 && FeeAtPrice(Model(0.07, true), 0.5, 200.0) == 3.5
  {
  }

  /** By a lot: a hundred contracts at 10 cents and a hundred at 90 cost $1.26, but $3.50 at their average. */
  lemma AveragePriceExample()
    ensures var m := Model(0.07, true);
            var levels := [Level(100.0, 0.1), Level(100.0, 0.9)];
            && Contracts(levels) > 0.0
            && FeeFromBasis(m, Sum(Bases(levels))) == 1.26 && FeeAtPrice(m, Vwap(levels), Contracts(levels)) == 3.5
  {
    var levels := [Level(100.0, 0.1), Level(100.0, 0.9)];
    ExampleSums(levels);
    ExampleFees();
    assert Vwap(levels) == 0.5;
  }

  // ---- Rounding once -------------------------------------------------------------------------

  /** The cents charged when every part is rounded up on its own. */
  function CentsPerPart(raws: seq<real>): int {
    if raws == [] then 0 else CentsPerPart(raws[..|raws| - 1]) + Ceiling(raws[|raws| - 1] * 100.0)
  }

  lemma {:induction false} CentsPerPartCover(raws: seq<real>)
    ensures Sum(raws) * 100.0 <= CentsPerPart(raws) as real <= Sum(raws) * 100.0 + |raws| as real
    ensures raws != [] ==> (CentsPerPart(raws) as real) < Sum(raws) * 100.0 + |raws| as real
  {
    if raws != [] {
      CentsPerPartCover(raws[..|raws| - 1]);
      CeilingIs(raws[|raws| - 1] * 100.0);
    }
  }

  lemma CentsOnce(raws: seq<real>)
    requires raws != []
    ensures Ceiling(Sum(raws) * 100.0) <= CentsPerPart(raws) < Ceiling(Sum(raws) * 100.0) + |raws|
  {
    CentsPerPartCover(raws);
    CeilingIs(Sum(raws) * 100.0);
    CeilingIsMonotone(Sum(raws) * 100.0, CentsPerPart(raws) as real);
  }

  /** A fee in cents, the zero cases included: they are what rounding nought up would give. */
  lemma CentFee(m: Model, basis: real, raw: real)
    requires m.roundUpToCent && basis >= 0.0 && raw == Times(m.rate, basis)
    ensures FeeFromBasis(m, basis) == Ceiling(raw * 100.0) as real / 100.0
  {
    if basis <= 0.0 || m.rate == 0.0 {
      ZeroProductOf(m.rate, basis);
      NoFee(m, basis);
      CeilingIs(0.0);
    } else {
      FeeIsCharge(m, basis, raw);
    }
  }

  lemma ZeroProductOf(a: real, b: real)
    requires a == 0.0 || b == 0.0
    ensures Times(a, b) == 0.0
  {
  }

  lemma BasisIsNonNegative(contracts: real, price: real)
    requires contracts >= 0.0 && 0.0 <= price <= 1.0
    ensures BasisOf(contracts, price) >= 0.0
  {
    ScaledOrder(contracts, 0.0, price);
    ScaledOrder(contracts * price, 0.0, 1.0 - price);
  }

  lemma {:induction false} FeesInCents(raws: seq<real>, fees: seq<real>)
    requires |raws| == |fees| && forall i | 0 <= i < |raws| :: fees[i] == Ceiling(raws[i] * 100.0) as real / 100.0
    ensures Sum(fees) == CentsPerPart(raws) as real / 100.0
  {
    if raws != [] {
      FeesInCents(raws[..|raws| - 1], fees[..|fees| - 1]);
    }
  }

  lemma LevelFeesInCents(m: Model, levels: seq<Level>, raws: seq<real>)
    requires m.roundUpToCent && Filled(levels) && raws == Scaled(m.rate, Bases(levels))
    ensures Sum(LevelFees(m, levels)) == CentsPerPart(raws) as real / 100.0
  {
    forall i | 0 <= i < |levels|
      ensures LevelFees(m, levels)[i] == Ceiling(raws[i] * 100.0) as real / 100.0
    {
      BasisIsNonNegative(levels[i].contracts, levels[i].price);
      CentFee(m, BasisOf(levels[i].contracts, levels[i].price), raws[i]);
    }
    FeesInCents(raws, LevelFees(m, levels));
  }

  lemma TotalBasisIsNonNegative(levels: seq<Level>)
    requires Filled(levels)
    ensures Sum(Bases(levels)) >= 0.0
  {
    var zeros := Scaled(0.0, Bases(levels));
    forall i | 0 <= i < |levels|
      ensures zeros[i] <= Bases(levels)[i]
    {
      BasisIsNonNegative(levels[i].contracts, levels[i].price);
    }
    SumsCompare(zeros, Bases(levels));
    SumsScale(0.0, Bases(levels), zeros);
  }

  /** Rounding up once costs no more than rounding up per level, and saves less than a cent a level. */
  lemma RoundingOnceIsCheaper(m: Model, levels: seq<Level>)
    requires m.roundUpToCent && Filled(levels) && levels != []
    ensures FeeFromBasis(m, Sum(Bases(levels))) <= Sum(LevelFees(m, levels))
    ensures Sum(LevelFees(m, levels)) < FeeFromBasis(m, Sum(Bases(levels))) + |levels| as real / 100.0
  {
    var raws := Scaled(m.rate, Bases(levels));
    TotalBasisIsNonNegative(levels);
    LevelFeesInCents(m, levels, raws);
    SumsScale(m.rate, Bases(levels), raws);
    CentsOnce(raws);
    CentFee(m, Sum(Bases(levels)), Sum(raws));
  }
}
