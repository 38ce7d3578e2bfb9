/** Snapping a wire price to a market's own price grid. */
module PriceGrid {
  import opened Numbers

  datatype Range = Range(start: real, end: real, step: real)

  const CENT: real := 0.01

  /** The nearest integer, halves going to the even one. */
  function RoundHalfEven(x: real): int {
    var below := x.Floor;
    var excess := x - below as real;
    if excess < 0.5 then below
    else if excess > 0.5 then below + 1
    else if below % 2 == 0 then below
    else below + 1
  }

  /** Round to a multiple of the step of the first range that holds the price, or to a cent if none does. */
  function Snap(price: real, ranges: seq<Range>): real {
    if ranges == [] then RoundHalfEven(price / CENT) as real * CENT
    else if ranges[0].step > 0.0 && ranges[0].start <= price <= ranges[0].end
    then RoundHalfEven(price / ranges[0].step) as real * ranges[0].step
    else Snap(price, ranges[1..])
  }

  // ---- Rounding ------------------------------------------------------------------------------

  lemma RoundIsNear(x: real)
    ensures -0.5 <= RoundHalfEven(x) as real - x <= 0.5
  {
  }

  lemma RoundOfInteger(n: int)
    ensures RoundHalfEven(n as real) == n
  {
  }

  lemma RoundIsMonotone(x: real, y: real)
    requires x <= y
    ensures RoundHalfEven(x) <= RoundHalfEven(y)
  {
    if x.Floor < y.Floor {
      RoundIsNear(x);
      RoundIsNear(y);
      assert RoundHalfEven(x) <= x.Floor + 1;
    }
  }

  // ---- One step ------------------------------------------------------------------------------

  function ToStep(price: real, step: real): real
    requires step > 0.0
  {
    RoundHalfEven(price / step) as real * step
  }

  lemma QuotientOrder(a: real, b: real, step: real)
    requires step > 0.0 && a <= b
    ensures a / step <= b / step
  {
    var d := b - a;
    assert b / step == a / step + d / step;
    assert d / step >= 0.0;
  }

  lemma ProductOrder(a: int, b: int, step: real)
    requires step > 0.0 && a <= b
    ensures a as real * step <= b as real * step
  {
  }

  lemma QuotientOfMultiple(k: int, step: real)
    requires step > 0.0
    ensures (k as real * step) / step == k as real
  {
  }

  lemma StepMonotone(p: real, q: real, step: real)
    requires step > 0.0 && p <= q
    ensures ToStep(p, step) <= ToStep(q, step)
  {
    QuotientOrder(p, q, step);
    RoundIsMonotone(p / step, q / step);
    ProductOrder(RoundHalfEven(p / step), RoundHalfEven(q / step), step);
  }

  lemma StepFixesMultiples(k: int, step: real)
    requires step > 0.0
    ensures ToStep(k as real * step, step) == k as real * step
  {
    QuotientOfMultiple(k, step);
    RoundOfInteger(k);
  }

  lemma RoundIsNearest(x: real, other: int)
    ensures Abs(RoundHalfEven(x) as real - x) <= Abs(other as real - x)
    ensures Abs(RoundHalfEven(x) as real - x) <= 0.5
  {
    var below := x.Floor;
    if other <= below {
      assert Abs(other as real - x) >= x - below as real;
    } else {
      assert Abs(other as real - x) >= (below + 1) as real - x;
    }
  }

  lemma NonNegativeProduct(a: real, step: real)
    requires a >= 0.0 && step > 0.0
    ensures a * step >= 0.0
  {
  }

  lemma PositiveProduct(a: real, step: real)
    requires a > 0.0 && step > 0.0
    ensures a * step > 0.0
  {
  }

  lemma ProductOfDifference(a: real, b: real, step: real)
    ensures (a - b) * step == a * step - b * step
  {
  }

  lemma ProductOfSum(a: real, b: real, step: real)
    ensures (a + b) * step == a * step + b * step
  {
  }

  /** Two distances scaled by the same positive step compare as they did. */
  lemma ScaledDistances(near: real, far: real, nearScaled: real, farScaled: real, step: real)
    requires step > 0.0 && Abs(near) <= Abs(far)
    requires nearScaled == near * step && farScaled == far * step
    ensures Abs(nearScaled) <= Abs(farScaled)
  {
    ProductOfDifference(far, near, step);
    ProductOfSum(far, near, step);
    if far >= 0.0 {
      NonNegativeProduct(far, step);
      NonNegativeProduct(far - near, step);
      NonNegativeProduct(far + near, step);
    } else {
      NonNegativeProduct(-far, step);
      NonNegativeProduct(-(far - near), step);
      NonNegativeProduct(-(far + near), step);
    }
  }

  // ---- Whole grids ---------------------------------------------------------------------------

  /** `k` steps up (or down) from zero. */
  function Steps(k: int, step: real): real
    decreases if k >= 0 then k else -k
  {
    if k == 0 then 0.0 else if k > 0 then Steps(k - 1, step) + step else Steps(k + 1, step) - step
  }

  lemma {:induction false} StepsIsProduct(k: int, step: real)
    ensures Steps(k, step) == k as real * step
    decreases if k >= 0 then k else -k
  {
    if k > 0 {
      StepsIsProduct(k - 1, step);
      ProductOfSum((k - 1) as real, 1.0, step);
      assert (k - 1) as real + 1.0 == k as real;
    } else if k < 0 {
      StepsIsProduct(k + 1, step);
      ProductOfDifference((k + 1) as real, 1.0, step);
      assert (k + 1) as real - 1.0 == k as real;
    }
  }

  ghost predicate Multiple(x: real, step: real) { exists k: int :: x == Steps(k, step) }

  lemma StepFixes(x: real, step: real)
    requires step > 0.0 && Multiple(x, step)
    ensures ToStep(x, step) == x
  {
    var k: int :| x == Steps(k, step);
    StepsIsProduct(k, step);
    StepFixesMultiples(k, step);
  }

  lemma StepIsMultiple(x: real, step: real)
    requires step > 0.0
    ensures Multiple(ToStep(x, step), step)
  {
    StepsIsProduct(RoundHalfEven(x / step), step);
    assert ToStep(x, step) == Steps(RoundHalfEven(x / step), step);
  }

  /** Distances between integers and a quotient are, scaled by the step, those between their products. */
  lemma NearerMultiple(chosen: int, other: int, x: real, step: real, onGrid: real, point: real, price: real)
    requires step > 0.0 && Abs(chosen as real - x) <= Abs(other as real - x)
    requires onGrid == chosen as real * step && point == other as real * step && price == x * step
    ensures Abs(onGrid - price) <= Abs(point - price)
  {
    ProductOfDifference(chosen as real, x, step);
    ProductOfDifference(other as real, x, step);
    ScaledDistances(chosen as real - x, other as real - x, onGrid - price, point - price, step);
  }

  lemma ScaledHalf(chosen: int, x: real, step: real, onGrid: real, price: real)
    requires step > 0.0 && Abs(chosen as real - x) <= 0.5
    requires onGrid == chosen as real * step && price == x * step
    ensures Abs(onGrid - price) <= step / 2.0
  {
    ProductOfDifference(chosen as real, x, step);
    ScaledDistances(chosen as real - x, 0.5, onGrid - price, step / 2.0, step);
  }

  lemma QuotientTimesStep(price: real, step: real)
    requires step > 0.0
    ensures (price / step) * step == price
  {
  }

  lemma NearestMultiple(x: real, k: int, step: real, onGrid: real, point: real, price: real)
    requires step > 0.0 && price == x * step && point == k as real * step && onGrid == RoundHalfEven(x) as real * step
    ensures Abs(onGrid - price) <= Abs(point - price) && Abs(onGrid - price) <= step / 2.0
  {
    RoundIsNearest(x, k);
    NearerMultiple(RoundHalfEven(x), k, x, step, onGrid, point, price);
    ScaledHalf(RoundHalfEven(x), x, step, onGrid, price);
  }

  /** No multiple of the step is closer to the price than the one chosen. */
  lemma StepIsNearest(price: real, step: real, point: real)
    requires step > 0.0 && Multiple(point, step)
    ensures Abs(ToStep(price, step) - price) <= Abs(point - price)
    ensures Abs(ToStep(price, step) - price) <= step / 2.0
  {
    var k: int :| point == Steps(k, step);
    StepsIsProduct(k, step);
    QuotientTimesStep(price, step);
    NearestMultiple(price / step, k, step, ToStep(price, step), point, price);
  }

  /** Ranges with positive steps, each bounded by multiples of its own step and starting where the last ended. */
  ghost predicate Grid(ranges: seq<Range>) {
    && (forall r | r in ranges ::
          r.step > 0.0 && r.start <= r.end && Multiple(r.start, r.step) && Multiple(r.end, r.step))
    && (forall i | 0 <= i < |ranges| - 1 :: ranges[i].end == ranges[i + 1].start)
  }

  lemma StepStaysWithin(price: real, r: Range)
    requires r.step > 0.0 && Multiple(r.start, r.step) && Multiple(r.end, r.step) && r.start <= price <= r.end
    ensures r.start <= ToStep(price, r.step) <= r.end
  {
    StepMonotone(r.start, price, r.step);
    StepMonotone(price, r.end, r.step);
    StepFixes(r.start, r.step);
    StepFixes(r.end, r.step);
  }

  /** The first range that holds a price. */
  predicate Holds(ranges: seq<Range>, i: nat, price: real) {
    && i < |ranges| && ranges[i].start <= price <= ranges[i].end
    && forall j | 0 <= j < i :: !(ranges[j].start <= price <= ranges[j].end)
  }

  lemma {:induction false} SnapUsesFirst(price: real, ranges: seq<Range>, i: nat)
    requires Holds(ranges, i, price) && forall r | r in ranges :: r.step > 0.0
    ensures Snap(price, ranges) == ToStep(price, ranges[i].step)
  {
    assert ranges[0] in ranges;
    if i > 0 {
      SnapUsesFirst(price, ranges[1..], i - 1);
    }
  }

  lemma {:induction false} SnapOutside(price: real, ranges: seq<Range>)
    requires forall r | r in ranges :: !(r.start <= price <= r.end)
    ensures Snap(price, ranges) == ToStep(price, CENT)
  {
    if ranges != [] {
      assert ranges[0] in ranges;
      SnapOutside(price, ranges[1..]);
    }
  }

  lemma FindRange(price: real, ranges: seq<Range>) returns (i: nat)
    ensures if i < |ranges| then Holds(ranges, i, price) else forall r | r in ranges :: !(r.start <= price <= r.end)
  {
    i := 0;
    while i < |ranges| && !(ranges[i].start <= price <= ranges[i].end)
      invariant i <= |ranges|
      invariant forall j | 0 <= j < i :: !(ranges[j].start <= price <= ranges[j].end)
    {
      i := i + 1;
    }
  }

  /** A price inside some range goes to the nearest multiple of the first such range's step, and stays in that range. */
  lemma SnapIsNearest(price: real, ranges: seq<Range>, i: nat, point: real)
    requires Grid(ranges) && Holds(ranges, i, price) && Multiple(point, ranges[i].step)
    ensures ranges[i].start <= Snap(price, ranges) <= ranges[i].end
    ensures Multiple(Snap(price, ranges), ranges[i].step)
    ensures Abs(Snap(price, ranges) - price) <= Abs(point - price)
    ensures Abs(Snap(price, ranges) - price) <= ranges[i].step / 2.0
  {
    assert ranges[i] in ranges;
    SnapUsesFirst(price, ranges, i);
    StepStaysWithin(price, ranges[i]);
    StepIsMultiple(price, ranges[i].step);
    StepIsNearest(price, ranges[i].step, point);
  }

  lemma SnapStays(price: real, ranges: seq<Range>, i: nat)
    requires Grid(ranges) && Holds(ranges, i, price)
    ensures ranges[i].start <= Snap(price, ranges) <= ranges[i].end
    ensures Multiple(Snap(price, ranges), ranges[i].step)
  {
    assert ranges[i] in ranges;
    SnapIsNearest(price, ranges, i, ranges[i].start);
  }

  lemma {:induction false} StartsAreOrdered(ranges: seq<Range>, i: nat, j: nat)
    requires Grid(ranges) && i <= j < |ranges|
    ensures ranges[i].start <= ranges[j].start && ranges[i].end <= ranges[j].end
    ensures i < j ==> ranges[i].end <= ranges[j].start
    decreases j - i
  {
    assert ranges[j] in ranges;
    if i < j {
      assert ranges[j - 1] in ranges;
      StartsAreOrdered(ranges, i, j - 1);
      assert ranges[j - 1].end == ranges[j].start;
    }
  }

  /** A grid point of one range that an earlier range also holds is their shared boundary, so on both grids. */
  lemma OnItsOwnGrid(ranges: seq<Range>, i: nat, j: nat, point: real)
    requires Grid(ranges) && j <= i < |ranges|
    requires ranges[i].start <= point <= ranges[i].end && ranges[j].start <= point <= ranges[j].end
    requires Multiple(point, ranges[i].step)
    ensures ToStep(point, ranges[j].step) == point
  {
    assert ranges[i] in ranges && ranges[j] in ranges;
    StartsAreOrdered(ranges, j, i);
    if j < i {
      assert point == ranges[j].end;
    }
    StepFixes(point, ranges[j].step);
  }

  /** How far a price is past the cent below it, in cents. */
  function PastCent(price: real): real { price / CENT - (price / CENT).Floor as real }

  /**
   Prices just outside the grid round away from it on the cent grid: its start is at most half a cent
   past a cent, and its end is on a cent or at least half a cent past one.
   */
  predicate EdgesRoundOutward(ranges: seq<Range>) {
    ranges != [] ==>
      && PastCent(ranges[0].start) <= 0.5
      && (PastCent(ranges[|ranges| - 1].end) == 0.0 || PastCent(ranges[|ranges| - 1].end) >= 0.5)
  }

  lemma BoundsHoldAll(ranges: seq<Range>, price: real)
    requires Grid(ranges) && ranges != []
    requires forall r | r in ranges :: !(r.start <= price <= r.end)
    ensures price < ranges[0].start || ranges[|ranges| - 1].end < price
  {
    var i := 0;
    if price >= ranges[0].start {
      while i < |ranges| - 1
        invariant 0 <= i < |ranges| && ranges[i].end < price
      {
        assert ranges[i + 1] in ranges;
        assert ranges[i].end == ranges[i + 1].start;
        i := i + 1;
      }
    }
  }

  lemma RoundsBelow(x: real, edge: real)
    requires x < edge && edge - edge.Floor as real <= 0.5
    ensures RoundHalfEven(x) as real <= edge
  {
    if x.Floor == edge.Floor {
      assert x - x.Floor as real < 0.5;
    } else {
      assert RoundHalfEven(x) <= x.Floor + 1 <= edge.Floor;
    }
  }

  lemma RoundsAbove(x: real, edge: real)
    requires edge < x && (edge - edge.Floor as real == 0.0 || edge - edge.Floor as real >= 0.5)
    ensures edge <= RoundHalfEven(x) as real
  {
    if x.Floor == edge.Floor && edge - edge.Floor as real > 0.0 {
      assert x - x.Floor as real > 0.5;
    } else {
      assert RoundHalfEven(x) >= x.Floor;
    }
  }

  /** Outside the grid a price stays on its side of it. */
  lemma OutsideStaysOutside(price: real, ranges: seq<Range>)
    requires Grid(ranges) && EdgesRoundOutward(ranges) && ranges != []
    requires forall r | r in ranges :: !(r.start <= price <= r.end)
    ensures price < ranges[0].start ==> Snap(price, ranges) <= ranges[0].start
    ensures ranges[|ranges| - 1].end < price ==> ranges[|ranges| - 1].end <= Snap(price, ranges)
  {
    SnapOutside(price, ranges);
    if price < ranges[0].start {
      RoundsBelow(price / CENT, ranges[0].start / CENT);
    }
    if ranges[|ranges| - 1].end < price {
      RoundsAbove(price / CENT, ranges[|ranges| - 1].end / CENT);
    }
  }

  /** A price in some range is within the grid's outer bounds. */
  lemma InsideBounds(ranges: seq<Range>, i: nat)
    requires Grid(ranges) && i < |ranges|
    ensures ranges[0].start <= ranges[i].start && ranges[i].end <= ranges[|ranges| - 1].end
  {
    StartsAreOrdered(ranges, 0, i);
    StartsAreOrdered(ranges, i, |ranges| - 1);
  }

  /** The cent points on either side of a price that is on none. */
  function CentBelow(price: real): real { (price / CENT).Floor as real * CENT }

  function CentAbove(price: real): real { ((price / CENT).Floor + 1) as real * CENT }

  /** A price that snapping leaves alone wherever a range holds it: it is a point of that range. */
  ghost predicate Rests(price: real, ranges: seq<Range>) {
    forall i: nat | Holds(ranges, i, price) :: Multiple(price, ranges[i].step)
  }

  /**
   The cent points that prices outside a grid reach inside it are points of the ranges that hold them. Only two
   can be reached: the one above the grid's start, if that is more than half a cent past the one below, and the
   one below its end, if that is less than half a cent past it.
   */
  ghost predicate EdgesRest(ranges: seq<Range>) {
    ranges != [] ==>
      && (PastCent(ranges[0].start) > 0.5 ==> Rests(CentAbove(ranges[0].start), ranges))
      && (0.0 < PastCent(ranges[|ranges| - 1].end) < 0.5 ==> Rests(CentBelow(ranges[|ranges| - 1].end), ranges))
  }

  lemma FloorIs(x: real, n: int)
    requires n as real <= x < n as real + 1.0
    ensures x.Floor == n
  {
  }

  lemma ReachedFromBelow(x: real, edge: real, n: int)
    requires x < edge <= n as real <= x + 0.5
    ensures edge == n as real || (edge - edge.Floor as real > 0.5 && n == edge.Floor + 1)
  {
    if edge < n as real {
      FloorIs(edge, n - 1);
    }
  }

  lemma ReachedFromAbove(x: real, edge: real, n: int)
    requires x - 0.5 <= n as real <= edge < x
    ensures edge == n as real || (0.0 < edge - edge.Floor as real < 0.5 && n == edge.Floor)
  {
    FloorIs(edge, n);
  }

  /** A price outside the grid that snaps into it reaches one of its two ends or one of those two cent points. */
  lemma ReachedCents(price: real, ranges: seq<Range>)
    requires Grid(ranges) && ranges != [] && forall r | r in ranges :: !(r.start <= price <= r.end)
    requires ranges[0].start <= Snap(price, ranges) <= ranges[|ranges| - 1].end
    ensures var start, end := ranges[0].start, ranges[|ranges| - 1].end;
            || Snap(price, ranges) == start || Snap(price, ranges) == end
            || (PastCent(start) > 0.5 && Snap(price, ranges) == CentAbove(start))
            || (0.0 < PastCent(end) < 0.5 && Snap(price, ranges) == CentBelow(end))
  {
    BoundsHoldAll(ranges, price);
    SnapOutside(price, ranges);
    RoundIsNear(price / CENT);
    if price < ranges[0].start {
      ReachedFromBelow(price / CENT, ranges[0].start / CENT, RoundHalfEven(price / CENT));
    } else {
      ReachedFromAbove(price / CENT, ranges[|ranges| - 1].end / CENT, RoundHalfEven(price / CENT));
    }
  }

  lemma EndsRest(ranges: seq<Range>, j: nat, point: real)
    requires Grid(ranges) && Holds(ranges, j, point)
    requires point == ranges[0].start || point == ranges[|ranges| - 1].end
    ensures ToStep(point, ranges[j].step) == point
  {
    var n := |ranges| - 1;
    assert ranges[0] in ranges && ranges[n] in ranges;
    if point == ranges[0].start {
      OnItsOwnGrid(ranges, 0, j, point);
    } else {
      OnItsOwnGrid(ranges, n, j, point);
    }
  }

  lemma OutsideIsIdempotent(price: real, ranges: seq<Range>)
    requires Grid(ranges) && EdgesRest(ranges) && forall r | r in ranges :: !(r.start <= price <= r.end)
    ensures Snap(Snap(price, ranges), ranges) == Snap(price, ranges)
  {
    SnapOutside(price, ranges);
    var snapped := Snap(price, ranges);
    StepIsMultiple(price, CENT);
    StepFixes(snapped, CENT);
    var j := FindRange(snapped, ranges);
    if j < |ranges| {
      InsideBounds(ranges, j);
      ReachedCents(price, ranges);
      assert ranges[j] in ranges;
      SnapUsesFirst(snapped, ranges, j);
      if snapped == ranges[0].start || snapped == ranges[|ranges| - 1].end {
        EndsRest(ranges, j, snapped);
      } else {
        StepFixes(snapped, ranges[j].step);
      }
    } else {
      SnapOutside(snapped, ranges);
    }
  }

  /** Snapping twice is snapping once: inside any grid, shared boundaries included, and outside one whose edges rest. */
  lemma SnapIsIdempotent(price: real, ranges: seq<Range>)
    requires Grid(ranges)
    requires (exists r | r in ranges :: r.start <= price <= r.end) || EdgesRest(ranges)
    ensures Snap(Snap(price, ranges), ranges) == Snap(price, ranges)
  {
    var i := FindRange(price, ranges);
    if i < |ranges| {
      var snapped := Snap(price, ranges);
      SnapStays(price, ranges, i);
      var j := FindRange(snapped, ranges);
      assert ranges[i] in ranges;
      assert j <= i;
      SnapUsesFirst(snapped, ranges, j);
      OnItsOwnGrid(ranges, i, j, snapped);
    } else {
      OutsideIsIdempotent(price, ranges);
    }
  }

  /** A price just below a start that is more than half a cent past a cent; it snaps to the next cent. */
  lemma JustBelowStart(ranges: seq<Range>) returns (p: real)
    requires Grid(ranges) && ranges != [] && PastCent(ranges[0].start) > 0.5
    ensures p < ranges[0].start < Snap(p, ranges) == CentAbove(ranges[0].start)
  {
    var start := ranges[0].start;
    p := start - (PastCent(start) - 0.5) / 2.0 * CENT;
    assert (p / CENT).Floor == (start / CENT).Floor && PastCent(p) > 0.5;
    forall r | r in ranges
      ensures p < r.start
    {
      var i :| 0 <= i < |ranges| && ranges[i] == r;
      StartsAreOrdered(ranges, 0, i);
    }
    SnapOutside(p, ranges);
  }

  /** A price just behind an end that is less than half a cent past a cent; it snaps back to that cent. */
  lemma JustBehindEnd(ranges: seq<Range>) returns (q: real)
    requires Grid(ranges) && ranges != [] && 0.0 < PastCent(ranges[|ranges| - 1].end) < 0.5
    ensures CentBelow(ranges[|ranges| - 1].end) == Snap(q, ranges) < ranges[|ranges| - 1].end < q
  {
    var n := |ranges| - 1;
    var end := ranges[n].end;
    q := end + (0.5 - PastCent(end)) / 2.0 * CENT;
    assert (q / CENT).Floor == (end / CENT).Floor && PastCent(q) < 0.5;
    forall r | r in ranges
      ensures r.end < q
    {
      var i :| 0 <= i < |ranges| && ranges[i] == r;
      StartsAreOrdered(ranges, i, n);
    }
    SnapOutside(q, ranges);
  }

  ghost predicate Idempotent(ranges: seq<Range>) {
    forall price :: Snap(Snap(price, ranges), ranges) == Snap(price, ranges)
  }

  lemma SnappedRests(price: real, ranges: seq<Range>)
    requires Grid(ranges) && Snap(price, ranges) == price
    ensures Rests(price, ranges)
  {
    forall i: nat | Holds(ranges, i, price)
      ensures Multiple(price, ranges[i].step)
    {
      assert ranges[i] in ranges;
      SnapUsesFirst(price, ranges, i);
      StepIsMultiple(price, ranges[i].step);
    }
  }

  /**
   Snapping twice is snapping once on the whole price axis exactly when the cent points that prices outside the
   grid reach inside it are points of the ranges that hold them.
   */
  lemma IdempotentExactlyWhen(ranges: seq<Range>)
    requires Grid(ranges)
    ensures Idempotent(ranges) <==> EdgesRest(ranges)
  {
    if EdgesRest(ranges) {
      forall price
        ensures Snap(Snap(price, ranges), ranges) == Snap(price, ranges)
      {
        SnapIsIdempotent(price, ranges);
      }
    }
    if Idempotent(ranges) && ranges != [] {
      if PastCent(ranges[0].start) > 0.5 {
        var p := JustBelowStart(ranges);
        SnappedRests(Snap(p, ranges), ranges);
      }
      if 0.0 < PastCent(ranges[|ranges| - 1].end) < 0.5 {
        var q := JustBehindEnd(ranges);
        SnappedRests(Snap(q, ranges), ranges);
      }
    }
  }

  /** Snapping never reverses two prices. */
  lemma SnapKeepsOrder(p: real, q: real, ranges: seq<Range>)
    requires Grid(ranges) && EdgesRoundOutward(ranges) && p <= q
    ensures Snap(p, ranges) <= Snap(q, ranges)
  {
    var i := FindRange(p, ranges);
    var j := FindRange(q, ranges);
    if i < |ranges| && j < |ranges| {
      BothInside(p, q, ranges, i, j);
    } else if i < |ranges| {
      SnapStays(p, ranges, i);
      InsideBounds(ranges, i);
      BoundsHoldAll(ranges, q);
      OutsideStaysOutside(q, ranges);
    } else if j < |ranges| {
      SnapStays(q, ranges, j);
      InsideBounds(ranges, j);
      BoundsHoldAll(ranges, p);
      OutsideStaysOutside(p, ranges);
    } else {
      SnapOutside(p, ranges);
      SnapOutside(q, ranges);
      StepMonotone(p, q, CENT);
    }
  }

  lemma BothInside(p: real, q: real, ranges: seq<Range>, i: nat, j: nat)
    requires Grid(ranges) && p <= q && Holds(ranges, i, p) && Holds(ranges, j, q)
    ensures Snap(p, ranges) <= Snap(q, ranges)
  {
    assert ranges[i] in ranges && ranges[j] in ranges;
    SnapStays(p, ranges, i);
    SnapStays(q, ranges, j);
    if i < j {
      StartsAreOrdered(ranges, i, j);
    } else if i == j {
      SnapUsesFirst(p, ranges, i);
      SnapUsesFirst(q, ranges, i);
      StepMonotone(p, q, ranges[i].step);
    } else {
      StartsAreOrdered(ranges, j, i);
    }
  }

  ghost predicate Monotone(ranges: seq<Range>) {
    forall p, q | p <= q :: Snap(p, ranges) <= Snap(q, ranges)
  }

  /** A price just below such a start snaps up past it, and the start stays where it is. */
  lemma StartReversed(ranges: seq<Range>)
    requires Grid(ranges) && ranges != [] && PastCent(ranges[0].start) > 0.5
    ensures !Monotone(ranges)
  {
    var start := ranges[0].start;
    var p := JustBelowStart(ranges);
    assert ranges[0] in ranges;
    SnapUsesFirst(start, ranges, 0);
    StepFixes(start, ranges[0].step);
    assert Snap(p, ranges) > start == Snap(start, ranges);
  }

  /** Likewise behind its end, a price that snaps back below it. */
  lemma EndReversed(ranges: seq<Range>)
    requires Grid(ranges) && ranges != [] && 0.0 < PastCent(ranges[|ranges| - 1].end) < 0.5
    ensures !Monotone(ranges)
  {
    var n := |ranges| - 1;
    var end := ranges[n].end;
    var q := JustBehindEnd(ranges);
    assert ranges[n] in ranges;
    var j := FindRange(end, ranges);
    SnapUsesFirst(end, ranges, j);
    OnItsOwnGrid(ranges, n, j, end);
    assert Snap(q, ranges) < end == Snap(end, ranges);
  }

  /** Snapping is monotone over the whole price axis exactly when prices just outside the grid round away from it. */
  lemma MonotoneExactlyWhen(ranges: seq<Range>)
    requires Grid(ranges)
    ensures Monotone(ranges) <==> EdgesRoundOutward(ranges)
  {
    if EdgesRoundOutward(ranges) {
      forall p, q | p <= q
        ensures Snap(p, ranges) <= Snap(q, ranges)
      {
        SnapKeepsOrder(p, q, ranges);
      }
    } else if PastCent(ranges[0].start) > 0.5 {
      StartReversed(ranges);
    } else {
      EndReversed(ranges);
    }
  }

  lemma HalfStep(price: real, x: real, step: real)
    requires step > 0.0 && price == x * step
    ensures price <= step / 2.0 <==> x <= 0.5
    ensures 0.0 < price ==> 0.0 < x
  {
    ProductOfDifference(0.5, x, step);
    if x <= 0.5 {
      NonNegativeProduct(0.5 - x, step);
    } else {
      PositiveProduct(x - 0.5, step);
      ProductOfDifference(x, 0.5, step);
    }
    if x <= 0.0 {
      NonNegativeProduct(-x, step);
    }
  }

  lemma ZeroProduct(k: int, step: real)
    requires step > 0.0
    ensures k as real * step == 0.0 <==> k == 0
  {
  }

  /** A tradeable price can still snap to zero: exactly when it lies within half a step of it. */
  lemma SnapsToZero(price: real, ranges: seq<Range>)
    requires Grid(ranges) && ranges != [] && ranges[0].start == 0.0 && 0.0 < price <= ranges[0].end
    ensures Snap(price, ranges) == 0.0 <==> price <= ranges[0].step / 2.0
  {
    var step := ranges[0].step;
    assert ranges[0] in ranges;
    SnapUsesFirst(price, ranges, 0);
    var x := price / step;
    HalfStep(price, x, step);
    ZeroProduct(RoundHalfEven(x), step);
    assert RoundHalfEven(x) == 0 <==> x <= 0.5;
  }

  // ---- When a snapped price is still a price -------------------------------------------------

  /** The step a price is rounded to: that of the first range that holds it, or a cent. */
  function StepFor(price: real, ranges: seq<Range>): (step: real)
    ensures step > 0.0
  {
    if ranges == [] then CENT
    else if ranges[0].step > 0.0 && ranges[0].start <= price <= ranges[0].end then ranges[0].step
    else StepFor(price, ranges[1..])
  }

  lemma {:induction false} SnapUsesStep(price: real, ranges: seq<Range>)
    ensures Snap(price, ranges) == ToStep(price, StepFor(price, ranges))
  {
    if ranges != [] && !(ranges[0].step > 0.0 && ranges[0].start <= price <= ranges[0].end) {
      SnapUsesStep(price, ranges[1..]);
    }
  }

  lemma SnapNonNegative(price: real, ranges: seq<Range>)
    requires price > 0.0
    ensures Snap(price, ranges) >= 0.0
  {
    var step := StepFor(price, ranges);
    SnapUsesStep(price, ranges);
    QuotientOrder(0.0, price, step);
    RoundIsMonotone(0.0, price / step);
    NonNegativeProduct(RoundHalfEven(price / step) as real, step);
  }

  /** A price one can trade at. */
  predicate Tradeable(price: real) { 0.0 < price < 1.0 }

  /** How many steps it takes to reach one or pass it. */
  function StepsToOne(step: real): int
    requires step > 0.0
  {
    Ceiling(1.0 / step)
  }

  /** The middle of the last step below one. */
  function LastMiddle(step: real): real
    requires step > 0.0
  {
    Times(StepsToOne(step) as real - 0.5, step)
  }

  /**
   A price is over half a step from zero and below the middle of the last step before one, or on that
   middle when the step below it is the even one.
   */
  predicate KeepsClear(price: real, step: real)
    requires step > 0.0
  {
    step / 2.0 < price
    && (price < LastMiddle(step) || (price == LastMiddle(step) && StepsToOne(step) % 2 == 1))
  }

  lemma RoundsTo(x: real, n: int)
    ensures RoundHalfEven(x) >= n <==> x > n as real - 0.5 || (x == n as real - 0.5 && n % 2 == 0)
  {
    var below := x.Floor;
    if below < n - 1 {
      assert RoundHalfEven(x) <= below + 1;
    } else if below == n - 1 {
      assert n % 2 == 0 <==> below % 2 == 1;
    } else {
      assert RoundHalfEven(x) >= below;
    }
  }

  lemma TimesCompare(x: real, y: real, step: real)
    requires step > 0.0
    ensures x < y <==> Times(x, step) < Times(y, step)
    ensures x == y <==> Times(x, step) == Times(y, step)
  {
    if x < y {
      PositiveProduct(y - x, step);
      ProductOfDifference(y, x, step);
    } else if x > y {
      PositiveProduct(x - y, step);
      ProductOfDifference(x, y, step);
    }
  }

  lemma TimesFixed(step: real)
    ensures Times(0.0, step) == 0.0 && Times(0.5, step) == step / 2.0
  {
  }

  lemma TimesQuotient(price: real, step: real)
    requires step > 0.0
    ensures Times(price / step, step) == price
  {
  }

  lemma WholeStepsReachOne(k: int, step: real)
    requires step > 0.0
    ensures Times(k as real, step) >= 1.0 <==> k >= StepsToOne(step)
  {
    var quotient := 1.0 / step;
    TimesQuotient(1.0, step);
    CeilingIs(quotient);
    TimesCompare(k as real, quotient, step);
  }

  lemma SnapsAboveZero(x: real, step: real, price: real)
    requires step > 0.0 && Times(x, step) == price
    ensures 0.0 < Times(RoundHalfEven(x) as real, step) <==> step / 2.0 < price
  {
    var k := RoundHalfEven(x);
    RoundsTo(x, 1);
    TimesFixed(step);
    TimesCompare(0.0, k as real, step);
    TimesCompare(0.5, x, step);
  }

  lemma SnapsBelowOne(x: real, step: real, price: real)
    requires step > 0.0 && Times(x, step) == price
    ensures Times(RoundHalfEven(x) as real, step) < 1.0 <==>
              price < LastMiddle(step) || (price == LastMiddle(step) && StepsToOne(step) % 2 == 1)
  {
    var n := StepsToOne(step);
    RoundsTo(x, n);
    WholeStepsReachOne(RoundHalfEven(x), step);
    TimesCompare(x, n as real - 0.5, step);
  }

  lemma ToStepIsTimes(price: real, step: real)
    requires step > 0.0
    ensures ToStep(price, step) == Times(RoundHalfEven(price / step) as real, step)
  {
  }

  /** Snapping leaves a tradeable price tradeable exactly when it keeps clear of both ends, on whatever ranges. */
  lemma StaysTradeableExactlyWhen(price: real, ranges: seq<Range>)
    requires Tradeable(price)
    ensures Tradeable(Snap(price, ranges)) <==> KeepsClear(price, StepFor(price, ranges))
  {
    var step := StepFor(price, ranges);
    SnapUsesStep(price, ranges);
    ToStepIsTimes(price, step);
    TimesQuotient(price, step);
    SnapsAboveZero(price / step, step, price);
    SnapsBelowOne(price / step, step, price);
  }

  lemma OneIsWholeSteps(step: real, n: int)
    requires step > 0.0 && Times(n as real, step) == 1.0
    ensures StepsToOne(step) == n
  {
    TimesQuotient(1.0, step);
    TimesCompare(1.0 / step, n as real, step);
    CeilingIs(1.0 / step);
  }

  /** Where whole steps make one, that is half a step from either end; the upper middle goes to the even step. */
  lemma ClearOfBothEnds(price: real, step: real, n: int)
    requires step > 0.0 && Times(n as real, step) == 1.0
    ensures KeepsClear(price, step) <==>
              step / 2.0 < price && (price < 1.0 - step / 2.0 || (price == 1.0 - step / 2.0 && n % 2 == 1))
  {
    OneIsWholeSteps(step, n);
    MiddleOfLastStep(step, n);
  }

  lemma MiddleOfLastStep(step: real, n: int)
    requires step > 0.0 && Times(n as real, step) == 1.0
    ensures LastMiddle(step) == 1.0 - step / 2.0
  {
    OneIsWholeSteps(step, n);
    ProductOfDifference(n as real, 0.5, step);
  }

  /** The other end of `SnapsToZero`: a price in a range that ends at one snaps to one from the upper middle up. */
  lemma SnapsToOne(price: real, ranges: seq<Range>, i: nat, n: int)
    requires Grid(ranges) && Holds(ranges, i, price) && ranges[i].end == 1.0
    requires ranges[i].step > 0.0 && Times(n as real, ranges[i].step) == 1.0
    ensures var middle := 1.0 - ranges[i].step / 2.0;
            Snap(price, ranges) == 1.0 <==> price > middle || (price == middle && n % 2 == 0)
  {
    SnapStays(price, ranges, i);
    assert Snap(price, ranges) <= 1.0;
    SnapsBelowOneInRange(price, ranges, i);
    OneIsWholeSteps(ranges[i].step, n);
    MiddleOfLastStep(ranges[i].step, n);
  }

  lemma SnapsBelowOneInRange(price: real, ranges: seq<Range>, i: nat)
    requires Grid(ranges) && Holds(ranges, i, price) && ranges[i].step > 0.0
    ensures var step := ranges[i].step;
            Snap(price, ranges) < 1.0 <==>
              price < LastMiddle(step) || (price == LastMiddle(step) && StepsToOne(step) % 2 == 1)
  {
    var step := ranges[i].step;
    SnapUsesFirst(price, ranges, i);
    ToStepIsTimes(price, step);
    TimesQuotient(price, step);
    SnapsBelowOne(price / step, step, price);
  }

  /** On the default one-cent grid: from above half a cent up to, and not at, half a cent below one. */
  lemma ClearOnCents(price: real)
    requires Tradeable(price)
    ensures Tradeable(Snap(price, [Range(0.0, 1.0, CENT)])) <==> 0.005 < price < 0.995
  {
    StaysTradeableExactlyWhen(price, [Range(0.0, 1.0, CENT)]);
    ClearOfBothEnds(price, CENT, 100);
  }
}
