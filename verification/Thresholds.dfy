/** When two venues' comparators and levels are called the same claim, and when that is true. */
module Thresholds {
  import opened Numbers
  import opened Wrappers

  datatype Comparator = Greater | GreaterEqual | Less | LessEqual | Between | Equal | NoComparator

  /** The smallest move of the underlying: one cent. */
  const TICK: real := 0.01

  predicate IsClose(a: real, b: real, relative: real, absolute: real) {
    Abs(a - b) <= RMax(relative * RMax(Abs(a), Abs(b)), absolute)
  }

  predicate Upward(c: Comparator) { c.Greater? || c.GreaterEqual? }
  predicate Downward(c: Comparator) { c.Less? || c.LessEqual? }
  predicate Directional(c: Comparator) { Upward(c) || Downward(c) }

  predicate OneTick(gap: real, tick: real) { IsClose(gap, tick, 0.000001, tick / 100.0) }

  /** Whether two comparator and level pairs are called the same claim. */
  predicate Equivalent(lc: Comparator, lt: Option<real>, rc: Comparator, rt: Option<real>, tick: real) {
    if lt.None? || rt.None? then lt.None? && rt.None?
    else if !Directional(lc) || !Directional(rc) then
      lc == rc && IsClose(lt.value, rt.value, 0.000000001, tick / 2.0)
    else if Upward(lc) != Upward(rc) then false
    else if IsClose(lt.value, rt.value, 0.000000001, 0.000000001) then lc == rc
    else
      var gap := rt.value - lt.value;
      if Upward(lc) then
        if lc.Greater? && rc.GreaterEqual? then OneTick(gap, tick)
        else if lc.GreaterEqual? && rc.Greater? then OneTick(-gap, tick)
        else false
      else
        if lc.Less? && rc.LessEqual? then OneTick(-gap, tick)
        else if lc.LessEqual? && rc.Less? then OneTick(gap, tick)
        else false
  }

  // ---- What a level market pays on -----------------------------------------------------------

  /** YES at a settlement value; ranges and unknown comparisons have no reading here. */
  predicate PaysYes(c: Comparator, level: real, value: real) {
    match c
    case Greater => value > level
    case GreaterEqual => value >= level
    case Less => value < level
    case LessEqual => value <= level
    case Equal => value == level
    case Between => false
    case NoComparator => false
  }

  predicate Compared(c: Comparator) { !c.Between? && !c.NoComparator? }

  function Ticks(k: int): real { k as real * TICK }

  /** Two claims are YES on exactly the same settlement ticks. */
  ghost predicate SameClaim(lc: Comparator, lt: real, rc: Comparator, rt: real) {
    forall k: int :: PaysYes(lc, lt, Ticks(k)) == PaysYes(rc, rt, Ticks(k))
  }

  /** The same, counted in ticks: equal claims are written alike, or one tick apart with the other strictness. */
  predicate Alike(lc: Comparator, m: int, rc: Comparator, n: int) {
    || (lc == rc && m == n)
    || (lc.Greater? && rc.GreaterEqual? && n == m + 1)
    || (lc.GreaterEqual? && rc.Greater? && m == n + 1)
    || (lc.Less? && rc.LessEqual? && m == n + 1)
    || (lc.LessEqual? && rc.Less? && n == m + 1)
  }

  predicate PaysAt(c: Comparator, m: int, k: int) {
    match c
    case Greater => k > m
    case GreaterEqual => k >= m
    case Less => k < m
    case LessEqual => k <= m
    case Equal => k == m
    case Between => false
    case NoComparator => false
  }

  lemma PaysInTicks(c: Comparator, m: int, k: int)
    ensures PaysYes(c, Ticks(m), Ticks(k)) == PaysAt(c, m, k)
  {
  }

  /** A settlement tick on which two claims that are not alike differ. */
  function Difference(lc: Comparator, m: int, rc: Comparator, n: int): int {
    if Upward(lc) && Upward(rc) then
      var low := if lc.Greater? then m + 1 else m;
      var high := if rc.Greater? then n + 1 else n;
      if low <= high then low else high
    else if Downward(lc) && Downward(rc) then
      var low := if lc.Less? then m - 1 else m;
      var high := if rc.Less? then n - 1 else n;
      if low >= high then low else high
    else if lc.Equal? && rc.Equal? then m
    else if Upward(lc) || Upward(rc) then (if m >= n then m else n) + 2
    else (if m <= n then m else n) - 2
  }

  lemma AlikeIsSame(lc: Comparator, m: int, rc: Comparator, n: int)
    requires Compared(lc) && Compared(rc)
    ensures Alike(lc, m, rc, n) <==> SameClaim(lc, Ticks(m), rc, Ticks(n))
  {
    forall k: int
      ensures PaysYes(lc, Ticks(m), Ticks(k)) == PaysAt(lc, m, k)
      ensures PaysYes(rc, Ticks(n), Ticks(k)) == PaysAt(rc, n, k)
    {
      PaysInTicks(lc, m, k);
      PaysInTicks(rc, n, k);
    }
    if !Alike(lc, m, rc, n) {
      var k := Difference(lc, m, rc, n);
      assert PaysAt(lc, m, k) != PaysAt(rc, n, k);
      assert PaysYes(lc, Ticks(m), Ticks(k)) != PaysYes(rc, Ticks(n), Ticks(k));
    }
  }

  // ---- The tolerances ------------------------------------------------------------------------

  function Size(m: int): int { if m >= 0 then m else -m }

  /** Two different levels so large that the relative tolerance takes them for one. */
  predicate Blurred(m: int, n: int) {
    m != n && Size(m - n) * 1_000_000_000 <= if Size(m) >= Size(n) then Size(m) else Size(n)
  }

  lemma CloseTicks(m: int, n: int, absolute: real)
    requires 0.0 <= absolute < TICK
    ensures IsClose(Ticks(m), Ticks(n), 0.000000001, absolute) <==> m == n || Blurred(m, n)
  {
    assert Abs(Ticks(m) - Ticks(n)) == Ticks(Size(m - n));
    assert Abs(Ticks(m)) == Ticks(Size(m)) && Abs(Ticks(n)) == Ticks(Size(n));
  }

  lemma OneTickApart(m: int, n: int)
    ensures OneTick(Ticks(n) - Ticks(m), TICK) <==> n == m + 1
  {
    assert Ticks(n) - Ticks(m) == Ticks(n - m);
    assert Abs(Ticks(n - m) - TICK) == Ticks(Size(n - m - 1));
    assert Abs(Ticks(n - m)) == Ticks(Size(n - m));
  }

  lemma VerdictInTicks(lc: Comparator, m: int, rc: Comparator, n: int)
    requires Compared(lc) && Compared(rc)
    ensures Equivalent(lc, Some(Ticks(m)), rc, Some(Ticks(n)), TICK)
            <==> if Blurred(m, n) then lc == rc else Alike(lc, m, rc, n)
  {
    CloseTicks(m, n, TICK / 2.0);
    CloseTicks(m, n, 0.000000001);
    OneTickApart(m, n);
    OneTickApart(n, m);
    assert -(Ticks(n) - Ticks(m)) == Ticks(m) - Ticks(n);
  }

  /**
   For any two whole-tick levels under directional or equal comparators, the comparison is right (true
   exactly when both claims are YES on the same settlement ticks) if and only if the levels are not
   blurred, or are written with comparators that differ and so are called different, as they are.
   */
  lemma ComparisonIsRight(lc: Comparator, m: int, rc: Comparator, n: int)
    requires Compared(lc) && Compared(rc)
    ensures (Equivalent(lc, Some(Ticks(m)), rc, Some(Ticks(n)), TICK) <==> SameClaim(lc, Ticks(m), rc, Ticks(n)))
            <==> !Blurred(m, n) || (lc != rc && !Alike(lc, m, rc, n))
  {
    AlikeIsSame(lc, m, rc, n);
    VerdictInTicks(lc, m, rc, n);
  }

  /** Below a thousand million ticks nothing is blurred: the comparison is sound and complete. */
  lemma ComparisonIsSetEquality(lc: Comparator, m: int, rc: Comparator, n: int)
    requires Compared(lc) && Compared(rc)
    requires Size(m) < 1_000_000_000 && Size(n) < 1_000_000_000
    ensures Equivalent(lc, Some(Ticks(m)), rc, Some(Ticks(n)), TICK) <==> SameClaim(lc, Ticks(m), rc, Ticks(n))
  {
    ComparisonIsRight(lc, m, rc, n);
  }

  /** From there on it is not: ten million dollars and one cent more are called the same level. */
  lemma LargeLevelsBlur()
    ensures Equivalent(Greater, Some(Ticks(1_000_000_000)), Greater, Some(Ticks(1_000_000_001)), TICK)
    ensures !SameClaim(Greater, Ticks(1_000_000_000), Greater, Ticks(1_000_000_001))
  {
    VerdictInTicks(Greater, 1_000_000_000, Greater, 1_000_000_001);
    AlikeIsSame(Greater, 1_000_000_000, Greater, 1_000_000_001);
  }

  // ---- Levels that are not on ticks ----------------------------------------------------------

  /** A missing level is the same claim as a missing one and as no other. */
  lemma MissingLevels(lc: Comparator, lt: Option<real>, rc: Comparator, rt: Option<real>, tick: real)
    requires lt.None? || rt.None?
    ensures Equivalent(lc, lt, rc, rt, tick) <==> lt == rt
  {
  }

  lemma CloseIsSymmetric(a: real, b: real, relative: real, absolute: real)
    ensures IsClose(a, b, relative, absolute) <==> IsClose(b, a, relative, absolute)
  {
    assert Abs(a - b) == Abs(b - a) && RMax(Abs(a), Abs(b)) == RMax(Abs(b), Abs(a));
  }

  /** The verdict does not depend on which market is put first, whatever the levels and the tick. */
  lemma EitherOrder(lc: Comparator, lt: Option<real>, rc: Comparator, rt: Option<real>, tick: real)
    ensures Equivalent(lc, lt, rc, rt, tick) <==> Equivalent(rc, rt, lc, lt, tick)
  {
    if lt.Some? && rt.Some? {
      CloseIsSymmetric(lt.value, rt.value, 0.000000001, tick / 2.0);
      CloseIsSymmetric(lt.value, rt.value, 0.000000001, 0.000000001);
      assert rt.value - lt.value == -(lt.value - rt.value);
    }
  }

  /** Two exact levels of up to five million are one claim exactly within half a tick of each other. */
  lemma ExactLevels(m: real, n: real)
    requires Abs(m) <= 5_000_000.0 && Abs(n) <= 5_000_000.0
    ensures Equivalent(Equal, Some(m), Equal, Some(n), TICK) <==> -TICK / 2.0 <= m - n <= TICK / 2.0
  {
  }

  /** A gap is one tick up to a hundredth of a tick, and two levels of at most one are the same up to a billionth. */
  lemma NearLevels(m: real, n: real)
    ensures Abs(m) <= 1_000_000.0 && Abs(n) <= 1_000_000.0 && n - m > 0.001 ==>
              (Equivalent(Greater, Some(m), GreaterEqual, Some(n), TICK) <==> 0.0099 <= n - m <= 0.0101)
    ensures Abs(m) <= 1.0 && Abs(n) <= 1.0 ==>
              (Equivalent(Greater, Some(m), Greater, Some(n), TICK) <==> Abs(m - n) <= 0.000000001)
  {
  }
}
