/**
 The exposure theorems from a gate that starts with nothing open, and concrete runs showing that
 neither their dispatch factor nor their freshness assumption can be dropped.
 */
module ExposureWitnesses {
  import opened Numbers
  import opened Orders
  import opened GateSpec
  import opened OrderProtocol
  import opened Exposure

  /** A new gate on an account with nothing open. */
  function NothingOpen(now: int): World {
    World(EMPTY_GATE, [], now, [], [], [])
  }

  /**
   Starting with nothing open and with every failed dispatch known to have filled nothing, exposure
   stays within the dispatches allowed in flight times the cap; one dispatch at a time, within the cap.
   */
  lemma ExposureFromNothing(l: Limits, now: int, steps: seq<Step>, scope: Scope, fixed: map<Ticker, Group>)
    requires now >= 0 && l.concurrentDispatches >= 0 && Capped(scope) && Cap(l, scope) >= 0.0
    requires Legal(l, NothingOpen(now), steps) && GroupsFixed(steps, scope, fixed)
    requires FreshThroughout(l, NothingOpen(now), steps)
    requires forall s | s in steps && s.Fail? :: s.filledNothing
    ensures var after := Run(l, NothingOpen(now), steps);
            && ExposureOf(after, scope, fixed) <= Allowance(l, scope)
            && (l.concurrentDispatches == 1 ==> ExposureOf(after, scope, fixed) <= Cap(l, scope))
  {
    NothingOpenIsAStart(now, scope, fixed);
    NothingStrayed(l, NothingOpen(now), steps, scope, fixed);
  }

  lemma NothingStrayed(l: Limits, w: World, steps: seq<Step>, scope: Scope, fixed: map<Ticker, Group>)
    requires l.concurrentDispatches >= 0 && Capped(scope) && Cap(l, scope) >= 0.0
    requires Start(w, scope, fixed) && NoneAdrift(w.orders) && Open(w.book, scope, fixed) == 0.0
    requires Legal(l, w, steps) && GroupsFixed(steps, scope, fixed) && FreshThroughout(l, w, steps)
    requires forall s | s in steps && s.Fail? :: s.filledNothing
    ensures ExposureOf(Run(l, w, steps), scope, fixed) <= Allowance(l, scope)
    ensures l.concurrentDispatches == 1 ==> Allowance(l, scope) == Cap(l, scope)
  {
    ExposureBounded(l, w, steps, scope, fixed);
    NothingAdrift(l, w, steps, scope, fixed);
    WithinAllowance(l, scope, ExposureOf(Run(l, w, steps), scope, fixed));
  }

  lemma WithinAllowance(l: Limits, scope: Scope, exposure: real)
    requires l.concurrentDispatches >= 0 && Cap(l, scope) >= 0.0 && exposure <= RMax(0.0, Allowance(l, scope))
    ensures exposure <= Allowance(l, scope)
    ensures l.concurrentDispatches == 1 ==> Allowance(l, scope) == Cap(l, scope)
  {
    AllowanceNonNegative(l.concurrentDispatches as real, Cap(l, scope));
  }

  lemma NothingOpenIsAStart(now: int, scope: Scope, fixed: map<Ticker, Group>)
    requires now >= 0
    ensures Start(NothingOpen(now), scope, fixed) && NoneAdrift(NothingOpen(now).orders)
    ensures Open(NothingOpen(now).book, scope, fixed) == 0.0
  {
  }

  lemma AllowanceNonNegative(n: real, cap: real)
    requires n >= 0.0 && cap >= 0.0
    ensures n * cap >= 0.0
  {
  }

  predicate NoneAdrift(orders: seq<Order>) {
    forall o | o in orders :: !o.phase.Adrift? && !o.phase.AdriftExecuted?
  }

  lemma {:induction false} NothingAdrift(l: Limits, w: World, steps: seq<Step>, scope: Scope, fixed: map<Ticker, Group>)
    requires Legal(l, w, steps) && NoneAdrift(w.orders)
    requires forall s | s in steps && s.Fail? :: s.filledNothing
    ensures Total(AdriftCount, Run(l, w, steps).orders, scope, fixed) == 0.0
    decreases |steps|
  {
    if steps == [] {
      AdriftTotalZero(w.orders, scope, fixed);
    } else {
      var s := steps[0];
      if s.Execute? {
        assert w.orders[s.order] in w.orders;
      }
      NothingAdrift(l, Next(l, w, s), steps[1..], scope, fixed);
    }
  }

  lemma {:induction false} AdriftTotalZero(orders: seq<Order>, scope: Scope, fixed: map<Ticker, Group>)
    requires NoneAdrift(orders)
    ensures Total(AdriftCount, orders, scope, fixed) == 0.0
  {
    if orders != [] {
      assert orders[|orders| - 1] in orders;
      AdriftTotalZero(orders[..|orders| - 1], scope, fixed);
    }
  }

  // ---- Runs that reach the bound -------------------------------------------------------------

  /** A legal run from one world to another in which no dispatch fails. */
  predicate Reaches(l: Limits, from: World, steps: seq<Step>, to: World) {
    Legal(l, from, steps) && Run(l, from, steps) == to && forall s | s in steps :: !s.Fail?
  }

  lemma {:induction false} StepsOn(l: Limits, from: World, steps: seq<Step>, w: World, s: Step)
    requires Reaches(l, from, steps, w) && Enabled(w, s) && !s.Fail?
    ensures Reaches(l, from, steps + [s], Next(l, w, s))
    ensures FreshThroughout(l, from, steps) && (s.Wake? ==> Fresh(w, s.checkedAt))
            ==> FreshThroughout(l, from, steps + [s])
    decreases |steps|
  {
    if steps == [] {
      assert [s][1..] == [];
      assert steps + [s] == [s];
    } else {
      assert (steps + [s])[0] == steps[0] && (steps + [s])[1..] == steps[1..] + [s];
      StepsOn(l, Next(l, from, steps[0]), steps[1..], w, s);
    }
  }

  /** Limits under which `n` orders like `r`, each as large as the ticker's cap, meet no other cap. */
  predicate Roomy(l: Limits, r: Request, n: int) {
    && n >= 0 && r.shard in l.allowedShards && r.group == "" && r.direction == Yes && r.count >= 1 && Cost(r) >= 0.0
    && l.contractsPerTicker == r.count as real <= l.contractsPerEvent
    && n <= l.attemptsPerHour && n <= l.attemptsPerDay && n <= l.attemptsPerTicker && n <= l.attemptsPerEvent
    && Caps(n, Cost(r)) <= l.notionalPerDay
  }

  /** A gate that no poll has reached yet and whose attempts are all for `r`. */
  predicate Quiet(g: Gate, r: Request, now: int) {
    && g.byTicker == map[] && g.byEvent == map[] && g.byGroup == map[] && g.reconciledAt == 0
    && (forall a | a in g.attempts :: a.at <= now && a.notional == Cost(r))
    && (forall f | f in g.fills :: f.at <= now)
    && ((r.ticker, r.direction) in g.lastAttempt ==> g.lastAttempt[(r.ticker, r.direction)] <= now)
  }

  lemma {:induction false} SameCosts(attempts: seq<Attempt>, cost: real)
    requires forall a | a in attempts :: a.notional == cost
    ensures Notional(attempts) == Caps(|attempts|, cost)
  {
    if attempts != [] {
      assert attempts[0] in attempts;
      SameCosts(attempts[1..], cost);
    }
  }

  lemma {:induction false} CountWithin(attempts: seq<Attempt>, scope: Scope, floor: int)
    ensures Count(attempts, scope) <= |attempts| && |Since(attempts, floor)| <= |attempts|
  {
    if attempts != [] {
      CountWithin(attempts[1..], scope, floor);
    }
  }

  lemma AttemptsFit(l: Limits, g: Gate, r: Request, now: int, n: nat)
    requires Roomy(l, r, n) && |g.attempts| < n && forall a | a in g.attempts :: a.notional == Cost(r)
    ensures AttemptVerdict(l, g, r, now).None?
  {
    SameCosts(g.attempts, Cost(r));
    FreeSlot(|g.attempts|, n, Cost(r));
    CountWithin(g.attempts, OfTicker(r.ticker), now - HOUR_MS);
    CountWithin(g.attempts, OfEvent(EventOf(r.ticker)), now - HOUR_MS);
  }

  lemma PositionsFit(l: Limits, g: Gate, r: Request, now: int, n: nat)
    requires Roomy(l, r, n) && g.fills == [] && g.byTicker == map[] && g.byEvent == map[]
    ensures PositionVerdict(l, g, r, now).None?
  {
  }

  lemma {:induction false} DroppedAreKept(attempts: seq<Attempt>, floor: int)
    ensures |DropOldAttempts(attempts, floor)| <= |attempts|
    ensures forall a | a in DropOldAttempts(attempts, floor) :: a in attempts
    ensures (forall a | a in attempts :: a.at < floor) ==> DropOldAttempts(attempts, floor) == []
  {
    if attempts != [] {
      DroppedAreKept(attempts[1..], floor);
    }
  }

  lemma {:induction false} OldFillsDrop(fills: seq<Fill>, floor: int)
    requires forall f | f in fills :: f.at < floor
    ensures DropOldFills(fills, floor) == []
  {
    if fills != [] {
      assert fills[0] in fills;
      OldFillsDrop(fills[1..], floor);
    }
  }

  /** With a slot free, the cooldown over and no live fill, such an order is admitted. */
  lemma RoomyAdmits(l: Limits, w: World, r: Request, now: int, n: nat)
    requires Roomy(l, r, n) && Quiet(w.gate, r, w.now) && w.gate.inFlight < l.concurrentDispatches
    requires l.cooldownMs <= (now - w.now) as real
    requires |Prune(w.gate, now).attempts| < n && Prune(w.gate, now).fills == []
    ensures Admits(l, w, r, now)
  {
    var pruned := Prune(w.gate, now);
    DroppedAreKept(w.gate.attempts, now - DAY_MS);
    AttemptsFit(l, pruned, r, now, n);
    PositionsFit(l, pruned, r, now, n);
    assert EarlyVerdict(l, w.gate, r, now).None?;
  }

  function OrderOf(r: Request, phase: Phase): Order { Order(r.ticker, r.direction, r.count, phase) }

  /** The first `i` orders are in the air and nothing has executed. */
  predicate Loaded(w: World, r: Request, i: nat) {
    && Quiet(w.gate, r, w.now) && AllFills(w) == [] && w.gate.inFlight == i && |w.gate.attempts| <= i
    && w.book == [] && w.orders == seq(i, _ => OrderOf(r, Sent))
  }

  lemma LoadOne(l: Limits, w: World, r: Request, gap: nat, i: nat)
    requires Roomy(l, r, l.concurrentDispatches) && l.cooldownMs <= gap as real
    requires i < l.concurrentDispatches && Loaded(w, r, i)
    ensures var s := Wake(r, w.now + gap, w.now + gap);
            Enabled(w, s) && Fresh(w, s.checkedAt) && Loaded(Next(l, w, s), r, i + 1)
  {
    var now := w.now + gap;
    DroppedAreKept(w.gate.attempts, now - DAY_MS);
    RoomyAdmits(l, w, r, now, l.concurrentDispatches);
    assert w.orders + [OrderOf(r, Sent)] == seq(i + 1, _ => OrderOf(r, Sent));
  }

  lemma {:induction false} LoadAll(l: Limits, r: Request, gap: nat, i: nat) returns (steps: seq<Step>, w: World)
    requires Roomy(l, r, l.concurrentDispatches) && l.cooldownMs <= gap as real && i <= l.concurrentDispatches
    ensures Reaches(l, NothingOpen(0), steps, w) && FreshThroughout(l, NothingOpen(0), steps) && Loaded(w, r, i)
  {
    steps, w := [], NothingOpen(0);
    if i > 0 {
      steps, w := LoadAll(l, r, gap, i - 1);
      var s := Wake(r, w.now + gap, w.now + gap);
      LoadOne(l, w, r, gap, i - 1);
      StepsOn(l, NothingOpen(0), steps, w, s);
      steps, w := steps + [s], Next(l, w, s);
    }
  }

  /** The exchange's book once `k` orders have filled whole. */
  function Book(r: Request, k: nat): seq<Holding> {
    if k == 0 then [] else [Holding(r.ticker, Caps(k, r.count as real))]
  }

  lemma MoveBook(r: Request, k: nat)
    ensures Move(Book(r, k), r.ticker, r.count as real) == Book(r, k + 1)
  {
    assert Caps(1, r.count as real) == r.count as real;
  }

  lemma {:induction false} CapsNonNegative(k: nat, cap: real)
    requires cap >= 0.0
    ensures Caps(k, cap) >= 0.0
  {
    if k > 0 {
      CapsNonNegative(k - 1, cap);
    }
  }

  lemma OpenOfBook(r: Request, k: nat)
    requires r.count >= 1
    ensures Open(Book(r, k), OfTicker(r.ticker), map[]) == k as real * r.count as real
  {
    CapsNonNegative(k, r.count as real);
    CapsAreProduct(k, r.count as real);
    if k > 0 {
      assert Book(r, k)[..0] == [];
    }
  }

  /** The first `k` of `n` orders in the air have filled whole. */
  predicate Filling(w: World, r: Request, n: nat, k: nat) {
    && w.book == Book(r, k) && |w.orders| == n
    && forall i | 0 <= i < n :: w.orders[i] == OrderOf(r, if i < k then Executed(r.count as real) else Sent)
  }

  lemma FillOne(l: Limits, w: World, r: Request, n: nat, k: nat)
    requires r.direction == Yes && r.count >= 1 && k < n && Filling(w, r, n, k)
    ensures var s := Execute(k, r.count as real); Enabled(w, s) && Filling(Next(l, w, s), r, n, k + 1)
  {
    MoveBook(r, k);
  }

  lemma {:induction false} FillAll(l: Limits, r: Request, gap: nat, k: nat) returns (steps: seq<Step>, w: World)
    requires Roomy(l, r, l.concurrentDispatches) && l.cooldownMs <= gap as real && k <= l.concurrentDispatches
    ensures Reaches(l, NothingOpen(0), steps, w) && FreshThroughout(l, NothingOpen(0), steps)
    ensures Filling(w, r, l.concurrentDispatches, k)
  {
    if k == 0 {
      steps, w := LoadAll(l, r, gap, l.concurrentDispatches);
    } else {
      steps, w := FillAll(l, r, gap, k - 1);
      var s := Execute(k - 1, r.count as real);
      FillOne(l, w, r, l.concurrentDispatches, k - 1);
      StepsOn(l, NothingOpen(0), steps, w, s);
      steps, w := steps + [s], Next(l, w, s);
    }
  }

  /**
   The bound is tight: whatever the number of dispatches allowed in flight and whatever the ticker's cap, if no
   other cap stands in the way there is a run, with fresh fills throughout and no failed dispatch, that opens
   exactly as many contracts as the bound allows.
   */
  lemma BoundIsTight(l: Limits, r: Request, gap: nat) returns (steps: seq<Step>, end: World)
    requires Roomy(l, r, l.concurrentDispatches) && l.cooldownMs <= gap as real
    ensures Reaches(l, NothingOpen(0), steps, end) && FreshThroughout(l, NothingOpen(0), steps)
    ensures Open(end.book, OfTicker(r.ticker), map[]) == Allowance(l, OfTicker(r.ticker))
    ensures ExposureOf(end, OfTicker(r.ticker), map[]) == Allowance(l, OfTicker(r.ticker))
  {
    steps, end := FillAll(l, r, gap, l.concurrentDispatches);
    OpenOfBook(r, l.concurrentDispatches);
    NothingUnexecuted(end.orders, OfTicker(r.ticker));
  }

  lemma {:induction false} NothingUnexecuted(orders: seq<Order>, scope: Scope)
    requires forall i | 0 <= i < |orders| :: orders[i].phase.Executed?
    ensures Total(Unexecuted, orders, scope, map[]) == 0.0
  {
    if orders != [] {
      NothingUnexecuted(orders[..|orders| - 1], scope);
    }
  }

  /** The runs the theorems are about: from nothing open, fills fresh throughout, failed dispatches filling nothing. */
  predicate Fair(l: Limits, steps: seq<Step>) {
    && Legal(l, NothingOpen(0), steps) && FreshThroughout(l, NothingOpen(0), steps)
    && forall s | s in steps && s.Fail? :: s.filledNothing
  }

  predicate StaysWithinCap(l: Limits, ticker: Ticker, steps: seq<Step>) {
    Fair(l, steps)
    ==> ExposureOf(Run(l, NothingOpen(0), steps), OfTicker(ticker), map[]) <= Cap(l, OfTicker(ticker))
  }

  lemma FewSlotsSuffice(l: Limits, ticker: Ticker, steps: seq<Step>)
    requires 0 <= l.concurrentDispatches <= 1 && l.contractsPerTicker >= 0.0
    ensures StaysWithinCap(l, ticker, steps)
  {
    if Fair(l, steps) {
      ExposureFromNothing(l, 0, steps, OfTicker(ticker), map[]);
      assert l.concurrentDispatches == 0 ==> Allowance(l, OfTicker(ticker)) == 0.0;
    }
  }

  lemma MoreSlotsExceed(l: Limits, r: Request, gap: nat)
    requires l.concurrentDispatches >= 2 && Roomy(l, r, l.concurrentDispatches) && l.cooldownMs <= gap as real
    ensures exists steps :: !StaysWithinCap(l, r.ticker, steps)
  {
    var steps, end := BoundIsTight(l, r, gap);
    CapsAreProduct(l.concurrentDispatches, r.count as real);
    CapsNonNegative(l.concurrentDispatches - 2, r.count as real);
    assert Caps(l.concurrentDispatches, r.count as real) > r.count as real;
    assert !StaysWithinCap(l, r.ticker, steps);
  }

  /**
   The plain cap, without the dispatch factor, holds of every such run exactly when at most one dispatch may be
   in flight.
   */
  lemma CapHoldsExactlyWhen(l: Limits, r: Request, gap: nat)
    requires Roomy(l, r, l.concurrentDispatches) && l.cooldownMs <= gap as real
    ensures (forall steps :: StaysWithinCap(l, r.ticker, steps)) <==> l.concurrentDispatches <= 1
  {
    if l.concurrentDispatches <= 1 {
      forall steps
        ensures StaysWithinCap(l, r.ticker, steps)
      {
        FewSlotsSuffice(l, r.ticker, steps);
      }
    } else {
      MoreSlotsExceed(l, r, gap);
    }
  }

  function Loose(slots: int): Limits {
    Limits({0}, 10, 10, 10, 100.0, slots, 5.0, 10, 50.0, 10, 50.0, 0.0)
  }

  const FIVE: Request := Request("T", Yes, 0, 5, 0.5, "")

  /** For instance, two dispatches under a cap of 5 contracts can end with 10 contracts open. */
  lemma TheCapAloneIsExceeded() returns (steps: seq<Step>, end: World)
    ensures Reaches(Loose(2), NothingOpen(0), steps, end) && FreshThroughout(Loose(2), NothingOpen(0), steps)
    ensures Open(end.book, OfTicker("T"), map[]) == 10.0 == 2.0 * Cap(Loose(2), OfTicker("T"))
  {
    assert Caps(1, Cost(FIVE)) == 2.5 && Caps(2, Cost(FIVE)) == 5.0;
    steps, end := BoundIsTight(Loose(2), FIVE, 0);
  }

  // ---- Runs without reconciliation -----------------------------------------------------------

  /** `k` orders have come and gone, each filled whole and reported. */
  predicate Gone(w: World, r: Request, k: nat) {
    Quiet(w.gate, r, w.now) && w.gate.inFlight == 0 && w.book == Book(r, k) && |w.orders| == k
  }

  /** Over a day later the gate has pruned every attempt and every fill, and admits another order. */
  lemma LateWake(l: Limits, w: World, r: Request, gap: nat, k: nat)
    requires Roomy(l, r, 1) && l.concurrentDispatches >= 1 && l.cooldownMs <= gap as real && gap > DAY_MS
    requires Gone(w, r, k)
    ensures var s := Wake(r, w.now + gap, w.now + gap);
            var after := Next(l, w, s);
            && Enabled(w, s) && Quiet(after.gate, r, after.now) && after.gate.inFlight == 1 && after.book == w.book
            && after.orders == w.orders + [OrderOf(r, Sent)] && after.now == w.now + gap
  {
    var now := w.now + gap;
    DroppedAreKept(w.gate.attempts, now - DAY_MS);
    OldFillsDrop(w.gate.fills, now - DAY_MS);
    RoomyAdmits(l, w, r, now, 1);
  }

  lemma FillAndReport(l: Limits, w: World, r: Request, k: nat)
    requires r.direction == Yes && r.count >= 1 && Quiet(w.gate, r, w.now) && w.gate.inFlight == 1
    requires w.book == Book(r, k) && |w.orders| == k + 1 && w.orders[k] == OrderOf(r, Sent)
    ensures var fill, report := Execute(k, r.count as real), Report(k, w.now);
            && Enabled(w, fill) && Enabled(Next(l, w, fill), report)
            && Gone(Next(l, Next(l, w, fill), report), r, k + 1)
  {
    MoveBook(r, k);
  }

  predicate NeverPolled(steps: seq<Step>) { forall s | s in steps :: !s.Stamp? && !s.Read? && !s.Apply? }

  lemma AnotherDay(l: Limits, r: Request, gap: nat, k: nat, before: seq<Step>, w: World)
    returns (steps: seq<Step>, end: World)
    requires Roomy(l, r, 1) && l.concurrentDispatches >= 1 && l.cooldownMs <= gap as real && gap > DAY_MS
    requires Reaches(l, NothingOpen(0), before, w) && NeverPolled(before) && Gone(w, r, k)
    ensures Reaches(l, NothingOpen(0), steps, end) && NeverPolled(steps) && Gone(end, r, k + 1)
  {
    var wake := Wake(r, w.now + gap, w.now + gap);
    var fill, report := Execute(k, r.count as real), Report(k, w.now + gap);
    LateWake(l, w, r, gap, k);
    StepsOn(l, NothingOpen(0), before, w, wake);
    var woken := Next(l, w, wake);
    FillAndReport(l, woken, r, k);
    StepsOn(l, NothingOpen(0), before + [wake], woken, fill);
    var filled := Next(l, woken, fill);
    StepsOn(l, NothingOpen(0), before + [wake] + [fill], filled, report);
    steps, end := before + [wake] + [fill] + [report], Next(l, filled, report);
  }

  lemma {:induction false} DayByDay(l: Limits, r: Request, gap: nat, k: nat) returns (steps: seq<Step>, end: World)
    requires Roomy(l, r, 1) && l.concurrentDispatches >= 1 && l.cooldownMs <= gap as real && gap > DAY_MS
    ensures Reaches(l, NothingOpen(0), steps, end) && NeverPolled(steps) && Gone(end, r, k)
  {
    steps, end := [], NothingOpen(0);
    if k > 0 {
      steps, end := DayByDay(l, r, gap, k - 1);
      steps, end := AnotherDay(l, r, gap, k - 1, steps, end);
    }
  }

  /**
   Freshness is needed: without reconciliation no bound holds. However many caps one names, one order at a time
   and less than one a day opens that many: each fill leaves the 24-hour window before the next check.
   */
  lemma StaleFillsAreForgotten(l: Limits, r: Request, gap: nat, k: nat) returns (steps: seq<Step>, end: World)
    requires Roomy(l, r, 1) && l.concurrentDispatches >= 1 && l.cooldownMs <= gap as real && gap > DAY_MS
    ensures Reaches(l, NothingOpen(0), steps, end) && NeverPolled(steps)
    ensures Open(end.book, OfTicker(r.ticker), map[]) == k as real * Cap(l, OfTicker(r.ticker))
  {
    steps, end := DayByDay(l, r, gap, k);
    OpenOfBook(r, k);
  }
}
