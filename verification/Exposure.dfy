/**
 What every run of the order protocol keeps: the gate never under-counts the open contracts of a
 ticker, an event or a (fixed) group, and so the true exposure stays within the number of dispatches
 that may be in flight times the position cap.
 */
module Exposure {
  import opened Numbers
  import opened Wrappers
  import opened Orders
  import opened GateSpec
  import opened OrderProtocol

  // ---- The ledger invariant ------------------------------------------------------------------

  /** Orders are for at least one contract and never filled beyond their count. */
  predicate Sound(o: Order) {
    o.count >= 1 && 0.0 <= Weigh(Unrecorded, o) <= o.count as real
  }

  /** The contracts of a scope that a baseline of `base`, taken at `stamp`, accounts for. */
  function Accounted(w: World, base: real, stamp: int, scope: Scope, fixed: map<Ticker, Group>): real {
    base + FilledSince(AllFills(w), scope, stamp) + Total(Unrecorded, w.orders, scope, fixed)
  }

  predicate Covered(w: World, base: real, stamp: int, scope: Scope, fixed: map<Ticker, Group>) {
    Open(w.book, scope, fixed) <= Accounted(w, base, stamp, scope, fixed)
  }

  predicate WellFormed(w: World) {
    && OneHoldingEach(w.book)
    && (forall o | o in w.orders :: Sound(o))
    && (forall f | f in AllFills(w) :: f.count > 0.0)
    && (forall f | f in w.expired :: f.at < w.now - DAY_MS)
    && (forall p | p in w.polls :: p.stamp <= w.now && (p.seen.Some? ==> GoodReading(p.seen.value, w.book)))
  }

  predicate GoodReading(positions: Positions, book: seq<Holding>) {
    && DistinctTickers(positions)
    && TickersIn(positions) <= Traded(book)
    && (forall q | q in positions :: q.1 > 0.0)
  }

  predicate LedgerInv(w: World, scope: Scope, fixed: map<Ticker, Group>) {
    && w.gate.reconciledAt <= w.now
    && Baseline(w.gate, scope) >= 0.0
    && Covered(w, Baseline(w.gate, scope), w.gate.reconciledAt, scope, fixed)
    && (forall p | p in w.polls && p.seen.Some? ::
          Covered(w, Listed(p.seen.value, scope, fixed), p.stamp, scope, fixed))
  }

  /** For the group ledgers only: a wake carries the group its ticker is assigned. */
  predicate GroupFixed(s: Step, scope: Scope, fixed: map<Ticker, Group>) {
    scope.OfGroup? && s.Wake? ==> s.request.group == Get(fixed, s.request.ticker, "")
  }

  predicate GroupsKnown(w: World, scope: Scope, fixed: map<Ticker, Group>) {
    scope.OfGroup? ==>
      && KnowsGroups(w.gate, Traded(w.book), fixed)
      && (forall t | t in w.gate.groupOf :: w.gate.groupOf[t] == Get(fixed, t, ""))
      && (forall o | o in w.orders :: Get(w.gate.groupOf, o.ticker, "") == Get(fixed, o.ticker, ""))
      && (forall f | f in AllFills(w) :: f.group == Get(fixed, f.ticker, ""))
  }

  // ---- Well-formedness -----------------------------------------------------------------------

  lemma DecideCutsFills(l: Limits, g: Gate, r: Request, now: int) returns (dropped: seq<Fill>)
    ensures var after := Decide(l, g, r, now).0;
            && g.fills == dropped + after.fills && (forall f | f in dropped :: f.at < now - DAY_MS)
            && after == g.(attempts := after.attempts, fills := after.fills)
  {
    if EarlyVerdict(l, g, r, now).None? {
      dropped := DropOldFillsKeepsWindows(g.fills, now - DAY_MS);
    } else {
      dropped := [];
    }
  }

  lemma CutFront(expired: seq<Fill>, dropped: seq<Fill>, kept: seq<Fill>)
    ensures var all := expired + (dropped + kept);
            all[..|all| - |kept|] == expired + dropped && (expired + dropped) + kept == all
  {
  }

  lemma CheckedMovesExpired(l: Limits, w: World, r: Request, now: int)
    requires w.now <= now && forall f | f in w.expired :: f.at < w.now - DAY_MS
    ensures var after := Checked(l, w, r, now);
            && AllFills(after) == AllFills(w)
            && (forall f | f in after.expired :: f.at < now - DAY_MS)
            && after.gate == w.gate.(attempts := after.gate.attempts, fills := after.gate.fills)
  {
    var dropped := DecideCutsFills(l, w.gate, r, now);
    CutFront(w.expired, dropped, Checked(l, w, r, now).gate.fills);
  }

  /** The fills recorded by a step: none, or the one it reports. */
  function NewFills(w: World, s: Step): seq<Fill>
    requires Enabled(w, s)
  {
    if s.Report? && w.orders[s.order].phase.fill > 0.0 then
      var o := w.orders[s.order];
      [Fill(s.at, o.ticker, Get(w.gate.groupOf, o.ticker, ""), o.phase.fill)]
    else []
  }

  lemma StepFills(l: Limits, w: World, s: Step)
    requires Enabled(w, s) && WellFormed(w)
    ensures AllFills(Next(l, w, s)) == AllFills(w) + NewFills(w, s)
    ensures w.now <= Next(l, w, s).now
    ensures forall f | f in Next(l, w, s).expired :: f.at < Next(l, w, s).now - DAY_MS
  {
    if s.Wake? {
      CheckedMovesExpired(l, w, s.request, s.checkedAt);
    }
  }

  lemma StepOrders(l: Limits, w: World, s: Step)
    requires Enabled(w, s) && WellFormed(w)
    ensures forall o | o in Next(l, w, s).orders :: Sound(o)
  {
    var after := Next(l, w, s);
    if s.Execute? || s.Report? || s.Fail? {
      assert w.orders[s.order] in w.orders;
      assert Sound(after.orders[s.order]);
    }
  }

  lemma StepBook(l: Limits, w: World, s: Step)
    requires Enabled(w, s) && WellFormed(w)
    ensures OneHoldingEach(Next(l, w, s).book) && Traded(w.book) <= Traded(Next(l, w, s).book)
  {
    if s.Execute? {
      MoveKeepsBook(w.book, w.orders[s.order].ticker, if w.orders[s.order].direction == Yes then s.fill else -s.fill);
    } else if s.Settle? {
      ClearKeepsBook(w.book, s.ticker, Anything, map[]);
    }
  }

  lemma StepKeepsWellFormed(l: Limits, w: World, s: Step)
    requires Enabled(w, s) && WellFormed(w)
    ensures WellFormed(Next(l, w, s))
  {
    StepFills(l, w, s);
    StepOrders(l, w, s);
    StepBook(l, w, s);
    var after := Next(l, w, s);
    SnapshotIsDistinct(w.book);
    forall p | p in after.polls
      ensures p.stamp <= after.now && (p.seen.Some? ==> GoodReading(p.seen.value, after.book))
    {
      if s.Read? && p == after.polls[s.poll] {
        assert w.polls[s.poll] in w.polls;
      } else if !s.Stamp? || p in w.polls {
        assert p in w.polls;
      }
    }
  }

  // ---- The slack of a baseline never shrinks -------------------------------------------------

  /** Contracts of `scope` that a step executes on the exchange. */
  function Executes(w: World, s: Step, scope: Scope, fixed: map<Ticker, Group>): real
    requires Enabled(w, s)
  {
    if s.Execute? && In(scope, w.orders[s.order].ticker, fixed) then s.fill else 0.0
  }

  /** Contracts of `scope` whose fill a step records. */
  function Reports(w: World, s: Step, scope: Scope, fixed: map<Ticker, Group>): real
    requires Enabled(w, s)
  {
    if s.Report? && In(scope, w.orders[s.order].ticker, fixed) then w.orders[s.order].phase.fill else 0.0
  }

  lemma ExecuteGrowth(book: seq<Holding>, o: Order, fill: real, scope: Scope, fixed: map<Ticker, Group>)
    requires fill >= 0.0
    ensures Open(Move(book, o.ticker, if o.direction == Yes then fill else -fill), scope, fixed)
            <= Open(book, scope, fixed) + if In(scope, o.ticker, fixed) then fill else 0.0
  {
    MoveOpen(book, o.ticker, if o.direction == Yes then fill else -fill, scope, fixed);
  }

  lemma ExecuteMovesBook(l: Limits, w: World, s: Step)
    requires Enabled(w, s) && s.Execute?
    ensures var o := w.orders[s.order];
            Next(l, w, s).book == Move(w.book, o.ticker, if o.direction == Yes then s.fill else -s.fill)
  {
  }

  lemma OnlyExchangeMovesBook(l: Limits, w: World, s: Step)
    requires Enabled(w, s) && !s.Execute? && !s.Settle?
    ensures Next(l, w, s).book == w.book
  {
  }

  lemma OpenGrowth(l: Limits, w: World, s: Step, scope: Scope, fixed: map<Ticker, Group>)
    requires Enabled(w, s)
    ensures Open(Next(l, w, s).book, scope, fixed) <= Open(w.book, scope, fixed) + Executes(w, s, scope, fixed)
  {
    if s.Execute? {
      ExecuteMovesBook(l, w, s);
      ExecuteGrowth(w.book, w.orders[s.order], s.fill, scope, fixed);
    } else if s.Settle? {
      ClearKeepsBook(w.book, s.ticker, scope, fixed);
    } else {
      OnlyExchangeMovesBook(l, w, s);
    }
  }

  lemma TotalAppend(weight: Weight, orders: seq<Order>, o: Order, scope: Scope, fixed: map<Ticker, Group>)
    ensures Total(weight, orders + [o], scope, fixed)
            == Total(weight, orders, scope, fixed) + if In(scope, o.ticker, fixed) then Weigh(weight, o) else 0.0
  {
    assert (orders + [o])[..|orders|] == orders;
  }

  lemma UnrecordedGrowth(l: Limits, w: World, s: Step, scope: Scope, fixed: map<Ticker, Group>)
    requires Enabled(w, s) && WellFormed(w)
    ensures Total(Unrecorded, Next(l, w, s).orders, scope, fixed)
            >= Total(Unrecorded, w.orders, scope, fixed) + Executes(w, s, scope, fixed) - Reports(w, s, scope, fixed)
  {
    if s.Execute? || s.Report? || s.Fail? {
      var phase := Next(l, w, s).orders[s.order].phase;
      assert Sound(w.orders[s.order]);
      TotalUpdate(Unrecorded, w.orders, s.order, phase, scope, fixed);
    } else if s.Wake? {
      TotalAppend(Unrecorded, w.orders, Order(s.request.ticker, s.request.direction, s.request.count, Sent),
                  scope, fixed);
    }
  }

  lemma FilledGrowth(l: Limits, w: World, s: Step, stamp: int, scope: Scope, fixed: map<Ticker, Group>)
    requires Enabled(w, s) && WellFormed(w) && GroupsKnown(w, scope, fixed) && Capped(scope) && stamp <= w.now
    ensures FilledSince(AllFills(Next(l, w, s)), scope, stamp)
            >= FilledSince(AllFills(w), scope, stamp) + Reports(w, s, scope, fixed)
  {
    StepFills(l, w, s);
    FilledConcat(AllFills(w), NewFills(w, s), scope, stamp);
    if s.Report? {
      assert w.orders[s.order] in w.orders;
      assert Sound(w.orders[s.order]);
      if NewFills(w, s) != [] {
        assert NewFills(w, s)[1..] == [];
      }
    }
  }

  /**
   Take any figure `base` and any moment `stamp` that has passed. No step brings the true open
   contracts closer to what `base`, the fills recorded since `stamp` and the executed-but-unrecorded
   fills account for.
   */
  lemma SlackNeverShrinks(l: Limits, w: World, s: Step, base: real, stamp: int, scope: Scope, fixed: map<Ticker, Group>)
    requires Enabled(w, s) && WellFormed(w) && GroupsKnown(w, scope, fixed) && Capped(scope)
    requires stamp <= w.now && Covered(w, base, stamp, scope, fixed)
    ensures Covered(Next(l, w, s), base, stamp, scope, fixed)
  {
    OpenGrowth(l, w, s, scope, fixed);
    UnrecordedGrowth(l, w, s, scope, fixed);
    FilledGrowth(l, w, s, stamp, scope, fixed);
  }

  // ---- Runs ----------------------------------------------------------------------------------

  lemma {:induction false} UnrecordedNonNegative(orders: seq<Order>, scope: Scope, fixed: map<Ticker, Group>)
    requires forall o | o in orders :: Sound(o)
    ensures Total(Unrecorded, orders, scope, fixed) >= 0.0
  {
    if orders != [] {
      var last := orders[|orders| - 1];
      assert Sound(last);
      UnrecordedNonNegative(orders[..|orders| - 1], scope, fixed);
    }
  }

  /** The gate's group map changes only when a wake is recorded, and then to the assigned group. */
  lemma StepGroupMap(l: Limits, w: World, s: Step, scope: Scope, fixed: map<Ticker, Group>)
    requires Enabled(w, s) && WellFormed(w) && scope.OfGroup? && GroupFixed(s, scope, fixed)
    requires forall t | t in w.gate.groupOf :: w.gate.groupOf[t] == Get(fixed, t, "")
    ensures var after := Next(l, w, s);
            && (forall t | t in after.gate.groupOf :: after.gate.groupOf[t] == Get(fixed, t, ""))
            && (forall t | Get(w.gate.groupOf, t, "") == Get(fixed, t, "") ::
                  Get(after.gate.groupOf, t, "") == Get(fixed, t, ""))
            && (after.orders != w.orders && s.Wake? ==>
                  Get(after.gate.groupOf, s.request.ticker, "") == Get(fixed, s.request.ticker, ""))
  {
    if s.Wake? {
      CheckedMovesExpired(l, w, s.request, s.checkedAt);
    }
  }

  lemma StepKeepsTradedGroups(l: Limits, w: World, s: Step, scope: Scope, fixed: map<Ticker, Group>)
    requires Enabled(w, s) && WellFormed(w) && scope.OfGroup?
    requires GroupsKnown(w, scope, fixed) && GroupFixed(s, scope, fixed)
    ensures KnowsGroups(Next(l, w, s).gate, Traded(Next(l, w, s).book), fixed)
  {
    StepGroupMap(l, w, s, scope, fixed);
    if s.Execute? {
      MoveKeepsBook(w.book, w.orders[s.order].ticker, if w.orders[s.order].direction == Yes then s.fill else -s.fill);
      assert w.orders[s.order] in w.orders;
    } else if s.Settle? {
      ClearKeepsBook(w.book, s.ticker, scope, fixed);
    }
  }

  lemma StepKeepsOrderGroups(l: Limits, w: World, s: Step, scope: Scope, fixed: map<Ticker, Group>)
    requires Enabled(w, s) && WellFormed(w) && scope.OfGroup?
    requires GroupsKnown(w, scope, fixed) && GroupFixed(s, scope, fixed)
    ensures var after := Next(l, w, s);
            forall o | o in after.orders :: Get(after.gate.groupOf, o.ticker, "") == Get(fixed, o.ticker, "")
  {
    StepGroupMap(l, w, s, scope, fixed);
    if s.Execute? || s.Report? || s.Fail? {
      assert w.orders[s.order] in w.orders;
    }
  }

  lemma StepKeepsFillGroups(l: Limits, w: World, s: Step, scope: Scope, fixed: map<Ticker, Group>)
    requires Enabled(w, s) && WellFormed(w) && GroupsKnown(w, scope, fixed) && scope.OfGroup?
    ensures forall f | f in AllFills(Next(l, w, s)) :: f.group == Get(fixed, f.ticker, "")
  {
    StepFills(l, w, s);
    if s.Report? {
      assert w.orders[s.order] in w.orders;
    }
  }

  lemma StepKeepsGroups(l: Limits, w: World, s: Step, scope: Scope, fixed: map<Ticker, Group>)
    requires Enabled(w, s) && WellFormed(w) && GroupsKnown(w, scope, fixed) && GroupFixed(s, scope, fixed)
    ensures GroupsKnown(Next(l, w, s), scope, fixed)
  {
    if scope.OfGroup? {
      StepGroupMap(l, w, s, scope, fixed);
      StepKeepsTradedGroups(l, w, s, scope, fixed);
      StepKeepsOrderGroups(l, w, s, scope, fixed);
      StepKeepsFillGroups(l, w, s, scope, fixed);
    }
  }

  /** What a poll reads accounts for everything open at that moment. */
  lemma ReadCovers(l: Limits, w: World, s: Step, scope: Scope, fixed: map<Ticker, Group>)
    requires s.Read? && Enabled(w, s) && WellFormed(w)
    ensures var p := Next(l, w, s).polls[s.poll];
            Covered(Next(l, w, s), Listed(p.seen.value, scope, fixed), p.stamp, scope, fixed)
  {
    SnapshotIsTrue(w.book, scope, fixed);
    FilledNonNegative(AllFills(w), scope, w.polls[s.poll].stamp);
    UnrecordedNonNegative(w.orders, scope, fixed);
    assert AllFills(Next(l, w, s)) == AllFills(w);
  }

  lemma StepKeepsLedger(l: Limits, w: World, s: Step, scope: Scope, fixed: map<Ticker, Group>)
    requires Enabled(w, s) && WellFormed(w) && GroupsKnown(w, scope, fixed) && Capped(scope)
    requires LedgerInv(w, scope, fixed)
    ensures LedgerInv(Next(l, w, s), scope, fixed)
  {
    var after := Next(l, w, s);
    StepFills(l, w, s);
    forall p | p in after.polls && p.seen.Some?
      ensures Covered(after, Listed(p.seen.value, scope, fixed), p.stamp, scope, fixed)
    {
      if s.Read? && p == after.polls[s.poll] {
        ReadCovers(l, w, s, scope, fixed);
      } else {
        assert p in w.polls;
        SlackNeverShrinks(l, w, s, Listed(p.seen.value, scope, fixed), p.stamp, scope, fixed);
      }
    }
    if s.Apply? {
      var p := w.polls[s.poll];
      assert p in w.polls && GoodReading(p.seen.value, w.book);
      BaselineIsListed(w.gate, p.seen.value, p.stamp, scope, fixed);
      ListedNonNegative(p.seen.value, scope, fixed);
      assert after.polls[s.poll] == p;
    } else {
      SlackNeverShrinks(l, w, s, Baseline(w.gate, scope), w.gate.reconciledAt, scope, fixed);
      if s.Wake? {
        CheckedMovesExpired(l, w, s.request, s.checkedAt);
      }
      assert Baseline(after.gate, scope) == Baseline(w.gate, scope);
    }
  }

  predicate Legal(l: Limits, w: World, steps: seq<Step>)
    decreases |steps|
  {
    steps == [] || (Enabled(w, steps[0]) && Legal(l, Next(l, w, steps[0]), steps[1..]))
  }

  function Run(l: Limits, w: World, steps: seq<Step>): World
    requires Legal(l, w, steps)
    decreases |steps|
  {
    if steps == [] then w else Run(l, Next(l, w, steps[0]), steps[1..])
  }

  /** A gate that accounts for what is open, before any order of this run. */
  predicate Start(w: World, scope: Scope, fixed: map<Ticker, Group>) {
    && w.orders == [] && w.polls == [] && w.expired == [] && w.gate.inFlight == 0
    && WellFormed(w) && GroupsKnown(w, scope, fixed) && LedgerInv(w, scope, fixed)
  }

  predicate GroupsFixed(steps: seq<Step>, scope: Scope, fixed: map<Ticker, Group>) {
    forall s | s in steps :: GroupFixed(s, scope, fixed)
  }

  /** Every fill the last reconciliation does not cover is less than 24 hours old at `now`. */
  predicate Fresh(w: World, now: int) {
    forall f | f in AllFills(w) :: f.at >= w.gate.reconciledAt ==> f.at >= now - DAY_MS
  }

  lemma {:induction false} FreshFloor(fills: seq<Fill>, scope: Scope, early: int, late: int)
    requires early <= late && forall f | f in fills :: f.at >= early ==> f.at >= late
    ensures FilledSince(fills, scope, early) == FilledSince(fills, scope, late)
  {
    if fills != [] {
      assert fills[0] in fills;
      FreshFloor(fills[1..], scope, early, late);
    }
  }

  /** While unreconciled fills are fresh, the position the gate computes is the whole ledger. */
  lemma PositionIsLedger(w: World, scope: Scope, now: int)
    requires Fresh(w, now) && forall f | f in w.expired :: f.at < now - DAY_MS
    ensures Position(w.gate, scope, now)
            == Baseline(w.gate, scope) + FilledSince(AllFills(w), scope, w.gate.reconciledAt)
  {
    var floor := Max(w.gate.reconciledAt, now - DAY_MS);
    FreshFloor(AllFills(w), scope, w.gate.reconciledAt, floor);
    FilledConcat(w.expired, w.gate.fills, scope, floor);
    ExpiredFillsCountNothing(w.expired, scope, floor);
  }

  lemma {:induction false} RunKeepsLedger(l: Limits, w: World, steps: seq<Step>, scope: Scope,
                                          fixed: map<Ticker, Group>)
    requires Legal(l, w, steps) && GroupsFixed(steps, scope, fixed) && Capped(scope)
    requires WellFormed(w) && GroupsKnown(w, scope, fixed) && LedgerInv(w, scope, fixed)
    ensures var after := Run(l, w, steps);
            WellFormed(after) && GroupsKnown(after, scope, fixed) && LedgerInv(after, scope, fixed)
    decreases |steps|
  {
    if steps != [] {
      assert GroupFixed(steps[0], scope, fixed);
      StepKeepsWellFormed(l, w, steps[0]);
      StepKeepsGroups(l, w, steps[0], scope, fixed);
      StepKeepsLedger(l, w, steps[0], scope, fixed);
      RunKeepsLedger(l, Next(l, w, steps[0]), steps[1..], scope, fixed);
    }
  }

  /**
   Never under-counted: after any run, whatever the interleaving of executions, reports, failures,
   settlements and (overlapping, late or repeated) polls, the true open contracts of a ticker, event
   or fixed group are at most what the gate computes plus the fills executed but not yet recorded.
   */
  lemma NeverUnderCounted(l: Limits, w: World, steps: seq<Step>, scope: Scope, fixed: map<Ticker, Group>)
    requires Legal(l, w, steps) && GroupsFixed(steps, scope, fixed) && Capped(scope)
    requires Start(w, scope, fixed)
    ensures var after := Run(l, w, steps);
            && Open(after.book, scope, fixed)
               <= Baseline(after.gate, scope) + FilledSince(AllFills(after), scope, after.gate.reconciledAt)
                  + Total(Unrecorded, after.orders, scope, fixed)
            && (Fresh(after, after.now) ==>
                  Open(after.book, scope, fixed)
                  <= Position(after.gate, scope, after.now) + Total(Unrecorded, after.orders, scope, fixed))
  {
    RunKeepsLedger(l, w, steps, scope, fixed);
    var after := Run(l, w, steps);
    if Fresh(after, after.now) {
      PositionIsLedger(after, scope, after.now);
    }
  }

  // ---- The exposure bound --------------------------------------------------------------------

  /** True open contracts of a scope plus everything its unexecuted orders may still add. */
  function ExposureOf(w: World, scope: Scope, fixed: map<Ticker, Group>): real {
    Open(w.book, scope, fixed) + Total(Unexecuted, w.orders, scope, fixed)
  }

  predicate WithinCap(l: Limits, orders: seq<Order>, scope: Scope, fixed: map<Ticker, Group>) {
    forall o | o in orders && Live(o) && In(scope, o.ticker, fixed) :: o.count as real <= Cap(l, scope)
  }

  predicate BoundInv(l: Limits, w: World, start: real, scope: Scope, fixed: map<Ticker, Group>) {
    && w.gate.inFlight == LiveOrders(w.orders)
    && WithinCap(l, w.orders, scope, fixed)
    && ExposureOf(w, scope, fixed)
       <= RMax(start, Caps(l.concurrentDispatches, Cap(l, scope))) + Total(AdriftCount, w.orders, scope, fixed)
  }

  /** `n` caps, none when `n` is not positive. */
  function Caps(n: int, cap: real): real {
    if n <= 0 then 0.0 else Caps(n - 1, cap) + cap
  }

  lemma {:induction false} CapsAreProduct(n: nat, cap: real)
    ensures Caps(n, cap) == n as real * cap
  {
    if n > 0 {
      CapsAreProduct(n - 1, cap);
      assert n as real * cap == (n - 1) as real * cap + cap;
    }
  }

  lemma {:induction false} FreeSlot(used: nat, slots: int, cap: real)
    requires used < slots && cap >= 0.0
    ensures Caps(used, cap) + cap <= Caps(slots, cap)
  {
    if used < slots - 1 {
      FreeSlot(used, slots - 1, cap);
    }
  }

  /** What unresolved orders have filled or may fill: one cap for each in flight, plus the adrift ones. */
  lemma {:induction false} UnresolvedWithinCaps(orders: seq<Order>, cap: real, scope: Scope, fixed: map<Ticker, Group>)
    requires forall o | o in orders && Live(o) && In(scope, o.ticker, fixed) :: o.count as real <= cap
    requires cap >= 0.0 && forall o | o in orders :: Sound(o)
    ensures Total(Unexecuted, orders, scope, fixed) + Total(Unrecorded, orders, scope, fixed)
            <= Caps(LiveOrders(orders), cap) + Total(AdriftCount, orders, scope, fixed)
  {
    if orders != [] {
      var rest := orders[..|orders| - 1];
      var last := orders[|orders| - 1];
      assert last in orders && Sound(last);
      UnresolvedWithinCaps(rest, cap, scope, fixed);
      assert Weigh(Unexecuted, last) + Weigh(Unrecorded, last)
             <= (if Live(last) then last.count as real else 0.0) + Weigh(AdriftCount, last);
    }
  }

  /** An admitted request fits: one dispatch slot was free, and its scopes had room for its count. */
  lemma AdmittedFits(l: Limits, w: World, r: Request, now: int, scope: Scope, fixed: map<Ticker, Group>)
    requires w.now <= now && WellFormed(w) && Fresh(w, now) && Capped(scope)
    requires Admits(l, w, r, now) && In(scope, r.ticker, fixed)
    requires scope.OfGroup? ==> r.group == Get(fixed, r.ticker, "")
    ensures w.gate.inFlight < l.concurrentDispatches
    ensures Baseline(w.gate, scope) + FilledSince(AllFills(w), scope, w.gate.reconciledAt) + r.count as real
            <= Cap(l, scope)
  {
    CheckedMovesExpired(l, w, r, now);
    PositionIsLedger(Checked(l, w, r, now), scope, now);
  }

  lemma StepExposure(l: Limits, w: World, s: Step, scope: Scope, fixed: map<Ticker, Group>)
    requires Enabled(w, s) && WellFormed(w) && !s.Wake?
    ensures var after := Next(l, w, s);
            ExposureOf(after, scope, fixed) - Total(AdriftCount, after.orders, scope, fixed)
            <= ExposureOf(w, scope, fixed) - Total(AdriftCount, w.orders, scope, fixed)
  {
    OpenGrowth(l, w, s, scope, fixed);
    if s.Execute? || s.Report? || s.Fail? {
      var phase := Next(l, w, s).orders[s.order].phase;
      assert Sound(w.orders[s.order]);
      TotalUpdate(Unexecuted, w.orders, s.order, phase, scope, fixed);
      TotalUpdate(AdriftCount, w.orders, s.order, phase, scope, fixed);
    }
  }

  lemma StepKeepsSlots(l: Limits, w: World, s: Step, scope: Scope, fixed: map<Ticker, Group>)
    requires Enabled(w, s) && WellFormed(w) && !s.Wake?
    requires w.gate.inFlight == LiveOrders(w.orders) && WithinCap(l, w.orders, scope, fixed)
    ensures Next(l, w, s).gate.inFlight == LiveOrders(Next(l, w, s).orders)
    ensures WithinCap(l, Next(l, w, s).orders, scope, fixed)
  {
    if s.Execute? || s.Report? || s.Fail? {
      LiveUpdate(w.orders, s.order, Next(l, w, s).orders[s.order].phase);
      assert w.orders[s.order] in w.orders;
      if Live(w.orders[s.order]) {
        LiveMeansPositive(w.orders, s.order);
      }
    }
  }

  /** At the moment a wake is admitted there is room for all of it under the slots times the cap. */
  lemma AdmissionExposure(l: Limits, w: World, r: Request, now: int, scope: Scope, fixed: map<Ticker, Group>)
    requires w.now <= now && WellFormed(w) && Fresh(w, now) && Capped(scope) && LedgerInv(w, scope, fixed)
    requires Admits(l, w, r, now) && In(scope, r.ticker, fixed) && r.count >= 1
    requires scope.OfGroup? ==> r.group == Get(fixed, r.ticker, "")
    requires w.gate.inFlight == LiveOrders(w.orders) && WithinCap(l, w.orders, scope, fixed)
    ensures r.count as real <= Cap(l, scope)
    ensures ExposureOf(w, scope, fixed) + r.count as real
            <= Caps(l.concurrentDispatches, Cap(l, scope)) + Total(AdriftCount, w.orders, scope, fixed)
  {
    AdmittedFits(l, w, r, now, scope, fixed);
    FilledNonNegative(AllFills(w), scope, w.gate.reconciledAt);
    UnresolvedWithinCaps(w.orders, Cap(l, scope), scope, fixed);
    FreeSlot(LiveOrders(w.orders), l.concurrentDispatches, Cap(l, scope));
  }

  lemma AppendKeepsBound(l: Limits, w: World, after: World, o: Order, start: real, scope: Scope,
                         fixed: map<Ticker, Group>)
    requires BoundInv(l, w, start, scope, fixed)
    requires after.orders == w.orders + [o] && o.phase.Sent? && after.book == w.book
    requires after.gate.inFlight == w.gate.inFlight + 1
    requires In(scope, o.ticker, fixed) ==>
               && o.count as real <= Cap(l, scope)
               && ExposureOf(w, scope, fixed) + o.count as real
                  <= Caps(l.concurrentDispatches, Cap(l, scope)) + Total(AdriftCount, w.orders, scope, fixed)
    ensures BoundInv(l, after, start, scope, fixed)
  {
    assert after.orders[..|w.orders|] == w.orders;
    TotalAppend(Unexecuted, w.orders, o, scope, fixed);
    TotalAppend(AdriftCount, w.orders, o, scope, fixed);
  }

  lemma WakeKeepsBound(l: Limits, w: World, s: Step, start: real, scope: Scope, fixed: map<Ticker, Group>)
    requires s.Wake? && Enabled(w, s) && WellFormed(w) && Capped(scope) && LedgerInv(w, scope, fixed)
    requires GroupFixed(s, scope, fixed) && Fresh(w, s.checkedAt)
    requires BoundInv(l, w, start, scope, fixed)
    ensures BoundInv(l, Next(l, w, s), start, scope, fixed)
  {
    var r := s.request;
    CheckedMovesExpired(l, w, r, s.checkedAt);
    if Admits(l, w, r, s.checkedAt) {
      if In(scope, r.ticker, fixed) {
        AdmissionExposure(l, w, r, s.checkedAt, scope, fixed);
      }
      AppendKeepsBound(l, w, Next(l, w, s), Order(r.ticker, r.direction, r.count, Sent), start, scope, fixed);
    }
  }

  lemma StepKeepsBound(l: Limits, w: World, s: Step, start: real, scope: Scope, fixed: map<Ticker, Group>)
    requires Enabled(w, s) && WellFormed(w) && Capped(scope) && LedgerInv(w, scope, fixed)
    requires GroupFixed(s, scope, fixed) && (s.Wake? ==> Fresh(w, s.checkedAt))
    requires BoundInv(l, w, start, scope, fixed)
    ensures BoundInv(l, Next(l, w, s), start, scope, fixed)
  {
    if s.Wake? {
      WakeKeepsBound(l, w, s, start, scope, fixed);
    } else {
      StepExposure(l, w, s, scope, fixed);
      StepKeepsSlots(l, w, s, scope, fixed);
    }
  }

  /** At every check of the run, each unreconciled fill is less than 24 hours old. */
  predicate FreshThroughout(l: Limits, w: World, steps: seq<Step>)
    requires Legal(l, w, steps)
    decreases |steps|
  {
    steps == []
    || ((steps[0].Wake? ==> Fresh(w, steps[0].checkedAt)) && FreshThroughout(l, Next(l, w, steps[0]), steps[1..]))
  }

  lemma {:induction false} RunKeepsBound(l: Limits, w: World, steps: seq<Step>, start: real, scope: Scope,
                                         fixed: map<Ticker, Group>)
    requires Legal(l, w, steps) && GroupsFixed(steps, scope, fixed) && FreshThroughout(l, w, steps) && Capped(scope)
    requires WellFormed(w) && GroupsKnown(w, scope, fixed) && LedgerInv(w, scope, fixed)
    requires BoundInv(l, w, start, scope, fixed)
    ensures BoundInv(l, Run(l, w, steps), start, scope, fixed)
    decreases |steps|
  {
    if steps != [] {
      assert GroupFixed(steps[0], scope, fixed);
      StepKeepsBound(l, w, steps[0], start, scope, fixed);
      StepKeepsWellFormed(l, w, steps[0]);
      StepKeepsGroups(l, w, steps[0], scope, fixed);
      StepKeepsLedger(l, w, steps[0], scope, fixed);
      RunKeepsBound(l, Next(l, w, steps[0]), steps[1..], start, scope, fixed);
    }
  }

  /** The most a scope may be exposed to: its position cap for each dispatch allowed in flight. */
  function Allowance(l: Limits, scope: Scope): real {
    l.concurrentDispatches as real * Cap(l, scope)
  }

  /**
   The exposure bound: after any run, the true open contracts of a ticker, event or fixed group, plus
   the counts of its orders not yet executed, never exceed what was open at the start or the number of
   dispatches allowed in flight times the position cap, whichever is larger, plus the counts of the
   orders whose dispatch ended in an exception without it being known that they filled nothing.
   */
  lemma ExposureBounded(l: Limits, w: World, steps: seq<Step>, scope: Scope, fixed: map<Ticker, Group>)
    requires Legal(l, w, steps) && GroupsFixed(steps, scope, fixed) && FreshThroughout(l, w, steps) && Capped(scope)
    requires Start(w, scope, fixed)
    ensures var after := Run(l, w, steps);
            ExposureOf(after, scope, fixed)
            <= RMax(Open(w.book, scope, fixed), Allowance(l, scope))
               + Total(AdriftCount, after.orders, scope, fixed)
  {
    OpenNonNegative(w.book, scope, fixed);
    RunKeepsBound(l, w, steps, Open(w.book, scope, fixed), scope, fixed);
    CapsWithin(l, Open(w.book, scope, fixed), scope);
  }

  /** At every check of the run, the last reconciliation is at most 24 hours old. */
  predicate ReconciledThroughout(l: Limits, w: World, steps: seq<Step>)
    requires Legal(l, w, steps)
    decreases |steps|
  {
    steps == []
    || ((steps[0].Wake? ==> w.gate.reconciledAt >= steps[0].checkedAt - DAY_MS)
        && ReconciledThroughout(l, Next(l, w, steps[0]), steps[1..]))
  }

  lemma {:induction false} ReconcilingKeepsFresh(l: Limits, w: World, steps: seq<Step>)
    requires Legal(l, w, steps) && ReconciledThroughout(l, w, steps)
    ensures FreshThroughout(l, w, steps)
    decreases |steps|
  {
    if steps != [] {
      ReconcilingKeepsFresh(l, Next(l, w, steps[0]), steps[1..]);
    }
  }

  /** The same bound, under a condition that can be read off the gate before each check. */
  lemma ReconcilingBoundsExposure(l: Limits, w: World, steps: seq<Step>, scope: Scope, fixed: map<Ticker, Group>)
    requires Legal(l, w, steps) && GroupsFixed(steps, scope, fixed) && Capped(scope)
    requires ReconciledThroughout(l, w, steps) && Start(w, scope, fixed)
    ensures var after := Run(l, w, steps);
            ExposureOf(after, scope, fixed)
            <= RMax(Open(w.book, scope, fixed), Allowance(l, scope))
               + Total(AdriftCount, after.orders, scope, fixed)
  {
    ReconcilingKeepsFresh(l, w, steps);
    ExposureBounded(l, w, steps, scope, fixed);
  }

  lemma CapsWithin(l: Limits, start: real, scope: Scope)
    requires start >= 0.0
    ensures RMax(start, Caps(l.concurrentDispatches, Cap(l, scope))) <= RMax(start, Allowance(l, scope))
  {
    if l.concurrentDispatches >= 0 {
      CapsAreProduct(l.concurrentDispatches, Cap(l, scope));
    }
  }

  lemma {:induction false} OpenNonNegative(book: seq<Holding>, scope: Scope, fixed: map<Ticker, Group>)
    ensures Open(book, scope, fixed) >= 0.0
  {
    if book != [] {
      OpenNonNegative(book[..|book| - 1], scope, fixed);
    }
  }
}
