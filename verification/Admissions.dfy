/**
 What the gate answers, against a reference that looks at its whole memory: every cap is a figure over the
 attempts, fills and positions of the last hour or day, and the answer is the first cap without room.
 */
module Admissions {
  import opened Wrappers
  import opened GateSpec
  import opened RollingWindow

  // ---- The reference -------------------------------------------------------------------------

  /** The attempts stamped no more than `span` before `now`, by their places. */
  function Lately(g: Gate, now: int, span: int): set<nat> {
    set i: nat | i < |g.attempts| && g.attempts[i].at >= now - span
  }

  function Spent(attempts: seq<Attempt>, floor: int): real {
    if attempts == [] then 0.0
    else
      var last := attempts[|attempts| - 1];
      Spent(attempts[..|attempts| - 1], floor) + if last.at >= floor then last.notional else 0.0
  }

  /** Contracts filled in a scope at `floor` or later. */
  function Bought(fills: seq<Fill>, scope: Scope, floor: int): real {
    if fills == [] then 0.0
    else
      var last := fills[|fills| - 1];
      Bought(fills[..|fills| - 1], scope, floor)
      + if Covers(scope, last.ticker, last.group) && last.at >= floor then last.count else 0.0
  }

  /** Where unreconciled fills begin to count. */
  function FillsFrom(g: Gate, now: int): int {
    if g.reconciledAt >= now - DAY_MS then g.reconciledAt else now - DAY_MS
  }

  /** A cap has no room for the request. */
  predicate Full(l: Limits, g: Gate, r: Request, now: int, cap: Rejection) {
    var today, count := Lately(g, now, DAY_MS), r.count as real;
    match cap
    case ShardNotAllowed => r.shard !in l.allowedShards
    case TooManyInFlight => l.concurrentDispatches <= g.inFlight
    case Cooldown =>
      (r.ticker, r.direction) in g.lastAttempt
      && now as real < g.lastAttempt[(r.ticker, r.direction)] as real + l.cooldownMs
    case HourCap => l.attemptsPerHour <= |Lately(g, now, HOUR_MS)|
    case DayCap => l.attemptsPerDay <= |today|
    case TickerCap => l.attemptsPerTicker <= |set i | i in today && g.attempts[i].ticker == r.ticker|
    case EventCap => l.attemptsPerEvent <= |set i | i in today && EventOf(g.attempts[i].ticker) == EventOf(r.ticker)|
    case GroupCap => r.group != "" && l.attemptsPerGroup <= |set i | i in today && g.attempts[i].group == r.group|
    case NotionalCap => l.notionalPerDay < Spent(g.attempts, now - DAY_MS) + r.count as real * r.price
    case TickerPosition =>
      l.contractsPerTicker
      < Get(g.byTicker, r.ticker, 0.0) + Bought(g.fills, OfTicker(r.ticker), FillsFrom(g, now)) + count
    case EventPosition =>
      l.contractsPerEvent
      < Get(g.byEvent, EventOf(r.ticker), 0.0)
        + Bought(g.fills, OfEvent(EventOf(r.ticker)), FillsFrom(g, now)) + count
    case GroupPosition =>
      r.group != ""
      && l.contractsPerGroup
         < Get(g.byGroup, r.group, 0.0) + Bought(g.fills, OfGroup(r.group), FillsFrom(g, now)) + count
  }

  /** The order in which the caps are looked at. */
  function Place(cap: Rejection): nat {
    match cap
    case ShardNotAllowed => 0
    case TooManyInFlight => 1
    case Cooldown => 2
    case HourCap => 3
    case DayCap => 4
    case TickerCap => 5
    case EventCap => 6
    case GroupCap => 7
    case NotionalCap => 8
    case TickerPosition => 9
    case EventPosition => 10
    case GroupPosition => 11
  }

  const CAPS: set<Rejection> := {
    ShardNotAllowed, TooManyInFlight, Cooldown, HourCap, DayCap, TickerCap, EventCap, GroupCap, NotionalCap,
    TickerPosition, EventPosition, GroupPosition}

  function FullCaps(l: Limits, g: Gate, r: Request, now: int): set<Rejection> {
    set cap | cap in CAPS && Full(l, g, r, now, cap)
  }

  /** The first of the caps that are full, or none when none is. */
  predicate First(full: set<Rejection>, answer: Option<Rejection>) {
    && (answer.None? <==> full == {})
    && (answer.Some? ==> answer.value in full && forall other | other in full :: Place(answer.value) <= Place(other))
  }

  // ---- The figures agree ---------------------------------------------------------------------

  function Places(attempts: seq<Attempt>, scope: Scope, floor: int): set<nat> {
    set i: nat | i < |attempts| && attempts[i].at >= floor && Covers(scope, attempts[i].ticker, attempts[i].group)
  }

  lemma OneMorePlace(attempts: seq<Attempt>, a: Attempt, scope: Scope, floor: int)
    ensures |Places(attempts + [a], scope, floor)|
            == |Places(attempts, scope, floor)| + if a.at >= floor && Covers(scope, a.ticker, a.group) then 1 else 0
  {
    var more := if a.at >= floor && Covers(scope, a.ticker, a.group) then {|attempts|} else {};
    assert Places(attempts + [a], scope, floor) == Places(attempts, scope, floor) + more;
  }

  lemma {:induction false} CountIsCardinality(attempts: seq<Attempt>, scope: Scope, floor: int)
    ensures Count(Since(attempts, floor), scope) == |Places(attempts, scope, floor)|
  {
    if attempts == [] {
      assert Places(attempts, scope, floor) == {};
    } else {
      var n := |attempts| - 1;
      CountIsCardinality(attempts[..n], scope, floor);
      assert attempts == attempts[..n] + [attempts[n]];
      SinceAppend(attempts[..n], attempts[n], floor, scope);
      OneMorePlace(attempts[..n], attempts[n], scope, floor);
    }
  }

  lemma {:induction false} NotionalIsSpent(attempts: seq<Attempt>, floor: int)
    ensures Notional(Since(attempts, floor)) == Spent(attempts, floor)
  {
    if attempts != [] {
      var n := |attempts| - 1;
      NotionalIsSpent(attempts[..n], floor);
      assert attempts == attempts[..n] + [attempts[n]];
      SinceAppend(attempts[..n], attempts[n], floor, Anything);
    }
  }

  lemma {:induction false} FilledIsBought(fills: seq<Fill>, scope: Scope, floor: int)
    ensures FilledSince(fills, scope, floor) == Bought(fills, scope, floor)
  {
    if fills != [] {
      var n := |fills| - 1;
      FilledIsBought(fills[..n], scope, floor);
      assert fills == fills[..n] + [fills[n]];
      FilledConcat(fills[..n], [fills[n]], scope, floor);
      assert [fills[n]][1..] == [];
    }
  }

  /** Pruning changes no figure over the last day. */
  lemma PrunedAttempts(g: Gate, now: int)
    requires Ordered(g.attempts, now)
    ensures Prune(g, now).attempts == Since(g.attempts, now - DAY_MS)
    ensures |Prune(g, now).attempts| == |Lately(g, now, DAY_MS)|
    ensures |Since(Prune(g, now).attempts, now - HOUR_MS)| == |Lately(g, now, HOUR_MS)|
  {
    OrderedPrune(g.attempts, now - DAY_MS);
    SinceTwice(g.attempts, now - DAY_MS, now - HOUR_MS);
    AllOf(g.attempts, now - DAY_MS);
    AllOf(g.attempts, now - HOUR_MS);
    assert Lately(g, now, DAY_MS) == Places(g.attempts, Anything, now - DAY_MS);
    assert Lately(g, now, HOUR_MS) == Places(g.attempts, Anything, now - HOUR_MS);
  }

  lemma AllOf(attempts: seq<Attempt>, floor: int)
    ensures |Since(attempts, floor)| == |Places(attempts, Anything, floor)|
  {
    CountIsCardinality(attempts, Anything, floor);
    CountAll(Since(attempts, floor));
  }

  lemma ScopedCount(g: Gate, scope: Scope, now: int)
    requires Ordered(g.attempts, now)
    ensures Count(Prune(g, now).attempts, scope) == |Places(g.attempts, scope, now - DAY_MS)|
  {
    PrunedAttempts(g, now);
    CountIsCardinality(g.attempts, scope, now - DAY_MS);
  }

  lemma TickerPlaces(g: Gate, ticker: Ticker, now: int)
    ensures (set i | i in Lately(g, now, DAY_MS) && g.attempts[i].ticker == ticker)
            == Places(g.attempts, OfTicker(ticker), now - DAY_MS)
  {
  }

  lemma EventPlaces(g: Gate, event: Ticker, now: int)
    ensures (set i | i in Lately(g, now, DAY_MS) && EventOf(g.attempts[i].ticker) == event)
            == Places(g.attempts, OfEvent(event), now - DAY_MS)
  {
  }

  lemma GroupPlaces(g: Gate, group: Group, now: int)
    ensures (set i | i in Lately(g, now, DAY_MS) && g.attempts[i].group == group)
            == Places(g.attempts, OfGroup(group), now - DAY_MS)
  {
  }

  /** A fill the pruning drops counts in no position. */
  lemma PrunedFills(g: Gate, now: int, scope: Scope)
    ensures FilledSince(Prune(g, now).fills, scope, FillsFrom(g, now)) == Bought(g.fills, scope, FillsFrom(g, now))
  {
    var kept := Prune(g, now).fills;
    var dropped := DropOldFillsKeepsWindows(g.fills, now - DAY_MS);
    assert forall f | f in dropped :: f.at < FillsFrom(g, now);
    ExpiredFillsCountNothing(dropped, scope, FillsFrom(g, now));
    FilledConcat(dropped, kept, scope, FillsFrom(g, now));
    FilledIsBought(g.fills, scope, FillsFrom(g, now));
  }

  // ---- The answer ----------------------------------------------------------------------------

  lemma EarlyIsFirst(l: Limits, g: Gate, r: Request, now: int)
    ensures EarlyVerdict(l, g, r, now)
            == if Full(l, g, r, now, ShardNotAllowed) then Some(ShardNotAllowed)
               else if Full(l, g, r, now, TooManyInFlight) then Some(TooManyInFlight)
               else if Full(l, g, r, now, Cooldown) then Some(Cooldown) else None
  {
  }

  lemma WindowsAreNext(l: Limits, g: Gate, r: Request, now: int)
    requires Ordered(g.attempts, now)
    ensures var pruned := Prune(g, now).attempts;
            && (|Since(pruned, now - HOUR_MS)| >= l.attemptsPerHour <==> Full(l, g, r, now, HourCap))
            && (|pruned| >= l.attemptsPerDay <==> Full(l, g, r, now, DayCap))
  {
    PrunedAttempts(g, now);
  }

  lemma ScopesAreNext(l: Limits, g: Gate, r: Request, now: int)
    requires Ordered(g.attempts, now)
    ensures var pruned := Prune(g, now).attempts;
            && (Count(pruned, OfTicker(r.ticker)) >= l.attemptsPerTicker <==> Full(l, g, r, now, TickerCap))
            && (Count(pruned, OfEvent(EventOf(r.ticker))) >= l.attemptsPerEvent <==> Full(l, g, r, now, EventCap))
            && (r.group != "" && Count(pruned, OfGroup(r.group)) >= l.attemptsPerGroup
                <==> Full(l, g, r, now, GroupCap))
  {
    ScopedCount(g, OfTicker(r.ticker), now);
    ScopedCount(g, OfEvent(EventOf(r.ticker)), now);
    ScopedCount(g, OfGroup(r.group), now);
    TickerPlaces(g, r.ticker, now);
    EventPlaces(g, EventOf(r.ticker), now);
    GroupPlaces(g, r.group, now);
  }

  lemma SpendingIsNext(l: Limits, g: Gate, r: Request, now: int)
    requires Ordered(g.attempts, now)
    ensures Notional(Prune(g, now).attempts) + Cost(r) > l.notionalPerDay <==> Full(l, g, r, now, NotionalCap)
  {
    PrunedAttempts(g, now);
    NotionalIsSpent(g.attempts, now - DAY_MS);
  }

  lemma AttemptsAreNext(l: Limits, g: Gate, r: Request, now: int)
    requires Ordered(g.attempts, now)
    ensures AttemptVerdict(l, Prune(g, now), r, now)
            == if Full(l, g, r, now, HourCap) then Some(HourCap)
               else if Full(l, g, r, now, DayCap) then Some(DayCap)
               else if Full(l, g, r, now, TickerCap) then Some(TickerCap)
               else if Full(l, g, r, now, EventCap) then Some(EventCap)
               else if Full(l, g, r, now, GroupCap) then Some(GroupCap)
               else if Full(l, g, r, now, NotionalCap) then Some(NotionalCap) else None
  {
    WindowsAreNext(l, g, r, now);
    ScopesAreNext(l, g, r, now);
    SpendingIsNext(l, g, r, now);
  }

  lemma PositionsAreLast(l: Limits, g: Gate, r: Request, now: int)
    ensures PositionVerdict(l, Prune(g, now), r, now)
            == if Full(l, g, r, now, TickerPosition) then Some(TickerPosition)
               else if Full(l, g, r, now, EventPosition) then Some(EventPosition)
               else if Full(l, g, r, now, GroupPosition) then Some(GroupPosition) else None
  {
    PrunedFills(g, now, OfTicker(r.ticker));
    PrunedFills(g, now, OfEvent(EventOf(r.ticker)));
    PrunedFills(g, now, OfGroup(r.group));
  }

  lemma FirstOfTwelve(full: set<Rejection>, answer: Option<Rejection>)
    requires full <= CAPS
    requires answer
             == if ShardNotAllowed in full then Some(ShardNotAllowed)
                else if TooManyInFlight in full then Some(TooManyInFlight)
                else if Cooldown in full then Some(Cooldown)
                else if HourCap in full then Some(HourCap)
                else if DayCap in full then Some(DayCap)
                else if TickerCap in full then Some(TickerCap)
                else if EventCap in full then Some(EventCap)
                else if GroupCap in full then Some(GroupCap)
                else if NotionalCap in full then Some(NotionalCap)
                else if TickerPosition in full then Some(TickerPosition)
                else if EventPosition in full then Some(EventPosition)
                else if GroupPosition in full then Some(GroupPosition) else None
    ensures First(full, answer)
  {
  }

  /**
   The gate admits a request exactly when every cap has room for it over its whole memory, and else names the
   first cap, in the order they are looked at, that has none.
   */
  lemma AnswerIsFirstFull(l: Limits, g: Gate, r: Request, now: int)
    requires Ordered(g.attempts, now)
    ensures First(FullCaps(l, g, r, now), Decide(l, g, r, now).1)
  {
    EarlyIsFirst(l, g, r, now);
    AttemptsAreNext(l, g, r, now);
    PositionsAreLast(l, g, r, now);
    FirstOfTwelve(FullCaps(l, g, r, now), Decide(l, g, r, now).1);
  }
}
