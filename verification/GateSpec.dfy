/**
 The risk gate as functions on a value: what each of its operations leaves behind, and what it
 answers. `RiskGate` (the class) is proved against these functions; the other modules prove what
 whole runs of them keep. Times are epoch milliseconds, money and contracts are reals.
 */
module GateSpec {
  import opened Numbers
  import opened Wrappers
  import opened Orders

  const HOUR_MS: int := 3_600_000
  const DAY_MS: int := 86_400_000

  type Ticker = string
  type Group = string  // "" is the unknown group

  datatype Limits = Limits(
    allowedShards: set<int>,
    attemptsPerHour: int,
    attemptsPerDay: int,
    attemptsPerTicker: int,
    notionalPerDay: real,
    concurrentDispatches: int,
    contractsPerTicker: real,
    attemptsPerGroup: int,
    contractsPerGroup: real,
    attemptsPerEvent: int,
    contractsPerEvent: real,
    cooldownMs: real)

  datatype Attempt = Attempt(at: int, ticker: Ticker, group: Group, notional: real)
  datatype Fill = Fill(at: int, ticker: Ticker, group: Group, count: real)

  datatype Gate = Gate(
    attempts: seq<Attempt>,
    fills: seq<Fill>,
    lastAttempt: map<(Ticker, Direction), int>,
    groupOf: map<Ticker, Group>,
    byTicker: map<Ticker, real>,
    byEvent: map<Ticker, real>,
    byGroup: map<Group, real>,
    reconciledAt: int,
    inFlight: int)

  const EMPTY_GATE := Gate([], [], map[], map[], map[], map[], map[], 0, 0)

  datatype Request = Request(
    ticker: Ticker, direction: Direction, shard: int, count: int, price: real, group: Group)

  /** Dollars one attempt is charged against the daily notional cap. */
  function Cost(r: Request): real { r.count as real * r.price }

  datatype Rejection =
    | ShardNotAllowed | TooManyInFlight | Cooldown
    | HourCap | DayCap | TickerCap | EventCap | GroupCap | NotionalCap
    | TickerPosition | EventPosition | GroupPosition

  // ---- Tickers -------------------------------------------------------------------------------

  function LastDash(ticker: Ticker): (i: int)
    ensures -1 <= i < |ticker|
    ensures 0 <= i ==> ticker[i] == '-'
    ensures forall k | i < k < |ticker| :: ticker[k] != '-'
  {
    if ticker == [] then -1
    else if ticker[|ticker| - 1] == '-' then |ticker| - 1
    else LastDash(ticker[..|ticker| - 1])
  }

  /** The event a market ticker belongs to: everything before its last dash. */
  function EventOf(ticker: Ticker): Ticker {
    var i := LastDash(ticker);
    if i < 0 then ticker else ticker[..i]
  }

  /** Every strike of one event maps back to that event, and a bare event maps to itself. */
  lemma StrikesShareTheirEvent(event: Ticker, strike: string)
    requires '-' !in strike
    ensures EventOf(event + "-" + strike) == event
    ensures EventOf(strike) == strike
  {
    var ticker := event + "-" + strike;
    var i := LastDash(ticker);
    assert ticker[|event|] == '-';
    assert forall k | |event| < k < |ticker| :: ticker[k] == strike[k - |event| - 1];
    assert i == |event|;
    assert ticker[..i] == event;
  }

  // ---- Scopes: what a cap is counted over ----------------------------------------------------

  datatype Scope = Anything | OfTicker(ticker: Ticker) | OfEvent(event: Ticker) | OfGroup(group: Group)

  predicate Covers(scope: Scope, ticker: Ticker, group: Group) {
    match scope
    case Anything => true
    case OfTicker(t) => ticker == t
    case OfEvent(e) => EventOf(ticker) == e
    case OfGroup(g) => group == g
  }

  function Count(attempts: seq<Attempt>, scope: Scope): nat {
    if attempts == [] then 0
    else (if Covers(scope, attempts[0].ticker, attempts[0].group) then 1 else 0) + Count(attempts[1..], scope)
  }

  function Notional(attempts: seq<Attempt>): real {
    if attempts == [] then 0.0 else attempts[0].notional + Notional(attempts[1..])
  }

  /** The attempts stamped at `floor` or later, in order. */
  function Since(attempts: seq<Attempt>, floor: int): seq<Attempt> {
    if attempts == [] then []
    else if attempts[0].at >= floor then [attempts[0]] + Since(attempts[1..], floor)
    else Since(attempts[1..], floor)
  }

  /** Contracts filled within `scope` at `floor` or later. */
  function FilledSince(fills: seq<Fill>, scope: Scope, floor: int): real {
    if fills == [] then 0.0
    else
      (if Covers(scope, fills[0].ticker, fills[0].group) && fills[0].at >= floor then fills[0].count else 0.0)
      + FilledSince(fills[1..], scope, floor)
  }

  // ---- Pruning -------------------------------------------------------------------------------

  function DropOldAttempts(attempts: seq<Attempt>, floor: int): seq<Attempt> {
    if attempts != [] && attempts[0].at < floor then DropOldAttempts(attempts[1..], floor) else attempts
  }

  function DropOldFills(fills: seq<Fill>, floor: int): seq<Fill> {
    if fills != [] && fills[0].at < floor then DropOldFills(fills[1..], floor) else fills
  }

  function Prune(g: Gate, now: int): Gate {
    g.(attempts := DropOldAttempts(g.attempts, now - DAY_MS), fills := DropOldFills(g.fills, now - DAY_MS))
  }

  // ---- Positions -----------------------------------------------------------------------------

  function Baseline(g: Gate, scope: Scope): real {
    match scope
    case Anything => 0.0
    case OfTicker(t) => Get(g.byTicker, t, 0.0)
    case OfEvent(e) => Get(g.byEvent, e, 0.0)
    case OfGroup(k) => Get(g.byGroup, k, 0.0)
  }

  /** Open contracts the gate believes in: the reconciled baseline plus the fills not yet confirmed. */
  function Position(g: Gate, scope: Scope, now: int): real {
    Baseline(g, scope) + FilledSince(g.fills, scope, Max(g.reconciledAt, now - DAY_MS))
  }

  // ---- The decision --------------------------------------------------------------------------

  predicate CoolingDown(l: Limits, g: Gate, r: Request, now: int) {
    (r.ticker, r.direction) in g.lastAttempt
    && (now - g.lastAttempt[(r.ticker, r.direction)]) as real < l.cooldownMs
  }

  function EarlyVerdict(l: Limits, g: Gate, r: Request, now: int): Option<Rejection> {
    if r.shard !in l.allowedShards then Some(ShardNotAllowed)
    else if g.inFlight >= l.concurrentDispatches then Some(TooManyInFlight)
    else if CoolingDown(l, g, r, now) then Some(Cooldown)
    else None
  }

  function AttemptVerdict(l: Limits, g: Gate, r: Request, now: int): Option<Rejection> {
    if |Since(g.attempts, now - HOUR_MS)| >= l.attemptsPerHour then Some(HourCap)
    else if |g.attempts| >= l.attemptsPerDay then Some(DayCap)
    else if Count(g.attempts, OfTicker(r.ticker)) >= l.attemptsPerTicker then Some(TickerCap)
    else if Count(g.attempts, OfEvent(EventOf(r.ticker))) >= l.attemptsPerEvent then Some(EventCap)
    else if r.group != "" && Count(g.attempts, OfGroup(r.group)) >= l.attemptsPerGroup then Some(GroupCap)
    else if Notional(g.attempts) + Cost(r) > l.notionalPerDay then Some(NotionalCap)
    else None
  }

  function PositionVerdict(l: Limits, g: Gate, r: Request, now: int): Option<Rejection> {
    var count := r.count as real;
    if Position(g, OfTicker(r.ticker), now) + count > l.contractsPerTicker then Some(TickerPosition)
    else if Position(g, OfEvent(EventOf(r.ticker)), now) + count > l.contractsPerEvent then Some(EventPosition)
    else if r.group != "" && Position(g, OfGroup(r.group), now) + count > l.contractsPerGroup then Some(GroupPosition)
    else None
  }

  /** The state a check leaves behind and its answer; only a check that gets past the early refusals prunes. */
  function Decide(l: Limits, g: Gate, r: Request, now: int): (Gate, Option<Rejection>) {
    var early := EarlyVerdict(l, g, r, now);
    if early.Some? then (g, early)
    else
      var pruned := Prune(g, now);
      var verdict := AttemptVerdict(l, pruned, r, now);
      (pruned, if verdict.Some? then verdict else PositionVerdict(l, pruned, r, now))
  }

  // ---- The other operations ------------------------------------------------------------------

  function RecordAttempt(g: Gate, r: Request, now: int): Gate {
    g.(attempts := g.attempts + [Attempt(now, r.ticker, r.group, Cost(r))],
       lastAttempt := g.lastAttempt[(r.ticker, r.direction) := now],
       groupOf := if r.group != "" then g.groupOf[r.ticker := r.group] else g.groupOf)
  }

  function RecordFill(g: Gate, ticker: Ticker, count: real, now: int): Gate {
    if count <= 0.0 then g
    else g.(fills := g.fills + [Fill(now, ticker, Get(g.groupOf, ticker, ""), count)])
  }

  function BeginDispatch(g: Gate): Gate { g.(inFlight := g.inFlight + 1) }

  function EndDispatch(g: Gate): Gate { g.(inFlight := Max(0, g.inFlight - 1)) }

  /** One admitted wake, all in one atomic step: recorded at `now`, then marked in flight. */
  function Admit(g: Gate, r: Request, now: int): Gate { BeginDispatch(RecordAttempt(g, r, now)) }

  // ---- Reconciliation ------------------------------------------------------------------------

  /** The open positions of one poll, in the order the mapping lists them. */
  type Positions = seq<(Ticker, real)>

  function TickersIn(positions: Positions): set<Ticker> {
    if positions == [] then {} else TickersIn(positions[..|positions| - 1]) + {positions[|positions| - 1].0}
  }

  /** A poll's mapping lists each ticker once. */
  predicate DistinctTickers(positions: Positions) {
    positions == []
    || (DistinctTickers(positions[..|positions| - 1])
        && positions[|positions| - 1].0 !in TickersIn(positions[..|positions| - 1]))
  }

  function ByTicker(positions: Positions): map<Ticker, real> {
    if positions == [] then map[]
    else
      var n := |positions| - 1;
      ByTicker(positions[..n])[positions[n].0 := positions[n].1]
  }

  function ByEvent(positions: Positions): map<Ticker, real> {
    if positions == [] then map[]
    else
      var n := |positions| - 1;
      var rest := ByEvent(positions[..n]);
      var event := EventOf(positions[n].0);
      rest[event := Get(rest, event, 0.0) + positions[n].1]
  }

  /** Per known group; the unknown one has no total. */
  function ByGroup(positions: Positions, groupOf: map<Ticker, Group>): (totals: map<Group, real>)
    ensures "" !in totals
  {
    if positions == [] then map[]
    else
      var n := |positions| - 1;
      var rest := ByGroup(positions[..n], groupOf);
      var group := Get(groupOf, positions[n].0, "");
      if group == "" then rest else rest[group := Get(rest, group, 0.0) + positions[n].1]
  }

  function Reconcile(g: Gate, positions: Positions, snapshotAt: int): Gate {
    g.(byTicker := ByTicker(positions),
       byEvent := ByEvent(positions),
       byGroup := ByGroup(positions, g.groupOf),
       reconciledAt := snapshotAt)
  }

  // ---- Warm start ----------------------------------------------------------------------------

  function RowGroup(row: OrderRow): Group { if row.group.Some? then row.group.value else "" }

  function RowAttempt(row: OrderRow): Attempt {
    Attempt(row.requestedAt, row.ticker, RowGroup(row), AsFloat(row.count) * AsFloat(row.price))
  }

  /** What one row of the audit trail adds to the gate being rebuilt. */
  function Replay(g: Gate, row: OrderRow): Gate {
    var key := (row.ticker, row.side);
    var replayed := g.(
      attempts := g.attempts + [RowAttempt(row)],
      lastAttempt := g.lastAttempt[key := Max(Get(g.lastAttempt, key, 0), row.requestedAt)],
      groupOf := if RowGroup(row) != "" then g.groupOf[row.ticker := RowGroup(row)] else g.groupOf);
    if row.fillCount.Some? && AsFloat(row.fillCount.value) > 0.0 then
      replayed.(fills := replayed.fills
                         + [Fill(row.requestedAt, row.ticker, RowGroup(row), AsFloat(row.fillCount.value))])
    else replayed
  }

  function WarmStart(rows: seq<OrderRow>): Gate {
    if rows == [] then EMPTY_GATE else Replay(WarmStart(rows[..|rows| - 1]), rows[|rows| - 1])
  }

  // ---- Lemmas about the sums -----------------------------------------------------------------

  lemma {:induction false} CountConcat(a: seq<Attempt>, b: seq<Attempt>, scope: Scope)
    ensures Count(a + b, scope) == Count(a, scope) + Count(b, scope)
  {
    if a == [] {
      assert a + b == b;
    } else {
      assert (a + b)[1..] == a[1..] + b;
      CountConcat(a[1..], b, scope);
    }
  }

  lemma {:induction false} NotionalConcat(a: seq<Attempt>, b: seq<Attempt>)
    ensures Notional(a + b) == Notional(a) + Notional(b)
  {
    if a == [] {
      assert a + b == b;
    } else {
      assert (a + b)[1..] == a[1..] + b;
      NotionalConcat(a[1..], b);
    }
  }

  lemma {:induction false} SinceConcat(a: seq<Attempt>, b: seq<Attempt>, floor: int)
    ensures Since(a + b, floor) == Since(a, floor) + Since(b, floor)
  {
    if a == [] {
      assert a + b == b;
    } else {
      SinceConcat(a[1..], b, floor);
      assert (a + b)[1..] == a[1..] + b;
      assert [a[0]] + (Since(a[1..], floor) + Since(b, floor)) == ([a[0]] + Since(a[1..], floor)) + Since(b, floor);
    }
  }

  lemma {:induction false} FilledConcat(a: seq<Fill>, b: seq<Fill>, scope: Scope, floor: int)
    ensures FilledSince(a + b, scope, floor) == FilledSince(a, scope, floor) + FilledSince(b, scope, floor)
  {
    if a == [] {
      assert a + b == b;
    } else {
      assert (a + b)[1..] == a[1..] + b;
      FilledConcat(a[1..], b, scope, floor);
    }
  }

  /** Pruning removes a prefix of expired fills, so no sum over a live window can tell the difference. */
  lemma {:induction false} DropOldFillsKeepsWindows(fills: seq<Fill>, floor: int) returns (dropped: seq<Fill>)
    ensures fills == dropped + DropOldFills(fills, floor)
    ensures forall f | f in dropped :: f.at < floor
  {
    if fills != [] && fills[0].at < floor {
      var rest := DropOldFillsKeepsWindows(fills[1..], floor);
      dropped := [fills[0]] + rest;
      assert fills == [fills[0]] + fills[1..];
    } else {
      dropped := [];
    }
  }

  lemma {:induction false} ExpiredFillsCountNothing(fills: seq<Fill>, scope: Scope, floor: int)
    requires forall f | f in fills :: f.at < floor
    ensures FilledSince(fills, scope, floor) == 0.0
  {
    if fills != [] {
      assert fills[0] in fills;
      assert forall f | f in fills[1..] :: f in fills;
      ExpiredFillsCountNothing(fills[1..], scope, floor);
    }
  }
}
