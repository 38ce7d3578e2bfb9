/**
 Rolling-window safety over whole runs of the gate, crashes included.

 A run is any sequence of the gate's operations under a clock that never goes backwards: wakes (a
 check and, when admitted, a record that reads the clock again), fills, reconciliations, ends of
 dispatches, and restarts that rebuild the gate from the stored orders. The `history` keeps every
 attempt ever made at its true time; the gate only has its pruned, possibly replayed, attempts, and a
 restart loses those that left no row.
 */
module RollingWindow {
  import opened Orders
  import opened GateSpec

  /**
   One attempt as it happened; `admitted` marks those this run's gate let through. `life` counts the restarts
   before it, and `stored` says that the restarts behind it find its row.
   */
  datatype Logged = Logged(attempt: Attempt, direction: Direction, admitted: bool, life: nat, stored: bool)

  datatype Session = Session(gate: Gate, now: int, life: nat, history: seq<Logged>)

  datatype Call =
    | Wake(request: Request, checkedAt: int, recordedAt: int, stored: bool)
    | Fill(ticker: Ticker, count: real, at: int)
    | Poll(positions: Positions, stamp: int)
    | End
    | Restart(table: seq<OrderRow>, rows: seq<OrderRow>, at: int)

  function Attempts(history: seq<Logged>): seq<Attempt> {
    if history == [] then []
    else Attempts(history[..|history| - 1]) + [history[|history| - 1].attempt]
  }

  /** An attempt of an earlier life that left no row is lost to a gate of this one. */
  predicate Forgotten(e: Logged, life: nat) { e.life < life && !e.stored }

  /** The attempts a gate of this life can know of. */
  function Known(history: seq<Logged>, life: nat): seq<Logged> {
    if history == [] then []
    else
      var rest := Known(history[..|history| - 1], life);
      if Forgotten(history[|history| - 1], life) then rest else rest + [history[|history| - 1]]
  }

  /** The attempts it cannot know of. */
  function Unknown(history: seq<Logged>, life: nat): seq<Logged> {
    if history == [] then []
    else
      var rest := Unknown(history[..|history| - 1], life);
      if Forgotten(history[|history| - 1], life) then rest + [history[|history| - 1]] else rest
  }

  // ---- The stored orders ---------------------------------------------------------------------

  function NotRejected(table: seq<OrderRow>): seq<OrderRow> {
    if table == [] then []
    else
      var last := table[|table| - 1];
      var rest := NotRejected(table[..|table| - 1]);
      if last.status.Rejected? then rest else rest + [last]
  }

  function Recent(rows: seq<OrderRow>, floor: int): seq<OrderRow> {
    if rows == [] then []
    else
      var last := rows[|rows| - 1];
      var rest := Recent(rows[..|rows| - 1], floor);
      if last.requestedAt >= floor then rest + [last] else rest
  }

  /** What the warm-start query returns: the non-rejected rows of the last 24 hours, oldest first. */
  predicate Selected(table: seq<OrderRow>, now: int, rows: seq<OrderRow>) {
    && multiset(rows) == multiset(Recent(NotRejected(table), now - DAY_MS))
    && forall i, j | 0 <= i < j < |rows| :: rows[i].requestedAt <= rows[j].requestedAt
  }

  /** A row records an attempt: same market, side and cost, stamped between the attempt and `now`. */
  predicate Records(row: OrderRow, entry: Logged, now: int) {
    && RowAttempt(row).ticker == entry.attempt.ticker
    && RowAttempt(row).group == entry.attempt.group
    && RowAttempt(row).notional == entry.attempt.notional
    && row.side == entry.direction
    && entry.attempt.at <= row.requestedAt <= now
  }

  /** Each of these attempts has exactly one non-rejected row, and no other is there; rejected ones may be between. */
  predicate Mirrors(table: seq<OrderRow>, history: seq<Logged>, now: int) {
    var kept := NotRejected(table);
    |kept| == |history| && forall i | 0 <= i < |kept| :: Records(kept[i], history[i], now)
  }

  // ---- Runs ----------------------------------------------------------------------------------

  predicate Enabled(s: Session, c: Call) {
    match c
    case Wake(r, checkedAt, recordedAt, _) => s.now <= checkedAt <= recordedAt && Cost(r) >= 0.0
    case Fill(_, _, at) => s.now <= at
    case Poll(_, _) => true
    case End => true
    case Restart(table, rows, at) =>
      s.now <= at && Selected(table, at, rows) && Mirrors(table, Known(s.history, s.life + 1), at)
  }

  function Admission(r: Request, at: int, life: nat, stored: bool): Logged {
    Logged(Attempt(at, r.ticker, r.group, Cost(r)), r.direction, true, life, stored)
  }

  function Next(l: Limits, s: Session, c: Call): Session {
    match c
    case Wake(r, checkedAt, recordedAt, stored) =>
      var (gate, verdict) := Decide(l, s.gate, r, checkedAt);
      if verdict.Some? then s.(gate := gate, now := checkedAt)
      else Session(Admit(gate, r, recordedAt), recordedAt, s.life,
                   s.history + [Admission(r, recordedAt, s.life, stored)])
    case Fill(ticker, count, at) => s.(gate := RecordFill(s.gate, ticker, count, at), now := at)
    case Poll(positions, stamp) => s.(gate := Reconcile(s.gate, positions, stamp))
    case End => s.(gate := EndDispatch(s.gate))
    case Restart(_, rows, at) => Session(WarmStart(rows), at, s.life + 1, s.history)
  }

  predicate Legal(l: Limits, s: Session, calls: seq<Call>)
    decreases |calls|
  {
    calls == [] || (Enabled(s, calls[0]) && Legal(l, Next(l, s, calls[0]), calls[1..]))
  }

  function Run(l: Limits, s: Session, calls: seq<Call>): Session
    decreases |calls|
  {
    if calls == [] then s else Run(l, Next(l, s, calls[0]), calls[1..])
  }

  // ---- Windows -------------------------------------------------------------------------------

  predicate Inside(entry: Logged, scope: Scope, from: int, to: int) {
    Covers(scope, entry.attempt.ticker, entry.attempt.group) && from <= entry.attempt.at <= to
  }

  /** The attempts of a scope in the closed window [from, to], oldest first. */
  function InWindow(history: seq<Logged>, scope: Scope, from: int, to: int): seq<Logged> {
    if history == [] then []
    else
      var last := history[|history| - 1];
      var rest := InWindow(history[..|history| - 1], scope, from, to);
      if Inside(last, scope, from, to) then rest + [last] else rest
  }

  function DayCapOf(l: Limits, scope: Scope): int {
    match scope
    case Anything => l.attemptsPerDay
    case OfTicker(_) => l.attemptsPerTicker
    case OfEvent(_) => l.attemptsPerEvent
    case OfGroup(_) => l.attemptsPerGroup
  }

  // ---- Lemmas about what is known ------------------------------------------------------------

  lemma KnownAppend(history: seq<Logged>, e: Logged, life: nat)
    ensures Known(history + [e], life) == Known(history, life) + if Forgotten(e, life) then [] else [e]
    ensures Unknown(history + [e], life) == Unknown(history, life) + if Forgotten(e, life) then [e] else []
  {
    assert (history + [e])[..|history|] == history;
  }

  lemma {:induction false} KnownIsLogged(history: seq<Logged>, life: nat)
    ensures forall e | e in Known(history, life) :: e in history
  {
    if history != [] {
      KnownIsLogged(history[..|history| - 1], life);
    }
  }

  lemma {:induction false} LoggedIsKnown(history: seq<Logged>, life: nat, e: Logged)
    requires e in history && !Forgotten(e, life)
    ensures e in Known(history, life)
  {
    if e != history[|history| - 1] {
      LoggedIsKnown(history[..|history| - 1], life, e);
    }
  }

  /** With a row for each attempt of an earlier life, nothing is lost. */
  lemma {:induction false} NothingUnknown(history: seq<Logged>, life: nat)
    requires forall e | e in history :: !Forgotten(e, life)
    ensures Unknown(history, life) == []
  {
    if history != [] {
      assert history[|history| - 1] in history;
      NothingUnknown(history[..|history| - 1], life);
    }
  }

  lemma {:induction false} KnownAndUnknown(history: seq<Logged>, life: nat)
    ensures |history| == |Known(history, life)| + |Unknown(history, life)|
    ensures Notional(Attempts(history)) == Notional(Attempts(Known(history, life)))
                                           + Notional(Attempts(Unknown(history, life)))
  {
    if history != [] {
      var rest := history[..|history| - 1];
      var last := history[|history| - 1];
      KnownAndUnknown(rest, life);
      assert rest + [last] == history;
      AppendNotional(rest, last);
      AppendNotional(if Forgotten(last, life) then Unknown(rest, life) else Known(rest, life), last);
    }
  }

  lemma AppendNotional(history: seq<Logged>, e: Logged)
    ensures Notional(Attempts(history + [e])) == Notional(Attempts(history)) + e.attempt.notional
  {
    assert (history + [e])[..|history|] == history;
    NotionalConcat(Attempts(history), [e.attempt]);
    assert [e.attempt][1..] == [];
  }

  // ---- Lemmas about counts -------------------------------------------------------------------

  lemma {:induction false} CountFloor(s: seq<Attempt>, scope: Scope, low: int, high: int)
    requires low <= high
    ensures Count(Since(s, high), scope) <= Count(Since(s, low), scope)
  {
    if s != [] {
      CountFloor(s[1..], scope, low, high);
      SinceHead(s, low);
      SinceHead(s, high);
      CountHead(s[0], Since(s[1..], low), scope);
      CountHead(s[0], Since(s[1..], high), scope);
    }
  }

  lemma SinceHead(s: seq<Attempt>, floor: int)
    requires s != []
    ensures Since(s, floor) == if s[0].at >= floor then [s[0]] + Since(s[1..], floor) else Since(s[1..], floor)
  {
  }

  lemma CountHead(a: Attempt, s: seq<Attempt>, scope: Scope)
    ensures Count([a] + s, scope) == (if Covers(scope, a.ticker, a.group) then 1 else 0) + Count(s, scope)
    ensures Notional([a] + s) == a.notional + Notional(s)
  {
    assert ([a] + s)[1..] == s;
  }

  lemma {:induction false} CountAll(s: seq<Attempt>)
    ensures Count(s, Anything) == |s|
  {
    if s != [] {
      CountAll(s[1..]);
    }
  }

  predicate Costly(s: seq<Attempt>) { forall a | a in s :: a.notional >= 0.0 }

  lemma {:induction false} NotionalFloor(s: seq<Attempt>, low: int, high: int)
    requires low <= high && Costly(s)
    ensures 0.0 <= Notional(Since(s, high)) <= Notional(Since(s, low))
  {
    if s != [] {
      assert s[0] in s;
      NotionalFloor(s[1..], low, high);
      SinceHead(s, low);
      SinceHead(s, high);
      CountHead(s[0], Since(s[1..], low), Anything);
      CountHead(s[0], Since(s[1..], high), Anything);
    }
  }

  /** Oldest first, nothing later than `now`: the state in which popping from the front prunes exactly. */
  predicate Ordered(s: seq<Attempt>, now: int) {
    && (forall i, j | 0 <= i < j < |s| :: s[i].at <= s[j].at)
    && (forall i | 0 <= i < |s| :: s[i].at <= now)
  }

  lemma {:induction false} OrderedPrune(s: seq<Attempt>, floor: int)
    requires forall i, j | 0 <= i < j < |s| :: s[i].at <= s[j].at
    ensures DropOldAttempts(s, floor) == Since(s, floor)
  {
    if s != [] {
      if s[0].at < floor {
        OrderedPrune(s[1..], floor);
        SinceHead(s, floor);
      } else {
        AllRecent(s, floor);
      }
    }
  }

  lemma {:induction false} PruneIsSuffix(s: seq<Attempt>, floor: int) returns (k: nat)
    ensures k <= |s| && DropOldAttempts(s, floor) == s[k..]
  {
    k := 0;
    if s != [] && s[0].at < floor {
      k := PruneIsSuffix(s[1..], floor);
      k := k + 1;
    }
  }

  lemma {:induction false} AllRecent(s: seq<Attempt>, floor: int)
    requires forall i | 0 <= i < |s| :: s[i].at >= floor
    ensures Since(s, floor) == s
  {
    if s != [] {
      assert s == [s[0]] + s[1..];
      AllRecent(s[1..], floor);
    }
  }

  lemma {:induction false} SinceTwice(s: seq<Attempt>, low: int, high: int)
    requires low <= high
    ensures Since(Since(s, low), high) == Since(s, high)
  {
    if s != [] {
      SinceTwice(s[1..], low, high);
      SinceHead(s, low);
      SinceHead(s, high);
      if s[0].at >= low {
        assert ([s[0]] + Since(s[1..], low))[1..] == Since(s[1..], low);
        SinceHead([s[0]] + Since(s[1..], low), high);
      }
    }
  }

  lemma SinceAppend(s: seq<Attempt>, a: Attempt, floor: int, scope: Scope)
    ensures Since(s + [a], floor) == Since(s, floor) + (if a.at >= floor then [a] else [])
    ensures Count(Since(s + [a], floor), scope)
            == Count(Since(s, floor), scope) + (if a.at >= floor && Covers(scope, a.ticker, a.group) then 1 else 0)
    ensures Notional(Since(s + [a], floor)) == Notional(Since(s, floor)) + (if a.at >= floor then a.notional else 0.0)
  {
    SinceConcat(s, [a], floor);
    assert [a][1..] == [];
    assert Since([a], floor) == if a.at >= floor then [a] else [];
    CountConcat(Since(s, floor), Since([a], floor), scope);
    NotionalConcat(Since(s, floor), Since([a], floor));
  }

  // ---- The gate dominates the history --------------------------------------------------------

  /** In every window that may still matter, the gate counts at least what really happened. */
  ghost predicate Dominates(gate: seq<Attempt>, truth: seq<Attempt>, scope: Scope, now: int) {
    && (forall floor | floor >= now - DAY_MS :: Count(Since(truth, floor), scope) <= Count(Since(gate, floor), scope))
    && (forall floor | floor >= now - DAY_MS :: Notional(Since(truth, floor)) <= Notional(Since(gate, floor)))
  }

  /** Every attempt logged so far was made by now, in this life or an earlier one, at no negative cost. */
  predicate Proper(s: Session) {
    forall e | e in s.history :: e.attempt.at <= s.now && e.life <= s.life && e.attempt.notional >= 0.0
  }

  /** What really happened, as far as the gate can know. */
  function Truth(s: Session): seq<Attempt> { Attempts(Known(s.history, s.life)) }

  ghost predicate SessionInv(s: Session, scope: Scope) {
    && Ordered(s.gate.attempts, s.now) && Costly(s.gate.attempts) && Proper(s)
    && Dominates(s.gate.attempts, Truth(s), scope, s.now)
  }

  lemma KnownIsCostly(history: seq<Logged>, life: nat)
    requires forall e | e in history :: e.attempt.notional >= 0.0
    ensures Costly(Attempts(Known(history, life)))
  {
    KnownIsLogged(history, life);
    LogIsCostly(Known(history, life));
  }

  lemma LogIsCostly(history: seq<Logged>)
    requires forall e | e in history :: e.attempt.notional >= 0.0
    ensures Costly(Attempts(history))
  {
    AttemptsAt(history);
    forall a | a in Attempts(history)
      ensures a.notional >= 0.0
    {
      var i :| 0 <= i < |history| && Attempts(history)[i] == a;
      assert history[i] in history;
    }
  }

  lemma {:induction false} AttemptsAt(history: seq<Logged>)
    ensures |Attempts(history)| == |history|
    ensures forall i | 0 <= i < |history| :: Attempts(history)[i] == history[i].attempt
  {
    if history != [] {
      AttemptsAt(history[..|history| - 1]);
    }
  }

  lemma CheckKeepsDomination(l: Limits, s: Session, r: Request, now: int, scope: Scope)
    requires SessionInv(s, scope) && s.now <= now
    ensures var gate := Decide(l, s.gate, r, now).0;
            SessionInv(s.(gate := gate, now := now), scope)
    ensures EarlyVerdict(l, s.gate, r, now).None? ==>
              Decide(l, s.gate, r, now).0.attempts == Since(s.gate.attempts, now - DAY_MS)
  {
    if EarlyVerdict(l, s.gate, r, now).None? {
      OrderedPrune(s.gate.attempts, now - DAY_MS);
      var k := PruneIsSuffix(s.gate.attempts, now - DAY_MS);
      var pruned := Since(s.gate.attempts, now - DAY_MS);
      assert pruned == s.gate.attempts[k..];
      forall floor | floor >= now - DAY_MS
        ensures Since(pruned, floor) == Since(s.gate.attempts, floor)
      {
        SinceTwice(s.gate.attempts, now - DAY_MS, floor);
      }
    }
  }

  lemma AppendKeepsCounts(gate: seq<Attempt>, truth: seq<Attempt>, a: Attempt, floor: int, scope: Scope)
    requires Count(Since(truth, floor), scope) <= Count(Since(gate, floor), scope)
    ensures Count(Since(truth + [a], floor), scope) <= Count(Since(gate + [a], floor), scope)
  {
    SinceAppend(gate, a, floor, scope);
    SinceAppend(truth, a, floor, scope);
  }

  lemma AppendKeepsCosts(gate: seq<Attempt>, truth: seq<Attempt>, a: Attempt, floor: int)
    requires Notional(Since(truth, floor)) <= Notional(Since(gate, floor))
    ensures Notional(Since(truth + [a], floor)) <= Notional(Since(gate + [a], floor))
  {
    SinceAppend(gate, a, floor, Anything);
    SinceAppend(truth, a, floor, Anything);
  }

  lemma AppendDominates(gate: seq<Attempt>, truth: seq<Attempt>, a: Attempt, scope: Scope, now: int)
    requires Dominates(gate, truth, scope, now) && now <= a.at
    ensures Dominates(gate + [a], truth + [a], scope, a.at)
  {
    forall floor | floor >= a.at - DAY_MS
      ensures Count(Since(truth + [a], floor), scope) <= Count(Since(gate + [a], floor), scope)
    {
      AppendKeepsCounts(gate, truth, a, floor, scope);
    }
    forall floor | floor >= a.at - DAY_MS
      ensures Notional(Since(truth + [a], floor)) <= Notional(Since(gate + [a], floor))
    {
      AppendKeepsCosts(gate, truth, a, floor);
    }
  }

  lemma AttemptsAppend(history: seq<Logged>, e: Logged)
    ensures Attempts(history + [e]) == Attempts(history) + [e.attempt]
  {
    assert (history + [e])[..|history|] == history;
  }

  lemma AppendKeepsDomination(s: Session, gate: Gate, e: Logged, scope: Scope)
    requires SessionInv(s, scope) && s.now <= e.attempt.at && e.attempt.notional >= 0.0 && e.life == s.life
    requires gate.attempts == s.gate.attempts + [e.attempt]
    ensures SessionInv(Session(gate, e.attempt.at, s.life, s.history + [e]), scope)
  {
    var after := Session(gate, e.attempt.at, s.life, s.history + [e]);
    KnownAppend(s.history, e, s.life);
    AttemptsAppend(Known(s.history, s.life), e);
    assert Truth(after) == Truth(s) + [e.attempt];
    AppendDominates(s.gate.attempts, Truth(s), e.attempt, scope, s.now);
    AppendKeepsOrder(s.gate.attempts, e.attempt, s.now);
    AppendIsProper(s, after, e);
  }

  lemma AppendKeepsOrder(s: seq<Attempt>, a: Attempt, now: int)
    requires Ordered(s, now) && Costly(s) && now <= a.at && a.notional >= 0.0
    ensures Ordered(s + [a], a.at) && Costly(s + [a])
  {
  }

  lemma AppendIsProper(s: Session, after: Session, e: Logged)
    requires Proper(s) && s.now <= e.attempt.at && e.attempt.notional >= 0.0 && e.life == s.life
    requires after.now == e.attempt.at && after.life == s.life && after.history == s.history + [e]
    ensures Proper(after)
  {
  }

  // ---- A restart dominates too ---------------------------------------------------------------

  datatype Measure = Calls(scope: Scope) | Spent

  /** What one attempt adds to a measured window that starts at `floor`. */
  function Amount(m: Measure, a: Attempt, floor: int): real {
    if a.at < floor then 0.0
    else match m
      case Calls(scope) => if Covers(scope, a.ticker, a.group) then 1.0 else 0.0
      case Spent => a.notional
  }

  function Measured(m: Measure, s: seq<Attempt>, floor: int): real {
    match m
    case Calls(scope) => Count(Since(s, floor), scope) as real
    case Spent => Notional(Since(s, floor))
  }

  lemma MeasuredAppend(m: Measure, s: seq<Attempt>, a: Attempt, floor: int)
    ensures Measured(m, s + [a], floor) == Measured(m, s, floor) + Amount(m, a, floor)
  {
    SinceAppend(s, a, floor, if m.Calls? then m.scope else Anything);
  }

  function RowAttempts(rows: seq<OrderRow>): seq<Attempt> {
    if rows == [] then [] else RowAttempts(rows[..|rows| - 1]) + [RowAttempt(rows[|rows| - 1])]
  }

  lemma {:induction false} WarmStartAttempts(rows: seq<OrderRow>)
    ensures WarmStart(rows).attempts == RowAttempts(rows)
  {
    if rows != [] {
      WarmStartAttempts(rows[..|rows| - 1]);
    }
  }

  lemma {:induction false} RowAttemptsAt(rows: seq<OrderRow>)
    ensures |RowAttempts(rows)| == |rows|
    ensures forall i | 0 <= i < |rows| :: RowAttempts(rows)[i] == RowAttempt(rows[i])
  {
    if rows != [] {
      RowAttemptsAt(rows[..|rows| - 1]);
    }
  }

  function RowTotal(m: Measure, rows: seq<OrderRow>, floor: int): real {
    if rows == [] then 0.0
    else RowTotal(m, rows[..|rows| - 1], floor) + Amount(m, RowAttempt(rows[|rows| - 1]), floor)
  }

  lemma {:induction false} RowTotalIsMeasured(m: Measure, rows: seq<OrderRow>, floor: int)
    ensures RowTotal(m, rows, floor) == Measured(m, RowAttempts(rows), floor)
  {
    if rows != [] {
      var n := |rows| - 1;
      RowTotalIsMeasured(m, rows[..n], floor);
      MeasuredAppend(m, RowAttempts(rows[..n]), RowAttempt(rows[n]), floor);
    }
  }

  lemma RowTotalAppend(m: Measure, rows: seq<OrderRow>, row: OrderRow, floor: int)
    ensures RowTotal(m, rows + [row], floor) == RowTotal(m, rows, floor) + Amount(m, RowAttempt(row), floor)
  {
    assert (rows + [row])[..|rows|] == rows;
  }

  lemma {:induction false} RowTotalConcat(m: Measure, a: seq<OrderRow>, b: seq<OrderRow>, floor: int)
    ensures RowTotal(m, a + b, floor) == RowTotal(m, a, floor) + RowTotal(m, b, floor)
  {
    if b == [] {
      assert a + b == a;
    } else {
      var n := |b| - 1;
      RowTotalConcat(m, a, b[..n], floor);
      RowTotalAppend(m, a + b[..n], b[n], floor);
      assert a + b == (a + b[..n]) + [b[n]];
    }
  }

  lemma RowTotalWithout(m: Measure, rows: seq<OrderRow>, j: nat, floor: int)
    requires j < |rows|
    ensures RowTotal(m, rows, floor)
            == RowTotal(m, rows[..j] + rows[j + 1..], floor) + Amount(m, RowAttempt(rows[j]), floor)
  {
    RowTotalConcat(m, rows[..j], rows[j + 1..], floor);
    RowTotalAppend(m, rows[..j], rows[j], floor);
    RowTotalConcat(m, rows[..j] + [rows[j]], rows[j + 1..], floor);
    assert rows == (rows[..j] + [rows[j]]) + rows[j + 1..];
  }

  lemma MultisetWithout(rows: seq<OrderRow>, j: nat)
    requires j < |rows|
    ensures multiset(rows[..j] + rows[j + 1..]) == multiset(rows) - multiset{rows[j]}
  {
    assert rows == rows[..j] + [rows[j]] + rows[j + 1..];
  }

  lemma FindInPermutation(a: seq<OrderRow>, b: seq<OrderRow>) returns (j: nat)
    requires a != [] && multiset(a) == multiset(b)
    ensures j < |b| && b[j] == a[|a| - 1]
    ensures multiset(a[..|a| - 1]) == multiset(b[..j] + b[j + 1..])
  {
    var n := |a| - 1;
    assert a[n] in multiset(b);
    j :| 0 <= j < |b| && b[j] == a[n];
    MultisetWithout(a, n);
    MultisetWithout(b, j);
    assert a[..n] + a[n + 1..] == a[..n];
  }

  lemma {:induction false} RowOrderIsIrrelevant(m: Measure, a: seq<OrderRow>, b: seq<OrderRow>, floor: int)
    requires multiset(a) == multiset(b)
    ensures RowTotal(m, a, floor) == RowTotal(m, b, floor)
    decreases |a|
  {
    if a == [] {
      assert |b| == |multiset(b)| == 0;
    } else {
      var j := FindInPermutation(a, b);
      RowOrderIsIrrelevant(m, a[..|a| - 1], b[..j] + b[j + 1..], floor);
      RowTotalWithout(m, b, j, floor);
    }
  }

  lemma {:induction false} RecentRowsSuffice(m: Measure, rows: seq<OrderRow>, low: int, floor: int)
    requires low <= floor
    ensures RowTotal(m, Recent(rows, low), floor) == RowTotal(m, rows, floor)
  {
    if rows != [] {
      var rest := Recent(rows[..|rows| - 1], low);
      RecentRowsSuffice(m, rows[..|rows| - 1], low, floor);
      assert (rest + [rows[|rows| - 1]])[..|rest|] == rest;
    }
  }

  /** Rows stamped no earlier than their attempts measure at least as much in any window. */
  lemma {:induction false} RowsMeasureMore(m: Measure, rows: seq<OrderRow>, history: seq<Logged>, now: int, floor: int)
    requires |rows| == |history| && forall i | 0 <= i < |rows| :: Records(rows[i], history[i], now)
    requires Costly(Attempts(history))
    ensures Measured(m, Attempts(history), floor) <= Measured(m, RowAttempts(rows), floor)
  {
    if rows != [] {
      var n := |rows| - 1;
      assert history[n].attempt in Attempts(history);
      RowsMeasureMore(m, rows[..n], history[..n], now, floor);
      MeasuredAppend(m, RowAttempts(rows[..n]), RowAttempt(rows[n]), floor);
      MeasuredAppend(m, Attempts(history[..n]), history[n].attempt, floor);
    }
  }

  /** A gate rebuilt from the stored orders measures exactly what its rows total, in every live window. */
  lemma WarmStartTotals(m: Measure, table: seq<OrderRow>, rows: seq<OrderRow>, now: int, floor: int)
    requires Selected(table, now, rows) && floor >= now - DAY_MS
    ensures Measured(m, WarmStart(rows).attempts, floor) == RowTotal(m, NotRejected(table), floor)
  {
    WarmStartAttempts(rows);
    RowTotalIsMeasured(m, rows, floor);
    RowOrderIsIrrelevant(m, rows, Recent(NotRejected(table), now - DAY_MS), floor);
    RecentRowsSuffice(m, NotRejected(table), now - DAY_MS, floor);
  }

  /** And so at least what really happened. */
  lemma WarmStartMeasures(m: Measure, table: seq<OrderRow>, rows: seq<OrderRow>, history: seq<Logged>, now: int,
                          floor: int)
    requires Selected(table, now, rows) && Mirrors(table, history, now) && Costly(Attempts(history))
    requires floor >= now - DAY_MS
    ensures Measured(m, Attempts(history), floor) <= Measured(m, WarmStart(rows).attempts, floor)
  {
    WarmStartTotals(m, table, rows, now, floor);
    RowTotalIsMeasured(m, NotRejected(table), floor);
    RowsMeasureMore(m, NotRejected(table), history, now, floor);
  }

  lemma {:induction false} RecentIsSubset(rows: seq<OrderRow>, floor: int)
    ensures forall row | row in Recent(rows, floor) :: row in rows
  {
    if rows != [] {
      RecentIsSubset(rows[..|rows| - 1], floor);
    }
  }

  /** Each selected row is one of the rows that record the history. */
  lemma SelectedRowRecords(table: seq<OrderRow>, rows: seq<OrderRow>, history: seq<Logged>, now: int, row: OrderRow)
    returns (e: Logged)
    requires Selected(table, now, rows) && Mirrors(table, history, now) && row in rows
    ensures e in history && Records(row, e, now)
  {
    var kept := NotRejected(table);
    assert row in multiset(Recent(kept, now - DAY_MS));
    RecentIsSubset(kept, now - DAY_MS);
    assert row in Recent(kept, now - DAY_MS) && row in kept;
    var i :| 0 <= i < |kept| && kept[i] == row;
    e := history[i];
  }

  lemma ReplayIsOrdered(table: seq<OrderRow>, rows: seq<OrderRow>, known: seq<Logged>, at: int)
    requires Selected(table, at, rows) && Mirrors(table, known, at) && Costly(Attempts(known))
    ensures Ordered(WarmStart(rows).attempts, at) && Costly(WarmStart(rows).attempts)
  {
    WarmStartAttempts(rows);
    RowAttemptsAt(rows);
    AttemptsAt(known);
    forall i | 0 <= i < |rows|
      ensures RowAttempt(rows[i]).at <= at && RowAttempt(rows[i]).notional >= 0.0
    {
      var e := SelectedRowRecords(table, rows, known, at, rows[i]);
      assert e.attempt in Attempts(known);
    }
  }

  lemma ReplayDominates(table: seq<OrderRow>, rows: seq<OrderRow>, known: seq<Logged>, at: int, scope: Scope)
    requires Selected(table, at, rows) && Mirrors(table, known, at) && Costly(Attempts(known))
    ensures Dominates(WarmStart(rows).attempts, Attempts(known), scope, at)
  {
    var gate := WarmStart(rows);
    forall floor | floor >= at - DAY_MS
      ensures Count(Since(Attempts(known), floor), scope) <= Count(Since(gate.attempts, floor), scope)
      ensures Notional(Since(Attempts(known), floor)) <= Notional(Since(gate.attempts, floor))
    {
      WarmStartMeasures(Calls(scope), table, rows, known, at, floor);
      WarmStartMeasures(Spent, table, rows, known, at, floor);
    }
  }

  lemma RestartKeepsDomination(l: Limits, s: Session, c: Call, scope: Scope)
    requires SessionInv(s, scope) && c.Restart? && Enabled(s, c)
    ensures SessionInv(Next(l, s, c), scope)
  {
    var known := Known(s.history, s.life + 1);
    KnownIsCostly(s.history, s.life + 1);
    ReplayIsOrdered(c.table, c.rows, known, c.at);
    ReplayDominates(c.table, c.rows, known, c.at, scope);
  }

  /** Time only narrows the windows that matter. */
  lemma LaterIsDominated(s: Session, later: Session, scope: Scope)
    requires SessionInv(s, scope) && s.now <= later.now && later.life == s.life && later.history == s.history
    requires later.gate.attempts == s.gate.attempts
    ensures SessionInv(later, scope)
  {
  }

  lemma QuietlyDominated(l: Limits, s: Session, c: Call, scope: Scope)
    requires SessionInv(s, scope) && Enabled(s, c) && !c.Wake? && !c.Restart?
    ensures SessionInv(Next(l, s, c), scope)
  {
    LaterIsDominated(s, Next(l, s, c), scope);
  }

  lemma WakeKeepsDomination(l: Limits, s: Session, c: Call, scope: Scope)
    requires SessionInv(s, scope) && c.Wake? && Enabled(s, c)
    ensures SessionInv(Next(l, s, c), scope)
  {
    CheckKeepsDomination(l, s, c.request, c.checkedAt, scope);
    var (gate, verdict) := Decide(l, s.gate, c.request, c.checkedAt);
    if verdict.None? {
      AppendKeepsDomination(s.(gate := gate, now := c.checkedAt), Admit(gate, c.request, c.recordedAt),
                            Admission(c.request, c.recordedAt, s.life, c.stored), scope);
    }
  }

  lemma StepKeepsDomination(l: Limits, s: Session, c: Call, scope: Scope)
    requires SessionInv(s, scope) && Enabled(s, c)
    ensures SessionInv(Next(l, s, c), scope)
  {
    if c.Wake? {
      WakeKeepsDomination(l, s, c, scope);
    } else if c.Restart? {
      RestartKeepsDomination(l, s, c, scope);
    } else {
      QuietlyDominated(l, s, c, scope);
    }
  }

  // ---- What an admission guarantees ----------------------------------------------------------

  /** Whether one attempt's cooldown binds another: in one life always, across restarts up to 24 hours if stored. */
  predicate Binds(l: Limits, earlier: Logged, later: Logged) {
    && earlier.attempt.ticker == later.attempt.ticker && earlier.direction == later.direction
    && (earlier.life == later.life || (earlier.stored && l.cooldownMs <= DAY_MS as real))
  }

  /** The last attempt of `history` comes at least the cooldown after every earlier one that binds it. */
  predicate Gapped(l: Limits, history: seq<Logged>)
    requires history != []
  {
    var last := history[|history| - 1];
    forall i | 0 <= i < |history| - 1 && Binds(l, history[i], last) ::
      (last.attempt.at - history[i].attempt.at) as real >= l.cooldownMs
  }

  /** The windows that end at the last attempt of `history`: within caps, as far as was known, when it was admitted. */
  predicate Kept(l: Limits, history: seq<Logged>, scope: Scope) {
    history != [] && history[|history| - 1].admitted ==>
      var last := history[|history| - 1];
      EndsWithin(l, Attempts(Known(history, last.life)), last.attempt, scope)
  }

  predicate EndsWithin(l: Limits, all: seq<Attempt>, last: Attempt, scope: Scope) {
    && |Since(all, last.at - HOUR_MS)| <= l.attemptsPerHour
    && Notional(Since(all, last.at - DAY_MS)) <= l.notionalPerDay
    && (scope != OfGroup("") && Covers(scope, last.ticker, last.group) ==>
          Count(Since(all, last.at - DAY_MS), scope) <= DayCapOf(l, scope))
  }

  predicate AllKept(l: Limits, history: seq<Logged>, scope: Scope) {
    history == [] || (AllKept(l, history[..|history| - 1], scope) && Kept(l, history, scope))
  }

  lemma AdmittedAttemptsFit(l: Limits, g: Gate, r: Request, now: int, scope: Scope)
    requires AttemptVerdict(l, g, r, now).None? && Covers(scope, r.ticker, r.group) && scope != OfGroup("")
    ensures Count(g.attempts, scope) < DayCapOf(l, scope)
  {
    CountAll(g.attempts);
  }

  predicate FitsHour(l: Limits, past: seq<Attempt>, at: int) {
    |Since(past, at - HOUR_MS)| < l.attemptsPerHour
  }

  predicate FitsNotional(l: Limits, past: seq<Attempt>, at: int, cost: real) {
    Notional(Since(past, at - DAY_MS)) + cost <= l.notionalPerDay
  }

  predicate FitsScope(l: Limits, past: seq<Attempt>, at: int, scope: Scope) {
    Count(Since(past, at - DAY_MS), scope) < DayCapOf(l, scope)
  }

  /** Room in the windows that would end at `e`, counting only `past`. */
  predicate Fits(l: Limits, past: seq<Attempt>, e: Attempt, scope: Scope) {
    && FitsHour(l, past, e.at)
    && FitsNotional(l, past, e.at, e.notional)
    && (Covers(scope, e.ticker, e.group) && scope != OfGroup("") ==> FitsScope(l, past, e.at, scope))
  }

  lemma AdmissionFitsHour(l: Limits, s: Session, r: Request, checkedAt: int, recordedAt: int)
    requires SessionInv(s, Anything) && s.now <= checkedAt <= recordedAt
    requires Decide(l, s.gate, r, checkedAt).1.None?
    ensures FitsHour(l, Truth(s), recordedAt)
  {
    var past := Truth(s);
    AdmissionPruned(l, s, r, checkedAt);
    SinceTwice(s.gate.attempts, checkedAt - DAY_MS, checkedAt - HOUR_MS);
    CountFloor(past, Anything, checkedAt - HOUR_MS, recordedAt - HOUR_MS);
    CountAll(Since(past, recordedAt - HOUR_MS));
    CountAll(Since(s.gate.attempts, checkedAt - HOUR_MS));
  }

  lemma AdmissionPruned(l: Limits, s: Session, r: Request, checkedAt: int)
    requires Ordered(s.gate.attempts, s.now) && Decide(l, s.gate, r, checkedAt).1.None?
    ensures Decide(l, s.gate, r, checkedAt).0.attempts == Since(s.gate.attempts, checkedAt - DAY_MS)
  {
    OrderedPrune(s.gate.attempts, checkedAt - DAY_MS);
  }

  lemma AdmissionFitsNotional(l: Limits, s: Session, r: Request, checkedAt: int, recordedAt: int)
    requires SessionInv(s, Anything) && s.now <= checkedAt <= recordedAt
    requires Decide(l, s.gate, r, checkedAt).1.None?
    ensures FitsNotional(l, Truth(s), recordedAt, Cost(r))
  {
    AdmissionPruned(l, s, r, checkedAt);
    KnownIsCostly(s.history, s.life);
    NotionalFloor(Truth(s), checkedAt - DAY_MS, recordedAt - DAY_MS);
  }

  lemma AdmissionFitsDay(l: Limits, s: Session, r: Request, checkedAt: int, recordedAt: int, scope: Scope)
    requires SessionInv(s, scope) && s.now <= checkedAt <= recordedAt
    requires Decide(l, s.gate, r, checkedAt).1.None?
    requires Covers(scope, r.ticker, r.group) && scope != OfGroup("")
    ensures FitsScope(l, Truth(s), recordedAt, scope)
  {
    AdmissionPruned(l, s, r, checkedAt);
    CountFloor(Truth(s), scope, checkedAt - DAY_MS, recordedAt - DAY_MS);
    AdmittedAttemptsFit(l, Decide(l, s.gate, r, checkedAt).0, r, checkedAt, scope);
  }

  lemma KeptByAppending(l: Limits, history: seq<Logged>, e: Logged, scope: Scope)
    requires Fits(l, Attempts(Known(history, e.life)), e.attempt, scope)
    ensures Kept(l, history + [e], scope)
  {
    var past := Known(history, e.life);
    KnownAppend(history, e, e.life);
    AttemptsAppend(past, e);
    AppendingFits(l, Attempts(past), e.attempt, scope);
  }

  lemma AppendingFits(l: Limits, past: seq<Attempt>, a: Attempt, scope: Scope)
    requires Fits(l, past, a, scope)
    ensures EndsWithin(l, past + [a], a, scope)
  {
    SinceAppend(past, a, a.at - DAY_MS, scope);
    SinceAppend(past, a, a.at - HOUR_MS, Anything);
  }

  lemma AdmissionFits(l: Limits, s: Session, r: Request, checkedAt: int, recordedAt: int, scope: Scope)
    requires SessionInv(s, scope) && SessionInv(s, Anything) && s.now <= checkedAt <= recordedAt
    requires Decide(l, s.gate, r, checkedAt).1.None?
    ensures Fits(l, Truth(s), Attempt(recordedAt, r.ticker, r.group, Cost(r)), scope)
  {
    AdmissionFitsHour(l, s, r, checkedAt, recordedAt);
    AdmissionFitsNotional(l, s, r, checkedAt, recordedAt);
    if Covers(scope, r.ticker, r.group) && scope != OfGroup("") {
      AdmissionFitsDay(l, s, r, checkedAt, recordedAt, scope);
    }
  }

  /** Attempts of this life, and stored ones of the last 24 hours, are remembered on their market and side. */
  predicate Remembered(s: Session) {
    forall e | e in s.history && (e.life == s.life || (e.stored && e.attempt.at >= s.now - DAY_MS)) ::
      && (e.attempt.ticker, e.direction) in s.gate.lastAttempt
      && s.gate.lastAttempt[(e.attempt.ticker, e.direction)] >= e.attempt.at
  }

  lemma AdmissionIsGapped(l: Limits, s: Session, c: Call)
    requires c.Wake? && Enabled(s, c) && Remembered(s) && Decide(l, s.gate, c.request, c.checkedAt).1.None?
    ensures Gapped(l, Next(l, s, c).history)
  {
    var history := Next(l, s, c).history;
    var last := Admission(c.request, c.recordedAt, s.life, c.stored);
    forall i | 0 <= i < |s.history| && Binds(l, history[i], last)
      ensures (c.recordedAt - history[i].attempt.at) as real >= l.cooldownMs
    {
      assert history[i] == s.history[i] && s.history[i] in s.history;
    }
  }

  lemma {:induction false} ReplayRemembers(rows: seq<OrderRow>, i: nat)
    requires i < |rows|
    ensures var key := (rows[i].ticker, rows[i].side);
            key in WarmStart(rows).lastAttempt && WarmStart(rows).lastAttempt[key] >= rows[i].requestedAt
  {
    var n := |rows| - 1;
    if i < n {
      ReplayRemembers(rows[..n], i);
    }
  }

  lemma {:induction false} RecentContains(rows: seq<OrderRow>, i: nat, floor: int)
    requires i < |rows| && rows[i].requestedAt >= floor
    ensures rows[i] in Recent(rows, floor)
  {
    if i < |rows| - 1 {
      RecentContains(rows[..|rows| - 1], i, floor);
    }
  }

  lemma RestartRemembers(s: Session, table: seq<OrderRow>, rows: seq<OrderRow>, at: int)
    requires Enabled(s, Restart(table, rows, at))
    requires forall e | e in s.history :: e.life <= s.life
    ensures Remembered(Session(WarmStart(rows), at, s.life + 1, s.history))
  {
    forall e | e in s.history && e.stored && e.attempt.at >= at - DAY_MS
      ensures (e.attempt.ticker, e.direction) in WarmStart(rows).lastAttempt
      ensures WarmStart(rows).lastAttempt[(e.attempt.ticker, e.direction)] >= e.attempt.at
    {
      LoggedIsKnown(s.history, s.life + 1, e);
      KnownIsReplayed(table, rows, Known(s.history, s.life + 1), at, e);
    }
  }

  lemma KnownIsReplayed(table: seq<OrderRow>, rows: seq<OrderRow>, known: seq<Logged>, at: int, e: Logged)
    requires Selected(table, at, rows) && Mirrors(table, known, at) && e in known && e.attempt.at >= at - DAY_MS
    ensures (e.attempt.ticker, e.direction) in WarmStart(rows).lastAttempt
    ensures WarmStart(rows).lastAttempt[(e.attempt.ticker, e.direction)] >= e.attempt.at
  {
    var kept := NotRejected(table);
    var i :| 0 <= i < |known| && known[i] == e;
    RecentContains(kept, i, at - DAY_MS);
    assert kept[i] in multiset(rows);
    var j :| 0 <= j < |rows| && rows[j] == kept[i];
    ReplayRemembers(rows, j);
  }

  lemma StepIsProper(l: Limits, s: Session, c: Call)
    requires Enabled(s, c) && Proper(s)
    ensures Proper(Next(l, s, c))
  {
  }

  lemma StepRemembers(l: Limits, s: Session, c: Call)
    requires Enabled(s, c) && Remembered(s) && Proper(s)
    ensures Remembered(Next(l, s, c))
  {
    if c.Restart? {
      RestartRemembers(s, c.table, c.rows, c.at);
    }
  }

  predicate AllGapped(l: Limits, history: seq<Logged>) {
    history == []
    || (AllGapped(l, history[..|history| - 1]) && (history[|history| - 1].admitted ==> Gapped(l, history)))
  }

  lemma StepKeepsCaps(l: Limits, s: Session, c: Call, scope: Scope)
    requires Enabled(s, c) && SessionInv(s, scope) && SessionInv(s, Anything) && AllKept(l, s.history, scope)
    ensures AllKept(l, Next(l, s, c).history, scope)
  {
    if c.Wake? && Decide(l, s.gate, c.request, c.checkedAt).1.None? {
      var e := Admission(c.request, c.recordedAt, s.life, c.stored);
      AdmissionFits(l, s, c.request, c.checkedAt, c.recordedAt, scope);
      KeptByAppending(l, s.history, e, scope);
      assert (s.history + [e])[..|s.history|] == s.history;
    }
  }

  lemma {:induction false} RunKeepsCaps(l: Limits, s: Session, calls: seq<Call>, scope: Scope)
    requires Legal(l, s, calls) && SessionInv(s, scope) && SessionInv(s, Anything) && AllKept(l, s.history, scope)
    ensures AllKept(l, Run(l, s, calls).history, scope) && SessionInv(Run(l, s, calls), scope)
    decreases |calls|
  {
    if calls != [] {
      StepKeepsDomination(l, s, calls[0], scope);
      StepKeepsDomination(l, s, calls[0], Anything);
      StepKeepsCaps(l, s, calls[0], scope);
      RunKeepsCaps(l, Next(l, s, calls[0]), calls[1..], scope);
    }
  }

  lemma {:induction false} RunKeepsGaps(l: Limits, s: Session, calls: seq<Call>)
    requires Legal(l, s, calls) && Proper(s) && Remembered(s) && AllGapped(l, s.history)
    ensures AllGapped(l, Run(l, s, calls).history)
    decreases |calls|
  {
    if calls != [] {
      var c := calls[0];
      StepIsProper(l, s, c);
      StepRemembers(l, s, c);
      if c.Wake? && Decide(l, s.gate, c.request, c.checkedAt).1.None? {
        AdmissionIsGapped(l, s, c);
        assert (s.history + [Admission(c.request, c.recordedAt, s.life, c.stored)])[..|s.history|] == s.history;
      }
      RunKeepsGaps(l, Next(l, s, c), calls[1..]);
    }
  }

  // ---- The theorems --------------------------------------------------------------------------

  lemma {:induction false} WindowWithinSince(history: seq<Logged>, scope: Scope, from: int, to: int)
    requires Costly(Attempts(history))
    ensures |InWindow(history, scope, from, to)| <= Count(Since(Attempts(history), from), scope)
    ensures Notional(Attempts(InWindow(history, scope, from, to))) <= Notional(Since(Attempts(history), from))
  {
    if history != [] {
      var rest := history[..|history| - 1];
      var last := history[|history| - 1];
      assert Attempts(history) == Attempts(rest) + [last.attempt];
      assert last.attempt in Attempts(history);
      WindowWithinSince(rest, scope, from, to);
      SinceAppend(Attempts(rest), last.attempt, from, scope);
      if Inside(last, scope, from, to) {
        AppendNotional(InWindow(rest, scope, from, to), last);
      }
    }
  }

  /** The known attempts of a window are the window of the known attempts. */
  lemma {:induction false} KnownWindow(history: seq<Logged>, scope: Scope, from: int, to: int, life: nat)
    ensures InWindow(Known(history, life), scope, from, to) == Known(InWindow(history, scope, from, to), life)
  {
    if history != [] {
      var rest := history[..|history| - 1];
      var last := history[|history| - 1];
      KnownWindow(rest, scope, from, to, life);
      KnownAppend(InWindow(rest, scope, from, to), last, life);
      assert (Known(rest, life) + [last])[..|Known(rest, life)|] == Known(rest, life);
    }
  }

  lemma KnownWithinSince(history: seq<Logged>, scope: Scope, from: int, to: int, life: nat)
    requires forall e | e in history :: e.attempt.notional >= 0.0
    ensures var known := Known(InWindow(history, scope, from, to), life);
            var recent := Since(Attempts(Known(history, life)), from);
            |known| <= Count(recent, scope) && Notional(Attempts(known)) <= Notional(recent)
  {
    KnownIsCostly(history, life);
    KnownWindow(history, scope, from, to, life);
    WindowWithinSince(Known(history, life), scope, from, to);
  }

  /** What the gate knew of a window that ends at the last attempt of `history`. */
  function KnownInside(history: seq<Logged>, scope: Scope, from: int, to: int): seq<Logged>
    requires history != []
  {
    Known(InWindow(history, scope, from, to), history[|history| - 1].life)
  }

  lemma WithinDay(l: Limits, all: seq<Attempt>, known: seq<Logged>, last: Attempt, scope: Scope, from: int)
    requires EndsWithin(l, all, last, scope) && Covers(scope, last.ticker, last.group) && scope != OfGroup("")
    requires Costly(all) && last.at - DAY_MS <= from
    requires |known| <= Count(Since(all, from), scope) && Notional(Attempts(known)) <= Notional(Since(all, from))
    ensures |known| <= DayCapOf(l, scope) && Notional(Attempts(known)) <= l.notionalPerDay
  {
    CountFloor(all, scope, last.at - DAY_MS, from);
    NotionalFloor(all, last.at - DAY_MS, from);
  }

  lemma WithinHour(l: Limits, all: seq<Attempt>, known: seq<Logged>, last: Attempt, scope: Scope, from: int)
    requires EndsWithin(l, all, last, scope) && last.at - HOUR_MS <= from
    requires |known| <= Count(Since(all, from), scope)
    ensures |known| <= l.attemptsPerHour
  {
    CountFloor(all, scope, last.at - HOUR_MS, from);
    CountAtMostAll(Since(all, last.at - HOUR_MS), scope);
  }

  lemma DayEndingHere(l: Limits, history: seq<Logged>, scope: Scope, from: int, to: int)
    requires history != [] && Kept(l, history, scope) && forall e | e in history :: e.attempt.notional >= 0.0
    requires Inside(history[|history| - 1], scope, from, to) && history[|history| - 1].admitted
    requires scope != OfGroup("") && to - from <= DAY_MS
    ensures |KnownInside(history, scope, from, to)| <= DayCapOf(l, scope)
    ensures Notional(Attempts(KnownInside(history, scope, from, to))) <= l.notionalPerDay
  {
    var last := history[|history| - 1];
    KnownIsCostly(history, last.life);
    KnownWithinSince(history, scope, from, to, last.life);
    WithinDay(l, Attempts(Known(history, last.life)), KnownInside(history, scope, from, to), last.attempt, scope, from);
  }

  lemma HourEndingHere(l: Limits, history: seq<Logged>, scope: Scope, from: int, to: int)
    requires history != [] && Kept(l, history, scope) && forall e | e in history :: e.attempt.notional >= 0.0
    requires Inside(history[|history| - 1], scope, from, to) && history[|history| - 1].admitted
    requires to - from <= HOUR_MS
    ensures |KnownInside(history, scope, from, to)| <= l.attemptsPerHour
  {
    var last := history[|history| - 1];
    KnownWithinSince(history, scope, from, to, last.life);
    var all, known := Attempts(Known(history, last.life)), KnownInside(history, scope, from, to);
    WithinHour(l, all, known, last.attempt, scope, from);
  }

  lemma {:induction false} CountAtMostAll(s: seq<Attempt>, scope: Scope)
    ensures Count(s, scope) <= |s|
  {
    if s != [] {
      CountAtMostAll(s[1..], scope);
    }
  }

  /** The caps, on what was known inside a window when its last attempt was admitted. */
  predicate KnownWithinCaps(l: Limits, inside: seq<Logged>, scope: Scope, span: int) {
    inside != [] && inside[|inside| - 1].admitted ==>
      var known := Known(inside, inside[|inside| - 1].life);
      && |known| <= DayCapOf(l, scope)
      && Notional(Attempts(known)) <= l.notionalPerDay
      && (span <= HOUR_MS ==> |known| <= l.attemptsPerHour)
  }

  lemma {:induction false} KeptWindows(l: Limits, history: seq<Logged>, scope: Scope, from: int, to: int)
    requires AllKept(l, history, scope) && forall e | e in history :: e.attempt.notional >= 0.0
    requires scope != OfGroup("") && to - from <= DAY_MS
    ensures KnownWithinCaps(l, InWindow(history, scope, from, to), scope, to - from)
  {
    if history != [] {
      var rest := history[..|history| - 1];
      var last := history[|history| - 1];
      if Inside(last, scope, from, to) {
        if last.admitted {
          DayEndingHere(l, history, scope, from, to);
          if to - from <= HOUR_MS {
            HourEndingHere(l, history, scope, from, to);
          }
        }
      } else {
        KeptWindows(l, rest, scope, from, to);
      }
    }
  }

  lemma AllWithinCaps(l: Limits, inside: seq<Logged>, scope: Scope, span: int)
    requires KnownWithinCaps(l, inside, scope, span)
    ensures inside != [] && inside[|inside| - 1].admitted ==>
              var lost := Unknown(inside, inside[|inside| - 1].life);
              && |inside| <= DayCapOf(l, scope) + |lost|
              && Notional(Attempts(inside)) <= l.notionalPerDay + Notional(Attempts(lost))
              && (span <= HOUR_MS ==> |inside| <= l.attemptsPerHour + |lost|)
  {
    if inside != [] {
      KnownAndUnknown(inside, inside[|inside| - 1].life);
    }
  }

  /** Nothing logged so far was admitted by this run. */
  predicate NoneAdmitted(history: seq<Logged>) { forall e | e in history :: !e.admitted }

  lemma {:induction false} NothingAdmittedYet(l: Limits, history: seq<Logged>, scope: Scope)
    requires NoneAdmitted(history)
    ensures AllKept(l, history, scope) && AllGapped(l, history)
  {
    if history != [] {
      assert history[|history| - 1] in history;
      NothingAdmittedYet(l, history[..|history| - 1], scope);
    }
  }

  /**
   Rolling-window safety: in every closed window of at most 24 hours, anywhere in any run, if the last
   attempt of a scope in it was admitted then the attempts of that scope in the window are within its
   daily cap and their cost within the notional cap; in a window of at most an hour they are also
   within the hourly cap. Attempts made before the last one's most recent restart that left no row come on
   top: no gate rebuilt from rows can know of them. The scope is everything, a ticker, an event or a
   non-empty group.
   */
  lemma WindowsWithinCaps(l: Limits, s: Session, calls: seq<Call>, scope: Scope, from: int, to: int)
    requires Legal(l, s, calls) && SessionInv(s, scope) && SessionInv(s, Anything) && NoneAdmitted(s.history)
    requires scope != OfGroup("") && to - from <= DAY_MS
    ensures var inside := InWindow(Run(l, s, calls).history, scope, from, to);
            inside != [] && inside[|inside| - 1].admitted ==>
              var lost := Unknown(inside, inside[|inside| - 1].life);
              && |inside| <= DayCapOf(l, scope) + |lost|
              && Notional(Attempts(inside)) <= l.notionalPerDay + Notional(Attempts(lost))
              && (to - from <= HOUR_MS ==> |inside| <= l.attemptsPerHour + |lost|)
  {
    var inside := InWindow(Run(l, s, calls).history, scope, from, to);
    NothingAdmittedYet(l, s.history, scope);
    RunKeepsCaps(l, s, calls, scope);
    KeptWindows(l, Run(l, s, calls).history, scope, from, to);
    AllWithinCaps(l, inside, scope, to - from);
  }

  lemma {:induction false} GappedPairs(l: Limits, history: seq<Logged>, i: nat, k: nat)
    requires AllGapped(l, history) && i < k < |history| && history[k].admitted && Binds(l, history[i], history[k])
    ensures (history[k].attempt.at - history[i].attempt.at) as real >= l.cooldownMs
  {
    if k < |history| - 1 {
      GappedPairs(l, history[..|history| - 1], i, k);
    }
  }

  /**
   Cooldown safety: an admitted attempt comes at least the cooldown after every earlier attempt on the
   same ticker and direction: always when no restart lies between them, and across restarts when the earlier
   one left a row and the cooldown is at most 24 hours.
   */
  lemma CooldownsHold(l: Limits, s: Session, calls: seq<Call>, i: nat, k: nat)
    requires Legal(l, s, calls) && Proper(s) && Remembered(s) && NoneAdmitted(s.history)
    requires i < k < |Run(l, s, calls).history|
    ensures var h := Run(l, s, calls).history;
            h[k].admitted && Binds(l, h[i], h[k]) ==> (h[k].attempt.at - h[i].attempt.at) as real >= l.cooldownMs
  {
    NothingAdmittedYet(l, s.history, Anything);
    RunKeepsGaps(l, s, calls);
    var h := Run(l, s, calls).history;
    if h[k].admitted && Binds(l, h[i], h[k]) {
      GappedPairs(l, h, i, k);
    }
  }
}
