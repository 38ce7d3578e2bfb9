/**
 A gate rebuilt from the stored orders is never more permissive than the gate that crashed, on the
 attempt, notional and cooldown caps, at any moment after the restart.
 */
module WarmStarts {
  import opened Orders
  import opened GateSpec
  import opened RollingWindow

  /** A process that has just come up for the first time. */
  function NewSession(now: int): Session { Session(EMPTY_GATE, now, 0, []) }

  // ---- What a gate that may have restarted still counts --------------------------------------

  /** What a restart read back: the stored orders, the rows the query selected, when, and behind how many attempts. */
  datatype Reading = Reading(table: seq<OrderRow>, rows: seq<OrderRow>, at: int, past: nat)

  const NOTHING_READ := Reading([], [], 0, 0)

  /** The reading of the last restart of a run, if it had one. */
  function LastReading(l: Limits, s: Session, before: Reading, calls: seq<Call>): Reading
    decreases |calls|
  {
    if calls == [] then before
    else
      var c := calls[0];
      LastReading(l, Next(l, s, c), if c.Restart? then Reading(c.table, c.rows, c.at, |s.history|) else before,
                  calls[1..])
  }

  /** The attempts replayed by the last restart, then those made since. */
  function Replayed(s: Session, reading: Reading): seq<Attempt>
    requires reading.past <= |Attempts(s.history)|
  {
    RowAttempts(reading.rows) + Attempts(s.history)[reading.past..]
  }

  /** All the gate has lost since its last restart is the front of what it was given. */
  predicate Remaining(s: Session, reading: Reading, k: nat) {
    && Selected(reading.table, reading.at, reading.rows) && reading.past <= |Attempts(s.history)|
    && k <= |Replayed(s, reading)| && s.gate.attempts == Replayed(s, reading)[k..]
  }

  /** The last restart had a row for each attempt of an earlier life that is not lost. */
  predicate ReadTruly(s: Session, reading: Reading) {
    && reading.past <= |s.history|
    && Mirrors(reading.table, Known(s.history[..reading.past], s.life), reading.at)
    && forall i | 0 <= i < reading.past :: s.history[i].life < s.life
  }

  /** A cooldown's stamp is that of an attempt made since the last restart. */
  predicate StampedByAttempt(s: Session, reading: Reading, key: (Ticker, Direction), stamp: int) {
    exists i | reading.past <= i < |s.history| ::
      s.history[i].attempt.ticker == key.0 && s.history[i].direction == key.1 && s.history[i].attempt.at == stamp
  }

  /** A cooldown's stamp is that of a row some restart read. */
  predicate StampedByRow(rows: seq<OrderRow>, key: (Ticker, Direction), stamp: int) {
    exists j | 0 <= j < |rows| :: rows[j].ticker == key.0 && rows[j].side == key.1 && rows[j].requestedAt == stamp
  }

  predicate Stamped(s: Session, reading: Reading, key: (Ticker, Direction)) {
    key in s.gate.lastAttempt ==>
      || StampedByAttempt(s, reading, key, s.gate.lastAttempt[key])
      || StampedByRow(reading.rows, key, s.gate.lastAttempt[key])
  }

  ghost predicate AllStamped(s: Session, reading: Reading) { forall key :: Stamped(s, reading, key) }

  /** Clock readings are epoch milliseconds. */
  predicate SinceEpoch(s: Session) { s.now >= 0 && forall e | e in s.history :: e.attempt.at >= 0 }

  ghost predicate Accounted(s: Session, reading: Reading, k: nat) {
    && Remaining(s, reading, k) && ReadTruly(s, reading)
    && AllStamped(s, reading) && SinceEpoch(s) && SessionInv(s, Anything)
  }

  lemma CheckCutsFront(l: Limits, g: Gate, r: Request, now: int) returns (cut: nat)
    ensures cut <= |g.attempts| && Decide(l, g, r, now).0.attempts == g.attempts[cut..]
  {
    cut := 0;
    if EarlyVerdict(l, g, r, now).None? {
      cut := PruneIsSuffix(g.attempts, now - DAY_MS);
    }
  }

  lemma AppendBehind(base: seq<Attempt>, past: seq<Attempt>, n: nat, a: Attempt)
    requires n <= |past|
    ensures base + (past + [a])[n..] == (base + past[n..]) + [a]
  {
  }

  lemma CutTwice(all: seq<Attempt>, k: nat, cut: nat)
    requires k <= |all| && cut <= |all| - k
    ensures all[k..][cut..] == all[k + cut..]
  {
  }

  lemma CutThenAppend(all: seq<Attempt>, k: nat, a: Attempt)
    requires k <= |all|
    ensures all[k..] + [a] == (all + [a])[k..]
  {
  }

  lemma WakeKeepsRemaining(l: Limits, s: Session, c: Call, reading: Reading, k: nat) returns (k': nat)
    requires c.Wake? && Remaining(s, reading, k)
    ensures Remaining(Next(l, s, c), reading, k')
  {
    var all := Replayed(s, reading);
    var cut := CheckCutsFront(l, s.gate, c.request, c.checkedAt);
    k' := k + cut;
    CutTwice(all, k, cut);
    if Decide(l, s.gate, c.request, c.checkedAt).1.None? {
      var e := Admission(c.request, c.recordedAt, s.life, c.stored);
      assert (s.history + [e])[..|s.history|] == s.history;
      AppendBehind(RowAttempts(reading.rows), Attempts(s.history), reading.past, e.attempt);
      CutThenAppend(all, k', e.attempt);
    }
  }

  lemma WakeKeepsStamps(l: Limits, s: Session, c: Call, reading: Reading)
    requires c.Wake? && AllStamped(s, reading) && reading.past <= |s.history|
    ensures AllStamped(Next(l, s, c), reading)
  {
    var after := Next(l, s, c);
    forall key
      ensures Stamped(after, reading, key)
    {
      assert Stamped(s, reading, key);
      if after.history != s.history && key == (c.request.ticker, c.request.direction) {
        assert after.history[|s.history|] == Admission(c.request, c.recordedAt, s.life, c.stored);
      } else if key in s.gate.lastAttempt && StampedByAttempt(s, reading, key, s.gate.lastAttempt[key]) {
        var i :| reading.past <= i < |s.history| && s.history[i].attempt.ticker == key.0
                 && s.history[i].direction == key.1 && s.history[i].attempt.at == s.gate.lastAttempt[key];
        assert after.history[i] == s.history[i];
      }
    }
  }

  /** With no stamp before the epoch, each cooldown of a rebuilt gate is stamped by one of its rows. */
  lemma {:induction false} ReplayStamps(rows: seq<OrderRow>, key: (Ticker, Direction))
    requires forall row | row in rows :: row.requestedAt >= 0
    requires key in WarmStart(rows).lastAttempt
    ensures StampedByRow(rows, key, WarmStart(rows).lastAttempt[key])
  {
    var n := |rows| - 1;
    assert rows[n] in rows && forall row | row in rows[..n] :: row in rows;
    if key in WarmStart(rows[..n]).lastAttempt {
      ReplayStamps(rows[..n], key);
    }
    assert forall j | 0 <= j < n :: rows[..n][j] == rows[j];
  }

  lemma RowsAreSinceEpoch(s: Session, c: Call)
    requires c.Restart? && Enabled(s, c) && SinceEpoch(s)
    ensures forall row | row in c.rows :: row.requestedAt >= 0
  {
    KnownIsLogged(s.history, s.life + 1);
    forall row | row in c.rows
      ensures row.requestedAt >= 0
    {
      var e := SelectedRowRecords(c.table, c.rows, Known(s.history, s.life + 1), c.at, row);
    }
  }

  lemma RestartReadsTruly(l: Limits, s: Session, c: Call)
    requires c.Restart? && Enabled(s, c) && Proper(s)
    ensures ReadTruly(Next(l, s, c), Reading(c.table, c.rows, c.at, |s.history|))
  {
    assert s.history[..|s.history|] == s.history;
    forall i | 0 <= i < |s.history|
      ensures s.history[i].life < s.life + 1
    {
      assert s.history[i] in s.history;
    }
  }

  lemma WakeReadsTruly(l: Limits, s: Session, c: Call, reading: Reading)
    requires c.Wake? && ReadTruly(s, reading)
    ensures ReadTruly(Next(l, s, c), reading)
  {
    assert Next(l, s, c).history[..reading.past] == s.history[..reading.past];
  }

  lemma RestartIsAccounted(l: Limits, s: Session, c: Call)
    requires c.Restart? && Enabled(s, c) && SinceEpoch(s) && SessionInv(s, Anything)
    ensures Accounted(Next(l, s, c), Reading(c.table, c.rows, c.at, |s.history|), 0)
  {
    var after := Next(l, s, c);
    var reading := Reading(c.table, c.rows, c.at, |s.history|);
    AttemptsAt(s.history);
    WarmStartAttempts(c.rows);
    assert Replayed(after, reading) == RowAttempts(c.rows);
    StepKeepsDomination(l, s, c, Anything);
    RestartReadsTruly(l, s, c);
    RowsAreSinceEpoch(s, c);
    forall key
      ensures Stamped(after, reading, key)
    {
      if key in after.gate.lastAttempt {
        ReplayStamps(c.rows, key);
      }
    }
  }

  lemma QuietStepIsAccounted(l: Limits, s: Session, c: Call, reading: Reading, k: nat)
    requires !c.Wake? && !c.Restart? && Enabled(s, c) && Accounted(s, reading, k)
    ensures Accounted(Next(l, s, c), reading, k)
  {
    StepKeepsDomination(l, s, c, Anything);
    forall key
      ensures Stamped(Next(l, s, c), reading, key)
    {
      assert Stamped(s, reading, key);
    }
  }

  lemma WakeIsSinceEpoch(l: Limits, s: Session, c: Call)
    requires c.Wake? && Enabled(s, c) && SinceEpoch(s)
    ensures SinceEpoch(Next(l, s, c))
  {
  }

  lemma WakeIsAccounted(l: Limits, s: Session, c: Call, reading: Reading, k: nat) returns (k': nat)
    requires c.Wake? && Enabled(s, c) && Accounted(s, reading, k)
    ensures Accounted(Next(l, s, c), reading, k')
  {
    AttemptsAt(s.history);
    StepKeepsDomination(l, s, c, Anything);
    WakeIsSinceEpoch(l, s, c);
    WakeReadsTruly(l, s, c, reading);
    WakeKeepsStamps(l, s, c, reading);
    k' := WakeKeepsRemaining(l, s, c, reading, k);
  }

  lemma {:induction false} RunIsAccounted(l: Limits, s: Session, calls: seq<Call>, reading: Reading, k: nat)
    returns (k': nat)
    requires Legal(l, s, calls) && Accounted(s, reading, k)
    ensures Accounted(Run(l, s, calls), LastReading(l, s, reading, calls), k')
    decreases |calls|
  {
    k' := k;
    if calls != [] {
      var c := calls[0];
      if c.Restart? {
        RestartIsAccounted(l, s, c);
        k' := RunIsAccounted(l, Next(l, s, c), calls[1..], Reading(c.table, c.rows, c.at, |s.history|), 0);
      } else {
        if c.Wake? {
          k' := WakeIsAccounted(l, s, c, reading, k);
        } else {
          QuietStepIsAccounted(l, s, c, reading, k);
        }
        k' := RunIsAccounted(l, Next(l, s, c), calls[1..], reading, k');
      }
    }
  }

  // ---- The comparison ------------------------------------------------------------------------

  /** Stored orders last: each keeps its place, its side and everything an attempt is rebuilt from. */
  predicate Persists(earlier: seq<OrderRow>, later: seq<OrderRow>) {
    && |NotRejected(earlier)| <= |NotRejected(later)|
    && forall i | 0 <= i < |NotRejected(earlier)| ::
         && RowAttempt(NotRejected(later)[i]) == RowAttempt(NotRejected(earlier)[i])
         && NotRejected(later)[i].side == NotRejected(earlier)[i].side
  }

  /** The situation of a restart at `at`: what crashed, and what the query read back then and before. */
  ghost predicate Restarted(crashed: Session, reading: Reading, table: seq<OrderRow>, rows: seq<OrderRow>, at: int) {
    && (exists k: nat :: Accounted(crashed, reading, k)) && Persists(reading.table, table)
    && Enabled(crashed, Restart(table, rows, at)) && StoredSince(crashed.history, reading.past)
  }

  /** Every attempt from the `past`-th on left a row. */
  predicate StoredSince(history: seq<Logged>, past: nat) {
    forall i | past <= i < |history| :: history[i].stored
  }

  lemma {:induction false} KnownConcat(a: seq<Logged>, b: seq<Logged>, life: nat)
    ensures Known(a + b, life) == Known(a, life) + Known(b, life)
  {
    if b == [] {
      assert a + b == a;
    } else {
      var n := |b| - 1;
      KnownConcat(a, b[..n], life);
      KnownAppend(a + b[..n], b[n], life);
      assert a + b == (a + b[..n]) + [b[n]];
    }
  }

  /** Which attempts of earlier lives are lost does not change with another restart. */
  lemma {:induction false} KnownForGood(history: seq<Logged>, life: nat)
    requires forall i | 0 <= i < |history| :: history[i].life < life
    ensures Known(history, life + 1) == Known(history, life)
  {
    if history != [] {
      KnownForGood(history[..|history| - 1], life);
    }
  }

  lemma {:induction false} StoredIsKnown(history: seq<Logged>, life: nat)
    requires StoredSince(history, 0)
    ensures Known(history, life) == history
  {
    if history != [] {
      var n := |history| - 1;
      StoredIsKnown(history[..n], life);
      assert history == history[..n] + [history[n]];
    }
  }

  /** What the next restart can know: what the last one could, and everything since. */
  lemma KnownSinceReading(s: Session, reading: Reading)
    requires ReadTruly(s, reading) && StoredSince(s.history, reading.past)
    ensures Known(s.history, s.life + 1) == Known(s.history[..reading.past], s.life) + s.history[reading.past..]
  {
    var before, since := s.history[..reading.past], s.history[reading.past..];
    assert s.history == before + since;
    KnownConcat(before, since, s.life + 1);
    KnownForGood(before, s.life);
    StoredIsKnown(since, s.life + 1);
  }

  lemma SuffixMeasuresLess(m: Measure, s: seq<Attempt>, k: nat, floor: int)
    requires k <= |s| && Costly(s)
    ensures Measured(m, s[k..], floor) <= Measured(m, s, floor)
  {
    assert s == s[..k] + s[k..];
    MeasuredConcat(m, s[..k], s[k..], floor);
    NotionalFloor(s[..k], floor, floor);
  }

  lemma MeasuredConcat(m: Measure, a: seq<Attempt>, b: seq<Attempt>, floor: int)
    ensures Measured(m, a + b, floor) == Measured(m, a, floor) + Measured(m, b, floor)
  {
    SinceConcat(a, b, floor);
    CountConcat(Since(a, floor), Since(b, floor), if m.Calls? then m.scope else Anything);
    NotionalConcat(Since(a, floor), Since(b, floor));
  }

  predicate CostlyRows(rows: seq<OrderRow>) { forall row | row in rows :: RowAttempt(row).notional >= 0.0 }

  lemma {:induction false} RecentTotalsLess(m: Measure, rows: seq<OrderRow>, low: int, floor: int)
    requires CostlyRows(rows)
    ensures RowTotal(m, Recent(rows, low), floor) <= RowTotal(m, rows, floor)
  {
    if rows != [] {
      var n := |rows| - 1;
      assert rows[n] in rows && forall row | row in rows[..n] :: row in rows;
      RecentTotalsLess(m, rows[..n], low, floor);
      RowTotalAppend(m, Recent(rows[..n], low), rows[n], floor);
    }
  }

  lemma {:induction false} SameTotals(m: Measure, a: seq<OrderRow>, b: seq<OrderRow>, floor: int)
    requires |a| == |b| && forall i | 0 <= i < |a| :: RowAttempt(a[i]) == RowAttempt(b[i])
    ensures RowTotal(m, a, floor) == RowTotal(m, b, floor)
  {
    if a != [] {
      SameTotals(m, a[..|a| - 1], b[..|b| - 1], floor);
    }
  }

  lemma {:induction false} AttemptsFrom(history: seq<Logged>, n: nat)
    requires n <= |history|
    ensures |Attempts(history)| == |history| && Attempts(history[n..]) == Attempts(history)[n..]
  {
    AttemptsAt(history);
    AttemptsAt(history[n..]);
    assert forall i | 0 <= i < |history| - n :: Attempts(history[n..])[i] == Attempts(history)[n..][i];
  }

  lemma MirroringRowsAreCostly(rows: seq<OrderRow>, table: seq<OrderRow>, history: seq<Logged>, now: int)
    requires Mirrors(table, history, now) && Costly(Attempts(history)) && |rows| <= |NotRejected(table)|
    requires forall i | 0 <= i < |rows| :: RowAttempt(NotRejected(table)[i]) == RowAttempt(rows[i])
    ensures CostlyRows(rows)
  {
    AttemptsAt(history);
    forall i | 0 <= i < |rows|
      ensures RowAttempt(rows[i]).notional >= 0.0
    {
      assert Attempts(history)[i] in Attempts(history);
    }
  }

  lemma SelectedRowsAreCostly(reading: Reading)
    requires Selected(reading.table, reading.at, reading.rows) && CostlyRows(NotRejected(reading.table))
    ensures Costly(RowAttempts(reading.rows))
  {
    var kept := NotRejected(reading.table);
    RowAttemptsAt(reading.rows);
    RecentIsSubset(kept, reading.at - DAY_MS);
    forall i | 0 <= i < |reading.rows|
      ensures RowAttempts(reading.rows)[i].notional >= 0.0
    {
      assert reading.rows[i] in multiset(Recent(kept, reading.at - DAY_MS));
    }
  }

  /** What a restart replayed measures no more than the rows it was read from. */
  lemma ReplayMeasuresLess(m: Measure, reading: Reading, floor: int)
    requires Selected(reading.table, reading.at, reading.rows) && CostlyRows(NotRejected(reading.table))
    ensures Measured(m, RowAttempts(reading.rows), floor) <= RowTotal(m, NotRejected(reading.table), floor)
  {
    var kept := NotRejected(reading.table);
    RowTotalIsMeasured(m, reading.rows, floor);
    RowOrderIsIrrelevant(m, reading.rows, Recent(kept, reading.at - DAY_MS), floor);
    RecentTotalsLess(m, kept, reading.at - DAY_MS, floor);
  }

  /** The rows behind the first `n` measure at least the attempts behind the first `n`. */
  lemma LaterRowsMeasureMore(m: Measure, table: seq<OrderRow>, history: seq<Logged>, now: int, n: nat, floor: int)
    requires Mirrors(table, history, now) && Costly(Attempts(history)) && n <= |history|
    ensures Measured(m, Attempts(history[n..]), floor) <= RowTotal(m, NotRejected(table)[n..], floor)
  {
    var kept := NotRejected(table);
    AttemptsFrom(history, n);
    assert forall a | a in Attempts(history)[n..] :: a in Attempts(history);
    RowsMeasureMore(m, kept[n..], history[n..], now, floor);
    RowTotalIsMeasured(m, kept[n..], floor);
  }

  lemma GateMeasuresLess(m: Measure, s: Session, reading: Reading, k: nat, floor: int)
    requires Remaining(s, reading, k) && Costly(Attempts(s.history)) && CostlyRows(NotRejected(reading.table))
    ensures Measured(m, s.gate.attempts, floor)
            <= RowTotal(m, NotRejected(reading.table), floor)
               + Measured(m, Attempts(s.history)[reading.past..], floor)
  {
    var base, since := RowAttempts(reading.rows), Attempts(s.history)[reading.past..];
    SelectedRowsAreCostly(reading);
    assert forall a | a in since :: a in Attempts(s.history);
    SuffixMeasuresLess(m, base + since, k, floor);
    MeasuredConcat(m, base, since, floor);
    ReplayMeasuresLess(m, reading, floor);
  }

  lemma RowsAddUp(m: Measure, earlier: seq<OrderRow>, kept: seq<OrderRow>, floor: int)
    requires |earlier| <= |kept| && forall i | 0 <= i < |earlier| :: RowAttempt(kept[i]) == RowAttempt(earlier[i])
    ensures RowTotal(m, kept, floor) == RowTotal(m, earlier, floor) + RowTotal(m, kept[|earlier|..], floor)
  {
    SameTotals(m, earlier, kept[..|earlier|], floor);
    RowTotalConcat(m, kept[..|earlier|], kept[|earlier|..], floor);
    assert kept[..|earlier|] + kept[|earlier|..] == kept;
  }

  /** The rows behind those of the last restart measure at least the attempts made since. */
  lemma NewRowsMeasureMore(m: Measure, s: Session, reading: Reading, table: seq<OrderRow>, at: int, floor: int)
    requires ReadTruly(s, reading) && Mirrors(table, Known(s.history, s.life + 1), at)
    requires Costly(Attempts(Known(s.history, s.life + 1)))
    requires Known(s.history, s.life + 1) == Known(s.history[..reading.past], s.life) + s.history[reading.past..]
    ensures |NotRejected(reading.table)| <= |NotRejected(table)| && reading.past <= |Attempts(s.history)|
    ensures Measured(m, Attempts(s.history)[reading.past..], floor)
            <= RowTotal(m, NotRejected(table)[|NotRejected(reading.table)|..], floor)
  {
    var known, n := Known(s.history, s.life + 1), |NotRejected(reading.table)|;
    assert known[n..] == s.history[reading.past..];
    AttemptsFrom(s.history, reading.past);
    LaterRowsMeasureMore(m, table, known, at, n, floor);
  }

  lemma StoredRowsMeasureMore(m: Measure, s: Session, reading: Reading, k: nat, table: seq<OrderRow>, at: int,
                              floor: int)
    requires Remaining(s, reading, k) && ReadTruly(s, reading) && StoredSince(s.history, reading.past) && Proper(s)
    requires Persists(reading.table, table) && Mirrors(table, Known(s.history, s.life + 1), at)
    ensures Measured(m, s.gate.attempts, floor) <= RowTotal(m, NotRejected(table), floor)
  {
    KnownSinceReading(s, reading);
    LogIsCostly(s.history);
    KnownIsCostly(s.history, s.life + 1);
    MirroringRowsAreCostly(NotRejected(reading.table), table, Known(s.history, s.life + 1), at);
    GateMeasuresLess(m, s, reading, k, floor);
    NewRowsMeasureMore(m, s, reading, table, at, floor);
    RowsAddUp(m, NotRejected(reading.table), NotRejected(table), floor);
  }

  lemma CrashedIsAccounted(crashed: Session, reading: Reading, table: seq<OrderRow>, rows: seq<OrderRow>, at: int)
    returns (k: nat)
    requires Restarted(crashed, reading, table, rows, at)
    ensures Remaining(crashed, reading, k) && ReadTruly(crashed, reading) && Proper(crashed)
  {
    k :| Accounted(crashed, reading, k);
  }

  lemma WarmMeasuresMore(m: Measure, crashed: Session, reading: Reading, table: seq<OrderRow>, rows: seq<OrderRow>,
                         at: int, floor: int)
    requires Restarted(crashed, reading, table, rows, at) && floor >= at - DAY_MS
    ensures Measured(m, crashed.gate.attempts, floor) <= Measured(m, WarmStart(rows).attempts, floor)
  {
    var k := CrashedIsAccounted(crashed, reading, table, rows, at);
    StoredRowsMeasureMore(m, crashed, reading, k, table, at, floor);
    WarmStartTotals(m, table, rows, at, floor);
  }

  lemma WarmIsOrdered(crashed: Session, reading: Reading, table: seq<OrderRow>, rows: seq<OrderRow>, at: int)
    requires Restarted(crashed, reading, table, rows, at)
    ensures Ordered(WarmStart(rows).attempts, at)
  {
    KnownIsCostly(crashed.history, crashed.life + 1);
    ReplayIsOrdered(table, rows, Known(crashed.history, crashed.life + 1), at);
  }

  /** After pruning at `t`, what the attempt caps compare is measured over the last 24 hours or hour. */
  lemma PrunedMeasures(s: seq<Attempt>, now: int, t: int, scope: Scope)
    requires Ordered(s, now)
    ensures var pruned := DropOldAttempts(s, t - DAY_MS);
            && Count(pruned, scope) as real == Measured(Calls(scope), s, t - DAY_MS)
            && Notional(pruned) == Measured(Spent, s, t - DAY_MS)
  {
    OrderedPrune(s, t - DAY_MS);
  }

  lemma PrunedHour(s: seq<Attempt>, now: int, t: int)
    requires Ordered(s, now)
    ensures |Since(DropOldAttempts(s, t - DAY_MS), t - HOUR_MS)| as real == Measured(Calls(Anything), s, t - HOUR_MS)
  {
    OrderedPrune(s, t - DAY_MS);
    SinceTwice(s, t - DAY_MS, t - HOUR_MS);
    CountAll(Since(s, t - HOUR_MS));
  }

  /** One figure over the last 24 hours, read off both pruned gates. */
  lemma PrunedFigure(m: Measure, s: seq<Attempt>, now: int, t: int)
    requires Ordered(s, now)
    ensures FigureOf(m, DropOldAttempts(s, t - DAY_MS)) == Measured(m, s, t - DAY_MS)
  {
    match m
    case Calls(scope) => PrunedMeasures(s, now, t, scope);
    case Spent => PrunedMeasures(s, now, t, Anything);
  }

  function FigureOf(m: Measure, s: seq<Attempt>): real {
    match m
    case Calls(scope) => Count(s, scope) as real
    case Spent => Notional(s)
  }

  lemma FigureCompares(m: Measure, crashed: Session, reading: Reading, table: seq<OrderRow>, rows: seq<OrderRow>,
                       at: int, t: int)
    requires Restarted(crashed, reading, table, rows, at) && t >= at
    ensures FigureOf(m, Prune(crashed.gate, t).attempts) <= FigureOf(m, Prune(WarmStart(rows), t).attempts)
  {
    WarmIsOrdered(crashed, reading, table, rows, at);
    PrunedFigure(m, crashed.gate.attempts, crashed.now, t);
    PrunedFigure(m, WarmStart(rows).attempts, at, t);
    WarmMeasuresMore(m, crashed, reading, table, rows, at, t - DAY_MS);
  }

  /** The crashed gate's figures for the caps of a scope are at most the warm-started gate's. */
  lemma FiguresCompare(crashed: Session, reading: Reading, table: seq<OrderRow>, rows: seq<OrderRow>, at: int, t: int,
                       scope: Scope)
    requires Restarted(crashed, reading, table, rows, at) && t >= at
    ensures Count(Prune(crashed.gate, t).attempts, scope) <= Count(Prune(WarmStart(rows), t).attempts, scope)
    ensures Notional(Prune(crashed.gate, t).attempts) <= Notional(Prune(WarmStart(rows), t).attempts)
  {
    FigureCompares(Calls(scope), crashed, reading, table, rows, at, t);
    FigureCompares(Spent, crashed, reading, table, rows, at, t);
  }

  lemma OverallFiguresCompare(crashed: Session, reading: Reading, table: seq<OrderRow>, rows: seq<OrderRow>, at: int,
                              t: int)
    requires Restarted(crashed, reading, table, rows, at) && t >= at
    ensures |Prune(crashed.gate, t).attempts| <= |Prune(WarmStart(rows), t).attempts|
    ensures |Since(Prune(crashed.gate, t).attempts, t - HOUR_MS)|
            <= |Since(Prune(WarmStart(rows), t).attempts, t - HOUR_MS)|
  {
    FiguresCompare(crashed, reading, table, rows, at, t, Anything);
    CountAll(Prune(crashed.gate, t).attempts);
    CountAll(Prune(WarmStart(rows), t).attempts);
    WarmIsOrdered(crashed, reading, table, rows, at);
    PrunedHour(crashed.gate.attempts, crashed.now, t);
    PrunedHour(WarmStart(rows).attempts, at, t);
    WarmMeasuresMore(Calls(Anything), crashed, reading, table, rows, at, t - HOUR_MS);
  }

  /** A gate whose figures are all at most another's passes wherever the other does. */
  lemma FewerAttemptsPass(l: Limits, fewer: Gate, more: Gate, r: Request, t: int)
    requires |Since(fewer.attempts, t - HOUR_MS)| <= |Since(more.attempts, t - HOUR_MS)|
    requires |fewer.attempts| <= |more.attempts|
    requires Count(fewer.attempts, OfTicker(r.ticker)) <= Count(more.attempts, OfTicker(r.ticker))
    requires Count(fewer.attempts, OfEvent(EventOf(r.ticker))) <= Count(more.attempts, OfEvent(EventOf(r.ticker)))
    requires Count(fewer.attempts, OfGroup(r.group)) <= Count(more.attempts, OfGroup(r.group))
    requires Notional(fewer.attempts) <= Notional(more.attempts)
    requires AttemptVerdict(l, more, r, t).None?
    ensures AttemptVerdict(l, fewer, r, t).None?
  {
  }

  lemma AttemptCapsCompare(l: Limits, crashed: Session, reading: Reading, table: seq<OrderRow>, rows: seq<OrderRow>,
                           at: int, r: Request, t: int)
    requires Restarted(crashed, reading, table, rows, at) && t >= at
    requires AttemptVerdict(l, Prune(WarmStart(rows), t), r, t).None?
    ensures AttemptVerdict(l, Prune(crashed.gate, t), r, t).None?
  {
    OverallFiguresCompare(crashed, reading, table, rows, at, t);
    FiguresCompare(crashed, reading, table, rows, at, t, OfTicker(r.ticker));
    FiguresCompare(crashed, reading, table, rows, at, t, OfEvent(EventOf(r.ticker)));
    FiguresCompare(crashed, reading, table, rows, at, t, OfGroup(r.group));
    FewerAttemptsPass(l, Prune(crashed.gate, t), Prune(WarmStart(rows), t), r, t);
  }

  /** A row of an earlier table that is recent enough is still among the selected ones, on the same side. */
  lemma RowSurvives(reading: Reading, table: seq<OrderRow>, rows: seq<OrderRow>, at: int,
                    row: OrderRow) returns (j: nat)
    requires Selected(reading.table, reading.at, reading.rows) && Selected(table, at, rows)
    requires Persists(reading.table, table) && row in reading.rows && row.requestedAt >= at - DAY_MS
    ensures j < |rows| && rows[j].ticker == row.ticker && rows[j].side == row.side
    ensures rows[j].requestedAt == row.requestedAt
  {
    var before, kept := NotRejected(reading.table), NotRejected(table);
    assert row in multiset(Recent(before, reading.at - DAY_MS));
    RecentIsSubset(before, reading.at - DAY_MS);
    assert row in Recent(before, reading.at - DAY_MS) && row in before;
    var i :| 0 <= i < |before| && before[i] == row;
    assert RowAttempt(kept[i]) == RowAttempt(row);
    RecentContains(kept, i, at - DAY_MS);
    assert kept[i] in multiset(rows);
    j :| 0 <= j < |rows| && rows[j] == kept[i];
  }

  lemma CooldownSurvives(l: Limits, crashed: Session, reading: Reading, table: seq<OrderRow>, rows: seq<OrderRow>,
                         at: int, r: Request, t: int)
    requires Restarted(crashed, reading, table, rows, at) && t >= at && l.cooldownMs <= DAY_MS as real
    requires CoolingDown(l, crashed.gate, r, t)
    ensures CoolingDown(l, WarmStart(rows), r, t)
  {
    var key := (r.ticker, r.direction);
    var k: nat :| Accounted(crashed, reading, k);
    var stamp := crashed.gate.lastAttempt[key];
    assert Stamped(crashed, reading, key);
    if StampedByAttempt(crashed, reading, key, stamp) {
      var i :| reading.past <= i < |crashed.history| && crashed.history[i].attempt.ticker == key.0
               && crashed.history[i].direction == key.1 && crashed.history[i].attempt.at == stamp;
      RestartRemembers(crashed, table, rows, at);
      assert crashed.history[i] in crashed.history;
    } else {
      var i :| 0 <= i < |reading.rows| && reading.rows[i].ticker == key.0 && reading.rows[i].side == key.1
               && reading.rows[i].requestedAt == stamp;
      var j := RowSurvives(reading, table, rows, at, reading.rows[i]);
      ReplayRemembers(rows, j);
    }
  }

  /**
   Whatever a gate warm-started at `at` would let through on the cooldown (of at most 24 hours), attempt
   and notional caps at a later moment `t`, the crashed gate would have let through then too, however
   often that gate had itself crashed and been rebuilt. Each attempt made since the last rebuild left one
   non-rejected row of the same market, side and cost, stamped no earlier than it; and the rows the last rebuild
   read are stored still.
   */
  lemma WarmStartNoMorePermissive(l: Limits, start: nat, calls: seq<Call>, table: seq<OrderRow>, rows: seq<OrderRow>,
                                  at: int, r: Request, t: int)
    requires Legal(l, NewSession(start), calls) && Enabled(Run(l, NewSession(start), calls), Restart(table, rows, at))
    requires var reading := LastReading(l, NewSession(start), NOTHING_READ, calls);
             Persists(reading.table, table) && StoredSince(Run(l, NewSession(start), calls).history, reading.past)
    requires t >= at && l.cooldownMs <= DAY_MS as real
    ensures var crashed := Run(l, NewSession(start), calls).gate;
            var warm := WarmStart(rows);
            && (CoolingDown(l, crashed, r, t) ==> CoolingDown(l, warm, r, t))
            && (AttemptVerdict(l, Prune(warm, t), r, t).None? ==> AttemptVerdict(l, Prune(crashed, t), r, t).None?)
  {
    var crashed := Run(l, NewSession(start), calls);
    var reading := LastReading(l, NewSession(start), NOTHING_READ, calls);
    NewSessionIsAccounted(start);
    var k := RunIsAccounted(l, NewSession(start), calls, NOTHING_READ, 0);
    if CoolingDown(l, crashed.gate, r, t) {
      CooldownSurvives(l, crashed, reading, table, rows, at, r, t);
    }
    if AttemptVerdict(l, Prune(WarmStart(rows), t), r, t).None? {
      AttemptCapsCompare(l, crashed, reading, table, rows, at, r, t);
    }
  }

  lemma NewSessionIsAccounted(start: nat)
    ensures Accounted(NewSession(start), NOTHING_READ, 0)
  {
    forall key
      ensures Stamped(NewSession(start), NOTHING_READ, key)
    {
    }
  }

  lemma {:induction false} NotRejectedConcat(a: seq<OrderRow>, b: seq<OrderRow>)
    ensures NotRejected(a + b) == NotRejected(a) + NotRejected(b)
  {
    if b == [] {
      assert a + b == a;
    } else {
      assert (a + b)[..|a + b| - 1] == a + b[..|b| - 1];
      NotRejectedConcat(a, b[..|b| - 1]);
    }
  }

  /** A refusal is not an attempt: a rejected row, wherever it stands, changes no warm start. */
  lemma RejectedRowsChangeNothing(before: seq<OrderRow>, row: OrderRow, behind: seq<OrderRow>, now: int,
                                  rows: seq<OrderRow>)
    requires row.status.Rejected?
    ensures Selected(before + [row] + behind, now, rows) <==> Selected(before + behind, now, rows)
  {
    NotRejectedConcat(before + [row], behind);
    NotRejectedConcat(before, [row]);
    NotRejectedConcat(before, behind);
    assert [row][..0] == [];
    assert NotRejected([row]) == [];
  }
}
