/**
 What a restarted gate believes to be open before the first poll: the fills of the stored orders, summed over the
 rows themselves, and what that is worth as a start of the order protocol.
 */
module RestoredPositions {
  import opened Numbers
  import opened Wrappers
  import opened Orders
  import opened GateSpec
  import W = RollingWindow
  import opened OrderProtocol
  import opened Exposure

  /** The contracts a row says were filled: its count when that parses and is positive. */
  function FilledBy(row: OrderRow): real {
    match row.fillCount
    case Some(Parsed(n)) => if n > 0.0 then n else 0.0
    case Some(Garbage(_)) => 0.0
    case None => 0.0
  }

  /** Whether a row is about a market of the scope; an unstated group is the unknown one. */
  predicate About(row: OrderRow, scope: Scope) {
    match scope
    case Anything => true
    case OfTicker(t) => row.ticker == t
    case OfEvent(e) => EventOf(row.ticker) == e
    case OfGroup(g) => if row.group.Some? then row.group.value == g else g == ""
  }

  /** The contracts the rows of a scope, stamped at `floor` or later, say were filled. */
  function FillTotal(rows: seq<OrderRow>, scope: Scope, floor: int): real {
    if rows == [] then 0.0
    else
      var last := rows[|rows| - 1];
      FillTotal(rows[..|rows| - 1], scope, floor)
      + if About(last, scope) && last.requestedAt >= floor then FilledBy(last) else 0.0
  }

  lemma ReplayFills(g: Gate, row: OrderRow, scope: Scope, floor: int)
    ensures FilledSince(Replay(g, row).fills, scope, floor)
            == FilledSince(g.fills, scope, floor)
               + if About(row, scope) && row.requestedAt >= floor then FilledBy(row) else 0.0
  {
    var after := Replay(g, row).fills;
    if |after| > |g.fills| {
      FilledConcat(g.fills, [after[|g.fills|]], scope, floor);
      assert [after[|g.fills|]][1..] == [];
      assert after == g.fills + [after[|g.fills|]];
    }
  }

  lemma {:induction false} ReplayedFills(rows: seq<OrderRow>, scope: Scope, floor: int)
    ensures FilledSince(WarmStart(rows).fills, scope, floor) == FillTotal(rows, scope, floor)
  {
    if rows != [] {
      ReplayedFills(rows[..|rows| - 1], scope, floor);
      ReplayFills(WarmStart(rows[..|rows| - 1]), rows[|rows| - 1], scope, floor);
    }
  }

  lemma {:induction false} NoBaselineYet(rows: seq<OrderRow>)
    ensures var g := WarmStart(rows);
            g.byTicker == map[] && g.byEvent == map[] && g.byGroup == map[] && g.reconciledAt == 0 && g.inFlight == 0
  {
    if rows != [] {
      NoBaselineYet(rows[..|rows| - 1]);
    }
  }

  /**
   Before any poll, the position a restarted gate computes for a ticker, event or group is the total of what the
   selected rows of the last 24 hours say was filled there.
   */
  lemma RestoredPosition(rows: seq<OrderRow>, scope: Scope, now: int)
    ensures Position(WarmStart(rows), scope, now) == FillTotal(rows, scope, Max(0, now - DAY_MS))
  {
    NoBaselineYet(rows);
    ReplayedFills(rows, scope, Max(0, now - DAY_MS));
  }

  // ---- Against the table ---------------------------------------------------------------------

  lemma FillTotalAppend(rows: seq<OrderRow>, row: OrderRow, scope: Scope, floor: int)
    ensures FillTotal(rows + [row], scope, floor)
            == FillTotal(rows, scope, floor)
               + if About(row, scope) && row.requestedAt >= floor then FilledBy(row) else 0.0
  {
    assert (rows + [row])[..|rows|] == rows;
  }

  lemma {:induction false} FillTotalConcat(a: seq<OrderRow>, b: seq<OrderRow>, scope: Scope, floor: int)
    ensures FillTotal(a + b, scope, floor) == FillTotal(a, scope, floor) + FillTotal(b, scope, floor)
  {
    if b == [] {
      assert a + b == a;
    } else {
      var n := |b| - 1;
      FillTotalConcat(a, b[..n], scope, floor);
      FillTotalAppend(a + b[..n], b[n], scope, floor);
      assert a + b == (a + b[..n]) + [b[n]];
    }
  }

  lemma FillTotalWithout(rows: seq<OrderRow>, j: nat, scope: Scope, floor: int)
    requires j < |rows|
    ensures FillTotal(rows, scope, floor)
            == FillTotal(rows[..j] + rows[j + 1..], scope, floor)
               + if About(rows[j], scope) && rows[j].requestedAt >= floor then FilledBy(rows[j]) else 0.0
  {
    FillTotalConcat(rows[..j], rows[j + 1..], scope, floor);
    FillTotalAppend(rows[..j], rows[j], scope, floor);
    FillTotalConcat(rows[..j] + [rows[j]], rows[j + 1..], scope, floor);
    assert rows == (rows[..j] + [rows[j]]) + rows[j + 1..];
  }

  lemma {:induction false} FillOrderIsIrrelevant(a: seq<OrderRow>, b: seq<OrderRow>, scope: Scope, floor: int)
    requires multiset(a) == multiset(b)
    ensures FillTotal(a, scope, floor) == FillTotal(b, scope, floor)
    decreases |a|
  {
    if a == [] {
      assert |b| == |multiset(b)| == 0;
    } else {
      var j := W.FindInPermutation(a, b);
      FillOrderIsIrrelevant(a[..|a| - 1], b[..j] + b[j + 1..], scope, floor);
      FillTotalWithout(b, j, scope, floor);
    }
  }

  lemma {:induction false} RecentFillsSuffice(rows: seq<OrderRow>, low: int, scope: Scope, floor: int)
    requires low <= floor
    ensures FillTotal(W.Recent(rows, low), scope, floor) == FillTotal(rows, scope, floor)
  {
    if rows != [] {
      var n := |rows| - 1;
      RecentFillsSuffice(rows[..n], low, scope, floor);
      FillTotalAppend(W.Recent(rows[..n], low), rows[n], scope, floor);
    }
  }

  /** So it is, at any later moment, the total of what the stored orders of the last 24 hours say was filled. */
  lemma RestoredFromTable(table: seq<OrderRow>, rows: seq<OrderRow>, at: int, scope: Scope, now: int)
    requires W.Selected(table, at, rows) && at <= now
    ensures Position(WarmStart(rows), scope, now) == FillTotal(W.NotRejected(table), scope, Max(0, now - DAY_MS))
  {
    var floor := Max(0, now - DAY_MS);
    RestoredPosition(rows, scope, now);
    FillOrderIsIrrelevant(rows, W.Recent(W.NotRejected(table), at - DAY_MS), scope, floor);
    RecentFillsSuffice(W.NotRejected(table), at - DAY_MS, scope, floor);
  }

  // ---- Groups --------------------------------------------------------------------------------

  /** The group the newest row of a ticker states, if any row of it states one. */
  function LastGroup(rows: seq<OrderRow>, ticker: Ticker): Group {
    if rows == [] then ""
    else
      var last := rows[|rows| - 1];
      if last.ticker == ticker && last.group.Some? && last.group.value != "" then last.group.value
      else LastGroup(rows[..|rows| - 1], ticker)
  }

  /** A restarted gate knows each ticker's group as the newest row that states one has it. */
  lemma {:induction false} RestoredGroup(rows: seq<OrderRow>, ticker: Ticker)
    ensures Get(WarmStart(rows).groupOf, ticker, "") == LastGroup(rows, ticker)
  {
    if rows != [] {
      RestoredGroup(rows[..|rows| - 1], ticker);
    }
  }

  // ---- A restart is a start of the order protocol --------------------------------------------

  /** A gate just rebuilt, beside the positions the exchange holds. */
  function RestartedWorld(rows: seq<OrderRow>, at: int, book: seq<Holding>): World {
    World(WarmStart(rows), [], at, [], book, [])
  }

  lemma {:induction false} RestoredFillsArePositive(rows: seq<OrderRow>)
    ensures forall f | f in WarmStart(rows).fills :: f.count > 0.0
  {
    if rows != [] {
      RestoredFillsArePositive(rows[..|rows| - 1]);
    }
  }

  lemma RestartIsAStart(rows: seq<OrderRow>, at: int, book: seq<Holding>, scope: Scope, fixed: map<Ticker, Group>)
    requires at >= 0 && OneHoldingEach(book) && Capped(scope)
    requires GroupsKnown(RestartedWorld(rows, at, book), scope, fixed)
    requires Open(book, scope, fixed) <= FillTotal(rows, scope, 0)
    ensures Start(RestartedWorld(rows, at, book), scope, fixed)
  {
    var w := RestartedWorld(rows, at, book);
    NoBaselineYet(rows);
    RestoredFillsArePositive(rows);
    ReplayedFills(rows, scope, 0);
    assert AllFills(w) == w.gate.fills;
  }

  /**
   When the rows a restart reads account for what is open, so does the gate it rebuilds, for good: after any run from
   there nothing open is missing from what the gate computes, and the exposure bound holds.
   */
  lemma RestartNeverUnderCounts(l: Limits, rows: seq<OrderRow>, at: int, book: seq<Holding>, steps: seq<Step>,
                                scope: Scope, fixed: map<Ticker, Group>)
    requires at >= 0 && OneHoldingEach(book) && Capped(scope)
    requires GroupsKnown(RestartedWorld(rows, at, book), scope, fixed)
    requires Open(book, scope, fixed) <= FillTotal(rows, scope, 0)
    requires Legal(l, RestartedWorld(rows, at, book), steps) && GroupsFixed(steps, scope, fixed)
    ensures var after := Run(l, RestartedWorld(rows, at, book), steps);
            && Open(after.book, scope, fixed)
               <= Baseline(after.gate, scope) + FilledSince(AllFills(after), scope, after.gate.reconciledAt)
                  + Total(Unrecorded, after.orders, scope, fixed)
            && (FreshThroughout(l, RestartedWorld(rows, at, book), steps) ==>
                  ExposureOf(after, scope, fixed)
                  <= RMax(Open(book, scope, fixed), Allowance(l, scope))
                     + Total(AdriftCount, after.orders, scope, fixed))
  {
    RestartIsAStart(rows, at, book, scope, fixed);
    NeverUnderCounted(l, RestartedWorld(rows, at, book), steps, scope, fixed);
    if FreshThroughout(l, RestartedWorld(rows, at, book), steps) {
      ExposureBounded(l, RestartedWorld(rows, at, book), steps, scope, fixed);
    }
  }
}
