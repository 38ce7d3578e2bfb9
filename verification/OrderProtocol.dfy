/**
 The order protocol around the risk gate, as a state machine.

 Wakes are checked, recorded and put in flight in one atomic step; the exchange executes an order at
 an unknown later moment; its fill is reported later still, or the dispatch fails; markets settle;
 and polls of the open positions are stamped, read and applied at three separate moments, several of
 them possibly overlapping. The `World` keeps the exchange's true signed positions beside the gate.
 */
module OrderProtocol {
  import opened Numbers
  import opened Wrappers
  import opened Orders
  import opened GateSpec

  datatype Phase =
    | Sent                          // in flight, not yet executed by the exchange
    | Executed(fill: real)          // executed, the response not yet seen
    | Recorded                      // the response came back and its fill was recorded
    | Refused                       // the dispatch failed and filled nothing, now or ever
    | Adrift                        // the dispatch failed, and the exchange may still execute it
    | AdriftExecuted(fill: real)    // the dispatch failed, and the exchange did execute it

  datatype Order = Order(ticker: Ticker, direction: Direction, count: int, phase: Phase)

  /** The exchange's signed net position on one ticker: positive is long YES. */
  datatype Holding = Holding(ticker: Ticker, net: real)

  datatype Poll = Poll(stamp: int, seen: Option<Positions>)

  datatype World = World(
    gate: Gate,
    expired: seq<Fill>,      // fills recorded once and since pruned
    now: int,
    orders: seq<Order>,
    book: seq<Holding>,
    polls: seq<Poll>)

  datatype Step =
    | Wake(request: Request, checkedAt: int, recordedAt: int)
    | Execute(order: nat, fill: real)
    | Report(order: nat, at: int)
    | Fail(order: nat, filledNothing: bool)
    | Settle(ticker: Ticker)
    | Stamp(at: int)
    | Read(poll: nat)
    | Apply(poll: nat)
    | Tick(at: int)

  /** Every fill ever recorded, oldest first. */
  function AllFills(w: World): seq<Fill> { w.expired + w.gate.fills }

  // ---- The exchange's book -------------------------------------------------------------------

  function Traded(book: seq<Holding>): set<Ticker> {
    if book == [] then {} else Traded(book[..|book| - 1]) + {book[|book| - 1].ticker}
  }

  predicate OneHoldingEach(book: seq<Holding>) {
    book == []
    || (OneHoldingEach(book[..|book| - 1]) && book[|book| - 1].ticker !in Traded(book[..|book| - 1]))
  }

  function Move(book: seq<Holding>, ticker: Ticker, change: real): seq<Holding> {
    if book == [] then [Holding(ticker, change)]
    else
      var last := book[|book| - 1];
      if last.ticker == ticker then book[..|book| - 1] + [Holding(ticker, last.net + change)]
      else Move(book[..|book| - 1], ticker, change) + [last]
  }

  function Clear(book: seq<Holding>, ticker: Ticker): seq<Holding> {
    if book == [] then []
    else
      var last := book[|book| - 1];
      Clear(book[..|book| - 1], ticker) + [if last.ticker == ticker then Holding(ticker, 0.0) else last]
  }

  /** What a poll read at this moment lists: the size of every open position, flat tickers omitted. */
  function Snapshot(book: seq<Holding>): Positions {
    if book == [] then []
    else
      var last := book[|book| - 1];
      var rest := Snapshot(book[..|book| - 1]);
      if last.net == 0.0 then rest else rest + [(last.ticker, Abs(last.net))]
  }

  // ---- The step relation ---------------------------------------------------------------------

  predicate Enabled(w: World, s: Step) {
    match s
    case Wake(r, checkedAt, recordedAt) => w.now <= checkedAt <= recordedAt && r.count >= 1
    case Execute(i, fill) =>
      i < |w.orders| && (w.orders[i].phase.Sent? || w.orders[i].phase.Adrift?)
      && 0.0 <= fill <= w.orders[i].count as real
    case Report(i, at) => i < |w.orders| && w.orders[i].phase.Executed? && w.now <= at
    case Fail(i, filledNothing) =>
      i < |w.orders| && (w.orders[i].phase.Sent? || (w.orders[i].phase.Executed? && !filledNothing))
    case Settle(_) => true
    case Stamp(at) => w.now <= at
    case Read(j) => j < |w.polls| && w.polls[j].seen.None?
    case Apply(j) => j < |w.polls| && w.polls[j].seen.Some?
    case Tick(at) => w.now <= at
  }

  /** The gate after a check, with whatever the check pruned moved to the expired fills. */
  function Checked(l: Limits, w: World, r: Request, now: int): World {
    var (gate, _) := Decide(l, w.gate, r, now);
    var all := AllFills(w);
    w.(gate := gate, now := now, expired := if |gate.fills| <= |all| then all[..|all| - |gate.fills|] else all)
  }

  predicate Admits(l: Limits, w: World, r: Request, now: int) {
    Decide(l, w.gate, r, now).1.None?
  }

  function Next(l: Limits, w: World, s: Step): World
    requires Enabled(w, s)
  {
    match s
    case Wake(r, checkedAt, recordedAt) =>
      var checked := Checked(l, w, r, checkedAt);
      if !Admits(l, w, r, checkedAt) then checked
      else checked.(gate := Admit(checked.gate, r, recordedAt), now := recordedAt,
                    orders := w.orders + [Order(r.ticker, r.direction, r.count, Sent)])
    case Execute(i, fill) =>
      var o := w.orders[i];
      var executed := if o.phase.Sent? then Executed(fill) else AdriftExecuted(fill);
      w.(orders := w.orders[i := o.(phase := executed)],
         book := Move(w.book, o.ticker, if o.direction == Yes then fill else -fill))
    case Report(i, at) =>
      var o := w.orders[i];
      w.(gate := EndDispatch(RecordFill(w.gate, o.ticker, o.phase.fill, at)), now := at,
         orders := w.orders[i := o.(phase := Recorded)])
    case Fail(i, filledNothing) =>
      var o := w.orders[i];
      var failed := if filledNothing then Refused
                    else if o.phase.Sent? then Adrift else AdriftExecuted(o.phase.fill);
      w.(gate := EndDispatch(w.gate), orders := w.orders[i := o.(phase := failed)])
    case Settle(ticker) => w.(book := Clear(w.book, ticker))
    case Stamp(at) => w.(now := at, polls := w.polls + [Poll(at, None)])
    case Read(j) => w.(polls := w.polls[j := w.polls[j].(seen := Some(Snapshot(w.book)))])
    case Apply(j) => w.(gate := Reconcile(w.gate, w.polls[j].seen.value, w.polls[j].stamp))
    case Tick(at) => w.(now := at)
  }

  // ---- What is counted -----------------------------------------------------------------------

  /** Whether `ticker` lies in `scope`, groups being read from the fixed assignment `fixed`. */
  predicate In(scope: Scope, ticker: Ticker, fixed: map<Ticker, Group>) {
    Covers(scope, ticker, Get(fixed, ticker, ""))
  }

  /** True open contracts within a scope: the sum of the sizes of its net positions. */
  function Open(book: seq<Holding>, scope: Scope, fixed: map<Ticker, Group>): real {
    if book == [] then 0.0
    else
      var last := book[|book| - 1];
      Open(book[..|book| - 1], scope, fixed) + if In(scope, last.ticker, fixed) then Abs(last.net) else 0.0
  }

  function Listed(positions: Positions, scope: Scope, fixed: map<Ticker, Group>): real {
    if positions == [] then 0.0
    else
      var last := positions[|positions| - 1];
      Listed(positions[..|positions| - 1], scope, fixed) + if In(scope, last.0, fixed) then last.1 else 0.0
  }

  datatype Weight = Unexecuted | Unrecorded | AdriftCount

  /** What an order weighs: contracts it may still fill, has filled unseen, or had when its dispatch failed. */
  function Weigh(weight: Weight, o: Order): real {
    match weight
    case Unexecuted => if o.phase.Sent? || o.phase.Adrift? then o.count as real else 0.0
    case Unrecorded => if o.phase.Executed? || o.phase.AdriftExecuted? then o.phase.fill else 0.0
    case AdriftCount => if o.phase.Adrift? || o.phase.AdriftExecuted? then o.count as real else 0.0
  }

  function Total(weight: Weight, orders: seq<Order>, scope: Scope, fixed: map<Ticker, Group>): real {
    if orders == [] then 0.0
    else
      var last := orders[|orders| - 1];
      Total(weight, orders[..|orders| - 1], scope, fixed)
      + if In(scope, last.ticker, fixed) then Weigh(weight, last) else 0.0
  }

  predicate Live(o: Order) { o.phase.Sent? || o.phase.Executed? }

  function LiveOrders(orders: seq<Order>): nat {
    if orders == [] then 0
    else LiveOrders(orders[..|orders| - 1]) + if Live(orders[|orders| - 1]) then 1 else 0
  }

  function Cap(l: Limits, scope: Scope): real {
    match scope
    case Anything => 0.0
    case OfTicker(_) => l.contractsPerTicker
    case OfEvent(_) => l.contractsPerEvent
    case OfGroup(_) => l.contractsPerGroup
  }

  /** The scopes a position cap applies to; the unknown group has none. */
  predicate Capped(scope: Scope) { scope != Anything && scope != OfGroup("") }

  // ---- Lemmas about the sums -----------------------------------------------------------------

  lemma {:induction false} TotalUpdate(weight: Weight, orders: seq<Order>, i: nat, phase: Phase, scope: Scope,
                                       fixed: map<Ticker, Group>)
    requires i < |orders|
    ensures var after := orders[i].(phase := phase);
            Total(weight, orders[i := after], scope, fixed)
            == Total(weight, orders, scope, fixed)
               + if In(scope, after.ticker, fixed) then Weigh(weight, after) - Weigh(weight, orders[i]) else 0.0
  {
    var n := |orders| - 1;
    var after := orders[i].(phase := phase);
    if i == n {
      assert orders[i := after][..n] == orders[..n];
    } else {
      assert orders[i := after][..n] == orders[..n][i := after];
      TotalUpdate(weight, orders[..n], i, phase, scope, fixed);
    }
  }

  lemma {:induction false} LiveUpdate(orders: seq<Order>, i: nat, phase: Phase)
    requires i < |orders|
    ensures var after := orders[i].(phase := phase);
            LiveOrders(orders[i := after])
            == LiveOrders(orders) - (if Live(orders[i]) then 1 else 0) + (if Live(after) then 1 else 0)
  {
    var n := |orders| - 1;
    var after := orders[i].(phase := phase);
    if i == n {
      assert orders[i := after][..n] == orders[..n];
    } else {
      assert orders[i := after][..n] == orders[..n][i := after];
      LiveUpdate(orders[..n], i, phase);
    }
  }

  lemma {:induction false} LiveMeansPositive(orders: seq<Order>, i: nat)
    requires i < |orders| && Live(orders[i])
    ensures LiveOrders(orders) >= 1
  {
    if i < |orders| - 1 {
      assert orders[..|orders| - 1][i] == orders[i];
      LiveMeansPositive(orders[..|orders| - 1], i);
    }
  }

  lemma {:induction false} MoveOpen(book: seq<Holding>, ticker: Ticker, change: real, scope: Scope,
                                    fixed: map<Ticker, Group>)
    ensures Open(Move(book, ticker, change), scope, fixed)
            <= Open(book, scope, fixed) + if In(scope, ticker, fixed) then Abs(change) else 0.0
  {
    if book == [] {
      assert Move(book, ticker, change)[..0] == [];
    } else {
      var n := |book| - 1;
      var after := Move(book, ticker, change);
      if book[n].ticker == ticker {
        assert after[..|after| - 1] == book[..n];
      } else {
        MoveOpen(book[..n], ticker, change, scope, fixed);
        assert after[..|after| - 1] == Move(book[..n], ticker, change);
      }
    }
  }

  lemma {:induction false} MoveKeepsBook(book: seq<Holding>, ticker: Ticker, change: real)
    ensures Traded(Move(book, ticker, change)) == Traded(book) + {ticker}
    ensures OneHoldingEach(book) ==> OneHoldingEach(Move(book, ticker, change))
  {
    if book == [] {
      assert Move(book, ticker, change)[..0] == [];
    } else {
      var n := |book| - 1;
      var after := Move(book, ticker, change);
      if book[n].ticker == ticker {
        assert after[..|after| - 1] == book[..n];
      } else {
        MoveKeepsBook(book[..n], ticker, change);
        assert after[..|after| - 1] == Move(book[..n], ticker, change);
      }
    }
  }

  lemma {:induction false} ClearKeepsBook(book: seq<Holding>, ticker: Ticker, scope: Scope, fixed: map<Ticker, Group>)
    ensures Traded(Clear(book, ticker)) == Traded(book)
    ensures OneHoldingEach(book) ==> OneHoldingEach(Clear(book, ticker))
    ensures Open(Clear(book, ticker), scope, fixed) <= Open(book, scope, fixed)
  {
    if book != [] {
      var n := |book| - 1;
      var after := Clear(book, ticker);
      ClearKeepsBook(book[..n], ticker, scope, fixed);
      assert after[..|after| - 1] == Clear(book[..n], ticker);
    }
  }

  lemma {:induction false} SnapshotIsDistinct(book: seq<Holding>)
    requires OneHoldingEach(book)
    ensures DistinctTickers(Snapshot(book)) && TickersIn(Snapshot(book)) <= Traded(book)
    ensures forall p | p in Snapshot(book) :: p.1 > 0.0
  {
    if book != [] {
      var n := |book| - 1;
      SnapshotIsDistinct(book[..n]);
      if book[n].net != 0.0 {
        assert Snapshot(book)[..|Snapshot(book)| - 1] == Snapshot(book[..n]);
      }
    }
  }

  lemma ListedAppend(positions: Positions, p: (Ticker, real), scope: Scope, fixed: map<Ticker, Group>)
    ensures Listed(positions + [p], scope, fixed)
            == Listed(positions, scope, fixed) + if In(scope, p.0, fixed) then p.1 else 0.0
  {
    assert (positions + [p])[..|positions|] == positions;
  }

  /** The sizes a poll lists add up to the true open contracts of any scope. */
  lemma {:induction false} SnapshotIsTrue(book: seq<Holding>, scope: Scope, fixed: map<Ticker, Group>)
    ensures Listed(Snapshot(book), scope, fixed) == Open(book, scope, fixed)
  {
    if book != [] {
      var rest := book[..|book| - 1];
      var last := book[|book| - 1];
      SnapshotIsTrue(rest, scope, fixed);
      ListedAppend(Snapshot(rest), (last.ticker, Abs(last.net)), scope, fixed);
    }
  }

  lemma {:induction false} ListedAbsentTicker(positions: Positions, ticker: Ticker, fixed: map<Ticker, Group>)
    requires ticker !in TickersIn(positions)
    ensures Listed(positions, OfTicker(ticker), fixed) == 0.0
    ensures ticker !in ByTicker(positions)
  {
    if positions != [] {
      ListedAbsentTicker(positions[..|positions| - 1], ticker, fixed);
    }
  }

  /** Whether the gate knows the assigned group of every ticker in `tickers`. */
  predicate KnowsGroups(g: Gate, tickers: set<Ticker>, fixed: map<Ticker, Group>) {
    forall t | t in tickers :: Get(g.groupOf, t, "") == Get(fixed, t, "")
  }

  /** A reconciled baseline is, for every capped scope, the total of what the poll listed in it. */
  lemma {:induction false} BaselineIsListed(g: Gate, positions: Positions, at: int, scope: Scope,
                                            fixed: map<Ticker, Group>)
    requires DistinctTickers(positions) && Capped(scope)
    requires scope.OfGroup? ==> KnowsGroups(g, TickersIn(positions), fixed)
    ensures Baseline(Reconcile(g, positions, at), scope) == Listed(positions, scope, fixed)
  {
    if positions != [] {
      var n := |positions| - 1;
      BaselineIsListed(g, positions[..n], at, scope, fixed);
      if scope.OfTicker? && positions[n].0 == scope.ticker {
        ListedAbsentTicker(positions[..n], scope.ticker, fixed);
      }
    }
  }

  lemma {:induction false} ListedNonNegative(positions: Positions, scope: Scope, fixed: map<Ticker, Group>)
    requires forall p | p in positions :: p.1 > 0.0
    ensures Listed(positions, scope, fixed) >= 0.0
  {
    if positions != [] {
      ListedNonNegative(positions[..|positions| - 1], scope, fixed);
    }
  }

  lemma {:induction false} FilledNonNegative(fills: seq<Fill>, scope: Scope, floor: int)
    requires forall f | f in fills :: f.count > 0.0
    ensures FilledSince(fills, scope, floor) >= 0.0
  {
    if fills != [] {
      assert fills[0] in fills;
      FilledNonNegative(fills[1..], scope, floor);
    }
  }
}
