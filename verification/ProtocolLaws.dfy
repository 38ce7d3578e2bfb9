/**
 What the order protocol allows, so that its bounds are about something: the exchange's book is the sum of what was
 executed, an order may end in every way it can at the exchange, and a poll leaves the gate with the truth.
 */
module ProtocolLaws {
  import opened Numbers
  import opened Wrappers
  import opened Orders
  import opened GateSpec
  import opened OrderProtocol
  import opened Exposure

  // ---- The book ------------------------------------------------------------------------------

  /** The exchange's signed position on one ticker. */
  function Net(book: seq<Holding>, ticker: Ticker): real {
    if book == [] then 0.0
    else
      var last := book[|book| - 1];
      Net(book[..|book| - 1], ticker) + if last.ticker == ticker then last.net else 0.0
  }

  lemma NetAppend(book: seq<Holding>, h: Holding, ticker: Ticker)
    ensures Net(book + [h], ticker) == Net(book, ticker) + if h.ticker == ticker then h.net else 0.0
  {
    assert (book + [h])[..|book|] == book;
  }

  lemma {:induction false} NetAfterMove(book: seq<Holding>, moved: Ticker, change: real, ticker: Ticker)
    ensures Net(Move(book, moved, change), ticker) == Net(book, ticker) + if moved == ticker then change else 0.0
  {
    if book == [] {
      NetAppend([], Holding(moved, change), ticker);
    } else {
      var n := |book| - 1;
      if book[n].ticker == moved {
        NetAppend(book[..n], Holding(moved, book[n].net + change), ticker);
      } else {
        NetAfterMove(book[..n], moved, change, ticker);
        NetAppend(Move(book[..n], moved, change), book[n], ticker);
      }
    }
  }

  lemma {:induction false} NetAfterSettle(book: seq<Holding>, settled: Ticker, ticker: Ticker)
    ensures Net(Clear(book, settled), ticker) == if settled == ticker then 0.0 else Net(book, ticker)
  {
    if book != [] {
      var n := |book| - 1;
      NetAfterSettle(book[..n], settled, ticker);
      NetAppend(Clear(book[..n], settled),
                if book[n].ticker == settled then Holding(settled, 0.0) else book[n], ticker);
    }
  }

  /** One step's effect on the position a run has built up: contracts bought on YES add, on NO subtract. */
  function Held(w: World, s: Step, ticker: Ticker, net: real): real
    requires Enabled(w, s)
  {
    if s.Execute? && w.orders[s.order].ticker == ticker then
      match w.orders[s.order].direction
      case Yes => net + s.fill
      case No => net - s.fill
    else if s == Settle(ticker) then 0.0
    else net
  }

  function Holds(l: Limits, w: World, steps: seq<Step>, ticker: Ticker, net: real): real
    requires Legal(l, w, steps)
    decreases |steps|
  {
    if steps == [] then net else Holds(l, Next(l, w, steps[0]), steps[1..], ticker, Held(w, steps[0], ticker, net))
  }

  lemma StepHolds(l: Limits, w: World, s: Step, ticker: Ticker)
    requires Enabled(w, s)
    ensures Net(Next(l, w, s).book, ticker) == Held(w, s, ticker, Net(w.book, ticker))
  {
    if s.Execute? {
      var o := w.orders[s.order];
      NetAfterMove(w.book, o.ticker, if o.direction == Yes then s.fill else -s.fill, ticker);
    } else if s.Settle? {
      NetAfterSettle(w.book, s.ticker, ticker);
    } else {
      OnlyExchangeMovesBook(l, w, s);
    }
  }

  /** After any run the book holds, on every ticker, what was executed there since it last settled, signed. */
  lemma {:induction false} BookIsWhatWasExecuted(l: Limits, w: World, steps: seq<Step>, ticker: Ticker)
    requires Legal(l, w, steps)
    ensures Net(Run(l, w, steps).book, ticker) == Holds(l, w, steps, ticker, Net(w.book, ticker))
    decreases |steps|
  {
    if steps != [] {
      StepHolds(l, w, steps[0], ticker);
      BookIsWhatWasExecuted(l, Next(l, w, steps[0]), steps[1..], ticker);
    }
  }

  lemma {:induction false} NotTraded(book: seq<Holding>, ticker: Ticker, fixed: map<Ticker, Group>)
    requires ticker !in Traded(book)
    ensures Net(book, ticker) == 0.0 && Open(book, OfTicker(ticker), fixed) == 0.0
  {
    if book != [] {
      NotTraded(book[..|book| - 1], ticker, fixed);
    }
  }

  /** The open contracts of a ticker are the size of its position, whichever its side. */
  lemma {:induction false} OpenIsSize(book: seq<Holding>, ticker: Ticker, fixed: map<Ticker, Group>)
    requires OneHoldingEach(book)
    ensures Open(book, OfTicker(ticker), fixed) == Abs(Net(book, ticker))
  {
    if book != [] {
      var n := |book| - 1;
      if book[n].ticker == ticker {
        NotTraded(book[..n], ticker, fixed);
      } else {
        OpenIsSize(book[..n], ticker, fixed);
      }
    }
  }

  // ---- Every way an order may end ------------------------------------------------------------

  lemma TwoSteps(l: Limits, w: World, a: Step, b: Step)
    requires Enabled(w, a) && Enabled(Next(l, w, a), b)
    ensures Legal(l, w, [a, b]) && Run(l, w, [a, b]) == Next(l, Next(l, w, a), b)
  {
    var next := Next(l, w, a);
    assert [a, b][1..] == [b] && [b][1..] == [];
    assert Legal(l, Next(l, next, b), []);
    assert Legal(l, next, [b]) && Run(l, next, [b]) == Next(l, next, b);
  }

  lemma ThreeSteps(l: Limits, w: World, a: Step, b: Step, c: Step)
    requires Enabled(w, a) && Enabled(Next(l, w, a), b) && Enabled(Next(l, Next(l, w, a), b), c)
    ensures Legal(l, w, [a, b, c]) && Run(l, w, [a, b, c]) == Next(l, Next(l, Next(l, w, a), b), c)
  {
    TwoSteps(l, Next(l, w, a), b, c);
    assert [a, b, c][1..] == [b, c];
  }

  /**
   An order in flight may fill to any part of its count and be reported at once or at any later moment; then the
   exchange holds that much more, the gate has recorded exactly that fill and one dispatch fewer is in flight.
   */
  lemma AnyFillMayBeReported(l: Limits, w: World, i: nat, fill: real, at: int)
    requires i < |w.orders| && w.orders[i].phase.Sent? && 0.0 <= fill <= w.orders[i].count as real && w.now <= at
    ensures var o, steps := w.orders[i], [Execute(i, fill), Tick(at), Report(i, at)];
            && Legal(l, w, steps)
            && var after := Run(l, w, steps);
               && after.orders == w.orders[i := o.(phase := Recorded)] && after.now == at
               && Net(after.book, o.ticker) == Net(w.book, o.ticker) + (if o.direction == Yes then fill else -fill)
               && after.gate.inFlight == (if w.gate.inFlight >= 1 then w.gate.inFlight - 1 else 0)
               && after.gate.fills
                  == w.gate.fills
                     + (if fill > 0.0 then [Fill(at, o.ticker, Get(w.gate.groupOf, o.ticker, ""), fill)] else [])
  {
    var o := w.orders[i];
    ThreeSteps(l, w, Execute(i, fill), Tick(at), Report(i, at));
    NetAfterMove(w.book, o.ticker, if o.direction == Yes then fill else -fill, o.ticker);
  }

  /** A dispatch may also fail, before or after the exchange has filled any part of its order, or for good. */
  lemma AnyDispatchMayFail(l: Limits, w: World, i: nat, fill: real)
    requires i < |w.orders| && w.orders[i].phase.Sent? && 0.0 <= fill <= w.orders[i].count as real
    ensures var late, early := [Fail(i, false), Execute(i, fill)], [Execute(i, fill), Fail(i, false)];
            && Legal(l, w, late) && Legal(l, w, early) && Run(l, w, late) == Run(l, w, early)
            && Run(l, w, late).orders == w.orders[i := w.orders[i].(phase := AdriftExecuted(fill))]
            && Run(l, w, late).gate.fills == w.gate.fills
            && Enabled(w, Fail(i, true)) && Next(l, w, Fail(i, true)).book == w.book
            && Next(l, w, Fail(i, true)).orders == w.orders[i := w.orders[i].(phase := Refused)]
  {
    TwoSteps(l, w, Fail(i, false), Execute(i, fill));
    TwoSteps(l, w, Execute(i, fill), Fail(i, false));
  }

  /** A poll may be made at any moment, and one that nothing interrupts leaves the gate with the truth. */
  lemma AnyPollTellsTheTruth(l: Limits, w: World, at: int, scope: Scope, fixed: map<Ticker, Group>)
    requires w.now <= at && OneHoldingEach(w.book) && Capped(scope)
    requires scope.OfGroup? ==> KnowsGroups(w.gate, Traded(w.book), fixed)
    ensures var steps := [Stamp(at), Read(|w.polls|), Apply(|w.polls|)];
            && Legal(l, w, steps)
            && var after := Run(l, w, steps);
               && after.gate.reconciledAt == at && after.book == w.book
               && Baseline(after.gate, scope) == Open(w.book, scope, fixed)
  {
    ThreeSteps(l, w, Stamp(at), Read(|w.polls|), Apply(|w.polls|));
    SnapshotIsDistinct(w.book);
    SnapshotIsTrue(w.book, scope, fixed);
    BaselineIsListed(w.gate, Snapshot(w.book), at, scope, fixed);
  }

  // ---- Time ----------------------------------------------------------------------------------

  /** The first clock reading a step makes, if it makes any. */
  function FirstReading(s: Step): Option<int> {
    match s
    case Wake(_, checkedAt, _) => Some(checkedAt)
    case Report(_, at) => Some(at)
    case Stamp(at) => Some(at)
    case Tick(at) => Some(at)
    case _ => None
  }

  /** The last one: an admitted wake reads the clock again when its attempt is recorded. */
  function LastReading(l: Limits, w: World, s: Step): Option<int> {
    if s.Wake? && Admits(l, w, s.request, s.checkedAt) then Some(s.recordedAt) else FirstReading(s)
  }

  predicate NotBefore(steps: seq<Step>, at: int) {
    forall s | s in steps && FirstReading(s).Some? :: at <= FirstReading(s).value
  }

  lemma {:induction false} LaterReadings(l: Limits, w: World, steps: seq<Step>)
    requires Legal(l, w, steps)
    ensures NotBefore(steps, w.now)
    decreases |steps|
  {
    if steps != [] {
      LaterReadings(l, Next(l, w, steps[0]), steps[1..]);
      assert forall s | s in steps :: s == steps[0] || s in steps[1..];
    }
  }

  /** No step of a run reads an earlier time than any step before it did. */
  lemma TimeNeverRunsBack(l: Limits, w: World, s: Step, later: seq<Step>)
    requires Legal(l, w, [s] + later) && LastReading(l, w, s).Some?
    ensures NotBefore(later, LastReading(l, w, s).value)
  {
    assert ([s] + later)[1..] == later;
    LaterReadings(l, Next(l, w, s), later);
  }
}
