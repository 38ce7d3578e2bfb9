/**
 The ledgers agree: after any run of the order protocol, the position the gate holds for an event is
 the sum of the positions it holds for that event's tickers, and likewise for a group whose tickers
 are fixed and known.
 */
module Ledgers {
  import opened Numbers
  import opened Wrappers
  import opened GateSpec
  import opened OrderProtocol
  import opened Exposure

  predicate Distinct(tickers: seq<Ticker>) {
    forall i, j | 0 <= i < j < |tickers| :: tickers[i] != tickers[j]
  }

  /** The gate's positions on those of `tickers` that lie in `scope`, added up. */
  function SumOfPositions(g: Gate, tickers: seq<Ticker>, scope: Scope, fixed: map<Ticker, Group>, now: int): real {
    if tickers == [] then 0.0
    else
      var last := tickers[|tickers| - 1];
      SumOfPositions(g, tickers[..|tickers| - 1], scope, fixed, now)
      + if In(scope, last, fixed) then Position(g, OfTicker(last), now) else 0.0
  }

  function SumListed(tickers: seq<Ticker>, base: Positions, scope: Scope, fixed: map<Ticker, Group>): real {
    if tickers == [] then 0.0
    else
      var last := tickers[|tickers| - 1];
      SumListed(tickers[..|tickers| - 1], base, scope, fixed)
      + if In(scope, last, fixed) then Listed(base, OfTicker(last), fixed) else 0.0
  }

  function SumFilled(tickers: seq<Ticker>, fills: seq<Fill>, scope: Scope, fixed: map<Ticker, Group>,
                     floor: int): real
  {
    if tickers == [] then 0.0
    else
      var last := tickers[|tickers| - 1];
      SumFilled(tickers[..|tickers| - 1], fills, scope, fixed, floor)
      + if In(scope, last, fixed) then FilledSince(fills, OfTicker(last), floor) else 0.0
  }

  lemma {:induction false} SumListedGrows(tickers: seq<Ticker>, base: Positions, p: (Ticker, real), scope: Scope,
                                          fixed: map<Ticker, Group>)
    requires Distinct(tickers)
    ensures SumListed(tickers, base + [p], scope, fixed)
            == SumListed(tickers, base, scope, fixed) + if p.0 in tickers && In(scope, p.0, fixed) then p.1 else 0.0
  {
    if tickers != [] {
      var n := |tickers| - 1;
      assert tickers == tickers[..n] + [tickers[n]];
      SumListedGrows(tickers[..n], base, p, scope, fixed);
      ListedAppend(base, p, OfTicker(tickers[n]), fixed);
    }
  }

  lemma {:induction false} SumListedIsListed(tickers: seq<Ticker>, base: Positions, scope: Scope,
                                             fixed: map<Ticker, Group>)
    requires Distinct(tickers) && forall t | t in TickersIn(base) :: t in tickers
    ensures SumListed(tickers, base, scope, fixed) == Listed(base, scope, fixed)
  {
    if base == [] {
      NothingListed(tickers, scope, fixed);
    } else {
      var n := |base| - 1;
      SumListedIsListed(tickers, base[..n], scope, fixed);
      SumListedGrows(tickers, base[..n], base[n], scope, fixed);
      assert base == base[..n] + [base[n]];
    }
  }

  lemma {:induction false} NothingListed(tickers: seq<Ticker>, scope: Scope, fixed: map<Ticker, Group>)
    ensures SumListed(tickers, [], scope, fixed) == 0.0
  {
    if tickers != [] {
      NothingListed(tickers[..|tickers| - 1], scope, fixed);
    }
  }

  lemma {:induction false} SumFilledGrows(tickers: seq<Ticker>, f: Fill, fills: seq<Fill>, scope: Scope,
                                          fixed: map<Ticker, Group>, floor: int)
    requires Distinct(tickers)
    ensures SumFilled(tickers, [f] + fills, scope, fixed, floor)
            == SumFilled(tickers, fills, scope, fixed, floor)
               + if f.ticker in tickers && In(scope, f.ticker, fixed) && f.at >= floor then f.count else 0.0
  {
    if tickers != [] {
      var n := |tickers| - 1;
      assert tickers == tickers[..n] + [tickers[n]];
      SumFilledGrows(tickers[..n], f, fills, scope, fixed, floor);
      assert ([f] + fills)[1..] == fills;
    }
  }

  lemma {:induction false} SumFilledIsFilled(tickers: seq<Ticker>, fills: seq<Fill>, scope: Scope,
                                             fixed: map<Ticker, Group>, floor: int)
    requires Distinct(tickers) && forall f | f in fills :: f.ticker in tickers
    requires scope.OfGroup? ==> forall f | f in fills :: f.group == Get(fixed, f.ticker, "")
    ensures SumFilled(tickers, fills, scope, fixed, floor) == FilledSince(fills, scope, floor)
  {
    if fills == [] {
      NothingFilled(tickers, scope, fixed, floor);
    } else {
      assert fills[0] in fills;
      SumFilledIsFilled(tickers, fills[1..], scope, fixed, floor);
      SumFilledGrows(tickers, fills[0], fills[1..], scope, fixed, floor);
      assert fills == [fills[0]] + fills[1..];
    }
  }

  lemma {:induction false} NothingFilled(tickers: seq<Ticker>, scope: Scope, fixed: map<Ticker, Group>, floor: int)
    ensures SumFilled(tickers, [], scope, fixed, floor) == 0.0
  {
    if tickers != [] {
      NothingFilled(tickers[..|tickers| - 1], scope, fixed, floor);
    }
  }

  // ---- Where the baselines come from ---------------------------------------------------------

  /** The gate's baselines, over tickers and over `scope`, are those of one poll, `base`. */
  ghost predicate BasedOn(g: Gate, base: Positions, scope: Scope, fixed: map<Ticker, Group>) {
    && TickersIn(base) == g.byTicker.Keys
    && (forall t: Ticker :: Get(g.byTicker, t, 0.0) == Listed(base, OfTicker(t), fixed))
    && Baseline(g, scope) == Listed(base, scope, fixed)
  }

  lemma {:induction false} ByTickerKeys(positions: Positions)
    ensures ByTicker(positions).Keys == TickersIn(positions)
  {
    if positions != [] {
      ByTickerKeys(positions[..|positions| - 1]);
    }
  }

  lemma StepKeepsBase(l: Limits, w: World, s: Step, base: Positions, scope: Scope, fixed: map<Ticker, Group>)
    returns (after: Positions)
    requires Enabled(w, s) && WellFormed(w) && GroupsKnown(w, scope, fixed) && Capped(scope)
    requires BasedOn(w.gate, base, scope, fixed)
    ensures BasedOn(Next(l, w, s).gate, after, scope, fixed)
  {
    if s.Apply? {
      var p := w.polls[s.poll];
      assert p in w.polls && GoodReading(p.seen.value, w.book);
      after := p.seen.value;
      BaselineIsListed(w.gate, after, p.stamp, scope, fixed);
      ByTickerKeys(after);
      forall t: Ticker
        ensures Get(Next(l, w, s).gate.byTicker, t, 0.0) == Listed(after, OfTicker(t), fixed)
      {
        BaselineIsListed(w.gate, after, p.stamp, OfTicker(t), fixed);
      }
    } else {
      after := base;
      if s.Wake? {
        CheckedMovesExpired(l, w, s.request, s.checkedAt);
      }
    }
  }

  lemma {:induction false} RunKeepsBase(l: Limits, w: World, steps: seq<Step>, base: Positions, scope: Scope,
                                        fixed: map<Ticker, Group>)
    returns (after: Positions)
    requires Legal(l, w, steps) && GroupsFixed(steps, scope, fixed) && Capped(scope)
    requires WellFormed(w) && GroupsKnown(w, scope, fixed) && BasedOn(w.gate, base, scope, fixed)
    ensures BasedOn(Run(l, w, steps).gate, after, scope, fixed)
    ensures WellFormed(Run(l, w, steps)) && GroupsKnown(Run(l, w, steps), scope, fixed)
    decreases |steps|
  {
    after := base;
    if steps != [] {
      assert GroupFixed(steps[0], scope, fixed);
      StepKeepsWellFormed(l, w, steps[0]);
      StepKeepsGroups(l, w, steps[0], scope, fixed);
      after := StepKeepsBase(l, w, steps[0], base, scope, fixed);
      after := RunKeepsBase(l, Next(l, w, steps[0]), steps[1..], after, scope, fixed);
    }
  }

  lemma {:induction false} PositionsAddUp(g: Gate, tickers: seq<Ticker>, base: Positions, scope: Scope,
                                          fixed: map<Ticker, Group>, now: int)
    requires forall t: Ticker :: Get(g.byTicker, t, 0.0) == Listed(base, OfTicker(t), fixed)
    ensures SumOfPositions(g, tickers, scope, fixed, now)
            == SumListed(tickers, base, scope, fixed)
               + SumFilled(tickers, g.fills, scope, fixed, Max(g.reconciledAt, now - DAY_MS))
  {
    if tickers != [] {
      PositionsAddUp(g, tickers[..|tickers| - 1], base, scope, fixed, now);
    }
  }

  /**
   The event ledger is always the sum of its tickers' ledgers, at any moment `now`, over any list of
   distinct tickers that includes every one the gate holds; the group ledger is too when each
   ticker's group is fixed and known.
   */
  lemma LedgersAgree(l: Limits, w: World, steps: seq<Step>, tickers: seq<Ticker>, scope: Scope,
                     fixed: map<Ticker, Group>, now: int)
    requires Legal(l, w, steps) && GroupsFixed(steps, scope, fixed) && Capped(scope)
    requires WellFormed(w) && GroupsKnown(w, scope, fixed)
    requires w.gate.byTicker == map[] && w.gate.byEvent == map[] && w.gate.byGroup == map[]
    requires Distinct(tickers)
    requires forall t | t in Run(l, w, steps).gate.byTicker :: t in tickers
    requires forall f | f in Run(l, w, steps).gate.fills :: f.ticker in tickers
    ensures Position(Run(l, w, steps).gate, scope, now)
            == SumOfPositions(Run(l, w, steps).gate, tickers, scope, fixed, now)
  {
    assert BasedOn(w.gate, [], scope, fixed);
    var base := RunKeepsBase(l, w, steps, [], scope, fixed);
    var g := Run(l, w, steps).gate;
    PositionsAddUp(g, tickers, base, scope, fixed, now);
    SumListedIsListed(tickers, base, scope, fixed);
    assert forall f | f in g.fills :: f in AllFills(Run(l, w, steps));
    SumFilledIsFilled(tickers, g.fills, scope, fixed, Max(g.reconciledAt, now - DAY_MS));
  }
}
