/** The risk gate as the object the executor holds: fields changed in place, one method per operation. */
module RiskGateObject {
  import opened Numbers
  import opened Wrappers
  import opened Orders
  import opened GateSpec

  class RiskGate {
    const limits: Limits
    var attempts: seq<Attempt>
    var lastAttempt: map<(Ticker, Direction), int>
    var fills: seq<Fill>
    var groupOf: map<Ticker, Group>
    var byTicker: map<Ticker, real>
    var byGroup: map<Group, real>
    var byEvent: map<Ticker, real>
    var reconciledAt: int
    var inFlight: int

    /** The gate's whole state as a value. */
    function State(): Gate
      reads this
    {
      Gate(attempts, fills, lastAttempt, groupOf, byTicker, byEvent, byGroup, reconciledAt, inFlight)
    }

    constructor (limits: Limits)
      ensures this.limits == limits && State() == EMPTY_GATE
    {
      this.limits := limits;
      attempts, fills, lastAttempt, groupOf := [], [], map[], map[];
      byTicker, byGroup, byEvent, reconciledAt, inFlight := map[], map[], map[], 0, 0;
    }

    /** Rebuild the gate from the rows the audit-trail query returned. */
    constructor FromAuditTrail(limits: Limits, rows: seq<OrderRow>)
      ensures this.limits == limits && State() == WarmStart(rows)
    {
      this.limits := limits;
      attempts, fills, lastAttempt, groupOf := [], [], map[], map[];
      byTicker, byGroup, byEvent, reconciledAt, inFlight := map[], map[], map[], 0, 0;
      new;
      for i := 0 to |rows|
        invariant State() == WarmStart(rows[..i])
      {
        ReplayRow(rows[i]);
        assert rows[..i + 1][..i] == rows[..i];
      }
      assert rows[..|rows|] == rows;
    }

    method ReplayRow(row: OrderRow)
      modifies this`attempts, this`lastAttempt, this`groupOf, this`fills
      ensures State() == Replay(old(State()), row)
    {
      var group := RowGroup(row);
      attempts := attempts + [RowAttempt(row)];
      var key := (row.ticker, row.side);
      lastAttempt := lastAttempt[key := Max(Get(lastAttempt, key, 0), row.requestedAt)];
      if group != "" {
        groupOf := groupOf[row.ticker := group];
      }
      if row.fillCount.Some? {
        var fill := AsFloat(row.fillCount.value);
        if fill > 0.0 {
          fills := fills + [Fill(row.requestedAt, row.ticker, group, fill)];
        }
      }
    }

    method PruneOld(now: int)
      modifies this`attempts, this`fills
      ensures State() == Prune(old(State()), now)
    {
      var floor := now - DAY_MS;
      while |attempts| > 0 && attempts[0].at < floor
        invariant DropOldAttempts(attempts, floor) == DropOldAttempts(old(attempts), floor)
        invariant fills == old(fills)
        decreases |attempts|
      {
        attempts := attempts[1..];
      }
      while |fills| > 0 && fills[0].at < floor
        invariant DropOldFills(fills, floor) == DropOldFills(old(fills), floor)
        invariant attempts == DropOldAttempts(old(attempts), floor)
        decreases |fills|
      {
        fills := fills[1..];
      }
    }

    /** Decide whether a real dispatch may proceed; `None` allows it. */
    method Check(r: Request, now: int) returns (verdict: Option<Rejection>)
      modifies this`attempts, this`fills
      ensures (State(), verdict) == Decide(limits, old(State()), r, now)
    {
      if r.shard !in limits.allowedShards {
        return Some(ShardNotAllowed);
      }
      if inFlight >= limits.concurrentDispatches {
        return Some(TooManyInFlight);
      }
      var key := (r.ticker, r.direction);
      if key in lastAttempt && (now - lastAttempt[key]) as real < limits.cooldownMs {
        return Some(Cooldown);
      }

      PruneOld(now);
      if |Since(attempts, now - HOUR_MS)| >= limits.attemptsPerHour {
        return Some(HourCap);
      }
      if |attempts| >= limits.attemptsPerDay {
        return Some(DayCap);
      }
      if Count(attempts, OfTicker(r.ticker)) >= limits.attemptsPerTicker {
        return Some(TickerCap);
      }
      var event := EventOf(r.ticker);
      if Count(attempts, OfEvent(event)) >= limits.attemptsPerEvent {
        return Some(EventCap);
      }
      if r.group != "" {
        if Count(attempts, OfGroup(r.group)) >= limits.attemptsPerGroup {
          return Some(GroupCap);
        }
      }
      if Notional(attempts) + Cost(r) > limits.notionalPerDay {
        return Some(NotionalCap);
      }
      if Position(State(), OfTicker(r.ticker), now) + r.count as real > limits.contractsPerTicker {
        return Some(TickerPosition);
      }
      if Position(State(), OfEvent(event), now) + r.count as real > limits.contractsPerEvent {
        return Some(EventPosition);
      }
      if r.group != "" {
        if Position(State(), OfGroup(r.group), now) + r.count as real > limits.contractsPerGroup {
          return Some(GroupPosition);
        }
      }
      return None;
    }

    method RecordAttempt(r: Request, now: int)
      modifies this`attempts, this`lastAttempt, this`groupOf
      ensures State() == GateSpec.RecordAttempt(old(State()), r, now)
    {
      var key := (r.ticker, r.direction);
      attempts := attempts + [Attempt(now, r.ticker, r.group, Cost(r))];
      lastAttempt := lastAttempt[key := now];
      if r.group != "" {
        groupOf := groupOf[r.ticker := r.group];
      }
    }

    method RecordFill(ticker: Ticker, count: real, now: int)
      modifies this`fills
      ensures State() == GateSpec.RecordFill(old(State()), ticker, count, now)
    {
      if count <= 0.0 {
        return;
      }
      fills := fills + [Fill(now, ticker, Get(groupOf, ticker, ""), count)];
    }

    method GroupTotals(positions: Positions) returns (groups: map<Group, real>)
      ensures groups == ByGroup(positions, groupOf)
    {
      groups := map[];
      for i := 0 to |positions|
        invariant groups == ByGroup(positions[..i], groupOf)
      {
        var group := Get(groupOf, positions[i].0, "");
        if group != "" {
          groups := groups[group := Get(groups, group, 0.0) + positions[i].1];
        }
        assert positions[..i + 1][..i] == positions[..i];
      }
      assert positions[..|positions|] == positions;
    }

    method EventTotals(positions: Positions) returns (events: map<Ticker, real>)
      ensures events == ByEvent(positions)
    {
      events := map[];
      for i := 0 to |positions|
        invariant events == ByEvent(positions[..i])
      {
        var event := EventOf(positions[i].0);
        events := events[event := Get(events, event, 0.0) + positions[i].1];
        assert positions[..i + 1][..i] == positions[..i];
      }
      assert positions[..|positions|] == positions;
    }

    /** Replace the baseline by one poll's open positions, regrouped by event and by known group. */
    method ReconcileOpenPositions(positions: Positions, snapshotAt: int)
      modifies this`byTicker, this`byGroup, this`byEvent, this`reconciledAt
      ensures State() == Reconcile(old(State()), positions, snapshotAt)
    {
      byTicker := ByTicker(positions);
      byGroup := GroupTotals(positions);
      byEvent := EventTotals(positions);
      reconciledAt := snapshotAt;
    }

    method BeginDispatch()
      modifies this`inFlight
      ensures State() == GateSpec.BeginDispatch(old(State()))
    {
      inFlight := inFlight + 1;
    }

    method EndDispatch()
      modifies this`inFlight
      ensures State() == GateSpec.EndDispatch(old(State()))
    {
      inFlight := Max(0, inFlight - 1);
    }
  }
}
