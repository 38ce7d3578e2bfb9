/**
 What becomes of every wake and every answer, in terms of the wake, the readings and the exchange's answer alone:
 what is asked for, which outcome follows, what the trail and the gate are told, and for which shards.
 */
module FireLaws {
  import opened Numbers
  import opened Wrappers
  import opened Orders
  import opened GateSpec
  import opened PriceGrid
  import opened Executor
  import Store = TelemetryStore
  import Audit = AuditTrail

  // ---- What a wake asks for ------------------------------------------------------------------

  /** The contracts the sizing would stake on a wake, whatever rests. */
  function Stake(c: Config, w: Wake, e: Readings): int { SizePosition(c, w.edge, w.kalshiPrice, e.balance) }

  /** The most contracts that neither the stake nor, when it is known, the resting size is short of. */
  predicate Asks(c: Config, w: Wake, e: Readings, count: int) {
    && count <= Stake(c, w, e)
    && (w.available > 0.0 ==>
          count as real <= w.available && (count == Stake(c, w, e) || w.available < count as real + 1.0))
    && (w.available <= 0.0 ==> count == Stake(c, w, e))
  }

  /** Less than one whole contract to ask for: the stake is, or what rests is. */
  predicate Thin(c: Config, w: Wake, e: Readings) {
    Stake(c, w, e) < 1 || 0.0 < w.available < 1.0
  }

  lemma CountIsAsked(c: Config, w: Wake, e: Readings)
    requires !w.dryRun
    ensures Asks(c, w, e, CountFor(c, w, e.balance))
    ensures CountFor(c, w, e.balance) < 1 <==> Thin(c, w, e)
  {
  }

  lemma AskedIsUnique(c: Config, w: Wake, e: Readings, m: int, n: int)
    requires Asks(c, w, e, m) && Asks(c, w, e, n)
    ensures m == n
  {
  }

  /**
   Sizing never starves an order: a real wake asks for at least the fixed count, or for all the whole contracts
   that rest when they are fewer.
   */
  lemma AsksForEnough(c: Config, w: Wake, e: Readings)
    requires !w.dryRun
    ensures var count := CountFor(c, w, e.balance);
            && (w.available <= 0.0 ==> count >= c.fixedCount)
            && (w.available > 0.0 ==> count >= c.fixedCount || w.available < count as real + 1.0)
            && (c.fixedCount >= 1 ==> (count < 1 <==> 0.0 < w.available < 1.0))
  {
    CountIsAsked(c, w, e);
  }

  // ---- What is staked ------------------------------------------------------------------------

  lemma TruncateIs(x: real, n: int)
    requires n >= 1
    ensures n <= Truncate(x) <==> n as real <= x
  {
  }

  lemma QuotientBound(y: real, x: real, divisor: real)
    requires divisor > 0.0
    ensures y <= x / divisor <==> Times(y, divisor) <= x
  {
    var quotient := x / divisor;
    assert x == quotient * divisor;
    if y <= quotient {
      ProductKeepsOrder(y, quotient, divisor);
    } else {
      ProductKeepsStrictOrder(quotient, y, divisor);
    }
  }

  lemma ProductKeepsOrder(a: real, b: real, factor: real)
    requires a <= b && factor >= 0.0
    ensures Times(a, factor) <= Times(b, factor)
  {
  }

  lemma ProductKeepsStrictOrder(a: real, b: real, factor: real)
    requires a < b && factor > 0.0
    ensures Times(a, factor) < Times(b, factor)
  {
  }

  lemma SmallerShare(y: real, a: real, b: real, balance: real)
    requires balance > 0.0
    ensures y <= Times(RMin(a, b), balance) <==> y <= Times(a, balance) && y <= Times(b, balance)
  {
    ProductKeepsOrder(RMin(a, b), a, balance);
    ProductKeepsOrder(RMin(a, b), b, balance);
  }

  lemma KellyShare(edge: real, odds: real, fraction: real, balance: real)
    requires odds > 0.0
    ensures Times(edge / odds * fraction, balance) == Times(Times(edge, fraction), balance) / odds
  {
    var quotient := edge / odds;
    assert edge == quotient * odds;
    assert Times(Times(edge, fraction), balance) == Times(quotient * fraction, balance) * odds;
  }

  /**
   The cost of this many contracts is within the ceiling on one position and, at the odds its price gives, within
   the fraction of what Kelly would stake on the edge.
   */
  predicate WithinStake(c: Config, edge: real, price: real, balance: real, n: int) {
    var cost := Times(n as real, price);
    && cost <= Times(c.maxPositionShare, balance)
    && Times(cost, 1.0 - price) <= Times(Times(RMax(0.0, edge), RMax(0.0, c.kellyFraction)), balance)
  }

  lemma BuysAre(staked: real, price: real, n: int)
    requires n >= 1 && price > 0.0
    ensures n <= Buys(staked, price) <==> Times(n as real, price) <= staked
  {
    TruncateIs(staked / price, n);
    QuotientBound(n as real, staked, price);
  }

  lemma ShareIs(c: Config, edge: real, price: real, balance: real, cost: real)
    requires price < 1.0 && balance > 0.0
    ensures cost <= Times(StakeShare(c, edge, price), balance) <==>
              && cost <= Times(c.maxPositionShare, balance)
              && Times(cost, 1.0 - price) <= Times(Times(RMax(0.0, edge), RMax(0.0, c.kellyFraction)), balance)
  {
    var gain, fraction := RMax(0.0, edge), RMax(0.0, c.kellyFraction);
    SmallerShare(cost, gain / (1.0 - price) * fraction, c.maxPositionShare, balance);
    KellyShare(gain, 1.0 - price, fraction, balance);
    QuotientBound(cost, Times(Times(gain, fraction), balance), 1.0 - price);
  }

  /** More than the fixed count is staked exactly as far as it is within the stake, and never less than that count. */
  lemma StakeIsFractionalKelly(c: Config, edge: real, price: real, balance: real, n: int)
    ensures SizePosition(c, edge, price, balance) >= c.fixedCount
    ensures n > c.fixedCount && n >= 1 ==>
              (n <= SizePosition(c, edge, price, balance) <==>
                0.0 < price < 1.0 && balance > 0.0 && WithinStake(c, edge, price, balance, n))
  {
    if 0.0 < price < 1.0 && balance > 0.0 && n > c.fixedCount && n >= 1 {
      var staked := Times(StakeShare(c, edge, price), balance);
      BuysAre(staked, price, n);
      ShareIs(c, edge, price, balance, Times(n as real, price));
      SizedIs(c, edge, price, balance, staked, n);
    }
  }

  lemma SizedIs(c: Config, edge: real, price: real, balance: real, staked: real, n: int)
    requires 0.0 < price < 1.0 && balance > 0.0 && n > c.fixedCount
    requires staked == Times(StakeShare(c, edge, price), balance)
    ensures n <= SizePosition(c, edge, price, balance) <==> n <= Buys(staked, price)
  {
  }

  // ---- What becomes of a wake ----------------------------------------------------------------

  /** One refusal on the record: a rejected row that tells the wake, the count and why. */
  predicate Refuses(before: Office, after: Office, w: Wake, e: Readings, count: int, why: string) {
    && after.jobs == before.jobs
       + [Store.OrderJob(OrderRow(e.id, Some(w.correlation), w.ticker, if w.group == "" then None else Some(w.group),
                                  w.direction, Parsed(count as real), Parsed(Snap(w.wirePrice, w.ranges)), Rejected,
                                  why, None, e.rowAt))]
    && after.posted == before.posted && after.fires == before.fires && after.measured == before.measured
  }

  /** One body on the wire, one pending row that tells the same of it, and one fire in the air. */
  predicate Sends(before: Office, after: Office, task: nat, w: Wake, e: Readings, count: int) {
    && after.posted == before.posted + [Body(w.ticker, e.id, w.direction, count, Snap(w.wirePrice, w.ranges), w.shard)]
    && task in after.fires && after.fires == before.fires[task := after.fires[task]]
    && after.fires[task].wake == w && after.fires[task].count == count
    && after.fires[task].row
       == OrderRow(e.id, Some(w.correlation), w.ticker, if w.group == "" then None else Some(w.group), w.direction,
                   Parsed(count as real), Parsed(Snap(w.wirePrice, w.ranges)), Pending, "", None, e.rowAt)
    && after.jobs == before.jobs + [Store.OrderJob(after.fires[task].row)] && after.measured == before.measured
  }

  /** Stopped by the order guard: measured, and otherwise only charged to the gate. */
  predicate Stops(before: Office, after: Office, w: Wake) {
    && after.jobs == before.jobs && after.posted == before.posted && after.fires == before.fires
    && after.measured == before.measured + [Measured(w.correlation, false)]
  }

  /** What the gate, if there is one, is asked about a wake. */
  function Question(w: Wake, count: int): Request {
    Request(w.ticker, w.direction, w.shard, count, Snap(w.wirePrice, w.ranges), w.group)
  }

  predicate GateRefuses(l: Limits, o: Office, w: Wake, e: Readings, count: int) {
    o.gate.Some? && Decide(l, o.gate.value, Question(w, count), e.checkedAt).1.Some?
  }

  /** The gate after an admission that goes on to the wire. */
  function Charged(l: Limits, o: Office, w: Wake, e: Readings, count: int): Option<Gate> {
    if o.gate.None? then None
    else
      var r := Question(w, count);
      Some(BeginDispatch(RecordAttempt(Decide(l, o.gate.value, r, e.checkedAt).0, r, e.recordedAt)))
  }

  /** A wake worth asking the gate about: tradeable, of a whole contract, with no kill switch engaged. */
  predicate Reaches(c: Config, w: Wake, e: Readings) {
    0.0 < w.wirePrice < 1.0 && !Thin(c, w, e) && !e.halted
  }

  /** A refusal gives one reason. */
  lemma OneReason(before: Office, after: Office, w: Wake, e: Readings, m: int, n: int, why: string, other: string)
    requires Refuses(before, after, w, e, m, why)
    ensures Refuses(before, after, w, e, n, other) ==> why == other
  {
    if Refuses(before, after, w, e, n, other) {
      assert after.jobs[|before.jobs|].order.response == why;
    }
  }

  lemma ReasonsDiffer(before: Office, after: Office, w: Wake, e: Readings, m: int, n: int)
    ensures var thin, halted, refused := "insufficient resting volume", "kill switch engaged", "risk gate";
            && !(Refuses(before, after, w, e, m, thin) && Refuses(before, after, w, e, n, halted))
            && !(Refuses(before, after, w, e, m, thin) && Refuses(before, after, w, e, n, refused))
            && !(Refuses(before, after, w, e, n, halted) && Refuses(before, after, w, e, n, refused))
  {
    var thin, halted, refused := "insufficient resting volume", "kill switch engaged", "risk gate";
    assert |thin| == 27 && |halted| == 19 && |refused| == 9;
    if Refuses(before, after, w, e, m, thin) {
      OneReason(before, after, w, e, m, n, thin, halted);
      OneReason(before, after, w, e, m, n, thin, refused);
    }
    if Refuses(before, after, w, e, n, halted) {
      OneReason(before, after, w, e, n, n, halted, refused);
    }
  }

  /**
   A real wake ends in exactly one of six ways, each exactly when its conditions say: nothing at all, a row that says
   the book is thin, one that says the kill switch is engaged, one that the gate refused, an order on the wire, or
   a stop by the order guard. `count` is what it asks for.
   */
  lemma RealWakeOutcome(l: Limits, c: Config, o: Office, task: nat, w: Wake, e: Readings) returns (count: int)
    requires !w.dryRun && task !in o.fires
    ensures Asks(c, w, e, count)
    ensures var after := HandleFire(l, c, o, task, w, e);
            && (after == o <==> !(0.0 < w.wirePrice < 1.0))
            && (Refuses(o, after, w, e, c.fixedCount, "insufficient resting volume")
                <==> 0.0 < w.wirePrice < 1.0 && Thin(c, w, e))
            && (Refuses(o, after, w, e, count, "kill switch engaged")
                <==> 0.0 < w.wirePrice < 1.0 && !Thin(c, w, e) && e.halted)
            && (Refuses(o, after, w, e, count, "risk gate") <==> Reaches(c, w, e) && GateRefuses(l, o, w, e, count))
            && (Sends(o, after, task, w, e, count)
                <==> Reaches(c, w, e) && !GateRefuses(l, o, w, e, count) && e.permitted)
            && (Stops(o, after, w) <==> Reaches(c, w, e) && !GateRefuses(l, o, w, e, count) && !e.permitted)
            && (Sends(o, after, task, w, e, count) ==> after.gate == Charged(l, o, w, e, count))
  {
    count := CountFor(c, w, e.balance);
    CountIsAsked(c, w, e);
    ReasonsDiffer(o, HandleFire(l, c, o, task, w, e), w, e, c.fixedCount, count);
    if Reaches(c, w, e) {
      GatedOutcome(l, c, o, task, w, e, count);
    }
  }

  lemma GatedOutcome(l: Limits, c: Config, o: Office, task: nat, w: Wake, e: Readings, count: int)
    requires !w.dryRun && task !in o.fires && Reaches(c, w, e) && count == CountFor(c, w, e.balance) && count >= 1
    ensures var after := HandleFire(l, c, o, task, w, e);
            if GateRefuses(l, o, w, e, count) then Refuses(o, after, w, e, count, "risk gate")
            else if e.permitted then
              Sends(o, after, task, w, e, count) && after.gate == Charged(l, o, w, e, count)
            else Stops(o, after, w)
  {
  }

  /** A shadow wake always runs at the fixed count, untraded, unrefused and unseen by the gate. */
  lemma ShadowWakeOutcome(l: Limits, c: Config, o: Office, task: nat, w: Wake, e: Readings)
    requires w.dryRun && task !in o.fires
    ensures var after := HandleFire(l, c, o, task, w, e);
            && after.gate == o.gate && after.jobs == o.jobs && after.posted == o.posted
            && (e.permitted ==>
                  && task in after.fires && after.fires == o.fires[task := after.fires[task]]
                  && after.fires[task].wake == w && after.fires[task].count == c.fixedCount
                  && after.measured == o.measured)
            && (!e.permitted ==>
                  after.fires == o.fires && after.measured == o.measured + [Measured(w.correlation, true)])
  {
  }

  // ---- What becomes of an answer -------------------------------------------------------------

  /** The gate once a real fire has ended: one dispatch fewer, and one fill more if the answer states one. */
  predicate GateTold(before: Gate, after: Gate, ticker: Ticker, outcome: Audit.Outcome, at: int) {
    && after.inFlight == (if before.inFlight >= 1 then before.inFlight - 1 else 0)
    && (if Audit.States(outcome, true)
        then after.fills == before.fills + [Fill(at, ticker, Get(before.groupOf, ticker, ""),
                                                 outcome.fillCount.value.value)]
        else after.fills == before.fills)
    && after.(inFlight := before.inFlight, fills := before.fills) == before
  }

  /** However a post ends, its fire is over and measured once; a real one also tells the trail and the gate. */
  lemma AnswerOutcome(c: Config, o: Office, task: nat, outcome: Audit.Outcome, at: int)
    requires task in o.fires
    ensures var fire, after := o.fires[task], Resume(c, o, task, outcome, at);
            && task !in after.fires && after.fires == o.fires - {task} && after.posted == o.posted
            && after.measured == o.measured + [Measured(fire.wake.correlation, fire.wake.dryRun)]
            && (fire.wake.dryRun ==> after.jobs == o.jobs && after.gate == o.gate)
            && (!fire.wake.dryRun ==>
                  && |after.jobs| == |o.jobs| + 1 && o.jobs <= after.jobs && after.jobs[|o.jobs|].ResolutionJob?
                  && Audit.Tells(fire.row, after.jobs[|o.jobs|].order, outcome, c.timeInForce)
                  && after.gate.Some? == o.gate.Some?
                  && (o.gate.Some? ==> GateTold(o.gate.value, after.gate.value, fire.wake.ticker, outcome, at)))
  {
    Audit.ResolutionTells(o.fires[task].row, outcome, c.timeInForce);
  }

  /** The trail and the gate agree: a resolved row says filled exactly when its fill was recorded, with that count. */
  lemma FilledExactlyWhenRecorded(c: Config, o: Office, task: nat, outcome: Audit.Outcome, at: int)
    requires task in o.fires && !o.fires[task].wake.dryRun && o.gate.Some?
    ensures var after := Resume(c, o, task, outcome, at);
            var row := after.jobs[|o.jobs|].order;
            && (row.status.Filled? <==> |after.gate.value.fills| == |o.gate.value.fills| + 1)
            && (row.status.Filled? ==>
                  && row.fillCount.Some? && row.fillCount.value.Parsed?
                  && after.gate.value.fills[|o.gate.value.fills|].count == row.fillCount.value.value > 0.0
                  && after.gate.value.fills[|o.gate.value.fills|].ticker == o.fires[task].wake.ticker)
            && (!row.status.Filled? ==> after.gate.value.fills == o.gate.value.fills)
  {
    AnswerOutcome(c, o, task, outcome, at);
  }

  // ---- Runs ----------------------------------------------------------------------------------

  /** A wake for a shard that is not allowed touches neither the wire nor the gate. */
  lemma ForeignShardsTouchNothing(l: Limits, c: Config, o: Office, task: nat, w: Wake, e: Readings)
    requires task !in o.fires && o.gate.Some? && w.shard !in l.allowedShards
    ensures var after := HandleFire(l, c, o, task, w, e); after.gate == o.gate && after.posted == o.posted
  {
    if w.dryRun {
      ShadowWakeOutcome(l, c, o, task, w, e);
    }
  }

  /** Every wake of a run after which the gate is not what it was is for an allowed shard. */
  predicate ChargesOnlyAllowed(l: Limits, c: Config, o: Office, events: seq<Event>)
    requires Happens(l, c, o, events)
    decreases |events|
  {
    events == []
    || (&& (events[0].Wakes? && After(l, c, o, events[0]).gate != o.gate ==>
              events[0].wake.shard in l.allowedShards)
        && ChargesOnlyAllowed(l, c, After(l, c, o, events[0]), events[1..]))
  }

  lemma EventPostsOnlyAllowed(l: Limits, c: Config, o: Office, v: Event)
    requires Possible(o, v) && o.gate.Some?
    ensures var after := After(l, c, o, v);
            && after.gate.Some? && o.posted <= after.posted
            && (forall k | |o.posted| <= k < |after.posted| :: after.posted[k].shard in l.allowedShards)
            && (v.Wakes? && after.gate != o.gate ==> v.wake.shard in l.allowedShards)
  {
    if v.Wakes? {
      if v.wake.shard !in l.allowedShards {
        ForeignShardsTouchNothing(l, c, o, v.task, v.wake, v.readings);
      } else if v.wake.dryRun {
        ShadowWakeOutcome(l, c, o, v.task, v.wake, v.readings);
      } else {
        var count := RealWakeOutcome(l, c, o, v.task, v.wake, v.readings);
      }
    }
  }

  /**
   Funds are only ever committed where they may be: in every run of an executor with a gate, each body that goes out,
   and each wake that is charged to the gate, is for an allowed shard.
   */
  lemma {:induction false} EveryShardIsAllowed(l: Limits, c: Config, o: Office, events: seq<Event>)
    requires Happens(l, c, o, events) && o.gate.Some?
    ensures var posted := Outcomes(l, c, o, events).posted;
            && o.posted <= posted
            && forall k | |o.posted| <= k < |posted| :: posted[k].shard in l.allowedShards
    ensures ChargesOnlyAllowed(l, c, o, events)
    decreases |events|
  {
    if events != [] {
      var next := After(l, c, o, events[0]);
      EventPostsOnlyAllowed(l, c, o, events[0]);
      EveryShardIsAllowed(l, c, next, events[1..]);
      var posted := Outcomes(l, c, o, events).posted;
      forall k | |o.posted| <= k < |posted|
        ensures posted[k].shard in l.allowedShards
      {
        if k < |next.posted| {
          assert posted[k] == next.posted[k];
        }
      }
    }
  }

  /** A wake the gate was asked about and let through. */
  predicate LetThrough(l: Limits, c: Config, o: Office, v: Event) {
    && v.Wakes? && !v.wake.dryRun && Reaches(c, v.wake, v.readings)
    && !GateRefuses(l, o, v.wake, v.readings, CountFor(c, v.wake, v.readings.balance))
  }

  /** The group a ticker is known under after a run that finds it known as `known`: the last one let through with it. */
  function KnownAs(l: Limits, c: Config, o: Office, events: seq<Event>, ticker: Ticker, known: Group): Group
    requires Happens(l, c, o, events)
    decreases |events|
  {
    if events == [] then known
    else
      var v := events[0];
      KnownAs(l, c, After(l, c, o, v), events[1..], ticker,
              if LetThrough(l, c, o, v) && v.wake.ticker == ticker && v.wake.group != "" then v.wake.group else known)
  }

  lemma EventTellsGroup(l: Limits, c: Config, o: Office, v: Event, ticker: Ticker)
    requires Possible(o, v) && o.gate.Some?
    ensures var after := After(l, c, o, v);
            && after.gate.Some?
            && Get(after.gate.value.groupOf, ticker, "")
               == if LetThrough(l, c, o, v) && v.wake.ticker == ticker && v.wake.group != "" then v.wake.group
                  else Get(o.gate.value.groupOf, ticker, "")
  {
    if v.Wakes? && v.wake.dryRun {
      ShadowWakeOutcome(l, c, o, v.task, v.wake, v.readings);
    } else if v.Answers? {
      AnswerOutcome(c, o, v.task, v.outcome, v.at);
    } else if v.Wakes? {
      CountIsAsked(c, v.wake, v.readings);
    }
  }

  /** A group once stated is not forgotten: a later wake without one, a fill or a poll leaves it known. */
  lemma {:induction false} GroupsAreRemembered(l: Limits, c: Config, o: Office, events: seq<Event>, ticker: Ticker)
    requires Happens(l, c, o, events) && o.gate.Some?
    ensures var gate := Outcomes(l, c, o, events).gate;
            && gate.Some?
            && Get(gate.value.groupOf, ticker, "")
               == KnownAs(l, c, o, events, ticker, Get(o.gate.value.groupOf, ticker, ""))
    decreases |events|
  {
    if events != [] {
      EventTellsGroup(l, c, o, events[0], ticker);
      GroupsAreRemembered(l, c, After(l, c, o, events[0]), events[1..], ticker);
    }
  }

  /** A wake that gets as far as a dispatch, whether or not the order guard then stops it. */
  predicate Dispatches(l: Limits, c: Config, o: Office, v: Event) {
    v.Wakes?
    && (v.wake.dryRun
        || (Reaches(c, v.wake, v.readings)
            && !GateRefuses(l, o, v.wake, v.readings, CountFor(c, v.wake, v.readings.balance))))
  }

  function DispatchCount(l: Limits, c: Config, o: Office, events: seq<Event>): nat
    requires Happens(l, c, o, events)
    decreases |events|
  {
    if events == [] then 0
    else
      (if Dispatches(l, c, o, events[0]) then 1 else 0)
      + DispatchCount(l, c, After(l, c, o, events[0]), events[1..])
  }

  lemma EventIsMeasured(l: Limits, c: Config, o: Office, v: Event)
    requires Possible(o, v)
    ensures var after := After(l, c, o, v);
            |after.measured| + |after.fires|
            == |o.measured| + |o.fires| + if Dispatches(l, c, o, v) then 1 else 0
  {
    var after := After(l, c, o, v);
    match v
    case Wakes(task, w, e) =>
      if w.dryRun {
        ShadowWakeOutcome(l, c, o, task, w, e);
      } else {
        CountIsAsked(c, w, e);
        var count := RealWakeOutcome(l, c, o, task, w, e);
        AskedIsUnique(c, w, e, count, CountFor(c, w, e.balance));
      }
      OneMoreFire(o.fires, after.fires, task);
    case Answers(task, outcome, at) =>
      AnswerOutcome(c, o, task, outcome, at);
      OneFireLess(o.fires, task);
    case Reconciles(_, _) =>
  }

  lemma OneMoreFire(before: map<nat, Fire>, after: map<nat, Fire>, task: nat)
    requires task !in before
    ensures task in after && after == before[task := after[task]] ==> |after| == |before| + 1
  {
    if task in after && after == before[task := after[task]] {
      assert after.Keys == before.Keys + {task};
    }
  }

  lemma OneFireLess(fires: map<nat, Fire>, task: nat)
    requires task in fires
    ensures |fires - {task}| == |fires| - 1
  {
    assert (fires - {task}).Keys == fires.Keys - {task};
  }

  /** Every dispatch begun is measured exactly once, when it ends: the others are still in the air. */
  lemma {:induction false} EveryDispatchIsMeasured(l: Limits, c: Config, o: Office, events: seq<Event>)
    requires Happens(l, c, o, events)
    ensures var after := Outcomes(l, c, o, events);
            |after.measured| + |after.fires| == |o.measured| + |o.fires| + DispatchCount(l, c, o, events)
    decreases |events|
  {
    if events != [] {
      EventIsMeasured(l, c, o, events[0]);
      EveryDispatchIsMeasured(l, c, After(l, c, o, events[0]), events[1..]);
    }
  }
}
