/**
 The executor: what it does with one wake, from the price guard to the end of the dispatch, and why
 shadow fires cannot be told from the outside.
 */
module Executor {
  import opened Numbers
  import opened Wrappers
  import opened Orders
  import opened GateSpec
  import opened PriceGrid
  import opened RiskGateObject
  import Store = TelemetryStore
  import Audit = AuditTrail

  datatype Wake = Wake(
    correlation: string, ticker: Ticker, direction: Direction, shard: int, group: Group,
    wirePrice: real,       // the YES-side price to send
    kalshiPrice: real,     // this direction's cost, used for sizing only
    edge: real, available: real, ranges: seq<Range>, dryRun: bool)

  datatype Config = Config(
    fixedCount: int, kellyFraction: real, maxPositionShare: real, timeInForce: Audit.TimeInForce)

  /** Everything one fire reads from outside: balance, kill switch, clock, identifier, permission. */
  datatype Readings = Readings(
    balance: real, halted: bool, checkedAt: int, recordedAt: int, rowAt: int, id: string, permitted: bool)

  /** One request body that reached the exchange. */
  datatype Body = Body(ticker: Ticker, id: string, direction: Direction, count: int, price: real, shard: int)

  /** A fire suspended at its post. */
  datatype Fire = Fire(wake: Wake, count: int, row: OrderRow)

  datatype Measured = Measured(correlation: string, dryRun: bool)

  datatype Office = Office(
    gate: Option<Gate>,
    fires: map<nat, Fire>,        // suspended fires by task
    jobs: seq<Store.Job>,         // `orders_fired` writes handed to telemetry, in order
    posted: seq<Body>,
    measured: seq<Measured>)      // fires whose latency rows were written

  // ---- Sizing --------------------------------------------------------------------------------

  /** Conversion of a float to an integer: towards zero. */
  function Truncate(x: real): (n: int)
    ensures x >= 0.0 ==> n as real <= x < n as real + 1.0
    ensures x <= 0.0 ==> n as real - 1.0 < x <= n as real
  {
    if x >= 0.0 then x.Floor else -((-x).Floor)
  }

  /** The fraction of the balance to stake: fractional Kelly under a ceiling. */
  function StakeShare(c: Config, edge: real, price: real): real
    requires price < 1.0
  {
    var kelly := RMax(0.0, edge) / (1.0 - price);
    RMin(kelly * RMax(0.0, c.kellyFraction), c.maxPositionShare)
  }

  function Buys(dollars: real, price: real): int
    requires price > 0.0
  {
    Truncate(dollars / price)
  }

  /** Fractional-Kelly contracts, capped by a share of the balance and floored at the fixed count. */
  function SizePosition(c: Config, edge: real, price: real, balance: real): int {
    if !(0.0 < price < 1.0) || balance <= 0.0 then c.fixedCount
    else
      Max(Buys(Times(StakeShare(c, edge, price), balance), price), c.fixedCount)
  }

  /** Contracts a fire asks for; real ones no more than rest at the level, when that is known. */
  function CountFor(c: Config, w: Wake, balance: real): int {
    if w.dryRun then c.fixedCount
    else
      var sized := SizePosition(c, w.edge, w.kalshiPrice, balance);
      if w.available > 0.0 then Min(sized, Truncate(w.available)) else sized
  }

  // ---- One fire ------------------------------------------------------------------------------

  datatype Refusal = ThinBook | KillSwitch | ByGate(rejection: Rejection)

  function Text(refusal: Refusal): string {
    match refusal
    case ThinBook => "insufficient resting volume"
    case KillSwitch => "kill switch engaged"
    case ByGate(_) => "risk gate"
  }

  /** A row about a wake, before any answer; an empty group is stored as none. */
  function RowOf(w: Wake, count: int, price: real, status: Status, text: string, e: Readings): OrderRow {
    OrderRow(e.id, Some(w.correlation), w.ticker, if w.group == "" then None else Some(w.group), w.direction,
             Parsed(count as real), Parsed(price), status, text, None, e.rowAt)
  }

  function RejectedRow(w: Wake, count: int, price: real, refusal: Refusal, e: Readings): OrderRow {
    RowOf(w, count, price, Rejected, Text(refusal), e)
  }

  function PendingRow(w: Wake, count: int, price: real, e: Readings): OrderRow {
    RowOf(w, count, price, Pending, "", e)
  }

  function RequestOf(w: Wake, count: int, price: real): Request {
    Request(w.ticker, w.direction, w.shard, count, price, w.group)
  }

  function Refused(o: Office, w: Wake, count: int, price: real, refusal: Refusal, e: Readings): Office {
    o.(jobs := o.jobs + [Store.OrderJob(RejectedRow(w, count, price, refusal, e))])
  }

  function Ended(gate: Option<Gate>, dryRun: bool): Option<Gate> {
    if gate.Some? && !dryRun then Some(EndDispatch(gate.value)) else gate
  }

  /** Up to the post. A dispatch that is not permitted raises before anything is written or sent. */
  function Dispatched(o: Office, task: nat, w: Wake, count: int, price: real, e: Readings): Office {
    if !e.permitted then
      o.(gate := Ended(o.gate, w.dryRun), measured := o.measured + [Measured(w.correlation, w.dryRun)])
    else
      var row := PendingRow(w, count, price, e);
      o.(fires := o.fires[task := Fire(w, count, row)],
         jobs := if w.dryRun then o.jobs else o.jobs + [Store.OrderJob(row)],
         posted := if w.dryRun then o.posted
                   else o.posted + [Body(w.ticker, e.id, w.direction, count, price, w.shard)])
  }

  /** The gate consulted, recorded and put in flight, or the refusal it gave. */
  function Gated(l: Limits, o: Office, w: Wake, count: int, price: real, e: Readings): (Office, Option<Refusal>) {
    if w.dryRun || o.gate.None? then (o, None)
    else
      var request := RequestOf(w, count, price);
      var (gate, verdict) := Decide(l, o.gate.value, request, e.checkedAt);
      match verdict
      case Some(rejection) => (o.(gate := Some(gate)), Some(ByGate(rejection)))
      case None => (o.(gate := Some(Admit(gate, request, e.recordedAt))), None)
  }

  /** Everything a wake does in one go, from its arrival to its post. */
  function HandleFire(l: Limits, c: Config, o: Office, task: nat, w: Wake, e: Readings): Office {
    if !w.dryRun && !Tradeable(w.wirePrice) then o
    else
      var price := Snap(w.wirePrice, w.ranges);
      var count := CountFor(c, w, e.balance);
      if !w.dryRun && count < 1 then Refused(o, w, c.fixedCount, price, ThinBook, e)
      else if !w.dryRun && e.halted then Refused(o, w, count, price, KillSwitch, e)
      else
        var (gated, refusal) := Gated(l, o, w, count, price, e);
        match refusal
        case Some(why) => Refused(gated, w, count, price, why, e)
        case None => Dispatched(gated, task, w, count, price, e)
  }

  /** The fill an answer reports, zero when it is missing or does not parse. */
  function FillOf(outcome: Audit.Outcome): real {
    Audit.Reported(outcome).GetOr(0.0)
  }

  /** Everything a suspended fire does once its post has ended. */
  function Resume(c: Config, o: Office, task: nat, outcome: Audit.Outcome, at: int): Office
    requires task in o.fires
  {
    var fire := o.fires[task];
    var recorded :=
      if fire.wake.dryRun || o.gate.None? || outcome.Raised? then o.gate
      else Some(RecordFill(o.gate.value, fire.wake.ticker, FillOf(outcome), at));
    o.(gate := Ended(recorded, fire.wake.dryRun),
       fires := o.fires - {task},
       jobs := if fire.wake.dryRun then o.jobs
               else o.jobs + [Store.ResolutionJob(Audit.Resolution(fire.row, outcome, c.timeInForce))],
       measured := o.measured + [Measured(fire.wake.correlation, fire.wake.dryRun)])
  }

  // ---- The object ----------------------------------------------------------------------------

  class ExecutorServer {
    const config: Config
    const gate: RiskGate?
    var fires: map<nat, Fire>
    var jobs: seq<Store.Job>
    var posted: seq<Body>
    var measured: seq<Measured>

    function State(): Office
      reads this, gate
    {
      Office(if gate == null then None else Some(gate.State()), fires, jobs, posted, measured)
    }

    function LimitsInForce(): Limits {
      if gate == null then Limits({}, 0, 0, 0, 0.0, 0, 0.0, 0, 0.0, 0, 0.0, 0.0) else gate.limits
    }

    constructor (config: Config, gate: RiskGate?)
      ensures this.config == config && this.gate == gate
      ensures State() == Office(if gate == null then None else Some(gate.State()), map[], [], [], [])
    {
      this.config, this.gate := config, gate;
      fires, jobs, posted, measured := map[], [], [], [];
    }

    method RecordRejected(w: Wake, count: int, price: real, refusal: Refusal, e: Readings)
      modifies this`jobs
      ensures State() == Refused(old(State()), w, count, price, refusal, e)
    {
      jobs := jobs + [Store.OrderJob(RejectedRow(w, count, price, refusal, e))];
    }

    method Dispatch(task: nat, w: Wake, count: int, price: real, e: Readings)
      modifies this`fires, this`jobs, this`posted, this`measured, gate
      ensures State() == Dispatched(old(State()), task, w, count, price, e)
    {
      if !e.permitted {
        if gate != null && !w.dryRun {
          gate.EndDispatch();
        }
        measured := measured + [Measured(w.correlation, w.dryRun)];
        return;
      }
      var row := PendingRow(w, count, price, e);
      if !w.dryRun {
        jobs := jobs + [Store.OrderJob(row)];
        posted := posted + [Body(w.ticker, e.id, w.direction, count, price, w.shard)];
      }
      fires := fires[task := Fire(w, count, row)];
    }

    /** A wake, up to the suspension at its post. */
    method Handle(task: nat, w: Wake, e: Readings)
      modifies this`fires, this`jobs, this`posted, this`measured, gate
      ensures State() == HandleFire(LimitsInForce(), config, old(State()), task, w, e)
    {
      if !w.dryRun && !Tradeable(w.wirePrice) {
        return;
      }
      var price := Snap(w.wirePrice, w.ranges);
      var count := CountFor(config, w, e.balance);
      if !w.dryRun && count < 1 {
        RecordRejected(w, config.fixedCount, price, ThinBook, e);
        return;
      }
      if !w.dryRun && e.halted {
        RecordRejected(w, count, price, KillSwitch, e);
        return;
      }
      if !w.dryRun && gate != null {
        var request := RequestOf(w, count, price);
        var verdict := gate.Check(request, e.checkedAt);
        if verdict.Some? {
          RecordRejected(w, count, price, ByGate(verdict.value), e);
          return;
        }
        gate.RecordAttempt(request, e.recordedAt);
        gate.BeginDispatch();
      }
      Dispatch(task, w, count, price, e);
    }

    /** The rest of a fire, once its post was answered or raised. */
    method Finish(task: nat, outcome: Audit.Outcome, at: int)
      requires task in fires
      modifies this`fires, this`jobs, this`measured, gate
      ensures State() == Resume(config, old(State()), task, outcome, at)
    {
      var fire := fires[task];
      var gating := gate != null && !fire.wake.dryRun;
      if !fire.wake.dryRun {
        jobs := jobs + [Store.ResolutionJob(Audit.Resolution(fire.row, outcome, config.timeInForce))];
      }
      if gating && outcome.Answered? {
        gate.RecordFill(fire.wake.ticker, FillOf(outcome), at);
      }
      if gating {
        gate.EndDispatch();
      }
      measured := measured + [Measured(fire.wake.correlation, fire.wake.dryRun)];
      fires := fires - {task};
    }
  }

  // ---- Runs ----------------------------------------------------------------------------------

  datatype Event =
    | Wakes(task: nat, wake: Wake, readings: Readings)
    | Answers(task: nat, outcome: Audit.Outcome, at: int)
    | Reconciles(positions: Positions, snapshotAt: int)

  predicate Possible(o: Office, v: Event) {
    match v
    case Wakes(task, _, _) => task !in o.fires
    case Answers(task, _, _) => task in o.fires
    case Reconciles(_, _) => true
  }

  function After(l: Limits, c: Config, o: Office, v: Event): Office
    requires Possible(o, v)
  {
    match v
    case Wakes(task, wake, readings) => HandleFire(l, c, o, task, wake, readings)
    case Answers(task, outcome, at) => Resume(c, o, task, outcome, at)
    case Reconciles(positions, at) =>
      o.(gate := if o.gate.Some? then Some(Reconcile(o.gate.value, positions, at)) else None)
  }

  predicate Happens(l: Limits, c: Config, o: Office, events: seq<Event>)
    decreases |events|
  {
    events == [] || (Possible(o, events[0]) && Happens(l, c, After(l, c, o, events[0]), events[1..]))
  }

  function Outcomes(l: Limits, c: Config, o: Office, events: seq<Event>): Office
    requires Happens(l, c, o, events)
    decreases |events|
  {
    if events == [] then o else Outcomes(l, c, After(l, c, o, events[0]), events[1..])
  }

  // ---- Shadow erasure ------------------------------------------------------------------------

  /** A shadow wake, or the answer to one. */
  predicate IsShadow(o: Office, v: Event)
    requires Possible(o, v)
  {
    match v
    case Wakes(_, wake, _) => wake.dryRun
    case Answers(task, _, _) => o.fires[task].wake.dryRun
    case Reconciles(_, _) => false
  }

  /** The run with every shadow wake, and the end of every shadow fire, deleted. */
  function WithoutShadows(l: Limits, c: Config, o: Office, events: seq<Event>): seq<Event>
    requires Happens(l, c, o, events)
    decreases |events|
  {
    if events == [] then []
    else
      var rest := WithoutShadows(l, c, After(l, c, o, events[0]), events[1..]);
      if IsShadow(o, events[0]) then rest else [events[0]] + rest
  }

  function RealMeasured(measured: seq<Measured>): seq<Measured> {
    if measured == [] then []
    else
      var rest := RealMeasured(measured[..|measured| - 1]);
      var last := measured[|measured| - 1];
      if last.dryRun then rest else rest + [last]
  }

  function RealFires(fires: map<nat, Fire>): map<nat, Fire> {
    map task | task in fires && !fires[task].wake.dryRun :: fires[task]
  }

  /** What is left of an office when its shadow fires and their latency rows are taken away. */
  function Visible(o: Office): Office {
    o.(fires := RealFires(o.fires), measured := RealMeasured(o.measured))
  }

  lemma RealMeasuredAppend(measured: seq<Measured>, m: Measured)
    ensures RealMeasured(measured + [m]) == RealMeasured(measured) + if m.dryRun then [] else [m]
  {
    assert (measured + [m])[..|measured|] == measured;
  }

  lemma RealFiresAdd(fires: map<nat, Fire>, task: nat, fire: Fire)
    requires task !in fires
    ensures RealFires(fires[task := fire])
            == if fire.wake.dryRun then RealFires(fires) else RealFires(fires)[task := fire]
  {
  }

  lemma RealFiresRemove(fires: map<nat, Fire>, task: nat)
    ensures RealFires(fires - {task}) == RealFires(fires) - {task}
  {
  }

  lemma ShadowDispatchIsInvisible(o: Office, task: nat, w: Wake, count: int, price: real, e: Readings)
    requires task !in o.fires && w.dryRun
    ensures Visible(Dispatched(o, task, w, count, price, e)) == Visible(o)
  {
    RealMeasuredAppend(o.measured, Measured(w.correlation, true));
    RealFiresAdd(o.fires, task, Fire(w, count, PendingRow(w, count, price, e)));
  }

  lemma ShadowWakeIsInvisible(l: Limits, c: Config, o: Office, task: nat, w: Wake, e: Readings)
    requires task !in o.fires && w.dryRun
    ensures Visible(HandleFire(l, c, o, task, w, e)) == Visible(o)
  {
    ShadowDispatchIsInvisible(o, task, w, CountFor(c, w, e.balance), Snap(w.wirePrice, w.ranges), e);
  }

  lemma ShadowAnswerIsInvisible(c: Config, o: Office, task: nat, outcome: Audit.Outcome, at: int)
    requires task in o.fires && o.fires[task].wake.dryRun
    ensures Visible(Resume(c, o, task, outcome, at)) == Visible(o)
  {
    RealMeasuredAppend(o.measured, Measured(o.fires[task].wake.correlation, true));
    RealFiresRemove(o.fires, task);
  }

  lemma ShadowEventsAreInvisible(l: Limits, c: Config, o: Office, v: Event)
    requires Possible(o, v) && IsShadow(o, v)
    ensures Visible(After(l, c, o, v)) == Visible(o)
  {
    match v
    case Wakes(task, wake, e) => ShadowWakeIsInvisible(l, c, o, task, wake, e);
    case Answers(task, outcome, at) => ShadowAnswerIsInvisible(c, o, task, outcome, at);
  }

  lemma RealDispatchesAct(o: Office, task: nat, w: Wake, count: int, price: real, e: Readings)
    requires task !in o.fires && !w.dryRun
    ensures Visible(Dispatched(o, task, w, count, price, e)) == Dispatched(Visible(o), task, w, count, price, e)
  {
    RealMeasuredAppend(o.measured, Measured(w.correlation, false));
    RealFiresAdd(o.fires, task, Fire(w, count, PendingRow(w, count, price, e)));
  }

  lemma GatingActs(l: Limits, o: Office, w: Wake, count: int, price: real, e: Readings)
    ensures var (gated, refusal) := Gated(l, o, w, count, price, e);
            Gated(l, Visible(o), w, count, price, e) == (Visible(gated), refusal) && gated.fires == o.fires
  {
  }

  lemma RefusingActs(o: Office, w: Wake, count: int, price: real, refusal: Refusal, e: Readings)
    ensures Visible(Refused(o, w, count, price, refusal, e)) == Refused(Visible(o), w, count, price, refusal, e)
  {
  }

  lemma RealWakesAct(l: Limits, c: Config, o: Office, task: nat, w: Wake, e: Readings)
    requires task !in o.fires && !w.dryRun
    ensures Visible(HandleFire(l, c, o, task, w, e)) == HandleFire(l, c, Visible(o), task, w, e)
  {
    if Tradeable(w.wirePrice) {
      var price := Snap(w.wirePrice, w.ranges);
      var count := CountFor(c, w, e.balance);
      if count < 1 {
        RefusingActs(o, w, c.fixedCount, price, ThinBook, e);
      } else if e.halted {
        RefusingActs(o, w, count, price, KillSwitch, e);
      } else {
        var (gated, refusal) := Gated(l, o, w, count, price, e);
        GatingActs(l, o, w, count, price, e);
        if refusal.Some? {
          RefusingActs(gated, w, count, price, refusal.value, e);
        } else {
          RealDispatchesAct(gated, task, w, count, price, e);
        }
      }
    }
  }

  lemma RealEventsAct(l: Limits, c: Config, o: Office, v: Event)
    requires Possible(o, v) && !IsShadow(o, v)
    ensures Possible(Visible(o), v) && Visible(After(l, c, o, v)) == After(l, c, Visible(o), v)
  {
    match v
    case Wakes(task, wake, e) => RealWakesAct(l, c, o, task, wake, e);
    case Answers(task, outcome, at) =>
      RealMeasuredAppend(o.measured, Measured(o.fires[task].wake.correlation, false));
      RealFiresRemove(o.fires, task);
    case Reconciles(_, _) =>
  }

  /**
   Deleting all shadow wakes from any run, with the same readings and answers for the rest, leaves a run
   that can happen and that ends with the same gate, the same telemetry writes, the same posted bodies,
   the same real fires in the air and the same real latency rows.
   */
  lemma {:induction false} ShadowErasure(l: Limits, c: Config, o: Office, events: seq<Event>)
    requires Happens(l, c, o, events)
    ensures var erased := WithoutShadows(l, c, o, events);
            && Happens(l, c, Visible(o), erased)
            && Outcomes(l, c, Visible(o), erased) == Visible(Outcomes(l, c, o, events))
    decreases |events|
  {
    if events != [] {
      var v := events[0];
      ShadowErasure(l, c, After(l, c, o, v), events[1..]);
      if IsShadow(o, v) {
        ShadowEventsAreInvisible(l, c, o, v);
      } else {
        RealEventsAct(l, c, o, v);
        var erased := WithoutShadows(l, c, o, events);
        assert erased[0] == v && erased[1..] == WithoutShadows(l, c, After(l, c, o, v), events[1..]);
      }
    }
  }

  // ---- What becomes of a real wake -----------------------------------------------------------

  /** A wake left no trace at all. */
  predicate Silent(before: Office, after: Office) { after == before }

  /** A wake was refused on the record: one rejected row, nothing sent, no attempt charged. */
  predicate Recorded(before: Office, after: Office, w: Wake, e: Readings) {
    && |after.jobs| == |before.jobs| + 1 && after.jobs[..|before.jobs|] == before.jobs
    && after.jobs[|before.jobs|].OrderJob?
    && after.jobs[|before.jobs|].order.status == Rejected
    && after.jobs[|before.jobs|].order.id == e.id
    && after.jobs[|before.jobs|].order.correlation == Some(w.correlation)
    && after.jobs[|before.jobs|].order.price == Parsed(Snap(w.wirePrice, w.ranges))
    && after.posted == before.posted && after.fires == before.fires && after.measured == before.measured
    && NothingCharged(before.gate, after.gate)
  }

  /** The gate may have pruned, but counts no new attempt, cooldown or dispatch. */
  predicate NothingCharged(before: Option<Gate>, after: Option<Gate>) {
    && before.Some? == after.Some?
    && (before.Some? ==>
          && after.value.inFlight == before.value.inFlight && after.value.lastAttempt == before.value.lastAttempt
          && |after.value.attempts| <= |before.value.attempts|)
  }

  /** A wake was sent: one body on the wire and one pending row on the trail, alike in every shared field. */
  predicate SentOut(before: Office, after: Office, task: nat, w: Wake, e: Readings) {
    && |after.posted| == |before.posted| + 1 && after.posted[..|before.posted|] == before.posted
    && task in after.fires && after.fires - {task} == before.fires
    && var body := after.posted[|before.posted|];
    && body == Body(w.ticker, e.id, w.direction, body.count, Snap(w.wirePrice, w.ranges), w.shard)
    && 1 <= body.count == after.fires[task].count && (w.available > 0.0 ==> body.count as real <= w.available)
    && after.jobs == before.jobs + [Store.OrderJob(after.fires[task].row)]
    && after.fires[task].row == PendingRow(w, body.count, body.price, e)
  }

  /** The order guard raised: the attempt stays charged, and nothing was written or sent. */
  predicate Forbidden(before: Office, after: Office) {
    after.jobs == before.jobs && after.posted == before.posted && after.fires == before.fires
    && |after.measured| == |before.measured| + 1
  }

  lemma PruningShortens(attempts: seq<Attempt>, floor: int)
    ensures |DropOldAttempts(attempts, floor)| <= |attempts|
  {
  }

  lemma RefusalChargesNothing(l: Limits, g: Gate, r: Request, now: int)
    ensures NothingCharged(Some(g), Some(Decide(l, g, r, now).0))
  {
    PruningShortens(g.attempts, now - DAY_MS);
  }

  lemma TruncateIsFloor(x: real)
    requires x > 0.0
    ensures Truncate(x) as real <= x
  {
  }

  lemma RealCounts(c: Config, w: Wake, balance: real)
    requires !w.dryRun
    ensures w.available > 0.0 ==> CountFor(c, w, balance) as real <= w.available
    ensures !(w.available > 0.0) ==> CountFor(c, w, balance) >= c.fixedCount
  {
    if w.available > 0.0 {
      TruncateIsFloor(w.available);
    }
  }

  /**
   Every real wake ends in exactly one way: an untradeable wire price vanishes without a row; any other
   refusal leaves exactly one rejected row; the rest are sent with their pending row, unless the order
   guard raises.
   */
  lemma RealWakesAreAccountedFor(l: Limits, c: Config, o: Office, task: nat, w: Wake, e: Readings)
    requires !w.dryRun && task !in o.fires
    ensures var after := HandleFire(l, c, o, task, w, e);
            && (Silent(o, after) <==> !Tradeable(w.wirePrice))
            && (Tradeable(w.wirePrice) ==>
                  || Recorded(o, after, w, e)
                  || (e.permitted && SentOut(o, after, task, w, e))
                  || (!e.permitted && Forbidden(o, after)))
  {
    var after := HandleFire(l, c, o, task, w, e);
    if Tradeable(w.wirePrice) {
      var price := Snap(w.wirePrice, w.ranges);
      var count := CountFor(c, w, e.balance);
      RealCounts(c, w, e.balance);
      if count < 1 || e.halted {
        assert Recorded(o, after, w, e);
      } else {
        GatedWakes(l, c, o, task, w, e, count, price);
      }
    }
  }

  lemma GatedWakes(l: Limits, c: Config, o: Office, task: nat, w: Wake, e: Readings, count: int, price: real)
    requires !w.dryRun && task !in o.fires && Tradeable(w.wirePrice) && !e.halted && 1 <= count
    requires price == Snap(w.wirePrice, w.ranges) && count == CountFor(c, w, e.balance)
    ensures var after := HandleFire(l, c, o, task, w, e);
            && !Silent(o, after)
            && (|| Recorded(o, after, w, e)
                || (e.permitted && SentOut(o, after, task, w, e))
                || (!e.permitted && Forbidden(o, after)))
  {
    var after := HandleFire(l, c, o, task, w, e);
    var (gated, refusal) := Gated(l, o, w, count, price, e);
    RealCounts(c, w, e.balance);
    if refusal.Some? {
      RefusalChargesNothing(l, o.gate.value, RequestOf(w, count, price), e.checkedAt);
      assert Recorded(o, after, w, e);
    } else if e.permitted {
      assert after.fires - {task} == o.fires;
      assert SentOut(o, after, task, w, e);
    } else {
      assert Forbidden(o, after);
    }
  }

  /**
   A refusal is really on the trail exactly when its wire price keeps clear of both ends of the grid: nearer
   than that it snaps to zero or one, and the database turns its row away. (A row needs a positive count and
   an unused order id besides.)
   */
  lemma RefusalReachesTheTrail(l: Limits, c: Config, o: Office, task: nat, w: Wake, e: Readings, db: Store.Db)
    requires !w.dryRun && task !in o.fires && Recorded(o, HandleFire(l, c, o, task, w, e), w, e)
    ensures var job := HandleFire(l, c, o, task, w, e).jobs[|o.jobs|];
            Store.Insert(db, job).Some? <==>
              && KeepsClear(w.wirePrice, StepFor(w.wirePrice, w.ranges))
              && (CountFor(c, w, e.balance) >= 1 || c.fixedCount >= 1) && e.id !in db.orders
  {
    RealWakesAreAccountedFor(l, c, o, task, w, e);
    StaysTradeableExactlyWhen(w.wirePrice, w.ranges);
  }

  /** Whether the database has a row of an order after some telemetry writes. */
  predicate OnTrail(db: Store.Db, jobs: seq<Store.Job>, id: string) { id in Store.WriteAll(db, jobs).orders }

  /**
   The same of an order that was sent: its pending row and, however its post ended, its resolution reach the
   trail exactly when its wire price keeps clear of both ends. Nearer than that the order is on the wire at a
   price of zero or one, and the trail never hears of it.
   */
  lemma SentOrderReachesTheTrail(l: Limits, c: Config, o: Office, task: nat, w: Wake, e: Readings,
                                 outcome: Audit.Outcome, db: Store.Db)
    requires !w.dryRun && Tradeable(w.wirePrice) && SentOut(o, HandleFire(l, c, o, task, w, e), task, w, e)
    requires e.id !in db.orders
    ensures var row := HandleFire(l, c, o, task, w, e).fires[task].row;
            var resolution := Store.ResolutionJob(Audit.Resolution(row, outcome, c.timeInForce));
            var clear := KeepsClear(w.wirePrice, StepFor(w.wirePrice, w.ranges));
            && (OnTrail(db, [Store.OrderJob(row)], e.id) <==> clear)
            && (OnTrail(db, [resolution], e.id) <==> clear)
            && (OnTrail(db, [Store.OrderJob(row), resolution], e.id) <==> clear)
  {
    var row := HandleFire(l, c, o, task, w, e).fires[task].row;
    var resolution := Store.ResolutionJob(Audit.Resolution(row, outcome, c.timeInForce));
    StaysTradeableExactlyWhen(w.wirePrice, w.ranges);
    assert Store.Lawful(row) <==> KeepsClear(w.wirePrice, StepFor(w.wirePrice, w.ranges));
    WritesOfOne(db, Store.OrderJob(row));
    WritesOfOne(db, resolution);
    WritesOfTwo(db, Store.OrderJob(row), resolution);
  }

  lemma WritesOfOne(db: Store.Db, job: Store.Job)
    ensures Store.WriteAll(db, [job]) == Store.WriteOne(db, job)
  {
    assert [job][..0] == [];
  }

  lemma WritesOfTwo(db: Store.Db, first: Store.Job, second: Store.Job)
    ensures Store.WriteAll(db, [first, second]) == Store.WriteOne(Store.WriteOne(db, first), second)
  {
    assert [first, second][..1] == [first];
    WritesOfOne(db, first);
  }

  // ---- Pending rows come first ---------------------------------------------------------------

  /** The row a resolution resolves: itself before its outcome was known. */
  function Unresolved(row: OrderRow): OrderRow { row.(status := Pending, response := "", fillCount := None) }

  /** Every resolution handed to telemetry follows the pending row it resolves. */
  predicate PendingFirst(jobs: seq<Store.Job>) {
    forall k | 0 <= k < |jobs| && jobs[k].ResolutionJob? :: Store.OrderJob(Unresolved(jobs[k].order)) in jobs[..k]
  }

  predicate FiresAreOnTrail(o: Office) {
    forall task | task in o.fires && !o.fires[task].wake.dryRun ::
      Store.OrderJob(o.fires[task].row) in o.jobs && o.fires[task].row == Unresolved(o.fires[task].row)
  }

  lemma OneMoreJob(jobs: seq<Store.Job>, job: Store.Job)
    requires PendingFirst(jobs) && (job.ResolutionJob? ==> Store.OrderJob(Unresolved(job.order)) in jobs)
    ensures PendingFirst(jobs + [job])
  {
    var all := jobs + [job];
    forall k | 0 <= k < |all| && all[k].ResolutionJob?
      ensures Store.OrderJob(Unresolved(all[k].order)) in all[..k]
    {
      assert all[..k] == jobs[..k];
    }
  }

  lemma WakeKeepsPendingFirst(l: Limits, c: Config, o: Office, task: nat, w: Wake, e: Readings)
    requires PendingFirst(o.jobs) && FiresAreOnTrail(o) && task !in o.fires
    ensures var after := HandleFire(l, c, o, task, w, e); PendingFirst(after.jobs) && FiresAreOnTrail(after)
  {
    var after := HandleFire(l, c, o, task, w, e);
    if after.jobs != o.jobs {
      assert after.jobs == o.jobs + [after.jobs[|o.jobs|]];
      OneMoreJob(o.jobs, after.jobs[|o.jobs|]);
    }
  }

  lemma AnswerKeepsPendingFirst(c: Config, o: Office, task: nat, outcome: Audit.Outcome, at: int)
    requires PendingFirst(o.jobs) && FiresAreOnTrail(o) && task in o.fires
    ensures var after := Resume(c, o, task, outcome, at); PendingFirst(after.jobs) && FiresAreOnTrail(after)
  {
    if !o.fires[task].wake.dryRun {
      OneMoreJob(o.jobs, Store.ResolutionJob(Audit.Resolution(o.fires[task].row, outcome, c.timeInForce)));
    }
  }

  /** In every run the pending row of an order goes to telemetry before its resolution does. */
  lemma {:induction false} PendingRowsComeFirst(l: Limits, c: Config, o: Office, events: seq<Event>)
    requires Happens(l, c, o, events) && PendingFirst(o.jobs) && FiresAreOnTrail(o)
    ensures PendingFirst(Outcomes(l, c, o, events).jobs) && FiresAreOnTrail(Outcomes(l, c, o, events))
    decreases |events|
  {
    if events != [] {
      match events[0] {
        case Wakes(task, wake, e) => WakeKeepsPendingFirst(l, c, o, task, wake, e);
        case Answers(task, outcome, at) => AnswerKeepsPendingFirst(c, o, task, outcome, at);
        case Reconciles(_, _) =>
      }
      PendingRowsComeFirst(l, c, After(l, c, o, events[0]), events[1..]);
    }
  }

  // ---- Dispatches in flight ------------------------------------------------------------------

  function RealTasks(o: Office): set<nat> {
    set task | task in o.fires && !o.fires[task].wake.dryRun
  }

  /** The gate counts exactly the real fires suspended at their post. */
  predicate Balanced(o: Office) { o.gate.Some? ==> o.gate.value.inFlight == |RealTasks(o)| }

  /** How many dispatches the gate believes are in flight. */
  function InFlight(gate: Option<Gate>): int { if gate.Some? then gate.value.inFlight else 0 }

  lemma SuspendedTasks(o: Office, task: nat, fire: Fire)
    requires task !in o.fires
    ensures var after := o.(fires := o.fires[task := fire]);
            |RealTasks(after)| == |RealTasks(o)| + if fire.wake.dryRun then 0 else 1
  {
    var after := o.(fires := o.fires[task := fire]);
    assert RealTasks(after) == if fire.wake.dryRun then RealTasks(o) else RealTasks(o) + {task};
  }

  lemma ResumedTasks(o: Office, task: nat)
    requires task in o.fires
    ensures var after := o.(fires := o.fires - {task});
            |RealTasks(after)| == |RealTasks(o)| - if o.fires[task].wake.dryRun then 0 else 1
  {
    assert RealTasks(o.(fires := o.fires - {task})) == RealTasks(o) - {task};
  }

  lemma DecideKeepsInFlight(l: Limits, g: Gate, r: Request, now: int)
    ensures Decide(l, g, r, now).0.inFlight == g.inFlight
  {
  }

  lemma GatedInFlight(l: Limits, o: Office, w: Wake, count: int, price: real, e: Readings)
    ensures var (gated, refusal) := Gated(l, o, w, count, price, e);
            && gated.gate.Some? == o.gate.Some? && gated.fires == o.fires
            && InFlight(gated.gate) == InFlight(o.gate) + if refusal.Some? || w.dryRun || o.gate.None? then 0 else 1
  {
    if o.gate.Some? {
      DecideKeepsInFlight(l, o.gate.value, RequestOf(w, count, price), e.checkedAt);
    }
  }

  lemma SameFires(a: Office, b: Office)
    requires a.fires == b.fires
    ensures RealTasks(a) == RealTasks(b)
  {
  }

  lemma WakeKeepsBalance(l: Limits, c: Config, o: Office, task: nat, w: Wake, e: Readings)
    requires task !in o.fires && Balanced(o)
    ensures Balanced(HandleFire(l, c, o, task, w, e))
  {
    var price := Snap(w.wirePrice, w.ranges);
    var count := CountFor(c, w, e.balance);
    var after := HandleFire(l, c, o, task, w, e);
    var gated := Gated(l, o, w, count, price, e).0;
    GatedInFlight(l, o, w, count, price, e);
    SameFires(gated, o);
    if task in after.fires {
      SuspendedTasks(gated, task, after.fires[task]);
      SameFires(after, gated.(fires := gated.fires[task := after.fires[task]]));
    } else {
      SameFires(after, o);
    }
  }

  lemma EventKeepsBalance(l: Limits, c: Config, o: Office, v: Event)
    requires Possible(o, v) && Balanced(o)
    ensures Balanced(After(l, c, o, v))
  {
    var after := After(l, c, o, v);
    match v
    case Wakes(task, wake, e) => WakeKeepsBalance(l, c, o, task, wake, e);
    case Answers(task, _, _) =>
      ResumedTasks(o, task);
      SameFires(after, o.(fires := o.fires - {task}));
    case Reconciles(_, _) =>
      SameFires(after, o);
  }

  /** Every dispatch begun is ended exactly once, whatever it raised, in every run. */
  lemma {:induction false} InFlightIsExact(l: Limits, c: Config, o: Office, events: seq<Event>)
    requires Happens(l, c, o, events) && Balanced(o)
    ensures Balanced(Outcomes(l, c, o, events))
    decreases |events|
  {
    if events != [] {
      EventKeepsBalance(l, c, o, events[0]);
      InFlightIsExact(l, c, After(l, c, o, events[0]), events[1..]);
    }
  }
}
