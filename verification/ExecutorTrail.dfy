/**
 The executor over its whole career: lives of wakes, answers and reconciliations, each ended by a crash after
 which the gate is rebuilt from whatever rows the telemetry had managed to write. The runs of `RollingWindow`,
 whose restarts suppose a table that mirrors the log, are the runs the executor really makes.
 */
module ExecutorTrail {
  import opened Numbers
  import opened Wrappers
  import opened Orders
  import opened GateSpec
  import opened RollingWindow
  import opened WarmStarts
  import opened OrderLog
  import PriceGrid
  import Store = TelemetryStore
  import Audit = AuditTrail
  import X = Executor
  import P = ExecutorProtocol
  import R = RestoredPositions

  /** An executor at work, beside what its gate was asked in all its lives and where that took it. */
  datatype Shift = Shift(
    office: X.Office, calls: seq<Call>, session: Session, ids: seq<string>, used: set<string>, clock: int)

  function LogOf(s: Shift): Log { Log(s.ids, s.session.history, s.used, s.clock) }

  /** Order ids are never handed out twice, and the clock never goes back. */
  predicate Can(s: Shift, v: X.Event) {
    && X.Possible(s.office, v)
    && match v
       case Wakes(_, _, e) => e.id !in s.used && s.clock <= e.checkedAt <= e.recordedAt <= e.rowAt
       case Answers(_, _, at) => s.clock <= at
       case Reconciles(_, _) => true
  }

  predicate Admitted(l: Limits, c: X.Config, s: Shift, v: X.Event) {
    && v.Wakes? && P.ReachesGate(c, v.wake, v.readings)
    && Decide(l, s.session.gate, P.RequestFor(c, v.wake, v.readings), v.readings.checkedAt).1.None?
  }

  /** The calls one event makes on the gate; `kept` has the order ids with a row when this life has ended. */
  function Asked(l: Limits, c: X.Config, s: Shift, v: X.Event, kept: set<string>): seq<Call>
    requires Can(s, v)
  {
    match v
    case Wakes(_, w, e) =>
      if !P.ReachesGate(c, w, e) then []
      else
        var wake := Wake(P.RequestFor(c, w, e), e.checkedAt, e.recordedAt, e.id in kept);
        if Admitted(l, c, s, v) && !e.permitted then [wake, End] else [wake]
    case Answers(task, outcome, at) =>
      var fire := s.office.fires[task];
      if fire.wake.dryRun then []
      else if outcome.Answered? then [Call.Fill(fire.wake.ticker, X.FillOf(outcome), at), End]
      else [End]
    case Reconciles(positions, at) => [Poll(positions, at)]
  }

  function Moment(s: Shift, v: X.Event): int {
    match v
    case Wakes(_, _, e) => e.rowAt
    case Answers(_, _, at) => at
    case Reconciles(_, _) => s.clock
  }

  function Step(l: Limits, c: X.Config, s: Shift, v: X.Event, kept: set<string>): Shift
    requires Can(s, v)
  {
    var asked := Asked(l, c, s, v, kept);
    Shift(X.After(l, c, s.office, v), s.calls + asked, Run(l, s.session, asked),
          s.ids + (if Admitted(l, c, s, v) then [v.readings.id] else []),
          if v.Wakes? then s.used + {v.readings.id} else s.used, Moment(s, v))
  }

  predicate CanAll(l: Limits, c: X.Config, s: Shift, events: seq<X.Event>, kept: set<string>)
    decreases |events|
  {
    events == [] || (Can(s, events[0]) && CanAll(l, c, Step(l, c, s, events[0], kept), events[1..], kept))
  }

  function StepAll(l: Limits, c: X.Config, s: Shift, events: seq<X.Event>, kept: set<string>): Shift
    requires CanAll(l, c, s, events, kept)
    decreases |events|
  {
    if events == [] then s else StepAll(l, c, Step(l, c, s, events[0], kept), events[1..], kept)
  }

  // ---- Which runs these are ------------------------------------------------------------------

  function ReadingsOf(v: X.Event): seq<int> {
    match v
    case Wakes(_, _, e) => [e.checkedAt, e.recordedAt, e.rowAt]
    case Answers(_, _, at) => [at]
    case Reconciles(_, _) => []
  }

  /** Every reading of the executor's clock in some events, in order. */
  function AllReadings(events: seq<X.Event>): seq<int> {
    if events == [] then [] else ReadingsOf(events[0]) + AllReadings(events[1..])
  }

  predicate RisesFrom(clock: int, readings: seq<int>)
    decreases |readings|
  {
    readings == [] || (clock <= readings[0] && RisesFrom(readings[0], readings[1..]))
  }

  /** Every order id handed out in some events, in order. */
  function IdsOf(events: seq<X.Event>): seq<string> {
    if events == [] then []
    else (if events[0].Wakes? then [events[0].readings.id] else []) + IdsOf(events[1..])
  }

  predicate NeverUsed(ids: seq<string>, used: set<string>) {
    ids == [] || (ids[0] !in used && NeverUsed(ids[1..], used + {ids[0]}))
  }

  lemma {:induction false} RisesThrough(clock: int, first: seq<int>, rest: seq<int>)
    ensures RisesFrom(clock, first + rest)
            <==> RisesFrom(clock, first) && RisesFrom(if first == [] then clock else first[|first| - 1], rest)
    decreases |first|
  {
    if first == [] {
      assert first + rest == rest;
    } else {
      assert (first + rest)[1..] == first[1..] + rest;
      RisesThrough(first[0], first[1..], rest);
    }
  }

  lemma EventRises(clock: int, v: X.Event)
    ensures RisesFrom(clock, ReadingsOf(v)) <==>
              match v
              case Wakes(_, _, e) => clock <= e.checkedAt <= e.recordedAt <= e.rowAt
              case Answers(_, _, at) => clock <= at
              case Reconciles(_, _) => true
  {
    if v.Wakes? {
      var e := v.readings;
      assert ReadingsOf(v) == [e.checkedAt] + ([e.recordedAt] + [e.rowAt]);
      RisesThrough(clock, [e.checkedAt], [e.recordedAt] + [e.rowAt]);
      RisesThrough(e.checkedAt, [e.recordedAt], [e.rowAt]);
    }
  }

  lemma IdIsFirst(events: seq<X.Event>, used: set<string>)
    requires events != []
    ensures NeverUsed(IdsOf(events), used)
            <==> if events[0].Wakes? then
                   events[0].readings.id !in used && NeverUsed(IdsOf(events[1..]), used + {events[0].readings.id})
                 else NeverUsed(IdsOf(events[1..]), used)
  {
    if events[0].Wakes? {
      assert IdsOf(events)[1..] == IdsOf(events[1..]);
    } else {
      assert IdsOf(events) == IdsOf(events[1..]);
    }
  }

  /** They are exactly the executor's runs in which no clock reading is earlier than one before it and no id returns. */
  lemma {:induction false} EveryOrderlyRunIsOne(l: Limits, c: X.Config, s: Shift, events: seq<X.Event>,
                                                kept: set<string>)
    ensures CanAll(l, c, s, events, kept) <==>
              && X.Happens(l, c, s.office, events)
              && RisesFrom(s.clock, AllReadings(events)) && NeverUsed(IdsOf(events), s.used)
    decreases |events|
  {
    if events != [] {
      var v := events[0];
      RisesThrough(s.clock, ReadingsOf(v), AllReadings(events[1..]));
      EventRises(s.clock, v);
      IdIsFirst(events, s.used);
      if Can(s, v) {
        EveryOrderlyRunIsOne(l, c, Step(l, c, s, v, kept), events[1..], kept);
      }
    }
  }

  // ---- The calls are those the gate answers --------------------------------------------------

  lemma {:induction false} CallsConcat(l: Limits, s: Session, reading: Reading, a: seq<Call>, b: seq<Call>)
    requires Legal(l, s, a) && Legal(l, Run(l, s, a), b)
    ensures Legal(l, s, a + b) && Run(l, s, a + b) == Run(l, Run(l, s, a), b)
    ensures LastReading(l, s, reading, a + b) == LastReading(l, Run(l, s, a), LastReading(l, s, reading, a), b)
    decreases |a|
  {
    if a == [] {
      assert a + b == b;
    } else {
      var c := a[0];
      assert (a + b)[0] == c && (a + b)[1..] == a[1..] + b;
      CallsConcat(l, Next(l, s, c), if c.Restart? then Reading(c.table, c.rows, c.at, |s.history|) else reading,
                  a[1..], b);
    }
  }

  lemma OneCall(l: Limits, s: Session, c: Call)
    requires Enabled(s, c)
    ensures Legal(l, s, [c]) && Run(l, s, [c]) == Next(l, s, c)
  {
    assert [c][1..] == [];
  }

  lemma TwoCalls(l: Limits, s: Session, c: Call, d: Call)
    requires Enabled(s, c) && Enabled(Next(l, s, c), d)
    ensures Legal(l, s, [c, d]) && Run(l, s, [c, d]) == Next(l, Next(l, s, c), d)
  {
    assert [c, d][1..] == [d];
    OneCall(l, Next(l, s, c), d);
  }

  /** The executor's gate is where the calls took it, and not ahead of the clock. */
  predicate InStep(s: Shift) { s.office.gate == Some(s.session.gate) && s.session.now <= s.clock }

  lemma ProductIsNonNegative(count: int, price: real)
    requires count >= 0 && price >= 0.0
    ensures count as real * price >= 0.0
  {
  }

  lemma RequestHasACost(c: X.Config, w: X.Wake, e: X.Readings)
    requires P.ReachesGate(c, w, e)
    ensures Cost(P.RequestFor(c, w, e)) >= 0.0
  {
    PriceGrid.SnapNonNegative(w.wirePrice, w.ranges);
    ProductIsNonNegative(X.CountFor(c, w, e.balance), PriceGrid.Snap(w.wirePrice, w.ranges));
  }

  /** The entry an admitted wake adds to the log. */
  function EntryFor(c: X.Config, s: Shift, w: X.Wake, e: X.Readings, kept: set<string>): Logged {
    Admission(P.RequestFor(c, w, e), e.recordedAt, s.session.life, e.id in kept)
  }

  /** What an event's calls do, and that the executor's own gate does the same. */
  predicate Follows(l: Limits, c: X.Config, s: Shift, v: X.Event, kept: set<string>)
    requires Can(s, v)
  {
    var after := Step(l, c, s, v, kept);
    && Legal(l, s.session, Asked(l, c, s, v, kept)) && InStep(after) && after.session.life == s.session.life
    && after.session.history
       == s.session.history + if Admitted(l, c, s, v) then [EntryFor(c, s, v.wake, v.readings, kept)] else []
  }

  lemma WakeFollows(l: Limits, c: X.Config, s: Shift, task: nat, w: X.Wake, e: X.Readings, kept: set<string>)
    requires InStep(s) && Can(s, X.Wakes(task, w, e))
    ensures Follows(l, c, s, X.Wakes(task, w, e), kept)
  {
    var v := X.Wakes(task, w, e);
    if P.ReachesGate(c, w, e) {
      var r := P.RequestFor(c, w, e);
      var wake := Wake(r, e.checkedAt, e.recordedAt, e.id in kept);
      RequestHasACost(c, w, e);
      P.WakesAtTheGate(l, c, s.office, s.session.gate, task, w, e);
      OneCall(l, s.session, wake);
      if Admitted(l, c, s, v) && !e.permitted {
        TwoCalls(l, s.session, wake, End);
      }
    } else {
      P.WakesThatStopShort(l, c, s.office, task, w, e);
    }
  }

  lemma AnswerFollows(l: Limits, c: X.Config, s: Shift, task: nat, outcome: Audit.Outcome, at: int, kept: set<string>)
    requires InStep(s) && Can(s, X.Answers(task, outcome, at))
    ensures Follows(l, c, s, X.Answers(task, outcome, at), kept)
  {
    var fire := s.office.fires[task];
    if !fire.wake.dryRun {
      if outcome.Answered? {
        TwoCalls(l, s.session, Call.Fill(fire.wake.ticker, X.FillOf(outcome), at), End);
      } else {
        OneCall(l, s.session, End);
      }
    }
  }

  lemma EventFollows(l: Limits, c: X.Config, s: Shift, v: X.Event, kept: set<string>)
    requires InStep(s) && Can(s, v)
    ensures Follows(l, c, s, v, kept)
  {
    match v
    case Wakes(task, w, e) => WakeFollows(l, c, s, task, w, e, kept);
    case Answers(task, outcome, at) => AnswerFollows(l, c, s, task, outcome, at, kept);
    case Reconciles(positions, at) => OneCall(l, s.session, Poll(positions, at));
  }

  // ---- The rows belong to the log ------------------------------------------------------------

  predicate FireBelongs(log: Log, base: nat, fire: X.Fire) {
    !fire.wake.dryRun ==> fire.row.status.Pending? && Belongs(log, base, fire.row)
  }

  /** Every job handed over and every fire in the air is about an attempt of this life, or a refusal. */
  predicate BooksInv(s: Shift, base: nat) {
    && LogInv(LogOf(s))
    && (forall job | job in s.office.jobs :: AboutOrders(job) && JobBelongs(LogOf(s), base, job))
    && (forall task | task in s.office.fires :: FireBelongs(LogOf(s), base, s.office.fires[task]))
  }

  lemma LogGrows(l: Limits, c: X.Config, s: Shift, v: X.Event, kept: set<string>)
    requires InStep(s) && Can(s, v) && LogInv(LogOf(s))
    ensures LogInv(LogOf(Step(l, c, s, v, kept))) && Grows(LogOf(s), LogOf(Step(l, c, s, v, kept)))
  {
    EventFollows(l, c, s, v, kept);
  }

  /** What a wake writes: at most one row, pending when it is sent and rejected when it is refused. */
  lemma WakeWrites(l: Limits, c: X.Config, s: Shift, task: nat, w: X.Wake, e: X.Readings)
    requires InStep(s) && task !in s.office.fires
    ensures var after := X.HandleFire(l, c, s.office, task, w, e);
            var r := P.RequestFor(c, w, e);
            if Admitted(l, c, s, X.Wakes(task, w, e)) && e.permitted then
              && after.jobs == s.office.jobs + [Store.OrderJob(X.PendingRow(w, r.count, r.price, e))]
              && after.fires == s.office.fires[task := X.Fire(w, r.count, X.PendingRow(w, r.count, r.price, e))]
            else
              && (|| after.jobs == s.office.jobs
                  || (&& after.jobs == s.office.jobs + [after.jobs[|s.office.jobs|]]
                      && after.jobs[|s.office.jobs|].OrderJob? && after.jobs[|s.office.jobs|].order.status.Rejected?
                      && after.jobs[|s.office.jobs|].order.id == e.id))
              && (|| after.fires == s.office.fires
                  || (w.dryRun && after.fires == s.office.fires[task := after.fires[task]]
                      && after.fires[task].wake == w))
  {
    var after := X.HandleFire(l, c, s.office, task, w, e);
    if after.jobs != s.office.jobs {
      assert after.jobs == s.office.jobs + [after.jobs[|s.office.jobs|]];
    }
  }

  lemma PendingRecords(c: X.Config, s: Shift, w: X.Wake, e: X.Readings, kept: set<string>)
    requires e.recordedAt <= e.rowAt
    ensures var r := P.RequestFor(c, w, e);
            Records(X.PendingRow(w, r.count, r.price, e), EntryFor(c, s, w, e, kept), e.rowAt)
  {
  }

  lemma PendingBelongs(l: Limits, c: X.Config, s: Shift, v: X.Event, kept: set<string>, base: nat)
    requires InStep(s) && Can(s, v) && LogInv(LogOf(s)) && base <= |s.ids| && Admitted(l, c, s, v)
    ensures var r := P.RequestFor(c, v.wake, v.readings);
            Belongs(LogOf(Step(l, c, s, v, kept)), base, X.PendingRow(v.wake, r.count, r.price, v.readings))
  {
    var r := P.RequestFor(c, v.wake, v.readings);
    EventFollows(l, c, s, v, kept);
    PendingRecords(c, s, v.wake, v.readings, kept);
    assert RecordsEntry(LogOf(Step(l, c, s, v, kept)), base, X.PendingRow(v.wake, r.count, r.price, v.readings),
                        |s.ids|);
  }

  lemma RefusalBelongs(l: Limits, c: X.Config, s: Shift, v: X.Event, kept: set<string>, base: nat, row: OrderRow)
    requires InStep(s) && Can(s, v) && LogInv(LogOf(s)) && v.Wakes? && !Admitted(l, c, s, v)
    requires row.status.Rejected? && row.id == v.readings.id
    ensures Belongs(LogOf(Step(l, c, s, v, kept)), base, row)
  {
  }

  /** A resolution is its pending row with other columns, so it records the same attempt. */
  lemma ResolutionBelongs(log: Log, base: nat, row: OrderRow, outcome: Audit.Outcome, tif: Audit.TimeInForce)
    requires Belongs(log, base, row) && !row.status.Rejected?
    ensures JobBelongs(log, base, Store.ResolutionJob(Audit.Resolution(row, outcome, tif)))
  {
    var k: nat :| k < |log.ids| && RecordsEntry(log, base, row, k);
    assert RecordsEntry(log, base, Audit.Resolution(row, outcome, tif), k);
  }

  /** The rows already there stay where they belong. */
  lemma OldRowsBelong(l: Limits, c: X.Config, s: Shift, v: X.Event, kept: set<string>, base: nat)
    requires InStep(s) && Can(s, v) && BooksInv(s, base)
    ensures var log := LogOf(Step(l, c, s, v, kept));
            && LogInv(log)
            && (forall job | job in s.office.jobs :: AboutOrders(job) && JobBelongs(log, base, job))
            && (forall task | task in s.office.fires :: FireBelongs(log, base, s.office.fires[task]))
  {
    var log := LogOf(Step(l, c, s, v, kept));
    LogGrows(l, c, s, v, kept);
    forall job | job in s.office.jobs
      ensures AboutOrders(job) && JobBelongs(log, base, job)
    {
      GrowthKeepsRow(LogOf(s), log, base, job.order);
    }
    forall task | task in s.office.fires
      ensures FireBelongs(log, base, s.office.fires[task])
    {
      if !s.office.fires[task].wake.dryRun {
        GrowthKeepsRow(LogOf(s), log, base, s.office.fires[task].row);
      }
    }
  }

  lemma WakeKeepsBooks(l: Limits, c: X.Config, s: Shift, v: X.Event, kept: set<string>, base: nat)
    requires InStep(s) && Can(s, v) && BooksInv(s, base) && base <= |s.ids| && v.Wakes?
    ensures BooksInv(Step(l, c, s, v, kept), base)
  {
    var after := Step(l, c, s, v, kept);
    OldRowsBelong(l, c, s, v, kept, base);
    WakeWrites(l, c, s, v.task, v.wake, v.readings);
    if Admitted(l, c, s, v) && v.readings.permitted {
      PendingBelongs(l, c, s, v, kept, base);
    } else if after.office.jobs != s.office.jobs {
      RefusalBelongs(l, c, s, v, kept, base, after.office.jobs[|s.office.jobs|].order);
    }
  }

  lemma EventKeepsBooks(l: Limits, c: X.Config, s: Shift, v: X.Event, kept: set<string>, base: nat)
    requires InStep(s) && Can(s, v) && BooksInv(s, base) && base <= |s.ids|
    ensures BooksInv(Step(l, c, s, v, kept), base)
  {
    match v
    case Wakes(_, _, _) => WakeKeepsBooks(l, c, s, v, kept, base);
    case Answers(task, outcome, at) =>
      OldRowsBelong(l, c, s, v, kept, base);
      if !s.office.fires[task].wake.dryRun {
        ResolutionBelongs(LogOf(Step(l, c, s, v, kept)), base, s.office.fires[task].row, outcome, c.timeInForce);
      }
    case Reconciles(_, _) => OldRowsBelong(l, c, s, v, kept, base);
  }

  // ---- One life ------------------------------------------------------------------------------

  /** The calls so far are a run from the very first session, and end where the gate is. */
  predicate Traced(l: Limits, origin: Session, s: Shift, reading: Reading) {
    && Legal(l, origin, s.calls) && Run(l, origin, s.calls) == s.session
    && LastReading(l, origin, NOTHING_READ, s.calls) == reading
  }

  /** The attempts of this life are marked stored exactly when their orders will have a row at its end. */
  predicate Flagged(s: Shift, base: nat, kept: set<string>) {
    forall k | base <= k < |s.ids| && k < |s.session.history| ::
      s.session.history[k].life == s.session.life && (s.session.history[k].stored <==> s.ids[k] in kept)
  }

  predicate ShiftInv(l: Limits, origin: Session, s: Shift, reading: Reading, kept: set<string>) {
    && InStep(s) && Traced(l, origin, s, reading) && Proper(s.session)
    && reading.past <= |s.ids| && BooksInv(s, reading.past) && Flagged(s, reading.past, kept)
  }

  lemma {:induction false} NoRestartNoReading(l: Limits, s: Session, reading: Reading, calls: seq<Call>)
    requires forall c | c in calls :: !c.Restart?
    ensures LastReading(l, s, reading, calls) == reading
    decreases |calls|
  {
    if calls != [] {
      NoRestartNoReading(l, Next(l, s, calls[0]), reading, calls[1..]);
    }
  }

  lemma {:induction false} RunIsProper(l: Limits, s: Session, calls: seq<Call>)
    requires Legal(l, s, calls) && Proper(s)
    ensures Proper(Run(l, s, calls))
    decreases |calls|
  {
    if calls != [] {
      StepIsProper(l, s, calls[0]);
      RunIsProper(l, Next(l, s, calls[0]), calls[1..]);
    }
  }

  lemma EventKeepsTrace(l: Limits, c: X.Config, origin: Session, s: Shift, v: X.Event, reading: Reading,
                        kept: set<string>)
    requires InStep(s) && Can(s, v) && Traced(l, origin, s, reading)
    ensures Traced(l, origin, Step(l, c, s, v, kept), reading)
  {
    var asked := Asked(l, c, s, v, kept);
    EventFollows(l, c, s, v, kept);
    CallsConcat(l, origin, NOTHING_READ, s.calls, asked);
    NoRestartNoReading(l, s.session, reading, asked);
  }

  lemma EventKeepsFlags(l: Limits, c: X.Config, s: Shift, v: X.Event, base: nat, kept: set<string>)
    requires InStep(s) && Can(s, v) && LogInv(LogOf(s)) && Flagged(s, base, kept)
    ensures Flagged(Step(l, c, s, v, kept), base, kept)
  {
    EventFollows(l, c, s, v, kept);
  }

  lemma EventKeepsShift(l: Limits, c: X.Config, origin: Session, s: Shift, v: X.Event, reading: Reading,
                        kept: set<string>)
    requires Can(s, v) && ShiftInv(l, origin, s, reading, kept)
    ensures ShiftInv(l, origin, Step(l, c, s, v, kept), reading, kept)
    ensures Grows(LogOf(s), LogOf(Step(l, c, s, v, kept)))
    ensures Step(l, c, s, v, kept).session.life == s.session.life
  {
    EventFollows(l, c, s, v, kept);
    RunIsProper(l, s.session, Asked(l, c, s, v, kept));
    EventKeepsTrace(l, c, origin, s, v, reading, kept);
    EventKeepsBooks(l, c, s, v, kept, reading.past);
    EventKeepsFlags(l, c, s, v, reading.past, kept);
    LogGrows(l, c, s, v, kept);
  }

  lemma GrowthChains(a: Log, b: Log, c: Log)
    requires Grows(a, b) && Grows(b, c)
    ensures Grows(a, c)
  {
    forall k | |a.ids| <= k < |c.ids|
      ensures c.ids[k] !in a.used
    {
      if k < |b.ids| {
        assert c.ids[k] == b.ids[k];
      }
    }
  }

  lemma {:induction false} LifeKeepsShift(l: Limits, c: X.Config, origin: Session, s: Shift, events: seq<X.Event>,
                                          reading: Reading, kept: set<string>)
    requires CanAll(l, c, s, events, kept) && ShiftInv(l, origin, s, reading, kept)
    ensures ShiftInv(l, origin, StepAll(l, c, s, events, kept), reading, kept)
    ensures Grows(LogOf(s), LogOf(StepAll(l, c, s, events, kept)))
    ensures StepAll(l, c, s, events, kept).session.life == s.session.life
    decreases |events|
  {
    if events != [] {
      var next := Step(l, c, s, events[0], kept);
      EventKeepsShift(l, c, origin, s, events[0], reading, kept);
      LifeKeepsShift(l, c, origin, next, events[1..], reading, kept);
      GrowthChains(LogOf(s), LogOf(next), LogOf(StepAll(l, c, next, events[1..], kept)));
    }
  }

  // ---- Life after life -----------------------------------------------------------------------

  /**
   One life: what happened, which of the jobs handed over the telemetry wrote before the crash, in whatever order
   and among whatever other telemetry (the rest were dropped or were still queued), what the next start read back,
   and when.
   */
  datatype Life = Life(events: seq<X.Event>, written: seq<Store.Job>, rows: seq<OrderRow>, at: int)

  /** An executor about to start a life, and the database it finds. */
  datatype Site = Site(shift: Shift, db: Store.Db)

  function Written(site: Site, life: Life): Store.Db { Store.WriteAll(site.db, life.written) }

  function EndOf(l: Limits, c: X.Config, site: Site, life: Life): Shift
    requires CanAll(l, c, site.shift, life.events, Written(site, life).orders.Keys)
  {
    StepAll(l, c, site.shift, life.events, Written(site, life).orders.Keys)
  }

  predicate Lived(l: Limits, c: X.Config, site: Site, life: Life) {
    && CanAll(l, c, site.shift, life.events, Written(site, life).orders.Keys)
    && (forall job | job in life.written && AboutOrders(job) :: job in EndOf(l, c, site, life).office.jobs)
    && EndOf(l, c, site, life).clock <= life.at && Fetched(Written(site, life), life.at, life.rows)
  }

  function RestartOf(l: Limits, c: X.Config, site: Site, life: Life): Call
    requires Lived(l, c, site, life)
  {
    Restart(TableOf(Written(site, life), EndOf(l, c, site, life).ids), life.rows, life.at)
  }

  /** The next process: nothing in the air, nothing handed over yet, and a gate rebuilt from the rows. */
  function Reborn(l: Limits, c: X.Config, site: Site, life: Life): Site
    requires Lived(l, c, site, life)
  {
    var end, restart := EndOf(l, c, site, life), RestartOf(l, c, site, life);
    Site(Shift(X.Office(Some(WarmStart(life.rows)), map[], [], [], []), end.calls + [restart],
               Next(l, end.session, restart), end.ids, end.used, life.at),
         Written(site, life))
  }

  predicate LivedAll(l: Limits, c: X.Config, site: Site, lives: seq<Life>)
    decreases |lives|
  {
    lives == [] || (Lived(l, c, site, lives[0]) && LivedAll(l, c, Reborn(l, c, site, lives[0]), lives[1..]))
  }

  function RebornAll(l: Limits, c: X.Config, site: Site, lives: seq<Life>): Site
    requires LivedAll(l, c, site, lives)
    decreases |lives|
  {
    if lives == [] then site else RebornAll(l, c, Reborn(l, c, site, lives[0]), lives[1..])
  }

  /** The first process ever, on a database without orders. */
  function FirstSite(start: nat): Site {
    Site(Shift(X.Office(Some(EMPTY_GATE), map[], [], [], []), [], NewSession(start), [], {}, start),
         Store.Db({}, map[], map[], map[], []))
  }

  /** All logged attempts are of earlier lives, and the database has the rows of exactly those marked stored. */
  predicate SiteInv(l: Limits, origin: Session, site: Site, reading: Reading) {
    && ShiftInv(l, origin, site.shift, reading, {}) && site.shift.office.jobs == []
    && reading.past == |site.shift.ids| && reading.table == TableOf(site.db, site.shift.ids)
    && TrailInv(site.db, LogOf(site.shift)) && FlagsAgree(site.db, LogOf(site.shift), |site.shift.ids|)
    && forall k | 0 <= k < |site.shift.session.history| :: site.shift.session.history[k].life < site.shift.session.life
  }

  lemma JobsBelongLater(s: Shift, base: nat, later: Log, jobs: seq<Store.Job>)
    requires BooksInv(s, base) && LogInv(later) && Grows(LogOf(s), later)
    requires forall job | job in jobs && AboutOrders(job) :: job in s.office.jobs
    ensures forall job | job in jobs :: JobBelongs(later, base, job)
  {
    forall job | job in jobs && AboutOrders(job)
      ensures JobBelongs(later, base, job)
    {
      GrowthKeepsRow(LogOf(s), later, base, job.order);
    }
  }

  /** At the end of a life, the flags of all attempts, old and new, agree with the database it leaves. */
  lemma FlagsAgreeAtTheEnd(before: Store.Db, db: Store.Db, start: Log, end: Shift, base: nat)
    requires base == |start.ids| == |start.entries| && FlagsAgree(before, start, base)
    requires Grows(start, LogOf(end)) && SameBelow(before, db, end.ids, base) && Flagged(end, base, db.orders.Keys)
    ensures FlagsAgree(db, LogOf(end), |end.ids|)
  {
    forall k | 0 <= k < |end.ids| && k < |end.session.history|
      ensures end.session.history[k].stored <==> end.ids[k] in db.orders
    {
      if k < base {
        assert end.ids[k] == start.ids[k] && end.session.history[k] == start.entries[k];
        assert Audit.Lookup(db, end.ids[k]) == Audit.Lookup(before, end.ids[k]);
      }
    }
  }

  /** What a life leaves behind, seen at the moment of the next start. */
  lemma LifeLeaves(l: Limits, c: X.Config, origin: Session, site: Site, life: Life, reading: Reading)
    requires SiteInv(l, origin, site, reading) && Lived(l, c, site, life)
    ensures var end, db := EndOf(l, c, site, life), Written(site, life);
            var log := LogOf(end).(clock := life.at);
            && ShiftInv(l, origin, end, reading, db.orders.Keys) && end.session.life == site.shift.session.life
            && Grows(LogOf(site.shift), LogOf(end))
            && TrailInv(db, log) && FlagsAgree(db, log, |end.ids|) && SameBelow(site.db, db, end.ids, reading.past)
  {
    var end, db := EndOf(l, c, site, life), Written(site, life);
    var log := LogOf(end).(clock := life.at);
    LifeKeepsShift(l, c, origin, site.shift, life.events, reading, db.orders.Keys);
    GrowthChains(LogOf(site.shift), LogOf(end), log);
    GrowthKeepsTrail(site.db, LogOf(site.shift), log);
    JobsBelongLater(end, reading.past, log, life.written);
    WritesKeepTrail(site.db, life.written, log, reading.past);
    FlagsAgreeAtTheEnd(site.db, db, LogOf(site.shift), end, reading.past);
  }

  lemma AllOfEarlierLives(start: Shift, end: Shift, base: nat, kept: set<string>)
    requires base == |start.session.history| <= |end.session.history| == |end.ids| && Flagged(end, base, kept)
    requires start.session.history <= end.session.history && end.session.life == start.session.life
    requires forall k | 0 <= k < base :: start.session.history[k].life < start.session.life
    ensures forall k | 0 <= k < |end.session.history| :: end.session.history[k].life < end.session.life + 1
  {
    forall k | 0 <= k < |end.session.history|
      ensures end.session.history[k].life < end.session.life + 1
    {
      if k < base {
        assert end.session.history[k] == start.session.history[k];
      }
    }
  }

  /** All attempts are of lives that are over, and their flags and rows agree with the database. */
  predicate AllSettled(db: Store.Db, log: Log, life: nat) {
    && LogInv(log) && TrailInv(db, log) && FlagsAgree(db, log, |log.ids|)
    && forall k | 0 <= k < |log.entries| :: log.entries[k].life < life
  }

  lemma LifeSettles(l: Limits, c: X.Config, origin: Session, site: Site, life: Life, reading: Reading)
    requires SiteInv(l, origin, site, reading) && Lived(l, c, site, life)
    ensures var end := EndOf(l, c, site, life);
            && AllSettled(Written(site, life), LogOf(end).(clock := life.at), end.session.life + 1)
            && end.session.now <= life.at
  {
    LifeLeaves(l, c, origin, site, life, reading);
    AllOfEarlierLives(site.shift, EndOf(l, c, site, life), reading.past, Written(site, life).orders.Keys);
  }

  /**
   The trail the executor writes is the trail the warm start reads: whatever was dropped, failed or lost in the
   crash, the table a restart finds has one row for each attempt that left one and none besides, so the restart
   is one that the session allows.
   */
  lemma RestartReadsTheTrail(l: Limits, c: X.Config, origin: Session, site: Site, life: Life, reading: Reading)
    requires SiteInv(l, origin, site, reading) && Lived(l, c, site, life)
    ensures Enabled(EndOf(l, c, site, life).session, RestartOf(l, c, site, life))
  {
    var end := EndOf(l, c, site, life);
    LifeSettles(l, c, origin, site, life, reading);
    TrailIsReadBack(Written(site, life), LogOf(end).(clock := life.at), end.session.life + 1, life.rows);
  }

  function NextReading(l: Limits, c: X.Config, site: Site, life: Life): Reading
    requires Lived(l, c, site, life)
  {
    Reading(RestartOf(l, c, site, life).table, life.rows, life.at, |EndOf(l, c, site, life).session.history|)
  }

  lemma RestartKeepsTrace(l: Limits, c: X.Config, origin: Session, site: Site, life: Life, reading: Reading)
    requires SiteInv(l, origin, site, reading) && Lived(l, c, site, life)
    ensures Traced(l, origin, Reborn(l, c, site, life).shift, NextReading(l, c, site, life))
    ensures Proper(Reborn(l, c, site, life).shift.session)
  {
    var end, restart := EndOf(l, c, site, life), RestartOf(l, c, site, life);
    RestartReadsTheTrail(l, c, origin, site, life, reading);
    LifeKeepsShift(l, c, origin, site.shift, life.events, reading, Written(site, life).orders.Keys);
    OneCall(l, end.session, restart);
    CallsConcat(l, origin, NOTHING_READ, end.calls, [restart]);
    StepIsProper(l, end.session, restart);
  }

  lemma RebornIsReady(l: Limits, c: X.Config, origin: Session, site: Site, life: Life, reading: Reading)
    requires SiteInv(l, origin, site, reading) && Lived(l, c, site, life)
    ensures SiteInv(l, origin, Reborn(l, c, site, life), NextReading(l, c, site, life))
  {
    LifeSettles(l, c, origin, site, life, reading);
    RestartKeepsTrace(l, c, origin, site, life, reading);
    FreshOfficeInv(l, origin, Reborn(l, c, site, life), NextReading(l, c, site, life));
  }

  /** A new process on settled books. */
  lemma FreshOfficeInv(l: Limits, origin: Session, site: Site, reading: Reading)
    requires site.shift.office.jobs == [] && site.shift.office.fires == map[] && InStep(site.shift)
    requires Traced(l, origin, site.shift, reading) && Proper(site.shift.session)
    requires AllSettled(site.db, LogOf(site.shift), site.shift.session.life)
    requires reading.past == |site.shift.ids| && reading.table == TableOf(site.db, site.shift.ids)
    ensures SiteInv(l, origin, site, reading)
  {
  }

  lemma FirstSiteIsReady(l: Limits, start: nat)
    ensures SiteInv(l, NewSession(start), FirstSite(start), NOTHING_READ)
  {
  }

  lemma {:induction false} CareerIsReady(l: Limits, c: X.Config, origin: Session, site: Site, lives: seq<Life>,
                                         reading: Reading) returns (last: Reading)
    requires SiteInv(l, origin, site, reading) && LivedAll(l, c, site, lives)
    ensures SiteInv(l, origin, RebornAll(l, c, site, lives), last)
    decreases |lives|
  {
    last := reading;
    if lives != [] {
      RebornIsReady(l, c, origin, site, lives[0], reading);
      last := CareerIsReady(l, c, origin, Reborn(l, c, site, lives[0]), lives[1..],
                            NextReading(l, c, site, lives[0]));
    }
  }

  // ---- When an attempt leaves a row ----------------------------------------------------------

  /** An attempt of this life leaves a row exactly when a lawful job about its order was written. */
  lemma StoredExactlyWhen(l: Limits, c: X.Config, origin: Session, site: Site, life: Life, reading: Reading, k: nat)
    requires SiteInv(l, origin, site, reading) && Lived(l, c, site, life)
    requires reading.past <= k < |EndOf(l, c, site, life).ids|
    ensures var end := EndOf(l, c, site, life);
            k < |end.session.history| && (end.session.history[k].stored <==> HasJob(life.written, end.ids[k]))
  {
    var end := EndOf(l, c, site, life);
    LifeLeaves(l, c, origin, site, life, reading);
    RowExactlyWhen(site.db, life.written, end.ids[k]);
    RowsAreOfUsedOrders(site.db, LogOf(site.shift));
    assert end.ids[k] !in site.shift.used;
  }

  /** The order guard lets every real wake of these through, and their prices keep clear of both ends of the grid. */
  predicate Unhindered(events: seq<X.Event>) {
    forall v | v in events && v.Wakes? && !v.wake.dryRun ::
      v.readings.permitted && PriceGrid.KeepsClear(v.wake.wirePrice, PriceGrid.StepFor(v.wake.wirePrice, v.wake.ranges))
  }

  /** Each attempt of this life has a lawful job among those handed over. */
  predicate HandedOver(s: Shift, base: nat) {
    forall k | base <= k < |s.ids| :: HasJob(s.office.jobs, s.ids[k])
  }

  lemma SentIsHandedOver(l: Limits, c: X.Config, s: Shift, v: X.Event, kept: set<string>)
    requires InStep(s) && Can(s, v) && Admitted(l, c, s, v) && Unhindered([v])
    ensures HasJob(Step(l, c, s, v, kept).office.jobs, v.readings.id)
  {
    assert v in [v];
    var r := P.RequestFor(c, v.wake, v.readings);
    var job := Store.OrderJob(X.PendingRow(v.wake, r.count, r.price, v.readings));
    WakeWrites(l, c, s, v.task, v.wake, v.readings);
    PriceGrid.StaysTradeableExactlyWhen(v.wake.wirePrice, v.wake.ranges);
    assert Audit.About(job, v.readings.id);
    assert job in Step(l, c, s, v, kept).office.jobs;
  }

  lemma JobsOnlyGrow(l: Limits, c: X.Config, s: Shift, v: X.Event, kept: set<string>)
    requires InStep(s) && Can(s, v)
    ensures s.office.jobs <= Step(l, c, s, v, kept).office.jobs
  {
    if v.Wakes? {
      WakeWrites(l, c, s, v.task, v.wake, v.readings);
    }
  }

  lemma EventHandsOver(l: Limits, c: X.Config, s: Shift, v: X.Event, kept: set<string>, base: nat)
    requires InStep(s) && Can(s, v) && HandedOver(s, base) && Unhindered([v])
    ensures HandedOver(Step(l, c, s, v, kept), base)
  {
    var after := Step(l, c, s, v, kept);
    JobsOnlyGrow(l, c, s, v, kept);
    forall k | base <= k < |after.ids|
      ensures HasJob(after.office.jobs, after.ids[k])
    {
      if k < |s.ids| {
        assert HasJob(s.office.jobs, s.ids[k]);
        var job :| job in s.office.jobs && Audit.About(job, s.ids[k]);
        assert job in after.office.jobs && after.ids[k] == s.ids[k];
      } else {
        SentIsHandedOver(l, c, s, v, kept);
      }
    }
  }

  lemma {:induction false} LifeHandsOver(l: Limits, c: X.Config, origin: Session, s: Shift, events: seq<X.Event>,
                                         reading: Reading, kept: set<string>)
    requires CanAll(l, c, s, events, kept) && ShiftInv(l, origin, s, reading, kept)
    requires HandedOver(s, reading.past) && Unhindered(events)
    ensures HandedOver(StepAll(l, c, s, events, kept), reading.past)
    decreases |events|
  {
    if events != [] {
      assert forall v | v in [events[0]] :: v in events;
      EventHandsOver(l, c, s, events[0], kept, reading.past);
      EventKeepsShift(l, c, origin, s, events[0], reading, kept);
      LifeHandsOver(l, c, origin, Step(l, c, s, events[0], kept), events[1..], reading, kept);
    }
  }

  /** A life in which nothing hindered an order and nothing handed over was lost. */
  predicate Whole(l: Limits, c: X.Config, site: Site, life: Life)
    requires Lived(l, c, site, life)
  {
    Unhindered(life.events) && forall job | job in EndOf(l, c, site, life).office.jobs :: job in life.written
  }

  /** With no refusal by the order guard, clear prices and nothing lost, every attempt leaves a row. */
  lemma WholeLifeStoresAll(l: Limits, c: X.Config, origin: Session, site: Site, life: Life, reading: Reading)
    requires SiteInv(l, origin, site, reading) && Lived(l, c, site, life) && Whole(l, c, site, life)
    ensures StoredSince(EndOf(l, c, site, life).session.history, reading.past)
  {
    var end := EndOf(l, c, site, life);
    LifeLeaves(l, c, origin, site, life, reading);
    LifeHandsOver(l, c, origin, site.shift, life.events, reading, Written(site, life).orders.Keys);
    forall k | reading.past <= k < |end.session.history|
      ensures end.session.history[k].stored
    {
      assert HasJob(end.office.jobs, end.ids[k]);
      StoredExactlyWhen(l, c, origin, site, life, reading, k);
    }
  }

  lemma WholeLifeLosesNothing(l: Limits, c: X.Config, origin: Session, site: Site, life: Life, reading: Reading)
    requires SiteInv(l, origin, site, reading) && Lived(l, c, site, life) && Whole(l, c, site, life)
    requires StoredSince(site.shift.session.history, 0)
    ensures StoredSince(Reborn(l, c, site, life).shift.session.history, 0)
  {
    LifeExtendsHistory(l, c, origin, site, life, reading);
    WholeLifeStoresAll(l, c, origin, site, life, reading);
    StoredThroughout(site.shift.session.history, EndOf(l, c, site, life).session.history);
  }

  lemma LifeExtendsHistory(l: Limits, c: X.Config, origin: Session, site: Site, life: Life, reading: Reading)
    requires SiteInv(l, origin, site, reading) && Lived(l, c, site, life)
    ensures site.shift.session.history <= EndOf(l, c, site, life).session.history
    ensures |site.shift.session.history| == reading.past
    ensures Reborn(l, c, site, life).shift.session.history == EndOf(l, c, site, life).session.history
  {
    LifeLeaves(l, c, origin, site, life, reading);
  }

  lemma StoredThroughout(before: seq<Logged>, after: seq<Logged>)
    requires before <= after && StoredSince(before, 0) && StoredSince(after, |before|)
    ensures StoredSince(after, 0)
  {
    forall k | 0 <= k < |after|
      ensures after[k].stored
    {
      if k < |before| {
        assert after[k] == before[k];
      }
    }
  }

  /**
   The telemetry's part of a life is any interleaving of its queue, writer and blocked producers that is offered the
   executor's jobs; and when it drops nothing and is drained before the end, nothing handed over is lost.
   */
  lemma AnyInterleavingMakesALife(l: Limits, c: X.Config, origin: Session, site: Site, life: Life, reading: Reading,
                                  moves: seq<Audit.Move>)
    requires SiteInv(l, origin, site, reading) && Audit.Legal(Audit.Open(site.db), moves)
    requires var d := Audit.Run(Audit.Open(site.db), moves);
             && life.written == d.written && CanAll(l, c, site.shift, life.events, d.db.orders.Keys)
             && var end := StepAll(l, c, site.shift, life.events, d.db.orders.Keys);
             && end.clock <= life.at && Fetched(d.db, life.at, life.rows)
             && forall job | AboutOrders(job) :: job in Audit.AllOffered(Audit.Open(site.db), moves)
                                                 <==> job in end.office.jobs
    ensures Written(site, life) == Audit.Run(Audit.Open(site.db), moves).db && Lived(l, c, site, life)
    ensures var d := Audit.Run(Audit.Open(site.db), moves);
            d.queue == [] && d.hand == [] && d.waiting == [] && d.dropped == 0 && Unhindered(life.events)
            ==> Whole(l, c, site, life)
  {
    LifeKeepsShift(l, c, origin, site.shift, life.events, reading,
                   Audit.Run(Audit.Open(site.db), moves).db.orders.Keys);
    Audit.RunKeepsInv(site.db, Audit.Open(site.db), moves);
    forall job
      ensures var d := Audit.Run(Audit.Open(site.db), moves);
              && (job in d.written ==> job in Audit.AllOffered(Audit.Open(site.db), moves))
              && (d.queue == [] && d.hand == [] && d.waiting == [] && d.dropped == 0 ==>
                    (job in Audit.AllOffered(Audit.Open(site.db), moves) ==> job in d.written))
    {
      Audit.WrittenWasOffered(site.db, moves, job);
    }
  }

  predicate WholeAll(l: Limits, c: X.Config, site: Site, lives: seq<Life>)
    requires LivedAll(l, c, site, lives)
    decreases |lives|
  {
    lives == [] || (Whole(l, c, site, lives[0]) && WholeAll(l, c, Reborn(l, c, site, lives[0]), lives[1..]))
  }

  lemma {:induction false} WholeLivesStoreAll(l: Limits, c: X.Config, origin: Session, site: Site, lives: seq<Life>,
                                              reading: Reading)
    requires SiteInv(l, origin, site, reading) && LivedAll(l, c, site, lives) && WholeAll(l, c, site, lives)
    requires StoredSince(site.shift.session.history, 0)
    ensures StoredSince(RebornAll(l, c, site, lives).shift.session.history, 0)
    decreases |lives|
  {
    if lives != [] {
      var life := lives[0];
      WholeLifeLosesNothing(l, c, origin, site, life, reading);
      RebornIsReady(l, c, origin, site, life, reading);
      WholeLivesStoreAll(l, c, origin, Reborn(l, c, site, life), lives[1..], NextReading(l, c, site, life));
    }
  }

  // ---- The theorems --------------------------------------------------------------------------

  /** A career so far: whole lives, each ended by a crash, then the events of the present one. */
  predicate Career(l: Limits, c: X.Config, start: nat, lives: seq<Life>, events: seq<X.Event>) {
    LivedAll(l, c, FirstSite(start), lives)
    && CanAll(l, c, RebornAll(l, c, FirstSite(start), lives).shift, events, {})
  }

  function Now(l: Limits, c: X.Config, start: nat, lives: seq<Life>, events: seq<X.Event>): Shift
    requires Career(l, c, start, lives, events)
  {
    StepAll(l, c, RebornAll(l, c, FirstSite(start), lives).shift, events, {})
  }

  /**
   Refinement: whatever the executor does, over any number of crashes and restarts, is a run of the gate's
   sessions, with the executor's gate the session's gate. No hypothesis about the stored rows is left.
   */
  lemma ExecutorIsASession(l: Limits, c: X.Config, start: nat, lives: seq<Life>, events: seq<X.Event>)
    requires Career(l, c, start, lives, events)
    ensures var now := Now(l, c, start, lives, events);
            && Legal(l, NewSession(start), now.calls) && Run(l, NewSession(start), now.calls) == now.session
            && now.office.gate == Some(now.session.gate) && Proper(now.session)
  {
    var site := RebornAll(l, c, FirstSite(start), lives);
    FirstSiteIsReady(l, start);
    var reading := CareerIsReady(l, c, NewSession(start), FirstSite(start), lives, NOTHING_READ);
    LifeKeepsShift(l, c, NewSession(start), site.shift, events, reading, {});
  }

  lemma NewSessionInv(start: nat, scope: Scope)
    ensures SessionInv(NewSession(start), scope) && NoneAdmitted(NewSession(start).history)
    ensures Remembered(NewSession(start))
  {
  }

  /**
   Rolling-window safety of the executor itself, over any number of crashes: the windows of admitted attempts are
   within the caps, apart from attempts of earlier lives that left no row; and if every earlier life was whole
   there are none.
   */
  lemma ExecutorStaysWithinCaps(l: Limits, c: X.Config, start: nat, lives: seq<Life>, events: seq<X.Event>,
                                scope: Scope, from: int, to: int)
    requires Career(l, c, start, lives, events) && scope != OfGroup("") && to - from <= DAY_MS
    ensures var inside := InWindow(Now(l, c, start, lives, events).session.history, scope, from, to);
            inside != [] && inside[|inside| - 1].admitted ==>
              var lost := Unknown(inside, inside[|inside| - 1].life);
              && |inside| <= DayCapOf(l, scope) + |lost|
              && Notional(Attempts(inside)) <= l.notionalPerDay + Notional(Attempts(lost))
              && (to - from <= HOUR_MS ==> |inside| <= l.attemptsPerHour + |lost|)
              && (WholeAll(l, c, FirstSite(start), lives) ==> lost == [])
  {
    var now := Now(l, c, start, lives, events);
    ExecutorIsASession(l, c, start, lives, events);
    NewSessionInv(start, scope);
    NewSessionInv(start, Anything);
    WindowsWithinCaps(l, NewSession(start), now.calls, scope, from, to);
    if WholeAll(l, c, FirstSite(start), lives) {
      NothingIsLost(l, c, start, lives, events, scope, from, to);
    }
  }

  lemma NothingIsLost(l: Limits, c: X.Config, start: nat, lives: seq<Life>, events: seq<X.Event>,
                      scope: Scope, from: int, to: int)
    requires Career(l, c, start, lives, events) && WholeAll(l, c, FirstSite(start), lives)
    ensures var inside := InWindow(Now(l, c, start, lives, events).session.history, scope, from, to);
            inside != [] ==> Unknown(inside, inside[|inside| - 1].life) == []
  {
    var now := Now(l, c, start, lives, events);
    EarlierAttemptsAreStored(l, c, start, lives, events);
    ExecutorIsASession(l, c, start, lives, events);
    WindowLosesNothing(now.session.history, scope, from, to, now.session.life);
  }

  lemma WindowLosesNothing(history: seq<Logged>, scope: Scope, from: int, to: int, life: nat)
    requires forall e | e in history :: e.life <= life && (e.stored || e.life == life)
    ensures var inside := InWindow(history, scope, from, to);
            inside != [] ==> Unknown(inside, inside[|inside| - 1].life) == []
  {
    var inside := InWindow(history, scope, from, to);
    WindowIsLogged(history, scope, from, to);
    if inside != [] {
      assert inside[|inside| - 1] in inside;
      NothingUnknown(inside, inside[|inside| - 1].life);
    }
  }

  lemma {:induction false} WindowIsLogged(history: seq<Logged>, scope: Scope, from: int, to: int)
    ensures forall e | e in InWindow(history, scope, from, to) :: e in history
  {
    if history != [] {
      WindowIsLogged(history[..|history| - 1], scope, from, to);
    }
  }

  lemma EarlierAttemptsAreStored(l: Limits, c: X.Config, start: nat, lives: seq<Life>, events: seq<X.Event>)
    requires Career(l, c, start, lives, events) && WholeAll(l, c, FirstSite(start), lives)
    ensures var now := Now(l, c, start, lives, events).session;
            forall e | e in now.history :: e.stored || e.life == now.life
  {
    var site := RebornAll(l, c, FirstSite(start), lives);
    var now := Now(l, c, start, lives, events);
    FirstSiteIsReady(l, start);
    var reading := CareerIsReady(l, c, NewSession(start), FirstSite(start), lives, NOTHING_READ);
    WholeLivesStoreAll(l, c, NewSession(start), FirstSite(start), lives, NOTHING_READ);
    LifeKeepsShift(l, c, NewSession(start), site.shift, events, reading, {});
    StoredOrPresent(site.shift.session.history, now.session.history, now.session.life);
  }

  lemma StoredOrPresent(before: seq<Logged>, after: seq<Logged>, life: nat)
    requires before <= after && StoredSince(before, 0)
    requires forall k | |before| <= k < |after| :: after[k].life == life
    ensures forall e | e in after :: e.stored || e.life == life
  {
    forall k | 0 <= k < |after|
      ensures after[k].stored || after[k].life == life
    {
      if k < |before| {
        assert after[k] == before[k];
      }
    }
  }

  /** Cooldown safety of the executor, over any number of crashes. */
  lemma ExecutorKeepsCooldowns(l: Limits, c: X.Config, start: nat, lives: seq<Life>, events: seq<X.Event>,
                               i: nat, k: nat)
    requires Career(l, c, start, lives, events) && i < k < |Now(l, c, start, lives, events).session.history|
    ensures var h := Now(l, c, start, lives, events).session.history;
            h[k].admitted && Binds(l, h[i], h[k]) ==> (h[k].attempt.at - h[i].attempt.at) as real >= l.cooldownMs
  {
    ExecutorIsASession(l, c, start, lives, events);
    NewSessionInv(start, Anything);
    CooldownsHold(l, NewSession(start), Now(l, c, start, lives, events).calls, i, k);
  }

  /** No row of an earlier life changes in what an attempt is rebuilt from. */
  lemma EarlierRowsPersist(l: Limits, c: X.Config, origin: Session, site: Site, life: Life, reading: Reading)
    requires SiteInv(l, origin, site, reading) && Lived(l, c, site, life)
    ensures Persists(reading.table, RestartOf(l, c, site, life).table)
  {
    var end, db := EndOf(l, c, site, life), Written(site, life);
    var log := LogOf(end).(clock := life.at);
    LifeLeaves(l, c, origin, site, life, reading);
    assert end.ids[..reading.past] == site.shift.ids;
    TableExtends(site.db, db, end.ids, reading.past);
    assert site.shift.ids[..|site.shift.ids|] == site.shift.ids && end.ids[..|end.ids|] == end.ids;
    NoneIsRejected(site.db, LogOf(site.shift), |site.shift.ids|);
    NoneIsRejected(db, log, |end.ids|);
  }

  /**
   The warm start of the executor itself: after a whole life, whatever the rebuilt gate would let through on the
   cooldown, attempt and notional caps at any later moment, the crashed gate would have let through then, whatever
   was lost in the lives before.
   */
  lemma ExecutorWarmStart(l: Limits, c: X.Config, start: nat, lives: seq<Life>, life: Life, r: Request, t: int)
    requires LivedAll(l, c, FirstSite(start), lives) && Lived(l, c, RebornAll(l, c, FirstSite(start), lives), life)
    requires Whole(l, c, RebornAll(l, c, FirstSite(start), lives), life)
    requires t >= life.at && l.cooldownMs <= DAY_MS as real
    ensures var crashed := EndOf(l, c, RebornAll(l, c, FirstSite(start), lives), life).office.gate;
            var warm := WarmStart(life.rows);
            && crashed.Some?
            && (CoolingDown(l, crashed.value, r, t) ==> CoolingDown(l, warm, r, t))
            && (AttemptVerdict(l, Prune(warm, t), r, t).None?
                ==> AttemptVerdict(l, Prune(crashed.value, t), r, t).None?)
  {
    var site := RebornAll(l, c, FirstSite(start), lives);
    var end := EndOf(l, c, site, life);
    FirstSiteIsReady(l, start);
    var reading := CareerIsReady(l, c, NewSession(start), FirstSite(start), lives, NOTHING_READ);
    LifeLeaves(l, c, NewSession(start), site, life, reading);
    RestartReadsTheTrail(l, c, NewSession(start), site, life, reading);
    WholeLifeStoresAll(l, c, NewSession(start), site, life, reading);
    EarlierRowsPersist(l, c, NewSession(start), site, life, reading);
    WarmStartNoMorePermissive(l, start, end.calls, RestartOf(l, c, site, life).table, life.rows, life.at, r, t);
  }

  /** The rows a restart reads are a selection from the rows of the life's orders, none of which is a refusal. */
  lemma RestartSelects(l: Limits, c: X.Config, origin: Session, site: Site, life: Life, reading: Reading)
    requires SiteInv(l, origin, site, reading) && Lived(l, c, site, life)
    ensures var table := TableOf(Written(site, life), EndOf(l, c, site, life).ids);
            Selected(table, life.at, life.rows) && NotRejected(table) == table
  {
    var end := EndOf(l, c, site, life);
    LifeLeaves(l, c, origin, site, life, reading);
    RestartReadsTheTrail(l, c, origin, site, life, reading);
    NoneIsRejected(Written(site, life), LogOf(end).(clock := life.at), |end.ids|);
    assert end.ids[..|end.ids|] == end.ids;
  }

  /**
   And the positions it starts from: whatever was lost, the gate rebuilt after a life believes to be open, until the
   first poll, exactly what the rows left by its attempts of the last 24 hours say was filled.
   */
  lemma ExecutorRestoresPositions(l: Limits, c: X.Config, start: nat, lives: seq<Life>, life: Life, scope: Scope,
                                  t: int)
    requires LivedAll(l, c, FirstSite(start), lives) && Lived(l, c, RebornAll(l, c, FirstSite(start), lives), life)
    requires t >= life.at
    ensures var site := RebornAll(l, c, FirstSite(start), lives);
            Position(WarmStart(life.rows), scope, t)
            == R.FillTotal(TableOf(Written(site, life), EndOf(l, c, site, life).ids), scope, Max(0, t - DAY_MS))
  {
    var site := RebornAll(l, c, FirstSite(start), lives);
    var end := EndOf(l, c, site, life);
    FirstSiteIsReady(l, start);
    var reading := CareerIsReady(l, c, NewSession(start), FirstSite(start), lives, NOTHING_READ);
    RestartSelects(l, c, NewSession(start), site, life, reading);
    R.RestoredFromTable(TableOf(Written(site, life), end.ids), life.rows, life.at, scope, t);
  }
}
