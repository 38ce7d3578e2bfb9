/**
 The executor is an instance of the order protocol: whatever it does, interleaved with whatever the
 exchange and the position polls do, is a run of the protocol, so the protocol's exposure bound holds of
 the orders it really posts.
 */
module ExecutorProtocol {
  import opened Numbers
  import opened Wrappers
  import opened Orders
  import opened GateSpec
  import opened OrderProtocol
  import opened Exposure
  import PriceGrid
  import X = Executor
  import Audit = AuditTrail

  /** The executor beside the world it acts on; each fire and each posted body points at its order. */
  datatype Joint = Joint(office: X.Office, world: World, orderOf: map<nat, nat>, sent: seq<nat>)

  datatype Act =
    | Executor(event: X.Event)    // the executor handles a wake, or an answer
    | Around(step: Step)          // the exchange executes, settles or is polled, or time passes

  predicate SameOrder(o: Order, ticker: Ticker, direction: Direction, count: int) {
    o.ticker == ticker && o.direction == direction && o.count == count
  }

  predicate FireTracked(j: Joint, task: nat) {
    task in j.office.fires && !j.office.fires[task].wake.dryRun ==>
      && task in j.orderOf && j.orderOf[task] < |j.world.orders|
      && var fire := j.office.fires[task];
      && var order := j.world.orders[j.orderOf[task]];
      && Live(order) && SameOrder(order, fire.wake.ticker, fire.wake.direction, fire.count)
  }

  /** Bodies on the wire are, one for one and in order, orders the gate admitted. */
  predicate WireTracked(j: Joint) {
    && |j.sent| == |j.office.posted|
    && (forall k | 0 <= k < |j.sent| ::
          && j.sent[k] < |j.world.orders|
          && var body := j.office.posted[k];
          && SameOrder(j.world.orders[j.sent[k]], body.ticker, body.direction, body.count))
    && (forall i, k | 0 <= i < k < |j.sent| :: j.sent[i] < j.sent[k])
  }

  predicate IsReal(j: Joint, task: nat) { task in j.office.fires && !j.office.fires[task].wake.dryRun }

  ghost predicate Tracked(j: Joint) {
    && j.office.gate == Some(j.world.gate)
    && (forall task :: FireTracked(j, task))
    && (forall t, u | IsReal(j, t) && IsReal(j, u) && t != u && t in j.orderOf && u in j.orderOf ::
          j.orderOf[t] != j.orderOf[u])
    && WireTracked(j)
  }

  /** A fill that was reported is the fill that was executed. */
  predicate Truthful(outcome: Audit.Outcome, phase: Phase) {
    Audit.Reported(outcome).Some? ==> phase == Executed(Audit.Reported(outcome).value)
  }

  predicate Can(j: Joint, a: Act)
    requires Tracked(j)
  {
    match a
    case Executor(Wakes(task, _, e)) => task !in j.office.fires && j.world.now <= e.checkedAt <= e.recordedAt
    case Executor(Answers(task, outcome, at)) =>
      && task in j.office.fires && j.world.now <= at
      && assert FireTracked(j, task);
      && (IsReal(j, task) ==> Truthful(outcome, j.world.orders[j.orderOf[task]].phase))
    case Executor(Reconciles(_, _)) => false  // polls are applied by the world's own step
    case Around(s) => !s.Wake? && !s.Report? && !s.Fail? && Enabled(j.world, s)
  }

  /** Whether a wake gets as far as the risk gate. */
  predicate ReachesGate(c: X.Config, w: X.Wake, e: X.Readings) {
    && !w.dryRun && PriceGrid.Tradeable(w.wirePrice) && X.CountFor(c, w, e.balance) >= 1 && !e.halted
  }

  function RequestFor(c: X.Config, w: X.Wake, e: X.Readings): Request {
    X.RequestOf(w, X.CountFor(c, w, e.balance), PriceGrid.Snap(w.wirePrice, w.ranges))
  }

  /** The protocol steps one act amounts to. */
  function Plan(l: Limits, c: X.Config, j: Joint, a: Act): seq<Step>
    requires Tracked(j) && Can(j, a)
  {
    match a
    case Around(s) => [s]
    case Executor(Wakes(_, w, e)) =>
      if !ReachesGate(c, w, e) then []
      else
        var asked := Wake(RequestFor(c, w, e), e.checkedAt, e.recordedAt);
        if Admits(l, j.world, asked.request, e.checkedAt) && !e.permitted
        then [asked, Fail(|j.world.orders|, true)] else [asked]
    case Executor(Answers(task, outcome, at)) =>
      assert FireTracked(j, task);
      if !IsReal(j, task) then []
      else if Audit.Reported(outcome).Some? then [Report(j.orderOf[task], at)]
      else [Fail(j.orderOf[task], false)]
    case Executor(Reconciles(_, _)) => []
  }

  /** A wake's body went out: it was admitted and the order guard let it through. */
  predicate Sends(l: Limits, c: X.Config, j: Joint, w: X.Wake, e: X.Readings) {
    ReachesGate(c, w, e) && e.permitted && Admits(l, j.world, RequestFor(c, w, e), e.checkedAt)
  }

  lemma WakePlanIsLegal(l: Limits, c: X.Config, j: Joint, task: nat, w: X.Wake, e: X.Readings)
    requires Tracked(j) && Can(j, Executor(X.Wakes(task, w, e)))
    ensures Legal(l, j.world, Plan(l, c, j, Executor(X.Wakes(task, w, e))))
  {
    var plan := Plan(l, c, j, Executor(X.Wakes(task, w, e)));
    if |plan| == 2 {
      assert Next(l, j.world, plan[0]).orders[|j.world.orders|].phase.Sent?;
      assert Legal(l, Next(l, j.world, plan[0]), [plan[1]]);
      assert plan[1..] == [plan[1]];
    }
  }

  lemma PlanIsLegal(l: Limits, c: X.Config, j: Joint, a: Act)
    requires Tracked(j) && Can(j, a)
    ensures Legal(l, j.world, Plan(l, c, j, a))
  {
    match a
    case Around(s) =>
    case Executor(Wakes(task, w, e)) => WakePlanIsLegal(l, c, j, task, w, e);
    case Executor(Answers(task, outcome, at)) => assert FireTracked(j, task);
    case Executor(Reconciles(_, _)) =>
  }

  /** One act: the executor's own state moves by its own code, the world by the planned steps. */
  function Do(l: Limits, c: X.Config, j: Joint, a: Act): Joint
    requires Tracked(j) && Can(j, a)
  {
    PlanIsLegal(l, c, j, a);
    var world := Run(l, j.world, Plan(l, c, j, a));
    match a
    case Around(_) => j.(office := j.office.(gate := Some(world.gate)), world := world)
    case Executor(event) =>
      var office := X.After(l, c, j.office, event);
      if event.Wakes? && Sends(l, c, j, event.wake, event.readings) then
        Joint(office, world, j.orderOf[event.task := |j.world.orders|], j.sent + [|j.world.orders|])
      else j.(office := office, world := world)
  }

  // ---- Each act keeps executor and world in step ---------------------------------------------

  predicate KeepsOrders(before: seq<Order>, after: seq<Order>) {
    && |before| <= |after|
    && forall i | 0 <= i < |before| :: SameOrder(after[i], before[i].ticker, before[i].direction, before[i].count)
  }

  lemma StepKeepsOrders(l: Limits, w: World, s: Step)
    requires Enabled(w, s)
    ensures KeepsOrders(w.orders, Next(l, w, s).orders)
  {
  }

  lemma RunOne(l: Limits, w: World, s: Step)
    requires Enabled(w, s)
    ensures Legal(l, w, [s]) && Run(l, w, [s]) == Next(l, w, s)
  {
    assert [s][1..] == [];
  }

  lemma RunTwo(l: Limits, w: World, s: Step, t: Step)
    requires Enabled(w, s) && Enabled(Next(l, w, s), t)
    ensures Legal(l, w, [s, t]) && Run(l, w, [s, t]) == Next(l, Next(l, w, s), t)
  {
    assert [s, t][1..] == [t];
    RunOne(l, Next(l, w, s), t);
  }

  lemma AroundKeepsTracking(l: Limits, c: X.Config, j: Joint, s: Step)
    requires Tracked(j) && Can(j, Around(s))
    ensures Tracked(Do(l, c, j, Around(s)))
  {
    var after := Do(l, c, j, Around(s));
    RunOne(l, j.world, s);
    StepKeepsOrders(l, j.world, s);
    LiveOrdersStayLive(l, j.world, s);
    forall task
      ensures FireTracked(after, task)
    {
      assert FireTracked(j, task);
    }
  }

  /** Only a report or a failed dispatch ends an order's life in the gate. */
  lemma LiveOrdersStayLive(l: Limits, w: World, s: Step)
    requires Enabled(w, s) && !s.Report? && !s.Fail?
    ensures forall i | 0 <= i < |w.orders| && Live(w.orders[i]) :: Live(Next(l, w, s).orders[i])
  {
  }

  lemma WakesThatStopShort(l: Limits, c: X.Config, o: X.Office, task: nat, w: X.Wake, e: X.Readings)
    requires !ReachesGate(c, w, e)
    ensures var after := X.HandleFire(l, c, o, task, w, e);
            && after.gate == o.gate && after.posted == o.posted
            && (|| after.fires == o.fires
                || (w.dryRun && exists fire: X.Fire :: fire.wake == w && after.fires == o.fires[task := fire]))
  {
    var after := X.HandleFire(l, c, o, task, w, e);
    if after.fires != o.fires {
      assert after.fires == o.fires[task := after.fires[task]];
    }
  }

  lemma WakesAtTheGate(l: Limits, c: X.Config, o: X.Office, g: Gate, task: nat, w: X.Wake, e: X.Readings)
    requires ReachesGate(c, w, e) && o.gate == Some(g)
    ensures var after := X.HandleFire(l, c, o, task, w, e);
            var r := RequestFor(c, w, e);
            var (checked, verdict) := Decide(l, g, r, e.checkedAt);
            if verdict.Some? then after.gate == Some(checked) && after.fires == o.fires && after.posted == o.posted
            else if !e.permitted then
              after.gate == Some(EndDispatch(Admit(checked, r, e.recordedAt)))
              && after.fires == o.fires && after.posted == o.posted
            else
              && after.gate == Some(Admit(checked, r, e.recordedAt))
              && after.fires == o.fires[task := X.Fire(w, r.count, X.PendingRow(w, r.count, r.price, e))]
              && after.posted == o.posted + [X.Body(w.ticker, e.id, w.direction, r.count, r.price, w.shard)]
  {
  }

  /** Tracking only looks at the gate, the fires, the bodies and the orders, which may only grow in place. */
  lemma TrackingSurvives(before: Joint, after: Joint)
    requires Tracked(before)
    requires after.office.gate == Some(after.world.gate)
    requires after.office.fires == before.office.fires && after.office.posted == before.office.posted
    requires after.orderOf == before.orderOf && after.sent == before.sent
    requires KeepsOrders(before.world.orders, after.world.orders)
    requires forall i | 0 <= i < |before.world.orders| && Live(before.world.orders[i]) :: Live(after.world.orders[i])
    ensures Tracked(after)
  {
    forall task
      ensures FireTracked(after, task)
    {
      assert FireTracked(before, task);
    }
  }

  lemma ShadowTracking(before: Joint, after: Joint, task: nat, fire: X.Fire)
    requires Tracked(before) && task !in before.office.fires && fire.wake.dryRun
    requires after.office.fires == before.office.fires[task := fire]
    requires after == before.(office := after.office)
    requires after.office.gate == before.office.gate && after.office.posted == before.office.posted
    ensures Tracked(after)
  {
    forall t
      ensures FireTracked(after, t)
    {
      assert FireTracked(before, t);
    }
    assert forall t :: IsReal(after, t) == IsReal(before, t);
  }

  lemma SentTracking(before: Joint, after: Joint, task: nat, fire: X.Fire, body: X.Body, order: Order)
    requires Tracked(before) && task !in before.office.fires && Live(order)
    requires SameOrder(order, fire.wake.ticker, fire.wake.direction, fire.count)
    requires SameOrder(order, body.ticker, body.direction, body.count)
    requires after.office.gate == Some(after.world.gate)
    requires after.office.fires == before.office.fires[task := fire]
    requires after.office.posted == before.office.posted + [body]
    requires after.world.orders == before.world.orders + [order]
    requires after.orderOf == before.orderOf[task := |before.world.orders|]
    requires after.sent == before.sent + [|before.world.orders|]
    ensures Tracked(after)
  {
    forall t
      ensures FireTracked(after, t)
    {
      assert FireTracked(before, t);
    }
    forall t, u | IsReal(after, t) && IsReal(after, u) && t != u && t in after.orderOf && u in after.orderOf
      ensures after.orderOf[t] != after.orderOf[u]
    {
      assert FireTracked(before, t) && FireTracked(before, u);
    }
  }

  lemma WakeKeepsTracking(l: Limits, c: X.Config, j: Joint, task: nat, w: X.Wake, e: X.Readings)
    requires Tracked(j) && Can(j, Executor(X.Wakes(task, w, e)))
    ensures Tracked(Do(l, c, j, Executor(X.Wakes(task, w, e))))
  {
    var a := Executor(X.Wakes(task, w, e));
    var after := Do(l, c, j, a);
    if !ReachesGate(c, w, e) {
      WakesThatStopShort(l, c, j.office, task, w, e);
      if after.office.fires == j.office.fires {
        TrackingSurvives(j, after);
      } else {
        ShadowTracking(j, after, task, after.office.fires[task]);
      }
    } else {
      var r := RequestFor(c, w, e);
      var asked := Wake(r, e.checkedAt, e.recordedAt);
      WakesAtTheGate(l, c, j.office, j.world.gate, task, w, e);
      RunOne(l, j.world, asked);
      if !Admits(l, j.world, r, e.checkedAt) {
        TrackingSurvives(j, after);
      } else if !e.permitted {
        RunTwo(l, j.world, asked, Fail(|j.world.orders|, true));
        TrackingSurvives(j, after);
      } else {
        SentTracking(j, after, task, after.office.fires[task], after.office.posted[|j.office.posted|],
                     Order(r.ticker, r.direction, r.count, Sent));
      }
    }
  }

  lemma ResumedTracking(before: Joint, after: Joint, task: nat)
    requires Tracked(before) && task in before.office.fires
    requires after.office.gate == Some(after.world.gate)
    requires after.office.fires == before.office.fires - {task} && after.office.posted == before.office.posted
    requires after.orderOf == before.orderOf && after.sent == before.sent
    requires KeepsOrders(before.world.orders, after.world.orders)
    requires forall i | 0 <= i < |before.world.orders| && Live(before.world.orders[i]) ::
               || Live(after.world.orders[i])
               || (IsReal(before, task) && task in before.orderOf && i == before.orderOf[task])
    ensures Tracked(after)
  {
    forall t
      ensures FireTracked(after, t)
    {
      assert FireTracked(before, t) && FireTracked(before, task);
      if IsReal(after, t) {
        assert IsReal(before, t) && t != task;
      }
    }
    assert forall t | IsReal(after, t) :: IsReal(before, t);
  }

  lemma AnswerKeepsTracking(l: Limits, c: X.Config, j: Joint, task: nat, outcome: Audit.Outcome, at: int)
    requires Tracked(j) && Can(j, Executor(X.Answers(task, outcome, at)))
    ensures Tracked(Do(l, c, j, Executor(X.Answers(task, outcome, at))))
  {
    var after := Do(l, c, j, Executor(X.Answers(task, outcome, at)));
    assert FireTracked(j, task);
    if IsReal(j, task) {
      var i := j.orderOf[task];
      var s := if Audit.Reported(outcome).Some? then Report(i, at) else Fail(i, false);
      RunOne(l, j.world, s);
      StepKeepsOrders(l, j.world, s);
      ResumedTracking(j, after, task);
    } else {
      ResumedTracking(j, after, task);
    }
  }

  lemma ActKeepsTracking(l: Limits, c: X.Config, j: Joint, a: Act)
    requires Tracked(j) && Can(j, a)
    ensures Tracked(Do(l, c, j, a))
  {
    match a
    case Around(s) => AroundKeepsTracking(l, c, j, s);
    case Executor(Wakes(task, w, e)) => WakeKeepsTracking(l, c, j, task, w, e);
    case Executor(Answers(task, outcome, at)) => AnswerKeepsTracking(l, c, j, task, outcome, at);
    case Executor(Reconciles(_, _)) =>
  }

  // ---- Runs ----------------------------------------------------------------------------------

  ghost predicate CanAll(l: Limits, c: X.Config, j: Joint, acts: seq<Act>)
    requires Tracked(j)
    decreases |acts|
  {
    acts == []
    || (Can(j, acts[0]) && (ActKeepsTracking(l, c, j, acts[0]); CanAll(l, c, Do(l, c, j, acts[0]), acts[1..])))
  }

  ghost function DoAll(l: Limits, c: X.Config, j: Joint, acts: seq<Act>): (after: Joint)
    requires Tracked(j) && CanAll(l, c, j, acts)
    ensures Tracked(after)
    decreases |acts|
  {
    if acts == [] then j
    else
      ActKeepsTracking(l, c, j, acts[0]);
      DoAll(l, c, Do(l, c, j, acts[0]), acts[1..])
  }

  ghost function PlanAll(l: Limits, c: X.Config, j: Joint, acts: seq<Act>): seq<Step>
    requires Tracked(j) && CanAll(l, c, j, acts)
    decreases |acts|
  {
    if acts == [] then []
    else
      ActKeepsTracking(l, c, j, acts[0]);
      Plan(l, c, j, acts[0]) + PlanAll(l, c, Do(l, c, j, acts[0]), acts[1..])
  }

  lemma {:induction false} RunConcat(l: Limits, w: World, a: seq<Step>, b: seq<Step>)
    requires Legal(l, w, a) && Legal(l, Run(l, w, a), b)
    ensures Legal(l, w, a + b) && Run(l, w, a + b) == Run(l, Run(l, w, a), b)
    decreases |a|
  {
    if a == [] {
      assert a + b == b;
    } else {
      assert (a + b)[0] == a[0] && (a + b)[1..] == a[1..] + b;
      RunConcat(l, Next(l, w, a[0]), a[1..], b);
    }
  }

  /**
   Refinement: every interleaving of the executor with the exchange and the polls is a run of the order
   protocol, with the executor's gate the protocol's gate and every body on the wire an order it admitted.
   */
  lemma {:induction false} ExecutorFollowsProtocol(l: Limits, c: X.Config, j: Joint, acts: seq<Act>)
    requires Tracked(j) && CanAll(l, c, j, acts)
    ensures var after := DoAll(l, c, j, acts);
            var plan := PlanAll(l, c, j, acts);
            && Legal(l, j.world, plan) && after.world == Run(l, j.world, plan)
            && after.office.gate == Some(after.world.gate) && WireTracked(after)
    decreases |acts|
  {
    if acts != [] {
      ActKeepsTracking(l, c, j, acts[0]);
      PlanIsLegal(l, c, j, acts[0]);
      var next := Do(l, c, j, acts[0]);
      ExecutorFollowsProtocol(l, c, next, acts[1..]);
      RunConcat(l, j.world, Plan(l, c, j, acts[0]), PlanAll(l, c, next, acts[1..]));
    }
  }

  /** The exposure bound, of the orders the executor itself sends. */
  lemma ExecutorExposureBounded(l: Limits, c: X.Config, j: Joint, acts: seq<Act>, scope: Scope,
                                fixed: map<Ticker, Group>)
    requires Tracked(j) && CanAll(l, c, j, acts) && Capped(scope) && Start(j.world, scope, fixed)
    requires Legal(l, j.world, PlanAll(l, c, j, acts)) ==>
               GroupsFixed(PlanAll(l, c, j, acts), scope, fixed) && FreshThroughout(l, j.world, PlanAll(l, c, j, acts))
    ensures var after := DoAll(l, c, j, acts).world;
            ExposureOf(after, scope, fixed)
            <= RMax(Open(j.world.book, scope, fixed), Allowance(l, scope))
               + Total(AdriftCount, after.orders, scope, fixed)
  {
    ExecutorFollowsProtocol(l, c, j, acts);
    ExposureBounded(l, j.world, PlanAll(l, c, j, acts), scope, fixed);
  }
}
