/**
 The order audit trail: what the `orders_fired` table says about every order, over all interleavings
 of dispatches, refusals, queue drops, blocked producers and writer batches.
 */
module AuditTrail {
  import opened Wrappers
  import opened Orders
  import opened TelemetryStore
  import opened TelemetryQueue

  // ---- What a dispatch writes ----------------------------------------------------------------

  datatype TimeInForce = FillOrKill | GoodTillCanceled | ImmediateOrCancel

  /** How a post ended: an answer (with the fill count it states, if it states one) or an exception. */
  datatype Outcome = Answered(fillCount: Option<Column>, text: string) | Raised(message: string)

  /** The fill count of an answer, when there is one that parses. */
  function Reported(outcome: Outcome): Option<real> {
    if outcome.Answered? && outcome.fillCount.Some? && outcome.fillCount.value.Parsed?
    then Some(outcome.fillCount.value.value)
    else None
  }

  function ResolvedStatus(outcome: Outcome, tif: TimeInForce): Status {
    if outcome.Raised? then Error
    else if Reported(outcome).None? then Submitted
    else if Reported(outcome).value > 0.0 then Filled
    else if tif.GoodTillCanceled? then Accepted
    else Canceled
  }

  /** The pending row again, with only the columns the outcome decides replaced. */
  function Resolution(row: OrderRow, outcome: Outcome, tif: TimeInForce): OrderRow {
    row.(status := ResolvedStatus(outcome, tif),
         fillCount := if outcome.Raised? then None else outcome.fillCount,
         response := if outcome.Raised? then outcome.message else outcome.text)
  }

  /** An answer that states a fill count which parses, above zero or not. */
  predicate States(outcome: Outcome, above: bool) {
    && outcome.Answered? && outcome.fillCount.Some? && outcome.fillCount.value.Parsed?
    && (outcome.fillCount.value.value > 0.0 <==> above)
  }

  /** What a resolved row says of how its post ended, and that it says the same of the order as the pending row did. */
  predicate Tells(pending: OrderRow, resolved: OrderRow, outcome: Outcome, tif: TimeInForce) {
    && (resolved.status.Error? <==> outcome.Raised?)
    && (resolved.status.Filled? <==> States(outcome, true))
    && (resolved.status.Canceled? <==> States(outcome, false) && (tif.FillOrKill? || tif.ImmediateOrCancel?))
    && (resolved.status.Accepted? <==> States(outcome, false) && tif.GoodTillCanceled?)
    && (resolved.status.Submitted? <==> outcome.Answered? && !States(outcome, true) && !States(outcome, false))
    && (outcome.Answered? ==> resolved.fillCount == outcome.fillCount && resolved.response == outcome.text)
    && (outcome.Raised? ==> resolved.fillCount == None && resolved.response == outcome.message)
    && resolved.(status := pending.status, fillCount := pending.fillCount, response := pending.response) == pending
  }

  lemma ResolutionTells(row: OrderRow, outcome: Outcome, tif: TimeInForce)
    ensures Tells(row, Resolution(row, outcome, tif), outcome, tif)
  {
  }

  // ---- The fate of one order: a reference that only looks at its own jobs --------------------

  predicate About(job: Job, id: string) {
    (job.OrderJob? || job.ResolutionJob?) && job.order.id == id && Lawful(job.order)
  }

  /** The first lawful job about `id`: the one that creates its row when there is none yet. */
  function First(jobs: seq<Job>, id: string): Option<OrderRow> {
    if jobs == [] then None
    else
      var before := First(jobs[..|jobs| - 1], id);
      if before.None? && About(jobs[|jobs| - 1], id) then Some(jobs[|jobs| - 1].order) else before
  }

  /** The last lawful resolution of `id`. */
  function LastResolution(jobs: seq<Job>, id: string): Option<OrderRow> {
    if jobs == [] then None
    else if About(jobs[|jobs| - 1], id) && jobs[|jobs| - 1].ResolutionJob? then Some(jobs[|jobs| - 1].order)
    else LastResolution(jobs[..|jobs| - 1], id)
  }

  /** The row `id` ends with: its last resolution if it has one, dated by whichever row came first. */
  function Fate(prior: Option<OrderRow>, jobs: seq<Job>, id: string): Option<OrderRow> {
    var origin := if prior.Some? then prior else First(jobs, id);
    var last := LastResolution(jobs, id);
    if last.Some? && origin.Some? then Some(last.value.(requestedAt := origin.value.requestedAt)) else origin
  }

  function Lookup(db: Db, id: string): Option<OrderRow> {
    if id in db.orders then Some(db.orders[id]) else None
  }

  lemma {:induction false} ResolutionHasFirst(jobs: seq<Job>, id: string)
    ensures LastResolution(jobs, id).Some? ==> First(jobs, id).Some?
  {
    if jobs != [] {
      ResolutionHasFirst(jobs[..|jobs| - 1], id);
    }
  }

  /** What one write does to the row under `id`. */
  function Rewritten(prior: Option<OrderRow>, job: Job, id: string): Option<OrderRow> {
    if !About(job, id) then prior
    else if prior.None? then Some(job.order)
    else if job.ResolutionJob? then Some(job.order.(requestedAt := prior.value.requestedAt))
    else prior
  }

  lemma OneWrite(db: Db, job: Job, id: string)
    ensures Lookup(WriteOne(db, job), id) == Rewritten(Lookup(db, id), job, id)
  {
  }

  lemma FateStep(prior: Option<OrderRow>, jobs: seq<Job>, id: string)
    requires jobs != []
    ensures Fate(prior, jobs, id) == Rewritten(Fate(prior, jobs[..|jobs| - 1], id), jobs[|jobs| - 1], id)
  {
    ResolutionHasFirst(jobs[..|jobs| - 1], id);
  }

  /** Writing any rows in any order leaves each order exactly its fate. */
  lemma {:induction false} WritesDecideFate(db: Db, jobs: seq<Job>, id: string)
    ensures Lookup(WriteAll(db, jobs), id) == Fate(Lookup(db, id), jobs, id)
  {
    if jobs != [] {
      var rest := jobs[..|jobs| - 1];
      WritesDecideFate(db, rest, id);
      OneWrite(WriteAll(db, rest), jobs[|jobs| - 1], id);
      FateStep(Lookup(db, id), jobs, id);
    }
  }

  // ---- The interleavings ---------------------------------------------------------------------

  datatype Desk = Desk(
    posted: seq<OrderRow>,    // dispatches whose pending row went out and that have not resolved
    queue: seq<Job>,
    waiting: seq<Job>,        // undroppable rows whose producers are blocked on a full queue
    hand: seq<Job>,           // the batch the writer has drained and not yet written
    db: Db,
    offered: nat,
    dropped: nat,
    enqueued: seq<Job>,       // every row that entered the queue, in order
    written: seq<Job>)        // every row the writer has dealt with, in order

  datatype Move =
    | Begin(row: OrderRow)
    | Resolve(dispatch: nat, outcome: Outcome, tif: TimeInForce)
    | Refuse(row: OrderRow)
    | Record(job: Job)
    | Unblock(producer: nat)
    | TimeOut(producer: nat)
    | Drain(rows: nat)
    | Write

  predicate Enabled(d: Desk, m: Move) {
    match m
    case Begin(row) => row.status.Pending?
    case Resolve(i, _, _) => i < |d.posted|
    case Refuse(row) => row.status.Rejected?
    case Record(job) => !job.OrderJob? && !job.ResolutionJob?
    case Unblock(i) => i < |d.waiting| && |d.queue| < MAX_QUEUE_SIZE
    case TimeOut(i) => i < |d.waiting|
    case Drain(n) => d.hand == [] && 1 <= n <= |d.queue| && n <= MAX_BATCH_SIZE
    case Write => true
  }

  /** One row offered: into the queue, into the line of blocked producers, or dropped. */
  function Offer(d: Desk, job: Job, blocking: bool): Desk {
    if |d.queue| < MAX_QUEUE_SIZE then
      d.(offered := d.offered + 1, queue := d.queue + [job], enqueued := d.enqueued + [job])
    else if Undroppable(job) && blocking then d.(offered := d.offered + 1, waiting := d.waiting + [job])
    else d.(offered := d.offered + 1, dropped := d.dropped + 1)
  }

  function Without<T>(s: seq<T>, i: nat): seq<T>
    requires i < |s|
  {
    s[..i] + s[i + 1..]
  }

  function Next(d: Desk, m: Move): Desk
    requires Enabled(d, m)
  {
    match m
    case Begin(row) => Offer(d.(posted := d.posted + [row]), OrderJob(row), false)
    case Resolve(i, outcome, tif) =>
      Offer(d.(posted := Without(d.posted, i)), ResolutionJob(Resolution(d.posted[i], outcome, tif)), true)
    case Refuse(row) => Offer(d, OrderJob(row), true)
    case Record(job) => Offer(d, job, true)
    case Unblock(i) =>
      d.(waiting := Without(d.waiting, i), queue := d.queue + [d.waiting[i]], enqueued := d.enqueued + [d.waiting[i]])
    case TimeOut(i) => d.(waiting := Without(d.waiting, i), dropped := d.dropped + 1)
    case Drain(n) => d.(hand := d.queue[..n], queue := d.queue[n..])
    case Write => d.(db := WriteBatch(d.db, d.hand), written := d.written + d.hand, hand := [])
  }

  predicate Legal(d: Desk, moves: seq<Move>)
    decreases |moves|
  {
    moves == [] || (Enabled(d, moves[0]) && Legal(Next(d, moves[0]), moves[1..]))
  }

  function Run(d: Desk, moves: seq<Move>): Desk
    requires Legal(d, moves)
    decreases |moves|
  {
    if moves == [] then d else Run(Next(d, moves[0]), moves[1..])
  }

  function Open(db: Db): Desk { Desk([], [], [], [], db, 0, 0, [], []) }

  // ---- The objects make these moves ----------------------------------------------------------

  /** The telemetry object and its connection are in the state a desk describes. */
  ghost predicate Shows(t: TelemetryDB, d: Desk)
    reads t, t.connection
  {
    && t.Valid() && t.running && t.queue == Jobs(d.queue) && t.dropped == d.dropped
    && t.connection.committed == d.db
  }

  lemma JobsAppend(jobs: seq<Job>, job: Job)
    ensures Jobs(jobs) + [Some(job)] == Jobs(jobs + [job])
  {
  }

  /** Any row offered to the object moves it as it moves the desk; `Waits` is to join those waiting. */
  method OfferRow(t: TelemetryDB, job: Job, blocking: bool, ghost d: Desk) returns (outcome: Offered)
    requires Shows(t, d)
    modifies t`queue, t`dropped
    ensures Shows(t, Offer(d, job, blocking))
    ensures outcome.Waits? <==> Offer(d, job, blocking).waiting == d.waiting + [job]
  {
    outcome := t.Enqueue(job, blocking);
    JobsAppend(d.queue, job);
    assert |d.waiting + [job]| != |d.waiting|;
  }

  class OrderDispatcher {
    const telemetry: TelemetryDB

    constructor (telemetry: TelemetryDB)
      ensures this.telemetry == telemetry
    {
      this.telemetry := telemetry;
    }

    /** Up to the post: a real dispatch's pending row goes out, never waiting for room; a shadow writes nothing. */
    method BeforePost(row: OrderRow, dryRun: bool, ghost d: Desk)
      requires Shows(telemetry, d) && row.status.Pending?
      modifies telemetry`queue, telemetry`dropped
      ensures Shows(telemetry, if dryRun then d else Next(d, Begin(row)))
      ensures telemetry.queue
              == old(telemetry.queue)
                 + if !dryRun && |old(telemetry.queue)| < MAX_QUEUE_SIZE then [Some(OrderJob(row))] else []
    {
      if !dryRun {
        var outcome := OfferRow(telemetry, OrderJob(row), false, d.(posted := d.posted + [row]));
      }
    }

    /** However the post ended: the resolution follows, waiting for room if it must. */
    method AfterPost(row: OrderRow, outcome: Outcome, tif: TimeInForce, dryRun: bool, ghost d: Desk, ghost i: nat)
      returns (waits: bool)
      requires Shows(telemetry, d) && (!dryRun ==> i < |d.posted| && d.posted[i] == row)
      modifies telemetry`queue, telemetry`dropped
      ensures Shows(telemetry, if dryRun then d else Next(d, Resolve(i, outcome, tif)))
      ensures waits <==> !dryRun && |old(telemetry.queue)| >= MAX_QUEUE_SIZE
      ensures telemetry.queue
              == old(telemetry.queue)
                 + if !dryRun && |old(telemetry.queue)| < MAX_QUEUE_SIZE
                   then [Some(ResolutionJob(Resolution(row, outcome, tif)))] else []
      ensures !dryRun && |old(telemetry.queue)| < MAX_QUEUE_SIZE ==>
                var offered := telemetry.queue[|old(telemetry.queue)|];
                offered.Some? && offered.value.ResolutionJob? && Tells(row, offered.value.order, outcome, tif)
    {
      waits := false;
      if !dryRun {
        var offered := OfferRow(telemetry, ResolutionJob(Resolution(row, outcome, tif)), true,
                                d.(posted := Without(d.posted, i)));
        waits := offered.Waits?;
      }
    }
  }

  /** A blocked producer wakes up: its row enters, or its wait has timed out and the row is dropped. */
  method WakeProducer(t: TelemetryDB, job: Job, timedOut: bool, ghost d: Desk, ghost i: nat)
    requires Shows(t, d) && i < |d.waiting| && d.waiting[i] == job
    requires timedOut || |t.queue| < MAX_QUEUE_SIZE
    modifies t`queue, t`dropped
    ensures Shows(t, Next(d, if timedOut then TimeOut(i) else Unblock(i)))
  {
    if timedOut {
      t.GiveUp();
    } else {
      t.EnqueueLate(job);
      JobsAppend(d.queue, job);
    }
  }

  /** The writer drains a batch into its hand. */
  method DrainToHand(t: TelemetryDB, ghost d: Desk) returns (batch: seq<Job>)
    requires Shows(t, d) && d.hand == [] && d.queue != []
    modifies t`queue
    ensures var n := BatchOf(d.queue);
            && Enabled(d, Drain(n)) && batch == Next(d, Drain(n)).hand && Shows(t, Next(d, Drain(n)))
  {
    ghost var n := BatchOf(d.queue);
    LeadingIs(t.queue, MAX_BATCH_SIZE, n);
    assert t.queue[..n] == Jobs(d.queue[..n]) && t.queue[n..] == Jobs(d.queue[n..]);
    RowsOfJobs(d.queue[..n]);
    var drained := t.DrainBatch();
    batch := drained.value;
  }

  /** And writes it, in one transaction or row by row. */
  method WriteHand(t: TelemetryDB, batch: seq<Job>, ghost d: Desk) returns (lost: seq<Job>)
    requires Shows(t, d) && batch == d.hand
    modifies t.connection
    ensures Shows(t, Next(d, Write)) && lost == Lost(d.db, d.hand)
  {
    WholeOrLost(d.db, d.hand);
    var trouble: Option<nat> := *;
    lost := t.connection.Write(batch, trouble, {});
  }

  // ---- What every run keeps ------------------------------------------------------------------

  predicate Settled(job: Job) { job.ResolutionJob? ==> !job.order.status.Pending? }

  predicate DeskInv(start: Db, d: Desk) {
    && d.enqueued == d.written + d.hand + d.queue
    && d.db == WriteAll(start, d.written)
    && d.offered == |d.enqueued| + d.dropped + |d.waiting|
    && |d.queue| <= MAX_QUEUE_SIZE
    && (forall job | job in d.enqueued :: Settled(job))
    && (forall job | job in d.waiting :: Settled(job))
  }

  lemma OfferKeepsInv(start: Db, d: Desk, job: Job, blocking: bool)
    requires DeskInv(start, d) && Settled(job)
    ensures DeskInv(start, Offer(d, job, blocking))
  {
    assert (d.written + d.hand + d.queue) + [job] == d.written + d.hand + (d.queue + [job]);
  }

  lemma WriteKeepsInv(start: Db, d: Desk)
    requires DeskInv(start, d)
    ensures DeskInv(start, Next(d, Write))
  {
    WholeOrLost(d.db, d.hand);
    WriteAllConcat(start, d.written, d.hand);
    assert d.written + d.hand + d.queue == (d.written + d.hand) + [] + d.queue;
  }

  lemma DrainKeepsInv(start: Db, d: Desk, n: nat)
    requires DeskInv(start, d) && Enabled(d, Drain(n))
    ensures DeskInv(start, Next(d, Drain(n)))
  {
    assert d.queue == d.queue[..n] + d.queue[n..];
  }

  lemma UnblockKeepsInv(start: Db, d: Desk, i: nat)
    requires DeskInv(start, d) && Enabled(d, Unblock(i))
    ensures DeskInv(start, Next(d, Unblock(i)))
  {
    assert d.waiting[i] in d.waiting;
    assert (d.written + d.hand + d.queue) + [d.waiting[i]] == d.written + d.hand + (d.queue + [d.waiting[i]]);
  }

  lemma MoveKeepsInv(start: Db, d: Desk, m: Move)
    requires DeskInv(start, d) && Enabled(d, m)
    ensures DeskInv(start, Next(d, m))
  {
    match m
    case Begin(row) => OfferKeepsInv(start, d.(posted := d.posted + [row]), OrderJob(row), false);
    case Resolve(i, outcome, tif) =>
      OfferKeepsInv(start, d.(posted := Without(d.posted, i)),
                    ResolutionJob(Resolution(d.posted[i], outcome, tif)), true);
    case Refuse(row) => OfferKeepsInv(start, d, OrderJob(row), true);
    case Record(job) => OfferKeepsInv(start, d, job, true);
    case Unblock(i) => UnblockKeepsInv(start, d, i);
    case TimeOut(i) =>
    case Drain(n) => DrainKeepsInv(start, d, n);
    case Write => WriteKeepsInv(start, d);
  }

  lemma {:induction false} RunKeepsInv(start: Db, d: Desk, moves: seq<Move>)
    requires DeskInv(start, d) && Legal(d, moves)
    ensures DeskInv(start, Run(d, moves))
    decreases |moves|
  {
    if moves != [] {
      MoveKeepsInv(start, d, moves[0]);
      RunKeepsInv(start, Next(d, moves[0]), moves[1..]);
    }
  }

  /**
   Queue conservation: at every moment each row ever offered has been enqueued, dropped and counted, or
   is still waiting for room; the rows dealt with are the oldest enqueued ones, in order; and the queue never
   grows past its bound.
   */
  lemma RowsAreConserved(start: Db, moves: seq<Move>)
    requires Legal(Open(start), moves)
    ensures var d := Run(Open(start), moves);
            d.offered == |d.enqueued| + d.dropped + |d.waiting| && d.written <= d.enqueued
            && d.enqueued == d.written + d.hand + d.queue && |d.queue| <= MAX_QUEUE_SIZE
  {
    RunKeepsInv(start, Open(start), moves);
  }

  /**
   The audit trail: once the queue is drained, whatever the interleaving, each order's row is its last
   enqueued resolution, dated by the first row written for it; an order none of whose resolutions was
   enqueued keeps its first row; and an order with no enqueued row has none.
   */
  lemma DrainedTrail(start: Db, moves: seq<Move>, id: string)
    requires Legal(Open(start), moves)
    requires Run(Open(start), moves).queue == [] && Run(Open(start), moves).hand == []
    ensures var d := Run(Open(start), moves);
            Lookup(d.db, id) == Fate(Lookup(start, id), d.enqueued, id)
  {
    var d := Run(Open(start), moves);
    RunKeepsInv(start, Open(start), moves);
    assert d.enqueued == d.written;
    WritesDecideFate(start, d.enqueued, id);
  }

  /** What `LastResolution` finds: a lawful resolution of `id` with none behind it. */
  lemma {:induction false} LastResolutionIs(jobs: seq<Job>, id: string, k: nat)
    requires k < |jobs| && About(jobs[k], id) && jobs[k].ResolutionJob?
    requires forall j | k < j < |jobs| :: !(About(jobs[j], id) && jobs[j].ResolutionJob?)
    ensures LastResolution(jobs, id) == Some(jobs[k].order)
  {
    if k < |jobs| - 1 {
      LastResolutionIs(jobs[..|jobs| - 1], id, k);
    }
  }

  // ---- What is dropped -----------------------------------------------------------------------

  /** A row this move offers may not wait for room: a pending row, or one of a table that may lose rows. */
  predicate OffersDroppable(m: Move) { m.Begin? || (m.Record? && !m.job.FillJob?) }

  /** A row this move offers may wait: a refusal, a resolution or a fill. */
  predicate OffersUndroppable(m: Move) { m.Refuse? || m.Resolve? || (m.Record? && m.job.FillJob?) }

  /**
   Rows are dropped exactly when a wait times out, or when the ten thousand places are taken and the row may not
   wait; and a producer is held up exactly when they are taken and its row may.
   */
  lemma DroppedExactlyWhen(d: Desk, m: Move)
    requires Enabled(d, m)
    ensures var after, full := Next(d, m), |d.queue| >= 10_000;
            && after.dropped == d.dropped + (if m.TimeOut? || (full && OffersDroppable(m)) then 1 else 0)
            && |after.waiting| == |d.waiting|
               + (if full && OffersUndroppable(m) then 1 else if m.TimeOut? || m.Unblock? then -1 else 0)
            && |after.enqueued| == |d.enqueued|
               + (if m.Unblock? || (!full && (OffersDroppable(m) || OffersUndroppable(m))) then 1 else 0)
  {
  }

  // ---- Every dispatch is resolved once -------------------------------------------------------

  /** The rows of the dispatches a run begins. */
  function Begun(moves: seq<Move>): multiset<OrderRow> {
    if moves == [] then multiset{}
    else Begun(moves[1..]) + if moves[0].Begin? then multiset{moves[0].row} else multiset{}
  }

  /** The rows of the dispatches it resolves. */
  function ResolvedIn(d: Desk, moves: seq<Move>): multiset<OrderRow>
    requires Legal(d, moves)
    decreases |moves|
  {
    if moves == [] then multiset{}
    else
      ResolvedIn(Next(d, moves[0]), moves[1..])
      + if moves[0].Resolve? then multiset{d.posted[moves[0].dispatch]} else multiset{}
  }

  lemma MovePosts(d: Desk, m: Move)
    requires Enabled(d, m)
    ensures multiset(Next(d, m).posted) + (if m.Resolve? then multiset{d.posted[m.dispatch]} else multiset{})
            == multiset(d.posted) + (if m.Begin? then multiset{m.row} else multiset{})
  {
    if m.Resolve? {
      assert d.posted == d.posted[..m.dispatch] + [d.posted[m.dispatch]] + d.posted[m.dispatch + 1..];
    }
  }

  lemma Rebalance<T>(left: multiset<T>, done: multiset<T>, next: multiset<T>, more: multiset<T>, out: multiset<T>,
                     before: multiset<T>, entered: multiset<T>)
    requires left + done == next + more && next + out == before + entered
    ensures left + (done + out) == before + (more + entered)
  {
    assert left + (done + out) == next + more + out;
    assert next + more + out == before + entered + more;
  }

  /** Every dispatch begun is resolved once or still to be resolved, and nothing else is. */
  lemma {:induction false} DispatchesAreConserved(d: Desk, moves: seq<Move>)
    requires Legal(d, moves)
    ensures multiset(Run(d, moves).posted) + ResolvedIn(d, moves) == multiset(d.posted) + Begun(moves)
    decreases |moves|
  {
    if moves != [] {
      MovePosts(d, moves[0]);
      DispatchesAreConserved(Next(d, moves[0]), moves[1..]);
      Rebalance(multiset(Run(d, moves).posted), ResolvedIn(Next(d, moves[0]), moves[1..]),
                multiset(Next(d, moves[0]).posted), Begun(moves[1..]),
                if moves[0].Resolve? then multiset{d.posted[moves[0].dispatch]} else multiset{}, multiset(d.posted),
                if moves[0].Begin? then multiset{moves[0].row} else multiset{});
    }
  }

  // ---- Nothing dropped, nothing lost ---------------------------------------------------------

  /** The rows a move offers to the telemetry. */
  function OfferedBy(d: Desk, m: Move): seq<Job>
    requires Enabled(d, m)
  {
    match m
    case Begin(row) => [OrderJob(row)]
    case Resolve(i, outcome, tif) => [ResolutionJob(Resolution(d.posted[i], outcome, tif))]
    case Refuse(row) => [OrderJob(row)]
    case Record(job) => [job]
    case Unblock(_) => []
    case TimeOut(_) => []
    case Drain(_) => []
    case Write => []
  }

  function AllOffered(d: Desk, moves: seq<Move>): seq<Job>
    requires Legal(d, moves)
    decreases |moves|
  {
    if moves == [] then [] else OfferedBy(d, moves[0]) + AllOffered(Next(d, moves[0]), moves[1..])
  }

  predicate Taken(d: Desk, job: Job) { job in d.enqueued || job in d.waiting }

  /** A move takes only what it is offered, and loses nothing unless it counts a drop. */
  lemma MoveTakes(d: Desk, m: Move, job: Job)
    requires Enabled(d, m)
    ensures d.dropped <= Next(d, m).dropped
    ensures Taken(Next(d, m), job) ==> Taken(d, job) || job in OfferedBy(d, m)
    ensures d.dropped == Next(d, m).dropped && (Taken(d, job) || job in OfferedBy(d, m)) ==> Taken(Next(d, m), job)
  {
    if m.Unblock? || m.TimeOut? {
      assert d.waiting == d.waiting[..m.producer] + [d.waiting[m.producer]] + d.waiting[m.producer + 1..];
    }
  }

  lemma {:induction false} RunTakes(d: Desk, moves: seq<Move>, job: Job)
    requires Legal(d, moves)
    ensures d.dropped <= Run(d, moves).dropped
    ensures Taken(Run(d, moves), job) ==> Taken(d, job) || job in AllOffered(d, moves)
    ensures d.dropped == Run(d, moves).dropped && (Taken(d, job) || job in AllOffered(d, moves))
            ==> Taken(Run(d, moves), job)
    decreases |moves|
  {
    if moves != [] {
      MoveTakes(d, moves[0], job);
      RunTakes(Next(d, moves[0]), moves[1..], job);
    }
  }

  /**
   Over any interleaving, what is written was offered; and once the queue is drained, with nobody waiting and
   nothing dropped, all that was offered is written.
   */
  lemma WrittenWasOffered(start: Db, moves: seq<Move>, job: Job)
    requires Legal(Open(start), moves)
    ensures var d := Run(Open(start), moves);
            && (job in d.written ==> job in AllOffered(Open(start), moves))
            && (d.queue == [] && d.hand == [] && d.waiting == [] && d.dropped == 0 ==>
                  (job in AllOffered(Open(start), moves) ==> job in d.written))
            && d.db == WriteAll(start, d.written)
  {
    RunKeepsInv(start, Open(start), moves);
    RunTakes(Open(start), moves, job);
  }

  // ---- One dispatch, one row -----------------------------------------------------------------

  /** Every row about the order was stamped when its dispatch was requested. */
  predicate Stamped(job: Job, row: OrderRow) {
    (job.OrderJob? || job.ResolutionJob?) && job.order.id == row.id ==> job.order.requestedAt == row.requestedAt
  }

  /** The moves of a run in which `row` is the only order under its id. */
  predicate SoleDispatch(moves: seq<Move>, row: OrderRow) {
    forall m | m in moves ::
      && (m.Begin? && m.row.id == row.id ==> m.row == row)
      && (m.Refuse? ==> m.row.id != row.id)
  }

  predicate SoleInv(d: Desk, row: OrderRow) {
    && (forall r | r in d.posted && r.id == row.id :: r == row)
    && (forall job | job in d.enqueued :: Stamped(job, row))
    && (forall job | job in d.waiting :: Stamped(job, row))
  }

  lemma MoveKeepsSole(d: Desk, m: Move, row: OrderRow)
    requires Enabled(d, m) && SoleInv(d, row) && SoleDispatch([m], row)
    ensures SoleInv(Next(d, m), row)
  {
    assert m in [m];
    if m.Resolve? {
      assert d.posted[m.dispatch] in d.posted;
    } else if m.Unblock? {
      assert d.waiting[m.producer] in d.waiting;
    }
  }

  lemma {:induction false} RunKeepsSole(d: Desk, moves: seq<Move>, row: OrderRow)
    requires Legal(d, moves) && SoleInv(d, row) && SoleDispatch(moves, row)
    ensures SoleInv(Run(d, moves), row)
    decreases |moves|
  {
    if moves != [] {
      MoveKeepsSole(d, moves[0], row);
      RunKeepsSole(Next(d, moves[0]), moves[1..], row);
    }
  }

  lemma {:induction false} FirstIsStamped(jobs: seq<Job>, row: OrderRow)
    requires forall job | job in jobs :: Stamped(job, row)
    ensures First(jobs, row.id).Some? ==> First(jobs, row.id).value.requestedAt == row.requestedAt
    ensures LastResolution(jobs, row.id).Some? ==> LastResolution(jobs, row.id).value.requestedAt == row.requestedAt
  {
    if jobs != [] {
      assert jobs[|jobs| - 1] in jobs;
      FirstIsStamped(jobs[..|jobs| - 1], row);
    }
  }

  /**
   For an order dispatched under an id of its own, the drained table holds exactly the resolution that
   was enqueued, every column of it, whether or not its pending row survived the queue.
   */
  lemma DispatchedOrderIsItsResolution(start: Db, moves: seq<Move>, row: OrderRow, k: nat)
    requires Legal(Open(start), moves) && SoleDispatch(moves, row) && row.id !in start.orders
    requires Run(Open(start), moves).queue == [] && Run(Open(start), moves).hand == []
    requires var jobs := Run(Open(start), moves).enqueued;
             && k < |jobs| && About(jobs[k], row.id) && jobs[k].ResolutionJob?
             && forall j | k < j < |jobs| :: !(About(jobs[j], row.id) && jobs[j].ResolutionJob?)
    ensures var d := Run(Open(start), moves);
            Lookup(d.db, row.id) == Some(d.enqueued[k].order)
  {
    var d := Run(Open(start), moves);
    DrainedTrail(start, moves, row.id);
    RunKeepsSole(Open(start), moves, row);
    LastResolutionIs(d.enqueued, row.id, k);
    FirstIsStamped(d.enqueued, row);
    ResolutionHasFirst(d.enqueued, row.id);
  }

  /** In this run a post of the order `id` ends like this. */
  predicate Ends(d: Desk, moves: seq<Move>, id: string, outcome: Outcome, tif: TimeInForce)
    requires Legal(d, moves)
    decreases |moves|
  {
    moves != []
    && (|| (moves[0].Resolve? && d.posted[moves[0].dispatch].id == id
            && moves[0].outcome == outcome && moves[0].tif == tif)
        || Ends(Next(d, moves[0]), moves[1..], id, outcome, tif))
  }

  /** Each resolution a run offers of a sole order tells how a post of that order ended. */
  lemma {:induction false} OfferedTells(d: Desk, moves: seq<Move>, row: OrderRow, job: Job)
    returns (outcome: Outcome, tif: TimeInForce)
    requires Legal(d, moves) && SoleInv(d, row) && SoleDispatch(moves, row)
    requires job in AllOffered(d, moves) && job.ResolutionJob? && job.order.id == row.id
    ensures Ends(d, moves, row.id, outcome, tif) && Tells(row, job.order, outcome, tif)
    decreases |moves|
  {
    var m := moves[0];
    assert m in moves;
    if job in OfferedBy(d, m) {
      assert d.posted[m.dispatch] in d.posted;
      ResolutionTells(d.posted[m.dispatch], m.outcome, m.tif);
      return m.outcome, m.tif;
    }
    MoveKeepsSole(d, m, row);
    outcome, tif := OfferedTells(Next(d, m), moves[1..], row, job);
  }

  /**
   What the drained table tells of an order dispatched under an id of its own, one of whose resolutions was enqueued,
   is how a post of it ended: filled exactly when the answer stated a count above zero, with that count in its column;
   canceled or, when it may rest, accepted exactly when the count was not above zero; submitted when no count could be
   read; and an error exactly when the post raised.
   */
  lemma DrainedRowTellsTheOutcome(start: Db, moves: seq<Move>, row: OrderRow, k: nat)
    returns (outcome: Outcome, tif: TimeInForce)
    requires Legal(Open(start), moves) && SoleDispatch(moves, row) && row.id !in start.orders
    requires Run(Open(start), moves).queue == [] && Run(Open(start), moves).hand == []
    requires var jobs := Run(Open(start), moves).enqueued;
             && k < |jobs| && About(jobs[k], row.id) && jobs[k].ResolutionJob?
             && forall j | k < j < |jobs| :: !(About(jobs[j], row.id) && jobs[j].ResolutionJob?)
    ensures Ends(Open(start), moves, row.id, outcome, tif)
    ensures var found := Lookup(Run(Open(start), moves).db, row.id);
            found.Some? && Tells(row, found.value, outcome, tif)
  {
    var job := Run(Open(start), moves).enqueued[k];
    DispatchedOrderIsItsResolution(start, moves, row, k);
    RunTakes(Open(start), moves, job);
    outcome, tif := OfferedTells(Open(start), moves, row, job);
  }

  // ---- Resolved rows stay resolved -----------------------------------------------------------

  lemma {:induction false} WritesNeverReopen(db: Db, jobs: seq<Job>, id: string)
    requires forall job | job in jobs :: Settled(job)
    requires id in db.orders && !db.orders[id].status.Pending?
    ensures id in WriteAll(db, jobs).orders && !WriteAll(db, jobs).orders[id].status.Pending?
  {
    if jobs != [] {
      assert jobs[|jobs| - 1] in jobs;
      WritesNeverReopen(db, jobs[..|jobs| - 1], id);
    }
  }

  /** A row once resolved never returns to pending, and never loses the date it was first given. */
  lemma ResolvedStaysResolved(start: Db, moves: seq<Move>, more: seq<Move>, id: string)
    requires Legal(Open(start), moves) && Legal(Run(Open(start), moves), more)
    ensures var before := Run(Open(start), moves).db;
            var after := Run(Run(Open(start), moves), more).db;
            id in before.orders ==>
              && id in after.orders && after.orders[id].requestedAt == before.orders[id].requestedAt
              && (!before.orders[id].status.Pending? ==> !after.orders[id].status.Pending?)
  {
    RunKeepsInv(start, Open(start), moves);
    if id in Run(Open(start), moves).db.orders {
      LaterRowsOnlyUpdate(start, Run(Open(start), moves), more, id);
    }
  }

  lemma {:induction false} LaterRowsOnlyUpdate(start: Db, d: Desk, more: seq<Move>, id: string)
    requires DeskInv(start, d) && Legal(d, more) && id in d.db.orders
    ensures var after := Run(d, more).db;
            && id in after.orders && after.orders[id].requestedAt == d.db.orders[id].requestedAt
            && (!d.db.orders[id].status.Pending? ==> !after.orders[id].status.Pending?)
    decreases |more|
  {
    if more != [] {
      var next := Next(d, more[0]);
      MoveKeepsInv(start, d, more[0]);
      if more[0].Write? {
        WholeOrLost(d.db, d.hand);
        WritesDecideFate(d.db, d.hand, id);
        if !d.db.orders[id].status.Pending? {
          assert forall job | job in d.hand :: job in d.enqueued;
          WritesNeverReopen(d.db, d.hand, id);
        }
      }
      LaterRowsOnlyUpdate(start, next, more[1..], id);
    }
  }
}
