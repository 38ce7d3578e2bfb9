/**
 The bounded queue in front of the telemetry writer: what is dropped, what a batch drains, and what
 a shutdown leaves behind. `None` in the queue is the shutdown sentinel.
 */
module TelemetryQueue {
  import opened Wrappers
  import opened TelemetryStore

  const MAX_QUEUE_SIZE: nat := 10_000
  const MAX_BATCH_SIZE: nat := 500

  type Slot = Option<Job>

  /** Orders, their resolutions and fills are never dropped while the caller can wait. */
  predicate Undroppable(job: Job) { job.OrderJob? || job.ResolutionJob? || job.FillJob? }

  function Jobs(jobs: seq<Job>): seq<Slot> { seq(|jobs|, i requires 0 <= i < |jobs| => Some(jobs[i])) }

  // ---- What one drain takes ------------------------------------------------------------------

  /** How many rows a drain takes before the batch is full, the queue empty or the sentinel next. */
  function Leading(queue: seq<Slot>, limit: nat): (n: nat)
    ensures n <= limit && n <= |queue|
    ensures forall s | s in queue[..n] :: s.Some?
    ensures n < limit && n < |queue| ==> queue[n].None?
  {
    if limit == 0 || queue == [] || queue[0].None? then 0 else 1 + Leading(queue[1..], limit - 1)
  }

  lemma {:induction false} LeadingIs(queue: seq<Slot>, limit: nat, n: nat)
    requires n <= limit && n <= |queue| && forall i | 0 <= i < n :: queue[i].Some?
    requires n < limit && n < |queue| ==> queue[n].None?
    ensures Leading(queue, limit) == n
  {
    if n > 0 {
      LeadingIs(queue[1..], limit - 1, n - 1);
    }
  }

  function Rows(slots: seq<Slot>): seq<Job>
    requires forall s | s in slots :: s.Some?
  {
    if slots == [] then [] else [slots[0].value] + Rows(slots[1..])
  }

  lemma {:induction false} RowsOfJobs(jobs: seq<Job>)
    ensures Rows(Jobs(jobs)) == jobs
  {
    if jobs != [] {
      assert Jobs(jobs)[1..] == Jobs(jobs[1..]);
      RowsOfJobs(jobs[1..]);
    }
  }

  lemma {:induction false} RowsAppend(slots: seq<Slot>, s: Slot)
    requires s.Some? && forall t | t in slots :: t.Some?
    ensures Rows(slots + [s]) == Rows(slots) + [s.value]
  {
    if slots == [] {
      assert [s][1..] == [];
    } else {
      assert (slots + [s])[1..] == slots[1..] + [s];
      RowsAppend(slots[1..], s);
    }
  }

  // ---- The queue object ----------------------------------------------------------------------

  /** What became of one row offered: `Waits` is a producer blocked until there is room or it times out. */
  datatype Offered = Queued | Dropped | Waits | NotRunning

  class TelemetryDB {
    var queue: seq<Slot>
    var dropped: nat
    var running: bool    // the writer thread has been started and not yet joined
    const connection: Connection

    ghost predicate Valid()
      reads this, connection
    {
      connection.working == connection.committed && |queue| <= MAX_QUEUE_SIZE
    }

    constructor (connection: Connection)
      requires connection.working == connection.committed
      ensures this.connection == connection && Valid() && queue == [] && dropped == 0 && !running
    {
      this.connection := connection;
      queue, dropped, running := [], 0, false;
    }

    method Start()
      modifies this`running
      ensures running
    {
      running := true;
    }

    /**
     Offer one row. A full queue drops it at once, unless its table is undroppable and the caller may
     block: then the caller waits, and the row comes back through `EnqueueLate` or `GiveUp`.
     */
    method Enqueue(job: Job, blocking: bool) returns (outcome: Offered)
      requires Valid()
      modifies this`queue, this`dropped
      ensures Valid()
      ensures outcome == if !running then NotRunning
                         else if |old(queue)| < MAX_QUEUE_SIZE then Queued
                         else if blocking && (job.OrderJob? || job.ResolutionJob? || job.FillJob?) then Waits
                         else Dropped
      ensures queue == old(queue) + if outcome.Queued? then [Some(job)] else []
      ensures dropped == old(dropped) + if outcome.Dropped? then 1 else 0
    {
      if !running {
        return NotRunning;
      }
      if |queue| < MAX_QUEUE_SIZE {
        queue := queue + [Some(job)];
        return Queued;
      }
      if Undroppable(job) && !blocking {
        dropped := dropped + 1;
        return Dropped;
      }
      if Undroppable(job) {
        return Waits;
      }
      dropped := dropped + 1;
      return Dropped;
    }

    /** A blocked producer's row enters once the writer has made room. */
    method EnqueueLate(job: Job)
      requires Valid() && |queue| < MAX_QUEUE_SIZE
      modifies this`queue
      ensures Valid() && queue == old(queue) + [Some(job)]
    {
      queue := queue + [Some(job)];
    }

    /** A blocked producer's wait times out. */
    method GiveUp()
      modifies this`dropped
      ensures dropped == old(dropped) + 1
    {
      dropped := dropped + 1;
    }

    /**
     Flush and stop: with no producer left, every queued row is written, in order, before the writer
     stops. On a full queue the sentinel first waits for the writer to take a batch. Closing what is not
     running changes nothing.
     */
    method Close(ghost rows: seq<Job>)
      requires Valid() && (running ==> queue == Jobs(rows))
      modifies this`queue, this`running, connection
      ensures Valid() && !running
      ensures !old(running) ==> queue == old(queue) && connection.committed == old(connection.committed)
      ensures old(running) ==> queue == [] && connection.committed == WriteAll(old(connection.committed), rows)
    {
      if !running {
        return;
      }
      ghost var start, left := connection.committed, rows;
      if |queue| == MAX_QUEUE_SIZE {
        WriteBatchOf(rows);
        left := rows[MAX_BATCH_SIZE..];
        assert rows == rows[..MAX_BATCH_SIZE] + left;
        WriteAllConcat(start, rows[..MAX_BATCH_SIZE], left);
      }
      queue := queue + [None];
      assert queue == Jobs(left) + [None] + Jobs([]);
      RunWriter(left, []);
      EverythingIsWritten(left);
      running := false;
    }

    /** The writer takes a full batch of the queued rows and writes it. */
    method WriteBatchOf(ghost rows: seq<Job>)
      requires Valid() && queue == Jobs(rows) && |rows| >= MAX_BATCH_SIZE
      modifies this`queue, connection
      ensures Valid() && queue == Jobs(rows[MAX_BATCH_SIZE..])
      ensures connection.committed == WriteAll(old(connection.committed), rows[..MAX_BATCH_SIZE])
    {
      LeadingIs(queue, MAX_BATCH_SIZE, MAX_BATCH_SIZE);
      assert queue[..MAX_BATCH_SIZE] == Jobs(rows[..MAX_BATCH_SIZE]);
      RowsOfJobs(rows[..MAX_BATCH_SIZE]);
      var batch := DrainBatch();
      var trouble: Option<nat> := *;
      var dropped := connection.Write(batch.value, trouble, {});
    }

    /**
     Take one batch. `None` means the sentinel was next. A sentinel met partway through a batch goes
     back to the end of the queue, which has room because nothing else has used the slot just freed.
     */
    method DrainBatch() returns (batch: Option<seq<Job>>)
      requires queue != [] && |queue| <= MAX_QUEUE_SIZE
      modifies this`queue
      ensures |queue| <= MAX_QUEUE_SIZE
      ensures batch.None? <==> old(queue)[0].None?
      ensures batch.None? ==> queue == old(queue)[1..]
      ensures var n := Leading(old(queue), MAX_BATCH_SIZE);
              batch.Some? ==>
                && batch.value == Rows(old(queue)[..n])
                && queue == if n < MAX_BATCH_SIZE && n < |old(queue)| then old(queue)[n + 1..] + [None]
                            else old(queue)[n..]
    {
      var first := queue[0];
      queue := queue[1..];
      if first.None? {
        return None;
      }
      var jobs := [first.value];
      ghost var n := 1;
      ghost var all := old(queue);
      assert all[..1] == [first] && [first][1..] == [];
      var sentinel := false;
      while |jobs| < MAX_BATCH_SIZE && queue != [] && !sentinel
        invariant 1 <= n == |jobs| <= MAX_BATCH_SIZE && n <= |all|
        invariant forall i | 0 <= i < n :: all[i].Some?
        invariant jobs == Rows(all[..n])
        invariant !sentinel ==> queue == all[n..]
        invariant sentinel ==> n < MAX_BATCH_SIZE && n < |all| && all[n].None? && queue == all[n + 1..] + [None]
        decreases MAX_BATCH_SIZE - |jobs|, !sentinel
      {
        var slot := queue[0];
        queue := queue[1..];
        if slot.None? {
          queue := queue + [None];
          sentinel := true;
        } else {
          RowsAppend(all[..n], slot);
          assert all[..n] + [slot] == all[..n + 1];
          jobs := jobs + [slot.value];
          n := n + 1;
        }
      }
      LeadingIs(all, MAX_BATCH_SIZE, n);
      return Some(jobs);
    }

    /**
     One turn of the writer's loop: a batch drained and written, or the sentinel met. Any one statement of
     the batch may fail for a reason outside its rows; the retry then meets no such failure.
     */
    method WriteNext(ghost ahead: seq<Job>, ghost behind: seq<Job>) returns (stopped: bool)
      requires Valid() && queue == Jobs(ahead) + [None] + Jobs(behind)
      modifies this`queue, connection
      ensures Valid() && (stopped <==> ahead == [])
      ensures stopped ==> queue == Jobs(behind) && connection.committed == old(connection.committed)
      ensures var n := BatchOf(ahead);
              !stopped ==>
                && connection.committed == WriteAll(old(connection.committed), ahead[..n])
                && queue == if n < MAX_BATCH_SIZE then Jobs(behind) + [None]
                            else Jobs(ahead[n..]) + [None] + Jobs(behind)
    {
      DrainTakes(queue, ahead, behind);
      var batch := DrainBatch();
      if batch.None? {
        return true;
      }
      var trouble: Option<nat> := *;
      var dropped := connection.Write(batch.value, trouble, {});
      return false;
    }

    /**
     Drain and write until the sentinel is next, with no producer left. The rows ahead of the sentinel
     are all written, in order; those behind it are written too exactly when the rows ahead do not
     divide into full batches, because only then is the sentinel met inside a batch and put back.
     */
    method RunWriter(ghost ahead: seq<Job>, ghost behind: seq<Job>)
      requires Valid() && queue == Jobs(ahead) + [None] + Jobs(behind)
      modifies this`queue, connection
      ensures Valid()
      ensures connection.committed == WriteAll(old(connection.committed), Written(ahead, behind))
      ensures queue == Jobs(Leftover(ahead, behind))
    {
      ghost var start := connection.committed;
      ghost var pre, post, done := ahead, behind, [];
      var stopped := false;
      while !stopped
        invariant Valid() && connection.committed == WriteAll(start, done)
        invariant OnPlan(done, pre, post, ahead, behind)
        invariant stopped ==> pre == [] && queue == Jobs(post)
        invariant !stopped ==> queue == Jobs(pre) + [None] + Jobs(post)
        decreases |pre| + |post|, !stopped
      {
        stopped := WriteNext(pre, post);
        if !stopped {
          WriteAllConcat(start, done, pre[..BatchOf(pre)]);
          StaysOnPlan(done, pre, post, ahead, behind);
          done := done + pre[..BatchOf(pre)];
          if BatchOf(pre) < MAX_BATCH_SIZE {
            assert Jobs(post) + [None] == Jobs(post) + [None] + Jobs([]);
            pre, post := post, [];
          } else {
            pre := pre[BatchOf(pre)..];
          }
        }
      }
      EndsOnPlan(done, post, ahead, behind);
    }
  }

  /** `done` written and `pre`, `post` still queued around the sentinel, on the way to the same end. */
  predicate OnPlan(done: seq<Job>, pre: seq<Job>, post: seq<Job>, ahead: seq<Job>, behind: seq<Job>) {
    done + Written(pre, post) == Written(ahead, behind) && Leftover(pre, post) == Leftover(ahead, behind)
  }

  lemma EndsOnPlan(done: seq<Job>, post: seq<Job>, ahead: seq<Job>, behind: seq<Job>)
    requires OnPlan(done, [], post, ahead, behind)
    ensures done == Written(ahead, behind) && post == Leftover(ahead, behind)
  {
    assert done + [] == done;
  }

  lemma ShortBatchStaysOnPlan(done: seq<Job>, pre: seq<Job>, post: seq<Job>, ahead: seq<Job>, behind: seq<Job>)
    requires 0 < |pre| < MAX_BATCH_SIZE && OnPlan(done, pre, post, ahead, behind)
    ensures OnPlan(done + pre, post, [], ahead, behind)
  {
    assert Written(post, []) == post;
    assert (done + pre) + post == done + (pre + post);
  }

  lemma FullBatchWritten(pre: seq<Job>, rest: seq<Job>, post: seq<Job>)
    requires |pre| >= MAX_BATCH_SIZE && rest == pre[MAX_BATCH_SIZE..]
    ensures Written(pre, post) == pre[..MAX_BATCH_SIZE] + Written(rest, post)
    ensures Leftover(pre, post) == Leftover(rest, post)
  {
    assert |pre| % MAX_BATCH_SIZE == |rest| % MAX_BATCH_SIZE;
    assert pre == pre[..MAX_BATCH_SIZE] + rest;
    assert (pre[..MAX_BATCH_SIZE] + rest) + post == pre[..MAX_BATCH_SIZE] + (rest + post);
  }

  lemma FullBatchStaysOnPlan(done: seq<Job>, pre: seq<Job>, post: seq<Job>, ahead: seq<Job>, behind: seq<Job>)
    requires |pre| >= MAX_BATCH_SIZE && OnPlan(done, pre, post, ahead, behind)
    ensures OnPlan(done + pre[..MAX_BATCH_SIZE], pre[MAX_BATCH_SIZE..], post, ahead, behind)
  {
    var batch, rest := pre[..MAX_BATCH_SIZE], pre[MAX_BATCH_SIZE..];
    FullBatchWritten(pre, rest, post);
    assert (done + batch) + Written(rest, post) == done + (batch + Written(rest, post));
  }

  lemma StaysOnPlan(done: seq<Job>, pre: seq<Job>, post: seq<Job>, ahead: seq<Job>, behind: seq<Job>)
    requires pre != [] && OnPlan(done, pre, post, ahead, behind)
    ensures var n := BatchOf(pre);
            if n < MAX_BATCH_SIZE then OnPlan(done + pre[..n], post, [], ahead, behind)
            else OnPlan(done + pre[..n], pre[n..], post, ahead, behind)
  {
    if |pre| < MAX_BATCH_SIZE {
      ShortBatchStaysOnPlan(done, pre, post, ahead, behind);
      assert pre[..BatchOf(pre)] == pre;
    } else {
      FullBatchStaysOnPlan(done, pre, post, ahead, behind);
    }
  }

  /** The rows the next batch takes when `ahead` stand before the sentinel. */
  function BatchOf(ahead: seq<Job>): (n: nat)
    ensures n <= |ahead|
  {
    if |ahead| < MAX_BATCH_SIZE then |ahead| else MAX_BATCH_SIZE
  }

  /** The rows a shutdown writes, by their place relative to the sentinel. */
  function Written(ahead: seq<Job>, behind: seq<Job>): seq<Job> {
    if |ahead| % MAX_BATCH_SIZE == 0 then ahead else ahead + behind
  }

  /** The rows a shutdown leaves in the queue, unwritten. */
  function Leftover(ahead: seq<Job>, behind: seq<Job>): seq<Job> {
    if |ahead| % MAX_BATCH_SIZE == 0 then behind else []
  }

  lemma EverythingIsWritten(rows: seq<Job>)
    ensures Written(rows, []) == rows && Leftover(rows, []) == [] && Jobs([]) == []
  {
    assert rows + [] == rows;
  }

  /** A drain of a queue with `ahead` before the sentinel takes exactly the next batch of them. */
  lemma DrainTakes(queue: seq<Slot>, ahead: seq<Job>, behind: seq<Job>)
    requires queue == Jobs(ahead) + [None] + Jobs(behind)
    ensures var n := BatchOf(ahead);
            && Leading(queue, MAX_BATCH_SIZE) == n
            && queue[0].None? == (ahead == [])
            && (forall s | s in queue[..n] :: s.Some?)
            && Rows(queue[..n]) == ahead[..n]
            && (n < MAX_BATCH_SIZE ==> queue[n + 1..] == Jobs(behind))
            && queue[n..] == Jobs(ahead[n..]) + [None] + Jobs(behind)
  {
    var n := BatchOf(ahead);
    assert forall i | 0 <= i < n :: queue[i] == Some(ahead[i]);
    LeadingIs(queue, MAX_BATCH_SIZE, n);
    assert queue[..n] == Jobs(ahead[..n]);
    RowsOfJobs(ahead[..n]);
  }
}
