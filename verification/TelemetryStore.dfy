/**
 The telemetry database and its writer's transactions.

 Tables are maps with unique keys (and one sequence for the append-only tables). Each write is a
 total function that yields the new database or fails, and a connection has a committed state and a
 working one.
 */
module TelemetryStore {
  import opened Wrappers
  import opened Orders

  /** The NOT NULL and CHECK constraints of `orders_fired`. */
  predicate Lawful(row: OrderRow) {
    row.correlation.Some? && Cast(row.count) > 0.0 && 0.0 < Cast(row.price) < 1.0
  }

  datatype Table = MarketSnapshots | LatencyEvents | IndexObservations | DecisionResults | AccountSnapshots

  datatype Job =
    | OrderJob(order: OrderRow)
    | ResolutionJob(order: OrderRow)
    | FillJob(fillId: string, fill: string, lawful: bool)
    | HeartbeatJob(process: string, beat: string, lawful: bool)
    | HistoryJob(table: Table, correlation: Option<string>, event: string, lawful: bool)

  datatype Db = Db(
    correlations: set<string>,
    orders: map<string, OrderRow>,
    fills: map<string, string>,
    heartbeats: map<string, string>,
    history: seq<(Table, string)>)

  function Correlated(db: Db, correlation: Option<string>): Db {
    if correlation.Some? then db.(correlations := db.correlations + {correlation.value}) else db
  }

  /** One insert inside the open transaction, or `None` when the database refuses it. */
  function Insert(db: Db, job: Job): Option<Db> {
    match job
    case OrderJob(row) =>
      if Lawful(row) && row.id !in db.orders
      then Some(Correlated(db, row.correlation).(orders := db.orders[row.id := row]))
      else None
    case ResolutionJob(row) =>
      if !Lawful(row) then None
      else
        var kept := if row.id in db.orders then row.(requestedAt := db.orders[row.id].requestedAt) else row;
        Some(Correlated(db, row.correlation).(orders := db.orders[row.id := kept]))
    case FillJob(id, fill, lawful) =>
      if lawful && id !in db.fills then Some(db.(fills := db.fills[id := fill])) else Some(db)
    case HeartbeatJob(process, beat, lawful) =>
      if lawful then Some(db.(heartbeats := db.heartbeats[process := beat])) else None
    case HistoryJob(table, correlation, event, lawful) =>
      if lawful then Some(Correlated(db, correlation).(history := db.history + [(table, event)])) else None
  }

  // ---- Writing row by row: the reference -----------------------------------------------------

  /** One row in its own transaction: written, or dropped without a trace. */
  function WriteOne(db: Db, job: Job): Db {
    Insert(db, job).GetOr(db)
  }

  function WriteAll(db: Db, jobs: seq<Job>): Db {
    if jobs == [] then db else WriteOne(WriteAll(db, jobs[..|jobs| - 1]), jobs[|jobs| - 1])
  }

  /** The jobs that fail on their own, each against the database its predecessors leave. */
  function Lost(db: Db, jobs: seq<Job>): seq<Job> {
    if jobs == [] then []
    else
      var rest := jobs[..|jobs| - 1];
      if Insert(WriteAll(db, rest), jobs[|jobs| - 1]).None? then Lost(db, rest) + [jobs[|jobs| - 1]] else Lost(db, rest)
  }

  lemma {:induction false} WriteAllConcat(db: Db, a: seq<Job>, b: seq<Job>)
    ensures WriteAll(db, a + b) == WriteAll(WriteAll(db, a), b)
    ensures Lost(db, a + b) == Lost(db, a) + Lost(WriteAll(db, a), b)
  {
    if b == [] {
      assert a + b == a;
    } else {
      assert (a + b)[..|a + b| - 1] == a + b[..|b| - 1];
      WriteAllConcat(db, a, b[..|b| - 1]);
    }
  }

  function Flatten(cuts: seq<seq<Job>>): seq<Job> {
    if cuts == [] then [] else Flatten(cuts[..|cuts| - 1]) + cuts[|cuts| - 1]
  }

  /** One batch in one transaction, falling back to row by row when any insert fails. */
  function WriteBatch(db: Db, batch: seq<Job>): Db {
    var whole := InsertAll(db, batch);
    if whole.Some? then whole.value else WriteAll(db, batch)
  }

  function InsertAll(db: Db, jobs: seq<Job>): Option<Db> {
    if jobs == [] then Some(db)
    else
      var rest := InsertAll(db, jobs[..|jobs| - 1]);
      if rest.None? then None else Insert(rest.value, jobs[|jobs| - 1])
  }

  function WriteBatches(db: Db, cuts: seq<seq<Job>>): Db {
    if cuts == [] then db else WriteBatch(WriteBatches(db, cuts[..|cuts| - 1]), cuts[|cuts| - 1])
  }

  // ---- Writing row by row when some rows are struck by a failure outside them ----------------

  function WriteStruck(db: Db, jobs: seq<Job>, struck: set<nat>): Db {
    if jobs == [] then db
    else
      var n := |jobs| - 1;
      var rest := WriteStruck(db, jobs[..n], struck);
      if n in struck then rest else WriteOne(rest, jobs[n])
  }

  function LostStruck(db: Db, jobs: seq<Job>, struck: set<nat>): seq<Job> {
    if jobs == [] then []
    else
      var n := |jobs| - 1;
      var rest := LostStruck(db, jobs[..n], struck);
      if n in struck || Insert(WriteStruck(db, jobs[..n], struck), jobs[n]).None? then rest + [jobs[n]] else rest
  }

  /** The rows no outside failure strikes, in order. */
  function Spared(jobs: seq<Job>, struck: set<nat>): seq<Job> {
    if jobs == [] then []
    else
      var n := |jobs| - 1;
      if n in struck then Spared(jobs[..n], struck) else Spared(jobs[..n], struck) + [jobs[n]]
  }

  lemma {:induction false} NothingStruck(db: Db, jobs: seq<Job>)
    ensures WriteStruck(db, jobs, {}) == WriteAll(db, jobs) && LostStruck(db, jobs, {}) == Lost(db, jobs)
  {
    if jobs != [] {
      NothingStruck(db, jobs[..|jobs| - 1]);
    }
  }

  /** Struck rows leave no trace: the tables are those of writing the spared rows alone, one at a time. */
  lemma {:induction false} StruckRowsLeaveNoTrace(db: Db, jobs: seq<Job>, struck: set<nat>)
    ensures WriteStruck(db, jobs, struck) == WriteAll(db, Spared(jobs, struck))
  {
    if jobs != [] {
      var rest := Spared(jobs[..|jobs| - 1], struck);
      StruckRowsLeaveNoTrace(db, jobs[..|jobs| - 1], struck);
      assert (rest + [jobs[|jobs| - 1]])[..|rest|] == rest;
    }
  }

  /** A batch one of whose rows fails is never inserted whole. */
  lemma {:induction false} FailsInside(db: Db, jobs: seq<Job>, i: nat)
    requires i < |jobs|
    ensures InsertAll(db, jobs[..i + 1]).None? ==> InsertAll(db, jobs).None?
  {
    if i == |jobs| - 1 {
      assert jobs[..i + 1] == jobs;
    } else {
      assert jobs[..|jobs| - 1][..i + 1] == jobs[..i + 1];
      FailsInside(db, jobs[..|jobs| - 1], i);
    }
  }

  lemma {:induction false} WholeOrLost(db: Db, jobs: seq<Job>)
    ensures InsertAll(db, jobs).Some? <==> Lost(db, jobs) == []
    ensures InsertAll(db, jobs).Some? ==> InsertAll(db, jobs).value == WriteAll(db, jobs)
  {
    if jobs != [] {
      WholeOrLost(db, jobs[..|jobs| - 1]);
    }
  }

  /**
   Batching is invisible: however the queue is cut into batches, the final tables are those of
   writing the same rows one at a time.
   */
  lemma {:induction false} BatchingIsInvisible(db: Db, cuts: seq<seq<Job>>)
    ensures WriteBatches(db, cuts) == WriteAll(db, Flatten(cuts))
  {
    if cuts != [] {
      var rest := cuts[..|cuts| - 1];
      var last := cuts[|cuts| - 1];
      BatchingIsInvisible(db, rest);
      WholeOrLost(WriteBatches(db, rest), last);
      WriteAllConcat(db, Flatten(rest), last);
    }
  }

  // ---- Referential integrity and keys --------------------------------------------------------

  /** Each order sits under its own id, is lawful, and has its correlation. */
  predicate Consistent(db: Db) {
    forall id | id in db.orders ::
      && db.orders[id].id == id
      && Lawful(db.orders[id])
      && db.orders[id].correlation.value in db.correlations
  }

  lemma {:induction false} WritesKeepConsistency(db: Db, jobs: seq<Job>)
    requires Consistent(db)
    ensures Consistent(WriteAll(db, jobs))
  {
    if jobs != [] {
      WritesKeepConsistency(db, jobs[..|jobs| - 1]);
    }
  }

  // ---- What the tables end up with -----------------------------------------------------------

  /** The lawful history rows among some jobs, in order. */
  function LawfulHistory(jobs: seq<Job>): seq<(Table, string)> {
    if jobs == [] then []
    else
      var rest, last := LawfulHistory(jobs[..|jobs| - 1]), jobs[|jobs| - 1];
      if last.HistoryJob? && last.lawful then rest + [(last.table, last.event)] else rest
  }

  /** The first lawful fill under an id. */
  function FirstFill(jobs: seq<Job>, id: string): Option<string> {
    if jobs == [] then None
    else if jobs[0].FillJob? && jobs[0].lawful && jobs[0].fillId == id then Some(jobs[0].fill)
    else FirstFill(jobs[1..], id)
  }

  /** The last lawful beat of a process. */
  function LastBeat(jobs: seq<Job>, process: string): Option<string> {
    if jobs == [] then None
    else
      var last := jobs[|jobs| - 1];
      if last.HeartbeatJob? && last.lawful && last.process == process then Some(last.beat)
      else LastBeat(jobs[..|jobs| - 1], process)
  }

  function Read(m: map<string, string>, key: string): Option<string> { if key in m then Some(m[key]) else None }

  lemma {:induction false} FirstFillAppend(jobs: seq<Job>, job: Job, id: string)
    ensures FirstFill(jobs + [job], id)
            == if FirstFill(jobs, id).Some? then FirstFill(jobs, id)
               else if job.FillJob? && job.lawful && job.fillId == id then Some(job.fill) else None
  {
    if jobs == [] {
      assert [job][1..] == [];
      assert jobs + [job] == [job];
    } else {
      assert (jobs + [job])[1..] == jobs[1..] + [job];
      FirstFillAppend(jobs[1..], job, id);
    }
  }

  lemma OneWriteKeepsTheRest(db: Db, job: Job, key: string)
    ensures var after := WriteOne(db, job);
            && after.history == db.history + (if job.HistoryJob? && job.lawful then [(job.table, job.event)] else [])
            && Read(after.fills, key)
               == (if key !in db.fills && job.FillJob? && job.lawful && job.fillId == key then Some(job.fill)
                   else Read(db.fills, key))
            && Read(after.heartbeats, key)
               == (if job.HeartbeatJob? && job.lawful && job.process == key then Some(job.beat)
                   else Read(db.heartbeats, key))
  {
  }

  /** History keeps every lawful row in order, a fill its first lawful row, and a process its last beat. */
  lemma {:induction false} WritesKeepTheRest(db: Db, jobs: seq<Job>, key: string)
    ensures var after := WriteAll(db, jobs);
            && after.history == db.history + LawfulHistory(jobs)
            && Read(after.fills, key) == (if key in db.fills then Some(db.fills[key]) else FirstFill(jobs, key))
            && Read(after.heartbeats, key)
               == (if LastBeat(jobs, key).Some? then LastBeat(jobs, key) else Read(db.heartbeats, key))
  {
    if jobs == [] {
      assert db.history + [] == db.history;
    } else {
      var n := |jobs| - 1;
      WritesKeepTheRest(db, jobs[..n], key);
      OneWriteKeepsTheRest(WriteAll(db, jobs[..n]), jobs[n], key);
      FirstFillAppend(jobs[..n], jobs[n], key);
      assert jobs == jobs[..n] + [jobs[n]];
    }
  }

  /** The correlation a row brings along. */
  function CorrelationOf(job: Job): Option<string> {
    match job
    case OrderJob(row) => row.correlation
    case ResolutionJob(row) => row.correlation
    case FillJob(_, _, _) => None
    case HeartbeatJob(_, _, _) => None
    case HistoryJob(_, correlation, _, _) => correlation
  }

  /** The row at this place brought the correlation and was written. */
  predicate Brings(db: Db, jobs: seq<Job>, k: int, correlation: string) {
    && 0 <= k < |jobs| && CorrelationOf(jobs[k]) == Some(correlation)
    && Insert(WriteAll(db, jobs[..k]), jobs[k]).Some?
  }

  lemma OneMoreBrought(db: Db, jobs: seq<Job>, k: int, correlation: string)
    requires jobs != []
    ensures var n := |jobs| - 1;
            k < n ==> (Brings(db, jobs, k, correlation) <==> Brings(db, jobs[..n], k, correlation))
  {
    if 0 <= k < |jobs| - 1 {
      assert jobs[..|jobs| - 1][..k] == jobs[..k];
    }
  }

  lemma CorrelationsGrow(db: Db, job: Job, correlation: string)
    ensures correlation in WriteOne(db, job).correlations <==>
              || correlation in db.correlations
              || (CorrelationOf(job) == Some(correlation) && Insert(db, job).Some?)
  {
  }

  /** The correlations on record are those there were and those of the rows that were written. */
  lemma {:induction false} CorrelationsAreThoseWritten(db: Db, jobs: seq<Job>, correlation: string)
    ensures correlation in WriteAll(db, jobs).correlations <==>
              correlation in db.correlations || exists k :: Brings(db, jobs, k, correlation)
  {
    if jobs != [] {
      var n := |jobs| - 1;
      CorrelationsAreThoseWritten(db, jobs[..n], correlation);
      CorrelationsGrow(WriteAll(db, jobs[..n]), jobs[n], correlation);
      assert Brings(db, jobs, n, correlation) <==>
          CorrelationOf(jobs[n]) == Some(correlation) && Insert(WriteAll(db, jobs[..n]), jobs[n]).Some?;
      forall k | k < n
        ensures Brings(db, jobs, k, correlation) <==> Brings(db, jobs[..n], k, correlation)
      {
        OneMoreBrought(db, jobs, k, correlation);
      }
    }
  }

  // ---- The writer's connection ---------------------------------------------------------------

  class Connection {
    var committed: Db
    var working: Db

    constructor (db: Db)
      ensures committed == working == db
    {
      committed, working := db, db;
    }

    /** Run one insert in the open transaction; `false` when the database raises. */
    method Execute(job: Job) returns (ok: bool)
      modifies this`working
      ensures ok <==> Insert(old(working), job).Some?
      ensures working == WriteOne(old(working), job)
    {
      var after := Insert(working, job);
      ok := after.Some?;
      if ok {
        working := after.value;
      }
    }

    method Commit()
      modifies this`committed
      ensures committed == working
    {
      committed := working;
    }

    method Rollback()
      modifies this`working
      ensures working == committed
    {
      working := committed;
    }

    /**
     Insert and commit one row; a row that fails is dropped and returned as such. `struck` says that the
     insert or its commit fails for a reason outside the row, such as a lock held for too long.
     */
    method WriteRow(job: Job, struck: bool) returns (dropped: bool)
      requires working == committed
      modifies this
      ensures working == committed == if struck then old(committed) else WriteOne(old(committed), job)
      ensures dropped <==> struck || Insert(old(committed), job).None?
    {
      var ok := Execute(job);
      if ok && !struck {
        Commit();
      } else {
        Rollback();
      }
      dropped := !ok || struck;
    }

    /**
     Write one batch in one transaction, retrying row by row when anything in it fails. `trouble` names a
     statement of the batch (the commit being the last) that fails for a reason outside the rows, and
     `struck` the rows whose retry does. A retry leaves what writing the spared rows one at a time leaves,
     and drops the struck rows and those that fail on their own; nothing struck, nothing else is lost.
     */
    method Write(batch: seq<Job>, trouble: Option<nat>, struck: set<nat>) returns (dropped: seq<Job>)
      requires working == committed
      modifies this
      ensures working == committed
      ensures var whole := InsertAll(old(committed), batch).Some? && (trouble.Some? ==> trouble.value > |batch|);
              && committed == WriteStruck(old(committed), batch, if whole then {} else struck)
              && dropped == LostStruck(old(committed), batch, if whole then {} else struck)
      ensures struck == {} ==> committed == WriteAll(old(committed), batch) && dropped == Lost(old(committed), batch)
    {
      NothingStruck(committed, batch);
      WholeOrLost(committed, batch);
      var whole := InsertBatch(batch, trouble);
      if whole {
        Commit();
        return [];
      }
      Rollback();
      dropped := RetryRows(batch, struck);
    }

    /** Every insert of a batch, in the open transaction; false as soon as a statement fails. */
    method InsertBatch(batch: seq<Job>, trouble: Option<nat>) returns (whole: bool)
      requires working == committed
      modifies this`working
      ensures whole <==> InsertAll(committed, batch).Some? && (trouble.Some? ==> trouble.value > |batch|)
      ensures whole ==> Some(working) == InsertAll(committed, batch)
    {
      for i := 0 to |batch|
        invariant InsertAll(committed, batch[..i]) == Some(working)
        invariant trouble.Some? ==> trouble.value >= i
      {
        assert batch[..i + 1][..i] == batch[..i];
        var ok := Execute(batch[i]);
        if !ok || trouble == Some(i) {
          FailsInside(committed, batch, i);
          return false;
        }
      }
      assert batch[..|batch|] == batch;
      return trouble != Some(|batch|);
    }

    method RetryRows(batch: seq<Job>, struck: set<nat>) returns (dropped: seq<Job>)
      requires working == committed
      modifies this
      ensures working == committed == WriteStruck(old(committed), batch, struck)
      ensures dropped == LostStruck(old(committed), batch, struck)
    {
      ghost var before := committed;
      dropped := [];
      for j := 0 to |batch|
        invariant working == committed == WriteStruck(before, batch[..j], struck)
        invariant dropped == LostStruck(before, batch[..j], struck)
      {
        assert batch[..j + 1][..j] == batch[..j];
        var gone := WriteRow(batch[j], j in struck);
        if gone {
          dropped := dropped + [batch[j]];
        }
      }
      assert batch[..|batch|] == batch;
    }
  }
}
