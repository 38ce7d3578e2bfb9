/**
 The trail as the gate's memory: when each row of `orders_fired` is written about an attempt the gate logged,
 the table a restart reads has, row for row, the logged attempts that left one.
 */
module OrderLog {
  import opened Orders
  import opened GateSpec
  import opened RollingWindow
  import opened TelemetryStore
  import Audit = AuditTrail

  /** The attempts a gate admitted, the order id of each, every order id handed out so far, and the time. */
  datatype Log = Log(ids: seq<string>, entries: seq<Logged>, used: set<string>, clock: int)

  predicate Distinct(ids: seq<string>) { forall i, j | 0 <= i < j < |ids| :: ids[i] != ids[j] }

  predicate LogInv(log: Log) {
    |log.ids| == |log.entries| && Distinct(log.ids) && forall id | id in log.ids :: id in log.used
  }

  predicate RecordsEntry(log: Log, base: nat, row: OrderRow, k: nat) {
    base <= k < |log.ids| == |log.entries| && log.ids[k] == row.id && Records(row, log.entries[k], log.clock)
  }

  /** A rejected row is about no attempt; any other records the one logged under its id, the `base`-th or later. */
  predicate Belongs(log: Log, base: nat, row: OrderRow) {
    if row.status.Rejected? then row.id in log.used && row.id !in log.ids
    else exists k: nat | k < |log.ids| :: RecordsEntry(log, base, row, k)
  }

  predicate AboutOrders(job: Job) { job.OrderJob? || job.ResolutionJob? }

  predicate JobBelongs(log: Log, base: nat, job: Job) {
    AboutOrders(job) ==> Belongs(log, base, job.order) && (job.ResolutionJob? ==> !job.order.status.Rejected?)
  }

  /** What every table written from such jobs keeps. */
  predicate TrailInv(db: Db, log: Log) {
    forall id | id in db.orders :: db.orders[id].id == id && Belongs(log, 0, db.orders[id])
  }

  // ---- The log grows -------------------------------------------------------------------------

  /** Later entries come behind the earlier ones, under ids not used before. */
  predicate Grows(before: Log, after: Log) {
    && before.ids <= after.ids && before.entries <= after.entries && before.used <= after.used
    && before.clock <= after.clock && (forall k | |before.ids| <= k < |after.ids| :: after.ids[k] !in before.used)
  }

  lemma GrowthKeepsRow(before: Log, after: Log, base: nat, row: OrderRow)
    requires LogInv(before) && LogInv(after) && Grows(before, after) && Belongs(before, base, row)
    ensures Belongs(after, base, row)
  {
    if row.status.Rejected? {
      forall k | 0 <= k < |after.ids|
        ensures after.ids[k] != row.id
      {
        if k < |before.ids| {
          assert after.ids[k] == before.ids[k];
        }
      }
    } else {
      var k: nat :| k < |before.ids| && RecordsEntry(before, base, row, k);
      assert after.entries[k] == before.entries[k] && after.ids[k] == before.ids[k];
      assert RecordsEntry(after, base, row, k);
    }
  }

  lemma GrowthKeepsTrail(db: Db, before: Log, after: Log)
    requires LogInv(before) && LogInv(after) && Grows(before, after) && TrailInv(db, before)
    ensures TrailInv(db, after)
  {
    forall id | id in db.orders
      ensures db.orders[id].id == id && Belongs(after, 0, db.orders[id])
    {
      GrowthKeepsRow(before, after, 0, db.orders[id]);
    }
  }

  // ---- Writing keeps the trail ---------------------------------------------------------------

  /** An id names one entry, and no rejected row. */
  lemma EntryOf(log: Log, base: nat, row: OrderRow, k: nat)
    requires LogInv(log) && Belongs(log, base, row) && k < |log.ids| && log.ids[k] == row.id
    ensures !row.status.Rejected? && RecordsEntry(log, base, row, k)
  {
    assert log.ids[k] in log.ids;
    var j: nat :| j < |log.ids| && RecordsEntry(log, base, row, j);
    assert j == k;
  }

  lemma WiderBelongs(log: Log, base: nat, row: OrderRow)
    requires Belongs(log, base, row)
    ensures Belongs(log, 0, row)
  {
    if !row.status.Rejected? {
      var k: nat :| k < |log.ids| && RecordsEntry(log, base, row, k);
      assert RecordsEntry(log, 0, row, k);
    }
  }

  /** A resolution keeps the date of the row it replaces, so it still records the same attempt. */
  lemma RedatedBelongs(log: Log, base: nat, row: OrderRow, prior: OrderRow)
    requires LogInv(log) && Belongs(log, base, row) && !row.status.Rejected?
    requires Belongs(log, 0, prior) && prior.id == row.id
    ensures Belongs(log, 0, row.(requestedAt := prior.requestedAt))
  {
    var k: nat :| k < |log.ids| && RecordsEntry(log, base, row, k);
    EntryOf(log, 0, prior, k);
    assert RecordsEntry(log, 0, row.(requestedAt := prior.requestedAt), k);
  }

  lemma WriteKeepsTrail(db: Db, job: Job, log: Log, base: nat)
    requires LogInv(log) && TrailInv(db, log) && JobBelongs(log, base, job)
    ensures TrailInv(WriteOne(db, job), log)
  {
    var after := WriteOne(db, job);
    forall id | id in after.orders
      ensures after.orders[id].id == id && Belongs(log, 0, after.orders[id])
    {
      if AboutOrders(job) && id == job.order.id && after.orders != db.orders {
        WiderBelongs(log, base, job.order);
        if id in db.orders {
          RedatedBelongs(log, base, job.order, db.orders[id]);
        }
      }
    }
  }

  /** The rows of the first `base` entries are the same in both tables. */
  predicate SameBelow(before: Db, after: Db, ids: seq<string>, base: nat) {
    forall k | 0 <= k < base && k < |ids| :: Audit.Lookup(after, ids[k]) == Audit.Lookup(before, ids[k])
  }

  lemma WriteSparesEarlier(db: Db, job: Job, log: Log, base: nat)
    requires LogInv(log) && JobBelongs(log, base, job)
    ensures SameBelow(db, WriteOne(db, job), log.ids, base)
  {
    forall k | 0 <= k < base && k < |log.ids|
      ensures Audit.Lookup(WriteOne(db, job), log.ids[k]) == Audit.Lookup(db, log.ids[k])
    {
      if AboutOrders(job) && log.ids[k] == job.order.id {
        EntryOf(log, base, job.order, k);
        assert false;
      }
      Audit.OneWrite(db, job, log.ids[k]);
    }
  }

  lemma {:induction false} WritesKeepTrail(db: Db, jobs: seq<Job>, log: Log, base: nat)
    requires LogInv(log) && TrailInv(db, log) && forall job | job in jobs :: JobBelongs(log, base, job)
    ensures TrailInv(WriteAll(db, jobs), log) && SameBelow(db, WriteAll(db, jobs), log.ids, base)
  {
    if jobs != [] {
      var rest, last := jobs[..|jobs| - 1], jobs[|jobs| - 1];
      assert last in jobs;
      WritesKeepTrail(db, rest, log, base);
      WriteKeepsTrail(WriteAll(db, rest), last, log, base);
      WriteSparesEarlier(WriteAll(db, rest), last, log, base);
    }
  }

  /** One of these jobs is a lawful one about this order. */
  predicate HasJob(jobs: seq<Job>, id: string) { exists job | job in jobs :: Audit.About(job, id) }

  /** An order has a row exactly when it had one or a lawful job of it was written. */
  lemma {:induction false} RowExactlyWhen(db: Db, jobs: seq<Job>, id: string)
    ensures id in WriteAll(db, jobs).orders <==> id in db.orders || HasJob(jobs, id)
  {
    if jobs != [] {
      var rest, last := jobs[..|jobs| - 1], jobs[|jobs| - 1];
      RowExactlyWhen(db, rest, id);
      Audit.OneWrite(WriteAll(db, rest), last, id);
      assert jobs == rest + [last];
    }
  }

  lemma RowsAreOfUsedOrders(db: Db, log: Log)
    requires LogInv(log) && TrailInv(db, log)
    ensures forall id | id in db.orders :: id in log.used
  {
    forall id | id in db.orders
      ensures id in log.used
    {
      if !db.orders[id].status.Rejected? {
        var k: nat :| k < |log.ids| && RecordsEntry(log, 0, db.orders[id], k);
        assert log.ids[k] in log.ids;
      }
    }
  }

  // ---- The table a restart reads -------------------------------------------------------------

  /** The rows of the logged attempts that have one, in the order of the log. */
  function TableOf(db: Db, ids: seq<string>): seq<OrderRow> {
    if ids == [] then []
    else
      var id := ids[|ids| - 1];
      TableOf(db, ids[..|ids| - 1]) + if id in db.orders then [db.orders[id]] else []
  }

  /** An entry says it is stored exactly when its order has a row. */
  predicate FlagsAgree(db: Db, log: Log, n: nat) {
    forall k | 0 <= k < n && k < |log.ids| && k < |log.entries| :: log.entries[k].stored <==> log.ids[k] in db.orders
  }

  lemma NotRejectedAppend(rows: seq<OrderRow>, row: OrderRow)
    requires NotRejected(rows) == rows && !row.status.Rejected?
    ensures NotRejected(rows + [row]) == rows + [row]
  {
    assert (rows + [row])[..|rows|] == rows;
  }

  lemma {:induction false} NoneIsRejected(db: Db, log: Log, n: nat)
    requires LogInv(log) && TrailInv(db, log) && n <= |log.ids|
    ensures NotRejected(TableOf(db, log.ids[..n])) == TableOf(db, log.ids[..n])
  {
    if n > 0 {
      var m, id := n - 1, log.ids[n - 1];
      NoneIsRejected(db, log, m);
      assert log.ids[..n][..m] == log.ids[..m];
      if id in db.orders {
        EntryOf(log, 0, db.orders[id], m);
        NotRejectedAppend(TableOf(db, log.ids[..m]), db.orders[id]);
      } else {
        assert TableOf(db, log.ids[..n]) == TableOf(db, log.ids[..m]);
      }
    }
  }

  /** Row for row, the table records the entries that are not lost. */
  predicate Aligned(table: seq<OrderRow>, known: seq<Logged>, now: int) {
    |table| == |known| && forall i | 0 <= i < |table| :: Records(table[i], known[i], now)
  }

  lemma {:induction false} TableIsAligned(db: Db, log: Log, n: nat, life: nat)
    requires LogInv(log) && TrailInv(db, log) && n <= |log.ids| && FlagsAgree(db, log, n)
    requires forall k | 0 <= k < n :: log.entries[k].life < life
    ensures Aligned(TableOf(db, log.ids[..n]), Known(log.entries[..n], life), log.clock)
  {
    if n > 0 {
      var m, id, e := n - 1, log.ids[n - 1], log.entries[n - 1];
      TableIsAligned(db, log, m, life);
      assert log.ids[..n][..m] == log.ids[..m] && log.entries[..n] == log.entries[..m] + [e];
      KnownAppend(log.entries[..m], e, life);
      if id in db.orders {
        EntryOf(log, 0, db.orders[id], m);
      }
    }
  }

  predicate DistinctRows(rows: seq<OrderRow>) { forall i, j | 0 <= i < j < |rows| :: rows[i].id != rows[j].id }

  /** What the warm-start query returns of a table with unique ids: each eligible row once, oldest first. */
  predicate Fetched(db: Db, now: int, rows: seq<OrderRow>) {
    && DistinctRows(rows) && (forall i, j | 0 <= i < j < |rows| :: rows[i].requestedAt <= rows[j].requestedAt)
    && (forall row | row in rows :: Eligible(db, now, row))
    && (forall id | id in db.orders && Eligible(db, now, db.orders[id]) :: db.orders[id] in rows)
  }

  predicate Eligible(db: Db, now: int, row: OrderRow) {
    row.id in db.orders && db.orders[row.id] == row && !row.status.Rejected? && row.requestedAt >= now - DAY_MS
  }

  lemma {:induction false} TableHas(db: Db, ids: seq<string>, row: OrderRow)
    requires forall id | id in db.orders :: db.orders[id].id == id
    ensures row in TableOf(db, ids) <==> row.id in ids && row.id in db.orders && db.orders[row.id] == row
  {
    if ids != [] {
      TableHas(db, ids[..|ids| - 1], row);
      assert ids == ids[..|ids| - 1] + [ids[|ids| - 1]];
    }
  }

  lemma {:induction false} TableIsDistinct(db: Db, ids: seq<string>)
    requires Distinct(ids) && forall id | id in db.orders :: db.orders[id].id == id
    ensures DistinctRows(TableOf(db, ids))
  {
    if ids != [] {
      var rest, id := ids[..|ids| - 1], ids[|ids| - 1];
      TableIsDistinct(db, rest);
      forall row | row in TableOf(db, rest)
        ensures row.id != id
      {
        TableHas(db, rest, row);
      }
    }
  }

  lemma {:induction false} RecentHas(rows: seq<OrderRow>, floor: int, row: OrderRow)
    ensures row in Recent(rows, floor) <==> row in rows && row.requestedAt >= floor
  {
    if rows != [] {
      RecentHas(rows[..|rows| - 1], floor, row);
      assert rows == rows[..|rows| - 1] + [rows[|rows| - 1]];
    }
  }

  lemma {:induction false} RecentIsDistinct(rows: seq<OrderRow>, floor: int)
    requires DistinctRows(rows)
    ensures DistinctRows(Recent(rows, floor))
  {
    if rows != [] {
      var rest, last := rows[..|rows| - 1], rows[|rows| - 1];
      RecentIsDistinct(rest, floor);
      forall row | row in Recent(rest, floor)
        ensures row.id != last.id
      {
        RecentHas(rest, floor, row);
      }
    }
  }

  lemma {:induction false} DistinctCountsOnce(rows: seq<OrderRow>, row: OrderRow)
    requires DistinctRows(rows)
    ensures multiset(rows)[row] == if row in rows then 1 else 0
  {
    if rows != [] {
      var rest, last := rows[..|rows| - 1], rows[|rows| - 1];
      DistinctCountsOnce(rest, row);
      assert rows == rest + [last];
    }
  }

  lemma FetchedIsLogged(db: Db, log: Log, now: int, row: OrderRow)
    requires TrailInv(db, log) && Eligible(db, now, row)
    ensures row in Recent(TableOf(db, log.ids), now - DAY_MS)
  {
    var k: nat :| k < |log.ids| && RecordsEntry(log, 0, row, k);
    assert log.ids[k] == row.id;
    TableHas(db, log.ids, row);
    RecentHas(TableOf(db, log.ids), now - DAY_MS, row);
  }

  lemma LoggedIsEligible(db: Db, log: Log, now: int, row: OrderRow)
    requires LogInv(log) && TrailInv(db, log) && row in Recent(TableOf(db, log.ids), now - DAY_MS)
    ensures Eligible(db, now, row)
  {
    TableHas(db, log.ids, row);
    RecentHas(TableOf(db, log.ids), now - DAY_MS, row);
    var k :| 0 <= k < |log.ids| && log.ids[k] == row.id;
    EntryOf(log, 0, row, k);
  }

  /** The query's answer is a warm-start selection from the logged rows: no other eligible row is there. */
  lemma FetchedIsSelected(db: Db, log: Log, now: int, rows: seq<OrderRow>)
    requires LogInv(log) && TrailInv(db, log) && Fetched(db, now, rows)
    ensures Selected(TableOf(db, log.ids), now, rows)
  {
    NoneIsRejected(db, log, |log.ids|);
    assert log.ids[..|log.ids|] == log.ids;
    var recent := Recent(TableOf(db, log.ids), now - DAY_MS);
    TableIsDistinct(db, log.ids);
    RecentIsDistinct(TableOf(db, log.ids), now - DAY_MS);
    forall row: OrderRow
      ensures multiset(rows)[row] == multiset(recent)[row]
    {
      if row in rows {
        FetchedIsLogged(db, log, now, row);
      }
      if row in recent {
        LoggedIsEligible(db, log, now, row);
      }
      DistinctCountsOnce(rows, row);
      DistinctCountsOnce(recent, row);
    }
  }

  /** The table of a restart, read off what the telemetry holds: it has the rows of exactly the attempts not lost. */
  lemma TrailIsReadBack(db: Db, log: Log, life: nat, rows: seq<OrderRow>)
    requires LogInv(log) && TrailInv(db, log) && FlagsAgree(db, log, |log.ids|) && Fetched(db, log.clock, rows)
    requires forall k | 0 <= k < |log.ids| :: log.entries[k].life < life
    ensures Selected(TableOf(db, log.ids), log.clock, rows)
    ensures Mirrors(TableOf(db, log.ids), Known(log.entries, life), log.clock)
  {
    assert log.ids[..|log.ids|] == log.ids && log.entries[..|log.ids|] == log.entries;
    NoneIsRejected(db, log, |log.ids|);
    TableIsAligned(db, log, |log.ids|, life);
    FetchedIsSelected(db, log, log.clock, rows);
  }

  /** A later table has the earlier one at its front, as long as no earlier row changed. */
  lemma {:induction false} TableExtends(before: Db, after: Db, ids: seq<string>, base: nat)
    requires base <= |ids| && SameBelow(before, after, ids, base)
    ensures TableOf(before, ids[..base]) <= TableOf(after, ids)
    decreases |ids|
  {
    if base < |ids| {
      var rest := ids[..|ids| - 1];
      assert rest[..base] == ids[..base];
      TableExtends(before, after, rest, base);
    } else {
      assert ids[..base] == ids;
      SameTables(before, after, ids);
    }
  }

  lemma {:induction false} SameTables(before: Db, after: Db, ids: seq<string>)
    requires SameBelow(before, after, ids, |ids|)
    ensures TableOf(before, ids) == TableOf(after, ids)
  {
    if ids != [] {
      var n := |ids| - 1;
      assert Audit.Lookup(after, ids[n]) == Audit.Lookup(before, ids[n]);
      SameTables(before, after, ids[..n]);
    }
  }
}
