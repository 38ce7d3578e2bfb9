/** Pruning the telemetry database: chunked deletes whose outcome does not depend on the chunk size. */
module Retention {
  import opened Numbers

  datatype RowId = RowId(value: int)

  /** A row of a child table: the correlation it refers to, and its timestamp. */
  datatype Row = Row(correlation: string, at: int)

  type Table = map<RowId, Row>

  const DAY_MS: int := 86_400_000

  /** The tables that are pruned; the orders never are. */
  datatype Kind = LatencyEvents | DecisionResults | MarketSnapshots | IndexObservations

  const RETENTION: seq<Kind> := [LatencyEvents, DecisionResults, MarketSnapshots, IndexObservations]

  function DaysKept(kind: Kind): int {
    match kind
    case LatencyEvents => 30
    case DecisionResults => 30
    case MarketSnapshots => 14
    case IndexObservations => 14
  }

  function Cutoff(kind: Kind, now: int): int { now - DaysKept(kind) * DAY_MS }

  type History = map<Kind, Table>

  predicate Complete(history: History) { forall kind: Kind :: kind in history }

  // ---- What a prune leaves: the reference ----------------------------------------------------

  function Kept(table: Table, cutoff: int): Table { map id | id in table && table[id].at >= cutoff :: table[id] }

  function Expired(table: Table, cutoff: int): set<RowId> { set id | id in table && table[id].at < cutoff }

  predicate PrunedAt(before: History, after: History, deleted: map<Kind, nat>, kind: Kind, now: int) {
    && kind in before && kind in after && kind in deleted
    && after[kind] == Kept(before[kind], Cutoff(kind, now)) && deleted[kind] == |before[kind]| - |after[kind]|
  }

  /** Every pruned table keeps exactly the rows its cutoff spares, and the counts say how many went. */
  predicate Pruned(before: History, after: History, deleted: map<Kind, nat>, now: int) {
    forall kind: Kind :: PrunedAt(before, after, deleted, kind, now)
  }

  function References(table: Table): set<string> { set id | id in table :: table[id].correlation }

  /** Every correlation some row, kept or about to be, refers to. */
  function AllReferenced(orders: Table, history: History): set<string>
    requires Complete(history)
  {
    References(orders) + References(history[LatencyEvents]) + References(history[DecisionResults])
    + References(history[MarketSnapshots]) + References(history[IndexObservations])
  }

  /** Some row of a table refers to this correlation. */
  predicate RefersTo(table: Table, correlation: string) {
    exists id | id in table :: table[id].correlation == correlation
  }

  /** A row of some table, order or history, does. */
  predicate Referenced(orders: Table, history: History, correlation: string)
    requires Complete(history)
  {
    RefersTo(orders, correlation) || exists kind: Kind :: RefersTo(history[kind], correlation)
  }

  lemma EveryKindHasARetention(kind: Kind)
    ensures kind in RETENTION
  {
    assert RETENTION[0].LatencyEvents? && RETENTION[1].DecisionResults?;
    assert RETENTION[2].MarketSnapshots? && RETENTION[3].IndexObservations?;
  }

  /** The foreign keys: every row's correlation exists. */
  ghost predicate Intact(orders: Table, history: History, correlations: set<string>)
    requires Complete(history)
  {
    forall correlation | Referenced(orders, history, correlation) :: correlation in correlations
  }

  lemma ReferencesAre(table: Table, correlation: string)
    ensures correlation in References(table) <==> RefersTo(table, correlation)
  {
  }

  lemma AllReferencedAre(orders: Table, history: History, correlation: string)
    requires Complete(history)
    ensures correlation in AllReferenced(orders, history) <==> Referenced(orders, history, correlation)
  {
    ReferencesAre(orders, correlation);
    ReferencesAre(history[LatencyEvents], correlation);
    ReferencesAre(history[DecisionResults], correlation);
    ReferencesAre(history[MarketSnapshots], correlation);
    ReferencesAre(history[IndexObservations], correlation);
    if Referenced(orders, history, correlation) && !RefersTo(orders, correlation) {
      var kind: Kind :| RefersTo(history[kind], correlation);
      EveryKindHasARetention(kind);
    }
  }

  /** The sweep's survivors: the correlations there were that some row still refers to. */
  ghost predicate Swept(orders: Table, history: History, before: set<string>, after: set<string>)
    requires Complete(history)
  {
    forall correlation :: correlation in after <==> correlation in before && Referenced(orders, history, correlation)
  }

  lemma SweptAre(orders: Table, history: History, before: set<string>)
    requires Complete(history)
    ensures Swept(orders, history, before, before * AllReferenced(orders, history))
  {
    forall correlation
      ensures correlation in before * AllReferenced(orders, history)
              <==> correlation in before && Referenced(orders, history, correlation)
    {
      AllReferencedAre(orders, history, correlation);
    }
  }

  lemma KeptAndExpired(table: Table, cutoff: int)
    ensures |Kept(table, cutoff)| + |Expired(table, cutoff)| == |table|
  {
    assert Kept(table, cutoff).Keys == table.Keys - Expired(table, cutoff);
    SplitSet(Expired(table, cutoff), table.Keys);
  }

  lemma NothingExpired(table: Table, cutoff: int)
    requires Expired(table, cutoff) == {}
    ensures Kept(table, cutoff) == table
  {
    assert forall id | id in table :: id !in Expired(table, cutoff);
  }

  lemma ChunkDeleted(table: Table, ids: set<RowId>, cutoff: int)
    requires ids <= Expired(table, cutoff)
    ensures Kept(table - ids, cutoff) == Kept(table, cutoff)
    ensures |ids| + |Expired(table - ids, cutoff)| == |Expired(table, cutoff)|
  {
    assert Expired(table - ids, cutoff) == Expired(table, cutoff) - ids;
    SplitSet(ids, Expired(table, cutoff));
  }

  // ---- One statement -------------------------------------------------------------------------

  method Oldest(table: Table, ids: set<RowId>) returns (oldest: RowId)
    requires ids != {} && ids <= table.Keys
    ensures oldest in ids && forall id | id in ids :: table[oldest].at <= table[id].at
  {
    oldest :| oldest in ids;
    var left := ids - {oldest};
    while left != {}
      invariant left <= ids && oldest in ids
      invariant forall id | id in ids - left :: table[oldest].at <= table[id].at
      decreases |left|
    {
      var id :| id in left;
      if table[id].at < table[oldest].at {
        oldest := id;
      }
      left := left - {id};
    }
  }

  /** What one delete statement selects: the oldest expired rows, at most a chunk of them. */
  method OldestExpired(table: Table, cutoff: int, chunk: nat) returns (ids: set<RowId>)
    ensures ids <= Expired(table, cutoff)
    ensures |ids| == if chunk <= |Expired(table, cutoff)| then chunk else |Expired(table, cutoff)|
    ensures forall i, j | i in ids && j in Expired(table, cutoff) - ids :: table[i].at <= table[j].at
  {
    ids := {};
    var left := Expired(table, cutoff);
    while |ids| < chunk && left != {}
      invariant ids <= Expired(table, cutoff) && left == Expired(table, cutoff) - ids && |ids| <= chunk
      invariant forall i, j | i in ids && j in left :: table[i].at <= table[j].at
      decreases |left|
    {
      var oldest := Oldest(table, left);
      ids, left := ids + {oldest}, left - {oldest};
    }
    SplitSet(ids, Expired(table, cutoff));
  }

  /** What one orphan statement selects: any unreferenced correlations, at most a chunk of them. */
  method SomeOrphans(correlations: set<string>, live: set<string>, chunk: nat) returns (orphans: set<string>)
    ensures orphans <= correlations - live
    ensures |orphans| == if chunk <= |correlations - live| then chunk else |correlations - live|
  {
    orphans := {};
    var left := correlations - live;
    while |orphans| < chunk && left != {}
      invariant orphans <= correlations - live && left == correlations - live - orphans && |orphans| <= chunk
      decreases |left|
    {
      var orphan :| orphan in left;
      orphans, left := orphans + {orphan}, left - {orphan};
    }
    SplitSet(orphans, correlations - live);
  }

  // ---- The loops -----------------------------------------------------------------------------

  /** Delete a table's expired rows a chunk at a time, until a statement deletes none. */
  method DeleteOlderThan(table: Table, cutoff: int, chunk: nat) returns (after: Table, total: nat)
    requires chunk >= 1
    ensures after == Kept(table, cutoff) && total == |table| - |after|
  {
    after, total := table, 0;
    while true
      invariant Kept(after, cutoff) == Kept(table, cutoff)
      invariant total + |Expired(after, cutoff)| == |Expired(table, cutoff)|
      decreases |Expired(after, cutoff)|
    {
      var ids := OldestExpired(after, cutoff, chunk);
      ChunkDeleted(after, ids, cutoff);
      after := after - ids;
      if |ids| == 0 {
        NothingExpired(after, cutoff);
        KeptAndExpired(table, cutoff);
        return;
      }
      total := total + |ids|;
    }
  }

  /** How far a sweep has come: what is referenced is still there, and the count is what is not. */
  predicate Sweeping(before: set<string>, live: set<string>, after: set<string>, total: int) {
    after <= before && before * live <= after && total == |before| - |after|
  }

  lemma ChunkSwept(before: set<string>, live: set<string>, after: set<string>, total: int, orphans: set<string>)
    requires Sweeping(before, live, after, total) && orphans <= after - live
    ensures Sweeping(before, live, after - orphans, total + |orphans|)
    ensures orphans == {} && after - live == {} ==> after == before * live
    ensures orphans != {} ==> |(after - orphans) - live| < |after - live|
  {
    SplitSet(orphans, after);
    SplitSet(orphans, after - live);
    assert (after - orphans) - live == (after - live) - orphans;
  }

  /** Delete the unreferenced correlations a chunk at a time, until a statement deletes none. */
  method DeleteOrphans(correlations: set<string>, live: set<string>, chunk: nat) returns (after: set<string>,
                      total: nat)
    requires chunk >= 1
    ensures after == correlations * live && total == |correlations| - |after|
  {
    after, total := correlations, 0;
    while true
      invariant Sweeping(correlations, live, after, total)
      decreases |after - live|
    {
      var orphans := SomeOrphans(after, live, chunk);
      ChunkSwept(correlations, live, after, total, orphans);
      after := after - orphans;
      if |orphans| == 0 {
        return;
      }
      total := total + |orphans|;
    }
  }

  // ---- The database --------------------------------------------------------------------------

  class Database {
    var orders: Table
    var history: History
    var correlations: set<string>

    constructor (orders: Table, history: History, correlations: set<string>)
      ensures this.orders == orders && this.history == history && this.correlations == correlations
    {
      this.orders, this.history, this.correlations := orders, history, correlations;
    }

    method PruneTables(now: int, chunk: nat) returns (deleted: map<Kind, nat>)
      requires chunk >= 1 && Complete(history)
      modifies this`history
      ensures Pruned(old(history), history, deleted, now)
    {
      deleted := map[];
      ghost var before := history;
      for i := 0 to |RETENTION|
        invariant Complete(history)
        invariant forall k | 0 <= k < i :: PrunedAt(before, history, deleted, RETENTION[k], now)
        invariant forall k | i <= k < |RETENTION| :: history[RETENTION[k]] == before[RETENTION[k]]
      {
        var kind := RETENTION[i];
        var table, total := DeleteOlderThan(history[kind], Cutoff(kind, now), chunk);
        history := history[kind := table];
        deleted := deleted[kind := total];
      }
      AllPruned(before, history, deleted, now);
    }

    /**
     Prune: exactly the rows strictly older than each table's cutoff go, then exactly the correlations
     nothing refers to any more; the orders stay, the counts are those of the rows removed, and no kept
     row loses its correlation. None of it depends on the chunk size.
     */
    method Prune(now: int, chunk: nat) returns (deleted: map<Kind, nat>, orphans: nat)
      requires chunk >= 1 && Complete(history)
      modifies this
      ensures orders == old(orders) && Pruned(old(history), history, deleted, now) && Complete(history)
      ensures Swept(orders, history, old(correlations), correlations)
      ensures orphans == |old(correlations)| - |correlations|
      ensures Intact(old(orders), old(history), old(correlations)) ==> Intact(orders, history, correlations)
    {
      deleted := PruneTables(now, chunk);
      PrunedIsComplete(old(history), history, deleted, now);
      var live := AllReferenced(orders, history);
      correlations, orphans := DeleteOrphans(correlations, live, chunk);
      SweptAre(orders, history, old(correlations));
      StaysIntact(orders, old(history), history, deleted, now, old(correlations), correlations);
    }
  }

  lemma AllPruned(before: History, after: History, deleted: map<Kind, nat>, now: int)
    requires forall k | 0 <= k < |RETENTION| :: PrunedAt(before, after, deleted, RETENTION[k], now)
    ensures Pruned(before, after, deleted, now)
  {
    forall kind: Kind
      ensures PrunedAt(before, after, deleted, kind, now)
    {
      EveryKindHasARetention(kind);
    }
  }

  lemma PrunedIsComplete(before: History, after: History, deleted: map<Kind, nat>, now: int)
    requires Pruned(before, after, deleted, now)
    ensures Complete(after)
  {
    forall kind: Kind
      ensures kind in after
    {
      assert PrunedAt(before, after, deleted, kind, now);
    }
  }

  lemma KindRefersLess(before: History, after: History, deleted: map<Kind, nat>, kind: Kind, now: int,
                       correlation: string)
    requires Pruned(before, after, deleted, now)
    ensures kind in before && kind in after
    ensures RefersTo(after[kind], correlation) ==> RefersTo(before[kind], correlation)
  {
    assert PrunedAt(before, after, deleted, kind, now);
  }

  /** A kept row refers only to what it referred to before, so the sweep spares its correlation. */
  lemma StaysIntact(orders: Table, before: History, after: History, deleted: map<Kind, nat>, now: int,
                    correlations: set<string>, swept: set<string>)
    requires Complete(before) && Complete(after) && Pruned(before, after, deleted, now)
    requires Swept(orders, after, correlations, swept)
    ensures Intact(orders, before, correlations) ==> Intact(orders, after, swept)
  {
    forall correlation | Referenced(orders, after, correlation)
      ensures Referenced(orders, before, correlation)
    {
      if !RefersTo(orders, correlation) {
        var kind: Kind :| RefersTo(after[kind], correlation);
        KindRefersLess(before, after, deleted, kind, now, correlation);
      }
    }
  }

  const THIRTY_DAYS_MS: int := 2_592_000_000
  const FOURTEEN_DAYS_MS: int := 1_209_600_000

  /** These are the rows a table keeps when those up to an age stay. */
  predicate KeepsUpTo(before: Table, after: Table, now: int, age: int) {
    && (forall id | id in after :: id in before && after[id] == before[id])
    && (forall id | id in before :: id in after <==> now - before[id].at <= age)
  }

  /** How long history lasts: thirty days for latencies and decisions, fourteen for prices and index values. */
  lemma PeriodsKept(before: History, after: History, deleted: map<Kind, nat>, now: int)
    requires Complete(before) && Complete(after) && Pruned(before, after, deleted, now)
    ensures KeepsUpTo(before[LatencyEvents], after[LatencyEvents], now, THIRTY_DAYS_MS)
    ensures KeepsUpTo(before[DecisionResults], after[DecisionResults], now, THIRTY_DAYS_MS)
    ensures KeepsUpTo(before[MarketSnapshots], after[MarketSnapshots], now, FOURTEEN_DAYS_MS)
    ensures KeepsUpTo(before[IndexObservations], after[IndexObservations], now, FOURTEEN_DAYS_MS)
  {
    assert PrunedAt(before, after, deleted, LatencyEvents, now);
    assert PrunedAt(before, after, deleted, DecisionResults, now);
    assert PrunedAt(before, after, deleted, MarketSnapshots, now);
    assert PrunedAt(before, after, deleted, IndexObservations, now);
  }
}
