/**
 Candidate generation for cross-venue matching: an inverted index over rare tokens, which must retrieve
 what a scan of the whole other venue would.
 */
module TokenIndex {
  import opened Numbers
  import opened Wrappers

  const SEED_TOKENS: nat := 6

  /** A market and its tokens. */
  datatype Entry = Entry(id: string, tokens: seq<string>)

  type Weights = map<string, real>

  function WeightOf(weights: Weights, token: string): real { Get(weights, token, 1.0) }

  // ---- Ranking -------------------------------------------------------------------------------

  /** Text order, character by character. */
  predicate Precedes(a: string, b: string) {
    b != [] && (a == [] || a[0] < b[0] || (a[0] == b[0] && Precedes(a[1..], b[1..])))
  }

  /** Something scored, to be ranked by score, best first, and then by name. */
  datatype Item = Item(score: real, name: string)

  predicate Before(a: Item, b: Item) { a.score > b.score || (a.score == b.score && Precedes(a.name, b.name)) }

  lemma {:induction false} PrecedesIsTotal(a: string, b: string)
    ensures Precedes(a, b) || Precedes(b, a) || a == b
    ensures !(Precedes(a, b) && Precedes(b, a)) && !Precedes(a, a)
  {
    if a != [] {
      PrecedesIsTotal(a[1..], a[1..]);
      if b != [] {
        PrecedesIsTotal(a[1..], b[1..]);
        assert a == [a[0]] + a[1..] && b == [b[0]] + b[1..];
      }
    }
  }

  lemma {:induction false} PrecedesIsTransitive(a: string, b: string, c: string)
    requires Precedes(a, b) && Precedes(b, c)
    ensures Precedes(a, c)
  {
    if a != [] && a[0] == b[0] && b[0] == c[0] {
      PrecedesIsTransitive(a[1..], b[1..], c[1..]);
    }
  }

  lemma BeforeIsTotal(a: Item, b: Item)
    ensures Before(a, b) || Before(b, a) || a == b
    ensures !(Before(a, b) && Before(b, a))
  {
    PrecedesIsTotal(a.name, b.name);
  }

  lemma BeforeIsTransitive(a: Item, b: Item, c: Item)
    requires Before(a, b) && Before(b, c)
    ensures Before(a, c)
  {
    if a.score == b.score && b.score == c.score {
      PrecedesIsTransitive(a.name, b.name, c.name);
    }
  }

  function Insert(x: Item, s: seq<Item>): seq<Item> {
    if s == [] || Before(x, s[0]) then [x] + s else [s[0]] + Insert(x, s[1..])
  }

  /** The items, best first. */
  function Ranked(s: seq<Item>): seq<Item> {
    if s == [] then [] else Insert(s[|s| - 1], Ranked(s[..|s| - 1]))
  }

  predicate Ascending(s: seq<Item>) { forall i, j | 0 <= i < j < |s| :: Before(s[i], s[j]) }

  predicate NoRepeats(s: seq<Item>) { forall i, j | 0 <= i < j < |s| :: s[i] != s[j] }

  lemma InFront(x: Item, s: seq<Item>)
    requires Ascending(s) && forall y | y in s :: Before(x, y)
    ensures Ascending([x] + s)
  {
    var all := [x] + s;
    forall i, j | 0 <= i < j < |all|
      ensures Before(all[i], all[j])
    {
      assert all[j] == s[j - 1] && s[j - 1] in s;
      if i > 0 {
        assert all[i] == s[i - 1];
      }
    }
  }

  lemma BeforeAll(x: Item, s: seq<Item>, y: Item)
    requires Ascending(s) && s != [] && Before(x, s[0]) && y in s
    ensures Before(x, y)
  {
    if y != s[0] {
      var j :| 0 <= j < |s| && s[j] == y;
      BeforeIsTransitive(x, s[0], s[j]);
    }
  }

  lemma {:induction false} InsertKeepsOrder(x: Item, s: seq<Item>)
    requires Ascending(s) && x !in s
    ensures Ascending(Insert(x, s))
    ensures forall y :: y in Insert(x, s) <==> y == x || y in s
    ensures |Insert(x, s)| == |s| + 1
  {
    if s == [] {
    } else if Before(x, s[0]) {
      forall y | y in s
        ensures Before(x, y)
      {
        BeforeAll(x, s, y);
      }
      InFront(x, s);
    } else {
      BeforeIsTotal(x, s[0]);
      assert s == [s[0]] + s[1..];
      InsertKeepsOrder(x, s[1..]);
      var rest := Insert(x, s[1..]);
      forall y | y in rest
        ensures Before(s[0], y)
      {
        if y != x {
          var j :| 0 <= j < |s[1..]| && s[1..][j] == y;
          assert y == s[j + 1];
        }
      }
      InFront(s[0], rest);
    }
  }

  /** Ranking sorts: same items, in order. */
  lemma {:induction false} RankedIsSorted(s: seq<Item>)
    requires NoRepeats(s)
    ensures Ascending(Ranked(s)) && |Ranked(s)| == |s|
    ensures forall y :: y in Ranked(s) <==> y in s
  {
    if s != [] {
      var rest := s[..|s| - 1];
      assert s == rest + [s[|s| - 1]];
      RankedIsSorted(rest);
      InsertKeepsOrder(s[|s| - 1], Ranked(rest));
    }
  }

  lemma FirstIsBest(a: seq<Item>, b: seq<Item>)
    requires Ascending(a) && Ascending(b) && a != [] && b != []
    requires forall y :: y in a <==> y in b
    ensures a[0] == b[0]
  {
    assert a[0] in b && b[0] in a;
    var i :| 0 <= i < |b| && b[i] == a[0];
    var j :| 0 <= j < |a| && a[j] == b[0];
    BeforeIsTotal(a[0], b[0]);
  }

  lemma BehindTheFirst(a: seq<Item>, y: Item)
    requires Ascending(a) && a != []
    ensures y in a[1..] <==> y in a && y != a[0]
  {
    BeforeIsTotal(a[0], a[0]);
    assert forall j | 1 <= j < |a| :: a[1..][j - 1] == a[j];
  }

  lemma BothOrNeitherEmpty(a: seq<Item>, b: seq<Item>)
    requires forall y :: y in a <==> y in b
    ensures a == [] <==> b == []
  {
    if a != [] {
      assert a[0] in a;
    }
    if b != [] {
      assert b[0] in b;
    }
  }

  /** There is only one way to rank a set of items. */
  lemma {:induction false} RankingIsUnique(a: seq<Item>, b: seq<Item>)
    requires Ascending(a) && Ascending(b)
    requires forall y :: y in a <==> y in b
    ensures a == b
  {
    BothOrNeitherEmpty(a, b);
    if a != [] {
      FirstIsBest(a, b);
      assert a == [a[0]] + a[1..] && b == [b[0]] + b[1..];
      forall y
        ensures y in a[1..] <==> y in b[1..]
      {
        BehindTheFirst(a, y);
        BehindTheFirst(b, y);
      }
      RankingIsUnique(a[1..], b[1..]);
    }
  }

  /** Python ranks sets and dictionaries in whatever order they iterate; the outcome does not depend on it. */
  lemma RankingIgnoresOrder(a: seq<Item>, b: seq<Item>)
    requires NoRepeats(a) && NoRepeats(b)
    requires forall y :: y in a <==> y in b
    ensures Ranked(a) == Ranked(b)
  {
    RankedIsSorted(a);
    RankedIsSorted(b);
    RankingIsUnique(Ranked(a), Ranked(b));
  }

  // ---- What the index holds ------------------------------------------------------------------

  /** The markets that contain a token, in order. */
  function Containing(entries: seq<Entry>, token: string): seq<Entry> {
    if entries == [] then []
    else
      var rest := Containing(entries[..|entries| - 1], token);
      if token in entries[|entries| - 1].tokens then rest + [entries[|entries| - 1]] else rest
  }

  function AllTokens(entries: seq<Entry>): set<string> {
    set i, k | 0 <= i < |entries| && 0 <= k < |entries[i].tokens| :: entries[i].tokens[k]
  }

  /** Tokens in more than 8% of the markets narrow nothing and are left out. */
  function DocumentCeiling(markets: nat): (ceiling: nat)
    ensures ceiling >= 1 && 8 * markets < 100 * (ceiling + 1)
    ensures ceiling == 1 || 100 * ceiling <= 8 * markets
  {
    if markets * 8 / 100 >= 1 then markets * 8 / 100 else 1
  }

  /** A token narrows a search when one market has it, or no more than eight in a hundred. */
  predicate Discriminates(entries: seq<Entry>, token: string): (narrows: bool)
    ensures narrows <==>
              |Containing(entries, token)| <= 1 || 100 * |Containing(entries, token)| <= 8 * |entries|
  {
    |Containing(entries, token)| <= DocumentCeiling(|entries|)
  }

  ghost function TooCommon(entries: seq<Entry>): set<string> {
    set t | t in AllTokens(entries) && !Discriminates(entries, t)
  }

  type Index = map<string, seq<Entry>>

  /** What an index holds of a token: all the markets that contain it, if it discriminates. */
  ghost predicate IndexedAt(index: Index, t: string, entries: seq<Entry>) {
    && (t in index <==> t in AllTokens(entries) && Discriminates(entries, t))
    && (t in index ==> index[t] == Containing(entries, t))
  }

  /** What an index must hold: exactly the discriminating tokens, each with all the markets that contain it. */
  ghost predicate Indexes(index: Index, entries: seq<Entry>) {
    forall t :: IndexedAt(index, t, entries)
  }

  lemma {:induction false} ContainingIs(entries: seq<Entry>, token: string)
    ensures forall e :: e in Containing(entries, token) <==> e in entries && token in e.tokens
  {
    if entries != [] {
      var rest := entries[..|entries| - 1];
      assert entries == rest + [entries[|entries| - 1]];
      ContainingIs(rest, token);
    }
  }

  lemma InAllTokens(entries: seq<Entry>, token: string)
    ensures token in AllTokens(entries) <==> Containing(entries, token) != []
  {
    ContainingIs(entries, token);
    if token in AllTokens(entries) {
      var i, k :| 0 <= i < |entries| && 0 <= k < |entries[i].tokens| && entries[i].tokens[k] == token;
      assert entries[i] in Containing(entries, token);
    }
    if Containing(entries, token) != [] {
      var e := Containing(entries, token)[0];
      assert e in entries && token in e.tokens;
      var i :| 0 <= i < |entries| && entries[i] == e;
      var k :| 0 <= k < |e.tokens| && e.tokens[k] == token;
    }
  }

  /** The postings of one token after whole markets and part of the next one's distinct tokens. */
  predicate PostedAt(postings: Index, t: string, entries: seq<Entry>, next: Option<Entry>, done: set<string>) {
    var full := Containing(entries, t) + if next.Some? && t in done then [next.value] else [];
    (t in postings <==> full != []) && (t in postings ==> postings[t] == full)
  }

  ghost predicate Posted(postings: Index, entries: seq<Entry>, next: Option<Entry>, done: set<string>) {
    forall t :: PostedAt(postings, t, entries, next, done)
  }

  lemma PostOne(postings: Index, before: seq<Entry>, entry: Entry, done: set<string>, token: string)
    requires Posted(postings, before, Some(entry), done) && token !in done
    ensures Posted(postings[token := Get(postings, token, []) + [entry]], before, Some(entry), done + {token})
  {
    var after := postings[token := Get(postings, token, []) + [entry]];
    forall t
      ensures PostedAt(after, t, before, Some(entry), done + {token})
    {
      assert PostedAt(postings, t, before, Some(entry), done);
    }
  }

  lemma StartPosting(postings: Index, before: seq<Entry>, entry: Entry)
    requires Posted(postings, before, None, {})
    ensures Posted(postings, before, Some(entry), {})
  {
    forall t
      ensures PostedAt(postings, t, before, Some(entry), {})
    {
      assert PostedAt(postings, t, before, None, {});
    }
  }

  lemma EndPosting(postings: Index, before: seq<Entry>, entry: Entry, all: set<string>)
    requires Posted(postings, before, Some(entry), all) && forall t :: t in all <==> t in entry.tokens
    ensures Posted(postings, before + [entry], None, {})
  {
    assert (before + [entry])[..|before|] == before;
    forall t
      ensures PostedAt(postings, t, before + [entry], None, {})
    {
      assert PostedAt(postings, t, before, Some(entry), all);
    }
  }

  method PostTokens(postings: Index, ghost before: seq<Entry>, entry: Entry) returns (after: Index)
    requires Posted(postings, before, None, {})
    ensures Posted(after, before + [entry], None, {})
  {
    after := postings;
    ghost var done: set<string> := {};
    var left := set t | t in entry.tokens;
    ghost var all := left;
    StartPosting(postings, before, entry);
    while left != {}
      invariant done + left == all && done !! left
      invariant Posted(after, before, Some(entry), done)
      decreases |left|
    {
      var token :| token in left;
      PostOne(after, before, entry, done, token);
      after := after[token := Get(after, token, []) + [entry]];
      left, done := left - {token}, done + {token};
    }
    EndPosting(after, before, entry, all);
  }

  /** Build the inverted index, counting the tokens dropped as too common. */
  method BuildIndex(entries: seq<Entry>) returns (index: Index, dropped: nat)
    ensures Indexes(index, entries)
    ensures dropped == |TooCommon(entries)|
  {
    var postings: Index := map[];
    for i := 0 to |entries|
      invariant Posted(postings, entries[..i], None, {})
    {
      postings := PostTokens(postings, entries[..i], entries[i]);
      assert entries[..i + 1] == entries[..i] + [entries[i]];
    }
    assert entries[..|entries|] == entries;
    var ceiling := DocumentCeiling(|entries|);
    index := map t | t in postings && |postings[t]| <= ceiling :: postings[t];
    PostingsAreComplete(postings, entries);
    forall t
      ensures IndexedAt(index, t, entries)
    {
    }
    assert index.Keys <= postings.Keys;
    SplitSet(index.Keys, postings.Keys);
    assert postings.Keys - index.Keys == TooCommon(entries);
    dropped := |postings| - |index|;
  }

  lemma PostingsAreComplete(postings: Index, entries: seq<Entry>)
    requires Posted(postings, entries, None, {})
    ensures postings.Keys == AllTokens(entries)
    ensures forall t | t in postings :: postings[t] == Containing(entries, t)
  {
    forall t
      ensures t in postings <==> t in AllTokens(entries)
      ensures t in postings ==> postings[t] == Containing(entries, t)
    {
      InAllTokens(entries, t);
      assert PostedAt(postings, t, entries, None, {});
    }
  }

  // ---- Retrieval -----------------------------------------------------------------------------

  function Distinct(tokens: seq<string>): seq<string> {
    if tokens == [] then []
    else
      var n := |tokens| - 1;
      if tokens[n] in tokens[..n] then Distinct(tokens[..n]) else Distinct(tokens[..n]) + [tokens[n]]
  }

  function Weighted(tokens: seq<string>, weights: Weights): seq<Item> {
    seq(|tokens|, i requires 0 <= i < |tokens| => Item(WeightOf(weights, tokens[i]), tokens[i]))
  }

  /** The market's heaviest distinct tokens, ties broken by the text. */
  function Seeds(tokens: seq<string>, weights: Weights): seq<Item> {
    var ranked := Ranked(Weighted(Distinct(tokens), weights));
    if |ranked| <= SEED_TOKENS then ranked else ranked[..SEED_TOKENS]
  }

  /** A seed points at a market that contains it, unless too many do. */
  predicate PointsAt(seed: Item, e: Entry, entries: seq<Entry>) {
    seed.name in e.tokens && Discriminates(entries, seed.name)
  }

  ghost predicate Retrieved(e: Entry, seeds: seq<Item>, entries: seq<Entry>) {
    exists seed | seed in seeds :: PointsAt(seed, e, entries)
  }

  /** The weight of all seeds that point at a market. */
  function Score(e: Entry, seeds: seq<Item>, entries: seq<Entry>): real {
    if seeds == [] then 0.0
    else
      var n := |seeds| - 1;
      Score(e, seeds[..n], entries) + if PointsAt(seeds[n], e, entries) then seeds[n].score else 0.0
  }

  function Scored(e: Entry, seeds: seq<Item>, entries: seq<Entry>): Item { Item(Score(e, seeds, entries), e.id) }

  /** What a scan of every market would answer: the best `k` retrieved ones, in order. */
  ghost predicate IsTop(result: seq<Entry>, k: nat, seeds: seq<Item>, entries: seq<Entry>) {
    && |result| <= k
    && (forall e | e in result :: e in entries && Retrieved(e, seeds, entries))
    && (forall i, j | 0 <= i < j < |result| ::
          Before(Scored(result[i], seeds, entries), Scored(result[j], seeds, entries)))
    && (forall e | e in entries && Retrieved(e, seeds, entries) && e !in result ::
          |result| == k && forall r | r in result :: Before(Scored(r, seeds, entries), Scored(e, seeds, entries)))
  }

  predicate DistinctIds(entries: seq<Entry>) {
    forall i, j | 0 <= i < j < |entries| :: entries[i].id != entries[j].id
  }

  type Hits = map<string, (Entry, real)>

  predicate Names(hits: Hits, id: string, entries: seq<Entry>) {
    id in hits && hits[id].0 in entries && hits[id].0.id == id
  }

  predicate Present(hits: Hits, e: Entry) { e.id in hits }

  /** A recorded hit: a market some seed points at, with its score so far. */
  ghost predicate HitIsRight(hits: Hits, id: string, seeds: seq<Item>, entries: seq<Entry>) {
    id in hits ==>
      && Names(hits, id, entries) && Retrieved(hits[id].0, seeds, entries)
      && hits[id].1 == Score(hits[id].0, seeds, entries)
  }

  /** Hits after some seeds: exactly the markets they point at. */
  ghost predicate HitsAfter(hits: Hits, seeds: seq<Item>, entries: seq<Entry>) {
    && (forall id :: HitIsRight(hits, id, seeds, entries))
    && (forall e | e in entries && Retrieved(e, seeds, entries) :: Present(hits, e))
  }

  /** A recorded hit part-way through the postings of one more seed. */
  ghost predicate HitIsUnderway(hits: Hits, id: string, seeds: seq<Item>, seed: Item, done: seq<Entry>,
                                entries: seq<Entry>)
  {
    id in hits ==>
      && Names(hits, id, entries)
      && (hits[id].0 in done || Retrieved(hits[id].0, seeds, entries))
      && hits[id].1 == Score(hits[id].0, seeds, entries) + if hits[id].0 in done then seed.score else 0.0
  }

  ghost predicate HitsWithin(hits: Hits, seeds: seq<Item>, seed: Item, done: seq<Entry>, entries: seq<Entry>) {
    && (forall id :: HitIsUnderway(hits, id, seeds, seed, done, entries))
    && (forall e | e in entries && (Retrieved(e, seeds, entries) || e in done) :: Present(hits, e))
  }

  lemma {:induction false} UnretrievedScoresNothing(e: Entry, seeds: seq<Item>, entries: seq<Entry>)
    requires !Retrieved(e, seeds, entries)
    ensures Score(e, seeds, entries) == 0.0
  {
    if seeds != [] {
      assert seeds[|seeds| - 1] in seeds;
      assert forall s | s in seeds[..|seeds| - 1] :: s in seeds;
      UnretrievedScoresNothing(e, seeds[..|seeds| - 1], entries);
    }
  }

  lemma SameIdSameEntry(entries: seq<Entry>, a: Entry, b: Entry)
    requires DistinctIds(entries) && a in entries && b in entries && a.id == b.id
    ensures a == b
  {
    var i :| 0 <= i < |entries| && entries[i] == a;
    var j :| 0 <= j < |entries| && entries[j] == b;
    assert i == j;
  }

  lemma {:induction false} ContainingIsDistinct(entries: seq<Entry>, token: string)
    requires DistinctIds(entries)
    ensures DistinctIds(Containing(entries, token))
  {
    if entries != [] {
      var n := |entries| - 1;
      ContainingIsDistinct(entries[..n], token);
      ContainingIs(entries[..n], token);
      assert forall e | e in entries[..n] :: e.id != entries[n].id;
      var rest := Containing(entries[..n], token);
      assert forall i | 0 <= i < |rest| :: rest[i] in rest;
    }
  }

  /** Add one posting's weight to its market. */
  method AddHit(hits: Hits, e: Entry, seeds: seq<Item>, seed: Item, ghost done: seq<Entry>, ghost entries: seq<Entry>)
    returns (after: Hits)
    requires DistinctIds(entries) && e in entries && e !in done && forall d | d in done :: d in entries
    requires HitsWithin(hits, seeds, seed, done, entries)
    ensures HitsWithin(after, seeds, seed, done + [e], entries)
  {
    var accumulated := (if e.id in hits then hits[e.id].1 else 0.0) + seed.score;
    after := hits[e.id := (e, accumulated)];
    FirstHit(hits, e, seeds, seed, done, entries);
    forall id
      ensures HitIsUnderway(after, id, seeds, seed, done + [e], entries)
    {
      if id != e.id {
        assert HitIsUnderway(hits, id, seeds, seed, done, entries);
      }
    }
    forall d | d in entries && (Retrieved(d, seeds, entries) || d in done + [e])
      ensures Present(after, d)
    {
      assert d == e || Present(hits, d);
    }
  }

  /** A market's score before a posting: what is recorded, or nothing. */
  lemma FirstHit(hits: Hits, e: Entry, seeds: seq<Item>, seed: Item, done: seq<Entry>, entries: seq<Entry>)
    requires DistinctIds(entries) && e in entries && e !in done
    requires HitsWithin(hits, seeds, seed, done, entries)
    ensures (if e.id in hits then hits[e.id].1 else 0.0) == Score(e, seeds, entries)
  {
    if e.id in hits {
      assert HitIsUnderway(hits, e.id, seeds, seed, done, entries);
      SameIdSameEntry(entries, e, hits[e.id].0);
    } else {
      assert !Present(hits, e);
      UnretrievedScoresNothing(e, seeds, entries);
    }
  }

  lemma RetrievedByOneMore(e: Entry, seeds: seq<Item>, seed: Item, entries: seq<Entry>)
    ensures Retrieved(e, seeds + [seed], entries) <==> Retrieved(e, seeds, entries) || PointsAt(seed, e, entries)
  {
    assert forall s :: s in seeds + [seed] <==> s in seeds || s == seed;
    assert seed in seeds + [seed];
  }

  lemma SeedDone(hits: Hits, seeds: seq<Item>, seed: Item, postings: seq<Entry>, entries: seq<Entry>)
    requires postings == if Discriminates(entries, seed.name) then Containing(entries, seed.name) else []
    requires HitsWithin(hits, seeds, seed, postings, entries)
    ensures HitsAfter(hits, seeds + [seed], entries)
  {
    ContainingIs(entries, seed.name);
    assert (seeds + [seed])[..|seeds|] == seeds;
    forall id
      ensures HitIsRight(hits, id, seeds + [seed], entries)
    {
      assert HitIsUnderway(hits, id, seeds, seed, postings, entries);
      if id in hits {
        RetrievedByOneMore(hits[id].0, seeds, seed, entries);
      }
    }
    forall e | e in entries && Retrieved(e, seeds + [seed], entries)
      ensures Present(hits, e)
    {
      RetrievedByOneMore(e, seeds, seed, entries);
    }
  }

  /** The postings of one token, each market in them once. */
  ghost predicate PostingsOf(postings: seq<Entry>, token: string, entries: seq<Entry>) {
    && postings == (if Discriminates(entries, token) then Containing(entries, token) else [])
    && (forall e | e in postings :: e in entries)
    && (forall i, j | 0 <= i < j < |postings| :: postings[i] != postings[j])
  }

  lemma LookupIsPostings(index: Index, token: string, entries: seq<Entry>)
    requires DistinctIds(entries) && Indexes(index, entries)
    ensures PostingsOf(Get(index, token, []), token, entries)
  {
    assert IndexedAt(index, token, entries);
    InAllTokens(entries, token);
    ContainingIs(entries, token);
    ContainingIsDistinct(entries, token);
  }

  method AddPostings(hits: Hits, postings: seq<Entry>, seeds: seq<Item>, seed: Item, ghost entries: seq<Entry>)
    returns (after: Hits)
    requires DistinctIds(entries) && HitsWithin(hits, seeds, seed, [], entries)
    requires PostingsOf(postings, seed.name, entries)
    ensures HitsWithin(after, seeds, seed, postings, entries)
  {
    after := hits;
    ghost var done: seq<Entry> := [];
    for j := 0 to |postings|
      invariant done == postings[..j]
      invariant HitsWithin(after, seeds, seed, done, entries)
    {
      var e := postings[j];
      NotYetDone(postings, seed.name, entries, j);
      after := AddHit(after, e, seeds, seed, done, entries);
      done := done + [e];
    }
    assert done == postings;
  }

  lemma NotYetDone(postings: seq<Entry>, token: string, entries: seq<Entry>, j: nat)
    requires PostingsOf(postings, token, entries) && j < |postings|
    ensures postings[j] in entries && postings[j] !in postings[..j]
    ensures forall d | d in postings[..j] :: d in entries
  {
    assert postings[j] in postings;
  }

  method AddSeed(hits: Hits, seeds: seq<Item>, seed: Item, index: Index,
                 ghost entries: seq<Entry>) returns (after: Hits)
    requires DistinctIds(entries) && Indexes(index, entries) && HitsAfter(hits, seeds, entries)
    ensures HitsAfter(after, seeds + [seed], entries)
  {
    var postings := Get(index, seed.name, []);
    LookupIsPostings(index, seed.name, entries);
    StartWithin(hits, seeds, seed, entries);
    after := AddPostings(hits, postings, seeds, seed, entries);
    SeedDone(after, seeds, seed, postings, entries);
  }

  lemma StartWithin(hits: Hits, seeds: seq<Item>, seed: Item, entries: seq<Entry>)
    requires HitsAfter(hits, seeds, entries)
    ensures HitsWithin(hits, seeds, seed, [], entries)
  {
    forall id
      ensures HitIsUnderway(hits, id, seeds, seed, [], entries)
    {
      assert HitIsRight(hits, id, seeds, entries);
    }
  }

  // ---- The answer ----------------------------------------------------------------------------

  /** The scores of all hits, in whatever order the dictionary yields them. */
  method Values(hits: Hits) returns (items: seq<Item>)
    ensures NoRepeats(items) && forall y :: y in items <==> y.name in hits && y.score == hits[y.name].1
  {
    items := [];
    var left := hits.Keys;
    while left != {}
      invariant left <= hits.Keys && NoRepeats(items)
      invariant forall y :: y in items <==> y.name in hits && y.name !in left && y.score == hits[y.name].1
      decreases |left|
    {
      var id :| id in left;
      items := items + [Item(hits[id].1, id)];
      left := left - {id};
    }
  }

  lemma RankedHitsAreTop(hits: Hits, ranked: seq<Item>, result: seq<Entry>, k: nat, seeds: seq<Item>,
                         entries: seq<Entry>)
    requires DistinctIds(entries) && HitsAfter(hits, seeds, entries) && Ascending(ranked)
    requires forall y :: y in ranked <==> y.name in hits && y.score == hits[y.name].1
    requires |result| == if k <= |ranked| then k else |ranked|
    requires forall i | 0 <= i < |result| :: ranked[i].name in hits && result[i] == hits[ranked[i].name].0
    ensures IsTop(result, k, seeds, entries)
  {
    forall i | 0 <= i < |result|
      ensures result[i] in entries && Retrieved(result[i], seeds, entries)
      ensures Scored(result[i], seeds, entries) == ranked[i]
    {
      assert ranked[i] in ranked;
      assert HitIsRight(hits, ranked[i].name, seeds, entries);
    }
    assert forall i | 0 <= i < |result| :: result[i] in result;
    forall e | e in entries && Retrieved(e, seeds, entries) && e !in result
      ensures |result| == k && forall r | r in result :: Before(Scored(r, seeds, entries), Scored(e, seeds, entries))
    {
      assert Present(hits, e) && HitIsRight(hits, e.id, seeds, entries);
      SameIdSameEntry(entries, e, hits[e.id].0);
      var item := Scored(e, seeds, entries);
      assert item in ranked;
      var i :| 0 <= i < |ranked| && ranked[i] == item;
    }
  }

  method CollectHits(seeds: seq<Item>, index: Index, ghost entries: seq<Entry>) returns (hits: Hits)
    requires DistinctIds(entries) && Indexes(index, entries)
    ensures HitsAfter(hits, seeds, entries)
  {
    hits := map[];
    var done: seq<Item> := [];
    for i := 0 to |seeds|
      invariant done == seeds[..i]
      invariant HitsAfter(hits, done, entries)
    {
      hits := AddSeed(hits, done, seeds[i], index, entries);
      done := done + [seeds[i]];
    }
    assert done == seeds;
  }

  /** Retrieve a market's candidates through the index: the answer of a full scan. */
  method Candidates(tokens: seq<string>, index: Index, weights: Weights, k: nat, ghost entries: seq<Entry>)
    returns (result: seq<Entry>)
    requires DistinctIds(entries) && Indexes(index, entries)
    ensures IsTop(result, k, Seeds(tokens, weights), entries)
  {
    var seeds := Seeds(tokens, weights);
    var hits := CollectHits(seeds, index, entries);
    var items := Values(hits);
    RankedIsSorted(items);
    var ranked := Ranked(items);
    assert forall i | 0 <= i < |ranked| :: ranked[i] in ranked;
    var n := if k <= |ranked| then k else |ranked|;
    result := seq(n, i requires 0 <= i < n && ranked[i].name in hits => hits[ranked[i].name].0);
    RankedHitsAreTop(hits, ranked, result, k, seeds, entries);
  }

  ghost function ScoredAll(result: seq<Entry>, seeds: seq<Item>, entries: seq<Entry>): seq<Item> {
    seq(|result|, i requires 0 <= i < |result| => Scored(result[i], seeds, entries))
  }

  lemma {:induction false} DistinctMembers(s: seq<Entry>)
    requires forall i, j | 0 <= i < j < |s| :: s[i] != s[j]
    ensures |set e | e in s| == |s|
  {
    if s != [] {
      var rest := s[..|s| - 1];
      DistinctMembers(rest);
      assert (set e | e in s) == (set e | e in rest) + {s[|s| - 1]};
    }
  }

  lemma TopIsDistinct(result: seq<Entry>, k: nat, seeds: seq<Item>, entries: seq<Entry>)
    requires IsTop(result, k, seeds, entries)
    ensures |set e | e in result| == |result|
  {
    forall i, j | 0 <= i < j < |result|
      ensures result[i] != result[j]
    {
      BeforeIsTotal(Scored(result[i], seeds, entries), Scored(result[j], seeds, entries));
    }
    DistinctMembers(result);
  }

  lemma FewerMembers(a: seq<Entry>, b: seq<Entry>, e: Entry)
    requires |set x | x in a| == |a| && |set x | x in b| == |b| && |a| <= |b|
    requires e in a && e !in b
    ensures exists r | r in b :: r !in a
  {
    if forall r | r in b :: r in a {
      var members := set x | x in a;
      assert (set x | x in b) <= members - {e};
      SubsetIsSmaller((set x | x in b), members - {e});
    }
  }

  lemma TopsAgree(a: seq<Entry>, b: seq<Entry>, k: nat, seeds: seq<Item>, entries: seq<Entry>, e: Entry)
    requires IsTop(a, k, seeds, entries) && IsTop(b, k, seeds, entries) && e in a
    ensures e in b
  {
    if e !in b {
      TopIsDistinct(a, k, seeds, entries);
      TopIsDistinct(b, k, seeds, entries);
      FewerMembers(a, b, e);
      var r :| r in b && r !in a;
      BeforeIsTotal(Scored(e, seeds, entries), Scored(r, seeds, entries));
    }
  }

  lemma ScoresAscend(result: seq<Entry>, k: nat, seeds: seq<Item>, entries: seq<Entry>)
    requires IsTop(result, k, seeds, entries)
    ensures Ascending(ScoredAll(result, seeds, entries))
    ensures forall y :: y in ScoredAll(result, seeds, entries)
                        <==> exists e | e in result :: y == Scored(e, seeds, entries)
  {
    var all := ScoredAll(result, seeds, entries);
    forall e | e in result
      ensures Scored(e, seeds, entries) in all
    {
      var i :| 0 <= i < |result| && result[i] == e;
      assert all[i] == Scored(e, seeds, entries);
    }
  }

  /** The scan has one answer, so the index has no other. */
  lemma TopIsUnique(a: seq<Entry>, b: seq<Entry>, k: nat, seeds: seq<Item>, entries: seq<Entry>)
    requires DistinctIds(entries) && IsTop(a, k, seeds, entries) && IsTop(b, k, seeds, entries)
    ensures a == b
  {
    forall e
      ensures e in a <==> e in b
    {
      if e in a {
        TopsAgree(a, b, k, seeds, entries, e);
      } else if e in b {
        TopsAgree(b, a, k, seeds, entries, e);
      }
    }
    ScoresAscend(a, k, seeds, entries);
    ScoresAscend(b, k, seeds, entries);
    RankingIsUnique(ScoredAll(a, seeds, entries), ScoredAll(b, seeds, entries));
    assert |a| == |ScoredAll(a, seeds, entries)| == |b|;
    forall i | 0 <= i < |a|
      ensures a[i] == b[i]
    {
      assert ScoredAll(a, seeds, entries)[i] == ScoredAll(b, seeds, entries)[i];
      assert a[i] in a && b[i] in b;
      SameIdSameEntry(entries, a[i], b[i]);
    }
  }

  // ---- Seeds ---------------------------------------------------------------------------------

  lemma {:induction false} DistinctIs(tokens: seq<string>)
    ensures forall t :: t in Distinct(tokens) <==> t in tokens
    ensures forall i, j | 0 <= i < j < |Distinct(tokens)| :: Distinct(tokens)[i] != Distinct(tokens)[j]
  {
    if tokens != [] {
      DistinctIs(tokens[..|tokens| - 1]);
      assert tokens == tokens[..|tokens| - 1] + [tokens[|tokens| - 1]];
    }
  }

  lemma WeightedIs(tokens: seq<string>, weights: Weights)
    requires forall i, j | 0 <= i < j < |tokens| :: tokens[i] != tokens[j]
    ensures NoRepeats(Weighted(tokens, weights))
    ensures forall y :: y in Weighted(tokens, weights) <==> y.name in tokens && y.score == WeightOf(weights, y.name)
  {
    forall y: Item | y.name in tokens && y.score == WeightOf(weights, y.name)
      ensures y in Weighted(tokens, weights)
    {
      var i :| 0 <= i < |tokens| && tokens[i] == y.name;
      assert Weighted(tokens, weights)[i] == y;
    }
  }

  /** The seeds are a market's heaviest tokens: nothing outside them outranks one of them. */
  lemma SeedsAreHeaviest(tokens: seq<string>, weights: Weights, token: string)
    requires token in tokens
    ensures var seeds := Seeds(tokens, weights);
            var item := Item(WeightOf(weights, token), token);
            && Ascending(seeds) && |seeds| <= SEED_TOKENS
            && (item !in seeds ==> |seeds| == SEED_TOKENS && forall s | s in seeds :: Before(s, item))
  {
    DistinctIs(tokens);
    WeightedIs(Distinct(tokens), weights);
    RankedIsSorted(Weighted(Distinct(tokens), weights));
    var ranked := Ranked(Weighted(Distinct(tokens), weights));
    var item := Item(WeightOf(weights, token), token);
    assert item in ranked;
    var i :| 0 <= i < |ranked| && ranked[i] == item;
    if i < SEED_TOKENS {
      assert Seeds(tokens, weights)[i] == item;
    }
  }

  /** Seeds depend on which tokens a market has, not on their order or repetition. */
  lemma SeedsIgnoreOrder(a: seq<string>, b: seq<string>, weights: Weights)
    requires forall t :: t in a <==> t in b
    ensures Seeds(a, weights) == Seeds(b, weights)
  {
    DistinctIs(a);
    DistinctIs(b);
    WeightedIs(Distinct(a), weights);
    WeightedIs(Distinct(b), weights);
    RankingIgnoresOrder(Weighted(Distinct(a), weights), Weighted(Distinct(b), weights));
  }
}
