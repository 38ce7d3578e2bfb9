/** The poller's outbound wake queue: shadow wakes yield to real ones, and nothing is sent twice or out of order. */
module PollerQueue {
  import opened Numbers

  datatype Wake = Wake(id: int, dryRun: bool)

  const INITIAL_BACKOFF: real := 1.0
  const MAX_BACKOFF: real := 30.0

  datatype Client = Client(
    queue: seq<Wake>,
    dropped: nat,
    droppedShadow: nat,
    backoff: real,
    accepted: seq<Wake>,            // every wake that entered the queue, in order
    sent: nat,                      // calls of `send_wake`
    taken: seq<Wake>,               // every wake that left the queue, in order
    connections: seq<seq<Wake>>,    // the wakes written on each connection, in order
    connected: bool)

  const NEW_CLIENT := Client([], 0, 0, INITIAL_BACKOFF, [], 0, [], [], false)

  /** How deep the queue may be for a shadow wake still to enter: a quarter of its bound, at least one. */
  function ShadowLimit(maxSize: int): int { if maxSize / 4 >= 1 then maxSize / 4 else 1 }

  /** A bound of zero or less is no bound. */
  predicate Full(queue: seq<Wake>, maxSize: int) { 0 < maxSize <= |queue| }

  function Send(maxSize: int, c: Client, m: Wake): Client {
    if m.dryRun && |c.queue| >= ShadowLimit(maxSize) then
      c.(sent := c.sent + 1, droppedShadow := c.droppedShadow + 1)
    else if Full(c.queue, maxSize) then
      c.(sent := c.sent + 1, dropped := c.dropped + 1)
    else
      c.(sent := c.sent + 1, queue := c.queue + [m], accepted := c.accepted + [m])
  }

  datatype Step =
    | Offer(wake: Wake)
    | Connect(reached: bool)
    | Write(encodes: bool)     // the next wake is taken and written, or lost if it cannot be encoded
    | Disconnect

  predicate Enabled(c: Client, s: Step) {
    match s
    case Offer(_) => true
    case Connect(_) => !c.connected
    case Write(_) => c.connected && c.queue != [] && c.connections != []
    case Disconnect => c.connected
  }

  function Next(maxSize: int, c: Client, s: Step): Client
    requires Enabled(c, s)
  {
    match s
    case Offer(m) => Send(maxSize, c, m)
    case Connect(reached) =>
      if reached then c.(connected := true, backoff := INITIAL_BACKOFF, connections := c.connections + [[]])
      else c.(backoff := RMin(c.backoff * 2.0, MAX_BACKOFF))
    case Write(encodes) =>
      var n := |c.connections| - 1;
      var took := c.(queue := c.queue[1..], taken := c.taken + [c.queue[0]]);
      if encodes then took.(connections := c.connections[..n] + [c.connections[n] + [c.queue[0]]])
      else took.(connected := false)
    case Disconnect => c.(connected := false)
  }

  // ---- The object ----------------------------------------------------------------------------

  class IPCPollerClient {
    const maxSize: int
    const shadowLimit: int
    var queue: seq<Wake>
    var dropped: nat
    var droppedShadow: nat

    constructor (maxSize: int)
      ensures this.maxSize == maxSize && shadowLimit == ShadowLimit(maxSize)
      ensures queue == [] && dropped == 0 && droppedShadow == 0
    {
      this.maxSize, shadowLimit := maxSize, ShadowLimit(maxSize);
      queue, dropped, droppedShadow := [], 0, 0;
    }

    predicate Shows(c: Client)
      reads this
    {
      queue == c.queue && dropped == c.dropped && droppedShadow == c.droppedShadow
    }

    /** Never blocks; a wake that does not fit is counted and dropped. */
    method SendWake(m: Wake, ghost before: Client)
      requires shadowLimit == ShadowLimit(maxSize) && Shows(before)
      modifies this
      ensures Shows(Send(maxSize, before, m))
    {
      if m.dryRun && |queue| >= shadowLimit {
        droppedShadow := droppedShadow + 1;
        return;
      }
      if Full(queue, maxSize) {
        dropped := dropped + 1;
      } else {
        queue := queue + [m];
      }
    }

    /** One turn of the write loop: the oldest wake leaves the queue for the connection. */
    method TakeNext(ghost before: Client, ghost encodes: bool) returns (m: Wake)
      requires Shows(before) && Enabled(before, Write(encodes))
      modifies this
      ensures Shows(Next(maxSize, before, Write(encodes)))
      ensures m == before.queue[0]
    {
      m := queue[0];
      queue := queue[1..];
    }
  }

  // ---- Runs ----------------------------------------------------------------------------------

  predicate Legal(maxSize: int, c: Client, steps: seq<Step>)
    decreases |steps|
  {
    steps == [] || (Enabled(c, steps[0]) && Legal(maxSize, Next(maxSize, c, steps[0]), steps[1..]))
  }

  function Run(maxSize: int, c: Client, steps: seq<Step>): Client
    requires Legal(maxSize, c, steps)
    decreases |steps|
  {
    if steps == [] then c else Run(maxSize, Next(maxSize, c, steps[0]), steps[1..])
  }

  /** All wakes written, connection after connection. */
  function Flatten(connections: seq<seq<Wake>>): seq<Wake> {
    if connections == [] then []
    else Flatten(connections[..|connections| - 1]) + connections[|connections| - 1]
  }

  /** `a` is `b` with some entries left out. */
  predicate Subsequence(a: seq<Wake>, b: seq<Wake>) {
    a == []
    || (b != []
        && (|| (a[|a| - 1] == b[|b| - 1] && Subsequence(a[..|a| - 1], b[..|b| - 1]))
            || Subsequence(a, b[..|b| - 1])))
  }

  predicate ShadowsNearFront(queue: seq<Wake>, maxSize: int) {
    forall i | ShadowLimit(maxSize) <= i < |queue| :: !queue[i].dryRun
  }

  predicate Inv(maxSize: int, c: Client) {
    && ShadowsNearFront(c.queue, maxSize)
    && c.accepted == c.taken + c.queue
    && c.sent == |c.accepted| + c.dropped + c.droppedShadow
    && (maxSize > 0 ==> |c.queue| <= maxSize)
    && INITIAL_BACKOFF <= c.backoff <= MAX_BACKOFF
    && Subsequence(Flatten(c.connections), c.taken)
  }

  lemma SubsequenceGrows(a: seq<Wake>, b: seq<Wake>, m: Wake)
    requires Subsequence(a, b)
    ensures Subsequence(a, b + [m]) && Subsequence(a + [m], b + [m])
  {
    assert (b + [m])[..|b|] == b && (a + [m])[..|a|] == a;
  }

  lemma FlattenEmpty(connections: seq<seq<Wake>>)
    ensures Flatten(connections + [[]]) == Flatten(connections)
  {
    assert (connections + [[]])[..|connections|] == connections;
  }

  lemma FlattenLast(connections: seq<seq<Wake>>, last: seq<Wake>, m: Wake)
    ensures Flatten(connections + [last + [m]]) == Flatten(connections + [last]) + [m]
  {
    assert (connections + [last + [m]])[..|connections|] == connections;
    assert (connections + [last])[..|connections|] == connections;
    assert Flatten(connections) + (last + [m]) == Flatten(connections) + last + [m];
  }

  lemma WriteKeepsInv(maxSize: int, c: Client, encodes: bool)
    requires Inv(maxSize, c) && Enabled(c, Write(encodes))
    ensures Inv(maxSize, Next(maxSize, c, Write(encodes)))
  {
    var m := c.queue[0];
    var n := |c.connections| - 1;
    assert c.taken + c.queue == (c.taken + [m]) + c.queue[1..];
    SubsequenceGrows(Flatten(c.connections), c.taken, m);
    assert c.connections == c.connections[..n] + [c.connections[n]];
    FlattenLast(c.connections[..n], c.connections[n], m);
  }

  lemma StepKeepsInv(maxSize: int, c: Client, s: Step)
    requires Inv(maxSize, c) && Enabled(c, s)
    ensures Inv(maxSize, Next(maxSize, c, s))
  {
    match s
    case Offer(m) => assert (c.taken + c.queue) + [m] == c.taken + (c.queue + [m]);
    case Connect(_) => FlattenEmpty(c.connections);
    case Write(encodes) => WriteKeepsInv(maxSize, c, encodes);
    case Disconnect =>
  }

  lemma {:induction false} RunKeepsInv(maxSize: int, c: Client, steps: seq<Step>)
    requires Inv(maxSize, c) && Legal(maxSize, c, steps)
    ensures Inv(maxSize, Run(maxSize, c, steps))
    decreases |steps|
  {
    if steps != [] {
      StepKeepsInv(maxSize, c, steps[0]);
      RunKeepsInv(maxSize, Next(maxSize, c, steps[0]), steps[1..]);
    }
  }

  function Shadows(queue: seq<Wake>): nat {
    if queue == [] then 0 else Shadows(queue[..|queue| - 1]) + if queue[|queue| - 1].dryRun then 1 else 0
  }

  lemma {:induction false} FewShadows(queue: seq<Wake>, maxSize: int)
    requires ShadowsNearFront(queue, maxSize)
    ensures Shadows(queue) <= ShadowLimit(maxSize) && Shadows(queue) <= |queue|
  {
    if queue != [] {
      FewShadows(queue[..|queue| - 1], maxSize);
    }
  }

  /** Real wakes keep priority: in every reachable state at most a quarter of the queue's bound, or one, is shadows. */
  lemma RealWakesWaitBehindFewShadows(maxSize: int, steps: seq<Step>, i: nat)
    requires Legal(maxSize, NEW_CLIENT, steps) && i < |Run(maxSize, NEW_CLIENT, steps).queue|
    ensures var queue := Run(maxSize, NEW_CLIENT, steps).queue;
            && Shadows(queue[..i]) <= ShadowLimit(maxSize)
            && (queue[i].dryRun ==> i < ShadowLimit(maxSize))
  {
    RunKeepsInv(maxSize, NEW_CLIENT, steps);
    FewShadows(Run(maxSize, NEW_CLIENT, steps).queue[..i], maxSize);
  }

  /**
   Conservation: every wake sent was accepted or counted in one of the two drop counters, every accepted
   one was taken in order or still waits, and reconnecting waits between one and thirty seconds' base.
   */
  lemma WakesAreConserved(maxSize: int, steps: seq<Step>)
    requires Legal(maxSize, NEW_CLIENT, steps)
    ensures var c := Run(maxSize, NEW_CLIENT, steps);
            && c.sent == |c.accepted| + c.dropped + c.droppedShadow
            && c.accepted == c.taken + c.queue
            && (maxSize > 0 ==> |c.queue| <= maxSize)
            && INITIAL_BACKOFF <= c.backoff <= MAX_BACKOFF
  {
    RunKeepsInv(maxSize, NEW_CLIENT, steps);
  }

  // ---- What a whole run amounts to -----------------------------------------------------------

  lemma {:induction false} RunLast(maxSize: int, c: Client, steps: seq<Step>)
    requires Legal(maxSize, c, steps) && steps != []
    ensures var n := |steps| - 1;
            && Legal(maxSize, c, steps[..n]) && Enabled(Run(maxSize, c, steps[..n]), steps[n])
            && Run(maxSize, c, steps) == Next(maxSize, Run(maxSize, c, steps[..n]), steps[n])
    decreases |steps|
  {
    var n := |steps| - 1;
    if n > 0 {
      RunLast(maxSize, Next(maxSize, c, steps[0]), steps[1..]);
      assert steps[1..][..n - 1] == steps[..n][1..];
    }
  }

  /** Attempts to connect that failed since the last one that did not. */
  function FailedInARow(steps: seq<Step>): nat {
    if steps == [] then 0
    else
      var last := steps[|steps| - 1];
      if last == Connect(true) then 0
      else FailedInARow(steps[..|steps| - 1]) + if last == Connect(false) then 1 else 0
  }

  function Doubled(times: nat): (d: real)
    ensures d >= 1.0
  {
    if times == 0 then 1.0 else 2.0 * Doubled(times - 1)
  }

  /** Whether the wakes taken could be encoded, one by one. */
  function Encoded(steps: seq<Step>): seq<bool> {
    if steps == [] then []
    else
      var rest, last := Encoded(steps[..|steps| - 1]), steps[|steps| - 1];
      if last.Write? then rest + [last.encodes] else rest
  }

  /** The wakes among those taken that could be encoded. */
  function Sendable(taken: seq<Wake>, encoded: seq<bool>): seq<Wake>
    requires |taken| == |encoded|
  {
    if taken == [] then []
    else
      var n := |taken| - 1;
      Sendable(taken[..n], encoded[..n]) + if encoded[n] then [taken[n]] else []
  }

  /** How many connections were made. */
  function Connects(steps: seq<Step>): nat {
    if steps == [] then 0
    else Connects(steps[..|steps| - 1]) + if steps[|steps| - 1] == Connect(true) then 1 else 0
  }

  /** The latest step that makes or breaks the connection made it. */
  predicate LastConnected(steps: seq<Step>) {
    steps != []
    && var last := steps[|steps| - 1];
    if last == Connect(true) then true
    else if last == Write(false) || last == Disconnect then false
    else LastConnected(steps[..|steps| - 1])
  }

  lemma DoublingIsCapped(times: nat)
    ensures RMin(RMin(Doubled(times), 30.0) * 2.0, 30.0) == RMin(Doubled(times + 1), 30.0)
  {
  }

  /** The base of the wait before the next attempt doubles from one second with each failure in a row, up to thirty. */
  lemma {:induction false} BackoffDoubles(maxSize: int, steps: seq<Step>)
    requires Legal(maxSize, NEW_CLIENT, steps)
    ensures Run(maxSize, NEW_CLIENT, steps).backoff == RMin(Doubled(FailedInARow(steps)), 30.0)
  {
    if steps != [] {
      var n := |steps| - 1;
      RunLast(maxSize, NEW_CLIENT, steps);
      BackoffDoubles(maxSize, steps[..n]);
      DoublingIsCapped(FailedInARow(steps[..n]));
    }
  }

  lemma SendableAppend(taken: seq<Wake>, encoded: seq<bool>, m: Wake, encodes: bool)
    requires |taken| == |encoded|
    ensures Sendable(taken + [m], encoded + [encodes]) == Sendable(taken, encoded) + if encodes then [m] else []
  {
    assert (taken + [m])[..|taken|] == taken && (encoded + [encodes])[..|taken|] == encoded;
  }

  /** A write adds its wake, if it can be encoded, to the end of what was written. */
  lemma WriteAppends(maxSize: int, c: Client, encodes: bool)
    requires Enabled(c, Write(encodes)) && c.connections != []
    ensures Flatten(Next(maxSize, c, Write(encodes)).connections)
            == Flatten(c.connections) + if encodes then [c.queue[0]] else []
  {
    var k := |c.connections| - 1;
    assert c.connections == c.connections[..k] + [c.connections[k]];
    FlattenLast(c.connections[..k], c.connections[k], c.queue[0]);
  }

  /**
   What is written, connection after connection, is every wake taken that could be encoded, in order; there is one
   connection for each attempt that succeeded, and one is up exactly when nothing has broken the latest.
   */
  lemma {:induction false} EverySendableWakeIsWritten(maxSize: int, steps: seq<Step>)
    requires Legal(maxSize, NEW_CLIENT, steps)
    ensures var c := Run(maxSize, NEW_CLIENT, steps);
            && |c.taken| == |Encoded(steps)| && Flatten(c.connections) == Sendable(c.taken, Encoded(steps))
            && |c.connections| == Connects(steps) && (c.connected <==> LastConnected(steps))
  {
    if steps != [] {
      var n := |steps| - 1;
      RunLast(maxSize, NEW_CLIENT, steps);
      var c := Run(maxSize, NEW_CLIENT, steps[..n]);
      EverySendableWakeIsWritten(maxSize, steps[..n]);
      match steps[n]
      case Offer(_) =>
      case Connect(_) => FlattenEmpty(c.connections);
      case Write(encodes) =>
        SendableAppend(c.taken, Encoded(steps[..n]), c.queue[0], encodes);
        WriteAppends(maxSize, c, encodes);
      case Disconnect =>
    }
  }

  // ---- When a wake is dropped ----------------------------------------------------------------

  /** The queue holds as many wakes as it may; no bound, never. */
  predicate HoldsItsBound(queue: seq<Wake>, maxSize: int) { maxSize > 0 && |queue| == maxSize }

  /** The queue holds a quarter of its bound, rounded down, and at least one wake. */
  predicate AtShadowLimit(queue: seq<Wake>, maxSize: int) { |queue| >= 1 && 4 * |queue| > maxSize - 4 }

  /**
   Whatever came before, a real wake is dropped exactly when the queue holds its whole bound, and a shadow when it is
   at the shadows' limit or, should that be no lower, at its bound; any other wake joins the end, and only one counter
   moves.
   */
  lemma DroppedExactlyWhen(maxSize: int, before: seq<Step>, m: Wake)
    requires Legal(maxSize, NEW_CLIENT, before)
    ensures var c := Run(maxSize, NEW_CLIENT, before);
            var after := Next(maxSize, c, Offer(m));
            && (after.queue == c.queue + [m] <==>
                  !HoldsItsBound(c.queue, maxSize) && (m.dryRun ==> !AtShadowLimit(c.queue, maxSize)))
            && (after.queue == c.queue + [m] || after.queue == c.queue)
            && (after.droppedShadow == c.droppedShadow + 1 <==> m.dryRun && AtShadowLimit(c.queue, maxSize))
            && (after.dropped == c.dropped + 1 <==>
                  HoldsItsBound(c.queue, maxSize) && !(m.dryRun && AtShadowLimit(c.queue, maxSize)))
            && (after.dropped - c.dropped) + (after.droppedShadow - c.droppedShadow)
               + (|after.queue| - |c.queue|) == 1
  {
    RunKeepsInv(maxSize, NEW_CLIENT, before);
    ShadowLimitIs(Run(maxSize, NEW_CLIENT, before).queue, maxSize);
  }

  lemma ShadowLimitIs(queue: seq<Wake>, maxSize: int)
    ensures |queue| >= ShadowLimit(maxSize) <==> AtShadowLimit(queue, maxSize)
  {
  }

  // ---- What reaches the executor -------------------------------------------------------------

  /** Each connection delivers some prefix of what was written on it. */
  predicate Delivered(received: seq<seq<Wake>>, connections: seq<seq<Wake>>) {
    |received| == |connections| && forall i | 0 <= i < |received| :: received[i] <= connections[i]
  }

  lemma SplitLast(b: seq<Wake>, rest: seq<Wake>)
    ensures rest == [] ==> b + rest == b
    ensures rest != [] ==> b + rest == (b + rest[..|rest| - 1]) + [rest[|rest| - 1]]
  {
  }

  lemma {:induction false} SubsequenceSkips(a: seq<Wake>, b: seq<Wake>, rest: seq<Wake>)
    requires Subsequence(a, b)
    ensures Subsequence(a, b + rest)
  {
    SplitLast(b, rest);
    if rest != [] {
      SubsequenceSkips(a, b, rest[..|rest| - 1]);
      SubsequenceGrows(a, b + rest[..|rest| - 1], rest[|rest| - 1]);
    }
  }

  lemma {:induction false} SubsequenceFollows(a: seq<Wake>, b: seq<Wake>, both: seq<Wake>)
    requires Subsequence(a, b)
    ensures Subsequence(a + both, b + both)
  {
    SplitLast(a, both);
    SplitLast(b, both);
    if both != [] {
      SubsequenceFollows(a, b, both[..|both| - 1]);
      SubsequenceGrows(a + both[..|both| - 1], b + both[..|both| - 1], both[|both| - 1]);
    }
  }

  lemma SplitPrefix(b: seq<Wake>, more: seq<Wake>, prefix: seq<Wake>)
    requires prefix <= more
    ensures (b + prefix) + more[|prefix|..] == b + more
  {
    assert more == prefix + more[|prefix|..];
  }

  lemma SubsequenceExtends(a: seq<Wake>, b: seq<Wake>, more: seq<Wake>, prefix: seq<Wake>)
    requires Subsequence(a, b) && prefix <= more
    ensures Subsequence(a + prefix, b + more)
  {
    SubsequenceFollows(a, b, prefix);
    SubsequenceSkips(a + prefix, b + prefix, more[|prefix|..]);
    SplitPrefix(b, more, prefix);
  }

  lemma {:induction false} DeliveredIsSubsequence(received: seq<seq<Wake>>, connections: seq<seq<Wake>>)
    requires Delivered(received, connections)
    ensures Subsequence(Flatten(received), Flatten(connections))
  {
    if received != [] {
      var n := |received| - 1;
      DeliveredIsSubsequence(received[..n], connections[..n]);
      SubsequenceExtends(Flatten(received[..n]), Flatten(connections[..n]), connections[n], received[n]);
    }
  }

  lemma {:induction false} SubsequenceChains(a: seq<Wake>, b: seq<Wake>, c: seq<Wake>)
    requires Subsequence(a, b) && Subsequence(b, c)
    ensures Subsequence(a, c)
    decreases |b| + |c|
  {
    if a != [] {
      var n, m := |b| - 1, |c| - 1;
      if b[n] == c[m] && Subsequence(b[..n], c[..m]) {
        if a[|a| - 1] == b[n] && Subsequence(a[..|a| - 1], b[..n]) {
          SubsequenceChains(a[..|a| - 1], b[..n], c[..m]);
        } else {
          SubsequenceChains(a, b[..n], c[..m]);
        }
      } else {
        SubsequenceChains(a, b, c[..m]);
      }
    }
  }

  lemma PrefixIsSubsequence(a: seq<Wake>, b: seq<Wake>)
    ensures Subsequence(a, a + b)
  {
    SubsequenceOfItself(a);
    SubsequenceExtends(a, a, b, []);
    assert a + [] == a;
  }

  lemma {:induction false} SubsequenceOfItself(a: seq<Wake>)
    ensures Subsequence(a, a)
  {
    if a != [] {
      SubsequenceOfItself(a[..|a| - 1]);
    }
  }

  predicate NoRepeats(s: seq<Wake>) { forall i, j | 0 <= i < j < |s| :: s[i] != s[j] }

  lemma {:induction false} SubsequenceMembers(a: seq<Wake>, b: seq<Wake>)
    requires Subsequence(a, b)
    ensures forall m | m in a :: m in b
  {
    if a != [] {
      var n := |b| - 1;
      assert b == b[..n] + [b[n]];
      assert a == a[..|a| - 1] + [a[|a| - 1]];
      if a[|a| - 1] == b[n] && Subsequence(a[..|a| - 1], b[..n]) {
        SubsequenceMembers(a[..|a| - 1], b[..n]);
      } else {
        SubsequenceMembers(a, b[..n]);
      }
    }
  }

  lemma {:induction false} SubsequenceKeepsDistinct(a: seq<Wake>, b: seq<Wake>)
    requires Subsequence(a, b) && NoRepeats(b)
    ensures NoRepeats(a)
  {
    if a != [] {
      var n := |b| - 1;
      if a[|a| - 1] == b[n] && Subsequence(a[..|a| - 1], b[..n]) {
        SubsequenceKeepsDistinct(a[..|a| - 1], b[..n]);
        SubsequenceMembers(a[..|a| - 1], b[..n]);
        assert forall i | 0 <= i < |a| - 1 :: a[..|a| - 1][i] == a[i] && a[i] in b[..n];
      } else {
        SubsequenceKeepsDistinct(a, b[..n]);
      }
    }
  }

  /**
   Across any number of reconnections, what reaches the executor is an in-order selection of the accepted
   wakes; no wake is delivered twice.
   */
  lemma DeliveryIsInOrder(maxSize: int, steps: seq<Step>, received: seq<seq<Wake>>)
    requires Legal(maxSize, NEW_CLIENT, steps) && Delivered(received, Run(maxSize, NEW_CLIENT, steps).connections)
    ensures var c := Run(maxSize, NEW_CLIENT, steps);
            && Subsequence(Flatten(received), c.accepted)
            && Subsequence(Flatten(c.connections), c.accepted)
            && (NoRepeats(c.accepted) ==> NoRepeats(Flatten(received)) && NoRepeats(Flatten(c.connections)))
  {
    RunKeepsInv(maxSize, NEW_CLIENT, steps);
    var c := Run(maxSize, NEW_CLIENT, steps);
    var written := Flatten(c.connections);
    DeliveredIsSubsequence(received, c.connections);
    PrefixIsSubsequence(c.taken, c.queue);
    SubsequenceChains(written, c.taken, c.accepted);
    SubsequenceChains(Flatten(received), written, c.accepted);
    if NoRepeats(c.accepted) {
      SubsequenceKeepsDistinct(written, c.accepted);
      SubsequenceKeepsDistinct(Flatten(received), c.accepted);
    }
  }
}
