/** The client-side rate limiter: what it hands out over any stretch of time. */
module TokenBuckets {
  import opened Numbers

  datatype Bucket = Bucket(tokens: real, refilledAt: int)

  /** Tokens per second, and the most the bucket holds. */
  datatype Budget = Budget(rate: real, capacity: real)

  predicate Sensible(b: Budget) { b.rate > 0.0 && b.capacity >= 0.0 }

  /** Tokens the budget earns in some nanoseconds. */
  function Earned(b: Budget, nanoseconds: int): real { nanoseconds as real / 1_000_000_000.0 * b.rate }

  function Refill(b: Budget, s: Bucket, now: int): Bucket {
    Bucket(RMin(b.capacity, s.tokens + Earned(b, now - s.refilledAt)), now)
  }

  /** One withdrawal: its cost, the clock when it got the lock, and the clock after its sleep, if it slept. */
  datatype Grant = Grant(cost: real, now: int, woken: int)

  /** Seconds the bucket asks to sleep before this withdrawal. */
  function Wait(b: Budget, s: Bucket, g: Grant): real
    requires Sensible(b)
  {
    var refilled := Refill(b, s, g.now);
    if refilled.tokens < g.cost then (g.cost - refilled.tokens) / b.rate else 0.0
  }

  predicate Sleeps(b: Budget, s: Bucket, g: Grant) { Refill(b, s, g.now).tokens < g.cost }

  /** The balance a withdrawal is taken from. */
  function Available(b: Budget, s: Bucket, g: Grant): Bucket {
    var refilled := Refill(b, s, g.now);
    if Sleeps(b, s, g) then Refill(b, refilled, g.woken) else refilled
  }

  function Take(b: Budget, s: Bucket, g: Grant): Bucket {
    var available := Available(b, s, g);
    available.(tokens := RMax(0.0, available.tokens - g.cost))
  }

  /** Readings never go backwards, and a sleep is no shorter than asked for. */
  predicate Timely(b: Budget, s: Bucket, g: Grant)
    requires Sensible(b)
  {
    && s.refilledAt <= g.now
    && (Sleeps(b, s, g) ==> (g.woken - g.now) as real >= Wait(b, s, g) * 1_000_000_000.0)
  }

  // ---- The object ----------------------------------------------------------------------------

  class TokenBucket {
    const budget: Budget
    var tokens: real
    var refilledAt: int

    function State(): Bucket
      reads this
    {
      Bucket(tokens, refilledAt)
    }

    constructor (budget: Budget, now: int)
      ensures this.budget == budget && State() == Bucket(budget.capacity, now)
    {
      this.budget := budget;
      tokens, refilledAt := budget.capacity, now;
    }

    method RefillAt(now: int)
      modifies this
      ensures State() == Refill(budget, old(State()), now)
    {
      var elapsed := (now - refilledAt) as real / 1_000_000_000.0;
      refilledAt := now;
      tokens := RMin(budget.capacity, tokens + elapsed * budget.rate);
    }

    /** Withdraw, sleeping for the deficit if there is one; returns the seconds asked for. */
    method Acquire(g: Grant) returns (waited: real)
      requires Sensible(budget)
      modifies this
      ensures State() == Take(budget, old(State()), g)
      ensures waited == Wait(budget, old(State()), g)
    {
      RefillAt(g.now);
      waited := 0.0;
      if tokens < g.cost {
        waited := (g.cost - tokens) / budget.rate;
        RefillAt(g.woken);
      }
      tokens := RMax(0.0, tokens - g.cost);
    }
  }

  // ---- One withdrawal ------------------------------------------------------------------------

  predicate InRange(b: Budget, s: Bucket) { 0.0 <= s.tokens <= b.capacity }

  lemma EarnedIsPositive(b: Budget, nanoseconds: int)
    requires Sensible(b) && nanoseconds >= 0
    ensures Earned(b, nanoseconds) >= 0.0
  {
  }

  lemma EarnedAdds(b: Budget, first: int, second: int)
    ensures Earned(b, first + second) == Earned(b, first) + Earned(b, second)
  {
    var x, y := first as real / 1_000_000_000.0, second as real / 1_000_000_000.0;
    assert (first + second) as real / 1_000_000_000.0 == x + y;
  }

  lemma SleepCoversDeficit(b: Budget, deficit: real, nanoseconds: int)
    requires Sensible(b) && deficit >= 0.0 && nanoseconds as real >= deficit / b.rate * 1_000_000_000.0
    ensures Earned(b, nanoseconds) >= deficit && nanoseconds >= 0
  {
    var seconds := nanoseconds as real / 1_000_000_000.0;
    var needed := deficit / b.rate;
    NonNegativeRatio(deficit, b.rate);
    assert seconds >= needed;
    OrderedProducts(needed, seconds, b.rate);
    assert needed * b.rate == deficit;
  }

  lemma NonNegativeRatio(a: real, b: real)
    requires a >= 0.0 && b > 0.0
    ensures a / b >= 0.0
  {
  }

  lemma OrderedProducts(a: real, b: real, c: real)
    requires a <= b && c > 0.0
    ensures a * c <= b * c
  {
  }

  /** What a withdrawal finds: at most the capacity, at most what was left plus what was earned since. */
  lemma AvailableIsBounded(b: Budget, s: Bucket, g: Grant)
    requires Sensible(b) && InRange(b, s) && Timely(b, s, g)
    ensures var available := Available(b, s, g);
            && 0.0 <= available.tokens <= b.capacity && s.refilledAt <= g.now <= available.refilledAt
            && available.tokens <= s.tokens + Earned(b, available.refilledAt - s.refilledAt)
            && (g.cost <= b.capacity ==> available.tokens >= g.cost)
  {
    EarnedIsPositive(b, g.now - s.refilledAt);
    var refilled := Refill(b, s, g.now);
    if Sleeps(b, s, g) {
      SleepCoversDeficit(b, g.cost - refilled.tokens, g.woken - g.now);
      EarnedAdds(b, g.now - s.refilledAt, g.woken - g.now);
      EarnedIsPositive(b, g.woken - g.now);
    }
  }

  /** What the clamp at zero swallows: the part of the cost the balance did not cover. */
  function HiddenDebt(b: Budget, s: Bucket, g: Grant): real {
    RMax(0.0, g.cost - Available(b, s, g).tokens)
  }

  /** The clamp hides a debt exactly when a single withdrawal costs more than the bucket can ever hold. */
  lemma ClampHidesDebt(b: Budget, s: Bucket, g: Grant)
    requires Sensible(b) && InRange(b, s) && Timely(b, s, g)
    ensures HiddenDebt(b, s, g) > 0.0 <==> g.cost > b.capacity
    ensures g.cost >= 0.0 ==> InRange(b, Take(b, s, g))
  {
    AvailableIsBounded(b, s, g);
  }

  // ---- Runs ----------------------------------------------------------------------------------

  predicate Run(b: Budget, s: Bucket, grants: seq<Grant>)
    requires Sensible(b)
    decreases |grants|
  {
    grants == []
    || (Timely(b, s, grants[0]) && 0.0 <= grants[0].cost <= b.capacity && Run(b, Take(b, s, grants[0]), grants[1..]))
  }

  function After(b: Budget, s: Bucket, grants: seq<Grant>): Bucket
    decreases |grants|
  {
    if grants == [] then s else After(b, Take(b, s, grants[0]), grants[1..])
  }

  function Granted(grants: seq<Grant>): real
    decreases |grants|
  {
    if grants == [] then 0.0 else grants[0].cost + Granted(grants[1..])
  }

  /** The books balance: what is left plus what was granted is at most what there was plus what was earned. */
  lemma {:induction false} BooksBalance(b: Budget, s: Bucket, grants: seq<Grant>)
    requires Sensible(b) && InRange(b, s) && Run(b, s, grants)
    ensures var after := After(b, s, grants);
            && InRange(b, after) && s.refilledAt <= after.refilledAt
            && after.tokens + Granted(grants) <= s.tokens + Earned(b, after.refilledAt - s.refilledAt)
    decreases |grants|
  {
    if grants == [] {
      EarnedIsPositive(b, 0);
    } else {
      var g := grants[0];
      var next := Take(b, s, g);
      AvailableIsBounded(b, s, g);
      ClampHidesDebt(b, s, g);
      BooksBalance(b, next, grants[1..]);
      EarnedAdds(b, next.refilledAt - s.refilledAt, After(b, s, grants).refilledAt - next.refilledAt);
    }
  }

  /** What a refill at `now` loses to the bucket being full. */
  function Overflow(b: Budget, s: Bucket, now: int): real {
    RMax(0.0, s.tokens + Earned(b, now - s.refilledAt) - b.capacity)
  }

  /** What one withdrawal loses to it: at its refill, and at the one behind its sleep. */
  function Spilled(b: Budget, s: Bucket, g: Grant): real {
    Overflow(b, s, g.now) + if Sleeps(b, s, g) then Overflow(b, Refill(b, s, g.now), g.woken) else 0.0
  }

  function AllSpilled(b: Budget, s: Bucket, grants: seq<Grant>): real
    decreases |grants|
  {
    if grants == [] then 0.0 else Spilled(b, s, grants[0]) + AllSpilled(b, Take(b, s, grants[0]), grants[1..])
  }

  lemma GrantIsPaidFor(b: Budget, s: Bucket, g: Grant)
    requires Sensible(b) && InRange(b, s) && Timely(b, s, g) && 0.0 <= g.cost <= b.capacity
    ensures var next := Take(b, s, g);
            next.tokens + g.cost == s.tokens + Earned(b, next.refilledAt - s.refilledAt) - Spilled(b, s, g)
  {
    AvailableIsBounded(b, s, g);
    EarnedAdds(b, g.now - s.refilledAt, g.woken - g.now);
  }

  /** The books to the token: what is left and granted is what there was and was earned, less what overflowed. */
  lemma {:induction false} NothingElseIsLost(b: Budget, s: Bucket, grants: seq<Grant>)
    requires Sensible(b) && InRange(b, s) && Run(b, s, grants)
    ensures var after := After(b, s, grants);
            after.tokens + Granted(grants)
            == s.tokens + Earned(b, after.refilledAt - s.refilledAt) - AllSpilled(b, s, grants)
    decreases |grants|
  {
    if grants == [] {
      assert Earned(b, 0) == 0.0;
    } else {
      var g := grants[0];
      var next := Take(b, s, g);
      GrantIsPaidFor(b, s, g);
      ClampHidesDebt(b, s, g);
      NothingElseIsLost(b, next, grants[1..]);
      EarnedAdds(b, next.refilledAt - s.refilledAt, After(b, s, grants).refilledAt - next.refilledAt);
    }
  }

  /** A withdrawal sleeps exactly when the balance does not cover it, for exactly as long as the rest takes to earn. */
  lemma SleepsForTheDeficit(b: Budget, s: Bucket, g: Grant)
    requires Sensible(b)
    ensures var balance := RMin(b.capacity, s.tokens + Earned(b, g.now - s.refilledAt));
            && (Wait(b, s, g) > 0.0 <==> balance < g.cost) && (Sleeps(b, s, g) <==> balance < g.cost)
            && (balance >= g.cost ==> Wait(b, s, g) == 0.0)
            && (balance < g.cost ==> Wait(b, s, g) * b.rate == g.cost - balance)
  {
    var balance := RMin(b.capacity, s.tokens + Earned(b, g.now - s.refilledAt));
    if balance < g.cost {
      PositiveRatio(g.cost - balance, b.rate);
    }
  }

  lemma PositiveRatio(a: real, b: real)
    requires a > 0.0 && b > 0.0
    ensures a / b > 0.0 && a / b * b == a
  {
  }

  /**
   The rate bound: from one grant to a later one, both included, the bucket hands out at most its
   capacity plus what the rate earns between them, whatever came before.
   */
  lemma RateBound(b: Budget, s: Bucket, before: seq<Grant>, first: Grant, others: seq<Grant>)
    requires Sensible(b) && InRange(b, s) && Run(b, s, before) && Run(b, After(b, s, before), [first] + others)
    ensures var start := Take(b, After(b, s, before), first);
            var end := After(b, start, others);
            Granted([first] + others) <= b.capacity + Earned(b, end.refilledAt - start.refilledAt)
  {
    BooksBalance(b, s, before);
    var reached := After(b, s, before);
    assert ([first] + others)[1..] == others;
    AvailableIsBounded(b, reached, first);
    ClampHidesDebt(b, reached, first);
    BooksBalance(b, Take(b, reached, first), others);
  }
}
