/** The token bucket of internal/api/server.go, over the reals. Times are in seconds. */
module TokenBucket {

  datatype Params = Params(rate: real, capacity: real) {
    /** NewServer uses 100 and 200; both come from non-negative integers. */
    predicate Valid() {
      rate >= 0.0 && capacity >= 0.0
    }
  }

  datatype Bucket = Bucket(tokens: real, lastRefill: real)

  function Min(a: real, b: real): real {
    if a <= b then a else b
  }

  /** Tokens gained over a span of time. */
  function Gain(p: Params, span: real): real {
    span * p.rate
  }

  lemma GainFacts(p: Params, a: real, b: real)
    requires p.Valid()
    ensures Gain(p, 0.0) == 0.0
    ensures Gain(p, a + b) == Gain(p, a) + Gain(p, b)
    ensures a <= b ==> Gain(p, a) <= Gain(p, b)
  {
    if a <= b { assert (b - a) * p.rate >= 0.0; }
  }

  function Refilled(p: Params, b: Bucket, now: real): real {
    Min(b.tokens + Gain(p, now - b.lastRefill), p.capacity)
  }

  function Asked(p: Params, b: Bucket, now: real): Bucket {
    var level := Refilled(p, b, now);
    Bucket(if level >= 1.0 then level - 1.0 else level, now)
  }

  class TokenBucket {
    var tokens: real
    var lastRefill: real
    const p: Params
    ghost const owner: string  // the address the bucket was made for

    function View(): Bucket
      reads this
    {
      Bucket(tokens, lastRefill)
    }

    constructor (p: Params, now: real, ghost owner: string)
      ensures this.p == p && this.owner == owner && View() == Bucket(p.capacity, now)
    {
      this.p, tokens, lastRefill, this.owner := p, p.capacity, now, owner;
    }

    method Allow(now: real) returns (allowed: bool)
      modifies this
      ensures View() == Asked(p, old(View()), now)
      ensures allowed <==> Refilled(p, old(View()), now) >= 1.0
    {
      var elapsed := now - lastRefill;
      tokens := tokens + Gain(p, elapsed);
      if tokens > p.capacity {
        tokens := p.capacity;
      }
      lastRefill := now;
      if tokens >= 1.0 {
        tokens := tokens - 1.0;
        return true;
      }
      return false;
    }
  }

  // ----- runs: the times at which one full bucket is asked

  predicate Clock(times: seq<real>) {
    forall i, j :: 0 <= i <= j < |times| ==> times[i] <= times[j]
  }

  /** The bucket as the last request finds it: full for the first one. */
  function Found(p: Params, times: seq<real>): Bucket
    requires times != []
    decreases |times|, 0
  {
    if |times| == 1 then Bucket(p.capacity, times[0]) else After(p, times[..|times| - 1])
  }

  function After(p: Params, times: seq<real>): Bucket
    requires times != []
    decreases |times|, 1
  {
    Asked(p, Found(p, times), times[|times| - 1])
  }

  /** Whether the last request is allowed. */
  predicate Admits(p: Params, times: seq<real>)
    requires times != []
  {
    Refilled(p, Found(p, times), times[|times| - 1]) >= 1.0
  }

  /** Requests admitted from number `i` on. */
  function Admitted(p: Params, times: seq<real>, i: nat): nat
    requires i <= |times|
  {
    if i == |times| then 0
    else Admitted(p, times[..|times| - 1], i) + if Admits(p, times) then 1 else 0
  }

  /** The budget a full bucket at request `i` would have left at the end, were it never capped again. */
  function Budget(p: Params, times: seq<real>, i: nat): real
    requires i < |times|
  {
    p.capacity + Gain(p, times[|times| - 1] - times[i]) - Admitted(p, times, i) as real
  }

  lemma {:induction false} LevelInRange(p: Params, times: seq<real>)
    requires p.Valid() && times != [] && Clock(times)
    ensures 0.0 <= After(p, times).tokens <= p.capacity
    ensures After(p, times).lastRefill == times[|times| - 1]
  {
    var n := |times| - 1;
    GainFacts(p, 0.0, 0.0);
    if n > 0 {
      LevelInRange(p, times[..n]);
      GainFacts(p, 0.0, times[n] - times[n - 1]);
    }
  }

  lemma BudgetNext(p: Params, times: seq<real>, i: nat)
    requires p.Valid() && i + 1 < |times|
    ensures var n := |times| - 1;
      Budget(p, times, i) == Budget(p, times[..n], i) + Gain(p, times[n] - times[n - 1])
        - (if Admits(p, times) then 1.0 else 0.0)
  {
    var n := |times| - 1;
    GainFacts(p, times[n - 1] - times[i], times[n] - times[n - 1]);
  }

  lemma BudgetLast(p: Params, times: seq<real>)
    requires p.Valid() && times != []
    ensures Budget(p, times, |times| - 1) == p.capacity - (if Admits(p, times) then 1.0 else 0.0)
  {
    GainFacts(p, 0.0, 0.0);
    assert Admitted(p, times[..|times| - 1], |times| - 1) == 0;
  }

  /** The level after a run is the least budget over all starting points. */
  lemma {:induction false} LevelIsLeastBudget(p: Params, times: seq<real>) returns (best: nat)
    requires p.Valid() && times != [] && Clock(times)
    ensures forall i :: 0 <= i < |times| ==> After(p, times).tokens <= Budget(p, times, i)
    ensures best < |times| && After(p, times).tokens == Budget(p, times, best)
  {
    var n := |times| - 1;
    best := n;
    BudgetLast(p, times);
    if n == 0 {
      GainFacts(p, 0.0, 0.0);
    } else {
      var init := times[..n];
      LevelInRange(p, init);
      var was := LevelIsLeastBudget(p, init);
      forall i | 0 <= i < |times| ensures After(p, times).tokens <= Budget(p, times, i) {
        if i < n { BudgetNext(p, times, i); }
      }
      BudgetNext(p, times, was);
      if After(p, init).tokens + Gain(p, times[n] - times[n - 1]) <= p.capacity { best := was; }
    }
  }

  /** Any stretch of requests lasting at most `length` admits at most capacity + rate * length. */
  lemma WindowBound(p: Params, times: seq<real>, i: nat, length: real)
    requires p.Valid() && Clock(times) && i < |times|
    requires times[|times| - 1] - times[i] <= length
    ensures Admitted(p, times, i) as real <= p.capacity + Gain(p, length)
  {
    LevelInRange(p, times);
    var best := LevelIsLeastBudget(p, times);
    assert After(p, times).tokens <= Budget(p, times, i);
    GainFacts(p, times[|times| - 1] - times[i], length);
  }

  /** And the bucket refuses nothing it could have admitted: a request is turned away exactly when
      admitting it would break the bound of some stretch that ends with it. */
  lemma RefusesOnlyWhenItMust(p: Params, times: seq<real>)
    requires p.Valid() && times != [] && Clock(times)
    ensures Admits(p, times) <==> forall i :: 0 <= i < |times| ==>
      Admitted(p, times[..|times| - 1], i) as real + 1.0 <= p.capacity + Gain(p, times[|times| - 1] - times[i])
  {
    LevelInRange(p, times);
    var best := LevelIsLeastBudget(p, times);
    var last := if Admits(p, times) then 1.0 else 0.0;
    forall i | 0 <= i < |times|
      ensures Admitted(p, times[..|times| - 1], i) as real + last
        == p.capacity + Gain(p, times[|times| - 1] - times[i]) - Budget(p, times, i)
      ensures After(p, times).tokens <= Budget(p, times, i)
    {}
  }
}
