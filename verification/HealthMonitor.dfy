/** The hysteresis of a health monitor, internal/process/healthcheck.go. */
module HealthMonitor {

  /** The two thresholds of a health check, as configured: either may be zero or negative. */
  datatype Thresholds = Thresholds(failure: int, success: int) {
    /** The success threshold defaults to one; a failure threshold below one acts like one. */
    function F(): (f: int)
      ensures f >= 1 && f >= failure && (f == 1 || f == failure)
    {
      if failure < 1 then 1 else failure
    }

    function S(): (s: int)
      ensures s >= 1 && s >= success && (s == 1 || s == success)
    {
      if success <= 0 then 1 else success
    }
  }

  datatype Status = Status(healthy: bool, lastCheckSucceeded: bool)

  /** `n` checks in a row starting at `i` all ended with `outcome`. */
  predicate Streak(h: seq<bool>, outcome: bool, i: int, n: int) {
    0 <= i <= i + n <= |h| && forall k :: i <= k < i + n ==> h[k] == outcome
  }

  /** Some streak of F failures has not been followed by a streak of S successes. */
  predicate Down(t: Thresholds, h: seq<bool>) {
    exists i | 0 <= i <= |h| :: Unanswered(t, h, i)
  }

  predicate Unanswered(t: Thresholds, h: seq<bool>, i: int) {
    Streak(h, false, i, t.F()) &&
    forall j | i + t.F() <= j <= |h| :: !Streak(h, true, j, t.S())
  }

  /** Streaks inside a history are not touched by one more check. */
  lemma StreakExtends(h: seq<bool>, last: bool, outcome: bool, i: int, n: int)
    ensures Streak(h, outcome, i, n) ==> Streak(h + [last], outcome, i, n)
    ensures Streak(h + [last], outcome, i, n) && i + n <= |h| ==> Streak(h, outcome, i, n)
  {
    var g := h + [last];
    assert forall k :: 0 <= k < |h| ==> g[k] == h[k];
  }

  /** The length of the longest streak of `outcome` at the end of the history. */
  function Tail(h: seq<bool>, outcome: bool): nat {
    if h == [] || h[|h| - 1] != outcome then 0 else Tail(h[..|h| - 1], outcome) + 1
  }

  lemma {:induction false} TailIsStreak(h: seq<bool>, outcome: bool)
    ensures Tail(h, outcome) <= |h| && Streak(h, outcome, |h| - Tail(h, outcome), Tail(h, outcome))
    ensures Tail(h, outcome) < |h| ==> h[|h| - Tail(h, outcome) - 1] != outcome
  {
    if h != [] && h[|h| - 1] == outcome {
      TailIsStreak(h[..|h| - 1], outcome);
    }
  }

  /** How often the monitor has gone down, and how often it has come back up. */
  function Falls(t: Thresholds, h: seq<bool>): nat {
    if h == [] then 0
    else Falls(t, h[..|h| - 1]) + if !Down(t, h[..|h| - 1]) && Down(t, h) then 1 else 0
  }

  function Recoveries(t: Thresholds, h: seq<bool>): nat {
    if h == [] then 0
    else Recoveries(t, h[..|h| - 1]) + if Down(t, h[..|h| - 1]) && !Down(t, h) then 1 else 0
  }

  /** A long tail of successes is itself a streak, and it lies after every failure. */
  lemma StreakAtEnd(h: seq<bool>, failed: int, n: int)
    requires 0 <= failed < |h| && !h[failed] && n >= 1
    ensures Tail(h, true) >= n ==> failed < |h| - n && Streak(h, true, |h| - n, n)
  {
    TailIsStreak(h, true);
  }

  /** A streak that reaches the end is no longer than the tail. */
  lemma StreakIsTail(h: seq<bool>, i: int, n: int)
    requires n >= 1
    ensures Streak(h, true, i, n) && i + n == |h| ==> Tail(h, true) >= n
  {
    TailIsStreak(h, true);
    var k := |h| - Tail(h, true) - 1;
    if k >= 0 { assert !h[k]; }
  }

  /** A failed check takes the monitor down exactly when it completes F failures in a row. */
  lemma AfterFailure(t: Thresholds, h: seq<bool>)
    ensures Down(t, h + [false]) <==> Down(t, h) || Tail(h + [false], false) >= t.F()
  {
    var g := h + [false];
    TailIsStreak(g, false);
    if i :| 0 <= i <= |g| && Unanswered(t, g, i) {
      if i + t.F() <= |h| {
        forall j | i + t.F() <= j <= |h| ensures !Streak(h, true, j, t.S()) {
          StreakExtends(h, false, true, j, t.S());
        }
        StreakExtends(h, false, false, i, t.F());
        assert Unanswered(t, h, i);
      }
    }
    if i :| 0 <= i <= |h| && Unanswered(t, h, i) {
      forall j | i + t.F() <= j <= |g| ensures !Streak(g, true, j, t.S()) {
        StreakExtends(h, false, true, j, t.S());
        if j + t.S() == |g| { assert !g[j + t.S() - 1]; }
      }
      StreakExtends(h, false, false, i, t.F());
      assert Unanswered(t, g, i);
    }
    if Tail(g, false) >= t.F() {
      var i := |g| - t.F();
      forall j | i + t.F() <= j <= |g| ensures !Streak(g, true, j, t.S()) {}
      assert Unanswered(t, g, i);
    }
  }

  /** A monitor that is down stays down until a successful check completes S successes in a row. */
  lemma AfterSuccess(t: Thresholds, h: seq<bool>)
    ensures Down(t, h + [true]) <==> Down(t, h) && Tail(h + [true], true) < t.S()
  {
    var g := h + [true];
    TailIsStreak(g, true);
    if i :| 0 <= i <= |g| && Unanswered(t, g, i) {
      assert !g[i + t.F() - 1];
      forall j | i + t.F() <= j <= |h| ensures !Streak(h, true, j, t.S()) {
        StreakExtends(h, true, true, j, t.S());
      }
      StreakExtends(h, true, false, i, t.F());
      assert Unanswered(t, h, i);
      StreakAtEnd(g, i + t.F() - 1, t.S());
    }
    if Tail(g, true) < t.S() {
      if i :| 0 <= i <= |h| && Unanswered(t, h, i) {
        forall j | i + t.F() <= j <= |g| ensures !Streak(g, true, j, t.S()) {
          StreakExtends(h, true, true, j, t.S());
          StreakIsTail(g, j, t.S());
        }
        StreakExtends(h, true, false, i, t.F());
        assert Unanswered(t, g, i);
      }
    }
  }

  /** F failures in a row at the end take the monitor down. */
  lemma LongTailMeansDown(t: Thresholds, h: seq<bool>)
    requires Tail(h, false) >= t.F()
    ensures Down(t, h)
  {
    TailIsStreak(h, false);
    assert Unanswered(t, h, |h| - t.F());
  }

  /** A monitor that is up has never seen F failures in a row at the end. */
  lemma UpMeansShortTail(t: Thresholds, h: seq<bool>)
    requires !Down(t, h)
    ensures Tail(h, false) < t.F()
  {
    if Tail(h, false) >= t.F() { LongTailMeansDown(t, h); }
  }

  /** A monitor that is down has not seen S successes in a row at the end. */
  lemma DownMeansShortTail(t: Thresholds, h: seq<bool>)
    requires Down(t, h)
    ensures Tail(h, true) < t.S()
  {
    var i :| 0 <= i <= |h| && Unanswered(t, h, i);
    StreakAtEnd(h, i + t.F() - 1, t.S());
  }

  /** The checks that falls and recoveries account for: F for each fall, S for each recovery. */
  function Spent(t: Thresholds, h: seq<bool>): int {
    if h == [] then 0
    else
      var before := h[..|h| - 1];
      Spent(t, before) + if Down(t, before) == Down(t, h) then 0 else if Down(t, h) then t.F() else t.S()
  }

  /** What is left over is at least the streak that works towards the next change. */
  lemma {:induction false} SpentLeavesTail(t: Thresholds, h: seq<bool>)
    ensures Spent(t, h) + (if Down(t, h) then Tail(h, true) else Tail(h, false)) <= |h|
  {
    if h == [] {
    } else {
      var g := h[..|h| - 1];
      SpentLeavesTail(t, g);
      assert h == g + [h[|h| - 1]];
      if h[|h| - 1] {
        AfterSuccess(t, g);
        if Down(t, g) { DownMeansShortTail(t, g); }
      } else {
        AfterFailure(t, g);
        if !Down(t, g) { UpMeansShortTail(t, g); }
      }
    }
  }

  lemma {:induction false} SpentCounts(t: Thresholds, h: seq<bool>)
    ensures Spent(t, h) == Falls(t, h) * t.F() + Recoveries(t, h) * t.S()
    ensures Falls(t, h) == Recoveries(t, h) + if Down(t, h) then 1 else 0
  {
    if h == [] {
      assert !Down(t, h);
    } else {
      var g := h[..|h| - 1];
      SpentCounts(t, g);
      AddOne(Falls(t, g), t.F());
      AddOne(Recoveries(t, g), t.S());
    }
  }

  lemma AddOne(n: int, k: int)
    ensures (n + 1) * k == n * k + k
  {}

  /** Every fall costs F checks of its own and every recovery S: the monitor cannot flap faster. */
  lemma FlapBound(t: Thresholds, h: seq<bool>)
    ensures Falls(t, h) * t.F() + Recoveries(t, h) * t.S() <= |h|
    ensures Falls(t, h) == Recoveries(t, h) + if Down(t, h) then 1 else 0
  {
    SpentCounts(t, h);
    SpentLeavesTail(t, h);
  }

  /** What one more check makes of the tails and of the verdict. */
  lemma OneMoreCheck(t: Thresholds, h: seq<bool>, ok: bool)
    ensures Tail(h + [ok], ok) == Tail(h, ok) + 1 && Tail(h + [ok], !ok) == 0
    ensures ok ==> (Down(t, h + [ok]) <==> Down(t, h) && Tail(h, true) + 1 < t.S())
    ensures !ok ==> (Down(t, h + [ok]) <==> Down(t, h) || Tail(h, false) + 1 >= t.F())
  {
    assert (h + [ok])[..|h + [ok]| - 1] == h;
    if ok { AfterSuccess(t, h); } else { AfterFailure(t, h); }
  }

  /** The monitor: two counters and a flag, updated by every check. */
  class Monitor {
    const t: Thresholds
    var consecutiveFails: int
    var consecutiveSuccess: int
    var currentlyHealthy: bool
    /** The outcomes of all checks so far, oldest first. */
    ghost var history: seq<bool>

    ghost predicate Valid()
      reads this
    {
      && consecutiveFails == Tail(history, false)
      && consecutiveSuccess == Tail(history, true)
      && (currentlyHealthy <==> !Down(t, history))
    }

    constructor (t: Thresholds)
      ensures Valid() && this.t == t && history == [] && currentlyHealthy
    {
      this.t := t;
      consecutiveFails := 0;
      consecutiveSuccess := 0;
      currentlyHealthy := true;
      history := [];
    }

    /** One check whose outcome is `ok`. The flag follows `Down`; the status reported differs from the flag
      * exactly when a failed check does not yet complete F failures while the monitor is down. */
    method PerformCheck(ok: bool) returns (status: Status)
      requires Valid()
      modifies this
      ensures Valid() && history == old(history) + [ok]
      ensures status.lastCheckSucceeded == ok
      ensures status.healthy <==> !Down(t, history) || (!ok && Tail(history, false) < t.F())
    {
      OneMoreCheck(t, history, ok);
      history := history + [ok];
      status := Update(ok);
    }

    /** The counters and the flag. */
    method Update(ok: bool) returns (status: Status)
      modifies `consecutiveFails, `consecutiveSuccess, `currentlyHealthy
      ensures consecutiveFails == (if ok then 0 else old(consecutiveFails) + 1)
      ensures consecutiveSuccess == (if ok then old(consecutiveSuccess) + 1 else 0)
      ensures ok ==> (currentlyHealthy <==> old(currentlyHealthy) || consecutiveSuccess >= t.S())
      ensures !ok ==> (currentlyHealthy <==> old(currentlyHealthy) && consecutiveFails < t.failure)
      ensures status.lastCheckSucceeded == ok
      ensures status.healthy <==> currentlyHealthy || (!ok && consecutiveFails < t.failure)
    {
      var successThreshold := t.success;
      if successThreshold <= 0 {
        successThreshold := 1;
      }
      if !ok {
        consecutiveFails := consecutiveFails + 1;
        consecutiveSuccess := 0;
        if consecutiveFails >= t.failure {
          if currentlyHealthy {
            currentlyHealthy := false;
          }
          return Status(false, false);
        }
        return Status(true, false);
      }
      consecutiveSuccess := consecutiveSuccess + 1;
      consecutiveFails := 0;
      if !currentlyHealthy {
        if consecutiveSuccess >= successThreshold {
          currentlyHealthy := true;
          return Status(true, true);
        }
        return Status(false, true);
      }
      return Status(true, true);
    }
  }

  /** A failed check that is reported healthy although the monitor is down. */
  predicate Disagrees(t: Thresholds, h: seq<bool>) {
    h != [] && !h[|h| - 1] && Down(t, h) && Tail(h, false) < t.F()
  }

  /** Only thresholds above one, both of them, let a status disagree with the flag. */
  lemma DisagreementNeedsTwo(t: Thresholds, h: seq<bool>)
    requires Disagrees(t, h)
    ensures t.F() >= 2 && t.S() >= 2
  {
    var i :| 0 <= i <= |h| && Unanswered(t, h, i);
    TailIsStreak(h, false);
    var p := |h| - Tail(h, false) - 1;
    assert h[p];
    if i + t.F() <= p {
      assert !Streak(h, true, p, t.S());
    }
  }

  /** And with both above one it does happen: go down, succeed once, fail once. */
  lemma DisagreementExists(t: Thresholds) returns (h: seq<bool>)
    requires t.F() >= 2 && t.S() >= 2
    ensures Disagrees(t, h)
  {
    var down := seq(t.F(), _ => false);
    assert Unanswered(t, down, 0);
    AfterSuccess(t, down);
    assert down[|down| - 1] == false;
    AfterFailure(t, down + [true]);
    h := down + [true] + [false];
    assert (down + [true])[..|down|] == down;
    assert h[..|down| + 1] == down + [true];
  }
}
