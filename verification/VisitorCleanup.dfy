/** Cleaning up idle visitors never changes a decision, and addresses do not influence each other. */
module VisitorCleanup {
  import opened TokenBucket
  import opened RateLimiter

  /** A run of the limiter, in the order in which buckets are asked. A request looks its visitor up first and asks the
      visitor's bucket later; if a clean-up pass has deleted the visitor in between, the request is caught: it asks a
      bucket that the map no longer holds, and its answer can be anything. */
  datatype Event = Request(ip: string, at: Readings) | Cleanup(now: real) | Caught(ip: string, now: real, answer: bool)

  function Effect(p: Params, m: Visitors, e: Event): Visitors {
    match e
    case Request(ip, at) => AfterRequest(p, m, ip, at)
    case Cleanup(now) => AfterCleanup(m, now)
    case Caught(_, _, _) => m
  }

  function Run(p: Params, events: seq<Event>): Visitors {
    if events == [] then map[] else Effect(p, Run(p, events[..|events| - 1]), events[|events| - 1])
  }

  /** What the requests of one address are told, except those that are caught. */
  function Decisions(p: Params, events: seq<Event>, ip: string): seq<bool> {
    if events == [] then [] else
      var init, last := events[..|events| - 1], events[|events| - 1];
      if last.Request? && last.ip == ip then Decisions(p, init, ip) + [Allowed(p, Run(p, init), ip, last.at)]
      else Decisions(p, init, ip)
  }

  /** When they were refilled for. */
  function Times(events: seq<Event>, ip: string): seq<real> {
    if events == [] then [] else
      var init, last := events[..|events| - 1], events[|events| - 1];
      if last.Request? && last.ip == ip then Times(init, ip) + [last.at.now] else Times(init, ip)
  }

  /** The decisions of one bucket that is full at the first request and never thrown away. */
  function Verdicts(p: Params, times: seq<real>): (r: seq<bool>)
    ensures |r| == |times|
  {
    if times == [] then [] else Verdicts(p, times[..|times| - 1]) + [Admits(p, times)]
  }

  // ----- clocks

  function Begin(e: Event): real {
    if e.Request? then e.at.created else e.now
  }

  function EndOf(e: Event): real {
    if e.Request? then e.at.now else e.now
  }

  /** Readings never go back, and a request refills at most `lag` after it was noted as seen. */
  predicate ClockOk(events: seq<Event>, lag: real) {
    && (forall i :: 0 <= i < |events| ==> EventOk(events[i], lag))
    && (forall i :: 0 < i < |events| ==> EndOf(events[i - 1]) <= Begin(events[i]))
  }

  predicate EventOk(e: Event, lag: real) {
    e.Request? ==> e.at.created <= e.at.seen <= e.at.now <= e.at.seen + lag
  }

  // ----- the simulation

  /** The limiter's view of one address against the bucket that is never thrown away. */
  predicate Matches(p: Params, m: Visitors, ip: string, times: seq<real>, end: real, lag: real) {
    && Clock(times)
    && (times != [] ==> times[|times| - 1] <= end)
    && (ip in m ==> times != [] && m[ip].bucket == After(p, times))
    && (ip in m ==> m[ip].lastSeen <= times[|times| - 1] <= m[ip].lastSeen + lag)
    && (ip !in m && times != [] ==> Gain(p, end - times[|times| - 1]) >= p.capacity)
  }

  /** Two buckets that refill to the same level are the same from then on. */
  lemma SameFrom(p: Params, m: Visitors, ip: string, times: seq<real>, end: real, lag: real, at: Readings)
    requires p.Valid() && Matches(p, m, ip, times, end, lag)
    requires end <= at.created <= at.now || (times == [] && at.created <= at.now)
    ensures Refilled(p, Find(p, m, ip, at.created), at.now) == Refilled(p, Found(p, times + [at.now]), at.now)
  {
    var longer := times + [at.now];
    assert longer[..|longer| - 1] == times;
    if ip !in m {
      GainFacts(p, 0.0, at.now - at.created);
      if times != [] {
        LevelInRange(p, times);
        GainFacts(p, end - times[|times| - 1], at.now - times[|times| - 1]);
      }
    }
  }

  lemma OwnRequest(p: Params, m: Visitors, ip: string, times: seq<real>, end: real, lag: real, at: Readings)
    requires p.Valid() && Matches(p, m, ip, times, end, lag) && EventOk(Request(ip, at), lag)
    requires times != [] || ip in m ==> end <= at.created
    ensures Matches(p, AfterRequest(p, m, ip, at), ip, times + [at.now], at.now, lag)
    ensures Allowed(p, m, ip, at) == Admits(p, times + [at.now])
  {
    SameFrom(p, m, ip, times, end, lag, at);
  }

  lemma Later(p: Params, m: Visitors, ip: string, times: seq<real>, end: real, later: real, lag: real)
    requires p.Valid() && Matches(p, m, ip, times, end, lag) && end <= later
    ensures Matches(p, m, ip, times, later, lag)
  {
    if times != [] {
      GainFacts(p, end - times[|times| - 1], later - times[|times| - 1]);
    }
  }

  /** A visitor idle long enough to be deleted has a bucket that would be full again. */
  lemma Deleted(p: Params, m: Visitors, ip: string, times: seq<real>, now: real, lag: real)
    requires p.Valid() && Matches(p, m, ip, times, now, lag)
    requires Gain(p, IDLE_LIMIT - lag) >= p.capacity
    ensures Matches(p, AfterCleanup(m, now), ip, times, now, lag)
  {
    if ip in m && Idle(m[ip], now) {
      GainFacts(p, IDLE_LIMIT - lag, now - times[|times| - 1]);
    }
  }

  /** Events that do not ask the address's own bucket leave the match as it is. */
  lemma OtherEvent(p: Params, m: Visitors, e: Event, ip: string, times: seq<real>, end: real, lag: real)
    requires p.Valid() && Gain(p, IDLE_LIMIT - lag) >= p.capacity && EventOk(e, lag)
    requires Matches(p, m, ip, times, end, lag) && end <= Begin(e) && !(e.Request? && e.ip == ip)
    ensures Matches(p, Effect(p, m, e), ip, times, EndOf(e), lag)
  {
    Later(p, m, ip, times, end, EndOf(e), lag);
    if e.Cleanup? { Deleted(p, m, ip, times, e.now, lag); }
  }

  lemma {:induction false} Simulation(p: Params, events: seq<Event>, ip: string, lag: real)
    requires p.Valid() && Gain(p, IDLE_LIMIT - lag) >= p.capacity && ClockOk(events, lag) && events != []
    ensures Matches(p, Run(p, events), ip, Times(events, ip), EndOf(events[|events| - 1]), lag)
    ensures Decisions(p, events, ip) == Verdicts(p, Times(events, ip))
  {
    var n := |events| - 1;
    var init, last := events[..n], events[n];
    var m, times := Run(p, init), Times(init, ip);
    if n > 0 {
      Simulation(p, init, ip, lag);
    }
    var end := if n > 0 then EndOf(events[n - 1]) else Begin(last);
    assert EventOk(last, lag) && end <= Begin(last);
    if last.Request? && last.ip == ip {
      OwnRequest(p, m, ip, times, end, lag, last.at);
      assert (times + [last.at.now])[..|times|] == times;
    } else {
      OtherEvent(p, m, last, ip, times, end, lag);
    }
  }

  /** However clean-up passes and other addresses interleave, an address is told exactly what one bucket,
      asked at the address's own times and never thrown away, would tell it. */
  lemma OwnBucketDecides(p: Params, events: seq<Event>, ip: string, lag: real)
    requires p.Valid() && Gain(p, IDLE_LIMIT - lag) >= p.capacity && ClockOk(events, lag)
    ensures Decisions(p, events, ip) == Verdicts(p, Times(events, ip))
  {
    if events != [] { Simulation(p, events, ip, lag); }
  }

  /** A limiter that runs the clean-up passes and one that runs other passes, or none, decide alike. */
  lemma CleanupIsInvisible(p: Params, with: seq<Event>, without: seq<Event>, ip: string, lag: real)
    requires p.Valid() && Gain(p, IDLE_LIMIT - lag) >= p.capacity
    requires ClockOk(with, lag) && ClockOk(without, lag)
    requires Times(with, ip) == Times(without, ip)
    ensures Decisions(p, with, ip) == Decisions(p, without, ip)
  {
    OwnBucketDecides(p, with, ip, lag);
    OwnBucketDecides(p, without, ip, lag);
  }

  /** The limiter NewServer builds meets the condition with almost ten minutes to spare. */
  lemma NewServerIsSafe(events: seq<Event>, ip: string)
    requires ClockOk(events, 598.0)
    ensures Decisions(Params(100.0, 200.0), events, ip) == Verdicts(Params(100.0, 200.0), Times(events, ip))
  {
    OwnBucketDecides(Params(100.0, 200.0), events, ip, 598.0);
  }

  function Yes(d: seq<bool>): nat {
    if d == [] then 0 else Yes(d[..|d| - 1]) + if d[|d| - 1] then 1 else 0
  }

  lemma {:induction false} YesIsAdmitted(p: Params, times: seq<real>, i: nat)
    requires i <= |times|
    ensures Yes(Verdicts(p, times)[i..]) == Admitted(p, times, i)
  {
    if i < |times| {
      var n := |times| - 1;
      YesIsAdmitted(p, times[..n], i);
      assert Verdicts(p, times)[i..] == Verdicts(p, times[..n])[i..] + [Admits(p, times)];
    }
  }

  /** The requests of one address that were caught, and those of them that were admitted. */
  function CaughtOf(events: seq<Event>, ip: string): nat {
    if events == [] then 0 else
      var last := events[|events| - 1];
      CaughtOf(events[..|events| - 1], ip) + if last.Caught? && last.ip == ip then 1 else 0
  }

  function CaughtYes(events: seq<Event>, ip: string): nat {
    if events == [] then 0 else
      var last := events[|events| - 1];
      CaughtYes(events[..|events| - 1], ip) + if last.Caught? && last.ip == ip && last.answer then 1 else 0
  }

  lemma {:induction false} CaughtAtMost(events: seq<Event>, ip: string)
    ensures CaughtYes(events, ip) <= CaughtOf(events, ip)
  {
    if events != [] { CaughtAtMost(events[..|events| - 1], ip); }
  }

  lemma {:induction false} TimesGrow(events: seq<Event>, a: nat, ip: string)
    requires a <= |events|
    ensures |Times(events[..a], ip)| <= |Times(events, ip)|
  {
    if a < |events| {
      TimesGrow(events[..|events| - 1], a, ip);
      assert events[..|events| - 1][..a] == events[..a];
    } else {
      assert events[..a] == events;
    }
  }

  /** So the bound of the bucket holds for each address, clean-up or not, up to the caught requests: from event `a` on,
      if the requests from there on fall within `length` seconds, at most capacity + rate * length are admitted, and one
      more for each caught request. */
  lemma AddressBound(p: Params, events: seq<Event>, ip: string, lag: real, a: nat, length: real)
    requires p.Valid() && Gain(p, IDLE_LIMIT - lag) >= p.capacity && ClockOk(events, lag) && a <= |events|
    requires length >= 0.0
    requires var i := |Times(events[..a], ip)|;
             i < |Times(events, ip)| ==> Times(events, ip)[|Times(events, ip)| - 1] - Times(events, ip)[i] <= length
    ensures |Decisions(p, events, ip)| == |Times(events, ip)| >= |Times(events[..a], ip)|
    ensures (Yes(Decisions(p, events, ip)[|Times(events[..a], ip)|..]) + CaughtYes(events[a..], ip)) as real
              <= p.capacity + Gain(p, length) + CaughtOf(events[a..], ip) as real
  {
    var times, i := Times(events, ip), |Times(events[..a], ip)|;
    TimesGrow(events, a, ip);
    OwnBucketDecides(p, events, ip, lag);
    YesIsAdmitted(p, times, i);
    CaughtAtMost(events[a..], ip);
    GainFacts(p, 0.0, length);
    if i < |times| {
      Simulation(p, events, ip, lag);
      WindowBound(p, times, i, length);
    } else {
      assert Decisions(p, events, ip)[i..] == [];
    }
  }

  /** Where the condition fails, clean-up shows: deleting an idle visitor changes the answer to its next
      request exactly when its own bucket would still be below one token. */
  lemma CleanupShowsWhen(p: Params, m: Visitors, ip: string, now: real, at: Readings)
    requires p.Valid() && ip in m && Idle(m[ip], now) && at.created <= at.now
    ensures Allowed(p, AfterCleanup(m, now), ip, at) != Allowed(p, m, ip, at) <==>
            Refilled(p, m[ip].bucket, at.now) < 1.0 <= p.capacity
  {
    GainFacts(p, 0.0, at.now - at.created);
  }

  /** The one extra admission is real: the token a caught request takes from a full bucket is lost, and at the address's
      next request the limiter is ahead of the address's own bucket, by one token at most, and exactly until that token
      would have been gained again. */
  lemma CaughtRequest(p: Params, m: Visitors, ip: string, pass: real, at: Readings, next: Readings)
    requires p.Valid() && p.capacity >= 1.0
    requires ip in m && Idle(m[ip], pass) && Refilled(p, m[ip].bucket, at.now) == p.capacity
    requires at.now <= next.created <= next.now
    ensures Allowed(p, m, ip, at)
    ensures var own := Refilled(p, AfterRequest(p, m, ip, at)[ip].bucket, next.now);
            var met := Refilled(p, Find(p, AfterCleanup(m, pass), ip, next.created), next.now);
            own <= met <= own + 1.0 && (own == met <==> Gain(p, next.now - at.now) >= 1.0)
  {
    GainFacts(p, 0.0, next.now - at.now);
    GainFacts(p, 0.0, next.now - next.created);
  }

  const NARROW := Params(1.0, 1.0)

  /** A run in which it happens: a bucket of one token, refilled by one a second. The visitor is deleted while a request
      that has looked it up is under way; that request and the next one are both admitted at second 601. */
  function CaughtRun(ip: string): seq<Event> {
    Begun(ip) + [Cleanup(601.0)] + [Caught(ip, 601.0, true)] + [Request(ip, Readings(601.0, 601.0, 601.0))]
  }

  function Begun(ip: string): seq<Event> {
    [Request(ip, Readings(0.0, 0.0, 0.0))]
  }

  lemma OneMoreEvent(p: Params, events: seq<Event>, e: Event, ip: string)
    ensures Run(p, events + [e]) == Effect(p, Run(p, events), e)
    ensures Decisions(p, events + [e], ip) ==
      if e.Request? && e.ip == ip then Decisions(p, events, ip) + [Allowed(p, Run(p, events), ip, e.at)]
      else Decisions(p, events, ip)
    ensures Times(events + [e], ip) ==
      if e.Request? && e.ip == ip then Times(events, ip) + [e.at.now] else Times(events, ip)
    ensures CaughtOf(events + [e], ip) == CaughtOf(events, ip) + if e.Caught? && e.ip == ip then 1 else 0
    ensures CaughtYes(events + [e], ip) == CaughtYes(events, ip) + if e.Caught? && e.ip == ip && e.answer then 1 else 0
  {
    assert (events + [e])[..|events|] == events;
  }

  lemma BegunRuns(ip: string)
    ensures Run(NARROW, Begun(ip)) == map[ip := Seen(Bucket(0.0, 0.0), 0.0)]
    ensures Decisions(NARROW, Begun(ip), ip) == [true] && Times(Begun(ip), ip) == [0.0]
  {
    assert [] + Begun(ip) == Begun(ip);
    OneMoreEvent(NARROW, [], Begun(ip)[0], ip);
  }

  /** After the pass and the caught request nobody is known any more. */
  lemma CaughtForgets(ip: string)
    ensures var events := Begun(ip) + [Cleanup(601.0)] + [Caught(ip, 601.0, true)];
            Run(NARROW, events) == map[] && Decisions(NARROW, events, ip) == [true]
  {
    BegunRuns(ip);
    var m := Run(NARROW, Begun(ip));
    assert Idle(m[ip], 601.0);
    OneMoreEvent(NARROW, Begun(ip), Cleanup(601.0), ip);
    assert AfterCleanup(m, 601.0) == map[];
    OneMoreEvent(NARROW, Begun(ip) + [Cleanup(601.0)], Caught(ip, 601.0, true), ip);
  }

  lemma CaughtClock(ip: string)
    ensures ClockOk(CaughtRun(ip), 0.0) && CaughtRun(ip)[..1] == Begun(ip)
  {}

  /** The bound for addresses is attained by it, the extra admission included; and the caught request's answer is the
      one the deleted bucket gives. */
  lemma CaughtRunExceeds(ip: string)
    ensures ClockOk(CaughtRun(ip), 0.0) && Gain(NARROW, IDLE_LIMIT) >= NARROW.capacity
    ensures CaughtRun(ip)[..1] == Begun(ip) && Times(Begun(ip), ip) == [0.0]
    ensures Allowed(NARROW, Run(NARROW, Begun(ip)), ip, Readings(601.0, 601.0, 601.0))
    ensures Decisions(NARROW, CaughtRun(ip), ip) == [true, true]
    ensures CaughtYes(CaughtRun(ip)[1..], ip) == 1 == CaughtOf(CaughtRun(ip)[1..], ip)
  {
    CaughtClock(ip);
    BegunRuns(ip);
    CaughtForgets(ip);
    var before := Begun(ip) + [Cleanup(601.0)] + [Caught(ip, 601.0, true)];
    OneMoreEvent(NARROW, before, Request(ip, Readings(601.0, 601.0, 601.0)), ip);
    CaughtOne(ip);
  }

  lemma CaughtOne(ip: string)
    ensures CaughtYes(CaughtRun(ip)[1..], ip) == 1 == CaughtOf(CaughtRun(ip)[1..], ip)
  {
    var pass, caught, last := Cleanup(601.0), Caught(ip, 601.0, true), Request(ip, Readings(601.0, 601.0, 601.0));
    assert CaughtRun(ip)[1..] == [] + [pass] + [caught] + [last];
    OneMoreEvent(NARROW, [], pass, ip);
    OneMoreEvent(NARROW, [] + [pass], caught, ip);
    OneMoreEvent(NARROW, [] + [pass] + [caught], last, ip);
  }
}
