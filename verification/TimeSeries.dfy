/** The ring of resource samples of internal/metrics/timeseries.go. */
module TimeSeries {
  import opened Results
  import opened Sequences

  datatype Sample = Sample(timestamp: int, cpuPercent: real, memoryRss: nat)

  const DEFAULT_SAMPLES := 720

  /** The samples taken at `since` or later. */
  function Since(s: seq<Sample>, since: int): seq<Sample> {
    if s == [] then []
    else if s[0].timestamp >= since then [s[0]] + Since(s[1..], since)
    else Since(s[1..], since)
  }

  lemma {:induction false} SinceConcat(a: seq<Sample>, b: seq<Sample>, since: int)
    ensures Since(a + b, since) == Since(a, since) + Since(b, since)
  {
    if a == [] {
      assert a + b == b;
    } else {
      assert (a + b)[1..] == a[1..] + b;
      SinceConcat(a[1..], b, since);
    }
  }

  lemma {:induction false} SinceLength(s: seq<Sample>, since: int)
    ensures |Since(s, since)| <= |s|
  {
    if s != [] { SinceLength(s[1..], since); }
  }

  /** Exactly the samples from `since` on are kept, in their order. */
  lemma {:induction false} SinceMeans(s: seq<Sample>, since: int, e: Sample)
    ensures multiset(Since(s, since))[e] == if e.timestamp >= since then multiset(s)[e] else 0
  {
    if s != [] {
      SinceMeans(s[1..], since, e);
      assert s == [s[0]] + s[1..];
    }
  }

  lemma SinceFrom(s: seq<Sample>, j: nat, since: int)
    requires j < |s|
    ensures Since(s[j..], since) == (if s[j].timestamp >= since then [s[j]] else []) + Since(s[j + 1..], since)
  {
    assert s[j..][1..] == s[j + 1..];
  }

  /** What GetRange promises of the samples stored. */
  function Wanted(stored: seq<Sample>, since: int, limit: int): seq<Sample> {
    if limit <= 0 || limit > |stored| then Since(stored, since) else Last(Since(stored, since), limit)
  }

  /** The backward walk may stop at the oldest sample or as soon as it has enough. */
  lemma WalkSuffices(stored: seq<Sample>, j: nat, since: int, limit: int)
    requires j <= |stored|
    requires var n := if limit <= 0 || limit > |stored| then |stored| else limit;
             var found := |Since(stored[j..], since)|;
             found <= n && (j == 0 || found == n)
    ensures Since(stored[j..], since) == Wanted(stored, since, limit)
  {
    assert stored == stored[..j] + stored[j..];
    SinceConcat(stored[..j], stored[j..], since);
    SinceLength(stored, since);
    if j == 0 { assert stored[j..] == stored; }
  }

  /** The slot written `k` samples before the newest one. */
  function Slot(head: nat, k: nat, max: nat): (r: nat)
    requires head < max && k < max
    ensures r < max
  {
    if k < head then head - 1 - k else head - 1 - k + max
  }

  function NextHead(head: nat, max: nat): (r: nat)
    requires head < max
    ensures r < max
  {
    if head + 1 < max then head + 1 else 0
  }

  lemma SlotNext(head: nat, k: nat, max: nat)
    requires head < max && k < max
    ensures Slot(NextHead(head, max), k, max) == if k == 0 then head else Slot(head, k - 1, max)
  {}

  /** The index arithmetic of the ring. */
  lemma Modulo(x: nat, max: nat)
    requires x < 2 * max
    ensures x % max == if x < max then x else x - max
  {}

  method Back(head: nat, k: nat, max: nat) returns (idx: nat)
    requires head < max && k < max
    ensures idx == Slot(head, k, max)
  {
    idx := (head - 1 - k + max) % max;
    Modulo(head - 1 - k + max, max);
  }

  method Forward(head: nat, max: nat) returns (next: nat)
    requires head < max
    ensures next == NextHead(head, max)
  {
    next := (head + 1) % max;
    Modulo(head + 1, max);
  }

  class TimeSeriesBuffer {
    const samples: array<Sample>
    const maxSamples: nat
    var head: nat
    var size: nat
    ghost var log: seq<Sample>  // everything added since the last Clear

    ghost predicate Valid()
      reads this, samples
    {
      && maxSamples >= 1 && samples.Length == maxSamples && head < maxSamples
      && size == (if |log| < maxSamples then |log| else maxSamples)
      && (forall k :: 0 <= k < size ==> samples[Slot(head, k, maxSamples)] == log[|log| - 1 - k])
    }

    ghost function Retained(): seq<Sample>
      reads this
    {
      Last(log, maxSamples)
    }

    constructor (maxSamples: int)
      ensures Valid() && log == [] && this.maxSamples == if maxSamples < 1 then 720 else maxSamples
      ensures fresh(samples)
    {
      var n: nat := if maxSamples < 1 then DEFAULT_SAMPLES else maxSamples;
      samples := new Sample[n](_ => Sample(0, 0.0, 0));
      this.maxSamples, head, size, log := n, 0, 0, [];
    }

    method Add(sample: Sample)
      requires Valid()
      modifies this, samples
      ensures Valid() && log == old(log) + [sample]
    {
      ghost var h, m := head, maxSamples;
      samples[head] := sample;
      head := Forward(head, maxSamples);
      if size < maxSamples {
        size := size + 1;
      }
      log := log + [sample];
      forall k | 0 <= k < size ensures samples[Slot(head, k, m)] == log[|log| - 1 - k] {
        SlotNext(h, k, m);
        if k > 0 { assert samples[Slot(h, k - 1, m)] == old(log)[|old(log)| - 1 - (k - 1)]; }
      }
    }

    /** The newest `limit` of the retained samples taken at `since` or later, oldest first; all of those
        for a limit that is not positive or exceeds what is stored. */
    method GetRange(since: int, limit: int) returns (result: seq<Sample>)
      requires Valid()
      ensures result == Wanted(Retained(), since, limit)
    {
      if size == 0 { return []; }
      var n: nat := if limit <= 0 || limit > size then size else limit;
      ghost var stored := Retained();
      result := [];
      var i := 0;
      assert stored[size..] == [];
      while i < size && |result| < n
        invariant i <= size && |result| <= n
        invariant result == Since(stored[size - i..], since)
      {
        result := Collect(since, i, result);
        i := i + 1;
      }
      WalkSuffices(stored, size - i, since, limit);
    }

    /** One turn of that walk: the sample stored `i` before the newest, if it is wanted, goes in front. */
    method Collect(since: int, i: nat, newer: seq<Sample>) returns (result: seq<Sample>)
      requires Valid() && i < size && newer == Since(Retained()[size - i..], since)
      ensures result == Since(Retained()[size - (i + 1)..], since)
      ensures |newer| <= |result| <= |newer| + 1
    {
      var idx := Back(head, i, maxSamples);
      var sample := samples[idx];
      assert sample == Retained()[size - 1 - i];
      SinceFrom(Retained(), size - 1 - i, since);
      result := newer;
      if sample.timestamp >= since {
        result := [sample] + result;
      }
    }

    method Latest() returns (r: Option<Sample>)
      requires Valid()
      ensures r == if log == [] then None else Some(log[|log| - 1])
    {
      if size == 0 { return None; }
      var idx := Back(head, 0, maxSamples);
      return Some(samples[idx]);
    }

    method Clear()
      requires Valid()
      modifies this
      ensures Valid() && log == []
    {
      head, size, log := 0, 0, [];
    }
  }
}
