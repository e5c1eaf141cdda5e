/** The bounded execution history of internal/schedule/history.go. */
module JobHistory {
  import opened Results
  import opened Sequences

  /** An entry without an end time is still running. */
  datatype Entry = Entry(
    id: int, start: int, end: Option<int>, exitCode: int, success: bool, error: string, triggered: string)

  datatype Outcome = Outcome(end: int, exitCode: int, success: bool, error: string)

  datatype History = History(entries: seq<Entry>, maxSize: int, nextID: int)

  function Opened(id: int, start: int, triggered: string): Entry {
    Entry(id, start, None, 0, false, "", triggered)
  }

  function Close(e: Entry, o: Outcome): Entry {
    e.(end := Some(o.end), exitCode := o.exitCode, success := o.success, error := o.error)
  }

  function New(maxSize: int): History {
    History([], if maxSize <= 0 then 100 else maxSize, 1)
  }

  /** Ids are handed out in order, one more than the last. */
  predicate Valid(h: History) {
    && h.maxSize >= 1 && |h.entries| <= h.maxSize && h.nextID > |h.entries|
    && forall i :: 0 <= i < |h.entries| ==> h.entries[i].id == h.nextID - |h.entries| + i
  }

  function Start(h: History, triggered: string, now: int): History
    requires Valid(h)
  {
    h.(entries := Last(h.entries + [Opened(h.nextID, now, triggered)], h.maxSize), nextID := h.nextID + 1)
  }

  /** Only the entry with that id changes, if it is still there. */
  function End(h: History, id: int, o: Outcome): History {
    h.(entries := seq(|h.entries|, i requires 0 <= i < |h.entries| =>
      if h.entries[i].id == id then Close(h.entries[i], o) else h.entries[i]))
  }

  function Recent(h: History, n: int): seq<Entry> {
    Reversed(if n <= 0 || n > |h.entries| then h.entries else Last(h.entries, n))
  }

  /** The newest entries, newest first: `n` of them, or all for any other `n`. */
  lemma RecentMeans(h: History, n: int)
    ensures |Recent(h, n)| == if 0 < n <= |h.entries| then n else |h.entries|
    ensures forall i :: 0 <= i < |Recent(h, n)| ==> Recent(h, n)[i] == h.entries[|h.entries| - 1 - i]
  {}

  lemma StartIsValid(h: History, triggered: string, now: int)
    requires Valid(h)
    ensures Valid(Start(h, triggered, now))
    ensures Start(h, triggered, now).entries != []
    ensures Recent(Start(h, triggered, now), 1) == [Opened(h.nextID, now, triggered)]
    ensures var entries := Start(h, triggered, now).entries;
            forall e :: e in entries[..|entries| - 1] ==> e in h.entries
  {
    var next := Start(h, triggered, now);
    assert |next.entries| == if |h.entries| < h.maxSize then |h.entries| + 1 else h.maxSize;
    forall e | e in next.entries[..|next.entries| - 1] ensures e in h.entries {
      var i :| 0 <= i < |next.entries| - 1 && next.entries[i] == e;
      assert e == h.entries[|h.entries| + 1 - |next.entries| + i];
    }
  }

  lemma EndIsValid(h: History, id: int, o: Outcome)
    requires Valid(h)
    ensures Valid(End(h, id, o))
  {}

  /** Every id ever handed out; the history keeps the newest `maxSize` of them. */
  lemma RetainsNewest(h: History, id: int)
    requires Valid(h)
    ensures (exists e :: e in h.entries && e.id == id) <==> h.nextID - |h.entries| <= id < h.nextID
  {
    if h.nextID - |h.entries| <= id < h.nextID {
      assert h.entries[id - (h.nextID - |h.entries|)].id == id;
    }
  }

  class ExecutionHistory {
    var entries: seq<Entry>
    var maxSize: int
    var nextID: int

    function View(): History
      reads this
    {
      History(entries, maxSize, nextID)
    }

    constructor (maxSize: int)
      ensures View() == New(maxSize) && Valid(View())
      ensures entries == [] && nextID == 1 && this.maxSize == if maxSize <= 0 then 100 else maxSize
    {
      this.maxSize := if maxSize <= 0 then 100 else maxSize;
      entries, nextID := [], 1;
    }

    method StartExecution(triggered: string, now: int) returns (id: int)
      requires Valid(View())
      modifies this
      ensures View() == Start(old(View()), triggered, now) && Valid(View())
      ensures id == old(nextID) && Recent(View(), 1) == [Opened(id, now, triggered)]
    {
      StartIsValid(View(), triggered, now);
      var entry := Opened(nextID, now, triggered);
      nextID := nextID + 1;
      if |entries| >= maxSize {
        entries := entries[1..];
      }
      entries := entries + [entry];
      return entry.id;
    }

    /** Searches from the newest entry back. */
    method EndExecution(id: int, o: Outcome)
      requires Valid(View())
      modifies `entries
      ensures View() == End(old(View()), id, o) && Valid(View())
    {
      var i := |entries| - 1;
      while i >= 0
        invariant -1 <= i < |entries| && entries == old(entries)
        invariant forall k :: i < k < |entries| ==> entries[k].id != id
      {
        if entries[i].id == id {
          entries := entries[i := Close(entries[i], o)];
          return;
        }
        i := i - 1;
      }
    }

    /** The newest `n` entries, newest first; all of them for any other `n`. */
    method GetRecent(n: int) returns (r: seq<Entry>)
      ensures r == Recent(View(), n)
    {
      var m := if n <= 0 || n > |entries| then |entries| else n;
      r := [];
      for i := 0 to m
        invariant |r| == i && forall k :: 0 <= k < i ==> r[k] == entries[|entries| - 1 - k]
      {
        r := r + [entries[|entries| - 1 - i]];
      }
    }

    method GetByID(id: int) returns (r: Option<Entry>)
      requires Valid(View())
      ensures r.Some? <==> nextID - |entries| <= id < nextID
      ensures r.Some? ==> r.value in entries && r.value.id == id && id >= 1
    {
      var i := |entries| - 1;
      while i >= 0
        invariant -1 <= i < |entries|
        invariant forall k :: i < k < |entries| ==> entries[k].id != id
      {
        if entries[i].id == id { return Some(entries[i]); }
        i := i - 1;
      }
      RetainsNewest(View(), id);
      return None;
    }
  }
}
