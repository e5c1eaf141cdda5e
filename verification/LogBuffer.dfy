/** The ring of log lines of internal/logger/log_buffer.go. */
module LogBuffer {
  import opened Sequences

  datatype LogEntry = LogEntry(timestamp: int, process: string, instance: string, message: string)

  const DEFAULT_SIZE := 1000

  /** The slots below `index` hold the newest entries, the others the ones before them. */
  predicate Holds(slots: seq<LogEntry>, index: nat, full: bool, log: seq<LogEntry>) {
    && index < |slots|
    && (if full then |log| >= |slots| else |log| == index)
    && (forall k :: 0 <= k < index ==> slots[k] == log[|log| - index + k])
    && (full ==> forall k :: index <= k < |slots| ==> slots[k] == log[|log| - index - |slots| + k])
  }

  /** The newest `m` entries as the ring stores them: below `index`, and before that at the end. */
  function Newest(slots: seq<LogEntry>, index: nat, m: nat): seq<LogEntry>
    requires index <= |slots| && m <= |slots|
  {
    if m <= index then slots[index - m..index] else slots[|slots| - (m - index)..] + slots[..index]
  }

  lemma NewestOfLog(slots: seq<LogEntry>, index: nat, full: bool, log: seq<LogEntry>, m: nat)
    requires Holds(slots, index, full, log) && m <= if full then |slots| else index
    ensures m <= |log| && Newest(slots, index, m) == log[|log| - m..]
  {
    var t := log[|log| - m..];
    if m <= index {
      assert forall k :: 0 <= k < m ==> slots[index - m + k] == t[k];
    } else {
      var n := |slots| - (m - index);
      assert forall k :: 0 <= k < m - index ==> slots[n + k] == t[k];
      assert forall k :: 0 <= k < index ==> slots[k] == t[m - index + k];
    }
  }

  lemma LastOfLast<T>(log: seq<T>, size: nat, n: nat)
    ensures var count := if |log| < size then |log| else size;
            var m := if n > count then count else n;
            Last(Last(log, size), n) == log[|log| - m..]
  {}

  class LogBuffer {
    const entries: array<LogEntry>
    const size: nat
    var index: nat
    var full: bool
    ghost var log: seq<LogEntry>  // everything added since the last Clear

    ghost predicate Valid()
      reads this, entries
    {
      size >= 1 && entries.Length == size && Holds(entries[..], index, full, log)
    }

    /** What the buffer still holds, oldest first. */
    ghost function Retained(): seq<LogEntry>
      reads this
    {
      Last(log, size)
    }

    constructor (size: int)
      ensures Valid() && log == [] && this.size == if size <= 0 then 1000 else size
      ensures fresh(entries)
    {
      var n: nat := if size <= 0 then DEFAULT_SIZE else size;
      entries := new LogEntry[n](_ => LogEntry(0, "", "", ""));
      this.size, index, full, log := n, 0, false, [];
    }

    method Add(entry: LogEntry)
      requires Valid()
      modifies this, entries
      ensures Valid() && log == old(log) + [entry]
    {
      entries[index] := entry;
      log := log + [entry];
      index := index + 1;
      if index >= size {
        index := 0;
        full := true;
      }
    }

    method GetAll() returns (r: seq<LogEntry>)
      requires Valid()
      ensures r == Retained()
    {
      if !full { return entries[..index]; }
      return entries[index..] + entries[..index];
    }

    /** The last `n` entries; Go panics on a negative length. */
    method GetRecent(n: nat) returns (r: seq<LogEntry>)
      requires Valid()
      ensures r == Last(Retained(), n)
    {
      var count := if full then size else index;
      var m := if n > count then count else n;
      LastOfLast(log, size, n);
      NewestOfLog(entries[..], index, full, log, m);
      r := Latest(m);
    }

    /** The copying at the end of GetRecent. */
    method Latest(m: nat) returns (r: seq<LogEntry>)
      requires index < entries.Length == size && m <= if full then size else index
      ensures r == Newest(entries[..], index, m)
    {
      if !full {
        return entries[index - m..index];
      }
      if m <= index {
        return entries[index - m..index];
      }
      var fromEnd := m - index;
      return entries[size - fromEnd..] + entries[..index];
    }

    method Clear()
      requires Valid()
      modifies this
      ensures Valid() && log == []
    {
      index, full, log := 0, false, [];
    }

    method Size() returns (n: nat)
      requires Valid()
      ensures n == |Retained()|
    {
      n := if full then size else index;
    }
  }
}
