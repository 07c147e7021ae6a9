/** The replicated log (internal/raft/log.go). */
module RaftLogs {
  import opened GroupFsm

  datatype LogEntry = LogEntry(term: int, index: int, command: Command)

  const SENTINEL := LogEntry(0, 0, Noop)

  // The zero value that a failed lookup returns.
  const ZERO_ENTRY := LogEntry(0, 0, Noop)

  type Log = seq<LogEntry>

  // The given entries renumbered to stand at positions first, first + 1, ...
  function Renumbered(es: Log, first: int): (r: Log)
    ensures |r| == |es|
  {
    seq(|es|, i requires 0 <= i < |es| => es[i].(index := first + i))
  }

  function Appended(log: Log, e: LogEntry): Log {
    log + [e.(index := |log|)]
  }

  // The effect of an accepted append: everything after prevIndex is replaced.
  function Spliced(log: Log, prevIndex: int, es: Log): Log
    requires -1 <= prevIndex < |log|
  {
    log[..prevIndex + 1] + Renumbered(es, prevIndex + 1)
  }

  // The new log keeps the old one through prevIndex, goes on with the new entries numbered by position, and ends there.
  ghost predicate IsSplice(log': Log, log: Log, prevIndex: int, es: Log)
    requires -1 <= prevIndex < |log|
  {
    && |log'| == prevIndex + 1 + |es| && log'[..prevIndex + 1] == log[..prevIndex + 1]
    && forall i :: 0 <= i < |es| ==>
         var e := log'[prevIndex + 1 + i];
         e.index == prevIndex + 1 + i && e.term == es[i].term && e.command == es[i].command
  }

  function LastTermOf(log: Log): int
    requires log != []
  {
    log[|log| - 1].term
  }

  // Starts with the sentinel, and every entry knows its position.
  ghost predicate WellIndexed(log: Log) {
    && 0 < |log| && log[0] == SENTINEL
    && forall i :: 0 <= i < |log| ==> log[i].index == i
  }

  // The two logs are identical through position k - 1.
  ghost predicate Agree(a: Log, b: Log, k: int) {
    0 <= k <= |a| && k <= |b| && a[..k] == b[..k]
  }

  lemma AgreeTrans(a: Log, b: Log, c: Log, k: int)
    requires Agree(a, b, k) && Agree(b, c, k)
    ensures Agree(a, c, k)
  {
  }

  lemma AgreeShorter(a: Log, b: Log, k: int, j: int)
    requires Agree(a, b, k) && 0 <= j <= k
    ensures Agree(a, b, j)
  {
    assert a[..j] == a[..k][..j] && b[..j] == b[..k][..j];
  }

  /** Entries copied out of a well-indexed log keep their numbers when spliced in at the same place. */
  lemma RenumberedSlice(log: Log, from: int, to: int)
    requires WellIndexed(log) && 0 <= from <= to <= |log|
    ensures Renumbered(log[from..to], from) == log[from..to]
  {
    forall i | 0 <= i < to - from ensures Renumbered(log[from..to], from)[i] == log[from..to][i] {
      assert log[from..to][i] == log[from + i];
    }
  }

  /** Splicing a slice of a log onto a log that agrees with it up to the splice point copies it that far. */
  lemma SplicedSlice(log: Log, source: Log, prevIndex: int, to: int)
    requires WellIndexed(source) && 0 <= prevIndex < to <= |source|
    requires Agree(log, source, prevIndex + 1)
    ensures Spliced(log, prevIndex, source[prevIndex + 1..to]) == source[..to]
  {
    RenumberedSlice(source, prevIndex + 1, to);
  }

  class RaftLog {
    var entries: Log

    constructor ()
      ensures entries == [SENTINEL]
    {
      entries := [SENTINEL];
    }

    method Append(entry: LogEntry)
      modifies this
      ensures entries == Appended(old(entries), entry)
      ensures |entries| == |old(entries)| + 1 && old(entries) <= entries
      ensures var e := entries[|old(entries)|]; e.index == |old(entries)| && e.term == entry.term && e.command == entry.command
    {
      entries := entries + [entry.(index := |entries|)];
    }

    method AppendEntries(prevIndex: int, es: Log) returns (ok: bool)
      requires prevIndex >= -1
      modifies this
      ensures ok <==> prevIndex < |old(entries)|
      ensures entries == if ok then Spliced(old(entries), prevIndex, es) else old(entries)
      ensures ok ==> IsSplice(entries, old(entries), prevIndex, es)
    {
      if prevIndex >= |entries| {
        return false;
      }
      entries := entries[..prevIndex + 1];
      for i := 0 to |es|
        invariant entries == old(entries)[..prevIndex + 1] + Renumbered(es, prevIndex + 1)[..i]
      {
        entries := entries + [es[i].(index := prevIndex + i + 1)];
      }
      return true;
    }

    method Entry(index: int) returns (e: LogEntry, ok: bool)
      ensures ok <==> 0 <= index < |entries|
      ensures e == if ok then entries[index] else ZERO_ENTRY
    {
      if index < 0 || index >= |entries| {
        return ZERO_ENTRY, false;
      }
      return entries[index], true;
    }

    method LastIndex() returns (i: int)
      ensures i == |entries| - 1
    {
      return |entries| - 1;
    }

    method LastTerm() returns (t: int)
      requires entries != []
      ensures t == LastTermOf(entries)
    {
      return entries[|entries| - 1].term;
    }

    method EntriesFrom(index: int) returns (es: Log)
      requires index >= 0
      ensures es == if index < |entries| then entries[index..] else []
    {
      if index >= |entries| {
        return [];
      }
      return entries[index..];
    }
  }
}
