/** The log as a sequence: the entry with index i sits at position i - 1.
    `Merge` is what an accepted AppendEntries makes of a log. */
module LogSpec {
  import opened RaftTypes

  type Log = seq<LogEntry>

  function LastTerm(log: Log): nat {
    if log == [] then 0 else log[|log| - 1].term
  }

  function TermAt(log: Log, index: nat): Option<nat> {
    if 1 <= index <= |log| then Some(log[index - 1].term) else None
  }

  predicate HasEntry(log: Log, index: nat, term: nat) {
    if 1 <= index <= |log| then log[index - 1].term == term else index == 0
  }

  /** The vote check: is a log ending in (lastTerm, lastIndex) at least as
      up-to-date as `log`? */
  predicate UpToDate(lastTerm: nat, lastIndex: nat, log: Log) {
    lastTerm > LastTerm(log) || (lastTerm == LastTerm(log) && lastIndex >= |log|)
  }

  ghost predicate Indexed(entries: seq<LogEntry>, prev: nat) {
    forall i :: 0 <= i < |entries| ==> entries[i].index == prev + 1 + i
  }

  ghost predicate ConflictAt(log: Log, prev: nat, entries: seq<LogEntry>, i: nat) {
    i < |entries| && prev + i < |log| && log[prev + i].term != entries[i].term
  }

  ghost predicate Conflicts(log: Log, prev: nat, entries: seq<LogEntry>) {
    exists i: nat :: ConflictAt(log, prev, entries, i)
  }

  /** Entries overwrite what follows `prev`; the old tail beyond them survives
      exactly when no term clashed. */
  ghost function Merge(log: Log, prev: nat, entries: seq<LogEntry>): Log
    requires prev <= |log|
  {
    log[..prev] + entries +
    (if Conflicts(log, prev, entries) || |log| <= prev + |entries| then []
     else log[prev + |entries|..])
  }

  lemma ShorterPrefix(a: Log, b: Log, n: nat, k: nat)
    requires k <= n <= |a| && n <= |b| && a[..n] == b[..n]
    ensures a[..k] == b[..k]
  {
  }

  /** Receiving the same message twice changes nothing the second time. */
  lemma MergeIdempotent(log: Log, prev: nat, entries: seq<LogEntry>)
    requires prev <= |log|
    ensures Merge(Merge(log, prev, entries), prev, entries) == Merge(log, prev, entries)
  {
  }

  /** Entries a log already shares with the sender are never lost, however
      short or stale the slice of the sender's log that arrives. */
  lemma MergeKeeps(log: Log, whole: Log, prev: nat, n: nat, k: nat)
    requires prev <= |log| && prev + n <= |whole|
    requires k <= |log| && k <= |whole| && log[..k] == whole[..k]
    requires log[..prev] == whole[..prev]
    ensures k <= |Merge(log, prev, whole[prev..prev + n])|
    ensures Merge(log, prev, whole[prev..prev + n])[..k] == whole[..k]
  {
  }

  /** When matching terms mean matching prefixes, merging a slice of the
      sender's log either leaves the log alone or replaces it by the sender's
      prefix; in both cases the two now agree up to the end of the slice. */
  lemma MergeShape(log: Log, whole: Log, prev: nat, n: nat)
    requires prev <= |log| && prev + n <= |whole|
    requires log[..prev] == whole[..prev]
    requires 0 < n && prev + n <= |log| && log[prev + n - 1].term == whole[prev + n - 1].term
             ==> log[..prev + n] == whole[..prev + n]
    ensures var merged := Merge(log, prev, whole[prev..prev + n]);
            && prev + n <= |merged|
            && merged[..prev + n] == whole[..prev + n]
            && (merged == log || merged == whole[..prev + n])
  {
    var entries := whole[prev..prev + n];
    assert log[..prev] + entries == whole[..prev + n];
    if !Conflicts(log, prev, entries) && |log| > prev + n {
      if n > 0 {
        assert !ConflictAt(log, prev, entries, n - 1);
        assert entries[n - 1] == whole[prev + n - 1];
      }
      assert log == log[..prev + n] + log[prev + n..];
    }
  }
}
