/** Persistent log storage: the entries in memory, the term and vote, and the
    files they are written to. */
module LogStorage {
  import opened RaftTypes
  import LogSpec
  import opened Disk

  class RaftLog {
    var entries: map<nat, LogEntry>
    var lastIndex: nat
    var state: PersistentState
    var logFile: seq<Line>
    var stateFile: Option<PersistentState>

    ghost function Memory(): Image
      reads this
    {
      Image(entries, lastIndex)
    }

    ghost function Stored(): Storage
      reads this
    {
      Storage(Memory(), logFile)
    }

    /** A restart would read back exactly what is in memory. */
    ghost predicate Persisted()
      reads this
    {
      && Agree(Stored())
      && state == (match stateFile case Some(saved) => saved case None => DEFAULT_STATE)
    }

    /** Opens the storage on the files a previous run left behind. */
    constructor (savedLog: seq<Line>, savedState: Option<PersistentState>)
      ensures Persisted()
      ensures logFile == savedLog && stateFile == savedState
    {
      entries, lastIndex := map[], 0;
      state := DEFAULT_STATE;
      logFile, stateFile := savedLog, savedState;
      new;
      LoadFromDisk();
    }

    method LoadFromDisk()
      requires Memory() == Image(map[], 0) && state == DEFAULT_STATE
      modifies this
      ensures Persisted()
      ensures logFile == old(logFile) && stateFile == old(stateFile)
    {
      if stateFile.Some? {
        state := stateFile.value;
      }
      for i := 0 to |logFile|
        invariant logFile == old(logFile) && stateFile == old(stateFile)
        invariant Memory() == Load(logFile[..i])
        invariant state == match stateFile case Some(saved) => saved case None => DEFAULT_STATE
      {
        assert logFile[..i + 1][..i] == logFile[..i];
        if logFile[i].Record? {
          var entry := FromDisk(logFile[i].entry);
          lastIndex := Max(lastIndex, entry.index);
          entries := entries[entry.index := entry];
        }
      }
      assert logFile[..|logFile|] == logFile;
    }

    method SetCurrentTerm(term: nat)
      modifies this`state, this`stateFile
      ensures state == PersistentState(term, None) && stateFile == Some(state)
      ensures old(Persisted()) ==> Persisted()
    {
      state := PersistentState(term, None);
      stateFile := Some(state);
    }

    method SetVotedFor(candidate: Option<NodeId>)
      modifies this`state, this`stateFile
      ensures state == PersistentState(old(state.currentTerm), candidate) && stateFile == Some(state)
      ensures old(Persisted()) ==> Persisted()
    {
      state := state.(votedFor := candidate);
      stateFile := Some(state);
    }

    function TermAt(index: nat): Option<nat>
      reads this
    {
      if index in entries then Some(entries[index].term) else None
    }

    function LastTerm(): nat
      reads this
    {
      if lastIndex in entries then entries[lastIndex].term else 0
    }

    predicate HasEntry(index: nat, term: nat)
      reads this
    {
      if index in entries then entries[index].term == term else index == 0
    }

    /** The map answers what the sequence does. */
    lemma ReadsAgree(index: nat, term: nat)
      requires Contiguous(Memory())
      ensures TermAt(index) == LogSpec.TermAt(AsLog(Memory()), index)
      ensures LastTerm() == LogSpec.LastTerm(AsLog(Memory()))
      ensures HasEntry(index, term) == LogSpec.HasEntry(AsLog(Memory()), index, term)
    {
    }

    method Append(term: nat, command: Command) returns (index: nat)
      modifies this`entries, this`lastIndex, this`logFile
      ensures index == old(lastIndex) + 1
      ensures Stored() == Write(old(Stored()), [LogEntry(index, term, command)])
      ensures old(Persisted()) ==> Persisted()
      ensures old(Contiguous(Memory())) ==>
                && Contiguous(Memory())
                && AsLog(Memory()) == old(AsLog(Memory())) + [LogEntry(index, term, command)]
    {
      index := lastIndex + 1;
      var entry := LogEntry(index, term, command);
      ghost var before := Stored();
      logFile := logFile + [Record(ToDisk(entry))];
      entries := entries[index := entry];
      lastIndex := index;
      assert Lines([entry]) == [Record(ToDisk(entry))];
      InsertOne(before.memory, entry);
      if Agree(before) { WriteAgrees(before, [entry]); }
    }

    method AppendEntries(es: seq<LogEntry>)
      modifies this`entries, this`lastIndex, this`logFile
      ensures Stored() == Write(old(Stored()), es)
      ensures old(Persisted()) ==> Persisted()
    {
      ghost var before := Stored();
      for i := 0 to |es|
        invariant Stored() == Write(before, es[..i])
      {
        assert es[..i + 1][..i] == es[..i];
        LinesExtend(es, i);
        logFile := logFile + [Record(ToDisk(es[i]))];
        lastIndex := Max(lastIndex, es[i].index);
        entries := entries[es[i].index := es[i]];
      }
      assert es[..|es|] == es;
      if Agree(before) { WriteAgrees(before, es); }
    }

    /** Rewrites the file from what is left in memory below an index. */
    method RewriteFile(from: nat)
      modifies this`logFile
      ensures logFile == RecordsBelow(entries, from)
    {
      var rewritten: seq<Line> := [];
      var idx := 1;
      while idx < from
        invariant 1 <= idx <= Max(from, 1)
        invariant rewritten == RecordsBelow(entries, idx)
      {
        if idx in entries {
          rewritten := rewritten + [Record(ToDisk(entries[idx]))];
        }
        idx := idx + 1;
      }
      logFile := rewritten;
    }

    /** Drops the entries from an index on and rewrites the file. */
    method TruncateFrom(from: nat)
      modifies this`entries, this`lastIndex, this`logFile
      ensures Stored() == Cut(old(Stored()), from)
      ensures old(Contiguous(Memory()) && Persisted()) ==> (Persisted() <==> from <= old(lastIndex) + 1)
      ensures old(Contiguous(Memory())) && 1 <= from <= old(lastIndex) + 1 ==>
                Contiguous(Memory()) && AsLog(Memory()) == old(AsLog(Memory()))[..from - 1]
    {
      ghost var before := Stored();
      entries := entries - (set i | i in entries && i >= from);
      lastIndex := if from == 0 then 0 else from - 1;
      RewriteFile(from);
      if Contiguous(before.memory) { CutAgrees(before, from); }
    }

    /** The entries at start .. end that the log holds. */
    method GetEntries(start: nat, end: nat) returns (found: seq<LogEntry>)
      ensures Contiguous(Memory()) ==>
                found == if start > Min(end, lastIndex) then []
                         else AsLog(Memory())[Max(start, 1) - 1..Min(end, lastIndex)]
    {
      found := [];
      var idx := start;
      while idx <= end
        invariant start <= idx && (idx <= end + 1 || idx == start)
        invariant Contiguous(Memory()) ==>
                    found == if Max(start, 1) >= idx || start > lastIndex then []
                             else AsLog(Memory())[Max(start, 1) - 1..Min(idx - 1, lastIndex)]
        decreases end + 1 - idx
      {
        if idx in entries {
          found := found + [entries[idx]];
        }
        idx := idx + 1;
      }
    }
  }
}
