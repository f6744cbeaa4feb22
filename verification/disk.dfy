/** The log file: one record per entry, appended in order of arrival. Reading
    it back inserts the records one by one, so later records win. */
module Disk {
  import opened RaftTypes
  import opened LogSpec

  datatype DiskLogEntry = DiskLogEntry(index: nat, term: nat, commandType: string,
                                       key: Option<seq<Byte>>, value: Option<seq<Byte>>)

  datatype Line = Blank | Record(entry: DiskLogEntry)

  datatype PersistentState = PersistentState(currentTerm: nat, votedFor: Option<NodeId>)

  const DEFAULT_STATE := PersistentState(0, None)

  // ----- one entry -----

  /** push_str on a bounded string takes all of its argument or nothing. */
  function BoundedKey(s: seq<Byte>): Key {
    if |s| <= MAX_KEY_SIZE then s else []
  }

  /** Pushing byte by byte onto a bounded vector keeps what fits. */
  function BoundedValue(s: seq<Byte>): Value {
    s[..Min(|s|, MAX_VALUE_SIZE)]
  }

  function OrEmpty(s: Option<seq<Byte>>): seq<Byte> {
    match s case Some(bytes) => bytes case None => []
  }

  function FromDisk(d: DiskLogEntry): LogEntry {
    var command :=
      if d.commandType == "Put" then Put(BoundedKey(OrEmpty(d.key)), BoundedValue(OrEmpty(d.value)))
      else if d.commandType == "Delete" then Delete(BoundedKey(OrEmpty(d.key)))
      else Noop;
    LogEntry(d.index, d.term, command)
  }

  function ToDisk(e: LogEntry): DiskLogEntry {
    match e.command
    case Put(key, value) => DiskLogEntry(e.index, e.term, "Put", Some(key), Some(value))
    case Delete(key) => DiskLogEntry(e.index, e.term, "Delete", Some(key), None)
    case Noop => DiskLogEntry(e.index, e.term, "Noop", None, None)
  }

  /** The kind of a command is on disk under its own name, and any other name
      stands for no operation. */
  lemma KindsByName(e: LogEntry, d: DiskLogEntry)
    ensures ToDisk(e).commandType ==
              if e.command.Put? then "Put" else if e.command.Delete? then "Delete" else "Noop"
    ensures FromDisk(d).command.Put? <==> d.commandType == "Put"
    ensures FromDisk(d).command.Delete? <==> d.commandType == "Delete"
    ensures FromDisk(d).index == d.index && FromDisk(d).term == d.term
  {
  }

  /** A key that does not fit is read as empty, a value that does not fit loses its
      end, and what is missing is empty. */
  lemma OversizedFields(d: DiskLogEntry)
    requires d.commandType == "Put"
    ensures var c := FromDisk(d).command;
            && (d.key.Some? && |d.key.value| <= 256 ==> c.key == d.key.value)
            && (d.key.Some? && |d.key.value| > 256 ==> c.key == [])
            && (d.value.Some? ==> c.value <= d.value.value && |c.value| == Min(|d.value.value|, 1024))
            && (d.key.None? ==> c.key == []) && (d.value.None? ==> c.value == [])
  {
  }

  /** Every entry survives the disk. */
  lemma DiskRoundTrip(e: LogEntry)
    ensures FromDisk(ToDisk(e)) == e
  {
  }

  // ----- the whole file -----

  /** The in-memory side of the log: a map from index to entry and the last index. */
  datatype Image = Image(entries: map<nat, LogEntry>, last: nat)

  function Insert(im: Image, e: LogEntry): Image {
    Image(im.entries[e.index := e], Max(im.last, e.index))
  }

  function InsertAll(im: Image, es: seq<LogEntry>): Image {
    if es == [] then im else Insert(InsertAll(im, es[..|es| - 1]), es[|es| - 1])
  }

  lemma InsertOne(im: Image, e: LogEntry)
    ensures InsertAll(im, [e]) == Insert(im, e)
  {
  }

  function Load(file: seq<Line>): Image {
    if file == [] then Image(map[], 0) else
    var im := Load(file[..|file| - 1]);
    match file[|file| - 1]
    case Blank => im
    case Record(d) => Insert(im, FromDisk(d))
  }

  function Lines(es: seq<LogEntry>): seq<Line> {
    seq(|es|, i requires 0 <= i < |es| => Record(ToDisk(es[i])))
  }

  lemma LinesExtend(es: seq<LogEntry>, k: nat)
    requires k < |es|
    ensures Lines(es[..k + 1]) == Lines(es[..k]) + [Record(ToDisk(es[k]))]
  {
  }

  /** Appending records to the file is inserting their entries. */
  lemma {:induction false} LoadAppended(file: seq<Line>, es: seq<LogEntry>)
    ensures Load(file + Lines(es)) == InsertAll(Load(file), es)
  {
    if es == [] {
      assert file + Lines(es) == file;
    } else {
      var front, e := es[..|es| - 1], es[|es| - 1];
      var all := file + Lines(es);
      assert all[..|all| - 1] == file + Lines(front);
      assert all[|all| - 1] == Record(ToDisk(e));
      LoadAppended(file, front);
      DiskRoundTrip(e);
    }
  }

  /** Empty lines mean nothing. */
  lemma {:induction false} BlankSkipped(front: seq<Line>, rest: seq<Line>)
    ensures Load(front + [Blank] + rest) == Load(front + rest)
  {
    var with, without := front + [Blank] + rest, front + rest;
    if rest == [] {
      assert with[..|with| - 1] == front && without == front;
    } else {
      BlankSkipped(front, rest[..|rest| - 1]);
      assert with[..|with| - 1] == front + [Blank] + rest[..|rest| - 1];
      assert without[..|without| - 1] == front + rest[..|rest| - 1];
    }
  }

  // ----- contiguous logs -----

  /** The entries are exactly those at 1 .. last, each under its own index. */
  ghost predicate Contiguous(im: Image) {
    && (forall i: nat :: i in im.entries <==> 1 <= i <= im.last)
    && (forall i | i in im.entries :: im.entries[i].index == i)
  }

  /** The image as a sequence. */
  ghost function AsLog(im: Image): (log: Log)
    requires Contiguous(im)
    ensures |log| == im.last && Indexed(log, 0)
    ensures forall i | 0 <= i < |log| :: log[i] == im.entries[i + 1]
  {
    seq(im.last, i requires 0 <= i < im.last => im.entries[i + 1])
  }

  /** Entries written over a log from position prev on. */
  function Overlay(log: Log, prev: nat, es: seq<LogEntry>): Log
    requires prev <= |log|
  {
    log[..prev] + es + (if |log| <= prev + |es| then [] else log[prev + |es|..])
  }

  lemma OverlayExtends(log: Log, prev: nat, front: seq<LogEntry>, e: LogEntry)
    requires prev <= |log|
    ensures Overlay(Overlay(log, prev, front), prev + |front|, [e]) == Overlay(log, prev, front + [e])
  {
  }

  lemma InsertOverlays(im: Image, e: LogEntry)
    requires Contiguous(im) && 1 <= e.index <= im.last + 1
    ensures Contiguous(Insert(im, e))
    ensures AsLog(Insert(im, e)) == Overlay(AsLog(im), e.index - 1, [e])
  {
  }

  /** Inserting a run of entries that starts inside the log or right behind it
      keeps the log contiguous and overlays it. */
  lemma {:induction false} InsertAllOverlays(im: Image, prev: nat, es: seq<LogEntry>)
    requires Contiguous(im) && prev <= im.last && Indexed(es, prev)
    ensures Contiguous(InsertAll(im, es))
    ensures AsLog(InsertAll(im, es)) == Overlay(AsLog(im), prev, es)
  {
    if es != [] {
      var front, e := es[..|es| - 1], es[|es| - 1];
      InsertAllOverlays(im, prev, front);
      InsertOverlays(InsertAll(im, front), e);
      OverlayExtends(AsLog(im), prev, front, e);
      assert front + [e] == es;
    }
  }

  /** A contiguous image rewritten entry by entry reads back as itself. */
  lemma {:induction false} LoadRewritten(im: Image)
    requires Contiguous(im)
    ensures Load(Lines(AsLog(im))) == im
  {
    var log := AsLog(im);
    var empty := Image(map[], 0);
    InsertAllOverlays(empty, 0, log);
    LoadAppended([], log);
    assert [] + Lines(log) == Lines(log);
    var back := InsertAll(empty, log);
    SameLogSameImage(back, im);
  }

  lemma SameLogSameImage(a: Image, b: Image)
    requires Contiguous(a) && Contiguous(b) && AsLog(a) == AsLog(b)
    ensures a == b
  {
    forall i | i in a.entries ensures i in b.entries && a.entries[i] == b.entries[i] {
      assert AsLog(a)[i - 1] == AsLog(b)[i - 1];
    }
    assert a.last == |AsLog(a)| == b.last;
    assert a.entries == b.entries;
  }

  // ----- memory and file together -----

  datatype Storage = Storage(memory: Image, file: seq<Line>)

  ghost predicate Agree(st: Storage) { Load(st.file) == st.memory }

  /** Entries written to memory and appended to the file. */
  function Write(st: Storage, es: seq<LogEntry>): Storage {
    Storage(InsertAll(st.memory, es), st.file + Lines(es))
  }

  /** The records of the entries below an index, in order. */
  function RecordsBelow(entries: map<nat, LogEntry>, from: nat): seq<Line> {
    if from <= 1 then []
    else RecordsBelow(entries, from - 1) +
         (if from - 1 in entries then [Record(ToDisk(entries[from - 1]))] else [])
  }

  /** Entries from an index on dropped from memory, and the file rewritten. */
  function Cut(st: Storage, from: nat): Storage {
    var kept := st.memory.entries - (set i | i in st.memory.entries && i >= from);
    Storage(Image(kept, if from == 0 then 0 else from - 1), RecordsBelow(kept, from))
  }

  lemma WriteAgrees(st: Storage, es: seq<LogEntry>)
    requires Agree(st)
    ensures Agree(Write(st, es))
  {
    LoadAppended(st.file, es);
  }

  lemma {:induction false} RecordsBelowLines(im: Image, from: nat)
    requires Contiguous(im)
    ensures RecordsBelow(im.entries, from) == Lines(AsLog(im)[..Min(if from == 0 then 0 else from - 1, im.last)])
  {
    if from > 1 {
      RecordsBelowLines(im, from - 1);
      if from - 1 <= im.last { LinesExtend(AsLog(im), from - 2); }
    }
  }

  /** Cutting a contiguous log leaves memory and file in agreement exactly when
      it cuts no further than one past the end. */
  lemma CutAgrees(st: Storage, from: nat)
    requires Contiguous(st.memory)
    ensures Agree(Cut(st, from)) <==> from <= st.memory.last + 1
    ensures 1 <= from <= st.memory.last + 1 ==>
              Contiguous(Cut(st, from).memory) && AsLog(Cut(st, from).memory) == AsLog(st.memory)[..from - 1]
  {
    var st' := Cut(st, from);
    var kept := Image(st'.memory.entries, Min(st'.memory.last, st.memory.last));
    assert Contiguous(kept);
    assert AsLog(kept) == AsLog(st.memory)[..kept.last];
    RecordsBelowLines(kept, from);
    assert AsLog(kept)[..kept.last] == AsLog(kept);
    LoadRewritten(kept);
  }

  /** The first entry from position i on whose term differs from the one stored
      at its index, or the end. */
  function FirstClash(im: Image, es: seq<LogEntry>, i: nat): (c: nat)
    requires i <= |es|
    ensures i <= c <= |es|
    decreases |es| - i
  {
    if i == |es| || (es[i].index in im.entries && im.entries[es[i].index].term != es[i].term) then i
    else FirstClash(im, es, i + 1)
  }

  /** Entries from a leader, wherever they belong: a cut at the first clash, then the write. */
  function Merged(st: Storage, es: seq<LogEntry>): Storage {
    var c := FirstClash(st.memory, es, 0);
    Write(if c < |es| then Cut(st, es[c].index) else st, es)
  }

  lemma {:induction false} FirstClashMeans(im: Image, prev: nat, es: seq<LogEntry>, i: nat)
    requires Contiguous(im) && prev <= im.last && Indexed(es, prev) && i <= |es|
    ensures var c := FirstClash(im, es, i);
            && (forall j: nat | i <= j < c :: !ConflictAt(AsLog(im), prev, es, j))
            && (c < |es| ==> ConflictAt(AsLog(im), prev, es, c))
    decreases |es| - i
  {
    if i < |es| && FirstClash(im, es, i) != i { FirstClashMeans(im, prev, es, i + 1); }
  }

  /** Overwriting from the first clash on, or from the start when there is
      none, is the merge. */
  lemma OverlayMerges(log: Log, prev: nat, es: seq<LogEntry>, i: nat)
    requires prev <= |log| && i <= |es|
    requires forall j: nat | j < i :: !ConflictAt(log, prev, es, j)
    requires i < |es| ==> ConflictAt(log, prev, es, i)
    ensures Overlay(if i < |es| then log[..prev + i] else log, prev, es) == Merge(log, prev, es)
  {
  }

  /** For entries in place behind an index of a log without gaps it is the merge. */
  lemma MergedIsMerge(st: Storage, prev: nat, es: seq<LogEntry>)
    requires Contiguous(st.memory) && prev <= st.memory.last && Indexed(es, prev)
    ensures Contiguous(Merged(st, es).memory)
    ensures AsLog(Merged(st, es).memory) == Merge(AsLog(st.memory), prev, es)
  {
    var c := FirstClash(st.memory, es, 0);
    FirstClashMeans(st.memory, prev, es, 0);
    OverlayMerges(AsLog(st.memory), prev, es, c);
    if c < |es| {
      CutAgrees(st, es[c].index);
      InsertAllOverlays(Cut(st, es[c].index).memory, prev, es);
    } else {
      InsertAllOverlays(st.memory, prev, es);
    }
  }

  lemma {:induction false} ClashIsStored(im: Image, es: seq<LogEntry>, i: nat)
    requires i <= |es|
    ensures var c := FirstClash(im, es, i); c < |es| ==> es[c].index in im.entries
    decreases |es| - i
  {
    if i < |es| && FirstClash(im, es, i) != i { ClashIsStored(im, es, i + 1); }
  }

  /** Wherever the entries belong, memory and file go on to agree. */
  lemma MergedAgrees(st: Storage, es: seq<LogEntry>)
    requires Contiguous(st.memory) && Agree(st)
    ensures Agree(Merged(st, es))
  {
    var c := FirstClash(st.memory, es, 0);
    ClashIsStored(st.memory, es, 0);
    if c < |es| { CutAgrees(st, es[c].index); }
    WriteAgrees(if c < |es| then Cut(st, es[c].index) else st, es);
  }

  datatype Operation = Written(entries: seq<LogEntry>) | Truncated(from: nat)

  function Perform(st: Storage, op: Operation): Storage {
    match op
    case Written(es) => Write(st, es)
    case Truncated(from) => Cut(st, from)
  }

  /** What the node asks of its log: entries that start inside it or right
      behind it, and cuts inside it. */
  ghost predicate Proper(im: Image, op: Operation) {
    match op
    case Written(es) => exists prev: nat :: prev <= im.last && Indexed(es, prev)
    case Truncated(from) => 1 <= from <= im.last + 1
  }

  ghost function PerformAll(st: Storage, ops: seq<Operation>): Storage {
    if ops == [] then st else Perform(PerformAll(st, ops[..|ops| - 1]), ops[|ops| - 1])
  }

  /** After any sequence of appends, merges and cuts, a restart reads back
      exactly what is in memory, and the log has no gaps. */
  lemma {:induction false} MemoryMatchesDisk(st: Storage, ops: seq<Operation>)
    requires Contiguous(st.memory) && Agree(st)
    requires forall i | 0 <= i < |ops| :: Proper(PerformAll(st, ops[..i]).memory, ops[i])
    ensures Contiguous(PerformAll(st, ops).memory) && Agree(PerformAll(st, ops))
  {
    if ops != [] {
      var front, op := ops[..|ops| - 1], ops[|ops| - 1];
      assert forall i | 0 <= i < |front| :: front[..i] == ops[..i];
      MemoryMatchesDisk(st, front);
      var before := PerformAll(st, front);
      assert Proper(before.memory, op);
      match op
      case Written(es) =>
        var prev: nat :| prev <= before.memory.last && Indexed(es, prev);
        InsertAllOverlays(before.memory, prev, es);
        WriteAgrees(before, es);
      case Truncated(from) =>
        CutAgrees(before, from);
    }
  }
}
