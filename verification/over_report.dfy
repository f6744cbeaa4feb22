/** A follower that reports its whole log reports entries its leader never sent,
    in any cluster of three or more: `a` gets two entries of term 1, behind a full
    batch that all share, into every log but that of `c`, whose own entry is newer.
    When `c` leads it steps back to the shared batch, and all report two entries
    beyond it; then `c` sends its own entry, which overwrites them. */
module OverReport {
  import opened RaftTypes
  import opened LogSpec
  import opened NodeSpec
  import opened Cluster
  import opened Scenarios
  import opened Resends
  import opened LoneCommit

  const FRESH := LogEntry(65, 2, Noop)

  ghost predicate Tail(tail: Log) { |tail| == 2 && tail[0].term == 1 && tail[1].term == 1 }

  lemma SplitLog(log: Log, batch: Log) returns (tail: Log)
    requires First(batch) && batch <= log && |log| == 66 && log[64].term == 1 && log[65].term == 1
    ensures log == batch + tail && Tail(tail)
  {
    tail := log[64..];
  }

  /** a takes two proposals that nobody hears of. */
  lemma Stuffed(r: Repairs, members: set<NodeId>, all: iset<State>, s: State, a: NodeId, batch: Log)
    returns (s': State, tail: Log)
    requires Scene(r, members, all, s) && a in members && First(batch) && Leads(s.nodes[a], 1, batch, 0)
    ensures Moved(r, members, all, s, s', {a}) && Tail(tail)
    ensures s'.nodes[a].term == 1 && s'.nodes[a].log == batch + tail
  {
    s' := Fill(r, members, all, s, a, 2);
    tail := SplitLog(s'.nodes[a].log, batch);
  }

  /** a leads term 1, shares a batch and keeps two more entries to itself. */
  lemma Tailed(r: Repairs, members: set<NodeId>, all: iset<State>, a: NodeId) returns (s: State, batch: Log, tail: Log)
    requires Scene(r, members, all, Init(members)) && |members| >= 3 && a in members
    ensures Scene(r, members, all, s) && First(batch) && Tail(tail)
    ensures s.nodes[a].term == 1 && s.nodes[a].log == batch + tail && Crowd(s, members - {a}, 1, batch)
  {
    var s0 := FirstTerm(r, members, all, a);
    var s1;
    s1, batch := Copied(r, members, all, s0, a);
    s, tail := Stuffed(r, members, all, s1, a, batch);
    CrowdStays(r, members, all, s1, s, {a}, members - {a}, 1, batch);
  }

  /** c leads term 2 and takes one proposal that nobody hears of. */
  lemma FreshEntry(r: Repairs, members: set<NodeId>, all: iset<State>, s: State, a: NodeId, c: NodeId, batch: Log)
    returns (s': State)
    requires Scene(r, members, all, s) && |members| >= 3 && a in members && c in members && a != c && First(batch)
    requires Crowd(s, members - {a}, 1, batch)
    ensures Moved(r, members, all, s, s', members - {a})
    ensures s'.nodes[c].term == 2 && s'.nodes[c].log == batch + [FRESH] && Crowd(s', members - {a, c}, 2, batch)
  {
    Without(members, a, c);
    var s1 := Win(r, members, all, s, c, members - {a, c});
    s' := Append(r, members, all, s1, c, Client(0, Noop));
  }

  /** a leads term 3, and all but c take over its two entries. */
  lemma Infected(r: Repairs, members: set<NodeId>, all: iset<State>, s: State, a: NodeId, c: NodeId, batch: Log,
                 tail: Log)
    returns (s': State)
    requires Scene(r, members, all, s) && |members| >= 3 && a in members && c in members && a != c
    requires First(batch) && Tail(tail)
    requires s.nodes[a].term == 1 && s.nodes[a].log == batch + tail && Crowd(s, members - {a, c}, 2, batch)
    ensures Moved(r, members, all, s, s', members - {c})
    ensures Leads(s'.nodes[a], 3, batch + tail, 0) && Crowd(s', members - {a, c}, 3, batch + tail)
  {
    Without(members, a, c);
    var s1 := Again(r, members, all, s, a, members - {a, c}, 1, batch + tail);
    assert (batch + tail)[64..] == tail;
    s' := FedAll(r, members, all, s1, a, members - {a, c}, 3, batch, batch + tail, 64);
  }

  /** c leads term 4. */
  lemma BackInTerm4(r: Repairs, members: set<NodeId>, all: iset<State>, s: State, a: NodeId, c: NodeId, batch: Log,
                 tail: Log)
    returns (s': State)
    requires Scene(r, members, all, s) && |members| >= 3 && a in members && c in members && a != c
    requires First(batch) && Tail(tail) && s.nodes[c].term == 2 && s.nodes[c].log == batch + [FRESH]
    requires Leads(s.nodes[a], 3, batch + tail, 0) && Crowd(s, members - {a, c}, 3, batch + tail)
    ensures Scene(r, members, all, s') && Astray(s', members - {c}, 4, batch + tail)
    ensures Leads(s'.nodes[c], 4, batch + [FRESH], 0) && Unmatched(s'.nodes[c])
    ensures NextAt(s'.nodes[c], members - {c}, 66)
  {
    Without(members, a, c);
    s' := Again(r, members, all, s, c, members - {a, c}, 2, batch + [FRESH]);
  }

  ghost predicate SentBack(s: State, c: NodeId, u: NodeId, prev: nat, entries: seq<LogEntry>) {
    Envelope(c, u, AppendEntries(4, c, prev, if prev == 0 then 0 else 1, entries, 0)) in s.network
  }

  /** c steps back once and sends u its entry. */
  lemma OneBack(r: Repairs, members: set<NodeId>, all: iset<State>, s: State, c: NodeId, u: NodeId, batch: Log,
                tail: Log)
    returns (s': State)
    requires Scene(r, members, all, s) && c in members && u in members && c != u && First(batch) && Tail(tail)
    requires var n := s.nodes[c]; Leads(n, 4, batch + [FRESH], 0) && u in n.next && n.next[u] == 66
    requires Astray(s, {u}, 4, batch + tail)
    ensures Moved(r, members, all, s, s', {c, u})
    ensures s'.nodes[c] == s.nodes[c].(next := s.nodes[c].next[u := 65])
    ensures Follows(s'.nodes[u], 4, batch + tail) && s'.nodes[u].commit == 0
    ensures SentBack(s', c, u, 64, [FRESH]) && Nack(u, c, 4, 66) in s'.network
  {
    var s1 := TurnedDown(r, members, all, s, c, u, 4, batch + tail, batch + [FRESH], 1);
    s' := Beat(r, members, all, s1, c);
    Carries(s'.nodes[c], u, 65);
    assert (batch + [FRESH])[64..] == [FRESH];
  }

  /** And then all the way, and sends the batch. */
  lemma AllTheWay(r: Repairs, members: set<NodeId>, all: iset<State>, s: State, c: NodeId, u: NodeId, batch: Log)
    returns (s': State)
    requires Scene(r, members, all, s) && c in members && u in members && c != u && First(batch)
    requires var n := s.nodes[c]; Leads(n, 4, batch + [FRESH], 0) && u in n.next && n.next[u] == 65
    requires Nack(u, c, 4, 66) in s.network
    ensures Moved(r, members, all, s, s', {c}) && SentBack(s', c, u, 0, batch)
    ensures s'.nodes[c] == s.nodes[c].(next := s.nodes[c].next[u := 1])
  {
    var s1 := StepBack(r, members, all, s, c, u, 66, 64);
    s' := Beat(r, members, all, s1, c);
    CarriesFirst(s'.nodes[c], u, batch);
  }

  lemma BatchOffered(r: Repairs, members: set<NodeId>, all: iset<State>, s: State, c: NodeId, u: NodeId, batch: Log,
                     tail: Log)
    returns (s': State)
    requires Scene(r, members, all, s) && c in members && u in members && c != u && First(batch) && Tail(tail)
    requires var n := s.nodes[c]; Leads(n, 4, batch + [FRESH], 0) && u in n.next && n.next[u] == 66
    requires Astray(s, {u}, 4, batch + tail)
    ensures Moved(r, members, all, s, s', {c, u})
    ensures s'.nodes[c] == s.nodes[c].(next := s.nodes[c].next[u := 1])
    ensures Follows(s'.nodes[u], 4, batch + tail) && s'.nodes[u].commit == 0
    ensures SentBack(s', c, u, 64, [FRESH]) && SentBack(s', c, u, 0, batch)
  {
    var s1 := OneBack(r, members, all, s, c, u, batch, tail);
    s' := AllTheWay(r, members, all, s1, c, u, batch);
  }

  lemma MergesTail(batch: Log, tail: Log)
    requires First(batch) && Tail(tail)
    ensures Merge(batch + tail, 0, batch) == batch + tail
    ensures Merge(batch + tail, 64, [FRESH]) == batch + [FRESH]
  {
    assert ConflictAt(batch + tail, 64, [FRESH], 0);
  }

  /** u takes in the batch, reports its tail and loses it. */
  lemma FalselyReported(r: Repairs, members: set<NodeId>, all: iset<State>, s: State, c: NodeId, u: NodeId, batch: Log,
                 tail: Log)
    returns (s': State)
    requires Scene(r, members, all, s) && u in members && c != u && First(batch) && Tail(tail) && !r.coverReport
    requires Follows(s.nodes[u], 4, batch + tail) && s.nodes[u].commit == 0
    requires SentBack(s, c, u, 64, [FRESH]) && SentBack(s, c, u, 0, batch)
    ensures Moved(r, members, all, s, s', {u})
    ensures Crowd(s', {u}, 4, batch + [FRESH]) && HasAcked(r, s'.network, c, 4, 66, u)
  {
    MergesTail(batch, tail);
    var s1 := Accept(r, members, all, s, Envelope(c, u, AppendEntries(4, c, 0, 0, batch, 0)));
    s' := AcceptOne(r, members, all, s1, c, u, AppendEntries(4, c, 64, 1, [FRESH], 0));
    assert AckIn(r, s'.network, c, 4, 66, u, 4, 66);
  }

  lemma OneReported(r: Repairs, members: set<NodeId>, all: iset<State>, s: State, c: NodeId, u: NodeId, batch: Log,
                    tail: Log)
    returns (s': State)
    requires Scene(r, members, all, s) && c in members && u in members && c != u && !r.coverReport
    requires First(batch) && Tail(tail)
    requires var n := s.nodes[c]; Leads(n, 4, batch + [FRESH], 0) && u in n.next && n.next[u] == 66
    requires Astray(s, {u}, 4, batch + tail)
    ensures Moved(r, members, all, s, s', {c, u})
    ensures s'.nodes[c] == s.nodes[c].(next := s.nodes[c].next[u := 1])
    ensures Crowd(s', {u}, 4, batch + [FRESH]) && HasAcked(r, s'.network, c, 4, 66, u)
  {
    var s1 := BatchOffered(r, members, all, s, c, u, batch, tail);
    s' := FalselyReported(r, members, all, s1, c, u, batch, tail);
  }

  /** One after the other, all report what they then lose. */
  lemma {:induction false} AllReported(r: Repairs, members: set<NodeId>, all: iset<State>, s: State, c: NodeId,
                                       us: set<NodeId>, batch: Log, tail: Log) returns (s': State)
    requires Scene(r, members, all, s) && c in members && us <= members - {c} && !r.coverReport
    requires First(batch) && Tail(tail)
    requires Leads(s.nodes[c], 4, batch + [FRESH], 0) && NextAt(s.nodes[c], us, 66)
    requires Astray(s, us, 4, batch + tail)
    ensures Moved(r, members, all, s, s', us + {c})
    ensures Leads(s'.nodes[c], 4, batch + [FRESH], 0) && s'.nodes[c].matched == s.nodes[c].matched
    ensures Crowd(s', us, 4, batch + [FRESH]) && AllAcked(r, s'.network, c, 4, 66, us)
    decreases us
  {
    if us == {} {
      s' := s;
    } else {
      var u :| u in us;
      var s1 := OneReported(r, members, all, s, c, u, batch, tail);
      s' := AllReported(r, members, all, s1, c, us - {u}, batch, tail);
      CrowdStays(r, members, all, s1, s', us - {u} + {c}, {u}, 4, batch + [FRESH]);
      AcksStay(r, s1.network, s'.network, c, 4, 66, 66, {u});
    }
  }

  lemma Deceives(r: Repairs, members: set<NodeId>, all: iset<State>)
    returns (s: State, c: NodeId, fs: set<NodeId>, log: Log)
    requires Scene(r, members, all, Init(members)) && |members| >= 3 && !r.coverReport
    ensures Scene(r, members, all, s) && Deceived(r, members, s, c, fs, 4, log) && |log| == 65
  {
    var a;
    a, c := TwoOf(members);
    var s1, batch, tail := Tailed(r, members, all, a);
    var s2 := FreshEntry(r, members, all, s1, a, c, batch);
    var s3 := Infected(r, members, all, s2, a, c, batch, tail);
    var s4 := BackInTerm4(r, members, all, s3, a, c, batch, tail);
    fs, log := members - {c}, batch + [FRESH];
    s := AllReported(r, members, all, s4, c, fs, batch, tail);
    assert |fs| == |members| - 1;
    NowDeceived(r, members, s, c, fs, 4, log);
  }

  /** The clash is at index 66. */
  lemma Clashes(r: Repairs, members: set<NodeId>, all: iset<State>) returns (s: State, d: NodeId, e: Envelope)
    requires Scene(r, members, all, Init(members)) && |members| >= 3 && !r.coverReport
    ensures Scene(r, members, all, s) && Diverges(members, s, 66, d) && Undoes(s, e)
  {
    var s1, c, fs, log := Deceives(r, members, all);
    s, d, e := Diverge(r, members, all, s1, c, fs, 4, log);
  }
}
