/** A leader that forgets none of its old waiting clients acknowledges the wrong
    command, in any cluster of three or more: `a` takes a request in term 1,
    loses it to the leader of term 2, leads again in term 3 and commits. */
module StolenReply {
  import opened RaftTypes
  import opened LogSpec
  import opened NodeSpec
  import opened Cluster
  import opened Scenarios
  import opened Stores
  import opened Guarantees

  const WAITING := Client(1, DELETE)
  const OTHER := Client(2, Noop)

  const FIRST := LogEntry(1, 1, DELETE)
  const SECOND := LogEntry(1, 2, Noop)

  ghost predicate Waits(n: NodeState) { n.pending == map[1 := WAITING] && n.commit == 0 }

  /** The client waits at a for index 1, and nobody else has heard of it. */
  lemma Asked(r: Repairs, members: set<NodeId>, all: iset<State>, s: State, a: NodeId) returns (s': State)
    requires Scene(r, members, all, s) && a in members
    requires Leads(s.nodes[a], 1, [], 0) && s.nodes[a].pending == map[]
    ensures Moved(r, members, all, s, s', {a})
    ensures Leads(s'.nodes[a], 1, [FIRST], 0) && Waits(s'.nodes[a])
  {
    s' := Append(r, members, all, s, a, WAITING);
    assert s'.nodes[a].log == [FIRST];
  }

  /** b leads term 2 and puts its own entry at index 1 of every log but a's. */
  lemma Usurped(r: Repairs, members: set<NodeId>, all: iset<State>, s: State, a: NodeId, b: NodeId)
    returns (s': State)
    requires Scene(r, members, all, s) && |members| >= 3 && a in members && b in members && a != b
    requires Crowd(s, members - {a}, 1, [])
    ensures Scene(r, members, all, s') && s'.nodes[a] == s.nodes[a]
    ensures Leads(s'.nodes[b], 2, [SECOND], 0) && Crowd(s', members - {a, b}, 2, [SECOND])
    ensures Envelope(b, a, AppendEntries(2, b, 0, 0, [SECOND], 0)) in s'.network
  {
    Without(members, a, b);
    var s1 := Win(r, members, all, s, b, members - {a, b});
    s' := Imposed(r, members, all, s1, a, b);
  }

  lemma Imposed(r: Repairs, members: set<NodeId>, all: iset<State>, s: State, a: NodeId, b: NodeId)
    returns (s': State)
    requires Scene(r, members, all, s) && a in members && b in members && a != b
    requires Leads(s.nodes[b], 2, [], 0) && NextAt(s.nodes[b], members - {b}, 1)
    requires Crowd(s, members - {a, b}, 2, [])
    ensures Moved(r, members, all, s, s', members - {a})
    ensures Leads(s'.nodes[b], 2, [SECOND], 0) && Crowd(s', members - {a, b}, 2, [SECOND])
    ensures Envelope(b, a, AppendEntries(2, b, 0, 0, [SECOND], 0)) in s'.network
  {
    s' := Spread(r, members, all, s, b, members - {a, b}, OTHER);
    assert [] + [SECOND] == [SECOND];
    Carries(s'.nodes[b], a, 1);
  }

  /** a gives up its entry, but not its client. */
  lemma Overwritten(r: Repairs, members: set<NodeId>, all: iset<State>, s: State, a: NodeId, b: NodeId)
    returns (s': State)
    requires Scene(r, members, all, s) && a in members && a != b
    requires Leads(s.nodes[a], 1, [FIRST], 0) && Waits(s.nodes[a])
    requires Envelope(b, a, AppendEntries(2, b, 0, 0, [SECOND], 0)) in s.network
    ensures Moved(r, members, all, s, s', {a})
    ensures Follows(s'.nodes[a], 2, [SECOND]) && Waits(s'.nodes[a])
  {
    assert ConflictAt([FIRST], 0, [SECOND], 0);
    s' := Accept(r, members, all, s, Envelope(b, a, AppendEntries(2, b, 0, 0, [SECOND], 0)));
  }

  /** a leads again in term 3, with every other vote. */
  lemma Returned(r: Repairs, members: set<NodeId>, all: iset<State>, s: State, a: NodeId, b: NodeId)
    returns (s': State)
    requires Scene(r, members, all, s) && !r.pendingReset && a in members && b in members && a != b
    requires Follows(s.nodes[a], 2, [SECOND]) && Waits(s.nodes[a])
    requires Leads(s.nodes[b], 2, [SECOND], 0) && Crowd(s, members - {a, b}, 2, [SECOND])
    ensures Scene(r, members, all, s')
    ensures Leads(s'.nodes[a], 3, [SECOND], 0) && Waits(s'.nodes[a])
    ensures Unmatched(s'.nodes[a]) && NextAt(s'.nodes[a], members - {a}, 2)
    ensures Crowd(s', members - {a}, 3, [SECOND])
  {
    assert b in members - {a} && |members - {a}| == |members| - 1;
    s' := Win(r, members, all, s, a, members - {a});
  }

  /** All take over a proposal of a's, a commits, and the client is told its
      command is at index 1. */
  lemma ClientAnswered(r: Repairs, members: set<NodeId>, all: iset<State>, s: State, a: NodeId) returns (s': State)
    requires Scene(r, members, all, s) && a in members && |members| >= 3
    requires Leads(s.nodes[a], 3, [SECOND], 0) && Waits(s.nodes[a])
    requires Unmatched(s.nodes[a]) && NextAt(s.nodes[a], members - {a}, 2)
    requires Crowd(s, members - {a}, 3, [SECOND])
    ensures s' in all && Belied(s', Reply(WAITING, Success(1)), a) && !AnswersOnMajority(members, s')
  {
    assert |members - {a}| == |members| - 1;
    var s1 := Spread(r, members, all, s, a, members - {a}, OTHER);
    s' := Told(r, members, all, s1, a, s1.nodes[a].log);
  }

  /** Whoever waits is answered when a commits. */
  lemma Told(r: Repairs, members: set<NodeId>, all: iset<State>, s: State, a: NodeId, log: Log) returns (s': State)
    requires Scene(r, members, all, s) && a in members && |members| >= 3
    requires Leads(s.nodes[a], 3, log, 0) && Unmatched(s.nodes[a]) && |log| == 2 && log[0] == SECOND && log[1].term == 3
    requires 1 in s.nodes[a].pending && s.nodes[a].pending[1] == WAITING
    requires AllAcked(r, s.network, a, 3, 2, members - {a}) && Crowd(s, members - {a}, 3, log)
    ensures s' in all && Belied(s', Reply(WAITING, Success(1)), a) && !AnswersOnMajority(members, s')
  {
    assert |members - {a}| == |members| - 1;
    assert Holders(s.nodes[a].matched, 2) == {};
    s' := CommitAll(r, members, all, s, a, members - {a});
    assert Reply(WAITING, Success(1)) in Settled(s.nodes[a].pending, 2);
    CrowdStays(r, members, all, s, s', {a}, members - {a}, 3, log);
    HeldByOne(members, s', Reply(WAITING, Success(1)), a);
  }

  lemma Stolen(r: Repairs, members: set<NodeId>, all: iset<State>) returns (s: State, a: NodeId)
    requires Scene(r, members, all, Init(members)) && |members| >= 3 && !r.pendingReset
    ensures s in all && Belied(s, Reply(WAITING, Success(1)), a) && !AnswersOnMajority(members, s)
  {
    var b, c;
    a, b, c := ThreeOf(members);
    var s0 := FirstTerm(r, members, all, a);
    var s1 := Asked(r, members, all, s0, a);
    var s2 := Usurped(r, members, all, s1, a, b);
    var s3 := Overwritten(r, members, all, s2, a, b);
    var s4 := Returned(r, members, all, s3, a, b);
    s := ClientAnswered(r, members, all, s4, a);
  }
}
