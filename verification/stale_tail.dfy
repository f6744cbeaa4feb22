/** A follower that commits as far as its own log reaches commits entries the
    leader never sent it, in any cluster of three or more: `a` shares 64 entries
    with the leader and holds one of its own at index 65; a batch of the 64
    shared ones, with a commit index of 65, makes it commit its own unseen. The
    leader's entry for that index, already on its way, then takes it back. */
module StaleTail {
  import opened RaftTypes
  import opened LogSpec
  import opened NodeSpec
  import opened Cluster
  import opened Stores
  import opened Scenarios
  import opened Guarantees
  import opened Resends

  const CLIENT := Client(1, PUT)

  const OLD := LogEntry(65, 1, DELETE)
  const NEW := LogEntry(65, 2, PUT)

  /** c's client is told that its command is at index 65. */
  const ANSWER := Reply(CLIENT, Success(65))

  lemma MergesOld(batch: Log)
    requires First(batch)
    ensures Merge(batch + [OLD], 0, batch) == batch + [OLD]
    ensures Merge(batch + [OLD], 64, [NEW]) == batch + [NEW]
  {
    assert ConflictAt(batch + [OLD], 64, [NEW], 0);
  }

  /** a leads term 1, shares a batch and keeps one more entry to itself. */
  lemma OldTailed(r: Repairs, members: set<NodeId>, all: iset<State>, a: NodeId) returns (s: State, batch: Log)
    requires Scene(r, members, all, Init(members)) && |members| >= 3 && a in members
    ensures Scene(r, members, all, s) && First(batch)
    ensures Leads(s.nodes[a], 1, batch + [OLD], 0) && Crowd(s, members - {a}, 1, batch)
  {
    var s0 := FirstTerm(r, members, all, a);
    var s1;
    s1, batch := Copied(r, members, all, s0, a);
    s := Append(r, members, all, s1, a, Client(2, DELETE));
    CrowdStays(r, members, all, s1, s, {a}, members - {a}, 1, batch);
  }

  lemma NewSpread(r: Repairs, members: set<NodeId>, all: iset<State>, s: State, c: NodeId, us: set<NodeId>, batch: Log)
    returns (s': State)
    requires Scene(r, members, all, s) && c in members && us <= members - {c} && |batch| == MAX_BATCH
    requires Leads(s.nodes[c], 2, batch, 0) && NextAt(s.nodes[c], us, 65) && Crowd(s, us, 2, batch)
    ensures Moved(r, members, all, s, s', us + {c})
    ensures Leads(s'.nodes[c], 2, batch + [NEW], 0) && s'.nodes[c].matched == s.nodes[c].matched
    ensures 65 in s'.nodes[c].pending && s'.nodes[c].pending[65] == CLIENT
    ensures Crowd(s', us, 2, batch + [NEW]) && AllAcked(r, s'.network, c, 2, 65, us)
  {
    s' := Spread(r, members, all, s, c, us, CLIENT);
  }

  /** c leads term 2, and all but a take over its entry. */
  lemma Adopted(r: Repairs, members: set<NodeId>, all: iset<State>, s: State, a: NodeId, c: NodeId, batch: Log)
    returns (s': State)
    requires Scene(r, members, all, s) && |members| >= 3 && a in members && c in members && a != c
    requires |batch| == MAX_BATCH && Crowd(s, members - {a}, 1, batch)
    ensures Moved(r, members, all, s, s', members - {a})
    ensures Leads(s'.nodes[c], 2, batch + [NEW], 0) && Unmatched(s'.nodes[c])
    ensures 65 in s'.nodes[c].pending && s'.nodes[c].pending[65] == CLIENT
    ensures Crowd(s', members - {a, c}, 2, batch + [NEW])
    ensures AllAcked(r, s'.network, c, 2, 65, members - {a, c})
  {
    Without(members, a, c);
    var s1 := Win(r, members, all, s, c, members - {a, c});
    s' := NewSpread(r, members, all, s1, c, members - {a, c}, batch);
  }

  /** And c commits it. */
  lemma NewCommitted(r: Repairs, members: set<NodeId>, all: iset<State>, s: State, a: NodeId, c: NodeId, log: Log)
    returns (s': State)
    requires Scene(r, members, all, s) && |members| >= 3 && a in members && c in members && a != c
    requires |log| == 65 && log[64].term == 2 && Leads(s.nodes[c], 2, log, 0) && Unmatched(s.nodes[c])
    requires 65 in s.nodes[c].pending && s.nodes[c].pending[65] == CLIENT
    requires AllAcked(r, s.network, c, 2, 65, members - {a, c})
    ensures Moved(r, members, all, s, s', {c}) && Leads(s'.nodes[c], 2, log, 65) && ANSWER in s'.replies
  {
    Without(members, a, c);
    assert ANSWER in Settled(s.nodes[c].pending, 65);
    s' := CommitAll(r, members, all, s, c, members - {a, c});
  }

  lemma Agreement(r: Repairs, members: set<NodeId>, all: iset<State>, s: State, a: NodeId, c: NodeId, batch: Log)
    returns (s': State)
    requires Scene(r, members, all, s) && |members| >= 3 && a in members && c in members && a != c
    requires |batch| == MAX_BATCH && Crowd(s, members - {a}, 1, batch)
    ensures Moved(r, members, all, s, s', members - {a}) && ANSWER in s'.replies
    ensures Leads(s'.nodes[c], 2, batch + [NEW], 65) && Crowd(s', members - {a, c}, 2, batch + [NEW])
  {
    var s1 := Adopted(r, members, all, s, a, c, batch);
    s' := NewCommitted(r, members, all, s1, a, c, batch + [NEW]);
    CrowdStays(r, members, all, s1, s', {c}, members - {a, c}, 2, batch + [NEW]);
  }

  /** b stands for term 3; c votes for it, keeping what it has committed. */
  lemma Unseated(r: Repairs, members: set<NodeId>, all: iset<State>, s: State, a: NodeId, b: NodeId, c: NodeId,
                 log: Log)
    returns (s': State)
    requires Scene(r, members, all, s) && a in members && b in members && c in members && a != b && b != c && a != c
    requires Leads(s.nodes[c], 2, log, 65) && Crowd(s, members - {a, c}, 2, log)
    ensures Moved(r, members, all, s, s', members - {a})
    ensures Follows(s'.nodes[c], 3, log) && s'.nodes[c].commit == 65 && Behind(s', members - {a, c}, 3, log)
  {
    var s1 := Campaign(r, members, all, s, b);
    s' := GrantOne(r, members, all, s1, s1.nodes[b], c);
  }

  /** c leads term 4; a turns down its greeting. */
  lemma Refused(r: Repairs, members: set<NodeId>, all: iset<State>, s: State, a: NodeId, c: NodeId, batch: Log)
    returns (s': State)
    requires Scene(r, members, all, s) && |members| >= 3 && a in members && c in members && a != c && First(batch)
    requires Leads(s.nodes[a], 1, batch + [OLD], 0)
    requires Follows(s.nodes[c], 3, batch + [NEW]) && s.nodes[c].commit == 65
    requires Behind(s, members - {a, c}, 3, batch + [NEW])
    ensures Scene(r, members, all, s') && s.replies <= s'.replies
    ensures Follows(s'.nodes[a], 4, batch + [OLD]) && s'.nodes[a].commit == 0
    ensures Leads(s'.nodes[c], 4, batch + [NEW], 65) && a in s'.nodes[c].next && s'.nodes[c].next[a] == 66
    ensures Nack(a, c, 4, 65) in s'.network
  {
    Without(members, a, c);
    var s1 := Win(r, members, all, s, c, members - {a, c});
    assert s1.nodes[a] == s.nodes[a];
    s' := Greeted(r, members, all, s1, c, a, 4, batch + [OLD], batch + [NEW]);
  }

  ghost predicate Sent(s: State, c: NodeId, a: NodeId, prev: nat, entries: seq<LogEntry>) {
    Envelope(c, a, AppendEntries(4, c, prev, if prev == 0 then 0 else 1, entries, 65)) in s.network
  }

  /** c steps back once and sends its entry, and then all the way and sends the batch. */
  lemma SteppedBack(r: Repairs, members: set<NodeId>, all: iset<State>, s: State, a: NodeId, c: NodeId, batch: Log)
    returns (s': State)
    requires Scene(r, members, all, s) && a in members && c in members && a != c && First(batch)
    requires Leads(s.nodes[c], 4, batch + [NEW], 65) && a in s.nodes[c].next && s.nodes[c].next[a] == 66
    requires Nack(a, c, 4, 65) in s.network
    ensures Moved(r, members, all, s, s', {c}) && Leads(s'.nodes[c], 4, batch + [NEW], 65)
    ensures Sent(s', c, a, 64, [NEW]) && Sent(s', c, a, 0, batch)
  {
    var s1 := StepBack(r, members, all, s, c, a, 65, 1);
    var s2 := Beat(r, members, all, s1, c);
    Carries(s2.nodes[c], a, 65);
    assert (batch + [NEW])[64..] == [NEW];
    var s3 := StepBack(r, members, all, s2, c, a, 65, 64);
    s' := Beat(r, members, all, s3, c);
    CarriesFirst(s'.nodes[c], a, batch);
  }

  /** a commits its own entry at index 65, which c's will replace. */
  ghost predicate HalfCommitted(s: State, a: NodeId, c: NodeId, batch: Log) {
    && a in s.nodes && c in s.nodes && a != c && First(batch)
    && Follows(s.nodes[a], 4, batch + [OLD]) && s.nodes[a].commit == 65
    && Leads(s.nodes[c], 4, batch + [NEW], 65) && Sent(s, c, a, 64, [NEW]) && ANSWER in s.replies
  }

  lemma OldCommitted(r: Repairs, members: set<NodeId>, all: iset<State>, s: State, a: NodeId, c: NodeId, batch: Log)
    returns (s': State)
    requires Scene(r, members, all, s) && a in members && c in members && a != c && First(batch) && !r.commitClamp
    requires Follows(s.nodes[a], 4, batch + [OLD]) && s.nodes[a].commit == 0
    requires Leads(s.nodes[c], 4, batch + [NEW], 65) && ANSWER in s.replies
    requires Sent(s, c, a, 64, [NEW]) && Sent(s, c, a, 0, batch)
    ensures Scene(r, members, all, s') && HalfCommitted(s', a, c, batch)
  {
    MergesOld(batch);
    s' := Accept(r, members, all, s, Envelope(c, a, AppendEntries(4, c, 0, 0, batch, 65)));
  }

  lemma SplitClash(s: State, a: NodeId, c: NodeId, batch: Log)
    requires HalfCommitted(s, a, c, batch)
    ensures CommitsClash(s, 65) && !LeadersComplete(s) && Belied(s, ANSWER, a)
  {
    assert s.nodes[a].log[64] == OLD && s.nodes[c].log[64] == NEW;
    assert Clash(s, a, c, 65);
    assert Concerns(s, a, c);
    assert s.nodes[a].log[..65][64] == OLD;
  }

  lemma SplitUndoes(r: Repairs, members: set<NodeId>, all: iset<State>, s: State, a: NodeId, c: NodeId, batch: Log)
    requires Scene(r, members, all, s) && HalfCommitted(s, a, c, batch)
    ensures Undoes(s, Envelope(c, a, AppendEntries(4, c, 64, 1, [NEW], 65))) && !DataAgrees(s)
  {
    MergesOld(batch);
    OpposedData(r, members, all, s, a, c);
    assert DataDiffers(s, a, c);
  }

  lemma ReachesSplit(r: Repairs, members: set<NodeId>, all: iset<State>)
    returns (s: State, a: NodeId, c: NodeId, batch: Log)
    requires Scene(r, members, all, Init(members)) && |members| >= 3 && !r.commitClamp
    ensures Scene(r, members, all, s) && HalfCommitted(s, a, c, batch)
  {
    var b, s1;
    a, b, c := ThreeOf(members);
    s1, batch := OldTailed(r, members, all, a);
    var s2 := Agreement(r, members, all, s1, a, c, batch);
    var s3 := Unseated(r, members, all, s2, a, b, c, batch + [NEW]);
    var s4 := Refused(r, members, all, s3, a, c, batch);
    var s5 := SteppedBack(r, members, all, s4, a, c, batch);
    s := OldCommitted(r, members, all, s5, a, c, batch);
  }

  lemma Clashes(r: Repairs, members: set<NodeId>, all: iset<State>) returns (s: State, a: NodeId, e: Envelope)
    requires Scene(r, members, all, Init(members)) && |members| >= 3 && !r.commitClamp
    ensures Scene(r, members, all, s) && CommitsClash(s, 65) && !LeadersComplete(s) && !DataAgrees(s)
    ensures Belied(s, ANSWER, a) && Undoes(s, e)
  {
    var c, batch;
    s, a, c, batch := ReachesSplit(r, members, all);
    SplitClash(s, a, c, batch);
    SplitUndoes(r, members, all, s, a, c, batch);
    e := Envelope(c, a, AppendEntries(4, c, 64, 1, [NEW], 65));
  }
}
