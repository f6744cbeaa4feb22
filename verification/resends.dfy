/** How a leader corrects a follower whose log is not its own: it starts at the
    end of its log, is turned down, steps back and sends what follows. And how
    nodes come to lead again, and to share a full batch. */
module Resends {
  import opened RaftTypes
  import opened LogSpec
  import opened NodeSpec
  import opened Cluster
  import opened Scenarios

  // ----- leading again -----

  /** Nodes that would vote for a log in term t. */
  ghost predicate Electors(s: State, us: set<NodeId>, t: nat, log: Log) {
    forall u {:trigger s.nodes[u]} | u in us ::
      u in s.nodes && s.nodes[u].term < t && UpToDate(LastTerm(log), |log|, s.nodes[u].log)
  }

  /** A node crashes, stands twice for election and wins the second time. */
  lemma Again(r: Repairs, members: set<NodeId>, all: iset<State>, s: State, c: NodeId, us: set<NodeId>, t: nat,
              log: Log)
    returns (s': State)
    requires Scene(r, members, all, s) && c in members && us != {} && us <= members - {c} && |us| >= |members| / 2
    requires s.nodes[c].term == t && s.nodes[c].log == log && Electors(s, us, t + 2, log)
    ensures Moved(r, members, all, s, s', us + {c})
    ensures var n' := s'.nodes[c];
            Leads(n', t + 2, log, 0) && Unmatched(n') && NextAt(n', members - {c}, |log| + 1)
    ensures forall u | u in us :: s'.nodes[u] == Voted(s.nodes[u], s'.nodes[c])
  {
    var s1 := Move(r, members, all, s, Crash(c));
    var s2 := Campaign(r, members, all, s1, c);
    s' := Elect(r, members, all, s2, c, us);
  }

  // ----- correcting followers -----

  /** Nodes that hold another log and will listen to a leader of term t. */
  ghost predicate Astray(s: State, us: set<NodeId>, t: nat, log: Log) {
    forall u {:trigger s.nodes[u]} | u in us ::
      && u in s.nodes && s.nodes[u].term <= t && (s.nodes[u].role == Follower || s.nodes[u].term < t)
      && s.nodes[u].log == log && s.nodes[u].commit == 0
  }

  /** A greeting is turned down. */
  lemma Greeted(r: Repairs, members: set<NodeId>, all: iset<State>, s: State, a: NodeId, u: NodeId, t: nat,
                stale: Log, log: Log)
    returns (s': State)
    requires Scene(r, members, all, s) && a in members && u in members && a != u
    requires var n := s.nodes[a]; Leads(n, t, log, n.commit) && u in n.next && n.next[u] == |log| + 1 && log != []
    requires Astray(s, {u}, t, stale) && !HasEntry(stale, |log|, LastTerm(log))
    ensures Moved(r, members, all, s, s', {u}) && Nack(u, a, t, |stale|) in s'.network
    ensures Follows(s'.nodes[u], t, stale) && s'.nodes[u].commit == 0
  {
    var s1 := Beat(r, members, all, s, a);
    Carries(s1.nodes[a], u, |log| + 1);
    assert s1.nodes[u] == s.nodes[u];
    s' := Reject(r, members, all, s1, Envelope(a, u, AppendMessage(s1.nodes[a], u)));
  }

  /** The leader hears of it k times and steps back k entries. */
  lemma TurnedDown(r: Repairs, members: set<NodeId>, all: iset<State>, s: State, a: NodeId, u: NodeId, t: nat,
                   stale: Log, log: Log, k: nat)
    returns (s': State)
    requires Scene(r, members, all, s) && a in members && u in members && a != u
    requires var n := s.nodes[a];
             Leads(n, t, log, n.commit) && u in n.next && n.next[u] == |log| + 1 && k <= |log| && log != []
    requires Astray(s, {u}, t, stale) && !HasEntry(stale, |log|, LastTerm(log))
    ensures Moved(r, members, all, s, s', {a, u})
    ensures s'.nodes[a] == s.nodes[a].(next := s.nodes[a].next[u := |log| + 1 - k])
    ensures Follows(s'.nodes[u], t, stale) && s'.nodes[u].commit == 0
    ensures Nack(u, a, t, |stale|) in s'.network
  {
    var s1 := Greeted(r, members, all, s, a, u, t, stale, log);
    s' := StepBack(r, members, all, s1, a, u, |stale|, k);
  }

  /** What a leader's log makes of another one from index b on. */
  ghost predicate Corrects(stale: Log, log: Log, b: nat) {
    && b < |log| <= b + MAX_BATCH && b <= |stale| && stale[..b] == log[..b]
    && !HasEntry(stale, |log|, LastTerm(log)) && Merge(stale, b, log[b..]) == log
  }

  /** From index b on, the leader sends all it has. */
  lemma Resent(r: Repairs, members: set<NodeId>, all: iset<State>, s: State, a: NodeId, u: NodeId, t: nat, stale: Log,
               log: Log, b: nat)
    returns (s': State)
    requires Scene(r, members, all, s) && a in members && u in members && a != u && Corrects(stale, log, b)
    requires var n := s.nodes[a]; Leads(n, t, log, 0) && u in n.next && n.next[u] == b + 1
    requires Follows(s.nodes[u], t, stale) && s.nodes[u].commit == 0
    ensures Moved(r, members, all, s, s', {u})
    ensures Crowd(s', {u}, t, log) && HasAcked(r, s'.network, a, t, |log|, u)
  {
    var s1 := Beat(r, members, all, s, a);
    Carries(s1.nodes[a], u, b + 1);
    assert b > 0 ==> stale[b - 1] == stale[..b][b - 1] == log[b - 1];
    assert s1.nodes[u] == s.nodes[u];
    s' := AcceptOne(r, members, all, s1, a, u, AppendMessage(s1.nodes[a], u));
  }

  lemma Fed(r: Repairs, members: set<NodeId>, all: iset<State>, s: State, a: NodeId, u: NodeId, t: nat, stale: Log,
            log: Log, b: nat)
    returns (s': State)
    requires Scene(r, members, all, s) && a in members && u in members && a != u
    requires var n := s.nodes[a]; Leads(n, t, log, 0) && u in n.next && n.next[u] == |log| + 1
    requires Astray(s, {u}, t, stale) && Corrects(stale, log, b)
    ensures Moved(r, members, all, s, s', {a, u})
    ensures s'.nodes[a] == s.nodes[a].(next := s.nodes[a].next[u := b + 1])
    ensures Crowd(s', {u}, t, log) && HasAcked(r, s'.network, a, t, |log|, u)
  {
    var s1 := TurnedDown(r, members, all, s, a, u, t, stale, log, |log| - b);
    s' := Resent(r, members, all, s1, a, u, t, stale, log, b);
  }

  /** One after the other, all come to hold the leader's log. */
  lemma {:induction false} FedAll(r: Repairs, members: set<NodeId>, all: iset<State>, s: State, a: NodeId,
                                  us: set<NodeId>, t: nat, stale: Log, log: Log, b: nat) returns (s': State)
    requires Scene(r, members, all, s) && a in members && us <= members - {a}
    requires Leads(s.nodes[a], t, log, 0) && NextAt(s.nodes[a], us, |log| + 1)
    requires Astray(s, us, t, stale) && Corrects(stale, log, b)
    ensures Moved(r, members, all, s, s', us + {a})
    ensures Leads(s'.nodes[a], t, log, 0) && s'.nodes[a].matched == s.nodes[a].matched
    ensures Crowd(s', us, t, log) && AllAcked(r, s'.network, a, t, |log|, us)
    decreases us
  {
    if us == {} {
      s' := s;
    } else {
      var u :| u in us;
      var s1 := Fed(r, members, all, s, a, u, t, stale, log, b);
      s' := FedAll(r, members, all, s1, a, us - {u}, t, stale, log, b);
      CrowdStays(r, members, all, s1, s', us - {u} + {a}, {u}, t, log);
      AcksStay(r, s1.network, s'.network, a, t, |log|, |log|, {u});
    }
  }

  // ----- a full batch -----

  /** A full batch of term 1. */
  ghost predicate First(log: Log) {
    |log| == MAX_BATCH && forall i | 0 <= i < |log| :: log[i].term == 1
  }

  /** a leads term 1 and every log holds its 64 entries. */
  lemma Copied(r: Repairs, members: set<NodeId>, all: iset<State>, s: State, a: NodeId)
    returns (s': State, batch: Log)
    requires Scene(r, members, all, s) && a in members
    requires Leads(s.nodes[a], 1, [], 0) && NextAt(s.nodes[a], members - {a}, 1) && Crowd(s, members - {a}, 1, [])
    ensures Scene(r, members, all, s') && First(batch)
    ensures Leads(s'.nodes[a], 1, batch, 0) && Crowd(s', members - {a}, 1, batch)
  {
    var s1 := Fill(r, members, all, s, a, 64);
    batch := s1.nodes[a].log;
    assert Merge([], 0, batch) == batch;
    forall u | u in members - {a} ensures Envelope(a, u, AppendEntries(1, a, 0, 0, batch, 0)) in s1.network {
      CarriesFirst(s1.nodes[a], u, batch);
    }
    s' := AcceptAll(r, members, all, s1, a, members - {a}, AppendEntries(1, a, 0, 0, batch, 0), []);
  }
}
