/** What false acknowledgements lead to, in any cluster of three or more: a leader
    that takes half the cluster's for true commits an entry nobody else has. The
    others elect a leader that commits another one at the same index, and that one
    is on its way to overwrite the first. */
module LoneCommit {
  import opened RaftTypes
  import opened LogSpec
  import opened NodeSpec
  import opened Cluster
  import opened Stores
  import opened Scenarios
  import opened Guarantees

  /** The one that is told of an entry c alone has. */
  const MISLED := Client(1, PUT)

  const RIVAL := Client(2, DELETE)

  function NextEntry(log: Log, t: nat, client: Client): LogEntry { LogEntry(|log| + 1, t, client.wants) }

  /** All logs and terms are the same, nothing is committed, and at most c leads. */
  ghost predicate Level(members: set<NodeId>, s: State, c: NodeId, t: nat, log: Log) {
    forall v {:trigger s.nodes[v]} | v in members ::
      && v in s.nodes && s.nodes[v].term == t && s.nodes[v].log == log && s.nodes[v].commit == 0
      && (v != c ==> s.nodes[v].role != Leader)
  }

  /** c leads a level cluster, and false acknowledgements of its next entry are
      on their way to it from half of the cluster. */
  ghost predicate Deceived(r: Repairs, members: set<NodeId>, s: State, c: NodeId, fs: set<NodeId>, t: nat, log: Log) {
    && c in members && c in s.nodes && fs <= members - {c} && |fs| >= |members| / 2 && fs != {}
    && Level(members, s, c, t, log) && s.nodes[c].role == Leader && Unmatched(s.nodes[c])
    && AllAcked(r, s.network, c, t, |log| + 1, fs)
  }

  lemma NowDeceived(r: Repairs, members: set<NodeId>, s: State, c: NodeId, fs: set<NodeId>, t: nat, log: Log)
    requires |members| >= 3 && c in members && c in s.nodes && fs <= members - {c} && |fs| >= |members| / 2
    requires Leads(s.nodes[c], t, log, 0) && Unmatched(s.nodes[c]) && Crowd(s, members - {c}, t, log)
    requires AllAcked(r, s.network, c, t, |log| + 1, fs)
    ensures Deceived(r, members, s, c, fs, t, log)
  {
    assert fs != {};
  }

  /** The leader records a match that is not one. */
  lemma RecordsFalsely(r: Repairs, members: set<NodeId>, all: iset<State>, s: State, c: NodeId, fs: set<NodeId>, t: nat,
                  log: Log)
    returns (s': State)
    requires Scene(r, members, all, s) && Deceived(r, members, s, c, fs, t, log)
    ensures s' in all && !MatchesHonest(s')
  {
    var f :| f in fs;
    assert HasAcked(r, s.network, c, t, |log| + 1, f);
    var u: nat, l: nat :| AckIn(r, s.network, c, t, |log| + 1, f, u, l);
    s' := Receive(r, members, all, s, Ack(f, c, u, l));
    assert s'.nodes[c].matched == s.nodes[c].matched[f := l] && s'.nodes[c].log == log;
    assert Recorded(s', c, f);
  }

  /** c commits an entry that it alone has, and says so to the client. */
  lemma Misled(r: Repairs, members: set<NodeId>, all: iset<State>, s: State, c: NodeId, fs: set<NodeId>, t: nat,
               log: Log)
    returns (s': State)
    requires Scene(r, members, all, s) && Deceived(r, members, s, c, fs, t, log)
    ensures Moved(r, members, all, s, s', {c})
    ensures Leads(s'.nodes[c], t, log + [NextEntry(log, t, MISLED)], |log| + 1)
    ensures Reply(MISLED, Success(|log| + 1)) in s'.replies
  {
    var s1 := Append(r, members, all, s, c, MISLED);
    AcksStay(r, s.network, s1.network, c, t, |log| + 1, |log| + 1, fs);
    assert Reply(MISLED, Success(|log| + 1)) in Settled(s1.nodes[c].pending, |log| + 1);
    s' := CommitAll(r, members, all, s1, c, fs);
  }

  /** d leads, all but c have its entry at the index c has committed, d has
      committed it too, and it is on its way to c. */
  ghost predicate Prevailed(members: set<NodeId>, s: State, c: NodeId, d: NodeId, t: nat, log: Log) {
    && c in members && d in members && c != d && d in s.nodes
    && Leads(s.nodes[d], t, log + [NextEntry(log, t, RIVAL)], |log| + 1)
    && Crowd(s, members - {c, d}, t, log + [NextEntry(log, t, RIVAL)])
    && Envelope(d, c, AppendEntries(t, d, |log|, LastTerm(log), [NextEntry(log, t, RIVAL)], 0)) in s.network
  }

  /** The others elect d. */
  lemma Outvoted(r: Repairs, members: set<NodeId>, all: iset<State>, s: State, c: NodeId, d: NodeId, t: nat, log: Log)
    returns (s': State)
    requires Scene(r, members, all, s) && |members| >= 3 && c in members && d in members && c != d
    requires Behind(s, members - {c}, t, log) && s.nodes[d].term == t && s.nodes[d].role != Leader
    ensures Moved(r, members, all, s, s', members - {c}) && Prevailed(members, s', c, d, t + 1, log)
  {
    Without(members, c, d);
    var s1 := Win(r, members, all, s, d, members - {c, d});
    s' := Prevails(r, members, all, s1, c, d, t + 1, log);
  }

  /** d's entry reaches all but c. */
  lemma RivalOffered(r: Repairs, members: set<NodeId>, all: iset<State>, s: State, c: NodeId, d: NodeId, t: nat,
                     log: Log)
    returns (s': State)
    requires Scene(r, members, all, s) && c in members && d in members && c != d
    requires Leads(s.nodes[d], t, log, 0) && Unmatched(s.nodes[d]) && NextAt(s.nodes[d], members - {d}, |log| + 1)
    requires Crowd(s, members - {c, d}, t, log)
    ensures Moved(r, members, all, s, s', members - {c})
    ensures Leads(s'.nodes[d], t, log + [NextEntry(log, t, RIVAL)], 0) && Unmatched(s'.nodes[d])
    ensures Crowd(s', members - {c, d}, t, log + [NextEntry(log, t, RIVAL)])
    ensures AllAcked(r, s'.network, d, t, |log| + 1, members - {c, d})
    ensures Envelope(d, c, AppendEntries(t, d, |log|, LastTerm(log), [NextEntry(log, t, RIVAL)], 0)) in s'.network
  {
    s' := Spread(r, members, all, s, d, members - {c, d}, RIVAL);
    OfferMessage(s'.nodes[d], c, log, NextEntry(log, t, RIVAL));
  }

  /** And d commits it. */
  lemma Prevails(r: Repairs, members: set<NodeId>, all: iset<State>, s: State, c: NodeId, d: NodeId, t: nat, log: Log)
    returns (s': State)
    requires Scene(r, members, all, s) && |members| >= 3 && c in members && d in members && c != d
    requires Leads(s.nodes[d], t, log, 0) && Unmatched(s.nodes[d]) && NextAt(s.nodes[d], members - {d}, |log| + 1)
    requires Crowd(s, members - {c, d}, t, log)
    ensures Moved(r, members, all, s, s', members - {c}) && Prevailed(members, s', c, d, t, log)
  {
    Without(members, c, d);
    var s1 := RivalOffered(r, members, all, s, c, d, t, log);
    s' := CommitAll(r, members, all, s1, d, members - {c, d});
    CrowdStays(r, members, all, s1, s', {d}, members - {c, d}, t, log + [NextEntry(log, t, RIVAL)]);
  }

  lemma OfferMessage(n: NodeState, f: NodeId, log: Log, e: LogEntry)
    requires n.log == log + [e] && f in n.next && n.next[f] == |log| + 1
    ensures AppendMessage(n, f) == AppendEntries(n.term, n.id, |log|, LastTerm(log), [e], n.commit)
  {
    Carries(n, f, |log| + 1);
    assert n.log[|log|..] == [e];
  }

  /** c has committed what d's message will overwrite. */
  ghost predicate Parted(members: set<NodeId>, s: State, c: NodeId, d: NodeId, t: nat, log: Log) {
    && Prevailed(members, s, c, d, t + 1, log) && c in s.nodes
    && Leads(s.nodes[c], t, log + [NextEntry(log, t, MISLED)], |log| + 1)
    && Reply(MISLED, Success(|log| + 1)) in s.replies
  }

  lemma Part(r: Repairs, members: set<NodeId>, all: iset<State>, s: State, c: NodeId, fs: set<NodeId>, t: nat, log: Log)
    returns (s': State, d: NodeId)
    requires Scene(r, members, all, s) && |members| >= 3 && Deceived(r, members, s, c, fs, t, log)
    ensures Scene(r, members, all, s') && Parted(members, s', c, d, t, log)
  {
    assert |members - {c}| == |members| - 1;
    d :| d in members - {c};
    var s1 := Misled(r, members, all, s, c, fs, t, log);
    s' := Outvoted(r, members, all, s1, c, d, t, log);
  }

  lemma PartedClash(members: set<NodeId>, s: State, c: NodeId, d: NodeId, t: nat, log: Log)
    requires Parted(members, s, c, d, t, log)
    ensures CommitsClash(s, |log| + 1) && !LeadersComplete(s) && Belied(s, Reply(MISLED, Success(|log| + 1)), d)
  {
    var i := |log| + 1;
    assert s.nodes[c].log[i - 1] != s.nodes[d].log[i - 1];
    assert Clash(s, c, d, i);
    assert Concerns(s, c, d);
    assert s.nodes[c].log[..i] == s.nodes[c].log;
  }

  lemma PartedHeldByOne(members: set<NodeId>, s: State, c: NodeId, d: NodeId, t: nat, log: Log)
    requires Parted(members, s, c, d, t, log) && |members| >= 2
    ensures !AnswersOnMajority(members, s)
  {
    var a := Reply(MISLED, Success(|log| + 1));
    HeldByOne(members, s, a, c);
  }

  lemma PartedUndoes(r: Repairs, members: set<NodeId>, all: iset<State>, s: State, c: NodeId, d: NodeId, t: nat,
                     log: Log) returns (e: Envelope)
    requires Scene(r, members, all, s) && Parted(members, s, c, d, t, log)
    ensures Undoes(s, e) && !DataAgrees(s)
  {
    e := Envelope(d, c, AppendEntries(t + 1, d, |log|, LastTerm(log), [NextEntry(log, t + 1, RIVAL)], 0));
    OpposedData(r, members, all, s, c, d);
    assert DataDiffers(s, c, d);
  }

  /** Two entries are committed at index i, a leader lacks one of them, data
      differ, and a client was told of the one that almost nobody has. */
  ghost predicate Diverges(members: set<NodeId>, s: State, i: nat, d: NodeId) {
    && CommitsClash(s, i) && !LeadersComplete(s) && !DataAgrees(s)
    && Belied(s, Reply(MISLED, Success(i)), d) && !AnswersOnMajority(members, s)
  }

  lemma Diverge(r: Repairs, members: set<NodeId>, all: iset<State>, s: State, c: NodeId, fs: set<NodeId>, t: nat,
                log: Log) returns (s': State, d: NodeId, e: Envelope)
    requires Scene(r, members, all, s) && |members| >= 3 && Deceived(r, members, s, c, fs, t, log)
    ensures Scene(r, members, all, s') && Diverges(members, s', |log| + 1, d) && Undoes(s', e)
  {
    s', d := Part(r, members, all, s, c, fs, t, log);
    PartedClash(members, s', c, d, t, log);
    PartedHeldByOne(members, s', c, d, t, log);
    e := PartedUndoes(r, members, all, s', c, d, t, log);
  }
}
