/** A leader that takes replies of earlier terms for replies to itself, in any
    cluster of three or more: `c` has everyone but `g` acknowledge two entries in
    term 3 and hears of none; `g`, whose one entry is newer, leads term 4 and
    overwrites them, on `c` too; and when `c` leads term 5 the acknowledgements
    reach it at last. */
module OldReplies {
  import opened RaftTypes
  import opened LogSpec
  import opened NodeSpec
  import opened Cluster
  import opened Scenarios
  import opened Resends
  import opened LoneCommit

  const NEWER := LogEntry(1, 2, Noop)

  ghost predicate Two(log: Log) { |log| == 2 && log[0].term == 1 && log[1].term == 1 }

  /** c leads term 1 and takes two proposals. */
  lemma Started(r: Repairs, members: set<NodeId>, all: iset<State>, c: NodeId) returns (s: State, stale: Log)
    requires Scene(r, members, all, Init(members)) && |members| >= 3 && c in members
    ensures Scene(r, members, all, s) && Two(stale)
    ensures s.nodes[c].term == 1 && s.nodes[c].log == stale && Crowd(s, members - {c}, 1, [])
  {
    var s0 := FirstTerm(r, members, all, c);
    s := Fill(r, members, all, s0, c, 2);
    stale := s.nodes[c].log;
    CrowdStays(r, members, all, s0, s, {c}, members - {c}, 1, []);
  }

  /** g leads term 2 and takes one. */
  lemma Newer(r: Repairs, members: set<NodeId>, all: iset<State>, s: State, c: NodeId, g: NodeId) returns (s': State)
    requires Scene(r, members, all, s) && |members| >= 3 && c in members && g in members && c != g
    requires Crowd(s, members - {c}, 1, [])
    ensures Moved(r, members, all, s, s', members - {c})
    ensures s'.nodes[g].term == 2 && s'.nodes[g].log == [NEWER] && Crowd(s', members - {c, g}, 2, [])
  {
    Without(members, c, g);
    var s1 := Win(r, members, all, s, g, members - {c, g});
    s' := Append(r, members, all, s1, g, Client(0, Noop));
    assert [] + [NEWER] == [NEWER];
    CrowdStays(r, members, all, s1, s', {g}, members - {c, g}, 2, []);
  }

  /** c leads term 3, and all but g take over its two entries. */
  lemma Acknowledged(r: Repairs, members: set<NodeId>, all: iset<State>, s: State, c: NodeId, g: NodeId, stale: Log)
    returns (s': State)
    requires Scene(r, members, all, s) && |members| >= 3 && c in members && g in members && c != g && Two(stale)
    requires s.nodes[c].term == 1 && s.nodes[c].log == stale && Crowd(s, members - {c, g}, 2, [])
    ensures Moved(r, members, all, s, s', members - {g})
    ensures Leads(s'.nodes[c], 3, stale, 0) && Crowd(s', members - {c, g}, 3, stale)
    ensures AllAcked(r, s'.network, c, 3, 2, members - {c, g})
  {
    Without(members, c, g);
    var us := members - {c, g};
    var s1 := Again(r, members, all, s, c, us, 1, stale);
    Fills(stale);
    s' := FedAll(r, members, all, s1, c, us, 3, [], stale, 0);
  }

  lemma Fills(stale: Log)
    requires Two(stale)
    ensures Corrects([], stale, 0)
  {
    assert Merge([], 0, stale[0..]) == stale;
  }

  lemma Overwrites(stale: Log)
    requires Two(stale)
    ensures Corrects(stale, [NEWER], 0)
  {
    assert ConflictAt(stale, 0, [NEWER], 0);
    assert [NEWER][0..] == [NEWER];
  }

  /** g leads term 4, and its entry replaces the two in every log. */
  lemma Superseded(r: Repairs, members: set<NodeId>, all: iset<State>, s: State, c: NodeId, g: NodeId, stale: Log)
    returns (s': State)
    requires Scene(r, members, all, s) && |members| >= 3 && c in members && g in members && c != g && Two(stale)
    requires s.nodes[g].term == 2 && s.nodes[g].log == [NEWER]
    requires Leads(s.nodes[c], 3, stale, 0) && Crowd(s, members - {c, g}, 3, stale)
    ensures Moved(r, members, all, s, s', members)
    ensures Leads(s'.nodes[g], 4, [NEWER], 0) && Crowd(s', members - {g}, 4, [NEWER])
  {
    Without(members, c, g);
    var s1 := Again(r, members, all, s, g, members - {c, g}, 2, [NEWER]);
    Overwrites(stale);
    s' := FedAll(r, members, all, s1, g, members - {g}, 4, stale, [NEWER], 0);
  }

  /** Where terms are not compared, acknowledgements count in every later term. */
  lemma AcksAge(r: Repairs, network: set<Envelope>, to: NodeId, term: nat, term': nat, last: nat, us: set<NodeId>)
    requires !r.sameTerm && term <= term' && AllAcked(r, network, to, term, last, us)
    ensures AllAcked(r, network, to, term', last, us)
  {
    forall u | u in us ensures HasAcked(r, network, to, term', last, u) {
      assert HasAcked(r, network, to, term, last, u);
      var t: nat, l: nat :| AckIn(r, network, to, term, last, u, t, l);
      assert AckIn(r, network, to, term', last, u, t, l);
    }
  }

  /** c leads term 5. */
  lemma BackInTerm5(r: Repairs, members: set<NodeId>, all: iset<State>, s: State, c: NodeId, g: NodeId, log: Log)
    returns (s': State)
    requires Scene(r, members, all, s) && |members| >= 3 && c in members && g in members && c != g && |log| == 1
    requires Leads(s.nodes[g], 4, log, 0) && Crowd(s, members - {g}, 4, log)
    requires AllAcked(r, s.network, c, 5, 2, members - {c, g})
    ensures Scene(r, members, all, s') && Deceived(r, members, s', c, members - {c, g}, 5, log)
  {
    Without(members, c, g);
    assert Behind(s, members - {c}, 4, log);
    s' := Win(r, members, all, s, c, members - {c});
    AcksStay(r, s.network, s'.network, c, 5, 2, 2, members - {c, g});
    NowDeceived(r, members, s', c, members - {c, g}, 5, log);
  }

  lemma Deceives(r: Repairs, members: set<NodeId>, all: iset<State>)
    returns (s: State, c: NodeId, fs: set<NodeId>, log: Log)
    requires Scene(r, members, all, Init(members)) && |members| >= 3 && !r.sameTerm
    ensures Scene(r, members, all, s) && Deceived(r, members, s, c, fs, 5, log) && |log| == 1
  {
    var g;
    c, g := TwoOf(members);
    fs, log := members - {c, g}, [NEWER];
    var s0, stale := Started(r, members, all, c);
    var s1 := Newer(r, members, all, s0, c, g);
    var s2 := Acknowledged(r, members, all, s1, c, g, stale);
    var s3 := Superseded(r, members, all, s2, c, g, stale);
    AcksStay(r, s2.network, s3.network, c, 3, 2, 2, fs);
    AcksAge(r, s3.network, c, 3, 5, 2, fs);
    s := BackInTerm5(r, members, all, s3, c, g, log);
  }

  /** The clash is at index 2. */
  lemma Clashes(r: Repairs, members: set<NodeId>, all: iset<State>) returns (s: State, d: NodeId, e: Envelope)
    requires Scene(r, members, all, Init(members)) && |members| >= 3 && !r.sameTerm
    ensures Scene(r, members, all, s) && Diverges(members, s, 2, d) && Undoes(s, e)
  {
    var s1, c, fs, log := Deceives(r, members, all);
    s, d, e := Diverge(r, members, all, s1, c, fs, 5, log);
  }
}
