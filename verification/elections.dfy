/** No state a run reaches is a dead end: some node can always be elected, as the
    code stands and however repaired, and where votes count it can go on to commit
    whatever a client asks for on every node, in every cluster of two or more. */
module Elections {
  import opened RaftTypes
  import opened LogSpec
  import opened NodeSpec
  import opened Cluster
  import opened History
  import opened LogMatching
  import opened Persistence
  import opened Scenarios
  import opened Duties
  import opened CatchUp
  import opened Progress

  // ----- who can be elected -----

  /** a's log is at least as up to date as b's. */
  predicate Ahead(a: NodeState, b: NodeState) {
    NoOlder(LastTerm(a.log), |a.log|, LastTerm(b.log), |b.log|)
  }

  ghost predicate AheadOfAll(s: State, v: NodeId, us: set<NodeId>) {
    v in s.nodes && forall u | u in us :: u in s.nodes && Ahead(s.nodes[v], s.nodes[u])
  }

  lemma {:induction false} SomeAhead(s: State, us: set<NodeId>) returns (v: NodeId)
    requires us != {} && us <= s.nodes.Keys
    ensures v in us && AheadOfAll(s, v, us)
    decreases us
  {
    v :| v in us;
    if us != {v} {
      var w := SomeAhead(s, us - {v});
      if Ahead(s.nodes[w], s.nodes[v]) { v := w; }
    }
  }

  ghost predicate TermsUpTo(s: State, us: set<NodeId>, t: nat) {
    forall u | u in us :: u in s.nodes && s.nodes[u].term <= t
  }

  lemma {:induction false} SomeTerm(s: State, us: set<NodeId>) returns (t: nat)
    requires us <= s.nodes.Keys
    ensures TermsUpTo(s, us, t)
    decreases us
  {
    t := 0;
    if us != {} {
      var u :| u in us;
      t := SomeTerm(s, us - {u});
      t := Max(t, s.nodes[u].term);
    }
  }

  // ----- standing until the term is late enough -----

  ghost predicate OnlyMoved(s: State, s': State, v: NodeId) {
    forall w {:trigger s.nodes[w]} | w in s.nodes && w != v :: w in s'.nodes && s'.nodes[w] == s.nodes[w]
  }

  /** v has restarted and its timer has fired k times. */
  ghost predicate Stood(members: set<NodeId>, s: State, s': State, v: NodeId, k: nat) {
    && Stationed(members, s') && v in s.nodes && v in s'.nodes && OnlyMoved(s, s', v)
    && s'.nodes[v].role != Leader && s'.nodes[v].term == s.nodes[v].term + k
    && s'.nodes[v].log == s.nodes[v].log && s'.nodes[v].commit == 0
  }

  lemma StoodOnce(r: Repairs, members: set<NodeId>, s: State, s1: State, v: NodeId, k: nat)
    requires v in members && |members| >= 2 && Stood(members, s, s1, v, k)
    ensures Stood(members, s, Step(r, s1, Timeout(v)), v, k + 1)
  {
    StepStationed(r, members, s1, Timeout(v));
    PeersSize(members, s1.nodes[v]);
  }

  lemma {:induction false} Stands(r: Repairs, members: set<NodeId>, evs: seq<Event>, v: NodeId, k: nat)
    returns (more: seq<Event>)
    requires v in members && |members| >= 2
    ensures |more| == k + 1 && Stood(members, Run(r, members, evs), Run(r, members, evs + more), v, k)
  {
    if k == 0 {
      more := [Crash(v)];
      RunStationed(r, members, evs);
      RunStationed(r, members, evs + more);
      RunExtended(r, members, evs, Crash(v));
    } else {
      var m := Stands(r, members, evs, v, k - 1);
      more := m + [Timeout(v)];
      StoodOnce(r, members, Run(r, members, evs), Run(r, members, evs + m), v, k - 1);
      RunExtended(r, members, evs + m, Timeout(v));
      Joined(evs, m, [Timeout(v)]);
    }
  }

  // ----- the vote -----

  function Ballot(n: NodeState, u: NodeId): Envelope {
    Envelope(n.id, u, RequestVote(n.term, n.id, |n.log|, LastTerm(n.log)))
  }

  function Vote(n: NodeState, u: NodeId): Envelope {
    Envelope(u, n.id, RequestVoteResponse(n.term, true, u))
  }

  /** v stands in its term and has asked everyone else. */
  ghost predicate Asking(members: set<NodeId>, s: State, v: NodeId) {
    && Stationed(members, s) && v in s.nodes && s.nodes[v].role == Candidate && s.nodes[v].votes == [v]
    && forall u | u in members && u != v :: Ballot(s.nodes[v], u) in s.network
  }

  ghost predicate VotedFor(n: NodeState, us: set<NodeId>) {
    Distinct(n.votes) && forall u | u in us :: u in n.votes
  }

  ghost predicate TooFew(members: set<NodeId>, n: NodeState) {
    2 * |set w | w in n.votes| <= |members|
  }

  /** n leads, or is a candidate with the votes of us and its own, and those too few. */
  ghost predicate Backed(members: set<NodeId>, n: NodeState, us: set<NodeId>) {
    n.role == Leader ||
    (n.role == Candidate && VotedFor(n, us) && n.id in n.votes && (us == {} || TooFew(members, n)))
  }

  ghost predicate SameBut(s: State, s': State, v: NodeId, us: set<NodeId>) {
    forall w {:trigger s.nodes[w]} | w in s.nodes && w != v && w !in us :: w in s'.nodes && s'.nodes[w] == s.nodes[w]
  }

  ghost predicate SameLog(n: NodeState, n': NodeState) {
    n'.term == n.term && n'.log == n.log && n'.commit == n.commit
  }

  /** Since s, where v stood, those of us have been asked and have answered. */
  ghost predicate Polled(members: set<NodeId>, s: State, s': State, v: NodeId, us: set<NodeId>) {
    && Stationed(members, s') && v in s.nodes && v in s'.nodes && s.network <= s'.network
    && SameLog(s.nodes[v], s'.nodes[v]) && Backed(members, s'.nodes[v], us)
    && SameBut(s, s', v, us) && TermsUpTo(s', us, s.nodes[v].term)
  }

  /** u has not been in the term of v and is not ahead of it. */
  ghost predicate Willing(s: State, v: NodeId, u: NodeId) {
    v in s.nodes && u in s.nodes && s.nodes[u].term < s.nodes[v].term && Ahead(s.nodes[v], s.nodes[u])
  }

  lemma BallotArrives(r: Repairs, members: set<NodeId>, s: State, v: NodeId, u: NodeId)
    requires Stationed(members, s) && v in members && u in members && u != v
    requires Willing(s, v, u) && Ballot(s.nodes[v], u) in s.network
    ensures var s' := Step(r, s, Deliver(Ballot(s.nodes[v], u)));
            && Stationed(members, s') && s.network <= s'.network && OnlyMoved(s, s', u)
            && u in s'.nodes && s'.nodes[u].term == s.nodes[v].term
            && v in s'.nodes && s'.nodes[v] == s.nodes[v] && Vote(s.nodes[v], u) in s'.network
  {
    var e := Ballot(s.nodes[v], u);
    StepStationed(r, members, s, Deliver(e));
    VoteAnswered(s.nodes[u], v, e.message);
    TermTaken(r, s.nodes[u], e);
  }

  lemma BackedMore(members: set<NodeId>, n: NodeState, n': NodeState, u: NodeId, us: set<NodeId>)
    requires n'.id == n.id && VotedFor(n, us) && n.id in n.votes && Distinct(n'.votes)
    requires forall w :: w in n'.votes <==> w in (set x | x in n.votes) + {u}
    requires n'.role == Leader || n'.role == Candidate
    requires n'.role != Leader ==> 2 * |(set x | x in n.votes) + {u}| <= |members|
    ensures Backed(members, n', us + {u})
  {
    assert (set w | w in n'.votes) == (set x | x in n.votes) + {u};
  }

  lemma VoteHeard(r: Repairs, members: set<NodeId>, n: NodeState, u: NodeId, us: set<NodeId>)
    requires n.id in members && n.peers == members - {n.id} && u in n.peers && Backed(members, n, us)
    ensures var n' := OnVoteResponse(r, n, u, Vote(n, u).message).node;
            SameLog(n, n') && Backed(members, n', us + {u})
  {
    if n.role == Candidate {
      VoteTaken(r, members, n, u, Vote(n, u).message);
      BackedMore(members, n, OnVoteResponse(r, n, u, Vote(n, u).message).node, u, us);
    }
  }

  lemma VoteArrives(r: Repairs, members: set<NodeId>, s: State, v: NodeId, u: NodeId, us: set<NodeId>)
    requires Stationed(members, s) && v in members && u in members && u != v
    requires Vote(s.nodes[v], u) in s.network && Backed(members, s.nodes[v], us)
    ensures var s' := Step(r, s, Deliver(Vote(s.nodes[v], u)));
            && Stationed(members, s') && s.network <= s'.network && OnlyMoved(s, s', v)
            && v in s'.nodes && SameLog(s.nodes[v], s'.nodes[v]) && Backed(members, s'.nodes[v], us + {u})
  {
    StepStationed(r, members, s, Deliver(Vote(s.nodes[v], u)));
    VoteHeard(r, members, s.nodes[v], u, us);
  }

  lemma PolledOn(members: set<NodeId>, s: State, s1: State, s2: State, s3: State, v: NodeId, us: set<NodeId>, u: NodeId)
    requires Polled(members, s, s1, v, us) && u != v && v !in us && Stationed(members, s3) && u in members
    requires s1.network <= s2.network && OnlyMoved(s1, s2, u) && v in s2.nodes && s2.nodes[v] == s1.nodes[v]
    requires u in s2.nodes && s2.nodes[u].term == s.nodes[v].term
    requires s2.network <= s3.network && OnlyMoved(s2, s3, v) && v in s3.nodes
    requires SameLog(s2.nodes[v], s3.nodes[v]) && Backed(members, s3.nodes[v], us + {u})
    ensures Polled(members, s, s3, v, us + {u})
  {
    forall w | w in s.nodes && w != v && w !in us + {u} ensures w in s3.nodes && s3.nodes[w] == s.nodes[w] {
      assert s1.nodes[w] == s.nodes[w] && s2.nodes[w] == s1.nodes[w];
    }
    forall w | w in us + {u} ensures w in s3.nodes && s3.nodes[w].term <= s.nodes[v].term {
      if w != u { assert s2.nodes[w] == s1.nodes[w]; }
      assert s3.nodes[w] == s2.nodes[w];
    }
  }

  lemma PollsOne(r: Repairs, members: set<NodeId>, s: State, s1: State, v: NodeId, us: set<NodeId>, u: NodeId)
    requires v in members && u in members && u != v && u !in us && v !in us
    requires Asking(members, s, v) && Polled(members, s, s1, v, us) && Willing(s, v, u)
    ensures Polled(members, s,
                   Step(r, Step(r, s1, Deliver(Ballot(s.nodes[v], u))), Deliver(Vote(s.nodes[v], u))), v, us + {u})
  {
    assert s1.nodes[u] == s.nodes[u] && s1.nodes[v].id == s.nodes[v].id;
    var s2 := Step(r, s1, Deliver(Ballot(s.nodes[v], u)));
    BallotArrives(r, members, s1, v, u);
    VoteArrives(r, members, s2, v, u, us);
    PolledOn(members, s, s1, s2, Step(r, s2, Deliver(Vote(s.nodes[v], u))), v, us, u);
  }

  ghost predicate AllWilling(s: State, v: NodeId, us: set<NodeId>) {
    forall u | u in us :: Willing(s, v, u)
  }

  lemma RunTwo(r: Repairs, members: set<NodeId>, evs: seq<Event>, m: seq<Event>, e1: Event, e2: Event)
    ensures Run(r, members, evs + (m + [e1] + [e2])) == Step(r, Step(r, Run(r, members, evs + m), e1), e2)
  {
    Joined(evs, m + [e1], [e2]);
    Joined(evs, m, [e1]);
    RunExtended(r, members, evs + m, e1);
    RunExtended(r, members, evs + m + [e1], e2);
  }

  lemma PollsNobody(members: set<NodeId>, s: State, v: NodeId)
    requires Asking(members, s, v)
    ensures Polled(members, s, s, v, {})
  {
  }

  lemma FewerWilling(s: State, v: NodeId, us: set<NodeId>, u: NodeId)
    requires AllWilling(s, v, us)
    ensures AllWilling(s, v, us - {u})
  {
  }

  lemma PollsNext(r: Repairs, members: set<NodeId>, evs: seq<Event>, m: seq<Event>, v: NodeId, us: set<NodeId>,
                  u: NodeId) returns (more: seq<Event>)
    requires v in members && us <= members - {v} && u in us
    requires Asking(members, Run(r, members, evs), v) && Willing(Run(r, members, evs), v, u)
    requires Polled(members, Run(r, members, evs), Run(r, members, evs + m), v, us - {u})
    ensures |more| == |m| + 2 && Polled(members, Run(r, members, evs), Run(r, members, evs + more), v, us)
  {
    var s := Run(r, members, evs);
    PollsOne(r, members, s, Run(r, members, evs + m), v, us - {u}, u);
    more := m + [Deliver(Ballot(s.nodes[v], u))] + [Deliver(Vote(s.nodes[v], u))];
    RunTwo(r, members, evs, m, Deliver(Ballot(s.nodes[v], u)), Deliver(Vote(s.nodes[v], u)));
    assert us - {u} + {u} == us;
  }

  lemma {:induction false} PollsAll(r: Repairs, members: set<NodeId>, evs: seq<Event>, v: NodeId, us: set<NodeId>)
    returns (more: seq<Event>)
    requires v in members && us <= members - {v}
    requires Asking(members, Run(r, members, evs), v) && AllWilling(Run(r, members, evs), v, us)
    ensures |more| == 2 * |us| && Polled(members, Run(r, members, evs), Run(r, members, evs + more), v, us)
    decreases us
  {
    if us == {} {
      more := [];
      NothingMore(evs);
      PollsNobody(members, Run(r, members, evs), v);
    } else {
      var u :| u in us;
      FewerWilling(Run(r, members, evs), v, us, u);
      var m := PollsAll(r, members, evs, v, us - {u});
      more := PollsNext(r, members, evs, m, v, us, u);
    }
  }

  lemma MajorityWins(members: set<NodeId>, s: State, s': State, v: NodeId, us: set<NodeId>)
    requires v in members && us <= members - {v} && us != {} && 2 * (|us| + 1) > |members|
    requires Polled(members, s, s', v, us)
    ensures s'.nodes[v].role == Leader
  {
    if s'.nodes[v].role != Leader {
      SubsetSize(us + {v}, set w | w in s'.nodes[v].votes);
      assert false;
    }
  }

  lemma TimeoutAsks(r: Repairs, members: set<NodeId>, s: State, v: NodeId)
    requires Stationed(members, s) && v in members && |members| >= 2 && s.nodes[v].role != Leader
    ensures var s' := Step(r, s, Timeout(v));
            && Asking(members, s', v) && OnlyMoved(s, s', v) && s'.nodes[v].term == s.nodes[v].term + 1
            && s'.nodes[v].log == s.nodes[v].log && s'.nodes[v].commit == s.nodes[v].commit
  {
    StepStationed(r, members, s, Timeout(v));
    PeersSize(members, s.nodes[v]);
    var s' := Step(r, s, Timeout(v));
    forall u | u in members && u != v ensures Ballot(s'.nodes[v], u) in s'.network {
      CandidateAsks(r, s.nodes[v], u);
    }
  }

  /** v has been elected since s, with the log it had, and us are in no later term. */
  ghost predicate Elected(s: State, s': State, v: NodeId, us: set<NodeId>) {
    && v in s.nodes && v in s'.nodes && s'.nodes[v].role == Leader
    && s'.nodes[v].log == s.nodes[v].log && s'.nodes[v].term > s.nodes[v].term
    && TermsUpTo(s', us, s'.nodes[v].term)
  }

  ghost predicate Electable(s: State, v: NodeId, us: set<NodeId>) {
    && v in s.nodes && s.nodes[v].role != Leader && AheadOfAll(s, v, us) && TermsUpTo(s, us, s.nodes[v].term)
  }

  /** A node that does not lead and is behind no one of a majority, in term or log,
      is elected when its timer fires and they are asked and answer. */
  lemma MajorityElects(r: Repairs, members: set<NodeId>, evs: seq<Event>, v: NodeId, us: set<NodeId>)
    returns (more: seq<Event>)
    requires v in members && us <= members - {v} && |members| >= 2 && 2 * (|us| + 1) > |members|
    requires Electable(Run(r, members, evs), v, us)
    ensures |more| == 1 + 2 * |us|
    ensures var s, s' := Run(r, members, evs), Run(r, members, evs + more);
            && Elected(s, s', v, us)
            && s'.nodes[v].term == s.nodes[v].term + 1 && s'.nodes[v].commit == s.nodes[v].commit
  {
    var s := Run(r, members, evs);
    RunStationed(r, members, evs);
    RunExtended(r, members, evs, Timeout(v));
    TimeoutAsks(r, members, s, v);
    var s1 := Run(r, members, evs + [Timeout(v)]);
    forall u | u in us ensures Willing(s1, v, u) { assert s1.nodes[u] == s.nodes[u]; }
    var m := PollsAll(r, members, evs + [Timeout(v)], v, us);
    more := [Timeout(v)] + m;
    Joined(evs, [Timeout(v)], m);
    MajorityWins(members, s1, Run(r, members, evs + more), v, us);
  }

  /** From wherever a run has come to it goes on to where a node is elected by all,
      in a later term than any so far, with a log no older than any so far. */
  lemma SomeoneElected(r: Repairs, members: set<NodeId>, evs: seq<Event>) returns (more: seq<Event>, v: NodeId)
    requires |members| >= 2
    ensures v in members && AheadOfAll(Run(r, members, evs), v, members)
    ensures var s, s' := Run(r, members, evs), Run(r, members, evs + more);
            && Elected(s, s', v, members - {v}) && s'.nodes[v].commit == 0
            && forall w | w in s.nodes :: s.nodes[w].term < s'.nodes[v].term
  {
    var s := Run(r, members, evs);
    RunStationed(r, members, evs);
    v := SomeAhead(s, members);
    var t := SomeTerm(s, members);
    var m := Stands(r, members, evs, v, t);
    var s1 := Run(r, members, evs + m);
    StoodElectable(members, s, s1, v, t);
    assert |members - {v}| == |members| - 1;
    var m2 := MajorityElects(r, members, evs + m, v, members - {v});
    more := m + m2;
    Joined(evs, m, m2);
  }

  lemma StoodElectable(members: set<NodeId>, s: State, s1: State, v: NodeId, t: nat)
    requires v in members && s.nodes.Keys == members && AheadOfAll(s, v, members) && TermsUpTo(s, members, t)
    requires Stood(members, s, s1, v, t)
    ensures Electable(s1, v, members - {v})
  {
    forall u | u in members - {v}
      ensures u in s1.nodes && Ahead(s1.nodes[v], s1.nodes[u]) && s1.nodes[u].term <= s1.nodes[v].term
    {
      assert s1.nodes[u] == s.nodes[u];
    }
  }

  // ----- a way on -----

  /** The client is told of index i, where all have committed its command, appended
      since s. */
  ghost predicate Served(members: set<NodeId>, s: State, s': State, client: Client, i: nat) {
    && i >= 1 && Reply(client, Success(i)) in s'.replies
    && (forall u | u in members ::
          u in s'.nodes && i <= s'.nodes[u].commit && i <= |s'.nodes[u].log|
          && s'.nodes[u].log[i - 1].command == client.wants)
    && (forall u, w | u in members && w in s.nodes :: s'.nodes[u].log[i - 1].term > s.nodes[w].term)
  }

  lemma ProposedTo(r: Repairs, members: set<NodeId>, s: State, v: NodeId, client: Client)
    requires Stationed(members, s) && v in members && s.nodes[v].role == Leader && s.nodes[v].commit == 0
    requires TermsUpTo(s, members - {v}, s.nodes[v].term)
    ensures var s' := Step(r, s, Request(v, client));
            && Supporters(members, s', v, members - {v})
            && var n := s'.nodes[v];
               && n.term == s.nodes[v].term && n.commit < |n.log|
               && |n.log| in n.pending && n.pending[|n.log|] == client
               && n.log[|n.log| - 1] == LogEntry(|n.log|, n.term, client.wants)
  {
  }

  lemma AllServed(members: set<NodeId>, s: State, s1: State, s': State, v: NodeId, client: Client)
    requires v in members && v in s1.nodes && s1.nodes[v].log != [] && LeadsOn(s1, s', v)
    requires var n := s1.nodes[v];
             && |n.log| in n.pending && n.pending[|n.log|] == client
             && n.log[|n.log| - 1].command == client.wants && n.log[|n.log| - 1].term == n.term
             && |n.log| <= s'.nodes[v].commit && AllCommitted(s', members - {v}, n.log)
             && AllTold(s', n.pending, |n.log|)
             && forall w | w in s.nodes :: s.nodes[w].term < n.term
    ensures Served(members, s, s', client, |s1.nodes[v].log|)
  {
    var log := s1.nodes[v].log;
    assert Reply(s1.nodes[v].pending[|log|], Success(|log|)) in s'.replies;
    forall u | u in members
      ensures u in s'.nodes && |log| <= s'.nodes[u].commit && log <= s'.nodes[u].log
    {
      if u != v { assert u in members - {v} && |log| <= s'.nodes[u].commit; }
    }
    assert forall u | u in members :: log[|log| - 1] == s'.nodes[u].log[|log| - 1];
  }

  /** A new leader with all behind it serves whoever asks. */
  lemma LeaderServes(r: Repairs, members: set<NodeId>, s: State, evs: seq<Event>, v: NodeId, client: Client)
    returns (more: seq<Event>, i: nat)
    requires CountsVotes(r, members) && |members| >= 2 && v in members && Stationed(members, Run(r, members, evs))
    requires var n := Run(r, members, evs).nodes[v];
             && n.role == Leader && n.commit == 0 && TermsUpTo(Run(r, members, evs), members - {v}, n.term)
             && forall w | w in s.nodes :: s.nodes[w].term < n.term
    ensures Served(members, s, Run(r, members, evs + [Request(v, client)] + more), client, i)
  {
    var asked := evs + [Request(v, client)];
    RunExtended(r, members, evs, Request(v, client));
    ProposedTo(r, members, Run(r, members, evs), v, client);
    assert |members - {v}| == |members| - 1;
    more := EverythingCommits(r, members, asked, v, members - {v});
    AllServed(members, s, Run(r, members, asked), Run(r, members, asked + more), v, client);
    i := |Run(r, members, asked).nodes[v].log|;
  }

  /** From wherever a run has come to it goes on to where any client you like has
      been told of an index at which every node has committed its command. */
  lemma AlwaysAWay(r: Repairs, members: set<NodeId>, evs: seq<Event>, client: Client)
    returns (more: seq<Event>, i: nat)
    requires CountsVotes(r, members) && |members| >= 2
    ensures Served(members, Run(r, members, evs), Run(r, members, evs + more), client, i)
  {
    var m, v := SomeoneElected(r, members, evs);
    RunStationed(r, members, evs + m);
    var m2;
    m2, i := LeaderServes(r, members, Run(r, members, evs), evs + m, v, client);
    more := m + ([Request(v, client)] + m2);
    Joined(evs + m, [Request(v, client)], m2);
    Joined(evs, m, [Request(v, client)] + m2);
  }

  /** After whatever happened, something can happen that serves the client. */
  ghost predicate WayOn(r: Repairs, members: set<NodeId>, evs: seq<Event>, client: Client) {
    exists more: seq<Event>, i: nat :: Served(members, Run(r, members, evs), Run(r, members, evs + more), client, i)
  }

  /** Where votes count, a cluster of two or more can always go on to serve any
      client, and a smaller one never can. */
  lemma WayOnExactly(r: Repairs, members: set<NodeId>, evs: seq<Event>, client: Client)
    requires CountsVotes(r, members) && members != {}
    ensures WayOn(r, members, evs, client) <==> |members| >= 2
  {
    if |members| >= 2 {
      var more, i := AlwaysAWay(r, members, evs, client);
    } else {
      var v :| v in members;
      SubsetSize(members - {v}, members);
      assert members == {v} by { assert |members - {v}| == |members| - 1; }
      forall more: seq<Event>, i: nat
        ensures !Served(members, Run(r, members, evs), Run(r, members, evs + more), client, i)
      {
        LoneNodeNeverCommits(r, v, evs + more);
      }
    }
  }
}
