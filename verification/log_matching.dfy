/** Every event keeps the invariant on votes, elections and logs, provided
    votes are counted in their own term and only once. Nothing is assumed of
    how followers report or commit. */
module LogMatching {
  import opened RaftTypes
  import opened LogSpec
  import opened NodeSpec
  import opened Cluster
  import opened History

  /** Votes count in their own term, and no candidate's own vote tips a balance
      it should not: up to three nodes, counting it twice makes no difference. */
  predicate CountsVotes(r: Repairs, members: set<NodeId>) {
    r.voteTerm && (r.selfVote || |members| <= 3)
  }

  // ----- quorums -----

  lemma UnionSize<T>(a: set<T>, b: set<T>)
    ensures |a + b| + |a * b| == |a| + |b|
  {
  }

  lemma QuorumsMeet(members: set<NodeId>, a: set<NodeId>, b: set<NodeId>) returns (u: NodeId)
    requires Quorum(members, a) && Quorum(members, b)
    ensures u in a && u in b
  {
    if a * b == {} {
      UnionSize(a, b);
      SubsetSize(a + b, members);
      assert false;
    }
    u :| u in a * b;
  }

  lemma SubsetSize<T>(a: set<T>, b: set<T>)
    requires a <= b
    ensures |a| <= |b|
  {
    assert b == a + (b - a);
  }

  lemma {:induction false} DistinctSize(votes: seq<NodeId>)
    requires Distinct(votes)
    ensures |set u | u in votes| == |votes|
  {
    if votes != [] {
      var rest := votes[1..];
      DistinctSize(rest);
      assert (set u | u in votes) == {votes[0]} + (set u | u in rest);
      assert votes[0] !in rest;
    }
  }

  lemma PeersSize(members: set<NodeId>, n: NodeState)
    requires n.id in members && n.peers == members - {n.id}
    ensures |n.peers| + 1 == |members|
  {
  }

  // ----- putting a step together -----

  lemma Assemble(members: set<NodeId>, h: Past, h': Past, s: State, out: Outcome)
    requires Inv(members, h, s) && out.node.id in s.nodes
    requires Kept(members, h, h', s.nodes[out.node.id], out)
    ensures Inv(members, h', State(s.nodes[out.node.id := out.node], s.network + out.sent, s.replies + out.replies))
  {
    var v := out.node.id;
    forall u | u in s.nodes && u != v ensures NodeOk(members, h', s.nodes[u]) {
      NodeOkGrows(members, h, h', v, s.nodes[u]);
    }
    forall e | e in s.network ensures MessageOk(members, h', e) {
      MessageOkGrows(members, h, h', v, e);
    }
  }

  /** What every handler owes the invariant when it takes node n to out. */
  ghost predicate Kept(members: set<NodeId>, h: Past, h': Past, n: NodeState, out: Outcome) {
    && out.node.id == n.id
    && Extends(h, h', n.id)
    && PastOk(members, h')
    && NodeOk(members, h', out.node)
    && NetworkOk(members, h', out.sent)
  }

  lemma EvolveExtends(members: set<NodeId>, h: Past, n: NodeState, n': NodeState, campaign: bool)
    requires NodeOk(members, h, n) && n'.id == n.id && n'.term >= n.term
    requires campaign ==> n'.term > n.term
    requires n'.role == Leader && n'.term in h.elections
             ==> h.elections[n'.term].leader == n.id && h.elections[n'.term].log <= n'.log
    ensures Extends(h, Evolve(h, n', campaign), n.id)
  {
  }

  lemma CandidaciesGrow(members: set<NodeId>, h: Past, h': Past, v: NodeId)
    requires forall k | k in h.candidacies :: CandidacyOk(members, h, k)
    requires Extends(h, h', v)
    ensures forall k | k in h.candidacies :: CandidacyOk(members, h', k)
  {
    forall k | k in h.candidacies ensures CandidacyOk(members, h', k) {
      assert CandidacyOk(members, h, k);
      LogOkGrows(h, h', v, h.candidacies[k]);
    }
  }

  lemma BallotsGrow(members: set<NodeId>, h: Past, h': Past, v: NodeId)
    requires forall k | k in h.ballots :: BallotOk(members, h, k)
    requires Extends(h, h', v)
    ensures forall k | k in h.ballots :: BallotOk(members, h', k)
  {
    forall k | k in h.ballots ensures BallotOk(members, h', k) {
      assert BallotOk(members, h, k);
      LogOkGrows(h, h', v, h.ballots[k].log);
    }
  }

  lemma ElectionGrows(members: set<NodeId>, h: Past, h': Past, v: NodeId, t: nat)
    requires t in h.elections && ElectionOk(members, h, t)
    requires Extends(h, h', v) && h'.elections[t] == h.elections[t]
    ensures ElectionOk(members, h', t)
  {
    LogOkGrows(h, h', v, h.elections[t].log);
  }

  lemma PastOkAfter(members: set<NodeId>, h: Past, n: NodeState, campaign: bool)
    requires var h' := Evolve(h, n, campaign);
             && PastOk(members, h) && Extends(h, h', n.id)
             && (campaign ==> Slot(n.term, n.id) !in h.candidacies && CandidacyOk(members, h', Slot(n.term, n.id)))
             && (n.votedFor.Some? && Slot(n.term, n.id) !in h.ballots ==> BallotOk(members, h', Slot(n.term, n.id)))
             && (n.role == Leader ==> ElectionOk(members, h', n.term))
    ensures PastOk(members, Evolve(h, n, campaign))
  {
    var h' := Evolve(h, n, campaign);
    CandidaciesGrow(members, h, h', n.id);
    BallotsGrow(members, h, h', n.id);
    forall t | t in h'.elections ensures ElectionOk(members, h', t) {
      if n.role != Leader || t != n.term { ElectionGrows(members, h, h', n.id, t); }
    }
  }

  // ----- messages leaders send -----

  lemma HeartbeatsOk(members: set<NodeId>, h: Past, n: NodeState)
    requires NodeOk(members, h, n)
    ensures NetworkOk(members, h, Heartbeats(n))
  {
    forall e | e in Heartbeats(n) ensures MessageOk(members, h, e) {
      var prev := NextFor(n, e.to) - 1;
      assert e == Envelope(n.id, e.to, AppendMessage(n, e.to));
      assert SliceOf(e.message, n.log);
    }
  }

  // ----- elections -----

  lemma TimeoutKeeps(r: Repairs, members: set<NodeId>, h: Past, n: NodeState)
    requires PastOk(members, h) && NodeOk(members, h, n) && n.peers != {}
    ensures var out := StartElection(r, n);
            Kept(members, h, Evolve(h, out.node, true), n, out)
  {
    var out := StartElection(r, n);
    var h' := Evolve(h, out.node, true);
    EvolveExtends(members, h, n, out.node, true);
    LogOkGrows(h, h', n.id, n.log);
    assert Slot(n.term + 1, n.id) !in h.ballots;
    PastOkAfter(members, h, out.node, true);
  }

  lemma LoneNodeLeadsNoLaterTerm(members: set<NodeId>, h: Past, n: NodeState, t: nat)
    requires PastOk(members, h) && NodeOk(members, h, n) && n.peers == {} && t > n.term
    ensures t !in h.elections
  {
    assert members <= {n.id};
    assert t in h.elections ==> ElectionOk(members, h, t);
  }

  lemma LoneTimeoutKeeps(r: Repairs, members: set<NodeId>, h: Past, n: NodeState)
    requires PastOk(members, h) && NodeOk(members, h, n) && n.peers == {}
    ensures var out := StartElection(r, n);
            Kept(members, h, Evolve(h, out.node, true), n, out)
  {
    var n' := StartElection(r, n).node;
    var h' := Evolve(h, n', true);
    LoneNodeLeadsNoLaterTerm(members, h, n, n'.term);
    EvolveExtends(members, h, n, n', true);
    LogOkGrows(h, h', n.id, n.log);
    assert members == {n.id};
    assert Slot(n'.term, n.id) !in h.ballots;
    assert h'.elections[n'.term] == Election(n.id, {n.id}, n.log, n.log);
    assert ElectionOk(members, h', n'.term);
    PastOkAfter(members, h, n', true);
    HeartbeatsOk(members, h', n');
  }

  /** A first vote in a term opens the node's ballot for that term. */
  lemma FirstVoteKeeps(members: set<NodeId>, h: Past, n: NodeState, e: Envelope)
    requires PastOk(members, h) && NodeOk(members, h, n) && MessageOk(members, h, e)
    requires e.message.RequestVote? && e.message.term == n.term
    requires n.votedFor == None && Grants(n, e.message)
    ensures var n' := n.(votedFor := Some(e.from));
            var h' := Evolve(h, n', false);
            && Extends(h, h', n.id) && PastOk(members, h') && NodeOk(members, h', n')
            && Slot(n.term, n.id) in h'.ballots && h'.ballots[Slot(n.term, n.id)].candidate == e.from
  {
    var n' := n.(votedFor := Some(e.from));
    var h' := Evolve(h, n', false);
    var slot := Slot(n.term, n.id);
    assert slot !in h.ballots;
    assert h'.elections == h.elections by {
      if n.role == Leader { assert h.elections[n.term := h.elections[n.term].(log := n.log)] == h.elections; }
    }
    assert h'.ballots == h.ballots[slot := Ballot(e.from, n.log)];
    assert Extends(h, h', n.id);
    LogOkGrows(h, h', n.id, n.log);
    assert BallotOk(members, h', slot);
    CandidaciesGrow(members, h, h', n.id);
    BallotsGrow(members, h, h', n.id);
    forall t | t in h'.elections ensures ElectionOk(members, h', t) {
      ElectionGrows(members, h, h', n.id, t);
    }
  }

  lemma GrantKeeps(members: set<NodeId>, h: Past, n: NodeState, e: Envelope)
    requires PastOk(members, h) && NodeOk(members, h, n) && MessageOk(members, h, e)
    requires e.message.RequestVote? && e.to == n.id && e.message.term == n.term && Grants(n, e.message)
    ensures var n' := n.(votedFor := Some(e.from));
            Kept(members, h, Evolve(h, n', false), n, Outcome(n', VoteReply(n, e.from, true), {}))
  {
    if n.votedFor == None {
      FirstVoteKeeps(members, h, n, e);
    } else {
      assert n.(votedFor := Some(e.from)) == n;
      QuietKeeps(members, h, n, n);
    }
  }

  lemma RequestVoteKeeps(members: set<NodeId>, h: Past, n: NodeState, e: Envelope)
    requires PastOk(members, h) && NodeOk(members, h, n) && MessageOk(members, h, e)
    requires e.message.RequestVote? && e.to == n.id
    ensures var out := OnRequestVote(n, e.from, e.message);
            Kept(members, h, Evolve(h, out.node, false), n, out)
  {
    var n1 := ObserveTerm(n, e.message.term);
    ObserveTermOk(members, h, n, e.message.term);
    if e.message.term >= n.term && Grants(n1, e.message) {
      GrantKeeps(members, h, n1, e);
    } else {
      QuietKeeps(members, h, n, OnRequestVote(n, e.from, e.message).node);
    }
  }

  /** A candidate that reaches a majority is the first in its term to do so. */
  lemma WinnerIsFirst(members: set<NodeId>, h: Past, n: NodeState, voters: set<NodeId>)
    requires PastOk(members, h) && CandidateOk(members, h, n)
    requires Quorum(members, voters)
    requires forall u | u in voters :: Slot(n.term, u) in h.ballots && h.ballots[Slot(n.term, u)].candidate == n.id
    ensures n.term !in h.elections
  {
    if n.term in h.elections {
      assert ElectionOk(members, h, n.term);
      var u := QuorumsMeet(members, voters, h.elections[n.term].voters);
      assert false;
    }
  }

  lemma WinnerElected(members: set<NodeId>, h: Past, h': Past, n: NodeState, voters: set<NodeId>)
    requires PastOk(members, h) && NodeOk(members, h, n) && n.role == Candidate
    requires n.term !in h.elections && Quorum(members, voters)
    requires forall u | u in voters :: u in n.votes
    requires Extends(h, h', n.id)
    requires h'.elections == h.elections[n.term := Election(n.id, voters, n.log, n.log)]
    ensures ElectionOk(members, h', n.term)
  {
    LogOkGrows(h, h', n.id, n.log);
    assert CandidacyOk(members, h, Slot(n.term, n.id));
  }

  lemma WinKeeps(r: Repairs, members: set<NodeId>, h: Past, n: NodeState)
    requires CountsVotes(r, members)
    requires PastOk(members, h) && NodeOk(members, h, n)
    requires n.role == Candidate && Wins(r, n) && |n.votes| >= 2
    ensures var out := BecomeLeader(r, n);
            Kept(members, h, Evolve(h, out.node, false), n, out)
  {
    var n' := BecomeLeader(r, n).node;
    var h' := Evolve(h, n', false);
    var voters := set u | u in n.votes;
    DistinctSize(n.votes);
    PeersSize(members, n);
    WinnerIsFirst(members, h, n, voters);
    assert h'.ballots == h.ballots;
    EvolveExtends(members, h, n, n', false);
    WinnerElected(members, h, h', n, voters);
    PastOkAfter(members, h, n', false);
    LogOkGrows(h, h', n.id, n.log);
    assert NodeOk(members, h', n');
    HeartbeatsOk(members, h', n');
  }

  /** A step that leaves the invariant intact and neither votes, wins nor
      proposes leaves no trace in the history. */
  lemma QuietKeeps(members: set<NodeId>, h: Past, n: NodeState, n': NodeState)
    requires PastOk(members, h) && NodeOk(members, h, n') && n'.id == n.id
    ensures Evolve(h, n', false) == h && Extends(h, h, n.id)
  {
  }

  /** The invariant looks at seven fields of a node only. */
  lemma SameVoteAndLog(members: set<NodeId>, h: Past, n: NodeState, n': NodeState)
    requires NodeOk(members, h, n)
    requires n'.id == n.id && n'.peers == n.peers && n'.term == n.term && n'.votedFor == n.votedFor
    requires n'.log == n.log && n'.role == n.role && n'.votes == n.votes
    ensures NodeOk(members, h, n')
  {
  }

  lemma ObserveTermOk(members: set<NodeId>, h: Past, n: NodeState, term: nat)
    requires NodeOk(members, h, n)
    ensures NodeOk(members, h, ObserveTerm(n, term))
  {
  }

  /** A vote of the candidate's term joins those already counted. */
  lemma VoteCounted(members: set<NodeId>, h: Past, n: NodeState, e: Envelope)
    requires NodeOk(members, h, n) && MessageOk(members, h, e) && n.role == Candidate
    requires e.message.RequestVoteResponse? && e.to == n.id
    requires e.message.voteGranted && e.message.term == n.term
    ensures var n1 := n.(votes := AddVote(n.votes, e.from)); NodeOk(members, h, n1) && |n1.votes| >= 2
  {
  }

  lemma VoteResponseKeeps(r: Repairs, members: set<NodeId>, h: Past, n: NodeState, e: Envelope)
    requires CountsVotes(r, members)
    requires PastOk(members, h) && NodeOk(members, h, n) && MessageOk(members, h, e)
    requires e.message.RequestVoteResponse? && e.to == n.id
    ensures var out := OnVoteResponse(r, n, e.from, e.message);
            Kept(members, h, Evolve(h, out.node, false), n, out)
  {
    var out := OnVoteResponse(r, n, e.from, e.message);
    if n.role == Candidate && e.message.voteGranted && e.message.term == n.term {
      var n1 := n.(votes := AddVote(n.votes, e.from));
      VoteCounted(members, h, n, e);
      if Wins(r, n1) {
        WinKeeps(r, members, h, n1);
      } else {
        QuietKeeps(members, h, n, n1);
      }
    } else {
      QuietKeeps(members, h, n, out.node);
    }
  }

  // ----- replication -----

  /** A message that passes the consistency check carries a slice of the
      sender's log, and the receiver has all of it that comes before. */
  lemma AcceptedSlice(members: set<NodeId>, h: Past, n: NodeState, e: Envelope)
    requires PastOk(members, h) && NodeOk(members, h, n) && MessageOk(members, h, e)
    requires e.message.AppendEntries? && Accepts(n, e.message)
    ensures var m := e.message;
            var whole := h.elections[m.term].log;
            var covered := m.prevLogIndex + |m.entries|;
            && LogOk(h, whole)
            && m.prevLogIndex <= |n.log| && covered <= |whole|
            && m.entries == whole[m.prevLogIndex..covered]
            && n.log[..m.prevLogIndex] == whole[..m.prevLogIndex]
  {
    var m := e.message;
    assert ElectionOk(members, h, m.term);
    if m.prevLogIndex >= 1 {
      assert EntryOk(h, n.log, m.prevLogIndex - 1);
      EqualTermsEqualPrefixes(h, n.log, h.elections[m.term].log, m.prevLogIndex - 1);
    }
  }

  lemma SliceMerges(h: Past, log: Log, whole: Log, prev: nat, covered: nat)
    requires LogOk(h, log) && LogOk(h, whole)
    requires prev <= |log| && prev <= covered <= |whole| && log[..prev] == whole[..prev]
    ensures var merged := Merge(log, prev, whole[prev..covered]);
            && covered <= |merged| && merged[..covered] == whole[..covered]
            && (merged == log || merged == whole[..covered])
  {
    if prev < covered <= |log| && log[covered - 1].term == whole[covered - 1].term {
      EqualTermsEqualPrefixes(h, log, whole, covered - 1);
    }
    MergeShape(log, whole, prev, covered - prev);
  }

  /** What a follower holds after accepting a message: its own log or a prefix
      of the sender's, and the sender's up to the last index covered. */
  lemma AcceptedMerge(members: set<NodeId>, h: Past, n: NodeState, e: Envelope)
    requires PastOk(members, h) && NodeOk(members, h, n) && MessageOk(members, h, e)
    requires e.message.AppendEntries? && Accepts(n, e.message)
    ensures var m := e.message;
            var whole := h.elections[m.term].log;
            var covered := m.prevLogIndex + |m.entries|;
            && m.prevLogIndex <= |n.log| && covered <= |whole|
            && m.entries == whole[m.prevLogIndex..covered]
            && n.log[..m.prevLogIndex] == whole[..m.prevLogIndex]
            && var merged := Merge(n.log, m.prevLogIndex, m.entries);
            && covered <= |merged| && merged[..covered] == whole[..covered]
            && (merged == n.log || merged == whole[..covered])
  {
    var m := e.message;
    AcceptedSlice(members, h, n, e);
    SliceMerges(h, n.log, h.elections[m.term].log, m.prevLogIndex, m.prevLogIndex + |m.entries|);
  }

  lemma MergedOk(members: set<NodeId>, h: Past, n: NodeState, e: Envelope)
    requires PastOk(members, h) && NodeOk(members, h, n) && MessageOk(members, h, e)
    requires e.message.AppendEntries? && Accepts(n, e.message)
    ensures e.message.prevLogIndex <= |n.log|
    ensures var merged := Merge(n.log, e.message.prevLogIndex, e.message.entries);
            LogOk(h, merged) && LastTerm(merged) <= e.message.term
  {
    AcceptedMerge(members, h, n, e);
    var t, covered := e.message.term, e.message.prevLogIndex + |e.message.entries|;
    assert ElectionOk(members, h, t);
    LeaderPrefixOk(members, h, t, covered);
  }

  lemma LeaderPrefixOk(members: set<NodeId>, h: Past, t: nat, k: nat)
    requires t in h.elections && ElectionOk(members, h, t) && k <= |h.elections[t].log|
    ensures LogOk(h, h.elections[t].log[..k]) && LastTerm(h.elections[t].log[..k]) <= t
  {
    PrefixOk(h, h.elections[t].log, k);
    if k > 0 { TermsSorted(h, h.elections[t].log, k - 1, |h.elections[t].log| - 1); }
  }

  lemma AcceptedOk(members: set<NodeId>, h: Past, n: NodeState, e: Envelope)
    requires PastOk(members, h) && NodeOk(members, h, n) && MessageOk(members, h, e)
    requires e.message.AppendEntries? && e.to == n.id && Accepts(n, e.message)
    ensures e.message.prevLogIndex <= |n.log|
    ensures var n1 := ObserveTerm(n, e.message.term);
            NodeOk(members, h, n1.(log := Merge(n.log, e.message.prevLogIndex, e.message.entries)))
  {
    ObserveTermOk(members, h, n, e.message.term);
    MergedOk(members, h, n, e);
  }

  lemma AppendEntriesKeeps(r: Repairs, members: set<NodeId>, h: Past, n: NodeState, e: Envelope)
    requires PastOk(members, h) && NodeOk(members, h, n) && MessageOk(members, h, e)
    requires e.message.AppendEntries? && e.to == n.id && n.id in members
    ensures var out := OnAppendEntries(r, n, e.from, e.message);
            Kept(members, h, Evolve(h, out.node, false), n, out)
  {
    var m := e.message;
    var n' := OnAppendEntries(r, n, e.from, m).node;
    if m.term >= n.term {
      var n1 := ObserveTerm(n, m.term);
      ObserveTermOk(members, h, n, m.term);
      if Accepts(n, m) {
        AcceptedOk(members, h, n, e);
        SameVoteAndLog(members, h, n1.(log := Merge(n.log, m.prevLogIndex, m.entries)), n');
      } else {
        SameVoteAndLog(members, h, n1, n');
      }
    }
    QuietKeeps(members, h, n, n');
  }

  lemma AppendResponseKeeps(r: Repairs, members: set<NodeId>, h: Past, n: NodeState, e: Envelope)
    requires PastOk(members, h) && NodeOk(members, h, n)
    requires e.message.AppendEntriesResponse? && e.to == n.id
    ensures var out := OnAppendResponse(r, n, e.from, e.message);
            Kept(members, h, Evolve(h, out.node, false), n, out)
  {
    var n' := OnAppendResponse(r, n, e.from, e.message).node;
    if n.role == Leader && e.message.term > n.term {
      ObserveTermOk(members, h, n, e.message.term);
    } else {
      SameVoteAndLog(members, h, n, n');
    }
    QuietKeeps(members, h, n, n');
  }

  /** A proposal extends the leader's log and the log of its election alike. */
  lemma ProposedLogOk(members: set<NodeId>, h: Past, h': Past, n: NodeState, entry: LogEntry)
    requires PastOk(members, h) && NodeOk(members, h, n) && n.role == Leader
    requires entry.index == |n.log| + 1 && entry.term == n.term
    requires Extends(h, h', n.id)
    requires h'.elections == h.elections[n.term := h.elections[n.term].(log := n.log + [entry])]
    ensures LogOk(h', n.log + [entry]) && ElectionOk(members, h', n.term)
  {
    var log := n.log + [entry];
    assert ElectionOk(members, h, n.term);
    LogOkGrows(h, h', n.id, n.log);
    forall i: nat | i < |log| ensures EntryOk(h', log, i) {
      if i < |n.log| {
        assert EntryOk(h', n.log, i);
        assert log[..i + 1] == n.log[..i + 1];
      } else {
        assert log[..i + 1] == log;
      }
    }
  }

  lemma ProposeKeeps(members: set<NodeId>, h: Past, n: NodeState, client: Client)
    requires PastOk(members, h) && NodeOk(members, h, n) && n.role == Leader
    ensures var out := OnPropose(n, client);
            Kept(members, h, Evolve(h, out.node, false), n, out)
  {
    var n' := OnPropose(n, client).node;
    var h' := Evolve(h, n', false);
    assert h'.ballots == h.ballots;
    EvolveExtends(members, h, n, n', false);
    ProposedLogOk(members, h, h', n, LogEntry(|n.log| + 1, n.term, client.wants));
    PastOkAfter(members, h, n', false);
    assert NodeOk(members, h', n');
    HeartbeatsOk(members, h', n');
  }

  lemma RestartKeeps(members: set<NodeId>, h: Past, n: NodeState)
    requires PastOk(members, h) && NodeOk(members, h, n)
    ensures Kept(members, h, Evolve(h, Restart(n), false), n, Quiet(Restart(n)))
  {
    QuietKeeps(members, h, n, Restart(n));
  }

  lemma ReactKeeps(r: Repairs, members: set<NodeId>, h: Past, s: State, ev: Event)
    requires CountsVotes(r, members) && Inv(members, h, s) && Enabled(s, ev)
    ensures var n := s.nodes[Site(ev)];
            Kept(members, h, Remember(r, s, h, ev), n, React(r, n, ev))
  {
    var n := s.nodes[Site(ev)];
    match ev
    case Timeout(_) =>
      if n.peers == {} { LoneTimeoutKeeps(r, members, h, n); } else { TimeoutKeeps(r, members, h, n); }
    case Tick(_) =>
      QuietKeeps(members, h, n, n);
      HeartbeatsOk(members, Remember(r, s, h, ev), n);
    case Request(_, client) =>
      if n.role == Leader { ProposeKeeps(members, h, n, client); } else { QuietKeeps(members, h, n, n); }
    case Crash(_) =>
      RestartKeeps(members, h, n);
    case Deliver(e) =>
      match e.message {
        case AppendEntries(_, _, _, _, _, _) => AppendEntriesKeeps(r, members, h, n, e);
        case AppendEntriesResponse(_, _, _, _) => AppendResponseKeeps(r, members, h, n, e);
        case RequestVote(_, _, _, _) => RequestVoteKeeps(members, h, n, e);
        case RequestVoteResponse(_, _, _) => VoteResponseKeeps(r, members, h, n, e);
      }
  }

  lemma StepKeeps(r: Repairs, members: set<NodeId>, h: Past, s: State, ev: Event)
    requires CountsVotes(r, members) && Inv(members, h, s)
    ensures Inv(members, Remember(r, s, h, ev), Step(r, s, ev))
  {
    if Enabled(s, ev) {
      ReactKeeps(r, members, h, s, ev);
      Assemble(members, h, Remember(r, s, h, ev), s, React(r, s.nodes[Site(ev)], ev));
    }
  }

  lemma {:induction false} RunKeeps(r: Repairs, members: set<NodeId>, evs: seq<Event>)
    requires CountsVotes(r, members)
    ensures Inv(members, PastOf(r, members, evs), Run(r, members, evs))
  {
    if evs != [] {
      var before := evs[..|evs| - 1];
      RunKeeps(r, members, before);
      StepKeeps(r, members, PastOf(r, members, before), Run(r, members, before), evs[|evs| - 1]);
    }
  }
}
