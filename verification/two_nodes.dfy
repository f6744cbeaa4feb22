/** Two nodes need no more than votes that count: a leader has both votes, so
    every log is a prefix of one chain of leaders' logs, nothing is ever
    truncated, and whatever was once reported, committed or waited for stays
    true. None of the other repairs matters. */
module TwoNodes {
  import opened RaftTypes
  import opened LogSpec
  import opened NodeSpec
  import opened Cluster
  import opened History
  import opened LogMatching
  import opened Replication
  import opened Persistence
  import opened Quorums
  import opened Stores
  import opened Guarantees

  // ----- the chain of leaders' logs -----

  ghost predicate ChainAt(h: Past, t: nat, u: nat) {
    t < u && t in h.elections && u in h.elections ==> h.elections[t].log <= h.elections[u].base
  }

  /** A later leader starts out with all that an earlier one ever had. */
  ghost predicate Chained(h: Past) {
    forall t: nat, u: nat :: ChainAt(h, t, u)
  }

  ghost predicate LedAt(h: Past, v: NodeId, t: nat, log: Log) {
    t in h.elections && h.elections[t].leader == v ==> h.elections[t].log <= log
  }

  /** The log has all that v had as a leader of terms before one. */
  ghost predicate HasLed(h: Past, v: NodeId, before: nat, log: Log) {
    forall t: nat | t < before :: LedAt(h, v, t, log)
  }

  ghost predicate PairOk(h: Past, s: State) {
    && Chained(h)
    && (forall k {:trigger HasLed(h, k.node, k.term, h.ballots[k].log)} | k in h.ballots ::
          HasLed(h, k.node, k.term, h.ballots[k].log))
    && (forall v {:trigger HasLed(h, v, s.nodes[v].term + 1, s.nodes[v].log)} | v in s.nodes ::
          HasLed(h, v, s.nodes[v].term + 1, s.nodes[v].log))
  }

  /** Any log is a prefix of the log of any leader whose term is not behind it. */
  lemma InLeader(members: set<NodeId>, h: Past, log: Log, t: nat)
    requires PastOk(members, h) && Chained(h) && LogOk(h, log) && LastTerm(log) <= t && t in h.elections
    ensures log <= h.elections[t].log
  {
    if log != [] {
      LastRoots(h, log);
      assert ElectionOk(members, h, t) && ChainAt(h, LastTerm(log), t);
    }
  }

  lemma Comparable(members: set<NodeId>, h: Past, a: Log, b: Log)
    requires PastOk(members, h) && Chained(h) && LogOk(h, a) && LogOk(h, b)
    ensures a <= b || b <= a
  {
    if a != [] && b != [] {
      LastRoots(h, a);
      LastRoots(h, b);
      if LastTerm(a) <= LastTerm(b) {
        InLeader(members, h, a, LastTerm(b));
      } else {
        InLeader(members, h, b, LastTerm(a));
      }
    }
  }

  /** A candidate as up to date as a voter has the voter's log. */
  lemma UpToDateContains(members: set<NodeId>, h: Past, base: Log, voter: Log)
    requires PastOk(members, h) && Chained(h) && LogOk(h, base) && LogOk(h, voter)
    requires UpToDate(LastTerm(base), |base|, voter)
    ensures voter <= base
  {
    if voter != [] {
      LastRoots(h, voter);
      LastRoots(h, base);
      if LastTerm(voter) < LastTerm(base) {
        LongerThanBase(members, h, base);
        assert ChainAt(h, LastTerm(voter), LastTerm(base));
      }
    }
  }

  /** A log that ends in a leader's own entry reaches beyond what it started with. */
  lemma LongerThanBase(members: set<NodeId>, h: Past, log: Log)
    requires PastOk(members, h) && LogOk(h, log) && log != [] && LastTerm(log) in h.elections
    requires log <= h.elections[LastTerm(log)].log
    ensures h.elections[LastTerm(log)].base <= log
  {
    var t := LastTerm(log);
    var e := h.elections[t];
    assert ElectionOk(members, h, t) && CandidacyOk(members, h, Slot(t, e.leader));
    if |log| <= |e.base| {
      assert log[|log| - 1] == e.base[|log| - 1];
      TermsSorted(h, e.base, |log| - 1, |e.base| - 1);
      assert false;
    }
  }

  // ----- logs only grow -----

  lemma AcceptGrows(members: set<NodeId>, h: Past, n: NodeState, e: Envelope)
    requires PastOk(members, h) && Chained(h) && NodeOk(members, h, n) && MessageOk(members, h, e)
    requires e.message.AppendEntries? && Accepts(n, e.message)
    ensures e.message.prevLogIndex <= |n.log|
    ensures n.log <= Merge(n.log, e.message.prevLogIndex, e.message.entries)
  {
    var m := e.message;
    AcceptedSlice(members, h, n, e);
    InLeader(members, h, n.log, m.term);
    MergeKeeps(n.log, h.elections[m.term].log, m.prevLogIndex, |m.entries|, |n.log|);
  }

  lemma LogsGrow(r: Repairs, members: set<NodeId>, h: Past, n: NodeState, ev: Event)
    requires PastOk(members, h) && Chained(h) && NodeOk(members, h, n)
    requires ev.Deliver? ==> MessageOk(members, h, ev.envelope)
    ensures n.term <= React(r, n, ev).node.term && n.log <= React(r, n, ev).node.log
  {
    if ev.Deliver? && ev.envelope.message.AppendEntries? {
      var e := ev.envelope;
      if Accepts(n, e.message) {
        AcceptGrows(members, h, n, e);
        AcceptedOutcome(r, n, e.from, e.message);
      } else {
        RejectOutcome(r, n, e);
      }
    } else {
      ReactGrows(r, members, h, n, ev);
    }
  }

  // ----- the chain grows -----

  /** In a cluster of two both nodes vote for whoever leads. */
  lemma BothVote(members: set<NodeId>, h: Past, t: nat, u: NodeId)
    requires |members| == 2 && PastOk(members, h) && t in h.elections && u in members
    ensures u in h.elections[t].voters && Slot(t, u) in h.ballots
  {
    assert ElectionOk(members, h, t);
    var voters := h.elections[t].voters;
    assert |members - {u}| == 1;
    if u !in voters {
      SubsetSize(voters, members - {u});
      assert false;
    }
  }

  /** The newest leader so far is a member of the newest term. */
  lemma NoLaterLeader(members: set<NodeId>, h: Past, n: NodeState, t: nat)
    requires |members| == 2 && PastOk(members, h) && NodeOk(members, h, n) && t in h.elections
    ensures t <= n.term
  {
    BothVote(members, h, t, n.id);
  }

  /** What earlier leaders had, a winner has from the start. */
  lemma WinnerContains(members: set<NodeId>, h: Past, h': Past, s: State, n: NodeState, t: nat)
    requires |members| == 2 && PastOk(members, h) && PastOk(members, h') && PairOk(h, s)
    requires n.id in members && n.term in h'.elections && n.term !in h.elections && t < n.term && t in h.elections
    requires h'.elections[n.term].base == n.log && h'.elections[n.term].leader == n.id
    requires h'.ballots == h.ballots && h'.candidacies == h.candidacies && LogOk(h, n.log)
    requires HasLed(h, n.id, n.term, n.log)
    ensures h.elections[t].log <= n.log
  {
    assert ElectionOk(members, h, t) && ElectionOk(members, h', n.term);
    var o := h.elections[t].leader;
    if o == n.id {
      assert LedAt(h, n.id, t, n.log);
    } else {
      BothVote(members, h', n.term, o);
      var b := Slot(n.term, o);
      assert BallotOk(members, h, b) && HasLed(h, b.node, b.term, h.ballots[b].log);
      assert LedAt(h, o, t, h.ballots[b].log);
      UpToDateContains(members, h, n.log, h.ballots[b].log);
    }
  }

  /** What one step does to the history of a cluster of two. */
  ghost predicate PairStepped(members: set<NodeId>, h: Past, h': Past, n: NodeState, n': NodeState, campaign: bool) {
    && n'.id == n.id && n.term <= n'.term && n.log <= n'.log
    && PastOk(members, h) && PastOk(members, h') && NodeOk(members, h, n) && NodeOk(members, h', n')
    && Extends(h, h', n.id) && h' == Evolve(h, n', campaign)
    && (n'.role == Leader && n'.term !in h.elections ==> h'.ballots == h.ballots && h'.candidacies == h.candidacies)
  }

  lemma ChainGrows(members: set<NodeId>, h: Past, h': Past, s: State, n: NodeState, n': NodeState, campaign: bool)
    requires |members| == 2 && PairOk(h, s) && PairStepped(members, h, h', n, n', campaign)
    requires HasLed(h, n.id, n'.term, n'.log)
    requires n'.role == Leader && n'.term !in h.elections ==> LogOk(h, n'.log)
    ensures Chained(h')
  {
    forall t: nat, u: nat ensures ChainAt(h', t, u) {
      if t < u && t in h'.elections && u in h'.elections {
        NoLaterLeader(members, h', n', u);
        assert t in h.elections && h'.elections[t] == h.elections[t];
        if u in h.elections {
          assert ChainAt(h, t, u) && Continues(h.elections[u], h'.elections[u], n.id);
        } else {
          WinnerContains(members, h, h', s, n', t);
        }
      }
    }
  }

  /** Elections led by others, and all that are over, stay as they were. */
  lemma LedStays(members: set<NodeId>, h: Past, h': Past, n: NodeState, n': NodeState, campaign: bool, v: NodeId,
                 before: nat, log: Log)
    requires PairStepped(members, h, h', n, n', campaign) && HasLed(h, v, before, log)
    requires v == n.id ==> before <= n'.term
    ensures HasLed(h', v, before, log)
  {
    forall t: nat | t < before ensures LedAt(h', v, t, log) {
      assert LedAt(h, v, t, log);
      if t in h.elections { assert Continues(h.elections[t], h'.elections[t], n.id); }
    }
  }

  lemma NodeHasLed(members: set<NodeId>, h: Past, h': Past, n: NodeState, n': NodeState, campaign: bool)
    requires PairStepped(members, h, h', n, n', campaign) && HasLed(h, n.id, n.term + 1, n.log)
    ensures HasLed(h', n.id, n'.term + 1, n'.log) && HasLed(h, n.id, n'.term, n'.log)
  {
    forall t: nat | t <= n'.term ensures LedAt(h', n.id, t, n'.log) {
      if t in h.elections && h.elections[t].leader == n.id { assert LedAt(h, n.id, t, n.log); }
      if t in h.elections { assert Continues(h.elections[t], h'.elections[t], n.id); }
    }
    forall t: nat | t < n'.term ensures LedAt(h, n.id, t, n'.log) {
      if t in h.elections && h.elections[t].leader == n.id { assert LedAt(h, n.id, t, n.log); }
    }
  }

  lemma BallotsHaveLed(members: set<NodeId>, h: Past, h': Past, s: State, n: NodeState, n': NodeState, campaign: bool)
    requires PairStepped(members, h, h', n, n', campaign) && PairOk(h, s) && HasLed(h, n.id, n.term + 1, n.log)
    ensures forall k | k in h'.ballots :: HasLed(h', k.node, k.term, h'.ballots[k].log)
  {
    forall k | k in h'.ballots ensures HasLed(h', k.node, k.term, h'.ballots[k].log) {
      if k in h.ballots {
        assert HasLed(h, k.node, k.term, h.ballots[k].log);
        LedStays(members, h, h', n, n', campaign, k.node, k.term, h.ballots[k].log);
      } else {
        NodeHasLed(members, h, h', n, n', campaign);
        LedStays(members, h, h', n, n', campaign, n.id, n'.term, n'.log);
      }
    }
  }

  /** A new leader wins on votes already cast. */
  lemma WinsQuietly(r: Repairs, members: set<NodeId>, h: Past, n: NodeState, ev: Event)
    requires |members| == 2 && NodeOk(members, h, n)
    requires var n' := React(r, n, ev).node; n'.role == Leader && n'.term !in h.elections
    ensures var n' := React(r, n, ev).node;
            var h' := Evolve(h, n', ev.Timeout?);
            h'.ballots == h.ballots && h'.candidacies == h.candidacies && n'.log == n.log
  {
    PeersSize(members, n);
    if n.role == Leader { LeaderKeepsTerm(r, n, ev); }
    OnlyVotesWin(r, n, ev);
    QuietVote(h, n, React(r, n, ev).node);
  }

  lemma QuietVote(h: Past, n: NodeState, n': NodeState)
    requires VoteOk(h, n) && n'.term == n.term && n'.votedFor == n.votedFor && n'.id == n.id
    ensures Evolve(h, n', false).ballots == h.ballots && Evolve(h, n', false).candidacies == h.candidacies
  {
  }

  lemma LeaderKeepsTerm(r: Repairs, n: NodeState, ev: Event)
    requires n.peers != {} && n.role == Leader
    ensures React(r, n, ev).node.role == Leader ==> React(r, n, ev).node.term == n.term
  {
  }

  /** With peers, only a vote makes a leader. */
  lemma OnlyVotesWin(r: Repairs, n: NodeState, ev: Event)
    requires n.peers != {} && n.role != Leader && React(r, n, ev).node.role == Leader
    ensures var n' := React(r, n, ev).node;
            && n'.term == n.term && n'.votedFor == n.votedFor && n'.log == n.log && n'.id == n.id
            && n.role == Candidate && !ev.Timeout?
  {
    if ev.Deliver? && ev.envelope.message.AppendEntries? {
      var e := ev.envelope;
      if Accepts(n, e.message) { AcceptedOutcome(r, n, e.from, e.message); } else { RejectOutcome(r, n, e); }
    }
  }

  lemma ReactStepped(r: Repairs, members: set<NodeId>, h: Past, s: State, ev: Event)
    requires CountsVotes(r, members) && |members| == 2 && Inv(members, h, s) && Chained(h) && Enabled(s, ev)
    ensures var n := s.nodes[Site(ev)];
            var n' := React(r, n, ev).node;
            && PairStepped(members, h, Remember(r, s, h, ev), n, n', ev.Timeout?)
            && (n'.role == Leader && n'.term !in h.elections ==> LogOk(h, n'.log))
  {
    var n := s.nodes[Site(ev)];
    var n' := React(r, n, ev).node;
    if ev.Deliver? { assert MessageOk(members, h, ev.envelope); }
    ReactKeeps(r, members, h, s, ev);
    LogsGrow(r, members, h, n, ev);
    if n'.role == Leader && n'.term !in h.elections { WinsQuietly(r, members, h, n, ev); }
  }

  lemma OthersHaveLed(members: set<NodeId>, h: Past, h': Past, s: State, n: NodeState, n': NodeState, campaign: bool,
                      v: NodeId)
    requires PairStepped(members, h, h', n, n', campaign) && PairOk(h, s) && v in s.nodes && v != n.id
    ensures HasLed(h', v, s.nodes[v].term + 1, s.nodes[v].log)
  {
    assert HasLed(h, v, s.nodes[v].term + 1, s.nodes[v].log);
    LedStays(members, h, h', n, n', campaign, v, s.nodes[v].term + 1, s.nodes[v].log);
  }

  lemma PairAfter(members: set<NodeId>, h: Past, h': Past, s: State, n: NodeState, out: Outcome, campaign: bool)
    requires |members| == 2 && PairOk(h, s) && n.id in s.nodes && s.nodes[n.id] == n
    requires PairStepped(members, h, h', n, out.node, campaign)
    requires out.node.role == Leader && out.node.term !in h.elections ==> LogOk(h, out.node.log)
    ensures PairOk(h', State(s.nodes[n.id := out.node], s.network + out.sent, s.replies + out.replies))
  {
    var s' := State(s.nodes[n.id := out.node], s.network + out.sent, s.replies + out.replies);
    assert HasLed(h, n.id, s.nodes[n.id].term + 1, s.nodes[n.id].log);
    NodeHasLed(members, h, h', n, out.node, campaign);
    ChainGrows(members, h, h', s, n, out.node, campaign);
    BallotsHaveLed(members, h, h', s, n, out.node, campaign);
    forall v | v in s'.nodes ensures HasLed(h', v, s'.nodes[v].term + 1, s'.nodes[v].log) {
      if v != n.id { OthersHaveLed(members, h, h', s, n, out.node, campaign, v); }
    }
  }

  lemma InitPair(members: set<NodeId>)
    ensures PairOk(NO_PAST, Init(members))
  {
  }

  // ----- counts stay within the logs -----

  /** Every log reaches index i. */
  ghost predicate Reached(s: State, i: nat) {
    forall w | w in s.nodes :: i <= |s.nodes[w].log|
  }

  ghost predicate LogOfReaches(s: State, p: NodeId, i: nat) {
    p in s.nodes && i <= |s.nodes[p].log|
  }

  ghost predicate MatchesReached(s: State, n: NodeState) {
    forall p | p in n.matched :: p != n.id && LogOfReaches(s, p, n.matched[p])
  }

  /** Clients wait at the index of their own command. */
  ghost predicate WaitsTrue(n: NodeState) {
    forall i | i in n.pending :: 1 <= i <= |n.log| && n.log[i - 1].command == n.pending[i].wants
  }

  ghost predicate NodeCounts(s: State, n: NodeState) {
    Reached(s, n.commit) && MatchesReached(s, n) && WaitsTrue(n)
  }

  ghost predicate MessageCounts(s: State, e: Envelope) {
    && (e.message.AppendEntries? ==> Reached(s, e.message.leaderCommit))
    && (e.message.AppendEntriesResponse? && e.message.success ==> LogOfReaches(s, e.from, e.message.lastLogIndex))
  }

  ghost predicate AnswerCounts(s: State, a: Reply) {
    a.result.Success? ==> Reached(s, a.result.index) && exists v :: AnswerHeld(s, a, v)
  }

  ghost predicate CountsOk(s: State) {
    && (forall v {:trigger NodeCounts(s, s.nodes[v])} | v in s.nodes :: NodeCounts(s, s.nodes[v]))
    && (forall e {:trigger MessageCounts(s, e)} | e in s.network :: MessageCounts(s, e))
    && (forall a {:trigger AnswerCounts(s, a)} | a in s.replies :: AnswerCounts(s, a))
  }

  /** The same nodes with longer logs. */
  ghost predicate Longer(s: State, s': State) {
    s.nodes.Keys == s'.nodes.Keys && forall v | v in s.nodes :: s.nodes[v].log <= s'.nodes[v].log
  }

  lemma CountsGrow(s: State, s': State, n: NodeState)
    requires Longer(s, s') && NodeCounts(s, n)
    ensures NodeCounts(s', n)
  {
  }

  lemma MessagesGrow(s: State, s': State, e: Envelope)
    requires Longer(s, s') && MessageCounts(s, e)
    ensures MessageCounts(s', e)
  {
  }

  lemma AnswersGrow(s: State, s': State, a: Reply)
    requires Longer(s, s') && AnswerCounts(s, a)
    ensures AnswerCounts(s', a)
  {
    if a.result.Success? {
      var v :| AnswerHeld(s, a, v);
      assert AnswerHeld(s', a, v);
    }
  }

  /** What one step of a node owes the counts, judged in the state after it. */
  ghost predicate OutcomeCounts(s: State, out: Outcome) {
    && NodeCounts(s, out.node)
    && (forall e {:trigger MessageCounts(s, e)} | e in out.sent :: MessageCounts(s, e))
    && (forall a {:trigger AnswerCounts(s, a)} | a in out.replies :: AnswerCounts(s, a))
  }

  lemma AcceptCounts(r: Repairs, s': State, n: NodeState, e: Envelope)
    requires e.message.AppendEntries? && Accepts(n, e.message)
    requires NodeCounts(s', n) && MessageCounts(s', e)
    requires var out := OnAppendEntries(r, n, e.from, e.message);
             n.id in s'.nodes && s'.nodes[n.id] == out.node && n.log <= out.node.log
    ensures OutcomeCounts(s', OnAppendEntries(r, n, e.from, e.message))
  {
    AcceptedOutcome(r, n, e.from, e.message);
  }

  lemma RejectCounts(r: Repairs, s': State, n: NodeState, e: Envelope)
    requires e.message.AppendEntries? && !Accepts(n, e.message) && NodeCounts(s', n)
    ensures OutcomeCounts(s', OnAppendEntries(r, n, e.from, e.message))
  {
  }

  lemma AdvanceCounts(members: set<NodeId>, s': State, n: NodeState)
    requires |members| == 2 && s'.nodes.Keys == members && n.id in members && n.peers == members - {n.id}
    requires NodeCounts(s', n) && n.role == Leader && s'.nodes[n.id].log == n.log
    ensures OutcomeCounts(s', TryAdvance(n))
  {
    ScanIsGreatest(n, |n.log|);
    if ScanDown(n, |n.log|).Some? {
      var i := ScanDown(n, |n.log|).value;
      PeersSize(members, n);
      OtherReaches(members, s', n, i);
      forall a | a in TryAdvance(n).replies ensures AnswerCounts(s', a) {
        assert AnswerHeld(s', a, n.id);
      }
    }
  }

  /** What a leader of two may commit, the other node has too. */
  lemma OtherReaches(members: set<NodeId>, s': State, n: NodeState, i: nat)
    requires |members| == 2 && s'.nodes.Keys == members && n.id in members && n.peers == members - {n.id}
    requires MatchesReached(s', n) && Committable(n, i) && s'.nodes[n.id].log == n.log
    ensures Reached(s', i)
  {
    PeersSize(members, n);
    var p :| p in Holders(n.matched, i);
    assert members == {n.id, p} by { assert |members - {n.id}| == 1; assert |members - {n.id} - {p}| == 0; }
  }

  lemma ResponseCounts(r: Repairs, members: set<NodeId>, s': State, n: NodeState, e: Envelope)
    requires |members| == 2 && s'.nodes.Keys == members && n.id in members && n.peers == members - {n.id}
    requires e.message.AppendEntriesResponse? && e.to == n.id && e.from != e.to
    requires NodeCounts(s', n) && MessageCounts(s', e) && s'.nodes[n.id].log == n.log
    ensures OutcomeCounts(s', OnAppendResponse(r, n, e.from, e.message))
  {
    if n.role == Leader && e.message.success && e.message.term <= n.term {
      var n1 := n.(matched := n.matched[e.from := e.message.lastLogIndex],
                   next := n.next[e.from := e.message.lastLogIndex + 1]);
      AdvanceCounts(members, s', n1);
    }
  }

  /** A new leader records nothing it does not know. */
  lemma LeadCounts(r: Repairs, s': State, n: NodeState)
    requires NodeCounts(s', n) && n.peers <= s'.nodes.Keys && n.id !in n.peers
    ensures NodeCounts(s', BecomeLeader(r, n).node)
  {
  }

  lemma VoteKeepsCounts(r: Repairs, s': State, n: NodeState, e: Envelope)
    requires NodeCounts(s', n) && n.peers <= s'.nodes.Keys && n.id !in n.peers && e.message.RequestVoteResponse?
    ensures NodeCounts(s', OnVoteResponse(r, n, e.from, e.message).node)
  {
    var n1 := n.(votes := AddVote(n.votes, e.from));
    assert NodeCounts(s', n1);
    LeadCounts(r, s', n1);
  }

  lemma ElectionCounts(r: Repairs, s': State, n: NodeState)
    requires NodeCounts(s', n) && n.peers <= s'.nodes.Keys && n.id !in n.peers
    ensures NodeCounts(s', StartElection(r, n).node)
  {
    var n1 := n.(term := n.term + 1, votedFor := Some(n.id), role := Candidate, votes := [n.id]);
    assert NodeCounts(s', n1);
    LeadCounts(r, s', n1);
  }

  lemma ProposeCounts(s': State, n: NodeState, client: Client)
    requires NodeCounts(s', n)
    ensures NodeCounts(s', OnPropose(n, client).node)
  {
  }

  lemma StayCounts(r: Repairs, s': State, n: NodeState, ev: Event)
    requires !(ev.Deliver? && (ev.envelope.message.AppendEntries? || ev.envelope.message.AppendEntriesResponse?))
    requires NodeCounts(s', n) && n.peers <= s'.nodes.Keys && n.id !in n.peers
    ensures NodeCounts(s', React(r, n, ev).node)
  {
    match ev
    case Timeout(_) => ElectionCounts(r, s', n);
    case Tick(_) =>
    case Request(_, client) => ProposeCounts(s', n, client);
    case Crash(_) =>
    case Deliver(e) => if e.message.RequestVoteResponse? { VoteKeepsCounts(r, s', n, e); }
  }

  /** Only replies to a leader settle anything. */
  lemma NothingSettled(r: Repairs, n: NodeState, ev: Event)
    requires !(ev.Deliver? && ev.envelope.message.AppendEntriesResponse?)
    ensures forall a | a in React(r, n, ev).replies :: !a.result.Success?
  {
  }

  /** What leaders announce as committed, both logs have. */
  lemma SentCounts(r: Repairs, s': State, n: NodeState, ev: Event)
    requires !(ev.Deliver? && (ev.envelope.message.AppendEntries? || ev.envelope.message.AppendEntriesResponse?))
    requires NodeCounts(s', React(r, n, ev).node)
    ensures forall e {:trigger MessageCounts(s', e)} | e in React(r, n, ev).sent :: MessageCounts(s', e)
  {
    NoSuccessSent(r, n, ev);
    forall e | e in React(r, n, ev).sent ensures MessageCounts(s', e) {
      SentNews(r, n, ev, e);
    }
  }

  lemma ReactCounts(r: Repairs, members: set<NodeId>, s': State, n: NodeState, ev: Event)
    requires |members| == 2 && s'.nodes.Keys == members && n.id in members && n.peers == members - {n.id}
    requires s'.nodes[n.id] == React(r, n, ev).node && n.log <= s'.nodes[n.id].log && s'.nodes[n.id].id == n.id
    requires NodeCounts(s', n)
    requires ev.Deliver? ==> MessageCounts(s', ev.envelope) && ev.envelope.to == n.id && ev.envelope.from != n.id
    ensures OutcomeCounts(s', React(r, n, ev))
  {
    if ev.Deliver? && ev.envelope.message.AppendEntries? {
      if Accepts(n, ev.envelope.message) {
        AcceptCounts(r, s', n, ev.envelope);
      } else {
        RejectCounts(r, s', n, ev.envelope);
      }
    } else if ev.Deliver? && ev.envelope.message.AppendEntriesResponse? {
      ResponseKeepsLog(r, n, ev.envelope.from, ev.envelope.message);
      ResponseCounts(r, members, s', n, ev.envelope);
    } else {
      StayCounts(r, s', n, ev);
      NothingSettled(r, n, ev);
      SentCounts(r, s', n, ev);
    }
  }

  lemma ResponseKeepsLog(r: Repairs, n: NodeState, from: NodeId, m: Message)
    requires m.AppendEntriesResponse?
    ensures OnAppendResponse(r, n, from, m).node.log == n.log
  {
  }

  lemma CountsAfter(s: State, s': State, v: NodeId, out: Outcome)
    requires CountsOk(s) && Longer(s, s') && OutcomeCounts(s', out) && v in s.nodes
    requires s' == State(s.nodes[v := out.node], s.network + out.sent, s.replies + out.replies)
    ensures CountsOk(s')
  {
    forall w | w in s'.nodes ensures NodeCounts(s', s'.nodes[w]) {
      if w != v {
        assert NodeCounts(s, s.nodes[w]);
        CountsGrow(s, s', s.nodes[w]);
      }
    }
    forall e | e in s.network ensures MessageCounts(s', e) {
      assert MessageCounts(s, e);
      MessagesGrow(s, s', e);
    }
    forall a | a in s.replies ensures AnswerCounts(s', a) {
      assert AnswerCounts(s, a);
      AnswersGrow(s, s', a);
    }
  }

  // ----- runs -----

  lemma StepPair(r: Repairs, members: set<NodeId>, h: Past, s: State, ev: Event)
    requires CountsVotes(r, members) && |members| == 2
    requires Inv(members, h, s) && PairOk(h, s) && CountsOk(s)
    ensures PairOk(Remember(r, s, h, ev), Step(r, s, ev)) && CountsOk(Step(r, s, ev))
  {
    if Enabled(s, ev) {
      var v := Site(ev);
      var n, out, h' := s.nodes[v], React(r, s.nodes[v], ev), Remember(r, s, h, ev);
      ReactStepped(r, members, h, s, ev);
      PairAfter(members, h, h', s, n, out, ev.Timeout?);
      SiteCounts(r, members, h, s, ev);
      CountsAfter(s, Step(r, s, ev), v, out);
    }
  }

  lemma SiteCounts(r: Repairs, members: set<NodeId>, h: Past, s: State, ev: Event)
    requires |members| == 2 && Inv(members, h, s) && CountsOk(s) && Enabled(s, ev)
    requires var n := s.nodes[Site(ev)]; n.log <= React(r, n, ev).node.log && React(r, n, ev).node.id == n.id
    ensures Longer(s, Step(r, s, ev)) && OutcomeCounts(Step(r, s, ev), React(r, s.nodes[Site(ev)], ev))
  {
    var n, s' := s.nodes[Site(ev)], Step(r, s, ev);
    assert NodeCounts(s, n);
    CountsGrow(s, s', n);
    if ev.Deliver? {
      assert MessageCounts(s, ev.envelope) && MessageOk(members, h, ev.envelope);
      MessagesGrow(s, s', ev.envelope);
    }
    ReactCounts(r, members, s', n, ev);
  }

  lemma InitCounts(members: set<NodeId>)
    ensures CountsOk(Init(members))
  {
  }

  lemma {:induction false} RunPair(r: Repairs, members: set<NodeId>, evs: seq<Event>)
    requires CountsVotes(r, members) && |members| == 2
    ensures Inv(members, PastOf(r, members, evs), Run(r, members, evs))
    ensures PairOk(PastOf(r, members, evs), Run(r, members, evs)) && CountsOk(Run(r, members, evs))
  {
    RunKeeps(r, members, evs);
    if evs == [] {
      InitPair(members);
      InitCounts(members);
    } else {
      var before := evs[..|evs| - 1];
      RunPair(r, members, before);
      StepPair(r, members, PastOf(r, members, before), Run(r, members, before), evs[|evs| - 1]);
    }
  }

  // ----- what follows -----

  lemma NodesComparable(members: set<NodeId>, h: Past, s: State, u: NodeId, v: NodeId)
    requires Inv(members, h, s) && PairOk(h, s) && u in s.nodes && v in s.nodes
    ensures s.nodes[u].log <= s.nodes[v].log || s.nodes[v].log <= s.nodes[u].log
  {
    Comparable(members, h, s.nodes[u].log, s.nodes[v].log);
  }

  ghost predicate PairInv(members: set<NodeId>, h: Past, s: State) {
    |members| == 2 && Inv(members, h, s) && PairOk(h, s) && CountsOk(s)
  }

  lemma CommittedEverywhere(members: set<NodeId>, h: Past, s: State, u: NodeId, v: NodeId)
    requires PairInv(members, h, s) && u in s.nodes && v in s.nodes
    ensures s.nodes[u].commit <= |s.nodes[u].log| && s.nodes[u].log[..s.nodes[u].commit] <= s.nodes[v].log
  {
    assert NodeCounts(s, s.nodes[u]);
    NodesComparable(members, h, s, u, v);
  }

  lemma MatchTrue(members: set<NodeId>, h: Past, s: State, l: NodeId, p: NodeId)
    requires PairInv(members, h, s) && Recorded(s, l, p)
    ensures var m := s.nodes[l].matched[p];
            m <= |s.nodes[l].log| && m <= |s.nodes[p].log| && s.nodes[p].log[..m] == s.nodes[l].log[..m]
  {
    assert NodeCounts(s, s.nodes[l]);
    InLeader(members, h, s.nodes[p].log, s.nodes[l].term);
  }

  /** Both logs have the command a client was told of. */
  lemma BothAnswer(members: set<NodeId>, h: Past, s: State, a: Reply, v: NodeId)
    requires PairInv(members, h, s) && a in s.replies && a.result.Success? && v in s.nodes
    ensures AnswerHeld(s, a, v)
  {
    assert AnswerCounts(s, a);
    var w :| AnswerHeld(s, a, w);
    NodesComparable(members, h, s, v, w);
  }

  lemma AnswersTrue(members: set<NodeId>, h: Past, s: State)
    requires PairInv(members, h, s)
    ensures AnswersHonest(s) && AnswersOnMajority(members, s)
  {
    forall a, v ensures !Belied(s, a, v) {
      if a in s.replies && a.result.Success? && v in s.nodes { BothAnswer(members, h, s, a, v); }
    }
    forall a | a in s.replies ensures AnswerOnMajority(members, s, a) {
      if a.result.Success? {
        forall v | v in members ensures AnswerHeld(s, a, v) { BothAnswer(members, h, s, a, v); }
        assert Quorum(members, members) && AllHold(s, a, members);
      }
    }
  }

  lemma AllMatchesTrue(members: set<NodeId>, h: Past, s: State)
    requires PairInv(members, h, s)
    ensures MatchesHonest(s)
  {
    forall l, p | Recorded(s, l, p)
      ensures var m := s.nodes[l].matched[p];
              m <= |s.nodes[l].log| && m <= |s.nodes[p].log| && s.nodes[p].log[..m] == s.nodes[l].log[..m]
    {
      MatchTrue(members, h, s, l, p);
    }
  }

  lemma BothHold(members: set<NodeId>, h: Past, s: State)
    requires PairInv(members, h, s)
    ensures CommitsOnMajority(members, s) && LeadersComplete(s)
  {
    forall u, v | u in s.nodes && v in s.nodes
      ensures s.nodes[u].commit <= |s.nodes[u].log| && s.nodes[u].log[..s.nodes[u].commit] <= s.nodes[v].log
    {
      CommittedEverywhere(members, h, s, u, v);
    }
    forall v | v in s.nodes ensures OnMajority(members, s, s.nodes[v]) {
      assert Quorum(members, members) && Holds(s, members, s.nodes[v].log[..s.nodes[v].commit]);
    }
  }

  lemma NeverClash(members: set<NodeId>, h: Past, s: State)
    requires PairInv(members, h, s)
    ensures CommitsAgree(s)
  {
    forall u, v, i: nat ensures !Clash(s, u, v, i) {
      if u in s.nodes && v in s.nodes { NodesComparable(members, h, s, u, v); }
    }
  }

  lemma AcceptKeepsCommitted(r: Repairs, members: set<NodeId>, h: Past, n: NodeState, e: Envelope)
    requires PastOk(members, h) && Chained(h) && NodeOk(members, h, n) && MessageOk(members, h, e)
    requires e.message.AppendEntries? && Accepts(n, e.message) && n.commit <= |n.log|
    ensures KeepsCommitted(n, OnAppendEntries(r, n, e.from, e.message).node, false)
  {
    AcceptGrows(members, h, n, e);
    AcceptedOutcome(r, n, e.from, e.message);
  }

  lemma PairStays(r: Repairs, members: set<NodeId>, h: Past, s: State)
    requires PairInv(members, h, s) && StoresTrue(s) && AllInPlace(s)
    ensures CommitsStay(r, s)
  {
    forall e ensures EntriesKeep(r, s, e) {
      if e in s.network && e.to in s.nodes && e.message.AppendEntries? && Accepts(s.nodes[e.to], e.message) {
        assert StoreTrue(s.nodes[e.to]) && MessageOk(members, h, e);
        AcceptKeepsCommitted(r, members, h, s.nodes[e.to], e);
      }
    }
    CommitsStayIf(r, s);
  }

  /** Nothing committed is undone, and the stores are the replay of it. */
  lemma {:induction false} TwoNodesStay(r: Repairs, members: set<NodeId>, evs: seq<Event>)
    requires CountsVotes(r, members) && |members| == 2
    ensures StoresTrue(Run(r, members, evs)) && CommitsStay(r, Run(r, members, evs))
  {
    if evs != [] { TwoNodesStay(r, members, evs[..|evs| - 1]); }
    RunFollows(r, members, evs);
    RunPair(r, members, evs);
    PairStays(r, members, PastOf(r, members, evs), Run(r, members, evs));
  }

  lemma StepGrows(r: Repairs, members: set<NodeId>, h: Past, s: State, ev: Event, v: NodeId)
    requires Inv(members, h, s) && Chained(h) && v in s.nodes
    ensures v in Step(r, s, ev).nodes && s.nodes[v].log <= Step(r, s, ev).nodes[v].log
  {
    if Enabled(s, ev) && Site(ev) == v {
      if ev.Deliver? { assert MessageOk(members, h, ev.envelope); }
      LogsGrow(r, members, h, s.nodes[v], ev);
    }
  }

  /** What a log once was, it begins with ever after. */
  lemma {:induction false} LogsOnlyGrow(r: Repairs, members: set<NodeId>, evs: seq<Event>, i: nat, v: NodeId)
    requires CountsVotes(r, members) && |members| == 2 && i <= |evs| && v in members
    ensures v in Run(r, members, evs[..i]).nodes && v in Run(r, members, evs).nodes
    ensures Run(r, members, evs[..i]).nodes[v].log <= Run(r, members, evs).nodes[v].log
  {
    if i == |evs| {
      assert evs[..i] == evs;
      NodesStay(r, members, evs);
    } else {
      var before, ev := evs[..|evs| - 1], evs[|evs| - 1];
      assert before[..i] == evs[..i];
      LogsOnlyGrow(r, members, before, i, v);
      RunPair(r, members, before);
      StepGrows(r, members, PastOf(r, members, before), Run(r, members, before), ev, v);
    }
  }

  /** Equally far applied means the same data, at whatever two times. */
  lemma TwoNodesData(r: Repairs, members: set<NodeId>, evs: seq<Event>, i: nat, j: nat, u: NodeId, v: NodeId)
    requires CountsVotes(r, members) && |members| == 2
    requires i <= |evs| && j <= |evs| && u in members && v in members
    ensures u in Run(r, members, evs[..i]).nodes && v in Run(r, members, evs[..j]).nodes
    ensures var a, b := Run(r, members, evs[..i]).nodes[u], Run(r, members, evs[..j]).nodes[v];
            a.applied == b.applied ==> a.store.data == b.store.data
  {
    LogsOnlyGrow(r, members, evs, i, u);
    LogsOnlyGrow(r, members, evs, j, v);
    TwoNodesStay(r, members, evs[..i]);
    TwoNodesStay(r, members, evs[..j]);
    RunPair(r, members, evs);
    NodesComparable(members, PastOf(r, members, evs), Run(r, members, evs), u, v);
    var a, b := Run(r, members, evs[..i]).nodes[u], Run(r, members, evs[..j]).nodes[v];
    assert StoreTrue(a) && StoreTrue(b);
    if a.applied == b.applied { assert a.log[..a.applied] == b.log[..b.applied]; }
  }

  /** With votes that count, a cluster of two has every guarantee. */
  lemma TwoNodesSafe(r: Repairs, members: set<NodeId>, evs: seq<Event>)
    requires CountsVotes(r, members) && |members| == 2
    ensures var s := Run(r, members, evs);
            && MatchesHonest(s) && CommitsOnMajority(members, s) && LeadersComplete(s)
            && CommitsAgree(s) && AnswersHonest(s) && AnswersOnMajority(members, s)
  {
    RunPair(r, members, evs);
    var h, s := PastOf(r, members, evs), Run(r, members, evs);
    AllMatchesTrue(members, h, s);
    BothHold(members, h, s);
    NeverClash(members, h, s);
    AnswersTrue(members, h, s);
  }
}
