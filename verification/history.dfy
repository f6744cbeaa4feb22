/** What the proofs remember of a run beyond the state itself, and the part of
    the invariant that concerns votes, elections and logs. Each clause speaks
    of the history together with one node, one message or nothing else. */
module History {
  import opened RaftTypes
  import opened LogSpec
  import opened NodeSpec
  import opened Cluster

  datatype Slot = Slot(term: nat, node: NodeId)

  datatype Ballot = Ballot(candidate: NodeId, log: Log)

  /** `base` is the leader's log when it was elected, `log` all it has held since. */
  datatype Election = Election(leader: NodeId, voters: set<NodeId>, base: Log, log: Log)

  /** - candidacies: a candidate's log when it started its election.
      - ballots: a node's first vote in a term, with its log at that moment.
      - elections: the winner of each term. */
  datatype Past = Past(candidacies: map<Slot, Log>, ballots: map<Slot, Ballot>, elections: map<nat, Election>)

  const NO_PAST := Past(map[], map[], map[])

  /** The history after a step that leaves a node in state n. */
  function Evolve(h: Past, n: NodeState, campaign: bool): Past {
    var slot := Slot(n.term, n.id);
    Past(if campaign then h.candidacies[slot := n.log] else h.candidacies,
         if n.votedFor.Some? && slot !in h.ballots
         then h.ballots[slot := Ballot(n.votedFor.value, n.log)] else h.ballots,
         if n.role != Leader then h.elections
         else if n.term in h.elections then h.elections[n.term := h.elections[n.term].(log := n.log)]
         else h.elections[n.term := Election(n.id, (set u | u in n.votes), n.log, n.log)])
  }

  ghost function Remember(r: Repairs, s: State, h: Past, ev: Event): Past {
    if !Enabled(s, ev) then h
    else Evolve(h, React(r, s.nodes[Site(ev)], ev).node, ev.Timeout?)
  }

  ghost function PastOf(r: Repairs, members: set<NodeId>, evs: seq<Event>): Past {
    if evs == [] then NO_PAST else
    var before := evs[..|evs| - 1];
    Remember(r, Run(r, members, before), PastOf(r, members, before), evs[|evs| - 1])
  }

  // ----- logs -----

  /** The entry at position i sits at its own index, does not go back in term,
      and comes, with all before it, from the leader of its term. */
  ghost predicate EntryOk(h: Past, log: Log, i: nat)
    requires i < |log|
  {
    && log[i].index == i + 1
    && 1 <= log[i].term
    && (i > 0 ==> log[i - 1].term <= log[i].term)
    && log[i].term in h.elections
    && log[..i + 1] <= h.elections[log[i].term].log
  }

  ghost predicate LogOk(h: Past, log: Log) {
    forall i: nat | i < |log| :: EntryOk(h, log, i)
  }

  // ----- the invariant -----

  ghost predicate CandidacyOk(members: set<NodeId>, h: Past, k: Slot)
    requires k in h.candidacies
  {
    && k.term >= 1
    && k.node in members
    && LogOk(h, h.candidacies[k])
    && LastTerm(h.candidacies[k]) < k.term
  }

  ghost predicate BallotOk(members: set<NodeId>, h: Past, k: Slot)
    requires k in h.ballots
  {
    var b := h.ballots[k];
    var c := Slot(k.term, b.candidate);
    && k.node in members
    && c in h.candidacies
    && LogOk(h, b.log)
    && UpToDate(LastTerm(h.candidacies[c]), |h.candidacies[c]|, b.log)
  }

  ghost predicate Quorum(members: set<NodeId>, q: set<NodeId>) {
    q <= members && 2 * |q| > |members|
  }

  ghost predicate ElectionOk(members: set<NodeId>, h: Past, t: nat)
    requires t in h.elections
  {
    var e := h.elections[t];
    && t >= 1
    && e.leader in members
    && Quorum(members, e.voters)
    && (forall u | u in e.voters :: Slot(t, u) in h.ballots && h.ballots[Slot(t, u)].candidate == e.leader)
    && Slot(t, e.leader) in h.candidacies
    && h.candidacies[Slot(t, e.leader)] == e.base
    && e.base <= e.log
    && (|e.base| < |e.log| ==> e.log[|e.base|].term == t)
    && LastTerm(e.log) <= t
    && LogOk(h, e.log)
  }

  ghost predicate PastOk(members: set<NodeId>, h: Past) {
    && (forall k {:trigger CandidacyOk(members, h, k)} | k in h.candidacies :: CandidacyOk(members, h, k))
    && (forall k {:trigger BallotOk(members, h, k)} | k in h.ballots :: BallotOk(members, h, k))
    && (forall t {:trigger ElectionOk(members, h, t)} | t in h.elections :: ElectionOk(members, h, t))
  }

  ghost predicate VoteOk(h: Past, n: NodeState) {
    && (forall k | k in h.ballots && k.node == n.id ::
          && k.term <= n.term
          && (k.term == n.term ==> n.votedFor == Some(h.ballots[k].candidate)))
    && (n.votedFor.Some? ==>
          Slot(n.term, n.id) in h.ballots && h.ballots[Slot(n.term, n.id)].candidate == n.votedFor.value)
  }

  ghost predicate Distinct(votes: seq<NodeId>) {
    forall i, j :: 0 <= i < j < |votes| ==> votes[i] != votes[j]
  }

  ghost predicate CandidateOk(members: set<NodeId>, h: Past, n: NodeState) {
    && Distinct(n.votes) && n.id in n.votes
    && (forall u | u in n.votes ::
          && u in members
          && Slot(n.term, u) in h.ballots
          && h.ballots[Slot(n.term, u)].candidate == n.id)
    && Slot(n.term, n.id) in h.candidacies
    && (n.term !in h.elections ==> h.candidacies[Slot(n.term, n.id)] == n.log)
    && (n.term in h.elections ==> h.elections[n.term].leader != n.id)
  }

  ghost predicate LeaderOk(h: Past, n: NodeState) {
    && n.term in h.elections
    && h.elections[n.term].leader == n.id
    && h.elections[n.term].log == n.log
  }

  ghost predicate NodeOk(members: set<NodeId>, h: Past, n: NodeState) {
    && n.id in members
    && n.peers == members - {n.id}
    && LogOk(h, n.log)
    && LastTerm(n.log) <= n.term
    && VoteOk(h, n)
    && (forall k | k in h.candidacies && k.node == n.id :: k.term <= n.term)
    && (forall t | t in h.elections && h.elections[t].leader == n.id :: t <= n.term)
    && (n.role == Candidate ==> CandidateOk(members, h, n))
    && (n.role == Leader ==> LeaderOk(h, n))
  }

  /** The slice a message carries is one of the sender's log, or the message
      probes beyond the sender's log, which no receiver can match. */
  ghost predicate SliceOf(m: Message, log: Log)
    requires m.AppendEntries?
  {
    var prev, n := m.prevLogIndex, |m.entries|;
    || (prev >= 1 && m.prevLogTerm == 0 && n == 0)
    || (prev + n <= |log| && m.entries == log[prev..prev + n]
        && (prev >= 1 ==> m.prevLogTerm == log[prev - 1].term))
  }

  ghost predicate MessageOk(members: set<NodeId>, h: Past, e: Envelope) {
    && e.from in members
    && e.from != e.to
    && (e.message.AppendEntries? ==>
          && e.message.term in h.elections
          && h.elections[e.message.term].leader == e.from
          && SliceOf(e.message, h.elections[e.message.term].log))
    && (e.message.RequestVote? ==>
          var k := Slot(e.message.term, e.from);
          && e.message.candidateId == e.from
          && k in h.candidacies
          && e.message.lastLogIndex == |h.candidacies[k]|
          && e.message.lastLogTerm == LastTerm(h.candidacies[k]))
    && (e.message.RequestVoteResponse? && e.message.voteGranted ==>
          var k := Slot(e.message.term, e.from);
          k in h.ballots && h.ballots[k].candidate == e.to)
  }

  ghost predicate NodesOk(members: set<NodeId>, h: Past, s: State) {
    s.nodes.Keys == members
    && forall v | v in s.nodes :: s.nodes[v].id == v && NodeOk(members, h, s.nodes[v])
  }

  ghost predicate NetworkOk(members: set<NodeId>, h: Past, network: set<Envelope>) {
    forall e {:trigger MessageOk(members, h, e)} | e in network :: MessageOk(members, h, e)
  }

  ghost predicate Inv(members: set<NodeId>, h: Past, s: State) {
    PastOk(members, h) && NodesOk(members, h, s) && NetworkOk(members, h, s.network)
  }

  // ----- how a history grows -----

  /** h' extends h by what happened at node v alone. */
  ghost predicate Extends(h: Past, h': Past, v: NodeId) {
    && (forall k | k in h.candidacies :: k in h'.candidacies && h'.candidacies[k] == h.candidacies[k])
    && (forall k | k in h'.candidacies && k !in h.candidacies :: k.node == v)
    && (forall k | k in h.ballots :: k in h'.ballots && h'.ballots[k] == h.ballots[k])
    && (forall k | k in h'.ballots && k !in h.ballots :: k.node == v)
    && (forall t | t in h.elections :: t in h'.elections && Continues(h.elections[t], h'.elections[t], v))
    && (forall t | t in h'.elections && t !in h.elections :: h'.elections[t].leader == v)
  }

  ghost predicate Continues(e: Election, e': Election, v: NodeId) {
    && e'.leader == e.leader && e'.voters == e.voters && e'.base == e.base
    && e.log <= e'.log
    && (e.leader != v ==> e'.log == e.log)
  }

  // ----- facts about well-formed logs -----

  lemma PrefixOk(h: Past, log: Log, k: nat)
    requires LogOk(h, log) && k <= |log|
    ensures LogOk(h, log[..k])
  {
    var p := log[..k];
    forall i: nat | i < k ensures EntryOk(h, p, i) {
      assert EntryOk(h, log, i);
      assert p[..i + 1] == log[..i + 1];
    }
  }

  lemma {:induction false} TermsSorted(h: Past, log: Log, i: nat, j: nat)
    requires LogOk(h, log) && i <= j < |log|
    ensures 1 <= log[i].term <= log[j].term
    decreases j
  {
    assert EntryOk(h, log, j);
    if i < j { TermsSorted(h, log, i, j - 1); }
  }

  /** Log Matching: equal terms at one index mean equal prefixes. */
  lemma EqualTermsEqualPrefixes(h: Past, a: Log, b: Log, i: nat)
    requires LogOk(h, a) && LogOk(h, b)
    requires i < |a| && i < |b| && a[i].term == b[i].term
    ensures a[..i + 1] == b[..i + 1]
  {
    assert EntryOk(h, a, i) && EntryOk(h, b, i);
  }

  lemma LastRoots(h: Past, log: Log)
    requires LogOk(h, log) && log != []
    ensures LastTerm(log) in h.elections && log <= h.elections[LastTerm(log)].log
  {
    assert EntryOk(h, log, |log| - 1);
    assert log[..|log|] == log;
  }

  lemma LogOkGrows(h: Past, h': Past, v: NodeId, log: Log)
    requires Extends(h, h', v) && LogOk(h, log)
    ensures LogOk(h', log)
  {
    forall i: nat | i < |log| ensures EntryOk(h', log, i) {
      assert EntryOk(h, log, i);
      var t := log[i].term;
      assert Continues(h.elections[t], h'.elections[t], v);
    }
  }

  lemma NodeOkGrows(members: set<NodeId>, h: Past, h': Past, v: NodeId, n: NodeState)
    requires Extends(h, h', v) && NodeOk(members, h, n) && n.id != v
    ensures NodeOk(members, h', n)
  {
    LogOkGrows(h, h', v, n.log);
    forall t | t in h'.elections && h'.elections[t].leader == n.id ensures t <= n.term {
      assert t in h.elections;
      assert Continues(h.elections[t], h'.elections[t], v);
    }
    if n.term in h.elections {
      assert Continues(h.elections[n.term], h'.elections[n.term], v);
    }
  }

  lemma MessageOkGrows(members: set<NodeId>, h: Past, h': Past, v: NodeId, e: Envelope)
    requires Extends(h, h', v) && MessageOk(members, h, e)
    ensures MessageOk(members, h', e)
  {
  }
}
