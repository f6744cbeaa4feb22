/** What each message obliges a node to do, for any repairs: which term it takes,
    what it answers, what a follower commits and what a leader does. */
module Duties {
  import opened RaftTypes
  import opened LogSpec
  import opened NodeSpec
  import opened History
  import opened LogMatching
  import opened Quorums

  // ----- terms -----

  /** A node has no use for replies to what it does not do. */
  predicate Ignores(n: NodeState, m: Message) {
    (m.AppendEntriesResponse? && n.role != Leader) || (m.RequestVoteResponse? && n.role != Candidate)
  }

  /** Whoever does not ignore a message takes its term if it is later; and only
      then does a message change a node's term. */
  lemma TermTaken(r: Repairs, n: NodeState, e: Envelope)
    ensures OnMessage(r, n, e).node.term == if Ignores(n, e.message) then n.term else Max(n.term, e.message.term)
    ensures e.message.term > n.term ==> (OnMessage(r, n, e).node.term == e.message.term <==> !Ignores(n, e.message))
    ensures Ignores(n, e.message) ==>
              var out := OnMessage(r, n, e); out.node == n && out.sent == {} && out.replies == {}
  {
    match e.message
    case AppendEntries(_, _, _, _, _, _) =>
    case AppendEntriesResponse(_, _, _, _) =>
    case RequestVote(_, _, _, _) =>
    case RequestVoteResponse(_, _, _) =>
  }

  /** A later term makes a follower of anyone, with its vote to give. */
  lemma LaterTermDeposes(r: Repairs, n: NodeState, e: Envelope)
    requires e.message.term > n.term && !Ignores(n, e.message)
    ensures var n' := OnMessage(r, n, e).node;
            && n'.role == Follower
            && (n'.votedFor == None || (e.message.RequestVote? && n'.votedFor == Some(e.message.candidateId)))
  {
  }

  /** A later term in a response is all there is to it. */
  lemma ResponseDeposes(r: Repairs, n: NodeState, e: Envelope)
    requires e.message.term > n.term && !Ignores(n, e.message)
    requires e.message.AppendEntriesResponse? || e.message.RequestVoteResponse?
    ensures var out := OnMessage(r, n, e);
            && out.node.term == e.message.term && out.node.role == Follower && out.node.votedFor == None
            && out.node.log == n.log && out.node.commit == n.commit && out.node.applied == n.applied
            && out.node.store == n.store && out.node.pending == n.pending
            && out.sent == {} && out.replies == {}
  {
  }

  // ----- votes -----

  /** (term, index) is lexicographically at least (term', index'). */
  predicate NoOlder(term: nat, index: nat, term': nat, index': nat) {
    term > term' || (term == term' && index >= index')
  }

  /** A vote is granted iff the request is not of an earlier term, nobody else has
      the vote of the term that results, and the candidate's log is no older. */
  predicate DueVote(n: NodeState, m: Message)
    requires m.RequestVote?
  {
    && m.term >= n.term
    && (m.term > n.term || n.votedFor == None || n.votedFor == Some(m.candidateId))
    && NoOlder(m.lastLogTerm, m.lastLogIndex, if n.log == [] then 0 else n.log[|n.log| - 1].term, |n.log|)
  }

  /** Every request for a vote is answered once, to whoever asked, in the later of
      the two terms. */
  lemma VoteAnswered(n: NodeState, from: NodeId, m: Message)
    requires m.RequestVote?
    ensures var out := OnRequestVote(n, from, m);
            && out.sent == {Envelope(n.id, from, RequestVoteResponse(Max(n.term, m.term), DueVote(n, m), n.id))}
            && out.replies == {} && out.node.log == n.log && out.node.commit == n.commit
            && out.node.votedFor == (if DueVote(n, m) then Some(m.candidateId)
                                     else if m.term > n.term then None else n.votedFor)
            && out.node.role == (if m.term > n.term then Follower else n.role)
  {
  }

  // ----- entries -----

  /** The sender is not behind and the entry before the new ones is there. */
  predicate Welcome(n: NodeState, m: Message)
    requires m.AppendEntries?
  {
    && m.term >= n.term
    && (m.prevLogIndex > 0 ==> m.prevLogIndex <= |n.log| && n.log[m.prevLogIndex - 1].term == m.prevLogTerm)
  }

  /** Entries that are refused leave the log alone, and the sender is told so once,
      in the later of the two terms. */
  lemma EntriesRefused(r: Repairs, n: NodeState, from: NodeId, m: Message)
    requires m.AppendEntries? && !Welcome(n, m)
    ensures var out := OnAppendEntries(r, n, from, m);
            && out.sent == {Envelope(n.id, from, AppendEntriesResponse(Max(n.term, m.term), false, |n.log|, n.id))}
            && out.replies == {} && out.node.log == n.log
            && out.node.commit == n.commit && out.node.applied == n.applied && out.node.store == n.store
  {
  }

  /** Entries that are accepted are where they belong afterwards, and the sender is
      told so once. */
  lemma EntriesAccepted(r: Repairs, n: NodeState, from: NodeId, m: Message)
    requires m.AppendEntries? && Welcome(n, m)
    ensures var out, covered := OnAppendEntries(r, n, from, m), m.prevLogIndex + |m.entries|;
            && m.prevLogIndex <= |n.log| && covered <= |out.node.log|
            && out.node.log[..m.prevLogIndex] == n.log[..m.prevLogIndex]
            && out.node.log[m.prevLogIndex..covered] == m.entries
            && (|out.node.log| > covered ==> |out.node.log| == |n.log| && out.node.log[covered..] == n.log[covered..])
            && out.replies == {}
            && out.sent == {Envelope(n.id, from,
                                     AppendEntriesResponse(if r.replyTerm then m.term else n.term, true,
                                                           if r.coverReport then covered else |out.node.log|, n.id))}
  {
    AcceptedOutcome(r, n, from, m);
    var log, covered := OnAppendEntries(r, n, from, m).node.log, m.prevLogIndex + |m.entries|;
    assert log[..covered] == n.log[..m.prevLogIndex] + m.entries;
  }

  /** Whoever accepts a message commits at least what it announces as far as it
      covers it, at most what it announces, and applies what it commits. */
  lemma FollowerCommits(r: Repairs, n: NodeState, from: NodeId, m: Message)
    requires m.AppendEntries? && Welcome(n, m)
    ensures var n', covered := OnAppendEntries(r, n, from, m).node, m.prevLogIndex + |m.entries|;
            && Min(m.leaderCommit, covered) <= n'.commit <= Max(n.commit, m.leaderCommit)
            && (n.commit <= |n'.log| ==> n.commit <= n'.commit <= |n'.log|)
            && n'.applied == Max(n.applied, n'.commit)
            && (n.applied == n.commit <= |n'.log| ==> n'.applied == n'.commit)
  {
    AcceptedOutcome(r, n, from, m);
  }

  // ----- what is learnt from a refusal -----

  /** A candidate that hears an answer to its request is no longer behind the voter. */
  lemma AnswerTeaches(r: Repairs, n: NodeState, from: NodeId, m: Message, a: NodeState, e: Envelope)
    requires m.RequestVote? && e in OnRequestVote(n, from, m).sent && a.role == Candidate
    ensures e.to == from && OnMessage(r, a, e).node.term >= Max(n.term, a.term)
  {
    VoteAnswered(n, from, m);
    TermTaken(r, a, e);
  }

  /** A leader that hears its entries were refused is no longer behind the refuser,
      and no longer leads if it was. */
  lemma RefusalTeaches(r: Repairs, n: NodeState, from: NodeId, m: Message, l: NodeState, e: Envelope)
    requires m.AppendEntries? && !Welcome(n, m) && e in OnAppendEntries(r, n, from, m).sent && l.role == Leader
    ensures e.to == from && OnMessage(r, l, e).node.term >= Max(n.term, l.term)
    ensures n.term > l.term ==> OnMessage(r, l, e).node.role == Follower
  {
    EntriesRefused(r, n, from, m);
    TermTaken(r, l, e);
    if n.term > l.term { LaterTermDeposes(r, l, e); }
  }

  // ----- a leader's commits -----

  /** By the leader's records the nodes of q have its log up to i. */
  ghost predicate AllHave(n: NodeState, q: set<NodeId>, i: nat) {
    forall w | w in q :: w == n.id || (w in n.matched && n.matched[w] >= i)
  }

  /** An entry of the leader's own term that a majority has. */
  ghost predicate Ripe(members: set<NodeId>, n: NodeState, i: nat) {
    && 1 <= i <= |n.log| && n.log[i - 1].term == n.term
    && exists q :: Quorum(members, q) && AllHave(n, q, i)
  }

  lemma RipeCommittable(members: set<NodeId>, n: NodeState, i: nat)
    requires n.id in members && n.peers == members - {n.id} && n.matched.Keys <= n.peers
    ensures Ripe(members, n, i) <==> Committable(n, i)
  {
    PeersSize(members, n);
    if Ripe(members, n, i) {
      var q :| Quorum(members, q) && AllHave(n, q, i);
      SubsetSize(q, Holders(n.matched, i) + {n.id});
    } else if Committable(n, i) {
      assert Quorum(members, Holders(n.matched, i) + {n.id}) && AllHave(n, Holders(n.matched, i) + {n.id}, i);
      assert false;
    }
  }

  /** The leader counts the reply among its own. */
  predicate Counts(r: Repairs, n: NodeState, m: Message)
    requires m.AppendEntriesResponse?
  {
    n.role == Leader && m.success && m.term <= n.term && (r.sameTerm ==> m.term == n.term)
  }

  /** A success reply is recorded, and nothing that could be committed is left
      uncommitted. */
  lemma LeaderCommits(r: Repairs, members: set<NodeId>, n: NodeState, from: NodeId, m: Message)
    requires n.id in members && n.peers == members - {n.id} && n.matched.Keys <= n.peers && from in n.peers
    requires m.AppendEntriesResponse? && Counts(r, n, m)
    ensures var n' := OnAppendResponse(r, n, from, m).node;
            && n'.role == Leader && n'.term == n.term && n'.log == n.log && n'.id == n.id && n'.peers == n.peers
            && n'.matched == n.matched[from := m.lastLogIndex]
            && n.commit <= n'.commit && (n.applied == n.commit ==> n'.applied == n'.commit)
            && (forall i: nat | n'.commit < i :: !Ripe(members, n', i))
            && (n.commit < n'.commit ==> Ripe(members, n', n'.commit))
  {
    var n1 := n.(matched := n.matched[from := m.lastLogIndex], next := n.next[from := m.lastLogIndex + 1]);
    var n' := OnAppendResponse(r, n, from, m).node;
    ScanIsGreatest(n1, |n1.log|);
    forall i: nat | n'.commit < i ensures !Ripe(members, n', i) {
      RipeCommittable(members, n', i);
      assert Committable(n', i) == Committable(n1, i);
    }
    RipeCommittable(members, n', n'.commit);
    assert Committable(n', n'.commit) == Committable(n1, n'.commit);
  }

  /** When the commit index advances, everyone waiting at or below it is answered
      at the index it waits at, and nobody else is; otherwise nobody is. */
  lemma LeaderAnswers(r: Repairs, n: NodeState, from: NodeId, m: Message)
    requires m.AppendEntriesResponse? && Counts(r, n, m)
    ensures var out := OnAppendResponse(r, n, from, m);
            var upTo := if n.commit < out.node.commit then out.node.commit else 0;
            && (forall x | x in n.pending && x <= upTo && upTo > 0 :: Reply(n.pending[x], Success(x)) in out.replies)
            && (forall a | a in out.replies ::
                  && a.result.Success? && a.result.index in n.pending && a.result.index <= upTo && upTo > 0
                  && a.client == n.pending[a.result.index])
            && (forall x :: x in out.node.pending <==> x in n.pending && (x > upTo || upTo == 0))
            && (forall x | x in out.node.pending :: out.node.pending[x] == n.pending[x])
  {
    ScanIsGreatest(n.(matched := n.matched[from := m.lastLogIndex], next := n.next[from := m.lastLogIndex + 1]),
                   |n.log|);
  }

  /** A refusal takes the leader one entry back, and changes nothing else. */
  lemma LeaderStepsBack(r: Repairs, n: NodeState, from: NodeId, m: Message)
    requires m.AppendEntriesResponse? && n.role == Leader && !m.success && from in n.next
    requires m.term <= n.term && (r.sameTerm ==> m.term == n.term)
    ensures var out := OnAppendResponse(r, n, from, m);
            && out.node == n.(next := out.node.next) && out.sent == {} && out.replies == {}
            && out.node.next.Keys == n.next.Keys
            && out.node.next[from] == (if n.next[from] >= 2 then n.next[from] - 1 else 1)
            && forall p | p in n.next && p != from :: out.node.next[p] == n.next[p]
  {
  }

  // ----- proposals -----

  /** A message from n to p that brings the end of the log, from p's next entry on. */
  predicate BringsEnd(n: NodeState, p: NodeId, e: Envelope) {
    && e.from == n.id && e.to == p && e.message.AppendEntries?
    && e.message.term == n.term && e.message.leaderId == n.id && e.message.leaderCommit == n.commit
    && e.message.prevLogIndex <= |n.log| && e.message.entries == n.log[e.message.prevLogIndex..]
    && e.message.prevLogTerm == (if e.message.prevLogIndex == 0 then 0 else n.log[e.message.prevLogIndex - 1].term)
    && NextFor(n, p) == e.message.prevLogIndex + 1
  }

  /** A proposal goes behind the leader's log in its term, its client waits there,
      and every peer that is less than a batch behind is sent it at once. */
  lemma ProposalTaken(n: NodeState, client: Client, p: NodeId) returns (e: Envelope)
    requires n.role == Leader && p in n.peers
    ensures var out := OnPropose(n, client);
            && |out.node.log| == |n.log| + 1 && out.node.log[..|n.log|] == n.log
            && out.node.log[|n.log|] == LogEntry(|n.log| + 1, n.term, client.wants)
            && out.node.term == n.term && out.node.role == Leader && out.node.commit == n.commit
            && out.node.pending.Keys == n.pending.Keys + {|n.log| + 1} && out.node.pending[|n.log| + 1] == client
            && (forall x | x in n.pending && x != |n.log| + 1 :: out.node.pending[x] == n.pending[x])
            && out.replies == {}
    ensures var out := OnPropose(n, client);
            NextFor(n, p) <= |n.log| + 1 < NextFor(n, p) + MAX_BATCH ==>
              e in out.sent && BringsEnd(out.node, p, e)
  {
    var n' := OnPropose(n, client).node;
    e := Envelope(n.id, p, AppendMessage(n', p));
  }

  // ----- elections -----

  lemma VotersOf(votes: seq<NodeId>, from: NodeId)
    requires Distinct(votes)
    ensures var all, voters := AddVote(votes, from), (set v | v in votes) + {from};
            (forall v :: v in all <==> v in voters) && Distinct(all) && |all| == |voters|
  {
    var all := AddVote(votes, from);
    DistinctSize(all);
    assert (set v | v in all) == (set v | v in votes) + {from};
  }

  /** A granted vote is counted once, and the candidate leads as soon as its
      voters, itself counted twice as the code stands, are a majority. */
  lemma VoteTaken(r: Repairs, members: set<NodeId>, n: NodeState, from: NodeId, m: Message)
    requires n.id in members && n.peers == members - {n.id} && Distinct(n.votes)
    requires m.RequestVoteResponse? && n.role == Candidate && m.term <= n.term
    ensures var n', voters := OnVoteResponse(r, n, from, m).node, (set v | v in n.votes) + {from};
            if m.voteGranted && (r.voteTerm ==> m.term == n.term) then
              && (forall v :: v in n'.votes <==> v in voters) && Distinct(n'.votes)
              && (n'.role == Leader <==> 2 * (|voters| + if r.selfVote then 0 else 1) > |members|)
              && (n'.role != Leader ==> n'.role == Candidate)
              && n'.term == n.term && n'.log == n.log && n'.votedFor == n.votedFor
            else n' == n
  {
    PeersSize(members, n);
    VotersOf(n.votes, from);
  }

  /** A new leader asks every peer whether it has the last entry of its log. */
  lemma WinnerGreets(r: Repairs, n: NodeState, p: NodeId)
    requires p in n.peers
    ensures var out := BecomeLeader(r, n);
            && out.node.role == Leader && out.node.leaderId == Some(n.id)
            && p in out.node.next && out.node.next[p] == |n.log| + 1
            && p in out.node.matched && out.node.matched[p] == 0
            && Envelope(n.id, p, AppendEntries(n.term, n.id, |n.log|, LastTerm(n.log), [], n.commit)) in out.sent
  {
    var n' := BecomeLeader(r, n).node;
    assert AppendMessage(n', p) == AppendEntries(n.term, n.id, |n.log|, LastTerm(n.log), [], n.commit);
  }

  /** Whoever stands for election asks every peer for its vote, in the next term. */
  lemma CandidateAsks(r: Repairs, n: NodeState, p: NodeId)
    requires p in n.peers
    ensures var out := StartElection(r, n);
            && out.node.role == Candidate && out.node.term == n.term + 1 && out.node.votedFor == Some(n.id)
            && out.node.votes == [n.id] && out.node.log == n.log
            && Envelope(n.id, p, RequestVote(n.term + 1, n.id, |n.log|, LastTerm(n.log))) in out.sent
  {
  }

  /** Whatever response a node hears, its commit index does not fall, and its log
      stays. */
  lemma ResponseKeepsCommit(r: Repairs, n: NodeState, from: NodeId, m: Message)
    requires m.AppendEntriesResponse?
    ensures var n' := OnAppendResponse(r, n, from, m).node; n.commit <= n'.commit && n'.log == n.log
  {
    ScanIsGreatest(n.(matched := n.matched[from := m.lastLogIndex], next := n.next[from := m.lastLogIndex + 1]),
                   |n.log|);
  }
}
