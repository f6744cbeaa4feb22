/** What each handler of a node does, as a function from the node's state to
    its next state, the envelopes it sends and the replies it gives clients.

    The handlers take a `Repairs` value. `AS_WRITTEN` is the code as it stands;
    each flag replaces one guard of the code by the one the safety argument
    needs. */
module NodeSpec {
  import opened RaftTypes
  import opened LogSpec
  import opened StoreSpec

  /** - voteTerm: a granted vote counts only in the term it was granted for.
      - selfVote: the candidate's own vote, already in the list, is not added
        a second time when votes are counted.
      - coverReport: a success reply reports the last index the message covered.
      - replyTerm: a success reply carries the receiver's updated term.
      - sameTerm: a leader drops replies from other terms.
      - commitClamp: a follower commits no further than the last index the
        message covered, and never backwards.
      - pendingReset: a new leader forgets the requests of earlier leaderships. */
  datatype Repairs = Repairs(voteTerm: bool, selfVote: bool, coverReport: bool, replyTerm: bool, sameTerm: bool,
                             commitClamp: bool, pendingReset: bool)

  const AS_WRITTEN := Repairs(false, false, false, false, false, false, false)
  const REPAIRED := Repairs(true, true, true, true, true, true, true)

  const MAX_BATCH: nat := 64

  datatype Store = Store(data: map<Key, Value>, lastApplied: nat)

  const EMPTY_STORE := Store(map[], 0)

  datatype NodeState = NodeState(
    id: NodeId,
    peers: set<NodeId>,
    term: nat,
    votedFor: Option<NodeId>,
    log: Log,
    role: NodeRole,
    leaderId: Option<NodeId>,
    commit: nat,
    applied: nat,
    store: Store,
    next: map<NodeId, nat>,
    matched: map<NodeId, nat>,
    votes: seq<NodeId>,
    pending: map<nat, Client>)

  datatype Outcome = Outcome(node: NodeState, sent: set<Envelope>, replies: set<Reply>)

  function Quiet(n: NodeState): Outcome { Outcome(n, {}, {}) }

  function Majority(n: NodeState): nat { (|n.peers| + 1) / 2 + 1 }

  function Fresh(id: NodeId, peers: set<NodeId>, term: nat, votedFor: Option<NodeId>, log: Log): NodeState {
    NodeState(id, peers, term, votedFor, log, Follower, None, 0, 0, EMPTY_STORE, map[], map[], [], map[])
  }

  /** A crash loses everything but the term, the vote and the log. */
  function Restart(n: NodeState): NodeState {
    Fresh(n.id, n.peers, n.term, n.votedFor, n.log)
  }

  function StepDown(n: NodeState, term: nat): NodeState {
    n.(term := term, votedFor := None, role := Follower)
  }

  function ObserveTerm(n: NodeState, term: nat): NodeState {
    if term > n.term then StepDown(n, term) else n
  }

  // ----- applying committed entries -----

  function ApplyEntry(store: Store, entry: LogEntry): Store {
    if entry.index <= store.lastApplied then store else
    Store(ApplyCommand(store.data, entry.command), entry.index)
  }

  /** Applies the entries at from + 1 .. to, skipping indices the log lacks. */
  function ApplyRange(store: Store, log: Log, from: nat, to: nat): Store
    decreases to - from
  {
    if from >= to then store else
    var next := if from < |log| then ApplyEntry(store, log[from]) else store;
    ApplyRange(next, log, from + 1, to)
  }

  function ApplyCommitted(n: NodeState): NodeState {
    n.(store := ApplyRange(n.store, n.log, n.applied, n.commit), applied := Max(n.applied, n.commit))
  }

  // ----- replication -----

  function EntriesFrom(log: Log, next: nat): seq<LogEntry>
    requires next >= 1
  {
    if next > |log| then [] else log[next - 1..Min(|log|, next - 1 + MAX_BATCH)]
  }

  function NextFor(n: NodeState, peer: NodeId): nat {
    if peer in n.next && n.next[peer] >= 1 then n.next[peer] else 1
  }

  function AppendMessage(n: NodeState, peer: NodeId): Message {
    var prev := NextFor(n, peer) - 1;
    var prevTerm := match TermAt(n.log, prev) case Some(t) => t case None => 0;
    AppendEntries(n.term, n.id, prev, prevTerm, EntriesFrom(n.log, prev + 1), n.commit)
  }

  function Heartbeats(n: NodeState): set<Envelope> {
    if n.role != Leader then {} else
    set peer | peer in n.peers :: Envelope(n.id, peer, AppendMessage(n, peer))
  }

  function AppendReply(n: NodeState, to: NodeId, term: nat, success: bool, last: nat): set<Envelope> {
    {Envelope(n.id, to, AppendEntriesResponse(term, success, last, n.id))}
  }

  ghost predicate Accepts(n: NodeState, m: Message)
    requires m.AppendEntries?
  {
    m.term >= n.term && (m.prevLogIndex > 0 ==> HasEntry(n.log, m.prevLogIndex, m.prevLogTerm))
  }

  function CommitAfter(r: Repairs, commit: nat, leaderCommit: nat, last: nat, covered: nat): nat {
    if leaderCommit <= commit then commit
    else if r.commitClamp then Max(commit, Min(leaderCommit, covered))
    else Min(leaderCommit, last)
  }

  /** An accepted message's effect on term, log and commit index. */
  ghost function Absorb(r: Repairs, n: NodeState, m: Message): NodeState
    requires m.AppendEntries? && Accepts(n, m)
  {
    var log := Merge(n.log, m.prevLogIndex, m.entries);
    ObserveTerm(n, m.term).(
      leaderId := Some(m.leaderId),
      log := log,
      commit := CommitAfter(r, n.commit, m.leaderCommit, |log|, m.prevLogIndex + |m.entries|))
  }

  ghost function OnAppendEntries(r: Repairs, n: NodeState, from: NodeId, m: Message): Outcome
    requires m.AppendEntries?
  {
    if m.term < n.term then Outcome(n, AppendReply(n, from, n.term, false, |n.log|), {}) else
    var n1 := ObserveTerm(n, m.term).(leaderId := Some(m.leaderId));
    if !Accepts(n, m) then Outcome(n1, AppendReply(n1, from, n1.term, false, |n1.log|), {}) else
    var n2 := ApplyCommitted(Absorb(r, n, m));
    Outcome(n2,
            AppendReply(n2, from, if r.replyTerm then n2.term else n.term, true,
                        if r.coverReport then m.prevLogIndex + |m.entries| else |n2.log|),
            {})
  }

  /** What accepting a message does to a node, and the reply it sends. */
  lemma AcceptedOutcome(r: Repairs, n: NodeState, from: NodeId, m: Message)
    requires m.AppendEntries? && Accepts(n, m)
    ensures m.prevLogIndex <= |n.log|
    ensures var n' := OnAppendEntries(r, n, from, m).node;
            && n'.id == n.id && n'.peers == n.peers && n'.term == m.term
            && n'.votedFor == (if m.term > n.term then None else n.votedFor)
            && n'.role == (if m.term > n.term then Follower else n.role)
            && n'.log == Merge(n.log, m.prevLogIndex, m.entries)
            && n'.commit == CommitAfter(r, n.commit, m.leaderCommit, |n'.log|, m.prevLogIndex + |m.entries|)
            && n'.matched == n.matched && n'.pending == n.pending
    ensures var out := OnAppendEntries(r, n, from, m);
            out.sent == AppendReply(out.node, from, if r.replyTerm then m.term else n.term, true,
                                    if r.coverReport then m.prevLogIndex + |m.entries| else |out.node.log|)
  {
  }

  /** The peers known to hold the log up to index i. */
  function Holders(matched: map<NodeId, nat>, i: nat): set<NodeId> {
    set p | p in matched && matched[p] >= i
  }

  predicate Committable(n: NodeState, i: nat) {
    TermAt(n.log, i) == Some(n.term) && 1 + |Holders(n.matched, i)| >= Majority(n)
  }

  /** The downward scan: the greatest committable index in (commit, i]. */
  function ScanDown(n: NodeState, i: nat): Option<nat> {
    if i <= n.commit then None
    else if Committable(n, i) then Some(i)
    else ScanDown(n, i - 1)
  }

  function Settled(pending: map<nat, Client>, upTo: nat): set<Reply> {
    set i | i in pending && i <= upTo :: Reply(pending[i], Success(i))
  }

  function Unsettled(pending: map<nat, Client>, upTo: nat): map<nat, Client> {
    pending - (set i | i in pending && i <= upTo)
  }

  function TryAdvance(n: NodeState): Outcome {
    if n.role != Leader then Quiet(n) else
    match ScanDown(n, |n.log|)
    case None => Quiet(n)
    case Some(i) =>
      var n1 := ApplyCommitted(n.(commit := i));
      Outcome(n1.(pending := Unsettled(n1.pending, i)), {}, Settled(n1.pending, i))
  }

  function OnAppendResponse(r: Repairs, n: NodeState, from: NodeId, m: Message): Outcome
    requires m.AppendEntriesResponse?
  {
    if n.role != Leader then Quiet(n)
    else if m.term > n.term then Quiet(StepDown(n, m.term))
    else if r.sameTerm && m.term != n.term then Quiet(n)
    else if m.success then
      TryAdvance(n.(matched := n.matched[from := m.lastLogIndex],
                    next := n.next[from := m.lastLogIndex + 1]))
    else if from in n.next then
      Quiet(n.(next := n.next[from := if n.next[from] >= 2 then n.next[from] - 1 else 1]))
    else Quiet(n)
  }

  function OnPropose(n: NodeState, client: Client): Outcome {
    if n.role != Leader then Outcome(n, {}, {Reply(client, NotLeader(n.leaderId))}) else
    var index := |n.log| + 1;
    var n1 := n.(log := n.log + [LogEntry(index, n.term, client.wants)],
                 pending := n.pending[index := client]);
    Outcome(n1, Heartbeats(n1), {})
  }

  // ----- elections -----

  ghost predicate SetAt(m: map<NodeId, nat>, keys: set<NodeId>, value: nat, m': map<NodeId, nat>) {
    && m'.Keys == m.Keys + keys
    && forall k | k in m' :: m'[k] == if k in keys then value else m[k]
  }

  lemma {:induction false} CanSetAt(m: map<NodeId, nat>, keys: set<NodeId>, value: nat)
    ensures exists m' :: SetAt(m, keys, value, m')
  {
    if keys == {} {
      assert SetAt(m, keys, value, m);
    } else {
      var k :| k in keys;
      CanSetAt(m, keys - {k}, value);
      var m' :| SetAt(m, keys - {k}, value, m');
      assert SetAt(m, keys, value, m'[k := value]);
    }
  }

  /** m with every key in keys set to value. */
  ghost function WithAll(m: map<NodeId, nat>, keys: set<NodeId>, value: nat): (m': map<NodeId, nat>)
    ensures SetAt(m, keys, value, m')
  {
    CanSetAt(m, keys, value);
    var m' :| SetAt(m, keys, value, m');
    m'
  }

  ghost function BecomeLeader(r: Repairs, n: NodeState): Outcome {
    var n1 := n.(role := Leader,
                 leaderId := Some(n.id),
                 next := WithAll(n.next, n.peers, |n.log| + 1),
                 matched := WithAll(n.matched, n.peers, 0),
                 pending := if r.pendingReset then map[] else n.pending);
    Outcome(n1, Heartbeats(n1), {})
  }

  function Solicit(n: NodeState): set<Envelope> {
    set peer | peer in n.peers :: Envelope(n.id, peer, RequestVote(n.term, n.id, |n.log|, LastTerm(n.log)))
  }

  ghost function StartElection(r: Repairs, n: NodeState): Outcome {
    var n1 := n.(term := n.term + 1, votedFor := Some(n.id), role := Candidate, votes := [n.id]);
    if n.peers == {} then BecomeLeader(r, n1) else Outcome(n1, Solicit(n1), {})
  }

  function VoteReply(n: NodeState, to: NodeId, granted: bool): set<Envelope> {
    {Envelope(n.id, to, RequestVoteResponse(n.term, granted, n.id))}
  }

  predicate Grants(n: NodeState, m: Message)
    requires m.RequestVote?
  {
    (n.votedFor == None || n.votedFor == Some(m.candidateId))
    && UpToDate(m.lastLogTerm, m.lastLogIndex, n.log)
  }

  function OnRequestVote(n: NodeState, from: NodeId, m: Message): Outcome
    requires m.RequestVote?
  {
    if m.term < n.term then Outcome(n, VoteReply(n, from, false), {}) else
    var n1 := ObserveTerm(n, m.term);
    if Grants(n1, m) then
      Outcome(n1.(votedFor := Some(m.candidateId)), VoteReply(n1, from, true), {})
    else
      Outcome(n1, VoteReply(n1, from, false), {})
  }

  function AddVote(votes: seq<NodeId>, from: NodeId): seq<NodeId> {
    if from in votes then votes else votes + [from]
  }

  /** The test that turns a candidate into a leader. */
  predicate Wins(r: Repairs, n: NodeState) {
    |n.votes| + (if r.selfVote then 0 else 1) >= Majority(n)
  }

  ghost function OnVoteResponse(r: Repairs, n: NodeState, from: NodeId, m: Message): Outcome
    requires m.RequestVoteResponse?
  {
    if n.role != Candidate then Quiet(n)
    else if m.term > n.term then Quiet(StepDown(n, m.term))
    else if m.voteGranted && (r.voteTerm ==> m.term == n.term) then
      var n1 := n.(votes := AddVote(n.votes, from));
      if Wins(r, n1) then BecomeLeader(r, n1) else Quiet(n1)
    else Quiet(n)
  }

  ghost function OnMessage(r: Repairs, n: NodeState, e: Envelope): Outcome {
    match e.message
    case AppendEntries(_, _, _, _, _, _) => OnAppendEntries(r, n, e.from, e.message)
    case AppendEntriesResponse(_, _, _, _) => OnAppendResponse(r, n, e.from, e.message)
    case RequestVote(_, _, _, _) => OnRequestVote(n, e.from, e.message)
    case RequestVoteResponse(_, _, _) => OnVoteResponse(r, n, e.from, e.message)
  }
}
