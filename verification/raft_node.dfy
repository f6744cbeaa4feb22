/** One node, as the daemon runs it. Every handler is proved to do to the
    node's fields what its specification does to the node's state. */
module Node {
  import opened RaftTypes
  import opened LogSpec
  import opened NodeSpec
  import opened Disk
  import opened LogStorage
  import opened KeyValue
  import opened StoreSpec
  import Cluster

  class RaftNode {
    const nodeId: NodeId
    const peers: set<NodeId>
    const log: RaftLog
    const stateMachine: StateMachine
    var role: NodeRole
    var commitIndex: nat
    var lastApplied: nat
    var leaderId: Option<NodeId>
    var nextIndex: map<NodeId, nat>
    var matchIndex: map<NodeId, nat>
    var votesReceived: seq<NodeId>
    var pendingRequests: map<nat, Client>
    /** Everything handed to the network so far, and every answer to a client. */
    var outgoing: set<Envelope>
    var answered: set<Reply>

    ghost predicate Valid()
      reads this, log, stateMachine
    {
      Contiguous(log.Memory()) && log.Persisted()
    }

    ghost function Entries(): Log
      requires Valid()
      reads this, log, stateMachine
    {
      AsLog(log.Memory())
    }

    ghost function View(): NodeState
      requires Valid()
      reads this, log, stateMachine
    {
      NodeState(nodeId, peers, log.state.currentTerm, log.state.votedFor, Entries(), role, leaderId,
                commitIndex, lastApplied, stateMachine.Contents(), nextIndex, matchIndex, votesReceived,
                pendingRequests)
    }

    /** Starts a node on whatever files it finds. On a log without gaps, as a
        node leaves it, it starts with that log and nothing else. */
    constructor (nodeId: NodeId, peers: set<NodeId>, savedLog: seq<Line>, savedState: Option<PersistentState>)
      ensures fresh(log) && fresh(stateMachine) && log.Persisted()
      ensures log.logFile == savedLog && log.stateFile == savedState
      ensures Contiguous(Load(savedLog)) ==>
                var saved := match savedState case Some(p) => p case None => DEFAULT_STATE;
                && Valid()
                && View() == Fresh(nodeId, peers, saved.currentTerm, saved.votedFor, AsLog(Load(savedLog)))
      ensures outgoing == {} && answered == {}
    {
      this.nodeId, this.peers := nodeId, peers;
      log := new RaftLog(savedLog, savedState);
      stateMachine := new StateMachine();
      role, commitIndex, lastApplied, leaderId := Follower, 0, 0, None;
      nextIndex, matchIndex, votesReceived, pendingRequests := map[], map[], [], map[];
      outgoing, answered := {}, {};
    }

    /** A node started where there are no files is the node a cluster starts from. */
    static method FirstStart(nodeId: NodeId, members: set<NodeId>) returns (node: RaftNode)
      requires nodeId in members
      ensures fresh(node) && node.Valid() && node.View() == Cluster.Init(members).nodes[nodeId]
      ensures node.View().term == 0 && node.View().votedFor == None && node.View().log == []
    {
      node := new RaftNode(nodeId, members - {nodeId}, [], None);
    }

    /** A node started on the files another left behind is that node restarted. */
    static method Recover(crashed: RaftNode) returns (node: RaftNode)
      requires crashed.Valid()
      ensures fresh(node) && node.Valid() && node.View() == Restart(crashed.View())
    {
      node := new RaftNode(crashed.nodeId, crashed.peers, crashed.log.logFile, crashed.log.stateFile);
    }

    // ----- sending -----

    method Send(to: NodeId, message: Message)
      modifies this`outgoing
      ensures outgoing == old(outgoing) + {Envelope(nodeId, to, message)}
    {
      outgoing := outgoing + {Envelope(nodeId, to, message)};
    }

    method SendAppendEntriesResponse(to: NodeId, term: nat, success: bool)
      modifies this`outgoing
      ensures outgoing == old(outgoing) +
                {Envelope(nodeId, to, AppendEntriesResponse(term, success, log.lastIndex, nodeId))}
    {
      Send(to, AppendEntriesResponse(term, success, log.lastIndex, nodeId));
    }

    method SendRequestVoteResponse(to: NodeId, term: nat, granted: bool)
      modifies this`outgoing
      ensures outgoing == old(outgoing) + {Envelope(nodeId, to, RequestVoteResponse(term, granted, nodeId))}
    {
      Send(to, RequestVoteResponse(term, granted, nodeId));
    }

    /** At most one batch of entries from index next on. */
    method BatchFrom(next: nat) returns (batch: seq<LogEntry>)
      requires Valid()
      ensures batch == EntriesFrom(Entries(), Max(next, 1))
    {
      var found := log.GetEntries(next, log.lastIndex);
      batch := found[..Min(|found|, MAX_BATCH)];
    }

    /** The AppendEntries for one peer. */
    method MessageFor(peer: NodeId) returns (message: Message)
      requires Valid()
      ensures message == AppendMessage(View(), peer)
    {
      var next := if peer in nextIndex then nextIndex[peer] else 1;
      var prev := if next >= 1 then next - 1 else 0;
      log.ReadsAgree(prev, 0);
      var prevTerm := match log.TermAt(prev) case Some(t) => t case None => 0;
      var batch := BatchFrom(next);
      message := AppendEntries(log.state.currentTerm, nodeId, prev, prevTerm, batch, commitIndex);
    }

    method SendHeartbeats()
      requires Valid()
      modifies this`outgoing
      ensures outgoing == old(outgoing) + Heartbeats(View())
    {
      if role != Leader {
        return;
      }
      ghost var n, before, done := View(), outgoing, {};
      var remaining := peers;
      while remaining != {}
        invariant done + remaining == peers && View() == n
        invariant outgoing == before + (set peer | peer in done :: Envelope(nodeId, peer, AppendMessage(n, peer)))
        decreases remaining
      {
        var peer :| peer in remaining;
        var message := MessageFor(peer);
        Send(peer, message);
        remaining, done := remaining - {peer}, done + {peer};
      }
      assert done == peers;
    }

    // ----- applying -----

    method ApplyCommittedEntries()
      modifies this`lastApplied, stateMachine
      ensures lastApplied == Max(old(lastApplied), commitIndex)
      ensures old(Valid()) ==> Valid() && View() == ApplyCommitted(old(View()))
    {
      ghost var entries := if Valid() then Entries() else [];
      while lastApplied < commitIndex
        invariant old(Valid()) == Valid() && Max(lastApplied, commitIndex) == Max(old(lastApplied), commitIndex)
        invariant Valid() ==> Entries() == entries
        invariant Valid() ==>
                    ApplyRange(stateMachine.Contents(), entries, lastApplied, commitIndex) ==
                    ApplyRange(old(stateMachine.Contents()), entries, old(lastApplied), commitIndex)
      {
        lastApplied := lastApplied + 1;
        if lastApplied in log.entries {
          var _ := stateMachine.Apply(log.entries[lastApplied]);
        }
      }
    }

    method NotifyPendingRequests(upTo: nat)
      modifies this`pendingRequests, this`answered
      ensures pendingRequests == Unsettled(old(pendingRequests), upTo)
      ensures answered == old(answered) + Settled(old(pendingRequests), upTo)
    {
      ghost var before, told := pendingRequests, answered;
      ghost var done: set<nat> := {};
      var indices: set<nat> := set i | i in pendingRequests && i <= upTo;
      ghost var all: set<nat> := indices;
      while indices != {}
        invariant done + indices == all && done !! indices
        invariant pendingRequests == before - done
        invariant answered == told + (set i | i in done :: Reply(before[i], Success(i)))
        decreases indices
      {
        var i :| i in indices;
        answered := answered + {Reply(pendingRequests[i], Success(i))};
        pendingRequests := pendingRequests - {i};
        indices, done := indices - {i}, done + {i};
      }
      assert done == all;
    }

    // ----- replication -----

    /** Cuts the log at the first entry whose term clashes, if any does. */
    method DeleteConflicting(es: seq<LogEntry>)
      modifies log`entries, log`lastIndex, log`logFile
      ensures var c := FirstClash(old(log.Memory()), es, 0);
              log.Stored() == if c < |es| then Cut(old(log.Stored()), es[c].index) else old(log.Stored())
    {
      for i := 0 to |es|
        invariant log.Stored() == old(log.Stored())
        invariant FirstClash(log.Memory(), es, 0) == FirstClash(log.Memory(), es, i)
      {
        var existing := log.TermAt(es[i].index);
        if existing.Some? && existing.value != es[i].term {
          log.TruncateFrom(es[i].index);
          return;
        }
      }
    }

    /** Deletes conflicting entries, then writes the new ones. Entries in place
        behind an index of the log are merged into it. */
    method MergeEntries(es: seq<LogEntry>)
      modifies log`entries, log`lastIndex, log`logFile
      ensures log.Stored() == Merged(old(log.Stored()), es)
      ensures old(Valid()) ==> log.Persisted()
      ensures forall prev: nat | old(Valid()) && prev <= |old(Entries())| && Indexed(es, prev) ::
                Valid() && Entries() == Merge(old(Entries()), prev, es)
    {
      ghost var before := log.Stored();
      if es != [] {
        DeleteConflicting(es);
        log.AppendEntries(es);
      }
      assert Lines([]) == [];
      if old(Valid()) { MergedAgrees(before, es); }
      forall prev: nat | old(Valid()) && prev <= |AsLog(before.memory)| && Indexed(es, prev)
        ensures Valid() && Entries() == Merge(AsLog(before.memory), prev, es)
      {
        MergedIsMerge(before, prev, es);
      }
    }

    /** A message from a later term makes the node a follower in that term. */
    method UpdateTerm(term: nat)
      requires Valid()
      modifies this`role, log`state, log`stateFile
      ensures Valid() && View() == ObserveTerm(old(View()), term)
    {
      if term > log.state.currentTerm {
        log.SetCurrentTerm(term);
        role := Follower;
      }
    }

    /** Takes in the entries and the commit index of a message that matches. */
    method TakeEntries(m: Message, ghost before: NodeState)
      requires Valid() && m.AppendEntries?
      requires Accepts(before, m) && View() == ObserveTerm(before, m.term).(leaderId := Some(m.leaderId))
      modifies this`commitIndex, log`entries, log`lastIndex, log`logFile
      ensures log.Stored() == Merged(old(log.Stored()), m.entries) && log.Persisted()
      ensures commitIndex == CommitAfter(AS_WRITTEN, before.commit, m.leaderCommit, log.lastIndex,
                                         m.prevLogIndex + |m.entries|)
      ensures Indexed(m.entries, m.prevLogIndex) ==> Valid() && View() == Absorb(AS_WRITTEN, before, m)
    {
      MergeEntries(m.entries);
      if m.leaderCommit > commitIndex {
        commitIndex := Min(m.leaderCommit, log.lastIndex);
      }
    }

    /** Takes in a message that matches, applies what it commits and replies. */
    method AcceptEntries(from: NodeId, m: Message, currentTerm: nat, ghost before: NodeState)
      requires Valid() && m.AppendEntries?
      requires Accepts(before, m) && View() == ObserveTerm(before, m.term).(leaderId := Some(m.leaderId))
      modifies this`commitIndex, this`lastApplied, this`outgoing, stateMachine
      modifies log`entries, log`lastIndex, log`logFile
      ensures log.Stored() == Merged(old(log.Stored()), m.entries) && log.Persisted()
      ensures Indexed(m.entries, m.prevLogIndex) ==>
                Valid() && View() == ApplyCommitted(Absorb(AS_WRITTEN, before, m))
      ensures outgoing == old(outgoing) +
                {Envelope(nodeId, from, AppendEntriesResponse(currentTerm, true, log.lastIndex, nodeId))}
    {
      TakeEntries(m, before);
      ApplyCommittedEntries();
      SendAppendEntriesResponse(from, currentTerm, true);
    }

    /** Entries in place behind prev are handled as specified; whatever comes,
        what is written is their merge and memory and file agree. */
    method HandleAppendEntries(from: NodeId, m: Message)
      requires Valid() && m.AppendEntries?
      modifies this, log, stateMachine
      ensures answered == old(answered) && log.Persisted()
      ensures log.Stored() == if Accepts(old(View()), m) then Merged(old(log.Stored()), m.entries)
                              else old(log.Stored())
      ensures Indexed(m.entries, m.prevLogIndex) ==>
                && Valid()
                && View() == OnAppendEntries(AS_WRITTEN, old(View()), from, m).node
                && outgoing == old(outgoing) + OnAppendEntries(AS_WRITTEN, old(View()), from, m).sent
    {
      ghost var before := View();
      var currentTerm := log.state.currentTerm;
      if m.term < currentTerm {
        SendAppendEntriesResponse(from, currentTerm, false);
        return;
      }
      UpdateTerm(m.term);
      leaderId := Some(m.leaderId);
      log.ReadsAgree(m.prevLogIndex, m.prevLogTerm);
      if m.prevLogIndex > 0 && !log.HasEntry(m.prevLogIndex, m.prevLogTerm) {
        SendAppendEntriesResponse(from, log.state.currentTerm, false);
        return;
      }
      AcceptEntries(from, m, currentTerm, before);
    }

    method CountHolders(i: nat) returns (count: nat)
      ensures count == |Holders(matchIndex, i)|
    {
      count := 0;
      ghost var done := {};
      var remaining := matchIndex.Keys;
      while remaining != {}
        invariant done + remaining == matchIndex.Keys && done !! remaining
        invariant count == |set p | p in done && matchIndex[p] >= i|
        decreases remaining
      {
        var p :| p in remaining;
        ghost var held := set q | q in done && matchIndex[q] >= i;
        ghost var held' := set q | q in done + {p} && matchIndex[q] >= i;
        if matchIndex[p] >= i {
          count := count + 1;
          assert held' == held + {p};
        } else {
          assert held' == held;
        }
        remaining, done := remaining - {p}, done + {p};
      }
      assert (set p | p in done && matchIndex[p] >= i) == Holders(matchIndex, i);
    }

    method AdvanceTo(i: nat)
      requires Valid()
      modifies this`commitIndex, this`lastApplied, this`pendingRequests, this`answered, stateMachine
      ensures Valid()
      ensures var n := ApplyCommitted(old(View()).(commit := i));
              View() == n.(pending := Unsettled(n.pending, i))
      ensures answered == old(answered) + Settled(old(pendingRequests), i)
    {
      commitIndex := i;
      ApplyCommittedEntries();
      NotifyPendingRequests(i);
    }

    method TryAdvanceCommitIndex()
      requires Valid()
      modifies this, stateMachine
      ensures Valid() && outgoing == old(outgoing)
      ensures View() == TryAdvance(old(View())).node
      ensures answered == old(answered) + TryAdvance(old(View())).replies
    {
      if role != Leader {
        return;
      }
      ghost var n := View();
      var majority := (|peers| + 1) / 2 + 1;
      var i: nat := log.lastIndex;
      while i > commitIndex
        invariant Valid() && View() == n && outgoing == old(outgoing) && answered == old(answered)
        invariant i <= |n.log| && ScanDown(n, |n.log|) == ScanDown(n, i)
      {
        log.ReadsAgree(i, 0);
        if log.TermAt(i) == Some(log.state.currentTerm) {
          var count := CountHolders(i);
          if 1 + count >= majority {
            AdvanceTo(i);
            return;
          }
        }
        i := i - 1;
      }
    }

    method HandleAppendEntriesResponse(from: NodeId, m: Message)
      requires Valid() && m.AppendEntriesResponse?
      modifies this, log, stateMachine
      ensures Valid() && outgoing == old(outgoing)
      ensures View() == OnAppendResponse(AS_WRITTEN, old(View()), from, m).node
      ensures answered == old(answered) + OnAppendResponse(AS_WRITTEN, old(View()), from, m).replies
    {
      if role != Leader {
        return;
      }
      if m.term > log.state.currentTerm {
        log.SetCurrentTerm(m.term);
        role := Follower;
        return;
      }
      if m.success {
        matchIndex := matchIndex[from := m.lastLogIndex];
        nextIndex := nextIndex[from := m.lastLogIndex + 1];
        TryAdvanceCommitIndex();
      } else if from in nextIndex {
        nextIndex := nextIndex[from := if nextIndex[from] >= 2 then nextIndex[from] - 1 else 1];
      }
    }

    method Propose(client: Client)
      requires Valid()
      modifies this, log
      ensures Valid() && View() == OnPropose(old(View()), client).node
      ensures outgoing == old(outgoing) + OnPropose(old(View()), client).sent
      ensures answered == old(answered) + OnPropose(old(View()), client).replies
    {
      if role != Leader {
        answered := answered + {Reply(client, NotLeader(leaderId))};
        return;
      }
      ghost var n := View();
      var index := log.Append(log.state.currentTerm, client.wants);
      pendingRequests := pendingRequests[index := client];
      assert View() == OnPropose(n, client).node;
      SendHeartbeats();
    }

    /** A client reads what the last applied write to the key left, whenever the
        store is the replay of the applied prefix of the log. */
    method GetValue(key: Key) returns (value: Option<Value>)
      requires Valid()
      ensures lastApplied <= |Entries()| && stateMachine.data == Replay(Entries()[..lastApplied]) ==>
                value == LastWrite(Entries()[..lastApplied], key)
    {
      value := stateMachine.Get(key);
    }

    // ----- elections -----

    /** Every peer is to be sent what follows the leader's log and has matched nothing. */
    method InitializePeers()
      requires Valid()
      modifies this`nextIndex, this`matchIndex
      ensures nextIndex == WithAll(old(nextIndex), peers, |Entries()| + 1)
      ensures matchIndex == WithAll(old(matchIndex), peers, 0)
    {
      nextIndex := SetAll(nextIndex, peers, log.lastIndex + 1);
      matchIndex := SetAll(matchIndex, peers, 0);
    }

    static method SetAll(m: map<NodeId, nat>, keys: set<NodeId>, value: nat) returns (m': map<NodeId, nat>)
      ensures m' == WithAll(m, keys, value)
    {
      m' := m;
      var remaining := keys;
      while remaining != {}
        invariant remaining <= keys && SetAt(m, keys - remaining, value, m')
        decreases remaining
      {
        var k :| k in remaining;
        m' := m'[k := value];
        remaining := remaining - {k};
      }
      assert m' == WithAll(m, keys, value);
    }

    method BecomeLeader()
      requires Valid()
      modifies this`role, this`leaderId, this`nextIndex, this`matchIndex, this`outgoing
      ensures Valid() && View() == NodeSpec.BecomeLeader(AS_WRITTEN, old(View())).node
      ensures outgoing == old(outgoing) + NodeSpec.BecomeLeader(AS_WRITTEN, old(View())).sent
    {
      ghost var n := View();
      role := Leader;
      leaderId := Some(nodeId);
      InitializePeers();
      assert View() == NodeSpec.BecomeLeader(AS_WRITTEN, n).node;
      SendHeartbeats();
    }

    method SendToAll(request: Message)
      modifies this`outgoing
      ensures outgoing == old(outgoing) + (set peer | peer in peers :: Envelope(nodeId, peer, request))
    {
      ghost var done: set<NodeId> := {};
      var remaining := peers;
      while remaining != {}
        invariant done + remaining == peers
        invariant outgoing == old(outgoing) + (set peer | peer in done :: Envelope(nodeId, peer, request))
        decreases remaining
      {
        var peer :| peer in remaining;
        Send(peer, request);
        remaining, done := remaining - {peer}, done + {peer};
      }
      assert done == peers;
    }

    method StartElection()
      requires Valid()
      modifies this, log
      ensures Valid() && View() == NodeSpec.StartElection(AS_WRITTEN, old(View())).node
      ensures outgoing == old(outgoing) + NodeSpec.StartElection(AS_WRITTEN, old(View())).sent
      ensures answered == old(answered)
    {
      ghost var n := View();
      var newTerm := log.state.currentTerm + 1;
      log.SetCurrentTerm(newTerm);
      log.SetVotedFor(Some(nodeId));
      role := Candidate;
      votesReceived := [nodeId];
      assert View() == n.(term := n.term + 1, votedFor := Some(n.id), role := Candidate, votes := [n.id]);
      log.ReadsAgree(0, 0);
      SendToAll(RequestVote(newTerm, nodeId, log.lastIndex, log.LastTerm()));
      if peers == {} {
        BecomeLeader();
      }
    }

    method HandleRequestVote(from: NodeId, m: Message)
      requires Valid() && m.RequestVote?
      modifies this, log
      ensures Valid() && answered == old(answered)
      ensures View() == OnRequestVote(old(View()), from, m).node
      ensures outgoing == old(outgoing) + OnRequestVote(old(View()), from, m).sent
    {
      var currentTerm := log.state.currentTerm;
      if m.term < currentTerm {
        SendRequestVoteResponse(from, currentTerm, false);
        return;
      }
      UpdateTerm(m.term);
      log.ReadsAgree(0, 0);
      var votedFor := log.state.votedFor;
      var canVote := votedFor == None || votedFor == Some(m.candidateId);
      var lastTerm := log.LastTerm();
      var logOk := m.lastLogTerm > lastTerm || (m.lastLogTerm == lastTerm && m.lastLogIndex >= log.lastIndex);
      if canVote && logOk {
        log.SetVotedFor(Some(m.candidateId));
        SendRequestVoteResponse(from, log.state.currentTerm, true);
      } else {
        SendRequestVoteResponse(from, log.state.currentTerm, false);
      }
    }

    method CountVote(from: NodeId)
      requires Valid()
      modifies this`votesReceived
      ensures Valid() && View() == old(View()).(votes := AddVote(old(votesReceived), from))
    {
      if from !in votesReceived {
        votesReceived := votesReceived + [from];
      }
    }

    method HandleRequestVoteResponse(from: NodeId, m: Message)
      requires Valid() && m.RequestVoteResponse?
      modifies this, log
      ensures Valid() && answered == old(answered)
      ensures View() == OnVoteResponse(AS_WRITTEN, old(View()), from, m).node
      ensures outgoing == old(outgoing) + OnVoteResponse(AS_WRITTEN, old(View()), from, m).sent
    {
      if role != Candidate {
        return;
      }
      if m.term > log.state.currentTerm {
        log.SetCurrentTerm(m.term);
        role := Follower;
        return;
      }
      if !m.voteGranted {
        return;
      }
      CountVote(from);
      LeadIfWon();
    }

    /** The candidate's own vote is on the list and is counted again. */
    method LeadIfWon()
      requires Valid()
      modifies this`role, this`leaderId, this`nextIndex, this`matchIndex, this`outgoing
      ensures Valid()
      ensures var n := old(View());
              var out := if Wins(AS_WRITTEN, n) then NodeSpec.BecomeLeader(AS_WRITTEN, n) else Quiet(n);
              View() == out.node && outgoing == old(outgoing) + out.sent
    {
      var totalNodes := |peers| + 1;
      var majority := totalNodes / 2 + 1;
      if |votesReceived| + 1 >= majority {
        BecomeLeader();
      }
    }

    /** Handles one message as specified, if its entries, should it have any, are in place. */
    method HandleMessage(e: Envelope)
      requires Valid()
      modifies this, log, stateMachine
      ensures log.Persisted()
      ensures (e.message.AppendEntries? ==> Indexed(e.message.entries, e.message.prevLogIndex)) ==>
                && Valid()
                && View() == OnMessage(AS_WRITTEN, old(View()), e).node
                && outgoing == old(outgoing) + OnMessage(AS_WRITTEN, old(View()), e).sent
                && answered == old(answered) + OnMessage(AS_WRITTEN, old(View()), e).replies
    {
      match e.message {
        case AppendEntries(_, _, _, _, _, _) => HandleAppendEntries(e.from, e.message);
        case AppendEntriesResponse(_, _, _, _) => HandleAppendEntriesResponse(e.from, e.message);
        case RequestVote(_, _, _, _) => HandleRequestVote(e.from, e.message);
        case RequestVoteResponse(_, _, _) => HandleRequestVoteResponse(e.from, e.message);
      }
    }
  }
}
