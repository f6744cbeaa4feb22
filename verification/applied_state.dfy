/** The key-value store of a node is the fold of the log entries it applied,
    and nothing it applied is ever rewritten. */
module AppliedState {
  import opened RaftTypes
  import opened LogSpec
  import opened NodeSpec
  import opened Cluster
  import opened History
  import opened LogMatching
  import opened Acknowledgements
  import opened Commitment
  import opened Persistence
  import opened Stores

  lemma LogIndexed(h: Past, log: Log)
    requires LogOk(h, log)
    ensures Indexed(log, 0)
  {
    forall i: nat | i < |log| ensures log[i].index == i + 1 { assert EntryOk(h, log, i); }
  }

  lemma MergedStores(members: set<NodeId>, h: Past, acks: Acks, n: NodeState, e: Envelope)
    requires PastOk(members, h) && AcksOk(members, h, acks) && NodeOk(members, h, n) && MessageOk(members, h, e)
    requires e.message.AppendEntries? && Accepts(n, e.message) && CommitTrue(members, h, acks, n)
    ensures e.message.prevLogIndex <= |n.log| && n.commit <= |n.log|
    ensures var merged := Merge(n.log, e.message.prevLogIndex, e.message.entries);
            && n.commit <= |merged| && merged[..n.commit] == n.log[..n.commit]
            && e.message.prevLogIndex + |e.message.entries| <= |merged|
            && Indexed(merged, 0)
  {
    MergeKeepsCommitted(members, h, acks, n, e);
    AcceptedMerge(members, h, n, e);
    MergedOk(members, h, n, e);
    LogIndexed(h, Merge(n.log, e.message.prevLogIndex, e.message.entries));
  }

  lemma AbsorbStores(r: Repairs, members: set<NodeId>, h: Past, acks: Acks, n: NodeState, e: Envelope)
    requires Sound(r, members)
    requires PastOk(members, h) && AcksOk(members, h, acks) && NodeOk(members, h, n) && MessageOk(members, h, e)
    requires e.message.AppendEntries? && Accepts(n, e.message)
    requires CommitTrue(members, h, acks, n) && StoreTrue(n)
    ensures var n' := Absorb(r, n, e.message);
            && n'.applied == n.applied && n'.store == n.store
            && n.commit <= n'.commit <= |n'.log|
            && n'.log[..n.commit] == n.log[..n.commit]
            && Indexed(n'.log, 0)
  {
    MergedStores(members, h, acks, n, e);
  }

  /** Accepting entries keeps the applied prefix, then applies what is new. */
  lemma AcceptStores(r: Repairs, members: set<NodeId>, h: Past, acks: Acks, n: NodeState, e: Envelope)
    requires Sound(r, members)
    requires PastOk(members, h) && AcksOk(members, h, acks) && NodeOk(members, h, n) && MessageOk(members, h, e)
    requires e.message.AppendEntries? && Accepts(n, e.message)
    requires CommitTrue(members, h, acks, n) && StoreTrue(n)
    ensures var n' := ApplyCommitted(Absorb(r, n, e.message));
            && StoreTrue(n')
            && n.commit <= n'.commit && n.commit <= |n'.log| && n'.log[..n.commit] == n.log[..n.commit]
  {
    AbsorbStores(r, members, h, acks, n, e);
    ApplyCommittedTrue(Absorb(r, n, e.message));
  }

  lemma StateKeepsCommitted(r: Repairs, members: set<NodeId>, h: Past, acks: Acks, s: State)
    requires Sound(r, members) && Inv(members, h, s) && InvAcks(members, h, acks, s) && InvCommit(members, h, acks, s)
    requires StoresTrue(s) && AllInPlace(s)
    ensures CommitsStay(r, s)
  {
    forall e ensures EntriesKeep(r, s, e) {
      if e in s.network && e.to in s.nodes && e.message.AppendEntries? && Accepts(s.nodes[e.to], e.message) {
        var n := s.nodes[e.to];
        assert CommitTrue(members, h, acks, n) && StoreTrue(n) && MessageOk(members, h, e);
        AcceptStores(r, members, h, acks, n, e);
      }
    }
    CommitsStayIf(r, s);
  }

  /** Along every run nothing committed is ever undone, and each store is the
      replay of the applied prefix. */
  lemma {:induction false} RunStores(r: Repairs, members: set<NodeId>, evs: seq<Event>)
    requires Sound(r, members)
    ensures StoresTrue(Run(r, members, evs)) && CommitsStay(r, Run(r, members, evs))
  {
    if evs != [] { RunStores(r, members, evs[..|evs| - 1]); }
    RunFollows(r, members, evs);
    RunSafe(r, members, evs);
    StateKeepsCommitted(r, members, PastOf(r, members, evs), AcksOf(r, members, evs), Run(r, members, evs));
  }
}
