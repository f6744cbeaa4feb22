/** A node's store is the replay of what it applied. For any repairs that holds
    from step to step exactly as long as nothing committed is rewritten. */
module Stores {
  import opened RaftTypes
  import opened LogSpec
  import opened StoreSpec
  import opened NodeSpec
  import opened Cluster
  import opened Persistence
  import opened Quorums

  /** Applying a contiguous stretch of entries is the fold, none skipped. */
  lemma {:induction false} ApplyRangeReplays(log: Log, from: nat, to: nat)
    requires Indexed(log, 0) && from <= to <= |log|
    ensures ApplyRange(Store(Replay(log[..from]), from), log, from, to) == Store(Replay(log[..to]), to)
    decreases |log| - from
  {
    if from < to {
      assert log[..from + 1][..from] == log[..from];
      assert ApplyEntry(Store(Replay(log[..from]), from), log[from]) == Store(Replay(log[..from + 1]), from + 1);
      ApplyRangeReplays(log, from + 1, to);
    }
  }

  ghost predicate StoreTrue(n: NodeState) {
    && n.applied == n.commit <= |n.log|
    && n.store == Store(Replay(n.log[..n.applied]), n.applied)
  }

  ghost predicate StoresTrue(s: State) {
    forall v {:trigger StoreTrue(s.nodes[v])} | v in s.nodes :: StoreTrue(s.nodes[v])
  }

  /** What a node had committed it still has, and only a crash takes its commit
      index back. */
  ghost predicate KeepsCommitted(n: NodeState, n': NodeState, crash: bool) {
    && (crash || n.commit <= n'.commit)
    && n.commit <= |n.log| && n.commit <= |n'.log| && n'.log[..n.commit] == n.log[..n.commit]
  }

  ghost predicate EventKeeps(r: Repairs, s: State, ev: Event)
    requires Enabled(s, ev)
  {
    KeepsCommitted(s.nodes[Site(ev)], React(r, s.nodes[Site(ev)], ev).node, ev.Crash?)
  }

  /** Nothing that can happen next undoes what a node has committed. */
  ghost predicate CommitsStay(r: Repairs, s: State) {
    forall ev {:trigger EventKeeps(r, s, ev)} | Enabled(s, ev) :: EventKeeps(r, s, ev)
  }

  // ----- one step -----

  lemma ApplyCommittedTrue(n: NodeState)
    requires Indexed(n.log, 0) && n.applied <= n.commit <= |n.log|
    requires n.store == Store(Replay(n.log[..n.applied]), n.applied)
    ensures StoreTrue(ApplyCommitted(n))
  {
    ApplyRangeReplays(n.log, n.applied, n.commit);
  }

  lemma SameStore(n: NodeState, n': NodeState)
    requires StoreTrue(n) && n'.commit == n.commit && n'.applied == n.applied && n'.store == n.store && n.log <= n'.log
    ensures StoreTrue(n')
  {
    assert n'.log[..n.applied] == n.log[..n.applied];
  }

  /** Entries are accepted without touching what is committed. */
  lemma AcceptFollows(r: Repairs, n: NodeState, from: NodeId, m: Message)
    requires StoreTrue(n) && m.AppendEntries? && Accepts(n, m)
    requires var n' := Absorb(r, n, m);
             Indexed(n'.log, 0) && KeepsCommitted(n, n', false) && n'.commit <= |n'.log|
    ensures StoreTrue(OnAppendEntries(r, n, from, m).node)
  {
    ApplyCommittedTrue(Absorb(r, n, m));
  }

  lemma AdvanceFollows(n: NodeState)
    requires Indexed(n.log, 0) && StoreTrue(n)
    ensures var n' := TryAdvance(n).node;
            StoreTrue(n') && n.commit <= n'.commit && n'.log == n.log
  {
    if ScanDown(n, |n.log|).Some? {
      ScanIsGreatest(n, |n.log|);
      ApplyCommittedTrue(n.(commit := ScanDown(n, |n.log|).value));
    }
  }

  lemma ResponseFollows(r: Repairs, n: NodeState, from: NodeId, m: Message)
    requires Indexed(n.log, 0) && StoreTrue(n) && m.AppendEntriesResponse?
    ensures var n' := OnAppendResponse(r, n, from, m).node;
            StoreTrue(n') && n.commit <= n'.commit && n'.log == n.log
  {
    AdvanceFollows(n.(matched := n.matched[from := m.lastLogIndex], next := n.next[from := m.lastLogIndex + 1]));
  }

  /** The commit index, the applied index and the store stay as they are in
      every step but a crash and the two that replicate. */
  lemma SameApplied(r: Repairs, n: NodeState, ev: Event)
    requires !(ev.Deliver? && (ev.envelope.message.AppendEntries? || ev.envelope.message.AppendEntriesResponse?))
    requires !ev.Crash?
    ensures var n' := React(r, n, ev).node;
            n'.commit == n.commit && n'.applied == n.applied && n'.store == n.store && n.log <= n'.log
  {
  }

  /** No accepted message makes a node commit beyond its log. */
  lemma CommitWithin(r: Repairs, n: NodeState, m: Message)
    requires m.AppendEntries? && Accepts(n, m) && KeepsCommitted(n, Absorb(r, n, m), false)
    ensures Absorb(r, n, m).commit <= |Absorb(r, n, m).log|
  {
  }

  lemma EntriesFollow(r: Repairs, n: NodeState, from: NodeId, m: Message)
    requires StoreTrue(n) && m.AppendEntries? && Indexed(n.log, 0) && InPlace(m)
    requires KeepsCommitted(n, OnAppendEntries(r, n, from, m).node, false)
    ensures StoreTrue(OnAppendEntries(r, n, from, m).node)
  {
    AcceptedIndexed(r, n, from, m);
    if Accepts(n, m) {
      CommitWithin(r, n, m);
      AcceptFollows(r, n, from, m);
    } else {
      SameStore(n, OnAppendEntries(r, n, from, m).node);
    }
  }

  /** A step that keeps what is committed keeps the store the replay of it. */
  lemma StoreFollows(r: Repairs, n: NodeState, ev: Event)
    requires StoreTrue(n) && Indexed(n.log, 0) && (ev.Deliver? ==> InPlace(ev.envelope.message))
    requires KeepsCommitted(n, React(r, n, ev).node, ev.Crash?)
    ensures StoreTrue(React(r, n, ev).node)
  {
    if ev.Deliver? && ev.envelope.message.AppendEntries? {
      EntriesFollow(r, n, ev.envelope.from, ev.envelope.message);
    } else if ev.Deliver? && ev.envelope.message.AppendEntriesResponse? {
      ResponseFollows(r, n, ev.envelope.from, ev.envelope.message);
    } else if !ev.Crash? {
      SameApplied(r, n, ev);
      SameStore(n, React(r, n, ev).node);
    }
  }

  /** Only an accepted AppendEntries can touch what is committed. */
  lemma OthersKeep(r: Repairs, n: NodeState, ev: Event)
    requires StoreTrue(n) && Indexed(n.log, 0)
    requires ev.Deliver? && ev.envelope.message.AppendEntries? ==> !Accepts(n, ev.envelope.message)
    ensures KeepsCommitted(n, React(r, n, ev).node, ev.Crash?)
  {
    if ev.Deliver? && ev.envelope.message.AppendEntriesResponse? {
      ResponseFollows(r, n, ev.envelope.from, ev.envelope.message);
    } else if !ev.Crash? && !(ev.Deliver? && ev.envelope.message.AppendEntries?) {
      SameApplied(r, n, ev);
    }
  }

  ghost predicate EntriesKeep(r: Repairs, s: State, e: Envelope) {
    e in s.network && e.to in s.nodes && e.message.AppendEntries? && Accepts(s.nodes[e.to], e.message) ==>
      KeepsCommitted(s.nodes[e.to], OnAppendEntries(r, s.nodes[e.to], e.from, e.message).node, false)
  }

  /** If no message in the network undoes a commit, nothing does. */
  lemma CommitsStayIf(r: Repairs, s: State)
    requires StoresTrue(s) && AllInPlace(s) && forall e :: EntriesKeep(r, s, e)
    ensures CommitsStay(r, s)
  {
    forall ev | Enabled(s, ev) ensures EventKeeps(r, s, ev) {
      var n := s.nodes[Site(ev)];
      assert StoreTrue(n) && Indexed(n.log, 0);
      if ev.Deliver? && ev.envelope.message.AppendEntries? && Accepts(n, ev.envelope.message) {
        assert EntriesKeep(r, s, ev.envelope);
      } else {
        OthersKeep(r, n, ev);
      }
    }
  }

  // ----- runs -----

  lemma StepFollows(r: Repairs, s: State, ev: Event)
    requires StoresTrue(s) && AllInPlace(s) && (Enabled(s, ev) ==> EventKeeps(r, s, ev))
    ensures StoresTrue(Step(r, s, ev))
  {
    if Enabled(s, ev) {
      var n, s' := s.nodes[Site(ev)], Step(r, s, ev);
      assert StoreTrue(n);
      StoreFollows(r, n, ev);
      forall v | v in s'.nodes ensures StoreTrue(s'.nodes[v]) {
        if v != Site(ev) { assert StoreTrue(s.nodes[v]); }
      }
    }
  }

  lemma InitStores(members: set<NodeId>)
    ensures StoresTrue(Init(members))
  {
  }

  /** The stores of one more step of a run. */
  lemma RunFollows(r: Repairs, members: set<NodeId>, evs: seq<Event>)
    requires evs != [] ==>
               var s := Run(r, members, evs[..|evs| - 1]); StoresTrue(s) && CommitsStay(r, s)
    ensures StoresTrue(Run(r, members, evs)) && AllInPlace(Run(r, members, evs))
  {
    MessagesInPlace(r, members, evs);
    if evs == [] {
      InitStores(members);
    } else {
      var s, ev := Run(r, members, evs[..|evs| - 1]), evs[|evs| - 1];
      MessagesInPlace(r, members, evs[..|evs| - 1]);
      assert Enabled(s, ev) ==> EventKeeps(r, s, ev);
      StepFollows(r, s, ev);
    }
  }

  // ----- stores that differ -----

  const KEY: Key := []
  const PUT: Command := Put(KEY, [])
  const DELETE: Command := Delete(KEY)

  predicate Opposed(a: Command, b: Command) {
    (a == PUT && b == DELETE) || (a == DELETE && b == PUT)
  }

  /** Whatever came before, logs that end in opposed commands stand for different data. */
  lemma OpposedDiffer(a: Log, b: Log)
    requires a != [] && b != [] && Opposed(a[|a| - 1].command, b[|b| - 1].command)
    ensures Replay(a) != Replay(b)
  {
    assert KEY in Replay(a) <==> a[|a| - 1].command == PUT;
    assert KEY in Replay(b) <==> b[|b| - 1].command == PUT;
  }
}
