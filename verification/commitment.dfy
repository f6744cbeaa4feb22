/** What nodes commit is committed: every commit index is justified by a
    majority, and no later message can take the committed entries away. */
module Commitment {
  import opened RaftTypes
  import opened LogSpec
  import opened NodeSpec
  import opened Cluster
  import opened History
  import opened LogMatching
  import opened Acknowledgements
  import opened Replication
  import opened Persistence
  import opened Quorums

  predicate Sound(r: Repairs, members: set<NodeId>) { ReportsTruly(r, members) && r.commitClamp }

  // ----- the invariant -----

  /** The first c entries of log were committed by the leader of term t. */
  ghost predicate JustifiedBy(members: set<NodeId>, h: Past, acks: Acks, log: Log, c: nat, t: nat, k: nat) {
    && Committed(members, h, acks, t, k)
    && c <= k
    && Shares(h, t, c, log)
  }

  ghost predicate Justified(members: set<NodeId>, h: Past, acks: Acks, log: Log, c: nat, upTo: nat) {
    c == 0 || exists t: nat, k: nat :: t <= upTo && JustifiedBy(members, h, acks, log, c, t, k)
  }

  ghost predicate CommitTrue(members: set<NodeId>, h: Past, acks: Acks, n: NodeState) {
    Justified(members, h, acks, n.log, n.commit, n.term)
  }

  ghost predicate NewsTrue(members: set<NodeId>, h: Past, acks: Acks, e: Envelope) {
    e.message.AppendEntries? && e.message.term in h.elections ==>
      Justified(members, h, acks, h.elections[e.message.term].log, e.message.leaderCommit, e.message.term)
  }

  ghost predicate InvCommit(members: set<NodeId>, h: Past, acks: Acks, s: State) {
    && (forall v {:trigger CommitTrue(members, h, acks, s.nodes[v])} | v in s.nodes ::
          CommitTrue(members, h, acks, s.nodes[v]))
    && (forall e {:trigger NewsTrue(members, h, acks, e)} | e in s.network :: NewsTrue(members, h, acks, e))
  }

  // ----- growth -----

  lemma CommittedGrows(members: set<NodeId>, h: Past, h': Past, acks: Acks, acks': Acks, v: NodeId, u: nat, t: nat,
                       k: nat)
    requires Extends(h, h', v) && AcksExtend(acks, acks', v, u)
    requires Committed(members, h, acks, t, k)
    ensures Committed(members, h', acks', t, k)
  {
    assert Continues(h.elections[t], h'.elections[t], v);
    SubsetSize(Vouchers(members, acks, t, k), Vouchers(members, acks', t, k));
  }

  lemma JustifiedGrows(members: set<NodeId>, h: Past, h': Past, acks: Acks, acks': Acks, v: NodeId, u: nat,
                       log: Log, log': Log, c: nat, upTo: nat, upTo': nat)
    requires Extends(h, h', v) && AcksExtend(acks, acks', v, u)
    requires Justified(members, h, acks, log, c, upTo) && log <= log' && upTo <= upTo'
    ensures Justified(members, h', acks', log', c, upTo')
  {
    if c > 0 {
      var t: nat, k: nat :| t <= upTo && JustifiedBy(members, h, acks, log, c, t, k);
      CommittedGrows(members, h, h', acks, acks', v, u, t, k);
      SharesGrows(h, h', v, t, c, log);
      assert JustifiedBy(members, h', acks', log', c, t, k);
    }
  }

  lemma NewsGrows(members: set<NodeId>, h: Past, h': Past, acks: Acks, acks': Acks, v: NodeId, u: nat, e: Envelope)
    requires Extends(h, h', v) && AcksExtend(acks, acks', v, u)
    requires MessageOk(members, h, e) && NewsTrue(members, h, acks, e)
    ensures NewsTrue(members, h', acks', e)
  {
    if e.message.AppendEntries? {
      var t := e.message.term;
      assert Continues(h.elections[t], h'.elections[t], v);
      JustifiedGrows(members, h, h', acks, acks', v, u, h.elections[t].log, h'.elections[t].log,
                     e.message.leaderCommit, t, t);
    }
  }

  // ----- a follower commits -----

  /** Merging a later leader's entries keeps whatever was committed before. */
  lemma MergeKeepsCommitted(members: set<NodeId>, h: Past, acks: Acks, n: NodeState, e: Envelope)
    requires PastOk(members, h) && AcksOk(members, h, acks) && NodeOk(members, h, n) && MessageOk(members, h, e)
    requires e.message.AppendEntries? && Accepts(n, e.message) && CommitTrue(members, h, acks, n)
    ensures e.message.prevLogIndex <= |n.log|
    ensures var merged := Merge(n.log, e.message.prevLogIndex, e.message.entries);
            && n.commit <= |n.log| && n.commit <= |merged| && merged[..n.commit] == n.log[..n.commit]
            && Justified(members, h, acks, merged, n.commit, e.message.term)
  {
    var m, c := e.message, n.commit;
    AcceptedSlice(members, h, n, e);
    if c > 0 {
      var t: nat, k: nat :| t <= n.term && JustifiedBy(members, h, acks, n.log, c, t, k);
      CommittedShared(members, h, acks, n.log, c, t, k, m.term);
      MergeKeeps(n.log, h.elections[m.term].log, m.prevLogIndex, |m.entries|, c);
      assert JustifiedBy(members, h, acks, Merge(n.log, m.prevLogIndex, m.entries), c, t, k);
    }
  }

  /** A committed prefix of a log is a prefix of every later leader's log. */
  lemma CommittedShared(members: set<NodeId>, h: Past, acks: Acks, log: Log, c: nat, t: nat, k: nat, u: nat)
    requires PastOk(members, h) && AcksOk(members, h, acks)
    requires JustifiedBy(members, h, acks, log, c, t, k) && t <= u && u in h.elections
    ensures c <= |log| && c <= |h.elections[u].log| && log[..c] == h.elections[u].log[..c]
  {
    CommittedInLater(members, h, acks, t, k, u);
    ShorterPrefix(h.elections[u].log, h.elections[t].log, k, c);
  }

  /** The commit index a message carries holds of what the message covers. */
  lemma ClampedCommit(members: set<NodeId>, h: Past, acks: Acks, n: NodeState, e: Envelope)
    requires PastOk(members, h) && NodeOk(members, h, n) && MessageOk(members, h, e)
    requires e.message.AppendEntries? && Accepts(n, e.message) && NewsTrue(members, h, acks, e)
    ensures e.message.prevLogIndex <= |n.log|
    ensures var merged := Merge(n.log, e.message.prevLogIndex, e.message.entries);
            var c := Min(e.message.leaderCommit, e.message.prevLogIndex + |e.message.entries|);
            Justified(members, h, acks, merged, c, e.message.term)
  {
    var m := e.message;
    AcceptedMerge(members, h, n, e);
    var merged, whole := Merge(n.log, m.prevLogIndex, m.entries), h.elections[m.term].log;
    var covered := m.prevLogIndex + |m.entries|;
    var c := Min(m.leaderCommit, covered);
    if c > 0 {
      var t: nat, k: nat :| t <= m.term && JustifiedBy(members, h, acks, whole, m.leaderCommit, t, k);
      ShorterPrefix(merged, whole, covered, c);
      ShorterPrefix(whole, h.elections[t].log, m.leaderCommit, c);
      assert JustifiedBy(members, h, acks, merged, c, t, k);
    }
  }

  lemma AcceptCommits(r: Repairs, members: set<NodeId>, h: Past, acks: Acks, n: NodeState, e: Envelope)
    requires Sound(r, members)
    requires PastOk(members, h) && AcksOk(members, h, acks) && NodeOk(members, h, n) && MessageOk(members, h, e)
    requires e.message.AppendEntries? && Accepts(n, e.message)
    requires CommitTrue(members, h, acks, n) && NewsTrue(members, h, acks, e)
    ensures CommitTrue(members, h, acks, OnAppendEntries(r, n, e.from, e.message).node)
  {
    MergeKeepsCommitted(members, h, acks, n, e);
    ClampedCommit(members, h, acks, n, e);
    var n' := OnAppendEntries(r, n, e.from, e.message).node;
    assert n'.log == Merge(n.log, e.message.prevLogIndex, e.message.entries) && n'.term == e.message.term;
    assert n'.commit == n.commit
        || n'.commit == Min(e.message.leaderCommit, e.message.prevLogIndex + |e.message.entries|);
  }

  // ----- a leader commits -----

  /** An index that passes the leader's test is committed by the rule. */
  lemma CommittableCommitted(members: set<NodeId>, h: Past, acks: Acks, n: NodeState, i: nat)
    requires NodeOk(members, h, n) && AcksOk(members, h, acks) && MatchesTrue(acks, n)
    requires n.role == Leader && i >= 1 && Committable(n, i)
    ensures Committed(members, h, acks, n.term, i)
    ensures JustifiedBy(members, h, acks, n.log, i, n.term, i)
  {
    assert LeaderAcks(h, acks, n.term);
    var holders := Holders(n.matched, i);
    var vouchers := Vouchers(members, acks, n.term, i);
    assert holders + {n.id} <= vouchers;
    SubsetSize(holders + {n.id}, vouchers);
    PeersSize(members, n);
  }

  lemma ResponseCommits(r: Repairs, members: set<NodeId>, h: Past, acks: Acks, n: NodeState, e: Envelope)
    requires ReportsTruly(r, members)
    requires AcksOk(members, h, acks) && NodeOk(members, h, n) && MessageOk(members, h, e)
    requires MatchesTrue(acks, n) && ReportTrue(h, acks, e)
    requires e.message.AppendEntriesResponse? && e.to == n.id && CommitTrue(members, h, acks, n)
    ensures CommitTrue(members, h, acks, OnAppendResponse(r, n, e.from, e.message).node)
  {
    var n' := OnAppendResponse(r, n, e.from, e.message).node;
    if n.role == Leader && e.message.term == n.term && e.message.success {
      var n1 := n.(matched := n.matched[e.from := e.message.lastLogIndex],
                   next := n.next[e.from := e.message.lastLogIndex + 1]);
      assert n' == TryAdvance(n1).node;
      if ScanDown(n1, |n1.log|).Some? {
        ScanIsGreatest(n1, |n1.log|);
        SameVoteAndLog(members, h, n, n1);
        CommittableCommitted(members, h, acks, n1, n'.commit);
      }
    } else if n.role == Leader && e.message.term > n.term {
      KeepCommit(members, h, acks, n, n');
    }
  }

  lemma KeepCommit(members: set<NodeId>, h: Past, acks: Acks, n: NodeState, n': NodeState)
    requires CommitTrue(members, h, acks, n)
    requires n'.commit == n.commit && n.log <= n'.log && n.term <= n'.term
    ensures CommitTrue(members, h, acks, n')
  {
    if n.commit > 0 {
      var t: nat, k: nat :| t <= n.term && JustifiedBy(members, h, acks, n.log, n.commit, t, k);
      assert JustifiedBy(members, h, acks, n'.log, n.commit, t, k);
    }
  }

  // ----- steps -----

  lemma SameCommit(r: Repairs, n: NodeState, ev: Event)
    requires !(ev.Deliver? && (ev.envelope.message.AppendEntries? || ev.envelope.message.AppendEntriesResponse?))
    requires !ev.Crash?
    ensures React(r, n, ev).node.commit == n.commit
  {
  }

  lemma ReactCommits(r: Repairs, members: set<NodeId>, h: Past, acks: Acks, n: NodeState, ev: Event)
    requires Sound(r, members)
    requires PastOk(members, h) && AcksOk(members, h, acks) && NodeOk(members, h, n) && MatchesTrue(acks, n)
    requires CommitTrue(members, h, acks, n)
    requires ev.Deliver? ==> ev.envelope.to == n.id && MessageOk(members, h, ev.envelope)
    requires ev.Deliver? ==> ReportTrue(h, acks, ev.envelope) && NewsTrue(members, h, acks, ev.envelope)
    ensures CommitTrue(members, h, acks, React(r, n, ev).node)
  {
    var n' := React(r, n, ev).node;
    if ev.Deliver? && ev.envelope.message.AppendEntries? {
      if Accepts(n, ev.envelope.message) {
        AcceptCommits(r, members, h, acks, n, ev.envelope);
      } else {
        KeepCommit(members, h, acks, n, n');
      }
    } else if ev.Deliver? && ev.envelope.message.AppendEntriesResponse? {
      ResponseCommits(r, members, h, acks, n, ev.envelope);
    } else if !ev.Crash? {
      SameCommit(r, n, ev);
      ReactGrows(r, members, h, n, ev);
      KeepCommit(members, h, acks, n, n');
    }
  }

  lemma SentNewsTrue(r: Repairs, members: set<NodeId>, h: Past, acks: Acks, n: NodeState, ev: Event)
    requires var n' := React(r, n, ev).node; NodeOk(members, h, n') && CommitTrue(members, h, acks, n')
    ensures forall e | e in React(r, n, ev).sent :: NewsTrue(members, h, acks, e)
  {
    forall e | e in React(r, n, ev).sent ensures NewsTrue(members, h, acks, e) {
      SentNews(r, n, ev, e);
    }
  }

  /** What was true of the rest of the cluster stays true. */
  lemma RestCommits(members: set<NodeId>, h: Past, h': Past, acks: Acks, acks': Acks, s: State, v: NodeId, u: nat)
    requires Extends(h, h', v) && AcksExtend(acks, acks', v, u)
    requires NetworkOk(members, h, s.network) && InvCommit(members, h, acks, s)
    ensures forall w | w in s.nodes :: CommitTrue(members, h', acks', s.nodes[w])
    ensures forall e | e in s.network :: NewsTrue(members, h', acks', e)
  {
    forall w | w in s.nodes ensures CommitTrue(members, h', acks', s.nodes[w]) {
      var n := s.nodes[w];
      assert CommitTrue(members, h, acks, n);
      JustifiedGrows(members, h, h', acks, acks', v, u, n.log, n.log, n.commit, n.term, n.term);
    }
    forall e | e in s.network ensures NewsTrue(members, h', acks', e) {
      assert MessageOk(members, h, e) && NewsTrue(members, h, acks, e);
      NewsGrows(members, h, h', acks, acks', v, u, e);
    }
  }

  lemma ReactCommitsAfter(r: Repairs, members: set<NodeId>, h: Past, acks: Acks, s: State, ev: Event)
    requires Sound(r, members) && Inv(members, h, s) && InvAcks(members, h, acks, s) && InvCommit(members, h, acks, s)
    requires Enabled(s, ev)
    requires var n := s.nodes[Site(ev)];
             var h', acks' := Remember(r, s, h, ev), VouchStep(r, s, acks, ev);
             Extends(h, h', n.id) && AcksExtend(acks, acks', n.id, React(r, n, ev).node.term)
    ensures CommitTrue(members, Remember(r, s, h, ev), VouchStep(r, s, acks, ev), React(r, s.nodes[Site(ev)], ev).node)
  {
    var n := s.nodes[Site(ev)];
    var n' := React(r, n, ev).node;
    assert MatchesTrue(acks, n) && CommitTrue(members, h, acks, n);
    if ev.Deliver? {
      var e := ev.envelope;
      assert MessageOk(members, h, e) && ReportTrue(h, acks, e) && NewsTrue(members, h, acks, e);
    }
    ReactCommits(r, members, h, acks, n, ev);
    JustifiedGrows(members, h, Remember(r, s, h, ev), acks, VouchStep(r, s, acks, ev), n.id, n'.term,
                   n'.log, n'.log, n'.commit, n'.term, n'.term);
  }

  lemma AssembleCommits(members: set<NodeId>, h: Past, acks: Acks, s: State, v: NodeId, out: Outcome)
    requires CommitTrue(members, h, acks, out.node)
    requires forall w {:trigger CommitTrue(members, h, acks, s.nodes[w])} | w in s.nodes ::
               CommitTrue(members, h, acks, s.nodes[w])
    requires forall e {:trigger NewsTrue(members, h, acks, e)} | e in s.network :: NewsTrue(members, h, acks, e)
    requires forall e {:trigger NewsTrue(members, h, acks, e)} | e in out.sent :: NewsTrue(members, h, acks, e)
    ensures InvCommit(members, h, acks, State(s.nodes[v := out.node], s.network + out.sent, s.replies + out.replies))
  {
  }

  lemma StepCommits(r: Repairs, members: set<NodeId>, h: Past, acks: Acks, s: State, ev: Event)
    requires Sound(r, members) && Inv(members, h, s) && InvAcks(members, h, acks, s) && InvCommit(members, h, acks, s)
    ensures InvCommit(members, Remember(r, s, h, ev), VouchStep(r, s, acks, ev), Step(r, s, ev))
  {
    if Enabled(s, ev) {
      var n, h', acks' := s.nodes[Site(ev)], Remember(r, s, h, ev), VouchStep(r, s, acks, ev);
      ReactKeeps(r, members, h, s, ev);
      ReactVouched(r, members, h, acks, s, ev);
      ReactCommitsAfter(r, members, h, acks, s, ev);
      RestCommits(members, h, h', acks, acks', s, n.id, React(r, n, ev).node.term);
      SentNewsTrue(r, members, h', acks', n, ev);
      AssembleCommits(members, h', acks', s, Site(ev), React(r, n, ev));
    }
  }

  lemma InitCommits(members: set<NodeId>)
    ensures InvCommit(members, NO_PAST, map[], Init(members))
  {
  }

  lemma {:induction false} RunSafe(r: Repairs, members: set<NodeId>, evs: seq<Event>)
    requires Sound(r, members)
    ensures var h, acks, s := PastOf(r, members, evs), AcksOf(r, members, evs), Run(r, members, evs);
            Inv(members, h, s) && InvAcks(members, h, acks, s) && InvCommit(members, h, acks, s)
  {
    RunVouched(r, members, evs);
    if evs == [] {
      InitCommits(members);
    } else {
      var before, ev := evs[..|evs| - 1], evs[|evs| - 1];
      RunSafe(r, members, before);
      var h, acks, s := PastOf(r, members, before), AcksOf(r, members, before), Run(r, members, before);
      StepCommits(r, members, h, acks, s, ev);
    }
  }
}
