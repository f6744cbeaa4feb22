/** The guarantees of the cluster, stated on runs alone: any membership, any
    sequence of timeouts, deliveries, proposals and crashes. */
module Theorems {
  import opened RaftTypes
  import opened LogSpec
  import opened StoreSpec
  import opened NodeSpec
  import opened Cluster
  import opened History
  import opened LogMatching
  import opened Acknowledgements
  import opened Replication
  import opened Commitment
  import opened AppliedState
  import opened Stores
  import opened ClientReplies
  import Convergence

  // ----- history along a run -----

  /** Who won a term, and with which log, never changes. */
  lemma {:induction false} WinnersPersist(r: Repairs, members: set<NodeId>, evs: seq<Event>, i: nat, t: nat)
    requires CountsVotes(r, members) && i <= |evs| && t in PastOf(r, members, evs[..i]).elections
    ensures t in PastOf(r, members, evs).elections
    ensures PastOf(r, members, evs).elections[t].leader == PastOf(r, members, evs[..i]).elections[t].leader
    ensures PastOf(r, members, evs).elections[t].base == PastOf(r, members, evs[..i]).elections[t].base
  {
    if i == |evs| {
      assert evs[..i] == evs;
    } else {
      var before, ev := evs[..|evs| - 1], evs[|evs| - 1];
      assert before[..i] == evs[..i];
      WinnersPersist(r, members, before, i, t);
      RunKeeps(r, members, before);
      var s, h := Run(r, members, before), PastOf(r, members, before);
      if Enabled(s, ev) {
        ReactKeeps(r, members, h, s, ev);
        assert Continues(h.elections[t], Remember(r, s, h, ev).elections[t], s.nodes[Site(ev)].id);
      }
    }
  }

  /** What was committed stays committed. */
  lemma {:induction false} CommitsPersist(r: Repairs, members: set<NodeId>, evs: seq<Event>, i: nat, log: Log,
                                        c: nat, upTo: nat)
    requires Sound(r, members) && i <= |evs|
    requires Justified(members, PastOf(r, members, evs[..i]), AcksOf(r, members, evs[..i]), log, c, upTo)
    ensures Justified(members, PastOf(r, members, evs), AcksOf(r, members, evs), log, c, upTo)
  {
    if i == |evs| {
      assert evs[..i] == evs;
    } else {
      var before, ev := evs[..|evs| - 1], evs[|evs| - 1];
      assert before[..i] == evs[..i];
      CommitsPersist(r, members, before, i, log, c, upTo);
      RunSafe(r, members, before);
      var s, h, acks := Run(r, members, before), PastOf(r, members, before), AcksOf(r, members, before);
      if Enabled(s, ev) {
        ReactKeeps(r, members, h, s, ev);
        ReactVouched(r, members, h, acks, s, ev);
        var n := s.nodes[Site(ev)];
        JustifiedGrows(members, h, Remember(r, s, h, ev), acks, VouchStep(r, s, acks, ev), n.id,
                       React(r, n, ev).node.term, log, log, c, upTo, upTo);
      }
    }
  }

  lemma JustifiedAgree(members: set<NodeId>, h: Past, acks: Acks, a: Log, c: nat, ta: nat, b: Log, d: nat, tb: nat)
    requires PastOk(members, h) && AcksOk(members, h, acks)
    requires Justified(members, h, acks, a, c, ta) && Justified(members, h, acks, b, d, tb)
    ensures c <= |a| && d <= |b|
    ensures a[..Min(c, d)] == b[..Min(c, d)]
  {
    if c > 0 && d > 0 {
      var t: nat, k: nat :| t <= ta && JustifiedBy(members, h, acks, a, c, t, k);
      var u: nat, l: nat :| u <= tb && JustifiedBy(members, h, acks, b, d, u, l);
      var m := Min(c, d);
      var lt, lu := h.elections[t].log, h.elections[u].log;
      if t <= u {
        CommittedInLater(members, h, acks, t, k, u);
        assert lu[..m] == lt[..k][..m];
      } else {
        CommittedInLater(members, h, acks, u, l, t);
        assert lt[..m] == lu[..l][..m];
      }
      assert a[..m] == lt[..c][..m] && b[..m] == lu[..d][..m];
      assert lt[..c][..m] == lt[..m] && lu[..d][..m] == lu[..m];
    }
  }

  lemma JustifiedInLeader(members: set<NodeId>, h: Past, acks: Acks, log: Log, c: nat, upTo: nat, t: nat)
    requires PastOk(members, h) && AcksOk(members, h, acks)
    requires Justified(members, h, acks, log, c, upTo) && upTo <= t && t in h.elections
    ensures c <= |log| && log[..c] <= h.elections[t].log
  {
    if c > 0 {
      var u: nat, k: nat :| u <= upTo && JustifiedBy(members, h, acks, log, c, u, k);
      CommittedInLater(members, h, acks, u, k, t);
      assert h.elections[t].log[..c] == h.elections[u].log[..k][..c] == h.elections[u].log[..c];
    }
  }

  lemma ReplyAgrees(members: set<NodeId>, h: Past, acks: Acks, reply: Reply, log: Log, c: nat, upTo: nat)
    requires PastOk(members, h) && AcksOk(members, h, acks)
    requires reply.result.Success? && ReplyTrue(members, h, acks, reply)
    requires Justified(members, h, acks, log, c, upTo)
    ensures var i := reply.result.index;
            1 <= i && (i <= c ==> i <= |log| && log[i - 1].command == reply.client.wants)
  {
    var t: nat, k: nat :| ReplyBy(members, h, acks, reply, t, k);
    var whole, i := h.elections[t].log, reply.result.index;
    assert JustifiedBy(members, h, acks, whole, k, t, k);
    JustifiedAgree(members, h, acks, log, c, upTo, whole, k, t);
    if i <= c {
      var m := Min(c, k);
      assert log[i - 1] == log[..m][i - 1] == whole[..m][i - 1] == whole[i - 1];
    }
  }

  /** What a node had committed by step i is still justified at the end. */
  lemma CommitAt(r: Repairs, members: set<NodeId>, evs: seq<Event>, i: nat, v: NodeId)
    requires Sound(r, members) && i <= |evs| && v in members
    ensures v in Run(r, members, evs[..i]).nodes
    ensures var n := Run(r, members, evs[..i]).nodes[v];
            Justified(members, PastOf(r, members, evs), AcksOf(r, members, evs), n.log, n.commit, n.term)
  {
    RunSafe(r, members, evs[..i]);
    var n := Run(r, members, evs[..i]).nodes[v];
    assert CommitTrue(members, PastOf(r, members, evs[..i]), AcksOf(r, members, evs[..i]), n);
    CommitsPersist(r, members, evs, i, n.log, n.commit, n.term);
  }

  // ----- the theorems -----

  /** Election Safety: over a whole run, however votes are lost, repeated or
      reordered and nodes crash, no term ever has two leaders. */
  lemma ElectionSafety(r: Repairs, members: set<NodeId>, evs: seq<Event>, i: nat, j: nat, u: NodeId, v: NodeId)
    requires CountsVotes(r, members) && i <= |evs| && j <= |evs| && u in members && v in members
    ensures u in Run(r, members, evs[..i]).nodes && v in Run(r, members, evs[..j]).nodes
    ensures var nu, nv := Run(r, members, evs[..i]).nodes[u], Run(r, members, evs[..j]).nodes[v];
            nu.role == Leader && nv.role == Leader && nu.term == nv.term ==> u == v
  {
    RunKeeps(r, members, evs[..i]);
    RunKeeps(r, members, evs[..j]);
    var nu, nv := Run(r, members, evs[..i]).nodes[u], Run(r, members, evs[..j]).nodes[v];
    if nu.role == Leader && nv.role == Leader && nu.term == nv.term {
      WinnersPersist(r, members, evs, i, nu.term);
      WinnersPersist(r, members, evs, j, nv.term);
    }
  }

  /** Log Matching: in every reachable state, two logs with the same term at
      one index are equal up to that index. */
  lemma LogMatchingProperty(r: Repairs, members: set<NodeId>, evs: seq<Event>, u: NodeId, v: NodeId, i: nat)
    requires CountsVotes(r, members) && u in members && v in members
    ensures var s := Run(r, members, evs);
            && u in s.nodes && v in s.nodes
            && var a, b := s.nodes[u].log, s.nodes[v].log;
               TermAt(a, i).Some? && TermAt(a, i) == TermAt(b, i) ==> a[..i] == b[..i]
  {
    RunKeeps(r, members, evs);
    var s, h := Run(r, members, evs), PastOf(r, members, evs);
    var a, b := s.nodes[u].log, s.nodes[v].log;
    SameTermSamePrefix(h, a, b, i);
  }

  lemma SameTermSamePrefix(h: Past, a: Log, b: Log, i: nat)
    requires LogOk(h, a) && LogOk(h, b)
    ensures TermAt(a, i).Some? && TermAt(a, i) == TermAt(b, i) ==> a[..i] == b[..i]
  {
    if TermAt(a, i).Some? && TermAt(a, i) == TermAt(b, i) { EqualTermsEqualPrefixes(h, a, b, i - 1); }
  }

  /** Match-index truth: what a leader has on record for a peer, the peer holds,
      entry for entry, as long as it stays in the leader's term. */
  lemma MatchIndexTruth(r: Repairs, members: set<NodeId>, evs: seq<Event>, l: NodeId, p: NodeId)
    requires ReportsTruly(r, members) && l in members && p in members
    ensures l in Run(r, members, evs).nodes && p in Run(r, members, evs).nodes
    ensures var nl, np := Run(r, members, evs).nodes[l], Run(r, members, evs).nodes[p];
            nl.role == Leader && p in nl.matched && np.term == nl.term ==>
              var m := nl.matched[p];
              m <= |nl.log| && m <= |np.log| && np.log[..m] == nl.log[..m]
  {
    RunVouched(r, members, evs);
    var h, acks, s := PastOf(r, members, evs), AcksOf(r, members, evs), Run(r, members, evs);
    var nl, np := s.nodes[l], s.nodes[p];
    if nl.role == Leader && p in nl.matched && np.term == nl.term {
      MatchHeld(members, h, acks, nl, np);
    }
  }

  lemma MatchHeld(members: set<NodeId>, h: Past, acks: Acks, nl: NodeState, np: NodeState)
    requires AcksOk(members, h, acks) && LeaderOk(h, nl) && nl.role == Leader
    requires NodeHolds(h, acks, np) && MatchesTrue(acks, nl) && np.id in nl.matched && np.term == nl.term
    ensures var m := nl.matched[np.id];
            m <= |nl.log| && m <= |np.log| && np.log[..m] == nl.log[..m]
  {
    var m, slot := nl.matched[np.id], Slot(nl.term, np.id);
    if m > 0 {
      assert AckBounded(members, h, acks, slot) && SlotHeld(h, acks, np, slot);
      assert HeldAt(h, nl.term, m, np.log, nl.term + 1);
    }
  }

  /** A leader and a node that is not ahead of it, at any point of a run. */
  ghost predicate Meet(r: Repairs, members: set<NodeId>, evs: seq<Event>, p: Convergence.Pair) {
    var s := Run(r, members, evs);
    && p.leader.id in s.nodes && s.nodes[p.leader.id] == p.leader && p.leader.role == Leader
    && p.follower.id in s.nodes && s.nodes[p.follower.id] == p.follower && p.follower.term <= p.leader.term
  }

  lemma MeetingPaired(r: Repairs, members: set<NodeId>, evs: seq<Event>, p: Convergence.Pair)
    requires CountsVotes(r, members) && Meet(r, members, evs, p)
    ensures Convergence.Paired(p)
  {
    RunKeeps(r, members, evs);
    PastLogsMatch(PastOf(r, members, evs), p.follower.log, p.leader.log);
  }

  /** Wherever a run has come to, reliable rounds bring any node that is not
      ahead of a leader to hold that leader's log. */
  lemma ConvergesFromAnywhere(r: Repairs, members: set<NodeId>, evs: seq<Event>, ps: seq<Convergence.Pair>)
    requires CountsVotes(r, members) && Convergence.Rounds(r, ps) && Meet(r, members, evs, ps[0])
    requires |ps| > Convergence.Bound(ps[0])
    ensures Convergence.Agreed(ps[0], ps[|ps| - 1])
  {
    MeetingPaired(r, members, evs, ps[0]);
    Convergence.ReplicationConverges(r, ps);
  }

  lemma PastLogsMatch(h: Past, a: Log, b: Log)
    requires LogOk(h, a) && LogOk(h, b)
    ensures Convergence.HasTerms(a) && Convergence.HasTerms(b) && Convergence.Match(a, b)
  {
    forall i: nat | i < |a| ensures a[i].term >= 1 { assert EntryOk(h, a, i); }
    forall i: nat | i < |b| ensures b[i].term >= 1 { assert EntryOk(h, b, i); }
    forall i: nat ensures Convergence.MatchAt(a, b, i) {
      if i < |a| && i < |b| && a[i].term == b[i].term { EqualTermsEqualPrefixes(h, a, b, i); }
    }
  }

  lemma JustifiedInBase(members: set<NodeId>, h: Past, acks: Acks, log: Log, c: nat, upTo: nat, t: nat)
    requires PastOk(members, h) && AcksOk(members, h, acks)
    requires Justified(members, h, acks, log, c, upTo) && upTo < t && t in h.elections
    ensures c <= |log| && log[..c] <= h.elections[t].base
  {
    if c > 0 {
      var u: nat, k: nat :| u <= upTo && JustifiedBy(members, h, acks, log, c, u, k);
      LeaderCompleteness(members, h, acks, u, k, t);
      ShorterPrefix(h.elections[t].base, h.elections[u].log, k, c);
    }
  }

  /** A leader of a later term, seen at any time, before or after the commit. */
  lemma LaterLeaderHolds(r: Repairs, members: set<NodeId>, evs: seq<Event>, i: nat, j: nat, u: NodeId, v: NodeId)
    requires Sound(r, members) && i <= |evs| && j <= |evs| && u in members && v in members
    ensures u in Run(r, members, evs[..i]).nodes && v in Run(r, members, evs[..j]).nodes
    ensures var nu, nv := Run(r, members, evs[..i]).nodes[u], Run(r, members, evs[..j]).nodes[v];
            && nu.commit <= |nu.log|
            && (nv.role == Leader && nu.term < nv.term ==> nu.log[..nu.commit] <= nv.log)
  {
    RunSafe(r, members, evs);
    RunKeeps(r, members, evs[..j]);
    CommitAt(r, members, evs, i, u);
    var nu, nv := Run(r, members, evs[..i]).nodes[u], Run(r, members, evs[..j]).nodes[v];
    var h, acks := PastOf(r, members, evs), AcksOf(r, members, evs);
    JustifiedAgree(members, h, acks, nu.log, nu.commit, nu.term, nu.log, nu.commit, nu.term);
    if nv.role == Leader && nu.term < nv.term {
      WinnersPersist(r, members, evs, j, nv.term);
      JustifiedInBase(members, h, acks, nu.log, nu.commit, nu.term, nv.term);
      assert ElectionOk(members, PastOf(r, members, evs[..j]), nv.term);
    }
  }

  /** A leader of the same term, seen no earlier than the commit. */
  lemma SameTermLeaderHolds(r: Repairs, members: set<NodeId>, evs: seq<Event>, i: nat, u: NodeId, v: NodeId)
    requires Sound(r, members) && i <= |evs| && u in members && v in members
    ensures u in Run(r, members, evs[..i]).nodes && v in Run(r, members, evs).nodes
    ensures var nu, nv := Run(r, members, evs[..i]).nodes[u], Run(r, members, evs).nodes[v];
            nv.role == Leader && nu.term == nv.term ==> nu.commit <= |nu.log| && nu.log[..nu.commit] <= nv.log
  {
    RunSafe(r, members, evs);
    CommitAt(r, members, evs, i, u);
    var nu, nv := Run(r, members, evs[..i]).nodes[u], Run(r, members, evs).nodes[v];
    if nv.role == Leader && nu.term == nv.term {
      JustifiedInLeader(members, PastOf(r, members, evs), AcksOf(r, members, evs), nu.log, nu.commit, nu.term, nv.term);
    }
  }

  /** Leader Completeness: what any node had committed at any time is in the
      log of every leader of a later term, seen before or after, and of every
      leader of the same term seen no earlier. */
  lemma LeadersHoldCommitted(r: Repairs, members: set<NodeId>, evs: seq<Event>, i: nat, j: nat, u: NodeId, v: NodeId)
    requires Sound(r, members) && i <= |evs| && j <= |evs| && u in members && v in members
    ensures u in Run(r, members, evs[..i]).nodes && v in Run(r, members, evs[..j]).nodes
    ensures var nu, nv := Run(r, members, evs[..i]).nodes[u], Run(r, members, evs[..j]).nodes[v];
            && nu.commit <= |nu.log|
            && (nv.role == Leader && (nu.term < nv.term || (nu.term == nv.term && i <= j)) ==>
                  nu.log[..nu.commit] <= nv.log)
  {
    LaterLeaderHolds(r, members, evs, i, j, u, v);
    if i <= j {
      assert evs[..j][..i] == evs[..i];
      SameTermLeaderHolds(r, members, evs[..j], i, u, v);
    }
  }

  /** Those who vouched for a committed index still hold everything up to it. */
  lemma VoucherHolds(members: set<NodeId>, h: Past, acks: Acks, n: NodeState, log: Log, c: nat, t: nat, k: nat)
    requires PastOk(members, h) && AcksOk(members, h, acks) && NodeHolds(h, acks, n)
    requires JustifiedBy(members, h, acks, log, c, t, k) && n.id in Vouchers(members, acks, t, k)
    ensures c <= |log| && log[..c] <= n.log
  {
    assert SlotHeld(h, acks, n, Slot(t, n.id));
    assert HeldAt(h, t, k, n.log, n.term + 1);
    NotDiverged(members, h, acks, t, k, n.term + 1);
    ShorterPrefix(n.log, h.elections[t].log, k, c);
  }

  /** Committed means on a majority, for good: what any node had committed at
      any time is, ever after, in the logs of a majority, crashes or not. */
  lemma CommittedOnMajority(r: Repairs, members: set<NodeId>, evs: seq<Event>, i: nat, v: NodeId)
    returns (q: set<NodeId>)
    requires Sound(r, members) && i <= |evs| && v in members
    ensures Quorum(members, q) && v in Run(r, members, evs[..i]).nodes
    ensures var n, s := Run(r, members, evs[..i]).nodes[v], Run(r, members, evs);
            n.commit <= |n.log| && forall w | w in q :: w in s.nodes && n.log[..n.commit] <= s.nodes[w].log
  {
    RunSafe(r, members, evs);
    CommitAt(r, members, evs, i, v);
    var h, acks, s := PastOf(r, members, evs), AcksOf(r, members, evs), Run(r, members, evs);
    var n := Run(r, members, evs[..i]).nodes[v];
    q := JustifiedOnMajority(members, h, acks, s, n.log, n.commit, n.term);
  }

  lemma JustifiedOnMajority(members: set<NodeId>, h: Past, acks: Acks, s: State, log: Log, c: nat, upTo: nat)
    returns (q: set<NodeId>)
    requires members != {} && Inv(members, h, s) && InvAcks(members, h, acks, s)
    requires Justified(members, h, acks, log, c, upTo)
    ensures Quorum(members, q) && c <= |log|
    ensures forall w | w in q :: w in s.nodes && log[..c] <= s.nodes[w].log
  {
    if c == 0 {
      q := members;
    } else {
      var t: nat, k: nat :| t <= upTo && JustifiedBy(members, h, acks, log, c, t, k);
      q := Vouchers(members, acks, t, k);
      assert c <= |log|;
      forall w | w in q ensures log[..c] <= s.nodes[w].log {
        assert NodeHolds(h, acks, s.nodes[w]);
        VoucherHolds(members, h, acks, s.nodes[w], log, c, t, k);
      }
    }
  }

  /** State Machine Safety: whatever two nodes, at whatever two times, regard
      as committed, they agree on up to the shorter of the two. */
  lemma StateMachineSafety(r: Repairs, members: set<NodeId>, evs: seq<Event>, i: nat, j: nat, u: NodeId, v: NodeId)
    requires Sound(r, members) && i <= |evs| && j <= |evs| && u in members && v in members
    ensures u in Run(r, members, evs[..i]).nodes && v in Run(r, members, evs[..j]).nodes
    ensures var nu, nv := Run(r, members, evs[..i]).nodes[u], Run(r, members, evs[..j]).nodes[v];
            && nu.commit <= |nu.log| && nv.commit <= |nv.log|
            && nu.log[..Min(nu.commit, nv.commit)] == nv.log[..Min(nu.commit, nv.commit)]
  {
    RunSafe(r, members, evs);
    CommitAt(r, members, evs, i, u);
    CommitAt(r, members, evs, j, v);
    var nu, nv := Run(r, members, evs[..i]).nodes[u], Run(r, members, evs[..j]).nodes[v];
    JustifiedAgree(members, PastOf(r, members, evs), AcksOf(r, members, evs),
                   nu.log, nu.commit, nu.term, nv.log, nv.commit, nv.term);
  }

  /** Nodes that have applied up to the same index hold the same data, across
      nodes, times and restarts. */
  lemma EqualAppliedEqualData(r: Repairs, members: set<NodeId>, evs: seq<Event>, i: nat, j: nat, u: NodeId, v: NodeId)
    requires Sound(r, members) && i <= |evs| && j <= |evs| && u in members && v in members
    ensures u in Run(r, members, evs[..i]).nodes && v in Run(r, members, evs[..j]).nodes
    ensures var nu, nv := Run(r, members, evs[..i]).nodes[u], Run(r, members, evs[..j]).nodes[v];
            && nu.applied <= |nu.log|
            && nu.store == Store(Replay(nu.log[..nu.applied]), nu.applied)
            && (nu.applied == nv.applied ==> nu.store.data == nv.store.data)
  {
    StateMachineSafety(r, members, evs, i, j, u, v);
    RunStores(r, members, evs[..i]);
    RunStores(r, members, evs[..j]);
    assert StoreTrue(Run(r, members, evs[..i]).nodes[u]);
    assert StoreTrue(Run(r, members, evs[..j]).nodes[v]);
  }

  /** Between crashes the commit index only grows, and nothing at or below it
      is ever truncated or rewritten. */
  lemma CommitNeverUndone(r: Repairs, members: set<NodeId>, evs: seq<Event>, v: NodeId)
    requires Sound(r, members) && evs != [] && v in members
    ensures var before := evs[..|evs| - 1];
            && v in Run(r, members, before).nodes && v in Run(r, members, evs).nodes
            && var n, n' := Run(r, members, before).nodes[v], Run(r, members, evs).nodes[v];
               && n'.applied == n'.commit <= |n'.log|
               && n.commit <= |n.log| && n.commit <= |n'.log| && n'.log[..n.commit] == n.log[..n.commit]
               && (evs[|evs| - 1] != Crash(v) ==> n.commit <= n'.commit)
  {
    var before, ev := evs[..|evs| - 1], evs[|evs| - 1];
    RunSafe(r, members, before);
    RunStores(r, members, before);
    RunStores(r, members, evs);
    var s := Run(r, members, before);
    assert StoreTrue(s.nodes[v]) && StoreTrue(Run(r, members, evs).nodes[v]);
    assert Enabled(s, ev) ==> EventKeeps(r, s, ev);
  }

  /** A client that was told `Success` at an index finds its own command there
      on every node that ever commits that far, before or after. */
  lemma AcknowledgedIsDurable(r: Repairs, members: set<NodeId>, evs: seq<Event>, j: nat, reply: Reply, v: NodeId)
    requires AnswersTruly(r, members) && r.commitClamp && j <= |evs| && v in members
    requires reply in Run(r, members, evs).replies && reply.result.Success?
    ensures v in Run(r, members, evs[..j]).nodes
    ensures var n, i := Run(r, members, evs[..j]).nodes[v], reply.result.index;
            1 <= i && (i <= n.commit ==> i <= |n.log| && n.log[i - 1].command == reply.client.wants)
  {
    RunReplies(r, members, evs);
    RunSafe(r, members, evs);
    CommitAt(r, members, evs, j, v);
    var h, acks, n := PastOf(r, members, evs), AcksOf(r, members, evs), Run(r, members, evs[..j]).nodes[v];
    assert ReplyTrue(members, h, acks, reply);
    ReplyAgrees(members, h, acks, reply, n.log, n.commit, n.term);
  }

  /** In particular now. */
  lemma AcknowledgedIsDurableNow(r: Repairs, members: set<NodeId>, evs: seq<Event>, reply: Reply, v: NodeId)
    requires AnswersTruly(r, members) && r.commitClamp && v in members
    requires reply in Run(r, members, evs).replies && reply.result.Success?
    ensures v in Run(r, members, evs).nodes
    ensures var n, i := Run(r, members, evs).nodes[v], reply.result.index;
            1 <= i && (i <= n.commit ==> i <= |n.log| && n.log[i - 1].command == reply.client.wants)
  {
    assert evs[..|evs|] == evs;
    AcknowledgedIsDurable(r, members, evs, |evs|, reply, v);
  }

  /** And a majority of logs hold that command at that index, ever after. */
  lemma AcknowledgedOnMajority(r: Repairs, members: set<NodeId>, evs: seq<Event>, reply: Reply) returns (q: set<NodeId>)
    requires AnswersTruly(r, members) && members != {}
    requires reply in Run(r, members, evs).replies && reply.result.Success?
    ensures Quorum(members, q)
    ensures var s, i := Run(r, members, evs), reply.result.index;
            1 <= i && forall w | w in q ::
              w in s.nodes && i <= |s.nodes[w].log| && s.nodes[w].log[i - 1].command == reply.client.wants
  {
    RunReplies(r, members, evs);
    RunVouched(r, members, evs);
    var h, acks, s := PastOf(r, members, evs), AcksOf(r, members, evs), Run(r, members, evs);
    assert ReplyTrue(members, h, acks, reply);
    q := ReplyOnMajority(members, h, acks, s, reply);
  }

  /** The command a client was acknowledged is in a committed prefix. */
  lemma ReplyJustified(members: set<NodeId>, h: Past, acks: Acks, reply: Reply) returns (log: Log, c: nat, t: nat)
    requires reply.result.Success? && ReplyTrue(members, h, acks, reply)
    ensures Justified(members, h, acks, log, c, t)
    ensures 1 <= reply.result.index <= c <= |log| && log[reply.result.index - 1].command == reply.client.wants
  {
    t, c :| ReplyBy(members, h, acks, reply, t, c);
    log := h.elections[t].log;
    assert JustifiedBy(members, h, acks, log, c, t, c);
  }

  lemma ReplyOnMajority(members: set<NodeId>, h: Past, acks: Acks, s: State, reply: Reply) returns (q: set<NodeId>)
    requires members != {} && Inv(members, h, s) && InvAcks(members, h, acks, s)
    requires reply.result.Success? && ReplyTrue(members, h, acks, reply)
    ensures Quorum(members, q) && 1 <= reply.result.index
    ensures forall w | w in q ::
              && w in s.nodes && reply.result.index <= |s.nodes[w].log|
              && s.nodes[w].log[reply.result.index - 1].command == reply.client.wants
  {
    var log, c, t := ReplyJustified(members, h, acks, reply);
    q := JustifiedOnMajority(members, h, acks, s, log, c, t);
    var i := reply.result.index;
    forall w | w in q ensures i <= |s.nodes[w].log| && s.nodes[w].log[i - 1] == log[i - 1] {
      assert log[i - 1] == log[..c][i - 1] == s.nodes[w].log[i - 1];
    }
  }
}
