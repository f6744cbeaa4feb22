/** Every event keeps what nodes have acknowledged and what leaders believe of
    it, provided a success reply reports what its message covered. */
module Replication {
  import opened RaftTypes
  import opened LogSpec
  import opened NodeSpec
  import opened Cluster
  import opened History
  import opened LogMatching
  import opened Acknowledgements

  predicate ReportsTruly(r: Repairs, members: set<NodeId>) { CountsVotes(r, members) && r.coverReport && r.sameTerm }

  /** acks' extends acks by what happened at node v in term t. */
  ghost predicate AcksExtend(acks: Acks, acks': Acks, v: NodeId, t: nat) {
    && (forall k | k in acks :: k in acks' && acks[k] <= acks'[k])
    && (forall k | k in acks' && k != Slot(t, v) :: k in acks && acks[k] == acks'[k])
  }

  // ----- growth -----

  lemma SharesGrows(h: Past, h': Past, v: NodeId, t: nat, k: nat, log: Log)
    requires Extends(h, h', v) && t in h.elections && k <= |h.elections[t].log|
    ensures Shares(h', t, k, log) == Shares(h, t, k, log)
  {
  }

  lemma DivergedGrows(h: Past, h': Past, v: NodeId, t: nat, k: nat, before: nat, before': nat)
    requires Extends(h, h', v) && t in h.elections && k <= |h.elections[t].log|
    requires Diverged(h, t, k, before) && before <= before'
    ensures Diverged(h', t, k, before')
  {
    var u: nat :| u < before && DivergedAt(h, t, k, u);
    assert Continues(h.elections[u], h'.elections[u], v);
    SharesGrows(h, h', v, t, k, h.elections[u].base);
    assert DivergedAt(h', t, k, u);
  }

  lemma HeldGrows(h: Past, h': Past, v: NodeId, t: nat, upTo: nat, log: Log, before: nat, before': nat)
    requires Extends(h, h', v) && t in h.elections && upTo <= |h.elections[t].log|
    requires Held(h, t, upTo, log, before) && before <= before'
    ensures Held(h', t, upTo, log, before')
  {
    forall k: nat | k <= upTo ensures HeldAt(h', t, k, log, before') {
      assert HeldAt(h, t, k, log, before);
      SharesGrows(h, h', v, t, k, log);
      if Diverged(h, t, k, before) { DivergedGrows(h, h', v, t, k, before, before'); }
    }
  }

  lemma BoundsGrow(members: set<NodeId>, h: Past, h': Past, acks: Acks, acks': Acks, n: NodeState)
    requires AcksOk(members, h, acks) && Extends(h, h', n.id) && AcksExtend(acks, acks', n.id, n.term)
    requires Slot(n.term, n.id) in acks' ==> AckBounded(members, h', acks', Slot(n.term, n.id))
    requires n.role == Leader ==> n.term in h'.elections && LeaderAcks(h', acks', n.term)
    requires forall t | t in h'.elections && !(n.role == Leader && t == n.term) ::
               t in h.elections && h'.elections[t] == h.elections[t]
    ensures forall k | k in acks' :: AckBounded(members, h', acks', k)
    ensures forall t | t in h'.elections :: LeaderAcks(h', acks', t)
  {
    forall k | k in acks' ensures AckBounded(members, h', acks', k) {
      if k != Slot(n.term, n.id) {
        assert AckBounded(members, h, acks, k);
        assert Continues(h.elections[k.term], h'.elections[k.term], n.id);
      }
    }
    forall t | t in h'.elections ensures LeaderAcks(h', acks', t) {
      if !(n.role == Leader && t == n.term) { assert LeaderAcks(h, acks, t); }
    }
  }

  /** Old ballots keep their promise: a later ballot of the same node would
      forbid the new acknowledgement. */
  lemma OldBallotHolds(members: set<NodeId>, h: Past, h': Past, acks: Acks, acks': Acks, n: NodeState, b: Slot)
    requires AcksOk(members, h, acks) && Extends(h, h', n.id) && AcksExtend(acks, acks', n.id, n.term)
    requires b in h.ballots
    requires b.node == n.id ==> b.term <= n.term
    requires b.term in h.elections && b.term in h'.elections
             ==> h'.elections[b.term].voters == h.elections[b.term].voters
    ensures BallotHolds(h', acks', b)
  {
    assert BallotHolds(h, acks, b);
    if b.term in h'.elections ==> b.node in h'.elections[b.term].voters {
      forall k | k in acks' && k.node == b.node && k.term < b.term
        ensures Held(h', k.term, acks'[k], h'.ballots[b].log, b.term)
      {
        assert AckBounded(members, h, acks, k);
        HeldGrows(h, h', n.id, k.term, acks[k], h.ballots[b].log, b.term, b.term);
      }
    }
  }

  /** A new ballot inherits the promise from the node that casts it. */
  lemma NewBallotHolds(members: set<NodeId>, h: Past, h': Past, acks: Acks, acks': Acks, n: NodeState, n': NodeState)
    requires PastOk(members, h) && AcksOk(members, h, acks) && NodeHolds(h, acks, n)
    requires Extends(h, h', n.id) && AcksExtend(acks, acks', n.id, n'.term)
    requires n'.id == n.id && n.term <= n'.term
    requires var b := Slot(n'.term, n.id); b !in h.ballots && b in h'.ballots && h'.ballots[b].log == n.log
    ensures BallotHolds(h', acks', Slot(n'.term, n.id))
  {
    var b := Slot(n'.term, n.id);
    if b.term in h.elections {
      assert ElectionOk(members, h, b.term);
      assert Continues(h.elections[b.term], h'.elections[b.term], n.id);
      assert b.node !in h'.elections[b.term].voters;
    } else {
      forall k | k in acks' && k.node == b.node && k.term < b.term
        ensures Held(h', k.term, acks'[k], n.log, b.term)
      {
        assert AckBounded(members, h, acks, k) && SlotHeld(h, acks, n, k);
        NoDivergenceIn(h, k.term, acks[k], n.log, b.term);
        var before := if n.term < b.term then n.term + 1 else b.term;
        HeldGrows(h, h', n.id, k.term, acks[k], n.log, before, b.term);
      }
    }
  }

  /** A term without a leader is no term to diverge in. */
  lemma NoDivergenceIn(h: Past, t: nat, upTo: nat, log: Log, u: nat)
    requires u !in h.elections
    ensures Held(h, t, upTo, log, u + 1) ==> Held(h, t, upTo, log, u)
  {
    if Held(h, t, upTo, log, u + 1) {
      forall k: nat | k <= upTo ensures HeldAt(h, t, k, log, u) {
        assert HeldAt(h, t, k, log, u + 1);
      }
    }
  }

  // ----- the node that moves -----

  /** What one step does to a node's acknowledgements and log. */
  ghost predicate Moves(members: set<NodeId>, h: Past, h': Past, acks: Acks, acks': Acks, n: NodeState, n': NodeState) {
    && n'.id == n.id && n.term <= n'.term
    && Extends(h, h', n.id) && AcksExtend(acks, acks', n.id, n'.term)
    && (Slot(n'.term, n.id) in acks' ==> AckBounded(members, h', acks', Slot(n'.term, n.id)))
    && (forall b | b in h'.ballots && b !in h.ballots :: b == Slot(n'.term, n.id) && h'.ballots[b].log == n.log)
    && (forall b | b in h.ballots && b.node == n.id :: b.term <= n'.term)
    && (n'.role == Leader ==> n'.term in h'.elections && LeaderAcks(h', acks', n'.term))
    && (forall t | t in h'.elections && !(n'.role == Leader && t == n'.term) ::
          t in h.elections && h'.elections[t] == h.elections[t])
  }

  lemma AcksOkAfter(members: set<NodeId>, h: Past, h': Past, acks: Acks, acks': Acks, n: NodeState, n': NodeState)
    requires PastOk(members, h) && AcksOk(members, h, acks) && NodeHolds(h, acks, n)
    requires Moves(members, h, h', acks, acks', n, n')
    ensures AcksOk(members, h', acks')
  {
    BoundsGrow(members, h, h', acks, acks', n');
    forall b | b in h'.ballots ensures BallotHolds(h', acks', b) {
      if b in h.ballots {
        if b.term in h.elections { assert Continues(h.elections[b.term], h'.elections[b.term], n.id); }
        OldBallotHolds(members, h, h', acks, acks', n', b);
      } else {
        NewBallotHolds(members, h, h', acks, acks', n, n');
      }
    }
  }

  lemma OthersHold(members: set<NodeId>, h: Past, h': Past, acks: Acks, acks': Acks, v: NodeId, t: nat, n: NodeState)
    requires AcksOk(members, h, acks) && NodeHolds(h, acks, n) && MatchesTrue(acks, n)
    requires Extends(h, h', v) && AcksExtend(acks, acks', v, t) && n.id != v
    ensures NodeHolds(h', acks', n) && MatchesTrue(acks', n)
  {
    forall k | k in acks' && k.node == n.id
      ensures SlotHeld(h', acks', n, k)
    {
      assert AckBounded(members, h, acks, k) && SlotHeld(h, acks, n, k);
      HeldGrows(h, h', v, k.term, acks[k], n.log, n.term + 1, n.term + 1);
    }
  }

  /** A node whose log only grows at the end keeps all it held. */
  lemma HoldsLonger(members: set<NodeId>, h: Past, h': Past, acks: Acks, n: NodeState, n': NodeState, k: Slot)
    requires AcksOk(members, h, acks) && NodeHolds(h, acks, n)
    requires Extends(h, h', n.id) && n'.id == n.id && n.term <= n'.term && n.log <= n'.log
    requires k in acks && k.node == n.id
    ensures k.term <= n'.term && Held(h', k.term, acks[k], n'.log, n'.term + 1)
  {
    assert AckBounded(members, h, acks, k) && SlotHeld(h, acks, n, k);
    var before := n'.term + 1;
    HeldGrows(h, h', n.id, k.term, acks[k], n.log, n.term + 1, before);
    forall j: nat | j <= acks[k] ensures HeldAt(h', k.term, j, n'.log, before) {
      assert HeldAt(h', k.term, j, n.log, before);
    }
  }

  lemma MergeShares(members: set<NodeId>, h: Past, n: NodeState, e: Envelope, t: nat, k: nat)
    requires PastOk(members, h) && NodeOk(members, h, n) && MessageOk(members, h, e)
    requires e.message.AppendEntries? && Accepts(n, e.message)
    requires Shares(h, t, k, n.log) && Shares(h, t, k, h.elections[e.message.term].log)
    ensures e.message.prevLogIndex <= |n.log|
    ensures Shares(h, t, k, Merge(n.log, e.message.prevLogIndex, e.message.entries))
  {
    var m := e.message;
    AcceptedSlice(members, h, n, e);
    MergeKeeps(n.log, h.elections[m.term].log, m.prevLogIndex, |m.entries|, k);
  }

  /** A merge keeps what the node shares with an earlier leader, or the sender
      itself was elected without it. */
  lemma MergeHolds(members: set<NodeId>, h: Past, n: NodeState, e: Envelope, t: nat, k: nat)
    requires PastOk(members, h) && NodeOk(members, h, n) && MessageOk(members, h, e)
    requires e.message.AppendEntries? && Accepts(n, e.message)
    requires t <= n.term && HeldAt(h, t, k, n.log, n.term + 1)
    ensures e.message.prevLogIndex <= |n.log|
    ensures HeldAt(h, t, k, Merge(n.log, e.message.prevLogIndex, e.message.entries), e.message.term + 1)
  {
    AcceptedSlice(members, h, n, e);
    var u := e.message.term;
    if Diverged(h, t, k, n.term + 1) {
      assert Diverged(h, t, k, u + 1);
    } else if t < u && !Shares(h, t, k, h.elections[u].base) {
      assert DivergedAt(h, t, k, u);
    } else {
      assert ElectionOk(members, h, u);
      MergeShares(members, h, n, e, t, k);
    }
  }

  lemma MergeHoldsAll(members: set<NodeId>, h: Past, n: NodeState, e: Envelope, t: nat, upTo: nat)
    requires PastOk(members, h) && NodeOk(members, h, n) && MessageOk(members, h, e)
    requires e.message.AppendEntries? && Accepts(n, e.message) && e.message.prevLogIndex <= |n.log|
    requires t <= n.term && Held(h, t, upTo, n.log, n.term + 1)
    ensures Held(h, t, upTo, Merge(n.log, e.message.prevLogIndex, e.message.entries), e.message.term + 1)
  {
    var merged, before := Merge(n.log, e.message.prevLogIndex, e.message.entries), e.message.term + 1;
    forall k: nat | k <= upTo ensures HeldAt(h, t, k, merged, before) {
      assert HeldAt(h, t, k, n.log, n.term + 1);
      MergeHolds(members, h, n, e, t, k);
    }
  }

  lemma CoveredHolds(members: set<NodeId>, h: Past, n: NodeState, e: Envelope, upTo: nat)
    requires PastOk(members, h) && NodeOk(members, h, n) && MessageOk(members, h, e)
    requires e.message.AppendEntries? && Accepts(n, e.message) && e.message.prevLogIndex <= |n.log|
    requires upTo <= e.message.prevLogIndex + |e.message.entries|
    ensures Held(h, e.message.term, upTo, Merge(n.log, e.message.prevLogIndex, e.message.entries), e.message.term + 1)
  {
    AcceptedMerge(members, h, n, e);
    var t := e.message.term;
    var merged, whole := Merge(n.log, e.message.prevLogIndex, e.message.entries), h.elections[t].log;
    var covered, before := e.message.prevLogIndex + |e.message.entries|, t + 1;
    forall k: nat | k <= upTo ensures HeldAt(h, t, k, merged, before) {
      ShorterPrefix(merged, whole, covered, k);
      assert whole[..k] <= merged;
    }
  }

  lemma AcceptHolds(members: set<NodeId>, h: Past, acks: Acks, n: NodeState, e: Envelope, n': NodeState)
    requires PastOk(members, h) && NodeOk(members, h, n) && MessageOk(members, h, e)
    requires NodeHolds(h, acks, n)
    requires e.message.AppendEntries? && Accepts(n, e.message) && e.message.prevLogIndex <= |n.log|
    requires n'.id == n.id && n'.term == e.message.term && n'.role != Leader
    requires n'.log == Merge(n.log, e.message.prevLogIndex, e.message.entries)
    ensures NodeHolds(h, Vouch(acks, n', Some(e.message.prevLogIndex + |e.message.entries|)), n')
  {
    var covered := e.message.prevLogIndex + |e.message.entries|;
    CoveredHolds(members, h, n, e, covered);
    var acks' := Vouch(acks, n', Some(covered));
    forall k | k in acks' && k.node == n.id ensures SlotHeld(h, acks', n', k) {
      if k in acks && acks'[k] == acks[k] {
        assert SlotHeld(h, acks, n, k);
        MergeHoldsAll(members, h, n, e, k.term, acks[k]);
      }
    }
  }

  /** A leader's log is the log it vouches for. */
  lemma LeaderHolds(h: Past, n: NodeState, upTo: nat)
    requires LeaderOk(h, n) && upTo <= |n.log|
    ensures Held(h, n.term, upTo, n.log, n.term + 1)
  {
  }

  lemma StayHolds(members: set<NodeId>, h: Past, h': Past, acks: Acks, n: NodeState, n': NodeState)
    requires AcksOk(members, h, acks) && NodeHolds(h, acks, n)
    requires Moves(members, h, h', acks, Vouch(acks, n', None), n, n')
    requires n.log <= n'.log && (n'.role == Leader ==> LeaderOk(h', n'))
    ensures NodeHolds(h', Vouch(acks, n', None), n')
  {
    var acks' := Vouch(acks, n', None);
    forall k | k in acks' && k.node == n.id
      ensures SlotHeld(h', acks', n', k)
    {
      if n'.role == Leader && k == Slot(n'.term, n.id) {
        LeaderHolds(h', n', acks'[k]);
      } else {
        HoldsLonger(members, h, h', acks, n, n', k);
      }
    }
  }

  // ----- steps -----

  lemma MovesAfter(members: set<NodeId>, h: Past, acks: Acks, n: NodeState, n': NodeState, campaign: bool,
                   ack: Option<nat>)
    requires AcksOk(members, h, acks) && NodeOk(members, h, n)
    requires var h' := Evolve(h, n', campaign);
             n'.id == n.id && Extends(h, h', n.id) && NodeOk(members, h', n')
    requires n.term <= n'.term
    requires n'.votedFor.Some? && Slot(n'.term, n.id) !in h.ballots ==> n'.log == n.log
    requires ack.Some? ==> n'.role != Leader && n'.term in h.elections && ack.value <= |h.elections[n'.term].log|
    ensures Moves(members, h, Evolve(h, n', campaign), acks, Vouch(acks, n', ack), n, n')
  {
    var h', acks', slot := Evolve(h, n', campaign), Vouch(acks, n', ack), Slot(n'.term, n.id);
    if slot in acks {
      assert AckBounded(members, h, acks, slot);
      assert Continues(h.elections[n'.term], h'.elections[n'.term], n.id);
    }
    assert slot in acks' ==> AckBounded(members, h', acks', slot);
    assert AcksExtend(acks, acks', n.id, n'.term);
  }

  /** What a handler owes the acknowledgements when it takes node n to out. */
  ghost predicate Vouched(members: set<NodeId>, h': Past, acks: Acks, acks': Acks, n: NodeState, out: Outcome) {
    && AcksExtend(acks, acks', n.id, out.node.term)
    && AcksOk(members, h', acks')
    && NodeHolds(h', acks', out.node)
    && MatchesTrue(acks', out.node)
    && (forall e {:trigger ReportTrue(h', acks', e)} | e in out.sent :: ReportTrue(h', acks', e))
  }

  /** Any step that accepts no entries: it vouches for nothing unless it leads. */
  lemma StayVouched(members: set<NodeId>, h: Past, acks: Acks, n: NodeState, out: Outcome, campaign: bool)
    requires PastOk(members, h) && AcksOk(members, h, acks) && NodeOk(members, h, n) && NodeHolds(h, acks, n)
    requires Kept(members, h, Evolve(h, out.node, campaign), n, out)
    requires n.term <= out.node.term && n.log <= out.node.log
    requires out.node.votedFor.Some? && Slot(out.node.term, n.id) !in h.ballots ==> out.node.log == n.log
    requires MatchesTrue(Vouch(acks, out.node, None), out.node)
    requires forall e | e in out.sent :: e.message.AppendEntriesResponse? ==> !e.message.success
    ensures Vouched(members, Evolve(h, out.node, campaign), acks, Vouch(acks, out.node, None), n, out)
  {
    var n' := out.node;
    MovesAfter(members, h, acks, n, n', campaign, None);
    AcksOkAfter(members, h, Evolve(h, n', campaign), acks, Vouch(acks, n', None), n, n');
    StayHolds(members, h, Evolve(h, n', campaign), acks, n, n');
  }

  /** What accepting a message leaves behind, apart from commit and store. */
  ghost predicate Accepted(n: NodeState, e: Envelope, n': NodeState)
    requires e.message.AppendEntries?
  {
    && n'.id == n.id && n'.peers == n.peers && n'.matched == n.matched
    && n'.term == e.message.term >= n.term
    && n'.role == (if e.message.term > n.term then Follower else n.role)
    && n'.votedFor == (if e.message.term > n.term then None else n.votedFor)
    && e.message.prevLogIndex <= |n.log|
    && n'.log == Merge(n.log, e.message.prevLogIndex, e.message.entries)
  }

  lemma AcceptQuiet(members: set<NodeId>, h: Past, n: NodeState, e: Envelope, n': NodeState)
    requires NodeOk(members, h, n) && MessageOk(members, h, e)
    requires e.message.AppendEntries? && e.to == n.id && Accepted(n, e, n')
    ensures n'.role != Leader && Evolve(h, n', false) == h
  {
  }

  lemma AcceptMoves(members: set<NodeId>, h: Past, acks: Acks, n: NodeState, e: Envelope, n': NodeState)
    requires PastOk(members, h) && AcksOk(members, h, acks)
    requires NodeOk(members, h, n) && MessageOk(members, h, e) && NodeOk(members, h, n')
    requires e.message.AppendEntries? && e.to == n.id && Accepts(n, e.message) && Accepted(n, e, n')
    ensures Moves(members, h, h, acks, Vouch(acks, n', Some(e.message.prevLogIndex + |e.message.entries|)), n, n')
  {
    AcceptQuiet(members, h, n, e, n');
    AcceptedMerge(members, h, n, e);
    MovesAfter(members, h, acks, n, n', false, Some(e.message.prevLogIndex + |e.message.entries|));
  }

  /** A reply under an older term is of no use to whoever leads the new one. */
  lemma AcceptReports(members: set<NodeId>, h: Past, acks: Acks, e: Envelope, reply: Envelope)
    requires MessageOk(members, h, e) && e.message.AppendEntries? && reply.message.AppendEntriesResponse?
    requires reply.to == e.from && reply.message.term <= e.message.term
    requires reply.message.lastLogIndex <= Acked(acks, Slot(e.message.term, reply.from))
    ensures ReportTrue(h, acks, reply)
  {
    if reply.message.term < e.message.term { assert Outdated(h, reply, e.message.term); }
  }

  lemma AcceptVouched(members: set<NodeId>, h: Past, acks: Acks, n: NodeState, e: Envelope, out: Outcome, term: nat)
    requires PastOk(members, h) && AcksOk(members, h, acks) && NodeOk(members, h, n) && NodeHolds(h, acks, n)
    requires MessageOk(members, h, e) && MatchesTrue(acks, n) && NodeOk(members, h, out.node)
    requires e.message.AppendEntries? && e.to == n.id && Accepts(n, e.message) && Accepted(n, e, out.node)
    requires out.sent == AppendReply(out.node, e.from, term, true, e.message.prevLogIndex + |e.message.entries|)
    requires term <= e.message.term
    ensures Vouched(members, h, acks, Vouch(acks, out.node, Some(e.message.prevLogIndex + |e.message.entries|)), n, out)
  {
    var n', covered := out.node, e.message.prevLogIndex + |e.message.entries|;
    var acks' := Vouch(acks, n', Some(covered));
    AcceptQuiet(members, h, n, e, n');
    AcceptMoves(members, h, acks, n, e, n');
    AcksOkAfter(members, h, h, acks, acks', n, n');
    AcceptHolds(members, h, acks, n, e, n');
    forall reply | reply in out.sent ensures ReportTrue(h, acks', reply) { AcceptReports(members, h, acks', e, reply); }
  }

  lemma RejectOutcome(r: Repairs, n: NodeState, e: Envelope)
    requires e.message.AppendEntries? && !Accepts(n, e.message)
    ensures var out := OnAppendEntries(r, n, e.from, e.message);
            && n.term <= out.node.term && out.node.log == n.log
            && out.node.matched == n.matched && out.node.peers == n.peers && out.node.id == n.id
            && (out.node.role == Leader ==> n.role == Leader && out.node.term == n.term)
            && (forall m | m in out.sent :: m.message.AppendEntriesResponse? ==> !m.message.success)
  {
  }

  lemma RejectVouched(r: Repairs, members: set<NodeId>, h: Past, acks: Acks, n: NodeState, e: Envelope, h': Past)
    requires PastOk(members, h) && AcksOk(members, h, acks) && NodeOk(members, h, n) && NodeHolds(h, acks, n)
    requires MatchesTrue(acks, n) && e.message.AppendEntries? && !Accepts(n, e.message)
    requires var out := OnAppendEntries(r, n, e.from, e.message);
             h' == Evolve(h, out.node, false) && Kept(members, h, h', n, out)
    ensures var out := OnAppendEntries(r, n, e.from, e.message);
            Vouched(members, h', acks, Vouch(acks, out.node, AckOf(n, Deliver(e))), n, out)
  {
    var out := OnAppendEntries(r, n, e.from, e.message);
    RejectOutcome(r, n, e);
    SameMatchesTrue(acks, n, out.node);
    assert out.node.votedFor.Some? && Slot(out.node.term, n.id) !in h.ballots ==> out.node.log == n.log;
    StayVouched(members, h, acks, n, out, false);
  }

  lemma TakeVouched(r: Repairs, members: set<NodeId>, h: Past, acks: Acks, n: NodeState, e: Envelope, h': Past)
    requires ReportsTruly(r, members)
    requires PastOk(members, h) && AcksOk(members, h, acks) && NodeOk(members, h, n) && NodeHolds(h, acks, n)
    requires MessageOk(members, h, e) && MatchesTrue(acks, n)
    requires e.message.AppendEntries? && e.to == n.id && Accepts(n, e.message)
    requires var out := OnAppendEntries(r, n, e.from, e.message);
             h' == Evolve(h, out.node, false) && Kept(members, h, h', n, out)
    ensures var out := OnAppendEntries(r, n, e.from, e.message);
            Vouched(members, h', acks, Vouch(acks, out.node, AckOf(n, Deliver(e))), n, out)
  {
    var out := OnAppendEntries(r, n, e.from, e.message);
    AcceptedOutcome(r, n, e.from, e.message);
    AcceptQuiet(members, h, n, e, out.node);
    assert h' == h && AckOf(n, Deliver(e)) == Some(e.message.prevLogIndex + |e.message.entries|);
    AcceptVouched(members, h, acks, n, e, out, if r.replyTerm then e.message.term else n.term);
  }

  /** The recorded matches stay true, and a new leader's are all zero. */
  lemma SameMatchesTrue(acks: Acks, n: NodeState, n': NodeState)
    requires MatchesTrue(acks, n)
    requires n'.matched == n.matched && n'.peers == n.peers && n'.id == n.id
    requires n'.role == Leader ==> n.role == Leader && n'.term == n.term
    ensures MatchesTrue(Vouch(acks, n', None), n')
  {
  }

  lemma ResponseMatchesTrue(r: Repairs, members: set<NodeId>, h: Past, acks: Acks, n: NodeState, e: Envelope)
    requires ReportsTruly(r, members) && NodeOk(members, h, n) && MatchesTrue(acks, n)
    requires MessageOk(members, h, e) && ReportTrue(h, acks, e) && e.to == n.id
    requires e.message.AppendEntriesResponse?
    ensures var n' := OnAppendResponse(r, n, e.from, e.message).node; MatchesTrue(Vouch(acks, n', None), n')
  {
    var n1 := n.(matched := n.matched[e.from := e.message.lastLogIndex],
                 next := n.next[e.from := e.message.lastLogIndex + 1]);
    var n' := OnAppendResponse(r, n, e.from, e.message).node;
    if n.role == Leader && e.message.term == n.term && e.message.success {
      assert n' == TryAdvance(n1).node;
      SameMatchesTrue(acks, n1, n');
    } else {
      SameMatchesTrue(acks, n, n');
    }
  }

  lemma TimeoutMatchesTrue(r: Repairs, acks: Acks, n: NodeState)
    requires MatchesTrue(acks, n)
    ensures var n' := StartElection(r, n).node; MatchesTrue(Vouch(acks, n', None), n')
  {
  }

  lemma VoteResponseMatchesTrue(r: Repairs, acks: Acks, n: NodeState, e: Envelope)
    requires MatchesTrue(acks, n) && e.message.RequestVoteResponse?
    ensures var n' := OnVoteResponse(r, n, e.from, e.message).node; MatchesTrue(Vouch(acks, n', None), n')
  {
  }

  lemma RequestVoteMatchesTrue(acks: Acks, n: NodeState, e: Envelope)
    requires MatchesTrue(acks, n) && e.message.RequestVote?
    ensures var n' := OnRequestVote(n, e.from, e.message).node; MatchesTrue(Vouch(acks, n', None), n')
  {
    SameMatchesTrue(acks, n, OnRequestVote(n, e.from, e.message).node);
  }

  lemma MessageMatchesTrue(r: Repairs, members: set<NodeId>, h: Past, acks: Acks, n: NodeState, e: Envelope)
    requires ReportsTruly(r, members) && NodeOk(members, h, n) && MatchesTrue(acks, n)
    requires MessageOk(members, h, e) && ReportTrue(h, acks, e) && e.to == n.id
    requires !e.message.AppendEntries?
    ensures MatchesTrue(Vouch(acks, OnMessage(r, n, e).node, None), OnMessage(r, n, e).node)
  {
    match e.message
    case AppendEntriesResponse(_, _, _, _) => ResponseMatchesTrue(r, members, h, acks, n, e);
    case RequestVote(_, _, _, _) => RequestVoteMatchesTrue(acks, n, e);
    case RequestVoteResponse(_, _, _) => VoteResponseMatchesTrue(r, acks, n, e);
  }

  lemma MatchesStayTrue(r: Repairs, members: set<NodeId>, h: Past, acks: Acks, n: NodeState, ev: Event)
    requires ReportsTruly(r, members) && NodeOk(members, h, n) && MatchesTrue(acks, n)
    requires ev.Deliver? ==>
               MessageOk(members, h, ev.envelope) && ReportTrue(h, acks, ev.envelope) && ev.envelope.to == n.id
    requires !(ev.Deliver? && ev.envelope.message.AppendEntries?)
    ensures MatchesTrue(Vouch(acks, React(r, n, ev).node, None), React(r, n, ev).node)
  {
    match ev
    case Timeout(_) => TimeoutMatchesTrue(r, acks, n);
    case Tick(_) => SameMatchesTrue(acks, n, n);
    case Request(_, client) => SameMatchesTrue(acks, n, OnPropose(n, client).node);
    case Crash(_) =>
    case Deliver(e) => MessageMatchesTrue(r, members, h, acks, n, e);
  }

  lemma MessageGrows(r: Repairs, members: set<NodeId>, h: Past, n: NodeState, e: Envelope)
    requires NodeOk(members, h, n) && !e.message.AppendEntries?
    ensures var n' := OnMessage(r, n, e).node;
            && n.term <= n'.term && n.log <= n'.log
            && (n'.votedFor.Some? && Slot(n'.term, n.id) !in h.ballots ==> n'.log == n.log)
  {
    if !e.message.RequestVote? { MessageVotes(r, n, e); }
  }

  /** Only a vote request changes the vote within a term. */
  lemma MessageVotes(r: Repairs, n: NodeState, e: Envelope)
    requires !e.message.AppendEntries? && !e.message.RequestVote?
    ensures var n' := OnMessage(r, n, e).node;
            && n'.log == n.log
            && ((n'.term == n.term && n'.votedFor == n.votedFor) || (n'.term > n.term && n'.votedFor == None))
  {
  }

  lemma ReactGrows(r: Repairs, members: set<NodeId>, h: Past, n: NodeState, ev: Event)
    requires NodeOk(members, h, n) && !(ev.Deliver? && ev.envelope.message.AppendEntries?)
    ensures var n' := React(r, n, ev).node;
            && n.term <= n'.term && n.log <= n'.log
            && (n'.votedFor.Some? && Slot(n'.term, n.id) !in h.ballots ==> n'.log == n.log)
  {
    if ev.Deliver? { MessageGrows(r, members, h, n, ev.envelope); }
  }

  lemma OtherVouched(r: Repairs, members: set<NodeId>, h: Past, acks: Acks, n: NodeState, ev: Event, h': Past)
    requires ReportsTruly(r, members) && !(ev.Deliver? && ev.envelope.message.AppendEntries?)
    requires PastOk(members, h) && AcksOk(members, h, acks) && NodeOk(members, h, n) && NodeHolds(h, acks, n)
    requires MatchesTrue(acks, n)
    requires ev.Deliver? ==>
               MessageOk(members, h, ev.envelope) && ReportTrue(h, acks, ev.envelope) && ev.envelope.to == n.id
    requires h' == Evolve(h, React(r, n, ev).node, ev.Timeout?)
    requires Kept(members, h, h', n, React(r, n, ev))
    ensures Vouched(members, h', acks, Vouch(acks, React(r, n, ev).node, None), n, React(r, n, ev))
  {
    MatchesStayTrue(r, members, h, acks, n, ev);
    ReactGrows(r, members, h, n, ev);
    NoSuccessSent(r, n, ev);
    StayVouched(members, h, acks, n, React(r, n, ev), ev.Timeout?);
  }

  lemma NoSuccessSent(r: Repairs, n: NodeState, ev: Event)
    requires !(ev.Deliver? && ev.envelope.message.AppendEntries?)
    ensures forall e | e in React(r, n, ev).sent :: !e.message.AppendEntriesResponse?
  {
  }

  lemma ReactVouched(r: Repairs, members: set<NodeId>, h: Past, acks: Acks, s: State, ev: Event)
    requires ReportsTruly(r, members) && Inv(members, h, s) && InvAcks(members, h, acks, s) && Enabled(s, ev)
    requires Kept(members, h, Remember(r, s, h, ev), s.nodes[Site(ev)], React(r, s.nodes[Site(ev)], ev))
    ensures var n := s.nodes[Site(ev)];
            Vouched(members, Remember(r, s, h, ev), acks, VouchStep(r, s, acks, ev), n, React(r, n, ev))
  {
    var n := s.nodes[Site(ev)];
    assert NodeHolds(h, acks, n);
    if ev.Deliver? {
      assert MessageOk(members, h, ev.envelope) && ReportTrue(h, acks, ev.envelope);
    }
    if ev.Deliver? && ev.envelope.message.AppendEntries? {
      if Accepts(n, ev.envelope.message) {
        TakeVouched(r, members, h, acks, n, ev.envelope, Remember(r, s, h, ev));
      } else {
        RejectVouched(r, members, h, acks, n, ev.envelope, Remember(r, s, h, ev));
      }
    } else {
      OtherVouched(r, members, h, acks, n, ev, Remember(r, s, h, ev));
    }
  }

  /** What nodes elsewhere hold and messages report is as true as before. */
  lemma ReportGrows(h: Past, h': Past, acks: Acks, acks': Acks, v: NodeId, u: nat, e: Envelope)
    requires Extends(h, h', v) && AcksExtend(acks, acks', v, u) && ReportTrue(h, acks, e)
    ensures ReportTrue(h', acks', e)
  {
    if e.message.AppendEntriesResponse? && exists t: nat :: Outdated(h, e, t) {
      var t: nat :| Outdated(h, e, t);
      assert Continues(h.elections[t], h'.elections[t], v);
      assert Outdated(h', e, t);
    }
  }

  lemma RestVouched(members: set<NodeId>, h: Past, h': Past, acks: Acks, acks': Acks, s: State, v: NodeId, t: nat)
    requires InvAcks(members, h, acks, s) && Extends(h, h', v) && AcksExtend(acks, acks', v, t)
    requires forall u | u in s.nodes :: s.nodes[u].id == u
    ensures forall u {:trigger NodeHolds(h', acks', s.nodes[u])} {:trigger MatchesTrue(acks', s.nodes[u])} |
              u in s.nodes && u != v ::
              NodeHolds(h', acks', s.nodes[u]) && MatchesTrue(acks', s.nodes[u])
    ensures forall e {:trigger ReportTrue(h', acks', e)} | e in s.network :: ReportTrue(h', acks', e)
  {
    forall u | u in s.nodes && u != v ensures NodeHolds(h', acks', s.nodes[u]) && MatchesTrue(acks', s.nodes[u]) {
      assert NodeHolds(h, acks, s.nodes[u]);
      OthersHold(members, h, h', acks, acks', v, t, s.nodes[u]);
    }
    forall e | e in s.network ensures ReportTrue(h', acks', e) {
      assert ReportTrue(h, acks, e);
      ReportGrows(h, h', acks, acks', v, t, e);
    }
  }

  lemma StepVouched(r: Repairs, members: set<NodeId>, h: Past, acks: Acks, s: State, ev: Event)
    requires ReportsTruly(r, members) && Inv(members, h, s) && InvAcks(members, h, acks, s)
    ensures InvAcks(members, Remember(r, s, h, ev), VouchStep(r, s, acks, ev), Step(r, s, ev))
  {
    if Enabled(s, ev) {
      var v := Site(ev);
      var n, h', acks' := s.nodes[v], Remember(r, s, h, ev), VouchStep(r, s, acks, ev);
      ReactKeeps(r, members, h, s, ev);
      ReactVouched(r, members, h, acks, s, ev);
      RestVouched(members, h, h', acks, acks', s, v, React(r, n, ev).node.term);
    }
  }

  lemma InitVouched(members: set<NodeId>)
    ensures Inv(members, NO_PAST, Init(members)) && InvAcks(members, NO_PAST, map[], Init(members))
  {
  }

  lemma {:induction false} RunVouched(r: Repairs, members: set<NodeId>, evs: seq<Event>)
    requires ReportsTruly(r, members)
    ensures var h, acks, s := PastOf(r, members, evs), AcksOf(r, members, evs), Run(r, members, evs);
            Inv(members, h, s) && InvAcks(members, h, acks, s)
  {
    if evs == [] {
      InitVouched(members);
    } else {
      var before, ev := evs[..|evs| - 1], evs[|evs| - 1];
      RunVouched(r, members, before);
      var h, acks, s := PastOf(r, members, before), AcksOf(r, members, before), Run(r, members, before);
      StepKeeps(r, members, h, s, ev);
      StepVouched(r, members, h, acks, s, ev);
    }
  }
}
