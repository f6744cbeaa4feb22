/** What followers vouch for, and Leader Completeness.

    A node that acknowledged a leader's log keeps what it acknowledged, unless
    some later leader was elected without it. That alone, with the vote check
    and overlapping quorums, puts every committed entry into the log of every
    later leader. */
module Acknowledgements {
  import opened RaftTypes
  import opened LogSpec
  import opened NodeSpec
  import opened Cluster
  import opened History
  import opened LogMatching

  /** How far into the leader's log of a term a node has vouched to follow it. */
  type Acks = map<Slot, nat>

  function Acked(acks: Acks, k: Slot): nat {
    if k in acks then acks[k] else 0
  }

  /** The acknowledgements after a step that leaves a node in state n. */
  function Vouch(acks: Acks, n: NodeState, ack: Option<nat>): Acks {
    var slot := Slot(n.term, n.id);
    if n.role == Leader then acks[slot := Max(|n.log|, Acked(acks, slot))]
    else if ack.Some? then acks[slot := Max(ack.value, Acked(acks, slot))]
    else acks
  }

  ghost function AckOf(n: NodeState, ev: Event): Option<nat> {
    if ev.Deliver? && ev.envelope.message.AppendEntries? && Accepts(n, ev.envelope.message)
    then Some(ev.envelope.message.prevLogIndex + |ev.envelope.message.entries|)
    else None
  }

  ghost function VouchStep(r: Repairs, s: State, acks: Acks, ev: Event): Acks {
    if !Enabled(s, ev) then acks else
    var n := s.nodes[Site(ev)];
    Vouch(acks, React(r, n, ev).node, AckOf(n, ev))
  }

  ghost function AcksOf(r: Repairs, members: set<NodeId>, evs: seq<Event>): Acks {
    if evs == [] then map[] else
    var before := evs[..|evs| - 1];
    VouchStep(r, Run(r, members, before), AcksOf(r, members, before), evs[|evs| - 1])
  }

  // ----- holding on to what was acknowledged -----

  ghost predicate Shares(h: Past, t: nat, k: nat, log: Log) {
    t in h.elections && k <= |h.elections[t].log| && h.elections[t].log[..k] <= log
  }

  /** Leader u of a later term was elected without the first k entries of t's leader. */
  ghost predicate DivergedAt(h: Past, t: nat, k: nat, u: nat) {
    t < u && u in h.elections && !Shares(h, t, k, h.elections[u].base)
  }

  ghost predicate Diverged(h: Past, t: nat, k: nat, before: nat) {
    exists u: nat :: u < before && DivergedAt(h, t, k, u)
  }

  ghost predicate HeldAt(h: Past, t: nat, k: nat, log: Log, before: nat) {
    Shares(h, t, k, log) || Diverged(h, t, k, before)
  }

  ghost predicate Held(h: Past, t: nat, upTo: nat, log: Log, before: nat) {
    forall k: nat | k <= upTo :: HeldAt(h, t, k, log, before)
  }

  // ----- the invariant -----

  ghost predicate AckBounded(members: set<NodeId>, h: Past, acks: Acks, k: Slot)
    requires k in acks
  {
    k.node in members && k.term in h.elections && acks[k] <= |h.elections[k.term].log|
  }

  ghost predicate LeaderAcks(h: Past, acks: Acks, t: nat)
    requires t in h.elections
  {
    var k := Slot(t, h.elections[t].leader);
    k in acks && |h.elections[t].log| <= acks[k]
  }

  /** A vote that may have decided an election was cast with every earlier
      acknowledgement still held. */
  ghost predicate BallotHolds(h: Past, acks: Acks, b: Slot)
    requires b in h.ballots
  {
    (b.term in h.elections ==> b.node in h.elections[b.term].voters) ==>
      forall k | k in acks && k.node == b.node && k.term < b.term ::
        Held(h, k.term, acks[k], h.ballots[b].log, b.term)
  }

  ghost predicate AcksOk(members: set<NodeId>, h: Past, acks: Acks) {
    && (forall k {:trigger AckBounded(members, h, acks, k)} | k in acks :: AckBounded(members, h, acks, k))
    && (forall t {:trigger LeaderAcks(h, acks, t)} | t in h.elections :: LeaderAcks(h, acks, t))
    && (forall b {:trigger BallotHolds(h, acks, b)} | b in h.ballots :: BallotHolds(h, acks, b))
  }

  ghost predicate SlotHeld(h: Past, acks: Acks, n: NodeState, k: Slot)
    requires k in acks
  {
    k.term <= n.term && Held(h, k.term, acks[k], n.log, n.term + 1)
  }

  ghost predicate NodeHolds(h: Past, acks: Acks, n: NodeState) {
    forall k {:trigger SlotHeld(h, acks, n, k)} | k in acks && k.node == n.id :: SlotHeld(h, acks, n, k)
  }

  /** Match-index truth: what a leader has recorded for a peer, the peer
      acknowledged in the leader's term. */
  ghost predicate MatchesTrue(acks: Acks, n: NodeState) {
    && n.matched.Keys <= n.peers
    && (n.role == Leader ==>
          forall p | p in n.matched :: n.matched[p] <= Acked(acks, Slot(n.term, p)))
  }

  /** The receiver of a message has led a term later than the message's. */
  ghost predicate Outdated(h: Past, e: Envelope, t: nat)
    requires e.message.AppendEntriesResponse?
  {
    t in h.elections && h.elections[t].leader == e.to && e.message.term < t
  }

  /** What a success reply reports its sender acknowledged, or the receiver has
      no use for it any more. */
  ghost predicate ReportTrue(h: Past, acks: Acks, e: Envelope) {
    e.message.AppendEntriesResponse? && e.message.success ==>
      || e.message.lastLogIndex <= Acked(acks, Slot(e.message.term, e.from))
      || exists t: nat :: Outdated(h, e, t)
  }

  ghost predicate InvAcks(members: set<NodeId>, h: Past, acks: Acks, s: State) {
    && AcksOk(members, h, acks)
    && (forall v {:trigger NodeHolds(h, acks, s.nodes[v])} {:trigger MatchesTrue(acks, s.nodes[v])} | v in s.nodes ::
          NodeHolds(h, acks, s.nodes[v]) && MatchesTrue(acks, s.nodes[v]))
    && (forall e {:trigger ReportTrue(h, acks, e)} | e in s.network :: ReportTrue(h, acks, e))
  }

  // ----- commitment -----

  ghost function Vouchers(members: set<NodeId>, acks: Acks, t: nat, k: nat): set<NodeId> {
    set v | v in members && Slot(t, v) in acks && acks[Slot(t, v)] >= k
  }

  /** Raft's commit rule: an entry of the leader's own term on a majority. */
  ghost predicate Committed(members: set<NodeId>, h: Past, acks: Acks, t: nat, k: nat) {
    && t in h.elections
    && 1 <= k <= |h.elections[t].log|
    && h.elections[t].log[k - 1].term == t
    && Quorum(members, Vouchers(members, acks, t, k))
  }

  // ----- Leader Completeness -----

  /** The vote check carries a committed prefix from a voter's log over to the
      candidate's, if every leader in between had it. */
  lemma UpToDateCarries(h: Past, t: nat, k: nat, voter: Log, base: Log)
    requires LogOk(h, voter) && LogOk(h, base)
    requires Shares(h, t, k, voter) && LogOk(h, h.elections[t].log)
    requires 1 <= k && h.elections[t].log[k - 1].term == t
    requires UpToDate(LastTerm(base), |base|, voter)
    requires var u := LastTerm(base); t < u && u in h.elections ==> Shares(h, t, k, h.elections[u].log)
    ensures Shares(h, t, k, base)
  {
    var whole := h.elections[t].log;
    assert voter[k - 1] == whole[..k][k - 1];
    TermsSorted(h, voter, k - 1, |voter| - 1);
    LastRoots(h, voter);
    var u := LastTerm(base);
    LastRoots(h, base);
    if u == LastTerm(voter) {
      assert voter <= base;
    } else if |base| < k {
      assert base[|base| - 1] == h.elections[u].log[..k][|base| - 1] == whole[|base| - 1];
      TermsSorted(h, whole, |base| - 1, k - 1);
    }
  }

  /** A committed entry, with all before it, is in the log of every later
      leader from the moment of its election. */
  lemma {:induction false} LeaderCompleteness(members: set<NodeId>, h: Past, acks: Acks, t: nat, k: nat, u: nat)
    requires PastOk(members, h) && AcksOk(members, h, acks)
    requires Committed(members, h, acks, t, k)
    requires t < u && u in h.elections
    ensures Shares(h, t, k, h.elections[u].base)
    decreases u
  {
    var e := h.elections[u];
    assert ElectionOk(members, h, u) && ElectionOk(members, h, t);
    var v := QuorumsMeet(members, Vouchers(members, acks, t, k), e.voters);
    var b := Slot(u, v);
    assert BallotOk(members, h, b) && BallotHolds(h, acks, b);
    assert HeldAt(h, t, k, h.ballots[b].log, u);
    NotDiverged(members, h, acks, t, k, u);
    assert CandidacyOk(members, h, Slot(u, e.leader));
    var w := LastTerm(e.base);
    if t < w && w in h.elections {
      LeaderCompleteness(members, h, acks, t, k, w);
      assert ElectionOk(members, h, w);
    }
    UpToDateCarries(h, t, k, h.ballots[b].log, e.base);
  }

  lemma {:induction false} NotDiverged(members: set<NodeId>, h: Past, acks: Acks, t: nat, k: nat, u: nat)
    requires PastOk(members, h) && AcksOk(members, h, acks)
    requires Committed(members, h, acks, t, k)
    ensures !Diverged(h, t, k, u)
    decreases u, 0
  {
    forall w: nat | w < u ensures !DivergedAt(h, t, k, w) {
      if t < w && w in h.elections { LeaderCompleteness(members, h, acks, t, k, w); }
    }
  }

  /** Leaders of any two terms agree on what the earlier one committed. */
  lemma CommittedInLater(members: set<NodeId>, h: Past, acks: Acks, t: nat, k: nat, u: nat)
    requires PastOk(members, h) && AcksOk(members, h, acks)
    requires Committed(members, h, acks, t, k)
    requires t <= u && u in h.elections
    ensures Shares(h, t, k, h.elections[u].log)
  {
    if t < u {
      LeaderCompleteness(members, h, acks, t, k, u);
      assert ElectionOk(members, h, u);
    }
  }
}
