/** A client told `Success` had exactly its own command committed at that index. */
module ClientReplies {
  import opened RaftTypes
  import opened NodeSpec
  import opened Cluster
  import opened History
  import opened LogMatching
  import opened Acknowledgements
  import opened Replication
  import opened Commitment
  import opened Quorums

  /** What acknowledgements need; how far followers commit does not matter. */
  predicate AnswersTruly(r: Repairs, members: set<NodeId>) { ReportsTruly(r, members) && r.pendingReset }

  /** A leader's waiting clients wait at the index of their own command. */
  ghost predicate PendingTrue(n: NodeState) {
    n.role == Leader ==>
      forall i | i in n.pending :: 1 <= i <= |n.log| && n.log[i - 1].command == n.pending[i].wants
  }

  ghost predicate ReplyBy(members: set<NodeId>, h: Past, acks: Acks, reply: Reply, t: nat, k: nat)
    requires reply.result.Success?
  {
    var i := reply.result.index;
    && Committed(members, h, acks, t, k)
    && 1 <= i <= k
    && h.elections[t].log[i - 1].command == reply.client.wants
  }

  ghost predicate ReplyTrue(members: set<NodeId>, h: Past, acks: Acks, reply: Reply) {
    reply.result.Success? ==> exists t: nat, k: nat :: ReplyBy(members, h, acks, reply, t, k)
  }

  ghost predicate InvReplies(members: set<NodeId>, h: Past, acks: Acks, s: State) {
    && (forall v {:trigger PendingTrue(s.nodes[v])} | v in s.nodes :: PendingTrue(s.nodes[v]))
    && (forall a {:trigger ReplyTrue(members, h, acks, a)} | a in s.replies :: ReplyTrue(members, h, acks, a))
  }

  lemma ReplyGrows(members: set<NodeId>, h: Past, h': Past, acks: Acks, acks': Acks, v: NodeId, u: nat, reply: Reply)
    requires Extends(h, h', v) && AcksExtend(acks, acks', v, u)
    requires ReplyTrue(members, h, acks, reply)
    ensures ReplyTrue(members, h', acks', reply)
  {
    if reply.result.Success? {
      var t: nat, k: nat :| ReplyBy(members, h, acks, reply, t, k);
      CommittedGrows(members, h, h', acks, acks', v, u, t, k);
      assert Continues(h.elections[t], h'.elections[t], v);
      assert ReplyBy(members, h', acks', reply, t, k);
    }
  }

  lemma SamePending(n: NodeState, n': NodeState)
    requires PendingTrue(n) && n'.pending == n.pending && n'.log == n.log
    requires n'.role == Leader ==> n.role == Leader
    ensures PendingTrue(n')
  {
  }

  /** Every `Success` goes to a client whose command the leader just committed. */
  lemma SettledTrue(members: set<NodeId>, h: Past, acks: Acks, n: NodeState, i: nat)
    requires NodeOk(members, h, n) && n.role == Leader && PendingTrue(n)
    requires Committed(members, h, acks, n.term, i)
    ensures forall a | a in Settled(n.pending, i) :: ReplyTrue(members, h, acks, a)
  {
    forall a | a in Settled(n.pending, i) ensures ReplyTrue(members, h, acks, a) {
      assert ReplyBy(members, h, acks, a, n.term, i);
    }
  }

  /** Only a success reply of the leader's own term settles anything. */
  lemma ResponseOutcome(r: Repairs, n: NodeState, from: NodeId, m: Message)
    requires r.sameTerm && m.AppendEntriesResponse?
    ensures var out := OnAppendResponse(r, n, from, m);
            if n.role == Leader && m.term == n.term && m.success then
              out == TryAdvance(n.(matched := n.matched[from := m.lastLogIndex],
                                   next := n.next[from := m.lastLogIndex + 1]))
            else
              && out.replies == {} && out.node.pending == n.pending && out.node.log == n.log
              && (out.node.role == Leader ==> n.role == Leader)
  {
  }

  lemma ResponseReplies(r: Repairs, members: set<NodeId>, h: Past, acks: Acks, n: NodeState, e: Envelope)
    requires ReportsTruly(r, members)
    requires AcksOk(members, h, acks) && NodeOk(members, h, n) && MessageOk(members, h, e)
    requires MatchesTrue(acks, n) && ReportTrue(h, acks, e) && PendingTrue(n)
    requires e.message.AppendEntriesResponse? && e.to == n.id
    ensures var out := OnAppendResponse(r, n, e.from, e.message);
            PendingTrue(out.node) && forall a | a in out.replies :: ReplyTrue(members, h, acks, a)
  {
    ResponseOutcome(r, n, e.from, e.message);
    if n.role == Leader && e.message.term == n.term && e.message.success {
      var n1 := n.(matched := n.matched[e.from := e.message.lastLogIndex],
                   next := n.next[e.from := e.message.lastLogIndex + 1]);
      SameVoteAndLog(members, h, n, n1);
      AdvanceReplies(members, h, acks, n1);
    }
  }

  lemma AdvanceReplies(members: set<NodeId>, h: Past, acks: Acks, n: NodeState)
    requires AcksOk(members, h, acks) && NodeOk(members, h, n) && MatchesTrue(acks, n) && PendingTrue(n)
    requires n.role == Leader
    ensures PendingTrue(TryAdvance(n).node) && forall a | a in TryAdvance(n).replies :: ReplyTrue(members, h, acks, a)
  {
    if ScanDown(n, |n.log|).Some? {
      ScanIsGreatest(n, |n.log|);
      CommittableCommitted(members, h, acks, n, ScanDown(n, |n.log|).value);
      SettledTrue(members, h, acks, n, ScanDown(n, |n.log|).value);
    }
  }

  lemma VoteResponsePending(r: Repairs, n: NodeState, e: Envelope)
    requires r.pendingReset && PendingTrue(n) && e.message.RequestVoteResponse?
    ensures var out := OnVoteResponse(r, n, e.from, e.message); PendingTrue(out.node) && out.replies == {}
  {
  }

  lemma AppendEntriesPending(r: Repairs, members: set<NodeId>, h: Past, n: NodeState, e: Envelope)
    requires NodeOk(members, h, n) && MessageOk(members, h, e) && PendingTrue(n)
    requires e.message.AppendEntries? && e.to == n.id
    ensures var out := OnAppendEntries(r, n, e.from, e.message); PendingTrue(out.node) && out.replies == {}
  {
    var n' := OnAppendEntries(r, n, e.from, e.message).node;
    if e.message.term < n.term {
      SamePending(n, n');
    } else {
      assert e.message.term == n.term ==> n.role != Leader;
      assert n'.role != Leader;
    }
  }

  lemma ReactReplies(r: Repairs, members: set<NodeId>, h: Past, acks: Acks, n: NodeState, ev: Event)
    requires AnswersTruly(r, members)
    requires AcksOk(members, h, acks) && NodeOk(members, h, n) && MatchesTrue(acks, n) && PendingTrue(n)
    requires ev.Deliver? ==>
               ev.envelope.to == n.id && MessageOk(members, h, ev.envelope) && ReportTrue(h, acks, ev.envelope)
    ensures PendingTrue(React(r, n, ev).node)
    ensures forall a {:trigger ReplyTrue(members, h, acks, a)} | a in React(r, n, ev).replies ::
              ReplyTrue(members, h, acks, a)
  {
    match ev
    case Timeout(_) =>
    case Tick(_) =>
    case Request(_, client) => ProposePending(n, client);
    case Crash(_) =>
    case Deliver(e) => MessageReplies(r, members, h, acks, n, e);
  }

  lemma MessageReplies(r: Repairs, members: set<NodeId>, h: Past, acks: Acks, n: NodeState, e: Envelope)
    requires AnswersTruly(r, members)
    requires AcksOk(members, h, acks) && NodeOk(members, h, n) && MatchesTrue(acks, n) && PendingTrue(n)
    requires e.to == n.id && MessageOk(members, h, e) && ReportTrue(h, acks, e)
    ensures var out := OnMessage(r, n, e);
            PendingTrue(out.node) && forall a | a in out.replies :: ReplyTrue(members, h, acks, a)
  {
    match e.message
    case AppendEntries(_, _, _, _, _, _) => AppendEntriesPending(r, members, h, n, e);
    case AppendEntriesResponse(_, _, _, _) => ResponseReplies(r, members, h, acks, n, e);
    case RequestVote(_, _, _, _) => SamePending(n, OnRequestVote(n, e.from, e.message).node);
    case RequestVoteResponse(_, _, _) => VoteResponsePending(r, n, e);
  }

  lemma ProposePending(n: NodeState, client: Client)
    requires PendingTrue(n)
    ensures PendingTrue(OnPropose(n, client).node)
    ensures forall a | a in OnPropose(n, client).replies :: !a.result.Success?
  {
  }

  lemma RepliesGrow(members: set<NodeId>, h: Past, h': Past, acks: Acks, acks': Acks, v: NodeId, u: nat,
                    replies: set<Reply>)
    requires Extends(h, h', v) && AcksExtend(acks, acks', v, u)
    requires forall a {:trigger ReplyTrue(members, h, acks, a)} | a in replies :: ReplyTrue(members, h, acks, a)
    ensures forall a {:trigger ReplyTrue(members, h', acks', a)} | a in replies :: ReplyTrue(members, h', acks', a)
  {
    forall a | a in replies ensures ReplyTrue(members, h', acks', a) {
      assert ReplyTrue(members, h, acks, a);
      ReplyGrows(members, h, h', acks, acks', v, u, a);
    }
  }

  lemma StepReplies(r: Repairs, members: set<NodeId>, h: Past, acks: Acks, s: State, ev: Event)
    requires AnswersTruly(r, members)
    requires Inv(members, h, s) && InvAcks(members, h, acks, s)
    requires InvReplies(members, h, acks, s)
    ensures InvReplies(members, Remember(r, s, h, ev), VouchStep(r, s, acks, ev), Step(r, s, ev))
  {
    if Enabled(s, ev) {
      var n, h', acks' := s.nodes[Site(ev)], Remember(r, s, h, ev), VouchStep(r, s, acks, ev);
      var out := React(r, n, ev);
      ReactKeeps(r, members, h, s, ev);
      ReactVouched(r, members, h, acks, s, ev);
      SiteReplies(r, members, h, acks, s, ev);
      RepliesGrow(members, h, h', acks, acks', n.id, out.node.term, s.replies + out.replies);
      OthersPending(r, s, ev);
    }
  }

  lemma SiteReplies(r: Repairs, members: set<NodeId>, h: Past, acks: Acks, s: State, ev: Event)
    requires AnswersTruly(r, members) && Enabled(s, ev)
    requires Inv(members, h, s) && InvAcks(members, h, acks, s) && InvReplies(members, h, acks, s)
    ensures var out := React(r, s.nodes[Site(ev)], ev);
            && PendingTrue(out.node)
            && forall a {:trigger ReplyTrue(members, h, acks, a)} | a in s.replies + out.replies ::
                 ReplyTrue(members, h, acks, a)
  {
    var n := s.nodes[Site(ev)];
    assert MatchesTrue(acks, n) && PendingTrue(n);
    if ev.Deliver? { assert MessageOk(members, h, ev.envelope) && ReportTrue(h, acks, ev.envelope); }
    ReactReplies(r, members, h, acks, n, ev);
  }

  lemma OthersPending(r: Repairs, s: State, ev: Event)
    requires Enabled(s, ev) && PendingTrue(React(r, s.nodes[Site(ev)], ev).node)
    requires forall v {:trigger PendingTrue(s.nodes[v])} | v in s.nodes :: PendingTrue(s.nodes[v])
    ensures forall v {:trigger PendingTrue(Step(r, s, ev).nodes[v])} | v in Step(r, s, ev).nodes ::
              PendingTrue(Step(r, s, ev).nodes[v])
  {
  }

  lemma {:induction false} RunReplies(r: Repairs, members: set<NodeId>, evs: seq<Event>)
    requires AnswersTruly(r, members)
    ensures InvReplies(members, PastOf(r, members, evs), AcksOf(r, members, evs), Run(r, members, evs))
  {
    if evs != [] {
      var before := evs[..|evs| - 1];
      RunReplies(r, members, before);
      RunVouched(r, members, before);
      StepReplies(r, members, PastOf(r, members, before), AcksOf(r, members, before), Run(r, members, before),
                  evs[|evs| - 1]);
    }
  }
}
