/** What holds of every run whatever repairs are made, the code as it stands
    included: terms and votes never go back, and every message carries its
    entries at the places it says. */
module Persistence {
  import opened RaftTypes
  import opened LogSpec
  import opened NodeSpec
  import opened Cluster

  // ----- term and vote -----

  /** The term never falls, and within a term the vote is cast at most once. */
  ghost predicate Advances(n: NodeState, n': NodeState) {
    && n.term <= n'.term
    && (n.term == n'.term && n.votedFor.Some? ==> n'.votedFor == n.votedFor)
  }

  lemma MessageAdvances(r: Repairs, n: NodeState, e: Envelope)
    ensures Advances(n, OnMessage(r, n, e).node)
  {
    match e.message
    case AppendEntries(_, _, _, _, _, _) =>
    case AppendEntriesResponse(_, _, _, _) =>
    case RequestVote(_, _, _, _) =>
    case RequestVoteResponse(_, _, _) =>
  }

  lemma ReactAdvances(r: Repairs, n: NodeState, ev: Event)
    ensures Advances(n, React(r, n, ev).node)
  {
    if ev.Deliver? { MessageAdvances(r, n, ev.envelope); }
  }

  lemma {:induction false} NodesStay(r: Repairs, members: set<NodeId>, evs: seq<Event>)
    ensures Run(r, members, evs).nodes.Keys == members
  {
    if evs != [] { NodesStay(r, members, evs[..|evs| - 1]); }
  }

  /** Along every run, crashes included, a node's term never decreases, and
      once it has voted in a term it keeps that vote for the term. */
  lemma {:induction false} VoteAndTermPersist(r: Repairs, members: set<NodeId>, evs: seq<Event>, i: nat, v: NodeId)
    requires i <= |evs| && v in members
    ensures v in Run(r, members, evs[..i]).nodes && v in Run(r, members, evs).nodes
    ensures Advances(Run(r, members, evs[..i]).nodes[v], Run(r, members, evs).nodes[v])
  {
    NodesStay(r, members, evs[..i]);
    NodesStay(r, members, evs);
    if i == |evs| {
      assert evs[..i] == evs;
    } else {
      var before, ev := evs[..|evs| - 1], evs[|evs| - 1];
      assert before[..i] == evs[..i];
      VoteAndTermPersist(r, members, before, i, v);
      var s := Run(r, members, before);
      if Enabled(s, ev) { ReactAdvances(r, s.nodes[Site(ev)], ev); }
    }
  }

  // ----- messages carry entries in place -----

  ghost predicate InPlace(m: Message) {
    m.AppendEntries? ==> Indexed(m.entries, m.prevLogIndex)
  }

  ghost predicate AllInPlace(s: State) {
    && (forall v {:trigger Indexed(s.nodes[v].log, 0)} | v in s.nodes :: Indexed(s.nodes[v].log, 0))
    && (forall e {:trigger InPlace(e.message)} | e in s.network :: InPlace(e.message))
  }

  /** A leader's own heartbeat, with its term and its commit index. */
  ghost predicate News(n: NodeState, e: Envelope) {
    e.message.AppendEntries? ==>
      && e in Heartbeats(n) && n.role == Leader
      && e.message.term == n.term && e.message.leaderCommit == n.commit
  }

  lemma HeartbeatsAreNews(n: NodeState)
    ensures forall e | e in Heartbeats(n) :: News(n, e)
  {
  }

  lemma VoteResponseNews(r: Repairs, n: NodeState, from: NodeId, m: Message)
    requires m.RequestVoteResponse?
    ensures var out := OnVoteResponse(r, n, from, m); forall e | e in out.sent :: News(out.node, e)
  {
  }

  lemma ElectionNews(r: Repairs, n: NodeState)
    ensures var out := StartElection(r, n); forall e | e in out.sent :: News(out.node, e)
  {
  }

  lemma AppendNews(r: Repairs, n: NodeState, from: NodeId, m: Message)
    requires m.AppendEntries?
    ensures forall e | e in OnAppendEntries(r, n, from, m).sent :: !e.message.AppendEntries?
  {
  }

  /** Only leaders send entries, and they announce their own commit index. */
  lemma SentNews(r: Repairs, n: NodeState, ev: Event, e: Envelope)
    requires e in React(r, n, ev).sent
    ensures News(React(r, n, ev).node, e)
  {
    match ev
    case Timeout(_) => ElectionNews(r, n);
    case Tick(_) => HeartbeatsAreNews(n);
    case Request(_, client) => HeartbeatsAreNews(OnPropose(n, client).node);
    case Crash(_) =>
    case Deliver(d) =>
      match d.message {
        case AppendEntries(_, _, _, _, _, _) => AppendNews(r, n, d.from, d.message);
        case AppendEntriesResponse(_, _, _, _) =>
        case RequestVote(_, _, _, _) =>
        case RequestVoteResponse(_, _, _) => VoteResponseNews(r, n, d.from, d.message);
      }
  }

  lemma AcceptedIndexed(r: Repairs, n: NodeState, from: NodeId, m: Message)
    requires m.AppendEntries? && Indexed(n.log, 0) && InPlace(m)
    ensures Indexed(OnAppendEntries(r, n, from, m).node.log, 0)
  {
    if Accepts(n, m) {
      assert OnAppendEntries(r, n, from, m).node.log == Merge(n.log, m.prevLogIndex, m.entries);
    }
  }

  /** Elections, votes and replies leave the log alone. */
  lemma SameLog(r: Repairs, n: NodeState, ev: Event)
    requires !ev.Request? && !(ev.Deliver? && ev.envelope.message.AppendEntries?)
    ensures React(r, n, ev).node.log == n.log
  {
  }

  lemma LogsStayIndexed(r: Repairs, n: NodeState, ev: Event)
    requires Indexed(n.log, 0) && (ev.Deliver? ==> InPlace(ev.envelope.message))
    ensures Indexed(React(r, n, ev).node.log, 0)
  {
    if ev.Deliver? && ev.envelope.message.AppendEntries? {
      AcceptedIndexed(r, n, ev.envelope.from, ev.envelope.message);
    } else if !ev.Request? {
      SameLog(r, n, ev);
    }
  }

  lemma ReactInPlace(r: Repairs, n: NodeState, ev: Event)
    requires Indexed(n.log, 0) && (ev.Deliver? ==> InPlace(ev.envelope.message))
    ensures Indexed(React(r, n, ev).node.log, 0)
    ensures forall e | e in React(r, n, ev).sent :: InPlace(e.message)
  {
    LogsStayIndexed(r, n, ev);
    forall e | e in React(r, n, ev).sent ensures InPlace(e.message) {
      SentNews(r, n, ev, e);
    }
  }

  lemma StepInPlace(r: Repairs, s: State, ev: Event)
    requires AllInPlace(s)
    ensures AllInPlace(Step(r, s, ev))
  {
    if Enabled(s, ev) {
      var n, s' := s.nodes[Site(ev)], Step(r, s, ev);
      assert Indexed(n.log, 0) && (ev.Deliver? ==> InPlace(ev.envelope.message));
      ReactInPlace(r, n, ev);
      forall v | v in s'.nodes ensures Indexed(s'.nodes[v].log, 0) {
        if v != Site(ev) { assert Indexed(s.nodes[v].log, 0); }
      }
      forall e | e in s'.network ensures InPlace(e.message) {
        if e in s.network { assert InPlace(e.message); }
      }
    }
  }

  /** Every AppendEntries any run puts into the network holds the entry for
      index prev + 1 + i at position i. */
  lemma {:induction false} MessagesInPlace(r: Repairs, members: set<NodeId>, evs: seq<Event>)
    ensures AllInPlace(Run(r, members, evs))
  {
    if evs != [] {
      var before, ev := evs[..|evs| - 1], evs[|evs| - 1];
      MessagesInPlace(r, members, before);
      StepInPlace(r, Run(r, members, before), ev);
    }
  }

  /** A cluster of one leads as soon as its timer fires, but never commits
      anything and never tells a client that it did: only replies set the commit
      scan off, and nobody replies. */
  lemma {:induction false} LoneNodeNeverCommits(r: Repairs, v: NodeId, evs: seq<Event>)
    ensures var s := Run(r, {v}, evs);
            && s.nodes.Keys == {v} && s.nodes[v].peers == {} && s.nodes[v].commit == 0
            && s.network == {}
            && (evs != [] && evs[|evs| - 1] == Timeout(v) ==> s.nodes[v].role == Leader)
            && forall a | a in s.replies :: !a.result.Success?
  {
    if evs == [] {
      assert {v} - {v} == {};
    } else {
      LoneNodeNeverCommits(r, v, evs[..|evs| - 1]);
    }
  }
}
