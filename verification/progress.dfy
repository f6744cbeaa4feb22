/** What a run can always go on to, as the code stands and however repaired, where
    votes count: followers commit what their leader has committed, a leader
    commits what a majority has, and its clients are answered. */
module Progress {
  import opened RaftTypes
  import opened LogSpec
  import opened StoreSpec
  import opened NodeSpec
  import opened Cluster
  import opened History
  import opened LogMatching
  import opened Persistence
  import opened Scenarios
  import opened Stores
  import opened Convergence
  import opened Duties
  import opened CatchUp

  // ----- one heartbeat -----

  /** The next heartbeat will carry all that the follower might lack: it has the
      leader's log, and the leader knows of all but a batch of it. */
  ghost predicate Covering(p: Pair) {
    Even(p) && Gap(p) == 0 && Next(p) <= Common(p) + 1 && Next(p) - 1 + Batch(p) == |p.leader.log|
  }

  /** With that heartbeat the follower commits whatever its leader has committed,
      and acknowledges the whole log in the leader's term. */
  lemma CoveringRound(r: Repairs, p: Pair)
    requires Covering(p)
    ensures var p' := Round(r, p);
            && Keeps(p, p') && Gap(p') == 0
            && Min(p.leader.commit, |p.leader.log|) <= p'.follower.commit <= Max(p.follower.commit, p.leader.commit)
    ensures exists last: nat :: last >= |p.leader.log| &&
              Answers(r, p) == {Envelope(p.follower.id, p.leader.id,
                                         AppendEntriesResponse(p.leader.term, true, last, p.follower.id))}
  {
    RoundKeeps(r, p);
    FollowerAgrees(p);
    EntriesAccepted(r, p.follower, p.leader.id, AppendMessage(p.leader, p.follower.id));
    FollowerCommits(r, p.follower, p.leader.id, AppendMessage(p.leader, p.follower.id));
  }

  /** Until then every round comes closer. */
  lemma ShortRound(r: Repairs, p: Pair, ceiling: nat)
    requires Even(p) && Gap(p) == 0 && !Covering(p) && Ceiling(p) <= ceiling
    ensures var p' := Round(r, p);
            Keeps(p, p') && Gap(p') == 0 && Ceiling(p') <= ceiling && Descent(p', ceiling) < Descent(p, ceiling)
  {
    RoundKeeps(r, p);
    if Next(p) > Common(p) + 1 { RejectedRound(r, p); } else { AcceptedRound(r, p); }
  }

  lemma RoundCommits(r: Repairs, p: Pair)
    requires Paired(p)
    ensures p.leader.commit <= Round(r, p).leader.commit
  {
    var reply := OneReply(r, p.follower, p.leader.id, AppendMessage(p.leader, p.follower.id));
    ResponseKeepsCommit(r, p.leader, p.follower.id, reply.message);
  }

  // ----- the data -----

  /** The follower's data are the replay of what it has committed, which is part of
      the leader's log, and both logs are in place. */
  ghost predicate Truthful(p: Pair) {
    && StoreTrue(p.follower) && Indexed(p.follower.log, 0) && Indexed(p.leader.log, 0)
    && p.follower.commit <= |p.leader.log| && p.leader.commit <= |p.leader.log|
  }

  /** A slice of the leader's log changes nothing of a log that has it all. */
  lemma SliceKeeps(mine: Log, whole: Log, prev: nat, n: nat, c: nat)
    requires whole <= mine && prev + n <= |whole| && c <= |whole|
    ensures var merged := Merge(mine, prev, whole[prev..prev + n]);
            c <= |merged| && merged[..c] == mine[..c]
  {
    assert mine[..|whole|] == whole;
    MergeKeeps(mine, whole, prev, n, |whole|);
    ShorterPrefix(Merge(mine, prev, whole[prev..prev + n]), mine, |whole|, c);
  }

  lemma AcceptedKeepsTruth(r: Repairs, p: Pair)
    requires Paired(p) && Gap(p) == 0 && Truthful(p) && Next(p) <= Common(p) + 1
    ensures var m := AppendMessage(p.leader, p.follower.id);
            Accepts(p.follower, m) && InPlace(m)
            && KeepsCommitted(p.follower, OnAppendEntries(r, p.follower, p.leader.id, m).node, false)
  {
    var m := AppendMessage(p.leader, p.follower.id);
    FollowerAgrees(p);
    SliceKeeps(p.follower.log, p.leader.log, m.prevLogIndex, |m.entries|, p.follower.commit);
    AcceptedOutcome(r, p.follower, p.leader.id, m);
  }

  lemma TruthAccepted(r: Repairs, p: Pair)
    requires Paired(p) && Gap(p) == 0 && Truthful(p) && Next(p) <= Common(p) + 1
    ensures StoreTrue(Round(r, p).follower) && Indexed(Round(r, p).follower.log, 0)
  {
    var m := AppendMessage(p.leader, p.follower.id);
    AcceptedKeepsTruth(r, p);
    AcceptedIndexed(r, p.follower, p.leader.id, m);
    EntriesFollow(r, p.follower, p.leader.id, m);
  }

  /** Between a leader and a follower that has its log, rounds keep that so. */
  lemma TruthKept(r: Repairs, p: Pair)
    requires Paired(p) && Gap(p) == 0 && Truthful(p)
    ensures Truthful(Round(r, p)) && Gap(Round(r, p)) == 0
  {
    RoundKeeps(r, p);
    var m := AppendMessage(p.leader, p.follower.id);
    var reply := OneReply(r, p.follower, p.leader.id, m);
    CommitWithinLog(r, p.leader, p.follower.id, reply.message);
    if Next(p) <= Common(p) + 1 {
      FollowerAgrees(p);
      FollowerCommits(r, p.follower, p.leader.id, m);
      TruthAccepted(r, p);
    } else {
      RejectedRound(r, p);
      TruthRefused(r, p, m);
    }
  }

  lemma TruthRefused(r: Repairs, p: Pair, m: Message)
    requires Truthful(p) && m.AppendEntries? && !Accepts(p.follower, m)
    ensures var n' := OnAppendEntries(r, p.follower, p.leader.id, m).node;
            StoreTrue(n') && n'.log == p.follower.log && n'.commit == p.follower.commit
  {
    EntriesRefused(r, p.follower, p.leader.id, m);
  }

  // ----- rounds until the follower knows -----

  /** From q to q' the leader's log and term stay, its commit index does not fall,
      and data that were true stay true. */
  ghost predicate Advanced(q: Pair, q': Pair) {
    && q'.leader.log == q.leader.log && q'.leader.term == q.leader.term && q.leader.commit <= q'.leader.commit
    && (Gap(q) == 0 && Truthful(q) ==> Truthful(q') && Gap(q') == 0)
  }

  lemma RoundAdvances(r: Repairs, p: Pair)
    requires Paired(p)
    ensures Advanced(p, Round(r, p)) && Even(Round(r, p))
  {
    RoundKeeps(r, p);
    RoundCommits(r, p);
    if Gap(p) == 0 && Truthful(p) { TruthKept(r, p); }
  }

  lemma AdvancedOn(p: Pair, q: Pair, q': Pair)
    requires Advanced(p, q) && Advanced(q, q')
    ensures Advanced(p, q')
  {
  }

  lemma {:induction false} AfterAdvances(r: Repairs, p: Pair, k: nat)
    requires Paired(p)
    ensures Advanced(p, After(r, p, k)) && Paired(After(r, p, k)) && (k > 0 ==> Even(After(r, p, k)))
  {
    if k > 0 {
      var q := After(r, p, k - 1);
      AfterAdvances(r, p, k - 1);
      RoundAdvances(r, q);
      AdvancedOn(p, q, Round(r, q));
    }
  }

  /** Enough rounds bring agreement on the leader's log. */
  lemma AgreesAfter(r: Repairs, p: Pair)
    requires Paired(p)
    ensures var q := After(r, p, Bound(p)); Even(q) && Gap(q) == 0 && Ceiling(q) <= Ceiling(p) && Advanced(p, q)
  {
    var ps := AfterRounds(r, p, Bound(p));
    ReplicationConverges(r, ps);
    AfterAdvances(r, p, Bound(p));
    var q := After(r, p, Bound(p));
    SharedAtLeast(q.follower.log, q.leader.log, |q.leader.log|);
  }

  /** And some more, to a heartbeat that covers it. */
  lemma {:induction false} UntilCovering(r: Repairs, members: set<NodeId>, evs: seq<Event>, m: seq<Event>, l: NodeId,
                                         f: NodeId, q: Pair, ceiling: nat) returns (m': seq<Event>, q': Pair)
    requires l in members && f in members && l != f && ComesTo(r, members, evs, m, l, f, q)
    requires Even(q) && Gap(q) == 0 && Ceiling(q) <= ceiling
    ensures ComesTo(r, members, evs, m', l, f, q') && |m'| <= |m| + 3 * Descent(q, ceiling)
    ensures Covering(q') && Advanced(q, q')
    decreases Descent(q, ceiling)
  {
    if Covering(q) {
      m', q' := m, q;
    } else {
      ShortRound(r, q, ceiling);
      RoundAdvances(r, q);
      var m1 := OnceMore(r, members, evs, m, l, f, q);
      m', q' := UntilCovering(r, members, evs, m1, l, f, Round(r, q), ceiling);
    }
  }

  // ----- a follower learns -----

  /** How many rounds it may take. */
  ghost function Patience(p: Pair): nat { Bound(p) + 2 * Ceiling(p) + 3 }

  /** l leads on in its term with its log, and commits no less. */
  ghost predicate LeadsOn(s: State, s': State, l: NodeId) {
    && l in s.nodes && l in s'.nodes && s'.nodes[l].role == Leader && s'.nodes[l].term == s.nodes[l].term
    && s'.nodes[l].log == s.nodes[l].log && s.nodes[l].commit <= s'.nodes[l].commit
  }

  /** f has come to have l's log, has committed what l had, and has said so. */
  ghost predicate Informed(r: Repairs, s: State, s': State, l: NodeId, f: NodeId) {
    && LeadsOn(s, s', l) && f in s'.nodes && s'.nodes[f].term == s'.nodes[l].term
    && s.nodes[l].log <= s'.nodes[f].log && Min(s.nodes[l].commit, |s.nodes[l].log|) <= s'.nodes[f].commit
    && HasAcked(r, s'.network, l, s.nodes[l].term, |s.nodes[l].log|, f)
  }

  ghost predicate LeaderAndPeer(members: set<NodeId>, s: State, l: NodeId, f: NodeId) {
    && l in members && f in members && l != f && l in s.nodes && f in s.nodes
    && s.nodes[l].role == Leader && s.nodes[f].term <= s.nodes[l].term
  }

  lemma Tells(r: Repairs, members: set<NodeId>, evs: seq<Event>, m: seq<Event>, l: NodeId, f: NodeId, q: Pair)
    returns (more: seq<Event>)
    requires l in members && f in members && l != f && Stationed(members, Run(r, members, evs))
    requires ComesTo(r, members, evs, m, l, f, q) && Covering(q)
    requires Advanced(PairAt(Run(r, members, evs), l, f), q)
    ensures |more| == |m| + 3 && ComesTo(r, members, evs, more, l, f, Round(r, q))
    ensures Informed(r, Run(r, members, evs), Run(r, members, evs + more), l, f)
  {
    var s := Run(r, members, evs);
    more := OnceMore(r, members, evs, m, l, f, q);
    CoveringRound(r, q);
    RoundCommits(r, q);
    var s' := Run(r, members, evs + more);
    var last: nat :| last >= |q.leader.log| &&
      Answers(r, q) == {Envelope(q.follower.id, q.leader.id,
                                 AppendEntriesResponse(q.leader.term, true, last, q.follower.id))};
    assert AckIn(r, s'.network, l, s.nodes[l].term, |s.nodes[l].log|, f, s.nodes[l].term, last);
    assert s.nodes[l].log == s'.nodes[f].log[..|s.nodes[l].log|];
  }

  /** From wherever a run has come to it goes on, within three events for each of
      boundedly many rounds, to where a node that is not ahead of a leader has the
      leader's log and has committed what the leader had. */
  lemma FollowerLearns(r: Repairs, members: set<NodeId>, evs: seq<Event>, l: NodeId, f: NodeId)
    returns (more: seq<Event>, q: Pair)
    requires CountsVotes(r, members) && LeaderAndPeer(members, Run(r, members, evs), l, f)
    ensures |more| <= 3 * Patience(PairAt(Run(r, members, evs), l, f))
    ensures ComesTo(r, members, evs, more, l, f, q) && Advanced(PairAt(Run(r, members, evs), l, f), q)
    ensures Informed(r, Run(r, members, evs), Run(r, members, evs + more), l, f)
  {
    var p := PairAt(Run(r, members, evs), l, f);
    RunStationed(r, members, evs);
    StartsAt(r, members, evs, l, f);
    AgreesAfter(r, p);
    var m := ManyRounds(r, members, evs, l, f, Bound(p), p);
    DescentBound(After(r, p, Bound(p)), Ceiling(p));
    var q1;
    m, q1 := UntilCovering(r, members, evs, m, l, f, After(r, p, Bound(p)), Ceiling(p));
    more := Tells(r, members, evs, m, l, f, q1);
    q := Round(r, q1);
    RoundAdvances(r, q1);
  }

  /** A follower that has its leader's log, with true data, comes to hold the data
      of everything the leader had committed. */
  lemma FollowerLearnsData(r: Repairs, members: set<NodeId>, evs: seq<Event>, l: NodeId, f: NodeId)
    returns (more: seq<Event>)
    requires CountsVotes(r, members) && LeaderAndPeer(members, Run(r, members, evs), l, f)
    requires var nl, nf := Run(r, members, evs).nodes[l], Run(r, members, evs).nodes[f];
             nl.log <= nf.log && nl.commit <= |nl.log| && StoreTrue(nf) && nf.commit <= |nl.log|
    ensures |more| <= 3 * Patience(PairAt(Run(r, members, evs), l, f))
    ensures l in Run(r, members, evs + more).nodes && f in Run(r, members, evs + more).nodes
    ensures var nl, nf := Run(r, members, evs).nodes[l], Run(r, members, evs + more).nodes[f];
            && nl.commit <= nf.commit <= |nl.log| && nf.applied == nf.commit
            && nf.store.data == Replay(nl.log[..nf.commit])
  {
    var s := Run(r, members, evs);
    var p := PairAt(s, l, f);
    MessagesInPlace(r, members, evs);
    assert Indexed(s.nodes[l].log, 0) && Indexed(s.nodes[f].log, 0);
    SharedAtLeast(p.follower.log, p.leader.log, |p.leader.log|);
    var q;
    more, q := FollowerLearns(r, members, evs, l, f);
    ShorterPrefix(q.follower.log, q.leader.log, |q.leader.log|, q.follower.commit);
  }

  /** One heartbeat that covers the log is enough. */
  lemma NextHeartbeat(r: Repairs, members: set<NodeId>, evs: seq<Event>, l: NodeId, f: NodeId)
    returns (more: seq<Event>)
    requires l in members && f in members && l != f && Stationed(members, Run(r, members, evs))
    requires var s := Run(r, members, evs);
             && Covering(PairAt(s, l, f)) && s.nodes[l].commit <= |s.nodes[l].log|
             && s.nodes[f].commit <= s.nodes[l].commit && StoreTrue(s.nodes[f])
    ensures |more| == 3 && f in Run(r, members, evs + more).nodes
    ensures var nl, nf := Run(r, members, evs).nodes[l], Run(r, members, evs + more).nodes[f];
            && nl.log <= nf.log && nf.commit == nf.applied == nl.commit
            && nf.store.data == Replay(nl.log[..nl.commit])
  {
    var s := Run(r, members, evs);
    var p := PairAt(s, l, f);
    MessagesInPlace(r, members, evs);
    assert Indexed(s.nodes[l].log, 0) && Indexed(s.nodes[f].log, 0);
    more := OneRound(r, members, evs, l, f);
    CoveredData(r, p);
  }

  lemma CoveredData(r: Repairs, p: Pair)
    requires Covering(p) && Truthful(p) && p.follower.commit <= p.leader.commit
    ensures var n := Round(r, p).follower;
            && p.leader.log <= n.log && n.commit == n.applied == p.leader.commit
            && n.store.data == Replay(p.leader.log[..p.leader.commit])
  {
    CoveringRound(r, p);
    TruthKept(r, p);
    var q := Round(r, p);
    ShorterPrefix(q.follower.log, q.leader.log, |q.leader.log|, q.follower.commit);
    assert p.leader.log == q.follower.log[..|p.leader.log|];
  }

  /** What a follower makes of the end of a log of which it has the rest. */
  lemma TakesEnd(r: Repairs, f: NodeState, from: NodeId, m: Message, log: Log)
    requires m.AppendEntries? && m.term >= f.term && m.prevLogIndex <= |log| && m.prevLogIndex <= |f.log|
    requires m.entries == log[m.prevLogIndex..] && f.log[..m.prevLogIndex] == log[..m.prevLogIndex]
    requires m.prevLogIndex > 0 ==> m.prevLogTerm == log[m.prevLogIndex - 1].term
    ensures log <= OnAppendEntries(r, f, from, m).node.log
  {
    var k := m.prevLogIndex;
    if k > 0 { assert f.log[..k][k - 1] == log[..k][k - 1]; }
    EntriesAccepted(r, f, from, m);
    var log' := OnAppendEntries(r, f, from, m).node.log;
    assert log'[..|log|] == log'[..k] + log'[k..|log|] == log[..k] + log[k..] == log;
  }

  lemma OfferTaken(r: Repairs, p: Pair, client: Client, e: Envelope)
    requires Paired(p) && Next(p) <= Common(p) + 1 && BringsEnd(OnPropose(p.leader, client).node, p.follower.id, e)
    ensures OnPropose(p.leader, client).node.log <= OnMessage(r, p.follower, e).node.log
  {
    var n1 := OnPropose(p.leader, client).node;
    ShorterPrefix(p.follower.log, p.leader.log, Common(p), e.message.prevLogIndex);
    TakesEnd(r, p.follower, e.from, e.message, n1.log);
  }

  lemma OfferSteps(r: Repairs, members: set<NodeId>, s: State, l: NodeId, f: NodeId, client: Client)
    returns (e: Envelope)
    requires Stationed(members, s) && LeaderAndPeer(members, s, l, f) && Paired(PairAt(s, l, f))
    requires var p := PairAt(s, l, f); Next(p) <= Common(p) + 1 && |p.leader.log| + 1 < Next(p) + MAX_BATCH
    ensures var s' := Step(r, Step(r, s, Request(l, client)), Deliver(e));
            && f in s'.nodes
            && s.nodes[l].log + [LogEntry(|s.nodes[l].log| + 1, s.nodes[l].term, client.wants)] <= s'.nodes[f].log
  {
    var p := PairAt(s, l, f);
    e := ProposalTaken(p.leader, client, f);
    OfferTaken(r, p, client, e);
    var s1 := Step(r, s, Request(l, client));
    assert e in s1.network && s1.nodes[f] == p.follower;
  }

  /** A proposal is at a follower that lacks less than a batch two events later: it
      is made, and the message it sets off arrives. */
  lemma ProposalArrives(r: Repairs, members: set<NodeId>, evs: seq<Event>, l: NodeId, f: NodeId, client: Client)
    returns (e: Envelope)
    requires CountsVotes(r, members) && LeaderAndPeer(members, Run(r, members, evs), l, f)
    requires var p := PairAt(Run(r, members, evs), l, f);
             Next(p) <= Common(p) + 1 && |p.leader.log| + 1 < Next(p) + MAX_BATCH
    ensures var s, s' := Run(r, members, evs), Run(r, members, evs + [Request(l, client)] + [Deliver(e)]);
            && f in s'.nodes
            && s.nodes[l].log + [LogEntry(|s.nodes[l].log| + 1, s.nodes[l].term, client.wants)] <= s'.nodes[f].log
  {
    StartsAt(r, members, evs, l, f);
    RunStationed(r, members, evs);
    e := OfferSteps(r, members, Run(r, members, evs), l, f, client);
    RunExtended(r, members, evs, Request(l, client));
    RunExtended(r, members, evs + [Request(l, client)], Deliver(e));
  }

  /** A leader that has been overtaken learns of it in one round. */
  lemma DeposedLearns(r: Repairs, members: set<NodeId>, evs: seq<Event>, l: NodeId, f: NodeId)
    returns (more: seq<Event>)
    requires l in members && f in members && l != f && Stationed(members, Run(r, members, evs))
    requires var s := Run(r, members, evs); s.nodes[l].role == Leader && s.nodes[f].term > s.nodes[l].term
    ensures |more| == 3 && l in Run(r, members, evs + more).nodes
    ensures var nf, nl := Run(r, members, evs).nodes[f], Run(r, members, evs + more).nodes[l];
            nl.role == Follower && nl.term == nf.term && nl.votedFor == None
  {
    var p := PairAt(Run(r, members, evs), l, f);
    more := OneRound(r, members, evs, l, f);
    var m := AppendMessage(p.leader, p.follower.id);
    EntriesRefused(r, p.follower, p.leader.id, m);
    var e := Envelope(p.follower.id, p.leader.id,
                      AppendEntriesResponse(p.follower.term, false, |p.follower.log|, p.follower.id));
    assert Answers(r, p) == {e};
    ResponseDeposes(r, p.leader, e);
  }

  // ----- a leader commits -----

  /** The leader records at least i for all of us. */
  ghost predicate Matched(n: NodeState, us: set<NodeId>, i: nat) {
    forall u | u in us :: u in n.matched && n.matched[u] >= i
  }

  /** The replies of `us` that report i or more have come in; nothing else has happened. */
  ghost predicate Heard(r: Repairs, members: set<NodeId>, s: State, s': State, l: NodeId, us: set<NodeId>, i: nat) {
    && LeadsOn(s, s', l) && Stationed(members, s') && s.network <= s'.network && s.replies <= s'.replies
    && Matched(s'.nodes[l], us, i)
    && (us != {} ==> forall k: nat | s'.nodes[l].commit < k :: !Ripe(members, s'.nodes[l], k))
    && (forall v {:trigger s.nodes[v]} | v in s.nodes && v != l :: v in s'.nodes && s'.nodes[v] == s.nodes[v])
  }

  lemma HearsOne(r: Repairs, members: set<NodeId>, s: State, l: NodeId, u: NodeId, i: nat,
                 waiting: map<nat, Client>, top: nat) returns (ev: Event)
    requires Stationed(members, s) && l in members && u in members && u != l && s.nodes[l].role == Leader
    requires HasAcked(r, s.network, l, s.nodes[l].term, i, u) && Owing(s, l, waiting, top)
    ensures Heard(r, members, s, Step(r, s, ev), l, {u}, i) && Owing(Step(r, s, ev), l, waiting, top)
    ensures forall v | v != u && v in s.nodes[l].matched ::
              var n' := Step(r, s, ev).nodes[l]; v in n'.matched && n'.matched[v] == s.nodes[l].matched[v]
  {
    var n := s.nodes[l];
    var t: nat, k: nat :| AckIn(r, s.network, l, n.term, i, u, t, k);
    var e := Ack(u, l, t, k);
    ev := Deliver(e);
    assert TracksPeers(n);
    StepStationed(r, members, s, ev);
    LeaderCommits(r, members, n, u, e.message);
    ResponseOwes(r, s, e, waiting, top);
  }

  lemma HeardOn(r: Repairs, members: set<NodeId>, s: State, s1: State, s2: State, l: NodeId, us: set<NodeId>,
                u: NodeId, i: nat)
    requires Heard(r, members, s, s1, l, us, i) && Heard(r, members, s1, s2, l, {u}, i) && s.nodes.Keys == s1.nodes.Keys
    requires forall v | v != u && v in s1.nodes[l].matched ::
               v in s2.nodes[l].matched && s2.nodes[l].matched[v] == s1.nodes[l].matched[v]
    ensures Heard(r, members, s, s2, l, us + {u}, i)
  {
  }

  /** The replies of all of us are on their way to a leader that owes its clients. */
  ghost predicate Pending(r: Repairs, members: set<NodeId>, s: State, l: NodeId, us: set<NodeId>, i: nat,
                          waiting: map<nat, Client>, top: nat)
  {
    && Stationed(members, s) && l in members && us <= members - {l} && s.nodes[l].role == Leader
    && Owing(s, l, waiting, top) && AllAcked(r, s.network, l, s.nodes[l].term, i, us)
  }

  lemma HearsNext(r: Repairs, members: set<NodeId>, evs: seq<Event>, m: seq<Event>, l: NodeId, us: set<NodeId>,
                  u: NodeId, i: nat, waiting: map<nat, Client>, top: nat) returns (ev: Event)
    requires u in us && Pending(r, members, Run(r, members, evs), l, us, i, waiting, top)
    requires Heard(r, members, Run(r, members, evs), Run(r, members, evs + m), l, us - {u}, i)
    requires Owing(Run(r, members, evs + m), l, waiting, top)
    ensures var s' := Run(r, members, evs + (m + [ev]));
            Heard(r, members, Run(r, members, evs), s', l, us, i) && Owing(s', l, waiting, top)
  {
    var s, s1 := Run(r, members, evs), Run(r, members, evs + m);
    AcksStay(r, s.network, s1.network, l, s.nodes[l].term, i, i, us);
    assert HasAcked(r, s1.network, l, s.nodes[l].term, i, u);
    ev := HearsOne(r, members, s1, l, u, i, waiting, top);
    Joined(evs, m, [ev]);
    RunExtended(r, members, evs + m, ev);
    HeardOn(r, members, s, s1, Step(r, s1, ev), l, us - {u}, u, i);
    assert us - {u} + {u} == us;
  }

  lemma HeardNone(r: Repairs, members: set<NodeId>, s: State, l: NodeId, i: nat, waiting: map<nat, Client>, top: nat)
    requires Pending(r, members, s, l, {}, i, waiting, top)
    ensures Heard(r, members, s, s, l, {}, i)
  {
  }

  lemma FewerPending(r: Repairs, members: set<NodeId>, s: State, l: NodeId, us: set<NodeId>, u: NodeId, i: nat,
                     waiting: map<nat, Client>, top: nat)
    requires Pending(r, members, s, l, us, i, waiting, top)
    ensures Pending(r, members, s, l, us - {u}, i, waiting, top)
  {
  }

  /** A majority's replies reach the leader one by one. */
  lemma {:induction false} HearsAll(r: Repairs, members: set<NodeId>, evs: seq<Event>, l: NodeId, us: set<NodeId>,
                                    i: nat, waiting: map<nat, Client>, top: nat) returns (more: seq<Event>)
    requires Pending(r, members, Run(r, members, evs), l, us, i, waiting, top)
    ensures |more| == |us|
    ensures var s' := Run(r, members, evs + more);
            Heard(r, members, Run(r, members, evs), s', l, us, i) && Owing(s', l, waiting, top)
    decreases us
  {
    if us == {} {
      more := [];
      NothingMore(evs);
      HeardNone(r, members, Run(r, members, evs), l, i, waiting, top);
    } else {
      var u :| u in us;
      FewerPending(r, members, Run(r, members, evs), l, us, u, i, waiting, top);
      var m := HearsAll(r, members, evs, l, us - {u}, i, waiting, top);
      var ev := HearsNext(r, members, evs, m, l, us, u, i, waiting, top);
      more := m + [ev];
    }
  }

  lemma NowCommitted(r: Repairs, members: set<NodeId>, s: State, s': State, l: NodeId, us: set<NodeId>, i: nat)
    requires Heard(r, members, s, s', l, us, i) && l in members && us <= members - {l} && us != {}
    requires 2 * (|us| + 1) > |members| && 1 <= i <= |s.nodes[l].log| && s.nodes[l].log[i - 1].term == s.nodes[l].term
    ensures i <= s'.nodes[l].commit
  {
    assert |us + {l}| == |us| + 1;
    assert Quorum(members, us + {l}) && AllHave(s'.nodes[l], us + {l}, i);
    assert Ripe(members, s'.nodes[l], i);
  }

  /** Once a majority has acknowledged an entry of the leader's term, its replies
      make the leader commit it and answer everyone who waits up to it. */
  lemma MajorityCommits(r: Repairs, members: set<NodeId>, evs: seq<Event>, l: NodeId, us: set<NodeId>, i: nat)
    returns (more: seq<Event>)
    requires l in members && us <= members - {l} && |members| >= 2 && 2 * (|us| + 1) > |members|
    requires var s := Run(r, members, evs);
             && l in s.nodes && s.nodes[l].role == Leader && s.nodes[l].commit < i <= |s.nodes[l].log|
             && s.nodes[l].log[i - 1].term == s.nodes[l].term
             && forall u | u in us :: HasAcked(r, s.network, l, s.nodes[l].term, i, u)
    ensures |more| == |us| && LeadsOn(Run(r, members, evs), Run(r, members, evs + more), l)
    ensures var s, s' := Run(r, members, evs), Run(r, members, evs + more);
            i <= s'.nodes[l].commit && AllTold(s', s.nodes[l].pending, i)
  {
    var s := Run(r, members, evs);
    RunStationed(r, members, evs);
    assert Owing(s, l, s.nodes[l].pending, i);
    more := HearsAll(r, members, evs, l, us, i, s.nodes[l].pending, i);
    NowCommitted(r, members, s, Run(r, members, evs + more), l, us, i);
  }

  // ----- everything commits -----

  /** The leader can count on them: no later term is known to any. */
  ghost predicate Supporters(members: set<NodeId>, s: State, l: NodeId, us: set<NodeId>) {
    && us <= members - {l} && l in members && l in s.nodes && s.nodes[l].role == Leader
    && forall u {:trigger u in us} | u in us :: u in s.nodes && s.nodes[u].term <= s.nodes[l].term
  }

  /** The same leader leads on, everything sent stays sent, it owes its clients no
      less, and all of us have come to have its log and what it had committed. */
  ghost predicate AllInformed(r: Repairs, s: State, s': State, l: NodeId, us: set<NodeId>) {
    && LeadsOn(s, s', l) && s.network <= s'.network && s.replies <= s'.replies
    && (forall u {:trigger Informed(r, s, s', l, u)} | u in us :: Informed(r, s, s', l, u))
    && (forall waiting: map<nat, Client>, top: nat | Owing(s, l, waiting, top) :: Owing(s', l, waiting, top))
    && (forall v {:trigger s.nodes[v]} | v in s.nodes && v != l && v !in us ::
          v in s'.nodes && s'.nodes[v] == s.nodes[v])
  }

  lemma InformedOn(r: Repairs, s: State, s1: State, s2: State, l: NodeId, us: set<NodeId>, f: NodeId)
    requires AllInformed(r, s, s1, l, us) && f !in us && f != l && l !in us
    requires Informed(r, s1, s2, l, f) && Onward(s1, s2, l, f)
    ensures AllInformed(r, s, s2, l, us + {f})
  {
    var n := s.nodes[l];
    forall u | u in us + {f} ensures Informed(r, s, s2, l, u) {
      if u != f {
        assert Informed(r, s, s1, l, u) && u in s1.nodes;
        AcksStay(r, s1.network, s2.network, l, n.term, |n.log|, |n.log|, {u});
        assert HasAcked(r, s2.network, l, n.term, |n.log|, u);
      }
    }
    forall waiting: map<nat, Client>, top: nat | Owing(s, l, waiting, top) ensures Owing(s2, l, waiting, top) {
      assert Owing(s1, l, waiting, top);
    }
    forall v | v in s.nodes && v != l && v !in us + {f} ensures v in s2.nodes && s2.nodes[v] == s.nodes[v] {
      assert v in s1.nodes && s1.nodes[v] == s.nodes[v];
    }
  }

  lemma FewerSupporters(members: set<NodeId>, s: State, l: NodeId, us: set<NodeId>, f: NodeId)
    requires Supporters(members, s, l, us)
    ensures Supporters(members, s, l, us - {f})
  {
  }

  lemma NextPeer(r: Repairs, members: set<NodeId>, s: State, s1: State, l: NodeId, us: set<NodeId>, f: NodeId)
    requires Supporters(members, s, l, us) && f in us && AllInformed(r, s, s1, l, us - {f})
    ensures LeaderAndPeer(members, s1, l, f)
  {
    assert f in s.nodes && s1.nodes[f] == s.nodes[f];
  }

  lemma {:induction false} InformsAll(r: Repairs, members: set<NodeId>, evs: seq<Event>, l: NodeId, us: set<NodeId>)
    returns (more: seq<Event>)
    requires CountsVotes(r, members) && Supporters(members, Run(r, members, evs), l, us)
    ensures AllInformed(r, Run(r, members, evs), Run(r, members, evs + more), l, us)
    decreases us
  {
    var s := Run(r, members, evs);
    if us == {} {
      more := [];
      NothingMore(evs);
    } else {
      var f :| f in us;
      FewerSupporters(members, s, l, us, f);
      var m := InformsAll(r, members, evs, l, us - {f});
      var s1 := Run(r, members, evs + m);
      NextPeer(r, members, s, s1, l, us, f);
      var m2, q := FollowerLearns(r, members, evs + m, l, f);
      more := m + m2;
      Joined(evs, m, m2);
      assert us == us - {f} + {f};
      InformedOn(r, s, s1, Run(r, members, evs + more), l, us - {f}, f);
    }
  }

  lemma StillSupporters(r: Repairs, members: set<NodeId>, s: State, s': State, l: NodeId, us: set<NodeId>)
    requires Supporters(members, s, l, us) && AllInformed(r, s, s', l, us)
    ensures Supporters(members, s', l, us)
  {
    forall u | u in us ensures u in s'.nodes && s'.nodes[u].term <= s'.nodes[l].term {
      assert Informed(r, s, s', l, u);
    }
  }

  /** All of us have committed the whole log. */
  ghost predicate AllCommitted(s: State, us: set<NodeId>, log: Log) {
    forall u {:trigger u in us} | u in us :: u in s.nodes && log <= s.nodes[u].log && |log| <= s.nodes[u].commit
  }

  lemma RepliesPending(r: Repairs, members: set<NodeId>, s: State, s1: State, l: NodeId, us: set<NodeId>)
    requires Supporters(members, s, l, us) && AllInformed(r, s, s1, l, us) && Stationed(members, s1)
    requires s.nodes[l].commit < |s.nodes[l].log|
    ensures Supporters(members, s1, l, us)
    ensures var n := s.nodes[l]; Pending(r, members, s1, l, us, |n.log|, n.pending, |n.log|)
  {
    var n := s.nodes[l];
    StillSupporters(r, members, s, s1, l, us);
    assert Owing(s, l, n.pending, |n.log|);
    forall u | u in us ensures HasAcked(r, s1.network, l, n.term, |n.log|, u) { assert Informed(r, s, s1, l, u); }
  }

  lemma LeadsOnOn(s: State, s1: State, s2: State, l: NodeId)
    requires LeadsOn(s, s1, l) && LeadsOn(s1, s2, l)
    ensures LeadsOn(s, s2, l)
  {
  }

  /** From wherever a run has come to it goes on to where a leader, with a majority
      of which nobody is in a later term, has committed its whole log, provided it
      ends in its own term, and has answered everyone who waited. */
  lemma LeaderCommitsAll(r: Repairs, members: set<NodeId>, evs: seq<Event>, l: NodeId, us: set<NodeId>)
    returns (more: seq<Event>)
    requires CountsVotes(r, members) && Supporters(members, Run(r, members, evs), l, us)
    requires |members| >= 2 && 2 * (|us| + 1) > |members|
    requires var n := Run(r, members, evs).nodes[l];
             n.log != [] && n.log[|n.log| - 1].term == n.term && n.commit < |n.log|
    ensures var s, s' := Run(r, members, evs), Run(r, members, evs + more);
            && LeadsOn(s, s', l) && Supporters(members, s', l, us)
            && |s.nodes[l].log| <= s'.nodes[l].commit && AllTold(s', s.nodes[l].pending, |s.nodes[l].log|)
  {
    var s := Run(r, members, evs);
    var n := s.nodes[l];
    var m := InformsAll(r, members, evs, l, us);
    var s1 := Run(r, members, evs + m);
    RunStationed(r, members, evs + m);
    RepliesPending(r, members, s, s1, l, us);
    var m2 := HearsAll(r, members, evs + m, l, us, |n.log|, n.pending, |n.log|);
    more := m + m2;
    Joined(evs, m, m2);
    var s2 := Run(r, members, evs + more);
    NowCommitted(r, members, s1, s2, l, us, |n.log|);
    LeadsOnOn(s, s1, s2, l);
  }

  /** And on to where all of that majority have committed it too. */
  lemma EverythingCommits(r: Repairs, members: set<NodeId>, evs: seq<Event>, l: NodeId, us: set<NodeId>)
    returns (more: seq<Event>)
    requires CountsVotes(r, members) && Supporters(members, Run(r, members, evs), l, us)
    requires |members| >= 2 && 2 * (|us| + 1) > |members|
    requires var n := Run(r, members, evs).nodes[l];
             n.log != [] && n.log[|n.log| - 1].term == n.term && n.commit < |n.log|
    ensures var s, s' := Run(r, members, evs), Run(r, members, evs + more);
            && LeadsOn(s, s', l) && |s.nodes[l].log| <= s'.nodes[l].commit
            && AllCommitted(s', us, s.nodes[l].log) && AllTold(s', s.nodes[l].pending, |s.nodes[l].log|)
  {
    var s := Run(r, members, evs);
    var m := LeaderCommitsAll(r, members, evs, l, us);
    var s1 := Run(r, members, evs + m);
    var m2 := InformsAll(r, members, evs + m, l, us);
    more := m + m2;
    Joined(evs, m, m2);
    var s' := Run(r, members, evs + more);
    forall u | u in us
      ensures u in s'.nodes && s.nodes[l].log <= s'.nodes[u].log && |s.nodes[l].log| <= s'.nodes[u].commit
    {
      assert Informed(r, s1, s', l, u);
    }
  }
}
