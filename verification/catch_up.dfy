/** A round of replication is three steps of the cluster: a heartbeat is due, it
    arrives, and the reply arrives. So from wherever a run has come to, a
    bounded number of further events brings a follower to its leader's log. */
module CatchUp {
  import opened RaftTypes
  import opened NodeSpec
  import opened Cluster
  import opened LogMatching
  import opened Scenarios
  import opened Convergence
  import opened Duties
  import opened Quorums
  import Theorems

  ghost function PairAt(s: State, l: NodeId, f: NodeId): Pair
    requires l in s.nodes && f in s.nodes
  {
    Pair(s.nodes[l], s.nodes[f])
  }

  /** A node answers entries with exactly one reply, to whoever sent them. */
  lemma OneReply(r: Repairs, n: NodeState, from: NodeId, m: Message) returns (reply: Envelope)
    requires m.AppendEntries?
    ensures var out := OnAppendEntries(r, n, from, m);
            && out.sent == {reply} && out.node.id == n.id
            && reply.from == n.id && reply.to == from && reply.message.AppendEntriesResponse?
  {
    var out := OnAppendEntries(r, n, from, m);
    reply :| reply in out.sent;
    if m.term >= n.term && Accepts(n, m) { AcceptedOutcome(r, n, from, m); }
  }

  ghost function ThreeSteps(r: Repairs, s: State, l: NodeId, there: Envelope, back: Envelope): State {
    Step(r, Step(r, Step(r, s, Tick(l)), Deliver(there)), Deliver(back))
  }

  lemma StepsStationed(r: Repairs, members: set<NodeId>, s: State, l: NodeId, there: Envelope, back: Envelope)
    requires Stationed(members, s)
    ensures Stationed(members, ThreeSteps(r, s, l, there, back))
  {
    StepStationed(r, members, s, Tick(l));
    StepStationed(r, members, Step(r, s, Tick(l)), Deliver(there));
    StepStationed(r, members, Step(r, Step(r, s, Tick(l)), Deliver(there)), Deliver(back));
  }

  /** What the follower sends back in a round. */
  ghost function Answers(r: Repairs, p: Pair): set<Envelope> {
    OnAppendEntries(r, p.follower, p.leader.id, AppendMessage(p.leader, p.follower.id)).sent
  }

  /** A message from leader to follower and one back. */
  predicate Exchange(l: NodeId, f: NodeId, there: Envelope, back: Envelope) {
    there.to == f && back.to == l && back.message.AppendEntriesResponse?
  }

  lemma RoundSteps(r: Repairs, members: set<NodeId>, s: State, l: NodeId, f: NodeId)
    returns (there: Envelope, back: Envelope)
    requires Stationed(members, s) && l in members && f in members && l != f && s.nodes[l].role == Leader
    ensures Exchange(l, f, there, back)
    ensures var s' := ThreeSteps(r, s, l, there, back);
            && l in s'.nodes && f in s'.nodes && PairAt(s', l, f) == Round(r, PairAt(s, l, f))
            && Answers(r, PairAt(s, l, f)) <= s'.network
  {
    var n, m := s.nodes[l], AppendMessage(s.nodes[l], f);
    there := Envelope(l, f, m);
    assert there in Heartbeats(n);
    back := OneReply(r, s.nodes[f], l, m);
    var s1 := Step(r, s, Tick(l));
    assert s1.nodes[l] == n && s1.nodes[f] == s.nodes[f] && there in s1.network;
    var s2 := Step(r, s1, Deliver(there));
    assert s2.nodes[f] == OnAppendEntries(r, s.nodes[f], l, m).node && s2.nodes[l] == n && back in s2.network;
  }

  // ----- what a leader owes its clients meanwhile -----

  ghost predicate AllTold(s: State, waiting: map<nat, Client>, top: nat) {
    forall x {:trigger Reply(waiting[x], Success(x))} | x in waiting && x <= top ::
      Reply(waiting[x], Success(x)) in s.replies
  }

  /** These clients wait or have been answered, and not all is committed. */
  ghost predicate Owed(s: State, n: NodeState, waiting: map<nat, Client>, top: nat) {
    n.commit < top &&
    forall x {:trigger Reply(waiting[x], Success(x))} | x in waiting && x <= top ::
      (x in n.pending && n.pending[x] == waiting[x]) || Reply(waiting[x], Success(x)) in s.replies
  }

  /** These clients of leader l up to index top are answered, or will be when it
      commits that far. */
  ghost predicate Owing(s: State, l: NodeId, waiting: map<nat, Client>, top: nat) {
    l in s.nodes && (AllTold(s, waiting, top) || Owed(s, s.nodes[l], waiting, top))
  }

  ghost predicate OthersStay(s: State, s': State, l: NodeId, f: NodeId) {
    forall v {:trigger s.nodes[v]} | v in s.nodes && v != l && v != f :: v in s'.nodes && s'.nodes[v] == s.nodes[v]
  }

  /** Whoever l owes an answer in s has it in s', or is still owed it. */
  ghost predicate OwesOn(s: State, s': State, l: NodeId) {
    forall waiting: map<nat, Client>, top: nat {:trigger Owing(s', l, waiting, top)} ::
      Owing(s, l, waiting, top) ==> Owing(s', l, waiting, top)
  }

  /** s' has all that s has sent and answered, nobody but l and f has moved, and l
      has not dropped a client. */
  ghost predicate Onward(s: State, s': State, l: NodeId, f: NodeId) {
    && s.network <= s'.network && s.replies <= s'.replies
    && OthersStay(s, s', l, f) && OwesOn(s, s', l)
  }

  lemma ResponseOwes(r: Repairs, s: State, e: Envelope, waiting: map<nat, Client>, top: nat)
    requires Owing(s, e.to, waiting, top) && e in s.network && e.message.AppendEntriesResponse?
    ensures Owing(Step(r, s, Deliver(e)), e.to, waiting, top)
  {
    var n, m, s' := s.nodes[e.to], e.message, Step(r, s, Deliver(e));
    ResponseKeepsCommit(r, n, e.from, m);
    if Counts(r, n, m) && Owed(s, n, waiting, top) {
      LeaderAnswers(r, n, e.from, m);
    }
  }

  lemma CommitWithinLog(r: Repairs, n: NodeState, from: NodeId, m: Message)
    requires m.AppendEntriesResponse? && n.commit <= |n.log|
    ensures OnAppendResponse(r, n, from, m).node.commit <= |n.log|
  {
    ScanIsGreatest(n.(matched := n.matched[from := m.lastLogIndex], next := n.next[from := m.lastLogIndex + 1]),
                   |n.log|);
  }

  lemma StepsOnward(r: Repairs, s: State, l: NodeId, f: NodeId, there: Envelope, back: Envelope)
    requires l in s.nodes && f in s.nodes && l != f && Exchange(l, f, there, back)
    ensures Onward(s, ThreeSteps(r, s, l, there, back), l, f)
  {
    var s1 := Step(r, s, Tick(l));
    var s2 := Step(r, s1, Deliver(there));
    var s3 := Step(r, s2, Deliver(back));
    forall waiting: map<nat, Client>, top: nat | Owing(s, l, waiting, top) ensures Owing(s3, l, waiting, top) {
      assert s2.nodes[l] == s.nodes[l];
      assert Owing(s2, l, waiting, top);
      if back in s2.network { ResponseOwes(r, s2, back, waiting, top); }
    }
  }

  lemma RunExtended(r: Repairs, members: set<NodeId>, evs: seq<Event>, ev: Event)
    ensures Run(r, members, evs + [ev]) == Step(r, Run(r, members, evs), ev)
  {
    var longer := evs + [ev];
    assert longer[..|longer| - 1] == evs;
  }

  /** From s to s' the two have had a round. */
  ghost predicate RoundDone(r: Repairs, members: set<NodeId>, s: State, s': State, l: NodeId, f: NodeId) {
    && Stationed(members, s') && l in s.nodes && f in s.nodes && l in s'.nodes && f in s'.nodes
    && PairAt(s', l, f) == Round(r, PairAt(s, l, f)) && Onward(s, s', l, f)
    && Answers(r, PairAt(s, l, f)) <= s'.network
  }

  lemma OneByOne(evs: seq<Event>, e1: Event, e2: Event, e3: Event)
    ensures evs + [e1, e2, e3] == evs + [e1] + [e2] + [e3]
  {
  }

  lemma RunThree(r: Repairs, members: set<NodeId>, evs: seq<Event>, e1: Event, e2: Event, e3: Event)
    ensures Run(r, members, evs + [e1, e2, e3]) == Step(r, Step(r, Step(r, Run(r, members, evs), e1), e2), e3)
  {
    OneByOne(evs, e1, e2, e3);
    RunExtended(r, members, evs, e1);
    RunExtended(r, members, evs + [e1], e2);
    RunExtended(r, members, evs + [e1] + [e2], e3);
  }

  /** One more round is three more events. */
  lemma OneRound(r: Repairs, members: set<NodeId>, evs: seq<Event>, l: NodeId, f: NodeId) returns (more: seq<Event>)
    requires l in members && f in members && l != f
    requires Stationed(members, Run(r, members, evs)) && Run(r, members, evs).nodes[l].role == Leader
    ensures |more| == 3 && RoundDone(r, members, Run(r, members, evs), Run(r, members, evs + more), l, f)
  {
    var s := Run(r, members, evs);
    var there, back := RoundSteps(r, members, s, l, f);
    StepsStationed(r, members, s, l, there, back);
    StepsOnward(r, s, l, f, there, back);
    more := [Tick(l), Deliver(there), Deliver(back)];
    RunThree(r, members, evs, Tick(l), Deliver(there), Deliver(back));
  }

  lemma RoundAdded(r: Repairs, ps: seq<Pair>, qs: seq<Pair>)
    requires Rounds(r, ps) && |qs| == |ps| + 1 && ps <= qs && qs[|ps|] == Round(r, ps[|ps| - 1])
    ensures Rounds(r, qs)
  {
    forall i: nat | i + 1 < |qs| ensures Stepped(r, qs, i) {
      if i + 1 < |ps| {
        assert Stepped(r, ps, i);
        assert qs[i] == ps[i] && qs[i + 1] == ps[i + 1];
      }
    }
  }

  /** From s to s' the two have come to be q. */
  ghost predicate ComesAt(members: set<NodeId>, s: State, s': State, l: NodeId, f: NodeId, q: Pair) {
    && Stationed(members, s') && l in s'.nodes && f in s'.nodes && PairAt(s', l, f) == q && Paired(q)
    && Onward(s, s', l, f)
  }

  /** After some events more, the two have come to be q. */
  ghost predicate ComesTo(r: Repairs, members: set<NodeId>, evs: seq<Event>, more: seq<Event>, l: NodeId, f: NodeId,
                          q: Pair)
  {
    ComesAt(members, Run(r, members, evs), Run(r, members, evs + more), l, f, q)
  }

  lemma OnwardOn(s: State, s1: State, s2: State, l: NodeId, f: NodeId)
    requires Onward(s, s1, l, f) && Onward(s1, s2, l, f)
    ensures Onward(s, s2, l, f)
  {
    forall waiting: map<nat, Client>, top: nat | Owing(s, l, waiting, top) ensures Owing(s2, l, waiting, top) {
      assert Owing(s1, l, waiting, top);
    }
    forall v | v in s.nodes && v != l && v != f ensures v in s2.nodes && s2.nodes[v] == s.nodes[v] {
      assert v in s1.nodes && s1.nodes[v] == s.nodes[v];
    }
  }

  lemma ComesOn(r: Repairs, members: set<NodeId>, s: State, s1: State, s2: State, l: NodeId, f: NodeId, q: Pair)
    requires ComesAt(members, s, s1, l, f, q) && RoundDone(r, members, s1, s2, l, f)
    ensures ComesAt(members, s, s2, l, f, Round(r, q)) && Answers(r, q) <= s2.network
  {
    OnwardOn(s, s1, s2, l, f);
    RoundKeeps(r, q);
  }

  lemma NothingMore(evs: seq<Event>)
    ensures evs + [] == evs
  {
  }

  lemma Joined(evs: seq<Event>, m: seq<Event>, more: seq<Event>)
    ensures evs + (m + more) == evs + m + more
  {
  }

  lemma Regrouped(r: Repairs, members: set<NodeId>, evs: seq<Event>, m: seq<Event>, more: seq<Event>, l: NodeId,
                  f: NodeId, q: Pair)
    requires var s := Run(r, members, evs + m + more);
             ComesAt(members, Run(r, members, evs), s, l, f, Round(r, q)) && Answers(r, q) <= s.network
    ensures ComesTo(r, members, evs, m + more, l, f, Round(r, q))
    ensures Answers(r, q) <= Run(r, members, evs + (m + more)).network
  {
    Joined(evs, m, more);
  }

  lemma OnceMore(r: Repairs, members: set<NodeId>, evs: seq<Event>, m: seq<Event>, l: NodeId, f: NodeId, q: Pair)
    returns (m': seq<Event>)
    requires l in members && f in members && l != f && ComesTo(r, members, evs, m, l, f, q)
    ensures |m'| == |m| + 3 && ComesTo(r, members, evs, m', l, f, Round(r, q))
    ensures Answers(r, q) <= Run(r, members, evs + m').network
  {
    var three := OneRound(r, members, evs + m, l, f);
    ComesOn(r, members, Run(r, members, evs), Run(r, members, evs + m), Run(r, members, evs + m + three), l, f, q);
    Regrouped(r, members, evs, m, three, l, f, q);
    m' := m + three;
  }

  /** What k rounds make of a pair. */
  ghost function After(r: Repairs, p: Pair, k: nat): Pair {
    if k == 0 then p else Round(r, After(r, p, k - 1))
  }

  lemma {:induction false} AfterRounds(r: Repairs, p: Pair, k: nat) returns (ps: seq<Pair>)
    requires Paired(p)
    ensures Rounds(r, ps) && |ps| == k + 1 && ps[0] == p && ps[k] == After(r, p, k)
    ensures Paired(After(r, p, k)) && Ceiling(After(r, p, k)) <= Ceiling(p)
  {
    if k == 0 {
      ps := [p];
    } else {
      var qs := AfterRounds(r, p, k - 1);
      RoundKeeps(r, qs[k - 1]);
      ps := qs + [After(r, p, k)];
      RoundAdded(r, qs, ps);
    }
  }

  /** k rounds from where a run has come to, as a run. */
  lemma {:induction false} ManyRounds(r: Repairs, members: set<NodeId>, evs: seq<Event>, l: NodeId, f: NodeId, k: nat,
                                      p: Pair) returns (more: seq<Event>)
    requires l in members && f in members && l != f && ComesTo(r, members, evs, [], l, f, p)
    ensures |more| == 3 * k && ComesTo(r, members, evs, more, l, f, After(r, p, k))
    decreases k
  {
    if k == 0 {
      more := [];
    } else {
      var m := ManyRounds(r, members, evs, l, f, k - 1, p);
      more := OnceMore(r, members, evs, m, l, f, After(r, p, k - 1));
    }
  }

  lemma StartsAt(r: Repairs, members: set<NodeId>, evs: seq<Event>, l: NodeId, f: NodeId)
    requires CountsVotes(r, members) && l in members && f in members && l != f
    requires var s := Run(r, members, evs);
             l in s.nodes && f in s.nodes && s.nodes[l].role == Leader && s.nodes[f].term <= s.nodes[l].term
    ensures ComesTo(r, members, evs, [], l, f, PairAt(Run(r, members, evs), l, f))
  {
    RunStationed(r, members, evs);
    Theorems.MeetingPaired(r, members, evs, PairAt(Run(r, members, evs), l, f));
    assert evs + [] == evs;
  }

  /** Wherever a run has come to, it goes on, within three events for each round
      of the bound, to where a node that is not ahead of a leader holds that
      leader's whole log, and the leader still leads. */
  lemma CatchesUp(r: Repairs, members: set<NodeId>, evs: seq<Event>, l: NodeId, f: NodeId) returns (more: seq<Event>)
    requires CountsVotes(r, members) && l in members && f in members && l != f
    requires var s := Run(r, members, evs);
             l in s.nodes && f in s.nodes && s.nodes[l].role == Leader && s.nodes[f].term <= s.nodes[l].term
    ensures l in Run(r, members, evs + more).nodes && f in Run(r, members, evs + more).nodes
    ensures var s, s' := Run(r, members, evs), Run(r, members, evs + more);
            && |more| == 3 * Bound(PairAt(s, l, f))
            && s'.nodes[l].role == Leader && s'.nodes[l].log == s.nodes[l].log && s.nodes[l].log <= s'.nodes[f].log
  {
    var p := PairAt(Run(r, members, evs), l, f);
    StartsAt(r, members, evs, l, f);
    more := ManyRounds(r, members, evs, l, f, Bound(p), p);
    var ps := AfterRounds(r, p, Bound(p));
    ReplicationConverges(r, ps);
  }
}
