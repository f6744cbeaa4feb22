/** When a leadership answers its clients for their own commands without further
    proviso: exactly where votes decide elections. */
module OwnAnswers {
  import opened RaftTypes
  import opened NodeSpec
  import opened Cluster
  import opened History
  import opened LogMatching
  import opened Persistence
  import opened Scenarios
  import opened RivalLeaders
  import Leadership

  ghost predicate IsLeader(r: Repairs, members: set<NodeId>, evs: seq<Event>, v: NodeId, j: nat)
    requires j <= |evs|
  {
    var s := Run(r, members, evs[..j]);
    v in s.nodes && s.nodes[v].role == Leader
  }

  /** Node v leads from step i to the end of the run. */
  ghost predicate KeepsLeading(r: Repairs, members: set<NodeId>, evs: seq<Event>, v: NodeId, i: nat) {
    i <= |evs| && forall j: nat {:trigger IsLeader(r, members, evs, v, j)} | i <= j <= |evs| ::
      IsLeader(r, members, evs, v, j)
  }

  /** Step j is one of node v, and a is among its answers. */
  ghost predicate Gives(r: Repairs, members: set<NodeId>, evs: seq<Event>, v: NodeId, j: nat, a: Reply) {
    j < |evs| &&
    var s := Run(r, members, evs[..j]);
    Enabled(s, evs[j]) && Site(evs[j]) == v && a in React(r, s.nodes[v], evs[j]).replies && a.result.Success?
  }

  /** At the end the client's command is where it was told, committed at v. */
  ghost predicate AnswerKept(r: Repairs, members: set<NodeId>, evs: seq<Event>, v: NodeId, a: Reply)
    requires a.result.Success?
  {
    var s, k := Run(r, members, evs), a.result.index;
    && v in s.nodes && 1 <= k <= Min(s.nodes[v].commit, |s.nodes[v].log|)
    && s.nodes[v].log[k - 1].command == a.client.wants
  }

  /** An answer given during v's leadership, for an index beyond the log v had
      when it began. */
  ghost predicate Concerned(r: Repairs, members: set<NodeId>, evs: seq<Event>, v: NodeId, i: nat, j: nat, a: Reply) {
    && KeepsLeading(r, members, evs, v, i) && i <= j && Gives(r, members, evs, v, j, a)
    && v in Run(r, members, evs[..i]).nodes && a.result.index > |Run(r, members, evs[..i]).nodes[v].log|
  }

  // ----- where votes decide -----

  /** Among nodes whose votes decide no leader hears from another and goes on. */
  lemma TakesNothingIn(r: Repairs, members: set<NodeId>, h: Past, s: State, ev: Event)
    requires Inv(members, h, s) && Enabled(s, ev)
    requires var n := s.nodes[Site(ev)]; n.role == Leader && React(r, n, ev).node.role == Leader
    ensures !Leadership.TakesIn(s.nodes[Site(ev)], ev)
  {
    var n := s.nodes[Site(ev)];
    if Leadership.TakesIn(n, ev) {
      assert MessageOk(members, h, ev.envelope);
      AcceptedOutcome(r, n, ev.envelope.from, ev.envelope.message);
    }
  }

  lemma LeadingReigns(r: Repairs, members: set<NodeId>, evs: seq<Event>, v: NodeId, i: nat)
    requires CountsVotes(r, members) && KeepsLeading(r, members, evs, v, i)
    ensures Leadership.Reigns(r, members, evs, v, i)
  {
    forall j: nat | i <= j <= |evs| ensures Leadership.LeadsAt(r, members, evs, v, j) {
      assert IsLeader(r, members, evs, v, j);
      var s := Run(r, members, evs[..j]);
      if j < |evs| && Enabled(s, evs[j]) && Site(evs[j]) == v {
        assert IsLeader(r, members, evs, v, j + 1);
        assert evs[..j + 1][..j] == evs[..j];
        RunKeeps(r, members, evs[..j]);
        TakesNothingIn(r, members, PastOf(r, members, evs[..j]), s, evs[j]);
      }
    }
  }

  lemma AnswersKept(r: Repairs, members: set<NodeId>, evs: seq<Event>, v: NodeId, i: nat, j: nat, a: Reply)
    requires CountsVotes(r, members) && Concerned(r, members, evs, v, i, j, a)
    ensures AnswerKept(r, members, evs, v, a)
  {
    LeadingReigns(r, members, evs, v, i);
    Leadership.LeadershipSettlesOwn(r, members, evs, v, i, j, a);
  }

  // ----- where they do not -----

  ghost predicate WaitsForOne(n: NodeState) { 1 in n.pending && n.pending[1] == MINE }

  /** n no longer leads term t, and will not again. */
  ghost predicate Deposed(n: NodeState, t: nat) {
    n.term > t || (n.term == t && n.role == Follower)
  }

  lemma StaysPast(r: Repairs, n: NodeState, ev: Event, t: nat)
    requires Deposed(n, t)
    ensures Deposed(React(r, n, ev).node, t)
  {
    ReactAdvances(r, n, ev);
  }

  lemma LeaderWaits(r: Repairs, n: NodeState, ev: Event)
    requires n.role == Leader && n.log != [] && !ev.Timeout?
    ensures var out := React(r, n, ev);
            || Deposed(out.node, n.term)
            || (out.node.role == Leader && out.node.term == n.term && out.node.log != []
                && (WaitsForOne(n) ==> WaitsForOne(out.node) || TOLD in out.replies))
  {
    if ev.Deliver? && ev.envelope.message.AppendEntries? {
      if Accepts(n, ev.envelope.message) { AcceptedOutcome(r, n, ev.envelope.from, ev.envelope.message); }
    }
  }

  ghost predicate ToldAt(r: Repairs, members: set<NodeId>, evs: seq<Event>, a: NodeId, i: nat, j: nat) {
    i <= j && Gives(r, members, evs, a, j, TOLD)
  }

  /** a has led term t since step i, with a client of its own at index 1 that
      waits or was told. */
  ghost predicate Serves(r: Repairs, members: set<NodeId>, evs: seq<Event>, a: NodeId, i: nat, t: nat) {
    && KeepsLeading(r, members, evs, a, i) && a in Run(r, members, evs).nodes
    && var n := Run(r, members, evs).nodes[a];
       && n.role == Leader && n.term == t && n.log != []
       && (WaitsForOne(n) || exists j: nat :: ToldAt(r, members, evs, a, i, j))
  }

  ghost predicate Served(r: Repairs, members: set<NodeId>, evs: seq<Event>, a: NodeId, i: nat, t: nat) {
    && i <= |evs| && a in Run(r, members, evs[..i]).nodes && Run(r, members, evs[..i]).nodes[a].log == []
    && a in Run(r, members, evs).nodes
    && (Deposed(Run(r, members, evs).nodes[a], t) || Serves(r, members, evs, a, i, t))
  }

  lemma LongerRun(r: Repairs, members: set<NodeId>, evs: seq<Event>, ev: Event)
    ensures Run(r, members, evs + [ev]) == Step(r, Run(r, members, evs), ev)
    ensures forall k: nat {:trigger evs[..k]} | k <= |evs| :: (evs + [ev])[..k] == evs[..k]
  {
    assert (evs + [ev])[..|evs|] == evs;
  }

  lemma LeadsOn(r: Repairs, members: set<NodeId>, evs: seq<Event>, ev: Event, a: NodeId, i: nat)
    requires KeepsLeading(r, members, evs, a, i)
    requires var s' := Step(r, Run(r, members, evs), ev); a in s'.nodes && s'.nodes[a].role == Leader
    ensures KeepsLeading(r, members, evs + [ev], a, i)
  {
    LongerRun(r, members, evs, ev);
    forall j: nat | i <= j <= |evs| + 1 ensures IsLeader(r, members, evs + [ev], a, j) {
      if j <= |evs| {
        assert IsLeader(r, members, evs, a, j) && (evs + [ev])[..j] == evs[..j];
      } else {
        assert (evs + [ev])[..j] == evs + [ev];
      }
    }
  }

  lemma ToldBefore(r: Repairs, members: set<NodeId>, evs: seq<Event>, ev: Event, a: NodeId, i: nat, j: nat)
    requires ToldAt(r, members, evs, a, i, j)
    ensures ToldAt(r, members, evs + [ev], a, i, j)
  {
    assert (evs + [ev])[..j] == evs[..j];
  }

  lemma ToldNow(r: Repairs, members: set<NodeId>, evs: seq<Event>, ev: Event, a: NodeId, i: nat)
    requires i <= |evs| && Enabled(Run(r, members, evs), ev) && Site(ev) == a
    requires TOLD in React(r, Run(r, members, evs).nodes[a], ev).replies
    ensures ToldAt(r, members, evs + [ev], a, i, |evs|)
  {
    assert (evs + [ev])[..|evs|] == evs;
  }

  lemma ServesOn(r: Repairs, members: set<NodeId>, evs: seq<Event>, ev: Event, a: NodeId, i: nat, t: nat)
    requires Serves(r, members, evs, a, i, t)
    ensures var s' := Run(r, members, evs + [ev]);
            a in s'.nodes && (Deposed(s'.nodes[a], t) || Serves(r, members, evs + [ev], a, i, t))
  {
    LongerRun(r, members, evs, ev);
    var s, s' := Run(r, members, evs), Run(r, members, evs + [ev]);
    if Enabled(s, ev) && Site(ev) == a { LeaderWaits(r, s.nodes[a], ev); }
    if !Deposed(s'.nodes[a], t) {
      LeadsOn(r, members, evs, ev, a, i);
      if !WaitsForOne(s.nodes[a]) {
        var j: nat :| ToldAt(r, members, evs, a, i, j);
        ToldBefore(r, members, evs, ev, a, i, j);
      } else if !WaitsForOne(s'.nodes[a]) {
        ToldNow(r, members, evs, ev, a, i);
      }
    }
  }

  lemma ServedOn(r: Repairs, members: set<NodeId>, evs: seq<Event>, ev: Event, a: NodeId, i: nat, t: nat)
    requires Served(r, members, evs, a, i, t)
    ensures Served(r, members, evs + [ev], a, i, t)
  {
    LongerRun(r, members, evs, ev);
    var s := Run(r, members, evs);
    assert (evs + [ev])[..i] == evs[..i];
    if Deposed(s.nodes[a], t) {
      if Enabled(s, ev) && Site(ev) == a { StaysPast(r, s.nodes[a], ev, t); }
    } else {
      ServesOn(r, members, evs, ev, a, i, t);
    }
  }

  ghost predicate InService(r: Repairs, members: set<NodeId>, a: NodeId, t: nat, s: State) {
    exists evs: seq<Event>, i: nat :: Run(r, members, evs) == s && Served(r, members, evs, a, i, t)
  }

  lemma ServiceClosed(r: Repairs, members: set<NodeId>, a: NodeId, t: nat)
    ensures Closed(r, iset s | InService(r, members, a, t, s))
  {
    forall s, ev | InService(r, members, a, t, s) ensures InService(r, members, a, t, Step(r, s, ev)) {
      var evs: seq<Event>, i: nat :| Run(r, members, evs) == s && Served(r, members, evs, a, i, t);
      LongerRun(r, members, evs, ev);
      ServedOn(r, members, evs, ev, a, i, t);
    }
  }

  /** The client is at index 1 of a new leader. */
  lemma ServiceBegins(r: Repairs, members: set<NodeId>, s: State, a: NodeId, t: nat)
    requires Reachable(r, members, s) && a in s.nodes && Leads(s.nodes[a], t, [], 0)
    ensures InService(r, members, a, t, Step(r, s, Request(a, MINE)))
  {
    var evs: seq<Event> :| Run(r, members, evs) == s;
    var ev, i := Request(a, MINE), |evs|;
    LongerRun(r, members, evs, ev);
    assert evs[..i] == evs;
    forall j: nat | i <= j <= i ensures IsLeader(r, members, evs, a, j) { assert evs[..j] == evs; }
    assert KeepsLeading(r, members, evs, a, i);
    LeadsOn(r, members, evs, ev, a, i);
    assert Served(r, members, evs + [ev], a, i, t);
  }

  /** The other leader's entry replaces a's, and a commits it. */
  lemma Overruled(r: Repairs, members: set<NodeId>, all: iset<State>, s: State, a: NodeId, b: NodeId, t: nat)
    returns (s': State)
    requires Scene(r, members, all, s) && a != b && Open(s, members - {a, b}, t)
    requires Offers(members, s, a, MINE, t) && NewLeader(members, s, b, t)
    ensures s' in all && a in s'.nodes && Leads(s'.nodes[a], t, [Entry(THEIRS, t)], 1) && !WaitsForOne(s'.nodes[a])
  {
    var s1 := Offered(r, members, all, s, b, THEIRS, t);
    var s2 := CrossOffers(r, members, all, s1, a, b, t);
    Without(members, a, b);
    s' := CommitsOne(r, members, all, s2, a, THEIRS, t);
  }

  lemma Begun(r: Repairs, members: set<NodeId>, s: State, a: NodeId, b: NodeId, t: nat) returns (s': State)
    requires Scene(r, members, (iset s | Reachable(r, members, s)), s) && Rivals(members, s, a, b, t)
    ensures Scene(r, members, (iset s | InService(r, members, a, t, s)), s') && Open(s', members - {a, b}, t)
    ensures Offers(members, s', a, MINE, t) && NewLeader(members, s', b, t)
  {
    ServiceClosed(r, members, a, t);
    ServiceBegins(r, members, s, a, t);
    s' := Offered(r, members, (iset s | Reachable(r, members, s)), s, a, MINE, t);
  }

  lemma NotKept(r: Repairs, members: set<NodeId>, s: State, a: NodeId, t: nat)
    returns (evs: seq<Event>, i: nat, j: nat)
    requires InService(r, members, a, t, s) && a in s.nodes
    requires Leads(s.nodes[a], t, [Entry(THEIRS, t)], 1) && !WaitsForOne(s.nodes[a])
    ensures Concerned(r, members, evs, a, i, j, TOLD) && !AnswerKept(r, members, evs, a, TOLD)
  {
    evs, i :| Run(r, members, evs) == s && Served(r, members, evs, a, i, t);
    j :| ToldAt(r, members, evs, a, i, j);
  }

  /** a leads throughout, but has another entry where its client was told. */
  lemma Robbed(r: Repairs, members: set<NodeId>, s: State, a: NodeId, b: NodeId, t: nat)
    returns (evs: seq<Event>, i: nat, j: nat)
    requires Scene(r, members, (iset s | Reachable(r, members, s)), s) && Rivals(members, s, a, b, t)
    ensures Concerned(r, members, evs, a, i, j, TOLD) && !AnswerKept(r, members, evs, a, TOLD)
  {
    var s1 := Begun(r, members, s, a, b, t);
    var s2 := Overruled(r, members, (iset s | InService(r, members, a, t, s)), s1, a, b, t);
    evs, i, j := NotKept(r, members, s2, a, t);
  }
}
