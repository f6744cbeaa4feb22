/** What one leadership owes its clients, whatever repairs are made: as long as
    a node leads and takes in no other leader's entries, whoever proposed to it
    in that time is answered for its own command, no matter whom the node still
    has waiting. */
module Leadership {
  import opened RaftTypes
  import opened NodeSpec
  import opened Cluster
  import opened Quorums

  /** The clients waiting above index base wait at their own commands. */
  ghost predicate OwnAbove(n: NodeState, base: nat) {
    base <= |n.log| &&
    forall x | x in n.pending && base < x <= |n.log| :: n.log[x - 1].command == n.pending[x].wants
  }

  ghost predicate Settles(n: NodeState, a: Reply, base: nat) {
    a.result.Success? && a.result.index > base ==>
      a.result.index <= Min(n.commit, |n.log|) && n.log[a.result.index - 1].command == a.client.wants
  }

  /** The node accepts another leader's entries. */
  ghost predicate TakesIn(n: NodeState, ev: Event) {
    ev.Deliver? && ev.envelope.message.AppendEntries? && Accepts(n, ev.envelope.message)
  }

  lemma AdvanceSettles(n: NodeState, base: nat)
    requires n.role == Leader && OwnAbove(n, base)
    ensures var out := TryAdvance(n);
            && out.node.log == n.log && n.commit <= out.node.commit && OwnAbove(out.node, base)
            && forall a | a in out.replies :: Settles(out.node, a, base)
  {
    ScanIsGreatest(n, |n.log|);
  }

  lemma ProposeSettles(n: NodeState, client: Client, base: nat)
    requires n.role == Leader && OwnAbove(n, base)
    ensures var out := OnPropose(n, client);
            && n.log <= out.node.log && n.commit == out.node.commit && OwnAbove(out.node, base)
            && out.replies == {}
  {
  }

  /** Heartbeats, votes and turned-down entries concern no client. */
  lemma OthersSettle(r: Repairs, n: NodeState, ev: Event)
    requires n.role == Leader && React(r, n, ev).node.role == Leader && !ev.Timeout? && !ev.Request? && !TakesIn(n, ev)
    requires !(ev.Deliver? && ev.envelope.message.AppendEntriesResponse?)
    ensures var out := React(r, n, ev);
            && out.node.log == n.log && out.node.commit == n.commit && out.node.pending == n.pending
            && out.replies == {}
  {
  }

  lemma StepSettles(r: Repairs, n: NodeState, ev: Event, base: nat)
    requires n.role == Leader && OwnAbove(n, base)
    requires React(r, n, ev).node.role == Leader && !ev.Timeout? && !TakesIn(n, ev)
    ensures var out := React(r, n, ev);
            && n.log <= out.node.log && n.commit <= out.node.commit && OwnAbove(out.node, base)
            && forall a | a in out.replies :: Settles(out.node, a, base)
  {
    if ev.Deliver? && ev.envelope.message.AppendEntriesResponse? {
      var e := ev.envelope;
      AdvanceSettles(n.(matched := n.matched[e.from := e.message.lastLogIndex],
                        next := n.next[e.from := e.message.lastLogIndex + 1]), base);
    } else if ev.Request? {
      ProposeSettles(n, ev.client, base);
    } else {
      OthersSettle(r, n, ev);
    }
  }

  // ----- over a run -----

  ghost predicate LeadsAt(r: Repairs, members: set<NodeId>, evs: seq<Event>, v: NodeId, j: nat)
    requires j <= |evs|
  {
    var s := Run(r, members, evs[..j]);
    && v in s.nodes && s.nodes[v].role == Leader
    && (j < |evs| && Enabled(s, evs[j]) && Site(evs[j]) == v ==> !TakesIn(s.nodes[v], evs[j]))
  }

  /** Node v leads from step i to the end and takes in nobody else's entries. */
  ghost predicate Reigns(r: Repairs, members: set<NodeId>, evs: seq<Event>, v: NodeId, i: nat) {
    i <= |evs| &&
    forall j: nat {:trigger LeadsAt(r, members, evs, v, j)} | i <= j <= |evs| :: LeadsAt(r, members, evs, v, j)
  }

  lemma ReignBefore(r: Repairs, members: set<NodeId>, evs: seq<Event>, v: NodeId, i: nat, k: nat)
    requires Reigns(r, members, evs, v, i) && i <= k <= |evs|
    ensures Reigns(r, members, evs[..k], v, i)
  {
    forall j: nat | i <= j <= k ensures LeadsAt(r, members, evs[..k], v, j) {
      assert LeadsAt(r, members, evs, v, j);
      assert evs[..k][..j] == evs[..j];
    }
  }

  lemma {:induction false} ReignKeeps(r: Repairs, members: set<NodeId>, evs: seq<Event>, v: NodeId, i: nat)
    requires Reigns(r, members, evs, v, i)
    ensures v in Run(r, members, evs[..i]).nodes && v in Run(r, members, evs).nodes
    ensures var n, n' := Run(r, members, evs[..i]).nodes[v], Run(r, members, evs).nodes[v];
            n'.role == Leader && n.log <= n'.log && n.commit <= n'.commit &&
            forall base: nat | OwnAbove(n, base) :: OwnAbove(n', base)
    decreases |evs|
  {
    assert LeadsAt(r, members, evs, v, i) && LeadsAt(r, members, evs, v, |evs|);
    assert evs[..|evs|] == evs;
    if i < |evs| {
      var before, ev := evs[..|evs| - 1], evs[|evs| - 1];
      ReignBefore(r, members, evs, v, i, |evs| - 1);
      ReignKeeps(r, members, before, v, i);
      assert before[..i] == evs[..i];
      LastStep(r, members, evs, v);
    }
  }

  lemma LastStep(r: Repairs, members: set<NodeId>, evs: seq<Event>, v: NodeId)
    requires evs != [] && Reigns(r, members, evs, v, |evs| - 1)
    ensures v in Run(r, members, evs[..|evs| - 1]).nodes && v in Run(r, members, evs).nodes
    ensures var n, n' := Run(r, members, evs[..|evs| - 1]).nodes[v], Run(r, members, evs).nodes[v];
            n.log <= n'.log && n.commit <= n'.commit && forall base: nat | OwnAbove(n, base) :: OwnAbove(n', base)
  {
    var before, ev := evs[..|evs| - 1], evs[|evs| - 1];
    assert evs[..|evs|] == evs;
    assert LeadsAt(r, members, evs, v, |evs| - 1) && LeadsAt(r, members, evs, v, |evs|);
    var s := Run(r, members, before);
    if Enabled(s, ev) && Site(ev) == v {
      forall base: nat | OwnAbove(s.nodes[v], base) ensures OwnAbove(Run(r, members, evs).nodes[v], base) {
        StepSettles(r, s.nodes[v], ev, base);
      }
      assert OwnAbove(s.nodes[v], |s.nodes[v].log|);
      StepSettles(r, s.nodes[v], ev, |s.nodes[v].log|);
    }
  }

  /** The answer is right when it is given. */
  lemma SettledAt(r: Repairs, members: set<NodeId>, evs: seq<Event>, v: NodeId, i: nat, a: Reply)
    requires evs != [] && Reigns(r, members, evs, v, i) && i < |evs|
    requires var before, ev := evs[..|evs| - 1], evs[|evs| - 1];
             && Enabled(Run(r, members, before), ev) && Site(ev) == v
             && a in React(r, Run(r, members, before).nodes[v], ev).replies
    ensures v in Run(r, members, evs[..i]).nodes && v in Run(r, members, evs).nodes
    ensures Settles(Run(r, members, evs).nodes[v], a, |Run(r, members, evs[..i]).nodes[v].log|)
  {
    var before, ev := evs[..|evs| - 1], evs[|evs| - 1];
    ReignBefore(r, members, evs, v, i, |evs| - 1);
    ReignKeeps(r, members, before, v, i);
    assert before[..i] == evs[..i] && evs[..|evs|] == evs;
    assert LeadsAt(r, members, evs, v, |evs| - 1) && LeadsAt(r, members, evs, v, |evs|);
    var base := |Run(r, members, evs[..i]).nodes[v].log|;
    assert OwnAbove(Run(r, members, evs[..i]).nodes[v], base);
    StepSettles(r, Run(r, members, before).nodes[v], ev, base);
  }

  /** Every `Success` that v gives at step j for an index beyond its log at step
      i, where its leadership begins, goes to the client whose command is there,
      committed, from then on. */
  lemma LeadershipSettlesOwn(r: Repairs, members: set<NodeId>, evs: seq<Event>, v: NodeId, i: nat, j: nat, a: Reply)
    requires Reigns(r, members, evs, v, i) && i <= j < |evs|
    requires Enabled(Run(r, members, evs[..j]), evs[j]) && Site(evs[j]) == v
    requires a in React(r, Run(r, members, evs[..j]).nodes[v], evs[j]).replies && a.result.Success?
    ensures v in Run(r, members, evs[..i]).nodes && v in Run(r, members, evs).nodes
    ensures a.result.index > |Run(r, members, evs[..i]).nodes[v].log| ==>
              var n, k := Run(r, members, evs).nodes[v], a.result.index;
              k <= n.commit && k <= |n.log| && n.log[k - 1].command == a.client.wants
  {
    var upTo := evs[..j + 1];
    assert upTo[..i] == evs[..i] && upTo[..j] == evs[..j];
    ReignBefore(r, members, evs, v, i, j + 1);
    SettledAt(r, members, upTo, v, i, a);
    assert Reigns(r, members, evs, v, j + 1);
    ReignKeeps(r, members, evs, v, j + 1);
  }
}
