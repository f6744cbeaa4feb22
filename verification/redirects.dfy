/** What a node that does not lead tells a client: the leader it last heard of
    since its last start. On runs alone, for any repairs. */
module Redirects {
  import opened RaftTypes
  import opened NodeSpec
  import opened Cluster
  import opened Persistence
  import opened Scenarios
  import LogMatching
  import Theorems

  // ----- what a node has heard -----

  /** Step k of the run is one of node v. */
  ghost predicate Acts(r: Repairs, members: set<NodeId>, evs: seq<Event>, v: NodeId, k: nat) {
    k < |evs| && Enabled(Run(r, members, evs[..k]), evs[k]) && Site(evs[k]) == v
  }

  /** The event names x as leader: in entries that are not of an earlier term, or
      because the node itself comes to lead. */
  ghost predicate Names(r: Repairs, n: NodeState, ev: Event, x: NodeId) {
    || (ev.Deliver? && ev.envelope.message.AppendEntries? && ev.envelope.message.term >= n.term
        && ev.envelope.message.leaderId == x)
    || (n.role != Leader && React(r, n, ev).node.role == Leader && n.id == x)
  }

  ghost predicate Hears(r: Repairs, members: set<NodeId>, evs: seq<Event>, v: NodeId, k: nat, x: NodeId) {
    Acts(r, members, evs, v, k) && Names(r, Run(r, members, evs[..k]).nodes[v], evs[k], x)
  }

  /** At step k node v neither restarts nor hears of any leader. */
  ghost predicate Silent(r: Repairs, members: set<NodeId>, evs: seq<Event>, v: NodeId, k: nat) {
    !(Acts(r, members, evs, v, k) && evs[k].Crash?) && forall x :: !Hears(r, members, evs, v, k, x)
  }

  /** At step k node v heard of x, and of nobody since, nor has it restarted. */
  ghost predicate LastHeard(r: Repairs, members: set<NodeId>, evs: seq<Event>, v: NodeId, k: nat, x: NodeId) {
    Hears(r, members, evs, v, k, x) && forall j: nat | k < j < |evs| :: Silent(r, members, evs, v, j)
  }

  /** hint is the leader v last heard of, if any. */
  ghost predicate Hint(r: Repairs, members: set<NodeId>, evs: seq<Event>, v: NodeId, hint: Option<NodeId>) {
    forall x :: hint == Some(x) <==> exists k: nat :: LastHeard(r, members, evs, v, k, x)
  }

  // ----- a node's hint -----

  /** A step changes the hint when it names a leader or is a crash. */
  lemma StepHint(r: Repairs, n: NodeState, ev: Event)
    requires !(ev.Timeout? && n.role == Leader)
    ensures var n' := React(r, n, ev).node;
            && (forall x | Names(r, n, ev, x) :: n'.leaderId == Some(x) && !ev.Crash?)
            && (ev.Crash? ==> n'.leaderId == None)
            && (!ev.Crash? && (forall x :: !Names(r, n, ev, x)) ==> n'.leaderId == n.leaderId)
  {
    var n' := React(r, n, ev).node;
    if n.role != Leader && n'.role == Leader { assert Names(r, n, ev, n.id); }
    if ev.Deliver? && ev.envelope.message.AppendEntries? && ev.envelope.message.term >= n.term {
      assert Names(r, n, ev, ev.envelope.message.leaderId);
    }
  }

  lemma HearsBefore(r: Repairs, members: set<NodeId>, evs: seq<Event>, i: nat, v: NodeId, k: nat)
    requires k < i <= |evs|
    ensures Acts(r, members, evs[..i], v, k) == Acts(r, members, evs, v, k)
    ensures forall x :: Hears(r, members, evs[..i], v, k, x) == Hears(r, members, evs, v, k, x)
    ensures Silent(r, members, evs[..i], v, k) == Silent(r, members, evs, v, k)
  {
    assert evs[..i][..k] == evs[..k] && evs[..i][k] == evs[k];
  }

  /** A silent step leaves what was heard last as it is. */
  lemma SilenceKeeps(r: Repairs, members: set<NodeId>, evs: seq<Event>, v: NodeId, k: nat, x: NodeId)
    requires evs != [] && Silent(r, members, evs, v, |evs| - 1)
    ensures LastHeard(r, members, evs, v, k, x) <==> LastHeard(r, members, evs[..|evs| - 1], v, k, x)
  {
    var i := |evs| - 1;
    if k < i {
      HearsBefore(r, members, evs, i, v, k);
      forall j: nat | k < j < i ensures Silent(r, members, evs[..i], v, j) == Silent(r, members, evs, v, j) {
        HearsBefore(r, members, evs, i, v, j);
      }
      if LastHeard(r, members, evs[..i], v, k, x) {
        forall j: nat | k < j < |evs| ensures Silent(r, members, evs, v, j) {
          if j < i { assert Silent(r, members, evs[..i], v, j); }
        }
      }
    }
  }

  lemma SilentHint(r: Repairs, members: set<NodeId>, evs: seq<Event>, v: NodeId, hint: Option<NodeId>)
    requires evs != [] && Silent(r, members, evs, v, |evs| - 1) && Hint(r, members, evs[..|evs| - 1], v, hint)
    ensures Hint(r, members, evs, v, hint)
  {
    var before := evs[..|evs| - 1];
    forall x ensures hint == Some(x) <==> exists k: nat :: LastHeard(r, members, evs, v, k, x) {
      if k: nat :| LastHeard(r, members, evs, v, k, x) { SilenceKeeps(r, members, evs, v, k, x); }
      if k: nat :| LastHeard(r, members, before, v, k, x) { SilenceKeeps(r, members, evs, v, k, x); }
    }
  }

  /** After a step that is not silent only that step counts. */
  lemma LoudHint(r: Repairs, members: set<NodeId>, evs: seq<Event>, v: NodeId)
    requires evs != [] && !Silent(r, members, evs, v, |evs| - 1)
    requires v in Run(r, members, evs).nodes
    ensures Hint(r, members, evs, v, Run(r, members, evs).nodes[v].leaderId)
  {
    var i := |evs| - 1;
    var s, hint := Run(r, members, evs[..i]), Run(r, members, evs).nodes[v].leaderId;
    StepHint(r, s.nodes[v], evs[i]);
    forall x ensures hint == Some(x) <==> exists k: nat :: LastHeard(r, members, evs, v, k, x) {
      if k: nat :| LastHeard(r, members, evs, v, k, x) {
        assert k == i;
        assert Names(r, s.nodes[v], evs[i], x);
      }
      if hint == Some(x) {
        assert Hears(r, members, evs, v, i, x);
        assert LastHeard(r, members, evs, v, i, x);
      }
    }
  }

  /** A node's hint is the leader it last heard of since its last start. */
  lemma {:induction false} HintIsLastHeard(r: Repairs, members: set<NodeId>, evs: seq<Event>, v: NodeId)
    requires v in members
    ensures v in Run(r, members, evs).nodes && Hint(r, members, evs, v, Run(r, members, evs).nodes[v].leaderId)
  {
    NodesStay(r, members, evs);
    if evs != [] {
      var i := |evs| - 1;
      HintIsLastHeard(r, members, evs[..i], v);
      if Silent(r, members, evs, v, i) {
        var s := Run(r, members, evs[..i]);
        if Acts(r, members, evs, v, i) {
          forall x ensures !Names(r, s.nodes[v], evs[i], x) { assert !Hears(r, members, evs, v, i, x); }
          StepHint(r, s.nodes[v], evs[i]);
        }
        SilentHint(r, members, evs, v, s.nodes[v].leaderId);
      } else {
        LoudHint(r, members, evs, v);
      }
    }
  }

  // ----- what clients are told -----

  /** At step k a client asked node v, which did not lead and answered with its hint. */
  ghost predicate Redirects(r: Repairs, members: set<NodeId>, evs: seq<Event>, v: NodeId, k: nat, a: Reply)
    requires a.result.NotLeader?
  {
    && Acts(r, members, evs, v, k) && evs[k] == Request(v, a.client)
    && Run(r, members, evs[..k]).nodes[v].role != Leader && Hint(r, members, evs[..k], v, a.result.leaderId)
  }

  lemma SameHint(r: Repairs, members: set<NodeId>, evs: seq<Event>, v: NodeId, a: Option<NodeId>, b: Option<NodeId>)
    requires Hint(r, members, evs, v, a) && Hint(r, members, evs, v, b)
    ensures a == b
  {
    if a.Some? {
      assert a == Some(a.value);
    } else if b.Some? {
      assert b == Some(b.value);
    }
  }

  /** Only a request to a node that does not lead is answered with a redirection,
      and it is the only answer. */
  lemma StepRedirects(r: Repairs, n: NodeState, ev: Event, a: Reply)
    requires a.result.NotLeader?
    ensures var out := React(r, n, ev);
            a in out.replies <==>
              ev.Request? && n.role != Leader && a == Reply(ev.client, NotLeader(n.leaderId))
    ensures ev.Request? && n.role != Leader ==>
              var out := React(r, n, ev);
              out.node == n && out.sent == {} && out.replies == {Reply(ev.client, NotLeader(n.leaderId))}
  {
  }

  lemma RedirectsBefore(r: Repairs, members: set<NodeId>, evs: seq<Event>, i: nat, v: NodeId, k: nat, a: Reply)
    requires a.result.NotLeader? && k < i <= |evs|
    ensures Redirects(r, members, evs[..i], v, k, a) == Redirects(r, members, evs, v, k, a)
  {
    HearsBefore(r, members, evs, i, v, k);
    assert evs[..i][..k] == evs[..k] && evs[..i][k] == evs[k];
  }

  lemma RedirectNow(r: Repairs, members: set<NodeId>, evs: seq<Event>, a: Reply)
    requires a.result.NotLeader? && evs != [] && Enabled(Run(r, members, evs[..|evs| - 1]), evs[|evs| - 1])
    ensures var s, ev := Run(r, members, evs[..|evs| - 1]), evs[|evs| - 1];
            a in React(r, s.nodes[Site(ev)], ev).replies <==> Redirects(r, members, evs, Site(ev), |evs| - 1, a)
  {
    var i := |evs| - 1;
    var s, ev := Run(r, members, evs[..i]), evs[i];
    NodesStay(r, members, evs[..i]);
    HintIsLastHeard(r, members, evs[..i], Site(ev));
    StepRedirects(r, s.nodes[Site(ev)], ev, a);
    if Redirects(r, members, evs, Site(ev), i, a) {
      SameHint(r, members, evs[..i], Site(ev), a.result.leaderId, s.nodes[Site(ev)].leaderId);
    }
  }

  /** A client is redirected exactly when it asked a node that did not lead, and to
      whom that node had last heard of. */
  lemma {:induction false} RedirectedExactly(r: Repairs, members: set<NodeId>, evs: seq<Event>, a: Reply)
    requires a.result.NotLeader?
    ensures a in Run(r, members, evs).replies <==> exists v, k: nat :: Redirects(r, members, evs, v, k, a)
  {
    if evs != [] {
      var i := |evs| - 1;
      var s, ev := Run(r, members, evs[..i]), evs[i];
      RedirectedExactly(r, members, evs[..i], a);
      if Enabled(s, ev) { RedirectNow(r, members, evs, a); }
      if v, k: nat :| Redirects(r, members, evs, v, k, a) {
        if k < i { RedirectsBefore(r, members, evs, i, v, k, a); }
      }
      if v, k: nat :| Redirects(r, members, evs[..i], v, k, a) { RedirectsBefore(r, members, evs, i, v, k, a); }
    }
  }

  // ----- who is named -----

  /** x led term t after j steps. */
  ghost predicate Led(r: Repairs, members: set<NodeId>, evs: seq<Event>, x: NodeId, t: nat, j: nat) {
    j <= |evs| &&
    var s := Run(r, members, evs[..j]);
    x in s.nodes && s.nodes[x].role == Leader && s.nodes[x].term == t
  }

  lemma LedBefore(r: Repairs, members: set<NodeId>, evs: seq<Event>, i: nat, x: NodeId, t: nat, j: nat)
    requires i <= |evs| && Led(r, members, evs[..i], x, t, j)
    ensures Led(r, members, evs, x, t, j)
  {
    assert evs[..i][..j] == evs[..j];
  }

  /** Entries name their sender, which led their term. */
  lemma {:induction false} EntriesNameLeader(r: Repairs, members: set<NodeId>, evs: seq<Event>, e: Envelope)
    requires e in Run(r, members, evs).network && e.message.AppendEntries?
    ensures e.message.leaderId == e.from && exists j: nat :: Led(r, members, evs, e.from, e.message.term, j)
  {
    if evs != [] {
      var i := |evs| - 1;
      var s, ev := Run(r, members, evs[..i]), evs[i];
      if e in s.network {
        EntriesNameLeader(r, members, evs[..i], e);
        var j: nat :| Led(r, members, evs[..i], e.from, e.message.term, j);
        LedBefore(r, members, evs, i, e.from, e.message.term, j);
      } else {
        var v, s' := Site(ev), Run(r, members, evs);
        RunStationed(r, members, evs);
        SentNews(r, s.nodes[v], ev, e);
        assert s'.nodes[v] == React(r, s.nodes[v], ev).node && s'.nodes[v].id == v;
        assert e in Heartbeats(s'.nodes[v]) && e.from == v;
        assert evs[..|evs|] == evs;
        assert Led(r, members, evs, e.from, e.message.term, |evs|);
      }
    }
  }

  /** Whom a node has heard of has led the term the node was then in. */
  lemma HeardHasLed(r: Repairs, members: set<NodeId>, evs: seq<Event>, v: NodeId, k: nat, x: NodeId) returns (j: nat)
    requires Hears(r, members, evs, v, k, x)
    ensures v in Run(r, members, evs[..k + 1]).nodes
    ensures Led(r, members, evs, x, Run(r, members, evs[..k + 1]).nodes[v].term, j)
  {
    var s, ev := Run(r, members, evs[..k]), evs[k];
    assert evs[..k + 1][..k] == evs[..k];
    RunStationed(r, members, evs[..k]);
    var t := Run(r, members, evs[..k + 1]).nodes[v].term;
    if s.nodes[v].role != Leader && React(r, s.nodes[v], ev).node.role == Leader && s.nodes[v].id == x {
      j := k + 1;
    } else {
      EntriesNameLeader(r, members, evs[..k], ev.envelope);
      j :| Led(r, members, evs[..k], x, ev.envelope.message.term, j);
      LedBefore(r, members, evs, k, x, ev.envelope.message.term, j);
    }
  }

  /** Where votes count, it is the only one that ever did. */
  lemma HeardIsTheLeader(r: Repairs, members: set<NodeId>, evs: seq<Event>, v: NodeId, k: nat, x: NodeId, y: NodeId,
                         j: nat)
    requires LogMatching.CountsVotes(r, members) && Hears(r, members, evs, v, k, x)
    requires v in Run(r, members, evs[..k + 1]).nodes
    requires Led(r, members, evs, y, Run(r, members, evs[..k + 1]).nodes[v].term, j)
    ensures x == y
  {
    var i := HeardHasLed(r, members, evs, v, k, x);
    NodesStay(r, members, evs[..i]);
    NodesStay(r, members, evs[..j]);
    Theorems.ElectionSafety(r, members, evs, i, j, x, y);
  }
}
