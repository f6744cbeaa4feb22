/** Which repairs the guarantees need, in clusters of every size. For each
    guarantee: the exact condition under which every reachable state has it,
    and, where the code falls short, a reachable state that does not. */
module Necessity {
  import opened RaftTypes
  import opened NodeSpec
  import opened Cluster
  import opened History
  import opened LogMatching
  import opened Replication
  import opened Commitment
  import opened ClientReplies
  import opened Scenarios
  import opened Stores
  import opened Guarantees
  import AppliedState
  import Convergence
  import LoneCommit
  import OldReplies
  import OverReport
  import OwnAnswers
  import Persistence
  import RivalLeaders
  import StaleTail
  import StolenReply
  import Theorems
  import TwoNodes

  // ----- the conditions -----

  /** Votes decide elections as they should: a lone node has its own, two or
      three nodes need votes to count in their own term, and from four nodes on
      the candidate's own vote has to count once. */
  predicate VotesDecide(r: Repairs, members: set<NodeId>) {
    |members| <= 1 || (r.voteTerm && (r.selfVote || |members| <= 3))
  }

  /** And from three nodes on followers report no more than a message covered,
      and leaders take no replies of other terms. */
  predicate MatchesHold(r: Repairs, members: set<NodeId>) {
    VotesDecide(r, members) && (|members| <= 2 || (r.coverReport && r.sameTerm))
  }

  /** And followers commit no more than a message covered. */
  predicate CommitsHold(r: Repairs, members: set<NodeId>) {
    MatchesHold(r, members) && (|members| <= 2 || r.commitClamp)
  }

  /** Or, instead, leaders forget the clients of earlier leaderships. */
  predicate AnswersHold(r: Repairs, members: set<NodeId>) {
    MatchesHold(r, members) && (|members| <= 2 || r.pendingReset)
  }

  /** The repairs a cluster of a given size needs. */
  predicate Enough(r: Repairs, members: set<NodeId>) {
    CommitsHold(r, members) && AnswersHold(r, members)
  }

  // ----- small clusters -----

  /** What two nodes have as soon as votes decide, and one has anyway. */
  ghost predicate SafeWhenSmall(members: set<NodeId>, s: State) {
    && MatchesHonest(s) && CommitsOnMajority(members, s) && LeadersComplete(s) && CommitsAgree(s)
    && AnswersHonest(s) && AnswersOnMajority(members, s)
  }

  lemma SmallIsSafe(r: Repairs, members: set<NodeId>, evs: seq<Event>)
    requires |members| <= 2 && VotesDecide(r, members)
    ensures SafeWhenSmall(members, Run(r, members, evs))
  {
    if |members| == 2 {
      TwoNodes.TwoNodesSafe(r, members, evs);
    } else {
      LoneIsSafe(r, members, evs);
    }
  }

  /** A lone node commits nothing, and nobody is sent anything. */
  lemma LoneIsIdle(r: Repairs, members: set<NodeId>, evs: seq<Event>)
    requires |members| <= 1
    ensures var s := Run(r, members, evs);
            && s.nodes.Keys == members && s.network == {} && |s.nodes| <= 1
            && (forall v | v in s.nodes :: s.nodes[v].commit == 0 && TracksPeers(s.nodes[v]) && s.nodes[v].peers == {})
            && forall a | a in s.replies :: !a.result.Success?
  {
    RunStationed(r, members, evs);
    if v :| v in members {
      assert |members - {v}| == 0;
      assert members == {v};
      Persistence.LoneNodeNeverCommits(r, v, evs);
      assert TracksPeers(Run(r, members, evs).nodes[v]);
    } else {
      NobodyActs(r, members, evs);
    }
  }

  lemma {:induction false} NobodyActs(r: Repairs, members: set<NodeId>, evs: seq<Event>)
    requires members == {}
    ensures Run(r, members, evs) == Init(members)
  {
    if evs != [] { NobodyActs(r, members, evs[..|evs| - 1]); }
  }

  lemma LoneIsSafe(r: Repairs, members: set<NodeId>, evs: seq<Event>)
    requires |members| <= 1
    ensures SafeWhenSmall(members, Run(r, members, evs))
  {
    var s := Run(r, members, evs);
    LoneIsIdle(r, members, evs);
    forall v | v in s.nodes ensures OnMajority(members, s, s.nodes[v]) {
      assert Quorum(members, members) && Holds(s, members, s.nodes[v].log[..0]);
    }
  }

  /** Nothing committed is undone and stores are the replay of it, in all
      clusters whose commits hold. */
  lemma {:induction false} StaysAlways(r: Repairs, members: set<NodeId>, evs: seq<Event>)
    requires CommitsHold(r, members)
    ensures StoresTrue(Run(r, members, evs)) && CommitsStay(r, Run(r, members, evs))
  {
    if |members| >= 3 {
      AppliedState.RunStores(r, members, evs);
    } else if |members| == 2 {
      TwoNodes.TwoNodesStay(r, members, evs);
    } else {
      if evs != [] { StaysAlways(r, members, evs[..|evs| - 1]); }
      RunFollows(r, members, evs);
      LoneIsIdle(r, members, evs);
      CommitsStayIf(r, Run(r, members, evs));
    }
  }

  // ----- elections and logs -----

  lemma OneLeader(r: Repairs, members: set<NodeId>, evs: seq<Event>)
    requires VotesDecide(r, members)
    ensures OneLeaderPerTerm(Run(r, members, evs)) && LogsMatch(Run(r, members, evs))
  {
    var s := Run(r, members, evs);
    RunStationed(r, members, evs);
    assert evs[..|evs|] == evs;
    forall u, v | u in s.nodes && v in s.nodes && u != v ensures |members| >= 2 && CountsVotes(r, members) {
      SubsetSize({u, v}, members);
    }
    forall t: nat, u, v | u in s.nodes && v in s.nodes && LeaderOf(s.nodes[u], t) && LeaderOf(s.nodes[v], t)
      ensures u == v
    {
      if u != v { Theorems.ElectionSafety(r, members, evs, |evs|, |evs|, u, v); }
    }
    forall u, v, i: nat | u in s.nodes && v in s.nodes && SameTermAt(s.nodes[u].log, s.nodes[v].log, i)
      ensures s.nodes[u].log[..i] == s.nodes[v].log[..i]
    {
      if u != v { Theorems.LogMatchingProperty(r, members, evs, u, v, i); }
    }
  }

  lemma RivalsWithout(r: Repairs, members: set<NodeId>, all: iset<State>)
    returns (s: State, a: NodeId, b: NodeId, t: nat)
    requires Scene(r, members, all, Init(members)) && !VotesDecide(r, members)
    ensures Scene(r, members, all, s) && RivalLeaders.Rivals(members, s, a, b, t) && TwoLeaders(s, t)
  {
    if !r.voteTerm {
      s, a, b := RivalLeaders.StaleVotesElectTwo(r, members, all);
      t := 3;
    } else {
      s, a, b := RivalLeaders.DoubleCountElectsTwo(r, members, all);
      t := 1;
    }
  }

  /** Election Safety, exactly. */
  lemma ElectionSafetyExactly(r: Repairs, members: set<NodeId>)
    ensures (forall s | Reachable(r, members, s) :: OneLeaderPerTerm(s)) <==> VotesDecide(r, members)
  {
    var all := iset s | Reachable(r, members, s);
    ReachableClosed(r, members);
    if VotesDecide(r, members) {
      forall s | Reachable(r, members, s) ensures OneLeaderPerTerm(s) {
        var evs :| Run(r, members, evs) == s;
        OneLeader(r, members, evs);
      }
    } else {
      var s, a, b, t := RivalsWithout(r, members, all);
    }
  }

  /** Log Matching, exactly: it stands and falls with Election Safety. */
  lemma LogMatchingExactly(r: Repairs, members: set<NodeId>)
    ensures (forall s | Reachable(r, members, s) :: LogsMatch(s)) <==> VotesDecide(r, members)
  {
    var all := iset s | Reachable(r, members, s);
    ReachableClosed(r, members);
    if VotesDecide(r, members) {
      forall s | Reachable(r, members, s) ensures LogsMatch(s) {
        var evs :| Run(r, members, evs) == s;
        OneLeader(r, members, evs);
      }
    } else {
      var s, a, b, t := RivalsWithout(r, members, all);
      var s' := RivalLeaders.LogsPart(r, members, all, s, t);
    }
  }

  // ----- convergence -----

  /** A leader and another node that is not ahead of it, somewhere in a run, and
      reliable rounds beyond the bound. */
  ghost predicate Meeting(r: Repairs, members: set<NodeId>, evs: seq<Event>, ps: seq<Convergence.Pair>) {
    && Convergence.Rounds(r, ps) && Theorems.Meet(r, members, evs, ps[0])
    && ps[0].leader.id != ps[0].follower.id && |ps| > Convergence.Bound(ps[0])
  }

  lemma MeetingConverges(r: Repairs, members: set<NodeId>, evs: seq<Event>, ps: seq<Convergence.Pair>)
    requires VotesDecide(r, members) && Meeting(r, members, evs, ps)
    ensures Convergence.Agreed(ps[0], ps[|ps| - 1])
  {
    RunStationed(r, members, evs);
    SubsetSize({ps[0].leader.id, ps[0].follower.id}, members);
    Theorems.ConvergesFromAnywhere(r, members, evs, ps);
  }

  /** Two logs that never meet, however long the rounds go on. */
  lemma StuckWithout(r: Repairs, members: set<NodeId>) returns (evs: seq<Event>, ps: seq<Convergence.Pair>)
    requires !VotesDecide(r, members)
    ensures Meeting(r, members, evs, ps) && !Convergence.Agreed(ps[0], ps[|ps| - 1])
  {
    var all := iset s | Reachable(r, members, s);
    ReachableClosed(r, members);
    var s, a, b, t := RivalsWithout(r, members, all);
    s := RivalLeaders.Cross(r, members, all, s, a, b, t);
    s := RivalLeaders.Stranded(r, members, all, s, a, b, t);
    evs :| Run(r, members, evs) == s;
    var p := Convergence.Pair(s.nodes[a], s.nodes[b]);
    ps := Convergence.StuckForever(r, p, Convergence.Bound(p));
  }

  /** Convergence, exactly: reliable rounds bring followers to their leader's
      log, from anywhere in any run, iff votes decide. */
  lemma ConvergenceExactly(r: Repairs, members: set<NodeId>)
    ensures (forall evs, ps | Meeting(r, members, evs, ps) :: Convergence.Agreed(ps[0], ps[|ps| - 1]))
       <==> VotesDecide(r, members)
  {
    if VotesDecide(r, members) {
      forall evs, ps | Meeting(r, members, evs, ps) ensures Convergence.Agreed(ps[0], ps[|ps| - 1]) {
        MeetingConverges(r, members, evs, ps);
      }
    } else {
      var evs, ps := StuckWithout(r, members);
    }
  }

  // ----- matches -----

  lemma MatchesAlwaysHonest(r: Repairs, members: set<NodeId>, evs: seq<Event>)
    requires ReportsTruly(r, members)
    ensures MatchesHonest(Run(r, members, evs))
  {
    var s := Run(r, members, evs);
    RunStationed(r, members, evs);
    forall l, p | Recorded(s, l, p)
      ensures var m := s.nodes[l].matched[p];
              m <= |s.nodes[l].log| && m <= |s.nodes[p].log| && s.nodes[p].log[..m] == s.nodes[l].log[..m]
    {
      Theorems.MatchIndexTruth(r, members, evs, l, p);
    }
  }

  lemma MisrecordedWithout(r: Repairs, members: set<NodeId>, all: iset<State>) returns (s: State)
    requires Scene(r, members, all, Init(members)) && !MatchesHold(r, members)
    ensures s in all && !MatchesHonest(s)
  {
    if !VotesDecide(r, members) {
      var s1, a, b, t := RivalsWithout(r, members, all);
      s1 := RivalLeaders.Cross(r, members, all, s1, a, b, t);
      s := RivalLeaders.Misrecord(r, members, all, s1, a, b, t);
    } else if !r.coverReport {
      var s1, c, fs, log := OverReport.Deceives(r, members, all);
      s := LoneCommit.RecordsFalsely(r, members, all, s1, c, fs, 4, log);
    } else {
      var s1, c, fs, log := OldReplies.Deceives(r, members, all);
      s := LoneCommit.RecordsFalsely(r, members, all, s1, c, fs, 5, log);
    }
  }

  /** Match-index truth, exactly. */
  lemma MatchIndexTruthExactly(r: Repairs, members: set<NodeId>)
    ensures (forall s | Reachable(r, members, s) :: MatchesHonest(s)) <==> MatchesHold(r, members)
  {
    var all := iset s | Reachable(r, members, s);
    ReachableClosed(r, members);
    if MatchesHold(r, members) {
      forall s | Reachable(r, members, s) ensures MatchesHonest(s) {
        var evs :| Run(r, members, evs) == s;
        if |members| <= 2 { SmallIsSafe(r, members, evs); } else { MatchesAlwaysHonest(r, members, evs); }
      }
    } else {
      var s := MisrecordedWithout(r, members, all);
    }
  }

  // ----- what is committed -----

  lemma CommitsAlwaysAgree(r: Repairs, members: set<NodeId>, evs: seq<Event>)
    requires Sound(r, members)
    ensures CommitsAgree(Run(r, members, evs))
  {
    var s := Run(r, members, evs);
    RunStationed(r, members, evs);
    assert evs[..|evs|] == evs;
    forall u, v, i: nat ensures !Clash(s, u, v, i) {
      if u in s.nodes && v in s.nodes && BothCommitted(s.nodes[u], s.nodes[v], i) {
        Theorems.StateMachineSafety(r, members, evs, |evs|, |evs|, u, v);
        var nu, nv := s.nodes[u], s.nodes[v];
        var c := Min(nu.commit, nv.commit);
        assert nu.log[i - 1] == nu.log[..c][i - 1] == nv.log[..c][i - 1];
      }
    }
  }

  lemma CommitsAlwaysOnMajority(r: Repairs, members: set<NodeId>, evs: seq<Event>)
    requires Sound(r, members)
    ensures CommitsOnMajority(members, Run(r, members, evs))
  {
    var s := Run(r, members, evs);
    RunStationed(r, members, evs);
    assert evs[..|evs|] == evs;
    forall v | v in s.nodes ensures OnMajority(members, s, s.nodes[v]) {
      var q := Theorems.CommittedOnMajority(r, members, evs, |evs|, v);
      assert Holds(s, q, s.nodes[v].log[..s.nodes[v].commit]);
    }
  }

  lemma LeadersAlwaysComplete(r: Repairs, members: set<NodeId>, evs: seq<Event>)
    requires Sound(r, members)
    ensures LeadersComplete(Run(r, members, evs))
  {
    var s := Run(r, members, evs);
    RunStationed(r, members, evs);
    assert evs[..|evs|] == evs;
    forall u, l | Concerns(s, u, l)
      ensures s.nodes[u].commit <= |s.nodes[u].log| && s.nodes[u].log[..s.nodes[u].commit] <= s.nodes[l].log
    {
      Theorems.LeadersHoldCommitted(r, members, evs, |evs|, |evs|, u, l);
    }
  }

  /** Two nodes commit different entries at index i, their data differ, a leader
      lacks what is committed, and a client was told of an entry that is not there. */
  ghost predicate Broken(s: State, i: nat, a: Reply, v: NodeId) {
    CommitsClash(s, i) && !DataAgrees(s) && !LeadersComplete(s) && Belied(s, a, v)
  }

  lemma BrokenWithout(r: Repairs, members: set<NodeId>, all: iset<State>)
    returns (s: State, i: nat, a: Reply, v: NodeId)
    requires Scene(r, members, all, Init(members)) && !CommitsHold(r, members)
    ensures s in all && Broken(s, i, a, v)
  {
    if !VotesDecide(r, members) {
      var s1, x, y, t := RivalsWithout(r, members, all);
      s1 := RivalLeaders.Cross(r, members, all, s1, x, y, t);
      s := RivalLeaders.Clashed(r, members, all, s1, x, y, t);
      i, a, v := 1, RivalLeaders.TOLD, x;
    } else {
      var e;
      if !MatchesHold(r, members) {
        s, i, a, v, e := DivergedWithout(r, members, all);
      } else {
        s, v, e := StaleTail.Clashes(r, members, all);
        i, a := 65, StaleTail.ANSWER;
      }
    }
  }

  lemma DivergedWithout(r: Repairs, members: set<NodeId>, all: iset<State>)
    returns (s: State, i: nat, a: Reply, v: NodeId, e: Envelope)
    requires Scene(r, members, all, Init(members)) && VotesDecide(r, members) && !MatchesHold(r, members)
    ensures Scene(r, members, all, s) && Undoes(s, e) && Broken(s, i, a, v) && !AnswersOnMajority(members, s)
  {
    if !r.coverReport {
      s, v, e := OverReport.Clashes(r, members, all);
      i := 66;
    } else {
      s, v, e := OldReplies.Clashes(r, members, all);
      i := 2;
    }
    a := Reply(LoneCommit.MISLED, Success(i));
  }

  /** State Machine Safety, exactly. */
  lemma StateMachineSafetyExactly(r: Repairs, members: set<NodeId>)
    ensures (forall s | Reachable(r, members, s) :: CommitsAgree(s)) <==> CommitsHold(r, members)
  {
    var all := iset s | Reachable(r, members, s);
    ReachableClosed(r, members);
    if CommitsHold(r, members) {
      forall s | Reachable(r, members, s) ensures CommitsAgree(s) {
        var evs :| Run(r, members, evs) == s;
        if |members| <= 2 { SmallIsSafe(r, members, evs); } else { CommitsAlwaysAgree(r, members, evs); }
      }
    } else {
      var s, i, a, v := BrokenWithout(r, members, all);
    }
  }

  /** Two majorities share a node, and one log does not hold two entries at one index. */
  lemma ClashNotOnMajority(members: set<NodeId>, s: State, i: nat)
    requires CommitsClash(s, i)
    ensures !CommitsOnMajority(members, s)
  {
    if CommitsOnMajority(members, s) {
      var u, v :| Clash(s, u, v, i);
      assert OnMajority(members, s, s.nodes[u]) && OnMajority(members, s, s.nodes[v]);
      var a, b := s.nodes[u].log[..s.nodes[u].commit], s.nodes[v].log[..s.nodes[v].commit];
      var p :| Quorum(members, p) && Holds(s, p, a);
      var q :| Quorum(members, q) && Holds(s, q, b);
      var w := QuorumsMeet(members, p, q);
      assert false;
    }
  }

  /** Committed only after majority replication, exactly. */
  lemma CommitsOnMajorityExactly(r: Repairs, members: set<NodeId>)
    ensures (forall s | Reachable(r, members, s) :: CommitsOnMajority(members, s)) <==> CommitsHold(r, members)
  {
    var all := iset s | Reachable(r, members, s);
    ReachableClosed(r, members);
    if CommitsHold(r, members) {
      forall s | Reachable(r, members, s) ensures CommitsOnMajority(members, s) {
        var evs :| Run(r, members, evs) == s;
        if |members| <= 2 { SmallIsSafe(r, members, evs); } else { CommitsAlwaysOnMajority(r, members, evs); }
      }
    } else {
      var s, i, a, v := BrokenWithout(r, members, all);
      ClashNotOnMajority(members, s, i);
    }
  }

  /** Leader Completeness, exactly. */
  lemma LeaderCompletenessExactly(r: Repairs, members: set<NodeId>)
    ensures (forall s | Reachable(r, members, s) :: LeadersComplete(s)) <==> CommitsHold(r, members)
  {
    var all := iset s | Reachable(r, members, s);
    ReachableClosed(r, members);
    if CommitsHold(r, members) {
      forall s | Reachable(r, members, s) ensures LeadersComplete(s) {
        var evs :| Run(r, members, evs) == s;
        if |members| <= 2 { SmallIsSafe(r, members, evs); } else { LeadersAlwaysComplete(r, members, evs); }
      }
    } else {
      var s, i, a, v := BrokenWithout(r, members, all);
    }
  }

  // ----- what is undone, and the stores -----

  /** A node is about to lose what it has committed. */
  lemma UndoneWithout(r: Repairs, members: set<NodeId>, all: iset<State>) returns (s: State, e: Envelope)
    requires Scene(r, members, all, Init(members)) && !CommitsHold(r, members)
    ensures Scene(r, members, all, s) && Undoes(s, e)
  {
    if !VotesDecide(r, members) {
      var s1, a, b, t := RivalsWithout(r, members, all);
      s := RivalLeaders.Threatened(r, members, all, s1, a, b, t);
      e := Envelope(a, b, RivalLeaders.Offer(a, RivalLeaders.MINE, t));
    } else if !MatchesHold(r, members) {
      var i, a, v;
      s, i, a, v, e := DivergedWithout(r, members, all);
    } else {
      var v;
      s, v, e := StaleTail.Clashes(r, members, all);
    }
  }

  /** What is committed is never undone, exactly: from every reachable state,
      whatever happens next. */
  lemma CommitNeverUndoneExactly(r: Repairs, members: set<NodeId>)
    ensures (forall s | Reachable(r, members, s) :: CommitsStay(r, s)) <==> CommitsHold(r, members)
  {
    var all := iset s | Reachable(r, members, s);
    ReachableClosed(r, members);
    if CommitsHold(r, members) {
      forall s | Reachable(r, members, s) ensures CommitsStay(r, s) {
        var evs :| Run(r, members, evs) == s;
        StaysAlways(r, members, evs);
      }
    } else {
      var s, e := UndoneWithout(r, members, all);
      var s' := Undone(r, members, all, s, e);
    }
  }

  /** Stores are the replay of what was applied, exactly. */
  lemma StoresTrueExactly(r: Repairs, members: set<NodeId>)
    ensures (forall s | Reachable(r, members, s) :: StoresTrue(s)) <==> CommitsHold(r, members)
  {
    var all := iset s | Reachable(r, members, s);
    ReachableClosed(r, members);
    if CommitsHold(r, members) {
      forall s | Reachable(r, members, s) ensures StoresTrue(s) {
        var evs :| Run(r, members, evs) == s;
        StaysAlways(r, members, evs);
      }
    } else {
      var s, e := UndoneWithout(r, members, all);
      var s' := Undone(r, members, all, s, e);
    }
  }

  /** u as it was after i steps of the run and v as it was after j. */
  ghost predicate EquallyApplied(r: Repairs, members: set<NodeId>, evs: seq<Event>, i: nat, j: nat, u: NodeId,
                                 v: NodeId)
  {
    && i <= |evs| && j <= |evs| && u in Run(r, members, evs[..i]).nodes && v in Run(r, members, evs[..j]).nodes
    && Run(r, members, evs[..i]).nodes[u].applied == Run(r, members, evs[..j]).nodes[v].applied
  }

  ghost predicate SameData(r: Repairs, members: set<NodeId>, evs: seq<Event>, i: nat, j: nat, u: NodeId, v: NodeId)
    requires EquallyApplied(r, members, evs, i, j, u, v)
  {
    Run(r, members, evs[..i]).nodes[u].store.data == Run(r, members, evs[..j]).nodes[v].store.data
  }

  lemma DataAlwaysAgrees(r: Repairs, members: set<NodeId>, evs: seq<Event>, i: nat, j: nat, u: NodeId, v: NodeId)
    requires CommitsHold(r, members) && EquallyApplied(r, members, evs, i, j, u, v)
    ensures SameData(r, members, evs, i, j, u, v)
  {
    RunStationed(r, members, evs[..i]);
    RunStationed(r, members, evs[..j]);
    if |members| >= 3 {
      Theorems.EqualAppliedEqualData(r, members, evs, i, j, u, v);
    } else if |members| == 2 {
      TwoNodes.TwoNodesData(r, members, evs, i, j, u, v);
    } else {
      LoneData(r, members, evs[..i], u);
      LoneData(r, members, evs[..j], v);
    }
  }

  lemma LoneData(r: Repairs, members: set<NodeId>, evs: seq<Event>, v: NodeId)
    requires |members| <= 1 && CommitsHold(r, members) && v in Run(r, members, evs).nodes
    ensures Run(r, members, evs).nodes[v].store == EMPTY_STORE
  {
    StaysAlways(r, members, evs);
    LoneIsIdle(r, members, evs);
    assert StoreTrue(Run(r, members, evs).nodes[v]);
  }

  /** Equally far applied means the same data, exactly: for any two nodes at any
      two times of any run. */
  lemma EqualDataExactly(r: Repairs, members: set<NodeId>)
    ensures (forall evs, i: nat, j: nat, u, v | EquallyApplied(r, members, evs, i, j, u, v) ::
               SameData(r, members, evs, i, j, u, v)) <==> CommitsHold(r, members)
  {
    if CommitsHold(r, members) {
      forall evs, i: nat, j: nat, u, v | EquallyApplied(r, members, evs, i, j, u, v)
        ensures SameData(r, members, evs, i, j, u, v)
      {
        DataAlwaysAgrees(r, members, evs, i, j, u, v);
      }
    } else {
      var evs, u, v := DataDiffersWithout(r, members);
    }
  }

  lemma DataDiffersWithout(r: Repairs, members: set<NodeId>) returns (evs: seq<Event>, u: NodeId, v: NodeId)
    requires !CommitsHold(r, members)
    ensures EquallyApplied(r, members, evs, |evs|, |evs|, u, v) && !SameData(r, members, evs, |evs|, |evs|, u, v)
  {
    ReachableClosed(r, members);
    var s, i, a, w := BrokenWithout(r, members, iset s | Reachable(r, members, s));
    evs :| Run(r, members, evs) == s;
    u, v :| DataDiffers(s, u, v);
    assert evs[..|evs|] == evs;
  }

  // ----- what clients are told -----

  lemma NeverBelied(r: Repairs, members: set<NodeId>, evs: seq<Event>, a: Reply, v: NodeId)
    requires AnswersTruly(r, members) && r.commitClamp
    ensures !Belied(Run(r, members, evs), a, v)
  {
    var s := Run(r, members, evs);
    RunStationed(r, members, evs);
    if a in s.replies && a.result.Success? && v in s.nodes {
      Theorems.AcknowledgedIsDurableNow(r, members, evs, a, v);
    }
  }

  lemma AnswersAlwaysHonest(r: Repairs, members: set<NodeId>, evs: seq<Event>)
    requires AnswersTruly(r, members) && r.commitClamp
    ensures AnswersHonest(Run(r, members, evs))
  {
    forall a, v ensures !Belied(Run(r, members, evs), a, v) { NeverBelied(r, members, evs, a, v); }
  }

  lemma AnswersAlwaysOnMajority(r: Repairs, members: set<NodeId>, evs: seq<Event>)
    requires AnswersTruly(r, members) && members != {}
    ensures AnswersOnMajority(members, Run(r, members, evs))
  {
    var s := Run(r, members, evs);
    forall a | a in s.replies ensures AnswerOnMajority(members, s, a) {
      if a.result.Success? {
        var q := Theorems.AcknowledgedOnMajority(r, members, evs, a);
        assert AllHold(s, a, q);
      }
    }
  }

  lemma BeliedWithout(r: Repairs, members: set<NodeId>, all: iset<State>) returns (s: State)
    requires Scene(r, members, all, Init(members)) && !Enough(r, members)
    ensures s in all && !AnswersHonest(s)
  {
    if !CommitsHold(r, members) {
      var i, a, v;
      s, i, a, v := BrokenWithout(r, members, all);
    } else {
      var a;
      s, a := StolenReply.Stolen(r, members, all);
    }
  }

  /** Client acknowledgements, exactly: no node has committed another command
      where a client was told its own is. */
  lemma AcknowledgementsExactly(r: Repairs, members: set<NodeId>)
    ensures (forall s | Reachable(r, members, s) :: AnswersHonest(s)) <==> Enough(r, members)
  {
    var all := iset s | Reachable(r, members, s);
    ReachableClosed(r, members);
    if Enough(r, members) {
      forall s | Reachable(r, members, s) ensures AnswersHonest(s) {
        var evs :| Run(r, members, evs) == s;
        if |members| <= 2 { SmallIsSafe(r, members, evs); } else { AnswersAlwaysHonest(r, members, evs); }
      }
    } else {
      var s := BeliedWithout(r, members, all);
    }
  }

  lemma NotOnMajorityWithout(r: Repairs, members: set<NodeId>, all: iset<State>) returns (s: State)
    requires Scene(r, members, all, Init(members)) && !AnswersHold(r, members)
    ensures s in all && !AnswersOnMajority(members, s)
  {
    if !VotesDecide(r, members) {
      var s1, x, y, t := RivalsWithout(r, members, all);
      s1 := RivalLeaders.Cross(r, members, all, s1, x, y, t);
      s := RivalLeaders.Clashed(r, members, all, s1, x, y, t);
    } else if !MatchesHold(r, members) {
      var i, a, v, e;
      s, i, a, v, e := DivergedWithout(r, members, all);
    } else {
      var a;
      s, a := StolenReply.Stolen(r, members, all);
    }
  }

  /** Durable acknowledgement, exactly: the command a client was told of is in a
      majority of logs. How far followers commit does not matter to it. */
  lemma AcknowledgedOnMajorityExactly(r: Repairs, members: set<NodeId>)
    ensures (forall s | Reachable(r, members, s) :: AnswersOnMajority(members, s)) <==> AnswersHold(r, members)
  {
    var all := iset s | Reachable(r, members, s);
    ReachableClosed(r, members);
    if AnswersHold(r, members) {
      forall s | Reachable(r, members, s) ensures AnswersOnMajority(members, s) {
        var evs :| Run(r, members, evs) == s;
        if |members| <= 2 { SmallIsSafe(r, members, evs); } else { AnswersAlwaysOnMajority(r, members, evs); }
      }
    } else {
      var s := NotOnMajorityWithout(r, members, all);
    }
  }

  /** One leadership's answers, exactly: whoever proposed to a node while it led
      finds its own command where it was told, as long as the node leads. */
  lemma OwnAnswersExactly(r: Repairs, members: set<NodeId>)
    ensures (forall evs, v, i: nat, j: nat, a | OwnAnswers.Concerned(r, members, evs, v, i, j, a) ::
               OwnAnswers.AnswerKept(r, members, evs, v, a)) <==> VotesDecide(r, members)
  {
    if VotesDecide(r, members) {
      forall evs, v, i: nat, j: nat, a | OwnAnswers.Concerned(r, members, evs, v, i, j, a)
        ensures OwnAnswers.AnswerKept(r, members, evs, v, a)
      {
        OwnAnswersKept(r, members, evs, v, i, j, a);
      }
    } else {
      ReachableClosed(r, members);
      var s, a, b, t := RivalsWithout(r, members, iset s | Reachable(r, members, s));
      var evs, i, j := OwnAnswers.Robbed(r, members, s, a, b, t);
    }
  }

  lemma OwnAnswersKept(r: Repairs, members: set<NodeId>, evs: seq<Event>, v: NodeId, i: nat, j: nat, a: Reply)
    requires VotesDecide(r, members) && OwnAnswers.Concerned(r, members, evs, v, i, j, a)
    ensures OwnAnswers.AnswerKept(r, members, evs, v, a)
  {
    if |members| >= 2 {
      OwnAnswers.AnswersKept(r, members, evs, v, i, j, a);
    } else {
      assert evs[..j + 1][..j] == evs[..j];
      LoneIsIdle(r, members, evs[..j + 1]);
      assert false;
    }
  }

  // ----- all together -----

  ghost predicate Safe(r: Repairs, members: set<NodeId>, s: State) {
    && OneLeaderPerTerm(s) && LogsMatch(s)
    && MatchesHonest(s) && CommitsOnMajority(members, s) && LeadersComplete(s) && CommitsAgree(s)
    && CommitsStay(r, s) && StoresTrue(s) && DataAgrees(s)
    && AnswersHonest(s) && AnswersOnMajority(members, s)
  }

  lemma DataAgreesNow(r: Repairs, members: set<NodeId>, evs: seq<Event>)
    requires CommitsHold(r, members)
    ensures DataAgrees(Run(r, members, evs))
  {
    var s := Run(r, members, evs);
    assert evs[..|evs|] == evs;
    forall u, v ensures !DataDiffers(s, u, v) {
      if EquallyApplied(r, members, evs, |evs|, |evs|, u, v) {
        DataAlwaysAgrees(r, members, evs, |evs|, |evs|, u, v);
      }
    }
  }

  lemma EnoughIsSafe(r: Repairs, members: set<NodeId>, s: State)
    requires Enough(r, members) && Reachable(r, members, s)
    ensures Safe(r, members, s)
  {
    var evs :| Run(r, members, evs) == s;
    OneLeader(r, members, evs);
    StaysAlways(r, members, evs);
    DataAgreesNow(r, members, evs);
    if |members| <= 2 {
      SmallIsSafe(r, members, evs);
    } else {
      MatchesAlwaysHonest(r, members, evs);
      CommitsAlwaysAgree(r, members, evs);
      CommitsAlwaysOnMajority(r, members, evs);
      LeadersAlwaysComplete(r, members, evs);
      AnswersAlwaysHonest(r, members, evs);
      AnswersAlwaysOnMajority(r, members, evs);
    }
  }

  /** For every cluster of every size: which repairs are needed and enough for
      all the guarantees at once. */
  lemma SafeExactly(r: Repairs, members: set<NodeId>)
    ensures (forall s | Reachable(r, members, s) :: Safe(r, members, s)) <==> Enough(r, members)
  {
    if Enough(r, members) {
      forall s | Reachable(r, members, s) ensures Safe(r, members, s) { EnoughIsSafe(r, members, s); }
    } else {
      AcknowledgementsExactly(r, members);
    }
  }

  /** All repairs but one: under which term a follower replies makes no difference. */
  predicate AllNeeded(r: Repairs) {
    r.voteTerm && r.selfVote && r.coverReport && r.sameTerm && r.commitClamp && r.pendingReset
  }

  /** Every reachable state of every cluster is safe if and only if those six
      repairs are made. */
  lemma EveryClusterNeedsSixRepairs(r: Repairs)
    ensures (forall members, s | Reachable(r, members, s) :: Safe(r, members, s)) <==> AllNeeded(r)
  {
    if AllNeeded(r) {
      forall members, s | Reachable(r, members, s) ensures Safe(r, members, s) { EnoughIsSafe(r, members, s); }
    } else {
      assert "a"[0] != "b"[0] && "a"[0] != "c"[0] && "a"[0] != "d"[0];
      assert "b"[0] != "c"[0] && "b"[0] != "d"[0] && "c"[0] != "d"[0];
      assert |{"a", "b", "c", "d"}| == 4;
      SafeExactly(r, {"a", "b", "c", "d"});
    }
  }
}
