/** The guarantees of the cluster as predicates on one state. */
module Guarantees {
  import opened RaftTypes
  import opened LogSpec
  import opened NodeSpec
  import opened Cluster
  import opened History
  import opened LogMatching

  /** Two nodes lead the same term. */
  ghost predicate TwoLeaders(s: State, t: nat) {
    exists u, v :: u in s.nodes && v in s.nodes && u != v && LeaderOf(s.nodes[u], t) && LeaderOf(s.nodes[v], t)
  }

  ghost predicate LeaderOf(n: NodeState, t: nat) { n.role == Leader && n.term == t }

  /** Election Safety. */
  ghost predicate OneLeaderPerTerm(s: State) {
    forall t: nat :: !TwoLeaders(s, t)
  }

  ghost predicate SameTermAt(a: Log, b: Log, i: nat) {
    TermAt(a, i).Some? && TermAt(a, i) == TermAt(b, i)
  }

  /** Log Matching. */
  ghost predicate LogsMatch(s: State) {
    forall u, v, i: nat | u in s.nodes && v in s.nodes && SameTermAt(s.nodes[u].log, s.nodes[v].log, i) ::
      s.nodes[u].log[..i] == s.nodes[v].log[..i]
  }

  ghost predicate Recorded(s: State, l: NodeId, p: NodeId) {
    && l in s.nodes && p in s.nodes
    && s.nodes[l].role == Leader && s.nodes[p].term == s.nodes[l].term && p in s.nodes[l].matched
  }

  /** Match-index truth: a peer in the leader's term holds what is recorded for it. */
  ghost predicate MatchesHonest(s: State) {
    forall l, p | Recorded(s, l, p) ::
      var m := s.nodes[l].matched[p];
      m <= |s.nodes[l].log| && m <= |s.nodes[p].log| && s.nodes[p].log[..m] == s.nodes[l].log[..m]
  }

  ghost predicate Holds(s: State, q: set<NodeId>, log: Log) {
    forall w | w in q :: w in s.nodes && log <= s.nodes[w].log
  }

  ghost predicate OnMajority(members: set<NodeId>, s: State, n: NodeState) {
    n.commit <= |n.log| && exists q :: Quorum(members, q) && Holds(s, q, n.log[..n.commit])
  }

  /** What a node regards as committed, a majority of logs hold. */
  ghost predicate CommitsOnMajority(members: set<NodeId>, s: State) {
    forall v {:trigger OnMajority(members, s, s.nodes[v])} | v in s.nodes :: OnMajority(members, s, s.nodes[v])
  }

  ghost predicate Concerns(s: State, u: NodeId, l: NodeId) {
    u in s.nodes && l in s.nodes && s.nodes[l].role == Leader && s.nodes[u].term <= s.nodes[l].term
  }

  /** Leader Completeness. */
  ghost predicate LeadersComplete(s: State) {
    forall u, l | Concerns(s, u, l) ::
      s.nodes[u].commit <= |s.nodes[u].log| && s.nodes[u].log[..s.nodes[u].commit] <= s.nodes[l].log
  }

  ghost predicate BothCommitted(a: NodeState, b: NodeState, i: nat) {
    1 <= i <= Min(a.commit, b.commit) && i <= Min(|a.log|, |b.log|)
  }

  ghost predicate Clash(s: State, u: NodeId, v: NodeId, i: nat) {
    && u in s.nodes && v in s.nodes && BothCommitted(s.nodes[u], s.nodes[v], i)
    && s.nodes[u].log[i - 1] != s.nodes[v].log[i - 1]
  }

  /** Two nodes have committed different entries at one index. */
  ghost predicate CommitsClash(s: State, i: nat) {
    exists u, v :: Clash(s, u, v, i)
  }

  /** State Machine Safety. */
  ghost predicate CommitsAgree(s: State) {
    forall i: nat :: !CommitsClash(s, i)
  }

  ghost predicate Belied(s: State, a: Reply, v: NodeId) {
    && a in s.replies && a.result.Success? && v in s.nodes
    && 1 <= a.result.index <= Min(s.nodes[v].commit, |s.nodes[v].log|)
    && s.nodes[v].log[a.result.index - 1].command != a.client.wants
  }

  ghost predicate DataDiffers(s: State, u: NodeId, v: NodeId) {
    && u in s.nodes && v in s.nodes
    && s.nodes[u].applied == s.nodes[v].applied && s.nodes[u].store.data != s.nodes[v].store.data
  }

  /** Nodes that have applied equally far hold the same data. */
  ghost predicate DataAgrees(s: State) {
    forall u, v :: !DataDiffers(s, u, v)
  }

  /** A node's log has the client's command at the index it was told. */
  ghost predicate AnswerHeld(s: State, a: Reply, v: NodeId)
    requires a.result.Success?
  {
    && v in s.nodes && 1 <= a.result.index <= |s.nodes[v].log|
    && s.nodes[v].log[a.result.index - 1].command == a.client.wants
  }

  ghost predicate AllHold(s: State, a: Reply, q: set<NodeId>)
    requires a.result.Success?
  {
    forall v | v in q :: AnswerHeld(s, a, v)
  }

  ghost predicate AnswerOnMajority(members: set<NodeId>, s: State, a: Reply) {
    a.result.Success? ==> exists q :: Quorum(members, q) && AllHold(s, a, q)
  }

  /** The command a client was told of is where it was told in a majority of logs. */
  ghost predicate AnswersOnMajority(members: set<NodeId>, s: State) {
    forall a {:trigger AnswerOnMajority(members, s, a)} | a in s.replies :: AnswerOnMajority(members, s, a)
  }

  /** One log is no majority. */
  lemma HeldByOne(members: set<NodeId>, s: State, a: Reply, b: NodeId)
    requires |members| >= 2 && a in s.replies && a.result.Success?
    requires forall v | v in members && AnswerHeld(s, a, v) :: v == b
    ensures !AnswersOnMajority(members, s)
  {
    if AnswersOnMajority(members, s) {
      assert AnswerOnMajority(members, s, a);
      var q :| Quorum(members, q) && AllHold(s, a, q);
      forall v | v in q ensures v == b { assert AnswerHeld(s, a, v); }
      SubsetSize(q, {b});
      assert false;
    }
  }

  /** No node has committed another command where a client was told its own is. */
  ghost predicate AnswersHonest(s: State) {
    forall a, v :: !Belied(s, a, v)
  }
}
