/** The two counts of the protocol: the votes that make a leader and the match
    indices that commit an entry. */
module Quorums {
  import opened RaftTypes
  import opened NodeSpec
  import opened History
  import opened LogMatching

  // ----- votes -----

  /** A set of voters the code accepts: the candidate, at least one peer, and
      enough that counting the candidate twice reaches a majority. */
  ghost predicate WinsAsWritten(members: set<NodeId>, candidate: NodeId, voters: set<NodeId>) {
    && voters <= members && candidate in voters && |voters| >= 2
    && |voters| + 1 >= |members| / 2 + 1
  }

  /** The list the code keeps passes its test exactly when the voters on it do. */
  lemma WinsMeans(members: set<NodeId>, n: NodeState)
    requires n.id in members && n.peers == members - {n.id}
    requires Distinct(n.votes) && n.id in n.votes && (forall u | u in n.votes :: u in members) && |n.votes| >= 2
    ensures Wins(AS_WRITTEN, n) <==> WinsAsWritten(members, n.id, (set u | u in n.votes))
    ensures Wins(REPAIRED, n) <==> Quorum(members, (set u | u in n.votes))
  {
    DistinctSize(n.votes);
    PeersSize(members, n);
  }

  lemma {:induction false} TakeSome<T>(s: set<T>, k: nat) returns (part: set<T>)
    requires k <= |s|
    ensures part <= s && |part| == k
  {
    if k == 0 {
      part := {};
    } else {
      var x :| x in s;
      var rest := TakeSome(s - {x}, k - 1);
      part := rest + {x};
    }
  }

  ghost predicate AnyTwoMeet(members: set<NodeId>) {
    forall c, d, a, b | WinsAsWritten(members, c, a) && WinsAsWritten(members, d, b) :: a * b != {}
  }

  /** Counting the candidate twice is harmless up to three nodes and lets two
      disjoint sets of voters win from four nodes on. */
  lemma DoubleCountThreshold(members: set<NodeId>)
    requires |members| >= 2
    ensures AnyTwoMeet(members) <==> |members| <= 3
  {
    if |members| <= 3 {
      forall c, d, a, b | WinsAsWritten(members, c, a) && WinsAsWritten(members, d, b) ensures a * b != {} {
        UnionSize(a, b);
        SubsetSize(a + b, members);
      }
    } else {
      var half := |members| / 2;
      var a := TakeSome(members, half);
      assert |members - a| == |members| - half by { assert members == a + (members - a); }
      var b := TakeSome(members - a, half);
      var c :| c in a;
      var d :| d in b;
      assert WinsAsWritten(members, c, a) && WinsAsWritten(members, d, b) && a * b == {};
    }
  }

  // ----- match indices -----

  /** Commit scan: the greatest committable index above the current commit
      index, or none when there is none. */
  lemma {:induction false} ScanIsGreatest(n: NodeState, i: nat)
    ensures match ScanDown(n, i)
            case Some(k) => n.commit < k <= i && Committable(n, k) && forall j | k < j <= i :: !Committable(n, j)
            case None => forall j: nat | n.commit < j <= i :: !Committable(n, j)
  {
    if i > n.commit && !Committable(n, i) { ScanIsGreatest(n, i - 1); }
  }

  /** values lists what m maps its keys to, greatest first. */
  ghost predicate Ranking(m: map<NodeId, nat>, keys: seq<NodeId>, values: seq<nat>) {
    && |keys| == |values|
    && Distinct(keys)
    && (forall k :: k in m <==> k in keys)
    && (forall i | 0 <= i < |keys| :: m[keys[i]] == values[i])
    && (forall i, j | 0 <= i < j < |values| :: values[i] >= values[j])
  }

  /** At least c peers match up to i exactly when the c-th greatest match does. */
  lemma HoldersByRank(m: map<NodeId, nat>, keys: seq<NodeId>, values: seq<nat>, i: nat, c: nat)
    requires Ranking(m, keys, values) && c >= 1
    ensures |Holders(m, i)| >= c <==> c <= |values| && values[c - 1] >= i
  {
    var holders := Holders(m, i);
    if c <= |values| && values[c - 1] >= i {
      var top := keys[..c];
      DistinctSize(top);
      assert (set k | k in top) <= holders;
      SubsetSize((set k | k in top), holders);
    } else {
      var top := keys[..Min(c - 1, |keys|)];
      DistinctSize(top);
      forall p | p in holders ensures p in top {
        var j :| 0 <= j < |keys| && keys[j] == p;
        assert values[j] >= i;
        assert j < c - 1;
        assert top[j] == p;
      }
      SubsetSize(holders, (set k | k in top));
    }
  }

  function Inserted<T>(s: seq<T>, i: nat, x: T): (s': seq<T>)
    requires i <= |s|
    ensures |s'| == |s| + 1
    ensures forall j | 0 <= j < |s'| :: s'[j] == if j < i then s[j] else if j == i then x else s[j - 1]
  {
    s[..i] + [x] + s[i..]
  }

  lemma InsertedHas<T>(s: seq<T>, i: nat, x: T)
    requires i <= |s|
    ensures forall y :: y in Inserted(s, i, x) <==> y in s || y == x
  {
    var s' := Inserted(s, i, x);
    assert forall j | 0 <= j < |s| :: s[j] == s'[if j < i then j else j + 1];
    assert s'[i] == x;
  }

  /** A ranking takes in one more peer. */
  lemma RankOne(m: map<NodeId, nat>, keys: seq<NodeId>, values: seq<nat>, p: NodeId, x: nat)
    returns (keys': seq<NodeId>, values': seq<nat>)
    requires Ranking(m, keys, values) && p !in m
    ensures Ranking(m[p := x], keys', values')
  {
    var i := 0;
    while i < |values| && values[i] >= x
      invariant i <= |values| && forall j | 0 <= j < i :: values[j] >= x
    {
      i := i + 1;
    }
    keys', values' := Inserted(keys, i, p), Inserted(values, i, x);
    assert p !in keys;
    InsertedHas(keys, i, p);
  }

  /** Every match map has a ranking. */
  lemma {:induction false} HasRanking(m: map<NodeId, nat>) returns (keys: seq<NodeId>, values: seq<nat>)
    ensures Ranking(m, keys, values)
    decreases |m|
  {
    if m == map[] {
      keys, values := [], [];
    } else {
      var p :| p in m;
      var rest := m - {p};
      assert m == rest[p := m[p]];
      keys, values := HasRanking(rest);
      keys, values := RankOne(rest, keys, values, p, m[p]);
    }
  }

  /** i does not exceed the match that, the leader included, a majority reaches. */
  ghost predicate WithinMajority(n: NodeState, values: seq<nat>, i: nat) {
    Majority(n) < 2 || (Majority(n) - 2 < |values| && i <= values[Majority(n) - 2])
  }

  ghost predicate ScanAdvances(n: NodeState, values: seq<nat>, i: nat) {
    n.commit < i <= |n.log| && n.log[i - 1].term == n.term && WithinMajority(n, values, i)
  }

  /** The scan as an order statistic: with the matches ranked, the new commit
      index is the greatest above the old one that lies within the log, is of
      the current term and does not exceed the majority-th greatest match. */
  lemma CommitIsOrderStatistic(n: NodeState) returns (keys: seq<NodeId>, values: seq<nat>)
    ensures Ranking(n.matched, keys, values)
    ensures match ScanDown(n, |n.log|)
            case Some(k) => ScanAdvances(n, values, k) && forall i: nat | ScanAdvances(n, values, i) :: i <= k
            case None => forall i: nat :: !ScanAdvances(n, values, i)
  {
    keys, values := HasRanking(n.matched);
    ScanIsGreatest(n, |n.log|);
    forall i: nat | n.commit < i <= |n.log| ensures Committable(n, i) <==> ScanAdvances(n, values, i) {
      if Majority(n) >= 2 { HoldersByRank(n.matched, keys, values, i, Majority(n) - 1); }
    }
  }
}
