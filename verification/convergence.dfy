/** Replication converges: a leader whose log stays put and a follower that
    trade heartbeats and replies reliably come to agree on the leader's whole
    log within a bounded number of rounds, with or without the repairs. */
module Convergence {
  import opened RaftTypes
  import opened LogSpec
  import opened NodeSpec

  // ----- agreement of two logs -----

  ghost predicate SharedUpTo(a: Log, b: Log, n: nat) {
    && n <= |a| && n <= |b| && a[..n] == b[..n]
    && (n < |a| && n < |b| ==> a[n] != b[n])
  }

  lemma {:induction false} SomeShared(a: Log, b: Log, k: nat)
    requires k <= |a| && k <= |b| && a[..k] == b[..k]
    ensures exists n: nat :: SharedUpTo(a, b, n)
    decreases |a| - k
  {
    if k < |a| && k < |b| && a[k] == b[k] {
      assert a[..k + 1] == a[..k] + [a[k]] && b[..k + 1] == b[..k] + [b[k]];
      SomeShared(a, b, k + 1);
    } else {
      assert SharedUpTo(a, b, k);
    }
  }

  /** How many entries two logs share from the start. */
  ghost function Shared(a: Log, b: Log): (n: nat)
    ensures SharedUpTo(a, b, n)
  {
    SomeShared(a, b, 0);
    var n: nat :| SharedUpTo(a, b, n);
    n
  }

  lemma SharedAtLeast(a: Log, b: Log, k: nat)
    requires k <= |a| && k <= |b| && a[..k] == b[..k]
    ensures Shared(a, b) >= k
  {
  }

  ghost predicate MatchAt(a: Log, b: Log, i: nat) {
    i < |a| && i < |b| && a[i].term == b[i].term ==> a[..i + 1] == b[..i + 1]
  }

  /** Log Matching between two logs: equal terms mean equal prefixes. */
  ghost predicate Match(a: Log, b: Log) {
    forall i: nat :: MatchAt(a, b, i)
  }

  ghost predicate HasTerms(log: Log) {
    forall i | 0 <= i < |log| :: log[i].term >= 1
  }

  /** Where the logs match, a consistency check passes exactly inside the
      shared part. */
  lemma CheckPasses(a: Log, b: Log, k: nat)
    requires Match(a, b) && 1 <= k <= |b|
    ensures HasEntry(a, k, b[k - 1].term) <==> k <= Shared(a, b)
  {
    if k <= Shared(a, b) {
      assert a[k - 1] == a[..Shared(a, b)][k - 1] == b[..Shared(a, b)][k - 1];
    } else if HasEntry(a, k, b[k - 1].term) {
      assert MatchAt(a, b, k - 1);
      SharedAtLeast(a, b, k);
    }
  }

  // ----- one round -----

  datatype Pair = Pair(leader: NodeState, follower: NodeState)

  ghost predicate Paired(p: Pair) {
    && p.leader.role == Leader
    && p.follower.term <= p.leader.term
    && HasTerms(p.leader.log) && HasTerms(p.follower.log)
    && Match(p.follower.log, p.leader.log)
  }

  /** A heartbeat, its handling, and the reply's. */
  ghost function Round(r: Repairs, p: Pair): Pair {
    Answered(r, p.leader, OnAppendEntries(r, p.follower, p.leader.id, AppendMessage(p.leader, p.follower.id)))
  }

  /** The leader takes in what the follower sent back. */
  ghost function Answered(r: Repairs, leader: NodeState, out: Outcome): Pair
    requires out.sent != {}
  {
    var reply :| reply in out.sent;
    Pair(if reply.message.AppendEntriesResponse?
         then OnAppendResponse(r, leader, out.node.id, reply.message).node else leader,
         out.node)
  }

  ghost predicate Stepped(r: Repairs, ps: seq<Pair>, i: nat)
    requires i + 1 < |ps|
  {
    ps[i + 1] == Round(r, ps[i])
  }

  /** One round after another. */
  ghost predicate Rounds(r: Repairs, ps: seq<Pair>) {
    ps != [] && forall i: nat {:trigger Stepped(r, ps, i)} | i + 1 < |ps| :: Stepped(r, ps, i)
  }

  ghost function Next(p: Pair): nat { NextFor(p.leader, p.follower.id) }

  ghost function Common(p: Pair): nat { Shared(p.follower.log, p.leader.log) }

  /** How many entries a heartbeat at this point carries. */
  ghost function Batch(p: Pair): nat {
    |EntriesFrom(p.leader.log, Next(p))|
  }

  lemma RejectedRound(r: Repairs, p: Pair)
    requires Paired(p) && Next(p) > Common(p) + 1
    ensures var p' := Round(r, p);
            && p'.leader == p.leader.(next := p.leader.next[p.follower.id := Next(p) - 1])
            && p'.follower.log == p.follower.log && p'.follower.term == p.leader.term
            && Next(p') == Next(p) - 1
  {
    var m := AppendMessage(p.leader, p.follower.id);
    var prev := Next(p) - 1;
    if prev <= |p.leader.log| {
      CheckPasses(p.follower.log, p.leader.log, prev);
    }
    assert !Accepts(p.follower, m);
  }

  /** The follower merged a batch and reports it. */
  ghost predicate Taken(r: Repairs, p: Pair, out: Outcome) {
    var prev, n := Next(p) - 1, Batch(p);
    && prev <= |p.follower.log| && prev + n <= |p.leader.log| && n == Min(MAX_BATCH, |p.leader.log| - prev)
    && out.node.id == p.follower.id && out.node.term == p.leader.term
    && out.node.log == Merge(p.follower.log, prev, p.leader.log[prev..prev + n])
    && out.sent == AppendReply(out.node, p.leader.id, if r.replyTerm then p.leader.term else p.follower.term, true,
                               if r.coverReport then prev + n else |out.node.log|)
  }

  lemma FollowerAccepts(r: Repairs, p: Pair)
    requires Paired(p) && Next(p) <= Common(p) + 1
    ensures Taken(r, p, OnAppendEntries(r, p.follower, p.leader.id, AppendMessage(p.leader, p.follower.id)))
  {
    FollowerAgrees(p);
    AcceptedOutcome(r, p.follower, p.leader.id, AppendMessage(p.leader, p.follower.id));
  }

  lemma FollowerAgrees(p: Pair)
    requires Paired(p) && Next(p) <= Common(p) + 1
    ensures var m := AppendMessage(p.leader, p.follower.id);
            && Accepts(p.follower, m) && m.term == p.leader.term
            && m.prevLogIndex == Next(p) - 1 && m.prevLogIndex + Batch(p) <= |p.leader.log|
            && m.entries == p.leader.log[m.prevLogIndex..m.prevLogIndex + Batch(p)]
            && Batch(p) == Min(MAX_BATCH, |p.leader.log| - m.prevLogIndex)
  {
  }

  lemma AnsweredWith(r: Repairs, leader: NodeState, out: Outcome, term: nat, last: nat)
    requires out.sent == AppendReply(out.node, leader.id, term, true, last)
    requires leader.role == Leader && term <= leader.term
    ensures var p := Answered(r, leader, out);
            && p.leader.log == leader.log && p.leader.role == Leader && p.leader.term == leader.term
            && p.leader.id == leader.id && p.follower == out.node
            && Next(p) == if r.sameTerm && term < leader.term then NextFor(leader, out.node.id) else last + 1
  {
  }

  /** The follower answers under its old term, and the leader will not hear of it. */
  ghost predicate Unheard(r: Repairs, p: Pair) {
    r.sameTerm && !r.replyTerm && p.follower.term < p.leader.term
  }

  /** The follower merged one batch, and the leader took note if it could. */
  ghost predicate RoundTaken(r: Repairs, p: Pair, p': Pair) {
    var whole, prev, n := p.leader.log, Next(p) - 1, Batch(p);
    && p'.leader.log == whole && p'.leader.role == Leader && p'.leader.term == p.leader.term
    && p'.follower.id == p.follower.id && p'.follower.term == p.leader.term
    && prev <= |p.follower.log| && prev + n <= |whole| && n == Min(MAX_BATCH, |whole| - prev)
    && p'.follower.log == Merge(p.follower.log, prev, whole[prev..prev + n])
    && Next(p') == if Unheard(r, p) then Next(p) else 1 + if r.coverReport then prev + n else |p'.follower.log|
  }

  lemma TakenAccepted(r: Repairs, p: Pair, out: Outcome)
    requires p.leader.role == Leader && p.follower.term <= p.leader.term && Taken(r, p, out)
    ensures out.sent != {} && RoundTaken(r, p, Answered(r, p.leader, out))
  {
    AnsweredWith(r, p.leader, out, if r.replyTerm then p.leader.term else p.follower.term,
                 if r.coverReport then Next(p) - 1 + Batch(p) else |out.node.log|);
  }

  lemma AcceptedRound(r: Repairs, p: Pair)
    requires Paired(p) && Next(p) <= Common(p) + 1
    ensures RoundTaken(r, p, Round(r, p))
  {
    FollowerAccepts(r, p);
    TakenAccepted(r, p, OnAppendEntries(r, p.follower, p.leader.id, AppendMessage(p.leader, p.follower.id)));
  }

  lemma MergedPair(mine: Log, whole: Log, prev: nat, n: nat, merged: Log)
    requires Match(mine, whole) && HasTerms(mine) && HasTerms(whole)
    requires prev <= Shared(mine, whole) && prev <= |mine| && prev + n <= |whole|
    requires merged == Merge(mine, prev, whole[prev..prev + n])
    ensures && Match(merged, whole) && HasTerms(merged)
            && Shared(merged, whole) >= prev + n && Shared(merged, whole) >= Shared(mine, whole)
            && |merged| <= Max(|mine|, |whole|)
  {
    var k := Shared(mine, whole);
    assert mine[..prev] == mine[..k][..prev] == whole[..k][..prev] == whole[..prev];
    if n > 0 { assert MatchAt(mine, whole, prev + n - 1); }
    MergeShape(mine, whole, prev, n);
    MergeKeeps(mine, whole, prev, n, k);
    SharedAtLeast(merged, whole, prev + n);
    SharedAtLeast(merged, whole, k);
    if merged == whole[..prev + n] {
      forall i: nat ensures MatchAt(merged, whole, i) {
        if i < |merged| { assert merged[..i + 1] == whole[..i + 1]; }
      }
    }
  }

  /** The two are in the same term, as they are after any round. */
  ghost predicate Even(p: Pair) { Paired(p) && p.follower.term == p.leader.term }

  /** A round keeps the pair a pair, loses no agreement, and lets neither the
      follower's log nor the next index outgrow what they started from. */
  ghost predicate Keeps(p: Pair, p': Pair) {
    && Even(p') && p'.leader.log == p.leader.log && p'.leader.term == p.leader.term
    && p'.follower.id == p.follower.id
    && Common(p) <= Common(p')
    && |p'.follower.log| <= Max(|p.follower.log|, |p.leader.log|)
    && Next(p') <= Max(Next(p), Max(|p.follower.log|, |p.leader.log|) + 1)
  }

  lemma AcceptedKeeps(r: Repairs, p: Pair, p': Pair)
    requires Paired(p) && Next(p) <= Common(p) + 1 && RoundTaken(r, p, p')
    ensures Keeps(p, p') && Next(p) - 1 + Batch(p) <= Common(p')
  {
    MergedPair(p.follower.log, p.leader.log, Next(p) - 1, Batch(p), p'.follower.log);
  }

  lemma AcceptKeeps(r: Repairs, p: Pair)
    requires Paired(p) && Next(p) <= Common(p) + 1
    ensures Keeps(p, Round(r, p)) && Next(p) - 1 + Batch(p) <= Common(Round(r, p))
  {
    AcceptedRound(r, p);
    AcceptedKeeps(r, p, Round(r, p));
  }

  lemma RoundKeeps(r: Repairs, p: Pair)
    requires Paired(p)
    ensures Keeps(p, Round(r, p))
  {
    if Next(p) > Common(p) + 1 { RejectedRound(r, p); } else { AcceptKeeps(r, p); }
  }

  // ----- the bound -----

  /** No index in play exceeds this. */
  ghost function Ceiling(p: Pair): nat {
    Max(Next(p), Max(|p.follower.log|, |p.leader.log|) + 1)
  }

  /** What is left to agree on. */
  ghost function Gap(p: Pair): nat { |p.leader.log| - Common(p) }

  /** Rounds left within the current agreement: first the next index catches
      up with the shared part from below, then it descends to it from above. */
  ghost function Descent(p: Pair, ceiling: nat): nat {
    if Next(p) <= Common(p) then ceiling + 1 + Common(p) + 1 - Next(p) else Next(p)
  }

  lemma DescentBound(p: Pair, ceiling: nat)
    requires Ceiling(p) <= ceiling
    ensures Descent(p, ceiling) <= 2 * ceiling + 2
  {
  }

  /** A round that leaves the logs short of agreement makes progress. */
  lemma RoundProgress(r: Repairs, p: Pair, ceiling: nat)
    requires Even(p) && Ceiling(p) <= ceiling && Gap(p) > 0
    ensures var p' := Round(r, p);
            && Keeps(p, p') && Ceiling(p') <= ceiling
            && (Gap(p') < Gap(p) || (Gap(p') == Gap(p) && Descent(p', ceiling) < Descent(p, ceiling)))
  {
    if Next(p) > Common(p) + 1 {
      RejectedRound(r, p);
    } else {
      AcceptedRound(r, p);
      AcceptKeeps(r, p);
    }
  }

  /** gap * k + d, by repeated addition. */
  ghost function Weight(gap: nat, k: nat, d: nat): (w: nat)
    ensures w >= d
  {
    if gap == 0 then d else k + Weight(gap - 1, k, d)
  }

  lemma {:induction false} WeightDrops(gap: nat, gap': nat, k: nat, d: nat, d': nat)
    requires d' < k && (gap' < gap || (gap' == gap && d' < d))
    ensures Weight(gap', k, d') < Weight(gap, k, d)
  {
    if gap' > 0 {
      WeightDrops(gap - 1, gap' - 1, k, d, d');
    }
  }

  lemma {:induction false} WeightIs(gap: nat, k: nat, d: nat)
    ensures Weight(gap, k, d) == gap * k + d
  {
    if gap > 0 {
      WeightIs(gap - 1, k, d);
      assert gap * k == (gap - 1) * k + k;
    }
  }

  lemma RoundsOn(r: Repairs, ps: seq<Pair>)
    requires Rounds(r, ps) && |ps| > 1
    ensures Rounds(r, ps[1..])
  {
    forall i: nat | i + 1 < |ps| - 1 ensures Stepped(r, ps[1..], i) {
      assert Stepped(r, ps, i + 1);
    }
  }

  lemma FirstKeeps(r: Repairs, ps: seq<Pair>)
    requires Rounds(r, ps) && |ps| > 1 && Paired(ps[0])
    ensures Keeps(ps[0], ps[1])
  {
    assert Stepped(r, ps, 0);
    RoundKeeps(r, ps[0]);
  }

  lemma {:induction false} StayAgreed(r: Repairs, ps: seq<Pair>)
    requires Rounds(r, ps) && Paired(ps[0]) && Gap(ps[0]) == 0
    ensures Gap(ps[|ps| - 1]) == 0 && ps[|ps| - 1].leader.log == ps[0].leader.log
    decreases |ps|
  {
    if |ps| > 1 {
      FirstKeeps(r, ps);
      RoundsOn(r, ps);
      StayAgreed(r, ps[1..]);
    }
  }

  lemma FirstLightens(r: Repairs, ps: seq<Pair>, ceiling: nat, k: nat)
    requires Rounds(r, ps) && |ps| > 1 && Even(ps[0])
    requires Ceiling(ps[0]) <= ceiling && k == 2 * ceiling + 3 && Gap(ps[0]) > 0
    ensures Even(ps[1]) && Ceiling(ps[1]) <= ceiling && ps[1].leader.log == ps[0].leader.log
    ensures Weight(Gap(ps[1]), k, Descent(ps[1], ceiling)) < Weight(Gap(ps[0]), k, Descent(ps[0], ceiling))
  {
    assert Stepped(r, ps, 0);
    RoundProgress(r, ps[0], ceiling);
    DescentBound(ps[1], ceiling);
    WeightDrops(Gap(ps[0]), Gap(ps[1]), k, Descent(ps[0], ceiling), Descent(ps[1], ceiling));
  }

  lemma {:induction false} ConvergesWithin(r: Repairs, ps: seq<Pair>, ceiling: nat, k: nat)
    requires Rounds(r, ps) && Even(ps[0])
    requires Ceiling(ps[0]) <= ceiling && k == 2 * ceiling + 3
    requires |ps| > Weight(Gap(ps[0]), k, Descent(ps[0], ceiling))
    ensures Gap(ps[|ps| - 1]) == 0 && ps[|ps| - 1].leader.log == ps[0].leader.log
    decreases |ps|
  {
    if Gap(ps[0]) == 0 {
      StayAgreed(r, ps);
    } else {
      FirstLightens(r, ps, ceiling, k);
      RoundsOn(r, ps);
      ConvergesWithin(r, ps[1..], ceiling, k);
    }
  }

  /** A number of rounds after which p has surely come to agree. */
  ghost function Bound(p: Pair): nat {
    (|p.leader.log| + 1) * (2 * Ceiling(p) + 3) + 1
  }

  ghost predicate Agreed(p: Pair, q: Pair) {
    q.leader.log == p.leader.log && p.leader.log <= q.follower.log
  }

  /** After boundedly many reliable rounds, and ever after, the follower holds
      the leader's whole log, from any next index, stale tail or batch size. */
  lemma ReplicationConverges(r: Repairs, ps: seq<Pair>)
    requires Rounds(r, ps) && Paired(ps[0]) && |ps| > Bound(ps[0])
    ensures Agreed(ps[0], ps[|ps| - 1])
  {
    var p, q := ps[0], ps[|ps| - 1];
    var k := 2 * Ceiling(p) + 3;
    FirstKeeps(r, ps);
    RoundsOn(r, ps);
    DescentBound(ps[1], Ceiling(p));
    WeightIs(Gap(ps[1]), k, Descent(ps[1], Ceiling(p)));
    BoundSuffices(Gap(ps[1]), |p.leader.log|, k, Descent(ps[1], Ceiling(p)));
    ConvergesWithin(r, ps[1..], Ceiling(p), k);
    assert q.leader.log == q.leader.log[..Common(q)];
  }

  lemma BoundSuffices(gap: nat, len: nat, k: nat, d: nat)
    requires gap <= len && d < k
    ensures gap * k + d < (len + 1) * k
  {
  }

  // ----- logs that never meet -----

  /** One entry each, of one term and not the same, and the leader believes
      that the follower has its own. */
  ghost predicate Stuck(p: Pair) {
    && p.leader.role == Leader && p.follower.term == p.leader.term
    && |p.leader.log| == 1 && |p.follower.log| == 1 && p.leader.log[0] != p.follower.log[0]
    && p.leader.log[0].term == p.leader.term == p.follower.log[0].term
    && Next(p) == 2
  }

  lemma StuckStays(r: Repairs, p: Pair)
    requires Stuck(p)
    ensures Stuck(Round(r, p)) && Round(r, p).leader.log == p.leader.log
  {
    var m := AppendMessage(p.leader, p.follower.id);
    assert m.prevLogIndex == 1 && m.prevLogTerm == p.leader.term && m.entries == [];
    AcceptedOutcome(r, p.follower, p.leader.id, m);
    assert Merge(p.follower.log, 1, []) == p.follower.log;
    AnsweredWith(r, p.leader, OnAppendEntries(r, p.follower, p.leader.id, m), p.leader.term, 1);
  }

  /** However many rounds follow, the two do not come to agree. */
  lemma {:induction false} StuckForever(r: Repairs, p: Pair, k: nat) returns (ps: seq<Pair>)
    requires Stuck(p)
    ensures Rounds(r, ps) && |ps| == k + 1 && ps[0] == p && !Agreed(p, ps[k])
    decreases k
  {
    if k == 0 {
      ps := [p];
    } else {
      StuckStays(r, p);
      var rest := StuckForever(r, Round(r, p), k - 1);
      ps := [p] + rest;
      forall i: nat | i + 1 < |ps| ensures Stepped(r, ps, i) {
        if i > 0 { assert Stepped(r, rest, i - 1); }
      }
    }
  }
}
