/** What a follower may conclude from one accepted message, judged against
    every log its leader might hold. */
module FollowerLimits {
  import opened RaftTypes
  import opened LogSpec
  import opened NodeSpec

  /** A leader with log `whole` would send these entries after prev, having
      committed that far, to a follower whose log passes the check. */
  ghost predicate CouldBe(whole: Log, log: Log, m: Message)
    requires m.AppendEntries? && m.prevLogIndex <= |log|
  {
    && m.prevLogIndex <= |whole|
    && whole[..m.prevLogIndex] == log[..m.prevLogIndex]
    && EntriesFrom(whole, m.prevLogIndex + 1) == m.entries
    && m.leaderCommit <= |whole|
  }

  /** A batch has its limit, and one below the limit reaches the end of the log. */
  ghost predicate Sendable(m: Message)
    requires m.AppendEntries?
  {
    |m.entries| == MAX_BATCH || (|m.entries| < MAX_BATCH && m.leaderCommit <= m.prevLogIndex + |m.entries|)
  }

  /** None of the follower's old entries outlives the merge beyond what the message covered. */
  ghost predicate NoTail(log: Log, prev: nat, entries: seq<LogEntry>) {
    |log| <= prev + |entries| || Conflicts(log, prev, entries)
  }

  lemma MergeLength(log: Log, prev: nat, entries: seq<LogEntry>)
    requires prev <= |log|
    ensures var merged := Merge(log, prev, entries);
            && prev + |entries| <= |merged|
            && (|merged| == prev + |entries| <==> NoTail(log, prev, entries))
            && merged[..prev + |entries|] == log[..prev] + entries
  {
  }

  lemma SlicePrefix(whole: Log, log: Log, m: Message)
    requires m.AppendEntries? && m.prevLogIndex <= |log| && CouldBe(whole, log, m)
    ensures log[..m.prevLogIndex] + m.entries <= whole
  {
  }

  lemma BatchBetween(front: Log, entries: seq<LogEntry>, more: Log)
    requires |entries| == MAX_BATCH || (|entries| < MAX_BATCH && more == [])
    ensures EntriesFrom(front + entries + more, |front| + 1) == entries
  {
    var whole := front + entries + more;
    assert whole[|front|..|front| + |entries|] == entries;
  }

  /** k entries, none of them `tail`, from an index on. */
  function Other(k: nat, index: nat, tail: LogEntry): (log: Log)
    ensures |log| == k && forall i | 0 <= i < k :: log[i] != tail
  {
    if k == 0 then [] else [LogEntry(index, tail.term + 1, Noop)] + Other(k - 1, index + 1, tail)
  }

  /** A leader's log that goes its own way behind what the message covered. */
  lemma OtherLeader(log: Log, m: Message, tail: LogEntry) returns (whole: Log)
    requires m.AppendEntries? && m.prevLogIndex <= |log| && Sendable(m)
    ensures CouldBe(whole, log, m)
    ensures var covered := m.prevLogIndex + |m.entries|; |whole| <= covered || whole[covered] != tail
  {
    var front := log[..m.prevLogIndex];
    var more := if |m.entries| < MAX_BATCH then [] else Other(m.leaderCommit + 1, |front + m.entries| + 1, tail);
    whole := front + m.entries + more;
    BatchBetween(front, m.entries, more);
    assert whole[..m.prevLogIndex] == front;
  }

  /** The first n entries of the follower's new log are the leader's, whichever
      leader sent the message, exactly as far as the message covered. */
  lemma SureOf(log: Log, m: Message, n: nat)
    requires m.AppendEntries? && m.prevLogIndex <= |log| && Sendable(m)
    requires n <= |Merge(log, m.prevLogIndex, m.entries)|
    ensures (forall whole: Log | CouldBe(whole, log, m) :: Merge(log, m.prevLogIndex, m.entries)[..n] <= whole)
            <==> n <= m.prevLogIndex + |m.entries|
  {
    var merged, covered := Merge(log, m.prevLogIndex, m.entries), log[..m.prevLogIndex] + m.entries;
    MergeLength(log, m.prevLogIndex, m.entries);
    if n <= |covered| {
      forall whole: Log | CouldBe(whole, log, m) ensures merged[..n] <= whole {
        SlicePrefix(whole, log, m);
        assert merged[..n] == covered[..n];
      }
    } else {
      var whole := OtherLeader(log, m, merged[|covered|]);
      assert merged[..n][|covered|] == merged[|covered|];
    }
  }

  function Reported(m: Message): nat {
    if m.AppendEntriesResponse? then m.lastLogIndex else 0
  }

  /** A success reply as written is true of every leader that could have sent
      the message exactly when no old tail survived the merge. */
  lemma ReportAsWritten(n: NodeState, from: NodeId, m: Message)
    requires m.AppendEntries? && Accepts(n, m) && Sendable(m)
    ensures m.prevLogIndex <= |n.log|
    ensures var out := OnAppendEntries(AS_WRITTEN, n, from, m);
            out.sent != {} && forall e | e in out.sent ::
              && Reported(e.message) <= |out.node.log|
              && ((forall whole: Log | CouldBe(whole, n.log, m) :: out.node.log[..Reported(e.message)] <= whole)
                  <==> NoTail(n.log, m.prevLogIndex, m.entries))
  {
    SureOf(n.log, m, |Merge(n.log, m.prevLogIndex, m.entries)|);
    MergeLength(n.log, m.prevLogIndex, m.entries);
  }

  /** What a follower newly commits as written is in the log of every leader
      that could have sent the message exactly when no old tail survived or
      the leader's commit index lies within what the message covered, as it
      does for every batch below the limit. */
  lemma CommitAsWritten(n: NodeState, m: Message)
    requires m.AppendEntries? && Accepts(n, m) && Sendable(m) && m.leaderCommit > n.commit
    ensures m.prevLogIndex <= |n.log|
    ensures var n' := Absorb(AS_WRITTEN, n, m);
            && n'.commit <= |n'.log|
            && ((forall whole: Log | CouldBe(whole, n.log, m) :: n'.log[..n'.commit] <= whole)
                <==> NoTail(n.log, m.prevLogIndex, m.entries) || m.leaderCommit <= m.prevLogIndex + |m.entries|)
    ensures |m.entries| < MAX_BATCH ==> m.leaderCommit <= m.prevLogIndex + |m.entries|
  {
    var merged := Merge(n.log, m.prevLogIndex, m.entries);
    SureOf(n.log, m, Min(m.leaderCommit, |merged|));
    MergeLength(n.log, m.prevLogIndex, m.entries);
  }

  /** Every message some leader could have sent is of that form. */
  lemma SentIsSendable(whole: Log, log: Log, m: Message)
    requires m.AppendEntries? && m.prevLogIndex <= |log| && CouldBe(whole, log, m)
    ensures Sendable(m)
  {
  }
}
