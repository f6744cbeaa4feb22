/** Two leaders of one term: by counting a candidate's own vote twice, or by
    counting votes of earlier terms. And what two leaders do to logs, matches,
    commits and answers. */
module RivalLeaders {
  import opened RaftTypes
  import opened LogSpec
  import opened NodeSpec
  import opened Cluster
  import opened Quorums
  import opened Scenarios
  import opened Stores
  import opened Guarantees

  lemma TwoHalves(members: set<NodeId>) returns (a: NodeId, us: set<NodeId>, b: NodeId, vs: set<NodeId>)
    requires |members| >= 4
    ensures us != {} && vs != {} && us + {a} <= members && vs + {b} <= members && (us + {a}) !! (vs + {b})
    ensures a !in us && |us| == |members| / 2 - 1 && b !in vs && |vs| == |members| / 2 - 1
  {
    var half := |members| / 2;
    var one := TakeSome(members, half);
    assert |members - one| == |members| - half by { assert members == one + (members - one); }
    var two := TakeSome(members - one, half);
    a :| a in one;
    b :| b in two;
    us, vs := one - {a}, two - {b};
  }

  /** A leader without a log that has told and heard nothing yet. */
  ghost predicate NewLeader(members: set<NodeId>, s: State, a: NodeId, t: nat) {
    && a in members && a in s.nodes && Leads(s.nodes[a], t, [], 0)
    && Unmatched(s.nodes[a]) && NextAt(s.nodes[a], members - {a}, 1)
  }

  /** Nodes that may take in the first entry of a leader of term t. */
  ghost predicate Open(s: State, us: set<NodeId>, t: nat) {
    forall u {:trigger s.nodes[u]} | u in us ::
      && u in s.nodes && s.nodes[u].role == Follower && s.nodes[u].term <= t
      && |s.nodes[u].log| <= 1 && s.nodes[u].commit == 0
  }

  /** Two new leaders of one term, and nobody else is ahead of them. */
  ghost predicate Rivals(members: set<NodeId>, s: State, a: NodeId, b: NodeId, t: nat) {
    && a != b && NewLeader(members, s, a, t) && NewLeader(members, s, b, t) && Open(s, members - {a, b}, t)
  }

  lemma RivalsLead(members: set<NodeId>, s: State, a: NodeId, b: NodeId, t: nat)
    requires Rivals(members, s, a, b, t)
    ensures TwoLeaders(s, t)
  {
    assert LeaderOf(s.nodes[a], t) && LeaderOf(s.nodes[b], t);
  }

  /** With its own vote counted twice half the cluster is enough. */
  lemma HalfElects(r: Repairs, members: set<NodeId>, all: iset<State>, s: State, a: NodeId, us: set<NodeId>)
    returns (s': State)
    requires Scene(r, members, all, s) && a in members && us <= members - {a}
    requires Crowd(s, us + {a}, 0, []) && !r.selfVote && us != {} && |us| == |members| / 2 - 1
    ensures Moved(r, members, all, s, s', us + {a})
    ensures NewLeader(members, s', a, 1) && Open(s', us, 1)
  {
    s' := Elect(r, members, all, s, a, us);
  }

  lemma OtherHalf(r: Repairs, members: set<NodeId>, all: iset<State>, s: State, a: NodeId, us: set<NodeId>, b: NodeId,
                  vs: set<NodeId>)
    returns (s': State)
    requires Scene(r, members, all, s) && NewLeader(members, s, a, 1) && Open(s, us, 1)
    requires Crowd(s, members - (us + {a}), 0, []) && !r.selfVote
    requires b in members && (us + {a}) !! (vs + {b}) && vs <= members - {b} && vs != {} && |vs| == |members| / 2 - 1
    ensures Scene(r, members, all, s') && Rivals(members, s', a, b, 1)
  {
    s' := HalfElects(r, members, all, s, b, vs);
  }

  /** Two disjoint halves of a cluster each elect a leader of term 1. */
  lemma DoubleCountElectsTwo(r: Repairs, members: set<NodeId>, all: iset<State>)
    returns (s: State, a: NodeId, b: NodeId)
    requires Scene(r, members, all, Init(members))
    requires !r.selfVote && |members| >= 4
    ensures Scene(r, members, all, s) && Rivals(members, s, a, b, 1) && TwoLeaders(s, 1)
  {
    var us, vs;
    a, us, b, vs := TwoHalves(members);
    assert Crowd(Init(members), members, 0, []);
    var s1 := HalfElects(r, members, all, Init(members), a, us);
    CrowdStays(r, members, all, Init(members), s1, us + {a}, members - (us + {a}), 0, []);
    s := OtherHalf(r, members, all, s1, a, us, b, vs);
    RivalsLead(members, s, a, b, 1);
  }

  /** No log has an entry and all terms are t. */
  ghost predicate EmptyLogs(members: set<NodeId>, s: State, t: nat) {
    s.nodes.Keys == members && forall v {:trigger s.nodes[v]} | v in members ::
      s.nodes[v].log == [] && s.nodes[v].commit == 0 && s.nodes[v].term == t && s.nodes[v].role != Leader
  }

  ghost predicate GrantsIn(network: set<Envelope>, us: set<NodeId>, a: NodeId, t: nat) {
    forall u {:trigger Grant(u, a, t)} | u in us :: Grant(u, a, t) in network
  }

  ghost predicate Followers(s: State, us: set<NodeId>) {
    forall u {:trigger s.nodes[u]} | u in us :: u in s.nodes && s.nodes[u].role == Follower
  }

  /** A node asks for votes, all others grant them, and it hears of none. */
  lemma UnheardVotes(r: Repairs, members: set<NodeId>, all: iset<State>, s: State, a: NodeId, t: nat)
    returns (s': State)
    requires Scene(r, members, all, s) && EmptyLogs(members, s, t) && a in members && members != {a}
    ensures Scene(r, members, all, s') && EmptyLogs(members, s', t + 1) && s.network <= s'.network
    ensures GrantsIn(s'.network, members - {a}, a, t + 1) && Followers(s', members - {a})
  {
    var s1 := Campaign(r, members, all, s, a);
    s' := GrantAll(r, members, all, s1, s1.nodes[a], members - {a});
  }

  lemma BothCampaign(r: Repairs, members: set<NodeId>, all: iset<State>, s: State, a: NodeId, b: NodeId, t: nat)
    returns (s': State)
    requires Scene(r, members, all, s) && EmptyLogs(members, s, t) && a in members && b in members && a != b
    ensures Moved(r, members, all, s, s', {a, b})
    ensures s'.nodes[a] == Candidacy(s.nodes[a]) && s'.nodes[b] == Candidacy(s.nodes[b])
  {
    var s1 := Campaign(r, members, all, s, a);
    s' := Campaign(r, members, all, s1, b);
  }

  /** A candidate wins on votes of an earlier term. */
  lemma LateWin(r: Repairs, members: set<NodeId>, all: iset<State>, s: State, a: NodeId, term: nat, t: nat)
    returns (s': State)
    requires Scene(r, members, all, s) && !r.voteTerm && a in members && members != {a} && t <= term
    requires var n := s.nodes[a];
             n.role == Candidate && n.term == term && n.log == [] && n.commit == 0 && n.votes == [a]
    requires GrantsIn(s.network, members - {a}, a, t)
    ensures Moved(r, members, all, s, s', {a}) && NewLeader(members, s', a, term)
  {
    assert |members - {a}| == |members| - 1;
    assert members - {a} != {};
    s' := Collect(r, members, all, s, a, members - {a}, t);
  }

  /** Both candidates of term 3 win on votes from terms 1 and 2. */
  lemma BothWin(r: Repairs, members: set<NodeId>, all: iset<State>, s: State, a: NodeId, b: NodeId) returns (s': State)
    requires Scene(r, members, all, s) && EmptyLogs(members, s, 2)
    requires !r.voteTerm && a in members && b in members && a != b
    requires GrantsIn(s.network, members - {a}, a, 1) && GrantsIn(s.network, members - {b}, b, 2)
    requires Followers(s, members - {a, b})
    ensures Scene(r, members, all, s') && Rivals(members, s', a, b, 3)
  {
    var s1 := BothCampaign(r, members, all, s, a, b, 2);
    var s2 := LateWin(r, members, all, s1, a, 3, 1);
    s' := LateWin(r, members, all, s2, b, 3, 2);
  }

  lemma InitEmpty(members: set<NodeId>)
    ensures EmptyLogs(members, Init(members), 0)
  {
  }

  /** Votes granted in terms 1 and 2 make two leaders of term 3. */
  lemma StaleVotesElectTwo(r: Repairs, members: set<NodeId>, all: iset<State>)
    returns (s: State, a: NodeId, b: NodeId)
    requires Scene(r, members, all, Init(members))
    requires !r.voteTerm && |members| >= 2
    ensures Scene(r, members, all, s) && Rivals(members, s, a, b, 3) && TwoLeaders(s, 3)
  {
    a, b := TwoOf(members);
    InitEmpty(members);
    var s1 := UnheardVotes(r, members, all, Init(members), a, 0);
    var s2 := UnheardVotes(r, members, all, s1, b, 1);
    s := BothWin(r, members, all, s2, a, b);
    RivalsLead(members, s, a, b, 3);
  }

  // ----- two leaders, two logs -----

  const MINE := Client(1, PUT)
  const THEIRS := Client(2, DELETE)

  /** What the client of MINE is told. */
  const TOLD := Reply(MINE, Success(1))

  /** A leader's log can be brought to any greater length. */
  lemma Lengthened(r: Repairs, members: set<NodeId>, all: iset<State>, s: State, a: NodeId, len: nat)
    returns (s': State)
    requires Scene(r, members, all, s) && a in members && s.nodes[a].role == Leader && len >= |s.nodes[a].log|
    ensures Moved(r, members, all, s, s', {a})
    ensures LeaderOf(s'.nodes[a], s.nodes[a].term) && |s'.nodes[a].log| == len
  {
    s' := s;
    if len > |s.nodes[a].log| { s' := Fill(r, members, all, s, a, len - |s.nodes[a].log|); }
  }

  lemma SameLength(r: Repairs, members: set<NodeId>, all: iset<State>, s: State, a: NodeId, b: NodeId, t: nat)
    returns (s': State)
    requires Scene(r, members, all, s) && a in members && b in members && a != b
    requires LeaderOf(s.nodes[a], t) && LeaderOf(s.nodes[b], t)
    ensures Moved(r, members, all, s, s', {a, b})
    ensures LeaderOf(s'.nodes[a], t) && LeaderOf(s'.nodes[b], t) && |s'.nodes[a].log| == |s'.nodes[b].log|
  {
    var len := Max(|s.nodes[a].log|, |s.nodes[b].log|);
    var s1 := Lengthened(r, members, all, s, a, len);
    s' := Lengthened(r, members, all, s1, b, len);
  }

  /** Each takes another proposal at the same index in the same term. */
  lemma LogsPart(r: Repairs, members: set<NodeId>, all: iset<State>, s: State, t: nat) returns (s': State)
    requires Scene(r, members, all, s) && TwoLeaders(s, t)
    ensures s' in all && !LogsMatch(s')
  {
    var a, b :| a in s.nodes && b in s.nodes && a != b && LeaderOf(s.nodes[a], t) && LeaderOf(s.nodes[b], t);
    var s1 := SameLength(r, members, all, s, a, b, t);
    s' := BothAppend(r, members, all, s1, a, b, t);
  }

  lemma BothAppend(r: Repairs, members: set<NodeId>, all: iset<State>, s: State, a: NodeId, b: NodeId, t: nat)
    returns (s': State)
    requires Scene(r, members, all, s) && a in members && b in members && a != b
    requires LeaderOf(s.nodes[a], t) && LeaderOf(s.nodes[b], t) && |s.nodes[a].log| == |s.nodes[b].log|
    ensures s' in all && !LogsMatch(s')
  {
    var s1 := Append(r, members, all, s, a, MINE);
    s' := Append(r, members, all, s1, b, THEIRS);
    DifferentEntries(s', a, b, |s.nodes[a].log| + 1);
  }

  lemma DifferentEntries(s: State, a: NodeId, b: NodeId, i: nat)
    requires a in s.nodes && b in s.nodes && SameTermAt(s.nodes[a].log, s.nodes[b].log, i)
    requires s.nodes[a].log[i - 1] != s.nodes[b].log[i - 1]
    ensures !LogsMatch(s)
  {
    var x, y := s.nodes[a].log, s.nodes[b].log;
    assert x[..i][i - 1] == x[i - 1] && y[..i][i - 1] == y[i - 1];
  }

  // ----- two leaders, two commits -----

  function Entry(client: Client, t: nat): LogEntry { LogEntry(1, t, client.wants) }

  function Offer(a: NodeId, client: Client, t: nat): Message {
    AppendEntries(t, a, 0, 0, [Entry(client, t)], 0)
  }

  /** A leader of one entry, which is on its way to everyone. */
  ghost predicate Offers(members: set<NodeId>, s: State, a: NodeId, client: Client, t: nat) {
    && a in members && a in s.nodes && Leads(s.nodes[a], t, [Entry(client, t)], 0) && Unmatched(s.nodes[a])
    && s.nodes[a].pending.Keys >= {1} && s.nodes[a].pending[1] == client
    && SentAll(s, a, members - {a}, Offer(a, client, t))
  }

  lemma Offered(r: Repairs, members: set<NodeId>, all: iset<State>, s: State, a: NodeId, client: Client, t: nat)
    returns (s': State)
    requires Scene(r, members, all, s) && NewLeader(members, s, a, t)
    ensures Moved(r, members, all, s, s', {a}) && Offers(members, s', a, client, t)
    ensures s' == Step(r, s, Request(a, client))
  {
    s' := Append(r, members, all, s, a, client);
    assert s'.nodes[a].log == [Entry(client, t)];
    Broadcast(s'.nodes[a], s', members - {a}, 1);
    assert s'.nodes[a].log[0..] == [Entry(client, t)];
  }

  /** An entry of the same term is replaced without a conflict. */
  lemma Replaces(log: Log, e: LogEntry)
    requires |log| <= 1
    ensures Merge(log, 0, [e]) == [e]
  {
  }

  /** Whoever may take in the first entry of leader `from`: even a rival of its
      own term. */
  ghost predicate MayYield(n: NodeState, t: nat) {
    n.term <= t && |n.log| <= 1 && n.commit == 0 && (n.role == Follower || (n.role == Leader && n.term == t))
  }

  ghost predicate Yielded(n: NodeState, n': NodeState, client: Client, t: nat) {
    && n'.role == n.role && n'.term == t && n'.log == [Entry(client, t)] && n'.commit == 0
    && n'.matched == n.matched && n'.pending == n.pending
  }

  lemma YieldsOnce(r: Repairs, members: set<NodeId>, all: iset<State>, s: State, a: NodeId, from: NodeId,
                   client: Client, t: nat)
    returns (s': State)
    requires Scene(r, members, all, s) && a in members && a != from && MayYield(s.nodes[a], t)
    requires Envelope(from, a, Offer(from, client, t)) in s.network
    ensures Moved(r, members, all, s, s', {a}) && Yielded(s.nodes[a], s'.nodes[a], client, t)
    ensures s.nodes[a].term == t ==> Ack(a, from, t, 1) in s'.network
  {
    var m := Offer(from, client, t);
    Replaces(s.nodes[a].log, Entry(client, t));
    AcceptedOutcome(r, s.nodes[a], from, m);
    s' := Receive(r, members, all, s, Envelope(from, a, m));
  }

  /** A node that was behind in term takes the entry in twice, and answers in
      the leader's term the second time. */
  lemma Yields(r: Repairs, members: set<NodeId>, all: iset<State>, s: State, a: NodeId, from: NodeId, client: Client,
               t: nat)
    returns (s': State)
    requires Scene(r, members, all, s) && a in members && a != from && MayYield(s.nodes[a], t)
    requires Envelope(from, a, Offer(from, client, t)) in s.network
    ensures Moved(r, members, all, s, s', {a}) && Yielded(s.nodes[a], s'.nodes[a], client, t)
    ensures Ack(a, from, t, 1) in s'.network && HasAcked(r, s'.network, from, t, 1, a)
  {
    var s1 := s;
    if s.nodes[a].term < t { s1 := YieldsOnce(r, members, all, s, a, from, client, t); }
    s' := YieldsOnce(r, members, all, s1, a, from, client, t);
    assert AckIn(r, s'.network, from, t, 1, a, t, 1);
  }

  ghost predicate Logged(s: State, us: set<NodeId>, log: Log) {
    forall u {:trigger s.nodes[u]} | u in us :: u in s.nodes && s.nodes[u].log == log
  }

  lemma {:induction false} AllYield(r: Repairs, members: set<NodeId>, all: iset<State>, s: State, us: set<NodeId>,
                                    from: NodeId, client: Client, t: nat) returns (s': State)
    requires Scene(r, members, all, s) && us <= members - {from} && Open(s, us, t)
    requires SentAll(s, from, us, Offer(from, client, t))
    ensures Moved(r, members, all, s, s', us) && Open(s', us, t)
    ensures AllAcked(r, s'.network, from, t, 1, us) && Logged(s', us, [Entry(client, t)])
    decreases us
  {
    if us == {} {
      s' := s;
    } else {
      var u :| u in us;
      assert Envelope(from, u, Offer(from, client, t)) in s.network;
      var s1 := Yields(r, members, all, s, u, from, client, t);
      s' := AllYield(r, members, all, s1, us - {u}, from, client, t);
      AcksStay(r, s1.network, s'.network, from, t, 1, 1, {u});
    }
  }

  /** Two leaders of one term with each other's entry, and everyone has told
      both to have taken over theirs. */
  ghost predicate Crossed(r: Repairs, members: set<NodeId>, s: State, a: NodeId, b: NodeId, t: nat) {
    && a in members && b in members && a != b && a in s.nodes && b in s.nodes
    && Leads(s.nodes[a], t, [Entry(THEIRS, t)], 0) && Unmatched(s.nodes[a])
    && Leads(s.nodes[b], t, [Entry(MINE, t)], 0) && Unmatched(s.nodes[b])
    && 1 in s.nodes[a].pending && s.nodes[a].pending[1] == MINE
    && AllAcked(r, s.network, a, t, 1, members - {a}) && AllAcked(r, s.network, b, t, 1, members - {b})
    && Ack(b, a, t, 1) in s.network && Logged(s, members - {b}, [Entry(THEIRS, t)])
  }

  /** Everyone else takes in one leader's entry and then the other's. */
  lemma OthersYield(r: Repairs, members: set<NodeId>, all: iset<State>, s: State, a: NodeId, b: NodeId, t: nat)
    returns (s': State)
    requires Scene(r, members, all, s) && a in members && b in members && Open(s, members - {a, b}, t)
    requires SentAll(s, a, members - {a}, Offer(a, MINE, t)) && SentAll(s, b, members - {b}, Offer(b, THEIRS, t))
    ensures Moved(r, members, all, s, s', members - {a, b})
    ensures AllAcked(r, s'.network, a, t, 1, members - {a, b}) && AllAcked(r, s'.network, b, t, 1, members - {a, b})
    ensures Logged(s', members - {a, b}, [Entry(THEIRS, t)])
  {
    var us := members - {a, b};
    var s1 := AllYield(r, members, all, s, us, a, MINE, t);
    s' := AllYield(r, members, all, s1, us, b, THEIRS, t);
    AcksStay(r, s1.network, s'.network, a, t, 1, 1, us);
  }

  /** One leader takes in the other's entry, and so all have. */
  lemma LeaderYields(r: Repairs, members: set<NodeId>, all: iset<State>, s: State, a: NodeId, b: NodeId,
                     client: Client, t: nat)
    returns (s': State)
    requires Scene(r, members, all, s) && a in members && b in members && a != b
    requires LeaderOf(s.nodes[b], t) && |s.nodes[b].log| <= 1 && s.nodes[b].commit == 0
    requires Envelope(a, b, Offer(a, client, t)) in s.network && AllAcked(r, s.network, a, t, 1, members - {a, b})
    ensures Moved(r, members, all, s, s', {b}) && Yielded(s.nodes[b], s'.nodes[b], client, t)
    ensures AllAcked(r, s'.network, a, t, 1, members - {a}) && Ack(b, a, t, 1) in s'.network
  {
    s' := Yields(r, members, all, s, b, a, client, t);
    AcksStay(r, s.network, s'.network, a, t, 1, 1, members - {a, b});
    assert members - {a} == members - {a, b} + {b};
  }

  /** Then the two leaders take in each other's. */
  lemma LeadersYield(r: Repairs, members: set<NodeId>, all: iset<State>, s: State, a: NodeId, b: NodeId, t: nat)
    returns (s': State)
    requires Scene(r, members, all, s) && a != b
    requires Offers(members, s, a, MINE, t) && Offers(members, s, b, THEIRS, t)
    requires AllAcked(r, s.network, a, t, 1, members - {a, b}) && AllAcked(r, s.network, b, t, 1, members - {a, b})
    requires Logged(s, members - {a, b}, [Entry(THEIRS, t)])
    ensures Scene(r, members, all, s') && Crossed(r, members, s', a, b, t)
  {
    assert Envelope(a, b, Offer(a, MINE, t)) in s.network && Envelope(b, a, Offer(b, THEIRS, t)) in s.network;
    var s1 := LeaderYields(r, members, all, s, a, b, MINE, t);
    AcksStay(r, s.network, s1.network, b, t, 1, 1, members - {a, b});
    assert members - {b, a} == members - {a, b};
    s' := LeaderYields(r, members, all, s1, b, a, THEIRS, t);
    AcksStay(r, s1.network, s'.network, a, t, 1, 1, members - {a});
  }

  lemma BothOffer(r: Repairs, members: set<NodeId>, all: iset<State>, s: State, a: NodeId, b: NodeId, t: nat)
    returns (s': State)
    requires Scene(r, members, all, s) && Rivals(members, s, a, b, t)
    ensures Scene(r, members, all, s') && Open(s', members - {a, b}, t)
    ensures Offers(members, s', a, MINE, t) && Offers(members, s', b, THEIRS, t)
  {
    var s1 := Offered(r, members, all, s, a, MINE, t);
    s' := Offered(r, members, all, s1, b, THEIRS, t);
  }

  /** Once both have offered, everyone ends up with the other's entry. */
  lemma CrossOffers(r: Repairs, members: set<NodeId>, all: iset<State>, s: State, a: NodeId, b: NodeId, t: nat)
    returns (s': State)
    requires Scene(r, members, all, s) && a != b && Open(s, members - {a, b}, t)
    requires Offers(members, s, a, MINE, t) && Offers(members, s, b, THEIRS, t)
    ensures Scene(r, members, all, s') && Crossed(r, members, s', a, b, t)
  {
    var s1 := OthersYield(r, members, all, s, a, b, t);
    s' := LeadersYield(r, members, all, s1, a, b, t);
  }

  lemma Cross(r: Repairs, members: set<NodeId>, all: iset<State>, s: State, a: NodeId, b: NodeId, t: nat)
    returns (s': State)
    requires Scene(r, members, all, s) && Rivals(members, s, a, b, t)
    ensures Scene(r, members, all, s') && Crossed(r, members, s', a, b, t)
  {
    var s1 := BothOffer(r, members, all, s, a, b, t);
    s' := CrossOffers(r, members, all, s1, a, b, t);
  }

  /** a records a match with b, whose log holds another entry. */
  lemma Misrecord(r: Repairs, members: set<NodeId>, all: iset<State>, s: State, a: NodeId, b: NodeId, t: nat)
    returns (s': State)
    requires Scene(r, members, all, s) && Crossed(r, members, s, a, b, t)
    ensures Moved(r, members, all, s, s', {a}) && !MatchesHonest(s')
    ensures Leads(s'.nodes[a], t, [Entry(THEIRS, t)], s'.nodes[a].commit)
    ensures b in s'.nodes[a].next && s'.nodes[a].next[b] == 2
  {
    s' := Receive(r, members, all, s, Ack(b, a, t, 1));
    assert s'.nodes[a].matched[b] == 1;
    assert Recorded(s', a, b);
    assert s'.nodes[a].log[..1][0] != s'.nodes[b].log[..1][0];
  }

  /** And when b crashes it is left as a follower that a will never correct. */
  lemma Stranded(r: Repairs, members: set<NodeId>, all: iset<State>, s: State, a: NodeId, b: NodeId, t: nat)
    returns (s': State)
    requires Scene(r, members, all, s) && Crossed(r, members, s, a, b, t)
    ensures Scene(r, members, all, s')
    ensures Leads(s'.nodes[a], t, [Entry(THEIRS, t)], s'.nodes[a].commit) && Follows(s'.nodes[b], t, [Entry(MINE, t)])
    ensures b in s'.nodes[a].next && s'.nodes[a].next[b] == 2
  {
    var s1 := Misrecord(r, members, all, s, a, b, t);
    s' := Move(r, members, all, s1, Crash(b));
  }

  lemma CommitsOne(r: Repairs, members: set<NodeId>, all: iset<State>, s: State, a: NodeId, client: Client, t: nat)
    returns (s': State)
    requires Scene(r, members, all, s) && a in members && |members| >= 2
    requires Leads(s.nodes[a], t, [Entry(client, t)], 0) && Unmatched(s.nodes[a])
    requires AllAcked(r, s.network, a, t, 1, members - {a})
    ensures Moved(r, members, all, s, s', {a})
    ensures Leads(s'.nodes[a], t, [Entry(client, t)], 1) && Settled(s.nodes[a].pending, 1) <= s'.replies
    ensures 1 !in s'.nodes[a].pending
  {
    assert |members - {a}| == |members| - 1;
    assert Holders(s.nodes[a].matched, 1) == {};
    s' := CommitAll(r, members, all, s, a, members - {a});
  }

  /** Both have committed, and a has said so to the client whose entry it no
      longer has. */
  ghost predicate Split(members: set<NodeId>, s: State, a: NodeId, b: NodeId, t: nat) {
    && a in members && b in members && a != b && a in s.nodes && b in s.nodes
    && Leads(s.nodes[a], t, [Entry(THEIRS, t)], 1) && Leads(s.nodes[b], t, [Entry(MINE, t)], 1)
    && TOLD in s.replies && Logged(s, members - {b}, [Entry(THEIRS, t)])
  }

  lemma BothCommit(r: Repairs, members: set<NodeId>, all: iset<State>, s: State, a: NodeId, b: NodeId, t: nat)
    returns (s': State)
    requires Scene(r, members, all, s) && Crossed(r, members, s, a, b, t)
    ensures Scene(r, members, all, s') && Split(members, s', a, b, t)
  {
    Without(members, a, b);
    assert TOLD in Settled(s.nodes[a].pending, 1);
    var s1 := CommitsOne(r, members, all, s, a, THEIRS, t);
    AcksStay(r, s.network, s1.network, b, t, 1, 1, members - {b});
    s' := CommitsOne(r, members, all, s1, b, MINE, t);
  }

  /** Both commit, and the client whose entry was replaced is told it is there. */
  lemma Clashed(r: Repairs, members: set<NodeId>, all: iset<State>, s: State, a: NodeId, b: NodeId, t: nat)
    returns (s': State)
    requires Scene(r, members, all, s) && Crossed(r, members, s, a, b, t)
    ensures s' in all && CommitsClash(s', 1) && !LeadersComplete(s') && Belied(s', TOLD, a)
    ensures !DataAgrees(s') && !AnswersOnMajority(members, s')
  {
    s' := BothCommit(r, members, all, s, a, b, t);
    assert s'.nodes[a].log[..1][0] != s'.nodes[b].log[..1][0];
    assert Clash(s', a, b, 1) && Concerns(s', a, b);
    OpposedData(r, members, all, s', a, b);
    assert DataDiffers(s', a, b);
    Without(members, a, b);
    HeldByOne(members, s', TOLD, b);
  }

  /** b commits its own entry with everyone's help; the other leader's is still
      on its way to it. */
  lemma Threatened(r: Repairs, members: set<NodeId>, all: iset<State>, s: State, a: NodeId, b: NodeId, t: nat)
    returns (s': State)
    requires Scene(r, members, all, s) && Rivals(members, s, a, b, t)
    ensures Scene(r, members, all, s') && Undoes(s', Envelope(a, b, Offer(a, MINE, t)))
  {
    var s1 := BothOffer(r, members, all, s, a, b, t);
    var s2 := OthersYield(r, members, all, s1, a, b, t);
    s' := OneCommits(r, members, all, s2, a, b, t);
    assert Envelope(a, b, Offer(a, MINE, t)) in s1.network;
  }

  lemma OneCommits(r: Repairs, members: set<NodeId>, all: iset<State>, s: State, a: NodeId, b: NodeId, t: nat)
    returns (s': State)
    requires Scene(r, members, all, s) && a != b && a in members && b in members
    requires Offers(members, s, a, MINE, t) && Offers(members, s, b, THEIRS, t)
    requires AllAcked(r, s.network, b, t, 1, members - {a, b})
    ensures Moved(r, members, all, s, s', {a, b}) && Leads(s'.nodes[b], t, [Entry(THEIRS, t)], 1)
  {
    assert Envelope(b, a, Offer(b, THEIRS, t)) in s.network;
    var s1 := Yields(r, members, all, s, a, b, THEIRS, t);
    AcksStay(r, s.network, s1.network, b, t, 1, 1, members - {a, b});
    assert members - {b} == members - {a, b} + {a};
    Without(members, a, b);
    s' := CommitsOne(r, members, all, s1, b, THEIRS, t);
  }
}
