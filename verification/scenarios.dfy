/** Reachable states, and the moves runs are put together from: delivering a
    message, winning an election, filling a log. Each move holds whatever
    repairs are made. */
module Scenarios {
  import opened RaftTypes
  import opened LogSpec
  import opened NodeSpec
  import opened Cluster
  import opened Persistence
  import opened Stores

  ghost predicate Reachable(r: Repairs, members: set<NodeId>, s: State) {
    exists evs: seq<Event> :: Run(r, members, evs) == s
  }

  lemma InitReachable(r: Repairs, members: set<NodeId>)
    ensures Reachable(r, members, Init(members))
  {
    assert Run(r, members, []) == Init(members);
  }

  lemma StepReachable(r: Repairs, members: set<NodeId>, s: State, ev: Event)
    requires Reachable(r, members, s)
    ensures Reachable(r, members, Step(r, s, ev))
  {
    var evs :| Run(r, members, evs) == s;
    var longer := evs + [ev];
    assert longer[..|longer| - 1] == evs;
    assert Run(r, members, longer) == Step(r, s, ev);
  }

  /** Matches are recorded for peers alone. */
  ghost predicate TracksPeers(n: NodeState) { n.matched.Keys <= n.peers }

  ghost predicate BetweenPeers(members: set<NodeId>, e: Envelope) { e.from in members && e.from != e.to }

  /** Every node sits under its own name, with all others as its peers. */
  ghost predicate Stationed(members: set<NodeId>, s: State) {
    && s.nodes.Keys == members
    && (forall v {:trigger s.nodes[v]} | v in members :: s.nodes[v].id == v && s.nodes[v].peers == members - {v})
    && (forall v {:trigger TracksPeers(s.nodes[v])} | v in members :: TracksPeers(s.nodes[v]))
    && (forall e {:trigger BetweenPeers(members, e)} | e in s.network :: BetweenPeers(members, e))
  }

  ghost predicate SamePost(n: NodeState, n': NodeState) {
    n'.id == n.id && n'.peers == n.peers && TracksPeers(n')
  }

  lemma LeaderSamePost(r: Repairs, n: NodeState)
    requires TracksPeers(n)
    ensures SamePost(n, BecomeLeader(r, n).node)
  {
  }

  lemma VoteSamePost(r: Repairs, n: NodeState, e: Envelope)
    requires TracksPeers(n) && e.message.RequestVoteResponse?
    ensures SamePost(n, OnVoteResponse(r, n, e.from, e.message).node)
  {
    LeaderSamePost(r, n.(votes := AddVote(n.votes, e.from)));
  }

  lemma ReplySamePost(r: Repairs, n: NodeState, e: Envelope)
    requires TracksPeers(n) && e.message.AppendEntriesResponse? && e.from in n.peers
    ensures SamePost(n, OnAppendResponse(r, n, e.from, e.message).node)
  {
  }

  lemma SameStationOnMessage(r: Repairs, n: NodeState, e: Envelope)
    requires TracksPeers(n) && e.from in n.peers
    ensures SamePost(n, OnMessage(r, n, e).node)
  {
    if e.message.RequestVoteResponse? {
      VoteSamePost(r, n, e);
    } else if e.message.AppendEntriesResponse? {
      ReplySamePost(r, n, e);
    }
  }

  lemma SameStation(r: Repairs, n: NodeState, ev: Event)
    requires TracksPeers(n) && (ev.Deliver? ==> ev.envelope.from in n.peers)
    ensures SamePost(n, React(r, n, ev).node)
  {
    if ev.Deliver? { SameStationOnMessage(r, n, ev.envelope); }
  }

  lemma SentOnMessage(r: Repairs, n: NodeState, e: Envelope)
    requires n.id !in n.peers && e.from != n.id
    ensures forall m | m in OnMessage(r, n, e).sent :: m.from == n.id && m.to != n.id
  {
  }

  lemma SentBetweenPeers(r: Repairs, members: set<NodeId>, n: NodeState, ev: Event)
    requires n.id in members && n.peers == members - {n.id} && (ev.Deliver? ==> ev.envelope.from != n.id)
    ensures forall m {:trigger BetweenPeers(members, m)} | m in React(r, n, ev).sent :: BetweenPeers(members, m)
  {
    if ev.Deliver? { SentOnMessage(r, n, ev.envelope); }
  }

  lemma StepStationed(r: Repairs, members: set<NodeId>, s: State, ev: Event)
    requires Stationed(members, s)
    ensures Stationed(members, Step(r, s, ev))
  {
    if Enabled(s, ev) {
      var n := s.nodes[Site(ev)];
      assert TracksPeers(n);
      if ev.Deliver? { assert BetweenPeers(members, ev.envelope); }
      SameStation(r, n, ev);
      SentBetweenPeers(r, members, n, ev);
      var s' := Step(r, s, ev);
      forall v | v in members ensures TracksPeers(s'.nodes[v]) { assert TracksPeers(s.nodes[v]); }
      forall e | e in s'.network ensures BetweenPeers(members, e) {
        assert e in s.network ==> BetweenPeers(members, e);
      }
    }
  }

  lemma InitStationed(members: set<NodeId>)
    ensures Stationed(members, Init(members))
  {
  }

  lemma {:induction false} RunStationed(r: Repairs, members: set<NodeId>, evs: seq<Event>)
    ensures Stationed(members, Run(r, members, evs))
  {
    if evs == [] {
      InitStationed(members);
    } else {
      RunStationed(r, members, evs[..|evs| - 1]);
      StepStationed(r, members, Run(r, members, evs[..|evs| - 1]), evs[|evs| - 1]);
    }
  }

  // ----- moves -----

  /** A set of states that no step leaves. Scenarios are told inside any such
      set; the reachable states are one. */
  ghost predicate Closed(r: Repairs, all: iset<State>) {
    forall s, ev {:trigger Step(r, s, ev)} | s in all :: Step(r, s, ev) in all
  }

  ghost predicate Scene(r: Repairs, members: set<NodeId>, all: iset<State>, s: State) {
    Closed(r, all) && s in all && Stationed(members, s) && AllInPlace(s) && StoresTrue(s)
  }

  lemma ReachableClosed(r: Repairs, members: set<NodeId>)
    ensures Scene(r, members, (iset s | Reachable(r, members, s)), Init(members))
  {
    InitReachable(r, members);
    RunStationed(r, members, []);
    InitStores(members);
    forall s, ev | Reachable(r, members, s) ensures Reachable(r, members, Step(r, s, ev)) {
      StepReachable(r, members, s, ev);
    }
  }

  /** s' is in the set too, and differs from s in the nodes of `moved` alone. */
  ghost predicate Moved(r: Repairs, members: set<NodeId>, all: iset<State>, s: State, s': State, moved: set<NodeId>) {
    && Scene(r, members, all, s')
    && s.network <= s'.network && s.replies <= s'.replies
    && forall v {:trigger s'.nodes[v]} | v in members && v !in moved :: v in s.nodes && s'.nodes[v] == s.nodes[v]
  }

  /** No node of the scenarios takes in entries once it has committed any. */
  ghost predicate Calm(n: NodeState, ev: Event) {
    ev.Deliver? && ev.envelope.message.AppendEntries? && Accepts(n, ev.envelope.message) ==> n.commit == 0
  }

  lemma CalmFollows(r: Repairs, s: State, ev: Event)
    requires StoresTrue(s) && AllInPlace(s) && Enabled(s, ev) && Calm(s.nodes[Site(ev)], ev)
    ensures StoresTrue(Step(r, s, ev)) && AllInPlace(Step(r, s, ev))
  {
    var n := s.nodes[Site(ev)];
    assert StoreTrue(n) && Indexed(n.log, 0);
    if ev.Deliver? {
      assert InPlace(ev.envelope.message);
      if ev.envelope.message.AppendEntries? && Accepts(n, ev.envelope.message) {
        AcceptedOutcome(r, n, ev.envelope.from, ev.envelope.message);
      } else {
        OthersKeep(r, n, ev);
      }
    } else {
      OthersKeep(r, n, ev);
    }
    StepFollows(r, s, ev);
    StepInPlace(r, s, ev);
  }

  lemma Move(r: Repairs, members: set<NodeId>, all: iset<State>, s: State, ev: Event) returns (s': State)
    requires Scene(r, members, all, s) && Enabled(s, ev) && Calm(s.nodes[Site(ev)], ev)
    ensures Moved(r, members, all, s, s', {Site(ev)}) && s' == Step(r, s, ev)
    ensures var out := React(r, s.nodes[Site(ev)], ev);
            s'.nodes[Site(ev)] == out.node && out.sent <= s'.network && out.replies <= s'.replies
  {
    s' := Step(r, s, ev);
    StepStationed(r, members, s, ev);
    CalmFollows(r, s, ev);
  }

  lemma Receive(r: Repairs, members: set<NodeId>, all: iset<State>, s: State, e: Envelope) returns (s': State)
    requires Scene(r, members, all, s)
    requires e in s.network && e.to in members && Calm(s.nodes[e.to], Deliver(e))
    ensures Moved(r, members, all, s, s', {e.to})
    ensures var out := OnMessage(r, s.nodes[e.to], e);
            s'.nodes[e.to] == out.node && out.sent <= s'.network && out.replies <= s'.replies
  {
    s' := Move(r, members, all, s, Deliver(e));
  }

  // ----- elections -----

  function Ask(n: NodeState, to: NodeId): Envelope {
    Envelope(n.id, to, RequestVote(n.term, n.id, |n.log|, LastTerm(n.log)))
  }

  function Grant(from: NodeId, to: NodeId, term: nat): Envelope {
    Envelope(from, to, RequestVoteResponse(term, true, from))
  }

  /** A node that would vote for candidate n if asked. */
  ghost predicate Willing(v: NodeState, n: NodeState) {
    v.term < n.term && UpToDate(LastTerm(n.log), |n.log|, v.log)
  }

  function Voted(v: NodeState, n: NodeState): NodeState {
    v.(term := n.term, votedFor := Some(n.id), role := Follower)
  }

  lemma GrantOne(r: Repairs, members: set<NodeId>, all: iset<State>, s: State, n: NodeState, u: NodeId)
    returns (s': State)
    requires Scene(r, members, all, s) && u in members
    requires Ask(n, u) in s.network && Willing(s.nodes[u], n)
    ensures Moved(r, members, all, s, s', {u})
    ensures s'.nodes[u] == Voted(s.nodes[u], n) && Grant(u, n.id, n.term) in s'.network
  {
    s' := Receive(r, members, all, s, Ask(n, u));
    assert s.nodes[u].id == u;
  }

  /** Everyone asked and willing grants its vote. */
  lemma {:induction false} GrantAll(r: Repairs, members: set<NodeId>, all: iset<State>, s: State, n: NodeState,
                                    us: set<NodeId>)
    returns (s': State)
    requires Scene(r, members, all, s) && us <= members
    requires forall u | u in us :: Ask(n, u) in s.network && Willing(s.nodes[u], n)
    ensures Moved(r, members, all, s, s', us)
    ensures forall u | u in us :: s'.nodes[u] == Voted(s.nodes[u], n) && Grant(u, n.id, n.term) in s'.network
    decreases us
  {
    if us == {} {
      s' := s;
    } else {
      var u :| u in us;
      var s1 := GrantOne(r, members, all, s, n, u);
      s' := GrantAll(r, members, all, s1, n, us - {u});
    }
  }

  /** The leader will send these peers what follows index k - 1. */
  ghost predicate NextAt(n: NodeState, us: set<NodeId>, k: nat) {
    forall p | p in us :: p in n.next && n.next[p] == k
  }

  ghost predicate Unmatched(n: NodeState) {
    forall p | p in n.matched :: n.matched[p] == 0
  }

  /** Candidate n became leader n': all it tracks of its peers starts over. */
  ghost predicate Elected(r: Repairs, n: NodeState, n': NodeState) {
    && n'.id == n.id && n'.peers == n.peers && n'.term == n.term && n'.votedFor == n.votedFor
    && n'.log == n.log && n'.commit == n.commit && n'.role == Leader
    && NextAt(n', n.peers, |n.log| + 1)
    && Unmatched(n')
    && n'.pending == (if r.pendingReset then map[] else n.pending)
  }

  /** Every peer has been sent what leader n has to say. */
  ghost predicate Announced(n: NodeState, network: set<Envelope>) {
    forall p {:trigger AppendMessage(n, p)} | p in n.peers :: Envelope(n.id, p, AppendMessage(n, p)) in network
  }

  lemma BecomesElected(r: Repairs, n: NodeState)
    requires TracksPeers(n)
    ensures Elected(r, n, BecomeLeader(r, n).node)
    ensures Announced(BecomeLeader(r, n).node, BecomeLeader(r, n).sent)
  {
    HeartbeatsAnnounce(BecomeLeader(r, n).node);
  }

  lemma HeartbeatsAnnounce(n: NodeState)
    requires n.role == Leader
    ensures Announced(n, Heartbeats(n))
  {
  }

  function Tally(r: Repairs, n: NodeState): nat {
    |n.votes| + if r.selfVote then 0 else 1
  }

  lemma VoteCounts(r: Repairs, n: NodeState, u: NodeId, t: nat)
    requires n.role == Candidate && t <= n.term && (r.voteTerm ==> t == n.term) && u !in n.votes && TracksPeers(n)
    ensures var n1 := n.(votes := n.votes + [u]);
            var out := OnVoteResponse(r, n, u, RequestVoteResponse(t, true, u));
            if Wins(r, n1) then Elected(r, n1, out.node) && Announced(out.node, out.sent) else out == Quiet(n1)
  {
    BecomesElected(r, n.(votes := n.votes + [u]));
  }

  /** A candidate counts one vote, and leads if that is enough. */
  lemma CollectOne(r: Repairs, members: set<NodeId>, all: iset<State>, s: State, a: NodeId, u: NodeId, t: nat)
    returns (s': State)
    requires Scene(r, members, all, s) && a in members
    requires var n := s.nodes[a];
             n.role == Candidate && t <= n.term && (r.voteTerm ==> t == n.term) && u !in n.votes
    requires Grant(u, a, t) in s.network
    ensures Moved(r, members, all, s, s', {a})
    ensures var n := s.nodes[a].(votes := s.nodes[a].votes + [u]);
            if Wins(r, n) then Elected(r, n, s'.nodes[a]) && Announced(s'.nodes[a], s'.network)
            else s'.nodes[a] == n
  {
    assert TracksPeers(s.nodes[a]);
    VoteCounts(r, s.nodes[a], u, t);
    s' := Receive(r, members, all, s, Grant(u, a, t));
  }

  lemma BallotWins(r: Repairs, members: set<NodeId>, n: NodeState)
    requires n.id in members && n.peers == members - {n.id}
    ensures Wins(r, n) <==> Tally(r, n) >= |members| / 2 + 1
  {
    assert members == n.peers + {n.id};
  }

  /** A candidate collects votes granted in term t until it wins. */
  lemma {:induction false} Collect(r: Repairs, members: set<NodeId>, all: iset<State>, s: State, a: NodeId,
                                   us: set<NodeId>, t: nat)
    returns (s': State)
    requires Scene(r, members, all, s) && a in members && us != {}
    requires var n := s.nodes[a];
             && n.role == Candidate && t <= n.term && (r.voteTerm ==> t == n.term)
             && Tally(r, n) + |us| >= |members| / 2 + 1
             && forall u | u in us :: u !in n.votes
    requires forall u | u in us :: Grant(u, a, t) in s.network
    ensures Moved(r, members, all, s, s', {a})
    ensures Elected(r, s.nodes[a], s'.nodes[a]) && Announced(s'.nodes[a], s'.network)
    decreases us
  {
    var u :| u in us;
    var n1 := s.nodes[a].(votes := s.nodes[a].votes + [u]);
    BallotWins(r, members, n1);
    s' := CollectOne(r, members, all, s, a, u, t);
    if !Wins(r, n1) {
      assert us - {u} != {};
      s' := Collect(r, members, all, s', a, us - {u}, t);
    }
  }

  function Candidacy(n: NodeState): NodeState {
    n.(term := n.term + 1, votedFor := Some(n.id), role := Candidate, votes := [n.id])
  }

  lemma Campaign(r: Repairs, members: set<NodeId>, all: iset<State>, s: State, a: NodeId) returns (s': State)
    requires Scene(r, members, all, s) && a in members && members != {a} && s.nodes[a].role != Leader
    ensures Moved(r, members, all, s, s', {a}) && s'.nodes[a] == Candidacy(s.nodes[a])
    ensures forall u | u in members && u != a :: Ask(s'.nodes[a], u) in s'.network
  {
    s' := Move(r, members, all, s, Timeout(a));
    var n := s.nodes[a];
    assert exists u :: u in members && u != a;
    assert n.peers != {};
    forall u | u in members && u != a ensures Ask(s'.nodes[a], u) in s'.network {
      assert Ask(Candidacy(n), u) in Solicit(Candidacy(n));
    }
  }

  /** A node stands for election and wins with the votes of us. */
  lemma Elect(r: Repairs, members: set<NodeId>, all: iset<State>, s: State, a: NodeId, us: set<NodeId>)
    returns (s': State)
    requires Scene(r, members, all, s) && a in members && s.nodes[a].role != Leader
    requires us != {} && us <= members - {a}
    requires |us| + (if r.selfVote then 1 else 2) >= |members| / 2 + 1
    requires forall u | u in us :: Willing(s.nodes[u], Candidacy(s.nodes[a]))
    ensures Moved(r, members, all, s, s', us + {a})
    ensures Elected(r, Candidacy(s.nodes[a]), s'.nodes[a]) && Announced(s'.nodes[a], s'.network)
    ensures forall u | u in us :: s'.nodes[u] == Voted(s.nodes[u], s'.nodes[a])
  {
    var n := Candidacy(s.nodes[a]);
    assert members != {a};
    var s1 := Campaign(r, members, all, s, a);
    var s2 := GrantAll(r, members, all, s1, n, us);
    s' := Collect(r, members, all, s2, a, us, n.term);
  }

  // ----- replication -----

  ghost predicate Follows(n: NodeState, term: nat, log: Log) {
    n.role == Follower && n.term == term && n.log == log
  }

  ghost predicate Leads(n: NodeState, term: nat, log: Log, commit: nat) {
    n.role == Leader && n.term == term && n.log == log && n.commit == commit
  }

  lemma Append(r: Repairs, members: set<NodeId>, all: iset<State>, s: State, a: NodeId, client: Client)
    returns (s': State)
    requires Scene(r, members, all, s) && a in members
    requires s.nodes[a].role == Leader
    ensures Moved(r, members, all, s, s', {a})
    ensures var n, index := s.nodes[a], |s.nodes[a].log| + 1;
            s'.nodes[a] == n.(log := n.log + [LogEntry(index, n.term, client.wants)],
                           pending := n.pending[index := client])
    ensures Announced(s'.nodes[a], s'.network) && s' == Step(r, s, Request(a, client))
  {
    s' := Move(r, members, all, s, Request(a, client));
    HeartbeatsAnnounce(s'.nodes[a]);
  }

  lemma LastBatch(log: Log, k: nat)
    requires 1 <= k <= |log| + 1 <= k + MAX_BATCH
    ensures EntriesFrom(log, k) == log[k - 1..]
  {
  }

  /** What a leader sends a peer whose next index is k, if it fits one batch. */
  lemma Carries(n: NodeState, peer: NodeId, k: nat)
    requires peer in n.next && n.next[peer] == k && 1 <= k <= |n.log| + 1 <= k + MAX_BATCH
    ensures AppendMessage(n, peer)
         == AppendEntries(n.term, n.id, k - 1, if k == 1 then 0 else n.log[k - 2].term, n.log[k - 1..], n.commit)
  {
    LastBatch(n.log, k);
    assert NextFor(n, peer) == k;
    assert TermAt(n.log, k - 1) == if k == 1 then None else Some(n.log[k - 2].term);
  }

  lemma FirstBatch(log: Log, k: nat, batch: Log)
    requires k == 1 && |batch| == MAX_BATCH && batch <= log
    ensures EntriesFrom(log, k) == batch
  {
    var entries := EntriesFrom(log, k);
    assert |entries| == |batch|;
    assert forall i | 0 <= i < |batch| :: entries[i] == log[i] == batch[i];
  }

  /** A leader that is at a peer's first entry sends a full batch. */
  lemma CarriesFirst(n: NodeState, peer: NodeId, batch: Log)
    requires peer in n.next && n.next[peer] == 1 && |batch| == MAX_BATCH && batch <= n.log
    ensures AppendMessage(n, peer) == AppendEntries(n.term, n.id, 0, 0, batch, n.commit)
  {
    var k := n.next[peer];
    FirstBatch(n.log, k, batch);
    assert NextFor(n, peer) == k;
    assert TermAt(n.log, k - 1) == None;
  }

  lemma Beat(r: Repairs, members: set<NodeId>, all: iset<State>, s: State, a: NodeId) returns (s': State)
    requires Scene(r, members, all, s) && a in members
    requires s.nodes[a].role == Leader
    ensures Moved(r, members, all, s, s', {}) && Announced(s'.nodes[a], s'.network)
  {
    s' := Move(r, members, all, s, Tick(a));
    HeartbeatsAnnounce(s'.nodes[a]);
  }

  function Ack(from: NodeId, to: NodeId, term: nat, last: nat): Envelope {
    Envelope(from, to, AppendEntriesResponse(term, true, last, from))
  }

  function Nack(from: NodeId, to: NodeId, term: nat, last: nat): Envelope {
    Envelope(from, to, AppendEntriesResponse(term, false, last, from))
  }

  /** A follower takes in entries and acknowledges them. */
  lemma Accept(r: Repairs, members: set<NodeId>, all: iset<State>, s: State, e: Envelope) returns (s': State)
    requires Scene(r, members, all, s)
    requires e in s.network && e.to in members && e.message.AppendEntries?
    requires var n := s.nodes[e.to];
             Accepts(n, e.message) && (n.term < e.message.term || n.role == Follower) && n.commit == 0
    ensures Moved(r, members, all, s, s', {e.to})
    ensures var n, n', m := s.nodes[e.to], s'.nodes[e.to], e.message;
            var covered := m.prevLogIndex + |m.entries|;
            && m.prevLogIndex <= |n.log|
            && n'.log == Merge(n.log, m.prevLogIndex, m.entries)
            && n'.id == n.id && n'.peers == n.peers && n'.term == m.term && n'.role == Follower
            && n'.pending == n.pending && n'.matched == n.matched
            && n'.commit == CommitAfter(r, n.commit, m.leaderCommit, |n'.log|, covered)
            && Ack(n.id, e.from, if r.replyTerm then m.term else n.term,
                   if r.coverReport then covered else |n'.log|) in s'.network
  {
    s' := Receive(r, members, all, s, e);
    AcceptedOutcome(r, s.nodes[e.to], e.from, e.message);
  }

  /** A follower that lacks the entry before the new ones says so. */
  lemma Reject(r: Repairs, members: set<NodeId>, all: iset<State>, s: State, e: Envelope) returns (s': State)
    requires Scene(r, members, all, s)
    requires e in s.network && e.to in members && e.message.AppendEntries?
    requires var n := s.nodes[e.to]; e.message.term >= n.term && !Accepts(n, e.message)
    ensures Moved(r, members, all, s, s', {e.to})
    ensures var n, n' := s.nodes[e.to], s'.nodes[e.to];
            && n' == ObserveTerm(n, e.message.term).(leaderId := Some(e.message.leaderId))
            && Nack(n.id, e.from, e.message.term, |n.log|) in s'.network
  {
    s' := Receive(r, members, all, s, e);
  }

  /** A leader hears of a rejection k times and steps back k times. */
  lemma {:induction false} StepBack(r: Repairs, members: set<NodeId>, all: iset<State>, s: State, a: NodeId,
                                    from: NodeId, last: nat, k: nat) returns (s': State)
    requires Scene(r, members, all, s) && a in members
    requires var n := s.nodes[a];
             && n.role == Leader && from in n.next && n.next[from] > k
             && Nack(from, a, n.term, last) in s.network
    ensures Moved(r, members, all, s, s', {a})
    ensures var n := s.nodes[a]; s'.nodes[a] == n.(next := n.next[from := n.next[from] - k])
    decreases k
  {
    if k == 0 {
      s' := s;
      assert s.nodes[a].next[from := s.nodes[a].next[from]] == s.nodes[a].next;
    } else {
      var s1 := Receive(r, members, all, s, Nack(from, a, s.nodes[a].term, last));
      s' := StepBack(r, members, all, s1, a, from, last, k - 1);
    }
  }

  // ----- replication to many -----

  /** Followers that hold the same log and have committed nothing. */
  ghost predicate Crowd(s: State, us: set<NodeId>, term: nat, log: Log) {
    forall u {:trigger s.nodes[u]} | u in us ::
      u in s.nodes && Follows(s.nodes[u], term, log) && s.nodes[u].commit == 0
  }

  lemma CrowdStays(r: Repairs, members: set<NodeId>, all: iset<State>, s: State, s': State, moved: set<NodeId>,
                   us: set<NodeId>, term: nat, log: Log)
    requires Moved(r, members, all, s, s', moved) && us <= members && us !! moved && Crowd(s, us, term, log)
    ensures Crowd(s', us, term, log)
  {
  }

  ghost predicate SentAll(s: State, from: NodeId, us: set<NodeId>, m: Message) {
    forall u {:trigger Envelope(from, u, m)} | u in us :: Envelope(from, u, m) in s.network
  }

  ghost predicate AckIn(r: Repairs, network: set<Envelope>, to: NodeId, term: nat, last: nat, u: NodeId, t: nat,
                        l: nat)
  {
    t <= term && (r.sameTerm ==> t == term) && l >= last && Ack(u, to, t, l) in network
  }

  /** An acknowledgement from u that the leader of a term will take for its log up to `last`. */
  ghost predicate HasAcked(r: Repairs, network: set<Envelope>, to: NodeId, term: nat, last: nat, u: NodeId) {
    exists t: nat, l: nat :: AckIn(r, network, to, term, last, u, t, l)
  }

  ghost predicate AllAcked(r: Repairs, network: set<Envelope>, to: NodeId, term: nat, last: nat, us: set<NodeId>) {
    forall u {:trigger HasAcked(r, network, to, term, last, u)} | u in us :: HasAcked(r, network, to, term, last, u)
  }

  lemma AcksStay(r: Repairs, network: set<Envelope>, network': set<Envelope>, to: NodeId, term: nat, last: nat,
                 last': nat, us: set<NodeId>)
    requires AllAcked(r, network, to, term, last, us) && network <= network' && last' <= last
    ensures AllAcked(r, network', to, term, last', us)
  {
    forall u | u in us ensures HasAcked(r, network', to, term, last', u) {
      assert HasAcked(r, network, to, term, last, u);
      var t: nat, l: nat :| AckIn(r, network, to, term, last, u, t, l);
      assert AckIn(r, network', to, term, last', u, t, l);
    }
  }

  /** No leader-elect need fear these nodes: none is ahead in term or log. */
  ghost predicate Behind(s: State, us: set<NodeId>, term: nat, log: Log) {
    forall u {:trigger s.nodes[u]} | u in us ::
      u in s.nodes && s.nodes[u].term <= term && s.nodes[u].log == log && s.nodes[u].commit == 0
  }

  /** A node wins the next term with the votes of nodes that share its log. */
  lemma Win(r: Repairs, members: set<NodeId>, all: iset<State>, s: State, a: NodeId, us: set<NodeId>)
    returns (s': State)
    requires Scene(r, members, all, s) && a in members && s.nodes[a].role != Leader
    requires us != {} && us <= members - {a} && |us| >= |members| / 2
    requires Behind(s, us, s.nodes[a].term, s.nodes[a].log)
    ensures Moved(r, members, all, s, s', us + {a}) && Announced(s'.nodes[a], s'.network)
    ensures var n, n' := s.nodes[a], s'.nodes[a];
            && Leads(n', n.term + 1, n.log, n.commit) && Unmatched(n') && NextAt(n', members - {a}, |n.log| + 1)
            && n'.pending == (if r.pendingReset then map[] else n.pending)
            && Crowd(s', us, n.term + 1, n.log)
  {
    s' := Elect(r, members, all, s, a, us);
  }

  /** What a leader has announced, it has sent to all who are equally far. */
  lemma Broadcast(n: NodeState, s: State, us: set<NodeId>, k: nat)
    requires Announced(n, s.network) && us <= n.peers && NextAt(n, us, k)
    requires 1 <= k <= |n.log| + 1 <= k + MAX_BATCH
    ensures SentAll(s, n.id, us, AppendEntries(n.term, n.id, k - 1, if k == 1 then 0 else n.log[k - 2].term,
                                               n.log[k - 1..], n.commit))
  {
    forall u | u in us { Carries(n, u, k); }
  }

  ghost predicate Fitting(m: Message, log: Log)
    requires m.AppendEntries?
  {
    m.prevLogIndex <= |log| && (m.prevLogIndex > 0 ==> log[m.prevLogIndex - 1].term == m.prevLogTerm)
  }

  lemma AcceptOne(r: Repairs, members: set<NodeId>, all: iset<State>, s: State, from: NodeId, u: NodeId, m: Message)
    returns (s': State)
    requires Scene(r, members, all, s) && u in members && Envelope(from, u, m) in s.network
    requires m.AppendEntries? && m.leaderCommit == 0
    requires var n := s.nodes[u]; n.role == Follower && n.term == m.term && Fitting(m, n.log) && n.commit == 0
    ensures Moved(r, members, all, s, s', {u})
    ensures var n, n' := s.nodes[u], s'.nodes[u];
            && Follows(n', m.term, Merge(n.log, m.prevLogIndex, m.entries))
            && n'.commit == n.commit && n'.pending == n.pending && n'.matched == n.matched
    ensures HasAcked(r, s'.network, from, m.term, m.prevLogIndex + |m.entries|, u)
  {
    var e := Envelope(from, u, m);
    s' := Accept(r, members, all, s, e);
    assert AckIn(r, s'.network, from, m.term, m.prevLogIndex + |m.entries|, u,
                 if r.replyTerm then m.term else s.nodes[u].term,
                 if r.coverReport then m.prevLogIndex + |m.entries| else |s'.nodes[u].log|);
  }

  /** A crowd takes in the same entries, and all of it acknowledges them. */
  lemma {:induction false} AcceptAll(r: Repairs, members: set<NodeId>, all: iset<State>, s: State, from: NodeId,
                                     us: set<NodeId>, m: Message, log: Log) returns (s': State)
    requires Scene(r, members, all, s) && us <= members && m.AppendEntries? && Crowd(s, us, m.term, log)
    requires m.leaderCommit == 0 && Fitting(m, log) && SentAll(s, from, us, m)
    ensures Moved(r, members, all, s, s', us)
    ensures Crowd(s', us, m.term, Merge(log, m.prevLogIndex, m.entries))
    ensures AllAcked(r, s'.network, from, m.term, m.prevLogIndex + |m.entries|, us)
    decreases us
  {
    if us == {} {
      s' := s;
    } else {
      var u :| u in us;
      assert Envelope(from, u, m) in s.network;
      var s1 := AcceptOne(r, members, all, s, from, u, m);
      CrowdStays(r, members, all, s, s1, {u}, us - {u}, m.term, log);
      s' := AcceptAll(r, members, all, s1, from, us - {u}, m, log);
      CrowdStays(r, members, all, s1, s', us - {u}, {u}, m.term, Merge(log, m.prevLogIndex, m.entries));
      AcksStay(r, s1.network, s'.network, from, m.term, m.prevLogIndex + |m.entries|,
               m.prevLogIndex + |m.entries|, {u});
    }
  }

  /** Every peer is recorded with all of the log or with none of it. */
  ghost predicate AllOrNothing(n: NodeState) {
    forall p | p in n.matched :: n.matched[p] == 0 || n.matched[p] >= |n.log|
  }

  lemma {:induction false} SameHolders(n: NodeState, i: nat)
    requires AllOrNothing(n) && i <= |n.log| && !Committable(n, |n.log|)
    requires n.log != [] && n.log[|n.log| - 1].term == n.term
    ensures ScanDown(n, i) == None
  {
    if i > n.commit {
      assert Holders(n.matched, i) == Holders(n.matched, |n.log|);
      SameHolders(n, i - 1);
    }
  }

  /** An acknowledgement of the whole log commits all of it, or is recorded and
      changes nothing else. */
  lemma AckCounts(r: Repairs, n: NodeState, from: NodeId, t: nat, last: nat)
    requires n.role == Leader && t <= n.term && (r.sameTerm ==> t == n.term) && AllOrNothing(n)
    requires n.commit < |n.log| <= last && n.log[|n.log| - 1].term == n.term
    ensures var out := OnMessage(r, n, Ack(from, n.id, t, last));
            var n1 := n.(matched := n.matched[from := last], next := n.next[from := last + 1]);
            if Committable(n1, |n.log|) then
              && out.node.log == n.log && out.node.term == n.term && out.node.role == Leader
              && out.node.commit == |n.log| && out.replies == Settled(n.pending, |n.log|)
              && out.node.pending == Unsettled(n.pending, |n.log|)
            else out.node == n1
  {
    var n1 := n.(matched := n.matched[from := last], next := n.next[from := last + 1]);
    if !Committable(n1, |n.log|) { SameHolders(n1, |n.log|); }
  }

  /** With each acknowledgement there is one more holder. */
  lemma OneMoreHolder(matched: map<NodeId, nat>, from: NodeId, last: nat, i: nat)
    requires i <= last && from !in Holders(matched, i)
    ensures |Holders(matched[from := last], i)| == |Holders(matched, i)| + 1
  {
    assert Holders(matched[from := last], i) == Holders(matched, i) + {from};
  }

  /** The leader with one more match on record. */
  function Noted(n: NodeState, u: NodeId, l: nat): NodeState {
    n.(matched := n.matched[u := l], next := n.next[u := l + 1])
  }

  /** n' has committed all of n's log and answered everyone who waited. */
  ghost predicate CommittedAll(n: NodeState, n': NodeState, replies: set<Reply>) {
    && n'.log == n.log && n'.term == n.term && n'.role == Leader && n'.commit == |n.log|
    && Settled(n.pending, |n.log|) <= replies && n'.pending == Unsettled(n.pending, |n.log|)
  }

  /** One acknowledgement reaches the leader. */
  lemma HearOne(r: Repairs, members: set<NodeId>, all: iset<State>, s: State, a: NodeId, u: NodeId)
    returns (s': State, l: nat)
    requires Scene(r, members, all, s) && a in members && u in members
    requires var n := s.nodes[a];
             && n.role == Leader && n.commit < |n.log| && n.log[|n.log| - 1].term == n.term
             && AllOrNothing(n) && HasAcked(r, s.network, a, n.term, |n.log|, u)
    ensures Moved(r, members, all, s, s', {a}) && l >= |s.nodes[a].log|
    ensures if Committable(Noted(s.nodes[a], u, l), |s.nodes[a].log|)
            then CommittedAll(s.nodes[a], s'.nodes[a], s'.replies)
            else s'.nodes[a] == Noted(s.nodes[a], u, l)
  {
    var n := s.nodes[a];
    var t: nat, k: nat :| AckIn(r, s.network, a, n.term, |n.log|, u, t, k);
    l := k;
    AckCounts(r, n, u, t, l);
    s' := Receive(r, members, all, s, Ack(u, a, t, l));
  }

  /** Acknowledgements from enough peers commit the whole log of a leader and
      answer everyone who waits. */
  lemma {:induction false} CommitAll(r: Repairs, members: set<NodeId>, all: iset<State>, s: State, a: NodeId,
                                     us: set<NodeId>) returns (s': State)
    requires Scene(r, members, all, s) && a in members && us != {} && us <= members - {a}
    requires var n := s.nodes[a];
             && n.role == Leader && n.commit < |n.log| && n.log[|n.log| - 1].term == n.term
             && AllOrNothing(n) && us !! Holders(n.matched, |n.log|)
             && |Holders(n.matched, |n.log|)| + |us| >= |members| / 2
             && AllAcked(r, s.network, a, n.term, |n.log|, us)
    ensures Moved(r, members, all, s, s', {a}) && CommittedAll(s.nodes[a], s'.nodes[a], s'.replies)
    decreases us
  {
    var n := s.nodes[a];
    var u :| u in us;
    assert HasAcked(r, s.network, a, n.term, |n.log|, u);
    var l;
    s', l := HearOne(r, members, all, s, a, u);
    if !Committable(Noted(n, u, l), |n.log|) {
      OneMoreHolder(n.matched, u, l, |n.log|);
      MoreNeeded(members, Noted(n, u, l), us - {u});
      AcksStay(r, s.network, s'.network, a, n.term, |n.log|, |n.log|, us);
      s' := CommitAll(r, members, all, s', a, us - {u});
    }
  }

  lemma MoreNeeded(members: set<NodeId>, n: NodeState, us: set<NodeId>)
    requires n.id in members && n.peers == members - {n.id}
    requires n.log != [] && n.log[|n.log| - 1].term == n.term && !Committable(n, |n.log|)
    requires |Holders(n.matched, |n.log|)| + |us| >= |members| / 2
    ensures us != {}
  {
    assert members == n.peers + {n.id};
  }

  lemma Without(members: set<NodeId>, a: NodeId, b: NodeId)
    requires a in members && b in members && a != b
    ensures |members - {a}| == |members| - 1 && |members - {a, b}| == |members| - 2
  {
    assert members - {a, b} == members - {a} - {b};
  }

  lemma TwoOf(members: set<NodeId>) returns (a: NodeId, b: NodeId)
    requires |members| >= 2
    ensures a in members && b in members && a != b
  {
    a :| a in members;
    assert |members - {a}| == |members| - 1;
    b :| b in members - {a};
  }

  lemma ThreeOf(members: set<NodeId>) returns (a: NodeId, b: NodeId, c: NodeId)
    requires |members| >= 3
    ensures a in members && b in members && c in members && a != b && b != c && a != c
  {
    a, b := TwoOf(members);
    Without(members, a, b);
    c :| c in members - {a, b};
  }

  /** A leader takes a proposal and a crowd that shares its log takes it over. */
  lemma Spread(r: Repairs, members: set<NodeId>, all: iset<State>, s: State, a: NodeId, us: set<NodeId>,
               client: Client) returns (s': State)
    requires Scene(r, members, all, s) && a in members && us <= members - {a}
    requires var n := s.nodes[a]; Leads(n, n.term, n.log, 0) && NextAt(n, us, |n.log| + 1)
    requires Crowd(s, us, s.nodes[a].term, s.nodes[a].log)
    ensures Moved(r, members, all, s, s', us + {a}) && Announced(s'.nodes[a], s'.network)
    ensures var n, n' := s.nodes[a], s'.nodes[a];
            var log := n.log + [LogEntry(|n.log| + 1, n.term, client.wants)];
            && Leads(n', n.term, log, 0) && n'.pending == n.pending[|n.log| + 1 := client]
            && n'.matched == n.matched && n'.next == n.next
            && Crowd(s', us, n.term, log) && AllAcked(r, s'.network, a, n.term, |log|, us)
  {
    var n := s.nodes[a];
    var s1 := Append(r, members, all, s, a, client);
    var log := s1.nodes[a].log;
    Broadcast(s1.nodes[a], s1, us, |n.log| + 1);
    assert log[|n.log|..] == [LogEntry(|n.log| + 1, n.term, client.wants)];
    assert Merge(n.log, |n.log|, log[|n.log|..]) == log;
    var m := AppendEntries(n.term, a, |n.log|, if n.log == [] then 0 else n.log[|n.log| - 1].term, log[|n.log|..], 0);
    s' := AcceptAll(r, members, all, s1, a, us, m, n.log);
  }

  /** A leader takes k proposals. */
  lemma {:induction false} Fill(r: Repairs, members: set<NodeId>, all: iset<State>, s: State, a: NodeId, k: nat)
    returns (s': State)
    requires Scene(r, members, all, s) && a in members && s.nodes[a].role == Leader && k > 0
    ensures Moved(r, members, all, s, s', {a}) && Announced(s'.nodes[a], s'.network)
    ensures var n, n' := s.nodes[a], s'.nodes[a];
            && Leads(n', n.term, n'.log, n.commit) && n'.next == n.next && n'.matched == n.matched
            && n.log <= n'.log && |n'.log| == |n.log| + k
            && forall i | |n.log| <= i < |n'.log| :: n'.log[i].term == n.term
    decreases k
  {
    var s1 := s;
    if k > 1 { s1 := Fill(r, members, all, s, a, k - 1); }
    s' := Append(r, members, all, s1, a, Client(0, Noop));
  }

  /** A fresh cluster with a leader of term 1. */
  lemma FirstTerm(r: Repairs, members: set<NodeId>, all: iset<State>, a: NodeId) returns (s: State)
    requires Scene(r, members, all, Init(members)) && a in members && |members| >= 2
    ensures Scene(r, members, all, s)
    ensures var n := s.nodes[a];
            Leads(n, 1, [], 0) && n.pending == map[] && NextAt(n, members - {a}, 1) && Unmatched(n)
    ensures Crowd(s, members - {a}, 1, [])
  {
    assert |members - {a}| == |members| - 1;
    s := Win(r, members, all, Init(members), a, members - {a});
  }

  // ----- what is undone -----

  /** An AppendEntries on its way to a node will replace the last entry it has
      committed by one of the opposite effect. */
  ghost predicate Undoes(s: State, e: Envelope) {
    && e in s.network && e.to in s.nodes && e.message.AppendEntries?
    && var n, m := s.nodes[e.to], e.message;
       && Accepts(n, m) && m.prevLogIndex <= |n.log| && m.leaderCommit <= n.commit && 1 <= n.commit <= |n.log|
       && var merged := Merge(n.log, m.prevLogIndex, m.entries);
          n.commit <= |merged| && Opposed(n.log[n.commit - 1].command, merged[n.commit - 1].command)
  }

  /** The node forgets what it had committed, and its store is no longer what its log stands for. */
  lemma Undone(r: Repairs, members: set<NodeId>, all: iset<State>, s: State, e: Envelope) returns (s': State)
    requires Scene(r, members, all, s) && Undoes(s, e)
    ensures !CommitsStay(r, s) && s' in all && !StoresTrue(s')
  {
    var ev, n := Deliver(e), s.nodes[e.to];
    s' := Step(r, s, ev);
    var n' := s'.nodes[e.to];
    AcceptedOutcome(r, n, e.from, e.message);
    assert StoreTrue(n);
    assert n'.log[..n.commit][n.commit - 1] != n.log[..n.commit][n.commit - 1];
    assert !EventKeeps(r, s, ev);
    OpposedDiffer(n.log[..n.commit], n'.log[..n.commit]);
    assert n'.store == n.store && n'.applied == n.applied;
    assert !StoreTrue(n');
  }

  /** Equally far applied, but to opposed effect. */
  lemma OpposedData(r: Repairs, members: set<NodeId>, all: iset<State>, s: State, u: NodeId, v: NodeId)
    requires Scene(r, members, all, s) && u in s.nodes && v in s.nodes
    requires var a, b := s.nodes[u], s.nodes[v];
             && a.commit == b.commit && 1 <= a.commit <= Min(|a.log|, |b.log|)
             && Opposed(a.log[a.commit - 1].command, b.log[b.commit - 1].command)
    ensures s.nodes[u].applied == s.nodes[v].applied && s.nodes[u].store.data != s.nodes[v].store.data
  {
    var a, b := s.nodes[u], s.nodes[v];
    assert StoreTrue(a) && StoreTrue(b);
    OpposedDiffer(a.log[..a.commit], b.log[..b.commit]);
  }
}
