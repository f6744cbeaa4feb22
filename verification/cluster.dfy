/** A cluster with a fixed membership. Messages, once sent, stay in the network
    for ever: a run may deliver any of them in any order, any number of times
    or not at all. Every event is one atomic step of one node. */
module Cluster {
  import opened RaftTypes
  import opened NodeSpec

  datatype Event =
    | Timeout(node: NodeId)
    | Deliver(envelope: Envelope)
    | Tick(node: NodeId)
    | Request(node: NodeId, client: Client)
    | Crash(node: NodeId)

  datatype State = State(nodes: map<NodeId, NodeState>, network: set<Envelope>, replies: set<Reply>)

  /** Every node of `ids` at its first start, in the cluster `members`. */
  ghost function FreshNodes(members: set<NodeId>, ids: set<NodeId>): (nodes: map<NodeId, NodeState>)
    ensures nodes.Keys == ids
    ensures forall v | v in ids :: nodes[v] == Fresh(v, members - {v}, 0, None, [])
  {
    if ids == {} then map[] else
    var v :| v in ids;
    FreshNodes(members, ids - {v})[v := Fresh(v, members - {v}, 0, None, [])]
  }

  ghost function Init(members: set<NodeId>): State {
    State(FreshNodes(members, members), {}, {})
  }

  function Site(ev: Event): NodeId {
    match ev
    case Deliver(e) => e.to
    case Timeout(v) => v
    case Tick(v) => v
    case Request(v, _) => v
    case Crash(v) => v
  }

  /** Only what was sent arrives, and a leader runs no election timer. */
  predicate Enabled(s: State, ev: Event) {
    && Site(ev) in s.nodes
    && (ev.Deliver? ==> ev.envelope in s.network)
    && (ev.Timeout? ==> s.nodes[ev.node].role != Leader)
  }

  /** What the node an event happens at makes of it. */
  ghost function React(r: Repairs, n: NodeState, ev: Event): Outcome {
    match ev
    case Timeout(_) => StartElection(r, n)
    case Deliver(e) => OnMessage(r, n, e)
    case Tick(_) => Outcome(n, Heartbeats(n), {})
    case Request(_, client) => OnPropose(n, client)
    case Crash(_) => Quiet(Restart(n))
  }

  ghost function Step(r: Repairs, s: State, ev: Event): State {
    if !Enabled(s, ev) then s else
    var out := React(r, s.nodes[Site(ev)], ev);
    State(s.nodes[Site(ev) := out.node], s.network + out.sent, s.replies + out.replies)
  }

  ghost function Run(r: Repairs, members: set<NodeId>, evs: seq<Event>): State {
    if evs == [] then Init(members)
    else Step(r, Run(r, members, evs[..|evs| - 1]), evs[|evs| - 1])
  }
}
