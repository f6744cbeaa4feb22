/** Entities shared by every layer: log entries, commands, RPC messages and
    the optional value. */
module RaftTypes {

  datatype Option<+T> = None | Some(value: T)

  newtype Byte = b: int | 0 <= b < 256

  const MAX_KEY_SIZE: nat := 256
  const MAX_VALUE_SIZE: nat := 1024

  /** Keys are UTF-8 strings; only their bytes and their capacity matter here. */
  type Key = k: seq<Byte> | |k| <= MAX_KEY_SIZE
  type Value = v: seq<Byte> | |v| <= MAX_VALUE_SIZE

  type NodeId = string

  datatype Command =
    | Put(key: Key, value: Value)
    | Delete(key: Key)
    | Noop

  datatype LogEntry = LogEntry(index: nat, term: nat, command: Command)

  datatype Message =
    | AppendEntries(term: nat, leaderId: NodeId, prevLogIndex: nat, prevLogTerm: nat,
                    entries: seq<LogEntry>, leaderCommit: nat)
    | AppendEntriesResponse(term: nat, success: bool, lastLogIndex: nat, nodeId: NodeId)
    | RequestVote(term: nat, candidateId: NodeId, lastLogIndex: nat, lastLogTerm: nat)
    | RequestVoteResponse(term: nat, voteGranted: bool, nodeId: NodeId)

  datatype Envelope = Envelope(from: NodeId, to: NodeId, message: Message)

  datatype NodeRole = Follower | Candidate | Leader

  /** The client end of a proposal's response channel. `wants` is the command
      the client asked for; no node ever looks at it. */
  datatype Client = Client(id: nat, wants: Command)

  datatype ProposeResult = Success(index: nat) | NotLeader(leaderId: Option<NodeId>)

  datatype Reply = Reply(client: Client, result: ProposeResult)

  function Max(a: nat, b: nat): nat { if a >= b then a else b }

  function Min(a: nat, b: nat): nat { if a <= b then a else b }
}
