/** The data a log stands for: what replaying its commands from the empty
    store leaves, and what a reader of one key finds there. */
module StoreSpec {
  import opened RaftTypes
  import opened LogSpec

  function ApplyCommand(data: map<Key, Value>, command: Command): map<Key, Value> {
    match command
    case Put(key, value) => data[key := value]
    case Delete(key) => data - {key}
    case Noop => data
  }

  /** Replaying a log from the empty store, in order, every entry once. */
  function Replay(log: Log): map<Key, Value> {
    if log == [] then map[] else ApplyCommand(Replay(log[..|log| - 1]), log[|log| - 1].command)
  }

  /** What the last command that names a key says about it. */
  function LastWrite(log: Log, key: Key): Option<Value> {
    if log == [] then None else
    match log[|log| - 1].command
    case Put(k, value) => if k == key then Some(value) else LastWrite(log[..|log| - 1], key)
    case Delete(k) => if k == key then None else LastWrite(log[..|log| - 1], key)
    case Noop => LastWrite(log[..|log| - 1], key)
  }

  function Lookup(data: map<Key, Value>, key: Key): Option<Value> {
    if key in data then Some(data[key]) else None
  }

  /** Reading a key of the replayed data finds the last write to it. */
  lemma {:induction false} ReplayReads(log: Log, key: Key)
    ensures Lookup(Replay(log), key) == LastWrite(log, key)
  {
    if log != [] { ReplayReads(log[..|log| - 1], key); }
  }
}
