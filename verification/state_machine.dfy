/** The replicated key-value store. */
module KeyValue {
  import opened RaftTypes
  import opened NodeSpec
  import opened StoreSpec

  datatype ApplyResult = Applied | AppliedNoop

  class StateMachine {
    var data: map<Key, Value>
    var lastApplied: nat

    ghost function Contents(): Store
      reads this
    {
      Store(data, lastApplied)
    }

    constructor ()
      ensures Contents() == EMPTY_STORE
    {
      data := map[];
      lastApplied := 0;
    }

    /** Entries at or below the last applied index are skipped. */
    method Apply(entry: LogEntry) returns (result: ApplyResult)
      modifies this
      ensures Contents() == ApplyEntry(old(Contents()), entry)
      ensures result == if entry.index > old(lastApplied) && entry.command.Noop? then AppliedNoop else Applied
    {
      if entry.index <= lastApplied {
        return Applied;
      }
      match entry.command {
        case Put(key, value) =>
          data := data[key := value];
          result := Applied;
        case Delete(key) =>
          data := data - {key};
          result := Applied;
        case Noop =>
          result := AppliedNoop;
      }
      lastApplied := entry.index;
    }

    /** What the last applied command that names the key left there. */
    method Get(key: Key) returns (value: Option<Value>)
      ensures forall log | data == Replay(log) :: value == LastWrite(log, key)
    {
      value := if key in data then Some(data[key]) else None;
      forall log | data == Replay(log) ensures value == LastWrite(log, key) {
        ReplayReads(log, key);
      }
    }
  }
}
