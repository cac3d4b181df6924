/** The in-memory partition states: status, checkpoint write-back, cached log end, lag. */
module State {
  import opened Types

  datatype Status = RESTORING | READY | READY_PARTIAL | STANDBY

  datatype Entry = Entry(status: Status, checkpoint: Option<int>, logEnd: Option<nat>)

  /** What a host sees of a shard. */
  datatype PartitionState =
    PartitionState(status: Status, checkpoint: Option<int>, logEnd: Option<nat>, lag: Option<int>)

  const FRESH := Entry(STANDBY, None, None)

  /** The monotonic write-back, as the upsert's MAX. */
  function Advance(checkpoint: Option<int>, offset: int): Option<int> {
    if checkpoint.None? || offset > checkpoint.value then Some(offset) else checkpoint
  }

  function Applied(e: Entry, offset: int): Entry {
    e.(checkpoint := Advance(e.checkpoint, offset))
  }

  /** The first offset after a checkpoint. */
  function StartAfter(checkpoint: Option<int>): int {
    if checkpoint.None? then 0 else checkpoint.value + 1
  }

  /** lag = LEO - (checkpoint + 1); None until a log end is cached. */
  function Lag(e: Entry): Option<int> {
    if e.logEnd.None? then None else Some(e.logEnd.value - StartAfter(e.checkpoint))
  }

  class PartitionStateMachine {
    var entries: map<TP, Entry>

    constructor ()
      ensures entries == map[]
    {
      entries := map[];
    }

    /** The entry that a write to `tp` starts from. */
    function EntryOf(tp: TP): Entry
      reads this
    {
      if tp in entries then entries[tp] else FRESH
    }

    /** `partition_states`. */
    function PartitionStates(): (states: map<TP, PartitionState>)
      reads this
      ensures states.Keys == entries.Keys
      ensures forall tp | tp in states && states[tp].lag.Some? :: states[tp].logEnd.Some?
    {
      map tp | tp in entries :: PartitionState(entries[tp].status, entries[tp].checkpoint, entries[tp].logEnd,
                                               Lag(entries[tp]))
    }

    function StatusOf(tp: TP): Option<Status>
      reads this
    {
      if tp in entries then Some(entries[tp].status) else None
    }

    method Mark(tp: TP, status: Status)
      modifies this
      ensures entries == old(entries)[tp := old(EntryOf(tp)).(status := status)]
    {
      entries := entries[tp := EntryOf(tp).(status := status)];
    }

    method RecordApplied(tp: TP, offset: int)
      modifies this
      ensures entries == old(entries)[tp := Applied(old(EntryOf(tp)), offset)]
    {
      var entry := EntryOf(tp);
      if entry.checkpoint.None? || offset > entry.checkpoint.value {
        entry := entry.(checkpoint := Some(offset));
      }
      entries := entries[tp := entry];
    }

    method RecordClamped(tp: TP, offset: int)
      modifies this
      ensures entries == old(entries)[tp := old(EntryOf(tp)).(checkpoint := Some(offset))]
    {
      entries := entries[tp := EntryOf(tp).(checkpoint := Some(offset))];
    }

    method RecordLogEnd(tp: TP, logEnd: nat)
      modifies this
      ensures entries == old(entries)[tp := old(EntryOf(tp)).(logEnd := Some(logEnd))]
    {
      entries := entries[tp := EntryOf(tp).(logEnd := Some(logEnd))];
    }
  }
}
