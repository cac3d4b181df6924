/** One changelog: what its broker retains, and the part of it a replay has to read. */
module Logs {
  import opened Types
  import opened Tables

  /** Records retained in [start, end); `end` is the log end offset. */
  datatype Log = Log(start: nat, end: nat, records: seq<Record>) {

    predicate Valid() {
      start <= end && Increasing(records) && forall i | 0 <= i < |records| :: start <= records[i].offset < end
    }

    /** A fetch at any other position raises OffsetOutOfRangeError. */
    predicate InRange(position: int) {
      start <= position <= end
    }

    /** The last retained record sits right below the log end (no trailing transaction markers). */
    predicate Tight() {
      if records == [] then start == end else Last(records).offset + 1 == end
    }
  }

  const NEVER_WRITTEN := Log(0, 0, [])

  function LogIn(logs: map<TP, Log>, tp: TP): Log {
    if tp in logs then logs[tp] else NEVER_WRITTEN
  }

  /** The records at or after a position. */
  function From(rs: seq<Record>, position: int): seq<Record> {
    if rs == [] || rs[0].offset >= position then rs else From(rs[1..], position)
  }

  /** The records below a position. */
  function Below(rs: seq<Record>, position: int): seq<Record> {
    if rs == [] || Last(rs).offset < position then rs else Below(DropLast(rs), position)
  }

  function Landed(log: Log, r: Record): Log {
    Log(log.start, r.offset + 1, log.records + [r])
  }

  /** Retention, or DeleteRecords. */
  function Trimmed(log: Log, before: nat): Log {
    Log(Max(log.start, before), log.end, From(log.records, before))
  }

  /** A log-end regression: an unclean truncation, or (keep = 0) a topic deleted and recreated. */
  function Truncated(log: Log, keep: nat): Log {
    Log(if keep < log.start then keep else log.start, keep, Below(log.records, keep))
  }

  /** What a rehydrate that starts from this checkpoint has to replay: everything retained when
      there is no checkpoint or the position after it is out of range, else what follows it. */
  function Todo(log: Log, checkpoint: Option<int>): seq<Record> {
    if checkpoint.None? || !log.InRange(checkpoint.value + 1) then log.records
    else From(log.records, checkpoint.value + 1)
  }

  lemma {:induction false} FromSuffix(rs: seq<Record>, position: int) returns (k: nat)
    requires Increasing(rs)
    ensures k <= |rs| && From(rs, position) == rs[k..]
    ensures forall i | 0 <= i < k :: rs[i].offset < position
    ensures forall i | k <= i < |rs| :: position <= rs[i].offset
  {
    if rs == [] || rs[0].offset >= position {
      k := 0;
    } else {
      var j := FromSuffix(rs[1..], position);
      k := j + 1;
      forall i | 0 <= i < k ensures rs[i].offset < position {
        assert i > 0 ==> rs[1..][i - 1] == rs[i];
      }
      forall i | k <= i < |rs| ensures position <= rs[i].offset {
        assert rs[1..][i - 1] == rs[i];
      }
    }
  }

  lemma {:induction false} BelowPrefix(rs: seq<Record>, position: int) returns (k: nat)
    requires Increasing(rs)
    ensures k <= |rs| && Below(rs, position) == rs[..k]
    ensures forall i | 0 <= i < k :: rs[i].offset < position
    ensures forall i | k <= i < |rs| :: position <= rs[i].offset
  {
    if rs == [] || Last(rs).offset < position {
      k := |rs|;
    } else {
      k := BelowPrefix(DropLast(rs), position);
      assert DropLast(rs)[..k] == rs[..k];
      forall i | k <= i < |rs| ensures position <= rs[i].offset {
        assert i < |rs| - 1 ==> DropLast(rs)[i] == rs[i];
      }
    }
  }

  /** A suffix of an increasing sequence is what lies at or after its first offset, or after any
      position between its neighbours. */
  lemma FromIs(rs: seq<Record>, k: nat, position: int)
    requires Increasing(rs) && k <= |rs|
    requires forall i | 0 <= i < k :: rs[i].offset < position
    requires forall i | k <= i < |rs| :: position <= rs[i].offset
    ensures From(rs, position) == rs[k..]
  {
    var j := FromSuffix(rs, position);
    var atJ := if j < |rs| then rs[j].offset else position;
    var atK := if k < |rs| then rs[k].offset else position;
    assert atJ >= position && atK >= position;
  }

  /** Membership reading of From and Below. */
  lemma FromMembers(rs: seq<Record>, position: int)
    requires Increasing(rs)
    ensures Increasing(From(rs, position))
    ensures forall r :: r in From(rs, position) <==> r in rs && position <= r.offset
  {
    var k := FromSuffix(rs, position);
  }

  lemma BelowMembers(rs: seq<Record>, position: int)
    requires Increasing(rs)
    ensures Increasing(Below(rs, position))
    ensures forall r :: r in Below(rs, position) <==> r in rs && r.offset < position
  {
    var k := BelowPrefix(rs, position);
  }

  /** After a fetched batch the position right behind it sees exactly the rest. */
  lemma FromAdvances(rs: seq<Record>, position: int, n: nat)
    requires Increasing(rs) && 0 < n <= |From(rs, position)|
    ensures From(rs, From(rs, position)[n - 1].offset + 1) == From(rs, position)[n..]
  {
    var k := FromSuffix(rs, position);
    FromIs(rs, k + n, rs[k + n - 1].offset + 1);
  }

  lemma FromStart(log: Log)
    requires log.Valid()
    ensures From(log.records, log.start) == log.records && From(log.records, log.end) == []
  {
    FromIs(log.records, 0, log.start);
    FromIs(log.records, |log.records|, log.end);
  }

  lemma CutsKeepValid(log: Log, kept: seq<Record>, start: nat, end: nat)
    requires log.Valid() && start <= end && Increasing(kept)
    requires forall r | r in kept :: r in log.records && start <= r.offset < end
    ensures Log(start, end, kept).Valid()
  {
    assert forall i | 0 <= i < |kept| :: kept[i] in kept;
  }

  lemma LandKeepsValid(log: Log, r: Record)
    requires log.Valid()
    ensures log.end <= r.offset ==> Landed(log, r).Valid()
  {
  }

  lemma ChangesKeepValid(log: Log, r: Record, offset: nat)
    requires log.Valid()
    ensures log.end <= r.offset ==> Landed(log, r).Valid()
    ensures offset <= log.end ==> Trimmed(log, offset).Valid()
    ensures offset <= log.end ==> Truncated(log, offset).Valid()
  {
    hide From, Below, Increasing;
    LandKeepsValid(log, r);
    FromMembers(log.records, offset);
    BelowMembers(log.records, offset);
    assert forall x | x in log.records :: log.start <= x.offset < log.end;
    if offset <= log.end {
      CutsKeepValid(log, From(log.records, offset), Max(log.start, offset), log.end);
      CutsKeepValid(log, Below(log.records, offset), if offset < log.start then offset else log.start, offset);
    }
  }
}
