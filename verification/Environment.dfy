/** What lies outside the process: the changelogs, the rehydrate consumer that reads them, and the
    clock.  Every answer is nondeterministic within the brokers' contract.  The journal is proof
    bookkeeping: it records each atomic step taken, as a run of the step relation. */
module Environments {
  import opened Types
  import opened Tables
  import opened Logs
  import opened State
  import opened Steps
  import Coverage
  import Visibility
  import Wire

  datatype Ack = Acked(offset: int) | Refused(error: Error)

  /** Copies of one record, one after the other. */
  function LandAll(log: Log, copies: seq<Record>): Log {
    if copies == [] then log else Landed(LandAll(log, DropLast(copies)), Last(copies))
  }

  /** Records of this content, none before `end`. */
  predicate Copies(content: Wire.EncodedRecord, end: nat, copies: seq<Record>) {
    forall i | 0 <= i < |copies| :: end <= copies[i].offset && copies[i] == content.At(copies[i].offset)
  }

  lemma OneMoreCopy(content: Wire.EncodedRecord, log: Log, copies: seq<Record>, r: Record)
    requires Copies(content, log.end, copies) && log.end <= r.offset && r == content.At(r.offset)
    ensures Copies(content, log.end, copies + [r]) && LandAll(log, copies + [r]) == Landed(LandAll(log, copies), r)
  {
    assert DropLast(copies + [r]) == copies;
  }

  lemma NoCopies(content: Wire.EncodedRecord, log: Log)
    ensures Copies(content, log.end, []) && LandAll(log, []) == log
  {
  }

  /** Landing one more copy under a message id keeps ids consistent. */
  ghost predicate MayLand(d: Decoder, held: set<(TP, Record)>, tp: TP, content: Wire.EncodedRecord) {
    && Consistent(d, held)
    && (forall h | h in held :: Agree(d, h, (tp, content.At(0))) && Agree(d, (tp, content.At(0)), h))
    && (forall offset: nat :: d(content.At(offset)) == d(content.At(0)))
  }

  lemma MayLandMeans(d: Decoder, held: set<(TP, Record)>, tp: TP, content: Wire.EncodedRecord, offset: nat)
    requires MayLand(d, held, tp, content)
    ensures Consistent(d, held) && Consistent(d, held + {(tp, content.At(offset))})
  {
    LandsAgain(d, held, tp, content, offset);
  }

  lemma LandsAgain(d: Decoder, held: set<(TP, Record)>, tp: TP, content: Wire.EncodedRecord, offset: nat)
    requires MayLand(d, held, tp, content)
    ensures MayLand(d, held + {(tp, content.At(offset))}, tp, content)
  {
    var copy := (tp, content.At(offset));
    assert d(copy.1) == d(content.At(0));
    forall a, b | a in held + {copy} && b in held + {copy} && d(a.1).Ours? && Carries(d, b.1, d(a.1).id)
      ensures a.0 == b.0 && d(a.1) == d(b.1)
    {
      if a in held && b !in held {
        assert Agree(d, a, (tp, content.At(0)));
      } else if a !in held && b in held {
        assert Agree(d, (tp, content.At(0)), b);
      }
    }
  }

  datatype Poll = Records(batch: seq<Record>) | OffsetOutOfRange | Failed(error: Error)

  /** Fetches; those begun at or after the deadline; out-of-range answers; empty answers; fetches in range
      with nothing left to return; and empty answers where the brokers had something to say. */
  datatype Tally = Tally(fetches: nat, late: nat, resets: nat, empties: nat, starved: nat, withheld: nat)

  function Counted(t: Tally, p: Poll, isLate: bool, isStarved: bool, isOwed: bool): Tally {
    Tally(t.fetches + 1,
          t.late + if isLate then 1 else 0,
          t.resets + if p.OffsetOutOfRange? then 1 else 0,
          t.empties + if p == Records([]) then 1 else 0,
          t.starved + (if isStarved then 1 else 0),
          t.withheld + if p == Records([]) && isOwed then 1 else 0)
  }

  class Environment {
    const parsers: Wire.Parsers
    const decode: Decoder  // what replay makes of a record, with those parsers
    var logs: map<TP, Log>
    var now: int
    var position: int  // of the consumer, in the changelog it is assigned
    var topics: set<string>  // that exist on the brokers

    // what an assignment is measured by
    ghost var deadline: int
    ghost var begun: seq<TP>  // the rehydrates entered, in order
    ghost var tally: Tally
    ghost var faults: seq<Error>  // what brokers, and reads of the database, have raised

    // the journal
    ghost const origin: World
    ghost var run: seq<Event>
    ghost var world: World
    ghost var reassigned: bool  // whether some rehydrate started on a shard that was still owned
    ghost var shown: seq<TP>  // the reveals so far, in order
    ghost var held: set<(TP, Record)>  // every record that any changelog ever held
    ghost var regressed: set<TP>  // shards whose changelog's end has regressed
    ghost var trimmed: set<TP>
    ghost var overtaken: set<(TP, Record)>  // what an append's commit has passed over
    ghost var adrift: set<TP>  // shards whose last clamp was cut off from its write-back, memory above it

    function LogAt(tp: TP): Log
      reads this`logs
    {
      LogIn(logs, tp)
    }

    ghost predicate Journaled()
      reads this`logs, this`run, this`world, this`reassigned, this`shown, this`regressed, this`trimmed
      reads this`overtaken, this`held
    {
      && Legal(decode, origin, run) && world == After(decode, origin, run)
      && (!reassigned ==> Visibility.NeverReassigned(decode, origin, run))
      && shown == Visibility.Reveals(run)
      && Removals(run, regressed, trimmed)
      && overtaken == Coverage.OvertakenIn(decode, origin, run)
      && world.logs == logs && world.held == held
      && forall tp | tp in logs :: logs[tp].Valid()
    }

    constructor (parsers: Wire.Parsers, logs: map<TP, Log>, now: int, topics: set<string>, ghost origin: World)
      requires origin.logs == logs && forall tp | tp in logs :: logs[tp].Valid()
      ensures Journaled() && Wire.Decodes(parsers, decode) && this.parsers == parsers && this.origin == origin == world
      ensures this.logs == logs && this.now == now && this.topics == topics && !reassigned && faults == []
      ensures held == origin.held && run == [] && shown == []
      ensures regressed == {} && trimmed == {} && overtaken == {} && adrift == {}
    {
      this.parsers, this.logs, this.now, this.position, this.origin := parsers, logs, now, 0, origin;
      this.topics, faults, deadline, tally := topics, [], 0, Tally(0, 0, 0, 0, 0, 0);
      run, world, reassigned, shown, begun, adrift := [], origin, false, [], [], {};
      held, regressed, trimmed, overtaken := origin.held, {}, {}, {};
      decode := Wire.DecoderOf(parsers);
    }

    ghost method Note(e: Event)
      requires Journaled() && Enabled(decode, world, e) && !Broker(e)
      requires !(e.Mark? && e.status == RESTORING) && !e.RevealShard? && !e.AppendCommit?
      modifies this`run, this`world
      ensures Journaled() && world == Step(decode, old(world), e) && run == old(run) + [e]
    {
      Snoc(e);
      OnlyBrokersMoveLogs(decode, world, e);
      assert DropLast(run + [e]) == run;
      world := Step(decode, world, e);
      run := run + [e];
    }

    /** The commit of an append, with what it passes over. */
    ghost method NoteAppend(tp: TP, r: Record)
      requires Journaled() && Enabled(decode, world, AppendCommit(tp, r))
      modifies this`run, this`world, this`overtaken
      ensures Journaled() && world == Step(decode, old(world), AppendCommit(tp, r))
      ensures run == old(run) + [AppendCommit(tp, r)]
      ensures overtaken == old(overtaken) + Coverage.Overtaken(decode, old(world), AppendCommit(tp, r))
    {
      var e := AppendCommit(tp, r);
      Snoc(e);
      OnlyBrokersMoveLogs(decode, world, e);
      assert DropLast(run + [e]) == run;
      overtaken := overtaken + Coverage.Overtaken(decode, world, e);
      world := Step(decode, world, e);
      run := run + [e];
    }

    /** The journal, one step further. */
    lemma Snoc(e: Event)
      requires Journaled() && Enabled(decode, world, e)
      ensures Legal(decode, origin, run + [e])
      ensures After(decode, origin, run + [e]) == Step(decode, world, e)
      ensures Coverage.OvertakenIn(decode, origin, run + [e]) == overtaken + Coverage.Overtaken(decode, world, e)
      ensures !e.AppendCommit? ==> Coverage.OvertakenIn(decode, origin, run + [e]) == overtaken
      ensures Removals(run + [e], regressed + if e.Truncate? then {e.tp} else {},
                       trimmed + if e.Trim? then {e.tp} else {})
      ensures !e.Truncate? && !e.Trim? ==> Removals(run + [e], regressed, trimmed)
    {
      RunSnoc(decode, origin, run, e);
      Coverage.OvertakenSnoc(decode, origin, run, e);
      RemovalsSnoc(run, e, regressed, trimmed);
    }

    ghost method NoteRestoring(tp: TP)
      requires Journaled()
      modifies this`run, this`world, this`reassigned
      ensures Journaled() && world == Step(decode, old(world), Mark(tp, RESTORING))
      ensures run == old(run) + [Mark(tp, RESTORING)]
      ensures reassigned <==> old(reassigned) || tp in old(world).tables.owned
    {
      var e := Mark(tp, RESTORING);
      Snoc(e);
      assert DropLast(run + [e]) == run;
      reassigned := reassigned || tp in world.tables.owned;
      world := Step(decode, world, e);
      run := run + [e];
    }

    ghost method NoteReveal(tp: TP)
      requires Journaled() && Enabled(decode, world, RevealShard(tp))
      modifies this`run, this`world, this`shown
      ensures Journaled() && world == Step(decode, old(world), RevealShard(tp)) && run == old(run) + [RevealShard(tp)]
      ensures shown == old(shown) + [tp]
    {
      var e := RevealShard(tp);
      Snoc(e);
      assert DropLast(run + [e]) == run;
      world := Step(decode, world, e);
      run := run + [e];
      shown := shown + [tp];
    }

    /** The brokers act: a record lands, retention trims, a log end regresses. */
    method BrokerActs(e: Event)
      requires Journaled() && Broker(e) && Enabled(decode, world, e)
      modifies this`logs, this`run, this`world, this`held, this`regressed, this`trimmed
      ensures Journaled() && world == Step(decode, old(world), e) && run == old(run) + [e]
      ensures held == old(held) + if e.Land? then {(e.tp, e.r)} else {}
      ensures regressed == old(regressed) + if e.Truncate? then {e.tp} else {}
      ensures trimmed == old(trimmed) + if e.Trim? then {e.tp} else {}
    {
      hide Journaled, Step, Enabled;
      if e.Land? {
        RecordLands(e.tp, e.r);
      } else {
        Removes(e);
      }
    }

    /** A record lands. */
    method RecordLands(tp: TP, r: Record)
      requires Journaled() && Enabled(decode, world, Land(tp, r))
      modifies this`logs, this`run, this`world, this`held
      ensures Journaled() && world == Step(decode, old(world), Land(tp, r)) && run == old(run) + [Land(tp, r)]
      ensures held == old(held) + {(tp, r)}
    {
      hide From, Below, Consistent, Removals;
      ghost var e := Land(tp, r);
      Snoc(e);
      OnlyBrokersMoveLogs(decode, world, e);
      BrokerStep(decode, world, e);
      assert DropLast(run + [e]) == run;
      world := Step(decode, world, e);
      run := run + [e];
      logs := logs[tp := Landed(LogAt(tp), r)];
      held := held + {(tp, r)};
    }

    /** A trim, or a log end that regresses. */
    method Removes(e: Event)
      requires Journaled() && (e.Trim? || e.Truncate?) && Enabled(decode, world, e)
      modifies this`logs, this`run, this`world, this`regressed, this`trimmed
      ensures Journaled() && world == Step(decode, old(world), e) && run == old(run) + [e]
      ensures regressed == old(regressed) + if e.Truncate? then {e.tp} else {}
      ensures trimmed == old(trimmed) + if e.Trim? then {e.tp} else {}
    {
      hide From, Below, Consistent, Removals, Legal, After, Trimmed, Truncated, Coverage.OvertakenIn, Step, Enabled;
      hide Visibility.NeverReassigned, Visibility.Reveals;
      Snoc(e);
      Quietly(e);
      RemovesFrom(e, LogAt(e.tp));
      world := Step(decode, world, e);
      run := run + [e];
      regressed := regressed + if e.Truncate? then {e.tp} else {};
      trimmed := trimmed + if e.Trim? then {e.tp} else {};
      var log := LogAt(e.tp);
      logs := logs[e.tp := if e.Trim? then Trimmed(log, e.offset) else Truncated(log, e.offset)];
    }

    /** A step that neither re-marks nor reveals leaves what is on record about both. */
    lemma Quietly(e: Event)
      requires Journaled() && Enabled(decode, world, e) && !e.Mark? && !e.RevealShard?
      ensures Legal(decode, origin, run + [e])
      ensures Visibility.Reveals(run + [e]) == shown
      ensures !reassigned ==> Visibility.NeverReassigned(decode, origin, run + [e])
    {
      RunSnoc(decode, origin, run, e);
      assert DropLast(run + [e]) == run;
    }

    lemma RemovesFrom(e: Event, log: Log)
      requires Journaled() && (e.Trim? || e.Truncate?) && Enabled(decode, world, e) && log == LogAt(e.tp)
      ensures var log' := if e.Trim? then Trimmed(log, e.offset) else Truncated(log, e.offset);
              log'.Valid() && Step(decode, world, e) == world.(logs := logs[e.tp := log'])
    {
      BrokerStep(decode, world, e);
    }

    /** Time passes at every await. */
    method Pass()
      modifies this`now
      ensures now >= old(now)
    {
      var d: int := *;
      if d > 0 {
        now := now + d;
      }
    }

    /** Whether a call to a broker fails, and how. */
    method KafkaTrouble() returns (e: Option<Error>)
      modifies this`faults
      ensures e.Some? ==> e.value in {KafkaError, Cancelled}
      ensures faults == if e.Some? then old(faults) + [e.value] else old(faults)
    {
      var fails, kafka: bool := *, *;
      e := if !fails then None else if kafka then Some(KafkaError) else Some(Cancelled);
      faults := if e.Some? then faults + [e.value] else faults;
    }

    /** Whether a read of the database fails. */
    method ReadTrouble() returns (e: Option<Error>)
      modifies this`faults
      ensures e.Some? ==> e.value in {StorageError, Cancelled}
      ensures faults == if e.Some? then old(faults) + [e.value] else old(faults)
    {
      var fails, storage: bool := *, *;
      e := if !fails then None else if storage then Some(StorageError) else Some(Cancelled);
      faults := if e.Some? then faults + [e.value] else faults;
    }

    method EndOffset(tp: TP) returns (r: Result<nat>)
      modifies this`now, this`faults
      ensures faults == if r.Err? then old(faults) + [r.error] else old(faults)
      ensures now >= old(now)
      ensures r.Ok? ==> r.value == LogAt(tp).end
      ensures r.Err? ==> r.error in {KafkaError, Cancelled}
    {
      Pass();
      var e := KafkaTrouble();
      r := if e.Some? then Err(e.value) else Ok(LogAt(tp).end);
    }

    method BeginningOffset(tp: TP) returns (r: Result<nat>)
      modifies this`now, this`faults
      ensures faults == if r.Err? then old(faults) + [r.error] else old(faults)
      ensures now >= old(now)
      ensures r.Ok? ==> r.value == LogAt(tp).start
      ensures r.Err? ==> r.error in {KafkaError, Cancelled}
    {
      Pass();
      var e := KafkaTrouble();
      r := if e.Some? then Err(e.value) else Ok(LogAt(tp).start);
    }

    lemma SameLogs()
      requires Journaled()
      ensures world.logs == logs && world.held == held
    {
    }

    /** One copy lands, at the log end or, when others have written meanwhile, further on. */
    method LandCopy(tp: TP, content: Wire.EncodedRecord) returns (r: Record)
      requires Journaled() && MayLand(decode, held, tp, content)
      modifies this`logs, this`run, this`world, this`held
      ensures Journaled() && old(run) <= run && MayLand(decode, held, tp, content)
      ensures old(LogAt(tp)).end <= r.offset && r == content.At(r.offset)
      ensures LogAt(tp) == Landed(old(LogAt(tp)), r) && logs == old(logs)[tp := LogAt(tp)]
      ensures world == old(world).(logs := logs, held := held) && held == old(held) + {(tp, r)}
    {
      hide MayLand;
      var gap: int := *;
      r := content.At(LogAt(tp).end + if gap > 0 then gap else 0);
      LandsAgain(decode, held, tp, content, r.offset);
      MayLandMeans(decode, held, tp, content, r.offset);
      RecordLands(tp, r);
    }

    /** Produce one record and wait for the ack.  Retries inside the producer may land several copies;
        the ack names the last, or no usable offset; and a failure says nothing about what landed. */
    method SendAndWait(tp: TP, content: Wire.EncodedRecord) returns (ack: Ack, ghost copies: seq<Record>)
      requires Journaled() && MayLand(decode, held, tp, content)
      modifies this`now, this`logs, this`run, this`world, this`held, this`faults
      ensures Journaled() && now >= old(now) && old(run) <= run
      ensures MayLand(decode, held, tp, content)
      ensures Copies(content, old(LogAt(tp)).end, copies)
      ensures logs == if copies == [] then old(logs) else old(logs)[tp := LandAll(old(LogAt(tp)), copies)]
      ensures forall r | r in copies :: (tp, r) in held
      ensures world == old(world).(logs := logs, held := held)
      ensures held == old(held) + set r | r in copies :: (tp, r)
      ensures ack.Acked? && 0 <= ack.offset ==> copies != [] && ack.offset == Last(copies).offset
      ensures ack.Refused? ==> ack.error in {KafkaError, Cancelled}
      ensures faults == if ack.Refused? then old(faults) + [ack.error] else old(faults)
    {
      hide Journaled, MayLand, LandAll, Copies;
      SameLogs();
      NoCopies(content, LogAt(tp));
      Pass();
      copies := [];
      var attempts: int, last, landed := *, 0, false;
      while attempts > 0
        invariant Journaled() && now >= old(now) && old(run) <= run && MayLand(decode, held, tp, content)
        invariant Copies(content, old(LogAt(tp)).end, copies) && old(LogAt(tp)).end <= LogAt(tp).end
        invariant logs == if copies == [] then old(logs) else old(logs)[tp := LandAll(old(LogAt(tp)), copies)]
        invariant forall r | r in copies :: (tp, r) in held
        invariant world == old(world).(logs := logs, held := held)
        invariant held == old(held) + set r | r in copies :: (tp, r)
        invariant (landed <==> copies != []) && faults == old(faults)
        invariant landed ==> last == Last(copies).offset
      {
        var r := LandCopy(tp, content);
        OneMoreCopy(content, old(LogAt(tp)), copies, r);
        copies, last, landed := copies + [r], r.offset, true;
        attempts := attempts - 1;
      }
      var e := KafkaTrouble();
      var usable: bool := *;
      if e.Some? || !landed {
        ack := Refused(if e.Some? then e.value else KafkaError);
        faults := if e.Some? then faults else faults + [KafkaError];
      } else {
        ack := Acked(if usable then last else -1);
      }
    }

    /** Never raises: an impossible position shows at the fetch. */
    method Seek(offset: int)
      modifies this`position
      ensures position == offset
    {
      position := offset;
    }

    method SeekToStart(tp: TP) returns (r: Result<()>)
      modifies this`now, this`position, this`faults
      ensures faults == if r.Err? then old(faults) + [r.error] else old(faults)
      ensures now >= old(now)
      ensures r.Ok? ==> position == LogAt(tp).start
      ensures r.Err? ==> position == old(position) && r.error in {KafkaError, Cancelled}
    {
      Pass();
      var e := KafkaTrouble();
      if e.Some? {
        return Err(e.value);
      }
      position := LogAt(tp).start;
      r := Ok(());
    }

    /** One fetch.  It may fail, or come back empty after waiting in vain, at any moment; it raises
        out-of-range only when the position is; otherwise it returns the next retained records, some
        of them, and may do so at once from what it has prefetched. */
    method GetMany(tp: TP, max: nat) returns (p: Poll)
      modifies this`now, this`position, this`tally, this`faults
      ensures now >= old(now) && (p == Records([]) ==> now > old(now))
      ensures var available, inRange := From(LogAt(tp).records, old(position)), LogAt(tp).InRange(old(position));
              tally == Counted(old(tally), p, old(now) >= deadline, inRange && available == [],
                               max > 0 && (inRange ==> available != []))
      ensures p.Failed? ==> p.error in {KafkaError, Cancelled}
      ensures faults == if p.Failed? then old(faults) + [p.error] else old(faults)
      ensures p.OffsetOutOfRange? ==> old(position) < LogAt(tp).start || LogAt(tp).end < old(position)
      ensures p.Records? ==> |p.batch| <= max && p.batch <= From(LogAt(tp).records, old(position))
      ensures p.Records? && p.batch != [] ==>
                LogAt(tp).start <= old(position) <= LogAt(tp).end && position == Last(p.batch).offset + 1
      ensures !p.Records? || p.batch == [] ==> position == old(position)
    {
      var available, inRange := From(LogAt(tp).records, position), LogAt(tp).InRange(position);
      var e := KafkaTrouble();
      p := if e.Some? then Failed(e.value) else OffsetOutOfRange;
      if e.None? {
        p := Answer(available, inRange, max);
      }
      tally := Counted(tally, p, now >= deadline, inRange && available == [], max > 0 && (inRange ==> available != []));
      if p.Records? && p.batch != [] {
        position := Last(p.batch).offset + 1;
      }
      Pass();
      if p == Records([]) {
        now := now + 1;
      }
    }
  }

  /** What a broker may answer to a fetch. */
  method Answer(available: seq<Record>, inRange: bool, max: nat) returns (p: Poll)
    ensures !p.Failed?
    ensures p.OffsetOutOfRange? ==> !inRange
    ensures p.Records? ==> |p.batch| <= max && p.batch <= available
    ensures p.Records? && p.batch != [] ==> inRange
  {
    var raises: bool, n: int := *, *;
    if raises && !inRange {
      p := OffsetOutOfRange;
    } else if inRange && 0 < n <= max && n <= |available| {
      p := Records(available[..n]);
    } else {
      p := Records([]);
    }
  }
}
