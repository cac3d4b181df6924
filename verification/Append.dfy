/** The append: produce, then commit, then write back. */
module Append {
  import opened Types
  import opened Tables
  import opened Logs
  import opened State
  import opened Steps
  import opened Txn
  import opened Environments
  import opened Process
  import Coverage
  import Names
  import Utf8
  import Wire

  /** Non-empty and UTF-8-encodable. */
  predicate ValidKey(key: Text) {
    key != [] && Utf8.Encode(key).Some?
  }

  lemma Refusals(p: Wire.Parsers, d: Decoder, held: set<(TP, Record)>, source: TP, key: Text, payload: Wire.Payload,
                 id: Text)
    requires Unused(d, held, id)
    ensures Consistent(d, held)
    ensures ValidKey(key) <==> key != [] && Utf8.Encodable(key)
    ensures Wire.EncodeRecord(p, key, payload, id).Some? <==>
              && Utf8.Encodable(key) && Utf8.Encodable(id)
              && match payload
                 case JsonText(text) => p.isJson(text) && Utf8.Encodable(text)
                 case Object(dumped) => dumped.Some? && Utf8.Encodable(dumped.value)
    ensures Names.ChangelogName(source).Err? ==> Names.ChangelogName(source).error == ConfigError
  {
  }

  /** The entry that a first append leaves. */
  lemma FirstEntry(offset: nat)
    ensures Applied(FRESH, offset) == Entry(STANDBY, Some(offset), None)
  {
  }

  lemma UntouchedToll(e: Error, t: Toll, t': Toll)
    ensures Blame(e, t, t') ==> t' != t && e in {Busy, Sqlite, StorageError, Cancelled}
  {
  }

  /** No record anywhere carries this id: the generator does not repeat itself. */
  ghost predicate Unused(d: Decoder, held: set<(TP, Record)>, id: Text) {
    Consistent(d, held) && forall h | h in held :: !Carries(d, h.1, id)
  }

  /** `apply_materialization`: the row, then its offset. */
  function Materialization(source: TP, offset: nat, key: Text, payload: Text, id: Text): seq<Stmt> {
    [InsertRecord(id, source, offset, key, payload), UpsertCheckpoint(source, offset)]
  }

  /** What replay makes of a record that append produced. */
  lemma JudgeEncode(p: Wire.Parsers, d: Decoder, key: Text, payload: Wire.Payload, id: Text, offset: nat)
    requires Wire.Decodes(p, d) && Wire.EncodeRecord(p, key, payload, id).Some? && p.isUuid(id)
    ensures var content := Wire.EncodeRecord(p, key, payload, id).value;
            var text := Wire.SerializePayload(p, payload).value;
            && d(content.At(offset)) ==
                 (if p.json(text).None? then Poison(Sqlite) else Ours(id, key, p.json(text).value))
            && Utf8.Decode(content.value) == Some(text)
  {
    var content := Wire.EncodeRecord(p, key, payload, id).value;
    Wire.ClassifyEncode(p, key, payload, id, offset, content.headers, []);
    assert d(content.At(offset)) == Wire.Judge(p, content.At(offset));
  }

  /** An append may be accepted and produced although no replay can read its record: exactly if SQLite
      refuses the payload that `json.loads` has accepted. */
  lemma AcceptedYetUnreadable(p: Wire.Parsers, d: Decoder, source: TP, key: Text, payload: Wire.Payload, id: Text,
                              offset: nat)
    requires Wire.Decodes(p, d) && p.isUuid(id)
    requires ValidKey(key) && Wire.EncodeRecord(p, key, payload, id).Some? && Names.ChangelogName(source).Ok?
    ensures var content := Wire.EncodeRecord(p, key, payload, id).value;
            && !d(content.At(offset)).Foreign?
            && (d(content.At(offset)).Poison? <==> p.json(Wire.SerializePayload(p, payload).value).None?)
  {
    JudgeEncode(p, d, key, payload, id, offset);
  }

  lemma UnusedMayLand(p: Wire.Parsers, d: Decoder, held: set<(TP, Record)>, tp: TP, key: Text,
                      payload: Wire.Payload, id: Text)
    requires Wire.Decodes(p, d) && Wire.EncodeRecord(p, key, payload, id).Some? && p.isUuid(id)
    requires Unused(d, held, id)
    ensures MayLand(d, held, tp, Wire.EncodeRecord(p, key, payload, id).value)
  {
    var content := Wire.EncodeRecord(p, key, payload, id).value;
    forall offset: nat ensures d(content.At(offset)) == d(content.At(0)) {
      JudgeEncode(p, d, key, payload, id, offset);
      JudgeEncode(p, d, key, payload, id, 0);
    }
    JudgeEncode(p, d, key, payload, id, 0);
    forall h | h in held ensures Agree(d, h, (tp, content.At(0))) && Agree(d, (tp, content.At(0)), h) {
      assert !Carries(d, h.1, id);
    }
  }

  /** The append path and the replay path are the same: committing an append is replaying the record
      it landed; if SQLite cannot normalize the payload it is refused, where replay would raise. */
  lemma AppendIsReplay(p: Wire.Parsers, d: Decoder, t: Tables, source: TP, key: Text, payload: Wire.Payload,
                       id: Text, offset: nat)
    requires Wire.Decodes(p, d) && Wire.EncodeRecord(p, key, payload, id).Some? && p.isUuid(id)
    ensures var r := Wire.EncodeRecord(p, key, payload, id).value.At(offset);
            var text := Wire.SerializePayload(p, payload).value;
            RunWork(p.json, t, Materialization(source, offset, key, text, id)) ==
              if d(r).Ours? then Ok(Replay(d, t, source, [r])) else Err(Sqlite)
  {
    var r := Wire.EncodeRecord(p, key, payload, id).value.At(offset);
    var text := Wire.SerializePayload(p, payload).value;
    JudgeEncode(p, d, key, payload, id, offset);
    var insert, upsert := InsertRecord(id, source, offset, key, text), UpsertCheckpoint(source, offset);
    assert [insert, upsert] == [insert] + [upsert];
    RunOne(p.json, t, insert);
    RunSnoc1(p.json, t, [insert], upsert);
    assert DropLast([r]) == [];
  }

  lemma EveryAppendIsReplay(p: Wire.Parsers, d: Decoder, source: TP, key: Text, payload: Wire.Payload, id: Text,
                            content: Wire.EncodedRecord, copies: seq<Record>)
    requires Wire.Decodes(p, d) && Wire.EncodeRecord(p, key, payload, id) == Some(content) && p.isUuid(id)
    requires copies != [] && exists end :: Copies(content, end, copies)
    ensures Utf8.Decode(content.value).Some? && Utf8.Decode(content.value) == Wire.SerializePayload(p, payload)
    ensures var r, text := Last(copies), Wire.SerializePayload(p, payload).value;
            forall t {:trigger RunWork(p.json, t, Materialization(source, r.offset, key, text, id))} ::
              RunWork(p.json, t, Materialization(source, r.offset, key, text, id)) ==
                if d(r).Ours? then Ok(Replay(d, t, source, [r])) else Err(Sqlite)
  {
    var r, text := Last(copies), Wire.SerializePayload(p, payload).value;
    assert r == content.At(r.offset);
    JudgeEncode(p, d, key, payload, id, r.offset);
    forall t ensures RunWork(p.json, t, Materialization(source, r.offset, key, text, id)) ==
                       if d(r).Ours? then Ok(Replay(d, t, source, [r])) else Err(Sqlite)
    {
      AppendIsReplay(p, d, t, source, key, payload, id, r.offset);
    }
  }

  /** A committed append of the only writer leaves the three where they belong. */
  lemma StaysInSync(d: Decoder, log: Log, t: Tables, entries: map<TP, Entry>, tp: TP,
                    content: Wire.EncodedRecord, copies: seq<Record>)
    requires copies != [] && Copies(content, log.end, copies)
    ensures InSync(log, t, entries, tp) ==>
              var was := if tp in entries then entries[tp] else FRESH;
              var entry := Applied(was, Last(copies).offset);
              && InSync(LandAll(log, copies), Replay(d, t, tp, [Last(copies)]), entries[tp := entry], tp)
              && entry.logEnd.Some? && Lag(entry) == Some(entry.logEnd.value - LandAll(log, copies).end)
  {
    assert DropLast([Last(copies)]) == [];
    assert log.end <= Last(copies).offset;
  }

  /** The journal of a commit: the row and offset, then the entry if memory had none. */
  lemma CommitNoted(d: Decoder, entries: map<TP, Entry>, w: World, adrift: set<TP>, tp: TP, r: Record)
    requires InStep(entries, w.tables, w, adrift) && (tp, r) in w.held && d(r).Ours?
    ensures Enabled(d, w, AppendCommit(tp, r))
    ensures var w' := Step(d, w, AppendCommit(tp, r));
            && w' == w.(tables := Replay(d, w.tables, tp, [r]))
            && (tp !in entries ==> Enabled(d, w', Mark(tp, STANDBY)))
            && (tp !in entries ==> Step(d, w', Mark(tp, STANDBY)) == w'.(status := w.status[tp := STANDBY]))
  {
    assert DropLast([r]) == [];
  }

  /** What the commit passes over, told from the world after it. */
  lemma PassedBy(d: Decoder, w: World, tp: TP, r: Record, w': World)
    requires Enabled(d, w, AppendCommit(tp, r)) && w'.logs == w.logs && w'.tables == Replay(d, w.tables, tp, [r])
    ensures Coverage.Overtaken(d, w, AppendCommit(tp, r)) == Coverage.Passed(d, w', tp, r.offset)
  {
    assert DropLast([r]) == [];
    assert Step(d, w, AppendCommit(tp, r)).tables == w'.tables;
  }

  lemma {:induction false} LandAllRecords(log: Log, copies: seq<Record>)
    ensures LandAll(log, copies).records == log.records + copies
  {
    if copies != [] {
      LandAllRecords(log, DropLast(copies));
      assert DropLast(copies) + [Last(copies)] == copies;
    }
  }

  /** Copies of a record that is ours are all ours, with its id. */
  lemma CopiesCarry(p: Wire.Parsers, d: Decoder, key: Text, payload: Wire.Payload, id: Text, end: nat,
                    copies: seq<Record>)
    requires Wire.Decodes(p, d) && Wire.EncodeRecord(p, key, payload, id).Some? && p.isUuid(id)
    requires Copies(Wire.EncodeRecord(p, key, payload, id).value, end, copies)
    requires copies != [] && d(Last(copies)).Ours?
    ensures forall r | r in copies :: Carries(d, r, id)
  {
    JudgeEncode(p, d, key, payload, id, Last(copies).offset);
    forall r | r in copies ensures Carries(d, r, id) {
      JudgeEncode(p, d, key, payload, id, r.offset);
    }
  }

  /** An append passes over nothing if all that its changelog retained before it was committed. */
  lemma AwaitedPassesNone(d: Decoder, origin: World, run: seq<Event>, w: World, w': World, tp: TP, id: Text,
                          copies: seq<Record>, run': seq<Event>)
    requires Initial(d, origin) && Legal(d, origin, run) && w == After(d, origin, run) && NoTruncation(run, tp)
    requires Legal(d, origin, run') && w' == After(d, origin, run')
    requires Coverage.NoneOvertaken(d, origin, run, tp) && Coverage.AllCommitted(d, w, tp, id)
    requires copies != [] && forall r | r in copies :: Carries(d, r, id)
    requires LogOf(w', tp) == LandAll(LogOf(w, tp), copies)
    requires w'.tables == Replay(d, w.tables, tp, [Last(copies)])
    ensures Coverage.Passed(d, w', tp, Last(copies).offset) == {}
  {
    hide LandAll, Initial, Legal, After, Coverage.OvertakenIn;
    Coverage.TotalCoverage(d, origin, run, w, tp);
    InitialProvenance(d, origin);
    Steps.NothingInvented(d, origin, run');
    LandAllRecords(LogOf(w, tp), copies);
    ReplayRows(d, w.tables, tp, [Last(copies)]);
    assert id in w'.tables.records by {
      assert Carries(d, [Last(copies)][0], id);
    }
    forall r | r in LogOf(w', tp).records && !d(r).Foreign? ensures Coverage.HasRow(d, w', tp, r) {
      if Carries(d, r, id) {
        assert tp in w'.logs;
        Coverage.RowIsOurs(d, w', tp, r);
      } else {
        assert r in LogOf(w, tp).records && Coverage.HasRow(d, w, tp, r);
      }
    }
  }

  predicate Appended(p: Wire.Parsers, row: Row, source: TP, offset: nat, key: Text, payload: Wire.Payload) {
    && row.tp == source && row.offset == offset && row.key == key
    && match payload
       case JsonText(text) => p.json(text) == Some(row.payload)
       case Object(dumped) => dumped.Some? && p.json(dumped.value) == Some(row.payload)
  }

  lemma AppendedRow(p: Wire.Parsers, d: Decoder, t: Tables, source: TP, key: Text, payload: Wire.Payload, id: Text,
                    end: nat, copies: seq<Record>)
    requires Wire.Decodes(p, d) && Wire.EncodeRecord(p, key, payload, id).Some? && p.isUuid(id)
    requires Copies(Wire.EncodeRecord(p, key, payload, id).value, end, copies)
    requires copies != [] && d(Last(copies)).Ours?
    ensures var records := Replay(d, t, source, [Last(copies)]).records;
            && id in records
            && (id !in t.records ==> Appended(p, records[id], source, Last(copies).offset, key, payload))
  {
    JudgeEncode(p, d, key, payload, id, Last(copies).offset);
    assert DropLast([Last(copies)]) == [];
  }

  lemma AwaitedSpares(p: Wire.Parsers, d: Decoder, origin: World, run: seq<Event>, w: World, run': seq<Event>,
                      w': World, tp: TP, key: Text, payload: Wire.Payload, id: Text, copies: seq<Record>)
    requires Wire.Decodes(p, d) && Wire.EncodeRecord(p, key, payload, id).Some? && p.isUuid(id)
    requires Copies(Wire.EncodeRecord(p, key, payload, id).value, LogOf(w, tp).end, copies)
    requires Legal(d, origin, run) && w == After(d, origin, run)
    requires Legal(d, origin, run') && w' == After(d, origin, run')
    requires copies != [] && d(Last(copies)).Ours?
    requires LogOf(w', tp) == LandAll(LogOf(w, tp), copies)
    requires w'.tables == Replay(d, w.tables, tp, [Last(copies)])
    ensures Initial(d, origin) && NoTruncation(run, tp) && Coverage.NoneOvertaken(d, origin, run, tp)
            && Coverage.AllCommitted(d, w, tp, id) ==>
              Coverage.Passed(d, w', tp, Last(copies).offset) == {}
  {
    hide *;
    CopiesCarry(p, d, key, payload, id, LogOf(w, tp).end, copies);
    if Initial(d, origin) && NoTruncation(run, tp) && Coverage.NoneOvertaken(d, origin, run, tp)
       && Coverage.AllCommitted(d, w, tp, id) {
      AwaitedPassesNone(d, origin, run, w, w', tp, id, copies, run');
    }
  }

  lemma WrittenBack(d: Decoder, entries: map<TP, Entry>, w: World, adrift: set<TP>, tp: TP, r: Record, w': World)
    requires InStep(entries, w.tables, w, adrift)
    requires w'.tables == Replay(d, w.tables, tp, [r])
    requires w'.status == if tp in entries then w.status else w.status[tp := STANDBY]
    ensures var entry := if tp in entries then entries[tp] else FRESH;
            InStep(entries[tp := Applied(entry, r.offset)], w'.tables, w', adrift)
  {
    hide InStep, Replay, CommitBatch;
    BatchRefinesReplay(d, w.tables, tp, [r]);
    var before := w.(status := w'.status);
    if tp in entries {
      CommitInStep(d, entries, w, w', adrift, tp, [r]);
    } else {
      EntryInStep(entries, w.tables, w, adrift, tp, FRESH, before);
      CommitInStep(d, entries[tp := FRESH], before, w', adrift, tp, [r]);
      var entry := Applied(FRESH, r.offset);
      assert entries[tp := FRESH][tp := entry] == entries[tp := entry];
    }
  }

  lemma NotWrittenBack(d: Decoder, entries: map<TP, Entry>, w: World, adrift: set<TP>, tp: TP, r: Record, w': World)
    requires InStep(entries, w.tables, w, adrift)
    requires w'.tables == Replay(d, w.tables, tp, [r]) && w'.status == w.status
    ensures InStep(entries, w'.tables, w', adrift)
  {
    hide InStep, Replay, CommitBatch;
    BatchRefinesReplay(d, w.tables, tp, [r]);
    CommitCutOff(d, entries, w, w', adrift, tp, [r]);
  }

  class Appender {
    const env: Environment
    const conn: Connection
    const state: PartitionStateMachine

    constructor (env: Environment, conn: Connection, state: PartitionStateMachine)
      ensures this.env == env && this.conn == conn && this.state == state
    {
      this.env, this.conn, this.state := env, conn, state;
    }

    ghost predicate Valid()
      reads this, env`logs, env`run, env`world, env`reassigned, env`shown, env`regressed, env`trimmed
      reads env`overtaken, env`held, env`adrift, conn, state
    {
      Coherent(env, conn, state)
    }

    lemma Means()
      ensures Valid() <==> Coherent(env, conn, state)
    {
    }

    /** The local half: one transaction, then the monotonic write-back. */
    method Materialize(source: TP, offset: nat, key: Text, text: Text, id: Text, ghost r: Record)
      returns (done: Result<()>)
      requires Valid() && (source, r) in env.held && r.offset == offset
      requires forall t {:trigger RunWork(env.parsers.json, t, Materialization(source, offset, key, text, id))} ::
                 RunWork(env.parsers.json, t, Materialization(source, offset, key, text, id)) ==
                   if env.decode(r).Ours? then Ok(Replay(env.decode, t, source, [r])) else Err(Sqlite)
      modifies env`now, env`run, env`world, env`overtaken, conn, state
      ensures Valid() && env.now >= old(env.now) && old(env.run) <= env.run
      ensures if done.Ok? || conn.severed.TookEffect?
              then env.decode(r).Ours? && conn.committed == Replay(env.decode, old(conn.committed), source, [r])
              else conn.committed == old(conn.committed)
      ensures env.overtaken == old(env.overtaken) +
                if done.Ok? || conn.severed.TookEffect? then Coverage.Passed(env.decode, env.world, source, offset)
                else {}
      ensures env.world.logs == old(env.world.logs)
      ensures state.entries ==
                if done.Ok? then old(state.entries)[source := Applied(old(state.EntryOf(source)), offset)]
                else old(state.entries)
      // it fails only if an await did, or SQLite refuses the payload
      ensures done.Ok? ==> Quiet(old(Book(env, conn)), Book(env, conn))
      ensures done.Err? ==>
                || Explained(done.error, old(Book(env, conn)), Book(env, conn))
                || (Quiet(old(Book(env, conn)), Book(env, conn)) && !env.decode(r).Ours? && done.error == StorageError)
      ensures conn.severed.TookEffect? ==> done == Err(Cancelled)
    {
      hide InStep, Environment.Journaled, Enabled, Step, Replay, Materialization, Coverage.Overtaken, Coverage.Passed;
      hide Wire.Decodes, RunWork, CommitBatch, Coverage.OvertakenIn, Coverage.NoneOvertaken, NoTruncation, LogIn;
      Agreed(source);
      done := Transact(env, conn, Materialization(source, offset, key, text, id));
      if done.Ok? || conn.severed.TookEffect? {
        CommitNoted(env.decode, state.entries, env.world, env.adrift, source, r);
        env.NoteAppend(source, r);
      }
      if done.Ok? {
        ghost var unseen := source !in state.entries;
        if unseen {
          env.Note(Mark(source, STANDBY));
        }
        WrittenBack(env.decode, state.entries, old(env.world), env.adrift, source, r, env.world);
        state.RecordApplied(source, offset);
      } else if conn.severed.TookEffect? {
        NotWrittenBack(env.decode, state.entries, old(env.world), env.adrift, source, r, env.world);
      }
      if done.Ok? || conn.severed.TookEffect? {
        PassedBy(env.decode, old(env.world), source, r, env.world);
      }
    }

    /** The changelog half, with the errors it is reported by. */
    method Produce(source: TP, content: Wire.EncodedRecord, ghost key: Text, ghost payload: Wire.Payload,
                   ghost id: Text)
      returns (r: Result<nat>, ghost copies: seq<Record>, ghost ack: Ack)
      requires Valid() && env.parsers.isUuid(id) && Unused(env.decode, env.held, id)
      requires Wire.EncodeRecord(env.parsers, key, payload, id) == Some(content)
      modifies env`now, env`faults, env`logs, env`run, env`world, env`held
      ensures Valid() && env.now >= old(env.now) && old(env.run) <= env.run && Consistent(env.decode, env.held)
      ensures env.held == old(env.held) + set r | r in copies :: (source, r)
      ensures Copies(content, old(env.LogAt(source)).end, copies)
      ensures env.logs ==
                if copies == [] then old(env.logs) else old(env.logs)[source := LandAll(old(env.LogAt(source)), copies)]
      ensures r.Ok? ==> copies != [] && r.value == Last(copies).offset && (source, Last(copies)) in env.held
      // the offset 0 is as good as any; no offset, or a broker that fails, is ChangelogProduceError
      ensures r.Ok? <==> ack.Acked? && 0 <= ack.offset
      ensures r.Ok? ==> r.value == ack.offset
      ensures r == Err(ChangelogProduceError) <==> ack == Refused(KafkaError) || (ack.Acked? && ack.offset < 0)
      ensures r.Err? && r.error != ChangelogProduceError ==> ack == Refused(Cancelled) && r == Err(Cancelled)
      ensures env.faults == if ack.Refused? then old(env.faults) + [ack.error] else old(env.faults)
    {
      hide InStep, Environment.Journaled, Wire.Decodes, Copies, LandAll, MayLand, Unused, LogIn;
      UnusedMayLand(env.parsers, env.decode, env.held, source, key, payload, id);
      var acked;
      acked, copies := env.SendAndWait(source, content);
      ack := acked;
      LogsAside(state.entries, conn.committed, old(env.world), env.world, env.adrift);
      MayLandMeans(env.decode, env.held, source, content, 0);
      match acked {
        case Refused(e) =>
          r := Err(if e == KafkaError then ChangelogProduceError else e);
        case Acked(offset) =>
          if offset < 0 {
            r := Err(ChangelogProduceError);
          } else {
            r := Ok(offset);
          }
      }
    }

    lemma BookIs()
      ensures Book(env, conn) == Ledger(env.faults, conn.toll)
    {
    }

    /** Where no broker and no read has failed, an error is an await's. */
    lemma OnlyAwaits<T>(r: Result<T>, b: Ledger)
      ensures b.faults == env.faults && Quiet(b, Book(env, conn)) ==> NoLess(b.toll, conn.toll)
      ensures b.faults == env.faults && r.Err? && Explained(r.error, b, Book(env, conn)) ==>
                Blame(r.error, b.toll, conn.toll)
    {
    }

    lemma Agreed(source: TP)
      requires Valid()
      ensures env.world.tables == conn.committed && Wire.Decodes(env.parsers, env.decode)
      ensures LogOf(env.world, source) == env.LogAt(source)
      ensures source in env.logs ==> env.LogAt(source) == env.logs[source]
      ensures state.EntryOf(source) == if source in state.entries then state.entries[source] else FRESH
      ensures env.world.held == env.held && env.world.logs == env.logs
      ensures Legal(env.decode, env.origin, env.run)
      ensures env.world == After(env.decode, env.origin, env.run)
      ensures env.overtaken == Coverage.OvertakenIn(env.decode, env.origin, env.run)
      ensures forall tp | tp !in env.regressed :: NoTruncation(env.run, tp)
      ensures forall tp | Coverage.Spared(env.overtaken, tp) ::
                Coverage.NoneOvertaken(env.decode, env.origin, env.run, tp)
    {
    }

    /** `append`.  What is refused is refused before anything happens; what the producer cannot confirm
        leaves tables and memory alone, whatever landed; a commit does what a replay of the last copy
        would do. */
    method Append(source: TP, key: Text, payload: Wire.Payload, id: Text)
      returns (r: Result<()>, ghost copies: seq<Record>, ghost ack: Option<Ack>, ghost cut: bool)
      requires Valid() && env.parsers.isUuid(id) && Unused(env.decode, env.held, id)
      modifies env`now, env`faults, env`logs, env`run, env`world, env`held, env`overtaken, conn, state
      ensures Valid() && env.now >= old(env.now) && old(env.run) <= env.run && Consistent(env.decode, env.held)
      ensures env.held == old(env.held) + set r | r in copies :: (source, r)
      // refused before anything happens: what cannot be encoded, and then a name that is no topic's
      ensures r == Err(ValueError) <==>
                || key == [] || !Utf8.Encodable(key) || !Utf8.Encodable(id)
                || match payload
                   case JsonText(text) => !env.parsers.isJson(text) || !Utf8.Encodable(text)
                   case Object(dumped) => dumped.None? || !Utf8.Encodable(dumped.value)
      ensures r == Err(ConfigError) <==> r != Err(ValueError) && Names.ChangelogName(source).Err?
      ensures if r == Err(ValueError) || r == Err(ConfigError) then copies == [] && ack == None
              else ack.Some? && Wire.EncodeRecord(env.parsers, key, payload, id).Some?
                   && Copies(Wire.EncodeRecord(env.parsers, key, payload, id).value, old(env.LogAt(source)).end, copies)
      ensures env.logs ==
                if copies == [] then old(env.logs) else old(env.logs)[source := LandAll(old(env.LogAt(source)), copies)]
      // the commit, and its write-back; a failed append has committed nothing, unless it was cancelled
      // at a commit that was carried out all the same, and then only the write-back is missing
      ensures r.Ok? || cut ==> copies != [] && env.decode(Last(copies)).Ours?
      ensures conn.committed ==
                if r.Ok? || cut then Replay(env.decode, old(conn.committed), source, [Last(copies)])
                else old(conn.committed)
      // the row: this id, the acked offset, the key, and the payload as SQLite normalizes it
      ensures r.Ok? || cut ==> id in conn.committed.records
      ensures (r.Ok? || cut) && id !in old(conn.committed.records) ==>
                Appended(env.parsers, conn.committed.records[id], source, Last(copies).offset, key, payload)
      ensures cut ==>
                r == Err(Cancelled) && conn.severed.TookEffect?
                && ack.Some? && ack.value.Acked? && 0 <= ack.value.offset
      ensures state.entries ==
                if r.Ok? then old(state.entries)[source := Applied(old(state.EntryOf(source)), Last(copies).offset)]
                else old(state.entries)
      // what the commit passes over, unless all that was retained had been committed before
      ensures env.overtaken == old(env.overtaken) +
                if r.Ok? || cut then Coverage.Passed(env.decode, env.world, source, Last(copies).offset) else {}
      ensures Initial(env.decode, env.origin) && source !in env.regressed
              && Coverage.Spared(old(env.overtaken), source)
              && Coverage.AllCommitted(env.decode, old(env.world), source, id) ==>
                env.overtaken == old(env.overtaken)
      // no offset in the ack, or a broker that fails, is ChangelogProduceError, and nothing else is; a
      // cancelled produce passes
      ensures r == Err(ChangelogProduceError) <==>
                ack.Some? && (ack.value == Refused(KafkaError) || (ack.value.Acked? && ack.value.offset < 0))
      ensures ack == Some(Refused(Cancelled)) ==> r == Err(Cancelled)
      ensures env.faults ==
                if ack.Some? && ack.value.Refused? then old(env.faults) + [ack.value.error] else old(env.faults)
      // any offset, 0 included, goes on to the local commit, which fails only if an await does, or if
      // SQLite refuses the payload
      ensures ack.Some? && ack.value.Acked? && 0 <= ack.value.offset ==>
                && copies != [] && Last(copies).offset == ack.value.offset
                && (r.Ok? ==> env.decode(Last(copies)).Ours? && NoLess(old(conn.toll), conn.toll))
                && (r.Err? ==> Blame(r.error, old(conn.toll), conn.toll)
                               || (r.error == StorageError && !env.decode(Last(copies)).Ours?))
      ensures ack.Some? && ack.value.Acked? && 0 <= ack.value.offset && conn.toll == old(conn.toll) ==>
                (r.Ok? <==> env.decode(Last(copies)).Ours?)
      // the first write about a shard enters it as STANDBY, with no log end
      ensures r.Ok? && source !in old(state.entries) ==>
                state.entries[source] == Entry(STANDBY, Some(Last(copies).offset), None)
      // a single writer's committed appends keep lag at what has been written since the rehydrate
      ensures r.Ok? && InSync(old(env.LogAt(source)), old(conn.committed), old(state.entries), source) ==>
                InSync(env.LogAt(source), conn.committed, state.entries, source)
                && state.entries[source].logEnd.Some?
                && Lag(state.entries[source]) == Some(state.entries[source].logEnd.value - env.LogAt(source).end)
    {
      hide *;
      Agreed(source);
      Refusals(env.parsers, env.decode, env.held, source, key, payload, id);
      ghost var run0, w0 := env.run, env.world;
      copies, ack, cut := [], None, false;
      if !ValidKey(key) {
        return Err(ValueError), [], None, false;
      }
      var encoded := Wire.EncodeRecord(env.parsers, key, payload, id);
      if encoded.None? {
        return Err(ValueError), [], None, false;
      }
      var topic := Names.ChangelogName(source);
      if topic.Err? {
        return Err(topic.error), [], None, false;
      }
      var offset;
      ghost var acked;
      offset, copies, acked := Produce(source, encoded.value, key, payload, id);
      ack := Some(acked);
      if offset.Err? {
        return Err(offset.error), copies, ack, false;
      }
      var text := Utf8.Decode(encoded.value.value);
      EveryAppendIsReplay(env.parsers, env.decode, source, key, payload, id, encoded.value, copies);
      ghost var produced := Book(env, conn);
      BookIs();
      r := Materialize(source, offset.value, key, text.value, id, Last(copies));
      cut := conn.severed.TookEffect?;
      Agreed(source);
      OnlyAwaits(r, produced);
      FirstEntry(Last(copies).offset);
      if r.Err? {
        UntouchedToll(r.error, produced.toll, conn.toll);
      }
      if r.Ok? || cut {
        AppendedRow(env.parsers, env.decode, old(conn.committed), source, key, payload, id,
                    old(env.LogAt(source)).end, copies);
        AwaitedSpares(env.parsers, env.decode, env.origin, run0, w0, env.run, env.world, source, key, payload, id,
                      copies);
      }
      if r.Ok? {
        StaysInSync(env.decode, old(env.LogAt(source)), old(conn.committed), old(state.entries), source,
                    encoded.value, copies);
      }
    }
  }
}
