/** A rehydrate on values: the work of a batch, where the replay loop stands, the clamps, and what a
    call, an assignment or a revoke leaves in the tables and in memory. */
module Rehydrate {
  import opened Types
  import opened Tables
  import opened Logs
  import opened State
  import opened Steps
  import opened Txn
  import opened Process
  import Names
  import Wire

  // ---- the work of a batch -------------------------------------------------------------------

  /** The statement one record contributes. */
  function StatementOf(p: Wire.Parsers, tp: TP, r: Record): seq<Stmt> {
    match Wire.Classify(p, r)
    case ForeignRecord => []
    case UnknownVersionRecord => [Raise(RehydrateError)]
    case KsqliteRecord(id, key, payload) => [InsertRecord(id, tp, r.offset, key, payload)]
  }

  function InsertsOf(p: Wire.Parsers, tp: TP, rs: seq<Record>): seq<Stmt> {
    if rs == [] then [] else InsertsOf(p, tp, DropLast(rs)) + StatementOf(p, tp, Last(rs))
  }

  /** The inserts of a batch succeed exactly when every record of it can be read, and then do what
      the decoder says; one record that cannot makes the whole batch raise. */
  lemma PlaceOneMore(d: Decoder, t: Tables, tp: TP, rs: seq<Record>)
    requires rs != []
    ensures PlaceAll(d, t, tp, rs) == PlaceAll(d, PlaceAll(d, t, tp, DropLast(rs)), tp, [Last(rs)])
  {
    assert DropLast([Last(rs)]) == [];
  }

  lemma InsertsSnoc(p: Wire.Parsers, d: Decoder, t: Tables, tp: TP, before: seq<Stmt>, r: Record)
    requires Wire.Decodes(p, d)
    ensures var one, all := RunWork(p.json, t, before), RunWork(p.json, t, before + StatementOf(p, tp, r));
            if one.Err? then all == one
            else if d(r).Poison? then all == Err(d(r).error)
            else all == Ok(PlaceAll(d, one.value, tp, [r]))
  {
    assert d(r) == Wire.Judge(p, r);
    assert DropLast([r]) == [];
    var more := StatementOf(p, tp, r);
    if more == [] {
      assert before + more == before;
    } else {
      assert more == [more[0]];
      RunSnoc1(p.json, t, before, more[0]);
    }
  }

  /** The first record that cannot be read raises this. */
  predicate Raises(d: Decoder, rs: seq<Record>, e: Error) {
    exists i :: 0 <= i < |rs| && d(rs[i]) == Poison(e) && forall j | 0 <= j < i :: !d(rs[j]).Poison?
  }

  lemma RaisesMore(d: Decoder, rs: seq<Record>, e: Error)
    requires rs != []
    ensures Raises(d, DropLast(rs), e) ==> Raises(d, rs, e)
    ensures Readable(d, DropLast(rs)) && d(Last(rs)) == Poison(e) ==> Raises(d, rs, e)
  {
    var front := DropLast(rs);
    if Raises(d, front, e) {
      var i :| 0 <= i < |front| && d(front[i]) == Poison(e) && forall j | 0 <= j < i :: !d(front[j]).Poison?;
      assert d(rs[i]) == Poison(e) && forall j | 0 <= j < i :: rs[j] == front[j];
    }
    if Readable(d, front) && d(Last(rs)) == Poison(e) {
      assert d(rs[|rs| - 1]) == Poison(e) && forall j | 0 <= j < |rs| - 1 :: rs[j] == front[j];
    }
  }

  lemma {:induction false} InsertsRun(p: Wire.Parsers, d: Decoder, t: Tables, tp: TP, rs: seq<Record>)
    requires Wire.Decodes(p, d)
    ensures var r := RunWork(p.json, t, InsertsOf(p, tp, rs));
            && (r.Ok? <==> Readable(d, rs)) && (r.Ok? ==> r.value == PlaceAll(d, t, tp, rs))
            && (r.Err? ==> Raises(d, rs, r.error))
  {
    hide StatementOf, Wire.Decodes, Raises;
    if rs != [] {
      var front := DropLast(rs);
      forall e ensures Raises(d, front, e) ==> Raises(d, rs, e) {
        RaisesMore(d, rs, e);
      }
      if d(Last(rs)).Poison? {
        RaisesMore(d, rs, d(Last(rs)).error);
      }
      InsertsRun(p, d, t, tp, front);
      InsertsSnoc(p, d, t, tp, InsertsOf(p, tp, front), Last(rs));
      assert Readable(d, rs) <==> Readable(d, front) && !d(Last(rs)).Poison?;
      PlaceOneMore(d, t, tp, rs);
    }
  }

  /** The whole work of a batch: its inserts and one checkpoint upsert. */
  lemma BatchWork(p: Wire.Parsers, d: Decoder, t: Tables, tp: TP, batch: seq<Record>)
    requires Wire.Decodes(p, d) && batch != []
    ensures var r := RunWork(p.json, t, InsertsOf(p, tp, batch) + [UpsertCheckpoint(tp, Last(batch).offset)]);
            && (r.Ok? <==> Readable(d, batch)) && (r.Ok? ==> r.value == CommitBatch(d, t, tp, batch))
            && (r.Err? ==> Raises(d, batch, r.error))
  {
    InsertsRun(p, d, t, tp, batch);
    RunSnoc1(p.json, t, InsertsOf(p, tp, batch), UpsertCheckpoint(tp, Last(batch).offset));
  }

  /** How the transaction of a batch reports a record that cannot be read. */
  function Reported(e: Error): Error {
    if e == Sqlite then StorageError else e
  }

  /** Replay stopped before the first record of `rs` that cannot be read, with its error; `done` records
      before it are committed. */
  predicate StoppedAt(d: Decoder, rs: seq<Record>, done: nat, error: Error) {
    exists i :: done <= i < |rs| && d(rs[i]).Poison? && error == Reported(d(rs[i]).error)
                && forall j | 0 <= j < i :: !d(rs[j]).Poison?
  }

  /** A batch that raises is where the replay stops. */
  lemma StopsInBatch(d: Decoder, batch: seq<Record>, rs: seq<Record>, raised: Result<Tables>, error: Error)
    requires batch <= rs && Reports(error, raised) && raised.error != Busy && Raises(d, batch, raised.error)
    ensures StoppedAt(d, rs, 0, error)
  {
    var i :| 0 <= i < |batch| && d(batch[i]) == Poison(raised.error) && forall j | 0 <= j < i :: !d(batch[j]).Poison?;
    assert forall j | 0 <= j <= i :: rs[j] == batch[j];
  }

  /** Where nothing has gone wrong outside and all can be read, nothing is raised. */
  lemma NothingRaises(d: Decoder, rs: seq<Record>, done: nat, outcome: Outcome, b: Ledger, b': Ledger)
    ensures b' == b && Readable(d, rs) && outcome.Raised? ==>
              !Explained(outcome.error, b, b') && !StoppedAt(d, rs, done, outcome.error)
  {
  }

  lemma StopsInMore(d: Decoder, batch: seq<Record>, rs: seq<Record>)
    ensures batch <= rs ==> forall e | StoppedAt(d, batch, 0, e) :: StoppedAt(d, rs, 0, e)
  {
    forall e | batch <= rs && StoppedAt(d, batch, 0, e) ensures StoppedAt(d, rs, 0, e) {
      var i :| 0 <= i < |batch| && d(batch[i]).Poison? && e == Reported(d(batch[i]).error)
               && forall j | 0 <= j < i :: !d(batch[j]).Poison?;
      assert forall j | 0 <= j <= i :: rs[j] == batch[j];
    }
  }

  lemma StopsInRest(d: Decoder, todo: seq<Record>, done: nat, error: Error)
    requires done <= |todo| && Readable(d, todo[..done]) && StoppedAt(d, todo[done..], 0, error)
    ensures StoppedAt(d, todo, done, error)
  {
    var rest := todo[done..];
    var i :| 0 <= i < |rest| && d(rest[i]).Poison? && error == Reported(d(rest[i]).error)
             && forall j | 0 <= j < i :: !d(rest[j]).Poison?;
    assert todo[done + i] == rest[i];
    forall j | 0 <= j < done + i ensures !d(todo[j]).Poison? {
      if j < done {
        assert todo[..done][j] == todo[j];
      } else {
        assert rest[j - done] == todo[j];
      }
    }
  }

  /** The loop of the work closure. */
  method BatchStatements(p: Wire.Parsers, tp: TP, batch: seq<Record>) returns (work: seq<Stmt>)
    requires batch != []
    ensures work == InsertsOf(p, tp, batch) + [UpsertCheckpoint(tp, Last(batch).offset)]
  {
    work := [];
    for i := 0 to |batch|
      invariant work == InsertsOf(p, tp, batch[..i])
    {
      assert DropLast(batch[..i + 1]) == batch[..i];
      match Wire.Classify(p, batch[i]) {
        case ForeignRecord =>
        case UnknownVersionRecord =>
          work := work + [Raise(RehydrateError)];
        case KsqliteRecord(id, key, payload) =>
          work := work + [InsertRecord(id, tp, batch[i].offset, key, payload)];
      }
    }
    assert batch[..|batch|] == batch;
    work := work + [UpsertCheckpoint(tp, Last(batch).offset)];
  }

  // ---- what a rehydrate leaves, in terms of the log and the tables it started from --------------

  /** Where an error struck: before the shard was marked, up to the end of the clamps, or in the reveal. */
  datatype Stage = Early | Midway | Revealing

  datatype Outcome = Ready | Partial | Raised(error: Error, at: Stage)

  /** The status an error leaves, by where it struck. */
  predicate StatusLeft(before: Status, at: Stage, now: Status) {
    match at
    case Early => now == before
    case Midway => now == RESTORING
    case Revealing => now == READY || now == READY_PARTIAL
  }

  /** Whether the call has made the shard visible. */
  predicate Shows(outcome: Outcome, severed: Severed) {
    !outcome.Raised? || (outcome.at.Revealing? && severed.TookEffect?)
  }

  lemma ShowsMeans(outcome: Outcome, severed: Severed)
    ensures !outcome.Raised? ==> Shows(outcome, severed)
    ensures outcome.Raised? && Shows(outcome, severed) ==> severed.TookEffect?
  {
  }

  /** The checkpoint every completed rehydrate ends with. */
  function Settled(log: Log, t: Tables, tp: TP): Tables {
    if log.end == 0 && tp !in t.checkpoint then t else Clamp(t, tp, log.end - 1)
  }

  predicate OutOfBounds(log: Log, checkpoint: Option<int>) {
    checkpoint.Some? && !log.InRange(checkpoint.value + 1)
  }

  /** When the loop can meet the log end at all: it starts there, a reset puts it there, or the last
      record of the work sits right below it. */
  predicate Finishes(log: Log, checkpoint: Option<int>) {
    || StartAfter(checkpoint) == log.end
    || (OutOfBounds(log, checkpoint) && log.start == log.end)
    || (Todo(log, checkpoint) != [] && Last(Todo(log, checkpoint)).offset + 1 == log.end)
  }

  /** The tables after the first `done` records of the work. */
  ghost predicate Replayed(d: Decoder, log: Log, tp: TP, t0: Tables, done: nat, t: Tables) {
    var todo := Todo(log, CheckpointOf(t0, tp));
    done <= |todo| && Readable(d, todo[..done]) && t == Replay(d, t0, tp, todo[..done])
  }

  lemma ReplayedExtends(d: Decoder, log: Log, tp: TP, t0: Tables, done: nat, t: Tables, batch: seq<Record>)
    requires Replayed(d, log, tp, t0, done, t) && batch != [] && Increasing(batch) && Readable(d, batch)
    requires done + |batch| <= |Todo(log, CheckpointOf(t0, tp))|
    requires Todo(log, CheckpointOf(t0, tp))[..done + |batch|] == Todo(log, CheckpointOf(t0, tp))[..done] + batch
    ensures Replayed(d, log, tp, t0, done + |batch|, CommitBatch(d, t, tp, batch))
  {
    BatchRefinesReplay(d, t, tp, batch);
    ReplayConcat(d, t0, tp, Todo(log, CheckpointOf(t0, tp))[..done], batch);
  }

  lemma CommitStep(d: Decoder, w: World, tp: TP, batch: seq<Record>)
    requires InSession(w, tp) && w.session.value.batch == batch != []
    ensures Enabled(d, w, ReplayCommit(tp)) <==> Readable(d, batch)
    ensures Readable(d, batch) ==> var w' := Step(d, w, ReplayCommit(tp));
              w'.tables == CommitBatch(d, w.tables, tp, batch) && w'.status == w.status
  {
  }

  /** The session across a fetch and across its commit. */
  lemma FetchSession(d: Decoder, w: World, tp: TP, consumer: int, reset: bool, batch: seq<Record>)
    requires w.session == Some(Session(tp, consumer, [], false, reset)) && LogOf(w, tp).InRange(consumer)
    requires batch <= From(LogOf(w, tp).records, consumer)
    ensures Enabled(d, w, Fetch(tp, |batch|))
    ensures Step(d, w, Fetch(tp, |batch|)) == w.(session := Some(Session(tp, consumer, batch, false, reset)))
  {
    assert From(LogOf(w, tp).records, consumer)[..|batch|] == batch;
  }

  lemma CommitSession(d: Decoder, w: World, tp: TP, consumer: int, reset: bool, batch: seq<Record>)
    requires w.session == Some(Session(tp, consumer, batch, false, reset)) && batch != [] && Readable(d, batch)
    ensures Enabled(d, w, ReplayCommit(tp))
    ensures Step(d, w, ReplayCommit(tp)).session == Some(Session(tp, Last(batch).offset + 1, [], false, reset))
  {
  }

  /** How the replay loop ends: at the log end, at the deadline, or by an error. */
  datatype Stop = Reached | Expired | Broken(error: Error)

  /** What one turn of the loop came to. */
  datatype Turned = Broke(error: Error) | SentBack(start: nat) | Empty | Took(batch: seq<Record>)

  /** The session a rehydrate opens at the read of its checkpoint. */
  function Opened(tp: TP, checkpoint: Option<int>): Session {
    Session(tp, StartAfter(checkpoint), [], checkpoint.None?, false)
  }

  lemma CloseSession(d: Decoder, w: World)
    ensures Enabled(d, w, Close) && !Broker(Close) && Step(d, w, Close) == w.(session := None)
  {
  }

  lemma OpenSession(d: Decoder, w: World, tp: TP)
    ensures Enabled(d, w, Open(tp))
    ensures Step(d, w, Open(tp)) == w.(session := Some(Opened(tp, CheckpointOf(w.tables, tp))))
  {
  }

  lemma OutOfRangeSession(d: Decoder, w: World, tp: TP)
    requires InSession(w, tp) && !LogOf(w, tp).InRange(w.session.value.position)
    ensures Enabled(d, w, OutOfRange(tp))
    ensures Step(d, w, OutOfRange(tp)) == w.(session := Some(Session(tp, w.session.value.position, [], true, true)))
  {
  }

  lemma SeekSession(d: Decoder, w: World, tp: TP)
    requires InSession(w, tp) && w.session.value.mayReset
    ensures Enabled(d, w, SeekToBeginning(tp))
    ensures Step(d, w, SeekToBeginning(tp)) ==
            w.(session := Some(Session(tp, LogOf(w, tp).start, [], false, w.session.value.reset)))
  {
  }

  lemma ClampSession(d: Decoder, w: World, tp: TP, position: int, target: int)
    requires w.session == Some(Session(tp, position, [], false, true)) && target < position
    ensures Enabled(d, w, ClampTo(tp, target))
    ensures Step(d, w, ClampTo(tp, target)) == w.(tables := Clamp(w.tables, tp, target))
  {
  }

  lemma StartSession(d: Decoder, w: World, tp: TP)
    requires w.session == Some(Opened(tp, None))
    ensures Enabled(d, w, SeekToBeginning(tp))
    ensures Step(d, w, SeekToBeginning(tp)) == w.(session := Some(Session(tp, LogOf(w, tp).start, [], false, false)))
  {
  }

  // ---- where the replay loop stands --------------------------------------------------------------

  /** `done` records of the work are committed; `local` is the loop's position, `consumer` the
      consumer's; `reset` says whether an out-of-range answer has sent it back to the start. */
  ghost predicate Cursor(log: Log, checkpoint: Option<int>, reset: bool, done: nat, local: int, consumer: int) {
    var todo := Todo(log, checkpoint);
    && done <= |todo|
    && (reset ==> OutOfBounds(log, checkpoint))
    && (reset || !OutOfBounds(log, checkpoint) ==> log.InRange(consumer) && From(log.records, consumer) == todo[done..])
    && (!reset && OutOfBounds(log, checkpoint) ==> done == 0 && consumer == checkpoint.value + 1)
    && (local == consumer || (checkpoint.None? && done == 0 && local == 0 && consumer == log.start))
    && (done > 0 ==> local == todo[done - 1].offset + 1)
    && (done == 0 && !reset ==> local == if checkpoint.Some? then checkpoint.value + 1 else 0)
    && (done == 0 && reset ==> local == log.start)
  }

  lemma CursorStarts(log: Log, checkpoint: Option<int>)
    requires log.Valid()
    ensures checkpoint.None? ==> Cursor(log, checkpoint, false, 0, 0, log.start)
    ensures checkpoint.Some? ==> Cursor(log, checkpoint, false, 0, checkpoint.value + 1, checkpoint.value + 1)
  {
    FromStart(log);
  }

  /** A reset can only come first, and puts the consumer at the start of all that is retained. */
  lemma CursorResets(log: Log, checkpoint: Option<int>, reset: bool, done: nat, local: int, consumer: int)
    requires log.Valid() && Cursor(log, checkpoint, reset, done, local, consumer) && !log.InRange(consumer)
    ensures !reset && done == 0 && Cursor(log, checkpoint, true, 0, log.start, log.start)
  {
    FromStart(log);
  }

  lemma Slices<T>(s: seq<T>, k: nat, part: seq<T>)
    requires k <= |s| && part <= s[k..]
    ensures k + |part| <= |s| && s[k..k + |part|] == part
    ensures s[..k + |part|] == s[..k] + part && s[k..][|part|..] == s[k + |part|..]
  {
    assert part == s[k..][..|part|];
  }

  lemma BatchIncreases(log: Log, consumer: int, batch: seq<Record>)
    requires log.Valid() && batch != [] && batch <= From(log.records, consumer)
    ensures Increasing(batch) && log.InRange(Last(batch).offset + 1) && consumer <= batch[0].offset
    ensures From(log.records, Last(batch).offset + 1) == From(log.records, consumer)[|batch|..]
  {
    FromAdvances(log.records, consumer, |batch|);
    FromMembers(log.records, consumer);
    var rest := From(log.records, consumer);
    assert batch[0] in rest && Last(batch) in rest;
  }

  lemma CursorAdvances(log: Log, checkpoint: Option<int>, reset: bool, done: nat, local: int, consumer: int,
                       batch: seq<Record>)
    requires log.Valid() && Cursor(log, checkpoint, reset, done, local, consumer) && log.InRange(consumer)
    requires batch != [] && batch <= From(log.records, consumer)
    ensures done + |batch| <= |Todo(log, checkpoint)| && Increasing(batch)
    ensures Todo(log, checkpoint)[..done + |batch|] == Todo(log, checkpoint)[..done] + batch
    ensures Cursor(log, checkpoint, reset, done + |batch|, Last(batch).offset + 1, Last(batch).offset + 1)
  {
    var todo := Todo(log, checkpoint);
    assert From(log.records, consumer) == todo[done..];
    Slices(todo, done, batch);
    BatchIncreases(log, consumer, batch);
  }

  /** At the log end everything is done; and the loop gets there only if it can finish. */
  lemma CursorEnds(log: Log, checkpoint: Option<int>, reset: bool, done: nat, local: int, consumer: int)
    requires log.Valid() && Cursor(log, checkpoint, reset, done, local, consumer) && local == log.end
    ensures done == |Todo(log, checkpoint)| && (reset <==> OutOfBounds(log, checkpoint))
    ensures Finishes(log, checkpoint)
    ensures done == 0 ==>
              checkpoint == Some(log.end - 1) || (checkpoint.None? && log.end == 0) || (reset && log.start == log.end)
  {
    FromStart(log);
  }

  /** The condition is exact: the loop has a state at the log end if and only if it can finish. */
  lemma FinishesExactly(log: Log, checkpoint: Option<int>)
    requires log.Valid()
    ensures Finishes(log, checkpoint) <==>
              exists reset, done, consumer :: Cursor(log, checkpoint, reset, done, log.end, consumer)
  {
    forall reset, done, consumer | Cursor(log, checkpoint, reset, done, log.end, consumer)
      ensures Finishes(log, checkpoint)
    {
      CursorEnds(log, checkpoint, reset, done, log.end, consumer);
    }
    if Finishes(log, checkpoint) {
      FromStart(log);
      var from := TodoIs(log, checkpoint);
      var todo := Todo(log, checkpoint);
      if todo != [] {
        FromAdvances(log.records, from, |todo|);
        assert Last(todo) in todo;
      }
      assert Cursor(log, checkpoint, OutOfBounds(log, checkpoint), |todo|, log.end, log.end);
    }
  }

  /** With nothing stored and the log trimmed to its end, the local position 0 is never the log end. */
  lemma TrimmedLogNeverEnds(n: nat, reset: bool, done: nat, local: int, consumer: int)
    requires n > 0
    ensures !Finishes(Log(n, n, []), None)
    ensures Cursor(Log(n, n, []), None, reset, done, local, consumer) ==> local == 0
  {
  }

  /** Nor does the loop end when the last record is not right below the log end, with nothing stored or
      with that record's offset stored. */
  lemma TrailingGapNeverEnds(r: Record, reset: bool, done: nat, local: int, consumer: int)
    requires r.offset == 0
    ensures !Finishes(Log(0, 2, [r]), None) && !Finishes(Log(0, 2, [r]), Some(0))
    ensures Cursor(Log(0, 2, [r]), None, reset, done, local, consumer) ==> local < 2
    ensures Cursor(Log(0, 2, [r]), Some(0), reset, done, local, consumer) ==> local == 1
  {
    assert From([r], 1) == [];
  }

  lemma ReplayedWithin(d: Decoder, log: Log, tp: TP, t0: Tables, done: nat, t: Tables)
    requires Replayed(d, log, tp, t0, done, t)
    ensures done <= |Todo(log, CheckpointOf(t0, tp))| && t.owned == t0.owned
  {
    ReplayRows(d, t0, tp, Todo(log, CheckpointOf(t0, tp))[..done]);
  }

  /** The last record of the first `done` is the last below `end`. */
  predicate EndedAt(todo: seq<Record>, done: nat, end: nat)
    requires done <= |todo|
  {
    done > 0 && todo[done - 1].offset + 1 == end
  }

  /** A loop that can finish never polls with nothing left to read. */
  lemma CursorNotStarved(log: Log, checkpoint: Option<int>, reset: bool, done: nat, local: int, consumer: int)
    requires log.Valid() && Cursor(log, checkpoint, reset, done, local, consumer) && local != log.end
    ensures Finishes(log, checkpoint) && log.InRange(consumer) ==> From(log.records, consumer) != []
    ensures reset ==> log.InRange(consumer)
    ensures done <= |Todo(log, checkpoint)|
  {
    FromStart(log);
  }

  /** Positions that come strictly closer to the log end and do not pass it, the first one excepted,
      which a stored checkpoint above the log end may have put beyond. */
  predicate Falling(leo: nat, trail: seq<int>) {
    && trail != []
    && (forall i | 0 <= i < |trail| - 1 :: leo - trail[i + 1] < leo - trail[i])
    && (forall i | 0 < i < |trail| :: 0 <= leo - trail[i])
  }

  /** A committed batch takes the position strictly closer to the log end. */
  lemma TrailGrows(log: Log, checkpoint: Option<int>, reset: bool, done: nat, local: int, consumer: int,
                   batch: seq<Record>, trail: seq<int>)
    requires trail != [] && log.Valid() && Cursor(log, checkpoint, reset, done, local, consumer)
    requires batch != [] && batch <= From(log.records, consumer)
    requires Falling(log.end, trail) && Last(trail) == local
    ensures Falling(log.end, trail + [Last(batch).offset + 1])
  {
    BatchIncreases(log, consumer, batch);
    assert local <= consumer;
    assert batch[0].offset <= Last(batch).offset;
  }

  /** Where the clamps move the checkpoint, if anywhere. */
  function ClampTarget(stored: Option<int>, leo: nat, logStart: nat, replayed: nat): Option<int> {
    if stored.Some? && stored.value > leo - 1 then Some(leo - 1)
    else if replayed == 0 && logStart == leo then Some(logStart - 1)
    else None
  }

  /** The work is what follows some position in range. */
  lemma TodoIs(log: Log, cp: Option<int>) returns (from: int)
    requires log.Valid()
    ensures from == if OutOfBounds(log, cp) || cp.None? then log.start else cp.value + 1
    ensures log.InRange(from) && Todo(log, cp) == From(log.records, from) && Increasing(Todo(log, cp))
    ensures forall r | r in Todo(log, cp) :: from <= r.offset < log.end
  {
    from := if OutOfBounds(log, cp) || cp.None? then log.start else cp.value + 1;
    FromStart(log);
    FromMembers(log.records, from);
  }

  /** The checkpoint after `done` records of the work. */
  lemma PrefixCheckpoint(d: Decoder, log: Log, tp: TP, t0: Tables, done: nat)
    requires log.Valid() && done <= |Todo(log, CheckpointOf(t0, tp))|
    ensures var todo := Todo(log, CheckpointOf(t0, tp));
            CheckpointOf(Replay(d, t0, tp, todo[..done]), tp) ==
              if done == 0 then CheckpointOf(t0, tp)
              else if CheckpointOf(t0, tp).None? then Some(todo[done - 1].offset)
              else Some(Max(t0.checkpoint[tp], todo[done - 1].offset))
  {
    hide Todo, Replay;
    var from := TodoIs(log, CheckpointOf(t0, tp));
    ReplayCheckpoint(d, t0, tp, Todo(log, CheckpointOf(t0, tp))[..done]);
  }

  /** The persisted checkpoint when the loop has met the log end. */
  lemma LoopEndCheckpoint(d: Decoder, log: Log, tp: TP, t0: Tables, reset: bool, done: nat, consumer: int, t: Tables)
    requires log.Valid() && Replayed(d, log, tp, t0, done, t)
    requires Cursor(log, CheckpointOf(t0, tp), reset, done, log.end, consumer)
    ensures CheckpointOf(t, tp) ==
            if done == 0 then CheckpointOf(t0, tp)
            else if CheckpointOf(t0, tp).None? then Some(log.end - 1)
            else Some(Max(t0.checkpoint[tp], log.end - 1))
  {
    hide Replay, Todo, From;
    PrefixCheckpoint(d, log, tp, t0, done);
  }

  /** When the loop has met the log end, the checkpoint is where a completed rehydrate leaves it, or
      the clamps put it there; they are needed only after a reset. */
  lemma LoopEnd(d: Decoder, log: Log, tp: TP, t0: Tables, reset: bool, done: nat, consumer: int, t: Tables)
    requires log.Valid() && Replayed(d, log, tp, t0, done, t)
    requires Cursor(log, CheckpointOf(t0, tp), reset, done, log.end, consumer)
    ensures done == |Todo(log, CheckpointOf(t0, tp))| && Finishes(log, CheckpointOf(t0, tp))
    ensures !reset ==> Settled(log, t, tp) == t
    ensures reset ==> consumer == log.end
    ensures reset ==> var target := ClampTarget(CheckpointOf(t, tp), log.end, log.start, done);
                      Settled(log, t, tp) == if target.Some? then Clamp(t, tp, target.value) else t
  {
    hide Replayed, Readable, From, Replay;
    LoopEndCheckpoint(d, log, tp, t0, reset, done, consumer, t);
    CursorEnds(log, CheckpointOf(t0, tp), reset, done, log.end, consumer);
    if tp in t.checkpoint && t.checkpoint[tp] == log.end - 1 {
      assert t.checkpoint[tp := log.end - 1] == t.checkpoint;
    }
  }

  /** Right before the reveal: a replayed prefix the budget has cut, or the whole work settled. */
  predicate Revealable(log: Log, tp: TP, todo: seq<Record>, checkpoint: Option<int>, done: nat, replayed: Tables,
                       t: Tables)
    requires done <= |todo|
  {
    || (t == replayed && !EndedAt(todo, done, log.end))
    || (done == |todo| && Finishes(log, checkpoint) && t == Settled(log, replayed, tp))
  }

  /** What a rehydrate of one shard leaves in the tables, by how it ended: `done` records of its work
      committed, the checkpoint settled only by a completed one, the shard revealed unless it raised, or
      raised a cancellation in the reveal.  One whose records reached the log end is never cut short. */
  ghost predicate Leaves(d: Decoder, log: Log, tp: TP, t0: Tables, outcome: Outcome, done: nat, t: Tables) {
    var checkpoint := CheckpointOf(t0, tp);
    var todo := Todo(log, checkpoint);
    && done <= |todo| && Readable(d, todo[..done])
    && var replayed := Replay(d, t0, tp, todo[..done]);
       match outcome
       case Ready =>
         done == |todo| && Finishes(log, checkpoint) && t == Reveal(Settled(log, replayed, tp), tp)
       case Partial => t == Reveal(replayed, tp) && !EndedAt(todo, done, log.end)
       case Raised(e, at) =>
         match at
         case Early => done == 0 && t == t0
         case Midway => t == replayed || (done == |todo| && t == Settled(log, replayed, tp))
         case Revealing =>
           || Revealable(log, tp, todo, checkpoint, done, replayed, t)
           || (e == Cancelled
               && exists u :: Revealable(log, tp, todo, checkpoint, done, replayed, u) && t == Reveal(u, tp))
  }

  lemma RevealKeepsCheckpoint(t: Tables, tp: TP)
    ensures CheckpointOf(Reveal(t, tp), tp) == CheckpointOf(t, tp)
  {
  }

  /** From the replayed tables to the outcomes. */
  lemma LeavesBy(d: Decoder, log: Log, tp: TP, t0: Tables, done: nat, t: Tables)
    requires Replayed(d, log, tp, t0, done, t)
    ensures !EndedAt(Todo(log, CheckpointOf(t0, tp)), done, log.end) ==>
              && Leaves(d, log, tp, t0, Partial, done, Reveal(t, tp))
              && (forall e :: Leaves(d, log, tp, t0, Raised(e, Revealing), done, t))
              && Leaves(d, log, tp, t0, Raised(Cancelled, Revealing), done, Reveal(t, tp))
    ensures CheckpointOf(Reveal(t, tp), tp) == CheckpointOf(t, tp)
    ensures forall e :: Leaves(d, log, tp, t0, Raised(e, Midway), done, t)
    ensures done == 0 && t == t0 ==> forall e :: Leaves(d, log, tp, t0, Raised(e, Early), done, t)
    ensures done == |Todo(log, CheckpointOf(t0, tp))| ==>
              forall e :: Leaves(d, log, tp, t0, Raised(e, Midway), done, Settled(log, t, tp))
    ensures done == |Todo(log, CheckpointOf(t0, tp))| && Finishes(log, CheckpointOf(t0, tp)) ==>
              var settled := Settled(log, t, tp);
              && Leaves(d, log, tp, t0, Ready, done, Reveal(settled, tp))
              && (forall e :: Leaves(d, log, tp, t0, Raised(e, Revealing), done, settled))
              && Leaves(d, log, tp, t0, Raised(Cancelled, Revealing), done, Reveal(settled, tp))
  {
    hide Replay, Todo, Settled, Readable, Finishes, EndedAt;
    var checkpoint := CheckpointOf(t0, tp);
    var todo := Todo(log, checkpoint);
    if !EndedAt(todo, done, log.end) {
      assert Revealable(log, tp, todo, checkpoint, done, t, t);
    }
    if done == |todo| && Finishes(log, checkpoint) {
      assert Revealable(log, tp, todo, checkpoint, done, t, Settled(log, t, tp));
    }
  }

  /** A shard that a rehydrate has finished with: visible, memory equal to disk unless it is adrift, the
      log end cached, and, if it is READY, the checkpoint right below it. */
  predicate Served(log: Log, t: Tables, entries: map<TP, Entry>, adrift: set<TP>, tp: TP) {
    && tp in t.owned && tp in entries && entries[tp].status in {READY, READY_PARTIAL}
    && entries[tp].logEnd == Some(log.end)
    && (entries[tp].status == READY ==> StartAfter(CheckpointOf(t, tp)) == log.end)
    && (tp !in adrift ==> entries[tp].checkpoint == CheckpointOf(t, tp))
    && (tp !in adrift && entries[tp].status == READY ==> InSync(log, t, entries, tp))
  }

  /** Nothing about this shard has changed: rows, checkpoint, visibility, entry. */
  predicate Untouched(t: Tables, entries: map<TP, Entry>, t': Tables, entries': map<TP, Entry>, tp: TP) {
    && ShardRows(t', tp) == ShardRows(t, tp) && CheckpointOf(t', tp) == CheckpointOf(t, tp)
    && (tp in t'.owned <==> tp in t.owned)
    && (tp in entries' <==> tp in entries) && (tp in entries ==> entries'[tp] == entries[tp])
  }

  /** Only this shard is touched; a call that raises does not make it visible, save by a cancellation in
      the reveal; if it became READY, the checkpoint is at the log end. */
  lemma LeavesOne(d: Decoder, log: Log, tp: TP, t0: Tables, outcome: Outcome, done: nat, t: Tables)
    requires Leaves(d, log, tp, t0, outcome, done, t)
    ensures t.owned == t0.owned || t.owned == t0.owned + {tp}
    ensures !outcome.Raised? ==> t.owned == t0.owned + {tp}
    ensures outcome.Raised? && (outcome.error != Cancelled || !outcome.at.Revealing?) ==> t.owned == t0.owned
    ensures outcome.Ready? ==> StartAfter(CheckpointOf(t, tp)) == log.end
    ensures forall other | other != tp ::
              ShardRows(t, other) == ShardRows(t0, other) && CheckpointOf(t, other) == CheckpointOf(t0, other)
  {
    hide Todo, Readable, Finishes, Replay;
    var todo := Todo(log, CheckpointOf(t0, tp));
    var replayed := Replay(d, t0, tp, todo[..done]);
    ReplayRows(d, t0, tp, todo[..done]);
    forall other | other != tp
      ensures ShardRows(t, other) == ShardRows(t0, other) && CheckpointOf(t, other) == CheckpointOf(t0, other)
    {
      ReplayFrame(d, t0, tp, todo[..done], other);
      assert t.records == replayed.records || t.records == t0.records;
      assert ShardRows(t, other) == ShardRows(replayed, other) || t == t0;
    }
  }

  lemma ServesOne(d: Decoder, log: Log, tp: TP, t0: Tables, entries0: map<TP, Entry>, outcome: Outcome, done: nat,
                  t: Tables, entries: map<TP, Entry>, adrift: set<TP>)
    requires Leaves(d, log, tp, t0, outcome, done, t) && SameElsewhere(entries0, entries, tp)
    requires !outcome.Raised? ==> tp in entries && entries[tp].logEnd == Some(log.end)
    requires outcome.Ready? ==> entries[tp].status == READY
    requires outcome.Partial? ==> entries[tp].status == READY_PARTIAL
    requires !outcome.Raised? && tp !in adrift ==> entries[tp].checkpoint == CheckpointOf(t, tp)
    ensures !outcome.Raised? ==> Served(log, t, entries, adrift, tp)
    ensures forall other | other != tp :: Untouched(t0, entries0, t, entries, other)
  {
    hide Leaves, ShardRows, CheckpointOf;
    LeavesOne(d, log, tp, t0, outcome, done, t);
    forall other | other != tp ensures Untouched(t0, entries0, t, entries, other) {
      assert other in entries0 ==> other in (entries0 - {tp});
      assert other in entries ==> other in (entries - {tp});
    }
  }

  lemma UntouchedYet(d: Decoder, log: Log, tp: TP, t: Tables, entries: map<TP, Entry>, status: Status)
    ensures StatusLeft(status, Early, status)
    ensures forall e :: Leaves(d, log, tp, t, Raised(e, Early), 0, t)
    ensures forall e, severed :: !Shows(Raised(e, Early), severed)
    ensures forall other :: Untouched(t, entries, t, entries, other)
  {
    LeavesBy(d, log, tp, t, 0, t);
  }

  lemma UnreachedLeaves(d: Decoder, log: Log, tp: TP, t: Tables)
    ensures Leaves(d, log, tp, t, Partial, 0, Reveal(t, tp))
    ensures forall e :: Leaves(d, log, tp, t, Raised(e, Early), 0, t)
    ensures forall e :: Leaves(d, log, tp, t, Raised(e, Revealing), 0, t)
    ensures Leaves(d, log, tp, t, Raised(Cancelled, Revealing), 0, Reveal(t, tp))
  {
    LeavesBy(d, log, tp, t, 0, t);
  }

  /** A commit's write-back keeps memory the persisted checkpoint, if it was. */
  lemma AppliedMatches(d: Decoder, e: Entry, t: Tables, tp: TP, batch: seq<Record>)
    requires batch != []
    ensures Applied(e, Last(batch).offset) == e.(checkpoint := Applied(e, Last(batch).offset).checkpoint)
    ensures e.checkpoint == CheckpointOf(t, tp) ==>
              Applied(e, Last(batch).offset).checkpoint == CheckpointOf(CommitBatch(d, t, tp, batch), tp)
  {
    CommitAdvances(d, t, tp, batch);
  }

  /** An assignment that has served exactly these shards. */
  ghost predicate Progress(logs: map<TP, Log>, t: Tables, entries: map<TP, Entry>,
                           t': Tables, entries': map<TP, Entry>, adrift': set<TP>, served: seq<TP>) {
    && (forall tp | tp in served :: Served(LogIn(logs, tp), t', entries', adrift', tp))
    && (forall tp | tp !in served :: Untouched(t, entries, t', entries', tp))
  }

  /** An assignment that stopped at a failing shard: the earlier ones are served, the failing one is
      newly visible only if a cancellation came too late to stop its reveal, all others are untouched. */
  ghost predicate Halted(logs: map<TP, Log>, t: Tables, entries: map<TP, Entry>,
                         t': Tables, entries': map<TP, Entry>, adrift': set<TP>,
                         served: seq<TP>, failing: TP, cut: bool) {
    && (forall tp | tp in served && tp != failing :: Served(LogIn(logs, tp), t', entries', adrift', tp))
    && (forall tp | tp !in served && tp != failing :: Untouched(t, entries, t', entries', tp))
    && (failing in t'.owned <==> failing in t.owned || failing in served || cut)
  }

  lemma OneMore(logs: map<TP, Log>, t: Tables, entries: map<TP, Entry>,
                t1: Tables, entries1: map<TP, Entry>, adrift1: set<TP>, served: seq<TP>, tp: TP,
                t2: Tables, entries2: map<TP, Entry>, adrift2: set<TP>, shows: bool)
    requires Progress(logs, t, entries, t1, entries1, adrift1, served)
    requires forall other | other != tp :: Untouched(t1, entries1, t2, entries2, other)
    requires forall other | other != tp :: other in adrift2 <==> other in adrift1
    requires t2.owned == t1.owned + if shows then {tp} else {}
    ensures Served(LogIn(logs, tp), t2, entries2, adrift2, tp) ==>
              Progress(logs, t, entries, t2, entries2, adrift2, served + [tp])
    ensures Halted(logs, t, entries, t2, entries2, adrift2, served, tp, shows)
  {
    hide ShardRows, CheckpointOf, Lag, StartAfter;
    assert tp !in served ==> Untouched(t, entries, t1, entries1, tp);
    assert tp in served ==> Served(LogIn(logs, tp), t1, entries1, adrift1, tp);
    forall x | x in served && x != tp ensures Served(LogIn(logs, x), t2, entries2, adrift2, x) {
      assert Served(LogIn(logs, x), t1, entries1, adrift1, x) && Untouched(t1, entries1, t2, entries2, x);
    }
    forall x | x !in served && x != tp ensures Untouched(t, entries, t2, entries2, x) {
      assert Untouched(t, entries, t1, entries1, x) && Untouched(t1, entries1, t2, entries2, x);
    }
  }

  /** Memory has the shard as READY or READY_PARTIAL, and its rows are hidden. */
  predicate ReadyOverHidden(t: Tables, entries: map<TP, Entry>, tp: TP) {
    tp !in t.owned && tp in entries && entries[tp].status in {READY, READY_PARTIAL}
  }

  /** Whether the call was stopped in the reveal, before it took effect. */
  predicate RevealLost(outcome: Outcome, severed: Severed) {
    outcome.Raised? && outcome.at.Revealing? && !severed.TookEffect?
  }

  /** One turn leaves READY over hidden rows exactly if its reveal was lost on a hidden shard. */
  lemma LostRevealLeaves(t: Tables, entries: map<TP, Entry>, before: Status, outcome: Outcome, severed: Severed,
                         t': Tables, entries': map<TP, Entry>, now: Status, tp: TP)
    requires before == (if tp in entries then entries[tp] else FRESH).status
    requires now == (if tp in entries' then entries'[tp] else FRESH).status
    requires t'.owned == t.owned + if Shows(outcome, severed) then {tp} else {}
    requires outcome.Raised? ==> StatusLeft(before, outcome.at, now)
    ensures !ReadyOverHidden(t, entries, tp) ==>
              (ReadyOverHidden(t', entries', tp) <==> RevealLost(outcome, severed) && tp !in t.owned)
  {
  }

  lemma NotYetOverHidden(t: Tables, entries: map<TP, Entry>, e: Error, severed: Severed, tp: TP)
    ensures !ReadyOverHidden(t, entries, tp) ==>
              (ReadyOverHidden(t, entries, tp) <==> RevealLost(Raised(e, Early), severed) && tp !in t.owned)
  {
  }

  /** An assignment leaves READY over hidden rows for the one shard whose reveal was lost, and no other. */
  lemma OnlyTheLostReveal(logs: map<TP, Log>, t: Tables, entries: map<TP, Entry>,
                          t1: Tables, entries1: map<TP, Entry>, adrift1: set<TP>, served: seq<TP>, tp: TP,
                          t2: Tables, entries2: map<TP, Entry>, lost: bool)
    requires Progress(logs, t, entries, t1, entries1, adrift1, served)
    requires forall other | other != tp :: Untouched(t1, entries1, t2, entries2, other)
    requires !ReadyOverHidden(t1, entries1, tp) ==> (ReadyOverHidden(t2, entries2, tp) <==> lost && tp !in t1.owned)
    ensures forall x | !ReadyOverHidden(t, entries, x) ::
              ReadyOverHidden(t2, entries2, x) <==> x == tp && lost && tp !in t.owned && tp !in served
  {
    hide ShardRows, CheckpointOf, Lag, StartAfter;
    forall x | !ReadyOverHidden(t, entries, x)
      ensures ReadyOverHidden(t2, entries2, x) <==> x == tp && lost && tp !in t.owned && tp !in served
    {
      assert x in served ==> Served(LogIn(logs, x), t1, entries1, adrift1, x);
      assert x !in served ==> Untouched(t, entries, t1, entries1, x);
      assert x != tp ==> Untouched(t1, entries1, t2, entries2, x);
    }
  }

  /** Nor does one that raised nothing leave any. */
  lemma ServedNotOverHidden(logs: map<TP, Log>, t: Tables, entries: map<TP, Entry>,
                            t1: Tables, entries1: map<TP, Entry>, adrift1: set<TP>, served: seq<TP>)
    requires Progress(logs, t, entries, t1, entries1, adrift1, served)
    ensures forall x | !ReadyOverHidden(t, entries, x) :: !ReadyOverHidden(t1, entries1, x)
  {
    hide ShardRows, CheckpointOf, Lag, StartAfter;
    forall x | !ReadyOverHidden(t, entries, x) ensures !ReadyOverHidden(t1, entries1, x) {
      assert x in served ==> Served(LogIn(logs, x), t1, entries1, adrift1, x);
      assert x !in served ==> Untouched(t, entries, t1, entries1, x);
    }
  }

  // ---- the turns of an assignment, one by one -----------------------------------------------------

  /** Turn `i` takes `ts[i]` to `ts[i + 1]`, as the outcome says. */
  ghost predicate Turns(d: Decoder, logs: map<TP, Log>, shards: seq<TP>, ts: seq<Tables>,
                        outcomes: seq<Outcome>, dones: seq<nat>) {
    && |ts| == |shards| + 1 && |outcomes| == |dones| == |shards|
    && forall i | 0 <= i < |shards| ::
         Leaves(d, LogIn(logs, shards[i]), shards[i], ts[i], outcomes[i], dones[i], ts[i + 1])
  }

  lemma OneMoreTurn(d: Decoder, logs: map<TP, Log>, shards: seq<TP>, ts: seq<Tables>, outcomes: seq<Outcome>,
                    dones: seq<nat>, tp: TP, outcome: Outcome, done: nat, t: Tables)
    requires Turns(d, logs, shards, ts, outcomes, dones)
    requires Leaves(d, LogIn(logs, tp), tp, Last(ts), outcome, done, t)
    ensures Turns(d, logs, shards + [tp], ts + [t], outcomes + [outcome], dones + [done])
    ensures Last(ts + [t]) == t && Last(outcomes + [outcome]) == outcome && Last(dones + [done]) == done
    ensures |ts| == |shards| + 1 && |dones| == |shards| && (ts + [t])[|shards|] == Last(ts)
  {
  }

  /** Turns that have all served their shards, from `t0` to `t`. */
  ghost predicate AllServed(d: Decoder, logs: map<TP, Log>, shards: seq<TP>, t0: Tables, t: Tables, ts: seq<Tables>,
                            outcomes: seq<Outcome>, dones: seq<nat>) {
    && Turns(d, logs, shards, ts, outcomes, dones) && ts[0] == t0 && Last(ts) == t
    && forall i | 0 <= i < |outcomes| :: !outcomes[i].Raised?
  }

  lemma NoneServedYet(d: Decoder, logs: map<TP, Log>, t: Tables)
    ensures AllServed(d, logs, [], t, t, [t], [], [])
  {
  }

  /** One more turn, whatever it comes to. */
  lemma OneMoreServed(d: Decoder, logs: map<TP, Log>, shards: seq<TP>, t0: Tables, t1: Tables, ts: seq<Tables>,
                      outcomes: seq<Outcome>, dones: seq<nat>, tp: TP, outcome: Outcome, done: nat, t: Tables,
                      ts': seq<Tables>, outcomes': seq<Outcome>, dones': seq<nat>)
    requires AllServed(d, logs, shards, t0, t1, ts, outcomes, dones)
    requires Leaves(d, LogIn(logs, tp), tp, t1, outcome, done, t)
    requires ts' == ts + [t] && outcomes' == outcomes + [outcome] && dones' == dones + [done]
    ensures !outcome.Raised? ==> AllServed(d, logs, shards + [tp], t0, t, ts', outcomes', dones')
    ensures Turns(d, logs, shards + [tp], ts', outcomes', dones')
    ensures |outcomes'| == |dones'| == |shards| + 1 && |ts'| == |shards| + 2
    ensures ts'[0] == t0 && Last(ts') == t && ts'[|shards|] == t1
    ensures Last(outcomes') == outcome && Last(dones') == done
    ensures forall i | 0 <= i < |shards| :: !outcomes'[i].Raised?
  {
    hide Leaves;
    OneMoreTurn(d, logs, shards, ts, outcomes, dones, tp, outcome, done, t);
  }

  lemma AllServedMeans(d: Decoder, logs: map<TP, Log>, shards: seq<TP>, t0: Tables, t: Tables, ts: seq<Tables>,
                       outcomes: seq<Outcome>, dones: seq<nat>)
    requires AllServed(d, logs, shards, t0, t, ts, outcomes, dones)
    ensures Turns(d, logs, shards, ts, outcomes, dones)
    ensures |outcomes| == |dones| == |shards| && |ts| == |shards| + 1 && ts[0] == t0 && Last(ts) == t
    ensures forall i | 0 <= i < |shards| :: !outcomes[i].Raised?
  {
  }

  /** Other shards' turns leave a shard's rows and checkpoint alone. */
  lemma {:induction false} TurnsElsewhere(d: Decoder, logs: map<TP, Log>, shards: seq<TP>, ts: seq<Tables>,
                                          outcomes: seq<Outcome>, dones: seq<nat>, i: nat, j: nat, tp: TP)
    requires Turns(d, logs, shards, ts, outcomes, dones) && i <= j <= |shards|
    requires forall n | i <= n < j :: shards[n] != tp
    ensures ShardRows(ts[j], tp) == ShardRows(ts[i], tp) && CheckpointOf(ts[j], tp) == CheckpointOf(ts[i], tp)
    decreases j
  {
    hide Leaves, ShardRows, CheckpointOf;
    if i < j {
      TurnsElsewhere(d, logs, shards, ts, outcomes, dones, i, j - 1, tp);
      LeavesOne(d, LogIn(logs, shards[j - 1]), shards[j - 1], ts[j - 1], outcomes[j - 1], dones[j - 1], ts[j]);
    }
  }

  /** In a list without repetition each shard ends with the rows and the checkpoint its own turn left,
      and its turn found those from before the callback. */
  lemma OwnTurnDecides(d: Decoder, logs: map<TP, Log>, shards: seq<TP>, ts: seq<Tables>,
                       outcomes: seq<Outcome>, dones: seq<nat>, i: nat)
    requires Turns(d, logs, shards, ts, outcomes, dones) && i < |shards|
    requires forall m, n | 0 <= m < n < |shards| :: shards[m] != shards[n]
    ensures Leaves(d, LogIn(logs, shards[i]), shards[i], ts[i], outcomes[i], dones[i], ts[i + 1])
    ensures ShardRows(ts[i], shards[i]) == ShardRows(ts[0], shards[i])
    ensures CheckpointOf(ts[i], shards[i]) == CheckpointOf(ts[0], shards[i])
    ensures ShardRows(Last(ts), shards[i]) == ShardRows(ts[i + 1], shards[i])
    ensures CheckpointOf(Last(ts), shards[i]) == CheckpointOf(ts[i + 1], shards[i])
  {
    hide Leaves, ShardRows, CheckpointOf;
    TurnsElsewhere(d, logs, shards, ts, outcomes, dones, 0, i, shards[i]);
    TurnsElsewhere(d, logs, shards, ts, outcomes, dones, i + 1, |shards|, shards[i]);
  }

  /** Each shard is past step 0. */
  predicate AllChecked(shards: seq<TP>, checked: set<TP>) {
    forall tp | tp in shards :: tp in checked
  }

  lemma NoneChecked(checked: set<TP>)
    ensures AllChecked([], checked)
  {
  }

  lemma OneMoreChecked(shards: seq<TP>, checked: set<TP>, tp: TP, checked': set<TP>)
    requires AllChecked(shards, checked) && checked <= checked'
    ensures AllChecked(shards, checked') && (tp in checked' ==> AllChecked(shards + [tp], checked'))
  {
  }

  predicate AllReady(entries: map<TP, Entry>, shards: seq<TP>) {
    forall tp | tp in shards :: tp in entries && entries[tp].status == READY
  }

  lemma NoneReadyYet(entries: map<TP, Entry>)
    ensures AllReady(entries, [])
  {
  }

  lemma OneMoreReady(t1: Tables, entries1: map<TP, Entry>, served: seq<TP>, tp: TP,
                     t2: Tables, entries2: map<TP, Entry>)
    requires AllReady(entries1, served) && tp in entries2 && entries2[tp].status == READY
    requires forall other | other != tp :: Untouched(t1, entries1, t2, entries2, other)
    ensures AllReady(entries2, served + [tp])
  {
    forall x | x in served && x != tp ensures x in entries2 && entries2[x].status == READY {
      assert Untouched(t1, entries1, t2, entries2, x);
    }
  }

  lemma NoProgressYet(d: Decoder, logs: map<TP, Log>, t: Tables, entries: map<TP, Entry>, adrift: set<TP>)
    ensures Progress(logs, t, entries, t, entries, adrift, [])
    ensures Turns(d, logs, [], [t], [], []) && Last([t]) == t
  {
  }

  /** The host keeps its side: each shard once, and none that is still owned. */
  ghost predicate NoneOwned(shards: seq<TP>, owned: set<TP>) {
    && (forall i, j | 0 <= i < j < |shards| :: shards[i] != shards[j])
    && (forall tp | tp in shards :: tp !in owned)
  }

  lemma StillHidden(logs: map<TP, Log>, t: Tables, entries: map<TP, Entry>,
                    t': Tables, entries': map<TP, Entry>, adrift': set<TP>, shards: seq<TP>, i: nat)
    requires i < |shards| && Progress(logs, t, entries, t', entries', adrift', shards[..i])
    ensures NoneOwned(shards, t.owned) ==> shards[i] !in t'.owned
  {
    if NoneOwned(shards, t.owned) {
      assert shards[i] !in shards[..i];
      assert Untouched(t, entries, t', entries', shards[i]);
    }
  }

  /** Revoking shards one by one. */
  function HideAll(t: Tables, shards: seq<TP>): Tables {
    if shards == [] then t else Hide(HideAll(t, DropLast(shards)), Last(shards))
  }

  lemma {:induction false} HideAllHides(t: Tables, shards: seq<TP>)
    ensures var t' := HideAll(t, shards);
            && t'.records == t.records && t'.checkpoint == t.checkpoint
            && forall tp :: tp in t'.owned <==> tp in t.owned && tp !in shards
  {
    if shards != [] {
      HideAllHides(t, DropLast(shards));
      assert shards == DropLast(shards) + [Last(shards)];
    }
  }

  /** The boundary mapping of the assignment hook. */
  function Boundary(e: Error): Error {
    if e == StorageError || e == KafkaError then RehydrateError else e
  }

  /** How an error that was raised outside surfaces from an assignment. */
  predicate Surfaces(error: Error, b: Ledger, b': Ledger) {
    || (error == RehydrateError && (Explained(KafkaError, b, b') || Explained(StorageError, b, b')))
    || (error == Cancelled && Explained(Cancelled, b, b'))
  }

  /** What an assignment refuses where nothing outside has failed: a name that is no topic's, a topic that
      does not exist and may not be created, or, as RehydrateError, a record that cannot be read. */
  predicate Refuses(error: Error, d: Decoder, log: Log, tp: TP, t0: Tables, outcome: Outcome, done: nat,
                    mayCreate: bool, existing: set<string>)
  {
    match error
    case ConfigError => Names.ChangelogName(tp).Err?
    case TopicNotFoundError =>
      !mayCreate && Names.ChangelogName(tp).Ok? && Names.ChangelogName(tp).value !in existing
    case RehydrateError => outcome.Raised? && StoppedAt(d, Todo(log, CheckpointOf(t0, tp)), done, outcome.error)
    case _ => false
  }

  lemma RefusesOnly(error: Error, d: Decoder, log: Log, tp: TP, t0: Tables, outcome: Outcome, done: nat,
                    mayCreate: bool, existing: set<string>, b: Ledger, b': Ledger)
    ensures Refuses(error, d, log, tp, t0, outcome, done, mayCreate, existing) ==>
              error in {RehydrateError, ConfigError, TopicNotFoundError}
    ensures error == ConfigError && Names.ChangelogName(tp).Err? ==>
              Refuses(error, d, log, tp, t0, outcome, done, mayCreate, existing)
    ensures error == TopicNotFoundError && !mayCreate && Names.ChangelogName(tp).Ok?
            && Names.ChangelogName(tp).value !in existing ==>
              Refuses(error, d, log, tp, t0, outcome, done, mayCreate, existing)
    ensures error == RehydrateError && outcome.Raised?
            && StoppedAt(d, Todo(log, CheckpointOf(t0, tp)), done, outcome.error) ==>
              Refuses(error, d, log, tp, t0, outcome, done, mayCreate, existing)
    ensures Surfaces(error, b, b') ==> error in {RehydrateError, Cancelled}
  {
  }

  /** What was raised outside decides what surfaces. */
  lemma SurfacesAs(error: Error, b: Ledger, b': Ledger)
    ensures Surfaces(error, b, b') || Quiet(b, b') ==>
              && (b'.faults == b.faults + [KafkaError] || b'.faults == b.faults + [StorageError] ==>
                    error == RehydrateError)
              && (b'.faults == b.faults + [Cancelled] ==> error == Cancelled)
  {
    assert b.faults + [KafkaError] != b.faults + [StorageError] by {
      assert (b.faults + [KafkaError])[|b.faults|] != (b.faults + [StorageError])[|b.faults|];
    }
    forall e, e' | e != e' ensures b.faults + [e] != b.faults + [e'] {
      assert (b.faults + [e])[|b.faults|] == e && (b.faults + [e'])[|b.faults|] == e';
    }
  }

  lemma SurfacesLater(a: Ledger, b: Ledger, c: Ledger)
    ensures Quiet(a, b) && Quiet(b, c) ==> Quiet(a, c)
    ensures forall e | Surfaces(e, b, c) :: Quiet(a, b) ==> Surfaces(e, a, c)
  {
  }

  lemma BoundaryMaps(e: Error, b: Ledger, b': Ledger)
    ensures Explained(e, b, b') ==> Surfaces(Boundary(e), b, b')
    ensures e in {RehydrateError, StorageError} ==> Boundary(e) == RehydrateError
    ensures e in {ConfigError, TopicNotFoundError, Cancelled, RehydrateError} ==> Boundary(e) == e
    ensures Surfaces(Boundary(e), b, b') ==> Boundary(e) in {RehydrateError, Cancelled}
  {
  }

  // ---- the state of the replay loop ---------------------------------------------------------------

  /** The cursor, the tables and the positions since the last reset, together. */
  ghost predicate Standing(d: Decoder, log: Log, tp: TP, t0: Tables, reset: bool, done: nat, local: int, consumer: int,
                           t: Tables, trail: seq<int>) {
    && Cursor(log, CheckpointOf(t0, tp), reset, done, local, consumer)
    && Replayed(d, log, tp, t0, done, t)
    && Falling(log.end, trail) && |trail| <= 1 + done && Last(trail) == local
  }

  lemma StandsAtStart(d: Decoder, log: Log, tp: TP, t0: Tables, start: int, consumer: int)
    requires Cursor(log, CheckpointOf(t0, tp), false, 0, start, consumer) && Replayed(d, log, tp, t0, 0, t0)
    ensures Standing(d, log, tp, t0, false, 0, start, consumer, t0, [start])
  {
  }

  lemma StandsAfterReset(d: Decoder, log: Log, tp: TP, t0: Tables, reset: bool, done: nat, local: int, consumer: int,
                         t: Tables, trail: seq<int>)
    requires log.Valid() && Standing(d, log, tp, t0, reset, done, local, consumer, t, trail) && !log.InRange(consumer)
    ensures !reset && done == 0 && Standing(d, log, tp, t0, true, 0, log.start, log.start, t, [log.start])
  {
    hide Cursor, Replayed;
    CursorResets(log, CheckpointOf(t0, tp), reset, done, local, consumer);
  }

  /** One more batch: the cursor moves past it, the tables hold it. */
  lemma StandsAfterBatch(d: Decoder, log: Log, tp: TP, t0: Tables, reset: bool, done: nat, local: int, consumer: int,
                         t: Tables, trail: seq<int>, batch: seq<Record>)
    requires log.Valid() && Standing(d, log, tp, t0, reset, done, local, consumer, t, trail) && log.InRange(consumer)
    requires batch != [] && batch <= From(log.records, consumer) && Readable(d, batch)
    ensures var next := Last(batch).offset + 1;
            Standing(d, log, tp, t0, reset, done + |batch|, next, next, CommitBatch(d, t, tp, batch), trail + [next])
  {
    hide Cursor, Replayed, CommitBatch, From, Readable;
    CursorAdvances(log, CheckpointOf(t0, tp), reset, done, local, consumer, batch);
    ReplayedExtends(d, log, tp, t0, done, t, batch);
    TrailGrows(log, CheckpointOf(t0, tp), reset, done, local, consumer, batch, trail);
  }

  /** Where the rest stops the work stops. */
  lemma StandsStopped(d: Decoder, log: Log, tp: TP, t0: Tables, reset: bool, done: nat, local: int, consumer: int,
                      t: Tables, trail: seq<int>, e: Error)
    requires Standing(d, log, tp, t0, reset, done, local, consumer, t, trail)
    ensures log.InRange(consumer) && StoppedAt(d, From(log.records, consumer), 0, e) ==>
              StoppedAt(d, Todo(log, CheckpointOf(t0, tp)), done, e)
  {
    var todo := Todo(log, CheckpointOf(t0, tp));
    if log.InRange(consumer) && StoppedAt(d, From(log.records, consumer), 0, e) {
      StopsInRest(d, todo, done, e);
    }
  }

  /** What the loop needs to know before its next fetch, and what holds wherever it stops. */
  lemma StandingMeans(d: Decoder, log: Log, tp: TP, t0: Tables, reset: bool, done: nat, local: int, consumer: int,
                      t: Tables, trail: seq<int>)
    requires log.Valid() && Standing(d, log, tp, t0, reset, done, local, consumer, t, trail)
    ensures done <= |Todo(log, CheckpointOf(t0, tp))| && Replayed(d, log, tp, t0, done, t)
    ensures Falling(log.end, trail) && |trail| <= 1 + done && trail != [] && Last(trail) == local
    ensures local != log.end ==> reset ==> log.InRange(consumer)
    ensures local != log.end && Finishes(log, CheckpointOf(t0, tp)) && log.InRange(consumer) ==>
              From(log.records, consumer) != []
    ensures local == log.end ==>
              Finishes(log, CheckpointOf(t0, tp)) && Cursor(log, CheckpointOf(t0, tp), reset, done, local, consumer)
    ensures done == 0 || local != log.end ==> !EndedAt(Todo(log, CheckpointOf(t0, tp)), done, log.end)
  {
    var checkpoint := CheckpointOf(t0, tp);
    if local == log.end {
      CursorEnds(log, checkpoint, reset, done, local, consumer);
    } else {
      CursorNotStarved(log, checkpoint, reset, done, local, consumer);
    }
  }
}
