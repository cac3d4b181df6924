/** The database kept warm by appends and partial replays agrees with one rebuilt from nothing. */
module WarmCold {
  import opened Types
  import opened Tables
  import opened Logs
  import opened Steps
  import opened Rehydrate
  import Coverage

  /** The changelog still holds everything it ever held. */
  predicate Retains(w: World, tp: TP) {
    forall h | h in w.held && h.0 == tp :: h.1 in LogOf(w, tp).records
  }

  lemma {:induction false} EverythingRetained(d: Decoder, w: World, run: seq<Event>, tp: TP)
    requires Initial(d, w) && Legal(d, w, run) && NoTruncation(run, tp) && NoTrim(run, tp)
    ensures Retains(After(d, w, run), tp)
  {
    if run == [] {
      assert forall h | h in w.held :: h == (h.0, h.1);
    } else {
      var before := After(d, w, DropLast(run));
      assert !Regresses(Last(run), tp) && !(Last(run).Trim? && Last(run).tp == tp);
      assert NoTruncation(DropLast(run), tp) && NoTrim(DropLast(run), tp);
      EverythingRetained(d, w, DropLast(run), tp);
      OnlyBrokersMoveLogs(d, before, Last(run));
    }
  }

  /** What the records of a changelog fold to over an empty database, whether or not the code can read
      them all. */
  function Cold(d: Decoder, log: Log, tp: TP): Tables {
    Replay(d, EMPTY, tp, log.records)
  }

  /** The persisted checkpoint has reached the last record, as every READY rehydrate leaves it. */
  predicate CaughtUp(w: World, tp: TP) {
    var log := LogOf(w, tp);
    log.records != [] ==> tp in w.tables.checkpoint && Last(log.records).offset <= w.tables.checkpoint[tp]
  }

  /** What a completed rehydrate of this log leaves in an empty database. */
  ghost predicate Rebuilt(d: Decoder, log: Log, tp: TP, t: Tables) {
    exists done: nat :: Leaves(d, log, tp, EMPTY, Ready, done, t)
  }

  /** A rebuild completes if and only if every retained record can be read and the last sits right below
      the log end; and it leaves what the records fold to. */
  lemma RebuildsExactly(d: Decoder, log: Log, tp: TP)
    requires log.Valid()
    ensures (exists t :: Rebuilt(d, log, tp, t)) <==> Readable(d, log.records) && Finishes(log, None)
    ensures forall t | Rebuilt(d, log, tp, t) ::
              t.records == Cold(d, log, tp).records
              && (log.records != [] ==> log.Tight() && CheckpointOf(t, tp) == CheckpointOf(Cold(d, log, tp), tp))
  {
    hide Replay, Finishes;
    var rs := log.records;
    assert rs[..|rs|] == rs && CheckpointOf(EMPTY, tp) == None && Todo(log, None) == rs;
    ReplayCheckpoint(d, EMPTY, tp, rs);
    FinishesEmpty(log);
    if Readable(d, rs) && Finishes(log, None) {
      var t := Reveal(Settled(log, Replay(d, EMPTY, tp, rs), tp), tp);
      assert Leaves(d, log, tp, EMPTY, Ready, |rs|, t);
      assert Rebuilt(d, log, tp, t);
    }
  }

  lemma FinishesEmpty(log: Log)
    requires log.Valid()
    ensures Finishes(log, None) <==>
              if log.records == [] then log.end == 0 else Last(log.records).offset + 1 == log.end
  {
    assert log.records != [] ==> 0 <= log.records[0].offset < log.end;
  }

  /** Where nothing was passed over, a caught-up shard's changelog holds nothing that replay cannot read. */
  lemma CaughtUpReadable(d: Decoder, w: World, tp: TP)
    requires Provenance(d, w) && FullyCovered(d, w, tp) && CaughtUp(w, tp)
    ensures Readable(d, LogOf(w, tp).records)
  {
    LogValid(d, w, tp);
    var rs := LogOf(w, tp).records;
    forall i | 0 <= i < |rs| ensures !d(rs[i]).Poison? {
      assert rs[i] in rs && (i < |rs| - 1 ==> rs[i].offset < rs[|rs| - 1].offset);
    }
  }

  predicate CarriedOnce(d: Decoder, rs: seq<Record>, id: Text) {
    forall a, b | a in rs && b in rs && Carries(d, a, id) && Carries(d, b, id) :: a == b
  }

  predicate FullyCovered(d: Decoder, w: World, tp: TP) {
    tp in w.tables.checkpoint ==> Coverage.Covered(d, w, {}, tp, w.tables.checkpoint[tp] + 1)
  }

  lemma WarmHasCold(d: Decoder, w: World, tp: TP, id: Text)
    requires Provenance(d, w) && FullyCovered(d, w, tp) && CaughtUp(w, tp)
    requires id in Cold(d, LogOf(w, tp), tp).records
    ensures id in ShardRows(w.tables, tp)
  {
    var log := LogOf(w, tp);
    ReplayRows(d, EMPTY, tp, log.records);
    var i: nat :| FirstGiver(d, tp, log.records, i, id, Cold(d, log, tp).records[id]);
    assert tp in w.logs && log.Valid();
    assert i < |log.records| - 1 ==> log.records[i].offset < log.records[|log.records| - 1].offset;
    assert log.records[i] in log.records;
  }

  lemma WarmRecord(d: Decoder, w: World, tp: TP, id: Text) returns (r: Record)
    requires Retains(w, tp) && id in ShardRows(w.tables, tp) && FromHeld(d, w, id)
    ensures r in LogOf(w, tp).records && (tp, r) in w.held && Gives(d, tp, r, id, w.tables.records[id])
  {
    var h :| h in w.held && h.0 == tp && Gives(d, h.0, h.1, id, w.tables.records[id]);
    r := h.1;
    assert h == (tp, r);
  }

  /** The record a cold replay takes for an id that some record carries: the first that carries it. */
  lemma ColdRecord(d: Decoder, log: Log, tp: TP, r: Record) returns (first: Record)
    requires r in log.records && d(r).Ours?
    ensures d(r).id in Cold(d, log, tp).records
    ensures first in log.records && Gives(d, tp, first, d(r).id, Cold(d, log, tp).records[d(r).id])
    ensures log.Valid() ==> forall a | a in log.records && Carries(d, a, d(r).id) :: first.offset <= a.offset
  {
    var rs := log.records;
    var t := Replay(d, EMPTY, tp, rs);
    ReplayRows(d, EMPTY, tp, rs);
    var j :| 0 <= j < |rs| && rs[j] == r;
    assert d(rs[j]).Ours? && d(r).id in t.records;
    var i: nat :| FirstGiver(d, tp, rs, i, d(r).id, t.records[d(r).id]);
    assert i < |rs| && Gives(d, tp, rs[i], d(r).id, t.records[d(r).id]);
    first := rs[i];
  }

  lemma ColdHasWarm(d: Decoder, w: World, tp: TP, id: Text)
    requires Provenance(d, w) && Retains(w, tp) && id in ShardRows(w.tables, tp)
    ensures var row, cold := w.tables.records[id], Cold(d, LogOf(w, tp), tp).records;
            && id in cold && cold[id].key == row.key && cold[id].payload == row.payload
            && (CarriedOnce(d, LogOf(w, tp).records, id) ==> cold[id] == row)
  {
    assert FromHeld(d, w, id);
    var a := WarmRecord(d, w, tp, id);
    var b := ColdRecord(d, LogOf(w, tp), tp, a);
    assert tp in w.logs;
    assert (tp, a) in w.held && (tp, b) in w.held && Carries(d, (tp, b).1, d((tp, a).1).id);
    assert Carries(d, a, id) && Carries(d, b, id);
  }

  lemma RunSettles(d: Decoder, w: World, run: seq<Event>, tp: TP)
    requires Initial(d, w) && Legal(d, w, run) && NoTruncation(run, tp) && NoTrim(run, tp)
    requires Coverage.NoneOvertaken(d, w, run, tp)
    ensures var w' := After(d, w, run);
            Provenance(d, w') && Coverage.Offsets(w', tp) && Retains(w', tp) && FullyCovered(d, w', tp)
  {
    Coverage.Invariant(d, w, run, tp);
    Coverage.TotalCoverage(d, w, run, After(d, w, run), tp);
    EverythingRetained(d, w, run, tp);
  }

  // ---- whose offset a row keeps ---------------------------------------------------------------

  /** The event that put an id into the tables. */
  function EnteredBy(d: Decoder, w: World, run: seq<Event>, id: Text): Option<Event>
    requires Legal(d, w, run)
  {
    if run == [] then None
    else if id in After(d, w, DropLast(run)).tables.records then EnteredBy(d, w, DropLast(run), id)
    else if id in After(d, w, run).tables.records then Some(Last(run))
    else None
  }

  /** No record the changelog ever held carries this id at a lower offset. */
  predicate Earliest(d: Decoder, w: World, tp: TP, id: Text, offset: int) {
    forall h | h in w.held && h.0 == tp && Carries(d, h.1, id) :: offset <= h.1.offset
  }

  /** The row has the offset of the append that entered it, or of the first carrier if replay did. */
  predicate Origin(d: Decoder, w: World, cause: Option<Event>, tp: TP, id: Text)
    requires id in w.tables.records
  {
    match cause
    case Some(AppendCommit(x, r)) => x == tp && (tp, r) in w.held && Gives(d, tp, r, id, w.tables.records[id])
    case Some(ReplayCommit(x)) => x == tp && Earliest(d, w, tp, id, w.tables.records[id].offset)
    case _ => false
  }

  /** No carrier lies before the first one of a complete batch that starts behind what is covered. */
  lemma FirstInBatch(d: Decoder, w: World, tp: TP, id: Text, i: nat, row: Row)
    requires Provenance(d, w) && Retains(w, tp) && Coverage.BatchComplete(w, tp) && InSession(w, tp)
    requires Coverage.Covered(d, w, {}, tp, w.session.value.position) && id !in w.tables.records
    requires FirstGiver(d, tp, w.session.value.batch, i, id, row)
    ensures Earliest(d, w, tp, id, row.offset)
  {
    hide From, Below, Consistent, FromHeld;
    var batch := w.session.value.batch;
    assert Increasing(batch);
    forall h | h in w.held && h.0 == tp && Carries(d, h.1, id) ensures row.offset <= h.1.offset {
      assert h.1 in LogOf(w, tp).records && w.session.value.position <= h.1.offset;
      assert batch[i].offset <= Last(batch).offset;
      if h.1 in batch {
        var j :| 0 <= j < |batch| && batch[j] == h.1;
        assert i <= j;
      }
    }
  }

  /** Replay meets an id first at its first carrier: an earlier one would already have had its row. */
  lemma EntersByReplay(d: Decoder, w: World, tp: TP, id: Text)
    requires Provenance(d, w) && Retains(w, tp) && Coverage.BatchComplete(w, tp) && Enabled(d, w, ReplayCommit(tp))
    requires Coverage.Covered(d, w, {}, tp, w.session.value.position)
    requires id !in w.tables.records && id in Step(d, w, ReplayCommit(tp)).tables.records
    ensures Origin(d, Step(d, w, ReplayCommit(tp)), Some(ReplayCommit(tp)), tp, id)
  {
    hide From, Below, Consistent, FromHeld, Readable, Provenance, Retains, Coverage.Covered, Coverage.BatchComplete;
    var batch, w' := w.session.value.batch, Step(d, w, ReplayCommit(tp));
    PlaceAllRecords(d, w.tables, tp, batch);
    ReplayRows(d, w.tables, tp, batch);
    var row := w'.tables.records[id];
    var i: nat :| FirstGiver(d, tp, batch, i, id, row);
    FirstInBatch(d, w, tp, id, i, row);
  }

  lemma EntersAs(d: Decoder, w: World, e: Event, tp: TP, id: Text)
    requires Provenance(d, w) && Retains(w, tp) && Coverage.BatchComplete(w, tp) && Enabled(d, w, e)
    requires InSession(w, tp) ==> Coverage.Covered(d, w, {}, tp, w.session.value.position)
    requires id !in w.tables.records && id in ShardRows(Step(d, w, e).tables, tp)
    ensures Origin(d, Step(d, w, e), Some(e), tp, id)
  {
    hide From, Below, Consistent, FromHeld, Readable, Coverage.Covered, Coverage.BatchComplete;
    if e.ReplayCommit? {
      PlaceAllRecords(d, w.tables, e.tp, w.session.value.batch);
      ReplayRows(d, w.tables, e.tp, w.session.value.batch);
      EntersByReplay(d, w, tp, id);
    }
  }

  lemma OriginStays(d: Decoder, w: World, e: Event, cause: Option<Event>, tp: TP, id: Text)
    requires Provenance(d, w) && Coverage.HeldOffsets(w, tp) && Enabled(d, w, e)
    requires id in ShardRows(w.tables, tp) && Origin(d, w, cause, tp, id)
    requires id in Step(d, w, e).tables.records && Step(d, w, e).tables.records[id] == w.tables.records[id]
    ensures Origin(d, Step(d, w, e), cause, tp, id)
  {
    hide From, Below, Consistent, Readable;
    OnlyBrokersMoveLogs(d, w, e);
    assert FromHeld(d, w, id);
  }

  lemma {:induction false} Origins(d: Decoder, w: World, run: seq<Event>, tp: TP, id: Text)
    requires Initial(d, w) && Legal(d, w, run) && NoTruncation(run, tp) && NoTrim(run, tp)
    requires Coverage.NoneOvertaken(d, w, run, tp) && id in ShardRows(After(d, w, run).tables, tp)
    ensures Origin(d, After(d, w, run), EnteredBy(d, w, run, id), tp, id)
  {
    hide Origin, Step, Enabled, Coverage.Covered, Coverage.BatchComplete, Coverage.HeldOffsets, Retains, Provenance;
    if run != [] {
      var front, before := DropLast(run), After(d, w, DropLast(run));
      assert NoTruncation(front, tp) && NoTrim(front, tp) && Coverage.NoneOvertaken(d, w, front, tp);
      RunSettles(d, w, front, tp);
      Coverage.Invariant(d, w, front, tp);
      Coverage.TotalCoverage(d, w, front, before, tp);
      if id in before.tables.records {
        RowsKept(d, before, Last(run));
        Origins(d, w, front, tp, id);
        OriginStays(d, before, Last(run), EnteredBy(d, w, front, id), tp, id);
      } else {
        EntersAs(d, before, Last(run), tp, id);
      }
    }
  }

  /** An append entered the id, at a later offset than that of its first carrier. */
  predicate Displaced(d: Decoder, rs: seq<Record>, cause: Option<Event>, id: Text) {
    && cause.Some? && cause.value.AppendCommit?
    && exists a :: a in rs && Carries(d, a, id) && a.offset < cause.value.r.offset
  }

  /** Warm and cold offsets differ exactly for the ids that an append entered past an earlier carrier,
      the copy of a produce that was retried. */
  lemma OffsetsDifferExactly(d: Decoder, w: World, run: seq<Event>, tp: TP, id: Text)
    requires Initial(d, w) && Legal(d, w, run) && NoTruncation(run, tp) && NoTrim(run, tp)
    requires Coverage.NoneOvertaken(d, w, run, tp) && id in ShardRows(After(d, w, run).tables, tp)
    ensures var log, warm := LogOf(After(d, w, run), tp), After(d, w, run).tables.records;
            var cold := Cold(d, log, tp).records;
            && id in cold && (warm[id] != cold[id] <==> Displaced(d, log.records, EnteredBy(d, w, run, id), id))
            && forall t | Rebuilt(d, log, tp, t) :: t.records == cold
  {
    hide Leaves, Rebuilt;
    hide Cold, FullyCovered, Consistent, Coverage.Offsets, Coverage.Covered, Initial, After, Legal;
    var w' := After(d, w, run);
    RunSettles(d, w, run, tp);
    Origins(d, w, run, tp, id);
    LogValid(d, w', tp);
    RebuildsExactly(d, LogOf(w', tp), tp);
    SettledBy(d, w', EnteredBy(d, w, run, id), tp, id);
  }

  lemma SettledBy(d: Decoder, w: World, cause: Option<Event>, tp: TP, id: Text)
    requires Provenance(d, w) && Retains(w, tp) && LogOf(w, tp).Valid() && id in ShardRows(w.tables, tp)
    requires Origin(d, w, cause, tp, id)
    ensures var log, warm := LogOf(w, tp), w.tables.records;
            var cold := Cold(d, log, tp).records;
            id in cold && (warm[id] != cold[id] <==> Displaced(d, log.records, cause, id))
  {
    hide Cold, Consistent;
    ColdHasWarm(d, w, tp, id);
    var a := WarmRecord(d, w, tp, id);
    var first := ColdRecord(d, LogOf(w, tp), tp, a);
    assert tp in w.logs && (tp, first) in w.held && (tp, a) in w.held;
    assert Carries(d, (tp, first).1, id) && Carries(d, a, id);
    if cause.value.AppendCommit? {
      assert (tp, cause.value.r) in w.held && Carries(d, (tp, cause.value.r).1, id);
      assert cause.value.r in LogOf(w, tp).records;
    }
  }

  /** Such an id: two copies of one record land, and the append commits the second. */
  lemma RetriedAppendDisplaces(d: Decoder, w: World, tp: TP, c0: Record, c1: Record)
    requires w == World(map[], {}, EMPTY, map[], None)
    requires c0.offset == 0 && c1.offset == 1 && d(c0).Ours? && d(c1) == d(c0)
    ensures var run, id := [Land(tp, c0), Land(tp, c1), AppendCommit(tp, c1)], d(c0).id;
            && Initial(d, w) && Legal(d, w, run) && NoTruncation(run, tp) && NoTrim(run, tp)
            && Coverage.NoneOvertaken(d, w, run, tp) && CaughtUp(After(d, w, run), tp)
            && id in After(d, w, run).tables.records && After(d, w, run).tables.records[id].offset == 1
            && id in Cold(d, LogOf(After(d, w, run), tp), tp).records
            && Cold(d, LogOf(After(d, w, run), tp), tp).records[id].offset == 0
  {
    hide Enabled, Step, Apply;
    var landed, e := [Land(tp, c0), Land(tp, c1)], AppendCommit(tp, c1);
    Coverage.BothLand(d, w, tp, c0, c1);
    SecondCopyCommits(d, After(d, w, landed), tp, c0, c1);
    RunSnoc(d, w, landed, e);
    var run := [Land(tp, c0), Land(tp, c1), e];
    assert landed + [e] == run && DropLast(run) == landed;
    Coverage.OnlyAppendsOvertake(d, w, landed);
  }

  lemma SecondCopyCommits(d: Decoder, w: World, tp: TP, c0: Record, c1: Record)
    requires w == World(map[tp := Log(0, 2, [c0, c1])], {(tp, c0), (tp, c1)}, EMPTY, map[], None)
    requires c0.offset == 0 && c1.offset == 1 && d(c0).Ours? && d(c1) == d(c0)
    ensures var e, id := AppendCommit(tp, c1), d(c0).id;
            && Enabled(d, w, e) && Coverage.Overtaken(d, w, e) == {} && CaughtUp(Step(d, w, e), tp)
            && id in Step(d, w, e).tables.records && Step(d, w, e).tables.records[id].offset == 1
            && LogOf(Step(d, w, e), tp) == Log(0, 2, [c0, c1])
            && id in Cold(d, Log(0, 2, [c0, c1]), tp).records
            && Cold(d, Log(0, 2, [c0, c1]), tp).records[id].offset == 0
  {
    assert DropLast([c0, c1]) == [c0] && DropLast([c0]) == [];
    assert Replay(d, EMPTY, tp, [c0]) == Apply(d, EMPTY, tp, c0);
  }

  // ---- warm equals cold -----------------------------------------------------------------------

  /** After any mix of appends, partial replays, failures, revokes and restarts, with nothing of the
      shard overtaken and nothing removed from its changelog, a caught-up shard has exactly the rows its
      changelog folds to, with the same keys and payloads, and the same offsets too except for ids that
      an append entered past an earlier copy. */
  lemma WarmEqualsFold(d: Decoder, w: World, run: seq<Event>, tp: TP)
    requires Initial(d, w) && Legal(d, w, run) && NoTruncation(run, tp) && NoTrim(run, tp)
    requires Coverage.NoneOvertaken(d, w, run, tp)
    requires CaughtUp(After(d, w, run), tp)
    ensures var log := LogOf(After(d, w, run), tp);
            var warm, cold := ShardRows(After(d, w, run).tables, tp), Cold(d, log, tp).records;
            && warm.Keys == cold.Keys
            && (forall id | id in warm :: warm[id].key == cold[id].key && warm[id].payload == cold[id].payload)
            && (forall id | id in warm :: warm[id] != cold[id] <==>
                  Displaced(d, log.records, EnteredBy(d, w, run, id), id))
            && (forall id | id in warm && CarriedOnce(d, log.records, id) :: warm[id] == cold[id])
            && (log.Tight() && log.records != [] ==>
                  CheckpointOf(After(d, w, run).tables, tp) == CheckpointOf(Cold(d, log, tp), tp))
  {
    hide Cold, FullyCovered, CaughtUp, CarriedOnce, Consistent, Displaced, CheckpointOf, Initial;
    RunSettles(d, w, run, tp);
    Agreement(d, After(d, w, run), tp);
    forall id | id in ShardRows(After(d, w, run).tables, tp)
      ensures var log := LogOf(After(d, w, run), tp);
              After(d, w, run).tables.records[id] != Cold(d, log, tp).records[id] <==>
                Displaced(d, log.records, EnteredBy(d, w, run, id), id)
    {
      OffsetsDifferExactly(d, w, run, tp, id);
    }
  }

  /** The shard's rows and checkpoint at the end of a run are those of `t`, but for the offsets of ids that
      an append entered past an earlier copy. */
  predicate Agrees(d: Decoder, w: World, run: seq<Event>, tp: TP, t: Tables)
    requires Legal(d, w, run)
  {
    var log, warm := LogOf(After(d, w, run), tp), ShardRows(After(d, w, run).tables, tp);
    && warm.Keys == t.records.Keys
    && (forall id | id in warm :: warm[id].key == t.records[id].key && warm[id].payload == t.records[id].payload)
    && (forall id | id in warm ::
          warm[id] != t.records[id] <==> Displaced(d, log.records, EnteredBy(d, w, run, id), id))
    && (log.records != [] ==> CheckpointOf(After(d, w, run).tables, tp) == CheckpointOf(t, tp))
  }

  /** Warm equals cold.  In every such run the whole changelog can be read; it can be rebuilt into an
      empty database unless a gap lies below its end; and the rebuilt database has the same rows, the
      same offsets but for those ids, and the same checkpoint. */
  lemma WarmEqualsCold(d: Decoder, w: World, run: seq<Event>, tp: TP)
    requires Initial(d, w) && Legal(d, w, run) && NoTruncation(run, tp) && NoTrim(run, tp)
    requires Coverage.NoneOvertaken(d, w, run, tp)
    requires CaughtUp(After(d, w, run), tp)
    ensures var log := LogOf(After(d, w, run), tp);
            && Readable(d, log.records) && ((exists t :: Rebuilt(d, log, tp, t)) <==> Finishes(log, None))
            && forall t | Rebuilt(d, log, tp, t) :: Agrees(d, w, run, tp, t)
  {
    hide Cold, FullyCovered, CaughtUp, CarriedOnce, Consistent, Displaced, CheckpointOf, Initial, Finishes, Leaves;
    hide Rebuilt, Readable, ShardRows, EnteredBy, Retains;
    var w' := After(d, w, run);
    RunSettles(d, w, run, tp);
    CaughtUpReadable(d, w', tp);
    LogValid(d, w', tp);
    RebuildsExactly(d, LogOf(w', tp), tp);
    WarmEqualsFold(d, w, run, tp);
  }

  /** The exact condition, overtaking and trims allowed: a caught-up shard can be rebuilt if and only if no
      append has passed a retained record that cannot be read, and no gap lies below the log end. */
  lemma RebuildableExactly(d: Decoder, w: World, run: seq<Event>, tp: TP)
    requires Initial(d, w) && Legal(d, w, run) && NoTruncation(run, tp) && CaughtUp(After(d, w, run), tp)
    ensures var log := LogOf(After(d, w, run), tp);
            (exists t :: Rebuilt(d, log, tp, t)) <==>
              Finishes(log, None)
              && forall r | r in log.records && d(r).Poison? :: (tp, r) !in Coverage.OvertakenIn(d, w, run)
  {
    hide Rebuilt, Finishes, Initial, Legal, After;
    var w' := After(d, w, run);
    var rs := LogOf(w', tp).records;
    InitialProvenance(d, w);
    Steps.NothingInvented(d, w, run);
    LogValid(d, w', tp);
    RebuildsExactly(d, LogOf(w', tp), tp);
    forall i | 0 <= i < |rs| && d(rs[i]).Poison? ensures (tp, rs[i]) in Coverage.OvertakenIn(d, w, run) {
      assert rs[i] in rs && (i < |rs| - 1 ==> rs[i].offset < rs[|rs| - 1].offset);
      Coverage.LossCondition(d, w, run, w', tp, rs[i]);
    }
    assert Readable(d, rs) <==> forall r | r in rs :: !d(r).Poison?;
  }

  /** An append that passes an unreadable record breaks it.  Everything else holds and the shard is
      caught up, so that its next rehydrate is READY at once; yet a rebuild never completes, nor reaches
      the row of the append. */
  lemma UnreadablePassed(d: Decoder, w: World, tp: TP, r0: Record, r1: Record)
    requires w == World(map[], {}, EMPTY, map[], None)
    requires r0.offset == 0 && r1.offset == 1 && d(r0).Poison? && d(r1).Ours?
    ensures var run := [Land(tp, r0), Land(tp, r1), AppendCommit(tp, r1)];
            && Initial(d, w) && Legal(d, w, run) && NoTruncation(run, tp) && NoTrim(run, tp)
            && CaughtUp(After(d, w, run), tp) && (tp, r0) in Coverage.OvertakenIn(d, w, run) &&
            var log, warm := LogOf(After(d, w, run), tp), After(d, w, run).tables;
            && d(r1).id in warm.records && Leaves(d, log, tp, warm, Ready, 0, Reveal(warm, tp))
            && forall outcome, done: nat, t | Leaves(d, log, tp, EMPTY, outcome, done, t) ::
                 !outcome.Ready? && done == 0 && d(r1).id !in t.records
  {
    hide Enabled, Step, Apply, Coverage.Passed, Leaves;
    var landed, e := [Land(tp, r0), Land(tp, r1)], AppendCommit(tp, r1);
    Coverage.BothLand(d, w, tp, r0, r1);
    SecondPasses(d, After(d, w, landed), tp, r0, r1);
    RunSnoc(d, w, landed, e);
    var run := [Land(tp, r0), Land(tp, r1), e];
    assert landed + [e] == run && DropLast(run) == landed;
    var warm := After(d, w, run).tables;
    NothingLeft(d, tp, r0, r1, warm);
    forall outcome, done: nat, t | Leaves(d, Log(0, 2, [r0, r1]), tp, EMPTY, outcome, done, t)
      ensures !outcome.Ready? && done == 0 && d(r1).id !in t.records
    {
      StopsAtTheFirst(d, tp, r0, r1, outcome, done, t);
    }
  }

  lemma SecondPasses(d: Decoder, w: World, tp: TP, r0: Record, r1: Record)
    requires w == World(map[tp := Log(0, 2, [r0, r1])], {(tp, r0), (tp, r1)}, EMPTY, map[], None)
    requires r0.offset == 0 && r1.offset == 1 && d(r0).Poison? && d(r1).Ours?
    ensures var e := AppendCommit(tp, r1);
            && Enabled(d, w, e) && (tp, r0) in Coverage.Overtaken(d, w, e)
            && CheckpointOf(Step(d, w, e).tables, tp) == Some(1) && d(r1).id in Step(d, w, e).tables.records
            && LogOf(Step(d, w, e), tp) == Log(0, 2, [r0, r1])
  {
    assert r0 in LogOf(w, tp).records;
  }

  lemma NothingLeft(d: Decoder, tp: TP, r0: Record, r1: Record, t: Tables)
    requires r0.offset == 0 && r1.offset == 1 && CheckpointOf(t, tp) == Some(1)
    ensures Leaves(d, Log(0, 2, [r0, r1]), tp, t, Ready, 0, Reveal(t, tp))
  {
    var log := Log(0, 2, [r0, r1]);
    FromStart(log);
    assert Todo(log, Some(1)) == [] && Todo(log, Some(1))[..0] == [];
    assert t.checkpoint[tp := 1] == t.checkpoint;
  }

  lemma StopsAtTheFirst(d: Decoder, tp: TP, r0: Record, r1: Record, outcome: Outcome, done: nat, t: Tables)
    requires r0.offset == 0 && r1.offset == 1 && d(r0).Poison?
    requires Leaves(d, Log(0, 2, [r0, r1]), tp, EMPTY, outcome, done, t)
    ensures !outcome.Ready? && done == 0 && t.records == map[]
  {
    var todo := [r0, r1];
    assert Todo(Log(0, 2, todo), CheckpointOf(EMPTY, tp)) == todo && Readable(d, todo[..done]);
    assert d(todo[0]).Poison?;
    assert todo[..0] == [];
  }

  lemma Agreement(d: Decoder, w: World, tp: TP)
    requires Provenance(d, w) && Coverage.Offsets(w, tp) && Retains(w, tp)
    requires FullyCovered(d, w, tp) && CaughtUp(w, tp)
    ensures var log := LogOf(w, tp);
            var warm, cold := ShardRows(w.tables, tp), Cold(d, log, tp).records;
            && warm.Keys == cold.Keys
            && (forall id | id in warm :: warm[id].key == cold[id].key && warm[id].payload == cold[id].payload)
            && (forall id | id in warm && CarriedOnce(d, log.records, id) :: warm[id] == cold[id])
            && (log.Tight() && log.records != [] ==> CheckpointOf(w.tables, tp) == CheckpointOf(Cold(d, log, tp), tp))
  {
    hide Cold, FullyCovered, CaughtUp, Retains, CarriedOnce, Consistent, FromHeld, Coverage.Offsets, CheckpointOf;
    LogValid(d, w, tp);
    var log := LogOf(w, tp);
    var warm, cold := ShardRows(w.tables, tp), Cold(d, log, tp).records;
    forall id | id in cold ensures id in warm {
      WarmHasCold(d, w, tp, id);
    }
    forall id | id in warm
      ensures id in cold && warm[id].key == cold[id].key && warm[id].payload == cold[id].payload
      ensures CarriedOnce(d, log.records, id) ==> warm[id] == cold[id]
    {
      ColdHasWarm(d, w, tp, id);
    }
    if log.Tight() && log.records != [] {
      SameCheckpoint(d, w, tp);
    }
  }

  lemma SameCheckpoint(d: Decoder, w: World, tp: TP)
    requires Coverage.Offsets(w, tp) && CaughtUp(w, tp) && Increasing(LogOf(w, tp).records)
    requires LogOf(w, tp).Tight() && LogOf(w, tp).records != []
    ensures CheckpointOf(w.tables, tp) == CheckpointOf(Cold(d, LogOf(w, tp), tp), tp)
  {
    ReplayCheckpoint(d, EMPTY, tp, LogOf(w, tp).records);
  }
}
