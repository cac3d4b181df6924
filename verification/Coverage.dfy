/** What the checkpoint promises over whole runs: when a record at or below it has its row, when it
    does not, and that a lost record stays lost. */
module Coverage {
  import opened Types
  import opened Tables
  import opened Logs
  import opened Steps

  /** The record is one of ours that can be read, and its id is present for this shard. */
  predicate HasRow(d: Decoder, w: World, tp: TP, r: Record) {
    d(r).Ours? && d(r).id in w.tables.records && w.tables.records[d(r).id].tp == tp
  }

  /** Retained records of ours below an offset, the unreadable among them, that have no row. */
  function Passed(d: Decoder, w: World, tp: TP, offset: int): set<(TP, Record)> {
    set r | r in LogOf(w, tp).records && !d(r).Foreign? && r.offset < offset && !HasRow(d, w, tp, r) :: (tp, r)
  }

  /** What an append's commit passes over. */
  function Overtaken(d: Decoder, w: World, e: Event): set<(TP, Record)>
    requires Enabled(d, w, e)
  {
    if e.AppendCommit? then Passed(d, Step(d, w, e), e.tp, e.r.offset) else {}
  }

  /** The records some append of the run overtook. */
  function OvertakenIn(d: Decoder, w: World, run: seq<Event>): set<(TP, Record)>
    requires Legal(d, w, run)
  {
    if run == [] then {}
    else OvertakenIn(d, w, DropLast(run)) + Overtaken(d, After(d, w, DropLast(run)), Last(run))
  }

  /** Every retained record of ours below a position has its row, those in `lost` excepted. */
  predicate Covered(d: Decoder, w: World, lost: set<(TP, Record)>, tp: TP, position: int) {
    forall r | r in LogOf(w, tp).records && !d(r).Foreign? && r.offset < position ::
      HasRow(d, w, tp, r) || (tp, r) in lost
  }

  lemma {:induction false} OnlyAppendsOvertake(d: Decoder, w: World, run: seq<Event>)
    requires Legal(d, w, run) && forall i | 0 <= i < |run| :: !run[i].AppendCommit?
    ensures OvertakenIn(d, w, run) == {}
  {
    if run != [] {
      OnlyAppendsOvertake(d, w, DropLast(run));
    }
  }

  lemma OvertakenSnoc(d: Decoder, w: World, run: seq<Event>, e: Event)
    requires Legal(d, w, run) && Enabled(d, After(d, w, run), e)
    ensures Legal(d, w, run + [e])
    ensures OvertakenIn(d, w, run + [e]) == OvertakenIn(d, w, run) + Overtaken(d, After(d, w, run), e)
    ensures !e.AppendCommit? ==> OvertakenIn(d, w, run + [e]) == OvertakenIn(d, w, run)
  {
    RunSnoc(d, w, run, e);
    assert DropLast(run + [e]) == run;
  }

  /** No record of this shard is among the overtaken. */
  predicate Spared(overtaken: set<(TP, Record)>, tp: TP) {
    forall h | h in overtaken :: h.0 != tp
  }

  predicate NoneOvertaken(d: Decoder, w: World, run: seq<Event>, tp: TP)
    requires Legal(d, w, run)
  {
    Spared(OvertakenIn(d, w, run), tp)
  }

  /** The fetched batch misses no retained record up to its last offset. */
  predicate BatchComplete(w: World, tp: TP) {
    InSession(w, tp) && w.session.value.batch != [] ==>
      forall r | r in LogOf(w, tp).records
        && w.session.value.position <= r.offset <= Last(w.session.value.batch).offset :: r in w.session.value.batch
  }

  predicate HeldOffsets(w: World, tp: TP) {
    && (forall h | h in w.held && h.0 == tp :: h.1.offset < LogOf(w, tp).end)
    && (forall a, b | a in w.held && b in w.held && a.0 == b.0 == tp && a.1.offset == b.1.offset :: a == b)
  }

  predicate Offsets(w: World, tp: TP) {
    && HeldOffsets(w, tp)
    && (tp in w.tables.checkpoint ==> w.tables.checkpoint[tp] < LogOf(w, tp).end)
    && (InSession(w, tp) ==> w.session.value.position <= LogOf(w, tp).end)
  }

  predicate Cover(d: Decoder, w: World, lost: set<(TP, Record)>, tp: TP) {
    && (tp in w.tables.checkpoint ==> Covered(d, w, lost, tp, w.tables.checkpoint[tp] + 1))
    && (InSession(w, tp) ==> Covered(d, w, lost, tp, w.session.value.position))
    && BatchComplete(w, tp)
  }

  lemma HeldOffsetsKept(d: Decoder, w: World, e: Event, tp: TP)
    requires HeldOffsets(w, tp) && Enabled(d, w, e) && !Regresses(e, tp)
    ensures HeldOffsets(Step(d, w, e), tp)
    ensures LogOf(w, tp).end <= LogOf(Step(d, w, e), tp).end
  {
    hide From, Below, Consistent, PlaceAll, Readable, Increasing;
    OnlyBrokersMoveLogs(d, w, e);
  }

  lemma OffsetsKept(d: Decoder, w: World, e: Event, tp: TP)
    requires Provenance(d, w) && Offsets(w, tp) && Enabled(d, w, e) && !Regresses(e, tp)
    ensures Offsets(Step(d, w, e), tp)
  {
    hide HeldOffsets, From, Below, Consistent, FromHeld, PlaceAll, Readable, Increasing;
    OnlyBrokersMoveLogs(d, w, e);
    HeldOffsetsKept(d, w, e, tp);
    if e.ReplayCommit? {
      var batch := w.session.value.batch;
      assert Last(batch) in batch;
      PlaceAllRecords(d, w.tables, e.tp, batch);
      if e.tp == tp {
        BelowEnd(w, tp, Last(batch));
      }
    } else if e.AppendCommit? && e.tp == tp {
      BelowEnd(w, tp, e.r);
    } else if e.SeekToBeginning? {
      LogValid(d, w, e.tp);
    }
  }

  lemma BelowEnd(w: World, tp: TP, r: Record)
    requires HeldOffsets(w, tp) && (tp, r) in w.held
    ensures r.offset < LogOf(w, tp).end
  {
    assert (tp, r).1.offset < LogOf(w, (tp, r).0).end;
  }

  /** An id that is present stands for the record that carries it: same shard, key and payload. */
  lemma RowIsOurs(d: Decoder, w: World, tp: TP, r: Record)
    requires Provenance(d, w) && (tp, r) in w.held && d(r).Ours? && d(r).id in w.tables.records
    ensures HasRow(d, w, tp, r)
    ensures w.tables.records[d(r).id].key == d(r).key && w.tables.records[d(r).id].payload == d(r).payload
  {
    assert FromHeld(d, w, d(r).id);
    var id := d(r).id;
    var h :| h in w.held && h.0 == w.tables.records[id].tp && Gives(d, h.0, h.1, id, w.tables.records[id]);
    assert (tp, r) in w.held && Carries(d, h.1, d((tp, r).1).id);
  }

  /** What was covered stays covered: logs only lose records below a position, rows only grow. */
  lemma CoveredStays(d: Decoder, w: World, e: Event, lost: set<(TP, Record)>, lost': set<(TP, Record)>, tp: TP,
                     position: int)
    requires Provenance(d, w) && Enabled(d, w, e) && !Regresses(e, tp)
    requires Covered(d, w, lost, tp, position) && lost <= lost' && position <= LogOf(w, tp).end
    ensures Covered(d, Step(d, w, e), lost', tp, position)
  {
    var w' := Step(d, w, e);
    OnlyBrokersMoveLogs(d, w, e);
    RowsKept(d, w, e);
    if Broker(e) && e.tp == tp {
      LogValid(d, w, tp);
      BrokerStep(d, w, e);
    }
    forall r | r in LogOf(w', tp).records && !d(r).Foreign? && r.offset < position
      ensures HasRow(d, w', tp, r) || (tp, r) in lost'
    {
      assert r in LogOf(w, tp).records;
      if HasRow(d, w, tp, r) {
        assert w'.tables.records[d(r).id] == w.tables.records[d(r).id];
      }
    }
  }

  /** The commit of an append covers up to its offset, the overtaken excepted. */
  lemma AppendCovers(d: Decoder, w: World, e: Event, lost: set<(TP, Record)>)
    requires e.AppendCommit? && Provenance(d, w) && Offsets(w, e.tp) && Enabled(d, w, e)
    requires Overtaken(d, w, e) <= lost
    ensures Covered(d, Step(d, w, e), lost, e.tp, e.r.offset + 1)
  {
    var w' := Step(d, w, e);
    ProvenanceKept(d, w, e);
    assert d(e.r).id in w'.tables.records;
    RowIsOurs(d, w', e.tp, e.r);
    forall r | r in LogOf(w', e.tp).records && !d(r).Foreign? && r.offset < e.r.offset + 1
      ensures HasRow(d, w', e.tp, r) || (e.tp, r) in lost
    {
      assert (e.tp, r) in w'.held;
      if r.offset == e.r.offset {
        assert (e.tp, r) == (e.tp, e.r);
      } else if !HasRow(d, w', e.tp, r) {
        assert (e.tp, r) in Overtaken(d, w, e);
      }
    }
  }

  /** A committed batch covers up to its last offset, given that its start was covered. */
  lemma BatchCovers(d: Decoder, w: World, e: Event, lost: set<(TP, Record)>)
    requires Provenance(d, w) && Enabled(d, w, e) && e.ReplayCommit?
    requires Covered(d, w, lost, e.tp, w.session.value.position) && BatchComplete(w, e.tp)
    ensures Covered(d, Step(d, w, e), lost, e.tp, Last(w.session.value.batch).offset + 1)
  {
    var w', batch := Step(d, w, e), w.session.value.batch;
    ProvenanceKept(d, w, e);
    RowsKept(d, w, e);
    PlaceAllRecords(d, w.tables, e.tp, batch);
    ReplayRows(d, w.tables, e.tp, batch);
    forall r | r in LogOf(w', e.tp).records && !d(r).Foreign? && r.offset < Last(batch).offset + 1
      ensures HasRow(d, w', e.tp, r) || (e.tp, r) in lost
    {
      if r.offset < w.session.value.position {
        assert HasRow(d, w, e.tp, r) || (e.tp, r) in lost;
      } else {
        assert r in batch && (e.tp, r) in w'.held;
        RowIsOurs(d, w', e.tp, r);
      }
    }
  }

  lemma BatchStaysComplete(d: Decoder, w: World, e: Event, tp: TP)
    requires Provenance(d, w) && Offsets(w, tp) && Enabled(d, w, e) && !Regresses(e, tp) && BatchComplete(w, tp)
    ensures BatchComplete(Step(d, w, e), tp)
  {
    hide From, Below, Consistent, FromHeld, PlaceAll, Readable, Increasing;
    OnlyBrokersMoveLogs(d, w, e);
    if Broker(e) && e.tp == tp && InSession(w, tp) {
      LogValid(d, w, e.tp);
      BrokerStep(d, w, e);
      if w.session.value.batch != [] {
        assert Last(w.session.value.batch) in w.session.value.batch;
      }
    }
    if e.Fetch? {
      FetchComplete(LogOf(w, e.tp).records, w.session.value.position, e.offset);
    }
  }

  lemma FetchComplete(rs: seq<Record>, position: int, n: nat)
    requires Increasing(rs) && n <= |From(rs, position)|
    ensures n > 0 ==> forall r | r in rs && position <= r.offset <= From(rs, position)[n - 1].offset ::
              r in From(rs, position)[..n]
  {
    FromMembers(rs, position);
    var f := From(rs, position);
    forall r | n > 0 && r in rs && position <= r.offset <= f[n - 1].offset ensures r in f[..n] {
      assert r in f;
      var i :| 0 <= i < |f| && f[i] == r;
      assert i < n;
      assert f[..n][i] == r;
    }
  }

  lemma CoveredLess(d: Decoder, w: World, lost: set<(TP, Record)>, tp: TP, position: int, lower: int)
    requires Covered(d, w, lost, tp, position) && lower <= position
    ensures Covered(d, w, lost, tp, lower)
  {
  }

  /** What moves a checkpoint, and where to. */
  lemma CheckpointMoves(d: Decoder, w: World, e: Event, tp: TP)
    requires Enabled(d, w, e) && tp in Step(d, w, e).tables.checkpoint
    ensures var now := Step(d, w, e).tables.checkpoint[tp];
            || CheckpointOf(w.tables, tp) == Some(now)
            || (e.AppendCommit? && e.tp == tp && now == e.r.offset)
            || (e.ReplayCommit? && e.tp == tp && InSession(w, tp) && w.session.value.batch != []
                && now == Last(w.session.value.batch).offset)
            || (e.ClampTo? && e.tp == tp && InSession(w, tp) && now < w.session.value.position)
  {
    if e.ReplayCommit? {
      PlaceAllRecords(d, w.tables, e.tp, w.session.value.batch);
    }
  }

  lemma CheckpointCoverKept(d: Decoder, w: World, e: Event, lost: set<(TP, Record)>, tp: TP)
    requires Provenance(d, w) && Offsets(w, tp) && Cover(d, w, lost, tp) && Enabled(d, w, e) && !Regresses(e, tp)
    requires tp in Step(d, w, e).tables.checkpoint
    ensures Covered(d, Step(d, w, e), lost + Overtaken(d, w, e), tp, Step(d, w, e).tables.checkpoint[tp] + 1)
  {
    hide Covered, Provenance, Step, Enabled, Passed, BatchComplete, HeldOffsets;
    CheckpointMoves(d, w, e, tp);
    assert !e.AppendCommit? ==> lost + Overtaken(d, w, e) == lost;
    var w', lost' := Step(d, w, e), lost + Overtaken(d, w, e);
    if tp in w.tables.checkpoint && w'.tables.checkpoint[tp] == w.tables.checkpoint[tp] {
      CoveredStays(d, w, e, lost, lost', tp, w.tables.checkpoint[tp] + 1);
    } else if e.AppendCommit? {
      AppendCovers(d, w, e, lost');
    } else if e.ReplayCommit? {
      BatchCovers(d, w, e, lost);
    } else {
      CoveredStays(d, w, e, lost, lost', tp, w.session.value.position);
      CoveredLess(d, w', lost', tp, w.session.value.position, w'.tables.checkpoint[tp] + 1);
    }
  }

  lemma SessionCoverKept(d: Decoder, w: World, e: Event, lost: set<(TP, Record)>, tp: TP)
    requires Provenance(d, w) && Offsets(w, tp) && Cover(d, w, lost, tp) && Enabled(d, w, e) && !Regresses(e, tp)
    ensures var w' := Step(d, w, e);
            InSession(w', tp) ==> Covered(d, w', lost + Overtaken(d, w, e), tp, w'.session.value.position)
  {
    hide From, Below, Consistent, FromHeld, PlaceAll, Readable, Increasing;
    OnlyBrokersMoveLogs(d, w, e);
    if e.ReplayCommit? && e.tp == tp {
      BatchCovers(d, w, e, lost);
    } else if e.Open? || e.SeekToBeginning? {
      LogValid(d, w, e.tp);
      if e == Open(tp) && tp in w.tables.checkpoint {
        CoveredStays(d, w, e, lost, lost, tp, w.tables.checkpoint[tp] + 1);
      }
    } else if InSession(w, tp) {
      CoveredStays(d, w, e, lost, lost + Overtaken(d, w, e), tp, w.session.value.position);
    }
  }

  lemma CoverKept(d: Decoder, w: World, e: Event, lost: set<(TP, Record)>, tp: TP)
    requires Provenance(d, w) && Offsets(w, tp) && Cover(d, w, lost, tp) && Enabled(d, w, e) && !Regresses(e, tp)
    ensures Cover(d, Step(d, w, e), lost + Overtaken(d, w, e), tp)
  {
    hide Covered, Offsets, Provenance, BatchComplete, Step, Enabled;
    BatchStaysComplete(d, w, e, tp);
    SessionCoverKept(d, w, e, lost, tp);
    if tp in Step(d, w, e).tables.checkpoint {
      CheckpointCoverKept(d, w, e, lost, tp);
    }
  }

  lemma {:induction false} Invariant(d: Decoder, w: World, run: seq<Event>, tp: TP)
    requires Initial(d, w) && Legal(d, w, run) && NoTruncation(run, tp)
    ensures var w' := After(d, w, run);
            Provenance(d, w') && Offsets(w', tp) && Cover(d, w', OvertakenIn(d, w, run), tp)
  {
    if run == [] {
      InitialProvenance(d, w);
      InitialOffsets(d, w, tp);
    } else {
      var before := After(d, w, DropLast(run));
      assert !Regresses(Last(run), tp);
      assert NoTruncation(DropLast(run), tp);
      Invariant(d, w, DropLast(run), tp);
      ProvenanceKept(d, before, Last(run));
      OffsetsKept(d, before, Last(run), tp);
      CoverKept(d, before, Last(run), OvertakenIn(d, w, DropLast(run)), tp);
    }
  }

  lemma InitialOffsets(d: Decoder, w: World, tp: TP)
    requires Initial(d, w)
    ensures Offsets(w, tp)
  {
    assert forall h | h in w.held :: h == (h.0, h.1) && h.1 in LogOf(w, h.0).records;
    assert tp !in w.logs ==> LogOf(w, tp).records == [];
  }

  /** The loss condition.  In any interleaving of appends, replays, trims, failures, clamps, revokes
      and restarts without a log-end regression, a retained record of ours at or below the persisted
      checkpoint has its row, unless some append with a higher offset committed while it had none. */
  lemma LossCondition(d: Decoder, w: World, run: seq<Event>, w': World, tp: TP, r: Record)
    requires Initial(d, w) && Legal(d, w, run) && NoTruncation(run, tp) && w' == After(d, w, run)
    requires r in LogOf(w', tp).records && !d(r).Foreign?
    requires tp in w'.tables.checkpoint && r.offset <= w'.tables.checkpoint[tp]
    ensures HasRow(d, w', tp, r) || (tp, r) in OvertakenIn(d, w, run)
  {
    Invariant(d, w, run, tp);
    assert Covered(d, w', OvertakenIn(d, w, run), tp, w'.tables.checkpoint[tp] + 1);
  }

  // ---- the other half: a lost record is lost for good -----------------------------------------

  /** The only record ever held that carries this record's id is the record itself. */
  predicate OnlyCarrier(d: Decoder, held: set<(TP, Record)>, tp: TP, r: Record)
    requires d(r).Ours?
  {
    forall h | h in held && Carries(d, h.1, d(r).id) :: h == (tp, r)
  }

  /** The record is missing, the checkpoint is past it, and no replay is still on its way to it. */
  predicate Gone(d: Decoder, w: World, tp: TP, r: Record)
    requires d(r).Ours?
  {
    && d(r).id !in w.tables.records
    && tp in w.tables.checkpoint && r.offset <= w.tables.checkpoint[tp]
    && (InSession(w, tp) ==> !w.session.value.mayReset && !w.session.value.reset
                             && r.offset < w.session.value.position
                             && forall x | x in w.session.value.batch :: r.offset < x.offset)
  }

  lemma GoneKept(d: Decoder, w: World, e: Event, tp: TP, r: Record)
    requires Provenance(d, w) && d(r).Ours? && Gone(d, w, tp, r) && OnlyCarrier(d, w.held, tp, r)
    requires Enabled(d, w, e) && e != OutOfRange(tp) && e != AppendCommit(tp, r)
    ensures Gone(d, Step(d, w, e), tp, r)
  {
    hide From, Below, Consistent, FromHeld, PlaceAll, Replay, Readable, Increasing;
    if e.ReplayCommit? {
      var batch := w.session.value.batch;
      assert Last(batch) in batch;
      PlaceAllRecords(d, w.tables, e.tp, batch);
      ReplayRows(d, w.tables, e.tp, batch);
      assert forall i | 0 <= i < |batch| :: batch[i] in batch && (e.tp, batch[i]) in w.held;
      assert forall i | 0 <= i < |batch| :: !Carries(d, (e.tp, batch[i]).1, d(r).id);
    } else if e.AppendCommit? {
      assert (e.tp, e.r) in w.held;
    } else if e.Fetch? && e.tp == tp && tp in w.logs {
      FromMembers(LogOf(w, tp).records, w.session.value.position);
    }
  }

  /** No restart, revoke, rehydrate or later append brings it back: only a truncation reset of the
      changelog, or the commit of the very append that failed, can. */
  lemma {:induction false} LossIsPermanent(d: Decoder, w: World, run: seq<Event>, tp: TP, r: Record)
    requires Provenance(d, w) && d(r).Ours? && Gone(d, w, tp, r) && Legal(d, w, run)
    requires OutOfRange(tp) !in run && AppendCommit(tp, r) !in run
    requires OnlyCarrier(d, After(d, w, run).held, tp, r)
    ensures Gone(d, After(d, w, run), tp, r)
  {
    if run != [] {
      var front, before := DropLast(run), After(d, w, DropLast(run));
      OnlyBrokersMoveLogs(d, before, Last(run));
      NothingInvented(d, w, front);
      assert forall e | e in front :: e in run;
      LossIsPermanent(d, w, front, tp, r);
      assert Last(run) in run;
      GoneKept(d, before, Last(run), tp, r);
    }
  }

  /** The host keeps to READY shards: no append commits while a rehydrate of its shard is in progress. */
  predicate Disciplined(d: Decoder, w: World, run: seq<Event>, tp: TP)
    requires Legal(d, w, run)
  {
    run == [] ||
    (Disciplined(d, w, DropLast(run), tp)
     && (Last(run).AppendCommit? && Last(run).tp == tp ==> !InSession(After(d, w, DropLast(run)), tp)))
  }

  /** A record that is overtaken while no rehydrate is on its way to it is gone. */
  lemma OvertakenIsGone(d: Decoder, w: World, e: Event, tp: TP, r: Record)
    requires Provenance(d, w) && Enabled(d, w, e) && !InSession(w, tp)
    requires (tp, r) in Overtaken(d, w, e) && d(r).Ours?
    ensures Gone(d, Step(d, w, e), tp, r)
  {
    ProvenanceKept(d, w, e);
    if d(r).id in Step(d, w, e).tables.records {
      RowIsOurs(d, Step(d, w, e), tp, r);
    }
  }

  lemma {:induction false} OvertakenStaysGone(d: Decoder, w: World, run: seq<Event>, tp: TP, r: Record)
    requires Provenance(d, w) && Legal(d, w, run) && Disciplined(d, w, run, tp)
    requires d(r).Ours? && OnlyCarrier(d, After(d, w, run).held, tp, r)
    requires OutOfRange(tp) !in run && AppendCommit(tp, r) !in run
    ensures (tp, r) in OvertakenIn(d, w, run) ==> Gone(d, After(d, w, run), tp, r)
  {
    hide Gone, Overtaken, Enabled, Step, Provenance;
    if run != [] {
      var front, before := DropLast(run), After(d, w, DropLast(run));
      assert (forall e | e in front :: e in run) && Last(run) in run;
      NothingInvented(d, w, front);
      OnlyBrokersMoveLogs(d, before, Last(run));
      OvertakenStaysGone(d, w, front, tp, r);
      if (tp, r) in OvertakenIn(d, w, front) {
        GoneKept(d, before, Last(run), tp, r);
      } else if (tp, r) in Overtaken(d, before, Last(run)) {
        OvertakenBy(d, before, Last(run), tp, r);
        OvertakenIsGone(d, before, Last(run), tp, r);
      }
    }
  }

  lemma OvertakenBy(d: Decoder, w: World, e: Event, tp: TP, r: Record)
    requires Enabled(d, w, e) && (tp, r) in Overtaken(d, w, e)
    ensures e.AppendCommit? && e.tp == tp
  {
  }

  /** The exact condition.  With appends kept to shards that are not being rehydrated, no out-of-range
      reset, and the record's own append never committed: a retained record at or below the checkpoint
      is missing if and only if an append overtook it. */
  lemma LostIffOvertaken(d: Decoder, w: World, run: seq<Event>, w': World, tp: TP, r: Record)
    requires Initial(d, w) && Legal(d, w, run) && NoTruncation(run, tp) && w' == After(d, w, run)
    requires r in LogOf(w', tp).records && !d(r).Foreign? && (d(r).Ours? ==> OnlyCarrier(d, w'.held, tp, r))
    requires tp in w'.tables.checkpoint && r.offset <= w'.tables.checkpoint[tp]
    requires d(r).Ours? ==> Disciplined(d, w, run, tp) && OutOfRange(tp) !in run && AppendCommit(tp, r) !in run
    ensures !HasRow(d, w', tp, r) <==> (tp, r) in OvertakenIn(d, w, run)
  {
    LossCondition(d, w, run, w', tp, r);
    InitialProvenance(d, w);
    if d(r).Ours? {
      OvertakenStaysGone(d, w, run, tp, r);
    }
  }

  lemma BothLand(d: Decoder, w: World, tp: TP, r0: Record, r1: Record)
    requires w == World(map[], {}, EMPTY, map[], None)
    requires r0.offset == 0 && r1.offset == 1 && Consistent(d, {(tp, r0), (tp, r1)})
    ensures var run := [Land(tp, r0), Land(tp, r1)];
            Legal(d, w, run) && After(d, w, run) ==
              World(map[tp := Log(0, 2, [r0, r1])], {(tp, r0), (tp, r1)}, EMPTY, map[], None)
  {
    hide Step, Enabled;
    var e0, e1 := Land(tp, r0), Land(tp, r1);
    LandSteps(d, w, tp, r0, r1);
    RunSnoc(d, w, [], e0);
    RunSnoc(d, w, [e0], e1);
    assert [] + [e0] == [e0] && [e0] + [e1] == [e0, e1];
  }

  lemma LandSteps(d: Decoder, w: World, tp: TP, r0: Record, r1: Record)
    requires w == World(map[], {}, EMPTY, map[], None)
    requires r0.offset == 0 && r1.offset == 1 && Consistent(d, {(tp, r0), (tp, r1)})
    ensures Enabled(d, w, Land(tp, r0))
    ensures var w1 := Step(d, w, Land(tp, r0));
            && w1 == World(map[tp := Log(0, 1, [r0])], {(tp, r0)}, EMPTY, map[], None)
            && Enabled(d, w1, Land(tp, r1))
            && Step(d, w1, Land(tp, r1)) ==
                 World(map[tp := Log(0, 2, [r0, r1])], {(tp, r0), (tp, r1)}, EMPTY, map[], None)
  {
    assert {} + {(tp, r0)} == {(tp, r0)} && {(tp, r0)} + {(tp, r1)} == {(tp, r0), (tp, r1)};
    assert [] + [r0] == [r0] && [r0] + [r1] == [r0, r1];
  }

  lemma SecondOvertakes(d: Decoder, w: World, tp: TP, r0: Record, r1: Record)
    requires w == World(map[tp := Log(0, 2, [r0, r1])], {(tp, r0), (tp, r1)}, EMPTY, map[], None)
    requires r0.offset == 0 && r1.offset == 1 && d(r0).Ours? && d(r1).Ours? && d(r0).id != d(r1).id
    ensures var e := AppendCommit(tp, r1);
            Enabled(d, w, e) && Gone(d, Step(d, w, e), tp, r0) && (tp, r0) in Overtaken(d, w, e)
  {
    assert r0 in LogOf(w, tp).records;
  }

  /** The overtaking that makes the condition necessary: two appends land, the first fails locally,
      the second commits.  The checkpoint ends past a record that has no row. */
  lemma OvertakingLoses(d: Decoder, w: World, tp: TP, r0: Record, r1: Record)
    requires w == World(map[], {}, EMPTY, map[], None)
    requires r0.offset == 0 && r1.offset == 1 && d(r0).Ours? && d(r1).Ours? && d(r0).id != d(r1).id
    ensures var run := [Land(tp, r0), Land(tp, r1), AppendCommit(tp, r1)];
            && Initial(d, w) && Legal(d, w, run)
            && Gone(d, After(d, w, run), tp, r0) && (tp, r0) in OvertakenIn(d, w, run)
  {
    hide Enabled, Step, Overtaken, Gone, Apply;
    var landed, e := [Land(tp, r0), Land(tp, r1)], AppendCommit(tp, r1);
    BothLand(d, w, tp, r0, r1);
    SecondOvertakes(d, After(d, w, landed), tp, r0, r1);
    RunSnoc(d, w, landed, e);
    var run := [Land(tp, r0), Land(tp, r1), e];
    assert landed + [e] == run && DropLast(run) == landed;
  }

  /** With no overtaking, coverage is total. */
  lemma TotalCoverage(d: Decoder, w: World, run: seq<Event>, w': World, tp: TP)
    requires Initial(d, w) && Legal(d, w, run) && NoTruncation(run, tp) && w' == After(d, w, run)
    requires NoneOvertaken(d, w, run, tp)
    ensures tp in w'.tables.checkpoint ==> Covered(d, w', {}, tp, w'.tables.checkpoint[tp] + 1)
    ensures InSession(w', tp) ==> Covered(d, w', {}, tp, w'.session.value.position)
  {
    Invariant(d, w, run, tp);
    var lost := OvertakenIn(d, w, run);
    assert forall r :: (tp, r) in lost ==> (tp, r).0 != tp;
  }

  // ---- what a host can do against it ------------------------------------------------------------

  /** Every retained record of ours is at or below the persisted checkpoint, copies of one id excepted. */
  predicate AllCommitted(d: Decoder, w: World, tp: TP, id: Text) {
    forall r | r in LogOf(w, tp).records && !d(r).Foreign? ::
      Carries(d, r, id) || (tp in w.tables.checkpoint && r.offset <= w.tables.checkpoint[tp])
  }

  /** One append at a time, on a caught-up shard: a record lands only when all retained ones have been
      committed or replayed, and only records that landed in the run commit as appends. */
  predicate OneAtATime(d: Decoder, w: World, run: seq<Event>, tp: TP)
    requires Legal(d, w, run)
  {
    run == [] ||
    (OneAtATime(d, w, DropLast(run), tp)
     && match Last(run)
        case Land(x, r) => x == tp && d(r).Ours? ==> AllCommitted(d, After(d, w, DropLast(run)), tp, d(r).id)
        case AppendCommit(x, r) => x == tp ==> (tp, r) !in w.held
        case _ => true)
  }

  /** Below each record that has landed since, what is retained has its row or is a copy of it. */
  predicate Preceded(d: Decoder, since: World, w: World, tp: TP) {
    forall h, r | h in w.held && h !in since.held && h.0 == tp && d(h.1).Ours?
        && r in LogOf(w, tp).records && !d(r).Foreign? && r.offset < h.1.offset ::
      HasRow(d, w, tp, r) || Carries(d, r, d(h.1).id)
  }

  lemma PrecededKept(d: Decoder, since: World, w: World, e: Event, tp: TP)
    requires Provenance(d, w) && Enabled(d, w, e) && !Regresses(e, tp)
    requires HeldOffsets(w, tp) && Preceded(d, since, w, tp)
    requires tp in w.tables.checkpoint ==> Covered(d, w, {}, tp, w.tables.checkpoint[tp] + 1)
    requires e.Land? && e.tp == tp && d(e.r).Ours? ==> AllCommitted(d, w, tp, d(e.r).id)
    ensures Preceded(d, since, Step(d, w, e), tp)
  {
    hide From, Below, Consistent, FromHeld, PlaceAll, Readable, Increasing;
    OnlyBrokersMoveLogs(d, w, e);
    RowsKept(d, w, e);
    if Broker(e) && e.tp == tp {
      LogValid(d, w, tp);
      BrokerStep(d, w, e);
    }
  }

  lemma PrecededNotOvertaken(d: Decoder, since: World, w: World, e: Event)
    requires Provenance(d, w) && Enabled(d, w, e) && e.AppendCommit?
    requires Preceded(d, since, w, e.tp) && (e.tp, e.r) !in since.held
    ensures Overtaken(d, w, e) == {}
  {
    ProvenanceKept(d, w, e);
    forall r | r in LogOf(w, e.tp).records && !d(r).Foreign? && r.offset < e.r.offset
      ensures HasRow(d, Step(d, w, e), e.tp, r)
    {
      assert d((e.tp, e.r).1).Ours?;
      if Carries(d, r, d(e.r).id) {
        RowIsOurs(d, Step(d, w, e), e.tp, r);
      }
    }
  }

  /** A host that awaits each append of a caught-up shard before the next one, and rehydrates after one
      that failed, loses nothing to overtaking. */
  lemma {:induction false} OneAtATimeOvertakesNone(d: Decoder, w: World, run: seq<Event>, tp: TP)
    requires Initial(d, w) && Legal(d, w, run) && NoTruncation(run, tp) && OneAtATime(d, w, run, tp)
    ensures NoneOvertaken(d, w, run, tp) && Preceded(d, w, After(d, w, run), tp)
  {
    hide Overtaken, Enabled, Step, Covered, Preceded, AllCommitted, Provenance, Initial;
    if run == [] {
      NoneSince(d, w, tp);
    } else {
      var front, before, e := DropLast(run), After(d, w, DropLast(run)), Last(run);
      assert !Regresses(e, tp) && NoTruncation(front, tp);
      OneAtATimeOvertakesNone(d, w, front, tp);
      Invariant(d, w, front, tp);
      TotalCoverage(d, w, front, before, tp);
      PrecededKept(d, w, before, e, tp);
      forall h | h in Overtaken(d, before, e) ensures h.0 != tp {
        OvertakenBy(d, before, e, h.0, h.1);
        if e.tp == tp {
          PrecededNotOvertaken(d, w, before, e);
        }
      }
    }
  }

  lemma NoneSince(d: Decoder, w: World, tp: TP)
    ensures Preceded(d, w, w, tp)
  {
  }
}
