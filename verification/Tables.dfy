/** The SQLite tables and the shared statements: rows inserted once, checkpoints that take the
    maximum, and the visibility rows of the `records` view. */
module Tables {
  import opened Types

  datatype Row = Row(tp: TP, offset: nat, key: Text, payload: Text)

  /** `_records` by message_id, `partition_checkpoint`, `_owned`. */
  datatype Tables = Tables(records: map<Text, Row>, checkpoint: map<TP, int>, owned: set<TP>)

  const EMPTY := Tables(map[], map[], {})

  function CheckpointOf(t: Tables, tp: TP): Option<int> {
    if tp in t.checkpoint then Some(t.checkpoint[tp]) else None
  }

  /** The rows of one shard. */
  function ShardRows(t: Tables, tp: TP): map<Text, Row> {
    map id | id in t.records && t.records[id].tp == tp :: t.records[id]
  }

  /** The `records` view. */
  function View(t: Tables): map<Text, Row> {
    map id | id in t.records && t.records[id].tp in t.owned :: t.records[id]
  }

  // ---- statements --------------------------------------------------------------------------

  datatype Stmt =
    | InsertRecord(id: Text, tp: TP, offset: nat, key: Text, payload: Text)
    | UpsertCheckpoint(tp: TP, mark: int)
    | ClampCheckpoint(tp: TP, mark: int)
    | InsertOwned(tp: TP)
    | DeleteOwned(tp: TP)
    | DeleteAllOwned
    | Raise(error: Error)  // Python code of the work that raises between statements

  /** INSERT ... ON CONFLICT (message_id) DO NOTHING */
  function Insert(t: Tables, id: Text, row: Row): Tables {
    if id in t.records then t else t.(records := t.records[id := row])
  }

  /** The checkpoint upsert: MAX(stored, new). */
  function Upsert(t: Tables, tp: TP, offset: int): Tables {
    t.(checkpoint := t.checkpoint[tp := if tp in t.checkpoint then Max(t.checkpoint[tp], offset) else offset])
  }

  /** The clamp: INSERT OR REPLACE. */
  function Clamp(t: Tables, tp: TP, offset: int): Tables {
    t.(checkpoint := t.checkpoint[tp := offset])
  }

  function Reveal(t: Tables, tp: TP): Tables {
    t.(owned := t.owned + {tp})
  }

  function Hide(t: Tables, tp: TP): Tables {
    t.(owned := t.owned - {tp})
  }

  /** json(:payload) is evaluated before the conflict clause, so a payload SQLite cannot parse
      raises even for an id already present. */
  function Exec(json: Text -> Option<Text>, t: Tables, s: Stmt): Result<Tables> {
    match s
    case InsertRecord(id, tp, offset, key, payload) =>
      if json(payload).None? then Err(Sqlite) else Ok(Insert(t, id, Row(tp, offset, key, json(payload).value)))
    case UpsertCheckpoint(tp, mark) => Ok(Upsert(t, tp, mark))
    case ClampCheckpoint(tp, mark) => Ok(Clamp(t, tp, mark))
    case InsertOwned(tp) => Ok(Reveal(t, tp))
    case DeleteOwned(tp) => Ok(Hide(t, tp))
    case DeleteAllOwned => Ok(t.(owned := {}))
    case Raise(e) => Err(e)
  }

  /** The statements of one transaction's work, in order, up to the first that raises. */
  function RunWork(json: Text -> Option<Text>, t: Tables, work: seq<Stmt>): Result<Tables> {
    if work == [] then Ok(t)
    else
      var before := RunWork(json, t, DropLast(work));
      if before.Err? then before else Exec(json, before.value, Last(work))
  }

  /** Work that has raised stays raised, whatever statements follow. */
  lemma {:induction false} RunWorkExtends(json: Text -> Option<Text>, t: Tables, work: seq<Stmt>, more: seq<Stmt>)
    requires RunWork(json, t, work).Err?
    ensures RunWork(json, t, work + more) == RunWork(json, t, work)
  {
    if more == [] {
      assert work + more == work;
    } else {
      assert DropLast(work + more) == work + DropLast(more);
      RunWorkExtends(json, t, work, DropLast(more));
    }
  }

  // ---- replay, in its simple form: apply_materialization record by record ------------------

  /** One record: insert if it is ours, then raise the checkpoint to its offset either way. */
  function Apply(d: Decoder, t: Tables, tp: TP, r: Record): Tables {
    var placed := match d(r) case Ours(id, key, payload) => Insert(t, id, Row(tp, r.offset, key, payload)) case _ => t;
    Upsert(placed, tp, r.offset)
  }

  function Replay(d: Decoder, t: Tables, tp: TP, rs: seq<Record>): Tables {
    if rs == [] then t else Apply(d, Replay(d, t, tp, DropLast(rs)), tp, Last(rs))
  }

  predicate Readable(d: Decoder, rs: seq<Record>) {
    forall i | 0 <= i < |rs| :: !d(rs[i]).Poison?
  }

  predicate Increasing(rs: seq<Record>) {
    forall i, j | 0 <= i < j < |rs| :: rs[i].offset < rs[j].offset
  }

  lemma {:induction false} ReplayConcat(d: Decoder, t: Tables, tp: TP, a: seq<Record>, b: seq<Record>)
    ensures Replay(d, t, tp, a + b) == Replay(d, Replay(d, t, tp, a), tp, b)
  {
    if b == [] {
      assert a + b == a;
    } else {
      assert DropLast(a + b) == a + DropLast(b);
      ReplayConcat(d, t, tp, a, DropLast(b));
    }
  }

  /** One record gives the message id and row it would insert, or nothing. */
  predicate Gives(d: Decoder, tp: TP, r: Record, id: Text, row: Row) {
    d(r).Ours? && d(r).id == id && row == Row(tp, r.offset, d(r).key, d(r).payload)
  }

  predicate Carries(d: Decoder, r: Record, id: Text) {
    d(r).Ours? && d(r).id == id
  }

  /** Record `i` is the first of `rs` to carry `id`, and `row` is its row. */
  predicate FirstGiver(d: Decoder, tp: TP, rs: seq<Record>, i: nat, id: Text, row: Row) {
    i < |rs| && Gives(d, tp, rs[i], id, row) && forall j | 0 <= j < i :: !Carries(d, rs[j], id)
  }

  /** What a replay leaves, said without running it: rows already there stay, each id it adds comes
      from the first record carrying it, nothing else is added; only this shard's checkpoint moves. */
  lemma {:induction false} ReplayRows(d: Decoder, t: Tables, tp: TP, rs: seq<Record>)
    ensures var t' := Replay(d, t, tp, rs);
      && t'.owned == t.owned
      && (forall id | id in t.records :: id in t'.records && t'.records[id] == t.records[id])
      && (forall id | id in t'.records && id !in t.records :: exists i: nat ::
                FirstGiver(d, tp, rs, i, id, t'.records[id]))
      && (forall i | 0 <= i < |rs| && d(rs[i]).Ours? :: d(rs[i]).id in t'.records)
      && (forall other | other != tp :: CheckpointOf(t', other) == CheckpointOf(t, other))
  {
    if rs != [] {
      var front, r := DropLast(rs), Last(rs);
      ReplayRows(d, t, tp, front);
      var t1, t' := Replay(d, t, tp, front), Replay(d, t, tp, rs);
      forall id | id in t'.records && id !in t.records
        ensures exists i: nat :: FirstGiver(d, tp, rs, i, id, t'.records[id])
      {
        if id in t1.records {
          var i: nat :| FirstGiver(d, tp, front, i, id, t1.records[id]);
          assert forall j | 0 <= j <= i :: rs[j] == front[j];
          assert FirstGiver(d, tp, rs, i, id, t'.records[id]);
        } else {
          assert forall j | 0 <= j < |rs| - 1 :: rs[j] == front[j];
          assert FirstGiver(d, tp, rs, |rs| - 1, id, t'.records[id]);
        }
      }
      forall i | 0 <= i < |rs| && d(rs[i]).Ours? ensures d(rs[i]).id in t'.records {
        if i < |front| {
          assert rs[i] == front[i];
        }
      }
    }
  }

  /** On increasing offsets the checkpoint ends at the last offset or where it already was. */
  lemma {:induction false} ReplayCheckpoint(d: Decoder, t: Tables, tp: TP, rs: seq<Record>)
    requires Increasing(rs)
    ensures CheckpointOf(Replay(d, t, tp, rs), tp) ==
            if rs == [] then CheckpointOf(t, tp)
            else if CheckpointOf(t, tp).None? then Some(Last(rs).offset)
            else Some(Max(t.checkpoint[tp], Last(rs).offset))
  {
    if rs != [] {
      ReplayCheckpoint(d, t, tp, DropLast(rs));
    }
  }

  /** A replay adds rows to its own shard only. */
  lemma ReplayFrame(d: Decoder, t: Tables, tp: TP, rs: seq<Record>, other: TP)
    requires other != tp
    ensures ShardRows(Replay(d, t, tp, rs), other) == ShardRows(t, other)
    ensures CheckpointOf(Replay(d, t, tp, rs), other) == CheckpointOf(t, other)
  {
    ReplayRows(d, t, tp, rs);
  }

  // ---- replay as the code does it: one upsert per committed batch ---------------------------

  /** The inserts of a batch. */
  function PlaceAll(d: Decoder, t: Tables, tp: TP, rs: seq<Record>): Tables {
    if rs == [] then t
    else
      var before := PlaceAll(d, t, tp, DropLast(rs));
      match d(Last(rs))
      case Ours(id, key, payload) => Insert(before, id, Row(tp, Last(rs).offset, key, payload))
      case _ => before
  }

  function CommitBatch(d: Decoder, t: Tables, tp: TP, batch: seq<Record>): Tables
    requires batch != []
  {
    Upsert(PlaceAll(d, t, tp, batch), tp, Last(batch).offset)
  }

  lemma {:induction false} PlaceAllRecords(d: Decoder, t: Tables, tp: TP, rs: seq<Record>)
    ensures PlaceAll(d, t, tp, rs).records == Replay(d, t, tp, rs).records
    ensures PlaceAll(d, t, tp, rs).owned == t.owned && PlaceAll(d, t, tp, rs).checkpoint == t.checkpoint
  {
    if rs != [] {
      PlaceAllRecords(d, t, tp, DropLast(rs));
    }
  }

  /** A batch with one upsert at its last offset does what the per-record form does. */
  lemma BatchRefinesReplay(d: Decoder, t: Tables, tp: TP, batch: seq<Record>)
    requires batch != [] && Increasing(batch)
    ensures CommitBatch(d, t, tp, batch) == Replay(d, t, tp, batch)
  {
    PlaceAllRecords(d, t, tp, batch);
    ReplayRows(d, t, tp, batch);
    ReplayCheckpoint(d, t, tp, batch);
    var a, b := CommitBatch(d, t, tp, batch), Replay(d, t, tp, batch);
    forall x
      ensures (x in a.checkpoint <==> x in b.checkpoint) && (x in a.checkpoint ==> a.checkpoint[x] == b.checkpoint[x])
    {
      assert CheckpointOf(a, x) == CheckpointOf(b, x);
    }
    assert a.checkpoint == b.checkpoint;
  }

  /** A whole replay: fetched batches in order, empty polls committing nothing. */
  function ReplayBatches(d: Decoder, t: Tables, tp: TP, batches: seq<seq<Record>>): Tables {
    if batches == [] then t
    else
      var before := ReplayBatches(d, t, tp, DropLast(batches));
      if Last(batches) == [] then before else CommitBatch(d, before, tp, Last(batches))
  }

  function Flatten(batches: seq<seq<Record>>): seq<Record> {
    if batches == [] then [] else Flatten(DropLast(batches)) + Last(batches)
  }

  lemma IncreasingParts(a: seq<Record>, b: seq<Record>)
    requires Increasing(a + b)
    ensures Increasing(a) && Increasing(b)
  {
    assert forall i | 0 <= i < |a| :: (a + b)[i] == a[i];
    assert forall i | 0 <= i < |b| :: (a + b)[|a| + i] == b[i];
  }

  lemma OneBatch(d: Decoder, t: Tables, tp: TP, batch: seq<Record>)
    requires Increasing(batch)
    ensures Replay(d, t, tp, batch) == if batch == [] then t else CommitBatch(d, t, tp, batch)
  {
    if batch != [] {
      BatchRefinesReplay(d, t, tp, batch);
    }
  }

  /** However a segment is cut into batches, and however many polls come back empty, the tables end
      as if each record had been applied by itself. */
  lemma {:induction false} AnySplitRefinesReplay(d: Decoder, t: Tables, tp: TP, batches: seq<seq<Record>>)
    requires Increasing(Flatten(batches))
    ensures ReplayBatches(d, t, tp, batches) == Replay(d, t, tp, Flatten(batches))
  {
    if batches != [] {
      var front, batch := Flatten(DropLast(batches)), Last(batches);
      IncreasingParts(front, batch);
      AnySplitRefinesReplay(d, t, tp, DropLast(batches));
      ReplayConcat(d, t, tp, front, batch);
      OneBatch(d, Replay(d, t, tp, front), tp, batch);
    }
  }

  /** Records whose ids are present and whose offsets the checkpoint has reached change nothing. */
  lemma {:induction false} ReplayAbsorbed(d: Decoder, t: Tables, tp: TP, rs: seq<Record>)
    requires forall i | 0 <= i < |rs| && d(rs[i]).Ours? :: d(rs[i]).id in t.records
    requires rs != [] ==> tp in t.checkpoint
    requires forall i | 0 <= i < |rs| :: rs[i].offset <= t.checkpoint[tp]
    ensures Replay(d, t, tp, rs) == t
  {
    if rs != [] {
      ReplayAbsorbed(d, t, tp, DropLast(rs));
      assert t.checkpoint[tp := t.checkpoint[tp]] == t.checkpoint;
    }
  }

  /** Replaying any part of an already replayed segment again changes nothing. */
  lemma ReplayIdempotent(d: Decoder, t: Tables, tp: TP, rs: seq<Record>, lo: nat, hi: nat)
    requires Increasing(rs) && lo <= hi <= |rs|
    ensures var t' := Replay(d, t, tp, rs); Replay(d, t', tp, rs[lo..hi]) == t'
  {
    ReplayRows(d, t, tp, rs);
    ReplayCheckpoint(d, t, tp, rs);
    var t', part := Replay(d, t, tp, rs), rs[lo..hi];
    assert forall i | 0 <= i < |part| :: part[i] == rs[lo + i];
    if part != [] {
      assert CheckpointOf(t', tp).Some? && Last(rs).offset <= t'.checkpoint[tp];
      forall i | 0 <= i < |part| ensures part[i].offset <= t'.checkpoint[tp] {
        assert lo + i < |rs| - 1 ==> rs[lo + i].offset < rs[|rs| - 1].offset;
      }
    }
    ReplayAbsorbed(d, t', tp, part);
  }

  // ---- commits in any order -----------------------------------------------------------------

  /** One committed materialization: an append's row and offset, or a replay batch's. */
  datatype Commit = Commit(tp: TP, rows: map<Text, Row>, offset: int)

  /** Insert what is new, keep what is there, take the larger checkpoint. */
  function ApplyCommit(t: Tables, c: Commit): Tables {
    Upsert(t.(records := c.rows + t.records), c.tp, c.offset)
  }

  function ApplyCommits(t: Tables, cs: seq<Commit>): Tables {
    if cs == [] then t else ApplyCommit(ApplyCommits(t, DropLast(cs)), Last(cs))
  }

  /** Each message id stands for one row, among the commits and against the tables. */
  predicate OneRowPerId(cs: seq<Commit>) {
    forall a, b, id | a in cs && b in cs && id in a.rows && id in b.rows :: a.rows[id] == b.rows[id]
  }

  function CommitOfBatch(d: Decoder, tp: TP, batch: seq<Record>): Commit
    requires batch != []
  {
    Commit(tp, PlaceAll(d, EMPTY, tp, batch).records, Last(batch).offset)
  }

  /** A replay batch commits as such a commit; an append is a batch of its own landed record. */
  lemma BatchIsCommit(d: Decoder, t: Tables, tp: TP, batch: seq<Record>)
    requires batch != []
    ensures CommitBatch(d, t, tp, batch) == ApplyCommit(t, CommitOfBatch(d, tp, batch))
  {
    PlaceAllOver(d, t, tp, batch);
  }

  lemma {:induction false} PlaceAllOver(d: Decoder, t: Tables, tp: TP, rs: seq<Record>)
    ensures PlaceAll(d, t, tp, rs) == t.(records := PlaceAll(d, EMPTY, tp, rs).records + t.records)
  {
    if rs == [] {
      assert EMPTY.records + t.records == t.records;
    } else {
      PlaceAllOver(d, t, tp, DropLast(rs));
      var a, b := PlaceAll(d, t, tp, rs).records, PlaceAll(d, EMPTY, tp, rs).records + t.records;
      assert a.Keys == b.Keys;
      assert a == b;
    }
  }

  /** What a sequence of commits leaves, said without running it. */
  lemma {:induction false} CommitsLeave(t: Tables, cs: seq<Commit>)
    requires OneRowPerId(cs)
    ensures var t' := ApplyCommits(t, cs);
      && t'.owned == t.owned
      && (forall id :: id in t'.records <==> id in t.records || exists c :: c in cs && id in c.rows)
      && (forall id | id in t.records :: t'.records[id] == t.records[id])
      && (forall c, id | c in cs && id in c.rows && id !in t.records ::
                id in t'.records && t'.records[id] == c.rows[id])
      && (forall tp :: tp in t'.checkpoint <==> tp in t.checkpoint || exists c :: c in cs && c.tp == tp)
      && (forall tp | tp in t.checkpoint :: t.checkpoint[tp] <= t'.checkpoint[tp])
      && (forall c | c in cs :: c.tp in t'.checkpoint && c.offset <= t'.checkpoint[c.tp])
      && (forall tp | tp in t'.checkpoint :: CheckpointOf(t, tp) == Some(t'.checkpoint[tp])
           || exists c :: c in cs && c.tp == tp && c.offset == t'.checkpoint[tp])
  {
    if cs != [] {
      var front, c0 := DropLast(cs), Last(cs);
      assert forall c :: c in cs <==> c in front || c == c0;
      CommitsLeave(t, front);
    }
  }

  /** Whatever is committed in one sequence and also in another shows in both. */
  lemma CommitsWithin(t: Tables, cs: seq<Commit>, cs': seq<Commit>)
    requires OneRowPerId(cs) && OneRowPerId(cs') && forall c | c in cs :: c in cs'
    ensures var a, b := ApplyCommits(t, cs), ApplyCommits(t, cs');
            && (forall id | id in a.records :: id in b.records && a.records[id] == b.records[id])
            && (forall tp | tp in a.checkpoint :: tp in b.checkpoint && a.checkpoint[tp] <= b.checkpoint[tp])
            && a.owned == b.owned
  {
    hide ApplyCommits, OneRowPerId, CheckpointOf;
    CommitsLeave(t, cs);
    CommitsLeave(t, cs');
    var a, b := ApplyCommits(t, cs), ApplyCommits(t, cs');
    forall id | id in a.records ensures id in b.records && a.records[id] == b.records[id] {
      if id !in t.records {
        var c :| c in cs && id in c.rows;
        assert c in cs';
      }
    }
    forall tp | tp in a.checkpoint ensures tp in b.checkpoint && a.checkpoint[tp] <= b.checkpoint[tp] {
      MarkWithin(t, cs, cs', tp);
    }
  }

  lemma MarkWithin(t: Tables, cs: seq<Commit>, cs': seq<Commit>, tp: TP)
    requires OneRowPerId(cs) && OneRowPerId(cs') && forall c | c in cs :: c in cs'
    requires tp in ApplyCommits(t, cs).checkpoint
    ensures tp in ApplyCommits(t, cs').checkpoint
    ensures ApplyCommits(t, cs).checkpoint[tp] <= ApplyCommits(t, cs').checkpoint[tp]
  {
    hide ApplyCommits, OneRowPerId;
    CommitsLeave(t, cs);
    CommitsLeave(t, cs');
  }

  /** The tables depend only on which materializations were committed: not on their order, and not
      on how often one was repeated. */
  lemma CommitOrderIrrelevant(t: Tables, cs: seq<Commit>, cs': seq<Commit>)
    requires OneRowPerId(cs)
    requires forall c :: c in cs <==> c in cs'
    ensures ApplyCommits(t, cs) == ApplyCommits(t, cs')
  {
    CommitsWithin(t, cs, cs');
    CommitsWithin(t, cs', cs);
    var a, b := ApplyCommits(t, cs), ApplyCommits(t, cs');
    assert a.records == b.records;
    assert a.checkpoint == b.checkpoint;
  }

  lemma TwoCommits(t: Tables, a: Commit, b: Commit)
    ensures ApplyCommits(t, [a, b]) == ApplyCommit(ApplyCommit(t, a), b)
  {
    assert DropLast([a, b]) == [a] && DropLast([a]) == [];
    assert ApplyCommits(t, [a]) == ApplyCommit(t, a);
  }

  predicate OneRecordPerId(d: Decoder, rs: seq<Record>) {
    forall a, b | a in rs && b in rs && d(a).Ours? && Carries(d, b, d(a).id) :: a == b
  }

  lemma BatchRows(d: Decoder, tp: TP, batch: seq<Record>, id: Text)
    requires batch != [] && id in CommitOfBatch(d, tp, batch).rows
    ensures exists i: nat :: FirstGiver(d, tp, batch, i, id, CommitOfBatch(d, tp, batch).rows[id])
  {
    PlaceAllRecords(d, EMPTY, tp, batch);
    ReplayRows(d, EMPTY, tp, batch);
  }

  /** An append's commit and a replay batch that holds the same record at the same offset give the
      same tables in either order. */
  lemma AppendCommutesWithReplay(d: Decoder, t: Tables, tp: TP, r: Record, batch: seq<Record>)
    requires r in batch && OneRecordPerId(d, batch)
    ensures CommitBatch(d, CommitBatch(d, t, tp, [r]), tp, batch) ==
            CommitBatch(d, CommitBatch(d, t, tp, batch), tp, [r])
  {
    hide CommitBatch, CommitOfBatch, ApplyCommit, ApplyCommits;
    var a, b := CommitOfBatch(d, tp, [r]), CommitOfBatch(d, tp, batch);
    forall id | id in a.rows && id in b.rows ensures a.rows[id] == b.rows[id] {
      BatchRows(d, tp, [r], id);
      BatchRows(d, tp, batch, id);
      var i: nat :| FirstGiver(d, tp, batch, i, id, b.rows[id]);
      assert batch[i] in batch && batch[i] == r;
    }
    BatchIsCommit(d, t, tp, [r]);
    BatchIsCommit(d, t, tp, batch);
    BatchIsCommit(d, CommitBatch(d, t, tp, [r]), tp, batch);
    BatchIsCommit(d, CommitBatch(d, t, tp, batch), tp, [r]);
    TwoCommits(t, a, b);
    TwoCommits(t, b, a);
    CommitOrderIrrelevant(t, [a, b], [b, a]);
  }
}
