/** What a rehydrate owes the next one: completed, it leaves nothing to do; cut short by the budget or
    by an error, it leaves exactly the rest, so that any number of cut attempts add up to one. */
module Convergence {
  import opened Types
  import opened Tables
  import opened Logs
  import opened State
  import opened Rehydrate
  import opened Steps
  import Coverage
  import Wire

  /** A READY rehydrate is exact, wherever its checkpoint started: below the log start, above the log
      end, in range or absent.  Every record of its work that is ours has its row, every new row comes
      from the first record carrying its id, and the checkpoint is right below the log end. */
  lemma ReadyIsExact(d: Decoder, log: Log, tp: TP, t0: Tables, done: nat, t: Tables)
    requires log.Valid() && Leaves(d, log, tp, t0, Ready, done, t)
    ensures var todo := Todo(log, CheckpointOf(t0, tp));
            && (forall i | 0 <= i < |todo| :: !d(todo[i]).Poison? && (d(todo[i]).Ours? ==> d(todo[i]).id in t.records))
            && (forall id | id in t0.records :: id in t.records && t.records[id] == t0.records[id])
            && (forall id | id in t.records && id !in t0.records :: exists i: nat ::
                      FirstGiver(d, tp, todo, i, id, t.records[id]))
    ensures CheckpointOf(t, tp) == if log.end == 0 && tp !in t0.checkpoint then None else Some(log.end - 1)
    ensures Todo(log, CheckpointOf(t, tp)) == [] && tp in t.owned
  {
    var todo := Todo(log, CheckpointOf(t0, tp));
    assert todo[..done] == todo;
    ReplayRows(d, t0, tp, todo);
    FromStart(log);
    if log.end == 0 && tp !in t0.checkpoint {
      assert log.records == [];
    }
    forall i | 0 <= i < |todo| ensures !d(todo[i]).Poison? {
      assert Readable(d, todo[..done]);
    }
  }

  /** Assigned again, a completed shard needs no fetch and its tables do not change. */
  lemma SecondAssignmentIdle(d: Decoder, log: Log, tp: TP, t0: Tables, done: nat, t: Tables,
                             outcome: Outcome, done': nat, t': Tables)
    requires log.Valid() && Leaves(d, log, tp, t0, Ready, done, t) && Leaves(d, log, tp, t, outcome, done', t')
    ensures StartAfter(CheckpointOf(t, tp)) == log.end && done' == 0 && t' == t
  {
    ReadyIsExact(d, log, tp, t0, done, t);
    if tp in t.checkpoint {
      assert t.checkpoint[tp := t.checkpoint[tp]] == t.checkpoint;
    }
    assert t.owned + {tp} == t.owned;
  }

  /** A record of the work that cannot be read stops every rehydrate before it: the call is not READY, no
      batch with the record commits, and the checkpoint is the old one or the last committed record's. */
  lemma UnreadableStops(d: Decoder, log: Log, tp: TP, t0: Tables, outcome: Outcome, done: nat, t: Tables, i: nat)
    requires log.Valid() && Leaves(d, log, tp, t0, outcome, done, t)
    requires i < |Todo(log, CheckpointOf(t0, tp))| && d(Todo(log, CheckpointOf(t0, tp))[i]).Poison?
    ensures done <= i && !outcome.Ready?
    ensures CheckpointOf(t, tp) == CheckpointOf(t0, tp)
         || (done > 0 && CheckpointOf(t, tp) == Some(Todo(log, CheckpointOf(t0, tp))[done - 1].offset))
    ensures outcome.Raised? && !(outcome.error == Cancelled && outcome.at.Revealing?) ==> t.owned == t0.owned
  {
    hide Replay, Todo, Settled;
    var todo := Todo(log, CheckpointOf(t0, tp));
    assert forall j | 0 <= j < done :: todo[..done][j] == todo[j];
    ReplayRows(d, t0, tp, todo[..done]);
    PrefixCheckpoint(d, log, tp, t0, done);
  }

  /** A record of the library's with an unknown version, or with none, is never skipped: whatever decodes
      the wire format stops every rehydrate before it, with RehydrateError if it is the first of its kind. */
  lemma UnknownVersionStops(p: Wire.Parsers, d: Decoder, log: Log, tp: TP, t0: Tables, outcome: Outcome, done: nat,
                            t: Tables, i: nat, id: Text)
    requires Wire.Decodes(p, d) && log.Valid() && Leaves(d, log, tp, t0, outcome, done, t)
    requires i < |Todo(log, CheckpointOf(t0, tp))|
    requires var r := Todo(log, CheckpointOf(t0, tp))[i]; Wire.HasId(p, r, id) && !Wire.IsVersion1(r)
    ensures d(Todo(log, CheckpointOf(t0, tp))[i]) == Poison(RehydrateError)
    ensures done <= i && !outcome.Ready?
  {
    var r := Todo(log, CheckpointOf(t0, tp))[i];
    assert d(r) == Wire.Judge(p, r);
    Wire.JudgeExactly(p, r);
    UnreadableStops(d, log, tp, t0, outcome, done, t, i);
  }

  /** A record without a uuid for message id, or a version 1 record with a key or value that is missing or
      not UTF-8, is skipped: it adds no row, and the checkpoint passes it. */
  lemma ForeignSkipped(p: Wire.Parsers, d: Decoder, t: Tables, tp: TP, r: Record)
    requires Wire.Decodes(p, d)
    requires (forall id :: !Wire.HasId(p, r, id))
          || (Wire.IsVersion1(r) && forall key :: !Wire.Spells(r.key, key))
          || (Wire.IsVersion1(r) && forall text :: !Wire.Spells(r.value, text))
    ensures d(r) == Foreign && Readable(d, [r])
    ensures var t' := CommitBatch(d, t, tp, [r]);
            && t'.records == t.records && t'.owned == t.owned
            && tp in t'.checkpoint && r.offset <= t'.checkpoint[tp]
  {
    assert d(r) == Wire.Judge(p, r);
    Wire.JudgeExactly(p, r);
    assert DropLast([r]) == [] && Last([r]) == r && PlaceAll(d, t, tp, []) == t;
    assert PlaceAll(d, t, tp, [r]) == t;
  }

  /** A rehydrate lowers a checkpoint only if it was above the log end, and then to right below it; only
      one that met the log end does so. */
  lemma FallsOnlyAboveTheEnd(d: Decoder, log: Log, tp: TP, t0: Tables, outcome: Outcome, done: nat, t: Tables)
    requires log.Valid() && Leaves(d, log, tp, t0, outcome, done, t) && tp in t0.checkpoint
    ensures tp in t.checkpoint
    ensures t.checkpoint[tp] < t0.checkpoint[tp] ==>
              t0.checkpoint[tp] > log.end - 1 && t.checkpoint[tp] == log.end - 1 && !outcome.Partial?
  {
    hide Todo, Replay;
    var todo := Todo(log, CheckpointOf(t0, tp));
    PrefixCheckpoint(d, log, tp, t0, done);
    assert tp in Replay(d, t0, tp, todo[..done]).checkpoint;
  }

  // ---- attempts that add up ---------------------------------------------------------------------

  /** The checkpoint is absent or not above the log end: replay can resume where it stopped. */
  predicate Resumes(log: Log, checkpoint: Option<int>) {
    StartAfter(checkpoint) <= log.end
  }

  /** A cut attempt leaves exactly the rest, and strictly raises the checkpoint if it did anything. */
  lemma LeavesTheRest(d: Decoder, log: Log, tp: TP, t0: Tables, done: nat, t: Tables)
    requires log.Valid() && Resumes(log, CheckpointOf(t0, tp)) && Replayed(d, log, tp, t0, done, t)
    ensures Todo(log, CheckpointOf(t, tp)) == Todo(log, CheckpointOf(t0, tp))[done..]
    ensures Resumes(log, CheckpointOf(t, tp))
    ensures done > 0 ==> StartAfter(CheckpointOf(t0, tp)) < StartAfter(CheckpointOf(t, tp))
  {
    hide Replay, From;
    var cp := CheckpointOf(t0, tp);
    var todo := Todo(log, cp);
    var from := TodoIs(log, cp);
    PrefixCheckpoint(d, log, tp, t0, done);
    if done > 0 {
      assert todo[done - 1] in todo;
      FromAdvances(log.records, from, done);
    }
  }

  /** Above the log end there is no resuming: a cut attempt skips the clamps, so the checkpoint and the
      work stay the same, however many records it committed. */
  lemma AboveTheEndNothingAdds(d: Decoder, log: Log, tp: TP, t0: Tables, done: nat, t: Tables)
    requires log.Valid() && !Resumes(log, CheckpointOf(t0, tp)) && Leaves(d, log, tp, t0, Partial, done, t)
    ensures CheckpointOf(t, tp) == CheckpointOf(t0, tp) && Todo(log, CheckpointOf(t, tp)) == log.records
  {
    ReplayCheckpoint(d, t0, tp, log.records[..done]);
  }

  lemma CommitAndRegress(d: Decoder, w: World, tp: TP, r0: Record, r1: Record, r2: Record)
    requires w == World(map[tp := Log(0, 2, [r0, r1])], {(tp, r0), (tp, r1)}, EMPTY, map[], None)
    requires r0.offset == 0 && r1.offset == 1 && r2.offset == 2 && d(r2).Ours?
    requires Consistent(d, {(tp, r0), (tp, r1), (tp, r2)})
    ensures Enabled(d, w, Land(tp, r2))
    ensures var w1 := Step(d, w, Land(tp, r2));
            Enabled(d, w1, AppendCommit(tp, r2)) &&
            var w2 := Step(d, w1, AppendCommit(tp, r2));
            Enabled(d, w2, Truncate(tp, 2)) &&
            var w3 := Step(d, w2, Truncate(tp, 2));
            LogOf(w3, tp) == Log(0, 2, [r0, r1]) && CheckpointOf(w3.tables, tp) == Some(2)
  {
    assert w.held + {(tp, r2)} == {(tp, r0), (tp, r1), (tp, r2)};
    var landed := [r0, r1, r2];
    assert [r0, r1] + [r2] == landed && DropLast(landed) == [r0, r1];
    assert Below(landed, 2) == Below([r0, r1], 2) == [r0, r1];
  }

  /** A cut attempt at such a checkpoint. */
  lemma CutAboveTheEnd(d: Decoder, tp: TP, r0: Record, r1: Record, t: Tables)
    requires r0.offset == 0 && r1.offset == 1 && d(r0).Ours? && CheckpointOf(t, tp) == Some(2)
    ensures var log, left := Log(0, 2, [r0, r1]), Reveal(Replay(d, t, tp, [r0]), tp);
            && log.Valid() && !Resumes(log, CheckpointOf(t, tp)) && Leaves(d, log, tp, t, Partial, 1, left)
            && CheckpointOf(left, tp) == Some(2) && Todo(log, CheckpointOf(left, tp)) == Todo(log, Some(2)) == [r0, r1]
            && d(r0).id in left.records
  {
    assert [r0, r1][..1] == [r0] && DropLast([r0]) == [];
  }

  /** Such a checkpoint is within reach: three records land, the third commits, the log end regresses to
      2.  A cut attempt then commits a record and has as much left to do as before. */
  lemma StaleHighCheckpoint(d: Decoder, w: World, tp: TP, r0: Record, r1: Record, r2: Record)
    requires w == World(map[], {}, EMPTY, map[], None)
    requires r0.offset == 0 && r1.offset == 1 && r2.offset == 2 && d(r0).Ours? && d(r2).Ours?
    requires Consistent(d, {(tp, r0), (tp, r1), (tp, r2)})
    ensures var run := [Land(tp, r0), Land(tp, r1), Land(tp, r2), AppendCommit(tp, r2), Truncate(tp, 2)];
            Initial(d, w) && Legal(d, w, run) &&
            var log, t := LogOf(After(d, w, run), tp), After(d, w, run).tables;
            var left := Reveal(Replay(d, t, tp, [r0]), tp);
            && !Resumes(log, CheckpointOf(t, tp)) && Leaves(d, log, tp, t, Partial, 1, left)
            && d(r0).id in left.records
            && Todo(log, CheckpointOf(left, tp)) == Todo(log, CheckpointOf(t, tp)) == [r0, r1]
  {
    hide Enabled, Step, Leaves, Resumes, Todo, Replay, Consistent;
    var run2, e3, e4, e5 := [Land(tp, r0), Land(tp, r1)], Land(tp, r2), AppendCommit(tp, r2), Truncate(tp, 2);
    FewerConsistent(d, {}, {(tp, r0), (tp, r1), (tp, r2)});
    FewerConsistent(d, {(tp, r0), (tp, r1)}, {(tp, r0), (tp, r1), (tp, r2)});
    Coverage.BothLand(d, w, tp, r0, r1);
    CommitAndRegress(d, After(d, w, run2), tp, r0, r1, r2);
    RunSnoc(d, w, run2, e3);
    RunSnoc(d, w, run2 + [e3], e4);
    RunSnoc(d, w, run2 + [e3] + [e4], e5);
    assert run2 + [e3] + [e4] + [e5] == [Land(tp, r0), Land(tp, r1), e3, e4, e5];
    CutAboveTheEnd(d, tp, r0, r1, After(d, w, run2 + [e3] + [e4] + [e5]).tables);
  }

  lemma FewerConsistent(d: Decoder, some: set<(TP, Record)>, held: set<(TP, Record)>)
    requires some <= held && Consistent(d, held)
    ensures Consistent(d, some)
  {
  }

  /** Rows and checkpoints agree; visibility may differ. */
  predicate SameData(t: Tables, t': Tables) {
    t.records == t'.records && t.checkpoint == t'.checkpoint
  }

  lemma {:induction false} ReplaySameData(d: Decoder, t: Tables, t': Tables, tp: TP, rs: seq<Record>)
    requires SameData(t, t')
    ensures SameData(Replay(d, t, tp, rs), Replay(d, t', tp, rs))
  {
    if rs != [] {
      ReplaySameData(d, t, t', tp, DropLast(rs));
    }
  }

  function Sum(ns: seq<nat>): nat {
    if ns == [] then 0 else Sum(DropLast(ns)) + Last(ns)
  }

  function Productive(ns: seq<nat>): nat {
    if ns == [] then 0 else Productive(DropLast(ns)) + if Last(ns) > 0 then 1 else 0
  }

  lemma {:induction false} ProductiveWithinSum(ns: seq<nat>)
    ensures Productive(ns) <= Sum(ns)
  {
    if ns != [] {
      ProductiveWithinSum(DropLast(ns));
    }
  }

  /** Attempts one after the other on an unchanged log, each force-stopped; between two of them the
      shard may have been revoked, or the process restarted: anything that keeps rows and checkpoints.
      `ts[i]` is what attempt `i` starts from, `dones[i]` how many records it commits. */
  ghost predicate Attempts(d: Decoder, log: Log, tp: TP, ts: seq<Tables>, dones: seq<nat>) {
    && |ts| == |dones| + 1
    && forall i | 0 <= i < |dones| :: Attempt(d, log, tp, ts[i], dones[i], ts[i + 1])
  }

  ghost predicate Attempt(d: Decoder, log: Log, tp: TP, t: Tables, done: nat, t': Tables) {
    exists left :: Leaves(d, log, tp, t, Partial, done, left) && SameData(left, t')
  }

  lemma AttemptReplays(d: Decoder, log: Log, tp: TP, t: Tables, done: nat, t': Tables)
    requires Attempt(d, log, tp, t, done, t')
    ensures done <= |Todo(log, CheckpointOf(t, tp))| && Readable(d, Todo(log, CheckpointOf(t, tp))[..done])
    ensures SameData(Replay(d, t, tp, Todo(log, CheckpointOf(t, tp))[..done]), t')
  {
    var left :| Leaves(d, log, tp, t, Partial, done, left) && SameData(left, t');
  }

  /** From tables that hold a replay of the first `n` records, the next `k` are the next of the work. */
  lemma Continues(d: Decoder, log: Log, tp: TP, t0: Tables, n: nat, t: Tables, k: nat)
    requires log.Valid() && Resumes(log, CheckpointOf(t0, tp)) && n + k <= |Todo(log, CheckpointOf(t0, tp))|
    requires Readable(d, Todo(log, CheckpointOf(t0, tp))[..n])
    requires SameData(Replay(d, t0, tp, Todo(log, CheckpointOf(t0, tp))[..n]), t)
    ensures var todo, rest := Todo(log, CheckpointOf(t0, tp)), Todo(log, CheckpointOf(t, tp));
            && rest == todo[n..] && todo[..n] + rest[..k] == todo[..n + k]
            && SameData(Replay(d, t0, tp, todo[..n + k]), Replay(d, t, tp, rest[..k]))
  {
    hide Todo, Replay;
    var todo := Todo(log, CheckpointOf(t0, tp));
    var reached := Replay(d, t0, tp, todo[..n]);
    LeavesTheRest(d, log, tp, t0, n, reached);
    assert CheckpointOf(reached, tp) == CheckpointOf(t, tp);
    assert todo[..n] + todo[n..][..k] == todo[..n + k];
    ReplaySameData(d, reached, t, tp, todo[n..][..k]);
    ReplayConcat(d, t0, tp, todo[..n], todo[n..][..k]);
  }

  lemma NothingYet(d: Decoder, t: Tables, tp: TP, rs: seq<Record>)
    ensures Replay(d, t, tp, rs[..0]) == t
  {
    assert rs[..0] == [];
  }

  /** All attempts together replay a prefix of the work of the first, once each. */
  lemma {:induction false} AttemptsAddUp(d: Decoder, log: Log, tp: TP, ts: seq<Tables>, dones: seq<nat>)
    requires log.Valid() && Attempts(d, log, tp, ts, dones) && Resumes(log, CheckpointOf(ts[0], tp))
    ensures var todo := Todo(log, CheckpointOf(ts[0], tp));
            && Sum(dones) <= |todo| && Readable(d, todo[..Sum(dones)])
            && SameData(Replay(d, ts[0], tp, todo[..Sum(dones)]), Last(ts))
  {
    hide Todo, Attempt, Resumes, Replay, CheckpointOf;
    NothingYet(d, ts[0], tp, Todo(log, CheckpointOf(ts[0], tp)));
    if dones != [] {
      var before, done, n := DropLast(ts), Last(dones), Sum(DropLast(dones));
      var todo := Todo(log, CheckpointOf(ts[0], tp));
      assert forall i | 0 <= i < |dones| - 1 :: Attempt(d, log, tp, before[i], DropLast(dones)[i], before[i + 1]);
      AttemptsAddUp(d, log, tp, before, DropLast(dones));
      assert Attempt(d, log, tp, Last(before), done, Last(ts));
      AttemptReplays(d, log, tp, Last(before), done, Last(ts));
      Continues(d, log, tp, ts[0], n, Last(before), 0);
      Continues(d, log, tp, ts[0], n, Last(before), done);
      assert Readable(d, todo[..n] + todo[n..][..done]);
    }
  }

  /** Budgeted convergence.  From a checkpoint not above the log end, at most as many force-stopped
      attempts commit anything as there are records to replay; and once an attempt completes, rows and
      checkpoint are those of a single replay that was never cut. */
  lemma BudgetedConvergence(d: Decoder, log: Log, tp: TP, ts: seq<Tables>, dones: seq<nat>, done: nat, t: Tables)
    requires log.Valid() && Attempts(d, log, tp, ts, dones) && Resumes(log, CheckpointOf(ts[0], tp))
    requires Leaves(d, log, tp, Last(ts), Ready, done, t)
    ensures Productive(dones) <= |Todo(log, CheckpointOf(ts[0], tp))|
    ensures SameData(t, Settled(log, Replay(d, ts[0], tp, Todo(log, CheckpointOf(ts[0], tp))), tp))
  {
    hide Todo, Attempt, Resumes, Replay;
    var todo, n := Todo(log, CheckpointOf(ts[0], tp)), Sum(dones);
    ProductiveWithinSum(dones);
    AttemptsAddUp(d, log, tp, ts, dones);
    Continues(d, log, tp, ts[0], n, Last(ts), |todo| - n);
    assert todo[..n + (|todo| - n)] == todo && todo[n..][..|todo| - n] == todo[n..];
  }

  // ---- a log that grows during the call -----------------------------------------------------------

  /** A call between its placement of the consumer and its end: in range, and what is fetched lies ahead. */
  predicate InCall(w: World, tp: TP) {
    && InSession(w, tp) && !w.session.value.mayReset && LogOf(w, tp).InRange(w.session.value.position)
    && forall r | r in w.session.value.batch :: w.session.value.position <= r.offset < LogOf(w, tp).end
  }

  /** The position has passed the log end captured before the loop. */
  predicate Overshot(w: World, tp: TP, leo: int) {
    InCall(w, tp) && leo < w.session.value.position
  }

  /** Nothing interrupts the call, and the changelog only grows. */
  predicate OnlyGrows(run: seq<Event>, tp: TP) {
    forall i | 0 <= i < |run| ::
      !run[i].Open? && !run[i].Close? && !run[i].Restart?
      && !((run[i].Trim? || run[i].Truncate?) && run[i].tp == tp)
  }

  lemma InCallKept(d: Decoder, w: World, e: Event, tp: TP)
    requires Provenance(d, w) && InCall(w, tp) && Enabled(d, w, e) && OnlyGrows([e], tp)
    ensures var w' := Step(d, w, e);
            && InCall(w', tp) && !Enabled(d, w, OutOfRange(tp))
            && forall r | r in LogOf(w, tp).records :: r in LogOf(w', tp).records
    ensures Step(d, w, e).session.value.position ==
            if e == ReplayCommit(tp) then Last(w.session.value.batch).offset + 1 else w.session.value.position
    ensures w.session.value.position <= Step(d, w, e).session.value.position
  {
    hide From, Below, Consistent, FromHeld, PlaceAll, Readable, Increasing;
    assert [e][0] == e;
    OnlyBrokersMoveLogs(d, w, e);
    LogValid(d, w, tp);
    if e.ReplayCommit? {
      assert Last(w.session.value.batch) in w.session.value.batch;
    } else if e.Fetch? {
      FromMembers(LogOf(w, tp).records, w.session.value.position);
      assert forall r | r in LogOf(w, tp).records :: r.offset < LogOf(w, tp).end;
    }
  }

  /** A loop that has passed the captured log end never meets it: no later fetch brings the position back
      to it or finds it out of range, so no reset is possible. */
  lemma {:induction false} OvershotForGood(d: Decoder, w: World, run: seq<Event>, tp: TP, leo: int)
    requires Provenance(d, w) && Legal(d, w, run) && Overshot(w, tp, leo) && OnlyGrows(run, tp)
    ensures var w' := After(d, w, run);
            && InSession(w', tp) && w'.session.value.position != leo
            && !Enabled(d, w', OutOfRange(tp)) && Overshot(w', tp, leo)
  {
    hide Step, Provenance;
    if run != [] {
      var front, e := DropLast(run), Last(run);
      assert OnlyGrows(front, tp) && run[|run| - 1] == e && OnlyGrows([e], tp);
      OvershotForGood(d, w, front, tp, leo);
      Steps.NothingInvented(d, w, front);
      InCallKept(d, After(d, w, front), e, tp);
    }
  }

  /** The loop's own position: where the call started it, until a batch is committed. */
  function Local(w: World, run: seq<Event>, tp: TP, start: int): int
    requires InSession(w, tp)
  {
    if ReplayCommit(tp) in run then w.session.value.position else start
  }

  /** Some batch that the run commits holds a record at or above the captured log end. */
  predicate Overshoots(d: Decoder, w: World, run: seq<Event>, tp: TP, leo: int)
    requires Legal(d, w, run)
  {
    && run != []
    && (Overshoots(d, w, DropLast(run), tp, leo)
        || (Last(run) == ReplayCommit(tp)
            && exists r :: r in After(d, w, DropLast(run)).session.value.batch && leo <= r.offset))
  }

  /** The consumer has been placed; the loop's position is the consumer's, or 0 with nothing stored. */
  predicate Placed(w: World, tp: TP, leo: int, start: int) {
    && InCall(w, tp) && start <= leo
    && (start == w.session.value.position || (start == 0 && w.session.value.position == LogOf(w, tp).start))
  }

  /** The code's loop: it replays while its position is not the captured log end, and the shard becomes
      READY only when it is. */
  predicate Loops(d: Decoder, w: World, run: seq<Event>, tp: TP, leo: int, start: int)
    requires Legal(d, w, run)
  {
    run == [] ||
    (Loops(d, w, DropLast(run), tp, leo, start)
     && var before := After(d, w, DropLast(run));
        InSession(before, tp)
        && (Last(run) == ReplayCommit(tp) ==> Local(before, DropLast(run), tp, start) != leo)
        && (Last(run) == Mark(tp, READY) ==> Local(before, DropLast(run), tp, start) == leo))
  }

  lemma {:induction false} CallStands(d: Decoder, w: World, run: seq<Event>, tp: TP, leo: int, start: int)
    requires Provenance(d, w) && Legal(d, w, run) && Placed(w, tp, leo, start) && OnlyGrows(run, tp)
    ensures var w' := After(d, w, run);
            && InCall(w', tp) && Provenance(d, w') && start <= w'.session.value.position
            && (Overshoots(d, w, run, tp, leo) <==> leo < Local(w', run, tp, start))
            && (ReplayCommit(tp) !in run ==> w'.session.value.position == w.session.value.position)
            && (forall r | r in LogOf(w, tp).records :: r in LogOf(w', tp).records)
  {
    hide Step, Enabled, Provenance;
    if run == [] {
      LogValid(d, w, tp);
    } else {
      var front, e, before := DropLast(run), Last(run), After(d, w, DropLast(run));
      assert OnlyGrows(front, tp) && run[|run| - 1] == e && OnlyGrows([e], tp);
      CallStands(d, w, front, tp, leo, start);
      InCallKept(d, before, e, tp);
      ProvenanceKept(d, before, e);
      assert forall x :: x in run <==> x in front || x == e;
      if e == ReplayCommit(tp) {
        BatchOvershoots(d, before, tp, leo);
      }
    }
  }

  /** A call on a log that grows meanwhile.  Once it has replayed all that lay below the captured end, it
      completes if and only if no batch it committed held a record at or above that end; it becomes READY
      only so, and then may; and until then, if a record lies right below that end, it has one to fetch. */
  lemma CompletesExactly(d: Decoder, w: World, run: seq<Event>, tp: TP, leo: int, start: int)
    requires Provenance(d, w) && Legal(d, w, run) && Placed(w, tp, leo, start) && OnlyGrows(run, tp)
    requires Loops(d, w, run, tp, leo, start)
    ensures var w' := After(d, w, run);
            && InCall(w', tp)
            && (leo <= Local(w', run, tp, start) ==>
                  (Local(w', run, tp, start) == leo <==> !Overshoots(d, w, run, tp, leo)))
            && (Mark(tp, READY) in run ==>
                  Local(w', run, tp, start) == leo && !Overshoots(d, w, run, tp, leo))
            && (Local(w', run, tp, start) == leo ==>
                  Legal(d, w, run + [Mark(tp, READY)]) && Loops(d, w, run + [Mark(tp, READY)], tp, leo, start))
            && (Local(w', run, tp, start) < leo ==>
                  forall r | r in LogOf(w, tp).records && w.session.value.position <= r.offset == leo - 1 ::
                    r in From(LogOf(w', tp).records, w'.session.value.position))
  {
    hide Step, Provenance, From;
    CallStands(d, w, run, tp, leo, start);
    if Mark(tp, READY) in run {
      ReadyStays(d, w, run, tp, leo, start);
    }
    var w', ready := After(d, w, run), Mark(tp, READY);
    LogValid(d, w', tp);
    FromMembers(LogOf(w', tp).records, w'.session.value.position);
    if Local(w', run, tp, start) == leo {
      RunSnoc(d, w, run, ready);
      assert DropLast(run + [ready]) == run;
    }
  }

  /** Once READY, the loop is over. */
  lemma {:induction false} ReadyStays(d: Decoder, w: World, run: seq<Event>, tp: TP, leo: int, start: int)
    requires Provenance(d, w) && Legal(d, w, run) && Placed(w, tp, leo, start) && OnlyGrows(run, tp)
    requires Loops(d, w, run, tp, leo, start) && Mark(tp, READY) in run
    ensures InSession(After(d, w, run), tp) && Local(After(d, w, run), run, tp, start) == leo
  {
    hide Step, Enabled, Provenance;
    var front, e, before := DropLast(run), Last(run), After(d, w, DropLast(run));
    assert OnlyGrows(front, tp) && run[|run| - 1] == e && OnlyGrows([e], tp);
    CallStands(d, w, front, tp, leo, start);
    InCallKept(d, before, e, tp);
    assert forall x :: x in run <==> x in front || x == e;
    if Mark(tp, READY) in front {
      ReadyStays(d, w, front, tp, leo, start);
    }
  }

  lemma OpensAtStart(d: Decoder, w: World, tp: TP, r0: Record)
    requires w == World(map[], {}, EMPTY, map[], None)
    requires r0.offset == 0 && Consistent(d, {(tp, r0)})
    ensures var run := [Land(tp, r0), Open(tp), SeekToBeginning(tp)];
            Initial(d, w) && Legal(d, w, run) && After(d, w, run) ==
              World(map[tp := Log(0, 1, [r0])], {(tp, r0)}, EMPTY, map[], Some(Session(tp, 0, [], false, false)))
  {
    var e0, e1, e2 := Land(tp, r0), Open(tp), SeekToBeginning(tp);
    RunSnoc(d, w, [], e0);
    assert [] + [e0] == [e0] && [] + [r0] == [r0] && {} + {(tp, r0)} == {(tp, r0)};
    RunSnoc(d, w, [e0], e1);
    assert [e0] + [e1] == [e0, e1];
    RunSnoc(d, w, [e0, e1], e2);
    assert [e0, e1] + [e2] == [e0, e1, e2];
  }

  /** Such a call: a record lands after the log end was captured, and comes with the last one below it. */
  lemma GrowingLogOvershoots(d: Decoder, w: World, tp: TP, r0: Record, r1: Record)
    requires w == World(map[tp := Log(0, 1, [r0])], {(tp, r0)}, EMPTY, map[], Some(Session(tp, 0, [], false, false)))
    requires r0.offset == 0 && r1.offset == 1 && Consistent(d, {(tp, r0), (tp, r1)}) && Readable(d, [r0, r1])
    ensures var run := [Land(tp, r1), Fetch(tp, 2), ReplayCommit(tp)];
            && Legal(d, w, run) && Placed(w, tp, 1, 0) && OnlyGrows(run, tp) && Loops(d, w, run, tp, 1, 0)
            && Overshoots(d, w, run, tp, 1) && Overshot(After(d, w, run), tp, 1)
  {
    hide Step, Enabled, Consistent, Readable, Placed, OnlyGrows, Overshot, InCall;
    var e0, e1, e2 := Land(tp, r1), Fetch(tp, 2), ReplayCommit(tp);
    GrowSteps(d, w, tp, r0, r1);
    LoopsSnoc(d, w, [], e0, tp, 1, 0);
    assert [] + [e0] == [e0];
    LoopsSnoc(d, w, [e0], e1, tp, 1, 0);
    assert [e0] + [e1] == [e0, e1];
    LoopsSnoc(d, w, [e0, e1], e2, tp, 1, 0);
    assert [e0, e1] + [e2] == [e0, e1, e2];
    assert r1 in [r0, r1];
  }

  lemma GrowSteps(d: Decoder, w: World, tp: TP, r0: Record, r1: Record)
    requires w == World(map[tp := Log(0, 1, [r0])], {(tp, r0)}, EMPTY, map[], Some(Session(tp, 0, [], false, false)))
    requires r0.offset == 0 && r1.offset == 1 && Consistent(d, {(tp, r0), (tp, r1)}) && Readable(d, [r0, r1])
    ensures Enabled(d, w, Land(tp, r1)) && Placed(w, tp, 1, 0)
    ensures OnlyGrows([Land(tp, r1), Fetch(tp, 2), ReplayCommit(tp)], tp)
    ensures var w1 := Step(d, w, Land(tp, r1));
            w1 == World(map[tp := Log(0, 2, [r0, r1])], {(tp, r0), (tp, r1)}, EMPTY, map[], w.session)
            && Enabled(d, w1, Fetch(tp, 2)) &&
            var w2 := Step(d, w1, Fetch(tp, 2));
            w2 == w1.(session := Some(Session(tp, 0, [r0, r1], false, false)))
            && Enabled(d, w2, ReplayCommit(tp)) && Overshot(Step(d, w2, ReplayCommit(tp)), tp, 1)
  {
    hide PlaceAll, Consistent;
    var rs := [r0, r1];
    assert w.held + {(tp, r1)} == {(tp, r0), (tp, r1)} && [r0] + [r1] == rs;
    assert From(rs, 0)[..2] == rs;
  }

  lemma LoopsSnoc(d: Decoder, w: World, run: seq<Event>, e: Event, tp: TP, leo: int, start: int)
    requires Legal(d, w, run) && Enabled(d, After(d, w, run), e) && Loops(d, w, run, tp, leo, start)
    requires InSession(After(d, w, run), tp) && e != Mark(tp, READY)
    requires e == ReplayCommit(tp) ==> Local(After(d, w, run), run, tp, start) != leo
    ensures Legal(d, w, run + [e]) && After(d, w, run + [e]) == Step(d, After(d, w, run), e)
    ensures Loops(d, w, run + [e], tp, leo, start)
    ensures Overshoots(d, w, run + [e], tp, leo) <==>
              Overshoots(d, w, run, tp, leo) || (e == ReplayCommit(tp)
                && exists r :: r in After(d, w, run).session.value.batch && leo <= r.offset)
  {
    hide Step, Enabled;
    RunSnoc(d, w, run, e);
    assert DropLast(run + [e]) == run;
  }

  /** A batch passes the captured log end exactly if a record has landed there and was fetched with it. */
  lemma BatchOvershoots(d: Decoder, w: World, tp: TP, leo: int)
    requires Provenance(d, w) && Enabled(d, w, ReplayCommit(tp)) && !w.session.value.mayReset
    requires forall r | r in w.session.value.batch :: w.session.value.position <= r.offset < LogOf(w, tp).end
    requires LogOf(w, tp).start <= w.session.value.position
    ensures Overshot(Step(d, w, ReplayCommit(tp)), tp, leo) <==>
              exists r :: r in w.session.value.batch && leo <= r.offset
  {
    var batch := w.session.value.batch;
    assert Last(batch) in batch;
    forall r | r in batch ensures r.offset <= Last(batch).offset {
      var i :| 0 <= i < |batch| && batch[i] == r;
    }
  }
}
