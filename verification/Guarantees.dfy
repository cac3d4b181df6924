/** The theorems about runs, read off the state of a process: whatever sequence of appends, assignments,
    revokes, restarts and broker moves produced it. */
module Guarantees {
  import opened Types
  import opened Tables
  import opened Logs
  import opened State
  import opened Steps
  import opened Txn
  import opened Environments
  import opened Process
  import opened Rehydrate
  import Coverage
  import Visibility
  import WarmCold

  /** As long as no assignment listed a shard still owned, a visible shard is READY or READY_PARTIAL in
      memory, so the revoke that hides it cannot skip it. */
  lemma VisibleMeansReady(env: Environment, conn: Connection, state: PartitionStateMachine, tp: TP)
    requires Coherent(env, conn, state) && Visibility.Safe(env.origin) && !env.reassigned
    requires Visibility.Visible(conn.committed, tp) != map[]
    ensures tp in state.entries && state.entries[tp].status in {READY, READY_PARTIAL}
  {
    Visibility.OwnedMeansReady(env.decode, env.origin, env.run);
    var id :| id in Visibility.Visible(conn.committed, tp);
  }

  /** A shard that was hidden after the first `k` events of the journal and has not been revealed since
      is still invisible, whatever a rehydrate has committed for it. */
  lemma HiddenUntilShown(env: Environment, conn: Connection, state: PartitionStateMachine, k: nat, tp: TP)
    requires Coherent(env, conn, state) && k <= |env.run| && Legal(env.decode, env.origin, env.run[..k])
    requires tp !in After(env.decode, env.origin, env.run[..k]).tables.owned
    requires Visibility.Reveals(env.run[..k]) <= env.shown && tp !in env.shown[|Visibility.Reveals(env.run[..k])|..]
    ensures Visibility.Visible(conn.committed, tp) == map[]
  {
    Visibility.NotRevealedSince(env.run, k, tp);
    Visibility.HiddenUntilRevealed(env.decode, env.origin, env.run, k, tp);
  }

  /** Memory does not run ahead of disk, unless a clamp was cut off from its write-back: what every
      operation keeps, read off between two of them. */
  lemma MemoryNotAhead(env: Environment, conn: Connection, state: PartitionStateMachine, tp: TP)
    requires Coherent(env, conn, state) && tp in state.entries && state.entries[tp].checkpoint.Some?
    requires tp !in env.adrift
    ensures tp in conn.committed.checkpoint && state.entries[tp].checkpoint.value <= conn.committed.checkpoint[tp]
  {
  }

  /** A process that began on a new database never loses a record of ours below its checkpoint, readable
      or not, to anything but an append that overtook it. */
  lemma NothingLost(env: Environment, conn: Connection, state: PartitionStateMachine, tp: TP, r: Record)
    requires Coherent(env, conn, state) && Initial(env.decode, env.origin) && tp !in env.regressed
    requires r in env.LogAt(tp).records && !env.decode(r).Foreign?
    requires tp in conn.committed.checkpoint && r.offset <= conn.committed.checkpoint[tp]
    ensures Coverage.HasRow(env.decode, env.world, tp, r) || (tp, r) in env.overtaken
  {
    Coverage.LossCondition(env.decode, env.origin, env.run, env.world, tp, r);
  }

  /** Where no append overtook anything, as when each is awaited on a caught-up shard before the next, it
      loses none at all. */
  lemma SparedLosesNothing(env: Environment, conn: Connection, state: PartitionStateMachine, tp: TP, r: Record)
    requires Coherent(env, conn, state) && Initial(env.decode, env.origin) && tp !in env.regressed
    requires Coverage.Spared(env.overtaken, tp)
    requires r in env.LogAt(tp).records && !env.decode(r).Foreign?
    requires tp in conn.committed.checkpoint && r.offset <= conn.committed.checkpoint[tp]
    ensures Coverage.HasRow(env.decode, env.world, tp, r)
  {
    NothingLost(env, conn, state, tp, r);
    assert (tp, r).0 == tp;
  }

  /** Nor does it hold a row that its changelog never held. */
  lemma NothingInvented(env: Environment, conn: Connection, state: PartitionStateMachine, id: Text)
    requires Coherent(env, conn, state) && Initial(env.decode, env.origin) && id in conn.committed.records
    ensures FromHeld(env.decode, env.world, id)
  {
    InitialProvenance(env.decode, env.origin);
    Steps.NothingInvented(env.decode, env.origin, env.run);
  }

  /** A shard that a rehydrate left READY has its checkpoint at the log end; and if nothing was removed
      from its changelog and nothing of it overtaken, it agrees with what a rebuild would leave. */
  lemma ReadyMeansCold(env: Environment, conn: Connection, state: PartitionStateMachine, tp: TP)
    requires Coherent(env, conn, state) && Initial(env.decode, env.origin)
    requires Served(env.LogAt(tp), conn.committed, state.entries, env.adrift, tp) && state.entries[tp].status == READY
    ensures StartAfter(CheckpointOf(conn.committed, tp)) == env.LogAt(tp).end
    ensures tp !in env.regressed + env.trimmed && Coverage.Spared(env.overtaken, tp) ==>
              var log := env.LogAt(tp);
              && Readable(env.decode, log.records)
              && ((exists t :: WarmCold.Rebuilt(env.decode, log, tp, t)) <==> Finishes(log, None))
              && forall t | WarmCold.Rebuilt(env.decode, log, tp, t) ::
                   WarmCold.Agrees(env.decode, env.origin, env.run, tp, t)
  {
    hide Readable, Finishes, WarmCold.Rebuilt, WarmCold.Agrees, Initial, Legal, After;
    var log := env.LogAt(tp);
    assert LogOf(env.world, tp) == log && log.Valid();
    if log.records != [] {
      assert Last(log.records).offset < log.end;
    }
    if tp !in env.regressed + env.trimmed && Coverage.Spared(env.overtaken, tp) {
      WarmCold.WarmEqualsCold(env.decode, env.origin, env.run, tp);
    }
  }

  lemma {:induction false} OffsetsSpread(rs: seq<Record>, low: int, high: int)
    requires Increasing(rs) && low <= high && forall r | r in rs :: low <= r.offset < high
    ensures |rs| <= high - low
  {
    if rs != [] {
      assert Last(rs) in rs && forall i | 0 <= i < |rs| - 1 :: rs[i] in rs && rs[i].offset < rs[|rs| - 1].offset;
      OffsetsSpread(DropLast(rs), low, Last(rs).offset);
    }
  }

  /** What a host is told of a shard that a rehydrate has served: its live status; no lag if it is READY; if
      it is READY_PARTIAL with a checkpoint not above the log end, a lag of at least what is left to replay. */
  lemma ToldToHost(env: Environment, conn: Connection, state: PartitionStateMachine, tp: TP)
    requires Coherent(env, conn, state) && tp !in env.adrift
    requires Served(env.LogAt(tp), conn.committed, state.entries, env.adrift, tp)
    ensures var told := state.PartitionStates();
            && tp in told && told[tp].status == state.entries[tp].status
            && told[tp].checkpoint == CheckpointOf(conn.committed, tp) && told[tp].logEnd == Some(env.LogAt(tp).end)
            && (told[tp].status == READY ==> told[tp].lag == Some(0))
            && (StartAfter(CheckpointOf(conn.committed, tp)) <= env.LogAt(tp).end ==>
                  told[tp].lag.Some? && |Todo(env.LogAt(tp), CheckpointOf(conn.committed, tp))| <= told[tp].lag.value)
  {
    var log, cp := env.LogAt(tp), CheckpointOf(conn.committed, tp);
    assert LogOf(env.world, tp) == log && log.Valid();
    if StartAfter(cp) <= log.end {
      var from := TodoIs(log, cp);
      OffsetsSpread(Todo(log, cp), from, log.end);
    }
  }
}
