/** What the `records` view shows, at every step of every run. */
module Visibility {
  import opened Types
  import opened Tables
  import opened State
  import opened Steps

  /** The rows of one shard that a query can see. */
  function Visible(t: Tables, tp: TP): map<Text, Row> {
    map id | id in View(t) && View(t)[id].tp == tp :: View(t)[id]
  }

  /** Every owned shard is known in memory as READY or READY_PARTIAL.  So a revoke, which skips
      shards it does not know, never skips a visible one. */
  predicate Safe(w: World) {
    forall tp | tp in w.tables.owned :: tp in w.status && w.status[tp] in {READY, READY_PARTIAL}
  }

  /** No rehydrate of the run starts on a shard that is still owned. */
  predicate NeverReassigned(d: Decoder, w: World, run: seq<Event>)
    requires Legal(d, w, run)
  {
    run == [] ||
    (NeverReassigned(d, w, DropLast(run))
     && (Last(run).Mark? && Last(run).status == RESTORING ==> Last(run).tp !in After(d, w, DropLast(run)).tables.owned))
  }

  /** The reveals of a run, in order. */
  function Reveals(run: seq<Event>): seq<TP> {
    if run == [] then []
    else Reveals(DropLast(run)) + if Last(run).RevealShard? then [Last(run).tp] else []
  }

  /** The hypothesis is exact: restarting a rehydrate breaks safety just when the shard is owned. */
  lemma RestoringIsSafeIffHidden(d: Decoder, w: World, tp: TP)
    requires Safe(w)
    ensures Safe(Step(d, w, Mark(tp, RESTORING))) <==> tp !in w.tables.owned
  {
    var w' := Step(d, w, Mark(tp, RESTORING));
    assert tp in w'.status && w'.status[tp] == RESTORING;
  }

  lemma SafeKept(d: Decoder, w: World, e: Event)
    requires Safe(w) && Enabled(d, w, e)
    requires e.Mark? && e.status == RESTORING ==> e.tp !in w.tables.owned
    ensures Safe(Step(d, w, e))
  {
    if e.ReplayCommit? {
      PlaceAllRecords(d, w.tables, e.tp, w.session.value.batch);
    }
  }

  lemma {:induction false} OwnedMeansReady(d: Decoder, w: World, run: seq<Event>)
    requires Safe(w) && Legal(d, w, run) && NeverReassigned(d, w, run)
    ensures Safe(After(d, w, run))
  {
    if run != [] {
      OwnedMeansReady(d, w, DropLast(run));
      SafeKept(d, After(d, w, DropLast(run)), Last(run));
    }
  }

  /** Until its reveal step a hidden shard shows nothing, whatever is committed for it meanwhile: from
      any point of a run on, here its first `k` events, as long as the shard is not revealed. */
  lemma {:induction false} HiddenUntilRevealed(d: Decoder, w: World, run: seq<Event>, k: nat, tp: TP)
    requires Legal(d, w, run) && k <= |run| && Legal(d, w, run[..k])
    requires tp !in After(d, w, run[..k]).tables.owned && RevealShard(tp) !in run[k..]
    ensures tp !in After(d, w, run).tables.owned && Visible(After(d, w, run).tables, tp) == map[]
  {
    if |run| == k {
      assert run[..k] == run;
    } else {
      var front, before := DropLast(run), After(d, w, DropLast(run));
      assert front[..k] == run[..k] && run[k..] == front[k..] + [Last(run)];
      HiddenUntilRevealed(d, w, front, k, tp);
      if Last(run).ReplayCommit? {
        PlaceAllRecords(d, before.tables, Last(run).tp, before.session.value.batch);
      }
    }
  }

  /** The reveals of a run since its first `k` events, told from the list of reveals. */
  lemma {:induction false} NotRevealedSince(run: seq<Event>, k: nat, tp: TP)
    requires k <= |run| && Reveals(run[..k]) <= Reveals(run) && tp !in Reveals(run)[|Reveals(run[..k])|..]
    ensures RevealShard(tp) !in run[k..]
  {
    if |run| > k {
      var front := DropLast(run);
      assert front[..k] == run[..k] && run[k..] == front[k..] + [Last(run)];
      RevealsGrow(front, k);
      var n, last := |Reveals(run[..k])|, if Last(run).RevealShard? then [Last(run).tp] else [];
      assert Reveals(run)[n..] == Reveals(front)[n..] + last;
      NotRevealedSince(front, k, tp);
    }
  }

  lemma {:induction false} RevealsGrow(run: seq<Event>, k: nat)
    requires k <= |run|
    ensures Reveals(run[..k]) <= Reveals(run)
  {
    if |run| == k {
      assert run[..k] == run;
    } else {
      assert DropLast(run)[..k] == run[..k];
      RevealsGrow(DropLast(run), k);
    }
  }

  /** The reveal step shows all of the shard at once, and nothing else changes. */
  lemma RevealShowsAll(d: Decoder, w: World, tp: TP)
    requires Enabled(d, w, RevealShard(tp))
    ensures var t' := Step(d, w, RevealShard(tp)).tables;
            Visible(t', tp) == ShardRows(w.tables, tp)
            && forall other | other != tp :: Visible(t', other) == Visible(w.tables, other)
  {
    var t' := Step(d, w, RevealShard(tp)).tables;
    forall other | other != tp ensures Visible(t', other) == Visible(w.tables, other) {
      assert forall id :: id in Visible(t', other) <==> id in Visible(w.tables, other);
    }
  }

  /** Hiding is immediate and keeps the rows and the checkpoint. */
  lemma HideKeepsRows(d: Decoder, w: World, tp: TP)
    ensures var t' := Step(d, w, HideShard(tp)).tables;
            Visible(t', tp) == map[] && t'.records == w.tables.records && t'.checkpoint == w.tables.checkpoint
  {
  }

  /** The status goes before the reveal, so a process whose reveal then fails has READY in memory over
      hidden rows: safe, but not visible. */
  lemma FailedRevealLeavesReady(d: Decoder, w: World, tp: TP)
    requires Safe(w) && tp !in w.tables.owned
    ensures var run := [Mark(tp, RESTORING), Mark(tp, READY)];
            && Legal(d, w, run) && NeverReassigned(d, w, run) && Safe(After(d, w, run))
            && tp in After(d, w, run).status && After(d, w, run).status[tp] == READY
            && tp !in After(d, w, run).tables.owned && Visible(After(d, w, run).tables, tp) == map[]
  {
    hide Visible, Safe;
    var restoring, ready := Mark(tp, RESTORING), Mark(tp, READY);
    RunSnoc(d, w, [], restoring);
    RunSnoc(d, w, [restoring], ready);
    assert [] + [restoring] == [restoring] && [restoring] + [ready] == [restoring, ready];
    assert DropLast([restoring, ready]) == [restoring] && DropLast([restoring]) == [];
    OwnedMeansReady(d, w, [restoring, ready]);
    HiddenShowsNothing(w.tables, tp);
  }

  lemma HiddenShowsNothing(t: Tables, tp: TP)
    requires tp !in t.owned
    ensures Visible(t, tp) == map[]
  {
  }

  // ---- checkpoints ------------------------------------------------------------------------------

  predicate ResetPending(w: World, tp: TP) {
    InSession(w, tp) && w.session.value.reset
  }

  /** Only a clamp can lower a persisted checkpoint, and only a rehydrate that met an out-of-range
      position clamps: without one in the run the checkpoint never falls and never disappears. */
  lemma {:induction false} CheckpointRises(d: Decoder, w: World, run: seq<Event>, tp: TP)
    requires Legal(d, w, run) && OutOfRange(tp) !in run && !ResetPending(w, tp)
    ensures tp in w.tables.checkpoint ==>
              tp in After(d, w, run).tables.checkpoint
              && w.tables.checkpoint[tp] <= After(d, w, run).tables.checkpoint[tp]
    ensures !ResetPending(After(d, w, run), tp)
  {
    if run != [] {
      var front, before := DropLast(run), After(d, w, DropLast(run));
      assert (forall e | e in front :: e in run) && Last(run) in run;
      CheckpointRises(d, w, front, tp);
      if Last(run).ReplayCommit? {
        PlaceAllRecords(d, before.tables, Last(run).tp, before.session.value.batch);
      }
    }
  }
}
