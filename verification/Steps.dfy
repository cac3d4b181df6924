/** Everything that can happen to the shards of one database, one atomic step at a time: what the
    brokers do to the changelogs, and what the process commits or marks.  Appends, replay, failures
    and restarts interleave freely between steps. */
module Steps {
  import opened Types
  import opened Tables
  import opened Logs
  import opened State

  /** A rehydrate in progress: the consumer's position, the batch fetched but not yet committed,
      whether it may seek to the beginning, and whether it has done so after a reset. */
  datatype Session = Session(tp: TP, position: int, batch: seq<Record>, mayReset: bool, reset: bool)

  /** `held` is every record any changelog ever held; the rest is the present. */
  datatype World = World(
    logs: map<TP, Log>, held: set<(TP, Record)>,
    tables: Tables, status: map<TP, Status>, session: Option<Session>)

  datatype Event =
    // the brokers
    | Land(tp: TP, r: Record)
    | Trim(tp: TP, offset: nat)
    | Truncate(tp: TP, offset: nat)
    // an append whose record landed: the local commit
    | AppendCommit(tp: TP, r: Record)
    // replay
    | Open(tp: TP)
    | SeekToBeginning(tp: TP)
    | OutOfRange(tp: TP)
    | Fetch(tp: TP, offset: nat)  // here the number of records fetched
    | ReplayCommit(tp: TP)
    | ClampTo(tp: TP, target: int)
    | Close
    // visibility
    | Mark(tp: TP, status: Status)
    | RevealShard(tp: TP)
    | HideShard(tp: TP)
    // the process dies and starts again: memory and `_owned` are gone, rows and checkpoints stay
    | Restart

  function LogOf(w: World, tp: TP): Log {
    if tp in w.logs then w.logs[tp] else NEVER_WRITTEN
  }

  predicate InSession(w: World, tp: TP) {
    w.session.Some? && w.session.value.tp == tp
  }

  /** Message ids are not shared between changelogs, and two records with one id (a producer retry)
      carry the same key and payload. */
  predicate Consistent(d: Decoder, held: set<(TP, Record)>) {
    forall a, b | a in held && b in held && d(a.1).Ours? && Carries(d, b.1, d(a.1).id) ::
      a.0 == b.0 && d(a.1) == d(b.1)
  }

  /** Two held records that share a message id agree. */
  predicate Agree(d: Decoder, a: (TP, Record), b: (TP, Record)) {
    d(a.1).Ours? && Carries(d, b.1, d(a.1).id) ==> a.0 == b.0 && d(a.1) == d(b.1)
  }

  predicate Enabled(d: Decoder, w: World, e: Event) {
    match e
    case Land(tp, r) => LogOf(w, tp).end <= r.offset && Consistent(d, w.held + {(tp, r)})
    case Trim(tp, before) => before <= LogOf(w, tp).end
    case Truncate(tp, keep) => keep < LogOf(w, tp).end
    case AppendCommit(tp, r) => (tp, r) in w.held && d(r).Ours?
    case Open(_) => true
    case SeekToBeginning(tp) => InSession(w, tp) && w.session.value.mayReset
    case OutOfRange(tp) => InSession(w, tp) && !LogOf(w, tp).InRange(w.session.value.position)
    case Fetch(tp, n) =>
      InSession(w, tp) && w.session.value.batch == [] && LogOf(w, tp).InRange(w.session.value.position)
      && n <= |From(LogOf(w, tp).records, w.session.value.position)|
    case ReplayCommit(tp) => InSession(w, tp) && w.session.value.batch != [] && Readable(d, w.session.value.batch)
    case ClampTo(tp, target) =>
      InSession(w, tp) && w.session.value.reset && w.session.value.batch == [] && target < w.session.value.position
    case Close => true
    case Mark(tp, status) => status == STANDBY ==> tp !in w.tables.owned
    case RevealShard(tp) => tp in w.status && w.status[tp] in {READY, READY_PARTIAL}
    case HideShard(_) => true
    case Restart => true
  }

  function Step(d: Decoder, w: World, e: Event): World
    requires Enabled(d, w, e)
  {
    match e
    case Land(tp, r) => w.(logs := w.logs[tp := Landed(LogOf(w, tp), r)], held := w.held + {(tp, r)})
    case Trim(tp, before) => w.(logs := w.logs[tp := Trimmed(LogOf(w, tp), before)])
    case Truncate(tp, keep) => w.(logs := w.logs[tp := Truncated(LogOf(w, tp), keep)])
    case AppendCommit(tp, r) => w.(tables := Apply(d, w.tables, tp, r))
    case Open(tp) =>
      var checkpoint := CheckpointOf(w.tables, tp);
      w.(session := Some(Session(tp, StartAfter(checkpoint), [], checkpoint.None?, false)))
    case SeekToBeginning(tp) =>
      var s := w.session.value;
      w.(session := Some(s.(position := LogOf(w, tp).start, batch := [], mayReset := false)))
    case OutOfRange(tp) => w.(session := Some(w.session.value.(batch := [], mayReset := true, reset := true)))
    case Fetch(tp, n) =>
      var s := w.session.value;
      w.(session := Some(s.(batch := From(LogOf(w, tp).records, s.position)[..n])))
    case ReplayCommit(tp) =>
      var s := w.session.value;
      w.(tables := CommitBatch(d, w.tables, tp, s.batch),
         session := Some(s.(position := Last(s.batch).offset + 1, batch := [])))
    case ClampTo(tp, target) => w.(tables := Clamp(w.tables, tp, target))
    case Close => w.(session := None)
    case Mark(tp, status) => w.(status := w.status[tp := status])
    case RevealShard(tp) => w.(tables := Reveal(w.tables, tp))
    case HideShard(tp) => w.(tables := Hide(w.tables, tp))
    case Restart => w.(tables := w.tables.(owned := {}), status := map[], session := None)
  }

  /** A run: each event enabled where it happens. */
  predicate Legal(d: Decoder, w: World, run: seq<Event>)
    decreases |run|, 0
  {
    run == [] || (Legal(d, w, DropLast(run)) && Enabled(d, After(d, w, DropLast(run)), Last(run)))
  }

  function After(d: Decoder, w: World, run: seq<Event>): World
    requires Legal(d, w, run)
    decreases |run|, 1
  {
    if run == [] then w else Step(d, After(d, w, DropLast(run)), Last(run))
  }

  lemma RunSnoc(d: Decoder, w: World, run: seq<Event>, e: Event)
    requires Legal(d, w, run) && Enabled(d, After(d, w, run), e)
    ensures Legal(d, w, run + [e]) && After(d, w, run + [e]) == Step(d, After(d, w, run), e)
  {
    assert DropLast(run + [e]) == run;
  }

  /** A new database beside changelogs that may already hold records. */
  ghost predicate Initial(d: Decoder, w: World) {
    && w.tables == EMPTY && w.status == map[] && w.session == None
    && (forall tp | tp in w.logs :: w.logs[tp].Valid())
    && (forall tp, r :: (tp, r) in w.held <==> r in LogOf(w, tp).records)
    && Consistent(d, w.held)
  }

  predicate Regresses(e: Event, tp: TP) {
    e.Truncate? && e.tp == tp
  }

  /** The log end of this shard's changelog never regresses. */
  predicate NoTruncation(run: seq<Event>, tp: TP) {
    forall i | 0 <= i < |run| :: !Regresses(run[i], tp)
  }

  predicate NoTrim(run: seq<Event>, tp: TP) {
    forall i | 0 <= i < |run| :: !(run[i].Trim? && run[i].tp == tp)
  }

  /** Only the changelogs of these shards have regressed or been trimmed. */
  ghost predicate Removals(run: seq<Event>, regressed: set<TP>, trimmed: set<TP>) {
    && (forall tp | tp !in regressed :: NoTruncation(run, tp))
    && (forall tp | tp !in trimmed :: NoTrim(run, tp))
  }

  lemma RemovalsSnoc(run: seq<Event>, e: Event, regressed: set<TP>, trimmed: set<TP>)
    requires Removals(run, regressed, trimmed)
    ensures Removals(run + [e], regressed + if e.Truncate? then {e.tp} else {},
                     trimmed + if e.Trim? then {e.tp} else {})
    ensures !e.Truncate? && !e.Trim? ==> Removals(run + [e], regressed, trimmed)
  {
  }

  // ---- provenance: rows come from records the changelog held --------------------------------

  ghost predicate FromHeld(d: Decoder, w: World, id: Text)
    requires id in w.tables.records
  {
    exists h :: h in w.held && h.0 == w.tables.records[id].tp && Gives(d, h.0, h.1, id, w.tables.records[id])
  }

  ghost predicate Provenance(d: Decoder, w: World) {
    && (forall tp | tp in w.logs :: w.logs[tp].Valid())
    && (forall tp, r | tp in w.logs && r in w.logs[tp].records :: (tp, r) in w.held)
    && Consistent(d, w.held)
    && (forall id | id in w.tables.records :: FromHeld(d, w, id))
    && (w.session.Some? ==> Increasing(w.session.value.batch))
    && (w.session.Some? ==> forall r | r in w.session.value.batch :: (w.session.value.tp, r) in w.held)
  }

  ghost const ANY := Record(0, None, None, [])

  predicate Broker(e: Event) {
    e.Land? || e.Trim? || e.Truncate?
  }

  lemma OnlyBrokersMoveLogs(d: Decoder, w: World, e: Event)
    requires Enabled(d, w, e)
    ensures !Broker(e) ==> Step(d, w, e).logs == w.logs && Step(d, w, e).held == w.held
    ensures Broker(e) ==>
              Step(d, w, e).tables == w.tables && Step(d, w, e).status == w.status && Step(d, w, e).session == w.session
    ensures Broker(e) ==> Step(d, w, e).logs == w.logs[e.tp := LogOf(Step(d, w, e), e.tp)]
    ensures forall tp | !Broker(e) || tp != e.tp :: LogOf(Step(d, w, e), tp) == LogOf(w, tp)
    ensures w.held <= Step(d, w, e).held
  {
  }

  lemma BrokerStep(d: Decoder, w: World, e: Event)
    requires Enabled(d, w, e) && Broker(e) && LogOf(w, e.tp).Valid()
    ensures LogOf(Step(d, w, e), e.tp).Valid()
    ensures forall r | r in LogOf(Step(d, w, e), e.tp).records :: r in LogOf(w, e.tp).records || (e.Land? && r == e.r)
    ensures e.Land? ==> (e.tp, e.r) in Step(d, w, e).held
  {
    var log := LogOf(w, e.tp);
    match e
    case Land(tp, r) => ChangesKeepValid(log, r, 0);
    case Trim(tp, before) =>
      ChangesKeepValid(log, ANY, before);
      FromMembers(log.records, before);
    case Truncate(tp, keep) =>
      ChangesKeepValid(log, ANY, keep);
      BelowMembers(log.records, keep);
    case _ =>
  }

  /** What the brokers' three moves do to a changelog: a record is added at its end, what lies below an
      offset goes, or what lies at or above it goes and the end falls to it. */
  lemma BrokerMoves(d: Decoder, w: World, e: Event)
    requires Enabled(d, w, e) && Broker(e) && LogOf(w, e.tp).Valid()
    ensures var log, log' := LogOf(w, e.tp), LogOf(Step(d, w, e), e.tp);
            match e
            case Land(_, r) =>
              log'.records == log.records + [r] && log'.start == log.start && log'.end == r.offset + 1
            case Trim(_, offset) =>
              && (forall r :: r in log'.records <==> r in log.records && offset <= r.offset)
              && log'.end == log.end && log'.start == (if offset <= log.start then log.start else offset)
            case Truncate(_, offset) =>
              && (forall r :: r in log'.records <==> r in log.records && r.offset < offset)
              && log'.end == offset && log'.start == (if offset < log.start then offset else log.start)
            case _ => true
  {
    if !e.Land? {
      FromMembers(LogOf(w, e.tp).records, e.offset);
      BelowMembers(LogOf(w, e.tp).records, e.offset);
    }
  }

  lemma LogValid(d: Decoder, w: World, tp: TP)
    requires Provenance(d, w)
    ensures LogOf(w, tp).Valid()
  {
  }

  lemma LogsStayWithin(d: Decoder, w: World, e: Event)
    requires Provenance(d, w) && Enabled(d, w, e)
    ensures forall tp | tp in Step(d, w, e).logs :: Step(d, w, e).logs[tp].Valid()
    ensures forall tp, r | tp in Step(d, w, e).logs && r in Step(d, w, e).logs[tp].records ::
              (tp, r) in Step(d, w, e).held
  {
    OnlyBrokersMoveLogs(d, w, e);
    if Broker(e) {
      BrokerStep(d, w, e);
    }
  }

  /** Replaying records that were held keeps every row of held provenance. */
  lemma ReplayFromHeld(d: Decoder, w: World, tp: TP, rs: seq<Record>, w': World)
    requires Provenance(d, w) && forall r | r in rs :: (tp, r) in w.held
    requires w'.held == w.held && w'.tables.records == Replay(d, w.tables, tp, rs).records
    ensures forall id | id in w'.tables.records :: FromHeld(d, w', id)
  {
    ReplayRows(d, w.tables, tp, rs);
    forall id | id in w'.tables.records ensures FromHeld(d, w', id) {
      if id in w.tables.records {
        assert FromHeld(d, w, id);
      } else {
        var i: nat :| FirstGiver(d, tp, rs, i, id, w'.tables.records[id]);
        assert (tp, rs[i]) in w'.held;
      }
    }
  }

  lemma ProvenanceKept(d: Decoder, w: World, e: Event)
    requires Provenance(d, w) && Enabled(d, w, e)
    ensures Provenance(d, Step(d, w, e))
  {
    hide FromHeld, From, Below, Insert, Readable;
    var w' := Step(d, w, e);
    LogsStayWithin(d, w, e);
    match e
    case AppendCommit(tp, r) =>
      assert Replay(d, w.tables, tp, [r]) == w'.tables by { assert DropLast([r]) == []; }
      ReplayFromHeld(d, w, tp, [r], w');
    case ReplayCommit(tp) =>
      PlaceAllRecords(d, w.tables, tp, w.session.value.batch);
      ReplayFromHeld(d, w, tp, w.session.value.batch, w');
    case Fetch(tp, n) =>
      FromMembers(LogOf(w, tp).records, w.session.value.position);
      RowsStillHeld(d, w, w');
    case _ =>
      RowsStillHeld(d, w, w');
  }

  lemma RowsStillHeld(d: Decoder, w: World, w': World)
    requires forall id | id in w.tables.records :: FromHeld(d, w, id)
    requires w.held <= w'.held && w'.tables.records == w.tables.records
    ensures forall id | id in w'.tables.records :: FromHeld(d, w', id)
  {
    forall id | id in w'.tables.records ensures FromHeld(d, w', id) {
      assert FromHeld(d, w, id);
    }
  }

  lemma RowsKept(d: Decoder, w: World, e: Event)
    requires Enabled(d, w, e)
    ensures forall id | id in w.tables.records ::
              id in Step(d, w, e).tables.records && Step(d, w, e).tables.records[id] == w.tables.records[id]
  {
    if e.ReplayCommit? {
      PlaceAllRecords(d, w.tables, e.tp, w.session.value.batch);
      ReplayRows(d, w.tables, e.tp, w.session.value.batch);
    }
  }

  /** Nothing is invented: over every run, trims, truncations and restarts included, each row is the
      record its changelog held at that row's offset, and keeps that record's key and payload. */
  lemma {:induction false} NothingInvented(d: Decoder, w: World, run: seq<Event>)
    requires Provenance(d, w) && Legal(d, w, run)
    ensures Provenance(d, After(d, w, run))
  {
    if run != [] {
      NothingInvented(d, w, DropLast(run));
      ProvenanceKept(d, After(d, w, DropLast(run)), Last(run));
    }
  }

  /** Rows are append-only: no run changes or removes a row. */
  lemma {:induction false} AppendOnly(d: Decoder, w: World, run: seq<Event>, id: Text)
    requires Legal(d, w, run) && id in w.tables.records
    ensures id in After(d, w, run).tables.records && After(d, w, run).tables.records[id] == w.tables.records[id]
  {
    if run != [] {
      AppendOnly(d, w, DropLast(run), id);
      RowsKept(d, After(d, w, DropLast(run)), Last(run));
    }
  }

  lemma InitialProvenance(d: Decoder, w: World)
    requires Initial(d, w)
    ensures Provenance(d, w)
  {
    forall tp, r | tp in w.logs && r in w.logs[tp].records ensures (tp, r) in w.held {
      assert r in LogOf(w, tp).records;
    }
  }
}
