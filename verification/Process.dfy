/** What the services of one process share: its connection, its memory of the partitions, and the
    journal that the two must agree with. */
module Process {
  import opened Types
  import opened Tables
  import opened Logs
  import opened State
  import opened Steps
  import opened Txn
  import opened Environments
  import Wire

  lemma RunOne(json: Text -> Option<Text>, t: Tables, s: Stmt)
    ensures RunWork(json, t, [s]) == Exec(json, t, s)
  {
    assert DropLast([s]) == [];
  }

  lemma RunSnoc1(json: Text -> Option<Text>, t: Tables, work: seq<Stmt>, s: Stmt)
    ensures RunWork(json, t, work + [s]) ==
            if RunWork(json, t, work).Err? then RunWork(json, t, work) else Exec(json, RunWork(json, t, work).value, s)
  {
    assert DropLast(work + [s]) == work;
  }

  lemma CommitAdvances(d: Decoder, t: Tables, tp: TP, batch: seq<Record>)
    requires batch != []
    ensures CheckpointOf(CommitBatch(d, t, tp, batch), tp) == Advance(CheckpointOf(t, tp), Last(batch).offset)
  {
    PlaceAllRecords(d, t, tp, batch);
  }

  predicate SameElsewhere<V(==)>(m: map<TP, V>, m': map<TP, V>, tp: TP) {
    m - {tp} == m' - {tp}
  }

  lemma PutElsewhere<V>(m: map<TP, V>, m1: map<TP, V>, v: V, m2: map<TP, V>, tp: TP)
    requires SameElsewhere(m, m1, tp) && SameElsewhere(m1[tp := v], m2, tp)
    ensures SameElsewhere(m, m2, tp)
  {
    assert m1[tp := v] - {tp} == m1 - {tp};
  }

  predicate NotAhead(memory: Option<int>, stored: Option<int>) {
    memory.Some? ==> stored.Some? && memory.value <= stored.value
  }

  /** Memory, disk and journal agree: statuses and tables are the journal's; memory knows every owned
      shard, and its checkpoints are never ahead of the persisted ones, save for shards adrift. */
  ghost predicate InStep(entries: map<TP, Entry>, t: Tables, w: World, adrift: set<TP>) {
    && w.tables == t
    && w.status.Keys == entries.Keys
    && (forall tp | tp in entries :: w.status[tp] == entries[tp].status)
    && (forall tp | tp in entries && tp !in adrift :: NotAhead(entries[tp].checkpoint, CheckpointOf(t, tp)))
    && (forall tp | tp in t.owned :: tp in entries)
    && (forall tp | tp in t.checkpoint :: -1 <= t.checkpoint[tp])
  }

  /** Memory, disk and changelog at one point: the checkpoint is right below the log end. */
  predicate InSync(log: Log, t: Tables, entries: map<TP, Entry>, tp: TP) {
    && tp in entries && entries[tp].logEnd.Some? && entries[tp].checkpoint == CheckpointOf(t, tp)
    && StartAfter(CheckpointOf(t, tp)) == log.end
  }

  lemma CommitInStep(d: Decoder, entries: map<TP, Entry>, w: World, w': World, adrift: set<TP>, tp: TP,
                     batch: seq<Record>)
    requires InStep(entries, w.tables, w, adrift) && tp in entries && batch != []
    requires w'.tables == CommitBatch(d, w.tables, tp, batch) && w'.status == w.status
    ensures InStep(entries[tp := Applied(entries[tp], Last(batch).offset)], w'.tables, w', adrift)
  {
    PlaceAllRecords(d, w.tables, tp, batch);
  }

  /** A commit that is cut off from its write-back leaves memory behind disk. */
  lemma CommitCutOff(d: Decoder, entries: map<TP, Entry>, w: World, w': World, adrift: set<TP>, tp: TP,
                     batch: seq<Record>)
    requires InStep(entries, w.tables, w, adrift) && batch != []
    requires w'.tables == CommitBatch(d, w.tables, tp, batch) && w'.status == w.status
    ensures InStep(entries, w'.tables, w', adrift)
  {
    PlaceAllRecords(d, w.tables, tp, batch);
  }

  /** A write to one entry that the journal notes, or that leaves the status alone. */
  lemma EntryInStep(entries: map<TP, Entry>, t: Tables, w: World, adrift: set<TP>, tp: TP, entry: Entry, w': World)
    requires InStep(entries, t, w, adrift) && w'.tables == t
    requires tp !in adrift ==> NotAhead(entry.checkpoint, CheckpointOf(t, tp))
    requires w'.status == w.status[tp := entry.status]
          || (w'.status == w.status && tp in entries && entry.status == entries[tp].status)
    ensures InStep(entries[tp := entry], t, w', adrift)
  {
  }

  /** A clamp with its write-back.  Cut off from it, it leaves memory ahead of disk exactly if memory
      was above the target. */
  lemma ClampInStep(entries: map<TP, Entry>, w: World, adrift: set<TP>, tp: TP, target: int, w': World)
    requires InStep(entries, w.tables, w, adrift) && tp in entries && -1 <= target
    requires w'.tables == Clamp(w.tables, tp, target) && w'.status == w.status
    ensures InStep(entries[tp := entries[tp].(checkpoint := Some(target))], w'.tables, w', adrift - {tp})
    ensures NotAhead(entries[tp].checkpoint, CheckpointOf(w'.tables, tp)) <==> !Above(entries[tp].checkpoint, target)
    ensures InStep(entries, w'.tables, w', Drift(adrift, tp, entries[tp].checkpoint, target))
  {
  }

  /** A reveal, allowed by the status. */
  lemma RevealInStep(d: Decoder, entries: map<TP, Entry>, w: World, adrift: set<TP>, tp: TP)
    requires InStep(entries, w.tables, w, adrift) && tp in entries && entries[tp].status in {READY, READY_PARTIAL}
    ensures Enabled(d, w, RevealShard(tp))
    ensures Step(d, w, RevealShard(tp)) == w.(tables := Reveal(w.tables, tp))
    ensures InStep(entries, Reveal(w.tables, tp), w.(tables := Reveal(w.tables, tp)), adrift)
  {
  }

  predicate Above(memory: Option<int>, target: int) {
    memory.Some? && memory.value > target
  }

  function Drift(adrift: set<TP>, tp: TP, memory: Option<int>, target: int): set<TP> {
    if Above(memory, target) then adrift + {tp} else adrift - {tp}
  }

  /** The journal is a legal run that ends in the present state; no transaction is open. */
  ghost predicate Coherent(env: Environment, conn: Connection, state: PartitionStateMachine)
    reads env`logs, env`run, env`world, env`reassigned, env`shown, env`regressed, env`trimmed
    reads env`overtaken, env`held, env`adrift, conn, state
  {
    && env.Journaled() && conn.Valid() && conn.Idle() && !conn.shared && conn.json == env.parsers.json
    && Wire.Decodes(env.parsers, env.decode)
    && InStep(state.entries, conn.committed, env.world, env.adrift)
  }

  /** What has gone wrong outside so far: errors of brokers and of reads; awaits of transactions. */
  datatype Ledger = Ledger(faults: seq<Error>, toll: Toll)

  ghost function Book(env: Environment, conn: Connection): Ledger
    reads env`faults, conn`toll
  {
    Ledger(env.faults, conn.toll)
  }

  /** Nothing has been raised since, whatever a transaction has retried. */
  predicate Quiet(b: Ledger, b': Ledger) {
    b'.faults == b.faults && NoLess(b.toll, b'.toll)
  }

  /** The error is what a broker or a read has raised, or comes from an await of a transaction. */
  predicate Explained(e: Error, b: Ledger, b': Ledger) {
    && e in {KafkaError, StorageError, Cancelled} && NoLess(b.toll, b'.toll)
    && (b'.faults == b.faults + [e] || (b'.faults == b.faults && Blame(e, b.toll, b'.toll)))
  }

  /** A call that fails only by such an error. */
  predicate Told<T>(r: Result<T>, b: Ledger, b': Ledger) {
    if r.Ok? then Quiet(b, b') else Explained(r.error, b, b')
  }

  lemma ToldMeans<T>(r: Result<T>, b: Ledger, b': Ledger)
    ensures Told(r, b, b') && r.Ok? ==> Quiet(b, b')
    ensures Told(r, b, b') && r.Err? ==> Explained(r.error, b, b')
    ensures r.Ok? && Quiet(b, b') ==> Told(r, b, b')
    ensures r.Err? && Explained(r.error, b, b') ==> Told(r, b, b')
  {
  }

  lemma QuietUntil(a: Ledger, b: Ledger, c: Ledger)
    ensures Quiet(a, b) && Quiet(b, c) ==> Quiet(a, c)
    ensures forall e | Explained(e, b, c) :: Quiet(a, b) ==> Explained(e, a, c)
  {
  }

  lemma StillQuiet(a: Ledger)
    ensures Quiet(a, a)
  {
  }

  /** One transaction from the pool.  Checkout and release roll back whatever is open, so a BEGIN that
      a cancellation interrupted does no harm.  The work happens entirely or not at all; it has happened
      although the call raises exactly if a cancellation struck after the commit was carried out. */
  method Transact(env: Environment, conn: Connection, work: seq<Stmt>) returns (r: Result<()>)
    requires conn.Valid() && conn.Idle() && !conn.shared
    modifies env`now, conn
    ensures conn.Valid() && conn.Idle() && env.now >= old(env.now)
    ensures r.Ok? || conn.severed.TookEffect? ==> RunWork(conn.json, old(conn.committed), work) == Ok(conn.committed)
    ensures conn.severed.TookEffect? ==> r == Err(Cancelled)
    ensures r.Err? && !conn.severed.TookEffect? ==> conn.committed == old(conn.committed)
    ensures r.Err? ==> r.error !in {Busy, Sqlite}
    // it fails only if an await did, or the work raised
    ensures r.Ok? ==> Quiet(old(Book(env, conn)), Book(env, conn))
    ensures r.Err? ==>
              || Explained(r.error, old(Book(env, conn)), Book(env, conn))
              || (Quiet(old(Book(env, conn)), Book(env, conn))
                  && Reports(r.error, RunWork(conn.json, old(conn.committed), work)))
  {
    env.Pass();
    conn.severed := Intact;
    var refused, exhausted, cancelled: bool := *, *, *;
    if refused {
      conn.toll := Charged(conn.toll, if exhausted then Fate.Failed else Cut(false));
      return Err(if exhausted then StorageError else Cancelled);
    }
    var attempts;
    r, attempts := Run(conn, work);
    if !conn.Idle() {
      conn.Reset();
    }
    if r.Ok? && cancelled {  // on the way out of the pool
      conn.severed, conn.toll := TookEffect, Charged(conn.toll, Cut(true));
      r := Err(Cancelled);
    }
  }

  lemma RestartInStep(d: Decoder, entries: map<TP, Entry>, w: World, adrift: set<TP>)
    requires InStep(entries, w.tables, w, adrift)
    ensures Enabled(d, w, Restart)
    ensures Step(d, w, Restart).tables == w.tables.(owned := {})
    ensures InStep(map[], w.tables.(owned := {}), Step(d, w, Restart), {})
  {
  }

  lemma Agreement(env: Environment, conn: Connection, state: PartitionStateMachine)
    requires Coherent(env, conn, state)
    ensures env.world.tables == conn.committed
  {
  }

  /** `start` after a crash or a stop: the migration clears `_owned`, and memory starts empty.  Rows and
      checkpoints are what the last process left.  A start that fails leaves no process; `memory` is
      then what the journal last knew of one. */
  method Restarted(env: Environment, conn: Connection, ghost before: PartitionStateMachine)
    returns (r: Result<PartitionStateMachine>, ghost memory: PartitionStateMachine)
    requires Coherent(env, conn, before)
    modifies env`now, env`run, env`world, env`adrift, conn
    ensures env.now >= old(env.now) && old(env.run) <= env.run && Coherent(env, conn, memory)
    ensures r.Ok? ==> fresh(r.value) && r.value.entries == map[] && memory == r.value && env.adrift == {}
    ensures conn.committed ==
              if r.Ok? || conn.severed.TookEffect? then old(conn.committed).(owned := {}) else old(conn.committed)
    ensures conn.severed.TookEffect? ==> r == Err(Cancelled)
    ensures if r.Ok? then Quiet(old(Book(env, conn)), Book(env, conn))
            else Explained(r.error, old(Book(env, conn)), Book(env, conn))
  {
    hide InStep, Environment.Journaled, Step, Enabled, RunWork;
    Agreement(env, conn, before);
    RestartInStep(env.decode, before.entries, env.world, env.adrift);
    RunOne(conn.json, conn.committed, DeleteAllOwned);
    memory := before;
    var state := new PartitionStateMachine();
    var cleared := Transact(env, conn, [DeleteAllOwned]);
    if cleared.Ok? || conn.severed.TookEffect? {
      env.Note(Restart);
      env.adrift := {};
      memory := state;
    }
    r := if cleared.Ok? then Ok(state) else Err(cleared.error);
  }

  /** Between two operations the brokers may do anything: land, trim, truncate. */
  method BrokersMove(env: Environment, conn: Connection, state: PartitionStateMachine, e: Event)
    requires Coherent(env, conn, state) && Broker(e) && Enabled(env.decode, env.world, e)
    modifies env`logs, env`run, env`world, env`held, env`regressed, env`trimmed
    ensures Coherent(env, conn, state) && env.run == old(env.run) + [e]
    ensures env.held == old(env.held) + if e.Land? then {(e.tp, e.r)} else {}
    ensures !e.Land? ==> env.held == old(env.held)
    ensures env.regressed == old(env.regressed) + if e.Truncate? then {e.tp} else {}
    ensures env.trimmed == old(env.trimmed) + if e.Trim? then {e.tp} else {}
    ensures env.world == Step(env.decode, old(env.world), e)
  {
    hide InStep, Environment.Journaled;
    BrokersOnly(env.decode, env.world, e, state.entries, conn.committed, env.adrift);
    env.BrokerActs(e);
  }

  lemma LogsAside(entries: map<TP, Entry>, t: Tables, w: World, w': World, adrift: set<TP>)
    requires InStep(entries, t, w, adrift) && w'.tables == w.tables && w'.status == w.status
    ensures InStep(entries, t, w', adrift)
  {
  }

  lemma BrokersOnly(d: Decoder, w: World, e: Event, entries: map<TP, Entry>, t: Tables, adrift: set<TP>)
    requires Enabled(d, w, e) && Broker(e) && InStep(entries, t, w, adrift)
    ensures InStep(entries, t, Step(d, w, e), adrift)
  {
    OnlyBrokersMoveLogs(d, w, e);
  }
}
