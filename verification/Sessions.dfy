/** A process as a host drives it, from a new database on: any sequence of whole operations, each failing
    or not, with trims and regressions between them.  `Guarantees` applies to every such process. */
module Sessions {
  import opened Types
  import opened Tables
  import opened Logs
  import opened State
  import opened Steps
  import opened Txn
  import opened Environments
  import opened Process
  import opened Rehydrate
  import opened Lifecycle
  import opened Topics
  import Append
  import Coverage
  import Guarantees
  import Visibility
  import WarmCold
  import Wire

  datatype Op =
    | Assign(shards: seq<TP>)
    | Revoke(shards: seq<TP>)
    | AppendTo(source: TP, key: Text, payload: Wire.Payload, id: Text)
    | StartAgain
    | TrimLog(tp: TP, offset: nat)
    | RegressLog(tp: TP, offset: nat)

  /** Ids are uuids and do not repeat. */
  predicate Ids(p: Wire.Parsers, ops: seq<Op>) {
    && (forall i | 0 <= i < |ops| && ops[i].AppendTo? :: p.isUuid(ops[i].id))
    && (forall i, j | 0 <= i < j < |ops| && ops[i].AppendTo? && ops[j].AppendTo? :: ops[i].id != ops[j].id)
  }

  /** The shards whose changelogs these operations make regress, or trim. */
  function RegressedBy(ops: seq<Op>): set<TP> {
    set i | 0 <= i < |ops| && ops[i].RegressLog? :: ops[i].tp
  }

  function TrimmedBy(ops: seq<Op>): set<TP> {
    set i | 0 <= i < |ops| && ops[i].TrimLog? :: ops[i].tp
  }

  /** What holds of a process at any time between two operations. */
  ghost predicate Sound(env: Environment, conn: Connection, state: PartitionStateMachine)
    reads env, conn, state
  {
    // a record of ours at or below a checkpoint has its row, or an append overtook it
    && (forall tp, r | r in env.LogAt(tp).records && !env.decode(r).Foreign? && tp !in env.regressed
          && tp in conn.committed.checkpoint && r.offset <= conn.committed.checkpoint[tp] ::
          Coverage.HasRow(env.decode, env.world, tp, r) || (tp, r) in env.overtaken)
    // every row is a record its changelog held
    && (forall id | id in env.world.tables.records :: FromHeld(env.decode, env.world, id))
    // a READY shard of which nothing was removed or overtaken agrees with its rebuild
    && (forall tp | tp !in env.regressed + env.trimmed && Coverage.Spared(env.overtaken, tp)
          && Served(env.LogAt(tp), conn.committed, state.entries, env.adrift, tp)
          && tp in state.entries && state.entries[tp].status == READY ::
          && Readable(env.decode, env.LogAt(tp).records)
          && forall t | WarmCold.Rebuilt(env.decode, env.LogAt(tp), tp, t) ::
               Legal(env.decode, env.origin, env.run) && WarmCold.Agrees(env.decode, env.origin, env.run, tp, t))
    // memory is no further than disk, and a visible shard is READY or READY_PARTIAL in memory
    && (forall tp | tp in state.entries && tp !in env.adrift && state.entries[tp].checkpoint.Some? ::
          tp in conn.committed.checkpoint && state.entries[tp].checkpoint.value <= conn.committed.checkpoint[tp])
    && (!env.reassigned ==> forall tp | Visibility.Visible(conn.committed, tp) != map[] ::
          tp in state.entries && state.entries[tp].status in {READY, READY_PARTIAL})
  }

  lemma LegalRun(env: Environment, conn: Connection, state: PartitionStateMachine)
    requires Coherent(env, conn, state) && Initial(env.decode, env.origin)
    ensures Legal(env.decode, env.origin, env.run) && Visibility.Safe(env.origin)
    ensures env.world.tables == conn.committed
  {
  }

  lemma CoherentIsSound(env: Environment, conn: Connection, state: PartitionStateMachine)
    requires Coherent(env, conn, state) && Initial(env.decode, env.origin)
    ensures Sound(env, conn, state)
  {
    hide Coherent, Initial, Served, Readable, FromHeld, Legal, After, Coverage.HasRow, Coverage.Spared;
    hide WarmCold.Rebuilt, WarmCold.Agrees, Visibility.Visible;
    LegalRun(env, conn, state);
    forall tp, r | r in env.LogAt(tp).records && !env.decode(r).Foreign? && tp !in env.regressed
                   && tp in conn.committed.checkpoint && r.offset <= conn.committed.checkpoint[tp]
      ensures Coverage.HasRow(env.decode, env.world, tp, r) || (tp, r) in env.overtaken
    {
      Guarantees.NothingLost(env, conn, state, tp, r);
    }
    forall id | id in env.world.tables.records ensures FromHeld(env.decode, env.world, id) {
      Guarantees.NothingInvented(env, conn, state, id);
    }
    forall tp | tp !in env.regressed + env.trimmed && Coverage.Spared(env.overtaken, tp)
                && Served(env.LogAt(tp), conn.committed, state.entries, env.adrift, tp)
                && tp in state.entries && state.entries[tp].status == READY
      ensures Readable(env.decode, env.LogAt(tp).records)
      ensures forall t | WarmCold.Rebuilt(env.decode, env.LogAt(tp), tp, t) ::
                WarmCold.Agrees(env.decode, env.origin, env.run, tp, t)
    {
      Guarantees.ReadyMeansCold(env, conn, state, tp);
    }
    forall tp | tp in state.entries && tp !in env.adrift && state.entries[tp].checkpoint.Some?
      ensures tp in conn.committed.checkpoint
      ensures state.entries[tp].checkpoint.value <= conn.committed.checkpoint[tp]
    {
      Guarantees.MemoryNotAhead(env, conn, state, tp);
    }
    forall tp | !env.reassigned && Visibility.Visible(conn.committed, tp) != map[]
      ensures tp in state.entries && state.entries[tp].status in {READY, READY_PARTIAL}
    {
      Guarantees.VisibleMeansReady(env, conn, state, tp);
    }
  }

  /** None of the ids still to come has been used. */
  ghost predicate Unspent(d: Decoder, held: set<(TP, Record)>, ops: seq<Op>, from: nat) {
    && Consistent(d, held)
    && forall i | from <= i < |ops| && ops[i].AppendTo? :: Append.Unused(d, held, ops[i].id)
  }

  /** What an append lands uses up its own id only. */
  lemma SpendsItsOwn(p: Wire.Parsers, d: Decoder, held: set<(TP, Record)>, held': set<(TP, Record)>, ops: seq<Op>,
                     k: nat, end: nat, copies: seq<Record>)
    requires Ids(p, ops) && Wire.Decodes(p, d) && k < |ops| && ops[k].AppendTo? && Unspent(d, held, ops, k)
    requires held' == held + (set r | r in copies :: (ops[k].source, r)) && Consistent(d, held')
    requires copies == [] ||
             (Wire.EncodeRecord(p, ops[k].key, ops[k].payload, ops[k].id).Some?
              && Copies(Wire.EncodeRecord(p, ops[k].key, ops[k].payload, ops[k].id).value, end, copies))
    ensures Unspent(d, held', ops, k + 1)
  {
    hide Consistent, Wire.EncodeRecord, Wire.SerializePayload;
    forall i, h | k < i < |ops| && ops[i].AppendTo? && h in held' ensures !Carries(d, h.1, ops[i].id) {
      assert Append.Unused(d, held, ops[i].id);
      if h !in held {
        Append.JudgeEncode(p, d, ops[k].key, ops[k].payload, ops[k].id, h.1.offset);
      }
    }
  }

  lemma NextId(p: Wire.Parsers, d: Decoder, held: set<(TP, Record)>, ops: seq<Op>, k: nat)
    requires Ids(p, ops) && k < |ops| && Unspent(d, held, ops, k)
    ensures ops[k].AppendTo? ==> p.isUuid(ops[k].id) && Append.Unused(d, held, ops[k].id)
    ensures !ops[k].AppendTo? ==> Unspent(d, held, ops, k + 1)
    ensures ops[k].RegressLog? ==> ops[k].tp in RegressedBy(ops)
    ensures ops[k].TrimLog? ==> ops[k].tp in TrimmedBy(ops)
  {
  }

  lemma MayRemove(env: Environment, conn: Connection, state: PartitionStateMachine, tp: TP, offset: nat)
    requires Coherent(env, conn, state)
    ensures offset <= env.LogAt(tp).end ==> Enabled(env.decode, env.world, Trim(tp, offset))
    ensures offset < env.LogAt(tp).end ==> Enabled(env.decode, env.world, Truncate(tp, offset))
    ensures Broker(Trim(tp, offset)) && Broker(Truncate(tp, offset))
  {
  }

  method Begins(p: Wire.Parsers, existing: set<string>, ghost ops: seq<Op>)
    returns (env: Environment, conn: Connection, state: PartitionStateMachine)
    ensures fresh(env) && fresh(conn) && fresh(state) && env.parsers == p
    ensures Coherent(env, conn, state) && Initial(env.decode, env.origin) && Wire.Decodes(p, env.decode)
    ensures env.regressed == {} && env.trimmed == {} && Unspent(env.decode, env.held, ops, 0)
  {
    env := new Environment(p, map[], 0, existing, World(map[], {}, EMPTY, map[], None));
    conn := new Connection(p.json, false, EMPTY);
    state := new PartitionStateMachine();
  }

  /** What an operation that raised nothing has done. */
  ghost predicate Done(op: Op, logs0: map<TP, Log>, t0: Tables, logs: map<TP, Log>, t: Tables,
                       entries: map<TP, Entry>, adrift: set<TP>) {
    match op
    case Assign(shards) => forall tp | tp in shards :: Served(LogIn(logs, tp), t, entries, adrift, tp)
    case Revoke(shards) => t == HideAll(t0, shards)
    case AppendTo(source, key, payload, id) => id in t.records && source in t.checkpoint && source in entries
    case StartAgain => t == t0.(owned := {}) && entries == map[]
    case TrimLog(tp, offset) =>
      offset <= LogIn(logs0, tp).end ==> logs == logs0[tp := Trimmed(LogIn(logs0, tp), offset)] && t == t0
    case RegressLog(tp, offset) =>
      offset < LogIn(logs0, tp).end ==> logs == logs0[tp := Truncated(LogIn(logs0, tp), offset)] && t == t0
  }

  /** What an operation may raise where nothing outside has failed. */
  predicate MayRefuse(op: Op, error: Error) {
    match op
    case Assign(_) => error in {RehydrateError, ConfigError, TopicNotFoundError}
    case AppendTo(_, _, _, _) => error in {ValueError, ConfigError, ChangelogProduceError, StorageError}
    case _ => false
  }

  lemma AssignDone(logs: map<TP, Log>, t0: Tables, entries0: map<TP, Entry>, t: Tables, entries: map<TP, Entry>,
                   adrift: set<TP>, shards: seq<TP>)
    ensures Progress(logs, t0, entries0, t, entries, adrift, shards) ==>
              forall logs0 :: Done(Assign(shards), logs0, t0, logs, t, entries, adrift)
  {
  }

  lemma RevokeDone(logs0: map<TP, Log>, t0: Tables, logs: map<TP, Log>, entries: map<TP, Entry>, adrift: set<TP>,
                   shards: seq<TP>)
    ensures Done(Revoke(shards), logs0, t0, logs, HideAll(t0, shards), entries, adrift)
    ensures shards[..|shards|] == shards
  {
  }

  lemma AppendDone(d: Decoder, logs0: map<TP, Log>, t0: Tables, logs: map<TP, Log>, t: Tables, entries: map<TP, Entry>,
                   adrift: set<TP>, source: TP, key: Text, payload: Wire.Payload, id: Text, r: Record)
    requires id in t.records && source in entries && t == Replay(d, t0, source, [r])
    ensures Done(AppendTo(source, key, payload, id), logs0, t0, logs, t, entries, adrift)
  {
    assert DropLast([r]) == [];
  }

  lemma StartDone(logs0: map<TP, Log>, t0: Tables, logs: map<TP, Log>, adrift: set<TP>)
    ensures Done(StartAgain, logs0, t0, logs, t0.(owned := {}), map[], adrift)
  {
  }

  /** What the brokers' two moves come to, done or out of reach. */
  lemma RemoveDone(env: Environment, conn: Connection, state: PartitionStateMachine, tp: TP, offset: nat)
    requires Coherent(env, conn, state)
    ensures var logs, t, log := env.logs, conn.committed, env.LogAt(tp);
            && (offset > log.end ==> Done(TrimLog(tp, offset), logs, t, logs, t, state.entries, env.adrift))
            && (offset >= log.end ==> Done(RegressLog(tp, offset), logs, t, logs, t, state.entries, env.adrift))
            && (offset <= log.end ==>
                  forall after | after == Step(env.decode, env.world, Trim(tp, offset)).logs ::
                    Done(TrimLog(tp, offset), logs, t, after, t, state.entries, env.adrift))
            && (offset < log.end ==>
                  forall after | after == Step(env.decode, env.world, Truncate(tp, offset)).logs ::
                    Done(RegressLog(tp, offset), logs, t, after, t, state.entries, env.adrift))
  {
  }

  lemma Moved(env: Environment, conn: Connection, state: PartitionStateMachine)
    requires Coherent(env, conn, state)
    ensures env.world.logs == env.logs
  {
  }

  lemma BookIs(env: Environment, conn: Connection)
    ensures Book(env, conn) == Ledger(env.faults, conn.toll)
  {
  }

  /** An error of brokers, reads or awaits shows in the book. */
  lemma Blameless(e: Error, b: Ledger, b': Ledger, op: Op)
    ensures Surfaces(e, b, b') || Explained(e, b, b') || Blame(e, b.toll, b'.toll) ==> b' != b
    ensures op.Assign? && e in {RehydrateError, ConfigError, TopicNotFoundError} ==> MayRefuse(op, e)
    ensures op.AppendTo? && e in {ValueError, ConfigError, ChangelogProduceError, StorageError} ==> MayRefuse(op, e)
    ensures Surfaces(e, b, b') ==> e in {RehydrateError, Cancelled}
    ensures b'.faults == b.faults + [KafkaError] || b'.faults == b.faults + [Cancelled] ==> b' != b
  {
  }

  /** One operation.  Only a start that fails leaves no process. */
  method Perform(env: Environment, conn: Connection, state: PartitionStateMachine, topics: ChangelogTopics,
                 timeout: int, batchSize: nat, ops: seq<Op>, k: nat)
    returns (r: Result<()>, state': PartitionStateMachine, topics': ChangelogTopics,
             ghost memory: PartitionStateMachine)
    requires Ids(env.parsers, ops) && timeout > 0 && batchSize > 0 && k < |ops|
    requires Coherent(env, conn, state) && Wire.Decodes(env.parsers, env.decode) && topics.env == env
    requires env.regressed <= RegressedBy(ops) && env.trimmed <= TrimmedBy(ops)
    requires Unspent(env.decode, env.held, ops, k)
    modifies env, conn, state, topics
    ensures Coherent(env, conn, memory) && (memory == state' || (r.Err? && ops[k].StartAgain?))
    ensures state' == state || fresh(state')
    ensures topics'.env == env && (topics' == topics || fresh(topics'))
    ensures env.regressed <= RegressedBy(ops) && env.trimmed <= TrimmedBy(ops)
    ensures memory == state' ==> Unspent(env.decode, env.held, ops, k + 1)
    ensures r.Ok? ==>
              Done(ops[k], old(env.logs), old(conn.committed), env.logs, conn.committed, memory.entries, env.adrift)
    ensures r.Err? && Book(env, conn) == old(Book(env, conn)) ==> MayRefuse(ops[k], r.error)
  {
    hide *;
    r, state', topics', memory := Ok(()), state, topics, state;
    NextId(env.parsers, env.decode, env.held, ops, k);
    ghost var b0 := Book(env, conn);
    match ops[k] {
      case Assign(shards) =>
        var hooks := new PartitionLifecycle(env, conn, state, topics, timeout, batchSize);
        hooks.Means();
        ghost var entries := state.entries;
        var outcome, _, _, _, _, _ := hooks.OnPartitionsAssigned(shards);
        hooks.Means();
        r := outcome;
        AssignDone(env.logs, old(conn.committed), entries, conn.committed, state.entries, env.adrift, shards);
        if r.Err? {
          Blameless(r.error, b0, Book(env, conn), ops[k]);
        }
      case Revoke(shards) =>
        var hooks := new PartitionLifecycle(env, conn, state, topics, timeout, batchSize);
        hooks.Means();
        var revoked, _, _ := hooks.OnPartitionsRevoked(shards);
        hooks.Means();
        r := revoked;
        RevokeDone(old(env.logs), old(conn.committed), env.logs, state.entries, env.adrift, shards);
        ToldMeans(r, b0, Book(env, conn));
        if r.Err? {
          Blameless(r.error, b0, Book(env, conn), ops[k]);
        }
      case AppendTo(source, key, payload, id) =>
        var appender := new Append.Appender(env, conn, state);
        appender.Means();
        ghost var held, end := env.held, env.LogAt(source).end;
        BookIs(env, conn);
        var appended, copies, _, _ := appender.Append(source, key, payload, id);
        BookIs(env, conn);
        appender.Means();
        r := appended;
        if r.Ok? {
          AppendDone(env.decode, old(env.logs), old(conn.committed), env.logs, conn.committed, state.entries,
                     env.adrift, source, key, payload, id, Last(copies));
        } else {
          Blameless(r.error, b0, Book(env, conn), ops[k]);
        }
        SpendsItsOwn(env.parsers, env.decode, held, env.held, ops, k, end, copies);
      case StartAgain =>
        var started, left := Restarted(env, conn, state);
        memory := left;
        if started.Err? {
          r := Err(started.error);
          Blameless(r.error, b0, Book(env, conn), ops[k]);
        } else {
          StartDone(old(env.logs), old(conn.committed), env.logs, env.adrift);
          state' := started.value;
          topics' := new ChangelogTopics(env, topics.mayCreate, topics.verifies);
        }
      case TrimLog(tp, offset) =>
        RemoveDone(env, conn, state, tp, offset);
        if offset <= env.LogAt(tp).end {
          MayRemove(env, conn, state, tp, offset);
          BrokersMove(env, conn, state, Trim(tp, offset));
          Moved(env, conn, state);
        }
      case RegressLog(tp, offset) =>
        RemoveDone(env, conn, state, tp, offset);
        if offset < env.LogAt(tp).end {
          MayRemove(env, conn, state, tp, offset);
          BrokersMove(env, conn, state, Truncate(tp, offset));
          Moved(env, conn, state);
        }
    }
  }

  /** The life of a process under any operations of its host: all of them are performed, in order, unless a
      start fails. */
  method Drive(p: Wire.Parsers, existing: set<string>, mayCreate: bool, verifies: bool, timeout: int, batchSize: nat,
               ops: seq<Op>)
    returns (env: Environment, conn: Connection, results: seq<Result<()>>, ghost memory: PartitionStateMachine)
    requires Ids(p, ops) && timeout > 0 && batchSize > 0
    ensures Coherent(env, conn, memory) && Sound(env, conn, memory)
    ensures env.regressed <= RegressedBy(ops) && env.trimmed <= TrimmedBy(ops)
    ensures |results| <= |ops|
    ensures |results| < |ops| ==> results != [] && results[|results| - 1].Err? && ops[|results| - 1].StartAgain?
  {
    hide *;
    var state;
    env, conn, state := Begins(p, existing, ops);
    var topics := new ChangelogTopics(env, mayCreate, verifies);
    memory, results := state, [];
    for k := 0 to |ops|
      invariant memory == state && fresh(env) && fresh(conn) && fresh(state) && fresh(topics)
      invariant Coherent(env, conn, state) && Initial(env.decode, env.origin)
      invariant env.parsers == p && Wire.Decodes(p, env.decode) && topics.env == env
      invariant env.regressed <= RegressedBy(ops) && env.trimmed <= TrimmedBy(ops)
      invariant Unspent(env.decode, env.held, ops, k) && |results| == k
    {
      var r;
      r, state, topics, memory := Perform(env, conn, state, topics, timeout, batchSize, ops, k);
      results := results + [r];
      if r.Err? && ops[k].StartAgain? {
        break;
      }
    }
    CoherentIsSound(env, conn, memory);
  }
}
