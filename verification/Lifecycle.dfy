/** The rebalance hooks: rehydrate with its replay loop, budget, resets and clamps, and revoke. */
module Lifecycle {
  import opened Types
  import opened Tables
  import opened Logs
  import opened State
  import opened Steps
  import opened Txn
  import opened Environments
  import opened Process
  import opened Rehydrate
  import opened Topics
  import Names
  import Wire

  class PartitionLifecycle {
    const env: Environment
    const conn: Connection
    const state: PartitionStateMachine
    const topics: ChangelogTopics
    const timeout: int
    const batchSize: Positive

    constructor (env: Environment, conn: Connection, state: PartitionStateMachine, topics: ChangelogTopics,
                 timeout: int, batchSize: nat)
      requires timeout > 0 && batchSize > 0 && topics.env == env
      ensures this.env == env && this.conn == conn && this.state == state && this.topics == topics
    {
      this.env, this.conn, this.state, this.topics := env, conn, state, topics;
      this.timeout, this.batchSize := timeout, batchSize;
    }

    ghost predicate Valid()
      reads this, env`logs, env`run, env`world, env`reassigned, env`shown, env`regressed, env`trimmed
      reads env`overtaken, env`held, env`adrift, conn, state
    {
      Coherent(env, conn, state) && topics.env == env
    }

    lemma Means()
      ensures Valid() <==> Coherent(env, conn, state) && topics.env == env
    {
    }

    /** Journal a step that touches neither tables nor statuses. */
    ghost method NoteQuiet(e: Event)
      requires Valid() && Enabled(env.decode, env.world, e) && !Broker(e)
      requires !e.Mark? && !e.RevealShard? && !e.AppendCommit?
      requires Step(env.decode, env.world, e).tables == env.world.tables
      requires Step(env.decode, env.world, e).status == env.world.status
      modifies env`run, env`world
      ensures Valid() && env.world == Step(env.decode, old(env.world), e) && env.run == old(env.run) + [e]
    {
      env.Note(e);
    }

    method ReadCheckpoint(tp: TP) returns (r: Result<Option<int>>)
      modifies env`now, env`faults
      ensures env.now >= old(env.now)
      ensures r.Ok? ==> r.value == CheckpointOf(conn.committed, tp)
      ensures Told(r, old(Book(env, conn)), Book(env, conn))
    {
      env.Pass();
      var e := env.ReadTrouble();
      r := if e.Some? then Err(e.value) else Ok(CheckpointOf(conn.committed, tp));
    }

    /** One transaction per fetched batch, then the in-memory write-back. */
    method MaterializeBatch(tp: TP, batch: seq<Record>) returns (r: Result<()>)
      requires Valid() && batch != [] && tp in state.entries
      requires InSession(env.world, tp) && env.world.session.value.batch == batch
      modifies env`now, env`run, env`world, conn, state
      ensures Valid() && env.now >= old(env.now) && old(env.run) <= env.run
      ensures if r.Ok? || conn.severed.TookEffect?
              then Readable(env.decode, batch)
                   && conn.committed == CommitBatch(env.decode, old(conn.committed), tp, batch)
                   && env.world == Step(env.decode, old(env.world), ReplayCommit(tp))
              else conn.committed == old(conn.committed) && env.world == old(env.world)
      ensures state.entries ==
                if r.Ok? then old(state.entries)[tp := Applied(old(state.entries[tp]), Last(batch).offset)]
                else old(state.entries)
      ensures r.Ok? ==> Quiet(old(Book(env, conn)), Book(env, conn))
      ensures r.Err? ==>
                || Explained(r.error, old(Book(env, conn)), Book(env, conn))
                || (Quiet(old(Book(env, conn)), Book(env, conn)) && !conn.severed.TookEffect?
                    && StoppedAt(env.decode, batch, 0, r.error))
      ensures conn.severed.TookEffect? ==> r == Err(Cancelled)
    {
      hide Step, Enabled, InStep, CommitBatch, Readable, RunWork, InsertsOf, Wire.Decodes, Environment.Journaled;
      Facts(tp);
      CommitStep(env.decode, env.world, tp, batch);
      var work := BatchStatements(env.parsers, tp, batch);
      BatchWork(env.parsers, env.decode, conn.committed, tp, batch);
      r := Transact(env, conn, work);
      if r.Err? && !Explained(r.error, old(Book(env, conn)), Book(env, conn)) {
        NotBusy(batch);
        StopsInBatch(env.decode, batch, batch, RunWork(conn.json, old(conn.committed), work), r.error);
      }
      if r.Ok? || conn.severed.TookEffect? {
        env.Note(ReplayCommit(tp));
        CommitCutOff(env.decode, state.entries, old(env.world), env.world, env.adrift, tp, batch);
        CommitInStep(env.decode, state.entries, old(env.world), env.world, env.adrift, tp, batch);
      }
      if r.Ok? {
        state.RecordApplied(tp, Last(batch).offset);
      }
    }

    /** The answer to an out-of-range fetch: find the log start, seek there. */
    method ResetToStart(tp: TP) returns (r: Result<nat>)
      requires Valid() && InSession(env.world, tp) && env.world.session.value.position == env.position
      requires !env.LogAt(tp).InRange(env.position)
      modifies env`now, env`faults, env`position, env`run, env`world
      ensures Valid() && env.now >= old(env.now) && old(env.run) <= env.run && env.world.status == old(env.world.status)
      ensures Told(r, old(Book(env, conn)), Book(env, conn))
      ensures r.Ok? ==> r.value == env.LogAt(tp).start && env.position == r.value
      ensures r.Ok? ==> env.world.session == Some(Session(tp, env.position, [], false, true))
    {
      hide Valid, Step, Enabled, LogIn;
      Facts(tp);
      OutOfRangeSession(env.decode, env.world, tp);
      NoteQuiet(OutOfRange(tp));
      Facts(tp);
      r := env.BeginningOffset(tp);
      if r.Ok? {
        var sought := env.SeekToStart(tp);
        if sought.Err? {
          return Err(sought.error);
        }
        SeekSession(env.decode, env.world, tp);
        NoteQuiet(SeekToBeginning(tp));
      }
    }

    /** What the hidden parts of the invariant give about one shard. */
    lemma Facts(tp: TP)
      requires Valid()
      ensures env.LogAt(tp).Valid() && LogOf(env.world, tp) == env.LogAt(tp) && env.world.tables == conn.committed
      ensures tp !in state.entries ==> tp !in conn.committed.owned
      ensures tp in state.entries && tp !in env.adrift ==>
                NotAhead(state.entries[tp].checkpoint, CheckpointOf(conn.committed, tp))
      ensures Replayed(env.decode, env.LogAt(tp), tp, conn.committed, 0, conn.committed)
    {
    }

    /** The log of a shard, and its entry or the one its first write starts from. */
    lemma EntryIs(tp: TP)
      ensures state.EntryOf(tp) == if tp in state.entries then state.entries[tp] else FRESH
      ensures env.LogAt(tp) == LogIn(env.logs, tp)
    {
    }

    lemma BookIs()
      ensures Book(env, conn) == Ledger(env.faults, conn.toll)
    {
    }

    lemma BrokerTells<T>(r: Result<T>, b: Ledger, b': Ledger)
      requires b'.toll == b.toll && b'.faults == (if r.Err? then b.faults + [r.error] else b.faults)
      requires r.Err? ==> r.error in {KafkaError, Cancelled}
      ensures r.Ok? ==> Quiet(b, b')
      ensures r.Err? ==> Explained(r.error, b, b')
    {
    }

    lemma TopicsHere()
      requires Valid()
      ensures topics.env == env
    {
    }

    /** What step 0 raises, at the boundary. */
    lemma StepZero(e: Error, b: Ledger, b': Ledger)
      requires b.toll == b'.toll
      ensures BrokerReported(e, b.faults, b'.faults) ==> Surfaces(Boundary(e), b, b')
      ensures e in {ConfigError, TopicNotFoundError} ==> Boundary(e) == e
      ensures b'.faults == b.faults ==> Quiet(b, b')
      ensures Boundary(e) == ConfigError ==> e == ConfigError
    {
    }

    lemma NotBusyStop(rs: seq<Record>, done: nat, e: Error)
      requires Valid()
      ensures StoppedAt(env.decode, rs, done, e) ==> e in {RehydrateError, StorageError}
    {
      assert forall r :: env.decode(r) == Wire.Judge(env.parsers, r);
    }

    /** No record is busy. */
    lemma NotBusy(batch: seq<Record>)
      requires Valid()
      ensures forall e | Raises(env.decode, batch, e) :: e in {RehydrateError, Sqlite}
    {
      assert forall r :: env.decode(r) == Wire.Judge(env.parsers, r);
    }

    /** A non-empty fetch is always materialized and committed. */
    method CommitFetched(tp: TP, batch: seq<Record>, ghost consumer: int, ghost reset: bool) returns (r: Result<()>)
      requires Valid() && tp in state.entries
      requires env.world.session == Some(Session(tp, consumer, [], false, reset))
      requires batch != [] && env.LogAt(tp).InRange(consumer) && batch <= From(env.LogAt(tp).records, consumer)
      requires env.position == Last(batch).offset + 1
      modifies env`now, env`run, env`world, conn, state
      ensures Valid() && env.now >= old(env.now) && old(env.run) <= env.run
      ensures if r.Ok? || conn.severed.TookEffect?
              then Readable(env.decode, batch)
                   && conn.committed == CommitBatch(env.decode, old(conn.committed), tp, batch)
              else conn.committed == old(conn.committed)
      ensures r.Ok? ==> env.world.session == Some(Session(tp, env.position, [], false, reset))
      ensures state.entries ==
                if r.Ok? then old(state.entries)[tp := Applied(old(state.entries[tp]), Last(batch).offset)]
                else old(state.entries)
      ensures r.Ok? ==> Quiet(old(Book(env, conn)), Book(env, conn))
      ensures r.Err? ==>
                || Explained(r.error, old(Book(env, conn)), Book(env, conn))
                || (Quiet(old(Book(env, conn)), Book(env, conn)) && !conn.severed.TookEffect?
                    && StoppedAt(env.decode, batch, 0, r.error))
      ensures conn.severed.TookEffect? ==> r == Err(Cancelled)
    {
      hide Valid, InStep, Environment.Journaled, CommitBatch, From, Step, Enabled, CheckpointOf;
      Facts(tp);
      FetchSession(env.decode, env.world, tp, consumer, reset, batch);
      NoteQuiet(Fetch(tp, |batch|));
      ghost var fetched := env.world;
      r := MaterializeBatch(tp, batch);
      if r.Ok? {
        CommitSession(env.decode, fetched, tp, consumer, reset, batch);
      }
    }

    /** One fetch and what follows from it, up to the deadline check.  `taken` is the batch that has been
        committed, if any; an error leaves one behind only if it is a cancellation that came too late. */
    method Turn(tp: TP, ghost reset: bool) returns (turn: Turned, ghost taken: seq<Record>)
      requires Valid() && tp in state.entries
      requires env.world.session == Some(Session(tp, env.position, [], false, reset))
      modifies env`now, env`faults, env`position, env`run, env`world, env`tally, conn, state
      ensures Valid() && env.now >= old(env.now) && old(env.run) <= env.run
      ensures turn.Empty? ==> env.now > old(env.now)
      ensures !turn.Broke? ==> Quiet(old(Book(env, conn)), Book(env, conn))
      ensures turn.Broke? ==>
                || Explained(turn.error, old(Book(env, conn)), Book(env, conn))
                || (Quiet(old(Book(env, conn)), Book(env, conn)) && taken == []
                    && env.LogAt(tp).InRange(old(env.position))
                    && StoppedAt(env.decode, From(env.LogAt(tp).records, old(env.position)), 0, turn.error))
      ensures turn.Empty? ==> env.world == old(env.world)
      ensures turn.SentBack? ==> env.world.session == Some(Session(tp, env.position, [], false, true))
      ensures turn.Took? ==> env.world.session == Some(Session(tp, env.position, [], false, reset))
      ensures turn.SentBack? ==>
                !env.LogAt(tp).InRange(old(env.position)) && turn.start == env.position == env.LogAt(tp).start
      ensures turn.Empty? ==> env.position == old(env.position)
      ensures turn.Took? ==> taken == turn.batch && 0 < |taken| <= batchSize && env.position == Last(taken).offset + 1
      ensures turn.Broke? && taken != [] ==> turn.error == Cancelled && conn.severed.TookEffect?
      ensures turn.Empty? || turn.SentBack? ==> taken == []
      ensures taken == [] ==> conn.committed == old(conn.committed)
      ensures taken != [] ==>
                env.LogAt(tp).InRange(old(env.position)) && taken <= From(env.LogAt(tp).records, old(env.position))
      ensures taken != [] ==>
                Readable(env.decode, taken) && conn.committed == CommitBatch(env.decode, old(conn.committed), tp, taken)
      ensures turn.Took? ==>
                state.entries == old(state.entries)[tp := Applied(old(state.entries[tp]), Last(turn.batch).offset)]
      ensures !turn.Took? ==> state.entries == old(state.entries)
      ensures env.tally.fetches == old(env.tally.fetches) + 1
      ensures env.tally.late == old(env.tally.late) + if old(env.now) >= env.deadline then 1 else 0
      ensures env.tally.empties == old(env.tally.empties) + if turn.Empty? then 1 else 0
      ensures !turn.Broke? ==> env.tally.resets == old(env.tally.resets) + if turn.SentBack? then 1 else 0
      ensures env.tally.resets <= old(env.tally.resets) + if env.LogAt(tp).InRange(old(env.position)) then 0 else 1
      ensures !(env.LogAt(tp).InRange(old(env.position)) && From(env.LogAt(tp).records, old(env.position)) == []) ==>
                env.tally.starved == old(env.tally.starved)
      // every empty answer is the brokers' doing: nothing was left, or they withheld it
      ensures env.tally.withheld == old(env.tally.withheld) + if turn.Empty?
                && !(env.LogAt(tp).InRange(old(env.position)) && From(env.LogAt(tp).records, old(env.position)) == [])
                then 1 else 0
    {
      hide Valid, Readable, CommitBatch, From, CheckpointOf;
      ghost var consumer := env.position;
      taken := [];
      var poll := env.GetMany(tp, batchSize);
      match poll {
        case Failed(e) =>
          turn := Broke(e);
        case OffsetOutOfRange =>
          var r := ResetToStart(tp);
          turn := if r.Ok? then SentBack(r.value) else Broke(r.error);
        case Records(batch) =>
          if batch == [] {
            return Empty, [];
          }
          var r := CommitFetched(tp, batch, consumer, reset);
          StopsInMore(env.decode, batch, From(env.LogAt(tp).records, consumer));
          turn := if r.Ok? then Took(batch) else Broke(r.error);
          taken := if r.Ok? || conn.severed.TookEffect? then batch else [];
      }
    }

    /** The body of the loop, up to its next test or its end: `Reached` means on to the test. */
    method LoopBody(tp: TP, leo: nat, deadline: int, position: int, logStart: nat, reset: bool, replayed: nat,
                    ghost log: Log, ghost t0: Tables, ghost done: nat, ghost trail: seq<int>)
      returns (stop: Stop, position': int, logStart': nat, reset': bool, replayed': nat,
               ghost done': nat, ghost trail': seq<int>)
      requires Valid() && log == env.LogAt(tp) && leo == log.end && deadline == env.deadline
      requires position != leo && replayed == done
      requires tp in state.entries
      requires tp !in env.adrift ==> state.entries[tp].checkpoint == CheckpointOf(conn.committed, tp)
      requires env.world.session == Some(Session(tp, env.position, [], false, reset))
      requires Standing(env.decode, log, tp, t0, reset, done, position, env.position, conn.committed, trail)
      requires reset ==> logStart == log.start
      modifies env`now, env`faults, env`position, env`run, env`world, env`tally, conn, state
      ensures Valid() && env.now >= old(env.now) && old(env.run) <= env.run
      ensures tp in state.entries
      ensures state.entries == old(state.entries)[tp := old(state.entries[tp]).(
                  checkpoint := state.entries[tp].checkpoint)]
      ensures tp !in env.adrift && !stop.Broken? ==> state.entries[tp].checkpoint == CheckpointOf(conn.committed, tp)
      ensures !stop.Broken? ==>
                && env.world.session == Some(Session(tp, env.position, [], false, reset'))
                && Standing(env.decode, log, tp, t0, reset', done', position', env.position, conn.committed,
                            trail')
                && replayed' == done' && (reset' ==> logStart' == log.start)
      ensures stop.Broken? ==>
                Falling(leo, trail')
                && Replayed(env.decode, log, tp, t0, done', conn.committed)
      ensures stop.Expired? ==>
                env.now >= deadline && !EndedAt(Todo(log, CheckpointOf(t0, tp)), done', leo)
      ensures stop.Reached? && position' != leo ==> env.now < deadline
      ensures env.tally.fetches == old(env.tally.fetches) + 1
      ensures env.tally.late == old(env.tally.late) + if old(env.now) >= deadline then 1 else 0
      ensures Finishes(log, CheckpointOf(t0, tp)) ==> env.tally.starved == old(env.tally.starved)
      ensures env.tally.resets <= old(env.tally.resets) + if reset then 0 else 1
      ensures !stop.Broken? ==> Quiet(old(Book(env, conn)), Book(env, conn))
      ensures stop.Broken? ==>
                || Explained(stop.error, old(Book(env, conn)), Book(env, conn))
                || (Quiet(old(Book(env, conn)), Book(env, conn))
                    && StoppedAt(env.decode, Todo(log, CheckpointOf(t0, tp)), done', stop.error))
      ensures Finishes(log, CheckpointOf(t0, tp)) ==>
                env.tally.empties - old(env.tally.empties) == env.tally.withheld - old(env.tally.withheld)
      // a reset, or more of the work done, or an empty answer that took time
      ensures !stop.Broken? ==>
                if reset' != reset then
                  !reset && env.tally.resets == old(env.tally.resets) + 1
                  && done' == done && env.tally.empties == old(env.tally.empties) && |trail'| == |trail|
                else
                  env.tally.resets == old(env.tally.resets)
                  && if env.tally.empties == old(env.tally.empties) then done' > done && |trail'| == |trail| + 1
                     else env.tally.empties == old(env.tally.empties) + 1
                          && done' == done && position' == position && trail' == trail && env.now > old(env.now)
    {
      hide *;
      Facts(tp);
      ghost var consumer, e1, t := env.position, state.entries[tp], conn.committed;
      stop, position', logStart', reset', replayed' := Reached, position, logStart, reset, replayed;
      done', trail' := done, trail;
      StandingMeans(env.decode, log, tp, t0, reset, done, position, consumer, t, trail);
      var turn;
      ghost var taken;
      turn, taken := Turn(tp, reset);
      if taken != [] {
        StandsAfterBatch(env.decode, log, tp, t0, reset, done, position, consumer, t, trail, taken);
        AppliedMatches(env.decode, e1, t, tp, taken);
        done', trail' := done + |taken|, trail + [Last(taken).offset + 1];
        StandingMeans(env.decode, log, tp, t0, reset, done', Last(taken).offset + 1, Last(taken).offset + 1,
                      conn.committed, trail');
      }
      match turn {
        case Broke(e) =>
          StandsStopped(env.decode, log, tp, t0, reset, done, position, consumer, t, trail, e);
          stop := Broken(e);
        case SentBack(start) =>
          StandsAfterReset(env.decode, log, tp, t0, reset, done, position, consumer, t, trail);
          position', logStart', reset', replayed', trail' := start, start, true, 0, [start];
          StandingMeans(env.decode, log, tp, t0, true, 0, start, start, t, trail');
          stop := if env.now >= deadline then Expired else Reached;
        case Empty =>
          stop := if env.now >= deadline then Expired else Reached;
        case Took(batch) =>
          replayed', position' := replayed + |batch|, Last(batch).offset + 1;
          stop := if position' != leo && env.now >= deadline then Expired else Reached;
      }
    }

    /** The `while position != leo` loop: fetch, commit, check the deadline; an empty fetch or a reset
        only leads to the check.  The measure: at most one reset, then each fetch leaves less of the
        work, or comes back empty and has taken time. */
    method ReplayLoop(tp: TP, leo: nat, start: int, deadline: int, ghost log: Log, ghost t0: Tables)
      returns (stop: Stop, reset: bool, logStart: nat, replayed: nat, ghost done: nat, ghost trail: seq<int>)
      requires Valid() && deadline == env.deadline
      requires log == env.LogAt(tp) && leo == log.end && t0 == conn.committed
      requires tp in state.entries
      requires tp !in env.adrift ==> state.entries[tp].checkpoint == CheckpointOf(conn.committed, tp)
      requires env.world.session == Some(Session(tp, env.position, [], false, false))
      requires Cursor(log, CheckpointOf(t0, tp), false, 0, start, env.position)
      modifies env`now, env`faults, env`position, env`run, env`world, env`tally, conn, state
      ensures Valid() && env.now >= old(env.now) && old(env.run) <= env.run
      // only memory's checkpoint moves, and it stays the persisted one; an error leaves it no further
      ensures tp in state.entries
      ensures state.entries == old(state.entries)[tp := old(state.entries[tp]).(
                  checkpoint := state.entries[tp].checkpoint)]
      ensures tp !in env.adrift && !stop.Broken? ==> state.entries[tp].checkpoint == CheckpointOf(conn.committed, tp)
      ensures Replayed(env.decode, log, tp, t0, done, conn.committed)
      ensures !stop.Broken? ==> env.world.session == Some(Session(tp, env.position, [], false, reset))
      ensures stop.Reached? ==>
                Cursor(log, CheckpointOf(t0, tp), reset, done, leo, env.position)
      ensures stop.Reached? ==> replayed == done && (reset ==> logStart == log.start)
      ensures stop.Expired? ==>
                env.now >= deadline && !EndedAt(Todo(log, CheckpointOf(t0, tp)), done, leo)
      ensures stop.Expired? ==> env.tally.fetches > old(env.tally.fetches)
      // it fails only if a broker or a transaction did, or at the first record that cannot be read
      ensures !stop.Broken? ==> Quiet(old(Book(env, conn)), Book(env, conn))
      ensures stop.Broken? ==>
                || Explained(stop.error, old(Book(env, conn)), Book(env, conn))
                || (Quiet(old(Book(env, conn)), Book(env, conn))
                    && StoppedAt(env.decode, Todo(log, CheckpointOf(t0, tp)), done, stop.error))
      // every fetch is the one reset, an empty answer, or a step closer to the log end
      ensures env.tally.resets <= old(env.tally.resets) + 1
      ensures Falling(leo, trail) && (!stop.Broken? ==> |trail| <= 1 + done)
      ensures !stop.Broken? ==>
                env.tally.fetches - old(env.tally.fetches) ==
                  (env.tally.resets - old(env.tally.resets)) + (env.tally.empties - old(env.tally.empties))
                  + |trail| - 1
      ensures start == leo ==>
                stop.Reached? && !reset && env.tally.fetches == old(env.tally.fetches)
                && env.tally.resets == old(env.tally.resets)
      ensures env.tally.late <= old(env.tally.late) + 1
      ensures env.tally.late > old(env.tally.late) ==> env.now >= deadline
      ensures done <= |Todo(log, CheckpointOf(t0, tp))|
      // the log end is met if and only if it can be, unless an error or the deadline comes first; and a
      // loop that can meet it always has a record to fetch
      ensures stop.Reached? ==> Finishes(log, CheckpointOf(t0, tp))
      ensures !stop.Broken? && env.now < deadline ==> stop.Reached?
      ensures !stop.Broken? && env.tally.empties == old(env.tally.empties) ==>
                env.tally.fetches - old(env.tally.fetches) <= 1 + |Todo(log, CheckpointOf(t0, tp))|
      ensures Finishes(log, CheckpointOf(t0, tp)) ==> env.tally.starved == old(env.tally.starved)
      // and comes back empty only where a broker withheld it
      ensures Finishes(log, CheckpointOf(t0, tp)) ==>
                env.tally.empties - old(env.tally.empties) == env.tally.withheld - old(env.tally.withheld)
      ensures stop.Reached? ==> trail != [] && Last(trail) == leo
    {
      hide *;
      var position := start;
      stop, reset, logStart, replayed, done := Reached, false, 0, 0, 0;
      ghost var entry := state.entries[tp];
      ghost var cp := CheckpointOf(t0, tp);
      ghost var fetched := false;
      Facts(tp);
      StillQuiet(Book(env, conn));
      trail := [start];
      StandsAtStart(env.decode, log, tp, t0, start, env.position);
      StandingMeans(env.decode, log, tp, t0, reset, done, position, env.position, t0, trail);
      while position != leo
        invariant Valid() && env.now >= old(env.now) && old(env.run) <= env.run
        invariant tp in state.entries
        invariant tp !in env.adrift ==> state.entries[tp].checkpoint == CheckpointOf(conn.committed, tp)
        invariant state.entries == old(state.entries)[tp := entry.(checkpoint := state.entries[tp].checkpoint)]
        invariant env.world.session == Some(Session(tp, env.position, [], false, reset))
        invariant Standing(env.decode, log, tp, t0, reset, done, position, env.position, conn.committed, trail)
        invariant done <= |Todo(log, cp)|
        invariant replayed == done && (reset ==> logStart == log.start)
        invariant stop == Reached && (fetched && position != leo ==> env.now < deadline)
        invariant env.tally.resets == old(env.tally.resets) + if reset then 1 else 0
        invariant env.tally.fetches - old(env.tally.fetches) ==
                    (env.tally.resets - old(env.tally.resets)) + (env.tally.empties - old(env.tally.empties))
                    + |trail| - 1
        invariant fetched ==> env.tally.fetches > old(env.tally.fetches)
        invariant if fetched then start != leo else env.tally == old(env.tally) && position == start && !reset
        invariant env.tally.late <= old(env.tally.late) + 1
        invariant env.tally.late > old(env.tally.late) ==> env.now >= deadline
        invariant position != leo ==> env.tally.late == old(env.tally.late)
        invariant Finishes(log, cp) ==> env.tally.starved == old(env.tally.starved)
        invariant Finishes(log, cp) ==>
                    env.tally.empties - old(env.tally.empties) == env.tally.withheld - old(env.tally.withheld)
        invariant Quiet(old(Book(env, conn)), Book(env, conn))
        decreases !reset, |Todo(log, cp)| - done, deadline - env.now
      {
        fetched := true;
        ghost var book := Book(env, conn);
        stop, position, logStart, reset, replayed, done, trail :=
          LoopBody(tp, leo, deadline, position, logStart, reset, replayed, log, t0, done, trail);
        QuietUntil(old(Book(env, conn)), book, Book(env, conn));
        if stop.Broken? {
          ReplayedWithin(env.decode, log, tp, t0, done, conn.committed);
          return;
        }
        StandingMeans(env.decode, log, tp, t0, reset, done, position, env.position, conn.committed, trail);
        if stop.Expired? {
          return;
        }
      }
      StandingMeans(env.decode, log, tp, t0, reset, done, position, env.position, conn.committed, trail);
    }

    // ---- status, write-back and visibility ------------------------------------------------------

    method SetStatus(tp: TP, status: Status)
      requires Valid() && status != RESTORING && (status == STANDBY ==> tp !in conn.committed.owned)
      modifies env`run, env`world, state
      ensures Valid() && old(env.run) <= env.run
      ensures state.entries == old(state.entries)[tp := old(state.EntryOf(tp)).(status := status)]
      ensures env.world == old(env.world).(status := old(env.world).status[tp := status])
    {
      hide InStep, Environment.Journaled;
      Facts(tp);
      env.Note(Mark(tp, status));
      state.Mark(tp, status);
      EntryInStep(old(state.entries), conn.committed, old(env.world), env.adrift, tp, state.entries[tp], env.world);
    }

    method MarkRestoring(tp: TP)
      requires Valid()
      modifies env`run, env`world, env`reassigned, state
      ensures Valid() && old(env.run) <= env.run
      ensures state.entries == old(state.entries)[tp := old(state.EntryOf(tp)).(status := RESTORING)]
      ensures env.world == old(env.world).(status := old(env.world).status[tp := RESTORING])
      ensures env.reassigned <==> old(env.reassigned) || tp in conn.committed.owned
    {
      hide InStep, Environment.Journaled;
      Facts(tp);
      env.NoteRestoring(tp);
      state.Mark(tp, RESTORING);
      EntryInStep(old(state.entries), conn.committed, old(env.world), env.adrift, tp, state.entries[tp], env.world);
    }

    /** The first write about a shard enters it as STANDBY. */
    ghost method NoteFresh(tp: TP)
      requires Valid() && tp !in state.entries
      modifies env`run, env`world
      ensures env.Journaled() && old(env.run) <= env.run
      ensures env.world == old(env.world).(status := old(env.world).status[tp := STANDBY])
    {
      hide InStep, Environment.Journaled;
      Facts(tp);
      env.Note(Mark(tp, STANDBY));
    }

    /** Seed the in-memory checkpoint with the persisted one. */
    method SeedCheckpoint(tp: TP, checkpoint: int)
      requires Valid() && CheckpointOf(conn.committed, tp) == Some(checkpoint)
      modifies env`run, env`world, state
      ensures Valid() && old(env.run) <= env.run && env.world.session == old(env.world).session
      ensures state.entries == old(state.entries)[tp := Applied(old(state.EntryOf(tp)), checkpoint)]
    {
      hide InStep, Environment.Journaled;
      Facts(tp);
      ghost var unseen := tp !in state.entries;
      if unseen {
        NoteFresh(tp);
      }
      state.RecordApplied(tp, checkpoint);
      EntryInStep(old(state.entries), conn.committed, old(env.world), env.adrift, tp, state.entries[tp], env.world);
    }

    method CacheLogEnd(tp: TP, leo: nat)
      requires Valid()
      modifies env`run, env`world, state
      ensures Valid() && old(env.run) <= env.run && env.world.session == old(env.world).session
      ensures state.entries == old(state.entries)[tp := old(state.EntryOf(tp)).(logEnd := Some(leo))]
    {
      hide InStep, Environment.Journaled;
      Facts(tp);
      ghost var unseen := tp !in state.entries;
      if unseen {
        NoteFresh(tp);
      }
      state.RecordLogEnd(tp, leo);
      EntryInStep(old(state.entries), conn.committed, old(env.world), env.adrift, tp, state.entries[tp], env.world);
    }

    method RevealRows(tp: TP) returns (r: Result<()>)
      requires Valid() && tp in state.entries && state.entries[tp].status in {READY, READY_PARTIAL}
      modifies env`now, env`run, env`world, env`shown, conn
      ensures Valid() && env.now >= old(env.now) && old(env.run) <= env.run
      ensures Told(r, old(Book(env, conn)), Book(env, conn))
      ensures if r.Ok? || conn.severed.TookEffect?
              then conn.committed == Reveal(old(conn.committed), tp) && env.shown == old(env.shown) + [tp]
              else conn.committed == old(conn.committed) && env.shown == old(env.shown)
      ensures conn.severed.TookEffect? ==> r == Err(Cancelled)
    {
      hide InStep, Environment.Journaled, Step, Enabled, RunWork;
      Facts(tp);
      RevealInStep(env.decode, state.entries, env.world, env.adrift, tp);
      RunOne(conn.json, conn.committed, InsertOwned(tp));
      r := Transact(env, conn, [InsertOwned(tp)]);
      if r.Ok? || conn.severed.TookEffect? {
        env.NoteReveal(tp);
      }
    }

    method ForceStop(tp: TP) returns (r: Result<()>)
      requires Valid() && tp in state.entries
      modifies env`now, env`run, env`world, env`shown, conn, state
      ensures Valid() && env.now >= old(env.now) && old(env.run) <= env.run
      ensures env.shown == old(env.shown) + if r.Ok? || conn.severed.TookEffect? then [tp] else []
      ensures state.entries == old(state.entries)[tp := old(state.entries[tp]).(status := READY_PARTIAL)]
      ensures conn.committed ==
                if r.Ok? || conn.severed.TookEffect? then Reveal(old(conn.committed), tp) else old(conn.committed)
      ensures Told(r, old(Book(env, conn)), Book(env, conn))
      ensures conn.severed.TookEffect? ==> r == Err(Cancelled)
    {
      SetStatus(tp, READY_PARTIAL);
      r := RevealRows(tp);
    }

    /** The clamp's commit and its write-back.  A cancellation between the two leaves memory as it was,
        ahead of disk exactly if it was above the target. */
    method CommitClamp(tp: TP, target: int) returns (r: Result<()>)
      requires Valid() && tp in state.entries && -1 <= target < env.position
      requires env.world.session == Some(Session(tp, env.position, [], false, true))
      modifies env`now, env`run, env`world, env`adrift, conn, state
      ensures Valid() && env.now >= old(env.now) && old(env.run) <= env.run
      ensures conn.committed ==
                if r.Ok? || conn.severed.TookEffect? then Clamp(old(conn.committed), tp, target)
                else old(conn.committed)
      ensures state.entries ==
                if r.Ok? then old(state.entries)[tp := old(state.entries[tp]).(checkpoint := Some(target))]
                else old(state.entries)
      ensures env.adrift ==
                if r.Ok? then old(env.adrift) - {tp}
                else if conn.severed.TookEffect? then Drift(old(env.adrift), tp, state.entries[tp].checkpoint, target)
                else old(env.adrift)
      ensures Told(r, old(Book(env, conn)), Book(env, conn))
      ensures conn.severed.TookEffect? ==> r == Err(Cancelled)
    {
      hide InStep, Environment.Journaled, Drift, Step, Enabled, RunWork, Clamp, Quiet, Explained, Blame, NoLess;
      Facts(tp);
      ClampSession(env.decode, env.world, tp, env.position, target);
      RunOne(conn.json, conn.committed, ClampCheckpoint(tp, target));
      r := Transact(env, conn, [ClampCheckpoint(tp, target)]);
      if r.Ok? || conn.severed.TookEffect? {
        env.Note(ClampTo(tp, target));
        ClampInStep(old(state.entries), old(env.world), env.adrift, tp, target, env.world);
        env.adrift := if r.Ok? then env.adrift - {tp} else Drift(env.adrift, tp, state.entries[tp].checkpoint, target);
      }
      if r.Ok? {
        state.RecordClamped(tp, target);
      }
    }

    /** The two clamps after a reset.  They happen on disk and in memory, or, cancelled in between, on
        disk only. */
    method ApplyPostResetClamps(tp: TP, leo: nat, logStart: nat, replayed: nat) returns (r: Result<()>)
      requires Valid() && tp in state.entries
      requires env.world.session == Some(Session(tp, env.position, [], false, true)) && leo <= env.position
      modifies env`now, env`faults, env`run, env`world, env`adrift, conn, state
      ensures Valid() && env.now >= old(env.now) && old(env.run) <= env.run
      ensures Told(r, old(Book(env, conn)), Book(env, conn))
      ensures var target := ClampTarget(CheckpointOf(old(conn.committed), tp), leo, logStart, replayed);
        if r.Ok? && target.Some? then
          conn.committed == Clamp(old(conn.committed), tp, target.value)
          && state.entries == old(state.entries)[tp := old(state.entries[tp]).(checkpoint := target)]
        else
          state.entries == old(state.entries)
          && (conn.committed == old(conn.committed)
              || (r == Err(Cancelled) && conn.severed.TookEffect? && target.Some?
                  && conn.committed == Clamp(old(conn.committed), tp, target.value)))
      ensures forall other | other != tp :: other in env.adrift <==> other in old(env.adrift)
      ensures r.Ok? ==> env.adrift <= old(env.adrift)
      ensures r.Ok? && env.adrift != old(env.adrift) ==>
                state.entries[tp].checkpoint == CheckpointOf(conn.committed, tp)
    {
      hide Valid;
      var stored := ReadCheckpoint(tp);
      if stored.Err? {
        return Err(stored.error);
      }
      var target: Option<int> := None;
      if stored.value.Some? && stored.value.value > leo - 1 {
        target := Some(leo - 1);
      } else if replayed == 0 && logStart == leo {
        target := Some(logStart - 1);
      }
      if target.None? {
        return Ok(());
      }
      r := CommitClamp(tp, target.value);
    }

    // ---- a rehydrate ------------------------------------------------------------------------------

    /** Read the stored checkpoint and seed memory with it. */
    method Seed(tp: TP) returns (r: Result<Option<int>>)
      requires Valid()
      modifies env`now, env`faults, env`run, env`world, state
      ensures Valid() && env.now >= old(env.now) && old(env.run) <= env.run
      ensures SameElsewhere(old(state.entries), state.entries, tp)
      ensures Told(r, old(Book(env, conn)), Book(env, conn))
      ensures r.Ok? ==> r.value == CheckpointOf(conn.committed, tp)
      ensures r.Ok? && tp !in env.adrift ==> r.value == state.EntryOf(tp).checkpoint
      ensures state.EntryOf(tp).status == old(state.EntryOf(tp)).status
      ensures r.Ok? ==> env.world.session == Some(Opened(tp, r.value))
    {
      hide Valid, Step, Enabled, CheckpointOf;
      Facts(tp);
      OpenSession(env.decode, env.world, tp);
      r := ReadCheckpoint(tp);
      if r.Ok? {
        NoteQuiet(Open(tp));
        if r.value.Some? {
          SeedCheckpoint(tp, r.value.value);
        }
      }
    }

    /** Up to marking the shard: memory is seeded with the stored checkpoint, the log end captured. */
    method Capture(tp: TP) returns (r: Result<(Option<int>, nat)>)
      requires Valid()
      modifies env`now, env`faults, env`run, env`world, env`reassigned, state
      ensures Valid() && env.now >= old(env.now) && old(env.run) <= env.run
      ensures SameElsewhere(old(state.entries), state.entries, tp)
      ensures env.reassigned ==> old(env.reassigned) || tp in conn.committed.owned
      ensures Told(r, old(Book(env, conn)), Book(env, conn))
      ensures r.Ok? ==> r.value == (CheckpointOf(conn.committed, tp), env.LogAt(tp).end)
      ensures r.Ok? ==> env.world.session == Some(Opened(tp, r.value.0))
      ensures r.Ok? ==>
                tp in state.entries && state.entries[tp].status == RESTORING
                && state.entries[tp].logEnd == Some(r.value.1)
      ensures r.Ok? && tp !in env.adrift ==> state.entries[tp].checkpoint == r.value.0
      ensures r.Err? ==> state.EntryOf(tp).status == old(state.EntryOf(tp)).status
    {
      hide Valid, Step, Enabled, CheckpointOf, LogIn, Opened;
      var checkpoint := Seed(tp);
      if checkpoint.Err? {
        return Err(checkpoint.error);
      }
      var leo := env.EndOffset(tp);
      if leo.Err? {
        return Err(leo.error);
      }
      CacheLogEnd(tp, leo.value);
      MarkRestoring(tp);
      r := Ok((checkpoint.value, leo.value));
    }

    /** Put the consumer where replay starts.  With nothing stored the consumer goes to the log start,
        but the loop's own position starts at 0. */
    method Place(tp: TP, checkpoint: Option<int>) returns (r: Result<int>)
      requires Valid() && env.world.session == Some(Opened(tp, checkpoint))
      modifies env`now, env`faults, env`position, env`run, env`world
      ensures Valid() && env.now >= old(env.now) && old(env.run) <= env.run
      ensures Told(r, old(Book(env, conn)), Book(env, conn))
      ensures r.Ok? ==> env.world.session == Some(Session(tp, env.position, [], false, false))
      ensures r.Ok? ==> Cursor(env.LogAt(tp), checkpoint, false, 0, r.value, env.position)
      ensures r.Ok? ==> r.value == StartAfter(checkpoint)
    {
      hide Valid, Cursor, Step, Enabled;
      Facts(tp);
      CursorStarts(env.LogAt(tp), checkpoint);
      if checkpoint.None? {
        var sought := env.SeekToStart(tp);
        if sought.Err? {
          return Err(sought.error);
        }
        StartSession(env.decode, env.world, tp);
        NoteQuiet(SeekToBeginning(tp));
        r := Ok(0);
      } else {
        env.Seek(checkpoint.value + 1);
        r := Ok(checkpoint.value + 1);
      }
    }

    /** Past the loop: the clamps if it was reset, then ready, then revealed.  An error in the clamps
        leaves the shard RESTORING; an error in the reveal leaves it READY over hidden rows, unless the
        error is a cancellation that came too late to stop the reveal. */
    method Complete(tp: TP, leo: nat, reset: bool, logStart: nat, replayed: nat, ghost settled: Tables)
      returns (r: Result<()>, at: Stage)
      requires Valid() && tp in state.entries && state.entries[tp].status == RESTORING
      requires tp !in env.adrift ==> state.entries[tp].checkpoint == CheckpointOf(conn.committed, tp)
      requires reset ==> env.world.session == Some(Session(tp, env.position, [], false, true)) && leo == env.position
      requires !reset ==> settled == conn.committed
      requires reset ==> var target := ClampTarget(CheckpointOf(conn.committed, tp), leo, logStart, replayed);
                         settled == if target.Some? then Clamp(conn.committed, tp, target.value) else conn.committed
      modifies env`now, env`faults, env`run, env`world, env`shown, env`adrift, conn, state
      ensures Valid() && env.now >= old(env.now) && old(env.run) <= env.run
      ensures at == Midway || at == Revealing
      ensures env.shown == old(env.shown) + if r.Ok? || (at.Revealing? && conn.severed.TookEffect?) then [tp] else []
      ensures match at
              case Revealing =>
                conn.committed == (if r.Ok? || conn.severed.TookEffect? then Reveal(settled, tp) else settled)
              case _ => r.Err? && (conn.committed == old(conn.committed) || conn.committed == settled)
      ensures at.Revealing? && conn.severed.TookEffect? ==> r == Err(Cancelled)
      ensures SameElsewhere(old(state.entries), state.entries, tp) && tp in state.entries
      ensures state.entries[tp].status == if at.Revealing? then READY else RESTORING
      ensures state.entries[tp].logEnd == old(state.entries[tp]).logEnd
      ensures r.Ok? && tp !in env.adrift ==> state.entries[tp].checkpoint == CheckpointOf(conn.committed, tp)
      ensures forall other | other != tp :: other in env.adrift <==> other in old(env.adrift)
      ensures Told(r, old(Book(env, conn)), Book(env, conn))
    {
      hide Valid;
      at := Midway;
      if reset {
        r := ApplyPostResetClamps(tp, leo, logStart, replayed);
        if r.Err? {
          return;
        }
      }
      at := Revealing;
      SetStatus(tp, READY);
      r := RevealRows(tp);
    }

    /** Everything before the loop. */
    method Begin(tp: TP) returns (r: Result<(nat, int)>, at: Stage)
      requires Valid()
      modifies env`now, env`faults, env`position, env`run, env`world, env`reassigned, env`begun, state
      ensures Valid() && env.now >= old(env.now) && old(env.run) <= env.run && env.begun == old(env.begun) + [tp]
      ensures env.reassigned ==> old(env.reassigned) || tp in conn.committed.owned
      ensures SameElsewhere(old(state.entries), state.entries, tp)
      ensures Told(r, old(Book(env, conn)), Book(env, conn))
      ensures r.Err? ==> at != Revealing && !Shows(Raised(r.error, at), conn.severed)
      ensures StatusLeft(old(state.EntryOf(tp)).status, at, state.EntryOf(tp).status)
      ensures r.Ok? ==> var cp := CheckpointOf(conn.committed, tp);
                && r.value == (env.LogAt(tp).end, StartAfter(cp))
                && Cursor(env.LogAt(tp), cp, false, 0, StartAfter(cp), env.position)
                && tp in state.entries && state.entries[tp].logEnd == Some(env.LogAt(tp).end)
                && state.entries[tp].status == RESTORING
                && (tp !in env.adrift ==> state.entries[tp].checkpoint == cp)
      ensures r.Ok? ==> at == Midway
      ensures r.Ok? ==> env.world.session == Some(Session(tp, env.position, [], false, false))
    {
      hide Valid, Cursor, CheckpointOf, SameElsewhere;
      env.begun := env.begun + [tp];
      at := Early;
      var captured := Capture(tp);
      if captured.Err? {
        return Err(captured.error), at;
      }
      at := Midway;
      var start := Place(tp, captured.value.0);
      if start.Err? {
        return Err(start.error), at;
      }
      r := Ok((captured.value.1, start.value));
    }

    /** What follows the loop, by how it stopped. */
    method Finish(tp: TP, leo: nat, stop: Stop, reset: bool, logStart: nat, replayed: nat, ghost t0: Tables,
                  ghost done: nat)
      returns (outcome: Outcome)
      requires Valid() && tp in state.entries && leo == env.LogAt(tp).end
      requires state.entries[tp].status == RESTORING && state.entries[tp].logEnd == Some(leo)
      requires tp !in env.adrift && !stop.Broken? ==> state.entries[tp].checkpoint == CheckpointOf(conn.committed, tp)
      requires Replayed(env.decode, env.LogAt(tp), tp, t0, done, conn.committed)
      requires !stop.Broken? ==> env.world.session == Some(Session(tp, env.position, [], false, reset))
      requires stop.Reached? ==> Cursor(env.LogAt(tp), CheckpointOf(t0, tp), reset, done, leo, env.position)
      requires stop.Reached? ==> replayed == done && (reset ==> logStart == env.LogAt(tp).start)
      requires stop.Expired? ==> !EndedAt(Todo(env.LogAt(tp), CheckpointOf(t0, tp)), done, leo)
      modifies env`now, env`faults, env`run, env`world, env`shown, env`adrift, conn, state
      ensures Valid() && env.now >= old(env.now) && old(env.run) <= env.run
      ensures env.shown == old(env.shown) + if Shows(outcome, conn.severed) then [tp] else []
      ensures conn.committed.owned == old(conn.committed.owned) + if Shows(outcome, conn.severed) then {tp} else {}
      ensures Leaves(env.decode, env.LogAt(tp), tp, t0, outcome, done, conn.committed)
      ensures SameElsewhere(old(state.entries), state.entries, tp) && tp in state.entries
      ensures outcome.Ready? ==> state.entries[tp].status == READY
      ensures outcome.Partial? ==> state.entries[tp].status == READY_PARTIAL
      ensures outcome.Raised? ==> forall before :: StatusLeft(before, outcome.at, state.EntryOf(tp).status)
      ensures state.EntryOf(tp).logEnd == Some(leo)
      ensures !outcome.Raised? && tp !in env.adrift ==>
                state.EntryOf(tp).checkpoint == CheckpointOf(conn.committed, tp)
      ensures outcome.Raised? && Shows(outcome, conn.severed) ==> outcome.error == Cancelled
      ensures forall other | other != tp :: other in env.adrift <==> other in old(env.adrift)
      ensures stop.Broken? ==> outcome == Raised(stop.error, Midway) && Book(env, conn) == old(Book(env, conn))
      ensures !outcome.Raised? ==> Quiet(old(Book(env, conn)), Book(env, conn))
      ensures !stop.Broken? && outcome.Raised? ==> Explained(outcome.error, old(Book(env, conn)), Book(env, conn))
      ensures outcome.Partial? ==> stop.Expired?
      ensures outcome.Ready? ==> stop.Reached?
      ensures stop.Reached? ==> !outcome.Partial?
      ensures stop.Broken? ==> outcome.Raised?
    {
      hide Valid, Leaves, Cursor, Replayed, CheckpointOf, Settled, ClampTarget, Finishes;
      Facts(tp);
      ghost var log, t := env.LogAt(tp), conn.committed;
      LeavesBy(env.decode, log, tp, t0, done, t);
      match stop {
        case Broken(e) =>
          outcome := Raised(e, Midway);
        case Expired =>
          var r := ForceStop(tp);
          outcome := if r.Ok? then Partial else Raised(r.error, Revealing);
        case Reached =>
          LoopEnd(env.decode, log, tp, t0, reset, done, env.position, t);
          var r, at := Complete(tp, leo, reset, logStart, replayed, Settled(log, t, tp));
          outcome := if r.Ok? then Ready else Raised(r.error, at);
      }
    }

    /** `_rehydrate_one`. */
    method RehydrateOne(tp: TP, deadline: int) returns (outcome: Outcome, ghost done: nat)
      requires Valid() && deadline == env.deadline
      modifies env`now, env`faults, env`position, env`run, env`world, env`reassigned, env`shown, env`begun, env`adrift
      modifies env`tally, conn, state
      ensures Valid() && env.now >= old(env.now) && old(env.run) <= env.run && env.begun == old(env.begun) + [tp]
      ensures env.shown == old(env.shown) + if Shows(outcome, conn.severed) then [tp] else []
      ensures conn.committed.owned == old(conn.committed.owned) + if Shows(outcome, conn.severed) then {tp} else {}
      ensures Leaves(env.decode, env.LogAt(tp), tp, old(conn.committed), outcome, done, conn.committed)
      ensures SameElsewhere(old(state.entries), state.entries, tp)
      // the status it leaves, by where it ended
      ensures outcome.Ready? ==> tp in state.entries && state.entries[tp].status == READY
      ensures outcome.Partial? ==> tp in state.entries && state.entries[tp].status == READY_PARTIAL
      ensures outcome.Raised? ==> StatusLeft(old(state.EntryOf(tp)).status, outcome.at, state.EntryOf(tp).status)
      ensures !outcome.Raised? ==> state.EntryOf(tp).logEnd == Some(env.LogAt(tp).end)
      ensures !outcome.Raised? && tp !in env.adrift ==>
                state.EntryOf(tp).checkpoint == CheckpointOf(conn.committed, tp)
      ensures forall other | other != tp :: other in env.adrift <==> other in old(env.adrift)
      // it fails only if a broker, a read or a transaction did, or at the first record that cannot be read
      ensures !outcome.Raised? ==> Quiet(old(Book(env, conn)), Book(env, conn))
      ensures outcome.Raised? ==>
                || Explained(outcome.error, old(Book(env, conn)), Book(env, conn))
                || (Quiet(old(Book(env, conn)), Book(env, conn))
                    && StoppedAt(env.decode, Todo(env.LogAt(tp), CheckpointOf(old(conn.committed), tp)), done,
                                 outcome.error))
      ensures outcome.Raised? && Shows(outcome, conn.severed) ==> outcome.error == Cancelled
      ensures env.reassigned ==> old(env.reassigned) || tp in old(conn.committed.owned)
      ensures outcome.Partial? ==> env.now >= deadline && env.tally.fetches > old(env.tally.fetches)
      ensures env.tally.late <= old(env.tally.late) + 1
      ensures env.tally.late > old(env.tally.late) ==> env.now >= deadline
      ensures env.tally.resets <= old(env.tally.resets) + 1
      ensures !outcome.Raised? ==>
                env.tally.fetches - old(env.tally.fetches) <=
                  (env.tally.resets - old(env.tally.resets)) + (env.tally.empties - old(env.tally.empties)) + done
      // a caught-up shard needs no fetch and no time
      ensures StartAfter(CheckpointOf(old(conn.committed), tp)) == env.LogAt(tp).end ==>
                !outcome.Partial? && env.tally.fetches == old(env.tally.fetches)
                && env.tally.resets == old(env.tally.resets)
      // READY can be reached if and only if the loop can meet the log end; then no fetch goes without a
      // record left to return, and only empty answers, an error or the deadline keep the call from it
      ensures !outcome.Raised? && env.now < deadline ==> outcome.Ready?
      ensures Finishes(env.LogAt(tp), CheckpointOf(old(conn.committed), tp)) ==>
                env.tally.starved == old(env.tally.starved)
      ensures Finishes(env.LogAt(tp), CheckpointOf(old(conn.committed), tp)) ==>
                env.tally.empties - old(env.tally.empties) == env.tally.withheld - old(env.tally.withheld)
      ensures outcome.Ready? ==> Finishes(env.LogAt(tp), CheckpointOf(old(conn.committed), tp))
      // where nothing outside fails and brokers answer with what they have, a log that finishes and can be
      // read is replayed to its end, unless the deadline comes first
      ensures Book(env, conn) == old(Book(env, conn)) && env.tally.withheld == old(env.tally.withheld)
              && Finishes(env.LogAt(tp), CheckpointOf(old(conn.committed), tp))
              && Readable(env.decode, Todo(env.LogAt(tp), CheckpointOf(old(conn.committed), tp))) ==>
                && !outcome.Raised? && (outcome.Ready? || env.now >= deadline)
                && env.tally.empties == old(env.tally.empties)
                && env.tally.fetches - old(env.tally.fetches) <= 1 + done
      ensures done <= |Todo(env.LogAt(tp), CheckpointOf(old(conn.committed), tp))|
    {
      hide *;
      Facts(tp);
      done := 0;
      ghost var log, t0, entries := env.LogAt(tp), conn.committed, state.entries;
      LeavesBy(env.decode, log, tp, t0, 0, t0);
      var begun, at := Begin(tp);
      ToldMeans(begun, old(Book(env, conn)), Book(env, conn));
      if begun.Err? {
        NothingRaises(env.decode, Todo(log, CheckpointOf(t0, tp)), 0, Raised(begun.error, at), old(Book(env, conn)),
                      Book(env, conn));
        return Raised(begun.error, at), 0;
      }
      var (leo, start) := begun.value;
      ghost var begunEntries := state.entries;
      ghost var book1 := Book(env, conn);
      var stop, reset, logStart, replayed;
      ghost var trail;
      stop, reset, logStart, replayed, done, trail := ReplayLoop(tp, leo, start, deadline, log, t0);
      ghost var book2 := Book(env, conn);
      QuietUntil(old(Book(env, conn)), book1, book2);
      ReplayedWithin(env.decode, log, tp, t0, done, conn.committed);
      ghost var entry := state.entries[tp];
      outcome := Finish(tp, leo, stop, reset, logStart, replayed, t0, done);
      QuietUntil(old(Book(env, conn)), book2, Book(env, conn));
      NothingRaises(env.decode, Todo(log, CheckpointOf(t0, tp)), done, outcome, old(Book(env, conn)), Book(env, conn));
      PutElsewhere(entries, begunEntries, entry, state.entries, tp);
    }

    // ---- the hooks ----------------------------------------------------------------------------------

    /** Cache the log end and seed memory with the stored checkpoint; the status stays. */
    method LookAt(tp: TP) returns (r: Result<()>)
      requires Valid()
      modifies env`now, env`faults, env`run, env`world, state
      ensures Valid() && env.now >= old(env.now) && old(env.run) <= env.run
      ensures state.EntryOf(tp).status == old(state.EntryOf(tp)).status
      ensures r.Ok? ==> state.EntryOf(tp).logEnd == Some(env.LogAt(tp).end)
      ensures r.Ok? && tp !in env.adrift ==> state.EntryOf(tp).checkpoint == CheckpointOf(conn.committed, tp)
      ensures SameElsewhere(old(state.entries), state.entries, tp)
      ensures Told(r, old(Book(env, conn)), Book(env, conn))
    {
      hide Valid, Step, Enabled, CheckpointOf, LogIn, Quiet, Explained, NoLess, InStep, Environment.Journaled;
      Facts(tp);
      BookIs();
      ghost var b0 := Book(env, conn);
      StillQuiet(b0);
      var leo := env.EndOffset(tp);
      BookIs();
      BrokerTells(leo, b0, Book(env, conn));
      if leo.Err? {
        return Err(leo.error);
      }
      CacheLogEnd(tp, leo.value);
      ghost var b1 := Book(env, conn);
      var checkpoint := ReadCheckpoint(tp);
      QuietUntil(b0, b1, Book(env, conn));
      if checkpoint.Err? {
        return Err(checkpoint.error);
      }
      if checkpoint.value.Some? {
        SeedCheckpoint(tp, checkpoint.value.value);
      }
      r := Ok(());
    }

    /** A shard the budget never reached: visible at the checkpoint it has. */
    method RevealPartialUnreached(tp: TP) returns (r: Result<()>, at: Stage)
      requires Valid()
      modifies env`now, env`faults, env`run, env`world, env`shown, conn, state
      ensures Valid() && env.now >= old(env.now) && old(env.run) <= env.run
      ensures at == Early || at == Revealing
      ensures r.Ok? ==> at == Revealing
      ensures if at == Revealing && (r.Ok? || conn.severed.TookEffect?)
              then conn.committed == Reveal(old(conn.committed), tp) && env.shown == old(env.shown) + [tp]
              else conn.committed == old(conn.committed) && env.shown == old(env.shown)
      ensures at == Revealing && conn.severed.TookEffect? ==> r == Err(Cancelled)
      ensures at == Revealing ==> tp in state.entries && state.entries[tp].status == READY_PARTIAL
      ensures StatusLeft(old(state.EntryOf(tp)).status, at, state.EntryOf(tp).status)
      ensures r.Ok? ==> state.EntryOf(tp).logEnd == Some(env.LogAt(tp).end)
      ensures r.Ok? && tp !in env.adrift ==> state.EntryOf(tp).checkpoint == CheckpointOf(conn.committed, tp)
      ensures SameElsewhere(old(state.entries), state.entries, tp)
      ensures Told(r, old(Book(env, conn)), Book(env, conn))
    {
      hide Valid, Step, Enabled, CheckpointOf, LogIn, Quiet, Explained, NoLess, InStep, Environment.Journaled;
      RevealKeepsCheckpoint(conn.committed, tp);
      at := Early;
      ghost var b0 := Book(env, conn);
      r := LookAt(tp);
      if r.Err? {
        return;
      }
      at := Revealing;
      ghost var b1 := Book(env, conn);
      SetStatus(tp, READY_PARTIAL);
      r := RevealRows(tp);
      QuietUntil(b0, b1, Book(env, conn));
    }

    /** A rehydrate for the first shard and for any shard reached before the deadline, else a reveal. */
    method Serve(tp: TP, first: bool, deadline: int) returns (entered: bool, outcome: Outcome, ghost done: nat)
      requires Valid() && deadline == env.deadline
      modifies env`now, env`faults, env`position, env`run, env`world, env`reassigned, env`shown, env`begun, env`adrift
      modifies env`tally, conn, state
      ensures Valid() && env.now >= old(env.now) && old(env.run) <= env.run
      ensures Leaves(env.decode, env.LogAt(tp), tp, old(conn.committed), outcome, done, conn.committed)
      ensures SameElsewhere(old(state.entries), state.entries, tp)
      ensures outcome.Ready? ==> tp in state.entries && state.entries[tp].status == READY
      ensures outcome.Partial? ==> tp in state.entries && state.entries[tp].status == READY_PARTIAL
      ensures outcome.Raised? ==> StatusLeft(old(state.EntryOf(tp)).status, outcome.at, state.EntryOf(tp).status)
      ensures !outcome.Raised? ==> state.EntryOf(tp).logEnd == Some(env.LogAt(tp).end)
      ensures !outcome.Raised? && tp !in env.adrift ==>
                state.EntryOf(tp).checkpoint == CheckpointOf(conn.committed, tp)
      ensures conn.committed.owned == old(conn.committed.owned) + if Shows(outcome, conn.severed) then {tp} else {}
      ensures env.shown == old(env.shown) + if Shows(outcome, conn.severed) then [tp] else []
      ensures forall other | other != tp :: other in env.adrift <==> other in old(env.adrift)
      // it fails only if a broker, a read or a transaction did, or at the first record that cannot be read
      ensures !outcome.Raised? ==> Quiet(old(Book(env, conn)), Book(env, conn))
      ensures outcome.Raised? ==>
                || Explained(outcome.error, old(Book(env, conn)), Book(env, conn))
                || (Quiet(old(Book(env, conn)), Book(env, conn))
                    && StoppedAt(env.decode, Todo(env.LogAt(tp), CheckpointOf(old(conn.committed), tp)), done,
                                 outcome.error))
      ensures outcome.Raised? && Shows(outcome, conn.severed) ==> outcome.error == Cancelled
      ensures env.reassigned ==> old(env.reassigned) || tp in old(conn.committed.owned)
      ensures env.begun == old(env.begun) + if entered then [tp] else []
      ensures entered <==> first || old(env.now) < deadline
      ensures outcome.Partial? ==> env.now >= deadline
      ensures env.tally.late <= old(env.tally.late) + if entered then 1 else 0
      ensures env.tally.late > old(env.tally.late) ==> env.now >= deadline
    {
      hide Valid, Leaves, SameElsewhere, CheckpointOf, StatusLeft, LogIn;
      done := 0;
      entered := first || env.now < deadline;
      if entered {
        outcome, done := RehydrateOne(tp, deadline);
      } else {
        UnreachedLeaves(env.decode, env.LogAt(tp), tp, conn.committed);
        var r, at := RevealPartialUnreached(tp);
        outcome := if r.Ok? then Partial else Raised(r.error, at);
      }
    }

    /** The shard's turn past step 0, and the end of its session. */
    method ServeOne(tp: TP, first: bool, deadline: int) returns (entered: bool, outcome: Outcome, ghost done: nat)
      requires Valid() && deadline == env.deadline
      modifies env`now, env`faults, env`position, env`run, env`world, env`reassigned, env`shown, env`begun, env`adrift
      modifies env`tally, conn, state
      ensures Valid() && env.now >= old(env.now) && old(env.run) <= env.run
      ensures Leaves(env.decode, env.LogAt(tp), tp, old(conn.committed), outcome, done, conn.committed)
      ensures !outcome.Raised? ==> Served(env.LogAt(tp), conn.committed, state.entries, env.adrift, tp)
      ensures outcome.Raised? ==> StatusLeft(old(state.EntryOf(tp)).status, outcome.at, state.EntryOf(tp).status)
      ensures !ReadyOverHidden(old(conn.committed), old(state.entries), tp) ==>
                (ReadyOverHidden(conn.committed, state.entries, tp) <==>
                   RevealLost(outcome, conn.severed) && tp !in old(conn.committed.owned))
      ensures conn.committed.owned == old(conn.committed.owned) + if Shows(outcome, conn.severed) then {tp} else {}
      ensures env.shown == old(env.shown) + if Shows(outcome, conn.severed) then [tp] else []
      ensures forall other | other != tp ::
                Untouched(old(conn.committed), old(state.entries), conn.committed, state.entries, other)
      ensures forall other | other != tp :: other in env.adrift <==> other in old(env.adrift)
      ensures !outcome.Raised? ==> Quiet(old(Book(env, conn)), Book(env, conn))
      ensures outcome.Raised? ==>
                || Explained(outcome.error, old(Book(env, conn)), Book(env, conn))
                || (Quiet(old(Book(env, conn)), Book(env, conn)) && outcome.error in {RehydrateError, StorageError}
                    && StoppedAt(env.decode, Todo(env.LogAt(tp), CheckpointOf(old(conn.committed), tp)), done,
                                 outcome.error))
      ensures outcome.Raised? && Shows(outcome, conn.severed) ==> outcome.error == Cancelled
      ensures env.reassigned ==> old(env.reassigned) || tp in old(conn.committed.owned)
      ensures env.begun == old(env.begun) + if entered then [tp] else []
      ensures entered <==> first || old(env.now) < deadline
      ensures outcome.Partial? ==> env.now >= deadline
      ensures outcome.Ready? ==> tp in state.entries && state.entries[tp].status == READY
      ensures env.tally.late <= old(env.tally.late) + if entered then 1 else 0
      ensures env.tally.late > old(env.tally.late) ==> env.now >= deadline
    {
      hide *;
      ghost var log, t0, entries := env.LogAt(tp), conn.committed, state.entries;
      ghost var status := state.EntryOf(tp).status;
      EntryIs(tp);
      entered, outcome, done := Serve(tp, first, deadline);
      EntryIs(tp);
      LostRevealLeaves(t0, entries, status, outcome, conn.severed, conn.committed, state.entries,
                       state.EntryOf(tp).status, tp);
      ServesOne(env.decode, log, tp, t0, entries, outcome, done, conn.committed, state.entries, env.adrift);
      if outcome.Raised? {
        NotBusyStop(Todo(log, CheckpointOf(t0, tp)), done, outcome.error);
      }
      CloseSession(env.decode, env.world);
      NoteQuiet(Close);
    }

    /** One turn of the assignment loop: step 0 always, then the shard; errors mapped at the boundary. */
    method AssignOne(tp: TP, first: bool, deadline: int)
      returns (r: Result<()>, entered: bool, ghost outcome: Outcome, ghost done: nat)
      requires Valid() && deadline == env.deadline
      modifies env`now, env`position, env`run, env`world, env`reassigned, env`shown, env`begun, env`adrift
      modifies env`tally, env`topics, env`faults, conn, state, topics
      ensures Valid() && env.now >= old(env.now) && old(env.run) <= env.run
      ensures Leaves(env.decode, env.LogAt(tp), tp, old(conn.committed), outcome, done, conn.committed)
      // a broker, a read or a transaction that fails is RehydrateError, and so is a record that cannot be
      // read; a cancellation passes; else only step 0 refuses, a name or a missing topic
      ensures r.Ok? <==> !outcome.Raised?
      ensures r.Ok? ==> Quiet(old(Book(env, conn)), Book(env, conn))
      ensures r == Err(ConfigError) <==> Names.ChangelogName(tp).Err?
      ensures r.Err? ==>
                || Surfaces(r.error, old(Book(env, conn)), Book(env, conn))
                || (Quiet(old(Book(env, conn)), Book(env, conn)) &&
                    Refuses(r.error, env.decode, env.LogAt(tp), tp, old(conn.committed), outcome, done,
                            topics.mayCreate, env.topics))
      ensures r.Ok? ==> Served(env.LogAt(tp), conn.committed, state.entries, env.adrift, tp)
      ensures outcome.Raised? ==> StatusLeft(old(state.EntryOf(tp)).status, outcome.at, state.EntryOf(tp).status)
      // READY over hidden rows is what a lost reveal leaves, and nothing else does
      ensures !ReadyOverHidden(old(conn.committed), old(state.entries), tp) ==>
                (ReadyOverHidden(conn.committed, state.entries, tp) <==>
                   RevealLost(outcome, conn.severed) && tp !in old(conn.committed.owned))
      // visible if it raised nothing, or a cancellation that came too late to stop the reveal
      ensures conn.committed.owned == old(conn.committed.owned) + if Shows(outcome, conn.severed) then {tp} else {}
      ensures env.shown == old(env.shown) + if Shows(outcome, conn.severed) then [tp] else []
      ensures outcome.Raised? && Shows(outcome, conn.severed) ==> r == Err(Cancelled)
      ensures forall other | other != tp ::
                Untouched(old(conn.committed), old(state.entries), conn.committed, state.entries, other)
      ensures forall other | other != tp :: other in env.adrift <==> other in old(env.adrift)
      ensures old(topics.checked) <= topics.checked && (r.Ok? ==> tp in topics.checked)
      ensures env.reassigned ==> old(env.reassigned) || tp in old(conn.committed.owned)
      ensures env.begun == old(env.begun) + if entered then [tp] else []
      ensures entered ==> first || old(env.now) < deadline
      ensures first && r.Ok? ==> entered
      ensures outcome.Partial? ==> env.now >= deadline
      ensures outcome.Ready? ==> tp in state.entries && state.entries[tp].status == READY
      ensures env.tally.late <= old(env.tally.late) + if entered then 1 else 0
      ensures env.tally.late > old(env.tally.late) ==> env.now >= deadline
    {
      hide *;
      ghost var log, t0, entries, b0 := env.LogAt(tp), conn.committed, state.entries, Book(env, conn);
      done, entered := 0, false;
      UntouchedYet(env.decode, log, tp, t0, entries, state.EntryOf(tp).status);
      BookIs();
      TopicsHere();
      var name := topics.EnsureAndVerify(tp);
      BookIs();
      if name.Err? {
        StepZero(name.error, b0, Book(env, conn));
        NotYetOverHidden(t0, entries, name.error, conn.severed, tp);
        RefusesOnly(Boundary(name.error), env.decode, log, tp, t0, Raised(name.error, Early), 0, topics.mayCreate,
                    env.topics, b0, Book(env, conn));
        return Err(Boundary(name.error)), false, Raised(name.error, Early), 0;
      }
      env.Pass();
      var o;
      entered, o, done := ServeOne(tp, first, deadline);
      outcome := o;
      if o.Raised? {
        BoundaryMaps(o.error, b0, Book(env, conn));
        RefusesOnly(Boundary(o.error), env.decode, log, tp, t0, o, done, topics.mayCreate, env.topics, b0,
                    Book(env, conn));
        r := Err(Boundary(o.error));
      } else {
        r := Ok(());
      }
    }

    /** Turn `i` of an assignment that has served the shards before it. */
    method AssignNext(shards: seq<TP>, i: nat, first: bool, deadline: int, ghost t0: Tables,
                      ghost entries0: map<TP, Entry>, ghost ts: seq<Tables>, ghost outcomes: seq<Outcome>,
                      ghost dones: seq<nat>)
      returns (r: Result<()>, entered: bool, ghost cut: bool,
               ghost ts': seq<Tables>, ghost outcomes': seq<Outcome>, ghost dones': seq<nat>)
      requires Valid() && deadline == env.deadline && i < |shards| && AllChecked(shards[..i], topics.checked)
      requires Progress(env.logs, t0, entries0, conn.committed, state.entries, env.adrift, shards[..i])
      requires AllServed(env.decode, env.logs, shards[..i], t0, conn.committed, ts, outcomes, dones)
      requires env.now < deadline ==> AllReady(state.entries, shards[..i])
      modifies env`now, env`position, env`run, env`world, env`reassigned, env`shown, env`begun, env`adrift
      modifies env`tally, env`topics, env`faults, conn, state, topics
      ensures Valid() && env.now >= old(env.now) && old(env.run) <= env.run
      ensures AllChecked(shards[..i], topics.checked)
      ensures r.Ok? ==>
                && Progress(env.logs, t0, entries0, conn.committed, state.entries, env.adrift, shards[..i + 1])
                && AllServed(env.decode, env.logs, shards[..i + 1], t0, conn.committed, ts', outcomes', dones')
                && AllChecked(shards[..i + 1], topics.checked)
                && (env.now < deadline ==> AllReady(state.entries, shards[..i + 1]))
      ensures Halted(env.logs, t0, entries0, conn.committed, state.entries, env.adrift, shards[..i], shards[i],
                     r.Ok? || cut)
      ensures cut ==> r == Err(Cancelled) && conn.severed.TookEffect?
      ensures Turns(env.decode, env.logs, shards[..i + 1], ts', outcomes', dones')
      ensures |outcomes'| == |dones'| == i + 1 && |ts'| == i + 2 && ts'[0] == t0 && Last(ts') == conn.committed
      ensures ts'[i] == old(conn.committed) && forall j | 0 <= j < i :: !outcomes'[j].Raised?
      ensures forall tp | !ReadyOverHidden(t0, entries0, tp) ::
                ReadyOverHidden(conn.committed, state.entries, tp) <==>
                  RevealLost(Last(outcomes'), conn.severed)
                  && tp == shards[i] && tp !in t0.owned && tp !in shards[..i]
      ensures r.Ok? ==> Quiet(old(Book(env, conn)), Book(env, conn))
      ensures r.Err? ==>
                || Surfaces(r.error, old(Book(env, conn)), Book(env, conn))
                || (Quiet(old(Book(env, conn)), Book(env, conn))
                    && Refuses(r.error, env.decode, LogIn(env.logs, shards[i]), shards[i], old(conn.committed),
                               Last(outcomes'), Last(dones'), topics.mayCreate, env.topics))
      ensures env.shown == old(env.shown) + if r.Ok? || cut then [shards[i]] else []
      ensures env.begun == old(env.begun) + if entered then [shards[i]] else []
      ensures (first && r.Ok? ==> entered) && (entered ==> first || old(env.now) < deadline)
      ensures env.tally.late <= old(env.tally.late) + if entered then 1 else 0
      ensures env.tally.late > old(env.tally.late) ==> env.now >= deadline
      ensures NoneOwned(shards, t0.owned) ==> (env.reassigned ==> old(env.reassigned))
    {
      hide *;
      var tp := shards[i];
      ghost var t1, entries1, adrift1, checked := conn.committed, state.entries, env.adrift, topics.checked;
      StillHidden(env.logs, t0, entries0, t1, entries1, adrift1, shards, i);
      ghost var outcome, done;
      r, entered, outcome, done := AssignOne(tp, first, deadline);
      EntryIs(tp);
      OneMoreChecked(shards[..i], checked, tp, topics.checked);
      ShowsMeans(outcome, conn.severed);
      cut := outcome.Raised? && Shows(outcome, conn.severed);
      OneMore(env.logs, t0, entries0, t1, entries1, adrift1, shards[..i], tp,
              conn.committed, state.entries, env.adrift, Shows(outcome, conn.severed));
      OnlyTheLostReveal(env.logs, t0, entries0, t1, entries1, adrift1, shards[..i], tp,
                        conn.committed, state.entries, RevealLost(outcome, conn.severed));
      assert shards[..i + 1] == shards[..i] + [tp];
      ts', outcomes', dones' := ts + [conn.committed], outcomes + [outcome], dones + [done];
      OneMoreServed(env.decode, env.logs, shards[..i], t0, t1, ts, outcomes, dones, tp, outcome, done,
                    conn.committed, ts', outcomes', dones');
      if r.Ok? && env.now < deadline {
        OneMoreReady(t1, entries1, shards[..i], tp, conn.committed, state.entries);
      }
    }

    /** `on_partitions_assigned`: one deadline for the whole list.  The first `k` shards are served, in
        order; an error stops at the next one and leaves all the others as they were.  `ts` are the
        tables before each turn and after the last, `outcomes` and `dones` what each turn came to; `cut`
        says that the error is a cancellation that came too late to stop the last reveal. */
    method OnPartitionsAssigned(shards: seq<TP>)
      returns (r: Result<()>, ghost k: nat, ghost cut: bool,
               ghost ts: seq<Tables>, ghost outcomes: seq<Outcome>, ghost dones: seq<nat>)
      requires Valid()
      modifies env`now, env`position, env`run, env`world, env`reassigned, env`shown, env`begun, env`adrift, env`deadline
      modifies env`tally, env`topics, env`faults, conn, state, topics
      ensures Valid() && env.now >= old(env.now) && old(env.run) <= env.run
      ensures k <= |shards| && (r.Ok? <==> k == |shards|)
      ensures r.Ok? ==> Progress(env.logs, old(conn.committed), old(state.entries), conn.committed, state.entries,
                                 env.adrift, shards)
      ensures r.Err? ==> Halted(env.logs, old(conn.committed), old(state.entries), conn.committed, state.entries,
                                env.adrift, shards[..k], shards[k], cut)
      ensures cut ==> r == Err(Cancelled) && conn.severed.TookEffect?
      ensures AllChecked(shards[..k], topics.checked)
      // the rows and checkpoints each turn leaves, down to the failing one
      ensures |outcomes| == if r.Ok? then k else k + 1
      ensures Turns(env.decode, env.logs, shards[..|outcomes|], ts, outcomes, dones)
      ensures |ts| == |dones| + 1 && |dones| == |outcomes|
      ensures ts != [] && ts[0] == old(conn.committed) && Last(ts) == conn.committed
      // it fails only if a broker, a read or a transaction did, as RehydrateError unless cancelled; at a
      // record of the failing shard's work that cannot be read, as RehydrateError; or at step 0, for an
      // illegal name or a missing topic
      ensures r.Ok? ==> Quiet(old(Book(env, conn)), Book(env, conn))
      ensures r.Err? ==>
                || Surfaces(r.error, old(Book(env, conn)), Book(env, conn))
                || (Quiet(old(Book(env, conn)), Book(env, conn))
                    && Refuses(r.error, env.decode, LogIn(env.logs, shards[k]), shards[k], ts[k], Last(outcomes),
                               Last(dones), topics.mayCreate, env.topics))
      ensures r.Err? ==> r.error in {RehydrateError, ConfigError, TopicNotFoundError, Cancelled}
      ensures r == Err(Cancelled) ==> Surfaces(Cancelled, old(Book(env, conn)), Book(env, conn))
      ensures forall i | 0 <= i < k :: !outcomes[i].Raised?
      // READY stands over hidden rows for the one shard whose reveal was lost, and for no other
      ensures forall tp | !ReadyOverHidden(old(conn.committed), old(state.entries), tp) ::
                ReadyOverHidden(conn.committed, state.entries, tp) <==>
                  r.Err? && RevealLost(Last(outcomes), conn.severed)
                  && tp == shards[k] && tp !in old(conn.committed.owned) && tp !in shards[..k]
      // a callback that comes back before its deadline has left nothing partial
      ensures r.Ok? && env.now < env.deadline ==> AllReady(state.entries, shards)
      // every shard served is revealed exactly once, in order
      ensures env.shown == old(env.shown) + shards[..if cut then k + 1 else k]
      // the budget: at most one fetch of the whole callback begins at or after the deadline; the first
      // shard is always rehydrated, even when step 0 alone has used up the budget
      ensures env.deadline == old(env.now) + timeout && env.tally.late <= old(env.tally.late) + 1
      ensures old(env.begun) <= env.begun
      ensures k > 0 ==> |old(env.begun)| < |env.begun| && env.begun[|old(env.begun)|] == shards[0]
      ensures NoneOwned(shards, old(conn.committed.owned)) ==> (env.reassigned ==> old(env.reassigned))
    {
      hide *;
      var deadline := env.now + timeout;
      env.deadline := deadline;
      var first, i := true, 0;
      k, cut, ts, outcomes, dones := 0, false, [conn.committed], [], [];
      ghost var t0, entries0 := conn.committed, state.entries;
      NoProgressYet(env.decode, env.logs, t0, entries0, env.adrift);
      NoneReadyYet(entries0);
      NoneChecked(topics.checked);
      NoneServedYet(env.decode, env.logs, t0);
      StillQuiet(Book(env, conn));
      while i < |shards|
        invariant 0 <= i == k <= |shards| && Valid() && env.now >= old(env.now) && old(env.run) <= env.run
        invariant deadline == env.deadline == old(env.now) + timeout && !cut
        invariant Progress(env.logs, t0, entries0, conn.committed, state.entries, env.adrift, shards[..i])
        invariant AllChecked(shards[..i], topics.checked)
        invariant Quiet(old(Book(env, conn)), Book(env, conn))
        invariant AllServed(env.decode, env.logs, shards[..i], t0, conn.committed, ts, outcomes, dones)
        invariant env.now < deadline ==> AllReady(state.entries, shards[..i])
        invariant env.shown == old(env.shown) + shards[..i]
        invariant env.tally.late <= old(env.tally.late) + 1
        invariant env.tally.late > old(env.tally.late) ==> env.now >= deadline && !first
        invariant old(env.begun) <= env.begun && (first <==> i == 0)
        invariant if first then env.begun == old(env.begun)
                  else |old(env.begun)| < |env.begun| && env.begun[|old(env.begun)|] == shards[0]
        invariant NoneOwned(shards, t0.owned) ==> (env.reassigned ==> old(env.reassigned))
      {
        ghost var book, t1 := Book(env, conn), conn.committed;
        var entered;
        r, entered, cut, ts, outcomes, dones :=
          AssignNext(shards, i, first, deadline, t0, entries0, ts, outcomes, dones);
        SurfacesLater(old(Book(env, conn)), book, Book(env, conn));
        if r.Err? {
          RefusesOnly(r.error, env.decode, LogIn(env.logs, shards[i]), shards[i], t1, Last(outcomes), Last(dones),
                      topics.mayCreate, env.topics, old(Book(env, conn)), Book(env, conn));
          return;
        }
        first := first && !entered;
        i, k := i + 1, k + 1;
      }
      assert shards[..i] == shards;
      AllServedMeans(env.decode, env.logs, shards, t0, conn.committed, ts, outcomes, dones);
      ServedNotOverHidden(env.logs, t0, entries0, conn.committed, state.entries, env.adrift, shards);
      r := Ok(());
    }

    /** Hide one shard: the rows disappear before the status changes.  `cut` says that the error is a
        cancellation that came too late to stop the hiding, and only the status is left behind. */
    method RevokeOne(tp: TP) returns (r: Result<()>, ghost cut: bool)
      requires Valid()
      modifies env`now, env`run, env`world, conn, state
      ensures Valid() && env.now >= old(env.now) && old(env.run) <= env.run
      ensures conn.committed == if r.Ok? || cut then Hide(old(conn.committed), tp) else old(conn.committed)
      ensures state.entries == if r.Ok? && tp in old(state.entries)
                               then old(state.entries)[tp := old(state.entries[tp]).(status := STANDBY)]
                               else old(state.entries)
      ensures Told(r, old(Book(env, conn)), Book(env, conn))
      ensures cut ==> r == Err(Cancelled) && conn.severed.TookEffect?
    {
      hide Environment.Journaled;
      StillQuiet(Book(env, conn));
      cut := false;
      if state.StatusOf(tp).None? {
        return Ok(()), false;  // never seen, so not visible
      }
      RunOne(conn.json, conn.committed, DeleteOwned(tp));
      r := Transact(env, conn, [DeleteOwned(tp)]);
      cut := conn.severed.TookEffect?;
      if r.Ok? || cut {
        env.Note(HideShard(tp));
      }
      if r.Ok? {
        SetStatus(tp, STANDBY);
      }
    }

    /** `on_partitions_revoked`.  No shard of the list stays visible, known or not; rows and checkpoints
        are kept, in memory too; an error stops at the shard it hit, which is hidden only if the error is
        a cancellation that came too late. */
    method OnPartitionsRevoked(shards: seq<TP>) returns (r: Result<()>, ghost k: nat, ghost cut: bool)
      requires Valid()
      modifies env`now, env`run, env`world, conn, state
      ensures Valid() && env.now >= old(env.now) && old(env.run) <= env.run
      ensures k <= |shards| && (r.Ok? <==> k == |shards|)
      ensures cut ==> r == Err(Cancelled) && conn.severed.TookEffect?
      ensures conn.committed == HideAll(old(conn.committed), shards[..if cut then k + 1 else k])
      ensures state.entries.Keys == old(state.entries).Keys
      ensures forall tp | tp in state.entries :: state.entries[tp] ==
                if tp in shards[..k] then old(state.entries)[tp].(status := STANDBY) else old(state.entries)[tp]
      ensures Told(r, old(Book(env, conn)), Book(env, conn))
    {
      hide Valid;
      k, cut := 0, false;
      StillQuiet(Book(env, conn));
      var i := 0;
      while i < |shards|
        invariant 0 <= i == k <= |shards| && Valid() && env.now >= old(env.now) && old(env.run) <= env.run
        invariant conn.committed == HideAll(old(conn.committed), shards[..i]) && !cut
        invariant state.entries.Keys == old(state.entries).Keys && Quiet(old(Book(env, conn)), Book(env, conn))
        invariant forall tp | tp in state.entries :: state.entries[tp] ==
                    if tp in shards[..i] then old(state.entries)[tp].(status := STANDBY) else old(state.entries)[tp]
      {
        assert DropLast(shards[..i + 1]) == shards[..i] && shards[..i + 1] == shards[..i] + [shards[i]];
        ghost var book := Book(env, conn);
        r, cut := RevokeOne(shards[i]);
        ToldMeans(r, book, Book(env, conn));
        QuietUntil(old(Book(env, conn)), book, Book(env, conn));
        if r.Err? {
          return;
        }
        i, k := i + 1, k + 1;
      }
      assert shards[..i] == shards;
      r := Ok(());
    }
  }
}
