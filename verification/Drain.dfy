/** The facade's life: appends admitted while running, one `stop` that wins, the drain it waits for,
    and the close steps.  A step is what a task does between two awaits; tasks interleave freely. */
module Drain {
  import opened Types

  datatype RunState = NEW | RUNNING | STOPPING | CLOSED

  datatype CloseStep = ProducerFlush | ProducerStop | ConsumerStop | AdminClose | PoolClose

  const CLOSE_STEPS: seq<CloseStep> := [ProducerFlush, ProducerStop, ConsumerStop, AdminClose, PoolClose]

  /** Where a `stop()` task stands: waiting for the drain, past some close steps with what each came
      to, or back with the error it raised, if any. */
  datatype Stopper = Waiting | Closing(outcomes: seq<Option<Error>>) | Returned(raised: Option<Error>)

  /** The three fields of the facade, and who is at work: appends in flight, stops by number, and every
      close step anyone has attempted. */
  datatype System = System(runState: RunState, inFlight: int, drained: bool,
                           appends: set<nat>, stops: map<nat, Stopper>, attempted: seq<CloseStep>)

  const FRESH := System(NEW, 0, false, {}, map[], [])

  datatype Event =
    | Started
    | AppendEnters(task: nat)
    | AppendLeaves(task: nat)
    | StopEnters(task: nat)
    | StopWakes(task: nat)
    | CloseAttempt(task: nat, outcome: Option<Error>)
    | StopReturns(task: nat)

  /** The first exception of the close steps. */
  function FirstRaised(outcomes: seq<Option<Error>>): Option<Error> {
    if outcomes == [] then None
    else if FirstRaised(DropLast(outcomes)).Some? then FirstRaised(DropLast(outcomes))
    else Last(outcomes)
  }

  predicate At(s: System, task: nat, closing: nat) {
    task in s.stops && s.stops[task].Closing? && |s.stops[task].outcomes| == closing
  }

  predicate Enabled(s: System, e: Event) {
    match e
    case Started => s.runState == NEW
    case AppendEnters(task) => task !in s.appends
    case AppendLeaves(task) => task in s.appends
    case StopEnters(task) => task !in s.stops
    case StopWakes(task) => task in s.stops && s.stops[task] == Waiting && s.drained
    case CloseAttempt(task, _) =>
      task in s.stops && s.stops[task].Closing? && |s.stops[task].outcomes| < |CLOSE_STEPS|
    case StopReturns(task) => At(s, task, |CLOSE_STEPS|)
  }

  function Step(s: System, e: Event): System
    requires Enabled(s, e)
  {
    match e
    case Started => s.(runState := RUNNING)
    case AppendEnters(task) =>
      if s.runState != RUNNING then s  // LifecycleError
      else s.(inFlight := s.inFlight + 1, appends := s.appends + {task})
    case AppendLeaves(task) =>
      var n := s.inFlight - 1;
      s.(inFlight := n, appends := s.appends - {task}, drained := s.drained || (s.runState != RUNNING && n == 0))
    case StopEnters(task) =>
      if s.runState in {STOPPING, CLOSED} then s.(stops := s.stops[task := Returned(None)])
      else if s.runState == NEW then s.(stops := s.stops[task := Returned(Some(LifecycleError))])
      else if s.inFlight > 0 then s.(runState := STOPPING, stops := s.stops[task := Waiting])
      else s.(runState := CLOSED, stops := s.stops[task := Closing([])])
    case StopWakes(task) => s.(runState := CLOSED, stops := s.stops[task := Closing([])])
    case CloseAttempt(task, outcome) =>
      var outcomes := s.stops[task].outcomes;
      s.(stops := s.stops[task := Closing(outcomes + [outcome])], attempted := s.attempted + [CLOSE_STEPS[|outcomes|]])
    case StopReturns(task) => s.(stops := s.stops[task := Returned(FirstRaised(s.stops[task].outcomes))])
  }

  predicate Legal(s: System, run: seq<Event>)
    decreases |run|, 0
  {
    run == [] || (Legal(s, DropLast(run)) && Enabled(After(s, DropLast(run)), Last(run)))
  }

  function After(s: System, run: seq<Event>): System
    requires Legal(s, run)
    decreases |run|, 1
  {
    if run == [] then s else Step(After(s, DropLast(run)), Last(run))
  }

  // ---- what every interleaving keeps ------------------------------------------------------------

  predicate Idle(p: Stopper) {
    p.Returned?
  }

  /** Task `w` alone is stopping the store: every other stop has returned. */
  predicate Winner(s: System, w: nat) {
    w in s.stops && forall task | task in s.stops && task != w :: Idle(s.stops[task])
  }

  ghost predicate Inv(s: System) {
    && s.inFlight == |s.appends|
    && (s.drained ==> s.appends == {} && s.runState in {STOPPING, CLOSED})
    && match s.runState
       case NEW => s.appends == {} && s.attempted == [] && forall task | task in s.stops :: Idle(s.stops[task])
       case RUNNING => s.attempted == [] && forall task | task in s.stops :: Idle(s.stops[task])
       case STOPPING =>
         && s.attempted == [] && (s.appends == {} ==> s.drained)
         && exists w :: Winner(s, w) && s.stops[w] == Waiting
       case CLOSED =>
         && s.appends == {}
         && exists w :: Winner(s, w) && CloseProgress(s, w)
  }

  /** The winner's close steps so far, each attempted once, in order, none by anyone else. */
  predicate CloseProgress(s: System, w: nat)
    requires w in s.stops
  {
    match s.stops[w]
    case Waiting => false
    case Closing(outcomes) => |outcomes| <= |CLOSE_STEPS| && s.attempted == CLOSE_STEPS[..|outcomes|]
    case Returned(_) => s.attempted == CLOSE_STEPS
  }

  lemma CountKept(s: System, e: Event)
    requires s.inFlight == |s.appends| && Enabled(s, e)
    ensures Step(s, e).inFlight == |Step(s, e).appends|
  {
    if e.AppendEnters? {
      assert s.appends * {e.task} == {};
    }
  }

  lemma BeforeStop(s: System, e: Event)
    requires Inv(s) && Enabled(s, e) && s.runState in {NEW, RUNNING}
    ensures Inv(Step(s, e))
  {
    CountKept(s, e);
    var s' := Step(s, e);
    if e.StopEnters? && s.runState == RUNNING {
      assert Winner(s', e.task);
      if s.inFlight == 0 {
        assert CloseProgress(s', e.task);
      }
    }
  }

  lemma WhileStopping(s: System, e: Event)
    requires Inv(s) && Enabled(s, e) && s.runState == STOPPING
    ensures Inv(Step(s, e))
  {
    CountKept(s, e);
    var s' := Step(s, e);
    var w :| Winner(s, w) && s.stops[w] == Waiting;
    assert Winner(s', w);
    if e.StopWakes? {
      assert CloseProgress(s', w);
    } else {
      assert s'.stops[w] == Waiting;
    }
  }

  lemma OnceClosed(s: System, e: Event)
    requires Inv(s) && Enabled(s, e) && s.runState == CLOSED
    ensures Inv(Step(s, e))
  {
    var s' := Step(s, e);
    var w :| Winner(s, w) && CloseProgress(s, w);
    assert Winner(s', w);
    if e.CloseAttempt? {
      var k := |s.stops[w].outcomes|;
      assert CLOSE_STEPS[..k + 1] == CLOSE_STEPS[..k] + [CLOSE_STEPS[k]];
    } else if e.StopReturns? {
      assert CLOSE_STEPS[..|CLOSE_STEPS|] == CLOSE_STEPS;
    }
    assert CloseProgress(s', w);
  }

  lemma InvKept(s: System, e: Event)
    requires Inv(s) && Enabled(s, e)
    ensures Inv(Step(s, e))
  {
    hide *;
    if s.runState == STOPPING {
      WhileStopping(s, e);
    } else if s.runState == CLOSED {
      OnceClosed(s, e);
    } else {
      BeforeStop(s, e);
    }
  }

  lemma {:induction false} Invariant(run: seq<Event>)
    requires Legal(FRESH, run)
    ensures Inv(After(FRESH, run))
  {
    if run != [] {
      Invariant(DropLast(run));
      InvKept(After(FRESH, DropLast(run)), Last(run));
    }
  }

  /** No close step runs while an append is in flight, in any interleaving. */
  lemma NoCloseInFlight(run: seq<Event>, task: nat, outcome: Option<Error>)
    requires Legal(FRESH, run) && Enabled(After(FRESH, run), CloseAttempt(task, outcome))
    ensures After(FRESH, run).appends == {} && After(FRESH, run).runState == CLOSED
  {
    Invariant(run);
  }

  /** The stops of a run that found the store running. */
  function Wins(s: System, run: seq<Event>): nat
    requires Legal(s, run)
  {
    if run == [] then 0
    else Wins(s, DropLast(run)) + if Last(run).StopEnters? && After(s, DropLast(run)).runState == RUNNING then 1 else 0
  }

  /** Exactly one stop wins, ever, once any has found the store running. */
  lemma {:induction false} OneWinner(run: seq<Event>)
    requires Legal(FRESH, run)
    ensures Wins(FRESH, run) == if After(FRESH, run).runState in {STOPPING, CLOSED} then 1 else 0
  {
    if run != [] {
      OneWinner(DropLast(run));
      Invariant(DropLast(run));
    }
  }

  /** Each close step is attempted once, in order, however the earlier ones ended: what has been
      attempted is always a prefix of the five, and all five by the time the winner returns. */
  lemma CloseStepsInOrder(run: seq<Event>)
    requires Legal(FRESH, run)
    ensures After(FRESH, run).attempted <= CLOSE_STEPS
    ensures var s := After(FRESH, run);
            forall task, outcomes | task in s.stops && s.stops[task] == Closing(outcomes) :: |s.attempted| == |outcomes|
  {
    Invariant(run);
  }

  /** Once a stop has won nothing is admitted: the appends in flight only get fewer. */
  lemma {:induction false} NoAdmission(s: System, run: seq<Event>)
    requires s.runState in {STOPPING, CLOSED} && Legal(s, run)
    ensures After(s, run).runState in {STOPPING, CLOSED} && After(s, run).appends <= s.appends
  {
    if run != [] {
      NoAdmission(s, DropLast(run));
    }
  }

  // ---- when the store runs --------------------------------------------------------------------------

  /** The store has been started, and no stop has entered since. */
  predicate StartedUnstopped(run: seq<Event>) {
    exists i :: 0 <= i < |run| && run[i] == Started && forall j | i < j < |run| :: !run[j].StopEnters?
  }

  lemma StartedUnstoppedSnoc(run: seq<Event>)
    requires run != []
    ensures StartedUnstopped(run) <==>
              Last(run) == Started || (StartedUnstopped(DropLast(run)) && !Last(run).StopEnters?)
  {
    var front := DropLast(run);
    if Last(run) == Started {
      assert run[|run| - 1] == Started;
    }
    if StartedUnstopped(front) && !Last(run).StopEnters? {
      var i :| 0 <= i < |front| && front[i] == Started && forall j | i < j < |front| :: !front[j].StopEnters?;
      assert run[i] == Started && forall j | i < j < |run| :: j < |front| ==> run[j] == front[j];
    }
    if StartedUnstopped(run) && Last(run) != Started {
      var i :| 0 <= i < |run| && run[i] == Started && forall j | i < j < |run| :: !run[j].StopEnters?;
      assert front[i] == Started && forall j | i < j < |front| :: front[j] == run[j];
    }
  }

  lemma NotStarted()
    ensures !StartedUnstopped([])
  {
  }

  lemma RunsAfter(s: System, e: Event)
    requires Inv(s) && Enabled(s, e)
    ensures Step(s, e).runState == RUNNING <==> e == Started || (s.runState == RUNNING && !e.StopEnters?)
    ensures Step(s, e).runState == NEW <==> s.runState == NEW && e != Started
  {
  }

  /** The store runs exactly from its start to the first stop after it, and is new exactly until its start. */
  lemma {:induction false} RunsExactly(run: seq<Event>)
    requires Legal(FRESH, run)
    ensures After(FRESH, run).runState == RUNNING <==> StartedUnstopped(run)
    ensures After(FRESH, run).runState == NEW <==> Started !in run
  {
    hide Inv, Step, Enabled, StartedUnstopped;
    if run == [] {
      NotStarted();
    } else {
      RunsExactly(DropLast(run));
      Invariant(DropLast(run));
      RunsAfter(After(FRESH, DropLast(run)), Last(run));
      StartedUnstoppedSnoc(run);
      assert forall e :: e in run <==> e in DropLast(run) || e == Last(run);
    }
  }

  /** An append is admitted exactly while the store runs. */
  lemma AdmittedExactly(run: seq<Event>, task: nat)
    requires Legal(FRESH, run) && Enabled(After(FRESH, run), AppendEnters(task))
    ensures var s := After(FRESH, run); task in Step(s, AppendEnters(task)).appends <==> StartedUnstopped(run)
  {
    RunsExactly(run);
  }

  /** Once started, a store cannot be started again, stopped or not. */
  lemma NoSecondStart(run: seq<Event>)
    requires Legal(FRESH, run) && Started in run
    ensures !Enabled(After(FRESH, run), Started)
  {
    RunsExactly(run);
  }

  /** What a stop comes to when it enters: an error before any start, nothing once another has won, else
      the drain if appends are in flight, and the close steps if none is. */
  lemma StopMeets(run: seq<Event>, task: nat)
    requires Legal(FRESH, run) && Enabled(After(FRESH, run), StopEnters(task))
    ensures var s := After(FRESH, run);
            var s' := Step(s, StopEnters(task));
            && task in s'.stops && !StartedUnstopped(run + [StopEnters(task)])
            && s'.stops[task] ==
                 (if Started !in run then Returned(Some(LifecycleError))
                  else if !StartedUnstopped(run) then Returned(None)
                  else if s.appends != {} then Waiting
                  else Closing([]))
  {
    RunsExactly(run);
    Invariant(run);
    StartedUnstoppedSnoc(run + [StopEnters(task)]);
  }

  // ---- the winner comes back ------------------------------------------------------------------------

  /** What is still to happen before task `w` returns. */
  function Remaining(s: System, w: nat): nat {
    if w !in s.stops then 0
    else match s.stops[w]
      case Waiting => |s.appends| + |CLOSE_STEPS| + 2
      case Closing(outcomes) => if |outcomes| <= |CLOSE_STEPS| then |CLOSE_STEPS| - |outcomes| + 1 else 0
      case Returned(_) => 0
  }

  /** A step of task `w` itself. */
  predicate Moves(e: Event, w: nat) {
    e == StopWakes(w) || (e.CloseAttempt? && e.task == w) || e == StopReturns(w)
  }

  /** A winner is never left waiting: once nothing is in flight its next step is enabled. */
  lemma WinnerNotStuck(run: seq<Event>, w: nat)
    requires Legal(FRESH, run)
    requires var s := After(FRESH, run); w in s.stops && !Idle(s.stops[w]) && s.appends == {}
    ensures Remaining(After(FRESH, run), w) > 0
    ensures exists e :: Moves(e, w) && Enabled(After(FRESH, run), e)
  {
    Invariant(run);
    var s := After(FRESH, run);
    match s.stops[w]
    case Waiting =>
      assert Moves(StopWakes(w), w) && Enabled(s, StopWakes(w));
    case Closing(outcomes) =>
      if |outcomes| < |CLOSE_STEPS| {
        assert Moves(CloseAttempt(w, None), w) && Enabled(s, CloseAttempt(w, None));
      } else {
        assert Moves(StopReturns(w), w) && Enabled(s, StopReturns(w));
      }
  }

  /** Nothing anyone does puts it off; each append that leaves and each step of its own brings it
      closer.  So it returns after at most one step per append in flight and seven of its own. */
  lemma WinnerGetsCloser(run: seq<Event>, w: nat, e: Event)
    requires Legal(FRESH, run) && Enabled(After(FRESH, run), e)
    requires var s := After(FRESH, run); w in s.stops && !Idle(s.stops[w])
    ensures var s := After(FRESH, run);
            && Remaining(Step(s, e), w) <= Remaining(s, w) <= |s.appends| + |CLOSE_STEPS| + 2
            && (Moves(e, w) || (e.AppendLeaves? && s.stops[w] == Waiting) ==>
                  Remaining(Step(s, e), w) < Remaining(s, w))
  {
    Invariant(run);
  }

  lemma {:induction false} FirstRaisedIsFirst(outcomes: seq<Option<Error>>)
    ensures FirstRaised(outcomes).None? <==> forall i | 0 <= i < |outcomes| :: outcomes[i].None?
    ensures FirstRaised(outcomes).Some? ==>
              exists i :: 0 <= i < |outcomes| && outcomes[i] == FirstRaised(outcomes)
                          && forall j | 0 <= j < i :: outcomes[j].None?
  {
    if outcomes != [] {
      var front := DropLast(outcomes);
      FirstRaisedIsFirst(front);
      if FirstRaised(front).Some? {
        var i :| 0 <= i < |front| && front[i] == FirstRaised(front) && forall j | 0 <= j < i :: front[j].None?;
        assert outcomes[i] == FirstRaised(outcomes) && forall j | 0 <= j < i :: outcomes[j] == front[j];
      } else {
        assert forall j | 0 <= j < |front| :: outcomes[j] == front[j];
        assert outcomes[|outcomes| - 1] == FirstRaised(outcomes);
      }
    }
  }

  lemma RaisedSoFar(outcomes: seq<Option<Error>>, outcome: Option<Error>)
    ensures FirstRaised([]) == None
    ensures FirstRaised(outcomes + [outcome]) == if FirstRaised(outcomes).Some? then FirstRaised(outcomes) else outcome
  {
    assert DropLast(outcomes + [outcome]) == outcomes;
  }

  // ---- the facade ---------------------------------------------------------------------------------

  /** What a stop does next. */
  datatype Decision = NothingToDo | Raises(error: Error) | AwaitDrain | CloseNow

  /** The facade; each method is one synchronous section of the coroutine of that name. */
  class KSQLite {
    var runState: RunState
    var inFlight: int
    var drained: bool
    ghost var run: seq<Event>  // every step any task has taken

    ghost predicate Valid()
      reads this
    {
      && Legal(FRESH, run)
      && var s := After(FRESH, run);
         runState == s.runState && inFlight == s.inFlight && drained == s.drained
    }

    ghost function Now(): System
      requires Valid()
      reads this
    {
      After(FRESH, run)
    }

    constructor ()
      ensures Valid() && run == [] && runState == NEW
    {
      runState, inFlight, drained, run := NEW, 0, false, [];
    }

    lemma NextStep(e: Event)
      requires Valid() && Enabled(Now(), e)
      ensures Legal(FRESH, run + [e]) && After(FRESH, run + [e]) == Step(Now(), e)
    {
      assert DropLast(run + [e]) == run;
    }

    method Start() returns (r: Result<()>)
      requires Valid()
      modifies this
      ensures Valid() && r == if old(runState) == NEW then Ok(()) else Err(LifecycleError)
      ensures run == if r.Ok? then old(run) + [Started] else old(run)
      ensures r.Ok? ==> runState == RUNNING
      ensures r.Ok? <==> Started !in old(run)
    {
      RunsExactly(run);
      if runState != NEW {
        return Err(LifecycleError);
      }
      NextStep(Started);
      runState, run := RUNNING, run + [Started];
      r := Ok(());
    }

    /** The running check and the increment, with no await between them. */
    method AppendBegins(ghost task: nat) returns (r: Result<()>)
      requires Valid() && task !in Now().appends
      modifies this
      ensures Valid() && run == old(run) + [AppendEnters(task)]
      ensures r == if old(runState) == RUNNING then Ok(()) else Err(LifecycleError)
      ensures r.Ok? <==> task in Now().appends
      ensures r.Ok? <==> StartedUnstopped(old(run))
    {
      RunsExactly(run);
      NextStep(AppendEnters(task));
      run := run + [AppendEnters(task)];
      if runState != RUNNING {
        return Err(LifecycleError);
      }
      inFlight := inFlight + 1;
      r := Ok(());
    }

    /** The `finally` of an append. */
    method AppendEnds(ghost task: nat)
      requires Valid() && task in Now().appends
      modifies this
      ensures Valid() && run == old(run) + [AppendLeaves(task)]
    {
      NextStep(AppendLeaves(task));
      run := run + [AppendLeaves(task)];
      inFlight := inFlight - 1;
      if runState != RUNNING && inFlight == 0 {
        drained := true;
      }
    }

    method StopBegins(ghost task: nat) returns (next: Decision)
      requires Valid() && task !in Now().stops
      modifies this
      ensures Valid() && run == old(run) + [StopEnters(task)]
      ensures task in Now().stops && match next
              case NothingToDo => Now().stops[task] == Returned(None) && old(runState) in {STOPPING, CLOSED}
              case Raises(e) => Now().stops[task] == Returned(Some(e)) && old(runState) == NEW
              case AwaitDrain => Now().stops[task] == Waiting && Now().appends != {}
              case CloseNow => At(Now(), task, 0) && Now().appends == {}
      ensures next == Raises(LifecycleError) <==> Started !in old(run)
      ensures next == NothingToDo <==> Started in old(run) && !StartedUnstopped(old(run))
      ensures next == AwaitDrain <==> StartedUnstopped(old(run)) && old(Now()).appends != {}
      ensures next == CloseNow <==> StartedUnstopped(old(run)) && old(Now()).appends == {}
    {
      Invariant(run);
      RunsExactly(run);
      NextStep(StopEnters(task));
      run := run + [StopEnters(task)];
      if runState == STOPPING || runState == CLOSED {
        return NothingToDo;
      }
      if runState == NEW {
        return Raises(LifecycleError);
      }
      runState := STOPPING;
      if inFlight > 0 {
        return AwaitDrain;
      }
      runState := CLOSED;
      next := CloseNow;
    }

    /** Past `await self._drained.wait()`. */
    method StopResumes(ghost task: nat)
      requires Valid() && Enabled(Now(), StopWakes(task))
      modifies this
      ensures Valid() && run == old(run) + [StopWakes(task)] && At(Now(), task, 0) && Now().appends == {}
    {
      NextStep(StopWakes(task));
      run := run + [StopWakes(task)];
      runState := CLOSED;
      Invariant(run);
    }

    /** One close step; anything may come of it. */
    method TryClose(ghost task: nat, ghost i: nat) returns (outcome: Option<Error>)
      requires Valid() && At(Now(), task, i) && i < |CLOSE_STEPS|
      modifies this`run
      ensures Valid() && run == old(run) + [CloseAttempt(task, outcome)]
      ensures At(Now(), task, i + 1) && Now().stops[task].outcomes == old(Now().stops[task].outcomes) + [outcome]
    {
      var fails: bool, error: Error := *, *;
      outcome := if fails then Some(error) else None;
      NextStep(CloseAttempt(task, outcome));
      run := run + [CloseAttempt(task, outcome)];
    }

    /** After the last close step the winner returns, or raises. */
    ghost method Return(task: nat)
      requires Valid() && At(Now(), task, |CLOSE_STEPS|)
      modifies this`run
      ensures Valid() && Now().attempted == CLOSE_STEPS && task in Now().stops
      ensures Now().stops[task] == Returned(FirstRaised(old(Now().stops[task].outcomes)))
    {
      CloseStepsInOrder(run);
      NextStep(StopReturns(task));
      run := run + [StopReturns(task)];
    }

    /** The close steps: each is attempted whatever the others did, and the first exception is raised
        at the end. */
    method CloseClients(ghost task: nat) returns (raised: Option<Error>, ghost outcomes: seq<Option<Error>>)
      requires Valid() && At(Now(), task, 0)
      modifies this`run
      ensures Valid() && |outcomes| == |CLOSE_STEPS| && raised == FirstRaised(outcomes)
      ensures Now().attempted == [ProducerFlush, ProducerStop, ConsumerStop, AdminClose, PoolClose]
      ensures task in Now().stops && Now().stops[task] == Returned(raised)
    {
      hide Valid, FirstRaised;
      raised, outcomes := None, [];
      RaisedSoFar([], None);
      var i := 0;
      while i < |CLOSE_STEPS|
        invariant 0 <= i <= |CLOSE_STEPS| && Valid()
        invariant At(Now(), task, i) && Now().stops[task].outcomes == outcomes
        invariant raised == FirstRaised(outcomes)
      {
        var outcome := TryClose(task, i);
        RaisedSoFar(outcomes, outcome);
        if outcome.Some? && raised.None? {
          raised := outcome;
        }
        outcomes, i := outcomes + [outcome], i + 1;
      }
      Return(task);
    }
  }
}
