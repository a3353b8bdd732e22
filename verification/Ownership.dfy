/**
Who owns a workflow's outcome. One status row, any number of executions of it
on any number of executors (started, dequeued, recovered, started twice), and
cancels, resumes, dead-letterings and suspensions in between.
*/
module Ownership {
  import opened Base

  datatype Row =
    | Absent
    | Pending
    | Enqueued
    | Delayed
    | Done(outcome: Outcome)  // SUCCESS or ERROR
    | Cancelled
    | DeadLettered

  // What a handle tells its caller.
  datatype Report =
    | Own(outcome: Outcome)      // the execution's own result
    | FromRow(outcome: Outcome)  // the recorded one
    | WasCancelled
    | WasDeadLettered
    | WasSuspended
    | Broken                     // an error that says nothing about the outcome

  datatype Phase =
    | Claimed                    // the row is PENDING for it, nothing is started yet
    | Undispatched               // and nothing will be
    | Spawned                    // before the executor's set of active workflows
    | InFunction
    | Unwinding                  // suspended: DELAYED is durable, the goroutine not yet gone
    | Returned(outcome: Outcome)
    | Interrupted                // its context was cancelled: settling the row
    | Recording(outcome: Outcome)
    | Parked                     // awaiting the recorded outcome
    | Reported(report: Report)
    | Dead

  // Why an execution no longer works towards an outcome.
  datatype Left =
    | Still                      // it does
    | NotDispatched              // the claim was never started
    | EntryHeld(holder: nat)     // another's active entry turned it away
    | ShutDown
    | ContextCancelled           // its context was cancelled, durably
    | CancelFailed               // its context was cancelled, and the durable cancel failed
    | Conflicting
    | NotEncoded
    | NotRecorded                // recording the outcome failed
    | Crashed
    | RowSuspended
    | Recorded
    | Refused                    // the row was not PENDING when it came to record

  // holds: the executor's active entry is this execution's.
  datatype Execution = Execution(executor: nat, phase: Phase, holds: bool, left: Left)

  // runs: the executions, and the claims that have yet to become one. active: per
  // executor, whose entry the set of active workflow IDs holds. winner: the
  // execution that wrote the outcome. claim: whom the row was last handed to.
  // handles: polling handles.
  datatype State = State(
    row: Row, runs: map<nat, Execution>, active: map<nat, nat>,
    winner: nat, claim: nat, handles: map<nat, Report>)

  datatype Action =
    | Insert(row: Row)
    | Transition
    | Reenqueue
    | Cancel
    | Resume
    | DeadLetter
    | Launch(r: nat, executor: nat)      // RunWorkflow: the row is inserted PENDING
    | Dequeue(r: nat, executor: nat)     // the row is claimed: PENDING
    | Dispatch(r: nat)                   // executeWorkflow for a claim
    | Drop(r: nat)                       // no answer to the claim, no status listed, not in the registry
    | Start(r: nat, executor: nat)       // a repeated start of a row that exists
    | Activate(r: nat)
    | Suspend(r: nat)
    | Unwind(r: nat)
    | Conflict(r: nat)
    | Return(r: nat, outcome: Outcome)
    | Interrupt(r: nat, shutdown: bool, settled: bool)
    | Settle(r: nat)
    | EncodingFails(r: nat)
    | Release(r: nat)
    | Record(r: nat, acked: bool)
    | RecordFails(r: nat)
    | Await(r: nat)
    | AwaitFails(r: nat)
    | Poll(h: nat)
    | Crash(executor: nat)

  function Initial(): State {
    State(Absent, map[], map[], 0, 0, map[])
  }

  function Goto(s: State, r: nat, phase: Phase): State
    requires r in s.runs
  {
    s.(runs := s.runs[r := s.runs[r].(phase := phase)])
  }

  function Quit(s: State, r: nat, phase: Phase, left: Left): State
    requires r in s.runs
  {
    s.(runs := s.runs[r := s.runs[r].(phase := phase, left := left)])
  }

  // removeActive: deletes the entry, once per execution.
  function RemoveActive(s: State, r: nat): State
    requires r in s.runs
  {
    if !s.runs[r].holds then s
    else s.(active := s.active - {s.runs[r].executor}, runs := s.runs[r := s.runs[r].(holds := false)])
  }

  // The deferred removeActive and the outcome on the channel.
  function Finish(s: State, r: nat, report: Report): State
    requires r in s.runs
  {
    Goto(RemoveActive(s, r), r, Reported(report))
  }

  // What reading a settled row yields.
  function Read(row: Row): Option<Report> {
    match row
    case Done(o) => Some(FromRow(o))
    case Cancelled => Some(WasCancelled)
    case DeadLettered => Some(WasDeadLettered)
    case _ => None
  }

  function CancelRow(row: Row): Row {
    if row.Absent? || row.Done? then row else Cancelled
  }

  /******* The row *******/

  function StepRow(s: State, a: Action): Option<State> {
    match a
    case Insert(row) => if s.row.Absent? && (row.Enqueued? || row.Delayed?) then Some(s.(row := row)) else None
    case Transition => if s.row.Delayed? then Some(s.(row := Enqueued)) else None
    case Reenqueue => if s.row.Pending? then Some(s.(row := Enqueued)) else None
    case Cancel => Some(s.(row := CancelRow(s.row)))
    case Resume => if s.row.Absent? || s.row.Done? then Some(s) else Some(s.(row := Enqueued))
    case DeadLetter => if s.row.Pending? then Some(s.(row := DeadLettered)) else None
    case Poll(h) =>
      if h in s.handles || Read(s.row).None? then None else Some(s.(handles := s.handles[h := Read(s.row).value]))
    case _ => None
  }

  /******* Executions *******/

  function Claim(s: State, r: nat, executor: nat): State {
    s.(runs := s.runs[r := Execution(executor, Claimed, false, Still)], row := Pending, claim := r)
  }

  function StepLaunch(s: State, r: nat, executor: nat): Option<State> {
    if r in s.runs || !s.row.Absent? then None else Some(Claim(s, r, executor))
  }

  function StepDequeue(s: State, r: nat, executor: nat): Option<State> {
    if r in s.runs || !s.row.Enqueued? then None else Some(Claim(s, r, executor))
  }

  // A start that believes it owns the row, whatever its status is by now.
  function StepStart(s: State, r: nat, executor: nat): Option<State> {
    if r in s.runs || s.row.Absent? then None
    else Some(s.(runs := s.runs[r := Execution(executor, Spawned, false, Still)]))
  }

  // LoadOrStore: whoever finds an entry awaits the other's outcome.
  function StepActivate(s: State, r: nat): Option<State>
    requires r in s.runs
  {
    var x := s.runs[r];
    if !x.phase.Spawned? then None
    else if x.executor in s.active then Some(Quit(s, r, Parked, EntryHeld(s.active[x.executor])))
    else Some(s.(active := s.active[x.executor := r],
      runs := s.runs[r := Execution(x.executor, InFunction, true, Still)]))
  }

  function StepSuspend(s: State, r: nat): Option<State>
    requires r in s.runs
  {
    if !s.runs[r].phase.InFunction? || !s.row.Pending? then None
    else Some(Quit(s.(row := Delayed), r, Unwinding, RowSuspended))
  }

  // The context was cancelled: a durable cancel, which may fail, except at shutdown.
  function StepInterrupt(s: State, r: nat, shutdown: bool, settled: bool): Option<State>
    requires r in s.runs
  {
    if !s.runs[r].phase.InFunction? && !s.runs[r].phase.Returned? then None
    else if shutdown then Some(Quit(s, r, Interrupted, ShutDown))
    else if !settled then Some(Quit(s, r, Interrupted, CancelFailed))
    else Some(Quit(s.(row := CancelRow(s.row)), r, Interrupted, ContextCancelled))
  }

  function StepRelease(s: State, r: nat): Option<State>
    requires r in s.runs
  {
    if !s.runs[r].phase.Returned? then None
    else Some(Goto(RemoveActive(s, r), r, Recording(s.runs[r].phase.outcome)))
  }

  // UPDATE ... WHERE status = PENDING; an update that landed may go unreported.
  function StepRecord(s: State, r: nat, acked: bool): Option<State>
    requires r in s.runs
  {
    if !s.runs[r].phase.Recording? then None
    else if !s.row.Pending? then Some(Quit(s, r, Parked, Refused))
    else
      var o := s.runs[r].phase.outcome;
      var s' := s.(row := Done(o), winner := r);
      if acked then Some(Quit(s', r, Reported(Own(o)), Recorded)) else Some(s')
  }

  function StepAwait(s: State, r: nat): Option<State>
    requires r in s.runs
  {
    if !s.runs[r].phase.Parked? || Read(s.row).None? then None else Some(Finish(s, r, Read(s.row).value))
  }

  function StepExecution(s: State, r: nat, a: Action): Option<State>
    requires r in s.runs
  {
    var phase := s.runs[r].phase;
    match a
    case Dispatch(_) => if phase.Claimed? then Some(Goto(s, r, Spawned)) else None
    case Drop(_) => if phase.Claimed? then Some(Quit(s, r, Undispatched, NotDispatched)) else None
    case Activate(_) => StepActivate(s, r)
    case Suspend(_) => StepSuspend(s, r)
    case Unwind(_) => if phase.Unwinding? then Some(Finish(s, r, WasSuspended)) else None
    case Conflict(_) => if phase.InFunction? then Some(Quit(s, r, Parked, Conflicting)) else None
    case Return(_, o) => if phase.InFunction? then Some(Goto(s, r, Returned(o))) else None
    case Interrupt(_, shutdown, settled) => StepInterrupt(s, r, shutdown, settled)
    case Settle(_) => if phase.Interrupted? then Some(Goto(RemoveActive(s, r), r, Parked)) else None
    case EncodingFails(_) => if phase.Returned? then Some(Quit(RemoveActive(s, r), r, Reported(Broken), NotEncoded))
                             else None
    case Release(_) => StepRelease(s, r)
    case Record(_, acked) => StepRecord(s, r, acked)
    case RecordFails(_) => if phase.Recording? then Some(Quit(s, r, Reported(Broken), NotRecorded)) else None
    case Await(_) => StepAwait(s, r)
    case AwaitFails(_) => if phase.Parked? then Some(Finish(s, r, Broken)) else None
    case _ => None
  }

  function Killed(x: Execution): Execution {
    if x.phase.Reported? then x
    else Execution(x.executor, Dead, false, if Executing(x.phase) then Crashed else x.left)
  }

  // Working towards an outcome, or about to.
  predicate Executing(phase: Phase) {
    phase.Claimed? || phase.Spawned? || phase.InFunction? || phase.Returned? || phase.Recording?
  }

  // The process dies: its executions and its set of active workflows are gone.
  function StepCrash(s: State, executor: nat): State {
    s.(active := s.active - {executor},
       runs := map r | r in s.runs :: if s.runs[r].executor == executor then Killed(s.runs[r]) else s.runs[r])
  }

  function Step(s: State, a: Action): Option<State> {
    match a
    case Launch(r, executor) => StepLaunch(s, r, executor)
    case Start(r, executor) => StepStart(s, r, executor)
    case Dequeue(r, executor) => StepDequeue(s, r, executor)
    case Crash(executor) => Some(StepCrash(s, executor))
    case Insert(_) => StepRow(s, a)
    case Transition => StepRow(s, a)
    case Reenqueue => StepRow(s, a)
    case Cancel => StepRow(s, a)
    case Resume => StepRow(s, a)
    case DeadLetter => StepRow(s, a)
    case Poll(_) => StepRow(s, a)
    case _ => if a.r in s.runs then StepExecution(s, a.r, a) else None
  }

  function Run(acts: seq<Action>): Option<State> {
    if acts == [] then Some(Initial())
    else
      var before := Run(acts[..|acts| - 1]);
      if before.None? then None else Step(before.value, acts[|acts| - 1])
  }

  /******* The invariant *******/

  // What was told of the row's outcome is what the row says.
  predicate Truthful(s: State, report: Report) {
    report.Own? || report.FromRow? ==> s.row == Done(report.outcome)
  }

  predicate MayHold(phase: Phase) {
    phase.InFunction? || phase.Unwinding? || phase.Returned? || phase.Interrupted? || phase.Parked?
  }

  ghost predicate RunOk(s: State, r: nat) {
    r in s.runs ==>
      var x := s.runs[r];
      && (x.holds ==> MayHold(x.phase) && x.executor in s.active && s.active[x.executor] == r)
      && (MayHold(x.phase) && !x.phase.Parked? ==> x.holds)
      && (x.phase.Reported? ==> Truthful(s, x.phase.report) && (x.phase.report.Own? ==> s.winner == r))
      && (x.left.Still? <==> Executing(x.phase))
      && (x.left.EntryHeld? ==> x.left.holder in s.runs && s.runs[x.left.holder].executor == x.executor)
  }

  predicate PastRelease(phase: Phase) {
    phase.Recording? || phase.Parked? || phase.Reported? || phase.Dead?
  }

  // The winner gave up its active entry before its outcome could be seen.
  ghost predicate WinnerOk(s: State) {
    s.row.Done? ==> s.winner in s.runs && !s.runs[s.winner].holds && PastRelease(s.runs[s.winner].phase)
  }

  ghost predicate HandleOk(s: State, h: nat) {
    h in s.handles ==> Truthful(s, s.handles[h])
  }

  ghost predicate EntryOk(s: State, e: nat) {
    e in s.active ==> s.active[e] in s.runs && s.runs[s.active[e]].holds && s.runs[s.active[e]].executor == e
  }

  // What can stop a claim or an execution and leave its row PENDING.
  predicate LeavesPending(left: Left) {
    || left.NotDispatched? || left.EntryHeld? || left.ShutDown? || left.CancelFailed? || left.Conflicting?
    || left.NotEncoded? || left.NotRecorded? || left.Crashed?
  }

  // A PENDING row was handed to somebody, who still has it unless one of these has
  // happened.
  ghost predicate ClaimOk(s: State) {
    s.row.Pending? ==> s.claim in s.runs && (s.runs[s.claim].left.Still? || LeavesPending(s.runs[s.claim].left))
  }

  ghost predicate Inv(s: State) {
    && ClaimOk(s)
    && (forall r :: RunOk(s, r))
    && (forall h :: HandleOk(s, h))
    && (forall e :: EntryOk(s, e))
    && WinnerOk(s)
  }

  /******* Every step keeps it *******/

  // An outcome, once recorded, stays.
  predicate RowKept(s: State, s': State) {
    s.row.Done? ==> s'.row == s.row && s'.winner == s.winner
  }

  // Only execution r moved, and only its own entry.
  ghost predicate OnlyRun(s: State, s': State, r: nat) {
    && r in s'.runs && s'.runs == s.runs[r := s'.runs[r]]
    && (r in s.runs ==> s'.runs[r].executor == s.runs[r].executor)
    && s'.handles == s.handles
    && RowKept(s, s')
    && (forall e | e != s'.runs[r].executor :: EntrySame(s, s', e))
    && var e := s'.runs[r].executor;
       (e in s.active && (r !in s.runs || s.active[e] != r) ==> EntrySame(s, s', e))
  }

  predicate EntrySame(s: State, s': State, e: nat) {
    (e in s'.active <==> e in s.active) && (e in s.active ==> s'.active[e] == s.active[e])
  }

  lemma OnlyRunKeeps(s: State, s': State, r: nat)
    requires Inv(s) && OnlyRun(s, s', r) && RunOk(s', r) && EntryOk(s', s'.runs[r].executor) && WinnerOk(s')
             && ClaimOk(s')
    ensures Inv(s')
  {
    forall q ensures RunOk(s', q) {
      if q != r {
        assert RunOk(s, q);
        if q in s.runs && s.runs[q].holds && s.runs[q].executor != s'.runs[r].executor {
          assert EntrySame(s, s', s.runs[q].executor);
        }
      }
    }
    forall h ensures HandleOk(s', h) {
      assert HandleOk(s, h);
    }
    forall e ensures EntryOk(s', e) {
      if e != s'.runs[r].executor {
        assert EntryOk(s, e) && EntrySame(s, s', e);
        assert e in s.active && s.active[e] == r ==> r in s.runs;
      }
    }
  }

  lemma RowKeeps(s: State, a: Action)
    requires Inv(s) && StepRow(s, a).Some?
    ensures Inv(StepRow(s, a).value) && RowKept(s, StepRow(s, a).value)
  {
    var s' := StepRow(s, a).value;
    forall r ensures RunOk(s', r) { assert RunOk(s, r); }
    forall h ensures HandleOk(s', h) { assert HandleOk(s, h); }
    forall e ensures EntryOk(s', e) { assert EntryOk(s, e); }
  }

  lemma StartKeeps(s: State, a: Action)
    requires Inv(s) && (a.Launch? || a.Start? || a.Dequeue?) && Step(s, a).Some?
    ensures Inv(Step(s, a).value) && RowKept(s, Step(s, a).value)
  {
    assert EntryOk(s, a.executor);
    OnlyRunKeeps(s, Step(s, a).value, a.r);
  }

  lemma DispatchKeeps(s: State, r: nat, a: Action)
    requires Inv(s) && r in s.runs && (a.Dispatch? || a.Drop?) && StepExecution(s, r, a).Some?
    ensures Inv(StepExecution(s, r, a).value) && RowKept(s, StepExecution(s, r, a).value)
  {
    assert RunOk(s, r) && EntryOk(s, s.runs[r].executor) && RunOk(s, s.claim);
    OnlyRunKeeps(s, StepExecution(s, r, a).value, r);
  }

  lemma ActivateKeeps(s: State, r: nat)
    requires Inv(s) && r in s.runs && StepActivate(s, r).Some?
    ensures Inv(StepActivate(s, r).value) && RowKept(s, StepActivate(s, r).value)
  {
    assert RunOk(s, r) && EntryOk(s, s.runs[r].executor);
    OnlyRunKeeps(s, StepActivate(s, r).value, r);
  }

  lemma RecordKeeps(s: State, r: nat, acked: bool)
    requires Inv(s) && r in s.runs && StepRecord(s, r, acked).Some?
    ensures Inv(StepRecord(s, r, acked).value) && RowKept(s, StepRecord(s, r, acked).value)
  {
    assert RunOk(s, r) && EntryOk(s, s.runs[r].executor);
    OnlyRunKeeps(s, StepRecord(s, r, acked).value, r);
  }

  predicate FromFunction(a: Action) {
    a.Suspend? || a.Conflict? || a.Return? || a.Interrupt?
  }

  lemma FunctionKeeps(s: State, r: nat, a: Action)
    requires Inv(s) && r in s.runs && StepExecution(s, r, a).Some? && FromFunction(a)
    ensures Inv(StepExecution(s, r, a).value) && RowKept(s, StepExecution(s, r, a).value)
  {
    assert RunOk(s, r) && EntryOk(s, s.runs[r].executor) && RunOk(s, s.claim);
    OnlyRunKeeps(s, StepExecution(s, r, a).value, r);
  }

  lemma ReleaseKeeps(s: State, r: nat, a: Action)
    requires Inv(s) && r in s.runs && StepExecution(s, r, a).Some?
    requires a.Settle? || a.EncodingFails? || a.Release? || a.RecordFails?
    ensures Inv(StepExecution(s, r, a).value) && RowKept(s, StepExecution(s, r, a).value)
  {
    assert RunOk(s, r) && EntryOk(s, s.runs[r].executor) && RunOk(s, s.claim);
    OnlyRunKeeps(s, StepExecution(s, r, a).value, r);
  }

  lemma FinishKeeps(s: State, r: nat, a: Action)
    requires Inv(s) && r in s.runs && StepExecution(s, r, a).Some?
    requires a.Unwind? || a.Await? || a.AwaitFails?
    ensures Inv(StepExecution(s, r, a).value) && RowKept(s, StepExecution(s, r, a).value)
  {
    assert RunOk(s, r) && EntryOk(s, s.runs[r].executor) && RunOk(s, s.claim);
    OnlyRunKeeps(s, StepExecution(s, r, a).value, r);
  }

  lemma CrashKeeps(s: State, executor: nat)
    requires Inv(s)
    ensures Inv(StepCrash(s, executor)) && RowKept(s, StepCrash(s, executor))
  {
    var s' := StepCrash(s, executor);
    forall r ensures RunOk(s', r) { assert RunOk(s, r); }
    forall h ensures HandleOk(s', h) { assert HandleOk(s, h); }
    forall e ensures EntryOk(s', e) { assert EntryOk(s, e); }
  }

  lemma StepKeeps(s: State, a: Action)
    requires Inv(s) && Step(s, a).Some?
    ensures Inv(Step(s, a).value) && RowKept(s, Step(s, a).value)
  {
    match a
    case Launch(_, _) => StartKeeps(s, a);
    case Start(_, _) => StartKeeps(s, a);
    case Dequeue(_, _) => StartKeeps(s, a);
    case Crash(executor) => CrashKeeps(s, executor);
    case Insert(_) => RowKeeps(s, a);
    case Transition => RowKeeps(s, a);
    case Reenqueue => RowKeeps(s, a);
    case Cancel => RowKeeps(s, a);
    case Resume => RowKeeps(s, a);
    case DeadLetter => RowKeeps(s, a);
    case Poll(_) => RowKeeps(s, a);
    case Dispatch(r) => DispatchKeeps(s, r, a);
    case Drop(r) => DispatchKeeps(s, r, a);
    case Activate(r) => ActivateKeeps(s, r);
    case Record(r, acked) => RecordKeeps(s, r, acked);
    case Suspend(r) => FunctionKeeps(s, r, a);
    case Conflict(r) => FunctionKeeps(s, r, a);
    case Return(r, _) => FunctionKeeps(s, r, a);
    case Interrupt(r, _, _) => FunctionKeeps(s, r, a);
    case Unwind(r) => FinishKeeps(s, r, a);
    case Await(r) => FinishKeeps(s, r, a);
    case AwaitFails(r) => FinishKeeps(s, r, a);
    case _ => ReleaseKeeps(s, a.r, a);
  }

  lemma {:induction false} RunsKeep(acts: seq<Action>)
    requires Run(acts).Some?
    ensures Inv(Run(acts).value)
    decreases |acts|
  {
    if acts != [] {
      RunsKeep(acts[..|acts| - 1]);
      StepKeeps(Run(acts[..|acts| - 1]).value, acts[|acts| - 1]);
    }
  }

  /******* Main results *******/

  // A recorded success or error is final, and so is who recorded it: no later
  // start, cancel, resume, recovery or second execution changes it.
  lemma {:induction false} OutcomeIsFinal(acts: seq<Action>, n: nat)
    requires n <= |acts| && Run(acts).Some?
    ensures Run(acts[..n]).Some? && RowKept(Run(acts[..n]).value, Run(acts).value)
    decreases |acts|
  {
    if n == |acts| {
      assert acts[..n] == acts;
    } else {
      var prior := acts[..|acts| - 1];
      OutcomeIsFinal(prior, n);
      assert prior[..n] == acts[..n];
      RunsKeep(prior);
      StepKeeps(Run(prior).value, acts[|acts| - 1]);
    }
  }

  // The outcome an execution or a polling handle reported, if it reported one.
  function Told(report: Report): Option<Outcome> {
    if report.Own? || report.FromRow? then Some(report.outcome) else None
  }

  ghost predicate Reports(s: State, o: Outcome) {
    || (exists r | r in s.runs && s.runs[r].phase.Reported? :: Told(s.runs[r].phase.report) == Some(o))
    || (exists h | h in s.handles :: Told(s.handles[h]) == Some(o))
  }

  // Whatever handle reports a recorded outcome, it is the one in the row; an
  // execution reports its own result only if it is the one that recorded it, so
  // at most one does.
  lemma OutcomesAgree(acts: seq<Action>)
    requires Run(acts).Some?
    ensures var s := Run(acts).value;
            && (forall o | Reports(s, o) :: s.row == Done(o))
            && (forall r | r in s.runs && s.runs[r].phase.Reported? && s.runs[r].phase.report.Own? :: s.winner == r)
  {
    RunsKeep(acts);
    var s := Run(acts).value;
    forall o | Reports(s, o) ensures s.row == Done(o) {
      if r :| r in s.runs && s.runs[r].phase.Reported? && Told(s.runs[r].phase.report) == Some(o) {
        assert RunOk(s, r);
      } else {
        var h :| h in s.handles && Told(s.handles[h]) == Some(o);
        assert HandleOk(s, h);
      }
    }
    forall r | r in s.runs && s.runs[r].phase.Reported? && s.runs[r].phase.report.Own? ensures s.winner == r {
      assert RunOk(s, r);
    }
  }

  // At most one goroutine per executor is inside the workflow function.
  lemma OneInsidePerExecutor(acts: seq<Action>, q: nat, r: nat)
    requires Run(acts).Some?
    requires var s := Run(acts).value;
             && q in s.runs && r in s.runs && s.runs[q].executor == s.runs[r].executor
             && s.runs[q].phase.InFunction? && s.runs[r].phase.InFunction?
    ensures q == r
  {
    RunsKeep(acts);
    assert RunOk(Run(acts).value, q) && RunOk(Run(acts).value, r);
  }

  // Once an outcome can be seen, its recorder's active entry is gone, so a
  // re-dispatch to the same executor is not turned away by it.
  lemma RecorderLetGo(acts: seq<Action>)
    requires Run(acts).Some? && Run(acts).value.row.Done?
    ensures var s := Run(acts).value; s.winner in s.runs && forall e | e in s.active :: s.active[e] != s.winner
  {
    RunsKeep(acts);
    var s := Run(acts).value;
    forall e | e in s.active ensures s.active[e] != s.winner {
      assert EntryOk(s, e);
    }
  }

  /******* Rows that nobody executes *******/

  // PENDING, and nobody works towards an outcome or is about to.
  ghost predicate Orphaned(s: State) {
    s.row.Pending? && forall r | r in s.runs :: !Executing(s.runs[r].phase)
  }

  // That is so exactly when the claim of the row was never dispatched or its
  // execution was turned away by an active entry, shut down, cancelled without the
  // row, in conflict, unable to encode or to record its result, or crashed, and no
  // repeated start or older claim is still at work.
  lemma OrphanedIff(acts: seq<Action>)
    requires Run(acts).Some?
    ensures var s := Run(acts).value;
            Orphaned(s) <==>
              && s.row.Pending? && s.claim in s.runs && LeavesPending(s.runs[s.claim].left)
              && forall r | r in s.runs && r != s.claim :: !s.runs[r].left.Still?
  {
    RunsKeep(acts);
    var s := Run(acts).value;
    forall r | r in s.runs ensures s.runs[r].left.Still? <==> Executing(s.runs[r].phase) {
      assert RunOk(s, r);
    }
  }

  // Acts from outside: a cancel, a resume, a dead-lettering, a recovery, a new start.
  predicate FromOutside(a: Action) {
    a.Cancel? || a.Resume? || a.DeadLetter? || a.Reenqueue? || a.Start?
  }

  // Nothing the executions, the queue or a crash still do moves such a row.
  lemma OrphansWait(s: State, a: Action)
    requires Orphaned(s) && Step(s, a).Some? && !FromOutside(a)
    ensures Orphaned(Step(s, a).value)
  {
    var s' := Step(s, a).value;
    forall r | r in s'.runs ensures !Executing(s'.runs[r].phase) {
      assert r in s.runs;
    }
  }

  // One step further along a run that ends in s.
  lemma Then(acts: seq<Action>, s: State, a: Action) returns (more: seq<Action>, s': State)
    requires Run(acts) == Some(s) && Step(s, a).Some?
    ensures Run(more) == Some(s') && Step(s, a) == Some(s')
  {
    more, s' := acts + [a], Step(s, a).value;
    assert more[..|acts|] == acts;
  }

  // A suspending execution keeps its active entry until after DELAYED is durable:
  // if the row is woken and dequeued by the same executor in between, the new
  // execution finds the entry and parks, and then the old one leaves.
  lemma SuspensionCanOrphan() returns (acts: seq<Action>)
    ensures Run(acts).Some? && Orphaned(Run(acts).value)
    ensures var s := Run(acts).value;
            && s.claim == 1 && s.runs.Keys == {0, 1}
            && s.runs[1].left == EntryHeld(0) && s.runs[0].left == RowSuspended
            && s.runs[0].phase == Reported(WasSuspended) && s.active == map[]
  {
    var s;
    acts, s := Redispatched();
    acts, s := Then(acts, s, Activate(1));
    assert s.runs == map[0 := Execution(0, Unwinding, true, RowSuspended),
           1 := Execution(0, Parked, false, EntryHeld(0))];
    acts, s := Then(acts, s, Unwind(0));
  }

  lemma Redispatched() returns (acts: seq<Action>, s: State)
    ensures Run(acts) == Some(s)
    ensures s == Initial().(row := Pending, active := map[0 := 0], claim := 1,
                   runs := map[0 := Execution(0, Unwinding, true, RowSuspended),
                     1 := Execution(0, Spawned, false, Still)])
  {
    acts, s := Suspended();
    acts, s := Then(acts, s, Transition);
    acts, s := Then(acts, s, Dequeue(1, 0));
    assert s.runs == map[0 := Execution(0, Unwinding, true, RowSuspended), 1 := Execution(0, Claimed, false, Still)];
    acts, s := Then(acts, s, Dispatch(1));
    assert s.runs == map[0 := Execution(0, Unwinding, true, RowSuspended), 1 := Execution(0, Spawned, false, Still)];
  }

  lemma Suspended() returns (acts: seq<Action>, s: State)
    ensures Run(acts) == Some(s)
    ensures s == Initial().(row := Delayed, active := map[0 := 0],
            runs := map[0 := Execution(0, Unwinding, true, RowSuspended)])
  {
    acts, s := Inside();
    acts, s := Then(acts, s, Suspend(0));
    assert s.runs == map[0 := Execution(0, Unwinding, true, RowSuspended)];
  }

  lemma Inside() returns (acts: seq<Action>, s: State)
    ensures Run(acts) == Some(s)
    ensures s == Initial().(row := Pending, active := map[0 := 0],
            runs := map[0 := Execution(0, InFunction, true, Still)])
  {
    acts, s := Then([], Initial(), Launch(0, 0));
    assert s.runs == map[0 := Execution(0, Claimed, false, Still)];
    acts, s := Then(acts, s, Dispatch(0));
    assert s.runs == map[0 := Execution(0, Spawned, false, Still)];
    acts, s := Then(acts, s, Activate(0));
    assert s.runs == map[0 := Execution(0, InFunction, true, Still)] && s.active == map[0 := 0];
  }

  // The dequeue commits PENDING before anything is started: if the claimed rows
  // cannot be listed, or the workflow is not in this executor's registry, nothing is.
  lemma ClaimCanBeDropped() returns (acts: seq<Action>)
    ensures Run(acts).Some? && Orphaned(Run(acts).value)
    ensures Run(acts).value.runs == map[0 := Execution(0, Undispatched, false, NotDispatched)]
  {
    var s;
    acts, s := Then([], Initial(), Insert(Enqueued));
    acts, s := Then(acts, s, Dequeue(0, 0));
    assert s.runs == map[0 := Execution(0, Claimed, false, Still)];
    acts, s := Then(acts, s, Drop(0));
  }

  // A cancelled execution whose durable cancel fails waits for an outcome that
  // nobody is working on.
  lemma FailedCancelOrphans() returns (acts: seq<Action>)
    ensures Run(acts).Some? && Orphaned(Run(acts).value)
    ensures Run(acts).value.runs == map[0 := Execution(0, Parked, false, CancelFailed)]
  {
    var s;
    acts, s := Inside();
    acts, s := Then(acts, s, Interrupt(0, false, false));
    assert s.runs == map[0 := Execution(0, Interrupted, true, CancelFailed)];
    acts, s := Then(acts, s, Settle(0));
  }
}
