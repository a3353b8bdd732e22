/**
What a run of executions leaves behind, told from its actions: the status row, whose
result its outcome is, why each execution stopped, and what each handle was told.
*/
module OwnershipTrace {
  import opened Base
  import opened Ownership

  lemma {:induction false} EarlierRuns(acts: seq<Action>, n: nat)
    requires n <= |acts| && Run(acts).Some?
    ensures Run(acts[..n]).Some?
    decreases |acts|
  {
    OutcomeIsFinal(acts, n);
  }

  /******* The status row *******/

  // What execution r's function returned.
  function ReturnedBy(acts: seq<Action>, r: nat): Option<Outcome> {
    if acts == [] then None
    else
      var a := acts[|acts| - 1];
      if a.Return? && a.r == r then Some(a.outcome) else ReturnedBy(acts[..|acts| - 1], r)
  }

  // A cancel that reaches the row: a call, or an execution whose context was
  // cancelled other than by a shutdown.
  predicate Cancels(a: Action) {
    a.Cancel? || (a.Interrupt? && !a.shutdown && a.settled)
  }

  // The status row, from the actions alone. A recorded outcome is what that
  // execution returned; it counts only on a PENDING row, and nothing moves it.
  function RowOf(acts: seq<Action>): Row {
    if acts == [] then Absent
    else
      var before, a := acts[..|acts| - 1], acts[|acts| - 1];
      var row := RowOf(before);
      if row.Done? then row
      else if row.Absent? then if a.Insert? then a.row else if a.Launch? then Pending else Absent
      else if Cancels(a) then Cancelled
      else if a.Resume? then Enqueued
      else if row.Delayed? && a.Transition? then Enqueued
      else if row.Enqueued? && a.Dequeue? then Pending
      else if row.Pending? && a.Reenqueue? then Enqueued
      else if row.Pending? && a.DeadLetter? then DeadLettered
      else if row.Pending? && a.Suspend? then Delayed
      else if row.Pending? && a.Record? && ReturnedBy(before, a.r).Some? then Done(ReturnedBy(before, a.r).value)
      else row
  }

  // What an execution holds is what it returned.
  ghost predicate HoldsReturned(acts: seq<Action>, r: nat)
    requires Run(acts).Some?
  {
    r in Run(acts).value.runs ==>
      var phase := Run(acts).value.runs[r].phase;
      && (phase.Returned? || phase.Recording? ==> ReturnedBy(acts, r) == Some(phase.outcome))
      && (phase.Claimed? || phase.Spawned? || phase.InFunction? ==> ReturnedBy(acts, r).None?)
  }

  // a is a step of an execution that exists.
  predicate OfExecution(a: Action) {
    || a.Dispatch? || a.Drop? || a.Activate? || a.Suspend? || a.Unwind? || a.Conflict? || a.Return? || a.Interrupt?
    || a.Settle? || a.EncodingFails? || a.Release? || a.Record? || a.RecordFails? || a.Await? || a.AwaitFails?
  }

  // Another's step leaves an execution as it is.
  lemma OthersStand(s: State, a: Action, r: nat)
    requires Step(s, a).Some? && OfExecution(a)
    ensures a.r in s.runs && (r != a.r ==> (r in Step(s, a).value.runs <==> r in s.runs))
    ensures r != a.r && r in s.runs ==> Step(s, a).value.runs[r] == s.runs[r]
  {
  }

  lemma OwnPhaseMoves(s: State, a: Action)
    requires OfExecution(a) && a.r in s.runs && Step(s, a).Some? && a.r in Step(s, a).value.runs
    ensures var phase := Step(s, a).value.runs[a.r].phase;
            && (phase.Returned? || phase.Recording? ==> Held(s.runs[a.r].phase, a, a.r, phase.outcome))
            && (phase.Claimed? || phase.Spawned? || phase.InFunction? ==>
                  s.runs[a.r].phase.Claimed? || s.runs[a.r].phase.Spawned? || s.runs[a.r].phase.InFunction?)
  {
  }

  lemma PhaseMoves(s: State, a: Action, r: nat)
    requires Step(s, a).Some? && r in Step(s, a).value.runs
    ensures var phase := Step(s, a).value.runs[r].phase;
            && (phase.Returned? || phase.Recording? ==> r in s.runs && Held(s.runs[r].phase, a, r, phase.outcome))
            && (phase.Claimed? || phase.Spawned? || phase.InFunction? ==>
                  r in s.runs ==> s.runs[r].phase.Claimed? || s.runs[r].phase.Spawned? || s.runs[r].phase.InFunction?)
  {
    if OfExecution(a) {
      OthersStand(s, a, r);
      if r == a.r { OwnPhaseMoves(s, a); }
    }
  }

  // It held o already, or a returns it.
  predicate Held(phase: Phase, a: Action, r: nat, o: Outcome) {
    if phase.InFunction? then a == Return(r, o) else (phase.Returned? || phase.Recording?) && phase.outcome == o
  }

  lemma ReturnMoves(s: State, a: Action)
    requires a.Return? && Step(s, a).Some?
    ensures a.r in s.runs && s.runs[a.r].phase.InFunction?
    ensures Step(s, a).value.runs[a.r].phase == Returned(a.outcome)
  {
  }

  lemma {:induction false} ExecutionsHoldReturned(acts: seq<Action>, r: nat)
    requires Run(acts).Some?
    ensures HoldsReturned(acts, r)
    ensures r !in Run(acts).value.runs ==> ReturnedBy(acts, r).None?
    decreases |acts|
  {
    if acts != [] {
      var before, a := acts[..|acts| - 1], acts[|acts| - 1];
      ExecutionsHoldReturned(before, r);
      if a.Return? {
        ReturnMoves(Run(before).value, a);
      }
      if r in Run(acts).value.runs {
        PhaseMoves(Run(before).value, a, r);
      } else {
        RunsStay(Run(before).value, a, r);
      }
    }
  }

  lemma RunsStay(s: State, a: Action, r: nat)
    requires Step(s, a).Some?
    ensures r in s.runs ==> r in Step(s, a).value.runs
  {
  }

  lemma RowMoves(s: State, a: Action)
    requires Step(s, a).Some?
    ensures var row := Step(s, a).value.row;
            if s.row.Done? then row == s.row
            else if s.row.Absent? then row == if a.Insert? then a.row else if a.Launch? then Pending else Absent
            else if Cancels(a) then row == Cancelled
            else if a.Resume? then row == Enqueued
            else if a.Record? && s.row.Pending? then
              a.r in s.runs && s.runs[a.r].phase.Recording? && row == Done(s.runs[a.r].phase.outcome)
            else
              match a
              case Transition => s.row.Delayed? && row == Enqueued
              case Dequeue(_, _) => s.row.Enqueued? && row == Pending
              case Reenqueue => s.row.Pending? && row == Enqueued
              case DeadLetter => s.row.Pending? && row == DeadLettered
              case Suspend(_) => s.row.Pending? && row == Delayed
              case _ => row == s.row
  {
  }

  // In every run the row is what that reading of the actions says, whatever the
  // executions were up to.
  lemma {:induction false} RowIsTrace(acts: seq<Action>)
    requires Run(acts).Some?
    ensures Run(acts).value.row == RowOf(acts)
    decreases |acts|
  {
    if acts != [] {
      var before, a := acts[..|acts| - 1], acts[|acts| - 1];
      RowIsTrace(before);
      RowMoves(Run(before).value, a);
      if a.Record? {
        ExecutionsHoldReturned(before, a.r);
      }
    }
  }

  // The outcome in the row is what its writer's function returned, recorded by it.
  lemma {:induction false} OutcomeWasReturned(acts: seq<Action>)
    requires Run(acts).Some? && Run(acts).value.row.Done?
    ensures var s := Run(acts).value;
            && s.winner in s.runs && ReturnedBy(acts, s.winner) == Some(s.row.outcome)
            && exists n: nat | n < |acts| :: acts[n].Record? && acts[n].r == s.winner
    decreases |acts|
  {
    var before, a := acts[..|acts| - 1], acts[|acts| - 1];
    var s, s' := Run(before).value, Run(acts).value;
    RunsKeep(acts);
    assert WinnerOk(s');
    if s.row.Done? {
      OutcomeWasReturned(before);
      RunsKeep(before);
      StepKeeps(s, a);
      var n: nat :| n < |before| && before[n].Record? && before[n].r == s.winner;
      assert acts[n] == before[n];
      if a.Return? {
        ReturnMoves(s, a);
      }
    } else {
      RowMoves(s, a);
      WinnerArises(s, a);
      ExecutionsHoldReturned(before, a.r);
      assert acts[|before|] == a;
    }
  }

  lemma WinnerArises(s: State, a: Action)
    requires Step(s, a).Some? && !s.row.Done? && Step(s, a).value.row.Done?
    ensures a.Record? && Step(s, a).value.winner == a.r
  {
  }

  // A cancel that finds the workflow unfinished holds until somebody resumes it: no
  // execution records an outcome in between.
  lemma {:induction false} CancelHolds(acts: seq<Action>, n: nat)
    requires n < |acts| && Run(acts).Some? && Cancels(acts[n])
    requires !RowOf(acts[..n]).Done? && !RowOf(acts[..n]).Absent?
    requires forall m | n < m < |acts| :: !acts[m].Resume?
    ensures Run(acts).value.row == Cancelled
    decreases |acts|
  {
    var before := acts[..|acts| - 1];
    RowIsTrace(acts);
    if n < |acts| - 1 {
      EarlierRuns(acts, |acts| - 1);
      assert before[..n] == acts[..n];
      CancelHolds(before, n);
      RowIsTrace(before);
    } else {
      assert acts[..n] == before;
    }
  }

  /******* Why an execution stopped *******/

  ghost predicate LeftTold(acts: seq<Action>, x: Execution, r: nat) {
    match x.left
    case Still => true
    case NotDispatched => Drop(r) in acts
    case EntryHeld(_) => Activate(r) in acts
    case ShutDown => Interrupt(r, true, true) in acts || Interrupt(r, true, false) in acts
    case ContextCancelled => Interrupt(r, false, true) in acts
    case CancelFailed => Interrupt(r, false, false) in acts
    case Conflicting => Conflict(r) in acts
    case NotEncoded => EncodingFails(r) in acts
    case NotRecorded => RecordFails(r) in acts
    case Crashed => Crash(x.executor) in acts
    case RowSuspended => Suspend(r) in acts
    case Recorded => Record(r, true) in acts
    case Refused => Record(r, true) in acts || Record(r, false) in acts
  }

  lemma OwnLeftMoves(s: State, a: Action)
    requires OfExecution(a) && a.r in s.runs && Step(s, a).Some? && a.r in Step(s, a).value.runs
    ensures var x := Step(s, a).value.runs[a.r];
            x.executor == s.runs[a.r].executor && (x.left == s.runs[a.r].left || LeftTold([a], x, a.r))
  {
  }

  lemma LeftMoves(s: State, a: Action, r: nat)
    requires Step(s, a).Some? && r in Step(s, a).value.runs
    ensures var x := Step(s, a).value.runs[r];
            if r in s.runs && x.left == s.runs[r].left then x.executor == s.runs[r].executor
            else LeftTold([a], x, r)
  {
    if OfExecution(a) {
      OthersStand(s, a, r);
      if r == a.r { OwnLeftMoves(s, a); }
    }
  }

  // The cause an execution carries is the action that stopped it.
  lemma {:induction false} CausesAreTold(acts: seq<Action>, r: nat)
    requires Run(acts).Some? && r in Run(acts).value.runs
    ensures LeftTold(acts, Run(acts).value.runs[r], r)
    decreases |acts|
  {
    var before, a := acts[..|acts| - 1], acts[|acts| - 1];
    assert acts == before + [a];
    if r in Run(before).value.runs {
      CausesAreTold(before, r);
    }
    LeftMoves(Run(before).value, a, r);
  }

  // Who turned it away was another execution, in possession of the executor's entry.
  lemma {:induction false} TurnedAwayByAnother(acts: seq<Action>, r: nat) returns (n: nat)
    requires Run(acts).Some? && r in Run(acts).value.runs && Run(acts).value.runs[r].left.EntryHeld?
    ensures n < |acts| && acts[n] == Activate(r) && Run(acts[..n]).Some?
    ensures var s, h := Run(acts[..n]).value, Run(acts).value.runs[r].left.holder;
            h != r && h in s.runs && s.runs[h].holds && s.runs[h].executor == Run(acts).value.runs[r].executor
    decreases |acts|
  {
    var before, a := acts[..|acts| - 1], acts[|acts| - 1];
    var s, x := Run(before).value, Run(acts).value.runs[r];
    LeftMoves(s, a, r);
    if r in s.runs && s.runs[r].left == x.left {
      n := TurnedAwayByAnother(before, r);
      assert before[..n] == acts[..n];
    } else {
      n := |before|;
      assert acts[..n] == before;
      RunsKeep(before);
      assert a == Activate(r) && RunOk(s, r) && EntryOk(s, x.executor);
    }
  }

  // When each action is possible: the row's own moves by its status, an execution's by
  // its phase.
  predicate CanTake(s: State, a: Action) {
    match a
    case Insert(row) => s.row.Absent? && (row.Enqueued? || row.Delayed?)
    case Transition => s.row.Delayed?
    case Reenqueue => s.row.Pending?
    case Cancel => true
    case Resume => true
    case DeadLetter => s.row.Pending?
    case Launch(r, _) => r !in s.runs && s.row.Absent?
    case Dequeue(r, _) => r !in s.runs && s.row.Enqueued?
    case Start(r, _) => r !in s.runs && !s.row.Absent?
    case Poll(h) => h !in s.handles && (s.row.Done? || s.row.Cancelled? || s.row.DeadLettered?)
    case Crash(_) => true
    case _ => a.r in s.runs && PhaseAllows(s, s.runs[a.r].phase, a)
  }

  predicate PhaseAllows(s: State, phase: Phase, a: Action) {
    match a
    case Dispatch(_) => phase.Claimed?
    case Drop(_) => phase.Claimed?
    case Activate(_) => phase.Spawned?
    case Suspend(_) => phase.InFunction? && s.row.Pending?
    case Unwind(_) => phase.Unwinding?
    case Conflict(_) => phase.InFunction?
    case Return(_, _) => phase.InFunction?
    case Interrupt(_, _, _) => phase.InFunction? || phase.Returned?
    case Settle(_) => phase.Interrupted?
    case EncodingFails(_) => phase.Returned?
    case Release(_) => phase.Returned?
    case Record(_, _) => phase.Recording?
    case RecordFails(_) => phase.Recording?
    case Await(_) => phase.Parked? && (s.row.Done? || s.row.Cancelled? || s.row.DeadLettered?)
    case AwaitFails(_) => phase.Parked?
    case _ => false
  }

  lemma StepsWhenPossible(s: State, a: Action)
    ensures Step(s, a).Some? <==> CanTake(s, a)
  {
  }

  // A crash ends everything its executor had not reported, takes its entries away and
  // touches nothing else.
  lemma CrashEndsAll(s: State, executor: nat)
    requires forall r :: RunOk(s, r)
    ensures Step(s, Crash(executor)).Some?
    ensures var s' := Step(s, Crash(executor)).value;
            && s'.row == s.row && s'.runs.Keys == s.runs.Keys && executor !in s'.active
            && (forall e | e != executor :: EntrySame(s, s', e))
            && forall r | r in s.runs ::
                 if s.runs[r].executor != executor || s.runs[r].phase.Reported? then s'.runs[r] == s.runs[r]
                 else s'.runs[r] == Execution(executor, Dead, false,
                                              if s.runs[r].left.Still? then Crashed else s.runs[r].left)
  {
    forall r | r in s.runs ensures s.runs[r].left.Still? <==> Executing(s.runs[r].phase) {
      assert RunOk(s, r);
    }
  }

  /******* What is told *******/

  // The row says what was told.
  predicate Says(row: Row, report: Report) {
    match report
    case Own(o) => row == Done(o)
    case FromRow(o) => row == Done(o)
    case WasCancelled => row == Cancelled
    case WasDeadLettered => row == DeadLettered
    case WasSuspended => true
    case Broken => true
  }

  lemma OwnReportArises(s: State, a: Action)
    requires OfExecution(a) && a.r in s.runs && Step(s, a).Some? && a.r in Step(s, a).value.runs
    requires Step(s, a).value.runs[a.r].phase.Reported? && s.runs[a.r].phase != Step(s, a).value.runs[a.r].phase
    ensures Says(Step(s, a).value.row, Step(s, a).value.runs[a.r].phase.report)
    ensures Step(s, a).value.runs[a.r].phase.report.WasSuspended? ==> s.runs[a.r].phase.Unwinding?
  {
  }

  lemma ReportArises(s: State, a: Action, r: nat)
    requires Step(s, a).Some? && r in Step(s, a).value.runs && Step(s, a).value.runs[r].phase.Reported?
    requires r in s.runs ==> s.runs[r].phase != Step(s, a).value.runs[r].phase
    ensures Says(Step(s, a).value.row, Step(s, a).value.runs[r].phase.report)
    ensures r in s.runs && (Step(s, a).value.runs[r].phase.report.WasSuspended? ==> s.runs[r].phase.Unwinding?)
  {
    if OfExecution(a) {
      OthersStand(s, a, r);
      if r == a.r { OwnReportArises(s, a); }
    }
  }

  // An execution's handle was told what the row said at that moment.
  lemma {:induction false} ReportsWereTrue(acts: seq<Action>, r: nat) returns (n: nat)
    requires Run(acts).Some? && r in Run(acts).value.runs && Run(acts).value.runs[r].phase.Reported?
    ensures n <= |acts| && Says(RowOf(acts[..n]), Run(acts).value.runs[r].phase.report)
    ensures Run(acts).value.runs[r].phase.report.WasSuspended? ==> Suspend(r) in acts
    decreases |acts|
  {
    var before, a := acts[..|acts| - 1], acts[|acts| - 1];
    var s, phase := Run(before).value, Run(acts).value.runs[r].phase;
    assert acts == before + [a];
    if r in s.runs && s.runs[r].phase == phase {
      n := ReportsWereTrue(before, r);
      assert before[..n] == acts[..n];
    } else {
      n := |acts|;
      ReportArises(s, a, r);
      RowIsTrace(acts);
      assert acts[..n] == acts;
      if phase.report.WasSuspended? {
        UnwindingSuspended(before, r);
      }
    }
  }

  lemma {:induction false} UnwindingSuspended(acts: seq<Action>, r: nat)
    requires Run(acts).Some? && r in Run(acts).value.runs && Run(acts).value.runs[r].phase.Unwinding?
    ensures Suspend(r) in acts
    decreases |acts|
  {
    var before, a := acts[..|acts| - 1], acts[|acts| - 1];
    assert acts == before + [a];
    UnwindingArises(Run(before).value, a, r);
    if a != Suspend(r) {
      UnwindingSuspended(before, r);
    }
  }

  lemma UnwindingArises(s: State, a: Action, r: nat)
    requires Step(s, a).Some? && r in Step(s, a).value.runs && Step(s, a).value.runs[r].phase.Unwinding?
    ensures a == Suspend(r) || (r in s.runs && s.runs[r].phase.Unwinding?)
  {
  }

  // A polling handle reports a settled row, and what it says.
  lemma PollReads(s: State, h: nat)
    requires h !in s.handles
    ensures Step(s, Poll(h)).Some? <==> s.row.Done? || s.row.Cancelled? || s.row.DeadLettered?
    ensures Step(s, Poll(h)).Some? ==>
              var report := Step(s, Poll(h)).value.handles[h];
              Says(s.row, report) && !report.Broken? && !report.WasSuspended?
  {
  }

  /******* What an execution can do *******/

  // An execution that is left alone records what its function returns, whatever that
  // is, tells it, and leaves no entry behind.
  lemma UndisturbedRunRecords(o: Outcome) returns (acts: seq<Action>, s: State)
    ensures Run(acts) == Some(s) && s.row == Done(o) && s.winner == 0 && s.active == map[]
    ensures s.runs == map[0 := Execution(0, Reported(Own(o)), false, Recorded)]
  {
    acts, s := Inside();
    acts, s := Ends(acts, s, 0, o);
    assert s.runs == map[0 := Execution(0, Reported(Own(o)), false, Recorded)];
  }

  lemma Ends(before: seq<Action>, s0: State, r: nat, o: Outcome) returns (acts: seq<Action>, s: State)
    requires Run(before) == Some(s0) && s0.row.Pending? && r in s0.runs
    requires s0.runs[r] == Execution(0, InFunction, true, Still) && s0.active == map[0 := r]
    ensures Run(acts) == Some(s) && s.row == Done(o) && s.winner == r && s.active == map[]
    ensures s.runs == s0.runs[r := Execution(0, Reported(Own(o)), false, Recorded)]
  {
    acts, s := Then(before, s0, Return(r, o));
    assert s.runs == s0.runs[r := Execution(0, Returned(o), true, Still)];
    acts, s := Releases(acts, s, r, o);
    assert s.runs == s0.runs[r := Execution(0, Recording(o), false, Still)];
    acts, s := Then(acts, s, Record(r, true));
    assert s.runs == s0.runs[r := Execution(0, Reported(Own(o)), false, Recorded)];
  }

  lemma Releases(before: seq<Action>, s0: State, r: nat, o: Outcome) returns (acts: seq<Action>, s: State)
    requires Run(before) == Some(s0) && r in s0.runs && s0.active == map[0 := r]
    requires s0.runs[r] == Execution(0, Returned(o), true, Still)
    ensures Run(acts) == Some(s) && s.row == s0.row && s.active == map[]
    ensures s.runs == s0.runs[r := Execution(0, Recording(o), false, Still)]
  {
    acts, s := Then(before, s0, Release(r));
    assert s.active == map[] && s.runs[r] == Execution(0, Recording(o), false, Still);
    assert s.runs == s0.runs[r := s.runs[r]];
  }

  // After a crash, recovery hands the row to a new execution, which can do the same.
  lemma RecoveredRunRecords(o: Outcome) returns (acts: seq<Action>, s: State)
    ensures Run(acts) == Some(s) && s.row == Done(o) && s.winner == 1
    ensures 0 in s.runs && s.runs[0].left == Crashed && 1 in s.runs && s.runs[1].phase == Reported(Own(o))
  {
    acts, s := Recovered();
    acts, s := Then(acts, s, Dispatch(1));
    assert s.runs == map[0 := Execution(0, Dead, false, Crashed), 1 := Execution(0, Spawned, false, Still)];
    acts, s := Then(acts, s, Activate(1));
    assert s.runs[1] == Execution(0, InFunction, true, Still) && s.active == map[0 := 1];
    acts, s := Ends(acts, s, 1, o);
  }

  lemma Recovered() returns (acts: seq<Action>, s: State)
    ensures Run(acts) == Some(s) && s.row == Pending && s.active == map[]
    ensures s.runs == map[0 := Execution(0, Dead, false, Crashed), 1 := Execution(0, Claimed, false, Still)]
  {
    acts, s := Inside();
    acts, s := Then(acts, s, Crash(0));
    assert s.runs == map[0 := Execution(0, Dead, false, Crashed)] && s.active == map[];
    acts, s := Then(acts, s, Reenqueue);
    acts, s := Then(acts, s, Dequeue(1, 0));
    assert s.runs == map[0 := Execution(0, Dead, false, Crashed), 1 := Execution(0, Claimed, false, Still)];
  }

  // Who awaits the outcome of another execution is told it.
  lemma AwaitTells(s: State, r: nat)
    requires r in s.runs && s.runs[r].phase.Parked? && s.row.Done?
    ensures Step(s, Await(r)).Some?
    ensures Step(s, Await(r)).value.runs[r].phase == Reported(FromRow(s.row.outcome))
  {
  }
}
