/**
Step replay. A workflow function is deterministic: what it calls next depends
only on what its earlier calls returned. Its progress is the operation_outputs
table, keyed by step ID and insert-once. Any number of executions of one
workflow may start, crash, restart and overlap; each walks the program and
checks, runs and records its steps against the one table.
*/
module Replay {
  import opened Base

  /******* Programs and histories *******/

  // One returned call, as the workflow function saw it. Go is Issued alone;
  // RunAsStep is Issued followed by Joined on the same ID; Recv and GetEvent
  // issue their own ID and their timeout's before joining the first. The last two
  // are errors of the engine, which are in no row.
  datatype Event =
    | Issued(name: string)
    | Joined(step: nat, outcome: Outcome)
    | Patched(patch: string, taken: bool)
    | StepFailed(step: nat)                        // not encoded, not decoded, not stored, interrupted
    | PatchFailed(patch: string, refused: bool)    // refused: another's row was in the marker's place

  datatype Call =
    | Issue(name: string)
    | Join(step: nat)
    | AskPatch(patch: string)
    | Finish(result: Outcome)

  type Program = seq<Event> -> Call

  // The names that own step IDs 0, 1, 2, ... after history h. Its length is the
  // next ID: nextStepID counts up by one from -1, and a patch takes an ID only
  // when it answers true.
  function Names(h: seq<Event>): seq<string> {
    if h == [] then [] else Names(h[..|h| - 1]) + Taken(h[|h| - 1])
  }

  function Taken(e: Event): seq<string> {
    match e
    case Issued(name) => [name]
    case Joined(_, _) => []
    case Patched(patch, taken) => if taken then [patch] else []
    case StepFailed(_) => []
    case PatchFailed(_, _) => []
  }

  /******* The step table *******/

  datatype Row = Row(name: string, outcome: Outcome, stamp: nat)
  type Log = map<nat, Row>

  predicate Extends(small: Log, big: Log) {
    forall k | k in small :: k in big && big[k] == small[k]
  }

  // What w's next call returns after h when results are read from log, if the
  // table holds it already.
  function NextEvent(w: Program, log: Log, h: seq<Event>): Option<Event> {
    match w(h)
    case Issue(name) => Some(Issued(name))
    case Join(k) => if k < |Names(h)| && k in log then Some(Joined(k, log[k].outcome)) else None
    case AskPatch(p) => if |Names(h)| in log then Some(Patched(p, log[|Names(h)|].name == p)) else None
    case Finish(_) => None
  }

  predicate FollowsAt(w: Program, log: Log, h: seq<Event>, i: nat)
    requires i < |h|
  {
    NextEvent(w, log, h[..i]) == Some(h[i])
  }

  // h is a history read from log alone; an error of the engine is read from nowhere.
  ghost predicate OnPath(w: Program, log: Log, h: seq<Event>) {
    forall i: nat | i < |h| :: FollowsAt(w, log, h, i)
  }

  // Every row was written at a point the program reaches under that name.
  ghost predicate Reaches(w: Program, log: Log, k: nat, name: string, h: seq<Event>) {
    OnPath(w, log, h) && k < |Names(h)| && Names(h)[k] == name
  }

  ghost predicate RowJustified(w: Program, log: Log, k: nat) {
    k in log ==> exists h :: Reaches(w, log, k, log[k].name, h)
  }

  ghost predicate Justified(w: Program, log: Log) {
    forall k: nat :: RowJustified(w, log, k)
  }

  /******* Executions *******/

  // One step ID inside one execution. A patch's own ID is Settled at once.
  datatype Flight =
    | Unchecked
    | MustRun
    | Ran(row: Row)
    | Settled(outcome: Outcome)
    | Failed

  datatype Status = Live | Stopped | Conflicted | Unexpected

  // Inside a Patch: looked and found no row, or claimed the ID without hearing so.
  datatype Asking = Idle | Looked | Claimed

  datatype Exec = Exec(history: seq<Event>, flights: seq<Flight>, asking: Asking, status: Status)

  datatype State = State(log: Log, execs: map<nat, Exec>)

  datatype Action =
    | Start(e: nat)
    | Stop(e: nat)                                // crash, cancellation, suspension
    | IssueStep(e: nat)                           // nextStepID
    | Check(e: nat, k: nat)                       // CheckOperationExecution
    | RunBody(e: nat, k: nat, outcome: Outcome, stamp: nat)
    | Record(e: nat, k: nat, acked: bool)         // RecordOperationResult; acked false: the commit's answer is lost
    | FailStep(e: nat, k: nat)                    // the step ends with an error of the engine
    | JoinStep(e: nat)                            // the call returns to the workflow
    | ProbePatch(e: nat)                          // Patch: the SELECT
    | InsertPatch(e: nat, stamp: nat, acked: bool) // Patch: the INSERT
    | FailPatch(e: nat)                           // Patch: a statement fails

  function Initial(log: Log): State {
    State(log, map[])
  }

  function Put(s: State, e: nat, x: Exec): State {
    s.(execs := s.execs[e := x])
  }

  function Halt(s: State, e: nat, status: Status): State
    requires e in s.execs
  {
    Put(s, e, s.execs[e].(status := status))
  }

  predicate IsLive(s: State, e: nat) {
    e in s.execs && s.execs[e].status == Live
  }

  // An execution's answer to AskPatch(p) from the row at its next ID.
  function Answer(x: Exec, p: string, row: Row): Exec {
    x.(history := x.history + [Patched(p, row.name == p)],
       flights := if row.name == p then x.flights + [Settled(row.outcome)] else x.flights,
       asking := Idle)
  }

  function StepCheck(s: State, e: nat, k: nat): Option<State>
    requires IsLive(s, e)
  {
    var x := s.execs[e];
    if !(k < |x.flights| && k < |Names(x.history)| && x.flights[k] == Unchecked) then None
    else if k !in s.log then Some(Put(s, e, x.(flights := x.flights[k := MustRun])))
    else if s.log[k].name != Names(x.history)[k] then Some(Halt(s, e, Unexpected))
    else Some(Put(s, e, x.(flights := x.flights[k := Settled(s.log[k].outcome)])))
  }

  function StepRun(s: State, e: nat, k: nat, o: Outcome, stamp: nat): Option<State>
    requires IsLive(s, e)
  {
    var x := s.execs[e];
    if !(k < |x.flights| && k < |Names(x.history)| && x.flights[k] == MustRun) then None
    else
      var row := Row(Names(x.history)[k], o, stamp);
      Some(Put(s, e, x.(flights := x.flights[k := Ran(row)])))
  }

  function StepRecord(s: State, e: nat, k: nat, acked: bool): Option<State>
    requires IsLive(s, e)
  {
    var x := s.execs[e];
    if !(k < |x.flights| && x.flights[k].Ran?) then None
    else
      var row := x.flights[k].row;
      var settled := Put(s, e, x.(flights := x.flights[k := Settled(row.outcome)]));
      if k !in s.log then
        if acked then Some(settled.(log := s.log[k := row])) else Some(s.(log := s.log[k := row]))
      else if s.log[k] == row then Some(settled)
      else if s.log[k].name != row.name then Some(Halt(s, e, Unexpected))
      else Some(Halt(s, e, Conflicted))
  }

  // The result cannot be encoded or, when replayed, decoded; a statement fails for
  // good; the workflow is cancelled meanwhile; or the error of a conflict or of an
  // unexpected step is handed to the program instead of ending the execution.
  function StepFail(s: State, e: nat, k: nat): Option<State>
    requires IsLive(s, e)
  {
    var x := s.execs[e];
    if k >= |x.flights| then None else Some(Put(s, e, x.(flights := x.flights[k := Failed])))
  }

  function StepIssue(w: Program, s: State, e: nat): Option<State>
    requires IsLive(s, e)
  {
    var x := s.execs[e];
    match w(x.history)
    case Issue(name) =>
      Some(Put(s, e, x.(history := x.history + [Issued(name)], flights := x.flights + [Unchecked])))
    case _ => None
  }

  function StepJoin(w: Program, s: State, e: nat): Option<State>
    requires IsLive(s, e)
  {
    var x := s.execs[e];
    match w(x.history)
    case Join(k) =>
      if k < |x.flights| && x.flights[k].Settled?
      then Some(Put(s, e, x.(history := x.history + [Joined(k, x.flights[k].outcome)])))
      else if k < |x.flights| && x.flights[k].Failed?
      then Some(Put(s, e, x.(history := x.history + [StepFailed(k)])))
      else None
    case _ => None
  }

  function StepProbe(w: Program, s: State, e: nat): Option<State>
    requires IsLive(s, e)
  {
    var x := s.execs[e];
    var next := |Names(x.history)|;
    match w(x.history)
    case AskPatch(p) =>
      if next in s.log then Some(Put(s, e, Answer(x, p, s.log[next])))
      else Some(Put(s, e, x.(asking := Looked)))
    case _ => None
  }

  function StepInsert(w: Program, s: State, e: nat, stamp: nat, acked: bool): Option<State>
    requires IsLive(s, e)
  {
    var x := s.execs[e];
    var next := |Names(x.history)|;
    match w(x.history)
    case AskPatch(p) =>
      if x.asking != Looked then None
      else if next in s.log then
        Some(Put(s, e, x.(history := x.history + [PatchFailed(p, true)], asking := Idle)))
      else
        var row := Row(p, Output(""), stamp);
        var x' := if acked then Answer(x, p, row) else x.(asking := Claimed);
        Some(Put(s, e, x').(log := s.log[next := row]))
    case _ => None
  }

  function StepFailPatch(w: Program, s: State, e: nat): Option<State>
    requires IsLive(s, e)
  {
    var x := s.execs[e];
    match w(x.history)
    case AskPatch(p) => Some(Put(s, e, x.(history := x.history + [PatchFailed(p, false)], asking := Idle)))
    case _ => None
  }

  function Step(w: Program, s: State, a: Action): Option<State> {
    if a.Start? then
      if a.e in s.execs then None else Some(Put(s, a.e, Exec([], [], Idle, Live)))
    else if !IsLive(s, a.e) then None
    else
      match a
      case Stop(e) => Some(Halt(s, e, Stopped))
      case IssueStep(e) => StepIssue(w, s, e)
      case Check(e, k) => StepCheck(s, e, k)
      case RunBody(e, k, o, stamp) => StepRun(s, e, k, o, stamp)
      case Record(e, k, acked) => StepRecord(s, e, k, acked)
      case FailStep(e, k) => StepFail(s, e, k)
      case JoinStep(e) => StepJoin(w, s, e)
      case ProbePatch(e) => StepProbe(w, s, e)
      case InsertPatch(e, stamp, acked) => StepInsert(w, s, e, stamp, acked)
      case FailPatch(e) => StepFailPatch(w, s, e)
  }

  // The state after the actions, from s; None when some action was not enabled.
  function Run(w: Program, s: State, acts: seq<Action>): Option<State> {
    if acts == [] then Some(s)
    else
      var before := Run(w, s, acts[..|acts| - 1]);
      if before.None? then None else Step(w, before.value, acts[|acts| - 1])
  }
}
