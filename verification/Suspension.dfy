/**
Durable suspension: a workflow that waits for a message, an event or another
workflow's result parks itself in the database (status DELAYED, plus a row in
workflow_waiters) and is woken by whoever makes the awaited condition true.
The unit of interleaving is the SQL statement; a transaction's writes become
visible to others at its last step.
*/
module Suspension {
  import opened Base

  datatype Kind = Message | Event | Result

  // _waiterWakeFallbackInterval, in milliseconds.
  const HORIZON := 3_600_000

  datatype Row = Running | Delayed(until: int)

  datatype Waiter =
    | Checking     // about to look whether the condition already holds
    | Intending    // it did not: about to suspend
    | Rechecking   // suspended: about to look once more
    | SelfWaking   // it holds after all: waking ourselves
    | Parked       // the goroutine is gone
    | Over         // found the condition true
    | Dead         // crashed

  // How the condition is made true and the waiter woken:
  // Auto: write, then wake, as two statements of their own (Send from outside a
  // workflow, SetEvent from inside a step);
  // InTx: both in one transaction (SetEvent and Send as steps, gate deliveries);
  // Wake: an outcome is recorded or refused, then WakeWorkflowWaiters moves and
  // deletes all waiter rows of that workflow, whatever they wait for
  // (UpdateWorkflowOutcome, and the self-wake of another result waiter);
  // Silent: a terminal status is written and nobody is woken (cancel, dead-letter);
  // Self: the waiter's own wake-up after its recheck.
  datatype Mode = Auto | InTx | Wake | Silent | Self

  datatype Pc = ToCommit | ToLook | ToScan | Holding | Finished | Gone

  // writes: what it writes is what the waiter waits for, not another topic's
  // message, another key's event or a refused outcome. commit: the instant its
  // write became visible. scan: the instant its wake-up UPDATE read the tables,
  // and hit whether it found the waiter. close: the instant its DELETE of waiter
  // rows took effect.
  datatype Waker = Waker(mode: Mode, writes: bool, pc: Pc, commit: Option<nat>, scan: Option<nat>, hit: bool,
                         close: Option<nat>)

  // clock is wall-clock time, time counts steps. reg, checked, since and
  // fallback belong to the current suspension: the instants it was registered
  // and rechecked, the clock when it was registered and its first wake-up time.
  // self: the wake-up its recheck started, if it started one. first, wokenBy and
  // robber: the first writer, the last waker whose UPDATE moved the wake-up time,
  // and the last one whose DELETE took the waiter's row, at the instant cut.
  datatype State = State(
    kind: Kind, serial: bool, deadline: nat, clock: nat, time: nat,
    row: Row, link: bool, fact: bool,
    waiter: Waiter, self: Option<nat>, reg: nat, checked: nat, since: nat, fallback: int,
    first: nat, wokenBy: nat, robber: nat, cut: nat, wakers: map<nat, Waker>)

  datatype Action =
    | Tick(ms: nat)
    | Check
    | Register
    | Recheck(w: nat)
    | Rejoin
    | CrashWaiter
    | Promote
    | Recover
    | Begin(w: nat, mode: Mode, writes: bool)
    | Commit(w: nat)
    | Look(w: nat, others: bool)
    | Scan(w: nat)
    | Close(w: nat)
    | CrashWaker(w: nat)

  // serial: write transactions run one after the other, as on SQLite.
  function Initial(kind: Kind, serial: bool, deadline: nat): State {
    State(kind, serial, deadline, 0, 1, Running, false, false, Checking, None, 0, 0, 0, 0, 0, 0, 0, 0, map[])
  }

  // A waker that holds the waiter's row lock until its transaction ends.
  predicate Locks(k: Waker) {
    k.pc == Holding && k.hit
  }

  predicate Locked(s: State) {
    exists w | w in s.wakers :: Locks(s.wakers[w])
  }

  function Put(s: State, w: nat, k: Waker): State {
    s.(wakers := s.wakers[w := k], time := s.time + 1)
  }

  function WakeRow(s: State, w: nat, hit: bool): State {
    if hit then s.(row := Delayed(s.clock), wokenBy := w) else s
  }

  // min(deadline, now + horizon); a wait for a result has no deadline.
  function Fallback(s: State): int {
    if s.kind != Result && s.deadline < s.clock + HORIZON then s.deadline else s.clock + HORIZON
  }

  predicate Unwoken(s: State) {
    s.row.Delayed? && s.row.until > s.clock
  }

  /******* The waiter *******/

  function StepCheck(s: State): Option<State> {
    if s.waiter != Checking then None
    else Some(s.(waiter := if s.fact then Over else Intending, time := s.time + 1))
  }

  function StepRegister(s: State): Option<State> {
    if s.waiter != Intending || s.row != Running then None
    else Some(s.(row := Delayed(Fallback(s)), fallback := Fallback(s), since := s.clock, link := true,
                 reg := s.time, waiter := Rechecking, time := s.time + 1))
  }

  function StepRecheck(s: State, w: nat): Option<State> {
    if s.waiter != Rechecking || w in s.wakers then None
    else if !s.fact then Some(s.(waiter := Parked, self := None, checked := s.time, time := s.time + 1))
    else
      var pc := if s.kind == Result then ToLook else ToScan;
      Some(Put(s.(waiter := SelfWaking, self := Some(w), checked := s.time), w,
        Waker(Self, false, pc, None, None, false, None)))
  }

  function StepRejoin(s: State): Option<State> {
    if s.waiter != SelfWaking || s.self.None? || s.self.value !in s.wakers || s.wakers[s.self.value].pc != Finished
      then None
    else Some(s.(waiter := Parked, time := s.time + 1))
  }

  function StepPromote(s: State): Option<State> {
    if !s.row.Delayed? || Unwoken(s) || Locked(s) then None
    else Some(s.(row := Running, waiter := Checking, time := s.time + 1))
  }

  function StepRecover(s: State): Option<State> {
    if s.waiter != Dead || s.row != Running then None
    else Some(s.(waiter := Checking, time := s.time + 1))
  }

  /******* The wakers *******/

  // Messages and events are written by Send and SetEvent, results by completions,
  // cancels and dead-letterings; completions wake and delete in all cases.
  predicate Fits(kind: Kind, mode: Mode, writes: bool) {
    match mode
    case Auto => kind != Result
    case InTx => kind != Result
    case Wake => writes ==> kind == Result
    case Silent => kind == Result && writes
    case Self => false
  }

  function StepBegin(s: State, w: nat, mode: Mode, writes: bool): Option<State> {
    if w in s.wakers || !Fits(s.kind, mode, writes) then None
    else Some(Put(s, w, Waker(mode, writes, if mode == InTx then ToScan else ToCommit, None, None, false, None)))
  }

  // Whatever is written wakes all the same.
  function StepCommit(s: State, w: nat): Option<State>
    requires w in s.wakers
  {
    var k := s.wakers[w];
    if k.pc != ToCommit then None
    else
      var next := match k.mode case Wake => ToLook case Silent => Finished case _ => ToScan;
      Some(Put(Written(s, w, k.writes), w, k.(pc := next, commit := if k.writes then Some(s.time) else None)))
  }

  function Written(s: State, w: nat, writes: bool): State {
    s.(fact := s.fact || writes, first := if writes && !s.fact then w else s.first)
  }

  // The fast path: no waiter rows, ours or others', no transaction.
  function StepLook(s: State, w: nat, others: bool): Option<State>
    requires w in s.wakers
  {
    var k := s.wakers[w];
    if k.pc != ToLook then None
    else Some(Put(s, w, k.(pc := if s.link || others then ToScan else Finished)))
  }

  predicate OneStatement(s: State, k: Waker) {
    k.mode == Auto || (k.mode == Self && s.kind != Result)
  }

  function StepScan(s: State, w: nat): Option<State>
    requires w in s.wakers
  {
    var k := s.wakers[w];
    var hit := s.row.Delayed? && (s.link || (k.mode == Self && s.kind != Result));
    var k' := k.(scan := Some(s.time), hit := hit);
    if k.pc != ToScan || (hit && Locked(s)) then None
    else if OneStatement(s, k) then Some(Put(WakeRow(s, w, hit), w, k'.(pc := Finished)))
    else if s.serial then Some(if k.mode == InTx then EndWrite(s, w, k') else EndWake(s, w, k'))
    else Some(Put(s, w, k'.(pc := Holding)))
  }

  function StepClose(s: State, w: nat): Option<State>
    requires w in s.wakers
  {
    var k := s.wakers[w];
    if k.pc != Holding then None else Some(if k.mode == InTx then EndWrite(s, w, k) else EndWake(s, w, k))
  }

  // The transaction's writes become visible: the moved wake-up time together
  // with the message or event,
  function EndWrite(s: State, w: nat, k: Waker): State {
    Put(Written(WakeRow(s, w, k.hit), w, k.writes),
        w, k.(pc := Finished, commit := if k.writes then Some(s.time) else None))
  }

  // or together with the deletion of the waiter rows.
  function EndWake(s: State, w: nat, k: Waker): State {
    Put(WakeRow(s, w, k.hit).(link := false, robber := if s.link then w else s.robber, cut := if s.link then s.time
      else s.cut),
        w, k.(pc := Finished, close := Some(s.time)))
  }

  function StepCrashWaker(s: State, w: nat): Option<State>
    requires w in s.wakers
  {
    if s.wakers[w].pc == Finished then None else Some(Put(s, w, s.wakers[w].(pc := Gone, hit := false)))
  }

  function StepWaker(s: State, a: Action): Option<State>
    requires a.Commit? || a.Look? || a.Scan? || a.Close? || a.CrashWaker?
  {
    if a.w !in s.wakers then None
    else
      match a
      case Commit(w) => StepCommit(s, w)
      case Look(w, others) => StepLook(s, w, others)
      case Scan(w) => StepScan(s, w)
      case Close(w) => StepClose(s, w)
      case CrashWaker(w) => StepCrashWaker(s, w)
  }

  function Step(s: State, a: Action): Option<State> {
    match a
    case Tick(ms) => Some(s.(clock := s.clock + ms, time := s.time + 1))
    case Check => StepCheck(s)
    case Register => StepRegister(s)
    case Recheck(w) => StepRecheck(s, w)
    case Rejoin => StepRejoin(s)
    case CrashWaiter => if s.waiter == Over then None else Some(s.(waiter := Dead, time := s.time + 1))
    case Promote => StepPromote(s)
    case Recover => StepRecover(s)
    case Begin(w, mode, writes) => StepBegin(s, w, mode, writes)
    case _ => StepWaker(s, a)
  }

  function Run(init: State, acts: seq<Action>): Option<State> {
    if acts == [] then Some(init)
    else
      var before := Run(init, acts[..|acts| - 1]);
      if before.None? then None else Step(before.value, acts[|acts| - 1])
  }
}
