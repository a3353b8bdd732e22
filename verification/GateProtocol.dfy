/**
Whole runs of gates: executions that check, open, wait and receive, callers that
deliver and ignore, plain sends, and the workflow's end.
*/
module GateProtocol {
  import opened Base
  import Audience
  import opened Gates

  datatype Phase = Checking | Opening | Listening | Gone

  // step: the gate recv the execution is at.
  datatype Exec = Exec(step: nat, phase: Phase)

  // calls: committed DeliverToGate calls. stale: gates whose latest opening came
  // after the checkpoint of the recv it was for.
  datatype State = State(t: Tables, execs: map<nat, Exec>, calls: nat, stale: set<string>)

  // The name of the gate each recv waits on.
  type Plan = nat -> string

  datatype Action =
    | Start(e: nat)
    | Leave(e: nat)
    | Check(e: nat)
    | Open(e: nat, org: string, principals: seq<(string, string)>, expires: Option<nat>)
    | Receive(e: nat, answer: Answer)
    | Deliver(gate: string, caller: Audience.Caller, now: nat)
    | Ignore(d: nat)
    | PlainSend(gate: string)
    | SetLive(live: bool)

  function Initial(): State {
    State(Tables(true, true, "", map[], [], [], map[], map[]), map[], 0, {})
  }

  function At(s: State, e: nat, step: nat, phase: Phase): State {
    s.(execs := s.execs[e := Exec(step, phase)])
  }

  function StepOpen(plan: Plan, s: State, e: nat, g: Spec): Option<State>
    requires e in s.execs
  {
    var x := s.execs[e];
    if x.phase != Opening || g.name != plan(x.step) || !Distinct(g.principals) then None
    else
      var stale := if x.step in s.t.results then s.stale + {g.name} else s.stale - {g.name};
      Some(At(s.(t := Opened(s.t, x.step, g), stale := stale), e, x.step, Listening))
  }

  // A checkpoint already there is replayed, and the post-step close is not run.
  function StepReceive(plan: Plan, s: State, e: nat, answer: Answer): Option<State>
    requires e in s.execs
  {
    var x := s.execs[e];
    var gate := plan(x.step);
    if x.phase != Listening then None
    else if x.step in s.t.results then Some(At(s, e, x.step + 1, Checking))
    else if answer.Got? && (answer.message >= |s.t.messages| || s.t.messages[answer.message].gate != gate
      || answer.message in s.t.taken) then None
    else Some(At(s.(t := Received(s.t, gate, x.step, answer), stale := s.stale - {gate}), e, x.step + 1, Checking))
  }

  function StepExec(plan: Plan, s: State, e: nat, a: Action): Option<State>
    requires e in s.execs
  {
    var x := s.execs[e];
    match a
    case Leave(_) => if x.phase == Gone then None else Some(At(s, e, x.step, Gone))
    case Check(_) =>
      if x.phase != Checking then None
      else if x.step in s.t.results then Some(At(s, e, x.step + 1, Checking))
      else Some(At(s, e, x.step, Opening))
    case Open(_, org, principals, expires) => StepOpen(plan, s, e, Spec(plan(x.step), org, principals, expires))
    case Receive(_, answer) => StepReceive(plan, s, e, answer)
    case _ => None
  }

  function Step(plan: Plan, s: State, a: Action): Option<State> {
    match a
    case Start(e) => if e in s.execs then None else Some(At(s, e, 0, Checking))
    case Deliver(gate, caller, now) =>
      Some(s.(t := AfterDelivery(s.t, gate, caller, Judge(s.t, gate, caller, now)), calls := s.calls + 1))
    case Ignore(d) => Some(s.(t := AfterIgnore(s.t, d)))
    case PlainSend(gate) => Some(s.(t := s.t.(messages := s.t.messages + [Message(gate, false)])))
    case SetLive(live) => Some(s.(t := s.t.(live := live)))
    case _ => if a.e in s.execs then StepExec(plan, s, a.e, a) else None
  }

  function Run(plan: Plan, acts: seq<Action>): Option<State> {
    if acts == [] then Some(Initial())
    else
      var before := Run(plan, acts[..|acts| - 1]);
      if before.None? then None else Step(plan, before.value, acts[|acts| - 1])
  }

  /******* The audit trail, over all runs *******/

  ghost predicate AuditOk(s: State) {
    Conserved(s.t) && |s.t.deliveries| == s.calls
  }

  lemma PlainSendConserves(t: Tables, gate: string)
    requires Conserved(t)
    ensures Conserved(t.(messages := t.messages + [Message(gate, false)]))
  {
    var t' := t.(messages := t.messages + [Message(gate, false)]);
    forall d: nat | d < |t'.deliveries| ensures RowOk(t', d) {
      assert RowOk(t, d);
    }
    forall m: nat | m < |t'.messages| ensures SignalOk(t', m) {
      SameSignals(t, t', m);
    }
  }

  lemma SameSignals(t: Tables, t': Tables, m: nat)
    requires Conserved(t) && t'.deliveries == t.deliveries && t.messages <= t'.messages && m < |t'.messages|
    requires m >= |t.messages| ==> !t'.messages[m].viaGate
    ensures SignalOk(t', m)
  {
    assert forall d: nat :: Signals(t', d, m) == Signals(t, d, m);
    if m < |t.messages| {
      assert SignalOk(t, m);
      if t.messages[m].viaGate {
        var d: nat :| Signals(t, d, m);
        assert Signals(t', d, m);
      }
    } else {
      forall d: nat ensures !Signals(t, d, m) {
        assert d < |t.deliveries| ==> RowOk(t, d);
      }
    }
  }

  // Steps that leave both tables alone.
  lemma SameTablesConserve(t: Tables, t': Tables)
    requires Conserved(t) && t'.deliveries == t.deliveries && t'.messages == t.messages
    ensures Conserved(t')
  {
    forall d: nat | d < |t'.deliveries| ensures RowOk(t', d) {
      assert RowOk(t, d);
    }
    forall m: nat | m < |t'.messages| ensures SignalOk(t', m) {
      SameSignals(t, t', m);
    }
  }

  lemma StepAudits(plan: Plan, s: State, a: Action)
    requires AuditOk(s) && Step(plan, s, a).Some?
    ensures AuditOk(Step(plan, s, a).value)
  {
    match a
    case Deliver(gate, caller, now) => DeliveryConserves(s.t, gate, caller, Judge(s.t, gate, caller, now));
    case Ignore(d) => IgnoreConserves(s.t, d);
    case PlainSend(gate) => PlainSendConserves(s.t, gate);
    case _ => SameTablesConserve(s.t, Step(plan, s, a).value.t);
  }

  // In every run, with any number of executions: one audit row per committed
  // delivery call, rejected rows signal nothing, and delivered or ignored rows
  // match gate messages one to one.
  lemma {:induction false} DeliveriesAreConserved(plan: Plan, acts: seq<Action>)
    requires Run(plan, acts).Some?
    ensures AuditOk(Run(plan, acts).value)
    decreases |acts|
  {
    if acts != [] {
      DeliveriesAreConserved(plan, acts[..|acts| - 1]);
      StepAudits(plan, Run(plan, acts[..|acts| - 1]).value, acts[|acts| - 1]);
    }
  }

  /******* The gate and the checkpoint *******/

  // A gate is open for a recv that is already over.
  predicate Diverged(s: State, gate: string) {
    gate in s.t.gates && s.t.gates[gate].gate.open && s.t.gates[gate].step in s.t.results
  }

  ghost predicate GateOk(plan: Plan, s: State, gate: string) {
    && (gate in s.t.gates ==> plan(s.t.gates[gate].step) == gate)
    && (gate in s.stale <==> Diverged(s, gate))
  }

  lemma StepGates(plan: Plan, s: State, a: Action, gate: string)
    requires GateOk(plan, s, gate) && Step(plan, s, a).Some?
    ensures GateOk(plan, Step(plan, s, a).value, gate)
  {
  }

  // In every run, a gate is open for a finished recv exactly when its latest
  // opening was by an execution that had checked before the checkpoint was there.
  lemma {:induction false} GatesDivergeIffStale(plan: Plan, acts: seq<Action>, gate: string)
    requires Run(plan, acts).Some?
    ensures GateOk(plan, Run(plan, acts).value, gate)
    decreases |acts|
  {
    if acts != [] {
      GatesDivergeIffStale(plan, acts[..|acts| - 1], gate);
      StepGates(plan, Run(plan, acts[..|acts| - 1]).value, acts[|acts| - 1], gate);
    }
  }

  predicate IsLive(s: State, e: nat) {
    e in s.execs && s.execs[e].phase != Gone
  }

  ghost predicate Idle(s: State) {
    forall e :: !IsLive(s, e)
  }

  ghost predicate Sequential(plan: Plan, acts: seq<Action>) {
    if acts == [] then true
    else
      && Sequential(plan, acts[..|acts| - 1])
      && Run(plan, acts).Some?
      && (acts[|acts| - 1].Start? ==> Idle(Run(plan, acts[..|acts| - 1]).value))
  }

  // Only one execution is live, it has not been overtaken, and nothing is stale.
  ghost predicate SoloInv(s: State) {
    && (forall e, f | IsLive(s, e) && IsLive(s, f) :: e == f)
    && (forall e | IsLive(s, e) && s.execs[e].phase != Checking :: s.execs[e].step !in s.t.results)
    && s.stale == {}
  }

  lemma SoloStep(plan: Plan, s: State, a: Action)
    requires SoloInv(s) && Step(plan, s, a).Some? && (a.Start? ==> Idle(s))
    ensures SoloInv(Step(plan, s, a).value)
  {
    var s' := Step(plan, s, a).value;
    forall e | IsLive(s', e) ensures IsLive(s, e) || (a.Start? && e == a.e) {
    }
    assert forall name :: name !in s'.stale;
    if a.Start? || a.Leave? || a.Check? || a.Open? || a.Receive? {
      forall e | IsLive(s', e) ensures e == a.e {
        assert a.Start? || IsLive(s, a.e);
      }
    }
  }

  lemma {:induction false} SequentialKeeps(plan: Plan, acts: seq<Action>)
    requires Sequential(plan, acts)
    ensures Run(plan, acts).Some? && SoloInv(Run(plan, acts).value)
    decreases |acts|
  {
    if acts != [] {
      SequentialKeeps(plan, acts[..|acts| - 1]);
      SoloStep(plan, Run(plan, acts[..|acts| - 1]).value, acts[|acts| - 1]);
    }
  }

  // With one live execution at a time, a gate open for a recv implies that the
  // recv has no checkpoint: the commit that checkpoints it closes the gate, on a
  // message and on a timeout alike.
  lemma GatesInLockstep(plan: Plan, acts: seq<Action>, gate: string)
    requires Sequential(plan, acts)
    requires gate in Run(plan, acts).value.t.gates && Run(plan, acts).value.t.gates[gate].gate.open
    ensures Run(plan, acts).value.t.gates[gate].step !in Run(plan, acts).value.t.results
  {
    SequentialKeeps(plan, acts);
    GatesDivergeIffStale(plan, acts, gate);
  }

  /******* With two executions *******/

  // One step further along a run that ends in s.
  lemma Then(plan: Plan, acts: seq<Action>, s: State, a: Action) returns (more: seq<Action>, s': State)
    requires Run(plan, acts) == Some(s) && Step(plan, s, a).Some?
    ensures Run(plan, more) == Some(s') && Step(plan, s, a) == Some(s')
  {
    more, s' := acts + [a], Step(plan, s, a).value;
    assert more[..|acts|] == acts;
  }

  // A slower execution that checked early opens the gate again after the faster
  // one has closed it; its own receive then finds the checkpoint and closes nothing.
  lemma StaleOpening(plan: Plan) returns (acts: seq<Action>)
    ensures Run(plan, acts).Some? && Diverged(Run(plan, acts).value, plan(0))
    ensures forall e | e in Run(plan, acts).value.execs :: Run(plan, acts).value.execs[e] == Exec(1, Checking)
  {
    var s;
    acts, s := Then(plan, [], Initial(), Start(0));
    acts, s := Then(plan, acts, s, Start(1));
    acts, s := Then(plan, acts, s, Check(0));
    acts, s := Then(plan, acts, s, Check(1));
    var open := Open(0, "", [], None);
    acts, s := Then(plan, acts, s, open);
    acts, s := Then(plan, acts, s, Receive(0, TimedOut));
    var again := Open(1, "", [], None);
    acts, s := Then(plan, acts, s, again);
    acts, s := Then(plan, acts, s, Receive(1, TimedOut));
  }
}
