/**
Durable waits: Recv, GetEvent and Sleep. A workflow runs through a sequence of
waits, each decided by the answers to those before it. Any number of its
executions crash, suspend, wake early and start again, while messages and events
arrive and time passes. Every transaction is one step.
*/
module Messaging {
  import opened Base

  datatype Wait =
    | Recv(topic: string, timeout: nat)
    | GetEvent(key: string, timeout: nat)
    | Sleep(duration: nat)

  // A timeout remembers its wait, the clock, and how many messages had been sent
  // (or events set) when nothing was found.
  datatype Answer =
    | Got(message: nat)
    | Value(value: string)
    | TimedOut(wait: Wait, at: nat, seen: nat)
    | Nothing                       // an empty result that is not a timeout
    | Slept

  // The workflow, as far as its waits go.
  type Plan = seq<Answer> -> Wait

  datatype Message = Message(topic: string, body: string, stamp: nat)

  datatype Phase =
    | Idle
    | Listening                     // no checkpoint found
    | ToRecordDeadline              // nothing pending either
    | Waiting(deadline: nat)
    | Consuming(timedOut: bool)
    | Sleeping(deadline: nat)
    | Gone                          // crashed, suspended or cancelled

  // next: the next step ID.
  datatype Exec = Exec(answers: seq<Answer>, next: nat, phase: Phase)

  // results: checkpoints of recv and getEvent steps. deadlines: checkpoints of
  // sleep steps. consumed and takenBy: messages taken, in order, and by which
  // step. sets: the keys of all SetEvent calls, in order.
  datatype State = State(
    clock: nat,
    inbox: seq<Message>, consumed: seq<nat>, takenBy: map<nat, nat>,
    events: map<string, string>, sets: seq<string>,
    results: map<nat, Answer>, deadlines: map<nat, nat>,
    execs: map<nat, Exec>)

  datatype Action =
    | Tick(ms: nat)
    | Send(topic: string, body: string)
    | SetEvent(key: string, value: string)
    | Start(e: nat)
    | Leave(e: nat)
    | Begin(e: nat)
    | Probe(e: nat)
    | RecordDeadline(e: nat)
    | Notice(e: nat)
    | TimeOut(e: nat)
    | Consume(e: nat, message: Option<nat>)
    | Wake(e: nat)

  function Initial(): State {
    State(0, [], [], map[], map[], [], map[], map[], map[])
  }

  // Recv and GetEvent take an ID for themselves and one for their deadline.
  function Width(w: Wait): nat {
    if w.Sleep? then 1 else 2
  }

  function NextId(plan: Plan, answers: seq<Answer>): nat {
    if answers == [] then 0
    else
      var before := answers[..|answers| - 1];
      NextId(plan, before) + Width(plan(before))
  }

  predicate Unconsumed(s: State, topic: string, m: nat) {
    m < |s.inbox| && s.inbox[m].topic == topic && m !in s.takenBy
  }

  // The awaited row exists.
  predicate Pending(s: State, w: Wait) {
    match w
    case Recv(topic, _) => exists m: nat | m < |s.inbox| :: Unconsumed(s, topic, m)
    case GetEvent(key, _) => key in s.events
    case Sleep(_) => false
  }

  predicate Oldest(s: State, topic: string, m: nat) {
    Unconsumed(s, topic, m) && forall k: nat | k < |s.inbox| && Unconsumed(s, topic, k) ::
      s.inbox[m].stamp <= s.inbox[k].stamp
  }

  function Goto(s: State, e: nat, phase: Phase): State
    requires e in s.execs
  {
    s.(execs := s.execs[e := s.execs[e].(phase := phase)])
  }

  // The call returned: on to the next wait. Both IDs were taken up front.
  function Advance(s: State, e: nat, w: Wait, answer: Answer): State
    requires e in s.execs
  {
    var x := s.execs[e];
    s.(execs := s.execs[e := Exec(x.answers + [answer], x.next + Width(w), Idle)])
  }

  function StepBegin(s: State, e: nat, w: Wait): Option<State>
    requires e in s.execs
  {
    var x := s.execs[e];
    if !x.phase.Idle? then None
    else if w.Sleep? then
      var d := if x.next in s.deadlines then s.deadlines[x.next] else s.clock + w.duration;
      Some(Goto(s.(deadlines := s.deadlines[x.next := d]), e, Sleeping(d)))
    else if x.next in s.results then Some(Advance(s, e, w, s.results[x.next]))
    else Some(Goto(s, e, Listening))
  }

  function StepProbe(s: State, e: nat, w: Wait): Option<State>
    requires e in s.execs
  {
    if !s.execs[e].phase.Listening? then None
    else Some(Goto(s, e, if Pending(s, w) then Consuming(false) else ToRecordDeadline))
  }

  // The deadline is checkpointed once, under the second ID.
  function StepRecordDeadline(s: State, e: nat, w: Wait): Option<State>
    requires e in s.execs
  {
    var x := s.execs[e];
    if !x.phase.ToRecordDeadline? || w.Sleep? then None
    else
      var d := if x.next + 1 in s.deadlines then s.deadlines[x.next + 1] else s.clock + w.timeout;
      Some(Goto(s.(deadlines := s.deadlines[x.next + 1 := d]), e, Waiting(d)))
  }

  function StepNotice(s: State, e: nat, w: Wait): Option<State>
    requires e in s.execs
  {
    if !s.execs[e].phase.Waiting? || !Pending(s, w) then None else Some(Goto(s, e, Consuming(false)))
  }

  function StepTimeOut(s: State, e: nat): Option<State>
    requires e in s.execs
  {
    var x := s.execs[e];
    if !x.phase.Waiting? || s.clock < x.phase.deadline then None else Some(Goto(s, e, Consuming(true)))
  }

  function Found(s: State, w: Wait, timedOut: bool, message: Option<nat>): Answer {
    if w.GetEvent? && w.key in s.events then Value(s.events[w.key])
    else if w.Recv? && message.Some? then Got(message.value)
    else if timedOut then TimedOut(w, s.clock, if w.Recv? then |s.inbox| else |s.sets|)
    else Nothing
  }

  function Record(s: State, id: nat, answer: Answer): State {
    var s' := s.(results := s.results[id := answer]);
    if answer.Got? then s'.(consumed := s.consumed + [answer.message], takenBy := s.takenBy[answer.message := id])
      else s'
  }

  // Consume the oldest message, or read the event, and checkpoint, in one
  // transaction that first looks for a checkpoint. A message is given exactly when one is there.
  function StepConsume(s: State, e: nat, w: Wait, message: Option<nat>): Option<State>
    requires e in s.execs
  {
    var x := s.execs[e];
    if !x.phase.Consuming? || w.Sleep? then None
    else if x.next in s.results then Some(Advance(s, e, w, s.results[x.next]))
    else if w.Recv? && (if message.Some? then !Oldest(s, w.topic, message.value) else Pending(s, w)) then None
    else
      var answer := Found(s, w, x.phase.timedOut, message);
      Some(Advance(Record(s, x.next, answer), e, w, answer))
  }

  function StepWake(s: State, e: nat, w: Wait): Option<State>
    requires e in s.execs
  {
    var x := s.execs[e];
    if !x.phase.Sleeping? || s.clock < x.phase.deadline then None else Some(Advance(s, e, w, Slept))
  }

  function StepExec(plan: Plan, s: State, e: nat, a: Action): Option<State>
    requires e in s.execs
  {
    var w := plan(s.execs[e].answers);
    match a
    case Leave(_) => Some(Goto(s, e, Gone))
    case Begin(_) => StepBegin(s, e, w)
    case Probe(_) => StepProbe(s, e, w)
    case RecordDeadline(_) => StepRecordDeadline(s, e, w)
    case Notice(_) => StepNotice(s, e, w)
    case TimeOut(_) => StepTimeOut(s, e)
    case Consume(_, message) => StepConsume(s, e, w, message)
    case Wake(_) => StepWake(s, e, w)
    case _ => None
  }

  function Step(plan: Plan, s: State, a: Action): Option<State> {
    match a
    case Tick(ms) => Some(s.(clock := s.clock + ms))
    case Send(topic, body) => Some(s.(inbox := s.inbox + [Message(topic, body, s.clock)]))
    case SetEvent(key, value) => Some(s.(events := s.events[key := value], sets := s.sets + [key]))
    case Start(e) => if e in s.execs then None else Some(s.(execs := s.execs[e := Exec([], 0, Idle)]))
    case _ => if a.e in s.execs then StepExec(plan, s, a.e, a) else None
  }

  function Run(plan: Plan, acts: seq<Action>): Option<State> {
    if acts == [] then Some(Initial())
    else
      var before := Run(plan, acts[..|acts| - 1]);
      if before.None? then None else Step(plan, before.value, acts[|acts| - 1])
  }
}
