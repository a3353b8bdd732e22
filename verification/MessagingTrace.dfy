/**
What a run of the durable waits holds, told from its actions: the clock, the inbox and
the events, which call fixed each deadline and at what time, and what each answer is.
*/
module MessagingTrace {
  import opened Base
  import opened Messaging
  import opened MessagingProofs

  /******* The world *******/

  function Clock(acts: seq<Action>): nat {
    if acts == [] then 0
    else
      var a := acts[|acts| - 1];
      Clock(acts[..|acts| - 1]) + if a.Tick? then a.ms else 0
  }

  // The messages sent, in order, each stamped with its time.
  function Sent(acts: seq<Action>): seq<Message> {
    if acts == [] then []
    else
      var before, a := acts[..|acts| - 1], acts[|acts| - 1];
      if a.Send? then Sent(before) + [Message(a.topic, a.body, Clock(before))] else Sent(before)
  }

  // The value an event was last set to.
  function LastSet(acts: seq<Action>, key: string): Option<string> {
    if acts == [] then None
    else
      var a := acts[|acts| - 1];
      if a.SetEvent? && a.key == key then Some(a.value) else LastSet(acts[..|acts| - 1], key)
  }

  function EventOf(s: State, key: string): Option<string> {
    if key in s.events then Some(s.events[key]) else None
  }

  function KeysSet(acts: seq<Action>): seq<string> {
    if acts == [] then []
    else
      var a := acts[|acts| - 1];
      KeysSet(acts[..|acts| - 1]) + if a.SetEvent? then [a.key] else []
  }

  lemma WorldMoves(plan: Plan, s: State, a: Action)
    requires Step(plan, s, a).Some?
    ensures var s' := Step(plan, s, a).value;
            && s'.clock == s.clock + (if a.Tick? then a.ms else 0)
            && s'.inbox == s.inbox + (if a.Send? then [Message(a.topic, a.body, s.clock)] else [])
            && s'.sets == s.sets + (if a.SetEvent? then [a.key] else [])
            && forall key :: EventOf(s', key) == if a.SetEvent? && a.key == key then Some(a.value) else EventOf(s, key)
  {
  }

  // The clock, the inbox and the events are what the actions made them.
  lemma {:induction false} WorldIsTrace(plan: Plan, acts: seq<Action>)
    requires Run(plan, acts).Some?
    ensures var s := Run(plan, acts).value;
            && s.clock == Clock(acts) && s.inbox == Sent(acts) && s.sets == KeysSet(acts)
            && forall key :: EventOf(s, key) == LastSet(acts, key)
    decreases |acts|
  {
    if acts != [] {
      WorldIsTrace(plan, acts[..|acts| - 1]);
      WorldMoves(plan, Run(plan, acts[..|acts| - 1]).value, acts[|acts| - 1]);
    }
  }

  /******* Positions *******/

  lemma ExecMoves(plan: Plan, s: State, a: Action, e: nat)
    requires Step(plan, s, a).Some? && e in s.execs
    ensures e in Step(plan, s, a).value.execs && s.execs[e].answers <= Step(plan, s, a).value.execs[e].answers
  {
    if !a.Tick? && !a.Send? && !a.SetEvent? && !a.Start? {
      MoverMoves(plan, s, a.e, a);
    }
  }

  lemma MoverMoves(plan: Plan, s: State, e: nat, a: Action)
    requires e in s.execs && StepExec(plan, s, e, a).Some?
    ensures var s' := StepExec(plan, s, e, a).value;
            && e in s'.execs && s'.execs == s.execs[e := s'.execs[e]]
            && s.execs[e].answers <= s'.execs[e].answers
  {
  }

  lemma {:induction false} AnswersGrow(plan: Plan, acts: seq<Action>, n: nat, e: nat)
    requires n <= |acts| && Run(plan, acts).Some? && Run(plan, acts[..n]).Some?
    requires e in Run(plan, acts[..n]).value.execs
    ensures e in Run(plan, acts).value.execs
    ensures Run(plan, acts[..n]).value.execs[e].answers <= Run(plan, acts).value.execs[e].answers
    decreases |acts|
  {
    if n == |acts| {
      assert acts[..n] == acts;
    } else {
      var before := acts[..|acts| - 1];
      assert before[..n] == acts[..n];
      AnswersGrow(plan, before, n, e);
      ExecMoves(plan, Run(plan, before).value, acts[|acts| - 1], e);
    }
  }

  // Before acts[n], its execution stands after these answers.
  ghost predicate StandsAt(plan: Plan, acts: seq<Action>, n: nat, answers: seq<Answer>) {
    && n < |acts| && Run(plan, acts[..n]).Some?
    && (acts[n].Begin? || acts[n].RecordDeadline? || acts[n].Consume?)
    && acts[n].e in Run(plan, acts[..n]).value.execs
    && Run(plan, acts[..n]).value.execs[acts[n].e].answers == answers
  }

  lemma StandsStill(plan: Plan, acts: seq<Action>, a: Action, n: nat, answers: seq<Answer>)
    requires StandsAt(plan, acts, n, answers)
    ensures StandsAt(plan, acts + [a], n, answers) && (acts + [a])[n] == acts[n] && (acts + [a])[..n] == acts[..n]
  {
    assert (acts + [a])[..n] == acts[..n];
  }

  // The IDs of a wait lie before those of every later one.
  lemma {:induction false} IdsGrow(plan: Plan, a: seq<Answer>, b: seq<Answer>)
    requires a < b
    ensures NextId(plan, a) + Width(plan(a)) <= NextId(plan, b)
    decreases |b|
  {
    var c := b[..|b| - 1];
    if a != c {
      assert a < c;
      IdsGrow(plan, a, c);
    }
  }

  // A Sleep has one ID and a Recv or GetEvent two.
  lemma {:induction false} IdsAreCounted(plan: Plan, answers: seq<Answer>)
    ensures NextId(plan, answers) == |answers| + Receives(plan, answers)
    decreases |answers|
  {
    if answers != [] {
      IdsAreCounted(plan, answers[..|answers| - 1]);
    }
  }

  // How many of the waits passed were for a message or an event.
  function Receives(plan: Plan, answers: seq<Answer>): nat {
    if answers == [] then 0
    else
      var before := answers[..|answers| - 1];
      Receives(plan, before) + if plan(before).Recv? || plan(before).GetEvent? then 1 else 0
  }

  // Whoever stood where, the places lie on one path.
  lemma OnePath(plan: Plan, acts: seq<Action>, n: nat, a: seq<Answer>, e: nat, i: nat)
    requires Run(plan, acts).Some? && StandsAt(plan, acts, n, a) && e in Run(plan, acts).value.execs
    requires i <= |Run(plan, acts).value.execs[e].answers|
    ensures Comparable(a, Run(plan, acts).value.execs[e].answers[..i])
  {
    var f := acts[n].e;
    AnswersGrow(plan, acts, n, f);
    OneStory(plan, acts, e, f);
    var x, y := Run(plan, acts).value.execs[e].answers, Run(plan, acts).value.execs[f].answers;
    assert a <= y;
    Prefixes(a, x, y, i);
  }

  lemma Prefixes(a: seq<Answer>, x: seq<Answer>, y: seq<Answer>, i: nat)
    requires a <= y && Comparable(x, y) && i <= |x|
    ensures Comparable(a, x[..i])
  {
    if |a| <= i {
      assert a == x[..i][..|a|];
    } else {
      assert x[..i] == a[..i];
    }
  }

  /******* Deadlines *******/

  // The call acts[n] fixed the deadline d: a Sleep its duration from then, a Recv or
  // GetEvent its timeout from then, under the ID after its own.
  ghost predicate FixedAt(plan: Plan, acts: seq<Action>, n: nat, answers: seq<Answer>, id: nat, d: nat) {
    && StandsAt(plan, acts, n, answers)
    && id !in Run(plan, acts[..n]).value.deadlines
    && var w := plan(answers);
       if w.Sleep? then acts[n].Begin? && id == NextId(plan, answers) && d == Clock(acts[..n]) + w.duration
       else acts[n].RecordDeadline? && id == NextId(plan, answers) + 1 && d == Clock(acts[..n]) + w.timeout
  }

  lemma DeadlineArises(plan: Plan, s: State, a: Action, id: nat)
    requires Step(plan, s, a).Some? && id !in s.deadlines && id in Step(plan, s, a).value.deadlines
    ensures (a.Begin? || a.RecordDeadline?) && a.e in s.execs
    ensures var x, w := s.execs[a.e], plan(s.execs[a.e].answers);
            Step(plan, s, a).value.deadlines[id] ==
              if w.Sleep? then s.clock + w.duration else s.clock + w.timeout
    ensures var x, w := s.execs[a.e], plan(s.execs[a.e].answers);
            if w.Sleep? then a.Begin? && id == x.next else a.RecordDeadline? && id == x.next + 1
  {
  }

  // Every recorded deadline was fixed by one call, the first of its wait to come that
  // far, at that call's own time.
  lemma {:induction false} DeadlinesAreFixedOnce(plan: Plan, acts: seq<Action>, id: nat)
    returns (n: nat, answers: seq<Answer>)
    requires Run(plan, acts).Some? && id in Run(plan, acts).value.deadlines
    ensures FixedAt(plan, acts, n, answers, id, Run(plan, acts).value.deadlines[id])
    decreases |acts|
  {
    var before, a := acts[..|acts| - 1], acts[|acts| - 1];
    var s := Run(plan, before).value;
    assert acts == before + [a];
    RunsKeep(plan, before);
    if id in s.deadlines {
      n, answers := DeadlinesAreFixedOnce(plan, before, id);
      StandsStill(plan, before, a, n, answers);
      StepKeeps(plan, s, a);
    } else {
      DeadlineArises(plan, s, a, id);
      n, answers := |before|, s.execs[a.e].answers;
      assert ExecOk(plan, s, a.e);
      WorldIsTrace(plan, before);
      assert acts[..n] == before;
    }
  }

  // No execution is past a Sleep before that sleep was first begun, by whichever
  // execution, and its whole duration has gone by since.
  lemma SleepsLastTheirDuration(plan: Plan, acts: seq<Action>, e: nat, i: nat) returns (n: nat)
    requires Run(plan, acts).Some? && e in Run(plan, acts).value.execs
    requires var x := Run(plan, acts).value.execs[e]; i < |x.answers| && plan(x.answers[..i]).Sleep?
    ensures var answers := Run(plan, acts).value.execs[e].answers[..i];
            && StandsAt(plan, acts, n, answers) && acts[n].Begin?
            && NextId(plan, answers) !in Run(plan, acts[..n]).value.deadlines
            && Clock(acts[..n]) + plan(answers).duration <= Clock(acts)
  {
    var s := Run(plan, acts).value;
    var answers := s.execs[e].answers[..i];
    var id := NextId(plan, answers);
    SleepsLastUntilDeadline(plan, acts, e, i);
    var there;
    n, there := DeadlinesAreFixedOnce(plan, acts, id);
    OnePath(plan, acts, n, there, e, i);
    SamePlace(plan, there, answers, id);
    WorldIsTrace(plan, acts);
  }

  // Only the wait at answers has the ID of its sleep.
  lemma SamePlace(plan: Plan, a: seq<Answer>, b: seq<Answer>, id: nat)
    requires Comparable(a, b) && plan(b).Sleep? && id == NextId(plan, b)
    requires id == NextId(plan, a) + if plan(a).Sleep? then 0 else 1
    ensures a == b
  {
    if a < b { IdsGrow(plan, a, b); } else if b < a { IdsGrow(plan, b, a); }
  }

  /******* Answers *******/

  // acts[n] settled the wait at answers under id: with the oldest unconsumed message
  // of its topic, the value its event had last been set to, or a timeout.
  ghost predicate SettledAt(plan: Plan, acts: seq<Action>, n: nat, answers: seq<Answer>, id: nat, r: Answer) {
    && StandsAt(plan, acts, n, answers) && acts[n].Consume? && id == NextId(plan, answers)
    && id !in Run(plan, acts[..n]).value.results
    && var s, w := Run(plan, acts[..n]).value, plan(answers);
       match r
       case Got(m) =>
         && w.Recv? && m < |Sent(acts[..n])| && Sent(acts[..n])[m].topic == w.topic && m !in s.takenBy
         && forall k: nat | k < |Sent(acts[..n])| && Sent(acts[..n])[k].topic == w.topic && k !in s.takenBy ::
              Sent(acts[..n])[m].stamp <= Sent(acts[..n])[k].stamp
       case Value(v) => w.GetEvent? && LastSet(acts[..n], w.key) == Some(v)
       case TimedOut(wait, at, _) =>
         && !w.Sleep? && wait == w && at == Clock(acts[..n])
         && (w.Recv? ==> forall k: nat | k < |Sent(acts[..n])| && Sent(acts[..n])[k].topic == w.topic :: k in s.takenBy)
         && (w.GetEvent? ==> LastSet(acts[..n], w.key).None?)
       case _ => false
  }

  lemma ResultArises(plan: Plan, s: State, a: Action, id: nat)
    requires Inv(plan, s) && Step(plan, s, a).Some? && id !in s.results && id in Step(plan, s, a).value.results
    ensures a.Consume? && a.e in s.execs && id == s.execs[a.e].next && !plan(s.execs[a.e].answers).Sleep?
    ensures var w, r := plan(s.execs[a.e].answers), Step(plan, s, a).value.results[id];
            && !r.Nothing? && !r.Slept?
            && (r.Got? <==> w.Recv? && Pending(s, w)) && (r.Got? ==> Oldest(s, w.topic, r.message))
            && (r.Value? <==> w.GetEvent? && Pending(s, w)) && (r.Value? ==> EventOf(s, w.key) == Some(r.value))
            && (r.TimedOut? ==> r.wait == w && r.at == s.clock && !Pending(s, w))
  {
    assert ExecOk(plan, s, a.e);
  }

  // Every recorded answer is the one its first consuming transaction found: what had
  // been sent or set by then, or a timeout because there was nothing.
  lemma {:induction false} AnswersAreWhatWasThere(plan: Plan, acts: seq<Action>, id: nat)
    returns (n: nat, answers: seq<Answer>)
    requires Run(plan, acts).Some? && id in Run(plan, acts).value.results
    ensures SettledAt(plan, acts, n, answers, id, Run(plan, acts).value.results[id])
    decreases |acts|
  {
    var before, a := acts[..|acts| - 1], acts[|acts| - 1];
    var s := Run(plan, before).value;
    assert acts == before + [a];
    RunsKeep(plan, before);
    if id in s.results {
      n, answers := AnswersAreWhatWasThere(plan, before, id);
      StandsStill(plan, before, a, n, answers);
      StepKeeps(plan, s, a);
    } else {
      ResultArises(plan, s, a, id);
      n, answers := |before|, s.execs[a.e].answers;
      assert ExecOk(plan, s, a.e);
      assert acts[..n] == before;
      SettlesHere(plan, before, a, id);
    }
  }

  lemma SettlesHere(plan: Plan, before: seq<Action>, a: Action, id: nat)
    requires Run(plan, before).Some? && Inv(plan, Run(plan, before).value)
    requires Step(plan, Run(plan, before).value, a).Some? && id !in Run(plan, before).value.results
    requires id in Step(plan, Run(plan, before).value, a).value.results
    ensures a.Consume? && a.e in Run(plan, before).value.execs
    ensures SettledAt(plan, before + [a], |before|, Run(plan, before).value.execs[a.e].answers, id,
                      Step(plan, Run(plan, before).value, a).value.results[id])
  {
    var s := Run(plan, before).value;
    ResultArises(plan, s, a, id);
    WorldIsTrace(plan, before);
    assert ExecOk(plan, s, a.e);
    assert (before + [a])[..|before|] == before;
    var w, r := plan(s.execs[a.e].answers), Step(plan, s, a).value.results[id];
    if w.Recv? {
      assert forall k: nat | k < |s.inbox| && s.inbox[k].topic == w.topic && k !in s.takenBy ::
          Unconsumed(s, w.topic, k);
    } else {
      assert EventOf(s, w.key) == LastSet(before, w.key);
    }
  }

  // No wait is recorded as timed out before its deadline was first recorded, by
  // whichever execution, and its whole timeout has gone by since.
  lemma TimeoutsLastTheirTimeout(plan: Plan, acts: seq<Action>, id: nat) returns (m: nat, n: nat, answers: seq<Answer>)
    requires Run(plan, acts).Some? && id in Run(plan, acts).value.results && Run(plan, acts).value.results[id].TimedOut?
    ensures var r := Run(plan, acts).value.results[id];
            && SettledAt(plan, acts, n, answers, id, r) && r.wait == plan(answers)
            && StandsAt(plan, acts, m, answers) && acts[m].RecordDeadline?
            && id + 1 !in Run(plan, acts[..m]).value.deadlines
            && Clock(acts[..m]) + r.wait.timeout <= r.at == Clock(acts[..n])
  {
    n, answers := AnswersAreWhatWasThere(plan, acts, id);
    TimeoutsAreEarned(plan, acts, id);
    var there;
    m, there := DeadlinesAreFixedOnce(plan, acts, id + 1);
    var e := acts[n].e;
    AnswersGrow(plan, acts, n, e);
    var x := Run(plan, acts).value.execs[e].answers;
    assert x[..|answers|] == answers;
    OnePath(plan, acts, m, there, e, |answers|);
    SameWaiting(plan, there, answers, id);
  }

  lemma SameWaiting(plan: Plan, a: seq<Answer>, b: seq<Answer>, id: nat)
    requires Comparable(a, b) && !plan(b).Sleep? && id == NextId(plan, b)
    requires id + 1 == NextId(plan, a) + if plan(a).Sleep? then 0 else 1
    ensures a == b
  {
    if a < b { IdsGrow(plan, a, b); } else if b < a { IdsGrow(plan, b, a); }
  }

  /******* What a wait can do *******/

  // One step further along a run that ends in s.
  lemma Then(plan: Plan, acts: seq<Action>, s: State, a: Action) returns (more: seq<Action>, s': State)
    requires Run(plan, acts) == Some(s) && Step(plan, s, a).Some?
    ensures Run(plan, more) == Some(s') && Step(plan, s, a) == Some(s') && more == acts + [a]
  {
    more, s' := acts + [a], Step(plan, s, a).value;
    assert more[..|acts|] == acts;
  }

  ghost predicate Reached(plan: Plan, acts: seq<Action>, s: State, e: nat, phase: Phase) {
    Run(plan, acts) == Some(s) && e in s.execs && s.execs[e].phase == phase
  }

  // What a consuming execution may name.
  lemma PickOldest(s: State, w: Wait) returns (message: Option<nat>)
    ensures w.Recv? && Pending(s, w) ==> message.Some? && Oldest(s, w.topic, message.value)
    ensures !(w.Recv? && Pending(s, w)) ==> message == None
  {
    message := None;
    if w.Recv? && Pending(s, w) {
      var m: nat :| m < |s.inbox| && Unconsumed(s, w.topic, m);
      message := Some(OldestFrom(s, w.topic, m, |s.inbox|));
    }
  }

  function OldestFrom(s: State, topic: string, m: nat, n: nat): nat
    requires Unconsumed(s, topic, m) && n <= |s.inbox|
    ensures Unconsumed(s, topic, OldestFrom(s, topic, m, n))
    ensures forall k: nat | k < n && Unconsumed(s, topic, k) ::
              s.inbox[OldestFrom(s, topic, m, n)].stamp <= s.inbox[k].stamp
    decreases n
  {
    if n == 0 then m
    else
      var best := OldestFrom(s, topic, m, n - 1);
      if Unconsumed(s, topic, n - 1) && s.inbox[n - 1].stamp < s.inbox[best].stamp then n - 1 else best
  }

  // A wait that finds what it waits for takes it at once and records no deadline.
  lemma FoundIsTakenAtOnce(plan: Plan, acts: seq<Action>, s: State, e: nat) returns (more: seq<Action>, s': State)
    requires Reached(plan, acts, s, e, Idle) && !plan(s.execs[e].answers).Sleep?
    requires Pending(s, plan(s.execs[e].answers)) && s.execs[e].next !in s.results
    ensures Reached(plan, more, s', e, Idle) && s'.deadlines == s.deadlines && s'.clock == s.clock
    ensures s.execs[e].next in s'.results && !s'.results[s.execs[e].next].TimedOut?
    ensures s'.execs[e].answers == s.execs[e].answers + [s'.results[s.execs[e].next]]
  {
    var w := plan(s.execs[e].answers);
    var message := PickOldest(s, w);
    more, s' := Then(plan, acts, s, Begin(e));
    SameBox(s, s', w);
    more, s' := Then(plan, more, s', Probe(e));
    SameBox(s, s', w);
    more, s' := ConsumeEnds(plan, more, s', e, message);
  }

  // The consuming transaction goes through and settles the wait.
  lemma ConsumeEnds(plan: Plan, acts: seq<Action>, s: State, e: nat, message: Option<nat>)
    returns (more: seq<Action>, s': State)
    requires Run(plan, acts) == Some(s) && e in s.execs && s.execs[e].phase.Consuming?
    requires var w := plan(s.execs[e].answers);
             !w.Sleep? && (w.Recv? ==> if message.Some? then Oldest(s, w.topic, message.value) else !Pending(s, w))
    requires s.execs[e].next !in s.results
    ensures Reached(plan, more, s', e, Idle) && s'.deadlines == s.deadlines && s'.clock == s.clock
    ensures s.execs[e].next in s'.results
    ensures s'.results[s.execs[e].next].TimedOut? <==> !Pending(s, plan(s.execs[e].answers))
    ensures s'.execs[e].answers == s.execs[e].answers + [s'.results[s.execs[e].next]]
  {
    RunsKeep(plan, acts);
    more, s' := Then(plan, acts, s, Consume(e, message));
    SettlesWithWhatIsThere(plan, acts, e, message);
  }

  // A wait with a recorded deadline ends: at once if there is something for it, and
  // otherwise with a timeout as soon as the deadline has come.
  lemma WaitsCanEnd(plan: Plan, acts: seq<Action>, s: State, e: nat, d: nat) returns (more: seq<Action>, s': State)
    requires Reached(plan, acts, s, e, Waiting(d)) && s.execs[e].next !in s.results
    ensures Reached(plan, more, s', e, Idle) && s.execs[e].next in s'.results
    ensures s'.execs[e].answers == s.execs[e].answers + [s'.results[s.execs[e].next]]
    ensures var found := Pending(s, plan(s.execs[e].answers));
            && (s'.results[s.execs[e].next].TimedOut? <==> !found)
            && s'.clock == if found || d < s.clock then s.clock else d
  {
    var w := plan(s.execs[e].answers);
    RunsKeep(plan, acts);
    assert ExecOk(plan, s, e);
    var message := PickOldest(s, w);
    if Pending(s, w) {
      more, s' := Then(plan, acts, s, Notice(e));
    } else {
      more, s' := Then(plan, acts, s, Tick(if d < s.clock then 0 else d - s.clock));
      more, s' := Then(plan, more, s', TimeOut(e));
    }
    SameBox(s, s', w);
    more, s' := ConsumeEnds(plan, more, s', e, message);
  }

  // So does a sleep.
  lemma SleepsCanEnd(plan: Plan, acts: seq<Action>, s: State, e: nat, d: nat) returns (more: seq<Action>, s': State)
    requires Reached(plan, acts, s, e, Sleeping(d))
    ensures Reached(plan, more, s', e, Idle) && s'.execs[e].answers == s.execs[e].answers + [Slept]
    ensures s'.clock == if d < s.clock then s.clock else d
  {
    more, s' := Then(plan, acts, s, Tick(if d < s.clock then 0 else d - s.clock));
    more, s' := Then(plan, more, s', Wake(e));
  }

  // A wait whose answer is recorded gives it back at once: nothing is waited for and no
  // deadline is recorded.
  lemma RecordedIsReplayedAtOnce(plan: Plan, s: State, e: nat)
    requires e in s.execs && s.execs[e].phase.Idle? && s.execs[e].next in s.results
    requires !plan(s.execs[e].answers).Sleep?
    ensures Step(plan, s, Begin(e)).Some?
    ensures var s', x := Step(plan, s, Begin(e)).value, s.execs[e];
            && s'.execs == s.execs[e := Exec(x.answers + [s.results[x.next]], x.next + 2, Idle)]
            && s'.results == s.results && s'.deadlines == s.deadlines && s'.takenBy == s.takenBy
  {
  }

  // A wait that finds nothing comes to wait for the deadline it or an earlier
  // execution recorded, and a sleep likewise.
  lemma WaitsCanBegin(plan: Plan, acts: seq<Action>, s: State, e: nat) returns (more: seq<Action>, s': State)
    requires Reached(plan, acts, s, e, Idle) && s.execs[e].next !in s.results
    requires plan(s.execs[e].answers).Sleep? || !Pending(s, plan(s.execs[e].answers))
    ensures Run(plan, more) == Some(s') && e in s'.execs && s'.execs[e].answers == s.execs[e].answers
    ensures var w, id := plan(s.execs[e].answers), s.execs[e].next;
            if w.Sleep? then
              s'.execs[e].phase == Sleeping(if id in s.deadlines then s.deadlines[id] else s.clock + w.duration)
            else
              s'.execs[e].phase == Waiting(if id + 1 in s.deadlines then s.deadlines[id + 1] else s.clock + w.timeout)
  {
    var w := plan(s.execs[e].answers);
    more, s' := Then(plan, acts, s, Begin(e));
    SameBox(s, s', w);
    if !w.Sleep? {
      more, s' := Then(plan, more, s', Probe(e));
      SameBox(s, s', w);
      more, s' := Then(plan, more, s', RecordDeadline(e));
    }
  }

  // An execution that has left does nothing any more, and another can start.
  lemma LeftIsOver(plan: Plan, s: State, e: nat, a: Action)
    requires e in s.execs
    ensures Step(plan, s, Leave(e)).Some? && Step(plan, s, Leave(e)).value.execs[e].phase == Gone
    ensures s.execs[e].phase == Gone && Step(plan, s, a).Some? ==>
              e in Step(plan, s, a).value.execs && Step(plan, s, a).value.execs[e] == s.execs[e]
    ensures forall f | f !in s.execs ::
              Step(plan, s, Start(f)) == Some(s.(execs := s.execs[f := Exec([], 0, Idle)]))
  {
    if s.execs[e].phase == Gone && Step(plan, s, a).Some? && !a.Tick? && !a.Send? && !a.SetEvent? && !a.Start? {
      MoverMoves(plan, s, a.e, a);
      if a.e == e { GoneStays(plan, s, e, a); }
    }
  }

  lemma GoneStays(plan: Plan, s: State, e: nat, a: Action)
    requires e in s.execs && s.execs[e].phase == Gone && StepExec(plan, s, e, a).Some?
    ensures StepExec(plan, s, e, a).value.execs[e] == s.execs[e]
  {
  }

  lemma SameBox(s: State, s': State, w: Wait)
    requires s'.inbox == s.inbox && s'.takenBy == s.takenBy && s'.events == s.events
    ensures Pending(s', w) == Pending(s, w)
    ensures forall topic, m: nat :: Oldest(s', topic, m) == Oldest(s, topic, m)
  {
    assert forall topic, m: nat :: Unconsumed(s', topic, m) == Unconsumed(s, topic, m);
  }

  // When each action is possible: the world never waits, and an execution takes the
  // steps of its wait in order, each only once what it waits for has come.
  ghost predicate CanTake(plan: Plan, s: State, a: Action) {
    if a.Tick? || a.Send? || a.SetEvent? then true
    else if a.Start? then a.e !in s.execs
    else
      a.e in s.execs &&
      var x, w := s.execs[a.e], plan(s.execs[a.e].answers);
      match a
      case Leave(_) => true
      case Begin(_) => x.phase.Idle?
      case Probe(_) => x.phase.Listening?
      case RecordDeadline(_) => x.phase.ToRecordDeadline? && !w.Sleep?
      case Notice(_) => x.phase.Waiting? && Pending(s, w)
      case TimeOut(_) => x.phase.Waiting? && s.clock >= x.phase.deadline
      case Consume(_, message) =>
        && x.phase.Consuming? && !w.Sleep?
        && (x.next in s.results || w.GetEvent?
            || (if message.Some? then Oldest(s, w.topic, message.value) else !Pending(s, w)))
      case Wake(_) => x.phase.Sleeping? && s.clock >= x.phase.deadline
      case _ => true
  }

  lemma StepsWhenPossible(plan: Plan, s: State, a: Action)
    ensures Step(plan, s, a).Some? <==> CanTake(plan, s, a)
  {
  }
}
