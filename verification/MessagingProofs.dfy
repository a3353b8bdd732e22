/** What every run of the durable waits keeps. */
module MessagingProofs {
  import opened Base
  import opened Messaging

  /******* The invariant *******/

  // Position i of a history: where its wait sits in the ID space, and the rows
  // that vouch for its answer.
  ghost predicate Passed(plan: Plan, s: State, answers: seq<Answer>, i: nat)
    requires i < |answers|
  {
    var id := NextId(plan, answers[..i]);
    if plan(answers[..i]).Sleep? then answers[i] == Slept && id in s.deadlines && s.deadlines[id] <= s.clock
    else id in s.results && s.results[id] == answers[i]
  }

  ghost predicate PathOk(plan: Plan, s: State, x: Exec) {
    && x.next == NextId(plan, x.answers)
    && forall i: nat | i < |x.answers| :: Passed(plan, s, x.answers, i)
  }

  ghost predicate PhaseOk(s: State, w: Wait, x: Exec) {
    match x.phase
    case Sleeping(d) => w.Sleep? && x.next in s.deadlines && s.deadlines[x.next] == d
    case Waiting(d) => !w.Sleep? && x.next + 1 in s.deadlines && s.deadlines[x.next + 1] == d
    case Consuming(timedOut) =>
      && !w.Sleep?
      && if timedOut then x.next + 1 in s.deadlines && s.deadlines[x.next + 1] <= s.clock
         else x.next !in s.results ==> Pending(s, w)
    case Listening => !w.Sleep?
    case ToRecordDeadline => !w.Sleep?
    case _ => true
  }

  ghost predicate ExecOk(plan: Plan, s: State, e: nat) {
    e in s.execs ==> PathOk(plan, s, s.execs[e]) && PhaseOk(s, plan(s.execs[e].answers), s.execs[e])
  }

  // A timeout was recorded after its deadline, when everything sent on its topic
  // so far had been taken by other steps, or its event had never been set.
  ghost predicate TimeoutOk(s: State, id: nat, w: Wait, at: nat, seen: nat) {
    && id + 1 in s.deadlines && s.deadlines[id + 1] <= at <= s.clock
    && (w.Recv? ==> seen <= |s.inbox| && forall m: nat | m < seen :: TakenByOther(s, w.topic, m, id))
    && (w.GetEvent? ==> seen <= |s.sets| && w.key !in s.sets[..seen])
  }

  ghost predicate TakenByOther(s: State, topic: string, m: nat, id: nat)
    requires m < |s.inbox|
  {
    s.inbox[m].topic == topic ==> m in s.takenBy && s.takenBy[m] != id
  }

  ghost predicate ResultOk(s: State, id: nat) {
    id in s.results ==>
      match s.results[id]
      case Got(m) => m in s.takenBy && s.takenBy[m] == id
      case TimedOut(w, at, seen) => TimeoutOk(s, id, w, at, seen)
      case Value(_) => true
      case Nothing => false
      case Slept => false
  }

  // A message is taken by the one step whose checkpoint holds it.
  ghost predicate MessageOk(s: State, m: nat) {
    && (m in s.takenBy ==> m < |s.inbox| && s.takenBy[m] in s.results && s.results[s.takenBy[m]] == Got(m))
    && (m in s.takenBy <==> m in s.consumed)
    && (m < |s.inbox| ==> s.inbox[m].stamp <= s.clock)
  }

  // Nothing taken is younger than anything of its topic still there.
  ghost predicate TakenFirst(s: State, m: nat, k: nat) {
    m in s.takenBy && m < |s.inbox| && Unconsumed(s, s.inbox[m].topic, k) ==> s.inbox[m].stamp <= s.inbox[k].stamp
  }

  ghost predicate InOrder(s: State, i: nat, j: nat) {
    i < j < |s.consumed| && s.consumed[i] < |s.inbox| && s.consumed[j] < |s.inbox|
    && s.inbox[s.consumed[i]].topic == s.inbox[s.consumed[j]].topic ==>
      s.inbox[s.consumed[i]].stamp <= s.inbox[s.consumed[j]].stamp
  }

  ghost predicate BoxOk(s: State) {
    && (forall m: nat :: MessageOk(s, m))
    && (forall m: nat, k: nat :: TakenFirst(s, m, k))
    && (forall i: nat, j: nat :: InOrder(s, i, j))
    && (forall key :: key in s.events <==> key in s.sets)
  }

  ghost predicate Inv(plan: Plan, s: State) {
    && BoxOk(s)
    && (forall id: nat :: ResultOk(s, id))
    && (forall e: nat :: ExecOk(plan, s, e))
  }

  /******* All executions walk one path *******/

  lemma {:induction false} PathsAgree(plan: Plan, s: State, x: Exec, y: Exec, n: nat)
    requires PathOk(plan, s, x) && PathOk(plan, s, y) && n <= |x.answers| && n <= |y.answers|
    ensures x.answers[..n] == y.answers[..n]
  {
    if n > 0 {
      PathsAgree(plan, s, x, y, n - 1);
      assert Passed(plan, s, x.answers, n - 1) && Passed(plan, s, y.answers, n - 1);
      assert x.answers[..n] == x.answers[..n - 1] + [x.answers[n - 1]];
      assert y.answers[..n] == y.answers[..n - 1] + [y.answers[n - 1]];
    }
  }

  // Two executions stopped at waits without a checkpoint are at the same one.
  lemma SameWait(plan: Plan, s: State, x: Exec, y: Exec)
    requires PathOk(plan, s, x) && PathOk(plan, s, y)
    requires !plan(x.answers).Sleep? && !plan(y.answers).Sleep?
    requires x.next !in s.results && y.next !in s.results
    ensures x.answers == y.answers
  {
    if |x.answers| < |y.answers| {
      BehindIsRecorded(plan, s, x, y);
    } else if |y.answers| < |x.answers| {
      BehindIsRecorded(plan, s, y, x);
    } else {
      PathsAgree(plan, s, x, y, |x.answers|);
      assert x.answers[..|x.answers|] == x.answers && y.answers[..|x.answers|] == y.answers;
    }
  }

  lemma BehindIsRecorded(plan: Plan, s: State, x: Exec, y: Exec)
    requires PathOk(plan, s, x) && PathOk(plan, s, y) && |x.answers| < |y.answers| && !plan(x.answers).Sleep?
    ensures x.next in s.results
  {
    PathsAgree(plan, s, x, y, |x.answers|);
    assert x.answers[..|x.answers|] == x.answers;
    assert Passed(plan, s, y.answers, |x.answers|);
  }

  /******* Every step keeps the invariant *******/

  // Rows only accumulate and the clock does not go back.
  ghost predicate Grows(s: State, s': State) {
    && s.clock <= s'.clock
    && (forall id | id in s.results :: id in s'.results && s'.results[id] == s.results[id])
    && (forall id | id in s.deadlines :: id in s'.deadlines && s'.deadlines[id] == s.deadlines[id])
  }

  lemma PathGrows(plan: Plan, s: State, s': State, x: Exec)
    requires Grows(s, s') && PathOk(plan, s, x)
    ensures PathOk(plan, s', x)
  {
    forall i: nat | i < |x.answers| ensures Passed(plan, s', x.answers, i) {
      assert Passed(plan, s, x.answers, i);
    }
  }

  // Passing wait w with answer extends a path.
  lemma PathExtends(plan: Plan, s: State, x: Exec, answer: Answer)
    requires PathOk(plan, s, x)
    requires if plan(x.answers).Sleep? then answer == Slept && x.next in s.deadlines && s.deadlines[x.next] <= s.clock
             else x.next in s.results && s.results[x.next] == answer
    ensures PathOk(plan, s, Exec(x.answers + [answer], x.next + Width(plan(x.answers)), Idle))
  {
    var longer := x.answers + [answer];
    assert longer[..|x.answers|] == x.answers;
    forall i: nat | i < |longer| ensures Passed(plan, s, longer, i) {
      if i < |x.answers| {
        assert Passed(plan, s, x.answers, i);
        assert longer[..i] == x.answers[..i];
      }
    }
  }

  // Execution e moved; messages, events and results stood still.
  ghost predicate Moves(s: State, s': State, e: nat) {
    && e in s'.execs && s'.execs == s.execs[e := s'.execs[e]]
    && s'.clock == s.clock && s'.inbox == s.inbox && s'.consumed == s.consumed && s'.takenBy == s.takenBy
    && s'.events == s.events && s'.sets == s.sets && s'.results == s.results
    && (forall id | id in s.deadlines :: id in s'.deadlines && s'.deadlines[id] == s.deadlines[id])
  }

  lemma MoveKeeps(plan: Plan, s: State, s': State, e: nat)
    requires Inv(plan, s) && Moves(s, s', e) && ExecOk(plan, s', e)
    ensures Inv(plan, s') && Grows(s, s')
  {
    forall m: nat ensures MessageOk(s', m) { assert MessageOk(s, m); }
    forall m: nat, k: nat ensures TakenFirst(s', m, k) { assert TakenFirst(s, m, k); }
    forall i: nat, j: nat ensures InOrder(s', i, j) { assert InOrder(s, i, j); }
    forall id: nat ensures ResultOk(s', id) { StillResult(s, s', e, id); }
    forall f: nat ensures ExecOk(plan, s', f) {
      assert ExecOk(plan, s, f);
      if f in s.execs && f != e {
        PathGrows(plan, s, s', s.execs[f]);
        StillPhase(s, s', e, plan(s.execs[f].answers), s.execs[f]);
      }
    }
  }

  lemma StillResult(s: State, s': State, e: nat, id: nat)
    requires Moves(s, s', e) && ResultOk(s, id)
    ensures ResultOk(s', id)
  {
    if id in s.results && s.results[id].TimedOut? && s.results[id].wait.Recv? {
      var r := s.results[id];
      forall m: nat | m < r.seen ensures TakenByOther(s', r.wait.topic, m, id) {
        assert TakenByOther(s, r.wait.topic, m, id);
      }
    }
  }

  lemma StillPending(s: State, s': State, e: nat, w: Wait)
    requires Moves(s, s', e)
    ensures Pending(s', w) == Pending(s, w)
  {
    if w.Recv? {
      assert forall m: nat :: Unconsumed(s', w.topic, m) == Unconsumed(s, w.topic, m);
    }
  }

  lemma StillPhase(s: State, s': State, e: nat, w: Wait, x: Exec)
    requires Moves(s, s', e) && PhaseOk(s, w, x)
    ensures PhaseOk(s', w, x)
  {
    StillPending(s, s', e, w);
  }

  lemma BeginKeeps(plan: Plan, s: State, e: nat)
    requires Inv(plan, s) && e in s.execs && StepBegin(s, e, plan(s.execs[e].answers)).Some?
    ensures var s' := StepBegin(s, e, plan(s.execs[e].answers)).value; Inv(plan, s') && Grows(s, s')
  {
    var x := s.execs[e];
    var w := plan(x.answers);
    var s' := StepBegin(s, e, w).value;
    assert ExecOk(plan, s, e);
    if !w.Sleep? && x.next in s.results {
      PathExtends(plan, s, x, s.results[x.next]);
      PathGrows(plan, s, s', s'.execs[e]);
    } else {
      PathGrows(plan, s, s', x);
      assert PathOk(plan, s', s'.execs[e]);
    }
    MoveKeeps(plan, s, s', e);
  }

  lemma WakeKeeps(plan: Plan, s: State, e: nat)
    requires Inv(plan, s) && e in s.execs && StepWake(s, e, plan(s.execs[e].answers)).Some?
    ensures var s' := StepWake(s, e, plan(s.execs[e].answers)).value; Inv(plan, s') && Grows(s, s')
  {
    var x := s.execs[e];
    var s' := StepWake(s, e, plan(x.answers)).value;
    assert ExecOk(plan, s, e);
    PathExtends(plan, s, x, Slept);
    PathGrows(plan, s, s', s'.execs[e]);
    MoveKeeps(plan, s, s', e);
  }

  // The steps that only change phase.
  lemma PhaseKeeps(plan: Plan, s: State, a: Action)
    requires Inv(plan, s) && Step(plan, s, a).Some?
    requires a.Leave? || a.Probe? || a.RecordDeadline? || a.Notice? || a.TimeOut?
    ensures Inv(plan, Step(plan, s, a).value) && Grows(s, Step(plan, s, a).value)
  {
    var s' := Step(plan, s, a).value;
    var x := s.execs[a.e];
    assert ExecOk(plan, s, a.e);
    PathGrows(plan, s, s', x);
    assert PathOk(plan, s', s'.execs[a.e]);
    StillPending(s, s', a.e, plan(x.answers));
    MoveKeeps(plan, s, s', a.e);
  }

  lemma StartKeeps(plan: Plan, s: State, e: nat)
    requires Inv(plan, s) && e !in s.execs
    ensures Inv(plan, Step(plan, s, Start(e)).value) && Grows(s, Step(plan, s, Start(e)).value)
  {
    MoveKeeps(plan, s, Step(plan, s, Start(e)).value, e);
  }

  /******* Arrivals *******/

  // Time passed, a message came or an event was set.
  ghost predicate Arrives(s: State, s': State) {
    && s'.execs == s.execs && s'.results == s.results && s'.deadlines == s.deadlines
    && s'.consumed == s.consumed && s'.takenBy == s.takenBy
    && s.clock <= s'.clock && s.inbox <= s'.inbox && s.sets <= s'.sets && s.events.Keys <= s'.events.Keys
    && |s'.inbox| <= |s.inbox| + 1 && (|s'.inbox| > |s.inbox| ==> s'.inbox[|s.inbox|].stamp == s.clock)
  }

  lemma ArrivalPending(s: State, s': State, w: Wait)
    requires Arrives(s, s') && Pending(s, w)
    ensures Pending(s', w)
  {
    if w.Recv? {
      var m: nat :| m < |s.inbox| && Unconsumed(s, w.topic, m);
      assert Unconsumed(s', w.topic, m);
    }
  }

  lemma ArrivalResult(s: State, s': State, id: nat)
    requires Arrives(s, s') && ResultOk(s, id)
    ensures ResultOk(s', id)
  {
    if id in s.results && s.results[id].TimedOut? {
      var r := s.results[id];
      if r.wait.Recv? {
        forall m: nat | m < r.seen ensures TakenByOther(s', r.wait.topic, m, id) {
          assert TakenByOther(s, r.wait.topic, m, id);
        }
      } else if r.wait.GetEvent? {
        assert s'.sets[..r.seen] == s.sets[..r.seen];
      }
    }
  }

  lemma ArrivalFirst(s: State, s': State, m: nat, k: nat)
    requires Arrives(s, s') && TakenFirst(s, m, k) && MessageOk(s, m)
    ensures TakenFirst(s', m, k)
  {
  }

  lemma ArrivalKeeps(plan: Plan, s: State, s': State)
    requires Inv(plan, s) && Arrives(s, s')
    requires forall key :: key in s'.events <==> key in s'.sets
    ensures Inv(plan, s') && Grows(s, s')
  {
    forall m: nat ensures MessageOk(s', m) { assert MessageOk(s, m); }
    forall m: nat, k: nat ensures TakenFirst(s', m, k) {
      assert MessageOk(s, m) && TakenFirst(s, m, k);
      ArrivalFirst(s, s', m, k);
    }
    forall i: nat, j: nat ensures InOrder(s', i, j) {
      assert InOrder(s, i, j);
      if i < j < |s.consumed| {
        assert MessageOk(s, s.consumed[i]) && MessageOk(s, s.consumed[j]);
      }
    }
    forall id: nat ensures ResultOk(s', id) { ArrivalResult(s, s', id); }
    forall f: nat ensures ExecOk(plan, s', f) {
      assert ExecOk(plan, s, f);
      if f in s.execs {
        var x := s.execs[f];
        PathGrows(plan, s, s', x);
        if Pending(s, plan(x.answers)) { ArrivalPending(s, s', plan(x.answers)); }
      }
    }
  }

  /******* Consuming *******/

  // e is about to checkpoint answer for its wait.
  ghost predicate Decides(plan: Plan, s: State, e: nat, message: Option<nat>) {
    && e in s.execs && s.execs[e].phase.Consuming? && s.execs[e].next !in s.results
    && var w := plan(s.execs[e].answers);
    && !w.Sleep?
    && (w.Recv? ==> if message.Some? then Oldest(s, w.topic, message.value) else !Pending(s, w))
  }

  function Decision(plan: Plan, s: State, e: nat, message: Option<nat>): State
    requires e in s.execs && s.execs[e].phase.Consuming?
  {
    var x := s.execs[e];
    Record(s, x.next, Found(s, plan(x.answers), x.phase.timedOut, message))
  }

  lemma DecisionMessages(plan: Plan, s: State, e: nat, message: Option<nat>, m: nat)
    requires Inv(plan, s) && Decides(plan, s, e, message)
    ensures MessageOk(Decision(plan, s, e, message), m)
  {
    assert MessageOk(s, m);
  }

  lemma DecisionFirst(plan: Plan, s: State, e: nat, message: Option<nat>, m: nat, k: nat)
    requires Inv(plan, s) && Decides(plan, s, e, message)
    ensures TakenFirst(Decision(plan, s, e, message), m, k)
  {
    assert TakenFirst(s, m, k);
    var s' := Decision(plan, s, e, message);
    if m < |s.inbox| && Unconsumed(s', s.inbox[m].topic, k) {
      assert Unconsumed(s, s.inbox[m].topic, k);
    }
  }

  lemma DecisionOrder(plan: Plan, s: State, e: nat, message: Option<nat>, i: nat, j: nat)
    requires Inv(plan, s) && Decides(plan, s, e, message)
    ensures InOrder(Decision(plan, s, e, message), i, j)
  {
    assert InOrder(s, i, j);
    if i < j == |s.consumed| {
      assert MessageOk(s, s.consumed[i]);
      if message.Some? {
        assert TakenFirst(s, s.consumed[i], message.value);
      }
    }
  }

  // Nothing is never recorded, and a timeout only after looking in vain.
  lemma DecisionResult(plan: Plan, s: State, e: nat, message: Option<nat>, id: nat)
    requires Inv(plan, s) && Decides(plan, s, e, message)
    ensures ResultOk(Decision(plan, s, e, message), id)
  {
    var s' := Decision(plan, s, e, message);
    assert ExecOk(plan, s, e) && ResultOk(s, id);
    if id in s'.results && s'.results[id].TimedOut? && s'.results[id].wait.Recv? {
      var r := s'.results[id];
      forall m: nat | m < r.seen ensures TakenByOther(s', r.wait.topic, m, id) {
        assert MessageOk(s, m);
        if id in s.results {
          assert TakenByOther(s, r.wait.topic, m, id);
        } else {
          assert !Unconsumed(s, r.wait.topic, m);
        }
      }
    }
  }

  // Taking a message cannot disappoint another execution: it is at the same wait.
  lemma DecisionExec(plan: Plan, s: State, e: nat, message: Option<nat>, f: nat)
    requires Inv(plan, s) && Decides(plan, s, e, message)
    ensures ExecOk(plan, Decision(plan, s, e, message), f)
  {
    var s' := Decision(plan, s, e, message);
    assert ExecOk(plan, s, e) && ExecOk(plan, s, f);
    if f in s.execs {
      var x := s.execs[f];
      PathGrows(plan, s, s', x);
      if x.phase.Consuming? && x.next !in s.results {
        SameWait(plan, s, x, s.execs[e]);
      }
    }
  }

  lemma DecisionKeeps(plan: Plan, s: State, e: nat, message: Option<nat>)
    requires Inv(plan, s) && Decides(plan, s, e, message)
    ensures Inv(plan, Decision(plan, s, e, message)) && Grows(s, Decision(plan, s, e, message))
  {
    var s' := Decision(plan, s, e, message);
    forall m: nat ensures MessageOk(s', m) { DecisionMessages(plan, s, e, message, m); }
    forall m: nat, k: nat ensures TakenFirst(s', m, k) { DecisionFirst(plan, s, e, message, m, k); }
    forall i: nat, j: nat ensures InOrder(s', i, j) { DecisionOrder(plan, s, e, message, i, j); }
    forall id: nat ensures ResultOk(s', id) { DecisionResult(plan, s, e, message, id); }
    forall f: nat ensures ExecOk(plan, s', f) { DecisionExec(plan, s, e, message, f); }
  }

  // Continue from a checkpoint that is there.
  lemma ReplayKeeps(plan: Plan, s: State, e: nat)
    requires Inv(plan, s) && e in s.execs && !plan(s.execs[e].answers).Sleep? && s.execs[e].next in s.results
    ensures var s' := Advance(s, e, plan(s.execs[e].answers), s.results[s.execs[e].next]); Inv(plan, s') && Grows(s, s')
  {
    var x := s.execs[e];
    var s' := Advance(s, e, plan(x.answers), s.results[x.next]);
    assert ExecOk(plan, s, e);
    PathExtends(plan, s, x, s.results[x.next]);
    PathGrows(plan, s, s', s'.execs[e]);
    MoveKeeps(plan, s, s', e);
  }

  lemma ConsumeKeeps(plan: Plan, s: State, e: nat, message: Option<nat>)
    requires Inv(plan, s) && e in s.execs && StepConsume(s, e, plan(s.execs[e].answers), message).Some?
    ensures var s' := StepConsume(s, e, plan(s.execs[e].answers), message).value; Inv(plan, s') && Grows(s, s')
  {
    if s.execs[e].next !in s.results {
      DecisionKeeps(plan, s, e, message);
      ReplayKeeps(plan, Decision(plan, s, e, message), e);
    } else {
      ReplayKeeps(plan, s, e);
    }
  }

  lemma StepKeeps(plan: Plan, s: State, a: Action)
    requires Inv(plan, s) && Step(plan, s, a).Some?
    ensures Inv(plan, Step(plan, s, a).value) && Grows(s, Step(plan, s, a).value)
  {
    match a
    case Tick(_) => ArrivalKeeps(plan, s, Step(plan, s, a).value);
    case Send(_, _) => ArrivalKeeps(plan, s, Step(plan, s, a).value);
    case SetEvent(_, _) => ArrivalKeeps(plan, s, Step(plan, s, a).value);
    case Start(e) => StartKeeps(plan, s, e);
    case Begin(e) => BeginKeeps(plan, s, e);
    case Consume(e, message) => ConsumeKeeps(plan, s, e, message);
    case Wake(e) => WakeKeeps(plan, s, e);
    case _ => PhaseKeeps(plan, s, a);
  }

  lemma {:induction false} RunsKeep(plan: Plan, acts: seq<Action>)
    requires Run(plan, acts).Some?
    ensures Inv(plan, Run(plan, acts).value)
    decreases |acts|
  {
    if acts != [] {
      RunsKeep(plan, acts[..|acts| - 1]);
      StepKeeps(plan, Run(plan, acts[..|acts| - 1]).value, acts[|acts| - 1]);
    }
  }

  /******* Main results *******/

  // A deadline or an answer, once recorded, is the same in every later state,
  // through any number of crashes, wake-ups and re-executions.
  lemma {:induction false} RecordsAreKept(plan: Plan, acts: seq<Action>, n: nat)
    requires n <= |acts| && Run(plan, acts).Some?
    ensures Run(plan, acts[..n]).Some? && Grows(Run(plan, acts[..n]).value, Run(plan, acts).value)
    decreases |acts|
  {
    if n == |acts| {
      assert acts[..n] == acts;
    } else {
      var prior := acts[..|acts| - 1];
      RecordsAreKept(plan, prior, n);
      assert prior[..n] == acts[..n];
      RunsKeep(plan, prior);
      StepKeeps(plan, Run(plan, prior).value, acts[|acts| - 1]);
    }
  }

  // No execution is past a sleep before the deadline recorded for it.
  lemma SleepsLastUntilDeadline(plan: Plan, acts: seq<Action>, e: nat, i: nat)
    requires Run(plan, acts).Some? && e in Run(plan, acts).value.execs
    requires var x := Run(plan, acts).value.execs[e]; i < |x.answers| && plan(x.answers[..i]).Sleep?
    ensures var s := Run(plan, acts).value;
            var id := NextId(plan, s.execs[e].answers[..i]);
            id in s.deadlines && s.deadlines[id] <= s.clock
  {
    RunsKeep(plan, acts);
    var s := Run(plan, acts).value;
    assert ExecOk(plan, s, e) && Passed(plan, s, s.execs[e].answers, i);
  }

  // A timeout is recorded only after the recorded deadline and only if the
  // consuming transaction saw nothing; an empty answer that is not a timeout is
  // never recorded.
  lemma TimeoutsAreEarned(plan: Plan, acts: seq<Action>, id: nat)
    requires Run(plan, acts).Some? && id in Run(plan, acts).value.results
    ensures var s := Run(plan, acts).value;
            var r := s.results[id];
            !r.Nothing? && (r.TimedOut? ==> TimeoutOk(s, id, r.wait, r.at, r.seen))
  {
    RunsKeep(plan, acts);
    assert ResultOk(Run(plan, acts).value, id);
  }

  // The transaction that settles a wait answers with what is there, the oldest
  // message or the event's value, and with a timeout exactly when nothing is.
  lemma SettlesWithWhatIsThere(plan: Plan, acts: seq<Action>, e: nat, message: Option<nat>)
    requires Run(plan, acts).Some? && Step(plan, Run(plan, acts).value, Consume(e, message)).Some?
    requires Run(plan, acts).value.execs[e].next !in Run(plan, acts).value.results
    ensures var s, s' := Run(plan, acts).value, Step(plan, Run(plan, acts).value, Consume(e, message)).value;
            var x := s.execs[e];
            var w := plan(x.answers);
            && x.next in s'.results && s'.execs[e].answers == x.answers + [s'.results[x.next]]
            && var r := s'.results[x.next];
            && (r.TimedOut? <==> !Pending(s, w))
            && (w.Recv? && Pending(s, w) ==> r.Got? && Oldest(s, w.topic, r.message))
            && (w.GetEvent? && Pending(s, w) ==> r == Value(s.events[w.key]))
  {
    RunsKeep(plan, acts);
    var s := Run(plan, acts).value;
    DecisionResult(plan, s, e, message, s.execs[e].next);
  }

  // Messages and the steps that received them are in one-to-one correspondence,
  // and messages of one topic are received oldest first.
  lemma MessagesOnceInOrder(plan: Plan, acts: seq<Action>)
    requires Run(plan, acts).Some?
    ensures var s := Run(plan, acts).value;
            && (forall id: nat, m: nat | id in s.results && s.results[id] == Got(m) ::
               m in s.takenBy && s.takenBy[m] == id)
            && (forall m: nat | m in s.takenBy ::
               m < |s.inbox| && s.takenBy[m] in s.results && s.results[s.takenBy[m]] == Got(m))
            && (forall i: nat, j: nat :: InOrder(s, i, j))
  {
    RunsKeep(plan, acts);
    var s := Run(plan, acts).value;
    forall id: nat, m: nat | id in s.results && s.results[id] == Got(m) ensures m in s.takenBy && s.takenBy[m] == id {
      assert ResultOk(s, id);
    }
    forall m: nat | m in s.takenBy ensures m < |s.inbox| && s.takenBy[m] in s.results
      && s.results[s.takenBy[m]] == Got(m) {
      assert MessageOk(s, m);
    }
  }

  // The next step ID depends on the answers alone: not on whether a deadline row
  // was written or skipped on the way, nor on the run.
  lemma IdsIgnoreDeadlineRows(plan: Plan, acts: seq<Action>, more: seq<Action>, e: nat, f: nat)
    requires Run(plan, acts).Some? && Run(plan, more).Some?
    requires e in Run(plan, acts).value.execs && f in Run(plan, more).value.execs
    requires Run(plan, acts).value.execs[e].answers == Run(plan, more).value.execs[f].answers
    ensures Run(plan, acts).value.execs[e].next == Run(plan, more).value.execs[f].next
  {
    RunsKeep(plan, acts);
    RunsKeep(plan, more);
    assert ExecOk(plan, Run(plan, acts).value, e) && ExecOk(plan, Run(plan, more).value, f);
  }

  // Executions of one workflow never disagree on an answer.
  lemma OneStory(plan: Plan, acts: seq<Action>, e: nat, f: nat)
    requires Run(plan, acts).Some? && e in Run(plan, acts).value.execs && f in Run(plan, acts).value.execs
    ensures var s := Run(plan, acts).value; Comparable(s.execs[e].answers, s.execs[f].answers)
  {
    RunsKeep(plan, acts);
    var s := Run(plan, acts).value;
    var x, y := s.execs[e], s.execs[f];
    assert ExecOk(plan, s, e) && ExecOk(plan, s, f);
    var n := if |x.answers| < |y.answers| then |x.answers| else |y.answers|;
    PathsAgree(plan, s, x, y, n);
    assert x.answers[..|x.answers|] == x.answers && y.answers[..|y.answers|] == y.answers;
  }
}
