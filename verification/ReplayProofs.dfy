/**
What every run of the replay machine keeps: executions walk one path, name each
step ID the same way, continue only from recorded outcomes, and end with the
result of evaluating the program once, without crashes, on the final table.
*/
module ReplayProofs {
  import opened Base
  import opened Replay

  /******* Paths *******/

  lemma {:induction false} NamesGrow(h: seq<Event>, h': seq<Event>)
    requires h <= h'
    ensures Names(h) <= Names(h')
    decreases |h'|
  {
    if h != h' {
      assert h <= h'[..|h'| - 1];
      NamesGrow(h, h'[..|h'| - 1]);
    }
  }

  lemma {:induction false} SamePrefix(w: Program, log: Log, a: seq<Event>, b: seq<Event>, i: nat)
    requires OnPath(w, log, a) && OnPath(w, log, b)
    requires i <= |a| && i <= |b|
    ensures a[..i] == b[..i]
  {
    if i > 0 {
      SamePrefix(w, log, a, b, i - 1);
      assert FollowsAt(w, log, a, i - 1) && FollowsAt(w, log, b, i - 1);
      assert a[..i] == a[..i - 1] + [a[i - 1]] && b[..i] == b[..i - 1] + [b[i - 1]];
    }
  }

  // Two histories read from one table are prefixes of one another.
  lemma PathsAgree(w: Program, log: Log, a: seq<Event>, b: seq<Event>)
    requires OnPath(w, log, a) && OnPath(w, log, b)
    ensures Comparable(a, b)
  {
    if |a| <= |b| {
      SamePrefix(w, log, a, b, |a|);
      assert a[..|a|] == a;
    } else {
      SamePrefix(w, log, a, b, |b|);
      assert b[..|b|] == b;
    }
  }

  lemma PathGrows(w: Program, log: Log, log': Log, h: seq<Event>)
    requires OnPath(w, log, h) && Extends(log, log')
    ensures OnPath(w, log', h)
  {
    forall i | 0 <= i < |h|
      ensures FollowsAt(w, log', h, i)
    {
      assert FollowsAt(w, log, h, i);
    }
  }

  lemma PathStep(w: Program, log: Log, h: seq<Event>, e: Event)
    requires OnPath(w, log, h) && NextEvent(w, log, h) == Some(e)
    ensures OnPath(w, log, h + [e])
  {
    var h' := h + [e];
    forall i | 0 <= i < |h'|
      ensures FollowsAt(w, log, h', i)
    {
      if i < |h| {
        assert FollowsAt(w, log, h, i) && h'[..i] == h[..i];
      } else {
        assert h'[..i] == h;
      }
    }
  }

  lemma PathPrefix(w: Program, log: Log, h: seq<Event>, n: nat)
    requires OnPath(w, log, h) && n <= |h|
    ensures OnPath(w, log, h[..n])
  {
    forall i: nat | i < n
      ensures FollowsAt(w, log, h[..n], i)
    {
      assert FollowsAt(w, log, h, i) && h[..n][..i] == h[..i];
    }
  }

  lemma NamesAppend(h: seq<Event>, e: Event)
    ensures Names(h + [e]) == Names(h) + Taken(e)
  {
    assert (h + [e])[..|h|] == h;
  }

  // Every execution gives a recorded step ID the name it was recorded under.
  lemma NameAgrees(w: Program, log: Log, h: seq<Event>, k: nat)
    requires Justified(w, log) && OnPath(w, log, h)
    requires k in log && k < |Names(h)|
    ensures log[k].name == Names(h)[k]
  {
    assert RowJustified(w, log, k);
    var g :| Reaches(w, log, k, log[k].name, g);
    PathsAgree(w, log, g, h);
    if g <= h {
      NamesGrow(g, h);
    } else {
      NamesGrow(h, g);
    }
  }

  lemma JustifiedInsert(w: Program, log: Log, k: nat, row: Row, h: seq<Event>)
    requires Justified(w, log) && k !in log
    requires Reaches(w, log[k := row], k, row.name, h)
    ensures Justified(w, log[k := row])
  {
    var log' := log[k := row];
    forall j: nat
      ensures RowJustified(w, log', j)
    {
      if j == k {
        assert Reaches(w, log', j, log'[j].name, h);
      } else if j in log {
        assert RowJustified(w, log, j);
        var g :| Reaches(w, log, j, log[j].name, g);
        PathGrows(w, log, log', g);
        assert Reaches(w, log', j, log'[j].name, g);
      }
    }
  }

  /******* Errors of the engine *******/

  predicate Failure(e: Event) {
    e.StepFailed? || e.PatchFailed?
  }

  predicate Unfailed(h: seq<Event>) {
    forall i | 0 <= i < |h| :: !Failure(h[i])
  }

  // h up to a failure that is its last event.
  function Trunk(h: seq<Event>): seq<Event> {
    if h != [] && Failure(h[|h| - 1]) then h[..|h| - 1] else h
  }

  // No execution has called on after a failure.
  ghost predicate Steady(s: State) {
    forall e | e in s.execs :: SteadyExec(s.execs[e])
  }

  ghost predicate SteadyExec(x: Exec) {
    Unfailed(Trunk(x.history)) && (Trunk(x.history) != x.history ==> x.asking == Idle)
  }

  // No execution was handed an error of the engine.
  ghost predicate NoneFailed(s: State) {
    forall e | e in s.execs :: Unfailed(s.execs[e].history)
  }

  lemma TrunkNames(h: seq<Event>)
    ensures Names(Trunk(h)) == Names(h)
  {
    if Trunk(h) != h {
      NamesAppend(Trunk(h), h[|h| - 1]);
      assert h == Trunk(h) + [h[|h| - 1]];
    }
  }

  // A history read from the table has no failure in it.
  lemma PathUnfailed(w: Program, log: Log, h: seq<Event>)
    requires OnPath(w, log, h)
    ensures Unfailed(h) && Trunk(h) == h
  {
    forall i | 0 <= i < |h| ensures !Failure(h[i]) {
      assert FollowsAt(w, log, h, i);
    }
  }

  // Histories only grow, so who is unsteady stays unsteady.
  lemma UnsteadyStays(h: seq<Event>, h': seq<Event>)
    requires h <= h' && Unfailed(Trunk(h'))
    ensures Unfailed(Trunk(h))
    ensures Trunk(h) != h ==> h' == h
  {
    forall i | 0 <= i < |Trunk(h)| ensures !Failure(Trunk(h)[i]) {
      assert Trunk(h)[i] == h'[i];
      assert i < |Trunk(h')| ==> Trunk(h')[i] == h'[i];
    }
    assert h != [] && |h'| > |h| ==> Trunk(h')[|h| - 1] == h'[|h| - 1];
  }

  /******* The invariant *******/

  ghost predicate FlightOk(log: Log, name: string, k: nat, f: Flight) {
    && (f.Settled? ==> k in log && log[k].outcome == f.outcome)
    && (f.Ran? ==> f.row.name == name)
  }

  // The failure e was handed out at h; a refusal, at a row that is in the table.
  ghost predicate FailedAt(w: Program, log: Log, h: seq<Event>, e: Event) {
    match e
    case StepFailed(k) => w(h) == Join(k) && k < |Names(h)|
    case PatchFailed(p, refused) => w(h) == AskPatch(p) && (refused ==> |Names(h)| in log)
    case _ => false
  }

  // An execution's history is read from the table, but for a last failure.
  ghost predicate ExecOk(w: Program, log: Log, x: Exec) {
    var h := Trunk(x.history);
    && OnPath(w, log, h)
    && |x.flights| == |Names(h)|
    && (forall k | 0 <= k < |x.flights| :: FlightOk(log, Names(h)[k], k, x.flights[k]))
    && x.status != Unexpected
    && (x.history != h ==> FailedAt(w, log, h, x.history[|h|]))
  }

  ghost predicate Inv(w: Program, s: State) {
    Justified(w, s.log) && forall e | e in s.execs :: ExecOk(w, s.log, s.execs[e])
  }

  lemma ExecGrows(w: Program, log: Log, log': Log, x: Exec)
    requires ExecOk(w, log, x) && Extends(log, log')
    ensures ExecOk(w, log', x)
  {
    var h := Trunk(x.history);
    PathGrows(w, log, log', h);
    forall k | 0 <= k < |x.flights|
      ensures FlightOk(log', Names(h)[k], k, x.flights[k])
    {
      assert FlightOk(log, Names(h)[k], k, x.flights[k]);
    }
  }

  // Replacing one execution and growing the table keeps the invariant, provided
  // the new execution is sound on the new table.
  lemma InvUpdate(w: Program, s: State, s': State, e: nat, x: Exec)
    requires Inv(w, s)
    requires s'.execs == s.execs[e := x] && Extends(s.log, s'.log)
    requires Justified(w, s'.log) && ExecOk(w, s'.log, x)
    ensures Inv(w, s')
  {
    forall i | i in s'.execs
      ensures ExecOk(w, s'.log, s'.execs[i])
    {
      if i != e {
        ExecGrows(w, s.log, s'.log, s.execs[i]);
      }
    }
  }

  // An execution with the same history and one flight moved.
  lemma FlightMoves(w: Program, log: Log, x: Exec, k: nat, f: Flight)
    requires ExecOk(w, log, x) && k < |x.flights| && FlightOk(log, Names(Trunk(x.history))[k], k, f)
    ensures ExecOk(w, log, x.(flights := x.flights[k := f]))
  {
  }

  lemma CheckKeeps(w: Program, s: State, e: nat, k: nat)
    requires Inv(w, s) && IsLive(s, e) && StepCheck(s, e, k).Some?
    ensures Inv(w, StepCheck(s, e, k).value)
  {
    var x := s.execs[e];
    var s' := StepCheck(s, e, k).value;
    assert ExecOk(w, s.log, x);
    TrunkNames(x.history);
    if k in s.log {
      NameAgrees(w, s.log, Trunk(x.history), k);
    }
    FlightMoves(w, s.log, x, k, s'.execs[e].flights[k]);
    InvUpdate(w, s, s', e, s'.execs[e]);
  }

  lemma RunKeeps(w: Program, s: State, e: nat, k: nat, o: Outcome, stamp: nat)
    requires Inv(w, s) && IsLive(s, e) && StepRun(s, e, k, o, stamp).Some?
    ensures Inv(w, StepRun(s, e, k, o, stamp).value)
  {
    var s' := StepRun(s, e, k, o, stamp).value;
    assert ExecOk(w, s.log, s.execs[e]);
    TrunkNames(s.execs[e].history);
    FlightMoves(w, s.log, s.execs[e], k, s'.execs[e].flights[k]);
    InvUpdate(w, s, s', e, s'.execs[e]);
  }

  // A record that inserts: the row is justified by its writer's own history.
  lemma RecordInserts(w: Program, s: State, e: nat, k: nat)
    requires Inv(w, s) && IsLive(s, e)
    requires k < |s.execs[e].flights| && s.execs[e].flights[k].Ran? && k !in s.log
    ensures var log' := s.log[k := s.execs[e].flights[k].row];
            Justified(w, log') && ExecOk(w, log', s.execs[e])
  {
    var x := s.execs[e];
    var row, h := x.flights[k].row, Trunk(x.history);
    assert ExecOk(w, s.log, x) && FlightOk(s.log, Names(h)[k], k, x.flights[k]);
    ExecGrows(w, s.log, s.log[k := row], x);
    JustifiedInsert(w, s.log, k, row, h);
  }

  lemma RecordKeeps(w: Program, s: State, e: nat, k: nat, acked: bool)
    requires Inv(w, s) && IsLive(s, e) && StepRecord(s, e, k, acked).Some?
    ensures Inv(w, StepRecord(s, e, k, acked).value)
  {
    var x := s.execs[e];
    var s' := StepRecord(s, e, k, acked).value;
    var h := Trunk(x.history);
    assert ExecOk(w, s.log, x) && FlightOk(s.log, Names(h)[k], k, x.flights[k]);
    if k in s.log {
      NameAgrees(w, s.log, h, k);
    } else {
      RecordInserts(w, s, e, k);
    }
    FlightMoves(w, s'.log, x, k, s'.execs[e].flights[k]);
    InvUpdate(w, s, s', e, s'.execs[e]);
  }

  lemma IssueKeeps(w: Program, s: State, e: nat)
    requires Inv(w, s) && IsLive(s, e) && StepIssue(w, s, e).Some? && Steady(StepIssue(w, s, e).value)
    ensures Inv(w, StepIssue(w, s, e).value)
  {
    var x := s.execs[e];
    var s' := StepIssue(w, s, e).value;
    var ev := Issued(w(x.history).name);
    assert ExecOk(w, s.log, x);
    UnsteadyStays(x.history, s'.execs[e].history);
    NamesAppend(x.history, ev);
    PathStep(w, s.log, x.history, ev);
    assert Trunk(s'.execs[e].history) == s'.execs[e].history;
    InvUpdate(w, s, s', e, s'.execs[e]);
  }

  lemma JoinKeeps(w: Program, s: State, e: nat)
    requires Inv(w, s) && IsLive(s, e) && StepJoin(w, s, e).Some? && Steady(StepJoin(w, s, e).value)
    ensures Inv(w, StepJoin(w, s, e).value)
  {
    var x := s.execs[e];
    var s' := StepJoin(w, s, e).value;
    var k := w(x.history).step;
    UnsteadyStays(x.history, s'.execs[e].history);
    assert ExecOk(w, s.log, x) && FlightOk(s.log, Names(x.history)[k], k, x.flights[k]);
    if x.flights[k].Failed? {
      FailureKeeps(w, s.log, x, StepFailed(k));
    } else {
      JoinedKeeps(w, s.log, x, k);
    }
    InvUpdate(w, s, s', e, s'.execs[e]);
  }

  lemma JoinedKeeps(w: Program, log: Log, x: Exec, k: nat)
    requires ExecOk(w, log, x) && Trunk(x.history) == x.history && w(x.history) == Join(k)
    requires k < |x.flights| && x.flights[k].Settled?
    ensures ExecOk(w, log, x.(history := x.history + [Joined(k, x.flights[k].outcome)]))
  {
    var ev := Joined(k, x.flights[k].outcome);
    assert FlightOk(log, Names(x.history)[k], k, x.flights[k]);
    NamesAppend(x.history, ev);
    PathStep(w, log, x.history, ev);
    assert Trunk(x.history + [ev]) == x.history + [ev];
  }

  // Answering a patch from its row extends the path.
  lemma AnswerKeeps(w: Program, log: Log, x: Exec, p: string)
    requires ExecOk(w, log, x) && Trunk(x.history) == x.history && w(x.history) == AskPatch(p)
    requires |Names(x.history)| in log
    ensures ExecOk(w, log, Answer(x, p, log[|Names(x.history)|]))
  {
    var ev := Patched(p, log[|Names(x.history)|].name == p);
    NamesAppend(x.history, ev);
    PathStep(w, log, x.history, ev);
    assert Answer(x, p, log[|Names(x.history)|]).history == x.history + [ev];
  }

  lemma ProbeKeeps(w: Program, s: State, e: nat)
    requires Inv(w, s) && IsLive(s, e) && StepProbe(w, s, e).Some? && Steady(StepProbe(w, s, e).value)
    ensures Inv(w, StepProbe(w, s, e).value)
  {
    var x := s.execs[e];
    var s' := StepProbe(w, s, e).value;
    assert ExecOk(w, s.log, x);
    UnsteadyStays(x.history, s'.execs[e].history);
    if |Names(x.history)| in s.log {
      AnswerKeeps(w, s.log, x, w(x.history).patch);
    }
    InvUpdate(w, s, s', e, s'.execs[e]);
  }

  lemma MarkerInserts(w: Program, log: Log, x: Exec, p: string, row: Row)
    requires Justified(w, log) && ExecOk(w, log, x) && Trunk(x.history) == x.history && w(x.history) == AskPatch(p)
    requires |Names(x.history)| !in log && row.name == p
    ensures var log' := log[|Names(x.history)| := row];
            && Justified(w, log')
            && ExecOk(w, log', x) && ExecOk(w, log', Answer(x, p, row))
  {
    var next := |Names(x.history)|;
    var log' := log[next := row];
    ExecGrows(w, log, log', x);
    AnswerKeeps(w, log', x, p);
    NamesAppend(x.history, Patched(p, true));
    assert Reaches(w, log', next, p, x.history + [Patched(p, true)]);
    JustifiedInsert(w, log, next, row, x.history + [Patched(p, true)]);
  }

  // A failure ends the history.
  lemma FailureKeeps(w: Program, log: Log, x: Exec, ev: Event)
    requires ExecOk(w, log, x) && Trunk(x.history) == x.history && FailedAt(w, log, x.history, ev)
    ensures ExecOk(w, log, x.(history := x.history + [ev])) && ExecOk(w, log, x.(asking := Idle))
    ensures ExecOk(w, log, x.(history := x.history + [ev], asking := Idle))
  {
    assert Trunk(x.history + [ev]) == x.history;
  }

  lemma FailKeeps(w: Program, s: State, e: nat, k: nat)
    requires Inv(w, s) && IsLive(s, e) && StepFail(s, e, k).Some?
    ensures Inv(w, StepFail(s, e, k).value)
  {
    var s' := StepFail(s, e, k).value;
    assert ExecOk(w, s.log, s.execs[e]);
    FlightMoves(w, s.log, s.execs[e], k, Failed);
    InvUpdate(w, s, s', e, s'.execs[e]);
  }

  lemma FailPatchKeeps(w: Program, s: State, e: nat)
    requires Inv(w, s) && IsLive(s, e) && StepFailPatch(w, s, e).Some? && Steady(StepFailPatch(w, s, e).value)
    ensures Inv(w, StepFailPatch(w, s, e).value)
  {
    var x := s.execs[e];
    var s' := StepFailPatch(w, s, e).value;
    assert ExecOk(w, s.log, x);
    UnsteadyStays(x.history, s'.execs[e].history);
    FailureKeeps(w, s.log, x, PatchFailed(w(x.history).patch, false));
    InvUpdate(w, s, s', e, s'.execs[e]);
  }

  lemma InsertKeeps(w: Program, s: State, e: nat, stamp: nat, acked: bool)
    requires Inv(w, s) && IsLive(s, e) && StepInsert(w, s, e, stamp, acked).Some?
    requires Steady(StepInsert(w, s, e, stamp, acked).value)
    ensures Inv(w, StepInsert(w, s, e, stamp, acked).value)
  {
    var x := s.execs[e];
    var s' := StepInsert(w, s, e, stamp, acked).value;
    var next, p := |Names(x.history)|, w(x.history).patch;
    assert ExecOk(w, s.log, x);
    UnsteadyStays(x.history, s'.execs[e].history);
    TrunkNames(x.history);
    assert Trunk(x.history) == x.history;
    if next !in s.log {
      MarkerInserts(w, s.log, x, p, s'.log[next]);
    } else {
      FailureKeeps(w, s.log, x, PatchFailed(p, true));
    }
    InvUpdate(w, s, s', e, s'.execs[e]);
  }

  lemma StepKeeps(w: Program, s: State, a: Action)
    requires Inv(w, s) && Step(w, s, a).Some? && Steady(Step(w, s, a).value)
    ensures Inv(w, Step(w, s, a).value)
  {
    var s' := Step(w, s, a).value;
    match a
    case Start(e) => InvUpdate(w, s, s', e, s'.execs[e]);
    case Stop(e) => InvUpdate(w, s, s', e, s'.execs[e]);
    case IssueStep(e) => IssueKeeps(w, s, e);
    case Check(e, k) => CheckKeeps(w, s, e, k);
    case RunBody(e, k, o, stamp) => RunKeeps(w, s, e, k, o, stamp);
    case Record(e, k, acked) => RecordKeeps(w, s, e, k, acked);
    case FailStep(e, k) => FailKeeps(w, s, e, k);
    case JoinStep(e) => JoinKeeps(w, s, e);
    case ProbePatch(e) => ProbeKeeps(w, s, e);
    case InsertPatch(e, stamp, acked) => InsertKeeps(w, s, e, stamp, acked);
    case FailPatch(e) => FailPatchKeeps(w, s, e);
  }

  // The table is insert-once.
  lemma StepExtends(w: Program, s: State, a: Action)
    requires Step(w, s, a).Some?
    ensures Extends(s.log, Step(w, s, a).value.log)
  {
  }

  // Histories only grow, and a Patch ends with an event.
  lemma StepHistory(w: Program, s: State, a: Action, e: nat)
    requires Step(w, s, a).Some? && e in s.execs
    ensures e in Step(w, s, a).value.execs
    ensures var x, x' := s.execs[e], Step(w, s, a).value.execs[e];
            x.history <= x'.history && (x.history == x'.history && x.asking != Idle ==> x'.asking != Idle)
  {
  }

  lemma StepSteady(w: Program, s: State, a: Action)
    requires Step(w, s, a).Some? && Steady(Step(w, s, a).value)
    ensures Steady(s)
  {
    var s' := Step(w, s, a).value;
    forall e | e in s.execs ensures SteadyExec(s.execs[e]) {
      StepHistory(w, s, a, e);
      assert SteadyExec(s'.execs[e]);
      UnsteadyStays(s.execs[e].history, s'.execs[e].history);
    }
  }

  lemma {:induction false} RunsExtend(w: Program, s: State, acts: seq<Action>)
    requires Run(w, s, acts).Some?
    ensures Extends(s.log, Run(w, s, acts).value.log)
    decreases |acts|
  {
    if acts != [] {
      RunsExtend(w, s, acts[..|acts| - 1]);
      var before, a := Run(w, s, acts[..|acts| - 1]).value, acts[|acts| - 1];
      StepExtends(w, before, a);
    }
  }

  lemma {:induction false} RunsKeep(w: Program, s: State, acts: seq<Action>)
    requires Inv(w, s) && Run(w, s, acts).Some? && Steady(Run(w, s, acts).value)
    ensures Inv(w, Run(w, s, acts).value)
    decreases |acts|
  {
    if acts != [] {
      var before, a := Run(w, s, acts[..|acts| - 1]).value, acts[|acts| - 1];
      StepSteady(w, before, a);
      RunsKeep(w, s, acts[..|acts| - 1]);
      StepKeeps(w, before, a);
    }
  }

  /******* Main results *******/

  // The crash-free evaluation: n calls of the program, results read from log,
  // standing still where the program has finished or a result is missing.
  function Evaluate(w: Program, log: Log, n: nat): seq<Event> {
    if n == 0 then []
    else
      var h := Evaluate(w, log, n - 1);
      match NextEvent(w, log, h)
      case Some(e) => h + [e]
      case None => h
  }

  // A history read from the table is where the crash-free evaluation passes.
  lemma {:induction false} PathIsEvaluation(w: Program, log: Log, h: seq<Event>)
    requires OnPath(w, log, h)
    ensures Evaluate(w, log, |h|) == h
    decreases |h|
  {
    if h != [] {
      var g := h[..|h| - 1];
      PathPrefix(w, log, h, |h| - 1);
      PathIsEvaluation(w, log, g);
      assert FollowsAt(w, log, h, |h| - 1);
      assert h == g + [h[|h| - 1]];
    }
  }

  lemma {:induction false} FinishedStandsStill(w: Program, log: Log, h: seq<Event>, n: nat)
    requires OnPath(w, log, h) && w(h).Finish? && n >= |h|
    ensures Evaluate(w, log, n) == h
    decreases n
  {
    if n == |h| {
      PathIsEvaluation(w, log, h);
    } else {
      FinishedStandsStill(w, log, h, n - 1);
    }
  }

  // All executions walk one path and number their steps alike.
  ghost predicate OnePath(s: State) {
    forall e, f | e in s.execs && f in s.execs :: SamePath(s.execs[e].history, s.execs[f].history)
  }

  ghost predicate SamePath(a: seq<Event>, b: seq<Event>) {
    Comparable(Trunk(a), Trunk(b)) && Comparable(Names(a), Names(b))
  }

  // Every outcome a workflow continued from is the recorded one.
  ghost predicate FromRecords(s: State) {
    forall e, i | e in s.execs && 0 <= i < |s.execs[e].history| && s.execs[e].history[i].Joined? ::
      var ev := s.execs[e].history[i]; ev.step in s.log && s.log[ev.step].outcome == ev.outcome
  }

  // No execution met a step recorded under another name.
  ghost predicate NamesMatch(s: State) {
    forall e | e in s.execs ::
      && s.execs[e].status != Unexpected
      && (forall k | k in s.log && k < |Names(s.execs[e].history)| :: s.log[k].name == Names(s.execs[e].history)[k])
  }

  // Every execution's whole history is read from the table.
  ghost predicate AllRead(w: Program, s: State) {
    forall e | e in s.execs :: OnPath(w, s.log, s.execs[e].history)
  }

  lemma PathsNumberAlike(w: Program, log: Log, x: Exec, y: Exec)
    requires ExecOk(w, log, x) && ExecOk(w, log, y)
    ensures SamePath(x.history, y.history)
  {
    var a, b := Trunk(x.history), Trunk(y.history);
    PathsAgree(w, log, a, b);
    TrunkNames(x.history);
    TrunkNames(y.history);
    if a <= b { NamesGrow(a, b); } else { NamesGrow(b, a); }
  }

  lemma ExecReads(w: Program, log: Log, x: Exec)
    requires Justified(w, log) && ExecOk(w, log, x)
    ensures forall i | 0 <= i < |x.history| && x.history[i].Joined? ::
              x.history[i].step in log && log[x.history[i].step].outcome == x.history[i].outcome
    ensures forall k | k in log && k < |Names(x.history)| :: log[k].name == Names(x.history)[k]
  {
    var h := Trunk(x.history);
    TrunkNames(x.history);
    forall i | 0 <= i < |x.history| && x.history[i].Joined?
      ensures x.history[i].step in log && log[x.history[i].step].outcome == x.history[i].outcome
    {
      assert h[i] == x.history[i] && FollowsAt(w, log, h, i);
    }
    forall k | k in log && k < |Names(x.history)| ensures log[k].name == Names(x.history)[k] {
      NameAgrees(w, log, h, k);
    }
  }

  lemma InvReads(w: Program, s: State)
    requires Inv(w, s)
    ensures OnePath(s) && FromRecords(s) && NamesMatch(s)
  {
    forall e, f | e in s.execs && f in s.execs ensures SamePath(s.execs[e].history, s.execs[f].history) {
      PathsNumberAlike(w, s.log, s.execs[e], s.execs[f]);
    }
    forall e | e in s.execs
      ensures forall i | 0 <= i < |s.execs[e].history| && s.execs[e].history[i].Joined? ::
                var ev := s.execs[e].history[i]; ev.step in s.log && s.log[ev.step].outcome == ev.outcome
      ensures forall k | k in s.log && k < |Names(s.execs[e].history)| :: s.log[k].name == Names(s.execs[e].history)[k]
    {
      ExecReads(w, s.log, s.execs[e]);
    }
  }

  // Every run of executions, crashes, restarts and concurrent re-executions, from
  // a table the program justifies (the empty one, or one left by earlier runs),
  // in which nobody calls on after an error that is in no row.
  lemma ReplayIsDeterministic(w: Program, log: Log, acts: seq<Action>)
    requires Justified(w, log) && Run(w, Initial(log), acts).Some?
    ensures var s := Run(w, Initial(log), acts).value;
            && Extends(log, s.log)
            && (Steady(s) ==> Justified(w, s.log) && OnePath(s) && FromRecords(s) && NamesMatch(s))
  {
    RunsExtend(w, Initial(log), acts);
    if Steady(Run(w, Initial(log), acts).value) {
      RunsKeep(w, Initial(log), acts);
      InvReads(w, Run(w, Initial(log), acts).value);
    }
  }

  // Executions continue only from what the table holds exactly when none of them
  // was handed an error of the engine.
  lemma AllReadIffNoneFailed(w: Program, log: Log, acts: seq<Action>)
    requires Justified(w, log) && Run(w, Initial(log), acts).Some?
    ensures var s := Run(w, Initial(log), acts).value; AllRead(w, s) <==> NoneFailed(s)
  {
    var s := Run(w, Initial(log), acts).value;
    if AllRead(w, s) {
      forall e | e in s.execs ensures Unfailed(s.execs[e].history) {
        PathUnfailed(w, s.log, s.execs[e].history);
      }
    }
    if NoneFailed(s) {
      forall e | e in s.execs ensures Trunk(s.execs[e].history) == s.execs[e].history {
      }
      RunsKeep(w, Initial(log), acts);
      forall e | e in s.execs ensures OnPath(w, s.log, s.execs[e].history) {
        assert ExecOk(w, s.log, s.execs[e]);
      }
    }
  }

  // The program returns the engine's errors, as the RunAsStep and Patch examples do.
  ghost predicate ReturnsFailures(w: Program) {
    forall h: seq<Event> | h != [] && Failure(h[|h| - 1]) :: w(h).Finish?
  }

  // Then every run is steady, and who is inside a Patch stands at one.
  lemma {:induction false} ReturnedFailuresAreSteady(w: Program, log: Log, acts: seq<Action>)
    requires ReturnsFailures(w) && Run(w, Initial(log), acts).Some?
    ensures var s := Run(w, Initial(log), acts).value;
            Steady(s) && forall e | e in s.execs :: AskingOk(w, s.execs[e])
    decreases |acts|
  {
    if acts != [] {
      var before, a := Run(w, Initial(log), acts[..|acts| - 1]).value, acts[|acts| - 1];
      ReturnedFailuresAreSteady(w, log, acts[..|acts| - 1]);
      var s' := Step(w, before, a).value;
      forall e | e in s'.execs ensures SteadyExec(s'.execs[e]) && AskingOk(w, s'.execs[e]) {
        StepReturns(w, before, a, e);
      }
    }
  }

  ghost predicate AskingOk(w: Program, x: Exec) {
    x.asking != Idle ==> w(x.history).AskPatch?
  }

  lemma StepReturns(w: Program, s: State, a: Action, e: nat)
    requires ReturnsFailures(w) && Step(w, s, a).Some? && e in Step(w, s, a).value.execs
    requires e in s.execs ==> SteadyExec(s.execs[e]) && AskingOk(w, s.execs[e])
    ensures SteadyExec(Step(w, s, a).value.execs[e]) && AskingOk(w, Step(w, s, a).value.execs[e])
  {
    if e in s.execs {
      StepCalls(w, s, a, e);
      CallReturns(w, s.execs[e], Step(w, s, a).value.execs[e]);
    }
  }

  // A history grows by one event, and only where the program makes a call; so does
  // a Patch, which ends with an event.
  ghost predicate Called(w: Program, x: Exec, x': Exec) {
    if x'.history == x.history then x'.asking != x.asking ==> w(x.history).AskPatch?
    else
      && |x'.history| == |x.history| + 1 && x.history <= x'.history && !w(x.history).Finish?
      && (AskingOk(w, x) ==> x'.asking == Idle)
  }

  lemma CallReturns(w: Program, x: Exec, x': Exec)
    requires ReturnsFailures(w) && SteadyExec(x) && AskingOk(w, x) && Called(w, x, x')
    ensures SteadyExec(x') && AskingOk(w, x')
  {
    var h, h' := x.history, x'.history;
    if h != h' {
      assert Trunk(h) == h && h'[..|h|] == h;
    }
  }

  lemma StepCalls(w: Program, s: State, a: Action, e: nat)
    requires Step(w, s, a).Some? && e in s.execs && e in Step(w, s, a).value.execs
    ensures Called(w, s.execs[e], Step(w, s, a).value.execs[e])
  {
  }

  // Every execution that ran to the end without such an error has the result of evaluating
  // the program once on the final table, however long the evaluation is continued.
  lemma FinishedMatchesEvaluation(w: Program, log: Log, acts: seq<Action>, e: nat, n: nat)
    requires Justified(w, log) && Run(w, Initial(log), acts).Some? && Steady(Run(w, Initial(log), acts).value)
    requires var s := Run(w, Initial(log), acts).value;
             && e in s.execs && Unfailed(s.execs[e].history)
             && w(s.execs[e].history).Finish? && n >= |s.execs[e].history|
    ensures var s := Run(w, Initial(log), acts).value;
            w(Evaluate(w, s.log, n)) == w(s.execs[e].history)
  {
    RunsKeep(w, Initial(log), acts);
    var s := Run(w, Initial(log), acts).value;
    assert ExecOk(w, s.log, s.execs[e]);
    FinishedStandsStill(w, s.log, s.execs[e].history, n);
  }

  // An execution that was handed an error stands where the evaluation passes; at a
  // refused marker the evaluation goes on from the row in its place.
  lemma FailedOnPath(w: Program, log: Log, acts: seq<Action>, e: nat)
    requires Justified(w, log) && Run(w, Initial(log), acts).Some? && Steady(Run(w, Initial(log), acts).value)
    requires var s := Run(w, Initial(log), acts).value; e in s.execs && !Unfailed(s.execs[e].history)
    ensures var s := Run(w, Initial(log), acts).value; StoppedOnPath(w, s.log, s.execs[e].history)
  {
    RunsKeep(w, Initial(log), acts);
    var s := Run(w, Initial(log), acts).value;
    FailedExec(w, s.log, s.execs[e]);
  }

  ghost predicate StoppedOnPath(w: Program, log: Log, h: seq<Event>) {
    h != [] &&
    var g, ev := h[..|h| - 1], h[|h| - 1];
    && FailedAt(w, log, g, ev) && Evaluate(w, log, |g|) == g
    && (ev.PatchFailed? && ev.refused ==>
          Evaluate(w, log, |g| + 1) == g + [Patched(ev.patch, log[|Names(g)|].name == ev.patch)])
  }

  lemma FailedExec(w: Program, log: Log, x: Exec)
    requires ExecOk(w, log, x) && SteadyExec(x) && !Unfailed(x.history)
    ensures StoppedOnPath(w, log, x.history)
  {
    var g := Trunk(x.history);
    assert g != x.history;
    PathIsEvaluation(w, log, g);
    EvaluatesOn(w, log, g);
  }

  lemma EvaluatesOn(w: Program, log: Log, g: seq<Event>)
    requires Evaluate(w, log, |g|) == g
    ensures Evaluate(w, log, |g| + 1) ==
            if NextEvent(w, log, g).Some? then g + [NextEvent(w, log, g).value] else g
  {
  }

  /******* No second run after a record *******/

  // Step k is recorded, and execution e has not looked at it yet, has replayed it, or
  // was handed an error.
  ghost predicate NotRunning(s: State, e: nat, k: nat) {
    && k in s.log
    && (e in s.execs && k < |s.execs[e].flights| ==>
          s.execs[e].flights[k].Unchecked? || s.execs[e].flights[k].Settled? || s.execs[e].flights[k].Failed?)
  }

  predicate IsBody(a: Action, e: nat, k: nat) {
    a.RunBody? && a.e == e && a.k == k
  }

  lemma NotRunningProgram(w: Program, s: State, a: Action, e: nat, k: nat)
    requires Step(w, s, a).Some? && NotRunning(s, e, k)
    requires a.Start? || a.Stop? || a.IssueStep? || a.JoinStep? || a.ProbePatch? || a.InsertPatch?
             || a.FailPatch?
    ensures NotRunning(Step(w, s, a).value, e, k)
  {
  }

  lemma NotRunningStep(w: Program, s: State, a: Action, e: nat, k: nat)
    requires Step(w, s, a).Some? && NotRunning(s, e, k)
    ensures NotRunning(Step(w, s, a).value, e, k) && !IsBody(a, e, k)
  {
    match a
    case Check(_, _) =>
    case RunBody(_, _, _, _) =>
    case Record(_, _, _) =>
    case FailStep(_, _) =>
    case _ => NotRunningProgram(w, s, a, e, k);
  }

  // Once step k is recorded, an execution that has not yet checked it never runs its
  // body: no action of any continuation does.
  lemma {:induction false} NoRerun(w: Program, s: State, acts: seq<Action>, e: nat, k: nat)
    requires Run(w, s, acts).Some? && k in s.log
    requires e in s.execs && k < |s.execs[e].flights| ==> s.execs[e].flights[k].Unchecked?
    ensures forall i | 0 <= i < |acts| :: !IsBody(acts[i], e, k)
    ensures NotRunning(Run(w, s, acts).value, e, k)
    decreases |acts|
  {
    if acts != [] {
      var before := acts[..|acts| - 1];
      NoRerun(w, s, before, e, k);
      NotRunningStep(w, Run(w, s, before).value, acts[|acts| - 1], e, k);
      forall i | 0 <= i < |acts| ensures !IsBody(acts[i], e, k) {
        assert i < |before| ==> acts[i] == before[i];
      }
    }
  }

  /******* Every path can be walked *******/

  lemma {:induction false} RunConcat(w: Program, s: State, a: seq<Action>, b: seq<Action>)
    requires Run(w, s, a).Some?
    ensures Run(w, s, a + b) == Run(w, Run(w, s, a).value, b)
    decreases |b|
  {
    if b == [] {
      assert a + b == a;
    } else {
      RunConcat(w, s, a, b[..|b| - 1]);
      assert (a + b)[..|a + b| - 1] == a + b[..|b| - 1];
    }
  }

  lemma RunOne(w: Program, s: State, acts: seq<Action>, a: Action)
    requires Run(w, s, acts).Some?
    ensures Run(w, s, acts + [a]) == Step(w, Run(w, s, acts).value, a)
  {
    assert (acts + [a])[..|acts|] == acts;
  }

  // One step further along a run that ends in s'.
  lemma Then(w: Program, s: State, acts: seq<Action>, s': State, a: Action) returns (more: seq<Action>, s'': State)
    requires Run(w, s, acts) == Some(s') && Step(w, s', a).Some?
    ensures Run(w, s, more) == Some(s'') && Step(w, s', a) == Some(s'')
  {
    RunOne(w, s, acts, a);
    more, s'' := acts + [a], Step(w, s', a).value;
  }

  // The same, telling the actions.
  lemma ThenTold(w: Program, s: State, acts: seq<Action>, s': State, a: Action) returns (more: seq<Action>, s'': State)
    requires Run(w, s, acts) == Some(s') && Step(w, s', a).Some?
    ensures Run(w, s, more) == Some(s'') && Step(w, s', a) == Some(s'') && more == acts + [a]
  {
    RunOne(w, s, acts, a);
    more, s'' := acts + [a], Step(w, s', a).value;
  }

  // Execution 0, alone, stands at h and has settled only what it had to join.
  ghost predicate StandsAt(s: State, log: Log, h: seq<Event>) {
    && s.log == log && IsLive(s, 0) && s.execs.Keys == {0}
    && s.execs[0].history == h
    && |s.execs[0].flights| == |Names(h)|
    && (forall k | 0 <= k < |s.execs[0].flights| ::
          || s.execs[0].flights[k].Unchecked?
          || (k in log && s.execs[0].flights[k] == Settled(log[k].outcome)))
  }

  lemma ReplayJoin(w: Program, log: Log, s: State, h: seq<Event>, k: nat) returns (acts: seq<Action>)
    requires StandsAt(s, log, h) && w(h) == Join(k) && k < |Names(h)| && k in log && log[k].name == Names(h)[k]
    ensures Run(w, s, acts).Some? && StandsAt(Run(w, s, acts).value, log, h + [Joined(k, log[k].outcome)])
  {
    NamesAppend(h, Joined(k, log[k].outcome));
    assert Run(w, s, []) == Some(s);
    if s.execs[0].flights[k].Unchecked? {
      RunOne(w, s, [], Check(0, k));
      var s1 := Step(w, s, Check(0, k)).value;
      assert StandsAt(s1, log, h);
      RunOne(w, s, [Check(0, k)], JoinStep(0));
      assert [] + [Check(0, k)] == [Check(0, k)];
      acts := [Check(0, k)] + [JoinStep(0)];
    } else {
      RunOne(w, s, [], JoinStep(0));
      acts := [] + [JoinStep(0)];
    }
  }

  lemma ReplayIssue(w: Program, log: Log, s: State, h: seq<Event>, name: string) returns (acts: seq<Action>)
    requires StandsAt(s, log, h) && w(h) == Issue(name)
    ensures Run(w, s, acts).Some? && StandsAt(Run(w, s, acts).value, log, h + [Issued(name)])
  {
    NamesAppend(h, Issued(name));
    var s';
    assert Run(w, s, []) == Some(s);
    acts, s' := Then(w, s, [], s, IssueStep(0));
  }

  lemma ReplayPatch(w: Program, log: Log, s: State, h: seq<Event>, e: Event) returns (acts: seq<Action>)
    requires StandsAt(s, log, h) && e.Patched? && NextEvent(w, log, h) == Some(e)
    ensures Run(w, s, acts).Some? && StandsAt(Run(w, s, acts).value, log, h + [e])
  {
    var s';
    assert Run(w, s, []) == Some(s);
    acts, s' := Then(w, s, [], s, ProbePatch(0));
    assert s' == Put(s, 0, Answer(s.execs[0], e.patch, log[|Names(h)|]));
    StandsAnswered(s, log, h, e.patch);
  }

  lemma StandsAnswered(s: State, log: Log, h: seq<Event>, p: string)
    requires StandsAt(s, log, h) && |Names(h)| in log
    ensures var row := log[|Names(h)|];
            StandsAt(Put(s, 0, Answer(s.execs[0], p, row)), log, h + [Patched(p, row.name == p)])
  {
    NamesAppend(h, Patched(p, log[|Names(h)|].name == p));
  }

  lemma ReplayEvent(w: Program, log: Log, s: State, h: seq<Event>, e: Event) returns (acts: seq<Action>)
    requires StandsAt(s, log, h) && NextEvent(w, log, h) == Some(e)
    requires forall k | k in log && k < |Names(h)| :: log[k].name == Names(h)[k]
    ensures Run(w, s, acts).Some? && StandsAt(Run(w, s, acts).value, log, h + [e])
  {
    match e
    case Issued(name) => acts := ReplayIssue(w, log, s, h, name);
    case Joined(k, _) => acts := ReplayJoin(w, log, s, h, k);
    case Patched(_, _) => acts := ReplayPatch(w, log, s, h, e);
  }

  // Every history the table supports is the history of some execution, which
  // replays it without running a body or writing a row.
  lemma {:induction false} CanReplay(w: Program, log: Log, h: seq<Event>) returns (acts: seq<Action>)
    requires OnPath(w, log, h)
    requires forall k | k in log && k < |Names(h)| :: log[k].name == Names(h)[k]
    ensures Run(w, Initial(log), acts).Some?
    ensures StandsAt(Run(w, Initial(log), acts).value, log, h)
    decreases |h|
  {
    if h == [] {
      assert Run(w, Initial(log), []) == Some(Initial(log));
      RunOne(w, Initial(log), [], Start(0));
      acts := [] + [Start(0)];
    } else {
      var g, e := h[..|h| - 1], h[|h| - 1];
      assert h == g + [e];
      NamesAppend(g, e);
      PathPrefix(w, log, h, |h| - 1);
      var acts0 := CanReplay(w, log, g);
      assert FollowsAt(w, log, h, |g|);
      var acts1 := ReplayEvent(w, log, Run(w, Initial(log), acts0).value, g, e);
      RunConcat(w, Initial(log), acts0, acts1);
      acts := acts0 + acts1;
    }
  }
}
