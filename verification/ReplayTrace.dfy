/**
Where the rows of the step table come from, told from the actions of a run: a row
holds what a run of that step's body returned, and a workflow continues from that.
*/
module ReplayTrace {
  import opened Base
  import opened Replay
  import opened ReplayProofs

  /******* Bodies and markers *******/

  // Before acts[n], its execution had issued step k under that name.
  ghost predicate NamedAt(w: Program, log: Log, acts: seq<Action>, n: nat, k: nat, name: string) {
    && n < |acts| && Run(w, Initial(log), acts[..n]).Some?
    && var s := Run(w, Initial(log), acts[..n]).value;
    && acts[n].e in s.execs
    && k < |Names(s.execs[acts[n].e].history)| && Names(s.execs[acts[n].e].history)[k] == name
  }

  // acts[n] ran the body of step k, and the row says what it returned.
  ghost predicate BodyAt(w: Program, log: Log, acts: seq<Action>, n: nat, k: nat, row: Row) {
    && NamedAt(w, log, acts, n, k, row.name)
    && acts[n].RunBody? && acts[n].k == k && acts[n].outcome == row.outcome && acts[n].stamp == row.stamp
  }

  // acts[n] inserted the marker of the patch its execution was asking for.
  ghost predicate MarkerAt(w: Program, log: Log, acts: seq<Action>, n: nat, k: nat, row: Row) {
    && n < |acts| && acts[n].InsertPatch? && Run(w, Initial(log), acts[..n]).Some?
    && var s := Run(w, Initial(log), acts[..n]).value;
    && acts[n].e in s.execs && |Names(s.execs[acts[n].e].history)| == k
    && w(s.execs[acts[n].e].history) == AskPatch(row.name)
    && row.outcome == Output("") && acts[n].stamp == row.stamp
  }

  ghost predicate Origin(w: Program, log: Log, acts: seq<Action>, k: nat, row: Row) {
    exists n: nat :: BodyAt(w, log, acts, n, k, row) || MarkerAt(w, log, acts, n, k, row)
  }

  // Execution e itself ran the body.
  ghost predicate OwnBody(w: Program, log: Log, acts: seq<Action>, e: nat, k: nat, row: Row) {
    exists n: nat :: BodyAt(w, log, acts, n, k, row) && acts[n].e == e
  }

  lemma OriginStays(w: Program, log: Log, acts: seq<Action>, a: Action, k: nat, row: Row)
    requires Origin(w, log, acts, k, row)
    ensures Origin(w, log, acts + [a], k, row)
  {
    var n: nat :| BodyAt(w, log, acts, n, k, row) || MarkerAt(w, log, acts, n, k, row);
    assert (acts + [a])[..n] == acts[..n];
    assert BodyAt(w, log, acts + [a], n, k, row) || MarkerAt(w, log, acts + [a], n, k, row);
  }

  lemma OwnBodyStays(w: Program, log: Log, acts: seq<Action>, a: Action, e: nat, k: nat, row: Row)
    requires OwnBody(w, log, acts, e, k, row)
    ensures OwnBody(w, log, acts + [a], e, k, row) && Origin(w, log, acts + [a], k, row)
  {
    var n: nat :| BodyAt(w, log, acts, n, k, row) && acts[n].e == e;
    assert (acts + [a])[..n] == acts[..n];
    assert BodyAt(w, log, acts + [a], n, k, row) && (acts + [a])[n].e == e;
  }

  // A new row is what its execution's own run of the body left to be recorded, or a
  // marker.
  lemma RowArises(w: Program, s: State, a: Action, k: nat)
    requires Step(w, s, a).Some? && k !in s.log && k in Step(w, s, a).value.log
    ensures a.e in s.execs
    ensures var x, row := s.execs[a.e], Step(w, s, a).value.log[k];
            || (a.Record? && a.k == k && k < |x.flights| && x.flights[k] == Ran(row))
            || (a.InsertPatch? && k == |Names(x.history)| && w(x.history) == AskPatch(row.name)
                && row.outcome == Output("") && row.stamp == a.stamp)
  {
  }

  // What is left to be recorded is what the body returned.
  lemma RanArises(w: Program, s: State, a: Action, e: nat, k: nat)
    requires Step(w, s, a).Some?
    requires var s' := Step(w, s, a).value;
             e in s'.execs && k < |s'.execs[e].flights| && s'.execs[e].flights[k].Ran?
    ensures e in s.execs
    ensures RanBefore(s, a, e, k, Step(w, s, a).value.execs[e].flights[k].row)
  {
    match a
    case Check(_, _) => RanInFlight(w, s, a, e, k);
    case RunBody(_, _, _, _) => RanInFlight(w, s, a, e, k);
    case Record(_, _, _) => RanInFlight(w, s, a, e, k);
    case FailStep(_, _) => RanInFlight(w, s, a, e, k);
    case _ =>
  }

  predicate RanBefore(s: State, a: Action, e: nat, k: nat, row: Row)
    requires e in s.execs
  {
    var x := s.execs[e];
    || (k < |x.flights| && x.flights[k] == Ran(row))
    || (k < |Names(x.history)| && a == RunBody(e, k, row.outcome, row.stamp) && row.name == Names(x.history)[k])
  }

  lemma RanInFlight(w: Program, s: State, a: Action, e: nat, k: nat)
    requires Step(w, s, a).Some? && (a.Check? || a.RunBody? || a.Record? || a.FailStep?)
    requires var s' := Step(w, s, a).value;
             e in s'.execs && k < |s'.execs[e].flights| && s'.execs[e].flights[k].Ran?
    ensures e in s.execs
    ensures RanBefore(s, a, e, k, Step(w, s, a).value.execs[e].flights[k].row)
  {
  }

  ghost predicate RowTold(w: Program, log: Log, acts: seq<Action>, k: nat)
    requires Run(w, Initial(log), acts).Some?
  {
    var s := Run(w, Initial(log), acts).value;
    k in s.log && k !in log ==> Origin(w, log, acts, k, s.log[k])
  }

  ghost predicate RanTold(w: Program, log: Log, acts: seq<Action>, e: nat, k: nat)
    requires Run(w, Initial(log), acts).Some?
  {
    var s := Run(w, Initial(log), acts).value;
    e in s.execs && k < |s.execs[e].flights| && s.execs[e].flights[k].Ran? ==>
      OwnBody(w, log, acts, e, k, s.execs[e].flights[k].row)
  }

  lemma {:induction false} RanComesFromBody(w: Program, log: Log, acts: seq<Action>, e: nat, k: nat)
    requires Run(w, Initial(log), acts).Some?
    ensures RanTold(w, log, acts, e, k)
    decreases |acts|
  {
    if acts != [] {
      var before, a := acts[..|acts| - 1], acts[|acts| - 1];
      var s, s' := Run(w, Initial(log), before).value, Run(w, Initial(log), acts).value;
      RanComesFromBody(w, log, before, e, k);
      assert acts == before + [a];
      if e in s'.execs && k < |s'.execs[e].flights| && s'.execs[e].flights[k].Ran? {
        var row := s'.execs[e].flights[k].row;
        RanArises(w, s, a, e, k);
        if k < |s.execs[e].flights| && s.execs[e].flights[k] == Ran(row) {
          OwnBodyStays(w, log, before, a, e, k, row);
        } else {
          assert BodyAt(w, log, acts, |before|, k, row) && acts[|before|].e == e;
        }
      }
    }
  }

  // Every row that a run adds, whatever its executions do, holds the name, the outcome
  // and the stamp of a run of that step's body, or is a marker.
  lemma {:induction false} RowsAreResults(w: Program, log: Log, acts: seq<Action>, k: nat)
    requires Run(w, Initial(log), acts).Some?
    ensures RowTold(w, log, acts, k)
    decreases |acts|
  {
    if acts != [] {
      var before, a := acts[..|acts| - 1], acts[|acts| - 1];
      var s, s' := Run(w, Initial(log), before).value, Run(w, Initial(log), acts).value;
      RowsAreResults(w, log, before, k);
      assert acts == before + [a];
      if k in s'.log && k !in log {
        var row := s'.log[k];
        if k in s.log {
          StepExtends(w, s, a);
          OriginStays(w, log, before, a, k, row);
        } else {
          RowArises(w, s, a, k);
          if a.Record? {
            RanComesFromBody(w, log, before, a.e, k);
            OwnBodyStays(w, log, before, a, a.e, k, row);
          } else {
            assert MarkerAt(w, log, acts, |before|, k, row);
          }
        }
      }
    }
  }

  /******* What a workflow continues from *******/

  ghost predicate FlightTrue(log: Log, name: string, k: nat, f: Flight) {
    && (f.Settled? ==> k in log && log[k].outcome == f.outcome && log[k].name == name)
    && (f.Ran? ==> f.row.name == name)
  }

  ghost predicate JoinTrue(log: Log, h: seq<Event>, i: nat)
    requires i < |h|
  {
    h[i].Joined? ==>
      var k := h[i].step;
      k < |Names(h)| && k in log && log[k].outcome == h[i].outcome && log[k].name == Names(h)[k]
  }

  ghost predicate ExecTrue(log: Log, x: Exec) {
    && |x.flights| == |Names(x.history)|
    && (forall k: nat | k < |x.flights| :: FlightTrue(log, Names(x.history)[k], k, x.flights[k]))
    && (forall i: nat | i < |x.history| :: JoinTrue(log, x.history, i))
  }

  lemma TrueGrows(log: Log, log': Log, x: Exec)
    requires ExecTrue(log, x) && Extends(log, log')
    ensures ExecTrue(log', x)
  {
    forall k: nat | k < |x.flights| ensures FlightTrue(log', Names(x.history)[k], k, x.flights[k]) {
      assert FlightTrue(log, Names(x.history)[k], k, x.flights[k]);
    }
    forall i: nat | i < |x.history| ensures JoinTrue(log', x.history, i) {
      assert JoinTrue(log, x.history, i);
    }
  }

  // A history that goes on by one event, with the flights that belong to it.
  lemma TrueAppends(log: Log, x: Exec, ev: Event, more: seq<Flight>, asking: Asking)
    requires ExecTrue(log, x) && |more| == |Taken(ev)|
    requires forall j: nat | j < |more| :: FlightTrue(log, Taken(ev)[j], |x.flights| + j, more[j])
    requires ev.Joined? ==>
               && ev.step < |x.flights| && ev.step in log
               && log[ev.step].outcome == ev.outcome && log[ev.step].name == Names(x.history)[ev.step]
    ensures ExecTrue(log, x.(history := x.history + [ev], flights := x.flights + more, asking := asking))
  {
    var h := x.history + [ev];
    NamesAppend(x.history, ev);
    forall k: nat | k < |x.flights + more| ensures FlightTrue(log, Names(h)[k], k, (x.flights + more)[k]) {
      if k < |x.flights| {
        assert FlightTrue(log, Names(x.history)[k], k, x.flights[k]);
      } else {
        var j: nat := k - |x.flights|;
        assert Names(h)[k] == Taken(ev)[j];
      }
    }
    forall i: nat | i < |h| ensures JoinTrue(log, h, i) {
      if i < |x.history| {
        assert JoinTrue(log, x.history, i) && h[i] == x.history[i];
      }
    }
  }

  lemma TrueMoves(log: Log, x: Exec, k: nat, f: Flight)
    requires ExecTrue(log, x) && k < |x.flights| && FlightTrue(log, Names(x.history)[k], k, f)
    ensures ExecTrue(log, x.(flights := x.flights[k := f]))
  {
  }

  // The steps of one flight.
  lemma FlightSteps(w: Program, s: State, a: Action)
    requires Step(w, s, a).Some? && a.e in s.execs && ExecTrue(s.log, s.execs[a.e])
    requires a.Check? || a.RunBody? || a.Record? || a.FailStep?
    ensures ExecTrue(Step(w, s, a).value.log, Step(w, s, a).value.execs[a.e])
  {
    var x, s' := s.execs[a.e], Step(w, s, a).value;
    assert FlightTrue(s.log, Names(x.history)[a.k], a.k, x.flights[a.k]);
    StepExtends(w, s, a);
    TrueGrows(s.log, s'.log, x);
    TrueMoves(s'.log, x, a.k, s'.execs[a.e].flights[a.k]);
    assert s'.execs[a.e].flights == x.flights[a.k := s'.execs[a.e].flights[a.k]];
  }

  // The calls the program makes.
  lemma CallSteps(w: Program, s: State, a: Action)
    requires Step(w, s, a).Some? && a.e in s.execs && ExecTrue(s.log, s.execs[a.e])
    requires a.IssueStep? || a.JoinStep? || a.FailPatch?
    ensures ExecTrue(Step(w, s, a).value.log, Step(w, s, a).value.execs[a.e])
  {
    var x := s.execs[a.e];
    match a
    case IssueStep(_) => TrueAppends(s.log, x, Issued(w(x.history).name), [Unchecked], x.asking);
    case JoinStep(_) =>
      var k := w(x.history).step;
      assert FlightTrue(s.log, Names(x.history)[k], k, x.flights[k]);
      var ev := if x.flights[k].Settled? then Joined(k, x.flights[k].outcome) else StepFailed(k);
      TrueAppends(s.log, x, ev, [], x.asking);
      assert x.flights + [] == x.flights;
    case FailPatch(_) =>
      TrueAppends(s.log, x, PatchFailed(w(x.history).patch, false), [], Idle);
      assert x.flights + [] == x.flights;
  }

  lemma TrueAnswers(log: Log, x: Exec, p: string)
    requires ExecTrue(log, x) && |x.flights| in log
    ensures ExecTrue(log, Answer(x, p, log[|x.flights|]))
  {
    var row := log[|x.flights|];
    if row.name == p {
      TrueAppends(log, x, Patched(p, true), [Settled(row.outcome)], Idle);
    } else {
      TrueAppends(log, x, Patched(p, false), [], Idle);
      assert x.flights + [] == x.flights;
    }
  }

  lemma PatchSteps(w: Program, s: State, a: Action)
    requires Step(w, s, a).Some? && a.e in s.execs && ExecTrue(s.log, s.execs[a.e])
    requires a.ProbePatch? || a.InsertPatch?
    ensures ExecTrue(Step(w, s, a).value.log, Step(w, s, a).value.execs[a.e])
  {
    var x, s' := s.execs[a.e], Step(w, s, a).value;
    var p := w(x.history).patch;
    StepExtends(w, s, a);
    TrueGrows(s.log, s'.log, x);
    if |x.flights| in s'.log && s'.execs[a.e] == Answer(x, p, s'.log[|x.flights|]) {
      TrueAnswers(s'.log, x, p);
    } else if s'.execs[a.e].history != x.history {
      TrueAppends(s'.log, x, PatchFailed(p, true), [], Idle);
      assert x.flights + [] == x.flights;
    }
  }

  lemma StepsTrue(w: Program, s: State, a: Action, e: nat)
    requires Step(w, s, a).Some? && e in Step(w, s, a).value.execs
    requires e in s.execs ==> ExecTrue(s.log, s.execs[e])
    ensures ExecTrue(Step(w, s, a).value.log, Step(w, s, a).value.execs[e])
  {
    StepExtends(w, s, a);
    if e in s.execs {
      TrueGrows(s.log, Step(w, s, a).value.log, s.execs[e]);
    }
    if e == a.e && e in s.execs {
      match a
      case Stop(_) =>
      case ProbePatch(_) => PatchSteps(w, s, a);
      case InsertPatch(_, _, _) => PatchSteps(w, s, a);
      case IssueStep(_) => CallSteps(w, s, a);
      case JoinStep(_) => CallSteps(w, s, a);
      case FailPatch(_) => CallSteps(w, s, a);
      case _ => FlightSteps(w, s, a);
    }
  }

  lemma {:induction false} RunsTrue(w: Program, log: Log, acts: seq<Action>, e: nat)
    requires Run(w, Initial(log), acts).Some? && e in Run(w, Initial(log), acts).value.execs
    ensures ExecTrue(Run(w, Initial(log), acts).value.log, Run(w, Initial(log), acts).value.execs[e])
    decreases |acts|
  {
    if acts != [] {
      var before, a := acts[..|acts| - 1], acts[|acts| - 1];
      var s := Run(w, Initial(log), before).value;
      if e in s.execs {
        RunsTrue(w, log, before, e);
      }
      StepsTrue(w, s, a, e);
    }
  }

  // In every run, with any errors and whatever the programs do about them: a workflow
  // continues from step k with the outcome in k's row, recorded under the name it has
  // given k itself; and a row that the run added holds what a run of that body, for
  // that ID and under that name, returned.
  lemma ContinuesFromResults(w: Program, log: Log, acts: seq<Action>, e: nat, i: nat)
    requires Run(w, Initial(log), acts).Some? && e in Run(w, Initial(log), acts).value.execs
    requires var h := Run(w, Initial(log), acts).value.execs[e].history; i < |h| && h[i].Joined?
    ensures var s := Run(w, Initial(log), acts).value;
            var h := s.execs[e].history;
            var k := h[i].step;
            && k < |Names(h)| && k in s.log && s.log[k].outcome == h[i].outcome && s.log[k].name == Names(h)[k]
            && (k !in log ==> Origin(w, log, acts, k, Row(Names(h)[k], h[i].outcome, s.log[k].stamp)))
  {
    RunsTrue(w, log, acts, e);
    var s := Run(w, Initial(log), acts).value;
    assert JoinTrue(s.log, s.execs[e].history, i);
    RowsAreResults(w, log, acts, s.execs[e].history[i].step);
  }

  /******* What a step can do *******/

  ghost predicate At(s: State, e: nat, k: nat, f: Flight) {
    IsLive(s, e) && k < |s.execs[e].flights| && k < |Names(s.execs[e].history)| && s.execs[e].flights[k] == f
  }

  function With(s: State, e: nat, k: nat, f: Flight): State
    requires e in s.execs && k < |s.execs[e].flights|
  {
    Put(s, e, s.execs[e].(flights := s.execs[e].flights[k := f]))
  }

  // Wherever a step that is not recorded is checked and its body returns o, o can be
  // recorded under the step's own name, also when the first answer is lost, and
  // nothing else changes; the workflow that joins the step then continues from o.
  lemma AnyResultCanBeRecorded(w: Program, s: State, e: nat, k: nat, o: Outcome, stamp: nat, acked: bool)
    returns (acts: seq<Action>)
    requires At(s, e, k, Unchecked) && k !in s.log
    ensures var row := Row(Names(s.execs[e].history)[k], o, stamp);
            Run(w, s, acts) == Some(With(s, e, k, Settled(o)).(log := s.log[k := row]))
    ensures w(s.execs[e].history) == Join(k) ==>
              && Run(w, s, acts + [JoinStep(e)]).Some?
              && Run(w, s, acts + [JoinStep(e)]).value.execs[e].history == s.execs[e].history + [Joined(k, o)]
  {
    acts := ResultRecorded(w, s, e, k, o, stamp, acked);
    if w(s.execs[e].history) == Join(k) {
      RunOne(w, s, acts, JoinStep(e));
    }
  }

  lemma ResultRecorded(w: Program, s: State, e: nat, k: nat, o: Outcome, stamp: nat, acked: bool)
    returns (acts: seq<Action>)
    requires At(s, e, k, Unchecked) && k !in s.log
    ensures var row := Row(Names(s.execs[e].history)[k], o, stamp);
            Run(w, s, acts) == Some(With(s, e, k, Settled(o)).(log := s.log[k := row]))
  {
    var row := Row(Names(s.execs[e].history)[k], o, stamp);
    BodyMoves(w, s, e, k, o, stamp);
    RecordMoves(w, s, e, k, row, acked);
    var t;
    assert Run(w, s, []) == Some(s);
    acts, t := Then(w, s, [], s, Check(e, k));
    acts, t := Then(w, s, acts, t, RunBody(e, k, o, stamp));
    acts, t := Then(w, s, acts, t, Record(e, k, acked));
    if !acked {
      acts, t := Then(w, s, acts, t, Record(e, k, true));
    }
  }

  lemma BodyMoves(w: Program, s: State, e: nat, k: nat, o: Outcome, stamp: nat)
    requires At(s, e, k, Unchecked) && k !in s.log
    ensures Step(w, s, Check(e, k)) == Some(With(s, e, k, MustRun))
    ensures Step(w, With(s, e, k, MustRun), RunBody(e, k, o, stamp)) ==
            Some(With(s, e, k, Ran(Row(Names(s.execs[e].history)[k], o, stamp))))
  {
    var row := Row(Names(s.execs[e].history)[k], o, stamp);
    var t := Step(w, With(s, e, k, MustRun), RunBody(e, k, o, stamp)).value;
    assert t.execs[e].flights == With(s, e, k, Ran(row)).execs[e].flights;
    assert t.execs == With(s, e, k, Ran(row)).execs;
  }

  lemma RecordMoves(w: Program, s: State, e: nat, k: nat, row: Row, acked: bool)
    requires At(s, e, k, Unchecked) && k !in s.log
    ensures var t, done := With(s, e, k, Ran(row)), With(s, e, k, Settled(row.outcome)).(log := s.log[k := row]);
            && Step(w, t, Record(e, k, acked)) == Some(if acked then done else t.(log := done.log))
            && Step(w, t.(log := done.log), Record(e, k, true)) == Some(done)
  {
    var t, done := With(s, e, k, Ran(row)), With(s, e, k, Settled(row.outcome)).(log := s.log[k := row]);
    var x := t.execs[e].(flights := t.execs[e].flights[k := Settled(row.outcome)]);
    assert x.flights == done.execs[e].flights;
    assert t.execs[e := x] == done.execs;
  }

  // A record on a free ID puts the row into the table, whether or not its answer
  // arrives; only who hears the answer continues from it.
  lemma RecordLands(w: Program, s: State, e: nat, k: nat, row: Row, acked: bool)
    requires At(s, e, k, Ran(row)) && k !in s.log
    ensures Step(w, s, Record(e, k, acked)).Some?
    ensures var s' := Step(w, s, Record(e, k, acked)).value;
            && s'.log == s.log[k := row]
            && s'.execs == if acked then With(s, e, k, Settled(row.outcome)).execs else s.execs
  {
  }

  // Who comes to record another result than the one in the table changes nothing and
  // is over; who comes with the same one continues.
  lemma RecordedIsFinal(w: Program, s: State, e: nat, k: nat, row: Row, acked: bool)
    requires At(s, e, k, Ran(row)) && k in s.log
    ensures Step(w, s, Record(e, k, acked)).Some?
    ensures var s' := Step(w, s, Record(e, k, acked)).value;
            && s'.log == s.log && e in s'.execs && s'.execs[e].history == s.execs[e].history
            && (s.log[k] == row ==> At(s', e, k, Settled(row.outcome)))
            && (s.log[k] != row ==> !IsLive(s', e))
            && (s'.execs[e].status == Conflicted <==> s.log[k] != row && s.log[k].name == row.name)
  {
  }

  // Who meets another step's row is over, and takes nothing from it.
  lemma OtherNameIsRefused(w: Program, s: State, e: nat, k: nat)
    requires At(s, e, k, Unchecked) && k in s.log
    ensures Step(w, s, Check(e, k)).Some?
    ensures var s' := Step(w, s, Check(e, k)).value;
            && s'.log == s.log
            && (s.log[k].name == Names(s.execs[e].history)[k] ==> At(s', e, k, Settled(s.log[k].outcome)))
            && (s.log[k].name != Names(s.execs[e].history)[k] ==>
                  s'.execs == s.execs[e := s.execs[e].(status := Unexpected)])
  {
  }

  // An execution that is over stays as it is.
  lemma {:induction false} OverStaysOver(w: Program, s: State, acts: seq<Action>, e: nat)
    requires Run(w, s, acts).Some? && e in s.execs && !IsLive(s, e)
    ensures e in Run(w, s, acts).value.execs && Run(w, s, acts).value.execs[e] == s.execs[e]
    decreases |acts|
  {
    if acts != [] {
      OverStaysOver(w, s, acts[..|acts| - 1], e);
      OthersStand(w, Run(w, s, acts[..|acts| - 1]).value, acts[|acts| - 1], e);
    }
  }

  lemma OthersStand(w: Program, s: State, a: Action, e: nat)
    requires Step(w, s, a).Some? && e in s.execs && (e != a.e || !IsLive(s, e))
    ensures e in Step(w, s, a).value.execs && Step(w, s, a).value.execs[e] == s.execs[e]
  {
  }

  lemma StoppedIsOver(w: Program, s: State, e: nat)
    requires IsLive(s, e)
    ensures Step(w, s, Stop(e)).Some? && !IsLive(Step(w, s, Stop(e)).value, e)
    ensures Step(w, s, Stop(e)).value.log == s.log
  {
  }

  // When each action is possible: an execution makes the call its program makes next,
  // and a step that was issued is checked, run and recorded in that order.
  ghost predicate CanTake(w: Program, s: State, a: Action) {
    if a.Start? then a.e !in s.execs
    else
      IsLive(s, a.e) &&
      var x := s.execs[a.e];
      match a
      case Stop(_) => true
      case IssueStep(_) => w(x.history).Issue?
      case Check(_, k) => At(s, a.e, k, Unchecked)
      case RunBody(_, k, _, _) => At(s, a.e, k, MustRun)
      case Record(_, k, _) => k < |x.flights| && x.flights[k].Ran?
      case FailStep(_, k) => k < |x.flights|
      case JoinStep(_) =>
        && w(x.history).Join? && w(x.history).step < |x.flights|
        && (x.flights[w(x.history).step].Settled? || x.flights[w(x.history).step].Failed?)
      case ProbePatch(_) => w(x.history).AskPatch?
      case InsertPatch(_, _, _) => w(x.history).AskPatch? && x.asking == Looked
      case FailPatch(_) => w(x.history).AskPatch?
      case _ => true
  }

  lemma StepsWhenPossible(w: Program, s: State, a: Action)
    ensures Step(w, s, a).Some? <==> CanTake(w, s, a)
  {
  }

  // A Patch that finds no row claims the ID with its marker; if the answer to that is
  // lost, it looks again and finds the marker. Either way it answers true.
  lemma PatchClaims(w: Program, s: State, e: nat, p: string, stamp: nat, acked: bool) returns (acts: seq<Action>)
    requires IsLive(s, e) && w(s.execs[e].history) == AskPatch(p) && |Names(s.execs[e].history)| !in s.log
    ensures Run(w, s, acts) == Some(PatchedState(s, e, p, stamp))
    ensures PatchedState(s, e, p, stamp).execs[e].history == s.execs[e].history + [Patched(p, true)]
    ensures PatchedState(s, e, p, stamp).log == s.log[|Names(s.execs[e].history)| := Row(p, Output(""), stamp)]
  {
    var t;
    assert Run(w, s, []) == Some(s);
    LookMoves(w, s, e, p);
    acts, t := Then(w, s, [], s, ProbePatch(e));
    ClaimMoves(w, s, e, p, stamp, acked);
    acts, t := Then(w, s, acts, t, InsertPatch(e, stamp, acked));
    if !acked {
      LookAgain(w, s, e, p, stamp);
      acts, t := Then(w, s, acts, t, ProbePatch(e));
    }
  }

  function Asks(s: State, e: nat, asking: Asking): State
    requires e in s.execs
  {
    Put(s, e, s.execs[e].(asking := asking))
  }

  function PatchedState(s: State, e: nat, p: string, stamp: nat): State
    requires e in s.execs
  {
    var row := Row(p, Output(""), stamp);
    Put(s, e, Answer(s.execs[e], p, row)).(log := s.log[|Names(s.execs[e].history)| := row])
  }

  lemma LookMoves(w: Program, s: State, e: nat, p: string)
    requires IsLive(s, e) && w(s.execs[e].history) == AskPatch(p) && |Names(s.execs[e].history)| !in s.log
    ensures Step(w, s, ProbePatch(e)) == Some(Asks(s, e, Looked))
  {
  }

  lemma ClaimMoves(w: Program, s: State, e: nat, p: string, stamp: nat, acked: bool)
    requires IsLive(s, e) && w(s.execs[e].history) == AskPatch(p) && |Names(s.execs[e].history)| !in s.log
    ensures Step(w, Asks(s, e, Looked), InsertPatch(e, stamp, acked)) ==
            Some(if acked then PatchedState(s, e, p, stamp)
                 else Asks(s, e, Claimed).(log := PatchedState(s, e, p, stamp).log))
  {
    var t := Step(w, Asks(s, e, Looked), InsertPatch(e, stamp, acked)).value;
    assert t.execs == if acked then PatchedState(s, e, p, stamp).execs else Asks(s, e, Claimed).execs;
  }

  lemma LookAgain(w: Program, s: State, e: nat, p: string, stamp: nat)
    requires IsLive(s, e) && w(s.execs[e].history) == AskPatch(p) && |Names(s.execs[e].history)| !in s.log
    ensures var t := Asks(s, e, Claimed).(log := PatchedState(s, e, p, stamp).log);
            && !CanTake(w, t, InsertPatch(e, stamp, true))
            && Step(w, t, ProbePatch(e)) == Some(PatchedState(s, e, p, stamp))
  {
    var t := Asks(s, e, Claimed).(log := PatchedState(s, e, p, stamp).log);
    assert Step(w, t, ProbePatch(e)).value.execs == PatchedState(s, e, p, stamp).execs;
  }

}
