/**
A step whose result cannot be recorded. RunAsStep runs the body, fails to encode what
it returned, writes no row and hands the error to the workflow.
*/
module LostResults {
  import opened Base
  import opened Replay
  import opened ReplayProofs

  // The first execution has run step a and was handed the error.
  function Unencoded(name: string): Exec {
    Exec([Issued(name), StepFailed(0)], [Failed], Idle, Live)
  }

  lemma NamesOfStep(name: string, e: Event)
    requires Taken(e) == []
    ensures Names([Issued(name)]) == [name] && Names([Issued(name), e]) == [name]
  {
    NamesAppend([], Issued(name));
    assert [] + [Issued(name)] == [Issued(name)];
    NamesAppend([Issued(name)], e);
    assert [Issued(name)] + [e] == [Issued(name), e];
  }

  // Execution e comes to issue its first step,
  lemma FirstIssue(w: Program, name: string, before: seq<Action>, s0: State, e: nat)
    returns (acts: seq<Action>, s: State)
    requires Run(w, Initial(map[]), before) == Some(s0) && w([]) == Issue(name) && e !in s0.execs
    ensures Run(w, Initial(map[]), acts) == Some(s)
    ensures s == Put(s0, e, Exec([Issued(name)], [Unchecked], Idle, Live))
  {
    acts, s := Then(w, Initial(map[]), before, s0, Start(e));
    acts, s := Then(w, Initial(map[]), acts, s, IssueStep(e));
    assert s.execs[e] == Exec([Issued(name)], [Unchecked], Idle, Live);
    assert s.execs == s0.execs[e := s.execs[e]];
  }

  // and to run it.
  lemma FirstBody(w: Program, name: string, before: seq<Action>, s0: State, e: nat, o: Outcome)
    returns (acts: seq<Action>, s: State)
    requires Run(w, Initial(map[]), before) == Some(s0) && w([]) == Issue(name) && e !in s0.execs && 0 !in s0.log
    ensures Run(w, Initial(map[]), acts) == Some(s)
    ensures s == Put(s0, e, Exec([Issued(name)], [Ran(Row(name, o, 0))], Idle, Live))
    ensures RunBody(e, 0, o, 0) in acts
  {
    acts, s := FirstIssue(w, name, before, s0, e);
    CheckedFirst(w, name, s, e);
    acts, s := Then(w, Initial(map[]), acts, s, Check(e, 0));
    RanFirst(w, name, s, e, o);
    acts, s := ThenTold(w, Initial(map[]), acts, s, RunBody(e, 0, o, 0));
    assert s.execs == s0.execs[e := s.execs[e]];
  }

  lemma CheckedFirst(w: Program, name: string, s: State, e: nat)
    requires e in s.execs && s.execs[e] == Exec([Issued(name)], [Unchecked], Idle, Live) && 0 !in s.log
    ensures Step(w, s, Check(e, 0)) == Some(Put(s, e, Exec([Issued(name)], [MustRun], Idle, Live)))
  {
    NamesOfStep(name, StepFailed(0));
    assert [Unchecked][0 := MustRun] == [MustRun];
  }

  lemma RanFirst(w: Program, name: string, s: State, e: nat, o: Outcome)
    requires e in s.execs && s.execs[e] == Exec([Issued(name)], [MustRun], Idle, Live)
    ensures var x := Exec([Issued(name)], [Ran(Row(name, o, 0))], Idle, Live);
            Step(w, s, RunBody(e, 0, o, 0)) == Some(Put(s, e, x))
  {
    NamesOfStep(name, StepFailed(0));
    assert [MustRun][0 := Ran(Row(name, o, 0))] == [Ran(Row(name, o, 0))];
  }

  lemma FailsToEncode(w: Program, name: string, o: Outcome) returns (acts: seq<Action>, s: State)
    requires w([]) == Issue(name) && w([Issued(name)]) == Join(0)
    ensures Run(w, Initial(map[]), acts) == Some(s)
    ensures s == State(map[], map[0 := Unencoded(name)]) && RunBody(0, 0, o, 0) in acts
  {
    var init := Initial(map[]);
    assert Run(w, init, []) == Some(init);
    acts, s := FirstBody(w, name, [], init, 0, o);
    acts, s := ThenTold(w, init, acts, s, FailStep(0, 0));
    assert s.execs[0] == Exec([Issued(name)], [Failed], Idle, Live);
    acts, s := ThenTold(w, init, acts, s, JoinStep(0));
    assert s.execs[0] == Unencoded(name);
    assert s.execs == map[0 := Unencoded(name)];
  }

  // Any program that opens with a step and waits for it: the body has run, the
  // workflow continues from an error that no table will ever hold, and the table is
  // still empty, so that a replay runs the body again.
  lemma ResultLeavesTheTable(w: Program, name: string, o: Outcome) returns (acts: seq<Action>)
    requires w([]) == Issue(name) && w([Issued(name)]) == Join(0)
    ensures Run(w, Initial(map[]), acts).Some?
    ensures var s := Run(w, Initial(map[]), acts).value;
            && RunBody(0, 0, o, 0) in acts && s.log == map[] && s.execs.Keys == {0} && IsLive(s, 0)
            && forall log :: !OnPath(w, log, s.execs[0].history)
  {
    var s;
    acts, s := FailsToEncode(w, name, o);
    forall log ensures !OnPath(w, log, s.execs[0].history) {
      assert !FollowsAt(w, log, s.execs[0].history, 1);
    }
  }

  // A program that goes on, one way after the error and another after a result.
  function Recovering(): Program {
    (h: seq<Event>) =>
      if h == [] then Issue("a")
      else if |h| == 1 then Join(0)
      else if h[1].StepFailed? then Issue("x")
      else Issue("b")
  }

  // The first execution has recorded step x at the ID after a's.
  lemma GoesOn() returns (acts: seq<Action>, s: State)
    ensures Run(Recovering(), Initial(map[]), acts) == Some(s)
    ensures s.execs.Keys == {0} && s.log == map[1 := Row("x", Output(""), 0)]
  {
    var w, init := Recovering(), Initial(map[]);
    acts, s := FailsToEncode(w, "a", Output(""));
    acts, s := Then(w, init, acts, s, IssueStep(0));
    var h := [Issued("a"), StepFailed(0), Issued("x")];
    NamesOfStep("a", StepFailed(0));
    NamesAppend([Issued("a"), StepFailed(0)], Issued("x"));
    assert [Issued("a"), StepFailed(0)] + [Issued("x")] == h;
    assert s.execs[0] == Exec(h, [Failed, Unchecked], Idle, Live);
    acts, s := RecordsSecond(w, h, "x", acts, s);
  }

  lemma RecordsSecond(w: Program, h: seq<Event>, name: string, before: seq<Action>, s0: State)
    returns (acts: seq<Action>, s: State)
    requires Run(w, Initial(map[]), before) == Some(s0) && s0.log == map[] && s0.execs.Keys == {0}
    requires |Names(h)| == 2 && Names(h)[1] == name && s0.execs[0] == Exec(h, [Failed, Unchecked], Idle, Live)
    ensures Run(w, Initial(map[]), acts) == Some(s)
    ensures s.execs.Keys == {0} && s.log == map[1 := Row(name, Output(""), 0)]
  {
    var init := Initial(map[]);
    acts, s := Then(w, init, before, s0, Check(0, 1));
    assert s.execs[0] == Exec(h, [Failed, MustRun], Idle, Live);
    acts, s := Then(w, init, acts, s, RunBody(0, 1, Output(""), 0));
    assert s.execs[0] == Exec(h, [Failed, Ran(Row(name, Output(""), 0))], Idle, Live);
    acts, s := Then(w, init, acts, s, Record(0, 1, true));
  }

  // A replay runs a again, records a good value, takes the other branch and meets
  // x's row under b's ID. No marker was raced for.
  lemma UnrecordedResultDiverges() returns (acts: seq<Action>)
    ensures Run(Recovering(), Initial(map[]), acts).Some?
    ensures !NamesMatch(Run(Recovering(), Initial(map[]), acts).value)
  {
    var w, init, s := Recovering(), Initial(map[]), Initial(map[]);
    acts, s := GoesOn();
    acts, s := FirstBody(w, "a", acts, s, 1, Output(""));
    acts, s := Then(w, init, acts, s, Record(1, 0, true));
    assert s.execs[1] == Exec([Issued("a")], [Settled(Output(""))], Idle, Live);
    acts, s := Then(w, init, acts, s, JoinStep(1));
    assert s.execs[1] == Exec([Issued("a"), Joined(0, Output(""))], [Settled(Output(""))], Idle, Live);
    acts := MeetsOther(acts, s);
  }

  lemma MeetsOther(before: seq<Action>, s0: State) returns (acts: seq<Action>)
    requires Run(Recovering(), Initial(map[]), before) == Some(s0) && 1 in s0.execs && 1 in s0.log
    requires s0.log[1].name == "x"
    requires s0.execs[1] == Exec([Issued("a"), Joined(0, Output(""))], [Settled(Output(""))], Idle, Live)
    ensures Run(Recovering(), Initial(map[]), acts).Some?
    ensures !NamesMatch(Run(Recovering(), Initial(map[]), acts).value)
  {
    var w, init, s := Recovering(), Initial(map[]), Initial(map[]);
    var g, h := [Issued("a"), Joined(0, Output(""))], [Issued("a"), Joined(0, Output("")), Issued("b")];
    acts, s := Then(w, init, before, s0, IssueStep(1));
    NamesOfStep("a", Joined(0, Output("")));
    NamesAppend(g, Issued("b"));
    assert g + [Issued("b")] == h;
    assert s.execs[1] == Exec(h, [Settled(Output("")), Unchecked], Idle, Live);
    acts, s := Then(w, init, acts, s, Check(1, 1));
    assert s.execs[1].status == Unexpected;
  }
}
