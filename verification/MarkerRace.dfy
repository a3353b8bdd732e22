/**
Two executions that race for a patch marker. Patch looks and then inserts, in two
statements; whoever inserts second is refused, and the error goes to the workflow.
*/
module MarkerRace {
  import opened Base
  import opened Replay
  import opened ReplayProofs

  // Both have looked, the first has claimed the ID, the second was refused.
  function Raced(p: string): State {
    State(map[0 := Row(p, Output(""), 0)],
          map[0 := Exec([Patched(p, true)], [Settled(Output(""))], Idle, Live),
              1 := Exec([PatchFailed(p, true)], [], Idle, Live)])
  }

  lemma BothProbing(w: Program, p: string) returns (acts: seq<Action>, s: State)
    requires w([]) == AskPatch(p)
    ensures Run(w, Initial(map[]), acts) == Some(s)
    ensures s == Initial(map[]).(execs := map[0 := Exec([], [], Looked, Live), 1 := Exec([], [], Looked, Live)])
  {
    var init := Initial(map[]);
    assert Run(w, init, []) == Some(init);
    acts, s := Then(w, init, [], init, Start(0));
    acts, s := Then(w, init, acts, s, Start(1));
    assert s.execs == map[0 := Exec([], [], Idle, Live), 1 := Exec([], [], Idle, Live)];
    acts, s := Then(w, init, acts, s, ProbePatch(0));
    assert s.execs == map[0 := Exec([], [], Looked, Live), 1 := Exec([], [], Idle, Live)];
    acts, s := Then(w, init, acts, s, ProbePatch(1));
    assert s.execs == map[0 := Exec([], [], Looked, Live), 1 := Exec([], [], Looked, Live)];
  }

  lemma RaceHappens(w: Program, p: string) returns (acts: seq<Action>)
    requires w([]) == AskPatch(p)
    ensures Run(w, Initial(map[]), acts) == Some(Raced(p))
  {
    var init, s := Initial(map[]), Initial(map[]);
    acts, s := BothProbing(w, p);
    acts, s := Then(w, init, acts, s, InsertPatch(0, 0, true));
    assert s.execs[0] == Raced(p).execs[0] && s.execs[1] == Exec([], [], Looked, Live);
    assert s.log == map[0 := Row(p, Output(""), 0)];
    acts, s := Then(w, init, acts, s, InsertPatch(1, 0, true));
    assert s.execs[1] == Raced(p).execs[1];
    assert s.execs == Raced(p).execs;
  }

  // Any program that opens with a patch: the loser has seen an error that is in no
  // row, while the evaluation on the table takes the new branch. If the program
  // returns that error, the loser ends with it.
  lemma LoserLeavesTheTable(w: Program, p: string) returns (acts: seq<Action>)
    requires w([]) == AskPatch(p)
    ensures Run(w, Initial(map[]), acts).Some?
    ensures var s := Run(w, Initial(map[]), acts).value;
            && Steady(s) && s.execs.Keys == {0, 1}
            && s.execs[1].history == [PatchFailed(p, true)] && !OnPath(w, s.log, s.execs[1].history)
            && Evaluate(w, s.log, 1) == [Patched(p, true)] == s.execs[0].history
  {
    acts := RaceHappens(w, p);
    var s := Raced(p);
    assert !FollowsAt(w, s.log, s.execs[1].history, 0);
    assert Evaluate(w, s.log, 0) == [];
  }

  // A program that calls on after the error.
  function Careless(p: string): Program {
    (h: seq<Event>) =>
         if h == [] then AskPatch(p)
         else if !h[0].PatchFailed? then Issue("a")
         else if |h| == 1 then Issue("x")
         else Issue("y")
  }

  // The loser has gone on with two steps of its own.
  lemma LoserGoesOn(p: string) returns (acts: seq<Action>, s: State)
    ensures Run(Careless(p), Initial(map[]), acts) == Some(s)
    ensures s == Raced(p).(execs := Raced(p).execs[
                   1 := Exec([PatchFailed(p, true), Issued("x"), Issued("y")], [Unchecked, Unchecked], Idle, Live)])
  {
    var w, init := Careless(p), Initial(map[]);
    acts := RaceHappens(w, p);
    s := Raced(p);
    acts, s := Then(w, init, acts, s, IssueStep(1));
    assert s.execs[1] == Exec([PatchFailed(p, true), Issued("x")], [Unchecked], Idle, Live);
    acts, s := Then(w, init, acts, s, IssueStep(1));
    assert s.execs[1] == Exec([PatchFailed(p, true), Issued("x"), Issued("y")], [Unchecked, Unchecked], Idle, Live);
  }

  // The loser has recorded a step of its own where the winner's next one belongs.
  lemma LoserRecords(p: string) returns (acts: seq<Action>, s: State)
    ensures Run(Careless(p), Initial(map[]), acts) == Some(s)
    ensures IsLive(s, 0) && s.execs[0] == Raced(p).execs[0] && 1 in s.log && s.log[1].name == "y"
  {
    var w, init := Careless(p), Initial(map[]);
    acts, s := LoserGoesOn(p);
    NamesOfThree(p);
    acts, s := Then(w, init, acts, s, Check(1, 1));
    assert s.execs[1].flights == [Unchecked, MustRun] && s.log == Raced(p).log;
    acts, s := Then(w, init, acts, s, RunBody(1, 1, Output(""), 0));
    assert s.execs[1].flights == [Unchecked, Ran(Row("y", Output(""), 0))] && s.log == Raced(p).log;
    acts, s := Then(w, init, acts, s, Record(1, 1, true));
  }

  lemma NamesOfThree(p: string)
    ensures Names([PatchFailed(p, true), Issued("x"), Issued("y")]) == ["x", "y"]
    ensures Names([Patched(p, true), Issued("a")]) == [p, "a"]
  {
    var h := [PatchFailed(p, true), Issued("x"), Issued("y")];
    NamesAppend([PatchFailed(p, true), Issued("x")], Issued("y"));
    NamesAppend([PatchFailed(p, true)], Issued("x"));
    assert [PatchFailed(p, true), Issued("x")] + [Issued("y")] == h;
    assert [PatchFailed(p, true)] + [Issued("x")] == [PatchFailed(p, true), Issued("x")];
    NamesAppend([Patched(p, true)], Issued("a"));
    assert [Patched(p, true)] + [Issued("a")] == [Patched(p, true), Issued("a")];
  }

  // Calling on can spoil the table for everybody: the winner then meets a step
  // recorded under another name.
  lemma LoserCanSpoilTheTable(p: string) returns (acts: seq<Action>)
    ensures Run(Careless(p), Initial(map[]), acts).Some?
    ensures !NamesMatch(Run(Careless(p), Initial(map[]), acts).value)
  {
    var w, init, s := Careless(p), Initial(map[]), Initial(map[]);
    acts, s := LoserRecords(p);
    acts, s := Then(w, init, acts, s, IssueStep(0));
    assert s.execs[0] == Exec([Patched(p, true), Issued("a")], [Settled(Output("")), Unchecked], Idle, Live);
    NamesOfThree(p);
    acts, s := Then(w, init, acts, s, Check(0, 1));
    assert s.execs[0].status == Unexpected;
  }
}
