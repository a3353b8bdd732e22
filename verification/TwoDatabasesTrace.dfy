/**
Where the rows of the two databases come from, told from the actions of a run: whose
commit, whose attempt's error, whose checkpoint.
*/
module TwoDatabasesTrace {
  import opened Base
  import opened TwoDatabases

  // Before acts[n], its execution works on k.
  ghost predicate WorksOn(acts: seq<Action>, n: nat, k: Key) {
    && n < |acts| && !acts[n].Start? && Run(acts[..n]).Some?
    && IsLive(Run(acts[..n]).value, acts[n].e) && Run(acts[..n]).value.execs[acts[n].e].key == k
  }

  lemma WorksOnStill(acts: seq<Action>, a: Action, n: nat, k: Key)
    requires WorksOn(acts, n, k)
    ensures WorksOn(acts + [a], n, k) && (acts + [a])[n] == acts[n] && (acts + [a])[..n] == acts[..n]
  {
    assert (acts + [a])[..n] == acts[..n];
  }

  // acts[n] committed the writes and the completion row of k: nobody had before.
  ghost predicate CommittedAt(acts: seq<Action>, n: nat, k: Key) {
    WorksOn(acts, n, k) && acts[n].Attempt? && acts[n].t.Commits? && k !in Run(acts[..n]).value.completions
  }

  // acts[n] is a last attempt that failed, or seemed to, with that error.
  ghost predicate FailedAt(acts: seq<Action>, n: nat, e: nat, k: Key, error: string) {
    WorksOn(acts, n, k) && acts[n].Attempt? && acts[n].e == e && acts[n].t.final && acts[n].t.error == error
  }

  ghost predicate Failed(acts: seq<Action>, e: nat, k: Key, error: string) {
    exists n: nat :: FailedAt(acts, n, e, k, error)
  }

  // acts[n] copied execution e's failure into the user database.
  ghost predicate MirroredAt(acts: seq<Action>, n: nat, k: Key) {
    WorksOn(acts, n, k) && acts[n].Mirror? && acts[n].written && k !in Run(acts[..n]).value.completions
  }

  /******* Completion rows *******/

  // The row of k is the output of the attempt that committed it, or the error of an
  // execution's last attempt, mirrored.
  ghost predicate CompletionTold(acts: seq<Action>, n: nat, k: Key, row: Outcome) {
    || (CommittedAt(acts, n, k) && row == Output(acts[n].t.output))
    || (MirroredAt(acts, n, k) && row.Failure? && Failed(acts, acts[n].e, k, row.error))
  }

  lemma CompletionArises(s: State, a: Action, k: Key)
    requires Step(s, a).Some? && k !in s.completions && k in Step(s, a).value.completions
    ensures IsLive(s, a.e) && s.execs[a.e].key == k
    ensures var row := Step(s, a).value.completions[k];
            || (a.Attempt? && a.t.Commits? && row == Output(a.t.output))
            || (a.Mirror? && a.written && s.execs[a.e].phase.GaveUp? && row == Failure(s.execs[a.e].phase.error))
  {
  }

  // Whoever gave up, gave up with the error of its own last attempt.
  ghost predicate ErrorTold(acts: seq<Action>, e: nat)
    requires Run(acts).Some?
  {
    e in Run(acts).value.execs ==>
      var x := Run(acts).value.execs[e];
      && (x.phase.GaveUp? || x.phase.Mirrored? ==> Failed(acts, e, x.key, x.phase.error))
      && (x.phase.Checkpointing? && e !in Run(acts).value.firm ==>
            x.phase.row.outcome.Failure? && Failed(acts, e, x.key, x.phase.row.outcome.error))
  }

  lemma ErrorMoves(s: State, a: Action, e: nat)
    requires FirmOk(s, e) && Step(s, a).Some? && e in Step(s, a).value.execs
    ensures MovesOn(s, Step(s, a).value, a, e)
  {
    if e != a.e {
      BystanderStands(s, a, e);
    } else if a.Attempt? {
      AttemptErrors(s, e, a.t);
    }
  }

  lemma AttemptErrors(s: State, e: nat, t: Try)
    requires FirmOk(s, e) && IsLive(s, e) && StepAttempt(s, e, t).Some?
    ensures MovesOn(s, StepAttempt(s, e, t).value, Attempt(e, t), e)
  {
  }

  // What e holds it held before, or has from this attempt.
  ghost predicate MovesOn(s: State, s': State, a: Action, e: nat) {
    e in s'.execs &&
    var x := s'.execs[e];
    && (e in s.execs ==> x.key == s.execs[e].key)
    && (x.phase.GaveUp? ==>
          e in s.execs && (s.execs[e].phase == x.phase || GivesUpWith(s, a, e, x.phase.error)))
    && (x.phase.Mirrored? ==>
          e in s.execs && (s.execs[e].phase == x.phase || s.execs[e].phase == GaveUp(x.phase.error)))
    && (x.phase.Checkpointing? && e !in s'.firm ==>
          && e in s.execs && e !in s.firm && x.phase.row.outcome.Failure?
          && (s.execs[e].phase == x.phase || s.execs[e].phase == Mirrored(x.phase.row.outcome.error)))
  }

  predicate GivesUpWith(s: State, a: Action, e: nat, error: string) {
    a.Attempt? && a.e == e && IsLive(s, e) && a.t.final && a.t.error == error
  }

  lemma FailedStill(acts: seq<Action>, a: Action, e: nat, k: Key, error: string)
    requires Failed(acts, e, k, error)
    ensures Failed(acts + [a], e, k, error)
  {
    var n: nat :| FailedAt(acts, n, e, k, error);
    WorksOnStill(acts, a, n, k);
    assert FailedAt(acts + [a], n, e, k, error);
  }

  lemma {:induction false} ErrorsAreTheAttempts(acts: seq<Action>, e: nat)
    requires Run(acts).Some?
    ensures ErrorTold(acts, e)
    decreases |acts|
  {
    if acts != [] {
      var before, a := acts[..|acts| - 1], acts[|acts| - 1];
      var s, s' := Run(before).value, Run(acts).value;
      assert acts == before + [a];
      ErrorsAreTheAttempts(before, e);
      RunsFirm(before);
      if e in s'.execs {
        var x := s'.execs[e];
        ErrorMoves(s, a, e);
        if x.phase.GaveUp? && s.execs[e].phase != x.phase {
          assert acts[..|before|] == before;
          assert FailedAt(acts, |before|, e, x.key, x.phase.error);
        } else if x.phase.GaveUp? || x.phase.Mirrored? {
          FailedStill(before, a, e, x.key, x.phase.error);
        } else if x.phase.Checkpointing? && e !in s'.firm {
          FailedStill(before, a, e, x.key, x.phase.row.outcome.error);
        }
      }
    }
  }

  // In every run, a completion row is the output of one committed attempt, which is
  // the one thing the step wrote, or the error of an execution's own last attempt.
  lemma {:induction false} CompletionsAreCommits(acts: seq<Action>, k: Key) returns (n: nat)
    requires Run(acts).Some? && k in Run(acts).value.completions
    ensures CompletionTold(acts, n, k, Run(acts).value.completions[k])
    ensures Effects(Run(acts).value, k) == if acts[n].Attempt? then [acts[n].t.output] else []
    decreases |acts|
  {
    var before, a := acts[..|acts| - 1], acts[|acts| - 1];
    var s := Run(before).value;
    assert acts == before + [a];
    EffectsCommitAtMostOnce(acts);
    assert OnceIffSuccess(Run(acts).value, k);
    if k in s.completions {
      n := CompletionsAreCommits(before, k);
      CompletionStays(s, a, k);
      WorksOnStill(before, a, n, k);
      if MirroredAt(before, n, k) {
        FailedStill(before, a, before[n].e, k, s.completions[k].error);
      }
    } else {
      n := |before|;
      CompletionArises(s, a, k);
      assert acts[..n] == before;
      if a.Mirror? {
        ErrorsAreTheAttempts(before, a.e);
        FailedStill(before, a, a.e, k, s.execs[a.e].phase.error);
      }
    }
  }

  /******* Checkpoints *******/

  // acts[n] wrote k's checkpoint.
  ghost predicate WrittenAt(acts: seq<Action>, n: nat, k: Key) {
    WorksOn(acts, n, k) && acts[n].WriteCheckpoint? && k !in Run(acts[..n]).value.checkpoints
  }

  lemma CheckpointArises(s: State, a: Action, k: Key)
    requires Step(s, a).Some? && k !in s.checkpoints && k in Step(s, a).value.checkpoints
    ensures IsLive(s, a.e) && s.execs[a.e].key == k && a.WriteCheckpoint? && s.execs[a.e].phase.Checkpointing?
    ensures Step(s, a).value.checkpoints[k] == s.execs[a.e].phase.row
    ensures k in Step(s, a).value.writer && Step(s, a).value.writer[k] == a.e && Step(s, a).value.firm == s.firm
  {
  }

  // A checkpoint says what the completion row says, or the error of its writer's own
  // last attempt.
  lemma {:induction false} CheckpointsAreOutcomes(acts: seq<Action>, k: Key) returns (n: nat)
    requires Run(acts).Some? && k in Run(acts).value.checkpoints
    ensures var s, o := Run(acts).value, Run(acts).value.checkpoints[k].outcome;
            && WrittenAt(acts, n, k) && k in s.writer && s.writer[k] == acts[n].e
            && (|| (k in s.completions && s.completions[k] == o)
                || (o.Failure? && Failed(acts, acts[n].e, k, o.error)))
    decreases |acts|
  {
    var before, a := acts[..|acts| - 1], acts[|acts| - 1];
    var s := Run(before).value;
    assert acts == before + [a];
    RunsFirm(before);
    if k in s.checkpoints {
      n := CheckpointsAreOutcomes(before, k);
      CheckpointStays(s, a, k);
      WriterStays(s, a, k);
      WorksOnStill(before, a, n, k);
      var o := s.checkpoints[k].outcome;
      if k in s.completions && s.completions[k] == o {
        CompletionStays(s, a, k);
      } else {
        FailedStill(before, a, before[n].e, k, o.error);
      }
    } else {
      n := |before|;
      CheckpointArises(s, a, k);
      assert acts[..n] == before && FirmOk(s, a.e);
      if a.e in s.firm {
        CompletionStays(s, a, k);
      } else {
        ErrorsAreTheAttempts(before, a.e);
        FailedStill(before, a, a.e, k, s.execs[a.e].phase.row.outcome.error);
      }
    }
  }

  /******* Lost commits and firm executions *******/

  // A commit of e's own landed and was reported as failed.
  ghost predicate LostAt(acts: seq<Action>, n: nat, e: nat) {
    && n < |acts| && acts[n].Attempt? && acts[n].e == e && acts[n].t.Commits? && !acts[n].t.reported
    && exists k :: CommittedAt(acts, n, k)
  }

  // e came by the completion row: committed it and was told so, read it, or mirrored it.
  ghost predicate FirmAt(acts: seq<Action>, n: nat, e: nat) {
    && n < |acts| && acts[n].e == e
    && exists k ::
         || (CommittedAt(acts, n, k) && acts[n].t.reported)
         || MirroredAt(acts, n, k)
         || ReadAt(acts, n, k)
  }

  ghost predicate ReadAt(acts: seq<Action>, n: nat, k: Key) {
    WorksOn(acts, n, k) && acts[n].ReadCompletion? && k in Run(acts[..n]).value.completions
  }

  lemma MarksMove(s: State, a: Action, e: nat)
    requires Step(s, a).Some?
    ensures var s' := Step(s, a).value;
            && (e in s'.lost <==> e in s.lost || (a.e == e && IsLive(s, e) && LosesCommit(s, a)))
            && (e in s'.firm <==> e in s.firm || (a.e == e && IsLive(s, e) && BecomesFirm(s, a)))
  {
  }

  predicate LosesCommit(s: State, a: Action)
    requires IsLive(s, a.e)
  {
    a.Attempt? && a.t.Commits? && !a.t.reported && s.execs[a.e].key !in s.completions
  }

  predicate BecomesFirm(s: State, a: Action)
    requires IsLive(s, a.e)
  {
    var k := s.execs[a.e].key;
    || (a.Attempt? && a.t.Commits? && a.t.reported && k !in s.completions)
    || (a.Mirror? && a.written && k !in s.completions)
    || (a.ReadCompletion? && k in s.completions)
  }

  // The marks that decide whether the layers agree are facts about the actions.
  lemma {:induction false} MarksAreTrace(acts: seq<Action>, e: nat)
    requires Run(acts).Some?
    ensures e in Run(acts).value.lost <==> exists n: nat :: LostAt(acts, n, e)
    ensures e in Run(acts).value.firm <==> exists n: nat :: FirmAt(acts, n, e)
    decreases |acts|
  {
    if acts != [] {
      var before, a := acts[..|acts| - 1], acts[|acts| - 1];
      MarksAreTrace(before, e);
      MarksMove(Run(before).value, a, e);
      assert acts == before + [a] && acts[|before|] == a && acts[..|before|] == before;
      forall n: nat | n < |before| ensures LostAt(acts, n, e) <==> LostAt(before, n, e) {
        MarksStill(before, a, n, e);
      }
      forall n: nat | n < |before| ensures FirmAt(acts, n, e) <==> FirmAt(before, n, e) {
        MarksStill(before, a, n, e);
      }
      LastMark(acts, e);
    }
  }

  lemma MarksStill(acts: seq<Action>, a: Action, n: nat, e: nat)
    requires n < |acts|
    ensures LostAt(acts + [a], n, e) <==> LostAt(acts, n, e)
    ensures FirmAt(acts + [a], n, e) <==> FirmAt(acts, n, e)
  {
    assert (acts + [a])[..n] == acts[..n] && (acts + [a])[n] == acts[n];
    forall k: Key ensures WorksOn(acts + [a], n, k) <==> WorksOn(acts, n, k) {
    }
    assert forall k: Key :: CommittedAt(acts + [a], n, k) <==> CommittedAt(acts, n, k);
    assert forall k: Key :: MirroredAt(acts + [a], n, k) <==> MirroredAt(acts, n, k);
    assert forall k: Key :: ReadAt(acts + [a], n, k) <==> ReadAt(acts, n, k);
  }

  lemma LastMark(acts: seq<Action>, e: nat)
    requires acts != [] && Run(acts).Some?
    ensures var n, a := |acts| - 1, acts[|acts| - 1];
            var s := Run(acts[..n]).value;
            && (LostAt(acts, n, e) <==> a.e == e && IsLive(s, e) && LosesCommit(s, a))
            && (FirmAt(acts, n, e) <==> a.e == e && IsLive(s, e) && BecomesFirm(s, a))
  {
    var n, a := |acts| - 1, acts[|acts| - 1];
    var s := Run(acts[..n]).value;
    if IsLive(s, a.e) {
      var k := s.execs[a.e].key;
      if !a.Start? {
        assert WorksOn(acts, n, k);
        assert CommittedAt(acts, n, k) <==> a.Attempt? && a.t.Commits? && k !in s.completions;
        assert MirroredAt(acts, n, k) <==> a.Mirror? && a.written && k !in s.completions;
        assert ReadAt(acts, n, k) <==> a.ReadCompletion? && k in s.completions;
      }
    }
  }

  /******* What an execution can do *******/

  // Execution 0 has found nothing, failed once without giving up, and then commits v.
  lemma CommitsAfterRetry(k: Key, v: string, err: string) returns (acts: seq<Action>, s: State)
    ensures Run(acts) == Some(s)
    ensures s == State(map[k := [v]], map[k := Output(v)], map[], map[0 := Exec(k, Committed(v))], {}, {0}, map[])
  {
    acts, s := FreshAlone(k);
    acts, s := Then(acts, s, Attempt(0, FnFails(err, false)));
    assert s.execs == map[0 := Exec(k, Fresh)];
    acts, s := Then(acts, s, Attempt(0, Commits(v, true, "", false)));
    assert s.execs == map[0 := Exec(k, Committed(v))] && [] + [v] == [v];
    assert s.effects == map[k := [v]] && s.completions == map[k := Output(v)] && s.firm == {0};
  }

  // A lone execution whose first checkpoint answer is lost still ends with v, written
  // once and recorded in both layers.
  lemma LoneRunAnswers(k: Key, v: string, err: string, stamp: nat) returns (acts: seq<Action>, s: State)
    ensures Run(acts) == Some(s) && Effects(s, k) == [v] && s.completions == map[k := Output(v)]
    ensures s.checkpoints == map[k := Checkpoint(Output(v), stamp)]
    ensures s.execs == map[0 := Exec(k, Answered(Output(v)))]
  {
    acts, s := CommitsAfterRetry(k, v, err);
    acts, s := Then(acts, s, Prepare(0, stamp));
    assert s.execs == map[0 := Exec(k, Checkpointing(Checkpoint(Output(v), stamp)))];
    acts, s := Then(acts, s, WriteCheckpoint(0, false));
    assert s.checkpoints == map[k := Checkpoint(Output(v), stamp)];
    acts, s := Then(acts, s, WriteCheckpoint(0, true));
    assert s.execs == map[0 := Exec(k, Answered(Output(v)))];
  }

  // One that gives up checkpoints its error, and mirrors it if it can.
  lemma LoneFailureAnswers(k: Key, err: string, written: bool, stamp: nat) returns (acts: seq<Action>, s: State)
    ensures Run(acts) == Some(s) && Effects(s, k) == []
    ensures s.completions == if written then map[k := Failure(err)] else map[]
    ensures s.checkpoints == map[k := Checkpoint(Failure(err), stamp)]
    ensures s.execs == map[0 := Exec(k, Answered(Failure(err)))]
  {
    acts, s := FreshAlone(k);
    acts, s := Then(acts, s, Attempt(0, FnFails(err, true)));
    assert s == Initial().(execs := map[0 := Exec(k, GaveUp(err))]);
    acts, s := Then(acts, s, Mirror(0, written));
    assert s.execs == map[0 := Exec(k, Mirrored(err))];
    assert s.completions == if written then map[k := Failure(err)] else map[];
    acts, s := FailureEnds(acts, s, k, err, stamp);
  }

  lemma FailureEnds(before: seq<Action>, s0: State, k: Key, err: string, stamp: nat)
    returns (acts: seq<Action>, s: State)
    requires Run(before) == Some(s0) && s0.checkpoints == map[] && s0.execs == map[0 := Exec(k, Mirrored(err))]
    ensures Run(acts) == Some(s) && s.effects == s0.effects && s.completions == s0.completions
    ensures s.checkpoints == map[k := Checkpoint(Failure(err), stamp)]
    ensures s.execs == map[0 := Exec(k, Answered(Failure(err)))]
  {
    acts, s := Then(before, s0, Prepare(0, stamp));
    assert s.execs == map[0 := Exec(k, Checkpointing(Checkpoint(Failure(err), stamp)))];
    acts, s := Then(acts, s, WriteCheckpoint(0, true));
    assert s.execs == map[0 := Exec(k, Answered(Failure(err)))];
  }

  // After a crash between the two commits, the next execution finds the completion
  // row, runs nothing, and checkpoints and answers what it says.
  lemma CrashBetweenIsReplayed(k: Key, v: string) returns (acts: seq<Action>, s: State)
    ensures Run(acts) == Some(s) && Effects(s, k) == [v] && s.completions == map[k := Output(v)]
    ensures s.checkpoints == map[k := Checkpoint(Output(v), 1)]
    ensures s.execs == map[0 := Exec(k, Stopped), 1 := Exec(k, Answered(Output(v)))]
  {
    acts, s := CommitsAfterRetry(k, v, "");
    acts, s := Then(acts, s, Stop(0));
    assert s.execs == map[0 := Exec(k, Stopped)];
    acts, s := Then(acts, s, Start(1, k));
    acts, s := Then(acts, s, ReadCheckpoint(1));
    assert s.execs == map[0 := Exec(k, Stopped), 1 := Exec(k, Unrecorded)];
    acts, s := Then(acts, s, ReadCompletion(1));
    assert s.execs == map[0 := Exec(k, Stopped), 1 := Exec(k, Replaying(Output(v)))];
    acts, s := ReplayEnds(acts, s, k, v);
  }

  lemma ReplayEnds(before: seq<Action>, s0: State, k: Key, v: string) returns (acts: seq<Action>, s: State)
    requires Run(before) == Some(s0) && s0.checkpoints == map[]
    requires s0.execs == map[0 := Exec(k, Stopped), 1 := Exec(k, Replaying(Output(v)))]
    ensures Run(acts) == Some(s) && s.effects == s0.effects && s.completions == s0.completions
    ensures s.checkpoints == map[k := Checkpoint(Output(v), 1)]
    ensures s.execs == map[0 := Exec(k, Stopped), 1 := Exec(k, Answered(Output(v)))]
  {
    acts, s := Then(before, s0, Prepare(1, 1));
    assert s.execs == map[0 := Exec(k, Stopped), 1 := Exec(k, Checkpointing(Checkpoint(Output(v), 1)))];
    acts, s := Then(acts, s, WriteCheckpoint(1, true));
    assert s.execs == map[0 := Exec(k, Stopped), 1 := Exec(k, Answered(Output(v)))];
  }

  // Who comes to checkpoint another row than the one that is there is over.
  lemma OtherCheckpointIsRefused(s: State, e: nat, acked: bool)
    requires IsLive(s, e) && s.execs[e].phase.Checkpointing? && s.execs[e].key in s.checkpoints
    requires s.checkpoints[s.execs[e].key] != s.execs[e].phase.row
    ensures Step(s, WriteCheckpoint(e, acked)) == Some(s.(execs := s.execs[e := Exec(s.execs[e].key, Stopped)]))
  {
  }

  // When each action is possible: an execution takes its steps in order, and may stop
  // anywhere.
  predicate CanTake(s: State, a: Action) {
    if a.Start? then a.e !in s.execs
    else
      IsLive(s, a.e) &&
      var phase := s.execs[a.e].phase;
      match a
      case Stop(_) => true
      case ReadCheckpoint(_) => phase.Begun?
      case ReadCompletion(_) => phase.Unrecorded?
      case Attempt(_, _) => phase.Fresh?
      case Mirror(_, _) => phase.GaveUp?
      case Prepare(_, _) => phase.Replaying? || phase.Committed? || phase.Mirrored?
      case WriteCheckpoint(_, _) => phase.Checkpointing?
      case _ => true
  }

  lemma StepsWhenPossible(s: State, a: Action)
    ensures Step(s, a).Some? <==> CanTake(s, a)
    ensures a.Stop? && CanTake(s, a) ==>
              Step(s, a).value == s.(execs := s.execs[a.e := Exec(s.execs[a.e].key, Stopped)])
  {
  }
}
