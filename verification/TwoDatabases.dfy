/**
RunAsTransaction across two databases. txn1 commits the application's writes
and a transaction_completion row in the user database; txn2 checkpoints the
outcome in the system database. Recovery reads the checkpoint first (layer 1),
then the completion row (layer 2). Any number of executions of any steps may
crash between the two, overlap, or see a commit that landed reported as failed.
*/
module TwoDatabases {
  import opened Base

  // A (workflow ID, step ID) pair: the primary key of both tables.
  datatype Key = Key(workflow: string, step: nat)

  // A checkpoint with its writer's timestamps.
  datatype Checkpoint = Checkpoint(outcome: Outcome, stamp: nat)

  datatype Phase =
    | Begun
    | Unrecorded                        // layer 1 found nothing
    | Fresh                             // layer 2 found nothing either
    | Replaying(found: Outcome)         // layer 2 found a row
    | Committed(output: string)         // txn1 committed and said so
    | GaveUp(error: string)             // the retry policy ended in an error
    | Mirrored(error: string)           // the failure was copied to the user database, best effort
    | Checkpointing(row: Checkpoint)    // txn2, retried with one and the same row
    | Answered(outcome: Outcome)
    | Stopped                           // crashed, cancelled, or refused as a conflict

  datatype Exec = Exec(key: Key, phase: Phase)

  // effects: the application writes committed for each step, in order.
  // lost: executions one of whose commits landed and was reported as failed.
  // firm: executions that hold the outcome of the completion row, because they
  // committed it, replayed it or mirrored it. writer: who wrote each checkpoint.
  datatype State = State(
    effects: map<Key, seq<string>>,
    completions: map<Key, Outcome>,
    checkpoints: map<Key, Checkpoint>,
    execs: map<nat, Exec>,
    lost: set<nat>,
    firm: set<nat>,
    writer: map<Key, nat>)

  // One call of runTxnOnce. final: neither the infrastructure retry nor the
  // step's retry policy tries again after it fails.
  datatype Try =
    | FnFails(error: string, final: bool)
    | Commits(output: string, reported: bool, error: string, final: bool)

  datatype Action =
    | Start(e: nat, key: Key)
    | Stop(e: nat)
    | ReadCheckpoint(e: nat)
    | ReadCompletion(e: nat)
    | Attempt(e: nat, t: Try)
    | Mirror(e: nat, written: bool)
    | Prepare(e: nat, stamp: nat)
    | WriteCheckpoint(e: nat, acked: bool)

  function Initial(): State {
    State(map[], map[], map[], map[], {}, {}, map[])
  }

  function Effects(s: State, k: Key): seq<string> {
    if k in s.effects then s.effects[k] else []
  }

  predicate IsLive(s: State, e: nat) {
    e in s.execs && !s.execs[e].phase.Answered? && !s.execs[e].phase.Stopped?
  }

  function Goto(s: State, e: nat, phase: Phase): State
    requires e in s.execs
  {
    s.(execs := s.execs[e := s.execs[e].(phase := phase)])
  }

  function Firm(s: State, e: nat): State {
    s.(firm := s.firm + {e})
  }

  function StepRead(s: State, e: nat): Option<State>
    requires IsLive(s, e)
  {
    var x := s.execs[e];
    if !x.phase.Begun? then None
    else if x.key in s.checkpoints then Some(Goto(s, e, Answered(s.checkpoints[x.key].outcome)))
    else Some(Goto(s, e, Unrecorded))
  }

  function StepReadCompletion(s: State, e: nat): Option<State>
    requires IsLive(s, e)
  {
    var x := s.execs[e];
    if !x.phase.Unrecorded? then None
    else if x.key in s.completions then Some(Goto(Firm(s, e), e, Replaying(s.completions[x.key])))
    else Some(Goto(s, e, Fresh))
  }

  function AfterFailure(s: State, e: nat, error: string, final: bool): State
    requires e in s.execs
  {
    if final then Goto(s, e, GaveUp(error)) else Goto(s, e, Fresh)
  }

  // The completion row is inserted in the transaction of the writes: a duplicate
  // refuses both, a success commits both.
  function StepAttempt(s: State, e: nat, t: Try): Option<State>
    requires IsLive(s, e)
  {
    var x := s.execs[e];
    if !x.phase.Fresh? then None
    else
      match t
      case FnFails(error, final) => Some(AfterFailure(s, e, error, final))
      case Commits(output, reported, error, final) =>
        if x.key in s.completions then Some(AfterFailure(s, e, error, final))
        else
          var s' := s.(effects := s.effects[x.key := Effects(s, x.key) + [output]],
                       completions := s.completions[x.key := Output(output)]);
          if reported then Some(Goto(Firm(s', e), e, Committed(output)))
          else Some(AfterFailure(s'.(lost := s.lost + {e}), e, error, final))
  }

  function StepMirror(s: State, e: nat, written: bool): Option<State>
    requires IsLive(s, e)
  {
    var x := s.execs[e];
    if !x.phase.GaveUp? then None
    else if written && x.key !in s.completions then
      Some(Goto(Firm(s, e).(completions := s.completions[x.key := Failure(x.phase.error)]), e, Mirrored(x.phase.error)))
    else Some(Goto(s, e, Mirrored(x.phase.error)))
  }

  function StepPrepare(s: State, e: nat, stamp: nat): Option<State>
    requires IsLive(s, e)
  {
    match s.execs[e].phase
    case Replaying(o) => Some(Goto(s, e, Checkpointing(Checkpoint(o, stamp))))
    case Committed(v) => Some(Goto(s, e, Checkpointing(Checkpoint(Output(v), stamp))))
    case Mirrored(err) => Some(Goto(s, e, Checkpointing(Checkpoint(Failure(err), stamp))))
    case _ => None
  }

  function StepWrite(s: State, e: nat, acked: bool): Option<State>
    requires IsLive(s, e)
  {
    var x := s.execs[e];
    if !x.phase.Checkpointing? then None
    else if x.key !in s.checkpoints then
      var s' := s.(checkpoints := s.checkpoints[x.key := x.phase.row], writer := s.writer[x.key := e]);
      if acked then Some(Goto(s', e, Answered(x.phase.row.outcome))) else Some(s')
    else if s.checkpoints[x.key] == x.phase.row then Some(Goto(s, e, Answered(x.phase.row.outcome)))
    else Some(Goto(s, e, Stopped))
  }

  function Step(s: State, a: Action): Option<State> {
    if a.Start? then
      if a.e in s.execs then None else Some(s.(execs := s.execs[a.e := Exec(a.key, Begun)]))
    else if !IsLive(s, a.e) then None
    else
      match a
      case Stop(e) => Some(Goto(s, e, Stopped))
      case ReadCheckpoint(e) => StepRead(s, e)
      case ReadCompletion(e) => StepReadCompletion(s, e)
      case Attempt(e, t) => StepAttempt(s, e, t)
      case Mirror(e, written) => StepMirror(s, e, written)
      case Prepare(e, stamp) => StepPrepare(s, e, stamp)
      case WriteCheckpoint(e, acked) => StepWrite(s, e, acked)
  }

  function Run(acts: seq<Action>): Option<State> {
    if acts == [] then Some(Initial())
    else
      var before := Run(acts[..|acts| - 1]);
      if before.None? then None else Step(before.value, acts[|acts| - 1])
  }

  /******* All runs: effects commit at most once, answers are checkpoints *******/

  // The application writes of k are committed once if its completion row says
  // success, and not at all otherwise.
  ghost predicate OnceIffSuccess(s: State, k: Key) {
    Effects(s, k) == if k in s.completions && s.completions[k].Output? then [s.completions[k].value] else []
  }

  // Whoever answered, answered the checkpoint.
  ghost predicate Answers(s: State, e: nat) {
    e in s.execs && s.execs[e].phase.Answered? ==>
      s.execs[e].key in s.checkpoints && s.checkpoints[s.execs[e].key].outcome == s.execs[e].phase.outcome
  }

  ghost predicate AnsweredOk(s: State) {
    forall e :: Answers(s, e)
  }

  lemma StepEffects(s: State, a: Action, k: Key)
    requires OnceIffSuccess(s, k) && Step(s, a).Some?
    ensures OnceIffSuccess(Step(s, a).value, k)
  {
    if a.Attempt? {
      AttemptEffects(s, a.e, a.t, k);
    }
  }

  lemma AttemptEffects(s: State, e: nat, t: Try, k: Key)
    requires OnceIffSuccess(s, k) && IsLive(s, e) && StepAttempt(s, e, t).Some?
    ensures OnceIffSuccess(StepAttempt(s, e, t).value, k)
  {
  }

  predicate SameFor(s: State, s': State, e: nat) {
    && (e in s'.execs <==> e in s.execs) && (e in s.execs ==> s'.execs[e] == s.execs[e])
    && (e in s'.firm <==> e in s.firm)
  }

  lemma AttemptStands(s: State, e: nat, t: Try, f: nat)
    requires f != e && IsLive(s, e) && StepAttempt(s, e, t).Some?
    ensures SameFor(s, StepAttempt(s, e, t).value, f)
  {
  }

  lemma CheckpointingStands(s: State, a: Action, f: nat)
    requires f != a.e && IsLive(s, a.e) && Step(s, a).Some? && (a.Mirror? || a.Prepare? || a.WriteCheckpoint?)
    ensures SameFor(s, Step(s, a).value, f)
  {
  }

  // Others keep their place,
  lemma BystanderStands(s: State, a: Action, e: nat)
    requires e != a.e && Step(s, a).Some?
    ensures SameFor(s, Step(s, a).value, e)
  {
    match a
    case Attempt(x, t) => AttemptStands(s, x, t, e);
    case Mirror(_, _) => CheckpointingStands(s, a, e);
    case Prepare(_, _) => CheckpointingStands(s, a, e);
    case WriteCheckpoint(_, _) => CheckpointingStands(s, a, e);
    case _ =>
  }

  // and a checkpoint once written stays.
  lemma CheckpointStays(s: State, a: Action, k: Key)
    requires k in s.checkpoints && Step(s, a).Some?
    ensures var s' := Step(s, a).value; k in s'.checkpoints && s'.checkpoints[k] == s.checkpoints[k]
  {
  }

  lemma BystanderAnswers(s: State, a: Action, e: nat)
    requires Answers(s, e) && e != a.e && Step(s, a).Some?
    ensures Answers(Step(s, a).value, e)
  {
    BystanderStands(s, a, e);
    if e in s.execs && s.execs[e].key in s.checkpoints {
      CheckpointStays(s, a, s.execs[e].key);
    }
  }

  lemma MoverAnswers(s: State, a: Action)
    requires Step(s, a).Some?
    ensures Answers(Step(s, a).value, a.e)
  {
  }

  lemma StepAnswers(s: State, a: Action)
    requires AnsweredOk(s) && Step(s, a).Some?
    ensures AnsweredOk(Step(s, a).value)
  {
    var s' := Step(s, a).value;
    forall e ensures Answers(s', e) {
      if e == a.e { MoverAnswers(s, a); } else { assert Answers(s, e); BystanderAnswers(s, a, e); }
    }
  }

  // In every run: at most once, and exactly when the success row committed;
  // whoever answers, answers the checkpoint.
  lemma {:induction false} EffectsCommitAtMostOnce(acts: seq<Action>)
    requires Run(acts).Some?
    ensures forall k :: OnceIffSuccess(Run(acts).value, k)
    ensures AnsweredOk(Run(acts).value)
    decreases |acts|
  {
    if acts != [] {
      EffectsCommitAtMostOnce(acts[..|acts| - 1]);
      var s, a := Run(acts[..|acts| - 1]).value, acts[|acts| - 1];
      StepAnswers(s, a);
      forall k ensures OnceIffSuccess(Step(s, a).value, k) {
        StepEffects(s, a, k);
      }
    }
  }

  lemma AnswersAgree(acts: seq<Action>, e: nat, f: nat)
    requires Run(acts).Some?
    requires var s := Run(acts).value;
             && e in s.execs && f in s.execs && s.execs[e].key == s.execs[f].key
             && s.execs[e].phase.Answered? && s.execs[f].phase.Answered?
    ensures var s := Run(acts).value;
            && s.execs[e].phase == s.execs[f].phase
            && |Effects(s, s.execs[e].key)| <= 1
  {
    EffectsCommitAtMostOnce(acts);
    var s := Run(acts).value;
    assert OnceIffSuccess(s, s.execs[e].key) && Answers(s, e) && Answers(s, f);
  }

  /******* All runs: where a checkpoint comes from *******/

  // What a firm execution holds is the completion row; who is not firm holds an error.
  ghost predicate FirmOk(s: State, e: nat) {
    && (e in s.firm ==> e in s.execs && s.execs[e].key in s.completions)
    && (e in s.execs ==>
          var k, phase := s.execs[e].key, s.execs[e].phase;
          && (phase.Begun? || phase.Unrecorded? || phase.Fresh? || phase.GaveUp? ==> e !in s.firm)
          && (phase.Replaying? ==> e in s.firm && s.completions[k] == phase.found)
          && (phase.Committed? ==> e in s.firm && s.completions[k] == Output(phase.output))
          && (phase.Mirrored? && e in s.firm ==> s.completions[k] == Failure(phase.error))
          && (phase.Checkpointing? ==>
                if e in s.firm then s.completions[k] == phase.row.outcome else phase.row.outcome.Failure?))
  }

  ghost predicate WriterOk(s: State, k: Key) {
    k in s.checkpoints ==>
      && k in s.writer && s.writer[k] in s.execs && s.execs[s.writer[k]].key == k
      && var e := s.writer[k];
      && (s.execs[e].phase.Checkpointing? || s.execs[e].phase.Answered? || s.execs[e].phase.Stopped?)
      && if e in s.firm then k in s.completions && s.completions[k] == s.checkpoints[k].outcome
         else s.checkpoints[k].outcome.Failure?
  }

  // A completion row, once written, stays.
  lemma CompletionStays(s: State, a: Action, k: Key)
    requires k in s.completions && Step(s, a).Some?
    ensures var s' := Step(s, a).value; k in s'.completions && s'.completions[k] == s.completions[k]
  {
  }

  lemma FirmAttempt(s: State, e: nat, t: Try)
    requires FirmOk(s, e) && IsLive(s, e) && StepAttempt(s, e, t).Some?
    ensures FirmOk(StepAttempt(s, e, t).value, e)
  {
  }

  lemma FirmCheckpoint(s: State, a: Action)
    requires FirmOk(s, a.e) && IsLive(s, a.e) && Step(s, a).Some? && (a.Prepare? || a.WriteCheckpoint? || a.Mirror?)
    ensures FirmOk(Step(s, a).value, a.e)
  {
  }

  lemma FirmMover(s: State, a: Action)
    requires FirmOk(s, a.e) && Step(s, a).Some?
    ensures FirmOk(Step(s, a).value, a.e)
  {
    match a
    case Attempt(e, t) => FirmAttempt(s, e, t);
    case Mirror(_, _) => FirmCheckpoint(s, a);
    case Prepare(_, _) => FirmCheckpoint(s, a);
    case WriteCheckpoint(_, _) => FirmCheckpoint(s, a);
    case _ =>
  }

  lemma FirmBystander(s: State, a: Action, e: nat)
    requires FirmOk(s, e) && e != a.e && Step(s, a).Some?
    ensures FirmOk(Step(s, a).value, e)
  {
    BystanderStands(s, a, e);
    if e in s.execs && s.execs[e].key in s.completions {
      CompletionStays(s, a, s.execs[e].key);
    }
  }

  // The writer of an old checkpoint does not become firm afterwards.
  lemma WriterStands(s: State, a: Action, k: Key)
    requires WriterOk(s, k) && FirmOk(s, a.e) && k in s.checkpoints && Step(s, a).Some?
    ensures var s' := Step(s, a).value;
            && k in s'.writer && s'.writer[k] == s.writer[k]
            && (s.writer[k] in s'.firm <==> s.writer[k] in s.firm)
            && s.writer[k] in s'.execs && s'.execs[s.writer[k]].key == k
            && var phase := s'.execs[s.writer[k]].phase;
               phase.Checkpointing? || phase.Answered? || phase.Stopped?
  {
    if s.writer[k] != a.e {
      BystanderStands(s, a, s.writer[k]);
    } else {
      MoverStands(s, a);
    }
    WriterStays(s, a, k);
  }

  // Who has a checkpoint to write has no other way left.
  lemma MoverStands(s: State, a: Action)
    requires a.e in s.execs && Step(s, a).Some?
    requires s.execs[a.e].phase.Checkpointing? || s.execs[a.e].phase.Answered? || s.execs[a.e].phase.Stopped?
    ensures var s' := Step(s, a).value;
            && a.e in s'.execs && s'.execs[a.e].key == s.execs[a.e].key && s'.firm == s.firm
            && var phase := s'.execs[a.e].phase; phase.Checkpointing? || phase.Answered? || phase.Stopped?
  {
  }

  lemma WriterStays(s: State, a: Action, k: Key)
    requires k in s.checkpoints && k in s.writer && Step(s, a).Some?
    ensures k in Step(s, a).value.writer && Step(s, a).value.writer[k] == s.writer[k]
  {
  }

  lemma WriterStep(s: State, a: Action, k: Key)
    requires WriterOk(s, k) && FirmOk(s, a.e) && Step(s, a).Some?
    ensures WriterOk(Step(s, a).value, k)
  {
    if k in s.checkpoints {
      WriterStands(s, a, k);
      CheckpointStays(s, a, k);
      if k in s.completions { CompletionStays(s, a, k); }
    }
  }

  lemma {:induction false} RunsFirm(acts: seq<Action>)
    requires Run(acts).Some?
    ensures forall e :: FirmOk(Run(acts).value, e)
    ensures forall k :: WriterOk(Run(acts).value, k)
    decreases |acts|
  {
    if acts != [] {
      RunsFirm(acts[..|acts| - 1]);
      var s, a := Run(acts[..|acts| - 1]).value, acts[|acts| - 1];
      forall e ensures FirmOk(Step(s, a).value, e) {
        if e == a.e { FirmMover(s, a); } else { FirmBystander(s, a, e); }
      }
      forall k ensures WriterOk(Step(s, a).value, k) {
        WriterStep(s, a, k);
      }
    }
  }

  // In every run, overlapping executions and lost answers included: the checkpoint
  // agrees with the completion row if its writer committed, replayed or mirrored
  // that row; and if the step's writes committed, only then.
  lemma LayersAgreeIffFirm(acts: seq<Action>, k: Key)
    requires Run(acts).Some? && k in Run(acts).value.checkpoints && k in Run(acts).value.completions
    ensures var s := Run(acts).value;
            && k in s.writer
            && (s.writer[k] in s.firm ==> Agree(s, k))
            && (Succeeded(s, k) ==> (Agree(s, k) <==> s.writer[k] in s.firm))
  {
    RunsFirm(acts);
    assert WriterOk(Run(acts).value, k);
  }

  /******* One live execution at a time *******/

  // Each execution starts only when the one before it has answered or stopped.
  ghost predicate Sequential(acts: seq<Action>) {
    if acts == [] then true
    else
      && Sequential(acts[..|acts| - 1])
      && Run(acts).Some?
      && (acts[|acts| - 1].Start? ==> Idle(Run(acts[..|acts| - 1]).value))
  }

  ghost predicate Idle(s: State) {
    forall e :: !IsLive(s, e)
  }

  // The two layers say the same of step k.
  ghost predicate Agree(s: State, k: Key)
    requires k in s.checkpoints && k in s.completions
  {
    s.checkpoints[k].outcome == s.completions[k]
  }

  ghost predicate Succeeded(s: State, k: Key) {
    k in s.completions && s.completions[k].Output?
  }

  // What the live execution may rely on: nobody else has written its rows since
  // it read them, and only a commit it was told had failed can be in its way.
  ghost predicate PhaseOk(s: State, e: nat)
    requires e in s.execs
  {
    var k := s.execs[e].key;
    match s.execs[e].phase
    case Begun => e !in s.lost
    case Unrecorded => e !in s.lost && k !in s.checkpoints
    case Fresh => k !in s.checkpoints && if e in s.lost then Succeeded(s, k) else k !in s.completions
    case GaveUp(_) => k !in s.checkpoints && if e in s.lost then Succeeded(s, k) else k !in s.completions
    case Replaying(o) => k !in s.checkpoints && e !in s.lost && k in s.completions && s.completions[k] == o
    case Committed(v) => k !in s.checkpoints && e !in s.lost && k in s.completions && s.completions[k] == Output(v)
    case Mirrored(err) =>
      && k !in s.checkpoints
      && if e in s.lost then Succeeded(s, k) else k in s.completions ==> s.completions[k] == Failure(err)
    case Checkpointing(row) =>
      && (k in s.checkpoints ==> s.checkpoints[k] == row && k in s.writer && s.writer[k] == e)
      && if e in s.lost then Succeeded(s, k) && row.outcome.Failure?
         else k in s.completions ==> s.completions[k] == row.outcome
    case _ => true
  }

  // A written checkpoint agrees with the completion row unless its writer's own
  // commit had landed and been reported as failed.
  ghost predicate CheckpointOk(s: State, k: Key)
    requires k in s.checkpoints
  {
    && k in s.writer && s.writer[k] in s.execs && s.execs[s.writer[k]].key == k
    && (k in s.completions ==> (Agree(s, k) <==> s.writer[k] !in s.lost))
  }

  ghost predicate SoloInv(s: State) {
    && (forall e, f | IsLive(s, e) && IsLive(s, f) :: e == f)
    && (forall e | IsLive(s, e) :: PhaseOk(s, e))
    && s.lost <= s.execs.Keys
    && (forall k | k in s.checkpoints :: CheckpointOk(s, k))
  }

  // Only the live execution moves, so only its own phase has to be checked.
  lemma SoloUpdate(s: State, s': State, e: nat)
    requires SoloInv(s) && (IsLive(s, e) || Idle(s))
    requires e in s'.execs && s'.execs == s.execs[e := s'.execs[e]]
    requires IsLive(s', e) ==> PhaseOk(s', e)
    requires s'.lost <= s'.execs.Keys
    requires forall k | k in s'.checkpoints :: CheckpointOk(s', k)
    ensures SoloInv(s')
  {
    forall f | IsLive(s', f) ensures f == e {
      assert f != e ==> IsLive(s, f);
    }
  }

  lemma SoloRead(s: State, a: Action)
    requires SoloInv(s) && Step(s, a).Some?
    requires a.Start? || a.Stop? || a.ReadCheckpoint? || a.ReadCompletion? || a.Prepare?
    requires a.Start? ==> Idle(s)
    ensures SoloInv(Step(s, a).value)
  {
    var s' := Step(s, a).value;
    assert IsLive(s, a.e) ==> PhaseOk(s, a.e);
    forall k | k in s'.checkpoints ensures CheckpointOk(s', k) {
      assert CheckpointOk(s, k);
    }
    SoloUpdate(s, s', a.e);
  }

  lemma SoloFnFails(s: State, e: nat, error: string, final: bool)
    requires SoloInv(s) && IsLive(s, e) && s.execs[e].phase.Fresh?
    ensures SoloInv(AfterFailure(s, e, error, final))
  {
    var s' := AfterFailure(s, e, error, final);
    assert PhaseOk(s, e);
    forall k | k in s'.checkpoints ensures CheckpointOk(s', k) {
      assert CheckpointOk(s, k);
    }
    SoloUpdate(s, s', e);
  }

  lemma SoloAttempt(s: State, e: nat, t: Try)
    requires SoloInv(s) && IsLive(s, e) && StepAttempt(s, e, t).Some?
    ensures SoloInv(StepAttempt(s, e, t).value)
  {
    var s' := StepAttempt(s, e, t).value;
    if t.FnFails? || s.execs[e].key in s.completions {
      SoloFnFails(s, e, t.error, t.final);
    } else {
      assert PhaseOk(s, e);
      forall k | k in s'.checkpoints ensures CheckpointOk(s', k) {
        assert CheckpointOk(s, k);
      }
      SoloUpdate(s, s', e);
    }
  }

  lemma SoloMirror(s: State, e: nat, written: bool)
    requires SoloInv(s) && IsLive(s, e) && StepMirror(s, e, written).Some?
    ensures SoloInv(StepMirror(s, e, written).value)
  {
    var s' := StepMirror(s, e, written).value;
    assert PhaseOk(s, e);
    forall k | k in s'.checkpoints ensures CheckpointOk(s', k) {
      assert CheckpointOk(s, k);
    }
    SoloUpdate(s, s', e);
  }

  lemma SoloWrite(s: State, e: nat, acked: bool)
    requires SoloInv(s) && IsLive(s, e) && StepWrite(s, e, acked).Some?
    ensures SoloInv(StepWrite(s, e, acked).value)
  {
    var s' := StepWrite(s, e, acked).value;
    assert PhaseOk(s, e);
    forall k | k in s'.checkpoints ensures CheckpointOk(s', k) {
      if k in s.checkpoints {
        assert CheckpointOk(s, k);
      }
    }
    SoloUpdate(s, s', e);
  }

  lemma {:induction false} SequentialKeeps(acts: seq<Action>)
    requires Sequential(acts)
    ensures Run(acts).Some? && SoloInv(Run(acts).value)
    decreases |acts|
  {
    if acts != [] {
      SequentialKeeps(acts[..|acts| - 1]);
      var s, a := Run(acts[..|acts| - 1]).value, acts[|acts| - 1];
      match a
      case Attempt(e, t) => SoloAttempt(s, e, t);
      case Mirror(e, written) => SoloMirror(s, e, written);
      case WriteCheckpoint(e, acked) => SoloWrite(s, e, acked);
      case _ => SoloRead(s, a);
    }
  }

  // With one live execution at a time, the two databases agree on a step's
  // outcome exactly when the execution that checkpointed it was never told that
  // a commit of its own which landed had failed.
  lemma LayersAgreeIff(acts: seq<Action>, k: Key)
    requires Sequential(acts)
    requires k in Run(acts).value.checkpoints && k in Run(acts).value.completions
    ensures var s := Run(acts).value;
            k in s.writer && (Agree(s, k) <==> s.writer[k] !in s.lost)
  {
    SequentialKeeps(acts);
    assert CheckpointOk(Run(acts).value, k);
  }

  // Decisive commits: every replay returns the outcome both layers hold.
  lemma ReplaysReturnStored(acts: seq<Action>, e: nat)
    requires Sequential(acts) && Run(acts).value.lost == {}
    requires e in Run(acts).value.execs && Run(acts).value.execs[e].phase.Answered?
    ensures var s := Run(acts).value;
            var k := s.execs[e].key;
            && k in s.checkpoints && s.execs[e].phase.outcome == s.checkpoints[k].outcome
            && (k in s.completions ==> s.execs[e].phase.outcome == s.completions[k])
            && (s.execs[e].phase.outcome.Output? && k in s.completions
               ==> Effects(s, k) == [s.execs[e].phase.outcome.value])
  {
    SequentialKeeps(acts);
    EffectsCommitAtMostOnce(acts);
    var s := Run(acts).value;
    assert Answers(s, e) && CheckpointOk(s, s.execs[e].key) && OnceIffSuccess(s, s.execs[e].key);
  }

  /******* What goes wrong otherwise *******/

  // One step further along a run that ends in s.
  lemma Then(acts: seq<Action>, s: State, a: Action) returns (more: seq<Action>, s': State)
    requires Run(acts) == Some(s) && Step(s, a).Some?
    ensures Run(more) == Some(s') && Step(s, a) == Some(s')
    ensures Sequential(acts) && (a.Start? ==> Idle(s)) ==> Sequential(more)
  {
    more, s' := acts + [a], Step(s, a).value;
    assert more[..|acts|] == acts;
  }

  // Execution 0 has found nothing in either layer.
  lemma FreshAlone(k: Key) returns (acts: seq<Action>, s: State)
    ensures Sequential(acts) && Run(acts) == Some(s) && s == Initial().(execs := map[0 := Exec(k, Fresh)])
  {
    acts, s := Then([], Initial(), Start(0, k));
    assert s.execs == map[0 := Exec(k, Begun)];
    acts, s := Then(acts, s, ReadCheckpoint(0));
    assert s.execs == map[0 := Exec(k, Unrecorded)];
    acts, s := Then(acts, s, ReadCompletion(0));
    assert s.execs == map[0 := Exec(k, Fresh)];
  }

  // One execution gives up with err although k's completion row is there, and
  // checkpoints the failure.
  lemma GivesUp(acts: seq<Action>, s: State, e: nat, k: Key, err: string) returns (more: seq<Action>, s': State)
    requires Run(acts) == Some(s) && e in s.execs && s.execs[e] == Exec(k, GaveUp(err))
    requires k in s.completions && k !in s.checkpoints
    ensures Run(more) == Some(s') && (Sequential(acts) ==> Sequential(more))
    ensures s'.checkpoints == s.checkpoints[k := Checkpoint(Failure(err), 0)]
    ensures s'.completions == s.completions && s'.effects == s.effects && s'.lost == s.lost
  {
    more, s' := Then(acts, s, Mirror(e, true));
    more, s' := Then(more, s', Prepare(e, 0));
    more, s' := Then(more, s', WriteCheckpoint(e, true));
  }

  // A commit that landed and was reported as a final failure: the application's
  // writes are durable, and the checkpoint says the step failed.
  lemma LostCommitDisagrees(k: Key, v: string, err: string) returns (acts: seq<Action>)
    ensures Sequential(acts)
    ensures var s := Run(acts).value;
            && k in s.checkpoints && k in s.completions && !Agree(s, k)
            && Effects(s, k) == [v] && s.checkpoints[k].outcome == Failure(err)
  {
    var s;
    acts, s := FreshAlone(k);
    acts, s := Then(acts, s, Attempt(0, Commits(v, false, err, true)));
    acts, s := GivesUp(acts, s, 0, k, err);
  }

  // Two executions at once, every commit reported truthfully: one commits the
  // writes, the other's duplicate is refused and it checkpoints its failure first.
  lemma OverlapDisagrees(k: Key, v: string, err: string) returns (acts: seq<Action>)
    ensures Run(acts).Some? && Run(acts).value.lost == {}
    ensures var s := Run(acts).value;
            && k in s.checkpoints && k in s.completions && !Agree(s, k)
            && Effects(s, k) == [v] && s.checkpoints[k].outcome == Failure(err)
  {
    var s;
    acts, s := FreshAlone(k);
    acts, s := SecondFresh(acts, s, k);
    acts, s := Then(acts, s, Attempt(0, Commits(v, true, err, true)));
    acts, s := Then(acts, s, Attempt(1, Commits(v, true, err, true)));
    acts, s := GivesUp(acts, s, 1, k, err);
  }

  lemma SecondFresh(acts: seq<Action>, s: State, k: Key) returns (more: seq<Action>, s': State)
    requires Run(acts) == Some(s) && s == Initial().(execs := map[0 := Exec(k, Fresh)])
    ensures Run(more) == Some(s') && s' == Initial().(execs := map[0 := Exec(k, Fresh), 1 := Exec(k, Fresh)])
  {
    more, s' := Then(acts, s, Start(1, k));
    assert s'.execs == map[0 := Exec(k, Fresh), 1 := Exec(k, Begun)];
    more, s' := Then(more, s', ReadCheckpoint(1));
    assert s'.execs == map[0 := Exec(k, Fresh), 1 := Exec(k, Unrecorded)];
    more, s' := Then(more, s', ReadCompletion(1));
    assert s'.execs == map[0 := Exec(k, Fresh), 1 := Exec(k, Fresh)];
  }
}
