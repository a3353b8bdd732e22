/**
One RunAsTransaction call in process, updating both databases in place, for an
execution that runs alone and whose commits answer truthfully.
*/
module DataSource {
  import opened Base
  import opened Retry
  import opened TwoDatabases

  class UserDatabase {
    var completions: map<Key, Outcome>
    var effects: map<Key, seq<string>>

    // fn's writes and the completion row in one transaction; a duplicate row refuses both.
    method CommitWithCompletion(k: Key, output: string) returns (ok: bool)
      modifies this
      ensures ok <==> k !in old(completions)
      ensures completions == if ok then old(completions)[k := Output(output)] else old(completions)
      ensures effects == if ok then old(effects)[k := (if k in old(effects) then old(effects[k]) else []) + [output]]
              else old(effects)
    {
      ok := k !in completions;
      if ok {
        effects := effects[k := (if k in effects then effects[k] else []) + [output]];
        completions := completions[k := Output(output)];
      }
    }

    method RecordFailure(k: Key, error: string)
      modifies this`completions
      ensures completions == if k in old(completions) then old(completions) else old(completions)[k := Failure(error)]
    {
      if k !in completions {
        completions := completions[k := Failure(error)];
      }
    }
  }

  class SystemDatabase {
    var checkpoints: map<Key, Outcome>
  }

  // The two layers agree on k, and its writes are committed once exactly when
  // its completion row says success.
  ghost predicate Consistent(user: UserDatabase, sys: SystemDatabase, k: Key)
    reads user, sys
  {
    && (k in sys.checkpoints && k in user.completions ==> sys.checkpoints[k] == user.completions[k])
    && (if k in user.completions && user.completions[k].Output?
        then k in user.effects && user.effects[k] == [user.completions[k].value]
        else k !in user.effects)
  }

  // attempt(i): the i-th transaction, fn's output if it commits. interrupted: the
  // workflow was found cancelled after the last attempt. mirrored: the
  // best-effort copy of a failure into the user database went through.
  method RunAsTransaction(user: UserDatabase, sys: SystemDatabase, k: Key, p: Policy, attempt: nat -> Outcome,
                          waits: nat -> bool, interrupted: bool, mirrored: bool)
    returns (r: Option<Outcome>)
    requires Consistent(user, sys, k)
    modifies user, sys
    ensures Consistent(user, sys, k)
    // whoever is told an outcome is told the checkpoint
    ensures r.Some? <==> k in sys.checkpoints
    ensures r.Some? ==> sys.checkpoints[k] == r.value
    // layer 1: the checkpoint is replayed and nothing is written
    ensures k in old(sys.checkpoints) ==>
              r.Some? && sys.checkpoints == old(sys.checkpoints) && user.completions == old(user.completions)
                && user.effects == old(user.effects)
    // layer 2: the completion row is replayed and checkpointed, fn is not run
    ensures k !in old(sys.checkpoints) && k in old(user.completions) ==>
              r == Some(old(user.completions)[k]) && user.completions == old(user.completions)
                && user.effects == old(user.effects)
    // first time: the retry policy's outcome; a success is durable in the user
    // database even when the interrupted call checkpoints nothing
    ensures k !in old(sys.checkpoints) && k !in old(user.completions) ==>
              var out := Told(Drive(p, attempt, waits, []));
              && r == (if interrupted then None else Some(out))
              && (k in user.completions <==> out.Output? || (mirrored && !interrupted))
              && (k in user.completions ==> user.completions[k] == out)
    ensures forall j | j != k :: Same(old(sys.checkpoints), sys.checkpoints, j)
    ensures forall j | j != k :: Same(old(user.effects), user.effects, j)
    ensures forall j | j != k :: Same(old(user.completions), user.completions, j)
  {
    if k in sys.checkpoints {
      return Some(sys.checkpoints[k]);
    }
    if k in user.completions {
      sys.checkpoints := sys.checkpoints[k := user.completions[k]];
      return Some(user.completions[k]);
    }
    var v := AttemptWithRetry(user, k, p, attempt, waits);
    if interrupted {
      return None;
    }
    var out := Told(v);
    if out.Failure? && mirrored {
      user.RecordFailure(k, out.error);
    }
    sys.checkpoints := sys.checkpoints[k := out];
    r := Some(out);
  }

  ghost predicate Same<V>(before: map<Key, V>, after: map<Key, V>, j: Key) {
    (j in after <==> j in before) && (j in after ==> after[j] == before[j])
  }

  // Each attempt is its own transaction; a failed one leaves nothing behind.
  method AttemptWithRetry(user: UserDatabase, k: Key, p: Policy, attempt: nat -> Outcome, waits: nat -> bool)
    returns (v: Verdict)
    requires k !in user.completions && k !in user.effects
    modifies user
    ensures v == Drive(p, attempt, waits, [])
    ensures v.Done? ==> user.completions == old(user.completions)[k := Output(v.value)]
    ensures v.Done? ==> user.effects == old(user.effects)[k := [v.value]]
    ensures !v.Done? ==> user.completions == old(user.completions) && user.effects == old(user.effects)
  {
    var errors := [];
    while true
      invariant |errors| < Budget(p) && Drive(p, attempt, waits, errors) == Drive(p, attempt, waits, [])
      invariant user.completions == old(user.completions) && user.effects == old(user.effects)
      decreases Budget(p) - |errors|
    {
      var out := attempt(|errors|);
      if out.Output? {
        var _ := user.CommitWithCompletion(k, out.value);
        assert user.effects[k] == [out.value];
        return Done(out.value);
      }
      var stop := Decide(p, errors + [out.error], waits(|errors|));
      errors := errors + [out.error];
      if stop.Some? {
        return stop.value;
      }
    }
  }
}
