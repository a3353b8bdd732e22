/**
runAsTxn: a step whose body, post-step writes and checkpoint share one
transaction. Each attempt of the body runs under a savepoint of the same name,
so that a failed attempt can be undone without losing the transaction.
*/
module Savepoints {
  import opened Base
  import opened Retry

  // Aborted: only a rollback to a savepoint is still accepted. Lost: the
  // connection is gone and every statement fails.
  datatype Health = Good | Aborted | Lost

  // One attempt of the body: what it wrote, what it returned, and how it left
  // the transaction.
  datatype Attempt = Attempt(writes: seq<string>, outcome: Outcome, leaves: Health)

  // An open transaction: its view of the database and the savepoints it holds,
  // innermost last.
  class Transaction {
    var view: seq<string>
    var saved: seq<seq<string>>
    var health: Health

    constructor (committed: seq<string>)
      ensures view == committed && saved == [] && health == Good
    {
      view, saved, health := committed, [], Good;
    }

    method Savepoint() returns (ok: bool)
      modifies this`saved
      ensures ok <==> health == Good
      ensures saved == if ok then old(saved) + [view] else old(saved)
    {
      ok := health == Good;
      if ok {
        saved := saved + [view];
      }
    }

    // Undoes everything since the innermost savepoint, which stays in place.
    method RollbackTo() returns (ok: bool)
      requires saved != []
      modifies this`view, this`health
      ensures ok <==> old(health) != Lost
      ensures ok ==> view == saved[|saved| - 1] && health == Good
      ensures !ok ==> view == old(view) && health == Lost
    {
      ok := health != Lost;
      if ok {
        view, health := saved[|saved| - 1], Good;
      }
    }

    method Release() returns (ok: bool)
      requires saved != []
      modifies this`saved
      ensures ok <==> health == Good
      ensures saved == if ok then old(saved)[..|old(saved)| - 1] else old(saved)
    {
      ok := health == Good;
      if ok {
        saved := saved[..|saved| - 1];
      }
    }

    method Write(rows: seq<string>) returns (ok: bool)
      modifies this`view
      ensures ok <==> health == Good
      ensures view == if ok then old(view) + rows else old(view)
    {
      ok := health == Good;
      if ok {
        view := view + rows;
      }
    }

    method RunBody(a: Attempt)
      modifies this`view, this`health
      ensures view == old(view) + a.writes && health == a.leaves
    {
      view, health := view + a.writes, a.leaves;
    }
  }

  // What an attempt started in health h amounts to, and the health it leaves.
  function Effective(h: Health, a: Attempt): Outcome {
    if h != Good then Failure("failed to create savepoint")
    else if a.outcome.Failure? then
      if a.leaves == Lost then Failure(a.outcome.error + "\n" + "failed to roll back to savepoint") else a.outcome
    else if a.leaves == Good then a.outcome
    else Failure("failed to release savepoint")
  }

  function Leaves(h: Health, a: Attempt): Health {
    if h != Good then h
    else if a.outcome.Failure? && a.leaves == Aborted then Good
    else a.leaves
  }

  function HealthAt(attempts: nat -> Attempt, i: nat): Health {
    if i == 0 then Good else Leaves(HealthAt(attempts, i - 1), attempts(i - 1))
  }

  // The transaction survives an attempt that leaves it healthy, or that failed and
  // could be rolled back.
  predicate Survives(a: Attempt) {
    a.leaves == Good || (a.outcome.Failure? && a.leaves == Aborted)
  }

  lemma {:induction false} HealthyIff(attempts: nat -> Attempt, n: nat)
    ensures HealthAt(attempts, n) == Good <==> forall i: nat | i < n :: Survives(attempts(i))
    decreases n
  {
    if n > 0 {
      HealthyIff(attempts, n - 1);
      assert Survives(attempts(n - 1)) <==> Leaves(Good, attempts(n - 1)) == Good;
    }
  }

  function Script(attempts: nat -> Attempt): nat -> Outcome {
    (i: nat) => Effective(HealthAt(attempts, i), attempts(i))
  }

  // One attempt under a savepoint.
  method RunOnce(tx: Transaction, a: Attempt) returns (out: Outcome)
    modifies tx
    ensures out == Effective(old(tx.health), a) && tx.health == Leaves(old(tx.health), a)
    ensures old(tx.health) == Good ==> (tx.health == Good <==> Survives(a))
    ensures old(tx.health) == Good && Survives(a) ==> out == a.outcome
    ensures old(tx.health) != Good ==> out == Failure("failed to create savepoint")
    ensures old(tx.health) == Good && !Survives(a) ==>
              out == Failure(if a.outcome.Failure? then a.outcome.error + "\n" + "failed to roll back to savepoint"
                             else "failed to release savepoint")
    ensures old(tx.health) != Good ==> tx.view == old(tx.view) && tx.saved == old(tx.saved)
    ensures out.Output? ==> tx.view == old(tx.view) + a.writes && tx.saved == old(tx.saved)
    ensures old(tx.health) == Good && out.Failure? ==>
              tx.saved == old(tx.saved) + [old(tx.view)] && (tx.health == Good ==> tx.view == old(tx.view))
  {
    var ok := tx.Savepoint();
    if !ok {
      return Failure("failed to create savepoint");
    }
    tx.RunBody(a);
    if a.outcome.Failure? {
      ok := tx.RollbackTo();
      return if ok then a.outcome else Failure(a.outcome.error + "\n" + "failed to roll back to savepoint");
    }
    ok := tx.Release();
    out := if ok then a.outcome else Failure("failed to release savepoint");
  }

  predicate AllHold(saved: seq<seq<string>>, view: seq<string>) {
    forall i | 0 <= i < |saved| :: saved[i] == view
  }

  // script is what the attempts amount to, one by one.
  ghost predicate Mirrors(script: nat -> Outcome, attempts: nat -> Attempt, i: nat) {
    script(i) == Effective(HealthAt(attempts, i), attempts(i))
  }

  // All attempts of a step. Every savepoint it piles up holds the pre-step
  // state; n is the attempt that decided.
  method RunAttempts(tx: Transaction, p: Policy, attempts: nat -> Attempt, ghost script: nat -> Outcome,
                     waits: nat -> bool)
    returns (v: Verdict, ghost n: nat)
    requires forall i: nat :: Mirrors(script, attempts, i)
    requires tx.health == Good && tx.saved == []
    modifies tx
    ensures v == Drive(p, script, waits, []) && DecidedAt(p, script, waits, v, n)
    ensures tx.health == HealthAt(attempts, n + 1)
    ensures AllHold(tx.saved, old(tx.view))
    ensures tx.health == Good ==> tx.view == old(tx.view) + if v.Done? then attempts(n).writes else []
    ensures tx.health == Good ==> |tx.saved| == if v.Done? then n else n + 1
  {
    n := 0;
    var errors := [];
    while true
      invariant |errors| == n < Budget(p) && SoFar(p, script, waits, errors)
      invariant Drive(p, script, waits, errors) == Drive(p, script, waits, [])
      invariant tx.health == HealthAt(attempts, n)
      invariant AllHold(tx.saved, old(tx.view))
      invariant tx.health == Good ==> tx.view == old(tx.view) && |tx.saved| == n
      decreases Budget(p) - n
    {
      assert Mirrors(script, attempts, n);
      var out := RunOnce(tx, attempts(|errors|));
      RunDecides(p, script, waits, errors);
      if out.Output? {
        return Done(out.value), n;
      }
      var stop := Decide(p, errors + [out.error], waits(|errors|));
      if stop.Some? {
        return stop.value, n;
      }
      errors, n := errors + [out.error], n + 1;
    }
  }

  // The committed database: rows in the order written, and the step's checkpoint.
  class Database {
    var rows: seq<string>
    var checkpoint: Option<Outcome>
  }

  // One transaction of runAsTxn. lands: the commit took place; acked: it was
  // reported so. retryable: a failure here is tried again with a new transaction.
  datatype Round = Round(
    attempts: nat -> Attempt, waits: nat -> bool, interrupted: bool,
    post: Option<seq<string>>, encodes: bool, lands: bool, acked: bool, retryable: bool)

  datatype Answer = Told(outcome: Outcome) | Interrupted | Refused(retryable: bool)

  // The attempt that decides, and whether the transaction is healthy after it.
  function DecidingAttempt(p: Policy, round: Round): nat {
    Deciding(p, Script(round.attempts), round.waits, 0)
  }

  predicate Healthy(p: Policy, round: Round) {
    HealthAt(round.attempts, DecidingAttempt(p, round) + 1) == Good
  }

  // It is exactly if it survived every attempt up to that one.
  lemma HealthyMeans(p: Policy, round: Round)
    ensures Healthy(p, round) <==> forall i: nat | i <= DecidingAttempt(p, round) :: Survives(round.attempts(i))
  {
    HealthyIff(round.attempts, DecidingAttempt(p, round) + 1);
  }

  predicate Commits(p: Policy, round: Round) {
    !round.interrupted && round.encodes && round.lands && Healthy(p, round)
  }

  // What a round that commits adds and checkpoints.
  function RoundOutcome(p: Policy, round: Round): Outcome {
    Retry.Told(Drive(p, Script(round.attempts), round.waits, []))
  }

  function RoundWrites(p: Policy, round: Round): seq<string> {
    var last := round.attempts(DecidingAttempt(p, round));
    (if RoundOutcome(p, round).Output? then last.writes else []) + if round.post.Some? then round.post.value else []
  }

  ghost predicate Landed(p: Policy, before: seq<string>, after: seq<string>, checkpoint: Outcome, round: Round) {
    Commits(p, round) && checkpoint == RoundOutcome(p, round) && after == before + RoundWrites(p, round)
  }

  // It is what the deciding attempt returned and, if that was a success, wrote, unless
  // retries were exhausted or a wait was cancelled, and the post-step writes.
  lemma RoundMeans(p: Policy, round: Round)
    requires Commits(p, round)
    ensures var last := round.attempts(DecidingAttempt(p, round));
            var v := Drive(p, Script(round.attempts), round.waits, []);
            && (RoundOutcome(p, round).Output? <==> last.outcome.Output?)
            && (v.Done? || v.Raw? ==> RoundOutcome(p, round) == last.outcome)
            && RoundWrites(p, round) == (if last.outcome.Output? then last.writes else [])
                                        + (if round.post.Some? then round.post.value else [])
  {
    var n := DriveDecides(p, Script(round.attempts), round.waits, []);
    DecidesOnce(p, Script(round.attempts), round.waits, Drive(p, Script(round.attempts), round.waits, []), n);
    HealthyScript(p, round);
    assert Script(round.attempts)(n) == round.attempts(n).outcome;
  }

  // In a healthy transaction the attempts amount to what they returned.
  lemma HealthyScript(p: Policy, round: Round)
    requires Healthy(p, round)
    ensures forall i: nat | i <= DecidingAttempt(p, round) :: Script(round.attempts)(i) == round.attempts(i).outcome
  {
    HealthyMeans(p, round);
    forall i: nat | i <= DecidingAttempt(p, round) ensures Script(round.attempts)(i) == round.attempts(i).outcome {
      HealthyIff(round.attempts, i);
      assert Survives(round.attempts(i));
    }
  }

  lemma HealthyAfter(p: Policy, round: Round, v: Verdict, n: nat)
    requires DecidedAt(p, Script(round.attempts), round.waits, v, n)
    ensures n == DecidingAttempt(p, round) && (Healthy(p, round) <==> HealthAt(round.attempts, n + 1) == Good)
  {
    DecidesOnce(p, Script(round.attempts), round.waits, v, n);
  }

  lemma LandsAs(p: Policy, round: Round, v: Verdict, n: nat, before: seq<string>, after: seq<string>)
    requires v == Drive(p, Script(round.attempts), round.waits, [])
    requires DecidedAt(p, Script(round.attempts), round.waits, v, n) && Commits(p, round)
    requires after == before + (if v.Done? then round.attempts(n).writes else [])
                      + (if round.post.Some? then round.post.value else [])
    ensures Landed(p, before, after, Retry.Told(v), round)
  {
    DecidesOnce(p, Script(round.attempts), round.waits, v, n);
    assert after == before + RoundWrites(p, round);
  }

  // One transaction of runAsTxn, from (rows, checkpoint) to (rows', checkpoint').
  ghost predicate RoundRan(p: Policy, round: Round, rows: seq<string>, checkpoint: Option<Outcome>,
                           a: Answer, rows': seq<string>, checkpoint': Option<Outcome>) {
    if checkpoint.Some? then a == Answer.Told(checkpoint.value) && rows' == rows && checkpoint' == checkpoint
    else
      && (checkpoint'.Some? <==> Commits(p, round))
      && (checkpoint'.Some? ==> Landed(p, rows, rows', checkpoint'.value, round))
      && (checkpoint'.None? ==> rows' == rows)
      && (a.Told? <==> Commits(p, round) && round.acked)
      && (a.Told? ==> checkpoint' == Some(a.outcome))
      && (a.Interrupted? <==> round.interrupted)
      && (!a.Told? && !a.Interrupted? ==> a == Refused(round.retryable))
  }

  method RunRound(db: Database, p: Policy, round: Round) returns (a: Answer)
    modifies db
    ensures RoundRan(p, round, old(db.rows), old(db.checkpoint), a, db.rows, db.checkpoint)
  {
    var tx := new Transaction(db.rows);
    if db.checkpoint.Some? {
      return Answer.Told(db.checkpoint.value);
    }
    ghost var script := Script(round.attempts);
    var v, n := RunAttempts(tx, p, round.attempts, script, round.waits);
    HealthyAfter(p, round, v, n);
    if round.interrupted {
      return Interrupted;
    }
    if round.post.Some? {
      var ok := tx.Write(round.post.value);
      if !ok {
        return Refused(round.retryable);
      }
    }
    if !round.encodes || tx.health != Good || !round.lands {
      return Refused(round.retryable);
    }
    LandsAs(p, round, v, n, old(db.rows), tx.view);
    db.rows, db.checkpoint := tx.view, Some(Retry.Told(v));
    a := if round.acked then Answer.Told(Retry.Told(v)) else Refused(round.retryable);
  }

  // An earlier round has committed, with or without saying so.
  ghost predicate CommittedBefore(p: Policy, rounds: seq<Round>, i: nat) {
    exists j: nat | j < i && j < |rounds| :: Commits(p, rounds[j])
  }

  // Round i is refused, and the refusal is one to try again after.
  ghost predicate TriesAgain(p: Policy, rounds: seq<Round>, i: nat)
    requires i < |rounds|
  {
    && !CommittedBefore(p, rounds, i)
    && !rounds[i].interrupted && !(Commits(p, rounds[i]) && rounds[i].acked) && rounds[i].retryable
  }

  // What round i answers when there was no checkpoint before the call.
  ghost predicate AnswersWith(p: Policy, rounds: seq<Round>, i: nat, a: Answer)
    requires i < |rounds|
  {
    if CommittedBefore(p, rounds, i) || (Commits(p, rounds[i]) && rounds[i].acked) then a.Told?
    else a == if rounds[i].interrupted then Interrupted else Refused(rounds[i].retryable)
  }

  // The rounds below tried were tried, from rows without a checkpoint to (rows',
  // checkpoint'), a being the answer of the last and r the one that committed.
  ghost predicate Tried(p: Policy, rounds: seq<Round>, tried: nat, rows: seq<string>, a: Answer, rows': seq<string>,
                        checkpoint': Option<Outcome>, r: nat) {
    && tried <= |rounds| && (checkpoint'.Some? <==> CommittedBefore(p, rounds, tried))
    && (forall i: nat | i < tried - 1 :: TriesAgain(p, rounds, i))
    && (if tried == 0 then a == Refused(true) else AnswersWith(p, rounds, tried - 1, a))
    && (a.Told? ==> checkpoint' == Some(a.outcome))
    && (checkpoint'.None? ==> rows' == rows)
    && (checkpoint'.Some? ==> r < tried && Landed(p, rows, rows', checkpoint'.value, rounds[r]))
  }

  lemma TriedOneMore(p: Policy, rounds: seq<Round>, tried: nat, rows: seq<string>,
                     a: Answer, rows1: seq<string>, checkpoint1: Option<Outcome>, r: nat,
                     a': Answer, rows2: seq<string>, checkpoint2: Option<Outcome>)
    requires Tried(p, rounds, tried, rows, a, rows1, checkpoint1, r) && tried < |rounds| && a == Refused(true)
    requires RoundRan(p, rounds[tried], rows1, checkpoint1, a', rows2, checkpoint2)
    ensures Tried(p, rounds, tried + 1, rows, a', rows2, checkpoint2, if checkpoint1.Some? then r else tried)
  {
    if tried > 0 {
      assert AnswersWith(p, rounds, tried - 1, a) && TriesAgain(p, rounds, tried - 1);
    }
  }

  // The whole call: a new transaction exactly after every refusal to try again
  // after, tried of them in all. It leaves a checkpoint exactly if one of them
  // committed, that of the first, r, and tells it unless nobody heard of it.
  method RunAsTxn(db: Database, p: Policy, rounds: seq<Round>) returns (a: Answer, tried: nat, ghost r: nat)
    requires rounds != []
    modifies db
    ensures old(db.checkpoint).Some? ==>
              && a == Answer.Told(old(db.checkpoint).value)
              && db.rows == old(db.rows) && db.checkpoint == old(db.checkpoint)
    ensures old(db.checkpoint).None? ==>
              && tried >= 1 && Tried(p, rounds, tried, old(db.rows), a, db.rows, db.checkpoint, r)
              && (TriesAgain(p, rounds, tried - 1) ==> tried == |rounds|)
  {
    r, tried := 0, 0;
    a := Refused(true);
    while tried < |rounds| && a == Refused(true)
      invariant tried <= |rounds| && (tried == 0 ==> a == Refused(true))
      invariant old(db.checkpoint).Some? ==>
                  db.rows == old(db.rows) && db.checkpoint == old(db.checkpoint)
                  && (tried > 0 ==> a == Answer.Told(old(db.checkpoint).value))
      invariant old(db.checkpoint).None? ==> Tried(p, rounds, tried, old(db.rows), a, db.rows, db.checkpoint, r)
    {
      ghost var answer, rows, checkpoint := a, db.rows, db.checkpoint;
      a := RunRound(db, p, rounds[tried]);
      if old(db.checkpoint).None? {
        TriedOneMore(p, rounds, tried, old(db.rows), answer, rows, checkpoint, r, a, db.rows, db.checkpoint);
      }
      r := if checkpoint.Some? then r else tried;
      tried := tried + 1;
    }
  }
}
