/**
The step retry policy: run the body until it succeeds, the budget is spent, the
predicate refuses an error, or a wait between two runs is cancelled.
*/
module Retry {
  import opened Base

  // accepts: the retry predicate, if the step has one.
  datatype Policy = Policy(maxRetries: int, accepts: Option<string -> bool>)

  datatype Verdict =
    | Done(value: string)
    | Raw(error: string)              // the error itself, unwrapped
    | Exhausted(errors: seq<string>)  // every error, joined in order
    | WaitCancelled

  function Joined(errors: seq<string>): string {
    if |errors| == 0 then "" else if |errors| == 1 then errors[0]
    else Joined(errors[..|errors| - 1]) + "\n" + errors[|errors| - 1]
  }

  // What the caller, and the checkpoint, are told.
  function Told(v: Verdict): Outcome {
    match v
    case Done(value) => Output(value)
    case Raw(error) => Failure(error)
    case Exhausted(errors) => Failure(Joined(errors))
    case WaitCancelled => Failure("context cancelled during retry")
  }

  predicate Accepts(p: Policy, error: string) {
    p.accepts.None? || p.accepts.value(error)
  }

  function Budget(p: Policy): nat {
    if p.maxRetries <= 0 then 1 else p.maxRetries + 1
  }

  // After a failed run, errors being those of all runs so far and waited whether
  // the backoff wait was left to elapse: stop with a verdict, or run again.
  function Decide(p: Policy, errors: seq<string>, waited: bool): Option<Verdict>
    requires errors != []
  {
    var e := errors[|errors| - 1];
    if |errors| > p.maxRetries then Some(if p.maxRetries <= 0 then Raw(e) else Exhausted(errors))
    else if !Accepts(p, e) then Some(Raw(e))
    else if !waited then Some(WaitCancelled)
    else None
  }

  // The outcome of a body whose i-th run gives script(i), when waits(i) says
  // whether the wait after that run was left to elapse.
  function Drive(p: Policy, script: nat -> Outcome, waits: nat -> bool, errors: seq<string>): Verdict
    requires |errors| < Budget(p)
    decreases Budget(p) - |errors|
  {
    match script(|errors|)
    case Output(v) => Done(v)
    case Failure(e) =>
      var stop := Decide(p, errors + [e], waits(|errors|));
      if stop.Some? then stop.value else Drive(p, script, waits, errors + [e])
  }

  // The step has no retry predicate, or it says yes.
  predicate Permits(p: Policy, error: string) {
    p.accepts.Some? ==> p.accepts.value(error)
  }

  // Run i failed, another run was still in the budget, and nothing stood in its way.
  predicate Goes(p: Policy, script: nat -> Outcome, waits: nat -> bool, i: nat) {
    script(i).Failure? && i < p.maxRetries && Permits(p, script(i).error) && waits(i)
  }

  // errors are those of the runs so far, all of which let the loop go on.
  ghost predicate SoFar(p: Policy, script: nat -> Outcome, waits: nat -> bool, errors: seq<string>) {
    forall i: nat | i < |errors| :: Goes(p, script, waits, i) && errors[i] == script(i).error
  }

  // The step is reported as exhausted exactly when retries were asked for, every
  // one of the maxRetries + 1 runs failed, the predicate accepted all errors but
  // the last and no wait was cancelled; the report holds every error, in order.
  ghost predicate AllFailed(p: Policy, script: nat -> Outcome, waits: nat -> bool) {
    && p.maxRetries > 0
    && script(p.maxRetries).Failure?
    && forall i: nat | i < p.maxRetries :: Goes(p, script, waits, i)
  }

  lemma {:induction false} ExhaustedIff(p: Policy, script: nat -> Outcome, waits: nat -> bool, errors: seq<string>)
    requires |errors| < Budget(p) && SoFar(p, script, waits, errors)
    ensures Drive(p, script, waits, errors).Exhausted? <==> AllFailed(p, script, waits)
    ensures var r := Drive(p, script, waits, errors);
            r.Exhausted? ==> |r.errors| == p.maxRetries + 1 && forall i: nat | i <= p.maxRetries ::
              script(i) == Failure(r.errors[i])
    decreases Budget(p) - |errors|
  {
    if Goes(p, script, waits, |errors|) {
      ExhaustedIff(p, script, waits, errors + [script(|errors|).error]);
    } else if p.maxRetries > 0 && |errors| == p.maxRetries && script(|errors|).Failure? {
      forall i: nat | i < p.maxRetries ensures Goes(p, script, waits, i) {
        assert SoFar(p, script, waits, errors);
      }
    }
  }

  // The other three outcomes, each with the run that decided it.
  ghost predicate DecidedAt(p: Policy, script: nat -> Outcome, waits: nat -> bool, r: Verdict, n: nat) {
    && n < Budget(p)
    && (forall i: nat | i < n :: Goes(p, script, waits, i))
    && !Goes(p, script, waits, n)
    && (r.Done? <==> script(n).Output?)
    && (r.Done? ==> script(n) == Output(r.value))
    && (r.Raw? <==> script(n).Failure? && (p.maxRetries <= 0 || (n < p.maxRetries && !Permits(p, script(n).error))))
    && (r.Raw? ==> script(n) == Failure(r.error))
    && (r.WaitCancelled? <==> script(n).Failure? && n < p.maxRetries && Permits(p, script(n).error) && !waits(n))
  }

  lemma {:induction false} DriveDecides(p: Policy, script: nat -> Outcome, waits: nat -> bool, errors: seq<string>)
    returns (n: nat)
    requires |errors| < Budget(p) && SoFar(p, script, waits, errors)
    ensures DecidedAt(p, script, waits, Drive(p, script, waits, errors), n)
    decreases Budget(p) - |errors|
  {
    n := |errors|;
    if Goes(p, script, waits, n) {
      n := DriveDecides(p, script, waits, errors + [script(n).error]);
    }
  }

  // The first run that does not let the loop go on.
  function Deciding(p: Policy, script: nat -> Outcome, waits: nat -> bool, i: nat): nat
    requires i < Budget(p)
    decreases Budget(p) - i
  {
    if Goes(p, script, waits, i) then Deciding(p, script, waits, i + 1) else i
  }

  lemma {:induction false} DecidingIsFirst(p: Policy, script: nat -> Outcome, waits: nat -> bool, i: nat)
    requires i < Budget(p)
    ensures var n := Deciding(p, script, waits, i);
            i <= n < Budget(p) && !Goes(p, script, waits, n) && forall j: nat | i <= j < n :: Goes(p, script, waits, j)
    decreases Budget(p) - i
  {
    if Goes(p, script, waits, i) {
      DecidingIsFirst(p, script, waits, i + 1);
    }
  }

  lemma DecidesOnce(p: Policy, script: nat -> Outcome, waits: nat -> bool, r: Verdict, n: nat)
    requires DecidedAt(p, script, waits, r, n)
    ensures n == Deciding(p, script, waits, 0)
  {
    DecidingIsFirst(p, script, waits, 0);
  }

  // The errors of the first n runs, joined in order.
  function JoinedRuns(script: nat -> Outcome, n: nat): string {
    if n == 0 then "" else if n == 1 then ErrorOf(script(0))
    else JoinedRuns(script, n - 1) + "\n" + ErrorOf(script(n - 1))
  }

  function ErrorOf(o: Outcome): string {
    if o.Failure? then o.error else ""
  }

  // Joining is what it is called: the parts, in order, a line each.
  lemma {:induction false} JoinedSplits(a: seq<string>, b: seq<string>)
    requires a != [] && b != []
    ensures Joined(a + b) == Joined(a) + "\n" + Joined(b)
    ensures |a| == 1 ==> Joined(a) == a[0]
    decreases |b|
  {
    assert (a + b)[..|a + b| - 1] == a + b[..|b| - 1];
    if |b| == 1 {
      assert a + b[..|b| - 1] == a;
    } else {
      JoinedSplits(a, b[..|b| - 1]);
      assert Joined(a + b) == Joined(a) + "\n" + Joined(b[..|b| - 1]) + "\n" + b[|b| - 1];
    }
  }

  lemma {:induction false} JoinedIsRuns(script: nat -> Outcome, errors: seq<string>)
    requires forall i: nat | i < |errors| :: script(i) == Failure(errors[i])
    ensures Joined(errors) == JoinedRuns(script, |errors|)
    decreases |errors|
  {
    if |errors| > 1 {
      JoinedIsRuns(script, errors[..|errors| - 1]);
    }
  }

  // The caller is told what the deciding run returned, unless all runs failed, when
  // it is told every error, or a wait was cancelled.
  lemma ToldIsDecidingRun(p: Policy, script: nat -> Outcome, waits: nat -> bool)
    ensures var told, n := Told(Drive(p, script, waits, [])), Deciding(p, script, waits, 0);
            if AllFailed(p, script, waits) then told == Failure(JoinedRuns(script, p.maxRetries + 1))
            else if script(n).Failure? && n < p.maxRetries && Permits(p, script(n).error)
            then told == Failure("context cancelled during retry")
            else told == script(n)
  {
    var n := DriveDecides(p, script, waits, []);
    var r := Drive(p, script, waits, []);
    DecidesOnce(p, script, waits, r, n);
    ExhaustedIff(p, script, waits, []);
    if r.Exhausted? {
      JoinedIsRuns(script, r.errors);
    }
  }

  // One run further: either the loop goes on, or this run decides.
  lemma RunDecides(p: Policy, script: nat -> Outcome, waits: nat -> bool, errors: seq<string>)
    requires |errors| < Budget(p) && SoFar(p, script, waits, errors)
    ensures if script(|errors|).Output? then Drive(p, script, waits, errors) == Done(script(|errors|).value)
            else
              var all := errors + [script(|errors|).error];
              var stop := Decide(p, all, waits(|errors|));
              if stop.Some? then Drive(p, script, waits, errors) == stop.value
              else
                && |all| < Budget(p) && SoFar(p, script, waits, all)
                && Drive(p, script, waits, all) == Drive(p, script, waits, errors)
    ensures !Goes(p, script, waits, |errors|) ==> DecidedAt(p, script, waits, Drive(p, script, waits, errors), |errors|)
    ensures Goes(p, script, waits, |errors|)
            <==> script(|errors|).Failure? && Decide(p, errors + [script(|errors|).error], waits(|errors|)).None?
  {
  }

  // The loop itself: runs counts the calls of the body.
  method ExecuteStepWithRetry(p: Policy, script: nat -> Outcome, waits: nat -> bool) returns (r: Verdict, runs: nat)
    ensures r == Drive(p, script, waits, [])
    ensures 1 <= runs <= (if p.maxRetries > 0 then p.maxRetries + 1 else 1)
    ensures DecidedAt(p, script, waits, r, runs - 1)
    ensures r.Exhausted? <==> AllFailed(p, script, waits)
    ensures r.Exhausted? ==> |r.errors| == p.maxRetries + 1 && forall i: nat | i <= p.maxRetries ::
            script(i) == Failure(r.errors[i])
  {
    ExhaustedIff(p, script, waits, []);
    runs := 0;
    var joined := [];
    while true
      invariant |joined| == runs < Budget(p) && SoFar(p, script, waits, joined)
      invariant Drive(p, script, waits, joined) == Drive(p, script, waits, [])
      decreases Budget(p) - runs
    {
      var out := script(runs);
      runs := runs + 1;
      if out.Output? {
        return Done(out.value), runs;
      }
      joined := joined + [out.error];
      var stop := Decide(p, joined, waits(runs - 1));
      if stop.Some? {
        return stop.value, runs;
      }
    }
  }

  /******* The backoff schedule, without jitter *******/

  function Pow(factor: real, n: nat): real {
    if n == 0 then 1.0 else factor * Pow(factor, n - 1)
  }

  function Scaled(base: nat, factor: real, n: nat): real {
    base as real * Pow(factor, n)
  }

  function Capped(d: real, max: nat): int {
    if d < max as real then d.Floor else max
  }

  // The delay after the n-th run, in nanoseconds.
  function DelayFor(base: nat, max: nat, factor: real, n: nat): int
    requires n >= 1
  {
    Capped(Scaled(base, factor, n - 1), max)
  }

  lemma {:induction false} ScaledGrows(base: nat, factor: real, m: nat, n: nat)
    requires factor >= 1.0 && m <= n
    ensures 0.0 <= Scaled(base, factor, m) <= Scaled(base, factor, n)
    decreases n
  {
    PowGrows(factor, m, n);
    assert base as real * (Pow(factor, n) - Pow(factor, m)) >= 0.0;
  }

  lemma {:induction false} PowGrows(factor: real, m: nat, n: nat)
    requires factor >= 1.0 && m <= n
    ensures 1.0 <= Pow(factor, m) <= Pow(factor, n)
    decreases n
  {
    if n > 0 {
      PowGrows(factor, if m < n then m else n - 1, n - 1);
      assert (factor - 1.0) * Pow(factor, n - 1) >= 0.0;
    }
  }

  lemma CappedGrows(d: real, e: real, max: nat)
    requires d <= e
    ensures Capped(d, max) <= Capped(e, max) <= max
  {
  }

  // Delays never decrease and stay between min(base, max) and max.
  lemma DelaysGrow(base: nat, max: nat, factor: real, m: nat, n: nat)
    requires factor >= 1.0 && 1 <= m <= n
    ensures (if base < max then base else max) <= DelayFor(base, max, factor, m)
    ensures DelayFor(base, max, factor, m) <= DelayFor(base, max, factor, n) <= max
  {
    ScaledGrows(base, factor, 0, m - 1);
    ScaledGrows(base, factor, m - 1, n - 1);
    assert Scaled(base, factor, 0) == base as real;
    CappedGrows(Scaled(base, factor, 0), Scaled(base, factor, m - 1), max);
    CappedGrows(Scaled(base, factor, m - 1), Scaled(base, factor, n - 1), max);
  }

  // The first delay is the base; each further one is factor times the one before it,
  // up to rounding, until the cap is reached.
  lemma DelaysMultiply(base: nat, max: nat, factor: real, n: nat)
    requires factor >= 1.0 && n >= 1
    ensures DelayFor(base, max, factor, 1) == if base < max then base else max
    ensures var d, d' := DelayFor(base, max, factor, n), DelayFor(base, max, factor, n + 1);
            d' == max || Times(factor, d, d')
  {
    assert Pow(factor, 0) == 1.0 && Scaled(base, factor, 0) == base as real;
    ScaledGrows(base, factor, n - 1, n);
    var x, y := Scaled(base, factor, n - 1), Scaled(base, factor, n);
    NextScaled(base, factor, n);
    if y < max as real {
      assert DelayFor(base, max, factor, n) == x.Floor && DelayFor(base, max, factor, n + 1) == y.Floor;
      Multiplied(factor, x, y, x.Floor, y.Floor);
    }
  }

  // d' is factor times d, up to rounding.
  predicate Times(factor: real, d: int, d': int) {
    factor * (d as real) - 1.0 < d' as real < factor * (d as real + 1.0)
  }

  lemma NextScaled(base: nat, factor: real, n: nat)
    requires n >= 1
    ensures Scaled(base, factor, n) == factor * Scaled(base, factor, n - 1)
  {
    assert Pow(factor, n) == factor * Pow(factor, n - 1);
  }

  lemma Multiplied(factor: real, x: real, y: real, d: int, d': int)
    requires factor >= 1.0 && y == factor * x
    requires d as real <= x < d as real + 1.0 && d' as real <= y < d' as real + 1.0
    ensures Times(factor, d, d')
  {
    var a, b := x - d as real, d as real + 1.0 - x;
    assert factor * a >= 0.0 && factor * b > 0.0;
    assert factor * (d as real) == y - factor * a;
    assert factor * (d as real + 1.0) == y + factor * b;
  }
}
