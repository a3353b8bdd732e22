/**
What a run of gates leaves behind, told from its actions: which opening a gate's row
comes from, whether it was closed since, what became of every delivery, and which
message every recv took.
*/
module GateTrace {
  import opened Base
  import Audience
  import opened Gates
  import opened GateProtocol

  /******* Openings and closings *******/

  // a is taken by an execution at a recv on gate.
  ghost predicate IsFor(plan: Plan, s: State, a: Action, gate: string) {
    (a.Open? || a.Receive?) && a.e in s.execs && plan(s.execs[a.e].step) == gate
  }

  ghost predicate Opens(plan: Plan, s: State, a: Action, gate: string) {
    IsFor(plan, s, a, gate) && a.Open?
  }

  // The recv commits, with a message or a timeout. One that finds its checkpoint
  // commits nothing.
  ghost predicate Closes(plan: Plan, s: State, a: Action, gate: string) {
    IsFor(plan, s, a, gate) && a.Receive? && s.execs[a.e].step !in s.t.results
  }

  // The latest opening of gate, and by which recv.
  ghost function LatestOpening(plan: Plan, acts: seq<Action>, gate: string): Option<(nat, Spec)>
    requires Run(plan, acts).Some?
  {
    if acts == [] then None
    else
      var before, a := acts[..|acts| - 1], acts[|acts| - 1];
      var s := Run(plan, before).value;
      if Opens(plan, s, a, gate) then Some((s.execs[a.e].step, Spec(gate, a.org, a.principals, a.expires)))
      else LatestOpening(plan, before, gate)
  }

  // It was opened, and not closed since.
  ghost predicate StandsOpen(plan: Plan, acts: seq<Action>, gate: string)
    requires Run(plan, acts).Some?
  {
    acts != [] &&
    var before, a := acts[..|acts| - 1], acts[|acts| - 1];
    var s := Run(plan, before).value;
    Opens(plan, s, a, gate) || (!Closes(plan, s, a, gate) && StandsOpen(plan, before, gate))
  }

  // The workflow has not ended since it was last live.
  ghost predicate Lives(acts: seq<Action>) {
    acts == [] ||
    var a := acts[|acts| - 1];
    if a.SetLive? then a.live else Lives(acts[..|acts| - 1])
  }

  lemma RowsMean(principals: seq<(string, string)>, org: string)
    ensures forall kind, principal, o ::
              Audience.Row(kind, principal, o) in Rows(principals, org) <==> o == org && (kind, principal) in principals
  {
    forall kind, principal, o
      ensures Audience.Row(kind, principal, o) in Rows(principals, org) <==> o == org && (kind, principal) in principals
    {
      if o == org && (kind, principal) in principals {
        var i :| 0 <= i < |principals| && principals[i] == (kind, principal);
        assert Audience.Row(principals[i].0, principals[i].1, org) in Rows(principals, org);
      }
    }
  }

  // row is the one an opening leaves, open or closed since.
  ghost predicate ComesFrom(row: GateRow, opening: (nat, Spec), open: bool) {
    row.gate.open == open && OpensAs(row.(gate := row.gate.(open := true)), opening.0, opening.1, "")
  }

  ghost predicate RowIsLatest(plan: Plan, acts: seq<Action>, gate: string)
    requires Run(plan, acts).Some?
  {
    var s, o := Run(plan, acts).value, LatestOpening(plan, acts, gate);
    && (gate in s.t.gates <==> o.Some?)
    && (gate in s.t.gates ==> ComesFrom(s.t.gates[gate], o.value, StandsOpen(plan, acts, gate)))
    && (o.None? ==> !StandsOpen(plan, acts, gate))
  }

  lemma {:induction false} TablesAreOne(plan: Plan, acts: seq<Action>)
    requires Run(plan, acts).Some?
    ensures var t := Run(plan, acts).value.t; t.known && t.tenant == "" && (t.live <==> Lives(acts))
    decreases |acts|
  {
    if acts != [] {
      TablesAreOne(plan, acts[..|acts| - 1]);
      TablesStand(plan, Run(plan, acts[..|acts| - 1]).value, acts[|acts| - 1]);
    }
  }

  lemma TablesStand(plan: Plan, s: State, a: Action)
    requires Step(plan, s, a).Some?
    ensures var t := Step(plan, s, a).value.t;
            t.known == s.t.known && t.tenant == s.t.tenant && t.live == if a.SetLive? then a.live else s.t.live
  {
  }

  // In every run, a gate's row is that of its latest opening, with the audience asked
  // for there, and is open exactly if no recv of the gate has committed since.
  lemma {:induction false} GateRowIsLatestOpening(plan: Plan, acts: seq<Action>, gate: string)
    requires Run(plan, acts).Some?
    ensures RowIsLatest(plan, acts, gate)
    decreases |acts|
  {
    if acts != [] {
      var before, a := acts[..|acts| - 1], acts[|acts| - 1];
      var s := Run(plan, before).value;
      GateRowIsLatestOpening(plan, before, gate);
      TablesAreOne(plan, before);
      if Opens(plan, s, a, gate) {
        RowsMean(a.principals, a.org);
        assert Step(plan, s, a) == StepOpen(plan, s, a.e, Spec(gate, a.org, a.principals, a.expires));
      } else if Closes(plan, s, a, gate) {
        assert Step(plan, s, a) == StepReceive(plan, s, a.e, a.answer);
      } else {
        GateStands(plan, s, a, gate);
      }
    }
  }

  lemma GateStands(plan: Plan, s: State, a: Action, gate: string)
    requires Step(plan, s, a).Some? && !Opens(plan, s, a, gate) && !Closes(plan, s, a, gate)
    ensures SameGate(s.t.gates, Step(plan, s, a).value.t.gates, gate)
  {
  }

  // The latest opening came after the checkpoint of the recv it was for, and no
  // recv of the gate has committed since.
  ghost predicate OpenedLate(plan: Plan, acts: seq<Action>, gate: string)
    requires Run(plan, acts).Some?
  {
    acts != [] &&
    var before, a := acts[..|acts| - 1], acts[|acts| - 1];
    var s := Run(plan, before).value;
    if Opens(plan, s, a, gate) then s.execs[a.e].step in s.t.results
    else !Closes(plan, s, a, gate) && OpenedLate(plan, before, gate)
  }

  // A gate is open for a finished recv exactly when that is so.
  lemma {:induction false} DivergedIffOpenedLate(plan: Plan, acts: seq<Action>, gate: string)
    requires Run(plan, acts).Some?
    ensures gate in Run(plan, acts).value.stale <==> OpenedLate(plan, acts, gate)
    ensures Diverged(Run(plan, acts).value, gate) <==> OpenedLate(plan, acts, gate)
    decreases |acts|
  {
    GatesDivergeIffStale(plan, acts, gate);
    if acts != [] {
      DivergedIffOpenedLate(plan, acts[..|acts| - 1], gate);
      StaleMoves(plan, Run(plan, acts[..|acts| - 1]).value, acts[|acts| - 1], gate);
    }
  }

  lemma StaleMoves(plan: Plan, s: State, a: Action, gate: string)
    requires Step(plan, s, a).Some?
    ensures gate in Step(plan, s, a).value.stale <==>
            if Opens(plan, s, a, gate) then s.execs[a.e].step in s.t.results
            else !Closes(plan, s, a, gate) && gate in s.stale
  {
  }

  // An execution is past a recv only if that recv has its checkpoint.
  lemma {:induction false} PassedIsCheckpointed(plan: Plan, acts: seq<Action>, e: nat, step: nat)
    requires Run(plan, acts).Some? && e in Run(plan, acts).value.execs && step < Run(plan, acts).value.execs[e].step
    ensures step in Run(plan, acts).value.t.results
    decreases |acts|
  {
    var before, a := acts[..|acts| - 1], acts[|acts| - 1];
    var s := Run(plan, before).value;
    StepMovesOn(plan, s, a, e);
    if e in s.execs && step < s.execs[e].step {
      PassedIsCheckpointed(plan, before, e, step);
      ResultStands(plan, s, a, step);
    }
  }

  lemma StepMovesOn(plan: Plan, s: State, a: Action, e: nat)
    requires Step(plan, s, a).Some? && e in Step(plan, s, a).value.execs
    ensures var s' := Step(plan, s, a).value;
            if e in s.execs then
              || s'.execs[e].step == s.execs[e].step
              || (s'.execs[e].step == s.execs[e].step + 1 && s.execs[e].step in s'.t.results)
            else s'.execs[e].step == 0
  {
  }

  /******* Deliveries *******/

  ghost predicate Invites(principals: seq<(string, string)>, caller: Audience.Caller) {
    && (exists i | 0 <= i < |principals| ::
          var (kind, principal) := principals[i];
          || kind == "all"
          || (kind == "user" && principal == caller.subject)
          || (kind == "group" && principal in caller.groups))
    && forall i | 0 <= i < |principals| :: principals[i] != ("except", caller.subject)
  }

  // Open, unexpired, and the workflow live.
  ghost predicate TakesDeliveries(plan: Plan, acts: seq<Action>, gate: string, now: nat)
    requires Run(plan, acts).Some?
  {
    && Lives(acts) && StandsOpen(plan, acts, gate)
    && var o := LatestOpening(plan, acts, gate);
       o.Some? && (o.value.1.expires.Some? ==> o.value.1.expires.value > now)
  }

  // What the audit row of a delivery made after acts says at first.
  ghost function Verdict(plan: Plan, acts: seq<Action>, gate: string, caller: Audience.Caller, now: nat): Gates.Outcome
    requires Run(plan, acts).Some?
  {
    if !TakesDeliveries(plan, acts, gate, now) then RejectedClosed
    else if Invites(LatestOpening(plan, acts, gate).value.1.principals, caller) then Delivered
    else RejectedAudience
  }

  lemma InvitesIff(t: Tables, gate: string, o: (nat, Spec), open: bool, caller: Audience.Caller)
    requires gate in t.gates && ComesFrom(t.gates[gate], o, open)
    ensures Welcome(t, gate, caller) <==> Invites(o.1.principals, caller)
  {
    var row := t.gates[gate];
    var ps, org := o.1.principals, row.gate.org;
    forall i | 0 <= i < |ps| ensures Audience.Row(ps[i].0, ps[i].1, org) in row.gate.audience {
      assert (ps[i].0, ps[i].1) in ps;
    }
    forall r: Audience.Row | r in row.gate.audience ensures (r.kind, r.principal) in ps {
      assert r == Audience.Row(r.kind, r.principal, r.org);
    }
  }

  lemma JudgeMeans(t: Tables, gate: string, caller: Audience.Caller, now: nat)
    ensures Judge(t, gate, caller, now) ==
            if !Accepting(t, gate, now) then RejectedClosed
            else if Welcome(t, gate, caller) then Delivered else RejectedAudience
  {
  }

  // A delivery is accepted exactly when the gate's latest opening has not been closed
  // since, has not expired, invites the caller, and the workflow is live.
  lemma DeliveredIff(plan: Plan, acts: seq<Action>, gate: string, caller: Audience.Caller, now: nat)
    requires Run(plan, acts).Some?
    ensures var s := Run(plan, acts).value;
            Step(plan, s, Deliver(gate, caller, now)).Some? &&
            var s' := Step(plan, s, Deliver(gate, caller, now)).value;
            AuditedAs(s.t, s'.t, gate, caller, Verdict(plan, acts, gate, caller, now))
  {
    var s := Run(plan, acts).value;
    GateRowIsLatestOpening(plan, acts, gate);
    TablesAreOne(plan, acts);
    JudgeMeans(s.t, gate, caller, now);
    if gate in s.t.gates {
      InvitesIff(s.t, gate, LatestOpening(plan, acts, gate).value, StandsOpen(plan, acts, gate), caller);
    }
  }

  // Between the commit that closes a gate and its next opening, every delivery to it
  // is rejected as closed.
  lemma {:induction false} NothingDeliveredWhileClosed(plan: Plan, acts: seq<Action>, n: nat, gate: string,
                                                       caller: Audience.Caller, now: nat)
    requires n < |acts| && Run(plan, acts).Some? && Run(plan, acts[..n]).Some?
    requires Closes(plan, Run(plan, acts[..n]).value, acts[n], gate)
    requires forall m: nat | n < m < |acts| && Run(plan, acts[..m]).Some? ::
               !Opens(plan, Run(plan, acts[..m]).value, acts[m], gate)
    ensures !StandsOpen(plan, acts, gate) && Verdict(plan, acts, gate, caller, now) == RejectedClosed
    decreases |acts|
  {
    var before := acts[..|acts| - 1];
    assert acts[..|acts| - 1] == before;
    if n < |acts| - 1 {
      forall m: nat | n < m < |before| && Run(plan, before[..m]).Some?
        ensures !Opens(plan, Run(plan, before[..m]).value, before[m], gate)
      {
        assert before[..m] == acts[..m];
      }
      assert before[..n] == acts[..n];
      NothingDeliveredWhileClosed(plan, before, n, gate, caller, now);
    }
  }

  /******* The audit table *******/

  // Delivery d was ignored after it was made.
  ghost predicate IgnoredSince(acts: seq<Action>, n: nat, d: nat) {
    exists m: nat | n < m < |acts| :: acts[m] == Ignore(d)
  }

  // Audit row d belongs to the delivery call acts[n].
  ghost predicate AuditOf(plan: Plan, acts: seq<Action>, n: nat, row: Delivery, d: nat) {
    && n < |acts| && acts[n].Deliver? && Run(plan, acts[..n]).Some?
    && |Run(plan, acts[..n]).value.t.deliveries| == d
    && row.gate == acts[n].gate && row.caller == acts[n].caller
    && var first := Verdict(plan, acts[..n], acts[n].gate, acts[n].caller, acts[n].now);
       row.outcome == if first == Delivered && IgnoredSince(acts, n, d) then Ignored else first
  }

  // Every audit row is that of one delivery call, with its gate, its caller and its
  // verdict, or Ignored if it was delivered and somebody ignored it since.
  lemma {:induction false} AuditIsTrace(plan: Plan, acts: seq<Action>, d: nat) returns (n: nat)
    requires Run(plan, acts).Some? && d < |Run(plan, acts).value.t.deliveries|
    ensures AuditOf(plan, acts, n, Run(plan, acts).value.t.deliveries[d], d)
    decreases |acts|
  {
    var before, a := acts[..|acts| - 1], acts[|acts| - 1];
    var s := Run(plan, before).value;
    assert acts == before + [a];
    if d < |s.t.deliveries| {
      n := AuditIsTrace(plan, before, d);
      AuditStands(plan, s, a, d);
      AuditOneMore(plan, before, a, n, s.t.deliveries[d], Run(plan, acts).value.t.deliveries[d], d);
    } else {
      n := |before|;
      AuditArises(plan, s, a, d);
      DeliveredIff(plan, before, a.gate, a.caller, a.now);
      assert acts[..n] == before && !IgnoredSince(acts, n, d);
    }
  }

  lemma AuditOneMore(plan: Plan, acts: seq<Action>, a: Action, n: nat, row: Delivery, row': Delivery, d: nat)
    requires AuditOf(plan, acts, n, row, d)
    requires row' == if a == Ignore(d) && row.outcome == Delivered then row.(outcome := Ignored) else row
    ensures AuditOf(plan, acts + [a], n, row', d)
  {
    assert (acts + [a])[..n] == acts[..n] && (acts + [a])[n] == acts[n];
    IgnoredOneMore(acts, a, n, d);
  }

  lemma AuditArises(plan: Plan, s: State, a: Action, d: nat)
    requires Step(plan, s, a).Some? && |s.t.deliveries| <= d < |Step(plan, s, a).value.t.deliveries|
    ensures a.Deliver? && d == |s.t.deliveries|
  {
  }

  lemma AuditStands(plan: Plan, s: State, a: Action, d: nat)
    requires Step(plan, s, a).Some? && d < |s.t.deliveries|
    ensures var t := Step(plan, s, a).value.t;
            d < |t.deliveries|
            && t.deliveries[d] == if a == Ignore(d) && s.t.deliveries[d].outcome == Delivered
                                  then s.t.deliveries[d].(outcome := Ignored) else s.t.deliveries[d]
  {
  }

  lemma IgnoredOneMore(before: seq<Action>, a: Action, n: nat, d: nat)
    requires n < |before|
    ensures IgnoredSince(before + [a], n, d) <==> IgnoredSince(before, n, d) || a == Ignore(d)
  {
    var acts := before + [a];
    assert acts[|before|] == a;
    if IgnoredSince(before, n, d) {
      var m: nat :| n < m < |before| && before[m] == Ignore(d);
      assert acts[m] == Ignore(d);
    }
    if IgnoredSince(acts, n, d) && a != Ignore(d) {
      var m: nat :| n < m < |acts| && acts[m] == Ignore(d);
      assert before[m] == Ignore(d);
    }
  }

  // The messages sent, in order: by every accepted delivery, and by every plain send.
  ghost function Sent(plan: Plan, acts: seq<Action>): seq<Message>
    requires Run(plan, acts).Some?
  {
    if acts == [] then []
    else
      var before, a := acts[..|acts| - 1], acts[|acts| - 1];
      Sent(plan, before) +
      if a.PlainSend? then [Message(a.gate, false)]
      else if a.Deliver? && Verdict(plan, before, a.gate, a.caller, a.now) == Delivered then [Message(a.gate, true)]
      else []
  }

  lemma {:induction false} MessagesAreSent(plan: Plan, acts: seq<Action>)
    requires Run(plan, acts).Some?
    ensures Run(plan, acts).value.t.messages == Sent(plan, acts)
    decreases |acts|
  {
    if acts != [] {
      var before, a := acts[..|acts| - 1], acts[|acts| - 1];
      MessagesAreSent(plan, before);
      if a.Deliver? {
        DeliveredIff(plan, before, a.gate, a.caller, a.now);
        var t, t' := Run(plan, before).value.t, Run(plan, acts).value.t;
        assert t'.messages == t.messages + t'.messages[|t.messages|..];
      } else {
        MessagesMove(plan, Run(plan, before).value, a);
      }
    }
  }

  lemma MessagesMove(plan: Plan, s: State, a: Action)
    requires Step(plan, s, a).Some? && !a.Deliver?
    ensures Step(plan, s, a).value.t.messages == s.t.messages + if a.PlainSend? then [Message(a.gate, false)] else []
  {
  }

  /******* What a recv takes *******/

  ghost predicate TakenOk(plan: Plan, s: State, m: nat) {
    && (forall step: nat | step in s.t.results && s.t.results[step] == Got(m) :: m in s.t.taken && s.t.taken[m] == step)
    && (m in s.t.taken ==>
          && m < |s.t.messages| && s.t.messages[m].gate == plan(s.t.taken[m])
          && s.t.taken[m] in s.t.results && s.t.results[s.t.taken[m]] == Got(m))
  }

  lemma StepTakes(plan: Plan, s: State, a: Action, m: nat)
    requires TakenOk(plan, s, m) && Step(plan, s, a).Some?
    ensures TakenOk(plan, Step(plan, s, a).value, m)
  {
    var t' := Step(plan, s, a).value.t;
    if a.Receive? {
      assert Step(plan, s, a) == StepReceive(plan, s, a.e, a.answer);
    } else {
      assert t'.taken == s.t.taken && t'.results == s.t.results && s.t.messages <= t'.messages;
    }
  }

  // A message is taken by at most one recv, of its own gate, whose checkpoint says so.
  lemma {:induction false} TakenOnce(plan: Plan, acts: seq<Action>, m: nat)
    requires Run(plan, acts).Some?
    ensures TakenOk(plan, Run(plan, acts).value, m)
    decreases |acts|
  {
    if acts != [] {
      TakenOnce(plan, acts[..|acts| - 1], m);
      StepTakes(plan, Run(plan, acts[..|acts| - 1]).value, acts[|acts| - 1], m);
    }
  }

  // acts[n] is the commit of that recv with that answer.
  ghost predicate Answers(plan: Plan, acts: seq<Action>, n: nat, step: nat, answer: Answer) {
    && n < |acts| && Run(plan, acts[..n]).Some? && acts[n].Receive? && acts[n].answer == answer
    && var s := Run(plan, acts[..n]).value;
       acts[n].e in s.execs && s.execs[acts[n].e].step == step && step !in s.t.results
  }

  // A checkpoint is the answer of the first recv to commit under that step, for good.
  lemma {:induction false} FirstAnswerStays(plan: Plan, acts: seq<Action>, step: nat) returns (n: nat)
    requires Run(plan, acts).Some? && step in Run(plan, acts).value.t.results
    ensures Answers(plan, acts, n, step, Run(plan, acts).value.t.results[step])
    decreases |acts|
  {
    var before, a := acts[..|acts| - 1], acts[|acts| - 1];
    var s := Run(plan, before).value;
    if step in s.t.results {
      n := FirstAnswerStays(plan, before, step);
      assert before[..n] == acts[..n];
      ResultStands(plan, s, a, step);
    } else {
      n := |acts| - 1;
      ResultArises(plan, s, a, step);
    }
  }

  lemma ResultStands(plan: Plan, s: State, a: Action, step: nat)
    requires Step(plan, s, a).Some? && step in s.t.results
    ensures var t := Step(plan, s, a).value.t; step in t.results && t.results[step] == s.t.results[step]
  {
  }

  lemma ResultArises(plan: Plan, s: State, a: Action, step: nat)
    requires Step(plan, s, a).Some? && step !in s.t.results && step in Step(plan, s, a).value.t.results
    ensures a.Receive? && a.e in s.execs && s.execs[a.e].step == step
    ensures Step(plan, s, a).value.t.results[step] == a.answer
  {
  }

  // A caller who is invited can deliver, and the recv takes that message, moves on and
  // leaves the gate closed.
  lemma DeliveryIsReceived(plan: Plan, principals: seq<(string, string)>, caller: Audience.Caller)
    returns (acts: seq<Action>)
    requires Distinct(principals) && Invites(principals, caller)
    ensures Run(plan, acts).Some?
    ensures var s := Run(plan, acts).value;
            && s.t.results == map[0 := Got(0)] && s.t.deliveries == [Delivery(plan(0), caller, Delivered, Some(0))]
            && s.execs == map[0 := Exec(1, Checking)]
            && plan(0) in s.t.gates && !s.t.gates[plan(0)].gate.open
  {
    var s;
    acts, s := Opened0(plan, principals);
    DeliveredIff(plan, acts, plan(0), caller, 0);
    acts, s := Then(plan, acts, s, Deliver(plan(0), caller, 0));
    assert s.t.messages == [Message(plan(0), true)];
    acts, s := Then(plan, acts, s, Receive(0, Got(0)));
    assert s.execs == map[0 := Exec(1, Checking)];
  }

  lemma Opened0(plan: Plan, principals: seq<(string, string)>) returns (acts: seq<Action>, s: State)
    requires Distinct(principals)
    ensures Run(plan, acts) == Some(s) && StandsOpen(plan, acts, plan(0)) && Lives(acts)
    ensures LatestOpening(plan, acts, plan(0)) == Some((0, Spec(plan(0), "", principals, None)))
    ensures s.execs == map[0 := Exec(0, Listening)]
    ensures s.t == Opened(Initial().t, 0, Spec(plan(0), "", principals, None))
  {
    var prior, s0 := Checked0(plan);
    var open := Open(0, "", principals, None);
    acts, s := prior + [open], Step(plan, s0, open).value;
    assert acts[..|acts| - 1] == prior && acts[|acts| - 1] == open;
    assert s.execs == map[0 := Exec(0, Listening)];
    assert Opens(plan, s0, open, plan(0));
  }

  lemma Checked0(plan: Plan) returns (acts: seq<Action>, s: State)
    ensures Run(plan, acts) == Some(s) && Lives(acts)
    ensures s.execs == map[0 := Exec(0, Opening)] && s.t == Initial().t
  {
    acts, s := Then(plan, [], Initial(), Start(0));
    assert s.execs == map[0 := Exec(0, Checking)];
    acts, s := Then(plan, acts, s, Check(0));
    assert s.execs == map[0 := Exec(0, Opening)];
    TablesAreOne(plan, acts);
  }

  // When each action is possible: a caller or the workflow's end never waits, and an
  // execution takes its steps in order, receiving only what is there for it.
  predicate CanTake(plan: Plan, s: State, a: Action) {
    match a
    case Start(e) => e !in s.execs
    case Leave(e) => e in s.execs && s.execs[e].phase != Gone
    case Check(e) => e in s.execs && s.execs[e].phase == Checking
    case Open(e, _, principals, _) => e in s.execs && s.execs[e].phase == Opening && Distinct(principals)
    case Receive(e, answer) =>
      && e in s.execs && s.execs[e].phase == Listening
      && (s.execs[e].step in s.t.results || answer.TimedOut?
          || (answer.message < |s.t.messages| && answer.message !in s.t.taken
              && s.t.messages[answer.message].gate == plan(s.execs[e].step)))
    case Deliver(_, _, _) => true
    case Ignore(_) => true
    case PlainSend(_) => true
    case SetLive(_) => true
  }

  lemma StepsWhenPossible(plan: Plan, s: State, a: Action)
    ensures Step(plan, s, a).Some? <==> CanTake(plan, s, a)
    ensures CanTake(plan, s, a) && a.Leave? ==>
              Step(plan, s, a).value == s.(execs := s.execs[a.e := Exec(s.execs[a.e].step, Gone)])
  {
  }
}
