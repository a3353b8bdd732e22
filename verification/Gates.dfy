/**
Gates: a recv with authoritative open/closed state, a delivery that checks,
audits and signals in one transaction, and an audit table. One workflow's tables.
*/
module Gates {
  import opened Base
  import Audience

  datatype Outcome = Delivered | RejectedClosed | RejectedAudience | Ignored

  // A row of workflow_gates with its audience. step: the recv that opened it.
  datatype GateRow = GateRow(gate: Audience.Gate, step: nat)

  // A row of the audit table; message: the notification it sent.
  datatype Delivery = Delivery(gate: string, caller: Audience.Caller, outcome: Outcome, message: Option<nat>)

  // A notification on a gate's topic. Plain sends on the topic are possible too.
  datatype Message = Message(gate: string, viaGate: bool)

  datatype Answer = Got(message: nat) | TimedOut

  // Deliveries and messages are named by their index. live: the workflow is
  // PENDING, ENQUEUED or DELAYED; tenant: its organisation. taken: which recv
  // consumed which message.
  datatype Tables = Tables(
    known: bool, live: bool, tenant: string,
    gates: map<string, GateRow>,
    deliveries: seq<Delivery>, messages: seq<Message>,
    taken: map<nat, nat>, results: map<nat, Answer>)

  // What a recv asks of its gate. No two principals may be the same.
  datatype Spec = Spec(name: string, org: string, principals: seq<(string, string)>, expires: Option<nat>)

  predicate Distinct(principals: seq<(string, string)>) {
    forall i, j | 0 <= i < j < |principals| :: principals[i] != principals[j]
  }

  function Rows(principals: seq<(string, string)>, org: string): set<Audience.Row> {
    set i | 0 <= i < |principals| :: Audience.Row(principals[i].0, principals[i].1, org)
  }

  // A gate without an organisation belongs to the workflow's tenant.
  function Opened(t: Tables, step: nat, g: Spec): Tables {
    var org := if g.org == "" then t.tenant else g.org;
    t.(gates := t.gates[g.name := GateRow(Audience.Gate(org, true, g.expires, Rows(g.principals, org)), step)])
  }

  // An open row for this recv, in the gate's own organisation or the tenant's, that
  // admits the principals asked for and nobody else.
  ghost predicate OpensAs(row: GateRow, step: nat, g: Spec, tenant: string) {
    var org := row.gate.org;
    && row.step == step && row.gate.open && row.gate.expires == g.expires
    && (if g.org == "" then org == tenant else org == g.org)
    && forall kind, principal, o ::
         Audience.Row(kind, principal, o) in row.gate.audience <==> o == org && (kind, principal) in g.principals
  }

  ghost predicate SameGate(before: map<string, GateRow>, after: map<string, GateRow>, name: string) {
    (name in after <==> name in before) && (name in before ==> after[name] == before[name])
  }

  // The gate takes deliveries now.
  predicate Accepting(t: Tables, gate: string, now: nat) {
    && gate in t.gates && t.gates[gate].gate.open && t.live
    && (t.gates[gate].gate.expires.Some? ==> t.gates[gate].gate.expires.value > now)
  }

  // A row of the gate's audience names the caller, and none excludes them.
  predicate Welcome(t: Tables, gate: string, caller: Audience.Caller) {
    && gate in t.gates
    && (exists row | row in t.gates[gate].gate.audience ::
          || row.kind == "all"
          || (row.kind == "user" && row.principal == caller.subject)
          || (row.kind == "group" && row.principal in caller.groups))
    && !(exists row | row in t.gates[gate].gate.audience ::
           row.kind == "except" && row.principal == caller.subject)
  }

  function Judge(t: Tables, gate: string, caller: Audience.Caller, now: nat): Outcome {
    if gate !in t.gates || !t.live || !Audience.IsOpen(t.gates[gate].gate, now) then RejectedClosed
    else if Audience.Delivers(t.gates[gate].gate, t.live, now, caller) then Delivered
    else RejectedAudience
  }

  // One audit row for the call; one message on the gate's topic, which it names,
  // exactly if it delivered.
  ghost predicate AuditedAs(t: Tables, t': Tables, gate: string, caller: Audience.Caller, outcome: Outcome) {
    && |t'.deliveries| == |t.deliveries| + 1 && t.deliveries <= t'.deliveries && t.messages <= t'.messages
    && var row := t'.deliveries[|t.deliveries|];
    && row.gate == gate && row.caller == caller && row.outcome == outcome
    && if outcome == Delivered
       then |t'.messages| == |t.messages| + 1 && t'.messages[|t.messages|] == Message(gate, true)
            && row.message == Some(|t.messages|)
       else t'.messages == t.messages && row.message == None
  }

  // Signal (when delivered) and audit.
  function AfterDelivery(t: Tables, gate: string, caller: Audience.Caller, outcome: Outcome): Tables {
    if outcome == Delivered then
      t.(messages := t.messages + [Message(gate, true)],
         deliveries := t.deliveries + [Delivery(gate, caller, outcome, Some(|t.messages|))])
    else
      t.(deliveries := t.deliveries + [Delivery(gate, caller, outcome, None)])
  }

  function AfterIgnore(t: Tables, d: nat): Tables {
    if d < |t.deliveries| && t.deliveries[d].outcome == Delivered
    then t.(deliveries := t.deliveries[d := t.deliveries[d].(outcome := Ignored)])
    else t
  }

  function Closed(g: GateRow): GateRow {
    g.(gate := g.gate.(open := false))
  }

  // The recv's transaction: checkpoint, consumed message, closed gate.
  function Received(t: Tables, gate: string, step: nat, answer: Answer): Tables {
    var closed := if gate in t.gates then t.gates[gate := Closed(t.gates[gate])] else t.gates;
    t.(gates := closed, results := t.results[step := answer],
       taken := if answer.Got? then t.taken[answer.message := step] else t.taken)
  }

  /******* The operations, in place *******/

  class GateStore {
    var known: bool
    var live: bool
    var tenant: string
    var gates: map<string, GateRow>
    var deliveries: seq<Delivery>
    var messages: seq<Message>
    var taken: map<nat, nat>
    var results: map<nat, Answer>

    ghost function Snapshot(): Tables
      reads this
    {
      Tables(known, live, tenant, gates, deliveries, messages, taken, results)
    }

    // The audience is replaced row by row; an unknown workflow or a repeated
    // principal fails the transaction and changes nothing.
    method OpenGate(step: nat, g: Spec) returns (ok: bool)
      modifies this`gates
      ensures ok <==> known && Distinct(g.principals)
      ensures Snapshot() == if ok then Opened(old(Snapshot()), step, g) else old(Snapshot())
      ensures ok ==> g.name in gates && OpensAs(gates[g.name], step, g, tenant)
      ensures forall name | name != g.name :: SameGate(old(gates), gates, name)
    {
      if !known {
        return false;
      }
      var org := if g.org == "" then tenant else g.org;
      var audience: set<Audience.Row> := {};
      for i := 0 to |g.principals|
        invariant Distinct(g.principals[..i])
        invariant audience == Rows(g.principals[..i], org)
        invariant gates == old(gates)
      {
        var row := Audience.Row(g.principals[i].0, g.principals[i].1, org);
        if row in audience {
          ghost var j :| 0 <= j < i && g.principals[j] == g.principals[i];
          return false;
        }
        assert forall j | 0 <= j < i :: Audience.Row(g.principals[..i][j].0, g.principals[..i][j].1, org) in audience;
        audience := audience + {row};
      }
      assert g.principals[..|g.principals|] == g.principals;
      gates := gates[g.name := GateRow(Audience.Gate(org, true, g.expires, audience), step)];
      ok := true;
    }

    // Verify, match, signal and audit in one transaction; an unknown workflow is
    // an error and leaves no row.
    method DeliverToGate(gate: string, caller: Audience.Caller, now: nat) returns (r: Option<(Outcome, nat)>)
      modifies this`messages, this`deliveries
      ensures r.Some? <==> known
      ensures known ==>
                var t := old(Snapshot());
                && r.value == (Judge(t, gate, caller, now), |t.deliveries|)
                && Snapshot() == AfterDelivery(t, gate, caller, r.value.0)
      ensures known ==>
                var t := old(Snapshot());
                && (r.value.0 == Delivered <==> Accepting(t, gate, now) && Welcome(t, gate, caller))
                && (r.value.0 == RejectedClosed <==> !Accepting(t, gate, now))
                && (r.value.0 == RejectedAudience <==> Accepting(t, gate, now) && !Welcome(t, gate, caller))
      ensures known && gate in gates ==>
                (r.value.0 == Delivered <==> Audience.Delivers(gates[gate].gate, live, now, caller))
      ensures known ==> AuditedAs(old(Snapshot()), Snapshot(), gate, caller, r.value.0)
      ensures !known ==> Snapshot() == old(Snapshot())
    {
      if !known {
        return None;
      }
      var outcome := Delivered;
      if gate !in gates || !gates[gate].gate.open || !live
         || (gates[gate].gate.expires.Some? && gates[gate].gate.expires.value <= now) {
        outcome := RejectedClosed;
      }
      if outcome == Delivered {
        var matches := Audience.AudienceMatches(gates[gate].gate.audience, "", gate, caller);
        if !matches {
          outcome := RejectedAudience;
        }
      }
      var message := None;
      if outcome == Delivered {
        message := Some(|messages|);
        messages := messages + [Message(gate, true)];
      }
      r := Some((outcome, |deliveries|));
      deliveries := deliveries + [Delivery(gate, caller, outcome, message)];
    }

    method IgnoreDelivery(d: nat)
      modifies this`deliveries
      ensures Snapshot() == AfterIgnore(old(Snapshot()), d)
      ensures Snapshot() == AfterIgnore(Snapshot(), d)
      ensures |deliveries| == |old(deliveries)|
      ensures forall c | 0 <= c < |deliveries| && (c != d || old(deliveries)[c].outcome != Delivered) ::
                deliveries[c] == old(deliveries)[c]
      ensures d < |deliveries| && old(deliveries)[d].outcome == Delivered ==>
                deliveries[d] == old(deliveries)[d].(outcome := Ignored)
    {
      if d < |deliveries| && deliveries[d].outcome == Delivered {
        deliveries := deliveries[d := deliveries[d].(outcome := Ignored)];
      }
    }

    // The recv transaction; the audit row of the consumed message is looked up
    // for the caller.
    method Receive(gate: string, step: nat, answer: Answer) returns (delivery: Option<nat>)
      modifies this`gates, this`taken, this`results
      ensures Snapshot() == Received(old(Snapshot()), gate, step, answer)
      ensures results == old(results)[step := answer]
      ensures taken == if answer.Got? then old(taken)[answer.message := step] else old(taken)
      ensures gate in old(gates) <==> gate in gates
      ensures gate in gates ==> gates[gate] == old(gates)[gate].(gate := old(gates)[gate].gate.(open := false))
      ensures forall name | name != gate :: SameGate(old(gates), gates, name)
      ensures delivery.Some? ==>
                && answer.Got? && delivery.value < |deliveries|
                && deliveries[delivery.value].message == Some(answer.message)
      ensures delivery.None? ==>
                answer.TimedOut? || forall d | 0 <= d < |deliveries| :: deliveries[d].message != Some(answer.message)
    {
      results := results[step := answer];
      if answer.Got? {
        taken := taken[answer.message := step];
      }
      if gate in gates {
        gates := gates[gate := Closed(gates[gate])];
      }
      delivery := None;
      if answer.Got? {
        for d := 0 to |deliveries|
          invariant forall c | 0 <= c < d :: deliveries[c].message != Some(answer.message)
        {
          if deliveries[d].message == Some(answer.message) {
            return Some(d);
          }
        }
      }
    }
  }

  /******* Conservation *******/

  predicate Carries(o: Outcome) {
    o == Delivered || o == Ignored
  }

  // Delivered and ignored rows, and no others, name a message of their gate.
  ghost predicate RowOk(t: Tables, d: nat)
    requires d < |t.deliveries|
  {
    var x := t.deliveries[d];
    && (Carries(x.outcome) <==> x.message.Some?)
    && (x.message.Some? ==> x.message.value < |t.messages| && t.messages[x.message.value] == Message(x.gate, true))
  }

  predicate Signals(t: Tables, d: nat, m: nat) {
    d < |t.deliveries| && t.deliveries[d].message == Some(m)
  }

  // Every gate message has its audit row, and only one.
  ghost predicate SignalOk(t: Tables, m: nat)
    requires m < |t.messages|
  {
    && (t.messages[m].viaGate ==> exists d: nat :: Signals(t, d, m))
    && forall c: nat, d: nat | Signals(t, c, m) && Signals(t, d, m) :: c == d
  }

  ghost predicate Conserved(t: Tables) {
    && (forall d: nat | d < |t.deliveries| :: RowOk(t, d))
    && (forall m: nat | m < |t.messages| :: SignalOk(t, m))
  }

  lemma DeliveryConserves(t: Tables, gate: string, caller: Audience.Caller, outcome: Outcome)
    requires Conserved(t) && outcome != Ignored
    ensures Conserved(AfterDelivery(t, gate, caller, outcome))
    ensures |AfterDelivery(t, gate, caller, outcome).deliveries| == |t.deliveries| + 1
    ensures outcome != Delivered ==> AfterDelivery(t, gate, caller, outcome).messages == t.messages
  {
    var t' := AfterDelivery(t, gate, caller, outcome);
    forall d: nat | d < |t'.deliveries| ensures RowOk(t', d) {
      assert d < |t.deliveries| ==> RowOk(t, d);
    }
    forall m: nat | m < |t'.messages| ensures SignalOk(t', m) {
      forall c: nat | Signals(t', c, m) ensures c < |t.deliveries| ==> m < |t.messages| && Signals(t, c, m) {
        assert c < |t.deliveries| ==> RowOk(t, c);
      }
      if m < |t.messages| {
        assert SignalOk(t, m);
        if t.messages[m].viaGate {
          var d: nat :| Signals(t, d, m);
          assert Signals(t', d, m);
        }
      } else {
        assert Signals(t', |t.deliveries|, m);
      }
    }
  }

  lemma IgnoreConserves(t: Tables, d: nat)
    requires Conserved(t)
    ensures Conserved(AfterIgnore(t, d))
  {
    var t' := AfterIgnore(t, d);
    forall c: nat | c < |t'.deliveries| ensures RowOk(t', c) {
      assert RowOk(t, c);
    }
    assert forall c: nat, m: nat :: Signals(t', c, m) == Signals(t, c, m);
    forall m: nat | m < |t'.messages| ensures SignalOk(t', m) {
      assert SignalOk(t, m);
      if t.messages[m].viaGate {
        var c: nat :| Signals(t, c, m);
        assert Signals(t', c, m);
      }
    }
  }
}
