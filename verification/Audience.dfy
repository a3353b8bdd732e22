/**
Who a gate admits and who may see it. Audiences are stored as symbolic rows; the
caller's query is built as a clause with numbered placeholders over a growing
argument vector, and its meaning must not depend on what else the vector holds.
*/
module Audience {
  import opened Base

  const USER := "user"
  const GROUP := "group"
  const ALL := "all"
  const EXCEPT := "except"
  const INITIATOR := "initiator"

  // A row of an audience table. An empty org stands for NULL as well.
  datatype Row = Row(kind: string, principal: string, org: string)

  datatype Caller = Caller(subject: string, org: string, groups: seq<string>)

  /******* Clauses *******/

  datatype Arg = Text(text: string) | Number(number: int)

  // The generated SQL. Placeholders count from 1.
  datatype Clause =
    | KindIs(p: nat)
    | KindIn(p: nat, q: nat)
    | PrincipalIs(p: nat)
    | PrincipalIn(ps: seq<nat>)
    | Never
    | And(left: Clause, right: Clause)
    | Or(left: Clause, right: Clause)

  predicate Bound(args: seq<Arg>, p: nat, text: string) {
    1 <= p <= |args| && args[p - 1] == Text(text)
  }

  predicate Eval(c: Clause, row: Row, args: seq<Arg>) {
    match c
    case KindIs(p) => Bound(args, p, row.kind)
    case KindIn(p, q) => Bound(args, p, row.kind) || Bound(args, q, row.kind)
    case PrincipalIs(p) => Bound(args, p, row.principal)
    case PrincipalIn(ps) => exists i | 0 <= i < |ps| :: Bound(args, ps[i], row.principal)
    case Never => false
    case And(l, r) => Eval(l, row, args) && Eval(r, row, args)
    case Or(l, r) => Eval(l, row, args) || Eval(r, row, args)
  }

  // The argument vector under construction.
  class Args {
    var values: seq<Arg>

    constructor (initial: seq<Arg>)
      ensures values == initial
    {
      values := initial;
    }

    method Append(a: Arg) returns (p: nat)
      modifies this
      ensures values == old(values) + [a] && p == |values|
    {
      values := values + [a];
      p := |values|;
    }
  }

  /******* What the clauses mean *******/

  // For reading, the starter counts like a named user.
  predicate ReadMatch(row: Row, subject: string, groups: seq<string>) {
    || row.kind == ALL
    || ((row.kind == USER || row.kind == INITIATOR) && row.principal == subject)
    || (row.kind == GROUP && row.principal in groups)
  }

  predicate GateMatch(row: Row, subject: string, groups: seq<string>) {
    || row.kind == ALL
    || (row.kind == USER && row.principal == subject)
    || (row.kind == GROUP && row.principal in groups)
  }

  // c decides match on every row, whatever is appended to args later.
  ghost predicate Decides(c: Clause, args: seq<Arg>, wanted: Row -> bool) {
    forall row: Row, later: seq<Arg> | args <= later :: Eval(c, row, later) <==> wanted(row)
  }

  // ps[i] is bound to groups[i].
  ghost predicate Lists(ps: seq<nat>, groups: seq<string>, args: seq<Arg>) {
    |ps| == |groups| && forall i | 0 <= i < |ps| :: Bound(args, ps[i], groups[i])
  }

  lemma BoundStays(args: seq<Arg>, later: seq<Arg>, p: nat, text: string, other: string)
    requires Bound(args, p, text) && args <= later
    ensures Bound(later, p, other) <==> other == text
  {
  }

  lemma ListsDecides(ps: seq<nat>, groups: seq<string>, args: seq<Arg>, later: seq<Arg>, row: Row)
    requires Lists(ps, groups, args) && args <= later
    ensures Eval(PrincipalIn(ps), row, later) <==> row.principal in groups
  {
    forall i | 0 <= i < |ps| ensures Bound(later, ps[i], row.principal) <==> row.principal == groups[i] {
      BoundStays(args, later, ps[i], groups[i], row.principal);
    }
    if row.principal in groups {
      var i :| 0 <= i < |groups| && groups[i] == row.principal;
      assert Bound(later, ps[i], row.principal);
    }
  }

  // (type = $all OR (type IN ($user, $initiator) AND principal = $subj))
  lemma PersonDecides(all: nat, user: nat, initiator: nat, subj: nat, args: seq<Arg>, later: seq<Arg>, row: Row,
                      subject: string)
    requires Bound(args, all, ALL) && Bound(args, user, USER) && Bound(args, initiator, INITIATOR)
             && Bound(args, subj, subject)
    requires args <= later
    ensures Eval(Or(KindIs(all), And(KindIn(user, initiator), PrincipalIs(subj))), row, later)
            <==> row.kind == ALL || ((row.kind == USER || row.kind == INITIATOR) && row.principal == subject)
  {
    BoundStays(args, later, all, ALL, row.kind);
    BoundStays(args, later, user, USER, row.kind);
    BoundStays(args, later, initiator, INITIATOR, row.kind);
    BoundStays(args, later, subj, subject, row.principal);
    assert Eval(And(KindIn(user, initiator), PrincipalIs(subj)), row, later)
      <==> Eval(KindIn(user, initiator), row, later) && Eval(PrincipalIs(subj), row, later);
  }

  lemma OrDecides(person: Clause, kind: nat, members: Clause, args: seq<Arg>, later: seq<Arg>, row: Row)
    requires Bound(args, kind, GROUP) && args <= later
    ensures Eval(Or(person, And(KindIs(kind), members)), row, later)
            <==> Eval(person, row, later) || (row.kind == GROUP && Eval(members, row, later))
  {
    BoundStays(args, later, kind, GROUP, row.kind);
    assert Eval(And(KindIs(kind), members), row, later)
           <==> Eval(KindIs(kind), row, later) && Eval(members, row, later);
  }

  // One placeholder per group.
  method AppendGroups(groups: seq<string>, args: Args) returns (ps: seq<nat>)
    modifies args
    ensures old(args.values) <= args.values && |args.values| == |old(args.values)| + |groups|
    ensures Lists(ps, groups, args.values)
  {
    ps := [];
    for i := 0 to |groups|
      invariant |args.values| == |old(args.values)| + i
      invariant old(args.values) <= args.values
      invariant Lists(ps, groups[..i], args.values)
    {
      var p := args.Append(Text(groups[i]));
      ps := ps + [p];
    }
    assert groups[..|groups|] == groups;
  }

  // For any arguments so far and any groups, the clause says "this row matches
  // the caller" and goes on saying it as the vector grows.
  method PrincipalMatchClause(subject: string, groups: seq<string>, args: Args) returns (c: Clause)
    modifies args
    ensures old(args.values) <= args.values
    ensures Decides(c, args.values, row => ReadMatch(row, subject, groups))
  {
    var all := args.Append(Text(ALL));
    var user := args.Append(Text(USER));
    var initiator := args.Append(Text(INITIATOR));
    var subj := args.Append(Text(subject));
    c := Or(KindIs(all), And(KindIn(user, initiator), PrincipalIs(subj)));
    ghost var four, person := args.values, c;
    forall row: Row, later: seq<Arg> | four <= later
      ensures Eval(person, row, later)
              <==> row.kind == ALL || ((row.kind == USER || row.kind == INITIATOR) && row.principal == subject)
    {
      PersonDecides(all, user, initiator, subj, four, later, row, subject);
    }
    if |groups| > 0 {
      var kind := args.Append(Text(GROUP));
      var ps := AppendGroups(groups, args);
      c := Or(c, And(KindIs(kind), PrincipalIn(ps)));
      forall row: Row, later: seq<Arg> | args.values <= later
        ensures Eval(c, row, later) <==> ReadMatch(row, subject, groups) {
        OrDecides(person, kind, PrincipalIn(ps), args.values, later, row);
        ListsDecides(ps, groups, args.values, later, row);
        assert four <= later;
      }
    }
  }

  // The delivery query, with its own six leading arguments.
  method GateMatchClause(workflow: string, gate: string, subject: string, groups: seq<string>)
    returns (c: Clause, except: Clause, args: Args)
    ensures fresh(args)
    ensures Decides(c, args.values, row => GateMatch(row, subject, groups))
    ensures Decides(except, args.values, (row: Row) => row.principal == subject)
  {
    args := new Args([Text(workflow), Text(gate), Text(ALL), Text(USER), Text(subject), Text(GROUP)]);
    var inGroups := Never;
    if |groups| > 0 {
      var ps := AppendGroups(groups, args);
      inGroups := PrincipalIn(ps);
      forall row: Row, later: seq<Arg> | args.values <= later
        ensures Eval(inGroups, row, later) <==> row.principal in groups {
        ListsDecides(ps, groups, args.values, later, row);
      }
    }
    var person := Or(KindIs(3), And(KindIs(4), PrincipalIs(5)));
    c := Or(person, And(KindIs(6), inGroups));
    except := PrincipalIs(5);
    forall row: Row, later: seq<Arg> | args.values <= later
      ensures Eval(c, row, later) <==> GateMatch(row, subject, groups) {
      OrDecides(person, 6, inGroups, args.values, later, row);
      assert Eval(And(KindIs(4), PrincipalIs(5)), row, later)
             <==> Bound(later, 4, row.kind) && Bound(later, 5, row.principal);
      assert Eval(person, row, later)
             <==> Eval(KindIs(3), row, later) || Eval(And(KindIs(4), PrincipalIs(5)), row, later);
    }
  }

  /******* The queries *******/

  predicate Excluded(rows: set<Row>, subject: string) {
    exists row | row in rows :: row.kind == EXCEPT && row.principal == subject
  }

  predicate Admits(rows: set<Row>, caller: Caller) {
    (exists row | row in rows :: GateMatch(row, caller.subject, caller.groups)) && !Excluded(rows, caller.subject)
  }

  method AudienceMatches(rows: set<Row>, workflow: string, gate: string, caller: Caller) returns (matches: bool)
    ensures matches <==> Admits(rows, caller)
  {
    var c, except, args := GateMatchClause(workflow, gate, caller.subject, caller.groups);
    matches :=
      && (exists row | row in rows :: Eval(c, row, args.values))
      && !(exists row | row in rows :: row.kind == EXCEPT && Eval(except, row, args.values));
  }

  predicate InOrg(row: Row, org: string) {
    row.org == org || row.org == ""
  }

  // A row that lets the caller see: for everybody, for them as a user or as the
  // starter, or for one of their groups.
  ghost predicate Shows(row: Row, caller: Caller) {
    || row.kind == "all"
    || (row.kind == "user" && row.principal == caller.subject)
    || (row.kind == "initiator" && row.principal == caller.subject)
    || (row.kind == "group" && row.principal in caller.groups)
  }

  // Two clauses over one vector.
  method ReadAllowed(readers: set<Row>, gateRows: set<Row>, workflow: string, caller: Caller) returns (allowed: bool)
    ensures allowed <==>
            exists row | row in readers + gateRows :: (row.org == caller.org || row.org == "") && Shows(row, caller)
  {
    var args := new Args([Text(workflow), Text(caller.org)]);
    var readClause := PrincipalMatchClause(caller.subject, caller.groups, args);
    ghost var midway := args.values;
    var gateClause := PrincipalMatchClause(caller.subject, caller.groups, args);
    assert midway <= args.values;
    allowed :=
      || (exists row | row in readers :: InOrg(row, caller.org) && Eval(readClause, row, args.values))
      || (exists row | row in gateRows :: InOrg(row, caller.org) && Eval(gateClause, row, args.values));
    forall row: Row ensures Shows(row, caller) <==> ReadMatch(row, caller.subject, caller.groups) {
    }
  }

  // A gate's row with its audience, under its (workflow, name) key.
  datatype Gate = Gate(org: string, open: bool, expires: Option<nat>, audience: set<Row>)
  datatype GateKey = GateKey(workflow: string, name: string)

  predicate IsOpen(g: Gate, now: nat) {
    g.open && (g.expires.None? || g.expires.value > now)
  }

  // DeliverToGate would deliver.
  predicate Delivers(g: Gate, live: bool, now: nat, caller: Caller) {
    live && IsOpen(g, now) && Admits(g.audience, caller)
  }

  predicate InInbox(g: Gate, now: nat, caller: Caller) {
    && g.org == caller.org && IsOpen(g, now)
    && (exists row | row in g.audience :: ReadMatch(row, caller.subject, caller.groups))
    && !Excluded(g.audience, caller.subject)
  }

  // Open now in the caller's organisation, shown to them by a row and hidden by none.
  ghost predicate Listed(g: Gate, now: nat, caller: Caller) {
    && g.org == caller.org && g.open && (g.expires.Some? ==> g.expires.value > now)
    && (exists row | row in g.audience :: Shows(row, caller))
    && (forall row | row in g.audience && row.kind == "except" :: row.principal != caller.subject)
  }

  method ListOpenGatesFor(gates: map<GateKey, Gate>, now: nat, caller: Caller) returns (inbox: set<GateKey>)
    ensures forall k :: k in inbox <==> k in gates && InInbox(gates[k], now, caller)
    ensures forall k | k in gates :: k in inbox <==> Listed(gates[k], now, caller)
  {
    var args := new Args([Text(caller.org), Number(now)]);
    var c := PrincipalMatchClause(caller.subject, caller.groups, args);
    ghost var midway := args.values;
    var subj := args.Append(Text(caller.subject));
    assert midway <= args.values;
    inbox := set k | k in gates && gates[k].org == caller.org && IsOpen(gates[k], now)
                     && (exists row | row in gates[k].audience :: Eval(c, row, args.values))
                     && !(exists row | row in gates[k].audience ::
                            row.kind == EXCEPT && Eval(PrincipalIs(subj), row, args.values));
    forall row: Row ensures Shows(row, caller) <==> ReadMatch(row, caller.subject, caller.groups) {
    }
  }

  // Every gate a caller could deliver to in their own organisation is listed.
  lemma InboxIsComplete(g: Gate, live: bool, now: nat, caller: Caller)
    requires Delivers(g, live, now, caller) && g.org == caller.org
    ensures InInbox(g, now, caller)
  {
    var row :| row in g.audience && GateMatch(row, caller.subject, caller.groups);
    assert ReadMatch(row, caller.subject, caller.groups);
  }

  // A listed gate accepts the caller's delivery exactly when its workflow is live
  // and some row other than an initiator row matches;
  lemma ListedDeliversIff(g: Gate, live: bool, now: nat, caller: Caller)
    requires InInbox(g, now, caller)
    ensures Delivers(g, live, now, caller) <==>
            live && exists row | row in g.audience ::
              row.kind != INITIATOR && ReadMatch(row, caller.subject, caller.groups)
  {
    forall row: Row ensures GateMatch(row, caller.subject, caller.groups)
      <==> row.kind != INITIATOR && ReadMatch(row, caller.subject, caller.groups) {
    }
  }

  // in particular whenever the audience has no initiator row.
  lemma InboxIsSound(g: Gate, now: nat, caller: Caller)
    requires InInbox(g, now, caller) && forall row | row in g.audience :: row.kind != INITIATOR
    ensures Delivers(g, true, now, caller)
  {
    ListedDeliversIff(g, true, now, caller);
    var row :| row in g.audience && ReadMatch(row, caller.subject, caller.groups);
    assert row.kind != INITIATOR;
  }

  // A gate listed for its initiator alone rejects that initiator's delivery.
  lemma InitiatorSeesButCannotDeliver(now: nat, caller: Caller) returns (g: Gate)
    ensures InInbox(g, now, caller) && !Delivers(g, true, now, caller)
  {
    var row := Row(INITIATOR, caller.subject, caller.org);
    g := Gate(caller.org, true, None, {row});
    assert row in g.audience && ReadMatch(row, caller.subject, caller.groups);
  }
}
