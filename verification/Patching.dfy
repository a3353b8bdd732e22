/**
Patching a workflow while histories of the old code are still running.
Patch asks for the next step ID: a free ID is claimed by a marker and answers
true, a marker answers true, any other row answers false and takes no ID. The old
code may contain other patches.
*/
module Patching {
  import opened Base
  import opened Replay
  import opened ReplayProofs

  /******* The patched program *******/

  predicate Answers(e: Event, p: string) {
    (e.Patched? || e.PatchFailed?) && e.patch == p
  }

  // The index of the first answer to patch p in h.
  function Asked(h: seq<Event>, p: string): (a: Option<nat>)
    ensures a.Some? ==> a.value < |h| && Answers(h[a.value], p)
  {
    if h == [] then None
    else
      var a := Asked(h[..|h| - 1], p);
      if a.Some? then a else if Answers(h[|h| - 1], p) then Some(|h| - 1) else None
  }

  function DropAt(h: seq<Event>, i: nat): seq<Event>
    requires i < |h|
  {
    h[..i] + h[i + 1..]
  }

  // The old code with `if Patch(p) { revised } else { the rest of prior }` placed
  // where `at` holds. A refused marker goes to the revised code.
  function PatchedCall(prior: Program, at: seq<Event> -> bool, p: string, revised: Program, h: seq<Event>): Call {
    var a := Asked(h, p);
    if a.None? then if at(h) then AskPatch(p) else prior(h)
    else if h[a.value].Patched? && !h[a.value].taken then prior(DropAt(h, a.value))
    else revised(h)
  }

  function WithPatch(prior: Program, at: seq<Event> -> bool, p: string, revised: Program): Program {
    h => PatchedCall(prior, at, p, revised, h)
  }

  // p is a new patch: the old code does not ask it.
  ghost predicate NeverAsks(w: Program, p: string) {
    forall h :: w(h) != AskPatch(p)
  }

  // g is where the point is first reached.
  ghost predicate First(at: seq<Event> -> bool, g: seq<Event>) {
    at(g) && forall i | 0 <= i < |g| :: !at(g[..i])
  }

  // g is where the old code first stands at the patch point, on this table.
  ghost predicate Point(prior: Program, at: seq<Event> -> bool, log: Log, g: seq<Event>) {
    OnPath(prior, log, g) && First(at, g)
  }

  /******* Old histories as the patched program sees them *******/

  function Lift(g: seq<Event>, p: string, h: seq<Event>): seq<Event> {
    if |h| <= |g| then h else h[..|g|] + [Patched(p, false)] + h[|g|..]
  }

  ghost predicate NoAnswers(h: seq<Event>, p: string) {
    forall i | 0 <= i < |h| :: !Answers(h[i], p)
  }

  lemma OldHasNoAnswers(w: Program, log: Log, h: seq<Event>, p: string)
    requires NeverAsks(w, p) && OnPath(w, log, h)
    ensures NoAnswers(h, p)
  {
    forall i | 0 <= i < |h|
      ensures !Answers(h[i], p)
    {
      assert FollowsAt(w, log, h, i);
    }
  }

  lemma AskedNone(h: seq<Event>, p: string)
    requires NoAnswers(h, p)
    ensures Asked(h, p).None?
  {
    var a := Asked(h, p);
    assert forall i | 0 <= i < |h| :: !Answers(h[i], p);
  }

  lemma {:induction false} AskedAt(h: seq<Event>, i: nat, p: string)
    requires i < |h| && NoAnswers(h[..i], p) && Answers(h[i], p)
    ensures Asked(h, p) == Some(i)
    decreases |h|
  {
    if i == |h| - 1 {
      AskedNone(h[..i], p);
    } else {
      assert h[..|h| - 1][..i] == h[..i];
      AskedAt(h[..|h| - 1], i, p);
    }
  }

  lemma Assoc(x: seq<string>, y: seq<string>, z: seq<string>)
    ensures (x + y) + z == x + (y + z)
  {
  }

  lemma SplitLast(a: seq<Event>, b: seq<Event>)
    requires b != []
    ensures a + b == (a + b[..|b| - 1]) + [b[|b| - 1]]
    ensures b == b[..|b| - 1] + [b[|b| - 1]]
  {
  }

  lemma {:induction false} NamesConcat(a: seq<Event>, b: seq<Event>)
    ensures Names(a + b) == Names(a) + Names(b)
    decreases |b|
  {
    if b == [] {
      assert a + b == a;
    } else {
      var front, last := b[..|b| - 1], b[|b| - 1];
      SplitLast(a, b);
      NamesConcat(a, front);
      NamesAppend(a + front, last);
      NamesAppend(front, last);
      Assoc(Names(a), Names(front), Taken(last));
    }
  }

  lemma NamesDrop(a: seq<Event>, p: string, b: seq<Event>)
    ensures Names(a + [Patched(p, false)] + b) == Names(a + b)
  {
    NamesConcat(a + [Patched(p, false)], b);
    NamesAppend(a, Patched(p, false));
    NamesConcat(a, b);
  }

  lemma LiftNames(g: seq<Event>, p: string, h: seq<Event>)
    ensures Names(Lift(g, p, h)) == Names(h)
  {
    if |h| > |g| {
      NamesDrop(h[..|g|], p, h[|g|..]);
      SplitAt(h, |g|);
    }
  }

  lemma SplitAt(h: seq<Event>, n: nat)
    requires n <= |h|
    ensures h[..n] + h[n..] == h
  {
  }

  // Before the point, and after a false answer, the patched program calls what the old one calls.
  lemma CallsLikeOld(prior: Program, at: seq<Event> -> bool, p: string, revised: Program, g: seq<Event>, h: seq<Event>)
    requires NoAnswers(h, p) && (|h| <= |g| ==> !at(h))
    ensures WithPatch(prior, at, p, revised)(Lift(g, p, h)) == prior(h)
  {
    if |h| <= |g| {
      AskedNone(h, p);
    } else {
      var l := Lift(g, p, h);
      assert l[..|g|] == h[..|g|];
      AskedAt(l, |g|, p);
      assert DropAt(l, |g|) == h;
    }
  }

  ghost predicate KeepsOld(log: Log, g: seq<Event>, p: string) {
    |Names(g)| in log && log[|Names(g)|].name != p
  }

  lemma AfterAnswer(prior: Program, at: seq<Event> -> bool, p: string, revised: Program,
                    log: Log, g: seq<Event>, h: seq<Event>, i: nat)
    requires OnPath(prior, log, h) && NoAnswers(h, p) && g <= h && |g| < i <= |h|
    ensures var l := Lift(g, p, h);
            FollowsAt(WithPatch(prior, at, p, revised), log, l, i)
  {
    var l := Lift(g, p, h);
    var mid := h[|g|..i - 1];
    LiftPrefix(g, p, h, i);
    AskedAt(l[..i], |g|, p);
    NamesDrop(g, p, mid);
    assert FollowsAt(prior, log, h, i - 1);
  }

  lemma LiftPrefix(g: seq<Event>, p: string, h: seq<Event>, i: nat)
    requires g <= h && |g| < i <= |h|
    ensures var l := Lift(g, p, h);
            && i < |l| && l[..i] == g + [Patched(p, false)] + h[|g|..i - 1] && l[..i][..|g|] == g && l[i] == h[i - 1]
            && DropAt(l[..i], |g|) == h[..i - 1] == g + h[|g|..i - 1]
  {
  }

  // An old history is, event for event and ID for ID, a history of the patched
  // program, with one false answer at the point.
  lemma LiftOnPath(prior: Program, at: seq<Event> -> bool, p: string, revised: Program, log: Log, g: seq<Event>,
                   h: seq<Event>)
    requires NeverAsks(prior, p) && Point(prior, at, log, g) && KeepsOld(log, g, p)
    requires OnPath(prior, log, h)
    ensures OnPath(WithPatch(prior, at, p, revised), log, Lift(g, p, h))
  {
    var q, l := WithPatch(prior, at, p, revised), Lift(g, p, h);
    OldHasNoAnswers(prior, log, h, p);
    PathsAgree(prior, log, g, h);
    forall i | 0 <= i < |l|
      ensures FollowsAt(q, log, l, i)
    {
      if i < |g| {
        assert FollowsAt(prior, log, h, i);
        assert l[..i] == h[..i] == g[..i] && l[i] == h[i] && Lift(g, p, h[..i]) == h[..i];
        CallsLikeOld(prior, at, p, revised, g, h[..i]);
      } else if i == |g| {
        assert l[..i] == g;
        OldHasNoAnswers(prior, log, g, p);
        AskedNone(g, p);
      } else {
        AfterAnswer(prior, at, p, revised, log, g, h, i);
      }
    }
  }

  /******* Histories that went past the point *******/

  // The table of an old run that recorded a step at the point is a table of the
  // patched program, so everything proved of replay holds for patched runs on it.
  lemma OldTableStaysJustified(prior: Program, at: seq<Event> -> bool, p: string, revised: Program, log: Log,
                               g: seq<Event>)
    requires NeverAsks(prior, p) && Justified(prior, log) && Point(prior, at, log, g) && KeepsOld(log, g, p)
    ensures Justified(WithPatch(prior, at, p, revised), log)
  {
    var q := WithPatch(prior, at, p, revised);
    forall k: nat | k in log
      ensures RowJustified(q, log, k)
    {
      assert RowJustified(prior, log, k);
      var h :| Reaches(prior, log, k, log[k].name, h);
      LiftOnPath(prior, at, p, revised, log, g, h);
      LiftNames(g, p, h);
      assert Reaches(q, log, k, log[k].name, Lift(g, p, h));
    }
  }

  // Any old history past the point replays unchanged: every patched execution
  // walks along its lift, with the same IDs, and ends with the same result.
  lemma OldHistoryReplays(prior: Program, at: seq<Event> -> bool, p: string, revised: Program,
                          log: Log, g: seq<Event>, h: seq<Event>, acts: seq<Action>, e: nat)
    requires NeverAsks(prior, p) && Justified(prior, log) && Point(prior, at, log, g) && KeepsOld(log, g, p)
    requires OnPath(prior, log, h) && |h| > |g|
    requires Run(WithPatch(prior, at, p, revised), Initial(log), acts).Some?
    requires var s := Run(WithPatch(prior, at, p, revised), Initial(log), acts).value; Steady(s) && e in s.execs
    ensures var q := WithPatch(prior, at, p, revised);
            var s := Run(q, Initial(log), acts).value;
            && NamesMatch(s)
            && Comparable(Trunk(s.execs[e].history), Lift(g, p, h))
            && Names(Lift(g, p, h)) == Names(h)
            && q(Lift(g, p, h)) == prior(h)
  {
    var q := WithPatch(prior, at, p, revised);
    var s := Run(q, Initial(log), acts).value;
    OldTableStaysJustified(prior, at, p, revised, log, g);
    ReplayIsDeterministic(q, log, acts);
    RunsKeep(q, Initial(log), acts);
    LiftOnPath(prior, at, p, revised, log, g, h);
    PathGrows(q, log, s.log, Lift(g, p, h));
    assert ExecOk(q, s.log, s.execs[e]);
    PathsAgree(q, s.log, Trunk(s.execs[e].history), Lift(g, p, h));
    LiftNames(g, p, h);
    OldHasNoAnswers(prior, log, h, p);
    CallsLikeOld(prior, at, p, revised, g, h);
  }

  /******* Histories that end before the point *******/

  ghost predicate EndsBefore(log: Log, g: seq<Event>) {
    forall k | k in log :: k < |Names(g)|
  }

  // No row is at or past the point, reached or not: a new workflow's empty table,
  // any table on which the old code does not get there, and those that end there.
  ghost predicate Unpassed(prior: Program, at: seq<Event> -> bool, log: Log) {
    forall g | Point(prior, at, log, g) :: EndsBefore(log, g)
  }

  // No point in a proper prefix of h.
  ghost predicate NotPast(at: seq<Event> -> bool, h: seq<Event>) {
    forall i | 0 <= i < |h| :: !at(h[..i])
  }

  lemma {:induction false} NoneYet(prior: Program, at: seq<Event> -> bool, p: string, revised: Program, log: Log,
                                   h: seq<Event>)
    requires NeverAsks(prior, p) && OnPath(WithPatch(prior, at, p, revised), log, h) && NotPast(at, h)
    ensures NoAnswers(h, p)
    decreases |h|
  {
    if h != [] {
      var q, front := WithPatch(prior, at, p, revised), h[..|h| - 1];
      PathPrefix(q, log, h, |h| - 1);
      forall i | 0 <= i < |front| ensures !at(front[..i]) {
        assert front[..i] == h[..i];
      }
      NoneYet(prior, at, p, revised, log, front);
      AskedNone(front, p);
      assert FollowsAt(q, log, h, |h| - 1) && q(front) == prior(front);
    }
  }

  // Up to the point the patched program and the old one have the same histories.
  lemma SameBeforePoint(prior: Program, at: seq<Event> -> bool, p: string, revised: Program, log: Log, h: seq<Event>)
    requires NeverAsks(prior, p) && NotPast(at, h)
    ensures OnPath(prior, log, h) <==> OnPath(WithPatch(prior, at, p, revised), log, h)
    ensures OnPath(prior, log, h) ==> NoAnswers(h, p)
  {
    var q := WithPatch(prior, at, p, revised);
    if OnPath(prior, log, h) {
      OldHasNoAnswers(prior, log, h, p);
    } else if OnPath(q, log, h) {
      NoneYet(prior, at, p, revised, log, h);
    }
    if NoAnswers(h, p) {
      forall i | 0 <= i < |h| ensures FollowsAt(prior, log, h, i) <==> FollowsAt(q, log, h, i) {
        assert NoAnswers(h[..i], p) && !at(h[..i]);
        AskedNone(h[..i], p);
        assert q(h[..i]) == prior(h[..i]);
      }
    }
  }

  // Where the patched program first stands at the point, it asks.
  lemma AsksAtPoint(prior: Program, at: seq<Event> -> bool, p: string, revised: Program, log: Log, g: seq<Event>)
    requires NeverAsks(prior, p) && Point(WithPatch(prior, at, p, revised), at, log, g)
    ensures WithPatch(prior, at, p, revised)(g) == AskPatch(p)
    ensures Point(prior, at, log, g) && NoAnswers(g, p)
  {
    SameBeforePoint(prior, at, p, revised, log, g);
    AskedNone(g, p);
  }

  lemma FirstPoint(at: seq<Event> -> bool, h: seq<Event>) returns (g: seq<Event>)
    requires !NotPast(at, h)
    ensures First(at, g) && g <= h && |g| < |h|
  {
    var i := 0;
    while !at(h[..i])
      invariant 0 <= i < |h| && forall j | 0 <= j < i :: !at(h[..j])
      decreases |h| - i
    {
      i := i + 1;
    }
    g := h[..i];
    forall j | 0 <= j < |g| ensures !at(g[..j]) {
      assert g[..j] == h[..j];
    }
  }

  lemma ShortTableStaysJustified(prior: Program, at: seq<Event> -> bool, p: string, revised: Program, log: Log)
    requires NeverAsks(prior, p) && Justified(prior, log) && Unpassed(prior, at, log)
    ensures Justified(WithPatch(prior, at, p, revised), log)
  {
    var q := WithPatch(prior, at, p, revised);
    forall k: nat | k in log
      ensures RowJustified(q, log, k)
    {
      assert RowJustified(prior, log, k);
      var h :| Reaches(prior, log, k, log[k].name, h);
      var g := h;
      if !NotPast(at, h) {
        g := FirstPoint(at, h);
        assert g == h[..|g|];
        PathPrefix(prior, log, h, |g|);
        assert Point(prior, at, log, g);
        NamesGrow(g, h);
      }
      SameBeforePoint(prior, at, p, revised, log, g);
      assert Reaches(q, log, k, log[k].name, g);
    }
  }

  // The row at the point, once there is one, is the marker.
  ghost predicate MarkerOnly(log: Log, g: seq<Event>, p: string) {
    |Names(g)| in log ==> log[|Names(g)|].name == p
  }

  // A history that got past the point took the new branch there.
  ghost predicate TookNew(h: seq<Event>, g: seq<Event>, p: string) {
    g <= h && |h| > |g| ==> h[|g|] == Patched(p, true)
  }

  // The event after a question is its row's answer.
  lemma AnswerAtPoint(q: Program, log: Log, h: seq<Event>, g: seq<Event>, p: string)
    requires OnPath(q, log, h) && g <= h && |h| > |g| && q(g) == AskPatch(p)
    ensures |Names(g)| in log && h[|g|] == Patched(p, log[|Names(g)|].name == p)
  {
    assert h[..|g|] == g;
    assert FollowsAt(q, log, h, |g|);
  }

  // A row that was there before the point was reached on this table: the point was
  // reached already.
  lemma RowMeansReached(q: Program, log: Log, log': Log, g: seq<Event>)
    requires Justified(q, log) && Extends(log, log') && OnPath(q, log', g) && |Names(g)| in log
    ensures OnPath(q, log, g)
  {
    var k := |Names(g)|;
    assert RowJustified(q, log, k);
    var h :| Reaches(q, log, k, log[k].name, h);
    PathGrows(q, log, log', h);
    PathsAgree(q, log', g, h);
    if h <= g {
      NamesGrow(h, g);
    }
    PathPrefix(q, log, h, |g|);
    assert h[..|g|] == g;
  }

  // Whoever inserts the point's row stands at the point and inserts the marker. An
  // earlier patch that took no ID had a row to read, so it cannot be the one.
  lemma InserterAtPoint(q: Program, log: Log, log': Log, hx: seq<Event>, g: seq<Event>, p: string)
    requires Extends(log, log') && OnPath(q, log, hx) && OnPath(q, log', g) && q(g) == AskPatch(p)
    requires |Names(g)| !in log && |Names(g)| in log'
    ensures |Names(hx)| <= |Names(g)|
    ensures |Names(hx)| == |Names(g)| && q(hx).AskPatch? && log'[|Names(g)|].name == q(hx).patch ==> hx == g
  {
    PathGrows(q, log, log', hx);
    PathsAgree(q, log', hx, g);
    if |hx| > |g| {
      AnswerAtPoint(q, log, hx, g, p);
    } else {
      NamesGrow(hx, g);
      if |hx| < |g| && q(hx).AskPatch? && |Names(hx)| in log' && log'[|Names(hx)|].name == q(hx).patch {
        EarlierAskTakesId(q, log', hx, g);
      }
    }
  }

  // An earlier patch whose marker is there has taken an ID.
  lemma EarlierAskTakesId(q: Program, log: Log, hx: seq<Event>, g: seq<Event>)
    requires OnPath(q, log, g) && hx <= g && |hx| < |g| && q(hx).AskPatch?
    requires |Names(hx)| in log && log[|Names(hx)|].name == q(hx).patch
    ensures |Names(hx)| < |Names(g)|
  {
    AnswerAtPoint(q, log, g, hx, q(hx).patch);
    TrueAnswerTakesId(hx, g, q(hx).patch);
  }

  lemma TrueAnswerTakesId(hx: seq<Event>, g: seq<Event>, p: string)
    requires hx <= g && |hx| < |g| && g[|hx|] == Patched(p, true)
    ensures |Names(hx)| < |Names(g)|
  {
    MarkerAppended(hx, p);
    LonghandPrefix(hx, g);
    NoFewerNames(hx + [g[|hx|]], g);
  }

  lemma LonghandPrefix(h: seq<Event>, g: seq<Event>)
    requires h <= g && |h| < |g|
    ensures h + [g[|h|]] <= g
  {
  }

  lemma MarkerAppended(h: seq<Event>, p: string)
    ensures |Names(h + [Patched(p, true)])| == |Names(h)| + 1
  {
    NamesAppend(h, Patched(p, true));
  }

  lemma NoFewerNames(h: seq<Event>, g: seq<Event>)
    requires h <= g
    ensures |Names(h)| <= |Names(g)|
  {
    NamesGrow(h, g);
  }

  // A new row is a record, or the marker of a Patch that has looked.
  lemma StepInserts(q: Program, s: State, a: Action, k: nat)
    requires Step(q, s, a).Some? && k !in s.log && k in Step(q, s, a).value.log
    ensures a.e in s.execs
    ensures var x := s.execs[a.e];
            || (a.Record? && k < |x.flights|)
            || (&& q(x.history).AskPatch? && x.asking == Looked && k == |Names(x.history)|
                && Step(q, s, a).value.log[k].name == q(x.history).patch)
  {
  }

  // It is a step its writer has issued, or the marker of the patch it asks.
  lemma WhoInserts(q: Program, s: State, a: Action, k: nat)
    requires Inv(q, s) && Steady(s) && Step(q, s, a).Some? && k !in s.log && k in Step(q, s, a).value.log
    ensures a.e in s.execs
    ensures var h := Trunk(s.execs[a.e].history);
            && OnPath(q, s.log, h)
            && (k < |Names(h)| || (k == |Names(h)| && q(h).AskPatch? && Step(q, s, a).value.log[k].name == q(h).patch))
  {
    StepInserts(q, s, a, k);
    assert ExecOk(q, s.log, s.execs[a.e]) && SteadyExec(s.execs[a.e]);
  }

  lemma MarkerStep(prior: Program, at: seq<Event> -> bool, p: string, revised: Program, s: State, a: Action,
                   g: seq<Event>)
    requires var q := WithPatch(prior, at, p, revised);
             && NeverAsks(prior, p) && Inv(q, s) && Steady(s)
             && Step(q, s, a).Some? && Extends(s.log, Step(q, s, a).value.log)
             && Point(q, at, Step(q, s, a).value.log, g)
             && (Point(q, at, s.log, g) ==> MarkerOnly(s.log, g, p))
    ensures MarkerOnly(Step(WithPatch(prior, at, p, revised), s, a).value.log, g, p)
  {
    var q := WithPatch(prior, at, p, revised);
    var log' := Step(q, s, a).value.log;
    AsksAtPoint(prior, at, p, revised, log', g);
    if |Names(g)| in s.log {
      RowMeansReached(q, s.log, log', g);
    } else if |Names(g)| in log' {
      WhoInserts(q, s, a, |Names(g)|);
      InserterAtPoint(q, s.log, log', Trunk(s.execs[a.e].history), g, p);
    }
  }

  lemma {:induction false} MarkerHolds(prior: Program, at: seq<Event> -> bool, p: string, revised: Program,
                                       log: Log, acts: seq<Action>, g: seq<Event>)
    requires NeverAsks(prior, p) && Justified(prior, log) && Unpassed(prior, at, log)
    requires Run(WithPatch(prior, at, p, revised), Initial(log), acts).Some?
    requires var s := Run(WithPatch(prior, at, p, revised), Initial(log), acts).value;
             Steady(s) && Point(WithPatch(prior, at, p, revised), at, s.log, g)
    ensures MarkerOnly(Run(WithPatch(prior, at, p, revised), Initial(log), acts).value.log, g, p)
    decreases |acts|
  {
    var q := WithPatch(prior, at, p, revised);
    if acts == [] {
      AsksAtPoint(prior, at, p, revised, log, g);
    } else {
      var before, a := acts[..|acts| - 1], acts[|acts| - 1];
      var s := Run(q, Initial(log), before).value;
      StepSteady(q, s, a);
      ShortTableStaysJustified(prior, at, p, revised, log);
      RunsKeep(q, Initial(log), before);
      StepExtends(q, s, a);
      if Point(q, at, s.log, g) {
        MarkerHolds(prior, at, p, revised, log, before, g);
      }
      MarkerStep(prior, at, p, revised, s, a, g);
    }
  }

  // A history that ends before the point, wherever it ends, takes the new branch
  // when it gets there, in this execution and in every later or concurrent replay.
  lemma NewBranchForGood(prior: Program, at: seq<Event> -> bool, p: string, revised: Program,
                         log: Log, acts: seq<Action>, e: nat, g: seq<Event>)
    requires NeverAsks(prior, p) && Justified(prior, log) && Unpassed(prior, at, log) && First(at, g)
    requires Run(WithPatch(prior, at, p, revised), Initial(log), acts).Some?
    requires var s := Run(WithPatch(prior, at, p, revised), Initial(log), acts).value; Steady(s) && e in s.execs
    ensures var s := Run(WithPatch(prior, at, p, revised), Initial(log), acts).value;
            NamesMatch(s) && TookNew(Trunk(s.execs[e].history), g, p)
  {
    var q := WithPatch(prior, at, p, revised);
    var s := Run(q, Initial(log), acts).value;
    var h := Trunk(s.execs[e].history);
    ShortTableStaysJustified(prior, at, p, revised, log);
    ReplayIsDeterministic(q, log, acts);
    RunsKeep(q, Initial(log), acts);
    assert ExecOk(q, s.log, s.execs[e]);
    if g <= h && |h| > |g| {
      PathPrefix(q, s.log, h, |g|);
      assert h[..|g|] == g;
      AsksAtPoint(prior, at, p, revised, s.log, g);
      MarkerHolds(prior, at, p, revised, log, acts, g);
      AnswerAtPoint(q, s.log, h, g, p);
    }
  }

  /******* When patching is safe *******/

  // Whatever the new code is, no patched execution on this table ever meets a
  // step recorded under another name.
  ghost predicate SafeToPatch(prior: Program, at: seq<Event> -> bool, p: string, log: Log) {
    forall revised: Program, acts: seq<Action> :: RunMatches(WithPatch(prior, at, p, revised), log, acts)
  }

  ghost predicate RunMatches(w: Program, log: Log, acts: seq<Action>) {
    var r := Run(w, Initial(log), acts);
    r.Some? && Steady(r.value) ==> NamesMatch(r.value)
  }

  // n more steps, all named q, by execution 0, alone.
  lemma {:induction false} IssueMany(w: Program, s: State, q: string, n: nat) returns (acts: seq<Action>, s': State)
    requires IsLive(s, 0) && s.execs.Keys == {0} && |s.execs[0].flights| == |Names(s.execs[0].history)|
    requires Unfailed(s.execs[0].history)
    requires forall h | s.execs[0].history <= h :: w(h) == Issue(q)
    ensures Run(w, s, acts) == Some(s')
    ensures s'.log == s.log && IsLive(s', 0) && s'.execs.Keys == {0}
    ensures s.execs[0].history <= s'.execs[0].history && Unfailed(s'.execs[0].history)
    ensures |s'.execs[0].flights| == |Names(s'.execs[0].history)| == |Names(s.execs[0].history)| + n
    ensures forall k | |Names(s.execs[0].history)| <= k < |Names(s'.execs[0].history)| ::
              Names(s'.execs[0].history)[k] == q && s'.execs[0].flights[k] == Unchecked
  {
    acts, s' := [], s;
    if n > 0 {
      acts, s' := IssueMany(w, s, q, n - 1);
      acts, s' := IssueOne(w, s, acts, s', q);
    }
  }

  lemma IssueOne(w: Program, s0: State, acts: seq<Action>, s: State, q: string) returns (more: seq<Action>, s': State)
    requires Run(w, s0, acts) == Some(s) && IsLive(s, 0) && s.execs.Keys == {0} && w(s.execs[0].history) == Issue(q)
    ensures Run(w, s0, more) == Some(s') && s'.log == s.log && IsLive(s', 0) && s'.execs.Keys == {0}
    ensures s'.execs[0].history == s.execs[0].history + [Issued(q)]
    ensures s'.execs[0].flights == s.execs[0].flights + [Unchecked]
    ensures Names(s'.execs[0].history) == Names(s.execs[0].history) + [q]
  {
    NamesAppend(s.execs[0].history, Issued(q));
    more, s' := Then(w, s0, acts, s, IssueStep(0));
  }

  lemma HitsRow(w: Program, s: State, q: string, j: nat) returns (acts: seq<Action>)
    requires IsLive(s, 0) && s.execs.Keys == {0} && |s.execs[0].flights| == |Names(s.execs[0].history)| <= j
    requires Unfailed(s.execs[0].history)
    requires forall h | s.execs[0].history <= h :: w(h) == Issue(q)
    requires j in s.log && s.log[j].name != q
    ensures Run(w, s, acts).Some? && Steady(Run(w, s, acts).value) && !NamesMatch(Run(w, s, acts).value)
  {
    var acts0, s0 := IssueMany(w, s, q, j + 1 - |Names(s.execs[0].history)|);
    RunOne(w, s, acts0, Check(0, j));
    acts := acts0 + [Check(0, j)];
    assert Step(w, s0, Check(0, j)).value.execs[0].status == Unexpected;
  }

  lemma ClaimPoint(w: Program, log: Log, s: State, g: seq<Event>, p: string) returns (acts: seq<Action>, s': State)
    requires StandsAt(s, log, g) && w(g) == AskPatch(p) && |Names(g)| !in log
    ensures Run(w, s, acts) == Some(s')
    ensures IsLive(s', 0) && s'.execs.Keys == {0} && s'.execs[0].history == g + [Patched(p, true)]
    ensures |s'.execs[0].flights| == |Names(s'.execs[0].history)| == |Names(g)| + 1
    ensures forall k | k in log :: k in s'.log && s'.log[k] == log[k]
  {
    assert Run(w, s, []) == Some(s);
    acts, s' := Then(w, s, [], s, ProbePatch(0));
    acts, s' := Then(w, s, acts, s', InsertPatch(0, 0, true));
    NamesAppend(g, Patched(p, true));
  }

  // A step recorded beyond a free point: new code that names that ID otherwise
  // claims the point and then runs into the row.
  lemma GapIsUnsafe(prior: Program, at: seq<Event> -> bool, p: string, log: Log, g: seq<Event>, j: nat)
    returns (revised: Program, acts: seq<Action>)
    requires NeverAsks(prior, p) && Justified(prior, log) && Point(prior, at, log, g)
    requires |Names(g)| !in log && j in log && j > |Names(g)|
    ensures !RunMatches(WithPatch(prior, at, p, revised), log, acts)
  {
    var q := log[j].name + "'";
    revised := h => Issue(q);
    var w := WithPatch(prior, at, p, revised);
    SameBeforePoint(prior, at, p, revised, log, g);
    AsksAtPoint(prior, at, p, revised, log, g);
    PathUnfailed(prior, log, g);
    forall k | k in log && k < |Names(g)|
      ensures log[k].name == Names(g)[k]
    {
      NameAgrees(prior, log, g, k);
    }
    var acts0 := CanReplay(w, log, g);
    var acts1, s1 := ClaimPoint(w, log, Run(w, Initial(log), acts0).value, g, p);
    TakesRevised(prior, at, p, revised, log, g);
    var acts2 := HitsRow(w, s1, q, j);
    RunConcat(w, Initial(log), acts0, acts1);
    RunConcat(w, Initial(log), acts0 + acts1, acts2);
    acts := acts0 + acts1 + acts2;
  }

  lemma TakesRevised(prior: Program, at: seq<Event> -> bool, p: string, revised: Program, log: Log, g: seq<Event>)
    requires NeverAsks(prior, p) && OnPath(prior, log, g)
    ensures forall h | g + [Patched(p, true)] <= h :: WithPatch(prior, at, p, revised)(h) == revised(h)
  {
    OldHasNoAnswers(prior, log, g, p);
    forall h | g + [Patched(p, true)] <= h
      ensures WithPatch(prior, at, p, revised)(h) == revised(h)
    {
      assert h[..|g|] == g && h[|g|] == Patched(p, true);
      AskedAt(h, |g|, p);
    }
  }

  // The point's own ID is recorded, or nothing from it on is.
  ghost predicate NoGap(log: Log, g: seq<Event>) {
    |Names(g)| in log || EndsBefore(log, g)
  }

  // No gap at the point, if the table gets there.
  ghost predicate NoGaps(prior: Program, at: seq<Event> -> bool, log: Log) {
    forall g | Point(prior, at, log, g) :: NoGap(log, g)
  }

  lemma NoGapsMeansSafe(prior: Program, at: seq<Event> -> bool, p: string, log: Log)
    requires NeverAsks(prior, p) && Justified(prior, log)
    requires forall k | k in log :: log[k].name != p
    requires NoGaps(prior, at, log)
    ensures SafeToPatch(prior, at, p, log)
  {
    forall revised: Program, acts: seq<Action>
      ensures RunMatches(WithPatch(prior, at, p, revised), log, acts)
    {
      if g :| Point(prior, at, log, g) && |Names(g)| in log {
        OldTableStaysJustified(prior, at, p, revised, log, g);
      } else {
        ShortTableStaysJustified(prior, at, p, revised, log);
      }
      if Run(WithPatch(prior, at, p, revised), Initial(log), acts).Some? {
        ReplayIsDeterministic(WithPatch(prior, at, p, revised), log, acts);
      }
    }
  }

  lemma GapRow(log: Log, g: seq<Event>) returns (j: nat)
    requires !NoGap(log, g)
    ensures |Names(g)| !in log && j in log && j > |Names(g)|
  {
    j :| j in log && !(j < |Names(g)|);
  }

  lemma Witnesses(prior: Program, at: seq<Event> -> bool, p: string, log: Log, revised: Program, acts: seq<Action>)
    requires !RunMatches(WithPatch(prior, at, p, revised), log, acts)
    ensures !SafeToPatch(prior, at, p, log)
  {
  }

  lemma GapMeansUnsafe(prior: Program, at: seq<Event> -> bool, p: string, log: Log, g: seq<Event>)
    requires NeverAsks(prior, p) && Justified(prior, log) && Point(prior, at, log, g)
    requires !NoGap(log, g)
    ensures !SafeToPatch(prior, at, p, log)
  {
    var j := GapRow(log, g);
    var revised, acts := GapIsUnsafe(prior, at, p, log, g, j);
    Witnesses(prior, at, p, log, revised, acts);
  }

  // Patching a running history is safe exactly when it has no gap at the point; a
  // history that has not got there has none. A Recv or GetEvent still waiting at
  // the point leaves one: it has recorded its timeout at the next ID, and nothing
  // yet at its own.
  lemma PatchingIsSafeIff(prior: Program, at: seq<Event> -> bool, p: string, log: Log)
    requires NeverAsks(prior, p) && Justified(prior, log)
    requires forall k | k in log :: log[k].name != p
    ensures SafeToPatch(prior, at, p, log) <==> NoGaps(prior, at, log)
  {
    if NoGaps(prior, at, log) {
      NoGapsMeansSafe(prior, at, p, log);
    } else {
      var g :| Point(prior, at, log, g) && !NoGap(log, g);
      GapMeansUnsafe(prior, at, p, log, g);
    }
  }

  // Such a gap arises in ordinary runs: an execution that has issued a two-ID
  // call at the point and recorded only its second ID.
  lemma WaitingCallLeavesGap(prior: Program, at: seq<Event> -> bool, p: string, log: Log, g: seq<Event>, call: string,
                             timeout: string)
    returns (acts: seq<Action>)
    requires NeverAsks(prior, p) && Justified(prior, log) && Point(prior, at, log, g) && EndsBefore(log, g)
    requires prior(g) == Issue(call) && prior(g + [Issued(call)]) == Issue(timeout)
    ensures Run(prior, Initial(log), acts).Some? && Steady(Run(prior, Initial(log), acts).value)
    ensures !SafeToPatch(prior, at, p, Run(prior, Initial(log), acts).value.log)
  {
    var acts1, s1 := IssuedAtPoint(prior, log, g, call);
    NamesAppend(g, Issued(call));
    PathUnfailed(prior, log, g);
    var acts2 := RecordSecond(prior, s1, g + [Issued(call)], timeout);
    RunConcat(prior, Initial(log), acts1, acts2);
    acts := acts1 + acts2;
    BeyondIsGap(log, Run(prior, s1, acts2).value.log, g);
    GapOpened(prior, at, p, log, acts, g);
  }

  // Execution 0 has issued the call at the point.
  lemma IssuedAtPoint(w: Program, log: Log, g: seq<Event>, call: string) returns (acts: seq<Action>, s: State)
    requires Justified(w, log) && OnPath(w, log, g) && w(g) == Issue(call)
    ensures Run(w, Initial(log), acts) == Some(s) && StandsAt(s, log, g + [Issued(call)])
  {
    forall k | k in log && k < |Names(g)|
      ensures log[k].name == Names(g)[k]
    {
      NameAgrees(w, log, g, k);
    }
    var acts0 := CanReplay(w, log, g);
    var s0 := Run(w, Initial(log), acts0).value;
    var acts1 := ReplayIssue(w, log, s0, g, call);
    RunConcat(w, Initial(log), acts0, acts1);
    acts, s := acts0 + acts1, Run(w, s0, acts1).value;
  }

  lemma BeyondIsGap(log: Log, log': Log, g: seq<Event>)
    requires EndsBefore(log, g) && log'.Keys == log.Keys + {|Names(g)| + 1}
    ensures !NoGap(log', g)
  {
    assert |Names(g)| + 1 in log';
  }

  lemma GapOpened(prior: Program, at: seq<Event> -> bool, p: string, log: Log, acts: seq<Action>, g: seq<Event>)
    requires NeverAsks(prior, p) && Justified(prior, log) && Point(prior, at, log, g)
    requires Run(prior, Initial(log), acts).Some? && Steady(Run(prior, Initial(log), acts).value)
    requires !NoGap(Run(prior, Initial(log), acts).value.log, g)
    ensures !SafeToPatch(prior, at, p, Run(prior, Initial(log), acts).value.log)
  {
    var s := Run(prior, Initial(log), acts).value;
    ReplayIsDeterministic(prior, log, acts);
    PathGrows(prior, log, s.log, g);
    GapMeansUnsafe(prior, at, p, s.log, g);
  }

  lemma RecordSecond(w: Program, s: State, h: seq<Event>, name: string) returns (acts: seq<Action>)
    requires StandsAt(s, s.log, h) && w(h) == Issue(name) && |Names(h)| !in s.log && Unfailed(h)
    ensures Run(w, s, acts).Some? && Steady(Run(w, s, acts).value)
    ensures Run(w, s, acts).value.log.Keys == s.log.Keys + {|Names(h)|}
  {
    var k, s' := |Names(h)|, s;
    NamesAppend(h, Issued(name));
    assert Run(w, s, []) == Some(s);
    acts, s' := Then(w, s, [], s', IssueStep(0));
    acts, s' := RecordUnchecked(w, s, acts, s', k);
  }

  // Execution 0 checks step k, finds nothing, runs it and records it.
  lemma RecordUnchecked(w: Program, s0: State, acts: seq<Action>, s: State, k: nat)
    returns (more: seq<Action>, s': State)
    requires Run(w, s0, acts) == Some(s) && IsLive(s, 0) && s.execs.Keys == {0} && k !in s.log
    requires k < |s.execs[0].flights| && k < |Names(s.execs[0].history)| && s.execs[0].flights[k] == Unchecked
    ensures Run(w, s0, more) == Some(s') && s'.log.Keys == s.log.Keys + {k}
    ensures s'.execs.Keys == {0} && s'.execs[0].history == s.execs[0].history
  {
    more, s' := Then(w, s0, acts, s, Check(0, k));
    assert IsLive(s', 0) && s'.log == s.log && s'.execs[0] == s.execs[0].(flights := s.execs[0].flights[k := MustRun]);
    more, s' := Then(w, s0, more, s', RunBody(0, k, Output(""), 0));
    assert IsLive(s', 0) && s'.log == s.log && s'.execs[0].flights[k].Ran?;
    more, s' := Then(w, s0, more, s', Record(0, k, true));
  }

  /******* Removing a patch *******/

  // DeprecatePatch only reads: it takes the ID exactly when the marker is there.
  predicate DeprecateTakes(log: Log, h: seq<Event>, p: string) {
    |Names(h)| in log && log[|Names(h)|].name == p
  }

  // What the next call returns when Patch has been replaced by DeprecatePatch, and
  // the new code follows.
  function DeprecatedNext(prior: Program, at: seq<Event> -> bool, p: string, revised: Program,
                          log: Log, h: seq<Event>): Option<Event> {
    if Asked(h, p).Some? then NextEvent(revised, log, h)
    else if at(h) then Some(Patched(p, DeprecateTakes(log, h, p)))
    else NextEvent(prior, log, h)
  }

  function EvaluateDeprecated(prior: Program, at: seq<Event> -> bool, p: string, revised: Program,
                              log: Log, n: nat): seq<Event> {
    if n == 0 then []
    else
      var h := EvaluateDeprecated(prior, at, p, revised, log, n - 1);
      match DeprecatedNext(prior, at, p, revised, log, h)
      case Some(e) => h + [e]
      case None => h
  }

  lemma {:induction false} EvaluateOnPath(w: Program, log: Log, n: nat)
    ensures OnPath(w, log, Evaluate(w, log, n))
  {
    if n > 0 {
      EvaluateOnPath(w, log, n - 1);
      var h := Evaluate(w, log, n - 1);
      match NextEvent(w, log, h)
      case Some(e) => PathStep(w, log, h, e);
      case None =>
    }
  }

  lemma SameNext(prior: Program, at: seq<Event> -> bool, p: string, revised: Program, log: Log, g: seq<Event>,
                 h: seq<Event>)
    requires NeverAsks(prior, p) && Point(prior, at, log, g) && DeprecateTakes(log, g, p)
    requires OnPath(WithPatch(prior, at, p, revised), log, h)
    ensures DeprecatedNext(prior, at, p, revised, log, h) == NextEvent(WithPatch(prior, at, p, revised), log, h)
  {
    var q := WithPatch(prior, at, p, revised);
    SameBeforePoint(prior, at, p, revised, log, g);
    AsksAtPoint(prior, at, p, revised, log, g);
    PathsAgree(q, log, g, h);
    if |h| > |g| {
      AnswerAtPoint(q, log, h, g, p);
      assert h[..|g|] == g;
      AskedAt(h, |g|, p);
      assert q(h) == revised(h);
    } else {
      assert NoAnswers(h, p);
      AskedNone(h, p);
      assert h == g[..|h|];
      if h != g {
        assert !at(g[..|h|]) && q(h) == prior(h);
      }
    }
  }

  // Every marked history replays with the same events and IDs after the swap.
  lemma {:induction false} DeprecateReplaysMarked(prior: Program, at: seq<Event> -> bool, p: string, revised: Program,
                                                  log: Log, g: seq<Event>, n: nat)
    requires NeverAsks(prior, p) && Point(prior, at, log, g) && DeprecateTakes(log, g, p)
    ensures EvaluateDeprecated(prior, at, p, revised, log, n) == Evaluate(WithPatch(prior, at, p, revised), log, n)
    decreases n
  {
    if n > 0 {
      var q := WithPatch(prior, at, p, revised);
      DeprecateReplaysMarked(prior, at, p, revised, log, g, n - 1);
      EvaluateOnPath(q, log, n - 1);
      SameNext(prior, at, p, revised, log, g, Evaluate(q, log, n - 1));
      SameEvaluation(prior, at, p, revised, q, log, n);
    }
  }

  lemma SameEvaluation(prior: Program, at: seq<Event> -> bool, p: string, revised: Program, q: Program, log: Log,
                       n: nat)
    requires n > 0 && EvaluateDeprecated(prior, at, p, revised, log, n - 1) == Evaluate(q, log, n - 1)
    requires var h := Evaluate(q, log, n - 1);
             DeprecatedNext(prior, at, p, revised, log, h) == NextEvent(q, log, h)
    ensures EvaluateDeprecated(prior, at, p, revised, log, n) == Evaluate(q, log, n)
  {
  }

  // And so do the runs that go on writing: from a marked table, wherever any
  // execution stands at the patch call in any run, the row is the marker. Patch
  // never inserts there, and DeprecatePatch takes the same ID.
  lemma DeprecateTakesWherePatchDoes(prior: Program, at: seq<Event> -> bool, p: string, revised: Program,
                                     log: Log, g: seq<Event>, acts: seq<Action>, e: nat)
    requires var q := WithPatch(prior, at, p, revised);
             NeverAsks(prior, p) && Justified(q, log) && Point(q, at, log, g) && DeprecateTakes(log, g, p)
    requires Run(WithPatch(prior, at, p, revised), Initial(log), acts).Some?
    requires var s := Run(WithPatch(prior, at, p, revised), Initial(log), acts).value;
             Steady(s) && e in s.execs && Asked(Trunk(s.execs[e].history), p).None? && at(Trunk(s.execs[e].history))
    ensures var s := Run(WithPatch(prior, at, p, revised), Initial(log), acts).value;
            DeprecateTakes(s.log, Trunk(s.execs[e].history), p) && Trunk(s.execs[e].history) == g
  {
    var q := WithPatch(prior, at, p, revised);
    var s := Run(q, Initial(log), acts).value;
    RunsKeep(q, Initial(log), acts);
    RunsExtend(q, Initial(log), acts);
    AsksAtPoint(prior, at, p, revised, log, g);
    PathGrows(q, log, s.log, g);
    assert ExecOk(q, s.log, s.execs[e]);
    UnansweredAtPoint(q, at, p, s.log, g, Trunk(s.execs[e].history));
  }

  // Who stands at the point unanswered stands where it is first reached.
  lemma UnansweredAtPoint(q: Program, at: seq<Event> -> bool, p: string, log: Log, g: seq<Event>, h: seq<Event>)
    requires Point(q, at, log, g) && q(g) == AskPatch(p) && NoAnswers(g, p)
    requires OnPath(q, log, h) && at(h) && Asked(h, p).None?
    ensures h == g
  {
    PathsAgree(q, log, g, h);
    if |h| > |g| {
      AnswerAtPoint(q, log, h, g, p);
      assert h[..|g|] == g;
      AskedAt(h, |g|, p);
    } else {
      assert h == g[..|h|];
    }
  }
}
