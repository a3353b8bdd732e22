/**
One execution in process: the step counter, the step table calls and the
workflow loop, updated in place as the source does. Steps started by Go are run
where they are issued, one of the schedules the replay machine allows.
*/
module Executor {
  import opened Base
  import opened Replay
  import opened ReplayProofs

  class WorkflowState {
    var stepID: int

    constructor ()
      ensures stepID == -1
    {
      stepID := -1;
    }

    method NextStepID() returns (id: int)
      modifies this
      ensures stepID == old(stepID) + 1 && id == stepID
    {
      stepID := stepID + 1;
      id := stepID;
    }
  }

  datatype Checked = Missing | Recorded(outcome: Outcome) | Cancelled | OtherStep
  datatype Stored = Inserted | SameWrite | Conflict | OtherName
  datatype PatchResult = Answered(taken: bool) | Refused
  datatype StepResult = Returned(outcome: Outcome) | Interrupted | Unrecorded | Diverged

  // What befalls a step after its body: nothing, the workflow is found cancelled,
  // its result cannot be encoded, or the record fails for good before it lands.
  datatype Mishap = NoMishap | CancelledMeanwhile | NotEncoded | NotStored

  class SystemDB {
    var log: Log
    var cancelled: bool

    // CheckOperationExecution: a cancelled workflow first, then the row, then its name.
    method CheckOperationExecution(k: nat, name: string) returns (r: Checked)
      ensures r == Cancelled <==> cancelled
      ensures r == Missing <==> !cancelled && k !in log
      ensures r.Recorded? <==> !cancelled && k in log && log[k].name == name
      ensures r.Recorded? ==> r.outcome == log[k].outcome
    {
      if cancelled {
        return Cancelled;
      }
      if k !in log {
        return Missing;
      }
      if log[k].name != name {
        return OtherStep;
      }
      return Recorded(log[k].outcome);
    }

    // RecordOperationResult: insert once; an existing row is compared by content.
    method RecordOperationResult(k: nat, row: Row) returns (r: Stored)
      modifies this`log
      ensures Extends(old(log), log) && log.Keys == old(log).Keys + {k}
      ensures r == Inserted <==> k !in old(log)
      ensures r == Inserted || r == SameWrite <==> log[k] == row
      ensures r == OtherName <==> log[k].name != row.name
    {
      if k !in log {
        log := log[k := row];
        return Inserted;
      }
      if log[k] == row {
        return SameWrite;
      }
      return if log[k].name != row.name then OtherName else Conflict;
    }

    // Patch: look, then claim a free ID with the marker. rival: the row another
    // execution inserts between the two, which refuses the claim.
    method Patch(k: nat, p: string, rival: Option<Row>) returns (r: PatchResult)
      modifies this`log
      ensures log == if k in old(log) then old(log)
                     else old(log)[k := if rival.Some? then rival.value else Row(p, Output(""), 0)]
      ensures r == Refused <==> k !in old(log) && rival.Some?
      ensures r.Answered? ==> r.taken == (log[k].name == p)
    {
      if k in log {
        return Answered(log[k].name == p);
      }
      if rival.Some? {
        log := log[k := rival.value];
      }
      if k in log {
        return Refused;
      }
      log := log[k := Row(p, Output(""), 0)];
      return Answered(true);
    }
  }

  // RunAsStep: check, run the body when nothing is recorded, record. After a mishap
  // nothing is recorded and an error is returned.
  method RunAsStep(db: SystemDB, k: nat, name: string, body: (nat, string) -> Outcome, mishap: Mishap)
    returns (r: StepResult, ran: bool)
    modifies db`log
    ensures ran <==> !db.cancelled && k !in old(db.log)
    ensures db.log == if ran && mishap == NoMishap then old(db.log)[k := Row(name, body(k, name), 0)]
                      else old(db.log)
    ensures r == Interrupted <==> db.cancelled || (ran && mishap == CancelledMeanwhile)
    ensures r == Unrecorded <==> ran && (mishap == NotEncoded || mishap == NotStored)
    ensures r.Returned? <==> !db.cancelled && k in db.log && db.log[k].name == name
    ensures r.Returned? ==> r.outcome == db.log[k].outcome
  {
    ran := false;
    var c := db.CheckOperationExecution(k, name);
    match c
    case Cancelled => r := Interrupted;
    case OtherStep => r := Diverged;
    case Recorded(o) => r := Returned(o);
    case Missing =>
      var o := body(k, name);
      ran := true;
      if mishap == CancelledMeanwhile {
        return Interrupted, ran;
      }
      if mishap != NoMishap {
        return Unrecorded, ran;
      }
      var stored := db.RecordOperationResult(k, Row(name, o, 0));
      r := Returned(o);
  }

  type Body = (nat, string) -> Outcome

  // An execution's history is read from the table, where all its steps are recorded.
  ghost predicate Tracks(w: Program, log: Log, h: seq<Event>) {
    Justified(w, log) && OnPath(w, log, h) && forall k | 0 <= k < |Names(h)| :: k in log
  }

  // Since log0 it added rows only for bodies it ran and for markers, and it ran
  // no body whose row it found.
  ghost predicate Wrote(body: Body, log0: Log, log: Log, ran: set<nat>) {
    && Extends(log0, log)
    && ran !! log0.Keys && ran <= log.Keys
    && (forall k | k in ran :: log[k].outcome == body(k, log[k].name))
    && (forall k | k in log && k !in log0 && k !in ran :: log[k].outcome == Output(""))
  }

  // log' is log, or log with one row inserted at the next ID under that name.
  predicate OneRow(log: Log, log': Log, k: nat, name: string) {
    k in log' && (log' == log || (k !in log && log' == log[k := log'[k]] && log'[k].name == name))
  }

  lemma IssueOnTable(w: Program, log: Log, log': Log, h: seq<Event>, name: string)
    requires Justified(w, log) && OnPath(w, log, h) && w(h) == Issue(name)
    requires OneRow(log, log', |Names(h)|, name)
    ensures Justified(w, log') && OnPath(w, log', h + [Issued(name)])
    ensures log'[|Names(h)|].name == name
    ensures Names(h + [Issued(name)]) == Names(h) + [name]
  {
    NamesAppend(h, Issued(name));
    PathGrows(w, log, log', h);
    PathStep(w, log', h, Issued(name));
    if log' == log {
      NameAgrees(w, log, h + [Issued(name)], |Names(h)|);
    } else {
      assert Reaches(w, log', |Names(h)|, name, h + [Issued(name)]);
      JustifiedInsert(w, log, |Names(h)|, log'[|Names(h)|], h + [Issued(name)]);
    }
  }

  lemma PatchOnTable(w: Program, log: Log, log': Log, h: seq<Event>, p: string)
    requires Justified(w, log) && OnPath(w, log, h) && w(h) == AskPatch(p)
    requires OneRow(log, log', |Names(h)|, p)
    ensures Justified(w, log')
    ensures OnPath(w, log', h + [Patched(p, log'[|Names(h)|].name == p)])
    ensures Names(h + [Patched(p, log'[|Names(h)|].name == p)]) == if log'[|Names(h)|].name == p then Names(h) + [p]
            else Names(h)
  {
    var ev := Patched(p, log'[|Names(h)|].name == p);
    NamesAppend(h, ev);
    PathGrows(w, log, log', h);
    PathStep(w, log', h, ev);
    if log' != log {
      assert Reaches(w, log', |Names(h)|, p, h + [ev]);
      JustifiedInsert(w, log, |Names(h)|, log'[|Names(h)|], h + [ev]);
    }
  }

  lemma JoinTracks(w: Program, log: Log, h: seq<Event>, k: nat)
    requires Tracks(w, log, h) && w(h) == Join(k) && k < |Names(h)|
    ensures Tracks(w, log, h + [Joined(k, log[k].outcome)])
    ensures |Names(h + [Joined(k, log[k].outcome)])| == |Names(h)|
  {
    NamesAppend(h, Joined(k, log[k].outcome));
    PathStep(w, log, h, Joined(k, log[k].outcome));
  }

  lemma PatchTracks(w: Program, log: Log, log': Log, h: seq<Event>, p: string)
    requires Tracks(w, log, h) && w(h) == AskPatch(p) && OneRow(log, log', |Names(h)|, p)
    ensures var taken := log'[|Names(h)|].name == p;
            && Tracks(w, log', h + [Patched(p, taken)])
            && |Names(h + [Patched(p, taken)])| == |Names(h)| + if taken then 1 else 0
  {
    PatchOnTable(w, log, log', h, p);
  }

  lemma IssueTracks(w: Program, log: Log, log': Log, h: seq<Event>, name: string)
    requires Tracks(w, log, h) && w(h) == Issue(name) && OneRow(log, log', |Names(h)|, name)
    ensures Tracks(w, log', h + [Issued(name)])
    ensures |Names(h + [Issued(name)])| == |Names(h)| + 1 && log'[|Names(h)|].name == name
  {
    IssueOnTable(w, log, log', h, name);
  }

  lemma WroteRow(body: Body, log0: Log, log: Log, ran: set<nat>, k: nat, row: Row)
    requires Wrote(body, log0, log, ran) && k !in log
    ensures row.outcome == Output("") ==> Wrote(body, log0, log[k := row], ran)
    ensures row.outcome == body(k, row.name) ==> Wrote(body, log0, log[k := row], ran + {k})
  {
  }

  // Why the loop stopped at h: the end, a cancelled workflow, a step after
  // whose body nothing was recorded, or a join of a step it never issued.
  predicate MayStop(w: Program, h: seq<Event>, cancelled: bool, mishaps: nat -> Mishap) {
    match w(h)
    case Finish(_) => true
    case Join(k) => k >= |Names(h)|
    case Issue(_) => cancelled || mishaps(|Names(h)|) != NoMishap
    case AskPatch(_) => false
  }

  // The workflow's next call. ran: the steps whose body it ran and recorded.
  method NextCall(db: SystemDB, ws: WorkflowState, w: Program, body: Body, mishaps: nat -> Mishap,
                  ghost log0: Log, h: seq<Event>, ran: set<nat>)
    returns (h': seq<Event>, ran': set<nat>, stopped: bool)
    requires Tracks(w, db.log, h) && Wrote(body, log0, db.log, ran) && ws.stepID == |Names(h)| - 1
    modifies db`log, ws
    ensures Tracks(w, db.log, h') && Wrote(body, log0, db.log, ran') && (!stopped ==> ws.stepID == |Names(h')| - 1)
    ensures |h'| == if stopped then |h| else |h| + 1
    ensures stopped ==> MayStop(w, h', db.cancelled, mishaps)
  {
    h', ran', stopped := h, ran, true;
    match w(h) {
      case Finish(_) =>
      case Join(k) =>
        if k < |Names(h)| {
          JoinTracks(w, db.log, h, k);
          h', stopped := h + [Joined(k, db.log[k].outcome)], false;
        }
      case AskPatch(p) =>
        ghost var before := db.log;
        var r := db.Patch(ws.stepID + 1, p, None);
        PatchTracks(w, before, db.log, h, p);
        if db.log != before {
          WroteRow(body, log0, before, ran, |Names(h)|, db.log[|Names(h)|]);
        }
        if r.taken {
          var id := ws.NextStepID();
        }
        h', stopped := h + [Patched(p, r.taken)], false;
      case Issue(name) =>
        ghost var before := db.log;
        var id := ws.NextStepID();
        var r, executed := RunAsStep(db, id, name, body, mishaps(id));
        if r == Interrupted || r == Unrecorded {
          return;
        }
        IssueTracks(w, before, db.log, h, name);
        if executed {
          WroteRow(body, log0, before, ran, id, db.log[id]);
          ran' := ran + {id};
        }
        h', stopped := h + [Issued(name)], false;
    }
  }

  // Run the workflow from the start for at most `budget` calls; a crash is a
  // budget that runs out. The result, if any, is the crash-free evaluation's on
  // the table left behind, and a second execution replays what this one recorded.
  method RunWorkflow(db: SystemDB, w: Program, body: Body, mishaps: nat -> Mishap, budget: nat)
    returns (h: seq<Event>, ran: set<nat>, result: Option<Outcome>)
    requires Justified(w, db.log)
    modifies db`log
    ensures Tracks(w, db.log, h) && Wrote(body, old(db.log), db.log, ran)
    ensures h == Evaluate(w, db.log, |h|)
    ensures result.Some? <==> |h| < budget && w(h).Finish?
    ensures result.Some? ==> w(h) == Finish(result.value)
    ensures |h| < budget ==> MayStop(w, h, db.cancelled, mishaps)
  {
    var ws := new WorkflowState();
    h, ran, result := [], {}, None;
    var stopped := false;
    while |h| < budget && !stopped
      invariant |h| <= budget && (stopped ==> |h| < budget)
      invariant Tracks(w, db.log, h) && Wrote(body, old(db.log), db.log, ran)
      invariant fresh(ws) && (!stopped ==> ws.stepID == |Names(h)| - 1)
      invariant stopped ==> MayStop(w, h, db.cancelled, mishaps)
      decreases budget - |h|, !stopped
    {
      h, ran, stopped := NextCall(db, ws, w, body, mishaps, old(db.log), h, ran);
    }
    if |h| < budget && w(h).Finish? {
      result := Some(w(h).result);
    }
    PathIsEvaluation(w, db.log, h);
  }
}
