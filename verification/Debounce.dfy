/**
Debouncing one (queue, key): callers extend the workflow that is waiting under
the key, or enqueue a fresh one, while delays expire and other workflows compete
for the same deduplication ID.
*/
module Debounce {
  import opened Base

  // A workflow of the queue that has, or had, the key. until: its start time;
  // cap: its debounce deadline; released: it has left DELAYED.
  datatype Row = Row(
    name: string, app: Option<string>, debounced: bool, key: bool,
    until: nat, cap: Option<nat>, created: nat, released: bool, input: string)

  datatype Phase =
    | Bouncing              // about to extend a waiting workflow
    | Looking               // nothing extended: about to look who holds the key
    | Enqueueing            // nobody does
    | Returned(id: nat)
    | Raised

  // One Debounce call. timeout 0 means none; an empty app does not filter.
  datatype Call = Call(name: string, app: string, delay: nat, timeout: nat, input: string, phase: Phase)

  // holder: the row the unique index on (queue, key) points to.
  datatype State = State(clock: nat, rows: map<nat, Row>, holder: Option<nat>, calls: map<nat, Call>)

  datatype Action =
    | Tick(ms: nat)
    | Begin(c: nat, call: Call)
    | Bounce(c: nat)
    | Look(c: nat)
    | Enqueue(c: nat, id: nat)
    | Release(id: nat)
    | Drop(id: nat)                                   // cancelled, resumed or completed: the key is freed
    | Other(id: nat, row: Row)                        // somebody else enqueues under the same key

  datatype Verdict = BounceReturn | BounceEnqueue | BounceRaise | BounceRetry

  // bounced: the bounce extended a waiting workflow; holder: who has the key if not.
  function ClassifyBounce(bounced: bool, holder: Option<Row>, name: string, app: string): Verdict {
    if bounced then BounceReturn
    else if holder.None? then BounceEnqueue
    else if !holder.value.debounced then BounceRaise
    else if holder.value.name != name then BounceRaise
    else if holder.value.app.Some? && holder.value.app.value != app then BounceRaise
    else BounceRetry
  }

  // The holder is a workflow of this debouncer.
  predicate Own(row: Row, name: string, app: string) {
    row.debounced && row.name == name && (row.app.None? || row.app.value == app)
  }

  lemma RaisedIffForeign(bounced: bool, holder: Option<Row>, name: string, app: string)
    ensures ClassifyBounce(bounced, holder, name, app) == BounceRaise
            <==> !bounced && holder.Some? && !Own(holder.value, name, app)
  {
  }

  function Initial(): State {
    State(0, map[], None, map[])
  }

  function Min(a: nat, b: nat): nat {
    if a < b then a else b
  }

  // The waiting workflow the bounce may extend.
  predicate Extendable(row: Row, call: Call) {
    && row.name == call.name && row.key && !row.released && row.debounced
    && (call.app == "" || row.app.None? || row.app.value == call.app)
  }

  function Extended(s: State, row: Row, call: Call): Row {
    var until := s.clock + call.delay;
    row.(until := if row.cap.Some? && row.cap.value < until then row.cap.value else until,
         input := call.input,
         app := if row.app.None? && call.app != "" then Some(call.app) else row.app)
  }

  function Goto(s: State, c: nat, phase: Phase): State
    requires c in s.calls
  {
    s.(calls := s.calls[c := s.calls[c].(phase := phase)])
  }

  predicate Hits(s: State, c: nat) {
    c in s.calls && s.calls[c].phase.Bouncing? && s.holder.Some? && s.holder.value in s.rows
    && Extendable(s.rows[s.holder.value], s.calls[c])
  }

  function StepBounce(s: State, c: nat): Option<State>
    requires c in s.calls
  {
    if !s.calls[c].phase.Bouncing? then None
    else if Hits(s, c) then
      var id := s.holder.value;
      Some(Goto(s.(rows := s.rows[id := Extended(s, s.rows[id], s.calls[c])]), c, Returned(id)))
    else Some(Goto(s, c, Looking))
  }

  function HolderRow(s: State): Option<Row> {
    if s.holder.Some? && s.holder.value in s.rows then Some(s.rows[s.holder.value]) else None
  }

  function StepLook(s: State, c: nat): Option<State>
    requires c in s.calls
  {
    var call := s.calls[c];
    if !call.phase.Looking? then None
    else
      match ClassifyBounce(false, HolderRow(s), call.name, call.app)
      case BounceEnqueue => Some(Goto(s, c, Enqueueing))
      case BounceRaise => Some(Goto(s, c, Raised))
      case _ => Some(Goto(s, c, Bouncing))
  }

  function Fresh(s: State, call: Call): Row {
    var delay := if call.timeout > 0 then Min(call.delay, call.timeout) else call.delay;
    Row(call.name, if call.app == "" then None else Some(call.app), true, true,
        s.clock + delay, if call.timeout > 0 then Some(s.clock + call.timeout) else None, s.clock, false, call.input)
  }

  // The unique index refuses a second holder: back to bouncing.
  function StepEnqueue(s: State, c: nat, id: nat): Option<State>
    requires c in s.calls
  {
    if !s.calls[c].phase.Enqueueing? || id in s.rows then None
    else if s.holder.Some? then Some(Goto(s, c, Bouncing))
    else Some(Goto(s.(rows := s.rows[id := Fresh(s, s.calls[c])], holder := Some(id)), c, Returned(id)))
  }

  function Freed(s: State, id: nat): Option<nat> {
    if s.holder == Some(id) then None else s.holder
  }

  // The delay expired: a debounced workflow gives up the key as it leaves DELAYED.
  function StepRelease(s: State, id: nat): Option<State> {
    if id !in s.rows || s.rows[id].released || s.clock < s.rows[id].until then None
    else if s.rows[id].debounced then
      Some(s.(rows := s.rows[id := s.rows[id].(released := true, key := false)], holder := Freed(s, id)))
    else Some(s.(rows := s.rows[id := s.rows[id].(released := true)]))
  }

  function StepDrop(s: State, id: nat): Option<State> {
    if id !in s.rows then None
    else Some(s.(rows := s.rows[id := s.rows[id].(released := true, key := false)], holder := Freed(s, id)))
  }

  // A competitor: another debouncer's workflow, or one that is not debounced.
  function StepOther(s: State, id: nat, row: Row): Option<State> {
    if id in s.rows || s.holder.Some? || !row.key || row.released || row.created != s.clock
       || (row.cap.Some? && row.cap.value < row.until) then None
    else Some(s.(rows := s.rows[id := row], holder := Some(id)))
  }

  function Step(s: State, a: Action): Option<State> {
    match a
    case Tick(ms) => Some(s.(clock := s.clock + ms))
    case Begin(c, call) => if c in s.calls || !call.phase.Bouncing? then None else Some(s.(calls := s.calls[c := call]))
    case Bounce(c) => if c in s.calls then StepBounce(s, c) else None
    case Look(c) => if c in s.calls then StepLook(s, c) else None
    case Enqueue(c, id) => if c in s.calls then StepEnqueue(s, c, id) else None
    case Release(id) => StepRelease(s, id)
    case Drop(id) => StepDrop(s, id)
    case Other(id, row) => StepOther(s, id, row)
  }

  function Run(acts: seq<Action>): Option<State> {
    if acts == [] then Some(Initial())
    else
      var before := Run(acts[..|acts| - 1]);
      if before.None? then None else Step(before.value, acts[|acts| - 1])
  }

  /******* Every run *******/

  // The index is right; a debounced workflow has the key exactly while it waits;
  // no start time passes its deadline.
  ghost predicate RowOk(s: State, id: nat) {
    && (s.holder == Some(id) ==> id in s.rows)
    && (id in s.rows ==>
          var row := s.rows[id];
          && (row.key <==> s.holder == Some(id))
          && (row.debounced ==> (row.key <==> !row.released))
          && (row.cap.Some? ==> row.until <= row.cap.value))
  }

  lemma StepRows(s: State, a: Action, id: nat)
    requires RowOk(s, id) && Step(s, a).Some?
    requires forall k :: RowOk(s, k)
    ensures RowOk(Step(s, a).value, id)
  {
  }

  lemma {:induction false} RowsOk(acts: seq<Action>, id: nat)
    requires Run(acts).Some?
    ensures RowOk(Run(acts).value, id)
    decreases |acts|
  {
    if acts != [] {
      var before := acts[..|acts| - 1];
      forall k ensures RowOk(Run(before).value, k) {
        RowsOk(before, k);
      }
      StepRows(Run(before).value, acts[|acts| - 1], id);
    }
  }

  // At most one debounced workflow waits under the key.
  lemma OnePending(acts: seq<Action>, i: nat, j: nat)
    requires Run(acts).Some?
    requires var s := Run(acts).value;
             && i in s.rows && s.rows[i].debounced && !s.rows[i].released
             && j in s.rows && s.rows[j].debounced && !s.rows[j].released
    ensures i == j
  {
    RowsOk(acts, i);
    RowsOk(acts, j);
  }

  // What call c is about to give workflow id, if a is the step by which it takes effect.
  function Effect(s: State, a: Action, id: nat): Option<string> {
    if a.Bounce? && Hits(s, a.c) && s.holder == Some(id) then Some(s.calls[a.c].input)
    else if a.Enqueue? && a.c in s.calls && s.calls[a.c].phase.Enqueueing? && a.id !in s.rows && s.holder.None?
      && a.id == id
    then Some(s.calls[a.c].input)
    else None
  }

  // The input of the last call that took effect on id, told from the trace.
  ghost function LastInput(acts: seq<Action>, id: nat): Option<string>
    requires Run(acts).Some?
  {
    if acts == [] then None
    else
      var before, a := acts[..|acts| - 1], acts[|acts| - 1];
      var e := Effect(Run(before).value, a, id);
      if e.Some? then e
      else if a.Other? && a.id == id then Some(a.row.input)
      else LastInput(before, id)
  }

  lemma StepInput(s: State, a: Action, id: nat)
    requires Step(s, a).Some?
    ensures var s' := Step(s, a).value;
            var e := if a.Other? && a.id == id then Some(a.row.input) else Effect(s, a, id);
            if e.Some? then id in s'.rows && s'.rows[id].input == e.value
            else (id in s'.rows <==> id in s.rows) && (id in s.rows ==> s'.rows[id].input == s.rows[id].input)
  {
  }

  // A workflow carries the input of the last call that took effect on it, and no
  // call takes effect once it has been released.
  lemma {:induction false} RunsWithLastInput(acts: seq<Action>, id: nat)
    requires Run(acts).Some?
    ensures var s := Run(acts).value;
            (id in s.rows <==> LastInput(acts, id).Some?)
              && (id in s.rows ==> LastInput(acts, id) == Some(s.rows[id].input))
    decreases |acts|
  {
    if acts != [] {
      RunsWithLastInput(acts[..|acts| - 1], id);
      StepInput(Run(acts[..|acts| - 1]).value, acts[|acts| - 1], id);
    }
  }

  lemma ReleasedIsSettled(acts: seq<Action>, a: Action, id: nat)
    requires Run(acts).Some? && Step(Run(acts).value, a).Some?
    requires id in Run(acts).value.rows && Run(acts).value.rows[id].released && Run(acts).value.rows[id].debounced
    ensures Effect(Run(acts).value, a, id).None?
  {
    RowsOk(acts, id);
  }

  // However often it is extended, a debounced workflow's start time stays within
  // the timeout of the call that created it, and so do its creation and deadline.
  ghost predicate Bounded(s: State, id: nat, created: nat, cap: Option<nat>) {
    id in s.rows && s.rows[id].created == created && s.rows[id].cap == cap
      && (cap.Some? ==> s.rows[id].until <= cap.value)
  }

  lemma StepKeepsDeadline(s: State, a: Action, id: nat)
    requires id in s.rows && Step(s, a).Some?
    ensures var s' := Step(s, a).value;
            id in s'.rows && s'.rows[id].created == s.rows[id].created && s'.rows[id].cap == s.rows[id].cap
  {
  }

  lemma {:induction false} StartsByDeadline(acts: seq<Action>, n: nat, id: nat)
    requires n <= |acts| && Run(acts).Some? && Run(acts[..n]).Some? && id in Run(acts[..n]).value.rows
    ensures var row := Run(acts[..n]).value.rows[id]; Bounded(Run(acts).value, id, row.created, row.cap)
    decreases |acts|
  {
    RowsOk(acts, id);
    if n == |acts| {
      assert acts[..n] == acts;
    } else {
      var before := acts[..|acts| - 1];
      assert before[..n] == acts[..n];
      StartsByDeadline(before, n, id);
      StepKeepsDeadline(Run(before).value, acts[|acts| - 1], id);
    }
  }

  lemma {:induction false} EarlierRuns(acts: seq<Action>, n: nat)
    requires n <= |acts| && Run(acts).Some?
    ensures Run(acts[..n]).Some?
    decreases |acts|
  {
    if n == |acts| {
      assert acts[..n] == acts;
    } else {
      EarlierRuns(acts[..|acts| - 1], n);
      assert acts[..|acts| - 1][..n] == acts[..n];
    }
  }

  // A workflow that a call creates at clock t with timeout d starts by t + d, in
  // every continuation of the run, however often and by whomever it is extended.
  lemma FreshDeadline(acts: seq<Action>, n: nat, c: nat, id: nat)
    requires n < |acts| && Run(acts).Some? && acts[n] == Enqueue(c, id) && Run(acts[..n]).Some?
    requires var s := Run(acts[..n]).value; c in s.calls && s.holder.None? && s.calls[c].timeout > 0
    ensures var s, s' := Run(acts[..n]).value, Run(acts).value;
            && id in s'.rows && s'.rows[id].created == s.clock
            && s'.rows[id].until <= s.clock + s.calls[c].timeout
  {
    EarlierRuns(acts, n + 1);
    assert acts[..n + 1][..n] == acts[..n];
    StartsByDeadline(acts, n + 1, id);
  }

  // A call returns only a workflow it took effect on, and raises a conflict only
  // over a holder that is not this debouncer's own.
  lemma RaisedOverForeign(acts: seq<Action>, a: Action, c: nat)
    requires Run(acts).Some? && Step(Run(acts).value, a).Some?
    requires c in Run(acts).value.calls && !Run(acts).value.calls[c].phase.Raised?
             && !Run(acts).value.calls[c].phase.Returned?
    ensures var s, s' := Run(acts).value, Step(Run(acts).value, a).value;
            && c in s'.calls
            && (s'.calls[c].phase.Raised? ==>
                  HolderRow(s).Some? && !Own(HolderRow(s).value, s.calls[c].name, s.calls[c].app))
            && (s'.calls[c].phase.Returned? ==> Effect(s, a, s'.calls[c].phase.id) == Some(s.calls[c].input))
  {
    var s := Run(acts).value;
    RaisedIffForeign(false, HolderRow(s), s.calls[c].name, s.calls[c].app);
  }

  /******* Start times *******/

  function Clock(acts: seq<Action>): nat {
    if acts == [] then 0
    else
      var a := acts[|acts| - 1];
      Clock(acts[..|acts| - 1]) + if a.Tick? then a.ms else 0
  }

  // acts[n] is the step by which call c took effect on workflow id.
  ghost predicate TookEffect(acts: seq<Action>, n: nat, c: nat, id: nat) {
    && n < |acts| && Run(acts[..n]).Some? && (acts[n].Bounce? || acts[n].Enqueue?) && acts[n].c == c
    && c in Run(acts[..n]).value.calls && Effect(Run(acts[..n]).value, acts[n], id).Some?
  }

  // acts[n] is somebody else's enqueue.
  ghost predicate CameFromOther(acts: seq<Action>, n: nat, id: nat) {
    n < |acts| && acts[n].Other? && acts[n].id == id
  }

  // The call's delay from its time on, but not past the deadline.
  function Wanted(at: nat, delay: nat, cap: Option<nat>): nat {
    if cap.Some? && cap.value < at + delay then cap.value else at + delay
  }

  // The row is as the step acts[n] left it: that call's delay, input and name.
  ghost predicate LastTouched(acts: seq<Action>, n: nat, id: nat, row: Row) {
    if CameFromOther(acts, n, id) then row.until == acts[n].row.until && row.input == acts[n].row.input
    else
      n < |acts| && (acts[n].Bounce? || acts[n].Enqueue?) && TookEffect(acts, n, acts[n].c, id)
      && var call := Run(acts[..n]).value.calls[acts[n].c];
         && row.until == Wanted(Clock(acts[..n]), call.delay, row.cap)
         && row.input == call.input && row.name == call.name && (call.app != "" ==> row.app == Some(call.app))
  }

  // Nobody has touched it since.
  ghost predicate Untouched(acts: seq<Action>, n: nat, id: nat) {
    forall m: nat | n < m < |acts| ::
      !CameFromOther(acts, m, id) && !((acts[m].Bounce? || acts[m].Enqueue?) && TookEffect(acts, m, acts[m].c, id))
  }

  lemma StartMoves(s: State, a: Action, id: nat)
    requires Step(s, a).Some? && id in Step(s, a).value.rows
    ensures var row := Step(s, a).value.rows[id];
            if a.Other? && a.id == id then row == a.row
            else if Effect(s, a, id).Some? then
              && a.c in s.calls && row.until == Wanted(s.clock, s.calls[a.c].delay, row.cap)
              && row.input == s.calls[a.c].input && row.name == s.calls[a.c].name
              && (s.calls[a.c].app != "" ==> row.app == Some(s.calls[a.c].app))
            else id in s.rows && row.until == s.rows[id].until && row.input == s.rows[id].input
                 && row.name == s.rows[id].name && row.app == s.rows[id].app && row.cap == s.rows[id].cap
  {
  }

  // A call that names no application leaves the workflow's as it is.
  lemma UnnamedLeavesApp(s: State, c: nat)
    requires Hits(s, c) && s.calls[c].app == ""
    ensures Step(s, Bounce(c)).Some?
    ensures Step(s, Bounce(c)).value.rows[s.holder.value].app == s.rows[s.holder.value].app
  {
  }

  // A workflow that is cancelled, resumed or completed gives up the key.
  lemma DropFreesKey(acts: seq<Action>, id: nat)
    requires Run(acts).Some? && id in Run(acts).value.rows
    ensures var s := Run(acts).value;
            Step(s, Drop(id)).Some? &&
            var s' := Step(s, Drop(id)).value;
            && !s'.rows[id].key && s'.holder != Some(id) && (s.holder != Some(id) ==> s'.holder == s.holder)
            && forall other | other in s.rows && other != id :: s'.rows[other] == s.rows[other]
  {
    RowsOk(acts, id);
  }

  lemma {:induction false} ClockIsTrace(acts: seq<Action>)
    requires Run(acts).Some?
    ensures Run(acts).value.clock == Clock(acts)
    decreases |acts|
  {
    if acts != [] {
      ClockIsTrace(acts[..|acts| - 1]);
    }
  }

  // A workflow starts the delay of the last call that took effect on it after that
  // call, or at its deadline if that is sooner.
  lemma {:induction false} StartIsLastBounce(acts: seq<Action>, id: nat) returns (n: nat)
    requires Run(acts).Some? && id in Run(acts).value.rows
    ensures LastTouched(acts, n, id, Run(acts).value.rows[id]) && Untouched(acts, n, id)
    decreases |acts|
  {
    var before, a := acts[..|acts| - 1], acts[|acts| - 1];
    var s := Run(before).value;
    assert acts == before + [a] && acts[..|before|] == before;
    StartMoves(s, a, id);
    ClockIsTrace(before);
    if (a.Other? && a.id == id) || Effect(s, a, id).Some? {
      n := |before|;
    } else {
      n := StartIsLastBounce(before, id);
      TouchStays(before, a, n, id, s.rows[id]);
      forall m: nat | n < m < |acts|
        ensures !CameFromOther(acts, m, id)
                && !((acts[m].Bounce? || acts[m].Enqueue?) && TookEffect(acts, m, acts[m].c, id))
      {
        if m < |before| {
          assert acts[..m] == before[..m] && acts[m] == before[m];
        }
      }
    }
  }

  lemma TouchStays(acts: seq<Action>, a: Action, n: nat, id: nat, row: Row)
    requires n < |acts| && LastTouched(acts, n, id, row)
    ensures LastTouched(acts + [a], n, id, row)
  {
    assert (acts + [a])[..n] == acts[..n] && (acts + [a])[n] == acts[n];
  }

  // The bounce and the look at the holder agree on whose workflow it is: a call of a
  // named application extends the holder exactly if that is its own and waiting.
  lemma BounceIffOwn(acts: seq<Action>, c: nat)
    requires Run(acts).Some? && c in Run(acts).value.calls && Run(acts).value.calls[c].phase.Bouncing?
    requires Run(acts).value.calls[c].app != ""
    ensures var s := Run(acts).value;
            Step(s, Bounce(c)).Some? &&
            var waits := HolderRow(s).Some? && !HolderRow(s).value.released;
            Step(s, Bounce(c)).value.calls[c].phase ==
              if waits && Own(HolderRow(s).value, s.calls[c].name, s.calls[c].app) then Returned(s.holder.value)
              else Looking
  {
    var s := Run(acts).value;
    if s.holder.Some? {
      RowsOk(acts, s.holder.value);
    }
  }

  // It can be released exactly when that time has come.
  lemma ReleasesWhenDue(s: State, id: nat)
    ensures Step(s, Release(id)).Some? <==> id in s.rows && !s.rows[id].released && s.clock >= s.rows[id].until
    ensures Step(s, Release(id)).Some? ==>
              var row := Step(s, Release(id)).value.rows[id];
              && row.released && row.input == s.rows[id].input && row.until == s.rows[id].until
              && (row.key <==> s.rows[id].key && !s.rows[id].debounced)
              && forall other | other != id && other in s.rows ::
                   Step(s, Release(id)).value.rows[other] == s.rows[other]
  {
  }

  /******* What calls can do *******/

  // One step further along a run that ends in s.
  lemma Then(acts: seq<Action>, s: State, a: Action) returns (more: seq<Action>, s': State)
    requires Run(acts) == Some(s) && Step(s, a).Some?
    ensures Run(more) == Some(s') && Step(s, a) == Some(s') && more == acts + [a]
  {
    more, s' := acts + [a], Step(s, a).value;
    assert more[..|acts|] == acts;
  }

  // A first call creates the workflow; a second one, a while later, returns the same
  // one, with its own input and a start time pushed back to its own delay.
  lemma SecondCallExtends(first: Call, second: Call, ms: nat) returns (acts: seq<Action>, s: State)
    requires first.phase.Bouncing? && second.phase.Bouncing? && first.name == second.name && first.app == second.app
    ensures Run(acts) == Some(s) && s.calls.Keys == {0, 1}
    ensures s.calls[0].phase == Returned(7) && s.calls[1].phase == Returned(7)
    ensures s.rows.Keys == {7} && s.rows[7].input == second.input && s.holder == Some(7)
    ensures s.rows[7].app == (if first.app == "" then None else Some(first.app)) && s.rows[7].debounced
    ensures var cap := if first.timeout > 0 then Some(first.timeout) else None;
            s.rows[7].cap == cap && s.rows[7].until == Wanted(ms, second.delay, cap)
  {
    acts, s := FirstCreates(first);
    acts, s := Then(acts, s, Tick(ms));
    acts, s := Then(acts, s, Begin(1, second));
    acts, s := Then(acts, s, Bounce(1));
  }

  lemma FirstCreates(first: Call) returns (acts: seq<Action>, s: State)
    requires first.phase.Bouncing?
    ensures Run(acts) == Some(s)
    ensures s == State(0, map[7 := Fresh(Initial(), first)], Some(7), map[0 := first.(phase := Returned(7))])
  {
    acts, s := Then([], Initial(), Begin(0, first));
    assert s.calls == map[0 := first];
    acts, s := Then(acts, s, Bounce(0));
    assert s.calls == map[0 := first.(phase := Looking)];
    acts, s := Then(acts, s, Look(0));
    assert s.calls == map[0 := first.(phase := Enqueueing)];
    acts, s := Then(acts, s, Enqueue(0, 7));
    assert s.calls == map[0 := first.(phase := Returned(7))];
  }

  // When each action is possible: time and other callers never wait, and a call takes
  // its steps in order.
  predicate CanTake(s: State, a: Action) {
    match a
    case Tick(_) => true
    case Begin(c, call) => c !in s.calls && call.phase.Bouncing?
    case Bounce(c) => c in s.calls && s.calls[c].phase.Bouncing?
    case Look(c) => c in s.calls && s.calls[c].phase.Looking?
    case Enqueue(c, id) => c in s.calls && s.calls[c].phase.Enqueueing? && id !in s.rows
    case Release(id) => id in s.rows && !s.rows[id].released && s.clock >= s.rows[id].until
    case Drop(id) => id in s.rows
    case Other(id, row) =>
      && id !in s.rows && s.holder.None? && row.key && !row.released && row.created == s.clock
      && (row.cap.Some? ==> row.until <= row.cap.value)
  }

  lemma StepsWhenPossible(s: State, a: Action)
    ensures Step(s, a).Some? <==> CanTake(s, a)
  {
  }
}
