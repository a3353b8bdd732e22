/**
The instants of a suspension, told from the actions of its run: instant t is the one
after which acts[t - 1] was taken. When a wait ends, and that it can.
*/
module SuspensionTrace {
  import opened Base
  import opened Suspension
  import opened SuspensionProofs

  function Clock(acts: seq<Action>): nat {
    if acts == [] then 0
    else
      var a := acts[|acts| - 1];
      Clock(acts[..|acts| - 1]) + if a.Tick? then a.ms else 0
  }

  // The action taken at instant t.
  predicate TakenAt(acts: seq<Action>, t: nat, a: Action) {
    1 <= t <= |acts| && acts[t - 1] == a
  }

  lemma TakenStill(acts: seq<Action>, a: Action, t: nat, b: Action)
    ensures TakenAt(acts + [a], t, b) <==> TakenAt(acts, t, b) || (t == |acts| + 1 && a == b)
  {
  }

  // The steps of wakers, one by one: time passes, the setting stays, and the waiter's
  // own instants do too.
  predicate Passes(s: State, s': State) {
    && s'.time == s.time + 1 && s'.clock == s.clock
    && (s'.kind, s'.deadline, s'.waiter, s'.self, s'.reg, s'.checked, s'.since, s'.fallback)
       == (s.kind, s.deadline, s.waiter, s.self, s.reg, s.checked, s.since, s.fallback)
  }

  // Waker w alone moves.
  predicate OnlyWaker(s: State, s': State, w: nat) {
    w in s.wakers && w in s'.wakers && s'.wakers == s.wakers[w := s'.wakers[w]]
  }

  lemma CommitMoves(s: State, w: nat)
    requires w in s.wakers && StepCommit(s, w).Some?
    ensures var s' := StepCommit(s, w).value;
            && Passes(s, s') && OnlyWaker(s, s', w) && s'.row == s.row && (s.fact ==> s'.fact)
            && s.wakers[w].pc == ToCommit
            && s'.wakers[w] == s.wakers[w].(pc := s'.wakers[w].pc,
                                            commit := if s.wakers[w].writes then Some(s.time) else None)
  {
  }

  lemma LookMoves(s: State, w: nat, others: bool)
    requires w in s.wakers && StepLook(s, w, others).Some?
    ensures var s' := StepLook(s, w, others).value;
            && Passes(s, s') && OnlyWaker(s, s', w) && s'.row == s.row && s'.fact == s.fact
            && s'.wakers[w] == s.wakers[w].(pc := s'.wakers[w].pc)
  {
  }

  predicate ScannedAs(s: State, s': State, w: nat)
    requires w in s.wakers && w in s'.wakers
  {
    var k, k' := s.wakers[w], s'.wakers[w];
    && Passes(s, s') && OnlyWaker(s, s', w) && (s'.row.Delayed? <==> s.row.Delayed?) && (s.fact ==> s'.fact)
    && k'.mode == k.mode && k'.writes == k.writes && k'.scan == Some(s.time)
    && k'.commit == (if k.mode == InTx && s.serial then (if k.writes then Some(s.time) else None) else k.commit)
    && (k'.close == k.close || k'.close == Some(s.time))
  }

  lemma ScanMoves(s: State, w: nat)
    requires w in s.wakers && StepScan(s, w).Some?
    ensures w in StepScan(s, w).value.wakers && ScannedAs(s, StepScan(s, w).value, w) && s.wakers[w].pc == ToScan
  {
    var k := s.wakers[w];
    var hit := s.row.Delayed? && (s.link || (k.mode == Self && s.kind != Result));
    var k' := k.(scan := Some(s.time), hit := hit);
    if OneStatement(s, k) {
      assert StepScan(s, w).value == Put(WakeRow(s, w, hit), w, k'.(pc := Finished));
    } else if s.serial && k.mode == InTx {
      assert StepScan(s, w).value == EndWrite(s, w, k');
    } else if s.serial {
      assert StepScan(s, w).value == EndWake(s, w, k');
    } else {
      assert StepScan(s, w).value == Put(s, w, k'.(pc := Holding));
    }
  }

  lemma CloseMoves(s: State, w: nat)
    requires w in s.wakers && StepClose(s, w).Some? && ReachOk(s, s.wakers[w])
    ensures var s' := StepClose(s, w).value;
            var k, k' := s.wakers[w], s'.wakers[w];
            && Passes(s, s') && OnlyWaker(s, s', w) && (s'.row.Delayed? <==> s.row.Delayed?) && (s.fact ==> s'.fact)
            && k.pc == Holding && k'.mode == k.mode && k'.writes == k.writes && k'.scan == k.scan
            && k'.commit == (if k.mode == InTx then (if k.writes then Some(s.time) else None) else k.commit)
            && (k'.close == k.close || k'.close == Some(s.time))
  {
  }

  lemma CrashMoves(s: State, w: nat)
    requires w in s.wakers && StepCrashWaker(s, w).Some?
    ensures var s' := StepCrashWaker(s, w).value;
            && Passes(s, s') && OnlyWaker(s, s', w) && s'.row == s.row && s'.fact == s.fact
            && s'.wakers[w] == s.wakers[w].(pc := Gone, hit := false)
  {
  }

  predicate OfWaker(a: Action) {
    a.Commit? || a.Look? || a.Scan? || a.Close? || a.CrashWaker?
  }

  // Every step of a waker, taken together.
  lemma WakerStep(s: State, a: Action)
    requires Inv(s) && OfWaker(a) && Step(s, a).Some?
    ensures var s' := Step(s, a).value;
            && Passes(s, s') && OnlyWaker(s, s', a.w) && (s'.row.Delayed? <==> s.row.Delayed?) && (s.fact ==> s'.fact)
            && WakerAfter(s, a, s.wakers[a.w], s'.wakers[a.w])
  {
    assert WakerOk(s, a.w);
    match a
    case Commit(w) => CommitMoves(s, w);
    case Look(w, others) => LookMoves(s, w, others);
    case Scan(w) => ScanMoves(s, w);
    case Close(w) => CloseMoves(s, w);
    case CrashWaker(w) => CrashMoves(s, w);
  }

  // What its own step makes of a waker's instants.
  predicate WakerAfter(s: State, a: Action, k: Waker, k': Waker)
    requires OfWaker(a)
  {
    && k'.mode == k.mode && k'.writes == k.writes
    && k'.commit == (if Shows(s.serial, k.mode, a, a.w) && k.writes then Some(s.time) else k.commit)
    && k'.scan == (if a == Scan(a.w) then Some(s.time) else k.scan)
    && (k'.close == k.close || (k'.close == Some(s.time) && (a == Close(a.w) || a == Scan(a.w))))
    && (Shows(s.serial, k.mode, a, a.w) && k.writes ==> k.commit.None?)
    && (a == Scan(a.w) ==> k.scan.None?)
  }

  // a makes waker w's write visible: its own statement's commit, or the end of the
  // transaction it shares with the wake-up.
  predicate Shows(serial: bool, mode: Mode, a: Action, w: nat) {
    || a == Commit(w)
    || (mode == InTx && (a == Close(w) || (serial && a == Scan(w))))
  }

  // The other steps leave the wakers alone, or begin one.
  lemma WaiterStep(s: State, a: Action)
    requires !OfWaker(a) && Step(s, a).Some?
    ensures var s' := Step(s, a).value;
            && s'.time == s.time + 1 && s'.clock == s.clock + (if a.Tick? then a.ms else 0) && s'.fact == s.fact
            && s'.kind == s.kind && s'.deadline == s.deadline
            && if a.Begin? || (a.Recheck? && s.fact) then
                 a.w !in s.wakers && s'.wakers == s.wakers[a.w := s'.wakers[a.w]] && Newborn(a, s'.wakers[a.w])
               else s'.wakers == s.wakers
  {
  }

  predicate Newborn(a: Action, k: Waker) {
    && (if a.Begin? then k.mode == a.mode && k.writes == a.writes else a.Recheck? && k.mode == Self && !k.writes)
    && k.commit.None? && k.scan.None? && k.close.None?
  }

  lemma TimeMoves(s: State, a: Action)
    requires Inv(s) && Step(s, a).Some?
    ensures var s' := Step(s, a).value; s'.time == s.time + 1 && s'.clock == s.clock + if a.Tick? then a.ms else 0
    ensures s.fact ==> Step(s, a).value.fact
  {
    if OfWaker(a) { WakerStep(s, a); } else { WaiterStep(s, a); }
  }

  lemma {:induction false} TimeIsPosition(kind: Kind, serial: bool, deadline: nat, acts: seq<Action>, s: State)
    requires Reached(kind, serial, deadline, acts, s)
    ensures s.time == |acts| + 1 && s.clock == Clock(acts)
    decreases |acts|
  {
    if acts != [] {
      var before := Run(Initial(kind, serial, deadline), acts[..|acts| - 1]).value;
      TimeIsPosition(kind, serial, deadline, acts[..|acts| - 1], before);
      RunsKeep(kind, serial, deadline, acts[..|acts| - 1], before);
      TimeMoves(before, acts[|acts| - 1]);
    }
  }

  /******* The wakers' instants *******/

  // At instant t waker w's write became visible.
  predicate ShownAt(serial: bool, mode: Mode, acts: seq<Action>, t: nat, w: nat) {
    1 <= t <= |acts| && Shows(serial, mode, acts[t - 1], w)
  }

  // At instant t waker w did something that has an instant.
  predicate ActsAt(acts: seq<Action>, t: nat, w: nat) {
    TakenAt(acts, t, Commit(w)) || TakenAt(acts, t, Scan(w)) || TakenAt(acts, t, Close(w))
  }

  // Waker w is the one begun, and its instants are those of its actions.
  ghost predicate WakerTold(serial: bool, acts: seq<Action>, w: nat, k: Waker) {
    && (Begin(w, k.mode, k.writes) in acts || (k.mode == Self && !k.writes && Recheck(w) in acts))
    && (k.commit.Some? ==> k.writes && ShownAt(serial, k.mode, acts, k.commit.value, w))
    && (forall t: nat | ShownAt(serial, k.mode, acts, t, w) && k.writes :: k.commit == Some(t))
    && (k.scan.Some? ==> TakenAt(acts, k.scan.value, Scan(w)))
    && (forall t: nat | TakenAt(acts, t, Scan(w)) :: k.scan == Some(t))
    && (k.close.Some? ==> TakenAt(acts, k.close.value, Close(w)) || TakenAt(acts, k.close.value, Scan(w)))
  }

  // Nothing is done by a waker that does not exist yet.
  lemma {:induction false} NoWakerNoAction(kind: Kind, serial: bool, deadline: nat, acts: seq<Action>, s: State, w: nat)
    requires Reached(kind, serial, deadline, acts, s) && w !in s.wakers
    ensures forall t: nat :: !ActsAt(acts, t, w)
    decreases |acts|
  {
    if acts != [] {
      var before, a := acts[..|acts| - 1], acts[|acts| - 1];
      var s0 := Run(Initial(kind, serial, deadline), before).value;
      assert acts == before + [a];
      RunsKeep(kind, serial, deadline, before, s0);
      if OfWaker(a) { WakerStep(s0, a); } else { WaiterStep(s0, a); }
      NoWakerNoAction(kind, serial, deadline, before, s0, w);
      forall t: nat ensures !ActsAt(acts, t, w) {
        assert !ActsAt(before, t, w);
        TakenStill(before, a, t, Commit(w));
        TakenStill(before, a, t, Scan(w));
        TakenStill(before, a, t, Close(w));
      }
    }
  }

  // In every run, what a waker wrote and when it became visible, and when it looked,
  // are where its actions are.
  lemma {:induction false} InstantsAreActions(kind: Kind, serial: bool, deadline: nat, acts: seq<Action>, s: State,
                                              w: nat)
    requires Reached(kind, serial, deadline, acts, s) && w in s.wakers
    ensures WakerTold(serial, acts, w, s.wakers[w])
    decreases |acts|
  {
    if acts != [] {
      var before, a := acts[..|acts| - 1], acts[|acts| - 1];
      var s0 := Run(Initial(kind, serial, deadline), before).value;
      assert acts == before + [a];
      TimeIsPosition(kind, serial, deadline, before, s0);
      RunsKeep(kind, serial, deadline, before, s0);
      if OfWaker(a) { WakerStep(s0, a); } else { WaiterStep(s0, a); }
      if w !in s0.wakers {
        NoWakerNoAction(kind, serial, deadline, before, s0, w);
        ToldFirst(serial, before, a, w, s.wakers[w]);
      } else {
        InstantsAreActions(kind, serial, deadline, before, s0, w);
        if OfWaker(a) && a.w == w {
          ToldOneMore(serial, before, a, w, s0, s0.wakers[w], s.wakers[w]);
        } else {
          ToldStill(serial, before, a, w, s0.wakers[w]);
        }
      }
    }
  }

  lemma ShownStill(serial: bool, mode: Mode, acts: seq<Action>, a: Action, t: nat, w: nat)
    ensures ShownAt(serial, mode, acts + [a], t, w)
            <==> ShownAt(serial, mode, acts, t, w) || (t == |acts| + 1 && Shows(serial, mode, a, w))
  {
  }

  lemma ToldOneMore(serial: bool, acts: seq<Action>, a: Action, w: nat, s: State, k: Waker, k': Waker)
    requires WakerTold(serial, acts, w, k) && OfWaker(a) && a.w == w
    requires s.time == |acts| + 1 && s.serial == serial && WakerAfter(s, a, k, k')
    ensures WakerTold(serial, acts + [a], w, k')
  {
    forall t: nat ensures ShownAt(serial, k.mode, acts + [a], t, w) && k.writes ==> k'.commit == Some(t) {
      ShownStill(serial, k.mode, acts, a, t, w);
    }
    forall t: nat ensures TakenAt(acts + [a], t, Scan(w)) ==> k'.scan == Some(t) {
      TakenStill(acts, a, t, Scan(w));
    }
  }

  lemma ToldStill(serial: bool, acts: seq<Action>, a: Action, w: nat, k: Waker)
    requires WakerTold(serial, acts, w, k) && !(OfWaker(a) && a.w == w)
    ensures WakerTold(serial, acts + [a], w, k)
  {
    forall t: nat ensures ShownAt(serial, k.mode, acts + [a], t, w) && k.writes ==> k.commit == Some(t) {
      ShownStill(serial, k.mode, acts, a, t, w);
    }
    forall t: nat ensures TakenAt(acts + [a], t, Scan(w)) ==> k.scan == Some(t) {
      TakenStill(acts, a, t, Scan(w));
    }
  }

  lemma ToldFirst(serial: bool, acts: seq<Action>, a: Action, w: nat, k: Waker)
    requires forall t: nat :: !ActsAt(acts, t, w)
    requires (a.Begin? || a.Recheck?) && a.w == w && Newborn(a, k)
    ensures WakerTold(serial, acts + [a], w, k)
  {
    assert (acts + [a])[|acts|] == a;
    forall t: nat ensures !ShownAt(serial, k.mode, acts + [a], t, w) && !TakenAt(acts + [a], t, Scan(w)) {
      assert !ActsAt(acts, t, w);
      ShownStill(serial, k.mode, acts, a, t, w);
      TakenStill(acts, a, t, Scan(w));
    }
  }

  /******* The waiter's instants *******/

  // The current suspension was registered and rechecked by those actions, and its
  // fallback is the horizon from the registration, or the deadline if that is sooner.
  ghost predicate WaiterTold(acts: seq<Action>, s: State) {
    && (s.row.Delayed? ==>
          && TakenAt(acts, s.reg, Register)
          && s.since == Clock(acts[..s.reg - 1])
          && s.fallback == if s.kind != Result && s.deadline < s.since + HORIZON then s.deadline else s.since + HORIZON)
    && (Rechecked(s) ==> 1 <= s.checked <= |acts| && acts[s.checked - 1].Recheck?)
  }

  ghost predicate SuspendedAs(s: State, a: Action, s': State) {
    && (s'.row.Delayed? ==>
          if a.Register? then
            && s'.reg == s.time && s'.since == s.clock
            && s'.fallback == if s.kind != Result && s.deadline < s.clock + HORIZON then s.deadline
                              else s.clock + HORIZON
          else s.row.Delayed? && s'.reg == s.reg && s'.since == s.since && s'.fallback == s.fallback)
    && (Rechecked(s') ==> if a.Recheck? then s'.checked == s.time else Rechecked(s) && s'.checked == s.checked)
    && (s'.waiter == Over ==> (a == Check && s.fact) || s.waiter == Over)
  }

  lemma WaiterMoves(s: State, a: Action)
    requires Inv(s) && Step(s, a).Some?
    ensures SuspendedAs(s, a, Step(s, a).value)
  {
    if OfWaker(a) {
      WakerStep(s, a);
    } else {
      WaiterAlone(s, a);
    }
  }

  lemma WaiterAlone(s: State, a: Action)
    requires !OfWaker(a) && Step(s, a).Some?
    ensures SuspendedAs(s, a, Step(s, a).value)
  {
  }

  lemma {:induction false} WaiterIsTrace(kind: Kind, serial: bool, deadline: nat, acts: seq<Action>, s: State)
    requires Reached(kind, serial, deadline, acts, s)
    ensures WaiterTold(acts, s)
    decreases |acts|
  {
    if acts != [] {
      var before, a := acts[..|acts| - 1], acts[|acts| - 1];
      var s0 := Run(Initial(kind, serial, deadline), before).value;
      WaiterIsTrace(kind, serial, deadline, before, s0);
      TimeIsPosition(kind, serial, deadline, before, s0);
      RunsKeep(kind, serial, deadline, before, s0);
      RunsKeep(kind, serial, deadline, acts, s);
      WaiterMoves(s0, a);
      assert acts == before + [a];
      WaiterOneMore(before, a, s0, s);
    }
  }

  lemma WaiterOneMore(acts: seq<Action>, a: Action, s: State, s': State)
    requires WaiterTold(acts, s) && SuspendedAs(s, a, s') && s.time == |acts| + 1 && s.clock == Clock(acts)
    requires SameSetting(s, s')
    ensures WaiterTold(acts + [a], s')
  {
    var more := acts + [a];
    if s'.row.Delayed? {
      assert more[..s'.reg - 1] == if a.Register? then acts else acts[..s'.reg - 1];
    }
  }

  /******* When a wait ends *******/

  // Some write of what is awaited has become visible.
  ghost predicate Visible(serial: bool, acts: seq<Action>, s: State) {
    exists w, t: nat :: w in s.wakers && s.wakers[w].writes && ShownAt(serial, s.wakers[w].mode, acts, t, w)
  }

  lemma FactIsVisible(kind: Kind, serial: bool, deadline: nat, acts: seq<Action>, s: State)
    requires Reached(kind, serial, deadline, acts, s)
    ensures s.fact <==> Visible(serial, acts, s)
  {
    RunsKeep(kind, serial, deadline, acts, s);
    if s.fact {
      InstantsAreActions(kind, serial, deadline, acts, s, s.first);
      var k := s.wakers[s.first];
      assert ShownAt(serial, k.mode, acts, k.commit.value, s.first);
    }
    if Visible(serial, acts, s) {
      var w, t: nat :| w in s.wakers && s.wakers[w].writes && ShownAt(serial, s.wakers[w].mode, acts, t, w);
      InstantsAreActions(kind, serial, deadline, acts, s, w);
      assert s.wakers[w].commit == Some(t) && WakerOk(s, w);
    }
  }

  // A waiter that checks is over exactly if a write of what it awaits is visible; it
  // goes on to suspend itself otherwise.
  lemma CheckEndsIffVisible(kind: Kind, serial: bool, deadline: nat, acts: seq<Action>, s: State)
    requires Reached(kind, serial, deadline, acts, s)
    ensures Step(s, Check).Some? <==> s.waiter == Checking
    ensures s.waiter == Checking ==>
              && (Step(s, Check).value.waiter == Over <==> Visible(serial, acts, s))
              && (Step(s, Check).value.waiter == Intending <==> !Visible(serial, acts, s))
              && Step(s, Check).value.row == s.row && Step(s, Check).value.wakers == s.wakers
  {
    FactIsVisible(kind, serial, deadline, acts, s);
  }

  // Nobody is over a wait for something that was never written.
  lemma {:induction false} OverMeansVisible(kind: Kind, serial: bool, deadline: nat, acts: seq<Action>, s: State)
    requires Reached(kind, serial, deadline, acts, s) && s.waiter == Over
    ensures Visible(serial, acts, s)
    decreases |acts|
  {
    OverMeansFact(kind, serial, deadline, acts, s);
    FactIsVisible(kind, serial, deadline, acts, s);
  }

  lemma {:induction false} OverMeansFact(kind: Kind, serial: bool, deadline: nat, acts: seq<Action>, s: State)
    requires Reached(kind, serial, deadline, acts, s) && s.waiter == Over
    ensures s.fact
    decreases |acts|
  {
    var before := Run(Initial(kind, serial, deadline), acts[..|acts| - 1]).value;
    RunsKeep(kind, serial, deadline, acts[..|acts| - 1], before);
    WaiterMoves(before, acts[|acts| - 1]);
    TimeMoves(before, acts[|acts| - 1]);
    if before.waiter == Over {
      OverMeansFact(kind, serial, deadline, acts[..|acts| - 1], before);
    }
  }

  /******* What a waiter can do *******/

  // A waiter that suspends itself, is parked, and is then found by the one who writes
  // what it waits for, ends without its fallback.
  lemma WokenWaiterEnds(deadline: nat) returns (acts: seq<Action>, s: State)
    ensures Reached(Event, false, deadline, acts, s) && s.waiter == Over && s.clock == 0
  {
    var i := Initial(Event, false, deadline);
    acts, s := ParksItself(deadline);
    acts, s := WriteEvent(deadline, acts, s);
    assert s.wakers == map[1 := s.wakers[1]] && !Locked(s);
    acts, s := Then(i, acts, s, Scan(1));
    assert s.row == Delayed(0) && s.wakers == map[1 := s.wakers[1]] && !Locked(s);
    acts, s := FoundEnds(deadline, acts, s);
  }

  lemma ParksItself(deadline: nat) returns (acts: seq<Action>, s: State)
    ensures Reached(Event, false, deadline, acts, s) && s.waiter == Parked && s.row.Delayed? && s.link && !s.fact
    ensures s.wakers == map[] && s.clock == 0 && s.kind == Event && !s.serial
  {
    var i := Initial(Event, false, deadline);
    acts, s := Then(i, [], i, Check);
    acts, s := Then(i, acts, s, Register);
    acts, s := Then(i, acts, s, Recheck(9));
  }

  lemma FoundEnds(deadline: nat, before: seq<Action>, s0: State) returns (acts: seq<Action>, s: State)
    requires Reached(Event, false, deadline, before, s0) && s0.row == Delayed(0) && s0.clock == 0
    requires s0.fact && !Locked(s0)
    ensures Reached(Event, false, deadline, acts, s) && s.waiter == Over && s.clock == 0
  {
    var i := Initial(Event, false, deadline);
    acts, s := Then(i, before, s0, Promote);
    acts, s := Then(i, acts, s, Check);
  }

  // One that nobody finds ends when its fallback comes, if what it waits for is there.
  lemma FallbackEnds(kind: Kind, serial: bool, deadline: nat, acts: seq<Action>, s: State)
    returns (more: seq<Action>, s': State)
    requires Reached(kind, serial, deadline, acts, s) && s.waiter == Parked && s.fact && !Locked(s)
    ensures Reached(kind, serial, deadline, more, s') && s'.waiter == Over
    ensures s'.clock == if Unwoken(s) then s.row.until else s.clock
  {
    RunsKeep(kind, serial, deadline, acts, s);
    var i := Initial(kind, serial, deadline);
    var ms := if Unwoken(s) then s.row.until - s.clock else 0;
    more, s' := Then(i, acts, s, Tick(ms));
    assert s'.wakers == s.wakers && !Locked(s');
    more, s' := Then(i, more, s', Promote);
    more, s' := Then(i, more, s', Check);
  }

  // When each action is possible: the waiter by where it stands and its row, a waker by
  // its next statement, and a wake-up that found the row only while nobody locks it.
  predicate CanTake(s: State, a: Action) {
    match a
    case Tick(_) => true
    case Check => s.waiter == Checking
    case Register => s.waiter == Intending && s.row == Running
    case Recheck(w) => s.waiter == Rechecking && w !in s.wakers
    case Rejoin => s.waiter == SelfWaking && s.self.Some? && s.self.value in s.wakers
                   && s.wakers[s.self.value].pc == Finished
    case CrashWaiter => s.waiter != Over
    case Promote => s.row.Delayed? && s.row.until <= s.clock && !Locked(s)
    case Recover => s.waiter == Dead && s.row == Running
    case Begin(w, mode, writes) => w !in s.wakers && Fits(s.kind, mode, writes)
    case Commit(w) => w in s.wakers && s.wakers[w].pc == ToCommit
    case Look(w, _) => w in s.wakers && s.wakers[w].pc == ToLook
    case Scan(w) =>
      && w in s.wakers && s.wakers[w].pc == ToScan
      && (s.row.Delayed? && (s.link || (s.wakers[w].mode == Self && s.kind != Result)) ==> !Locked(s))
    case Close(w) => w in s.wakers && s.wakers[w].pc == Holding
    case CrashWaker(w) => w in s.wakers && s.wakers[w].pc != Finished
  }

  lemma StepsWhenPossible(s: State, a: Action)
    ensures Step(s, a).Some? <==> CanTake(s, a)
  {
  }

  // A crash takes the waiter out, wherever it stands, and nothing else; a crashed waiter
  // whose row is running again checks from the start.
  lemma CrashedWaiterRecovers(s: State)
    requires s.waiter != Over
    ensures Step(s, CrashWaiter) == Some(s.(waiter := Dead, time := s.time + 1))
    ensures s.waiter == Dead && s.row == Running ==>
              Step(s, Recover) == Some(s.(waiter := Checking, time := s.time + 1))
  {
  }
}
