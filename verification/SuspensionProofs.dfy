/** What every run of the suspension protocol keeps, and when a wake-up is lost. */
module SuspensionProofs {
  import opened Base
  import opened Suspension

  /******* The invariant *******/

  ghost predicate WaiterOk(s: State) {
    && s.reg < s.time && s.cut < s.time
    && (s.row.Delayed? ==>
          && (s.row.until == s.fallback || s.row.until <= s.clock)
          && s.since <= s.clock && s.fallback <= s.since + HORIZON
          && (s.kind != Result ==> s.fallback <= s.deadline))
    && (s.waiter == Checking || s.waiter == Intending || s.waiter == Over ==> s.row == Running)
    && (s.waiter == Rechecking || Rechecked(s) ==> s.row.Delayed?)
    && (Rechecked(s) ==> s.reg < s.checked < s.time)
  }

  // The current suspension has looked at the condition a second time.
  predicate Rechecked(s: State) {
    s.waiter == SelfWaking || s.waiter == Parked
  }

  // A waker taken alone: which instants it has, and in which order.
  ghost predicate ShapeOk(s: State, k: Waker) {
    && (k.commit.Some? ==> s.fact && k.commit.value < s.time && k.commit.value != s.reg)
    && (k.scan.Some? ==> k.scan.value < s.time && k.scan.value != s.reg)
    && (k.close.Some? ==> k.close.value < s.time && k.close.value != s.reg && k.scan.Some?)
    && (k.close.Some? && s.serial ==> k.scan == k.close)
    && (k.commit.Some? ==> k.writes)
    && (k.mode == Self ==> s.fact && !k.writes)
    && (k.mode != Self ==> Fits(s.kind, k.mode, k.writes))
    && (k.hit ==> k.scan.Some?)
    && (k.pc == ToCommit ==> k.commit.None? && k.mode != Self && k.mode != InTx)
    && (k.pc == ToCommit || k.pc == ToLook || k.pc == ToScan ==> k.scan.None? && k.close.None?)
    && (k.pc == ToLook ==> k.mode == Wake || (k.mode == Self && s.kind == Result))
    && (k.pc == ToScan || k.pc == Holding ==> k.mode != Silent)
    && (k.pc == Holding ==> k.scan.Some? && k.close.None? && !s.serial && !OneStatement(s, k))
    && (k.mode == Auto && k.writes && (k.pc == ToScan || k.scan.Some?) ==> k.commit.Some?)
    && (k.mode == Auto && k.scan.Some? && k.commit.Some? ==> k.commit.value < k.scan.value)
    && (k.mode == InTx && s.serial && k.writes && k.scan.Some? ==> k.commit == k.scan)
    && (k.mode == InTx && k.pc != Finished ==> k.commit.None?)
    && (k.pc == Finished && (k.mode == Auto || k.mode == InTx) ==> k.scan.Some?)
  }

  // It finds the waiter through its waiter row; a message or event waiter's own
  // wake-up does not need the row.
  predicate ByRow(s: State, k: Waker) {
    k.mode != Self || s.kind == Result
  }

  // A waker and the waiter: an UPDATE that ran after the registration found the
  // waiter exactly if it ran before the waiter row was deleted.
  ghost predicate ReachOk(s: State, k: Waker) {
    && (Locks(k) ==> s.row.Delayed? && After(k.scan, s.reg))
    && (s.row.Delayed? && k.pc == Finished && k.hit && After(k.scan, s.reg) ==> !Unwoken(s))
    && (s.row.Delayed? && After(k.scan, s.reg) && k.pc != Gone && !k.hit ==>
          ByRow(s, k) && !s.link && k.scan.value > s.cut)
    && (s.row.Delayed? && After(k.scan, s.reg) && k.hit && ByRow(s, k) && !s.link ==> k.scan.value <= s.cut)
    && (s.row.Delayed? && After(k.close, s.reg) ==> !s.link && k.close.value >= s.cut)
    && (s.waiter == Parked && s.self.None? ==> !Before(k.commit, s.checked) && k.mode != Self)
  }

  predicate After(t: Option<nat>, u: nat) {
    t.Some? && t.value > u
  }

  predicate Before(t: Option<nat>, u: nat) {
    t.Some? && t.value < u
  }

  // A wake-up of result waiters that began after the registration.
  predicate Late(s: State, w: nat)
    requires w in s.wakers
  {
    var k := s.wakers[w];
    s.kind == Result && s.row.Delayed?
      && ((k.mode == Wake && After(k.commit, s.reg)) || (Rechecked(s) && s.self == Some(w)))
  }

  // v read the waiter rows before the registration and deleted them after it.
  predicate Robs(s: State, v: nat) {
    v in s.wakers && Before(s.wakers[v].scan, s.reg) && After(s.wakers[v].close, s.reg)
  }

  ghost predicate LateOk(s: State, w: nat)
    requires w in s.wakers
  {
    var k := s.wakers[w];
    Late(s, w) && (k.pc == Finished || (k.pc == Holding && !k.hit)) && Unwoken(s) ==> !s.link
  }

  ghost predicate WakerOk(s: State, w: nat) {
    w in s.wakers ==> ShapeOk(s, s.wakers[w]) && ReachOk(s, s.wakers[w]) && LateOk(s, w)
  }

  // The wake-up the recheck started.
  ghost predicate SelfOk(s: State) {
    Rechecked(s) && s.self.Some? ==>
      && s.self.value in s.wakers
      && var k := s.wakers[s.self.value];
      && k.mode == Self
      && (s.waiter == Parked ==> k.pc == Finished)
      && (k.pc == Finished && s.kind != Result ==> After(k.scan, s.reg))
      && s.first in s.wakers && Before(s.wakers[s.first].commit, s.checked)
  }

  // The three witnesses the state carries.
  ghost predicate WitnessOk(s: State) {
    && (s.fact ==> s.first in s.wakers && s.wakers[s.first].commit.Some?)
    && (s.row.Delayed? && s.row.until != s.fallback ==>
          s.wokenBy in s.wakers && var k := s.wakers[s.wokenBy]; k.pc == Finished && k.hit && After(k.scan, s.reg))
    && (s.row.Delayed? && !s.link ==>
          && s.robber in s.wakers && s.wakers[s.robber].close == Some(s.cut) && s.cut > s.reg
          && (Unwoken(s) ==> Before(s.wakers[s.robber].scan, s.reg)))
  }

  ghost predicate Inv(s: State) {
    WaiterOk(s) && SelfOk(s) && WitnessOk(s) && forall w :: WakerOk(s, w)
  }

  /******* Every step keeps it *******/

  // A step of the waiter or of the clock, the wakers standing still.
  lemma RegisterOne(s: State, w: nat)
    requires WaiterOk(s) && WakerOk(s, w) && StepRegister(s).Some?
    ensures WakerOk(StepRegister(s).value, w)
  {
  }

  lemma RegisterKeeps(s: State)
    requires Inv(s) && StepRegister(s).Some?
    ensures Inv(StepRegister(s).value)
  {
    var s' := StepRegister(s).value;
    forall w ensures WakerOk(s', w) {
      assert WakerOk(s, w);
      RegisterOne(s, w);
    }
  }

  lemma PromoteKeeps(s: State)
    requires Inv(s) && StepPromote(s).Some?
    ensures Inv(StepPromote(s).value)
  {
    var s' := StepPromote(s).value;
    forall w ensures WakerOk(s', w) {
      assert WakerOk(s, w);
    }
  }

  lemma TickOne(s: State, ms: nat, w: nat)
    requires WaiterOk(s) && WakerOk(s, w)
    ensures WakerOk(Step(s, Tick(ms)).value, w)
  {
  }

  lemma TickKeeps(s: State, ms: nat)
    requires Inv(s)
    ensures Inv(Step(s, Tick(ms)).value)
  {
    var s' := Step(s, Tick(ms)).value;
    forall w ensures WakerOk(s', w) {
      assert WakerOk(s, w);
      TickOne(s, ms, w);
    }
  }

  lemma CrashWaiterOne(s: State, w: nat)
    requires WaiterOk(s) && WakerOk(s, w) && s.waiter != Over
    ensures WakerOk(Step(s, CrashWaiter).value, w)
  {
  }

  lemma CrashWaiterKeeps(s: State)
    requires Inv(s) && s.waiter != Over
    ensures Inv(Step(s, CrashWaiter).value)
  {
    var s' := Step(s, CrashWaiter).value;
    forall w ensures WakerOk(s', w) {
      assert WakerOk(s, w);
      CrashWaiterOne(s, w);
    }
  }

  lemma CheckKeeps(s: State, a: Action)
    requires Inv(s) && Step(s, a).Some? && (a.Check? || a.Recover?)
    ensures Inv(Step(s, a).value)
  {
    var s' := Step(s, a).value;
    forall w ensures WakerOk(s', w) {
      assert WakerOk(s, w);
    }
  }

  lemma RejoinOne(s: State, w: nat)
    requires WaiterOk(s) && WakerOk(s, w) && StepRejoin(s).Some?
    ensures WakerOk(StepRejoin(s).value, w)
  {
  }

  lemma RejoinKeeps(s: State)
    requires Inv(s) && StepRejoin(s).Some?
    ensures Inv(StepRejoin(s).value)
  {
    var s' := StepRejoin(s).value;
    forall w ensures WakerOk(s', w) {
      assert WakerOk(s, w);
      RejoinOne(s, w);
    }
  }

  lemma ParkKeeps(s: State, w: nat, v: nat)
    requires WaiterOk(s) && WakerOk(s, v) && StepRecheck(s, w).Some? && !s.fact
    ensures WakerOk(StepRecheck(s, w).value, v)
  {
  }

  lemma SelfWakeKeeps(s: State, w: nat, v: nat)
    requires WaiterOk(s) && WakerOk(s, v) && StepRecheck(s, w).Some? && s.fact
    ensures WakerOk(StepRecheck(s, w).value, v)
  {
  }

  lemma RecheckKeeps(s: State, w: nat)
    requires Inv(s) && StepRecheck(s, w).Some?
    ensures Inv(StepRecheck(s, w).value)
  {
    assert WakerOk(s, s.first);
    forall v ensures WakerOk(StepRecheck(s, w).value, v) {
      assert WakerOk(s, v);
      if s.fact { SelfWakeKeeps(s, w, v); } else { ParkKeeps(s, w, v); }
    }
  }

  // A step of waker w that leaves the waiter's own place alone.
  ghost predicate Quiet(s: State, s': State, w: nat) {
    && w in s'.wakers && s'.wakers == s.wakers[w := s'.wakers[w]]
    && s'.time == s.time + 1 && s'.clock == s.clock
    && (s'.kind, s'.serial, s'.deadline) == (s.kind, s.serial, s.deadline)
    && (s'.waiter, s'.self, s'.reg, s'.checked, s'.since, s'.fallback)
       == (s.waiter, s.self, s.reg, s.checked, s.since, s.fallback)
    && (s.fact ==> s'.fact)
    && (s'.row == s.row || (s.row.Delayed? && s'.row == Delayed(s.clock)))
    && (if s'.link == s.link then s'.cut == s.cut else s.link && s'.cut == s.time)
  }

  lemma BystanderKeeps(s: State, s': State, w: nat, v: nat)
    requires Quiet(s, s', w) && v != w && WakerOk(s, v)
    ensures WakerOk(s', v)
  {
  }

  lemma QuietKeeps(s: State, s': State, w: nat)
    requires Inv(s) && Quiet(s, s', w)
    requires WakerOk(s', w) && SelfOk(s') && WitnessOk(s')
    ensures Inv(s')
  {
    forall v ensures WakerOk(s', v) {
      if v != w {
        assert WakerOk(s, v);
        BystanderKeeps(s, s', w, v);
      }
    }
  }

  lemma BeginKeeps(s: State, w: nat, mode: Mode, writes: bool)
    requires Inv(s) && StepBegin(s, w, mode, writes).Some?
    ensures Inv(StepBegin(s, w, mode, writes).value)
  {
    QuietKeeps(s, StepBegin(s, w, mode, writes).value, w);
  }

  lemma CommitOne(s: State, w: nat)
    requires WaiterOk(s) && SelfOk(s) && WakerOk(s, w) && w in s.wakers && StepCommit(s, w).Some?
    ensures WakerOk(StepCommit(s, w).value, w)
  {
  }

  lemma CommitKeeps(s: State, w: nat)
    requires Inv(s) && w in s.wakers && StepCommit(s, w).Some?
    ensures Inv(StepCommit(s, w).value)
  {
    assert WakerOk(s, w) && WakerOk(s, s.first);
    CommitOne(s, w);
    QuietKeeps(s, StepCommit(s, w).value, w);
  }

  lemma LookOne(s: State, w: nat, others: bool)
    requires WaiterOk(s) && WitnessOk(s) && SelfOk(s) && WakerOk(s, w) && w in s.wakers && StepLook(s, w, others).Some?
    ensures WakerOk(StepLook(s, w, others).value, w)
  {
  }

  lemma LookKeeps(s: State, w: nat, others: bool)
    requires Inv(s) && w in s.wakers && StepLook(s, w, others).Some?
    ensures Inv(StepLook(s, w, others).value)
  {
    assert WakerOk(s, w);
    LookOne(s, w, others);
    QuietKeeps(s, StepLook(s, w, others).value, w);
  }

  // A wake-up that is one statement of its own.
  lemma StatementOne(s: State, w: nat)
    requires WaiterOk(s) && WitnessOk(s) && SelfOk(s) && WakerOk(s, w) && w in s.wakers && StepScan(s, w).Some?
             && OneStatement(s, s.wakers[w])
    ensures WakerOk(StepScan(s, w).value, w)
  {
  }

  lemma StatementKeeps(s: State, w: nat)
    requires Inv(s) && w in s.wakers && StepScan(s, w).Some? && OneStatement(s, s.wakers[w])
    ensures Inv(StepScan(s, w).value)
  {
    assert WakerOk(s, w);
    StatementOne(s, w);
    QuietKeeps(s, StepScan(s, w).value, w);
  }

  lemma HoldOne(s: State, w: nat)
    requires WaiterOk(s) && WitnessOk(s) && SelfOk(s) && WakerOk(s, w) && w in s.wakers && StepScan(s, w).Some?
             && !OneStatement(s, s.wakers[w]) && !s.serial
    ensures WakerOk(StepScan(s, w).value, w)
  {
  }

  lemma HoldKeeps(s: State, w: nat)
    requires Inv(s) && w in s.wakers && StepScan(s, w).Some? && !OneStatement(s, s.wakers[w]) && !s.serial
    ensures Inv(StepScan(s, w).value)
  {
    assert WakerOk(s, w);
    HoldOne(s, w);
    QuietKeeps(s, StepScan(s, w).value, w);
  }

  lemma SerialWriteOne(s: State, w: nat)
    requires WaiterOk(s) && WitnessOk(s) && SelfOk(s) && WakerOk(s, w) && WakerOk(s, s.first)
    requires w in s.wakers && StepScan(s, w).Some? && s.serial && s.wakers[w].mode == InTx
    ensures WakerOk(StepScan(s, w).value, w)
  {
  }

  lemma SerialWriteKeeps(s: State, w: nat)
    requires Inv(s) && w in s.wakers && StepScan(s, w).Some? && s.serial && s.wakers[w].mode == InTx
    ensures Inv(StepScan(s, w).value)
  {
    assert WakerOk(s, w) && WakerOk(s, s.first);
    SerialWriteOne(s, w);
    QuietKeeps(s, StepScan(s, w).value, w);
  }

  lemma SerialWakeOne(s: State, w: nat)
    requires WaiterOk(s) && WitnessOk(s) && SelfOk(s) && WakerOk(s, w) && w in s.wakers && StepScan(s, w).Some?
             && s.serial
    requires s.wakers[w].mode != InTx && !OneStatement(s, s.wakers[w])
    ensures WakerOk(StepScan(s, w).value, w)
  {
  }

  lemma SerialWakeKeeps(s: State, w: nat)
    requires Inv(s) && w in s.wakers && StepScan(s, w).Some? && s.serial
    requires s.wakers[w].mode != InTx && !OneStatement(s, s.wakers[w])
    ensures Inv(StepScan(s, w).value)
  {
    assert WakerOk(s, w);
    SerialWakeOne(s, w);
    QuietKeeps(s, StepScan(s, w).value, w);
  }

  lemma CloseWriteOne(s: State, w: nat)
    requires WaiterOk(s) && WitnessOk(s) && SelfOk(s) && WakerOk(s, w) && WakerOk(s, s.first)
    requires w in s.wakers && StepClose(s, w).Some? && s.wakers[w].mode == InTx
    ensures WakerOk(StepClose(s, w).value, w)
  {
  }

  lemma CloseWriteKeeps(s: State, w: nat)
    requires Inv(s) && w in s.wakers && StepClose(s, w).Some? && s.wakers[w].mode == InTx
    ensures Inv(StepClose(s, w).value)
  {
    assert WakerOk(s, w) && WakerOk(s, s.first);
    CloseWriteOne(s, w);
    QuietKeeps(s, StepClose(s, w).value, w);
  }

  lemma CloseWakeOne(s: State, w: nat)
    requires WaiterOk(s) && WitnessOk(s) && SelfOk(s) && WakerOk(s, w) && w in s.wakers && StepClose(s, w).Some?
             && s.wakers[w].mode != InTx
    ensures WakerOk(StepClose(s, w).value, w)
  {
  }

  lemma CloseWakeKeeps(s: State, w: nat)
    requires Inv(s) && w in s.wakers && StepClose(s, w).Some? && s.wakers[w].mode != InTx
    ensures Inv(StepClose(s, w).value)
  {
    assert WakerOk(s, w);
    CloseWakeOne(s, w);
    QuietKeeps(s, StepClose(s, w).value, w);
  }

  lemma CrashOne(s: State, w: nat)
    requires WaiterOk(s) && WitnessOk(s) && SelfOk(s) && WakerOk(s, w) && w in s.wakers && StepCrashWaker(s, w).Some?
    ensures WakerOk(StepCrashWaker(s, w).value, w)
  {
  }

  lemma CrashKeeps(s: State, w: nat)
    requires Inv(s) && w in s.wakers && StepCrashWaker(s, w).Some?
    ensures Inv(StepCrashWaker(s, w).value)
  {
    assert WakerOk(s, w);
    CrashOne(s, w);
    QuietKeeps(s, StepCrashWaker(s, w).value, w);
  }

  lemma StepKeeps(s: State, a: Action)
    requires Inv(s) && Step(s, a).Some?
    ensures Inv(Step(s, a).value)
  {
    match a
    case Tick(ms) => TickKeeps(s, ms);
    case Register => RegisterKeeps(s);
    case Recheck(w) => RecheckKeeps(s, w);
    case Rejoin => RejoinKeeps(s);
    case Promote => PromoteKeeps(s);
    case CrashWaiter => CrashWaiterKeeps(s);
    case Begin(w, mode, writes) => BeginKeeps(s, w, mode, writes);
    case Commit(w) => CommitKeeps(s, w);
    case Look(w, others) => LookKeeps(s, w, others);
    case Scan(w) => ScanKeeps(s, w);
    case Close(w) => if s.wakers[w].mode == InTx { CloseWriteKeeps(s, w); } else { CloseWakeKeeps(s, w); }
    case CrashWaker(w) => CrashKeeps(s, w);
    case _ => CheckKeeps(s, a);
  }

  lemma ScanKeeps(s: State, w: nat)
    requires Inv(s) && w in s.wakers && StepScan(s, w).Some?
    ensures Inv(StepScan(s, w).value)
  {
    if OneStatement(s, s.wakers[w]) {
      StatementKeeps(s, w);
    } else if !s.serial {
      HoldKeeps(s, w);
    } else if s.wakers[w].mode == InTx {
      SerialWriteKeeps(s, w);
    } else {
      SerialWakeKeeps(s, w);
    }
  }

  // s can be reached.
  ghost predicate Reached(kind: Kind, serial: bool, deadline: nat, acts: seq<Action>, s: State) {
    Run(Initial(kind, serial, deadline), acts) == Some(s)
  }

  predicate SameSetting(s: State, s': State) {
    s'.kind == s.kind && s'.serial == s.serial && s'.deadline == s.deadline
  }

  lemma WakerConstants(s: State, a: Action)
    requires (a.Commit? || a.Look? || a.Scan? || a.Close? || a.CrashWaker?) && StepWaker(s, a).Some?
    ensures SameSetting(s, StepWaker(s, a).value)
  {
  }

  lemma StepConstants(s: State, a: Action)
    requires Step(s, a).Some?
    ensures SameSetting(s, Step(s, a).value)
  {
    if a.Commit? || a.Look? || a.Scan? || a.Close? || a.CrashWaker? {
      WakerConstants(s, a);
    }
  }

  lemma InitialOk(kind: Kind, serial: bool, deadline: nat)
    ensures Inv(Initial(kind, serial, deadline))
  {
  }

  lemma {:induction false} RunsKeep(kind: Kind, serial: bool, deadline: nat, acts: seq<Action>, s: State)
    requires Reached(kind, serial, deadline, acts, s)
    ensures Inv(s) && SameSetting(Initial(kind, serial, deadline), s)
    decreases |acts|
  {
    if acts == [] {
      InitialOk(kind, serial, deadline);
    } else {
      var before := Run(Initial(kind, serial, deadline), acts[..|acts| - 1]).value;
      RunsKeep(kind, serial, deadline, acts[..|acts| - 1], before);
      StepKeeps(before, acts[|acts| - 1]);
      StepConstants(before, acts[|acts| - 1]);
    }
  }

  /******* No lost wake-up, and exactly when there is one *******/

  // Both sides are done, the condition holds, and the waiter is still suspended
  // with its fallback wake-up in the future.
  ghost predicate Settled(s: State) {
    && s.waiter == Parked && s.fact && s.clock < s.fallback
    && forall w | w in s.wakers :: s.wakers[w].pc == Finished
  }

  // Nothing that was written was visible when the waiter looked again.
  predicate Unseen(s: State) {
    forall w | w in s.wakers :: !Before(s.wakers[w].commit, s.checked)
  }

  // No wake-up has looked for waiters since the waiter registered.
  predicate Unscanned(s: State) {
    forall w | w in s.wakers :: !After(s.wakers[w].scan, s.reg)
  }

  // Some completion read the waiter rows before the registration and deleted them
  // after it, and every wake-up since has looked after that.
  ghost predicate Robbed(s: State) {
    exists v :: Robs(s, v) && AllLookAfter(s, s.wakers[v].close.value)
  }

  predicate AllLookAfter(s: State, t: nat) {
    forall w | w in s.wakers && After(s.wakers[w].scan, s.reg) :: s.wakers[w].scan.value > t
  }

  // In a settled wait that nobody woke, who looked too late looked after the cut.
  lemma MissesAreRobbed(s: State)
    requires Inv(s) && Settled(s) && Unwoken(s) && !s.link
    ensures Robbed(s)
  {
    forall w | w in s.wakers && After(s.wakers[w].scan, s.reg) ensures s.wakers[w].scan.value > s.cut {
      assert WakerOk(s, w);
    }
    assert Robs(s, s.robber) && AllLookAfter(s, s.wakers[s.robber].close.value);
  }

  lemma LinkedIsUnscanned(s: State)
    requires Inv(s) && Settled(s) && Unwoken(s) && s.link
    ensures Unscanned(s)
  {
    forall w | w in s.wakers ensures !After(s.wakers[w].scan, s.reg) {
      assert WakerOk(s, w);
    }
  }

  // Who was woken was found by a wake-up that no deletion preceded.
  lemma WokenIsNotRobbed(s: State)
    requires Inv(s) && Settled(s) && !Unwoken(s) && ByRow(s, s.wakers[s.wokenBy])
    ensures !Unscanned(s) && !Robbed(s)
  {
    assert WakerOk(s, s.wokenBy);
    forall v | Robs(s, v) ensures !AllLookAfter(s, s.wakers[v].close.value) {
      assert WakerOk(s, v);
    }
  }

  // A wait for a message or an event is lost exactly when no write was visible at
  // the recheck, and either nobody looked for the waiter after it registered or all
  // who did found its row deleted.
  lemma LostIff(kind: Kind, serial: bool, deadline: nat, acts: seq<Action>, s: State)
    requires kind != Result && Reached(kind, serial, deadline, acts, s) && Settled(s)
    ensures Unwoken(s) <==> Unseen(s) && (Unscanned(s) || Robbed(s))
  {
    RunsKeep(kind, serial, deadline, acts, s);
    if Unwoken(s) {
      assert s.self.Some? ==> WakerOk(s, s.self.value);
      forall w | w in s.wakers ensures !Before(s.wakers[w].commit, s.checked) {
        assert WakerOk(s, w);
      }
      if s.link { LinkedIsUnscanned(s); } else { MissesAreRobbed(s); }
    } else if Unseen(s) {
      assert WakerOk(s, s.wokenBy);
      WokenIsNotRobbed(s);
    }
  }

  lemma SerialRobsNobody(kind: Kind, deadline: nat, acts: seq<Action>, s: State, v: nat)
    requires Reached(kind, true, deadline, acts, s)
    ensures !Robs(s, v)
  {
    RunsKeep(kind, true, deadline, acts, s);
    assert WakerOk(s, v);
  }

  // Hence a writer that makes its write visible no later than it looks for waiters
  // loses nobody in a serial database, nor with two statements of its own unless a
  // completion deletes the row.
  lemma WriteThenWakeLosesNobody(kind: Kind, serial: bool, deadline: nat, acts: seq<Action>, s: State, w: nat)
    requires kind != Result && Reached(kind, serial, deadline, acts, s) && Settled(s)
    requires w in s.wakers && s.wakers[w].commit.Some?
    requires serial || (s.wakers[w].mode == Auto && forall v :: !Robs(s, v))
    ensures !Unwoken(s)
  {
    LostIff(kind, serial, deadline, acts, s);
    RunsKeep(kind, serial, deadline, acts, s);
    assert WakerOk(s, w);
    if serial {
      forall v ensures !Robs(s, v) { SerialRobsNobody(kind, deadline, acts, s, v); }
    }
    assert Unseen(s) ==> !Before(s.wakers[w].commit, s.checked);
    assert Unscanned(s) ==> !After(s.wakers[w].scan, s.reg);
  }

  // The awaited workflow ended only in ways that wake nobody, after the recheck.
  predicate EndedSilently(s: State) {
    forall w | w in s.wakers && s.wakers[w].commit.Some? ::
      s.wakers[w].mode == Silent && !Before(s.wakers[w].commit, s.checked)
  }

  // A wait for a result is lost exactly when the waiter was robbed, or when the
  // awaited workflow ended silently and nobody else woke its waiters.
  lemma ResultLostIff(serial: bool, deadline: nat, acts: seq<Action>, s: State)
    requires Reached(Result, serial, deadline, acts, s) && Settled(s)
    ensures Unwoken(s) <==> Robbed(s) || (Unscanned(s) && EndedSilently(s))
  {
    RunsKeep(Result, serial, deadline, acts, s);
    if Unwoken(s) {
      if s.link {
        LinkedIsUnscanned(s);
        forall w | w in s.wakers && s.wakers[w].commit.Some?
          ensures s.wakers[w].mode == Silent && !Before(s.wakers[w].commit, s.checked)
        {
          assert WakerOk(s, w) && (s.self.Some? ==> WakerOk(s, s.self.value));
        }
      } else {
        MissesAreRobbed(s);
      }
    } else {
      WokenIsNotRobbed(s);
    }
  }

  // If every ending wakes, being robbed is the only way, and no serial database
  // allows it.
  lemma ResultLostIffRobbed(serial: bool, deadline: nat, acts: seq<Action>, s: State)
    requires Reached(Result, serial, deadline, acts, s) && Settled(s)
    requires forall w | w in s.wakers :: s.wakers[w].mode != Silent
    ensures Unwoken(s) <==> Robbed(s)
    ensures serial ==> !Unwoken(s)
  {
    ResultLostIff(serial, deadline, acts, s);
    RunsKeep(Result, serial, deadline, acts, s);
    assert s.first in s.wakers && s.wakers[s.first].commit.Some?;
    if serial && Robbed(s) {
      var v :| Robs(s, v) && AllLookAfter(s, s.wakers[v].close.value);
      SerialRobsNobody(Result, deadline, acts, s, v);
    }
  }

  // Crashes anywhere: a suspended waiter's wake-up time is never later than the
  // fallback horizon and, for a message or an event, the deadline.
  lemma WakeUpIsBounded(kind: Kind, serial: bool, deadline: nat, acts: seq<Action>, s: State)
    requires Reached(kind, serial, deadline, acts, s) && s.row.Delayed?
    ensures s.row.until <= s.clock || s.row.until == s.fallback
    ensures s.since <= s.clock && s.fallback <= s.since + HORIZON
    ensures kind != Result ==> s.fallback <= deadline
  {
    RunsKeep(kind, serial, deadline, acts, s);
  }

  /******* Wake-ups that are lost *******/

  // One step further along a run that ends in s.
  lemma Then(init: State, acts: seq<Action>, s: State, a: Action) returns (more: seq<Action>, s': State)
    requires Run(init, acts) == Some(s) && Step(s, a).Some?
    ensures Run(init, more) == Some(s') && Step(s, a) == Some(s')
  {
    more, s' := acts + [a], Step(s, a).value;
    assert more[..|acts|] == acts;
  }

  // A waker that has looked for waiters before the waiter, which had found the
  // condition false, registered.
  lemma ScannedEarly(kind: Kind, mode: Mode, deadline: nat, acts: seq<Action>, s: State)
    returns (more: seq<Action>, s': State)
    requires Reached(kind, false, deadline, acts, s) && s.waiter == Intending && s.row == Running
    requires 0 in s.wakers && s.wakers[0].pc == ToScan && s.wakers[0].mode == mode && !OneStatement(s, s.wakers[0])
    requires s.wakers == map[0 := s.wakers[0]] && !s.serial && s.kind == kind
    ensures Reached(kind, false, deadline, more, s')
    ensures s' == Registered(s.(wakers := map[0 := s.wakers[0].(scan := Some(s.time), hit := false, pc := Holding)],
            time := s.time + 1))
  {
    var i := Initial(kind, false, deadline);
    more, s' := Then(i, acts, s, Scan(0));
    assert s'.wakers == map[0 := s.wakers[0].(scan := Some(s.time), hit := false, pc := Holding)];
    more, s' := Then(i, more, s', Register);
  }

  function Registered(s: State): State {
    s.(row := Delayed(Fallback(s)), fallback := Fallback(s), since := s.clock, link := true,
       reg := s.time, waiter := Rechecking, time := s.time + 1)
  }

  // SetEvent writes the event and looks for waiters in one transaction: a waiter
  // that registers and rechecks before that transaction commits sees no event and
  // is not seen.
  lemma EventOvertaken(deadline: nat) returns (acts: seq<Action>, s: State)
    requires deadline > 0
    ensures Reached(Event, false, deadline, acts, s) && Settled(s) && Unwoken(s)
  {
    var i := Initial(Event, false, deadline);
    acts, s := Then(i, [], i, Check);
    acts, s := Then(i, acts, s, Begin(0, InTx, true));
    assert s.wakers == map[0 := Waker(InTx, true, ToScan, None, None, false, None)];
    acts, s := ScannedEarly(Event, InTx, deadline, acts, s);
    acts, s := CommitsLate(deadline, acts, s);
  }

  lemma CommitsLate(deadline: nat, before: seq<Action>, s0: State) returns (acts: seq<Action>, s: State)
    requires Reached(Event, false, deadline, before, s0) && s0.waiter == Rechecking && !s0.fact && Unwoken(s0)
    requires s0.wakers.Keys == {0} && s0.wakers[0].mode == InTx && s0.wakers[0].writes
    requires s0.wakers[0].pc == Holding && !s0.wakers[0].hit
    ensures Reached(Event, false, deadline, acts, s) && s.waiter == Parked && s.fact && Unwoken(s)
    ensures s.clock == s0.clock && s.fallback == s0.fallback && s.wakers.Keys == {0} && s.wakers[0].pc == Finished
  {
    var i := Initial(Event, false, deadline);
    acts, s := Then(i, before, s0, Recheck(1));
    assert s == s0.(waiter := Parked, self := None, checked := s0.time, time := s0.time + 1);
    acts, s := Then(i, acts, s, Close(0));
  }

  // The target is cancelled and resumed; a refused completion of its old execution
  // reads the waiter rows, the waiter registers and rechecks in vain, the rows are
  // deleted, and the event is then set, on statements of its own, for nobody.
  lemma EventRowDeleted(deadline: nat) returns (acts: seq<Action>, s: State)
    requires deadline > 0
    ensures Reached(Event, false, deadline, acts, s) && Settled(s) && Unwoken(s)
    ensures Robs(s, 0) && 1 in s.wakers && s.wakers[1].mode == Auto && After(s.wakers[1].scan, s.reg)
  {
    var i := Initial(Event, false, deadline);
    acts, s := Refused(deadline);
    acts, s := ScannedEarly(Event, Wake, deadline, acts, s);
    acts, s := Then(i, acts, s, Recheck(9));
    acts, s := Then(i, acts, s, Close(0));
    assert s.wakers == map[0 := Waker(Wake, false, Finished, None, Some(5), false, Some(8))] && !s.link && Unwoken(s);
    acts, s := SetForNobody(deadline, acts, s);
  }

  lemma SetForNobody(deadline: nat, before: seq<Action>, s0: State) returns (acts: seq<Action>, s: State)
    requires Reached(Event, false, deadline, before, s0) && s0.kind == Event && !s0.link
    requires s0.wakers == map[0 := Waker(Wake, false, Finished, None, Some(5), false, Some(8))]
    ensures Reached(Event, false, deadline, acts, s) && s.fact && s.waiter == s0.waiter
    ensures s.row == s0.row && s.clock == s0.clock && s.fallback == s0.fallback && s.reg == s0.reg
    ensures s.wakers == s0.wakers[1 := Waker(Auto, true, Finished, Some(s0.time + 1), Some(s0.time + 2), false, None)]
  {
    var i := Initial(Event, false, deadline);
    acts, s := WriteEvent(deadline, before, s0);
    acts, s := Then(i, acts, s, Scan(1));
    assert s.wakers == s0.wakers[1 := Waker(Auto, true, Finished, Some(s0.time + 1), Some(s0.time + 2), false, None)];
  }

  lemma WriteEvent(deadline: nat, before: seq<Action>, s0: State) returns (acts: seq<Action>, s: State)
    requires Reached(Event, false, deadline, before, s0) && s0.kind == Event && 1 !in s0.wakers
    ensures Reached(Event, false, deadline, acts, s)
    ensures s == s0.(fact := true, first := s.first, time := s0.time + 2,
                     wakers := s0.wakers[1 := Waker(Auto, true, ToScan, Some(s0.time + 1), None, false, None)])
  {
    var i := Initial(Event, false, deadline);
    EventBegins(s0);
    acts, s := Then(i, before, s0, Begin(1, Auto, true));
    EventCommits(s);
    acts, s := Then(i, acts, s, Commit(1));
    assert s.wakers == s0.wakers[1 := Waker(Auto, true, ToScan, Some(s0.time + 1), None, false, None)];
  }

  lemma EventBegins(s: State)
    requires s.kind == Event && 1 !in s.wakers
    ensures var k := Waker(Auto, true, ToCommit, None, None, false, None);
            Step(s, Begin(1, Auto, true)) == Some(s.(time := s.time + 1, wakers := s.wakers[1 := k]))
  {
  }

  lemma EventCommits(s: State)
    requires 1 in s.wakers && s.wakers[1] == Waker(Auto, true, ToCommit, None, None, false, None)
    ensures var k := Waker(Auto, true, ToScan, Some(s.time), None, false, None);
            Step(s, Commit(1)) == Some(s.(fact := true, first := if s.fact then s.first else 1,
                                          time := s.time + 1, wakers := s.wakers[1 := k]))
  {
  }

  // A refused completion has found waiter rows.
  lemma Refused(deadline: nat) returns (acts: seq<Action>, s: State)
    ensures Reached(Event, false, deadline, acts, s)
    ensures s == Initial(Event, false, deadline).(time := 5, waiter := Intending,
                   wakers := map[0 := Waker(Wake, false, ToScan, None, None, false, None)])
  {
    var i := Initial(Event, false, deadline);
    acts, s := Then(i, [], i, Check);
    acts, s := Then(i, acts, s, Begin(0, Wake, false));
    assert s.wakers == map[0 := Waker(Wake, false, ToCommit, None, None, false, None)];
    acts, s := Then(i, acts, s, Commit(0));
    assert s.wakers == map[0 := Waker(Wake, false, ToLook, None, None, false, None)];
    acts, s := Then(i, acts, s, Look(0, true));
    assert s.wakers == map[0 := Waker(Wake, false, ToScan, None, None, false, None)];
  }

  // A completion that is waking other waiters deletes the row of one who
  // registered between its UPDATE and its DELETE; the newcomer's own wake-up then
  // finds no waiter rows and does nothing.
  lemma ResultWaiterRobbed(deadline: nat) returns (acts: seq<Action>, s: State)
    ensures Reached(Result, false, deadline, acts, s) && Settled(s) && Unwoken(s) && Robs(s, 0)
  {
    var i := Initial(Result, false, deadline);
    acts, s := Completing(deadline);
    acts, s := ScannedEarly(Result, Wake, deadline, acts, s);
    acts, s := Then(i, acts, s, Close(0));
    assert s.wakers == map[0 := Waker(Wake, true, Finished, Some(3), Some(5), false, Some(7))] && !s.link && Unwoken(s);
    acts, s := SelfWakeInVain(deadline, acts, s);
  }

  // The recheck sees the outcome, and the wake-up it starts sees no waiter rows.
  lemma SelfWakeInVain(deadline: nat, before: seq<Action>, s0: State) returns (acts: seq<Action>, s: State)
    requires Reached(Result, false, deadline, before, s0) && s0.waiter == Rechecking && s0.fact && !s0.link
             && s0.kind == Result
    requires s0.wakers == map[0 := Waker(Wake, true, Finished, Some(3), Some(5), false, Some(7))]
    ensures Reached(Result, false, deadline, acts, s) && s.waiter == Parked
    ensures s.row == s0.row && s.clock == s0.clock && s.fact && s.fallback == s0.fallback && s.reg == s0.reg
    ensures s.wakers == s0.wakers[1 := Waker(Self, false, Finished, None, None, false, None)]
  {
    var i := Initial(Result, false, deadline);
    acts, s := Then(i, before, s0, Recheck(1));
    acts, s := Then(i, acts, s, Look(1, false));
    assert s.wakers == map[0 := Waker(Wake, true, Finished, Some(3), Some(5), false, Some(7)),
           1 := Waker(Self, false, Finished, None, None, false, None)];
    acts, s := Then(i, acts, s, Rejoin);
  }

  // The awaited workflow has recorded its outcome and found waiters to wake.
  lemma Completing(deadline: nat) returns (acts: seq<Action>, s: State)
    ensures Reached(Result, false, deadline, acts, s)
    ensures s == Initial(Result, false, deadline).(time := 5, waiter := Intending, fact := true,
                   wakers := map[0 := Waker(Wake, true, ToScan, Some(3), None, false, None)])
  {
    var i := Initial(Result, false, deadline);
    acts, s := Then(i, [], i, Check);
    acts, s := Then(i, acts, s, Begin(0, Wake, true));
    assert s.wakers == map[0 := Waker(Wake, true, ToCommit, None, None, false, None)];
    acts, s := Then(i, acts, s, Commit(0));
    assert s.wakers == map[0 := Waker(Wake, true, ToLook, Some(3), None, false, None)];
    acts, s := Then(i, acts, s, Look(0, true));
    assert s.wakers == map[0 := Waker(Wake, true, ToScan, Some(3), None, false, None)];
  }

  // Cancelling or dead-lettering the awaited workflow wakes nobody: the waiter
  // sleeps on until its fallback, on any database.
  lemma CancelWakesNobody(serial: bool, deadline: nat) returns (acts: seq<Action>, s: State)
    ensures Reached(Result, serial, deadline, acts, s) && Settled(s) && Unwoken(s)
  {
    var i := Initial(Result, serial, deadline);
    acts, s := Then(i, [], i, Check);
    acts, s := Then(i, acts, s, Begin(0, Silent, true));
    assert s.wakers == map[0 := Waker(Silent, true, ToCommit, None, None, false, None)];
    acts, s := Then(i, acts, s, Register);
    acts, s := Then(i, acts, s, Recheck(1));
    acts, s := Then(i, acts, s, Commit(0));
    assert s.wakers == map[0 := Waker(Silent, true, Finished, Some(5), None, false, None)];
  }
}
