/**
 * When a foregroundIdle wait ends: at its wake timer, within the grace, or at its cap.
 */
module AdmissionIdle {
  import opened Wrappers
  import opened AdmissionSpec
  import opened AdmissionProofs
  import opened AdmissionLiveness

  /** With no foreground call in flight, an idle wait has a wake timer within the grace. */
  ghost predicate IdleCovered(s: State) {
    s.idle != map[] && s.fgInFlight == 0 ==>
      s.fgLastLeave.Some? && s.wake.Some? && s.wake.value <= s.fgLastLeave.value + FOREGROUND_GRACE_MS
  }

  /** Re-arming covers the idle waits exactly unless the foreground is no longer busy. */
  lemma ArmIdleIff(s: State)
    requires s.fgInFlight >= 0
    ensures IdleCovered(ArmWake(s)) <==> (s.idle != map[] && s.fgInFlight == 0 ==> Busy(s))
  {
    assert s.idle != map[] <==> |s.idle| > 0;
  }

  lemma PumpIdleIff(s: State)
    requires s.fgInFlight >= 0
    ensures IdleCovered(Pump(s)) <==> (s.idle != map[] && s.fgInFlight == 0 ==> Busy(s))
    ensures Pump(s).idle == s.idle
  {
    PumpLoopStops(s);
    ArmIdleIff(PumpLoop(s));
  }

  // The callbacks that end with a re-arm and end no idle wait: an acquire, an abort that drops a
  // waiter, a release that frees its slot, and a hold that ends.
  predicate Rearms(s: State, step: Step) {
    match step
    case DoAcquire(_, aborted) => !aborted
    case DoAbort(id) => exists k :: 0 <= k < |s.waiters| && s.waiters[k].id == id
    case DoRelease(id, userActive) => id in s.units && (!userActive || s.now <= s.units[id].t0)
    case DoHoldFire(id) => id in s.holds
    case _ => false
  }

  lemma HoldIff(s: State, userActive: bool, t0: Ms)
    ensures HoldFor(s, userActive, t0) > 0.0 <==> userActive && s.now > t0
  {
  }

  lemma ReleaseIdle(s: State, id: nat, userActive: bool)
    requires s.fgInFlight >= 0 && IdleCovered(s)
    ensures IdleCovered(Release(s, id, userActive)) <==>
            !(Rearms(s, DoRelease(id, userActive)) && s.idle != map[] && s.fgInFlight == 0 && !Busy(s))
  {
    if id in s.units {
      HoldIff(s, userActive, s.units[id].t0);
      PumpIdleIff(FreeSlot(EndUnit(s, id), id));
    }
  }

  lemma AbortIdle(s: State, id: nat)
    requires s.fgInFlight >= 0 && IdleCovered(s)
    ensures IdleCovered(Abort(s, id)) <==>
            !(Rearms(s, DoAbort(id)) && s.idle != map[] && s.fgInFlight == 0 && !Busy(s))
  {
    var i := IndexOf(s.waiters, id);
    if i >= 0 {
      assert s.waiters[i].id == id;
      ArmIdleIff(Drop(s, i));
    }
  }

  lemma EnterIdle(s: State)
    requires s.fgInFlight >= 0
    ensures IdleCovered(Enter(s))
  {
    ArmIdleIff(s.(fgInFlight := s.fgInFlight + 1, fgOpen := s.fgOpen + {s.nextToken}, nextToken := s.nextToken + 1));
  }

  lemma IdleWaitIdle(s: State, aborted: bool)
    requires s.fgInFlight >= 0 && IdleCovered(s)
    ensures IdleCovered(IdleWait(s, aborted))
  {
    if !aborted && Busy(s) {
      ArmIdleIff(s.(idle := s.idle[s.nextToken := s.now + MAX_FOREGROUND_WAIT_MS], nextToken := s.nextToken + 1));
    }
  }

  lemma LeaveIdle(s: State, token: nat)
    requires Safe(s) && IdleCovered(s)
    ensures IdleCovered(Leave(s, token))
  {
    if token in s.fgOpen {
      var n := s.fgInFlight - 1;
      assert |s.fgOpen - {token}| == n;
      ArmIdleIff(s.(fgInFlight := n, fgOpen := s.fgOpen - {token},
                    fgLastLeave := if n == 0 then Some(s.now) else s.fgLastLeave));
    }
  }

  /** The wake timer ends every idle wait when the foreground is not busy, and none when it is. */
  lemma WakeEndsIdle(s: State)
    requires s.fgInFlight >= 0
    ensures var r := Next(s, DoWakeFire);
            (!Busy(s) ==> r.idle == map[]) && (Busy(s) ==> r.idle == s.idle) && IdleCovered(r)
  {
    var s1 := s.(wake := None);
    PumpIdleIff(if Busy(s1) then s1 else s1.(idle := map[]));
  }

  /**
   * A step leaves the idle waits covered exactly unless it is a callback that re-arms while the
   * foreground is no longer busy: then the timer that was to end them is dropped.
   */
  lemma StepIdleIff(s: State, step: Step)
    requires Safe(s) && IdleCovered(s) && Legal(s, step)
    ensures IdleCovered(Next(s, step)) <==>
            !(Rearms(s, step) && s.idle != map[] && s.fgInFlight == 0 && !Busy(s))
  {
    match step
    case DoAcquire(kind, aborted) =>
      if !aborted {
        PumpIdleIff(Enqueue(s, kind));
      }
    case DoAbort(id) => AbortIdle(s, id);
    case DoRelease(id, userActive) => ReleaseIdle(s, id, userActive);
    case DoHoldFire(id) => PumpIdleIff(FreeSlot(EndHold(s, id), id));
    case DoWakeFire => WakeEndsIdle(s);
    case DoEnter => EnterIdle(s);
    case DoLeave(token) => LeaveIdle(s, token);
    case DoIdleWait(aborted) => IdleWaitIdle(s, aborted);
    case DoIdleEnd(token) =>
    case Tick(t) =>
  }

  // ---- Over runs ------------------------------------------------------------------------------

  /** A wake timer that is already due runs before any later callback that re-arms it. */
  predicate Prompt(s: State, step: Step) {
    Rearms(s, step) && s.wake.Some? ==> s.now < s.wake.value
  }

  predicate PromptRun(s: State, steps: seq<Step>)
    decreases |steps|
  {
    |steps| == 0 || (Legal(s, steps[0]) && Prompt(s, steps[0]) && PromptRun(Next(s, steps[0]), steps[1..]))
  }

  lemma {:induction false} RunIdle(s: State, steps: seq<Step>)
    requires Safe(s) && IdleCovered(s) && PromptRun(s, steps)
    ensures IdleCovered(Exec(s, steps))
    decreases |steps|
  {
    if |steps| > 0 {
      NextSafe(s, steps[0]);
      StepIdleIff(s, steps[0]);
      RunIdle(Next(s, steps[0]), steps[1..]);
    }
  }

  /** Under that rule no idle wait is ever left without the timer that ends it. */
  lemma NoStrandedIdleWait(slots: nat, start: Ms, steps: seq<Step>)
    requires PromptRun(Init(slots, start), steps)
    ensures IdleCovered(Exec(Init(slots, start), steps))
  {
    RunSafe(Init(slots, start), []);
    RunIdle(Init(slots, start), steps);
  }

  /** With the timer never late either, none outlasts the grace while nothing is in flight. */
  ghost predicate IdleBounded(s: State) {
    s.idle != map[] && s.fgInFlight == 0 ==>
      s.fgLastLeave.Some? && s.now <= s.fgLastLeave.value + FOREGROUND_GRACE_MS
  }

  predicate TimelyRun(s: State, steps: seq<Step>)
    decreases |steps|
  {
    |steps| == 0 ||
    (Legal(s, steps[0]) && Prompt(s, steps[0]) && Punctual(s, steps[0]) && TimelyRun(Next(s, steps[0]), steps[1..]))
  }

  // The clock, the foreground and the idle waits are as they were.
  predicate SameIdle(s: State, r: State) {
    r.idle == s.idle && r.now == s.now && r.fgInFlight == s.fgInFlight && r.fgLastLeave == s.fgLastLeave
  }

  lemma PumpSameIdle(s: State)
    ensures SameIdle(s, Pump(s))
  {
    PumpLoopStops(s);
    PumpLoopClock(s);
  }

  lemma PumpLoopClock(s: State)
    ensures PumpLoop(s).now == s.now
  {
    PumpLoopStops(s);
  }

  lemma AcquireSameIdle(s: State, kind: UnitKind, aborted: bool)
    ensures SameIdle(s, Acquire(s, kind, aborted))
  {
    if !aborted {
      PumpSameIdle(Enqueue(s, kind));
    }
  }

  lemma ReleaseSameIdle(s: State, id: nat, userActive: bool)
    ensures SameIdle(s, Release(s, id, userActive))
  {
    if id in s.units {
      PumpSameIdle(FreeSlot(EndUnit(s, id), id));
    }
  }

  lemma HoldSameIdle(s: State, id: nat)
    ensures SameIdle(s, HoldFire(s, id))
  {
    if id in s.holds {
      PumpSameIdle(FreeSlot(EndHold(s, id), id));
    }
  }

  lemma AbortSameIdle(s: State, id: nat)
    ensures SameIdle(s, Abort(s, id))
  {
  }

  lemma WakeBounded(s: State)
    requires IdleBounded(s)
    ensures IdleBounded(WakeFire(s))
  {
    var s1 := s.(wake := None);
    PumpSameIdle(if Busy(s1) then s1 else s1.(idle := map[]));
  }

  lemma EnterBounded(s: State)
    requires s.fgInFlight >= 0
    ensures IdleBounded(Enter(s))
  {
  }

  lemma LeaveBounded(s: State, token: nat)
    requires IdleBounded(s)
    ensures IdleBounded(Leave(s, token))
  {
  }

  lemma IdleWaitBounded(s: State, aborted: bool)
    requires IdleBounded(s) && s.fgInFlight >= 0
    ensures IdleBounded(IdleWait(s, aborted))
  {
  }

  lemma TickBounded(s: State, t: Ms)
    requires IdleCovered(s) && IdleBounded(s) && Legal(s, Tick(t)) && Punctual(s, Tick(t))
    ensures IdleBounded(Next(s, Tick(t)))
  {
  }

  lemma StepIdleBounded(s: State, step: Step)
    requires Safe(s) && IdleCovered(s) && IdleBounded(s) && Legal(s, step) && Prompt(s, step) && Punctual(s, step)
    ensures IdleBounded(Next(s, step))
  {
    assert s.fgInFlight >= 0;
    match step
    case DoAcquire(kind, aborted) => AcquireSameIdle(s, kind, aborted);
    case DoAbort(id) => AbortSameIdle(s, id);
    case DoRelease(id, userActive) => ReleaseSameIdle(s, id, userActive);
    case DoHoldFire(id) => HoldSameIdle(s, id);
    case DoWakeFire => WakeBounded(s);
    case DoEnter => EnterBounded(s);
    case DoLeave(token) => LeaveBounded(s, token);
    case DoIdleWait(aborted) => IdleWaitBounded(s, aborted);
    case DoIdleEnd(token) =>
    case Tick(t) => TickBounded(s, t);
  }

  lemma {:induction false} RunIdleBounded(s: State, steps: seq<Step>)
    requires Safe(s) && IdleCovered(s) && IdleBounded(s) && TimelyRun(s, steps)
    ensures IdleBounded(Exec(s, steps))
    decreases |steps|
  {
    if |steps| > 0 {
      NextSafe(s, steps[0]);
      StepIdleIff(s, steps[0]);
      StepIdleBounded(s, steps[0]);
      RunIdleBounded(Next(s, steps[0]), steps[1..]);
    }
  }

  lemma IdleWaitIsBounded(slots: nat, start: Ms, steps: seq<Step>)
    requires TimelyRun(Init(slots, start), steps)
    ensures IdleBounded(Exec(Init(slots, start), steps))
  {
    RunSafe(Init(slots, start), []);
    RunIdleBounded(Init(slots, start), steps);
  }

  // ---- Without the rule ---------------------------------------------------------------------------

  // An idle wait behind a foreground call that leaves, and then the grace passes.
  function AfterGrace(s0: State): State {
    var left := Leave(IdleWait(Enter(s0), false), s0.nextToken);
    left.(now := left.now + FOREGROUND_GRACE_MS)
  }

  lemma WaitBehindCall(s0: State)
    requires s0.idle == map[] && s0.fgInFlight == 0
    ensures var s := IdleWait(Enter(s0), false);
            s.idle != map[] && s.fgInFlight == 1 && s0.nextToken in s.fgOpen
  {
    assert s0.nextToken + 1 in IdleWait(Enter(s0), false).idle;
  }

  lemma LeaveArms(s: State, token: nat)
    requires s.idle != map[] && s.fgInFlight == 1 && token in s.fgOpen
    ensures var left := Leave(s, token);
            left.idle == s.idle && left.fgInFlight == 0 && left.fgLastLeave == Some(s.now) && left.now == s.now
            && left.wake.Some? && left.wake.value <= s.now + FOREGROUND_GRACE_MS
  {
    var r := s.(fgInFlight := 0, fgOpen := s.fgOpen - {token}, fgLastLeave := Some(s.now));
    ArmIdleIff(r);
  }

  lemma GraceWithIdle(s0: State)
    requires s0.idle == map[] && s0.fgInFlight == 0
    ensures var s := AfterGrace(s0);
            s.idle != map[] && s.fgInFlight == 0 && !Busy(s) && Legal(s, DoWakeFire) && IdleCovered(s)
  {
    WaitBehindCall(s0);
    LeaveArms(IdleWait(Enter(s0), false), s0.nextToken);
  }

  /**
   * From any scheduler with no idle wait: an acquire that overtakes the due wake timer leaves an
   * idle wait with no timer but its cap, though the foreground is not busy. An abort is not needed.
   */
  lemma AcquireCanStrandIdle(s0: State, kind: UnitKind)
    requires s0.idle == map[] && s0.fgInFlight == 0
    ensures var r := Next(AfterGrace(s0), DoAcquire(kind, false));
            r.idle != map[] && r.fgInFlight == 0 && r.wake.None? && !IdleCovered(r)
  {
    GraceWithIdle(s0);
    var s := Enqueue(AfterGrace(s0), kind);
    PumpIdleIff(s);
    PumpSameIdle(s);
    PumpNotBusy(s);
  }

  lemma PumpNotBusy(s: State)
    requires !Busy(s)
    ensures Pump(s).wake.None?
  {
    PumpLoopStops(s);
  }

  // ---- How a wait starts ---------------------------------------------------------------------------

  /** A wait is taken up exactly when busy and not aborted, with a cap ten seconds on; else nothing changes. */
  lemma IdleWaitStarts(s: State, aborted: bool)
    ensures var r := Next(s, DoIdleWait(aborted));
            if Busy(s) && !aborted then
              r.idle == s.idle[s.nextToken := s.now + 10000.0] && r.nextToken == s.nextToken + 1
            else r == s
  {
  }
}
