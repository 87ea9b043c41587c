/**
 * When nothing is left to start a waiter, and how long a waiter can wait.
 */
module AdmissionLiveness {
  import opened Wrappers
  import opened AdmissionSpec
  import opened AdmissionProofs

  // ---- No stranded waiter ------------------------------------------------------

  predicate FreeSlotAndWaiter(s: State) {
    |s.waiters| > 0 && s.running < s.slots
  }

  /** The wake timer is armed, and no later than t unless it is already due. */
  predicate WakesBy(s: State, t: Ms) {
    s.wake.Some? && (s.wake.value <= t || s.wake.value <= s.now)
  }

  /**
   * A waiter beside a free slot has something pending that will pump for it: while no
   * foreground call is in flight the wake timer at the end of the grace; while one is, the
   * wake timer at the first starvation deadline, or an escaped unit or a hold that is out.
   */
  ghost predicate Covered(s: State) {
    FreeSlotAndWaiter(s) ==>
      && (s.fgInFlight == 0 ==>
           s.fgLastLeave.Some? && s.wake.Some? && s.wake.value <= s.fgLastLeave.value + FOREGROUND_GRACE_MS)
      && (s.escapedRunning == 0 && s.held == 0 ==>
           forall k {:trigger s.waiters[k]} :: 0 <= k < |s.waiters| ==>
             WakesBy(s, s.waiters[k].enq + MAX_FOREGROUND_WAIT_MS))
  }

  /**
   * Re-arming the timer covers the waiters exactly when none of them stands beside a free
   * slot with the foreground no longer busy. The clock may have moved on since the last pick:
   * a grace that ends between the pick and the re-arm is what strands a waiter then.
   */
  lemma ArmCoversIff(s: State)
    requires s.fgInFlight >= 0
    ensures Covered(ArmWake(s)) <==> (FreeSlotAndWaiter(s) ==> Busy(s))
  {
    var r := ArmWake(s);
    if FreeSlotAndWaiter(s) && Busy(s) {
      forall k | 0 <= k < |r.waiters| && r.escapedRunning == 0
        ensures WakesBy(r, r.waiters[k].enq + MAX_FOREGROUND_WAIT_MS)
      {
        assert WakeAt(s).value <= s.waiters[k].enq + MAX_FOREGROUND_WAIT_MS;
      }
    }
  }

  lemma {:induction false} PumpLoopStops(s: State)
    ensures var r := PumpLoop(s);
            !CanPump(r) && r.now == s.now && r.idle == s.idle && r.held == s.held &&
            (Busy(r) <==> Busy(s)) && r.fgInFlight == s.fgInFlight && r.fgLastLeave == s.fgLastLeave
    decreases |s.waiters|
  {
    if CanPump(s) {
      PumpLoopStops(Admit(s, PickNext(s).value));
    }
  }

  /** While not busy, the pump stops only with every slot taken or nobody waiting. */
  lemma PumpIsWorkConserving(s: State)
    ensures var r := Pump(s); FreeSlotAndWaiter(r) ==> Busy(r)
    ensures var r := Pump(s);
            FreeSlotAndWaiter(r) && r.escapedRunning <= 0 ==>
              forall k :: 0 <= k < |r.waiters| ==> r.now - r.waiters[k].enq < MAX_FOREGROUND_WAIT_MS
  {
    PumpLoopStops(s);
  }

  lemma PumpCovers(s: State)
    requires s.fgInFlight >= 0
    ensures Covered(Pump(s))
  {
    PumpIsWorkConserving(s);
    PumpLoopStops(s);
    ArmCoversIff(PumpLoop(s));
  }

  lemma ReleaseCovers(s: State, id: nat, userActive: bool)
    requires Safe(s) && Covered(s)
    ensures Covered(Release(s, id, userActive))
  {
    if id in s.units {
      PumpCovers(FreeSlot(EndUnit(s, id), id));
      assert s.held == |s.holds|;
    }
  }

  lemma LeaveCovers(s: State, token: nat)
    requires Safe(s) && Covered(s)
    ensures Covered(Leave(s, token))
  {
    if token in s.fgOpen {
      assert |s.fgOpen - {token}| == s.fgInFlight - 1;
      var n := s.fgInFlight - 1;
      ArmCoversIff(s.(fgInFlight := n, fgOpen := s.fgOpen - {token},
                      fgLastLeave := if n == 0 then Some(s.now) else s.fgLastLeave));
    }
  }

  lemma EnterCovers(s: State)
    requires Safe(s)
    ensures Covered(Enter(s))
  {
    ArmCoversIff(s.(fgInFlight := s.fgInFlight + 1, fgOpen := s.fgOpen + {s.nextToken}, nextToken := s.nextToken + 1));
  }

  lemma IdleCovers(s: State, aborted: bool)
    requires s.fgInFlight >= 0 && Covered(s)
    ensures Covered(IdleWait(s, aborted))
  {
    if !aborted && Busy(s) {
      ArmBusy(s.(idle := s.idle[s.nextToken := s.now + MAX_FOREGROUND_WAIT_MS], nextToken := s.nextToken + 1));
    }
  }

  lemma ArmBusy(s: State)
    requires Busy(s) && s.fgInFlight >= 0
    ensures Covered(ArmWake(s))
  {
    ArmCoversIff(s);
  }

  /**
   * An abort re-arms the timer but never pumps. It keeps the rest covered exactly unless it
   * leaves a waiter beside a free slot with the foreground no longer busy.
   */
  lemma AbortCovers(s: State, id: nat)
    requires Safe(s) && IndexOf(s.waiters, id) >= 0
    ensures Covered(Abort(s, id)) <==>
            |s.waiters| == 1 || s.running >= s.slots || Busy(s)
  {
    ArmCoversIff(Drop(s, IndexOf(s.waiters, id)));
  }

  /** In a covered state that can only happen with a due wake timer still to run. */
  lemma AbortStrandsOnlyPastDueWake(s: State, id: nat)
    requires Safe(s) && Covered(s) && IndexOf(s.waiters, id) >= 0
    requires !Covered(Abort(s, id))
    ensures s.wake.Some? && s.wake.value <= s.now
  {
    AbortCovers(s, id);
  }

  lemma NextCovers(s: State, step: Step)
    requires Safe(s) && Covered(s) && Legal(s, step) && WakeBeforeAbort(s, step)
    ensures Covered(Next(s, step))
  {
    match step
    case DoAcquire(kind, aborted) => PumpCovers(Enqueue(s, kind));
    case DoAbort(id) =>
      if IndexOf(s.waiters, id) >= 0 {
        if !Covered(Abort(s, id)) {
          AbortStrandsOnlyPastDueWake(s, id);
        }
      }
    case DoRelease(id, userActive) => ReleaseCovers(s, id, userActive);
    case DoHoldFire(id) => PumpCovers(FreeSlot(EndHold(s, id), id));
    case DoWakeFire =>
      var s1 := s.(wake := None);
      PumpCovers(if Busy(s1) then s1 else s1.(idle := map[]));
    case DoEnter => EnterCovers(s);
    case DoLeave(token) => LeaveCovers(s, token);
    case DoIdleWait(aborted) => IdleCovers(s, aborted);
    case DoIdleEnd(token) =>
    case Tick(t) =>
  }

  lemma {:induction false} RunCovered(s: State, steps: seq<Step>)
    requires Safe(s) && Covered(s) && OrderedRun(s, steps)
    ensures Safe(Exec(s, steps)) && Covered(Exec(s, steps))
    decreases |steps|
  {
    if |steps| > 0 {
      NextSafe(s, steps[0]);
      NextCovers(s, steps[0]);
      RunCovered(Next(s, steps[0]), steps[1..]);
    }
  }

  /** No waiter is ever stranded, as long as a due wake timer runs before a later abort. */
  lemma NoStrandedWaiter(slots: nat, start: Ms, steps: seq<Step>)
    requires OrderedRun(Init(slots, start), steps)
    ensures Covered(Exec(Init(slots, start), steps))
  {
    RunCovered(Init(slots, start), steps);
  }

  /** Nobody is admitted under a foreground call before somebody is past the deadline. */
  lemma QueuesBehindForeground(s: State, kind: UnitKind)
    requires s.fgInFlight > 0
    requires forall k :: 0 <= k < |s.waiters| ==> s.waiters[k].enq == s.now
    ensures var r := Acquire(s, kind, false);
            r == s.(nextId := r.nextId, waiters := s.waiters + [Waiter(s.nextId, kind, s.now)],
                    fate := r.fate, wake := r.wake)
  {
    var s1 := Enqueue(s, kind);
    assert PickNext(s1).None?;
  }

  lemma LeaveThenAbort(s: State, token: nat)
    requires |s.waiters| == 2 && s.fgInFlight == 1 && s.running < s.slots && token in s.fgOpen
    ensures var left := Leave(s, token);
            !Covered(Abort(left.(now := left.now + FOREGROUND_GRACE_MS), s.waiters[0].id))
  {
    var left := Leave(s, token);
    var later := left.(now := left.now + FOREGROUND_GRACE_MS);
    assert IndexOf(later.waiters, s.waiters[0].id) == 0;
    ArmCoversIff(Drop(later, 0));
  }

  lemma TwoQueue(s0: State)
    requires |s0.waiters| == 0 && s0.fgInFlight == 0
    ensures var s3 := Acquire(Acquire(Enter(s0), Ingest, false), Ingest, false);
            |s3.waiters| == 2 && s3.waiters[0].id == s0.nextId && s3.fgInFlight == 1 &&
            s3.running == s0.running && s3.slots == s0.slots && s0.nextToken in s3.fgOpen
  {
    QueuesBehindForeground(Enter(s0), Ingest);
    QueuesBehindForeground(Acquire(Enter(s0), Ingest, false), Ingest);
  }

  /**
   * Without that rule a waiter can be stranded from any idle scheduler with a free slot: two
   * units queue behind a foreground call, the call leaves, its grace ends, and one unit's abort
   * runs before the due wake timer.
   */
  lemma AbortCanStrand(s0: State)
    requires |s0.waiters| == 0 && s0.fgInFlight == 0 && s0.running < s0.slots
    ensures var queued := Acquire(Acquire(Enter(s0), Ingest, false), Ingest, false);
            var left := Leave(queued, s0.nextToken);
            !Covered(Abort(left.(now := left.now + FOREGROUND_GRACE_MS), s0.nextId))
  {
    TwoQueue(s0);
    LeaveThenAbort(Acquire(Acquire(Enter(s0), Ingest, false), Ingest, false), s0.nextToken);
  }

  // ---- How long a waiter can wait -------------------------------------------------

  /**
   * A waiter beside a free slot: without a foreground call in flight the grace has not passed,
   * and without an escaped unit or a hold outstanding it has not waited beyond its deadline.
   */
  ghost predicate WaitBounded(s: State) {
    FreeSlotAndWaiter(s) ==>
      && (s.fgInFlight == 0 ==> s.fgLastLeave.Some? && s.now <= s.fgLastLeave.value + FOREGROUND_GRACE_MS)
      && (s.escapedRunning == 0 && s.held == 0 ==>
           forall k {:trigger s.waiters[k]} :: 0 <= k < |s.waiters| ==>
             s.now - s.waiters[k].enq <= MAX_FOREGROUND_WAIT_MS)
  }

  lemma PumpBounds(s: State)
    ensures WaitBounded(Pump(s))
  {
    PumpIsWorkConserving(s);
  }

  lemma ReleaseBounds(s: State, id: nat, userActive: bool)
    requires Safe(s) && WaitBounded(s)
    ensures WaitBounded(Release(s, id, userActive))
  {
    if id in s.units {
      PumpBounds(FreeSlot(EndUnit(s, id), id));
      assert s.held == |s.holds|;
    }
  }

  lemma AbortBounds(s: State, id: nat)
    requires WaitBounded(s)
    ensures WaitBounded(Abort(s, id))
  {
    var i := IndexOf(s.waiters, id);
    if i >= 0 {
      var ws := Without(s.waiters, i);
      assert forall k :: 0 <= k < |ws| ==> ws[k] == s.waiters[if k < i then k else k + 1];
    }
  }

  lemma LeaveBounds(s: State, token: nat)
    requires Safe(s) && WaitBounded(s)
    ensures WaitBounded(Leave(s, token))
  {
  }

  lemma TickBounds(s: State, t: Ms)
    requires Covered(s) && WaitBounded(s) && s.now <= t
    requires s.wake.Some? ==> t <= s.wake.value || t == s.now
    ensures WaitBounded(s.(now := t))
  {
    if FreeSlotAndWaiter(s) && s.escapedRunning == 0 && s.held == 0 {
      forall k | 0 <= k < |s.waiters| ensures t - s.waiters[k].enq <= MAX_FOREGROUND_WAIT_MS {
        assert WakesBy(s, s.waiters[k].enq + MAX_FOREGROUND_WAIT_MS);
      }
    }
  }

  lemma AcquireBounds(s: State, kind: UnitKind, aborted: bool)
    requires WaitBounded(s)
    ensures WaitBounded(Acquire(s, kind, aborted))
  {
    if !aborted {
      PumpBounds(Enqueue(s, kind));
    }
  }

  lemma WakeBounds(s: State)
    ensures WaitBounded(WakeFire(s))
  {
    var s1 := s.(wake := None);
    PumpBounds(if Busy(s1) then s1 else s1.(idle := map[]));
  }

  lemma QuietBounds(s: State, s': State)
    requires WaitBounded(s)
    requires s'.waiters == s.waiters && s'.now == s.now && s'.slots == s.slots && s'.running == s.running
    requires s'.escapedRunning == s.escapedRunning && s'.held == s.held && s'.fgLastLeave == s.fgLastLeave
    requires s'.fgInFlight == 0 ==> s.fgInFlight == 0
    ensures WaitBounded(s')
  {
  }

  lemma NextBounds(s: State, step: Step)
    requires Safe(s) && Covered(s) && WaitBounded(s)
    requires Legal(s, step) && WakeBeforeAbort(s, step) && Punctual(s, step)
    ensures WaitBounded(Next(s, step))
  {
    match step
    case DoAcquire(kind, aborted) => AcquireBounds(s, kind, aborted);
    case DoRelease(id, userActive) => ReleaseBounds(s, id, userActive);
    case DoHoldFire(id) => PumpBounds(FreeSlot(EndHold(s, id), id));
    case DoWakeFire => WakeBounds(s);
    case Tick(t) => TickBounds(s, t);
    case DoAbort(id) => AbortBounds(s, id);
    case DoLeave(token) => LeaveBounds(s, token);
    case DoEnter => QuietBounds(s, Next(s, step));
    case DoIdleWait(aborted) => QuietBounds(s, Next(s, step));
    case DoIdleEnd(token) => QuietBounds(s, Next(s, step));
  }

  lemma {:induction false} RunBounded(s: State, steps: seq<Step>)
    requires Safe(s) && Covered(s) && WaitBounded(s) && PunctualRun(s, steps)
    ensures WaitBounded(Exec(s, steps))
    decreases |steps|
  {
    if |steps| > 0 {
      NextSafe(s, steps[0]);
      NextCovers(s, steps[0]);
      NextBounds(s, steps[0]);
      RunBounded(Next(s, steps[0]), steps[1..]);
    }
  }

  /** With a punctual wake timer no waiter is kept from a free slot beyond its deadline. */
  lemma WaitIsBounded(slots: nat, start: Ms, steps: seq<Step>)
    requires PunctualRun(Init(slots, start), steps)
    ensures WaitBounded(Exec(Init(slots, start), steps))
  {
    RunBounded(Init(slots, start), steps);
  }

  // ---- Fates -----------------------------------------------------------------------

  /** A promise settles once: it starts or is aborted; a started unit ends, held or not. */
  predicate MayBecome(a: Fate, b: Fate) {
    match a
    case Waiting => true
    case Started => b == Started || b == Held || b == Finished
    case Held => b == Held || b == Finished
    case Finished => b == Finished
    case Aborted => b == Aborted
  }

  ghost predicate FatesMoveOn(a: map<nat, Fate>, b: map<nat, Fate>) {
    forall id {:trigger a[id]} :: id in a ==> id in b && MayBecome(a[id], b[id])
  }

  ghost predicate OnlyWaitingChange(a: map<nat, Fate>, b: map<nat, Fate>) {
    forall id {:trigger a[id]} :: id in a ==> id in b && (a[id] == b[id] || a[id] == Waiting)
  }

  lemma {:induction false} PumpLoopFates(s: State)
    requires Safe(s)
    ensures OnlyWaitingChange(s.fate, PumpLoop(s).fate)
    decreases |s.waiters|
  {
    if CanPump(s) {
      var p := PickNext(s).value;
      AdmitSafe(s);
      PumpLoopFates(Admit(s, p));
      AdmitFate(s, p);
      WaitingOnlyOnce(s.fate, Admit(s, p).fate, PumpLoop(s).fate);
    }
  }

  lemma AdmitFate(s: State, p: Pick)
    requires Safe(s) && p.index < |s.waiters|
    ensures OnlyWaitingChange(s.fate, Admit(s, p).fate)
  {
    assert Queued(s.waiters, s.waiters[p.index].id);
  }

  lemma WaitingOnlyOnce(a: map<nat, Fate>, b: map<nat, Fate>, c: map<nat, Fate>)
    requires OnlyWaitingChange(a, b) && OnlyWaitingChange(b, c)
    ensures OnlyWaitingChange(a, c)
  {
    forall id | id in a ensures id in c && (a[id] == c[id] || a[id] == Waiting) {
      assert id in b && (a[id] == b[id] || a[id] == Waiting);
    }
  }

  lemma PumpMovesOn(a: map<nat, Fate>, s: State)
    requires Safe(s) && FatesMoveOn(a, s.fate)
    ensures FatesMoveOn(a, Pump(s).fate)
  {
    PumpLoopFates(s);
    forall id | id in a ensures id in Pump(s).fate && MayBecome(a[id], Pump(s).fate[id]) {
      assert id in s.fate && MayBecome(a[id], s.fate[id]);
    }
  }

  lemma EndedFate(fate: map<nat, Fate>, id: nat, f: Fate)
    requires HasFate(fate, id, Started) && (f == Held || f == Finished)
    ensures FatesMoveOn(fate, fate[id := f])
  {
  }

  lemma ReleaseFates(s: State, id: nat, userActive: bool)
    requires Safe(s)
    ensures FatesMoveOn(s.fate, Release(s, id, userActive).fate)
  {
    if id in s.units {
      assert HasFate(s.fate, id, Started);
      EndedFate(s.fate, id, Held);
      EndedFate(s.fate, id, Finished);
      EndUnitSafe(s, id);
      PumpMovesOn(s.fate, FreeSlot(EndUnit(s, id), id));
    }
  }

  lemma HoldFireFates(s: State, id: nat)
    requires Safe(s)
    ensures FatesMoveOn(s.fate, HoldFire(s, id).fate)
  {
    if id in s.holds {
      HoldFreed(s, id);
      assert HasFate(s.fate, id, Held);
      PumpMovesOn(s.fate, FreeSlot(EndHold(s, id), id));
    }
  }

  lemma NewFate(fate: map<nat, Fate>, id: nat, f: Fate)
    requires id !in fate
    ensures FatesMoveOn(fate, fate[id := f])
  {
  }

  lemma AcquireFates(s: State, kind: UnitKind, aborted: bool)
    requires Safe(s)
    ensures FatesMoveOn(s.fate, Acquire(s, kind, aborted).fate)
  {
    assert s.nextId !in s.fate;
    if !aborted {
      NewFate(s.fate, s.nextId, Waiting);
      EnqueueSafe(s, kind);
      PumpMovesOn(s.fate, Enqueue(s, kind));
    }
  }

  lemma AbortFates(s: State, id: nat)
    requires Safe(s)
    ensures FatesMoveOn(s.fate, Abort(s, id).fate)
  {
    var i := IndexOf(s.waiters, id);
    if i >= 0 {
      assert Queued(s.waiters, s.waiters[i].id);
      assert HasFate(s.fate, id, Waiting);
      SettledFate(s.fate, id, Aborted);
    }
  }

  lemma SettledFate(fate: map<nat, Fate>, id: nat, f: Fate)
    requires HasFate(fate, id, Waiting) && MayBecome(Waiting, f)
    ensures FatesMoveOn(fate, fate[id := f])
  {
  }

  lemma WakeFireFates(s: State)
    requires Safe(s)
    ensures FatesMoveOn(s.fate, WakeFire(s).fate)
  {
    var s1 := s.(wake := None);
    PumpMovesOn(s.fate, if Busy(s1) then s1 else s1.(idle := map[]));
  }

  /** No step takes a settled promise back or settles it again. */
  lemma FatesSettleOnce(s: State, step: Step)
    requires Safe(s) && Legal(s, step)
    ensures FatesMoveOn(s.fate, Next(s, step).fate)
  {
    match step
    case DoAcquire(kind, aborted) => AcquireFates(s, kind, aborted);
    case DoAbort(id) => AbortFates(s, id);
    case DoRelease(id, userActive) => ReleaseFates(s, id, userActive);
    case DoHoldFire(id) => HoldFireFates(s, id);
    case DoWakeFire => WakeFireFates(s);
    case _ => SameFates(s, step);
  }

  lemma SameFates(s: State, step: Step)
    requires step.DoEnter? || step.DoLeave? || step.DoIdleWait? || step.DoIdleEnd? || step.Tick?
    ensures FatesMoveOn(s.fate, Next(s, step).fate)
  {
    assert Next(s, step).fate == s.fate;
  }
}
