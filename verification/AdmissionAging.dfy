/**
 * A waiter that has aged: over every run, the admissions ahead of it are at most its position.
 */
module AdmissionAging {
  import opened Wrappers
  import opened AdmissionSpec
  import opened AdmissionProofs
  import opened AdmissionLiveness

  // ---- One pump -------------------------------------------------------------------------

  /** Of n admissions the k-th is the k-th waiter, up to position p; short of p exactly those are gone. */
  ghost predicate FrontServed(ws: seq<Waiter>, base: nat, p: nat, e: State, n: nat)
    requires p < |ws|
  {
    && |e.log| == base + n
    && (n <= p ==> e.waiters == ws[n..])
    && (forall i {:trigger e.log[i]} :: base <= i < base + n && i - base <= p ==> e.log[i].w == ws[i - base])
  }

  /**
   * Once the waiter at position p has aged, the pump serves strictly from the front up to and
   * including it.
   */
  lemma AgedServedFromFront(s: State, p: nat) returns (n: nat)
    requires Ordered(s.waiters, s.now) && p < |s.waiters| && s.now - s.waiters[p].enq >= KIND_AGING_MS
    ensures FrontServed(s.waiters, |s.log|, p, PumpLoop(s), n)
  {
    n := AgedServed(s, p, PumpLoop(s));
  }

  lemma {:induction false} AgedServed(s: State, p: nat, e: State) returns (n: nat)
    requires Ordered(s.waiters, s.now) && p < |s.waiters| && s.now - s.waiters[p].enq >= KIND_AGING_MS
    requires e == PumpLoop(s)
    ensures FrontServed(s.waiters, |s.log|, p, e, n)
    decreases |s.waiters|
  {
    if !CanPump(s) {
      n := 0;
      NoneServed(s, p);
    } else if p == 0 {
      n := FirstServed(s, e);
    } else {
      var s' := AgedHeadFirst(s, p);
      var m := AgedServed(s', p - 1, e);
      n := m + 1;
      ServedAfterHead(s, s', e, p, m);
    }
  }

  lemma FirstServed(s: State, e: State) returns (n: nat)
    requires Ordered(s.waiters, s.now) && CanPump(s) && s.now - s.waiters[0].enq >= KIND_AGING_MS && e == PumpLoop(s)
    ensures FrontServed(s.waiters, |s.log|, 0, e, n)
  {
    var s' := AgedHeadFirst(s, 0);
    n := |e.log| - |s.log|;
    HeadServed(s, s', e);
  }

  lemma NoneServed(s: State, p: nat)
    requires p < |s.waiters| && !CanPump(s)
    ensures FrontServed(s.waiters, |s.log|, p, PumpLoop(s), 0)
  {
  }

  lemma HeadServed(s: State, s': State, e: State)
    requires |s.waiters| > 0 && s'.log <= e.log && |s'.log| == |s.log| + 1 && s'.log[|s.log|].w == s.waiters[0]
    ensures FrontServed(s.waiters, |s.log|, 0, e, |e.log| - |s.log|)
  {
    assert e.log[|s.log|] == s'.log[|s.log|];
  }

  // The head first, and then the rest as the rest is served.
  lemma ServedAfterHead(s: State, s': State, e: State, p: nat, m: nat)
    requires 0 < p < |s.waiters| && s'.waiters == s.waiters[1..]
    requires s'.log <= e.log && |s'.log| == |s.log| + 1 && s'.log[|s.log|].w == s.waiters[0]
    requires FrontServed(s'.waiters, |s'.log|, p - 1, e, m)
    ensures FrontServed(s.waiters, |s.log|, p, e, m + 1)
  {
    forall i | |s.log| <= i < |s.log| + m + 1 && i - |s.log| <= p ensures e.log[i].w == s.waiters[i - |s.log|] {
      if i == |s.log| {
        assert e.log[i] == s'.log[i];
      } else {
        assert e.log[i].w == s'.waiters[i - |s'.log|];
      }
    }
  }

  lemma AgedHeadFirst(s: State, p: nat) returns (s': State)
    requires Ordered(s.waiters, s.now) && CanPump(s)
    requires p < |s.waiters| && s.now - s.waiters[p].enq >= KIND_AGING_MS
    ensures PumpLoop(s) == PumpLoop(s') && Ordered(s'.waiters, s'.now) && s'.log <= PumpLoop(s').log
    ensures s'.waiters == s.waiters[1..] && |s'.log| == |s.log| + 1 && s'.log[|s.log|].w == s.waiters[0] &&
            s'.now == s.now
    ensures p > 0 ==> s'.now - s'.waiters[p - 1].enq >= KIND_AGING_MS
  {
    AgedPicksHead(s, p);
    RestOrdered(s.waiters, s.now);
    s' := Admit(s, PickNext(s).value);
    PumpLoopLogs(s');
  }

  lemma RestOrdered(ws: seq<Waiter>, now: Ms)
    requires Ordered(ws, now) && |ws| > 0
    ensures Ordered(ws[1..], now)
  {
    forall a, b | 0 <= a < b < |ws| - 1 ensures Earlier(ws[1..][a], ws[1..][b]) {
      assert Earlier(ws[a + 1], ws[b + 1]);
    }
    forall a | 0 <= a < |ws| - 1 ensures Arrived(ws[1..][a], now) {
      assert Arrived(ws[a + 1], now);
    }
  }

  lemma AgedPicksHead(s: State, p: nat)
    requires Ordered(s.waiters, s.now) && CanPump(s)
    requires p < |s.waiters| && s.now - s.waiters[p].enq >= KIND_AGING_MS
    ensures PickNext(s).value.index == 0
  {
    if PickNext(s).value.index > 0 {
      if p > 0 {
        assert Earlier(s.waiters[0], s.waiters[p]);
      }
      PickIsFair(s, 0);
    }
  }

  lemma {:induction false} PumpLoopLogs(s: State)
    ensures s.log <= PumpLoop(s).log
    decreases |s.waiters|
  {
    if CanPump(s) {
      PumpLoopLogs(Admit(s, PickNext(s).value));
    }
  }

  // ---- One step ---------------------------------------------------------------------------

  // Admitted after at most p others, the log having had `base` entries.
  ghost predicate ServedBy(base: nat, x: Waiter, p: int, e: State) {
    exists k :: base <= k < |e.log| && e.log[k].w == x && k - base <= p
  }

  // Still waiting, and ahead in the list by as many admissions as there were.
  ghost predicate StillAt(base: nat, x: Waiter, p: int, e: State, q: nat) {
    q < |e.waiters| && e.waiters[q] == x && base <= |e.log| <= base + p - q
  }

  /** What becomes of a waiter at position p. */
  ghost predicate Ahead(base: nat, x: Waiter, p: int, e: State) {
    ServedBy(base, x, p, e) || HasFate(e.fate, x.id, Aborted) || exists q :: StillAt(base, x, p, e, q)
  }

  ghost predicate Aged(s: State, p: nat) {
    p < |s.waiters| && s.now - s.waiters[p].enq >= KIND_AGING_MS
  }

  lemma PumpAhead(s: State, base: nat, p: nat)
    requires Ordered(s.waiters, s.now) && Aged(s, p) && |s.log| == base
    ensures Ahead(base, s.waiters[p], p, Pump(s))
  {
    var n := AgedServedFromFront(s, p);
    var e := Pump(s);
    if n > p {
      assert e.log[base + p].w == s.waiters[p];
      assert ServedBy(base, s.waiters[p], p, e);
    } else {
      assert e.waiters[p - n] == s.waiters[p];
      assert StillAt(base, s.waiters[p], p, e, p - n);
    }
  }

  lemma AcquireAhead(s: State, kind: UnitKind, aborted: bool, p: nat)
    requires Safe(s) && Aged(s, p)
    ensures Ahead(|s.log|, s.waiters[p], p, Acquire(s, kind, aborted))
  {
    if aborted {
      assert StillAt(|s.log|, s.waiters[p], p, Acquire(s, kind, aborted), p);
    } else {
      EnqueueSafe(s, kind);
      PumpAhead(Enqueue(s, kind), |s.log|, p);
    }
  }

  lemma ReleaseAhead(s: State, id: nat, userActive: bool, p: nat)
    requires Safe(s) && Aged(s, p)
    ensures Ahead(|s.log|, s.waiters[p], p, Release(s, id, userActive))
  {
    ReleaseKeepsList(s, id, userActive);
    if id in s.units && HoldFor(s, userActive, s.units[id].t0) <= 0.0 {
      PumpAhead(FreeSlot(EndUnit(s, id), id), |s.log|, p);
    } else {
      assert StillAt(|s.log|, s.waiters[p], p, Release(s, id, userActive), p);
    }
  }

  lemma ReleaseKeepsList(s: State, id: nat, userActive: bool)
    ensures (id in s.units && HoldFor(s, userActive, s.units[id].t0) <= 0.0) ||
            (Release(s, id, userActive).waiters == s.waiters && Release(s, id, userActive).log == s.log)
  {
  }

  lemma WakeAhead(s: State, p: nat)
    requires Safe(s) && Aged(s, p)
    ensures Ahead(|s.log|, s.waiters[p], p, WakeFire(s))
  {
    var s1 := s.(wake := None);
    PumpAhead(if Busy(s1) then s1 else s1.(idle := map[]), |s.log|, p);
  }

  lemma AbortAhead(s: State, id: nat, p: nat)
    requires Safe(s) && Aged(s, p)
    ensures Ahead(|s.log|, s.waiters[p], p, Abort(s, id))
  {
    var i := IndexOf(s.waiters, id);
    if i < 0 {
      QuietAhead(s, s, p);
    } else {
      DropAhead(s, i, p, Abort(s, id));
    }
  }

  lemma DropAhead(s: State, i: nat, p: nat, e: State)
    requires i < |s.waiters| && Aged(s, p)
    requires e.waiters == Without(s.waiters, i) && e.log == s.log && e.fate == s.fate[s.waiters[i].id := Aborted]
    ensures Ahead(|s.log|, s.waiters[p], p, e)
  {
    if i == p {
      assert HasFate(e.fate, s.waiters[p].id, Aborted);
    } else {
      var q := if i < p then p - 1 else p;
      assert e.waiters[q] == s.waiters[p];
      assert StillAt(|s.log|, s.waiters[p], p, e, q);
    }
  }

  lemma QuietAhead(s: State, e: State, p: nat)
    requires Aged(s, p) && e.waiters == s.waiters && e.log == s.log
    ensures Ahead(|s.log|, s.waiters[p], p, e)
  {
    assert StillAt(|s.log|, s.waiters[p], p, e, p);
  }

  lemma QuietStep(s: State, step: Step)
    requires step.DoEnter? || step.DoLeave? || step.DoIdleWait? || step.DoIdleEnd? || step.Tick?
    ensures Next(s, step).waiters == s.waiters && Next(s, step).log == s.log
  {
  }

  lemma StepAhead(s: State, step: Step, p: nat)
    requires Safe(s) && Aged(s, p) && Legal(s, step)
    ensures Ahead(|s.log|, s.waiters[p], p, Next(s, step))
  {
    match step
    case DoAcquire(kind, aborted) => AcquireAhead(s, kind, aborted, p);
    case DoRelease(id, userActive) => ReleaseAhead(s, id, userActive, p);
    case DoHoldFire(id) => PumpAhead(FreeSlot(EndHold(s, id), id), |s.log|, p);
    case DoWakeFire => WakeAhead(s, p);
    case DoAbort(id) => AbortAhead(s, id, p);
    case _ =>
      QuietStep(s, step);
      QuietAhead(s, Next(s, step), p);
  }

  // ---- Every run ----------------------------------------------------------------------------

  ghost predicate Moves(s: State, e: State) {
    s.log <= e.log && s.now <= e.now
  }

  lemma {:induction false} PumpClock(s: State)
    ensures PumpLoop(s).now == s.now
    decreases |s.waiters|
  {
    if CanPump(s) {
      PumpClock(Admit(s, PickNext(s).value));
    }
  }

  lemma PumpMoves(s: State)
    ensures Moves(s, Pump(s))
  {
    PumpLoopLogs(s);
    PumpClock(s);
  }

  lemma ReleaseMoves(s: State, id: nat, userActive: bool)
    ensures Moves(s, Release(s, id, userActive))
  {
    if id in s.units {
      PumpMoves(FreeSlot(EndUnit(s, id), id));
    }
  }

  lemma WakeMoves(s: State)
    ensures Moves(s, WakeFire(s))
  {
    var s1 := s.(wake := None);
    PumpMoves(if Busy(s1) then s1 else s1.(idle := map[]));
  }

  lemma AbortMoves(s: State, id: nat)
    ensures Moves(s, Abort(s, id))
  {
  }

  lemma QuietMoves(s: State, step: Step)
    requires step.DoEnter? || step.DoLeave? || step.DoIdleWait? || step.DoIdleEnd? || step.Tick?
    requires Legal(s, step)
    ensures Moves(s, Next(s, step))
  {
  }

  lemma StepMoves(s: State, step: Step)
    requires Legal(s, step)
    ensures Moves(s, Next(s, step))
  {
    match step
    case DoAcquire(kind, aborted) => PumpMoves(Enqueue(s, kind));
    case DoRelease(id, userActive) => ReleaseMoves(s, id, userActive);
    case DoHoldFire(id) => PumpMoves(FreeSlot(EndHold(s, id), id));
    case DoWakeFire => WakeMoves(s);
    case DoAbort(id) => AbortMoves(s, id);
    case _ => QuietMoves(s, step);
  }

  // Served or aborted is for good.
  lemma {:induction false} OutcomeStays(s: State, steps: seq<Step>, base: nat, x: Waiter, p: int)
    requires Safe(s) && LegalRun(s, steps) && (ServedBy(base, x, p, s) || HasFate(s.fate, x.id, Aborted))
    ensures Ahead(base, x, p, Exec(s, steps))
    decreases |steps|
  {
    if |steps| > 0 {
      var next := Next(s, steps[0]);
      NextSafe(s, steps[0]);
      StepMoves(s, steps[0]);
      FatesSettleOnce(s, steps[0]);
      if ServedBy(base, x, p, s) {
        var k :| base <= k < |s.log| && s.log[k].w == x && k - base <= p;
        assert next.log[k].w == x;
      } else {
        assert MayBecome(s.fate[x.id], next.fate[x.id]);
      }
      OutcomeStays(next, steps[1..], base, x, p);
    }
  }

  lemma AheadLater(base: nat, x: Waiter, p: int, mid: State, q: nat, e: State)
    requires StillAt(base, x, p, mid, q) && Ahead(|mid.log|, x, q, e)
    ensures Ahead(base, x, p, e)
  {
    if ServedBy(|mid.log|, x, q, e) {
      var k :| |mid.log| <= k < |e.log| && e.log[k].w == x && k - |mid.log| <= q;
      assert base <= k && k - base <= p;
    } else if q' :| StillAt(|mid.log|, x, q, e, q') {
      assert StillAt(base, x, p, e, q');
    }
  }

  /**
   * However the run goes on, a waiter that has aged at position p is admitted after at most p
   * others, or aborted, or still waiting with a position that fell by every admission since.
   */
  lemma {:induction false} AgedWaitsForPosition(s: State, steps: seq<Step>, p: nat)
    requires Safe(s) && LegalRun(s, steps) && Aged(s, p)
    ensures Ahead(|s.log|, s.waiters[p], p, Exec(s, steps))
    decreases |steps|
  {
    if |steps| == 0 {
      QuietAhead(s, s, p);
    } else {
      var x, next := s.waiters[p], Next(s, steps[0]);
      NextSafe(s, steps[0]);
      StepAhead(s, steps[0], p);
      StepMoves(s, steps[0]);
      if q :| StillAt(|s.log|, x, p, next, q) {
        AgedWaitsForPosition(next, steps[1..], q);
        AheadLater(|s.log|, x, p, next, q, Exec(next, steps[1..]));
      } else {
        OutcomeStays(next, steps[1..], |s.log|, x, p);
      }
    }
  }
}
