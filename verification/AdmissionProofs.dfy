/**
 * What the admission scheduler keeps in every reachable state, and in which order
 * it serves. Each invariant names only the fields it is about.
 */
module AdmissionProofs {
  import opened Wrappers
  import opened AdmissionSpec

  // ---- Slot accounting -------------------------------------------------------

  ghost function Escaped(units: map<nat, Running>): set<nat> {
    set id | id in units && units[id].escaped
  }

  ghost predicate SlotsOk(slots: nat, running: int, held: int, escapedRunning: int,
                          units: map<nat, Running>, holds: map<nat, Ms>) {
    && running == |units| + |holds| <= slots
    && held == |holds|
    && escapedRunning == |Escaped(units)| <= 1
  }

  ghost predicate ForegroundOk(fgInFlight: int, fgOpen: set<nat>, nextToken: nat) {
    fgInFlight == |fgOpen| && forall token :: token in fgOpen ==> token < nextToken
  }

  // Slow mode never keeps a slot longer than its cap.
  ghost predicate HoldsShort(holds: map<nat, Ms>, now: Ms) {
    forall id :: id in holds ==> holds[id] <= now + SLOW_MODE_MAX_HOLD_MS
  }

  // ---- Each acquire has exactly one fate --------------------------------------

  ghost predicate HasFate(fate: map<nat, Fate>, id: nat, f: Fate) {
    id in fate && fate[id] == f
  }

  ghost predicate Queued(ws: seq<Waiter>, id: nat) {
    exists k :: 0 <= k < |ws| && ws[k].id == id
  }

  ghost predicate Logged(log: seq<Admitted>, id: nat) {
    exists k :: 0 <= k < |log| && log[k].w.id == id
  }

  ghost predicate FatesOk(nextId: nat, fate: map<nat, Fate>, ws: seq<Waiter>,
                          units: map<nat, Running>, holds: map<nat, Ms>, log: seq<Admitted>) {
    && (forall id: nat :: id in fate <==> id < nextId)
    && (forall id: nat {:trigger Queued(ws, id)} {:trigger HasFate(fate, id, Waiting)} ::
         Queued(ws, id) <==> HasFate(fate, id, Waiting))
    && (forall id: nat {:trigger id in units} :: id in units <==> HasFate(fate, id, Started))
    && (forall id: nat {:trigger id in holds} :: id in holds <==> HasFate(fate, id, Held))
    && (forall id: nat {:trigger Logged(log, id)} :: Logged(log, id) <==>
         HasFate(fate, id, Started) || HasFate(fate, id, Held) || HasFate(fate, id, Finished))
  }

  // ---- Order of service --------------------------------------------------------

  predicate Earlier(a: Waiter, b: Waiter) { a.id < b.id && a.enq <= b.enq }

  predicate Arrived(w: Waiter, now: Ms) { w.enq <= now }

  ghost predicate Ordered(ws: seq<Waiter>, now: Ms) {
    && (forall i, j {:trigger Earlier(ws[i], ws[j])} :: 0 <= i < j < |ws| ==> Earlier(ws[i], ws[j]))
    && (forall i {:trigger Arrived(ws[i], now)} :: 0 <= i < |ws| ==> Arrived(ws[i], now))
  }

  /** Serving `e` while `x` was still waiting was fair to `x`. */
  predicate Fair(e: Admitted, x: Waiter) {
    x.id < e.w.id ==> !e.busy && Rank(e.w.kind) < Rank(x.kind) && e.at - x.enq < KIND_AGING_MS
  }

  /** Nothing starts against a busy foreground before its starvation deadline. */
  predicate Justified(e: Admitted) {
    && e.w.enq <= e.at
    && e.escaped == e.busy
    && (e.busy ==> e.at - e.w.enq >= MAX_FOREGROUND_WAIT_MS)
  }

  predicate Sooner(a: Admitted, b: Admitted) { a.w.id != b.w.id && a.at <= b.at }

  predicate Past(e: Admitted, now: Ms) { e.at <= now }

  ghost predicate LogOk(log: seq<Admitted>, ws: seq<Waiter>, now: Ms) {
    && (forall i {:trigger Justified(log[i])} :: 0 <= i < |log| ==> Justified(log[i]))
    && (forall i {:trigger Past(log[i], now)} :: 0 <= i < |log| ==> Past(log[i], now))
    && (forall i, j {:trigger Sooner(log[i], log[j])} :: 0 <= i < j < |log| ==> Sooner(log[i], log[j]))
    && (forall i, j {:trigger Fair(log[i], log[j].w)} :: 0 <= i < j < |log| ==> Fair(log[i], log[j].w))
    && (forall i, k {:trigger Fair(log[i], ws[k])} :: 0 <= i < |log| && 0 <= k < |ws| ==> Fair(log[i], ws[k]))
  }

  ghost predicate Safe(s: State) {
    && SlotsOk(s.slots, s.running, s.held, s.escapedRunning, s.units, s.holds)
    && ForegroundOk(s.fgInFlight, s.fgOpen, s.nextToken)
    && HoldsShort(s.holds, s.now)
    && FatesOk(s.nextId, s.fate, s.waiters, s.units, s.holds, s.log)
    && Ordered(s.waiters, s.now)
    && LogOk(s.log, s.waiters, s.now)
  }

  // ---- One admission -----------------------------------------------------------

  /** Whoever the pick goes ahead of is younger than the aging limit and of a lower rank. */
  lemma PickIsFair(s: State, k: nat)
    requires Ordered(s.waiters, s.now)
    requires PickNext(s).Some? && k < PickNext(s).value.index
    ensures var p := PickNext(s).value;
            !Busy(s) && Rank(s.waiters[p.index].kind) < Rank(s.waiters[k].kind) &&
            s.now - s.waiters[k].enq < KIND_AGING_MS
  {
    var p := PickNext(s).value.index;
    assert Earlier(s.waiters[k], s.waiters[p]);
  }

  /** A pick escapes exactly when the foreground is busy, alone and only past its deadline. */
  lemma PickIsJustified(s: State)
    requires PickNext(s).Some?
    ensures var p := PickNext(s).value;
            p.escaped == Busy(s) &&
            (Busy(s) ==> s.escapedRunning <= 0 && s.now - s.waiters[p.index].enq >= MAX_FOREGROUND_WAIT_MS)
  {
  }

  lemma QueuedWithout(ws: seq<Waiter>, i: nat)
    requires i < |ws|
    requires forall a, b {:trigger Earlier(ws[a], ws[b])} :: 0 <= a < b < |ws| ==> Earlier(ws[a], ws[b])
    ensures forall id :: Queued(Without(ws, i), id) <==> Queued(ws, id) && id != ws[i].id
  {
    var r := Without(ws, i);
    forall a, b | 0 <= a < b < |ws| ensures ws[a].id != ws[b].id {
      assert Earlier(ws[a], ws[b]);
    }
    forall id
      ensures Queued(r, id) <==> Queued(ws, id) && id != ws[i].id
    {
      if Queued(ws, id) && id != ws[i].id {
        var k :| 0 <= k < |ws| && ws[k].id == id;
        assert r[if k < i then k else k - 1] == ws[k];
      }
      if Queued(r, id) {
        var k :| 0 <= k < |r| && r[k].id == id;
        assert r[k] == ws[if k < i then k else k + 1];
      }
    }
  }

  lemma LoggedMore(log: seq<Admitted>, e: Admitted)
    ensures forall id :: Logged(log + [e], id) <==> Logged(log, id) || id == e.w.id
  {
    var more := log + [e];
    assert more[|log|] == e;
    forall id | Logged(log, id) ensures Logged(more, id) {
      var k :| 0 <= k < |log| && log[k].w.id == id;
      assert more[k].w.id == id;
    }
  }

  lemma QueuedMore(ws: seq<Waiter>, w: Waiter)
    ensures forall id :: Queued(ws + [w], id) <==> Queued(ws, id) || id == w.id
  {
    var more := ws + [w];
    assert more[|ws|] == w;
    forall id | Queued(ws, id) ensures Queued(more, id) {
      var k :| 0 <= k < |ws| && ws[k].id == id;
      assert more[k].id == id;
    }
  }

  lemma AdmitSlots(s: State, p: Pick)
    requires SlotsOk(s.slots, s.running, s.held, s.escapedRunning, s.units, s.holds)
    requires p.index < |s.waiters| && s.waiters[p.index].id !in s.units
    requires s.running < s.slots && (p.escaped ==> s.escapedRunning <= 0)
    ensures var r := Admit(s, p);
            SlotsOk(r.slots, r.running, r.held, r.escapedRunning, r.units, r.holds)
  {
    var id := s.waiters[p.index].id;
    var units := Admit(s, p).units;
    assert Escaped(units) == if p.escaped then Escaped(s.units) + {id} else Escaped(s.units);
  }

  lemma AdmitFates(s: State, p: Pick)
    requires FatesOk(s.nextId, s.fate, s.waiters, s.units, s.holds, s.log)
    requires Ordered(s.waiters, s.now) && p.index < |s.waiters|
    ensures var r := Admit(s, p); FatesOk(r.nextId, r.fate, r.waiters, r.units, r.holds, r.log)
  {
    assert Queued(s.waiters, s.waiters[p.index].id);
    QueuedWithout(s.waiters, p.index);
    LoggedMore(s.log, Admitted(s.waiters[p.index], s.now, p.escaped, Busy(s)));
  }

  lemma AdmitLog(s: State)
    requires FatesOk(s.nextId, s.fate, s.waiters, s.units, s.holds, s.log)
    requires Ordered(s.waiters, s.now) && LogOk(s.log, s.waiters, s.now) && PickNext(s).Some?
    ensures var r := Admit(s, PickNext(s).value); LogOk(r.log, r.waiters, r.now)
  {
    var p := PickNext(s).value;
    var r := Admit(s, p);
    var w := s.waiters[p.index];
    PickIsJustified(s);
    assert Arrived(w, s.now);
    forall k | 0 <= k < |r.waiters| ensures Fair(r.log[|s.log|], r.waiters[k]) {
      if k < p.index {
        PickIsFair(s, k);
      } else {
        assert Earlier(w, s.waiters[k + 1]);
      }
    }
    assert Queued(s.waiters, w.id);
    forall i | 0 <= i < |s.log| ensures Sooner(s.log[i], r.log[|s.log|]) && Fair(s.log[i], w) {
      assert Logged(s.log, s.log[i].w.id) && Past(s.log[i], s.now);
    }
  }

  lemma AdmitSafe(s: State)
    requires Safe(s) && CanPump(s)
    ensures Safe(Admit(s, PickNext(s).value))
  {
    var p := PickNext(s).value;
    PickIsJustified(s);
    assert Queued(s.waiters, s.waiters[p.index].id);
    AdmitSlots(s, p);
    AdmitFates(s, p);
    AdmitLog(s);
  }

  lemma {:induction false} PumpLoopSafe(s: State)
    requires Safe(s)
    ensures Safe(PumpLoop(s))
    decreases |s.waiters|
  {
    if CanPump(s) {
      AdmitSafe(s);
      PumpLoopSafe(Admit(s, PickNext(s).value));
    }
  }

  // ---- One callback ------------------------------------------------------------

  lemma EnqueueFates(s: State, w: Waiter)
    requires FatesOk(s.nextId, s.fate, s.waiters, s.units, s.holds, s.log) && w.id == s.nextId
    ensures FatesOk(s.nextId + 1, s.fate[w.id := Waiting], s.waiters + [w], s.units, s.holds, s.log)
  {
    QueuedMore(s.waiters, w);
  }

  lemma EnqueueOrder(s: State, w: Waiter)
    requires FatesOk(s.nextId, s.fate, s.waiters, s.units, s.holds, s.log) && w.id == s.nextId && w.enq == s.now
    requires Ordered(s.waiters, s.now) && LogOk(s.log, s.waiters, s.now)
    ensures Ordered(s.waiters + [w], s.now) && LogOk(s.log, s.waiters + [w], s.now)
  {
    forall i | 0 <= i < |s.log| ensures s.log[i].w.id < s.nextId {
      assert Logged(s.log, s.log[i].w.id);
    }
    forall k | 0 <= k < |s.waiters| ensures Earlier(s.waiters[k], w) {
      assert Queued(s.waiters, s.waiters[k].id) && Arrived(s.waiters[k], s.now);
    }
  }

  lemma EnqueueSafe(s: State, kind: UnitKind)
    requires Safe(s)
    ensures Safe(Enqueue(s, kind))
  {
    var w := Waiter(s.nextId, kind, s.now);
    EnqueueFates(s, w);
    EnqueueOrder(s, w);
  }

  lemma DropSafe(s: State, i: nat)
    requires Safe(s) && i < |s.waiters|
    ensures Safe(Drop(s, i))
  {
    QueuedWithout(s.waiters, i);
    assert Queued(s.waiters, s.waiters[i].id);
  }

  lemma EndUnitSlots(s: State, id: nat)
    requires SlotsOk(s.slots, s.running, s.held, s.escapedRunning, s.units, s.holds) && id in s.units
    ensures var r := EndUnit(s, id);
            SlotsOk(s.slots, s.running - 1, s.held, r.escapedRunning, r.units, s.holds)
  {
    var units := s.units - {id};
    assert units.Keys == s.units.Keys - {id};
    assert Escaped(units) == if s.units[id].escaped then Escaped(s.units) - {id} else Escaped(s.units);
  }

  lemma StartHoldFates(s: State, id: nat, due: Ms)
    requires FatesOk(s.nextId, s.fate, s.waiters, s.units, s.holds, s.log) && id in s.units
    ensures FatesOk(s.nextId, s.fate[id := Held], s.waiters, s.units - {id}, s.holds[id := due], s.log)
  {
  }

  lemma FinishFates(s: State, id: nat)
    requires FatesOk(s.nextId, s.fate, s.waiters, s.units, s.holds, s.log) && (id in s.units || id in s.holds)
    ensures FatesOk(s.nextId, s.fate[id := Finished], s.waiters, s.units - {id}, s.holds - {id}, s.log)
  {
  }

  lemma MoreHolds(holds: map<nat, Ms>, id: nat, due: Ms, now: Ms)
    requires id !in holds && HoldsShort(holds, now) && due <= now + SLOW_MODE_MAX_HOLD_MS
    ensures HoldsShort(holds[id := due], now) && |holds[id := due]| == |holds| + 1
  {
    assert holds[id := due].Keys == holds.Keys + {id};
  }

  lemma StartHoldSafe(s: State, id: nat, hold: Ms)
    requires Safe(s) && id in s.units && hold <= SLOW_MODE_MAX_HOLD_MS
    ensures Safe(StartHold(EndUnit(s, id), id, hold))
  {
    assert id !in s.holds;
    EndUnitSlots(s, id);
    MoreHolds(s.holds, id, s.now + hold, s.now);
    StartHoldFates(s, id, s.now + hold);
  }

  lemma EndUnitSafe(s: State, id: nat)
    requires Safe(s) && id in s.units
    ensures Safe(FreeSlot(EndUnit(s, id), id))
  {
    assert id !in s.holds;
    EndUnitSlots(s, id);
    FinishFates(s, id);
    assert s.holds - {id} == s.holds;
  }

  lemma ReleaseSafe(s: State, id: nat, userActive: bool)
    requires Safe(s)
    ensures Safe(Release(s, id, userActive))
  {
    if id in s.units {
      var hold := HoldFor(s, userActive, s.units[id].t0);
      if hold > 0.0 {
        StartHoldSafe(s, id, hold);
      } else {
        EndUnitSafe(s, id);
        PumpSafe(FreeSlot(EndUnit(s, id), id));
      }
    }
  }

  lemma PumpSafe(s: State)
    requires Safe(s)
    ensures Safe(Pump(s))
  {
    PumpLoopSafe(s);
    SameSafe(PumpLoop(s), Pump(s));
  }

  lemma HoldEnded(s: State, id: nat)
    requires SlotsOk(s.slots, s.running, s.held, s.escapedRunning, s.units, s.holds) && HoldsShort(s.holds, s.now)
    requires id in s.holds
    ensures SlotsOk(s.slots, s.running - 1, s.held - 1, s.escapedRunning, s.units, s.holds - {id})
    ensures HoldsShort(s.holds - {id}, s.now)
  {
    assert (s.holds - {id}).Keys == s.holds.Keys - {id};
  }

  lemma HoldFates(s: State, id: nat)
    requires FatesOk(s.nextId, s.fate, s.waiters, s.units, s.holds, s.log) && id in s.holds
    ensures FatesOk(s.nextId, s.fate[id := Finished], s.waiters, s.units, s.holds - {id}, s.log)
  {
    FinishFates(s, id);
    assert id !in s.units;
    assert s.units - {id} == s.units;
  }

  lemma HoldFreed(s: State, id: nat)
    requires Safe(s) && id in s.holds
    ensures Safe(FreeSlot(EndHold(s, id), id))
  {
    HoldEnded(s, id);
    HoldFates(s, id);
  }

  lemma HoldFireSafe(s: State, id: nat)
    requires Safe(s)
    ensures Safe(HoldFire(s, id))
  {
    if id in s.holds {
      HoldFreed(s, id);
      PumpLoopSafe(FreeSlot(EndHold(s, id), id));
    }
  }

  lemma RefusedFates(s: State)
    requires FatesOk(s.nextId, s.fate, s.waiters, s.units, s.holds, s.log)
    ensures FatesOk(s.nextId + 1, s.fate[s.nextId := Aborted], s.waiters, s.units, s.holds, s.log)
  {
  }

  lemma AcquireSafe(s: State, kind: UnitKind, aborted: bool)
    requires Safe(s)
    ensures Safe(Acquire(s, kind, aborted))
  {
    if aborted {
      RefusedFates(s);
    } else {
      EnqueueSafe(s, kind);
      PumpSafe(Enqueue(s, kind));
    }
  }

  // Timers and idle waits are no part of what is kept.
  lemma SameSafe(s: State, s': State)
    requires Safe(s) && s' == s.(wake := s'.wake, idle := s'.idle)
    ensures Safe(s')
  {
  }

  lemma AbortSafe(s: State, id: nat)
    requires Safe(s)
    ensures Safe(Abort(s, id))
  {
    var i := IndexOf(s.waiters, id);
    if i >= 0 {
      DropSafe(s, i);
      SameSafe(Drop(s, i), ArmWake(Drop(s, i)));
    }
  }

  lemma WakeFireSafe(s: State)
    requires Safe(s)
    ensures Safe(WakeFire(s))
  {
    var s1 := s.(wake := None);
    PumpLoopSafe(if Busy(s1) then s1 else s1.(idle := map[]));
  }

  lemma TickSafe(s: State, t: Ms)
    requires Safe(s) && s.now <= t
    ensures Safe(s.(now := t))
  {
    forall i | 0 <= i < |s.waiters| ensures Arrived(s.waiters[i], t) {
      assert Arrived(s.waiters[i], s.now);
    }
    forall i | 0 <= i < |s.log| ensures Past(s.log[i], t) {
      assert Past(s.log[i], s.now);
    }
  }

  // The foreground's own bookkeeping is all that an enter, a leave or an idle wait touches.
  lemma ForegroundSafe(s: State, s': State)
    requires Safe(s) && ForegroundOk(s'.fgInFlight, s'.fgOpen, s'.nextToken)
    requires s' == s.(fgInFlight := s'.fgInFlight, fgOpen := s'.fgOpen, fgLastLeave := s'.fgLastLeave,
                      nextToken := s'.nextToken, wake := s'.wake, idle := s'.idle)
    ensures Safe(s')
  {
  }

  lemma TokenOpened(n: int, open: set<nat>, token: nat)
    requires ForegroundOk(n, open, token)
    ensures ForegroundOk(n + 1, open + {token}, token + 1)
  {
    assert token !in open;
  }

  lemma EnterSafe(s: State)
    requires Safe(s)
    ensures Safe(Enter(s))
  {
    TokenOpened(s.fgInFlight, s.fgOpen, s.nextToken);
    ForegroundSafe(s, Enter(s));
  }

  lemma LeaveSafe(s: State, token: nat)
    requires Safe(s)
    ensures Safe(Leave(s, token))
  {
    if token in s.fgOpen {
      assert ForegroundOk(s.fgInFlight - 1, s.fgOpen - {token}, s.nextToken);
    }
    ForegroundSafe(s, Leave(s, token));
  }

  lemma IdleSafe(s: State, token: nat, aborted: bool)
    requires Safe(s)
    ensures Safe(IdleWait(s, aborted)) && Safe(IdleEnd(s, token))
  {
    ForegroundSafe(s, IdleWait(s, aborted));
    ForegroundSafe(s, IdleEnd(s, token));
  }

  lemma NextSafe(s: State, step: Step)
    requires Safe(s) && Legal(s, step)
    ensures Safe(Next(s, step))
  {
    match step
    case DoAcquire(kind, aborted) => AcquireSafe(s, kind, aborted);
    case DoAbort(id) => AbortSafe(s, id);
    case DoRelease(id, userActive) => ReleaseSafe(s, id, userActive);
    case DoHoldFire(id) => HoldFireSafe(s, id);
    case DoWakeFire => WakeFireSafe(s);
    case Tick(t) => TickSafe(s, t);
    case DoEnter => EnterSafe(s);
    case DoLeave(token) => LeaveSafe(s, token);
    case DoIdleWait(aborted) => IdleSafe(s, 0, aborted);
    case DoIdleEnd(token) => IdleSafe(s, token, false);
  }

  lemma {:induction false} RunSafe(s: State, steps: seq<Step>)
    requires Safe(s) && LegalRun(s, steps)
    ensures Safe(Exec(s, steps))
    decreases |steps|
  {
    if |steps| > 0 {
      NextSafe(s, steps[0]);
      RunSafe(Next(s, steps[0]), steps[1..]);
    }
  }

  /** Every reachable state accounts for its slots, its acquires and its order of service. */
  lemma ReachableSafe(slots: nat, start: Ms, steps: seq<Step>)
    requires LegalRun(Init(slots, start), steps)
    ensures Safe(Exec(Init(slots, start), steps))
  {
    RunSafe(Init(slots, start), steps);
  }
}
