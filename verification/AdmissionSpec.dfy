/**
 * The background admission scheduler as a state and one function per callback.
 * A callback runs at one instant, `now`; `Tick` is the only step that moves the
 * clock. The class in Admission.dfy updates its fields in place and is proved
 * equal to these functions; AdmissionProofs.dfy proves what they keep.
 */
module AdmissionSpec {
  import opened Wrappers

  type Ms = real

  const FOREGROUND_GRACE_MS: Ms := 300.0
  const MAX_FOREGROUND_WAIT_MS: Ms := 10000.0
  const KIND_AGING_MS: Ms := 5000.0
  const SLOW_MODE_MAX_HOLD_MS: Ms := 2000.0

  datatype UnitKind = Ingest | Convert | Reconcile | Redrive

  function Rank(kind: UnitKind): nat {
    match kind
    case Ingest => 0
    case Convert => 1
    case Reconcile => 2
    case Redrive => 3
  }

  // One acquire that has been neither admitted nor aborted.
  datatype Waiter = Waiter(id: nat, kind: UnitKind, enq: Ms)

  // An admitted unit whose release has not been called.
  datatype Running = Running(escaped: bool, t0: Ms)

  // One admission, in the order admissions happened.
  datatype Admitted = Admitted(w: Waiter, at: Ms, escaped: bool, busy: bool)

  datatype Pick = Pick(index: nat, escaped: bool)

  // Where an acquire stands: its promise is pending, resolved (the unit runs, its
  // slot is held, it is over) or rejected.
  datatype Fate = Waiting | Started | Held | Finished | Aborted

  datatype State = State(
    slots: nat,
    now: Ms,
    waiters: seq<Waiter>,
    running: int,
    held: int,
    escapedRunning: int,
    fgInFlight: int,
    fgLastLeave: Option<Ms>,
    wake: Option<Ms>,          // when the one wake timer is due
    idle: map<nat, Ms>,        // foregroundIdle callers, and when each cap timer is due
    units: map<nat, Running>,  // admitted and not released
    holds: map<nat, Ms>,       // released, slot kept by slow mode until then
    fgOpen: set<nat>,          // foreground calls that have not left
    nextId: nat,
    nextToken: nat,
    fate: map<nat, Fate>,      // what became of each acquire
    log: seq<Admitted>
  )

  function Init(slots: nat, now: Ms): State {
    State(slots, now, [], 0, 0, 0, 0, None, None, map[], map[], map[], {}, 0, 0, map[], [])
  }

  predicate Busy(s: State) {
    s.fgInFlight > 0 || (s.fgLastLeave.Some? && s.now - s.fgLastLeave.value < FOREGROUND_GRACE_MS)
  }

  /** Index of the longest-waiting of the first n waiters that has waited `age`, or -1. */
  function OldestAged(ws: seq<Waiter>, t: Ms, age: Ms, n: nat): (best: int)
    requires n <= |ws|
    ensures -1 <= best < n
    ensures best < 0 <==> forall k :: 0 <= k < n ==> t - ws[k].enq < age
    ensures best >= 0 ==> t - ws[best].enq >= age
    ensures best >= 0 ==> forall k :: 0 <= k < n ==> ws[best].enq <= ws[k].enq
    ensures best >= 0 ==> forall k :: 0 <= k < best ==> ws[best].enq < ws[k].enq
  {
    if n == 0 then -1 else
      var best := OldestAged(ws, t, age, n - 1);
      if t - ws[n - 1].enq >= age && (best < 0 || ws[n - 1].enq < ws[best].enq) then n - 1 else best
  }

  predicate Before(a: Waiter, b: Waiter) {
    Rank(a.kind) < Rank(b.kind) || (Rank(a.kind) == Rank(b.kind) && a.enq < b.enq)
  }

  /** Index of the first of the n best waiters by rank, then by arrival time, or -1. */
  function BestRanked(ws: seq<Waiter>, n: nat): (best: int)
    requires n <= |ws|
    ensures -1 <= best < n
    ensures best < 0 <==> n == 0
    ensures best >= 0 ==> forall k :: 0 <= k < n ==> !Before(ws[k], ws[best])
    ensures best >= 0 ==> forall k :: 0 <= k < best ==> Before(ws[best], ws[k])
  {
    if n == 0 then -1 else
      var best := BestRanked(ws, n - 1);
      if best < 0 || Before(ws[n - 1], ws[best]) then n - 1 else best
  }

  function PickNext(s: State): (p: Option<Pick>)
    ensures p.Some? ==> p.value.index < |s.waiters|
  {
    if Busy(s) then
      if s.escapedRunning > 0 then None else
        var best := OldestAged(s.waiters, s.now, MAX_FOREGROUND_WAIT_MS, |s.waiters|);
        if best < 0 then None else Some(Pick(best, true))
    else
      var aged := OldestAged(s.waiters, s.now, KIND_AGING_MS, |s.waiters|);
      if aged >= 0 then Some(Pick(aged, false)) else
        var best := BestRanked(s.waiters, |s.waiters|);
        if best < 0 then None else Some(Pick(best, false))
  }

  function Without(ws: seq<Waiter>, i: nat): seq<Waiter>
    requires i < |ws|
  {
    ws[..i] + ws[i + 1..]
  }

  function Admit(s: State, p: Pick): State
    requires p.index < |s.waiters|
  {
    var w := s.waiters[p.index];
    s.(waiters := Without(s.waiters, p.index),
       running := s.running + 1,
       escapedRunning := if p.escaped then s.escapedRunning + 1 else s.escapedRunning,
       units := s.units[w.id := Running(p.escaped, s.now)],
       fate := s.fate[w.id := Started],
       log := s.log + [Admitted(w, s.now, p.escaped, Busy(s))])
  }

  predicate CanPump(s: State) {
    s.running < s.slots && |s.waiters| > 0 && PickNext(s).Some?
  }

  /** The pump loop: admit while a slot is free and someone may start. */
  function PumpLoop(s: State): State
    decreases |s.waiters|
  {
    if CanPump(s) then PumpLoop(Admit(s, PickNext(s).value)) else s
  }

  function Min(a: Ms, b: Ms): Ms { if a <= b then a else b }

  function Max(a: Ms, b: Ms): Ms { if a <= b then b else a }

  /** The earliest of `at` and the starvation deadlines of the first n waiters; None is "never". */
  function EarliestDeadline(at: Option<Ms>, ws: seq<Waiter>, n: nat): (r: Option<Ms>)
    requires n <= |ws|
    ensures r.None? <==> at.None? && n == 0
    ensures at.Some? ==> r.value <= at.value
    ensures forall k :: 0 <= k < n ==> r.value <= ws[k].enq + MAX_FOREGROUND_WAIT_MS
    ensures r.Some? ==>
      (at.Some? && r.value == at.value) || exists k :: 0 <= k < n && r.value == ws[k].enq + MAX_FOREGROUND_WAIT_MS
  {
    if n == 0 then at else
      var r := EarliestDeadline(at, ws, n - 1);
      var deadline := ws[n - 1].enq + MAX_FOREGROUND_WAIT_MS;
      if r.None? then Some(deadline) else Some(Min(r.value, deadline))
  }

  function GraceEnd(s: State): Option<Ms> {
    if s.fgInFlight == 0 && s.fgLastLeave.Some? then Some(s.fgLastLeave.value + FOREGROUND_GRACE_MS) else None
  }

  function WakeAt(s: State): Option<Ms> {
    EarliestDeadline(GraceEnd(s), s.waiters,
                     if s.escapedRunning == 0 && s.running < s.slots then |s.waiters| else 0)
  }

  function ArmWake(s: State): State {
    if |s.waiters| == 0 && |s.idle| == 0 then s.(wake := None)
    else if !Busy(s) then s.(wake := None)
    else
      var at := WakeAt(s);
      s.(wake := if at.None? then None else Some(s.now + Max(0.0, at.value - s.now)))
  }

  function Pump(s: State): State {
    ArmWake(PumpLoop(s))
  }

  function Enqueue(s: State, kind: UnitKind): State {
    s.(nextId := s.nextId + 1, waiters := s.waiters + [Waiter(s.nextId, kind, s.now)],
       fate := s.fate[s.nextId := Waiting])
  }

  function Acquire(s: State, kind: UnitKind, aborted: bool): State {
    if aborted then s.(nextId := s.nextId + 1, fate := s.fate[s.nextId := Aborted])
    else Pump(Enqueue(s, kind))
  }

  function IndexOf(ws: seq<Waiter>, id: nat): (i: int)
    ensures -1 <= i < |ws|
    ensures i < 0 <==> forall k :: 0 <= k < |ws| ==> ws[k].id != id
    ensures i >= 0 ==> ws[i].id == id
  {
    if |ws| == 0 then -1
    else if ws[0].id == id then 0
    else
      var i := IndexOf(ws[1..], id);
      if i < 0 then (assert forall k :: 1 <= k < |ws| ==> ws[k] == ws[1..][k - 1]; -1) else i + 1
  }

  function Abort(s: State, id: nat): State {
    var i := IndexOf(s.waiters, id);
    if i < 0 then s
    else ArmWake(Drop(s, i))
  }

  function Drop(s: State, i: nat): State
    requires i < |s.waiters|
  {
    s.(waiters := Without(s.waiters, i), fate := s.fate[s.waiters[i].id := Aborted])
  }

  function HoldFor(s: State, userActive: bool, t0: Ms): Ms {
    var factor := if s.slots == 1 then 1.0 else 0.25;
    if userActive then Min(SLOW_MODE_MAX_HOLD_MS, factor * (s.now - t0)) else 0.0
  }

  // The release closure: an escaped unit gives its escape back at once.
  function EndUnit(s: State, id: nat): State
    requires id in s.units
  {
    s.(units := s.units - {id},
       escapedRunning := if s.units[id].escaped then s.escapedRunning - 1 else s.escapedRunning)
  }

  function StartHold(s: State, id: nat, hold: Ms): State {
    s.(held := s.held + 1, holds := s.holds[id := s.now + hold], fate := s.fate[id := Held])
  }

  function FreeSlot(s: State, id: nat): State {
    s.(running := s.running - 1, fate := s.fate[id := Finished])
  }

  function Release(s: State, id: nat, userActive: bool): State {
    if id !in s.units then s else
      var hold := HoldFor(s, userActive, s.units[id].t0);
      if hold > 0.0 then StartHold(EndUnit(s, id), id, hold)
      else Pump(FreeSlot(EndUnit(s, id), id))
  }

  function EndHold(s: State, id: nat): State {
    s.(holds := s.holds - {id}, held := s.held - 1)
  }

  function HoldFire(s: State, id: nat): State {
    if id !in s.holds then s else Pump(FreeSlot(EndHold(s, id), id))
  }

  function Enter(s: State): State {
    ArmWake(s.(fgInFlight := s.fgInFlight + 1, fgOpen := s.fgOpen + {s.nextToken}, nextToken := s.nextToken + 1))
  }

  function Leave(s: State, token: nat): State {
    if token !in s.fgOpen then s else
      var n := s.fgInFlight - 1;
      ArmWake(s.(fgInFlight := n, fgOpen := s.fgOpen - {token},
                 fgLastLeave := if n == 0 then Some(s.now) else s.fgLastLeave))
  }

  function IdleWait(s: State, aborted: bool): State {
    if aborted || !Busy(s) then s
    else ArmWake(s.(idle := s.idle[s.nextToken := s.now + MAX_FOREGROUND_WAIT_MS], nextToken := s.nextToken + 1))
  }

  // An idle waiter's own cap timer or its abort.
  function IdleEnd(s: State, token: nat): State {
    s.(idle := s.idle - {token})
  }

  function WakeFire(s: State): State {
    var s1 := s.(wake := None);
    Pump(if Busy(s1) then s1 else s1.(idle := map[]))
  }

  datatype Step =
    | DoAcquire(kind: UnitKind, aborted: bool)
    | DoAbort(id: nat)
    | DoRelease(id: nat, userActive: bool)
    | DoHoldFire(id: nat)
    | DoEnter
    | DoLeave(token: nat)
    | DoIdleWait(aborted: bool)
    | DoIdleEnd(token: nat)
    | DoWakeFire
    | Tick(t: Ms)

  function Next(s: State, step: Step): State {
    match step
    case DoAcquire(kind, aborted) => Acquire(s, kind, aborted)
    case DoAbort(id) => Abort(s, id)
    case DoRelease(id, userActive) => Release(s, id, userActive)
    case DoHoldFire(id) => HoldFire(s, id)
    case DoEnter => Enter(s)
    case DoLeave(token) => Leave(s, token)
    case DoIdleWait(aborted) => IdleWait(s, aborted)
    case DoIdleEnd(token) => IdleEnd(s, token)
    case DoWakeFire => WakeFire(s)
    case Tick(t) => s.(now := t)
  }

  /** What the platform promises: the clock never goes back and no timer fires early. */
  predicate Legal(s: State, step: Step) {
    match step
    case DoHoldFire(id) => id in s.holds && s.holds[id] <= s.now
    case DoWakeFire => s.wake.Some? && s.wake.value <= s.now
    case Tick(t) => s.now <= t
    case _ => true
  }

  /** A wake timer that is already due runs before a later abort callback. */
  predicate WakeBeforeAbort(s: State, step: Step) {
    step.DoAbort? && s.wake.Some? ==> s.now < s.wake.value
  }

  /** The wake timer is not late: the clock does not pass it unfired. */
  predicate Punctual(s: State, step: Step) {
    step.Tick? && s.wake.Some? ==> step.t <= s.wake.value || step.t == s.now
  }

  function Exec(s: State, steps: seq<Step>): State
    decreases |steps|
  {
    if |steps| == 0 then s else Exec(Next(s, steps[0]), steps[1..])
  }

  predicate LegalRun(s: State, steps: seq<Step>)
    decreases |steps|
  {
    |steps| == 0 || (Legal(s, steps[0]) && LegalRun(Next(s, steps[0]), steps[1..]))
  }

  predicate OrderedRun(s: State, steps: seq<Step>)
    decreases |steps|
  {
    |steps| == 0 ||
    (Legal(s, steps[0]) && WakeBeforeAbort(s, steps[0]) && OrderedRun(Next(s, steps[0]), steps[1..]))
  }

  predicate PunctualRun(s: State, steps: seq<Step>)
    decreases |steps|
  {
    |steps| == 0 ||
    (Legal(s, steps[0]) && WakeBeforeAbort(s, steps[0]) && Punctual(s, steps[0]) &&
     PunctualRun(Next(s, steps[0]), steps[1..]))
  }
}
