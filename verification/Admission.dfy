/**
 * The scheduler in its own form: one object whose callbacks update its fields in
 * place. `View` is its abstract state; each method is proved equal to the step of
 * the same name.
 */
module Admission {
  import opened Wrappers
  import opened AdmissionSpec

  // The two ways a release ends, and the call that comes too late.
  lemma ReleaseCases(s: State, id: nat, userActive: bool)
    ensures id !in s.units ==> Release(s, id, userActive) == s
    ensures id in s.units ==>
              var hold := HoldFor(s, userActive, s.units[id].t0);
              Release(s, id, userActive) ==
              if hold > 0.0 then StartHold(EndUnit(s, id), id, hold) else Pump(FreeSlot(EndUnit(s, id), id))
  {
  }

  class Scheduler {
    const slots: nat
    var now: Ms
    var waiters: seq<Waiter>
    var running: int
    var held: int
    var escapedRunning: int
    var fgInFlight: int
    var fgLastLeave: Option<Ms>
    var wake: Option<Ms>
    var idle: map<nat, Ms>
    var units: map<nat, Running>
    var holds: map<nat, Ms>
    var fgOpen: set<nat>
    var nextId: nat
    var nextToken: nat
    ghost var fate: map<nat, Fate>
    ghost var log: seq<Admitted>

    ghost function View(): State
      reads this
    {
      State(slots, now, waiters, running, held, escapedRunning, fgInFlight, fgLastLeave, wake, idle,
            units, holds, fgOpen, nextId, nextToken, fate, log)
    }

    constructor (slots: nat, start: Ms)
      ensures View() == AdmissionSpec.Init(slots, start)
    {
      this.slots, now := slots, start;
      waiters, running, held, escapedRunning := [], 0, 0, 0;
      fgInFlight, fgLastLeave, wake := 0, None, None;
      idle, units, holds, fgOpen := map[], map[], map[], {};
      nextId, nextToken := 0, 0;
      fate, log := map[], [];
    }

    method ForegroundBusy() returns (busy: bool)
      ensures busy == Busy(View())
    {
      busy := fgInFlight > 0 || (fgLastLeave.Some? && now - fgLastLeave.value < FOREGROUND_GRACE_MS);
    }

    method ScanAged(age: Ms) returns (best: int)
      ensures best == OldestAged(waiters, now, age, |waiters|)
    {
      best := -1;
      for i := 0 to |waiters|
        invariant best == OldestAged(waiters, now, age, i)
      {
        if now - waiters[i].enq >= age && (best < 0 || waiters[i].enq < waiters[best].enq) {
          best := i;
        }
      }
    }

    method ScanRanked() returns (best: int)
      ensures best == BestRanked(waiters, |waiters|)
    {
      best := -1;
      for i := 0 to |waiters|
        invariant best == BestRanked(waiters, i)
      {
        if best < 0 || Before(waiters[i], waiters[best]) {
          best := i;
        }
      }
    }

    method ChooseNext() returns (p: Option<Pick>)
      ensures p == PickNext(View())
    {
      var busy := ForegroundBusy();
      if busy {
        if escapedRunning > 0 { return None; }
        var starved := ScanAged(MAX_FOREGROUND_WAIT_MS);
        return if starved < 0 then None else Some(Pick(starved, true));
      }
      var best := ScanAged(KIND_AGING_MS);
      if best < 0 {
        best := ScanRanked();
      }
      return if best < 0 then None else Some(Pick(best, false));
    }

    // Takes the waiter off the list.
    method TakeWaiter(i: nat) returns (w: Waiter)
      requires i < |waiters|
      modifies this`waiters
      ensures waiters == Without(old(waiters), i) && w == old(waiters)[i]
    {
      w := waiters[i];
      waiters := waiters[..i] + waiters[i + 1..];
    }

    // The slot it takes, and what is noted of it.
    method StartUnit(w: Waiter, escaped: bool)
      modifies this`running, this`escapedRunning, this`units, this`fate
      ensures running == old(running) + 1
      ensures escapedRunning == if escaped then old(escapedRunning) + 1 else old(escapedRunning)
      ensures units == old(units)[w.id := Running(escaped, now)] && fate == old(fate)[w.id := Started]
    {
      running := running + 1;
      if escaped {
        escapedRunning := escapedRunning + 1;
      }
      units := units[w.id := Running(escaped, now)];
      fate := fate[w.id := Started];
    }

    method AdmitOne(p: Pick)
      requires p.index < |waiters|
      modifies this
      ensures View() == Admit(old(View()), p)
    {
      ghost var busy := Busy(View());
      var w := TakeWaiter(p.index);
      StartUnit(w, p.escaped);
      log := log + [Admitted(w, now, p.escaped, busy)];
    }

    method DoPump()
      modifies this
      ensures View() == Pump(old(View()))
    {
      while running < slots && |waiters| > 0
        invariant PumpLoop(View()) == PumpLoop(old(View()))
        decreases |waiters|
      {
        var p := ChooseNext();
        if p.None? { break; }
        AdmitOne(p.value);
      }
      Rearm();
    }

    method Deadline() returns (at: Option<Ms>)
      ensures at == WakeAt(View())
    {
      at := if fgInFlight == 0 && fgLastLeave.Some? then Some(fgLastLeave.value + FOREGROUND_GRACE_MS) else None;
      if escapedRunning == 0 && running < slots {
        for i := 0 to |waiters|
          invariant at == EarliestDeadline(GraceEnd(View()), waiters, i)
        {
          var deadline := waiters[i].enq + MAX_FOREGROUND_WAIT_MS;
          at := if at.None? then Some(deadline) else Some(Min(at.value, deadline));
        }
      }
    }

    method Rearm()
      modifies this
      ensures View() == ArmWake(old(View()))
    {
      wake := None;
      if |waiters| == 0 && |idle| == 0 { return; }
      var busy := ForegroundBusy();
      if !busy { return; }
      var at := Deadline();
      if at.None? { return; }
      wake := Some(now + Max(0.0, at.value - now));
    }

    // The new waiter, before the pump.
    method AddWaiter(kind: UnitKind) returns (id: nat)
      modifies this`nextId, this`waiters, this`fate
      ensures id == old(nextId) && View() == Enqueue(old(View()), kind)
    {
      id := nextId;
      nextId := nextId + 1;
      waiters := waiters + [Waiter(id, kind, now)];
      fate := fate[id := Waiting];
    }

    method AcquireSlot(kind: UnitKind, aborted: bool) returns (id: nat)
      modifies this
      ensures id == old(nextId) && View() == Acquire(old(View()), kind, aborted)
    {
      if aborted {
        id := nextId;
        nextId := nextId + 1;
        fate := fate[id := Aborted];
      } else {
        id := AddWaiter(kind);
        DoPump();
      }
    }

    method FindWaiter(id: nat) returns (i: int)
      ensures i == IndexOf(waiters, id)
    {
      i := 0;
      while i < |waiters|
        invariant 0 <= i <= |waiters|
        invariant IndexOf(waiters, id) == if IndexOf(waiters[i..], id) < 0 then -1 else i + IndexOf(waiters[i..], id)
      {
        if waiters[i].id == id { return; }
        assert waiters[i..][1..] == waiters[i + 1..];
        i := i + 1;
      }
      i := -1;
    }

    method AbortSignal(id: nat)
      modifies this
      ensures View() == Abort(old(View()), id)
    {
      var i := FindWaiter(id);
      if i < 0 { return; }
      waiters := waiters[..i] + waiters[i + 1..];
      fate := fate[id := Aborted];
      Rearm();
    }

    method GiveBack(id: nat)
      modifies this
      ensures View() == Pump(FreeSlot(old(View()), id))
    {
      fate := fate[id := Finished];
      running := running - 1;
      DoPump();
    }

    method EndRunning(id: nat, userActive: bool) returns (hold: Ms)
      requires id in units
      modifies this
      ensures View() == EndUnit(old(View()), id)
      ensures hold == HoldFor(old(View()), userActive, old(units[id].t0))
    {
      var u := units[id];
      units := units - {id};
      if u.escaped {
        escapedRunning := escapedRunning - 1;
      }
      var factor := if slots == 1 then 1.0 else 0.25;
      hold := if userActive then Min(SLOW_MODE_MAX_HOLD_MS, factor * (now - u.t0)) else 0.0;
    }

    method ReleaseUnit(id: nat, userActive: bool)
      modifies this
      ensures View() == Release(old(View()), id, userActive)
    {
      ReleaseCases(View(), id, userActive);
      if id !in units { return; }
      var hold := EndRunning(id, userActive);
      if hold > 0.0 {
        held := held + 1;
        holds := holds[id := now + hold];
        fate := fate[id := Held];
      } else {
        GiveBack(id);
      }
    }

    // The hold is over; its slot is still to be given back.
    method EndHeld(id: nat)
      modifies this`holds, this`held
      ensures View() == EndHold(old(View()), id)
    {
      holds := holds - {id};
      held := held - 1;
    }

    method HoldTimer(id: nat)
      modifies this
      ensures View() == HoldFire(old(View()), id)
    {
      if id in holds {
        EndHeld(id);
        GiveBack(id);
      }
    }

    // The call itself, before the timer is looked at again.
    method BeginForeground() returns (token: nat)
      modifies this`nextToken, this`fgOpen, this`fgInFlight
      ensures token == old(nextToken)
      ensures View() ==
              old(View()).(fgInFlight := old(fgInFlight) + 1, fgOpen := old(fgOpen) + {token}, nextToken := token + 1)
    {
      token := nextToken;
      nextToken := nextToken + 1;
      fgOpen := fgOpen + {token};
      fgInFlight := fgInFlight + 1;
    }

    method EnterForeground() returns (token: nat)
      modifies this
      ensures token == old(nextToken) && View() == Enter(old(View()))
    {
      token := BeginForeground();
      Rearm();
    }

    // The leave itself, before the timer is looked at again.
    method EndForeground(token: nat)
      modifies this`fgOpen, this`fgInFlight, this`fgLastLeave
      ensures var n := old(fgInFlight) - 1;
              View() == old(View()).(fgInFlight := n, fgOpen := old(fgOpen) - {token},
                                     fgLastLeave := if n == 0 then Some(now) else old(fgLastLeave))
    {
      fgOpen := fgOpen - {token};
      fgInFlight := fgInFlight - 1;
      if fgInFlight == 0 {
        fgLastLeave := Some(now);
      }
    }

    method LeaveForeground(token: nat)
      modifies this
      ensures View() == Leave(old(View()), token)
    {
      if token in fgOpen {
        EndForeground(token);
        Rearm();
      }
    }

    // Adds an idle waiter with its cap timer.
    method AddIdle()
      modifies this`idle, this`nextToken
      ensures var token := old(nextToken);
              View() == old(View()).(idle := old(idle)[token := now + MAX_FOREGROUND_WAIT_MS], nextToken := token + 1)
    {
      idle := idle[nextToken := now + MAX_FOREGROUND_WAIT_MS];
      nextToken := nextToken + 1;
    }

    method ForegroundIdle(aborted: bool)
      modifies this
      ensures View() == IdleWait(old(View()), aborted)
    {
      if aborted { return; }
      var busy := ForegroundBusy();
      if busy {
        AddIdle();
        Rearm();
      }
    }

    method FinishIdle(token: nat)
      modifies this
      ensures View() == IdleEnd(old(View()), token)
    {
      idle := idle - {token};
    }

    method WakeTimer()
      modifies this
      ensures View() == WakeFire(old(View()))
    {
      wake := None;
      var busy := ForegroundBusy();
      if !busy {
        idle := map[];
      }
      DoPump();
    }
  }
}
