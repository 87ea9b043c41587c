/**
 * What each call of the scheduler does, said without the functions that compute it.
 */
module AdmissionEffects {
  import opened Wrappers
  import opened AdmissionSpec
  import opened AdmissionProofs
  import opened AdmissionLiveness
  import opened AdmissionAging

  // ---- Who is picked --------------------------------------------------------------------

  /** Ingest before convert before reconcile before redrive. */
  lemma RankOrder()
    ensures Rank(Ingest) < Rank(Convert) < Rank(Reconcile) < Rank(Redrive)
  {
  }

  /** Busy is a foreground call in flight, or the last one left less than 300 ms ago. */
  lemma BusyIff(s: State)
    ensures Busy(s) <==> s.fgInFlight > 0 || (s.fgLastLeave.Some? && s.now < s.fgLastLeave.value + 300.0)
  {
  }

  /** With the foreground busy: nobody beside another escape, else the first past ten seconds. */
  lemma BusyPick(s: State)
    requires Busy(s)
    ensures PickNext(s).None? <==>
            s.escapedRunning > 0 || forall k :: 0 <= k < |s.waiters| ==> s.now - s.waiters[k].enq < 10000.0
    ensures PickNext(s).Some? ==>
              var i := PickNext(s).value.index;
              s.now - s.waiters[i].enq >= 10000.0
              && forall k :: 0 <= k < |s.waiters| ==> s.waiters[i].enq <= s.waiters[k].enq
  {
    var best := OldestAged(s.waiters, s.now, MAX_FOREGROUND_WAIT_MS, |s.waiters|);
    if best >= 0 {
      assert s.waiters[best].enq <= s.waiters[best].enq;
    }
  }

  /**
   * With it not busy: the longest waiting of those past five seconds, and only without any the
   * most urgent kind, the longest waiting of it.
   */
  lemma FreePick(s: State)
    requires !Busy(s)
    ensures PickNext(s).None? <==> |s.waiters| == 0
    ensures PickNext(s).Some? ==>
              var w := s.waiters[PickNext(s).value.index];
              !PickNext(s).value.escaped &&
              if exists k :: 0 <= k < |s.waiters| && s.now - s.waiters[k].enq >= 5000.0 then
                s.now - w.enq >= 5000.0 && forall k :: 0 <= k < |s.waiters| ==> w.enq <= s.waiters[k].enq
              else
                forall k :: 0 <= k < |s.waiters| ==>
                  Rank(w.kind) < Rank(s.waiters[k].kind)
                  || (w.kind == s.waiters[k].kind && w.enq <= s.waiters[k].enq)
  {
    var aged := OldestAged(s.waiters, s.now, KIND_AGING_MS, |s.waiters|);
    if aged >= 0 {
      assert s.now - s.waiters[aged].enq >= 5000.0;
    } else {
      BestIsUrgent(s.waiters);
    }
  }

  lemma BestIsUrgent(ws: seq<Waiter>)
    ensures var best := BestRanked(ws, |ws|);
            best >= 0 ==>
              forall k :: 0 <= k < |ws| ==>
                Rank(ws[best].kind) < Rank(ws[k].kind) || (ws[best].kind == ws[k].kind && ws[best].enq <= ws[k].enq)
  {
    var best := BestRanked(ws, |ws|);
    if best >= 0 {
      forall k | 0 <= k < |ws|
        ensures Rank(ws[best].kind) < Rank(ws[k].kind) || (ws[best].kind == ws[k].kind && ws[best].enq <= ws[k].enq)
      {
        assert !Before(ws[k], ws[best]);
        SameRank(ws[best].kind, ws[k].kind);
      }
    }
  }

  lemma SameRank(a: UnitKind, b: UnitKind)
    ensures Rank(a) == Rank(b) <==> a == b
  {
  }

  // ---- Acquire, abort, release ------------------------------------------------------------

  // The unit is queued, or was admitted at this instant.
  ghost predicate Taken(s: State, e: State, w: Waiter) {
    (exists k :: 0 <= k < |e.waiters| && e.waiters[k] == w) ||
    (exists i :: |s.log| <= i < |e.log| && e.log[i].w == w && e.log[i].at == s.now)
  }

  lemma {:induction false} PumpTakes(s: State, w: Waiter, k: nat)
    requires k < |s.waiters| && s.waiters[k] == w
    ensures Taken(s, PumpLoop(s), w)
    decreases |s.waiters|
  {
    if CanPump(s) {
      var p := PickNext(s).value;
      var s' := Admit(s, p);
      PumpLoopLogs(s');
      if p.index == k {
        assert PumpLoop(s').log[|s.log|] == s'.log[|s.log|];
      } else {
        var j := if k < p.index then k else k - 1;
        assert s'.waiters[j] == w;
        PumpTakes(s', w, j);
      }
    } else {
      assert s.waiters[k] == w;
    }
  }

  /** An acquire that is not aborted queues its unit, with its kind and time, or admits it now. */
  lemma AcquireTakes(s: State, kind: UnitKind)
    ensures var r := Next(s, DoAcquire(kind, false));
            r.nextId == s.nextId + 1 && Taken(s, r, Waiter(s.nextId, kind, s.now))
  {
    var e, w := Enqueue(s, kind), Waiter(s.nextId, kind, s.now);
    assert e.waiters[|s.waiters|] == w;
    PumpTakes(e, w, |s.waiters|);
    PumpKeepsIds(e);
  }

  lemma {:induction false} PumpKeepsIds(s: State)
    ensures PumpLoop(s).nextId == s.nextId
    decreases |s.waiters|
  {
    if CanPump(s) {
      PumpKeepsIds(Admit(s, PickNext(s).value));
    }
  }

  /** One that is aborted already is refused and changes nothing else. */
  lemma AcquireRefuses(s: State, kind: UnitKind)
    ensures Next(s, DoAcquire(kind, true)) == s.(nextId := s.nextId + 1, fate := s.fate[s.nextId := Aborted])
  {
  }

  predicate Waits(ws: seq<Waiter>, id: nat) {
    exists k :: 0 <= k < |ws| && ws[k].id == id
  }

  lemma Dropped(ws: seq<Waiter>, now: Ms, i: nat)
    requires Ordered(ws, now) && i < |ws|
    ensures |Without(ws, i)| == |ws| - 1 && !Waits(Without(ws, i), ws[i].id)
  {
    OneOfEach(ws, now, i);
    var rest := Without(ws, i);
    assert forall k :: 0 <= k < |rest| ==> rest[k] == ws[if k < i then k else k + 1];
  }

  lemma DropIs(s: State, i: nat)
    requires i < |s.waiters|
    ensures var r := ArmWake(Drop(s, i));
            HasFate(r.fate, s.waiters[i].id, Aborted) && r.waiters == Without(s.waiters, i)
            && r.log == s.log && r.running == s.running
  {
  }

  /** An abort drops the unit from the queue for good; a unit not queued is left alone. */
  lemma AbortDrops(s: State, id: nat)
    requires Ordered(s.waiters, s.now)
    ensures var r := Next(s, DoAbort(id));
            if Waits(s.waiters, id) then
              HasFate(r.fate, id, Aborted) && !Waits(r.waiters, id) && |r.waiters| == |s.waiters| - 1
              && r.log == s.log && r.running == s.running
            else r == s
  {
    var i := IndexOf(s.waiters, id);
    if i >= 0 {
      assert s.waiters[i].id == id;
      Dropped(s.waiters, s.now, i);
      DropIs(s, i);
    }
  }

  lemma OneOfEach(ws: seq<Waiter>, now: Ms, i: nat)
    requires Ordered(ws, now) && i < |ws|
    ensures forall k :: 0 <= k < |ws| && k != i ==> ws[k].id != ws[i].id
  {
    forall k | 0 <= k < |ws| && k != i ensures ws[k].id != ws[i].id {
      assert if k < i then Earlier(ws[k], ws[i]) else Earlier(ws[i], ws[k]);
    }
  }

  // How long a unit that ran for `ran` keeps its slot.
  function Share(slots: nat, ran: Ms): Ms {
    var share := if slots == 1 then ran else ran / 4.0;
    if share < 2000.0 then share else 2000.0
  }

  lemma HoldIsShare(s: State, userActive: bool, t0: Ms)
    requires userActive && s.now > t0
    ensures HoldFor(s, userActive, t0) == Share(s.slots, s.now - t0) > 0.0
  {
    assert 0.25 * (s.now - t0) == (s.now - t0) / 4.0;
  }

  lemma NoHold(s: State, userActive: bool, t0: Ms)
    requires !(userActive && s.now > t0)
    ensures HoldFor(s, userActive, t0) <= 0.0
  {
  }

  /**
   * A release for an active user keeps the slot for as long as the unit ran, a quarter of that
   * with more than one slot, but never over two seconds.
   */
  lemma ReleaseHolds(s: State, id: nat, userActive: bool)
    requires Safe(s) && id in s.units && userActive && s.now > s.units[id].t0
    ensures var r := Next(s, DoRelease(id, userActive));
            && id !in r.units && id in r.holds && r.holds[id] == s.now + Share(s.slots, s.now - s.units[id].t0)
            && r.running == s.running && r.waiters == s.waiters && r.log == s.log && HasFate(r.fate, id, Held)
  {
    HoldIsShare(s, userActive, s.units[id].t0);
  }

  /** Any other release ends the unit and gives its slot back: it is free, or taken by one admitted now. */
  lemma ReleaseFrees(s: State, id: nat, userActive: bool)
    requires Safe(s) && id in s.units && !(userActive && s.now > s.units[id].t0)
    ensures var r := Next(s, DoRelease(id, userActive));
            && r.holds == s.holds && HasFate(r.fate, id, Finished)
            && r.running == s.running - 1 + (|r.log| - |s.log|)
  {
    NoHold(s, userActive, s.units[id].t0);
    FreedByPump(s, id);
  }

  lemma FreedByPump(s: State, id: nat)
    requires Safe(s) && id in s.units
    ensures var r := Pump(FreeSlot(EndUnit(s, id), id));
            && r.holds == s.holds && HasFate(r.fate, id, Finished)
            && r.running == s.running - 1 + (|r.log| - |s.log|)
  {
    FreedFinishes(s, id);
    FreedCounts(FreeSlot(EndUnit(s, id), id));
  }

  lemma FreedFinishes(s: State, id: nat)
    requires Safe(s) && id in s.units
    ensures HasFate(Pump(FreeSlot(EndUnit(s, id), id)).fate, id, Finished)
  {
    EndUnitSafe(s, id);
    PumpFinished(FreeSlot(EndUnit(s, id), id), id);
    PumpIs(FreeSlot(EndUnit(s, id), id));
  }

  lemma FreedCounts(e: State)
    ensures var r := Pump(e);
            r.holds == e.holds && r.held == e.held && r.running == e.running + (|r.log| - |e.log|)
  {
    PumpCounts(e);
    PumpIs(e);
  }

  /** A second release does nothing. */
  lemma ReleaseTwice(s: State, id: nat, userActive: bool)
    requires id !in s.units
    ensures Next(s, DoRelease(id, userActive)) == s
  {
  }

  /** A hold that ends gives its slot back: it is free, or taken by a unit admitted now. */
  lemma HoldFireFrees(s: State, id: nat)
    requires Safe(s) && id in s.holds
    ensures var r := Next(s, DoHoldFire(id));
            id !in r.holds && r.held == s.held - 1 && HasFate(r.fate, id, Finished)
            && r.running == s.running - 1 + (|r.log| - |s.log|)
  {
    HoldFinishes(s, id);
    FreedCounts(FreeSlot(EndHold(s, id), id));
  }

  lemma HoldFinishes(s: State, id: nat)
    requires Safe(s) && id in s.holds
    ensures HasFate(Pump(FreeSlot(EndHold(s, id), id)).fate, id, Finished)
  {
    HoldFreed(s, id);
    PumpFinished(FreeSlot(EndHold(s, id), id), id);
    PumpIs(FreeSlot(EndHold(s, id), id));
  }

  lemma PumpIs(s: State)
    ensures var r, e := Pump(s), PumpLoop(s);
            r.holds == e.holds && r.held == e.held && r.running == e.running && r.log == e.log && r.fate == e.fate
  {
  }

  // Each admission of a pump takes a slot, and it touches no hold.
  lemma {:induction false} PumpCounts(s: State)
    ensures var e := PumpLoop(s);
            e.holds == s.holds && e.held == s.held && e.running == s.running + (|e.log| - |s.log|)
    decreases |s.waiters|
  {
    if CanPump(s) {
      PumpCounts(Admit(s, PickNext(s).value));
    }
  }

  lemma PumpFinished(s: State, id: nat)
    requires Safe(s) && HasFate(s.fate, id, Finished)
    ensures HasFate(PumpLoop(s).fate, id, Finished)
  {
    PumpLoopFates(s);
  }

  // ---- Foreground calls ---------------------------------------------------------------------

  /** All but the foreground and the wake timer is as it was. */
  predicate SameBackground(s: State, r: State) {
    r.waiters == s.waiters && r.units == s.units && r.holds == s.holds && r.running == s.running &&
    r.log == s.log && r.fate == s.fate && r.idle == s.idle && r.now == s.now
  }

  /** A foreground call is one more in flight; it admits nobody and ends no idle wait. */
  lemma EnterIs(s: State)
    requires s.fgInFlight >= 0
    ensures var r := Next(s, DoEnter);
            SameBackground(s, r) && r.fgInFlight == s.fgInFlight + 1 && r.fgOpen == s.fgOpen + {s.nextToken} && Busy(r)
  {
  }

  /** It leaves once; the last to leave starts the grace. A second leave does nothing. */
  lemma LeaveIs(s: State, token: nat)
    requires Safe(s)
    ensures var r := Next(s, DoLeave(token));
            if token in s.fgOpen then
              && SameBackground(s, r) && r.fgOpen == s.fgOpen - {token} && r.fgInFlight == s.fgInFlight - 1 && Busy(r)
              && (r.fgInFlight == 0 ==> r.fgLastLeave == Some(s.now))
            else r == s
  {
  }
}
