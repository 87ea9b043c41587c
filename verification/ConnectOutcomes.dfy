/**
 * What a flow comes to: when it starts an account, what its terminal says, and what each callback
 * does to it.
 */
module ConnectOutcomes {
  import opened Wrappers
  import opened ConnectSpec
  import opened ConnectProofs

  // ---- When an account is started ---------------------------------------------------------

  // The flow's connect returns an account and nobody has cancelled the flow.
  predicate ConnectsOk(b: Broker, step: Step, f: FlowId) {
    step == ConnectEnds(f, true) && f in b.all && !b.all[f].cancelled
  }

  // Somewhere in the run it does.
  ghost predicate ConnectedOk(b: Broker, steps: seq<Step>, f: FlowId)
    requires LegalRun(b, steps)
    decreases |steps|
  {
    |steps| > 0 && (ConnectsOk(b, steps[0], f) || ConnectedOk(Next(b, steps[0]), steps[1..], f))
  }

  lemma {:induction false} LaunchAllStarts(b: Broker, ids: seq<SourceId>)
    ensures LaunchAll(b, ids).0.started == b.started
    ensures forall f :: Terminal(f, true) in LaunchAll(b, ids).0.terminals <==> Terminal(f, true) in b.terminals
    decreases |ids|
  {
    if |ids| > 0 {
      LaunchAllStarts(b, ids[..|ids| - 1]);
    }
  }

  lemma StepStarts(b: Broker, step: Step)
    requires Legal(b, step)
    ensures var r := Next(b, step);
            r.started ==
            if step.ConnectEnds? && ConnectsOk(b, step, step.flow) then b.started + [step.flow] else b.started
  {
    if step.StartGroup? {
      LaunchAllStarts(b, step.sources);
    }
  }

  ghost predicate OnceEach(started: seq<FlowId>) {
    forall i, j {:trigger started[i], started[j]} :: 0 <= i < j < |started| ==> started[i] != started[j]
  }

  lemma {:induction false} RunStarts(b: Broker, steps: seq<Step>, f: FlowId)
    requires Inv(b) && OnceEach(b.started) && LegalRun(b, steps)
    ensures f in Exec(b, steps).started <==> f in b.started || ConnectedOk(b, steps, f)
    ensures OnceEach(Exec(b, steps).started)
    decreases |steps|
  {
    if |steps| > 0 {
      var next := Next(b, steps[0]);
      StepStarts(b, steps[0]);
      StepKeeps(b, steps[0]);
      assert forall k :: 0 <= k < |b.started| ==> b.all[b.started[k]].stage.Ended?;
      RunStarts(next, steps[1..], f);
    }
  }

  /** A flow starts its account if and only if its connect returned one before any cancel, and then once. */
  lemma StartedIff(steps: seq<Step>, f: FlowId)
    requires LegalRun(Open(), steps)
    ensures f in Exec(Open(), steps).started <==> ConnectedOk(Open(), steps, f)
    ensures OnceEach(Exec(Open(), steps).started)
  {
    OpenIsSafe();
    RunStarts(Open(), steps, f);
  }

  // ---- What its terminal says -----------------------------------------------------------------

  // The account flow's body returns its success before the watchdog settled the flow.
  predicate BodyOk(b: Broker, step: Step, f: FlowId) {
    step == BodyEnds(f, true) && f in b.all && b.all[f].AccountFlow? && !b.all[f].settled
  }

  ghost predicate SucceededOk(b: Broker, steps: seq<Step>, f: FlowId)
    requires LegalRun(b, steps)
    decreases |steps|
  {
    |steps| > 0 &&
    (ConnectsOk(b, steps[0], f) || BodyOk(b, steps[0], f) || SucceededOk(Next(b, steps[0]), steps[1..], f))
  }

  lemma StepSays(b: Broker, step: Step, f: FlowId)
    requires Legal(b, step)
    ensures Terminal(f, true) in Next(b, step).terminals <==>
            Terminal(f, true) in b.terminals || ConnectsOk(b, step, f) || BodyOk(b, step, f)
  {
    if step.StartGroup? {
      LaunchAllStarts(b, step.sources);
    }
  }

  lemma {:induction false} RunSays(b: Broker, steps: seq<Step>, f: FlowId)
    requires LegalRun(b, steps)
    ensures Terminal(f, true) in Exec(b, steps).terminals <==>
            Terminal(f, true) in b.terminals || SucceededOk(b, steps, f)
    decreases |steps|
  {
    if |steps| > 0 {
      StepSays(b, steps[0], f);
      RunSays(Next(b, steps[0]), steps[1..], f);
    }
  }

  /**
   * A flow's terminal, of which there is one, reports success if and only if its connect returned
   * before any cancel, or its body before the watchdog.
   */
  lemma DoneIff(steps: seq<Step>, f: FlowId)
    requires LegalRun(Open(), steps)
    ensures Terminal(f, true) in Exec(Open(), steps).terminals <==> SucceededOk(Open(), steps, f)
    ensures Count(Exec(Open(), steps).terminals, f) <= 1
  {
    RunSays(Open(), steps, f);
    OpenIsSafe();
    RunKeeps(Open(), steps);
    var b := Exec(Open(), steps);
    assert Count(b.terminals, f) == if f >= b.next || (f in b.all && Unsettled(b.all[f])) then 0 else 1;
  }

  // ---- What each callback does -------------------------------------------------------------------

  // The flow is over: its terminal is sent, and nothing of the broker's is left of it.
  ghost predicate Over(b: Broker, r: Broker, f: FlowId, done: bool) {
    && r.terminals == b.terminals + [Terminal(f, done)]
    && f in r.all && !Unsettled(r.all[f]) && r.registry == b.registry - {f}
    && (forall q :: q in r.waits <==> q in b.waits && b.waits[q] != f)
    && (forall q :: q in r.waits ==> r.waits[q] == b.waits[q])
    && (forall a :: a in r.slots <==> a in b.slots && b.slots[a] != f)
    && (forall a :: a in r.slots ==> r.slots[a] == b.slots[a])
    && (forall g :: g != f && g in b.all ==> g in r.all && r.all[g] == b.all[g])
  }

  /** A connect that returned starts or removes its account; one that failed ends its flow. */
  lemma ConnectEndsOver(b: Broker, f: FlowId, ok: bool)
    requires Inv(b) && Legal(b, ConnectEnds(f, ok))
    ensures var r := Next(b, ConnectEnds(f, ok));
            if ok && b.all[f].cancelled then
              r == b.(all := b.all[f := b.all[f].(stage := Removing)])
            else Over(b, r, f, ok)
  {
    NoSlot(b, f);
  }

  /** A removal, over, ends its flow as cancelled. */
  lemma RemoveEndsOver(b: Broker, f: FlowId)
    requires Inv(b) && Legal(b, RemoveEnds(f))
    ensures Over(b, Next(b, RemoveEnds(f)), f, false)
  {
    NoSlot(b, f);
  }

  /** When the flow before settles, a cancelled flow ends and any other connects. */
  lemma AfterSettlesIs(b: Broker, f: FlowId)
    requires Inv(b) && Legal(b, AfterSettles(f))
    ensures var r := Next(b, AfterSettles(f));
            if b.all[f].cancelled then Over(b, r, f, false)
            else r == b.(all := b.all[f := b.all[f].(stage := Connecting)])
  {
    NoSlot(b, f);
  }

  // A connect flow holds no slot.
  lemma NoSlot(b: Broker, f: FlowId)
    requires Inv(b) && f in b.all && b.all[f].ConnectFlow?
    ensures forall a :: a in b.slots ==> b.slots[a] != f
  {
    forall a | a in b.slots ensures b.slots[a] != f {
      assert Holds(b.all, a, b.slots[a]);
    }
  }

  /** A body that ends settles its flow if it is first; the watchdog settles it as failed. */
  lemma AccountFlowOver(b: Broker, step: Step, f: FlowId)
    requires Inv(b) && Legal(b, step) && ((step.BodyEnds? && step.flow == f) || step == Watchdog(f))
    ensures var r := Next(b, step);
            if b.all[f].settled then
              r.terminals == b.terminals && r.slots == b.slots && r.waits == b.waits && r.registry == b.registry
            else Over(b, r, f, step.BodyEnds? && step.ok)
  {
    assert FlowOk(f, b.all[f], b.next, b.all);
    if !b.all[f].settled {
      assert Holds(b.all, b.all[f].account, f);
      forall a | a in b.slots && b.slots[a] == f ensures a == b.all[f].account {
        assert Holds(b.all, a, f);
      }
    }
  }

  /** A cancel flags a registered flow and takes its prompts; any other it leaves alone. */
  lemma CancelIs(b: Broker, f: FlowId)
    requires Inv(b)
    ensures var r := Next(b, Cancel(f));
            if f in b.registry then
              && f in r.all && r.all[f].cancelled && Unsettled(r.all[f]) && MovesOn(b.all[f], r.all[f])
              && (forall q :: q in r.waits <==> q in b.waits && b.waits[q] != f)
              && r.terminals == b.terminals && r.slots == b.slots && r.registry == b.registry
            else r == b
  {
  }

  /** An account flow is refused exactly while another holds its account, and else holds it. */
  lemma StartAccountIs(b: Broker, account: AccountId)
    requires Inv(b)
    ensures var r, f := Next(b, StartAccount(account)), b.next;
            if exists g :: Holds(b.all, account, g) then
              r.terminals == b.terminals + [Terminal(f, false)] && r.slots == b.slots && r.all == b.all
            else
              r.terminals == b.terminals && Holds(r.all, account, f) && r.slots == b.slots[account := f]
  {
    if account in b.slots {
      assert Holds(b.all, account, b.slots[account]);
    }
  }

  /** A connect flow for an unknown source fails at once; any other waits its turn. */
  lemma StartIs(b: Broker, source: SourceId)
    requires Inv(b)
    ensures var r, f := Next(b, Start(source)), b.next;
            f in r.all && r.all[f].ConnectFlow? && r.slots == b.slots &&
            if source in b.sources then
              r.all[f] == ConnectFlow(None, Waiting, false) && f in r.registry && r.terminals == b.terminals
            else !Unsettled(r.all[f]) && r.terminals == b.terminals + [Terminal(f, false)] && r.registry == b.registry
  {
  }
}
