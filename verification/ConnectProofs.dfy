/**
 * What every run of the connect flows keeps.
 */
module ConnectProofs {
  import opened Wrappers
  import opened ConnectSpec

  // ---- The invariant --------------------------------------------------------------------

  /** Exactly the unsettled flows are registered. */
  ghost predicate Registered(all: map<FlowId, Flow>, registry: set<FlowId>) {
    forall f: FlowId {:trigger f in registry} :: f in registry <==> f in all && Unsettled(all[f])
  }

  ghost predicate Holds(all: map<FlowId, Flow>, account: AccountId, f: FlowId) {
    f in all && all[f].AccountFlow? && !all[f].settled && all[f].account == account
  }

  /** A slot is held by exactly the unsettled account flow of its account. */
  ghost predicate SlotsOk(all: map<FlowId, Flow>, slots: map<AccountId, FlowId>) {
    forall a: AccountId, f: FlowId {:trigger Holds(all, a, f)} :: Holds(all, a, f) <==> a in slots && slots[a] == f
  }

  function Count(terminals: seq<Terminal>, f: FlowId): nat {
    if |terminals| == 0 then 0
    else Count(terminals[..|terminals| - 1], f) + if terminals[|terminals| - 1].flow == f then 1 else 0
  }

  /** One terminal for each settled or refused flow, none for the others. */
  ghost predicate TerminalsOk(next: FlowId, all: map<FlowId, Flow>, terminals: seq<Terminal>) {
    forall f: FlowId {:trigger Count(terminals, f)} ::
      Count(terminals, f) == if f >= next || (f in all && Unsettled(all[f])) then 0 else 1
  }

  ghost predicate FlowOk(f: FlowId, flow: Flow, next: FlowId, all: map<FlowId, Flow>) {
    && f < next
    && (flow.AccountFlow? ==> (flow.armed <==> flow.cancelled && !flow.settled))
    && (flow.AccountFlow? ==> flow.body || flow.settled)
    && (flow.AccountFlow? && flow.settled && flow.body ==> flow.cancelled)
    && (flow.ConnectFlow? && flow.after.Some? ==>
          flow.after.value < f && flow.after.value in all && all[flow.after.value].ConnectFlow? &&
          (!flow.stage.Waiting? ==> all[flow.after.value].stage.Ended?))
  }

  ghost predicate FlowsOk(next: FlowId, all: map<FlowId, Flow>) {
    forall f: FlowId {:trigger f in all} :: f in all ==> FlowOk(f, all[f], next, all)
  }

  /** Waiting prompts belong to unsettled flows, or to a body that outlived its flow. */
  ghost predicate WaitsOk(all: map<FlowId, Flow>, waits: map<RequestId, FlowId>) {
    forall r: RequestId {:trigger r in waits} :: r in waits ==>
      waits[r] in all && (Unsettled(all[waits[r]]) || (all[waits[r]].AccountFlow? && all[waits[r]].cancelled))
  }

  ghost predicate StartedOk(started: seq<FlowId>, terminals: seq<Terminal>, all: map<FlowId, Flow>) {
    forall k {:trigger started[k]} :: 0 <= k < |started| ==>
      started[k] in all && all[started[k]].ConnectFlow? && all[started[k]].stage.Ended? && !all[started[k]].cancelled
      && Terminal(started[k], true) in terminals
  }

  ghost predicate Inv(b: Broker) {
    && Registered(b.all, b.registry)
    && SlotsOk(b.all, b.slots)
    && TerminalsOk(b.next, b.all, b.terminals)
    && FlowsOk(b.next, b.all)
    && WaitsOk(b.all, b.waits)
    && StartedOk(b.started, b.terminals, b.all)
    && b.profiles.Keys <= b.sources
  }

  // ---- Each step ---------------------------------------------------------------------------

  lemma CountMore(terminals: seq<Terminal>, t: Terminal)
    ensures forall f :: Count(terminals + [t], f) == Count(terminals, f) + if t.flow == f then 1 else 0
  {
    assert (terminals + [t])[..|terminals|] == terminals;
  }

  lemma OneMoreTerminal(next: FlowId, all: map<FlowId, Flow>, terminals: seq<Terminal>, f: FlowId, flow: Flow,
                        done: bool)
    requires TerminalsOk(next, all, terminals) && f in all && f < next && Unsettled(all[f]) && !Unsettled(flow)
    ensures TerminalsOk(next, all[f := flow], terminals + [Terminal(f, done)])
  {
    CountMore(terminals, Terminal(f, done));
    forall g: FlowId ensures Count(terminals + [Terminal(f, done)], g) ==
                             if g >= next || (g in all[f := flow] && Unsettled(all[f := flow][g])) then 0 else 1 {
      assert Count(terminals, g) == if g >= next || (g in all && Unsettled(all[g])) then 0 else 1;
    }
  }

  lemma SameTerminals(next: FlowId, all: map<FlowId, Flow>, terminals: seq<Terminal>, f: FlowId, flow: Flow)
    requires TerminalsOk(next, all, terminals) && f in all && Unsettled(all[f]) == Unsettled(flow)
    ensures TerminalsOk(next, all[f := flow], terminals)
  {
  }

  lemma StartedGrows(started: seq<FlowId>, terminals: seq<Terminal>, all: map<FlowId, Flow>, more: seq<Terminal>,
                     wider: map<FlowId, Flow>)
    requires StartedOk(started, terminals, all)
    requires forall f :: f in all && all[f].ConnectFlow? && all[f].stage.Ended? ==> f in wider && wider[f] == all[f]
    ensures StartedOk(started, terminals + more, wider)
  {
  }

  lemma SlotsAfter(all: map<FlowId, Flow>, slots: map<AccountId, FlowId>, f: FlowId, flow: Flow)
    requires SlotsOk(all, slots) && f in all && all[f].AccountFlow? && !all[f].settled
    requires flow.AccountFlow? && flow.settled
    ensures SlotsOk(all[f := flow], Release(slots, all[f].account, f))
  {
    var next, free := all[f := flow], Release(slots, all[f].account, f);
    assert Holds(all, all[f].account, f);
    forall a: AccountId, g: FlowId ensures Holds(next, a, g) <==> a in free && free[a] == g {
      assert Holds(all, a, g) <==> a in slots && slots[a] == g;
    }
  }

  lemma SameSlots(all: map<FlowId, Flow>, slots: map<AccountId, FlowId>, wider: map<FlowId, Flow>)
    requires SlotsOk(all, slots)
    requires forall a: AccountId, g: FlowId :: Holds(wider, a, g) <==> Holds(all, a, g)
    ensures SlotsOk(wider, slots)
  {
  }

  // An account flow settles, its body ended or not.
  lemma SettleKeeps(b: Broker, f: FlowId, body: bool, done: bool)
    requires Inv(b) && f in b.all && b.all[f].AccountFlow? && !b.all[f].settled && (body ==> b.all[f].cancelled)
    ensures Inv(Finish(b.(all := b.all[f := b.all[f].(body := body)]), f, done))
  {
    var mid := b.(all := b.all[f := b.all[f].(body := body)]);
    var flow := mid.all[f].(settled := true, armed := false);
    var next := Finish(mid, f, done);
    assert next.all == b.all[f := flow];
    assert FlowOk(f, b.all[f], b.next, b.all);
    OneMoreTerminal(b.next, b.all, b.terminals, f, flow, done);
    SlotsAfter(b.all, b.slots, f, flow);
    StartedGrows(b.started, b.terminals, b.all, [Terminal(f, done)], next.all);
    assert FlowsOk(next.next, next.all) by {
      forall g: FlowId | g in next.all ensures FlowOk(g, next.all[g], b.next, next.all) {
        assert FlowOk(g, b.all[g], b.next, b.all);
      }
    }
  }

  // A body that ends after its flow settled changes nothing but itself.
  lemma ZombieKeeps(b: Broker, f: FlowId, done: bool)
    requires Inv(b) && f in b.all && b.all[f].AccountFlow? && b.all[f].settled
    ensures Inv(Finish(b.(all := b.all[f := b.all[f].(body := false)]), f, done))
  {
    TouchKeeps(b, f, b.all[f].(body := false));
  }

  // Changing a flow without settling it.
  lemma TouchKeeps(b: Broker, f: FlowId, flow: Flow)
    requires Inv(b) && f in b.all && Unsettled(b.all[f]) == Unsettled(flow)
    requires b.all[f].AccountFlow? == flow.AccountFlow?
    requires flow.AccountFlow? ==> flow.account == b.all[f].account && (b.all[f].cancelled ==> flow.cancelled)
    requires flow.ConnectFlow? ==> flow.after == b.all[f].after && (flow.stage.Ended? ==> flow == b.all[f])
    requires FlowOk(f, flow, b.next, b.all)
    ensures Inv(b.(all := b.all[f := flow]))
  {
    var all := b.all[f := flow];
    SameTerminals(b.next, b.all, b.terminals, f, flow);
    forall a: AccountId, g: FlowId ensures Holds(all, a, g) <==> Holds(b.all, a, g) {
    }
    SameSlots(b.all, b.slots, all);
    StartedGrows(b.started, b.terminals, b.all, [], all);
    assert b.terminals + [] == b.terminals;
    forall g: FlowId | g in all ensures FlowOk(g, all[g], b.next, all) {
      assert FlowOk(g, b.all[g], b.next, b.all);
    }
  }

  lemma EndKeeps(b: Broker, f: FlowId, done: bool)
    requires Inv(b) && f in b.all && b.all[f].ConnectFlow? && !b.all[f].stage.Ended? && (done ==> !b.all[f].cancelled)
    requires b.all[f].after.Some? ==> b.all[f].after.value in b.all && !Unsettled(b.all[b.all[f].after.value])
    ensures Inv(End(b, f, done))
  {
    var next, flow := End(b, f, done), b.all[f].(stage := Ended);
    assert FlowOk(f, b.all[f], b.next, b.all);
    OneMoreTerminal(b.next, b.all, b.terminals, f, flow, done);
    forall a: AccountId, g: FlowId ensures Holds(next.all, a, g) <==> Holds(b.all, a, g) {
    }
    SameSlots(b.all, b.slots, next.all);
    StartedGrows(b.started, b.terminals, b.all, [Terminal(f, done)], next.all);
    forall g: FlowId | g in next.all ensures FlowOk(g, next.all[g], b.next, next.all) {
      assert FlowOk(g, b.all[g], b.next, b.all);
    }
  }

  lemma BeginKeeps(b: Broker, account: AccountId)
    requires Inv(b)
    ensures Inv(Begin(b, account))
  {
    var f, next := b.next, Begin(b, account);
    assert f in b.all ==> FlowOk(f, b.all[f], b.next, b.all);
    if account in b.slots {
      CountMore(b.terminals, Terminal(f, false));
      RefusedTerminals(b, Terminal(f, false));
      StartedGrows(b.started, b.terminals, b.all, [Terminal(f, false)], b.all);
      NextGrows(b.next, b.all);
    } else {
      forall a: AccountId, g: FlowId ensures Holds(next.all, a, g) <==> a in next.slots && next.slots[a] == g {
        assert Holds(b.all, a, g) <==> a in b.slots && b.slots[a] == g;
      }
      NewFlow(b, next.all[f]);
    }
  }

  lemma RefusedTerminals(b: Broker, t: Terminal)
    requires TerminalsOk(b.next, b.all, b.terminals) && t.flow == b.next && b.next !in b.all
    ensures TerminalsOk(b.next + 1, b.all, b.terminals + [t])
  {
    CountMore(b.terminals, t);
    forall g: FlowId ensures Count(b.terminals + [t], g) ==
                             if g >= b.next + 1 || (g in b.all && Unsettled(b.all[g])) then 0 else 1 {
      assert Count(b.terminals, g) == if g >= b.next || (g in b.all && Unsettled(b.all[g])) then 0 else 1;
    }
  }

  lemma NextGrows(next: FlowId, all: map<FlowId, Flow>)
    requires FlowsOk(next, all)
    ensures FlowsOk(next + 1, all)
  {
    forall g: FlowId | g in all ensures FlowOk(g, all[g], next + 1, all) {
      assert FlowOk(g, all[g], next, all);
    }
  }

  // A new flow id with its closure state, not settled.
  lemma NewFlow(b: Broker, flow: Flow)
    requires Inv(b) && b.next !in b.all
    requires flow.AccountFlow? ==> !flow.settled && !flow.cancelled && !flow.armed && flow.body
    requires flow.ConnectFlow? ==> !flow.cancelled && (flow.stage.Ended? ==> flow.after.None?)
    requires flow.ConnectFlow? ==> flow.stage.Ended? || flow.stage.Waiting?
    requires flow.ConnectFlow? && flow.after.Some? ==> flow.after.value in b.all && b.all[flow.after.value].ConnectFlow?
    ensures var all := b.all[b.next := flow];
            FlowsOk(b.next + 1, all) && WaitsOk(all, b.waits) && StartedOk(b.started, b.terminals, all) &&
            (Unsettled(flow) ==> TerminalsOk(b.next + 1, all, b.terminals))
  {
    var all := b.all[b.next := flow];
    forall g: FlowId | g in all ensures FlowOk(g, all[g], b.next + 1, all) {
      assert g in b.all ==> FlowOk(g, b.all[g], b.next, b.all);
      assert flow.ConnectFlow? && flow.after.Some? ==>
               FlowOk(flow.after.value, b.all[flow.after.value], b.next, b.all);
    }
    StartedGrows(b.started, b.terminals, b.all, [], all);
    assert b.terminals + [] == b.terminals;
    if Unsettled(flow) {
      forall g: FlowId
        ensures Count(b.terminals, g) == if g >= b.next + 1 || (g in all && Unsettled(all[g])) then 0 else 1
      {
        assert Count(b.terminals, g) == if g >= b.next || (g in b.all && Unsettled(b.all[g])) then 0 else 1;
      }
    }
  }

  lemma LaunchKeeps(b: Broker, known: bool, after: Option<FlowId>)
    requires Inv(b) && (after.Some? ==> after.value in b.all && b.all[after.value].ConnectFlow?)
    ensures Inv(LaunchOne(b, known, after))
  {
    var f, next := b.next, LaunchOne(b, known, after);
    assert f in b.all ==> FlowOk(f, b.all[f], b.next, b.all);
    forall a: AccountId, g: FlowId ensures Holds(next.all, a, g) <==> Holds(b.all, a, g) {
    }
    SameSlots(b.all, b.slots, next.all);
    NewFlow(b, next.all[f]);
    if !known {
      CountMore(b.terminals, Terminal(f, false));
      RefusedTerminals(b, Terminal(f, false));
      assert TerminalsOk(next.next, next.all, next.terminals);
      StartedGrows(b.started, b.terminals, b.all, [Terminal(f, false)], next.all);
    }
  }

  // The flows of a list of known sources, each after the one before.
  ghost predicate Chain(all: map<FlowId, Flow>, flows: seq<FlowId>) {
    forall k: nat {:trigger Link(all, flows, k)} :: k < |flows| ==> Link(all, flows, k)
  }

  predicate Link(all: map<FlowId, Flow>, flows: seq<FlowId>, k: nat)
    requires k < |flows|
  {
    flows[k] in all && all[flows[k]].ConnectFlow? &&
    all[flows[k]].after == if k == 0 then None else Some(flows[k - 1])
  }

  lemma {:induction false} LaunchAllLeaves(b: Broker, ids: seq<SourceId>)
    ensures var r := LaunchAll(b, ids).0;
            r.slots == b.slots && r.groups == b.groups && r.sources == b.sources && r.profiles == b.profiles
    ensures (forall k :: 0 <= k < |ids| ==> ids[k] in b.sources) ==> LaunchAll(b, ids).0.terminals == b.terminals
    decreases |ids|
  {
    if |ids| > 0 {
      LaunchAllLeaves(b, ids[..|ids| - 1]);
    }
  }

  // The flow that the next one of a chain waits for.
  function Last(flows: seq<FlowId>): Option<FlowId> {
    if |flows| == 0 then None else Some(flows[|flows| - 1])
  }

  lemma NextIsNew(b: Broker)
    requires FlowsOk(b.next, b.all)
    ensures b.next !in b.all
  {
    assert b.next in b.all ==> FlowOk(b.next, b.all[b.next], b.next, b.all);
  }

  lemma ChainGrows(all: map<FlowId, Flow>, flows: seq<FlowId>, f: FlowId)
    requires Chain(all, flows) && f !in all
    ensures Chain(all[f := ConnectFlow(Last(flows), Waiting, false)], flows + [f])
  {
    var more, longer := all[f := ConnectFlow(Last(flows), Waiting, false)], flows + [f];
    forall k: nat | k < |longer| ensures Link(more, longer, k) {
      if k < |flows| {
        assert Link(all, flows, k);
      }
    }
  }

  lemma LaunchNext(b: Broker, flows: seq<FlowId>)
    requires Inv(b) && Chain(b.all, flows)
    ensures Inv(LaunchOne(b, true, Last(flows)))
  {
    if |flows| > 0 {
      assert Link(b.all, flows, |flows| - 1);
    }
    LaunchKeeps(b, true, Last(flows));
  }

  lemma {:induction false} LaunchAllKeeps(b: Broker, ids: seq<SourceId>)
    requires Inv(b) && forall k :: 0 <= k < |ids| ==> ids[k] in b.sources
    ensures var (r, flows) := LaunchAll(b, ids); Inv(r) && Chain(r.all, flows)
    ensures forall f :: f in b.all ==> f in LaunchAll(b, ids).0.all && LaunchAll(b, ids).0.all[f] == b.all[f]
    decreases |ids|
  {
    if |ids| > 0 {
      LaunchAllKeeps(b, ids[..|ids| - 1]);
      LaunchAllStep(b, ids);
    }
  }

  lemma LaunchAllLast(b: Broker, ids: seq<SourceId>)
    requires |ids| > 0 && ids[|ids| - 1] in b.sources
    ensures var (before, flows) := LaunchAll(b, ids[..|ids| - 1]);
            LaunchAll(b, ids) == (LaunchOne(before, true, Last(flows)), flows + [before.next])
  {
  }

  lemma LaunchAllStep(b: Broker, ids: seq<SourceId>)
    requires |ids| > 0 && forall k :: 0 <= k < |ids| ==> ids[k] in b.sources
    requires var (before, flows) := LaunchAll(b, ids[..|ids| - 1]); Inv(before) && Chain(before.all, flows)
    ensures var (r, flows) := LaunchAll(b, ids); Inv(r) && Chain(r.all, flows)
    ensures var before := LaunchAll(b, ids[..|ids| - 1]).0;
            before.next !in before.all &&
            LaunchAll(b, ids).0.all ==
            before.all[before.next := ConnectFlow(Last(LaunchAll(b, ids[..|ids| - 1]).1), Waiting, false)]
  {
    LaunchAllLast(b, ids);
    LaunchOnChain(LaunchAll(b, ids[..|ids| - 1]).0, LaunchAll(b, ids[..|ids| - 1]).1);
  }

  lemma LaunchOnChain(b: Broker, flows: seq<FlowId>)
    requires Inv(b) && Chain(b.all, flows)
    ensures var r := LaunchOne(b, true, Last(flows));
            Inv(r) && Chain(r.all, flows + [b.next]) && b.next !in b.all
            && r.all == b.all[b.next := ConnectFlow(Last(flows), Waiting, false)]
  {
    NextIsNew(b);
    LaunchNext(b, flows);
    ChainGrows(b.all, flows, b.next);
  }

  // An accepted group has only known sources: a profile never outlives its source.
  lemma AcceptedAreKnown(b: Broker, ids: seq<SourceId>)
    requires Inv(b) && GroupAccepted(b, ids)
    ensures forall k :: 0 <= k < |ids| ==> ids[k] in b.sources
  {
  }

  lemma GroupKeeps(b: Broker, ids: seq<SourceId>)
    requires Inv(b)
    ensures Inv(BeginGroup(b, ids))
  {
    if GroupAccepted(b, ids) {
      AcceptedAreKnown(b, ids);
      LaunchAllKeeps(b, ids);
      LaunchAllLeaves(b, ids);
    }
  }

  lemma CancelKeeps(b: Broker, f: FlowId)
    requires Inv(b)
    ensures Inv(Cancelled(b, f))
  {
    if f in b.registry {
      assert FlowOk(f, b.all[f], b.next, b.all);
      TouchKeeps(b, f, Abandon(b.all[f]));
      SweepKeeps(b.all[f := Abandon(b.all[f])], b.waits, f);
    }
  }

  lemma SweepKeeps(all: map<FlowId, Flow>, waits: map<RequestId, FlowId>, f: FlowId)
    requires WaitsOk(all, waits)
    ensures WaitsOk(all, Sweep(waits, f))
  {
  }

  lemma AskKeeps(b: Broker, f: FlowId, r: RequestId)
    requires Inv(b) && Legal(b, Ask(f, r))
    ensures Inv(Next(b, Ask(f, r)))
  {
    assert FlowOk(f, b.all[f], b.next, b.all);
  }

  lemma ConnectStepKeeps(b: Broker, step: Step)
    requires Inv(b) && Legal(b, step) && (step.AfterSettles? || step.ConnectEnds? || step.RemoveEnds?)
    ensures Inv(Next(b, step))
  {
    var f := step.flow;
    assert FlowOk(f, b.all[f], b.next, b.all);
    match step
    case AfterSettles(_) =>
      if b.all[f].cancelled {
        EndKeeps(b, f, false);
      } else {
        TouchKeeps(b, f, b.all[f].(stage := Connecting));
      }
    case ConnectEnds(_, ok) =>
      if ok && b.all[f].cancelled {
        TouchKeeps(b, f, b.all[f].(stage := Removing));
      } else {
        EndKeeps(b, f, ok);
      }
    case RemoveEnds(_) => EndKeeps(b, f, false);
  }

  lemma StepKeeps(b: Broker, step: Step)
    requires Inv(b) && Legal(b, step)
    ensures Inv(Next(b, step))
  {
    match step
    case StartAccount(account) => BeginKeeps(b, account);
    case Start(source) => LaunchKeeps(b, source in b.sources, None);
    case StartGroup(ids) => GroupKeeps(b, ids);
    case Register(source, profile) =>
    case Unregister(source) =>
    case Ask(f, r) => AskKeeps(b, f, r);
    case Answer(r) =>
    case BodyEnds(f, ok) =>
      if b.all[f].settled {
        ZombieKeeps(b, f, ok);
      } else {
        SettleKeeps(b, f, false, ok);
      }
    case Watchdog(f) =>
      assert FlowOk(f, b.all[f], b.next, b.all);
      assert b.all[f := b.all[f].(body := b.all[f].body)] == b.all;
      SettleKeeps(b, f, b.all[f].body, false);
    case AfterSettles(f) => ConnectStepKeeps(b, step);
    case ConnectEnds(f, ok) => ConnectStepKeeps(b, step);
    case RemoveEnds(f) => ConnectStepKeeps(b, step);
    case Cancel(f) => CancelKeeps(b, f);
  }

  lemma {:induction false} RunKeeps(b: Broker, steps: seq<Step>)
    requires Inv(b) && LegalRun(b, steps)
    ensures Inv(Exec(b, steps))
    decreases |steps|
  {
    if |steps| > 0 {
      StepKeeps(b, steps[0]);
      RunKeeps(Next(b, steps[0]), steps[1..]);
    }
  }

  // ---- Over every run --------------------------------------------------------------------------

  lemma OpenIsSafe()
    ensures Inv(Open())
  {
  }

  /** A flow sends at most one terminal event, and has sent one exactly when it is over. */
  lemma OneTerminal(steps: seq<Step>, f: FlowId)
    requires LegalRun(Open(), steps) && f < Exec(Open(), steps).next
    ensures var b := Exec(Open(), steps);
            Count(b.terminals, f) <= 1 && (Count(b.terminals, f) == 0 <==> f in b.all && Unsettled(b.all[f]))
  {
    OpenIsSafe();
    RunKeeps(Open(), steps);
    var b := Exec(Open(), steps);
    assert Count(b.terminals, f) == if f >= b.next || (f in b.all && Unsettled(b.all[f])) then 0 else 1;
  }

  /** An account's slot is held exactly by its unsettled flow, so there is at most one. */
  lemma SlotIsUnsettledFlow(steps: seq<Step>, a: AccountId, f: FlowId, g: FlowId)
    requires LegalRun(Open(), steps)
    ensures var b := Exec(Open(), steps);
            (Holds(b.all, a, f) <==> a in b.slots && b.slots[a] == f) &&
            (Holds(b.all, a, f) && Holds(b.all, a, g) ==> f == g)
  {
    OpenIsSafe();
    RunKeeps(Open(), steps);
  }

  /** A slot changes hands only by its own holder settling in that very step. */
  lemma NeverFreesAnother(b: Broker, step: Step, a: AccountId)
    requires Inv(b) && Legal(b, step) && a in b.slots
    requires a !in Next(b, step).slots || Next(b, step).slots[a] != b.slots[a]
    ensures var f := b.slots[a];
            f in b.all && Unsettled(b.all[f]) && f in Next(b, step).all && !Unsettled(Next(b, step).all[f])
    ensures (step.BodyEnds? || step.Watchdog?) && step.flow == b.slots[a]
  {
    assert Holds(b.all, a, b.slots[a]);
    if step.StartGroup? {
      LaunchAllLeaves(b, step.sources);
    }
  }

  // A flow keeps its kind and account; cancelled and settled are for good.
  ghost predicate MovesOn(x: Flow, y: Flow) {
    && x.AccountFlow? == y.AccountFlow?
    && (x.AccountFlow? ==> x.account == y.account)
    && (x.ConnectFlow? ==> x.after == y.after)
    && (x.cancelled ==> y.cancelled)
    && (!Unsettled(x) ==> !Unsettled(y))
  }

  lemma StepMovesOn(b: Broker, step: Step, f: FlowId)
    requires Inv(b) && Legal(b, step) && f in b.all
    ensures f in Next(b, step).all && MovesOn(b.all[f], Next(b, step).all[f])
    ensures b.terminals <= Next(b, step).terminals
  {
    assert FlowOk(f, b.all[f], b.next, b.all);
    if step.StartGroup? && GroupAccepted(b, step.sources) {
      AcceptedAreKnown(b, step.sources);
      LaunchAllKeeps(b, step.sources);
      LaunchAllLeaves(b, step.sources);
    }
  }

  lemma {:induction false} RunMovesOn(b: Broker, steps: seq<Step>, f: FlowId)
    requires Inv(b) && LegalRun(b, steps) && f in b.all
    ensures Inv(Exec(b, steps)) && f in Exec(b, steps).all && MovesOn(b.all[f], Exec(b, steps).all[f])
    ensures b.terminals <= Exec(b, steps).terminals
    decreases |steps|
  {
    if |steps| > 0 {
      StepKeeps(b, steps[0]);
      StepMovesOn(b, steps[0], f);
      RunMovesOn(Next(b, steps[0]), steps[1..], f);
    }
  }

  /**
   * A cancelled account flow is never stuck: whatever its body does afterwards, either it has
   * settled or its watchdog is armed, and firing it settles the flow.
   */
  lemma CancelGuaranteesTerminal(b: Broker, f: FlowId, steps: seq<Step>)
    requires Inv(b) && f in b.registry && b.all[f].AccountFlow? && LegalRun(Next(b, Cancel(f)), steps)
    ensures var c := Exec(Next(b, Cancel(f)), steps);
            f in c.all && c.all[f].AccountFlow? &&
            (Unsettled(c.all[f]) ==>
               Legal(c, Watchdog(f)) && !Unsettled(Next(c, Watchdog(f)).all[f])
               && Count(Next(c, Watchdog(f)).terminals, f) == 1)
  {
    var start := Next(b, Cancel(f));
    StepKeeps(b, Cancel(f));
    RunMovesOn(start, steps, f);
    var c := Exec(start, steps);
    assert FlowOk(f, c.all[f], c.next, c.all);
    if Unsettled(c.all[f]) {
      StepKeeps(c, Watchdog(f));
      var d := Next(c, Watchdog(f));
      assert Count(d.terminals, f) == if f >= d.next || (f in d.all && Unsettled(d.all[f])) then 0 else 1;
    }
  }

  /** A connect flow cancelled before it settled never starts an account, however late connect() returns. */
  lemma CancelledNeverStarts(b: Broker, f: FlowId, steps: seq<Step>)
    requires Inv(b) && f in b.registry && b.all[f].ConnectFlow? && LegalRun(Next(b, Cancel(f)), steps)
    ensures f !in Exec(Next(b, Cancel(f)), steps).started
  {
    StepKeeps(b, Cancel(f));
    RunMovesOn(Next(b, Cancel(f)), steps, f);
    var c := Exec(Next(b, Cancel(f)), steps);
    assert forall k :: 0 <= k < |c.started| ==> !c.all[c.started[k]].cancelled;
  }

  ghost predicate GroupsOk(b: Broker) {
    forall g {:trigger b.groups[g]} :: 0 <= g < |b.groups| ==> Chain(b.all, b.groups[g])
  }

  lemma ChainStays(b: Broker, step: Step, flows: seq<FlowId>)
    requires Inv(b) && Legal(b, step) && Chain(b.all, flows)
    ensures Chain(Next(b, step).all, flows)
  {
    forall k: nat | k < |flows| ensures Link(Next(b, step).all, flows, k) {
      assert Link(b.all, flows, k);
      StepMovesOn(b, step, flows[k]);
    }
  }

  lemma GroupsStay(b: Broker, step: Step)
    requires Inv(b) && Legal(b, step) && GroupsOk(b)
    ensures GroupsOk(Next(b, step))
  {
    var c := Next(b, step);
    forall g | 0 <= g < |b.groups| ensures Chain(c.all, b.groups[g]) {
      ChainStays(b, step, b.groups[g]);
    }
    if step.StartGroup? && GroupAccepted(b, step.sources) {
      AcceptedAreKnown(b, step.sources);
      LaunchAllKeeps(b, step.sources);
      LaunchAllLeaves(b, step.sources);
    }
  }

  lemma {:induction false} RunGroups(b: Broker, steps: seq<Step>)
    requires Inv(b) && GroupsOk(b) && LegalRun(b, steps)
    ensures Inv(Exec(b, steps)) && GroupsOk(Exec(b, steps))
    decreases |steps|
  {
    if |steps| > 0 {
      StepKeeps(b, steps[0]);
      GroupsStay(b, steps[0]);
      RunGroups(Next(b, steps[0]), steps[1..]);
    }
  }

  lemma ChainMember(b: Broker, flows: seq<FlowId>, k: nat)
    requires Chain(b.all, flows) && k < |flows|
    ensures flows[k] in b.all && b.all[flows[k]].ConnectFlow?
  {
    assert Link(b.all, flows, k);
  }

  lemma PreviousEnded(b: Broker, flows: seq<FlowId>, j: nat)
    requires FlowsOk(b.next, b.all) && Chain(b.all, flows) && 0 < j < |flows|
    requires flows[j] in b.all && b.all[flows[j]].ConnectFlow? && !b.all[flows[j]].stage.Waiting?
    ensures flows[j - 1] in b.all && b.all[flows[j - 1]].ConnectFlow? && b.all[flows[j - 1]].stage.Ended?
  {
    assert Link(b.all, flows, j);
    assert FlowOk(flows[j], b.all[flows[j]], b.next, b.all);
  }

  lemma {:induction false} EarlierEnded(b: Broker, flows: seq<FlowId>, i: nat, j: nat)
    requires FlowsOk(b.next, b.all) && Chain(b.all, flows) && i < j < |flows|
    requires flows[j] in b.all && b.all[flows[j]].ConnectFlow? && !b.all[flows[j]].stage.Waiting?
    ensures flows[i] in b.all && b.all[flows[i]].ConnectFlow? && b.all[flows[i]].stage.Ended?
    decreases j
  {
    PreviousEnded(b, flows, j);
    if i < j - 1 {
      EarlierEnded(b, flows, i, j - 1);
    }
  }

  /**
   * However its flows settle, fail or are cancelled, a group's flows run one at a time and in
   * order: one past its wait has every earlier one ended.
   */
  lemma GroupRunsInOrder(steps: seq<Step>, g: nat, i: nat, j: nat)
    requires LegalRun(Open(), steps)
    requires var b := Exec(Open(), steps); g < |b.groups| && i < j < |b.groups[g]|
    ensures var b := Exec(Open(), steps);
            var x, y := b.groups[g][i], b.groups[g][j];
            && x in b.all && y in b.all && b.all[x].ConnectFlow? && b.all[y].ConnectFlow?
            && (b.all[y].stage.Waiting? || b.all[x].stage.Ended?)
  {
    OpenIsSafe();
    RunGroups(Open(), steps);
    var b := Exec(Open(), steps);
    assert Chain(b.all, b.groups[g]);
    ChainMember(b, b.groups[g], i);
    ChainMember(b, b.groups[g], j);
    if !b.all[b.groups[g][j]].stage.Waiting? {
      EarlierEnded(b, b.groups[g], i, j);
    }
  }

  /** An accepted group gets one flow for each of its sources, all of them started. */
  lemma GroupIsLaunched(b: Broker, ids: seq<SourceId>)
    requires Inv(b) && GroupAccepted(b, ids)
    ensures var c := Next(b, StartGroup(ids));
            |c.groups| == |b.groups| + 1 && |c.groups[|b.groups|]| == |ids| && c.terminals == b.terminals
            && Chain(c.all, c.groups[|b.groups|])
  {
    AcceptedAreKnown(b, ids);
    LaunchAllKeeps(b, ids);
    LaunchAllLeaves(b, ids);
  }
}
