/**
 * Connect flows: account flows with their slot and watchdog, and connect flows that run one
 * after another. A step is one callback of the broker; nothing else runs during it.
 */
module ConnectSpec {
  import opened Wrappers

  type FlowId = nat
  type AccountId = nat
  type RequestId = nat
  type SourceId = string
  type ProfileId = nat

  datatype Stage = Waiting | Connecting | Removing | Ended

  datatype Flow =
    // runAccountFlow's closure; `body` is whether its body is still running, zombies included
    | AccountFlow(account: AccountId, settled: bool, cancelled: bool, armed: bool, body: bool)
    // launch's; `after` is the flow it waits for
    | ConnectFlow(after: Option<FlowId>, stage: Stage, cancelled: bool)

  datatype Terminal = Terminal(flow: FlowId, done: bool)

  datatype Broker = Broker(
    next: FlowId,
    all: map<FlowId, Flow>,           // every flow that was given closure state
    registry: set<FlowId>,            // the broker's `flows`
    slots: map<AccountId, FlowId>,    // the engine's activeByAccount
    waits: map<RequestId, FlowId>,    // pending prompts and pickers
    terminals: seq<Terminal>,         // terminal events, in the order sent
    started: seq<FlowId>,             // runAccount calls
    sources: set<SourceId>,           // the source registry
    profiles: map<SourceId, ProfileId>,
    groups: seq<seq<FlowId>>          // the flows of each group started
  )

  datatype Step =
    | StartAccount(account: AccountId)
    | Start(source: SourceId)
    | StartGroup(sources: seq<SourceId>)
    | Register(source: SourceId, profile: Option<ProfileId>)
    | Unregister(source: SourceId)
    | Ask(flow: FlowId, request: RequestId)
    | Answer(request: RequestId)
    | BodyEnds(flow: FlowId, ok: bool)
    | Watchdog(flow: FlowId)
    | AfterSettles(flow: FlowId)
    | ConnectEnds(flow: FlowId, ok: bool)
    | RemoveEnds(flow: FlowId)
    | Cancel(flow: FlowId)

  function Open(): Broker {
    Broker(0, map[], {}, map[], map[], [], [], {}, map[], [])
  }

  predicate Unsettled(f: Flow) {
    match f
    case AccountFlow(_, settled, _, _, _) => !settled
    case ConnectFlow(_, stage, _) => !stage.Ended?
  }

  // ---- Pieces ---------------------------------------------------------------------------

  function Sweep(waits: map<RequestId, FlowId>, f: FlowId): map<RequestId, FlowId> {
    map r | r in waits && waits[r] != f :: waits[r]
  }

  // releaseAccountFlow: keyed by flow, so only the holder frees the slot.
  function Release(slots: map<AccountId, FlowId>, account: AccountId, f: FlowId): map<AccountId, FlowId> {
    if account in slots && slots[account] == f then slots - {account} else slots
  }

  /** The one exit of an account flow: whoever comes second changes nothing. */
  function Finish(b: Broker, f: FlowId, done: bool): Broker
    requires f in b.all && b.all[f].AccountFlow?
  {
    var flow := b.all[f];
    if flow.settled then b
    else
      b.(all := b.all[f := flow.(settled := true, armed := false)],
         terminals := b.terminals + [Terminal(f, done)],
         registry := b.registry - {f},
         waits := Sweep(b.waits, f),
         slots := Release(b.slots, flow.account, f))
  }

  // The end of a connect flow: its event, then the finally block.
  function End(b: Broker, f: FlowId, done: bool): Broker
    requires f in b.all && b.all[f].ConnectFlow?
  {
    b.(all := b.all[f := b.all[f].(stage := Ended)],
       terminals := b.terminals + [Terminal(f, done)],
       registry := b.registry - {f},
       waits := Sweep(b.waits, f),
       started := if done then b.started + [f] else b.started)
  }

  function Begin(b: Broker, account: AccountId): Broker {
    var f := b.next;
    if account in b.slots then
      b.(next := f + 1, terminals := b.terminals + [Terminal(f, false)])
    else
      b.(next := f + 1,
         all := b.all[f := AccountFlow(account, false, false, false, true)],
         registry := b.registry + {f},
         slots := b.slots[account := f])
  }

  // A flow for an unknown source ends at once, and what comes next waits only for that.
  function LaunchOne(b: Broker, known: bool, after: Option<FlowId>): Broker {
    var f := b.next;
    if known then
      b.(next := f + 1, all := b.all[f := ConnectFlow(after, Waiting, false)], registry := b.registry + {f})
    else
      b.(next := f + 1, all := b.all[f := ConnectFlow(None, Ended, false)],
         terminals := b.terminals + [Terminal(f, false)])
  }

  // One flow for each source, each waiting for the one before.
  function LaunchAll(b: Broker, ids: seq<SourceId>): (r: (Broker, seq<FlowId>))
    ensures |r.1| == |ids|
  {
    if |ids| == 0 then (b, [])
    else
      var n := |ids| - 1;
      var (before, flows) := LaunchAll(b, ids[..n]);
      (LaunchOne(before, ids[n] in b.sources, if n == 0 then None else Some(flows[n - 1])), flows + [before.next])
  }

  /** Every source of the group has the first one's OAuth profile. */
  predicate GroupAccepted(b: Broker, ids: seq<SourceId>) {
    var first := if |ids| == 0 then "" else ids[0];
    first in b.profiles &&
    forall k :: 0 <= k < |ids| ==> ids[k] in b.profiles && b.profiles[ids[k]] == b.profiles[first]
  }

  // A refused group throws before anything is launched.
  function BeginGroup(b: Broker, ids: seq<SourceId>): Broker {
    if GroupAccepted(b, ids) then
      var (launched, flows) := LaunchAll(b, ids);
      launched.(groups := launched.groups + [flows])
    else b
  }

  // The flag, and the abort that arms the watchdog once.
  function Abandon(flow: Flow): Flow {
    match flow
    case AccountFlow(account, settled, _, _, body) => AccountFlow(account, settled, true, true, body)
    case ConnectFlow(after, stage, _) => ConnectFlow(after, stage, true)
  }

  function Cancelled(b: Broker, f: FlowId): Broker
    requires f in b.registry ==> f in b.all
  {
    if f !in b.registry then b
    else
      b.(all := b.all[f := Abandon(b.all[f])], waits := Sweep(b.waits, f))
  }

  // ---- Steps ------------------------------------------------------------------------------

  predicate Legal(b: Broker, step: Step) {
    match step
    case StartAccount(_) => true
    case Start(_) => true
    case StartGroup(_) => true
    case Register(_, _) => true
    case Unregister(_) => true
    case Ask(f, r) => r !in b.waits && f in b.all &&
                      (if b.all[f].AccountFlow? then b.all[f].body else b.all[f].stage.Connecting?)
    case Answer(_) => true
    case BodyEnds(f, _) => f in b.all && b.all[f].AccountFlow? && b.all[f].body
    case Watchdog(f) => f in b.all && b.all[f].AccountFlow? && b.all[f].armed
    case AfterSettles(f) => f in b.all && b.all[f].ConnectFlow? && b.all[f].stage.Waiting? &&
                            (b.all[f].after.Some? ==>
                             b.all[f].after.value in b.all && !Unsettled(b.all[b.all[f].after.value]))
    case ConnectEnds(f, _) => f in b.all && b.all[f].ConnectFlow? && b.all[f].stage.Connecting?
    case RemoveEnds(f) => f in b.all && b.all[f].ConnectFlow? && b.all[f].stage.Removing?
    case Cancel(f) => f in b.registry ==> f in b.all
  }

  function Next(b: Broker, step: Step): Broker
    requires Legal(b, step)
  {
    match step
    case StartAccount(account) => Begin(b, account)
    case Start(source) => LaunchOne(b, source in b.sources, None)
    case StartGroup(ids) => BeginGroup(b, ids)
    // A source and its profile come and go in one synchronous block.
    case Register(source, profile) =>
      b.(sources := b.sources + {source},
         profiles := if profile.Some? then b.profiles[source := profile.value] else b.profiles)
    case Unregister(source) => b.(sources := b.sources - {source}, profiles := b.profiles - {source})
    case Ask(f, r) => b.(waits := b.waits[r := f])
    case Answer(r) => b.(waits := b.waits - {r})
    case BodyEnds(f, ok) => Finish(b.(all := b.all[f := b.all[f].(body := false)]), f, ok)
    case Watchdog(f) => Finish(b, f, false)
    case AfterSettles(f) =>
      if b.all[f].cancelled then End(b, f, false) else b.(all := b.all[f := b.all[f].(stage := Connecting)])
    case ConnectEnds(f, ok) =>
      if ok && b.all[f].cancelled then b.(all := b.all[f := b.all[f].(stage := Removing)]) else End(b, f, ok)
    case RemoveEnds(f) => End(b, f, false)
    case Cancel(f) => Cancelled(b, f)
  }

  predicate LegalRun(b: Broker, steps: seq<Step>)
    decreases |steps|
  {
    |steps| == 0 || (Legal(b, steps[0]) && LegalRun(Next(b, steps[0]), steps[1..]))
  }

  function Exec(b: Broker, steps: seq<Step>): Broker
    requires LegalRun(b, steps)
    decreases |steps|
  {
    if |steps| == 0 then b else Exec(Next(b, steps[0]), steps[1..])
  }
}
