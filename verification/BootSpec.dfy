/**
 * The boot queue: accounts whose source has not registered yet, each started once when it
 * does. A queue is known by the Map object that holds it, here its number.
 */
module BootSpec {
  import opened Wrappers

  type SourceId = string
  type ExtensionId = string
  type AccountId = nat
  type QueueId = nat

  datatype Intent = Auto | Explicit

  datatype Account = Account(id: AccountId, source: SourceId, parked: bool, resting: bool)

  datatype Extension = Extension(id: ExtensionId, enabled: bool, errored: bool, sources: seq<SourceId>)

  datatype Entry = Entry(id: AccountId, intent: Intent)

  datatype Queue = Queue(qid: QueueId, entries: seq<Entry>)

  // The account as re-read at dispatch, or the read's failure.
  datatype Read = Gone | Failed | Found(account: Account)

  // A queue request, and what came of an entry: what was read, and whether it was started.
  datatype Ask = Ask(qid: QueueId, id: AccountId, intent: Intent)
  datatype Outcome = Outcome(qid: QueueId, id: AccountId, intent: Intent, read: Read, started: bool)

  datatype Boot = Boot(
    pending: map<SourceId, ExtensionId>,
    queued: map<SourceId, Queue>,
    on: bool,                              // the registration listener, `off`
    stopped: bool,
    registered: set<SourceId>,
    flights: map<QueueId, seq<Entry>>,     // dispatches under way; the head is being read
    nextQueue: QueueId,
    asks: seq<Ask>,
    outcomes: seq<Outcome>,
    direct: seq<AccountId>                 // started without queueing
  )

  function Fresh(registered: set<SourceId>): Boot {
    Boot(map[], map[], false, false, registered, map[], 0, [], [], [])
  }

  predicate IsPending(b: Boot, source: SourceId) {
    !b.stopped && source in b.pending && source !in b.registered
  }

  // ---- Queueing -------------------------------------------------------------------------

  /** An explicit start upgrades a queued automatic one, never the reverse. */
  function Put(entries: seq<Entry>, id: AccountId, intent: Intent): (r: seq<Entry>)
    ensures |r| >= |entries|
  {
    if |entries| == 0 then [Entry(id, intent)]
    else if entries[0].id == id then
      (if entries[0].intent.Explicit? then entries else [Entry(id, intent)] + entries[1..])
    else [entries[0]] + Put(entries[1..], id, intent)
  }

  function Enqueue(b: Boot, account: Account, intent: Intent): Boot {
    var had := account.source in b.queued;
    var q := if had then b.queued[account.source] else Queue(b.nextQueue, []);
    b.(queued := b.queued[account.source := Queue(q.qid, Put(q.entries, account.id, intent))],
       nextQueue := if had then b.nextQueue else b.nextQueue + 1,
       asks := b.asks + [Ask(q.qid, account.id, intent)])
  }

  function Defer(b: Boot, account: Account): Boot {
    if IsPending(b, account.source) then Enqueue(b, account, Auto) else b
  }

  function RunOrQueue(b: Boot, account: Account, intent: Intent): Boot {
    if IsPending(b, account.source) then Enqueue(b, account, intent)
    else b.(direct := b.direct + [account.id])
  }

  function SyncPending(b: Boot, accounts: seq<Account>): Boot
    decreases |accounts|
  {
    if |accounts| == 0 then b
    else
      var a := accounts[0];
      SyncPending(if a.source == "worker" || a.parked || !IsPending(b, a.source) then b else Enqueue(b, a, Explicit),
                  accounts[1..])
  }

  // ---- Marking and releasing --------------------------------------------------------------

  function Declared(pending: map<SourceId, ExtensionId>, registered: set<SourceId>, e: Extension, n: nat)
    : map<SourceId, ExtensionId>
    requires n <= |e.sources|
  {
    if n == 0 then pending
    else
      var rest := Declared(pending, registered, e, n - 1);
      if e.sources[n - 1] in registered then rest else rest[e.sources[n - 1] := e.id]
  }

  function Marked(pending: map<SourceId, ExtensionId>, registered: set<SourceId>, snapshot: seq<Extension>, n: nat)
    : map<SourceId, ExtensionId>
    requires n <= |snapshot|
  {
    if n == 0 then pending
    else
      var rest, e := Marked(pending, registered, snapshot, n - 1), snapshot[n - 1];
      if !e.enabled || e.errored then rest else Declared(rest, registered, e, |e.sources|)
  }

  function Arm(b: Boot, snapshot: seq<Extension>): Boot {
    if b.stopped then b
    else
      var pending := Marked(b.pending, b.registered, snapshot, |snapshot|);
      b.(pending := pending, on := b.on || pending != map[])
  }

  // The synchronous half of dispatch: off the lists, listener off with the last one.
  function Depart(b: Boot, source: SourceId): Boot {
    var pending := b.pending - {source};
    b.(pending := pending,
       queued := b.queued - {source},
       on := b.on && pending != map[],
       flights := if source in b.queued then b.flights[b.queued[source].qid := b.queued[source].entries] else b.flights)
  }

  function Registers(b: Boot, source: SourceId): Boot {
    var b' := b.(registered := b.registered + {source});
    if b.on && source in b.pending then Depart(b', source) else b'
  }

  // The snapshot's last word on an extension.
  function Find(snapshot: seq<Extension>, id: ExtensionId): (r: Option<Extension>)
    ensures r.Some? ==> r.value in snapshot && r.value.id == id
    ensures r.None? <==> forall e :: e in snapshot ==> e.id != id
  {
    if |snapshot| == 0 then None
    else
      var last := snapshot[|snapshot| - 1];
      assert snapshot == snapshot[..|snapshot| - 1] + [last];
      if last.id == id then Some(last) else Find(snapshot[..|snapshot| - 1], id)
  }

  // Errored, disabled or gone before its source registered.
  predicate Releases(b: Boot, snapshot: seq<Extension>, source: SourceId) {
    source in b.pending && source !in b.registered &&
    var e := Find(snapshot, b.pending[source]);
    !(e.Some? && e.value.enabled && !e.value.errored)
  }

  // `order` lists the sources pending when the snapshot arrived.
  function OnSnapshot(b: Boot, snapshot: seq<Extension>, order: seq<SourceId>): Boot
    decreases |order|
  {
    if |order| == 0 then b
    else OnSnapshot(if Releases(b, snapshot, order[0]) then Depart(b, order[0]) else b, snapshot, order[1..])
  }

  function Stop(b: Boot): Boot {
    b.(stopped := true, on := false, pending := map[], queued := map[])
  }

  // ---- A dispatch under way ------------------------------------------------------------------

  predicate ShouldStart(read: Read, intent: Intent) {
    read.Found? && !read.account.parked && (intent.Explicit? || !read.account.resting)
  }

  /** The read of a dispatch's next account comes back. */
  function Arrive(b: Boot, qid: QueueId, read: Read): Boot
    requires qid in b.flights && |b.flights[qid]| > 0
  {
    if b.stopped then b.(flights := b.flights - {qid})
    else
      var e := b.flights[qid][0];
      b.(flights := if |b.flights[qid]| == 1 then b.flights - {qid} else b.flights[qid := b.flights[qid][1..]],
         outcomes := b.outcomes + [Outcome(qid, e.id, e.intent, read, ShouldStart(read, e.intent))])
  }

  // ---- Steps ------------------------------------------------------------------------------------

  datatype Step =
    | DoArm(snapshot: seq<Extension>)
    | DoDefer(account: Account)
    | DoRunOrQueue(account: Account, intent: Intent)
    | DoSyncPending(accounts: seq<Account>)
    | DoRegister(source: SourceId)
    | DoUnregister(source: SourceId)
    | DoSnapshot(snapshot: seq<Extension>, order: seq<SourceId>)
    | DoArrive(qid: QueueId, read: Read)
    | DoStop

  predicate Legal(b: Boot, step: Step) {
    match step
    case DoArrive(qid, _) => qid in b.flights && |b.flights[qid]| > 0
    case DoSnapshot(_, order) => (set s | s in order) == b.pending.Keys
    case _ => true
  }

  function Next(b: Boot, step: Step): Boot
    requires Legal(b, step)
  {
    match step
    case DoArm(snapshot) => Arm(b, snapshot)
    case DoDefer(account) => Defer(b, account)
    case DoRunOrQueue(account, intent) => RunOrQueue(b, account, intent)
    case DoSyncPending(accounts) => SyncPending(b, accounts)
    case DoRegister(source) => Registers(b, source)
    case DoUnregister(source) => b.(registered := b.registered - {source})
    case DoSnapshot(snapshot, order) => if b.stopped then b else OnSnapshot(b, snapshot, order)
    case DoArrive(qid, read) => Arrive(b, qid, read)
    case DoStop => Stop(b)
  }

  predicate LegalRun(b: Boot, steps: seq<Step>)
    decreases |steps|
  {
    |steps| == 0 || (Legal(b, steps[0]) && LegalRun(Next(b, steps[0]), steps[1..]))
  }

  function Exec(b: Boot, steps: seq<Step>): Boot
    requires LegalRun(b, steps)
    decreases |steps|
  {
    if |steps| == 0 then b else Exec(Next(b, steps[0]), steps[1..])
  }
}
