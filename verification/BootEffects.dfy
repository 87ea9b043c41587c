/**
 * What each call of the boot queue does with an account.
 */
module BootEffects {
  import opened BootSpec
  import opened BootProofs

  // ---- Pending sources are unregistered ones ---------------------------------------------

  ghost predicate Waiting(b: Boot) {
    b.pending.Keys !! b.registered
  }

  lemma {:induction false} DeclaredUnregistered(pending: map<SourceId, ExtensionId>, registered: set<SourceId>,
                                                e: Extension, n: nat)
    requires n <= |e.sources| && pending.Keys !! registered
    ensures Declared(pending, registered, e, n).Keys !! registered
  {
    if n > 0 {
      DeclaredUnregistered(pending, registered, e, n - 1);
    }
  }

  lemma {:induction false} MarkedUnregistered(pending: map<SourceId, ExtensionId>, registered: set<SourceId>,
                                              snapshot: seq<Extension>, n: nat)
    requires n <= |snapshot| && pending.Keys !! registered
    ensures Marked(pending, registered, snapshot, n).Keys !! registered
  {
    if n > 0 {
      MarkedUnregistered(pending, registered, snapshot, n - 1);
      var e := snapshot[n - 1];
      DeclaredUnregistered(Marked(pending, registered, snapshot, n - 1), registered, e, |e.sources|);
    }
  }

  lemma {:induction false} SyncLeaves(b: Boot, accounts: seq<Account>)
    ensures var r := SyncPending(b, accounts);
            r.pending == b.pending && r.registered == b.registered && r.direct == b.direct && r.stopped == b.stopped
    decreases |accounts|
  {
    if |accounts| > 0 {
      var a := accounts[0];
      SyncLeaves(if a.source == "worker" || a.parked || !IsPending(b, a.source) then b else Enqueue(b, a, Explicit),
                 accounts[1..]);
    }
  }

  lemma {:induction false} SnapshotLeaves(b: Boot, snapshot: seq<Extension>, order: seq<SourceId>)
    ensures var r := OnSnapshot(b, snapshot, order); r.pending.Keys <= b.pending.Keys && r.registered == b.registered
    decreases |order|
  {
    if |order| > 0 {
      SnapshotLeaves(if Releases(b, snapshot, order[0]) then Depart(b, order[0]) else b, snapshot, order[1..]);
    }
  }

  lemma StepWaiting(b: Boot, step: Step)
    requires Inv(b) && Waiting(b) && Legal(b, step)
    ensures Waiting(Next(b, step))
  {
    match step
    case DoArm(snapshot) => MarkedUnregistered(b.pending, b.registered, snapshot, |snapshot|);
    case DoDefer(account) =>
    case DoRunOrQueue(account, intent) =>
    case DoSyncPending(accounts) => SyncLeaves(b, accounts);
    case DoRegister(source) =>
    case DoUnregister(source) =>
    case DoSnapshot(snapshot, order) => SnapshotLeaves(b, snapshot, order);
    case DoArrive(qid, read) =>
    case DoStop =>
  }

  lemma {:induction false} RunWaiting(b: Boot, steps: seq<Step>)
    requires Inv(b) && NoneEmpty(b) && Waiting(b) && LegalRun(b, steps)
    ensures Waiting(Exec(b, steps))
    decreases |steps|
  {
    if |steps| > 0 {
      StepKeeps(b, steps[0]);
      StepWaiting(b, steps[0]);
      RunWaiting(Next(b, steps[0]), steps[1..]);
    }
  }

  /** Over every run a source leaves the pending ones as it registers. */
  lemma PendingAreUnregistered(registered: set<SourceId>, steps: seq<Step>)
    requires LegalRun(Fresh(registered), steps)
    ensures Waiting(Exec(Fresh(registered), steps))
  {
    FreshIsSafe(registered);
    RunWaiting(Fresh(registered), steps);
  }

  // ---- What a call does ----------------------------------------------------------------------

  // Queued behind its source, and asked for with this intent.
  ghost predicate QueuedWith(b: Boot, r: Boot, account: Account, intent: Intent) {
    && account.source in r.queued && Has(r.queued[account.source].entries, account.id)
    && r.asks == b.asks + [Ask(r.queued[account.source].qid, account.id, intent)]
    && r.direct == b.direct && r.outcomes == b.outcomes && r.flights == b.flights && r.pending == b.pending
    && (forall s :: s != account.source ==> (s in r.queued <==> s in b.queued))
    && (forall s :: s != account.source && s in b.queued ==> r.queued[s] == b.queued[s])
  }

  lemma EnqueueQueues(b: Boot, account: Account, intent: Intent)
    ensures QueuedWith(b, Enqueue(b, account, intent), account, intent)
  {
    PutHas(if account.source in b.queued then b.queued[account.source].entries else [], account.id, intent, account.id);
  }

  /** A start asked for runs now, unless its source is pending: then it queues with that intent. */
  lemma RunOrQueueIs(b: Boot, account: Account, intent: Intent)
    requires Inv(b) && Waiting(b)
    ensures var r := Next(b, DoRunOrQueue(account, intent));
            if account.source in b.pending then QueuedWith(b, r, account, intent)
            else r == b.(direct := b.direct + [account.id])
  {
    EnqueueQueues(b, account, intent);
  }

  /** A resumed account queues as automatic behind a pending source, and is otherwise left to the caller. */
  lemma DeferIs(b: Boot, account: Account)
    requires Inv(b) && Waiting(b)
    ensures var r := Next(b, DoDefer(account));
            if account.source in b.pending then QueuedWith(b, r, account, Auto) else r == b
  {
    EnqueueQueues(b, account, Auto);
  }

  // The accounts that Sync now asks for.
  predicate Synced(b: Boot, a: Account) {
    a.source != "worker" && !a.parked && a.source in b.pending
  }

  // What was asked is asked still, all new asks are explicit, and one is for this account if wanted.
  predicate AsksAdded(before: seq<Ask>, after: seq<Ask>, id: AccountId, wanted: bool) {
    && before <= after
    && (forall k {:trigger after[k]} :: |before| <= k < |after| ==> after[k].intent == Explicit)
    && (wanted <==> exists k {:trigger after[k]} :: |before| <= k < |after| && after[k].id == id)
  }

  lemma AsksJoin(a: seq<Ask>, b: seq<Ask>, c: seq<Ask>, id: AccountId, first: bool, rest: bool)
    requires AsksAdded(a, b, id, first) && AsksAdded(b, c, id, rest)
    ensures AsksAdded(a, c, id, first || rest)
  {
    forall k | |a| <= k < |c| ensures c[k].intent == Explicit {
      assert k < |b| ==> c[k] == b[k];
    }
    if first {
      var k :| |a| <= k < |b| && b[k].id == id;
      assert c[k] == b[k];
    }
    if k :| |a| <= k < |c| && c[k].id == id {
      assert k < |b| ==> b[k] == c[k];
    }
  }

  // One account of a Sync now.
  function SyncedOne(b: Boot, a: Account): Boot {
    if a.source == "worker" || a.parked || !IsPending(b, a.source) then b else Enqueue(b, a, Explicit)
  }

  lemma SyncOne(b: Boot, a: Account, id: AccountId)
    requires Inv(b) && NoneEmpty(b) && Waiting(b)
    ensures var r := SyncedOne(b, a);
            && Inv(r) && NoneEmpty(r) && Waiting(r) && r.pending == b.pending
            && AsksAdded(b.asks, r.asks, id, a.id == id && Synced(b, a))
  {
    if Synced(b, a) {
      EnqueueFills(b, a, Explicit);
      EnqueueQueues(b, a, Explicit);
      var r := SyncedOne(b, a);
      assert r.asks[|b.asks|].id == a.id;
    }
  }

  ghost predicate AnySynced(b: Boot, accounts: seq<Account>, id: AccountId) {
    exists i :: 0 <= i < |accounts| && accounts[i].id == id && Synced(b, accounts[i])
  }

  /** Sync now asks explicitly for exactly the others' accounts behind a pending source, parked ones not. */
  lemma {:induction false} SyncAsks(b: Boot, accounts: seq<Account>, id: AccountId)
    requires Inv(b) && NoneEmpty(b) && Waiting(b)
    ensures var r := Next(b, DoSyncPending(accounts));
            r.direct == b.direct && AsksAdded(b.asks, r.asks, id, AnySynced(b, accounts, id))
    decreases |accounts|
  {
    SyncLeaves(b, accounts);
    if |accounts| > 0 {
      var a := accounts[0];
      var c := SyncedOne(b, a);
      SyncOne(b, a, id);
      SyncAsks(c, accounts[1..], id);
      SyncedFirst(b, accounts, id);
      SameSynced(b, c, accounts[1..], id);
      AsksJoin(b.asks, c.asks, SyncPending(c, accounts[1..]).asks, id, a.id == id && Synced(b, a),
               AnySynced(b, accounts[1..], id));
    }
  }

  lemma SameSynced(b: Boot, c: Boot, accounts: seq<Account>, id: AccountId)
    requires b.pending == c.pending
    ensures AnySynced(b, accounts, id) <==> AnySynced(c, accounts, id)
  {
    assert forall a :: Synced(b, a) <==> Synced(c, a);
  }

  lemma SyncedFirst(b: Boot, accounts: seq<Account>, id: AccountId)
    requires |accounts| > 0
    ensures AnySynced(b, accounts, id) <==>
            (accounts[0].id == id && Synced(b, accounts[0])) || AnySynced(b, accounts[1..], id)
  {
    var rest := accounts[1..];
    if i :| 0 <= i < |accounts| && accounts[i].id == id && Synced(b, accounts[i]) {
      assert i > 0 ==> rest[i - 1] == accounts[i];
    }
    if i :| 0 <= i < |rest| && rest[i].id == id && Synced(b, rest[i]) {
      assert accounts[i + 1] == rest[i];
    }
  }

  /** A source that registers leaves the pending ones, and its queue, whole, is dispatched. */
  lemma RegisterDispatches(b: Boot, source: SourceId)
    requires Inv(b)
    ensures var r := Next(b, DoRegister(source));
            && source in r.registered && r.pending.Keys == b.pending.Keys - {source}
            && source !in r.queued
            && (source in b.queued ==>
                  b.queued[source].qid in r.flights && r.flights[b.queued[source].qid] == b.queued[source].entries)
            && (source !in b.queued ==> r.flights == b.flights) && r.outcomes == b.outcomes
  {
  }

  /** A stop empties both maps and takes the listener off. */
  lemma StopClears(b: Boot)
    ensures var r := Next(b, DoStop);
            r.stopped && !r.on && r.pending == map[] && r.queued == map[] && r.outcomes == b.outcomes
  {
  }
}
