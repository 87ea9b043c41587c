/**
 * What every run of the boot queue keeps.
 */
module BootProofs {
  import opened BootSpec

  // ---- The invariant --------------------------------------------------------------------

  ghost predicate Has(entries: seq<Entry>, id: AccountId) {
    exists k :: 0 <= k < |entries| && entries[k].id == id
  }

  ghost predicate Distinct(entries: seq<Entry>) {
    forall i, j {:trigger entries[i], entries[j]} :: 0 <= i < j < |entries| ==> entries[i].id != entries[j].id
  }

  /** Queued sources are pending, and somebody listens while anything is pending. */
  ghost predicate Listening(b: Boot) {
    && b.queued.Keys <= b.pending.Keys
    && (b.on <==> b.pending != map[])
    && (b.stopped ==> b.pending == map[])
  }

  ghost predicate QueueIds(queued: map<SourceId, Queue>, flights: map<QueueId, seq<Entry>>, next: QueueId) {
    && (forall s {:trigger queued[s]} :: s in queued ==> queued[s].qid < next && queued[s].qid !in flights)
    && (forall s, t {:trigger queued[s], queued[t]} :: s in queued && t in queued && s != t ==>
        queued[s].qid != queued[t].qid)
    && (forall q {:trigger q in flights} :: q in flights ==> q < next)
  }

  predicate Wanted(asks: seq<Ask>, qid: QueueId, id: AccountId, intent: Intent) {
    Ask(qid, id, intent) in asks
  }

  /** Each entry was asked for, and carries the strongest intent it was asked with. */
  ghost predicate Strongest(asks: seq<Ask>, qid: QueueId, id: AccountId, intent: Intent) {
    && (intent.Explicit? <==> Wanted(asks, qid, id, Explicit))
    && Wanted(asks, qid, id, intent)
  }

  ghost predicate EntriesOk(asks: seq<Ask>, qid: QueueId, entries: seq<Entry>) {
    && Distinct(entries)
    && forall k {:trigger entries[k]} :: 0 <= k < |entries| ==> Strongest(asks, qid, entries[k].id, entries[k].intent)
  }

  ghost predicate QueuedOk(queued: map<SourceId, Queue>, asks: seq<Ask>) {
    forall s {:trigger queued[s]} :: s in queued ==> EntriesOk(asks, queued[s].qid, queued[s].entries)
  }

  ghost predicate FlightsOk(flights: map<QueueId, seq<Entry>>, asks: seq<Ask>) {
    forall q {:trigger flights[q]} :: q in flights ==> |flights[q]| > 0 && EntriesOk(asks, q, flights[q])
  }

  ghost predicate Settled(outcomes: seq<Outcome>, qid: QueueId, id: AccountId) {
    exists k :: 0 <= k < |outcomes| && outcomes[k].qid == qid && outcomes[k].id == id
  }

  ghost predicate OnlyOnce(outcomes: seq<Outcome>) {
    forall i, j {:trigger outcomes[i], outcomes[j]} :: 0 <= i < j < |outcomes| ==>
      outcomes[i].qid != outcomes[j].qid || outcomes[i].id != outcomes[j].id
  }

  // It was found, not parked, and either not resting or asked for explicitly in its queue.
  predicate MayStart(asks: seq<Ask>, o: Outcome) {
    o.read.Found? && !o.read.account.parked && (!o.read.account.resting || Wanted(asks, o.qid, o.id, Explicit))
  }

  ghost predicate OutcomeOk(o: Outcome, asks: seq<Ask>, queued: map<SourceId, Queue>, flights: map<QueueId, seq<Entry>>,
                            next: QueueId) {
    && o.qid < next
    && Strongest(asks, o.qid, o.id, o.intent)
    && (o.started <==> MayStart(asks, o))
    && (forall s {:trigger queued[s]} :: s in queued ==> queued[s].qid != o.qid)
    && (o.qid in flights ==> !Has(flights[o.qid], o.id))
  }

  ghost predicate OutcomesOk(b: Boot) {
    && OnlyOnce(b.outcomes)
    && forall k {:trigger b.outcomes[k]} :: 0 <= k < |b.outcomes| ==>
         OutcomeOk(b.outcomes[k], b.asks, b.queued, b.flights, b.nextQueue)
  }

  ghost predicate InQueue(queued: map<SourceId, Queue>, qid: QueueId, id: AccountId) {
    exists s :: s in queued && queued[s].qid == qid && Has(queued[s].entries, id)
  }

  /** Where a request is: queued, being dispatched, or settled; only a stop loses one. */
  ghost predicate Kept(b: Boot, a: Ask) {
    InQueue(b.queued, a.qid, a.id) || (a.qid in b.flights && Has(b.flights[a.qid], a.id)) ||
    Settled(b.outcomes, a.qid, a.id)
  }

  ghost predicate NothingLost(b: Boot) {
    (!b.stopped ==> forall k {:trigger b.asks[k]} :: 0 <= k < |b.asks| ==> Kept(b, b.asks[k])) &&
    forall k {:trigger b.asks[k]} :: 0 <= k < |b.asks| ==> b.asks[k].qid < b.nextQueue
  }

  ghost predicate Inv(b: Boot) {
    && Listening(b)
    && QueueIds(b.queued, b.flights, b.nextQueue)
    && QueuedOk(b.queued, b.asks)
    && FlightsOk(b.flights, b.asks)
    && OutcomesOk(b)
    && NothingLost(b)
  }

  // ---- Put ----------------------------------------------------------------------------------

  lemma {:induction false} PutHas(entries: seq<Entry>, id: AccountId, intent: Intent, other: AccountId)
    ensures Has(Put(entries, id, intent), other) <==> Has(entries, other) || other == id
  {
    if |entries| == 0 {
      assert Put(entries, id, intent)[0].id == id;
    } else if entries[0].id == id {
      var r := Put(entries, id, intent);
      assert forall k :: 0 <= k < |entries| ==> r[k].id == entries[k].id;
      if other == id {
        assert r[0].id == id;
      }
      assert Has(entries, other) ==> exists k :: 0 <= k < |entries| && r[k].id == other;
    } else {
      var rest := Put(entries[1..], id, intent);
      PutHas(entries[1..], id, intent, other);
      HasCons(entries[0], entries[1..], other);
      HasCons(entries[0], rest, other);
      assert entries == [entries[0]] + entries[1..];
    }
  }

  lemma HasCons(e: Entry, rest: seq<Entry>, id: AccountId)
    ensures Has([e] + rest, id) <==> e.id == id || Has(rest, id)
  {
    var all := [e] + rest;
    if e.id == id {
      assert all[0].id == id;
    }
    if k :| 0 <= k < |rest| && rest[k].id == id {
      assert all[k + 1].id == id;
    }
  }

  lemma {:induction false} PutEntries(entries: seq<Entry>, id: AccountId, intent: Intent, asks: seq<Ask>, qid: QueueId)
    requires EntriesOk(asks, qid, entries)
    requires !Has(entries, id) ==> !Wanted(asks, qid, id, Explicit)
    ensures EntriesOk(asks + [Ask(qid, id, intent)], qid, Put(entries, id, intent))
  {
    var more, r := asks + [Ask(qid, id, intent)], Put(entries, id, intent);
    if |entries| == 0 {
      assert Strongest(more, qid, id, intent);
    } else if entries[0].id == id {
      assert Strongest(asks, qid, entries[0].id, entries[0].intent);
      forall k | 0 <= k < |r| ensures Strongest(more, qid, r[k].id, r[k].intent) {
        assert k > 0 ==> r[k] == entries[k] && entries[0].id != entries[k].id;
      }
    } else {
      var rest := entries[1..];
      assert entries == [entries[0]] + rest;
      HasCons(entries[0], rest, id);
      assert forall k :: 0 <= k < |rest| ==> rest[k] == entries[k + 1];
      PutEntries(rest, id, intent, asks, qid);
      ConsOk(entries[0], rest, id, intent, more, qid);
    }
  }

  lemma ConsOk(e: Entry, rest: seq<Entry>, id: AccountId, intent: Intent, asks: seq<Ask>, qid: QueueId)
    requires EntriesOk(asks, qid, Put(rest, id, intent)) && Strongest(asks, qid, e.id, e.intent)
    requires e.id != id && !Has(rest, e.id)
    ensures EntriesOk(asks, qid, [e] + Put(rest, id, intent))
  {
    var tail := Put(rest, id, intent);
    PutHas(rest, id, intent, e.id);
    var r := [e] + tail;
    assert forall k :: 0 < k < |r| ==> r[k] == tail[k - 1];
  }

  // ---- Enqueue ----------------------------------------------------------------------------------

  lemma StrongestElsewhere(asks: seq<Ask>, a: Ask, qid: QueueId, id: AccountId, intent: Intent)
    requires Strongest(asks, qid, id, intent) && (a.qid != qid || a.id != id)
    ensures Strongest(asks + [a], qid, id, intent)
  {
  }

  lemma EntriesElsewhere(asks: seq<Ask>, a: Ask, qid: QueueId, entries: seq<Entry>)
    requires EntriesOk(asks, qid, entries) && a.qid != qid
    ensures EntriesOk(asks + [a], qid, entries)
  {
    forall k | 0 <= k < |entries| ensures Strongest(asks + [a], qid, entries[k].id, entries[k].intent) {
      StrongestElsewhere(asks, a, qid, entries[k].id, entries[k].intent);
    }
  }

  // An account not in its source's queue was never asked for there.
  lemma NeverAsked(b: Boot, source: SourceId, id: AccountId)
    requires Inv(b) && !b.stopped && source in b.queued && !Has(b.queued[source].entries, id)
    ensures !Wanted(b.asks, b.queued[source].qid, id, Explicit)
  {
    var qid := b.queued[source].qid;
    forall j | 0 <= j < |b.outcomes| ensures b.outcomes[j].qid != qid {
      assert OutcomeOk(b.outcomes[j], b.asks, b.queued, b.flights, b.nextQueue);
    }
    forall k | 0 <= k < |b.asks| ensures b.asks[k].qid != qid || b.asks[k].id != id {
      assert Kept(b, b.asks[k]);
    }
  }

  // The queue an account joins, as it was.
  function Joined(b: Boot, source: SourceId): Queue {
    if source in b.queued then b.queued[source] else Queue(b.nextQueue, [])
  }

  lemma JoinedIsClear(b: Boot, source: SourceId, id: AccountId)
    requires Inv(b) && !b.stopped
    ensures var q := Joined(b, source);
            EntriesOk(b.asks, q.qid, q.entries) && (!Has(q.entries, id) ==> !Wanted(b.asks, q.qid, id, Explicit))
    ensures Joined(b, source).qid !in b.flights
    ensures forall t :: t in b.queued && t != source ==> b.queued[t].qid != Joined(b, source).qid
    ensures forall k :: 0 <= k < |b.outcomes| ==> b.outcomes[k].qid != Joined(b, source).qid
  {
    if source in b.queued {
      if !Has(b.queued[source].entries, id) {
        NeverAsked(b, source, id);
      }
      assert b.queued[source].qid !in b.flights;
    }
    forall k | 0 <= k < |b.outcomes| ensures b.outcomes[k].qid != Joined(b, source).qid {
      assert OutcomeOk(b.outcomes[k], b.asks, b.queued, b.flights, b.nextQueue);
    }
  }

  lemma EnqueueIds(b: Boot, account: Account, intent: Intent)
    requires Inv(b) && IsPending(b, account.source)
    ensures var c := Enqueue(b, account, intent);
            Listening(c) && QueueIds(c.queued, c.flights, c.nextQueue) && QueuedOk(c.queued, c.asks) &&
            FlightsOk(c.flights, c.asks)
  {
    var c, q := Enqueue(b, account, intent), Joined(b, account.source);
    var a := Ask(q.qid, account.id, intent);
    JoinedIsClear(b, account.source, account.id);
    PutEntries(q.entries, account.id, intent, b.asks, q.qid);
    forall s | s in c.queued ensures EntriesOk(c.asks, c.queued[s].qid, c.queued[s].entries) {
      if s != account.source {
        EntriesElsewhere(b.asks, a, b.queued[s].qid, b.queued[s].entries);
      }
    }
    forall f | f in c.flights ensures |c.flights[f]| > 0 && EntriesOk(c.asks, f, c.flights[f]) {
      EntriesElsewhere(b.asks, a, f, b.flights[f]);
    }
  }

  lemma EnqueueOutcomes(b: Boot, account: Account, intent: Intent)
    requires Inv(b) && IsPending(b, account.source)
    ensures OutcomesOk(Enqueue(b, account, intent))
  {
    var c, q := Enqueue(b, account, intent), Joined(b, account.source);
    var a := Ask(q.qid, account.id, intent);
    JoinedIsClear(b, account.source, account.id);
    forall k | 0 <= k < |c.outcomes| ensures OutcomeOk(c.outcomes[k], c.asks, c.queued, c.flights, c.nextQueue) {
      var o := b.outcomes[k];
      assert OutcomeOk(o, b.asks, b.queued, b.flights, b.nextQueue);
      StrongestElsewhere(b.asks, a, o.qid, o.id, o.intent);
    }
  }

  lemma EnqueueLoses(b: Boot, account: Account, intent: Intent)
    requires Inv(b) && IsPending(b, account.source)
    ensures NothingLost(Enqueue(b, account, intent))
  {
    var c, q := Enqueue(b, account, intent), Joined(b, account.source);
    JoinedIsClear(b, account.source, account.id);
    forall k | 0 <= k < |c.asks| ensures Kept(c, c.asks[k]) && c.asks[k].qid < c.nextQueue {
      if k < |b.asks| {
        var a := b.asks[k];
        assert Kept(b, a);
        if InQueue(b.queued, a.qid, a.id) {
          var s :| s in b.queued && b.queued[s].qid == a.qid && Has(b.queued[s].entries, a.id);
          PutHas(b.queued[s].entries, account.id, intent, a.id);
          assert s in c.queued && c.queued[s].qid == a.qid && Has(c.queued[s].entries, a.id);
        }
      } else {
        PutHas(q.entries, account.id, intent, account.id);
        assert c.queued[account.source].qid == q.qid && Has(c.queued[account.source].entries, account.id);
      }
    }
  }

  lemma EnqueueKeeps(b: Boot, account: Account, intent: Intent)
    requires Inv(b) && IsPending(b, account.source)
    ensures Inv(Enqueue(b, account, intent))
  {
    EnqueueIds(b, account, intent);
    EnqueueOutcomes(b, account, intent);
    EnqueueLoses(b, account, intent);
  }

  // ---- Depart ---------------------------------------------------------------------------------------

  lemma DepartOutcomes(b: Boot, source: SourceId)
    requires Inv(b)
    ensures OutcomesOk(Depart(b, source))
  {
    var c := Depart(b, source);
    forall k | 0 <= k < |c.outcomes| ensures OutcomeOk(c.outcomes[k], c.asks, c.queued, c.flights, c.nextQueue) {
      assert OutcomeOk(b.outcomes[k], b.asks, b.queued, b.flights, b.nextQueue);
    }
  }

  lemma DepartLoses(b: Boot, source: SourceId)
    requires Inv(b) && !b.stopped
    ensures NothingLost(Depart(b, source))
  {
    var c := Depart(b, source);
    forall k | 0 <= k < |c.asks| ensures Kept(c, c.asks[k]) && c.asks[k].qid < c.nextQueue {
      var a := b.asks[k];
      assert Kept(b, a);
      if InQueue(b.queued, a.qid, a.id) {
        var s :| s in b.queued && b.queued[s].qid == a.qid && Has(b.queued[s].entries, a.id);
        assert s == source || (s in c.queued && c.queued[s] == b.queued[s]);
      } else if a.qid in b.flights && Has(b.flights[a.qid], a.id) {
        assert source in b.queued ==> b.queued[source].qid != a.qid;
      }
    }
  }

  lemma DepartKeeps(b: Boot, source: SourceId)
    requires Inv(b) && !b.stopped && (source in b.queued ==> |b.queued[source].entries| > 0)
    ensures Inv(Depart(b, source))
  {
    DepartOutcomes(b, source);
    DepartLoses(b, source);
    DepartIds(b, source);
  }

  lemma DepartIds(b: Boot, source: SourceId)
    requires Inv(b) && (source in b.queued ==> |b.queued[source].entries| > 0)
    ensures var c := Depart(b, source);
            Listening(c) && QueueIds(c.queued, c.flights, c.nextQueue) && QueuedOk(c.queued, c.asks) &&
            FlightsOk(c.flights, c.asks)
  {
    var c := Depart(b, source);
    assert source in b.queued ==> EntriesOk(b.asks, b.queued[source].qid, b.queued[source].entries);
    forall s | s in c.queued ensures c.queued[s] == b.queued[s] {
    }
  }

  // ---- Arrive -----------------------------------------------------------------------------------------

  lemma TailOk(asks: seq<Ask>, qid: QueueId, entries: seq<Entry>)
    requires EntriesOk(asks, qid, entries) && |entries| > 0
    ensures EntriesOk(asks, qid, entries[1..]) && !Has(entries[1..], entries[0].id)
    ensures Strongest(asks, qid, entries[0].id, entries[0].intent)
    ensures forall id :: Has(entries, id) <==> id == entries[0].id || Has(entries[1..], id)
  {
    var rest := entries[1..];
    assert forall k :: 0 <= k < |rest| ==> rest[k] == entries[k + 1];
    assert entries == [entries[0]] + rest;
    forall id ensures Has(entries, id) <==> id == entries[0].id || Has(rest, id) {
      HasCons(entries[0], rest, id);
    }
  }

  lemma ArriveOutcomes(b: Boot, qid: QueueId, read: Read)
    requires Inv(b) && qid in b.flights && |b.flights[qid]| > 0
    ensures OutcomesOk(Arrive(b, qid, read))
  {
    var c, e := Arrive(b, qid, read), b.flights[qid][0];
    TailOk(b.asks, qid, b.flights[qid]);
    forall k | 0 <= k < |c.outcomes| ensures OutcomeOk(c.outcomes[k], c.asks, c.queued, c.flights, c.nextQueue) {
      assert k < |b.outcomes| ==> OutcomeOk(b.outcomes[k], b.asks, b.queued, b.flights, b.nextQueue);
    }
    forall k | 0 <= k < |b.outcomes| ensures b.outcomes[k].qid != qid || b.outcomes[k].id != e.id {
      assert OutcomeOk(b.outcomes[k], b.asks, b.queued, b.flights, b.nextQueue);
      assert Has(b.flights[qid], e.id);
    }
  }

  lemma ArriveLoses(b: Boot, qid: QueueId, read: Read)
    requires Inv(b) && qid in b.flights && |b.flights[qid]| > 0
    ensures NothingLost(Arrive(b, qid, read))
  {
    var c, e := Arrive(b, qid, read), b.flights[qid][0];
    TailOk(b.asks, qid, b.flights[qid]);
    if !b.stopped {
      assert c.outcomes[|b.outcomes|].qid == qid && c.outcomes[|b.outcomes|].id == e.id;
      forall k | 0 <= k < |c.asks| ensures Kept(c, c.asks[k]) {
        var a := b.asks[k];
        assert Kept(b, a);
        if Settled(b.outcomes, a.qid, a.id) {
          var j :| 0 <= j < |b.outcomes| && b.outcomes[j].qid == a.qid && b.outcomes[j].id == a.id;
          assert c.outcomes[j] == b.outcomes[j];
        }
      }
    }
  }

  lemma ArriveKeeps(b: Boot, qid: QueueId, read: Read)
    requires Inv(b) && qid in b.flights && |b.flights[qid]| > 0
    ensures Inv(Arrive(b, qid, read))
  {
    ArriveOutcomes(b, qid, read);
    ArriveLoses(b, qid, read);
    TailOk(b.asks, qid, b.flights[qid]);
  }

  // ---- The other steps ------------------------------------------------------------------------------------

  // A queue, once made, has an entry.
  ghost predicate NoneEmpty(b: Boot) {
    forall s {:trigger b.queued[s]} :: s in b.queued ==> |b.queued[s].entries| > 0
  }

  lemma {:induction false} PutNotEmpty(entries: seq<Entry>, id: AccountId, intent: Intent)
    ensures |Put(entries, id, intent)| > 0
  {
    PutHas(entries, id, intent, id);
  }

  lemma EnqueueFills(b: Boot, account: Account, intent: Intent)
    requires Inv(b) && NoneEmpty(b) && IsPending(b, account.source)
    ensures Inv(Enqueue(b, account, intent)) && NoneEmpty(Enqueue(b, account, intent))
    ensures Enqueue(b, account, intent).pending == b.pending && Enqueue(b, account, intent).stopped == b.stopped
  {
    EnqueueKeeps(b, account, intent);
    PutNotEmpty(Joined(b, account.source).entries, account.id, intent);
  }

  lemma {:induction false} SyncKeeps(b: Boot, accounts: seq<Account>)
    requires Inv(b) && NoneEmpty(b)
    ensures Inv(SyncPending(b, accounts)) && NoneEmpty(SyncPending(b, accounts))
    decreases |accounts|
  {
    if |accounts| > 0 {
      var a := accounts[0];
      if a.source == "worker" || a.parked || !IsPending(b, a.source) {
        SyncKeeps(b, accounts[1..]);
      } else {
        EnqueueFills(b, a, Explicit);
        SyncKeeps(Enqueue(b, a, Explicit), accounts[1..]);
      }
    }
  }

  lemma {:induction false} SnapshotKeeps(b: Boot, snapshot: seq<Extension>, order: seq<SourceId>)
    requires Inv(b) && NoneEmpty(b) && !b.stopped
    ensures Inv(OnSnapshot(b, snapshot, order)) && NoneEmpty(OnSnapshot(b, snapshot, order))
    decreases |order|
  {
    if |order| > 0 {
      if Releases(b, snapshot, order[0]) {
        DepartKeeps(b, order[0]);
        SnapshotKeeps(Depart(b, order[0]), snapshot, order[1..]);
      } else {
        SnapshotKeeps(b, snapshot, order[1..]);
      }
    }
  }

  lemma {:induction false} DeclaredAdds(pending: map<SourceId, ExtensionId>, registered: set<SourceId>, e: Extension,
                                        n: nat)
    requires n <= |e.sources|
    ensures pending.Keys <= Declared(pending, registered, e, n).Keys
  {
    if n > 0 {
      DeclaredAdds(pending, registered, e, n - 1);
    }
  }

  lemma {:induction false} MarkedAdds(pending: map<SourceId, ExtensionId>, registered: set<SourceId>,
                                      snapshot: seq<Extension>, n: nat)
    requires n <= |snapshot|
    ensures pending.Keys <= Marked(pending, registered, snapshot, n).Keys
  {
    if n > 0 {
      MarkedAdds(pending, registered, snapshot, n - 1);
      var e := snapshot[n - 1];
      DeclaredAdds(Marked(pending, registered, snapshot, n - 1), registered, e, |e.sources|);
    }
  }

  lemma SamePlaces(b: Boot, c: Boot)
    requires Inv(b) && Listening(c)
    requires c == b.(pending := c.pending, on := c.on, registered := c.registered, direct := c.direct)
    ensures Inv(c) && (NoneEmpty(b) ==> NoneEmpty(c))
  {
    assert forall k {:trigger b.asks[k]} :: 0 <= k < |b.asks| && Kept(b, b.asks[k]) ==> Kept(c, c.asks[k]);
    assert OutcomesOk(c);
  }

  lemma StopKeeps(b: Boot)
    requires Inv(b)
    ensures Inv(Stop(b)) && NoneEmpty(Stop(b))
  {
    forall k | 0 <= k < |b.outcomes| ensures OutcomeOk(b.outcomes[k], b.asks, map[], b.flights, b.nextQueue) {
      assert OutcomeOk(b.outcomes[k], b.asks, b.queued, b.flights, b.nextQueue);
    }
  }

  lemma RegisterKeeps(b: Boot, source: SourceId)
    requires Inv(b) && NoneEmpty(b)
    ensures Inv(Registers(b, source)) && NoneEmpty(Registers(b, source))
  {
    SamePlaces(b, b.(registered := b.registered + {source}));
    if b.on && source in b.pending {
      DepartKeeps(b.(registered := b.registered + {source}), source);
    }
  }

  lemma StepKeeps(b: Boot, step: Step)
    requires Inv(b) && NoneEmpty(b) && Legal(b, step)
    ensures Inv(Next(b, step)) && NoneEmpty(Next(b, step))
  {
    match step
    case DoArm(snapshot) =>
      MarkedAdds(b.pending, b.registered, snapshot, |snapshot|);
      SamePlaces(b, Arm(b, snapshot));
    case DoDefer(account) =>
      if IsPending(b, account.source) { EnqueueFills(b, account, Auto); }
    case DoRunOrQueue(account, intent) =>
      if IsPending(b, account.source) {
        EnqueueFills(b, account, intent);
      } else {
        SamePlaces(b, RunOrQueue(b, account, intent));
      }
    case DoSyncPending(accounts) => SyncKeeps(b, accounts);
    case DoRegister(source) => RegisterKeeps(b, source);
    case DoUnregister(source) => SamePlaces(b, Next(b, step));
    case DoSnapshot(snapshot, order) =>
      if !b.stopped { SnapshotKeeps(b, snapshot, order); }
    case DoArrive(qid, read) => ArriveKeeps(b, qid, read);
    case DoStop => StopKeeps(b);
  }

  // ---- What is marked and what is released ----------------------------------------------------------------

  predicate Declares(e: Extension, n: nat, source: SourceId)
    requires n <= |e.sources|
  {
    e.enabled && !e.errored && source in e.sources[..n]
  }

  lemma {:induction false} DeclaredIsExact(pending: map<SourceId, ExtensionId>, registered: set<SourceId>, e: Extension,
                                           n: nat, source: SourceId)
    requires n <= |e.sources|
    ensures source in Declared(pending, registered, e, n) <==>
            source in pending || (source in e.sources[..n] && source !in registered)
  {
    if n > 0 {
      DeclaredIsExact(pending, registered, e, n - 1, source);
      assert e.sources[..n] == e.sources[..n - 1] + [e.sources[n - 1]];
    }
  }

  /** Arming marks exactly the unregistered sources that enabled, sound extensions declare. */
  lemma {:induction false} MarkedIsExact(pending: map<SourceId, ExtensionId>, registered: set<SourceId>,
                                         snapshot: seq<Extension>, n: nat, source: SourceId)
    requires n <= |snapshot|
    ensures source in Marked(pending, registered, snapshot, n) <==>
            source in pending ||
            (source !in registered && exists k :: 0 <= k < n && Declares(snapshot[k], |snapshot[k].sources|, source))
  {
    if n > 0 {
      var e := snapshot[n - 1];
      MarkedIsExact(pending, registered, snapshot, n - 1, source);
      DeclaredIsExact(Marked(pending, registered, snapshot, n - 1), registered, e, |e.sources|, source);
      assert e.sources[..|e.sources|] == e.sources;
    }
  }

  /** A snapshot releases exactly the pending sources whose extension errored, was disabled or is gone. */
  lemma {:induction false} SnapshotIsExact(b: Boot, snapshot: seq<Extension>, order: seq<SourceId>, source: SourceId)
    ensures source in OnSnapshot(b, snapshot, order).pending <==>
            source in b.pending && !(source in order && Releases(b, snapshot, source))
    decreases |order|
  {
    if |order| > 0 {
      assert order == [order[0]] + order[1..];
      SnapshotIsExact(if Releases(b, snapshot, order[0]) then Depart(b, order[0]) else b, snapshot, order[1..], source);
    }
  }

  // ---- Over every run ----------------------------------------------------------------------------------------

  lemma {:induction false} RunKeeps(b: Boot, steps: seq<Step>)
    requires Inv(b) && NoneEmpty(b) && LegalRun(b, steps)
    ensures Inv(Exec(b, steps)) && NoneEmpty(Exec(b, steps))
    decreases |steps|
  {
    if |steps| > 0 {
      StepKeeps(b, steps[0]);
      RunKeeps(Next(b, steps[0]), steps[1..]);
    }
  }

  lemma FreshIsSafe(registered: set<SourceId>)
    ensures Inv(Fresh(registered)) && NoneEmpty(Fresh(registered))
  {
  }

  /** Queued sources are pending, and while any is pending the queue listens for it. */
  lemma QueuedArePending(registered: set<SourceId>, steps: seq<Step>)
    requires LegalRun(Fresh(registered), steps)
    ensures var b := Exec(Fresh(registered), steps);
            b.queued.Keys <= b.pending.Keys && (b.on <==> b.pending != map[]) && (b.stopped ==> b.queued == map[])
  {
    FreshIsSafe(registered);
    RunKeeps(Fresh(registered), steps);
  }

  /** Every start has a queue entry of its own, and went out with the strongest intent asked for. */
  lemma StartsOnce(registered: set<SourceId>, steps: seq<Step>, i: nat)
    requires LegalRun(Fresh(registered), steps) && i < |Exec(Fresh(registered), steps).outcomes|
    ensures var b := Exec(Fresh(registered), steps);
            var x := b.outcomes[i];
            Strongest(b.asks, x.qid, x.id, x.intent) &&
            forall j :: 0 <= j < |b.outcomes| && j != i ==> b.outcomes[j].qid != x.qid || b.outcomes[j].id != x.id
  {
    FreshIsSafe(registered);
    RunKeeps(Fresh(registered), steps);
    var b := Exec(Fresh(registered), steps);
    assert OutcomeOk(b.outcomes[i], b.asks, b.queued, b.flights, b.nextQueue);
    forall j | 0 <= j < |b.outcomes| && j != i
      ensures b.outcomes[j].qid != b.outcomes[i].qid || b.outcomes[j].id != b.outcomes[i].id
    {
      assert if i < j then b.outcomes[i] != b.outcomes[j] else b.outcomes[j] != b.outcomes[i];
    }
  }

  /**
   * An entry is started if and only if its account was found, is not parked, and either is not
   * resting or was asked for explicitly; a missing account or a failed read starts nothing.
   */
  lemma StartedIff(registered: set<SourceId>, steps: seq<Step>, i: nat)
    requires LegalRun(Fresh(registered), steps) && i < |Exec(Fresh(registered), steps).outcomes|
    ensures var b := Exec(Fresh(registered), steps);
            var x := b.outcomes[i];
            x.started <==>
            match x.read
            case Gone => false
            case Failed => false
            case Found(a) => !a.parked && (!a.resting || Ask(x.qid, x.id, Explicit) in b.asks)
  {
    FreshIsSafe(registered);
    RunKeeps(Fresh(registered), steps);
    var b := Exec(Fresh(registered), steps);
    assert OutcomeOk(b.outcomes[i], b.asks, b.queued, b.flights, b.nextQueue);
  }

  /** Short of a stop, once nothing is pending and no dispatch is under way every request is settled. */
  lemma EveryRequestSettles(registered: set<SourceId>, steps: seq<Step>, k: nat)
    requires LegalRun(Fresh(registered), steps)
    requires var b := Exec(Fresh(registered), steps);
             !b.stopped && b.pending == map[] && b.flights == map[] && k < |b.asks|
    ensures var b := Exec(Fresh(registered), steps);
            Settled(b.outcomes, b.asks[k].qid, b.asks[k].id)
  {
    FreshIsSafe(registered);
    RunKeeps(Fresh(registered), steps);
    var b := Exec(Fresh(registered), steps);
    assert Kept(b, b.asks[k]);
  }

  lemma StoppedStep(b: Boot, step: Step)
    requires Inv(b) && b.stopped && Legal(b, step)
    ensures Next(b, step).stopped && Next(b, step).outcomes == b.outcomes && Next(b, step).queued == map[]
  {
    if step.DoSyncPending? {
      StoppedSync(b, step.accounts);
    }
  }

  lemma {:induction false} StoppedSync(b: Boot, accounts: seq<Account>)
    requires b.stopped
    ensures SyncPending(b, accounts) == b
    decreases |accounts|
  {
    if |accounts| > 0 {
      StoppedSync(b, accounts[1..]);
    }
  }

  /** After stop nothing that was queued is started, dispatches under way included. */
  lemma {:induction false} NothingAfterStop(b: Boot, steps: seq<Step>)
    requires Inv(b) && NoneEmpty(b) && b.stopped && LegalRun(b, steps)
    ensures Exec(b, steps).outcomes == b.outcomes
    decreases |steps|
  {
    if |steps| > 0 {
      StepKeeps(b, steps[0]);
      StoppedStep(b, steps[0]);
      NothingAfterStop(Next(b, steps[0]), steps[1..]);
    }
  }
}
