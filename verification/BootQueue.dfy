/**
 * The boot queue as it runs: two maps, a listener and a flag its methods update in place.
 */
module BootQueue {
  import opened BootSpec

  // Put works on the account's entry, or past the end.
  lemma {:induction false} PutAt(entries: seq<Entry>, i: nat, id: AccountId, intent: Intent)
    requires i <= |entries| && (forall k :: 0 <= k < i ==> entries[k].id != id) &&
             (i < |entries| ==> entries[i].id == id)
    ensures Put(entries, id, intent) ==
            if i == |entries| then entries + [Entry(id, intent)]
            else if entries[i].intent.Explicit? then entries
            else entries[i := Entry(id, intent)]
  {
    if 0 < i {
      PutAt(entries[1..], i - 1, id, intent);
      assert entries == [entries[0]] + entries[1..];
    } else if i < |entries| {
      assert [Entry(id, intent)] + entries[1..] == entries[0 := Entry(id, intent)];
    }
  }

  class Queues {
    var pending: map<SourceId, ExtensionId>
    var queued: map<SourceId, Queue>
    var on: bool
    var stopped: bool
    var registered: set<SourceId>
    var flights: map<QueueId, seq<Entry>>
    var nextQueue: QueueId
    var asks: seq<Ask>
    var outcomes: seq<Outcome>
    var direct: seq<AccountId>

    function View(): Boot
      reads this
    {
      Boot(pending, queued, on, stopped, registered, flights, nextQueue, asks, outcomes, direct)
    }

    constructor (registered: set<SourceId>)
      ensures View() == Fresh(registered)
    {
      pending, queued, on, stopped := map[], map[], false, false;
      this.registered, flights, nextQueue := registered, map[], 0;
      asks, outcomes, direct := [], [], [];
    }

    method DeclareSources(e: Extension)
      modifies this`pending
      ensures pending == Declared(old(pending), registered, e, |e.sources|)
    {
      for i := 0 to |e.sources|
        invariant pending == Declared(old(pending), registered, e, i)
      {
        if e.sources[i] !in registered {
          pending := pending[e.sources[i] := e.id];
        }
      }
    }

    method Arm(snapshot: seq<Extension>)
      modifies this
      ensures View() == Next(old(View()), DoArm(snapshot))
    {
      if stopped { return; }
      for i := 0 to |snapshot|
        invariant pending == Marked(old(pending), registered, snapshot, i)
        invariant View() == old(View()).(pending := pending)
      {
        if snapshot[i].enabled && !snapshot[i].errored {
          DeclareSources(snapshot[i]);
        }
      }
      if pending != map[] && !on {
        on := true;
      }
    }

    // Upgrades the account's entry in place, or adds one at the end.
    method PutEntry(entries: seq<Entry>, id: AccountId, intent: Intent) returns (r: seq<Entry>)
      ensures r == Put(entries, id, intent)
    {
      var i := 0;
      while i < |entries| && entries[i].id != id
        invariant 0 <= i <= |entries|
        invariant forall k :: 0 <= k < i ==> entries[k].id != id
      {
        i := i + 1;
      }
      PutAt(entries, i, id, intent);
      if i == |entries| {
        r := entries + [Entry(id, intent)];
      } else if entries[i].intent.Explicit? {
        r := entries;
      } else {
        r := entries[i := Entry(id, intent)];
      }
    }

    method Enqueue(account: Account, intent: Intent)
      modifies this
      ensures View() == BootSpec.Enqueue(old(View()), account, intent)
    {
      var q;
      if account.source in queued {
        q := queued[account.source];
      } else {
        q := Queue(nextQueue, []);
        nextQueue := nextQueue + 1;
      }
      var entries := PutEntry(q.entries, account.id, intent);
      queued := queued[account.source := Queue(q.qid, entries)];
      asks := asks + [Ask(q.qid, account.id, intent)];
    }

    method Defer(account: Account) returns (deferred: bool)
      modifies this
      ensures View() == Next(old(View()), DoDefer(account)) && deferred == IsPending(old(View()), account.source)
    {
      deferred := IsPending(View(), account.source);
      if deferred {
        Enqueue(account, Auto);
      }
    }

    method RunOrQueue(account: Account, intent: Intent)
      modifies this
      ensures View() == Next(old(View()), DoRunOrQueue(account, intent))
    {
      if IsPending(View(), account.source) {
        Enqueue(account, intent);
      } else {
        direct := direct + [account.id];
      }
    }

    method SyncPending(accounts: seq<Account>)
      modifies this
      ensures View() == Next(old(View()), DoSyncPending(accounts))
    {
      for i := 0 to |accounts|
        invariant BootSpec.SyncPending(View(), accounts[i..]) == BootSpec.SyncPending(old(View()), accounts)
      {
        var a := accounts[i];
        assert accounts[i..][1..] == accounts[i + 1..];
        if a.source != "worker" && !a.parked && IsPending(View(), a.source) {
          Enqueue(a, Explicit);
        }
      }
    }

    // dispatch, up to its first await
    method Dispatch(source: SourceId)
      modifies this
      ensures View() == Depart(old(View()), source)
    {
      if source in queued {
        var q := queued[source];
        flights := flights[q.qid := q.entries];
      }
      queued := queued - {source};
      pending := pending - {source};
      if pending == map[] {
        on := false;
      }
    }

    method Register(source: SourceId)
      modifies this
      ensures View() == Next(old(View()), DoRegister(source))
    {
      registered := registered + {source};
      if on && source in pending {
        Dispatch(source);
      }
    }

    method OnSnapshot(snapshot: seq<Extension>, order: seq<SourceId>)
      requires Legal(View(), DoSnapshot(snapshot, order))
      modifies this
      ensures View() == Next(old(View()), DoSnapshot(snapshot, order))
    {
      if stopped { return; }
      for i := 0 to |order|
        invariant BootSpec.OnSnapshot(View(), snapshot, order[i..]) == BootSpec.OnSnapshot(old(View()), snapshot, order)
      {
        assert order[i..][1..] == order[i + 1..];
        if Releases(View(), snapshot, order[i]) {
          Dispatch(order[i]);
        }
      }
    }

    method ReadArrives(qid: QueueId, read: Read) returns (started: bool)
      requires Legal(View(), DoArrive(qid, read))
      modifies this
      ensures View() == Next(old(View()), DoArrive(qid, read))
      ensures started <==> !old(stopped) && ShouldStart(read, old(flights)[qid][0].intent)
    {
      if stopped {
        flights := flights - {qid};
        return false;
      }
      var e, rest := flights[qid][0], flights[qid][1..];
      started := ShouldStart(read, e.intent);
      outcomes := outcomes + [Outcome(qid, e.id, e.intent, read, started)];
      flights := if rest == [] then flights - {qid} else flights[qid := rest];
    }

    method Stop()
      modifies this
      ensures View() == Next(old(View()), DoStop)
    {
      stopped, on := true, false;
      pending, queued := map[], map[];
    }
  }
}
