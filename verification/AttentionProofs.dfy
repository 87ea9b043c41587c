/**
 * The ledger's promises over every run: rows agree with the ledger, revisions only
 * grow, what was closed stays closed, and a visible change is always reported.
 */
module AttentionProofs {
  import opened AttentionSpec

  // ---- Rows agree with the ledger ----------------------------------------------

  predicate RowAgrees(row: Row, ledger: Revision) {
    && row.producer == ledger.producer && row.revision == ledger.revision
    && row.state == ledger.state && row.transitionAt == ledger.transitionAt
  }

  ghost predicate Agree(db: Db) {
    forall id {:trigger db.items[id]} {:trigger id in db.items} ::
      id in db.items ==> id in db.ledger && RowAgrees(db.items[id], db.ledger[id])
  }

  // ---- Revisions only grow, and a closed revision stays closed -------------------

  predicate MovesOn(a: Revision, b: Revision) {
    b.revision > a.revision || (b.revision == a.revision && (a.state != Open ==> b.state != Open))
  }

  ghost predicate LedgerMovesOn(a: map<Id, Revision>, b: map<Id, Revision>) {
    forall id {:trigger a[id]} {:trigger b[id]} :: id in a ==> id in b && MovesOn(a[id], b[id])
  }

  lemma LedgerMovesOnTransitive(a: map<Id, Revision>, b: map<Id, Revision>, c: map<Id, Revision>)
    requires LedgerMovesOn(a, b) && LedgerMovesOn(b, c)
    ensures LedgerMovesOn(a, c)
  {
    forall id | id in a ensures id in c && MovesOn(a[id], c[id]) {
      assert id in b && MovesOn(a[id], b[id]);
    }
  }

  lemma SweepKeeps(db: Db, accepts: Validator, now: int)
    requires Agree(db)
    ensures Agree(Swept(db, accepts, now)) && LedgerMovesOn(db.ledger, Swept(db, accepts, now).ledger)
  {
  }

  lemma ResolveRowKeeps(db: Db, accepts: Validator, id: Id, who: Resolver, now: int)
    requires Agree(db)
    ensures var (r, _) := ResolveRow(db, accepts, id, who, now); Agree(r) && LedgerMovesOn(db.ledger, r.ledger)
  {
  }

  lemma PublishItemKeeps(db: Db, accepts: Validator, producer: Producer, available: set<Producer>, item: Item, now: int)
    requires Agree(db) && item.producer == producer
    ensures var (r, _) := PublishItem(db, accepts, producer, available, item, now);
            Agree(r) && LedgerMovesOn(db.ledger, r.ledger)
  {
  }

  lemma {:induction false} PublishItemsKeep(db: Db, accepts: Validator, producer: Producer, available: set<Producer>,
                                            items: seq<Item>, now: int)
    requires Agree(db) && forall i :: 0 <= i < |items| ==> items[i].producer == producer
    ensures var (r, _) := PublishItems(db, accepts, producer, available, items, now);
            Agree(r) && LedgerMovesOn(db.ledger, r.ledger)
    decreases |items|
  {
    if |items| > 0 {
      var n := |items| - 1;
      PublishItemsKeep(db, accepts, producer, available, items[..n], now);
      var before := PublishItems(db, accepts, producer, available, items[..n], now).0;
      PublishItemKeeps(before, accepts, producer, available, items[n], now);
      var after := PublishItem(before, accepts, producer, available, items[n], now).0;
      LedgerMovesOnTransitive(db.ledger, before.ledger, after.ledger);
    }
  }

  lemma ResolveOmittedKeeps(db: Db, accepts: Validator, producer: Producer, present: set<Id>, now: int)
    requires Agree(db)
    ensures var r := ResolveOmitted(db, accepts, producer, present, now);
            Agree(r) && LedgerMovesOn(db.ledger, r.ledger)
  {
  }

  lemma PublishKeeps(db: Db, accepts: Validator, producer: Producer, items: seq<Item>, available: set<Producer>,
                     deniedAtEntry: bool, readOnly: bool, now: int)
    requires Agree(db)
    ensures var (r, _) := Publish(db, accepts, producer, items, available, deniedAtEntry, readOnly, now);
            Agree(r) && LedgerMovesOn(db.ledger, r.ledger)
  {
    if !deniedAtEntry && forall i :: 0 <= i < |items| ==> Matches(producer, items[i]) {
      var swept := ExpireAndPrune(db, accepts, readOnly, available, now).0;
      SweepKeeps(db, accepts, now);
      var stored := PublishItems(swept, accepts, producer, available, items, now).0;
      PublishItemsKeep(swept, accepts, producer, available, items, now);
      LedgerMovesOnTransitive(db.ledger, swept.ledger, stored.ledger);
      var r := ResolveOmitted(stored, accepts, producer, Present(items), now);
      ResolveOmittedKeeps(stored, accepts, producer, Present(items), now);
      LedgerMovesOnTransitive(db.ledger, stored.ledger, r.ledger);
    }
  }

  lemma StepKeeps(db: Db, accepts: Validator, c: Call)
    requires Agree(db)
    ensures Agree(Step(db, accepts, c).0) && LedgerMovesOn(db.ledger, Step(db, accepts, c).0.ledger)
  {
    match c.op
    case DoPublish(producer, items, deniedAtEntry, readOnly) =>
      PublishKeeps(db, accepts, producer, items, c.available, deniedAtEntry, readOnly, c.now);
    case DoResolve(owner, id, revision, denied) => ResolveRowKeeps(db, accepts, id, ByProducer, c.now);
    case DoDismiss(id, denied) => ResolveRowKeeps(db, accepts, id, ByUser, c.now);
    case DoTick(readOnly) => SweepKeeps(db, accepts, c.now);
    case DoCorrupt(id, payload) =>
  }

  /** Over any run the tables agree, and every id's revision is kept, never lowered or reopened. */
  lemma {:induction false} RunKeeps(db: Db, accepts: Validator, calls: seq<Call>)
    requires Agree(db)
    ensures Agree(Exec(db, accepts, calls)) && LedgerMovesOn(db.ledger, Exec(db, accepts, calls).ledger)
    decreases |calls|
  {
    if |calls| > 0 {
      var next := Step(db, accepts, calls[0]).0;
      StepKeeps(db, accepts, calls[0]);
      RunKeeps(next, accepts, calls[1..]);
      LedgerMovesOnTransitive(db.ledger, next.ledger, Exec(next, accepts, calls[1..]).ledger);
    }
  }

  /** An id closed at revision r is never open again at a revision up to r, pruned or not. */
  lemma ClosedStaysClosed(db: Db, accepts: Validator, calls: seq<Call>, id: Id)
    requires Agree(db) && id in db.ledger && db.ledger[id].state != Open
    ensures var end := Exec(db, accepts, calls);
            id in end.ledger && end.ledger[id].revision >= db.ledger[id].revision &&
            (id in end.items && end.items[id].state == Open ==> end.items[id].revision > db.ledger[id].revision)
  {
    RunKeeps(db, accepts, calls);
    assert id in db.ledger;
    var end := Exec(db, accepts, calls);
    assert MovesOn(db.ledger[id], end.ledger[id]);
  }

  // ---- Every id has one producer ---------------------------------------------------

  predicate ProperName(producer: Producer) {
    ':' !in producer
  }

  predicate OwnedBy(id: Id, producer: Producer) {
    ProperName(producer) && producer + ":" <= id
  }

  ghost predicate Owned(db: Db) {
    forall id {:trigger db.items[id]} :: id in db.items ==> OwnedBy(id, db.items[id].producer)
  }

  lemma OneOwner(id: Id, p: Producer, q: Producer)
    requires OwnedBy(id, p) && OwnedBy(id, q)
    ensures p == q
  {
    assert (p + ":")[|p|] == ':' && (q + ":")[|q|] == ':';
    assert id[|p|] == ':' && id[|q|] == ':';
    assert p == (p + ":")[..|p|] && q == (q + ":")[..|q|];
  }

  lemma {:induction false} PublishItemsOwned(db: Db, accepts: Validator, producer: Producer, available: set<Producer>,
                                             items: seq<Item>, now: int)
    requires Owned(db) && ProperName(producer) && forall i :: 0 <= i < |items| ==> Matches(producer, items[i])
    ensures Owned(PublishItems(db, accepts, producer, available, items, now).0)
    decreases |items|
  {
    if |items| > 0 {
      PublishItemsOwned(db, accepts, producer, available, items[..|items| - 1], now);
    }
  }

  /** Publishing under validated producer names keeps each id with its producer. */
  lemma PublishOwned(db: Db, accepts: Validator, producer: Producer, items: seq<Item>, available: set<Producer>,
                     deniedAtEntry: bool, readOnly: bool, now: int)
    requires Owned(db) && ProperName(producer)
    ensures Owned(Publish(db, accepts, producer, items, available, deniedAtEntry, readOnly, now).0)
  {
    if !deniedAtEntry && forall i :: 0 <= i < |items| ==> Matches(producer, items[i]) {
      var swept := ExpireAndPrune(db, accepts, readOnly, available, now).0;
      PublishItemsOwned(swept, accepts, producer, available, items, now);
    }
  }

  // ---- A visible change is always reported --------------------------------------------

  predicate Shown(db: Db, accepts: Validator, available: set<Producer>, id: Id) {
    && id in db.items && db.items[id].state == Open && db.items[id].producer in available
    && Parse(accepts, id, db.items[id]).Some?
  }

  /** What a reader can see: the parseable open items of the available producers. */
  ghost function Visible(db: Db, accepts: Validator, available: set<Producer>): map<Id, Item> {
    map id | id in db.items && Shown(db, accepts, available, id) :: Parse(accepts, id, db.items[id]).value
  }

  lemma SweepReports(db: Db, accepts: Validator, readOnly: bool, available: set<Producer>, now: int)
    ensures var (r, changed) := ExpireAndPrune(db, accepts, readOnly, available, now);
            !changed ==> Visible(r, accepts, available) == Visible(db, accepts, available)
  {
    var (r, changed) := ExpireAndPrune(db, accepts, readOnly, available, now);
    if !readOnly && !changed {
      forall id ensures Shown(r, accepts, available, id) <==> Shown(db, accepts, available, id) {
        if id in db.items && db.items[id].producer in available {
          assert !Expires(accepts, id, db.items[id], now);
        }
      }
    }
  }

  lemma PublishItemReports(db: Db, accepts: Validator, producer: Producer, available: set<Producer>, item: Item,
                           now: int)
    requires Owned(db) && ProperName(producer) && Matches(producer, item)
    ensures var (r, changed) := PublishItem(db, accepts, producer, available, item, now);
            !changed ==> Visible(r, accepts, available) == Visible(db, accepts, available)
  {
    var (r, changed) := PublishItem(db, accepts, producer, available, item, now);
    if !changed && Accepted(db, accepts, producer, item) {
      if item.id in db.items {
        OneOwner(item.id, producer, db.items[item.id].producer);
      }
      forall id ensures Shown(r, accepts, available, id) <==> Shown(db, accepts, available, id) {
        assert id != item.id ==> (id in r.items <==> id in db.items);
      }
    }
  }

  lemma {:induction false} PublishItemsReport(db: Db, accepts: Validator, producer: Producer, available: set<Producer>,
                                              items: seq<Item>, now: int)
    requires Owned(db) && ProperName(producer) && forall i :: 0 <= i < |items| ==> Matches(producer, items[i])
    ensures var (r, changed) := PublishItems(db, accepts, producer, available, items, now);
            !changed ==> Visible(r, accepts, available) == Visible(db, accepts, available)
    decreases |items|
  {
    if |items| > 0 {
      var n := |items| - 1;
      PublishItemsReport(db, accepts, producer, available, items[..n], now);
      PublishItemsOwned(db, accepts, producer, available, items[..n], now);
      PublishItemReports(PublishItems(db, accepts, producer, available, items[..n], now).0,
                         accepts, producer, available, items[n], now);
    }
  }

  lemma ResolveOmittedReports(db: Db, accepts: Validator, producer: Producer, present: set<Id>,
                              available: set<Producer>, now: int)
    requires producer !in available || forall id :: id in db.items ==> !Omitted(db, accepts, producer, present, id)
    ensures Visible(ResolveOmitted(db, accepts, producer, present, now), accepts, available) ==
            Visible(db, accepts, available)
  {
    var r := ResolveOmitted(db, accepts, producer, present, now);
    forall id ensures Shown(r, accepts, available, id) <==> Shown(db, accepts, available, id) {
      if id in db.items && !Omitted(db, accepts, producer, present, id) {
        assert r.items[id] == db.items[id];
      }
    }
  }

  lemma PublishReports(db: Db, accepts: Validator, producer: Producer, items: seq<Item>, available: set<Producer>,
                       deniedAtEntry: bool, readOnly: bool, now: int)
    requires Owned(db) && ProperName(producer)
    ensures var (r, out) := Publish(db, accepts, producer, items, available, deniedAtEntry, readOnly, now);
            out != Done(true) ==> Visible(r, accepts, available) == Visible(db, accepts, available)
  {
    if !deniedAtEntry && forall i :: 0 <= i < |items| ==> Matches(producer, items[i]) {
      var swept := ExpireAndPrune(db, accepts, readOnly, available, now).0;
      SweepReports(db, accepts, readOnly, available, now);
      PublishItemsReport(swept, accepts, producer, available, items, now);
      var (stored, changed) := PublishItems(swept, accepts, producer, available, items, now);
      if producer !in available ||
         (forall id :: id in stored.items ==> !Omitted(stored, accepts, producer, Present(items), id)) {
        ResolveOmittedReports(stored, accepts, producer, Present(items), available, now);
      }
    }
  }

  /** The callers' side of a call: the service lets only validated producer names publish. */
  predicate Validated(op: Op) {
    op.DoPublish? ==> ProperName(op.producer)
  }

  lemma ResolveRowReports(db: Db, accepts: Validator, id: Id, who: Resolver, available: set<Producer>, now: int)
    ensures var (r, changed) := ResolveRow(db, accepts, id, who, now);
            !(changed && db.items[id].producer in available) ==>
              Visible(r, accepts, available) == Visible(db, accepts, available)
  {
    var (r, changed) := ResolveRow(db, accepts, id, who, now);
    if changed && db.items[id].producer !in available {
      forall x ensures Shown(r, accepts, available, x) <==> Shown(db, accepts, available, x) {
      }
    }
  }

  /** An operation that does not report a change changed nothing a reader can see. */
  lemma UnreportedChangesNothing(db: Db, accepts: Validator, c: Call)
    requires Owned(db) && Validated(c.op)
    ensures var (r, out) := Step(db, accepts, c);
            out != Done(true) ==> Visible(r, accepts, c.available) == Visible(db, accepts, c.available)
  {
    match c.op
    case DoPublish(producer, items, deniedAtEntry, readOnly) =>
      PublishReports(db, accepts, producer, items, c.available, deniedAtEntry, readOnly, c.now);
    case DoResolve(owner, id, revision, denied) => ResolveRowReports(db, accepts, id, ByProducer, c.available, c.now);
    case DoDismiss(id, denied) => ResolveRowReports(db, accepts, id, ByUser, c.available, c.now);
    case DoTick(readOnly) => SweepReports(db, accepts, readOnly, c.available, c.now);
    case DoCorrupt(id, payload) =>
  }

  lemma {:induction false} RunOwned(db: Db, accepts: Validator, calls: seq<Call>)
    requires Owned(db) && forall i :: 0 <= i < |calls| ==> Validated(calls[i].op)
    ensures Owned(Exec(db, accepts, calls))
    decreases |calls|
  {
    if |calls| > 0 {
      if calls[0].op.DoPublish? {
        var op := calls[0].op;
        PublishOwned(db, accepts, op.producer, op.items, calls[0].available, op.deniedAtEntry, op.readOnly,
                     calls[0].now);
      }
      RunOwned(Step(db, accepts, calls[0]).0, accepts, calls[1..]);
    }
  }

  // ---- A publish is a snapshot -----------------------------------------------------------

  ghost predicate DistinctIds(items: seq<Item>) {
    forall i, j :: 0 <= i < j < |items| ==> items[i].id != items[j].id
  }

  lemma PresentInit(items: seq<Item>, n: nat)
    requires n <= |items|
    ensures Present(items[..n]) <= Present(items)
  {
    forall id | id in Present(items[..n]) ensures id in Present(items) {
      var k :| 0 <= k < n && items[..n][k].id == id;
      assert items[k].id == id;
    }
  }

  /** Each item of a batch meets the row and ledger entry the sweep left for its id. */
  lemma {:induction false} PublishItemsLocal(db: Db, accepts: Validator, producer: Producer, available: set<Producer>,
                                             items: seq<Item>, now: int)
    requires DistinctIds(items)
    ensures var r := PublishItems(db, accepts, producer, available, items, now).0;
            && (forall i {:trigger items[i]} :: 0 <= i < |items| ==>
                 SameEntry(r, PublishItem(db, accepts, producer, available, items[i], now).0, items[i].id))
            && (forall id :: id !in Present(items) ==> SameEntry(r, db, id))
    decreases |items|
  {
    if |items| > 0 {
      var n := |items| - 1;
      var init := items[..n];
      PublishItemsLocal(db, accepts, producer, available, init, now);
      var before := PublishItems(db, accepts, producer, available, init, now).0;
      var r := PublishItem(before, accepts, producer, available, items[n], now).0;
      assert items[n].id !in Present(init);
      forall i | 0 <= i < |items|
        ensures SameEntry(r, PublishItem(db, accepts, producer, available, items[i], now).0, items[i].id)
      {
        if i < n {
          assert init[i] == items[i];
        }
      }
      forall id | id !in Present(items) ensures SameEntry(r, db, id) {
        assert items[n].id in Present(items);
        PresentInit(items, n);
      }
    }
  }

  ghost predicate SameEntry(a: Db, b: Db, id: Id) {
    && (id in a.items <==> id in b.items) && (id in a.items ==> a.items[id] == b.items[id])
    && (id in a.ledger <==> id in b.ledger) && (id in a.ledger ==> a.ledger[id] == b.ledger[id])
  }

  /** Whether the batch leaves this id open: a new unexpired open item, or a stale one still open. */
  predicate LeftOpen(swept: Db, accepts: Validator, producer: Producer, item: Item, now: int) {
    if Accepted(swept, accepts, producer, item) then item.state == Open && !PastExpiry(item, now)
    else item.id in swept.items && swept.items[item.id].state == Open
  }

  ghost predicate OpenOf(db: Db, producer: Producer, id: Id) {
    id in db.items && db.items[id].producer == producer && db.items[id].state == Open
  }

  lemma OmittedAreClosed(stored: Db, accepts: Validator, producer: Producer, present: set<Id>, now: int, id: Id)
    requires Agree(stored)
    ensures var r := ResolveOmitted(stored, accepts, producer, present, now);
            && (OpenOf(r, producer, id) <==> OpenOf(stored, producer, id) && id in present)
            && (id in r.items <==> id in stored.items)
            && (id in r.items ==> r.items[id].producer == stored.items[id].producer)
            && (id in r.items && (r.items[id].producer != producer || id in present) ==>
                r.items[id] == stored.items[id])
  {
  }

  lemma SnapshotOfItem(swept: Db, stored: Db, accepts: Validator, producer: Producer, available: set<Producer>,
                       item: Item, now: int)
    requires Owned(swept) && ProperName(producer) && Matches(producer, item)
    requires SameEntry(stored, PublishItem(swept, accepts, producer, available, item, now).0, item.id)
    ensures OpenOf(stored, producer, item.id) <==> LeftOpen(swept, accepts, producer, item, now)
    ensures Accepted(swept, accepts, producer, item) ==>
              item.id in stored.items && stored.items[item.id].payload == Json(ToStore(item, now))
    ensures item.id in stored.items ==> stored.items[item.id].producer == producer
    ensures item.id in swept.items ==> swept.items[item.id].producer == producer
  {
    if item.id in swept.items {
      OneOwner(item.id, producer, swept.items[item.id].producer);
    }
  }

  lemma PublishPhases(db: Db, accepts: Validator, producer: Producer, items: seq<Item>, available: set<Producer>,
                      readOnly: bool, now: int) returns (swept: Db, stored: Db)
    requires Agree(db) && Owned(db) && ProperName(producer)
    requires forall i :: 0 <= i < |items| ==> Matches(producer, items[i])
    ensures swept == ExpireAndPrune(db, accepts, readOnly, available, now).0 && Owned(swept)
    ensures stored == PublishItems(swept, accepts, producer, available, items, now).0 && Agree(stored)
    ensures Publish(db, accepts, producer, items, available, false, readOnly, now).0 ==
            ResolveOmitted(stored, accepts, producer, Present(items), now)
  {
    swept := ExpireAndPrune(db, accepts, readOnly, available, now).0;
    SweepKeeps(db, accepts, now);
    stored := PublishItems(swept, accepts, producer, available, items, now).0;
    PublishItemsKeep(swept, accepts, producer, available, items, now);
  }

  /**
   * After a publish the producer's open ids are exactly those of the batch that it leaves open,
   * an accepted item being stored as it came.
   */
  lemma PublishIsSnapshot(db: Db, accepts: Validator, producer: Producer, items: seq<Item>, available: set<Producer>,
                          readOnly: bool, now: int, id: Id)
    requires Agree(db) && Owned(db) && ProperName(producer) && DistinctIds(items)
    requires forall i :: 0 <= i < |items| ==> Matches(producer, items[i])
    ensures var r := Publish(db, accepts, producer, items, available, false, readOnly, now).0;
            var swept := ExpireAndPrune(db, accepts, readOnly, available, now).0;
            && (OpenOf(r, producer, id) <==>
                 exists i :: 0 <= i < |items| && items[i].id == id && LeftOpen(swept, accepts, producer, items[i], now))
            && (forall i :: 0 <= i < |items| && items[i].id == id && Accepted(swept, accepts, producer, items[i]) ==>
                 id in r.items && r.items[id].payload == Json(ToStore(items[i], now)))
  {
    var swept, stored := PublishPhases(db, accepts, producer, items, available, readOnly, now);
    OmittedAreClosed(stored, accepts, producer, Present(items), now, id);
    if id in Present(items) {
      PublishItemsLocal(swept, accepts, producer, available, items, now);
      var i :| 0 <= i < |items| && items[i].id == id;
      SnapshotOfItem(swept, stored, accepts, producer, available, items[i], now);
    }
  }

  /** Another producer's rows are exactly what the sweep made of them. */
  lemma PublishLeavesOthers(db: Db, accepts: Validator, producer: Producer, items: seq<Item>, available: set<Producer>,
                            readOnly: bool, now: int, id: Id)
    requires Agree(db) && Owned(db) && ProperName(producer) && DistinctIds(items)
    requires forall i :: 0 <= i < |items| ==> Matches(producer, items[i])
    ensures var r := Publish(db, accepts, producer, items, available, false, readOnly, now).0;
            var swept := ExpireAndPrune(db, accepts, readOnly, available, now).0;
            && (id in swept.items && swept.items[id].producer != producer ==>
                 id in r.items && r.items[id] == swept.items[id])
            && (id in r.items && r.items[id].producer != producer ==> id in swept.items)
  {
    var swept, stored := PublishPhases(db, accepts, producer, items, available, readOnly, now);
    OmittedAreClosed(stored, accepts, producer, Present(items), now, id);
    PublishItemsLocal(swept, accepts, producer, available, items, now);
    if id in Present(items) {
      var i :| 0 <= i < |items| && items[i].id == id;
      SnapshotOfItem(swept, stored, accepts, producer, available, items[i], now);
    } else {
      assert SameEntry(stored, swept, id);
    }
  }
}
