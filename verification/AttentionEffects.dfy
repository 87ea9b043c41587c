/**
 * What each transaction does to both tables and what it reports, entry by entry.
 */
module AttentionEffects {
  import opened Wrappers
  import opened AttentionSpec
  import opened AttentionProofs

  // ---- What counts as an item ------------------------------------------------------------

  /** A stored payload is an item exactly when it is valid and agrees with its row's columns. */
  lemma ParseIff(accepts: Validator, id: Id, row: Row)
    ensures Parse(accepts, id, row).Some? <==>
            row.payload.Json? &&
            var item := row.payload.item;
            accepts(item) && item.id == id && item.producer == row.producer
            && item.revision == row.revision && item.state == row.state
    ensures Parse(accepts, id, row).Some? ==> Json(Parse(accepts, id, row).value) == row.payload
  {
  }

  // Everything but this one entry is as it was.
  ghost predicate OnlyEntry(db: Db, r: Db, id: Id) {
    forall x :: x != id ==> SameEntry(r, db, x)
  }

  // ---- Resolving and dismissing ------------------------------------------------------------

  // An open row that parses, or whose ledger entry says the same.
  predicate Closable(db: Db, accepts: Validator, id: Id) {
    && id in db.items && db.items[id].state == Open
    && var row := db.items[id];
       Parse(accepts, id, row).Some? ||
       (id in db.ledger && db.ledger[id].producer == row.producer && db.ledger[id].revision == row.revision
        && db.ledger[id].state == Open)
  }

  /** Where the tables agree, that is every open row, corrupt or not. */
  lemma OpenIsClosable(db: Db, accepts: Validator, id: Id)
    requires Agree(db)
    ensures Closable(db, accepts, id) <==> id in db.items && db.items[id].state == Open
  {
  }

  /** The row and the ledger say Resolved, at the same revision, by whom and when. */
  ghost predicate ClosedBy(db: Db, r: Db, accepts: Validator, id: Id, who: Resolver, now: int)
    requires id in db.items
  {
    var row := db.items[id];
    && id in r.items && id in r.ledger && OnlyEntry(db, r, id)
    && r.ledger[id] == Revision(row.producer, row.revision, Resolved, who, now)
    && r.items[id].state == Resolved && r.items[id].transitionAt == now
    && r.items[id].producer == row.producer && r.items[id].revision == row.revision
    && (Parse(accepts, id, row).None? ==> r.items[id].payload == row.payload)
    && (Parse(accepts, id, row).Some? ==>
          r.items[id].payload.Json? &&
          var item := r.items[id].payload.item;
          item.state == Resolved && item.resolvedBy == who && item.updatedAt == now
          && Parse(accepts, id, row).value ==
             item.(state := Open, resolvedBy := Parse(accepts, id, row).value.resolvedBy,
                   updatedAt := Parse(accepts, id, row).value.updatedAt))
  }

  lemma RowCloses(db: Db, accepts: Validator, id: Id, who: Resolver, now: int)
    ensures var (r, changed) := ResolveRow(db, accepts, id, who, now);
            changed == Closable(db, accepts, id) &&
            if Closable(db, accepts, id) then ClosedBy(db, r, accepts, id, who, now) else r == db
  {
  }

  /** Dismissing closes the item for the user, and reports it when its producer is available. */
  lemma DismissCloses(db: Db, accepts: Validator, c: Call)
    requires c.op.DoDismiss?
    ensures var (r, out) := Step(db, accepts, c);
            if c.op.denied then r == db && out == ReadOnly
            else if Closable(db, accepts, c.op.id) then
              ClosedBy(db, r, accepts, c.op.id, ByUser, c.now)
              && out == Done(db.items[c.op.id].producer in c.available)
            else r == db && out == Done(false)
  {
    RowCloses(db, accepts, c.op.id, ByUser, c.now);
  }

  /** Resolving does so for the item's producer, at the revision it named if it named one. */
  lemma ResolveCloses(db: Db, accepts: Validator, c: Call)
    requires c.op.DoResolve?
    ensures var (r, out) := Step(db, accepts, c);
            if c.op.denied then r == db && out == ReadOnly
            else if Closable(db, accepts, c.op.id) && db.items[c.op.id].producer == c.op.owner
                    && (c.op.revision.None? || c.op.revision.value == db.items[c.op.id].revision) then
              ClosedBy(db, r, accepts, c.op.id, ByProducer, c.now) && out == Done(c.op.owner in c.available)
            else r == db && out == Done(false)
  {
    RowCloses(db, accepts, c.op.id, ByProducer, c.now);
  }

  // ---- Expiry and pruning --------------------------------------------------------------------

  // An open item whose time is up, strictly before now.
  predicate Overdue(db: Db, accepts: Validator, id: Id, now: int) {
    && id in db.items && db.items[id].state == Open && Parse(accepts, id, db.items[id]).Some?
    && var item := Parse(accepts, id, db.items[id]).value;
       item.expiresAt.Some? && item.expiresAt.value < now
  }

  // Seven days closed.
  predicate LongClosed(row: Row, now: int) {
    row.state != Open && row.transitionAt <= now - 7 * 24 * 3600 * 1000
  }

  /** What a sweep makes of one entry: expired now, pruned from the items only, or left alone. */
  ghost predicate SweptEntry(db: Db, r: Db, accepts: Validator, id: Id, now: int) {
    if Overdue(db, accepts, id, now) then
      var row, item := db.items[id], Parse(accepts, id, db.items[id]).value;
      && id in r.items && id in r.ledger
      && r.items[id] == Row(row.producer, Json(item.(state := Expired, resolvedBy := Nobody, updatedAt := now)),
                            Expired, row.revision, now)
      && r.ledger[id] == Revision(row.producer, row.revision, Expired, Nobody, now)
    else
      && (id in r.ledger <==> id in db.ledger) && (id in r.ledger ==> r.ledger[id] == db.ledger[id])
      && (id in r.items <==> id in db.items && !LongClosed(db.items[id], now))
      && (id in r.items ==> r.items[id] == db.items[id])
  }

  /** A tick sweeps every entry, and reports exactly the expiries of available producers. */
  lemma TickIsExact(db: Db, accepts: Validator, c: Call, id: Id)
    requires c.op.DoTick?
    ensures var (r, out) := Step(db, accepts, c);
            if c.op.readOnly then r == db && out == Done(false)
            else
              SweptEntry(db, r, accepts, id, c.now) &&
              (out == Done(true) <==> exists x :: x in db.items && Overdue(db, accepts, x, c.now)
                                                  && db.items[x].producer in c.available) && out.Done?
  {
    SweepIsExact(db, accepts, id, c.now);
    SweepReportsIff(db, accepts, c.available, c.now);
  }

  lemma OverdueExpires(db: Db, accepts: Validator, id: Id, now: int)
    requires id in db.items
    ensures Expires(accepts, id, db.items[id], now) <==> Overdue(db, accepts, id, now)
  {
  }

  lemma SweepIsExact(db: Db, accepts: Validator, id: Id, now: int)
    ensures SweptEntry(db, Swept(db, accepts, now), accepts, id, now)
  {
    if id in db.items {
      OverdueExpires(db, accepts, id, now);
    }
  }

  lemma SweepReportsIff(db: Db, accepts: Validator, available: set<Producer>, now: int)
    ensures SweepNotifies(db, accepts, available, now) <==>
            exists x :: x in db.items && Overdue(db, accepts, x, now) && db.items[x].producer in available
  {
    forall x | x in db.items ensures Expires(accepts, x, db.items[x], now) <==> Overdue(db, accepts, x, now) {
      OverdueExpires(db, accepts, x, now);
    }
  }

  /** No item whose time was up is open afterwards. */
  lemma NothingOverdueStays(db: Db, accepts: Validator, c: Call, id: Id)
    requires c.op.DoTick? && !c.op.readOnly
    ensures !Overdue(Step(db, accepts, c).0, accepts, id, c.now)
  {
    SweepIsExact(db, accepts, id, c.now);
  }

  // ---- Publishing ------------------------------------------------------------------------------

  /** An item is taken when its id is new, its revision higher, or it repairs a corrupt open row. */
  lemma AcceptedIff(db: Db, accepts: Validator, producer: Producer, item: Item)
    ensures Accepted(db, accepts, producer, item) <==>
            || item.id !in db.ledger
            || item.revision > db.ledger[item.id].revision
            || (&& item.id in db.items && Parse(accepts, item.id, db.items[item.id]).None?
                && item.revision == db.ledger[item.id].revision && item.state == Open
                && db.items[item.id].state == Open && db.items[item.id].producer == producer
                && db.ledger[item.id].state == Open && db.ledger[item.id].producer == producer)
  {
  }

  // As it came, unless it is open and overdue.
  ghost predicate StoredAs(item: Item, stored: Item, now: int) {
    if item.state == Open && item.expiresAt.Some? && item.expiresAt.value < now then
      stored == item.(state := Expired, resolvedBy := Nobody, updatedAt := now)
    else stored == item
  }

  /** An accepted item in both tables. */
  ghost predicate Published(r: Db, producer: Producer, item: Item, now: int) {
    && item.id in r.items && item.id in r.ledger && r.items[item.id].payload.Json?
    && var stored := r.items[item.id].payload.item;
       var at := if stored.state == Open then 0 else now;
       && StoredAs(item, stored, now)
       && r.items[item.id] == Row(producer, Json(stored), stored.state, item.revision, at)
       && r.ledger[item.id] == Revision(producer, item.revision, stored.state, stored.resolvedBy, at)
  }

  lemma PutPublishes(db: Db, producer: Producer, item: Item, now: int)
    requires item.producer == producer
    ensures Published(Put(db, producer, item, now), producer, item, now)
  {
  }

  /**
   * A publish, entry by entry: an accepted item is stored, a stale one leaves what the sweep made
   * of its id, an open row of the producer that the batch omits is resolved by it, and every
   * other entry is as the sweep left it.
   */
  lemma PublishIsExact(db: Db, accepts: Validator, producer: Producer, items: seq<Item>, available: set<Producer>,
                       readOnly: bool, now: int, id: Id)
    requires Agree(db) && Owned(db) && ProperName(producer) && DistinctIds(items)
    requires forall i :: 0 <= i < |items| ==> Matches(producer, items[i])
    ensures var r := Publish(db, accepts, producer, items, available, false, readOnly, now).0;
            var swept := ExpireAndPrune(db, accepts, readOnly, available, now).0;
            && (forall i :: 0 <= i < |items| && items[i].id == id ==>
                  if Accepted(swept, accepts, producer, items[i]) then Published(r, producer, items[i], now)
                  else SameEntry(r, swept, id))
            && (id !in Present(items) ==>
                  if OpenOf(swept, producer, id) then
                    ClosedEntry(swept, r, accepts, id, now)
                  else SameEntry(r, swept, id))
  {
    var swept, stored := PublishPhases(db, accepts, producer, items, available, readOnly, now);
    PublishItemsLocal(swept, accepts, producer, available, items, now);
    SweepAgrees(db, accepts, readOnly, available, now);
    if id in Present(items) {
      var i :| 0 <= i < |items| && items[i].id == id;
      BatchEntry(swept, stored, accepts, producer, items, available, now, i);
    } else {
      OmittedEntry(swept, stored, accepts, producer, items, now, id);
    }
  }

  lemma SweepAgrees(db: Db, accepts: Validator, readOnly: bool, available: set<Producer>, now: int)
    requires Agree(db)
    ensures Agree(ExpireAndPrune(db, accepts, readOnly, available, now).0)
  {
    SweepKeeps(db, accepts, now);
  }

  // The omitted row is closed by the producer.
  ghost predicate ClosedEntry(db: Db, r: Db, accepts: Validator, id: Id, now: int)
    requires id in db.items
  {
    var row := db.items[id];
    && id in r.items && id in r.ledger
    && r.ledger[id] == Revision(row.producer, row.revision, Resolved, ByProducer, now)
    && r.items[id].state == Resolved && r.items[id].transitionAt == now
    && r.items[id].producer == row.producer && r.items[id].revision == row.revision
  }

  lemma BatchEntry(swept: Db, stored: Db, accepts: Validator, producer: Producer, items: seq<Item>,
                   available: set<Producer>, now: int, i: nat)
    requires i < |items| && DistinctIds(items) && Matches(producer, items[i])
    requires SameEntry(stored, PublishItem(swept, accepts, producer, available, items[i], now).0, items[i].id)
    ensures var r := ResolveOmitted(stored, accepts, producer, Present(items), now);
            if Accepted(swept, accepts, producer, items[i]) then Published(r, producer, items[i], now)
            else SameEntry(r, swept, items[i].id)
    ensures forall j :: 0 <= j < |items| && items[j].id == items[i].id ==> j == i
  {
    assert items[i].id in Present(items);
    PutPublishes(swept, producer, items[i], now);
    var r := ResolveOmitted(stored, accepts, producer, Present(items), now);
    assert SameEntry(r, stored, items[i].id);
  }

  lemma OmittedEntry(swept: Db, stored: Db, accepts: Validator, producer: Producer, items: seq<Item>, now: int, id: Id)
    requires SameEntry(stored, swept, id) && Agree(swept) && id !in Present(items)
    ensures var r := ResolveOmitted(stored, accepts, producer, Present(items), now);
            if OpenOf(swept, producer, id) then ClosedEntry(swept, r, accepts, id, now)
            else SameEntry(r, swept, id)
  {
  }

  /** A batch with an item of another producer, or an id without the prefix, changes nothing. */
  lemma PublishRefuses(db: Db, accepts: Validator, c: Call)
    requires c.op.DoPublish?
    ensures var (r, out) := Step(db, accepts, c);
            && (out == ReadOnly <==> c.op.deniedAtEntry)
            && (out == Mismatch <==>
                 !c.op.deniedAtEntry &&
                 exists i :: 0 <= i < |c.op.items| &&
                             (c.op.items[i].producer != c.op.producer || !(c.op.producer + ":" <= c.op.items[i].id)))
            && (!out.Done? ==> r == db)
  {
    assert forall i :: 0 <= i < |c.op.items| ==>
             (Matches(c.op.producer, c.op.items[i]) <==>
              c.op.items[i].producer == c.op.producer && c.op.producer + ":" <= c.op.items[i].id);
  }

  // ---- What a publish reports ------------------------------------------------------------------

  // A reader can tell: an open item that is new, repaired or different, or an open row closed.
  predicate Noticed(db: Db, accepts: Validator, producer: Producer, item: Item, now: int) {
    Accepted(db, accepts, producer, item) &&
    if item.state == Open && !(item.expiresAt.Some? && item.expiresAt.value < now) then
      item.id !in db.items || Parse(accepts, item.id, db.items[item.id]) != Some(item)
    else item.id in db.items && db.items[item.id].state == Open
  }

  lemma ItemReports(db: Db, accepts: Validator, producer: Producer, available: set<Producer>, item: Item, now: int)
    ensures PublishItem(db, accepts, producer, available, item, now).1 <==>
            producer in available && Noticed(db, accepts, producer, item, now)
  {
  }

  lemma NoticedSame(db: Db, r: Db, accepts: Validator, producer: Producer, item: Item, now: int)
    requires SameEntry(r, db, item.id)
    ensures Noticed(r, accepts, producer, item, now) <==> Noticed(db, accepts, producer, item, now)
  {
  }

  lemma {:induction false} ItemsReport(db: Db, accepts: Validator, producer: Producer, available: set<Producer>,
                                       items: seq<Item>, now: int)
    requires DistinctIds(items)
    ensures PublishItems(db, accepts, producer, available, items, now).1 <==>
            producer in available && exists i :: 0 <= i < |items| && Noticed(db, accepts, producer, items[i], now)
    decreases |items|
  {
    if |items| > 0 {
      var n := |items| - 1;
      var init, last := items[..n], items[n];
      ItemsReport(db, accepts, producer, available, init, now);
      PublishItemsLocal(db, accepts, producer, available, init, now);
      var before := PublishItems(db, accepts, producer, available, init, now).0;
      assert last.id !in Present(init);
      NoticedSame(db, before, accepts, producer, last, now);
      ItemReports(before, accepts, producer, available, last, now);
      assert forall i :: 0 <= i < n ==> init[i] == items[i];
    }
  }

  // An open row of the producer that the batch leaves out.
  predicate LeftOut(db: Db, producer: Producer, items: seq<Item>, id: Id) {
    id in db.items && db.items[id].producer == producer && db.items[id].state == Open && id !in Present(items)
  }

  /**
   * A publish reports a change if and only if an available producer's item expired, or the
   * producer is available and one of its items is noticed or one of its open rows left out.
   */
  lemma PublishReportsIff(db: Db, accepts: Validator, producer: Producer, items: seq<Item>, available: set<Producer>,
                          readOnly: bool, now: int)
    requires Agree(db) && Owned(db) && ProperName(producer) && DistinctIds(items)
    requires forall i :: 0 <= i < |items| ==> Matches(producer, items[i])
    ensures var out := Publish(db, accepts, producer, items, available, false, readOnly, now).1;
            var swept := ExpireAndPrune(db, accepts, readOnly, available, now).0;
            out.Done? &&
            (out.changed <==>
              || (!readOnly && exists x :: x in db.items && Overdue(db, accepts, x, now) &&
                                           db.items[x].producer in available)
              || (producer in available &&
                  ((exists i :: 0 <= i < |items| && Noticed(swept, accepts, producer, items[i], now)) ||
                   (exists id :: LeftOut(swept, producer, items, id)))))
  {
    var swept, stored := PublishPhases(db, accepts, producer, items, available, readOnly, now);
    SweepReportsIff(db, accepts, available, now);
    ItemsReport(swept, accepts, producer, available, items, now);
    PublishItemsLocal(swept, accepts, producer, available, items, now);
    forall id ensures (id in stored.items && Omitted(stored, accepts, producer, Present(items), id)) <==>
                      LeftOut(swept, producer, items, id)
    {
      if id !in Present(items) {
        assert SameEntry(stored, swept, id);
        OmittedIsLeftOut(stored, accepts, producer, items, id);
      }
    }
  }

  lemma OmittedIsLeftOut(stored: Db, accepts: Validator, producer: Producer, items: seq<Item>, id: Id)
    requires Agree(stored)
    ensures id in stored.items && Omitted(stored, accepts, producer, Present(items), id) <==>
            LeftOut(stored, producer, items, id)
  {
  }
}
