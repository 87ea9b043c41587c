/**
 * The attention transactions in their own form: two tables updated in place, row by
 * row. Rows come back from the store in no particular order, so each sweep picks
 * them arbitrarily; the tables it leaves do not depend on that order.
 */
module Attention {
  import opened Wrappers
  import opened AttentionSpec

  // A sweep that has handled every row except those in `todo`.
  ghost function SweptExcept(db: Db, accepts: Validator, todo: set<Id>, now: int): Db {
    Db(map id | id in db.items
         :: if id in todo then db.items[id] else SweptRow(accepts, id, db.items[id], now),
       map id | id in db.ledger.Keys + db.items.Keys &&
                (id in db.ledger || (id !in todo && Expires(accepts, id, db.items[id], now)))
         :: if id in db.items && id !in todo && Expires(accepts, id, db.items[id], now)
            then Revision(db.items[id].producer, db.items[id].revision, Expired, Nobody, now)
            else db.ledger[id])
  }

  ghost function OmittedExcept(db: Db, accepts: Validator, producer: Producer, present: set<Id>, todo: set<Id>,
                               now: int): Db {
    ResolveOmitted(db, accepts, producer, present + todo, now)
  }

  // What the sweep does to one row.
  ghost function ExpireRow(db: Db, accepts: Validator, id: Id, now: int): Db
    requires id in db.items
  {
    if Expires(accepts, id, db.items[id], now)
    then Db(db.items[id := ExpiredRow(accepts, id, db.items[id], now)],
            db.ledger[id := Revision(db.items[id].producer, db.items[id].revision, Expired, Nobody, now)])
    else db
  }

  lemma SweptStep(db: Db, accepts: Validator, todo: set<Id>, now: int, id: Id)
    requires id in todo && id in db.items
    ensures var before := SweptExcept(db, accepts, todo, now);
            id in before.items && before.items[id] == db.items[id] &&
            ExpireRow(before, accepts, id, now) == SweptExcept(db, accepts, todo - {id}, now)
  {
    var before := SweptExcept(db, accepts, todo, now);
    var after := SweptExcept(db, accepts, todo - {id}, now);
    var r := ExpireRow(before, accepts, id, now);
    assert r.items == after.items;
    assert r.ledger == after.ledger;
  }

  lemma SweptStart(db: Db, accepts: Validator, todo: set<Id>, now: int)
    requires forall id :: id in db.items && db.items[id].state == Open ==> id in todo
    ensures SweptExcept(db, accepts, todo, now) == db
  {
  }

  lemma SweptEnd(db: Db, accepts: Validator, now: int)
    ensures var all := SweptExcept(db, accepts, {}, now);
            Swept(db, accepts, now) ==
            Db(map id | id in all.items && !Prunable(all.items[id], now) :: all.items[id], all.ledger)
  {
    var all := SweptExcept(db, accepts, {}, now);
    assert Swept(db, accepts, now).items == map id | id in all.items && !Prunable(all.items[id], now) :: all.items[id];
    assert Swept(db, accepts, now).ledger == all.ledger;
  }

  lemma OmittedStep(db: Db, accepts: Validator, producer: Producer, present: set<Id>, todo: set<Id>, now: int, id: Id)
    requires id in todo && id in db.items && db.items[id].producer == producer
    ensures var before := OmittedExcept(db, accepts, producer, present, todo, now);
            var after := OmittedExcept(db, accepts, producer, present, todo - {id}, now);
            && (id in present ==> after == before)
            && (id !in present ==>
                 ResolveRow(before, accepts, id, ByProducer, now) ==
                 (after, Omitted(db, accepts, producer, present, id)))
  {
    var before := OmittedExcept(db, accepts, producer, present, todo, now);
    var after := OmittedExcept(db, accepts, producer, present, todo - {id}, now);
    if id in present {
      assert present + todo == present + (todo - {id});
    } else {
      assert before.items[id] == db.items[id] && (id in before.ledger <==> id in db.ledger);
      assert Resolvable(before, accepts, id) == Resolvable(db, accepts, id);
      var r := ResolveRow(before, accepts, id, ByProducer, now).0;
      assert r.items == after.items;
      assert r.ledger == after.ledger;
    }
  }

  class Store {
    var items: map<Id, Row>
    var ledger: map<Id, Revision>

    ghost function View(): Db
      reads this
    {
      Db(items, ledger)
    }

    constructor ()
      ensures View() == Db(map[], map[])
    {
      items, ledger := map[], map[];
    }

    method Expire(accepts: Validator, available: set<Producer>, readOnly: bool, now: int) returns (changed: bool)
      modifies this
      ensures (View(), changed) == ExpireAndPrune(old(View()), accepts, readOnly, available, now)
    {
      changed := false;
      if readOnly { return; }
      var todo := set id | id in items && items[id].state == Open;
      SweptStart(View(), accepts, todo, now);
      while todo != {}
        invariant todo <= old(items).Keys
        invariant forall id :: id in old(items) && id !in todo && !changed ==>
                    !(Expires(accepts, id, old(items)[id], now) && old(items)[id].producer in available)
        invariant changed ==> SweepNotifies(old(View()), accepts, available, now)
        invariant View() == SweptExcept(old(View()), accepts, todo, now)
        decreases todo
      {
        var id :| id in todo;
        SweptStep(old(View()), accepts, todo, now, id);
        var row := items[id];
        if Expires(accepts, id, row, now) {
          items := items[id := ExpiredRow(accepts, id, row, now)];
          ledger := ledger[id := Revision(row.producer, row.revision, Expired, Nobody, now)];
          if row.producer in available {
            changed := true;
          }
        }
        todo := todo - {id};
      }
      SweptEnd(old(View()), accepts, now);
      items := map id | id in items && !Prunable(items[id], now) :: items[id];
    }

    method ResolveOne(accepts: Validator, id: Id, who: Resolver, now: int) returns (changed: bool)
      modifies this
      ensures (View(), changed) == ResolveRow(old(View()), accepts, id, who, now)
    {
      if id !in items || items[id].state != Open { return false; }
      var row := items[id];
      var item := Parse(accepts, id, row);
      if item.None? {
        if id !in ledger || ledger[id].producer != row.producer || ledger[id].revision != row.revision ||
           ledger[id].state != Open {
          return false;
        }
        items := items[id := row.(state := Resolved, transitionAt := now)];
      } else {
        var resolved := item.value.(state := Resolved, resolvedBy := who, updatedAt := now);
        items := items[id := row.(payload := Json(resolved), state := Resolved, transitionAt := now)];
      }
      ledger := ledger[id := Revision(row.producer, row.revision, Resolved, who, now)];
      changed := true;
    }

    method PublishOne(accepts: Validator, producer: Producer, available: set<Producer>, item: Item, now: int)
      returns (changed: bool)
      modifies this
      ensures (View(), changed) == PublishItem(old(View()), accepts, producer, available, item, now)
    {
      changed := false;
      var existing := if item.id in items then Some(items[item.id]) else None;
      var known := if item.id in ledger then Some(ledger[item.id]) else None;
      var stored := if existing.Some? then Parse(accepts, item.id, existing.value) else None;
      var repair :=
        && existing.Some? && known.Some? && stored.None?
        && item.revision == known.value.revision && item.state == Open && existing.value.state == Open
        && existing.value.producer == producer && known.value.state == Open && known.value.producer == producer;
      if known.Some? && item.revision <= known.value.revision && !repair { return; }
      var toStore := if item.state == Open && PastExpiry(item, now)
                     then item.(state := Expired, resolvedBy := Nobody, updatedAt := now) else item;
      var at := if toStore.state == Open then 0 else now;
      items := items[item.id := Row(producer, Json(toStore), toStore.state, toStore.revision, at)];
      ledger := ledger[item.id := Revision(toStore.producer, toStore.revision, toStore.state, toStore.resolvedBy, at)];
      if producer in available && toStore.state == Open {
        if existing.None? || stored.None? || stored.value != toStore {
          changed := true;
        }
      }
      if producer in available && existing.Some? && existing.value.state == Open && toStore.state != Open {
        changed := true;
      }
    }

    method ResolveAbsent(accepts: Validator, producer: Producer, present: set<Id>, now: int) returns (any: bool)
      modifies this
      ensures View() == ResolveOmitted(old(View()), accepts, producer, present, now)
      ensures any <==> exists id :: id in old(items) && Omitted(old(View()), accepts, producer, present, id)
    {
      any := false;
      var todo := set id | id in items && items[id].state == Open && items[id].producer == producer;
      assert OmittedExcept(View(), accepts, producer, present, todo, now) == View();
      while todo != {}
        invariant todo <= old(items).Keys
        invariant forall id :: id in todo ==> old(items)[id].producer == producer
        invariant forall id :: id in old(items) && id !in todo && !any ==>
                    !Omitted(old(View()), accepts, producer, present, id)
        invariant any ==> exists id :: id in old(items) && Omitted(old(View()), accepts, producer, present, id)
        invariant View() == OmittedExcept(old(View()), accepts, producer, present, todo, now)
        decreases todo
      {
        var id :| id in todo;
        OmittedStep(old(View()), accepts, producer, present, todo, now, id);
        if id !in present {
          var resolved := ResolveOne(accepts, id, ByProducer, now);
          if resolved {
            any := true;
          }
        }
        todo := todo - {id};
      }
      assert present + {} == present;
    }

    // Every item of the batch names the producer.
    method BatchMatches(producer: Producer, batch: seq<Item>) returns (ok: bool)
      ensures ok <==> forall i :: 0 <= i < |batch| ==> Matches(producer, batch[i])
    {
      for i := 0 to |batch|
        invariant forall k :: 0 <= k < i ==> Matches(producer, batch[k])
      {
        if !Matches(producer, batch[i]) { return false; }
      }
      ok := true;
    }

    // The loop over the batch.
    method StoreBatch(accepts: Validator, producer: Producer, batch: seq<Item>, available: set<Producer>, now: int)
      returns (changed: bool, present: set<Id>)
      modifies this
      ensures (View(), changed) == PublishItems(old(View()), accepts, producer, available, batch, now)
      ensures present == Present(batch)
    {
      present, changed := {}, false;
      for i := 0 to |batch|
        invariant (View(), changed) == PublishItems(old(View()), accepts, producer, available, batch[..i], now)
        invariant present == Present(batch[..i])
      {
        assert batch[..i + 1][..i] == batch[..i];
        present := present + {batch[i].id};
        PresentGrows(batch, i);
        var put := PublishOne(accepts, producer, available, batch[i], now);
        changed := changed || put;
      }
      assert batch[..|batch|] == batch;
    }

    method PublishAll(accepts: Validator, producer: Producer, batch: seq<Item>, available: set<Producer>,
                      deniedAtEntry: bool, readOnly: bool, now: int) returns (out: Outcome)
      modifies this
      ensures (View(), out) ==
              AttentionSpec.Publish(old(View()), accepts, producer, batch, available, deniedAtEntry, readOnly, now)
    {
      if deniedAtEntry { return ReadOnly; }
      var ok := BatchMatches(producer, batch);
      if !ok { return Mismatch; }
      var expired := Expire(accepts, available, readOnly, now);
      var changed, present := StoreBatch(accepts, producer, batch, available, now);
      var omitted := ResolveAbsent(accepts, producer, present, now);
      out := Done(expired || changed || (omitted && producer in available));
    }

    method ResolveById(accepts: Validator, producer: Producer, id: Id, revision: Option<int>, available: set<Producer>,
                       denied: bool, now: int) returns (out: Outcome)
      modifies this
      ensures (View(), out) ==
              AttentionSpec.Resolve(old(View()), accepts, producer, id, revision, available, denied, now)
    {
      if denied { return ReadOnly; }
      if id !in items || items[id].producer != producer { return Done(false); }
      if revision.Some? && revision.value != items[id].revision { return Done(false); }
      var changed := ResolveOne(accepts, id, ByProducer, now);
      out := Done(changed && producer in available);
    }

    method DismissById(accepts: Validator, id: Id, available: set<Producer>, denied: bool, now: int)
      returns (out: Outcome)
      modifies this
      ensures (View(), out) == AttentionSpec.Dismiss(old(View()), accepts, id, available, denied, now)
    {
      if denied { return ReadOnly; }
      if id !in items { return Done(false); }
      var producer := items[id].producer;
      var changed := ResolveOne(accepts, id, ByUser, now);
      out := Done(changed && producer in available);
    }
  }

  lemma PresentGrows(batch: seq<Item>, i: nat)
    requires i < |batch|
    ensures Present(batch[..i + 1]) == Present(batch[..i]) + {batch[i].id}
  {
    var more := batch[..i + 1];
    assert more[i] == batch[i];
    forall id | id in Present(batch[..i]) ensures id in Present(more) {
      var k :| 0 <= k < i && batch[..i][k].id == id;
      assert more[k].id == id;
    }
  }
}
