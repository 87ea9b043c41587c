/**
 * The attention ledger: stored items and, per id, the last revision seen. Each
 * transaction is a function on the pair of tables. `accepts` stands for the item
 * validator under the configured policy; the clock is read once per transaction.
 */
module AttentionSpec {
  import opened Wrappers

  type Id = string
  type Producer = string

  const SEVEN_DAYS := 7 * 24 * 60 * 60 * 1000

  datatype Status = Open | Resolved | Expired
  datatype Resolver = Nobody | ByProducer | ByUser
  datatype Kind = Waiting | Happening | Upcoming

  datatype Item = Item(
    id: Id, producer: Producer, kind: Kind, priority: int,
    dueAt: Option<int>, expiresAt: Option<int>, createdAt: int, updatedAt: int,
    revision: int, state: Status, resolvedBy: Resolver, content: string)

  // payload_json: the text of an item, or text that is not one.
  datatype Payload = Json(item: Item) | Garbage(text: string)

  datatype Row = Row(producer: Producer, payload: Payload, state: Status, revision: int, transitionAt: int)

  datatype Revision = Revision(producer: Producer, revision: int, state: Status, resolvedBy: Resolver,
                               transitionAt: int)

  datatype Db = Db(items: map<Id, Row>, ledger: map<Id, Revision>)

  type Validator = Item -> bool

  function Parse(accepts: Validator, id: Id, row: Row): (r: Option<Item>)
    ensures r.Some? ==> r.value.id == id && r.value.producer == row.producer &&
                        r.value.revision == row.revision && r.value.state == row.state
  {
    match row.payload
    case Garbage(_) => None
    case Json(item) =>
      if accepts(item) && item.id == id && item.producer == row.producer &&
         item.revision == row.revision && item.state == row.state
      then Some(item) else None
  }

  predicate PastExpiry(item: Item, now: int) {
    item.expiresAt.Some? && item.expiresAt.value < now
  }

  function Expire(item: Item, now: int): Item {
    item.(state := Expired, resolvedBy := Nobody, updatedAt := now)
  }

  // ---- Expiry and pruning --------------------------------------------------------

  predicate Expires(accepts: Validator, id: Id, row: Row, now: int) {
    row.state == Open && var item := Parse(accepts, id, row); item.Some? && PastExpiry(item.value, now)
  }

  function ExpiredRow(accepts: Validator, id: Id, row: Row, now: int): Row
    requires Expires(accepts, id, row, now)
  {
    row.(payload := Json(Expire(Parse(accepts, id, row).value, now)), state := Expired, transitionAt := now)
  }

  function SweptRow(accepts: Validator, id: Id, row: Row, now: int): Row {
    if Expires(accepts, id, row, now) then ExpiredRow(accepts, id, row, now) else row
  }

  predicate Prunable(row: Row, now: int) {
    row.state != Open && row.transitionAt <= now - SEVEN_DAYS
  }

  function Swept(db: Db, accepts: Validator, now: int): Db {
    Db(map id | id in db.items && !Prunable(SweptRow(accepts, id, db.items[id], now), now)
         :: SweptRow(accepts, id, db.items[id], now),
       map id | id in db.ledger.Keys + db.items.Keys &&
                (id in db.ledger || Expires(accepts, id, db.items[id], now))
         :: if id in db.items && Expires(accepts, id, db.items[id], now)
            then Revision(db.items[id].producer, db.items[id].revision, Expired, Nobody, now)
            else db.ledger[id])
  }

  predicate SweepNotifies(db: Db, accepts: Validator, available: set<Producer>, now: int) {
    exists id :: id in db.items && Expires(accepts, id, db.items[id], now) && db.items[id].producer in available
  }

  function ExpireAndPrune(db: Db, accepts: Validator, readOnly: bool, available: set<Producer>, now: int): (Db, bool) {
    if readOnly then (db, false) else (Swept(db, accepts, now), SweepNotifies(db, accepts, available, now))
  }

  // ---- Resolving -------------------------------------------------------------------

  predicate Resolvable(db: Db, accepts: Validator, id: Id) {
    id in db.items && db.items[id].state == Open &&
    var row := db.items[id];
    || Parse(accepts, id, row).Some?
    || (id in db.ledger && db.ledger[id].producer == row.producer &&
        db.ledger[id].revision == row.revision && db.ledger[id].state == Open)
  }

  function ResolvedRow(accepts: Validator, id: Id, row: Row, who: Resolver, now: int): Row {
    var item := Parse(accepts, id, row);
    row.(payload := if item.Some? then Json(item.value.(state := Resolved, resolvedBy := who, updatedAt := now))
                    else row.payload,
         state := Resolved, transitionAt := now)
  }

  function ResolvedRevision(row: Row, who: Resolver, now: int): Revision {
    Revision(row.producer, row.revision, Resolved, who, now)
  }

  function ResolveRow(db: Db, accepts: Validator, id: Id, who: Resolver, now: int): (Db, bool) {
    if Resolvable(db, accepts, id) then
      (Db(db.items[id := ResolvedRow(accepts, id, db.items[id], who, now)],
          db.ledger[id := ResolvedRevision(db.items[id], who, now)]), true)
    else (db, false)
  }

  // ---- Publishing ------------------------------------------------------------------

  predicate Repairs(db: Db, accepts: Validator, producer: Producer, item: Item) {
    item.id in db.items && item.id in db.ledger &&
    var row, ledger := db.items[item.id], db.ledger[item.id];
    && Parse(accepts, item.id, row).None?
    && item.revision == ledger.revision && item.state == Open
    && row.state == Open && row.producer == producer
    && ledger.state == Open && ledger.producer == producer
  }

  predicate Accepted(db: Db, accepts: Validator, producer: Producer, item: Item) {
    item.id !in db.ledger || item.revision > db.ledger[item.id].revision || Repairs(db, accepts, producer, item)
  }

  function ToStore(item: Item, now: int): Item {
    if item.state == Open && PastExpiry(item, now) then Expire(item, now) else item
  }

  function Put(db: Db, producer: Producer, item: Item, now: int): Db {
    var stored := ToStore(item, now);
    var at := if stored.state == Open then 0 else now;
    Db(db.items[item.id := Row(producer, Json(stored), stored.state, stored.revision, at)],
       db.ledger[item.id := Revision(stored.producer, stored.revision, stored.state, stored.resolvedBy, at)])
  }

  predicate PutNotifies(db: Db, accepts: Validator, producer: Producer, available: set<Producer>, item: Item,
                        now: int) {
    var stored := ToStore(item, now);
    producer in available &&
    if stored.state == Open then
      item.id !in db.items || Parse(accepts, item.id, db.items[item.id]) != Some(stored)
    else item.id in db.items && db.items[item.id].state == Open
  }

  function PublishItem(db: Db, accepts: Validator, producer: Producer, available: set<Producer>, item: Item, now: int)
    : (Db, bool)
  {
    if Accepted(db, accepts, producer, item)
    then (Put(db, producer, item, now), PutNotifies(db, accepts, producer, available, item, now))
    else (db, false)
  }

  function PublishItems(db: Db, accepts: Validator, producer: Producer, available: set<Producer>, items: seq<Item>,
                        now: int)
    : (Db, bool)
    decreases |items|
  {
    if |items| == 0 then (db, false) else
      var n := |items| - 1;
      var (before, changed) := PublishItems(db, accepts, producer, available, items[..n], now);
      var (after, more) := PublishItem(before, accepts, producer, available, items[n], now);
      (after, changed || more)
  }

  function Present(items: seq<Item>): set<Id> {
    set i | 0 <= i < |items| :: items[i].id
  }

  predicate Omitted(db: Db, accepts: Validator, producer: Producer, present: set<Id>, id: Id) {
    id in db.items && db.items[id].producer == producer && id !in present && Resolvable(db, accepts, id)
  }

  function ResolveOmitted(db: Db, accepts: Validator, producer: Producer, present: set<Id>, now: int): Db {
    Db(map id | id in db.items
         :: if Omitted(db, accepts, producer, present, id)
            then ResolvedRow(accepts, id, db.items[id], ByProducer, now) else db.items[id],
       map id | id in db.ledger.Keys + db.items.Keys && (id in db.ledger || Omitted(db, accepts, producer, present, id))
         :: if Omitted(db, accepts, producer, present, id)
            then ResolvedRevision(db.items[id], ByProducer, now) else db.ledger[id])
  }

  predicate Matches(producer: Producer, item: Item) {
    item.producer == producer && producer + ":" <= item.id
  }

  datatype Outcome = Done(changed: bool) | ReadOnly | Mismatch

  function Publish(db: Db, accepts: Validator, producer: Producer, items: seq<Item>, available: set<Producer>,
                   deniedAtEntry: bool, readOnly: bool, now: int): (Db, Outcome)
  {
    if deniedAtEntry then (db, ReadOnly)
    else if exists i :: 0 <= i < |items| && !Matches(producer, items[i]) then (db, Mismatch)
    else
      var (swept, expired) := ExpireAndPrune(db, accepts, readOnly, available, now);
      var (stored, changed) := PublishItems(swept, accepts, producer, available, items, now);
      var omitted := exists id :: id in stored.items && Omitted(stored, accepts, producer, Present(items), id);
      (ResolveOmitted(stored, accepts, producer, Present(items), now),
       Done(expired || changed || (omitted && producer in available)))
  }

  function Resolve(db: Db, accepts: Validator, producer: Producer, id: Id, revision: Option<int>,
                   available: set<Producer>, denied: bool, now: int): (Db, Outcome)
  {
    if denied then (db, ReadOnly)
    else if id !in db.items || db.items[id].producer != producer then (db, Done(false))
    else if revision.Some? && revision.value != db.items[id].revision then (db, Done(false))
    else
      var (after, changed) := ResolveRow(db, accepts, id, ByProducer, now);
      (after, Done(changed && producer in available))
  }

  function Dismiss(db: Db, accepts: Validator, id: Id, available: set<Producer>, denied: bool, now: int)
    : (Db, Outcome)
  {
    if denied then (db, ReadOnly)
    else if id !in db.items then (db, Done(false))
    else
      var (after, changed) := ResolveRow(db, accepts, id, ByUser, now);
      (after, Done(changed && db.items[id].producer in available))
  }

  // `tick`, and the table side of `list`.
  function Tick(db: Db, accepts: Validator, available: set<Producer>, readOnly: bool, now: int): (Db, Outcome) {
    var (after, changed) := ExpireAndPrune(db, accepts, readOnly, available, now);
    (after, Done(changed))
  }

  // ---- Runs ------------------------------------------------------------------------

  datatype Op =
    | DoPublish(producer: Producer, items: seq<Item>, deniedAtEntry: bool, readOnly: bool)
    | DoResolve(owner: Producer, id: Id, revision: Option<int>, denied: bool)
    | DoDismiss(id: Id, denied: bool)
    | DoTick(readOnly: bool)
    | DoCorrupt(id: Id, payload: Payload)  // something else rewrites one payload

  datatype Call = Call(op: Op, available: set<Producer>, now: int)

  function Step(db: Db, accepts: Validator, c: Call): (Db, Outcome) {
    match c.op
    case DoPublish(producer, items, deniedAtEntry, readOnly) =>
      Publish(db, accepts, producer, items, c.available, deniedAtEntry, readOnly, c.now)
    case DoResolve(owner, id, revision, denied) => Resolve(db, accepts, owner, id, revision, c.available, denied, c.now)
    case DoDismiss(id, denied) => Dismiss(db, accepts, id, c.available, denied, c.now)
    case DoTick(readOnly) => Tick(db, accepts, c.available, readOnly, c.now)
    case DoCorrupt(id, payload) =>
      (if id in db.items then db.(items := db.items[id := db.items[id].(payload := payload)]) else db, Done(true))
  }

  function Exec(db: Db, accepts: Validator, calls: seq<Call>): Db
    decreases |calls|
  {
    if |calls| == 0 then db else Exec(Step(db, accepts, calls[0]).0, accepts, calls[1..])
  }
}
