/**
 * Listing the ledger: what a reader sees is one fixed sequence, whatever order the rows are
 * scanned in, and it changes only when an operation says so.
 */
module AttentionList {
  import opened Wrappers
  import opened AttentionSpec
  import opened AttentionProofs
  import Attention
  import Sorting

  // ---- The order ------------------------------------------------------------------------

  predicate IdLe(a: Id, b: Id) {
    |a| == 0 || (|b| > 0 && (a[0] < b[0] || (a[0] == b[0] && IdLe(a[1..], b[1..]))))
  }

  lemma {:induction false} IdLeTotal(a: Id, b: Id)
    ensures IdLe(a, b) || IdLe(b, a)
    ensures IdLe(a, b) && IdLe(b, a) ==> a == b
  {
    if |a| > 0 && |b| > 0 {
      IdLeTotal(a[1..], b[1..]);
      assert a == [a[0]] + a[1..] && b == [b[0]] + b[1..];
    }
  }

  lemma {:induction false} IdLeTransitive(a: Id, b: Id, c: Id)
    requires IdLe(a, b) && IdLe(b, c)
    ensures IdLe(a, c)
  {
    if |a| > 0 && a[0] == b[0] && b[0] == c[0] {
      IdLeTransitive(a[1..], b[1..], c[1..]);
    }
  }

  /** The first character that differs decides; without one the shorter id comes first. */
  lemma {:induction false} IdLeDecides(p: Id, x: char, u: Id, y: char, v: Id)
    requires x < y
    ensures IdLe(p + [x] + u, p + [y] + v) && !IdLe(p + [y] + v, p + [x] + u) && IdLe(p, p + u)
  {
    if |p| > 0 {
      IdLeDecides(p[1..], x, u, y, v);
      assert (p + [x] + u)[1..] == p[1..] + [x] + u && (p + [y] + v)[1..] == p[1..] + [y] + v;
      assert (p + u)[1..] == p[1..] + u;
    }
  }

  // Priority, then due time with none last, then age, then id.
  predicate Before(a: Item, b: Item) {
    if a.priority != b.priority then a.priority < b.priority
    else if a.dueAt.None? && b.dueAt.Some? then false
    else if a.dueAt.Some? && b.dueAt.None? then true
    else if a.dueAt != b.dueAt then a.dueAt.value < b.dueAt.value
    else if a.createdAt != b.createdAt then a.createdAt < b.createdAt
    else IdLe(a.id, b.id)
  }

  lemma BeforeIsPreorder()
    ensures Sorting.TotalPreorder(Before)
  {
    forall a, b ensures Before(a, b) || Before(b, a) {
      IdLeTotal(a.id, b.id);
    }
    forall a, b, c | Before(a, b) && Before(b, c) ensures Before(a, c) {
      if IdLe(a.id, b.id) && IdLe(b.id, c.id) {
        IdLeTransitive(a.id, b.id, c.id);
      }
    }
  }

  // ---- The listing ------------------------------------------------------------------------

  predicate Asked(kinds: Option<set<Kind>>, item: Item) {
    kinds.None? || item.kind in kinds.value
  }

  /** Every visible item of the kinds asked for, once, in order. */
  ghost predicate Listing(r: seq<Item>, visible: map<Id, Item>, kinds: Option<set<Kind>>) {
    && Sorting.SortedBy(Before, r)
    && forall x: Item {:trigger multiset(r)[x]} ::
         multiset(r)[x] == if x.id in visible && visible[x.id] == x && Asked(kinds, x) then 1 else 0
  }

  /**
   * In a listing more urgent comes first; at one priority what is due comes before what is not,
   * and sooner before later; then older before newer, and then by id.
   */
  lemma ListingOrder(r: seq<Item>, visible: map<Id, Item>, kinds: Option<set<Kind>>, i: nat, j: nat)
    requires Listing(r, visible, kinds) && i < j < |r|
    ensures r[i].priority <= r[j].priority
    ensures r[i].priority == r[j].priority ==>
              (r[i].dueAt.None? ==> r[j].dueAt.None?) &&
              (r[i].dueAt.Some? && r[j].dueAt.Some? ==> r[i].dueAt.value <= r[j].dueAt.value)
    ensures r[i].priority == r[j].priority && r[i].dueAt == r[j].dueAt ==> r[i].createdAt <= r[j].createdAt
    ensures r[i].priority == r[j].priority && r[i].dueAt == r[j].dueAt && r[i].createdAt == r[j].createdAt ==>
              IdLe(r[i].id, r[j].id)
  {
    assert Before(r[i], r[j]);
  }

  /** There is one such sequence. */
  lemma ListingIsOne(a: seq<Item>, b: seq<Item>, visible: map<Id, Item>, kinds: Option<set<Kind>>)
    requires Listing(a, visible, kinds) && Listing(b, visible, kinds)
    ensures a == b
  {
    BeforeIsPreorder();
    forall x: Item ensures multiset(a)[x] == multiset(b)[x] {
    }
    forall x, y | x in a && y in a && Before(x, y) && Before(y, x) ensures x == y {
      IdLeTotal(x.id, y.id);
      assert multiset(a)[x] > 0 && multiset(a)[y] > 0;
    }
    Sorting.SortedUnique(Before, a, b);
  }

  /** A reader who lists before and after an unreported operation gets the same sequence. */
  lemma UnreportedKeepsListing(db: Db, accepts: Validator, c: Call, a: seq<Item>, b: seq<Item>,
                               kinds: Option<set<Kind>>)
    requires Owned(db) && Validated(c.op) && Step(db, accepts, c).1 != Done(true)
    requires Listing(a, Visible(db, accepts, c.available), kinds)
    requires Listing(b, Visible(Step(db, accepts, c).0, accepts, c.available), kinds)
    ensures a == b
  {
    UnreportedChangesNothing(db, accepts, c);
    ListingIsOne(a, b, Visible(db, accepts, c.available), kinds);
  }

  // ---- The operation ------------------------------------------------------------------------

  // The rows scanned so far.
  ghost predicate Scanned(items: seq<Item>, visible: map<Id, Item>, left: set<Id>, kinds: Option<set<Kind>>) {
    forall x: Item {:trigger multiset(items)[x]} ::
      multiset(items)[x] == if x.id in visible && x.id !in left && visible[x.id] == x && Asked(kinds, x) then 1 else 0
  }

  lemma SortListing(items: seq<Item>, visible: map<Id, Item>, kinds: Option<set<Kind>>)
    requires Scanned(items, visible, {}, kinds)
    ensures Listing(Sorting.Sort(Before, items), visible, kinds)
  {
    BeforeIsPreorder();
    Sorting.SortSorts(Before, items);
    Sorting.SortPermutes(Before, items);
  }

  /** Expire and prune, then scan the open rows in any order, then sort. */
  method List(store: Attention.Store, accepts: Validator, available: set<Producer>, readOnly: bool,
              kinds: Option<set<Kind>>, now: int)
    returns (changed: bool, items: seq<Item>)
    modifies store
    ensures (store.View(), Done(changed)) == Tick(old(store.View()), accepts, available, readOnly, now)
    ensures Listing(items, Visible(store.View(), accepts, available), kinds)
  {
    changed := store.Expire(accepts, available, readOnly, now);
    items := [];
    var left := store.items.Keys;
    ghost var visible := Visible(store.View(), accepts, available);
    while left != {}
      invariant left <= store.items.Keys
      invariant Scanned(items, visible, left, kinds)
      decreases left
    {
      var id :| id in left;
      var row := store.items[id];
      var item := Parse(accepts, id, row);
      if row.state == Open && row.producer in available && item.Some? && Asked(kinds, item.value) {
        items := items + [item.value];
      }
      left := left - {id};
    }
    SortListing(items, visible, kinds);
    items := Sorting.Sort(Before, items);
  }
}
