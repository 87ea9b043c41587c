/**
 * A chat day's messages: the union of two lists by id, later ones winning, in (ts, id) order.
 */
module MergeMessages {
  import Sorting

  type Id = string

  datatype Message = Message(id: Id, ts: int, body: string)

  // ids in their order; two ids that tie are one id
  ghost predicate TotalOrder(le: (Id, Id) -> bool) {
    Sorting.TotalPreorder(le) && forall a, b :: le(a, b) && le(b, a) ==> a == b
  }

  function ByTime(le: (Id, Id) -> bool): (Message, Message) -> bool {
    (a: Message, b: Message) => a.ts < b.ts || (a.ts == b.ts && le(a.id, b.id))
  }

  // ---- The Map, in its insertion order -----------------------------------------------------

  // Map.set: an id it has keeps its place.
  function Set(entries: seq<Message>, m: Message): seq<Message> {
    if |entries| == 0 then [m]
    else if entries[0].id == m.id then [m] + entries[1..]
    else [entries[0]] + Set(entries[1..], m)
  }

  function SetAll(entries: seq<Message>, ms: seq<Message>): seq<Message> {
    if |ms| == 0 then entries else Set(SetAll(entries, ms[..|ms| - 1]), ms[|ms| - 1])
  }

  function Merge(existing: seq<Message>, incoming: seq<Message>, le: (Id, Id) -> bool): seq<Message> {
    Sorting.Sort(ByTime(le), SetAll(SetAll([], existing), incoming))
  }

  // ---- What it means: the last message of each id -------------------------------------------

  function Latest(ms: seq<Message>): map<Id, Message> {
    if |ms| == 0 then map[] else Latest(ms[..|ms| - 1])[ms[|ms| - 1].id := ms[|ms| - 1]]
  }

  ghost predicate UniqueIds(ms: seq<Message>) {
    forall i, j {:trigger ms[i], ms[j]} :: 0 <= i < j < |ms| ==> ms[i].id != ms[j].id
  }

  /** The list holds exactly the map's messages, each once. */
  ghost predicate Lists(ms: seq<Message>, day: map<Id, Message>) {
    UniqueIds(ms) && forall m: Message {:trigger m in ms} :: m in ms <==> m.id in day && day[m.id] == m
  }

  ghost predicate StrictlySorted(ms: seq<Message>, le: (Id, Id) -> bool) {
    forall i, j {:trigger ms[i], ms[j]} :: 0 <= i < j < |ms| ==>
      ByTime(le)(ms[i], ms[j]) && !ByTime(le)(ms[j], ms[i])
  }

  lemma {:induction false} LatestOfBoth(a: seq<Message>, b: seq<Message>)
    ensures Latest(a + b) == Latest(a) + Latest(b)
    decreases |b|
  {
    if |b| == 0 {
      assert a + b == a;
    } else {
      assert (a + b)[..|a + b| - 1] == a + b[..|b| - 1];
      LatestOfBoth(a, b[..|b| - 1]);
    }
  }

  lemma {:induction false} LatestHoldsItsId(ms: seq<Message>)
    ensures forall k :: k in Latest(ms) ==> Latest(ms)[k].id == k && Latest(ms)[k] in ms
    ensures forall m :: m in ms ==> m.id in Latest(ms)
  {
    if |ms| > 0 {
      LatestHoldsItsId(ms[..|ms| - 1]);
      assert ms == ms[..|ms| - 1] + [ms[|ms| - 1]];
    }
  }

  /** Of each id, the map holds the last message. */
  lemma {:induction false} LatestIsLast(ms: seq<Message>, k: nat)
    requires k < |ms| && forall j :: k < j < |ms| ==> ms[j].id != ms[k].id
    ensures ms[k].id in Latest(ms) && Latest(ms)[ms[k].id] == ms[k]
    decreases |ms|
  {
    if k < |ms| - 1 {
      LatestIsLast(ms[..|ms| - 1], k);
    }
  }

  lemma {:induction false} SetIds(entries: seq<Message>, m: Message)
    requires UniqueIds(entries)
    ensures UniqueIds(Set(entries, m))
    ensures forall x :: x in Set(entries, m) <==> x == m || (x in entries && x.id != m.id)
  {
    if |entries| > 0 {
      var rest := entries[1..];
      assert entries == [entries[0]] + rest;
      assert forall k :: 0 <= k < |rest| ==> rest[k] == entries[k + 1] && rest[k].id != entries[0].id;
      assert UniqueIds(rest);
      if entries[0].id != m.id {
        SetIds(rest, m);
        var r := Set(rest, m);
        forall k | 0 <= k < |r| ensures r[k].id != entries[0].id {
          assert r[k] in r;
        }
      }
    }
  }

  lemma SetLists(entries: seq<Message>, day: map<Id, Message>, m: Message)
    requires Lists(entries, day)
    ensures Lists(Set(entries, m), day[m.id := m])
  {
    SetIds(entries, m);
  }

  lemma {:induction false} SetAllLists(entries: seq<Message>, day: map<Id, Message>, ms: seq<Message>)
    requires Lists(entries, day)
    ensures Lists(SetAll(entries, ms), day + Latest(ms))
    decreases |ms|
  {
    if |ms| == 0 {
      assert day + Latest(ms) == day;
    } else {
      var init := ms[..|ms| - 1];
      SetAllLists(entries, day, init);
      SetLists(SetAll(entries, init), day + Latest(init), ms[|ms| - 1]);
      assert (day + Latest(init))[ms[|ms| - 1].id := ms[|ms| - 1]] == day + Latest(ms);
    }
  }

  lemma {:induction false} OnceEach(ms: seq<Message>, m: Message)
    requires UniqueIds(ms)
    ensures multiset(ms)[m] == if m in ms then 1 else 0
  {
    if |ms| > 0 {
      var rest := ms[1..];
      assert ms == [ms[0]] + rest;
      assert forall k :: 0 <= k < |rest| ==> rest[k] == ms[k + 1] && rest[k].id != ms[0].id;
      assert UniqueIds(rest);
      OnceEach(rest, m);
    }
  }

  /** One map has one bag of messages. */
  lemma ListsAgree(a: seq<Message>, b: seq<Message>, day: map<Id, Message>)
    requires Lists(a, day) && Lists(b, day)
    ensures multiset(a) == multiset(b)
  {
    forall m: Message ensures multiset(a)[m] == multiset(b)[m] {
      OnceEach(a, m);
      OnceEach(b, m);
    }
  }

  lemma SameBag(a: seq<Message>, b: seq<Message>, day: map<Id, Message>)
    requires multiset(a) == multiset(b) && Lists(a, day)
    ensures Lists(b, day)
  {
    forall m: Message ensures m in b <==> m in a {
      assert m in multiset(a) <==> m in multiset(b);
    }
    forall i, j | 0 <= i < j < |b| ensures b[i].id != b[j].id {
      if b[i].id == b[j].id {
        assert b[i] in a && b[j] in a;
        assert b[i] == b[j] == day[b[i].id];
        Twice(b, i, j);
        OnceEach(a, b[i]);
      }
    }
  }

  lemma Twice(s: seq<Message>, i: nat, j: nat)
    requires i < j < |s| && s[i] == s[j]
    ensures multiset(s)[s[i]] >= 2
  {
    assert s == s[..j] + ([s[j]] + s[j + 1..]);
    assert s[..j] == s[..i] + ([s[i]] + s[i + 1..j]);
  }

  lemma ByTimeIsPreorder(le: (Id, Id) -> bool)
    requires TotalOrder(le)
    ensures Sorting.TotalPreorder(ByTime(le))
  {
    var lt := ByTime(le);
    forall a, b ensures lt(a, b) || lt(b, a) {
      assert le(a.id, b.id) || le(b.id, a.id);
    }
    forall a, b, c | lt(a, b) && lt(b, c) ensures lt(a, c) {
      assert le(a.id, b.id) && le(b.id, c.id) ==> le(a.id, c.id);
    }
  }

  // ---- What a merge promises ----------------------------------------------------------------------

  /** Unique ids, the incoming one of each, strictly ascending by (ts, id). */
  lemma MergeIsTheDay(existing: seq<Message>, incoming: seq<Message>, le: (Id, Id) -> bool)
    requires TotalOrder(le)
    ensures var r := Merge(existing, incoming, le);
            Lists(r, Latest(existing) + Latest(incoming)) && StrictlySorted(r, le) && Sorting.SortedBy(ByTime(le), r)
  {
    var day, bag := Latest(existing) + Latest(incoming), SetAll(SetAll([], existing), incoming);
    SetAllLists([], map[], existing);
    assert map[] + Latest(existing) == Latest(existing);
    SetAllLists(SetAll([], existing), Latest(existing), incoming);
    ByTimeIsPreorder(le);
    Sorting.SortPermutes(ByTime(le), bag);
    Sorting.SortSorts(ByTime(le), bag);
    var r := Merge(existing, incoming, le);
    SameBag(bag, r, day);
    forall i, j | 0 <= i < j < |r| ensures ByTime(le)(r[i], r[j]) && !ByTime(le)(r[j], r[i]) {
      assert ByTime(le)(r[i], r[j]);
      assert r[i].id != r[j].id;
    }
  }

  /**
   * In plain terms: ascending in time, equal times by id, no id twice, and of each id the last
   * incoming message, or the last existing one when no incoming message has that id.
   */
  lemma MergeShows(existing: seq<Message>, incoming: seq<Message>, le: (Id, Id) -> bool)
    requires TotalOrder(le)
    ensures var r := Merge(existing, incoming, le);
            forall i, j {:trigger r[i], r[j]} :: 0 <= i < j < |r| ==>
              r[i].id != r[j].id && (r[i].ts < r[j].ts || (r[i].ts == r[j].ts && le(r[i].id, r[j].id)))
    ensures forall m: Message :: m in Merge(existing, incoming, le) <==>
              IsLast(incoming, m) || (IsLast(existing, m) && !HasId(incoming, m.id))
  {
    MergeIsTheDay(existing, incoming, le);
    forall m: Message
      ensures m in Merge(existing, incoming, le) <==>
              IsLast(incoming, m) || (IsLast(existing, m) && !HasId(incoming, m.id))
    {
      LatestIff(incoming, m);
      LatestIff(existing, m);
      HasIdIff(incoming, m.id);
    }
    var r := Merge(existing, incoming, le);
    forall i, j | 0 <= i < j < |r|
      ensures r[i].id != r[j].id && (r[i].ts < r[j].ts || (r[i].ts == r[j].ts && le(r[i].id, r[j].id)))
    {
      assert ByTime(le)(r[i], r[j]);
    }
  }

  predicate IsLast(ms: seq<Message>, m: Message) {
    exists k :: 0 <= k < |ms| && ms[k] == m && forall j :: k < j < |ms| ==> ms[j].id != m.id
  }

  predicate HasId(ms: seq<Message>, id: Id) {
    exists k :: 0 <= k < |ms| && ms[k].id == id
  }

  lemma {:induction false} LastOf(ms: seq<Message>, id: Id) returns (k: nat)
    requires HasId(ms, id)
    ensures k < |ms| && ms[k].id == id && forall j :: k < j < |ms| ==> ms[j].id != id
    decreases |ms|
  {
    k := |ms| - 1;
    if ms[k].id != id {
      k := LastOf(ms[..k], id);
    }
  }

  lemma HasIdIff(ms: seq<Message>, id: Id)
    ensures HasId(ms, id) <==> id in Latest(ms)
  {
    LatestHoldsItsId(ms);
    if HasId(ms, id) {
      var k := LastOf(ms, id);
      LatestIsLast(ms, k);
    }
  }

  lemma LatestIff(ms: seq<Message>, m: Message)
    ensures IsLast(ms, m) <==> m.id in Latest(ms) && Latest(ms)[m.id] == m
  {
    HasIdIff(ms, m.id);
    if HasId(ms, m.id) {
      var k := LastOf(ms, m.id);
      LatestIsLast(ms, k);
    }
  }

  /** There is one list that is this day in this order. */
  lemma DayIsUnique(a: seq<Message>, b: seq<Message>, day: map<Id, Message>, le: (Id, Id) -> bool)
    requires TotalOrder(le) && Lists(a, day) && Lists(b, day)
    requires Sorting.SortedBy(ByTime(le), a) && Sorting.SortedBy(ByTime(le), b)
    ensures a == b
  {
    ListsAgree(a, b, day);
    ByTimeIsPreorder(le);
    forall x, y | x in a && y in a && ByTime(le)(x, y) && ByTime(le)(y, x) ensures x == y {
      assert x.id == y.id;
    }
    Sorting.SortedUnique(ByTime(le), a, b);
  }

  /** A merge depends on nothing but the last message of each id. */
  lemma MergeDependsOnLatest(a: seq<Message>, b: seq<Message>, c: seq<Message>, d: seq<Message>, le: (Id, Id) -> bool)
    requires TotalOrder(le) && Latest(a + b) == Latest(c + d)
    ensures Merge(a, b, le) == Merge(c, d, le)
  {
    LatestOfBoth(a, b);
    LatestOfBoth(c, d);
    MergeIsTheDay(a, b, le);
    MergeIsTheDay(c, d, le);
    DayIsUnique(Merge(a, b, le), Merge(c, d, le), Latest(a + b), le);
  }

  lemma LatestOfList(ms: seq<Message>, day: map<Id, Message>)
    requires Lists(ms, day) && forall k :: k in day ==> day[k].id == k
    ensures Latest(ms) == day
  {
    LatestHoldsItsId(ms);
    forall k | k in day ensures k in Latest(ms) && Latest(ms)[k] == day[k] {
      assert day[k] in ms;
    }
  }

  /** The result of a merge stands for the merge. */
  lemma LatestOfMerge(a: seq<Message>, b: seq<Message>, le: (Id, Id) -> bool)
    requires TotalOrder(le)
    ensures Latest(Merge(a, b, le)) == Latest(a) + Latest(b)
  {
    MergeIsTheDay(a, b, le);
    LatestHoldsItsId(a);
    LatestHoldsItsId(b);
    LatestOfList(Merge(a, b, le), Latest(a) + Latest(b));
  }

  /** Merging the same batch again changes nothing. */
  lemma MergeAgain(a: seq<Message>, b: seq<Message>, le: (Id, Id) -> bool)
    requires TotalOrder(le)
    ensures Merge(Merge(a, b, le), b, le) == Merge(a, b, le)
  {
    LatestOfMerge(a, b, le);
    LatestOfBoth(Merge(a, b, le), b);
    LatestOfBoth(a, b);
    assert Latest(a) + Latest(b) + Latest(b) == Latest(a) + Latest(b);
    MergeDependsOnLatest(Merge(a, b, le), b, a, b, le);
  }

  lemma LatestOfGroups(a: seq<Message>, b: seq<Message>, c: seq<Message>, le: (Id, Id) -> bool)
    requires TotalOrder(le)
    ensures Latest(Merge(a, b, le) + c) == Latest(a) + Latest(b) + Latest(c)
    ensures Latest(a + Merge(b, c, le)) == Latest(a) + (Latest(b) + Latest(c))
  {
    LatestOfMerge(a, b, le);
    LatestOfMerge(b, c, le);
    LatestOfBoth(Merge(a, b, le), c);
    LatestOfBoth(a, Merge(b, c, le));
  }

  /** Merging is associative, so batches may be grouped in any way. */
  lemma MergeGroups(a: seq<Message>, b: seq<Message>, c: seq<Message>, le: (Id, Id) -> bool)
    requires TotalOrder(le)
    ensures Merge(Merge(a, b, le), c, le) == Merge(a, Merge(b, c, le), le)
  {
    LatestOfGroups(a, b, c, le);
    assert (Latest(a) + Latest(b)) + Latest(c) == Latest(a) + (Latest(b) + Latest(c));
    MergeDependsOnLatest(Merge(a, b, le), c, a, Merge(b, c, le), le);
  }

  function MergeAll(day: seq<Message>, batches: seq<seq<Message>>, le: (Id, Id) -> bool): seq<Message> {
    if |batches| == 0 then day else Merge(MergeAll(day, batches[..|batches| - 1], le), batches[|batches| - 1], le)
  }

  function Joined(batches: seq<seq<Message>>): seq<Message> {
    if |batches| == 0 then [] else Joined(batches[..|batches| - 1]) + batches[|batches| - 1]
  }

  lemma {:induction false} LatestOfAll(batches: seq<seq<Message>>, le: (Id, Id) -> bool)
    requires TotalOrder(le)
    ensures Latest(MergeAll([], batches, le)) == Latest(Joined(batches))
    decreases |batches|
  {
    if |batches| > 0 {
      var init, last := batches[..|batches| - 1], batches[|batches| - 1];
      LatestOfAll(init, le);
      LatestOfMerge(MergeAll([], init, le), last, le);
      LatestOfBoth(Joined(init), last);
    }
  }

  /** A day built batch by batch is the day built from all of them at once. */
  lemma BatchesDoNotMatter(batches: seq<seq<Message>>, le: (Id, Id) -> bool)
    requires TotalOrder(le)
    ensures MergeAll([], batches, le) == Merge([], Joined(batches), le)
  {
    if |batches| > 0 {
      var init, last := batches[..|batches| - 1], batches[|batches| - 1];
      var day := MergeAll([], init, le);
      LatestOfAll(init, le);
      LatestOfBoth(day, last);
      LatestOfBoth(Joined(init), last);
      assert [] + Joined(batches) == Joined(batches);
      MergeDependsOnLatest(day, last, [], Joined(batches), le);
    }
  }

  /** Where distinct ids tie, the order of arrival shows. */
  lemma TiesShowArrival(le: (Id, Id) -> bool, a: Message, b: Message)
    requires a.ts == b.ts && a.id != b.id && le(a.id, b.id) && le(b.id, a.id)
    ensures Merge([a], [b], le) == [a, b] && Merge([b], [a], le) == [b, a]
  {
    TwoKeepOrder(le, a, b);
    TwoKeepOrder(le, b, a);
  }

  lemma TwoKeepOrder(le: (Id, Id) -> bool, a: Message, b: Message)
    requires a.ts == b.ts && a.id != b.id && le(a.id, b.id)
    ensures Merge([a], [b], le) == [a, b]
  {
    assert SetAll([], [a]) == Set(SetAll([], [a][..0]), a) == [a];
    assert SetAll([a], [b]) == Set(SetAll([a], [b][..0]), b);
    assert Set([a], b) == [a] + Set([a][1..], b) == [a, b];
    var lt := ByTime(le);
    assert [a, b][..1] == [a] && [a][..0] == [];
    assert Sorting.Sort(lt, [a]) == Sorting.Insert(lt, Sorting.Sort(lt, []), a) == [a];
    assert Sorting.Sort(lt, [a, b]) == Sorting.Insert(lt, [a], b) == [a, b];
  }

  // ---- The loop -----------------------------------------------------------------------------------------

  method MergeDay(existing: seq<Message>, incoming: seq<Message>, le: (Id, Id) -> bool) returns (r: seq<Message>)
    ensures r == Merge(existing, incoming, le)
  {
    var byId: seq<Message> := [];
    for i := 0 to |existing|
      invariant byId == SetAll([], existing[..i])
    {
      assert existing[..i + 1][..i] == existing[..i];
      byId := Set(byId, existing[i]);
    }
    assert existing[..|existing|] == existing;
    ghost var day := byId;
    for i := 0 to |incoming|
      invariant byId == SetAll(day, incoming[..i])
    {
      assert incoming[..i + 1][..i] == incoming[..i];
      byId := Set(byId, incoming[i]);
    }
    assert incoming[..|incoming|] == incoming;
    r := Sorting.Sort(ByTime(le), byId);
  }
}
