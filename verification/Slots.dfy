/**
 * Free time: the search over the days and half hours of a query.
 */
module Slots {
  import opened Wrappers
  import opened CivilDate
  import opened ZonedTime
  import Sorting

  const STEP_MIN := 30
  const MINUTE_MS := 60000
  const DAY_MS := 86400000

  datatype Block = Block(title: string, start: int, end: int, calendar: string, busy: bool)

  datatype Slot = Slot(start: int, end: int, free: bool, conflicts: seq<Block>)

  // between: minutes of the day, from HH:MM. days: ISO weekdays.
  datatype Query = Query(from: int, to: int, duration: int, startMin: int, endMin: int, days: set<int>, limit: nat)

  // A zone is its offset.
  datatype Zone = Zone(off: Offset)

  // The date a zone shows at an instant.
  function LocalDate(zone: Zone, t: int): (x: Date)
    ensures ValidDate(x) && DayNumber(x) == WallAt(zone.off, t) / DAY_MS
  {
    DateOf(WallAt(zone.off, t) / DAY_MS)
  }

  // ---- One candidate -------------------------------------------------------------------

  // Date.UTC(y, m - 1, d, h, mi)
  function Guess(date: Date, min: int): int
    requires ValidDate(date)
  {
    DayNumber(date) * DAY_MS + min * MINUTE_MS
  }

  predicate Touches(b: Block, start: int, end: int) {
    b.start < end && b.end > start
  }

  function Hits(blocks: seq<Block>, start: int, end: int): (r: seq<Block>)
    ensures forall b :: b in r <==> b in blocks && Touches(b, start, end)
  {
    if |blocks| == 0 then []
    else
      assert blocks == [blocks[0]] + blocks[1..];
      (if Touches(blocks[0], start, end) then [blocks[0]] else []) + Hits(blocks[1..], start, end)
  }

  predicate AnyBusy(blocks: seq<Block>) {
    exists k :: 0 <= k < |blocks| && blocks[k].busy
  }

  function Max(a: int, b: int): int { if a >= b then a else b }

  function SlotAt(q: Query, zone: Zone, blocks: seq<Block>, now: int, date: Date, min: int): Option<Slot>
    requires ValidDate(date)
  {
    var s := ZonedToUtc(zone.off, Guess(date, min));
    var e := s + q.duration * MINUTE_MS;
    if s < Max(q.from, now) || e > q.to then None
    else
      var hits := Hits(blocks, s, e);
      if AnyBusy(hits) then None else Some(Slot(s, e, |hits| == 0, hits))
  }

  /**
   * A candidate is offered exactly when it fits the window and every busy block ends by its start
   * or starts from its end on; it is free exactly when every block does.
   */
  lemma OfferedIff(q: Query, zone: Zone, blocks: seq<Block>, now: int, date: Date, min: int)
    requires ValidDate(date)
    ensures var s := ZonedToUtc(zone.off, DayNumber(date) * 86400000 + min * 60000);
            var e := s + q.duration * 60000;
            var slot := SlotAt(q, zone, blocks, now, date, min);
            (slot.Some? <==> q.from <= s && now <= s && e <= q.to
                             && forall b :: b in blocks && b.busy ==> b.end <= s || b.start >= e) &&
            (slot.Some? ==>
               slot.value.start == s && slot.value.end == e &&
               (slot.value.free <==> forall b :: b in blocks ==> b.end <= s || b.start >= e) &&
               (forall b :: b in slot.value.conflicts <==> b in blocks && b.start < e && b.end > s))
  {
    var s := ZonedToUtc(zone.off, Guess(date, min));
    var hits := Hits(blocks, s, s + q.duration * MINUTE_MS);
    if AnyBusy(hits) {
      var k :| 0 <= k < |hits| && hits[k].busy;
      assert hits[k] in hits;
    }
    assert |hits| > 0 ==> hits[0] in hits;
  }

  // ---- All candidates --------------------------------------------------------------------

  // Math.ceil(start / 30) * 30
  function FirstMin(q: Query): int {
    (q.startMin + STEP_MIN - 1) / STEP_MIN * STEP_MIN
  }

  function DaySlots(q: Query, zone: Zone, blocks: seq<Block>, now: int, date: Date, min: int): seq<Slot>
    requires ValidDate(date)
    decreases q.endMin - q.duration - min
  {
    if min + q.duration > q.endMin then []
    else
      var slot := SlotAt(q, zone, blocks, now, date, min);
      (if slot.Some? then [slot.value] else []) + DaySlots(q, zone, blocks, now, date, min + STEP_MIN)
  }

  function OnDay(q: Query, zone: Zone, blocks: seq<Block>, now: int, date: Date): seq<Slot>
    requires ValidDate(date)
  {
    if IsoDay(DayNumber(date)) in q.days then DaySlots(q, zone, blocks, now, date, FirstMin(q)) else []
  }

  function AllSlots(q: Query, zone: Zone, blocks: seq<Block>, now: int, date: Date, last: Date): seq<Slot>
    requires ValidDate(date) && ValidDate(last)
    decreases DayNumber(last) - DayNumber(date)
  {
    if Key(date) > Key(last) then []
    else
      KeyOrder(last, date);
      NextDayFollows(date);
      OnDay(q, zone, blocks, now, date) + AllSlots(q, zone, blocks, now, NextDay(date), last)
  }

  /** A half hour of the day that fits between the two wall clock times. */
  predicate GoodMinute(q: Query, min: int) {
    min % STEP_MIN == 0 && q.startMin <= min && min + q.duration <= q.endMin
  }

  predicate GoodDay(q: Query, date: Date, first: Date, last: Date) {
    ValidDate(date) && Key(first) <= Key(date) <= Key(last) && IsoDay(DayNumber(date)) in q.days
  }

  lemma FirstMinIsFirst(q: Query)
    ensures FirstMin(q) % STEP_MIN == 0 && q.startMin <= FirstMin(q) < q.startMin + STEP_MIN
  {
  }

  ghost predicate Candidate(q: Query, zone: Zone, blocks: seq<Block>, now: int, first: Date, last: Date,
                            slot: Slot, date: Date, min: int) {
    GoodDay(q, date, first, last) && GoodMinute(q, min) && SlotAt(q, zone, blocks, now, date, min) == Some(slot)
  }

  lemma DayStep(q: Query, zone: Zone, blocks: seq<Block>, now: int, date: Date, last: Date)
    requires ValidDate(date) && ValidDate(last) && Key(date) <= Key(last)
    ensures ValidDate(NextDay(date))
    ensures DayNumber(date) < DayNumber(NextDay(date)) && DayNumber(date) <= DayNumber(last)
    ensures AllSlots(q, zone, blocks, now, date, last) ==
            OnDay(q, zone, blocks, now, date) + AllSlots(q, zone, blocks, now, NextDay(date), last)
  {
    KeyOrder(last, date);
    NextDayFollows(date);
  }

  // A day of the range is its first day or one of the rest.
  lemma GoodDaySplits(q: Query, date: Date, first: Date, last: Date)
    requires ValidDate(first) && ValidDate(last) && Key(first) <= Key(last)
    ensures GoodDay(q, date, first, last) <==>
            (date == first && GoodDay(q, date, first, first)) || GoodDay(q, date, NextDay(first), last)
  {
    if ValidDate(date) {
      KeyFrom(first, date);
    }
  }

  // ---- Each candidate once ------------------------------------------------------------------

  datatype Time = Time(date: Date, min: int)

  predicate Sooner(a: Time, b: Time) {
    Key(a.date) < Key(b.date) || (a.date == b.date && a.min < b.min)
  }

  ghost predicate InTurn(ts: seq<Time>) {
    forall i, j {:trigger Sooner(ts[i], ts[j])} :: 0 <= i < j < |ts| ==> Sooner(ts[i], ts[j])
  }

  ghost predicate ValidTimes(ts: seq<Time>) {
    forall i {:trigger ts[i]} :: 0 <= i < |ts| ==> ValidDate(ts[i].date)
  }

  // What the candidates at these times offer, in their order.
  function Offers(q: Query, zone: Zone, blocks: seq<Block>, now: int, ts: seq<Time>): seq<Slot>
    requires forall i :: 0 <= i < |ts| ==> ValidDate(ts[i].date)
  {
    if |ts| == 0 then []
    else
      var slot := SlotAt(q, zone, blocks, now, ts[0].date, ts[0].min);
      (if slot.Some? then [slot.value] else []) + Offers(q, zone, blocks, now, ts[1..])
  }

  lemma {:induction false} OffersJoin(q: Query, zone: Zone, blocks: seq<Block>, now: int, a: seq<Time>, b: seq<Time>)
    requires ValidTimes(a) && ValidTimes(b)
    ensures ValidTimes(a + b)
    ensures Offers(q, zone, blocks, now, a + b) == Offers(q, zone, blocks, now, a) + Offers(q, zone, blocks, now, b)
    decreases |a|
  {
    if |a| == 0 {
      assert a + b == b;
    } else {
      assert (a + b)[1..] == a[1..] + b;
      OffersJoin(q, zone, blocks, now, a[1..], b);
    }
  }

  // The half hours of one day from `from` on that fit, in order.
  ghost predicate DayTimes(q: Query, date: Date, from: int, ts: seq<Time>) {
    && ValidTimes(ts) && InTurn(ts)
    && forall t: Time {:trigger t in ts} :: t in ts <==>
         t.date == date && t.min % STEP_MIN == 0 && from <= t.min && t.min + q.duration <= q.endMin
  }

  lemma {:induction false} DayEachOnce(q: Query, zone: Zone, blocks: seq<Block>, now: int, date: Date, from: int)
    returns (ts: seq<Time>)
    requires ValidDate(date) && from % STEP_MIN == 0
    ensures DayTimes(q, date, from, ts) &&
            DaySlots(q, zone, blocks, now, date, from) == Offers(q, zone, blocks, now, ts)
    decreases q.endMin - q.duration - from
  {
    ts := [];
    if from + q.duration <= q.endMin {
      var rest := DayEachOnce(q, zone, blocks, now, date, from + STEP_MIN);
      ts := [Time(date, from)] + rest;
      assert ts[1..] == rest;
      SoonerFirst(Time(date, from), rest);
    }
  }

  lemma SoonerFirst(t: Time, rest: seq<Time>)
    requires InTurn(rest) && ValidTimes(rest) && ValidDate(t.date)
    requires forall x :: x in rest ==> Sooner(t, x)
    ensures InTurn([t] + rest) && ValidTimes([t] + rest)
  {
    var all := [t] + rest;
    forall i, j | 0 <= i < j < |all| ensures Sooner(all[i], all[j]) {
      assert all[j] == rest[j - 1] && rest[j - 1] in rest;
    }
  }

  lemma SoonerJoin(a: seq<Time>, b: seq<Time>)
    requires InTurn(a) && InTurn(b) && forall x, y :: x in a && y in b ==> Sooner(x, y)
    ensures InTurn(a + b)
  {
    var all := a + b;
    forall i, j | 0 <= i < j < |all| ensures Sooner(all[i], all[j]) {
      if i < |a| && j >= |a| {
        assert all[i] in a && all[j] in b;
      }
    }
  }

  /** Exactly the half hours of the query's days, each once and in order. */
  ghost predicate AllTimes(q: Query, first: Date, last: Date, ts: seq<Time>) {
    && ValidTimes(ts) && InTurn(ts)
    && forall t: Time {:trigger t in ts} :: t in ts <==> GoodDay(q, t.date, first, last) && GoodMinute(q, t.min)
  }

  lemma OneDay(date: Date, x: Date)
    requires ValidDate(date) && ValidDate(x) && Key(x) == Key(date)
    ensures x == date
  {
    KeyFrom(date, x);
    KeyFrom(x, date);
  }

  lemma GoodTime(q: Query, date: Date, t: Time)
    requires ValidDate(date) && IsoDay(DayNumber(date)) in q.days
    ensures t.date == date && t.min % STEP_MIN == 0 && FirstMin(q) <= t.min && t.min + q.duration <= q.endMin <==>
            GoodDay(q, t.date, date, date) && GoodMinute(q, t.min)
  {
    FirstMinIsFirst(q);
    if GoodDay(q, t.date, date, date) {
      OneDay(date, t.date);
    }
  }

  lemma DayTimesAreAll(q: Query, date: Date, ts: seq<Time>)
    requires ValidDate(date) && IsoDay(DayNumber(date)) in q.days && DayTimes(q, date, FirstMin(q), ts)
    ensures AllTimes(q, date, date, ts)
  {
    forall t: Time ensures t in ts <==> GoodDay(q, t.date, date, date) && GoodMinute(q, t.min) {
      GoodTime(q, date, t);
    }
  }

  lemma OnDayEachOnce(q: Query, zone: Zone, blocks: seq<Block>, now: int, date: Date) returns (ts: seq<Time>)
    requires ValidDate(date)
    ensures AllTimes(q, date, date, ts) && OnDay(q, zone, blocks, now, date) == Offers(q, zone, blocks, now, ts)
  {
    if IsoDay(DayNumber(date)) in q.days {
      FirstMinIsFirst(q);
      ts := DayEachOnce(q, zone, blocks, now, date, FirstMin(q));
      DayTimesAreAll(q, date, ts);
    } else {
      ts := [];
      forall x: Date ensures !GoodDay(q, x, date, date) {
        if ValidDate(x) && Key(x) == Key(date) {
          OneDay(date, x);
        }
      }
    }
  }

  /** Each candidate of the query is tried once, in order: what is found is what those tries offer. */
  lemma {:induction false} EachOnce(q: Query, zone: Zone, blocks: seq<Block>, now: int, first: Date, last: Date)
    returns (ts: seq<Time>)
    requires ValidDate(first) && ValidDate(last)
    ensures AllTimes(q, first, last, ts)
    ensures AllSlots(q, zone, blocks, now, first, last) == Offers(q, zone, blocks, now, ts)
    decreases DayNumber(last) - DayNumber(first)
  {
    ts := [];
    if Key(first) <= Key(last) {
      DayStep(q, zone, blocks, now, first, last);
      var day := OnDayEachOnce(q, zone, blocks, now, first);
      var rest := EachOnce(q, zone, blocks, now, NextDay(first), last);
      OffersJoin(q, zone, blocks, now, day, rest);
      ts := day + rest;
      TimesJoin(q, first, last, day, rest);
    }
  }

  lemma TimesJoin(q: Query, first: Date, last: Date, day: seq<Time>, rest: seq<Time>)
    requires ValidDate(first) && ValidDate(last) && Key(first) <= Key(last)
    requires AllTimes(q, first, first, day) && AllTimes(q, NextDay(first), last, rest)
    ensures AllTimes(q, first, last, day + rest)
  {
    KeyFrom(first, first);
    SoonerJoin(day, rest);
    forall t: Time ensures t in day + rest <==> GoodDay(q, t.date, first, last) && GoodMinute(q, t.min) {
      GoodDaySplits(q, t.date, first, last);
      assert t in day + rest <==> t in day || t in rest;
      if GoodDay(q, t.date, first, first) {
        OneDay(first, t.date);
      }
    }
  }

  lemma {:induction false} OffersIff(q: Query, zone: Zone, blocks: seq<Block>, now: int, ts: seq<Time>, slot: Slot)
    requires ValidTimes(ts)
    ensures slot in Offers(q, zone, blocks, now, ts) <==>
            exists k :: 0 <= k < |ts| && SlotAt(q, zone, blocks, now, ts[k].date, ts[k].min) == Some(slot)
    decreases |ts|
  {
    if |ts| > 0 {
      var rest := ts[1..];
      assert forall k :: 0 <= k < |rest| ==> rest[k] == ts[k + 1];
      OffersIff(q, zone, blocks, now, rest, slot);
      if SlotAt(q, zone, blocks, now, ts[0].date, ts[0].min) != Some(slot) {
        assert (exists k :: 0 <= k < |ts| && SlotAt(q, zone, blocks, now, ts[k].date, ts[k].min) == Some(slot)) ==>
               exists k :: 0 <= k < |rest| && SlotAt(q, zone, blocks, now, rest[k].date, rest[k].min) == Some(slot) by {
          if k :| 0 <= k < |ts| && SlotAt(q, zone, blocks, now, ts[k].date, ts[k].min) == Some(slot) {
            assert rest[k - 1] == ts[k];
          }
        }
      }
    }
  }

  /** Sound and complete: the slots found are exactly the candidates on the days of the query. */
  lemma AllIsExact(q: Query, zone: Zone, blocks: seq<Block>, now: int, first: Date, last: Date, slot: Slot)
    requires ValidDate(first) && ValidDate(last)
    ensures slot in AllSlots(q, zone, blocks, now, first, last) <==>
            exists date, min :: Candidate(q, zone, blocks, now, first, last, slot, date, min)
  {
    var ts := EachOnce(q, zone, blocks, now, first, last);
    OffersIff(q, zone, blocks, now, ts, slot);
    if k :| 0 <= k < |ts| && SlotAt(q, zone, blocks, now, ts[k].date, ts[k].min) == Some(slot) {
      assert ts[k] in ts;
      assert Candidate(q, zone, blocks, now, first, last, slot, ts[k].date, ts[k].min);
    }
    if date, min :| Candidate(q, zone, blocks, now, first, last, slot, date, min) {
      assert Time(date, min) in ts;
    }
  }

  // ---- The wall time an offered slot shows -------------------------------------------------------

  // The instant shows this date and this minute of the day.
  predicate Shows(zone: Zone, t: int, date: Date, min: int) {
    LocalDate(zone, t) == date && WallAt(zone.off, t) % DAY_MS == min * MINUTE_MS
  }

  lemma WallOfDay(date: Date, min: int)
    requires ValidDate(date) && 0 <= min < 1440
    ensures Guess(date, min) / DAY_MS == DayNumber(date) && Guess(date, min) % DAY_MS == min * MINUTE_MS
  {
    assert 0 <= min * MINUTE_MS < DAY_MS;
  }

  lemma ShowsIsWall(zone: Zone, t: int, date: Date, min: int)
    requires ValidDate(date) && 0 <= min < 1440
    ensures Shows(zone, t, date, min) <==> WallAt(zone.off, t) == Guess(date, min)
  {
    WallOfDay(date, min);
    KeyOrder(LocalDate(zone, t), date);
  }

  /**
   * The start of a candidate shows its day and half hour if and only if the zone does not skip
   * that wall time; otherwise it shows a time off by exactly the gap, on the side GapMisses tells.
   */
  lemma StartShowsIff(zone: Zone, z: Transition, date: Date, min: int, reach: int)
    requires ValidDate(date) && 0 <= min < 1440 && Near(zone.off, z, Guess(date, min), reach)
    ensures var g, gap := Guess(date, min), z.after - z.before;
            var s := ZonedToUtc(zone.off, g);
            && (Shows(zone, s, date, min) <==> !InGap(z, g))
            && (InGap(z, g) ==> WallAt(zone.off, s) == if g >= z.at then g + gap else g - gap)
  {
    var g := Guess(date, min);
    var s := ZonedToUtc(zone.off, g);
    ShowsIsWall(zone, s, date, min);
    ZonedShows(zone.off, z, g, reach);
    ShownIff(zone.off, z, g, reach);
    if InGap(z, g) {
      GapMisses(zone.off, z, g, reach);
    }
  }

  // The wall time lies between the two of the query, on one of its days.
  predicate FitsQuery(q: Query, wall: int) {
    IsoDay(wall / DAY_MS) in q.days &&
    q.startMin * MINUTE_MS <= wall % DAY_MS && wall % DAY_MS + q.duration * MINUTE_MS <= q.endMin * MINUTE_MS
  }

  /**
   * A candidate really starts between the times asked for, on a day asked for, if and only if
   * the zone does not skip it, or the time it is moved to by the gap fits the query as well.
   */
  lemma StartFitsIff(q: Query, zone: Zone, z: Transition, date: Date, min: int, reach: int)
    requires ValidDate(date) && IsoDay(DayNumber(date)) in q.days && GoodMinute(q, min) && 0 <= min < 1440
    requires Near(zone.off, z, Guess(date, min), reach)
    ensures var g, gap := Guess(date, min), z.after - z.before;
            FitsQuery(q, WallAt(zone.off, ZonedToUtc(zone.off, g))) <==>
            !InGap(z, g) || FitsQuery(q, if g >= z.at then g + gap else g - gap)
  {
    StartShowsIff(zone, z, date, min, reach);
    ShowsIsWall(zone, ZonedToUtc(zone.off, Guess(date, min)), date, min);
    WallOfDay(date, min);
    NamedFits(q, min * MINUTE_MS, min);
  }

  lemma NamedFits(q: Query, x: int, min: int)
    requires GoodMinute(q, min) && x == min * MINUTE_MS
    ensures q.startMin * MINUTE_MS <= x && x + q.duration * MINUTE_MS <= q.endMin * MINUTE_MS
  {
  }

  /** Two candidates are offered as one and the same slot exactly when one is skipped and lands on the other. */
  lemma TwiceOffered(q: Query, zone: Zone, blocks: seq<Block>, now: int, a: Time, b: Time, z: Transition, reach: int)
    requires ValidDate(a.date) && ValidDate(b.date) && Guess(a.date, a.min) < Guess(b.date, b.min)
    requires Near(zone.off, z, Guess(a.date, a.min), reach) && Near(zone.off, z, Guess(b.date, b.min), reach)
    requires SlotAt(q, zone, blocks, now, a.date, a.min).Some? && SlotAt(q, zone, blocks, now, b.date, b.min).Some?
    ensures var g, h := Guess(a.date, a.min), Guess(b.date, b.min);
            SlotAt(q, zone, blocks, now, a.date, a.min) == SlotAt(q, zone, blocks, now, b.date, b.min) <==>
            h - g == z.after - z.before && ((InGap(z, g) && g >= z.at) || (InGap(z, h) && h < z.at))
  {
    CollideIff(zone.off, z, Guess(a.date, a.min), Guess(b.date, b.min), reach);
  }

  /**
   * The days walked are enough: where local dates never go back, whatever fits the window starts
   * on one of them by its own clock, and that is the candidate's day unless the zone skips it.
   */
  lemma NoDayIsMissed(q: Query, zone: Zone, blocks: seq<Block>, now: int, date: Date, min: int, z: Transition,
                      reach: int)
    requires ValidDate(date) && q.duration >= 0 && 0 <= min < 1440
    requires forall s, t {:trigger LocalDate(zone, s), LocalDate(zone, t)} :: s <= t ==>
              DayNumber(LocalDate(zone, s)) <= DayNumber(LocalDate(zone, t))
    requires SlotAt(q, zone, blocks, now, date, min).Some? && Near(zone.off, z, Guess(date, min), reach)
    ensures var s := ZonedToUtc(zone.off, Guess(date, min));
            Key(LocalDate(zone, q.from)) <= Key(LocalDate(zone, s)) <= Key(LocalDate(zone, q.to)) &&
            (!InGap(z, Guess(date, min)) ==> LocalDate(zone, s) == date)
  {
    var s := ZonedToUtc(zone.off, Guess(date, min));
    StartShowsIff(zone, z, date, min, reach);
    assert q.from <= s <= q.to;
    DatesInOrder(zone, q.from, s);
    DatesInOrder(zone, s, q.to);
  }

  lemma DatesInOrder(zone: Zone, s: int, t: int)
    requires DayNumber(LocalDate(zone, s)) <= DayNumber(LocalDate(zone, t))
    ensures Key(LocalDate(zone, s)) <= Key(LocalDate(zone, t))
  {
    KeyOrder(LocalDate(zone, t), LocalDate(zone, s));
  }

  // ---- Order and limit -----------------------------------------------------------------------

  // Free first, then earliest.
  predicate Before(a: Slot, b: Slot) {
    if a.free == b.free then a.start <= b.start else a.free
  }

  lemma BeforeIsPreorder()
    ensures Sorting.TotalPreorder(Before)
  {
  }

  function Offered(q: Query, all: seq<Slot>): seq<Slot> {
    var sorted := Sorting.Sort(Before, all);
    sorted[..if q.limit <= |sorted| then q.limit else |sorted|]
  }

  // A free slot is better than one that may be taken; of two alike the earlier is.
  predicate NoWorse(a: Slot, b: Slot) {
    (b.free ==> a.free) && (a.free == b.free ==> a.start <= b.start)
  }

  lemma PrefixIsBefore(sorted: seq<Slot>, n: nat)
    requires Sorting.SortedBy(Before, sorted) && n <= |sorted|
    ensures Sorting.SortedBy(Before, sorted[..n])
    ensures forall a, b :: a in sorted[..n] && b in sorted[n..] ==> Before(a, b)
  {
    forall a, b | a in sorted[..n] && b in sorted[n..] ensures Before(a, b) {
      var i :| 0 <= i < n && sorted[i] == a;
      var j :| n <= j < |sorted| && sorted[j] == b;
      assert Before(sorted[i], sorted[j]);
    }
  }

  /**
   * What is offered: as many slots as the limit allows, in order, all of them found, and none
   * left out that comes before one offered.
   */
  lemma OfferedIsBest(q: Query, all: seq<Slot>) returns (rest: seq<Slot>)
    ensures |Offered(q, all)| == if q.limit <= |all| then q.limit else |all|
    ensures multiset(Offered(q, all)) + multiset(rest) == multiset(all)
    ensures forall i, j :: 0 <= i < j < |Offered(q, all)| ==> NoWorse(Offered(q, all)[i], Offered(q, all)[j])
    ensures forall a, b :: a in Offered(q, all) && b in rest ==> NoWorse(a, b)
  {
    var sorted := Sorting.Sort(Before, all);
    var n := |Offered(q, all)|;
    BeforeIsPreorder();
    Sorting.SortPermutes(Before, all);
    Sorting.SortSorts(Before, all);
    PrefixIsBefore(sorted, n);
    CutCounts(sorted, n);
    rest := sorted[n..];
    forall i, j | 0 <= i < j < |Offered(q, all)| ensures NoWorse(Offered(q, all)[i], Offered(q, all)[j]) {
      assert Before(Offered(q, all)[i], Offered(q, all)[j]);
    }
  }

  lemma CutCounts(s: seq<Slot>, n: nat)
    requires n <= |s|
    ensures multiset(s[..n]) + multiset(s[n..]) == multiset(s)
  {
    assert s == s[..n] + s[n..];
  }

  // ---- The search -------------------------------------------------------------------------------

  method SlotsOfDay(q: Query, zone: Zone, blocks: seq<Block>, now: int, date: Date) returns (out: seq<Slot>)
    requires ValidDate(date)
    ensures out == OnDay(q, zone, blocks, now, date)
  {
    out := [];
    if IsoDay(DayNumber(date)) in q.days {
      out := SlotsFrom(q, zone, blocks, now, date, FirstMin(q));
    }
  }

  lemma OneTry(q: Query, zone: Zone, blocks: seq<Block>, now: int, date: Date, min: int, out: seq<Slot>)
    requires ValidDate(date) && min + q.duration <= q.endMin
    ensures var slot := SlotAt(q, zone, blocks, now, date, min);
            out + DaySlots(q, zone, blocks, now, date, min) ==
            (if slot.Some? then out + [slot.value] else out) + DaySlots(q, zone, blocks, now, date, min + STEP_MIN)
  {
    var slot := SlotAt(q, zone, blocks, now, date, min);
    Regroup(out, if slot.Some? then [slot.value] else [], DaySlots(q, zone, blocks, now, date, min + STEP_MIN));
  }

  method SlotsFrom(q: Query, zone: Zone, blocks: seq<Block>, now: int, date: Date, first: int) returns (out: seq<Slot>)
    requires ValidDate(date)
    ensures out == DaySlots(q, zone, blocks, now, date, first)
  {
    out := [];
    var min := first;
    while min + q.duration <= q.endMin
      invariant out + DaySlots(q, zone, blocks, now, date, min) == DaySlots(q, zone, blocks, now, date, first)
      decreases q.endMin - q.duration - min
    {
      OneTry(q, zone, blocks, now, date, min, out);
      var slot := SlotAt(q, zone, blocks, now, date, min);
      if slot.Some? {
        out := out + [slot.value];
      }
      min := min + STEP_MIN;
    }
  }

  method SlotsOfRange(q: Query, zone: Zone, blocks: seq<Block>, now: int, first: Date, last: Date)
    returns (out: seq<Slot>)
    requires ValidDate(first) && ValidDate(last)
    ensures out == AllSlots(q, zone, blocks, now, first, last)
  {
    out := [];
    var date := first;
    while Key(date) <= Key(last)
      invariant ValidDate(date)
      invariant out + AllSlots(q, zone, blocks, now, date, last) == AllSlots(q, zone, blocks, now, first, last)
      decreases DayNumber(last) - DayNumber(date)
    {
      DayStep(q, zone, blocks, now, date, last);
      var some := SlotsOfDay(q, zone, blocks, now, date);
      Regroup(out, some, AllSlots(q, zone, blocks, now, NextDay(date), last));
      out := out + some;
      date := NextDay(date);
    }
    assert AllSlots(q, zone, blocks, now, date, last) == [];
  }

  lemma Regroup(a: seq<Slot>, b: seq<Slot>, c: seq<Slot>)
    ensures (a + b) + c == a + (b + c)
  {
  }

  /** The walk over days and minutes, the sort and the cut. */
  method FindSlots(q: Query, zone: Zone, blocks: seq<Block>, now: int) returns (r: seq<Slot>)
    ensures r == Offered(q, AllSlots(q, zone, blocks, now, LocalDate(zone, q.from), LocalDate(zone, q.to)))
  {
    var out := SlotsOfRange(q, zone, blocks, now, LocalDate(zone, q.from), LocalDate(zone, q.to));
    var sorted := Sorting.Sort(Before, out);
    r := sorted[..if q.limit <= |sorted| then q.limit else |sorted|];
  }
}
