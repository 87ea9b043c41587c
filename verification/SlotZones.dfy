/**
 * Free time in particular zones: UTC, where nothing is skipped, and a zone behind UTC on the
 * night its clocks go forward, where a slot starts before the hours asked for.
 */
module SlotZones {
  import opened Wrappers
  import opened CivilDate
  import opened ZonedTime
  import opened Slots
  import Sorting

  // The zone that has this one transition and no other.
  function With(z: Transition): Zone {
    Zone(t => OffsetOf(z, t))
  }

  function Reach(z: Transition): int {
    Max(Max(z.before, -z.before), Max(z.after, -z.after))
  }

  /** Around every wall time it is the zone the transition describes. */
  lemma WithIsNear(z: Transition, g: int)
    ensures Near(With(z).off, z, g, Reach(z))
  {
  }

  /** Clocks that only go forward never show an earlier date. */
  lemma ForwardNeverGoesBack(z: Transition, s: int, t: int)
    requires z.before <= z.after && s <= t
    ensures DayNumber(LocalDate(With(z), s)) <= DayNumber(LocalDate(With(z), t))
  {
    assert WallAt(With(z).off, s) <= WallAt(With(z).off, t);
    DivRises(WallAt(With(z).off, s), WallAt(With(z).off, t));
  }

  lemma DivRises(a: int, b: int)
    requires a <= b
    ensures a / DAY_MS <= b / DAY_MS
  {
  }

  lemma NeverBack(z: Transition)
    requires z.before <= z.after
    ensures forall s, t {:trigger LocalDate(With(z), s), LocalDate(With(z), t)} ::
              s <= t ==> DayNumber(LocalDate(With(z), s)) <= DayNumber(LocalDate(With(z), t))
  {
    forall s, t | s <= t ensures DayNumber(LocalDate(With(z), s)) <= DayNumber(LocalDate(With(z), t)) {
      ForwardNeverGoesBack(z, s, t);
    }
  }

  const UTC := Transition(0, 0, 0)

  /** In UTC every slot offered starts at the time it is named by, on a day that is walked. */
  lemma UtcShowsAll(q: Query, blocks: seq<Block>, now: int, date: Date, min: int)
    requires ValidDate(date) && 0 <= min < 1440 && q.duration >= 0 && SlotAt(q, With(UTC), blocks, now, date, min).Some?
    ensures Shows(With(UTC), SlotAt(q, With(UTC), blocks, now, date, min).value.start, date, min)
    ensures Key(LocalDate(With(UTC), q.from)) <= Key(date) <= Key(LocalDate(With(UTC), q.to))
  {
    WithIsNear(UTC, Guess(date, min));
    NeverBack(UTC);
    StartShowsIff(With(UTC), UTC, date, min, 0);
    NoDayIsMissed(q, With(UTC), blocks, now, date, min, UTC, 0);
  }

  // ---- The night the clocks go forward --------------------------------------------------------

  const HOUR_MS := 3600000

  // Five hours behind UTC, and four from 02:00 on 1 January 1970 on.
  const SPRING := Transition(7 * HOUR_MS, -5 * HOUR_MS, -4 * HOUR_MS)

  // An hour that Thursday between 02:00 and 03:00, searched from midnight to 21:00.
  const NIGHT := Query(5 * HOUR_MS, 25 * HOUR_MS, 60, 120, 180, {4}, 1)

  const EARLY := Slot(6 * HOUR_MS, 7 * HOUR_MS, true, [])

  lemma NightOffset()
    ensures Guess(Epoch(), 120) == 2 * HOUR_MS && InGap(SPRING, 2 * HOUR_MS)
    ensures ZonedToUtc(With(SPRING).off, 2 * HOUR_MS) == 6 * HOUR_MS
    ensures WallAt(With(SPRING).off, 6 * HOUR_MS) == 1 * HOUR_MS
  {
  }

  lemma NightSlots()
    ensures SlotAt(NIGHT, With(SPRING), [], 0, Epoch(), 120) == Some(EARLY)
    ensures OnDay(NIGHT, With(SPRING), [], 0, Epoch()) == [EARLY]
  {
    NightOffset();
    assert Hits([], EARLY.start, EARLY.end) == [];
    assert FirstMin(NIGHT) == 120 && IsoDay(0) == 4;
    assert DaySlots(NIGHT, With(SPRING), [], 0, Epoch(), 150) == [];
  }

  lemma NightDays()
    ensures LocalDate(With(SPRING), NIGHT.from) == Epoch() && LocalDate(With(SPRING), NIGHT.to) == Epoch()
  {
    assert WallAt(With(SPRING).off, NIGHT.from) == 0;
    assert WallAt(With(SPRING).off, NIGHT.to) == 21 * HOUR_MS;
  }

  /**
   * The search offers one slot, and it starts at 01:00: before the two hours asked for, because
   * 02:00 is skipped and read an hour short.
   */
  lemma SlotStartsOutside()
    ensures Offered(NIGHT, AllSlots(NIGHT, With(SPRING), [], 0, LocalDate(With(SPRING), NIGHT.from),
                                    LocalDate(With(SPRING), NIGHT.to))) == [EARLY]
    ensures Shows(With(SPRING), EARLY.start, Epoch(), 60) && 60 < NIGHT.startMin
  {
    NightSlots();
    NightDays();
    var day := Epoch();
    DayStep(NIGHT, With(SPRING), [], 0, day, day);
    KeyFrom(day, day);
    assert AllSlots(NIGHT, With(SPRING), [], 0, NextDay(day), day) == [];
    assert [EARLY] + [] == [EARLY];
    SortOne(EARLY);
    NightOffset();
    ShowsIsWall(With(SPRING), EARLY.start, day, 60);
  }

  lemma SortOne(x: Slot)
    ensures Sorting.Sort(Before, [x]) == [x]
  {
    assert [x][..0] == [];
    assert Sorting.Sort(Before, []) == [];
  }

  /** That candidate meets what StartShowsIff and NoDayIsMissed ask, and the first is right about it. */
  lemma NightIsCovered()
    ensures !Shows(With(SPRING), EARLY.start, Epoch(), 120)
    ensures Key(LocalDate(With(SPRING), NIGHT.from)) <= Key(LocalDate(With(SPRING), EARLY.start))
  {
    NightSlots();
    NightOffset();
    WithIsNear(SPRING, Guess(Epoch(), 120));
    NeverBack(SPRING);
    StartShowsIff(With(SPRING), SPRING, Epoch(), 120, Reach(SPRING));
    NoDayIsMissed(NIGHT, With(SPRING), [], 0, Epoch(), 120, SPRING, Reach(SPRING));
  }

  // ---- One slot offered twice --------------------------------------------------------------------

  // The same night from 01:00 on, the two best.
  const EARLIER := NIGHT.(startMin := 60, limit := 2)

  const HALF_PAST := Slot(13 * HOUR_MS / 2, 15 * HOUR_MS / 2, true, [])

  lemma EarlierOffsets()
    ensures ZonedToUtc(With(SPRING).off, 1 * HOUR_MS) == 6 * HOUR_MS
    ensures ZonedToUtc(With(SPRING).off, 3 * HOUR_MS / 2) == 13 * HOUR_MS / 2
  {
  }

  lemma EarlierTries()
    ensures SlotAt(EARLIER, With(SPRING), [], 0, Epoch(), 60) == Some(EARLY)
    ensures SlotAt(EARLIER, With(SPRING), [], 0, Epoch(), 90) == Some(HALF_PAST)
    ensures SlotAt(EARLIER, With(SPRING), [], 0, Epoch(), 120) == Some(EARLY)
  {
    NightOffset();
    EarlierOffsets();
    assert Hits([], EARLY.start, EARLY.end) == [] == Hits([], HALF_PAST.start, HALF_PAST.end);
  }

  lemma EarlierSlots()
    ensures OnDay(EARLIER, With(SPRING), [], 0, Epoch()) == [EARLY, HALF_PAST, EARLY]
  {
    var q, zone, day := EARLIER, With(SPRING), Epoch();
    EarlierTries();
    assert FirstMin(q) == 60 && IsoDay(0) == 4;
    assert DaySlots(q, zone, [], 0, day, 150) == [];
    assert DaySlots(q, zone, [], 0, day, 120) == [EARLY];
    assert DaySlots(q, zone, [], 0, day, 90) == [HALF_PAST, EARLY];
  }

  lemma SortThree(x: Slot, y: Slot)
    requires Before(x, y) && !Before(y, x) && Before(x, x)
    ensures Sorting.Sort(Before, [x, y, x]) == [x, x, y]
  {
    SortOne(x);
    assert [x, y][..1] == [x];
    assert Sorting.Sort(Before, [x, y]) == Sorting.Insert(Before, [x], y) == [x, y];
    assert [x, y, x][..2] == [x, y];
    assert [x, y][..1] == [x] && Sorting.Insert(Before, [x], x) == [x, x];
    assert Sorting.Insert(Before, [x, y], x) == [x, x] + [y];
  }

  /** Asked for its two best, the search offers one slot twice: as 01:00 and as the skipped 02:00. */
  lemma SlotOfferedTwice()
    ensures var zone := With(SPRING);
            var all := AllSlots(EARLIER, zone, [], 0, LocalDate(zone, EARLIER.from), LocalDate(zone, EARLIER.to));
            Offered(EARLIER, all) == [EARLY, EARLY]
  {
    var zone, day := With(SPRING), Epoch();
    NightDays();
    EarlierSlots();
    DayStep(EARLIER, zone, [], 0, day, day);
    KeyFrom(day, day);
    assert AllSlots(EARLIER, zone, [], 0, NextDay(day), day) == [];
    assert [EARLY, HALF_PAST, EARLY] + [] == [EARLY, HALF_PAST, EARLY];
    SortThree(EARLY, HALF_PAST);
  }

  // ---- A Sunday --------------------------------------------------------------------------------

  // Sunday 4 January 1970 in UTC: an hour between 09:00 and 17:00, the three best.
  const SUNDAY := Query(3 * DAY_MS, 4 * DAY_MS - 1, 60, 540, 1020, {7}, 3)

  function HourFrom(min: int): Slot {
    Slot(3 * DAY_MS + min * MINUTE_MS, 3 * DAY_MS + (min + 60) * MINUTE_MS, true, [])
  }

  lemma SundayIs()
    ensures DateOf(3) == Date(1970, 1, 4) && IsoDay(3) == 7
    ensures LocalDate(With(UTC), SUNDAY.from) == LocalDate(With(UTC), SUNDAY.to) == DateOf(3)
  {
    assert DateOf(1) == Date(1970, 1, 2);
    assert DateOf(2) == Date(1970, 1, 3);
    assert WallAt(With(UTC).off, SUNDAY.from) == 3 * DAY_MS;
    assert WallAt(With(UTC).off, SUNDAY.to) == 4 * DAY_MS - 1;
  }

  lemma SundayTry(min: int)
    requires 0 <= min <= 960
    ensures SlotAt(SUNDAY, With(UTC), [], 0, DateOf(3), min) == Some(HourFrom(min))
  {
    assert Guess(DateOf(3), min) == 3 * DAY_MS + min * MINUTE_MS;
    assert Hits([], HourFrom(min).start, HourFrom(min).end) == [];
  }

  // The half hours from `min` on, in their order.
  lemma {:induction false} SundaySlots(min: int)
    requires 540 <= min <= 990 && min % 30 == 0
    ensures var day := DaySlots(SUNDAY, With(UTC), [], 0, DateOf(3), min);
            |day| == (990 - min) / 30 && forall k :: 0 <= k < |day| ==> day[k] == HourFrom(min + 30 * k)
    decreases 990 - min
  {
    if min < 990 {
      SundayTry(min);
      SundaySlots(min + 30);
      var rest := DaySlots(SUNDAY, With(UTC), [], 0, DateOf(3), min + 30);
      var day := DaySlots(SUNDAY, With(UTC), [], 0, DateOf(3), min);
      assert day == [HourFrom(min)] + rest;
      forall k | 0 <= k < |day| ensures day[k] == HourFrom(min + 30 * k) {
        if k > 0 {
          assert day[k] == rest[k - 1] == HourFrom(min + 30 + 30 * (k - 1));
        }
      }
    }
  }

  lemma SundayAll()
    ensures var all := AllSlots(SUNDAY, With(UTC), [], 0, DateOf(3), DateOf(3));
            |all| == 15 && forall k :: 0 <= k < 15 ==> all[k] == HourFrom(540 + 30 * k)
  {
    var day := DateOf(3);
    SundayIs();
    SundaySlots(540);
    DayStep(SUNDAY, With(UTC), [], 0, day, day);
    KeyFrom(day, day);
    assert FirstMin(SUNDAY) == 540;
    assert AllSlots(SUNDAY, With(UTC), [], 0, NextDay(day), day) == [];
    assert OnDay(SUNDAY, With(UTC), [], 0, day) + [] == OnDay(SUNDAY, With(UTC), [], 0, day);
  }

  lemma {:induction false} SortedStays(s: seq<Slot>)
    requires Sorting.SortedBy(Before, s)
    ensures Sorting.Sort(Before, s) == s
    decreases |s|
  {
    if |s| > 0 {
      var init, last := s[..|s| - 1], s[|s| - 1];
      SortedStays(init);
      assert |init| > 0 ==> Before(init[|init| - 1], last);
      assert s == init + [last];
    }
  }

  /** The three best on a Sunday are at 09:00, 09:30 and 10:00. */
  lemma SundayIsSearched()
    ensures Offered(SUNDAY, AllSlots(SUNDAY, With(UTC), [], 0, LocalDate(With(UTC), SUNDAY.from),
                                     LocalDate(With(UTC), SUNDAY.to))) ==
            [HourFrom(540), HourFrom(570), HourFrom(600)]
  {
    SundayIs();
    SundayAll();
    var all := AllSlots(SUNDAY, With(UTC), [], 0, DateOf(3), DateOf(3));
    assert Sorting.SortedBy(Before, all);
    SortedStays(all);
    assert all[..3] == [HourFrom(540), HourFrom(570), HourFrom(600)];
  }
}
