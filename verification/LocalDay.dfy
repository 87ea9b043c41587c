/**
 * The first instant of a local date, found by an hour scan and a minute back-scan.
 */
module LocalDay {
  import opened ZonedTime

  const MIN := 60000
  const HOUR := 60 * MIN
  const DAY := 24 * HOUR

  // The local date at an instant, as a day number.
  function DateAt(off: Offset, t: int): int {
    WallAt(off, t) / DAY
  }

  /** No zone is more than 14 h ahead of UTC or 12 h behind. */
  ghost predicate Bounded(off: Offset) {
    forall t {:trigger off(t)} :: -12 * HOUR <= off(t) <= 14 * HOUR
  }

  /** Local dates never go back. */
  ghost predicate Steady(off: Offset) {
    forall s, t {:trigger DateAt(off, s), DateAt(off, t)} :: s <= t ==> DateAt(off, s) <= DateAt(off, t)
  }

  /** Local dates change on whole minutes. */
  ghost predicate WholeMinutes(off: Offset) {
    forall t {:trigger Minute(t)} :: DateAt(off, t) == DateAt(off, Minute(t))
  }

  function Minute(t: int): int {
    t / MIN * MIN
  }

  lemma ScanBounds(off: Offset, want: int)
    requires Bounded(off)
    ensures DateAt(off, want * DAY - 15 * HOUR) < want && DateAt(off, want * DAY + 39 * HOUR) > want
  {
    var lo, hi := want * DAY - 15 * HOUR, want * DAY + 39 * HOUR;
    assert off(lo) <= 14 * HOUR && off(hi) >= -12 * HOUR;
    assert WallAt(off, lo) < want * DAY && WallAt(off, hi) >= (want + 1) * DAY;
    DayBelow(WallAt(off, lo), want);
    DayFrom(WallAt(off, hi), want + 1);
  }

  lemma DayBelow(x: int, n: int)
    requires x < n * DAY
    ensures x / DAY < n
  {
  }

  lemma DayFrom(x: int, n: int)
    requires x >= n * DAY
    ensures x / DAY >= n
  {
  }

  /** A whole minute with a local date at or after the one wanted, the minute before it earlier. */
  method LocalDayStart(off: Offset, want: int) returns (t: int)
    requires Bounded(off)
    ensures IsDayStart(off, want, t)
  {
    ScanBounds(off, want);
    t := want * DAY - 15 * HOUR;
    var stop := t + 54 * HOUR;
    ghost var hours := 0;
    while t < stop && DateAt(off, t) < want
      invariant 0 <= hours <= 54 && t == stop - (54 - hours) * HOUR
      invariant hours == 0 || DateAt(off, t - HOUR) < want
      decreases 54 - hours
    {
      t := t + HOUR;
      hours := hours + 1;
    }
    t := BackScan(off, want, t);
  }

  method BackScan(off: Offset, want: int, first: int) returns (t: int)
    requires first % MIN == 0 && DateAt(off, first) >= want && DateAt(off, first - HOUR) < want
    ensures IsDayStart(off, want, t)
  {
    t := first;
    var i := 0;
    while i < 60 && DateAt(off, t - MIN) >= want
      invariant 0 <= i <= 60 && t == first - i * MIN
      invariant DateAt(off, t) >= want
    {
      t := t - MIN;
      i := i + 1;
    }
    assert i == 60 ==> t == first - HOUR;
  }

  // The same point, as a condition.
  predicate IsDayStart(off: Offset, want: int, t: int) {
    t % MIN == 0 && DateAt(off, t) >= want && DateAt(off, t - MIN) < want
  }

  /** The local date has been reached exactly from that instant on. */
  lemma DayStartDivides(off: Offset, want: int, start: int, t: int)
    requires Steady(off) && WholeMinutes(off) && IsDayStart(off, want, start)
    ensures t >= start <==> DateAt(off, t) >= want
  {
    if t < start {
      assert Minute(t) <= start - MIN;
      assert DateAt(off, Minute(t)) <= DateAt(off, start - MIN);
    } else {
      assert DateAt(off, start) <= DateAt(off, t);
    }
  }

  /** An all-day span from one date's start to another's holds exactly the instants of the dates between. */
  lemma AllDaySpan(off: Offset, first: int, end: int, from: int, to: int, t: int)
    requires Steady(off) && WholeMinutes(off) && IsDayStart(off, first, from) && IsDayStart(off, end, to)
    ensures from <= t < to <==> first <= DateAt(off, t) < end
  {
    DayStartDivides(off, first, from, t);
    DayStartDivides(off, end, to, t);
  }

  /** A date the zone skips starts where the next one does. */
  lemma SkippedDate(off: Offset, want: int, a: int, b: int)
    requires Steady(off) && WholeMinutes(off) && (forall t :: DateAt(off, t) != want)
    requires IsDayStart(off, want, a) && IsDayStart(off, want + 1, b)
    ensures a == b
  {
    DayStartDivides(off, want, a, b);
    DayStartDivides(off, want + 1, b, a);
  }

  /** Zones like that: clocks that only go forward, on a whole minute and by whole minutes. */
  lemma ForwardZones(z: Transition)
    requires -12 * HOUR <= z.before <= z.after <= 14 * HOUR
    requires z.at % MIN == 0 && z.before % MIN == 0 && z.after % MIN == 0
    ensures var off := (t: int) => OffsetOf(z, t); Bounded(off) && Steady(off) && WholeMinutes(off)
  {
    var off := (t: int) => OffsetOf(z, t);
    forall s, t | s <= t ensures DateAt(off, s) <= DateAt(off, t) {
      DivRises(WallAt(off, s), WallAt(off, t));
    }
    forall t ensures DateAt(off, t) == DateAt(off, Minute(t)) {
      SameSide(z, t);
      MinuteOfDay(t, OffsetOf(z, t));
    }
  }

  lemma DivRises(a: int, b: int)
    requires a <= b
    ensures a / DAY <= b / DAY
  {
  }

  lemma SameSide(z: Transition, t: int)
    requires z.at % MIN == 0
    ensures OffsetOf(z, t) == OffsetOf(z, Minute(t))
  {
  }

  lemma MinuteOfDay(t: int, offset: int)
    requires offset % MIN == 0
    ensures (t + offset) / DAY == (Minute(t) + offset) / DAY
  {
    var x := t + offset;
    assert Minute(x) == Minute(t) + offset;
    assert x / DAY == Minute(x) / DAY;
  }
}
