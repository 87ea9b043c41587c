/**
 * Wall-clock times and instants. A zone is its offset function; around the wall time at hand
 * it has at most one transition.
 */
module ZonedTime {

  // Local minus UTC, in milliseconds, at an instant.
  type Offset = int -> int

  // `before` until the instant `at`, `after` from it on.
  datatype Transition = Transition(at: int, before: int, after: int)

  function OffsetOf(z: Transition, t: int): int {
    if t < z.at then z.before else z.after
  }

  /** All offsets are within `reach`, and within reach of g the zone is just z. */
  ghost predicate Near(off: Offset, z: Transition, g: int, reach: int) {
    && (forall t {:trigger off(t)} :: -reach <= off(t) <= reach)
    && (forall t {:trigger off(t)} :: g - reach <= t <= g + reach ==> off(t) == OffsetOf(z, t))
    && (forall t {:trigger OffsetOf(z, t)} :: -reach <= OffsetOf(z, t) <= reach)
  }

  function WallAt(off: Offset, t: int): int {
    t + off(t)
  }

  // The instant of wall time g: two looks at the zone.
  function ZonedToUtc(off: Offset, g: int): int {
    var first := g - off(g);
    g - off(first)
  }

  /** Wall time g is skipped by the transition. */
  predicate InGap(z: Transition, g: int) {
    z.at + z.before <= g < z.at + z.after
  }

  /** Wall time g comes twice. */
  predicate InOverlap(z: Transition, g: int) {
    z.at + z.after <= g < z.at + z.before
  }

  lemma Looks(off: Offset, z: Transition, g: int, reach: int)
    requires Near(off, z, g, reach)
    ensures off(g) == OffsetOf(z, g)
    ensures off(g - off(g)) == OffsetOf(z, g - off(g))
    ensures off(ZonedToUtc(off, g)) == OffsetOf(z, ZonedToUtc(off, g))
    ensures z.before == OffsetOf(z, z.at - 1) && z.after == OffsetOf(z, z.at)
    ensures -reach <= z.before <= reach && -reach <= z.after <= reach
  {
    assert -reach <= off(g) <= reach;
    assert -reach <= off(g - off(g)) <= reach;
  }

  /** A wall time has an instant exactly when the transition does not skip it. */
  lemma ShownIff(off: Offset, z: Transition, g: int, reach: int)
    requires Near(off, z, g, reach)
    ensures (exists t :: WallAt(off, t) == g) <==> !InGap(z, g)
  {
    Looks(off, z, g, reach);
    if t :| WallAt(off, t) == g {
      assert -reach <= off(t) <= reach;
      assert off(t) == OffsetOf(z, t);
    }
    if g < z.at + z.before {
      assert off(g - z.before) == OffsetOf(z, g - z.before);
      assert WallAt(off, g - z.before) == g;
    }
    if g >= z.at + z.after {
      assert off(g - z.after) == OffsetOf(z, g - z.after);
      assert WallAt(off, g - z.after) == g;
    }
  }

  /** zonedToUtc shows the wall time whenever some instant does. */
  lemma ZonedShows(off: Offset, z: Transition, g: int, reach: int)
    requires Near(off, z, g, reach)
    ensures WallAt(off, ZonedToUtc(off, g)) == g <==> exists t :: WallAt(off, t) == g
  {
    Looks(off, z, g, reach);
    ShownIff(off, z, g, reach);
  }

  /**
   * In a gap it misses by exactly the size of the gap: past it when the transition is at or
   * before g read as UTC (zones ahead of UTC), short of it otherwise (zones behind).
   */
  lemma GapMisses(off: Offset, z: Transition, g: int, reach: int)
    requires Near(off, z, g, reach) && InGap(z, g)
    ensures WallAt(off, ZonedToUtc(off, g)) == if g >= z.at then g + (z.after - z.before) else g - (z.after - z.before)
    ensures ZonedToUtc(off, g) >= z.at <==> g >= z.at
  {
    Looks(off, z, g, reach);
  }

  /** Of the two instants of a repeated wall time it takes the first exactly when g < at. */
  lemma OverlapChoice(off: Offset, z: Transition, g: int, reach: int)
    requires Near(off, z, g, reach) && InOverlap(z, g)
    ensures WallAt(off, g - z.before) == g && WallAt(off, g - z.after) == g
    ensures ZonedToUtc(off, g) == if g < z.at then g - z.before else g - z.after
  {
    Looks(off, z, g, reach);
    assert off(g - z.before) == OffsetOf(z, g - z.before);
    assert off(g - z.after) == OffsetOf(z, g - z.after);
  }

  /** Two wall times get one instant exactly when one is skipped and lands on the other. */
  lemma CollideIff(off: Offset, z: Transition, g: int, h: int, reach: int)
    requires Near(off, z, g, reach) && Near(off, z, h, reach) && g < h
    ensures ZonedToUtc(off, g) == ZonedToUtc(off, h) <==>
            h - g == z.after - z.before &&
            ((InGap(z, g) && g >= z.at) || (InGap(z, h) && h < z.at))
  {
    Looks(off, z, g, reach);
    Looks(off, z, h, reach);
  }

  /** A skipped wall time can land before the gap, against the comment beside zonedToUtc. */
  lemma GapCanLandBefore()
    ensures exists off: Offset, z, g, reach ::
              Near(off, z, g, reach) && InGap(z, g) && ZonedToUtc(off, g) < z.at
  {
    var z := Transition(0, -300, -240);
    var off := t => OffsetOf(z, t);
    assert Near(off, z, -270, 300);
    GapMisses(off, z, -270, 300);
  }
}
