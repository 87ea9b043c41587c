/**
 * Day-view lanes: overlapping items sit side by side, and a cluster of overlapping
 * items shares its width over exactly as many lanes as it needs.
 */
module Lanes {
  import opened Wrappers
  import opened Sorting

  datatype Item = Item(start: int, end: int, tag: int)

  datatype Lane = Lane(item: Item, lane: nat, lanes: nat)

  // An item lasts at least one instant.
  function End(x: Item): int {
    if x.end < x.start + 1 then x.start + 1 else x.end
  }

  predicate Active(x: Item, t: int) {
    x.start <= t < End(x)
  }

  predicate Overlap(a: Item, b: Item) {
    a.start < End(b) && b.start < End(a)
  }

  /** An item is active from its start until its end, and at its start even when it ends no later. */
  lemma ActiveIff(x: Item, t: int)
    ensures Active(x, t) <==> t == x.start || x.start <= t < x.end
  {
  }

  /** Two items overlap exactly when both are active at some instant; one ending as another starts does not. */
  lemma OverlapIff(a: Item, b: Item)
    ensures Overlap(a, b) <==> exists t :: Active(a, t) && Active(b, t)
    ensures a.start < a.end <= b.start ==> !Overlap(a, b)
  {
    if Overlap(a, b) {
      var t := if a.start < b.start then b.start else a.start;
      assert Active(a, t) && Active(b, t);
    }
  }

  predicate StartsNoLater(a: Item, b: Item) {
    a.start <= b.start
  }

  function ByStart(items: seq<Item>): seq<Item> {
    Sort(StartsNoLater, items)
  }

  ghost predicate InOrder(s: seq<Item>) {
    forall i, j {:trigger s[i], s[j]} :: 0 <= i <= j < |s| ==> s[i].start <= s[j].start
  }

  lemma ByStartInOrder(items: seq<Item>)
    ensures InOrder(ByStart(items)) && multiset(ByStart(items)) == multiset(items)
  {
    SortPermutes(StartsNoLater, items);
    SortSorts(StartsNoLater, items);
    var s := ByStart(items);
    forall i, j | 0 <= i < j < |s| ensures s[i].start <= s[j].start {
      assert StartsNoLater(s[i], s[j]);
    }
  }

  /** Items that start together are laid out in their given order. */
  lemma TiesKeepOrder(items: seq<Item>, x: Item)
    ensures Ties(StartsNoLater, x, ByStart(items)) == Ties(StartsNoLater, x, items)
  {
    SortStable(StartsNoLater, x, items);
  }

  // ---- Clusters --------------------------------------------------------------------

  /** Nothing before k lasts beyond its start: k opens a new cluster. */
  ghost predicate Break(s: seq<Item>, k: nat)
    requires k < |s|
  {
    forall i :: 0 <= i < k ==> End(s[i]) <= s[k].start
  }

  ghost predicate SameCluster(s: seq<Item>, i: nat, j: nat)
    requires i < |s| && j < |s|
  {
    forall k {:trigger Break(s, k)} :: (i < k <= j || j < k <= i) ==> !Break(s, k)
  }

  lemma OverlapSameCluster(s: seq<Item>, i: nat, j: nat)
    requires InOrder(s) && i <= j < |s| && Overlap(s[i], s[j])
    ensures SameCluster(s, i, j)
  {
    forall k | i < k <= j ensures !Break(s, k) {
      assert s[k].start <= s[j].start < End(s[i]);
    }
  }

  /** Items are in one cluster exactly when each one past the first overlaps an earlier one. */
  lemma SameClusterIff(s: seq<Item>, i: nat, j: nat)
    requires InOrder(s) && i <= j < |s|
    ensures SameCluster(s, i, j) <==> forall k :: i < k <= j ==> OverlapsEarlier(s, k)
  {
    forall k | i < k <= j ensures Break(s, k) <==> !OverlapsEarlier(s, k) {
      if !Break(s, k) {
        var h :| 0 <= h < k && End(s[h]) > s[k].start;
        assert Overlap(s[h], s[k]);
      }
    }
  }

  ghost predicate OverlapsEarlier(s: seq<Item>, k: nat)
    requires k < |s|
  {
    exists h :: 0 <= h < k && Overlap(s[h], s[k])
  }

  // ---- What a layout promises --------------------------------------------------------

  /** `peak` names one active item per lane of i's cluster, all active at the instant t. */
  ghost predicate Peak(s: seq<Item>, out: seq<Lane>, i: nat, peak: seq<nat>, t: int)
    requires |out| <= |s| && i < |out|
  {
    && |peak| == out[i].lanes
    && forall l {:trigger peak[l]} :: 0 <= l < |peak| ==>
         peak[l] < |out| && out[peak[l]].lane == l && Active(s[peak[l]], t) && SameCluster(s, i, peak[l])
  }

  /** Every lane left of k's is taken at k's start: k took the first free one. */
  ghost predicate FirstFreeLane(s: seq<Item>, out: seq<Lane>, k: nat)
    requires |out| <= |s| && k < |out|
  {
    forall l {:trigger Taken(s, out, k, l)} :: 0 <= l < out[k].lane ==> Taken(s, out, k, l)
  }

  ghost predicate Taken(s: seq<Item>, out: seq<Lane>, k: nat, l: nat)
    requires |out| <= |s| && k < |out|
  {
    exists j :: 0 <= j < k && out[j].lane == l && Overlap(s[j], s[k])
  }

  ghost predicate Laid(s: seq<Item>, out: seq<Lane>, n: nat)
    requires n <= |out| <= |s|
  {
    && (forall k {:trigger out[k]} :: 0 <= k < n ==> out[k].item == s[k] && out[k].lane < out[k].lanes)
    && (forall i, j {:trigger Overlap(s[i], s[j])} :: 0 <= i < j < n && Overlap(s[i], s[j]) ==>
        out[i].lane != out[j].lane)
    && (forall i, j {:trigger SameCluster(s, i, j)} :: 0 <= i < j < n && SameCluster(s, i, j) ==>
        out[i].lanes == out[j].lanes)
    && (forall i {:trigger HasPeak(s, out, i)} :: 0 <= i < n ==> HasPeak(s, out, i))
    && (forall k {:trigger FirstFreeLane(s, out, k)} :: 0 <= k < n ==> FirstFreeLane(s, out, k))
  }

  ghost predicate HasPeak(s: seq<Item>, out: seq<Lane>, i: nat)
    requires |out| <= |s| && i < |out|
  {
    exists peak, t :: Peak(s, out, i, peak, t)
  }

  // ---- The cluster being laid out ------------------------------------------------------

  ghost predicate Growing(s: seq<Item>, out: seq<Lane>, first: nat, laneEnds: seq<int>, tops: seq<nat>, peak: seq<nat>,
                          t: int)
    requires |out| <= |s|
  {
    && first <= |out|
    && Placed(s, out, first, laneEnds)
    && AllFirstFree(s, out, first)
    && LanesApart(s, out, first)
    && TopsOk(s, out, first, laneEnds, tops)
    && |peak| == |laneEnds| && PeakOk(s, out, first, peak, t)
  }

  ghost predicate Placed(s: seq<Item>, out: seq<Lane>, first: nat, laneEnds: seq<int>)
    requires |out| <= |s|
  {
    forall k {:trigger out[k]} :: first <= k < |out| ==>
      out[k].item == s[k] && out[k].lane < |laneEnds| && End(s[k]) <= laneEnds[out[k].lane]
  }

  ghost predicate LanesApart(s: seq<Item>, out: seq<Lane>, first: nat)
    requires |out| <= |s|
  {
    forall i, j {:trigger out[i], out[j]} :: first <= i < j < |out| && out[i].lane == out[j].lane ==>
        End(s[i]) <= s[j].start
  }

  // The last item of each lane.
  ghost predicate TopsOk(s: seq<Item>, out: seq<Lane>, first: nat, laneEnds: seq<int>, tops: seq<nat>)
    requires |out| <= |s|
  {
    |tops| == |laneEnds| &&
    forall l {:trigger tops[l]} :: 0 <= l < |tops| ==>
      first <= tops[l] < |out| && out[tops[l]].lane == l && End(s[tops[l]]) == laneEnds[l]
  }

  // One item of each lane, all active at t.
  ghost predicate PeakOk(s: seq<Item>, out: seq<Lane>, first: nat, peak: seq<nat>, t: int)
    requires |out| <= |s|
  {
    forall l {:trigger peak[l]} :: 0 <= l < |peak| ==>
      first <= peak[l] < |out| && out[peak[l]].lane == l && Active(s[peak[l]], t)
  }

  ghost predicate AllFirstFree(s: seq<Item>, out: seq<Lane>, first: nat)
    requires |out| <= |s|
  {
    forall k {:trigger FirstFreeLane(s, out, k)} :: first <= k < |out| ==> FirstFreeLane(s, out, k)
  }

  ghost predicate OneCluster(s: seq<Item>, first: nat, n: nat)
    requires n <= |s|
  {
    && (first < n ==> Break(s, first))
    && forall k {:trigger Break(s, k)} :: first < k < n ==> !Break(s, k)
  }

  /** clusterEnd is the latest end so far. */
  ghost predicate LatestEnd(s: seq<Item>, n: nat, clusterEnd: Option<int>)
    requires n <= |s|
  {
    match clusterEnd
    case None => n == 0
    case Some(e) => (forall k :: 0 <= k < n ==> End(s[k]) <= e) && exists k :: 0 <= k < n && End(s[k]) == e
  }

  method FirstFree(laneEnds: seq<int>, start: int) returns (lane: nat)
    ensures lane <= |laneEnds|
    ensures forall l :: 0 <= l < lane ==> laneEnds[l] > start
    ensures lane < |laneEnds| ==> laneEnds[lane] <= start
  {
    lane := 0;
    while lane < |laneEnds| && laneEnds[lane] > start
      invariant lane <= |laneEnds|
      invariant forall l :: 0 <= l < lane ==> laneEnds[l] > start
    {
      lane := lane + 1;
    }
  }

  method Close(out: seq<Lane>, first: nat, lanes: nat) returns (r: seq<Lane>)
    requires first <= |out|
    ensures |r| == |out|
    ensures forall k {:trigger r[k]} :: 0 <= k < |r| ==> r[k] == if k < first then out[k] else out[k].(lanes := lanes)
  {
    r := out;
    for k := first to |out|
      invariant |r| == |out|
      invariant forall j {:trigger r[j]} :: 0 <= j < |r| ==>
                r[j] == if first <= j < k then out[j].(lanes := lanes) else out[j]
    {
      r := r[k := r[k].(lanes := lanes)];
    }
  }

  lemma SameLanesTaken(s: seq<Item>, out: seq<Lane>, r: seq<Lane>, k: nat)
    requires |out| <= |r| <= |s| && k < |out| && FirstFreeLane(s, out, k)
    requires forall j {:trigger r[j]} :: 0 <= j <= k ==> r[j].lane == out[j].lane
    ensures FirstFreeLane(s, r, k)
  {
    forall l | 0 <= l < r[k].lane ensures Taken(s, r, k, l) {
      assert Taken(s, out, k, l);
      var j :| 0 <= j < k && out[j].lane == l && Overlap(s[j], s[k]);
      assert r[j].lane == l;
    }
  }

  lemma ClosedIsLaid(s: seq<Item>, out: seq<Lane>, first: nat, laneEnds: seq<int>, tops: seq<nat>, peak: seq<nat>,
                     t: int, r: seq<Lane>)
    requires InOrder(s) && |out| <= |s|
    requires Growing(s, out, first, laneEnds, tops, peak, t) && OneCluster(s, first, |out|)
    requires Laid(s, out, first)
    requires |r| == |out|
    requires forall k {:trigger r[k]} :: 0 <= k < |r| ==>
              r[k] == if k < first then out[k] else out[k].(lanes := |laneEnds|)
    ensures Laid(s, r, |r|)
  {
    forall i, j | 0 <= i < j < |r| && Overlap(s[i], s[j]) ensures r[i].lane != r[j].lane {
      OverlapSameCluster(s, i, j);
      assert first < |out| ==> Break(s, first);
    }
    forall i, j | 0 <= i < j < |r| && SameCluster(s, i, j) ensures r[i].lanes == r[j].lanes {
      assert first < |out| ==> Break(s, first);
    }
    forall i | 0 <= i < |r| ensures HasPeak(s, r, i) {
      if i < first {
        assert HasPeak(s, out, i);
        var p, u :| Peak(s, out, i, p, u);
        assert Peak(s, r, i, p, u);
      } else {
        forall l | 0 <= l < |peak| ensures SameCluster(s, i, peak[l]) {
        }
        assert Peak(s, r, i, peak, t);
      }
    }
    forall k | 0 <= k < |r| ensures FirstFreeLane(s, r, k) {
      assert FirstFreeLane(s, out, k);
      SameLanesTaken(s, out, r, k);
    }
  }

  // An item on the first lane free at its start, or on a new one.
  ghost predicate Fits(s: seq<Item>, n: nat, laneEnds: seq<int>, lane: nat, ends: seq<int>)
    requires n < |s|
  {
    && lane <= |laneEnds|
    && (forall l :: 0 <= l < lane ==> laneEnds[l] > s[n].start)
    && (lane < |laneEnds| ==> laneEnds[lane] <= s[n].start)
    && ends == if lane < |laneEnds| then laneEnds[lane := End(s[n])] else laneEnds + [End(s[n])]
  }

  lemma PlacedGrows(s: seq<Item>, out: seq<Lane>, first: nat, laneEnds: seq<int>, lane: nat, ends: seq<int>)
    requires |out| < |s| && Placed(s, out, first, laneEnds) && Fits(s, |out|, laneEnds, lane, ends)
    ensures Placed(s, out + [Lane(s[|out|], lane, 1)], first, ends)
  {
  }

  lemma ApartGrows(s: seq<Item>, out: seq<Lane>, first: nat, laneEnds: seq<int>, lane: nat, ends: seq<int>)
    requires |out| < |s| && Placed(s, out, first, laneEnds) && LanesApart(s, out, first)
    requires Fits(s, |out|, laneEnds, lane, ends)
    ensures LanesApart(s, out + [Lane(s[|out|], lane, 1)], first)
  {
  }

  lemma TopsGrow(s: seq<Item>, out: seq<Lane>, first: nat, laneEnds: seq<int>, tops: seq<nat>, lane: nat,
                 ends: seq<int>)
    requires first <= |out| < |s| && TopsOk(s, out, first, laneEnds, tops) && Fits(s, |out|, laneEnds, lane, ends)
    ensures TopsOk(s, out + [Lane(s[|out|], lane, 1)], first, ends,
                   if lane < |laneEnds| then tops[lane := |out|] else tops + [|out|])
  {
  }

  // A new lane is opened only when every other is taken: by its last item, active at this start.
  lemma NewPeak(s: seq<Item>, out: seq<Lane>, first: nat, laneEnds: seq<int>, tops: seq<nat>, lane: nat, ends: seq<int>)
    requires InOrder(s) && first <= |out| < |s| && TopsOk(s, out, first, laneEnds, tops)
    requires Fits(s, |out|, laneEnds, lane, ends) && lane == |laneEnds|
    ensures PeakOk(s, out + [Lane(s[|out|], lane, 1)], first, tops + [|out|], s[|out|].start)
  {
  }

  lemma GrowKeeps(s: seq<Item>, out: seq<Lane>, first: nat, laneEnds: seq<int>, tops: seq<nat>, peak: seq<nat>, t: int,
                  lane: nat, ends: seq<int>)
    returns (tops': seq<nat>, peak': seq<nat>, t': int)
    requires InOrder(s) && |out| < |s| && Growing(s, out, first, laneEnds, tops, peak, t)
    requires Fits(s, |out|, laneEnds, lane, ends)
    ensures Growing(s, out + [Lane(s[|out|], lane, 1)], first, ends, tops', peak', t')
  {
    var n := |out|;
    if lane < |laneEnds| {
      tops', peak', t' := tops[lane := n], peak, t;
    } else {
      tops' := tops + [n];
      peak', t' := tops', s[n].start;
      NewPeak(s, out, first, laneEnds, tops, lane, ends);
    }
    PlacedGrows(s, out, first, laneEnds, lane, ends);
    ApartGrows(s, out, first, laneEnds, lane, ends);
    TopsGrow(s, out, first, laneEnds, tops, lane, ends);
    FirstFreeGrows(s, out, first, laneEnds, tops, lane);
  }

  lemma FirstFreeGrows(s: seq<Item>, out: seq<Lane>, first: nat, laneEnds: seq<int>, tops: seq<nat>, lane: nat)
    requires InOrder(s) && first <= |out| < |s| && AllFirstFree(s, out, first) && TopsOk(s, out, first, laneEnds, tops)
    requires lane <= |laneEnds| && forall l :: 0 <= l < lane ==> laneEnds[l] > s[|out|].start
    ensures AllFirstFree(s, out + [Lane(s[|out|], lane, 1)], first)
  {
    var n := |out|;
    var more := out + [Lane(s[n], lane, 1)];
    forall k | first <= k < |more| ensures FirstFreeLane(s, more, k) {
      if k < n {
        assert FirstFreeLane(s, out, k);
        SameLanesTaken(s, out, more, k);
      } else {
        forall l | 0 <= l < lane ensures Taken(s, more, n, l) {
          assert more[tops[l]] == out[tops[l]] && Overlap(s[tops[l]], s[n]);
        }
      }
    }
  }

  // The cluster being laid out is closed: its items get its lane count.
  method CloseCluster(s: seq<Item>, out: seq<Lane>, first: nat, laneEnds: seq<int>,
                      ghost tops: seq<nat>, ghost peak: seq<nat>, ghost t: int)
    returns (r: seq<Lane>)
    requires InOrder(s) && first <= |out| <= |s| && Laid(s, out, first)
    requires Growing(s, out, first, laneEnds, tops, peak, t) && OneCluster(s, first, |out|)
    ensures |r| == |out| && Laid(s, r, |r|)
  {
    r := Close(out, first, |laneEnds|);
    ClosedIsLaid(s, out, first, laneEnds, tops, peak, t, r);
  }

  // laneEnds.findIndex, or one lane more.
  method TakeLane(s: seq<Item>, n: nat, laneEnds: seq<int>) returns (lane: nat, ends: seq<int>)
    requires n < |s|
    ensures Fits(s, n, laneEnds, lane, ends)
  {
    lane := FirstFree(laneEnds, s[n].start);
    ends := if lane < |laneEnds| then laneEnds[lane := End(s[n])] else laneEnds + [End(s[n])];
  }

  lemma BreakAtEnd(s: seq<Item>, n: nat, clusterEnd: Option<int>)
    requires n < |s| && LatestEnd(s, n, clusterEnd)
    ensures Break(s, n) <==> clusterEnd.None? || s[n].start >= clusterEnd.value
  {
  }

  lemma LatestEndStep(s: seq<Item>, n: nat, clusterEnd: Option<int>, opens: bool)
    requires n < |s| && LatestEnd(s, n, clusterEnd) && (opens ==> Break(s, n))
    ensures LatestEnd(s, n + 1,
                      if clusterEnd.None? || opens || clusterEnd.value < End(s[n]) then Some(End(s[n])) else clusterEnd)
  {
    if clusterEnd.Some? {
      var k :| 0 <= k < n && End(s[k]) == clusterEnd.value;
    }
  }

  /**
   * The layout keeps every item, in start order; overlapping items get different lanes; a
   * cluster shares one lane count, and some instant of it fills every one of those lanes.
   */
  method LayoutLanes(items: seq<Item>) returns (out: seq<Lane>)
    ensures |out| == |items| && Laid(ByStart(items), out, |out|)
  {
    var sorted := ByStart(items);
    ByStartInOrder(items);
    out := [];
    var first := 0;
    var laneEnds: seq<int> := [];
    var clusterEnd: Option<int> := None;
    ghost var tops: seq<nat>, peak: seq<nat>, t := [], [], 0;
    for n := 0 to |sorted|
      invariant |out| == n && (n > 0 ==> first < n)
      invariant Growing(sorted, out, first, laneEnds, tops, peak, t) && OneCluster(sorted, first, n)
      invariant Laid(sorted, out, first)
      invariant LatestEnd(sorted, n, clusterEnd)
    {
      BreakAtEnd(sorted, n, clusterEnd);
      if clusterEnd.None? || sorted[n].start >= clusterEnd.value {
        out := CloseCluster(sorted, out, first, laneEnds, tops, peak, t);
        first, laneEnds := n, [];
        tops, peak := [], [];
      }
      clusterEnd := LaterEnd(sorted, n, clusterEnd, first == n);
      out, laneEnds, tops, peak, t := PlaceItem(sorted, out, first, laneEnds, tops, peak, t);
    }
    out := CloseCluster(sorted, out, first, laneEnds, tops, peak, t);
  }

  method LaterEnd(s: seq<Item>, n: nat, clusterEnd: Option<int>, opens: bool) returns (r: Option<int>)
    requires n < |s| && LatestEnd(s, n, clusterEnd) && (opens ==> Break(s, n))
    ensures LatestEnd(s, n + 1, r)
  {
    LatestEndStep(s, n, clusterEnd, opens);
    r := if clusterEnd.None? || opens || clusterEnd.value < End(s[n]) then Some(End(s[n])) else clusterEnd;
  }

  // The next item takes its lane.
  method PlaceItem(s: seq<Item>, out: seq<Lane>, first: nat, laneEnds: seq<int>,
                   ghost tops: seq<nat>, ghost peak: seq<nat>, ghost t: int)
    returns (more: seq<Lane>, ends: seq<int>, ghost tops': seq<nat>, ghost peak': seq<nat>, ghost t': int)
    requires InOrder(s) && first <= |out| < |s| && Laid(s, out, first)
    requires Growing(s, out, first, laneEnds, tops, peak, t)
    ensures |more| == |out| + 1 && Laid(s, more, first) && Growing(s, more, first, ends, tops', peak', t')
  {
    var lane;
    lane, ends := TakeLane(s, |out|, laneEnds);
    more := out + [Lane(s[|out|], lane, 1)];
    tops', peak', t' := GrowKeeps(s, out, first, laneEnds, tops, peak, t, lane, ends);
    LaidLonger(s, out, more, first);
  }

  lemma LaidLonger(s: seq<Item>, out: seq<Lane>, more: seq<Lane>, n: nat)
    requires n <= |out| <= |more| <= |s| && out <= more && Laid(s, out, n)
    ensures Laid(s, more, n)
  {
    forall i | 0 <= i < n ensures HasPeak(s, more, i) {
      assert HasPeak(s, out, i);
      var p, u :| Peak(s, out, i, p, u);
      assert Peak(s, more, i, p, u);
    }
    forall k | 0 <= k < n ensures FirstFreeLane(s, more, k) {
      assert FirstFreeLane(s, out, k);
      SameLanesTaken(s, out, more, k);
    }
  }

  // ---- As many lanes as needed, and no more ---------------------------------------------

  ghost function ActiveAt(s: seq<Item>, t: int): set<nat> {
    set k | 0 <= k < |s| && Active(s[k], t)
  }

  lemma {:induction false} LanesBelow(a: set<nat>, out: seq<Lane>, n: nat)
    requires forall k :: k in a ==> k < |out| && out[k].lane < n
    requires forall j, k :: j in a && k in a && j != k ==> out[j].lane != out[k].lane
    ensures |a| <= n
    decreases n
  {
    if n > 0 {
      var top := set k | k in a && out[k].lane == n - 1;
      if top == {} {
        assert forall k :: k in a ==> k !in top;
        LanesBelow(a, out, n - 1);
      } else {
        var k :| k in top;
        LanesBelow(a - {k}, out, n - 1);
      }
    } else {
      assert a == {};
    }
  }

  ghost function FirstOf(peak: seq<nat>, n: nat): set<nat>
    requires n <= |peak|
  {
    if n == 0 then {} else FirstOf(peak, n - 1) + {peak[n - 1]}
  }

  lemma {:induction false} PeakFills(s: seq<Item>, out: seq<Lane>, i: nat, peak: seq<nat>, t: int, n: nat)
    requires |out| == |s| && i < |out| && Peak(s, out, i, peak, t) && n <= |peak|
    ensures |FirstOf(peak, n)| == n && FirstOf(peak, n) <= ActiveAt(s, t)
    ensures forall k :: k in FirstOf(peak, n) ==> k < |out| && out[k].lane < n && SameCluster(s, i, k)
    decreases n
  {
    if n > 0 {
      PeakFills(s, out, i, peak, t, n - 1);
      assert out[peak[n - 1]].lane == n - 1;
    }
  }

  /**
   * An item's lane count is the largest number of items active at one instant of its cluster:
   * no instant has more, and one has as many.
   */
  lemma LanesAreDepth(s: seq<Item>, out: seq<Lane>, i: nat)
    requires InOrder(s) && |out| == |s| && i < |s| && Laid(s, out, |out|)
    ensures forall j, t {:trigger SameCluster(s, i, j), Active(s[j], t)} ::
              0 <= j < |s| && SameCluster(s, i, j) && Active(s[j], t) ==> |ActiveAt(s, t)| <= out[i].lanes
    ensures exists j: nat, t :: j < |s| && SameCluster(s, i, j) && Active(s[j], t) && |ActiveAt(s, t)| == out[i].lanes
  {
    forall j: nat, t | j < |s| && SameCluster(s, i, j) && Active(s[j], t)
      ensures |ActiveAt(s, t)| <= out[i].lanes
    {
      DepthAtMost(s, out, i, j, t);
    }
    assert HasPeak(s, out, i);
    var peak, t :| Peak(s, out, i, peak, t);
    PeakFills(s, out, i, peak, t, |peak|);
    assert out[i].lane < out[i].lanes;
    var j := peak[0];
    DepthAtMost(s, out, i, j, t);
    var a := FirstOf(peak, |peak|);
    SubsetSize(a, ActiveAt(s, t));
  }

  lemma SubsetSize(a: set<nat>, b: set<nat>)
    requires a <= b
    ensures |a| <= |b|
  {
    assert b == a + (b - a);
  }

  lemma DepthAtMost(s: seq<Item>, out: seq<Lane>, i: nat, j: nat, t: int)
    requires InOrder(s) && |out| == |s| && i < |s| && j < |s| && Laid(s, out, |out|)
    requires SameCluster(s, i, j) && Active(s[j], t)
    ensures |ActiveAt(s, t)| <= out[i].lanes
  {
    var a := ActiveAt(s, t);
    forall k | k in a ensures out[k].lane < out[i].lanes {
      SameLanes(s, out, i, j);
      if k != j {
        OverlapSameCluster(s, if k < j then k else j, if k < j then j else k);
      }
      SameLanes(s, out, k, j);
    }
    forall k, l | k in a && l in a && k != l ensures out[k].lane != out[l].lane {
      assert Overlap(s[k], s[l]) && Overlap(s[l], s[k]);
    }
    LanesBelow(a, out, out[i].lanes);
  }

  lemma SameLanes(s: seq<Item>, out: seq<Lane>, i: nat, j: nat)
    requires |out| == |s| && i < |s| && j < |s| && Laid(s, out, |out|)
    requires SameCluster(s, i, j) || SameCluster(s, j, i)
    ensures out[i].lanes == out[j].lanes
  {
    assert SameCluster(s, i, j) && SameCluster(s, j, i);
  }

  /** Any other assignment of lanes that separates overlapping items needs at least as many. */
  lemma NoFewerLanes(s: seq<Item>, out: seq<Lane>, i: nat, other: seq<Lane>, m: nat)
    requires InOrder(s) && |out| == |s| == |other| && i < |s| && Laid(s, out, |out|)
    requires forall j, k :: 0 <= j < k < |s| && Overlap(s[j], s[k]) ==> other[j].lane != other[k].lane
    requires forall k :: 0 <= k < |s| && SameCluster(s, i, k) ==> other[k].lane < m
    ensures out[i].lanes <= m
  {
    assert HasPeak(s, out, i);
    var peak, t :| Peak(s, out, i, peak, t);
    PeakFills(s, out, i, peak, t, |peak|);
    var a := FirstOf(peak, |peak|);
    forall j, k | j in a && k in a && j != k ensures other[j].lane != other[k].lane {
      assert Overlap(s[j], s[k]) && Overlap(s[k], s[j]);
    }
    LanesBelow(a, other, m);
  }
}
