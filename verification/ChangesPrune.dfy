/**
 * Pruning the change log. One prune is a chain of store calls; appends, consumer
 * moves and crashes happen between any two of them.
 */
module ChangesPrune {
  import opened Wrappers

  const CHANGES_RETENTION_MS := 48 * 3600000

  type Consumer = nat

  datatype Row = Row(pos: nat, at: int)

  datatype Store = Store(
    rows: seq<Row>,               // the surviving log
    gone: seq<Row>,               // what was pruned from its front
    floor: Option<nat>,           // meta.changesFloor
    cursors: map<Consumer, nat>,
    attached: seq<Consumer>
  )

  // ---- Store calls -------------------------------------------------------------------

  function Head(rows: seq<Row>): nat {
    if |rows| == 0 then 0 else rows[|rows| - 1].pos
  }

  function Floor(st: Store): nat {
    if st.floor.Some? then st.floor.value else 0
  }

  // consumerFloor: the least cursor of the attached consumers that have a row.
  function MinCursor(cursors: map<Consumer, nat>, names: seq<Consumer>): (r: Option<nat>)
    ensures r.Some? ==> forall c :: c in names && c in cursors ==> r.value <= cursors[c]
    ensures r.Some? <==> exists c :: c in names && c in cursors
    ensures r.Some? ==> exists c :: c in names && c in cursors && r.value == cursors[c]
  {
    if |names| == 0 then None else
      var c := names[|names| - 1];
      var rest := MinCursor(cursors, names[..|names| - 1]);
      assert c in names && names == names[..|names| - 1] + [c];
      if c !in cursors then rest
      else if rest.None? then Some(cursors[c])
      else if cursors[c] <= rest.value then Some(cursors[c]) else rest
  }

  // firstChangeSeqAt: the first surviving change at or after `since`, or one past the head.
  function FirstAt(rows: seq<Row>, since: int): nat {
    if |rows| == 0 then 1
    else if rows[0].at >= since then rows[0].pos
    else if |rows| == 1 then rows[0].pos + 1
    else FirstAt(rows[1..], since)
  }

  function CountBelow(rows: seq<Row>, limit: nat, batch: nat): (n: nat)
    ensures n <= |rows| && n <= batch
  {
    if |rows| == 0 || batch == 0 || rows[0].pos >= limit then 0 else 1 + CountBelow(rows[1..], limit, batch - 1)
  }

  // The rows counted are below the limit, and the next one is not unless the batch is full.
  lemma {:induction false} CountedBelow(rows: seq<Row>, limit: nat, batch: nat)
    ensures var n := CountBelow(rows, limit, batch);
            (forall k {:trigger rows[k]} :: 0 <= k < n ==> rows[k].pos < limit)
            && (n == batch || n == |rows| || rows[n].pos >= limit)
    decreases |rows|
  {
    if |rows| > 0 && batch > 0 && rows[0].pos < limit {
      CountedBelow(rows[1..], limit, batch - 1);
      var n := CountBelow(rows[1..], limit, batch - 1);
      assert forall k {:trigger rows[k]} :: 1 <= k < |rows| ==> rows[k] == rows[1..][k - 1];
    }
  }

  // The first n rows go.
  function Cut(st: Store, n: nat): Store
    requires n <= |st.rows|
  {
    st.(rows := st.rows[n..], gone := st.gone + st.rows[..n])
  }

  function DeleteBelow(st: Store, limit: nat, batch: nat): (Store, nat) {
    var n := CountBelow(st.rows, limit, batch);
    (Cut(st, n), n)
  }

  function PublishFloor(st: Store, limit: nat): Store {
    st.(floor := Some(if Floor(st) < limit then limit else Floor(st)))
  }

  // ---- What others do meanwhile ------------------------------------------------------------

  datatype Env =
    | Append(pos: nat, at: int)
    | Advance(consumer: Consumer, to: nat)
    | Attach(consumer: Consumer)
    | Detach(consumer: Consumer)

  predicate Possible(st: Store, e: Env) {
    match e
    case Append(pos, at) => pos > Head(st.rows) && (|st.rows| > 0 ==> st.rows[|st.rows| - 1].at <= at)
    case Advance(c, to) => c in st.attached && c in st.cursors && st.cursors[c] <= to <= Head(st.rows)
    case Attach(c) => c !in st.attached
    case Detach(c) => true
  }

  function Remove(names: seq<Consumer>, c: Consumer): (r: seq<Consumer>)
    ensures forall x :: x in r <==> x in names && x != c
  {
    if |names| == 0 then []
    else
      assert names == [names[0]] + names[1..];
      if names[0] == c then Remove(names[1..], c) else [names[0]] + Remove(names[1..], c)
  }

  // An attaching consumer without a row, or below the published floor, re-seeds at the head.
  function Happen(st: Store, e: Env): Store {
    match e
    case Append(pos, at) => st.(rows := st.rows + [Row(pos, at)])
    case Advance(c, to) => st.(cursors := st.cursors[c := to])
    case Attach(c) =>
      st.(attached := st.attached + [c],
          cursors := if c in st.cursors && st.cursors[c] >= Floor(st) then st.cursors
                     else st.cursors[c := Head(st.rows)])
    case Detach(c) => st.(attached := Remove(st.attached, c))
  }

  // ---- The prune, one store call at a time ---------------------------------------------------

  datatype Phase =
    | Idle
    | HaveFloor(floor: nat)
    | HaveCutoff(floor: nat, cutoff: nat, since: int)
    | Ready(limit: nat, since: int)
    | Deleting(limit: nat, since: int)

  datatype System = System(st: Store, phase: Phase)

  datatype Step = Other(e: Env) | Go(rekeyed: bool, now: int, batch: nat) | Crash

  function Min(a: nat, b: nat): nat { if a <= b then a else b }

  function Next(s: System, step: Step): System {
    match step
    case Other(e) => s.(st := Happen(s.st, e))
    case Crash => s.(phase := Idle)
    case Go(rekeyed, now, batch) =>
      match s.phase
      case Idle =>
        var floor := MinCursor(s.st.cursors, s.st.attached);
        if !rekeyed || floor.None? then s else s.(phase := HaveFloor(floor.value))
      case HaveFloor(floor) =>
        var since := now - CHANGES_RETENTION_MS;
        s.(phase := HaveCutoff(floor, FirstAt(s.st.rows, since), since))
      case HaveCutoff(floor, cutoff, since) =>
        s.(phase := Ready(Min(Min(floor, cutoff), Head(s.st.rows)), since))
      case Ready(limit, since) => System(PublishFloor(s.st, limit), Deleting(limit, since))
      case Deleting(limit, since) =>
        var (st, n) := DeleteBelow(s.st, limit, batch);
        System(st, if n == 0 then Idle else Deleting(limit, since))
  }

  predicate Legal(s: System, step: Step) {
    match step
    case Other(e) => Possible(s.st, e)
    case Go(rekeyed, now, batch) => batch > 0
    case Crash => true
  }

  function Candidate(phase: Phase): nat {
    match phase
    case Idle => 0
    case HaveFloor(floor) => floor
    case HaveCutoff(floor, cutoff, since) => Min(floor, cutoff)
    case Ready(limit, since) => limit
    case Deleting(limit, since) => limit
  }

  function Exec(s: System, steps: seq<Step>): System
    decreases |steps|
  {
    if |steps| == 0 then s else Exec(Next(s, steps[0]), steps[1..])
  }

  predicate LegalRun(s: System, steps: seq<Step>)
    decreases |steps|
  {
    |steps| == 0 || (Legal(s, steps[0]) && LegalRun(Next(s, steps[0]), steps[1..]))
  }

  // ---- What every run keeps ----------------------------------------------------------------------

  /** Everything ever appended, in order. */
  function Log(st: Store): seq<Row> {
    st.gone + st.rows
  }

  ghost predicate Increasing(log: seq<Row>) {
    forall i, j {:trigger log[i], log[j]} :: 0 <= i < j < |log| ==> log[i].pos < log[j].pos && log[i].at <= log[j].at
  }

  ghost predicate StoreOk(st: Store) {
    && Increasing(Log(st))
    && (|st.gone| > 0 ==> |st.rows| > 0 && st.floor.Some?)
    && Below(st.gone, Floor(st))
    && Positive(st.rows)
    && Floor(st) <= Head(st.rows)
    && CursorsOk(st.cursors, Head(st.rows))
  }

  ghost predicate Below(rows: seq<Row>, limit: nat) {
    forall k {:trigger rows[k]} :: 0 <= k < |rows| ==> 0 < rows[k].pos < limit
  }

  ghost predicate Positive(rows: seq<Row>) {
    forall k {:trigger rows[k]} :: 0 <= k < |rows| ==> rows[k].pos > 0
  }

  ghost predicate CursorsOk(cursors: map<Consumer, nat>, head: nat) {
    forall c {:trigger cursors[c]} :: c in cursors ==> cursors[c] <= head
  }

  ghost predicate PhaseOk(s: System) {
    match s.phase
    case Idle => true
    case HaveFloor(floor) => floor <= Head(s.st.rows)
    case HaveCutoff(floor, cutoff, since) =>
      floor <= Head(s.st.rows) && cutoff <= Head(s.st.rows) + 1 && NothingYoung(s.st.rows, cutoff, since)
    case Ready(limit, since) => limit <= Head(s.st.rows) && NothingYoung(s.st.rows, limit, since)
    case Deleting(limit, since) =>
      limit <= Head(s.st.rows) && NothingYoung(s.st.rows, limit, since) && limit <= Floor(s.st) && s.st.floor.Some?
  }

  /** Below the limit every surviving row is older than the retention window. */
  ghost predicate NothingYoung(rows: seq<Row>, limit: nat, since: int) {
    forall k {:trigger rows[k]} :: 0 <= k < |rows| && rows[k].pos < limit ==> rows[k].at < since
  }

  ghost predicate Inv(s: System) {
    StoreOk(s.st) && PhaseOk(s)
  }

  lemma {:induction false} FirstAtBound(rows: seq<Row>, since: int)
    requires Increasing(rows)
    ensures forall k :: 0 <= k < |rows| && rows[k].pos < FirstAt(rows, since) ==> rows[k].at < since
    ensures FirstAt(rows, since) <= Head(rows) + 1
    decreases |rows|
  {
    if |rows| > 1 && rows[0].at < since {
      FirstAtBound(rows[1..], since);
      assert Head(rows[1..]) == Head(rows);
      forall k | 0 <= k < |rows| && rows[k].pos < FirstAt(rows, since) ensures rows[k].at < since {
        if k > 0 {
          assert rows[k] == rows[1..][k - 1];
        }
      }
    }
  }

  lemma RowsIncrease(st: Store)
    requires StoreOk(st)
    ensures Increasing(st.rows)
  {
    forall i, j | 0 <= i < j < |st.rows| ensures st.rows[i].pos < st.rows[j].pos && st.rows[i].at <= st.rows[j].at {
      assert Log(st)[|st.gone| + i] == st.rows[i] && Log(st)[|st.gone| + j] == st.rows[j];
    }
  }

  lemma IncreasingAppend(log: seq<Row>, row: Row)
    requires Increasing(log) && (|log| > 0 ==> log[|log| - 1].pos < row.pos && log[|log| - 1].at <= row.at)
    ensures Increasing(log + [row])
  {
    var longer := log + [row];
    forall i, j | 0 <= i < j < |longer| ensures longer[i].pos < longer[j].pos && longer[i].at <= longer[j].at {
      if j == |log| && i < |log| - 1 {
        assert log[i].pos < log[|log| - 1].pos;
      }
    }
  }

  lemma AppendLog(gone: seq<Row>, rows: seq<Row>, row: Row)
    requires Increasing(gone + rows) && (|gone| > 0 ==> |rows| > 0)
    requires |rows| > 0 ==> rows[|rows| - 1].pos < row.pos && rows[|rows| - 1].at <= row.at
    ensures Increasing(gone + (rows + [row]))
  {
    var log := gone + rows;
    if |rows| > 0 {
      assert log[|log| - 1] == rows[|rows| - 1];
    }
    IncreasingAppend(log, row);
    assert log + [row] == gone + (rows + [row]);
  }

  lemma AppendRows(rows: seq<Row>, cursors: map<Consumer, nat>, row: Row)
    requires Positive(rows) && CursorsOk(cursors, Head(rows)) && row.pos > Head(rows)
    ensures Positive(rows + [row]) && CursorsOk(cursors, row.pos) && Head(rows + [row]) == row.pos
  {
  }

  lemma AppendStore(st: Store, pos: nat, at: int)
    requires StoreOk(st) && Possible(st, Append(pos, at))
    ensures StoreOk(Happen(st, Append(pos, at))) && Head(Happen(st, Append(pos, at)).rows) == pos
  {
    AppendLog(st.gone, st.rows, Row(pos, at));
    AppendRows(st.rows, st.cursors, Row(pos, at));
  }

  lemma AppendYoung(rows: seq<Row>, row: Row, limit: nat, since: int)
    requires NothingYoung(rows, limit, since) && row.pos >= limit
    ensures NothingYoung(rows + [row], limit, since)
  {
  }

  lemma AppendKeeps(s: System, pos: nat, at: int)
    requires Inv(s) && Possible(s.st, Append(pos, at))
    ensures Inv(s.(st := Happen(s.st, Append(pos, at))))
  {
    AppendStore(s.st, pos, at);
    match s.phase
    case Idle =>
    case HaveFloor(floor) =>
    case HaveCutoff(floor, cutoff, since) => AppendYoung(s.st.rows, Row(pos, at), cutoff, since);
    case Ready(limit, since) => AppendYoung(s.st.rows, Row(pos, at), limit, since);
    case Deleting(limit, since) => AppendYoung(s.st.rows, Row(pos, at), limit, since);
  }

  lemma CursorKeeps(s: System, e: Env)
    requires Inv(s) && Possible(s.st, e) && !e.Append?
    ensures Inv(Next(s, Other(e)))
  {
    assert Log(Happen(s.st, e)) == Log(s.st);
  }

  lemma HeadOfRest(rows: seq<Row>, n: nat)
    requires n < |rows| || n == |rows| == 0
    ensures Head(rows[n..]) == Head(rows)
  {
  }

  // The window stops short of the head row.
  lemma WindowStops(st: Store, limit: nat, batch: nat)
    requires StoreOk(st) && limit <= Head(st.rows)
    ensures CountBelow(st.rows, limit, batch) < |st.rows| || |st.rows| == 0
  {
    CountedBelow(st.rows, limit, batch);
  }

  lemma BelowJoin(a: seq<Row>, b: seq<Row>, limit: nat)
    requires Below(a, limit) && Below(b, limit)
    ensures Below(a + b, limit)
  {
  }

  lemma DeleteParts(gone: seq<Row>, rows: seq<Row>, n: nat, floor: nat)
    requires n <= |rows| && Below(gone, floor) && Positive(rows)
    requires forall k {:trigger rows[k]} :: 0 <= k < n ==> rows[k].pos < floor
    ensures Below(gone + rows[..n], floor) && Positive(rows[n..])
    ensures (gone + rows[..n]) + rows[n..] == gone + rows
  {
    assert Below(rows[..n], floor);
    BelowJoin(gone, rows[..n], floor);
  }

  lemma DeleteStore(st: Store, limit: nat, batch: nat)
    requires StoreOk(st) && limit <= Floor(st) && st.floor.Some?
    ensures var st' := DeleteBelow(st, limit, batch).0;
            StoreOk(st') && Head(st'.rows) == Head(st.rows)
  {
    var n := CountBelow(st.rows, limit, batch);
    CountedBelow(st.rows, limit, batch);
    WindowStops(st, limit, batch);
    HeadOfRest(st.rows, n);
    DeleteParts(st.gone, st.rows, n, Floor(st));
  }

  lemma DeleteKeeps(s: System, batch: nat)
    requires Inv(s) && s.phase.Deleting?
    ensures Inv(s.(st := DeleteBelow(s.st, s.phase.limit, batch).0))
  {
    DeleteStore(s.st, s.phase.limit, batch);
    assert NothingYoung(s.st.rows[CountBelow(s.st.rows, s.phase.limit, batch)..], s.phase.limit, s.phase.since);
  }

  lemma CutoffKeeps(s: System, now: int)
    requires Inv(s) && s.phase.HaveFloor?
    ensures Inv(Next(s, Go(true, now, 1)))
  {
    RowsIncrease(s.st);
    FirstAtBound(s.st.rows, now - CHANGES_RETENTION_MS);
  }

  lemma FloorBound(st: Store)
    requires CursorsOk(st.cursors, Head(st.rows))
    ensures var floor := MinCursor(st.cursors, st.attached); floor.Some? ==> floor.value <= Head(st.rows)
  {
    var floor := MinCursor(st.cursors, st.attached);
    if floor.Some? {
      var c :| c in st.attached && c in st.cursors && floor.value == st.cursors[c];
    }
  }

  lemma LimitKeeps(s: System)
    requires Inv(s) && s.phase.HaveCutoff?
    ensures Inv(s.(phase := Ready(Min(Min(s.phase.floor, s.phase.cutoff), Head(s.st.rows)), s.phase.since)))
  {
    assert NothingYoung(s.st.rows, s.phase.cutoff, s.phase.since);
  }

  lemma PublishKeeps(s: System)
    requires Inv(s) && s.phase.Ready?
    ensures Inv(System(PublishFloor(s.st, s.phase.limit), Deleting(s.phase.limit, s.phase.since)))
  {
    assert Log(PublishFloor(s.st, s.phase.limit)) == Log(s.st);
    assert Below(s.st.gone, Floor(s.st));
  }

  lemma GoKeeps(s: System, rekeyed: bool, now: int, batch: nat)
    requires Inv(s) && batch > 0
    ensures Inv(Next(s, Go(rekeyed, now, batch)))
  {
    match s.phase
    case Idle => FloorBound(s.st);
    case HaveFloor(floor) => CutoffKeeps(s, now);
    case HaveCutoff(floor, cutoff, since) => LimitKeeps(s);
    case Ready(limit, since) => PublishKeeps(s);
    case Deleting(limit, since) => DeleteKeeps(s, batch);
  }

  lemma StepKeeps(s: System, step: Step)
    requires Inv(s) && Legal(s, step)
    ensures Inv(Next(s, step))
  {
    match step
    case Other(e) =>
      if e.Append? {
        AppendKeeps(s, e.pos, e.at);
      } else {
        CursorKeeps(s, e);
      }
    case Go(rekeyed, now, batch) => GoKeeps(s, rekeyed, now, batch);
    case Crash =>
  }

  /** The log only grows: what survives is always what is left after a prefix went. */
  lemma LogOnlyGrows(s: System, step: Step)
    ensures Log(s.st) <= Log(Next(s, step).st) && s.st.gone <= Next(s, step).st.gone
    ensures step.Other? || step.Crash? ==> Next(s, step).st.gone == s.st.gone
  {
    if step.Other? && step.e.Append? {
      assert Log(Next(s, step).st) == Log(s.st) + [Row(step.e.pos, step.e.at)];
    }
    if step.Go? && s.phase.Deleting? {
      assert Log(Next(s, step).st) == Log(s.st);
    }
  }

  /**
   * A step removes rows only below a floor that is already published, and only rows older
   * than the retention window its run started from.
   */
  lemma OnlyOldRowsGo(s: System, step: Step, row: Row)
    requires Inv(s) && Legal(s, step) && row in s.st.rows && row !in Next(s, step).st.rows
    ensures s.phase.Deleting? && row.at < s.phase.since && s.st.floor.Some? && row.pos < s.st.floor.value
  {
    var k :| 0 <= k < |s.st.rows| && s.st.rows[k] == row;
    if s.phase.Deleting? && step.Go? {
      var n := CountBelow(s.st.rows, s.phase.limit, step.batch);
      CountedBelow(s.st.rows, s.phase.limit, step.batch);
      assert forall j :: n <= j < |s.st.rows| ==> s.st.rows[j] in s.st.rows[n..];
    }
  }

  lemma {:induction false} RunKeeps(s: System, steps: seq<Step>)
    requires Inv(s) && LegalRun(s, steps)
    ensures Inv(Exec(s, steps)) && Log(s.st) <= Log(Exec(s, steps).st) && s.st.gone <= Exec(s, steps).st.gone
    decreases |steps|
  {
    if |steps| > 0 {
      StepKeeps(s, steps[0]);
      LogOnlyGrows(s, steps[0]);
      RunKeeps(Next(s, steps[0]), steps[1..]);
    }
  }

  lemma HeadStays(s: System, step: Step)
    requires Inv(s) && Legal(s, step)
    ensures Head(s.st.rows) <= Head(Next(s, step).st.rows)
    ensures |s.st.rows| > 0 ==> |Next(s, step).st.rows| > 0
  {
    if s.phase.Deleting? && step.Go? {
      WindowStops(s.st, s.phase.limit, step.batch);
      HeadOfRest(s.st.rows, CountBelow(s.st.rows, s.phase.limit, step.batch));
    }
  }

  /** The head row survives every run, crashes included, so headSeq never goes back. */
  lemma {:induction false} HeadSurvives(s: System, steps: seq<Step>)
    requires Inv(s) && LegalRun(s, steps)
    ensures Head(s.st.rows) <= Head(Exec(s, steps).st.rows)
    ensures |s.st.rows| > 0 ==> |Exec(s, steps).st.rows| > 0
    decreases |steps|
  {
    if |steps| > 0 {
      StepKeeps(s, steps[0]);
      HeadStays(s, steps[0]);
      HeadSurvives(Next(s, steps[0]), steps[1..]);
    }
  }

  // ---- The delete loop ends --------------------------------------------------------------------------

  function Left(rows: seq<Row>, limit: nat): nat {
    if |rows| == 0 then 0 else (if rows[0].pos < limit then 1 else 0) + Left(rows[1..], limit)
  }

  lemma {:induction false} LeftSplit(a: seq<Row>, b: seq<Row>, limit: nat)
    ensures Left(a + b, limit) == Left(a, limit) + Left(b, limit)
    decreases |a|
  {
    if |a| == 0 {
      assert a + b == b;
    } else {
      assert (a + b)[1..] == a[1..] + b;
      LeftSplit(a[1..], b, limit);
    }
  }

  lemma {:induction false} LeftCount(rows: seq<Row>, limit: nat, n: nat)
    requires n <= |rows| && forall k :: 0 <= k < n ==> rows[k].pos < limit
    ensures Left(rows[..n], limit) == n
    decreases n
  {
    if n > 0 {
      assert rows[..n][1..] == rows[1..][..n - 1];
      LeftCount(rows[1..], limit, n - 1);
    }
  }

  /** A window takes the lowest rows below the limit, as many as it may. */
  lemma {:induction false} WindowIsLowest(rows: seq<Row>, limit: nat, batch: nat)
    requires Increasing(rows)
    ensures CountBelow(rows, limit, batch) == Min(batch, Left(rows, limit))
    decreases |rows|
  {
    if |rows| > 0 {
      var rest := rows[1..];
      assert forall k :: 0 <= k < |rest| ==> rest[k] == rows[k + 1] && rows[0].pos < rest[k].pos;
      assert Increasing(rest);
      if rows[0].pos >= limit {
        NoneLeft(rows, limit);
      } else if batch > 0 {
        WindowIsLowest(rest, limit, batch - 1);
      }
    }
  }

  lemma {:induction false} NoneLeft(rows: seq<Row>, limit: nat)
    requires forall k :: 0 <= k < |rows| ==> rows[k].pos >= limit
    ensures Left(rows, limit) == 0
  {
    if |rows| > 0 {
      NoneLeft(rows[1..], limit);
    }
  }

  lemma WindowLeaves(rows: seq<Row>, limit: nat, batch: nat)
    ensures var n := CountBelow(rows, limit, batch); Left(rows[n..], limit) + n == Left(rows, limit)
  {
    var n := CountBelow(rows, limit, batch);
    CountedBelow(rows, limit, batch);
    assert rows == rows[..n] + rows[n..];
    LeftSplit(rows[..n], rows[n..], limit);
    LeftCount(rows, limit, n);
  }

  lemma AppendLeaves(rows: seq<Row>, row: Row, limit: nat)
    requires row.pos >= limit
    ensures Left(rows + [row], limit) == Left(rows, limit)
  {
    LeftSplit(rows, [row], limit);
  }

  /**
   * While deleting, nobody else adds rows below the limit, and each window either removes at
   * least one or ends the run.
   */
  lemma DeletingEnds(s: System, step: Step)
    requires PhaseOk(s) && Legal(s, step) && s.phase.Deleting?
    ensures var next := Next(s, step);
            next.phase.Deleting? ==>
              var before, after := Left(s.st.rows, s.phase.limit), Left(next.st.rows, s.phase.limit);
              next.phase == s.phase && after <= before && (step.Go? ==> after < before)
  {
    match step
    case Other(e) =>
      if e.Append? {
        AppendLeaves(s.st.rows, Row(e.pos, e.at), s.phase.limit);
      }
    case Go(_, _, batch) => WindowLeaves(s.st.rows, s.phase.limit, batch);
    case Crash =>
  }

  // ---- No attached consumer loses an unread row ---------------------------------------------------------

  /** Everything past the consumer's cursor is still in the log. */
  ghost predicate Keeps(st: Store, c: Consumer) {
    c in st.cursors && ReadAll(st.gone, st.cursors[c])
  }

  ghost predicate ReadAll(rows: seq<Row>, cursor: nat) {
    forall k {:trigger rows[k]} :: 0 <= k < |rows| ==> rows[k].pos <= cursor
  }

  // Below the limit there is nothing past the cursor.
  ghost predicate ReadBelow(rows: seq<Row>, cursor: nat, limit: nat) {
    forall k {:trigger rows[k]} :: 0 <= k < |rows| && rows[k].pos < limit ==> rows[k].pos <= cursor
  }

  ghost predicate NothingLost(st: Store) {
    forall c {:trigger c in st.attached} :: c in st.attached ==> Keeps(st, c)
  }

  /** Nothing is lost, and nothing the prune under way may delete is unread. */
  ghost predicate Fed(s: System) {
    NothingLost(s.st) &&
    forall c {:trigger c in s.st.attached} :: c in s.st.attached ==>
        ReadBelow(s.st.rows, s.st.cursors[c], Candidate(s.phase))
  }

  // The cursor an attaching consumer goes on from.
  function AttachedAt(st: Store, c: Consumer): nat {
    if c in st.cursors && st.cursors[c] >= Floor(st) then st.cursors[c] else Head(st.rows)
  }

  /** An attaching consumer has read every row the prune under way may delete. */
  ghost predicate Harmless(s: System, step: Step) {
    step.Other? && step.e.Attach? ==> ReadBelow(s.st.rows, AttachedAt(s.st, step.e.consumer), Candidate(s.phase))
  }

  ghost predicate HarmlessRun(s: System, steps: seq<Step>)
    decreases |steps|
  {
    |steps| == 0 ||
    (Legal(s, steps[0]) && Harmless(s, steps[0]) && HarmlessRun(Next(s, steps[0]), steps[1..]))
  }

  lemma CandidateBound(s: System)
    requires PhaseOk(s)
    ensures Candidate(s.phase) <= Head(s.st.rows)
  {
  }

  lemma AttachFeeds(s: System, c: Consumer)
    requires Inv(s) && Fed(s) && Possible(s.st, Attach(c)) && Harmless(s, Other(Attach(c)))
    ensures Fed(s.(st := Happen(s.st, Attach(c))))
  {
    var st := Happen(s.st, Attach(c));
    assert st.cursors[c] == AttachedAt(s.st, c) >= Floor(s.st);
    forall x | x in st.attached ensures Keeps(st, x) && ReadBelow(st.rows, st.cursors[x], Candidate(s.phase)) {
      if x != c {
        assert Keeps(s.st, x);
      }
    }
  }

  lemma AppendFeeds(s: System, pos: nat, at: int)
    requires Inv(s) && Fed(s) && Possible(s.st, Append(pos, at))
    ensures Fed(s.(st := Happen(s.st, Append(pos, at))))
  {
    CandidateBound(s);
    forall c | c in s.st.attached ensures ReadBelow(s.st.rows + [Row(pos, at)], s.st.cursors[c], Candidate(s.phase)) {
      assert ReadBelow(s.st.rows, s.st.cursors[c], Candidate(s.phase));
    }
  }

  lemma OtherFeeds(s: System, e: Env)
    requires Inv(s) && Fed(s) && Possible(s.st, e) && Harmless(s, Other(e))
    ensures Fed(s.(st := Happen(s.st, e)))
  {
    match e
    case Append(pos, at) => AppendFeeds(s, pos, at);
    case Advance(c, to) =>
    case Attach(c) => AttachFeeds(s, c);
    case Detach(c) =>
  }

  lemma FloorFeeds(st: Store)
    requires NothingLost(st)
    ensures var floor := MinCursor(st.cursors, st.attached);
            floor.Some? ==> forall c :: c in st.attached ==> ReadBelow(st.rows, st.cursors[c], floor.value)
  {
    forall c | c in st.attached ensures c in st.cursors {
      assert Keeps(st, c);
    }
  }

  lemma DeleteFeeds(st: Store, limit: nat, batch: nat)
    requires NothingLost(st) && forall c :: c in st.attached ==> ReadBelow(st.rows, st.cursors[c], limit)
    ensures var r := DeleteBelow(st, limit, batch).0;
            NothingLost(r) && forall c :: c in r.attached ==> ReadBelow(r.rows, r.cursors[c], limit)
  {
    var n := CountBelow(st.rows, limit, batch);
    CountedBelow(st.rows, limit, batch);
    forall c | c in st.attached
      ensures ReadAll(st.gone + st.rows[..n], st.cursors[c]) && ReadBelow(st.rows[n..], st.cursors[c], limit)
    {
      assert Keeps(st, c) && ReadBelow(st.rows, st.cursors[c], limit);
    }
  }

  lemma GoFeeds(s: System, rekeyed: bool, now: int, batch: nat)
    requires Fed(s)
    ensures Fed(Next(s, Go(rekeyed, now, batch)))
  {
    match s.phase
    case Idle => FloorFeeds(s.st);
    case HaveFloor(floor) =>
    case HaveCutoff(floor, cutoff, since) =>
    case Ready(limit, since) =>
      assert NothingLost(PublishFloor(s.st, limit)) by {
        forall c | c in s.st.attached ensures Keeps(s.st, c) {
        }
      }
    case Deleting(limit, since) => DeleteFeeds(s.st, limit, batch);
  }

  lemma StepFeeds(s: System, step: Step)
    requires Inv(s) && Fed(s) && Legal(s, step) && Harmless(s, step)
    ensures Fed(Next(s, step))
  {
    match step
    case Other(e) => OtherFeeds(s, e);
    case Go(rekeyed, now, batch) => GoFeeds(s, rekeyed, now, batch);
    case Crash =>
  }

  lemma {:induction false} RunFeeds(s: System, steps: seq<Step>)
    requires Inv(s) && Fed(s) && HarmlessRun(s, steps)
    ensures Inv(Exec(s, steps)) && Fed(Exec(s, steps))
    decreases |steps|
  {
    if |steps| > 0 {
      StepKeeps(s, steps[0]);
      StepFeeds(s, steps[0]);
      RunFeeds(Next(s, steps[0]), steps[1..]);
    }
  }

  // An unpruned log with nobody attached.
  function Unpruned(rows: seq<Row>, cursors: map<Consumer, nat>): System {
    System(Store(rows, [], None, cursors, []), Idle)
  }

  ghost predicate GoodLog(rows: seq<Row>, cursors: map<Consumer, nat>) {
    Increasing(rows) && Positive(rows) && CursorsOk(cursors, Head(rows))
  }

  lemma UnprunedIsSafe(rows: seq<Row>, cursors: map<Consumer, nat>)
    requires GoodLog(rows, cursors)
    ensures Inv(Unpruned(rows, cursors)) && Fed(Unpruned(rows, cursors))
  {
    assert Log(Unpruned(rows, cursors).st) == rows;
  }

  /** Over every run of harmless attaches no attached consumer loses a row it has not read. */
  lemma NoUnreadRowLost(rows: seq<Row>, cursors: map<Consumer, nat>, steps: seq<Step>, c: Consumer)
    requires GoodLog(rows, cursors) && HarmlessRun(Unpruned(rows, cursors), steps)
    requires c in Exec(Unpruned(rows, cursors), steps).st.attached
    ensures Keeps(Exec(Unpruned(rows, cursors), steps).st, c)
  {
    UnprunedIsSafe(rows, cursors);
    RunFeeds(Unpruned(rows, cursors), steps);
  }

  // ---- A harmful attach loses a row ---------------------------------------------------------------------------

  // A row past the cursor of an attached consumer, below what the prune may delete.
  ghost predicate Doomed(s: System, c: Consumer, k: nat) {
    c in s.st.attached && c in s.st.cursors && k < |s.st.rows| &&
    s.st.cursors[c] < s.st.rows[k].pos < Candidate(s.phase)
  }

  lemma WindowTakes(rows: seq<Row>, limit: nat, k: nat)
    requires Increasing(rows) && k < |rows| && rows[k].pos < limit
    ensures k < CountBelow(rows, limit, |rows|)
  {
    var n := CountBelow(rows, limit, |rows|);
    CountedBelow(rows, limit, |rows|);
    assert forall j :: n < j < |rows| ==> rows[n].pos < rows[j].pos;
  }

  lemma DeletingLoses(s: System, c: Consumer, k: nat) returns (steps: seq<Step>)
    requires Inv(s) && s.phase.Deleting? && Doomed(s, c, k)
    ensures HarmlessRun(s, steps) && !NothingLost(Exec(s, steps).st)
  {
    RowsIncrease(s.st);
    WindowTakes(s.st.rows, s.phase.limit, k);
    var go := Go(true, 0, |s.st.rows|);
    steps := [go];
    var r := Next(s, go);
    assert steps[1..] == [] && HarmlessRun(r, []) && Exec(r, []) == r;
    assert r.st.gone[|s.st.gone| + k] == s.st.rows[k];
    assert !Keeps(r.st, c);
  }

  lemma GoThen(s: System, go: Step, rest: seq<Step>) returns (steps: seq<Step>)
    requires go.Go? && go.batch > 0 && HarmlessRun(Next(s, go), rest)
    ensures HarmlessRun(s, steps) && Exec(s, steps) == Exec(Next(s, go), rest)
  {
    steps := [go] + rest;
    assert steps[1..] == rest;
  }

  // A time after which every row is past the retention window.
  function LongAfter(rows: seq<Row>): int {
    (if |rows| == 0 then 0 else rows[|rows| - 1].at) + CHANGES_RETENTION_MS + 1
  }

  lemma {:induction false} AllOld(rows: seq<Row>, since: int)
    requires Increasing(rows) && |rows| > 0 && rows[|rows| - 1].at < since
    ensures FirstAt(rows, since) == Head(rows) + 1
    decreases |rows|
  {
    if |rows| > 1 {
      assert rows[0].at <= rows[|rows| - 1].at;
      assert forall k :: 0 <= k < |rows[1..]| ==> rows[1..][k] == rows[k + 1];
      AllOld(rows[1..], since);
    }
  }

  lemma FloorDooms(s: System, c: Consumer, k: nat)
    requires Inv(s) && s.phase.HaveFloor? && Doomed(s, c, k)
    ensures Doomed(Next(s, Go(true, LongAfter(s.st.rows), 1)), c, k)
  {
    RowsIncrease(s.st);
    AllOld(s.st.rows, LongAfter(s.st.rows) - CHANGES_RETENTION_MS);
  }

  // Store calls of the prune before its first delete.
  function StepsLeft(phase: Phase): nat {
    match phase
    case Deleting(_, _) => 0
    case Ready(_, _) => 1
    case HaveCutoff(_, _, _) => 2
    case _ => 3
  }

  lemma {:induction false} DoomedIsLost(s: System, c: Consumer, k: nat, left: nat) returns (steps: seq<Step>)
    requires Inv(s) && Doomed(s, c, k)
    requires left == StepsLeft(s.phase)
    ensures HarmlessRun(s, steps) && !NothingLost(Exec(s, steps).st)
    decreases left
  {
    if s.phase.Deleting? {
      steps := DeletingLoses(s, c, k);
    } else {
      var go := Go(true, LongAfter(s.st.rows), 1);
      StepKeeps(s, go);
      if s.phase.HaveFloor? {
        FloorDooms(s, c, k);
      }
      var rest := DoomedIsLost(Next(s, go), c, k, left - 1);
      steps := GoThen(s, go, rest);
    }
  }

  /** From here on, over every run of harmless attaches, nothing is lost. */
  ghost predicate SafeEver(s: System) {
    forall steps {:trigger HarmlessRun(s, steps)} :: HarmlessRun(s, steps) ==> NothingLost(Exec(s, steps).st)
  }

  /**
   * An attach is safe whatever happens next if and only if the consumer has read every row below
   * what the prune under way may delete.
   */
  lemma AttachIsSafeIff(s: System, c: Consumer)
    requires Inv(s) && Fed(s) && Possible(s.st, Attach(c))
    ensures SafeEver(Next(s, Other(Attach(c)))) <==> Harmless(s, Other(Attach(c)))
  {
    var attach := Other(Attach(c));
    var next := Next(s, attach);
    StepKeeps(s, attach);
    if Harmless(s, attach) {
      StepFeeds(s, attach);
      forall steps | HarmlessRun(next, steps) ensures NothingLost(Exec(next, steps).st) {
        RunFeeds(next, steps);
      }
    } else {
      var k :| 0 <= k < |s.st.rows| && s.st.rows[k].pos < Candidate(s.phase) && s.st.rows[k].pos > AttachedAt(s.st, c);
      assert Doomed(next, c, k);
      var steps := DoomedIsLost(next, c, k, StepsLeft(next.phase));
      assert !SafeEver(next);
    }
  }

  /** The same, over whole runs from an unpruned log: somebody's harmful attach can lose a row. */
  lemma LateAttachLoses() returns (rows: seq<Row>, cursors: map<Consumer, nat>, steps: seq<Step>)
    ensures GoodLog(rows, cursors) && LegalRun(Unpruned(rows, cursors), steps)
    ensures !NothingLost(Exec(Unpruned(rows, cursors), steps).st)
  {
    rows, cursors := [Row(1, 0), Row(2, 0)], map[0 := 2, 1 := 0];
    IncreasingAppend([Row(1, 0)], Row(2, 0));
    assert rows == [Row(1, 0)] + [Row(2, 0)];
    var s := Unpruned(rows, cursors);
    UnprunedIsSafe(rows, cursors);
    var first, go, late := Other(Attach(0)), Go(true, 0, 1), Other(Attach(1));
    StepKeeps(s, first);
    var s1 := Next(s, first);
    assert s1.st.attached == [0] && s1.st.cursors == cursors;
    var rest := PruneWithLate(s1);
    steps := [first] + rest;
    assert steps[1..] == rest;
  }

  lemma PruneWithLate(s: System) returns (steps: seq<Step>)
    requires Inv(s) && s.phase.Idle? && s.st.attached == [0] && s.st.floor.None?
    requires s.st.rows == [Row(1, 0), Row(2, 0)] && s.st.cursors == map[0 := 2, 1 := 0]
    ensures LegalRun(s, steps) && !NothingLost(Exec(s, steps).st)
  {
    var go, late := Go(true, 0, 1), Other(Attach(1));
    assert s.st.attached[..0] == [];
    assert MinCursor(s.st.cursors, []) == None;
    assert MinCursor(s.st.cursors, s.st.attached) == Some(2);
    var s1 := Next(s, go);
    assert s1.phase == HaveFloor(2);
    StepKeeps(s, go);
    StepKeeps(s1, late);
    var s2 := Next(s1, late);
    assert Doomed(s2, 1, 0);
    var rest := DoomedIsLost(s2, 1, 0, 3);
    HarmlessIsLegal(s2, rest);
    var tail := [late] + rest;
    assert tail[1..] == rest;
    steps := [go] + tail;
    assert steps[1..] == tail;
    assert LegalRun(s1, tail) && Exec(s1, tail) == Exec(s2, rest);
  }

  lemma {:induction false} HarmlessIsLegal(s: System, steps: seq<Step>)
    requires HarmlessRun(s, steps)
    ensures LegalRun(s, steps)
    decreases |steps|
  {
    if |steps| > 0 {
      HarmlessIsLegal(Next(s, steps[0]), steps[1..]);
    }
  }

  // ---- The bisection behind firstChangeSeqAt -------------------------------------------------------------

  // SELECT … WHERE seq >= at ORDER BY seq LIMIT 1
  function FirstFrom(rows: seq<Row>, at: nat): (r: Option<Row>)
    ensures r.Some? ==> exists k :: 0 <= k < |rows| && rows[k] == r.value && at <= r.value.pos
                                    && forall j :: 0 <= j < k ==> rows[j].pos < at
    ensures r.None? <==> forall k :: 0 <= k < |rows| ==> rows[k].pos < at
  {
    if |rows| == 0 then None
    else if rows[0].pos >= at then Some(rows[0])
    else
      var r := FirstFrom(rows[1..], at);
      assert forall k :: 1 <= k < |rows| ==> rows[k] == rows[1..][k - 1];
      r
  }

  /** What firstChangeSeqAt promises: the first surviving row at or after `since`. */
  ghost predicate IsFirstAt(rows: seq<Row>, since: int, p: nat) {
    if |rows| == 0 then p == 1
    else if rows[|rows| - 1].at < since then p == rows[|rows| - 1].pos + 1
    else exists k :: 0 <= k < |rows| && rows[k].pos == p && rows[k].at >= since
                     && forall j :: 0 <= j < k ==> rows[j].at < since
  }

  lemma {:induction false} FirstAtIsFirst(rows: seq<Row>, since: int)
    requires Increasing(rows)
    ensures IsFirstAt(rows, since, FirstAt(rows, since))
    decreases |rows|
  {
    if |rows| > 1 && rows[0].at < since {
      FirstAtIsFirst(rows[1..], since);
      assert forall k :: 1 <= k < |rows| ==> rows[k] == rows[1..][k - 1];
      if rows[|rows| - 1].at >= since {
        var k :| 0 <= k < |rows| - 1 && rows[1..][k].pos == FirstAt(rows, since) && rows[1..][k].at >= since
                 && forall j :: 0 <= j < k ==> rows[1..][j].at < since;
        assert rows[k + 1].pos == FirstAt(rows, since);
        assert forall j :: 0 <= j < k + 1 ==> rows[j].at < since;
      }
    } else if |rows| > 0 {
      assert rows[0].at >= since ==> rows[|rows| - 1].at >= since;
    }
  }

  // The rows below `lo` are old, and the rows from `hi` on are not.
  ghost predicate Between(rows: seq<Row>, since: int, lo: nat, hi: nat) {
    && (forall k {:trigger rows[k]} :: 0 <= k < |rows| && rows[k].pos < lo ==> rows[k].at < since)
    && (forall k {:trigger rows[k]} :: 0 <= k < |rows| && rows[k].pos >= hi ==> rows[k].at >= since)
  }

  lemma {:induction false} FirstOfSplit(rows: seq<Row>, since: int, cut: nat)
    requires Increasing(rows) && |rows| > 0 && Between(rows, since, cut, cut)
    ensures FirstAt(rows, since) ==
            if FirstFrom(rows, cut).Some? then FirstFrom(rows, cut).value.pos else rows[|rows| - 1].pos + 1
    decreases |rows|
  {
    if |rows| > 1 && rows[0].at < since {
      assert forall k :: 1 <= k < |rows| ==> rows[k] == rows[1..][k - 1];
      FirstOfSplit(rows[1..], since, cut);
    }
  }

  /** The bisection over sequence numbers, gaps and all, finds the same row as the scan. */
  method FirstSeqAtOrAfter(rows: seq<Row>, since: int) returns (p: nat)
    requires Increasing(rows)
    ensures p == FirstAt(rows, since)
  {
    if |rows| == 0 { return 1; }
    var max: nat := rows[|rows| - 1].pos;
    var lo: nat, hi: nat := rows[0].pos, max + 1;
    while lo < hi
      invariant lo <= hi
      invariant Between(rows, since, lo, hi)
      decreases hi - lo
    {
      var mid := (lo + hi) / 2;
      var row := FirstFrom(rows, mid);
      Halve(rows, since, lo, hi, mid);
      if row.None? || row.value.at >= since {
        hi := mid;
      } else {
        lo := row.value.pos + 1;
      }
    }
    FirstOfSplit(rows, since, lo);
    var hit := FirstFrom(rows, lo);
    p := if hit.Some? then hit.value.pos else max + 1;
  }

  lemma Halve(rows: seq<Row>, since: int, lo: nat, hi: nat, mid: nat)
    requires Increasing(rows) && Between(rows, since, lo, hi) && lo <= mid < hi
    ensures var row := FirstFrom(rows, mid);
            if row.None? || row.value.at >= since then Between(rows, since, lo, mid)
            else Between(rows, since, row.value.pos + 1, hi) && row.value.pos < hi
  {
    var row := FirstFrom(rows, mid);
    if row.Some? {
      var k :| 0 <= k < |rows| && rows[k] == row.value && mid <= row.value.pos
               && forall j :: 0 <= j < k ==> rows[j].pos < mid;
      HalveAt(rows, since, lo, hi, mid, k);
    }
  }

  lemma HalveAt(rows: seq<Row>, since: int, lo: nat, hi: nat, mid: nat, k: nat)
    requires Increasing(rows) && Between(rows, since, lo, hi) && k < |rows| && mid <= rows[k].pos
    requires forall j {:trigger rows[j]} :: 0 <= j < k ==> rows[j].pos < mid
    ensures if rows[k].at >= since then Between(rows, since, lo, mid)
            else Between(rows, since, rows[k].pos + 1, hi) && rows[k].pos < hi
  {
    AroundRow(rows, k);
  }

  lemma AroundRow(rows: seq<Row>, k: nat)
    requires Increasing(rows) && k < |rows|
    ensures forall j {:trigger rows[j]} :: 0 <= j < k ==> rows[j].pos < rows[k].pos && rows[j].at <= rows[k].at
    ensures forall j {:trigger rows[j]} :: k < j < |rows| ==> rows[k].pos < rows[j].pos && rows[k].at <= rows[j].at
  {
  }
}
