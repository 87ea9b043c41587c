/**
 * pruneChangesOnce as it runs when nothing happens in between: the delete loop over a store
 * it updates, and the run of the step machine it amounts to.
 */
module ChangesStore {
  import opened Wrappers
  import opened ChangesPrune

  datatype PruneResult =
    | RekeyPending
    | NoConsumers
    | Pruned(limit: nat, deleted: nat, batches: nat)

  lemma {:induction false} RunThen(s: System, steps: seq<Step>, step: Step)
    requires LegalRun(s, steps) && Legal(Exec(s, steps), step)
    ensures LegalRun(s, steps + [step]) && Exec(s, steps + [step]) == Next(Exec(s, steps), step)
    decreases |steps|
  {
    if |steps| == 0 {
      assert Exec(Next(s, step), []) == Next(s, step);
      assert LegalRun(Next(s, step), []);
      assert ([step])[1..] == [];
      assert steps + [step] == [step];
    } else {
      assert (steps + [step])[1..] == steps[1..] + [step];
      RunThen(Next(s, steps[0]), steps[1..], step);
    }
  }

  // One window, then all the rest, is all of it.
  lemma {:induction false} WindowThenRest(rows: seq<Row>, limit: nat, batch: nat)
    ensures var n := CountBelow(rows, limit, batch);
            CountBelow(rows, limit, |rows|) == n + CountBelow(rows[n..], limit, |rows| - n)
    decreases |rows|
  {
    var n := CountBelow(rows, limit, batch);
    if n == 0 {
      assert rows[0..] == rows;
    } else {
      WindowThenRest(rows[1..], limit, batch - 1);
      assert rows[1..][n - 1..] == rows[n..];
    }
  }

  function Drained(st: ChangesPrune.Store, limit: nat): ChangesPrune.Store {
    DeleteBelow(st, limit, |st.rows|).0
  }

  lemma CutTwice(st: ChangesPrune.Store, n: nat, m: nat)
    requires n + m <= |st.rows|
    ensures Cut(Cut(st, n), m) == Cut(st, n + m)
  {
    assert st.rows[n..][m..] == st.rows[n + m..];
    assert (st.gone + st.rows[..n]) + st.rows[n..][..m] == st.gone + st.rows[..n + m];
  }

  lemma NothingDrained(st: ChangesPrune.Store, limit: nat, batch: nat)
    requires batch > 0 && CountBelow(st.rows, limit, batch) == 0
    ensures Drained(st, limit) == st && DeleteBelow(st, limit, batch).0 == st
  {
    CountedBelow(st.rows, limit, batch);
    assert st.rows[0..] == st.rows && st.gone + st.rows[..0] == st.gone;
  }

  lemma DrainedOnce(st: ChangesPrune.Store, limit: nat, batch: nat)
    ensures Drained(DeleteBelow(st, limit, batch).0, limit) == Drained(st, limit)
  {
    var n := CountBelow(st.rows, limit, batch);
    WindowThenRest(st.rows, limit, batch);
    CutTwice(st, n, CountBelow(st.rows[n..], limit, |st.rows| - n));
  }

  /** The delete loop, as a run: it ends, with exactly the rows below the limit gone. */
  lemma {:induction false} DrainRuns(st: ChangesPrune.Store, limit: nat, since: int, batch: nat)
    returns (steps: seq<Step>)
    requires batch > 0
    ensures LegalRun(System(st, Deleting(limit, since)), steps)
    ensures Exec(System(st, Deleting(limit, since)), steps) == System(Drained(st, limit), Idle)
    decreases |st.rows|
  {
    var s, go := System(st, Deleting(limit, since)), Go(true, 0, batch);
    var (next, n) := DeleteBelow(st, limit, batch);
    DrainedOnce(st, limit, batch);
    WindowNext(st, limit, since, batch);
    if n == 0 {
      NothingDrained(st, limit, batch);
      steps := FirstThen(s, go, []);
    } else {
      var rest := DrainRuns(next, limit, since, batch);
      steps := FirstThen(s, go, rest);
    }
  }

  lemma WindowNext(st: ChangesPrune.Store, limit: nat, since: int, batch: nat)
    ensures var (next, n) := DeleteBelow(st, limit, batch);
            Next(System(st, Deleting(limit, since)), Go(true, 0, batch)) ==
            System(next, if n == 0 then Idle else Deleting(limit, since)) && |next.rows| == |st.rows| - n
  {
  }

  lemma FirstThen(s: System, step: Step, rest: seq<Step>) returns (steps: seq<Step>)
    requires Legal(s, step) && LegalRun(Next(s, step), rest)
    ensures LegalRun(s, steps) && Exec(s, steps) == Exec(Next(s, step), rest)
  {
    steps := [step] + rest;
    assert steps[1..] == rest;
  }

  class Store {
    var state: ChangesPrune.Store

    constructor (state: ChangesPrune.Store)
      ensures this.state == state
    {
      this.state := state;
    }

    // The lowest existing rows below the limit, one window of them.
    method DeleteChangesBelow(limit: nat, batch: nat) returns (n: nat)
      modifies this
      ensures state == DeleteBelow(old(state), limit, batch).0
      ensures n == CountBelow(old(state.rows), limit, batch)
    {
      n := CountBelow(state.rows, limit, batch);
      state := DeleteBelow(state, limit, batch).0;
    }

    method DeleteAll(limit: nat, batch: nat) returns (deleted: nat, batches: nat)
      requires batch > 0
      modifies this
      ensures state == Drained(old(state), limit)
      ensures deleted == CountBelow(old(state.rows), limit, |old(state.rows)|)
      ensures batches <= deleted
    {
      deleted, batches := 0, 0;
      while true
        invariant batches <= deleted
        invariant Drained(state, limit) == Drained(old(state), limit)
        invariant deleted + |state.rows| == |old(state.rows)|
        decreases |state.rows|
      {
        DrainedOnce(state, limit, batch);
        if CountBelow(state.rows, limit, batch) == 0 {
          NothingDrained(state, limit, batch);
        }
        var n := DeleteChangesBelow(limit, batch);
        if n == 0 { break; }
        deleted := deleted + n;
        batches := batches + 1;
      }
    }

    /**
     * Uninterrupted, a prune deletes exactly the rows below its limit; as a run of the step
     * machine it is legal, so everything proved of runs holds of it.
     */
    method PruneChangesOnce(rekeyed: bool, now: int, batch: nat) returns (r: PruneResult, ghost steps: seq<Step>)
      requires batch > 0 && StoreOk(state)
      modifies this
      ensures LegalRun(System(old(state), Idle), steps) && Exec(System(old(state), Idle), steps) == System(state, Idle)
      ensures r.RekeyPending? <==> !rekeyed
      ensures r.NoConsumers? <==> rekeyed && MinCursor(old(state.cursors), old(state.attached)).None?
      ensures !r.Pruned? ==> state == old(state)
      ensures r.Pruned? ==>
                && state == Drained(PublishFloor(old(state), r.limit), r.limit)
                && r.limit == Min(Min(MinCursor(old(state.cursors), old(state.attached)).value,
                                      FirstAt(old(state.rows), now - CHANGES_RETENTION_MS)),
                                  Head(old(state.rows)))
                && r.deleted == CountBelow(old(state.rows), r.limit, |old(state.rows)|)
                && r.batches <= r.deleted
    {
      steps := [];
      if !rekeyed { return RekeyPending, steps; }
      var floor := MinCursor(state.cursors, state.attached);
      if floor.None? { return NoConsumers, steps; }
      var since := now - CHANGES_RETENTION_MS;
      RowsIncrease(state);
      var cutoff := FirstSeqAtOrAfter(state.rows, since);
      var limit := Min(Min(floor.value, cutoff), Head(state.rows));
      steps := PruneRuns(state, now, batch, limit);
      state := PublishFloor(state, limit);
      var deleted, batches := DeleteAll(limit, batch);
      r := Pruned(limit, deleted, batches);
    }
  }

  lemma PruneRuns(st: ChangesPrune.Store, now: int, batch: nat, limit: nat) returns (steps: seq<Step>)
    requires batch > 0 && MinCursor(st.cursors, st.attached).Some?
    requires limit == Min(Min(MinCursor(st.cursors, st.attached).value, FirstAt(st.rows, now - CHANGES_RETENTION_MS)),
                          Head(st.rows))
    ensures LegalRun(System(st, Idle), steps)
    ensures Exec(System(st, Idle), steps) == System(Drained(PublishFloor(st, limit), limit), Idle)
  {
    var since := now - CHANGES_RETENTION_MS;
    var first := PreludeRuns(System(st, Idle), Go(true, now, batch), MinCursor(st.cursors, st.attached).value,
                             FirstAt(st.rows, since), since, limit);
    var rest := DrainRuns(PublishFloor(st, limit), limit, since, batch);
    RunsCompose(System(st, Idle), first, rest);
    steps := first + rest;
  }

  /** What is drained: exactly the rows below the limit, since the log is in order. */
  lemma DrainedIsExact(st: ChangesPrune.Store, limit: nat)
    requires StoreOk(st)
    ensures forall row :: row in Drained(st, limit).rows <==> row in st.rows && row.pos >= limit
  {
    RowsIncrease(st);
    var n := CountBelow(st.rows, limit, |st.rows|);
    CountedBelow(st.rows, limit, |st.rows|);
    RestIsAtLeast(st.rows, n, limit);
    SplitMembers(st.rows, n);
  }

  // The rows below the first young one are the old ones.
  lemma {:induction false} OldIff(rows: seq<Row>, since: int, k: nat)
    requires Increasing(rows) && k < |rows|
    ensures rows[k].pos < FirstAt(rows, since) <==> rows[k].at < since
    decreases |rows|
  {
    FirstAtBound(rows, since);
    if |rows| > 1 && rows[0].at < since && rows[k].at < since {
      if k > 0 {
        OldIff(rows[1..], since, k - 1);
      } else {
        OldIff(rows[1..], since, 0);
      }
    }
  }

  // Read by every attached consumer the store has a cursor of, and not where one of them is.
  ghost predicate PastAll(st: ChangesPrune.Store, pos: nat) {
    forall c :: c in st.attached && c in st.cursors ==> pos < st.cursors[c]
  }

  /**
   * In plain terms: an uninterrupted prune takes a row exactly when it is more than 48 hours
   * old, every attached consumer is past it, and it is not the last one.
   */
  lemma PruneIsExact(st: ChangesPrune.Store, now: int, limit: nat, k: nat)
    requires StoreOk(st) && k < |st.rows| && MinCursor(st.cursors, st.attached).Some?
    requires limit == Min(Min(MinCursor(st.cursors, st.attached).value, FirstAt(st.rows, now - CHANGES_RETENTION_MS)),
                          Head(st.rows))
    ensures var row := st.rows[k];
            row in Drained(PublishFloor(st, limit), limit).rows <==>
            !(row.at < now - 172800000 && PastAll(st, row.pos) && k < |st.rows| - 1)
  {
    var row := st.rows[k];
    RowsIncrease(st);
    DrainedIsExact(st, limit);
    OldIff(st.rows, now - CHANGES_RETENTION_MS, k);
    assert row.pos < MinCursor(st.cursors, st.attached).value <==> PastAll(st, row.pos);
    assert row.pos < Head(st.rows) <==> k < |st.rows| - 1;
  }

  /**
   * A finished prune loses a consumer nothing exactly when it had read every row below the
   * limit, whatever its cursor is to the floor published.
   */
  lemma DrainedKeepsIff(st: ChangesPrune.Store, limit: nat, c: Consumer)
    requires StoreOk(st) && Keeps(st, c)
    ensures Keeps(Drained(PublishFloor(st, limit), limit), c) <==> ReadBelow(st.rows, st.cursors[c], limit)
  {
    var n := CountBelow(st.rows, limit, |st.rows|);
    RowsIncrease(st);
    CountedBelow(st.rows, limit, |st.rows|);
    DrainedReads(st.rows, n, st.cursors[c], limit);
    ReadJoin(st.gone, st.rows[..n], st.cursors[c]);
  }

  lemma ReadJoin(a: seq<Row>, b: seq<Row>, cursor: nat)
    ensures ReadAll(a + b, cursor) <==> ReadAll(a, cursor) && ReadAll(b, cursor)
  {
    if ReadAll(a + b, cursor) {
      assert forall k :: 0 <= k < |a| ==> (a + b)[k] == a[k];
      assert forall k :: 0 <= k < |b| ==> (a + b)[|a| + k] == b[k];
    }
  }

  lemma DrainedReads(rows: seq<Row>, n: nat, cursor: nat, limit: nat)
    requires Increasing(rows) && n <= |rows| && (n < |rows| ==> rows[n].pos >= limit)
    requires forall k :: 0 <= k < n ==> rows[k].pos < limit
    ensures ReadAll(rows[..n], cursor) <==> ReadBelow(rows, cursor, limit)
  {
    if n < |rows| {
      AroundRow(rows, n);
    }
    assert forall k :: 0 <= k < n ==> rows[..n][k] == rows[k];
  }

  lemma SplitMembers(rows: seq<Row>, n: nat)
    requires n <= |rows|
    ensures forall row :: row in rows <==> row in rows[..n] || row in rows[n..]
  {
    assert rows == rows[..n] + rows[n..];
  }

  lemma RestIsAtLeast(rows: seq<Row>, n: nat, limit: nat)
    requires Increasing(rows) && n <= |rows| && (n < |rows| ==> rows[n].pos >= limit)
    requires forall k :: 0 <= k < n ==> rows[k].pos < limit
    ensures forall row :: row in rows[n..] ==> row.pos >= limit
    ensures forall row :: row in rows[..n] ==> row.pos < limit
  {
    forall k | n <= k < |rows| ensures rows[k].pos >= limit {
      assert k > n ==> rows[n].pos < rows[k].pos;
    }
  }

  // The four steps up to the published floor.
  lemma PreludeRuns(s: System, go: Step, floor: nat, cutoff: nat, since: int, limit: nat) returns (steps: seq<Step>)
    requires s.phase.Idle? && go.Go? && go.rekeyed && go.batch > 0
    requires MinCursor(s.st.cursors, s.st.attached) == Some(floor) && since == go.now - CHANGES_RETENTION_MS
    requires cutoff == FirstAt(s.st.rows, since) && limit == Min(Min(floor, cutoff), Head(s.st.rows))
    ensures LegalRun(s, steps) && Exec(s, steps) == System(PublishFloor(s.st, limit), Deleting(limit, since))
  {
    steps := [];
    RunThen(s, steps, go);
    steps := steps + [go];
    RunThen(s, steps, go);
    steps := steps + [go];
    RunThen(s, steps, go);
    steps := steps + [go];
    RunThen(s, steps, go);
    steps := steps + [go];
  }

  lemma {:induction false} RunsCompose(s: System, a: seq<Step>, b: seq<Step>)
    requires LegalRun(s, a) && LegalRun(Exec(s, a), b)
    ensures LegalRun(s, a + b) && Exec(s, a + b) == Exec(Exec(s, a), b)
    decreases |a|
  {
    if |a| == 0 {
      assert a + b == b;
    } else {
      assert (a + b)[1..] == a[1..] + b;
      RunsCompose(Next(s, a[0]), a[1..], b);
    }
  }
}
