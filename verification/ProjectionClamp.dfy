/**
 * The clamp at zero does fire: runs from an empty store in which an account is removed after the
 * main feed read its rows and before it applies them.
 */
module ProjectionClamp {
  import opened ProjectionSpec
  import opened ProjectionProofs

  lemma {:induction false} RunThen(s: System, steps: seq<Step>, step: Step)
    requires EnabledRun(s, steps) && Enabled(Exec(s, steps), step)
    ensures EnabledRun(s, steps + [step]) && Exec(s, steps + [step]) == Next(Exec(s, steps), step)
    decreases |steps|
  {
    if |steps| == 0 {
      assert steps + [step] == [step] && [step][1..] == [];
      assert EnabledRun(Next(s, step), []) && Exec(Next(s, step), []) == Next(s, step);
    } else {
      assert (steps + [step])[1..] == steps[1..] + [step];
      RunThen(Next(s, steps[0]), steps[1..], step);
    }
  }

  // Document 7 of account 0, inserted by row 1 and archived.
  const GONE := Document(0, 1, true)

  // Account 0 gains document 7, account 1 follows, account 0 is touched and document 7 archived.
  const LOG: seq<Row> := [AccountRow(0), DocumentRow(7), AccountRow(1), AccountRow(0), DocumentRow(7)]

  function Rows(): Fetched {
    map[0 := [AccountChange(0)], 1 := [DocumentChange(1, 7, GONE)], 2 := [AccountChange(1)],
        3 := [AccountChange(0)], 4 := [DocumentChange(4, 7, GONE)]]
  }

  const NOTHING := State(map[], map[])

  // The store so far; nothing is read yet.
  lemma StoreFills() returns (steps: seq<Step>)
    ensures EnabledRun(NewSystem(), steps)
    ensures Exec(NewSystem(), steps) ==
            System(World(map[7 := GONE], {0, 1}, LOG, {7}, {0, 1}), 0, 0, 0, NOTHING, map[], map[])
  {
    var s := NewSystem();
    steps := [];
    RunThen(s, steps, AddAccount(0));
    steps := steps + [AddAccount(0)];
    RunThen(s, steps, Insert(7, 0));
    steps := steps + [Insert(7, 0)];
    RunThen(s, steps, AddAccount(1));
    steps := steps + [AddAccount(1)];
    RunThen(s, steps, TouchAccount(0));
    steps := steps + [TouchAccount(0)];
    RunThen(s, steps, Write(7, true));
    steps := steps + [Write(7, true)];
  }

  const FULL := World(map[7 := GONE], {0, 1}, LOG, {7}, {0, 1})

  // The same store after account 0 is removed with its document.
  const REMOVED := World(map[], {1}, LOG + [AccountRemovedRow(0)], {7}, {0, 1})

  lemma RunOn(start: System, steps: seq<Step>, s: System, step: Step, next: System) returns (more: seq<Step>)
    requires EnabledRun(start, steps) && Exec(start, steps) == s && Enabled(s, step) && Next(s, step) == next
    ensures EnabledRun(start, more) && Exec(start, more) == next
  {
    RunThen(start, steps, step);
    more := steps + [step];
  }

  const TWO: Fetched := map[0 := [AccountChange(0)], 1 := [DocumentChange(1, 7, GONE)]]
  const FOUR: Fetched := TWO[2 := [AccountChange(1)]][3 := [AccountChange(0)]]

  lemma MainReadsTwo() returns (steps: seq<Step>)
    ensures EnabledRun(NewSystem(), steps)
    ensures Exec(NewSystem(), steps) == System(FULL, 0, 0, 0, NOTHING, map[], TWO)
  {
    var s0, one := NewSystem(), map[0 := [AccountChange(0)]];
    var s := System(FULL, 0, 0, 0, NOTHING, map[], map[]);
    steps := StoreFills();
    steps := RunOn(s0, steps, s, Fetch(0), s.(mainRows := one));
    steps := RunOn(s0, steps, s.(mainRows := one), Fetch(1), s.(mainRows := TWO));
  }

  lemma MainReadsFour() returns (steps: seq<Step>)
    ensures EnabledRun(NewSystem(), steps)
    ensures Exec(NewSystem(), steps) == System(FULL, 0, 0, 0, NOTHING, map[], FOUR)
  {
    var s0, three := NewSystem(), TWO[2 := [AccountChange(1)]];
    var s := System(FULL, 0, 0, 0, NOTHING, map[], TWO);
    steps := MainReadsTwo();
    steps := RunOn(s0, steps, s, Fetch(2), s.(mainRows := three));
    steps := RunOn(s0, steps, s.(mainRows := three), Fetch(3), s.(mainRows := FOUR));
  }

  // The main feed reads all five rows, in order, and then the account goes.
  lemma MainReadsAll() returns (steps: seq<Step>)
    ensures EnabledRun(NewSystem(), steps)
    ensures Exec(NewSystem(), steps) == System(REMOVED, 0, 0, 0, NOTHING, map[], Rows())
  {
    var s0 := NewSystem();
    var s := System(FULL, 0, 0, 0, NOTHING, map[], FOUR);
    steps := MainReadsFour();
    assert FOUR[4 := [DocumentChange(4, 7, GONE)]] == Rows();
    steps := RunOn(s0, steps, s, Fetch(4), s.(mainRows := Rows()));
    assert NextWorld(FULL, RemoveAccount(0)) == REMOVED;
    steps := RunOn(s0, steps, s.(mainRows := Rows()), RemoveAccount(0), s.(w := REMOVED, mainRows := Rows()));
  }

  // The lead finds account 0 gone, and adds account 1.
  lemma LeadPassesIt() returns (steps: seq<Step>)
    ensures EnabledRun(NewSystem(), steps)
    ensures Exec(NewSystem(), steps) == System(REMOVED, 3, 3, 0, State(map[1 := 0], map[]), map[], Rows())
  {
    var s0 := NewSystem();
    steps := MainReadsAll();
    var s := System(REMOVED, 0, 0, 0, NOTHING, map[], Rows());
    var l0 := map[0 := []];
    var l1 := l0[2 := [AccountChange(1)]];
    var l2 := map[2 := [AccountChange(1)]];
    assert l1 - {0} == l2 && l2 - {2} == map[];
    ApplySingle(NOTHING, AccountChange(1));
    steps := RunOn(s0, steps, s, LeadFetch(0), s.(leadRows := l0));
    steps := RunOn(s0, steps, s.(leadRows := l0), LeadFetch(2), s.(leadRows := l1));
    steps := RunOn(s0, steps, s.(leadRows := l1), LeadRead, s.(lead := 1, leadRows := l2));
    steps := RunOn(s0, steps, s.(lead := 1, leadRows := l2), LeadRead, s.(lead := 2, leadRows := l2));
    steps := RunOn(s0, steps, s.(lead := 2, leadRows := l2), LeadRead,
                   s.(lead := 3, mark := 3, leadRows := map[], state := State(map[1 := 0], map[])));
  }

  const ONE := State(map[1 := 0], map[])

  // The main feed leaves out two account rows, and skips the insert row of an account not shown.
  lemma MainLeavesThree() returns (steps: seq<Step>)
    ensures EnabledRun(NewSystem(), steps)
    ensures Exec(NewSystem(), steps) ==
            System(REMOVED, 3, 3, 3, ONE, map[], map[3 := [AccountChange(0)], 4 := [DocumentChange(4, 7, GONE)]])
  {
    var s0 := NewSystem();
    steps := LeadPassesIt();
    var s := System(REMOVED, 3, 3, 0, ONE, map[], Rows());
    var m1, m2, m3 := Rows() - {0}, Rows() - {0, 1}, map[3 := [AccountChange(0)], 4 := [DocumentChange(4, 7, GONE)]];
    assert m1 - {1} == m2 && m2 - {2} == m3;
    ApplySingle(ONE, DocumentChange(1, 7, GONE));
    steps := RunOn(s0, steps, s, Read, s.(cursor := 1, mainRows := m1));
    steps := RunOn(s0, steps, s.(cursor := 1, mainRows := m1), Read, s.(cursor := 2, mainRows := m2));
    steps := RunOn(s0, steps, s.(cursor := 2, mainRows := m2), Read, s.(cursor := 3, mainRows := m3));
  }

  // The account's second row, read before it was removed, adds it again with no document.
  lemma MainAddsAgain() returns (steps: seq<Step>)
    ensures EnabledRun(NewSystem(), steps)
    ensures Exec(NewSystem(), steps) ==
            System(REMOVED, 3, 3, 4, State(map[0 := 0, 1 := 0], map[]), map[], map[4 := [DocumentChange(4, 7, GONE)]])
  {
    steps := MainLeavesThree();
    var rows := map[3 := [AccountChange(0)], 4 := [DocumentChange(4, 7, GONE)]];
    var last := map[4 := [DocumentChange(4, 7, GONE)]];
    assert rows - {3} == last;
    ApplySingle(ONE, AccountChange(0));
    assert ONE.counts[0 := 0] == map[0 := 0, 1 := 0];
    steps := RunOn(NewSystem(), steps, System(REMOVED, 3, 3, 3, ONE, map[], rows), Read,
                   System(REMOVED, 3, 3, 4, State(map[0 := 0, 1 := 0], map[]), map[], last));
  }

  /**
   * Both feeds read their rows in order, and yet the clamp fires: the lead passed the account's
   * first row without adding it and the main feed left it out, so the insert row was skipped; the
   * account's second row added it empty; and the archived row after that takes one from nothing.
   */
  lemma ClampFires() returns (steps: seq<Step>)
    ensures EnabledRun(NewSystem(), steps)
    ensures var s, c := Exec(NewSystem(), steps), DocumentChange(4, 7, GONE);
            Enabled(s, Read) && s.mainRows[s.cursor] == [c] && Clamps(s, c)
  {
    steps := MainAddsAgain();
  }
}
