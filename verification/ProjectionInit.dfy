/**
 * How a projection starts: the lead's head, the account list, one snapshot per account and
 * the main feed's head, each read at its own time while the store goes on changing.
 */
module ProjectionInit {
  import opened Wrappers
  import opened ProjectionSpec
  import opened ProjectionProofs

  // archiveSnapshot: of the live documents only the number is kept.
  datatype Snapshot = Snapshot(live: set<DocumentId>, archived: set<DocumentId>)

  datatype Init = Init(w: World, leadFrom: nat, listed: Option<set<AccountId>>, snaps: map<AccountId, Snapshot>)

  datatype InitStep = Store(step: Step) | List | Snap(account: AccountId)

  function Begin(w: World): Init {
    Init(w, |w.log|, None, map[])
  }

  // Nothing has been read yet: a purge is due only to a document at rest since before the start.
  predicate InitEnabled(i: Init, step: InitStep) {
    match step
    case Store(step) => StoreStep(step) && StoreEnabled(i.w, i.leadFrom, step)
    case List => i.listed.None?
    case Snap(account) => i.listed.Some? && account in i.listed.value && account !in i.snaps
  }

  ghost function InitNext(i: Init, step: InitStep): Init
    requires InitEnabled(i, step)
  {
    match step
    case Store(step) => i.(w := NextWorld(i.w, step))
    case List => i.(listed := Some(i.w.accounts))
    case Snap(account) =>
      i.(snaps := i.snaps[account := Snapshot(LiveDocs(i.w, account), ArchivedDocs(i.w, account))])
  }

  ghost predicate InitRun(i: Init, steps: seq<InitStep>)
    decreases |steps|
  {
    |steps| == 0 || (InitEnabled(i, steps[0]) && InitRun(InitNext(i, steps[0]), steps[1..]))
  }

  ghost function InitExec(i: Init, steps: seq<InitStep>): Init
    requires InitRun(i, steps)
    decreases |steps|
  {
    if |steps| == 0 then i else InitExec(InitNext(i, steps[0]), steps[1..])
  }

  predicate Done(i: Init) {
    i.listed.Some? && i.snaps.Keys == i.listed.value
  }

  // The state shown first, with the main feed at the head read after init.
  ghost function Start(i: Init): System {
    System(i.w, i.leadFrom, i.leadFrom, |i.w.log|,
           State(map account | account in i.snaps :: |i.snaps[account].live|,
                 map account | account in i.snaps :: i.snaps[account].archived),
           map[], map[])
  }

  // ---- What an init keeps ---------------------------------------------------------------

  /** The documents live at the snapshot are still there; those archived since were logged so. */
  ghost predicate SnapKept(w: World, leadFrom: nat, account: AccountId, snap: Snapshot) {
    && snap.live !! snap.archived
    && forall id {:trigger id in snap.live} :: id in snap.live && account in w.accounts ==>
         id in w.docs && w.docs[id].account == account &&
         (w.docs[id].archived ==> Unread(w.log, leadFrom, DocumentRow(id)))
  }

  ghost predicate SnapsKept(i: Init) {
    forall account {:trigger account in i.snaps} :: account in i.snaps ==>
      account in i.w.usedAccounts && SnapKept(i.w, i.leadFrom, account, i.snaps[account])
  }

  // An account listed and gone has its removal ahead of the lead.
  ghost predicate ListedKept(i: Init) {
    i.listed.Some? ==>
      i.snaps.Keys <= i.listed.value <= i.w.usedAccounts &&
      forall account {:trigger account in i.listed.value} :: account in i.listed.value && account !in i.w.accounts ==>
        Unread(i.w.log, i.leadFrom, AccountRemovedRow(account))
  }

  ghost predicate InitOk(i: Init) {
    StoreOk(i.w) && i.leadFrom <= |i.w.log| && SnapsKept(i) && ListedKept(i) && (i.listed.None? ==> i.snaps == map[])
  }

  // A store step takes a document from an account that stays only by a purge, and changes it
  // only by a logged write.
  lemma StoreStepDocs(w: World, leadFrom: nat, step: Step, id: DocumentId)
    requires StoreOk(w) && StoreStep(step) && StoreEnabled(w, leadFrom, step) && leadFrom <= |w.log| && id in w.docs
    ensures var w' := NextWorld(w, step);
            && w.log < w'.log
            && (id !in w'.docs ==>
                  w.docs[id].account !in w'.accounts ||
                  (w.docs[id].archived && !Unread(w.log, leadFrom, DocumentRow(id))))
            && (id in w'.docs ==> w'.docs[id].account == w.docs[id].account)
            && (id in w'.docs ==> w'.docs[id] == w.docs[id] || w'.log == w.log + [DocumentRow(id)])
  {
  }

  lemma StoreKeepsSnap(w: World, leadFrom: nat, step: Step, account: AccountId, snap: Snapshot)
    requires StoreOk(w) && StoreStep(step) && StoreEnabled(w, leadFrom, step) && leadFrom <= |w.log|
    requires account in w.usedAccounts && SnapKept(w, leadFrom, account, snap)
    ensures SnapKept(NextWorld(w, step), leadFrom, account, snap)
  {
    var w' := NextWorld(w, step);
    UnreadMore(w.log, leadFrom, w'.log[|w.log|]);
    forall id | id in snap.live && account in w'.accounts
      ensures id in w'.docs && w'.docs[id].account == account &&
              (w'.docs[id].archived ==> Unread(w'.log, leadFrom, DocumentRow(id)))
    {
      StoreStepDocs(w, leadFrom, step, id);
    }
  }

  lemma StoreKeepsListed(i: Init, step: Step)
    requires InitOk(i) && InitEnabled(i, Store(step))
    ensures ListedKept(InitNext(i, Store(step)))
  {
    var w' := NextWorld(i.w, step);
    UnreadMore(i.w.log, i.leadFrom, w'.log[|i.w.log|]);
  }

  lemma InitStepKeeps(i: Init, step: InitStep)
    requires InitOk(i) && InitEnabled(i, step)
    ensures InitOk(InitNext(i, step))
  {
    match step
    case Store(step) =>
      StoreStepOk(System(i.w, i.leadFrom, i.leadFrom, i.leadFrom, State(map[], map[]), map[], map[]), step);
      StoreKeepsListed(i, step);
      forall account | account in i.snaps
        ensures SnapKept(NextWorld(i.w, step), i.leadFrom, account, i.snaps[account])
      {
        StoreKeepsSnap(i.w, i.leadFrom, step, account, i.snaps[account]);
      }
    case List =>
    case Snap(account) => SnapIsKept(i, account);
  }

  lemma SnapIsKept(i: Init, account: AccountId)
    requires InitOk(i) && InitEnabled(i, Snap(account))
    ensures InitOk(InitNext(i, Snap(account)))
  {
    var snap := Snapshot(LiveDocs(i.w, account), ArchivedDocs(i.w, account));
    assert SnapKept(i.w, i.leadFrom, account, snap);
  }

  lemma {:induction false} InitRunKeeps(i: Init, steps: seq<InitStep>)
    requires InitOk(i) && InitRun(i, steps)
    ensures InitOk(InitExec(i, steps))
    decreases |steps|
  {
    if |steps| > 0 {
      InitStepKeeps(i, steps[0]);
      InitRunKeeps(InitNext(i, steps[0]), steps[1..]);
    }
  }

  // ---- When a start is right -----------------------------------------------------------------

  /** Every account at the head was listed, and its documents are as its snapshot found them. */
  ghost predicate Unchanged(i: Init) {
    forall account {:trigger account in i.w.accounts} :: account in i.w.accounts ==>
      account in i.snaps && i.snaps[account] == Snapshot(LiveDocs(i.w, account), ArchivedDocs(i.w, account))
  }

  /** However the store and the two feeds go on, whenever both are caught up the state is a recount. */
  ghost predicate AlwaysExact(s: System) {
    forall steps {:trigger EnabledRun(s, steps)} :: EnabledRun(s, steps) && CaughtUp(Exec(s, steps)) ==>
      Exact(Exec(s, steps))
  }

  lemma StartAccount(i: Init, account: AccountId)
    requires InitOk(i) && Done(i) && account in i.w.accounts && account in i.snaps
    requires i.snaps[account] == Snapshot(LiveDocs(i.w, account), ArchivedDocs(i.w, account))
    ensures AccountOk(i.w, |i.w.log|, Start(i).state, account)
  {
    AllSeen(i.w, account);
    assert (LiveDocs(i.w, account) + ArchivedDocs(i.w, account)) - ArchivedDocs(i.w, account) == LiveDocs(i.w, account);
  }

  lemma StartIsRight(i: Init)
    requires InitOk(i) && Done(i) && Unchanged(i)
    ensures Inv(Start(i))
  {
    forall account | account in i.w.accounts ensures AccountOk(i.w, |i.w.log|, Start(i).state, account) {
      StartAccount(i, account);
    }
  }

  // An account's entry, an absent one being empty.
  function CountOf(state: State, account: AccountId): int {
    if account in state.counts then state.counts[account] else 0
  }

  // The lead reads and applies its next row.
  function LeadTurn(s: System): System
    requires s.lead < |s.w.log| && s.leadRows == map[]
  {
    if LeadKind(s.w.log[s.lead]) then Next(Next(s, LeadFetch(s.lead)), LeadRead) else Next(s, LeadRead)
  }

  lemma LeadReadEntry(s: System, account: AccountId)
    requires StoreOk(s.w) && s.lead < |s.w.log| && s.leadRows == map[] && account in s.w.accounts
    ensures var r := LeadTurn(s);
            r.w == s.w && r.cursor == s.cursor && r.lead == s.lead + 1 && r.leadRows == map[] &&
            CountOf(r.state, account) == CountOf(s.state, account)
            && ArchivedOf(r.state.archived, account) == ArchivedOf(s.state.archived, account)
  {
    if LeadKind(s.w.log[s.lead]) {
      FetchIsCurrent(s.w, s.lead);
      CurrentApplies(s.w, s.state, s.lead, Materialize(s.w, s.lead));
      assert map[s.lead := Materialize(s.w, s.lead)] - {s.lead} == map[];
    }
  }

  lemma LeadTurnRuns(s: System, rest: seq<Step>) returns (steps: seq<Step>)
    requires s.lead < |s.w.log| && s.leadRows == map[] && EnabledRun(LeadTurn(s), rest)
    ensures EnabledRun(s, steps) && Exec(s, steps) == Exec(LeadTurn(s), rest)
  {
    steps := [LeadRead] + rest;
    assert steps[1..] == rest;
    if LeadKind(s.w.log[s.lead]) {
      var fetched := Next(s, LeadFetch(s.lead));
      assert EnabledRun(fetched, steps) && Exec(fetched, steps) == Exec(LeadTurn(s), rest);
      var more := [LeadFetch(s.lead)] + steps;
      assert more[1..] == steps;
      steps := more;
    }
  }

  // The lead on its own: it catches up, and no entry of an account changes.
  lemma {:induction false} LeadCatchesUp(s: System) returns (steps: seq<Step>)
    requires StoreOk(s.w) && s.lead <= |s.w.log| && s.leadRows == map[]
    ensures EnabledRun(s, steps)
    ensures var r := Exec(s, steps);
            r.w == s.w && r.cursor == s.cursor && r.lead == |s.w.log| && SameEntries(s, r)
    decreases |s.w.log| - s.lead
  {
    steps := [];
    if s.lead < |s.w.log| {
      var next := LeadTurn(s);
      LeadTurnSame(s);
      var rest := LeadCatchesUp(next);
      steps := LeadTurnRuns(s, rest);
    }
  }

  // No account that is there shows anything else.
  ghost predicate SameEntries(s: System, r: System) {
    forall account {:trigger account in s.w.accounts} :: account in s.w.accounts ==>
      CountOf(r.state, account) == CountOf(s.state, account)
      && ArchivedOf(r.state.archived, account) == ArchivedOf(s.state.archived, account)
  }

  lemma LeadTurnSame(s: System)
    requires StoreOk(s.w) && s.lead < |s.w.log| && s.leadRows == map[]
    ensures var r := LeadTurn(s);
            r.w == s.w && r.cursor == s.cursor && r.lead == s.lead + 1 && r.leadRows == map[] && SameEntries(s, r)
  {
    if LeadKind(s.w.log[s.lead]) {
      assert map[s.lead := Materialize(s.w, s.lead)] - {s.lead} == map[];
    }
    forall account | account in s.w.accounts
      ensures CountOf(LeadTurn(s).state, account) == CountOf(s.state, account)
              && ArchivedOf(LeadTurn(s).state.archived, account) == ArchivedOf(s.state.archived, account)
    {
      LeadReadEntry(s, account);
    }
  }

  // As many live documents and the same archived ones: then the same live ones.
  lemma SameSets(w: World, leadFrom: nat, account: AccountId, snap: Snapshot)
    requires account in w.accounts && SnapKept(w, leadFrom, account, snap)
    requires |snap.live| == |LiveDocs(w, account)| && snap.archived == ArchivedDocs(w, account)
    ensures snap.live == LiveDocs(w, account)
  {
    var live := LiveDocs(w, account);
    assert snap.live <= live;
    assert |live - snap.live| == |live| - |snap.live|;
  }

  lemma ExactListed(i: Init, account: AccountId)
    requires InitOk(i) && Done(i) && AlwaysExact(Start(i)) && account in i.w.accounts && account in i.snaps
    ensures i.snaps[account] == Snapshot(LiveDocs(i.w, account), ArchivedDocs(i.w, account))
  {
    var s := Start(i);
    var steps := LeadCatchesUp(s);
    assert EnabledRun(s, steps) && CaughtUp(Exec(s, steps));
    assert Exact(Exec(s, steps));
    assert account in Recount(i.w).counts;
    SameSets(i.w, i.leadFrom, account, i.snaps[account]);
  }

  lemma {:induction false} FreshId(ids: set<nat>) returns (id: nat)
    ensures forall x :: x in ids ==> x < id
  {
    if ids == {} {
      id := 0;
    } else {
      var x :| x in ids;
      id := FreshId(ids - {x});
      id := if x < id then id else x + 1;
      assert ids == (ids - {x}) + {x};
    }
  }

  // A document inserted into an account the start does not show: the main feed gets there first.
  lemma UnlistedLoses(i: Init, account: AccountId) returns (steps: seq<Step>)
    requires InitOk(i) && Done(i) && account in i.w.accounts && account !in i.snaps
    ensures EnabledRun(Start(i), steps)
    ensures var r := Exec(Start(i), steps);
            CaughtUp(r) && account in r.w.accounts && LiveDocs(r.w, account) != {} && CountOf(r.state, account) == 0
  {
    var s := Start(i);
    var id := FreshId(i.w.usedDocs);
    var insert, fetch := Insert(id, account), Fetch(|i.w.log|);
    StoreStepOk(s, insert);
    var s1 := Next(s, insert);
    var s2 := Next(s1, fetch);
    var s3 := Next(s2, Read);
    DocumentOfStranger(s2, id, account);
    assert id in LiveDocs(s3.w, account);
    var rest := LeadCatchesUp(s3);
    var last := [Read] + rest;
    var tail := [fetch] + last;
    assert last[1..] == rest && tail[1..] == last;
    assert EnabledRun(s2, last) && Exec(s2, last) == Exec(s3, rest);
    assert EnabledRun(s1, tail) && Exec(s1, tail) == Exec(s3, rest);
    steps := [insert] + tail;
    assert steps[1..] == tail;
  }

  // A document of an account that is not shown leaves the state as it is.
  lemma DocumentOfStranger(s: System, id: DocumentId, account: AccountId)
    requires s.cursor < |s.w.log| && s.w.log[s.cursor] == DocumentRow(id) && id in s.w.docs
    requires s.w.docs[id].account == account && account !in s.state.counts
    requires s.cursor in s.mainRows && s.mainRows[s.cursor] == Materialize(s.w, s.cursor)
    ensures Next(s, Read).state == s.state
  {
    ApplySingle(s.state, DocumentChange(s.cursor, id, s.w.docs[id]));
  }

  lemma UnlistedIsNotExact(i: Init, account: AccountId)
    requires InitOk(i) && Done(i) && account in i.w.accounts && account !in i.snaps
    ensures !AlwaysExact(Start(i))
  {
    var steps := UnlistedLoses(i, account);
    var r := Exec(Start(i), steps);
    assert account in Recount(r.w).counts;
    assert !Exact(r);
  }

  /**
   * Whenever both feeds are caught up the counts and the index are a recount, over every run
   * from this start, if and only if no account was added after the list was read and no
   * account's live or archived documents changed between its snapshot and the main feed's head.
   */
  lemma InitIsExactIff(w: World, init: seq<InitStep>)
    requires StoreOk(w) && InitRun(Begin(w), init) && Done(InitExec(Begin(w), init))
    ensures var i := InitExec(Begin(w), init);
            AlwaysExact(Start(i)) <==> Unchanged(i)
  {
    InitRunKeeps(Begin(w), init);
    var i := InitExec(Begin(w), init);
    if Unchanged(i) {
      StartIsRight(i);
      forall steps | EnabledRun(Start(i), steps) && CaughtUp(Exec(Start(i), steps))
        ensures Exact(Exec(Start(i), steps))
      {
        RunKeeps(Start(i), steps);
        CaughtUpIsRecount(Exec(Start(i), steps));
      }
    }
    if AlwaysExact(Start(i)) {
      forall account | account in i.w.accounts
        ensures account in i.snaps && i.snaps[account] == Snapshot(LiveDocs(i.w, account), ArchivedDocs(i.w, account))
      {
        if account !in i.snaps {
          UnlistedIsNotExact(i, account);
        } else {
          ExactListed(i, account);
        }
      }
    }
  }

  // ---- The losing inputs --------------------------------------------------------------------------

  /** A document inserted after its account's snapshot and before the head is in neither. */
  lemma InsertDuringInitIsLost(i: Init, account: AccountId, id: DocumentId)
    requires InitOk(i) && Done(i) && Unchanged(i) && InitEnabled(i, Store(Insert(id, account)))
    ensures var j := InitNext(i, Store(Insert(id, account)));
            Start(j).cursor == |j.w.log| && account in Start(j).state.counts
            && Start(j).state.counts[account] == |LiveDocs(j.w, account)| - 1
  {
    var j := InitNext(i, Store(Insert(id, account)));
    assert id !in i.w.docs;
    assert LiveDocs(j.w, account) == LiveDocs(i.w, account) + {id};
  }

  ghost predicate SnapsFresh(i: Init) {
    forall account {:trigger account in i.snaps} :: account in i.snaps ==>
      account in i.w.accounts && i.snaps[account] == Snapshot(LiveDocs(i.w, account), ArchivedDocs(i.w, account))
  }

  // Nothing happens meanwhile: any store has such an init.
  lemma {:induction false} SnapAll(i: Init, left: set<AccountId>) returns (steps: seq<InitStep>)
    requires InitOk(i) && i.listed == Some(i.w.accounts) && SnapsFresh(i) && left == i.w.accounts - i.snaps.Keys
    ensures InitRun(i, steps)
    ensures var j := InitExec(i, steps); InitOk(j) && Done(j) && Unchanged(j) && j.w == i.w && j.leadFrom == i.leadFrom
    decreases left
  {
    steps := [];
    if left == {} {
      forall account | account in i.w.accounts ensures account in i.snaps {
        assert account !in left;
      }
      assert i.snaps.Keys == i.w.accounts;
    } else {
      var account :| account in left;
      var next := InitNext(i, Snap(account));
      SnapIsKept(i, account);
      var rest := SnapAll(next, left - {account});
      steps := [Snap(account)] + rest;
      assert steps[1..] == rest;
    }
  }

  lemma {:induction false} InitThen(i: Init, steps: seq<InitStep>, step: InitStep)
    requires InitRun(i, steps) && InitEnabled(InitExec(i, steps), step)
    ensures InitRun(i, steps + [step]) && InitExec(i, steps + [step]) == InitNext(InitExec(i, steps), step)
    decreases |steps|
  {
    if |steps| == 0 {
      assert steps + [step] == [step] && [step][1..] == [];
      assert InitRun(InitNext(i, step), []) && InitExec(InitNext(i, step), []) == InitNext(i, step);
    } else {
      assert (steps + [step])[1..] == steps[1..] + [step];
      InitThen(InitNext(i, steps[0]), steps[1..], step);
    }
  }

  /** From any store: an init after which the account, caught up, shows one document too few. */
  lemma InitCanLose(w: World, account: AccountId, id: DocumentId) returns (init: seq<InitStep>)
    requires StoreOk(w) && account in w.accounts && id !in w.usedDocs
    ensures InitRun(Begin(w), init) && Done(InitExec(Begin(w), init))
    ensures var s := Start(InitExec(Begin(w), init));
            s.cursor == |s.w.log| && account in s.state.counts &&
            s.state.counts[account] == |LiveDocs(s.w, account)| - 1
  {
    var quiet := QuietInit(w);
    var i := InitExec(Begin(w), quiet);
    InitThen(Begin(w), quiet, Store(Insert(id, account)));
    InsertDuringInitIsLost(i, account, id);
    init := quiet + [Store(Insert(id, account))];
  }

  // From any store: an init during which nothing happens.
  lemma QuietInit(w: World) returns (init: seq<InitStep>)
    requires StoreOk(w)
    ensures InitRun(Begin(w), init)
    ensures var i := InitExec(Begin(w), init); InitOk(i) && Done(i) && Unchanged(i) && i.w == w && i.leadFrom == |w.log|
  {
    var listed := InitNext(Begin(w), List);
    var snaps := SnapAll(listed, w.accounts);
    init := [List] + snaps;
    assert init[1..] == snaps;
  }

  /** From any store: an account added during init, whose first document the projection then never shows. */
  lemma AddedDuringInitIsLost(w: World, account: AccountId) returns (init: seq<InitStep>, steps: seq<Step>)
    requires StoreOk(w) && account !in w.usedAccounts
    ensures InitRun(Begin(w), init) && Done(InitExec(Begin(w), init))
    ensures EnabledRun(Start(InitExec(Begin(w), init)), steps)
    ensures var r := Exec(Start(InitExec(Begin(w), init)), steps);
            CaughtUp(r) && account in r.w.accounts && LiveDocs(r.w, account) != {} && CountOf(r.state, account) == 0
  {
    var quiet := QuietInit(w);
    var i := InitExec(Begin(w), quiet);
    var add := Store(AddAccount(account));
    InitThen(Begin(w), quiet, add);
    InitStepKeeps(i, add);
    init := quiet + [add];
    steps := UnlistedLoses(InitNext(i, add), account);
  }
}
