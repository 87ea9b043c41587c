/**
 * Factory reset under faults: what survives on disk at every point it can be cut off, and what
 * the user is told at the end.
 */
module FactoryReset {
  import opened Wrappers

  datatype Data = Whole | Part | Empty

  // What a restart finds. `extensions` are the namespaces of the database extensions.
  datatype Disk = Disk(journal: bool, extensions: seq<Data>, accounts: nat)

  // A point the reset can be cut off at: the disk, whether the core wipe of this reset has
  // committed, and whether the app state describing the old data is cleared.
  datatype Moment = Moment(disk: Disk, committed: bool, cleared: bool)

  datatype Wipe = Refused | DiedAfterCommit | FailedAfterAnnouncing | Done

  // Everything that can go wrong, decided beforehand.
  datatype Schedule = Schedule(
    beginFails: bool,
    pauseFails: bool,
    readsBefore: bool,
    platform: bool,             // null before extensions boot
    deactivateFails: bool,
    extensionFails: Option<nat>,
    leaves: Data,               // what the failed extension's namespace is left as
    syncFails: bool,
    wipe: Wipe,
    restartRejects: bool,
    restartFailures: nat,
    readsAfter: bool,
    removed: nat,               // accounts that others remove and add between the two counts;
    added: nat,                 // what they did before a wipe is wiped with the rest
    clearFails: bool,
    endFails: bool
  )

  datatype Outcome = Outcome(ok: bool, coreWiped: Option<bool>, failed: nat, error: bool)

  // ---- What a schedule comes to ---------------------------------------------------------

  predicate ExtensionsReset(s: Schedule, n: nat) {
    s.platform ==> !s.deactivateFails && (s.extensionFails.Some? ==> s.extensionFails.value >= n)
  }

  predicate ReachesWipe(s: Schedule, n: nat) {
    ExtensionsReset(s, n) && !s.syncFails
  }

  predicate Commits(s: Schedule, n: nat) {
    ReachesWipe(s, n) && !s.wipe.Refused?
  }

  predicate Announces(s: Schedule, n: nat) {
    ReachesWipe(s, n) && (s.wipe.Done? || s.wipe.FailedAfterAnnouncing?)
  }

  // The platform's (or the store's) resetAll rejects.
  predicate Rejects(s: Schedule, n: nat) {
    if s.platform then
      s.deactivateFails || s.restartRejects || (ExtensionsReset(s, n) && (s.syncFails || !s.wipe.Done?))
    else s.syncFails || !s.wipe.Done?
  }

  // The failures a reset that does not reject names: the extension it stopped at, and failed restarts.
  function Named(s: Schedule, n: nat): nat {
    if Rejects(s, n) || !s.platform then 0
    else (if s.extensionFails.Some? && s.extensionFails.value < n then 1 else 0) + s.restartFailures
  }

  // What others leave of the accounts, and add to them.
  function Others(s: Schedule, accounts: nat): nat {
    (if s.removed < accounts then accounts - s.removed else 0) + s.added
  }

  predicate NoFault(s: Schedule) {
    && !s.beginFails && !s.pauseFails && s.platform && !s.deactivateFails && s.extensionFails.None? && !s.syncFails
    && s.wipe.Done? && !s.restartRejects && s.restartFailures == 0 && !s.clearFails && !s.endFails
  }

  // ---- What holds at every moment -----------------------------------------------------------

  /** Cut off here, the next start offers the reset again, unless it was finished. */
  predicate Recoverable(m: Moment) {
    m.disk.journal || (m.committed && m.cleared)
  }

  ghost predicate AllRecoverable(trace: seq<Moment>, from: nat) {
    forall k {:trigger trace[k]} :: from <= k < |trace| ==> Recoverable(trace[k])
  }

  predicate AllEmpty(extensions: seq<Data>) {
    forall k :: 0 <= k < |extensions| ==> extensions[k].Empty?
  }

  class Machine {
    var disk: Disk
    var committed: bool
    var cleared: bool
    ghost var trace: seq<Moment>

    constructor (disk: Disk)
      ensures this.disk == disk && trace == []
    {
      this.disk, committed, cleared, trace := disk, false, false, [];
    }

    // Every durable change goes through here.
    method Write(disk: Disk, committed: bool, cleared: bool)
      modifies this
      ensures this.disk == disk && this.committed == committed && this.cleared == cleared
      ensures trace == old(trace) + [Moment(disk, committed, cleared)]
    {
      this.disk, this.committed, this.cleared := disk, committed, cleared;
      trace := trace + [Moment(disk, committed, cleared)];
    }

    // Each database extension in turn, up to the first that fails.
    method ResetExtensions(s: Schedule) returns (failed: bool)
      requires disk.journal && !committed && !cleared
      modifies this
      ensures failed <==> s.extensionFails.Some? && s.extensionFails.value < |old(disk.extensions)|
      ensures disk == old(disk).(extensions := disk.extensions) && |disk.extensions| == |old(disk.extensions)|
      ensures !failed ==> AllEmpty(disk.extensions)
      ensures forall k :: 0 <= k < |disk.extensions| && failed && k > s.extensionFails.value ==>
                disk.extensions[k] == old(disk.extensions)[k]
      ensures forall k :: 0 <= k < |disk.extensions| && failed && k <= s.extensionFails.value ==>
                disk.extensions[k] == if k == s.extensionFails.value then s.leaves else Empty
      ensures !committed && !cleared
      ensures old(trace) <= trace && AllRecoverable(trace, |old(trace)|)
    {
      for i := 0 to |disk.extensions|
        invariant disk == old(disk).(extensions := disk.extensions) && |disk.extensions| == |old(disk.extensions)|
        invariant forall k :: 0 <= k < i ==> disk.extensions[k].Empty?
        invariant forall k :: i <= k < |disk.extensions| ==> disk.extensions[k] == old(disk.extensions)[k]
        invariant s.extensionFails.Some? ==> s.extensionFails.value >= i
        invariant !committed && !cleared
        invariant old(trace) <= trace && AllRecoverable(trace, |old(trace)|)
      {
        if s.extensionFails == Some(i) {
          Write(disk.(extensions := disk.extensions[i := s.leaves]), false, false);
          return true;
        }
        Write(disk.(extensions := disk.extensions[i := Empty]), false, false);
      }
      failed := false;
    }

    // maintenance.resetAll: one transaction, then the announcement, then maintenance.
    method WipeCore(s: Schedule) returns (announced: bool, rejected: bool)
      requires disk.journal && !committed && !cleared
      modifies this
      ensures committed == !s.wipe.Refused? && !cleared
      ensures disk == if committed then old(disk).(accounts := 0) else old(disk)
      ensures announced <==> s.wipe.Done? || s.wipe.FailedAfterAnnouncing?
      ensures rejected <==> !s.wipe.Done?
      ensures old(trace) <= trace && AllRecoverable(trace, |old(trace)|)
    {
      announced, rejected := false, true;
      if s.wipe.Refused? { return; }
      Write(disk.(accounts := 0), true, false);
      if s.wipe.DiedAfterCommit? { return; }
      announced := true;
      rejected := s.wipe.FailedAfterAnnouncing?;
    }

    // The extensions, then sync_state, then the core.
    method ResetAll(s: Schedule) returns (announced: bool, rejected: bool, failed: nat)
      requires disk.journal && !committed && !cleared
      modifies this
      ensures disk.journal && !cleared && |disk.extensions| == |old(disk.extensions)|
      ensures committed <==> Commits(s, |old(disk.extensions)|)
      ensures announced <==> Announces(s, |old(disk.extensions)|)
      ensures rejected <==> Rejects(s, |old(disk.extensions)|)
      ensures committed && s.platform ==> AllEmpty(disk.extensions)
      ensures disk.accounts == if committed then 0 else old(disk.accounts)
      ensures !s.platform ==> disk.extensions == old(disk.extensions)
      ensures failed == Named(s, |old(disk.extensions)|)
      ensures old(trace) <= trace && AllRecoverable(trace, |old(trace)|)
    {
      announced, rejected, failed := false, true, 0;
      if !s.platform {
        if s.syncFails { return; }
        announced, rejected := WipeCore(s);
        return;
      }
      if s.deactivateFails { return; }
      var stopped := ResetExtensions(s);
      rejected := s.syncFails && !stopped;
      if !stopped && !s.syncFails {
        announced, rejected := WipeCore(s);
      }
      // finally: the extensions that were running start again
      rejected := rejected || s.restartRejects;
      failed := if rejected then 0 else (if stopped then 1 else 0) + s.restartFailures;
    }

    // The app state describing the old data, and then the journal.
    method ClearAndEnd(s: Schedule) returns (failed: bool)
      requires disk.journal && !cleared
      modifies this
      ensures failed <==> s.clearFails || s.endFails
      ensures committed == old(committed) && disk == old(disk).(journal := failed) && cleared == !s.clearFails
      ensures old(trace) <= trace && (AllRecoverable(trace, |old(trace)|) <==> committed || failed)
    {
      failed := true;
      if s.clearFails { return; }
      Write(disk, committed, true);
      if s.endFails { return; }
      Write(disk.(journal := false), committed, true);
      failed := false;
      assert Recoverable(trace[|trace| - 1]) <==> committed;
    }

    /**
     * Whatever the schedule, cut off at any point after the journal was written the reset is
     * pending or finished, and before that nothing was changed. The one exception is a refused
     * wipe taken for a committed one because others removed every account meanwhile.
     */
    method RunFactoryReset(s: Schedule) returns (r: Option<Outcome>)
      modifies this
      ensures old(trace) <= trace
      ensures AllRecoverable(trace, |old(trace)|) <==> !Unjournaled(s, |old(disk.extensions)|, old(disk.accounts))
      ensures s.beginFails ==> r.None? && disk == old(disk) && trace == old(trace)
      ensures !s.beginFails && s.pauseFails ==> r.None? && disk == old(disk).(journal := true)
      ensures r.Some? <==> !s.beginFails && !s.pauseFails
      ensures r.Some? ==> |disk.extensions| == |old(disk.extensions)|
      ensures r.Some? ==> (committed <==> Commits(s, |disk.extensions|))
      ensures r.Some? ==> Reported(r.value, s, |disk.extensions|, old(disk.accounts))
      ensures r.Some? ==> (cleared <==> r.value.coreWiped == Some(true) && !s.clearFails)
      ensures r.Some? && committed && s.platform ==> AllEmpty(disk.extensions)
      ensures !s.beginFails ==>
                |trace| > |old(trace)| && trace[|old(trace)|] == Moment(old(disk).(journal := true), false, false)
      ensures r.Some? ==> (!disk.journal <==> r.value.coreWiped == Some(true) && !s.clearFails && !s.endFails)
      ensures r.Some? ==> disk.accounts == Others(s, if committed then 0 else old(disk.accounts))
      ensures r.Some? && r.value.ok ==> !disk.journal && r.value.failed == 0 && !r.value.error
      ensures NoFault(s) ==>
                r.Some? && r.value.ok && !disk.journal && disk.accounts == s.added && AllEmpty(disk.extensions)
    {
      if s.beginFails { return None; }
      committed, cleared := false, false;
      Write(disk.(journal := true), false, false);
      if s.pauseFails { return None; }
      var before := if s.readsBefore then Some(disk.accounts) else None;
      var announced, error, failed := ResetAll(s);
      var coreWiped := Some(announced);
      Write(disk.(accounts := Others(s, disk.accounts)), committed, false);
      if !announced && error {
        coreWiped := if before.Some? && before.value > 0 && s.readsAfter then Some(disk.accounts == 0) else None;
      }
      if coreWiped == Some(true) {
        var unfinished := ClearAndEnd(s);
        error := error || unfinished;
      }
      r := Some(Outcome(coreWiped == Some(true) && failed == 0 && !error, coreWiped, failed, error));
    }
  }

  // ---- What the user is told -------------------------------------------------------------------

  // The announcement, or else the two counts.
  function Verdict(s: Schedule, n: nat, before: nat): Option<bool> {
    if Announces(s, n) then Some(true)
    else if !Rejects(s, n) then Some(false)
    else if s.readsBefore && before > 0 && s.readsAfter then Some(Others(s, if Commits(s, n) then 0 else before) == 0)
    else None
  }

  /** What the user is told: the verdict, whether anything threw, what is named, and success only of a clean wipe. */
  predicate Reported(o: Outcome, s: Schedule, n: nat, before: nat) {
    && o.coreWiped == Verdict(s, n, before) && o.failed == Named(s, n)
    && (o.error <==> Rejects(s, n) || (o.coreWiped == Some(true) && (s.clearFails || s.endFails)))
    && (o.ok <==> o.coreWiped == Some(true) && o.failed == 0 && !o.error)
  }

  /** Which faults let the wipe commit, which let it be announced, and which reject. */
  lemma FaultsIff(s: Schedule, n: nat)
    ensures var through := !s.platform ||
                           (!s.deactivateFails && (s.extensionFails.None? || s.extensionFails.value >= n));
            && (Commits(s, n) <==> through && !s.syncFails && s.wipe != Refused)
            && (Announces(s, n) <==> through && !s.syncFails && s.wipe != Refused && s.wipe != DiedAfterCommit)
            && (Rejects(s, n) <==> (s.platform && (s.deactivateFails || s.restartRejects)) ||
                                   (through && (s.syncFails || s.wipe != Done)))
  {
  }

  /** Success is told exactly of an announced wipe with nothing thrown or named before it or after it. */
  lemma SuccessIff(o: Outcome, s: Schedule, n: nat, before: nat)
    requires Reported(o, s, n, before)
    ensures o.ok <==> Announces(s, n) && !Rejects(s, n) && Named(s, n) == 0 && !s.clearFails && !s.endFails
  {
  }

  // The verdict rests on the two counts.
  predicate Asked(s: Schedule, n: nat, before: nat) {
    !Announces(s, n) && Rejects(s, n) && s.readsBefore && before > 0 && s.readsAfter
  }

  // The wipe did not commit, but others removed every account meanwhile and added none.
  predicate Misled(s: Schedule, n: nat, before: nat) {
    Asked(s, n, before) && !Commits(s, n) && s.removed >= before && s.added == 0
  }

  // Misled all the way: the app state is cleared and the journal ended, with the data still there.
  predicate Unjournaled(s: Schedule, n: nat, before: nat) {
    !s.beginFails && !s.pauseFails && Misled(s, n, before) && !s.clearFails && !s.endFails
  }

  /**
   * A verdict is right if and only if, where the two counts decided, nobody added an account to
   * a wiped store, and somebody left or added one to a store that was not wiped.
   */
  lemma VerdictIsRight(s: Schedule, n: nat, before: nat)
    requires Verdict(s, n, before).Some?
    ensures Verdict(s, n, before).value == Commits(s, n) <==>
            (Asked(s, n, before) ==> if Commits(s, n) then s.added == 0 else s.removed < before || s.added > 0)
  {
  }

  /** No verdict is given exactly when the reset rejects unannounced with no two counts to go by. */
  lemma UnknownIff(s: Schedule, n: nat, before: nat)
    ensures Verdict(s, n, before).None? <==>
            !Announces(s, n) && Rejects(s, n) && (!s.readsBefore || before == 0 || !s.readsAfter)
  {
  }

  // ---- The next start -----------------------------------------------------------------------------

  datatype Answer = Finish | Keep

  // `endFails` is the journal's, when the user keeps what is left.
  datatype Boot = Boot(answer: Answer, loadFails: bool, endFails: bool)

  /**
   * A reset that was cut off is offered again; nothing is deleted without the user's answer,
   * nor before the extensions are found. Cut off again at any point of the finish, whatever its
   * faults, it is still pending or finished, and so the question comes back until a finish without
   * faults completes it, from any disk.
   */
  method FinishInterruptedReset(m: Machine, b: Boot, s: Schedule) returns (r: Option<Outcome>)
    modifies m
    ensures !old(m.disk.journal) ==> r.None? && m.disk == old(m.disk)
    ensures old(m.trace) <= m.trace
    ensures !old(m.disk.journal) ==> m.trace == old(m.trace)
    ensures old(m.disk.journal) && b.answer.Finish? && !b.loadFails ==>
              (AllRecoverable(m.trace, |old(m.trace)|) <==>
               !Unjournaled(s, |old(m.disk.extensions)|, old(m.disk.accounts)))
    ensures b.answer.Keep? ==> forall k {:trigger m.trace[k]} :: |old(m.trace)| <= k < |m.trace| ==>
              m.trace[k].disk == old(m.disk).(journal := false)
    ensures old(m.disk.journal) && b.answer.Finish? && !b.loadFails && !s.beginFails && !s.pauseFails ==>
              && r.Some?
              && Reported(r.value, s, |m.disk.extensions|, old(m.disk.accounts))
              && (m.committed <==> Commits(s, |m.disk.extensions|))
              && |m.disk.extensions| == |old(m.disk.extensions)|
              && (!m.disk.journal <==> r.value.coreWiped == Some(true) && !s.clearFails && !s.endFails)
              && m.disk.accounts == Others(s, if m.committed then 0 else old(m.disk.accounts))
    ensures !b.answer.Finish? ==>
              r.None? && m.disk.extensions == old(m.disk.extensions) && m.disk.accounts == old(m.disk.accounts)
    ensures old(m.disk.journal) && b.answer.Keep? ==> m.disk.journal == b.endFails
    ensures old(m.disk.journal) && b.answer.Finish? && b.loadFails ==>
              m.disk == old(m.disk) && m.trace == old(m.trace) && r == Some(Outcome(false, Some(false), 0, true))
    ensures old(m.disk.journal) && b.answer.Finish? && (s.beginFails || s.pauseFails) ==>
              m.disk == old(m.disk) && r == Some(Outcome(false, Some(false), 0, true))
    ensures old(m.disk.journal) && b.answer.Finish? && !b.loadFails && NoFault(s) ==>
              r.Some? && r.value.ok && !m.disk.journal && m.disk.accounts == s.added && AllEmpty(m.disk.extensions)
  {
    if !m.disk.journal { return None; }
    match b.answer
    case Finish =>
      if b.loadFails {
        return Some(Outcome(false, Some(false), 0, true));
      }
      r := m.RunFactoryReset(s);
      if r.None? {
        r := Some(Outcome(false, Some(false), 0, true));
      }
    case Keep =>
      if !b.endFails {
        m.Write(m.disk.(journal := false), m.committed, m.cleared);
      }
      r := None;
  }
}
