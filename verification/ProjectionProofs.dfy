/**
 * The incremental counts agree with a recount: at every point they count exactly the
 * documents whose insert row has been read, less those the index holds as archived.
 */
module ProjectionProofs {
  import opened ProjectionSpec

  // ---- The store keeps its log in step with its tables ---------------------------------------

  ghost predicate StoreOk(w: World) {
    && w.docs.Keys <= w.usedDocs && w.accounts <= w.usedAccounts
    && DocsOk(w) && LogRowsOk(w)
    && (forall account {:trigger account in w.accounts} :: account in w.accounts ==>
        ReadBy(w.log, |w.log|, AccountRow(account)))
  }

  ghost predicate DocsOk(w: World) {
    && (forall id {:trigger w.docs[id]} :: id in w.docs ==>
         w.docs[id].account in w.accounts && w.docs[id].ingestSeq < |w.log| &&
         w.log[w.docs[id].ingestSeq] == DocumentRow(id) &&
         ReadBy(w.log, w.docs[id].ingestSeq, AccountRow(w.docs[id].account)))
  }

  ghost predicate LogRowsOk(w: World) {
    (forall k {:trigger w.log[k]} :: 0 <= k < |w.log| ==>
         match w.log[k]
         case DocumentRow(id) => id in w.usedDocs && (id in w.docs ==> w.docs[id].ingestSeq <= k)
         case PurgeRow(id) => id in w.usedDocs && id !in w.docs
         case AccountRow(account) =>
           account in w.usedAccounts && (account in w.accounts || Unread(w.log, k, AccountRemovedRow(account)))
         case AccountRemovedRow(account) => account in w.usedAccounts && account !in w.accounts)
  }

  predicate Unread(log: seq<Row>, cursor: nat, row: Row) {
    exists k :: cursor <= k < |log| && log[k] == row
  }

  predicate ReadBy(log: seq<Row>, cursor: nat, row: Row) {
    exists k :: 0 <= k < cursor && k < |log| && log[k] == row
  }

  /** The account's documents whose insert row the reader is past. */
  ghost function Seen(docs: map<DocumentId, Document>, cursor: nat, account: AccountId): set<DocumentId> {
    set id | id in docs && docs[id].account == account && docs[id].ingestSeq < cursor
  }

  /** The index is right about every document, unless a row that says otherwise is still to come. */
  ghost predicate IndexOk(w: World, cursor: nat, index: set<DocumentId>, seen: set<DocumentId>) {
    && (forall id {:trigger id in index} :: id in index && id !in seen ==>
         id !in w.docs && Unread(w.log, cursor, PurgeRow(id)))
    && (forall id {:trigger id in seen} :: id in seen && id in w.docs ==>
         (id in index <==> w.docs[id].archived) || Unread(w.log, cursor, DocumentRow(id)))
  }

  ghost predicate AccountOk(w: World, cursor: nat, state: State, account: AccountId) {
    var index, seen := ArchivedOf(state.archived, account), Seen(w.docs, cursor, account);
    if account in state.counts then
      state.counts[account] == |seen - index| && IndexOk(w, cursor, index, seen)
    else
      index == {} && !ReadBy(w.log, cursor, AccountRow(account)) && Unread(w.log, cursor, AccountRow(account))
  }

  /** What was read of a row, when it was, may still be applied: later changes are still to come. */
  ghost predicate Current(w: World, pos: nat, cs: seq<Change>)
    requires pos < |w.log|
  {
    match w.log[pos]
    case DocumentRow(id) =>
      if cs == [] then id !in w.docs
      else |cs| == 1 && cs[0].DocumentChange? && CurrentDocument(w, pos, id, cs[0])
    case PurgeRow(id) => cs == [PurgeChange(id)]
    case AccountRow(account) => if cs == [] then account !in w.accounts else cs == [AccountChange(account)]
    case AccountRemovedRow(account) => cs == [AccountRemovedChange(account)]
  }

  ghost predicate CurrentDocument(w: World, pos: nat, id: DocumentId, c: Change)
    requires c.DocumentChange?
  {
    && c.pos == pos && c.id == id && c.document.account in w.usedAccounts
    && if id in w.docs then
         && c.document.account == w.docs[id].account && c.document.ingestSeq == w.docs[id].ingestSeq
         && (c.document == w.docs[id] || Unread(w.log, pos + 1, DocumentRow(id)))
       else c.document.account !in w.accounts
  }

  ghost predicate FetchedOk(w: World, from: nat, rows: Fetched) {
    forall pos: nat {:trigger pos in rows} :: pos in rows ==> from <= pos < |w.log| && Current(w, pos, rows[pos])
  }

  // The lead has fetched account rows only.
  ghost predicate LeadRowsOk(w: World, rows: Fetched) {
    forall pos: nat {:trigger pos in rows} :: pos in rows ==> pos < |w.log| && LeadKind(w.log[pos])
  }

  // Between the last change the lead applied and where it is, no account was removed.
  ghost predicate MarkOk(w: World, mark: nat, lead: nat) {
    mark <= lead && forall k {:trigger w.log[k]} :: mark <= k < lead && k < |w.log| ==> !w.log[k].AccountRemovedRow?
  }

  ghost predicate Inv(s: System) {
    && s.cursor <= |s.w.log| && s.lead <= |s.w.log| && StoreOk(s.w)
    && AccountsOk(s.w, s.cursor, s.state) && LeadOk(s.w, s.lead, s.state) && StrangersOk(s.w, s.lead, s.state)
    && FeedsOk(s) && CountsOk(s.state)
  }

  // A count shown is never below zero, not even a removed account's; only a counted account is indexed.
  ghost predicate CountsOk(state: State) {
    && state.archived.Keys <= state.counts.Keys
    && forall account {:trigger account in state.counts} :: account in state.counts ==> state.counts[account] >= 0
  }

  ghost predicate FeedsOk(s: System) {
    && FetchedOk(s.w, s.cursor, s.mainRows) && FetchedOk(s.w, s.lead, s.leadRows) && LeadRowsOk(s.w, s.leadRows)
    && MarkOk(s.w, s.mark, s.lead)
  }

  // An account still missing is still ahead of the lead.
  ghost predicate LeadOk(w: World, lead: nat, state: State) {
    forall account {:trigger account in w.accounts} :: account in w.accounts && account !in state.counts ==>
      !ReadBy(w.log, lead, AccountRow(account))
  }

  ghost predicate AccountsOk(w: World, cursor: nat, state: State) {
    forall account {:trigger AccountOk(w, cursor, state, account)} :: account in w.accounts ==>
      AccountOk(w, cursor, state, account)
  }

  // Entries of removed accounts, and the index's keys.
  ghost predicate StrangersOk(w: World, lead: nat, state: State) {
    && state.archived.Keys <= w.usedAccounts
    && forall account {:trigger account in state.counts} :: account in state.counts && account !in w.accounts ==>
         Unread(w.log, lead, AccountRemovedRow(account))
  }

  // ---- What happens to the store leaves the counts right ----------------------------------------

  lemma UnreadMore(log: seq<Row>, cursor: nat, more: Row)
    ensures forall row :: Unread(log, cursor, row) ==> Unread(log + [more], cursor, row)
    ensures cursor <= |log| ==> Unread(log + [more], cursor, more)
    ensures forall row :: cursor <= |log| ==> (ReadBy(log + [more], cursor, row) <==> ReadBy(log, cursor, row))
  {
    var l := log + [more];
    assert l[|log|] == more;
    forall row | Unread(log, cursor, row) ensures Unread(l, cursor, row) {
      var k :| cursor <= k < |log| && log[k] == row;
      assert l[k] == row;
    }
    if cursor <= |log| {
      forall row ensures ReadBy(l, cursor, row) <==> ReadBy(log, cursor, row) {
        ReadByMore(log, cursor, more, row);
      }
    }
  }

  lemma StoreDocRead(w: World, step: Step, id: DocumentId)
    requires StoreOk(w) && StoreStep(step) && StoreEnabled(w, |w.log|, step) && id in NextWorld(w, step).docs
    ensures var w' := NextWorld(w, step); ReadBy(w'.log, w'.docs[id].ingestSeq, AccountRow(w'.docs[id].account))
  {
    var w' := NextWorld(w, step);
    ReadByMore(w.log, w'.docs[id].ingestSeq, w'.log[|w.log|], AccountRow(w'.docs[id].account));
  }

  lemma StoreDocsOk(w: World, cursor: nat, step: Step)
    requires StoreOk(w) && StoreStep(step) && StoreEnabled(w, cursor, step)
    ensures DocsOk(NextWorld(w, step))
  {
    var w' := NextWorld(w, step);
    forall id | id in w'.docs ensures ReadBy(w'.log, w'.docs[id].ingestSeq, AccountRow(w'.docs[id].account)) {
      StoreDocRead(w, step, id);
    }
  }

  lemma StoreRowsOk(w: World, cursor: nat, step: Step)
    requires StoreOk(w) && StoreStep(step) && StoreEnabled(w, cursor, step)
    ensures LogRowsOk(NextWorld(w, step))
  {
    var w' := NextWorld(w, step);
    var more := w'.log[|w.log|];
    forall account, k: nat | k <= |w.log| && Unread(w.log, k, AccountRemovedRow(account))
      ensures Unread(w'.log, k, AccountRemovedRow(account))
    {
      UnreadMore(w.log, k, more);
    }
    if step.RemoveAccount? {
      forall k: nat | k <= |w.log| ensures Unread(w'.log, k, AccountRemovedRow(step.account)) {
        UnreadMore(w.log, k, more);
      }
    }
  }

  lemma StoreStepOk(s: System, step: Step)
    requires StoreOk(s.w) && StoreStep(step) && Enabled(s, step)
    ensures StoreOk(NextWorld(s.w, step))
  {
    var w, w' := s.w, NextWorld(s.w, step);
    var more := w'.log[|w.log|];
    StoreDocsOk(w, s.cursor, step);
    StoreRowsOk(w, s.cursor, step);
    forall account | account in w'.accounts ensures ReadBy(w'.log, |w'.log|, AccountRow(account)) {
      ReadByMore(w.log, |w.log|, more, AccountRow(account));
      assert account !in w.accounts ==> w'.log[|w.log|] == AccountRow(account);
    }
  }

  lemma ReadByMore(log: seq<Row>, n: nat, more: Row, row: Row)
    requires n <= |log|
    ensures ReadBy(log + [more], n, row) <==> ReadBy(log, n, row)
    ensures ReadBy(log, n, row) ==> ReadBy(log + [more], |log| + 1, row)
  {
    var l := log + [more];
    if ReadBy(log, n, row) {
      var k :| 0 <= k < n && k < |log| && log[k] == row;
      assert l[k] == row;
    }
    if ReadBy(l, n, row) {
      var k :| 0 <= k < n && k < |l| && l[k] == row;
      assert log[k] == row;
    }
  }

  // A write leaves each account's seen documents as they were, and logs what it changed.
  lemma WriteOne(w: World, cursor: nat, state: State, id: DocumentId, doc: Document, account: AccountId)
    requires cursor <= |w.log| && id in w.docs && account in w.accounts && AccountOk(w, cursor, state, account)
    requires doc.account == w.docs[id].account && doc.ingestSeq == w.docs[id].ingestSeq
    ensures AccountOk(w.(docs := w.docs[id := doc], log := w.log + [DocumentRow(id)]), cursor, state, account)
  {
    var w' := w.(docs := w.docs[id := doc], log := w.log + [DocumentRow(id)]);
    UnreadMore(w.log, cursor, DocumentRow(id));
    SeenAfterWrite(w.docs, cursor, id, doc, account);
    if account in state.counts {
      WriteIndexOk(w, w', cursor, ArchivedOf(state.archived, account), Seen(w.docs, cursor, account), id);
    }
  }

  lemma SeenAfterWrite(docs: map<DocumentId, Document>, cursor: nat, id: DocumentId, doc: Document, account: AccountId)
    requires id in docs && doc.account == docs[id].account && doc.ingestSeq == docs[id].ingestSeq
    ensures Seen(docs[id := doc], cursor, account) == Seen(docs, cursor, account)
  {
  }

  lemma WriteIndexOk(w: World, w': World, cursor: nat, index: set<DocumentId>, seen: set<DocumentId>, id: DocumentId)
    requires cursor <= |w.log| && id in w.docs && id in w'.docs && IndexOk(w, cursor, index, seen)
    requires w'.docs == w.docs[id := w'.docs[id]] && w'.log == w.log + [DocumentRow(id)]
    ensures IndexOk(w', cursor, index, seen)
  {
    UnreadMore(w.log, cursor, DocumentRow(id));
  }

  lemma WriteKeeps(s: System, id: DocumentId, archived: bool)
    requires Inv(s) && id in s.w.docs
    ensures AccountsOk(NextWorld(s.w, Write(id, archived)), s.cursor, s.state)
  {
    var w' := NextWorld(s.w, Write(id, archived));
    forall account | account in w'.accounts ensures AccountOk(w', s.cursor, s.state, account) {
      assert AccountOk(s.w, s.cursor, s.state, account);
      WriteOne(s.w, s.cursor, s.state, id, s.w.docs[id].(archived := archived), account);
    }
  }

  lemma InsertKeeps(s: System, id: DocumentId, account: AccountId)
    requires Inv(s) && Enabled(s, Insert(id, account))
    ensures AccountsOk(NextWorld(s.w, Insert(id, account)), s.cursor, s.state)
  {
    var w' := NextWorld(s.w, Insert(id, account));
    UnreadMore(s.w.log, s.cursor, DocumentRow(id));
    StoreStepOk(s, Insert(id, account));
    forall a | a in w'.accounts ensures AccountOk(w', s.cursor, s.state, a) {
      assert AccountOk(s.w, s.cursor, s.state, a);
      assert Seen(w'.docs, s.cursor, a) == Seen(s.w.docs, s.cursor, a);
      NotIndexed(s, a, id);
    }
  }

  lemma NeverPurged(w: World, cursor: nat, id: DocumentId)
    requires LogRowsOk(w) && id !in w.usedDocs
    ensures !Unread(w.log, cursor, PurgeRow(id))
  {
    assert forall k {:trigger w.log[k]} :: 0 <= k < |w.log| ==> w.log[k] != PurgeRow(id);
  }

  /** An id never used is in no index. */
  lemma NotIndexed(s: System, account: AccountId, id: DocumentId)
    requires Inv(s) && account in s.w.accounts && id !in s.w.usedDocs
    ensures id !in ArchivedOf(s.state.archived, account)
  {
    assert AccountOk(s.w, s.cursor, s.state, account);
    NeverPurged(s.w, s.cursor, id);
    assert id !in Seen(s.w.docs, s.cursor, account);
  }

  // A purged document was seen and indexed, so neither count nor index is wrong without it.
  lemma PurgeOne(w: World, w': World, cursor: nat, state: State, id: DocumentId, a: AccountId)
    requires cursor <= |w.log| && id in w.docs && w.docs[id].archived && AccountOk(w, cursor, state, a)
    requires w.docs[id].ingestSeq < cursor && !Unread(w.log, cursor, DocumentRow(id))
    requires w' == w.(docs := w.docs - {id}, log := w.log + [PurgeRow(id)])
    ensures AccountOk(w', cursor, state, a)
  {
    var index, seen := ArchivedOf(state.archived, a), Seen(w.docs, cursor, a);
    UnreadMore(w.log, cursor, PurgeRow(id));
    assert Seen(w'.docs, cursor, a) == seen - {id};
    if a in state.counts {
      PurgeIndexOk(w, w', cursor, index, seen, id);
      assert id in seen ==> id in index;
      assert (seen - {id}) - index == seen - index;
    }
  }

  lemma PurgeIndexOk(w: World, w': World, cursor: nat, index: set<DocumentId>, seen: set<DocumentId>, id: DocumentId)
    requires cursor <= |w.log| && id in w.docs && IndexOk(w, cursor, index, seen)
    requires w' == w.(docs := w.docs - {id}, log := w.log + [PurgeRow(id)])
    ensures IndexOk(w', cursor, index, seen - {id})
  {
    UnreadMore(w.log, cursor, PurgeRow(id));
  }

  lemma PurgeKeeps(s: System, id: DocumentId)
    requires Inv(s) && Enabled(s, Purge(id))
    ensures AccountsOk(NextWorld(s.w, Purge(id)), s.cursor, s.state)
  {
    assert s.w.docs[id].ingestSeq < s.cursor;
    forall a | a in s.w.accounts ensures AccountOk(NextWorld(s.w, Purge(id)), s.cursor, s.state, a) {
      assert AccountOk(s.w, s.cursor, s.state, a);
      PurgeOne(s.w, NextWorld(s.w, Purge(id)), s.cursor, s.state, id, a);
    }
  }

  lemma AccountKeeps(s: System, step: Step)
    requires Inv(s) && Enabled(s, step) && (step.AddAccount? || step.TouchAccount?)
    ensures AccountsOk(NextWorld(s.w, step), s.cursor, s.state)
  {
    var w' := NextWorld(s.w, step);
    UnreadMore(s.w.log, s.cursor, AccountRow(step.account));
    StoreStepOk(s, step);
    forall a | a in w'.accounts ensures AccountOk(w', s.cursor, s.state, a) {
      if a in s.w.accounts {
        assert AccountOk(s.w, s.cursor, s.state, a);
      } else {
        assert a !in s.state.counts;
      }
    }
  }

  lemma RemoveKeeps(s: System, account: AccountId)
    requires Inv(s) && account in s.w.accounts
    ensures AccountsOk(NextWorld(s.w, RemoveAccount(account)), s.cursor, s.state)
  {
    var w' := NextWorld(s.w, RemoveAccount(account));
    UnreadMore(s.w.log, s.cursor, AccountRemovedRow(account));
    StoreStepOk(s, RemoveAccount(account));
    forall a | a in w'.accounts ensures AccountOk(w', s.cursor, s.state, a) {
      assert AccountOk(s.w, s.cursor, s.state, a);
      assert Seen(w'.docs, s.cursor, a) == Seen(s.w.docs, s.cursor, a);
    }
  }

  // ---- Reading a row --------------------------------------------------------------------------------

  /** Past a row, whatever else is still to come is still to come. */
  lemma UnreadAfter(log: seq<Row>, cursor: nat)
    requires cursor < |log|
    ensures forall row :: Unread(log, cursor, row) && row != log[cursor] ==> Unread(log, cursor + 1, row)
    ensures forall row :: ReadBy(log, cursor + 1, row) <==> ReadBy(log, cursor, row) || row == log[cursor]
  {
    forall row | Unread(log, cursor, row) && row != log[cursor] ensures Unread(log, cursor + 1, row) {
      var k :| cursor <= k < |log| && log[k] == row;
      assert k != cursor;
    }
    forall row ensures ReadBy(log, cursor + 1, row) <==> ReadBy(log, cursor, row) || row == log[cursor] {
      if ReadBy(log, cursor + 1, row) {
        var k :| 0 <= k < cursor + 1 && k < |log| && log[k] == row;
        assert k < cursor ==> ReadBy(log, cursor, row);
      }
      if ReadBy(log, cursor, row) {
        var k :| 0 <= k < cursor && k < |log| && log[k] == row;
        assert log[k] == row;
      }
      assert log[cursor] == log[cursor];
    }
  }

  lemma ApplySingle(s: State, c: Change)
    ensures Apply(s, [c]) == ApplyOne(s, c) && Apply(s, []) == s
  {
    assert [c][..0] == [];
  }

  /** A row that shows nothing new about an account leaves its entry right. */
  lemma SkipAccount(w: World, cursor: nat, state: State, state': State, account: AccountId)
    requires cursor < |w.log| && StoreOk(w) && account in w.accounts && AccountOk(w, cursor, state, account)
    requires account in state'.counts <==> account in state.counts
    requires account in state.counts ==> state'.counts[account] == state.counts[account]
    requires ArchivedOf(state'.archived, account) == ArchivedOf(state.archived, account)
    requires match w.log[cursor]
             case DocumentRow(id) => id !in w.docs || w.docs[id].account != account
             case PurgeRow(id) => id !in ArchivedOf(state.archived, account)
             case AccountRow(a) => a != account
             case AccountRemovedRow(a) => true
    ensures AccountOk(w, cursor + 1, state', account)
  {
    UnreadAfter(w.log, cursor);
    assert Seen(w.docs, cursor + 1, account) == Seen(w.docs, cursor, account) by {
      forall id | id in w.docs && w.docs[id].account == account ensures w.docs[id].ingestSeq != cursor {
        assert w.log[w.docs[id].ingestSeq] == DocumentRow(id);
      }
    }
  }

  lemma WithoutOne(docs: set<DocumentId>, id: DocumentId)
    ensures |docs - {id}| == |docs| - if id in docs then 1 else 0
  {
    if id !in docs {
      assert docs - {id} == docs;
    }
  }

  lemma WithOne(docs: set<DocumentId>, id: DocumentId)
    ensures |docs + {id}| == |docs| + if id in docs then 0 else 1
  {
    if id in docs {
      assert docs + {id} == docs;
    }
  }

  /** The arithmetic of one document row: seen for the first time or not, archived or not. */
  lemma DeltaCounts(seen: set<DocumentId>, index: set<DocumentId>, pos: nat, id: DocumentId, doc: Document)
    requires id in index ==> id in seen
    requires id in seen <==> pos != doc.ingestSeq
    ensures |(seen + {id}) - ArchivedAfter(id, doc, index)| == |seen - index| + Delta(pos, id, doc, index)
  {
    var live := seen - index;
    if doc.archived {
      assert (seen + {id}) - (index + {id}) == live - {id};
      WithoutOne(live, id);
    } else {
      assert (seen + {id}) - (index - {id}) == live + {id};
      WithOne(live, id);
    }
  }

  lemma SeenAfterDocument(w: World, cursor: nat, id: DocumentId)
    requires cursor < |w.log| && StoreOk(w) && w.log[cursor] == DocumentRow(id) && id in w.docs
    ensures var seen := Seen(w.docs, cursor, w.docs[id].account);
            Seen(w.docs, cursor + 1, w.docs[id].account) == seen + {id} &&
            (id in seen <==> cursor != w.docs[id].ingestSeq)
  {
    forall x | x in w.docs && w.docs[x].ingestSeq == cursor ensures x == id {
      assert w.log[w.docs[x].ingestSeq] == DocumentRow(x);
    }
  }

  lemma IndexAfterDocument(w: World, cursor: nat, index: set<DocumentId>, seen: set<DocumentId>, c: Change)
    requires cursor < |w.log| && StoreOk(w) && c.DocumentChange? && w.log[cursor] == DocumentRow(c.id) && c.id in w.docs
    requires IndexOk(w, cursor, index, seen) && CurrentDocument(w, cursor, c.id, c)
    ensures IndexOk(w, cursor + 1, ArchivedAfter(c.id, c.document, index), seen + {c.id})
  {
    UnreadAfter(w.log, cursor);
  }

  /** Applying one of its document rows, however old, leaves an account right but for rows to come. */
  lemma ReadDocument(w: World, cursor: nat, state: State, c: Change)
    requires cursor < |w.log| && StoreOk(w) && c.DocumentChange? && w.log[cursor] == DocumentRow(c.id) && c.id in w.docs
    requires CurrentDocument(w, cursor, c.id, c) && AccountOk(w, cursor, state, w.docs[c.id].account)
    ensures var account := w.docs[c.id].account;
            && account in state.counts
            && state.counts[account] + Delta(cursor, c.id, c.document, ArchivedOf(state.archived, account)) >= 0
            && AccountOk(w, cursor + 1, ApplyOne(state, c), account)
  {
    var account := w.docs[c.id].account;
    DocumentAccountKnown(w, cursor, state, c.id);
    var index, seen := ArchivedOf(state.archived, account), Seen(w.docs, cursor, account);
    SeenAfterDocument(w, cursor, c.id);
    IndexAfterDocument(w, cursor, index, seen, c);
    DeltaCounts(seen, index, cursor, c.id, c.document);
    ApplyDocument(state, cursor, c.id, c.document);
  }

  lemma ApplyDocument(state: State, pos: nat, id: DocumentId, doc: Document)
    requires doc.account in state.counts
    requires state.counts[doc.account] + Delta(pos, id, doc, ArchivedOf(state.archived, doc.account)) >= 0
    ensures var index := ArchivedOf(state.archived, doc.account);
            var r := ApplyOne(state, DocumentChange(pos, id, doc));
            && doc.account in r.counts
            && r.counts[doc.account] == state.counts[doc.account] + Delta(pos, id, doc, index)
            && ArchivedOf(r.archived, doc.account) == ArchivedAfter(id, doc, index)
  {
  }

  predicate About(c: Change, account: AccountId) {
    match c
    case DocumentChange(_, _, document) => document.account == account
    case PurgeChange(_) => true
    case AccountChange(a) => a == account
    case AccountRemovedChange(a) => a == account
  }

  /** A change leaves every account it is not about as it was. */
  lemma ApplyOthers(state: State, c: Change, account: AccountId)
    requires !About(c, account)
    ensures var r := ApplyOne(state, c);
            && (account in r.counts <==> account in state.counts)
            && (account in state.counts ==> r.counts[account] == state.counts[account])
            && ArchivedOf(r.archived, account) == ArchivedOf(state.archived, account)
  {
  }

  lemma DocumentAccountKnown(w: World, cursor: nat, state: State, id: DocumentId)
    requires cursor < |w.log| && StoreOk(w) && w.log[cursor] == DocumentRow(id) && id in w.docs
    requires AccountOk(w, cursor, state, w.docs[id].account)
    ensures w.docs[id].account in state.counts
  {
    var row := AccountRow(w.docs[id].account);
    assert ReadBy(w.log, w.docs[id].ingestSeq, row);
    var k :| 0 <= k < w.docs[id].ingestSeq && k < |w.log| && w.log[k] == row;
    assert ReadBy(w.log, cursor, row);
  }

  lemma SeenSame(w: World, cursor: nat, account: AccountId)
    requires cursor < |w.log| && StoreOk(w) && !w.log[cursor].DocumentRow?
    ensures Seen(w.docs, cursor + 1, account) == Seen(w.docs, cursor, account)
  {
    forall x | x in w.docs ensures w.docs[x].ingestSeq != cursor {
      assert w.log[w.docs[x].ingestSeq] == DocumentRow(x);
    }
  }

  lemma IndexAfterPurge(w: World, cursor: nat, index: set<DocumentId>, seen: set<DocumentId>, id: DocumentId)
    requires cursor < |w.log| && w.log[cursor] == PurgeRow(id) && id !in seen && IndexOk(w, cursor, index, seen)
    ensures IndexOk(w, cursor + 1, index - {id}, seen)
  {
    UnreadAfter(w.log, cursor);
  }

  lemma ReadPurge(w: World, cursor: nat, state: State, id: DocumentId, account: AccountId)
    requires cursor < |w.log| && StoreOk(w) && w.log[cursor] == PurgeRow(id) && account in w.accounts
    requires AccountOk(w, cursor, state, account)
    ensures AccountOk(w, cursor + 1, ApplyOne(state, PurgeChange(id)), account)
  {
    var index, seen := ArchivedOf(state.archived, account), Seen(w.docs, cursor, account);
    SeenSame(w, cursor, account);
    assert ArchivedOf(PurgeIndex(state.archived, id), account) == index - {id};
    if account in state.counts {
      IndexAfterPurge(w, cursor, index, seen, id);
      assert seen - (index - {id}) == seen - index;
    } else {
      UnreadAfter(w.log, cursor);
    }
  }

  lemma IndexPast(w: World, cursor: nat, index: set<DocumentId>, seen: set<DocumentId>)
    requires cursor < |w.log| && !w.log[cursor].DocumentRow? && !w.log[cursor].PurgeRow? &&
             IndexOk(w, cursor, index, seen)
    ensures IndexOk(w, cursor + 1, index, seen)
  {
    UnreadAfter(w.log, cursor);
  }

  lemma ReadAccount(w: World, cursor: nat, state: State, account: AccountId)
    requires cursor < |w.log| && StoreOk(w) && w.log[cursor] == AccountRow(account) && account in w.accounts
    requires AccountOk(w, cursor, state, account)
    ensures AccountOk(w, cursor + 1, ApplyOne(state, AccountChange(account)), account)
  {
    var index, seen := ArchivedOf(state.archived, account), Seen(w.docs, cursor, account);
    SeenSame(w, cursor, account);
    if account in state.counts {
      IndexPast(w, cursor, index, seen);
    } else {
      NothingSeenYet(w, cursor, account);
      assert seen - index == {};
      assert IndexOk(w, cursor + 1, index, seen);
    }
  }

  /** Before its first account row is read, none of an account's documents is. */
  lemma NothingSeenYet(w: World, cursor: nat, account: AccountId)
    requires cursor <= |w.log| && StoreOk(w) && !ReadBy(w.log, cursor, AccountRow(account))
    ensures Seen(w.docs, cursor, account) == {}
  {
    forall id | id in w.docs && w.docs[id].account == account ensures w.docs[id].ingestSeq >= cursor {
      var k :| 0 <= k < w.docs[id].ingestSeq && k < |w.log| && w.log[k] == AccountRow(account);
    }
  }

  lemma CurrentApplies(w: World, state: State, pos: nat, cs: seq<Change>)
    requires pos < |w.log| && Current(w, pos, cs)
    ensures |cs| <= 1 && Apply(state, cs) == if |cs| == 1 then ApplyOne(state, cs[0]) else state
  {
    ApplySingle(state, if |cs| == 1 then cs[0] else PurgeChange(0));
    assert |cs| == 1 ==> cs == [cs[0]];
  }

  lemma ReadAbout(w: World, cursor: nat, state: State, c: Change, account: AccountId)
    requires cursor < |w.log| && StoreOk(w) && account in w.accounts && AccountOk(w, cursor, state, account)
    requires Current(w, cursor, [c]) && About(c, account)
    ensures AccountOk(w, cursor + 1, ApplyOne(state, c), account)
  {
    match w.log[cursor]
    case DocumentRow(id) => ReadDocument(w, cursor, state, c);
    case PurgeRow(id) => ReadPurge(w, cursor, state, id, account);
    case AccountRow(a) => ReadAccount(w, cursor, state, account);
  }

  lemma ReadAccountOk(w: World, cursor: nat, state: State, cs: seq<Change>, account: AccountId)
    requires cursor < |w.log| && StoreOk(w) && account in w.accounts && AccountOk(w, cursor, state, account)
    requires Current(w, cursor, cs)
    ensures AccountOk(w, cursor + 1, Apply(state, cs), account)
  {
    CurrentApplies(w, state, cursor, cs);
    if |cs| == 1 && About(cs[0], account) {
      assert cs == [cs[0]];
      ReadAbout(w, cursor, state, cs[0], account);
    } else {
      if |cs| == 1 {
        ApplyOthers(state, cs[0], account);
      }
      SkipAccount(w, cursor, state, Apply(state, cs), account);
    }
  }

  lemma ReadAccountsOk(w: World, cursor: nat, state: State, cs: seq<Change>)
    requires cursor < |w.log| && StoreOk(w) && AccountsOk(w, cursor, state) && Current(w, cursor, cs)
    ensures AccountsOk(w, cursor + 1, Apply(state, cs))
  {
    forall account | account in w.accounts ensures AccountOk(w, cursor + 1, Apply(state, cs), account) {
      assert AccountOk(w, cursor, state, account);
      ReadAccountOk(w, cursor, state, cs, account);
    }
  }

  // ---- Accounts that come and go ----------------------------------------------------------------------

  lemma ApplyKeys(w: World, state: State, pos: nat, cs: seq<Change>)
    requires pos < |w.log| && Current(w, pos, cs) && state.archived.Keys <= w.usedAccounts
    ensures Apply(state, cs).archived.Keys <= w.usedAccounts
  {
    CurrentApplies(w, state, pos, cs);
  }

  // A change keeps the accounts that are there, and adds one that is gone only at its own row.
  lemma ApplyAccounts(w: World, state: State, pos: nat, cs: seq<Change>, account: AccountId)
    requires StoreOk(w) && pos < |w.log| && Current(w, pos, cs)
    ensures var r := Apply(state, cs);
            if account in w.accounts then account in state.counts ==> account in r.counts
            else account in r.counts ==> account in state.counts || w.log[pos] == AccountRow(account)
    ensures w.log[pos] == AccountRow(account) && account in w.accounts ==> account in Apply(state, cs).counts
    ensures w.log[pos] == AccountRemovedRow(account) ==> account !in Apply(state, cs).counts
  {
    CurrentApplies(w, state, pos, cs);
  }

  // The removal of an account comes after its rows.
  lemma RemovalAhead(w: World, pos: nat, account: AccountId)
    requires StoreOk(w) && pos < |w.log| && w.log[pos] == AccountRow(account) && account !in w.accounts
    ensures Unread(w.log, pos + 1, AccountRemovedRow(account))
  {
    UnreadAfter(w.log, pos);
  }

  // The lead is not past the removal of an account whose row the main feed does not leave out.
  lemma NotRemovedYet(w: World, mark: nat, lead: nat, pos: nat, account: AccountId)
    requires StoreOk(w) && lead <= |w.log| && MarkOk(w, mark, lead) && mark <= pos < |w.log|
    requires w.log[pos] == AccountRow(account) && account !in w.accounts
    ensures Unread(w.log, lead, AccountRemovedRow(account))
  {
    RemovalAhead(w, pos, account);
    var k :| pos + 1 <= k < |w.log| && w.log[k] == AccountRemovedRow(account);
    assert k >= lead;
  }

  // ---- The main feed applies a row -----------------------------------------------------------------------

  // What the main feed applies leaves the lead's side as it was.
  lemma ReadLeavesLead(s: System)
    requires Inv(s) && Enabled(s, Read) && !LeftOut(s)
    ensures var r := Apply(s.state, s.mainRows[s.cursor]); LeadOk(s.w, s.lead, r) && StrangersOk(s.w, s.lead, r)
  {
    var w, cs := s.w, s.mainRows[s.cursor];
    var r := Apply(s.state, cs);
    forall account | account in w.accounts && account !in r.counts ensures !ReadBy(w.log, s.lead, AccountRow(account)) {
      ApplyAccounts(w, s.state, s.cursor, cs, account);
    }
    forall account | account in r.counts && account !in w.accounts
      ensures Unread(w.log, s.lead, AccountRemovedRow(account))
    {
      ApplyAccounts(w, s.state, s.cursor, cs, account);
      if account !in s.state.counts {
        NotRemovedYet(w, s.mark, s.lead, s.cursor, account);
      }
    }
    ApplyKeys(w, s.state, s.cursor, cs);
  }

  // A row the main feed leaves out: the lead has added the account already, or dropped it.
  lemma SkipOne(w: World, lead: nat, cursor: nat, state: State, account: AccountId)
    requires StoreOk(w) && cursor < lead <= |w.log| && LeadKind(w.log[cursor]) && LeadOk(w, lead, state)
    requires account in w.accounts && AccountOk(w, cursor, state, account)
    ensures AccountOk(w, cursor + 1, state, account)
  {
    if w.log[cursor] == AccountRow(account) {
      assert ReadBy(w.log, lead, AccountRow(account));
      assert account in state.counts;
      SeenSame(w, cursor, account);
      IndexPast(w, cursor, ArchivedOf(state.archived, account), Seen(w.docs, cursor, account));
    } else {
      SkipAccount(w, cursor, state, state, account);
    }
  }

  lemma SkipKeeps(w: World, lead: nat, cursor: nat, state: State)
    requires StoreOk(w) && cursor < lead <= |w.log| && LeadKind(w.log[cursor])
    requires LeadOk(w, lead, state) && AccountsOk(w, cursor, state)
    ensures AccountsOk(w, cursor + 1, state)
  {
    forall account | account in w.accounts ensures AccountOk(w, cursor + 1, state, account) {
      assert AccountOk(w, cursor, state, account);
      SkipOne(w, lead, cursor, state, account);
    }
  }

  lemma ReadKeeps(s: System)
    requires Inv(s) && Enabled(s, Read)
    ensures Inv(Next(s, Read))
  {
    if LeftOut(s) {
      SkipKeeps(s.w, s.lead, s.cursor, s.state);
    } else {
      ReadAccountsOk(s.w, s.cursor, s.state, s.mainRows[s.cursor]);
      ReadLeavesLead(s);
      ApplyCounts(s.state, s.mainRows[s.cursor]);
    }
    RowsLeft(s.w, s.cursor, s.mainRows);
  }

  lemma ApplyCounts(state: State, cs: seq<Change>)
    requires CountsOk(state) && |cs| <= 1
    ensures CountsOk(Apply(state, cs))
  {
    if |cs| == 1 {
      ApplySingle(state, cs[0]);
      assert cs == [cs[0]];
    }
  }

  lemma RowsLeft(w: World, from: nat, rows: Fetched)
    requires FetchedOk(w, from, rows)
    ensures FetchedOk(w, from + 1, rows - {from})
  {
  }

  // ---- The lead applies a row --------------------------------------------------------------------------------

  // An account row seen early adds an empty account or drops a removed one.
  lemma LeadAccount(w: World, cursor: nat, state: State, c: Change, account: AccountId)
    requires cursor <= |w.log| && StoreOk(w) && account in w.accounts && AccountOk(w, cursor, state, account)
    requires c.AccountChange? || (c.AccountRemovedChange? && c.account !in w.accounts)
    ensures AccountOk(w, cursor, ApplyOne(state, c), account)
  {
    if !About(c, account) {
      ApplyOthers(state, c, account);
    } else if account !in state.counts {
      NothingSeenYet(w, cursor, account);
      assert IndexOk(w, cursor, {}, {});
    }
  }

  lemma LeadChange(w: World, pos: nat, cs: seq<Change>)
    requires StoreOk(w) && pos < |w.log| && LeadKind(w.log[pos]) && Current(w, pos, cs)
    ensures |cs| == 1 ==> cs[0].AccountChange? || (cs[0].AccountRemovedChange? && cs[0].account !in w.accounts)
  {
  }

  lemma LeadAccountsOk(w: World, lead: nat, cursor: nat, state: State, cs: seq<Change>)
    requires StoreOk(w) && lead < |w.log| && cursor <= |w.log| && LeadKind(w.log[lead]) && Current(w, lead, cs)
    requires AccountsOk(w, cursor, state)
    ensures AccountsOk(w, cursor, Apply(state, cs))
  {
    CurrentApplies(w, state, lead, cs);
    LeadChange(w, lead, cs);
    if |cs| == 1 {
      forall account | account in w.accounts ensures AccountOk(w, cursor, ApplyOne(state, cs[0]), account) {
        assert AccountOk(w, cursor, state, account);
        LeadAccount(w, cursor, state, cs[0], account);
      }
    }
  }

  // The row the lead applies, or passes over.
  lemma LeadMovesOn(w: World, lead: nat, state: State, cs: seq<Change>)
    requires StoreOk(w) && lead < |w.log| && LeadKind(w.log[lead]) && Current(w, lead, cs)
    requires LeadOk(w, lead, state) && StrangersOk(w, lead, state)
    ensures LeadOk(w, lead + 1, Apply(state, cs)) && StrangersOk(w, lead + 1, Apply(state, cs))
  {
    var r := Apply(state, cs);
    UnreadAfter(w.log, lead);
    forall account | account in w.accounts && account !in r.counts
      ensures !ReadBy(w.log, lead + 1, AccountRow(account))
    {
      ApplyAccounts(w, state, lead, cs, account);
    }
    forall account | account in r.counts && account !in w.accounts
      ensures Unread(w.log, lead + 1, AccountRemovedRow(account))
    {
      ApplyAccounts(w, state, lead, cs, account);
      if w.log[lead] == AccountRow(account) {
        RemovalAhead(w, lead, account);
      }
    }
    ApplyKeys(w, state, lead, cs);
  }

  lemma LeadPassesOver(w: World, lead: nat, state: State)
    requires lead < |w.log| && !LeadKind(w.log[lead]) && LeadOk(w, lead, state) && StrangersOk(w, lead, state)
    ensures LeadOk(w, lead + 1, state) && StrangersOk(w, lead + 1, state)
  {
    UnreadAfter(w.log, lead);
  }

  lemma MarkMoves(w: World, mark: nat, lead: nat, cs: seq<Change>)
    requires MarkOk(w, mark, lead) && lead < |w.log| && (LeadKind(w.log[lead]) ==> Current(w, lead, cs))
    ensures MarkOk(w, if LeadKind(w.log[lead]) && cs != [] then lead + 1 else mark, lead + 1)
  {
  }

  lemma LeadKeeps(s: System)
    requires Inv(s) && Enabled(s, LeadRead)
    ensures Inv(Next(s, LeadRead))
  {
    if LeadKind(s.w.log[s.lead]) {
      var cs := s.leadRows[s.lead];
      LeadAccountsOk(s.w, s.lead, s.cursor, s.state, cs);
      LeadMovesOn(s.w, s.lead, s.state, cs);
      MarkMoves(s.w, s.mark, s.lead, cs);
      ApplyCounts(s.state, cs);
      RowsLeft(s.w, s.lead, s.leadRows);
    } else {
      LeadPassesOver(s.w, s.lead, s.state);
      MarkMoves(s.w, s.mark, s.lead, []);
      NotFetched(s.w, s.lead, s.leadRows);
    }
  }

  lemma NotFetched(w: World, lead: nat, rows: Fetched)
    requires lead < |w.log| && !LeadKind(w.log[lead]) && FetchedOk(w, lead, rows) && LeadRowsOk(w, rows)
    ensures FetchedOk(w, lead + 1, rows)
  {
  }

  // ---- The store changes under what was read ----------------------------------------------------------------

  lemma FetchIsCurrent(w: World, pos: nat)
    requires StoreOk(w) && pos < |w.log|
    ensures Current(w, pos, Materialize(w, pos))
  {
  }

  lemma DocumentStaysCurrent(w: World, cursor: nat, step: Step, pos: nat, id: DocumentId, c: Change)
    requires StoreOk(w) && StoreStep(step) && StoreEnabled(w, cursor, step) && cursor <= pos < |w.log|
    requires w.log[pos] == DocumentRow(id) && c.DocumentChange? && CurrentDocument(w, pos, id, c)
    ensures CurrentDocument(NextWorld(w, step), pos, id, c)
  {
    var w' := NextWorld(w, step);
    UnreadMore(w.log, pos + 1, w'.log[|w.log|]);
  }

  // A purge waits for every row of its document to be applied; all else is logged.
  lemma StaysCurrent(w: World, cursor: nat, step: Step, pos: nat, cs: seq<Change>)
    requires StoreOk(w) && StoreStep(step) && StoreEnabled(w, cursor, step) && pos < |w.log| && Current(w, pos, cs)
    requires cursor <= pos || LeadKind(w.log[pos])
    ensures Current(NextWorld(w, step), pos, cs)
  {
    match w.log[pos]
    case DocumentRow(id) =>
      if cs != [] {
        DocumentStaysCurrent(w, cursor, step, pos, id, cs[0]);
      }
    case PurgeRow(id) =>
    case AccountRow(account) =>
    case AccountRemovedRow(account) =>
  }

  lemma StoreLeavesRows(s: System, step: Step)
    requires Inv(s) && StoreStep(step) && Enabled(s, step)
    ensures FeedsOk(Next(s, step))
  {
    var w' := NextWorld(s.w, step);
    forall pos: nat | pos in s.mainRows ensures Current(w', pos, s.mainRows[pos]) {
      StaysCurrent(s.w, s.cursor, step, pos, s.mainRows[pos]);
    }
    forall pos: nat | pos in s.leadRows ensures Current(w', pos, s.leadRows[pos]) {
      StaysCurrent(s.w, s.cursor, step, pos, s.leadRows[pos]);
    }
  }

  // What happens to the store leaves the lead's side as it was.
  lemma StoreLeavesLead(s: System, step: Step)
    requires Inv(s) && StoreStep(step) && Enabled(s, step)
    ensures LeadOk(NextWorld(s.w, step), s.lead, s.state) && StrangersOk(NextWorld(s.w, step), s.lead, s.state)
  {
    var w, w' := s.w, NextWorld(s.w, step);
    var more := w'.log[|w.log|];
    UnreadMore(w.log, s.lead, more);
    forall account | account in w'.accounts && account !in s.state.counts
      ensures !ReadBy(w'.log, s.lead, AccountRow(account))
    {
      if account !in w.accounts {
        NeverAdded(w, s.lead, account);
      }
    }
  }

  lemma NeverAdded(w: World, n: nat, account: AccountId)
    requires StoreOk(w) && account !in w.usedAccounts
    ensures !ReadBy(w.log, n, AccountRow(account))
  {
    assert forall k :: 0 <= k < |w.log| ==> w.log[k] != AccountRow(account);
  }

  lemma StoreKeeps(s: System, step: Step)
    requires Inv(s) && StoreStep(step) && Enabled(s, step)
    ensures AccountsOk(NextWorld(s.w, step), s.cursor, s.state)
  {
    match step
    case AddAccount(account) => AccountKeeps(s, step);
    case TouchAccount(account) => AccountKeeps(s, step);
    case RemoveAccount(account) => RemoveKeeps(s, account);
    case Insert(id, account) => InsertKeeps(s, id, account);
    case Write(id, archived) => WriteKeeps(s, id, archived);
    case Purge(id) => PurgeKeeps(s, id);
  }

  lemma FetchKeeps(s: System, step: Step)
    requires Inv(s) && (step.Fetch? || step.LeadFetch?) && Enabled(s, step)
    ensures Inv(Next(s, step))
  {
    FetchIsCurrent(s.w, step.pos);
  }

  lemma StoreStepKeeps(s: System, step: Step)
    requires Inv(s) && StoreStep(step) && Enabled(s, step)
    ensures Inv(s.(w := NextWorld(s.w, step)))
  {
    StoreKeeps(s, step);
    StoreLeavesLead(s, step);
    StoreLeavesRows(s, step);
    StoreStepOk(s, step);
  }

  lemma StepKeeps(s: System, step: Step)
    requires Inv(s) && Enabled(s, step)
    ensures Inv(Next(s, step))
  {
    match step
    case Fetch(pos) => FetchKeeps(s, step);
    case LeadFetch(pos) => FetchKeeps(s, step);
    case Read => ReadKeeps(s);
    case LeadRead => LeadKeeps(s);
    case _ => StoreStepKeeps(s, step);
  }

  /** An empty store is a store; whatever happens to it from there on, it stays one. */
  lemma StoresAreOk(steps: seq<Step>)
    requires EnabledRun(NewSystem(), steps)
    ensures StoreOk(Exec(NewSystem(), steps).w)
  {
    assert Inv(NewSystem());
    RunKeeps(NewSystem(), steps);
  }

  function NewSystem(): System {
    System(World(map[], {}, [], {}, {}), 0, 0, 0, State(map[], map[]), map[], map[])
  }

  lemma {:induction false} RunKeeps(s: System, steps: seq<Step>)
    requires Inv(s) && EnabledRun(s, steps)
    ensures Inv(Exec(s, steps))
    decreases |steps|
  {
    if |steps| > 0 {
      StepKeeps(s, steps[0]);
      RunKeeps(Next(s, steps[0]), steps[1..]);
    }
  }

  lemma NothingUnread(w: World, index: set<DocumentId>, seen: set<DocumentId>)
    requires IndexOk(w, |w.log|, index, seen)
    ensures forall id :: id in index ==> id in seen
    ensures forall id :: id in seen && id in w.docs ==> (id in index <==> w.docs[id].archived)
  {
    assert forall row :: !Unread(w.log, |w.log|, row);
  }

  lemma AllSeen(w: World, account: AccountId)
    requires StoreOk(w)
    ensures Seen(w.docs, |w.log|, account) == LiveDocs(w, account) + ArchivedDocs(w, account)
  {
  }

  lemma IndexIsArchived(w: World, index: set<DocumentId>, account: AccountId)
    requires IndexOk(w, |w.log|, index, LiveDocs(w, account) + ArchivedDocs(w, account))
    ensures index == ArchivedDocs(w, account)
    ensures (LiveDocs(w, account) + ArchivedDocs(w, account)) - index == LiveDocs(w, account)
  {
    NothingUnread(w, index, LiveDocs(w, account) + ArchivedDocs(w, account));
  }

  lemma CaughtUpAccount(s: System, account: AccountId)
    requires Inv(s) && s.cursor == |s.w.log| && account in s.w.accounts
    ensures account in s.state.counts && s.state.counts[account] == |LiveDocs(s.w, account)|
    ensures ArchivedOf(s.state.archived, account) == ArchivedDocs(s.w, account)
  {
    assert AccountOk(s.w, s.cursor, s.state, account);
    AllSeen(s.w, account);
    assert !Unread(s.w.log, s.cursor, AccountRow(account));
    IndexIsArchived(s.w, ArchivedOf(s.state.archived, account), account);
  }

  predicate CaughtUp(s: System) {
    s.cursor == |s.w.log| && s.lead == |s.w.log|
  }

  /** The state is a recount: each account's live documents, its archived ones, and no account that is gone. */
  ghost predicate Exact(s: System) {
    && s.state.counts == Recount(s.w).counts && s.state.archived.Keys <= s.w.accounts
    && forall account {:trigger account in s.w.accounts} :: account in s.w.accounts ==>
         ArchivedOf(s.state.archived, account) == ArchivedDocs(s.w, account)
  }

  /** In a state of the invariant, once both feeds are caught up the state is a recount. */
  lemma CaughtUpIsRecount(s: System)
    requires Inv(s) && CaughtUp(s)
    ensures Exact(s)
  {
    forall account | account in s.w.accounts
      ensures account in s.state.counts && s.state.counts[account] == |LiveDocs(s.w, account)| &&
              ArchivedOf(s.state.archived, account) == ArchivedDocs(s.w, account)
    {
      CaughtUpAccount(s, account);
    }
    assert forall row :: !Unread(s.w.log, s.lead, row);
  }

  /**
   * The main feed applies what it read of every row but the account rows up to the last change
   * the lead applied; the lead applies account rows only, and remembers the last with content.
   */
  lemma FeedsApply(s: System, step: Step)
    requires Enabled(s, step) && (step.Read? || step.LeadRead?)
    ensures var r, row := Next(s, step), s.w.log[if step.Read? then s.cursor else s.lead];
            var account := row.AccountRow? || row.AccountRemovedRow?;
            r.w == s.w &&
            if step.Read? then
              && r.cursor == s.cursor + 1 && r.lead == s.lead && r.mark == s.mark
              && r.state == if account && s.cursor < s.mark then s.state else Apply(s.state, s.mainRows[s.cursor])
            else
              && r.lead == s.lead + 1 && r.cursor == s.cursor
              && r.state == (if account then Apply(s.state, s.leadRows[s.lead]) else s.state)
              && r.mark == if account && s.leadRows[s.lead] != [] then s.lead + 1 else s.mark
  {
  }

  // ---- The clamp at zero ---------------------------------------------------------------------------------------

  // The next row is a document row; applying it takes the account's count below zero but for the clamp.
  predicate Clamps(s: System, c: Change)
    requires c.DocumentChange?
  {
    var account := c.document.account;
    account in s.state.counts &&
    s.state.counts[account] + Delta(s.cursor, c.id, c.document, ArchivedOf(s.state.archived, account)) < 0
  }

  /** It never fires for an account that is still there. */
  lemma ClampNeverFires(s: System, c: Change)
    requires Inv(s) && Enabled(s, Read) && s.mainRows[s.cursor] == [c] && c.DocumentChange?
    requires c.document.account in s.w.accounts
    ensures c.document.account in s.state.counts && !Clamps(s, c)
  {
    assert Current(s.w, s.cursor, [c]);
    assert AccountOk(s.w, s.cursor, s.state, c.document.account);
    ReadDocument(s.w, s.cursor, s.state, c);
  }

  /**
   * It fires exactly for a row of an account removed since the row was read, whose entry still
   * shows no document, when the row is not the document's first and finds it newly archived.
   */
  lemma ClampFiresIff(s: System, c: Change)
    requires Inv(s) && Enabled(s, Read) && s.mainRows[s.cursor] == [c] && c.DocumentChange?
    ensures var account := c.document.account;
            Clamps(s, c) <==>
            && account !in s.w.accounts && account in s.state.counts && s.state.counts[account] == 0
            && s.cursor != c.document.ingestSeq && c.document.archived
            && c.id !in ArchivedOf(s.state.archived, account)
  {
    if c.document.account in s.w.accounts {
      ClampNeverFires(s, c);
    } else if c.document.account in s.state.counts {
      assert s.state.counts[c.document.account] >= 0;
    }
  }
}
