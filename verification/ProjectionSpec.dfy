/**
 * The renderer projection's live-document counts: one change at a time, and the
 * store and feed they are read from.
 */
module ProjectionSpec {
  type AccountId = nat
  type DocumentId = nat

  datatype Document = Document(account: AccountId, ingestSeq: nat, archived: bool)

  datatype Change =
    | DocumentChange(pos: nat, id: DocumentId, document: Document)
    | PurgeChange(id: DocumentId)
    | AccountChange(account: AccountId)
    | AccountRemovedChange(account: AccountId)

  type Archived = map<AccountId, set<DocumentId>>

  // The feed-derived slices: each account's docCount, and the archived index.
  datatype State = State(counts: map<AccountId, int>, archived: Archived)

  function ArchivedOf(index: Archived, account: AccountId): set<DocumentId> {
    if account in index then index[account] else {}
  }

  function Max(a: int, b: int): int { if a < b then b else a }

  function PurgeIndex(index: Archived, id: DocumentId): Archived {
    map account | account in index :: index[account] - {id}
  }

  // What a document row changes in its account's count and archived set.
  function Delta(pos: nat, id: DocumentId, document: Document, archived: set<DocumentId>): int {
    (if pos == document.ingestSeq then 1 else 0)
    + (if document.archived && id !in archived then -1 else if !document.archived && id in archived then 1 else 0)
  }

  function ArchivedAfter(id: DocumentId, document: Document, archived: set<DocumentId>): set<DocumentId> {
    if document.archived then archived + {id} else archived - {id}
  }

  function ApplyOne(s: State, c: Change): State {
    match c
    case AccountChange(account) =>
      if account in s.counts then s else s.(counts := s.counts[account := 0])
    case AccountRemovedChange(account) =>
      State(s.counts - {account}, s.archived - {account})
    case PurgeChange(id) => s.(archived := PurgeIndex(s.archived, id))
    case DocumentChange(pos, id, document) =>
      if document.account !in s.counts then s else
        var before := ArchivedOf(s.archived, document.account);
        var after := ArchivedAfter(id, document, before);
        State(s.counts[document.account := Max(0, s.counts[document.account] + Delta(pos, id, document, before))],
              if after == before then s.archived else s.archived[document.account := after])
  }

  function Apply(s: State, changes: seq<Change>): State
    decreases |changes|
  {
    if |changes| == 0 then s
    else ApplyOne(Apply(s, changes[..|changes| - 1]), changes[|changes| - 1])
  }

  // ---- The store and its feed ------------------------------------------------------------

  datatype Row =
    | DocumentRow(id: DocumentId)
    | PurgeRow(id: DocumentId)
    | AccountRow(account: AccountId)
    | AccountRemovedRow(account: AccountId)

  // The store: live and archived documents, accounts, the append-only change log, and every
  // id ever used.
  datatype World = World(docs: map<DocumentId, Document>, accounts: set<AccountId>, log: seq<Row>,
                         usedDocs: set<DocumentId>, usedAccounts: set<AccountId>)

  /** A row as the feed hands it over: with the current state, or not at all when that is gone. */
  function Materialize(w: World, pos: nat): seq<Change>
    requires pos < |w.log|
  {
    match w.log[pos]
    case DocumentRow(id) => if id in w.docs then [DocumentChange(pos, id, w.docs[id])] else []
    case PurgeRow(id) => [PurgeChange(id)]
    case AccountRow(account) => if account in w.accounts then [AccountChange(account)] else []
    case AccountRemovedRow(account) => [AccountRemovedChange(account)]
  }

  // What a feed has read of its rows and not applied yet.
  type Fetched = map<nat, seq<Change>>

  // The store, how far the lead and the main feed are applied, and what the projection shows.
  // `mark` is past the last change the lead applied.
  datatype System = System(w: World, lead: nat, mark: nat, cursor: nat, state: State, leadRows: Fetched,
                           mainRows: Fetched)

  datatype Step =
    | AddAccount(account: AccountId)
    | TouchAccount(account: AccountId)
    | RemoveAccount(account: AccountId)
    | Insert(id: DocumentId, account: AccountId)
    | Write(id: DocumentId, archived: bool)  // update, archive or restore
    | Purge(id: DocumentId)
    | Fetch(pos: nat)                        // the main feed reads the content of a row
    | Read                                   // and applies its next row
    | LeadFetch(pos: nat)                    // the lead, which sees account rows only
    | LeadRead

  predicate StoreStep(step: Step) {
    !step.Fetch? && !step.Read? && !step.LeadFetch? && !step.LeadRead?
  }

  predicate StoreEnabled(w: World, cursor: nat, step: Step) {
    match step
    case AddAccount(account) => account !in w.usedAccounts
    case TouchAccount(account) => account in w.accounts
    case RemoveAccount(account) => account in w.accounts
    case Insert(id, account) => id !in w.usedDocs && account in w.accounts
    case Write(id, archived) => id in w.docs
    // Only long archived documents are purged: the reader is past their last row.
    case Purge(id) => id in w.docs && w.docs[id].archived &&
                      forall k :: cursor <= k < |w.log| ==> w.log[k] != DocumentRow(id)
    case _ => true
  }

  predicate Enabled(s: System, step: Step) {
    match step
    case Fetch(pos) => s.cursor <= pos < |s.w.log| && pos !in s.mainRows
    case Read => s.cursor < |s.w.log| && s.cursor in s.mainRows
    case LeadFetch(pos) => s.lead <= pos < |s.w.log| && pos !in s.leadRows && LeadKind(s.w.log[pos])
    case LeadRead => s.lead < |s.w.log| && (LeadKind(s.w.log[s.lead]) ==> s.lead in s.leadRows)
    case _ => StoreEnabled(s.w, s.cursor, step)
  }

  // Projection.leadKinds
  predicate LeadKind(row: Row) {
    row.AccountRow? || row.AccountRemovedRow?
  }

  function Append(w: World, row: Row): World {
    w.(log := w.log + [row])
  }

  function NextWorld(w: World, step: Step): World
    requires step.Write? ==> step.id in w.docs
  {
    match step
    case AddAccount(account) =>
      Append(w.(accounts := w.accounts + {account}, usedAccounts := w.usedAccounts + {account}), AccountRow(account))
    case TouchAccount(account) => Append(w, AccountRow(account))
    case RemoveAccount(account) =>
      Append(w.(accounts := w.accounts - {account},
                docs := map id | id in w.docs && w.docs[id].account != account :: w.docs[id]),
             AccountRemovedRow(account))
    case Insert(id, account) =>
      Append(w.(docs := w.docs[id := Document(account, |w.log|, false)], usedDocs := w.usedDocs + {id}),
             DocumentRow(id))
    case Write(id, archived) => Append(w.(docs := w.docs[id := w.docs[id].(archived := archived)]), DocumentRow(id))
    case Purge(id) => Append(w.(docs := w.docs - {id}), PurgeRow(id))
    case _ => w
  }

  // The main feed leaves out the account rows up to the last one the lead applied.
  predicate LeftOut(s: System)
    requires s.cursor < |s.w.log|
  {
    s.cursor < s.mark && LeadKind(s.w.log[s.cursor])
  }

  function Next(s: System, step: Step): System
    requires Enabled(s, step)
  {
    match step
    case Fetch(pos) => s.(mainRows := s.mainRows[pos := Materialize(s.w, pos)])
    case Read =>
      s.(cursor := s.cursor + 1, mainRows := s.mainRows - {s.cursor},
         state := if LeftOut(s) then s.state else Apply(s.state, s.mainRows[s.cursor]))
    case LeadFetch(pos) => s.(leadRows := s.leadRows[pos := Materialize(s.w, pos)])
    case LeadRead =>
      if !LeadKind(s.w.log[s.lead]) then s.(lead := s.lead + 1)
      else
        var cs := s.leadRows[s.lead];
        s.(lead := s.lead + 1, leadRows := s.leadRows - {s.lead},
           mark := if cs == [] then s.mark else s.lead + 1,
           state := Apply(s.state, cs))
    case _ => s.(w := NextWorld(s.w, step))
  }

  predicate EnabledRun(s: System, steps: seq<Step>)
    decreases |steps|
  {
    |steps| == 0 || (Enabled(s, steps[0]) && EnabledRun(Next(s, steps[0]), steps[1..]))
  }

  function Exec(s: System, steps: seq<Step>): System
    requires EnabledRun(s, steps)
    decreases |steps|
  {
    if |steps| == 0 then s else Exec(Next(s, steps[0]), steps[1..])
  }

  // ---- What the counts should be ----------------------------------------------------------

  ghost function LiveDocs(w: World, account: AccountId): set<DocumentId> {
    set id | id in w.docs && w.docs[id].account == account && !w.docs[id].archived
  }

  ghost function ArchivedDocs(w: World, account: AccountId): set<DocumentId> {
    set id | id in w.docs && w.docs[id].account == account && w.docs[id].archived
  }

  /** An exact recount of the store. */
  ghost function Recount(w: World): State {
    State(map account | account in w.accounts :: |LiveDocs(w, account)|,
          map account | account in w.accounts :: ArchivedDocs(w, account))
  }
}
