/**
 * apply() in its own form: a loop over the changes that edits a copy-on-write draft
 * of the archived index. The index passed in, and the sets it shares with earlier
 * states, are never written: apply modifies nothing that existed before it.
 */
module Projection {
  import opened ProjectionSpec

  class DocSet {
    var ids: set<DocumentId>

    constructor (ids: set<DocumentId>)
      ensures this.ids == ids
    {
      this.ids := ids;
    }
  }

  type Index = map<AccountId, DocSet>

  ghost function Contents(index: Index): Archived
    reads index.Values
  {
    map account | account in index :: index[account].ids
  }

  class DraftIndex {
    const base: Index
    var current: Index       // the base itself, or the draft's own copy of it
    var owned: set<AccountId>
    ghost const before: set<object>  // everything the draft may not write

    ghost var mine: set<object>       // the sets the draft has made its own

    ghost predicate Valid()
      reads this
    {
      && owned <= current.Keys && base.Values <= before && mine !! before
      && (forall a {:trigger current[a]} :: a in current ==>
           if a in owned then current[a] in mine else a in base && current[a] == base[a])
      && (forall a, b {:trigger current[a], current[b]} ::
           a in owned && b in owned && a != b && a in current && b in current ==> current[a] != current[b])
    }

    constructor (base: Index, ghost before: set<object>)
      requires base.Values <= before
      ensures Valid() && mine == {} && current == base
      ensures fresh(this)
    {
      this.base, current, owned := base, base, {};
      this.before, mine := before, {};
    }

    method Has(account: AccountId, id: DocumentId) returns (r: bool)
      requires Valid()
      ensures r == (id in ArchivedOf(Contents(current), account))
    {
      r := account in current && id in current[account].ids;
    }

    method Own(account: AccountId) returns (s: DocSet)
      requires Valid()
      modifies this
      ensures Valid() && account in owned && current[account] == s
      ensures s.ids == old(ArchivedOf(Contents(current), account))
      ensures forall a :: a != account ==>
                (a in current <==> a in old(current)) && (a in current ==> current[a] == old(current)[a])
      ensures owned == old(owned) + {account}
      ensures s in mine
      ensures fresh(mine - old(mine))
      ensures forall a :: a in current && a != account ==> current[a] != s
    {
      if account in owned { return current[account]; }
      s := new DocSet(if account in current then current[account].ids else {});
      current := current[account := s];
      owned := owned + {account};
      mine := mine + {s};
    }

    method Replace(account: AccountId, ids: set<DocumentId>)
      requires Valid()
      modifies this, mine
      ensures Valid() && fresh(mine - old(mine))
      ensures Contents(current) == old(Contents(current))[account := ids]
    {
      var s := Own(account);
      s.ids := ids;
    }

    method Add(account: AccountId, id: DocumentId)
      requires Valid()
      modifies this, mine
      ensures Valid() && fresh(mine - old(mine))
      ensures Contents(current) == old(Contents(current))[account := old(ArchivedOf(Contents(current), account)) + {id}]
    {
      Replace(account, (if account in current then current[account].ids else {}) + {id});
    }

    method Remove(account: AccountId, id: DocumentId)
      requires Valid()
      modifies this, mine
      ensures Valid() && fresh(mine - old(mine))
      ensures Contents(current) == old(Contents(current))[account := old(ArchivedOf(Contents(current), account)) - {id}]
    {
      Replace(account, (if account in current then current[account].ids else {}) - {id});
    }

    method DropAccount(account: AccountId)
      requires Valid()
      modifies this
      ensures Valid() && mine == old(mine)
      ensures Contents(current) == old(Contents(current)) - {account}
    {
      if account !in current { return; }
      current := current - {account};
      owned := owned - {account};
    }

    method PurgeDocument(id: DocumentId)
      requires Valid()
      modifies this, mine
      ensures Valid() && fresh(mine - old(mine))
      ensures Contents(current) == PurgeIndex(old(Contents(current)), id)
    {
      var todo := current.Keys;
      ghost var start := Contents(current);
      assert PurgedExcept(start, id, todo) == start;
      while todo != {}
        invariant Valid() && fresh(mine - old(mine))
        invariant todo <= start.Keys && Contents(current) == PurgedExcept(start, id, todo)
        decreases todo
      {
        var account :| account in todo;
        assert account in Contents(current);
        PurgeOne(start, id, todo, account);
        if id in current[account].ids {
          Remove(account, id);
        }
        todo := todo - {account};
      }
      assert PurgedExcept(start, id, {}) == PurgeIndex(start, id);
    }
  }

  // A purge that has handled every account but those in `todo`.
  ghost function PurgedExcept(index: Archived, id: DocumentId, todo: set<AccountId>): Archived {
    map a | a in index :: if a in todo then index[a] else index[a] - {id}
  }

  lemma PurgeOne(index: Archived, id: DocumentId, todo: set<AccountId>, account: AccountId)
    requires account in todo && account in index
    ensures var before := PurgedExcept(index, id, todo);
            before[account := ArchivedOf(before, account) - {id}] == PurgedExcept(index, id, todo - {account})
    ensures id !in index[account] ==> PurgedExcept(index, id, todo) == PurgedExcept(index, id, todo - {account})
  {
    assert id !in index[account] ==> index[account] - {id} == index[account];
  }

  method ApplyChange(counts: map<AccountId, int>, draft: DraftIndex, c: Change) returns (counts': map<AccountId, int>)
    requires draft.Valid()
    modifies draft, draft.mine
    ensures draft.Valid() && fresh(draft.mine - old(draft.mine))
    ensures State(counts', Contents(draft.current)) == ApplyOne(State(counts, old(Contents(draft.current))), c)
  {
    counts' := counts;
    match c {
      case AccountChange(account) =>
        if account !in counts {
          counts' := counts[account := 0];
        }
      case AccountRemovedChange(account) =>
        counts' := counts - {account};
        draft.DropAccount(account);
      case PurgeChange(id) =>
        draft.PurgeDocument(id);
      case DocumentChange(pos, id, document) =>
        if document.account in counts {
          counts' := CountDocument(counts, draft, pos, id, document);
        }
    }
  }

  method CountDocument(counts: map<AccountId, int>, draft: DraftIndex, pos: nat, id: DocumentId, document: Document)
    returns (counts': map<AccountId, int>)
    requires draft.Valid() && document.account in counts
    modifies draft, draft.mine
    ensures draft.Valid() && fresh(draft.mine - old(draft.mine))
    ensures State(counts', Contents(draft.current)) ==
            ApplyOne(State(counts, old(Contents(draft.current))), DocumentChange(pos, id, document))
  {
    var account := document.account;
    var wasArchived := draft.Has(account, id);
    ghost var before := ArchivedOf(Contents(draft.current), account);
    assert id in before ==> before + {id} == before;
    assert id !in before ==> before - {id} == before;
    var delta := if pos == document.ingestSeq then 1 else 0;
    if document.archived {
      if !wasArchived {
        delta := delta - 1;
        draft.Add(account, id);
      }
    } else if wasArchived {
      delta := delta + 1;
      draft.Remove(account, id);
    }
    counts' := counts[account := Max(0, counts[account] + delta)];
  }

  /** One batch: the counts and index it leads to, writing only what it allocated itself. */
  method ApplyChanges(counts: map<AccountId, int>, index: Index, changes: seq<Change>)
    returns (counts': map<AccountId, int>, index': Index)
    ensures State(counts', Contents(index')) == Apply(State(counts, Contents(index)), changes)
    ensures Contents(index) == old(Contents(index))
  {
    counts' := counts;
    ghost var start := State(counts, Contents(index));
    var draft := new DraftIndex(index, index.Values);
    for i := 0 to |changes|
      invariant draft.Valid() && fresh(draft) && fresh(draft.mine)
      invariant State(counts', Contents(draft.current)) == Apply(start, changes[..i])
    {
      assert changes[..i + 1][..i] == changes[..i];
      counts' := ApplyChange(counts', draft, changes[i]);
    }
    assert changes[..|changes|] == changes;
    index' := draft.current;
  }
}
