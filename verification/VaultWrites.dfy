/** Exactly which vault writes land, and what the table keeps because the others do not. */
module VaultWrites {
  import opened Basics
  import opened VaultServer
  import L = ParentLinks

  // ---------------------------------------------------------------------
  // Which writes land
  // ---------------------------------------------------------------------

  /** `id` is alive and a folder. */
  ghost predicate TakesChildren(rows: map<Id, Row>, id: Id) {
    id in rows && rows[id].Live? && rows[id].item.kind == Folder
  }

  /** No item alive has the content stored under `key`. */
  ghost predicate Unowned(rows: map<Id, Row>, key: Id) {
    forall id :: id in rows && rows[id].Live? ==> rows[id].item.blobKey != Some(key)
  }

  /** What must hold at the moment of the write, read off the rows and the links between them. */
  ghost predicate Possible(rows: map<Id, Row>, op: Op) {
    match op
    case Create(id, parentId, _, _, _, blobKey, blobFree) =>
      && id !in rows && |set k | k in rows && rows[k].Live?| < 10_000
      && (parentId.Some? ==> TakesChildren(rows, parentId.value))
      && (blobKey.Some? ==> blobFree && Unowned(rows, blobKey.value))
    case Update(id, revision, edit, blobFree) =>
      && id in rows && rows[id].Live? && rows[id].item.revision == revision
      && (edit.move.Some? && edit.move.value.Some? ==>
            TakesChildren(rows, edit.move.value.value) && !L.InTree(Parents(rows), id, edit.move.value.value))
      && (edit.content.Some? ==> blobFree && Unowned(rows, edit.content.value))
    case Reseal(id, revision, keyEpoch, _) =>
      id in rows && rows[id].Live? && rows[id].item.revision == revision && rows[id].item.keyEpoch < keyEpoch
    case Purge(id, _, Expired(before, blobKey)) =>
      && id in rows && rows[id].Live? && rows[id].item.blobKey == blobKey
      && rows[id].item.trashedAt.Some? && rows[id].item.trashedAt.value < before
    case Purge(id, _, Inside(root)) => id in rows && rows[id].Live? && L.InTree(Parents(rows), root, id)
    case Forget(_) => true
  }

  /**
   * A write lands exactly when, at that moment: the item is alive at the very revision the write names (or new,
   * in a vault that is not full), the folder it goes to is alive and not nested in it, its content is nobody
   * else's, a seal is newer, and a purge still finds the item where, and as, it was chosen.
   */
  lemma LandsExactly(v: Vault, op: Op)
    requires !op.Forget?
    ensures Written(v.rows, op, v.seqNo + 1).Some? <==> Possible(v.rows, op)
  {
    assert LiveIds(v.rows) == set k | k in v.rows && v.rows[k].Live?;
    if op.Update? && op.edit.move.Some? && op.edit.move.value.Some? {
      L.SubtreeExact(Parents(v.rows), op.id, op.edit.move.value.value);
    } else if op.Purge? && op.guard.Inside? {
      L.SubtreeExact(Parents(v.rows), op.guard.root, op.id);
    }
  }

  // ---------------------------------------------------------------------
  // What the refusals keep
  // ---------------------------------------------------------------------

  predicate Owns(rows: map<Id, Row>, id: Id) {
    id in rows && rows[id].Live? && rows[id].item.blobKey.Some?
  }

  ghost predicate OneOwner(rows: map<Id, Row>) {
    forall a, b {:trigger Compare(a, b)} ::
      Compare(a, b) && Owns(rows, a) && Owns(rows, b) && rows[a].item.blobKey == rows[b].item.blobKey ==> a == b
  }

  ghost predicate FoldersHold(rows: map<Id, Row>) {
    forall id :: id in rows && rows[id].Live? && rows[id].item.parentId.Some? ==>
      var parent := rows[id].item.parentId.value;
      parent in rows && rows[parent].Live? ==> rows[parent].item.kind == Folder
  }

  /** No content has two owners, the vault is within its limit, and only folders hold anything. */
  ghost predicate Sound(v: Vault) {
    OneOwner(v.rows) && FoldersHold(v.rows) && |LiveIds(v.rows)| <= VAULT_MAX_ITEMS
  }

  lemma OneOwnerStays(v: Vault, op: Op)
    requires OneOwner(v.rows)
    ensures OneOwner(Apply(v, op).rows)
  {
    var rows := Apply(v, op).rows;
    forall a, b | Compare(a, b) && Owns(rows, a) && Owns(rows, b) && rows[a].item.blobKey == rows[b].item.blobKey
      ensures a == b
    {
      assert Compare(a, b);
    }
  }

  lemma FoldersStillHold(v: Vault, op: Op)
    requires FoldersHold(v.rows) && FreshId(v, op)
    ensures FoldersHold(Apply(v, op).rows)
  {
    forall id | id in v.rows && op.Create? ensures v.rows[id].Parent() != Some(op.id) {
    }
  }

  lemma StaysWithinLimit(v: Vault, op: Op)
    requires |LiveIds(v.rows)| <= VAULT_MAX_ITEMS
    ensures |LiveIds(Apply(v, op).rows)| <= VAULT_MAX_ITEMS
  {
    var before, after := LiveIds(v.rows), LiveIds(Apply(v, op).rows);
    if op.Create? {
      if CreateLands(v.rows, op) {
        assert after == before + {op.id};
      } else {
        assert after == before;
      }
    } else {
      assert after <= before;
      Fewer(after, before);
    }
  }

  lemma Fewer(a: set<Id>, b: set<Id>)
    requires a <= b
    ensures |a| <= |b|
  {
    assert b == a + (b - a);
  }

  /** Every write, in whatever order requests commit, keeps contents, folders and the limit sound. */
  lemma SoundStays(v: Vault, op: Op)
    requires Sound(v) && FreshId(v, op)
    ensures Sound(Apply(v, op))
  {
    OneOwnerStays(v, op);
    FoldersStillHold(v, op);
    StaysWithinLimit(v, op);
  }

  // ---------------------------------------------------------------------
  // Sealing again and editing
  // ---------------------------------------------------------------------

  /** A sealing again meant for the version before an edit never lands after it, whatever commits in between. */
  lemma EditBeatsReseal(v: Vault, edit: Op, between: seq<Op>, reseal: Op)
    requires edit.Update? && reseal.Reseal? && edit.id == reseal.id && edit.revision == reseal.revision
    requires UpdateLands(v.rows, edit)
    requires forall op :: op in between && op.Create? ==> op.id != edit.id
    ensures !ResealLands(Run(Apply(v, edit), between).rows, reseal)
  {
    RevisionStaysPast(Apply(v, edit), between, edit.id, edit.revision);
  }

  /** And sealing again gets in no edit's way: what would have landed before it lands after it. */
  lemma ResealBlocksNoEdit(v: Vault, reseal: Op, edit: Op)
    requires reseal.Reseal? && edit.Update?
    ensures UpdateLands(Apply(v, reseal).rows, edit) <==> UpdateLands(v.rows, edit)
  {
    var rows, after := v.rows, Apply(v, reseal).rows;
    assert Parents(after) == Parents(rows);
    assert forall id :: IsLive(rows, id) <==> IsLive(after, id);
    assert forall id :: IsLive(rows, id) ==>
        after[id].item.(keyEpoch := 0, meta := 0, seqNo := 0) == rows[id].item.(keyEpoch := 0, meta := 0, seqNo := 0);
    if edit.edit.content.Some? {
      SameOwners(rows, after, edit.edit.content.value);
    }
  }

  lemma SameOwners(rows: map<Id, Row>, after: map<Id, Row>, key: Id)
    requires forall id :: IsLive(rows, id) <==> IsLive(after, id)
    requires forall id :: IsLive(rows, id) && IsLive(after, id) ==> after[id].item.blobKey == rows[id].item.blobKey
    ensures BlobClaimed(after, key) <==> BlobClaimed(rows, key)
  {
    if id :| id in rows && rows[id].Live? && rows[id].item.blobKey == Some(key) {
      assert IsLive(after, id);
    }
    if id :| id in after && after[id].Live? && after[id].item.blobKey == Some(key) {
      assert IsLive(rows, id);
    }
  }
}
