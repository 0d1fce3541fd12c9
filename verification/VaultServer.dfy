/**
 * The server's half of the vault: the rows of one space in `vault_items`, the
 * change counter and the floor, and the statements that write them. One D1
 * batch is one transaction, so each `Op` is one atomic step.
 */
module VaultServer {
  import opened Basics
  import L = ParentLinks

  const VAULT_MAX_ITEMS: nat := 10_000

  /** A ciphertext; the server only stores it and hands it back. */
  type Sealed = nat

  datatype Kind = Folder | Note | File

  datatype Item = Item(
    id: Id,
    parentId: Option<Id>,
    kind: Kind,
    keyEpoch: nat,
    meta: Sealed,
    blobKey: Option<Id>,
    revision: nat,
    trashedAt: Option<nat>,
    seqNo: nat)

  datatype Row =
    | Live(item: Item)
    | Tombstone(id: Id, parentId: Option<Id>, removedAt: nat, seqNo: nat)
  {
    function Key(): Id { if Live? then item.id else id }
    function Seq(): nat { if Live? then item.seqNo else seqNo }
    function Parent(): Option<Id> { if Live? then item.parentId else parentId }
  }

  datatype Vault = Vault(rows: map<Id, Row>, seqNo: nat, floor: nat)

  /** Extra conditions on a tombstone statement. */
  datatype Guard =
    | Expired(before: nat, blobKey: Option<Id>)  // still in the trash since then, still that content
    | Inside(root: Id)                           // still nested in the item being purged

  /** What one `PATCH` sets; an absent field is left alone. */
  datatype Edit = Edit(
    move: Option<Option<Id>>,
    seal: Option<(nat, Sealed)>,
    content: Option<Id>,
    trash: Option<Option<nat>>)

  /**
   * `blobFree` stands for the part of `BLOB_CLAIMABLE` that reads the blob
   * accounting table (module `VaultBlobs` has that side).
   */
  datatype Op =
    | Create(id: Id, parentId: Option<Id>, kind: Kind, keyEpoch: nat, meta: Sealed, blobKey: Option<Id>, blobFree: bool)
    | Update(id: Id, revision: nat, edit: Edit, blobFree: bool)
    | Reseal(id: Id, revision: nat, keyEpoch: nat, meta: Sealed)
    | Purge(id: Id, now: nat, guard: Guard)
    | Forget(before: nat)

  // ---------------------------------------------------------------------
  // Reading
  // ---------------------------------------------------------------------

  function Parents(rows: map<Id, Row>): L.Links {
    map id | id in rows :: rows[id].Parent()
  }

  predicate IsLive(rows: map<Id, Row>, id: Id) {
    id in rows && rows[id].Live?
  }

  function LiveIds(rows: map<Id, Row>): set<Id> {
    set id | id in rows && rows[id].Live?
  }

  /** What an exact replica of this state holds. */
  function LiveItems(rows: map<Id, Row>): map<Id, Item> {
    map id | id in rows && rows[id].Live? :: rows[id].item
  }

  predicate LiveFolder(rows: map<Id, Row>, id: Id) {
    IsLive(rows, id) && rows[id].item.kind == Folder
  }

  predicate BlobClaimed(rows: map<Id, Row>, key: Id) {
    exists id :: id in rows && rows[id].Live? && rows[id].item.blobKey == Some(key)
  }

  // ---------------------------------------------------------------------
  // Writing
  // ---------------------------------------------------------------------

  predicate CreateLands(rows: map<Id, Row>, op: Op)
    requires op.Create?
  {
    && |LiveIds(rows)| < VAULT_MAX_ITEMS
    && (op.parentId.Some? ==> LiveFolder(rows, op.parentId.value))
    && (op.blobKey.Some? ==> !BlobClaimed(rows, op.blobKey.value) && op.blobFree)
    && op.id !in rows
  }

  predicate UpdateLands(rows: map<Id, Row>, op: Op)
    requires op.Update?
  {
    && IsLive(rows, op.id)
    && rows[op.id].item.revision == op.revision
    && (op.edit.move.Some? && op.edit.move.value.Some? ==>
          && LiveFolder(rows, op.edit.move.value.value)
          && op.edit.move.value.value !in L.Subtree(Parents(rows), op.id))
    && (op.edit.content.Some? ==> !BlobClaimed(rows, op.edit.content.value) && op.blobFree)
  }

  predicate ResealLands(rows: map<Id, Row>, op: Op)
    requires op.Reseal?
  {
    IsLive(rows, op.id) && rows[op.id].item.revision == op.revision && rows[op.id].item.keyEpoch < op.keyEpoch
  }

  predicate PurgeLands(rows: map<Id, Row>, op: Op)
    requires op.Purge?
  {
    && IsLive(rows, op.id)
    && match op.guard
       case Expired(before, blobKey) =>
         && rows[op.id].item.trashedAt.Some?
         && rows[op.id].item.trashedAt.value < before
         && rows[op.id].item.blobKey == blobKey
       case Inside(root) => op.id in L.Subtree(Parents(rows), root)
  }

  function Edited(item: Item, edit: Edit, seqNo: nat): Item {
    item.(
      parentId := if edit.move.Some? then edit.move.value else item.parentId,
      keyEpoch := if edit.seal.Some? then edit.seal.value.0 else item.keyEpoch,
      meta := if edit.seal.Some? then edit.seal.value.1 else item.meta,
      blobKey := if edit.content.Some? then edit.content else item.blobKey,
      trashedAt := if edit.trash.Some? then edit.trash.value else item.trashedAt,
      revision := item.revision + 1,
      seqNo := seqNo)
  }

  predicate Forgotten(row: Row, before: nat) {
    row.Tombstone? && row.removedAt < before
  }

  /** `MAX(seq)` over the tombstones about to be forgotten, among change numbers up to `q`; 0 for none. */
  function NewestForgotten(rows: map<Id, Row>, before: nat, q: nat): (m: nat)
    ensures m <= q
    ensures forall id :: id in rows && Forgotten(rows[id], before) && rows[id].Seq() <= q ==> rows[id].Seq() <= m
  {
    if q == 0 then 0
    else if exists id :: id in rows && Forgotten(rows[id], before) && rows[id].Seq() == q then q
    else NewestForgotten(rows, before, q - 1)
  }

  /** The row a guarded statement leaves, stamped `n`; `None` when its guard fails. */
  function Written(rows: map<Id, Row>, op: Op, n: nat): Option<Row>
    requires !op.Forget?
  {
    match op
    case Create(id, parentId, kind, keyEpoch, meta, blobKey, _) =>
      if CreateLands(rows, op) then Some(Live(Item(id, parentId, kind, keyEpoch, meta, blobKey, 1, None, n))) else None
    case Update(id, _, edit, _) =>
      if UpdateLands(rows, op) then Some(Live(Edited(rows[id].item, edit, n))) else None
    case Reseal(id, _, keyEpoch, meta) =>
      if ResealLands(rows, op)
      then Some(Live(rows[id].item.(keyEpoch := keyEpoch, meta := meta, seqNo := n)))
      else None
    case Purge(id, now, _) =>
      if PurgeLands(rows, op) then Some(Tombstone(id, rows[id].Parent(), now, n)) else None
  }

  /**
   * One batch. `nextVaultSeq` runs first and unconditionally, so a write whose
   * guard fails still uses up a change number; `Forget` takes none.
   */
  function Apply(v: Vault, op: Op): Vault {
    if op.Forget? then
      Vault(map id | id in v.rows && !Forgotten(v.rows[id], op.before) :: v.rows[id],
            v.seqNo,
            Max(v.floor, NewestForgotten(v.rows, op.before, v.seqNo)))
    else
      var row := Written(v.rows, op, v.seqNo + 1);
      Vault(if row.Some? then v.rows[op.id := row.value] else v.rows, v.seqNo + 1, v.floor)
  }

  function Run(v: Vault, ops: seq<Op>): Vault
    decreases |ops|
  {
    if ops == [] then v else Run(Apply(v, ops[0]), ops[1..])
  }

  // ---------------------------------------------------------------------
  // What every write keeps
  // ---------------------------------------------------------------------

  /** Rows sit under their own ids, each change has a number of its own, and the floor is behind the counter. */
  ghost predicate Valid(v: Vault) {
    && v.floor <= v.seqNo
    && (forall id :: id in v.rows ==> v.rows[id].Key() == id && 1 <= v.rows[id].Seq() <= v.seqNo)
    && UniqueStamps(v.rows)
  }

  /** Marks the pairs a uniqueness fact is to be used on, so that it is not tried on all of them. */
  predicate Compare(a: Id, b: Id) {
    true
  }

  ghost predicate UniqueStamps(rows: map<Id, Row>) {
    forall a, b {:trigger Compare(a, b)} ::
      Compare(a, b) && a in rows && b in rows && rows[a].Seq() == rows[b].Seq() ==> a == b
  }

  /**
   * `ever` is the table with no tombstone forgotten: what the server would hold if
   * `Forget` only raised the floor. It exists to say what a replica should look like.
   */
  ghost predicate Shadow(v: Vault, ever: map<Id, Row>) {
    && (forall id :: id in v.rows ==> id in ever && ever[id] == v.rows[id])
    && (forall id :: id in ever ==> 1 <= ever[id].Seq() <= v.seqNo)
    && (forall id :: id in ever && id !in v.rows ==> ever[id].Tombstone? && ever[id].Seq() <= v.floor)
  }

  /** Every row of `later` is as `ever` had it or was written after change number `n`. */
  ghost predicate Extends(ever: map<Id, Row>, n: nat, later: map<Id, Row>) {
    && ever.Keys <= later.Keys
    && forall id :: id in later ==> (id in ever && later[id] == ever[id]) || n < later[id].Seq()
  }

  /** What `ApplyKeeps` says of one step. */
  ghost predicate Advances(v: Vault, ever: map<Id, Row>, w: Vault) {
    && Valid(w)
    && Shadow(w, ever + w.rows)
    && Extends(ever, v.seqNo, ever + w.rows)
    && v.seqNo <= w.seqNo && v.floor <= w.floor
    && (forall id :: id in w.rows && w.rows[id].Seq() <= v.seqNo ==> id in v.rows && w.rows[id] == v.rows[id])
  }

  lemma WriteKeeps(v: Vault, ever: map<Id, Row>, id: Id, row: Row)
    requires Valid(v) && Shadow(v, ever)
    requires row.Key() == id && row.Seq() == v.seqNo + 1
    ensures Advances(v, ever, Vault(v.rows[id := row], v.seqNo + 1, v.floor))
  {
  }

  lemma ForgetKeeps(v: Vault, ever: map<Id, Row>, before: nat)
    requires Valid(v) && Shadow(v, ever)
    ensures Advances(v, ever, Apply(v, Forget(before)))
  {
  }

  /** Change numbers stay unique, and only tombstones at or below the floor are ever forgotten. */
  lemma ApplyKeeps(v: Vault, ever: map<Id, Row>, op: Op)
    requires Valid(v) && Shadow(v, ever)
    ensures Advances(v, ever, Apply(v, op))
  {
    if op.Forget? {
      ForgetKeeps(v, ever, op.before);
    } else {
      var row := Written(v.rows, op, v.seqNo + 1);
      if row.Some? {
        assert Apply(v, op) == Vault(v.rows[op.id := row.value], v.seqNo + 1, v.floor);
        WriteKeeps(v, ever, op.id, row.value);
      } else {
        assert Apply(v, op) == v.(seqNo := v.seqNo + 1);
      }
    }
  }

  ghost function RunEver(v: Vault, ever: map<Id, Row>, ops: seq<Op>): map<Id, Row>
    decreases |ops|
  {
    if ops == [] then ever else RunEver(Apply(v, ops[0]), ever + Apply(v, ops[0]).rows, ops[1..])
  }

  lemma {:induction false} RunKeeps(v: Vault, ever: map<Id, Row>, ops: seq<Op>)
    requires Valid(v) && Shadow(v, ever)
    ensures Valid(Run(v, ops))
    ensures Shadow(Run(v, ops), RunEver(v, ever, ops))
    ensures Extends(ever, v.seqNo, RunEver(v, ever, ops))
    ensures v.seqNo <= Run(v, ops).seqNo && v.floor <= Run(v, ops).floor
    ensures forall id :: id in Run(v, ops).rows && Run(v, ops).rows[id].Seq() <= v.seqNo ==>
              id in v.rows && Run(v, ops).rows[id] == v.rows[id]
    decreases |ops|
  {
    if ops != [] {
      ApplyKeeps(v, ever, ops[0]);
      RunKeeps(Apply(v, ops[0]), ever + Apply(v, ops[0]).rows, ops[1..]);
    }
  }

  lemma {:induction false} RunConcat(v: Vault, ever: map<Id, Row>, a: seq<Op>, b: seq<Op>)
    ensures Run(v, a + b) == Run(Run(v, a), b)
    ensures RunEver(v, ever, a + b) == RunEver(Run(v, a), RunEver(v, ever, a), b)
    ensures |b| == 1 ==>
              && Run(v, a + b) == Apply(Run(v, a), b[0])
              && RunEver(v, ever, a + b) == RunEver(v, ever, a) + Run(v, a + b).rows
    decreases |a|
  {
    if a == [] {
      assert a + b == b;
      if |b| == 1 {
        assert Run(Apply(v, b[0]), b[1..]) == Apply(v, b[0]);
        assert RunEver(Apply(v, b[0]), ever + Apply(v, b[0]).rows, b[1..]) == ever + Apply(v, b[0]).rows;
      }
    } else {
      assert (a + b)[0] == a[0] && (a + b)[1..] == a[1..] + b;
      RunConcat(Apply(v, a[0]), ever + Apply(v, a[0]).rows, a[1..], b);
    }
  }

  // ---------------------------------------------------------------------
  // What a write leaves in the table
  // ---------------------------------------------------------------------

  /** Each field an edit names has the value it names, each other the one before; a seal is taken whole. */
  ghost predicate EditLeft(before: Item, edit: Edit, after: Item) {
    && after.id == before.id && after.kind == before.kind && after.revision == before.revision + 1
    && (after.keyEpoch, after.meta) == edit.seal.GetOr((before.keyEpoch, before.meta))
    && after.parentId == edit.move.GetOr(before.parentId)
    && after.trashedAt == edit.trash.GetOr(before.trashedAt)
    && (edit.content.Some? ==> after.blobKey == edit.content)
    && (edit.content.None? ==> after.blobKey == before.blobKey)
  }

  /** The one row a landed statement writes, against the row it found. */
  ghost predicate RowLeft(before: map<Id, Row>, op: Op, row: Row)
    requires !op.Forget?
  {
    match op
    case Create(id, parentId, kind, keyEpoch, meta, blobKey, _) =>
      && id !in before && row.Live? && row.item.id == id && row.item.kind == kind
      && row.item.parentId == parentId && row.item.blobKey == blobKey
      && (row.item.keyEpoch, row.item.meta) == (keyEpoch, meta)
      && row.item.revision == 1 && row.item.trashedAt.None?
    case Update(id, revision, edit, _) =>
      && IsLive(before, id) && row.Live? && before[id].item.revision == revision
      && EditLeft(before[id].item, edit, row.item)
    case Reseal(id, revision, keyEpoch, meta) =>
      && IsLive(before, id) && row.Live? && before[id].item.revision == revision == row.item.revision
      && before[id].item.keyEpoch < keyEpoch && (row.item.keyEpoch, row.item.meta) == (keyEpoch, meta)
      && row.item.id == id && row.item.kind == before[id].item.kind && row.item.parentId == before[id].item.parentId
      && row.item.blobKey == before[id].item.blobKey && row.item.trashedAt == before[id].item.trashedAt
    case Purge(id, now, _) =>
      IsLive(before, id) && row == Tombstone(id, before[id].item.parentId, now, row.Seq())
  }

  /**
   * What one batch leaves: a landed write changes the one row it names and stamps it with the number just
   * taken, any other write changes no row, and a cleanup removes exactly the tombstones older than its
   * limit, behind a floor that is at or above each of them and no higher than it must be.
   */
  ghost predicate Left(v: Vault, op: Op, landed: bool, w: Vault) {
    if op.Forget? then
      && w.seqNo == v.seqNo && v.floor <= w.floor
      && (forall id :: id in w.rows <==>
            id in v.rows && !(v.rows[id].Tombstone? && v.rows[id].removedAt < op.before))
      && (forall id :: id in w.rows ==> w.rows[id] == v.rows[id])
      && (forall id :: id in v.rows && id !in w.rows ==> v.rows[id].seqNo <= w.floor)
      && (w.floor == v.floor || exists id :: id in v.rows && id !in w.rows && v.rows[id].seqNo == w.floor)
    else
      && w.seqNo == v.seqNo + 1 && w.floor == v.floor
      && (!landed ==> w.rows == v.rows)
      && (landed ==>
            && op.id in w.rows && w.rows[op.id].Seq() == w.seqNo && RowLeft(v.rows, op, w.rows[op.id])
            && w.rows == v.rows[op.id := w.rows[op.id]])
  }

  lemma {:induction false} NewestIsForgotten(rows: map<Id, Row>, before: nat, q: nat)
    ensures var m := NewestForgotten(rows, before, q);
            m == 0 || exists id :: id in rows && Forgotten(rows[id], before) && rows[id].Seq() == m
  {
    if q > 0 && !(exists id :: id in rows && Forgotten(rows[id], before) && rows[id].Seq() == q) {
      NewestIsForgotten(rows, before, q - 1);
    }
  }

  lemma ForgetLeaves(v: Vault, op: Op)
    requires Valid(v) && op.Forget?
    ensures Left(v, op, true, Apply(v, op))
  {
    var w := Apply(v, op);
    NewestIsForgotten(v.rows, op.before, v.seqNo);
    if w.floor != v.floor {
      var id :| id in v.rows && Forgotten(v.rows[id], op.before) && v.rows[id].Seq() == w.floor;
      assert id !in w.rows;
    }
  }

  lemma WriteLeaves(v: Vault, op: Op)
    requires Valid(v) && !op.Forget?
    ensures Left(v, op, Written(v.rows, op, v.seqNo + 1).Some?, Apply(v, op))
  {
    var row := Written(v.rows, op, v.seqNo + 1);
    if row.Some? {
      assert RowLeft(v.rows, op, row.value);
    }
  }

  // ---------------------------------------------------------------------
  // Compare-and-swap on the revision
  // ---------------------------------------------------------------------

  ghost predicate PastRevision(v: Vault, id: Id, revision: nat) {
    IsLive(v.rows, id) ==> v.rows[id].item.revision > revision
  }

  lemma {:induction false} RevisionStaysPast(v: Vault, ops: seq<Op>, id: Id, revision: nat)
    requires PastRevision(v, id, revision)
    requires forall op :: op in ops && op.Create? ==> op.id != id
    ensures PastRevision(Run(v, ops), id, revision)
    decreases |ops|
  {
    if ops != [] {
      assert ops[0] in ops;
      RevisionStaysPast(Apply(v, ops[0]), ops[1..], id, revision);
    }
  }

  /**
   * Two edits made against the same revision never both land, whatever happens
   * between them (ids being random, the item's own id is never created again).
   */
  lemma NoLostUpdate(v: Vault, first: Op, between: seq<Op>, second: Op)
    requires first.Update? && second.Update? && first.id == second.id && first.revision == second.revision
    requires UpdateLands(v.rows, first)
    requires forall op :: op in between && op.Create? ==> op.id != first.id
    ensures !UpdateLands(Run(Apply(v, first), between).rows, second)
  {
    RevisionStaysPast(Apply(v, first), between, first.id, first.revision);
  }

  // ---------------------------------------------------------------------
  // The folder tree
  // ---------------------------------------------------------------------

  /** A created id is random: nothing already refers to it. */
  ghost predicate FreshId(v: Vault, op: Op) {
    op.Create? ==>
      && op.parentId != Some(op.id)
      && forall id :: id in v.rows ==> v.rows[id].Parent() != Some(op.id)
  }

  lemma NotClimbedTo(p: L.Links, x: Id, y: Id, n: nat)
    requires forall id :: id in p ==> p[id] != Some(x)
    requires L.Under(p, x, y, n)
    ensures y == x
    decreases n
  {
    if n > 0 {
      NotClimbedTo(p, x, p[y].value, n - 1);
    }
  }

  /** No write, however it races others, ever puts a folder inside itself. */
  lemma TreeStaysAcyclic(v: Vault, op: Op)
    requires L.Acyclic(Parents(v.rows)) && FreshId(v, op)
    ensures L.Acyclic(Parents(Apply(v, op).rows))
  {
    var p, q := Parents(v.rows), Parents(Apply(v, op).rows);
    match op
    case Create(id, parentId, _, _, _, _, _) =>
      if CreateLands(v.rows, op) && parentId.Some? {
        assert q == p[id := parentId];
        L.RelinkAcyclic(p, id, parentId.value);
        if L.InTree(p, id, parentId.value) {
          var n: nat :| L.Under(p, id, parentId.value, n);
          NotClimbedTo(p, id, parentId.value, n);
        }
      } else {
        L.UnlinkAcyclic(p, q);
      }
    case Update(id, _, edit, _) =>
      if UpdateLands(v.rows, op) && edit.move.Some? && edit.move.value.Some? {
        assert q == p[id := edit.move.value];
        L.RelinkAcyclic(p, id, edit.move.value.value);
        L.SubtreeExact(p, id, edit.move.value.value);
      } else {
        L.UnlinkAcyclic(p, q);
      }
    case Reseal(_, _, _, _) => L.UnlinkAcyclic(p, q);
    case Purge(_, _, _) => L.UnlinkAcyclic(p, q);
    case Forget(_) => L.UnlinkAcyclic(p, q);
  }

  /** The guard of a move is exact: dropping it would create a cycle. */
  lemma MoveGuardExact(v: Vault, op: Op, parent: Id)
    requires op.Update? && L.Acyclic(Parents(v.rows)) && IsLive(v.rows, op.id)
    requires op.edit.move == Some(Some(parent))
    ensures parent !in L.Subtree(Parents(v.rows), op.id) <==> L.Acyclic(Parents(v.rows)[op.id := Some(parent)])
  {
    L.RelinkAcyclic(Parents(v.rows), op.id, parent);
    L.SubtreeExact(Parents(v.rows), op.id, parent);
  }

  // ---------------------------------------------------------------------
  // The table itself
  // ---------------------------------------------------------------------

  /** `vault_items` and the two counters of one space, written in place. */
  class VaultTable {
    var rows: map<Id, Row>
    var seqNo: nat
    var floor: nat
    /** The rows with no tombstone forgotten (see `Shadow`). */
    ghost var ever: map<Id, Row>

    constructor ()
      ensures State() == Vault(map[], 0, 0) && Consistent()
    {
      rows, seqNo, floor := map[], 0, 0;
      ever := map[];
    }

    ghost predicate Consistent()
      reads this
    {
      Valid(State()) && Shadow(State(), ever)
    }

    function State(): Vault
      reads this
    {
      Vault(rows, seqNo, floor)
    }

    method NextSeq()
      modifies this`seqNo
      ensures State() == old(State()).(seqNo := old(seqNo) + 1)
    {
      seqNo := seqNo + 1;
    }

    /** Raise the floor first: once the rows are gone nobody can say what they were. */
    method ForgetTombstones(before: nat)
      modifies this`floor, this`rows
      ensures State() == Apply(old(State()), Forget(before))
    {
      floor := Max(floor, NewestForgotten(rows, before, seqNo));
      rows := map id | id in rows && !Forgotten(rows[id], before) :: rows[id];
    }

    /** `nextVaultSeq`, then the guarded statement, which stamps its row with the number just taken. */
    method WriteRow(op: Op) returns (landed: bool)
      requires !op.Forget?
      modifies this`seqNo, this`rows
      ensures State() == Apply(old(State()), op)
      ensures landed == Written(old(rows), op, seqNo).Some?
    {
      NextSeq();
      var row := Written(rows, op, seqNo);
      landed := row.Some?;
      if landed {
        rows := rows[op.id := row.value];
      }
    }

    /** One batch. */
    method Execute(op: Op) returns (landed: bool)
      requires Consistent()
      modifies this
      ensures State() == Apply(old(State()), op) && Consistent()
      ensures ever == old(ever) + rows
      ensures !op.Forget? ==> landed == Written(old(rows), op, seqNo).Some?
      ensures Left(old(State()), op, landed, State())
    {
      ghost var v := State();
      ApplyKeeps(v, ever, op);
      if op.Forget? {
        ForgetLeaves(v, op);
        ForgetTombstones(op.before);
        landed := true;
      } else {
        WriteLeaves(v, op);
        landed := WriteRow(op);
      }
      ever := ever + rows;
      assert State() == Apply(v, op);
    }

    /** Other requests committing between two awaits of the one being followed. */
    method Interleave(ops: seq<Op>)
      requires Consistent()
      modifies this
      ensures State() == Run(old(State()), ops) && Consistent()
      ensures ever == RunEver(old(State()), old(ever), ops)
      ensures Extends(old(ever), old(seqNo), ever)
      ensures old(seqNo) <= seqNo && old(floor) <= floor
    {
      for i := 0 to |ops|
        invariant State() == Run(old(State()), ops[..i]) && Consistent()
        invariant ever == RunEver(old(State()), old(ever), ops[..i])
      {
        var _ := Execute(ops[i]);
        RunConcat(old(State()), old(ever), ops[..i], [ops[i]]);
        assert ops[..i] + [ops[i]] == ops[..i + 1];
      }
      assert ops[..|ops|] == ops;
      RunKeeps(old(State()), old(ever), ops);
    }
  }
}
