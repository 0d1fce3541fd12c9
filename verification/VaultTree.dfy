/** The folder tree as a client reads it from its copy: what is shown, where things may go, and how they come back. */
module VaultTree {
  import opened Basics
  import opened VaultServer
  import opened ParentLinks

  type Records = map<Id, Item>

  function LinksOf(records: Records): Links {
    map id | id in records :: records[id].parentId
  }

  ghost predicate Named(records: Records) {
    forall id :: id in records ==> records[id].id == id
  }

  /** How many links a climb may follow before it is taken for a loop. */
  const MAX_DEPTH: nat := 256

  // ---------------------------------------------------------------------
  // Where a folder may not be moved
  // ---------------------------------------------------------------------

  /** Sweep the records until nothing more belongs; what was found is exactly everything nested in the folder. */
  method VaultSubtree(records: Records, folder: Id) returns (subtree: set<Id>)
    requires Named(records)
    ensures subtree == Subtree(LinksOf(records), folder)
  {
    ghost var p := LinksOf(records);
    subtree := {folder};
    assert Under(p, folder, folder, 0);
    var grew := true;
    while grew
      invariant folder in subtree && subtree <= records.Keys + {folder}
      invariant forall x :: x in subtree ==> InTree(p, folder, x)
      invariant grew || Below(p, subtree) == {}
      decreases records.Keys + {folder} - subtree, grew
    {
      grew := false;
      ghost var before := subtree;
      var rest := records.Keys;
      while rest != {}
        invariant rest <= records.Keys && before <= subtree <= records.Keys + {folder}
        invariant forall x :: x in subtree ==> InTree(p, folder, x)
        invariant !grew ==> subtree == before && forall x :: x in Below(p, subtree) ==> x in rest
        invariant grew ==> before < subtree
        decreases |rest|
      {
        var id :| id in rest;
        rest := rest - {id};
        var record := records[id];
        if record.parentId.Some? && record.parentId.value in subtree && record.id !in subtree {
          InTreeChild(p, folder, id);
          subtree := subtree + {record.id};
          grew := true;
        }
      }
      if grew {
        Fewer(records.Keys + {folder}, before, subtree);
      }
    }
    SweptIsSubtree(p, subtree, folder);
  }

  lemma Fewer(all: set<Id>, before: set<Id>, after: set<Id>)
    requires before < after <= all
    ensures all - after < all - before
  {
    var x :| x in after && x !in before;
    assert x in all - before && x !in all - after;
  }

  lemma SweptIsSubtree(p: Links, swept: set<Id>, folder: Id)
    requires folder in swept && Below(p, swept) == {} && forall x :: x in swept ==> InTree(p, folder, x)
    ensures swept == Subtree(p, folder)
  {
    forall x ensures x in swept <==> x in Subtree(p, folder) {
      SubtreeExact(p, folder, x);
      if InTree(p, folder, x) {
        var n: nat :| Under(p, folder, x, n);
        ClosedContains(p, swept, folder, x, n);
      }
    }
  }

  /** A move to `parent` keeps the tree a tree exactly when `parent` is outside the folder's subtree. */
  lemma MoveOutsideSubtree(records: Records, folder: Id, parent: Id)
    requires Named(records) && folder in records && Acyclic(LinksOf(records))
    ensures var moved := records[folder := records[folder].(parentId := Some(parent))];
            Acyclic(LinksOf(moved)) <==> parent !in Subtree(LinksOf(records), folder)
  {
    var moved := records[folder := records[folder].(parentId := Some(parent))];
    assert LinksOf(moved) == LinksOf(records)[folder := Some(parent)];
    RelinkAcyclic(LinksOf(records), folder, parent);
    SubtreeExact(LinksOf(records), folder, parent);
  }

  // ---------------------------------------------------------------------
  // What is shown
  // ---------------------------------------------------------------------

  /** Climb at most `n` records: none may be trashed, and the climb must end at the root. */
  predicate Shown(records: Records, item: Item, n: nat)
    decreases n
  {
    && n > 0 && item.trashedAt.None?
    && (item.parentId.Some? ==>
          item.parentId.value in records && Shown(records, records[item.parentId.value], n - 1))
  }

  method IsVaultItemVisible(records: Records, item: Item) returns (visible: bool)
    ensures visible == Shown(records, item, MAX_DEPTH)
  {
    var current := Some(item);
    var depth := 0;
    while current.Some? && depth < MAX_DEPTH
      invariant 0 <= depth <= MAX_DEPTH
      invariant Shown(records, item, MAX_DEPTH) == (current.Some? && Shown(records, current.value, MAX_DEPTH - depth))
      decreases MAX_DEPTH - depth
    {
      if current.value.trashedAt.Some? {
        return false;
      }
      if current.value.parentId.None? {
        return true;
      }
      var parent := current.value.parentId.value;
      current := if parent in records then Some(records[parent]) else None;
      depth := depth + 1;
    }
    return false;
  }

  /** Every folder above exists, and neither it nor the item is trashed. */
  ghost predicate Clear(records: Records, id: Id) {
    forall a :: InTree(LinksOf(records), a, id) ==> a in records && records[a].trashedAt.None?
  }

  /** The climb from `id` ends at the root after `n` links. */
  ghost predicate Rooted(records: Records, id: Id, n: nat) {
    exists r :: Under(LinksOf(records), r, id, n) && r in records && records[r].parentId.None?
  }

  lemma ClearAbove(records: Records, id: Id)
    requires id in records && records[id].parentId.Some?
    ensures Clear(records, id) <==> records[id].trashedAt.None? && Clear(records, records[id].parentId.value)
  {
    var p := LinksOf(records);
    var parent := records[id].parentId.value;
    assert Under(p, id, id, 0);
    forall a | InTree(p, a, parent) ensures InTree(p, a, id) {
      InTreeChild(p, a, id);
    }
    forall a | InTree(p, a, id) && a != id ensures InTree(p, a, parent) {
      var n: nat :| Under(p, a, id, n);
      assert Under(p, a, parent, n - 1);
    }
  }

  lemma {:induction false} ShownExact(records: Records, id: Id, n: nat)
    requires Named(records) && id in records
    ensures Shown(records, records[id], n) <==> Clear(records, id) && exists k: nat :: k < n && Rooted(records, id, k)
    decreases n
  {
    var p := LinksOf(records);
    assert Under(p, id, id, 0);
    if n > 0 {
      if records[id].parentId.None? {
        assert Rooted(records, id, 0) by {
          assert Under(p, id, id, 0);
        }
        forall a | InTree(p, a, id) ensures a == id {
          var m: nat :| Under(p, a, id, m);
        }
      } else {
        var parent := records[id].parentId.value;
        ClearAbove(records, id);
        if parent in records {
          ShownExact(records, parent, n - 1);
          RootedAbove(records, id, n);
        } else {
          assert Under(p, parent, parent, 0);
          assert InTree(p, parent, parent);
        }
      }
    }
  }

  lemma RootedAbove(records: Records, id: Id, n: nat)
    requires id in records && records[id].parentId.Some? && n > 0
    ensures (exists k: nat :: k < n && Rooted(records, id, k)) <==>
            exists k: nat :: k < n - 1 && Rooted(records, records[id].parentId.value, k)
  {
    var p := LinksOf(records);
    var parent := records[id].parentId.value;
    if k: nat :| k < n && Rooted(records, id, k) {
      var r :| Under(p, r, id, k) && r in records && records[r].parentId.None?;
      assert k > 0 && Under(p, r, parent, k - 1);
      assert Rooted(records, parent, k - 1);
    }
    if k: nat :| k < n - 1 && Rooted(records, parent, k) {
      var r :| Under(p, r, parent, k) && r in records && records[r].parentId.None?;
      assert Under(p, r, id, k + 1);
      assert Rooted(records, id, k + 1);
    }
  }

  /** Exactly: nothing above is trashed or missing, and the root is less than `MAX_DEPTH` links away. */
  lemma VisibleExact(records: Records, id: Id)
    requires Named(records) && id in records
    ensures Shown(records, records[id], MAX_DEPTH) <==>
            Clear(records, id) && exists k: nat :: k < MAX_DEPTH && Rooted(records, id, k)
  {
    ShownExact(records, id, MAX_DEPTH);
  }

  /** Something lies `n` links above `id`. */
  ghost predicate Deep(p: Links, id: Id, n: nat)
    decreases n
  {
    n == 0 || (id in p && p[id].Some? && Deep(p, p[id].value, n - 1))
  }

  lemma {:induction false} DeepUnder(p: Links, id: Id, n: nat) returns (a: Id)
    requires Deep(p, id, n)
    ensures Under(p, a, id, n)
    decreases n
  {
    if n == 0 {
      a := id;
    } else {
      a := DeepUnder(p, p[id].value, n - 1);
    }
  }

  /** Where everything above exists, the climb reaches the root before `n` links or goes on past them. */
  lemma {:induction false} ClimbEnds(records: Records, id: Id, n: nat)
    requires Named(records) && id in records && Clear(records, id)
    ensures (exists k: nat :: k < n && Rooted(records, id, k)) <==> !Deep(LinksOf(records), id, n)
    decreases n
  {
    var p := LinksOf(records);
    assert Under(p, id, id, 0);
    if n > 0 {
      if records[id].parentId.None? {
        assert Rooted(records, id, 0);
      } else {
        var parent := records[id].parentId.value;
        ClearAbove(records, id);
        assert Under(p, parent, parent, 0) && InTree(p, parent, parent);
        ClimbEnds(records, parent, n - 1);
        RootedAbove(records, id, n);
      }
    }
  }

  /**
   * With fewer than `MAX_DEPTH` folders above it, an item shows exactly when each of them exists and
   * nothing is trashed.
   */
  lemma VisibleUnlessTooDeep(records: Records, id: Id)
    requires Named(records) && id in records
    ensures Shown(records, records[id], MAX_DEPTH) <==> Clear(records, id) && !Deep(LinksOf(records), id, MAX_DEPTH)
  {
    VisibleExact(records, id);
    if Clear(records, id) {
      ClimbEnds(records, id, MAX_DEPTH);
    }
  }

  /** In a tree, a climb visits no record twice. */
  lemma {:induction false} AcyclicShort(p: Links, s: set<Id>, root: Id, x: Id, n: nat)
    requires Acyclic(p) && Under(p, root, x, n)
    requires forall y, k: nat :: k <= n && Under(p, y, x, k) ==> y in s
    ensures n < |s|
    decreases n
  {
    assert Under(p, x, x, 0);
    if n > 0 {
      var parent := p[x].value;
      forall y, k: nat | k <= n - 1 && Under(p, y, parent, k) ensures y in s - {x} {
        assert Under(p, y, x, k + 1);
        assert y == x ==> InTree(p, x, parent);
      }
      AcyclicShort(p, s - {x}, root, parent, n - 1);
    }
  }

  /** A tree of up to `MAX_DEPTH` items is never too deep. */
  lemma SmallTreeShows(records: Records, id: Id)
    requires Named(records) && id in records && Acyclic(LinksOf(records)) && |records| <= MAX_DEPTH
    ensures Shown(records, records[id], MAX_DEPTH) <==> Clear(records, id)
  {
    VisibleUnlessTooDeep(records, id);
    if Clear(records, id) && Deep(LinksOf(records), id, MAX_DEPTH) {
      DepthBound(records, id, MAX_DEPTH);
      assert false;
    }
  }

  lemma DepthBound(records: Records, id: Id, n: nat)
    requires Acyclic(LinksOf(records)) && Clear(records, id) && Deep(LinksOf(records), id, n)
    ensures n < |records|
  {
    var p := LinksOf(records);
    var a := DeepUnder(p, id, n);
    forall y, k: nat | Under(p, y, id, k) ensures y in p.Keys {
      assert InTree(p, y, id);
    }
    assert p.Keys == records.Keys;
    AcyclicShort(p, p.Keys, a, id, n);
  }

  // ---------------------------------------------------------------------
  // Bringing things back
  // ---------------------------------------------------------------------

  /** The item as a restore writes it: in its folder if that folder shows, at the root otherwise. */
  function Restored(records: Records, item: Item): Item {
    var parentVisible :=
      item.parentId.None?
      || (item.parentId.value in records && Shown(records, records[item.parentId.value], MAX_DEPTH));
    item.(trashedAt := None, parentId := if parentVisible then item.parentId else None)
  }

  /** Taking an item out of the trash hides nothing that was shown. */
  lemma {:induction false} RestoreHidesNothing(records: Records, id: Id, y: Item, n: nat)
    requires Named(records) && id in records && Shown(records, y, n)
    ensures Shown(records[id := Restored(records, records[id])],
        if y == records[id] then Restored(records, records[id]) else y, n)
    decreases n
  {
    var after := records[id := Restored(records, records[id])];
    if y == records[id] {
      if Restored(records, y).parentId.Some? {
        var parent := y.parentId.value;
        RestoreHidesNothing(records, id, records[parent], n - 1);
        assert after[parent] == if records[parent] == records[id] then Restored(records, records[id])
            else records[parent];
      }
    } else if y.parentId.Some? {
      var parent := y.parentId.value;
      RestoreHidesNothing(records, id, records[parent], n - 1);
      assert after[parent] == if records[parent] == records[id] then Restored(records, records[id])
          else records[parent];
    }
  }

  /**
   * Keeping every link, a record shows after the restore within `n` only if it did before, or was hidden by
   * the item itself.
   */
  lemma ShownBefore(records: Records, id: Id, y: Id, n: nat)
    requires Named(records) && id in records && y in records && Shown(records, records[y], MAX_DEPTH)
    requires Restored(records, records[id]).parentId == records[id].parentId
    requires var after := records[id := Restored(records, records[id])]; Shown(after, after[y], n)
    ensures Shown(records, records[y], n)
  {
    var after := records[id := Restored(records, records[id])];
    assert LinksOf(after) == LinksOf(records);
    ShownExact(after, y, n);
    ShownExact(records, y, n);
    ShownExact(records, y, MAX_DEPTH);
    var k: nat :| k < n && Rooted(after, y, k);
    var r :| Under(LinksOf(after), r, y, k) && r in after && after[r].parentId.None?;
    assert records[r].parentId.None?;
    assert Rooted(records, y, k);
  }

  /** The item lies in a folder that shows within `n` records. */
  predicate FolderShows(records: Records, item: Item, n: nat) {
    item.parentId.Some? && item.parentId.value in records && Shown(records, records[item.parentId.value], n)
  }

  /**
   * A restored item is out of the trash, in the folder it had if that folder showed, and else at the root; and it
   * shows, except exactly when its folder showed only at the very last depth a climb allows.
   */
  lemma RestoredItemShows(records: Records, id: Id)
    requires Named(records) && id in records
    ensures var item := records[id];
            var after := records[id := Restored(records, item)];
            && after[id] == item.(trashedAt := None, parentId := after[id].parentId)
            && (FolderShows(records, item, MAX_DEPTH) ==> after[id].parentId == item.parentId)
            && (!FolderShows(records, item, MAX_DEPTH) ==> after[id].parentId.None?)
            && (Shown(after, after[id], MAX_DEPTH) <==>
                  (FolderShows(records, item, MAX_DEPTH) ==> FolderShows(records, item, MAX_DEPTH - 1)))
  {
    var item := records[id];
    var after := records[id := Restored(records, item)];
    if Restored(records, item).parentId.Some? {
      var parent := item.parentId.value;
      if Shown(records, records[parent], MAX_DEPTH - 1) {
        RestoreHidesNothing(records, id, records[parent], MAX_DEPTH - 1);
        assert after[parent] == if records[parent] == item then Restored(records, item) else records[parent];
      }
      if Shown(after, after[id], MAX_DEPTH) {
        ShownBefore(records, id, parent, MAX_DEPTH - 1);
      }
    }
  }

  /** Folders nested one in the other, `n` deep. */
  function Nested(n: nat): (records: Records)
    ensures forall i: nat :: i in records <==> i < n
    ensures forall i: nat :: i in records ==> records[i] == NestedFolder(i)
  {
    if n == 0 then map[] else Nested(n - 1)[n - 1 := NestedFolder(n - 1)]
  }

  function NestedFolder(i: nat): Item {
    Item(i, if i == 0 then None else Some(i - 1), Folder, 1, 0, None, 1, None, i + 1)
  }

  lemma {:induction false} NestedShown(n: nat, i: nat, d: nat)
    requires i < n
    ensures Shown(Nested(n), Nested(n)[i], d) <==> i < d
  {
    if i > 0 && d > 0 {
      NestedShown(n, i - 1, d - 1);
    }
  }

  /** The case that is left: an item trashed from the deepest folder that still shows is put back there, and hidden. */
  lemma DeepRestoreHides() returns (records: Records, id: Id)
    ensures Named(records) && id in records && records[id].trashedAt.Some? && records[id].parentId.Some?
    ensures Restored(records, records[id]).parentId == records[id].parentId
    ensures var after := records[id := Restored(records, records[id])]; !Shown(after, after[id], MAX_DEPTH)
  {
    var nested := Nested(MAX_DEPTH);
    id := MAX_DEPTH;
    records := nested[id := Item(id, Some(id - 1), Note, 1, 0, None, 1, Some(9), id + 1)];
    NestedShown(MAX_DEPTH, id - 1, MAX_DEPTH);
    NestedShown(MAX_DEPTH, id - 1, MAX_DEPTH - 1);
    SameWithout(nested, records, id, id - 1, MAX_DEPTH);
    SameWithout(nested, records, id, id - 1, MAX_DEPTH - 1);
    RestoredItemShows(records, id);
  }

  lemma {:induction false} SameWithout(nested: Records, records: Records, id: Id, i: nat, d: nat)
    requires nested == Nested(id) && id !in nested && id in records && records == nested[id := records[id]] && i < id
    ensures Shown(records, records[i], d) == Shown(nested, nested[i], d)
  {
    if i > 0 && d > 0 {
      SameWithout(nested, records, id, i - 1, d - 1);
    }
  }

  // ---------------------------------------------------------------------
  // Where a folder is
  // ---------------------------------------------------------------------

  /**
   * The way down to `folder`, topmost first: each folder holds the next, and only the depth limit leaves
   * any out above.
   */
  ghost predicate IsPath(records: Records, folder: Option<Id>, path: seq<Item>) {
    && (path == [] <==> folder.None? || folder.value !in records)
    && (path != [] ==> folder.Some? && path[|path| - 1].id == folder.value)
    && (forall i :: 0 <= i < |path| ==> path[i].id in records && records[path[i].id] == path[i])
    && (forall i :: 0 < i < |path| ==> path[i].parentId == Some(path[i - 1].id))
    && |path| <= MAX_DEPTH
    && (path != [] && |path| < MAX_DEPTH ==> Topmost(records, path[0]))
  }

  method VaultPath(records: Records, folder: Option<Id>) returns (path: seq<Item>)
    requires Named(records)
    ensures IsPath(records, folder, path)
  {
    path := [];
    var current := if folder.Some? && folder.value in records then Some(records[folder.value]) else None;
    while current.Some? && |path| < MAX_DEPTH
      invariant |path| <= MAX_DEPTH
      invariant current.Some? ==> current.value.id in records && records[current.value.id] == current.value
      invariant path == [] ==> (current.None? <==> folder.None? || folder.value !in records)
      invariant path == [] && current.Some? ==> current.value.id == folder.value
      invariant path != [] ==> folder.Some? && folder.value in records && path[|path| - 1].id == folder.value
      invariant path != [] && current.Some? ==> path[0].parentId == Some(current.value.id)
      invariant path != [] && current.None? ==> path[0].parentId.None? || path[0].parentId.value !in records
      invariant forall i :: 0 <= i < |path| ==> path[i].id in records && records[path[i].id] == path[i]
      invariant forall i :: 0 < i < |path| ==> path[i].parentId == Some(path[i - 1].id)
      decreases MAX_DEPTH - |path|
    {
      var here := current.value;
      path := [here] + path;
      current := if here.parentId.Some? && here.parentId.value in records then Some(records[here.parentId.value])
          else None;
    }
  }

  lemma {:induction false} SameTail(records: Records, folder: Option<Id>, a: seq<Item>, b: seq<Item>, k: nat)
    requires Named(records) && IsPath(records, folder, a) && IsPath(records, folder, b) && k <= |a| && k <= |b|
    ensures a[|a| - k..] == b[|b| - k..]
    decreases k
  {
    if k > 0 {
      SameTail(records, folder, a, b, k - 1);
      var x, y := a[|a| - k], b[|b| - k];
      if k == 1 {
        assert x.id == y.id;
      } else {
        assert a[|a| - k + 1] == a[|a| - (k - 1)..][0] && b[|b| - k + 1] == b[|b| - (k - 1)..][0];
      }
      assert a[|a| - k..] == [x] + a[|a| - (k - 1)..] && b[|b| - k..] == [y] + b[|b| - (k - 1)..];
    }
  }

  /** Below the depth limit, a path starts where nothing known lies above. */
  predicate Topmost(records: Records, item: Item) {
    item.parentId.None? || item.parentId.value !in records
  }

  lemma NotLonger(records: Records, folder: Option<Id>, a: seq<Item>, b: seq<Item>)
    requires Named(records) && IsPath(records, folder, a) && IsPath(records, folder, b)
    ensures |b| <= |a|
  {
    var k := Min(|a|, |b|);
    SameTail(records, folder, a, b, k);
    if a != [] && b != [] {
      assert a[|a| - k] == a[|a| - k..][0] && b[|b| - k] == b[|b| - k..][0];
      Inner(records, folder, b, |b| - k);
    }
  }

  lemma Inner(records: Records, folder: Option<Id>, path: seq<Item>, i: nat)
    requires IsPath(records, folder, path) && i < |path|
    ensures i > 0 ==> !Topmost(records, path[i])
  {
    assert i > 0 ==> path[i - 1].id in records && path[i].parentId == Some(path[i - 1].id);
  }

  /** There is one such path. */
  lemma PathUnique(records: Records, folder: Option<Id>, a: seq<Item>, b: seq<Item>)
    requires Named(records) && IsPath(records, folder, a) && IsPath(records, folder, b)
    ensures a == b
  {
    NotLonger(records, folder, a, b);
    NotLonger(records, folder, b, a);
    SameTail(records, folder, a, b, |a|);
    assert a[|a| - |a|..] == a && b[|b| - |a|..] == b;
  }
}
