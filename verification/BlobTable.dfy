/**
 * The accounting table of one blob store and its bucket. A row is one reserved upload; an object
 * is the bytes. Methods that touch one row are one statement each.
 */
module BlobTable {
  import opened Basics

  datatype BlobKey = BlobKey(group: Id, key: Id)

  datatype Row = Row(size: nat, createdAt: nat)

  /** The creation time that marks a row of the lasting bucket as under deletion. */
  const RESERVED_FOR_DELETION: nat := 0

  const SWEEP_BATCH_SIZE: nat := 100

  type Rows = map<BlobKey, Row>

  predicate Marked(rows: Rows, k: BlobKey) {
    k in rows && rows[k].createdAt == RESERVED_FOR_DELETION
  }

  // ---------------------------------------------------------------------
  // Usage
  // ---------------------------------------------------------------------

  function Share(k: BlobKey, row: Row, group: Id): nat {
    if k.group == group then row.size else 0
  }

  /** The bytes one space is charged for. */
  ghost function Total(rows: Rows, group: Id): nat
    decreases |rows|
  {
    if rows == map[] then 0
    else
      var k :| k in rows;
      Share(k, rows[k], group) + Total(rows - {k}, group)
  }

  lemma {:induction false} TotalAt(rows: Rows, k: BlobKey, group: Id)
    requires k in rows
    ensures Total(rows, group) == Share(k, rows[k], group) + Total(rows - {k}, group)
    decreases |rows|
  {
    var j :| j in rows && Total(rows, group) == Share(j, rows[j], group) + Total(rows - {j}, group);
    if j != k {
      TotalAt(rows - {j}, k, group);
      TotalAt(rows - {k}, j, group);
      assert rows - {j} - {k} == rows - {k} - {j};
    }
  }

  lemma TotalPut(rows: Rows, k: BlobKey, row: Row, group: Id)
    ensures Total(rows[k := row], group) == Share(k, row, group) + Total(rows - {k}, group)
  {
    TotalAt(rows[k := row], k, group);
    assert rows[k := row] - {k} == rows - {k};
  }

  lemma {:induction false} TotalShrinks(rows: Rows, gone: set<BlobKey>, group: Id)
    ensures Total(rows - gone, group) <= Total(rows, group)
    decreases |gone|
  {
    if gone == {} {
      assert rows - gone == rows;
    } else {
      var k :| k in gone;
      TotalShrinks(rows - {k}, gone - {k}, group);
      assert rows - {k} - (gone - {k}) == rows - gone;
      if k in rows {
        TotalAt(rows, k, group);
      } else {
        assert rows - {k} == rows;
      }
    }
  }

  // ---------------------------------------------------------------------
  // The statements
  // ---------------------------------------------------------------------

  function SizeAt(rows: Rows, k: BlobKey): nat {
    if k in rows then rows[k].size else 0
  }

  /** Write a row: never smaller than before, and never over one that is marked. */
  function Recorded(rows: Rows, k: BlobKey, size: nat, now: nat): Rows {
    if Marked(rows, k) then rows
    else rows[k := Row(if SizeAt(rows, k) < size then size else SizeAt(rows, k), now)]
  }

  ghost predicate Fits(rows: Rows, k: BlobKey, size: nat, quota: nat) {
    Total(rows - {k}, k.group) + (if SizeAt(rows, k) < size then size else SizeAt(rows, k)) <= quota
  }

  ghost predicate Reserves(rows: Rows, k: BlobKey, size: nat, quota: nat) {
    Fits(rows, k, size, quota) && !Marked(rows, k)
  }

  /** A reservation that is granted leaves the space within its quota and the key charged for at least `size`. */
  lemma ReservedFits(rows: Rows, k: BlobKey, size: nat, quota: nat, now: nat)
    requires Reserves(rows, k, size, quota)
    ensures Total(Recorded(rows, k, size, now), k.group) <= quota
    ensures k in Recorded(rows, k, size, now) && size <= Recorded(rows, k, size, now)[k].size
    ensures forall g :: g != k.group ==> Total(Recorded(rows, k, size, now), g) == Total(rows, g)
  {
    var row := Recorded(rows, k, size, now)[k];
    TotalPut(rows, k, row, k.group);
    forall g | g != k.group ensures Total(Recorded(rows, k, size, now), g) == Total(rows, g) {
      TotalPut(rows, k, row, g);
      if k in rows {
        TotalAt(rows, k, g);
      } else {
        assert rows - {k} == rows;
      }
    }
  }

  /** Recording again what a row already covers changes no total. */
  lemma RecordedTotal(rows: Rows, k: BlobKey, size: nat, now: nat, group: Id)
    ensures var rows' := Recorded(rows, k, size, now);
            Total(rows', group) == Total(rows, group) + (if k.group == group && !Marked(rows, k)
                && SizeAt(rows, k) < size then size - SizeAt(rows, k) else 0)
  {
    if !Marked(rows, k) {
      TotalPut(rows, k, Recorded(rows, k, size, now)[k], group);
      if k in rows {
        TotalAt(rows, k, group);
      } else {
        assert rows - {k} == rows;
      }
    }
  }

  /** Mark, in one batch, the rows nothing claims. */
  function MarkUnclaimed(rows: Rows, batch: set<BlobKey>, claims: set<BlobKey>): Rows {
    map k | k in rows :: if k in batch && k !in claims then rows[k].(createdAt := RESERVED_FOR_DELETION) else rows[k]
  }

  function MarkedNow(rows: Rows, batch: set<BlobKey>, claims: set<BlobKey>): set<BlobKey> {
    set k | k in batch && k in rows && k !in claims
  }

  /** Drop, in one batch, the rows still marked. */
  function DropMarked(rows: Rows, batch: set<BlobKey>): Rows {
    map k | k in rows && !(k in batch && rows[k].createdAt == RESERVED_FOR_DELETION) :: rows[k]
  }

  function Abandoned(rows: Rows, claims: set<BlobKey>, olderThan: nat): set<BlobKey> {
    set k | k in rows && rows[k].createdAt < olderThan && k !in claims
  }

  /** Exactly the rows listed and not claimed are gone, each with its object; nothing else is. */
  ghost predicate Dropped(
    rows: Rows, objects: map<BlobKey, nat>, claims: set<BlobKey>, blobs: seq<BlobKey>,
    rows': Rows, objects': map<BlobKey, nat>)
  {
    && (forall k :: k in rows' <==> k in rows && !(k in blobs && k !in claims))
    && (forall k :: k in rows' ==> rows'[k] == rows[k])
    && (forall k :: k in objects' <==> k in objects && !(k in rows && k in blobs && k !in claims))
    && (forall k :: k in objects' ==> objects'[k] == objects[k])
  }

  /** The batch from `i` to `j` failed: what came before it is gone, and it keeps its objects and its rows, marked. */
  ghost predicate StoppedAt(
    rows: Rows, objects: map<BlobKey, nat>, claims: set<BlobKey>, blobs: seq<BlobKey>, i: nat, j: nat,
    rows': Rows, objects': map<BlobKey, nat>)
    requires i < j <= |blobs|
  {
    exists before ::
      && Dropped(rows, objects, claims, blobs[..i], before, objects')
      && MarksOnly(before, rows', blobs[i..j], claims)
  }

  ghost predicate MarksOnly(rows: Rows, rows': Rows, blobs: seq<BlobKey>, claims: set<BlobKey>) {
    && rows'.Keys == rows.Keys
    && (forall k :: k in rows ==>
          rows'[k] == if k in blobs && k !in claims then Row(rows[k].size, RESERVED_FOR_DELETION) else rows[k])
  }

  lemma DroppedExact(rows: Rows, objects: map<BlobKey, nat>, claims: set<BlobKey>, blobs: seq<BlobKey>)
    ensures var gone := MarkedNow(rows, Keys(blobs), claims);
            Dropped(rows, objects, claims, blobs, rows - gone, objects - gone)
  {
  }

  lemma MarkedInPlace(rows: Rows, blobs: seq<BlobKey>, claims: set<BlobKey>)
    ensures MarksOnly(rows, MarkUnclaimed(rows, Keys(blobs), claims), blobs, claims)
  {
  }

  // ---------------------------------------------------------------------
  // The store
  // ---------------------------------------------------------------------

  class BlobStore {
    var rows: Rows
    var objects: map<BlobKey, nat>
    var claims: set<BlobKey>

    constructor ()
      ensures rows == map[] && objects == map[] && claims == {}
    {
      rows, objects, claims := map[], map[], {};
    }

    method Usage(group: Id) returns (total: nat)
      ensures total == Total(rows, group)
    {
      total := 0;
      var rest := rows;
      while rest != map[]
        invariant total + Total(rest, group) == Total(rows, group)
        decreases |rest|
      {
        var k :| k in rest;
        TotalAt(rest, k, group);
        total := total + Share(k, rest[k], group);
        rest := rest - {k};
      }
    }

    method ReserveBlob(k: BlobKey, size: nat, quota: nat, now: nat) returns (ok: bool)
      modifies this`rows
      ensures ok <==> Reserves(old(rows), k, size, quota)
      ensures rows == if ok then Recorded(old(rows), k, size, now) else old(rows)
      ensures ok ==> rows == old(rows)[k := Row(Max(SizeAt(old(rows), k), size), now)]
      ensures ok <==>
                && !Marked(old(rows), k)
                && Total(old(rows)[k := Row(Max(SizeAt(old(rows), k), size), now)], k.group) <= quota
    {
      var used := Usage(k.group);
      RecordedTotal(rows, k, size, now, k.group);
      if k in rows {
        TotalAt(rows, k, k.group);
      } else {
        assert rows - {k} == rows;
      }
      var had := SizeAt(rows, k);
      TotalPut(rows, k, Row(Max(had, size), now), k.group);
      if used - had + (if had < size then size else had) > quota || Marked(rows, k) {
        return false;
      }
      rows := Recorded(rows, k, size, now);
      return true;
    }

    method RecordBlob(k: BlobKey, size: nat, now: nat)
      modifies this`rows
      ensures rows == Recorded(old(rows), k, size, now)
      ensures k in old(rows) && old(rows)[k].createdAt == RESERVED_FOR_DELETION ==> rows == old(rows)
      ensures !(k in old(rows) && old(rows)[k].createdAt == RESERVED_FOR_DELETION) ==>
                rows == old(rows)[k := Row(if k in old(rows) then Max(old(rows)[k].size, size) else size, now)]
    {
      if k !in rows {
        rows := rows[k := Row(size, now)];
      } else if rows[k].createdAt != RESERVED_FOR_DELETION {
        rows := rows[k := Row(if rows[k].size < size then size else rows[k].size, now)];
      }
    }

    /** One batch of `DeleteUnclaimedBlobs`: mark, delete the objects, drop the rows. */
    method DeleteBatch(batch: set<BlobKey>, fails: bool) returns (ok: bool)
      modifies this`rows, this`objects
      ensures var marked := MarkedNow(old(rows), batch, claims);
              && (forall k :: k in marked <==> k in old(rows) && k in batch && k !in claims)
              && ok == (!fails || marked == {})
              && rows == (if ok then old(rows) - marked else MarkUnclaimed(old(rows), batch, claims))
              && objects == (if ok then old(objects) - marked else old(objects))
    {
      var marked := MarkedNow(rows, batch, claims);
      rows := MarkUnclaimed(rows, batch, claims);
      if marked == {} {
        forall k | k in old(rows) ensures !(k in batch && k !in claims) {
          assert k !in marked;
        }
        assert rows == old(rows) && rows - marked == rows && objects - marked == objects;
        return true;
      }
      if fails {
        return false;
      }
      objects := objects - marked;
      rows := DropMarked(rows, marked);
      return true;
    }

    /**
     * Delete what nothing claims, run alone, in batches. `failing` says which object deletions fail; the
     * first one stops the run with an exception, and its rows stay, marked, for the next sweep.
     */
    method DeleteUnclaimedBlobs(blobs: seq<BlobKey>, failing: seq<bool>) returns (ok: bool)
      requires |failing| == |blobs|
      modifies this`rows, this`objects
      ensures ok ==> Dropped(old(rows), old(objects), claims, blobs, rows, objects)
      ensures !ok ==> exists i, j :: 0 <= i < j <= |blobs| && j - i <= SWEEP_BATCH_SIZE
                        && StoppedAt(old(rows), old(objects), claims, blobs, i, j, rows, objects)
      ensures forall k :: k in claims ==> (k in rows <==> k in old(rows)) && (k in objects <==> k in old(objects))
      ensures forall k :: k in old(rows) && k !in rows ==> k !in objects
      ensures forall k :: k in old(objects) && k !in objects ==> k in old(rows) && k in Keys(blobs) && k !in claims
      ensures (forall i :: 0 <= i < |failing| ==> !failing[i]) ==> ok
    {
      var offset := 0;
      assert Keys(blobs[..0]) == {} && old(rows) - {} == old(rows) && old(objects) - {} == old(objects);
      while offset < |blobs|
        invariant 0 <= offset <= |blobs|
        invariant rows == old(rows) - MarkedNow(old(rows), Keys(blobs[..offset]), claims)
        invariant objects == old(objects) - MarkedNow(old(rows), Keys(blobs[..offset]), claims)
      {
        var next := if |blobs| - offset < SWEEP_BATCH_SIZE then |blobs| else offset + SWEEP_BATCH_SIZE;
        ghost var before := MarkedNow(old(rows), Keys(blobs[..offset]), claims);
        ghost var now := MarkedNow(rows, Keys(blobs[offset..next]), claims);
        ghost var objectsNow := objects;
        assert blobs[..next] == blobs[..offset] + blobs[offset..next];
        KeysSplit(blobs[..offset], blobs[offset..next]);
        assert before + now == MarkedNow(old(rows), Keys(blobs[..next]), claims);
        ghost var rowsNow := rows;
        ok := DeleteBatch(Keys(blobs[offset..next]), failing[offset]);
        if !ok {
          DroppedExact(old(rows), old(objects), claims, blobs[..offset]);
          assert Dropped(old(rows), old(objects), claims, blobs[..offset], rowsNow, objects);
          MarkedInPlace(rowsNow, blobs[offset..next], claims);
          assert StoppedAt(old(rows), old(objects), claims, blobs, offset, next, rows, objects);
          return false;
        }
        assert old(rows) - before - now == old(rows) - (before + now);
        assert old(objects) - before - now == old(objects) - (before + now);
        offset := next;
      }
      assert blobs[..offset] == blobs;
      DroppedExact(old(rows), old(objects), claims, blobs);
      return true;
    }

    /**
     * The orphan sweep, run alone with every object deletion succeeding: it ends, and exactly the abandoned
     * uploads are gone.
     */
    method PurgeOrphanBlobs(expires: bool, olderThan: nat)
      modifies this`rows, this`objects
      ensures rows == old(rows) - Abandoned(old(rows), claims, olderThan)
      ensures objects == old(objects) - Abandoned(old(rows), claims, olderThan)
      ensures forall k :: k in old(rows) ==>
                (k !in rows <==> old(rows)[k].createdAt < olderThan && k !in claims)
      ensures forall k :: k in old(objects) ==>
                (k !in objects <==> k in old(rows) && old(rows)[k].createdAt < olderThan && k !in claims)
    {
      ghost var gone: set<BlobKey> := {};
      assert old(rows) - {} == old(rows) && old(objects) - {} == old(objects);
      while true
        invariant gone <= Abandoned(old(rows), claims, olderThan)
        invariant rows == old(rows) - gone && objects == old(objects) - gone
        invariant Abandoned(rows, claims, olderThan) == Abandoned(old(rows), claims, olderThan) - gone
        decreases |Abandoned(rows, claims, olderThan)|
      {
        var found := Oldest(Abandoned(rows, claims, olderThan));
        if found == {} {
          assert gone == Abandoned(old(rows), claims, olderThan);
          return;
        }
        ghost var left := Abandoned(rows, claims, olderThan);
        SweepOnce(expires, found);
        MinusTwice(old(rows), gone, found);
        MinusTwice(old(objects), gone, found);
        AbandonedLess(old(rows) - gone, found, claims, olderThan);
        gone := gone + found;
        assert left == (left - found) + found;
      }
    }

    /**
     * One round of the sweep over rows nothing claims: row first in a bucket that expires, object first in
     * one that does not.
     */
    method SweepOnce(expires: bool, found: set<BlobKey>)
      requires found <= rows.Keys && found !! claims
      modifies this`rows, this`objects
      ensures rows == old(rows) - found && objects == old(objects) - found
    {
      if !expires {
        assert MarkedNow(rows, found, claims) == found;
        var _ := DeleteBatch(found, false);
      } else {
        rows := rows - found;
        objects := objects - found;
      }
    }
  }

  lemma MinusTwice<V>(m: map<BlobKey, V>, a: set<BlobKey>, b: set<BlobKey>)
    ensures m - a - b == m - (a + b)
  {
  }

  lemma AbandonedLess(rows: Rows, found: set<BlobKey>, claims: set<BlobKey>, olderThan: nat)
    ensures Abandoned(rows - found, claims, olderThan) == Abandoned(rows, claims, olderThan) - found
  {
  }

  function Keys(blobs: seq<BlobKey>): set<BlobKey> {
    set i | 0 <= i < |blobs| :: blobs[i]
  }

  lemma KeysSplit(a: seq<BlobKey>, b: seq<BlobKey>)
    ensures Keys(a + b) == Keys(a) + Keys(b)
  {
    forall k | k in Keys(a) + Keys(b) ensures k in Keys(a + b) {
      if k in Keys(a) {
        var i :| 0 <= i < |a| && a[i] == k;
        assert (a + b)[i] == k;
      } else {
        var i :| 0 <= i < |b| && b[i] == k;
        assert (a + b)[|a| + i] == k;
      }
    }
  }

  /** Up to one batch of candidates; none only when there are none. */
  method Oldest(candidates: set<BlobKey>) returns (found: set<BlobKey>)
    ensures found <= candidates && |found| <= SWEEP_BATCH_SIZE && (found == {} <==> candidates == {})
  {
    found := {};
    var n := 0;
    while found != candidates && n < SWEEP_BATCH_SIZE
      invariant found <= candidates && |found| == n && n <= SWEEP_BATCH_SIZE && (n == 0 ==> found == {})
      decreases SWEEP_BATCH_SIZE - n
    {
      assert candidates - found != {} by {
        assert candidates == found + (candidates - found);
      }
      var k :| k in candidates - found;
      found, n := found + {k}, n + 1;
    }
  }
}
