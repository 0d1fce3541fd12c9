/**
 * The stored history and its outbox index: one `OutboxStore` is one space's database, and each of
 * its methods up to `MergeScan` is one transaction.
 */
module OutboxStore {
  import opened Basics
  import opened Sorting

  datatype Status = Queued | Uploading | Sent | Failed

  datatype Message = Message(id: Id, createdAt: int, outgoing: bool, status: Status, body: nat)

  /** The lock a row is sealed with: its key, and the nonce that makes every sealing different. */
  datatype Seal = Seal(key: nat, nonce: nat)

  datatype Row = Row(msg: Message, seal: Option<Seal>)

  datatype Index = Index(complete: bool, ids: set<Id>)

  datatype Store = Store(rows: map<Id, Row>, index: Option<Index>)

  /** Still owed to the server: outgoing, and neither taken nor given up. */
  predicate IsQueuedOutgoing(m: Message): (owed: bool)
    ensures owed <==> m.outgoing && !m.status.Sent? && !m.status.Failed?
  {
    m.outgoing && (m.status.Queued? || m.status.Uploading?)
  }

  /** What a context holding `key` reads: nothing from a sealed row while locked. */
  function FromStored(row: Row, key: Option<nat>): Option<Message> {
    if row.seal.None? then Some(row.msg)
    else if key == Some(row.seal.value.key) then Some(row.msg)
    else None
  }

  /** A sealed row under another key: opening it is an exception, not an absence. */
  predicate Unopenable(row: Row, key: Option<nat>) {
    row.seal.Some? && key.Some? && key.value != row.seal.value.key
  }

  function Ids(index: Option<Index>): set<Id> {
    if index.Some? then index.value.ids else {}
  }

  predicate IsComplete(index: Option<Index>) {
    index.Some? && index.value.complete
  }

  // ---------------------------------------------------------------------
  // What the transactions do
  // ---------------------------------------------------------------------

  function TrackIds(ids: set<Id>, ms: seq<Message>, addOnly: bool): set<Id> {
    if ms == [] then ids
    else
      var before, m := TrackIds(ids, ms[..|ms| - 1], addOnly), ms[|ms| - 1];
      if IsQueuedOutgoing(m) then before + {m.id} else if addOnly then before else before - {m.id}
  }

  function Tracked(index: Option<Index>, ms: seq<Message>, addOnly: bool): Option<Index> {
    Some(Index(IsComplete(index), TrackIds(Ids(index), ms, addOnly)))
  }

  function Untracked(index: Option<Index>, ids: set<Id>): Option<Index> {
    if index.None? then None else Some(index.value.(ids := index.value.ids - ids))
  }

  function Messages(written: seq<Row>): seq<Message> {
    if written == [] then [] else Messages(written[..|written| - 1]) + [written[|written| - 1].msg]
  }

  function PutAll(rows: map<Id, Row>, written: seq<Row>): map<Id, Row> {
    if written == [] then rows
    else PutAll(rows, written[..|written| - 1])[written[|written| - 1].msg.id := written[|written| - 1]]
  }

  /** A batch of rows and their index entries, written together. */
  function Put(s: Store, written: seq<Row>): Store {
    Store(PutAll(s.rows, written), Tracked(s.index, Messages(written), false))
  }

  function PutOne(s: Store, row: Row): Store {
    if row.msg.outgoing then Put(s, [row]) else s.(rows := s.rows[row.msg.id := row])
  }

  function Deleted(s: Store, ids: set<Id>): Store {
    Store(s.rows - ids, Untracked(s.index, ids))
  }

  /** A row written back as it was read earlier; its index entry can only appear, not go. */
  function Rewritten(s: Store, row: Row): Store {
    Store(s.rows[row.msg.id := row], Tracked(s.index, [row.msg], true))
  }

  function RowNow(rows: map<Id, Row>, id: Id): Option<Row> {
    if id in rows then Some(rows[id]) else None
  }

  /** The entries whose row is still exactly the one that was judged. */
  function Settled(rows: map<Id, Row>, stale: map<Id, Option<Row>>): set<Id> {
    set id | id in stale && RowNow(rows, id) == stale[id]
  }

  function StaleDropped(s: Store, stale: map<Id, Option<Row>>): Store {
    s.(index := Untracked(s.index, Settled(s.rows, stale)))
  }

  function QueuedIn(rows: map<Id, Row>, readable: set<Id>): set<Id> {
    set id | id in readable && id in rows && IsQueuedOutgoing(rows[id].msg)
  }

  /** The end of a scan that read `seen` and could open the rows in `readable`. */
  function ScanMerged(s: Store, seen: map<Id, Row>, readable: set<Id>): Store {
    s.(index := Some(Index(
      seen.Keys <= readable || IsComplete(s.index),
      Ids(s.index) + QueuedIn(seen, readable))))
  }

  // ---------------------------------------------------------------------
  // What the index promises
  // ---------------------------------------------------------------------

  ghost predicate Keyed(rows: map<Id, Row>) {
    forall id :: id in rows ==> rows[id].msg.id == id
  }

  /** Every queued row is listed. Extra ids are allowed. */
  ghost predicate Covers(rows: map<Id, Row>, ids: set<Id>) {
    forall id :: id in rows && IsQueuedOutgoing(rows[id].msg) ==> id in ids
  }

  ghost predicate IndexOk(s: Store) {
    IsComplete(s.index) ==> Covers(s.rows, s.index.value.ids)
  }

  /**
   * The last message of an id decides whether the id is listed; in an index only added to, only those owed are heard.
   * An id nobody speaks of stays as it was.
   */
  ghost predicate Relisted(before: Option<Index>, after: Option<Index>, ms: seq<Message>, addOnly: bool) {
    && after.Some? && IsComplete(after) == IsComplete(before)
    && Listing(Ids(before), Ids(after), ms, addOnly)
  }

  ghost predicate Listing(before: set<Id>, after: set<Id>, ms: seq<Message>, addOnly: bool) {
    && (forall id :: (forall i :: 0 <= i < |ms| && ms[i].id == id ==> !Heard(ms[i], addOnly)) ==>
          (id in after <==> id in before))
    && (forall i :: 0 <= i < |ms| && HeardLast(ms, i, addOnly) ==> (ms[i].id in after <==> IsQueuedOutgoing(ms[i])))
  }

  predicate HeardLast(ms: seq<Message>, i: nat, addOnly: bool)
    requires i < |ms|
  {
    Heard(ms[i], addOnly) && forall k :: i < k < |ms| && ms[k].id == ms[i].id ==> !Heard(ms[k], addOnly)
  }

  predicate Heard(m: Message, addOnly: bool) {
    addOnly ==> IsQueuedOutgoing(m)
  }

  lemma TrackIdsExact(ids: set<Id>, ms: seq<Message>, addOnly: bool)
    ensures Listing(ids, TrackIds(ids, ms, addOnly), ms, addOnly)
  {
    var after := TrackIds(ids, ms, addOnly);
    forall id | forall i :: 0 <= i < |ms| && ms[i].id == id ==> !Heard(ms[i], addOnly)
      ensures id in after <==> id in ids
    {
      var _ := TrackedId(ids, ms, addOnly, id);
    }
    forall i | 0 <= i < |ms| && HeardLast(ms, i, addOnly) ensures ms[i].id in after <==> IsQueuedOutgoing(ms[i]) {
      var last := TrackedId(ids, ms, addOnly, ms[i].id);
    }
  }

  lemma {:induction false} TrackedId(ids: set<Id>, ms: seq<Message>, addOnly: bool, id: Id) returns (last: int)
    ensures -1 <= last < |ms| && (forall k :: last < k < |ms| && ms[k].id == id ==> !Heard(ms[k], addOnly))
    ensures last >= 0 ==> ms[last].id == id && Heard(ms[last], addOnly)
    ensures id in TrackIds(ids, ms, addOnly) <==> if last < 0 then id in ids else IsQueuedOutgoing(ms[last])
  {
    last := |ms| - 1;
    if ms != [] && !(ms[last].id == id && Heard(ms[last], addOnly)) {
      last := TrackedId(ids, ms[..last], addOnly, id);
    }
  }

  /** The last row written for an id stands; every other id is as it was. */
  ghost predicate Overlaid(before: map<Id, Row>, after: map<Id, Row>, written: seq<Row>) {
    && (forall id :: (forall i :: 0 <= i < |written| ==> written[i].msg.id != id) ==>
          RowNow(after, id) == RowNow(before, id))
    && (forall i :: 0 <= i < |written| && WrittenLast(written, i) ==>
          RowNow(after, written[i].msg.id) == Some(written[i]))
  }

  predicate WrittenLast(written: seq<Row>, i: nat)
    requires i < |written|
  {
    forall k :: i < k < |written| ==> written[k].msg.id != written[i].msg.id
  }

  lemma PutAllExact(rows: map<Id, Row>, written: seq<Row>)
    ensures Overlaid(rows, PutAll(rows, written), written)
  {
    var after := PutAll(rows, written);
    forall id | forall i :: 0 <= i < |written| ==> written[i].msg.id != id
      ensures RowNow(after, id) == RowNow(rows, id)
    {
      var _ := PutRow(rows, written, id);
    }
    forall i | 0 <= i < |written| && WrittenLast(written, i)
      ensures RowNow(after, written[i].msg.id) == Some(written[i])
    {
      var last := PutRow(rows, written, written[i].msg.id);
    }
  }

  lemma {:induction false} PutRow(rows: map<Id, Row>, written: seq<Row>, id: Id) returns (last: int)
    ensures -1 <= last < |written| && (forall k :: last < k < |written| ==> written[k].msg.id != id)
    ensures last >= 0 ==> written[last].msg.id == id
    ensures RowNow(PutAll(rows, written), id) == if last < 0 then RowNow(rows, id) else Some(written[last])
  {
    last := |written| - 1;
    if written != [] && written[last].msg.id != id {
      last := PutRow(rows, written[..last], id);
    }
  }

  /** A batch and its entries: whatever set of ids covered the old rows, extended by the batch, covers the new ones. */
  lemma {:induction false} PutCovers(rows: map<Id, Row>, written: seq<Row>, listed: set<Id>, extra: set<Id>)
    requires Keyed(rows) && Covers(rows, listed + extra)
    ensures Keyed(PutAll(rows, written))
    ensures Covers(PutAll(rows, written), TrackIds(listed, Messages(written), false) + extra)
  {
    if written != [] {
      PutCovers(rows, written[..|written| - 1], listed, extra);
    }
  }

  // ---------------------------------------------------------------------
  // Reading the outbox
  // ---------------------------------------------------------------------

  function CreatedAt(m: Message): int {
    m.createdAt
  }

  /** `list` holds, once each, exactly the messages of `rows` that `key` opens and `wanted` keeps. */
  ghost predicate ListsExactly(list: seq<Message>, rows: map<Id, Row>, key: Option<nat>, wanted: Message -> bool) {
    && (forall i :: 0 <= i < |list| ==>
          list[i].id in rows && FromStored(rows[list[i].id], key) == Some(list[i]) && wanted(list[i]))
    && Distinct(IdOf, list)
    && (forall id :: id in rows && FromStored(rows[id], key).Some? && wanted(rows[id].msg) ==> rows[id].msg in list)
  }

  /** What a context holding `key` sees of a row: a message still owed, or one that is not; or, locked, neither. */
  predicate ReadAsQueued(row: Row, key: Option<nat>) {
    FromStored(row, key).Some? && IsQueuedOutgoing(row.msg)
  }

  predicate ReadAsDone(row: Row, key: Option<nat>) {
    FromStored(row, key).Some? && !IsQueuedOutgoing(row.msg)
  }

  predicate All(m: Message) {
    true
  }

  /** The queued part of a listing of the whole history is a listing of the queue. */
  lemma QueuedPart(history: seq<Message>, rows: map<Id, Row>, key: Option<nat>) returns (queue: seq<Message>)
    requires ListsExactly(history, rows, key, All) && Ordered(CreatedAt, history)
    ensures queue == Keep(IsQueuedOutgoing, history) && ListsExactly(queue, rows, key, IsQueuedOutgoing)
    ensures Ordered(CreatedAt, queue)
  {
    queue := Keep(IsQueuedOutgoing, history);
    KeepMembers(IsQueuedOutgoing, history);
    KeepDistinct(IdOf, IsQueuedOutgoing, history);
    KeepOrdered(CreatedAt, IsQueuedOutgoing, history);
    forall i | 0 <= i < |queue|
      ensures queue[i].id in rows && FromStored(rows[queue[i].id], key) == Some(queue[i]) && IsQueuedOutgoing(queue[i])
    {
      assert queue[i] in history;
    }
    forall id | id in rows && FromStored(rows[id], key).Some? && IsQueuedOutgoing(rows[id].msg)
      ensures rows[id].msg in queue
    {
      assert All(rows[id].msg);
    }
  }

  /** Rows a prune may remove: readable, and nothing still owed or waiting for the user. */
  predicate Prunable(row: Row, cutoff: int, key: Option<nat>) {
    && row.msg.createdAt < cutoff
    && FromStored(row, key).Some?
    && !(row.msg.outgoing && !row.msg.status.Sent?)
  }

  function Doomed(rows: map<Id, Row>, cutoff: int, key: Option<nat>): set<Id> {
    set id | id in rows && Prunable(rows[id], cutoff, key)
  }

  const PRUNE_BATCH: nat := 200

  predicate OldAndDone(row: Row, cutoff: int, key: Option<nat>) {
    && row.msg.createdAt < cutoff
    && (row.seal.Some? ==> key == Some(row.seal.value.key))
    && (row.msg.outgoing ==> row.msg.status.Sent?)
  }

  /** Exactly the old rows that open and owe nothing are gone, with their entries. */
  ghost predicate Pruned(before: Store, cutoff: int, key: Option<nat>, after: Store, removed: nat) {
    && PrunedRows(before.rows, cutoff, key, after.rows)
    && Ids(after.index) == Ids(before.index) - (before.rows.Keys - after.rows.Keys)
    && IsComplete(after.index) == IsComplete(before.index)
    && removed == |before.rows.Keys - after.rows.Keys|
  }

  ghost predicate PrunedRows(before: map<Id, Row>, cutoff: int, key: Option<nat>, after: map<Id, Row>) {
    && (forall id :: id in after ==> id in before && after[id] == before[id])
    && (forall id :: id in before ==> (id !in after <==> OldAndDone(before[id], cutoff, key)))
  }

  lemma DoomedExact(rows: map<Id, Row>, cutoff: int, key: Option<nat>)
    ensures var doomed := Doomed(rows, cutoff, key);
            PrunedRows(rows, cutoff, key, rows - doomed) && rows.Keys - (rows - doomed).Keys == doomed
  {
  }

  lemma PrunedExact(before: Store, cutoff: int, key: Option<nat>, doomed: set<Id>)
    requires doomed == Doomed(before.rows, cutoff, key)
    ensures Pruned(before, cutoff, key, Deleted(before, doomed), |doomed|)
  {
    DoomedExact(before.rows, cutoff, key);
  }

  // ---------------------------------------------------------------------
  // The database
  // ---------------------------------------------------------------------

  class Database {
    var rows: map<Id, Row>
    var index: Option<Index>

    ghost function Now(): Store
      reads this
    {
      Store(rows, index)
    }

    constructor ()
      ensures Now() == Store(map[], None)
    {
      rows, index := map[], None;
    }

    method TrackOutbox(ms: seq<Message>, addOnly: bool)
      modifies this`index
      ensures index == Tracked(old(index), ms, addOnly)
      ensures Relisted(old(index), index, ms, addOnly)
    {
      var ids := Ids(index);
      for i := 0 to |ms|
        invariant ids == TrackIds(Ids(index), ms[..i], addOnly)
        invariant index == old(index)
      {
        assert ms[..i + 1][..i] == ms[..i];
        if IsQueuedOutgoing(ms[i]) {
          ids := ids + {ms[i].id};
        } else if !addOnly {
          ids := ids - {ms[i].id};
        }
      }
      assert ms[..|ms|] == ms;
      TrackIdsExact(Ids(index), ms, addOnly);
      index := Some(Index(IsComplete(index), ids));
    }

    method UntrackOutbox(ids: set<Id>)
      modifies this`index
      ensures index == Untracked(old(index), ids)
      ensures Ids(index) == Ids(old(index)) - ids && IsComplete(index) == IsComplete(old(index))
    {
      if index.None? {
        return;
      }
      var kept := index.value.ids - ids;
      if kept != index.value.ids {
        index := Some(index.value.(ids := kept));
      }
    }

    method PutMessage(m: Message, seal: Option<Seal>)
      modifies this
      ensures Now() == PutOne(old(Now()), Row(m, seal))
      ensures rows == old(rows)[m.id := Row(m, seal)]
      ensures if m.outgoing then Relisted(old(index), index, [m], false) else index == old(index)
    {
      var row := Row(m, seal);
      if !m.outgoing {
        rows := rows[m.id := row];
        return;
      }
      assert [row][..0] == [] && Messages([row]) == Messages([]) + [m] && PutAll(rows, []) == rows;
      assert PutAll(rows, [row]) == PutAll(rows, [])[m.id := row];
      rows := rows[m.id := row];
      TrackOutbox([m], false);
    }

    method PutOutgoingFileMessages(written: seq<Row>)
      modifies this
      ensures written == [] ==> Now() == old(Now())
      ensures written != [] ==> Now() == Put(old(Now()), written)
      ensures written != [] ==> Relisted(old(index), index, Messages(written), false)
      ensures Overlaid(old(rows), rows, written)
    {
      if |written| == 0 {
        return;
      }
      for i := 0 to |written|
        invariant rows == PutAll(old(rows), written[..i]) && index == old(index)
      {
        assert written[..i + 1][..i] == written[..i];
        rows := rows[written[i].msg.id := written[i]];
      }
      assert written[..|written|] == written;
      PutAllExact(old(rows), written);
      TrackOutbox(Messages(written), false);
    }

    method DeleteMessage(id: Id)
      modifies this
      ensures Now() == Deleted(old(Now()), {id})
      ensures rows == old(rows) - {id} && Ids(index) == Ids(old(index)) - {id}
      ensures IsComplete(index) == IsComplete(old(index))
    {
      rows := rows - {id};
      UntrackOutbox({id});
    }

    method DropStale(stale: map<Id, Option<Row>>)
      modifies this`index
      ensures Now() == StaleDropped(old(Now()), stale)
      ensures rows == old(rows) && IsComplete(index) == IsComplete(old(index))
      ensures forall id :: id in Ids(index) <==>
                && id in Ids(old(index))
                && !(id in stale && (if id in rows then stale[id] == Some(rows[id]) else stale[id].None?))
    {
      var unread, settled := stale.Keys, {};
      while unread != {}
        invariant unread <= stale.Keys
        invariant settled == set id | id in stale && id !in unread && RowNow(rows, id) == stale[id]
        invariant rows == old(rows) && index == old(index)
        decreases |unread|
      {
        var id :| id in unread;
        unread := unread - {id};
        if RowNow(rows, id) == stale[id] {
          settled := settled + {id};
        }
      }
      assert stale.Keys - unread == stale.Keys;
      assert settled == Settled(rows, stale);
      UntrackOutbox(settled);
    }

    method Rewrite(row: Row)
      modifies this
      ensures Now() == Rewritten(old(Now()), row)
      ensures rows == old(rows)[row.msg.id := row] && Relisted(old(index), index, [row.msg], true)
    {
      rows := rows[row.msg.id := row];
      TrackOutbox([row.msg], true);
    }

    method MergeScan(seen: map<Id, Row>, readable: set<Id>)
      modifies this`index
      ensures Now() == ScanMerged(old(Now()), seen, readable)
      ensures rows == old(rows) && (IsComplete(index) <==> IsComplete(old(index)) || seen.Keys <= readable)
      ensures forall id :: id in Ids(index) <==>
                id in Ids(old(index)) || (id in seen && id in readable && IsQueuedOutgoing(seen[id].msg))
    {
      index := Some(Index(seen.Keys <= readable || IsComplete(index), Ids(index) + QueuedIn(seen, readable)));
    }

    /** Add what is missing; entries are never removed here. */
    method TrackQueued(ms: seq<Message>)
      modifies this`index
      ensures rows == old(rows)
      ensures Ids(index) == Ids(old(index)) + (set i | 0 <= i < |ms| && IsQueuedOutgoing(ms[i]) :: ms[i].id)
      ensures IsComplete(index) == IsComplete(old(index))
    {
      var queued := Keep(IsQueuedOutgoing, ms);
      KeepMembers(IsQueuedOutgoing, ms);
      AddOnlyIds(Ids(index), queued);
      SameIds(ms);
      if |queued| == 0 {
        assert forall i :: 0 <= i < |ms| && IsQueuedOutgoing(ms[i]) ==> ms[i] in queued;
        return;
      }
      if index.Some? && forall i :: 0 <= i < |queued| ==> queued[i].id in index.value.ids {
        return;
      }
      TrackOutbox(queued, true);
    }

    /**
     * Every readable row older than `cutoff` that owes nothing goes, in batches, with its entry; everything else
     * stays as it is. `None` is an exception from an old row sealed under another key, before anything went.
     */
    method PruneHistory(cutoff: int, key: Option<nat>) returns (removed: Option<nat>)
      modifies this
      ensures removed.None? <==> exists id ::
                && id in old(rows) && old(rows)[id].msg.createdAt < cutoff
                && old(rows)[id].seal.Some? && key.Some? && key.value != old(rows)[id].seal.value.key
      ensures removed.None? ==> Now() == old(Now())
      ensures removed.Some? ==> Pruned(old(Now()), cutoff, key, Now(), removed.value)
    {
      if exists id :: id in rows && rows[id].msg.createdAt < cutoff && Unopenable(rows[id], key) {
        return None;
      }
      var doomed := Doomed(rows, cutoff, key);
      removed := Some(|doomed|);
      var left := doomed;
      DeletedNone(Now());
      assert doomed - left == {};
      while left != {}
        invariant left <= doomed
        invariant Now() == Deleted(old(Now()), doomed - left)
        decreases |left|
      {
        var batch := TakeBatch(left);
        DeletedMore(old(Now()), doomed, left, batch);
        DeleteBatch(batch);
        left := left - batch;
      }
      assert doomed - left == doomed;
      PrunedExact(old(Now()), cutoff, key, doomed);
    }

    method DeleteBatch(batch: set<Id>)
      modifies this
      ensures Now() == Deleted(old(Now()), batch)
    {
      rows := rows - batch;
      UntrackOutbox(batch);
    }

    /** One full scan, run alone: what it returns, and the index it leaves. */
    method RebuildOutboxIndex(history: seq<Message>, key: Option<nat>) returns (queued: seq<Message>)
      requires Keyed(rows) && ListsExactly(history, rows, key, All) && Ordered(CreatedAt, history)
      modifies this`index
      ensures queued == Keep(IsQueuedOutgoing, history)
      ensures rows == old(rows)
      ensures IsComplete(index) <==>
                IsComplete(old(index)) || forall id :: id in rows ==> FromStored(rows[id], key).Some?
      ensures forall id :: id in Ids(index) <==>
                || id in Ids(old(index))
                || (id in rows && FromStored(rows[id], key).Some? && IsQueuedOutgoing(rows[id].msg))
      ensures Now() == ScanMerged(old(Now()), old(rows), Readable(old(rows), key))
    {
      queued := Keep(IsQueuedOutgoing, history);
      MergeScan(rows, Readable(rows, key));
    }

    /**
     * What the flush reads, run alone: exactly the queued messages this context can open, oldest
     * first, whichever of the two ways it took. `None` is an exception from a row sealed under another key.
     * `history` is the database's own index by creation time.
     */
    method QueuedMessages(history: seq<Message>, key: Option<nat>) returns (result: Option<seq<Message>>)
      requires Keyed(rows) && IndexOk(Now()) && ListsExactly(history, rows, key, All) && Ordered(CreatedAt, history)
      modifies this`index
      ensures rows == old(rows) && IndexOk(Now())
      ensures IsComplete(old(index)) ==> IsComplete(index)
      ensures result.None? ==> Now() == old(Now())
      ensures result.None? <==> exists id ::
                id in rows && Unopenable(rows[id], key) && (IsComplete(old(index)) ==> id in old(index).value.ids)
      ensures result.Some? && IsComplete(old(index)) ==> forall id :: id in Ids(index) <==>
                  id in Ids(old(index)) && id in rows && !ReadAsDone(rows[id], key)
      ensures result.Some? && !IsComplete(old(index)) ==> forall id :: id in Ids(index) <==>
                  id in Ids(old(index)) || (id in rows && ReadAsQueued(rows[id], key))
      ensures result.Some? ==>
            ListsExactly(result.value, rows, key, IsQueuedOutgoing) && Ordered(CreatedAt, result.value)
    {
      if !IsComplete(index) {
        if exists id :: id in rows && Unopenable(rows[id], key) {
          return None;
        }
        var list := RebuildOutboxIndex(history, key);
        ghost var _ := QueuedPart(history, rows, key);
        return Some(list);
      }
      var queued, stale := ReadIndexed(key);
      if queued.None? {
        return None;
      }
      if stale != map[] {
        DropStale(stale);
      }
      SortByExact(CreatedAt, queued.value);
      SortedLists(queued.value, rows, key, IsQueuedOutgoing);
      return Some(SortBy(CreatedAt, queued.value));
    }

    /**
     * Only the rows the index lists are read. Those that look done are reported, each with the row they
     * were judged by.
     */
    method ReadIndexed(key: Option<nat>) returns (result: Option<seq<Message>>, stale: map<Id, Option<Row>>)
      requires IsComplete(index) && Keyed(rows) && IndexOk(Now())
      ensures result.None? <==> exists id :: id in index.value.ids && id in rows && Unopenable(rows[id], key)
      ensures result.Some? ==> ListsExactly(result.value, rows, key, IsQueuedOutgoing)
      ensures result.Some? ==> forall id :: id in stale <==>
                  id in index.value.ids && (id in rows ==> ReadAsDone(rows[id], key))
      ensures NothingOwed(rows, stale)
    {
      var unread := index.value.ids;
      var queued: seq<Message> := [];
      stale := map[];
      while unread != {}
        invariant unread <= index.value.ids
        invariant ListsExactly(queued, Part(rows, index.value.ids - unread), key, IsQueuedOutgoing)
        invariant NothingOwed(rows, stale)
        invariant forall id :: id in stale <==>
                    id in index.value.ids && id !in unread && (id in rows ==> ReadAsDone(rows[id], key))
        invariant forall id :: id in index.value.ids && id !in unread && id in rows ==> !Unopenable(rows[id], key)
        decreases |unread|
      {
        var id :| id in unread;
        ghost var before, after := Part(rows, index.value.ids - unread), Part(rows, index.value.ids - (unread - {id}));
        unread := unread - {id};
        if id !in rows {
          stale := stale[id := None];
          assert before == after;
        } else if Unopenable(rows[id], key) {
          return None, stale;
        } else {
          var message := FromStored(rows[id], key);
          assert after == before[id := rows[id]];
          if message.None? {
            ListsNoMore(queued, before, id, rows[id], key);
          } else if IsQueuedOutgoing(message.value) {
            ListsOneMore(queued, before, id, rows[id], key);
            queued := queued + [message.value];
          } else {
            ListsNoMore(queued, before, id, rows[id], key);
            stale := stale[id := Some(rows[id])];
          }
        }
      }
      ListsWhole(queued, rows, index.value.ids, key);
      return Some(queued), stale;
    }
  }

  function Part(rows: map<Id, Row>, ids: set<Id>): map<Id, Row> {
    map id | id in rows && id in ids :: rows[id]
  }

  /** Each entry is the row as it is now, and no such row is still owed. */
  ghost predicate NothingOwed(rows: map<Id, Row>, stale: map<Id, Option<Row>>) {
    forall id :: id in stale ==> RowNow(rows, id) == stale[id] && (id in rows ==> !IsQueuedOutgoing(rows[id].msg))
  }

  lemma DeletedNone(s: Store)
    ensures Deleted(s, {}) == s
  {
    assert s.rows - {} == s.rows && Ids(s.index) - {} == Ids(s.index);
  }

  lemma DeletedMore(s: Store, doomed: set<Id>, left: set<Id>, batch: set<Id>)
    requires batch <= left <= doomed
    ensures Deleted(Deleted(s, doomed - left), batch) == Deleted(s, doomed - (left - batch))
  {
    var a := doomed - left;
    assert doomed - (left - batch) == a + batch;
    assert (s.rows - a) - batch == s.rows - (a + batch) && (Ids(s.index) - a) - batch == Ids(s.index) - (a + batch);
  }

  function Readable(rows: map<Id, Row>, key: Option<nat>): set<Id> {
    set id | id in rows && FromStored(rows[id], key).Some?
  }

  method TakeBatch(left: set<Id>) returns (batch: set<Id>)
    requires left != {}
    ensures batch <= left && batch != {} && |batch| <= PRUNE_BATCH
    ensures |batch| < PRUNE_BATCH ==> batch == left
  {
    batch := {};
    var n := 0;
    while batch != left && n < PRUNE_BATCH
      invariant batch <= left && |batch| == n && n <= PRUNE_BATCH && (n == 0 ==> batch == {})
      decreases PRUNE_BATCH - n
    {
      assert left - batch != {} by {
        assert left == batch + (left - batch);
      }
      var id :| id in left - batch;
      batch, n := batch + {id}, n + 1;
    }
  }

  lemma {:induction false} AddOnlyIds(ids: set<Id>, ms: seq<Message>)
    requires forall m :: m in ms ==> IsQueuedOutgoing(m)
    ensures TrackIds(ids, ms, true) == ids + (set i | 0 <= i < |ms| :: ms[i].id)
  {
    if ms != [] {
      var init := ms[..|ms| - 1];
      AddOnlyIds(ids, init);
      assert ms == init + [ms[|ms| - 1]];
      assert (set i | 0 <= i < |ms| :: ms[i].id) == (set i | 0 <= i < |init| :: init[i].id) + {ms[|ms| - 1].id};
    }
  }

  lemma SameIds(ms: seq<Message>)
    ensures (set i | 0 <= i < |Keep(IsQueuedOutgoing, ms)| ::
        Keep(IsQueuedOutgoing, ms)[i].id) == (set i | 0 <= i < |ms| && IsQueuedOutgoing(ms[i]) :: ms[i].id)
  {
    KeepMembers(IsQueuedOutgoing, ms);
    var f := Keep(IsQueuedOutgoing, ms);
    forall i | 0 <= i < |ms| && IsQueuedOutgoing(ms[i]) ensures ms[i].id in (set k | 0 <= k < |f| :: f[k].id) {
      assert ms[i] in f;
    }
    forall i | 0 <= i < |f| ensures f[i].id in (set k | 0 <= k < |ms| && IsQueuedOutgoing(ms[k]) :: ms[k].id) {
      assert f[i] in ms;
    }
  }

  lemma ListsOneMore(list: seq<Message>, rows: map<Id, Row>, id: Id, row: Row, key: Option<nat>)
    requires ListsExactly(list, rows, key, IsQueuedOutgoing) && id !in rows && row.msg.id == id
    requires FromStored(row, key).Some? && IsQueuedOutgoing(row.msg)
    ensures ListsExactly(list + [row.msg], rows[id := row], key, IsQueuedOutgoing)
  {
  }

  lemma ListsNoMore(list: seq<Message>, rows: map<Id, Row>, id: Id, row: Row, key: Option<nat>)
    requires ListsExactly(list, rows, key, IsQueuedOutgoing) && id !in rows && row.msg.id == id
    requires FromStored(row, key).None? || !IsQueuedOutgoing(row.msg)
    ensures ListsExactly(list, rows[id := row], key, IsQueuedOutgoing)
  {
  }

  /** A covering index misses nothing, so reading only its rows is reading them all. */
  lemma ListsWhole(list: seq<Message>, rows: map<Id, Row>, ids: set<Id>, key: Option<nat>)
    requires Keyed(rows) && Covers(rows, ids)
    requires ListsExactly(list, Part(rows, ids - {}), key, IsQueuedOutgoing)
    ensures ListsExactly(list, rows, key, IsQueuedOutgoing)
  {
    var listed := Part(rows, ids - {});
    forall id | id in rows && FromStored(rows[id], key).Some? && IsQueuedOutgoing(rows[id].msg)
      ensures rows[id].msg in list
    {
      assert id in listed && listed[id] == rows[id] && IsQueuedOutgoing(listed[id].msg);
    }
  }

  function IdOf(m: Message): int {
    m.id
  }

  lemma SortedLists(list: seq<Message>, rows: map<Id, Row>, key: Option<nat>, wanted: Message -> bool)
    requires ListsExactly(list, rows, key, wanted)
    ensures ListsExactly(SortBy(CreatedAt, list), rows, key, wanted)
  {
    var s := SortBy(CreatedAt, list);
    SortByExact(CreatedAt, list);
    SameMembers(s, list);
    DistinctPermutes(IdOf, list, s);
    forall i | 0 <= i < |s|
      ensures s[i].id in rows && FromStored(rows[s[i].id], key) == Some(s[i]) && wanted(s[i])
    {
      assert s[i] in list;
    }
  }
}
