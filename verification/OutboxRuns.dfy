/**
 * The outbox index under interference: any number of operations, in any number of contexts, each
 * between two of its transactions.
 */
module OutboxRuns {
  import opened Basics
  import opened Sorting
  import opened OutboxStore

  /** An operation that has read something and has not written yet. */
  datatype Task =
    | Scanning(seen: map<Id, Row>, readable: set<Id>)   // a full scan, before its merge
    | Judging(stale: map<Id, Option<Row>>)              // an indexed read, before it drops what looked done
    | Pruning(doomed: set<Id>)                          // a prune, between two batches
    | Resealing(row: Row)                               // a rewrite of one row, before it is put back

  datatype World = World(store: Store, tasks: map<nat, Task>)

  datatype Step =
    | PutMessage(row: Row)
    | PutFiles(written: seq<Row>)
    | Delete(id: Id)
    | TrackQueued(ms: seq<Message>)
    | Scan(t: nat, readable: set<Id>)
    | Merge(t: nat)
    | StartRead(t: nat)
    | Judge(t: nat, id: Id)
    | Drop(t: nat)
    | StartPrune(t: nat, doomed: set<Id>)
    | PruneBatch(t: nat, batch: set<Id>)
    | Reread(t: nat, id: Id, seal: Option<Seal>)
    | PutBack(t: nat)
    | Forget(t: nat)                                    // the context went away

  predicate Enabled(w: World, step: Step) {
    match step
    case PutMessage(_) => true
    case PutFiles(_) => true
    case Delete(_) => true
    case TrackQueued(_) => true
    case Scan(t, readable) => t !in w.tasks && readable <= w.store.rows.Keys
    case Merge(t) => t in w.tasks && w.tasks[t].Scanning?
    case StartRead(t) => t !in w.tasks && IsComplete(w.store.index)
    case Judge(t, id) =>
      && t in w.tasks && w.tasks[t].Judging?
      && (id in w.store.rows ==> !IsQueuedOutgoing(w.store.rows[id].msg))
    case Drop(t) => t in w.tasks && w.tasks[t].Judging?
    case StartPrune(t, doomed) => t !in w.tasks
    case PruneBatch(t, batch) => t in w.tasks && w.tasks[t].Pruning? && batch <= w.tasks[t].doomed
    case Reread(t, id, _) => t !in w.tasks && id in w.store.rows
    case PutBack(t) => t in w.tasks && w.tasks[t].Resealing?
    case Forget(_) => true
  }

  function Do(w: World, step: Step): World
    requires Enabled(w, step)
  {
    match step
    case PutMessage(row) => w.(store := PutOne(w.store, row))
    case PutFiles(written) => w.(store := if written == [] then w.store else Put(w.store, written))
    case Delete(id) => w.(store := Deleted(w.store, {id}))
    case TrackQueued(ms) => w.(store := w.store.(index := Tracked(w.store.index, Keep(IsQueuedOutgoing, ms), true)))
    case Scan(t, readable) => w.(tasks := w.tasks[t := Scanning(w.store.rows, readable)])
    case Merge(t) => World(ScanMerged(w.store, w.tasks[t].seen, w.tasks[t].readable), w.tasks - {t})
    case StartRead(t) => w.(tasks := w.tasks[t := Judging(map[])])
    case Judge(t, id) => w.(tasks := w.tasks[t := Judging(w.tasks[t].stale[id := RowNow(w.store.rows, id)])])
    case Drop(t) => World(StaleDropped(w.store, w.tasks[t].stale), w.tasks - {t})
    case StartPrune(t, doomed) => w.(tasks := w.tasks[t := Pruning(doomed)])
    case PruneBatch(t, batch) => w.(store := Deleted(w.store, batch))
    case Reread(t, id, seal) => w.(tasks := w.tasks[t := Resealing(w.store.rows[id].(seal := seal))])
    case PutBack(t) => World(Rewritten(w.store, w.tasks[t].row), w.tasks - {t})
    case Forget(t) => w.(tasks := w.tasks - {t})
  }

  /** The database's own transactions do what the steps do: whatever every run guarantees, it guarantees of them. */
  method Transact(w: World, db: Database, step: Step)
    requires Enabled(w, step) && db.Now() == w.store
    modifies db
    ensures db.rows == Do(w, step).store.rows
    ensures Ids(db.index) == Ids(Do(w, step).store.index)
    ensures IsComplete(db.index) == IsComplete(Do(w, step).store.index)
  {
    match step {
      case PutMessage(row) => db.PutMessage(row.msg, row.seal);
      case PutFiles(written) => db.PutOutgoingFileMessages(written);
      case Delete(id) => db.DeleteMessage(id);
      case TrackQueued(ms) =>
        db.TrackQueued(ms);
        KeepMembers(IsQueuedOutgoing, ms);
        AddOnlyIds(Ids(w.store.index), Keep(IsQueuedOutgoing, ms));
        SameIds(ms);
      case Merge(t) => db.MergeScan(w.tasks[t].seen, w.tasks[t].readable);
      case Drop(t) => db.DropStale(w.tasks[t].stale);
      case PruneBatch(t, batch) => db.DeleteBatch(batch);
      case PutBack(t) => db.Rewrite(w.tasks[t].row);
      case _ =>
    }
  }

  // ---------------------------------------------------------------------
  // The invariant
  // ---------------------------------------------------------------------

  /**
   * A scan that could read everything: what is queued now was queued when it looked, or has been
   * recorded since. A judgement never holds a queued row.
   */
  ghost predicate TaskOk(s: Store, task: Task) {
    match task
    case Scanning(seen, readable) => seen.Keys <= readable ==> Covers(s.rows, Ids(s.index) + QueuedIn(seen, readable))
    case Judging(stale) => forall id :: id in stale && stale[id].Some? ==> !IsQueuedOutgoing(stale[id].value.msg)
    case Pruning(_) => true
    case Resealing(_) => true
  }

  ghost predicate TasksOk(w: World) {
    forall t :: t in w.tasks ==> TaskOk(w.store, w.tasks[t])
  }

  ghost predicate Inv(w: World) {
    Keyed(w.store.rows) && IndexOk(w.store) && TasksOk(w)
  }

  /** A transaction that keeps every covering set covering, and never turns an index complete by itself. */
  ghost predicate Keeps(s: Store, s': Store) {
    && (forall extra: set<Id> :: Covers(s.rows, Ids(s.index) + extra) ==> Covers(s'.rows, Ids(s'.index) + extra))
    && (IsComplete(s'.index) ==> IsComplete(s.index))
  }

  lemma KeepsInv(w: World, s: Store)
    requires Inv(w) && Keeps(w.store, s) && Keyed(s.rows)
    ensures Inv(w.(store := s))
  {
    assert Ids(w.store.index) + {} == Ids(w.store.index) && Ids(s.index) + {} == Ids(s.index);
    forall t | t in w.tasks ensures TaskOk(s, w.tasks[t]) {
      assert TaskOk(w.store, w.tasks[t]);
    }
  }

  lemma PutKeeps(s: Store, written: seq<Row>)
    requires Keyed(s.rows)
    ensures Keeps(s, Put(s, written)) && Keyed(Put(s, written).rows)
  {
    forall extra: set<Id> | Covers(s.rows, Ids(s.index) + extra)
      ensures Covers(Put(s, written).rows, Ids(Put(s, written).index) + extra)
    {
      PutCovers(s.rows, written, Ids(s.index), extra);
    }
    PutCovers(s.rows, written, s.rows.Keys, {});
  }

  lemma PutOneKeeps(s: Store, row: Row)
    requires Keyed(s.rows)
    ensures Keeps(s, PutOne(s, row)) && Keyed(PutOne(s, row).rows)
  {
    if row.msg.outgoing {
      PutKeeps(s, [row]);
    }
  }

  lemma DeletedKeeps(s: Store, ids: set<Id>)
    requires Keyed(s.rows)
    ensures Keeps(s, Deleted(s, ids)) && Keyed(Deleted(s, ids).rows)
  {
  }

  lemma {:induction false} AddOnlyGrows(ids: set<Id>, ms: seq<Message>)
    ensures ids <= TrackIds(ids, ms, true)
  {
    if ms != [] {
      AddOnlyGrows(ids, ms[..|ms| - 1]);
    }
  }

  lemma TrackKeeps(s: Store, ms: seq<Message>)
    ensures Keeps(s, s.(index := Tracked(s.index, ms, true)))
  {
    AddOnlyGrows(Ids(s.index), ms);
  }

  lemma RewrittenKeeps(s: Store, row: Row)
    requires Keyed(s.rows)
    ensures Keeps(s, Rewritten(s, row)) && Keyed(Rewritten(s, row).rows)
  {
    assert [row.msg][..0] == [] && TrackIds(Ids(s.index), [], true) == Ids(s.index);
  }

  /** Dropping entries is safe because the row is still the one that was judged, or still missing. */
  lemma StaleDroppedKeeps(s: Store, stale: map<Id, Option<Row>>)
    requires TaskOk(s, Judging(stale))
    ensures Keeps(s, StaleDropped(s, stale))
  {
    forall id | id in s.rows && IsQueuedOutgoing(s.rows[id].msg) ensures id !in Settled(s.rows, stale) {
    }
  }

  lemma MergedKeeps(w: World, t: nat)
    requires Inv(w) && Enabled(w, Merge(t))
    ensures Inv(Do(w, Merge(t)))
  {
    var s, s' := w.store, Do(w, Merge(t)).store;
    var task := w.tasks[t];
    assert TaskOk(s, task);
    var found := QueuedIn(task.seen, task.readable);
    assert Ids(s'.index) == Ids(s.index) + found;
    forall k | k in w.tasks && k != t ensures TaskOk(s', w.tasks[k]) {
      assert TaskOk(s, w.tasks[k]);
    }
  }

  lemma StepKeeps(w: World, step: Step)
    requires Inv(w) && Enabled(w, step)
    ensures Inv(Do(w, step))
  {
    match step
    case PutMessage(row) => PutOneKeeps(w.store, row); KeepsInv(w, PutOne(w.store, row));
    case PutFiles(written) => PutKeeps(w.store, written); if written != [] { KeepsInv(w, Put(w.store, written)); }
    case Delete(id) => DeletedKeeps(w.store, {id}); KeepsInv(w, Deleted(w.store, {id}));
    case TrackQueued(ms) =>
      TrackKeeps(w.store, Keep(IsQueuedOutgoing, ms));
      KeepsInv(w, w.store.(index := Tracked(w.store.index, Keep(IsQueuedOutgoing, ms), true)));
    case Scan(t, readable) => ScanStarts(w.store.rows, Ids(w.store.index), readable);
    case Merge(t) => MergedKeeps(w, t);
    case StartRead(t) =>
    case Judge(t, id) => assert TaskOk(w.store, w.tasks[t]);
    case Drop(t) =>
      assert TaskOk(w.store, w.tasks[t]);
      StaleDroppedKeeps(w.store, w.tasks[t].stale);
      KeepsInv(w, StaleDropped(w.store, w.tasks[t].stale));
    case StartPrune(t, doomed) =>
    case PruneBatch(t, batch) => DeletedKeeps(w.store, batch); KeepsInv(w, Deleted(w.store, batch));
    case Reread(t, id, seal) =>
    case PutBack(t) => RewrittenKeeps(w.store, w.tasks[t].row); KeepsInv(w, Rewritten(w.store, w.tasks[t].row));
    case Forget(t) =>
  }

  lemma ScanStarts(rows: map<Id, Row>, listed: set<Id>, readable: set<Id>)
    requires Keyed(rows)
    ensures rows.Keys <= readable ==> Covers(rows, listed + QueuedIn(rows, readable))
  {
  }

  ghost predicate CanRun(w: World, steps: seq<Step>)
    decreases |steps|
  {
    steps == [] || (Enabled(w, steps[0]) && CanRun(Do(w, steps[0]), steps[1..]))
  }

  ghost function Run(w: World, steps: seq<Step>): World
    requires CanRun(w, steps)
    decreases |steps|
  {
    if steps == [] then w else Run(Do(w, steps[0]), steps[1..])
  }

  lemma {:induction false} RunKeeps(w: World, steps: seq<Step>)
    requires Inv(w) && CanRun(w, steps)
    ensures Inv(Run(w, steps))
    decreases |steps|
  {
    if steps != [] {
      StepKeeps(w, steps[0]);
      RunKeeps(Do(w, steps[0]), steps[1..]);
    }
  }

  /** A history written before there was an index, by whoever wrote it. */
  function Legacy(rows: map<Id, Row>): World {
    World(Store(rows, None), map[])
  }

  /** From any history without an index: once the index calls itself complete, it never misses a queued row. */
  lemma CompleteIndexMissesNothing(rows: map<Id, Row>, steps: seq<Step>, id: Id)
    requires Keyed(rows) && CanRun(Legacy(rows), steps)
    requires var s := Run(Legacy(rows), steps).store;
             IsComplete(s.index) && id in s.rows && IsQueuedOutgoing(s.rows[id].msg)
    ensures id in Ids(Run(Legacy(rows), steps).store.index)
  {
    RunKeeps(Legacy(rows), steps);
  }

  /** Once complete, complete for good: no transaction can take it back. */
  lemma StaysComplete(w: World, step: Step)
    requires Enabled(w, step) && IsComplete(w.store.index)
    ensures IsComplete(Do(w, step).store.index)
  {
  }

  /**
   * Why the judged row is compared again: dropping an entry is safe exactly when its row
   * is not queued now, and comparing is what a context that read it earlier can check.
   */
  lemma UncheckedDropLoses(s: Store, id: Id)
    requires Keyed(s.rows) && IsComplete(s.index) && IndexOk(s)
    ensures IndexOk(s.(index := Untracked(s.index, {id}))) <==> !(id in s.rows && IsQueuedOutgoing(s.rows[id].msg))
  {
  }

  // ---------------------------------------------------------------------
  // What undisturbed operations come to
  // ---------------------------------------------------------------------

  ghost predicate LeadsTo(w: World, steps: seq<Step>, last: World) {
    CanRun(w, steps) && Run(w, steps) == last
  }

  lemma {:induction false} Next(start: World, steps: seq<Step>, w: World, step: Step)
    requires LeadsTo(start, steps, w) && Enabled(w, step)
    ensures LeadsTo(start, steps + [step], Do(w, step))
    decreases |steps|
  {
    if steps == [] {
      assert [step][1..] == [] && steps + [step] == [step];
    } else {
      Next(Do(start, steps[0]), steps[1..], w, step);
      assert (steps + [step])[1..] == steps[1..] + [step];
    }
  }

  /** A scan lists every queued row it could open, and calls the index complete if it could open every row. */
  lemma ScanRuns(w: World, t: nat, readable: set<Id>) returns (steps: seq<Step>, last: World)
    requires t !in w.tasks && readable <= w.store.rows.Keys
    ensures LeadsTo(w, steps, last) && last.tasks == w.tasks && last.store.rows == w.store.rows
    ensures IsComplete(last.store.index) <==> IsComplete(w.store.index) || readable == w.store.rows.Keys
    ensures forall id :: id in Ids(last.store.index) <==>
              id in Ids(w.store.index) || (id in readable && IsQueuedOutgoing(w.store.rows[id].msg))
  {
    assert LeadsTo(w, [], w);
    Next(w, [], w, Scan(t, readable));
    var w1 := Do(w, Scan(t, readable));
    Next(w, [] + [Scan(t, readable)], w1, Merge(t));
    steps, last := [] + [Scan(t, readable)] + [Merge(t)], Do(w1, Merge(t));
    assert last.tasks == w.tasks;
  }

  /**
   * An indexed read that finds a row done drops its entry, unless the row is queued again before it does: then the
   * entry stays.
   */
  lemma JudgedRuns(w: World, t: nat, id: Id, again: Row) returns (steps: seq<Step>, last: World)
    requires t !in w.tasks && IsComplete(w.store.index)
    requires id in w.store.rows ==> !IsQueuedOutgoing(w.store.rows[id].msg)
    ensures LeadsTo(w, steps, last) && last.tasks == w.tasks
    ensures again.msg.id == id && IsQueuedOutgoing(again.msg) ==>
              last.store.rows == w.store.rows[id := again] && Ids(last.store.index) == Ids(w.store.index) + {id}
    ensures !(again.msg.id == id && IsQueuedOutgoing(again.msg)) ==>
              last.store.rows == w.store.rows && Ids(last.store.index) == Ids(w.store.index) - {id}
  {
    assert LeadsTo(w, [], w);
    Next(w, [], w, StartRead(t));
    var w1 := Do(w, StartRead(t));
    Next(w, [] + [StartRead(t)], w1, Judge(t, id));
    var w2 := Do(w1, Judge(t, id));
    steps := [] + [StartRead(t)] + [Judge(t, id)];
    assert Settled(w.store.rows, w2.tasks[t].stale) == {id};
    if again.msg.id == id && IsQueuedOutgoing(again.msg) {
      QueuedAgain(w.store, again);
      Next(w, steps, w2, PutMessage(again));
      steps, w2 := steps + [PutMessage(again)], Do(w2, PutMessage(again));
      assert Settled(w2.store.rows, w2.tasks[t].stale) == {};
    }
    Next(w, steps, w2, Drop(t));
    steps, last := steps + [Drop(t)], Do(w2, Drop(t));
    assert last.tasks == w.tasks;
  }

  lemma QueuedAgain(s: Store, row: Row)
    requires IsQueuedOutgoing(row.msg)
    ensures PutOne(s, row).rows == s.rows[row.msg.id := row]
    ensures PutOne(s, row).index == Some(Index(IsComplete(s.index), Ids(s.index) + {row.msg.id}))
  {
    assert [row][..0] == [] && PutAll(s.rows, [row]) == PutAll(s.rows, [])[row.msg.id := row];
    assert Messages([row]) == Messages([]) + [row.msg] && [row.msg][..0] == [];
    assert TrackIds(Ids(s.index), [row.msg], false) == TrackIds(Ids(s.index), [], false) + {row.msg.id};
  }

  lemma PruneRuns(w: World, t: nat, doomed: set<Id>) returns (steps: seq<Step>, last: World)
    requires t !in w.tasks
    ensures LeadsTo(w, steps, last) && last.tasks == w.tasks && last.store.rows == w.store.rows - doomed
    ensures Ids(last.store.index) == Ids(w.store.index) - doomed
    ensures IsComplete(last.store.index) == IsComplete(w.store.index)
  {
    assert LeadsTo(w, [], w);
    Next(w, [], w, StartPrune(t, doomed));
    var w1 := Do(w, StartPrune(t, doomed));
    Next(w, [] + [StartPrune(t, doomed)], w1, PruneBatch(t, doomed));
    var w2 := Do(w1, PruneBatch(t, doomed));
    Next(w, [] + [StartPrune(t, doomed)] + [PruneBatch(t, doomed)], w2, Forget(t));
    steps := [] + [StartPrune(t, doomed)] + [PruneBatch(t, doomed)] + [Forget(t)];
    last := Do(w2, Forget(t));
    assert last.tasks == w.tasks;
  }

  /** A row sealed anew is the same message under another lock; what is owed stays listed. */
  lemma ResealRuns(w: World, t: nat, id: Id, seal: Option<Seal>) returns (steps: seq<Step>, last: World)
    requires Keyed(w.store.rows) && t !in w.tasks && id in w.store.rows
    ensures LeadsTo(w, steps, last) && last.tasks == w.tasks
    ensures last.store.rows == w.store.rows[id := Row(w.store.rows[id].msg, seal)]
    ensures Ids(last.store.index) ==
            Ids(w.store.index) + if IsQueuedOutgoing(w.store.rows[id].msg) then {id} else {}
  {
    assert LeadsTo(w, [], w);
    Next(w, [], w, Reread(t, id, seal));
    var w1 := Do(w, Reread(t, id, seal));
    Next(w, [] + [Reread(t, id, seal)], w1, PutBack(t));
    steps, last := [] + [Reread(t, id, seal)] + [PutBack(t)], Do(w1, PutBack(t));
    var m := w.store.rows[id].msg;
    assert [m][..0] == [] && TrackIds(Ids(w.store.index), [], true) == Ids(w.store.index);
    assert last.tasks == w.tasks;
  }
}
