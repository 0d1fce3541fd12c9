/**
 * The bucket that never expires, over whole runs: uploads, claims and any number of overlapping
 * cleanups, interleaved one statement or one bucket operation at a time.
 */
module VaultBlobs {
  import opened Basics
  import opened BlobTable

  /** An upload between its reservation and its record. */
  datatype Writer = Writer(key: BlobKey, size: nat, landed: bool)

  /** A cleanup between marking rows and dropping them; `emptied` once the bucket has deleted the objects. */
  datatype Deleter = Deleter(keys: set<BlobKey>, emptied: bool)

  datatype World = World(
    rows: Rows,
    objects: map<BlobKey, nat>,
    claims: set<BlobKey>,
    writers: map<nat, Writer>,
    deleters: map<nat, Deleter>)

  datatype Step =
    | Reserve(t: nat, key: BlobKey, size: nat, quota: nat, now: nat)
    | Land(t: nat)                                   // the bucket has the bytes
    | Record(t: nat, now: nat)
    | Fail(t: nat)                                   // the upload gives up; what it leaves is cleaned up by a Mark
    | Claim(key: BlobKey)                            // an item takes the content, in the statement that writes the item
    | Release(key: BlobKey)                          // the item is purged or takes other content
    | Mark(t: nat, batch: set<BlobKey>)
    | Empty(t: nat)                                  // the bucket deletes
    | Drop(t: nat)
    | Stop(t: nat)                                   // a delete that failed, or a worker that died

  ghost predicate Enabled(w: World, step: Step) {
    match step
    case Reserve(t, _, _, _, now) => t !in w.writers && RESERVED_FOR_DELETION < now
    case Land(t) => t in w.writers
    case Record(t, now) => t in w.writers && w.writers[t].landed && RESERVED_FOR_DELETION < now
    case Fail(t) => t in w.writers
    case Claim(key) => key !in w.claims && key in w.rows && !Marked(w.rows, key)
    case Release(key) => key in w.claims
    case Mark(t, _) => t !in w.deleters
    case Empty(t) => t in w.deleters && !w.deleters[t].emptied
    case Drop(t) => t in w.deleters && w.deleters[t].emptied
    case Stop(t) => t in w.deleters
  }

  /** No upload of `key` is on its way. */
  ghost predicate NotWritten(writers: map<nat, Writer>, key: BlobKey) {
    forall t :: t in writers ==> writers[t].key != key
  }

  ghost predicate NotDeleted(deleters: map<nat, Deleter>, key: BlobKey) {
    forall t :: t in deleters ==> key !in deleters[t].keys
  }

  /**
   * What the code relies on keys being random and used once for: no upload is on its way under a key
   * when it is marked, and no key whose row is gone is granted again under a cleanup still at work on it.
   */
  ghost predicate Orderly(w: World, step: Step) {
    match step
    case Reserve(_, key, size, quota, _) => Reserves(w.rows, key, size, quota) && key !in w.rows ==>
        NotDeleted(w.deleters, key)
    case Mark(_, batch) => forall k :: k in MarkedNow(w.rows, batch, w.claims) ==> NotWritten(w.writers, k)
    case _ => true
  }

  ghost function Do(w: World, step: Step): World
    requires Enabled(w, step)
  {
    match step
    case Reserve(t, key, size, quota, now) =>
      if Reserves(w.rows, key, size, quota)
      then w.(rows := Recorded(w.rows, key, size, now), writers := w.writers[t := Writer(key, size, false)])
      else w
    case Land(t) =>
      w.(objects := w.objects[w.writers[t].key := w.writers[t].size],
         writers := w.writers[t := w.writers[t].(landed := true)])
    case Record(t, now) =>
      w.(rows := Recorded(w.rows, w.writers[t].key, w.writers[t].size, now), writers := w.writers - {t})
    case Fail(t) => w.(writers := w.writers - {t})
    case Claim(key) => w.(claims := w.claims + {key})
    case Release(key) => w.(claims := w.claims - {key})
    case Mark(t, batch) =>
      w.(rows := MarkUnclaimed(w.rows, batch, w.claims),
         deleters := w.deleters[t := Deleter(MarkedNow(w.rows, batch, w.claims), false)])
    case Empty(t) =>
      w.(objects := w.objects - w.deleters[t].keys, deleters := w.deleters[t := w.deleters[t].(emptied := true)])
    case Drop(t) => w.(rows := DropMarked(w.rows, w.deleters[t].keys), deleters := w.deleters - {t})
    case Stop(t) => w.(deleters := w.deleters - {t})
  }

  // ---------------------------------------------------------------------
  // The invariant
  // ---------------------------------------------------------------------

  /** A key a cleanup holds: unclaimed, marked while its row is there, and gone from the bucket once emptied. */
  ghost predicate Doomed(rows: Rows, objects: map<BlobKey, nat>, claims: set<BlobKey>, k: BlobKey, emptied: bool) {
    && k !in claims
    && (k in rows ==> Marked(rows, k))
    && (emptied ==> k !in objects)
  }

  ghost predicate DeletersOk(w: World) {
    forall t, k :: t in w.deleters && k in w.deleters[t].keys ==>
      Doomed(w.rows, w.objects, w.claims, k, w.deleters[t].emptied)
  }

  /** An upload on its way has its row, unmarked and large enough, and no cleanup on its key. */
  ghost predicate WriterOk(rows: Rows, deleters: map<nat, Deleter>, writer: Writer) {
    && writer.key in rows && !Marked(rows, writer.key) && writer.size <= rows[writer.key].size
    && NotDeleted(deleters, writer.key)
  }

  ghost predicate WritersOk(w: World) {
    forall t :: t in w.writers ==> WriterOk(w.rows, w.deleters, w.writers[t])
  }

  /** Every object has its row, and the row charges for all of it. */
  ghost predicate Accounted(rows: Rows, objects: map<BlobKey, nat>) {
    forall k :: k in objects ==> k in rows && objects[k] <= rows[k].size
  }

  ghost predicate ClaimsOk(rows: Rows, claims: set<BlobKey>) {
    forall k :: k in claims ==> k in rows && !Marked(rows, k)
  }

  ghost predicate Inv(w: World) {
    Accounted(w.rows, w.objects) && ClaimsOk(w.rows, w.claims) && DeletersOk(w) && WritersOk(w)
  }

  ghost function Init(): World {
    World(map[], map[], {}, map[], map[])
  }

  /** A key whose row is there and unmarked is in no cleanup's hands. */
  lemma NotHeld(w: World, k: BlobKey)
    requires DeletersOk(w) && k in w.rows && !Marked(w.rows, k)
    ensures NotDeleted(w.deleters, k)
  {
  }

  lemma EmptiedNotStored(w: World, t: nat, k: BlobKey)
    requires DeletersOk(w) && t in w.deleters && w.deleters[t].emptied && k in w.objects
    ensures k !in w.deleters[t].keys
  {
  }

  lemma ReserveKeeps(w: World, t: nat, key: BlobKey, size: nat, quota: nat, now: nat)
    requires Inv(w) && Enabled(w, Reserve(t, key, size, quota, now)) && Orderly(w, Reserve(t, key, size, quota, now))
    ensures Inv(Do(w, Reserve(t, key, size, quota, now)))
  {
    if Reserves(w.rows, key, size, quota) && key in w.rows {
      NotHeld(w, key);
    }
  }

  lemma MarkKeeps(w: World, t: nat, batch: set<BlobKey>)
    requires Inv(w) && Enabled(w, Mark(t, batch)) && Orderly(w, Mark(t, batch))
    ensures Inv(Do(w, Mark(t, batch)))
  {
    var w' := Do(w, Mark(t, batch));
    forall k, d | d in w'.deleters && k in w'.deleters[d].keys
      ensures Doomed(w'.rows, w'.objects, w'.claims, k, w'.deleters[d].emptied)
    {
      if d != t {
        assert Doomed(w.rows, w.objects, w.claims, k, w.deleters[d].emptied);
      }
    }
    forall s | s in w.writers ensures WriterOk(w'.rows, w'.deleters, w.writers[s]) {
      assert WriterOk(w.rows, w.deleters, w.writers[s]);
      assert w.writers[s].key !in MarkedNow(w.rows, batch, w.claims);
    }
  }

  lemma LandKeeps(w: World, t: nat)
    requires Inv(w) && Enabled(w, Land(t))
    ensures Inv(Do(w, Land(t)))
  {
    assert WriterOk(w.rows, w.deleters, w.writers[t]);
  }

  lemma DropKeeps(w: World, t: nat)
    requires Inv(w) && Enabled(w, Drop(t))
    ensures Inv(Do(w, Drop(t)))
  {
    var w' := Do(w, Drop(t));
    forall s | s in w.writers ensures WriterOk(w'.rows, w'.deleters, w.writers[s]) {
      assert WriterOk(w.rows, w.deleters, w.writers[s]);
    }
    forall k | k in w.objects ensures k in w'.rows && w'.rows[k] == w.rows[k] {
      EmptiedNotStored(w, t, k);
    }
  }

  lemma DisorderBreaks(w: World, step: Step)
    requires Enabled(w, step) && !Orderly(w, step)
    ensures !Inv(Do(w, step))
  {
    var w' := Do(w, step);
    if step.Reserve? {
      assert !WriterOk(w'.rows, w'.deleters, w'.writers[step.t]);
    } else {
      var k :| k in MarkedNow(w.rows, step.batch, w.claims) && !NotWritten(w.writers, k);
      var t :| t in w.writers && w.writers[t].key == k;
      assert Marked(w'.rows, k) && !WriterOk(w'.rows, w'.deleters, w'.writers[t]);
    }
  }

  /**
   * A step keeps objects accounted, claims unmarked, uploads covered and deletions off claimed keys, exactly
   * when it neither marks under an upload on its way nor grants a key that a cleanup still holds.
   */
  lemma StepExact(w: World, step: Step)
    requires Inv(w) && Enabled(w, step)
    ensures Inv(Do(w, step)) <==> Orderly(w, step)
  {
    if Orderly(w, step) {
      StepKeeps(w, step);
    } else {
      DisorderBreaks(w, step);
    }
  }

  lemma StepKeeps(w: World, step: Step)
    requires Inv(w) && Enabled(w, step) && Orderly(w, step)
    ensures Inv(Do(w, step))
  {
    match step
    case Reserve(t, key, size, quota, now) => ReserveKeeps(w, t, key, size, quota, now);
    case Land(t) => LandKeeps(w, t);
    case Mark(t, batch) => MarkKeeps(w, t, batch);
    case Drop(t) => DropKeeps(w, t);
    case _ =>
  }

  // ---------------------------------------------------------------------
  // Whole runs
  // ---------------------------------------------------------------------

  ghost predicate CanRun(w: World, steps: seq<Step>)
    decreases |steps|
  {
    steps == [] || (Enabled(w, steps[0]) && CanRun(Do(w, steps[0]), steps[1..]))
  }

  ghost function Run(w: World, steps: seq<Step>): World
    requires CanRun(w, steps)
    decreases |steps|
  {
    if steps == [] then w else Run(Do(w, steps[0]), steps[1..])
  }

  ghost predicate OrderlyRun(w: World, steps: seq<Step>)
    requires CanRun(w, steps)
    decreases |steps|
  {
    steps == [] || (Orderly(w, steps[0]) && OrderlyRun(Do(w, steps[0]), steps[1..]))
  }

  ghost predicate SoundThroughout(w: World, steps: seq<Step>)
    requires CanRun(w, steps)
    decreases |steps|
  {
    Inv(w) && (steps == [] || SoundThroughout(Do(w, steps[0]), steps[1..]))
  }

  /** All through a run the accounts are sound, if and only if every step of it is orderly. */
  lemma {:induction false} RunExact(w: World, steps: seq<Step>)
    requires Inv(w) && CanRun(w, steps)
    ensures SoundThroughout(w, steps) <==> OrderlyRun(w, steps)
    ensures OrderlyRun(w, steps) ==> Inv(Run(w, steps))
    decreases |steps|
  {
    if steps != [] {
      StepExact(w, steps[0]);
      if Orderly(w, steps[0]) {
        RunExact(Do(w, steps[0]), steps[1..]);
      }
    }
  }

  ghost predicate NeverReleased(steps: seq<Step>, key: BlobKey) {
    forall i :: 0 <= i < |steps| ==> steps[i] != Release(key)
  }

  /** While an item claims it, content that is in the bucket stays in the bucket, and stays paid for. */
  lemma {:induction false} ClaimedContentSurvives(w: World, steps: seq<Step>, key: BlobKey)
    requires Inv(w) && CanRun(w, steps) && OrderlyRun(w, steps) && key in w.claims && key in w.objects
    requires NeverReleased(steps, key)
    ensures var last := Run(w, steps);
            key in last.claims && key in last.objects && key in last.rows && last.objects[key] <= last.rows[key].size
    decreases |steps|
  {
    if steps != [] {
      StepKeeps(w, steps[0]);
      assert steps[0] != Release(key);
      NotHeld(w, key);
      ClaimedContentSurvives(Do(w, steps[0]), steps[1..], key);
    }
  }

  /** In every reachable state each object has its row, and what is about to be deleted is claimed by nothing. */
  lemma EveryObjectIsAccounted(steps: seq<Step>, k: BlobKey, t: nat)
    requires CanRun(Init(), steps) && OrderlyRun(Init(), steps)
    ensures var w := Run(Init(), steps);
            && (k in w.objects ==> k in w.rows && w.objects[k] <= w.rows[k].size)
            && (t in w.deleters ==> w.deleters[t].keys !! w.claims)
  {
    RunExact(Init(), steps);
    var w := Run(Init(), steps);
    if t in w.deleters {
      forall key | key in w.deleters[t].keys ensures key !in w.claims {
        assert Doomed(w.rows, w.objects, w.claims, key, w.deleters[t].emptied);
      }
    }
  }

  /** A marked row is final, orderly or not: nothing uploads over it or claims it, and it only ever goes. */
  lemma MarkedIsFinal(w: World, step: Step, k: BlobKey)
    requires Enabled(w, step) && Marked(w.rows, k)
    ensures var w' := Do(w, step);
            && (k in w'.rows ==> w'.rows[k] == w.rows[k])
            && (step.Claim? ==> step.key != k)
            && (step.Reserve? && step.key == k ==> w' == w)
            && (step.Record? && w.writers[step.t].key == k ==> w'.rows == w.rows)
  {
  }

  // ---------------------------------------------------------------------
  // What single uploads and cleanups come to
  // ---------------------------------------------------------------------

  ghost predicate LeadsTo(w: World, steps: seq<Step>, last: World) {
    CanRun(w, steps) && Run(w, steps) == last
  }

  lemma {:induction false} Next(start: World, steps: seq<Step>, w: World, step: Step)
    requires LeadsTo(start, steps, w) && Enabled(w, step)
    ensures LeadsTo(start, steps + [step], Do(w, step))
    decreases |steps|
  {
    if steps == [] {
      assert [step][1..] == [] && steps + [step] == [step];
    } else {
      Next(Do(start, steps[0]), steps[1..], w, step);
      assert (steps + [step])[1..] == steps[1..] + [step];
    }
  }

  /** An upload that fits ends with its bytes in the bucket and charged for; one that fails keeps its reservation. */
  lemma UploadRuns(w: World, t: nat, key: BlobKey, size: nat, quota: nat, now: nat, later: nat, fails: bool)
    returns (steps: seq<Step>, last: World)
    requires t !in w.writers && Reserves(w.rows, key, size, quota) && RESERVED_FOR_DELETION < now <= later
    ensures LeadsTo(w, steps, last)
    ensures last.writers == w.writers && last.deleters == w.deleters && last.claims == w.claims
    ensures last.rows == w.rows[key := Row(Max(SizeAt(w.rows, key), size), if fails then now else later)]
    ensures last.objects == if fails then w.objects else w.objects[key := size]
  {
    assert LeadsTo(w, [], w);
    var reserve := Reserve(t, key, size, quota, now);
    Next(w, [], w, reserve);
    var w1 := Do(w, reserve);
    if fails {
      Next(w, [] + [reserve], w1, Fail(t));
      steps, last := [] + [reserve] + [Fail(t)], Do(w1, Fail(t));
    } else {
      Next(w, [] + [reserve], w1, Land(t));
      var w2 := Do(w1, Land(t));
      Next(w, [] + [reserve] + [Land(t)], w2, Record(t, later));
      steps, last := [] + [reserve] + [Land(t)] + [Record(t, later)], Do(w2, Record(t, later));
    }
    assert last.writers == w.writers;
  }

  lemma CleanupRuns(w: World, t: nat, batch: set<BlobKey>, fails: bool) returns (steps: seq<Step>, last: World)
    requires t !in w.deleters
    ensures LeadsTo(w, steps, last)
    ensures last.writers == w.writers && last.deleters == w.deleters && last.claims == w.claims
    ensures forall k :: k in last.rows <==> k in w.rows && (k in batch && k !in w.claims ==> fails)
    ensures forall k :: k in last.rows ==>
              last.rows[k] == if k in batch && k !in w.claims then w.rows[k].(createdAt := RESERVED_FOR_DELETION)
                              else w.rows[k]
    ensures forall k :: k in last.objects <==>
              k in w.objects && (k in batch && k in w.rows && k !in w.claims ==> fails)
    ensures forall k :: k in last.objects ==> last.objects[k] == w.objects[k]
  {
    assert LeadsTo(w, [], w);
    Next(w, [], w, Mark(t, batch));
    var w1 := Do(w, Mark(t, batch));
    if fails {
      Next(w, [] + [Mark(t, batch)], w1, Stop(t));
      steps, last := [] + [Mark(t, batch)] + [Stop(t)], Do(w1, Stop(t));
    } else {
      Next(w, [] + [Mark(t, batch)], w1, Empty(t));
      var w2 := Do(w1, Empty(t));
      Next(w, [] + [Mark(t, batch)] + [Empty(t)], w2, Drop(t));
      steps, last := [] + [Mark(t, batch)] + [Empty(t)] + [Drop(t)], Do(w2, Drop(t));
    }
    assert last.deleters == w.deleters;
  }

  /**
   * The code of one cleanup batch, run alone, leaves the store a run of these steps leaves: whatever every run
   * guarantees, it guarantees of `DeleteBatch`.
   */
  method CleanedUp(ghost w: World, ghost t: nat, store: BlobStore, batch: set<BlobKey>, fails: bool)
    returns (ok: bool, ghost steps: seq<Step>)
    requires w.rows == store.rows && w.objects == store.objects && w.claims == store.claims && t !in w.deleters
    modifies store
    ensures CanRun(w, steps)
    ensures Run(w, steps) == w.(rows := store.rows, objects := store.objects) && store.claims == old(store.claims)
  {
    ok := store.DeleteBatch(batch, fails);
    ghost var last;
    steps, last := CleanupRuns(w, t, batch, !ok);
    assert last.rows == store.rows && last.objects == store.objects;
  }

  /** A claim taken and given up again leaves nothing behind. */
  lemma ClaimRuns(w: World, key: BlobKey) returns (steps: seq<Step>, claimed: World)
    requires key in w.rows && !Marked(w.rows, key) && key !in w.claims
    ensures LeadsTo(w, [Claim(key)], claimed) && claimed == w.(claims := claimed.claims)
    ensures forall k :: k in claimed.claims <==> k in w.claims || k == key
    ensures LeadsTo(w, steps, w) && |steps| == 2
  {
    assert LeadsTo(w, [], w);
    Next(w, [], w, Claim(key));
    claimed := Do(w, Claim(key));
    assert [] + [Claim(key)] == [Claim(key)];
    Next(w, [Claim(key)], claimed, Release(key));
    steps := [Claim(key)] + [Release(key)];
    assert w.claims + {key} - {key} == w.claims;
  }

  /** Whatever a step does, only a marked row ever leaves the table. */
  lemma UnmarkedRowStays(w: World, step: Step, k: BlobKey)
    requires Enabled(w, step) && k in w.rows && !Marked(w.rows, k)
    ensures k in Do(w, step).rows && w.rows[k].size <= Do(w, step).rows[k].size
  {
  }
}
