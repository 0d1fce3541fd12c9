/**
 * The bucket that expires its objects, over whole runs: overlapping uploads and deletions of the
 * same keys, where a deletion drops the row first and the object later.
 */
module MessageBlobs {
  import opened Basics
  import opened BlobTable

  datatype Phase = Sending | Landed | Failing

  /** An upload between its reservation and its record, or between failing and cleaning up after itself. */
  datatype Writer = Writer(key: BlobKey, size: nat, phase: Phase)

  /** `deleters` are deletions whose rows are gone and whose objects are about to go (or to expire). */
  datatype World = World(
    rows: Rows,
    objects: map<BlobKey, nat>,
    writers: map<nat, Writer>,
    deleters: map<nat, set<BlobKey>>)

  datatype Step =
    | Reserve(t: nat, key: BlobKey, size: nat, quota: nat, now: nat)
    | Land(t: nat)
    | Record(t: nat, now: nat)
    | Fail(t: nat)                          // the upload failed, whether or not its bytes are in the bucket
    | Discard(t: nat, d: nat)               // and its row is dropped
    | Forget(d: nat, keys: set<BlobKey>)    // a delivered message, an orphan sweep: rows are dropped
    | Remove(d: nat)                        // the bucket deletes their objects
    | Expire(key: BlobKey)                  // the bucket's own lifecycle

  ghost predicate Enabled(w: World, step: Step) {
    match step
    case Reserve(t, _, _, _, now) => t !in w.writers && RESERVED_FOR_DELETION < now
    case Land(t) => t in w.writers && w.writers[t].phase.Sending?
    case Record(t, now) => t in w.writers && w.writers[t].phase.Landed? && RESERVED_FOR_DELETION < now
    case Fail(t) => t in w.writers
    case Discard(t, d) => t in w.writers && w.writers[t].phase.Failing? && d !in w.deleters
    case Forget(d, _) => d !in w.deleters
    case Remove(d) => d in w.deleters
    case Expire(_) => true
  }

  ghost function Do(w: World, step: Step): World
    requires Enabled(w, step)
  {
    match step
    case Reserve(t, key, size, quota, now) =>
      if Reserves(w.rows, key, size, quota)
      then w.(rows := Recorded(w.rows, key, size, now), writers := w.writers[t := Writer(key, size, Sending)])
      else w
    case Land(t) =>
      w.(objects := w.objects[w.writers[t].key := w.writers[t].size],
         writers := w.writers[t := w.writers[t].(phase := Landed)])
    case Record(t, now) =>
      w.(rows := Recorded(w.rows, w.writers[t].key, w.writers[t].size, now), writers := w.writers - {t})
    case Fail(t) => w.(writers := w.writers[t := w.writers[t].(phase := Failing)])
    case Discard(t, d) =>
      w.(rows := w.rows - {w.writers[t].key}, writers := w.writers - {t},
          deleters := w.deleters[d := {w.writers[t].key}])
    case Forget(d, keys) => w.(rows := w.rows - keys, deleters := w.deleters[d := keys])
    case Remove(d) => w.(objects := w.objects - w.deleters[d], deleters := w.deleters - {d})
    case Expire(key) => w.(objects := w.objects - {key})
  }

  // ---------------------------------------------------------------------
  // No bytes go uncounted
  // ---------------------------------------------------------------------

  ghost predicate Charged(rows: Rows, k: BlobKey, size: nat) {
    k in rows && size <= rows[k].size
  }

  /** An upload that will record at least `size` for `k`, or clean the key up. */
  ghost predicate Answers(writer: Writer, k: BlobKey, size: nat) {
    writer.key == k && (writer.phase.Failing? || (writer.phase.Landed? && size <= writer.size))
  }

  ghost predicate Answered(writers: map<nat, Writer>, k: BlobKey, size: nat) {
    exists t :: t in writers && Answers(writers[t], k, size)
  }

  ghost predicate Leaving(deleters: map<nat, set<BlobKey>>, k: BlobKey) {
    exists d :: d in deleters && k in deleters[d]
  }

  /** Every object is charged for, or about to be, or about to go. */
  ghost predicate Inv(w: World) {
    && (forall k :: k in w.objects ==>
          Charged(w.rows, k, w.objects[k]) || Leaving(w.deleters, k) || Answered(w.writers, k, w.objects[k]))
    && (forall k :: k in w.rows ==> !Marked(w.rows, k))
  }

  ghost function Init(): World {
    World(map[], map[], map[], map[])
  }

  lemma LandKeeps(w: World, t: nat)
    requires Inv(w) && Enabled(w, Land(t))
    ensures Inv(Do(w, Land(t)))
  {
    var w' := Do(w, Land(t));
    forall k | k in w'.objects
      ensures Charged(w'.rows, k, w'.objects[k]) || Leaving(w'.deleters, k) || Answered(w'.writers, k, w'.objects[k])
    {
      if k == w.writers[t].key {
        assert Answers(w'.writers[t], k, w'.objects[k]);
      } else if Answered(w.writers, k, w.objects[k]) {
        var s :| s in w.writers && Answers(w.writers[s], k, w.objects[k]);
        assert s in w'.writers && Answers(w'.writers[s], k, w.objects[k]);
      }
    }
  }

  lemma RecordKeeps(w: World, t: nat, now: nat)
    requires Inv(w) && Enabled(w, Record(t, now))
    ensures Inv(Do(w, Record(t, now)))
  {
    var w' := Do(w, Record(t, now));
    forall k | k in w'.objects
      ensures Charged(w'.rows, k, w'.objects[k]) || Leaving(w'.deleters, k) || Answered(w'.writers, k, w'.objects[k])
    {
      if Answered(w.writers, k, w.objects[k]) {
        var s :| s in w.writers && Answers(w.writers[s], k, w.objects[k]);
        assert s == t || (s in w'.writers && Answers(w'.writers[s], k, w.objects[k]));
      }
    }
  }

  lemma FailKeeps(w: World, t: nat)
    requires Inv(w) && Enabled(w, Fail(t))
    ensures Inv(Do(w, Fail(t)))
  {
    var w' := Do(w, Fail(t));
    forall k | k in w'.objects
      ensures Charged(w'.rows, k, w'.objects[k]) || Leaving(w'.deleters, k) || Answered(w'.writers, k, w'.objects[k])
    {
      if Answered(w.writers, k, w.objects[k]) {
        var s :| s in w.writers && Answers(w.writers[s], k, w.objects[k]);
        assert s in w'.writers && Answers(w'.writers[s], k, w.objects[k]);
      }
    }
  }

  lemma ReserveKeeps(w: World, t: nat, key: BlobKey, size: nat, quota: nat, now: nat)
    requires Inv(w) && Enabled(w, Reserve(t, key, size, quota, now))
    ensures Inv(Do(w, Reserve(t, key, size, quota, now)))
  {
    var w' := Do(w, Reserve(t, key, size, quota, now));
    forall k | k in w'.objects
      ensures Charged(w'.rows, k, w'.objects[k]) || Leaving(w'.deleters, k) || Answered(w'.writers, k, w'.objects[k])
    {
      if Answered(w.writers, k, w.objects[k]) {
        var s :| s in w.writers && Answers(w.writers[s], k, w.objects[k]);
        assert s in w'.writers && Answers(w'.writers[s], k, w.objects[k]);
      }
    }
  }

  /** Dropping rows: whoever drops them takes the objects on. */
  lemma ForgetKeeps(w: World, step: Step)
    requires (step.Forget? || step.Discard?) && Inv(w) && Enabled(w, step)
    ensures Inv(Do(w, step))
  {
    var w' := Do(w, step);
    forall k | k in w'.objects
      ensures Charged(w'.rows, k, w'.objects[k]) || Leaving(w'.deleters, k) || Answered(w'.writers, k, w'.objects[k])
    {
      if k in w'.deleters[step.d] {
        assert Leaving(w'.deleters, k);
      } else if Leaving(w.deleters, k) {
        var d :| d in w.deleters && k in w.deleters[d];
        assert d in w'.deleters && k in w'.deleters[d];
      } else if Answered(w.writers, k, w.objects[k]) {
        var s :| s in w.writers && Answers(w.writers[s], k, w.objects[k]);
        assert s in w'.writers && Answers(w'.writers[s], k, w.objects[k]);
      }
    }
  }

  lemma RemoveKeeps(w: World, d: nat)
    requires Inv(w) && Enabled(w, Remove(d))
    ensures Inv(Do(w, Remove(d)))
  {
    var w' := Do(w, Remove(d));
    forall k | k in w'.objects
      ensures Charged(w'.rows, k, w'.objects[k]) || Leaving(w'.deleters, k) || Answered(w'.writers, k, w'.objects[k])
    {
      if Leaving(w.deleters, k) {
        var e :| e in w.deleters && k in w.deleters[e];
        assert e in w'.deleters && k in w'.deleters[e];
      }
    }
  }

  lemma StepKeeps(w: World, step: Step)
    requires Inv(w) && Enabled(w, step)
    ensures Inv(Do(w, step))
  {
    match step
    case Reserve(t, key, size, quota, now) => ReserveKeeps(w, t, key, size, quota, now);
    case Land(t) => LandKeeps(w, t);
    case Record(t, now) => RecordKeeps(w, t, now);
    case Fail(t) => FailKeeps(w, t);
    case Discard(t, d) => ForgetKeeps(w, step);
    case Forget(d, keys) => ForgetKeeps(w, step);
    case Remove(d) => RemoveKeeps(w, d);
    case Expire(key) =>
  }

  ghost predicate CanRun(w: World, steps: seq<Step>)
    decreases |steps|
  {
    steps == [] || (Enabled(w, steps[0]) && CanRun(Do(w, steps[0]), steps[1..]))
  }

  ghost function Run(w: World, steps: seq<Step>): World
    requires CanRun(w, steps)
    decreases |steps|
  {
    if steps == [] then w else Run(Do(w, steps[0]), steps[1..])
  }

  /**
   * No assumption on the interleaving: in every reachable state every object is charged for, or about to
   * be, or about to go.
   */
  lemma {:induction false} NothingGoesUncounted(w: World, steps: seq<Step>)
    requires Inv(w) && CanRun(w, steps)
    ensures Inv(Run(w, steps))
    decreases |steps|
  {
    if steps != [] {
      StepKeeps(w, steps[0]);
      NothingGoesUncounted(Do(w, steps[0]), steps[1..]);
    }
  }

  /** With nothing in flight, every object is charged for in full. */
  lemma QuietStoreIsExact(steps: seq<Step>, k: BlobKey)
    requires CanRun(Init(), steps)
    requires var w := Run(Init(), steps); w.writers == map[] && w.deleters == map[] && k in w.objects
    ensures var w := Run(Init(), steps); k in w.rows && w.objects[k] <= w.rows[k].size
  {
    NothingGoesUncounted(Init(), steps);
    var w := Run(Init(), steps);
    assert !Answered(w.writers, k, w.objects[k]) && !Leaving(w.deleters, k);
  }

  // ---------------------------------------------------------------------
  // The quota
  // ---------------------------------------------------------------------

  /** An upload on its way keeps the reservation it was granted. */
  ghost predicate Reserved(rows: Rows, writer: Writer) {
    writer.phase.Failing? || Charged(rows, writer.key, writer.size)
  }

  ghost predicate QuotaInv(w: World, group: Id, quota: nat) {
    && Total(w.rows, group) <= quota
    && (forall t :: t in w.writers ==> Reserved(w.rows, w.writers[t]))
  }

  /** No key is dropped under an upload that still means to record it. */
  ghost predicate Patient(w: World, step: Step)
    requires Enabled(w, step)
  {
    match step
    case Forget(_, keys) => forall t :: t in w.writers && !w.writers[t].phase.Failing? ==> w.writers[t].key !in keys
    case Discard(t, _) => forall s :: s in w.writers && s != t && !w.writers[s].phase.Failing? ==>
        w.writers[s].key != w.writers[t].key
    case _ => true
  }

  ghost predicate OneQuota(step: Step, quota: nat) {
    step.Reserve? ==> step.quota == quota
  }

  lemma QuotaStep(w: World, step: Step, group: Id, quota: nat)
    requires Inv(w) && QuotaInv(w, group, quota) && Enabled(w, step) && Patient(w, step) && OneQuota(step, quota)
    ensures QuotaInv(Do(w, step), group, quota)
  {
    match step
    case Reserve(t, key, size, q, now) =>
      if Reserves(w.rows, key, size, q) {
        ReservedFits(w.rows, key, size, q, now);
        assert key.group != group ==> Total(Recorded(w.rows, key, size, now), group) == Total(w.rows, group);
      }
    case Record(t, now) =>
      assert Reserved(w.rows, w.writers[t]);
      RecordedTotal(w.rows, w.writers[t].key, w.writers[t].size, now, group);
    case Discard(t, d) =>
      TotalShrinks(w.rows, {w.writers[t].key}, group);
    case Forget(d, keys) => TotalShrinks(w.rows, keys, group);
    case _ =>
  }

  /** A step keeps a space within its quota, and every upload on its way reserved, exactly when it is patient. */
  lemma PatientExact(w: World, step: Step, group: Id, quota: nat)
    requires Inv(w) && QuotaInv(w, group, quota) && Enabled(w, step) && OneQuota(step, quota)
    ensures QuotaInv(Do(w, step), group, quota) <==> Patient(w, step)
  {
    if Patient(w, step) {
      QuotaStep(w, step, group, quota);
    } else {
      var gone := if step.Forget? then step.keys else {w.writers[step.t].key};
      var s :| s in Do(w, step).writers && !w.writers[s].phase.Failing? && w.writers[s].key in gone;
      assert !Reserved(Do(w, step).rows, w.writers[s]);
    }
  }

  ghost predicate PatientRun(w: World, steps: seq<Step>, quota: nat)
    decreases |steps|
  {
    steps == [] || (
      Enabled(w, steps[0]) && Patient(w, steps[0]) && OneQuota(steps[0], quota)
          && PatientRun(Do(w, steps[0]), steps[1..], quota))
  }

  lemma {:induction false} PatientRuns(w: World, steps: seq<Step>, quota: nat)
    requires PatientRun(w, steps, quota)
    ensures CanRun(w, steps)
    decreases |steps|
  {
    if steps != [] {
      PatientRuns(Do(w, steps[0]), steps[1..], quota);
    }
  }

  /** While no key is dropped between its reservation and its record, no space ever goes over its quota. */
  lemma {:induction false} QuotaHolds(w: World, steps: seq<Step>, group: Id, quota: nat)
    requires Inv(w) && QuotaInv(w, group, quota) && PatientRun(w, steps, quota) && CanRun(w, steps)
    ensures QuotaInv(Run(w, steps), group, quota)
    decreases |steps|
  {
    if steps != [] {
      StepKeeps(w, steps[0]);
      QuotaStep(w, steps[0], group, quota);
      QuotaHolds(Do(w, steps[0]), steps[1..], group, quota);
    }
  }

  /** From an empty store, whatever the interleaving of patient steps. */
  lemma SpaceStaysWithinQuota(steps: seq<Step>, group: Id, quota: nat)
    requires PatientRun(Init(), steps, quota)
    ensures CanRun(Init(), steps) && Total(Run(Init(), steps).rows, group) <= quota
  {
    PatientRuns(Init(), steps, quota);
    QuotaHolds(Init(), steps, group, quota);
  }

  /** Without that, a record restores bytes whose room has been given away: a run from an empty store. */
  lemma ImpatientDeleteOverdraws() returns (steps: seq<Step>, w: World, drop: Step, more: seq<Step>)
    ensures CanRun(Init(), steps) && Run(Init(), steps) == w && Enabled(w, drop) && !Patient(w, drop)
    ensures CanRun(Do(w, drop), more) && Total(Run(Do(w, drop), more).rows, 0) > 10
    ensures forall step :: step in steps + [drop] + more ==> OneQuota(step, 10)
  {
    var a, b := BlobKey(0, 1), BlobKey(0, 2);
    var none: Rows := map[];
    w := World(map[a := Row(8, 1)], map[a := 8], map[0 := Writer(a, 8, Landed)], map[]);
    var first, land := Reserve(0, a, 8, 10, 1), Land(0);
    assert none - {a} == none && Reserves(none, a, 8, 10);
    var w0 := Do(Init(), first);
    assert Do(w0, land) == w && CanRun(w, []) && Run(w, []) == w;
    steps := [first, land];
    assert steps[1..] == [land] && steps[1..][1..] == [];
    assert CanRun(w0, [land]) && Run(w0, [land]) == w;
    drop := Forget(5, {a});
    assert w.writers[0].key in drop.keys;
    var w1 := Do(w, drop);
    assert w1.rows == map[] && w1.rows - {b} == map[];
    var reserve, record := Reserve(1, b, 8, 10, 2), Record(0, 3);
    assert Reserves(w1.rows, b, 8, 10);
    var w2 := Do(w1, reserve);
    var w3 := Do(w2, record);
    TotalPut(none, b, Row(8, 2), 0);
    assert none - {b} == none && w2.rows == none[b := Row(8, 2)];
    TotalPut(w2.rows, a, Row(8, 3), 0);
    assert w2.rows - {a} == w2.rows && w3.rows == w2.rows[a := Row(8, 3)];
    more := [reserve, record];
    assert more[1..] == [record] && more[1..][1..] == [];
    assert Run(w2, [record]) == w3;
  }

  // ---------------------------------------------------------------------
  // What single uploads and deletions come to
  // ---------------------------------------------------------------------

  ghost predicate LeadsTo(w: World, steps: seq<Step>, last: World) {
    CanRun(w, steps) && Run(w, steps) == last
  }

  lemma {:induction false} Next(start: World, steps: seq<Step>, w: World, step: Step)
    requires LeadsTo(start, steps, w) && Enabled(w, step)
    ensures LeadsTo(start, steps + [step], Do(w, step))
    decreases |steps|
  {
    if steps == [] {
      assert [step][1..] == [] && steps + [step] == [step];
    } else {
      Next(Do(start, steps[0]), steps[1..], w, step);
      assert (steps + [step])[1..] == steps[1..] + [step];
    }
  }

  /** An upload that fits ends with its bytes in the bucket and charged for. */
  lemma UploadRuns(w: World, t: nat, key: BlobKey, size: nat, quota: nat, now: nat)
    returns (steps: seq<Step>, last: World)
    requires t !in w.writers && Reserves(w.rows, key, size, quota) && RESERVED_FOR_DELETION < now
    ensures LeadsTo(w, steps, last) && last.writers == w.writers && last.deleters == w.deleters
    ensures last.rows == w.rows[key := Row(Max(SizeAt(w.rows, key), size), now)]
    ensures last.objects == w.objects[key := size]
  {
    assert LeadsTo(w, [], w);
    var reserve := Reserve(t, key, size, quota, now);
    Next(w, [], w, reserve);
    var w1 := Do(w, reserve);
    Next(w, [] + [reserve], w1, Land(t));
    var w2 := Do(w1, Land(t));
    Next(w, [] + [reserve] + [Land(t)], w2, Record(t, now));
    steps, last := [] + [reserve] + [Land(t)] + [Record(t, now)], Do(w2, Record(t, now));
    assert last.writers == w.writers;
  }

  /** One that fails, wherever its bytes got to, leaves neither row nor object of its key. */
  lemma FailedUploadRuns(w: World, t: nat, d: nat, key: BlobKey, size: nat, quota: nat, now: nat)
    returns (steps: seq<Step>, last: World)
    requires t !in w.writers && d !in w.deleters && Reserves(w.rows, key, size, quota) && RESERVED_FOR_DELETION < now
    ensures LeadsTo(w, steps, last) && last.writers == w.writers && last.deleters == w.deleters
    ensures last.rows == w.rows - {key} && last.objects == w.objects - {key}
  {
    assert LeadsTo(w, [], w);
    var reserve := Reserve(t, key, size, quota, now);
    Next(w, [], w, reserve);
    var w1 := Do(w, reserve);
    Next(w, [] + [reserve], w1, Fail(t));
    var w2 := Do(w1, Fail(t));
    Next(w, [] + [reserve] + [Fail(t)], w2, Discard(t, d));
    var w3 := Do(w2, Discard(t, d));
    Next(w, [] + [reserve] + [Fail(t)] + [Discard(t, d)], w3, Remove(d));
    steps, last := [] + [reserve] + [Fail(t)] + [Discard(t, d)] + [Remove(d)], Do(w3, Remove(d));
    assert last.writers == w.writers && last.deleters == w.deleters && last.rows == w.rows - {key};
  }

  lemma DeletionRuns(w: World, d: nat, keys: set<BlobKey>) returns (steps: seq<Step>, last: World)
    requires d !in w.deleters
    ensures LeadsTo(w, steps, last) && last == w.(rows := w.rows - keys, objects := w.objects - keys)
  {
    assert LeadsTo(w, [], w);
    Next(w, [], w, Forget(d, keys));
    var w1 := Do(w, Forget(d, keys));
    Next(w, [] + [Forget(d, keys)], w1, Remove(d));
    steps, last := [] + [Forget(d, keys)] + [Remove(d)], Do(w1, Remove(d));
    assert last.deleters == w.deleters;
  }

  /** The bucket's own expiry takes one object, and nothing else with it. */
  lemma ExpiryRuns(w: World, key: BlobKey) returns (last: World)
    ensures LeadsTo(w, [Expire(key)], last) && key !in last.objects && last == w.(objects := last.objects)
    ensures forall k :: k in w.objects && k != key ==> k in last.objects && last.objects[k] == w.objects[k]
  {
    assert LeadsTo(w, [], w);
    Next(w, [], w, Expire(key));
    assert [] + [Expire(key)] == [Expire(key)];
    last := Do(w, Expire(key));
  }

  /** The orphan sweep's round over this bucket, run alone, is a deletion of this kind. */
  method Swept(ghost w: World, ghost d: nat, store: BlobStore, found: set<BlobKey>) returns (ghost steps: seq<Step>)
    requires w.rows == store.rows && w.objects == store.objects && d !in w.deleters
    requires found <= store.rows.Keys && found !! store.claims
    modifies store
    ensures CanRun(w, steps) && Run(w, steps) == w.(rows := store.rows, objects := store.objects)
  {
    ghost var last;
    steps, last := DeletionRuns(w, d, found);
    store.SweepOnce(true, found);
  }
}
