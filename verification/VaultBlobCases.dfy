/** Runs from an empty store in which marking under an upload, or granting a key again, breaks the accounts. */
module VaultBlobCases {
  import opened Basics
  import opened BlobTable
  import opened VaultBlobs

  ghost predicate LeadsTo(steps: seq<Step>, w: World) {
    VaultBlobs.LeadsTo(Init(), steps, w)
  }

  lemma Next(steps: seq<Step>, w: World, step: Step, w': World) returns (longer: seq<Step>)
    requires LeadsTo(steps, w) && Enabled(w, step) && Do(w, step) == w'
    ensures LeadsTo(longer, w') && longer == steps + [step]
  {
    VaultBlobs.Next(Init(), steps, w, step);
    longer := steps + [step];
  }

  lemma FirstFits(k: BlobKey)
    ensures var none: Rows := map[]; Reserves(none, k, 5, 10) && none - {k} == none
  {
  }

  /** An upload of `k` is on its way. */
  ghost function Uploading(k: BlobKey): World {
    World(map[k := Row(5, 1)], map[], {}, map[0 := Writer(k, 5, false)], map[])
  }

  lemma ReachUploading(k: BlobKey) returns (steps: seq<Step>)
    ensures LeadsTo(steps, Uploading(k))
  {
    FirstFits(k);
    steps := Next([], Init(), Reserve(0, k, 5, 10, 1), Uploading(k));
  }

  ghost function MarkedMeanwhile(k: BlobKey): World {
    World(map[k := Row(5, RESERVED_FOR_DELETION)], map[], {}, map[0 := Writer(k, 5, false)],
        map[1 := Deleter({k}, false)])
  }

  lemma MarksIt(w: World, k: BlobKey)
    requires k in w.rows && w.claims == {} && w.rows.Keys == {k}
    ensures MarkedNow(w.rows, {k}, w.claims) == {k}
    ensures MarkUnclaimed(w.rows, {k}, w.claims) == map[k := w.rows[k].(createdAt := RESERVED_FOR_DELETION)]
  {
  }

  /** Nothing in the mark keeps it off a key whose upload is still on its way. */
  lemma MarkUnderUpload(k: BlobKey) returns (steps: seq<Step>)
    ensures LeadsTo(steps, Uploading(k)) && Enabled(Uploading(k), Mark(1, {k})) && !Orderly(Uploading(k), Mark(1, {k}))
    ensures Do(Uploading(k), Mark(1, {k})) == MarkedMeanwhile(k)
  {
    steps := ReachUploading(k);
    MarksIt(Uploading(k), k);
    assert k in MarkedNow(Uploading(k).rows, {k}, {}) && Uploading(k).writers[0].key == k;
  }

  /**
   * Marking under an upload still on its way: the upload lands, its record does nothing, and the object is
   * left without a row.
   */
  lemma MarkUnderUploadLeaks(k: BlobKey) returns (steps: seq<Step>, w: World)
    ensures LeadsTo(steps, w) && w.writers == map[] && w.deleters == map[]
    ensures k in w.objects && k !in w.rows
  {
    var w1 := MarkedMeanwhile(k);
    var w2 := w1.(deleters := map[1 := Deleter({k}, true)]);
    var w3 := w2.(objects := map[k := 5], writers := map[0 := Writer(k, 5, true)]);
    var w4 := w3.(writers := map[]);
    w := World(map[], map[k := 5], {}, map[], map[]);
    steps := MarkUnderUpload(k);
    steps := Next(steps, Uploading(k), Mark(1, {k}), w1);
    steps := Next(steps, w1, Empty(1), w2);
    steps := Next(steps, w2, Land(0), w3);
    steps := Next(steps, w3, Record(0, 9), w4);
    steps := Next(steps, w4, Drop(1), w);
  }

  /** Two cleanups have marked the upload nobody claimed; the second has deleted it and dropped its row. */
  ghost function StillAtWork(k: BlobKey): World {
    World(map[], map[], {}, map[], map[1 := Deleter({k}, false)])
  }

  lemma ReachStillAtWork(k: BlobKey) returns (steps: seq<Step>)
    ensures LeadsTo(steps, StillAtWork(k))
  {
    var w1 := Uploading(k).(objects := map[k := 5], writers := map[0 := Writer(k, 5, true)]);
    var w2 := World(map[k := Row(5, 1)], map[k := 5], {}, map[], map[]);
    var marked := World(map[k := Row(5, 0)], map[k := 5], {}, map[], map[1 := Deleter({k}, false)]);
    var twice := marked.(deleters := map[1 := Deleter({k}, false), 2 := Deleter({k}, false)]);
    var emptied := marked.(objects := map[], deleters := map[1 := Deleter({k}, false), 2 := Deleter({k}, true)]);
    steps := ReachUploading(k);
    steps := Next(steps, Uploading(k), Land(0), w1);
    steps := Next(steps, w1, Record(0, 1), w2);
    MarksIt(w2, k);
    steps := Next(steps, w2, Mark(1, {k}), marked);
    MarksIt(marked, k);
    steps := Next(steps, marked, Mark(2, {k}), twice);
    steps := Next(steps, twice, Empty(2), emptied);
    steps := Next(steps, emptied, Drop(2), StillAtWork(k));
  }

  /** Granting the key again under the first cleanup: the new content is claimed, and then deleted. */
  lemma ReusedKeyIsDeleted(k: BlobKey) returns (steps: seq<Step>, again: Step, w: World)
    ensures again == Reserve(0, k, 5, 10, 9) && Enabled(StillAtWork(k), again) && !Orderly(StillAtWork(k), again)
    ensures LeadsTo(steps, w) && k in w.claims && k in w.rows && k !in w.objects
  {
    again := Reserve(0, k, 5, 10, 9);
    var w1 := StillAtWork(k).(rows := map[k := Row(5, 9)], writers := map[0 := Writer(k, 5, false)]);
    var w2 := w1.(objects := map[k := 5], writers := map[0 := Writer(k, 5, true)]);
    var w3 := w2.(writers := map[]);
    var w4 := w3.(claims := {k});
    w := w4.(objects := map[], deleters := map[1 := Deleter({k}, true)]);
    FirstFits(k);
    assert k in StillAtWork(k).deleters[1].keys;
    steps := ReachStillAtWork(k);
    steps := Next(steps, StillAtWork(k), again, w1);
    steps := Next(steps, w1, Land(0), w2);
    steps := Next(steps, w2, Record(0, 9), w3);
    steps := Next(steps, w3, Claim(k), w4);
    steps := Next(steps, w4, Empty(1), w);
  }
}
