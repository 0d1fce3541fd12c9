/** Runs in which a page shows what it should not: after a switch that is not safe, and after a drop during a sync. */
module VaultViewCases {
  import opened Basics
  import opened VaultView
  import opened VaultViewRuns
  import R = VaultReplication
  import S = VaultServer

  lemma Next(start: World, steps: seq<Step>, w: World, step: Step, w': World) returns (longer: seq<Step>)
    requires LeadsTo(start, steps, w) && Enabled(w, step) && Do(w, step) == w'
    ensures LeadsTo(start, longer, w') && longer == steps + [step]
    ensures SafeRun(start, steps) && Safe(w, step) ==> SafeRun(start, longer)
  {
    OneMore(start, steps, w, step);
    longer := steps + [step];
  }

  /** An item of space `a`, under an id that no item of space `b` has. */
  ghost predicate OnlyOf(origin: map<Id, set<S.Item>>, a: Id, b: Id, x: S.Item) {
    a in origin && x in origin[a] && (b in origin ==> forall y :: y in origin[b] ==> y.id != x.id)
  }

  ghost function Syncing(w: World, shown: Id, q: nat): World {
    w.(active := Some(shown), v := w.v.(syncing := Some(q)),
        passes := w.passes[q := Pulling(w.v.generation, shown, w.v.cursor)])
  }

  /** Back on the shown space a sync of it starts, in the generation of the load. */
  lemma SyncStarts(w: World, shown: Id, q: nat)
    requires Inv(w) && Own(w) && ForeignLoad(w) && w.v.space == Some(shown) && shown in w.copies && q !in w.passes
    ensures Inv(Do(w, Open(shown))) && Inv(Syncing(w, shown, q))
    ensures Enabled(Do(w, Open(shown)), AskSync(q)) && Do(Do(w, Open(shown)), AskSync(q)) == Syncing(w, shown, q)
  {
    StepKeeps(w, Open(shown));
    StepKeeps(Do(w, Open(shown)), AskSync(q));
    assert w.v.syncing.None?;
  }

  /** The load has read the disk, or does so now, and publishes the other space. */
  lemma LoadEnds(start: World, before: seq<Step>, w: World, p: nat)
    returns (steps: seq<Step>, cursor: nat, records: map<Id, S.Item>)
    requires Inv(w) && LeadsTo(start, before, w) && p in w.passes && Foreign(w.v, w.passes[p])
    ensures var loading := w.passes[p].space;
            && Of(w.origin, loading, records)
            && LeadsTo(start, steps, w.(active := Some(loading), v := Loaded(w.v, loading, records, cursor),
                passes := w.passes - {p}))
  {
    var pass := w.passes[p];
    assert PassOk(w.origin, w.v, w.copies.Keys, pass);
    var w1 := w.(active := Some(pass.space));
    steps := Next(start, before, w, Open(pass.space), w1);
    var w2 := w1;
    if pass.Reading? {
      w2 := w1.(passes := w.passes[p := Unsealing(pass.run, pass.space, w.copies[pass.space], 0)]);
      steps := Next(start, steps, w1, ReadDisk(p, 0), w2);
    }
    cursor, records := w2.passes[p].cursor, w2.passes[p].records;
    var w3 := w2.(v := Loaded(w2.v, pass.space, records, cursor), passes := w2.passes - {p});
    assert w2.passes - {p} == w.passes - {p};
    steps := Next(start, steps, w2, PublishLoad(p), w3);
  }

  function OneChange(x: S.Item): R.Changes {
    R.Changes(map[x.id := x], {}, 0, false)
  }

  /** A sync that is still current files and then publishes what it pulled, over whatever is shown. */
  lemma SyncPublishes(start: World, before: seq<Step>, w: World, q: nat, x: S.Item)
    returns (steps: seq<Step>, last: World)
    requires LeadsTo(start, before, w) && q in w.passes && w.passes[q].Storing? && w.passes[q].changes == OneChange(x)
    requires StillCurrent(w, w.passes[q]) && w.passes[q].space in w.copies && x.id !in w.v.entries
    ensures LeadsTo(start, steps, last) && last.v.space == w.v.space && last.origin == w.origin
    ensures x.id in last.v.entries && last.v.entries[x.id] == x
  {
    var w1 := Do(w, Stored(q));
    steps := Next(start, before, w, Stored(q), w1);
    assert w1.v.entries == w.v.entries && StillCurrent(w1, w1.passes[q]) && w1.passes[q].records[x.id] == x;
    last := Do(w1, PublishSync(q));
    steps := Next(start, steps, w1, PublishSync(q), last);
  }

  /** The sync of the first space, current again, publishes what it pulled over the other's items. */
  lemma SyncCrosses(start: World, before: seq<Step>, w: World, q: nat, shown: Id, loading: Id, x: S.Item)
    returns (steps: seq<Step>, last: World)
    requires LeadsTo(start, before, w) && shown in w.copies && OnlyOf(w.origin, shown, loading, x)
    requires q in w.passes && w.passes[q].Pulling? && w.passes[q].run == w.v.generation && w.passes[q].space == shown
    requires w.v.space == Some(loading) && Of(w.origin, loading, w.v.entries)
    ensures LeadsTo(start, steps, last) && last.v.space == Some(loading) && last.origin == w.origin
    ensures x.id in last.v.entries && last.v.entries[x.id] == x
  {
    var w1 := w.(active := Some(shown));
    var w2 := w1.(passes := w.passes[q := Storing(w.v.generation, shown, OneChange(x))]);
    steps := Next(start, before, w, Open(shown), w1);
    steps := Next(start, steps, w1, Pulled(q, OneChange(x)), w2);
    assert x.id !in w.v.entries;
    steps, last := SyncPublishes(start, steps, w2, q, x);
  }

  /**
   * A switch that is not safe can always go wrong: from that moment there is a run that shows any item of
   * the space switched back to as one of the other.
   */
  lemma UnsafeSwitchCrosses(w: World, shown: Id, p: nat, q: nat, x: S.Item) returns (steps: seq<Step>, last: World)
    requires Inv(w) && Own(w) && Enabled(w, Open(shown)) && w.v.space == Some(shown)
    requires p in w.passes && Foreign(w.v, w.passes[p]) && q !in w.passes
    requires OnlyOf(w.origin, shown, w.passes[p].space, x)
    ensures !Safe(w, Open(shown)) && LeadsTo(Do(w, Open(shown)), steps, last)
    ensures last.v.space == Some(w.passes[p].space) && x.id in last.v.entries && last.v.entries[x.id] == x
    ensures last.origin == w.origin && !Of(last.origin, last.v.space.value, last.v.entries)
  {
    var loading := w.passes[p].space;
    var w0, w1 := Do(w, Open(shown)), Syncing(w, shown, q);
    SyncStarts(w, shown, q);
    steps := Next(w0, [], w0, AskSync(q), w1);
    var cursor, records;
    steps, cursor, records := LoadEnds(w0, steps, w1, p);
    var w2 := w1.(active := Some(loading), v := Loaded(w1.v, loading, records, cursor), passes := w1.passes - {p});
    steps, last := SyncCrosses(w0, steps, w2, q, shown, loading, x);
  }

  // ---------------------------------------------------------------------
  // From a page just opened
  // ---------------------------------------------------------------------

  const MINE := S.Item(5, None, S.Folder, 1, 0, None, 1, None, 1)

  /** Two spaces; the first has one item, which this device has not fetched yet. */
  ghost function TwoSpaces(): World {
    Init(map[0 := {MINE}, 1 := {}], map[0 := map[], 1 := map[]])
  }

  /** The first space is shown, and the second is being loaded. */
  ghost function Switched(): World {
    TwoSpaces().(active := Some(1), v := View(Some(0), map[], 0, 2, None, false), passes := map[2 := Reading(2, 1)])
  }

  lemma ReachSwitched() returns (steps: seq<Step>)
    ensures LeadsTo(TwoSpaces(), steps, Switched()) && SafeRun(TwoSpaces(), steps)
  {
    var w0 := TwoSpaces();
    var w1 := w0.(active := Some(0));
    var w2 := w1.(v := View(None, map[], 0, 1, None, false), passes := map[1 := Reading(1, 0)]);
    var w3 := w2.(passes := map[1 := Unsealing(1, 0, map[], 0)]);
    var w4 := w1.(v := View(Some(0), map[], 0, 1, None, false));
    var w5 := w4.(active := Some(1));
    steps := Next(w0, [], w0, Open(0), w1);
    steps := Next(w0, steps, w1, BeginLoad(1), w2);
    steps := Next(w0, steps, w2, ReadDisk(1, 0), w3);
    assert map[1 := Unsealing(1, 0, map[], 0)] - {1} == map[];
    steps := Next(w0, steps, w3, PublishLoad(1), w4);
    steps := Next(w0, steps, w4, Open(1), w5);
    steps := Next(w0, steps, w5, BeginLoad(2), Switched());
  }

  /** A run in which switching to and fro shows an item of the first space as one of the second. */
  lemma QuickSwitchCrosses() returns (steps: seq<Step>, w: World, more: seq<Step>, last: World)
    ensures LeadsTo(TwoSpaces(), steps, w) && SafeRun(TwoSpaces(), steps)
    ensures Enabled(w, Open(0)) && !Safe(w, Open(0)) && LeadsTo(Do(w, Open(0)), more, last)
    ensures last.v.space == Some(1) && 5 in last.v.entries && last.v.entries[5] == MINE
    ensures !Of(last.origin, 1, last.v.entries)
  {
    steps := ReachSwitched();
    w := Switched();
    InitOwn(map[0 := {MINE}, 1 := {}], map[0 := map[], 1 := map[]]);
    RunKeeps(TwoSpaces(), steps);
    assert Foreign(w.v, w.passes[2]);
    more, last := UnsafeSwitchCrosses(w, 0, 2, 3, MINE);
  }

  // ---------------------------------------------------------------------
  // A dropped item that comes back
  // ---------------------------------------------------------------------

  ghost function OneSpace(): World {
    Init(map[0 := {MINE}], map[0 := map[5 := MINE]])
  }

  /** Its item is shown, and a sync that found nothing new is opening it again. */
  ghost function Reopening(): World {
    OneSpace().(active := Some(0), v := View(Some(0), map[5 := MINE], 0, 1, Some(2), false),
                passes := map[2 := Opening(1, 0, map[5 := MINE], map[5 := MINE], false)])
  }

  lemma ReachReopening() returns (steps: seq<Step>)
    ensures LeadsTo(OneSpace(), steps, Reopening())
  {
    var w0 := OneSpace();
    var w1 := w0.(active := Some(0));
    var w2 := w1.(v := View(None, map[], 0, 1, None, false), passes := map[1 := Reading(1, 0)]);
    var w3 := w2.(passes := map[1 := Unsealing(1, 0, map[5 := MINE], 0)]);
    var w4 := w1.(v := View(Some(0), map[5 := MINE], 0, 1, None, false));
    var w5 := w4.(v := w4.v.(syncing := Some(2)), passes := map[2 := Pulling(1, 0, 0)]);
    steps := Next(w0, [], w0, Open(0), w1);
    steps := Next(w0, steps, w1, BeginLoad(1), w2);
    steps := Next(w0, steps, w2, ReadDisk(1, 0), w3);
    assert w3.passes - {1} == map[];
    steps := Next(w0, steps, w3, PublishLoad(1), w4);
    steps := Next(w0, steps, w4, AskSync(2), w5);
    steps := Next(w0, steps, w5, UpToDate(2), Reopening());
  }

  ghost function Filing7(): World {
    Reopening().(writes := map[7 := Filing(0, Drop({5}))])
  }

  lemma ReachFiling() returns (steps: seq<Step>)
    ensures LeadsTo(OneSpace(), steps, Filing7())
  {
    var w1 := Reopening().(writes := map[7 := Sealing(0)]);
    steps := ReachReopening();
    steps := Next(OneSpace(), steps, Reopening(), BeginWrite(7), w1);
    steps := Next(OneSpace(), steps, w1, Answer(7, Drop({5})), Filing7());
  }

  ghost function PutAway7(): World {
    Reopening().(writes := map[7 := Showing(0, Drop({5}))], copies := map[0 := map[]])
  }

  lemma ReachPutAway() returns (steps: seq<Step>)
    ensures LeadsTo(OneSpace(), steps, PutAway7())
  {
    steps := ReachFiling();
    assert Applied(map[5 := MINE], Drop({5})) == map[];
    steps := Next(OneSpace(), steps, Filing7(), PutAway(7), PutAway7());
  }

  ghost function GoneFromView(): World {
    Reopening().(v := Reopening().v.(entries := map[], again := true), copies := map[0 := map[]])
  }

  lemma ReachGone() returns (steps: seq<Step>)
    ensures LeadsTo(OneSpace(), steps, GoneFromView())
  {
    steps := ReachPutAway();
    assert Applied(map[5 := MINE], Drop({5})) == map[];
    assert PutAway7().writes - {7} == map[];
    steps := Next(OneSpace(), steps, PutAway7(), Show(7, 8), GoneFromView());
  }

  /** The item is dropped for good while the sync is at it, and the sync brings it back into view. */
  lemma DroppedReappears() returns (steps: seq<Step>, dropped: World, last: World)
    ensures LeadsTo(OneSpace(), steps, dropped) && dropped.copies == map[0 := map[]] && dropped.v.entries == map[]
    ensures Enabled(dropped, PublishSync(2)) && last == Do(dropped, PublishSync(2)) && last.v.entries == map[5 := MINE]
  {
    dropped := GoneFromView();
    steps := ReachGone();
    last := Do(dropped, PublishSync(2));
    assert Merged(map[5 := MINE], map[5 := MINE], map[]) == map[5 := MINE];
  }
}
