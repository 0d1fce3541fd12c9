/** Two devices, from a space nobody has named on the server yet: a rename dropped unsent, and a rename undone. */
module SpaceNameCases {
  import opened Basics
  import opened SpaceName

  ghost predicate LeadsTo(w: World, steps: seq<Step>, last: World) {
    CanRun(w, steps) && Run(w, steps) == last
  }

  lemma {:induction false} OneMore(start: World, steps: seq<Step>, w: World, step: Step)
    requires LeadsTo(start, steps, w) && Enabled(w, step)
    ensures LeadsTo(start, steps + [step], Do(w, step))
    decreases |steps|
  {
    if steps == [] {
      assert [step][1..] == [];
      assert steps + [step] == [step];
    } else {
      OneMore(Do(start, steps[0]), steps[1..], w, step);
      assert (steps + [step])[1..] == steps[1..] + [step];
    }
  }

  lemma Next(start: World, steps: seq<Step>, w: World, step: Step, w': World) returns (longer: seq<Step>)
    requires LeadsTo(start, steps, w) && Enabled(w, step) && Do(w, step) == w'
    ensures LeadsTo(start, longer, w') && longer == steps + [step]
  {
    OneMore(start, steps, w, step);
    longer := steps + [step];
  }

  /** Two devices that call the space by the same name. */
  ghost function Two(): World {
    Init(map[0 := Some("old"), 1 := Some("old")])
  }

  /** A change is read and written with nothing in between. */
  lemma Settles(start: World, before: seq<Step>, w: World, t: nat) returns (steps: seq<Step>)
    requires LeadsTo(start, before, w) && t in w.tasks && w.tasks[t].1.Applying? && w.tasks[t].0 in w.locals
    ensures var (d, task) := w.tasks[t];
            LeadsTo(start, steps, w.(locals := w.locals[d := Changed(w.locals[d], task.change)],
                tasks := w.tasks - {t}))
  {
    var (d, task) := w.tasks[t];
    var w1 := w.(tasks := w.tasks[t := (d, Writing(w.locals[d], task.change))]);
    steps := Next(start, before, w, Read(t), w1);
    assert w1.tasks - {t} == w.tasks - {t};
    steps := Next(start, steps, w1, Write(t), Do(w1, Write(t)));
  }

  /** Device `d` renames the space, and publishes it under the next stamp. */
  lemma Publishes(start: World, before: seq<Step>, w: World, d: Id, name: Name, stamp: nat) returns (steps: seq<Step>)
    requires LeadsTo(start, before, w) && d in w.locals && 1 !in w.tasks && w.latest < stamp
    ensures LeadsTo(start, steps, w.(locals := w.locals[d := Local(name, stamp, false)],
        stamped := w.stamped[stamp := name], latest := stamp))
  {
    var w1 := w.(tasks := w.tasks[1 := (d, Applying(Rename(name)))]);
    var w2 := w.(locals := w.locals[d := Local(name, w.locals[d].stamp, true)]);
    var w3 := w2.(tasks := w.tasks[1 := (d, Publishing(name))]);
    var w4 := w2.(stamped := w.stamped[stamp := name], latest := stamp,
        tasks := w.tasks[1 := (d, Applying(Mark(name, stamp)))]);
    steps := Next(start, before, w, Type(1, d, name), w1);
    assert w1.tasks - {1} == w.tasks;
    steps := Settles(start, steps, w1, 1);
    steps := Next(start, steps, w2, Publish(1, d), w3);
    steps := Next(start, steps, w3, Stamp(1, stamp), w4);
    assert w4.tasks - {1} == w.tasks;
    steps := Settles(start, steps, w4, 1);
    assert w2.locals[d := Local(name, stamp, false)] == w.locals[d := Local(name, stamp, false)];
  }

  /**
   * Device 1 names the space. Device 0 finds the new record, owing nothing; a rename typed there is written
   * before the adoption, which drops it: it was never sent, and nothing is owed any more.
   */
  lemma AdoptionDropsRename() returns (steps: seq<Step>, owed: World, more: seq<Step>, last: World)
    ensures LeadsTo(Two(), steps, owed) && Owes(owed, 0, Some("mine")) && LeadsTo(owed, more, last)
    ensures last.locals == map[0 := Local(Some("theirs"), 5, false), 1 := Local(Some("theirs"), 5, false)]
    ensures last.tasks == map[] && !Taken(last, Some("mine"))
  {
    var w0 := Two();
    var w1 := World(map[5 := Some("theirs")], 5, map[0 := Local(Some("old"), 0, false),
        1 := Local(Some("theirs"), 5, false)], map[]);
    var poll := (0, Applying(Adopt(Some("theirs"), 5)));
    var w2 := w1.(tasks := map[2 := poll]);
    var w3 := w1.(tasks := map[2 := poll, 3 := (0, Applying(Rename(Some("mine"))))]);
    owed := w2.(locals := map[0 := Local(Some("mine"), 0, true), 1 := Local(Some("theirs"), 5, false)]);
    assert LeadsTo(w0, [], w0);
    steps := Publishes(w0, [], w0, 1, Some("theirs"), 5);
    assert w1.locals == w0.locals[1 := Local(Some("theirs"), 5, false)];
    steps := Next(w0, steps, w1, Poll(2, 0), w2);
    steps := Next(w0, steps, w2, Type(3, 0, Some("mine")), w3);
    assert w3.tasks - {3} == w2.tasks;
    steps := Settles(w0, steps, w3, 3);
    assert owed.locals == w3.locals[0 := Local(Some("mine"), 0, true)];
    last := owed.(locals := owed.locals[0 := Local(Some("theirs"), 5, false)], tasks := owed.tasks - {2});
    assert LeadsTo(owed, [], owed);
    more := Settles(owed, [], owed, 2);
  }

  function Shown(name: string, stamp: nat): Local {
    Local(Some(name), stamp, false)
  }

  /**
   * Both devices have the name of stamp 5; device 0 has seen that it is sealed under an old key, and sends
   * it again.
   */
  ghost function Resealing0(): World {
    World(map[5 := Some("old")], 5, map[0 := Shown("old", 5), 1 := Shown("old", 5)],
        map[2 := (0, Resealing(Some("old"), 5))])
  }

  lemma ReachResealing() returns (steps: seq<Step>)
    ensures LeadsTo(Two(), steps, Resealing0())
  {
    var w0 := Two();
    var w1 := World(map[5 := Some("old")], 5, map[0 := Shown("old", 5), 1 := Shown("old", 0)], map[]);
    var w2 := w1.(tasks := map[2 := (1, Applying(Adopt(Some("old"), 5)))]);
    var w3 := w1.(locals := map[0 := Shown("old", 5), 1 := Shown("old", 5)]);
    assert LeadsTo(w0, [], w0);
    steps := Publishes(w0, [], w0, 0, Some("old"), 5);
    assert w1.locals == w0.locals[0 := Shown("old", 5)];
    steps := Next(w0, steps, w1, Poll(2, 1), w2);
    assert w2.tasks - {2} == map[] && w3.locals == w2.locals[1 := Shown("old", 5)];
    steps := Settles(w0, steps, w2, 2);
    steps := Next(w0, steps, w3, Reseal(2, 0), Resealing0());
  }

  /**
   * The rename of device 1 is stamped first, and the old name after it: in the end both devices show the
   * old name, and nothing is owed.
   */
  lemma ResealUndoesRename() returns (steps: seq<Step>, w: World)
    ensures LeadsTo(Two(), steps, w) && w.tasks == map[]
    ensures w.stamped == map[5 := Some("old"), 6 := Some("new"), 7 := Some("old")] && w.latest == 7
    ensures w.locals == map[0 := Shown("old", 7), 1 := Shown("old", 7)]
  {
    var w0, w1 := Two(), Resealing0();
    var w2 := w1.(stamped := map[5 := Some("old"), 6 := Some("new")], latest := 6,
        locals := map[0 := Shown("old", 5), 1 := Shown("new", 6)]);
    var w3 := w2.(stamped := w2.stamped[7 := Some("old")], latest := 7,
        tasks := map[2 := (0, Applying(Mark(Some("old"), 7)))]);
    var w4 := w3.(locals := map[0 := Shown("old", 7), 1 := Shown("new", 6)], tasks := map[]);
    var w5 := w4.(tasks := map[2 := (1, Applying(Adopt(Some("old"), 7)))]);
    w := w4.(locals := map[0 := Shown("old", 7), 1 := Shown("old", 7)]);
    steps := ReachResealing();
    steps := Publishes(w0, steps, w1, 1, Some("new"), 6);
    assert w2.locals == w1.locals[1 := Shown("new", 6)] && w2.stamped == w1.stamped[6 := Some("new")];
    steps := Next(w0, steps, w2, Stamp(2, 7), w3);
    assert w3.tasks - {2} == map[] && w4.locals == w3.locals[0 := Shown("old", 7)];
    steps := Settles(w0, steps, w3, 2);
    steps := Next(w0, steps, w4, Poll(2, 1), w5);
    assert w5.tasks - {2} == map[] && w.locals == w5.locals[1 := Shown("old", 7)];
    steps := Settles(w0, steps, w5, 2);
  }
}
