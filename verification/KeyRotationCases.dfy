/** Runs from a space's creation in which key rotation breaks a promise. */
module KeyRotationCases {
  import opened Basics
  import opened Sorting
  import opened Keyring
  import opened KeyServer
  import opened KeyRotationRuns
  import opened KeyRotationResults

  /** `steps` leads from the creation of the space by device 0 to `w`. */
  ghost predicate LeadsTo(steps: seq<Step>, w: World) {
    Runs(Init(0, 11), steps) && Run(Init(0, 11), steps) == w
  }

  lemma {:induction false} OneMore(start: World, steps: seq<Step>, step: Step)
    requires Runs(start, steps) && Enabled(Run(start, steps), step)
    ensures Runs(start, steps + [step]) && Run(start, steps + [step]) == Do(Run(start, steps), step)
    decreases |steps|
  {
    if steps == [] {
      assert [step][1..] == [];
    } else {
      OneMore(Do(start, steps[0]), steps[1..], step);
      assert (steps + [step])[1..] == steps[1..] + [step];
    }
  }

  lemma Next(steps: seq<Step>, w: World, step: Step, w': World) returns (longer: seq<Step>)
    requires LeadsTo(steps, w) && Enabled(w, step) && Do(w, step) == w'
    ensures LeadsTo(longer, w') && longer == steps + [step]
  {
    OneMore(Init(0, 11), steps, step);
    longer := steps + [step];
  }

  // ---------------------------------------------------------------------
  // A space of two devices that owes a rotation
  // ---------------------------------------------------------------------

  ghost function First(): Ring {
    CreateKeyring(11, 1)
  }

  ghost function Idle(ring: Ring): Client {
    Client(ring, NoSync, NoRotation, None, 1, None)
  }

  /** Device 0 created the space and let in 1 and 9; then 9 was revoked. */
  ghost function Owing(): World {
    World(
      Group(1, true, map[0 := Device(false, 1), 1 := Device(false, 1), 9 := Device(true, 1)], map[]),
      map[1 := 11], map[11 := 0], {11},
      map[0 := Idle(First()).(draft := Some((1, 11))), 1 := Idle(First()), 9 := Idle(First()).(until := Some(1))],
      {(1, 11)}, {})
  }

  lemma ReachOwing() returns (steps: seq<Step>)
    ensures LeadsTo(steps, Owing())
  {
    var w0 := Init(0, 11);
    var w1 := Put(w0, 0, Idle(First()).(draft := Some((1, 11))));
    var w2 := w1.(offers := {(1, 11)});
    var w3 := w2.(group := Joined(w2.group, 1, 1), clients := w2.clients[1 := Idle(First())]);
    var w4 := w3.(group := Joined(w3.group, 9, 1), clients := w3.clients[9 := Idle(First())]);
    steps := Next([], w0, Draft(0), w1);
    steps := Next(steps, w1, Offer(0), w2);
    steps := Next(steps, w2, Join(1, 1, 11), w3);
    steps := Next(steps, w3, Join(9, 1, 11), w4);
    steps := Next(steps, w4, Revoke(9), Owing());
  }

  /** Device `d` asks, is admitted, and has its roster checked. */
  lemma ReachChecked(before: seq<Step>, w: World, d: Id, key: Key, ws: seq<Wrap>, w': World) returns (steps: seq<Step>)
    requires LeadsTo(before, w) && Enabled(w, Ask(d, key, ws))
    requires Admits(w.group, d, w.group.epoch + 1) && NamesRoster(w.group, d, ws)
    requires w' == w.(issued := w.issued[key := d],
                      clients := w.clients[d := w.clients[d].(rot := Checked(w.clients[d].ring, w.group.epoch + 1,
                          key, ws))])
    ensures LeadsTo(steps, w')
  {
    var c := w.clients[d];
    var w1 := w.(issued := w.issued[key := d], clients := w.clients[d := c.(rot := Asked(c.ring, w.group.epoch + 1,
        key, ws))]);
    var w2 := Put(w1, d, c.(rot := Rotation.Admitted(c.ring, w.group.epoch + 1, key, ws)));
    steps := Next(before, w, Ask(d, key, ws), w1);
    steps := Next(steps, w1, Admit(d), w2);
    steps := Next(steps, w2, Check(d), w');
  }

  /** The box of a device with one row. */
  lemma OneDelivery(d: Id, ring: Ring, e: nat, k: Key)
    requires e !in ring.keys
    ensures var box := [Delivery(e, Sealed(d, e, k))];
            && Adopt(d, ring, SortBy(EpochOf, box)) == Some(WithEpoch(ring, e, k)) && Highest(box) == e
                && OnePerEpoch(box)
  {
    var box := [Delivery(e, Sealed(d, e, k))];
    var s := SortBy(EpochOf, box);
    SortByExact(EpochOf, box);
    assert |s| == |multiset(s)| == 1;
    assert s[0] in multiset(s);
    assert s == box;
    assert box[..0] == [];
  }

  lemma InsertOne(g: Group, prev: nat, a: Wrap)
    ensures InsertWraps(g, prev, [a]) == InsertWrap(g, prev, a)
  {
    assert [a][..0] == [];
    assert InsertWraps(g, prev, []) == Some(g);
  }

  lemma InsertTwo(g: Group, prev: nat, a: Wrap, b: Wrap)
    requires InsertWrap(g, prev, a).Some?
    ensures InsertWraps(g, prev, [a, b]) == InsertWrap(InsertWrap(g, prev, a).value, prev, b)
  {
    assert [a, b][..1] == [a];
    InsertOne(g, prev, a);
  }

  // ---------------------------------------------------------------------
  // Two keys for one epoch
  // ---------------------------------------------------------------------

  ghost function From(key: Key, e: nat, d: Id): Wrap {
    Wrap(d, Sealed(d, e, key))
  }

  /** Device 0 has its request checked, device 2 joins, device 1 has its own checked, and device 1 is revoked. */
  ghost function Crossed(): World {
    World(
      Group(1, true, map[0 := Device(false, 1), 1 := Device(true, 1), 9 := Device(true, 1), 2 := Device(false, 1)],
          map[]),
      map[1 := 11], map[11 := 0, 20 := 0, 21 := 1], {11},
      map[0 := Idle(First()).(draft := Some((1, 11)), rot := Checked(First(), 2, 20, [From(20, 2, 1)])),
          1 := Idle(First()).(rot := Checked(First(), 2, 21, [From(21, 2, 0), From(21, 2, 2)]), until := Some(1)),
          9 := Idle(First()).(until := Some(1)),
          2 := Idle(First())],
      {(1, 11)}, {})
  }

  ghost function OneAsked(): World {
    Owing().(issued := map[11 := 0, 20 := 0], clients := Owing().clients[0 := Crossed().clients[0]])
  }

  ghost function Joining(): World {
    OneAsked().(group := Joined(OneAsked().group, 2, 1), clients := OneAsked().clients[2 := Idle(First())])
  }

  lemma ReachJoining() returns (steps: seq<Step>)
    ensures LeadsTo(steps, Joining())
  {
    steps := ReachOwing();
    OneRecipient(Owing().group, 0, From(20, 2, 1));
    steps := ReachChecked(steps, Owing(), 0, 20, [From(20, 2, 1)], OneAsked());
    steps := Next(steps, OneAsked(), Join(2, 1, 11), Joining());
  }

  ghost function BothAsked(): World {
    Joining().(issued := map[11 := 0, 20 := 0, 21 := 1],
               clients := Joining().clients[1 := Idle(First()).(rot := Crossed().clients[1].rot)])
  }

  lemma ReachCrossed() returns (steps: seq<Step>)
    ensures LeadsTo(steps, Crossed())
  {
    steps := ReachJoining();
    TwoRecipients(Joining().group, 1, From(21, 2, 0), From(21, 2, 2));
    steps := ReachChecked(steps, Joining(), 1, 21, [From(21, 2, 0), From(21, 2, 2)], BothAsked());
    steps := Next(steps, BothAsked(), Revoke(1), Crossed());
  }

  lemma OneRecipient(g: Group, d: Id, a: Wrap)
    requires ActiveIds(g.devices) - {d} == {a.device}
    ensures NamesRoster(g, d, [a])
  {
    assert [a][0].device in Devices([a]);
  }

  lemma TwoRecipients(g: Group, d: Id, a: Wrap, b: Wrap)
    requires a.device != b.device && ActiveIds(g.devices) - {d} == {a.device, b.device}
    ensures NamesRoster(g, d, [a, b])
  {
    assert [a, b][0].device in Devices([a, b]) && [a, b][1].device in Devices([a, b]);
  }

  /** The batch of device 1, revoked in between, is refused and leaves its keys behind. */
  ghost function Stray(): World {
    Crossed().(group := Crossed().group.(wraps := map[(2, 0) := Sealed(0, 2, 21), (2, 2) := Sealed(2, 2, 21)]),
               spent := {11, 21},
               clients := Crossed().clients[1 := Idle(First()).(until := Some(1))])
  }

  lemma ReachStray() returns (steps: seq<Step>)
    ensures LeadsTo(steps, Stray())
  {
    steps := ReachCrossed();
    var g := Crossed().group;
    InsertTwo(g, 1, From(21, 2, 0), From(21, 2, 2));
    assert InsertWraps(g, 1, [From(21, 2, 0), From(21, 2, 2)]) == Some(Stray().group);
    assert RotateBatch(g, 1, 1, [From(21, 2, 0), From(21, 2, 2)]) == Some((Stray().group, false));
    steps := Next(steps, Crossed(), Rotate(1), Stray());
  }

  /** The batch of device 0 is accepted, because the key left behind for device 2 counts as covering it. */
  ghost function Won(): World {
    Stray().(group := Stray().group.(epoch := 2, pending := false,
        devices := Stray().group.devices[0 := Device(false, 2)]),
             minted := map[1 := 11, 2 := 20], spent := {11, 21, 20},
             clients := Stray().clients[0 := Idle(First()).(draft := Some((1, 11)), rot := Accepted(First(), 2, 20))])
  }

  lemma ReachWon() returns (steps: seq<Step>)
    ensures LeadsTo(steps, Won())
  {
    steps := ReachStray();
    var g := Stray().group;
    InsertOne(g, 1, From(20, 2, 1));
    assert InsertWraps(g, 1, [From(20, 2, 1)]) == Some(g);
    assert RotateBatch(g, 0, 1, [From(20, 2, 1)]) == Some((Won().group, true));
    steps := Next(steps, Stray(), Rotate(0), Won());
  }

  ghost function Adopting(): World {
    Won().(clients := Won().clients[0 := Idle(WithEpoch(First(), 2, 20)).(draft := Some((1, 11)))]
                                   [2 := Idle(First()).(sync := Polled(First(), [Delivery(2, Sealed(2, 2, 21))]))])
  }

  lemma ReachAdopting() returns (steps: seq<Step>)
    ensures LeadsTo(steps, Adopting())
  {
    var kept := Put(Won(), 0, Adopting().clients[0]);
    var box := [Delivery(2, Sealed(2, 2, 21))];
    steps := ReachWon();
    steps := Next(steps, Won(), Keep(0), kept);
    OneDelivery(2, First(), 2, 21);
    assert box[0].epoch in Epochs(box);
    steps := Next(steps, kept, Poll(2, box), Adopting());
  }

  ghost function Torn(): World {
    Put(Adopting(), 2, Idle(WithEpoch(First(), 2, 21)).(sync := Stored(2)))
  }

  lemma ReachTorn() returns (steps: seq<Step>)
    ensures LeadsTo(steps, Torn())
  {
    steps := ReachAdopting();
    OneDelivery(2, First(), 2, 21);
    steps := Next(steps, Adopting(), StoreKeys(2), Torn());
  }

  lemma TornInTwo()
    ensures !OneKey(Torn())
  {
    TwoKeys(Torn(), 0, 2, 2, 20, 21);
  }

  /**
   * A run that splits the group: two active devices end with different keys for its current epoch,
   * and each encrypts with its own.
   */
  lemma SplitBrain() returns (steps: seq<Step>, w: World)
    ensures LeadsTo(steps, w) && !Obey(Clashless, Init(0, 11), steps)
    ensures w.group.epoch == 2 && Active(w.group.devices, 0) && Active(w.group.devices, 2)
    ensures 0 in w.clients && w.clients[0].ring.current == 2 && Holds(w.clients[0].ring, 2, 20)
    ensures 2 in w.clients && w.clients[2].ring.current == 2 && Holds(w.clients[2].ring, 2, 21)
  {
    w := Torn();
    steps := ReachTorn();
    InitKeeps(0, 11);
    InitAgreed(0, 11);
    OneKeyExact(Init(0, 11), steps);
    TornInTwo();
    AgreedIsNotTorn(w);
  }

  lemma AgreedIsNotTorn(w: World)
    ensures !OneKey(w) ==> !Agreed(w)
  {
    if Agreed(w) {
      AgreedIsOneKey(w);
    }
  }

  // ---------------------------------------------------------------------
  // A key lost between two saves
  // ---------------------------------------------------------------------

  ghost function Asking(): World {
    Owing().(issued := map[11 := 0, 22 := 1],
             clients := Owing().clients[1 := Idle(First()).(rot := Checked(First(), 2, 22, [From(22, 2, 0)]))])
  }

  /** Device 1 has rotated; the key of epoch 2 waits for device 0. */
  ghost function Rotated(): World {
    Asking().(group := Group(2, false, Owing().group.devices[1 := Device(false, 2)], map[(2, 0) := Sealed(0, 2, 22)]),
              minted := map[1 := 11, 2 := 22], spent := {11, 22},
              clients := Asking().clients[1 := Idle(First()).(rot := Accepted(First(), 2, 22))])
  }

  lemma ReachAsking() returns (steps: seq<Step>)
    ensures LeadsTo(steps, Asking())
  {
    steps := ReachOwing();
    OneRecipient(Owing().group, 1, From(22, 2, 0));
    steps := ReachChecked(steps, Owing(), 1, 22, [From(22, 2, 0)], Asking());
  }

  lemma ReachRotated() returns (steps: seq<Step>)
    ensures LeadsTo(steps, Rotated())
  {
    var g := Owing().group;
    steps := ReachAsking();
    InsertOne(g, 1, From(22, 2, 0));
    assert RotateBatch(g, 1, 1, [From(22, 2, 0)]) == Some((Rotated().group, true));
    steps := Next(steps, Asking(), Rotate(1), Rotated());
  }

  /** Device 0 revokes device 1 and starts the rotation this owes, from a ring without epoch 2. */
  ghost function Overlapping(): World {
    Rotated().(group := Group(2, true, Owing().group.devices[1 := Device(true, 2)], map[(2, 0) := Sealed(0, 2, 22)]),
               issued := map[11 := 0, 22 := 1, 33 := 0],
               clients := Rotated().clients[1 := Rotated().clients[1].(until := Some(2))]
                                           [0 := Idle(First()).(draft := Some((1, 11)),
                                               rot := Asked(First(), 3, 33, []))])
  }

  lemma ReachOverlapping() returns (steps: seq<Step>)
    ensures LeadsTo(steps, Overlapping())
  {
    steps := ReachRotated();
    var w1 := Rotated().(group := Overlapping().group, clients := Rotated().clients[1 := Overlapping().clients[1]]);
    assert Revoked(Rotated().group, 1) == w1.group;
    steps := Next(steps, Rotated(), Revoke(1), w1);
    steps := Next(steps, w1, Ask(0, 33, []), Overlapping());
  }

  /** Meanwhile its sync loop adopts epoch 2. */
  ghost function Adopted2(): World {
    Put(Overlapping(), 0, Overlapping().clients[0].(ring := WithEpoch(First(), 2, 22), sync := Stored(2)))
  }

  lemma ReachAdopted2() returns (steps: seq<Step>)
    ensures LeadsTo(steps, Adopted2())
  {
    var box := [Delivery(2, Sealed(0, 2, 22))];
    var w1 := Put(Overlapping(), 0, Overlapping().clients[0].(sync := Polled(First(), box)));
    OneDelivery(0, First(), 2, 22);
    assert box[0].epoch in Epochs(box);
    steps := ReachOverlapping();
    steps := Next(steps, Overlapping(), Poll(0, box), w1);
    steps := Next(steps, w1, StoreKeys(0), Adopted2());
  }

  /** And acknowledges it. */
  ghost function Acknowledged(): World {
    Overlapping().(
      group := Group(2, true, Overlapping().group.devices[0 := Device(false, 2)], map[]),
      clients := Overlapping().clients[0 := Overlapping().clients[0].(ring := WithEpoch(First(), 2, 22))])
  }

  lemma ReachAcknowledged() returns (steps: seq<Step>)
    ensures LeadsTo(steps, Acknowledged())
  {
    steps := ReachAdopted2();
    assert Acked(Adopted2().group, 0, 2) == Acknowledged().group;
    steps := Next(steps, Adopted2(), Ack(0, true), Acknowledged());
  }

  ghost function Approved(): World {
    Put(Acknowledged(), 0, Acknowledged().clients[0].(rot := Checked(First(), 3, 33, [])))
  }

  lemma ReachApproved() returns (steps: seq<Step>)
    ensures LeadsTo(steps, Approved())
  {
    var w1 := Put(Acknowledged(), 0, Acknowledged().clients[0].(rot := Rotation.Admitted(First(), 3, 33, [])));
    steps := ReachAcknowledged();
    steps := Next(steps, Acknowledged(), Admit(0), w1);
    steps := Next(steps, w1, Check(0), Approved());
  }

  /** A device alone in its group rotates for nobody else. */
  lemma WinsAlone(g: Group, d: Id)
    requires g.pending && ActiveIds(g.devices) == {d} && g.devices[d].keyEpoch == g.epoch
    ensures RotateBatch(g, d, g.epoch, []) ==
            Some((g.(epoch := g.epoch + 1, pending := false, devices := g.devices[d := Device(false, g.epoch + 1)]),
                  true))
  {
    assert InsertWraps(g, g.epoch, []) == Some(g);
    forall x | x in g.devices && !g.devices[x].revoked ensures x == d {
      assert x in ActiveIds(g.devices);
    }
  }

  ghost function WonAgain(): World {
    Overwritten().(clients := Approved().clients[0 := Approved().clients[0].(rot := Accepted(First(), 3, 33))])
  }

  lemma ReachWonAgain() returns (steps: seq<Step>)
    ensures LeadsTo(steps, WonAgain())
  {
    steps := ReachApproved();
    WinsAlone(Approved().group, 0);
    assert Approved().group.(epoch := 3, pending := false, devices := Approved().group.devices[0 := Device(false, 3)])
        == WonAgain().group;
    steps := Next(steps, Approved(), Rotate(0), WonAgain());
  }

  ghost function Overwritten(): World {
    Acknowledged().(
      group := Group(3, false, Acknowledged().group.devices[0 := Device(false, 3)], map[]),
      minted := map[1 := 11, 2 := 22, 3 := 33], spent := {11, 22, 33},
      clients := Acknowledged().clients[0 := Idle(WithEpoch(First(), 3, 33)).(draft := Some((1, 11)))])
  }

  lemma ReachOverwritten() returns (steps: seq<Step>)
    ensures LeadsTo(steps, Overwritten())
  {
    steps := ReachWonAgain();
    steps := Next(steps, WonAgain(), Keep(0), Overwritten());
  }

  lemma OverwrittenIsBereft(k: Key)
    ensures Bereft(Overwritten(), 0, 2, k)
  {
  }

  /**
   * A rotation that overlaps an adoption saves a ring without the key just adopted, which the server has
   * already dropped: an active device lacks an epoch it lived through, in every run from then on.
   */
  lemma OverlapLosesKey() returns (steps: seq<Step>, w: World)
    ensures LeadsTo(steps, w) && w.minted == map[1 := 11, 2 := 22, 3 := 33]
    ensures 0 in w.clients && Active(w.group.devices, 0) && w.clients[0].since == 1 && w.stranded == {}
    ensures forall more :: Runs(w, more) ==> 0 in Run(w, more).clients && 2 !in Run(w, more).clients[0].ring.keys
  {
    w := Overwritten();
    steps := ReachOverwritten();
    InitKeeps(0, 11);
    RunKeeps(Init(0, 11), steps);
    forall k ensures Bereft(w, 0, 2, k) {
      OverwrittenIsBereft(k);
    }
    LostForGood(w, 0, 2);
  }

  lemma LostForGood(w: World, d: Id, e: nat)
    requires Inv(w) && forall k :: Bereft(w, d, e, k)
    ensures forall more :: Runs(w, more) ==> d in Run(w, more).clients && e !in Run(w, more).clients[d].ring.keys
  {
    forall more | Runs(w, more) ensures d in Run(w, more).clients && e !in Run(w, more).clients[d].ring.keys {
      BereftForGood(w, more, d, e, 0);
      var ring := Run(w, more).clients[d].ring;
      if e in ring.keys {
        BereftForGood(w, more, d, e, ring.keys[e]);
      }
    }
  }

  // ---------------------------------------------------------------------
  // A loser that passes the check
  // ---------------------------------------------------------------------

  ghost function FirstAsked(): World {
    Owing().(issued := map[11 := 0, 20 := 1],
             clients := Owing().clients[1 := Idle(First()).(rot := Checked(First(), 2, 20, [From(20, 2, 0)]))])
  }

  ghost function Racing(): World {
    FirstAsked().(issued := map[11 := 0, 20 := 1, 21 := 0],
                  clients := FirstAsked().clients[0 := Idle(First()).(draft := Some((1, 11)),
                      rot := Checked(First(), 2, 21, [From(21, 2, 1)]))])
  }

  lemma ReachRacing() returns (steps: seq<Step>)
    ensures LeadsTo(steps, Racing())
  {
    steps := ReachOwing();
    OneRecipient(Owing().group, 1, From(20, 2, 0));
    steps := ReachChecked(steps, Owing(), 1, 20, [From(20, 2, 0)], FirstAsked());
    OneRecipient(FirstAsked().group, 0, From(21, 2, 1));
    steps := ReachChecked(steps, FirstAsked(), 0, 21, [From(21, 2, 1)], Racing());
  }

  ghost function Raced(): World {
    Racing().(group := Group(2, false, Owing().group.devices[1 := Device(false, 2)], map[(2, 0) := Sealed(0, 2, 20)]),
              minted := map[1 := 11, 2 := 20], spent := {11, 20},
              clients := Racing().clients[1 := Idle(First()).(rot := Accepted(First(), 2, 20))])
  }

  lemma ReachRaced() returns (steps: seq<Step>)
    ensures LeadsTo(steps, Raced())
  {
    var g := Owing().group;
    steps := ReachRacing();
    InsertOne(g, 1, From(20, 2, 0));
    assert RotateBatch(g, 1, 1, [From(20, 2, 0)]) == Some((Raced().group, true));
    steps := Next(steps, Racing(), Rotate(1), Raced());
  }

  ghost function Lost(): World {
    Raced().(group := Raced().group.(devices := Raced().group.devices[0 := Device(false, 2)]), spent := {11, 20, 21},
             clients := Raced().clients[0 := Idle(First()).(draft := Some((1, 11)))])
  }

  lemma ReachLost() returns (steps: seq<Step>)
    ensures LeadsTo(steps, Lost())
  {
    var g := Raced().group;
    steps := ReachRaced();
    InsertOne(g, 1, From(21, 2, 1));
    assert RotateBatch(g, 0, 1, [From(21, 2, 1)]) == Some((Lost().group, false));
    steps := Next(steps, Raced(), Rotate(0), Lost());
  }

  /** The loser of a race, once it revokes the winner, passes the check that it has adopted the key it lacks. */
  lemma LoserPassesAdoptionCheck() returns (steps: seq<Step>, w: World)
    ensures LeadsTo(steps, w)
    ensures 0 in w.clients && Admits(w.group, 0, w.group.epoch + 1) && w.group.epoch !in w.clients[0].ring.keys
  {
    w := Lost().(group := Revoked(Lost().group, 1),
        clients := Lost().clients[1 := Lost().clients[1].(until := Some(2))]);
    steps := ReachLost();
    steps := Next(steps, Lost(), Revoke(1), w);
  }
}
