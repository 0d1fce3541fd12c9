/**
 * A device's history of group keys, and adopting the keys the server holds for it:
 * open, store, and only then acknowledge.
 */
module Keyring {
  import opened Basics
  import opened Sorting

  /** A group key. Only equality is ever observed. */
  type Key = nat

  datatype Ring = Ring(current: nat, keys: map<nat, Key>)

  /** A key wrapped for one device under one epoch; nobody else can open it. */
  datatype Sealed = Sealed(to: Id, epoch: nat, key: Key)

  datatype Delivery = Delivery(epoch: nat, sealed: Sealed)

  function CreateKeyring(key: Key, epoch: nat): Ring {
    Ring(epoch, map[epoch := key])
  }

  function WithEpoch(ring: Ring, epoch: nat, key: Key): Ring {
    Ring(Max(ring.current, epoch), ring.keys[epoch := key])
  }

  /** The ring holds the key it encrypts with, and none newer. */
  ghost predicate WellFormed(ring: Ring) {
    ring.current in ring.keys && forall e :: e in ring.keys ==> e <= ring.current
  }

  lemma WithEpochKeeps(ring: Ring, epoch: nat, key: Key)
    requires WellFormed(ring)
    ensures var r := WithEpoch(ring, epoch, key);
            && WellFormed(r) && ring.current <= r.current
            && (r.current == ring.current || r.current == epoch)
            && r.keys.Keys == ring.keys.Keys + {epoch}
  {
  }

  function Unwrap(device: Id, delivery: Delivery): Option<Key> {
    if delivery.sealed.to == device && delivery.sealed.epoch == delivery.epoch
    then Some(delivery.sealed.key) else None
  }

  function EpochOf(delivery: Delivery): int {
    delivery.epoch
  }

  function Epochs(box: seq<Delivery>): set<nat> {
    set i | 0 <= i < |box| :: box[i].epoch
  }

  function Highest(box: seq<Delivery>): nat {
    if box == [] then 0 else Max(Highest(box[..|box| - 1]), box[|box| - 1].epoch)
  }

  lemma HighestBounds(box: seq<Delivery>)
    ensures forall e :: e in Epochs(box) ==> e <= Highest(box)
    ensures Highest(box) == 0 || Highest(box) in Epochs(box)
  {
    if box != [] {
      var init := box[..|box| - 1];
      HighestBounds(init);
      forall e | e in Epochs(box) ensures e <= Highest(box) {
        var i :| 0 <= i < |box| && box[i].epoch == e;
        if i < |init| {
          assert init[i].epoch in Epochs(init);
        }
      }
      if Highest(box) == Highest(init) && Highest(box) != 0 {
        var i :| 0 <= i < |init| && init[i].epoch == Highest(box);
        assert box[i].epoch == Highest(box);
      } else {
        assert box[|box| - 1].epoch in Epochs(box);
      }
    }
  }

  /** Take in deliveries one at a time; an epoch already held is never opened again. */
  function Adopt(device: Id, ring: Ring, box: seq<Delivery>): Option<Ring> {
    if box == [] then Some(ring)
    else
      var before, d := Adopt(device, ring, box[..|box| - 1]), box[|box| - 1];
      if before.None? || d.epoch in before.value.keys then before
      else
        var key := Unwrap(device, d);
        if key.None? then None else Some(WithEpoch(before.value, d.epoch, key.value))
  }

  /** A term for the solver to hang a pair of positions on. */
  ghost predicate Pair(i: int, j: int) {
    true
  }

  ghost predicate OnePerEpoch(box: seq<Delivery>) {
    forall i, j {:trigger Pair(i, j)} ::
      Pair(i, j) && 0 <= i < |box| && 0 <= j < |box| && box[i].epoch == box[j].epoch ==> i == j
  }

  /** Every delivery this device still needs was sealed for it, and for the epoch it comes under. */
  ghost predicate Opens(device: Id, ring: Ring, box: seq<Delivery>) {
    forall i :: 0 <= i < |box| && box[i].epoch !in ring.keys ==>
                  box[i].sealed.to == device && box[i].sealed.epoch == box[i].epoch
  }

  /** The ring after adoption: held keys stay, every delivered epoch is there. */
  ghost predicate Adopted(device: Id, ring: Ring, box: seq<Delivery>, after: Ring) {
    && after.keys.Keys == ring.keys.Keys + Epochs(box)
    && (forall e :: e in ring.keys ==> after.keys[e] == ring.keys[e])
    && (forall i :: 0 <= i < |box| && box[i].epoch !in ring.keys ==> after.keys[box[i].epoch] == box[i].sealed.key)
    && (WellFormed(ring) ==> WellFormed(after) && ring.current <= after.current)
  }

  lemma EpochsAppend(box: seq<Delivery>, d: Delivery)
    ensures Epochs(box + [d]) == Epochs(box) + {d.epoch}
  {
    forall e | e in Epochs(box) + {d.epoch} ensures e in Epochs(box + [d]) {
      if e == d.epoch {
        assert (box + [d])[|box|].epoch == e;
      } else {
        var i :| 0 <= i < |box| && box[i].epoch == e;
        assert (box + [d])[i].epoch == e;
      }
    }
  }

  /** Adoption succeeds exactly when every needed delivery opens, whatever the order they come in. */
  lemma {:induction false} AdoptExact(device: Id, ring: Ring, box: seq<Delivery>)
    requires OnePerEpoch(box)
    ensures Adopt(device, ring, box).Some? <==> Opens(device, ring, box)
    ensures Adopt(device, ring, box).Some? ==> Adopted(device, ring, box, Adopt(device, ring, box).value)
  {
    if box != [] {
      var init, d := box[..|box| - 1], box[|box| - 1];
      AdoptExact(device, ring, init);
      EpochsAppend(init, d);
      assert box == init + [d];
      LastIsNew(box);
      assert Opens(device, ring, box) <==>
        Opens(device, ring, init) && (d.epoch in ring.keys || Unwrap(device, d).Some?) by {
        assert box[|box| - 1] == d;
      }
    }
  }

  lemma SameEpochs(a: seq<Delivery>, b: seq<Delivery>)
    requires multiset(a) == multiset(b)
    ensures Epochs(a) == Epochs(b)
  {
    SameMembers(a, b);
    forall e ensures e in Epochs(a) <==> e in Epochs(b) {
      if e in Epochs(a) {
        var i :| 0 <= i < |a| && a[i].epoch == e;
        assert a[i] in b;
      }
      if e in Epochs(b) {
        var i :| 0 <= i < |b| && b[i].epoch == e;
        assert b[i] in a;
      }
    }
  }

  lemma LastIsNew(box: seq<Delivery>)
    requires OnePerEpoch(box) && box != []
    ensures box[|box| - 1].epoch !in Epochs(box[..|box| - 1])
  {
    var init := box[..|box| - 1];
    forall i | 0 <= i < |init| ensures init[i].epoch != box[|box| - 1].epoch {
      assert Pair(i, |box| - 1) && init[i] == box[i];
    }
  }

  lemma SortedBoxIsSame(box: seq<Delivery>)
    requires OnePerEpoch(box)
    ensures OnePerEpoch(SortBy(EpochOf, box))
    ensures Epochs(SortBy(EpochOf, box)) == Epochs(box)
    ensures forall d :: d in SortBy(EpochOf, box) <==> d in box
  {
    var s := SortBy(EpochOf, box);
    SortByExact(EpochOf, box);
    SameMembers(s, box);
    SameEpochs(s, box);
    forall i, j | 0 <= i < j < |box| ensures EpochOf(box[i]) != EpochOf(box[j]) {
      assert Pair(i, j);
    }
    DistinctPermutes(EpochOf, box, s);
  }
}
