/** The two clients' loops that adopt delivered keys, over the stored ring and the server's table. */
module KeyAdoption {
  import opened Basics
  import opened Sorting
  import opened Keyring
  import opened KeyServer

  /** Where a device keeps its ring between runs. */
  class KeyStore {
    var keyring: Ring

    constructor (ring: Ring)
      ensures keyring == ring
    {
      keyring := ring;
    }
  }

  /**
   * What adopting does in every way it can go: nothing at all when a delivery does not open or the
   * ring cannot be stored; otherwise the ring is stored, and only then may the server drop keys.
   */
  ghost predicate AdoptsSafely(
    device: Id, ring: Ring, box: seq<Delivery>, saves: bool, arrives: bool,
    stored: Ring, stored': Ring, g: Group, g': Group, result: Option<Ring>)
  {
    var after := Adopt(device, ring, SortBy(EpochOf, box));
    if box == [] then result == Some(ring) && stored' == stored && g' == g
    else if after.None? || !saves then result.None? && stored' == stored && g' == g
    else
      && stored' == after.value
      && result == (if arrives || Highest(box) == 0 then after else None)
      && g' == (if arrives && 1 <= Highest(box) <= g.epoch then Acked(g, device, Highest(box)) else g)
  }

  /** One round of either client's loop. */
  method AdoptLoop(device: Id, ring: Ring, sorted: seq<Delivery>) returns (updated: Option<Ring>, highest: nat)
    ensures updated == Adopt(device, ring, sorted)
    ensures updated.Some? ==> highest == Highest(sorted)
  {
    var r := ring;
    highest := 0;
    for i := 0 to |sorted|
      invariant Adopt(device, ring, sorted[..i]) == Some(r)
      invariant highest == Highest(sorted[..i])
    {
      var d := sorted[i];
      assert sorted[..i + 1][..i] == sorted[..i] && sorted[..i + 1][i] == d;
      if d.epoch !in r.keys {
        var key := Unwrap(device, d);
        if key.None? {
          AdoptStops(device, ring, sorted, i + 1);
          return None, highest;
        }
        r := WithEpoch(r, d.epoch, key.value);
      }
      highest := Max(highest, d.epoch);
    }
    assert sorted[..|sorted|] == sorted;
    return Some(r), highest;
  }

  lemma {:induction false} AdoptStops(device: Id, ring: Ring, box: seq<Delivery>, i: nat)
    requires i <= |box| && Adopt(device, ring, box[..i]).None?
    ensures Adopt(device, ring, box).None?
    decreases |box| - i
  {
    if i < |box| {
      assert box[..i + 1][..i] == box[..i];
      AdoptStops(device, ring, box, i + 1);
    } else {
      assert box[..i] == box;
    }
  }

  lemma HighestOfSorted(box: seq<Delivery>)
    ensures Highest(SortBy(EpochOf, box)) == Highest(box)
    ensures SortBy(EpochOf, box) == [] <==> box == []
  {
    var s := SortBy(EpochOf, box);
    SortByExact(EpochOf, box);
    SameEpochs(s, box);
    HighestBounds(s);
    HighestBounds(box);
  }

  /** The reading device: stores the ring, then acknowledges. `None` is an exception. */
  method AdoptPendingKeys(store: KeyStore, table: GroupTable, device: Id, ring: Ring, box: seq<Delivery>, saves: bool,
                          arrives: bool)
    returns (result: Option<Ring>)
    modifies store, table
    ensures AdoptsSafely(device, ring, box, saves, arrives,
                         old(store.keyring), store.keyring, old(table.Now()), table.Now(), result)
  {
    if |box| == 0 {
      return Some(ring);
    }
    var updated, highest := AdoptLoop(device, ring, SortBy(EpochOf, box));
    HighestOfSorted(box);
    if updated.None? || !saves {
      return None;
    }
    store.keyring := updated.value;
    if highest > 0 {
      if !arrives {
        return None;
      }
      var _ := table.AckKey(device, highest);
    }
    return updated;
  }

  /** The send-only device: the same protocol, written to skip a save that would change nothing. */
  method SyncKeys(store: KeyStore, table: GroupTable, device: Id, box: seq<Delivery>, saves: bool, arrives: bool)
    returns (result: Option<Ring>)
    modifies store, table
    ensures var same := Adopt(device, old(store.keyring), SortBy(EpochOf, box)) == Some(old(store.keyring));
            AdoptsSafely(device, old(store.keyring), box, saves || same, arrives,
                         old(store.keyring), store.keyring, old(table.Now()), table.Now(), result)
  {
    var updated, highest := AdoptLoop(device, store.keyring, SortBy(EpochOf, box));
    HighestOfSorted(box);
    if updated.None? {
      return None;
    }
    if updated.value != store.keyring {
      if !saves {
        return None;
      }
      store.keyring := updated.value;
    }
    if highest > 0 {
      if !arrives {
        return None;
      }
      var _ := table.AckKey(device, highest);
    }
    return updated;
  }

  /** What the server may drop: with one key per epoch delivered, everything acknowledged is in the stored ring. */
  lemma StoredBeforeDropped(device: Id, ring: Ring, box: seq<Delivery>, saves: bool, arrives: bool,
                            stored: Ring, stored': Ring, g: Group, g': Group, result: Option<Ring>)
    requires AdoptsSafely(device, ring, box, saves, arrives, stored, stored', g, g', result)
    requires OnePerEpoch(box)
    requires forall p :: p in g.wraps && p.1 == device && p.0 <= Highest(box) ==> p.0 in Epochs(box)
    ensures forall p :: p in g.wraps && p !in g'.wraps ==> p.1 == device && p.0 in stored'.keys
    ensures forall p :: p in g'.wraps ==> p in g.wraps && g'.wraps[p] == g.wraps[p]
  {
    SortedBoxIsSame(box);
    AdoptExact(device, ring, SortBy(EpochOf, box));
  }
}
