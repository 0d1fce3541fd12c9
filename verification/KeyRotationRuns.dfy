/**
 * Key rotation over whole runs: any number of devices poll, adopt, acknowledge, rotate, crash,
 * join and are revoked, one request, one batch or one local save at a time.
 */
module KeyRotationRuns {
  import opened Basics
  import opened Sorting
  import opened Keyring
  import opened KeyServer

  /** A device between reading its mailbox and hearing its acknowledgement. */
  datatype Sync = NoSync | Polled(ring: Ring, box: seq<Delivery>) | Stored(highest: nat)

  /** A device between reading the roster and storing the key it minted. */
  datatype Rotation =
    | NoRotation
    | Asked(ring: Ring, epoch: nat, key: Key, ws: seq<Wrap>)
    | Admitted(ring: Ring, epoch: nat, key: Key, ws: seq<Wrap>)
    | Checked(ring: Ring, epoch: nat, key: Key, ws: seq<Wrap>)
    | Accepted(ring: Ring, epoch: nat, key: Key)

  /**
   * One device, with the key it is wrapping for a newcomer, the epoch it joined at and, once
   * revoked, the epoch it was revoked at.
   */
  datatype Client = Client(
    ring: Ring, sync: Sync, rot: Rotation, draft: Option<(nat, Key)>, since: nat, until: Option<nat>)

  /**
   * `minted` is the key each epoch was given, `issued` who generated a key, `spent` the keys some batch
   * has carried, `offers` the keys the server took for joining devices, and `stranded` the epochs whose
   * winner never heard that it had won.
   */
  datatype World = World(
    group: Group,
    minted: map<nat, Key>,
    issued: map<Key, Id>,
    spent: set<Key>,
    clients: map<Id, Client>,
    offers: set<(nat, Key)>,
    stranded: set<(nat, Id)>)

  datatype Step =
    | Poll(d: Id, box: seq<Delivery>)
    | StoreKeys(d: Id)                       // the adopted ring is saved
    | Ack(d: Id, heard: bool)                // the server drops the rows; the answer may be lost
    | Ask(d: Id, key: Key, ws: seq<Wrap>)    // the roster is read, a key minted and wrapped
    | Admit(d: Id)                           // the route's check of the caller's row
    | Check(d: Id)                           // the route's check of the roster
    | Rotate(d: Id)                          // the route's batch
    | Keep(d: Id)                            // the winner saves its ring
    | Crash(d: Id)                           // or a lost answer, whose retry reads as a conflict
    | Revoke(d: Id)
    | Draft(d: Id)                           // the current key is wrapped for a newcomer
    | Offer(d: Id)                           // the route's check of its epoch
    | Join(d: Id, epoch: nat, key: Key)      // the route's batch

  ghost predicate Lists(wraps: map<(nat, Id), Sealed>, d: Id, box: seq<Delivery>) {
    && OnePerEpoch(box)
    && (forall i :: 0 <= i < |box| ==> (box[i].epoch, d) in wraps && wraps[(box[i].epoch, d)] == box[i].sealed)
    && (forall p {:trigger p in wraps} :: p in wraps && p.1 == d ==> p.0 in Epochs(box))
  }

  ghost predicate SealedFor(ws: seq<Wrap>, epoch: nat, key: Key) {
    forall i :: 0 <= i < |ws| ==> ws[i].sealed == Sealed(ws[i].device, epoch, key)
  }

  /** What the code can do from here. */
  ghost predicate Enabled(w: World, step: Step) {
    match step
    case Poll(d, box) => d in w.clients && w.clients[d].sync.NoSync? && Lists(w.group.wraps, d, box)
    case StoreKeys(d) => d in w.clients && w.clients[d].sync.Polled?
    case Ack(d, _) => d in w.clients && w.clients[d].sync.Stored? && Active(w.group.devices, d)
    case Ask(d, key, ws) =>
      && d in w.clients && w.clients[d].rot.NoRotation?
      && Active(w.group.devices, d) && w.group.pending
      && key !in w.issued && OnePerDevice(ws) && SealedFor(ws, w.group.epoch + 1, key)
    case Admit(d) => d in w.clients && w.clients[d].rot.Asked?
    case Check(d) => d in w.clients && w.clients[d].rot.Admitted?
    case Rotate(d) => d in w.clients && w.clients[d].rot.Checked? && 0 < w.clients[d].rot.epoch
    case Keep(d) => d in w.clients && w.clients[d].rot.Accepted?
    case Crash(d) => d in w.clients
    case Revoke(d) => d in w.clients && Active(w.group.devices, d)
    case Draft(d) => d in w.clients && w.clients[d].ring.current in w.clients[d].ring.keys
    case Offer(d) => d in w.clients && w.clients[d].draft.Some? && Active(w.group.devices, d)
    case Join(d, epoch, key) => d !in w.clients && (epoch, key) in w.offers
  }

  function AfterStore(d: Id, c: Client): Client
    requires c.sync.Polled?
  {
    var after := Adopt(d, c.sync.ring, SortBy(EpochOf, c.sync.box));
    if c.sync.box == [] || after.None? then c.(sync := NoSync)
    else c.(ring := after.value, sync := Stored(Highest(c.sync.box)))
  }

  function AfterKeep(c: Client): Client
    requires c.rot.Accepted?
  {
    c.(ring := WithEpoch(c.rot.ring, c.rot.epoch, c.rot.key), rot := NoRotation)
  }

  /** The batch of this device's request, run now. */
  ghost function Batch(w: World, d: Id): Option<(Group, bool)>
    requires Enabled(w, Rotate(d))
  {
    RotateBatch(w.group, d, w.clients[d].rot.epoch - 1, w.clients[d].rot.ws)
  }

  /** The batch is accepted. */
  ghost predicate Wins(w: World, d: Id)
    requires Enabled(w, Rotate(d))
  {
    Batch(w, d).Some? && Batch(w, d).value.1
  }

  ghost function DoRotate(w: World, d: Id): World
    requires Enabled(w, Rotate(d))
  {
    var c := w.clients[d];
    var r := Batch(w, d);
    var won := Wins(w, d);
    w.(group := if r.None? then w.group else r.value.0,
       minted := if won then w.minted[c.rot.epoch := c.rot.key] else w.minted,
       spent := w.spent + {c.rot.key},
       clients := w.clients[d := c.(rot := if won then Accepted(c.rot.ring, c.rot.epoch, c.rot.key) else NoRotation)])
  }

  ghost function Put(w: World, d: Id, c: Client): World {
    w.(clients := w.clients[d := c])
  }

  ghost function Do(w: World, step: Step): World
    requires Enabled(w, step)
  {
    match step
    case Poll(d, box) => Put(w, d, w.clients[d].(sync := Polled(w.clients[d].ring, box)))
    case StoreKeys(d) => Put(w, d, AfterStore(d, w.clients[d]))
    case Ack(d, heard) =>
      var c := w.clients[d];
      var h := c.sync.highest;
      w.(group := if 1 <= h <= w.group.epoch then Acked(w.group, d, h) else w.group,
         clients := w.clients[d := if heard then c.(sync := NoSync) else c])
    case Ask(d, key, ws) =>
      var c := w.clients[d];
      w.(issued := w.issued[key := d],
         clients := w.clients[d := c.(rot := Asked(c.ring, w.group.epoch + 1, key, ws))])
    case Admit(d) =>
      var rot := w.clients[d].rot;
      var next := if Admits(w.group, d, rot.epoch) then Rotation.Admitted(rot.ring, rot.epoch, rot.key, rot.ws)
          else NoRotation;
      Put(w, d, w.clients[d].(rot := next))
    case Check(d) =>
      var rot := w.clients[d].rot;
      var next := if NamesRoster(w.group, d, rot.ws) then Checked(rot.ring, rot.epoch, rot.key, rot.ws) else NoRotation;
      Put(w, d, w.clients[d].(rot := next))
    case Rotate(d) => DoRotate(w, d)
    case Keep(d) => Put(w, d, AfterKeep(w.clients[d]))
    case Crash(d) =>
      var c := w.clients[d];
      w.(clients := w.clients[d := c.(sync := NoSync, rot := NoRotation, draft := None)],
         stranded := if c.rot.Accepted? then w.stranded + {(c.rot.epoch, d)} else w.stranded)
    case Revoke(d) =>
      w.(group := Revoked(w.group, d), clients := w.clients[d := w.clients[d].(until := Some(w.group.epoch))])
    case Draft(d) =>
      var c := w.clients[d];
      Put(w, d, c.(draft := Some((c.ring.current, c.ring.keys[c.ring.current]))))
    case Offer(d) =>
      var o := w.clients[d].draft.value;
      if o.0 == w.group.epoch then w.(offers := w.offers + {o}) else w
    case Join(d, epoch, key) =>
      if w.group.epoch != epoch then w
      else
        w.(group := Joined(w.group, d, epoch),
           clients := w.clients[d := Client(CreateKeyring(key, epoch), NoSync, NoRotation, None, epoch, None)])
  }

  /** A space at its creation, with its one device. */
  ghost function Init(creator: Id, key: Key): World {
    World(
      Group(1, false, map[creator := Device(false, 1)], map[]),
      map[1 := key], map[key := creator], {key},
      map[creator := Client(CreateKeyring(key, 1), NoSync, NoRotation, None, 1, None)],
      {}, {})
  }

  // ---------------------------------------------------------------------
  // Where a key can be, and where it can come from
  // ---------------------------------------------------------------------

  ghost predicate Holds(ring: Ring, e: nat, k: Key) {
    e in ring.keys && ring.keys[e] == k
  }

  ghost predicate InBox(box: seq<Delivery>, e: nat, k: Key) {
    exists i :: 0 <= i < |box| && box[i].epoch == e && box[i].sealed.key == k
  }

  /** The device has `k` as the key of epoch `e`: in its ring, or in something it may still save. */
  ghost predicate Copy(c: Client, e: nat, k: Key) {
    || Holds(c.ring, e, k)
    || (c.sync.Polled? && (Holds(c.sync.ring, e, k) || InBox(c.sync.box, e, k)))
    || (!c.rot.NoRotation? && Holds(c.rot.ring, e, k))
    || (c.rot.Accepted? && c.rot.epoch == e && c.rot.key == k)
    || c.draft == Some((e, k))
  }

  /** `k` waits on the server for device `d` as the key of epoch `e`. */
  ghost predicate Waits(wraps: map<(nat, Id), Sealed>, d: Id, e: nat, k: Key) {
    (e, d) in wraps && wraps[(e, d)].key == k
  }

  lemma {:induction false} AdoptBrings(d: Id, ring: Ring, box: seq<Delivery>, e: nat, k: Key)
    requires Adopt(d, ring, box).Some? && Holds(Adopt(d, ring, box).value, e, k)
    ensures Holds(ring, e, k) || InBox(box, e, k)
  {
    if box != [] {
      var init, last := box[..|box| - 1], box[|box| - 1];
      var before := Adopt(d, ring, init).value;
      if Holds(before, e, k) {
        AdoptBrings(d, ring, init, e, k);
        if InBox(init, e, k) {
          var i :| 0 <= i < |init| && init[i].epoch == e && init[i].sealed.key == k;
          assert box[i] == init[i];
        }
      } else {
        assert last.epoch == e && last.sealed.key == k;
      }
    }
  }

  lemma StoreBrings(d: Id, c: Client, e: nat, k: Key)
    requires c.sync.Polled? && Copy(AfterStore(d, c), e, k)
    ensures Copy(c, e, k)
  {
    var s := SortBy(EpochOf, c.sync.box);
    var after := Adopt(d, c.sync.ring, s);
    if c.sync.box != [] && after.Some? && Holds(after.value, e, k) {
      AdoptBrings(d, c.sync.ring, s, e, k);
      SortByExact(EpochOf, c.sync.box);
      SameMembers(s, c.sync.box);
      if InBox(s, e, k) {
        var i :| 0 <= i < |s| && s[i].epoch == e && s[i].sealed.key == k;
        assert s[i] in c.sync.box;
      }
    }
  }

  /** Every way a device comes by a key: it had it, it was sent it, it minted it, or it joined with it. */
  lemma Flow(w: World, step: Step, x: Id, e: nat, k: Key)
    requires Enabled(w, step) && x in Do(w, step).clients && Copy(Do(w, step).clients[x], e, k)
    ensures
      || (x in w.clients && Copy(w.clients[x], e, k))
      || (step.Poll? && step.d == x && Waits(w.group.wraps, x, e, k))
      || (step.Rotate? && step.d == x && Wins(w, x) && w.clients[x].rot.epoch == e && w.clients[x].rot.key == k)
      || (step.Join? && step.d == x && x !in w.clients && e == step.epoch == w.group.epoch && k == step.key)
  {
    if step.StoreKeys? && step.d == x {
      StoreBrings(x, w.clients[x], e, k);
    } else if step.Poll? && step.d == x && InBox(step.box, e, k) {
      var i :| 0 <= i < |step.box| && step.box[i].epoch == e && step.box[i].sealed.key == k;
      assert (step.box[i].epoch, x) in w.group.wraps;
    }
  }

  // ---------------------------------------------------------------------
  // The invariant of every run
  // ---------------------------------------------------------------------

  /** A term for the solver to hang a pair of epochs on. */
  ghost predicate Compare(e: nat, f: nat) {
    true
  }

  ghost predicate Ledger(epoch: nat, minted: map<nat, Key>, issued: map<Key, Id>, spent: set<Key>) {
    && 1 <= epoch
    && (forall e :: e in minted <==> 1 <= e <= epoch)
    && (forall e :: e in minted ==> minted[e] in spent)
    && (forall e, f {:trigger Compare(e, f)} ::
          Compare(e, f) && e in minted && f in minted && minted[e] == minted[f] ==> e == f)
    && (forall k :: k in spent ==> k in issued)
  }

  ghost predicate MailOk(g: Group, spent: set<Key>) {
    forall p {:trigger p in g.wraps} :: p in g.wraps ==>
      && 1 <= p.0 <= g.epoch + 1 && Active(g.devices, p.1)
      && g.wraps[p] == Sealed(p.1, p.0, g.wraps[p].key) && g.wraps[p].key in spent
  }

  ghost predicate OffersOk(epoch: nat, offers: set<(nat, Key)>, spent: set<Key>) {
    forall o {:trigger o in offers} :: o in offers ==> 1 <= o.0 <= epoch && o.1 in spent
  }

  /** The last epoch of the group while the device was in it. */
  function Cap(c: Client, epoch: nat): nat {
    c.until.GetOr(epoch)
  }

  ghost predicate Enrolled(d: Id, c: Client, g: Group) {
    && d in g.devices && g.devices[d].revoked == c.until.Some? && g.devices[d].keyEpoch <= g.epoch + 1
    && 1 <= c.since && Cap(c, g.epoch) <= g.epoch
  }

  ghost predicate SyncOk(d: Id, sync: Sync, g: Group) {
    sync.Polled? ==>
      && WellFormed(sync.ring) && OnePerEpoch(sync.box) && Highest(sync.box) <= g.epoch + 1
      && (forall i :: 0 <= i < |sync.box| ==>
            1 <= sync.box[i].epoch && sync.box[i].sealed == Sealed(d, sync.box[i].epoch, sync.box[i].sealed.key))
      && (forall p {:trigger p in g.wraps} :: p in g.wraps && p.1 == d && p.0 <= Highest(sync.box) ==>
          p.0 in Epochs(sync.box))
  }

  ghost predicate Due(g: Group, d: Id, epoch: nat) {
    epoch == g.epoch + 1 ==> g.pending && d in g.devices && g.epoch <= g.devices[d].keyEpoch
  }

  ghost predicate RotOk(d: Id, rot: Rotation, g: Group, minted: map<nat, Key>, issued: map<Key, Id>, spent: set<Key>) {
    && (!rot.NoRotation? ==> WellFormed(rot.ring))
    && (rot.Asked? || rot.Admitted? || rot.Checked? ==>
          && 2 <= rot.epoch <= g.epoch + 1
          && rot.key in issued && issued[rot.key] == d && rot.key !in spent
          && OnePerDevice(rot.ws) && SealedFor(rot.ws, rot.epoch, rot.key))
    && (rot.Admitted? || rot.Checked? ==> Due(g, d, rot.epoch))
    && (rot.Checked? ==> d !in Devices(rot.ws))
    && (rot.Accepted? ==> rot.epoch in minted && minted[rot.epoch] == rot.key)
  }

  /** A key a device has was in some batch; one for an epoch still to come is also waiting for it. */
  ghost predicate CopyOk(d: Id, c: Client, g: Group, minted: map<nat, Key>, spent: set<Key>, e: nat, k: Key) {
    && 1 <= e <= Cap(c, g.epoch) + 1 && k in spent
    && (c.until.None? && e == g.epoch + 1 ==> Waits(g.wraps, d, e, k))
    && (forall f :: f in minted && Cap(c, g.epoch) < f ==> minted[f] != k)
  }

  ghost predicate CopiesOk(d: Id, c: Client, g: Group, minted: map<nat, Key>, spent: set<Key>) {
    forall e: nat, k: Key :: Copy(c, e, k) ==> CopyOk(d, c, g, minted, spent, e, k)
  }

  ghost predicate Sound(d: Id, c: Client, g: Group, minted: map<nat, Key>, issued: map<Key, Id>, spent: set<Key>) {
    && Enrolled(d, c, g) && WellFormed(c.ring)
    && SyncOk(d, c.sync, g) && RotOk(d, c.rot, g, minted, issued, spent)
    && CopiesOk(d, c, g, minted, spent)
  }

  ghost predicate ClientsOk(w: World) {
    && (forall d :: d in w.group.devices ==> d in w.clients)
    && (forall d :: d in w.clients ==> Sound(d, w.clients[d], w.group, w.minted, w.issued, w.spent))
  }

  ghost predicate Inv(w: World) {
    && Ledger(w.group.epoch, w.minted, w.issued, w.spent)
    && MailOk(w.group, w.spent) && OffersOk(w.group.epoch, w.offers, w.spent)
    && ClientsOk(w)
  }

  // ---------------------------------------------------------------------
  // What a change of the server leaves alone
  // ---------------------------------------------------------------------

  ghost predicate Extends<K(!new), V>(m: map<K, V>, m': map<K, V>) {
    forall k :: k in m ==> k in m' && m'[k] == m[k]
  }

  /** From device `d`'s side: its rows stay, new ones are for the next epoch, and new keys are not its own. */
  ghost predicate Moves(d: Id, g: Group, g': Group) {
    && (g'.epoch == g.epoch || g'.epoch == g.epoch + 1)
    && (forall p {:trigger p in g'.wraps} :: p in g'.wraps && p.1 == d ==> p in g.wraps || p.0 == g.epoch + 1)
    && (forall p {:trigger p in g.wraps} :: p in g.wraps && p.1 == d ==> p in g'.wraps && g'.wraps[p] == g.wraps[p])
    && (g'.epoch == g.epoch && g.pending ==> g'.pending)
    && (d in g.devices ==>
          && d in g'.devices && g'.devices[d].revoked == g.devices[d].revoked
          && g.devices[d].keyEpoch <= g'.devices[d].keyEpoch <= g'.epoch + 1)
  }

  ghost predicate Grows(d: Id, minted: map<nat, Key>, minted': map<nat, Key>, issued: map<Key, Id>,
                        issued': map<Key, Id>, 
                        spent: set<Key>, spent': set<Key>)
  {
    && Extends(minted, minted') && Extends(issued, issued') && spent <= spent'
    && (forall e :: e in minted' && e !in minted ==> minted'[e] !in spent)
    && (forall k :: k in spent' && k !in spent && k in issued ==> issued[k] != d)
  }

  lemma ClientUnmoved(d: Id, c: Client, g: Group, g': Group, minted: map<nat, Key>, minted': map<nat, Key>,
                      issued: map<Key, Id>, issued': map<Key, Id>, spent: set<Key>, spent': set<Key>)
    requires Sound(d, c, g, minted, issued, spent)
    requires Moves(d, g, g') && Grows(d, minted, minted', issued, issued', spent, spent')
    ensures Sound(d, c, g', minted', issued', spent')
  {
    if c.sync.Polled? {
      HighestBounds(c.sync.box);
    }
    forall e: nat, k: Key | Copy(c, e, k) ensures CopyOk(d, c, g', minted', spent', e, k) {
      assert CopyOk(d, c, g, minted, spent, e, k);
      assert (e, d).1 == d;
    }
  }

  // ---------------------------------------------------------------------
  // One step
  // ---------------------------------------------------------------------

  ghost predicate Alone(w: World, w': World, d: Id) {
    && (forall k :: k in w.clients && k != d ==> k in w'.clients && w'.clients[k] == w.clients[k])
    && (forall k :: k in w'.clients ==> k in w.clients || k == d)
    && (forall k :: k in w'.group.devices ==> k in w'.clients)
  }

  ghost predicate Carries(w: World, w': World, k: Id) {
    Moves(k, w.group, w'.group) && Grows(k, w.minted, w'.minted, w.issued, w'.issued, w.spent, w'.spent)
  }

  ghost predicate OthersCarry(w: World, w': World, d: Id) {
    forall k :: k in w.clients && k != d ==> Carries(w, w', k)
  }

  ghost predicate AllEnrolled(w: World) {
    forall k :: k in w.clients ==> Enrolled(k, w.clients[k], w.group)
  }

  lemma Enrolment(w: World)
    requires ClientsOk(w)
    ensures AllEnrolled(w)
  {
  }

  /** A step of one device: the others only see the server move. */
  lemma ClientsCarry(w: World, w': World, d: Id)
    requires ClientsOk(w) && Alone(w, w', d) && OthersCarry(w, w', d)
    requires d in w'.clients ==> Sound(d, w'.clients[d], w'.group, w'.minted, w'.issued, w'.spent)
    ensures ClientsOk(w')
  {
    forall k | k in w'.clients && k != d
      ensures Sound(k, w'.clients[k], w'.group, w'.minted, w'.issued, w'.spent)
    {
      assert Carries(w, w', k);
      ClientUnmoved(k, w.clients[k], w.group, w'.group, w.minted, w'.minted, w.issued, w'.issued, w.spent, w'.spent);
    }
  }

  /** A device that changes only its own state, and has no key it had not or was not being sent. */
  lemma LocalStep(w: World, d: Id, c: Client)
    requires Inv(w) && d in w.clients
    requires c.since == w.clients[d].since && c.until == w.clients[d].until && WellFormed(c.ring)
    requires SyncOk(d, c.sync, w.group) && RotOk(d, c.rot, w.group, w.minted, w.issued, w.spent)
    requires forall e: nat, k: Key :: Copy(c, e, k) ==> Copy(w.clients[d], e, k) || Waits(w.group.wraps, d, e, k)
    ensures Inv(Put(w, d, c))
  {
    var was := w.clients[d];
    assert Sound(d, was, w.group, w.minted, w.issued, w.spent);
    forall e: nat, k: Key | Copy(c, e, k) ensures CopyOk(d, c, w.group, w.minted, w.spent, e, k) {
      if Copy(was, e, k) {
        assert CopyOk(d, was, w.group, w.minted, w.spent, e, k);
      } else {
        assert (e, d) in w.group.wraps;
      }
    }
  }

  lemma PollKeeps(w: World, d: Id, box: seq<Delivery>)
    requires Inv(w) && Enabled(w, Poll(d, box))
    ensures Inv(Do(w, Poll(d, box)))
  {
    var c := w.clients[d];
    var c' := c.(sync := Polled(c.ring, box));
    assert Sound(d, c, w.group, w.minted, w.issued, w.spent);
    PolledBox(d, box, w.group, w.spent);
    forall e: nat, k: Key | Copy(c', e, k) ensures Copy(c, e, k) || Waits(w.group.wraps, d, e, k) {
      Flow(w, Poll(d, box), d, e, k);
    }
    LocalStep(w, d, c');
  }

  lemma PolledBox(d: Id, box: seq<Delivery>, g: Group, spent: set<Key>)
    requires MailOk(g, spent) && Lists(g.wraps, d, box)
    ensures Highest(box) <= g.epoch + 1
    ensures forall i :: 0 <= i < |box| ==>
          1 <= box[i].epoch && box[i].sealed == Sealed(d, box[i].epoch, box[i].sealed.key)
    ensures forall p {:trigger p in g.wraps} :: p in g.wraps && p.1 == d && p.0 <= Highest(box) ==> p.0 in Epochs(box)
  {
    HighestBounds(box);
    forall i | 0 <= i < |box|
      ensures 1 <= box[i].epoch <= g.epoch + 1 && box[i].sealed == Sealed(d, box[i].epoch, box[i].sealed.key)
    {
      assert (box[i].epoch, d) in g.wraps;
    }
  }

  /** What adopting the polled box saves: the ring it started from, and every epoch delivered. */
  lemma StoredRing(d: Id, c: Client, g: Group)
    requires c.sync.Polled? && WellFormed(c.ring) && SyncOk(d, c.sync, g)
    ensures var c' := AfterStore(d, c);
            && WellFormed(c'.ring) && !c'.sync.Polled?
            && c' == c.(ring := c'.ring, sync := c'.sync)
            && (c.sync.box == [] ==> c' == c.(sync := NoSync))
            && (c.sync.box != [] ==>
                  && c'.sync == Stored(Highest(c.sync.box)) && Highest(c.sync.box) in Epochs(c.sync.box)
                  && c'.ring.keys.Keys == c.sync.ring.keys.Keys + Epochs(c.sync.box)
                  && c.sync.ring.current <= c'.ring.current
                  && Extends(c.sync.ring.keys, c'.ring.keys))
  {
    var box := c.sync.box;
    var s := SortBy(EpochOf, box);
    SortedBoxIsSame(box);
    AdoptExact(d, c.sync.ring, s);
    HighestBounds(box);
    assert forall i :: 0 <= i < |s| ==> s[i] in box;
    if box != [] {
      assert box[0].epoch in Epochs(box);
    }
  }

  lemma StoreKeeps(w: World, d: Id)
    requires Inv(w) && Enabled(w, StoreKeys(d))
    ensures Inv(Do(w, StoreKeys(d)))
  {
    var c := w.clients[d];
    assert Sound(d, c, w.group, w.minted, w.issued, w.spent);
    StoredRing(d, c, w.group);
    forall e: nat, k: Key | Copy(AfterStore(d, c), e, k) ensures Copy(c, e, k) {
      StoreBrings(d, c, e, k);
    }
    LocalStep(w, d, AfterStore(d, c));
  }

  lemma KeepKeeps(w: World, d: Id)
    requires Inv(w) && Enabled(w, Keep(d))
    ensures Inv(Do(w, Keep(d)))
  {
    var c := w.clients[d];
    assert Sound(d, c, w.group, w.minted, w.issued, w.spent);
    WithEpochKeeps(c.rot.ring, c.rot.epoch, c.rot.key);
    LocalStep(w, d, AfterKeep(c));
  }

  lemma CheckKeeps(w: World, step: Step)
    requires (step.Admit? || step.Check? || step.Draft?) && Inv(w) && Enabled(w, step)
    ensures Inv(Do(w, step))
  {
    assert Sound(step.d, w.clients[step.d], w.group, w.minted, w.issued, w.spent);
    LocalStep(w, step.d, Do(w, step).clients[step.d]);
  }

  lemma CrashKeeps(w: World, d: Id)
    requires Inv(w) && Enabled(w, Crash(d))
    ensures Inv(Do(w, Crash(d)))
  {
    var c := w.clients[d];
    assert Sound(d, c, w.group, w.minted, w.issued, w.spent);
    LocalStep(w, d, c.(sync := NoSync, rot := NoRotation, draft := None));
  }

  lemma OfferKeeps(w: World, d: Id)
    requires Inv(w) && Enabled(w, Offer(d))
    ensures Inv(Do(w, Offer(d)))
  {
    var c := w.clients[d];
    assert Sound(d, c, w.group, w.minted, w.issued, w.spent);
    assert Copy(c, c.draft.value.0, c.draft.value.1);
  }

  lemma AskKeeps(w: World, d: Id, key: Key, ws: seq<Wrap>)
    requires Inv(w) && Enabled(w, Ask(d, key, ws))
    ensures Inv(Do(w, Ask(d, key, ws)))
  {
    var w' := Do(w, Ask(d, key, ws));
    var mid := w.(issued := w'.issued);
    Enrolment(w);
    forall k | k in w.clients ensures Carries(w, mid, k) {
    }
    assert Carries(w, mid, d);
    ClientUnmoved(d, w.clients[d], w.group, w.group, w.minted, w.minted, w.issued, mid.issued, w.spent, w.spent);
    ClientsCarry(w, mid, d);
    LocalStep(mid, d, w'.clients[d]);
  }

  lemma AckedClient(d: Id, c: Client, g: Group, minted: map<nat, Key>, issued: map<Key, Id>, spent: set<Key>, h: nat)
    requires Sound(d, c, g, minted, issued, spent) && c.sync.Stored? && 1 <= h <= g.epoch
    ensures Sound(d, c, Acked(g, d, h), minted, issued, spent)
    ensures Sound(d, c.(sync := NoSync), Acked(g, d, h), minted, issued, spent)
  {
    var g' := Acked(g, d, h);
    forall e: nat, k: Key | Copy(c, e, k) ensures CopyOk(d, c, g', minted, spent, e, k) {
      assert CopyOk(d, c, g, minted, spent, e, k);
    }
    forall e: nat, k: Key | Copy(c.(sync := NoSync), e, k)
      ensures CopyOk(d, c.(sync := NoSync), g', minted, spent, e, k)
    {
      assert Copy(c, e, k);
    }
  }

  lemma AckCarries(w: World, w': World, d: Id, h: nat)
    requires AllEnrolled(w) && w' == w.(group := Acked(w.group, d, h), clients := w'.clients)
    ensures OthersCarry(w, w', d)
  {
  }

  lemma AckedMail(g: Group, spent: set<Key>, d: Id, h: nat)
    requires MailOk(g, spent)
    ensures MailOk(Acked(g, d, h), spent)
  {
  }

  lemma AckClients(w: World, w': World, d: Id, h: nat)
    requires ClientsOk(w) && d in w.clients && w.clients[d].sync.Stored? && 1 <= h <= w.group.epoch
    requires w' == w.(group := Acked(w.group, d, h), clients := w'.clients)
    requires w'.clients == w.clients || w'.clients == w.clients[d := w.clients[d].(sync := NoSync)]
    requires Ledger(w.group.epoch, w.minted, w.issued, w.spent)
    ensures ClientsOk(w')
  {
    AckedClient(d, w.clients[d], w.group, w.minted, w.issued, w.spent, h);
    Enrolment(w);
    AckCarries(w, w', d, h);
    ClientsCarry(w, w', d);
  }

  lemma AckKeeps(w: World, d: Id, heard: bool)
    requires Inv(w) && Enabled(w, Ack(d, heard))
    ensures Inv(Do(w, Ack(d, heard)))
  {
    var w' := Do(w, Ack(d, heard));
    var c := w.clients[d];
    var h := c.sync.highest;
    assert w.clients[d := c] == w.clients;
    if 1 <= h <= w.group.epoch {
      AckedMail(w.group, w.spent, d, h);
      AckClients(w, w', d, h);
    } else {
      assert Sound(d, c, w.group, w.minted, w.issued, w.spent);
      LocalStep(w, d, c.(sync := NoSync));
    }
  }

  lemma RevokedClient(d: Id, c: Client, g: Group, minted: map<nat, Key>, issued: map<Key, Id>, spent: set<Key>)
    requires Sound(d, c, g, minted, issued, spent) && c.until.None? && forall e :: e in minted ==> e <= g.epoch
    ensures Sound(d, c.(until := Some(g.epoch)), Revoked(g, d), minted, issued, spent)
  {
    var c' := c.(until := Some(g.epoch));
    forall e: nat, k: Key | Copy(c', e, k) ensures CopyOk(d, c', Revoked(g, d), minted, spent, e, k) {
      assert Copy(c, e, k);
    }
  }

  lemma RevokeCarries(w: World, w': World, d: Id)
    requires AllEnrolled(w) && w' == w.(group := Revoked(w.group, d), clients := w'.clients)
    ensures OthersCarry(w, w', d)
  {
  }

  lemma RevokeKeeps(w: World, d: Id)
    requires Inv(w) && Enabled(w, Revoke(d))
    ensures Inv(Do(w, Revoke(d)))
  {
    var w' := Do(w, Revoke(d));
    var c := w.clients[d];
    assert Sound(d, c, w.group, w.minted, w.issued, w.spent);
    RevokedClient(d, c, w.group, w.minted, w.issued, w.spent);
    Enrolment(w);
    RevokeCarries(w, w', d);
    ClientsCarry(w, w', d);
  }

  lemma NewClient(d: Id, epoch: nat, key: Key, g: Group, minted: map<nat, Key>, issued: map<Key, Id>, spent: set<Key>)
    requires 1 <= epoch == g.epoch && key in spent && forall e :: e in minted ==> e <= g.epoch
    ensures Sound(d, Client(CreateKeyring(key, epoch), NoSync, NoRotation, None, epoch, None), Joined(g, d, epoch),
        minted, issued, spent)
  {
  }

  lemma JoinCarries(w: World, w': World, d: Id, epoch: nat)
    requires AllEnrolled(w) && w' == w.(group := Joined(w.group, d, epoch), clients := w'.clients)
    ensures OthersCarry(w, w', d)
  {
  }

  lemma JoinKeeps(w: World, d: Id, epoch: nat, key: Key)
    requires Inv(w) && Enabled(w, Join(d, epoch, key))
    ensures Inv(Do(w, Join(d, epoch, key)))
  {
    if w.group.epoch == epoch {
      var w' := Do(w, Join(d, epoch, key));
      assert (epoch, key) in w.offers;
      NewClient(d, epoch, key, w.group, w.minted, w.issued, w.spent);
      Enrolment(w);
      JoinCarries(w, w', d, epoch);
      ClientsCarry(w, w', d);
    }
  }

  // ---------------------------------------------------------------------
  // The batch
  // ---------------------------------------------------------------------

  /** What a rotation batch does to the group, accepted or not. */
  ghost predicate Batched(g: Group, g': Group, d: Id, epoch: nat, key: Key, won: bool) {
    && (forall p {:trigger p in g.wraps} :: p in g.wraps ==> p in g'.wraps && g'.wraps[p] == g.wraps[p])
    && (forall p {:trigger p in g'.wraps} :: p in g'.wraps && p !in g.wraps ==>
          p.0 == epoch == g.epoch + 1 && Active(g.devices, p.1) && g'.wraps[p] == Sealed(p.1, epoch, key))
    && (g'.devices == g.devices
        || (Active(g.devices, d) && g.devices[d].keyEpoch <= epoch
            && g'.devices == g.devices[d := Device(false, epoch)]))
    && (won ==>
          && g'.epoch == epoch == g.epoch + 1 && Active(g.devices, d)
          && (forall x :: Active(g.devices, x) && x != d ==> (epoch, x) in g'.wraps))
    && (!won ==> g'.epoch == g.epoch && g'.pending == g.pending)
  }

  lemma DepositedRows(g: Group, g': Group, d: Id, epoch: nat, key: Key, ws: seq<Wrap>)
    requires SealedFor(ws, epoch, key) && Deposits(g.wraps, g'.wraps, epoch, Reached(g, ws), ws)
    ensures forall p {:trigger p in g'.wraps} :: p in g'.wraps && p !in g.wraps ==>
              p.0 == epoch && Active(g.devices, p.1) && g'.wraps[p] == Sealed(p.1, epoch, key)
    ensures epoch == g.epoch + 1 && RosterHeld(g, d, g.epoch, ws) ==>
              forall x :: Active(g.devices, x) && x != d ==> (epoch, x) in g'.wraps
  {
    forall p | p in g'.wraps && p !in g.wraps
      ensures p.0 == epoch && Active(g.devices, p.1) && g'.wraps[p] == Sealed(p.1, epoch, key)
    {
      var i :| 0 <= i < |ws| && ws[i].device == p.1;
      assert (epoch, ws[i].device) == p;
    }
    if epoch == g.epoch + 1 && RosterHeld(g, d, g.epoch, ws) {
      forall x | Active(g.devices, x) && x != d ensures (epoch, x) in g'.wraps {
        assert x in Devices(ws) || (epoch, x) in g.wraps;
        assert x in ActiveIds(g.devices);
      }
    }
  }

  lemma BatchParts(g: Group, d: Id, epoch: nat, ws: seq<Wrap>)
    requires 1 <= epoch && OnePerDevice(ws) && RotateBatch(g, d, epoch - 1, ws).Some?
    ensures var g' := RotateBatch(g, d, epoch - 1, ws).value.0;
            && (g'.devices == g.devices
                || (Active(g.devices, d) && g.devices[d].keyEpoch < epoch
                    && g'.devices == g.devices[d := Device(false, epoch)]))
            && (g.epoch == epoch - 1 ==> Deposits(g.wraps, g'.wraps, epoch, Reached(g, ws), ws))
            && (g.epoch != epoch - 1 ==> g'.wraps == g.wraps)
            && (!RotateBatch(g, d, epoch - 1, ws).value.1 ==> g'.epoch == g.epoch && g'.pending == g.pending)
  {
    InsertWrapsExact(g, epoch - 1, ws);
  }

  lemma BatchEffect(g: Group, d: Id, epoch: nat, key: Key, ws: seq<Wrap>)
    requires 1 <= epoch && OnePerDevice(ws) && SealedFor(ws, epoch, key)
    ensures var r := RotateBatch(g, d, epoch - 1, ws);
            Batched(g, if r.None? then g else r.value.0, d, epoch, key, r.Some? && r.value.1)
  {
    RotationExact(g, d, epoch - 1, ws);
    var r := RotateBatch(g, d, epoch - 1, ws);
    if r.Some? {
      BatchParts(g, d, epoch, ws);
      if g.epoch == epoch - 1 {
        DepositedRows(g, r.value.0, d, epoch, key, ws);
      }
    }
  }

  lemma BatchMoves(g: Group, g': Group, d: Id, epoch: nat, key: Key, won: bool, k: Id)
    requires Batched(g, g', d, epoch, key, won) && epoch <= g.epoch + 1
    requires k in g.devices ==> g.devices[k].keyEpoch <= g.epoch + 1
    ensures Moves(k, g, g')
  {
  }

  lemma BatchMail(g: Group, g': Group, d: Id, epoch: nat, key: Key, won: bool, spent: set<Key>)
    requires MailOk(g, spent) && Batched(g, g', d, epoch, key, won)
    ensures MailOk(g', spent + {key})
  {
  }

  lemma BatchClient(d: Id, c: Client, c': Client, g: Group, g': Group, minted: map<nat, Key>, minted': map<nat, Key>,
                    issued: map<Key, Id>, spent: set<Key>, won: bool)
    requires Sound(d, c, g, minted, issued, spent) && c.rot.Checked?
    requires Batched(g, g', d, c.rot.epoch, c.rot.key, won)
    requires forall e :: e in minted ==> 1 <= e <= g.epoch
    requires minted' == if won then minted[c.rot.epoch := c.rot.key] else minted
    requires c' == c.(rot := if won then Accepted(c.rot.ring, c.rot.epoch, c.rot.key) else NoRotation)
    ensures Sound(d, c', g', minted', issued, spent + {c.rot.key})
  {
    BatchMoves(g, g', d, c.rot.epoch, c.rot.key, won, d);
    if c.sync.Polled? {
      HighestBounds(c.sync.box);
    }
    forall e: nat, k: Key | Copy(c', e, k) ensures CopyOk(d, c', g', minted', spent + {c.rot.key}, e, k) {
      if Copy(c, e, k) {
        assert CopyOk(d, c, g, minted, spent, e, k);
        assert (e, d).1 == d;
      }
    }
  }

  lemma BatchLedger(epoch: nat, epoch': nat, next: nat, key: Key, won: bool, minted: map<nat, Key>,
                    minted': map<nat, Key>, 
                    issued: map<Key, Id>, spent: set<Key>)
    requires Ledger(epoch, minted, issued, spent) && key in issued && key !in spent
    requires if won then epoch' == next == epoch + 1 else epoch' == epoch
    requires minted' == if won then minted[next := key] else minted
    ensures Ledger(epoch', minted', issued, spent + {key})
  {
  }

  lemma BatchCarries(w: World, w': World, d: Id, epoch: nat, key: Key, won: bool)
    requires AllEnrolled(w) && Batched(w.group, w'.group, d, epoch, key, won) && epoch <= w.group.epoch + 1
    requires forall e :: e in w.minted ==> e <= w.group.epoch
    requires w'.minted == if won then w.minted[epoch := key] else w.minted
    requires w'.issued == w.issued && w'.spent == w.spent + {key}
    requires key in w.issued && w.issued[key] == d && key !in w.spent
    ensures OthersCarry(w, w', d)
  {
    forall k | k in w.clients && k != d ensures Carries(w, w', k) {
      BatchMoves(w.group, w'.group, d, epoch, key, won, k);
    }
  }

  lemma BatchClients(w: World, w': World, d: Id, won: bool)
    requires ClientsOk(w) && Ledger(w.group.epoch, w.minted, w.issued, w.spent)
    requires d in w.clients && w.clients[d].rot.Checked?
    requires var c := w.clients[d];
             && Batched(w.group, w'.group, d, c.rot.epoch, c.rot.key, won)
             && w' == w.(group := w'.group,
                         minted := if won then w.minted[c.rot.epoch := c.rot.key] else w.minted,
                         spent := w.spent + {c.rot.key},
                         clients := w.clients[d := c.(rot := if won then Accepted(c.rot.ring, c.rot.epoch, c.rot.key)
                             else NoRotation)])
    ensures ClientsOk(w')
  {
    var c := w.clients[d];
    BatchClient(d, c, w'.clients[d], w.group, w'.group, w.minted, w'.minted, w.issued, w.spent, won);
    Enrolment(w);
    BatchCarries(w, w', d, c.rot.epoch, c.rot.key, won);
    ClientsCarry(w, w', d);
  }

  lemma RotateKeeps(w: World, d: Id)
    requires Inv(w) && Enabled(w, Rotate(d))
    ensures Inv(Do(w, Rotate(d)))
  {
    var w' := DoRotate(w, d);
    var c := w.clients[d];
    var rot, won := c.rot, Wins(w, d);
    assert Sound(d, c, w.group, w.minted, w.issued, w.spent);
    BatchEffect(w.group, d, rot.epoch, rot.key, rot.ws);
    BatchMail(w.group, w'.group, d, rot.epoch, rot.key, won, w.spent);
    BatchLedger(w.group.epoch, w'.group.epoch, rot.epoch, rot.key, won, w.minted, w'.minted, w.issued, w.spent);
    BatchClients(w, w', d, won);
  }

  /** Every step the code can take, in whatever order, keeps the invariant. */
  lemma StepKeeps(w: World, step: Step)
    requires Inv(w) && Enabled(w, step)
    ensures Inv(Do(w, step))
  {
    match step
    case Poll(d, box) => PollKeeps(w, d, box);
    case StoreKeys(d) => StoreKeeps(w, d);
    case Ack(d, heard) => AckKeeps(w, d, heard);
    case Ask(d, key, ws) => AskKeeps(w, d, key, ws);
    case Admit(d) => CheckKeeps(w, step);
    case Check(d) => CheckKeeps(w, step);
    case Rotate(d) => RotateKeeps(w, d);
    case Keep(d) => KeepKeeps(w, d);
    case Crash(d) => CrashKeeps(w, d);
    case Revoke(d) => RevokeKeeps(w, d);
    case Draft(d) => CheckKeeps(w, step);
    case Offer(d) => OfferKeeps(w, d);
    case Join(d, epoch, key) => JoinKeeps(w, d, epoch, key);
  }

  // ---------------------------------------------------------------------
  // Whole runs
  // ---------------------------------------------------------------------

  /** Anything the code can do, one step after another. */
  ghost predicate Runs(w: World, steps: seq<Step>)
    decreases |steps|
  {
    steps == [] || (Enabled(w, steps[0]) && Runs(Do(w, steps[0]), steps[1..]))
  }

  ghost function Run(w: World, steps: seq<Step>): World
    requires Runs(w, steps)
    decreases |steps|
  {
    if steps == [] then w else Run(Do(w, steps[0]), steps[1..])
  }

  lemma {:induction false} RunKeeps(w: World, steps: seq<Step>)
    requires Inv(w) && Runs(w, steps)
    ensures Inv(Run(w, steps))
    decreases |steps|
  {
    if steps != [] {
      StepKeeps(w, steps[0]);
      RunKeeps(Do(w, steps[0]), steps[1..]);
    }
  }

  lemma InitKeeps(creator: Id, key: Key)
    ensures Inv(Init(creator, key))
  {
    var w := Init(creator, key);
    var c := w.clients[creator];
    forall e: nat, k: Key | Copy(c, e, k) ensures CopyOk(creator, c, w.group, w.minted, w.spent, e, k) {
    }
  }
}
