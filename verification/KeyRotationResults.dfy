/** What every run of key rotation guarantees, and exactly when it keeps the rest of its promises. */
module KeyRotationResults {
  import opened Basics
  import opened Sorting
  import opened Keyring
  import opened KeyServer
  import opened KeyRotationRuns

  // ---------------------------------------------------------------------
  // What one step does to the server
  // ---------------------------------------------------------------------

  lemma Member(w: World, d: Id)
    requires Inv(w) && d in w.clients
    ensures Enrolled(d, w.clients[d], w.group) && WellFormed(w.clients[d].ring)
    ensures SyncOk(d, w.clients[d].sync, w.group)
    ensures RotOk(d, w.clients[d].rot, w.group, w.minted, w.issued, w.spent)
  {
    assert Sound(d, w.clients[d], w.group, w.minted, w.issued, w.spent);
  }

  lemma BatchOf(w: World, d: Id)
    requires Inv(w) && Enabled(w, Rotate(d))
    ensures var rot := w.clients[d].rot;
            && Batched(w.group, Do(w, Rotate(d)).group, d, rot.epoch, rot.key, Wins(w, d))
            && OnePerDevice(rot.ws) && rot.epoch <= w.group.epoch + 1 && rot.key !in w.spent
  {
    var rot := w.clients[d].rot;
    Member(w, d);
    BatchEffect(w.group, d, rot.epoch, rot.key, rot.ws);
    assert Do(w, Rotate(d)).group == if Batch(w, d).None? then w.group else Batch(w, d).value.0;
  }

  /** A waiting key was waiting before, or a batch has just brought it for the next epoch. */
  lemma RowFlow(w: World, step: Step, p: (nat, Id))
    requires Inv(w) && Enabled(w, step) && p in Do(w, step).group.wraps
    ensures
      || (p in w.group.wraps && Do(w, step).group.wraps[p] == w.group.wraps[p])
      || (step.Rotate? && p !in w.group.wraps && p.0 == w.clients[step.d].rot.epoch == w.group.epoch + 1
          && Do(w, step).group.wraps[p].key == w.clients[step.d].rot.key && Active(w.group.devices, p.1))
  {
    if step.Rotate? {
      BatchOf(w, step.d);
    } else {
      QuietRows(w, step, p);
    }
  }

  lemma QuietRows(w: World, step: Step, p: (nat, Id))
    requires Enabled(w, step) && !step.Rotate?
    ensures p in Do(w, step).group.wraps ==> p in w.group.wraps && Do(w, step).group.wraps[p] == w.group.wraps[p]
    ensures p in w.group.wraps && p !in Do(w, step).group.wraps ==>
              step.d == p.1 && (step.Revoke? || (step.Ack? && p.0 <= w.clients[step.d].sync.highest <= w.group.epoch))
  {
  }

  /** A waiting key stays until its device acknowledges it or is revoked. */
  lemma RowStays(w: World, step: Step, p: (nat, Id))
    requires Inv(w) && Enabled(w, step) && p in w.group.wraps
    ensures
      || (p in Do(w, step).group.wraps && Do(w, step).group.wraps[p] == w.group.wraps[p])
      || (step.Ack? && step.d == p.1 && p.0 <= w.clients[step.d].sync.highest <= w.group.epoch)
      || (step.Revoke? && step.d == p.1)
  {
    if step.Rotate? {
      BatchOf(w, step.d);
    } else {
      QuietRows(w, step, p);
    }
  }

  lemma EpochFlow(w: World, step: Step)
    requires Inv(w) && Enabled(w, step)
    ensures if step.Rotate? && Wins(w, step.d)
            then Do(w, step).group.epoch == w.clients[step.d].rot.epoch == w.group.epoch + 1
                && Active(w.group.devices, step.d)
            else Do(w, step).group.epoch == w.group.epoch
  {
    if step.Rotate? {
      BatchOf(w, step.d);
    } else {
      QuietEpoch(w, step);
    }
  }

  lemma QuietEpoch(w: World, step: Step)
    requires Enabled(w, step) && !step.Rotate?
    ensures Do(w, step).group.epoch == w.group.epoch
  {
  }

  /** Who is active only changes by revoking and joining. */
  lemma ActiveFlow(w: World, step: Step, x: Id)
    requires Inv(w) && Enabled(w, step) && Active(Do(w, step).group.devices, x)
    ensures x in Do(w, step).clients
    ensures Active(w.group.devices, x) || (step.Join? && step.d == x && step.epoch == w.group.epoch && x !in w.clients)
  {
    if x in w.group.devices {
      Registered(w, x);
    }
    if step.Rotate? {
      BatchOf(w, step.d);
    } else {
      QuietRoster(w, step, x);
    }
  }

  lemma Registered(w: World, x: Id)
    requires Inv(w) && x in w.group.devices
    ensures x in w.clients
  {
  }

  lemma QuietRoster(w: World, step: Step, x: Id)
    requires Enabled(w, step) && !step.Rotate? && Active(Do(w, step).group.devices, x)
    requires x in w.group.devices ==> x in w.clients
    ensures x in Do(w, step).clients
    ensures Active(w.group.devices, x) || (step.Join? && step.d == x && step.epoch == w.group.epoch && x !in w.clients)
  {
  }

  lemma CopyIsOk(w: World, d: Id, e: nat, k: Key)
    requires Inv(w) && d in w.clients && Copy(w.clients[d], e, k)
    ensures CopyOk(d, w.clients[d], w.group, w.minted, w.spent, e, k)
  {
    assert Sound(d, w.clients[d], w.group, w.minted, w.issued, w.spent);
  }

  // ---------------------------------------------------------------------
  // Rules a run may obey beyond what the code checks
  // ---------------------------------------------------------------------

  datatype Rule =
    | Clashless   // no batch is accepted for an epoch that some key is already waiting for
    | Steady      // no device joins or is revoked between the check of the roster and the batch
    | FromStored  // a save starts from the ring that is stored
    | Lossless    // no save and no acknowledgement forgets a key

  /** An accepted batch finds a key, which is not its own, waiting for the epoch it brings in. */
  ghost predicate Clashes(w: World, step: Step)
    requires Enabled(w, step)
  {
    step.Rotate? && Wins(w, step.d) && exists x :: (w.clients[step.d].rot.epoch, x) in w.group.wraps
  }

  /** The batch is not next in turn, or its roster still stands, or it reaches nobody. */
  ghost predicate HoldsStill(w: World, d: Id)
    requires Enabled(w, Rotate(d))
  {
    var rot := w.clients[d].rot;
    w.group.epoch + 1 == rot.epoch ==> RosterHeld(w.group, d, w.group.epoch, rot.ws) || Reached(w.group, rot.ws) == {}
  }

  /** Nothing but the stored ring keeps the key of epoch `e` for this device. */
  ghost predicate OnlyStored(w: World, d: Id, e: nat)
    requires d in w.clients
  {
    var c := w.clients[d];
    c.since <= e <= w.group.epoch && !(c.rot.Accepted? && c.rot.epoch == e) && (e, d) !in w.stranded
  }

  /** Saving this ring forgets an epoch: it is in the stored ring alone, and not in the saved one. */
  ghost predicate SaveForgets(w: World, d: Id, saved: Ring)
    requires d in w.clients
  {
    && Active(w.group.devices, d)
    && exists e: nat :: OnlyStored(w, d, e) && e in w.clients[d].ring.keys && e !in saved.keys
        && (e, d) !in w.group.wraps
  }

  /** This acknowledgement drops a key the stored ring does not have. */
  ghost predicate AckForgets(w: World, d: Id)
    requires d in w.clients && w.clients[d].sync.Stored?
  {
    && 1 <= w.clients[d].sync.highest <= w.group.epoch
    && exists e: nat :: OnlyStored(w, d, e) && e <= w.clients[d].sync.highest && (e, d) in w.group.wraps
        && e !in w.clients[d].ring.keys
  }

  ghost predicate Forgets(w: World, step: Step)
    requires Enabled(w, step)
  {
    match step
    case StoreKeys(d) => SaveForgets(w, d, AfterStore(d, w.clients[d]).ring)
    case Keep(d) => SaveForgets(w, d, AfterKeep(w.clients[d]).ring)
    case Ack(d, _) => AckForgets(w, d)
    case _ => false
  }

  ghost predicate Obeys(rule: Rule, w: World, step: Step)
    requires Enabled(w, step)
  {
    match rule
    case Clashless => !Clashes(w, step)
    case Steady => step.Rotate? ==> HoldsStill(w, step.d)
    case FromStored =>
      && (step.StoreKeys? ==> w.clients[step.d].sync.ring == w.clients[step.d].ring)
      && (step.Keep? ==> w.clients[step.d].rot.ring == w.clients[step.d].ring)
    case Lossless => !Forgets(w, step)
  }

  ghost predicate Obey(rule: Rule, w: World, steps: seq<Step>)
    requires Runs(w, steps)
    decreases |steps|
  {
    steps == [] || (Obeys(rule, w, steps[0]) && Obey(rule, Do(w, steps[0]), steps[1..]))
  }

  // ---------------------------------------------------------------------
  // One key per epoch
  // ---------------------------------------------------------------------

  /** An active device has `k`, or is about to be given it, as the key of an epoch the group has reached. */
  ghost predicate InUse(w: World, d: Id, e: nat, k: Key) {
    && Active(w.group.devices, d) && d in w.clients && e <= w.group.epoch
    && (Copy(w.clients[d], e, k) || Waits(w.group.wraps, d, e, k))
  }

  /** No two keys are in use for one epoch, by two devices or by one. */
  ghost predicate OneKey(w: World) {
    forall a, b, e, k, l {:trigger InUse(w, a, e, k), InUse(w, b, e, l)} :: InUse(w, a, e, k) && InUse(w, b, e, l) ==>
        k == l
  }

  /** Every key in use, or offered to a newcomer, is the one its epoch was given. */
  ghost predicate Agreed(w: World) {
    && (forall d, e, k {:trigger InUse(w, d, e, k)} :: InUse(w, d, e, k) ==> e in w.minted && w.minted[e] == k)
    && (forall o {:trigger o in w.offers} :: o in w.offers ==> o.0 in w.minted && w.minted[o.0] == o.1)
  }

  lemma AgreedIsOneKey(w: World)
    requires Agreed(w)
    ensures OneKey(w)
  {
  }

  lemma InUseFlow(w: World, step: Step, d: Id, e: nat, k: Key)
    requires Inv(w) && Enabled(w, step) && InUse(Do(w, step), d, e, k) && !Clashes(w, step)
    ensures
      || InUse(w, d, e, k)
      || (step.Join? && e == step.epoch && k == step.key)
      || (step.Rotate? && Wins(w, step.d) && e == w.clients[step.d].rot.epoch && k == w.clients[step.d].rot.key)
  {
    EpochFlow(w, step);
    ActiveFlow(w, step, d);
    if Waits(Do(w, step).group.wraps, d, e, k) {
      RowFlow(w, step, (e, d));
    } else {
      Flow(w, step, d, e, k);
      if d in w.clients && Copy(w.clients[d], e, k) {
        NextCopyWaits(w, d, e, k);
      }
    }
  }

  lemma NextCopyWaits(w: World, d: Id, e: nat, k: Key)
    requires Inv(w) && d in w.clients && Copy(w.clients[d], e, k)
    ensures Active(w.group.devices, d) && w.group.epoch < e ==> e == w.group.epoch + 1 && Waits(w.group.wraps, d, e, k)
  {
    CopyIsOk(w, d, e, k);
    Member(w, d);
  }

  lemma MintedGrows(w: World, step: Step)
    requires Inv(w) && Enabled(w, step)
    ensures Extends(w.minted, Do(w, step).minted)
    ensures step.Rotate? && Wins(w, step.d) ==>
              var rot := w.clients[step.d].rot;
              rot.epoch in Do(w, step).minted && Do(w, step).minted[rot.epoch] == rot.key
  {
    EpochFlow(w, step);
  }

  lemma NewOfferInUse(w: World, step: Step, o: (nat, Key))
    requires Enabled(w, step) && o in Do(w, step).offers && o !in w.offers
    ensures step.Offer? && InUse(w, step.d, o.0, o.1)
  {
  }

  lemma AgreedStays(w: World, step: Step)
    requires Inv(w) && Agreed(w) && Enabled(w, step) && !Clashes(w, step)
    ensures Agreed(Do(w, step))
  {
    var w' := Do(w, step);
    MintedGrows(w, step);
    forall d, e, k | InUse(w', d, e, k) ensures e in w'.minted && w'.minted[e] == k {
      InUseFlow(w, step, d, e, k);
      if step.Join? && e == step.epoch && k == step.key {
        assert (e, k) in w.offers;
      }
    }
    forall o | o in w'.offers ensures o.0 in w'.minted && w'.minted[o.0] == o.1 {
      if o !in w.offers {
        NewOfferInUse(w, step, o);
      }
    }
  }

  lemma ClashSplits(w: World, step: Step)
    requires Inv(w) && Enabled(w, step) && Clashes(w, step)
    ensures !OneKey(Do(w, step))
  {
    var w' := Do(w, step);
    var rot := w.clients[step.d].rot;
    var x :| (rot.epoch, x) in w.group.wraps;
    var k := w.group.wraps[(rot.epoch, x)].key;
    BatchOf(w, step.d);
    StepKeeps(w, step);
    RowInUse(w', x, rot.epoch, k);
    WinnerInUse(w, step.d);
    RowSpent(w, (rot.epoch, x));
    TwoKeys(w', x, step.d, rot.epoch, k, rot.key);
  }

  lemma TwoKeys(w: World, a: Id, b: Id, e: nat, k: Key, l: Key)
    requires InUse(w, a, e, k) && InUse(w, b, e, l) && k != l
    ensures !OneKey(w)
  {
  }

  lemma RowSpent(w: World, p: (nat, Id))
    requires Inv(w) && p in w.group.wraps
    ensures w.group.wraps[p].key in w.spent
  {
  }

  lemma WinnerInUse(w: World, d: Id)
    requires Inv(w) && Enabled(w, Rotate(d)) && Wins(w, d)
    ensures InUse(Do(w, Rotate(d)), d, w.clients[d].rot.epoch, w.clients[d].rot.key)
  {
    BatchOf(w, d);
  }

  lemma RowInUse(w: World, d: Id, e: nat, k: Key)
    requires Inv(w) && Waits(w.group.wraps, d, e, k) && e <= w.group.epoch
    ensures InUse(w, d, e, k)
  {
    assert Active(w.group.devices, (e, d).1);
  }

  ghost predicate OneKeyThroughout(w: World, steps: seq<Step>)
    requires Runs(w, steps)
    decreases |steps|
  {
    OneKey(w) && (steps == [] || OneKeyThroughout(Do(w, steps[0]), steps[1..]))
  }

  lemma {:induction false} OneKeyExact(w: World, steps: seq<Step>)
    requires Inv(w) && Agreed(w) && Runs(w, steps)
    ensures OneKeyThroughout(w, steps) <==> Obey(Clashless, w, steps)
    ensures Obey(Clashless, w, steps) ==> Agreed(Run(w, steps))
    decreases |steps|
  {
    AgreedIsOneKey(w);
    if steps != [] {
      StepKeeps(w, steps[0]);
      if Clashes(w, steps[0]) {
        ClashSplits(w, steps[0]);
      } else {
        AgreedStays(w, steps[0]);
        OneKeyExact(Do(w, steps[0]), steps[1..]);
      }
    }
  }

  lemma InitAgreed(creator: Id, key: Key)
    ensures Agreed(Init(creator, key))
  {
  }

  /**
   * All through a run the active devices have one key for each epoch, if and only if no batch was ever
   * accepted for an epoch that a key was already waiting for. The guard is not in the code.
   */
  lemma OneKeyPerEpoch(creator: Id, key: Key, steps: seq<Step>)
    requires Runs(Init(creator, key), steps)
    ensures OneKeyThroughout(Init(creator, key), steps) <==> Obey(Clashless, Init(creator, key), steps)
  {
    InitKeeps(creator, key);
    InitAgreed(creator, key);
    OneKeyExact(Init(creator, key), steps);
  }

  // ---------------------------------------------------------------------
  // Runs whose roster holds still
  // ---------------------------------------------------------------------

  /** No key waits for an epoch the group has not reached. */
  ghost predicate NoStray(g: Group) {
    forall p {:trigger p in g.wraps} :: p in g.wraps ==> p.0 <= g.epoch
  }

  lemma BatchStray(d: Id, c: Client, g: Group, g': Group, minted: map<nat, Key>, issued: map<Key, Id>, spent: set<Key>)
    requires NoStray(g) && Sound(d, c, g, minted, issued, spent) && c.rot.Checked?
    requires var r := RotateBatch(g, d, c.rot.epoch - 1, c.rot.ws); g' == if r.Some? then r.value.0 else g
    ensures NoStray(g') <==>
              (g.epoch + 1 == c.rot.epoch ==> RosterHeld(g, d, g.epoch, c.rot.ws) || Reached(g, c.rot.ws) == {})
  {
    var rot := c.rot;
    RotationExact(g, d, rot.epoch - 1, rot.ws);
    InsertWrapsExact(g, rot.epoch - 1, rot.ws);
    if g.epoch + 1 == rot.epoch {
      forall k | k in Reached(g, rot.ws) ensures (rot.epoch, k) !in g.wraps {
        assert rot.epoch > g.epoch;
      }
      if k :| k in Reached(g, rot.ws) {
        assert (rot.epoch, k) in g'.wraps;
      }
    }
  }

  /**
   * A batch leaves a key behind for an epoch that does not exist exactly when it is the next in
   * turn, the roster has changed since it was checked, and it reached anyone.
   */
  lemma BatchStrayExact(w: World, d: Id)
    requires Inv(w) && NoStray(w.group) && Enabled(w, Rotate(d))
    ensures NoStray(Do(w, Rotate(d)).group) <==> HoldsStill(w, d)
  {
    assert Sound(d, w.clients[d], w.group, w.minted, w.issued, w.spent);
    BatchStray(d, w.clients[d], w.group, DoRotate(w, d).group, w.minted, w.issued, w.spent);
  }

  /**
   * With no stray key on the server, a batch whose roster held still commits if it is the next in turn, and
   * else touches nobody's mail.
   */
  lemma SteadyBatch(w: World, d: Id)
    requires Inv(w) && NoStray(w.group) && Enabled(w, Rotate(d))
    requires RosterHeld(w.group, d, w.clients[d].rot.epoch - 1, w.clients[d].rot.ws)
    ensures Batch(w, d).Some?
    ensures Wins(w, d) <==> w.group.epoch + 1 == w.clients[d].rot.epoch
    ensures !Wins(w, d) ==> Do(w, Rotate(d)).group == w.group.(devices := Do(w, Rotate(d)).group.devices)
  {
    Member(w, d);
    var rot := w.clients[d].rot;
    RotationExact(w.group, d, rot.epoch - 1, rot.ws);
    InsertWrapsExact(w.group, rot.epoch - 1, rot.ws);
    forall k | w.group.epoch + 1 == rot.epoch && k in Reached(w.group, rot.ws)
      ensures (rot.epoch, k) !in w.group.wraps
    {
      assert rot.epoch > w.group.epoch;
    }
  }

  /** Every device, revoked or not, has only keys of epochs it lived through, each the one minted. */
  ghost predicate Settled(w: World) {
    && NoStray(w.group) && Agreed(w)
    && (forall d, e: nat, k: Key {:trigger Copy(w.clients[d], e, k)} :: d in w.clients && Copy(w.clients[d], e, k) ==>
          e <= Cap(w.clients[d], w.group.epoch) && e in w.minted && w.minted[e] == k)
  }

  lemma StrayFree(w: World, step: Step)
    requires Inv(w) && NoStray(w.group) && Enabled(w, step) && Obeys(Steady, w, step)
    ensures NoStray(Do(w, step).group) && !Clashes(w, step)
  {
    EpochFlow(w, step);
    if step.Rotate? {
      BatchStrayExact(w, step.d);
      forall x | (w.clients[step.d].rot.epoch, x) in w.group.wraps ensures !Wins(w, step.d) {
        assert (w.clients[step.d].rot.epoch, x).0 <= w.group.epoch;
      }
    } else {
      forall p | p in Do(w, step).group.wraps ensures p.0 <= w.group.epoch {
        RowFlow(w, step, p);
      }
    }
  }

  lemma SettledCopy(w: World, step: Step, d: Id, e: nat, k: Key)
    requires Inv(w) && Settled(w) && Enabled(w, step)
    requires d in Do(w, step).clients && Copy(Do(w, step).clients[d], e, k)
    ensures var w' := Do(w, step); e <= Cap(w'.clients[d], w'.group.epoch) && e in w'.minted && w'.minted[e] == k
  {
    var w' := Do(w, step);
    Flow(w, step, d, e, k);
    MintedGrows(w, step);
    EpochFlow(w, step);
    StepKeeps(w, step);
    Member(w', d);
    if d in w.clients {
      Member(w, d);
      if Waits(w.group.wraps, d, e, k) {
        SettledRow(w, d, e, k);
      }
    } else {
      assert (e, k) in w.offers;
    }
  }

  lemma SettledRow(w: World, d: Id, e: nat, k: Key)
    requires Inv(w) && Settled(w) && d in w.clients && Waits(w.group.wraps, d, e, k)
    ensures w.clients[d].until.None? && e <= w.group.epoch && e in w.minted && w.minted[e] == k
  {
    Member(w, d);
    assert (e, d).0 <= w.group.epoch;
    RowInUse(w, d, e, k);
  }

  lemma SettledStays(w: World, step: Step)
    requires Inv(w) && Settled(w) && Enabled(w, step) && Obeys(Steady, w, step)
    ensures Settled(Do(w, step))
  {
    var w' := Do(w, step);
    StrayFree(w, step);
    AgreedStays(w, step);
    forall d, e: nat, k: Key | d in w'.clients && Copy(w'.clients[d], e, k)
      ensures e <= Cap(w'.clients[d], w'.group.epoch) && e in w'.minted && w'.minted[e] == k
    {
      SettledCopy(w, step, d, e, k);
    }
  }

  lemma {:induction false} SteadyRun(w: World, steps: seq<Step>)
    requires Inv(w) && Settled(w) && Runs(w, steps) && Obey(Steady, w, steps)
    ensures Settled(Run(w, steps)) && Obey(Clashless, w, steps)
    decreases |steps|
  {
    if steps != [] {
      StepKeeps(w, steps[0]);
      StrayFree(w, steps[0]);
      SettledStays(w, steps[0]);
      SteadyRun(Do(w, steps[0]), steps[1..]);
    }
  }

  /**
   * While the roster holds still under every batch, rings agree across all racing rotations, those of
   * revoked devices included, and none holds an epoch its device did not live through.
   */
  lemma SteadyRingsAgree(creator: Id, key: Key, steps: seq<Step>, a: Id, e: nat)
    requires Runs(Init(creator, key), steps) && Obey(Steady, Init(creator, key), steps)
    ensures OneKeyThroughout(Init(creator, key), steps)
    ensures var w := Run(Init(creator, key), steps);
            a in w.clients && e in w.clients[a].ring.keys ==>
              e <= Cap(w.clients[a], w.group.epoch) && e in w.minted && w.clients[a].ring.keys[e] == w.minted[e]
  {
    InitKeeps(creator, key);
    InitAgreed(creator, key);
    SteadyRun(Init(creator, key), steps);
    OneKeyPerEpoch(creator, key, steps);
    var w := Run(Init(creator, key), steps);
    assert a in w.clients && e in w.clients[a].ring.keys ==> Copy(w.clients[a], e, w.clients[a].ring.keys[e]);
  }

  /** In every run a device can encrypt: its ring holds the key it names as current, and none newer. */
  lemma CurrentKeyIsHeld(creator: Id, key: Key, steps: seq<Step>, d: Id)
    requires Runs(Init(creator, key), steps) && d in Run(Init(creator, key), steps).clients
    ensures var w := Run(Init(creator, key), steps);
            WellFormed(w.clients[d].ring) && w.clients[d].ring.current <= w.group.epoch + 1
  {
    InitKeeps(creator, key);
    RunKeeps(Init(creator, key), steps);
    var w := Run(Init(creator, key), steps);
    var ring := w.clients[d].ring;
    Member(w, d);
    assert Copy(w.clients[d], ring.current, ring.keys[ring.current]);
    CopyIsOk(w, d, ring.current, ring.keys[ring.current]);
  }

  /** In every run, whatever races: a revoked device never has the key of any later epoch, and none waits for it. */
  lemma RevokedNeverLearns(creator: Id, key: Key, steps: seq<Step>, d: Id, e: nat)
    requires Runs(Init(creator, key), steps)
    requires var w := Run(Init(creator, key), steps);
             d in w.clients && w.clients[d].until.Some? && w.clients[d].until.value < e
    ensures var w := Run(Init(creator, key), steps);
            && (e in w.minted ==> w.minted[e] !in w.clients[d].ring.keys.Values)
            && (forall f: nat, k: Key {:trigger Copy(w.clients[d], f, k)} ::
                Copy(w.clients[d], f, k) && e in w.minted ==> k != w.minted[e])
            && (forall f :: (f, d) !in w.group.wraps)
            && (Obey(Steady, Init(creator, key), steps) ==> e !in w.clients[d].ring.keys)
  {
    InitKeeps(creator, key);
    RunKeeps(Init(creator, key), steps);
    var w := Run(Init(creator, key), steps);
    var ring := w.clients[d].ring;
    Member(w, d);
    forall f: nat, k: Key | Copy(w.clients[d], f, k) && e in w.minted ensures k != w.minted[e] {
      CopyIsOk(w, d, f, k);
    }
    forall f | f in ring.keys && e in w.minted ensures ring.keys[f] != w.minted[e] {
      assert Copy(w.clients[d], f, ring.keys[f]);
    }
    forall f ensures (f, d) !in w.group.wraps {
      assert (f, d) in w.group.wraps ==> Active(w.group.devices, (f, d).1);
    }
    if Obey(Steady, Init(creator, key), steps) {
      SteadyRingsAgree(creator, key, steps, d, e);
    }
  }

  // ---------------------------------------------------------------------
  // No key is lost
  // ---------------------------------------------------------------------

  /** The key of epoch `e` is in the device's ring, or on its way to it, or its own and never heard of. */
  ghost predicate Reaches(w: World, d: Id, e: nat)
    requires d in w.clients
  {
    || e in w.clients[d].ring.keys
    || (e, d) in w.group.wraps
    || (w.clients[d].rot.Accepted? && w.clients[d].rot.epoch == e)
    || (e, d) in w.stranded
  }

  /** Every epoch since an active device joined reaches it. */
  ghost predicate Durable(w: World) {
    forall d, e :: d in w.clients && Active(w.group.devices, d) && w.clients[d].since <= e <= w.group.epoch ==>
        Reaches(w, d, e)
  }

  ghost predicate DurableThroughout(w: World, steps: seq<Step>)
    requires Runs(w, steps)
    decreases |steps|
  {
    Durable(w) && (steps == [] || DurableThroughout(Do(w, steps[0]), steps[1..]))
  }

  lemma NewEpochReaches(w: World, d: Id, x: Id)
    requires Inv(w) && Enabled(w, Rotate(d)) && Wins(w, d) && x in w.clients && Active(w.group.devices, x)
    ensures var w' := Do(w, Rotate(d)); x in w'.clients && Reaches(w', x, w'.group.epoch)
  {
    BatchOf(w, d);
  }

  lemma AckReaches(w: World, d: Id, heard: bool, e: nat)
    requires Enabled(w, Ack(d, heard)) && !AckForgets(w, d)
    requires w.clients[d].since <= e <= w.group.epoch && Reaches(w, d, e)
    ensures Reaches(Do(w, Ack(d, heard)), d, e)
  {
    assert OnlyStored(w, d, e) || Reaches(Do(w, Ack(d, heard)), d, e);
    assert (e, d).0 == e && (e, d).1 == d;
  }

  lemma SaveReaches(w: World, step: Step, c: Client, e: nat)
    requires (step.StoreKeys? || step.Keep?) && Enabled(w, step) && Do(w, step) == Put(w, step.d, c)
    requires c == if step.Keep? then AfterKeep(w.clients[step.d]) else AfterStore(step.d, w.clients[step.d])
    requires Active(w.group.devices, step.d) && !SaveForgets(w, step.d, c.ring)
    requires w.clients[step.d].since <= e <= w.group.epoch && Reaches(w, step.d, e)
    ensures Reaches(Do(w, step), step.d, e)
  {
    assert OnlyStored(w, step.d, e) || Reaches(Do(w, step), step.d, e);
  }

  lemma QuietReaches(w: World, step: Step, w': World, d: Id, e: nat)
    requires Enabled(w, step) && w' == Do(w, step) && d in w.clients && Reaches(w, d, e)
    requires step.d == d ==> !step.StoreKeys? && !step.Keep? && !step.Ack?
    requires (e, d) in w.group.wraps ==> (e, d) in w'.group.wraps
    ensures d in w'.clients && Reaches(w', d, e)
  {
  }

  /** One device's key of one epoch, over one step. */
  lemma ReachesOn(w: World, step: Step, d: Id, e: nat)
    requires Inv(w) && Enabled(w, step) && !Forgets(w, step) && d in w.clients && Active(w.group.devices, d)
    requires w.clients[d].since <= e <= w.group.epoch && Reaches(w, d, e) && step != Revoke(d)
    ensures d in Do(w, step).clients && Reaches(Do(w, step), d, e)
  {
    if (e, d) in w.group.wraps {
      RowStays(w, step, (e, d));
    }
    if step.Ack? && step.d == d {
      AckReaches(w, d, step.heard, e);
    } else if (step.StoreKeys? || step.Keep?) && step.d == d {
      SaveReaches(w, step, Do(w, step).clients[d], e);
    } else {
      QuietReaches(w, step, Do(w, step), d, e);
    }
  }

  lemma DurableStays(w: World, step: Step)
    requires Inv(w) && Durable(w) && Enabled(w, step) && !Forgets(w, step)
    ensures Durable(Do(w, step))
  {
    var w' := Do(w, step);
    EpochFlow(w, step);
    forall d, e | d in w'.clients && Active(w'.group.devices, d) && w'.clients[d].since <= e <= w'.group.epoch
      ensures Reaches(w', d, e)
    {
      ActiveFlow(w, step, d);
      if Active(w.group.devices, d) {
        DurableAt(w, step, d, e);
      }
    }
  }

  lemma DurableAt(w: World, step: Step, d: Id, e: nat)
    requires Inv(w) && Durable(w) && Enabled(w, step) && !Forgets(w, step)
    requires d in Do(w, step).clients && Active(Do(w, step).group.devices, d) && Active(w.group.devices, d)
    requires Do(w, step).clients[d].since <= e <= Do(w, step).group.epoch
    ensures Reaches(Do(w, step), d, e)
  {
    EpochFlow(w, step);
    SinceStays(w, step, d);
    if e <= w.group.epoch {
      assert Reaches(w, d, e);
      ReachesOn(w, step, d, e);
    } else {
      NewEpochReaches(w, step.d, d);
    }
  }

  lemma SinceStays(w: World, step: Step, d: Id)
    requires Enabled(w, step) && d in w.clients
    ensures d in Do(w, step).clients && Do(w, step).clients[d].since == w.clients[d].since
  {
  }

  lemma SaveLoses(w: World, step: Step, c: Client)
    requires (step.StoreKeys? || step.Keep?) && Enabled(w, step) && Do(w, step) == Put(w, step.d, c)
    requires c == if step.Keep? then AfterKeep(w.clients[step.d]) else AfterStore(step.d, w.clients[step.d])
    requires SaveForgets(w, step.d, c.ring)
    ensures !Durable(Do(w, step))
  {
    var e :| OnlyStored(w, step.d, e) && e in w.clients[step.d].ring.keys && e !in c.ring.keys
        && (e, step.d) !in w.group.wraps;
    assert !Reaches(Do(w, step), step.d, e);
  }

  lemma AckLoses(w: World, d: Id, heard: bool)
    requires Enabled(w, Ack(d, heard)) && AckForgets(w, d)
    ensures !Durable(Do(w, Ack(d, heard)))
  {
    var h := w.clients[d].sync.highest;
    var e :| OnlyStored(w, d, e) && e <= h && (e, d) in w.group.wraps && e !in w.clients[d].ring.keys;
    assert !Reaches(Do(w, Ack(d, heard)), d, e);
  }

  /** One step keeps every key within its device's reach exactly when it does not forget one. */
  lemma DurableExact(w: World, step: Step)
    requires Inv(w) && Durable(w) && Enabled(w, step)
    ensures Durable(Do(w, step)) <==> !Forgets(w, step)
  {
    if !Forgets(w, step) {
      DurableStays(w, step);
    } else if step.Ack? {
      AckLoses(w, step.d, step.heard);
    } else {
      SaveLoses(w, step, Do(w, step).clients[step.d]);
    }
  }

  lemma {:induction false} DurableRun(w: World, steps: seq<Step>)
    requires Inv(w) && Durable(w) && Runs(w, steps)
    ensures DurableThroughout(w, steps) <==> Obey(Lossless, w, steps)
    ensures Obey(Lossless, w, steps) ==> Durable(Run(w, steps))
    decreases |steps|
  {
    if steps != [] {
      StepKeeps(w, steps[0]);
      DurableExact(w, steps[0]);
      if !Forgets(w, steps[0]) {
        DurableRun(Do(w, steps[0]), steps[1..]);
      }
    }
  }

  /** What an acknowledgement may drop is in the stored ring. */
  ghost predicate SavedFirst(w: World) {
    forall d :: d in w.clients && w.clients[d].sync.Stored? ==> StoredCovers(d, w.clients[d], w.group.wraps)
  }

  ghost predicate StoredCovers(d: Id, c: Client, wraps: map<(nat, Id), Sealed>)
    requires c.sync.Stored?
  {
    && c.sync.highest in c.ring.keys
    && forall p {:trigger p in wraps} :: p in wraps && p.1 == d && p.0 <= c.sync.highest ==> p.0 in c.ring.keys
  }

  lemma StoredHighest(w: World, d: Id)
    requires Inv(w) && SavedFirst(w) && d in w.clients && w.clients[d].sync.Stored?
    ensures w.clients[d].sync.highest <= w.group.epoch + 1
  {
    var c := w.clients[d];
    assert StoredCovers(d, c, w.group.wraps);
    assert Copy(c, c.sync.highest, c.ring.keys[c.sync.highest]);
    CopyIsOk(w, d, c.sync.highest, c.ring.keys[c.sync.highest]);
    Member(w, d);
  }

  lemma SavedFirstStays(w: World, step: Step)
    requires Inv(w) && SavedFirst(w) && Enabled(w, step) && Obeys(FromStored, w, step)
    ensures SavedFirst(Do(w, step))
  {
    var w' := Do(w, step);
    forall d | d in w'.clients && w'.clients[d].sync.Stored? ensures StoredCovers(d, w'.clients[d], w'.group.wraps) {
      SavedFirstAt(w, step, d);
    }
  }

  lemma SavedFirstAt(w: World, step: Step, d: Id)
    requires Inv(w) && SavedFirst(w) && Enabled(w, step) && Obeys(FromStored, w, step)
    requires d in Do(w, step).clients && Do(w, step).clients[d].sync.Stored?
    ensures StoredCovers(d, Do(w, step).clients[d], Do(w, step).group.wraps)
  {
    var w' := Do(w, step);
    if step == StoreKeys(d) {
      Member(w, d);
      StoredRing(d, w.clients[d], w.group);
    } else {
      StillStored(w, step, d);
      assert StoredCovers(d, w.clients[d], w.group.wraps);
      StoredHighest(w, d);
      forall p | p in w'.group.wraps && p.1 == d && p.0 <= w'.clients[d].sync.highest
        ensures p.0 in w'.clients[d].ring.keys
      {
        RowFlow(w, step, p);
      }
    }
  }

  lemma StillStored(w: World, step: Step, d: Id)
    requires Enabled(w, step) && Obeys(FromStored, w, step) && step != StoreKeys(d)
    requires d in Do(w, step).clients && Do(w, step).clients[d].sync.Stored?
    ensures d in w.clients && w.clients[d].sync == Do(w, step).clients[d].sync
    ensures w.clients[d].ring.keys.Keys <= Do(w, step).clients[d].ring.keys.Keys
  {
  }

  /** Saves that start from the stored ring forget nothing. */
  lemma FromStoredForgetsNothing(w: World, step: Step)
    requires Inv(w) && SavedFirst(w) && Enabled(w, step) && Obeys(FromStored, w, step)
    ensures !Forgets(w, step)
  {
    if step.StoreKeys? {
      Member(w, step.d);
      StoredRing(step.d, w.clients[step.d], w.group);
    } else if step.Ack? {
      assert StoredCovers(step.d, w.clients[step.d], w.group.wraps);
      forall e | e <= w.clients[step.d].sync.highest && (e, step.d) in w.group.wraps
        ensures e in w.clients[step.d].ring.keys
      {
        assert (e, step.d).0 in w.clients[step.d].ring.keys;
      }
    }
  }

  lemma {:induction false} FromStoredRun(w: World, steps: seq<Step>)
    requires Inv(w) && SavedFirst(w) && Runs(w, steps) && Obey(FromStored, w, steps)
    ensures SavedFirst(Run(w, steps)) && Obey(Lossless, w, steps)
    decreases |steps|
  {
    if steps != [] {
      StepKeeps(w, steps[0]);
      FromStoredForgetsNothing(w, steps[0]);
      SavedFirstStays(w, steps[0]);
      FromStoredRun(Do(w, steps[0]), steps[1..]);
    }
  }

  /**
   * All through a run every epoch since an active device joined is in its ring, or waiting for it, or its
   * own and about to be stored (or unheard of), if and only if no save and no acknowledgement forgot one.
   * Saves that start from the stored ring never do.
   */
  lemma KeysReachEveryDevice(creator: Id, key: Key, steps: seq<Step>)
    requires Runs(Init(creator, key), steps)
    ensures DurableThroughout(Init(creator, key), steps) <==> Obey(Lossless, Init(creator, key), steps)
    ensures Obey(FromStored, Init(creator, key), steps) ==> Obey(Lossless, Init(creator, key), steps)
  {
    InitKeeps(creator, key);
    DurableRun(Init(creator, key), steps);
    if Obey(FromStored, Init(creator, key), steps) {
      FromStoredRun(Init(creator, key), steps);
    }
  }

  /** And what reaches it is the epoch's one key, when no batch clashed. */
  lemma TheKeyReaches(creator: Id, key: Key, steps: seq<Step>, d: Id, e: nat)
    requires Runs(Init(creator, key), steps)
    requires Obey(Lossless, Init(creator, key), steps) && Obey(Clashless, Init(creator, key), steps)
    requires var w := Run(Init(creator, key), steps);
             d in w.clients && Active(w.group.devices, d) && w.clients[d].since <= e <= w.group.epoch
                 && (e, d) !in w.stranded
    ensures var w := Run(Init(creator, key), steps);
            var c := w.clients[d];
            && e in w.minted
            && (|| Holds(c.ring, e, w.minted[e])
                || ((e, d) in w.group.wraps && Unwrap(d, Delivery(e, w.group.wraps[(e, d)])) == Some(w.minted[e]))
                || (c.rot.Accepted? && c.rot.epoch == e && c.rot.key == w.minted[e]))
  {
    InitKeeps(creator, key);
    InitAgreed(creator, key);
    RunKeeps(Init(creator, key), steps);
    OneKeyExact(Init(creator, key), steps);
    DurableRun(Init(creator, key), steps);
    var w := Run(Init(creator, key), steps);
    var c := w.clients[d];
    Member(w, d);
    assert Reaches(w, d, e);
    if e in c.ring.keys {
      assert InUse(w, d, e, c.ring.keys[e]);
    } else if (e, d) in w.group.wraps {
      assert InUse(w, d, e, w.group.wraps[(e, d)].key);
    }
  }

  /** An acknowledgement drops only rows of the device that sent it, for epochs its stored ring holds. */
  lemma AckDropsOnlyStored(w: World, d: Id, heard: bool)
    requires Inv(w) && SavedFirst(w) && Enabled(w, Ack(d, heard))
    ensures forall p {:trigger p in w.group.wraps} :: p in w.group.wraps && p !in Do(w, Ack(d, heard)).group.wraps ==>
              && p.1 == d && p.0 in w.clients[d].ring.keys
              && (Agreed(w) ==> w.clients[d].ring.keys[p.0] == w.group.wraps[p].key)
  {
    var c := w.clients[d];
    assert StoredCovers(d, c, w.group.wraps);
    forall p | p in w.group.wraps && p !in Do(w, Ack(d, heard)).group.wraps
      ensures p.1 == d && p.0 in c.ring.keys && (Agreed(w) ==> c.ring.keys[p.0] == w.group.wraps[p].key)
    {
      RowStays(w, Ack(d, heard), p);
      assert InUse(w, d, p.0, c.ring.keys[p.0]) && InUse(w, d, p.0, w.group.wraps[p].key) by {
        assert p == (p.0, d);
      }
    }
  }

  lemma OtherStepsKeepRings(w: World, step: Step, d: Id)
    requires Enabled(w, step) && d in w.clients && step != StoreKeys(d) && step != Keep(d)
    ensures d in Do(w, step).clients && Do(w, step).clients[d].ring == w.clients[d].ring
  {
  }

  /** While saves start from the stored ring, no step takes an epoch from a device or moves it back to an older one. */
  lemma RingsOnlyGrow(w: World, step: Step, d: Id)
    requires Inv(w) && Enabled(w, step) && Obeys(FromStored, w, step) && d in w.clients
    ensures var w' := Do(w, step);
            && d in w'.clients
            && w.clients[d].ring.current <= w'.clients[d].ring.current
            && w.clients[d].ring.keys.Keys <= w'.clients[d].ring.keys.Keys
  {
    Member(w, d);
    if step == StoreKeys(d) {
      StoredRing(d, w.clients[d], w.group);
    } else if step != Keep(d) {
      OtherStepsKeepRings(w, step, d);
    }
  }

  // ---------------------------------------------------------------------
  // What is lost stays lost
  // ---------------------------------------------------------------------

  /** This device neither has nor awaits `k` for epoch `e`, and the group is past the moment of sending it. */
  ghost predicate Bereft(w: World, d: Id, e: nat, k: Key) {
    d in w.clients && e <= w.group.epoch && !Copy(w.clients[d], e, k) && !Waits(w.group.wraps, d, e, k)
  }

  lemma BereftStays(w: World, step: Step, d: Id, e: nat, k: Key)
    requires Inv(w) && Enabled(w, step) && Bereft(w, d, e, k)
    ensures Bereft(Do(w, step), d, e, k)
  {
    SinceStays(w, step, d);
    EpochFlow(w, step);
    if (e, d) in Do(w, step).group.wraps {
      RowFlow(w, step, (e, d));
    }
    if Copy(Do(w, step).clients[d], e, k) {
      Flow(w, step, d, e, k);
    }
  }

  /** No run afterwards, however the devices behave, brings the key back. */
  lemma {:induction false} BereftForGood(w: World, steps: seq<Step>, d: Id, e: nat, k: Key)
    requires Inv(w) && Runs(w, steps) && Bereft(w, d, e, k)
    ensures Bereft(Run(w, steps), d, e, k)
    decreases |steps|
  {
    if steps != [] {
      StepKeeps(w, steps[0]);
      BereftStays(w, steps[0], d, e, k);
      BereftForGood(Do(w, steps[0]), steps[1..], d, e, k);
    }
  }

  /**
   * The one gap in every run: nobody wraps the new key for the winner itself. If it never hears that
   * it won, no run afterwards ever gives it that key.
   */
  lemma LostAnswerLosesTheKey(w: World, d: Id, steps: seq<Step>)
    requires Inv(w) && Enabled(w, Rotate(d)) && Wins(w, d)
    requires Runs(Do(Do(w, Rotate(d)), Crash(d)), steps)
    ensures var last := Run(Do(Do(w, Rotate(d)), Crash(d)), steps);
            var rot := w.clients[d].rot;
            d in last.clients && !Holds(last.clients[d].ring, rot.epoch, rot.key)
  {
    var won := Do(w, Rotate(d));
    StepKeeps(w, Rotate(d));
    StepKeeps(won, Crash(d));
    WonUnheard(w, d);
    BereftForGood(Do(won, Crash(d)), steps, d, w.clients[d].rot.epoch, w.clients[d].rot.key);
  }

  lemma WonUnheard(w: World, d: Id)
    requires Inv(w) && Enabled(w, Rotate(d)) && Wins(w, d)
    ensures var rot := w.clients[d].rot; Bereft(Do(Do(w, Rotate(d)), Crash(d)), d, rot.epoch, rot.key)
  {
    var won := Do(w, Rotate(d));
    var lost := Do(won, Crash(d));
    var rot := w.clients[d].rot;
    BatchOf(w, d);
    Member(w, d);
    if Copy(lost.clients[d], rot.epoch, rot.key) {
      assert Copy(w.clients[d], rot.epoch, rot.key);
      CopyIsOk(w, d, rot.epoch, rot.key);
    }
    if Waits(lost.group.wraps, d, rot.epoch, rot.key) {
      NotForItself(w, d);
    }
  }

  lemma NotForItself(w: World, d: Id)
    requires Inv(w) && Enabled(w, Rotate(d))
    ensures var rot := w.clients[d].rot; !Waits(Do(w, Rotate(d)).group.wraps, d, rot.epoch, rot.key)
  {
    var rot := w.clients[d].rot;
    Member(w, d);
    BatchOf(w, d);
    if Batch(w, d).Some? {
      BatchParts(w.group, d, rot.epoch, rot.ws);
      UnnamedGetsNothing(w.group, Batch(w, d).value.0, d, rot.epoch, rot.ws);
    }
  }

  lemma UnnamedGetsNothing(g: Group, g': Group, d: Id, epoch: nat, ws: seq<Wrap>)
    requires Deposits(g.wraps, g'.wraps, epoch, Reached(g, ws), ws) || g'.wraps == g.wraps
    requires d !in Devices(ws)
    ensures (epoch, d) in g'.wraps ==> (epoch, d) in g.wraps && g'.wraps[(epoch, d)] == g.wraps[(epoch, d)]
  {
    assert (epoch, d).1 !in Reached(g, ws);
  }

  /**
   * A lost batch leaves its caller recorded at an epoch its ring lacks, so that it would pass the check
   * that it adopted the current key, exactly when it was recorded at the epoch before, no key it brought
   * was already waiting, and the key of the epoch it lost is not in its ring.
   */
  lemma LoserExact(w: World, d: Id)
    requires Inv(w) && Enabled(w, Rotate(d)) && !Wins(w, d)
    requires w.group.devices[d].keyEpoch in w.clients[d].ring.keys
    ensures var w' := Do(w, Rotate(d));
            var rot := w.clients[d].rot;
            && d in w'.clients && d in w'.group.devices
            && (w'.group.devices[d].keyEpoch !in w'.clients[d].ring.keys <==>
                  && Active(w.group.devices, d) && w.group.devices[d].keyEpoch == rot.epoch - 1
                  && !Conflicts(w.group, rot.epoch - 1, rot.ws) && rot.epoch !in w.clients[d].ring.keys)
  {
    var rot := w.clients[d].rot;
    Member(w, d);
    RotationExact(w.group, d, rot.epoch - 1, rot.ws);
    InsertWrapsExact(w.group, rot.epoch - 1, rot.ws);
  }
}
