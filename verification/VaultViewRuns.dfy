/**
 * Loads, syncs and writes of any number of spaces, under way while the page opens, closes and
 * switches between them.
 */
module VaultViewRuns {
  import opened Basics
  import opened VaultServer
  import opened VaultView
  import R = VaultReplication

  // ---------------------------------------------------------------------
  // Everything under way
  // ---------------------------------------------------------------------

  /** A load or a sync, with the generation it started in and the space it is for. */
  datatype Pass =
    | Reading(run: nat, space: Id)
    | Unsealing(run: nat, space: Id, records: map<Id, Item>, cursor: nat)
    | Pulling(run: nat, space: Id, since: nat)
    | Storing(run: nat, space: Id, changes: R.Changes)
    | Opening(run: nat, space: Id, before: map<Id, Item>, records: map<Id, Item>, reset: bool)
    | Over(run: nat, space: Id)

  /** This device's own write, for the space it was started in. */
  datatype Write =
    | Sealing(space: Id)
    | Filing(space: Id, effect: Effect)
    | Showing(space: Id, effect: Effect)

  /**
   * `active` is the open space; `copies` the local databases; `origin` says which item versions belong to
   * which space.
   */
  datatype World = World(
    origin: map<Id, set<Item>>,
    active: Option<Id>,
    v: View,
    passes: map<nat, Pass>,
    writes: map<nat, Write>,
    copies: map<Id, map<Id, Item>>)

  datatype Step =
    | Open(space: Id)                     // nothing closes the space that may still be open
    | Close
    | BeginLoad(p: nat)
    | ReadDisk(p: nat, cursor: nat)
    | PublishLoad(p: nat)
    | AskSync(p: nat)
    | Pulled(p: nat, changes: R.Changes)
    | UpToDate(p: nat)                    // nothing to fetch; a key that was missing has come
    | Stored(p: nat)
    | PublishSync(p: nat)
    | End(p: nat, next: nat)              // done, aborted or failed; `next` is the pass that may follow
    | BeginWrite(t: nat)
    | Answer(t: nat, effect: Effect)
    | PutAway(t: nat)
    | Show(t: nat, p: nat)                // and a sync is asked for

  predicate SyncPass(pass: Pass) {
    pass.Pulling? || pass.Storing? || pass.Opening? || pass.Over?
  }

  predicate StillCurrent(w: World, pass: Pass) {
    Current(w.v, w.active, pass.run, pass.space)
  }

  predicate StillOpen(w: World, space: Id) {
    w.active == Some(space) && w.v.space == Some(space)
  }

  ghost predicate Of(origin: map<Id, set<Item>>, space: Id, items: map<Id, Item>) {
    forall id :: id in items ==> space in origin && items[id] in origin[space] && items[id].id == id
  }

  ghost predicate EffectOf(origin: map<Id, set<Item>>, space: Id, effect: Effect) {
    effect.Keep? ==> Of(origin, space, map[effect.item.id := effect.item])
  }

  ghost predicate Enabled(w: World, step: Step) {
    match step
    case Open(space) => space in w.copies
    case Close => true
    case BeginLoad(p) => p !in w.passes && w.active.Some?
    case ReadDisk(p, _) => p in w.passes && w.passes[p].Reading? && w.passes[p].space in w.copies
    case PublishLoad(p) => p in w.passes && w.passes[p].Unsealing?
    case AskSync(p) => p !in w.passes
    case Pulled(p, changes) => p in w.passes && w.passes[p].Pulling?
        && Of(w.origin, w.passes[p].space, changes.items) && changes.items.Keys !! changes.removed
    case UpToDate(p) => p in w.passes && w.passes[p].Pulling?
    case Stored(p) => p in w.passes && w.passes[p].Storing? && w.passes[p].space in w.copies
    case PublishSync(p) => p in w.passes && w.passes[p].Opening?
    case End(p, next) => p in w.passes && SyncPass(w.passes[p]) && next !in w.passes
    case BeginWrite(t) => t !in w.writes && w.active.Some?
    case Answer(t, effect) => t in w.writes && w.writes[t].Sealing? && EffectOf(w.origin, w.writes[t].space, effect)
    case PutAway(t) => t in w.writes && w.writes[t].Filing? && w.writes[t].space in w.copies
    case Show(t, p) => t in w.writes && w.writes[t].Showing? && p !in w.passes
  }

  function StartSync(w: World, p: nat): World {
    var asked := w.(v := Asked(w.v, w.active, p));
    if Starts(w.v, w.active) then asked.(passes := w.passes[p := Pulling(w.v.generation, w.active.value,
        w.v.cursor)]) else asked
  }

  function PutPass(w: World, p: nat, pass: Pass): World {
    w.(passes := w.passes[p := pass])
  }

  function Do(w: World, step: Step): World
    requires Enabled(w, step)
  {
    match step
    case Open(space) => w.(active := Some(space))
    case Close => w.(active := None, v := Cleared(w.v))
    case BeginLoad(p) => w.(v := Begun(w.v), passes := w.passes[p := Reading(w.v.generation + 1, w.active.value)])
    case ReadDisk(p, cursor) =>
      var pass := w.passes[p];
      if StillCurrent(w, pass) then PutPass(w, p, Unsealing(pass.run, pass.space, w.copies[pass.space], cursor))
      else w.(passes := w.passes - {p})
    case PublishLoad(p) =>
      var pass := w.passes[p];
      if StillCurrent(w, pass) then w.(v := Loaded(w.v, pass.space, pass.records, pass.cursor),
          passes := w.passes - {p})
      else w.(passes := w.passes - {p})
    case AskSync(p) => StartSync(w, p)
    case Pulled(p, changes) =>
      var pass := w.passes[p];
      PutPass(w, p, if StillCurrent(w, pass) then Storing(pass.run, pass.space, changes)
          else Over(pass.run, pass.space))
    case UpToDate(p) =>
      var pass := w.passes[p];
      PutPass(w, p, if StillCurrent(w, pass) then Opening(pass.run, pass.space, w.v.entries, w.v.entries, false)
          else Over(pass.run, pass.space))
    case Stored(p) =>
      var pass := w.passes[p];
      var filed := w.(copies := w.copies[pass.space := R.StoreChanges(w.copies[pass.space], pass.changes)]);
      if StillCurrent(w, pass) then
        PutPass(filed.(v := w.v.(cursor := pass.changes.cursor)), p,
                Opening(pass.run, pass.space, w.v.entries, R.ApplyChanges(w.v.entries, pass.changes),
                    pass.changes.reset))
      else PutPass(filed, p, Over(pass.run, pass.space))
    case PublishSync(p) =>
      var pass := w.passes[p];
      var over := PutPass(w, p, Over(pass.run, pass.space));
      if StillCurrent(w, pass) then over.(v := w.v.(entries := Merged(pass.records, pass.before, w.v.entries)))
          else over
    case End(p, next) =>
      var ended := w.(passes := w.passes - {p}, v := Ended(w.v, p));
      if w.v.syncing == Some(p) && w.v.again then StartSync(ended, next) else ended
    case BeginWrite(t) => w.(writes := w.writes[t := Sealing(w.active.value)])
    case Answer(t, effect) => w.(writes := w.writes[t := Filing(w.writes[t].space, effect)])
    case PutAway(t) =>
      var write := w.writes[t];
      w.(copies := w.copies[write.space := Applied(w.copies[write.space], write.effect)],
         writes := w.writes[t := Showing(write.space, write.effect)])
    case Show(t, p) =>
      var write := w.writes[t];
      var shown := w.(writes := w.writes - {t});
      if StillOpen(w, write.space)
      then StartSync(shown.(v := w.v.(entries := Applied(w.v.entries, write.effect))), p)
      else shown
  }

  // ---------------------------------------------------------------------
  // What every run keeps
  // ---------------------------------------------------------------------

  /**
   * A pass carries only what came from its own space; a sync that may still publish was started on a view
   * of some space.
   */
  ghost predicate PassOk(origin: map<Id, set<Item>>, v: View, spaces: set<Id>, pass: Pass) {
    && pass.run <= v.generation && pass.space in spaces
    && (SyncPass(pass) && pass.run == v.generation ==> v.space.Some?)
    && (match pass
        case Unsealing(_, space, records, _) => Of(origin, space, records)
        case Storing(_, space, changes) => Of(origin, space, changes.items) && changes.items.Keys !! changes.removed
        case Opening(_, space, before, records, reset) => !reset ==> NotOlder(before, records)
        case _ => true)
  }

  ghost predicate NotOlder(before: map<Id, Item>, after: map<Id, Item>) {
    forall id :: id in before && id in after ==> before[id].seqNo <= after[id].seqNo
  }

  ghost predicate WriteOk(origin: map<Id, set<Item>>, write: Write) {
    match write
    case Sealing(_) => true
    case Filing(space, effect) => EffectOf(origin, space, effect)
    case Showing(space, effect) => EffectOf(origin, space, effect)
  }

  predicate LoadPass(pass: Pass) {
    pass.Reading? || pass.Unsealing?
  }

  /** A term for the solver to hang a pair of passes on. */
  ghost predicate Pair(p: nat, q: nat) {
    true
  }

  /** Every load begins a generation of its own. */
  ghost predicate OneLoad(passes: map<nat, Pass>) {
    forall p, q {:trigger Pair(p, q)} ::
      Pair(p, q) && p in passes && q in passes && LoadPass(passes[p]) && LoadPass(passes[q])
          && passes[p].run == passes[q].run
      ==> p == q
  }

  ghost predicate SyncingOk(v: View, passes: map<nat, Pass>) {
    && (v.again ==> v.syncing.Some?)
    && (v.syncing.Some? ==>
          v.syncing.value in passes && SyncPass(passes[v.syncing.value]) && passes[v.syncing.value].run == v.generation)
  }

  ghost predicate Inv(w: World) {
    && (w.v.space.None? ==> w.v.entries == map[])
    && (w.active.Some? ==> w.active.value in w.copies)
    && (forall p :: p in w.passes ==> PassOk(w.origin, w.v, w.copies.Keys, w.passes[p]))
    && OneLoad(w.passes) && SyncingOk(w.v, w.passes)
    && (forall t :: t in w.writes ==> WriteOk(w.origin, w.writes[t]))
    && (forall s :: s in w.copies ==> Of(w.origin, s, w.copies[s]))
  }

  lemma AppliedOf(origin: map<Id, set<Item>>, space: Id, records: map<Id, Item>, effect: Effect)
    requires Of(origin, space, records) && EffectOf(origin, space, effect)
    ensures Of(origin, space, Applied(records, effect))
  {
    if effect.Keep? {
      assert effect.item.id in map[effect.item.id := effect.item];
    }
  }

  lemma ApplyOf(origin: map<Id, set<Item>>, space: Id, records: map<Id, Item>, changes: R.Changes)
    requires Of(origin, space, records) && Of(origin, space, changes.items)
    ensures Of(origin, space, R.ApplyChanges(records, changes)) && Of(origin, space, R.StoreChanges(records, changes))
  {
  }

  lemma ApplyNotOlder(records: map<Id, Item>, changes: R.Changes)
    requires changes.items.Keys !! changes.removed && !changes.reset
    ensures NotOlder(records, R.ApplyChanges(records, changes))
  {
  }

  lemma StartSyncKeeps(w: World, p: nat)
    requires Inv(w) && p !in w.passes
    ensures Inv(StartSync(w, p))
  {
    forall q, r | Pair(q, r) && q in StartSync(w, p).passes && r in StartSync(w, p).passes
      && LoadPass(StartSync(w, p).passes[q]) && LoadPass(StartSync(w, p).passes[r])
      && StartSync(w, p).passes[q].run == StartSync(w, p).passes[r].run
      ensures q == r
    {
      assert Pair(q, r);
    }
  }

  /** A pass moves on within its own generation and space; nothing else changes but what is shown. */
  lemma PassKeeps(w: World, w': World, p: nat)
    requires Inv(w) && p in w.passes && p in w'.passes
    requires w'.passes == w.passes[p := w'.passes[p]] && w'.v.(entries := w.v.entries, cursor := w.v.cursor) == w.v
    requires w' == w.(passes := w'.passes, v := w'.v)
    requires w'.v.entries == w.v.entries || w.v.space.Some?
    requires w'.passes[p].run == w.passes[p].run && w'.passes[p].space == w.passes[p].space
    requires PassOk(w.origin, w.v, w.copies.Keys, w'.passes[p])
    requires LoadPass(w.passes[p]) == LoadPass(w'.passes[p]) && SyncPass(w.passes[p]) == SyncPass(w'.passes[p])
    ensures Inv(w')
  {
    SameLoads(w.passes, w'.passes, p);
    forall q | q in w'.passes ensures PassOk(w.origin, w'.v, w.copies.Keys, w'.passes[q]) {
      assert q != p ==> PassOk(w.origin, w.v, w.copies.Keys, w.passes[q]);
    }
  }

  lemma SameLoads(passes: map<nat, Pass>, passes': map<nat, Pass>, p: nat)
    requires OneLoad(passes) && p in passes && p in passes' && passes' == passes[p := passes'[p]]
    requires passes'[p].run == passes[p].run && LoadPass(passes[p]) == LoadPass(passes'[p])
    ensures OneLoad(passes')
  {
    forall q, r | Pair(q, r) && q in passes' && r in passes' && LoadPass(passes'[q]) && LoadPass(passes'[r])
        && passes'[q].run == passes'[r].run
      ensures q == r
    {
      assert Pair(q, r);
    }
  }

  lemma DropPass(w: World, p: nat)
    requires Inv(w) && p in w.passes && LoadPass(w.passes[p])
    ensures Inv(w.(passes := w.passes - {p}))
  {
    forall q, r | Pair(q, r) && q in w.passes - {p} && r in w.passes - {p} && LoadPass(w.passes[q])
        && LoadPass(w.passes[r]) && w.passes[q].run == w.passes[r].run
      ensures q == r
    {
      assert Pair(q, r);
    }
  }

  lemma StoredKeeps(w: World, p: nat)
    requires Inv(w) && Enabled(w, Stored(p))
    ensures Inv(Do(w, Stored(p)))
  {
    var pass := w.passes[p];
    var filed := w.(copies := w.copies[pass.space := R.StoreChanges(w.copies[pass.space], pass.changes)]);
    assert PassOk(w.origin, w.v, w.copies.Keys, pass);
    ApplyOf(w.origin, pass.space, w.copies[pass.space], pass.changes);
    assert filed.copies.Keys == w.copies.Keys;
    if !pass.changes.reset {
      ApplyNotOlder(w.v.entries, pass.changes);
    }
    assert Inv(filed);
    PassKeeps(filed, Do(w, Stored(p)), p);
  }

  lemma PullKeeps(w: World, step: Step)
    requires step.PublishSync? || step.Pulled? || step.UpToDate?
    requires Inv(w) && Enabled(w, step)
    ensures Inv(Do(w, step))
  {
    assert PassOk(w.origin, w.v, w.copies.Keys, w.passes[step.p]);
    PassKeeps(w, Do(w, step), step.p);
  }

  lemma ReadDiskKeeps(w: World, p: nat, cursor: nat)
    requires Inv(w) && Enabled(w, ReadDisk(p, cursor))
    ensures Inv(Do(w, ReadDisk(p, cursor)))
  {
    assert PassOk(w.origin, w.v, w.copies.Keys, w.passes[p]);
    if StillCurrent(w, w.passes[p]) {
      PassKeeps(w, Do(w, ReadDisk(p, cursor)), p);
    } else {
      DropPass(w, p);
    }
  }

  lemma PublishLoadKeeps(w: World, p: nat)
    requires Inv(w) && Enabled(w, PublishLoad(p))
    ensures Inv(Do(w, PublishLoad(p)))
  {
    var dropped := w.(passes := w.passes - {p});
    DropPass(w, p);
    if StillCurrent(w, w.passes[p]) {
      var w' := Do(w, PublishLoad(p));
      forall q | q in w'.passes ensures PassOk(w.origin, w'.v, w.copies.Keys, w'.passes[q]) {
        assert PassOk(w.origin, w.v, w.copies.Keys, dropped.passes[q]);
      }
    }
  }

  lemma ShowKeeps(w: World, t: nat, p: nat)
    requires Inv(w) && Enabled(w, Show(t, p))
    ensures Inv(Do(w, Show(t, p)))
  {
    var write := w.writes[t];
    if StillOpen(w, write.space) {
      StartSyncKeeps(w.(writes := w.writes - {t}, v := w.v.(entries := Applied(w.v.entries, write.effect))), p);
    }
  }

  lemma EndKeeps(w: World, p: nat, next: nat)
    requires Inv(w) && Enabled(w, End(p, next))
    ensures Inv(Do(w, End(p, next)))
  {
    if w.v.syncing == Some(p) && w.v.again {
      StartSyncKeeps(w.(passes := w.passes - {p}, v := w.v.(syncing := None, again := false)), next);
    }
  }

  lemma PutAwayKeeps(w: World, t: nat)
    requires Inv(w) && Enabled(w, PutAway(t))
    ensures Inv(Do(w, PutAway(t)))
  {
    var write := w.writes[t];
    AppliedOf(w.origin, write.space, w.copies[write.space], write.effect);
    assert w.copies[write.space := Applied(w.copies[write.space], write.effect)].Keys == w.copies.Keys;
  }

  lemma BeginLoadKeeps(w: World, p: nat)
    requires Inv(w) && Enabled(w, BeginLoad(p))
    ensures Inv(Do(w, BeginLoad(p)))
  {
    var w' := Do(w, BeginLoad(p));
    forall q, r | Pair(q, r) && q in w'.passes && r in w'.passes && LoadPass(w'.passes[q]) && LoadPass(w'.passes[r])
        && w'.passes[q].run == w'.passes[r].run
      ensures q == r
    {
      assert q != p ==> w'.passes[q].run <= w.v.generation;
      assert r != p ==> w'.passes[r].run <= w.v.generation;
    }
  }

  lemma SwitchKeeps(w: World, step: Step)
    requires step.Close? || step.Open?
    requires Inv(w) && Enabled(w, step)
    ensures Inv(Do(w, step))
  {
    forall q | q in w.passes ensures PassOk(w.origin, Do(w, step).v, w.copies.Keys, w.passes[q]) {
      assert PassOk(w.origin, w.v, w.copies.Keys, w.passes[q]);
    }
  }

  lemma OriginStays(w: World, step: Step)
    requires Enabled(w, step)
    ensures Do(w, step).origin == w.origin
  {
  }

  /** Every step keeps what is on its way, and what is filed, with its own space. */
  lemma StepKeeps(w: World, step: Step)
    requires Inv(w) && Enabled(w, step)
    ensures Inv(Do(w, step))
  {
    match step
    case Open(_) => SwitchKeeps(w, step);
    case Close => SwitchKeeps(w, step);
    case BeginLoad(p) => BeginLoadKeeps(w, p);
    case ReadDisk(p, cursor) => ReadDiskKeeps(w, p, cursor);
    case PublishLoad(p) => PublishLoadKeeps(w, p);
    case AskSync(p) => StartSyncKeeps(w, p);
    case Stored(p) => StoredKeeps(w, p);
    case End(p, next) => EndKeeps(w, p, next);
    case BeginWrite(t) =>
    case Answer(t, effect) =>
    case PutAway(t) => PutAwayKeeps(w, t);
    case Show(t, p) => ShowKeeps(w, t, p);
    case _ => PullKeeps(w, step);
  }

  // ---------------------------------------------------------------------
  // What is shown
  // ---------------------------------------------------------------------

  /** A load is under way that would replace the shown space by another. */
  ghost predicate ForeignLoad(w: World) {
    exists p :: p in w.passes && Foreign(w.v, w.passes[p])
  }

  predicate Foreign(v: View, pass: Pass) {
    LoadPass(pass) && pass.run == v.generation && v.space.Some? && v.space != Some(pass.space)
  }

  /** A sync that may still publish is for the space shown, and carries its items. */
  ghost predicate SyncOwn(origin: map<Id, set<Item>>, v: View, pass: Pass) {
    SyncPass(pass) && pass.run == v.generation ==>
      && v.space == Some(pass.space)
      && (pass.Opening? ==> Of(origin, pass.space, pass.before) && Of(origin, pass.space, pass.records))
  }

  /** What is shown is the shown space's, and so is whatever may still be shown. */
  ghost predicate Own(w: World) {
    && (w.v.space.Some? ==> Of(w.origin, w.v.space.value, w.v.entries))
    && (forall p :: p in w.passes ==> SyncOwn(w.origin, w.v, w.passes[p]))
    && (ForeignLoad(w) ==> w.active != w.v.space && NoSyncs(w.v.generation, w.passes))
  }

  ghost predicate NoSyncs(generation: nat, passes: map<nat, Pass>) {
    forall p :: p in passes && SyncPass(passes[p]) ==> passes[p].run < generation
  }

  /** Going back to the space still shown, while a load of another is under way, is what is not safe. */
  ghost predicate Safe(w: World, step: Step) {
    step.Open? && ForeignLoad(w) ==> w.v.space != Some(step.space)
  }

  /** No pass begins or leaves behind a load that was not there. */
  lemma FewerLoads(w: World, w': World)
    requires w'.v.space == w.v.space && w'.v.generation == w.v.generation
    requires forall p :: p in w'.passes && LoadPass(w'.passes[p]) ==>
               p in w.passes && LoadPass(w.passes[p]) && w.passes[p].run == w'.passes[p].run
                   && w.passes[p].space == w'.passes[p].space
    ensures ForeignLoad(w') ==> ForeignLoad(w)
  {
    if ForeignLoad(w') {
      var p :| p in w'.passes && Foreign(w'.v, w'.passes[p]);
      assert Foreign(w.v, w.passes[p]);
    }
  }

  lemma StartSyncOwn(w: World, p: nat)
    requires Inv(w) && Own(w) && p !in w.passes
    ensures Own(StartSync(w, p))
  {
    FewerLoads(w, StartSync(w, p));
  }

  lemma StoredOwn(w: World, p: nat)
    requires Inv(w) && Own(w) && Enabled(w, Stored(p))
    ensures Own(Do(w, Stored(p)))
  {
    var pass := w.passes[p];
    assert PassOk(w.origin, w.v, w.copies.Keys, pass) && SyncOwn(w.origin, w.v, pass);
    FewerLoads(w, Do(w, Stored(p)));
    if StillCurrent(w, pass) {
      ApplyOf(w.origin, pass.space, w.v.entries, pass.changes);
    }
  }

  lemma PublishLoadOwn(w: World, p: nat)
    requires Inv(w) && Own(w) && Enabled(w, PublishLoad(p))
    ensures Own(Do(w, PublishLoad(p)))
  {
    var pass, w' := w.passes[p], Do(w, PublishLoad(p));
    assert PassOk(w.origin, w.v, w.copies.Keys, pass);
    if StillCurrent(w, pass) {
      assert w.v.space.Some? && w.v.space != Some(pass.space) ==> Foreign(w.v, pass);
      forall q | q in w'.passes ensures !Foreign(w'.v, w'.passes[q]) {
        assert Pair(p, q);
      }
    } else {
      FewerLoads(w, w');
    }
  }

  lemma ReadDiskOwn(w: World, p: nat, cursor: nat)
    requires Own(w) && Enabled(w, ReadDisk(p, cursor))
    ensures Own(Do(w, ReadDisk(p, cursor)))
  {
    FewerLoads(w, Do(w, ReadDisk(p, cursor)));
  }

  lemma PullOwn(w: World, step: Step)
    requires step.Pulled? || step.UpToDate?
    requires Own(w) && Enabled(w, step)
    ensures Own(Do(w, step))
  {
    assert SyncOwn(w.origin, w.v, w.passes[step.p]);
    FewerLoads(w, Do(w, step));
  }

  lemma PublishSyncOwn(w: World, p: nat)
    requires Own(w) && Enabled(w, PublishSync(p))
    ensures Own(Do(w, PublishSync(p)))
  {
    assert SyncOwn(w.origin, w.v, w.passes[p]);
    FewerLoads(w, Do(w, PublishSync(p)));
  }

  lemma ShowOwn(w: World, t: nat, p: nat)
    requires Inv(w) && Own(w) && Enabled(w, Show(t, p))
    ensures Own(Do(w, Show(t, p)))
  {
    var write := w.writes[t];
    var shown := w.(writes := w.writes - {t});
    if StillOpen(w, write.space) {
      var applied := shown.(v := w.v.(entries := Applied(w.v.entries, write.effect)));
      AppliedOf(w.origin, write.space, w.v.entries, write.effect);
      FewerLoads(w, applied);
      StartSyncOwn(applied, p);
    } else {
      FewerLoads(w, shown);
    }
  }

  lemma EndOwn(w: World, p: nat, next: nat)
    requires Inv(w) && Own(w) && Enabled(w, End(p, next))
    ensures Own(Do(w, End(p, next)))
  {
    var ended := w.(passes := w.passes - {p}, v := Ended(w.v, p));
    FewerLoads(w, ended);
    if w.v.syncing == Some(p) && w.v.again {
      StartSyncOwn(ended, next);
    }
  }

  lemma BeginLoadOwn(w: World, p: nat)
    requires Inv(w) && Own(w) && Enabled(w, BeginLoad(p))
    ensures Own(Do(w, BeginLoad(p)))
  {
    var w' := Do(w, BeginLoad(p));
    forall q | q in w'.passes && q != p ensures w'.passes[q].run < w'.v.generation {
      assert PassOk(w.origin, w.v, w.copies.Keys, w.passes[q]);
    }
  }

  lemma CloseOwn(w: World)
    requires Inv(w)
    ensures Own(Do(w, Close))
  {
    forall q | q in w.passes ensures w.passes[q].run < w.v.generation + 1 {
      assert PassOk(w.origin, w.v, w.copies.Keys, w.passes[q]);
    }
  }

  lemma QuietOwn(w: World, step: Step)
    requires step.BeginWrite? || step.Answer? || step.PutAway?
    requires Own(w) && Enabled(w, step)
    ensures Own(Do(w, step))
  {
    FewerLoads(w, Do(w, step));
  }

  lemma OpenExact(w: World, space: Id)
    requires Own(w) && Enabled(w, Open(space))
    ensures Own(Do(w, Open(space))) <==> Safe(w, Open(space))
  {
    var w' := Do(w, Open(space));
    FewerLoads(w, w');
    FewerLoads(w', w);
  }

  /**
   * Every step leaves what is shown, and may yet be shown, with its own space, except exactly a switch
   * back to the space still shown while another is being loaded.
   */
  lemma OwnExact(w: World, step: Step)
    requires Inv(w) && Own(w) && Enabled(w, step)
    ensures Own(Do(w, step)) <==> Safe(w, step)
  {
    match step
    case Open(space) => OpenExact(w, space);
    case Close => CloseOwn(w);
    case BeginLoad(p) => BeginLoadOwn(w, p);
    case PublishLoad(p) => PublishLoadOwn(w, p);
    case AskSync(p) => StartSyncOwn(w, p);
    case Stored(p) => StoredOwn(w, p);
    case End(p, next) => EndOwn(w, p, next);
    case Show(t, p) => ShowOwn(w, t, p);
    case BeginWrite(_) => QuietOwn(w, step);
    case Answer(_, _) => QuietOwn(w, step);
    case PutAway(_) => QuietOwn(w, step);
    case ReadDisk(p, cursor) => ReadDiskOwn(w, p, cursor);
    case PublishSync(p) => PublishSyncOwn(w, p);
    case _ => PullOwn(w, step);
  }

  // ---------------------------------------------------------------------
  // Whole runs
  // ---------------------------------------------------------------------

  ghost predicate CanRun(w: World, steps: seq<Step>)
    decreases |steps|
  {
    steps == [] || (Enabled(w, steps[0]) && CanRun(Do(w, steps[0]), steps[1..]))
  }

  ghost function Run(w: World, steps: seq<Step>): World
    requires CanRun(w, steps)
    decreases |steps|
  {
    if steps == [] then w else Run(Do(w, steps[0]), steps[1..])
  }

  ghost predicate SafeRun(w: World, steps: seq<Step>)
    requires CanRun(w, steps)
    decreases |steps|
  {
    steps == [] || (Safe(w, steps[0]) && SafeRun(Do(w, steps[0]), steps[1..]))
  }

  ghost predicate LeadsTo(w: World, steps: seq<Step>, last: World) {
    CanRun(w, steps) && Run(w, steps) == last
  }

  lemma {:induction false} OneMore(start: World, steps: seq<Step>, w: World, step: Step)
    requires LeadsTo(start, steps, w) && Enabled(w, step)
    ensures LeadsTo(start, steps + [step], Do(w, step))
    ensures SafeRun(start, steps) && Safe(w, step) ==> SafeRun(start, steps + [step])
    decreases |steps|
  {
    if steps == [] {
      assert [step][1..] == [];
      assert steps + [step] == [step];
    } else {
      OneMore(Do(start, steps[0]), steps[1..], w, step);
      assert (steps + [step])[1..] == steps[1..] + [step];
    }
  }

  lemma {:induction false} RunKeeps(w: World, steps: seq<Step>)
    requires Inv(w) && CanRun(w, steps)
    ensures Inv(Run(w, steps)) && Run(w, steps).origin == w.origin
    ensures Own(w) && SafeRun(w, steps) ==> Own(Run(w, steps))
    decreases |steps|
  {
    if steps != [] {
      StepKeeps(w, steps[0]);
      OriginStays(w, steps[0]);
      if Own(w) {
        OwnExact(w, steps[0]);
      }
      RunKeeps(Do(w, steps[0]), steps[1..]);
    }
  }

  ghost function Init(origin: map<Id, set<Item>>, copies: map<Id, map<Id, Item>>): World {
    World(origin, None, View(None, map[], 0, 0, None, false), map[], map[], copies)
  }

  lemma InitOwn(origin: map<Id, set<Item>>, copies: map<Id, map<Id, Item>>)
    requires forall s :: s in copies ==> Of(origin, s, copies[s])
    ensures Inv(Init(origin, copies)) && Own(Init(origin, copies))
  {
  }

  /**
   * Whatever is still running when spaces are opened, closed and switched: what is filed for a space is
   * its own in every run, and what is shown for it in every run whose switches are safe.
   */
  lemma NoCrossSpacePublication(origin: map<Id, set<Item>>, copies: map<Id, map<Id, Item>>, steps: seq<Step>)
    requires (forall s :: s in copies ==> Of(origin, s, copies[s])) && CanRun(Init(origin, copies), steps)
    ensures var w := Run(Init(origin, copies), steps);
            && (forall s :: s in w.copies ==> Of(origin, s, w.copies[s]))
            && (SafeRun(Init(origin, copies), steps) && w.v.space.Some? ==> Of(origin, w.v.space.value, w.v.entries))
  {
    InitOwn(origin, copies);
    RunKeeps(Init(origin, copies), steps);
  }

  lemma PublishNeverGoesBack(before: map<Id, Item>, records: map<Id, Item>, now: map<Id, Item>, id: Id)
    requires NotOlder(before, records) && id in now && id in Merged(records, before, now)
    ensures now[id].seqNo <= Merged(records, before, now)[id].seqNo
  {
  }

  /** Between loads and full rebuilds, an item that stays in view never goes back to an earlier change. */
  lemma ViewNeverGoesBack(w: World, step: Step, id: Id)
    requires Inv(w) && Enabled(w, step) && !step.PublishLoad? && !(step.PublishSync? && w.passes[step.p].reset)
    requires id in w.v.entries && id in Do(w, step).v.entries
    ensures w.v.entries[id].seqNo <= Do(w, step).v.entries[id].seqNo
  {
    if step.PublishSync? {
      var pass := w.passes[step.p];
      assert PassOk(w.origin, w.v, w.copies.Keys, pass);
      if StillCurrent(w, pass) {
        PublishNeverGoesBack(pass.before, pass.records, w.v.entries, id);
      }
    } else {
      OthersNeverGoBack(w, step, id);
    }
  }

  lemma OthersNeverGoBack(w: World, step: Step, id: Id)
    requires Enabled(w, step) && !step.PublishLoad? && !step.PublishSync?
    requires id in w.v.entries && id in Do(w, step).v.entries
    ensures w.v.entries[id].seqNo <= Do(w, step).v.entries[id].seqNo
  {
  }

  /**
   * Asking during a pass is never forgotten: it is noted, and stays noted until the pass ends or the view
   * is replaced.
   */
  lemma RequestIsNoted(w: World, step: Step)
    requires Inv(w) && Enabled(w, step) && w.v.syncing.Some?
    requires step.AskSync? || (step.Show? && StillOpen(w, w.writes[step.t].space)) || w.v.again
    ensures var v := Do(w, step).v;
            || (v.again && v.syncing == w.v.syncing)
            || step == End(w.v.syncing.value, if step.End? then step.next else 0)
            || v.generation > w.v.generation
  {
    if !step.AskSync? && !step.Show? {
      RequestStays(w, step);
    }
  }

  lemma RequestStays(w: World, step: Step)
    requires Enabled(w, step) && w.v.syncing.Some? && w.v.again && !step.AskSync? && !step.Show?
    ensures var v := Do(w, step).v;
            || (v.again && v.syncing == w.v.syncing)
            || step == End(w.v.syncing.value, if step.End? then step.next else 0)
            || v.generation > w.v.generation
  {
  }

  /**
   * And when that pass ends, the next one starts from what is known then, exactly if the space shown is
   * still the open one.
   */
  lemma RequestIsFollowed(w: World, p: nat, next: nat)
    requires Inv(w) && Own(w) && Enabled(w, End(p, next)) && w.v.syncing == Some(p) && w.v.again
    ensures var w' := Do(w, End(p, next));
            && !w'.v.again
            && (w'.v.syncing == Some(next) <==> StillOpen(w, w.passes[p].space))
            && (StillOpen(w, w.passes[p].space) ==>
                  next in w'.passes && w'.passes[next] == Pulling(w.v.generation, w.passes[p].space, w.v.cursor))
  {
    assert SyncOwn(w.origin, w.v, w.passes[p]);
  }

  /**
   * An item dropped while a sync was opening records comes back into view exactly when that sync had read
   * it before.
   */
  lemma DroppedReappearsExact(w: World, p: nat, id: Id)
    requires Inv(w) && Enabled(w, PublishSync(p)) && StillCurrent(w, w.passes[p]) && id !in w.v.entries
    ensures id in Do(w, PublishSync(p)).v.entries <==> id in w.passes[p].records
  {
  }
}
