/**
 * The vault a page holds in memory for the space it has open, while loads, syncs and writes of
 * that space and of others are still under way.
 */
module VaultView {
  import opened Basics
  import opened VaultServer
  import R = VaultReplication

  // ---------------------------------------------------------------------
  // The module's variables, and what runs between two awaits
  // ---------------------------------------------------------------------

  /** `space` is the space whose items `entries` are; `syncing` the pass under way. */
  datatype View = View(
    space: Option<Id>,
    entries: map<Id, Item>,
    cursor: nat,
    generation: nat,
    syncing: Option<nat>,
    again: bool)

  function Begun(v: View): View {
    v.(generation := v.generation + 1, syncing := None, again := false)
  }

  function Cleared(v: View): View {
    Begun(v).(space := None, entries := map[], cursor := 0)
  }

  function Loaded(v: View, space: Id, records: map<Id, Item>, cursor: nat): View {
    v.(space := Some(space), entries := records, cursor := cursor)
  }

  /** A pass starts only for the space that is both open and loaded; while one runs, another is asked for. */
  predicate Starts(v: View, active: Option<Id>) {
    v.syncing.None? && active.Some? && v.space == active
  }

  function Asked(v: View, active: Option<Id>, pass: nat): View {
    if v.syncing.Some? then v.(again := true)
    else if Starts(v, active) then v.(syncing := Some(pass))
    else v
  }

  /** A pass ends; one that belonged to a view since replaced changes nothing. */
  function Ended(v: View, pass: nat): View {
    if v.syncing == Some(pass) then v.(syncing := None, again := false) else v
  }

  predicate Current(v: View, active: Option<Id>, run: nat, space: Id) {
    run == v.generation && active == Some(space)
  }

  datatype Effect = Keep(item: Item) | Drop(ids: set<Id>)

  function Applied(records: map<Id, Item>, effect: Effect): map<Id, Item> {
    match effect
    case Keep(item) => Remembered(records, item)
    case Drop(ids) => records - ids
  }

  /** The opened records, overlaid with the entries rewritten in memory since `before`. */
  function Merged(records: map<Id, Item>, before: map<Id, Item>, now: map<Id, Item>): map<Id, Item> {
    map id | id in records.Keys + now.Keys && (id in records || Rewritten(before, now, id)) ::
      if Rewritten(before, now, id) && (id !in records || records[id].seqNo < now[id].seqNo) then now[id]
          else records[id]
  }

  predicate Rewritten(before: map<Id, Item>, now: map<Id, Item>, id: Id) {
    id in now && !(id in before && before[id] == now[id])
  }

  /** A record the server returned goes in unless a later one is already there. */
  function Remembered(entries: map<Id, Item>, item: Item): map<Id, Item> {
    if item.id !in entries || entries[item.id].seqNo < item.seqNo then entries[item.id := item] else entries
  }

  /** What is in memory, and whose it is, did not change. */
  ghost predicate SameItems(before: View, after: View) {
    after.space == before.space && after.entries == before.entries && after.cursor == before.cursor
  }

  class VaultItems {
    var v: View

    constructor ()
      ensures v == View(None, map[], 0, 0, None, false)
    {
      v := View(None, map[], 0, 0, None, false);
    }

    method Begin() returns (run: nat)
      modifies this
      ensures v == Begun(old(v)) && run == v.generation
      ensures SameItems(old(v), v) && v.generation == old(v).generation + 1 && v.syncing.None? && !v.again
    {
      v := v.(generation := v.generation + 1);
      v := v.(syncing := None, again := false);
      return v.generation;
    }

    method ClearVault()
      modifies this
      ensures v == Cleared(old(v))
      ensures v == View(None, map[], 0, old(v).generation + 1, None, false)
    {
      var _ := Begin();
      v := v.(entries := map[], space := None, cursor := 0);
    }

    /** The end of a load: published only if nothing replaced the view meanwhile. */
    method PublishLoad(active: Option<Id>, run: nat, space: Id, records: map<Id, Item>, cursor: nat)
      returns (published: bool)
      modifies this
      ensures published == Current(old(v), active, run, space)
      ensures v == if published then Loaded(old(v), space, records, cursor) else old(v)
      ensures published <==> run == old(v).generation && active == Some(space)
      ensures published ==> v == View(Some(space), records, cursor, run, old(v).syncing, old(v).again)
    {
      published := run == v.generation && active == Some(space);
      if published {
        v := v.(entries := records, cursor := cursor);
        v := v.(space := Some(space));
      }
    }

    /** A sync is asked for: it starts, or is left to follow the one under way. */
    method SyncVault(active: Option<Id>, pass: nat) returns (starts: bool)
      modifies this
      ensures starts == Starts(old(v), active) && v == Asked(old(v), active, pass)
      ensures SameItems(old(v), v) && v.generation == old(v).generation
      ensures starts <==> old(v).syncing.None? && active.Some? && old(v).space == active
      ensures v.syncing == (if starts then Some(pass) else old(v).syncing)
      ensures v.again <==> old(v).again || old(v).syncing.Some?
    {
      if v.syncing.Some? {
        v := v.(again := true);
        return false;
      }
      starts := active.Some? && v.space == active;
      if starts {
        v := v.(syncing := Some(pass));
      }
    }

    /** A pass is over. If another was asked for, it starts at once, for whatever is open now. */
    method EndPass(active: Option<Id>, pass: nat, next: nat) returns (starts: bool)
      modifies this
      ensures var followed := old(v).syncing == Some(pass) && old(v).again;
              && v == (if followed then Asked(Ended(old(v), pass), active, next) else Ended(old(v), pass))
              && starts == (followed && Starts(Ended(old(v), pass), active))
      ensures old(v).syncing != Some(pass) ==> v == old(v) && !starts
      ensures old(v).syncing == Some(pass) ==>
                && SameItems(old(v), v) && v.generation == old(v).generation && !v.again
                && (starts <==> old(v).again && active.Some? && old(v).space == active)
                && v.syncing == if starts then Some(next) else None
    {
      starts := false;
      if v.syncing != Some(pass) {
        return;
      }
      v := v.(syncing := None);
      if v.again {
        v := v.(again := false);
        starts := SyncVault(active, next);
      }
    }

    /** A write's result, shown only in the space it was made in. */
    method Show(active: Option<Id>, space: Id, effect: Effect, pass: nat) returns (starts: bool)
      modifies this
      ensures var shown := old(v).(entries := Applied(old(v).entries, effect));
              if active == Some(space) && old(v).space == Some(space)
              then v == Asked(shown, active, pass) && starts == Starts(shown, active)
              else v == old(v) && !starts
      ensures v.space == old(v).space && v.cursor == old(v).cursor
      ensures active == Some(space) == old(v).space ==>
                match effect
                case Drop(ids) => v.entries == old(v).entries - ids
                case Keep(item) =>
                  if item.id in old(v).entries && item.seqNo <= old(v).entries[item.id].seqNo
                  then v.entries == old(v).entries
                  else v.entries == old(v).entries[item.id := item]
    {
      if active != Some(space) || v.space != Some(space) {
        return false;
      }
      match effect {
        case Keep(item) =>
          if item.id !in v.entries || v.entries[item.id].seqNo < item.seqNo {
            v := v.(entries := v.entries[item.id := item]);
          }
        case Drop(ids) =>
          v := v.(entries := v.entries - ids);
      }
      starts := SyncVault(active, pass);
    }

    /** The end of opening: nothing written meanwhile is lost, and nothing merely left over is kept. */
    method PublishOpened(records: map<Id, Item>, before: map<Id, Item>)
      modifies this
      ensures v == old(v).(entries := Merged(records, before, old(v).entries))
    {
      var merged := MergeOpened(records, before, v.entries);
      v := v.(entries := merged);
    }
  }

  method MergeOpened(records: map<Id, Item>, before: map<Id, Item>, now: map<Id, Item>) returns (merged: map<Id, Item>)
    ensures merged == Merged(records, before, now)
    ensures Overlaid(records, before, now, merged)
  {
    merged := records;
    var rest := now.Keys;
    ghost var done: map<Id, Item> := map[];
    while rest != {}
      invariant rest <= now.Keys && done.Keys == now.Keys - rest
      invariant forall id :: id in done ==> done[id] == now[id]
      invariant merged == Merged(records, before, done)
      decreases |rest|
    {
      var id :| id in rest;
      MergedOne(records, before, done, now[id], id);
      merged := WithOne(merged, before, now[id], id);
      done := done[id := now[id]];
      rest := rest - {id};
    }
    assert done == now;
    MergedExact(records, before, now);
  }

  /** Everything opened, and everything written since `before`; of two versions the newer. */
  ghost predicate Overlaid(records: map<Id, Item>, before: map<Id, Item>, now: map<Id, Item>, merged: map<Id, Item>) {
    && (forall id :: id in merged <==> id in records || (id in now && !(id in before && before[id] == now[id])))
    && (forall id :: id in merged ==>
          merged[id] == if id in now && !(id in before && before[id] == now[id])
              && !(id in records && now[id].seqNo <= records[id].seqNo)
                        then now[id] else records[id])
  }

  lemma MergedExact(records: map<Id, Item>, before: map<Id, Item>, now: map<Id, Item>)
    ensures Overlaid(records, before, now, Merged(records, before, now))
  {
  }

  /**
   * One entry in memory against what was opened: kept if this device wrote it meanwhile, and nothing opened
   * is newer.
   */
  function WithOne(merged: map<Id, Item>, before: map<Id, Item>, entry: Item, id: Id): map<Id, Item> {
    if id in before && before[id] == entry then merged
    else if id !in merged || merged[id].seqNo < entry.seqNo then merged[id := entry]
    else merged
  }

  lemma MergedOne(records: map<Id, Item>, before: map<Id, Item>, done: map<Id, Item>, entry: Item, id: Id)
    requires id !in done
    ensures Merged(records, before, done[id := entry]) == WithOne(Merged(records, before, done), before, entry, id)
  {
    var more := done[id := entry];
    assert forall k :: k in done ==> Rewritten(before, done, k) == Rewritten(before, more, k);
  }
}
