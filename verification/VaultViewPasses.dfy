/** What a load, a sync and a write come to, from any state, when nothing else happens meanwhile. */
module VaultViewPasses {
  import opened Basics
  import opened VaultServer
  import opened VaultView
  import opened VaultViewRuns
  import R = VaultReplication

  /** A load shows the copy of the open space, whatever was shown before, in a generation of its own. */
  lemma LoadRuns(w: World, space: Id, p: nat, cursor: nat) returns (steps: seq<Step>, last: World)
    requires w.active == Some(space) && space in w.copies && p !in w.passes
    ensures LeadsTo(w, steps, last)
    ensures last == w.(v := View(Some(space), w.copies[space], cursor, w.v.generation + 1, None, false))
  {
    assert LeadsTo(w, [], w);
    OneMore(w, [], w, BeginLoad(p));
    var w1 := Do(w, BeginLoad(p));
    OneMore(w, [] + [BeginLoad(p)], w1, ReadDisk(p, cursor));
    var w2 := Do(w1, ReadDisk(p, cursor));
    OneMore(w, [] + [BeginLoad(p)] + [ReadDisk(p, cursor)], w2, PublishLoad(p));
    steps, last := [] + [BeginLoad(p)] + [ReadDisk(p, cursor)] + [PublishLoad(p)], Do(w2, PublishLoad(p));
    assert last.passes == w.passes;
  }

  /** The open space is shown, and no sync is at work on it. */
  ghost predicate Settled(w: World, space: Id) {
    && w.active == Some(space) && w.v.space == Some(space) && space in w.copies
    && w.v.syncing.None? && !w.v.again
  }

  lemma FiledRuns(w: World, space: Id, p: nat, changes: R.Changes) returns (steps: seq<Step>, last: World)
    requires Settled(w, space) && p !in w.passes
    requires Of(w.origin, space, changes.items) && changes.items.Keys !! changes.removed
    ensures LeadsTo(w, steps, last)
    ensures var shown := R.ApplyChanges(w.v.entries, changes);
            && last.v == w.v.(syncing := Some(p), cursor := changes.cursor)
            && last.passes == w.passes[p := Opening(w.v.generation, space, w.v.entries, shown, changes.reset)]
            && last.copies == w.copies[space := R.StoreChanges(w.copies[space], changes)]
            && last == w.(v := last.v, passes := last.passes, copies := last.copies)
  {
    assert LeadsTo(w, [], w);
    OneMore(w, [], w, AskSync(p));
    var w1 := Do(w, AskSync(p));
    OneMore(w, [] + [AskSync(p)], w1, Pulled(p, changes));
    var w2 := Do(w1, Pulled(p, changes));
    OneMore(w, [] + [AskSync(p)] + [Pulled(p, changes)], w2, Stored(p));
    steps, last := [] + [AskSync(p)] + [Pulled(p, changes)] + [Stored(p)], Do(w2, Stored(p));
    assert last.passes == w.passes[p := last.passes[p]];
  }

  /** A sync that fetched something files it, shows it, and moves the cursor; what was there is not disturbed. */
  lemma SyncRuns(w: World, space: Id, p: nat, next: nat, changes: R.Changes) returns (steps: seq<Step>, last: World)
    requires Settled(w, space) && p !in w.passes && next !in w.passes && next != p
    requires Of(w.origin, space, changes.items) && changes.items.Keys !! changes.removed
    ensures LeadsTo(w, steps, last)
    ensures last == w.(copies := last.copies, v := w.v.(entries := last.v.entries, cursor := changes.cursor))
    ensures last.copies == w.copies[space := R.StoreChanges(w.copies[space], changes)]
    ensures last.v.entries == R.ApplyChanges(w.v.entries, changes)
  {
    var filed, w1 := FiledRuns(w, space, p, changes);
    NothingWritten(R.ApplyChanges(w.v.entries, changes), w.v.entries);
    OneMore(w, filed, w1, PublishSync(p));
    var w2 := Do(w1, PublishSync(p));
    OneMore(w, filed + [PublishSync(p)], w2, End(p, next));
    steps, last := filed + [PublishSync(p)] + [End(p, next)], Do(w2, End(p, next));
    assert last.passes == w.passes;
  }

  /** Opened records replace what is shown, when nothing was written meanwhile. */
  lemma NothingWritten(records: map<Id, Item>, entries: map<Id, Item>)
    ensures Merged(records, entries, entries) == records
  {
  }

  /** A sync that found nothing leaves everything as it was. */
  lemma IdleSyncRuns(w: World, space: Id, p: nat, next: nat) returns (steps: seq<Step>)
    requires Settled(w, space) && p !in w.passes && next !in w.passes && next != p
    ensures LeadsTo(w, steps, w)
  {
    assert LeadsTo(w, [], w);
    OneMore(w, [], w, AskSync(p));
    var w1 := Do(w, AskSync(p));
    OneMore(w, [] + [AskSync(p)], w1, UpToDate(p));
    var w2 := Do(w1, UpToDate(p));
    OneMore(w, [] + [AskSync(p)] + [UpToDate(p)], w2, PublishSync(p));
    var w3 := Do(w2, PublishSync(p));
    NothingWritten(w.v.entries, w.v.entries);
    OneMore(w, [] + [AskSync(p)] + [UpToDate(p)] + [PublishSync(p)], w3, End(p, next));
    steps := [] + [AskSync(p)] + [UpToDate(p)] + [PublishSync(p)] + [End(p, next)];
    assert Do(w3, End(p, next)).passes == w.passes;
  }

  lemma AnsweredRuns(w: World, space: Id, t: nat, effect: Effect) returns (steps: seq<Step>, last: World)
    requires w.active == Some(space) && t !in w.writes && EffectOf(w.origin, space, effect)
    ensures LeadsTo(w, steps, last) && last == w.(writes := w.writes[t := Filing(space, effect)])
  {
    assert LeadsTo(w, [], w);
    OneMore(w, [], w, BeginWrite(t));
    var w1 := Do(w, BeginWrite(t));
    OneMore(w, [] + [BeginWrite(t)], w1, Answer(t, effect));
    steps, last := [] + [BeginWrite(t)] + [Answer(t, effect)], Do(w1, Answer(t, effect));
  }

  /** A write files its result and shows it, and asks for a sync from the cursor the space had. */
  lemma WriteRuns(w: World, space: Id, t: nat, p: nat, effect: Effect) returns (steps: seq<Step>, last: World)
    requires Settled(w, space) && t !in w.writes && p !in w.passes && EffectOf(w.origin, space, effect)
    ensures LeadsTo(w, steps, last)
    ensures last == w.(copies := last.copies, v := w.v.(entries := last.v.entries, syncing := Some(p)),
                       passes := w.passes[p := Pulling(w.v.generation, space, w.v.cursor)])
    ensures space in last.copies && last.copies == w.copies[space := last.copies[space]]
    ensures match effect
            case Drop(ids) => last.copies[space] == w.copies[space] - ids && last.v.entries == w.v.entries - ids
            case Keep(item) =>
              && item.id in last.copies[space] && item.id in last.v.entries
              && item.seqNo <= last.copies[space][item.id].seqNo && item.seqNo <= last.v.entries[item.id].seqNo
              && last.copies[space] == w.copies[space][item.id := last.copies[space][item.id]]
              && last.v.entries == w.v.entries[item.id := last.v.entries[item.id]]
  {
    var answered, w2 := AnsweredRuns(w, space, t, effect);
    OneMore(w, answered, w2, PutAway(t));
    var w3 := Do(w2, PutAway(t));
    OneMore(w, answered + [PutAway(t)], w3, Show(t, p));
    steps := answered + [PutAway(t)] + [Show(t, p)];
    last := Do(w3, Show(t, p));
    assert last.writes == w.writes;
  }

  /** A write whose space is no longer open is filed, and not shown. */
  lemma LeftSpaceRuns(w: World, space: Id, t: nat, p: nat, effect: Effect) returns (steps: seq<Step>, last: World)
    requires w.active == Some(space) && space in w.copies
    requires t !in w.writes && p !in w.passes && EffectOf(w.origin, space, effect)
    ensures LeadsTo(w, steps, last)
    ensures last.v == View(None, map[], 0, w.v.generation + 1, None, false)
    ensures last == w.(active := None, copies := last.copies, v := last.v)
    ensures effect.Keep? ==> space in last.copies && effect.item.id in last.copies[space]
    ensures effect.Drop? ==> last.copies == w.copies[space := w.copies[space] - effect.ids]
  {
    var answered, w2 := AnsweredRuns(w, space, t, effect);
    OneMore(w, answered, w2, Close);
    var w3 := Do(w2, Close);
    OneMore(w, answered + [Close], w3, PutAway(t));
    var w4 := Do(w3, PutAway(t));
    OneMore(w, answered + [Close] + [PutAway(t)], w4, Show(t, p));
    steps := answered + [Close] + [PutAway(t)] + [Show(t, p)];
    last := Do(w4, Show(t, p));
    assert last.writes == w.writes;
  }

  /**
   * A load or sync overtaken meanwhile, by another view or another space, changes nothing in memory: what a sync had
   * fetched is still filed with its own space, and that is all.
   */
  lemma OvertakenShowsNothing(w: World, step: Step)
    requires step.ReadDisk? || step.PublishLoad? || step.Pulled? || step.UpToDate? || step.Stored? || step.PublishSync?
    requires Enabled(w, step)
    requires w.passes[step.p].run != w.v.generation || w.active != Some(w.passes[step.p].space)
    ensures var w', pass := Do(w, step), w.passes[step.p];
            && w' == w.(passes := w'.passes, copies := w'.copies)
            && (step.p in w'.passes ==> w'.passes[step.p] == Over(pass.run, pass.space))
            && (step.p in w'.passes <==> SyncPass(pass))
            && w'.passes - {step.p} == w.passes - {step.p}
            && (forall s :: s in w.copies && s != pass.space ==> s in w'.copies && w'.copies[s] == w.copies[s])
            && (w'.copies == w.copies
                || (pass.Storing?
                    && w'.copies == w.copies[pass.space := R.StoreChanges(w.copies[pass.space], pass.changes)]))
  {
  }

  /** And when it ends, no other is started in its place. */
  lemma OvertakenEnds(w: World, p: nat, next: nat)
    requires Enabled(w, End(p, next)) && w.v.syncing != Some(p)
    ensures Do(w, End(p, next)) == w.(passes := w.passes - {p})
  {
  }
}
