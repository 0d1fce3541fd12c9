/**
 * One device's copy of the vault over whole runs: other devices write, pages
 * arrive, this device's own writes land in the copy on their own, all in any order.
 */
module VaultReplicaRuns {
  import opened Basics
  import opened VaultServer
  import opened VaultReplication
  import L = ParentLinks

  /** A pull between its first request and its last page. `horizon` bounds the cleanups during a rebuild. */
  datatype Pull = Pull(acc: Changes, done: bool, horizon: nat)

  /** `written` is every version of every item the server ever stored. */
  datatype World = World(
    vault: Vault,
    ever: map<Id, Row>,
    written: set<Item>,
    copy: map<Id, Item>,
    cursor: nat,
    pull: Option<Pull>)

  datatype Step =
    | Server(op: Op)             // another device's write, or the cleanup
    | Ask(horizon: nat)          // a pull starts from the stored cursor
    | NextPage(horizon: nat)     // one page is read on the server and folded
    | Finish                     // the answer and the cursor are stored, in one transaction
    | Remember(item: Item)       // the response to this device's own write is stored
    | Discard(ids: set<Id>)      // ids the server just told this device it purged

  function Init(): World {
    World(Vault(map[], 0, 0), map[], {}, map[], 0, None)
  }

  function OnlyItem(item: Item): Changes {
    Changes(map[item.id := item], {}, 0, false)
  }

  function AnswerTo(v: Vault, acc: Changes): Page
    requires Valid(v)
  {
    var full := acc.reset && acc.cursor > 0;
    var reset := !full && acc.cursor > 0 && acc.cursor < v.floor;
    Answer(v, if reset then 0 else acc.cursor, reset)
  }

  /** The route's own answer to the loop's next request: everything again only if the floor has passed the cursor. */
  lemma AnswerToExact(v: Vault, acc: Changes)
    requires Valid(v)
    ensures var page := AnswerTo(v, acc);
            && (page.reset <==> !acc.reset && 0 < acc.cursor < v.floor)
            && Reports(v, page, if page.reset then 0 else acc.cursor)
  {
    var page := AnswerTo(v, acc);
    AnswerReports(v, if page.reset then 0 else acc.cursor, page.reset);
  }

  /** One turn of the client's loop against the server's route, with nothing in between, is one `NextPage` step. */
  method PageRead(ghost w: World, server: VaultTable, acc: Changes, ghost horizon: nat)
    returns (next: Changes, more: bool)
    requires server.Consistent() && server.State() == w.vault && w.pull.Some? && w.pull.value.acc == acc
    requires Enabled(w, NextPage(horizon))
    modifies server
    ensures server.State() == w.vault
    ensures Do(w, NextPage(horizon)).pull.Some?
    ensures Do(w, NextPage(horizon)).pull.value.acc == next && Do(w, NextPage(horizon)).pull.value.done == !more
  {
    var page := VaultChanges(server, acc.cursor, acc.reset && acc.cursor > 0, []);
    next := FoldInto(acc, page);
    more := page.more;
  }

  /** The response is about an item still in the copy, or one whose latest change is still to be pulled. */
  predicate Timely(w: World, item: Item) {
    item.id in w.copy || (item.id in w.ever && w.cursor < w.ever[item.id].Seq())
  }

  ghost predicate Enabled(w: World, step: Step) {
    match step
    case Server(op) => w.pull.Some? && w.pull.value.acc.reset && !w.pull.value.done ==>
        Within([op], w.pull.value.horizon)
    case Ask(_) => w.pull.None?
    case NextPage(_) => w.pull.Some? && !w.pull.value.done && Valid(w.vault)
    case Finish => w.pull.Some? && w.pull.value.done
    case Remember(item) => item in w.written && Timely(w, item)
    case Discard(ids) => forall id :: id in ids ==> id in w.ever && w.ever[id].Tombstone?
  }

  ghost function Do(w: World, step: Step): World
    requires Enabled(w, step)
  {
    match step
    case Server(op) =>
      var v := Apply(w.vault, op);
      w.(vault := v, ever := w.ever + v.rows, written := w.written + LiveItems(v.rows).Values)
    case Ask(horizon) =>
      w.(pull := Some(Pull(Changes(map[], {}, w.cursor, w.cursor == 0), false, horizon)))
    case NextPage(horizon) =>
      var p := w.pull.value;
      var page := AnswerTo(w.vault, p.acc);
      w.(pull := Some(Pull(FoldPage(p.acc, page), !page.more, if page.reset then horizon else p.horizon)))
    case Finish =>
      var acc := w.pull.value.acc;
      w.(copy := StoreChanges(w.copy, acc), cursor := acc.cursor, pull := None)
    case Remember(item) => w.(copy := StoreChanges(w.copy, OnlyItem(item)))
    case Discard(ids) => w.(copy := w.copy - ids)
  }

  /** What the client's own code does to the stored copy is what the steps do. */
  method Finished(ghost w: World, copy: VaultCopy, changes: Changes)
    requires Enabled(w, Finish) && w.pull.value.acc == changes
    requires copy.records == w.copy && copy.cursor == w.cursor
    modifies copy
    ensures Do(w, Finish) == w.(copy := copy.records, cursor := copy.cursor, pull := None)
  {
    copy.StoreVaultChanges(changes, true);
  }

  method Remembered(ghost w: World, copy: VaultCopy, item: Item)
    requires Enabled(w, Remember(item)) && copy.records == w.copy && copy.cursor == w.cursor
    modifies copy
    ensures Do(w, Remember(item)) == w.(copy := copy.records) && copy.cursor == w.cursor
    ensures item.id in copy.records
  {
    copy.StoreVaultChanges(OnlyItem(item), false);
  }

  method Forgotten(ghost w: World, copy: VaultCopy, ids: set<Id>)
    requires Enabled(w, Discard(ids)) && copy.records == w.copy && copy.cursor == w.cursor
    modifies copy
    ensures Do(w, Discard(ids)) == w.(copy := copy.records) && copy.cursor == w.cursor
    ensures copy.records.Keys !! ids
  {
    copy.StoreVaultChanges(Changes(map[], ids, 0, false), false);
    assert StoreChanges(w.copy, Changes(map[], ids, 0, false)) == w.copy - ids;
  }

  // ---------------------------------------------------------------------
  // The invariant
  // ---------------------------------------------------------------------

  ghost predicate Keyed(m: map<Id, Item>, written: set<Item>) {
    forall id :: id in m ==> m[id].id == id && m[id] in written
  }

  /** Every stored version belongs to the item's history, and a change number names one version. */
  ghost predicate History(v: Vault, ever: map<Id, Row>, written: set<Item>) {
    && OneVersion(written)
    && (forall item :: item in written ==>
          && item.id in ever
          && item.seqNo <= ever[item.id].Seq()
          && (item.seqNo == ever[item.id].Seq() ==> ever[item.id] == Live(item)))
    && (forall id :: id in v.rows && v.rows[id].Live? ==> v.rows[id].item in written)
  }

  ghost predicate PullOk(v: Vault, ever: map<Id, Row>, written: set<Item>, cursor: nat, pull: Option<Pull>) {
    pull.Some? ==>
      var p := pull.value;
      && PullInv(v, ever, p.acc, cursor, p.horizon, !p.done)
      && (p.done && p.acc.reset ==> InStep(ever, p.acc.items, p.acc.cursor))
      && Keyed(p.acc.items, written)
  }

  ghost predicate Inv(w: World) {
    && Valid(w.vault) && Shadow(w.vault, w.ever) && History(w.vault, w.ever, w.written)
    && w.cursor <= w.vault.seqNo
    && Keyed(w.copy, w.written)
    && InStep(w.ever, w.copy, w.cursor)
    && PullOk(w.vault, w.ever, w.written, w.cursor, w.pull)
  }

  /** What a write leaves on record was on record before, or is newer than everything that was. */
  lemma VersionsNow(v: Vault, ever: map<Id, Row>, written: set<Item>, op: Op)
    requires Valid(v) && Shadow(v, ever) && History(v, ever, written)
    ensures var rows := Apply(v, op).rows;
            && (forall id :: id in rows && rows[id].Live? ==> rows[id].item in LiveItems(rows).Values)
            && (forall item :: item in LiveItems(rows).Values ==>
                  item.id in rows && rows[item.id] == Live(item) && (item in written || v.seqNo < item.seqNo))
  {
    ApplyKeeps(v, ever, op);
    var rows := Apply(v, op).rows;
    forall id | id in rows && rows[id].Live? ensures rows[id].item in LiveItems(rows).Values {
      assert id in LiveItems(rows) && LiveItems(rows)[id] == rows[id].item;
    }
    forall item | item in LiveItems(rows).Values
      ensures item.id in rows && rows[item.id] == Live(item) && (item in written || v.seqNo < item.seqNo)
    {
      var id :| id in LiveItems(rows) && LiveItems(rows)[id] == item;
      assert rows[id].Key() == id;
    }
  }

  lemma OneVersionGrows(written: set<Item>, rows: map<Id, Row>, more: set<Item>, n: nat)
    requires OneVersion(written) && forall item :: item in written ==> item.seqNo <= n
    requires forall item :: item in more ==>
          item.id in rows && rows[item.id] == Live(item) && (item in written || n < item.seqNo)
    ensures OneVersion(written + more)
  {
    forall a, b | a in written + more && b in written + more && SameChange(a, b) ensures a == b {
      assert a in written && b in written ==> a == b;
      assert a in more && b in more ==> a == b;
    }
  }

  lemma HistoryGrows(v: Vault, ever: map<Id, Row>, written: set<Item>, op: Op)
    requires Valid(v) && Shadow(v, ever) && History(v, ever, written)
    ensures History(Apply(v, op), ever + Apply(v, op).rows, written + LiveItems(Apply(v, op).rows).Values)
  {
    var rows := Apply(v, op).rows;
    ApplyKeeps(v, ever, op);
    VersionsNow(v, ever, written, op);
    OneVersionGrows(written, rows, LiveItems(rows).Values, v.seqNo);
  }

  lemma ServerKeeps(w: World, op: Op)
    requires Inv(w) && Enabled(w, Server(op))
    ensures Inv(Do(w, Server(op)))
  {
    var v := Apply(w.vault, op);
    var later := w.ever + v.rows;
    ApplyKeeps(w.vault, w.ever, op);
    HistoryGrows(w.vault, w.ever, w.written, op);
    InStepSurvives(w.ever, w.vault.seqNo, later, w.copy, w.cursor);
    if w.pull.Some? {
      var p := w.pull.value;
      if !p.acc.reset {
        GatheredSurvives(w.ever, w.vault.seqNo, later, p.acc, w.cursor);
      } else {
        RebuiltSurvives(w.vault, w.ever, v, later, p.acc.items, p.acc.cursor);
        if p.done {
          InStepSurvives(w.ever, w.vault.seqNo, later, p.acc.items, p.acc.cursor);
        } else {
          StillKnownStep(w.vault, op, p.acc.items, p.horizon);
        }
      }
    }
  }

  lemma FoldKeyed(v: Vault, acc: Changes, page: Page, written: set<Item>)
    requires !page.reset && Reports(v, page, acc.cursor) && Keyed(acc.items, written)
    requires forall id :: id in v.rows && v.rows[id].Live? ==> v.rows[id].item in written
    ensures Keyed(FoldPage(acc, page).items, written)
  {
    FoldExact(v, acc, page);
    var f := FoldPage(acc, page);
    forall id | id in f.items ensures f.items[id].id == id && f.items[id] in written {
      if id in Ids(page.items) {
        assert v.rows[id] == Live(f.items[id]) && v.rows[id].Key() == id;
      }
    }
  }

  /** A page answered by the server, folded: the pull part of the invariant. */
  lemma PageFolds(v: Vault, ever: map<Id, Row>, written: set<Item>, cursor: nat, p: Pull, horizon: nat)
    requires Valid(v) && Shadow(v, ever) && !p.done
    requires forall id :: id in v.rows && v.rows[id].Live? ==> v.rows[id].item in written
    requires PullOk(v, ever, written, cursor, Some(p))
    ensures var page := AnswerTo(v, p.acc);
            var h := if page.reset then horizon else p.horizon;
            var f := FoldPage(p.acc, page);
            && PullInv(v, ever, f, cursor, h, true)
            && Keyed(f.items, written)
            && (!page.more ==> f.cursor == v.seqNo)
  {
    var page := AnswerTo(v, p.acc);
    AnswerReports(v, if page.reset then 0 else p.acc.cursor, page.reset);
    PullFolds(v, ever, p.acc, page, cursor, if page.reset then horizon else p.horizon, true);
    if page.reset {
      ResetIsFreshStart(p.acc, page);
      FoldKeyed(v, Changes(map[], {}, 0, true), page.(reset := false), written);
    } else {
      FoldKeyed(v, p.acc, page, written);
    }
  }

  lemma PageKeeps(w: World, horizon: nat)
    requires Inv(w) && Enabled(w, NextPage(horizon))
    ensures Inv(Do(w, NextPage(horizon)))
  {
    var p := w.pull.value;
    var page := AnswerTo(w.vault, p.acc);
    var f := FoldPage(p.acc, page);
    PageFolds(w.vault, w.ever, w.written, w.cursor, p, horizon);
    if f.reset && !page.more {
      RebuiltInStep(w.vault, w.ever, f.items, f.cursor);
    }
  }

  /** A rebuild that lost nothing is in step like any other copy. */
  lemma RebuiltInStep(v: Vault, ever: map<Id, Row>, items: map<Id, Item>, cursor: nat)
    requires Shadow(v, ever) && Rebuilt(v, ever, items, cursor) && items.Keys <= v.rows.Keys
    ensures InStep(ever, items, cursor)
  {
  }

  lemma FinishedInStep(ever: map<Id, Row>, written: set<Item>, copy: map<Id, Item>, acc: Changes, since: nat)
    requires OneVersion(written) && Keyed(copy, written) && Keyed(acc.items, written)
    requires if acc.reset then InStep(ever, acc.items, acc.cursor)
        else InStep(ever, copy, since) && Gathered(ever, acc, since)
    ensures StoreChanges(copy, acc) == ApplyChanges(copy, acc)
    ensures InStep(ever, StoreChanges(copy, acc), acc.cursor)
    ensures Keyed(StoreChanges(copy, acc), written)
  {
    assert copy.Values <= written && acc.items.Values <= written;
    StoreAgreesWithApply(written, copy, acc);
    if acc.reset {
      ApplyReset(copy, acc);
    } else {
      ApplyKeepsStep(ever, copy, acc, since);
    }
  }

  lemma FinishKeeps(w: World)
    requires Inv(w) && Enabled(w, Finish)
    ensures Inv(Do(w, Finish))
  {
    FinishedInStep(w.ever, w.written, w.copy, w.pull.value.acc, w.cursor);
  }

  lemma StoreOneExact(ever: map<Id, Row>, copy: map<Id, Item>, cursor: nat, item: Item)
    requires InStep(ever, copy, cursor)
    requires item.id in ever && item.seqNo <= ever[item.id].Seq()
    requires item.seqNo == ever[item.id].Seq() ==> ever[item.id] == Live(item)
    ensures InStep(ever, StoreChanges(copy, OnlyItem(item)), cursor)
            <==> item.id in copy || cursor < ever[item.id].Seq()
  {
    var next := StoreChanges(copy, OnlyItem(item));
    assert next.Keys == copy.Keys + {item.id};
    if item.id in copy || cursor < ever[item.id].Seq() {
      forall id | id in next
        ensures id in ever && next[id].seqNo <= ever[id].Seq()
        ensures next[id].seqNo == ever[id].Seq() || ever[id].Seq() <= cursor ==> ever[id] == Live(next[id])
      {
        assert (id == item.id && next[id] == item) || (id in copy && next[id] == copy[id]);
      }
    } else {
      assert ever[item.id].Tombstone?;
      assert item.id in next;
    }
  }

  /**
   * Storing the response to this device's own write keeps the copy in step exactly
   * when the copy still holds the item, or the item's latest change is one the
   * cursor has not passed. The other case is a response that arrives after a pull
   * has already taken in the item's purge: nothing will ever remove it again.
   */
  lemma RememberExact(w: World, item: Item)
    requires Inv(w) && item in w.written
    ensures InStep(w.ever, StoreChanges(w.copy, OnlyItem(item)), w.cursor)
            <==> item.id in w.copy || w.cursor < w.ever[item.id].Seq()
  {
    StoreOneExact(w.ever, w.copy, w.cursor, item);
  }

  lemma TimelyStored(ever: map<Id, Row>, written: set<Item>, copy: map<Id, Item>, cursor: nat, item: Item)
    requires InStep(ever, copy, cursor) && Keyed(copy, written) && item in written
    requires item.id in ever && item.seqNo <= ever[item.id].Seq()
    requires item.seqNo == ever[item.id].Seq() ==> ever[item.id] == Live(item)
    requires item.id in copy || cursor < ever[item.id].Seq()
    ensures InStep(ever, StoreChanges(copy, OnlyItem(item)), cursor)
    ensures Keyed(StoreChanges(copy, OnlyItem(item)), written)
  {
    StoreOneExact(ever, copy, cursor, item);
    var next := StoreChanges(copy, OnlyItem(item));
    assert forall id :: id in next ==> next[id] == item || (id in copy && next[id] == copy[id]);
  }

  lemma RememberKeeps(w: World, item: Item)
    requires Inv(w) && Enabled(w, Remember(item))
    ensures Inv(Do(w, Remember(item)))
  {
    TimelyStored(w.ever, w.written, w.copy, w.cursor, item);
  }

  lemma NothingPulledYet(v: Vault, ever: map<Id, Row>, cursor: nat, horizon: nat)
    requires Shadow(v, ever) && cursor <= v.seqNo
    ensures PullInv(v, ever, Changes(map[], {}, cursor, cursor == 0), cursor, horizon, true)
  {
  }

  lemma AskKeeps(w: World, horizon: nat)
    requires Inv(w) && Enabled(w, Ask(horizon))
    ensures Inv(Do(w, Ask(horizon)))
  {
    NothingPulledYet(w.vault, w.ever, w.cursor, horizon);
  }

  lemma DiscardKeeps(w: World, ids: set<Id>)
    requires Inv(w) && Enabled(w, Discard(ids))
    ensures Inv(Do(w, Discard(ids)))
  {
  }

  lemma StepKeeps(w: World, step: Step)
    requires Inv(w) && Enabled(w, step)
    ensures Inv(Do(w, step))
  {
    match step
    case Server(op) => ServerKeeps(w, op);
    case Ask(horizon) => AskKeeps(w, horizon);
    case NextPage(horizon) => PageKeeps(w, horizon);
    case Finish => FinishKeeps(w);
    case Remember(item) => RememberKeeps(w, item);
    case Discard(ids) => DiscardKeeps(w, ids);
  }

  /** `steps` can be taken one after another from `w`, ending in `end`. */
  ghost predicate Reaches(w: World, steps: seq<Step>, end: World)
    decreases |steps|
  {
    if steps == [] then end == w
    else Enabled(w, steps[0]) && Reaches(Do(w, steps[0]), steps[1..], end)
  }

  lemma {:induction false} RunKeepsStep(w: World, steps: seq<Step>, end: World)
    requires Inv(w) && Reaches(w, steps, end)
    ensures Inv(end)
    decreases |steps|
  {
    if steps != [] {
      StepKeeps(w, steps[0]);
      RunKeepsStep(Do(w, steps[0]), steps[1..], end);
    }
  }

  /**
   * Replica correctness over whole runs: in every reachable state the copy holds
   * every live item up to the stored cursor as it now is and nothing purged up to
   * it, so once the cursor has caught up with the counter it is the vault itself.
   */
  lemma ReplicaCorrect(steps: seq<Step>, end: World)
    requires Reaches(Init(), steps, end)
    ensures InStep(end.ever, end.copy, end.cursor)
    ensures end.cursor == end.vault.seqNo ==> end.copy == LiveItems(end.vault.rows)
  {
    RunKeepsStep(Init(), steps, end);
    if end.cursor == end.vault.seqNo {
      InStepIsExact(end.vault, end.ever, end.copy);
    }
  }

  /** A copy never goes back: what it stores for an item it keeps only gets newer, except across a rebuild. */
  lemma NeverOlder(w: World, step: Step, id: Id)
    requires Inv(w) && Enabled(w, step) && id in w.copy && id in Do(w, step).copy
    ensures w.copy[id].seqNo <= Do(w, step).copy[id].seqNo || (step.Finish? && w.pull.value.acc.reset)
  {
  }

  // ---------------------------------------------------------------------
  // A response that comes too late
  // ---------------------------------------------------------------------

  lemma {:induction false} NoLivePart(list: seq<Row>)
    requires forall row :: row in list ==> row.Tombstone?
    ensures LivePart(list) == []
  {
    if list != [] {
      assert list[0] in list;
      NoLivePart(list[1..]);
    }
  }

  lemma ListedOnce(rows: map<Id, Row>, lo: nat, hi: nat, list: seq<Row>, i: nat, j: nat)
    requires Lists(rows, lo, hi, list) && i < j < |list|
    ensures list[i].Key() in rows && list[j].Key() in rows && list[i].Key() != list[j].Key()
  {
    assert list[i].Seq() < list[j].Seq();
  }

  /** A table whose only row is a tombstone is answered in one page, listing it if it is new. */
  lemma TombstonePage(v: Vault, since: nat, id: Id)
    requires Valid(v) && v.rows.Keys == {id} && v.rows[id].Tombstone? && since <= v.seqNo
    ensures var page := Answer(v, since, false);
            && page.items == [] && page.cursor == v.seqNo && !page.more
            && (v.rows[id].Seq() <= since ==> page.removed == [])
  {
    var list := Changed(v.rows, since, v.seqNo);
    if |list| > 1 {
      ListedOnce(v.rows, since, v.seqNo, list, 0, 1);
      assert false;
    }
    NoLivePart(list);
    assert list[..|list|] == list;
  }

  lemma OneStep(w: World, step: Step)
    requires Enabled(w, step)
    ensures Reaches(w, [step], Do(w, step))
  {
    assert [step][1..] == [];
    assert Reaches(Do(w, step), [], Do(w, step));
  }

  lemma ThreeSteps(w: World, s1: Step, w1: World, s2: Step, w2: World, s3: Step, end: World)
    requires Enabled(w, s1) && Do(w, s1) == w1 && Enabled(w1, s2) && Do(w1, s2) == w2 && Enabled(w2, s3)
    requires Do(w2, s3) == end
    ensures Reaches(w, [s1, s2, s3], end)
  {
    OneStep(w, s1);
    OneStep(w1, s2);
    OneStep(w2, s3);
    ReachesConcat(w, [s1], w1, [s2], w2);
    ReachesConcat(w, [s1] + [s2], w2, [s3], end);
    assert [s1] + [s2] + [s3] == [s1, s2, s3];
  }

  /** What one page over a single tombstone folds to. */
  lemma TombstoneFold(v: Vault, cursor: nat, id: Id)
    requires Valid(v) && v.rows.Keys == {id} && v.rows[id].Tombstone? && cursor <= v.seqNo && v.floor == 0
    ensures var acc := Changes(map[], {}, cursor, cursor == 0);
            var page := AnswerTo(v, acc);
            var f := FoldPage(acc, page);
            && page == Answer(v, cursor, false) && !page.more && !page.reset
            && f.items == map[] && f.cursor == v.seqNo && f.reset == (cursor == 0)
            && (v.rows[id].Seq() <= cursor ==> f.removed == {})
  {
    TombstonePage(v, cursor, id);
  }

  /** A pull run to its end with nothing in between, when the only row is a tombstone. */
  lemma PullOverTombstone(w: World, id: Id) returns (end: World)
    requires Valid(w.vault) && w.vault.rows.Keys == {id} && w.vault.rows[id].Tombstone?
    requires w.pull.None? && w.cursor <= w.vault.seqNo && w.vault.floor == 0
    ensures Reaches(w, [Ask(0), NextPage(0), Finish], end)
    ensures end.vault == w.vault && end.ever == w.ever && end.written == w.written
    ensures end.cursor == w.vault.seqNo && end.pull.None?
    ensures w.cursor == 0 ==> end.copy == map[]
    ensures 0 < w.vault.rows[id].Seq() <= w.cursor ==> end.copy == w.copy
  {
    var acc := Changes(map[], {}, w.cursor, w.cursor == 0);
    var f := FoldPage(acc, AnswerTo(w.vault, acc));
    TombstoneFold(w.vault, w.cursor, id);
    var asked := w.(pull := Some(Pull(acc, false, 0)));
    var read := w.(pull := Some(Pull(f, true, 0)));
    end := w.(copy := StoreChanges(w.copy, f), cursor := w.vault.seqNo);
    ThreeSteps(w, Ask(0), asked, NextPage(0), read, Finish, end);
  }

  const OWN_ITEM := Item(7, None, Folder, 1, 0, None, 1, None, 1)
  const OWN_CREATE := Create(7, None, Folder, 1, 0, None, true)
  const PURGE_BY_ANOTHER := Purge(7, 5, Inside(7))
  const PURGED := Tombstone(7, None, 5, 2)

  lemma CreatedThenPurged(w: World)
    requires w == World(Vault(map[7 := PURGED], 2, 0), map[7 := PURGED], {OWN_ITEM}, map[], 0, None)
    ensures Reaches(Init(), [Server(OWN_CREATE), Server(PURGE_BY_ANOTHER)], w)
  {
    var created := Vault(map[7 := Live(OWN_ITEM)], 1, 0);
    assert Apply(Init().vault, OWN_CREATE) == created by {
      assert LiveIds(map[]) == {};
    }
    assert LiveItems(created.rows) == map[7 := OWN_ITEM];
    var w1 := World(created, map[7 := Live(OWN_ITEM)], {OWN_ITEM}, map[], 0, None);
    assert Do(Init(), Server(OWN_CREATE)) == w1;

    assert L.Under(Parents(created.rows), 7, 7, 0);
    L.SubtreeExact(Parents(created.rows), 7, 7);
    assert Apply(created, PURGE_BY_ANOTHER) == w.vault;
    assert LiveItems(w.vault.rows) == map[];
    assert Do(w1, Server(PURGE_BY_ANOTHER)) == w;

    var steps := [Server(OWN_CREATE), Server(PURGE_BY_ANOTHER)];
    assert steps[1..] == [Server(PURGE_BY_ANOTHER)] && steps[1..][1..] == [];
    assert Reaches(w, [], w);
    assert Reaches(w1, steps[1..], w);
  }

  lemma {:induction false} ReachesConcat(w: World, a: seq<Step>, mid: World, b: seq<Step>, end: World)
    requires Reaches(w, a, mid) && Reaches(mid, b, end)
    ensures Reaches(w, a + b, end)
    decreases |a|
  {
    if a == [] {
      assert a + b == b;
    } else {
      assert (a + b)[0] == a[0] && (a + b)[1..] == a[1..] + b;
      ReachesConcat(Do(w, a[0]), a[1..], mid, b, end);
    }
  }

  /** After `steps`, in a state where the copy is exact, storing `item` late brings it back for good. */
  ghost predicate Resurrects(steps: seq<Step>, w: World, item: Item, after: World) {
    && Reaches(Init(), steps, w)
    && w.pull.None? && w.cursor == w.vault.seqNo
    && item in w.written && !Timely(w, item)
    && Reaches(w.(copy := StoreChanges(w.copy, OnlyItem(item))), [Ask(0), NextPage(0), Finish], after)
    && after.cursor == after.vault.seqNo
    && LiveItems(after.vault.rows) == map[] && item.id in after.copy
  }

  lemma PurgeTakenIn() returns (steps: seq<Step>, w: World)
    ensures w == World(Vault(map[7 := PURGED], 2, 0), map[7 := PURGED], {OWN_ITEM}, map[], 2, None)
    ensures Reaches(Init(), steps, w)
  {
    var w2 := World(Vault(map[7 := PURGED], 2, 0), map[7 := PURGED], {OWN_ITEM}, map[], 0, None);
    var before := [Server(OWN_CREATE), Server(PURGE_BY_ANOTHER)];
    var pull := [Ask(0), NextPage(0), Finish];
    w := PullOverTombstone(w2, 7);
    steps := before + pull;
    assert Reaches(Init(), steps, w) by {
      CreatedThenPurged(w2);
      ReachesConcat(Init(), before, w2, pull, w);
    }
  }

  /**
   * The guard of `Remember` is not in the code. Without it: this device creates an
   * item, another purges it, a pull takes the purge in, and only then does the
   * response to the create arrive. The purged item is back, and a further complete
   * pull leaves it there.
   */
  lemma LateResponseResurrects() returns (steps: seq<Step>, w: World, after: World)
    ensures Resurrects(steps, w, OWN_ITEM, after)
  {
    steps, w := PurgeTakenIn();
    var stale := w.(copy := StoreChanges(w.copy, OnlyItem(OWN_ITEM)));
    assert stale.copy.Keys == {7};
    after := PullOverTombstone(stale, 7);
    assert LiveItems(after.vault.rows) == map[];
  }
}
