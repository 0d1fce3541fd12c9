/**
 * How a device's copy of the vault follows the server's: the page the server
 * answers with, the loop that folds pages while other devices keep writing, and
 * the two places a folded answer is applied.
 */
module VaultReplication {
  import opened Basics
  import opened VaultServer

  const VAULT_PAGE_SIZE: nat := 500

  datatype Page = Page(items: seq<Item>, removed: seq<Id>, cursor: nat, more: bool, reset: bool)

  /** Several pages folded into one answer. */
  datatype Changes = Changes(items: map<Id, Item>, removed: set<Id>, cursor: nat, reset: bool)

  // ---------------------------------------------------------------------
  // The page
  // ---------------------------------------------------------------------

  /** The row stamped `n`; change numbers are unique, so there is at most one. */
  function RowAt(rows: map<Id, Row>, n: nat): (r: Option<Row>)
    requires UniqueStamps(rows)
    ensures r.Some? ==> exists id :: id in rows && rows[id] == r.value && r.value.Seq() == n
    ensures r.None? ==> forall id :: id in rows ==> rows[id].Seq() != n
  {
    if exists id :: id in rows && rows[id].Seq() == n then
      assert forall a, b :: a in rows && b in rows && rows[a].Seq() == n && rows[b].Seq() == n ==> a == b by {
        forall a, b | a in rows && b in rows && rows[a].Seq() == n && rows[b].Seq() == n ensures a == b {
          assert Compare(a, b);
        }
      }
      var id :| id in rows && rows[id].Seq() == n;
      Some(rows[id])
    else None
  }

  /** `list` is the rows stamped in `(lo, hi]`, oldest change first. */
  ghost predicate Lists(rows: map<Id, Row>, lo: nat, hi: nat, list: seq<Row>) {
    && (forall i :: 0 <= i < |list| ==>
          lo < list[i].Seq() <= hi && list[i].Key() in rows && rows[list[i].Key()] == list[i])
    && (forall i, j :: 0 <= i < j < |list| ==> list[i].Seq() < list[j].Seq())
    && (forall id :: id in rows && lo < rows[id].Seq() <= hi ==> rows[id] in list)
  }

  /** `WHERE seq > lo ORDER BY seq ASC`, up to change number `hi`. */
  function Changed(rows: map<Id, Row>, lo: nat, hi: nat): (list: seq<Row>)
    requires UniqueStamps(rows)
    requires forall id :: id in rows ==> rows[id].Key() == id
    ensures Lists(rows, lo, hi, list)
    decreases hi - lo
  {
    if hi <= lo then []
    else
      var rest := Changed(rows, lo + 1, hi);
      var next := RowAt(rows, lo + 1);
      assert next.Some? ==> forall id :: id in rows && rows[id].Seq() == lo + 1 ==> rows[id] == next.value by {
        forall a, b | a in rows && b in rows && rows[a].Seq() == rows[b].Seq() ensures a == b {
          assert Compare(a, b);
        }
      }
      if next.Some? then [next.value] + rest else rest
  }

  function LivePart(page: seq<Row>): (items: seq<Item>)
    ensures forall item :: item in items <==> Live(item) in page
  {
    if page == [] then []
    else (if page[0].Live? then [page[0].item] else []) + LivePart(page[1..])
  }

  function RemovedPart(page: seq<Row>): (ids: seq<Id>)
    ensures forall id :: id in ids <==> exists row :: row in page && row.Tombstone? && row.id == id
  {
    if page == [] then []
    else (if page[0].Tombstone? then [page[0].id] else []) + RemovedPart(page[1..])
  }

  /** The answer one read transaction gives for `since`. */
  function Answer(v: Vault, since: nat, reset: bool): Page
    requires Valid(v)
  {
    var changed := Changed(v.rows, since, v.seqNo);
    var limited := changed[..Min(|changed|, VAULT_PAGE_SIZE + 1)];
    var more := |limited| > VAULT_PAGE_SIZE;
    var page := if more then limited[..VAULT_PAGE_SIZE] else limited;
    Page(LivePart(page), RemovedPart(page),
         if more then page[|page| - 1].Seq() else Max(v.seqNo, since), more, reset)
  }

  /** A page reports every row changed in `(since, cursor]` as it now is, and nothing else. */
  ghost predicate Reports(v: Vault, page: Page, since: nat) {
    && since <= page.cursor
    && (page.more ==> since < page.cursor < v.seqNo)
    && (!page.more ==> page.cursor == Max(v.seqNo, since))
    && (forall item :: item in page.items <==>
          item.id in v.rows && v.rows[item.id] == Live(item) && since < item.seqNo <= page.cursor)
    && (forall id :: id in page.removed <==>
          id in v.rows && v.rows[id].Tombstone? && since < v.rows[id].Seq() <= page.cursor)
  }

  /** The first rows of the list are all the rows up to the last of them. */
  lemma PageBounds(rows: map<Id, Row>, lo: nat, hi: nat, list: seq<Row>)
    requires Lists(rows, lo, hi, list) && |list| > VAULT_PAGE_SIZE
    ensures lo < list[VAULT_PAGE_SIZE - 1].Seq() < hi
    ensures Lists(rows, lo, list[VAULT_PAGE_SIZE - 1].Seq(), list[..VAULT_PAGE_SIZE])
  {
    var last := list[VAULT_PAGE_SIZE - 1].Seq();
    assert last < list[VAULT_PAGE_SIZE].Seq();
    forall id | id in rows && lo < rows[id].Seq() <= last ensures rows[id] in list[..VAULT_PAGE_SIZE] {
      var i :| 0 <= i < |list| && list[i] == rows[id];
      assert i < VAULT_PAGE_SIZE ==> list[..VAULT_PAGE_SIZE][i] == rows[id];
    }
  }

  lemma ListsReport(v: Vault, page: seq<Row>, since: nat, cursor: nat)
    requires Lists(v.rows, since, cursor, page)
    ensures forall item :: item in LivePart(page) <==>
              item.id in v.rows && v.rows[item.id] == Live(item) && since < item.seqNo <= cursor
    ensures forall id :: id in RemovedPart(page) <==>
              id in v.rows && v.rows[id].Tombstone? && v.rows[id].Key() == id && since < v.rows[id].Seq() <= cursor
  {
    forall item
      ensures item in LivePart(page) <==>
              item.id in v.rows && v.rows[item.id] == Live(item) && since < item.seqNo <= cursor
    {
      assert Live(item).Key() == item.id && Live(item).Seq() == item.seqNo;
    }
    forall id | id in RemovedPart(page)
      ensures id in v.rows && v.rows[id].Tombstone? && v.rows[id].Key() == id && since < v.rows[id].Seq() <= cursor
    {
      var row :| row in page && row.Tombstone? && row.id == id;
      assert row.Key() == id;
    }
    forall id | id in v.rows && v.rows[id].Tombstone? && v.rows[id].Key() == id && since < v.rows[id].Seq() <= cursor
      ensures id in RemovedPart(page)
    {
      assert v.rows[id] in page && v.rows[id].id == id;
    }
  }

  lemma AnswerReports(v: Vault, since: nat, reset: bool)
    requires Valid(v)
    ensures Reports(v, Answer(v, since, reset), since)
    ensures Answer(v, since, reset).reset == reset
  {
    var answer := Answer(v, since, reset);
    var list := Changed(v.rows, since, v.seqNo);
    if |list| > VAULT_PAGE_SIZE {
      PageBounds(v.rows, since, v.seqNo, list);
      assert list[..VAULT_PAGE_SIZE + 1][..VAULT_PAGE_SIZE] == list[..VAULT_PAGE_SIZE];
      ListsReport(v, list[..VAULT_PAGE_SIZE], since, answer.cursor);
    } else {
      assert list[..|list|] == list;
      ListsReport(v, list, since, v.seqNo);
    }
  }

  lemma {:induction false} PartsFit(page: seq<Row>)
    ensures |LivePart(page)| + |RemovedPart(page)| == |page|
  {
    if page != [] {
      PartsFit(page[1..]);
    }
  }

  lemma AnswerFits(v: Vault, since: nat, reset: bool)
    requires Valid(v)
    ensures var page := Answer(v, since, reset); |page.items| + |page.removed| <= VAULT_PAGE_SIZE
  {
    var list := Changed(v.rows, since, v.seqNo);
    PartsFit(list[..Min(|list|, VAULT_PAGE_SIZE)]);
    if |list| > VAULT_PAGE_SIZE {
      assert list[..VAULT_PAGE_SIZE + 1][..VAULT_PAGE_SIZE] == list[..VAULT_PAGE_SIZE];
    }
  }

  // ---------------------------------------------------------------------
  // Folding and applying
  // ---------------------------------------------------------------------

  function Ids(items: seq<Item>): set<Id> {
    set i | 0 <= i < |items| :: items[i].id
  }

  /** `Map.set` for each item in turn. */
  function SetAll(m: map<Id, Item>, items: seq<Item>): map<Id, Item>
    decreases |items|
  {
    if items == [] then m else SetAll(m[items[0].id := items[0]], items[1..])
  }

  /** One more page folded into what was pulled so far; `rebuilding` is the caller's flag before the page. */
  function FoldPage(acc: Changes, page: Page): Changes {
    var items := if page.reset then map[] else acc.items;
    var removed := if page.reset then {} else acc.removed;
    Changes(SetAll(items - (set id | id in page.removed), page.items),
            removed + (set id | id in page.removed) - Ids(page.items),
            page.cursor,
            acc.reset || page.reset)
  }

  /** A pulled answer applied to a copy: never older over newer. */
  function ApplyChanges(records: map<Id, Item>, changes: Changes): map<Id, Item> {
    Newer(if changes.reset then map[] else records - changes.removed, changes.items)
  }

  /** Per id, the later of two versions; the incoming one when they are the same change. */
  function Newer(known: map<Id, Item>, incoming: map<Id, Item>): map<Id, Item> {
    map id | id in known.Keys + incoming.Keys ::
      if id in incoming && (id !in known || known[id].seqNo <= incoming[id].seqNo) then incoming[id] else known[id]
  }

  lemma IdsOfRest(items: seq<Item>)
    requires items != []
    ensures Ids(items) == {items[0].id} + Ids(items[1..])
  {
    forall id | id in Ids(items) ensures id in {items[0].id} + Ids(items[1..]) {
      var i :| 0 <= i < |items| && items[i].id == id;
      if i > 0 { assert items[1..][i - 1].id == id; }
    }
    forall id | id in Ids(items[1..]) ensures id in Ids(items) {
      var i :| 0 <= i < |items[1..]| && items[1..][i].id == id;
      assert items[i + 1].id == id;
    }
  }

  lemma {:induction false} SetAllExact(m: map<Id, Item>, items: seq<Item>)
    requires forall i, j :: 0 <= i < j < |items| && items[i].id == items[j].id ==> items[i] == items[j]
    ensures SetAll(m, items).Keys == m.Keys + Ids(items)
    ensures forall item :: item in items ==> SetAll(m, items)[item.id] == item
    ensures forall id :: id in m && id !in Ids(items) ==> SetAll(m, items)[id] == m[id]
    decreases |items|
  {
    if items != [] {
      var m' := m[items[0].id := items[0]];
      SetAllExact(m', items[1..]);
      IdsOfRest(items);
      if items[0].id in Ids(items[1..]) {
        var i :| 0 <= i < |items[1..]| && items[1..][i].id == items[0].id;
        assert items[i + 1] == items[0] && items[0] in items[1..];
      }
    }
  }

  // ---------------------------------------------------------------------
  // When a copy is right
  // ---------------------------------------------------------------------

  /** Nothing in the copy is ahead of the server, or claims a version the server never had. */
  ghost predicate Behind(ever: map<Id, Row>, copy: map<Id, Item>) {
    forall id :: id in copy ==>
      && id in ever
      && copy[id].seqNo <= ever[id].Seq()
      && (copy[id].seqNo == ever[id].Seq() ==> ever[id] == Live(copy[id]))
  }

  /** Every change up to `cursor` is in the copy: live items as they are, purged ones gone. */
  ghost predicate InStep(ever: map<Id, Row>, copy: map<Id, Item>, cursor: nat) {
    && Behind(ever, copy)
    && (forall id :: id in ever && ever[id].Live? && ever[id].Seq() <= cursor ==>
        id in copy && copy[id] == ever[id].item)
    && (forall id :: id in copy && ever[id].Seq() <= cursor ==> ever[id] == Live(copy[id]))
  }

  /** At the newest change number, being in step is being an exact replica. */
  lemma InStepIsExact(v: Vault, ever: map<Id, Row>, copy: map<Id, Item>)
    requires Valid(v) && Shadow(v, ever) && InStep(ever, copy, v.seqNo)
    ensures copy == LiveItems(v.rows)
  {
    forall id | id in copy ensures id in LiveItems(v.rows) && copy[id] == LiveItems(v.rows)[id] {
      assert ever[id] == Live(copy[id]);
    }
  }

  /** Whatever other devices write, a copy in step with a cursor stays in step with it. */
  lemma InStepSurvives(ever: map<Id, Row>, n: nat, later: map<Id, Row>, copy: map<Id, Item>, cursor: nat)
    requires cursor <= n && Extends(ever, n, later)
    requires forall id :: id in ever ==> ever[id].Seq() <= n
    requires InStep(ever, copy, cursor)
    ensures InStep(later, copy, cursor)
  {
    forall id | id in copy
      ensures id in later && copy[id].seqNo <= later[id].Seq()
      ensures copy[id].seqNo == later[id].Seq() || later[id].Seq() <= cursor ==> later[id] == Live(copy[id])
    {
      assert id in ever;
    }
  }

  /**
   * What the pages folded so far say about the changes in `(since, cursor]`: each
   * changed row as it is, and never anything from before `since`.
   */
  ghost predicate Gathered(ever: map<Id, Row>, acc: Changes, since: nat) {
    && Behind(ever, acc.items)
    && (forall id :: id in ever && since < ever[id].Seq() <= acc.cursor ==>
          if ever[id].Live? then id in acc.items && acc.items[id] == ever[id].item && id !in acc.removed
          else id in acc.removed && id !in acc.items)
    && (forall id :: id in acc.items ==> since < acc.items[id].seqNo && id !in acc.removed)
    && (forall id :: id in acc.removed ==> id in ever && since < ever[id].Seq())
  }

  lemma GatheredSurvives(ever: map<Id, Row>, n: nat, later: map<Id, Row>, acc: Changes, since: nat)
    requires acc.cursor <= n && since <= n && Extends(ever, n, later)
    requires forall id :: id in ever ==> ever[id].Seq() <= n
    requires Gathered(ever, acc, since)
    ensures Gathered(later, acc, since)
  {
  }

  lemma FoldExact(v: Vault, acc: Changes, page: Page)
    requires !page.reset && Reports(v, page, acc.cursor)
    ensures var f := FoldPage(acc, page);
            && f.items.Keys == (acc.items.Keys - (set id | id in page.removed)) + Ids(page.items)
            && f.removed == acc.removed + (set id | id in page.removed) - Ids(page.items)
            && (forall id :: id in Ids(page.items) ==> id in v.rows && v.rows[id] == Live(f.items[id]))
            && (forall id :: id in f.items && id !in Ids(page.items) ==> f.items[id] == acc.items[id])
    ensures forall id :: id in Ids(page.items) <==>
              id in v.rows && v.rows[id].Live? && v.rows[id].Key() == id && acc.cursor < v.rows[id].Seq() <= page.cursor
  {
    var kept := acc.items - (set id | id in page.removed);
    forall i, j | 0 <= i < j < |page.items| && page.items[i].id == page.items[j].id
      ensures page.items[i] == page.items[j]
    {
      assert page.items[i] in page.items && page.items[j] in page.items;
    }
    SetAllExact(kept, page.items);
    forall id | id in Ids(page.items)
      ensures id in v.rows && v.rows[id] == Live(FoldPage(acc, page).items[id])
      ensures v.rows[id].Live? && v.rows[id].Key() == id && acc.cursor < v.rows[id].Seq() <= page.cursor
    {
      var i :| 0 <= i < |page.items| && page.items[i].id == id;
      assert page.items[i] in page.items;
    }
    forall id | id in v.rows && v.rows[id].Live? && v.rows[id].Key() == id
        && acc.cursor < v.rows[id].Seq() <= page.cursor
      ensures id in Ids(page.items)
    {
      assert v.rows[id].item in page.items;
    }
  }

  ghost predicate KeyedById(rows: map<Id, Row>) {
    forall id :: id in rows ==> rows[id].Key() == id
  }

  /**
   * One page more of an incremental pull, answered while the floor had not passed
   * the cursor it asked from: nothing in its range had been forgotten.
   */
  lemma FoldGathers(v: Vault, ever: map<Id, Row>, acc: Changes, page: Page, since: nat)
    requires KeyedById(v.rows) && Shadow(v, ever)
    requires Gathered(ever, acc, since) && since <= acc.cursor
    requires !page.reset && Reports(v, page, acc.cursor) && v.floor <= acc.cursor
    ensures Gathered(ever, FoldPage(acc, page), since)
  {
    FoldExact(v, acc, page);
    var f := FoldPage(acc, page);
    forall id | id in f.items
      ensures id in ever && f.items[id].seqNo <= ever[id].Seq() && since < f.items[id].seqNo && id !in f.removed
      ensures f.items[id].seqNo == ever[id].Seq() ==> ever[id] == Live(f.items[id])
    {
      assert id in Ids(page.items) || id in acc.items;
    }
    forall id | id in ever && since < ever[id].Seq() <= f.cursor
      ensures if ever[id].Live? then id in f.items && f.items[id] == ever[id].item && id !in f.removed
              else id in f.removed && id !in f.items
    {
      assert acc.cursor < ever[id].Seq() ==> id in v.rows;
    }
  }

  // ---------------------------------------------------------------------
  // Rebuilding from nothing
  // ---------------------------------------------------------------------

  /** In step with every change up to `cursor` to a row the server still has on record. */
  ghost predicate Rebuilt(v: Vault, ever: map<Id, Row>, items: map<Id, Item>, cursor: nat) {
    && Behind(ever, items)
    && (forall id :: id in ever && ever[id].Live? && ever[id].Seq() <= cursor ==>
        id in items && items[id] == ever[id].item)
    && (forall id :: id in items && id in v.rows && v.rows[id].Seq() <= cursor ==> v.rows[id] == Live(items[id]))
  }

  /**
   * Nothing listed in this rebuild has been purged and forgotten without a page
   * saying so, and nothing will be while cleanups stay behind `horizon`: whatever
   * was purged since it was listed was purged no earlier than `horizon`.
   */
  ghost predicate StillKnown(v: Vault, items: map<Id, Item>, horizon: nat) {
    forall id :: id in items ==> id in v.rows && (v.rows[id].Tombstone? ==> horizon <= v.rows[id].removedAt)
  }

  /** A tombstone outlives the rebuild: none written in it is old enough to be forgotten in it. */
  predicate Within(ops: seq<Op>, horizon: nat) {
    forall op :: op in ops ==>
      && (op.Purge? ==> horizon <= op.now)
      && (op.Forget? ==> op.before <= horizon)
  }

  lemma StillKnownStep(v: Vault, op: Op, items: map<Id, Item>, horizon: nat)
    requires StillKnown(v, items, horizon) && Within([op], horizon)
    ensures StillKnown(Apply(v, op), items, horizon)
  {
    assert op in [op];
  }

  lemma {:induction false} StillKnownSurvives(v: Vault, ops: seq<Op>, items: map<Id, Item>, horizon: nat)
    requires StillKnown(v, items, horizon) && Within(ops, horizon)
    ensures StillKnown(Run(v, ops), items, horizon)
    decreases |ops|
  {
    if ops != [] {
      StillKnownStep(v, ops[0], items, horizon);
      StillKnownSurvives(Apply(v, ops[0]), ops[1..], items, horizon);
    }
  }

  lemma RebuiltSurvives(v: Vault, ever: map<Id, Row>, w: Vault, later: map<Id, Row>, items: map<Id, Item>, cursor: nat)
    requires Shadow(v, ever) && Shadow(w, later) && Extends(ever, v.seqNo, later) && cursor <= v.seqNo
    requires forall id :: id in w.rows && w.rows[id].Seq() <= v.seqNo ==> id in v.rows
    requires Rebuilt(v, ever, items, cursor)
    ensures Rebuilt(w, later, items, cursor)
  {
  }

  /** A full listing needs no floor: what it lists and what it drops are both still on record. */
  lemma FoldRebuilds(v: Vault, ever: map<Id, Row>, acc: Changes, page: Page)
    requires KeyedById(v.rows) && Shadow(v, ever)
    requires Rebuilt(v, ever, acc.items, acc.cursor)
    requires !page.reset && Reports(v, page, acc.cursor)
    ensures Rebuilt(v, ever, FoldPage(acc, page).items, page.cursor)
    ensures forall id :: id in FoldPage(acc, page).items && id !in acc.items ==> id in v.rows && v.rows[id].Live?
  {
    FoldExact(v, acc, page);
    var f := FoldPage(acc, page);
    forall id | id in f.items
      ensures id in ever && f.items[id].seqNo <= ever[id].Seq()
      ensures f.items[id].seqNo == ever[id].Seq() ==> ever[id] == Live(f.items[id])
      ensures id in v.rows && v.rows[id].Seq() <= page.cursor ==> v.rows[id] == Live(f.items[id])
      ensures id !in acc.items ==> id in v.rows && v.rows[id].Live?
    {
      assert id in Ids(page.items) || id in acc.items;
    }
    forall id | id in ever && ever[id].Live? && ever[id].Seq() <= page.cursor
      ensures id in f.items && f.items[id] == ever[id].item
    {
      assert id in v.rows;
    }
  }

  lemma RebuiltIsExact(v: Vault, ever: map<Id, Row>, items: map<Id, Item>)
    requires Valid(v) && Shadow(v, ever) && Rebuilt(v, ever, items, v.seqNo)
    ensures items - (items.Keys - v.rows.Keys) == LiveItems(v.rows)
    ensures items.Keys <= v.rows.Keys ==> items == LiveItems(v.rows)
  {
    var known := items - (items.Keys - v.rows.Keys);
    forall id | id in known ensures id in LiveItems(v.rows) && known[id] == LiveItems(v.rows)[id] {
      assert v.rows[id] == Live(items[id]);
    }
    if items.Keys <= v.rows.Keys {
      assert known == items;
    }
  }

  /** A page that starts over forgets what was folded before it, then folds like any other. */
  lemma ResetIsFreshStart(acc: Changes, page: Page)
    requires page.reset
    ensures FoldPage(acc, page) == FoldPage(Changes(map[], {}, 0, true), page.(reset := false))
  {
  }

  // ---------------------------------------------------------------------
  // Applying the folded answer
  // ---------------------------------------------------------------------

  /**
   * An incremental answer applied to any copy in step with the cursor it was asked
   * from, including what this device wrote itself in the meantime.
   */
  lemma ApplyKeepsStep(ever: map<Id, Row>, copy: map<Id, Item>, changes: Changes, since: nat)
    requires InStep(ever, copy, since) && Gathered(ever, changes, since) && !changes.reset
    ensures InStep(ever, ApplyChanges(copy, changes), changes.cursor)
  {
    var next := ApplyChanges(copy, changes);
    forall id | id in next
      ensures id in ever && next[id].seqNo <= ever[id].Seq()
      ensures next[id].seqNo == ever[id].Seq() || ever[id].Seq() <= changes.cursor ==> ever[id] == Live(next[id])
    {
      assert id in copy || id in changes.items;
    }
  }

  /** A rebuilt answer replaces the copy. */
  lemma ApplyReset(copy: map<Id, Item>, changes: Changes)
    requires changes.reset
    ensures ApplyChanges(copy, changes) == changes.items
  {
  }

  lemma NotYetSet(items: seq<Item>, i: nat)
    requires i < |items| && forall j, k :: 0 <= j < k < |items| ==> items[j].id != items[k].id
    ensures items[i].id !in SetAll(map[], items[..i])
  {
    assert forall j, k :: 0 <= j < k < i ==> items[..i][j] == items[j] && items[..i][k] == items[k];
    SetAllExact(map[], items[..i]);
  }

  lemma IdsAppend(items: seq<Item>, i: nat)
    requires i < |items|
    ensures Ids(items[..i + 1]) == Ids(items[..i]) + {items[i].id}
  {
    assert items[..i + 1] == items[..i] + [items[i]];
    forall k | 0 <= k < i ensures items[..i + 1][k] == items[..i][k] {
    }
    assert items[..i + 1][i].id == items[i].id;
  }

  lemma {:induction false} SetAllAppend(m: map<Id, Item>, items: seq<Item>, i: nat)
    requires i < |items|
    ensures SetAll(m, items[..i + 1]) == SetAll(m, items[..i])[items[i].id := items[i]]
    decreases i
  {
    if i > 0 {
      assert items[..i + 1][0] == items[..i][0] == items[0];
      assert items[..i + 1][1..] == items[1..][..i] && items[..i][1..] == items[1..][..i - 1];
      SetAllAppend(m[items[0].id := items[0]], items[1..], i - 1);
    }
  }

  lemma NewerStep(kept: map<Id, Item>, items: seq<Item>, i: nat)
    requires i < |items| && forall j, k :: 0 <= j < k < |items| ==> items[j].id != items[k].id
    ensures var before := Newer(kept, SetAll(map[], items[..i]));
            Newer(kept, SetAll(map[], items[..i + 1]))
            == if items[i].id !in before || before[items[i].id].seqNo <= items[i].seqNo
               then before[items[i].id := items[i]] else before
  {
    SetAllAppend(map[], items, i);
    NotYetSet(items, i);
  }

  /** The answer's arrays, applied one element at a time to a copy held in memory. */
  method ApplyVaultChanges(records: map<Id, Item>, items: seq<Item>, removed: seq<Id>, reset: bool)
    returns (next: map<Id, Item>)
    requires forall i, j :: 0 <= i < j < |items| ==> items[i].id != items[j].id
    ensures next == ApplyChanges(records, Changes(SetAll(map[], items), set id | id in removed, 0, reset))
    ensures var kept := if reset then map[] else map id | id in records && id !in removed :: records[id];
            && (forall item :: item in items ==>
                  item.id in next && next[item.id] ==
                                     if item.id in kept && item.seqNo < kept[item.id].seqNo then kept[item.id]
                                                      else item)
            && (forall id :: (forall item :: item in items ==> item.id != id) ==>
                  (id in next <==> id in kept) && (id in next ==> next[id] == kept[id]))
  {
    next := if reset then map[] else records;
    ghost var base := next;
    for i := 0 to |removed|
      invariant next == base - (set id | id in removed[..i])
    {
      next := next - {removed[i]};
      assert removed[..i + 1] == removed[..i] + [removed[i]];
    }
    assert removed[..|removed|] == removed;
    ghost var kept := next;
    for i := 0 to |items|
      invariant next == Newer(kept, SetAll(map[], items[..i]))
    {
      // What is already held wins only when it is strictly later.
      NewerStep(kept, items, i);
      if items[i].id !in next || next[items[i].id].seqNo <= items[i].seqNo {
        next := next[items[i].id := items[i]];
      }
    }
    assert items[..|items|] == items;
    SetAllExact(map[], items);
    NotListed(items);
    assert kept == if reset then map[] else map id | id in records && id !in removed :: records[id];
  }

  lemma NotListed(items: seq<Item>)
    ensures forall id :: id in Ids(items) <==> exists item :: item in items && item.id == id
  {
    forall id | id in Ids(items) ensures exists item :: item in items && item.id == id {
      var i :| 0 <= i < |items| && items[i].id == id;
      assert items[i] in items;
    }
    forall item | item in items ensures item.id in Ids(items) {
      var i :| 0 <= i < |items| && items[i] == item;
    }
  }

  // ---------------------------------------------------------------------
  // Pulling
  // ---------------------------------------------------------------------

  /**
   * What other devices commit around one page request: before its transaction, and
   * between that and the second one the route runs when it has to start over.
   */
  datatype Gap = Gap(before: seq<Op>, between: seq<Op>)

  predicate AllWithin(traffic: seq<Gap>, horizon: nat) {
    forall gap :: gap in traffic ==> Within(gap.before, horizon) && Within(gap.between, horizon)
  }

  /** `GET /api/vault?since=&full=`. */
  method VaultChanges(server: VaultTable, requested: nat, full: bool, between: seq<Op>) returns (page: Page)
    requires server.Consistent()
    modifies server
    ensures server.Consistent()
    ensures page.reset == (!full && 0 < requested < old(server.floor))
    ensures page == Answer(server.State(), if page.reset then 0 else requested, page.reset)
    ensures |page.items| + |page.removed| <= VAULT_PAGE_SIZE
    ensures !page.reset ==>
              && server.State() == old(server.State()) && server.ever == old(server.ever)
              && Reports(server.State(), page, requested)
    ensures page.reset ==>
              && server.State() == Run(old(server.State()), between)
              && Extends(old(server.ever), old(server.seqNo), server.ever)
              && old(server.seqNo) <= server.seqNo
              && Reports(server.State(), page, 0)
  {
    var since := requested;
    // Below the floor a removal may already be off the record, so only a whole listing will do.
    var reset := !full && requested > 0 && requested < server.floor;
    if reset {
      since := 0;
      server.Interleave(between);
    }
    page := Answer(server.State(), since, reset);
    AnswerReports(server.State(), since, reset);
    AnswerFits(server.State(), since, reset);
  }

  /** The body of the pull loop: one page folded into the map and the set in place. */
  method FoldInto(acc: Changes, page: Page) returns (next: Changes)
    ensures next == FoldPage(acc, page)
  {
    var items, removed, rebuilding := acc.items, acc.removed, acc.reset;
    if page.reset {
      rebuilding := true;
      items := map[];
      removed := {};
    }
    ghost var items0, removed0 := items, removed;
    for i := 0 to |page.removed|
      invariant items == items0 - (set id | id in page.removed[..i])
      invariant removed == removed0 + (set id | id in page.removed[..i])
    {
      items := items - {page.removed[i]};
      removed := removed + {page.removed[i]};
      assert page.removed[..i + 1] == page.removed[..i] + [page.removed[i]];
    }
    assert page.removed[..|page.removed|] == page.removed;
    ghost var items1, removed1 := items, removed;
    for i := 0 to |page.items|
      invariant items == SetAll(items1, page.items[..i])
      invariant removed == removed1 - Ids(page.items[..i])
    {
      removed := removed - {page.items[i].id};
      items := items[page.items[i].id := page.items[i]];
      SetAllAppend(items1, page.items, i);
      IdsAppend(page.items, i);
    }
    assert page.items[..|page.items|] == page.items;
    next := Changes(items, removed, page.cursor, rebuilding);
  }

  /** What the pull has established about the pages folded so far; `quiet` when no tombstone can go missing. */
  ghost predicate PullInv(v: Vault, ever: map<Id, Row>, acc: Changes, since: nat, horizon: nat, quiet: bool) {
    && since <= v.seqNo && acc.cursor <= v.seqNo
    && (!acc.reset ==> 0 < since <= acc.cursor && Gathered(ever, acc, since))
    && (acc.reset ==> Rebuilt(v, ever, acc.items, acc.cursor))
    && (acc.reset && quiet ==> StillKnown(v, acc.items, horizon))
  }

  lemma PullSurvives(v: Vault, ever: map<Id, Row>, ops: seq<Op>, acc: Changes, since: nat, horizon: nat, quiet: bool)
    requires Valid(v) && Shadow(v, ever) && PullInv(v, ever, acc, since, horizon, quiet)
    requires quiet ==> Within(ops, horizon)
    ensures PullInv(Run(v, ops), RunEver(v, ever, ops), acc, since, horizon, quiet)
  {
    RunKeeps(v, ever, ops);
    if !acc.reset {
      GatheredSurvives(ever, v.seqNo, RunEver(v, ever, ops), acc, since);
    } else {
      RebuiltSurvives(v, ever, Run(v, ops), RunEver(v, ever, ops), acc.items, acc.cursor);
      if quiet {
        StillKnownSurvives(v, ops, acc.items, horizon);
      }
    }
  }

  lemma PullFolds(v: Vault, ever: map<Id, Row>, acc: Changes, page: Page, since: nat, horizon: nat, quiet: bool)
    requires KeyedById(v.rows) && Shadow(v, ever)
    requires since <= v.seqNo && acc.cursor <= v.seqNo
    requires !page.reset ==> PullInv(v, ever, acc, since, horizon, quiet) && Reports(v, page, acc.cursor)
    requires !page.reset && !acc.reset ==> v.floor <= acc.cursor
    requires page.reset ==> Reports(v, page, 0)
    ensures PullInv(v, ever, FoldPage(acc, page), since, horizon, quiet)
  {
    if page.reset {
      ResetIsFreshStart(acc, page);
      FoldRebuilds(v, ever, Changes(map[], {}, 0, true), page.(reset := false));
    } else if !acc.reset {
      FoldGathers(v, ever, acc, page, since);
    } else {
      FoldRebuilds(v, ever, acc, page);
    }
  }

  /** One turn of the loop: whatever committed meanwhile, one request, one fold. */
  method PullPage(server: VaultTable, acc: Changes, gap: Gap, ghost since: nat, ghost horizon: nat, ghost quiet: bool)
    returns (next: Changes, more: bool)
    requires server.Consistent() && PullInv(server.State(), server.ever, acc, since, horizon, quiet)
    requires quiet ==> Within(gap.before, horizon) && Within(gap.between, horizon)
    modifies server
    ensures server.Consistent() && old(server.seqNo) <= server.seqNo
    ensures Extends(old(server.ever), old(server.seqNo), server.ever)
    ensures PullInv(server.State(), server.ever, next, since, horizon, quiet)
    ensures acc.reset ==> next.reset
    ensures !more ==> next.cursor == server.seqNo
    ensures more && next.reset == acc.reset ==> acc.cursor < next.cursor
    ensures gap == Gap([], []) ==> server.seqNo == old(server.seqNo)
  {
    PullSurvives(server.State(), server.ever, gap.before, acc, since, horizon, quiet);
    server.Interleave(gap.before);
    var page := VaultChanges(server, acc.cursor, acc.reset && acc.cursor > 0, gap.between);
    PullFolds(server.State(), server.ever, acc, page, since, horizon, quiet);
    next := FoldInto(acc, page);
    more := page.more;
  }

  /**
   * All changes past `since`, page by page to the last, while `traffic`
   * says what other devices commit meanwhile. Applied to any copy in step with
   * `since`, the answer gives exactly the items alive at the last page. An answer
   * rebuilt from nothing needs the tombstones written during the pull to outlive
   * it (otherwise it keeps exactly the items forgotten unseen as well); an
   * incremental one needs nothing, since the floor tells it to start over.
   */
  method PullVaultChanges(server: VaultTable, since: nat, traffic: seq<Gap>, ghost horizon: nat)
    returns (changes: Changes)
    requires server.Consistent() && since <= server.seqNo
    modifies server
    ensures server.Consistent() && old(server.seqNo) <= server.seqNo
    ensures Extends(old(server.ever), old(server.seqNo), server.ever)
    ensures changes.cursor == server.seqNo
    ensures since == 0 ==> changes.reset
    ensures !changes.reset ==> Gathered(server.ever, changes, since)
    ensures changes.reset ==> changes.items - (changes.items.Keys - server.rows.Keys) == LiveItems(server.rows)
    ensures changes.reset && AllWithin(traffic, horizon) ==> changes.items == LiveItems(server.rows)
  {
    changes := Changes(map[], {}, since, since == 0);
    var more := true;
    var n := 0;
    ghost var quiet := AllWithin(traffic, horizon);
    while more
      invariant n <= |traffic|
      invariant server.Consistent() && old(server.seqNo) <= server.seqNo
      invariant Extends(old(server.ever), old(server.seqNo), server.ever)
      invariant PullInv(server.State(), server.ever, changes, since, horizon, quiet)
      invariant since == 0 ==> changes.reset
      invariant !more ==> changes.cursor == server.seqNo
      decreases !changes.reset, |traffic| - n, server.seqNo - changes.cursor, more
    {
      var gap := if n < |traffic| then traffic[n] else Gap([], []);
      n := if n < |traffic| then n + 1 else n;
      changes, more := PullPage(server, changes, gap, since, horizon, quiet);
    }
    if changes.reset {
      RebuiltIsExact(server.State(), server.ever, changes.items);
    }
  }

  // ---------------------------------------------------------------------
  // The stored copy
  // ---------------------------------------------------------------------

  /** What `storeVaultChanges` leaves of a stored copy: an item replaces only an older version. */
  function StoreChanges(records: map<Id, Item>, changes: Changes): map<Id, Item> {
    var kept := if changes.reset then map[] else records - changes.removed;
    map id | id in kept.Keys + changes.items.Keys ::
      if id in changes.items && (id !in kept || kept[id].seqNo < changes.items[id].seqNo) then changes.items[id]
      else kept[id]
  }

  predicate SameChange(a: Item, b: Item) {
    a.id == b.id && a.seqNo == b.seqNo
  }

  /** One change number, one version: what the server stamped is never stamped again. */
  ghost predicate OneVersion(versions: set<Item>) {
    forall a, b {:trigger SameChange(a, b)} :: a in versions && b in versions && SameChange(a, b) ==> a == b
  }

  /** The database and the screen break ties differently, and still agree. */
  lemma StoreAgreesWithApply(versions: set<Item>, records: map<Id, Item>, changes: Changes)
    requires OneVersion(versions) && records.Values <= versions && changes.items.Values <= versions
    requires forall id :: id in records ==> records[id].id == id
    requires forall id :: id in changes.items ==> changes.items[id].id == id
    ensures StoreChanges(records, changes) == ApplyChanges(records, changes)
  {
    forall id | id in records && id in changes.items && records[id].seqNo == changes.items[id].seqNo
      ensures records[id] == changes.items[id]
    {
      assert records[id] in records.Values && changes.items[id] in changes.items.Values;
      assert SameChange(records[id], changes.items[id]);
    }
  }

  /** One device's vault as IndexedDB keeps it: the records and the change they are current to. */
  class VaultCopy {
    var records: map<Id, Item>
    var cursor: nat

    constructor ()
      ensures records == map[] && cursor == 0
    {
      records, cursor := map[], 0;
    }

    /** One transaction. A write this device made itself arrives without a cursor. */
    method StoreVaultChanges(changes: Changes, moveCursor: bool)
      modifies this
      ensures records == StoreChanges(old(records), changes)
      ensures var kept := if changes.reset then map[] else old(records) - changes.removed;
              && records.Keys == kept.Keys + changes.items.Keys
              && (forall id :: id in records ==>
                    records[id] == if id !in changes.items then kept[id]
                                   else if id in kept && changes.items[id].seqNo <= kept[id].seqNo then kept[id]
                                   else changes.items[id])
      ensures cursor == if moveCursor then changes.cursor else old(cursor)
    {
      if changes.reset {
        records := map[];
      }
      records := records - changes.removed;
      ghost var kept := records;
      var todo := changes.items.Keys;
      while todo != {}
        invariant todo <= changes.items.Keys
        invariant records.Keys == kept.Keys + (changes.items.Keys - todo) && cursor == old(cursor)
        invariant forall id :: id in records ==>
                    records[id] == if id in changes.items && id !in todo
                        && (id !in kept || kept[id].seqNo < changes.items[id].seqNo)
                                   then changes.items[id] else kept[id]
        decreases todo
      {
        var id :| id in todo;
        if id !in records || records[id].seqNo < changes.items[id].seqNo {
          records := records[id := changes.items[id]];
        }
        todo := todo - {id};
      }
      if moveCursor {
        cursor := changes.cursor;
      }
    }
  }

  lemma StoreKeepsStep(ever: map<Id, Row>, copy: map<Id, Item>, changes: Changes, since: nat)
    requires InStep(ever, copy, since) && Gathered(ever, changes, since) && !changes.reset
    ensures InStep(ever, StoreChanges(copy, changes), changes.cursor)
  {
    var next := StoreChanges(copy, changes);
    forall id | id in next
      ensures id in ever && next[id].seqNo <= ever[id].Seq()
      ensures next[id].seqNo == ever[id].Seq() || ever[id].Seq() <= changes.cursor ==> ever[id] == Live(next[id])
    {
      assert id in copy || id in changes.items;
    }
  }

  /**
   * One sync pass: pull, then store the answer and the cursor together. Whatever
   * the server held and whatever commits during the pull, a copy in step with its
   * cursor becomes the vault as the last page saw it.
   */
  method SyncVault(server: VaultTable, copy: VaultCopy, traffic: seq<Gap>, ghost horizon: nat) returns (rebuilt: bool)
    requires server.Consistent() && copy.cursor <= server.seqNo
    requires copy.cursor == 0 || InStep(server.ever, copy.records, copy.cursor)
    modifies server, copy
    ensures server.Consistent() && copy.cursor == server.seqNo
    ensures !rebuilt || AllWithin(traffic, horizon) ==> copy.records == LiveItems(server.rows)
  {
    var since := copy.cursor;
    ghost var n, before, records := server.seqNo, server.ever, copy.records;
    ghost var known := InStep(before, records, since);
    var changes := PullVaultChanges(server, since, traffic, horizon);
    if !changes.reset {
      InStepSurvives(before, n, server.ever, records, since);
      StoreKeepsStep(server.ever, records, changes, since);
      InStepIsExact(server.State(), server.ever, StoreChanges(records, changes));
    }
    copy.StoreVaultChanges(changes, true);
    rebuilt := changes.reset;
  }
}
