/**
 * Deleting a vault item for good while other devices keep creating, moving and
 * restoring items in and around it.
 */
module VaultPurge {
  import opened Basics
  import opened VaultServer
  import L = ParentLinks

  /** Items purged per D1 batch. */
  const PURGE_BATCH_SIZE: nat := 40

  /** Live rows the walk from `root` lists, tombstones walked through; none when `root` has no row. */
  function LiveInside(rows: map<Id, Row>, root: Id): set<Id> {
    if root in rows then set id | id in L.Subtree(Parents(rows), root) && IsLive(rows, id) else {}
  }

  /** No live item is nested in `root`, however many tombstones lie between. */
  ghost predicate Closed(rows: map<Id, Row>, root: Id) {
    forall id :: IsLive(rows, id) ==> !L.InTree(Parents(rows), root, id)
  }

  lemma LiveInsideIs(rows: map<Id, Row>, root: Id)
    ensures forall id :: id in LiveInside(rows, root) <==>
              root in rows && IsLive(rows, id) && L.InTree(Parents(rows), root, id)
  {
    forall id ensures id in L.Subtree(Parents(rows), root) <==> L.InTree(Parents(rows), root, id) {
      L.SubtreeExact(Parents(rows), root, id);
    }
  }

  lemma LiveInsideExact(rows: map<Id, Row>, root: Id)
    requires root in rows
    ensures LiveInside(rows, root) == {} <==> Closed(rows, root)
  {
    if Closed(rows, root) {
      forall id | id in LiveInside(rows, root) ensures false {
        L.SubtreeExact(Parents(rows), root, id);
      }
    } else {
      var id :| IsLive(rows, id) && L.InTree(Parents(rows), root, id);
      L.SubtreeExact(Parents(rows), root, id);
      assert id in LiveInside(rows, root);
    }
  }

  // ---------------------------------------------------------------------
  // One batch
  // ---------------------------------------------------------------------

  function PurgeOps(root: Id, ids: seq<Id>, now: nat): (ops: seq<Op>)
    ensures |ops| == |ids|
    ensures forall i :: 0 <= i < |ops| ==> ops[i] == Purge(ids[i], now, Inside(root))
  {
    seq(|ids|, i requires 0 <= i < |ids| => Purge(ids[i], now, Inside(root)))
  }

  /**
   * What a stretch of purging does when nobody else commits: those of `ids` still alive inside `root` go,
   * nothing moves.
   */
  ghost predicate Undisturbed(v: Vault, w: Vault, root: Id, ids: set<Id>, purged: set<Id>) {
    && Parents(w.rows) == Parents(v.rows)
    && purged == ids * LiveIds(v.rows) * L.Subtree(Parents(v.rows), root)
    && LiveIds(w.rows) == LiveIds(v.rows) - purged
  }

  function ToSet(ids: seq<Id>): set<Id> {
    set id | id in ids
  }

  /**
   * A batch of tombstone statements purges exactly those of its ids that are alive
   * and inside `root` at that moment, and changes nothing else.
   */
  lemma {:induction false} BatchExact(v: Vault, root: Id, ids: seq<Id>, now: nat)
    ensures var w := Run(v, PurgeOps(root, ids, now));
            && Undisturbed(v, w, root, ToSet(ids), ToSet(ids) * LiveIds(v.rows) * L.Subtree(Parents(v.rows), root))
            && (forall id :: id in LiveIds(w.rows) ==> w.rows[id] == v.rows[id])
    decreases |ids|
  {
    var ops := PurgeOps(root, ids, now);
    var purged := ToSet(ids) * LiveIds(v.rows) * L.Subtree(Parents(v.rows), root);
    if ids != [] {
      var next := Apply(v, ops[0]);
      var w := Run(v, ops);
      assert Parents(next.rows) == Parents(v.rows);
      assert ops[1..] == PurgeOps(root, ids[1..], now);
      BatchExact(next, root, ids[1..], now);
      assert forall id :: id in ids <==> id == ids[0] || id in ids[1..];
      assert LiveIds(w.rows) == LiveIds(v.rows) - purged;
    } else {
      assert Run(v, ops) == v;
    }
  }

  lemma OneMore(u: Vault, v: Vault, root: Id, ids: seq<Id>, i: nat, now: nat, done: seq<Id>)
    requires i < |ids| && v == Run(u, PurgeOps(root, ids[..i], now))
    requires Undisturbed(u, v, root, ToSet(ids[..i]), ToSet(done))
    ensures var op := Purge(ids[i], now, Inside(root));
            && Apply(v, op) == Run(u, PurgeOps(root, ids[..i + 1], now))
            && Undisturbed(u, Apply(v, op), root, ToSet(ids[..i + 1]),
                           ToSet(if PurgeLands(v.rows, op) then done + [ids[i]] else done))
  {
    var op := Purge(ids[i], now, Inside(root));
    assert ids[..i + 1] == ids[..i] + [ids[i]];
    assert PurgeOps(root, ids[..i + 1], now) == PurgeOps(root, ids[..i], now) + [op];
    RunConcat(u, map[], PurgeOps(root, ids[..i], now), [op]);
    assert ToSet(ids[..i + 1]) == ToSet(ids[..i]) + {ids[i]};
    assert ToSet(done + [ids[i]]) == ToSet(done) + {ids[i]};
    PurgeOne(u, v, root, ids[i], now, ToSet(ids[..i]), ToSet(done));
  }

  /** One D1 batch: no other request commits between its statements. */
  method PurgeBatch(server: VaultTable, root: Id, ids: seq<Id>, now: nat) returns (done: seq<Id>)
    requires server.Consistent()
    modifies server
    ensures server.Consistent()
    ensures server.State() == Run(old(server.State()), PurgeOps(root, ids, now))
    ensures Undisturbed(old(server.State()), server.State(), root, ToSet(ids), ToSet(done))
  {
    var ops := PurgeOps(root, ids, now);
    done := [];
    assert Run(server.State(), []) == server.State();
    ghost var v0 := server.State();
    for i := 0 to |ids|
      invariant server.Consistent()
      invariant server.State() == Run(v0, PurgeOps(root, ids[..i], now))
      invariant Undisturbed(v0, server.State(), root, ToSet(ids[..i]), ToSet(done))
    {
      OneMore(v0, server.State(), root, ids, i, now, done);
      var landed := server.Execute(ops[i]);
      if landed {
        done := done + [ids[i]];
      }
    }
    assert ids[..|ids|] == ids;
  }

  lemma PurgeOne(u: Vault, v: Vault, root: Id, id: Id, now: nat, ids: set<Id>, purged: set<Id>)
    requires Undisturbed(u, v, root, ids, purged)
    ensures var op := Purge(id, now, Inside(root));
            Undisturbed(u, Apply(v, op), root, ids + {id}, if PurgeLands(v.rows, op) then purged + {id} else purged)
  {
    var op := Purge(id, now, Inside(root));
    assert Parents(Apply(v, op).rows) == Parents(v.rows);
    assert LiveIds(Apply(v, op).rows) == if PurgeLands(v.rows, op) then LiveIds(v.rows) - {id} else LiveIds(v.rows);
    var tree := L.Subtree(Parents(u.rows), root);
    assert (ids + {id}) * LiveIds(u.rows) * tree == purged + {id} * LiveIds(u.rows) * tree;
    assert PurgeLands(v.rows, op) <==> id in LiveIds(v.rows) * tree;
    assert {id} * LiveIds(u.rows) * tree <= purged + {id} * LiveIds(v.rows) * tree;
  }

  // ---------------------------------------------------------------------
  // The whole purge
  // ---------------------------------------------------------------------

  /** Every own statement in `trace` is a tombstone guarded on being inside `root`; the rest came from others. */
  ghost predicate OnlyPurges(trace: seq<Op>, root: Id, traffic: seq<seq<Op>>) {
    forall op :: op in trace ==> (op.Purge? && op.guard == Inside(root)) || FromOthers(op, traffic)
  }

  predicate FromOthers(op: Op, traffic: seq<seq<Op>>) {
    exists ops :: ops in traffic && op in ops
  }

  method TakeTurn(server: VaultTable, traffic: seq<seq<Op>>, n: nat) returns (next: nat, ops: seq<Op>)
    requires server.Consistent() && n <= |traffic|
    modifies server
    ensures server.Consistent() && server.State() == Run(old(server.State()), ops)
    ensures next == if n < |traffic| then n + 1 else n
    ensures n == |traffic| ==> ops == []
    ensures forall op :: op in ops ==> FromOthers(op, traffic)
  {
    ops := if n < |traffic| then traffic[n] else [];
    next := if n < |traffic| then n + 1 else n;
    server.Interleave(ops);
    assert n < |traffic| ==> traffic[n] in traffic;
  }

  method ListLiveInside(server: VaultTable, root: Id) returns (ids: seq<Id>)
    ensures forall id :: id in ids <==> id in LiveInside(server.rows, root)
  {
    var todo := LiveInside(server.rows, root);
    ids := [];
    while todo != {}
      invariant forall id :: id in ids <==> id in LiveInside(server.rows, root) && id !in todo
      invariant todo <= LiveInside(server.rows, root)
      decreases todo
    {
      var id :| id in todo;
      ids := ids + [id];
      todo := todo - {id};
    }
  }

  lemma RunThen(v: Vault, a: seq<Op>, b: seq<Op>)
    ensures Run(v, a + b) == Run(Run(v, a), b)
  {
    RunConcat(v, map[], a, b);
  }

  /** One batch, after whatever others committed since the last one. */
  method PurgeSome(server: VaultTable, root: Id, batch: seq<Id>, now: nat, traffic: seq<seq<Op>>, n: nat)
    returns (done: seq<Id>, next: nat, ghost trace: seq<Op>)
    requires server.Consistent() && n <= |traffic|
    modifies server
    ensures server.Consistent() && n <= next <= |traffic|
    ensures server.State() == Run(old(server.State()), trace) && OnlyPurges(trace, root, traffic)
    ensures ToSet(done) <= ToSet(batch)
    ensures n == |traffic| ==> Undisturbed(old(server.State()), server.State(), root, ToSet(batch), ToSet(done))
  {
    var ops;
    next, ops := TakeTurn(server, traffic, n);
    ghost var v := server.State();
    BatchExact(v, root, batch, now);
    done := PurgeBatch(server, root, batch, now);
    trace := ops + PurgeOps(root, batch, now);
    RunThen(old(server.State()), ops, PurgeOps(root, batch, now));
  }

  lemma UndisturbedConcat(u: Vault, v: Vault, w: Vault, root: Id, a: set<Id>, b: set<Id>, pa: set<Id>, pb: set<Id>)
    requires Undisturbed(u, v, root, a, pa) && Undisturbed(v, w, root, b, pb)
    ensures Undisturbed(u, w, root, a + b, pa + pb)
  {
  }

  /** One round: the rows just listed, purged batch by batch with other requests in between. */
  method PurgeRound(server: VaultTable, root: Id, ids: seq<Id>, now: nat, traffic: seq<seq<Op>>, n: nat)
    returns (purged: seq<Id>, next: nat, ghost trace: seq<Op>)
    requires server.Consistent() && n <= |traffic|
    modifies server
    ensures server.Consistent() && n <= next <= |traffic|
    ensures server.State() == Run(old(server.State()), trace) && OnlyPurges(trace, root, traffic)
    ensures ToSet(purged) <= ToSet(ids)
    ensures n == |traffic| ==> Undisturbed(old(server.State()), server.State(), root, ToSet(ids), ToSet(purged))
  {
    purged, next, trace := [], n, [];
    var offset := 0;
    while offset < |ids|
      invariant offset <= |ids| && n <= next <= |traffic|
      invariant server.Consistent()
      invariant server.State() == Run(old(server.State()), trace) && OnlyPurges(trace, root, traffic)
      invariant ToSet(purged) <= ToSet(ids[..offset])
      invariant n == |traffic| ==>
                  Undisturbed(old(server.State()), server.State(), root, ToSet(ids[..offset]), ToSet(purged))
    {
      ghost var v := server.State();
      var end := Min(offset + PURGE_BATCH_SIZE, |ids|);
      var batch := ids[offset..end];
      var done;
      ghost var piece;
      done, next, piece := PurgeSome(server, root, batch, now, traffic, next);
      RunThen(old(server.State()), trace, piece);
      assert ids[..end] == ids[..offset] + batch;
      assert ToSet(ids[..end]) == ToSet(ids[..offset]) + ToSet(batch);
      assert ToSet(purged + done) == ToSet(purged) + ToSet(done);
      if n == |traffic| {
        UndisturbedConcat(old(server.State()), v, server.State(), root,
                          ToSet(ids[..offset]), ToSet(batch), ToSet(purged), ToSet(done));
      }
      trace := trace + piece;
      purged := purged + done;
      offset := end;
    }
    assert ids[..|ids|] == ids;
  }

  /** A round nobody disturbs purges everything the walk listed. */
  lemma RoundShrinks(v: Vault, w: Vault, root: Id, ids: set<Id>, purged: set<Id>)
    requires ids == LiveInside(v.rows, root) && Undisturbed(v, w, root, ids, purged)
    ensures purged == ids
    ensures ids != {} ==> |LiveIds(w.rows)| < |LiveIds(v.rows)|
    ensures LiveInside(w.rows, root) == {}
  {
    assert ids <= LiveIds(v.rows) && ids <= L.Subtree(Parents(v.rows), root);
    assert LiveIds(w.rows) + purged == LiveIds(v.rows);
    forall id | id in LiveIds(w.rows) ensures id !in LiveInside(w.rows, root) {
      assert root in w.rows ==> root in Parents(w.rows) && root in Parents(v.rows);
    }
  }

  /**
   * `purgeVaultItem`: walk, purge, walk again, until the walk finds nothing alive.
   * `traffic` is what other devices commit at each await. When it returns, nothing
   * alive is nested in `root`, and its own statements touched only what was.
   */
  method PurgeVaultItem(server: VaultTable, root: Id, now: nat, traffic: seq<seq<Op>>)
    returns (purged: seq<Id>, ghost trace: seq<Op>)
    requires server.Consistent()
    modifies server
    ensures server.Consistent()
    ensures server.State() == Run(old(server.State()), trace) && OnlyPurges(trace, root, traffic)
    ensures root in server.rows ==> Closed(server.rows, root)
    ensures traffic == [] ==> ToSet(purged) == LiveInside(old(server.rows), root)
  {
    purged, trace := [], [];
    var n, rows := 0, [];
    while true
      invariant n <= |traffic| && server.Consistent()
      invariant server.State() == Run(old(server.State()), trace) && OnlyPurges(trace, root, traffic)
      invariant traffic == [] ==> LiveInside(old(server.rows), root) == ToSet(purged) + LiveInside(server.rows, root)
      decreases |traffic| - n, |LiveIds(server.rows)|
    {
      var ops, done;
      ghost var round;
      n, ops := TakeTurn(server, traffic, n);
      RunThen(old(server.State()), trace, ops);
      rows := ListLiveInside(server, root);
      if rows == [] {
        trace := trace + ops;
        NothingListed(server.rows, root, rows);
        return;
      }
      ghost var v := server.State();
      ghost var m := n;
      done, n, round := PurgeRound(server, root, rows, now, traffic, n);
      RunThen(old(server.State()), trace + ops, round);
      RoundDone(v, server.State(), root, rows, purged, done, m == |traffic|);
      trace := trace + ops + round;
      purged := purged + done;
    }
  }

  /** With nothing else going on, what is purged is exactly what was alive and nested in the root. */
  method PurgeAlone(server: VaultTable, root: Id, now: nat) returns (purged: seq<Id>)
    requires server.Consistent()
    modifies server
    ensures server.Consistent()
    ensures forall id :: id in purged <==>
              root in old(server.rows) && IsLive(old(server.rows), id) && L.InTree(Parents(old(server.rows)), root, id)
  {
    ghost var trace;
    LiveInsideIs(server.rows, root);
    purged, trace := PurgeVaultItem(server, root, now, []);
    assert forall id :: id in purged <==> id in ToSet(purged);
  }

  lemma NothingListed(rows: map<Id, Row>, root: Id, listed: seq<Id>)
    requires listed == [] && forall id :: id in listed <==> id in LiveInside(rows, root)
    ensures root in rows ==> Closed(rows, root)
    ensures LiveInside(rows, root) == {}
  {
    assert LiveInside(rows, root) == ToSet(listed) == {};
    if root in rows {
      LiveInsideExact(rows, root);
    }
  }

  lemma RoundDone(v: Vault, w: Vault, root: Id, listed: seq<Id>, purged: seq<Id>, done: seq<Id>, quiet: bool)
    requires listed != [] && forall id :: id in listed <==> id in LiveInside(v.rows, root)
    requires quiet ==> Undisturbed(v, w, root, ToSet(listed), ToSet(done))
    ensures ToSet(purged + done) == ToSet(purged) + ToSet(done)
    ensures quiet ==> |LiveIds(w.rows)| < |LiveIds(v.rows)|
    ensures quiet ==> ToSet(done) == LiveInside(v.rows, root) && LiveInside(w.rows, root) == {}
  {
    assert ToSet(listed) == LiveInside(v.rows, root) && listed[0] in ToSet(listed);
    if quiet {
      RoundShrinks(v, w, root, ToSet(listed), ToSet(done));
    }
  }

  // ---------------------------------------------------------------------
  // After the purge
  // ---------------------------------------------------------------------

  lemma ClosedUnderLess(rows: map<Id, Row>, next: map<Id, Row>, root: Id)
    requires Closed(rows, root)
    requires forall id :: id in next && next[id].Parent().Some? ==> id in rows && rows[id].Parent() == next[id].Parent()
    requires forall id :: IsLive(next, id) ==> IsLive(rows, id)
    ensures Closed(next, root)
  {
    var p, q := Parents(rows), Parents(next);
    forall id | IsLive(next, id) ensures !L.InTree(q, root, id) {
      InTreeOfLarger(p, q, root, id);
    }
  }

  lemma InTreeOfLarger(p: L.Links, q: L.Links, root: Id, y: Id)
    requires forall z :: z in q && q[z].Some? ==> z in p && p[z] == q[z]
    ensures L.InTree(q, root, y) ==> L.InTree(p, root, y)
  {
    if L.InTree(q, root, y) {
      var n: nat :| L.Under(q, root, y, n);
      L.ClimbInLarger(p, q, root, y, n);
    }
  }

  /** Hanging a live item, or a new one, under a live folder leads nobody into a closed tree. */
  lemma ClosedUnderLink(p: L.Links, id: Id, parent: Id, root: Id, y: Id)
    requires id != root && !L.InTree(p, root, parent) && !L.InTree(p, root, y)
    requires !L.InTree(p, id, parent)
    ensures !L.InTree(p[id := Some(parent)], root, y)
  {
    var q := p[id := Some(parent)];
    if L.InTree(q, root, y) {
      var n: nat :| L.Under(q, root, y, n);
      L.ClimbSplits(p, q, id, root, y, n);
      var k: nat :| L.Under(q, root, id, k);
      assert L.Under(q, root, parent, k - 1);
      L.ClimbSplits(p, q, id, root, parent, k - 1);
      var m: nat :| L.Under(q, id, parent, m);
      L.ClimbToMoved(p, q, id, parent, m);
    }
  }

  /** Once nothing alive is nested in a purged item, nothing alive ever will be. */
  lemma ClosedStays(v: Vault, op: Op, root: Id)
    requires Closed(v.rows, root) && FreshId(v, op)
    requires op.Create? ==> op.id != root
    ensures Closed(Apply(v, op).rows, root)
  {
    var p, next := Parents(v.rows), Apply(v, op).rows;
    if op.Create? && CreateLands(v.rows, op) && op.parentId.Some? {
      var parent := op.parentId.value;
      assert Parents(next) == p[op.id := Some(parent)];
      NewIdUnreached(p, op.id, parent);
      forall id | IsLive(next, id) ensures !L.InTree(Parents(next), root, id) {
        if id == op.id {
          NoRowOutside(p, root, id);
        }
        ClosedUnderLink(p, op.id, parent, root, id);
      }
    } else if op.Create? && CreateLands(v.rows, op) {
      assert Parents(next) == p[op.id := None];
      forall id | IsLive(next, id) ensures !L.InTree(Parents(next), root, id) {
        InTreeOfLarger(p, Parents(next), root, id);
        if id == op.id {
          NoRowOutside(p, root, id);
        }
      }
    } else if op.Update? && UpdateLands(v.rows, op) && op.edit.move.Some? && op.edit.move.value.Some? {
      var parent := op.edit.move.value.value;
      assert Parents(next) == p[op.id := Some(parent)];
      L.SubtreeExact(p, op.id, parent);
      assert L.Under(p, root, root, 0);
      forall id | IsLive(next, id) ensures !L.InTree(Parents(next), root, id) {
        ClosedUnderLink(p, op.id, parent, root, id);
      }
    } else {
      ClosedUnderLess(v.rows, next, root);
    }
  }

  lemma NoRowOutside(p: L.Links, root: Id, id: Id)
    requires id !in p && id != root
    ensures !L.InTree(p, root, id)
  {
    forall n: nat ensures !L.Under(p, root, id, n) {
    }
  }

  lemma NewIdUnreached(p: L.Links, id: Id, y: Id)
    requires y != id && forall x :: x in p ==> p[x] != Some(id)
    ensures !L.InTree(p, id, y)
  {
    if L.InTree(p, id, y) {
      var n: nat :| L.Under(p, id, y, n);
      NotClimbedTo(p, id, y, n);
    }
  }

  /** Every created id is fresh when it is created, and none is `root`. */
  ghost predicate FreshIds(v: Vault, ops: seq<Op>, root: Id)
    decreases |ops|
  {
    ops != [] ==>
      && FreshId(v, ops[0]) && (ops[0].Create? ==> ops[0].id != root)
      && FreshIds(Apply(v, ops[0]), ops[1..], root)
  }

  lemma {:induction false} PurgeIsForGood(v: Vault, ops: seq<Op>, root: Id)
    requires Closed(v.rows, root) && FreshIds(v, ops, root)
    ensures Closed(Run(v, ops).rows, root)
    decreases |ops|
  {
    if ops != [] {
      ClosedStays(v, ops[0], root);
      PurgeIsForGood(Apply(v, ops[0]), ops[1..], root);
    }
  }

  // ---------------------------------------------------------------------
  // Purging trashed items whose time is up
  // ---------------------------------------------------------------------

  /** Not in the trash, or only since `before` or later. */
  ghost predicate NotExpired(v: Vault, id: Id, before: nat) {
    IsLive(v.rows, id) ==> v.rows[id].item.trashedAt.None? || before <= v.rows[id].item.trashedAt.value
  }

  lemma {:induction false} NotExpiredStays(v: Vault, ops: seq<Op>, id: Id, before: nat)
    requires NotExpired(v, id, before)
    requires forall op :: op in ops && op.Update? && op.id == id && op.edit.trash.Some? && op.edit.trash.value.Some? ==>
               before <= op.edit.trash.value.value
    ensures NotExpired(Run(v, ops), id, before)
    decreases |ops|
  {
    if ops != [] {
      assert ops[0] in ops;
      NotExpiredStays(Apply(v, ops[0]), ops[1..], id, before);
    }
  }

  /** A restore that lands before the claim wins, even if the item is trashed again since. */
  lemma RestoreWins(v: Vault, restore: Op, between: seq<Op>, claim: Op)
    requires restore.Update? && UpdateLands(v.rows, restore) && restore.edit.trash == Some(None)
    requires claim.Purge? && claim.id == restore.id && claim.guard.Expired?
    requires forall op :: op in between && op.Update? && op.id == claim.id ==>
               op.edit.trash.Some? && op.edit.trash.value.Some? ==> claim.guard.before <= op.edit.trash.value.value
    ensures !PurgeLands(Run(Apply(v, restore), between).rows, claim)
  {
    NotExpiredStays(Apply(v, restore), between, claim.id, claim.guard.before);
  }

  /**
   * `purgeExpiredVaultItem`: choose, claim, purge the contents. `gap` is what commits
   * between choosing and claiming. The claim is lost, and nothing is touched, exactly
   * when by then the item is gone, restored, or holds other content.
   */
  method PurgeExpiredVaultItem(server: VaultTable, root: Id, before: nat, now: nat, gap: seq<Op>, traffic: seq<seq<Op>>)
    returns (purged: seq<Id>)
    requires server.Consistent()
    modifies server
    ensures server.Consistent()
    ensures IsLive(old(server.rows), root) && old(server.rows)[root].item.trashedAt.Some?
              && old(server.rows)[root].item.trashedAt.value < before ==>
              var chosen := Purge(root, now, Expired(before, old(server.rows)[root].item.blobKey));
              var mid := Run(old(server.State()), gap);
              if PurgeLands(mid.rows, chosen) then
                && root in purged && (root in server.rows ==> Closed(server.rows, root))
                && (traffic == [] ==> ToSet(purged) == LiveInside(mid.rows, root))
              else purged == [] && server.rows == mid.rows
    ensures NotExpired(old(server.State()), root, before) ==> purged == [] && server.State() == old(server.State())
  {
    if !IsLive(server.rows, root) || server.rows[root].item.trashedAt.None?
        || before <= server.rows[root].item.trashedAt.value {
      return [];
    }
    var claim := Purge(root, now, Expired(before, server.rows[root].item.blobKey));
    server.Interleave(gap);
    var landed := server.Execute(claim);
    if !landed {
      return [];
    }
    // From the claim on, no create or move can name the item as its folder.
    ClaimedInside(Run(old(server.State()), gap), claim, root);
    var inside;
    ghost var trace;
    inside, trace := PurgeVaultItem(server, root, now, traffic);
    purged := [root] + inside;
    assert ToSet(purged) == {root} + ToSet(inside);
  }

  /** A landed claim takes the root from what is alive inside it, and nothing else. */
  lemma ClaimedInside(v: Vault, claim: Op, root: Id)
    requires claim.Purge? && claim.id == root && PurgeLands(v.rows, claim)
    ensures LiveInside(v.rows, root) == {root} + LiveInside(Apply(v, claim).rows, root)
  {
    assert Parents(Apply(v, claim).rows) == Parents(v.rows);
    assert L.Under(Parents(v.rows), root, root, 0);
    L.SubtreeExact(Parents(v.rows), root, root);
  }
}
