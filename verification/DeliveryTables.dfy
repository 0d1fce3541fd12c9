/** The server's tables, read as one message's delivery: what its methods do is what the steps of a run do. */
module DeliveryTables {
  import opened Basics
  import opened Delivery
  import opened DeliveryRuns

  /** The tables hold what the world says of message `m`, whose file is named by no other message. */
  ghost predicate Shows(t: Table, m: Id, w: World) {
    && (w.present <==> m in t.messages)
    && (forall d :: d in w.pending <==> (m, d) in t.delivery)
    && (forall d :: d in w.pending ==> w.pending[d] == t.delivery[(m, d)])
    && (m in t.messages ==>
          && (w.blob <==> t.messages[m].fileKey.Some? && t.messages[m].fileKey.value in t.files)
          && forall other :: other in t.messages && other != m && t.messages[m].fileKey.Some? ==>
               t.messages[other].fileKey != t.messages[m].fileKey)
    && (m !in t.messages ==> !w.blob)
  }

  lemma StillShows(t: Table, after: Table, m: Id, w: World, gone: set<Id>)
    requires Shows(t, m, w) && Removed(t, after, gone) && m !in gone
    ensures Shows(after, m, w)
  {
    forall d ensures d in w.pending <==> (m, d) in after.delivery {
      assert (m, d) in after.delivery <==> (m, d) in t.delivery;
    }
  }

  lemma GoneShows(t: Table, after: Table, m: Id, w: World, w': World, gone: set<Id>)
    requires Shows(t, m, w) && Removed(t, after, gone) && m in gone
    requires !w'.present && !w'.blob && w'.pending == map[]
    ensures Shows(after, m, w')
  {
    assert forall d :: (m, d) !in after.delivery;
  }

  /** A confirmation that arrives: the row is confirmed, and if it was the last awaited, message and file go. */
  method Acknowledged(ghost w: World, table: MessageTable, m: Id, d: Id, group: Id)
    returns (deleted: bool, ghost w': World)
    requires Shows(table.t, m, w) && m in table.t.messages && table.t.messages[m].group == group
    requires Enabled(w, Confirm(d, true)) && w.present
    modifies table
    ensures Shows(table.t, m, w')
    ensures deleted <==> forall x :: x in w.pending && !w.pending[x] ==> x == d
    ensures if deleted then Enabled(Do(w, Confirm(d, true)), Purge) && w' == Do(Do(w, Confirm(d, true)), Purge)
            else w' == Do(w, Confirm(d, true))
  {
    ghost var before := table.t;
    var ok;
    ok, deleted := table.AckMessage(m, d, group);
    w' := Do(w, Confirm(d, true));
    if deleted {
      assert forall x :: x in w.pending && !w.pending[x] ==> x == d by {
        assert forall x :: x in w.pending ==> (m, x) in before.delivery;
      }
      w' := Do(w', Purge);
      GoneShows(before, table.t, m, w, w', {m});
    } else {
      ghost var p :| p in before.delivery && p.0 == m && !before.delivery[p] && p.1 != d;
      assert p == (m, p.1) && p.1 in w.pending && !w.pending[p.1];
      forall x | x in w'.pending ensures w'.pending[x] == table.t.delivery[(m, x)] {
        assert (m, x) in table.t.delivery;
      }
    }
  }

  /** The sweep takes a message if and only if nobody is awaited, which is when the run may purge it. */
  method SweptDelivered(ghost w: World, table: MessageTable, m: Id, group: Id) returns (ghost w': World)
    requires Shows(table.t, m, w) && m in table.t.messages && table.t.messages[m].group == group
    modifies table
    ensures Shows(table.t, m, w')
    ensures w' == if Enabled(w, Purge) then Do(w, Purge) else w
  {
    ghost var before := table.t;
    table.PurgeDeliveredMessages(group);
    ghost var gone := set x | x in before.messages && before.messages[x].group == group
                                && NobodyWaits(before.delivery, x);
    w' := if Enabled(w, Purge) then Do(w, Purge) else w;
    if Enabled(w, Purge) {
      forall p | p in before.delivery && p.0 == m ensures before.delivery[p] {
        assert p == (m, p.1) && p.1 in w.pending;
      }
      GoneShows(before, table.t, m, w, w', gone);
    } else {
      var d :| d in w.pending && !w.pending[d];
      assert (m, d) in before.delivery && !before.delivery[(m, d)];
      StillShows(before, table.t, m, w, gone);
    }
  }

  /** Expiry cuts a delivery short; the messages still in time stay exactly as they were. */
  method SweptExpired(ghost w: World, table: MessageTable, m: Id, olderThan: nat) returns (ghost w': World)
    requires Shows(table.t, m, w) && m in table.t.messages
    modifies table
    ensures Shows(table.t, m, w')
    ensures w' == if old(table.t).messages[m].createdAt < olderThan then Do(w, Cut) else w
  {
    ghost var before := table.t;
    table.PurgeExpiredMessages(olderThan);
    ghost var gone := set x | x in before.messages && before.messages[x].createdAt < olderThan;
    w' := if before.messages[m].createdAt < olderThan then Do(w, Cut) else w;
    if before.messages[m].createdAt < olderThan {
      GoneShows(before, table.t, m, w, w', gone);
    } else {
      StillShows(before, table.t, m, w, gone);
    }
  }

  /** A message as it is registered is the start of a run, for the recipients it then has. */
  lemma SentStarts(t: Table, id: Id, m: Message, recipients: set<Id>)
    requires id !in t.messages && forall p :: p in t.delivery ==> p.0 != id
    requires m.fileKey.Some? ==>
          m.fileKey.value in t.files && forall x :: x in t.messages ==> t.messages[x].fileKey != m.fileKey
    ensures Shows(Sent(t, id, m, recipients), id, Init(m.fileKey.Some?, recipients))
    ensures var w := Init(m.fileKey.Some?, recipients);
            && w.reached == map[] && w.revoked == {} && !w.cut && w.recv.Keys == recipients
            && forall d :: d in recipients ==> w.recv[d] == Recipient(None, Idle, 0, 0, false, 0, 0)
  {
    var after, w := Sent(t, id, m, recipients), Init(m.fileKey.Some?, recipients);
    forall d ensures d in w.pending <==> (id, d) in after.delivery {
      assert d in recipients <==> (id, d) in (set x | x in recipients :: (id, x));
    }
  }

  // ---------------------------------------------------------------------
  // The recipient's other steps
  // ---------------------------------------------------------------------

  /** The description opens, or fails to: only the third failure in a row registers the message, without its file. */
  lemma RegisterExact(w: World, d: Id, opens: bool)
    requires Enabled(w, Register(d, opens))
    ensures var r, r' := w.recv[d], Do(w, Register(d, opens)).recv[d];
            && Do(w, Register(d, opens)) == w.(recv := w.recv[d := r'])
            && r' == r.(copy := r'.copy, metaAttempts := r'.metaAttempts, metaFailures := r'.metaFailures)
            && (opens ==> r'.copy == Some(Copy(w.hasFile, Remote, false, false)))
            && (!opens ==> r'.copy == if r.metaAttempts < 2 then None else Some(Copy(false, Remote, false, true)))
            && r'.metaFailures == r.metaFailures + (if opens then 0 else 1)
            && r'.metaAttempts == if r'.copy.Some? then 0 else r.metaAttempts + 1
  {
  }

  /** A store is noted when a save succeeds, a failure when one happens, and a cut when expiry or a deletion cuts. */
  lemma LedgerExact(w: World, step: Step, d: Id)
    requires Enabled(w, step) && d in w.recv
    ensures Do(w, step).cut <==> w.cut || step.Cut?
    ensures d in Do(w, step).recv && Noted(w.recv[d], Do(w, step).recv[d], step, d)
  {
    match step
    case Register(_, _) =>
    case Fetched(_, _) =>
    case Open(_, _) =>
    case Save(_, _) =>
    case Confirm(_, _) =>
    case _ =>
  }

  ghost predicate Noted(r: Recipient, r': Recipient, step: Step, d: Id) {
    && (r'.saved <==> r.saved || step == Save(d, true))
    && r'.failures == r.failures + (if step == Open(d, false) then 1 else 0)
    && r'.metaFailures == r.metaFailures + (if step == Register(d, false) then 1 else 0)
  }

  /** A revoked device is waited for no longer; what it confirmed stays confirmed, and nobody else's row changes. */
  lemma RevokeExact(w: World, d: Id)
    requires Enabled(w, Revoke(d))
    ensures var w' := Do(w, Revoke(d));
            && w' == w.(revoked := w'.revoked, pending := w'.pending)
            && (forall x :: x in w'.revoked <==> x in w.revoked || x == d)
            && (forall x :: x in w'.pending <==> x in w.pending && (x == d ==> w.pending[x]))
            && (forall x :: x in w'.pending ==> w'.pending[x] == w.pending[x])
  {
  }

  /** The user destroys a message: no copy is left, its row is confirmed, and the first reason given stands. */
  lemma DiscardExact(w: World, d: Id)
    requires Enabled(w, Discard(d))
    ensures var w' := Do(w, Discard(d));
            && w' == w.(recv := w'.recv, pending := w'.pending, reached := w'.reached)
            && w'.recv == w.recv[d := w.recv[d].(copy := None, task := Idle)]
            && w'.reached == (if d in w.reached then w.reached else w.reached[d := Destroyed])
            && w'.pending.Keys == w.pending.Keys
            && (forall x :: x in w.pending ==> w'.pending[x] == (w.pending[x] || (x == d && w.present)))
  {
  }

  /** A confirmation whose answer is lost reached the server all the same, and the device will confirm again. */
  lemma ConfirmExact(w: World, d: Id, heard: bool)
    requires Enabled(w, Confirm(d, heard))
    ensures var w' := Do(w, Confirm(d, heard));
            && w' == w.(recv := w'.recv, pending := w'.pending, reached := w'.reached) && d in w'.reached
            && w'.recv == w.recv[d := w.recv[d].(copy := Some(w.recv[d].copy.value.(acked := heard)))]
            && w'.pending.Keys == w.pending.Keys
            && (forall x :: x in w.pending ==> w'.pending[x] == (w.pending[x] || (x == d && w.present)))
  {
  }

  /** A reload forgets what was under way and how often it failed, and nothing that is stored. */
  lemma ReloadExact(w: World, d: Id)
    requires Enabled(w, Reload(d))
    ensures var w', r := Do(w, Reload(d)), w.recv[d];
            && w' == w.(recv := w'.recv) && w'.recv.Keys == w.recv.Keys
            && (forall x :: x in w.recv && x != d ==> w'.recv[x] == w.recv[x])
            && w'.recv[d] == Recipient(r.copy, Idle, 0, r.failures, r.saved, 0, r.metaFailures)
  {
  }
}
