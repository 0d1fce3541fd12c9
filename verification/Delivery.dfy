/**
 * Delivering one message: each recipient downloads, opens and stores its file before confirming it,
 * and the server lets go of message and file once every recipient has confirmed.
 */
module Delivery {
  import opened Basics

  // ---------------------------------------------------------------------
  // The server's tables
  // ---------------------------------------------------------------------

  datatype Message = Message(group: Id, createdAt: nat, fileKey: Option<Id>)

  datatype Device = Device(group: Id, revoked: bool, sendOnly: bool)

  /** `delivery` holds a row per message and recipient, true once confirmed. */
  datatype Table = Table(messages: map<Id, Message>, delivery: map<(Id, Id), bool>, files: set<Id>)

  const DELETE_BATCH_SIZE: nat := 100

  /** Everyone who collects what `sender` sends. */
  function MessageRecipients(devices: map<Id, Device>, group: Id, sender: Id): set<Id> {
    set d | d in devices && devices[d].group == group && !devices[d].revoked && !devices[d].sendOnly && d != sender
  }

  predicate Awaited(delivery: map<(Id, Id), bool>, m: Id) {
    exists p :: p in delivery && p.0 == m && !delivery[p]
  }

  function FileKeys(messages: map<Id, Message>, ids: set<Id>): set<Id> {
    set m | m in ids && m in messages && messages[m].fileKey.Some? :: messages[m].fileKey.value
  }

  function Without(t: Table, ids: set<Id>): Table {
    Table(t.messages - ids,
          map p | p in t.delivery && p.0 !in ids :: t.delivery[p],
          t.files - FileKeys(t.messages, ids))
  }

  function Delivered(t: Table, group: Id): set<Id> {
    set m | m in t.messages && t.messages[m].group == group && !Awaited(t.delivery, m)
  }

  function Expired(t: Table, olderThan: nat): set<Id> {
    set m | m in t.messages && t.messages[m].createdAt < olderThan
  }

  function Members(ids: seq<Id>): set<Id> {
    set i | 0 <= i < |ids| :: ids[i]
  }

  lemma MembersSplit(ids: seq<Id>, i: nat, j: nat)
    requires i <= j <= |ids|
    ensures Members(ids[..i]) + Members(ids[i..j]) == Members(ids[..j])
  {
    forall m | m in Members(ids[..j]) ensures m in Members(ids[..i]) + Members(ids[i..j]) {
      var k :| 0 <= k < j && ids[..j][k] == m;
      assert if k < i then ids[..i][k] == m else ids[i..j][k - i] == m;
    }
    forall m | m in Members(ids[..i]) + Members(ids[i..j]) ensures m in Members(ids[..j]) {
      if m in Members(ids[..i]) {
        var k :| 0 <= k < i && ids[..i][k] == m;
        assert ids[..j][k] == m;
      } else {
        var k :| 0 <= k < j - i && ids[i..j][k] == m;
        assert ids[..j][i + k] == m;
      }
    }
  }

  /** A message as it is registered: one unconfirmed row per recipient. */
  function Sent(t: Table, id: Id, m: Message, recipients: set<Id>): Table {
    t.(messages := t.messages[id := m],
       delivery := map p | p in t.delivery.Keys + (set d | d in recipients :: (id, d)) ::
         if p in t.delivery then t.delivery[p] else false)
  }

  /**
   * A new message is awaited by somebody, and so outlives the next sweep, exactly when anybody but its
   * sender collects messages; the sender, revoked devices and send-only devices are never waited for.
   */
  lemma SentIsAwaited(t: Table, devices: map<Id, Device>, id: Id, m: Message, sender: Id)
    requires forall p :: p in t.delivery ==> p.0 != id
    ensures var recipients := MessageRecipients(devices, m.group, sender);
            var after := Sent(t, id, m, recipients);
            && (Awaited(after.delivery, id) <==> recipients != {})
            && (id in Delivered(after, m.group) <==> recipients == {})
            && (forall d :: (id, d) in after.delivery <==>
                  && d in devices && devices[d].group == m.group && d != sender
                  && !devices[d].revoked && !devices[d].sendOnly)
            && (forall d :: (id, d) in after.delivery ==> !after.delivery[(id, d)])
            && (forall p :: p in t.delivery ==> p in after.delivery && after.delivery[p] == t.delivery[p])
            && after.messages == t.messages[id := m] && after.files == t.files
  {
    var recipients := MessageRecipients(devices, m.group, sender);
    var after := Sent(t, id, m, recipients);
    if d :| d in recipients {
      assert (id, d) in after.delivery && !after.delivery[(id, d)];
    }
  }

  /** The messages `gone` are out of the tables, with every row and file of theirs, and nothing else is. */
  ghost predicate Removed(before: Table, after: Table, gone: set<Id>) {
    && (forall m :: m in after.messages <==> m in before.messages && m !in gone)
    && (forall m :: m in after.messages ==> after.messages[m] == before.messages[m])
    && (forall p {:trigger p in after.delivery} :: p in after.delivery <==> p in before.delivery && p.0 !in gone)
    && (forall p {:trigger p in after.delivery} :: p in after.delivery ==> after.delivery[p] == before.delivery[p])
    && (forall f :: f in after.files <==>
          f in before.files && !exists m :: m in gone && m in before.messages && before.messages[m].fileKey == Some(f))
  }

  /** Every row of the message is confirmed. */
  predicate NobodyWaits(delivery: map<(Id, Id), bool>, m: Id) {
    forall p :: p in delivery && p.0 == m ==> delivery[p]
  }

  lemma DeliveredRemoves(t: Table, group: Id)
    ensures Removed(t, Without(t, Delivered(t, group)),
                    set m | m in t.messages && t.messages[m].group == group && NobodyWaits(t.delivery, m))
  {
    assert Delivered(t, group) ==
           set m | m in t.messages && t.messages[m].group == group && NobodyWaits(t.delivery, m);
    WithoutRemoves(t, Delivered(t, group));
  }

  lemma WithoutRemoves(t: Table, gone: set<Id>)
    ensures Removed(t, Without(t, gone), gone)
  {
  }

  lemma WithoutTwice(t: Table, a: set<Id>, b: set<Id>)
    ensures Without(Without(t, a), b) == Without(t, a + b)
  {
    var x, y := Without(Without(t, a), b), Without(t, a + b);
    assert x.messages == y.messages && x.delivery == y.delivery;
    assert FileKeys(t.messages, a + b) == FileKeys(t.messages, a) + FileKeys(t.messages - a, b) by {
      forall k | k in FileKeys(t.messages, a + b) ensures k in FileKeys(t.messages, a) + FileKeys(t.messages - a, b) {
        var m :| m in a + b && m in t.messages && t.messages[m].fileKey == Some(k);
        assert m in a || m in t.messages - a;
      }
    }
    assert x.files == y.files;
  }

  lemma WithoutNone(t: Table)
    ensures Without(t, {}) == t
  {
    assert Without(t, {}).delivery == t.delivery && t.messages - {} == t.messages;
  }

  /** Removing some messages leaves the others exactly as delivered, or as old, as they were. */
  lemma WithoutKeepsOthers(t: Table, gone: set<Id>, group: Id, olderThan: nat)
    ensures Delivered(Without(t, gone), group) == Delivered(t, group) - gone
    ensures Expired(Without(t, gone), olderThan) == Expired(t, olderThan) - gone
  {
    var after := Without(t, gone);
    forall m | m !in gone ensures Awaited(after.delivery, m) <==> Awaited(t.delivery, m) {
      if Awaited(t.delivery, m) {
        var p :| p in t.delivery && p.0 == m && !t.delivery[p];
        assert p in after.delivery;
      }
      if Awaited(after.delivery, m) {
        var p :| p in after.delivery && p.0 == m && !after.delivery[p];
        assert p in t.delivery;
      }
    }
  }

  class MessageTable {
    var t: Table

    constructor ()
      ensures t == Table(map[], map[], {})
    {
      t := Table(map[], map[], {});
    }

    /** One batch at a time: rows first, then the files they named. */
    method DeleteMessages(ids: seq<Id>)
      modifies this
      ensures t == Without(old(t), Members(ids))
      ensures Removed(old(t), t, set i | 0 <= i < |ids| :: ids[i])
    {
      var offset := 0;
      WithoutNone(t);
      assert Members(ids[..0]) == {};
      while offset < |ids|
        invariant 0 <= offset <= |ids|
        invariant t == Without(old(t), Members(ids[..offset]))
      {
        var end := if |ids| - offset < DELETE_BATCH_SIZE then |ids| else offset + DELETE_BATCH_SIZE;
        ghost var done := Members(ids[..offset]);
        var batch := Members(ids[offset..end]);
        var keys := FileKeys(t.messages, batch);
        t := t.(messages := t.messages - batch, delivery := map p | p in t.delivery && p.0 !in batch :: t.delivery[p]);
        t := t.(files := t.files - keys);
        WithoutTwice(old(t), done, batch);
        MembersSplit(ids, offset, end);
        offset := end;
      }
      assert ids[..offset] == ids;
      WithoutRemoves(old(t), Members(ids));
    }

    /** Sweep until nothing delivered is left: exactly the messages nobody is awaited for are gone, with their files. */
    method PurgeDeliveredMessages(group: Id)
      modifies this
      ensures t == Without(old(t), Delivered(old(t), group))
      ensures Removed(old(t), t, set m | m in old(t).messages && old(t).messages[m].group == group
                                      && NobodyWaits(old(t).delivery, m))
    {
      ghost var gone: set<Id> := {};
      WithoutNone(t);
      while true
        invariant gone <= Delivered(old(t), group) && t == Without(old(t), gone)
        decreases |Delivered(old(t), group) - gone|
      {
        WithoutKeepsOthers(old(t), gone, group, 0);
        var found := Oldest(Delivered(t, group));
        if found == [] {
          assert gone == Delivered(old(t), group);
          DeliveredRemoves(old(t), group);
          return;
        }
        ghost var batch := Members(found);
        ghost var left := Delivered(old(t), group) - gone;
        assert found[0] in batch && batch <= left;
        DeleteMessages(found);
        WithoutTwice(old(t), gone, batch);
        gone := gone + batch;
        assert Delivered(old(t), group) - gone == left - batch;
        assert left == (left - batch) + batch;
      }
    }

    /** Exactly the messages created before `olderThan` go, each with its delivery rows and its file. */
    method PurgeExpiredMessages(olderThan: nat)
      modifies this
      ensures t == Without(old(t), Expired(old(t), olderThan))
      ensures Removed(old(t), t, set m | m in old(t).messages && old(t).messages[m].createdAt < olderThan)
    {
      ghost var gone: set<Id> := {};
      WithoutNone(t);
      while true
        invariant gone <= Expired(old(t), olderThan) && t == Without(old(t), gone)
        decreases |Expired(old(t), olderThan) - gone|
      {
        WithoutKeepsOthers(old(t), gone, 0, olderThan);
        var found := Oldest(Expired(t, olderThan));
        if found == [] {
          assert gone == Expired(old(t), olderThan);
          WithoutRemoves(old(t), gone);
          assert gone == set m | m in old(t).messages && old(t).messages[m].createdAt < olderThan;
          return;
        }
        ghost var batch := Members(found);
        ghost var left := Expired(old(t), olderThan) - gone;
        assert found[0] in batch && batch <= left;
        DeleteMessages(found);
        WithoutTwice(old(t), gone, batch);
        gone := gone + batch;
        assert Expired(old(t), olderThan) - gone == left - batch;
        assert left == (left - batch) + batch;
      }
    }

    /** Confirm for one device; the last confirmation deletes the message and its file. */
    method AckMessage(m: Id, device: Id, group: Id) returns (ok: bool, deleted: bool)
      modifies this
      ensures ok <==> m in old(t).messages && old(t).messages[m].group == group
      ensures !ok ==> t == old(t) && !deleted
      ensures ok ==> t == AfterAck(old(t), m, device)
      ensures deleted <==> ok && forall p :: p in old(t).delivery && p.0 == m && !old(t).delivery[p] ==> p.1 == device
      ensures deleted ==> Removed(old(t), t, {m})
      ensures ok && !deleted ==>
                && t.messages == old(t).messages && t.files == old(t).files
                && t.delivery.Keys == old(t).delivery.Keys
                && forall p {:trigger p in t.delivery} :: p in t.delivery ==>
                     t.delivery[p] == (old(t).delivery[p] || p == (m, device))
    {
      if !(m in t.messages && t.messages[m].group == group) {
        return false, false;
      }
      if (m, device) in t.delivery {
        t := t.(delivery := t.delivery[(m, device) := true]);
      }
      ok, deleted := true, !Awaited(t.delivery, m);
      if deleted {
        var only := [m];
        assert only[0] in Members(only);
        assert Members(only) == {m};
        DeleteMessages(only);
        WithoutRemoves(old(t), {m});
      }
    }
  }

  function Confirmed(delivery: map<(Id, Id), bool>, m: Id, device: Id): map<(Id, Id), bool> {
    if (m, device) in delivery then delivery[(m, device) := true] else delivery
  }

  function AfterAck(t: Table, m: Id, device: Id): Table {
    var confirmed := t.(delivery := Confirmed(t.delivery, m, device));
    if Awaited(confirmed.delivery, m) then confirmed else Without(confirmed, {m})
  }

  /** Up to one batch; none only when there are none. */
  method Oldest(candidates: set<Id>) returns (found: seq<Id>)
    ensures (forall i :: 0 <= i < |found| ==> found[i] in candidates) && |found| <= DELETE_BATCH_SIZE
    ensures found == [] <==> candidates == {}
  {
    found := [];
    var rest := candidates;
    while rest != {} && |found| < DELETE_BATCH_SIZE
      invariant rest <= candidates && |found| <= DELETE_BATCH_SIZE
      invariant forall i :: 0 <= i < |found| ==> found[i] in candidates
      invariant found == [] ==> rest == candidates
      decreases |rest|
    {
      var m :| m in rest;
      found, rest := found + [m], rest - {m};
    }
    assert found != [] ==> found[0] in candidates;
  }

  // ---------------------------------------------------------------------
  // The receiving device
  // ---------------------------------------------------------------------

  datatype FileState = Remote | Downloading | Downloaded | Error | Gone | Corrupted

  /** A message as the device keeps it; `file` is absent when there is none, or its description never opened. */
  datatype Copy = Copy(file: bool, state: FileState, acked: bool, corrupted: bool)

  const MAX_DECRYPT_ATTEMPTS: nat := 3

  predicate NeedsDownload(state: FileState) {
    state.Remote? || state.Downloading? || state.Error?
  }

  /** What may be confirmed: there is no file to wait for, or it is stored, gone, or given up on. */
  predicate Settled(copy: Copy) {
    copy.file ==> !NeedsDownload(copy.state)
  }

  /** How the outside world treats one attempt. */
  datatype Attempt = Attempt(due: bool, keyHeld: bool, answer: Answer, opens: bool, saves: bool, ackArrives: bool)

  datatype Answer = Bytes | NotFound | Failure

  /** The file is wanted and not here yet. */
  predicate Wanted(copy: Copy) {
    copy.file && NeedsDownload(copy.state)
  }

  /** The attempt is made at all: its wait is over, and the key is held. */
  predicate Tried(a: Attempt) {
    a.due && a.keyHeld
  }

  /** The failure to open that uses up the budget. */
  predicate GivesUp(attempts: nat, a: Attempt) {
    a.answer.Bytes? && !a.opens && attempts + 1 >= MAX_DECRYPT_ATTEMPTS
  }

  /**
   * How an attempt ends: a wanted file that is tried for is stored by now, gone from the server, given up on at
   * the failure that uses up the budget, or still wanted; and nothing changes when it is not tried for.
   */
  ghost predicate AttemptEnds(before: Copy, tries: nat, had: bool, a: Attempt, after: Copy, tries': nat, has: bool) {
    && after.file == before.file && after.corrupted == before.corrupted
    && (!Wanted(before) || !Tried(a) ==> after.state == before.state && tries' == tries && has == had)
    && (Wanted(before) && Tried(a) ==>
          && (after.state.Downloaded? <==> a.answer.Bytes? && a.opens && a.saves)
          && (after.state.Gone? <==> a.answer.NotFound?)
          && (after.state.Corrupted? <==> GivesUp(tries, a))
          && (Wanted(after) <==> !after.state.Downloaded? && !after.state.Gone? && !after.state.Corrupted?)
          && (Wanted(after) ==> after.state.Error?)
          && has == (had || after.state.Downloaded?)
          && tries' == (if !a.answer.Bytes? then tries else if a.opens || GivesUp(tries, a) then 0 else tries + 1))
  }

  class Receiver {
    var copy: Copy
    var attempts: nat
    var stored: bool

    constructor (c: Copy)
      ensures copy == c && attempts == 0 && !stored
    {
      copy, attempts, stored := c, 0, false;
    }

    /** One more failure to open; true once enough is enough, and the count starts over. */
    method DecryptBudgetExhausted() returns (exhausted: bool)
      modifies this`attempts
      ensures exhausted == (old(attempts) + 1 >= MAX_DECRYPT_ATTEMPTS)
      ensures attempts == if exhausted then 0 else old(attempts) + 1
    {
      var n := attempts + 1;
      if n >= MAX_DECRYPT_ATTEMPTS {
        attempts := 0;
        return true;
      }
      attempts := n;
      return false;
    }

    /** Download, open, store, and only then confirm. */
    method DownloadAndAck(a: Attempt) returns (confirmed: bool)
      modifies this
      ensures AttemptEnds(old(copy), old(attempts), old(stored), a, copy, attempts, stored)
      ensures confirmed <==> !old(copy).acked && a.ackArrives && !Wanted(copy)
      ensures copy.acked == (old(copy).acked || confirmed)
    {
      confirmed := false;
      if Wanted(copy) {
        if !a.due || !a.keyHeld {
          return;
        }
        if a.answer.NotFound? {
          copy := copy.(state := Gone);
        } else if a.answer.Failure? {
          copy := copy.(state := Error);
          return;
        } else if !a.opens {
          var exhausted := DecryptBudgetExhausted();
          if !exhausted {
            copy := copy.(state := Error);
            return;
          }
          copy := copy.(state := Corrupted);
        } else {
          attempts := 0;
          if !a.saves {
            copy := copy.(state := Error);
            return;
          }
          stored := true;
          copy := copy.(state := Downloaded);
        }
      }
      if !copy.acked && a.ackArrives {
        confirmed := true;
        copy := copy.(acked := true);
      }
    }
  }
}
