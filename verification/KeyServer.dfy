/**
 * The server's side of key rotation: one group's epoch, its devices and the wrapped keys it
 * keeps for them. Each method is one database batch, so it happens at one moment.
 */
module KeyServer {
  import opened Basics
  import opened Keyring

  datatype Device = Device(revoked: bool, keyEpoch: nat)

  datatype Wrap = Wrap(device: Id, sealed: Sealed)

  /** `wraps` is the table of undelivered keys; its primary key is the pair of epoch and device. */
  datatype Group = Group(epoch: nat, pending: bool, devices: map<Id, Device>, wraps: map<(nat, Id), Sealed>)

  predicate Active(devices: map<Id, Device>, d: Id) {
    d in devices && !devices[d].revoked
  }

  function ActiveIds(devices: map<Id, Device>): set<Id> {
    set d | d in devices && !devices[d].revoked
  }

  function Devices(ws: seq<Wrap>): set<Id> {
    set i | 0 <= i < |ws| :: ws[i].device
  }

  ghost predicate OnePerDevice(ws: seq<Wrap>) {
    forall i, j :: 0 <= i < |ws| && 0 <= j < |ws| && ws[i].device == ws[j].device ==> i == j
  }

  // ---------------------------------------------------------------------
  // The rotation batch, statement by statement
  // ---------------------------------------------------------------------

  /** One guarded insert. `None` is a primary-key conflict, which undoes the whole batch. */
  function InsertWrap(g: Group, prev: nat, w: Wrap): Option<Group> {
    if g.epoch != prev || !Active(g.devices, w.device) then Some(g)
    else if (prev + 1, w.device) in g.wraps then None
    else Some(g.(wraps := g.wraps[(prev + 1, w.device) := w.sealed]))
  }

  function InsertWraps(g: Group, prev: nat, ws: seq<Wrap>): Option<Group> {
    if ws == [] then Some(g)
    else
      var before := InsertWraps(g, prev, ws[..|ws| - 1]);
      if before.None? then None else InsertWrap(before.value, prev, ws[|ws| - 1])
  }

  function AdvanceCaller(g: Group, caller: Id, prev: nat): Group {
    if Active(g.devices, caller) && g.devices[caller].keyEpoch == prev
    then g.(devices := g.devices[caller := Device(false, prev + 1)]) else g
  }

  /** Every active device but the caller has a key waiting for this epoch. */
  predicate Covered(g: Group, caller: Id, epoch: nat) {
    forall d :: d in g.devices && !g.devices[d].revoked && d != caller ==> (epoch, d) in g.wraps
  }

  predicate Swaps(g: Group, caller: Id, prev: nat) {
    && g.epoch == prev && g.pending
    && Active(g.devices, caller) && g.devices[caller].keyEpoch == prev + 1
    && Covered(g, caller, prev + 1)
  }

  function RotateBatch(g: Group, caller: Id, prev: nat, ws: seq<Wrap>): Option<(Group, bool)> {
    var inserted := InsertWraps(g, prev, ws);
    if inserted.None? then None
    else
      var g2 := AdvanceCaller(inserted.value, caller, prev);
      if Swaps(g2, caller, prev) then Some((g2.(epoch := prev + 1, pending := false), true))
      else Some((g2, false))
  }

  // ---------------------------------------------------------------------
  // What the batch does
  // ---------------------------------------------------------------------

  /** The active devices a request carries a key for. */
  function Reached(g: Group, ws: seq<Wrap>): set<Id> {
    Devices(ws) * ActiveIds(g.devices)
  }

  ghost predicate Deposits(before: map<(nat, Id), Sealed>, after: map<(nat, Id), Sealed>, epoch: nat, to: set<Id>,
                           ws: seq<Wrap>) {
    && (forall p {:trigger p in after} {:trigger p in before} :: p in after <==>
        p in before || (p.0 == epoch && p.1 in to))
    && (forall p {:trigger p in before} :: p in before ==> after[p] == before[p])
    && (forall i :: 0 <= i < |ws| && ws[i].device in to && (epoch, ws[i].device) !in before
          ==> (epoch, ws[i].device) in after && after[(epoch, ws[i].device)] == ws[i].sealed)
  }

  lemma LastDevice(ws: seq<Wrap>)
    requires ws != []
    ensures Devices(ws) == Devices(ws[..|ws| - 1]) + {ws[|ws| - 1].device}
    ensures OnePerDevice(ws) ==> OnePerDevice(ws[..|ws| - 1]) && ws[|ws| - 1].device !in Devices(ws[..|ws| - 1])
  {
    var init := ws[..|ws| - 1];
    forall d | d in Devices(ws) ensures d in Devices(init) + {ws[|ws| - 1].device} {
      var i :| 0 <= i < |ws| && ws[i].device == d;
      if i < |init| {
        assert init[i].device == d;
      }
    }
    forall d | d in Devices(init) ensures d in Devices(ws) {
      var i :| 0 <= i < |init| && init[i].device == d;
      assert ws[i].device == d;
    }
    assert ws[|ws| - 1].device in Devices(ws);
    if OnePerDevice(ws) {
      forall i | 0 <= i < |init| ensures init[i].device != ws[|ws| - 1].device {
        assert init[i] == ws[i];
      }
    }
  }

  /** The inserts all land or all fail: exactly the active devices named get a row. */
  lemma {:induction false} InsertWrapsExact(g: Group, prev: nat, ws: seq<Wrap>)
    requires OnePerDevice(ws)
    ensures g.epoch != prev ==> InsertWraps(g, prev, ws) == Some(g)
    ensures g.epoch == prev ==>
              (InsertWraps(g, prev, ws).Some? <==> forall d :: d in Reached(g, ws) ==> (prev + 1, d) !in g.wraps)
    ensures var r := InsertWraps(g, prev, ws);
            g.epoch == prev && r.Some? ==>
              && r.value == g.(wraps := r.value.wraps)
              && Deposits(g.wraps, r.value.wraps, prev + 1, Reached(g, ws), ws)
  {
    if ws != [] {
      LastDevice(ws);
      var init, w := ws[..|ws| - 1], ws[|ws| - 1];
      InsertWrapsExact(g, prev, init);
      if g.epoch == prev {
        assert Reached(g, ws) == Reached(g, init) + (if Active(g.devices, w.device) then {w.device} else {});
        var r := InsertWraps(g, prev, init);
        if r.Some? {
          assert (prev + 1, w.device) in r.value.wraps <==> (prev + 1, w.device) in g.wraps;
        }
      }
    }
  }

  /** No device has joined since the roster was read, and the caller has not been revoked. */
  predicate RosterHeld(g: Group, caller: Id, prev: nat, ws: seq<Wrap>) {
    && Active(g.devices, caller)
    && (forall d :: d in g.devices && !g.devices[d].revoked && d != caller ==>
        d in Devices(ws) || (prev + 1, d) in g.wraps)
  }

  predicate CallerInStep(g: Group, caller: Id, prev: nat) {
    Active(g.devices, caller) && (g.devices[caller].keyEpoch == prev || g.devices[caller].keyEpoch == prev + 1)
  }

  predicate Conflicts(g: Group, prev: nat, ws: seq<Wrap>) {
    g.epoch == prev && exists d :: d in Reached(g, ws) && (prev + 1, d) in g.wraps
  }

  /**
   * The compare-and-swap, exactly: one epoch forward, the debt cleared, and one new row for
   * each active device named, when the group still owes this rotation to this roster.
   */
  lemma RotationExact(g: Group, caller: Id, prev: nat, ws: seq<Wrap>)
    requires OnePerDevice(ws)
    ensures var r := RotateBatch(g, caller, prev, ws);
            && (r.None? <==> Conflicts(g, prev, ws))
            && (r.Some? ==>
                  (r.value.1 <==>
                     g.epoch == prev && g.pending && CallerInStep(g, caller, prev) && RosterHeld(g, caller, prev, ws)))
            && (r.Some? && r.value.1 ==>
                  && r.value.0.epoch == prev + 1 && !r.value.0.pending
                  && r.value.0.devices == g.devices[caller := Device(false, prev + 1)]
                  && Deposits(g.wraps, r.value.0.wraps, prev + 1, Reached(g, ws), ws))
  {
    InsertWrapsExact(g, prev, ws);
    var r := InsertWraps(g, prev, ws);
    if r.Some? && g.epoch == prev {
      var g2 := AdvanceCaller(r.value, caller, prev);
      assert ActiveIds(g2.devices) == ActiveIds(g.devices);
      assert Active(g.devices, caller) && Covered(g2, caller, prev + 1) ==> RosterHeld(g, caller, prev, ws) by {
        if Active(g.devices, caller) && Covered(g2, caller, prev + 1) {
          forall d | d in g.devices && !g.devices[d].revoked && d != caller
            ensures d in Devices(ws) || (prev + 1, d) in g.wraps
          {
            assert d in g2.devices && !g2.devices[d].revoked;
            assert (prev + 1, d) in g2.wraps;
          }
        }
      }
      assert RosterHeld(g, caller, prev, ws) ==> Covered(g2, caller, prev + 1) by {
        forall d | RosterHeld(g, caller, prev, ws) && d in g2.devices && !g2.devices[d].revoked && d != caller
          ensures (prev + 1, d) in g2.wraps
        {
          assert d in g.devices && !g.devices[d].revoked;
          assert d in ActiveIds(g.devices);
        }
      }
    }
  }

  /**
   * A refused rotation is meant to change nothing. It leaves the waiting keys alone exactly
   * when the epoch has moved on or no active device was named, and changes nothing at all
   * only when, besides, the caller's own epoch is not the old one.
   */
  lemma RefusedBatchExact(g: Group, caller: Id, prev: nat, ws: seq<Wrap>)
    requires OnePerDevice(ws)
    requires RotateBatch(g, caller, prev, ws).Some? && !RotateBatch(g, caller, prev, ws).value.1
    ensures var g' := RotateBatch(g, caller, prev, ws).value.0;
            && g'.epoch == g.epoch && g'.pending == g.pending
            && ActiveIds(g'.devices) == ActiveIds(g.devices)
            && (g'.wraps == g.wraps <==> g.epoch != prev || Reached(g, ws) == {})
            && (g.epoch == prev ==> Deposits(g.wraps, g'.wraps, prev + 1, Reached(g, ws), ws))
            && (g'.devices == g.devices <==> !(Active(g.devices, caller) && g.devices[caller].keyEpoch == prev))
            && (g'.devices == g.devices || g'.devices == g.devices[caller := Device(false, prev + 1)])
  {
    InsertWrapsExact(g, prev, ws);
    var g' := RotateBatch(g, caller, prev, ws).value.0;
    if g.epoch == prev {
      if d :| d in Reached(g, ws) {
        assert (prev + 1, d) in g'.wraps && (prev + 1, d) !in g.wraps;
      }
      if Reached(g, ws) == {} {
        assert g'.wraps == g.wraps;
      }
    }
  }

  /** A key left behind for an epoch that never came blocks every rotation that must name its device. */
  lemma StrayKeyBlocksRotation(g: Group, caller: Id, ws: seq<Wrap>, stray: Id)
    requires OnePerDevice(ws) && Devices(ws) == ActiveIds(g.devices) - {caller}
    requires stray in ActiveIds(g.devices) && stray != caller && (g.epoch + 1, stray) in g.wraps
    ensures RotateBatch(g, caller, g.epoch, ws).None?
  {
    RotationExact(g, caller, g.epoch, ws);
    assert stray in Reached(g, ws);
  }

  // ---------------------------------------------------------------------
  // The checks before the batch, and the other batches
  // ---------------------------------------------------------------------

  /** What the route checks from the caller's own row: a rotation is owed, and it would be the next one. */
  predicate Admits(g: Group, caller: Id, epoch: nat) {
    && Active(g.devices, caller) && g.pending
    && g.devices[caller].keyEpoch == g.epoch && epoch == g.epoch + 1
  }

  /** What it then checks from the roster: exactly the other active devices, each once. */
  ghost predicate NamesRoster(g: Group, caller: Id, ws: seq<Wrap>) {
    OnePerDevice(ws) && Devices(ws) == ActiveIds(g.devices) - {caller}
  }

  function Acked(g: Group, d: Id, epoch: nat): Group {
    g.(devices := if d in g.devices && g.devices[d].keyEpoch < epoch
                  then g.devices[d := g.devices[d].(keyEpoch := epoch)] else g.devices,
       wraps := map p | p in g.wraps && !(p.1 == d && p.0 <= epoch) :: g.wraps[p])
  }

  function Revoked(g: Group, d: Id): Group {
    g.(devices := if d in g.devices then g.devices[d := g.devices[d].(revoked := true)] else g.devices,
       wraps := map p | p in g.wraps && p.1 != d :: g.wraps[p],
       pending := true)
  }

  /** A device registered with the key of `epoch`, unless the group has moved on. */
  function Joined(g: Group, d: Id, epoch: nat): Group {
    if g.epoch == epoch then g.(devices := g.devices[d := Device(false, epoch)]) else g
  }

  /** Whatever happened concerned one device: its row, and keys waiting. No key is new, and none is another. */
  ghost predicate Kept(before: Group, d: Id, after: Group) {
    && after.epoch == before.epoch && after.pending == before.pending
    && after.devices.Keys == before.devices.Keys
    && (forall x :: x in before.devices && x != d ==> after.devices[x] == before.devices[x])
    && (forall p :: p in after.wraps ==> p in before.wraps && after.wraps[p] == before.wraps[p])
  }

  class GroupTable {
    var epoch: nat
    var pending: bool
    var devices: map<Id, Device>
    var wraps: map<(nat, Id), Sealed>

    ghost function Now(): Group
      reads this
    {
      Group(epoch, pending, devices, wraps)
    }

    constructor (creator: Id, first: nat)
      ensures Now() == Group(first, false, map[creator := Device(false, first)], map[])
    {
      epoch, pending := first, false;
      devices, wraps := map[creator := Device(false, first)], map[];
    }

    /** The rotation batch. A failed insert takes the earlier ones with it. */
    method Rotate(caller: Id, prev: nat, ws: seq<Wrap>) returns (accepted: bool)
      modifies this
      ensures var r := RotateBatch(old(Now()), caller, prev, ws);
              if r.None? then !accepted && Now() == old(Now()) else accepted == r.value.1 && Now() == r.value.0
    {
      var before := wraps;
      for i := 0 to |ws|
        invariant epoch == old(epoch) && pending == old(pending) && devices == old(devices)
        invariant InsertWraps(old(Now()), prev, ws[..i]) == Some(Now())
      {
        var w := ws[i];
        assert ws[..i + 1][..i] == ws[..i] && ws[..i + 1][i] == w;
        if epoch == prev && Active(devices, w.device) {
          if (prev + 1, w.device) in wraps {
            FailsAtOnce(old(Now()), prev, ws, i + 1);
            wraps := before;
            return false;
          }
          wraps := wraps[(prev + 1, w.device) := w.sealed];
        }
      }
      assert ws[..|ws|] == ws;
      if Active(devices, caller) && devices[caller].keyEpoch == prev {
        devices := devices[caller := Device(false, prev + 1)];
      }
      accepted := Swaps(Group(epoch, pending, devices, wraps), caller, prev);
      if accepted {
        epoch, pending := prev + 1, false;
      }
    }

    /** Drop the keys a device says it has stored, unless it names an epoch the group never had. */
    method AckKey(d: Id, upTo: nat) returns (ok: bool)
      modifies this
      ensures ok <==> 1 <= upTo <= old(epoch)
      ensures Now() == if ok then Acked(old(Now()), d, upTo) else old(Now())
      ensures ok ==> Kept(old(Now()), d, Now())
      ensures ok ==> d in devices ==> devices[d] == old(devices)[d].(keyEpoch := Max(old(devices)[d].keyEpoch, upTo))
      ensures ok ==> forall p :: p in wraps <==> p in old(wraps) && (p.1 == d ==> upTo < p.0)
    {
      if upTo < 1 || upTo > epoch {
        return false;
      }
      if d in devices && devices[d].keyEpoch < upTo {
        devices := devices[d := devices[d].(keyEpoch := upTo)];
      }
      wraps := map p | p in wraps && !(p.1 == d && p.0 <= upTo) :: wraps[p];
      return true;
    }

    method Revoke(d: Id)
      modifies this
      ensures Now() == Revoked(old(Now()), d)
      ensures Kept(old(Now()).(pending := true), d, Now())
      ensures d in devices ==> devices[d] == Device(true, old(devices)[d].keyEpoch)
      ensures forall p :: p in wraps <==> p in old(wraps) && p.1 != d
    {
      if d in devices {
        devices := devices[d := devices[d].(revoked := true)];
      }
      wraps := map p | p in wraps && p.1 != d :: wraps[p];
      pending := true;
    }

    method Join(d: Id, keyEpoch: nat) returns (ok: bool)
      modifies this
      ensures ok <==> old(epoch) == keyEpoch
      ensures Now() == Joined(old(Now()), d, keyEpoch)
      ensures devices == if ok then old(devices)[d := Device(false, keyEpoch)] else old(devices)
      ensures epoch == old(epoch) && pending == old(pending) && wraps == old(wraps)
    {
      ok := epoch == keyEpoch;
      if ok {
        devices := devices[d := Device(false, keyEpoch)];
      }
    }
  }

  lemma {:induction false} FailsAtOnce(g: Group, prev: nat, ws: seq<Wrap>, i: nat)
    requires i <= |ws| && InsertWraps(g, prev, ws[..i]).None?
    ensures InsertWraps(g, prev, ws).None?
    decreases |ws| - i
  {
    if i < |ws| {
      assert ws[..i + 1][..i] == ws[..i];
      FailsAtOnce(g, prev, ws, i + 1);
    } else {
      assert ws[..i] == ws;
    }
  }
}
