/**
 * Whether the object the server keeps for a message is the one its recorded epoch and IV open:
 * exactly when dropping a pin puts that at risk.
 */
module OutboxBytes {
  import opened Basics
  import opened OutboxFlush

  /**
   * A request that can still change what the server holds: a send that was not checked yet is refused for
   * good once its epoch has passed.
   */
  ghost predicate Live(r: Request, serverEpoch: nat) {
    r.Upload? || r.checked || serverEpoch <= r.epoch
  }

  ghost predicate Under(pins: Pins, epoch: nat, iv: Option<nat>) {
    pins == Pins(Some(epoch), iv)
  }

  ghost predicate RequestsBound(hasFile: bool, inflight: set<Request>, serverEpoch: nat, pins: Pins) {
    forall r :: r in inflight && Live(r, serverEpoch) ==> Under(pins, r.epoch, r.iv) && (hasFile ==> r.iv.Some?)
  }

  ghost predicate RegisteredBound(hasFile: bool, registered: Option<(nat, Option<nat>)>, pins: Pins) {
    registered.Some? ==> Under(pins, registered.value.0, registered.value.1) && (hasFile ==> registered.value.1.Some?)
  }

  /** The message is registered, or a send under the pins in force may still register it. */
  ghost predicate Pending(w: World) {
    || w.registered.Some?
    || (exists r :: r in w.inflight && r.Send? && Live(r, w.serverEpoch))
    || (w.flush.Some? && (w.flush.value.Uploaded? || w.flush.value.AwaitSend?))
  }

  /** Whatever is registered, or may yet be, and whatever may yet be written, is under the pins in force. */
  ghost predicate Bound(w: World) {
    && RequestsBound(w.hasFile, w.inflight, w.serverEpoch, w.pins)
    && RegisteredBound(w.hasFile, w.registered, w.pins)
    && (w.hasFile && Pending(w) && w.blob.Some? ==> Under(w.pins, w.blob.value.0, w.blob.value.1))
  }

  /** This step gives up pins that were in force: the server said the key rotated, or the device lost the pinned key. */
  ghost predicate Drops(w: World, step: Step)
    requires Enabled(w, step)
  {
    || (step.Settle? && w.flush.value.Answered? && w.flush.value.answer.Rotated? && w.row.Some?)
    || (step.Pin? && w.flush.value.m.epoch.Some? && w.flush.value.m.epoch.value !in step.ring)
  }

  /** Something made under the pins in force is registered, or can still be, or can still overwrite the object. */
  ghost predicate Risky(w: World) {
    w.registered.Some? || exists r :: r in w.inflight && Live(r, w.serverEpoch)
  }

  ghost predicate Careful(w: World, step: Step)
    requires Enabled(w, step)
  {
    Drops(w, step) ==> !Risky(w)
  }

  ghost predicate Mismatched(w: World) {
    w.registered.Some? && w.blob.Some? && w.blob != w.registered
  }

  // ---------------------------------------------------------------------
  // One step
  // ---------------------------------------------------------------------

  lemma PinBound(w: World, ring: set<nat>, current: nat)
    requires Inv(w) && Bound(w) && Enabled(w, Pin(ring, current)) && Careful(w, Pin(ring, current))
    ensures Bound(Do(w, Pin(ring, current)))
  {
    var m := w.flush.value.m;
    if NewPin(m, ring) {
      Unbound(w);
    }
  }

  /** Before there is a pin nothing is on its way. */
  lemma Unbound(w: World)
    requires !Risky(w) || (Bound(w) && (w.pins.epoch.None? || (w.hasFile && w.pins.iv.None?)))
    ensures w.registered.None? && forall r :: r in w.inflight ==> !Live(r, w.serverEpoch)
  {
  }

  lemma PersistBound(w: World, newIv: nat)
    requires Inv(w) && Bound(w) && Enabled(w, Persist(newIv))
    ensures Bound(Do(w, Persist(newIv)))
  {
    if w.pins.iv.None? {
      Unbound(w);
    }
  }

  lemma LandBound(w: World, step: Step)
    requires step.LandUpload? || step.LandSend? || step.CheckSend?
    requires Inv(w) && Bound(w) && Enabled(w, step)
    ensures Bound(Do(w, step))
  {
    if !step.LandUpload? {
      assert Live(step.request, w.serverEpoch) ==> Pending(w);
    }
  }

  lemma SettleBound(w: World)
    requires Inv(w) && Bound(w) && Enabled(w, Settle) && Careful(w, Settle)
    ensures Bound(Do(w, Settle))
  {
    Fewer(w, Do(w, Settle));
  }

  /** A step that starts or lands no request leaves none pending that was not. */
  lemma Fewer(w: World, w': World)
    requires w'.inflight <= w.inflight && w.serverEpoch <= w'.serverEpoch
    requires w'.registered.Some? ==> w.registered.Some?
    requires w'.flush.Some? && (w'.flush.value.Uploaded? || w'.flush.value.AwaitSend?) ==>
               w.flush.Some? && (w.flush.value.Uploaded? || w.flush.value.AwaitSend?)
    ensures Pending(w') ==> Pending(w)
  {
  }

  lemma IssueBound(w: World, step: Step)
    requires step.IssueUpload? || step.IssueSend? || step.SkipUpload?
    requires Inv(w) && Bound(w) && Enabled(w, step)
    ensures Bound(Do(w, step))
  {
  }

  lemma QuietBound(w: World, step: Step)
    requires step.Begin? || step.LoseRequest? || step.Break? || step.Crash? || step.RotateKey? || step.Purge?
        || step.Sweep?
             || step.DeleteRow? || step.RetryByUser? || step.Tick?
    requires Bound(w) && Enabled(w, step)
    ensures Bound(Do(w, step))
  {
    Fewer(w, Do(w, step));
  }

  lemma CarefulStays(w: World, step: Step)
    requires Inv(w) && Bound(w) && Enabled(w, step) && Careful(w, step)
    ensures Bound(Do(w, step))
  {
    match step
    case Pin(ring, current) => PinBound(w, ring, current);
    case Persist(newIv) => PersistBound(w, newIv);
    case LandUpload(_, _) => LandBound(w, step);
    case LandSend(_, _) => LandBound(w, step);
    case CheckSend(_, _, _) => LandBound(w, step);
    case IssueUpload => IssueBound(w, step);
    case IssueSend => IssueBound(w, step);
    case SkipUpload => IssueBound(w, step);
    case Settle => SettleBound(w);
    case _ => QuietBound(w, step);
  }

  lemma RiskyDrop(w: World, step: Step)
    requires Inv(w) && Enabled(w, step) && Drops(w, step) && Risky(w) && Bound(w)
    ensures !Bound(Do(w, step))
  {
    var w' := Do(w, step);
    if w.registered.None? {
      var r :| r in w.inflight && Live(r, w.serverEpoch);
      assert r in w'.inflight && Live(r, w'.serverEpoch);
    }
  }

  /** A step unbinds the server from the pins in force exactly when it drops a pin with something under it at large. */
  lemma BoundExact(w: World, step: Step)
    requires Inv(w) && Bound(w) && Enabled(w, step)
    ensures Bound(Do(w, step)) <==> Careful(w, step)
  {
    if Careful(w, step) {
      CarefulStays(w, step);
    } else {
      RiskyDrop(w, step);
    }
  }

  // ---------------------------------------------------------------------
  // Whole runs
  // ---------------------------------------------------------------------

  ghost predicate CarefulRun(w: World, steps: seq<Step>)
    decreases |steps|
  {
    steps == [] || (Enabled(w, steps[0]) && Careful(w, steps[0]) && CarefulRun(Do(w, steps[0]), steps[1..]))
  }

  ghost predicate LeadsTo(w: World, steps: seq<Step>, last: World) {
    CarefulRun(w, steps) && Runs(w, steps) && Run(w, steps) == last
  }

  lemma {:induction false} BoundRun(w: World, steps: seq<Step>)
    requires Inv(w) && Bound(w) && CarefulRun(w, steps)
    ensures Runs(w, steps) && Bound(Run(w, steps)) && Run(w, steps).hasFile == w.hasFile
    decreases |steps|
  {
    if steps != [] {
      StepKeeps(w, steps[0]);
      CarefulStays(w, steps[0]);
      BoundRun(Do(w, steps[0]), steps[1..]);
    }
  }

  /**
   * While pins are dropped only with nothing under them at large, the bytes the server keeps for a
   * registered message are the ones its recorded epoch and IV open.
   */
  lemma RegisteredBytesOpen(hasFile: bool, epoch: nat, now: nat, steps: seq<Step>)
    requires CarefulRun(Init(hasFile, epoch, now), steps) && hasFile
    ensures Runs(Init(hasFile, epoch, now), steps) && !Mismatched(Run(Init(hasFile, epoch, now), steps))
  {
    BoundRun(Init(hasFile, epoch, now), steps);
    assert Pending(Run(Init(hasFile, epoch, now), steps)) || Run(Init(hasFile, epoch, now), steps).registered.None?;
  }

  lemma {:induction false} OneMore(start: World, steps: seq<Step>, w: World, step: Step)
    requires LeadsTo(start, steps, w) && Enabled(w, step) && Careful(w, step)
    ensures LeadsTo(start, steps + [step], Do(w, step))
    decreases |steps|
  {
    if steps == [] {
      assert [step][1..] == [];
      assert steps + [step] == [step];
    } else {
      OneMore(Do(start, steps[0]), steps[1..], w, step);
      assert (steps + [step])[1..] == steps[1..] + [step];
    }
  }

  lemma Next(start: World, steps: seq<Step>, w: World, step: Step, w': World) returns (longer: seq<Step>)
    requires LeadsTo(start, steps, w) && Enabled(w, step) && Careful(w, step) && Do(w, step) == w'
    ensures LeadsTo(start, longer, w') && longer == steps + [step]
  {
    OneMore(start, steps, w, step);
    longer := steps + [step];
  }

  // ---------------------------------------------------------------------
  // The risk is real
  // ---------------------------------------------------------------------

  /** A run that takes care, and still ends with an object that its recorded epoch and IV do not open. */
  ghost predicate EndsMismatched(w: World, steps: seq<Step>) {
    CarefulRun(w, steps) && Runs(w, steps) && Mismatched(Run(w, steps))
  }

  /** A flush that has just uploaded the queued message of `w` anew, under epoch `n` and IV `v`. */
  ghost function Renewed(w: World, n: nat, v: nat): World
    requires w.row.Some?
  {
    var t := if w.row.value.retry.Some? then w.row.value.retry.value.notBefore else 0;
    w.(row := Some(w.row.value.(epoch := Some(n), iv := Some(v), status := Uploading)),
       flush := Some(Uploaded(w.row.value, n, Some(v))),
       blob := Some((n, Some(v))),
       pin := w.pin + 1, pins := Pins(Some(n), Some(v)),
       uploads := w.uploads + {(w.pin + 1, n, Some(v))},
       clock := w.clock + t)
  }

  /** A message whose pins have just been dropped. */
  ghost predicate Dropped(w: World) {
    w.hasFile && w.row.Some? && w.row.value.status.Queued? && w.row.value.epoch.None? && w.row.value.iv.None?
        && w.flush.None?
  }

  lemma Renew(w: World, n: nat, v: nat) returns (steps: seq<Step>)
    requires Dropped(w) && Upload(n, Some(v)) !in w.inflight
    ensures LeadsTo(w, steps, Renewed(w, n, v))
  {
    var last := Renewed(w, n, v);
    var m := w.row.value;
    var w1 := w.(clock := last.clock);
    var w2 := w1.(flush := Some(Read(m)));
    var w3 := w2.(row := Some(PinnedRow(m, n)), flush := Some(Pinned(m, n)), pin := w.pin + 1,
        pins := w.pins.(epoch := Some(n)));
    var w4 := w3.(row := last.row, flush := Some(Ready(m, n, Some(v))), pins := last.pins);
    var w5 := w4.(flush := Some(AwaitUpload(m, n, Some(v))), inflight := w.inflight + {Upload(n, Some(v))},
        uploads := last.uploads);
    steps := Next(w, [], w, Tick(last.clock - w.clock), w1);
    steps := Next(w, steps, w1, Begin, w2);
    steps := Next(w, steps, w2, Pin({n}, n), w3);
    steps := Next(w, steps, w3, Persist(v), w4);
    steps := Next(w, steps, w4, IssueUpload, w5);
    assert w.inflight + {Upload(n, Some(v))} - {Upload(n, Some(v))} == w.inflight;
    steps := Next(w, steps, w5, LandUpload(Upload(n, Some(v)), false), last);
  }

  /** A checked send lands over the new bytes. */
  lemma LateSend(start: World, before: seq<Step>, w: World, r: Request) returns (steps: seq<Step>)
    requires LeadsTo(start, before, w) && r in w.inflight && r.Send? && r.checked
    requires w.registered.None? && w.blob.Some? && w.blob.value.1 != r.iv
    ensures EndsMismatched(start, steps)
  {
    steps := Next(start, before, w, LandSend(r, false), Do(w, LandSend(r, false)));
  }

  lemma {:induction false} RaiseEpoch(start: World, before: seq<Step>, w: World, n: nat) returns (steps: seq<Step>)
    requires LeadsTo(start, before, w) && w.serverEpoch <= n
    ensures LeadsTo(start, steps, w.(serverEpoch := n))
    decreases n - w.serverEpoch
  {
    if w.serverEpoch == n {
      steps := before;
      assert w.(serverEpoch := n) == w;
    } else {
      var w1 := w.(serverEpoch := w.serverEpoch + 1);
      steps := Next(start, before, w, RotateKey, w1);
      steps := RaiseEpoch(start, steps, w1, n);
      assert w1.(serverEpoch := n) == w.(serverEpoch := n);
    }
  }

  /** A send for an epoch still to come is checked once that epoch is there, and lands over the new bytes. */
  lemma EarlySend(start: World, before: seq<Step>, w: World, r: Request) returns (steps: seq<Step>)
    requires LeadsTo(start, before, w) && r in w.inflight && r.Send? && !r.checked && w.serverEpoch <= r.epoch
    requires w.registered.None? && w.blob.Some? && w.blob.value.1 != r.iv
    ensures EndsMismatched(start, steps)
  {
    var w1 := w.(serverEpoch := r.epoch);
    steps := RaiseEpoch(start, before, w, r.epoch);
    var w2 := Do(w1, CheckSend(r, true, true));
    steps := Next(start, steps, w1, CheckSend(r, true, true), w2);
    steps := LateSend(start, steps, w2, r.(checked := true));
  }

  /** The new bytes are registered, and an old upload lands over them. */
  lemma LateUpload(start: World, before: seq<Step>, w: World, n: nat, v: nat, r: Request) returns (steps: seq<Step>)
    requires LeadsTo(start, before, w) && r in w.inflight && r.Upload? && r.iv != Some(v) && w.registered.None?
    requires n == w.serverEpoch && w.flush.Some? && w.flush.value.Uploaded? && w.flush.value.epoch == n
    requires w.flush.value.iv == Some(v)
    requires w.blob == Some((n, Some(v)))
    ensures EndsMismatched(start, steps)
  {
    var send := Send(n, Some(v), false);
    var w1 := Do(w, IssueSend);
    var w2 := Do(w1, CheckSend(send, true, true));
    var w3 := Do(w2, LandSend(send.(checked := true), true));
    steps := Next(start, before, w, IssueSend, w1);
    steps := Next(start, steps, w1, CheckSend(send, true, true), w2);
    steps := Next(start, steps, w2, LandSend(send.(checked := true), true), w3);
    steps := Next(start, steps, w3, LandUpload(r, true), Do(w3, LandUpload(r, true)));
  }

  lemma MismatchFollows(w: World) returns (steps: seq<Step>)
    requires Inv(w) && Bound(w) && w.hasFile && Enabled(w, Settle) && Drops(w, Settle) && Risky(w)
    ensures EndsMismatched(Do(w, Settle), steps)
  {
    var d := Do(w, Settle);
    var v := w.pins.iv.GetOr(0) + 1;
    var n := d.serverEpoch;
    steps := Renew(d, n, v);
    if w.registered.None? {
      var r :| r in w.inflight && Live(r, w.serverEpoch);
      if r.Upload? {
        steps := LateUpload(d, steps, Renewed(d, n, v), n, v, r);
      } else if r.checked {
        steps := LateSend(d, steps, Renewed(d, n, v), r);
      } else {
        steps := EarlySend(d, steps, Renewed(d, n, v), r);
      }
    }
  }

  /**
   * When the server says the key rotated, dropping the pin can end with an object its registered IV does
   * not open, whatever care is taken later, exactly when a checked send, an upload, or a send for an epoch
   * not yet passed is still on its way, or the message got registered after all.
   */
  lemma RotatedExact(w: World)
    requires Inv(w) && Bound(w) && w.hasFile && Enabled(w, Settle) && Drops(w, Settle)
    ensures Risky(w) <==> exists steps :: EndsMismatched(Do(w, Settle), steps)
  {
    var d := Do(w, Settle);
    if Risky(w) {
      var steps := MismatchFollows(w);
      assert EndsMismatched(d, steps);
    } else {
      StepKeeps(w, Settle);
      CarefulStays(w, Settle);
      forall steps | CarefulRun(d, steps) ensures !EndsMismatched(d, steps) {
        BoundRun(d, steps);
        assert Run(d, steps).registered.Some? ==> Pending(Run(d, steps));
      }
    }
  }

  // ---------------------------------------------------------------------
  // From a message just queued
  // ---------------------------------------------------------------------

  /** A file queued at epoch 1, sent, and the send checked by the server. */
  ghost function SentOnce(inflight: set<Request>): World {
    World(true, Some(Local(Uploading, Some(1), Some(7), None)),
          Some(AwaitSend(Local(Queued, None, None, None), 1, Some(7))),
          inflight, None, Some((1, Some(7))), 1, false, 1,
          Pins(Some(1), Some(7)), {(1, 1, Some(7))}, 0)
  }

  const FIRST_SEND := Send(1, Some(7), false)
  const CHECKED_SEND := Send(1, Some(7), true)

  lemma ReachSentOnce() returns (steps: seq<Step>)
    ensures LeadsTo(Init(true, 1, 0), steps, SentOnce({FIRST_SEND}))
  {
    var w0 := Init(true, 1, 0);
    var last := SentOnce({FIRST_SEND});
    var w1 := Renewed(w0, 1, 7);
    steps := Renew(w0, 1, 7);
    assert w0.uploads + {(1, 1, Some(7))} == last.uploads;
    steps := Next(w0, steps, w1, IssueSend, last);
  }

  /** A first copy of the send has passed the checks, the key has rotated, and the second copy has been refused. */
  ghost function ToldRotated(): World {
    SentOnce({CHECKED_SEND}).(
      serverEpoch := 2,
      flush := Some(Answered(Local(Queued, None, None, None), 1, Some(7), Rotated)))
  }

  lemma ReachToldRotated() returns (steps: seq<Step>)
    ensures LeadsTo(Init(true, 1, 0), steps, ToldRotated())
  {
    var w0 := Init(true, 1, 0);
    var w1 := SentOnce({FIRST_SEND, CHECKED_SEND});
    var w2 := w1.(serverEpoch := 2);
    steps := ReachSentOnce();
    steps := Next(w0, steps, SentOnce({FIRST_SEND}), CheckSend(FIRST_SEND, true, true), w1);
    steps := Next(w0, steps, w1, RotateKey, w2);
    assert w2.inflight - {FIRST_SEND} == {CHECKED_SEND};
    steps := Next(w0, steps, w2, CheckSend(FIRST_SEND, true, false), ToldRotated());
  }

  /**
   * Two copies of one send: the first has passed the server's checks, the key rotates, the second is told
   * so. The pin is dropped, the file uploaded anew, and the first copy lands.
   */
  lemma StaleCopyMismatches() returns (steps: seq<Step>, w: World, more: seq<Step>)
    ensures LeadsTo(Init(true, 1, 0), steps, w) && Inv(w) && Bound(w)
    ensures Enabled(w, Settle) && Drops(w, Settle) && w.inflight == {CHECKED_SEND}
    ensures EndsMismatched(Do(w, Settle), more)
  {
    w := ToldRotated();
    steps := ReachToldRotated();
    RunKeeps(Init(true, 1, 0), steps);
    BoundRun(Init(true, 1, 0), steps);
    assert CHECKED_SEND in w.inflight;
    more := MismatchFollows(w);
  }

  /** The file is uploaded again under epoch 3 and the IV it had. */
  ghost function Repinned(w: World): World {
    w.(row := Some(Local(Uploading, Some(3), Some(7), None)),
       flush := Some(Uploaded(Local(Uploading, Some(1), Some(7), None), 3, Some(7))),
       blob := Some((3, Some(7))), pin := 2, pins := Pins(Some(3), Some(7)),
           uploads := {(1, 1, Some(7)), (2, 3, Some(7))})
  }

  lemma Repin(w: World) returns (steps: seq<Step>)
    requires w == SentOnce({CHECKED_SEND}).(flush := Some(Read(Local(Uploading, Some(1), Some(7), None))))
    ensures LeadsTo(Do(w, Pin({3}, 3)), steps, Repinned(w))
  {
    var m := Local(Uploading, Some(1), Some(7), None);
    var w1 := Do(w, Pin({3}, 3));
    var w2 := Do(w1, Persist(9));
    var w3 := Do(w2, IssueUpload);
    steps := Next(w1, [], w1, Persist(9), w2);
    steps := Next(w1, steps, w2, IssueUpload, w3);
    assert w3.inflight - {Upload(3, Some(7))} == {CHECKED_SEND};
    steps := Next(w1, steps, w3, LandUpload(Upload(3, Some(7)), false), Repinned(w));
  }

  /** A device loses the key it pinned while the send is on its way; it uploads the file anew, and the send lands. */
  lemma LostKeyMismatches() returns (steps: seq<Step>, w: World, more: seq<Step>)
    ensures LeadsTo(Init(true, 1, 0), steps, w) && Enabled(w, Pin({3}, 3)) && Drops(w, Pin({3}, 3))
    ensures EndsMismatched(Do(w, Pin({3}, 3)), more)
  {
    var w0 := Init(true, 1, 0);
    var w1 := SentOnce({CHECKED_SEND});
    var w2 := w1.(flush := None);
    w := w1.(flush := Some(Read(Local(Uploading, Some(1), Some(7), None))));
    steps := ReachSentOnce();
    steps := Next(w0, steps, SentOnce({FIRST_SEND}), CheckSend(FIRST_SEND, true, false), w1);
    steps := Next(w0, steps, w1, Crash, w2);
    steps := Next(w0, steps, w2, Begin, w);
    more := Repin(w);
    var w3 := Repinned(w);
    more := Next(Do(w, Pin({3}, 3)), more, w3, LandSend(CHECKED_SEND, false), Do(w3, LandSend(CHECKED_SEND, false)));
  }
}
