/**
 * What one undisturbed attempt looks like step by step: the runs behind the rows a pass leaves, and what the
 * server holds when they end.
 */
module OutboxAttempts {
  import opened Basics
  import opened OutboxFlush

  ghost predicate LeadsTo(w: World, steps: seq<Step>, last: World) {
    Runs(w, steps) && Run(w, steps) == last
  }

  lemma {:induction false} Next(start: World, steps: seq<Step>, w: World, step: Step)
    requires LeadsTo(start, steps, w) && Enabled(w, step)
    ensures LeadsTo(start, steps + [step], Do(w, step))
    decreases |steps|
  {
    if steps == [] {
      assert [step][1..] == [] && steps + [step] == [step];
    } else {
      Next(Do(start, steps[0]), steps[1..], w, step);
      assert (steps + [step])[1..] == steps[1..] + [step];
    }
  }

  /** Nothing is at work on the message or on its way, and it is due. */
  ghost predicate Waiting(w: World) {
    w.flush.None? && w.inflight == {} && w.row.Some? && IsDue(w.row.value, w.clock)
  }

  /** The attempt has come this far, and the server has seen no more of it than `blob`. */
  ghost predicate At(start: World, w: World, flush: Flush, row: Local, blob: Option<(nat, Option<nat>)>) {
    && w.flush == Some(flush) && w.row == Some(row) && w.blob == blob && w.inflight == {}
    && Unmoved(start, w)
  }

  ghost predicate Unmoved(start: World, w: World) {
    && w.registered == start.registered && w.accepted == start.accepted && w.serverEpoch == start.serverEpoch
    && w.hasFile == start.hasFile && w.clock == start.clock
  }

  /** The epoch the attempt is made under: the one pinned while its key is held, and else the current one. */
  function EpochOf(m: Local, ring: set<nat>, current: nat): nat {
    if m.epoch.Some? && m.epoch.value in ring then m.epoch.value else current
  }

  lemma PinnedRuns(w: World, ring: set<nat>, current: nat) returns (steps: seq<Step>, last: World)
    requires Waiting(w) && current in ring
    ensures LeadsTo(w, steps, last)
    ensures var m := w.row.value;
            var epoch := EpochOf(m, ring, current);
            At(w, last, Pinned(m, epoch), m.(epoch := Some(epoch)), w.blob)
  {
    assert LeadsTo(w, [], w);
    Next(w, [], w, Begin);
    var w1 := Do(w, Begin);
    Next(w, [] + [Begin], w1, Step.Pin(ring, current));
    steps, last := [] + [Begin] + [Step.Pin(ring, current)], Do(w1, Step.Pin(ring, current));
  }

  /** With a file: its pins are stored, and its bytes are sent up under them. */
  lemma IssuedRuns(start: World, before: seq<Step>, w: World, newIv: nat) returns (steps: seq<Step>, last: World)
    requires LeadsTo(start, before, w) && w.flush.Some? && w.flush.value.Pinned? && w.row.Some? && w.hasFile
    requires At(start, w, w.flush.value, w.row.value, w.blob)
    ensures LeadsTo(start, steps, last)
    ensures var (m, epoch) := (w.flush.value.m, w.flush.value.epoch);
            var iv := if m.iv.Some? then m.iv else Some(newIv);
            && At(start, last.(inflight := {}), AwaitUpload(m, epoch, iv),
                  m.(epoch := Some(epoch), iv := iv, status := Uploading), w.blob)
            && last.inflight == {Upload(epoch, iv)}
  {
    Next(start, before, w, Persist(newIv));
    var w1 := Do(w, Persist(newIv));
    Next(start, before + [Persist(newIv)], w1, IssueUpload);
    steps, last := before + [Persist(newIv)] + [IssueUpload], Do(w1, IssueUpload);
  }

  lemma UploadedRuns(start: World, before: seq<Step>, w: World, newIv: nat) returns (steps: seq<Step>, last: World)
    requires LeadsTo(start, before, w) && w.flush.Some? && w.flush.value.Pinned? && w.row.Some?
    requires At(start, w, w.flush.value, w.row.value, w.blob)
    ensures LeadsTo(start, steps, last)
    ensures var (m, epoch) := (w.flush.value.m, w.flush.value.epoch);
            var iv := if m.iv.Some? then m.iv else Some(newIv);
            if w.hasFile
            then At(start, last, Uploaded(m, epoch, iv), m.(epoch := Some(epoch), iv := iv, status := Uploading),
                    Some((epoch, iv)))
            else At(start, last, Uploaded(m, epoch, m.iv), w.row.value, w.blob)
  {
    if w.hasFile {
      var issued, w1 := IssuedRuns(start, before, w, newIv);
      var land := LandUpload(Upload(w1.flush.value.epoch, w1.flush.value.iv), false);
      Next(start, issued, w1, land);
      steps, last := issued + [land], Do(w1, land);
    } else {
      Next(start, before, w, SkipUpload);
      steps, last := before + [SkipUpload], Do(w, SkipUpload);
    }
  }

  /** What the server answers to a message sent under this epoch. */
  function AnswerTo(w: World, epoch: nat, recipients: bool): Answer {
    if w.registered.Some? then Conflict
    else if epoch != w.serverEpoch then Rotated
    else if recipients && w.hasFile && w.blob.None? then Refused
    else Ok
  }

  /** What the server holds after it. */
  ghost predicate Holds(w: World, last: World, epoch: nat, iv: Option<nat>, recipients: bool) {
    && last.inflight == {}
    && if AnswerTo(w, epoch, recipients) != Ok
       then last.registered == w.registered && last.blob == w.blob && last.accepted == w.accepted
       else
         && last.accepted
         && (recipients ==> last.registered == Some((epoch, iv)) && last.blob == w.blob)
         && (!recipients ==> last.registered.None? && last.blob.None?)
  }

  lemma AnsweredRuns(start: World, before: seq<Step>, w: World, recipients: bool)
    returns (steps: seq<Step>, last: World)
    requires LeadsTo(start, before, w) && w.flush.Some? && w.flush.value.Uploaded? && w.inflight == {}
    ensures LeadsTo(start, steps, last)
    ensures var (m, epoch, iv) := (w.flush.value.m, w.flush.value.epoch, w.flush.value.iv);
            && last.flush == Some(Answered(m, epoch, iv, AnswerTo(w, epoch, recipients)))
            && Holds(w, last, epoch, iv, recipients)
            && last.row == w.row && last.clock == w.clock && last.hasFile == w.hasFile
            && last.serverEpoch == w.serverEpoch
  {
    var send := Send(w.flush.value.epoch, w.flush.value.iv, false);
    Next(start, before, w, IssueSend);
    var w1 := Do(w, IssueSend);
    var check := CheckSend(send, recipients, false);
    Next(start, before + [IssueSend], w1, check);
    steps, last := before + [IssueSend] + [check], Do(w1, check);
    assert w1.inflight - {send} == {};
    if w.registered.None? && send.epoch == w.serverEpoch && recipients && !(w.hasFile && w.blob.None?) {
      var land := LandSend(send.(checked := true), false);
      Next(start, steps, last, land);
      assert last.inflight == {send.(checked := true)};
      steps, last := steps + [land], Do(last, land);
    }
  }

  // ---------------------------------------------------------------------
  // Whole attempts
  // ---------------------------------------------------------------------

  /** The pass treats this message, now, with the keys and the clock of the world. */
  ghost predicate Concerns(w: World, id: Id, pass: Pass) {
    && id in pass.newIvs && id in pass.outcomes && pass.current in pass.ring && pass.now == w.clock
    && (id in pass.files <==> w.hasFile)
  }

  /** Up to the message being ready to go: pinned, and with its file in the bucket. */
  lemma ReadyRuns(w: World, id: Id, pass: Pass) returns (steps: seq<Step>, last: World)
    requires Waiting(w) && Concerns(w, id, pass)
    ensures LeadsTo(w, steps, last)
    ensures var m := w.row.value;
            var epoch := EpochOf(m, pass.ring, pass.current);
            var iv := if m.iv.None? && w.hasFile then Some(pass.newIvs[id]) else m.iv;
            var row := m.(epoch := Some(epoch), iv := iv, status := if w.hasFile then Uploading else m.status);
            At(w, last, Uploaded(m, epoch, iv), row, if w.hasFile then Some((epoch, iv)) else w.blob)
  {
    var pinned, w1 := PinnedRuns(w, pass.ring, pass.current);
    steps, last := UploadedRuns(w, pinned, w1, pass.newIvs[id]);
  }

  /**
   * An attempt the server answers: the row it leaves, and what the server holds then. The file is the one the row's
   * pins open.
   */
  lemma HeardRuns(w: World, id: Id, pass: Pass, recipients: bool) returns (steps: seq<Step>, last: World)
    requires Waiting(w) && Concerns(w, id, pass)
    requires var epoch := EpochOf(w.row.value, pass.ring, pass.current);
             pass.outcomes[id] == Heard(if w.registered.Some? then Conflict
                                        else if epoch != w.serverEpoch then Rotated else Ok)
    ensures LeadsTo(w, steps, last) && last.flush.None? && last.inflight == {}
    ensures last.row == Some(FlushedRow(w.row.value, id, pass))
    ensures pass.outcomes[id] == Heard(Ok) ==>
              && last.accepted && last.row.value.epoch.Some?
              && (recipients ==> last.registered == Some((last.row.value.epoch.value, last.row.value.iv)))
              && (recipients && w.hasFile ==> last.blob == last.registered)
              && (!recipients ==> last.registered.None? && last.blob.None?)
    ensures pass.outcomes[id] != Heard(Ok) ==> last.registered == w.registered && last.accepted == w.accepted
  {
    var ready, w1 := ReadyRuns(w, id, pass);
    var answered, w2 := AnsweredRuns(w, ready, w1, recipients);
    Next(w, answered, w2, Settle);
    steps, last := answered + [Settle], Do(w2, Settle);
  }

  /** An attempt broken off with its last request lost: the server has at most the file. */
  lemma BrokenRuns(w: World, id: Id, pass: Pass) returns (steps: seq<Step>, last: World)
    requires Waiting(w) && Concerns(w, id, pass) && pass.outcomes[id].Failing?
    ensures LeadsTo(w, steps, last) && last.flush.None? && last.inflight == {}
    ensures last.row == Some(FlushedRow(w.row.value, id, pass))
    ensures last.registered == w.registered && last.accepted == w.accepted
  {
    var ready, w1 := ReadyRuns(w, id, pass);
    Next(w, ready, w1, IssueSend);
    var w2 := Do(w1, IssueSend);
    var send := Send(w1.flush.value.epoch, w1.flush.value.iv, false);
    Next(w, ready + [IssueSend], w2, LoseRequest(send));
    var w3 := Do(w2, LoseRequest(send));
    var broken := Break(pass.outcomes[id].failure);
    Next(w, ready + [IssueSend] + [LoseRequest(send)], w3, broken);
    var w4 := Do(w3, broken);
    Next(w, ready + [IssueSend] + [LoseRequest(send)] + [broken], w4, Settle);
    steps, last := ready + [IssueSend] + [LoseRequest(send)] + [broken] + [Settle], Do(w4, Settle);
  }

  /** A file swept from the bucket before its message is sent: refused, and failed until the user tries again. */
  lemma RefusedRuns(w: World, id: Id, pass: Pass) returns (steps: seq<Step>, last: World, again: World)
    requires Waiting(w) && Concerns(w, id, pass) && pass.outcomes[id] == Heard(Refused)
    requires w.hasFile && w.registered.None? && EpochOf(w.row.value, pass.ring, pass.current) == w.serverEpoch
    ensures LeadsTo(w, steps, last) && last.flush.None? && last.inflight == {}
    ensures last.row == Some(FlushedRow(w.row.value, id, pass)) && last.row.value.status == Failed
    ensures last.registered.None? && last.blob.None?
    ensures LeadsTo(w, steps + [RetryByUser], again)
    ensures again.row == Some(last.row.value.(status := Queued, retry := None)) && Waiting(again)
  {
    var ready, w1 := ReadyRuns(w, id, pass);
    Next(w, ready, w1, Sweep);
    var answered, w2 := AnsweredRuns(w, ready + [Sweep], Do(w1, Sweep), true);
    Next(w, answered, w2, Settle);
    steps, last := answered + [Settle], Do(w2, Settle);
    Next(w, steps, last, RetryByUser);
    again := Do(last, RetryByUser);
  }

  /**
   * The code of one attempt, for a message nothing else is at work on, leaves the row a run of steps leaves:
   * whatever every run guarantees, it guarantees of `SendQueued`.
   */
  method Attempted(ghost w: World, outbox: Outbox, id: Id, pass: Pass) returns (ghost steps: seq<Step>)
    requires id in outbox.rows && w.row == Some(outbox.rows[id]) && Waiting(w) && Concerns(w, id, pass)
    requires match pass.outcomes[id]
             case Failing(_) => true
             case Heard(Conflict) => w.registered.Some?
             case Heard(answer) =>
               && w.registered.None?
               && (answer == Rotated <==> EpochOf(w.row.value, pass.ring, pass.current) != w.serverEpoch)
               && (answer == Refused ==> w.hasFile)
    modifies outbox
    ensures Runs(w, steps) && id in outbox.rows && Run(w, steps).row == Some(outbox.rows[id])
    ensures outbox.rows == old(outbox.rows)[id := outbox.rows[id]]
    ensures outbox.rows[id].status == Sent && pass.outcomes[id] == Heard(Ok) && w.hasFile ==>
              && Run(w, steps).blob == Run(w, steps).registered
              && Run(w, steps).registered.Some? && outbox.rows[id].epoch == Some(Run(w, steps).registered.value.0)
              && outbox.rows[id].iv == Run(w, steps).registered.value.1
  {
    outbox.SendQueued(id, pass);
    ghost var last, again;
    if pass.outcomes[id].Failing? {
      steps, last := BrokenRuns(w, id, pass);
    } else if pass.outcomes[id] == Heard(Refused) {
      steps, last, again := RefusedRuns(w, id, pass);
    } else {
      steps, last := HeardRuns(w, id, pass, true);
    }
  }

  /** A message the user deletes during its send is sent all the same, leaves no row, and is the server's to drop. */
  lemma DeletedRuns(w: World, id: Id, pass: Pass) returns (steps: seq<Step>, last: World, purged: World)
    requires Waiting(w) && Concerns(w, id, pass) && w.registered.None?
    requires EpochOf(w.row.value, pass.ring, pass.current) == w.serverEpoch
    ensures LeadsTo(w, steps, last) && last.flush.None? && last.inflight == {}
    ensures last.row.None? && last.registered.Some? && last.accepted && (w.hasFile ==> last.blob == last.registered)
    ensures LeadsTo(w, steps + [Purge], purged)
    ensures purged.row.None? && purged.registered.None? && purged.blob.None? && purged.accepted
  {
    var ready, w1 := ReadyRuns(w, id, pass);
    Next(w, ready, w1, DeleteRow);
    var answered, w2 := AnsweredRuns(w, ready + [DeleteRow], Do(w1, DeleteRow), true);
    Next(w, answered, w2, Settle);
    steps, last := answered + [Settle], Do(w2, Settle);
    Next(w, steps, last, Purge);
    purged := Do(last, Purge);
  }

  // ---------------------------------------------------------------------
  // What no step does
  // ---------------------------------------------------------------------

  /** This step replaces the pins in force, or gives them up. */
  ghost predicate Repins(w: World, step: Step)
    requires Enabled(w, step)
  {
    || (step.Pin? && !(w.flush.value.m.epoch.Some? && w.flush.value.m.epoch.value in step.ring))
    || (step.Settle? && w.row.Some? && w.flush.value.Answered? && w.flush.value.answer == Rotated)
  }

  /** The server takes the message in this step: it is registered, or there is nobody to register it for. */
  ghost predicate Takes(w: World, step: Step)
    requires Enabled(w, step)
  {
    && w.registered.None?
    && (step.LandSend? || (step.CheckSend? && step.request.epoch == w.serverEpoch && !step.recipients))
  }

  /** What a run remembers is what happened: pins are numbered as they change, uploads as they start. */
  lemma LedgerExact(w: World, step: Step)
    requires Enabled(w, step)
    ensures Do(w, step).pin == w.pin + if Repins(w, step) then 1 else 0
    ensures Do(w, step).uploads == w.uploads + if step.IssueUpload?
                                               then {(w.pin, w.flush.value.epoch, w.flush.value.iv)} else {}
    ensures Do(w, step).accepted <==> w.accepted || Takes(w, step)
  {
  }

  /** A row the user deleted never comes back, and what the server registered stands until it is purged. */
  lemma NothingComesBack(w: World, step: Step)
    requires Enabled(w, step)
    ensures w.row.None? ==> Do(w, step).row.None?
    ensures w.registered.Some? && !step.Purge? ==> Do(w, step).registered == w.registered
    ensures w.registered.Some? && step.LandSend? && w.flush.Some? && w.flush.value.AwaitSend?
            && w.flush.value.epoch == step.request.epoch && w.flush.value.iv == step.request.iv ==>
              Do(w, step).flush == Some(Answered(w.flush.value.m, step.request.epoch, step.request.iv, Conflict))
  {
  }
}
