/** One message's delivery over whole runs: what it takes before the server lets go of its file. */
module DeliveryRuns {
  import opened Basics
  import opened Delivery

  /** What a device did with a message before confirming it. */
  datatype Reason = NoFile | Stored | GaveUp | FileGone | Destroyed

  /** What a device is in the middle of. */
  datatype Task = Idle | Fetching | Opening | Saving

  /**
   * One recipient. `attempts` is its in-memory count of failures to open, `failures` all there ever were
   * and `saved` whether the file was ever stored; `metaFailures` counts the message's own description.
   */
  datatype Recipient = Recipient(
    copy: Option<Copy>, task: Task, attempts: nat, failures: nat, saved: bool, metaAttempts: nat, metaFailures: nat)

  /**
   * `pending` holds a delivery row per recipient still known to the server, true once confirmed. `blob` is the
   * file's object. `cut` remembers a removal that was not a completed delivery: expiry, or deletion for everyone.
   */
  datatype World = World(
    hasFile: bool,
    present: bool,
    blob: bool,
    pending: map<Id, bool>,
    recv: map<Id, Recipient>,
    reached: map<Id, Reason>,
    revoked: set<Id>,
    cut: bool)

  datatype Step =
    | Register(d: Id, opens: bool)       // the message is read off a poll, its description opened
    | Fetch(d: Id)
    | Fetched(d: Id, fails: bool)        // the object, the news that it is gone, or neither
    | Open(d: Id, opens: bool)
    | Save(d: Id, saves: bool)
    | Confirm(d: Id, heard: bool)
    | Discard(d: Id)                     // the user destroys the message here; its copy on the server is only confirmed
    | Reload(d: Id)
    | Revoke(d: Id)
    | Purge                              // no confirmation is awaited any more
    | Cut                                // expiry, or deletion for everyone

  predicate Waiting(pending: map<Id, bool>) {
    exists d :: d in pending && !pending[d]
  }

  ghost predicate Enabled(w: World, step: Step) {
    match step
    case Register(d, _) => d in w.recv && w.recv[d].copy.None? && w.present && d in w.pending && !w.pending[d]
    case Fetch(d) => d in w.recv && w.recv[d].task.Idle? && w.recv[d].copy.Some? && w.recv[d].copy.value.file
        && NeedsDownload(w.recv[d].copy.value.state)
    case Fetched(d, _) => d in w.recv && w.recv[d].task.Fetching? && w.recv[d].copy.Some?
    case Open(d, _) => d in w.recv && w.recv[d].task.Opening? && w.recv[d].copy.Some?
    case Save(d, _) => d in w.recv && w.recv[d].task.Saving? && w.recv[d].copy.Some?
    case Confirm(d, _) => d in w.recv && w.recv[d].task.Idle? && w.recv[d].copy.Some? && !w.recv[d].copy.value.acked
        && Settled(w.recv[d].copy.value)
    case Discard(d) => d in w.recv && d !in w.revoked
    case Reload(d) => d in w.recv
    case Revoke(d) => d in w.recv
    case Purge => w.present && !Waiting(w.pending)
    case Cut => w.present
  }

  function Put(w: World, d: Id, r: Recipient): World {
    w.(recv := w.recv[d := r])
  }

  function WithState(r: Recipient, state: FileState, task: Task): Recipient
    requires r.copy.Some?
  {
    r.(copy := Some(r.copy.value.(state := state)), task := task)
  }

  function ReasonOf(hasFile: bool, copy: Copy): Reason {
    if !hasFile then NoFile
    else if !copy.file then GaveUp
    else if copy.state.Downloaded? then Stored
    else if copy.state.Corrupted? then GaveUp
    else FileGone
  }

  /** A confirmation that reaches the server; the first reason stands. */
  function Confirms(w: World, d: Id, reason: Reason): World {
    w.(pending := if w.present && d in w.pending then w.pending[d := true] else w.pending,
       reached := if d in w.reached then w.reached else w.reached[d := reason])
  }

  function Opened(r: Recipient, opens: bool): Recipient
    requires r.copy.Some?
  {
    if opens then r.(task := Saving, attempts := 0)
    else if r.attempts + 1 >= MAX_DECRYPT_ATTEMPTS then WithState(r, Corrupted, Idle).(attempts := 0,
        failures := r.failures + 1)
    else WithState(r, Error, Idle).(attempts := r.attempts + 1, failures := r.failures + 1)
  }

  function Registered(r: Recipient, hasFile: bool, opens: bool): Recipient {
    if opens then r.(copy := Some(Copy(hasFile, Remote, false, false)), metaAttempts := 0)
    else if r.metaAttempts + 1 >= MAX_DECRYPT_ATTEMPTS
    then r.(copy := Some(Copy(false, Remote, false, true)), metaAttempts := 0, metaFailures := r.metaFailures + 1)
    else r.(metaAttempts := r.metaAttempts + 1, metaFailures := r.metaFailures + 1)
  }

  ghost function Do(w: World, step: Step): World
    requires Enabled(w, step)
  {
    match step
    case Register(d, opens) => Put(w, d, Registered(w.recv[d], w.hasFile, opens))
    case Fetch(d) => Put(w, d, WithState(w.recv[d], Downloading, Fetching))
    case Fetched(d, fails) =>
      Put(w, d, if fails then WithState(w.recv[d], Error, Idle)
                else if !w.blob then WithState(w.recv[d], Gone, Idle)
                else w.recv[d].(task := Opening))
    case Open(d, opens) => Put(w, d, Opened(w.recv[d], opens))
    case Save(d, saves) =>
      Put(w, d, if saves then WithState(w.recv[d], Downloaded, Idle).(saved := true)
          else WithState(w.recv[d], Error, Idle))
    case Confirm(d, heard) =>
      var c := w.recv[d].copy.value;
      Confirms(if heard then Put(w, d, w.recv[d].(copy := Some(c.(acked := true)))) else w, d, ReasonOf(w.hasFile, c))
    case Discard(d) => Confirms(Put(w, d, w.recv[d].(copy := None, task := Idle)), d, Destroyed)
    case Reload(d) => Put(w, d, w.recv[d].(task := Idle, attempts := 0, metaAttempts := 0))
    case Revoke(d) => w.(revoked := w.revoked + {d},
        pending := w.pending - (if d in w.pending && !w.pending[d] then {d} else {}))
    case Purge => w.(present := false, blob := false, pending := map[])
    case Cut => w.(present := false, blob := false, pending := map[], cut := true)
  }

  ghost function Init(hasFile: bool, recipients: set<Id>): World {
    World(hasFile, true, hasFile, map d | d in recipients :: false,
          map d | d in recipients :: Recipient(None, Idle, 0, 0, false, 0, 0), map[], {}, false)
  }

  // ---------------------------------------------------------------------
  // The invariant
  // ---------------------------------------------------------------------

  /** What a recipient's state says about what it has been through. */
  ghost predicate Honest(hasFile: bool, blob: bool, r: Recipient) {
    && r.attempts <= r.failures && r.metaAttempts <= r.metaFailures
    && (r.copy.Some? ==>
          && (r.copy.value.file ==> hasFile)
          && (hasFile && !r.copy.value.file ==> r.metaFailures >= MAX_DECRYPT_ATTEMPTS)
          && (r.copy.value.state.Downloaded? ==> r.saved)
          && (r.copy.value.state.Corrupted? ==> r.failures >= MAX_DECRYPT_ATTEMPTS)
          && (r.copy.value.state.Gone? ==> !blob))
  }

  /** A reason the device could give. */
  ghost predicate Earned(hasFile: bool, blob: bool, r: Recipient, reason: Reason) {
    match reason
    case NoFile => !hasFile
    case Stored => r.saved
    case GaveUp => r.failures >= MAX_DECRYPT_ATTEMPTS || r.metaFailures >= MAX_DECRYPT_ATTEMPTS
    case FileGone => hasFile && !blob
    case Destroyed => true
  }

  ghost predicate RowsOk(w: World) {
    && (w.present ==> forall d :: d in w.recv && d !in w.revoked ==> d in w.pending)
    && (forall d :: d in w.pending ==> d in w.recv)
    && (forall d :: d in w.pending && w.pending[d] ==> d in w.reached)
    && (w.present ==> w.blob == w.hasFile)
    && (w.cut ==> !w.present)
    && (!w.present && !w.cut ==> forall d :: d in w.recv ==> d in w.revoked || d in w.reached)
  }

  ghost predicate Inv(w: World) {
    && RowsOk(w)
    && (forall d :: d in w.recv ==> Honest(w.hasFile, w.blob, w.recv[d]))
    && (forall d :: d in w.reached ==> d in w.recv && Earned(w.hasFile, w.blob, w.recv[d], w.reached[d]))
  }

  predicate Local(step: Step) {
    step.Register? || step.Fetch? || step.Fetched? || step.Open? || step.Save? || step.Reload?
  }

  /** A recipient's state may change as long as it stays honest and every reason it could give still holds. */
  ghost predicate Onward(hasFile: bool, blob: bool, r: Recipient, r': Recipient) {
    && (Honest(hasFile, blob, r) ==> Honest(hasFile, blob, r'))
    && (r.saved ==> r'.saved) && r.failures <= r'.failures && r.metaFailures <= r'.metaFailures
  }

  lemma PutKeeps(w: World, d: Id, r: Recipient)
    requires Inv(w) && d in w.recv && Onward(w.hasFile, w.blob, w.recv[d], r)
    ensures Inv(Put(w, d, r))
  {
    assert Honest(w.hasFile, w.blob, w.recv[d]);
    assert d in w.reached ==> Earned(w.hasFile, w.blob, w.recv[d], w.reached[d]);
  }

  lemma OpenedOnward(hasFile: bool, blob: bool, r: Recipient, opens: bool)
    requires r.copy.Some?
    ensures Onward(hasFile, blob, r, Opened(r, opens))
  {
  }

  lemma StateOnward(hasFile: bool, blob: bool, r: Recipient, state: FileState, task: Task)
    requires r.copy.Some? && (NeedsDownload(state) || (state.Gone? && !blob))
    ensures Onward(hasFile, blob, r, WithState(r, state, task))
  {
  }

  lemma LocalKeeps(w: World, step: Step)
    requires Local(step) && Inv(w) && Enabled(w, step)
    ensures Inv(Do(w, step))
  {
    var r := w.recv[step.d];
    match step
    case Register(d, opens) =>
      PutKeeps(w, d, Registered(r, w.hasFile, opens));
    case Fetch(d) =>
      StateOnward(w.hasFile, w.blob, r, Downloading, Fetching);
      PutKeeps(w, d, WithState(r, Downloading, Fetching));
    case Fetched(d, fails) =>
      StateOnward(w.hasFile, w.blob, r, Error, Idle);
      if !w.blob {
        StateOnward(w.hasFile, w.blob, r, Gone, Idle);
      }
      PutKeeps(w, d, Do(w, step).recv[d]);
    case Open(d, opens) =>
      OpenedOnward(w.hasFile, w.blob, r, opens);
      PutKeeps(w, d, Opened(r, opens));
    case Save(d, saves) =>
      StateOnward(w.hasFile, w.blob, r, Error, Idle);
      PutKeeps(w, d, Do(w, step).recv[d]);
    case Reload(d) => PutKeeps(w, d, r.(task := Idle, attempts := 0, metaAttempts := 0));
  }

  lemma ConfirmsKeeps(w: World, d: Id, reason: Reason)
    requires Inv(w) && d in w.recv && Earned(w.hasFile, w.blob, w.recv[d], reason)
    ensures Inv(Confirms(w, d, reason))
  {
  }

  lemma ConfirmKeeps(w: World, d: Id, heard: bool)
    requires Inv(w) && Enabled(w, Confirm(d, heard))
    ensures Inv(Do(w, Confirm(d, heard)))
  {
    var r := w.recv[d];
    var heardCopy := r.(copy := Some(r.copy.value.(acked := true)));
    assert Honest(w.hasFile, w.blob, r);
    PutKeeps(w, d, heardCopy);
    ConfirmsKeeps(if heard then Put(w, d, heardCopy) else w, d, ReasonOf(w.hasFile, r.copy.value));
  }

  lemma DiscardKeeps(w: World, d: Id)
    requires Inv(w) && Enabled(w, Discard(d))
    ensures Inv(Do(w, Discard(d)))
  {
    PutKeeps(w, d, w.recv[d].(copy := None, task := Idle));
    ConfirmsKeeps(Put(w, d, w.recv[d].(copy := None, task := Idle)), d, Destroyed);
  }

  lemma ServerKeeps(w: World, step: Step)
    requires (step.Revoke? || step.Purge? || step.Cut?) && Inv(w) && Enabled(w, step)
    ensures Inv(Do(w, step))
  {
    if step == Purge {
      forall d | d in w.recv ensures d in w.revoked || d in w.reached {
        assert d in w.pending ==> w.pending[d];
      }
    }
  }

  lemma StepKeeps(w: World, step: Step)
    requires Inv(w) && Enabled(w, step)
    ensures Inv(Do(w, step))
  {
    if Local(step) {
      LocalKeeps(w, step);
    } else if step.Confirm? {
      ConfirmKeeps(w, step.d, step.heard);
    } else if step.Discard? {
      DiscardKeeps(w, step.d);
    } else {
      ServerKeeps(w, step);
    }
  }

  ghost predicate CanRun(w: World, steps: seq<Step>)
    decreases |steps|
  {
    steps == [] || (Enabled(w, steps[0]) && CanRun(Do(w, steps[0]), steps[1..]))
  }

  ghost function Run(w: World, steps: seq<Step>): World
    requires CanRun(w, steps)
    decreases |steps|
  {
    if steps == [] then w else Run(Do(w, steps[0]), steps[1..])
  }

  // ---------------------------------------------------------------------
  // One attempt of the receiver, step by step
  // ---------------------------------------------------------------------

  ghost predicate LeadsTo(w: World, steps: seq<Step>, last: World) {
    CanRun(w, steps) && Run(w, steps) == last
  }

  lemma {:induction false} Next(start: World, steps: seq<Step>, w: World, step: Step)
    requires LeadsTo(start, steps, w) && Enabled(w, step)
    ensures LeadsTo(start, steps + [step], Do(w, step))
    decreases |steps|
  {
    if steps == [] {
      assert [step][1..] == [] && steps + [step] == [step];
    } else {
      Next(Do(start, steps[0]), steps[1..], w, step);
      assert (steps + [step])[1..] == steps[1..] + [step];
    }
  }

  /** What a recipient in a run has in common with the receiver's own fields. */
  ghost predicate Shows(w: World, d: Id, copy: Copy, attempts: nat, stored: bool) {
    && d in w.recv && w.recv[d].copy == Some(copy) && w.recv[d].task.Idle?
    && w.recv[d].attempts == attempts && (stored ==> w.recv[d].saved)
  }

  /** The steps of one attempt to fetch, open and store a wanted file, for the answers it gets. */
  function DownloadSteps(d: Id, a: Attempt): seq<Step> {
    if !Tried(a) then []
    else if !a.answer.Bytes? then [Fetch(d), Fetched(d, a.answer.Failure?)]
    else if !a.opens then [Fetch(d), Fetched(d, false), Open(d, false)]
    else [Fetch(d), Fetched(d, false), Open(d, true), Save(d, a.saves)]
  }

  /** The server answers as it can: with the object it has, with the news that it has none, or not at all. */
  ghost predicate Answers(w: World, a: Attempt) {
    (a.answer.Bytes? ==> w.blob) && (a.answer.NotFound? ==> !w.blob)
  }

  lemma FetchedRuns(w: World, d: Id, a: Attempt) returns (last: World)
    requires d in w.recv && w.recv[d].task.Idle? && w.recv[d].copy.Some? && Wanted(w.recv[d].copy.value)
    requires Answers(w, a)
    ensures LeadsTo(w, [Fetch(d), Fetched(d, a.answer.Failure?)], last)
    ensures last == w.(recv := w.recv[d :=
              WithState(w.recv[d],
                        if a.answer.Failure? then Error else if a.answer.NotFound? then Gone else Downloading,
                        if a.answer.Bytes? then Opening else Idle)])
  {
    var w1 := Do(w, Fetch(d));
    Next(w, [], w, Fetch(d));
    last := Do(w1, Fetched(d, a.answer.Failure?));
    Next(w, [Fetch(d)], w1, Fetched(d, a.answer.Failure?));
    assert [] + [Fetch(d)] == [Fetch(d)];
    assert [Fetch(d)] + [Fetched(d, a.answer.Failure?)] == [Fetch(d), Fetched(d, a.answer.Failure?)];
  }

  lemma DownloadRuns(w: World, d: Id, a: Attempt) returns (last: World)
    requires d in w.recv && w.recv[d].task.Idle? && w.recv[d].copy.Some? && Wanted(w.recv[d].copy.value)
    requires Answers(w, a)
    ensures LeadsTo(w, DownloadSteps(d, a), last) && d in last.recv
    ensures Tried(a) && a.answer.NotFound? ==> last.recv[d] == WithState(w.recv[d], Gone, Idle)
    ensures Tried(a) && a.answer.Failure? ==> last.recv[d] == WithState(w.recv[d], Error, Idle)
    ensures Tried(a) && a.answer.Bytes? ==> last.recv[d] == Unpacked(w.recv[d], a)
    ensures !Tried(a) ==> last == w
  {
    last := w;
    if Tried(a) && a.answer.Bytes? {
      last := BytesRun(w, d, a);
    } else if Tried(a) {
      last := FetchedRuns(w, d, a);
    }
  }

  /** A recipient that was given the object. */
  function Unpacked(r: Recipient, a: Attempt): Recipient
    requires r.copy.Some?
  {
    if a.opens
    then WithState(r, if a.saves then Downloaded else Error, Idle).(attempts := 0, saved := r.saved || a.saves)
    else Opened(r, false)
  }

  lemma BytesRun(w: World, d: Id, a: Attempt) returns (last: World)
    requires d in w.recv && w.recv[d].task.Idle? && w.recv[d].copy.Some? && Wanted(w.recv[d].copy.value)
    requires Answers(w, a) && a.answer.Bytes? && Tried(a)
    ensures LeadsTo(w, DownloadSteps(d, a), last) && d in last.recv && last.recv[d] == Unpacked(w.recv[d], a)
  {
    last := OpenedRun(w, d, a);
    if a.opens {
      var before := [Fetch(d), Fetched(d, false), Open(d, true)];
      Next(w, before, last, Save(d, a.saves));
      last := Do(last, Save(d, a.saves));
      assert before + [Save(d, a.saves)] == DownloadSteps(d, a);
    }
  }

  lemma OpenedRun(w: World, d: Id, a: Attempt) returns (last: World)
    requires d in w.recv && w.recv[d].task.Idle? && w.recv[d].copy.Some? && Wanted(w.recv[d].copy.value)
    requires Answers(w, a) && a.answer.Bytes?
    ensures LeadsTo(w, [Fetch(d), Fetched(d, false), Open(d, a.opens)], last)
    ensures last == Put(w, d, Opened(WithState(w.recv[d], Downloading, Opening), a.opens))
  {
    var mid := FetchedRuns(w, d, a);
    Next(w, [Fetch(d), Fetched(d, false)], mid, Open(d, a.opens));
    assert [Fetch(d), Fetched(d, false)] + [Open(d, a.opens)] == [Fetch(d), Fetched(d, false), Open(d, a.opens)];
    last := Do(mid, Open(d, a.opens));
  }

  /** The copy an attempt ends with, from what is known of it. */
  lemma EndOf(before: Copy, tries: nat, had: bool, a: Attempt, after: Copy, tries': nat, has: bool)
    requires AttemptEnds(before, tries, had, a, after, tries', has) && after.acked == before.acked
    requires Wanted(before) && Tried(a)
    ensures after == before.(state :=
              if a.answer.NotFound? then Gone
              else if a.answer.Failure? then Error
              else if a.opens then (if a.saves then Downloaded else Error)
              else if GivesUp(tries, a) then Corrupted else Error)
  {
  }

  lemma AttemptShows(w: World, d: Id, copy: Copy, attempts: nat, stored: bool, a: Attempt,
                     after: Copy, attempts': nat, stored': bool) returns (last: World)
    requires Shows(w, d, copy, attempts, stored) && Answers(w, a)
    requires AttemptEnds(copy, attempts, stored, a, after, attempts', stored') && after.acked == copy.acked
    ensures LeadsTo(w, if Wanted(copy) then DownloadSteps(d, a) else [], last)
    ensures Shows(last, d, after, attempts', stored')
  {
    last := w;
    if Wanted(copy) {
      last := DownloadRuns(w, d, a);
      if Tried(a) {
        EndOf(copy, attempts, stored, a, after, attempts', stored');
      }
    }
  }

  lemma AttemptRuns(w: World, d: Id, copy: Copy, attempts: nat, stored: bool, a: Attempt,
                    after: Copy, attempts': nat, stored': bool) returns (steps: seq<Step>)
    requires Shows(w, d, copy, attempts, stored) && Answers(w, a)
    requires AttemptEnds(copy, attempts, stored, a, after, attempts', stored')
    requires after.acked == (copy.acked || (a.ackArrives && !Wanted(after)))
    ensures CanRun(w, steps) && Shows(Run(w, steps), d, after, attempts', stored')
    ensures steps == (if Wanted(copy) then DownloadSteps(d, a) else [])
                     + (if after.acked && !copy.acked then [Confirm(d, true)] else [])
  {
    steps := if Wanted(copy) then DownloadSteps(d, a) else [];
    var last := AttemptShows(w, d, copy, attempts, stored, a, after.(acked := copy.acked), attempts', stored');
    if after.acked && !copy.acked {
      Next(w, steps, last, Confirm(d, true));
      steps := steps + [Confirm(d, true)];
    } else {
      assert steps + [] == steps;
    }
  }

  /**
   * The receiver's own code, run for a device whose copy it holds, does what a run of steps does: whatever
   * every run guarantees, it guarantees of `DownloadAndAck`.
   */
  method Attempted(ghost w: World, d: Id, receiver: Receiver, a: Attempt)
    returns (confirmed: bool, ghost steps: seq<Step>)
    requires Shows(w, d, receiver.copy, receiver.attempts, receiver.stored) && Answers(w, a)
    modifies receiver
    ensures CanRun(w, steps) && Shows(Run(w, steps), d, receiver.copy, receiver.attempts, receiver.stored)
    ensures steps == (if Wanted(old(receiver.copy)) then DownloadSteps(d, a) else [])
                     + (if confirmed then [Confirm(d, true)] else [])
  {
    ghost var copy, attempts, stored := receiver.copy, receiver.attempts, receiver.stored;
    confirmed := receiver.DownloadAndAck(a);
    steps := AttemptRuns(w, d, copy, attempts, stored, a, receiver.copy, receiver.attempts, receiver.stored);
  }

  ghost predicate SameRecipients(w: World, w': World) {
    w'.recv.Keys == w.recv.Keys && w'.hasFile == w.hasFile
  }

  lemma StepKeepsRecipients(w: World, step: Step)
    requires Enabled(w, step)
    ensures SameRecipients(w, Do(w, step))
  {
  }

  lemma {:induction false} RunKeeps(w: World, steps: seq<Step>)
    requires Inv(w) && CanRun(w, steps)
    ensures Inv(Run(w, steps)) && SameRecipients(w, Run(w, steps))
    decreases |steps|
  {
    if steps != [] {
      StepKeeps(w, steps[0]);
      StepKeepsRecipients(w, steps[0]);
      RunKeeps(Do(w, steps[0]), steps[1..]);
    }
  }

  /** A device confirms only what is settled: no file to wait for, or one it stored, gave up on, or was told is gone. */
  lemma ConfirmedMeansSettled(w: World, d: Id, heard: bool)
    requires Inv(w) && Enabled(w, Confirm(d, heard))
    ensures var r := w.recv[d];
            || !w.hasFile || r.saved || !w.blob
            || r.failures >= MAX_DECRYPT_ATTEMPTS || r.metaFailures >= MAX_DECRYPT_ATTEMPTS
  {
    assert Honest(w.hasFile, w.blob, w.recv[d]);
  }

  lemma {:induction false} StillUncut(w: World, steps: seq<Step>)
    requires CanRun(w, steps) && !Run(w, steps).cut
    ensures !w.cut
    decreases |steps|
  {
    if steps != [] {
      StillUncut(Do(w, steps[0]), steps[1..]);
    }
  }

  /** In a run that is never cut short, no recipient ever confirms because the file is gone. */
  lemma {:induction false} NobodyMissesTheFile(w: World, steps: seq<Step>, d: Id)
    requires Inv(w) && CanRun(w, steps) && !Run(w, steps).cut
    requires d in w.reached ==> w.reached[d] != FileGone
    ensures d in Run(w, steps).reached && d !in w.revoked && d in w.recv && d !in Run(w, steps).revoked ==>
              Run(w, steps).reached[d] != FileGone
    decreases |steps|
  {
    if steps != [] {
      StepKeeps(w, steps[0]);
      StepKeepsRecipients(w, steps[0]);
      StillUncut(Do(w, steps[0]), steps[1..]);
      var w' := Do(w, steps[0]);
      if d in w.recv && d !in w'.revoked {
        FirstReason(w, steps[0], d);
        NobodyMissesTheFile(w', steps[1..], d);
      } else {
        RevokedStays(w', steps[1..], d);
      }
    }
  }

  lemma FirstReason(w: World, step: Step, d: Id)
    requires Inv(w) && Enabled(w, step) && !Do(w, step).cut && d in w.recv && d !in Do(w, step).revoked
    requires d in w.reached ==> w.reached[d] != FileGone
    ensures d in Do(w, step).reached ==> Do(w, step).reached[d] != FileGone
  {
    assert Honest(w.hasFile, w.blob, w.recv[d]);
  }

  lemma {:induction false} RevokedStays(w: World, steps: seq<Step>, d: Id)
    requires CanRun(w, steps) && (d in w.revoked || d !in w.recv)
    ensures d in Run(w, steps).revoked || d !in w.recv
    decreases |steps|
  {
    if steps != [] {
      StepKeepsRecipients(w, steps[0]);
      RevokedStays(Do(w, steps[0]), steps[1..], d);
    }
  }

  /**
   * Until expiry or a deletion for everyone cuts it short, the server keeps the file for every recipient.
   * When it lets go, each one was revoked, or confirmed after storing the file, giving up on it after
   * three failures to open, or having the user destroy it: nobody was too late for it.
   */
  lemma FileOutlastsDelivery(hasFile: bool, recipients: set<Id>, steps: seq<Step>, d: Id)
    requires CanRun(Init(hasFile, recipients), steps) && d in recipients
    requires !Run(Init(hasFile, recipients), steps).cut
    ensures var w := Run(Init(hasFile, recipients), steps);
            && (w.present ==> w.blob == hasFile)
            && (!w.present && d !in w.revoked ==>
                  && d in w.reached && d in w.recv
                  && match w.reached[d]
                     case NoFile => !hasFile
                     case Stored => w.recv[d].saved
                     case GaveUp => w.recv[d].failures >= MAX_DECRYPT_ATTEMPTS
                         || w.recv[d].metaFailures >= MAX_DECRYPT_ATTEMPTS
                     case FileGone => false
                     case Destroyed => true)
  {
    RunKeeps(Init(hasFile, recipients), steps);
    NobodyMissesTheFile(Init(hasFile, recipients), steps, d);
  }
}
