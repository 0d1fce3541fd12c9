/**
 * Sending one queued message: pin an epoch and an IV, upload, register, mark as sent, across any
 * number of crashes, aborts, hand-offs between page and worker, and requests that land late.
 * The flush runs under a lock, so at most one is at work.
 */
module OutboxFlush {
  import opened Basics

  datatype Status = Queued | Uploading | Sent | Failed

  datatype Retry = Retry(attempts: nat, notBefore: nat)

  const FIRST_WAIT_MS: nat := 5000
  const MAX_WAIT_MS: nat := 300000

  /** The epoch a message is bound to, and the IV of its file. */
  datatype Pins = Pins(epoch: Option<nat>, iv: Option<nat>)

  /** The stored row, as far as sending goes. `epoch` and `iv` are the pins. */
  datatype Local = Local(status: Status, epoch: Option<nat>, iv: Option<nat>, retry: Option<Retry>)

  predicate IsQueued(m: Local) {
    m.status.Queued? || m.status.Uploading?
  }

  predicate RetryDue(retry: Option<Retry>, now: nat) {
    retry.None? || retry.value.notBefore <= now
  }

  predicate IsDue(m: Local, now: nat) {
    IsQueued(m) && RetryDue(m.retry, now)
  }

  function Power2(n: nat): nat {
    if n == 0 then 1 else 2 * Power2(n - 1)
  }

  function BackOff(previous: Option<Retry>, now: nat): Retry {
    var attempts := (if previous.Some? then previous.value.attempts else 0) + 1;
    Retry(attempts, now + Min(FIRST_WAIT_MS * Power2(attempts - 1), MAX_WAIT_MS))
  }

  lemma {:induction false} PowerGrows(n: nat, m: nat)
    requires n <= m
    ensures 1 <= Power2(n) <= Power2(m)
    decreases m
  {
    if n < m {
      PowerGrows(n, m - 1);
    } else if m > 0 {
      PowerGrows(n - 1, m - 1);
    }
  }

  function Wait(retry: Retry, since: nat): int {
    retry.notBefore - since
  }

  /**
   * One more failure: the wait starts at the first, doubles each time up to the longest, and is at its longest
   * from the seventh failure on. Nothing is due before it is over.
   */
  lemma BackOffWaits(previous: Option<Retry>, now: nat, later: nat)
    ensures var r := BackOff(previous, now);
            && r.attempts == (if previous.Some? then previous.value.attempts + 1 else 1)
            && FIRST_WAIT_MS <= Wait(r, now) <= MAX_WAIT_MS
            && Wait(BackOff(Some(r), later), later) == Min(2 * Wait(r, now), MAX_WAIT_MS)
            && (previous.None? ==> Wait(r, now) == FIRST_WAIT_MS)
            && (r.attempts >= 7 ==> Wait(r, now) == MAX_WAIT_MS)
            && forall t: nat :: now <= t ==> (RetryDue(Some(r), t) <==> now + Wait(r, now) <= t)
  {
    var r := BackOff(previous, now);
    PowerGrows(0, r.attempts - 1);
    PowerGrows(r.attempts - 1, r.attempts);
    if r.attempts >= 7 {
      PowerGrows(6, r.attempts - 1);
      assert Power2(6) == 2 * Power2(5) == 4 * Power2(4) == 8 * Power2(3) == 16 * Power2(2) == 64;
    }
  }

  /** A request to the server: the file's bytes, or the message that names them. Same pins, same bytes. */
  datatype Request =
    | Upload(epoch: nat, iv: Option<nat>)
    | Send(epoch: nat, iv: Option<nat>, checked: bool)   // `checked`: found no duplicate, and its epoch current

  datatype Answer = Ok | Conflict | Rotated | Refused

  datatype Failure = HandedOff | Transient(counts: bool) | Permanent

  /** One flush at work on the message, with the copy it read. */
  datatype Flush =
    | Read(m: Local)
    | Pinned(m: Local, epoch: nat)
    | Ready(m: Local, epoch: nat, iv: Option<nat>)      // the pins are stored
    | AwaitUpload(m: Local, epoch: nat, iv: Option<nat>)
    | Uploaded(m: Local, epoch: nat, iv: Option<nat>)
    | AwaitSend(m: Local, epoch: nat, iv: Option<nat>)
    | Answered(m: Local, epoch: nat, iv: Option<nat>, answer: Answer)
    | Broken(m: Local, failure: Failure)

  /**
   * `row` is the stored message, or nothing once the user deleted it. `registered` and `blob` are the
   * server's, each as the pins its bytes were made with. `accepted` remembers that the server took the
   * message at least once. `pins` are the pins in force, which outlive a row the user deletes mid-send; `pin`
   * numbers them, and `uploads` is every upload ever started, under its pin's number.
   */
  datatype World = World(
    hasFile: bool,
    row: Option<Local>,
    flush: Option<Flush>,
    inflight: set<Request>,
    registered: Option<(nat, Option<nat>)>,
    blob: Option<(nat, Option<nat>)>,
    serverEpoch: nat,
    accepted: bool,
    pin: nat,
    pins: Pins,
    uploads: set<(nat, nat, Option<nat>)>,
    clock: nat)

  datatype Step =
    | Begin
    | Pin(ring: set<nat>, current: nat)
    | Persist(newIv: nat)
    | IssueUpload
    | SkipUpload
    | LandUpload(request: Request, again: bool)
    | IssueSend
    | CheckSend(request: Request, recipients: bool, again: bool)
    | LandSend(request: Request, again: bool)
    | LoseRequest(request: Request)
    | Break(failure: Failure)
    | Settle
    | Crash
    | RotateKey
    | Purge                     // delivered or expired: the server drops the message and its blob
    | Sweep                     // an unclaimed blob is dropped
    | DeleteRow
    | RetryByUser
    | Tick(ms: nat)

  /** A pin that is new, or replaces one whose key this device no longer holds. */
  predicate NewPin(m: Local, ring: set<nat>) {
    m.epoch.None? || m.epoch.value !in ring
  }

  function Stored(row: Option<Local>, m: Local): Option<Local> {
    if row.Some? then Some(m) else None
  }

  ghost predicate Enabled(w: World, step: Step) {
    match step
    case Begin => w.flush.None? && w.row.Some? && IsDue(w.row.value, w.clock)
    case Pin(ring, current) => w.flush.Some? && w.flush.value.Read? && current in ring
    case Persist(_) => w.flush.Some? && w.flush.value.Pinned? && w.hasFile
    case IssueUpload => w.flush.Some? && w.flush.value.Ready? && w.flush.value.iv.Some?
    case SkipUpload => w.flush.Some? && w.flush.value.Pinned? && !w.hasFile
    case LandUpload(request, _) => request in w.inflight && request.Upload?
    case IssueSend => w.flush.Some? && w.flush.value.Uploaded?
    case CheckSend(request, _, _) => request in w.inflight && request.Send? && !request.checked
    case LandSend(request, _) => request in w.inflight && request.Send? && request.checked
    case LoseRequest(request) => request in w.inflight
    case Break(_) => w.flush.Some? && !w.flush.value.Broken? && !w.flush.value.Answered?
    case Settle => w.flush.Some? && (w.flush.value.Answered? || w.flush.value.Broken?)
    case Crash => w.flush.Some?
    case RotateKey => true
    case Purge => w.registered.Some?
    case Sweep => w.registered.None?
    case DeleteRow => w.row.Some?
    case RetryByUser => w.row.Some? && w.row.value.status.Failed?
    case Tick(_) => true
  }

  /** The flush hears an answer only if it is still waiting for this very request. */
  function Hear(flush: Option<Flush>, request: Request, answer: Answer): Option<Flush>
    requires request.Send?
  {
    if flush.Some? && flush.value.AwaitSend? && flush.value.epoch == request.epoch && flush.value.iv == request.iv
    then Some(Answered(flush.value.m, request.epoch, request.iv, answer)) else flush
  }

  function Left(inflight: set<Request>, request: Request, again: bool): set<Request> {
    if again then inflight else inflight - {request}
  }

  function PinnedRow(m: Local, epoch: nat): Local {
    m.(epoch := Some(epoch))
  }

  function UploadingRow(m: Local, epoch: nat, newIv: nat): Local {
    m.(epoch := Some(epoch), iv := Some(m.iv.GetOr(newIv)), status := Uploading)
  }

  function DoPin(w: World, ring: set<nat>, current: nat): World
    requires w.flush.Some? && w.flush.value.Read?
  {
    var m := w.flush.value.m;
    if !NewPin(m, ring) then w.(flush := Some(Pinned(m, m.epoch.value)))
    else w.(row := Stored(w.row, PinnedRow(m, current)), flush := Some(Pinned(m, current)),
            pin := w.pin + 1, pins := w.pins.(epoch := Some(current)))
  }

  function DoPersist(w: World, newIv: nat): World
    requires w.flush.Some? && w.flush.value.Pinned?
  {
    var f := w.flush.value;
    var iv := Some(f.m.iv.GetOr(newIv));
    w.(row := Stored(w.row, UploadingRow(f.m, f.epoch, newIv)),
       flush := Some(Ready(f.m, f.epoch, iv)), pins := w.pins.(iv := iv))
  }

  function DoCheckSend(w: World, request: Request, recipients: bool, again: bool): World
    requires request.Send?
  {
    var left := w.(inflight := Left(w.inflight, request, again));
    if w.registered.Some? then left.(flush := Hear(w.flush, request, Conflict))
    else if request.epoch != w.serverEpoch then left.(flush := Hear(w.flush, request, Rotated))
    else if !recipients then left.(flush := Hear(w.flush, request, Ok), accepted := true, blob := None)
    else if w.hasFile && w.blob.None? then left.(flush := Hear(w.flush, request, Refused))
    else left.(inflight := left.inflight + {request.(checked := true)})
  }

  function DoLandSend(w: World, request: Request, again: bool): World
    requires request.Send?
  {
    var left := w.(inflight := Left(w.inflight, request, again));
    if w.registered.Some? then left.(flush := Hear(w.flush, request, Conflict))
    else left.(flush := Hear(w.flush, request, Ok), registered := Some((request.epoch, request.iv)), accepted := true)
  }

  /** What a flush writes when it is done with the message. */
  function SettledRow(current: Local, f: Flush, now: nat): Local
    requires f.Answered? || f.Broken?
  {
    match f
    case Answered(m, epoch, iv, answer) =>
      (match answer
       case Ok => m.(epoch := Some(epoch), iv := iv, retry := None, status := Sent)
       case Conflict => m.(epoch := Some(epoch), iv := iv, retry := None, status := Sent)
       case Rotated => current.(epoch := None, iv := None, status := Queued)
       case Refused => current.(status := Failed))
    case Broken(m, failure) =>
      (match failure
       case HandedOff => current.(status := Queued)
       case Transient(counts) => current.(status := Queued, retry := if counts then Some(BackOff(current.retry, now))
           else current.retry)
       case Permanent => current.(status := Failed))
  }

  function DoSettle(w: World): World
    requires w.flush.Some? && (w.flush.value.Answered? || w.flush.value.Broken?)
  {
    var f := w.flush.value;
    if w.row.None? then w.(flush := None)
    else
      w.(row := Some(SettledRow(w.row.value, f, w.clock)),
         flush := None,
         pin := if f.Answered? && f.answer.Rotated? then w.pin + 1 else w.pin,
         pins := if f.Answered? && f.answer.Rotated? then Pins(None, None) else w.pins)
  }

  ghost function Do(w: World, step: Step): World
    requires Enabled(w, step)
  {
    match step
    case Begin => w.(flush := Some(Read(w.row.value)))
    case Pin(ring, current) => DoPin(w, ring, current)
    case Persist(newIv) => DoPersist(w, newIv)
    case IssueUpload =>
      var f := w.flush.value;
      w.(flush := Some(AwaitUpload(f.m, f.epoch, f.iv)),
         inflight := w.inflight + {Upload(f.epoch, f.iv)},
         uploads := w.uploads + {(w.pin, f.epoch, f.iv)})
    case SkipUpload => w.(flush := Some(Uploaded(w.flush.value.m, w.flush.value.epoch, w.flush.value.m.iv)))
    case LandUpload(request, again) =>
      w.(blob := Some((request.epoch, request.iv)),
         inflight := Left(w.inflight, request, again),
         flush := if w.flush.Some? && w.flush.value.AwaitUpload? && w.flush.value.epoch == request.epoch
             && w.flush.value.iv == request.iv
                  then Some(Uploaded(w.flush.value.m, request.epoch, request.iv)) else w.flush)
    case IssueSend =>
      var f := w.flush.value;
      w.(flush := Some(AwaitSend(f.m, f.epoch, f.iv)), inflight := w.inflight + {Send(f.epoch, f.iv, false)})
    case CheckSend(request, recipients, again) => DoCheckSend(w, request, recipients, again)
    case LandSend(request, again) => DoLandSend(w, request, again)
    case LoseRequest(request) => w.(inflight := w.inflight - {request})
    case Break(failure) => w.(flush := Some(Broken(w.flush.value.m, failure)))
    case Settle => DoSettle(w)
    case Crash => w.(flush := None)
    case RotateKey => w.(serverEpoch := w.serverEpoch + 1)
    case Purge => w.(registered := None, blob := None)
    case Sweep => w.(blob := None)
    case DeleteRow => w.(row := None)
    case RetryByUser => w.(row := Some(w.row.value.(status := Queued, retry := None)))
    case Tick(ms) => w.(clock := w.clock + ms)
  }

  // ---------------------------------------------------------------------
  // One pass over the queue
  // ---------------------------------------------------------------------

  /** How one attempt ends: the server answered, or something broke before it could. */
  datatype Outcome = Heard(answer: Answer) | Failing(failure: Failure)

  /** What one pass is given: the keys it loaded, which messages carry a file, and what the outside world will do. */
  datatype Pass = Pass(ring: set<nat>, current: nat, files: set<Id>, newIvs: map<Id, nat>, outcomes: map<Id, Outcome>,
      now: nat)

  function EpochFor(m: Local, pass: Pass): nat {
    if NewPin(m, pass.ring) then pass.current else m.epoch.value
  }

  /** The row one uninterrupted attempt leaves. */
  function FlushedRow(m: Local, id: Id, pass: Pass): Local
    requires id in pass.newIvs && id in pass.outcomes
  {
    var epoch := EpochFor(m, pass);
    var attempted := if id in pass.files then UploadingRow(m, epoch, pass.newIvs[id]) else PinnedRow(m, epoch);
    match pass.outcomes[id]
    case Heard(answer) => SettledRow(attempted, Answered(m, epoch, attempted.iv, answer), pass.now)
    case Failing(failure) => SettledRow(attempted, Broken(m, failure), pass.now)
  }

  function FlushedRows(rows: map<Id, Local>, due: seq<Id>, pass: Pass): map<Id, Local>
    requires forall id :: id in due ==> id in pass.newIvs && id in pass.outcomes
  {
    if due == [] then rows
    else
      var before, id := FlushedRows(rows, due[..|due| - 1], pass), due[|due| - 1];
      if id in before && IsDue(before[id], pass.now) then before[id := FlushedRow(before[id], id, pass)] else before
  }

  predicate Handed(pass: Pass, id: Id)
    requires id in pass.outcomes
  {
    pass.outcomes[id].Failing? && pass.outcomes[id].failure.HandedOff?
  }

  class Outbox {
    var rows: map<Id, Local>

    constructor (rows0: map<Id, Local>)
      ensures rows == rows0
    {
      rows := rows0;
    }

    /** Pin the epoch on the first attempt; a pin whose key is held is reused as it is. */
    method PinEpoch(id: Id, m: Local, pass: Pass) returns (epoch: nat)
      modifies this
      ensures epoch == EpochFor(m, pass)
      ensures rows == if NewPin(m, pass.ring) && id in old(rows) then old(rows)[id := PinnedRow(m, epoch)]
          else old(rows)
    {
      if m.epoch.Some? && m.epoch.value in pass.ring {
        return m.epoch.value;
      }
      epoch := pass.current;
      Update(id, PinnedRow(m, epoch));
    }

    /**
     * Never brings back a message that was gone when it looked. The look and the write are two transactions,
     * though: one the user deletes in between comes back.
     */
    method Update(id: Id, m: Local)
      modifies this
      ensures rows == if id in old(rows) then old(rows)[id := m] else old(rows)
    {
      if id in rows {
        var deleted: bool := *;
        if deleted {
          rows := rows - {id};
        }
        rows := rows[id := m];
      }
    }

    /** Send one message that is due, with nothing else at work on it. */
    method SendQueued(id: Id, pass: Pass)
      requires id in rows && id in pass.newIvs && id in pass.outcomes
      modifies this
      ensures rows == old(rows)[id := FlushedRow(old(rows)[id], id, pass)]
    {
      var m := rows[id];
      var epoch := PinEpoch(id, m, pass);
      if id in pass.files {
        Update(id, UploadingRow(m, epoch, pass.newIvs[id]));
      }
      assert m.epoch == Some(epoch) ==> m == PinnedRow(m, epoch);
      var attempted := rows[id];
      var done := match pass.outcomes[id]
        case Heard(answer) => Answered(m, epoch, attempted.iv, answer)
        case Failing(failure) => Broken(m, failure);
      Update(id, SettledRow(attempted, done, pass.now));
    }

    /** The pass: every due message in turn, until the page is told to hand over. */
    method DoFlush(due: seq<Id>, pass: Pass) returns (tried: nat, remaining: nat)
      requires forall id :: id in due ==> id in pass.newIvs && id in pass.outcomes
      modifies this
      ensures tried <= |due| && rows == FlushedRows(old(rows), due[..tried], pass)
      ensures tried < |due| ==> tried > 0 && pass.outcomes[due[tried - 1]] == Failing(HandedOff)
      ensures forall i :: 0 <= i < tried - 1 && due[i] in old(rows) && IsDue(old(rows)[due[i]], pass.now) ==>
                        pass.outcomes[due[i]] != Failing(HandedOff)
      ensures remaining == |set id | id in rows && IsQueued(rows[id])|
    {
      tried := 0;
      while tried < |due|
        invariant tried <= |due| && rows == FlushedRows(old(rows), due[..tried], pass)
        invariant forall i :: 0 <= i < tried && due[i] in old(rows) && IsDue(old(rows)[due[i]], pass.now) ==>
                            pass.outcomes[due[i]] != Failing(HandedOff)
      {
        var id := due[tried];
        assert due[..tried + 1][..tried] == due[..tried];
        PassKeepsMessages(old(rows), due[..tried], pass, id);
        tried := tried + 1;
        if id in rows && IsDue(rows[id], pass.now) {
          SendQueued(id, pass);
          if Handed(pass, id) {
            break;
          }
        }
      }
      remaining := |set id | id in rows && IsQueued(rows[id])|;
    }
  }

  /**
   * A pass only ever finishes messages, keeps them owed, or marks them for the user; nothing else is
   * touched and nothing vanishes.
   */
  lemma {:induction false} PassKeepsMessages(rows: map<Id, Local>, due: seq<Id>, pass: Pass, id: Id)
    requires forall k :: k in due ==> k in pass.newIvs && k in pass.outcomes
    ensures FlushedRows(rows, due, pass).Keys == rows.Keys
    ensures id in rows && (id !in due || !IsDue(rows[id], pass.now)) ==> FlushedRows(rows, due, pass)[id] == rows[id]
    ensures id in rows && IsQueued(rows[id]) ==>
              var after := FlushedRows(rows, due, pass)[id];
              || IsQueued(after)
              || (after.status.Sent? && id in due && pass.outcomes[id].Heard?
                  && (pass.outcomes[id].answer.Ok? || pass.outcomes[id].answer.Conflict?))
              || (after.status.Failed? && id in due)
  {
    if due != [] {
      PassKeepsMessages(rows, due[..|due| - 1], pass, id);
      assert forall k :: k in due[..|due| - 1] ==> k in due;
    }
  }

  /** The schedule after one more failure that counts: one attempt further, and a wait within the two limits. */
  ghost predicate OneFurther(before: Option<Retry>, after: Option<Retry>, now: nat) {
    && after.Some?
    && after.value.attempts == (if before.Some? then before.value.attempts else 0) + 1
    && now + FIRST_WAIT_MS <= after.value.notBefore <= now + MAX_WAIT_MS
  }

  /** What one attempt makes of a message, outcome by outcome, read off the two rows. */
  ghost predicate Treated(m: Local, id: Id, pass: Pass, after: Local)
    requires id in pass.newIvs && id in pass.outcomes
  {
    var outcome := pass.outcomes[id];
    var held := m.epoch.Some? && m.epoch.value in pass.ring;
    && (after.status == Sent <==> outcome == Heard(Ok) || outcome == Heard(Conflict))
    && (after.status == Failed <==> outcome == Heard(Refused) || outcome == Failing(Permanent))
    && after.status != Uploading
    && after.retry == (match outcome
                       case Heard(Ok) => None
                       case Heard(Conflict) => None
                       case Failing(Transient(true)) => after.retry
                       case _ => m.retry)
    && (outcome == Failing(Transient(true)) ==> OneFurther(m.retry, after.retry, pass.now))
    && (outcome == Heard(Rotated) ==> after.epoch.None? && after.iv.None?)
    && (outcome != Heard(Rotated) ==>
          && after.epoch == (if held then m.epoch else Some(pass.current))
          && after.iv == (if id in pass.files && m.iv.None? then Some(pass.newIvs[id]) else m.iv))
  }

  lemma AttemptTreats(m: Local, id: Id, pass: Pass)
    requires id in pass.newIvs && id in pass.outcomes
    ensures Treated(m, id, pass, FlushedRow(m, id, pass))
  {
    BackOffWaits(m.retry, pass.now, pass.now);
  }

  /**
   * Over a whole pass: sent exactly when the server took it or had it, failed exactly when it was refused or
   * cannot succeed, and otherwise queued. A message handed over, or put off by a dead network, is due again at
   * once with the schedule it had; one that failed for a reason that counts waits, one attempt further.
   */
  lemma {:induction false} PassTreats(rows: map<Id, Local>, due: seq<Id>, pass: Pass, id: Id)
    requires forall k :: k in due ==> k in pass.newIvs && k in pass.outcomes
    requires id in rows && IsDue(rows[id], pass.now) && id in due
    requires forall i, j :: 0 <= i < j < |due| ==> due[i] != due[j]
    ensures id in FlushedRows(rows, due, pass)
    ensures var after, outcome := FlushedRows(rows, due, pass)[id], pass.outcomes[id];
            && Treated(rows[id], id, pass, after)
            && (outcome == Failing(HandedOff) || outcome == Failing(Transient(false)) || outcome == Heard(Rotated) ==>
                  IsDue(after, pass.now))
            && (outcome == Failing(Transient(true)) ==> !IsDue(after, pass.now))
  {
    var init, last := due[..|due| - 1], due[|due| - 1];
    assert forall k :: k in init ==> k in due;
    if last == id {
      PassKeepsMessages(rows, init, pass, id);
      AttemptTreats(rows[id], id, pass);
    } else {
      PassTreats(rows, init, pass, id);
    }
  }

  // ---------------------------------------------------------------------
  // The invariant
  // ---------------------------------------------------------------------

  ghost predicate RowPins(row: Option<Local>, pins: Pins) {
    row.Some? ==> row.value.epoch == pins.epoch && row.value.iv == pins.iv
  }

  ghost predicate FlushPins(hasFile: bool, flush: Option<Flush>, pins: Pins) {
    flush.Some? ==>
      match flush.value
      case Read(m) => m.epoch == pins.epoch && m.iv == pins.iv
      case Pinned(m, epoch) => pins.epoch == Some(epoch) && m.iv == pins.iv
      case Ready(m, epoch, iv) => pins == Pins(Some(epoch), iv) && iv.Some? && hasFile
      case AwaitUpload(m, epoch, iv) => pins == Pins(Some(epoch), iv) && iv.Some? && hasFile
      case Uploaded(m, epoch, iv) => pins == Pins(Some(epoch), iv) && (hasFile ==> iv.Some?)
      case AwaitSend(m, epoch, iv) => pins == Pins(Some(epoch), iv) && (hasFile ==> iv.Some?)
      case Answered(m, epoch, iv, answer) => pins == Pins(Some(epoch), iv)
      case Broken(m, failure) => true
  }

  ghost predicate UploadsPinned(uploads: set<(nat, nat, Option<nat>)>, pin: nat, pins: Pins) {
    && (forall u {:trigger u in uploads} :: u in uploads ==> u.0 <= pin && u.2.Some?)
    && (forall u {:trigger u in uploads} :: u in uploads && u.0 == pin ==> pins == Pins(Some(u.1), u.2))
  }

  /** A term for the solver to hang a pair of uploads on. */
  ghost predicate Pair(a: (nat, nat, Option<nat>), b: (nat, nat, Option<nat>)) {
    true
  }

  ghost predicate OneIvPerPin(uploads: set<(nat, nat, Option<nat>)>) {
    forall a, b {:trigger Pair(a, b)} :: Pair(a, b) && a in uploads && b in uploads && a.0 == b.0 ==> a == b
  }

  ghost predicate AnswersTrue(flush: Option<Flush>, accepted: bool) {
    flush.Some? && flush.value.Answered? && (flush.value.answer.Ok? || flush.value.answer.Conflict?) ==> accepted
  }

  /** A row left uploading is due: it was due when its upload began. */
  ghost predicate TimesOk(row: Option<Local>, flush: Option<Flush>, now: nat) {
    && (row.Some? && row.value.status.Uploading? ==> RetryDue(row.value.retry, now))
    && (flush.Some? && !flush.value.Broken? ==> IsDue(flush.value.m, now))
  }

  ghost predicate Inv(w: World) {
    && RowPins(w.row, w.pins) && FlushPins(w.hasFile, w.flush, w.pins)
    && UploadsPinned(w.uploads, w.pin, w.pins) && OneIvPerPin(w.uploads)
    && AnswersTrue(w.flush, w.accepted)
    && (w.registered.Some? || (w.row.Some? && w.row.value.status.Sent?) ==> w.accepted)
    && TimesOk(w.row, w.flush, w.clock)
  }

  ghost function Init(hasFile: bool, epoch: nat, now: nat): World {
    World(hasFile, Some(Local(Queued, None, None, None)), None, {}, None, None, epoch, false, 0, Pins(None, None), {},
        now)
  }

  lemma UploadKeeps(w: World)
    requires Inv(w) && Enabled(w, IssueUpload)
    ensures Inv(Do(w, IssueUpload))
  {
    var w' := Do(w, IssueUpload);
    var f := w.flush.value;
    var mine := (w.pin, f.epoch, f.iv);
    forall a, b | Pair(a, b) && a in w'.uploads && b in w'.uploads && a.0 == b.0 ensures a == b {
      assert a != mine ==> a in w.uploads;
      assert b != mine ==> b in w.uploads;
    }
  }

  lemma SendKeeps(w: World, step: Step)
    requires step.CheckSend? || step.LandSend? || step.LandUpload? || step.IssueSend? || step.SkipUpload?
    requires Inv(w) && Enabled(w, step)
    ensures Inv(Do(w, step))
  {
  }

  lemma LocalKeeps(w: World, step: Step)
    requires step.Begin? || step.Pin? || step.Persist? || step.Break? || step.Settle? || step.Crash?
    requires Inv(w) && Enabled(w, step)
    ensures Inv(Do(w, step))
  {
  }

  lemma QuietKeeps(w: World, step: Step)
    requires step.LoseRequest? || step.RotateKey? || step.Purge? || step.Sweep? || step.DeleteRow?
        || step.RetryByUser? || step.Tick?
    requires Inv(w) && Enabled(w, step)
    ensures Inv(Do(w, step))
  {
  }

  /** Every step, at any moment, keeps the invariant: nothing is asked of when pins are dropped. */
  lemma StepKeeps(w: World, step: Step)
    requires Inv(w) && Enabled(w, step)
    ensures Inv(Do(w, step))
  {
    match step
    case IssueUpload => UploadKeeps(w);
    case CheckSend(_, _, _) => SendKeeps(w, step);
    case LandSend(_, _) => SendKeeps(w, step);
    case LandUpload(_, _) => SendKeeps(w, step);
    case IssueSend => SendKeeps(w, step);
    case SkipUpload => SendKeeps(w, step);
    case Begin => LocalKeeps(w, step);
    case Pin(_, _) => LocalKeeps(w, step);
    case Persist(_) => LocalKeeps(w, step);
    case Break(_) => LocalKeeps(w, step);
    case Settle => LocalKeeps(w, step);
    case Crash => LocalKeeps(w, step);
    case _ => QuietKeeps(w, step);
  }

  // ---------------------------------------------------------------------
  // Whole runs
  // ---------------------------------------------------------------------

  /** Anything that can happen, one step after another. */
  ghost predicate Runs(w: World, steps: seq<Step>)
    decreases |steps|
  {
    steps == [] || (Enabled(w, steps[0]) && Runs(Do(w, steps[0]), steps[1..]))
  }

  ghost function Run(w: World, steps: seq<Step>): World
    requires Runs(w, steps)
    decreases |steps|
  {
    if steps == [] then w else Run(Do(w, steps[0]), steps[1..])
  }

  lemma {:induction false} RunKeeps(w: World, steps: seq<Step>)
    requires Inv(w) && Runs(w, steps)
    ensures Inv(Run(w, steps)) && Run(w, steps).hasFile == w.hasFile
    decreases |steps|
  {
    if steps != [] {
      StepKeeps(w, steps[0]);
      RunKeeps(Do(w, steps[0]), steps[1..]);
    }
  }

  /** In every run, across every crash, abort, hand-off and late request: under one pin, one epoch and one IV. */
  lemma OneCiphertextPerPin(hasFile: bool, epoch: nat, now: nat, steps: seq<Step>, a: (nat, nat, Option<nat>),
                            b: (nat, nat, Option<nat>))
    requires Runs(Init(hasFile, epoch, now), steps)
    requires var w := Run(Init(hasFile, epoch, now), steps); a in w.uploads && b in w.uploads && a.0 == b.0
    ensures a.1 == b.1 && a.2 == b.2 && a.2.Some?
  {
    RunKeeps(Init(hasFile, epoch, now), steps);
    assert Pair(a, b);
  }

  /** An upload never starts before the pins it uses are stored, unless the user has deleted the message. */
  lemma StoredBeforeUpload(w: World)
    requires Inv(w) && Enabled(w, IssueUpload)
    ensures w.row.Some? ==>
              && w.row.value.epoch == Some(w.flush.value.epoch) && w.row.value.iv == w.flush.value.iv
              && Do(w, IssueUpload).uploads == w.uploads + {(w.pin, w.row.value.epoch.value, w.row.value.iv)}
  {
  }

  /** A stored pin goes only when the server says the key rotated, or the device no longer holds its key. */
  lemma PinsAreKept(w: World, step: Step)
    requires Inv(w) && Enabled(w, step) && w.row.Some? && Do(w, step).row.Some?
    requires !(step.Settle? && w.flush.value.Answered? && w.flush.value.answer.Rotated?)
    ensures var old', new' := w.row.value, Do(w, step).row.value;
            && (old'.iv.Some? ==> new'.iv == old'.iv)
            && (old'.epoch.Some? && !(step.Pin? && old'.epoch.value !in step.ring) ==> new'.epoch == old'.epoch)
  {
  }

  /** Nothing is shown as sent that the server did not take. */
  lemma SentMeansAccepted(hasFile: bool, epoch: nat, now: nat, steps: seq<Step>)
    requires Runs(Init(hasFile, epoch, now), steps)
    ensures var w := Run(Init(hasFile, epoch, now), steps);
            w.row.Some? && w.row.value.status.Sent? ==> w.accepted
  {
    RunKeeps(Init(hasFile, epoch, now), steps);
  }

  /** An upload cut off at any point leaves a row the next pass picks up at once. */
  lemma InterruptedIsPickedUp(hasFile: bool, epoch: nat, now: nat, steps: seq<Step>)
    requires Runs(Init(hasFile, epoch, now), steps)
    requires var w := Run(Init(hasFile, epoch, now), steps);
             w.row.Some? && w.row.value.status.Uploading? && w.flush.None?
    ensures Enabled(Run(Init(hasFile, epoch, now), steps), Begin)
  {
    RunKeeps(Init(hasFile, epoch, now), steps);
  }
}
