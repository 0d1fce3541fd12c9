/**
 * The name a space's devices share: the last write the server stamps wins, and a rename made
 * here stays owed until the server has taken it.
 */
module SpaceName {
  import opened Basics

  type Name = Option<string>

  /**
   * One device's record: the name it shows, the stamp of the name it last took or published, and whether a
   * rename is owed.
   */
  datatype Local = Local(name: Name, stamp: nat, pending: bool)

  /** The server's record, its name sealed under the key of an epoch. */
  datatype Record = Record(name: Name, stamp: nat, epoch: nat)

  /** What a publish or a poll in flight will do to the local record. */
  datatype Change =
    | Rename(name: Name)
    | Adopt(name: Name, stamp: nat)
    | Mark(name: Name, stamp: nat)

  function Changed(current: Local, change: Change): Local {
    match change
    case Rename(name) => current.(name := name, pending := true)
    case Adopt(name, stamp) => Local(name, stamp, false)
    case Mark(name, stamp) => Local(current.name, stamp, current.name != name)
  }

  // ---------------------------------------------------------------------
  // One device and the server, run alone
  // ---------------------------------------------------------------------

  /** The server's side: any current device may set the name, sealed under the current key. */
  class NameServer {
    var record: Option<Record>
    var epoch: nat
    var clock: nat

    ghost predicate Valid()
      reads this
    {
      record.Some? ==> 0 < record.value.stamp <= clock
    }

    constructor (first: nat)
      ensures Valid() && record.None? && epoch == first
    {
      record, epoch, clock := None, first, 0;
    }

    /** `None` is a refusal: the name was sealed under a superseded key. */
    method UpdateSpaceName(name: Name, keyEpoch: nat) returns (stamp: Option<nat>)
      requires Valid()
      modifies this
      ensures Valid() && epoch == old(epoch)
      ensures stamp.Some? <==> keyEpoch == epoch
      ensures stamp.None? ==> record == old(record) && clock == old(clock)
      ensures stamp.Some? ==> old(clock) < stamp.value == clock && record == Some(Record(name, stamp.value, keyEpoch))
    {
      if keyEpoch != epoch {
        return None;
      }
      clock := clock + 1;
      record := Some(Record(name, clock, keyEpoch));
      return Some(clock);
    }
  }

  class Device {
    var local: Local
    var ring: set<nat>
    var current: nat

    constructor (name: Name, epoch: nat)
      ensures local == Local(name, 0, false) && ring == {epoch} && current == epoch
    {
      local, ring, current := Local(name, 0, false), {epoch}, epoch;
    }

    method RenameSpace(name: string)
      modifies this`local
      ensures local == Changed(old(local), Rename(Cleaned(name)))
      ensures local.pending && local.name == Cleaned(name) && local.stamp == old(local).stamp
    {
      local := local.(name := Cleaned(name), pending := true);
    }

    method AdoptSpaceName(name: Name, stamp: nat)
      modifies this`local
      ensures local == Changed(old(local), Adopt(name, stamp))
      ensures !local.pending && local.name == name && local.stamp == stamp
    {
      local := local.(name := name, stamp := stamp, pending := false);
    }

    method MarkSpaceNamePublished(name: Name, stamp: nat)
      modifies this`local
      ensures local == Changed(old(local), Mark(name, stamp))
      ensures local.stamp == stamp && local.name == old(local).name && (local.pending <==> old(local).name != name)
    {
      local := local.(stamp := stamp, pending := local.name != name);
    }

    /** Send the name shown here, sealed; when that fails, nothing changes. */
    method PublishSpaceName(server: NameServer, online: bool)
      requires server.Valid()
      modifies this`local, server
      ensures server.Valid() && server.epoch == old(server.epoch) && old(server.clock) <= server.clock
      ensures if online && current == server.epoch
              then server.record == Some(Record(local.name, local.stamp, current))
                   && local == Local(old(local.name), server.clock, false) && old(server.clock) < server.clock
              else local == old(local) && server.record == old(server.record)
    {
      if !online {
        return;
      }
      var stamp := server.UpdateSpaceName(local.name, current);
      if stamp.Some? {
        MarkSpaceNamePublished(local.name, stamp.value);
      }
    }

    /**
     * One pass of the sync loop with the server's record. Run alone, on line and with the current key,
     * it leaves nothing owed, and this device calling the space what the server's record calls it,
     * unless that record was sealed under a key missing from the ring.
     */
    method SyncSpaceName(server: NameServer, online: bool)
      requires server.Valid() && current in ring
      requires server.record.Some? ==> local.stamp <= server.record.value.stamp
      requires server.record.None? ==> local.stamp == 0
      modifies this`local, server
      ensures server.Valid()
      ensures online && current == server.epoch && server.record.Some? ==>
                (old(local).pending
                 || (server.record.value.epoch in ring && server.record.value.stamp != old(local).stamp)) ==>
                !local.pending && local.stamp == server.record.value.stamp && local.name == server.record.value.name
      ensures old(local).pending && online && current == server.epoch ==>
                server.record.Some? && local.name == old(local).name == server.record.value.name
      ensures !old(local).pending ==>
                || local.name == old(local).name
                || (old(server.record).Some? && local.name == old(server.record).value.name
                    && local.stamp == old(server.record).value.stamp)
      ensures !local.pending || (old(local).pending && local == old(local))
      ensures !old(local).pending && old(server.record).Some? && old(local).stamp < old(server.record).value.stamp ==>
                var record := old(server.record).value;
                && server.record == old(server.record)
                && local == if record.epoch in ring then Local(record.name, record.stamp, false) else old(local)
      ensures server.record != old(server.record) ==>
                || old(local).pending
                || (old(server.record).Some? && old(server.record).value.epoch < current && local.name.Some?
                    && old(local).stamp == old(server.record).value.stamp)
      ensures !old(local).pending && old(server.record).Some? && old(local).stamp == old(server.record).value.stamp
              && old(local).name == old(server.record).value.name ==>
                && server.record.Some? && local.stamp == server.record.value.stamp
                && local.name == server.record.value.name == old(local).name
                && (online && current == server.epoch && old(server.record).value.epoch < current
                    && local.name.Some? ==>
                      server.record.value.epoch == current)
    {
      if local.pending {
        PublishSpaceName(server, online);
        return;
      }
      if server.record.None? {
        return;
      }
      var record := server.record.value;
      if record.stamp > local.stamp {
        if record.epoch !in ring {
          return;
        }
        AdoptSpaceName(record.name, record.stamp);
        return;
      }
      if record.stamp == local.stamp && record.epoch < current && local.name.Some? {
        PublishSpaceName(server, online);
      }
    }
  }

  function Trim(s: string): string {
    TrimEnd(TrimStart(s))
  }

  function TrimStart(s: string): string {
    if s != "" && s[0] == ' ' then TrimStart(s[1..]) else s
  }

  function TrimEnd(s: string): string {
    if s != "" && s[|s| - 1] == ' ' then TrimEnd(s[..|s| - 1]) else s
  }

  /** What is typed, without the space around it; nothing left means no name. */
  function Cleaned(s: string): Name {
    if Trim(s) == "" then None else Some(Trim(s))
  }

  ghost predicate Blank(s: string) {
    forall i :: 0 <= i < |s| ==> s[i] == ' '
  }

  lemma {:induction false} TrimStartExact(s: string) returns (i: nat)
    ensures i <= |s| && TrimStart(s) == s[i..] && Blank(s[..i]) && (i < |s| ==> s[i] != ' ')
  {
    i := 0;
    if s != "" && s[0] == ' ' {
      var j := TrimStartExact(s[1..]);
      i := j + 1;
      assert s[1..][j..] == s[i..] && s[..i] == [' '] + s[1..][..j];
    }
  }

  lemma {:induction false} TrimEndExact(s: string) returns (i: nat)
    ensures i <= |s| && TrimEnd(s) == s[..i] && Blank(s[i..]) && (i > 0 ==> s[i - 1] != ' ')
  {
    i := |s|;
    if s != "" && s[|s| - 1] == ' ' {
      i := TrimEndExact(s[..|s| - 1]);
      assert s[..|s| - 1][..i] == s[..i] && s[i..] == s[..|s| - 1][i..] + [' '];
    }
  }

  /** A name is what lies between the first and the last character that is no space; none if there is no such. */
  lemma CleanedExact(s: string) returns (start: nat, end: nat)
    ensures start <= end <= |s| && Blank(s[..start]) && Blank(s[end..])
    ensures start < end ==> s[start] != ' ' && s[end - 1] != ' '
    ensures Cleaned(s) == if start == end then None else Some(s[start..end])
  {
    start := TrimStartExact(s);
    var rest := s[start..];
    var n := TrimEndExact(rest);
    end := start + n;
    assert rest[..n] == s[start..end] && rest[n..] == s[end..];
    assert n > 0 ==> rest[n - 1] == s[end - 1];
    assert start < |s| ==> rest[0] == s[start];
  }

  // ---------------------------------------------------------------------
  // Any number of devices, in any order
  // ---------------------------------------------------------------------

  /** Something under way on one device. */
  datatype Task =
    | Publishing(name: Name)                 // the name is on its way to the server
    | Resealing(name: Name, from: nat)       // so is the name of this stamp, sealed again under a new key
    | Applying(change: Change)               // an answer, or the user, is about to change the record
    | Writing(base: Local, change: Change)   // the record has been read, and the changed one not yet written

  /** `stamped` is the name the server gave each stamp to. */
  datatype World = World(
    stamped: map<nat, Name>,
    latest: nat,
    locals: map<Id, Local>,
    tasks: map<nat, (Id, Task)>)

  datatype Step =
    | Type(t: nat, d: Id, name: Name)
    | Publish(t: nat, d: Id)              // owed: what the device shows is sent
    | Reseal(t: nat, d: Id)               // not owed, but sealed under a superseded key
    | Stamp(t: nat, stamp: nat)           // the server takes it
    | Poll(t: nat, d: Id)                 // the current record is read, found newer, and opened
    | Read(t: nat)
    | Write(t: nat)
    | Lose(t: nat)                        // an answer lost, a refusal, a crash

  ghost predicate Enabled(w: World, step: Step) {
    match step
    case Type(t, d, _) => t !in w.tasks && d in w.locals
    case Publish(t, d) => t !in w.tasks && d in w.locals
    case Reseal(t, d) =>
      && t !in w.tasks && d in w.locals
      && !w.locals[d].pending && w.locals[d].name.Some? && w.locals[d].stamp == w.latest && w.latest in w.stamped
    case Stamp(t, stamp) => t in w.tasks && (w.tasks[t].1.Publishing? || w.tasks[t].1.Resealing?) && w.latest < stamp
    case Poll(t, d) => t !in w.tasks && d in w.locals && w.latest in w.stamped
    case Read(t) => t in w.tasks && w.tasks[t].1.Applying? && w.tasks[t].0 in w.locals
    case Write(t) => t in w.tasks && w.tasks[t].1.Writing?
    case Lose(t) => t in w.tasks
  }

  ghost function Do(w: World, step: Step): World
    requires Enabled(w, step)
  {
    match step
    case Type(t, d, name) => w.(tasks := w.tasks[t := (d, Applying(Rename(name)))])
    case Publish(t, d) => w.(tasks := w.tasks[t := (d, Publishing(w.locals[d].name))])
    case Reseal(t, d) => w.(tasks := w.tasks[t := (d, Resealing(w.locals[d].name, w.latest))])
    case Stamp(t, stamp) =>
      var (d, task) := w.tasks[t];
      w.(stamped := w.stamped[stamp := task.name], latest := stamp,
          tasks := w.tasks[t := (d, Applying(Mark(task.name, stamp)))])
    case Poll(t, d) => w.(tasks := w.tasks[t := (d, Applying(Adopt(w.stamped[w.latest], w.latest)))])
    case Read(t) =>
      var (d, task) := w.tasks[t];
      w.(tasks := w.tasks[t := (d, Writing(w.locals[d], task.change))])
    case Write(t) =>
      var (d, task) := w.tasks[t];
      w.(locals := w.locals[d := Changed(task.base, task.change)], tasks := w.tasks - {t})
    case Lose(t) => w.(tasks := w.tasks - {t})
  }

  ghost function Init(names: map<Id, Name>): World {
    World(map[], 0, map d | d in names :: Local(names[d], 0, false), map[])
  }

  /** A record that owes nothing and has a stamp shows exactly the name the server stamped with it. */
  ghost predicate True(stamped: map<nat, Name>, latest: nat, local: Local) {
    && local.stamp <= latest
    && (!local.pending && local.stamp > 0 ==> local.stamp in stamped && stamped[local.stamp] == local.name)
  }

  ghost predicate TaskTrue(stamped: map<nat, Name>, latest: nat, task: Task) {
    match task
    case Publishing(_) => true
    case Resealing(name, from) => Stamped(stamped, latest, name, from)
    case Applying(change) => ChangeTrue(stamped, latest, change)
    case Writing(base, change) => True(stamped, latest, base) && ChangeTrue(stamped, latest, change)
  }

  ghost predicate Stamped(stamped: map<nat, Name>, latest: nat, name: Name, stamp: nat) {
    stamp in stamped && stamped[stamp] == name && stamp <= latest
  }

  ghost predicate ChangeTrue(stamped: map<nat, Name>, latest: nat, change: Change) {
    match change
    case Rename(_) => true
    case Adopt(name, stamp) => Stamped(stamped, latest, name, stamp)
    case Mark(name, stamp) => Stamped(stamped, latest, name, stamp)
  }

  ghost predicate Inv(w: World) {
    && (forall s :: s in w.stamped ==> 0 < s <= w.latest)
    && (forall d :: d in w.locals ==> True(w.stamped, w.latest, w.locals[d]))
    && (forall t :: t in w.tasks ==> TaskTrue(w.stamped, w.latest, w.tasks[t].1))
  }

  lemma StampKeeps(w: World, t: nat, stamp: nat)
    requires Inv(w) && Enabled(w, Stamp(t, stamp))
    ensures Inv(Do(w, Stamp(t, stamp)))
  {
    var w' := Do(w, Stamp(t, stamp));
    forall k | k in w'.tasks ensures TaskTrue(w'.stamped, w'.latest, w'.tasks[k].1) {
      assert k in w.tasks && TaskTrue(w.stamped, w.latest, w.tasks[k].1);
    }
  }

  lemma StepKeeps(w: World, step: Step)
    requires Inv(w) && Enabled(w, step)
    ensures Inv(Do(w, step))
  {
    match step
    case Stamp(t, stamp) => StampKeeps(w, t, stamp);
    case Read(t) =>
      assert TaskTrue(w.stamped, w.latest, w.tasks[t].1) && True(w.stamped, w.latest, w.locals[w.tasks[t].0]);
    case Reseal(t, d) => assert True(w.stamped, w.latest, w.locals[d]);
    case Write(t) => assert TaskTrue(w.stamped, w.latest, w.tasks[t].1);
    case _ =>
  }

  ghost predicate CanRun(w: World, steps: seq<Step>)
    decreases |steps|
  {
    steps == [] || (Enabled(w, steps[0]) && CanRun(Do(w, steps[0]), steps[1..]))
  }

  ghost function Run(w: World, steps: seq<Step>): World
    requires CanRun(w, steps)
    decreases |steps|
  {
    if steps == [] then w else Run(Do(w, steps[0]), steps[1..])
  }

  lemma {:induction false} RunKeeps(w: World, steps: seq<Step>)
    requires Inv(w) && CanRun(w, steps)
    ensures Inv(Run(w, steps))
    decreases |steps|
  {
    if steps != [] {
      StepKeeps(w, steps[0]);
      RunKeeps(Do(w, steps[0]), steps[1..]);
    }
  }

  /** In every run, in whatever order acknowledgements and polls land and records are read and written. */
  lemma StampNamesName(names: map<Id, Name>, steps: seq<Step>, d: Id)
    requires CanRun(Init(names), steps)
    requires var w := Run(Init(names), steps); d in w.locals && !w.locals[d].pending && w.locals[d].stamp > 0
    ensures var w := Run(Init(names), steps);
            w.locals[d].stamp in w.stamped && w.locals[d].name == w.stamped[w.locals[d].stamp]
  {
    RunKeeps(Init(names), steps);
  }

  /**
   * Once nothing is owed and everyone has reached the latest stamp, every device shows one name: the last
   * one stamped.
   */
  lemma DevicesAgree(names: map<Id, Name>, steps: seq<Step>, a: Id, b: Id)
    requires CanRun(Init(names), steps)
    requires var w := Run(Init(names), steps);
             && w.latest > 0 && a in w.locals && b in w.locals
             && !w.locals[a].pending && !w.locals[b].pending
             && w.locals[a].stamp == w.latest == w.locals[b].stamp
    ensures var w := Run(Init(names), steps);
            w.latest in w.stamped && w.locals[a].name == w.locals[b].name == w.stamped[w.latest]
  {
    StampNamesName(names, steps, a);
    StampNamesName(names, steps, b);
  }

  // ---------------------------------------------------------------------
  // What a rename can lose
  // ---------------------------------------------------------------------

  /** The device shows `name` and owes it to the others. */
  ghost predicate Owes(w: World, d: Id, name: Name) {
    d in w.locals && w.locals[d].pending && w.locals[d].name == name
  }

  ghost predicate Taken(w: World, name: Name) {
    exists s :: s in w.stamped && w.stamped[s] == name
  }

  /**
   * The write that ends what a device owes: another rename, an adoption, or the answer to an earlier
   * publication put together from a record that did not show the name yet.
   */
  ghost predicate Drops(w: World, step: Step, d: Id, name: Name)
    requires Enabled(w, step)
  {
    && step.Write? && w.tasks[step.t].0 == d
    && (match w.tasks[step.t].1.change
        case Rename(other) => other != name
        case Adopt(_, _) => true
        case Mark(_, _) => w.tasks[step.t].1.base.name != name)
  }

  /** A rename the server has not taken stays owed over a step if and only if the step is not such a write. */
  lemma OwedRenameExact(w: World, step: Step, d: Id, name: Name)
    requires Inv(w) && Enabled(w, step) && Owes(w, d, name) && !Taken(w, name)
    ensures Owes(Do(w, step), d, name) <==> !Drops(w, step, d, name)
  {
    if step.Write? {
      assert TaskTrue(w.stamped, w.latest, w.tasks[step.t].1);
    }
  }

  /** Through a run the rename stays owed until the server takes it. */
  ghost predicate OwedUntilTaken(w: World, steps: seq<Step>, d: Id, name: Name)
    requires CanRun(w, steps)
    decreases |steps|
  {
    Taken(w, name) || (Owes(w, d, name) && (steps == [] || OwedUntilTaken(Do(w, steps[0]), steps[1..], d, name)))
  }

  ghost predicate NoDropUntilTaken(w: World, steps: seq<Step>, d: Id, name: Name)
    requires CanRun(w, steps)
    decreases |steps|
  {
    || Taken(w, name) || steps == []
    || (!Drops(w, steps[0], d, name) && NoDropUntilTaken(Do(w, steps[0]), steps[1..], d, name))
  }

  /**
   * However reads and writes interleave, an owed rename is lost if and only if one of those writes lands
   * before the server takes it.
   */
  lemma {:induction false} RenameLostExact(w: World, steps: seq<Step>, d: Id, name: Name)
    requires Inv(w) && CanRun(w, steps) && Owes(w, d, name)
    ensures OwedUntilTaken(w, steps, d, name) <==> NoDropUntilTaken(w, steps, d, name)
    decreases |steps|
  {
    if steps != [] && !Taken(w, name) {
      var w' := Do(w, steps[0]);
      StepKeeps(w, steps[0]);
      OwedRenameExact(w, steps[0], d, name);
      if Drops(w, steps[0], d, name) {
        assert !Taken(w', name);
      } else {
        RenameLostExact(w', steps[1..], d, name);
      }
    }
  }

  /**
   * Sealing a name again stamps it anew. It leaves the space with the name it had if and only if the name
   * last stamped is still the one sealed again, as it is when nothing was stamped since the check.
   */
  lemma ResealExact(w: World, t: nat, stamp: nat)
    requires Inv(w) && Enabled(w, Stamp(t, stamp)) && w.tasks[t].1.Resealing? && w.latest in w.stamped
    ensures var w' := Do(w, Stamp(t, stamp));
            var task := w.tasks[t].1;
            && w'.latest in w'.stamped
            && (w'.stamped[w'.latest] == w.stamped[w.latest] <==> w.stamped[w.latest] == task.name)
            && (w.latest == task.from ==> w'.stamped[w'.latest] == w.stamped[w.latest])
  {
    assert TaskTrue(w.stamped, w.latest, w.tasks[t].1);
  }
}
