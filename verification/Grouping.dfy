/** From the stored messages and the space's notices to the entries of the thread. */
module Grouping {
  import opened Basics
  import opened Sorting

  datatype Batch = Batch(id: Id, index: int, count: nat)

  datatype Message = Message(id: Id, sender: Id, createdAt: int, batch: Option<Batch>)

  datatype Event = Event(id: Id, createdAt: int)

  datatype Entry =
    | Single(message: Message)
    | Album(first: Id, messages: seq<Message>, expected: nat)
    | Notice(event: Event)

  datatype Key = MessageKey(id: Id) | BatchKey(id: Id) | EventKey(id: Id)

  predicate SameBatch(a: Message, b: Message) {
    a.batch.Some? && b.batch.Some? && a.batch.value.id == b.batch.value.id && a.sender == b.sender
  }

  function IndexOf(m: Message): int {
    if m.batch.Some? then m.batch.value.index else 0
  }

  function CreatedAt(m: Message): int {
    m.createdAt
  }

  /** When an entry happened: an album, when the first of its messages as picked did. */
  function EntryTime(e: Entry): int {
    match e
    case Single(m) => m.createdAt
    case Album(_, messages, _) => if messages == [] then 0 else messages[0].createdAt
    case Notice(event) => event.createdAt
  }

  /** How many messages of the list an entry takes up. */
  function Size(e: Entry): nat {
    match e
    case Single(_) => 1
    case Album(_, messages, _) => |messages|
    case Notice(_) => 0
  }

  // ---------------------------------------------------------------------
  // Grouping
  // ---------------------------------------------------------------------

  /** How far the run that starts the list goes. */
  function RunEnd(list: seq<Message>, end: nat): (r: nat)
    requires 0 < end <= |list|
    ensures end <= r <= |list|
    decreases |list| - end
  {
    if end < |list| && SameBatch(list[0], list[end]) then RunEnd(list, end + 1) else end
  }

  /** The stretch of the list its first entry stands for: without a batch, the message alone. */
  function FirstRun(list: seq<Message>): (n: nat)
    requires list != []
    ensures 0 < n <= |list|
  {
    if list[0].batch.None? then 1 else RunEnd(list, 1)
  }

  /** The entry a run becomes: only a run of at least two is an album. */
  function EntryFor(run: seq<Message>): Entry
    requires run != []
  {
    if |run| == 1 then Single(run[0])
    else Album(run[0].id, SortBy(IndexOf, run), if run[0].batch.Some? then run[0].batch.value.count else 0)
  }

  function Grouped(list: seq<Message>): seq<Entry>
    decreases |list|
  {
    if list == [] then []
    else
      var n := FirstRun(list);
      [EntryFor(list[..n])] + Grouped(list[n..])
  }

  method GroupMessages(list: seq<Message>) returns (entries: seq<Entry>)
    ensures entries == Grouped(list)
  {
    entries := [];
    var i := 0;
    assert list[0..] == list;
    while i < |list|
      invariant 0 <= i <= |list| && entries + Grouped(list[i..]) == Grouped(list)
      decreases |list| - i
    {
      var end := EndOfRun(list, i);
      var run := list[i..end];
      var entry := if |run| == 1 then Single(list[i])
          else Album(list[i].id, SortBy(IndexOf, run), list[i].batch.value.count);
      GroupedStep(list, i, end, entry);
      assert (entries + [entry]) + Grouped(list[end..]) == entries + Grouped(list[i..]);
      entries := entries + [entry];
      i := end;
    }
  }

  /** Where the run starting at `i` ends. */
  method EndOfRun(list: seq<Message>, i: nat) returns (end: nat)
    requires i < |list|
    ensures i < end <= |list| && (end - i > 1 ==> list[i].batch.Some?)
    ensures end - i == if list[i].batch.None? then 1 else RunEnd(list[i..], 1)
  {
    var first := list[i];
    end := i + 1;
    if first.batch.None? {
      return;
    }
    ghost var rest := list[i..];
    while end < |list| && SameBatch(first, list[end])
      invariant i < end <= |list| && RunEnd(rest, end - i) == RunEnd(rest, 1)
      decreases |list| - end
    {
      assert rest[end - i] == list[end];
      end := end + 1;
    }
    assert end < |list| ==> rest[end - i] == list[end];
  }

  lemma GroupedStep(list: seq<Message>, i: nat, end: nat, entry: Entry)
    requires i < end <= |list| && (end - i > 1 ==> list[i].batch.Some?)
    requires entry == if end - i == 1 then Single(list[i])
                      else Album(list[i].id, SortBy(IndexOf, list[i..end]),
                          if list[i].batch.Some? then list[i].batch.value.count else 0)
    requires end - i == if list[i].batch.None? then 1 else RunEnd(list[i..], 1)
    ensures Grouped(list[i..]) == [entry] + Grouped(list[end..])
  {
    var rest := list[i..];
    assert rest[..end - i] == list[i..end] && rest[end - i..] == list[end..];
  }

  // ---------------------------------------------------------------------
  // What grouping means
  // ---------------------------------------------------------------------

  /**
   * An entry stands for this stretch of the list: one message, or several picked together by one sender, which it
   * shows ordered as they were picked.
   */
  ghost predicate Stands(e: Entry, stretch: seq<Message>) {
    match e
    case Single(m) => stretch == [m]
    case Album(first, messages, expected) =>
      && |stretch| > 1 && first == stretch[0].id && stretch[0].batch.Some?
      && (forall i :: 0 <= i < |stretch| ==>
            && stretch[i].batch.Some? && stretch[i].sender == stretch[0].sender
            && stretch[i].batch.value.id == stretch[0].batch.value.id)
      && multiset(messages) == multiset(stretch) && |messages| == |stretch|
      && (forall i, j :: 0 <= i < j < |messages| ==> InPickedOrder(messages[i], messages[j]))
      && Ordered(IndexOf, messages) && (forall k :: Only(IndexOf, k, messages) == Only(IndexOf, k, stretch))
      && expected == stretch[0].batch.value.count
    case Notice(_) => false
  }

  predicate InPickedOrder(a: Message, b: Message) {
    a.batch.Some? && b.batch.Some? && a.batch.value.index <= b.batch.value.index
  }

  /** Entries cut the list into stretches, one each, in order, and no stretch could have gone on. */
  ghost predicate Cuts(entries: seq<Entry>, list: seq<Message>)
    decreases |entries|
  {
    if entries == [] then list == []
    else
      var n := Size(entries[0]);
      && 0 < n <= |list| && Stands(entries[0], list[..n])
      && (n < |list| && list[0].batch.Some? && list[n].batch.Some? ==>
            list[n].batch.value.id != list[0].batch.value.id || list[n].sender != list[0].sender)
      && Cuts(entries[1..], list[n..])
  }

  lemma {:induction false} RunIsOneBatch(list: seq<Message>, end: nat)
    requires 0 < end <= |list|
    requires forall i :: 0 < i < end ==> SameBatch(list[0], list[i])
    ensures forall i :: 0 < i < RunEnd(list, end) ==> SameBatch(list[0], list[i])
    ensures RunEnd(list, end) < |list| ==> !SameBatch(list[0], list[RunEnd(list, end)])
    decreases |list| - end
  {
    if end < |list| && SameBatch(list[0], list[end]) {
      RunIsOneBatch(list, end + 1);
    }
  }

  lemma EntryStands(run: seq<Message>)
    requires run != [] && forall i :: 0 < i < |run| ==> SameBatch(run[0], run[i])
    ensures Stands(EntryFor(run), run) && Size(EntryFor(run)) == |run|
  {
    SortByExact(IndexOf, run);
    if |run| > 1 {
      assert SameBatch(run[0], run[1]);
      SortedAsPicked(run, SortBy(IndexOf, run));
    }
  }

  lemma SortedAsPicked(run: seq<Message>, sorted: seq<Message>)
    requires multiset(sorted) == multiset(run) && Ordered(IndexOf, sorted)
    requires forall i :: 0 <= i < |run| ==> run[i].batch.Some?
    ensures forall i, j :: 0 <= i < j < |sorted| ==> InPickedOrder(sorted[i], sorted[j])
  {
    SameMembers(sorted, run);
    forall i, j | 0 <= i < j < |sorted| ensures InPickedOrder(sorted[i], sorted[j]) {
      assert sorted[i] in run && sorted[j] in run && IndexOf(sorted[i]) <= IndexOf(sorted[j]);
    }
  }

  lemma FirstRunIsMaximal(list: seq<Message>)
    requires list != []
    ensures forall i :: 0 < i < FirstRun(list) ==> SameBatch(list[0], list[i])
    ensures FirstRun(list) < |list| ==> !SameBatch(list[0], list[FirstRun(list)])
  {
    RunIsOneBatch(list, 1);
  }

  /** Every message is in exactly one entry, in a maximal run of its batch and sender. */
  lemma {:induction false} GroupingIsFaithful(list: seq<Message>)
    ensures Cuts(Grouped(list), list)
    decreases |list|
  {
    if list != [] {
      var n := FirstRun(list);
      var run, rest := list[..n], list[n..];
      FirstRunIsMaximal(list);
      assert forall i :: 0 <= i < n ==> run[i] == list[i];
      EntryStands(run);
      GroupingIsFaithful(rest);
      assert Grouped(list) == [EntryFor(run)] + Grouped(rest);
      assert Grouped(list)[1..] == Grouped(rest);
    }
  }

  lemma StandsUnique(a: Entry, b: Entry, stretch: seq<Message>)
    requires Stands(a, stretch) && Stands(b, stretch)
    ensures a == b
  {
    if a.Album? {
      OrderedUnique(IndexOf, a.messages, b.messages);
    }
  }

  lemma StretchIsOneBatch(e: Entry, list: seq<Message>)
    requires 0 < Size(e) <= |list| && Stands(e, list[..Size(e)])
    ensures forall i :: 0 < i < Size(e) ==> SameBatch(list[0], list[i])
  {
    var stretch := list[..Size(e)];
    assert forall i :: 0 <= i < Size(e) ==> stretch[i] == list[i];
  }

  lemma StretchNotShorter(a: Entry, b: Entry, list: seq<Message>)
    requires 0 < Size(a) <= |list| && 0 < Size(b) <= |list| && Stands(b, list[..Size(b)])
    requires Size(a) < |list| ==> !SameBatch(list[0], list[Size(a)])
    ensures Size(b) <= Size(a)
  {
    StretchIsOneBatch(b, list);
  }

  /** There is only one way to cut a list so. */
  lemma {:induction false} CutsUnique(a: seq<Entry>, b: seq<Entry>, list: seq<Message>)
    requires Cuts(a, list) && Cuts(b, list)
    ensures a == b
    decreases |a|
  {
    if list != [] {
      StretchNotShorter(a[0], b[0], list);
      StretchNotShorter(b[0], a[0], list);
      StandsUnique(a[0], b[0], list[..Size(a[0])]);
      CutsUnique(a[1..], b[1..], list[Size(a[0])..]);
      assert a == [a[0]] + a[1..] && b == [b[0]] + b[1..];
    }
  }

  /** The messages of a thread, album by album. */
  function Contents(entries: seq<Entry>): seq<Message> {
    if entries == [] then []
    else
      (match entries[0]
       case Single(m) => [m]
       case Album(_, messages, _) => messages
       case Notice(_) => []) + Contents(entries[1..])
  }

  lemma {:induction false} CutsKeepEveryMessage(entries: seq<Entry>, list: seq<Message>)
    requires Cuts(entries, list)
    ensures multiset(Contents(entries)) == multiset(list)
    decreases |entries|
  {
    if entries != [] {
      var n := Size(entries[0]);
      CutsKeepEveryMessage(entries[1..], list[n..]);
      assert list == list[..n] + list[n..];
    }
  }

  /**
   * What an entry is drawn under: an album goes by the message its run starts with, so two runs of one
   * batch differ.
   */
  function KeyOf(e: Entry): Key {
    match e
    case Single(m) => MessageKey(m.id)
    case Album(first, _, _) => BatchKey(first)
    case Notice(event) => EventKey(event.id)
  }

  function IdOf(m: Message): int {
    m.id
  }

  lemma {:induction false} KeysComeFromTheList(entries: seq<Entry>, list: seq<Message>, i: nat) returns (at: nat)
    requires Cuts(entries, list) && i < |entries|
    ensures at < |list| && !entries[i].Notice?
    ensures KeyOf(entries[i]) == MessageKey(list[at].id) || KeyOf(entries[i]) == BatchKey(list[at].id)
    decreases |entries|
  {
    var n := Size(entries[0]);
    if i == 0 {
      at := 0;
      assert list[..n][0] == list[0];
    } else {
      var k := KeysComeFromTheList(entries[1..], list[n..], i - 1);
      at := n + k;
      assert list[n..][k] == list[at];
    }
  }

  /** No two entries of a thread share a key. */
  lemma {:induction false} KeysAreDistinct(entries: seq<Entry>, list: seq<Message>, i: nat, j: nat)
    requires Cuts(entries, list) && Distinct(IdOf, list) && i < j < |entries|
    ensures KeyOf(entries[i]) != KeyOf(entries[j])
    decreases |entries|
  {
    var n := Size(entries[0]);
    var rest := list[n..];
    assert forall a, b :: 0 <= a < b < |rest| ==> rest[a] == list[n + a] && rest[b] == list[n + b];
    if i > 0 {
      KeysAreDistinct(entries[1..], rest, i - 1, j - 1);
    } else {
      var k := KeysComeFromTheList(entries[1..], rest, j - 1);
      assert list[..n][0] == list[0] && rest[k] == list[n + k];
      assert IdOf(list[0]) != IdOf(list[n + k]);
    }
  }

  // ---------------------------------------------------------------------
  // Time
  // ---------------------------------------------------------------------

  lemma EntryWithin(e: Entry, stretch: seq<Message>)
    requires Stands(e, stretch)
    ensures stretch != [] && exists i :: 0 <= i < |stretch| && EntryTime(e) == stretch[i].createdAt
  {
    if e.Album? {
      assert e.messages[0] in multiset(stretch);
      var i :| 0 <= i < |stretch| && stretch[i] == e.messages[0];
    } else {
      assert stretch[0] == e.message;
    }
  }

  lemma TimesFollow(entries: seq<Entry>, from: int)
    requires entries != [] && EntryTime(entries[0]) <= from && Ordered(EntryTime, entries[1..])
    requires forall i :: 0 <= i < |entries| - 1 ==> from <= EntryTime(entries[1..][i])
    ensures Ordered(EntryTime, entries)
  {
    forall i, j | 0 <= i < j < |entries| ensures EntryTime(entries[i]) <= EntryTime(entries[j]) {
      assert entries[1..][j - 1] == entries[j];
      if i > 0 {
        assert entries[1..][i - 1] == entries[i];
      }
    }
  }

  lemma FirstEntryTime(e: Entry, list: seq<Message>)
    requires 0 < Size(e) <= |list| && Stands(e, list[..Size(e)]) && Ordered(CreatedAt, list)
    ensures list[0].createdAt <= EntryTime(e)
    ensures Size(e) < |list| ==> EntryTime(e) <= list[Size(e)].createdAt
  {
    EntryWithin(e, list[..Size(e)]);
    var at :| 0 <= at < Size(e) && EntryTime(e) == list[..Size(e)][at].createdAt;
    assert CreatedAt(list[0]) <= CreatedAt(list[at]);
    assert Size(e) < |list| ==> CreatedAt(list[at]) <= CreatedAt(list[Size(e)]);
  }

  /** Entry times stay within the list, from its first message on. */
  lemma {:induction false} CutsAreTimed(entries: seq<Entry>, list: seq<Message>)
    requires Cuts(entries, list) && Ordered(CreatedAt, list)
    ensures Ordered(EntryTime, entries)
    ensures list != [] ==> forall i :: 0 <= i < |entries| ==> list[0].createdAt <= EntryTime(entries[i])
    decreases |entries|
  {
    if entries != [] {
      var n := Size(entries[0]);
      var rest := list[n..];
      FirstEntryTime(entries[0], list);
      assert forall i :: 0 <= i < |rest| ==> rest[i] == list[n + i];
      CutsAreTimed(entries[1..], rest);
      if rest == [] {
        assert entries[1..] == [];
      } else {
        TimesFollow(entries, list[n].createdAt);
        assert CreatedAt(list[0]) <= CreatedAt(list[n]);
        forall i | 0 <= i < |entries| ensures list[0].createdAt <= EntryTime(entries[i]) {
          assert i > 0 ==> entries[1..][i - 1] == entries[i];
        }
      }
    }
  }

  // ---------------------------------------------------------------------
  // The thread
  // ---------------------------------------------------------------------

  function Notices(events: seq<Event>): seq<Entry> {
    if events == [] then [] else Notices(events[..|events| - 1]) + [Notice(events[|events| - 1])]
  }

  function ChatEntries(list: seq<Message>, events: seq<Event>): seq<Entry> {
    if events == [] then Grouped(list) else SortBy(EntryTime, Grouped(list) + Notices(events))
  }

  predicate FromMessages(e: Entry) {
    !e.Notice?
  }

  lemma {:induction false} CutsHoldNoNotice(entries: seq<Entry>, list: seq<Message>)
    requires Cuts(entries, list)
    ensures forall e :: e in entries ==> FromMessages(e)
    decreases |entries|
  {
    if entries != [] {
      CutsHoldNoNotice(entries[1..], list[Size(entries[0])..]);
      assert entries == [entries[0]] + entries[1..];
    }
  }

  lemma {:induction false} NoticesAreNotices(events: seq<Event>)
    ensures forall e :: e in Notices(events) ==> !FromMessages(e)
    ensures |Notices(events)| == |events|
  {
    if events != [] {
      NoticesAreNotices(events[..|events| - 1]);
    }
  }

  /**
   * Taking the notices out again leaves the grouped thread, with or without notices, exactly when its
   * entries are in time order.
   */
  lemma NoticesNeverDisturb(list: seq<Message>, events: seq<Event>)
    requires events != []
    ensures Keep(FromMessages, ChatEntries(list, events)) == Grouped(list) <==> Ordered(EntryTime, Grouped(list))
  {
    GroupingIsFaithful(list);
    CutsHoldNoNotice(Grouped(list), list);
    NoticesAreNotices(events);
    KeepEvery(FromMessages, Grouped(list));
    KeepNone(FromMessages, Notices(events));
    KeepConcat(FromMessages, Grouped(list), Notices(events));
    assert Keep(FromMessages, Grouped(list) + Notices(events)) == Grouped(list);
    PartLeftInPlace(EntryTime, FromMessages, Grouped(list) + Notices(events));
  }

  /** A list in time order reads as a thread in time order, message for message, whatever notices are merged in. */
  lemma ThreadIsFaithful(list: seq<Message>, events: seq<Event>)
    requires Ordered(CreatedAt, list)
    ensures Ordered(EntryTime, ChatEntries(list, events))
    ensures Keep(FromMessages, ChatEntries(list, events)) == Grouped(list)
    ensures multiset(Contents(Grouped(list))) == multiset(list)
    ensures |ChatEntries(list, events)| == |Grouped(list)| + |events|
  {
    GroupingIsFaithful(list);
    CutsAreTimed(Grouped(list), list);
    CutsKeepEveryMessage(Grouped(list), list);
    NoticesAreNotices(events);
    if events == [] {
      CutsHoldNoNotice(Grouped(list), list);
      KeepEvery(FromMessages, Grouped(list));
    } else {
      NoticesNeverDisturb(list, events);
      SortByExact(EntryTime, Grouped(list) + Notices(events));
    }
  }
}
