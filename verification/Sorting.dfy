/**
 * The stable sort the JavaScript runtime gives every `sort` by a numeric key, as a function,
 * with what callers rely on: ordered, nothing added or lost, equal keys left in place.
 */
module Sorting {

  ghost predicate Ordered<T>(key: T -> int, s: seq<T>) {
    forall i, j :: 0 <= i < j < |s| ==> key(s[i]) <= key(s[j])
  }

  /** The elements of `s` with one key, in the order they appear. */
  function Only<T>(key: T -> int, k: int, s: seq<T>): seq<T> {
    if s == [] then []
    else Only(key, k, s[..|s| - 1]) + (if key(s[|s| - 1]) == k then [s[|s| - 1]] else [])
  }

  /** `x` goes behind every element that is not larger. */
  function Insert<T>(key: T -> int, s: seq<T>, x: T): seq<T> {
    if s == [] || key(s[|s| - 1]) <= key(x) then s + [x]
    else Insert(key, s[..|s| - 1], x) + [s[|s| - 1]]
  }

  function SortBy<T>(key: T -> int, s: seq<T>): seq<T> {
    if s == [] then [] else Insert(key, SortBy(key, s[..|s| - 1]), s[|s| - 1])
  }

  lemma OnlyAppend<T>(key: T -> int, k: int, s: seq<T>, x: T)
    ensures Only(key, k, s + [x]) == Only(key, k, s) + (if key(x) == k then [x] else [])
  {
    assert (s + [x])[..|s|] == s;
  }

  lemma {:induction false} OnlyNone<T>(key: T -> int, k: int, s: seq<T>)
    requires forall i :: 0 <= i < |s| ==> key(s[i]) != k
    ensures Only(key, k, s) == []
  {
    if s != [] {
      OnlyNone(key, k, s[..|s| - 1]);
    }
  }

  lemma {:induction false} InsertContents<T>(key: T -> int, s: seq<T>, x: T)
    ensures multiset(Insert(key, s, x)) == multiset(s) + multiset{x}
    ensures |Insert(key, s, x)| == |s| + 1
  {
    if s != [] && key(s[|s| - 1]) > key(x) {
      InsertContents(key, s[..|s| - 1], x);
      assert s == s[..|s| - 1] + [s[|s| - 1]];
    }
  }

  /** The members of a sequence are those of its multiset. */
  lemma SameMembers<T>(a: seq<T>, b: seq<T>)
    requires multiset(a) == multiset(b)
    ensures forall x :: x in a <==> x in b
  {
    forall x ensures x in a <==> x in b {
      assert x in a <==> x in multiset(a);
      assert x in b <==> x in multiset(b);
    }
  }

  lemma {:induction false} InsertOrdered<T>(key: T -> int, s: seq<T>, x: T)
    requires Ordered(key, s)
    ensures Ordered(key, Insert(key, s, x))
  {
    if s != [] && key(s[|s| - 1]) > key(x) {
      var init, last := s[..|s| - 1], s[|s| - 1];
      InsertOrdered(key, init, x);
      InsertContents(key, init, x);
      var r := Insert(key, init, x);
      forall i | 0 <= i < |r| ensures key(r[i]) <= key(last) {
        assert r[i] in multiset(r);
        assert r[i] == x || r[i] in init;
      }
    }
  }

  lemma {:induction false} InsertStable<T>(key: T -> int, s: seq<T>, x: T, k: int)
    ensures Only(key, k, Insert(key, s, x)) == Only(key, k, s) + (if key(x) == k then [x] else [])
  {
    if s == [] || key(s[|s| - 1]) <= key(x) {
      OnlyAppend(key, k, s, x);
    } else {
      var init, last := s[..|s| - 1], s[|s| - 1];
      InsertStable(key, init, x, k);
      OnlyAppend(key, k, Insert(key, init, x), last);
    }
  }

  /** Sorting orders, keeps the elements, and keeps the order of elements with one key. */
  lemma {:induction false} SortByExact<T>(key: T -> int, s: seq<T>)
    ensures Ordered(key, SortBy(key, s))
    ensures multiset(SortBy(key, s)) == multiset(s) && |SortBy(key, s)| == |s|
    ensures forall k :: Only(key, k, SortBy(key, s)) == Only(key, k, s)
  {
    if s != [] {
      var init, last := s[..|s| - 1], s[|s| - 1];
      SortByExact(key, init);
      InsertContents(key, SortBy(key, init), last);
      InsertOrdered(key, SortBy(key, init), last);
      assert s == init + [last];
      forall k ensures Only(key, k, SortBy(key, s)) == Only(key, k, s) {
        InsertStable(key, SortBy(key, init), last, k);
        OnlyAppend(key, k, SortBy(key, init), last);
        OnlyAppend(key, k, init, last);
      }
    }
  }

  /** An ordered sequence is left alone. */
  lemma {:induction false} SortOfOrdered<T>(key: T -> int, s: seq<T>)
    requires Ordered(key, s)
    ensures SortBy(key, s) == s
  {
    if s != [] {
      SortOfOrdered(key, s[..|s| - 1]);
      assert s == s[..|s| - 1] + [s[|s| - 1]];
    }
  }

  ghost predicate Distinct<T>(key: T -> int, s: seq<T>) {
    forall i, j :: 0 <= i < j < |s| ==> key(s[i]) != key(s[j])
  }

  lemma {:induction false} OnceCounts<T>(key: T -> int, s: seq<T>, x: T)
    requires Distinct(key, s)
    ensures multiset(s)[x] <= 1
  {
    if s != [] {
      var init, last := s[..|s| - 1], s[|s| - 1];
      OnceCounts(key, init, x);
      assert s == init + [last];
      assert forall i :: 0 <= i < |init| ==> init[i] != last;
    }
  }

  lemma TwiceCounts<T>(s: seq<T>, i: nat, j: nat)
    requires i < j < |s| && s[i] == s[j]
    ensures multiset(s)[s[i]] >= 2
  {
    assert s == s[..j] + s[j..];
    assert s[..j][i] == s[i] && s[j..][0] == s[i];
    assert s[i] in multiset(s[..j]) && s[i] in multiset(s[j..]);
  }

  /** Distinct keys stay distinct however the elements are rearranged. */
  lemma DistinctPermutes<T>(key: T -> int, a: seq<T>, b: seq<T>)
    requires Distinct(key, a) && multiset(a) == multiset(b)
    ensures Distinct(key, b)
  {
    SameMembers(a, b);
    forall i, j | 0 <= i < j < |b| ensures key(b[i]) != key(b[j]) {
      OnceCounts(key, a, b[i]);
      if b[i] == b[j] {
        TwiceCounts(b, i, j);
        assert false;
      }
      assert b[i] in a && b[j] in a;
    }
  }

  // ---------------------------------------------------------------------
  // What is left in place
  // ---------------------------------------------------------------------

  function Keep<T>(wanted: T -> bool, s: seq<T>): seq<T> {
    if s == [] then []
    else Keep(wanted, s[..|s| - 1]) + (if wanted(s[|s| - 1]) then [s[|s| - 1]] else [])
  }

  lemma KeepAppend<T>(wanted: T -> bool, s: seq<T>, x: T)
    ensures Keep(wanted, s + [x]) == Keep(wanted, s) + (if wanted(x) then [x] else [])
  {
    assert (s + [x])[..|s|] == s;
  }

  lemma {:induction false} KeepMembers<T>(wanted: T -> bool, s: seq<T>)
    ensures forall x :: x in Keep(wanted, s) ==> x in s && wanted(x)
    ensures forall x :: x in s && wanted(x) ==> x in Keep(wanted, s)
  {
    if s != [] {
      KeepMembers(wanted, s[..|s| - 1]);
      assert s == s[..|s| - 1] + [s[|s| - 1]];
    }
  }

  lemma {:induction false} KeepDistinct<T>(key: T -> int, wanted: T -> bool, s: seq<T>)
    requires Distinct(key, s)
    ensures Distinct(key, Keep(wanted, s))
  {
    if s != [] {
      var init, last := s[..|s| - 1], s[|s| - 1];
      KeepDistinct(key, wanted, init);
      KeepMembers(wanted, init);
      forall i | 0 <= i < |Keep(wanted, init)| ensures key(Keep(wanted, init)[i]) != key(last) {
        var x := Keep(wanted, init)[i];
        assert x in Keep(wanted, init) && x in init;
      }
    }
  }

  lemma {:induction false} KeepOrdered<T>(key: T -> int, wanted: T -> bool, s: seq<T>)
    requires Ordered(key, s)
    ensures Ordered(key, Keep(wanted, s))
  {
    if s != [] {
      var init, last := s[..|s| - 1], s[|s| - 1];
      KeepOrdered(key, wanted, init);
      KeepMembers(wanted, init);
      forall i | 0 <= i < |Keep(wanted, init)| ensures key(Keep(wanted, init)[i]) <= key(last) {
        var x := Keep(wanted, init)[i];
        assert x in Keep(wanted, init) && x in init;
      }
    }
  }

  /** Picking by key and picking by wish commute. */
  lemma {:induction false} OnlyKeep<T>(key: T -> int, wanted: T -> bool, k: int, s: seq<T>)
    ensures Only(key, k, Keep(wanted, s)) == Keep(wanted, Only(key, k, s))
  {
    if s != [] {
      var init, last := s[..|s| - 1], s[|s| - 1];
      OnlyKeep(key, wanted, k, init);
      OnlyAppend(key, k, Keep(wanted, init), last);
      KeepAppend(wanted, Only(key, k, init), last);
      assert Keep(wanted, s) == if wanted(last) then Keep(wanted, init) + [last] else Keep(wanted, init);
      assert Only(key, k, s) == if key(last) == k then Only(key, k, init) + [last] else Only(key, k, init);
    }
  }

  /** The last element of an ordered sequence is the last of those with its key. */
  lemma OnlyLast<T>(key: T -> int, s: seq<T>)
    requires s != []
    ensures var k := key(s[|s| - 1]); Only(key, k, s) != [] && Only(key, k, s)[|Only(key, k, s)| - 1] == s[|s| - 1]
  {
  }

  lemma {:induction false} OnlyMember<T>(key: T -> int, k: int, s: seq<T>)
    ensures forall x :: x in Only(key, k, s) ==> x in s && key(x) == k
    ensures Only(key, k, s) == [] ==> forall x :: x in s ==> key(x) != k
  {
    if s != [] {
      OnlyMember(key, k, s[..|s| - 1]);
      assert s == s[..|s| - 1] + [s[|s| - 1]];
    }
  }

  ghost predicate SameByKey<T>(key: T -> int, a: seq<T>, b: seq<T>) {
    forall k :: Only(key, k, a) == Only(key, k, b)
  }

  lemma LastNotLater<T>(key: T -> int, a: seq<T>, b: seq<T>)
    requires Ordered(key, b) && SameByKey(key, a, b) && a != []
    ensures b != [] && key(a[|a| - 1]) <= key(b[|b| - 1])
  {
    var k := key(a[|a| - 1]);
    OnlyLast(key, a);
    assert Only(key, k, a) == Only(key, k, b);
    OnlyMember(key, k, b);
    var x := Only(key, k, b)[0];
    assert x in Only(key, k, b);
    assert x in b;
  }

  /** An ordered sequence is determined by the order within each key. */
  lemma {:induction false} OrderedUnique<T>(key: T -> int, a: seq<T>, b: seq<T>)
    requires Ordered(key, a) && Ordered(key, b) && SameByKey(key, a, b)
    ensures a == b
    decreases |a|
  {
    if a == [] {
      if b != [] {
        LastNotLater(key, b, a);
        assert false;
      }
    } else {
      LastNotLater(key, a, b);
      LastNotLater(key, b, a);
      OnlyLast(key, a);
      OnlyLast(key, b);
      var x := a[|a| - 1];
      assert Only(key, key(x), a) == Only(key, key(x), b);
      assert b[|b| - 1] == x;
      var a', b' := a[..|a| - 1], b[..|b| - 1];
      assert a == a' + [x] && b == b' + [x];
      forall k ensures Only(key, k, a') == Only(key, k, b') {
        assert Only(key, k, a) == Only(key, k, b);
        OnlyAppend(key, k, a', x);
        OnlyAppend(key, k, b', x);
        var n := if key(x) == k then 1 else 0;
        assert Only(key, k, a') == Only(key, k, a)[..|Only(key, k, a)| - n];
        assert Only(key, k, b') == Only(key, k, b)[..|Only(key, k, b)| - n];
      }
      OrderedUnique(key, a', b');
    }
  }

  /** A stable sort leaves a part of the sequence as it reads exactly when that part was in order. */
  lemma PartLeftInPlace<T>(key: T -> int, wanted: T -> bool, s: seq<T>)
    ensures Keep(wanted, SortBy(key, s)) == Keep(wanted, s) <==> Ordered(key, Keep(wanted, s))
  {
    SortByExact(key, s);
    KeepOrdered(key, wanted, SortBy(key, s));
    if Ordered(key, Keep(wanted, s)) {
      forall k ensures Only(key, k, Keep(wanted, SortBy(key, s))) == Only(key, k, Keep(wanted, s)) {
        OnlyKeep(key, wanted, k, SortBy(key, s));
        OnlyKeep(key, wanted, k, s);
      }
      OrderedUnique(key, Keep(wanted, SortBy(key, s)), Keep(wanted, s));
    }
  }

  lemma {:induction false} KeepConcat<T>(wanted: T -> bool, a: seq<T>, b: seq<T>)
    ensures Keep(wanted, a + b) == Keep(wanted, a) + Keep(wanted, b)
    decreases |b|
  {
    if b == [] {
      assert a + b == a;
    } else {
      var init, last := b[..|b| - 1], b[|b| - 1];
      KeepConcat(wanted, a, init);
      assert a + b == (a + init) + [last];
      KeepAppend(wanted, a + init, last);
    }
  }

  lemma {:induction false} KeepEvery<T>(wanted: T -> bool, s: seq<T>)
    requires forall i :: 0 <= i < |s| ==> wanted(s[i])
    ensures Keep(wanted, s) == s
  {
    if s != [] {
      KeepEvery(wanted, s[..|s| - 1]);
    }
  }

  lemma {:induction false} KeepNone<T>(wanted: T -> bool, s: seq<T>)
    requires forall i :: 0 <= i < |s| ==> !wanted(s[i])
    ensures Keep(wanted, s) == []
  {
    if s != [] {
      KeepNone(wanted, s[..|s| - 1]);
    }
  }
}
