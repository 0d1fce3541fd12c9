/**
 * Trees given by parent links, as the vault stores them: every id maps to the
 * id of the folder holding it, or to nothing at the root. Links may dangle (the
 * row of a forgotten folder) and, unless proved otherwise, may form cycles.
 */
module ParentLinks {
  import opened Basics

  type Links = map<Id, Option<Id>>

  /** `x` reaches `root` by following exactly `n` parent links. */
  ghost predicate Under(p: Links, root: Id, x: Id, n: nat)
    decreases n
  {
    if n == 0 then x == root
    else x in p && p[x].Some? && Under(p, root, p[x].value, n - 1)
  }

  /** `x` is `root` or nested somewhere inside it. */
  ghost predicate InTree(p: Links, root: Id, x: Id) {
    exists n: nat :: Under(p, root, x, n)
  }

  /** No id is nested inside itself. */
  ghost predicate Acyclic(p: Links) {
    forall x :: x in p && p[x].Some? ==> !InTree(p, x, p[x].value)
  }

  /** The ids one link below `s` that `s` does not hold yet. */
  function Below(p: Links, s: set<Id>): set<Id> {
    set x | x in p && p[x].Some? && p[x].value in s && x !in s
  }

  /** What `WITH RECURSIVE tree` computes from the seed `s`: add children until there are none. */
  function Closure(p: Links, s: set<Id>): (t: set<Id>)
    ensures s <= t <= s + p.Keys
    ensures Below(p, t) == {}
    decreases p.Keys - s
  {
    if Below(p, s) == {} then s
    else
      assert Below(p, s) <= p.Keys - s;
      assert p.Keys - (s + Below(p, s)) < p.Keys - s by {
        var x :| x in Below(p, s);
        assert x in p.Keys - s && x !in p.Keys - (s + Below(p, s));
      }
      Closure(p, s + Below(p, s))
  }

  function Subtree(p: Links, root: Id): set<Id> {
    Closure(p, {root})
  }

  lemma UnderTransitive(p: Links, root: Id, y: Id, x: Id, n: nat, m: nat)
    requires Under(p, root, y, n) && Under(p, y, x, m)
    ensures Under(p, root, x, n + m)
    decreases m
  {
    if m > 0 {
      UnderTransitive(p, root, y, p[x].value, n, m - 1);
    }
  }

  lemma InTreeChild(p: Links, root: Id, x: Id)
    requires x in p && p[x].Some? && InTree(p, root, p[x].value)
    ensures InTree(p, root, x)
  {
    var n: nat :| Under(p, root, p[x].value, n);
    assert Under(p, root, x, n + 1);
  }

  /** A set no child is missing from contains everything nested in its members. */
  lemma {:induction false} ClosedContains(p: Links, t: set<Id>, root: Id, x: Id, n: nat)
    requires Below(p, t) == {} && root in t && Under(p, root, x, n)
    ensures x in t
    decreases n
  {
    if n > 0 {
      ClosedContains(p, t, root, p[x].value, n - 1);
      assert x in t || x in Below(p, t);
    }
  }

  lemma {:induction false} ClosureSound(p: Links, s: set<Id>, root: Id)
    requires forall x :: x in s ==> InTree(p, root, x)
    ensures forall x :: x in Closure(p, s) ==> InTree(p, root, x)
    decreases p.Keys - s
  {
    if Below(p, s) != {} {
      forall x | x in Below(p, s) ensures InTree(p, root, x) {
        InTreeChild(p, root, x);
      }
      assert p.Keys - (s + Below(p, s)) < p.Keys - s by {
        var x :| x in Below(p, s);
        assert x in p.Keys - s && x !in p.Keys - (s + Below(p, s));
      }
      ClosureSound(p, s + Below(p, s), root);
    }
  }

  /** The recursive query lists exactly the ids that reach `root`. */
  lemma {:induction false} SubtreeExact(p: Links, root: Id, x: Id)
    ensures x in Subtree(p, root) <==> InTree(p, root, x)
  {
    assert Under(p, root, root, 0);
    ClosureSound(p, {root}, root);
    if InTree(p, root, x) {
      var n: nat :| Under(p, root, x, n);
      ClosedContains(p, Subtree(p, root), root, x, n);
    }
  }

  /** Two link maps that agree away from `x`: climbing to `x` reads the same in both. */
  lemma {:induction false} ClimbToMoved(p: Links, q: Links, x: Id, y: Id, n: nat)
    requires forall z :: z != x ==> (z in p <==> z in q) && (z in p ==> p[z] == q[z])
    requires Under(q, x, y, n)
    ensures InTree(p, x, y)
    decreases n
  {
    if y == x {
      assert Under(p, x, y, 0);
    } else {
      ClimbToMoved(p, q, x, q[y].value, n - 1);
      InTreeChild(p, x, y);
    }
  }

  /** A climb in `q` either is a climb in `p` or passes through the id whose link changed. */
  lemma {:induction false} ClimbSplits(p: Links, q: Links, x: Id, root: Id, y: Id, n: nat)
    requires forall z :: z != x ==> (z in p <==> z in q) && (z in p ==> p[z] == q[z])
    requires Under(q, root, y, n)
    ensures InTree(p, root, y) || (InTree(q, x, y) && InTree(q, root, x))
    decreases n
  {
    if n == 0 {
      assert Under(p, root, y, 0);
    } else if y == x {
      assert Under(q, x, y, 0);
    } else {
      ClimbSplits(p, q, x, root, q[y].value, n - 1);
      if InTree(p, root, q[y].value) {
        InTreeChild(p, root, y);
      } else {
        InTreeChild(q, x, y);
      }
    }
  }

  /**
   * Hanging `x` under `y` keeps the links acyclic exactly when `y` is not inside `x`:
   * the guard the server evaluates in the move itself.
   */
  lemma {:induction false} RelinkAcyclic(p: Links, x: Id, y: Id)
    requires Acyclic(p)
    ensures Acyclic(p[x := Some(y)]) <==> !InTree(p, x, y)
  {
    var q := p[x := Some(y)];
    if InTree(p, x, y) {
      var n: nat :| Under(p, x, y, n);
      ClimbToMoved(q, p, x, y, n);
      assert q[x] == Some(y) && InTree(q, x, q[x].value);
    } else {
      forall z | z in q && q[z].Some? ensures !InTree(q, z, q[z].value) {
        if InTree(q, z, q[z].value) {
          var n: nat :| Under(q, z, q[z].value, n);
          if z == x {
            ClimbToMoved(p, q, x, y, n);
            assert false;
          }
          ClimbSplits(p, q, x, z, q[z].value, n);
          assert !InTree(p, z, p[z].value);
          // The cycle passes through x: from y it climbs to z and on to x again.
          assert InTree(q, z, x);
          var k: nat :| Under(q, z, x, k);
          assert k > 0 && Under(q, z, y, k - 1);
          InTreeChild(q, x, z);
          var m: nat :| Under(q, x, z, m);
          UnderTransitive(q, x, z, y, m, k - 1);
          ClimbToMoved(p, q, x, y, m + k - 1);
          assert false;
        }
      }
    }
  }

  /** Cutting a link, or dropping ids, never creates a cycle. */
  lemma {:induction false} ClimbInLarger(p: Links, q: Links, root: Id, y: Id, n: nat)
    requires forall z :: z in q && q[z].Some? ==> z in p && p[z] == q[z]
    requires Under(q, root, y, n)
    ensures Under(p, root, y, n)
    decreases n
  {
    if n > 0 {
      ClimbInLarger(p, q, root, q[y].value, n - 1);
    }
  }

  lemma UnlinkAcyclic(p: Links, q: Links)
    requires Acyclic(p)
    requires forall z :: z in q && q[z].Some? ==> z in p && p[z] == q[z]
    ensures Acyclic(q)
  {
    forall x | x in q && q[x].Some? ensures !InTree(q, x, q[x].value) {
      if InTree(q, x, q[x].value) {
        var n: nat :| Under(q, x, q[x].value, n);
        ClimbInLarger(p, q, x, q[x].value, n);
      }
    }
  }
}
