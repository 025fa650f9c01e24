/** The order both alert lists are sorted into: higher rank first, then earlier due date;
    `Array.prototype.sort` is stable, so alerts that tie on both keys keep their order. */
module StableSort {
  import opened Seqs

  /** `a` may come before `b`: the comparator returns a value `<= 0` for (a, b). */
  predicate Precedes<T>(rank: T -> int, due: T -> int, a: T, b: T) {
    rank(a) > rank(b) || (rank(a) == rank(b) && due(a) <= due(b))
  }

  /** `a` must come before `b`: the comparator returns a negative value for (a, b). */
  predicate StrictlyPrecedes<T>(rank: T -> int, due: T -> int, a: T, b: T) {
    rank(a) > rank(b) || (rank(a) == rank(b) && due(a) < due(b))
  }

  /** `a` and `b` tie on both keys: the comparator returns 0. */
  predicate Tie<T>(rank: T -> int, due: T -> int, a: T, b: T) {
    rank(a) == rank(b) && due(a) == due(b)
  }

  ghost predicate Sorted<T>(rank: T -> int, due: T -> int, s: seq<T>) {
    forall i, j :: 0 <= i < j < |s| ==> Precedes(rank, due, s[i], s[j])
  }

  /** The elements of `s` that tie with `x`, in their order in `s`. */
  function Ties<T>(rank: T -> int, due: T -> int, s: seq<T>, x: T): seq<T> {
    if s == [] then []
    else (if Tie(rank, due, s[0], x) then [s[0]] else []) + Ties(rank, due, s[1..], x)
  }

  /** `s` is a stable rearrangement of `t`: each group of tying elements keeps its order. */
  ghost predicate SameTies<T(!new)>(rank: T -> int, due: T -> int, s: seq<T>, t: seq<T>) {
    forall x :: Ties(rank, due, s, x) == Ties(rank, due, t, x)
  }

  /** Places `x` after every element of the sorted `s` that it does not strictly precede. */
  function Insert<T>(rank: T -> int, due: T -> int, x: T, s: seq<T>): seq<T> {
    if s == [] || StrictlyPrecedes(rank, due, x, s[0]) then [x] + s
    else [s[0]] + Insert(rank, due, x, s[1..])
  }

  lemma {:induction false} TiesAppend<T>(rank: T -> int, due: T -> int, a: seq<T>, b: seq<T>, x: T)
    ensures Ties(rank, due, a + b, x) == Ties(rank, due, a, x) + Ties(rank, due, b, x)
  {
    if a == [] {
      assert a + b == b;
    } else {
      var head := if Tie(rank, due, a[0], x) then [a[0]] else [];
      assert (a + b)[0] == a[0] && (a + b)[1..] == a[1..] + b;
      TiesAppend(rank, due, a[1..], b, x);
      assert Ties(rank, due, a + b, x) == head + Ties(rank, due, a[1..] + b, x);
      assert Ties(rank, due, a, x) == head + Ties(rank, due, a[1..], x);
    }
  }

  lemma {:induction false} InsertMultiset<T>(rank: T -> int, due: T -> int, x: T, s: seq<T>)
    ensures multiset(Insert(rank, due, x, s)) == multiset(s) + multiset{x}
  {
    if s != [] && !StrictlyPrecedes(rank, due, x, s[0]) {
      InsertMultiset(rank, due, x, s[1..]);
      assert s == [s[0]] + s[1..];
    }
  }

  /** Every element of `Insert(x, s)` is `x` or an element of `s`. */
  lemma InsertMembers<T>(rank: T -> int, due: T -> int, x: T, s: seq<T>, y: T)
    requires y in Insert(rank, due, x, s)
    ensures y == x || y in s
  {
    InsertMultiset(rank, due, x, s);
    assert y in multiset(Insert(rank, due, x, s));
  }

  lemma {:induction false} InsertSorted<T>(rank: T -> int, due: T -> int, x: T, s: seq<T>)
    requires Sorted(rank, due, s)
    ensures Sorted(rank, due, Insert(rank, due, x, s))
  {
    if s != [] && !StrictlyPrecedes(rank, due, x, s[0]) {
      var t := s[1..];
      InsertSorted(rank, due, x, t);
      var rt := Insert(rank, due, x, t);
      var r := [s[0]] + rt;
      assert forall y :: y in t ==> Precedes(rank, due, s[0], y);
      forall y | y in rt ensures Precedes(rank, due, s[0], y) {
        InsertMembers(rank, due, x, t, y);
      }
      forall i, j | 0 <= i < j < |r| ensures Precedes(rank, due, r[i], r[j]) {
        if i == 0 {
          assert r[j] in rt;
        } else {
          assert r[i] == rt[i - 1] && r[j] == rt[j - 1];
        }
      }
    }
  }

  lemma {:induction false} InsertTies<T>(rank: T -> int, due: T -> int, x: T, s: seq<T>, y: T)
    requires Sorted(rank, due, s)
    ensures Ties(rank, due, Insert(rank, due, x, s), y) == Ties(rank, due, s + [x], y)
  {
    TiesAppend(rank, due, s, [x], y);
    if s == [] {
      assert [x] + s == [x];
    } else if StrictlyPrecedes(rank, due, x, s[0]) {
      TiesAppend(rank, due, [x], s, y);
      if Tie(rank, due, x, y) {
        // nothing in s ties with x: all of s comes strictly after it
        NoTiesAfter(rank, due, x, s, y);
      }
    } else {
      var t := s[1..];
      assert Sorted(rank, due, t);
      InsertTies(rank, due, x, t, y);
      TiesAppend(rank, due, [s[0]], Insert(rank, due, x, t), y);
      TiesAppend(rank, due, [s[0]], t, y);
      TiesAppend(rank, due, t, [x], y);
      assert s == [s[0]] + t;
    }
  }

  lemma {:induction false} NoTiesAfter<T>(rank: T -> int, due: T -> int, x: T, s: seq<T>, y: T)
    requires Sorted(rank, due, s) && s != []
    requires StrictlyPrecedes(rank, due, x, s[0]) && Tie(rank, due, x, y)
    ensures Ties(rank, due, s, y) == []
  {
    if |s| > 1 {
      assert Precedes(rank, due, s[0], s[1]);
      assert Sorted(rank, due, s[1..]);
      NoTiesAfter(rank, due, x, s[1..], y);
    }
  }

  /** Stable insertion sort by the two keys. */
  function Sort<T(!new)>(rank: T -> int, due: T -> int, s: seq<T>): (r: seq<T>)
    ensures Sorted(rank, due, r)
    ensures multiset(r) == multiset(s)
    ensures SameTies(rank, due, r, s)
  {
    if s == [] then []
    else
      var init, last := s[..|s| - 1], s[|s| - 1];
      var sorted := Sort(rank, due, init);
      InsertSorted(rank, due, last, sorted);
      InsertMultiset(rank, due, last, sorted);
      assert s == init + [last];
      assert multiset(s) == multiset(init) + multiset{last};
      var r := Insert(rank, due, last, sorted);
      assert SameTies(rank, due, r, s) by {
        forall y ensures Ties(rank, due, r, y) == Ties(rank, due, s, y) {
          InsertTies(rank, due, last, sorted, y);
          TiesAppend(rank, due, sorted, [last], y);
          TiesAppend(rank, due, init, [last], y);
        }
      }
      r
  }

  /** A sorted permutation has the same length as its input. */
  lemma SortLength<T(!new)>(rank: T -> int, due: T -> int, s: seq<T>)
    ensures |Sort(rank, due, s)| == |s|
  {
    assert |multiset(Sort(rank, due, s))| == |multiset(s)|;
  }

  lemma {:induction false} InsertDistinct<T, K>(rank: T -> int, due: T -> int, key: T -> K, x: T, t: seq<T>)
    requires DistinctBy(key, t)
    requires forall y :: y in t ==> key(y) != key(x)
    ensures DistinctBy(key, Insert(rank, due, x, t))
  {
    var r := Insert(rank, due, x, t);
    if t == [] || StrictlyPrecedes(rank, due, x, t[0]) {
      assert r == [x] + t;
      forall i, j | 0 <= i < j < |r| ensures key(r[i]) != key(r[j]) {
        assert r[j] == t[j - 1];
        if i > 0 {
          assert r[i] == t[i - 1];
        }
      }
    } else {
      var u := t[1..];
      InsertDistinct(rank, due, key, x, u);
      var ru := Insert(rank, due, x, u);
      assert r == [t[0]] + ru;
      forall y | y in ru ensures key(y) != key(t[0]) {
        InsertMembers(rank, due, x, u, y);
        if y in u {
          var k :| 0 <= k < |u| && u[k] == y;
          assert t[k + 1] == y;
        }
      }
      forall i, j | 0 <= i < j < |r| ensures key(r[i]) != key(r[j]) {
        assert r[j] == ru[j - 1] && r[j] in ru;
        if i > 0 {
          assert r[i] == ru[i - 1];
        }
      }
    }
  }

  /** Sorting keeps keys distinct: it neither duplicates nor merges elements. */
  lemma {:induction false} SortDistinct<T(!new), K>(rank: T -> int, due: T -> int, key: T -> K, s: seq<T>)
    requires DistinctBy(key, s)
    ensures DistinctBy(key, Sort(rank, due, s))
  {
    if s != [] {
      var init, last := s[..|s| - 1], s[|s| - 1];
      SortDistinct(rank, due, key, init);
      var sorted := Sort(rank, due, init);
      forall y | y in sorted ensures key(y) != key(last) {
        assert y in multiset(sorted);
        assert y in multiset(init);
        var k :| 0 <= k < |init| && init[k] == y;
        assert s[k] == y;
      }
      InsertDistinct(rank, due, key, last, sorted);
    }
  }
}
