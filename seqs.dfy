/** The array operations the components use: `filter`, `filter(...).length`, and pushing
    what each record yields in a `forEach`. */
module Seqs {

  /** `r` is `s` with some elements dropped and the rest in their original order. */
  ghost predicate IsSubsequence<T>(r: seq<T>, s: seq<T>)
    decreases |s|
  {
    if r == [] then true
    else if s == [] then false
    else if r[0] == s[0] then IsSubsequence(r[1..], s[1..])
    else IsSubsequence(r, s[1..])
  }

  /** `s.filter(p)`. */
  function Filter<T(!new)>(s: seq<T>, p: T -> bool): (r: seq<T>)
    ensures |r| <= |s|
    ensures forall x :: x in r <==> x in s && p(x)
  {
    if s == [] then []
    else (if p(s[0]) then [s[0]] else []) + Filter(s[1..], p)
  }

  lemma {:induction false} FilterIsSubsequence<T(!new)>(s: seq<T>, p: T -> bool)
    ensures IsSubsequence(Filter(s, p), s)
  {
    if s != [] {
      FilterIsSubsequence(s[1..], p);
      var r := Filter(s, p);
      if p(s[0]) {
        assert r[0] == s[0] && r[1..] == Filter(s[1..], p);
      } else {
        assert r == Filter(s[1..], p);
        SubsequenceOfTail(r, s);
      }
    }
  }

  /** A subsequence of the tail of `s` is a subsequence of `s`. */
  lemma {:induction false} SubsequenceOfTail<T>(r: seq<T>, s: seq<T>)
    requires s != [] && IsSubsequence(r, s[1..])
    ensures IsSubsequence(r, s)
    decreases |r| + |s|
  {
    if r != [] && r[0] == s[0] {
      // r[1..] is a subsequence of r, which is one of s[1..]
      SubsequenceDropFirst(r, s[1..]);
    }
  }

  lemma {:induction false} SubsequenceDropFirst<T>(r: seq<T>, s: seq<T>)
    requires r != [] && IsSubsequence(r, s)
    ensures IsSubsequence(r[1..], s)
    decreases |r| + |s|
  {
    assert s != [];
    if r[0] == s[0] {
      if r[1..] != [] {
        SubsequenceOfTail(r[1..], s);
      }
    } else {
      SubsequenceDropFirst(r, s[1..]);
      if r[1..] != [] {
        SubsequenceOfTail(r[1..], s);
      }
    }
  }

  /** Filtering with every element kept is the identity. */
  lemma {:induction false} FilterAll<T(!new)>(s: seq<T>, p: T -> bool)
    requires forall x :: x in s ==> p(x)
    ensures Filter(s, p) == s
  {
    if s != [] {
      FilterAll(s[1..], p);
    }
  }

  /** Filtering twice is filtering once by the conjunction. */
  lemma {:induction false} FilterFuse<T(!new)>(s: seq<T>, p: T -> bool, q: T -> bool, both: T -> bool)
    requires forall x :: both(x) == (p(x) && q(x))
    ensures Filter(Filter(s, p), q) == Filter(s, both)
  {
    if s != [] {
      FilterFuse(s[1..], p, q, both);
      var fp := Filter(s, p);
      if p(s[0]) {
        assert fp == [s[0]] + Filter(s[1..], p);
        assert fp[0] == s[0] && fp[1..] == Filter(s[1..], p);
      } else {
        assert fp == Filter(s[1..], p);
      }
    }
  }

  /** Predicates that agree everywhere filter alike. */
  lemma {:induction false} FilterSame<T(!new)>(s: seq<T>, p: T -> bool, q: T -> bool)
    requires forall x :: p(x) == q(x)
    ensures Filter(s, p) == Filter(s, q)
  {
    if s != [] {
      FilterSame(s[1..], p, q);
    }
  }

  lemma {:induction false} FilterAppend<T(!new)>(a: seq<T>, b: seq<T>, p: T -> bool)
    ensures Filter(a + b, p) == Filter(a, p) + Filter(b, p)
  {
    if a == [] {
      assert a + b == b;
    } else {
      assert (a + b)[1..] == a[1..] + b;
      FilterAppend(a[1..], b, p);
    }
  }

  /** `s.filter(p).length`. */
  function Count<T(!new)>(s: seq<T>, p: T -> bool): nat {
    |Filter(s, p)|
  }

  lemma {:induction false} CountAppend<T(!new)>(a: seq<T>, b: seq<T>, p: T -> bool)
    ensures Count(a + b, p) == Count(a, p) + Count(b, p)
  {
    FilterAppend(a, b, p);
  }

  /** Counts of pairwise exclusive predicates add up to at most the length, and to exactly
      the length when every element satisfies one of them. */
  lemma {:induction false} CountTwo<T(!new)>(s: seq<T>, p: T -> bool, q: T -> bool)
    requires forall x :: !(p(x) && q(x))
    ensures Count(s, p) + Count(s, q) <= |s|
    ensures (forall x :: p(x) || q(x)) ==> Count(s, p) + Count(s, q) == |s|
  {
    if s != [] {
      CountTwo(s[1..], p, q);
    }
  }

  lemma {:induction false} CountFour<T(!new)>(s: seq<T>, p: T -> bool, q: T -> bool, r: T -> bool, u: T -> bool)
    requires forall x :: !(p(x) && q(x)) && !(p(x) && r(x)) && !(q(x) && r(x))
    requires forall x :: !(u(x) && p(x)) && !(u(x) && q(x)) && !(u(x) && r(x))
    requires forall x :: p(x) || q(x) || r(x) || u(x)
    ensures Count(s, p) + Count(s, q) + Count(s, r) + Count(s, u) == |s|
  {
    if s != [] {
      CountFour(s[1..], p, q, r, u);
    }
  }

  /** The elements each of `s` yields, concatenated in order: a `forEach` that pushes
      what `f` produces for each element. */
  function Gather<T, A>(s: seq<T>, f: T -> seq<A>): seq<A>
  {
    if s == [] then [] else Gather(s[..|s| - 1], f) + f(s[|s| - 1])
  }

  lemma GatherStep<T, A>(s: seq<T>, i: nat, f: T -> seq<A>)
    requires i < |s|
    ensures Gather(s[..i + 1], f) == Gather(s[..i], f) + f(s[i])
  {
    assert s[..i + 1][..i] == s[..i];
  }

  /** When each element yields at most one item, there are at most as many items as elements. */
  lemma {:induction false} GatherAtMostOne<T(!new), A>(s: seq<T>, f: T -> seq<A>)
    requires forall x :: |f(x)| <= 1
    ensures |Gather(s, f)| <= |s|
  {
    if s != [] {
      GatherAtMostOne(s[..|s| - 1], f);
    }
  }

  /** Two gatherings over the same elements, where no element yields in both, have at most
      as many items together as there are elements. */
  lemma {:induction false} GatherExclusive<T(!new), A>(s: seq<T>, f: T -> seq<A>, g: T -> seq<A>)
    requires forall x :: |f(x)| <= 1 && |g(x)| <= 1 && (f(x) == [] || g(x) == [])
    ensures |Gather(s, f)| + |Gather(s, g)| <= |s|
  {
    if s != [] {
      GatherExclusive(s[..|s| - 1], f, g);
    }
  }

  /** Every gathered item comes from some element, and every item an element yields is gathered. */
  lemma {:induction false} GatherMembers<T(!new), A>(s: seq<T>, f: T -> seq<A>, a: A)
    ensures a in Gather(s, f) <==> exists x :: x in s && a in f(x)
  {
    if s != [] {
      var init := s[..|s| - 1];
      GatherMembers(init, f, a);
      assert s == init + [s[|s| - 1]];
      if a in Gather(s, f) {
        if a !in Gather(init, f) {
          assert a in f(s[|s| - 1]);
        }
      }
      if exists x :: x in s && a in f(x) {
        var x :| x in s && a in f(x);
        if x !in init {
          assert x == s[|s| - 1];
        }
      }
    }
  }

  /** No two elements of `s` share a key. */
  ghost predicate DistinctBy<T, K>(key: T -> K, s: seq<T>) {
    forall i, j :: 0 <= i < j < |s| ==> key(s[i]) != key(s[j])
  }

  lemma DistinctAppend<T, K>(key: T -> K, a: seq<T>, b: seq<T>)
    requires DistinctBy(key, a) && DistinctBy(key, b)
    requires forall x, y :: x in a && y in b ==> key(x) != key(y)
    ensures DistinctBy(key, a + b)
  {
    forall i, j | 0 <= i < j < |a + b| ensures key((a + b)[i]) != key((a + b)[j]) {
      if j >= |a| {
        assert (a + b)[j] == b[j - |a|];
        if i < |a| {
          assert (a + b)[i] == a[i];
        } else {
          assert (a + b)[i] == b[i - |a|];
        }
      }
    }
  }

  /** Items gathered from elements with distinct keys have distinct keys, when each element
      yields at most one item and an item's key determines its element's key. */
  lemma {:induction false} GatherDistinct<T(!new), A(!new), K, L>(s: seq<T>, f: T -> seq<A>, elemKey: T -> K, itemKey: A -> L)
    requires DistinctBy(elemKey, s)
    requires forall x :: |f(x)| <= 1
    requires forall x, y, a, b :: a in f(x) && b in f(y) && itemKey(a) == itemKey(b) ==> elemKey(x) == elemKey(y)
    ensures DistinctBy(itemKey, Gather(s, f))
  {
    if s != [] {
      var init, last := s[..|s| - 1], s[|s| - 1];
      GatherDistinct(init, f, elemKey, itemKey);
      forall a, b | a in Gather(init, f) && b in f(last) ensures itemKey(a) != itemKey(b) {
        GatherMembers(init, f, a);
        var x :| x in init && a in f(x);
        var k :| 0 <= k < |init| && init[k] == x;
        assert s[k] == x;
      }
      DistinctAppend(itemKey, Gather(init, f), f(last));
    }
  }
}
