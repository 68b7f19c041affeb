/**
  The library sorts the agent calls (sort.SliceStable, sort.Slice, sort.Float64s), reduced to what
  callers may rely on: the result is an ordered permutation of the argument.
 */
module Sorting {
  ghost predicate TotalPreorder<T(!new)>(leq: (T, T) -> bool) {
    && (forall a, b :: leq(a, b) || leq(b, a))
    && (forall a, b, c :: leq(a, b) && leq(b, c) ==> leq(a, c))
  }

  ghost predicate Antisymmetric<T(!new)>(leq: (T, T) -> bool) {
    forall a, b :: leq(a, b) && leq(b, a) ==> a == b
  }

  ghost predicate Below<T>(x: T, s: seq<T>, leq: (T, T) -> bool) {
    forall y :: y in s ==> leq(x, y)
  }

  ghost predicate Ordered<T>(s: seq<T>, leq: (T, T) -> bool) {
    s == [] || (Below(s[0], s[1..], leq) && Ordered(s[1..], leq))
  }

  function Insert<T>(x: T, s: seq<T>, leq: (T, T) -> bool): seq<T> {
    if s == [] || leq(x, s[0]) then [x] + s else [s[0]] + Insert(x, s[1..], leq)
  }

  function Sort<T>(s: seq<T>, leq: (T, T) -> bool): seq<T> {
    if s == [] then [] else Insert(s[0], Sort(s[1..], leq), leq)
  }

  lemma {:induction false} InsertIsPermutation<T>(x: T, s: seq<T>, leq: (T, T) -> bool)
    ensures multiset(Insert(x, s, leq)) == multiset{x} + multiset(s)
  {
    if s != [] && !leq(x, s[0]) {
      InsertIsPermutation(x, s[1..], leq);
      assert s == [s[0]] + s[1..];
    }
  }

  lemma MultisetMembers<T>(a: seq<T>, b: seq<T>)
    requires multiset(a) == multiset(b)
    ensures |a| == |b|
    ensures forall y :: y in a <==> y in b
  {
    assert |multiset(a)| == |multiset(b)|;
    forall y ensures y in a <==> y in b {
      assert y in a <==> y in multiset(a);
      assert y in b <==> y in multiset(b);
    }
  }

  lemma {:induction false} InsertIsOrdered<T(!new)>(x: T, s: seq<T>, leq: (T, T) -> bool)
    requires TotalPreorder(leq) && Ordered(s, leq)
    ensures Ordered(Insert(x, s, leq), leq)
  {
    var out := Insert(x, s, leq);
    if s == [] || leq(x, s[0]) {
      assert out[1..] == s;
      forall y | y in s ensures leq(x, y) {
        assert y == s[0] || y in s[1..];
      }
    } else {
      var rest := Insert(x, s[1..], leq);
      InsertIsOrdered(x, s[1..], leq);
      InsertIsPermutation(x, s[1..], leq);
      assert out[1..] == rest;
      MultisetMembers(rest, [x] + s[1..]);
      assert Below(s[0], rest, leq);
    }
  }

  lemma {:induction false} SortIsOrderedPermutation<T(!new)>(s: seq<T>, leq: (T, T) -> bool)
    requires TotalPreorder(leq)
    ensures Ordered(Sort(s, leq), leq) && multiset(Sort(s, leq)) == multiset(s)
  {
    if s != [] {
      var rest := Sort(s[1..], leq);
      SortIsOrderedPermutation(s[1..], leq);
      assert Ordered(Insert(s[0], rest, leq), leq) by {
        InsertIsOrdered(s[0], rest, leq);
      }
      assert multiset(Insert(s[0], rest, leq)) == multiset(s) by {
        InsertIsPermutation(s[0], rest, leq);
        assert s == [s[0]] + s[1..];
      }
    }
  }

  // ----- taking one element out of a permutation

  lemma CancelOne<T>(x: T, a: multiset<T>, b: multiset<T>)
    requires multiset{x} + a == multiset{x} + b
    ensures a == b
  {
    assert (multiset{x} + a) - multiset{x} == a;
    assert (multiset{x} + b) - multiset{x} == b;
  }

  lemma WithoutMiddle<T>(whole: seq<T>, rest: seq<T>, a: seq<T>, x: T, b: seq<T>)
    requires whole == a + [x] + b && rest == a + b
    ensures multiset(whole) == multiset{x} + multiset(rest)
  {
  }

  /** Two permutations of each other stay so when one occurrence of x is taken out of both. */
  lemma RestsAgree<T>(a: seq<T>, restA: seq<T>, a1: seq<T>, a2: seq<T>, b: seq<T>, restB: seq<T>, b1: seq<T>, b2: seq<T>, x: T)
    requires a == a1 + [x] + a2 && restA == a1 + a2 && b == b1 + [x] + b2 && restB == b1 + b2
    requires multiset(a) == multiset(b)
    ensures multiset(restA) == multiset(restB)
  {
    WithoutMiddle(a, restA, a1, x, a2);
    WithoutMiddle(b, restB, b1, x, b2);
    CancelOne(x, multiset(restA), multiset(restB));
  }

  lemma TailsAgree<T>(x: T, a: seq<T>, b: seq<T>)
    requires multiset([x] + a) == multiset([x] + b)
    ensures multiset(a) == multiset(b)
  {
    CancelOne(x, multiset(a), multiset(b));
  }

  /** The head of an ordered list is at or below everything in it. */
  lemma HeadIsLeast<T(!new)>(s: seq<T>, leq: (T, T) -> bool, y: T)
    requires TotalPreorder(leq) && Ordered(s, leq) && y in s
    ensures leq(s[0], y)
  {
    if y != s[0] {
      assert y in s[1..];
    }
  }

  /** Under an antisymmetric order there is only one ordered permutation, so stability is moot. */
  lemma {:induction false} OrderedIsUnique<T(!new)>(a: seq<T>, b: seq<T>, leq: (T, T) -> bool)
    requires TotalPreorder(leq) && Antisymmetric(leq)
    requires Ordered(a, leq) && Ordered(b, leq) && multiset(a) == multiset(b)
    ensures a == b
  {
    MultisetMembers(a, b);
    if a != [] {
      var x, y := a[0], b[0];
      assert x in b && y in a;
      HeadIsLeast(a, leq, y);
      HeadIsLeast(b, leq, x);
      assert x == y;
      assert Ordered(a[1..], leq) && Ordered(b[1..], leq);
      hide Ordered, TotalPreorder, Antisymmetric;
      assert a == [x] + a[1..] && b == [x] + b[1..];
      TailsAgree(x, a[1..], b[1..]);
      OrderedIsUnique(a[1..], b[1..], leq);
    }
  }

  lemma {:induction false} OrderedAt<T>(s: seq<T>, leq: (T, T) -> bool, i: nat, j: nat)
    requires Ordered(s, leq) && i < j < |s|
    ensures leq(s[i], s[j])
  {
    if i == 0 {
      assert s[j] == s[1..][j - 1];
    } else {
      OrderedAt(s[1..], leq, i - 1, j - 1);
    }
  }

  // ----- mapping a function over a list commutes with permuting the list

  function Map<T, U>(s: seq<T>, f: T -> U): seq<U> {
    if s == [] then [] else [f(s[0])] + Map(s[1..], f)
  }

  lemma {:induction false} MapConcat<T, U>(a: seq<T>, b: seq<T>, f: T -> U)
    ensures Map(a + b, f) == Map(a, f) + Map(b, f)
  {
    if a == [] {
      assert a + b == b;
    } else {
      assert (a + b)[1..] == a[1..] + b;
      MapConcat(a[1..], b, f);
    }
  }

  lemma {:induction false} MapMembers<T, U>(s: seq<T>, f: T -> U)
    ensures |Map(s, f)| == |s|
    ensures forall i :: 0 <= i < |s| ==> Map(s, f)[i] == f(s[i])
  {
    if s != [] {
      MapMembers(s[1..], f);
    }
  }

  lemma {:induction false} MapOfPermutation<T, U>(a: seq<T>, b: seq<T>, f: T -> U)
    requires multiset(a) == multiset(b)
    ensures multiset(Map(a, f)) == multiset(Map(b, f))
  {
    MultisetMembers(a, b);
    if a != [] {
      var i := RemoveHead(a, b);
      var left, x, right := b[..i], a[0], b[i + 1..];
      assert b == left + [x] + right && a == [] + [x] + a[1..] && [] + a[1..] == a[1..];
      hide Map;
      MapOfPermutation(a[1..], left + right, f);
      MapWithout(b, left + right, left, x, right, f);
      MapWithout(a, a[1..], [], x, a[1..], f);
    }
  }

  lemma MapWithout<T, U>(whole: seq<T>, rest: seq<T>, left: seq<T>, x: T, right: seq<T>, f: T -> U)
    requires whole == left + [x] + right && rest == left + right
    ensures multiset(Map(whole, f)) == multiset{f(x)} + multiset(Map(rest, f))
  {
    hide Map;
    MapSplit(left, x, right, f);
    WithoutMiddle(Map(whole, f), Map(rest, f), Map(left, f), f(x), Map(right, f));
  }

  lemma MapSplit<T, U>(left: seq<T>, x: T, right: seq<T>, f: T -> U)
    ensures Map(left + [x] + right, f) == Map(left, f) + [f(x)] + Map(right, f)
    ensures Map(left + right, f) == Map(left, f) + Map(right, f)
  {
    assert Map([x], f) == [f(x)] by {
      assert [x][1..] == [];
    }
    hide Map;
    MapConcat(left + [x], right, f);
    MapConcat(left, [x], f);
    MapConcat(left, right, f);
  }

  /** Finds the head of one list in a permutation of it; the two remainders are again permutations. */
  lemma RemoveHead<T>(a: seq<T>, b: seq<T>) returns (i: nat)
    requires a != [] && multiset(a) == multiset(b)
    ensures i < |b| && b[i] == a[0]
    ensures multiset(a[1..]) == multiset(b[..i] + b[i + 1..])
  {
    assert a[0] in b by {
      MultisetMembers(a, b);
    }
    i :| 0 <= i < |b| && b[i] == a[0];
    var x, left, right := a[0], b[..i], b[i + 1..];
    assert a == [] + [x] + a[1..] && a[1..] == [] + a[1..] && b == left + [x] + right;
    RestsAgree(a, a[1..], [], a[1..], b, left + right, left, right, x);
  }
}
