/**
  The CPU-weighted percentile of pod start-up latencies.

  The implementation sorts the caller's slice in place and walks a running weight; the
  specification compares total weights below and up to a value, and mentions no order.
 */
module WeightedPercentiles {
  import opened Numbers
  import opened Sorting

  datatype Weighted = Weighted(val: real, weight: real)

  predicate ValLeq(a: Weighted, b: Weighted) {
    a.val <= b.val
  }

  function TotalWeight(s: seq<Weighted>): real {
    if s == [] then 0.0 else s[0].weight + TotalWeight(s[1..])
  }

  /** Weight of the entries strictly below v, or up to and including v. */
  function WeightBelow(s: seq<Weighted>, v: real): real {
    if s == [] then 0.0 else (if s[0].val < v then s[0].weight else 0.0) + WeightBelow(s[1..], v)
  }

  function WeightUpTo(s: seq<Weighted>, v: real): real {
    if s == [] then 0.0 else (if s[0].val <= v then s[0].weight else 0.0) + WeightUpTo(s[1..], v)
  }

  ghost predicate Positive(s: seq<Weighted>) {
    forall w :: w in s ==> w.weight > 0.0
  }

  ghost predicate Listed(s: seq<Weighted>, v: real) {
    exists w :: w in s && w.val == v
  }

  /** v is a listed value; what lies below it weighs less than the share p, what lies up to it at least p. */
  ghost predicate IsPercentile(s: seq<Weighted>, p: real, v: real) {
    CrossesAt(s, Scaled(TotalWeight(s), p), v)
  }

  ghost predicate CrossesAt(s: seq<Weighted>, target: real, v: real) {
    Listed(s, v) && WeightBelow(s, v) < target <= WeightUpTo(s, v)
  }

  // ----- sums over concatenations and permutations

  lemma {:induction false} WeightsOfConcat(a: seq<Weighted>, b: seq<Weighted>, v: real)
    ensures TotalWeight(a + b) == TotalWeight(a) + TotalWeight(b)
    ensures WeightBelow(a + b, v) == WeightBelow(a, v) + WeightBelow(b, v)
    ensures WeightUpTo(a + b, v) == WeightUpTo(a, v) + WeightUpTo(b, v)
  {
    if a == [] {
      assert a + b == b;
    } else {
      assert (a + b)[1..] == a[1..] + b;
      WeightsOfConcat(a[1..], b, v);
    }
  }

  lemma {:induction false} WeightsOfPermutation(a: seq<Weighted>, b: seq<Weighted>, v: real)
    requires multiset(a) == multiset(b)
    ensures TotalWeight(a) == TotalWeight(b)
    ensures WeightBelow(a, v) == WeightBelow(b, v)
    ensures WeightUpTo(a, v) == WeightUpTo(b, v)
  {
    MultisetMembers(a, b);
    if a != [] {
      var i := RemoveHead(a, b);
      WeightsOfPermutation(a[1..], b[..i] + b[i + 1..], v);
      assert b == b[..i] + ([b[i]] + b[i + 1..]);
      WeightsOfConcat(b[..i], [b[i]] + b[i + 1..], v);
      WeightsOfConcat(b[..i], b[i + 1..], v);
      assert ([b[i]] + b[i + 1..])[1..] == b[i + 1..];
    }
  }

  lemma {:induction false} WeightBounds(s: seq<Weighted>, v: real)
    requires Positive(s)
    ensures 0.0 <= WeightBelow(s, v) <= WeightUpTo(s, v) <= TotalWeight(s)
    ensures s != [] ==> TotalWeight(s) > 0.0
  {
    if s != [] {
      assert s[0] in s;
      WeightBounds(s[1..], v);
    }
  }

  /** Everything up to v lies below any larger value. */
  lemma {:induction false} UpToBelow(s: seq<Weighted>, v: real, w: real)
    requires Positive(s) && v < w
    ensures WeightUpTo(s, v) <= WeightBelow(s, w)
  {
    if s != [] {
      assert s[0] in s;
      UpToBelow(s[1..], v, w);
    }
  }

  lemma {:induction false} AllBelow(s: seq<Weighted>, v: real)
    ensures (forall w :: w in s ==> w.val < v) ==> WeightBelow(s, v) == TotalWeight(s)
    ensures (forall w :: w in s ==> w.val <= v) ==> WeightUpTo(s, v) == TotalWeight(s)
    ensures (forall w :: w in s ==> w.val >= v) ==> WeightBelow(s, v) == 0.0
  {
    if s != [] {
      assert s[0] in s;
      AllBelow(s[1..], v);
    }
  }

  // ----- the implementation

  /** sort.Slice: some ordered permutation, in place; ties may land in any order. */
  method SortByValue(a: array<Weighted>)
    modifies a
    ensures Ordered(a[..], ValLeq) && multiset(a[..]) == multiset(old(a[..]))
  {
    SortIsOrderedPermutation(a[..], ValLeq);
    var sorted := Sort(a[..], ValLeq);
    MultisetMembers(sorted, a[..]);
    forall i | 0 <= i < a.Length {
      a[i] := sorted[i];
    }
    assert a[..] == sorted;
  }

  lemma OrderedAround(s: seq<Weighted>, i: nat)
    requires Ordered(s, ValLeq) && i < |s|
    ensures forall w :: w in s[..i + 1] ==> w.val <= s[i].val
    ensures forall w :: w in s[i..] ==> w.val >= s[i].val
  {
    forall w | w in s[..i + 1] ensures w.val <= s[i].val {
      var j :| 0 <= j < i + 1 && s[j] == w;
      if j < i {
        OrderedAt(s, ValLeq, j, i);
      }
    }
    forall w | w in s[i..] ensures w.val >= s[i].val {
      var j :| 0 <= j < |s[i..]| && s[i..][j] == w;
      if j > 0 {
        OrderedAt(s, ValLeq, i, i + j);
      }
    }
  }

  /** In an ordered list the entries before i outweigh what is below, and those through i are all up to, the value at i. */
  lemma OrderedPrefixWeights(s: seq<Weighted>, i: nat)
    requires Ordered(s, ValLeq) && Positive(s) && i < |s|
    ensures TotalWeight(s[..i + 1]) <= WeightUpTo(s, s[i].val)
    ensures WeightBelow(s, s[i].val) <= TotalWeight(s[..i])
  {
    OrderedAround(s, i);
    hide Ordered, TotalWeight, WeightUpTo, WeightBelow;
    WeightUpToPrefix(s, i + 1, s[i].val);
    WeightBelowPrefix(s, i, s[i].val);
  }

  lemma WeightUpToPrefix(s: seq<Weighted>, k: nat, v: real)
    requires Positive(s) && k <= |s| && forall w :: w in s[..k] ==> w.val <= v
    ensures TotalWeight(s[..k]) <= WeightUpTo(s, v)
  {
    hide TotalWeight, WeightUpTo, WeightBelow;
    assert s == s[..k] + s[k..];
    WeightsOfConcat(s[..k], s[k..], v);
    AllBelow(s[..k], v);
    WeightBounds(s[k..], v);
  }

  lemma WeightBelowPrefix(s: seq<Weighted>, k: nat, v: real)
    requires Positive(s) && k <= |s| && forall w :: w in s[k..] ==> w.val >= v
    ensures WeightBelow(s, v) <= TotalWeight(s[..k])
  {
    hide TotalWeight, WeightUpTo, WeightBelow;
    assert s == s[..k] + s[k..];
    WeightsOfConcat(s[..k], s[k..], v);
    AllBelow(s[k..], v);
    WeightBounds(s[..k], v);
  }

  lemma TotalOfPrefix(s: seq<Weighted>, i: nat)
    requires i < |s|
    ensures TotalWeight(s[..i + 1]) == TotalWeight(s[..i]) + s[i].weight
  {
    assert s[..i + 1] == s[..i] + [s[i]];
    WeightsOfConcat(s[..i], [s[i]], 0.0);
  }

  lemma OrderedEnds(s: seq<Weighted>, w: Weighted)
    requires Ordered(s, ValLeq) && w in s
    ensures s[0].val <= w.val <= s[|s| - 1].val
  {
    var j :| 0 <= j < |s| && s[j] == w;
    if 0 < j {
      OrderedAt(s, ValLeq, 0, j);
    }
    if j < |s| - 1 {
      OrderedAt(s, ValLeq, j, |s| - 1);
    }
  }

  /** The first prefix whose weight reaches a positive target stops at the crossing. */
  lemma FirstHitCrosses(s: seq<Weighted>, target: real, i: nat)
    requires Ordered(s, ValLeq) && Positive(s) && i < |s| && 0.0 < target
    requires TotalWeight(s[..i + 1]) >= target && TotalWeight(s[..i]) < target
    ensures CrossesAt(s, target, s[i].val)
  {
    OrderedPrefixWeights(s, i);
    assert s[i] in s;
  }

  /** The running-weight walk over the sorted slice; hit is false when it falls through to the last entry. */
  method Walk(s: seq<Weighted>, target: real) returns (v: real, hit: bool)
    requires s != [] && Ordered(s, ValLeq)
    ensures Positive(s) && 0.0 < target && hit ==> CrossesAt(s, target, v)
    ensures Positive(s) && target <= 0.0 ==> v == s[0].val
    ensures !hit ==> v == s[|s| - 1].val && TotalWeight(s) < target
  {
    var current := 0.0;
    for i := 0 to |s|
      invariant current == TotalWeight(s[..i])
      invariant i > 0 ==> current < target
      invariant Positive(s) && target <= 0.0 ==> i == 0
    {
      assert s[i] in s;
      current := current + s[i].weight;
      TotalOfPrefix(s, i);
      if current >= target {
        if Positive(s) && 0.0 < target {
          FirstHitCrosses(s, target, i);
        }
        return s[i].val, true;
      }
    }
    assert s[..|s|] == s;
    return s[|s| - 1].val, false;
  }

  method SumWeights(s: seq<Weighted>) returns (total: real)
    ensures total == TotalWeight(s)
  {
    total := 0.0;
    for i := 0 to |s|
      invariant total == TotalWeight(s[..i])
    {
      total := total + s[i].weight;
      TotalOfPrefix(s, i);
    }
    assert s[..|s|] == s;
  }

  lemma CrossingOfPermutation(a: seq<Weighted>, b: seq<Weighted>, target: real, v: real)
    requires multiset(a) == multiset(b) && CrossesAt(a, target, v)
    ensures CrossesAt(b, target, v)
  {
    MultisetMembers(a, b);
    WeightsOfPermutation(a, b, v);
  }

  /**
    calculateWeightedPercentile. Callers pass positive weights; the share p selects the percentile
    for 0 < p <= 1 (the walk then never falls through), the least value for p <= 0, the greatest for p > 1.
   */
  method CalculateWeightedPercentile(values: array<Weighted>, p: real) returns (v: real, hit: bool)
    requires values.Length > 0
    modifies values
    ensures multiset(values[..]) == multiset(old(values[..]))
    ensures Positive(old(values[..])) && 0.0 < p <= 1.0 ==> hit && IsPercentile(old(values[..]), p, v)
    ensures Positive(old(values[..])) && p <= 0.0 ==> forall w :: w in old(values[..]) ==> v <= w.val
    ensures Positive(old(values[..])) && p > 1.0 ==> forall w :: w in old(values[..]) ==> w.val <= v
  {
    ghost var given := values[..];
    SortByValue(values);
    var s := values[..];
    var total := SumWeights(s);
    var target := Scaled(total, p);
    v, hit := Walk(s, target);
    hide Scaled, WeightBelow, WeightUpTo;
    if Positive(given) {
      ReadShare(given, s, p, total, target);
      ReadAnswer(given, s, p, total, target, v, hit);
      assert 0.0 < p <= 1.0 ==> IsPercentile(given, p, v);
    }
  }

  lemma ReadShare(given: seq<Weighted>, s: seq<Weighted>, p: real, total: real, target: real)
    requires s != [] && multiset(s) == multiset(given) && Positive(given)
    requires total == TotalWeight(s) && target == Scaled(total, p)
    ensures p <= 0.0 <==> target <= 0.0
    ensures p <= 1.0 <==> target <= total
    ensures TotalWeight(given) == total
  {
    assert total > 0.0 by {
      MultisetMembers(s, given);
      WeightBounds(s, 0.0);
    }
    assert TotalWeight(given) == total by {
      WeightsOfPermutation(s, given, 0.0);
    }
    ScaledByShare(total, p);
    hide Scaled;
  }

  lemma ReadAnswer(given: seq<Weighted>, s: seq<Weighted>, p: real, total: real, target: real, v: real, hit: bool)
    requires s != [] && Ordered(s, ValLeq) && multiset(s) == multiset(given) && Positive(given)
    requires total == TotalWeight(s) && (p <= 0.0 <==> target <= 0.0) && (p <= 1.0 <==> target <= total)
    requires Positive(s) && 0.0 < target && hit ==> CrossesAt(s, target, v)
    requires Positive(s) && target <= 0.0 ==> v == s[0].val
    requires !hit ==> v == s[|s| - 1].val && total < target
    ensures 0.0 < p <= 1.0 ==> hit && CrossesAt(given, target, v)
    ensures p <= 0.0 ==> forall w :: w in given ==> v <= w.val
    ensures p > 1.0 ==> forall w :: w in given ==> w.val <= v
  {
    MultisetMembers(s, given);
    WeightBounds(s, v);
    if 0.0 < p <= 1.0 {
      CrossingOfPermutation(s, given, target, v);
    }
    forall w | w in given ensures s[0].val <= w.val <= s[|s| - 1].val {
      OrderedEnds(s, w);
    }
  }

  // ----- the answer is determined by the collection alone

  lemma PercentileIsUnique(s: seq<Weighted>, p: real, v: real, w: real)
    requires Positive(s) && IsPercentile(s, p, v) && IsPercentile(s, p, w)
    ensures v == w
  {
    if v < w {
      UpToBelow(s, v, w);
    } else if w < v {
      UpToBelow(s, w, v);
    }
  }

  /** Neither the listing order nor the order of ties can change the percentile. */
  lemma PercentileIsOrderFree(a: seq<Weighted>, b: seq<Weighted>, p: real, v: real, w: real)
    requires multiset(a) == multiset(b) && Positive(a)
    requires IsPercentile(a, p, v) && IsPercentile(b, p, w)
    ensures v == w
  {
    MultisetMembers(a, b);
    WeightsOfPermutation(a, b, w);
    CrossingOfPermutation(b, a, Scaled(TotalWeight(b), p), w);
    PercentileIsUnique(a, p, v, w);
  }

  /** A higher share never selects a smaller value. */
  lemma PercentileIsMonotone(s: seq<Weighted>, p: real, q: real, v: real, w: real)
    requires Positive(s) && s != [] && p <= q && IsPercentile(s, p, v) && IsPercentile(s, q, w)
    ensures v <= w
  {
    WeightBounds(s, v);
    ScaledByDifference(TotalWeight(s), q, p);
    ScaledIsNonNegative(TotalWeight(s), q - p);
    hide Scaled;
    if w < v {
      UpToBelow(s, w, v);
    }
  }
}
