/**
  Spot-ratio cap rules: clamping, sorting and the first-match scan.

  The specification side (Matches, Binds, Falling) never mentions an order of the rule list; the
  executable side sorts and then stops at the first rule whose threshold is reached.
 */
module CapRules {
  import opened Numbers
  import opened Sorting

  datatype CapRule = CapRule(threshold: real, maxSpotRatio: real)

  function ClampRule(r: CapRule, unit: bool): CapRule {
    var t := if r.threshold < 0.0 then 0.0 else r.threshold;
    CapRule(if unit then Clamp(t, 0.0, 1.0) else t, Clamp(r.maxSpotRatio, 0.0, 1.0))
  }

  function Clamper(unit: bool): CapRule -> CapRule {
    (r: CapRule) => ClampRule(r, unit)
  }

  /** The order of the sort, read as "a binds at least as much as b": higher threshold, then lower ratio. */
  predicate AtOrBefore(a: CapRule, b: CapRule) {
    a.threshold > b.threshold || (a.threshold == b.threshold && a.maxSpotRatio <= b.maxSpotRatio)
  }

  lemma AtOrBeforeIsTotalOrder()
    ensures TotalPreorder(AtOrBefore) && Antisymmetric(AtOrBefore)
  {
    forall a: CapRule, b: CapRule | AtOrBefore(a, b) && AtOrBefore(b, a) ensures a == b {
      assert a.threshold == b.threshold && a.maxSpotRatio == b.maxSpotRatio;
    }
  }

  /** normalizeCapRules as a value. */
  function Normalize(rules: seq<CapRule>, unit: bool): seq<CapRule> {
    Sort(Map(rules, Clamper(unit)), AtOrBefore)
  }

  /** resolvedCapRules: an empty configuration falls back to the built-in rules as they stand. */
  function Resolve(configured: seq<CapRule>, fallback: seq<CapRule>, unit: bool): seq<CapRule> {
    if configured == [] then fallback else Normalize(configured, unit)
  }

  method NormalizeCapRules(rules: seq<CapRule>, unit: bool) returns (out: seq<CapRule>)
    ensures out == Normalize(rules, unit)
  {
    out := [];
    for i := 0 to |rules|
      invariant out == Map(rules[..i], Clamper(unit))
    {
      var threshold := rules[i].threshold;
      if threshold < 0.0 {
        threshold := 0.0;
      }
      if unit {
        threshold := Clamp(threshold, 0.0, 1.0);
      }
      out := out + [CapRule(threshold, Clamp(rules[i].maxSpotRatio, 0.0, 1.0))];
      assert rules[..i + 1] == rules[..i] + [rules[i]];
      MapConcat(rules[..i], [rules[i]], Clamper(unit));
    }
    assert rules[..|rules|] == rules;
    out := Sort(out, AtOrBefore);
  }

  // ----- normalisation is canonical

  lemma NormalizeIsOrdered(rules: seq<CapRule>, unit: bool)
    ensures Ordered(Normalize(rules, unit), AtOrBefore)
    ensures multiset(Normalize(rules, unit)) == multiset(Map(rules, Clamper(unit)))
  {
    AtOrBeforeIsTotalOrder();
    SortIsOrderedPermutation(Map(rules, Clamper(unit)), AtOrBefore);
  }

  /** The order in which an operator lists the rules never matters. */
  lemma NormalizeIsOrderInvariant(a: seq<CapRule>, b: seq<CapRule>, unit: bool)
    requires multiset(a) == multiset(b)
    ensures Normalize(a, unit) == Normalize(b, unit)
  {
    MapOfPermutation(a, b, Clamper(unit));
    NormalizeIsOrdered(a, unit);
    NormalizeIsOrdered(b, unit);
    AtOrBeforeIsTotalOrder();
    OrderedIsUnique(Normalize(a, unit), Normalize(b, unit), AtOrBefore);
  }

  lemma NormalizeContains(rules: seq<CapRule>, unit: bool, r: CapRule)
    requires r in rules
    ensures ClampRule(r, unit) in Normalize(rules, unit)
  {
    NormalizeIsOrdered(rules, unit);
    MapMembers(rules, Clamper(unit));
    MultisetMembers(Normalize(rules, unit), Map(rules, Clamper(unit)));
    var i :| 0 <= i < |rules| && rules[i] == r;
    assert Map(rules, Clamper(unit))[i] == ClampRule(r, unit);
  }

  lemma NormalizeComesFrom(rules: seq<CapRule>, unit: bool, c: CapRule) returns (r: CapRule)
    requires c in Normalize(rules, unit)
    ensures r in rules && c == ClampRule(r, unit)
  {
    NormalizeIsOrdered(rules, unit);
    MapMembers(rules, Clamper(unit));
    MultisetMembers(Normalize(rules, unit), Map(rules, Clamper(unit)));
    var i :| 0 <= i < |rules| && Map(rules, Clamper(unit))[i] == c;
    r := rules[i];
  }

  ghost predicate IsNormal(rules: seq<CapRule>, unit: bool) {
    Ordered(rules, AtOrBefore) && forall c :: c in rules ==> ClampRule(c, unit) == c
  }

  lemma NormalizeFixesNormal(rules: seq<CapRule>, unit: bool)
    requires IsNormal(rules, unit)
    ensures Normalize(rules, unit) == rules
  {
    MapMembers(rules, Clamper(unit));
    assert Map(rules, Clamper(unit)) == rules;
    NormalizeIsOrdered(rules, unit);
    AtOrBeforeIsTotalOrder();
    OrderedIsUnique(Normalize(rules, unit), rules, AtOrBefore);
  }

  lemma ClampRuleTwice(r: CapRule, unit: bool)
    ensures ClampRule(ClampRule(r, unit), unit) == ClampRule(r, unit)
  {
  }

  lemma NormalizeIsNormal(rules: seq<CapRule>, unit: bool)
    ensures IsNormal(Normalize(rules, unit), unit)
  {
    NormalizeIsOrdered(rules, unit);
    hide Normalize, Ordered, ClampRule;
    forall c | c in Normalize(rules, unit) ensures ClampRule(c, unit) == c {
      var r := NormalizeComesFrom(rules, unit, c);
      ClampRuleTwice(r, unit);
    }
  }

  /** A second normalisation pass changes nothing. */
  lemma NormalizeIsIdempotent(rules: seq<CapRule>, unit: bool)
    ensures Normalize(Normalize(rules, unit), unit) == Normalize(rules, unit)
  {
    NormalizeIsNormal(rules, unit);
    NormalizeFixesNormal(Normalize(rules, unit), unit);
  }

  // ----- the scan

  /** applyCapRules as a value: the first rule whose threshold is reached decides. */
  function FirstMatch(value: real, cap: real, rules: seq<CapRule>): real {
    if rules == [] then cap
    else if value >= rules[0].threshold then Min(cap, rules[0].maxSpotRatio)
    else FirstMatch(value, cap, rules[1..])
  }

  method ApplyCapRules(value: real, currentCap: real, rules: seq<CapRule>) returns (cap: real)
    ensures cap == FirstMatch(value, currentCap, rules)
  {
    for i := 0 to |rules|
      invariant FirstMatch(value, currentCap, rules[i..]) == FirstMatch(value, currentCap, rules)
    {
      if value >= rules[i].threshold {
        return Min(currentCap, rules[i].maxSpotRatio);
      }
    }
    return currentCap;
  }

  ghost predicate Matches(rules: seq<CapRule>, unit: bool, value: real, r: CapRule) {
    r in rules && ClampRule(r, unit).threshold <= value
  }

  /** r has the greatest clamped threshold not above the value and the least ratio at that threshold. */
  ghost predicate Binds(rules: seq<CapRule>, unit: bool, value: real, r: CapRule) {
    && Matches(rules, unit, value, r)
    && forall s :: Matches(rules, unit, value, s) ==> AtOrBefore(ClampRule(r, unit), ClampRule(s, unit))
  }

  lemma {:induction false} ScanPassesUnreached(value: real, cap: real, s: seq<CapRule>)
    requires forall c :: c in s ==> c.threshold > value
    ensures FirstMatch(value, cap, s) == cap
  {
    if s != [] {
      assert s[0] in s;
      ScanPassesUnreached(value, cap, s[1..]);
    }
  }

  lemma {:induction false} ScanStopsAtBest(value: real, cap: real, s: seq<CapRule>, c: CapRule)
    requires Ordered(s, AtOrBefore) && c in s && c.threshold <= value
    requires forall d :: d in s && d.threshold <= value ==> AtOrBefore(c, d)
    ensures FirstMatch(value, cap, s) == Min(cap, c.maxSpotRatio)
  {
    assert s[0] in s;
    if value >= s[0].threshold {
      assert c == s[0] || c in s[1..];
      assert AtOrBefore(c, s[0]) && AtOrBefore(s[0], c);
    } else {
      ScanStopsAtBest(value, cap, s[1..], c);
    }
  }

  lemma {:induction false} SomeRuleBinds(rules: seq<CapRule>, unit: bool, value: real, r: CapRule) returns (b: CapRule)
    requires Matches(rules, unit, value, r)
    ensures Binds(rules, unit, value, b)
    decreases |rules|
  {
    var rest, head := rules[1..], rules[0];
    if s :| Matches(rest, unit, value, s) {
      var b' := SomeRuleBinds(rest, unit, value, s);
      b := if Matches(rules, unit, value, head) && AtOrBefore(ClampRule(head, unit), ClampRule(b', unit)) then head else b';
      assert AtOrBefore(ClampRule(b, unit), ClampRule(b', unit));
      forall s | Matches(rules, unit, value, s) ensures AtOrBefore(ClampRule(b, unit), ClampRule(s, unit)) {
        if s != head {
          assert Matches(rest, unit, value, s);
          assert AtOrBefore(ClampRule(b', unit), ClampRule(s, unit));
        }
      }
    } else {
      b := r;
      forall s | Matches(rules, unit, value, s) ensures s == head {
        assert s == head || s in rest;
        assert !Matches(rest, unit, value, s);
      }
    }
  }

  /** With no rule reached, normalise-then-scan leaves the cap alone. */
  lemma UnmatchedLeavesCap(rules: seq<CapRule>, unit: bool, value: real, cap: real)
    requires forall r :: !Matches(rules, unit, value, r)
    ensures FirstMatch(value, cap, Normalize(rules, unit)) == cap
  {
    forall c | c in Normalize(rules, unit) ensures c.threshold > value {
      var r := NormalizeComesFrom(rules, unit, c);
      assert !Matches(rules, unit, value, r);
    }
    ScanPassesUnreached(value, cap, Normalize(rules, unit));
  }

  /** Otherwise normalise-then-scan tightens the cap by exactly the ratio of the binding rule. */
  lemma FirstMatchRefinesBinding(rules: seq<CapRule>, unit: bool, value: real, cap: real, r: CapRule)
    requires Binds(rules, unit, value, r)
    ensures FirstMatch(value, cap, Normalize(rules, unit)) == Min(cap, ClampRule(r, unit).maxSpotRatio)
  {
    var n := Normalize(rules, unit);
    NormalizeIsOrdered(rules, unit);
    NormalizeContains(rules, unit, r);
    forall d | d in n && d.threshold <= value ensures AtOrBefore(ClampRule(r, unit), d) {
      var s := NormalizeComesFrom(rules, unit, d);
      assert Matches(rules, unit, value, s);
    }
    ScanStopsAtBest(value, cap, n, ClampRule(r, unit));
  }

  /**
    The binding rule by numbers: thresholds below zero count as zero, above one as one where the
    feature is a unit score, and ratios stay within [0, 1]; of the reached rules it has the greatest
    threshold, and the smallest ratio at that threshold.
   */
  lemma BindingRuleMeaning(rules: seq<CapRule>, unit: bool, value: real, r: CapRule, s: CapRule)
    requires Binds(rules, unit, value, r) && s in rules && Threshold(s, unit) <= value
    ensures Threshold(r, unit) <= value && r in rules
    ensures Threshold(s, unit) < Threshold(r, unit) || (Threshold(s, unit) == Threshold(r, unit) && Ratio(r) <= Ratio(s))
    ensures ClampRule(r, unit) == CapRule(Threshold(r, unit), Ratio(r))
  {
    assert ClampRule(s, unit) == CapRule(Threshold(s, unit), Ratio(s));
    assert Matches(rules, unit, value, s);
  }

  function Threshold(r: CapRule, unit: bool): real {
    if r.threshold <= 0.0 then 0.0 else if unit && r.threshold >= 1.0 then 1.0 else r.threshold
  }

  function Ratio(r: CapRule): real {
    if r.maxSpotRatio <= 0.0 then 0.0 else if r.maxSpotRatio >= 1.0 then 1.0 else r.maxSpotRatio
  }

  // ----- monotonicity

  /** Whatever ratio a lower threshold grants, some rule at each higher threshold grants no more. */
  ghost predicate Falling(rules: seq<CapRule>, unit: bool) {
    forall r, s :: r in rules && s in rules && ClampRule(r, unit).threshold < ClampRule(s, unit).threshold ==>
      TightenedAt(rules, unit, r, s)
  }

  ghost predicate TightenedAt(rules: seq<CapRule>, unit: bool, low: CapRule, high: CapRule) {
    exists t :: t in rules && ClampRule(t, unit).threshold == ClampRule(high, unit).threshold
                && ClampRule(t, unit).maxSpotRatio <= ClampRule(low, unit).maxSpotRatio
  }

  lemma FallingRulesAreAntitone(rules: seq<CapRule>, unit: bool, v: real, w: real, cap: real)
    requires Falling(rules, unit) && v <= w
    ensures FirstMatch(w, cap, Normalize(rules, unit)) <= FirstMatch(v, cap, Normalize(rules, unit))
  {
    if r :| Matches(rules, unit, v, r) {
      var bv := SomeRuleBinds(rules, unit, v, r);
      assert Matches(rules, unit, w, bv);
      var bw := SomeRuleBinds(rules, unit, w, bv);
      FirstMatchRefinesBinding(rules, unit, v, cap, bv);
      FirstMatchRefinesBinding(rules, unit, w, cap, bw);
      if ClampRule(bv, unit).threshold < ClampRule(bw, unit).threshold {
        assert TightenedAt(rules, unit, bv, bw);
        var t :| t in rules && ClampRule(t, unit).threshold == ClampRule(bw, unit).threshold
                 && ClampRule(t, unit).maxSpotRatio <= ClampRule(bv, unit).maxSpotRatio;
        assert Matches(rules, unit, w, t);
      }
    } else if r :| Matches(rules, unit, w, r) {
      UnmatchedLeavesCap(rules, unit, v, cap);
      var bw := SomeRuleBinds(rules, unit, w, r);
      FirstMatchRefinesBinding(rules, unit, w, cap, bw);
    } else {
      UnmatchedLeavesCap(rules, unit, v, cap);
      UnmatchedLeavesCap(rules, unit, w, cap);
    }
  }

  ghost predicate CapIsAntitone(rules: seq<CapRule>, unit: bool) {
    forall v, w :: v <= w ==>
      FirstMatch(w, 1.0, Normalize(rules, unit)) <= FirstMatch(v, 1.0, Normalize(rules, unit))
  }

  /** Falling is exactly what an operator must configure: no weaker condition gives a nonincreasing cap. */
  lemma AntitoneIffFalling(rules: seq<CapRule>, unit: bool)
    ensures CapIsAntitone(rules, unit) <==> Falling(rules, unit)
  {
    if Falling(rules, unit) {
      forall v, w | v <= w
        ensures FirstMatch(w, 1.0, Normalize(rules, unit)) <= FirstMatch(v, 1.0, Normalize(rules, unit))
      {
        FallingRulesAreAntitone(rules, unit, v, w, 1.0);
      }
    }
    if CapIsAntitone(rules, unit) {
      forall r, s | r in rules && s in rules && ClampRule(r, unit).threshold < ClampRule(s, unit).threshold
        ensures TightenedAt(rules, unit, r, s)
      {
        var v, w := ClampRule(r, unit).threshold, ClampRule(s, unit).threshold;
        assert Matches(rules, unit, v, r) && Matches(rules, unit, w, s);
        var bv := SomeRuleBinds(rules, unit, v, r);
        var bw := SomeRuleBinds(rules, unit, w, s);
        FirstMatchRefinesBinding(rules, unit, v, 1.0, bv);
        FirstMatchRefinesBinding(rules, unit, w, 1.0, bw);
        assert FirstMatch(w, 1.0, Normalize(rules, unit)) <= FirstMatch(v, 1.0, Normalize(rules, unit));
      }
    }
  }
}
