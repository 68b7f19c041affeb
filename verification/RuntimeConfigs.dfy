/**
  The hot-reloaded runtime configuration: defaults, in-place clamping, bucket normalisation.

  Config is the value; RuntimeConfig is the mutable record the loader edits field by field.
 */
module RuntimeConfigs {
  import opened Wrappers
  import opened Numbers
  import opened Sorting
  import opened CapRules

  datatype FeatureBuckets = FeatureBuckets(
    podStartup: seq<real>, outagePenalty: seq<real>, priority: seq<real>, utilization: seq<real>)

  /** The scalar knobs of the deterministic policy. */
  datatype Thresholds = Thresholds(
    emergencyRisk: real, runtimeEmergency: real, highRisk: real, mediumRisk: real,
    minSavings: real, maxPayback: real,
    oodConservative: bool, oodMaxRisk: real, oodMinSavings: real, oodMaxPayback: real,
    driftAlpha: Option<real>)

  datatype RuleSet = RuleSet(
    priority: seq<CapRule>, outage: seq<CapRule>, startup: seq<CapRule>, migration: seq<CapRule>, utilization: seq<CapRule>)

  datatype PolicyConfig = PolicyConfig(thresholds: Thresholds, rules: RuleSet, buckets: FeatureBuckets)

  /** The top-level scalar fields. */
  datatype Dials = Dials(
    riskMultiplier: real, minSpotRatio: real, maxSpotRatio: real, targetSpotRatio: real, stepMinutes: int)

  datatype Config = Config(dials: Dials, policy: PolicyConfig)

  // ----- built-in defaults

  const DEFAULT_DRIFT_ALPHA := 0.10

  const DEFAULT_PRIORITY_RULES := [CapRule(0.90, 0.20), CapRule(0.70, 0.50), CapRule(0.45, 0.80)]
  const DEFAULT_OUTAGE_RULES := [CapRule(96.0, 0.10), CapRule(48.0, 0.20), CapRule(24.0, 0.30), CapRule(10.0, 0.50)]
  const DEFAULT_STARTUP_RULES := [CapRule(600.0, 0.20), CapRule(300.0, 0.30), CapRule(120.0, 0.50)]
  const DEFAULT_MIGRATION_RULES := [CapRule(8.0, 0.20), CapRule(5.0, 0.30), CapRule(2.0, 0.60)]
  const DEFAULT_UTILIZATION_RULES := [CapRule(0.95, 0.70)]
  const DEFAULT_BUCKETS := FeatureBuckets(
                             [0.0, 60.0, 120.0, 300.0, 600.0, 1200.0],
                             [0.0, 1.0, 4.0, 10.0, 24.0, 48.0, 96.0],
                             [0.0, 0.25, 0.5, 0.75, 1.0],
                             [0.0, 0.5, 0.7, 0.85, 0.95, 1.0])

  function OrDefault(x: real, d: real): real {
    if x == 0.0 then d else x
  }

  function RulesOrDefault(rules: seq<CapRule>, d: seq<CapRule>): seq<CapRule> {
    if rules == [] then d else rules
  }

  predicate NoBuckets(b: FeatureBuckets) {
    b.podStartup == [] && b.outagePenalty == [] && b.priority == [] && b.utilization == []
  }

  function ThresholdDefaults(t: Thresholds): Thresholds {
    Thresholds(
      OrDefault(t.emergencyRisk, 0.90), OrDefault(t.runtimeEmergency, 0.80),
      OrDefault(t.highRisk, 0.60), OrDefault(t.mediumRisk, 0.35),
      OrDefault(t.minSavings, 0.15), OrDefault(t.maxPayback, 6.0),
      t.oodConservative, OrDefault(t.oodMaxRisk, 0.25), OrDefault(t.oodMinSavings, 0.25), OrDefault(t.oodMaxPayback, 3.0),
      if t.driftAlpha.None? then Some(DEFAULT_DRIFT_ALPHA) else t.driftAlpha)
  }

  function RuleDefaults(r: RuleSet): RuleSet {
    RuleSet(
      RulesOrDefault(r.priority, DEFAULT_PRIORITY_RULES), RulesOrDefault(r.outage, DEFAULT_OUTAGE_RULES),
      RulesOrDefault(r.startup, DEFAULT_STARTUP_RULES), RulesOrDefault(r.migration, DEFAULT_MIGRATION_RULES),
      RulesOrDefault(r.utilization, DEFAULT_UTILIZATION_RULES))
  }

  /** Buckets come from the configuration, else from the workload-distribution file, else built in. */
  function BucketDefaults(b: FeatureBuckets, fromFile: Option<FeatureBuckets>): FeatureBuckets {
    if !NoBuckets(b) then b
    else if fromFile.Some? && !NoBuckets(fromFile.value) then fromFile.value
    else DEFAULT_BUCKETS
  }

  /** applyRuntimeDefaults; fromFile is what the workload-distribution file yielded, if it could be read. */
  function WithDefaults(c: Config, fromFile: Option<FeatureBuckets>): Config {
    var d := c.dials;
    Config(
      Dials(OrDefault(d.riskMultiplier, 1.0), d.minSpotRatio, OrDefault(d.maxSpotRatio, 1.0), d.targetSpotRatio,
            if d.stepMinutes <= 0 then 10 else d.stepMinutes),
      PolicyConfig(ThresholdDefaults(c.policy.thresholds), RuleDefaults(c.policy.rules),
                   BucketDefaults(c.policy.buckets, fromFile)))
  }

  // ----- bucket boundaries

  predicate LeqReal(a: real, b: real) {
    a <= b
  }

  function NonNegative(v: real): real {
    if v < 0.0 then 0.0 else v
  }

  /** Keeps the first of every run of equal neighbours. */
  function Compact(s: seq<real>): seq<real> {
    if |s| == 0 then []
    else
      var n := |s| - 1;
      var front := Compact(s[..n]);
      if n == 0 || s[n] != s[n - 1] then front + [s[n]] else front
  }

  function NormalBoundaries(values: seq<real>): seq<real> {
    Compact(Sort(Map(values, NonNegative), LeqReal))
  }

  ghost predicate StrictlyIncreasing(s: seq<real>) {
    forall i, j :: 0 <= i < j < |s| ==> s[i] < s[j]
  }

  /** normalizeBoundaries: clamp, sort, then compact in place inside the sorted buffer. */
  method NormalizeBoundaries(values: seq<real>) returns (uniq: seq<real>)
    ensures uniq == NormalBoundaries(values)
  {
    var clamped := [];
    for i := 0 to |values|
      invariant clamped == Map(values[..i], NonNegative)
    {
      clamped := clamped + [NonNegative(values[i])];
      assert values[..i + 1] == values[..i] + [values[i]];
      MapConcat(values[..i], [values[i]], NonNegative);
    }
    assert values[..|values|] == values;
    var sorted := Sort(clamped, LeqReal);
    var out := new real[|sorted|](i requires 0 <= i < |sorted| => sorted[i]);
    assert out[..] == sorted;
    var kept := CompactInPlace(out);
    uniq := out[..kept];
  }

  /** The compaction loop: survivors are written over the front of the buffer still being read. */
  method CompactInPlace(out: array<real>) returns (kept: nat)
    modifies out
    ensures kept <= out.Length && out[..kept] == Compact(old(out[..]))
  {
    ghost var given := out[..];
    kept := 0;
    for i := 0 to out.Length
      invariant kept <= i
      invariant forall k :: i <= k < out.Length ==> out[k] == given[k]
      invariant out[..kept] == Compact(given[..i])
      invariant i > 0 ==> kept > 0 && out[kept - 1] == given[i - 1]
    {
      var v := out[i];
      CompactStep(given, i);
      if i == 0 || v != out[kept - 1] {
        out[kept] := v;
        kept := kept + 1;
        assert out[..kept] == Compact(given[..i]) + [v];
      }
    }
    assert given[..out.Length] == given;
  }

  lemma CompactStep(s: seq<real>, i: nat)
    requires i < |s|
    ensures Compact(s[..i + 1]) == if i == 0 || s[i] != s[i - 1] then Compact(s[..i]) + [s[i]] else Compact(s[..i])
  {
    assert s[..i + 1][..i] == s[..i];
  }

  lemma LeqRealIsTotalOrder()
    ensures TotalPreorder(LeqReal) && Antisymmetric(LeqReal)
  {
  }

  lemma {:induction false} CompactKeepsValues(s: seq<real>, x: real)
    ensures x in Compact(s) <==> x in s
  {
    if |s| > 0 {
      var n := |s| - 1;
      CompactKeepsValues(s[..n], x);
      assert s == s[..n] + [s[n]];
      if n > 0 && s[n] == s[n - 1] {
        assert s[n - 1] in s[..n];
      }
    }
  }

  lemma {:induction false} CompactIncreases(s: seq<real>)
    requires forall i, j :: 0 <= i < j < |s| ==> s[i] <= s[j]
    ensures StrictlyIncreasing(Compact(s))
    ensures |s| > 0 ==> |Compact(s)| > 0 && Compact(s)[|Compact(s)| - 1] == s[|s| - 1]
  {
    if |s| > 0 {
      var n := |s| - 1;
      CompactIncreases(s[..n]);
      var front := Compact(s[..n]);
      if n > 0 && s[n] != s[n - 1] {
        assert s[n - 1] < s[n] && front[|front| - 1] == s[n - 1];
        forall i | 0 <= i < |front| ensures front[i] < s[n] {
          assert i == |front| - 1 || front[i] < front[|front| - 1];
        }
      }
    }
  }

  lemma {:induction false} CompactFixesIncreasing(s: seq<real>)
    requires StrictlyIncreasing(s)
    ensures Compact(s) == s
  {
    if |s| > 0 {
      CompactFixesIncreasing(s[..|s| - 1]);
    }
  }

  lemma {:induction false} IncreasingIsOrdered(s: seq<real>)
    requires StrictlyIncreasing(s)
    ensures Ordered(s, LeqReal)
  {
    if s != [] {
      forall i, j | 0 <= i < j < |s[1..]| ensures s[1..][i] < s[1..][j] {
        assert s[i + 1] < s[j + 1];
      }
      IncreasingIsOrdered(s[1..]);
    }
  }

  /** The normalised boundaries are a strictly increasing list of exactly the clamped inputs. */
  lemma BoundariesMeaning(values: seq<real>)
    ensures StrictlyIncreasing(NormalBoundaries(values))
    ensures forall x :: x in NormalBoundaries(values) <==> x in Map(values, NonNegative)
    ensures values != [] ==> NormalBoundaries(values) != []
  {
    var clamped := Map(values, NonNegative);
    var sorted := Sort(clamped, LeqReal);
    LeqRealIsTotalOrder();
    SortIsOrderedPermutation(clamped, LeqReal);
    MapMembers(values, NonNegative);
    MultisetMembers(sorted, clamped);
    forall i, j | 0 <= i < j < |sorted| ensures sorted[i] <= sorted[j] {
      OrderedAt(sorted, LeqReal, i, j);
    }
    CompactIncreases(sorted);
    forall x ensures x in NormalBoundaries(values) <==> x in clamped {
      CompactKeepsValues(sorted, x);
    }
  }

  lemma NormalBoundariesFixes(s: seq<real>)
    requires StrictlyIncreasing(s) && forall x :: x in s ==> x >= 0.0
    ensures NormalBoundaries(s) == s
  {
    MapMembers(s, NonNegative);
    forall i | 0 <= i < |s| ensures Map(s, NonNegative)[i] == s[i] {
      assert s[i] in s;
    }
    assert Map(s, NonNegative) == s;
    LeqRealIsTotalOrder();
    SortIsOrderedPermutation(s, LeqReal);
    IncreasingIsOrdered(s);
    OrderedIsUnique(Sort(s, LeqReal), s, LeqReal);
    CompactFixesIncreasing(s);
  }

  /** outOfRange on whatever list it is given. */
  predicate OutOfRange(value: real, boundaries: seq<real>) {
    |boundaries| >= 2 && (value < boundaries[0] || value > boundaries[|boundaries| - 1])
  }

  ghost predicate BelowAll(value: real, bounds: seq<real>) {
    forall b :: b in bounds ==> value < b
  }

  ghost predicate AboveAll(value: real, bounds: seq<real>) {
    forall b :: b in bounds ==> value > b
  }

  lemma EndsBound(n: seq<real>, b: real)
    requires StrictlyIncreasing(n) && b in n
    ensures n[0] <= b <= n[|n| - 1]
  {
    var i :| 0 <= i < |n| && n[i] == b;
    assert i == 0 || n[0] < n[i];
    assert i == |n| - 1 || n[i] < n[|n| - 1];
  }

  /**
    On normalised boundaries only the spread matters: a value is out of range when it lies below
    every clamped input or above every one, and there are two different inputs.
   */
  lemma OutOfRangeMeaning(values: seq<real>, value: real)
    requires |NormalBoundaries(values)| >= 2
    ensures OutOfRange(value, NormalBoundaries(values)) <==>
            BelowAll(value, Map(values, NonNegative)) || AboveAll(value, Map(values, NonNegative))
  {
    var n, given := NormalBoundaries(values), Map(values, NonNegative);
    BoundariesMeaning(values);
    var least, greatest := n[0], n[|n| - 1];
    assert least in n && greatest in n;
    assert least in given && greatest in given;
    forall b | b in given ensures least <= b <= greatest {
      assert b in n;
      EndsBound(n, b);
    }
    hide NormalBoundaries, Map, StrictlyIncreasing;
    assert BelowAll(value, given) <==> value < least;
    assert AboveAll(value, given) <==> value > greatest;
  }

  // ----- clamping

  predicate TooFew(b: FeatureBuckets) {
    |b.podStartup| < 2 || |b.outagePenalty| < 2 || |b.priority| < 2 || |b.utilization| < 2
  }

  function ClampBuckets(b: FeatureBuckets): FeatureBuckets {
    var n := FeatureBuckets(NormalBoundaries(b.podStartup), NormalBoundaries(b.outagePenalty),
                            NormalBoundaries(b.priority), NormalBoundaries(b.utilization));
    if TooFew(n) then DEFAULT_BUCKETS else n
  }

  function DriftAlpha(t: Thresholds): real {
    if t.driftAlpha.None? then DEFAULT_DRIFT_ALPHA else Clamp(t.driftAlpha.value, 0.0, 1.0)
  }

  function ClampThresholds(t: Thresholds): Thresholds {
    var emergency := Clamp(t.emergencyRisk, 0.0, 1.0);
    var high := Min(Clamp(t.highRisk, 0.0, 1.0), emergency);
    var medium := Min(Clamp(t.mediumRisk, 0.0, 1.0), high);
    Thresholds(
      emergency, Clamp(t.runtimeEmergency, 0.0, 1.0), high, medium,
      Clamp(t.minSavings, 0.0, 1.0), Clamp(t.maxPayback, 0.1, 168.0),
      t.oodConservative, Clamp(t.oodMaxRisk, 0.0, 1.0), Clamp(t.oodMinSavings, 0.0, 1.0), Clamp(t.oodMaxPayback, 0.1, 168.0),
      Some(DriftAlpha(t)))
  }

  function ClampRules(r: RuleSet): RuleSet {
    RuleSet(
      Resolve(r.priority, DEFAULT_PRIORITY_RULES, true),
      Resolve(r.outage, DEFAULT_OUTAGE_RULES, false),
      Resolve(r.startup, DEFAULT_STARTUP_RULES, false),
      Resolve(r.migration, DEFAULT_MIGRATION_RULES, false),
      Resolve(r.utilization, DEFAULT_UTILIZATION_RULES, true))
  }

  function ClampPolicy(p: PolicyConfig): PolicyConfig {
    PolicyConfig(ClampThresholds(p.thresholds), ClampRules(p.rules), ClampBuckets(p.buckets))
  }

  function ClampDials(d: Dials): Dials {
    var maxRatio := Clamp(OrDefault(d.maxSpotRatio, 1.0), 0.0, 1.0);
    var minRatio := Min(Clamp(d.minSpotRatio, 0.0, 1.0), maxRatio);
    Dials(
      Clamp(d.riskMultiplier, 0.1, 10.0), minRatio, maxRatio,
      Clamp(Clamp(d.targetSpotRatio, 0.0, 1.0), minRatio, maxRatio),
      if d.stepMinutes < 1 then 1 else if d.stepMinutes > 120 then 120 else d.stepMinutes)
  }

  /** applyRuntimeClamps as a value. */
  function Clamped(c: Config): Config {
    Config(ClampDials(c.dials), ClampPolicy(c.policy))
  }

  /** What every loaded configuration satisfies. */
  ghost predicate WellFormed(c: Config) {
    && OrderedDials(c.dials)
    && OrderedBands(c.policy.thresholds)
    && NormalRules(c.policy.rules)
    && NormalBuckets(c.policy.buckets)
  }

  ghost predicate OrderedDials(d: Dials) {
    && 0.0 <= d.minSpotRatio <= d.targetSpotRatio <= d.maxSpotRatio <= 1.0
    && 0.1 <= d.riskMultiplier <= 10.0
    && 1 <= d.stepMinutes <= 120
  }

  ghost predicate OrderedBands(t: Thresholds) {
    && 0.0 <= t.mediumRisk <= t.highRisk <= t.emergencyRisk <= 1.0
    && 0.0 <= t.runtimeEmergency <= 1.0
    && t.driftAlpha.Some? && 0.0 <= t.driftAlpha.value <= 1.0
  }

  ghost predicate NormalRules(r: RuleSet) {
    && IsNormal(r.priority, true) && r.priority != []
    && IsNormal(r.outage, false) && r.outage != []
    && IsNormal(r.startup, false) && r.startup != []
    && IsNormal(r.migration, false) && r.migration != []
    && IsNormal(r.utilization, true) && r.utilization != []
  }

  ghost predicate NormalBucket(s: seq<real>) {
    |s| >= 2 && StrictlyIncreasing(s) && forall x :: x in s ==> x >= 0.0
  }

  ghost predicate NormalBuckets(b: FeatureBuckets) {
    NormalBucket(b.podStartup) && NormalBucket(b.outagePenalty) && NormalBucket(b.priority) && NormalBucket(b.utilization)
  }

  class RuntimeConfig {
    var riskMultiplier: real
    var minSpotRatio: real
    var maxSpotRatio: real
    var targetSpotRatio: real
    var stepMinutes: int
    var policy: PolicyConfig

    constructor (c: Config)
      ensures Value() == c
    {
      riskMultiplier, minSpotRatio, maxSpotRatio := c.dials.riskMultiplier, c.dials.minSpotRatio, c.dials.maxSpotRatio;
      targetSpotRatio, stepMinutes, policy := c.dials.targetSpotRatio, c.dials.stepMinutes, c.policy;
    }

    function DialValues(): Dials
      reads this
    {
      Dials(riskMultiplier, minSpotRatio, maxSpotRatio, targetSpotRatio, stepMinutes)
    }

    function Value(): Config
      reads this
    {
      Config(DialValues(), policy)
    }

    method ApplyRuntimeClamps()
      modifies this
      ensures Value() == Clamped(old(Value()))
    {
      ClampDialFields();
      ClampPolicyFields();
    }

    /** The deterministic-policy section: thresholds, then the five rule lists, then the four bucket lists. */
    method ClampPolicyFields()
      modifies this`policy
      ensures policy == ClampPolicy(old(policy))
    {
      var t := ClampThresholds(policy.thresholds);
      var rules := ResolveRules(policy.rules);
      var buckets := NormalizeBuckets(policy.buckets);
      policy := PolicyConfig(t, rules, buckets);
    }

    method ClampDialFields()
      modifies this
      ensures DialValues() == ClampDials(old(DialValues())) && policy == old(policy)
    {
      if riskMultiplier < 0.1 {
        riskMultiplier := 0.1;
      }
      if riskMultiplier > 10.0 {
        riskMultiplier := 10.0;
      }
      if maxSpotRatio == 0.0 {
        maxSpotRatio := 1.0;
      }
      minSpotRatio := Clamp(minSpotRatio, 0.0, 1.0);
      maxSpotRatio := Clamp(maxSpotRatio, 0.0, 1.0);
      targetSpotRatio := Clamp(targetSpotRatio, 0.0, 1.0);
      if minSpotRatio > maxSpotRatio {
        minSpotRatio := maxSpotRatio;
      }
      if targetSpotRatio < minSpotRatio {
        targetSpotRatio := minSpotRatio;
      }
      if targetSpotRatio > maxSpotRatio {
        targetSpotRatio := maxSpotRatio;
      }
      if stepMinutes < 1 {
        stepMinutes := 1;
      }
      if stepMinutes > 120 {
        stepMinutes := 120;
      }
    }

    /** LoadRuntimeConfig after a successful parse; a shadow comparison is refused when the RL policy itself is active. */
    method Finish(fromFile: Option<FeatureBuckets>, rlMode: bool, rlShadow: Option<bool>) returns (accepted: bool)
      modifies this
      ensures accepted <==> !(rlMode && rlShadow == Some(true))
      ensures Value() == Clamped(WithDefaults(old(Value()), fromFile))
      ensures WellFormed(Value())
    {
      var d := WithDefaults(Value(), fromFile);
      riskMultiplier, minSpotRatio, maxSpotRatio := d.dials.riskMultiplier, d.dials.minSpotRatio, d.dials.maxSpotRatio;
      targetSpotRatio, stepMinutes, policy := d.dials.targetSpotRatio, d.dials.stepMinutes, d.policy;
      hide WithDefaults, ClampPolicy, ClampDials, WellFormed;
      ApplyRuntimeClamps();
      ClampedIsWellFormed(d);
      accepted := !(rlMode && rlShadow == Some(true));
    }
  }

  /** resolvedCapRules for one list. */
  method ResolveCapRules(configured: seq<CapRule>, fallback: seq<CapRule>, unit: bool) returns (out: seq<CapRule>)
    ensures out == Resolve(configured, fallback, unit)
  {
    if configured == [] {
      return fallback;
    }
    out := NormalizeCapRules(configured, unit);
  }

  method ResolveRules(r: RuleSet) returns (out: RuleSet)
    ensures out == ClampRules(r)
  {
    hide Resolve;
    var priority := ResolveCapRules(r.priority, DEFAULT_PRIORITY_RULES, true);
    var outage := ResolveCapRules(r.outage, DEFAULT_OUTAGE_RULES, false);
    var startup := ResolveCapRules(r.startup, DEFAULT_STARTUP_RULES, false);
    var migration := ResolveCapRules(r.migration, DEFAULT_MIGRATION_RULES, false);
    var utilization := ResolveCapRules(r.utilization, DEFAULT_UTILIZATION_RULES, true);
    out := RuleSet(priority, outage, startup, migration, utilization);
  }

  /** All four lists are normalised; if any is left with fewer than two boundaries, all fall back. */
  method NormalizeBuckets(b: FeatureBuckets) returns (out: FeatureBuckets)
    ensures out == ClampBuckets(b)
  {
    hide NormalBoundaries;
    var podStartup := NormalizeBoundaries(b.podStartup);
    var outagePenalty := NormalizeBoundaries(b.outagePenalty);
    var priority := NormalizeBoundaries(b.priority);
    var utilization := NormalizeBoundaries(b.utilization);
    out := FeatureBuckets(podStartup, outagePenalty, priority, utilization);
    if TooFew(out) {
      out := DEFAULT_BUCKETS;
    }
  }

  // ----- what clamping achieves

  lemma ThreeRulesAreNormal(a: CapRule, b: CapRule, c: CapRule, unit: bool)
    requires a.threshold > b.threshold > c.threshold >= 0.0 && (unit ==> a.threshold <= 1.0)
    requires forall r :: r in [a, b, c] ==> 0.0 <= r.maxSpotRatio <= 1.0
    ensures IsNormal([a, b, c], unit)
  {
    var s := [a, b, c];
    assert Ordered([c], AtOrBefore);
    assert [b, c][1..] == [c];
    assert Ordered([b, c], AtOrBefore);
    assert s[1..] == [b, c];
  }

  lemma OutageRulesAreNormal()
    ensures IsNormal(DEFAULT_OUTAGE_RULES, false)
  {
    var o := DEFAULT_OUTAGE_RULES;
    var tail := [CapRule(48.0, 0.20), CapRule(24.0, 0.30), CapRule(10.0, 0.50)];
    ThreeRulesAreNormal(tail[0], tail[1], tail[2], false);
    assert o[1..] == tail;
    assert Below(o[0], tail, AtOrBefore);
    forall c | c in o ensures ClampRule(c, false) == c {
      assert c == o[0] || c in tail;
    }
  }

  lemma DefaultRulesAreNormal()
    ensures IsNormal(DEFAULT_PRIORITY_RULES, true) && IsNormal(DEFAULT_OUTAGE_RULES, false)
    ensures IsNormal(DEFAULT_STARTUP_RULES, false) && IsNormal(DEFAULT_MIGRATION_RULES, false)
    ensures IsNormal(DEFAULT_UTILIZATION_RULES, true)
  {
    ThreeRulesAreNormal(CapRule(0.90, 0.20), CapRule(0.70, 0.50), CapRule(0.45, 0.80), true);
    ThreeRulesAreNormal(CapRule(600.0, 0.20), CapRule(300.0, 0.30), CapRule(120.0, 0.50), false);
    ThreeRulesAreNormal(CapRule(8.0, 0.20), CapRule(5.0, 0.30), CapRule(2.0, 0.60), false);
    OutageRulesAreNormal();
  }

  lemma PrependBoundary(x: real, s: seq<real>)
    requires StrictlyIncreasing(s) && 0.0 <= x && (s != [] ==> x < s[0]) && forall y :: y in s ==> y >= 0.0
    ensures StrictlyIncreasing([x] + s) && forall y :: y in [x] + s ==> y >= 0.0
  {
    forall j | 0 < j < |[x] + s| ensures x < ([x] + s)[j] {
      assert j == 1 || s[0] < s[j - 1];
    }
  }

  lemma DefaultBucketsAreNormal()
    ensures NormalBuckets(DEFAULT_BUCKETS)
  {
    assert NormalBucket([0.0, 60.0, 120.0, 300.0, 600.0, 1200.0]) by {
      PrependBoundary(60.0, [120.0, 300.0, 600.0, 1200.0]);
      PrependBoundary(0.0, [60.0] + [120.0, 300.0, 600.0, 1200.0]);
      assert [0.0] + ([60.0] + [120.0, 300.0, 600.0, 1200.0]) == [0.0, 60.0, 120.0, 300.0, 600.0, 1200.0];
    }
    assert NormalBucket([0.0, 1.0, 4.0, 10.0, 24.0, 48.0, 96.0]) by {
      PrependBoundary(4.0, [10.0, 24.0, 48.0, 96.0]);
      PrependBoundary(1.0, [4.0] + [10.0, 24.0, 48.0, 96.0]);
      PrependBoundary(0.0, [1.0] + ([4.0] + [10.0, 24.0, 48.0, 96.0]));
      assert [0.0] + ([1.0] + ([4.0] + [10.0, 24.0, 48.0, 96.0])) == [0.0, 1.0, 4.0, 10.0, 24.0, 48.0, 96.0];
    }
    assert NormalBucket([0.0, 0.25, 0.5, 0.75, 1.0]) by {
      PrependBoundary(0.0, [0.25, 0.5, 0.75, 1.0]);
      assert [0.0] + [0.25, 0.5, 0.75, 1.0] == [0.0, 0.25, 0.5, 0.75, 1.0];
    }
    assert NormalBucket([0.0, 0.5, 0.7, 0.85, 0.95, 1.0]) by {
      PrependBoundary(0.5, [0.7, 0.85, 0.95, 1.0]);
      PrependBoundary(0.0, [0.5] + [0.7, 0.85, 0.95, 1.0]);
      assert [0.0] + ([0.5] + [0.7, 0.85, 0.95, 1.0]) == [0.0, 0.5, 0.7, 0.85, 0.95, 1.0];
    }
  }

  lemma ClampBucketsIsNormal(b: FeatureBuckets)
    ensures NormalBuckets(ClampBuckets(b))
  {
    DefaultBucketsAreNormal();
    var lists := [b.podStartup, b.outagePenalty, b.priority, b.utilization];
    forall v | v in lists
      ensures StrictlyIncreasing(NormalBoundaries(v)) && forall x :: x in NormalBoundaries(v) ==> x >= 0.0
    {
      BoundariesMeaning(v);
      MapMembers(v, NonNegative);
    }
    assert lists[0] in lists && lists[1] in lists && lists[2] in lists && lists[3] in lists;
  }

  lemma ResolveIsNormal(configured: seq<CapRule>, fallback: seq<CapRule>, unit: bool)
    requires IsNormal(fallback, unit) && fallback != []
    ensures IsNormal(Resolve(configured, fallback, unit), unit) && Resolve(configured, fallback, unit) != []
  {
    if configured != [] {
      NormalizeIsNormal(configured, unit);
      NormalizeContains(configured, unit, configured[0]);
    }
  }

  lemma ClampRulesIsNormal(r: RuleSet)
    ensures NormalRules(ClampRules(r))
  {
    DefaultRulesAreNormal();
    ResolveIsNormal(r.priority, DEFAULT_PRIORITY_RULES, true);
    ResolveIsNormal(r.outage, DEFAULT_OUTAGE_RULES, false);
    ResolveIsNormal(r.startup, DEFAULT_STARTUP_RULES, false);
    ResolveIsNormal(r.migration, DEFAULT_MIGRATION_RULES, false);
    ResolveIsNormal(r.utilization, DEFAULT_UTILIZATION_RULES, true);
  }

  lemma ClampDialsAreOrdered(d: Dials)
    ensures OrderedDials(ClampDials(d))
  {
  }

  /** y is x, or the bound nearest to it. */
  ghost predicate Nearest(y: real, x: real, lo: real, hi: real) {
    lo <= y <= hi && (x < lo ==> y == lo) && (x > hi ==> y == hi) && (lo <= x <= hi ==> y == x)
  }

  /** Where every threshold ends up: unit scores and shares, paybacks of six minutes to a week, and bands pulled down into order. */
  lemma ThresholdBounds(t: Thresholds)
    ensures var u := ClampThresholds(t);
            && Nearest(u.emergencyRisk, t.emergencyRisk, 0.0, 1.0) && Nearest(u.runtimeEmergency, t.runtimeEmergency, 0.0, 1.0)
            && (t.highRisk <= t.emergencyRisk ==> Nearest(u.highRisk, t.highRisk, 0.0, 1.0))
            && (t.highRisk > t.emergencyRisk ==> u.highRisk == u.emergencyRisk)
            && (t.mediumRisk <= t.highRisk && t.mediumRisk <= t.emergencyRisk ==> Nearest(u.mediumRisk, t.mediumRisk, 0.0, 1.0))
            && (t.mediumRisk > t.highRisk || t.mediumRisk > t.emergencyRisk ==> u.mediumRisk == u.highRisk)
            && Nearest(u.minSavings, t.minSavings, 0.0, 1.0) && Nearest(u.maxPayback, t.maxPayback, 0.1, 168.0)
            && u.oodConservative == t.oodConservative && Nearest(u.oodMaxRisk, t.oodMaxRisk, 0.0, 1.0)
            && Nearest(u.oodMinSavings, t.oodMinSavings, 0.0, 1.0) && Nearest(u.oodMaxPayback, t.oodMaxPayback, 0.1, 168.0)
            && u.driftAlpha.Some? && (t.driftAlpha.Some? ==> Nearest(u.driftAlpha.value, t.driftAlpha.value, 0.0, 1.0))
            && (t.driftAlpha.None? ==> u.driftAlpha.value == 0.10)
  {
  }

  /** Where every dial ends up; a maximum of zero counts as unset. */
  lemma DialBounds(d: Dials)
    ensures var u := ClampDials(d);
            && Nearest(u.riskMultiplier, d.riskMultiplier, 0.1, 10.0)
            && (d.maxSpotRatio == 0.0 ==> u.maxSpotRatio == 1.0) && (d.maxSpotRatio != 0.0 ==> Nearest(u.maxSpotRatio, d.maxSpotRatio, 0.0, 1.0))
            && Nearest(u.minSpotRatio, d.minSpotRatio, 0.0, u.maxSpotRatio)
            && Nearest(u.targetSpotRatio, d.targetSpotRatio, u.minSpotRatio, u.maxSpotRatio)
            && 1 <= u.stepMinutes <= 120 && (1 <= d.stepMinutes <= 120 ==> u.stepMinutes == d.stepMinutes)
            && (d.stepMinutes < 1 ==> u.stepMinutes == 1) && (d.stepMinutes > 120 ==> u.stepMinutes == 120)
  {
  }

  /** An empty configuration: every scalar it loads to, by number. */
  lemma EmptyConfigLoads(c: Config, fromFile: Option<FeatureBuckets>)
    requires c.dials == Dials(0.0, 0.0, 0.0, 0.0, 0)
    requires c.policy.thresholds == Thresholds(0.0, 0.0, 0.0, 0.0, 0.0, 0.0, true, 0.0, 0.0, 0.0, None)
    ensures var u := Clamped(WithDefaults(c, fromFile));
            && u.dials == Dials(1.0, 0.0, 1.0, 0.0, 10)
            && u.policy.thresholds == Thresholds(0.90, 0.80, 0.60, 0.35, 0.15, 6.0, true, 0.25, 0.25, 3.0, Some(0.10))
  {
    hide ClampRules, ClampBuckets, RuleDefaults, BucketDefaults;
  }

  /** A configured scalar is never overridden by a default. */
  lemma DefaultsFillGapsOnly(t: Thresholds)
    ensures var u := ThresholdDefaults(t);
            && (t.emergencyRisk != 0.0 ==> u.emergencyRisk == t.emergencyRisk) && (t.runtimeEmergency != 0.0 ==> u.runtimeEmergency == t.runtimeEmergency)
            && (t.highRisk != 0.0 ==> u.highRisk == t.highRisk) && (t.mediumRisk != 0.0 ==> u.mediumRisk == t.mediumRisk)
            && (t.minSavings != 0.0 ==> u.minSavings == t.minSavings) && (t.maxPayback != 0.0 ==> u.maxPayback == t.maxPayback)
            && (t.oodMaxRisk != 0.0 ==> u.oodMaxRisk == t.oodMaxRisk) && (t.oodMinSavings != 0.0 ==> u.oodMinSavings == t.oodMinSavings)
            && (t.oodMaxPayback != 0.0 ==> u.oodMaxPayback == t.oodMaxPayback) && (t.driftAlpha.Some? ==> u.driftAlpha == t.driftAlpha)
  {
  }

  /** Where the rule lists and buckets of a loaded configuration come from. */
  lemma ListSources(c: Config, fromFile: Option<FeatureBuckets>)
    ensures var r := WithDefaults(c, fromFile).policy.rules;
            && r.priority == (if c.policy.rules.priority == [] then DEFAULT_PRIORITY_RULES else c.policy.rules.priority)
            && r.outage == (if c.policy.rules.outage == [] then DEFAULT_OUTAGE_RULES else c.policy.rules.outage)
            && r.startup == (if c.policy.rules.startup == [] then DEFAULT_STARTUP_RULES else c.policy.rules.startup)
            && r.migration == (if c.policy.rules.migration == [] then DEFAULT_MIGRATION_RULES else c.policy.rules.migration)
            && r.utilization == (if c.policy.rules.utilization == [] then DEFAULT_UTILIZATION_RULES else c.policy.rules.utilization)
    ensures var b, given := WithDefaults(c, fromFile).policy.buckets, c.policy.buckets;
            && (given.podStartup != [] || given.outagePenalty != [] || given.priority != [] || given.utilization != [] ==> b == given)
            && (given == FeatureBuckets([], [], [], []) && fromFile.Some? && fromFile.value != FeatureBuckets([], [], [], []) ==> b == fromFile.value)
            && (given == FeatureBuckets([], [], [], []) && (fromFile.None? || fromFile.value == FeatureBuckets([], [], [], [])) ==> b == DEFAULT_BUCKETS)
  {
  }

  lemma ClampThresholdsAreOrdered(t: Thresholds)
    ensures OrderedBands(ClampThresholds(t))
  {
  }

  /** Whatever an operator writes, the loaded bands are ordered and every ratio is usable. */
  lemma ClampedIsWellFormed(c: Config)
    ensures WellFormed(Clamped(c))
  {
    assert NormalRules(ClampRules(c.policy.rules)) by {
      ClampRulesIsNormal(c.policy.rules);
    }
    assert NormalBuckets(ClampBuckets(c.policy.buckets)) by {
      ClampBucketsIsNormal(c.policy.buckets);
    }
    ClampDialsAreOrdered(c.dials);
    ClampThresholdsAreOrdered(c.policy.thresholds);
  }

  lemma ResolveFixesNormal(rules: seq<CapRule>, fallback: seq<CapRule>, unit: bool)
    requires IsNormal(rules, unit) && rules != []
    ensures Resolve(rules, fallback, unit) == rules
  {
    NormalizeFixesNormal(rules, unit);
  }

  lemma ClampBucketsFixesNormal(b: FeatureBuckets)
    requires NormalBuckets(b)
    ensures ClampBuckets(b) == b
  {
    NormalBoundariesFixes(b.podStartup);
    NormalBoundariesFixes(b.outagePenalty);
    NormalBoundariesFixes(b.priority);
    NormalBoundariesFixes(b.utilization);
  }

  lemma ClampRulesFixesNormal(r: RuleSet)
    requires NormalRules(r)
    ensures ClampRules(r) == r
  {
    ResolveFixesNormal(r.priority, DEFAULT_PRIORITY_RULES, true);
    ResolveFixesNormal(r.outage, DEFAULT_OUTAGE_RULES, false);
    ResolveFixesNormal(r.startup, DEFAULT_STARTUP_RULES, false);
    ResolveFixesNormal(r.migration, DEFAULT_MIGRATION_RULES, false);
    ResolveFixesNormal(r.utilization, DEFAULT_UTILIZATION_RULES, true);
  }

  lemma ClampThresholdsIsIdempotent(t: Thresholds)
    ensures ClampThresholds(ClampThresholds(t)) == ClampThresholds(t)
  {
    var c := ClampThresholds(t);
    assert 0.0 <= c.mediumRisk <= c.highRisk <= c.emergencyRisk <= 1.0;
  }

  lemma ClampPolicyIsIdempotent(p: PolicyConfig)
    ensures ClampPolicy(ClampPolicy(p)) == ClampPolicy(p)
  {
    var t, r, b := ClampThresholds(p.thresholds), ClampRules(p.rules), ClampBuckets(p.buckets);
    assert ClampThresholds(t) == t by {
      ClampThresholdsIsIdempotent(p.thresholds);
    }
    assert ClampRules(r) == r by {
      ClampRulesIsNormal(p.rules);
      ClampRulesFixesNormal(r);
    }
    assert ClampBuckets(b) == b by {
      ClampBucketsIsNormal(p.buckets);
      ClampBucketsFixesNormal(b);
    }
  }

  lemma ClampDialsTwice(d: Dials)
    ensures ClampDials(ClampDials(d)) == ClampDials(d) <==> d.maxSpotRatio >= 0.0
    ensures d.maxSpotRatio < 0.0 ==> ClampDials(d).maxSpotRatio == 0.0 && ClampDials(ClampDials(d)).maxSpotRatio == 1.0
  {
  }

  /**
    Clamping twice equals clamping once unless the configured maximum is negative: that maximum
    becomes 0 on the first pass, which the second pass reads as "unset" and lifts to 1.
   */
  lemma ClampedIsIdempotentIff(c: Config)
    ensures Clamped(Clamped(c)) == Clamped(c) <==> c.dials.maxSpotRatio >= 0.0
    ensures c.dials.maxSpotRatio < 0.0 ==>
              Clamped(c).dials.maxSpotRatio == 0.0 && Clamped(Clamped(c)).dials.maxSpotRatio == 1.0
  {
    ClampDialsTwice(c.dials);
    ClampPolicyIsIdempotent(c.policy);
  }
}
