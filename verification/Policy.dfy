/**
  The deterministic policy: market risk bands first, then the pool's own cap, then economics.
 */
module Policy {
  import opened Numbers
  import opened CapRules
  import opened RuntimeConfigs
  import opened PoolSafety
  import opened Actions

  datatype NodeState = NodeState(
    spotPrice: real, onDemandPrice: real,
    podStartupTime: real, outagePenaltyHours: real, migrationCost: real, priorityScore: real, clusterUtilization: real,
    currentSpotRatio: real, poolSafety: SafetyVector)

  datatype Decision = Decision(
    action: Action, mode: ResponseMode, compositeRisk: real, featureCap: real, workloadCap: real, effectiveCap: real)

  const CAP_TOLERANCE := 0.000001

  // ----- caps

  /** computeFeatureSpotCap: five features, each able to tighten the running cap. */
  function FeatureCap(rules: RuleSet, s: NodeState): real {
    var cap1 := FirstMatch(s.priorityScore, 1.0, rules.priority);
    var cap2 := FirstMatch(s.outagePenaltyHours, cap1, rules.outage);
    var cap3 := FirstMatch(s.podStartupTime, cap2, rules.startup);
    var cap4 := FirstMatch(s.migrationCost, cap3, rules.migration);
    var cap5 := FirstMatch(s.clusterUtilization, cap4, rules.utilization);
    Clamp(cap5, 0.0, 1.0)
  }

  /** x is the clamped ratio of a rule that binds at the value, the built-in rules standing in for an empty list. */
  ghost predicate BindingRatio(rules: seq<CapRule>, fallback: seq<CapRule>, unit: bool, value: real, x: real) {
    exists r :: Binds(RulesOrDefault(rules, fallback), unit, value, r) && ClampRule(r, unit).maxSpotRatio == x
  }

  /** x is the ratio of a binding rule of one of the five features; no order of lists or rules is involved. */
  ghost predicate BindsSomewhere(r: RuleSet, s: NodeState, x: real) {
    || BindingRatio(r.priority, DEFAULT_PRIORITY_RULES, true, s.priorityScore, x)
    || BindingRatio(r.outage, DEFAULT_OUTAGE_RULES, false, s.outagePenaltyHours, x)
    || BindingRatio(r.startup, DEFAULT_STARTUP_RULES, false, s.podStartupTime, x)
    || BindingRatio(r.migration, DEFAULT_MIGRATION_RULES, false, s.migrationCost, x)
    || BindingRatio(r.utilization, DEFAULT_UTILIZATION_RULES, true, s.clusterUtilization, x)
  }

  /** cap is the least of 1 and all binding ratios. */
  ghost predicate IsLeastBinding(r: RuleSet, s: NodeState, cap: real) {
    && cap <= 1.0 && (cap == 1.0 || BindsSomewhere(r, s, cap))
    && forall x :: BindsSomewhere(r, s, x) ==> cap <= x
  }

  /** computeFeatureSpotCap of an evaluator built from the configured rules. */
  method ComputeFeatureSpotCap(r: RuleSet, s: NodeState) returns (cap: real)
    ensures IsLeastBinding(r, s, cap)
    ensures cap == FeatureCap(ClampRules(r), s)
  {
    var rules := ResolveRules(r);
    cap := 1.0;
    cap := ApplyCapRules(s.priorityScore, cap, rules.priority);
    cap := ApplyCapRules(s.outagePenaltyHours, cap, rules.outage);
    cap := ApplyCapRules(s.podStartupTime, cap, rules.startup);
    cap := ApplyCapRules(s.migrationCost, cap, rules.migration);
    cap := ApplyCapRules(s.clusterUtilization, cap, rules.utilization);
    cap := Clamp(cap, 0.0, 1.0);
    FeatureCapIsLeastBinding(r, s);
  }

  /** One feature: the cap is tightened to the binding ratio, if there is one below it. */
  lemma LinkMeaning(rules: seq<CapRule>, fallback: seq<CapRule>, unit: bool, value: real, cap: real)
    requires IsNormal(fallback, unit) && cap >= 0.0
    ensures var c := FirstMatch(value, cap, Resolve(rules, fallback, unit));
            && 0.0 <= c <= cap
            && (c == cap || BindingRatio(rules, fallback, unit, value, c))
            && forall x :: BindingRatio(rules, fallback, unit, value, x) ==> c <= x
  {
    var given := RulesOrDefault(rules, fallback);
    ResolveIsNormalize(rules, fallback, unit);
    var c := FirstMatch(value, cap, Normalize(given, unit));
    forall x | BindingRatio(rules, fallback, unit, value, x) ensures c <= x {
      var r :| Binds(given, unit, value, r) && ClampRule(r, unit).maxSpotRatio == x;
      FirstMatchRefinesBinding(given, unit, value, cap, r);
    }
    if r :| Matches(given, unit, value, r) {
      var b := SomeRuleBinds(given, unit, value, r);
      FirstMatchRefinesBinding(given, unit, value, cap, b);
    } else {
      UnmatchedLeavesCap(given, unit, value, cap);
    }
  }

  /** The five-step chain computes a minimum, so neither the order of the features nor that of their rules matters. */
  lemma FeatureCapIsLeastBinding(r: RuleSet, s: NodeState)
    ensures IsLeastBinding(r, s, FeatureCap(ClampRules(r), s))
  {
    hide BindingRatio, FirstMatch, Resolve, IsNormal;
    var c := ClampRules(r);
    DefaultRulesAreNormal();
    var cap1 := FirstMatch(s.priorityScore, 1.0, c.priority);
    var cap2 := FirstMatch(s.outagePenaltyHours, cap1, c.outage);
    var cap3 := FirstMatch(s.podStartupTime, cap2, c.startup);
    var cap4 := FirstMatch(s.migrationCost, cap3, c.migration);
    LinkMeaning(r.priority, DEFAULT_PRIORITY_RULES, true, s.priorityScore, 1.0);
    LinkMeaning(r.outage, DEFAULT_OUTAGE_RULES, false, s.outagePenaltyHours, cap1);
    LinkMeaning(r.startup, DEFAULT_STARTUP_RULES, false, s.podStartupTime, cap2);
    LinkMeaning(r.migration, DEFAULT_MIGRATION_RULES, false, s.migrationCost, cap3);
    LinkMeaning(r.utilization, DEFAULT_UTILIZATION_RULES, true, s.clusterUtilization, cap4);
  }

  function WorkloadCap(rules: RuleSet, s: NodeState): real {
    Clamp(Min(FeatureCap(rules, s), ResolveVector(s.poolSafety).safeMax), 0.0, 1.0)
  }

  function EffectiveCap(cfg: Config, s: NodeState): real {
    Clamp(WorkloadCap(ClampRules(cfg.policy.rules), s), cfg.dials.minSpotRatio, cfg.dials.maxSpotRatio)
  }

  // ----- economics and familiarity

  /** canIncreaseSpot */
  predicate CanIncrease(s: NodeState, risk: real, maxRisk: real, minSavings: real, maxPayback: real) {
    var delta := Max(0.0, s.onDemandPrice - s.spotPrice);
    && s.onDemandPrice > 0.0
    && delta > 0.0
    && risk <= maxRisk
    && delta / Max(s.onDemandPrice, 0.000001) >= minSavings
    && s.migrationCost / Max(delta, 0.000001) <= maxPayback
  }

  /** detectOOD: which features lie outside the ranges the buckets cover. */
  function OodReasons(s: NodeState, b: FeatureBuckets): seq<string> {
    (if OutOfRange(s.podStartupTime, b.podStartup) then ["pod_startup_time"] else []) +
    (if OutOfRange(s.outagePenaltyHours, b.outagePenalty) then ["outage_penalty_hours"] else []) +
    (if OutOfRange(s.priorityScore, b.priority) then ["priority_score"] else []) +
    (if OutOfRange(s.clusterUtilization, b.utilization) then ["cluster_utilization"] else [])
  }

  // ----- the decision

  /** What Decide looks at besides the market scores. */
  datatype Position = Position(
    ratio: real, cap: real, safetyRisk: real, slackOne: real, cautious: bool)

  predicate Overshoots(p: Position) {
    p.ratio - p.cap > CAP_TOLERANCE
  }

  predicate MustReduceFast(p: Position) {
    p.ratio - p.cap >= 0.25 || p.safetyRisk >= 0.85 || p.slackOne < 0.0
  }

  /** The eight-step cascade; oodEdge and edge are the two economic gates at the given risk. */
  function Decide(t: Thresholds, risk: real, runtime: real, p: Position, oodEdge: bool, edge: bool): (Action, ResponseMode) {
    if risk >= t.emergencyRisk || runtime >= t.runtimeEmergency then (EmergencyExit, EmergencyMode)
    else if risk >= t.highRisk then (Decrease30, ReduceFast)
    else if risk >= t.mediumRisk then (Decrease10, ReduceGradual)
    else if Overshoots(p) then (if MustReduceFast(p) then (Decrease30, ReduceFast) else (Decrease10, ReduceGradual))
    else if p.ratio >= p.cap - CAP_TOLERANCE then (Hold, FreezeSpot)
    else if p.safetyRisk >= 0.60 then (Hold, FreezeSpot)
    else if p.cautious then (if oodEdge then (Increase10, AllowGrowth) else (Hold, HoldSteady))
    else if edge then (if p.cap - p.ratio >= 0.25 then (Increase30, AllowGrowth) else (Increase10, AllowGrowth))
    else (Hold, HoldSteady)
  }

  function PositionOf(cfg: Config, s: NodeState): Position {
    var v := ResolveVector(s.poolSafety);
    Position(s.currentSpotRatio, EffectiveCap(cfg, s), v.risk, v.signals.slackOne,
             OodReasons(s, cfg.policy.buckets) != [] && cfg.policy.thresholds.oodConservative)
  }

  predicate OodEdge(cfg: Config, s: NodeState, risk: real) {
    var t := cfg.policy.thresholds;
    CanIncrease(s, risk, t.oodMaxRisk, t.oodMinSavings, t.oodMaxPayback)
  }

  predicate Edge(cfg: Config, s: NodeState, risk: real) {
    var t := cfg.policy.thresholds;
    CanIncrease(s, risk, t.mediumRisk, t.minSavings, t.maxPayback)
  }

  function Evaluate(cfg: Config, s: NodeState, capacityScore: real, runtimeScore: real): Decision {
    var risk := Max(capacityScore, runtimeScore);
    var (action, mode) := Decide(cfg.policy.thresholds, risk, runtimeScore, PositionOf(cfg, s),
                                 OodEdge(cfg, s, risk), Edge(cfg, s, risk));
    var rules := ClampRules(cfg.policy.rules);
    Decision(action, mode, risk, FeatureCap(rules, s), WorkloadCap(rules, s), EffectiveCap(cfg, s))
  }

  function SeverityOf(cfg: Config, s: NodeState, capacityScore: real, runtimeScore: real): nat {
    Severity(Evaluate(cfg, s, capacityScore, runtimeScore).action)
  }

  predicate NoMarketBand(t: Thresholds, risk: real, runtime: real) {
    risk < t.emergencyRisk && runtime < t.runtimeEmergency && risk < t.highRisk && risk < t.mediumRisk
  }

  predicate HasRoom(p: Position) {
    p.ratio < p.cap - CAP_TOLERANCE && p.safetyRisk < 0.60
  }

  /** Each action's own condition, stated without reference to the order of the cascade. */
  lemma DecideByAction(t: Thresholds, risk: real, runtime: real, p: Position, oodEdge: bool, edge: bool)
    requires OrderedBands(t)
    ensures var (a, mode) := Decide(t, risk, runtime, p, oodEdge, edge);
            var over, gap := p.ratio - p.cap, p.cap - p.ratio;
            var calm := risk < t.mediumRisk && runtime < t.runtimeEmergency;
            var fast := over >= 0.25 || p.safetyRisk >= 0.85 || p.slackOne < 0.0;
            var room := gap > 0.000001 && p.safetyRisk < 0.60;
            && (a == EmergencyExit <==> risk >= t.emergencyRisk || runtime >= t.runtimeEmergency)
            && (a == Decrease30 <==> runtime < t.runtimeEmergency
                                     && (t.highRisk <= risk < t.emergencyRisk || (calm && over > 0.000001 && fast)))
            && (a == Decrease10 <==> runtime < t.runtimeEmergency
                                     && (t.mediumRisk <= risk < t.highRisk || (calm && over > 0.000001 && !fast)))
            && (a == Increase30 <==> calm && room && !p.cautious && edge && gap >= 0.25)
            && (a == Increase10 <==> calm && room && if p.cautious then oodEdge else edge && gap < 0.25)
            && (mode == FreezeSpot <==> calm && over <= 0.000001 && !room)
  {
  }

  /** The effective cap: the least of 1, the binding feature ratios and the pool's safe cap, brought within the configured bounds. */
  lemma EffectiveCapMeaning(cfg: Config, s: NodeState) returns (least: real)
    requires OrderedDials(cfg.dials)
    ensures IsLeastBinding(cfg.policy.rules, s, least)
    ensures EffectiveCap(cfg, s) ==
            Max(cfg.dials.minSpotRatio, Min(cfg.dials.maxSpotRatio, Min(least, ResolveVector(s.poolSafety).safeMax)))
  {
    least := FeatureCap(ClampRules(cfg.policy.rules), s);
    FeatureCapIsLeastBinding(cfg.policy.rules, s);
    hide FeatureCap, ClampRules, IsLeastBinding;
  }

  /** The economics gate: a positive saving of the required share, a tolerable risk, and a payback in time. */
  ghost predicate Pays(s: NodeState, risk: real, maxRisk: real, minSavings: real, maxPayback: real) {
    var saving := s.onDemandPrice - s.spotPrice;
    && s.onDemandPrice > 0.0 && saving > 0.0 && risk <= maxRisk
    && saving / Max(s.onDemandPrice, 0.000001) >= minSavings
    && s.migrationCost / Max(saving, 0.000001) <= maxPayback
  }

  /** Some feature lies outside the range its buckets cover. */
  ghost predicate Unfamiliar(s: NodeState, b: FeatureBuckets) {
    || OutOfRange(s.podStartupTime, b.podStartup) || OutOfRange(s.outagePenaltyHours, b.outagePenalty)
    || OutOfRange(s.priorityScore, b.priority) || OutOfRange(s.clusterUtilization, b.utilization)
  }

  /** The whole evaluation: each action's condition on the configuration, the state and the two scores. */
  lemma EvaluateByAction(cfg: Config, s: NodeState, c: real, r: real)
    requires OrderedBands(cfg.policy.thresholds)
    ensures var d := Evaluate(cfg, s, c, r);
            var t, v, cap := cfg.policy.thresholds, ResolveVector(s.poolSafety), EffectiveCap(cfg, s);
            var risk := if c >= r then c else r;
            var over, gap := s.currentSpotRatio - cap, cap - s.currentSpotRatio;
            var calm := risk < t.mediumRisk && r < t.runtimeEmergency;
            var fast := over >= 0.25 || v.risk >= 0.85 || v.signals.slackOne < 0.0;
            var room := gap > 0.000001 && v.risk < 0.60;
            var cautious := t.oodConservative && Unfamiliar(s, cfg.policy.buckets);
            var edge := Pays(s, risk, t.mediumRisk, t.minSavings, t.maxPayback);
            && (d.action == EmergencyExit <==> risk >= t.emergencyRisk || r >= t.runtimeEmergency)
            && (d.action == Decrease30 <==> r < t.runtimeEmergency
                                            && (t.highRisk <= risk < t.emergencyRisk || (calm && over > 0.000001 && fast)))
            && (d.action == Decrease10 <==> r < t.runtimeEmergency
                                            && (t.mediumRisk <= risk < t.highRisk || (calm && over > 0.000001 && !fast)))
            && (d.action == Increase30 <==> calm && room && !cautious && edge && gap >= 0.25)
            && (d.action == Increase10 <==> calm && room &&
                                            if cautious then Pays(s, risk, t.oodMaxRisk, t.oodMinSavings, t.oodMaxPayback) else edge && gap < 0.25)
            && (d.mode == FreezeSpot <==> calm && over <= 0.000001 && !room)
  {
    var t, risk := cfg.policy.thresholds, Max(c, r);
    DecideByAction(t, risk, r, PositionOf(cfg, s), OodEdge(cfg, s, risk), Edge(cfg, s, risk));
    assert OodEdge(cfg, s, risk) == Pays(s, risk, t.oodMaxRisk, t.oodMinSavings, t.oodMaxPayback);
    assert Edge(cfg, s, risk) == Pays(s, risk, t.mediumRisk, t.minSavings, t.maxPayback);
    assert (OodReasons(s, cfg.policy.buckets) != []) == Unfamiliar(s, cfg.policy.buckets);
    hide Decide, EffectiveCap, FeatureCap, WorkloadCap, ClampRules, CanIncrease, Pays, OodReasons, Unfamiliar, OutOfRange, OodEdge, Edge;
  }

  // ----- a more dangerous pool is never treated more leniently

  lemma DecideIsMonotoneInSafety(t: Thresholds, risk: real, runtime: real, a: Position, b: Position, oodEdge: bool, edge: bool)
    requires a.ratio == b.ratio && b.cap <= a.cap && a.safetyRisk <= b.safetyRisk && b.slackOne <= a.slackOne
    requires a.cautious == b.cautious
    ensures Severity(Decide(t, risk, runtime, a, oodEdge, edge).0) <= Severity(Decide(t, risk, runtime, b, oodEdge, edge).0)
  {
  }

  lemma CapFollowsSafeMax(cfg: Config, s: NodeState, a: SafetyVector, b: SafetyVector)
    requires ResolveVector(b).safeMax <= ResolveVector(a).safeMax
    ensures EffectiveCap(cfg, s.(poolSafety := b)) <= EffectiveCap(cfg, s.(poolSafety := a))
            || cfg.dials.minSpotRatio > cfg.dials.maxSpotRatio
  {
    var rules := ClampRules(cfg.policy.rules);
    assert FeatureCap(rules, s.(poolSafety := a)) == FeatureCap(rules, s.(poolSafety := b));
  }

  /** The evaluator alone: a vector measured from worse signals, all else in the state equal, never softens the action. */
  lemma WorseVectorNeverSoftensAction(cfg: Config, s: NodeState, a: Signals, b: Signals, capacityScore: real, runtimeScore: real)
    requires WellFormed(cfg) && Worse(a, b)
    ensures SeverityOf(cfg, s.(poolSafety := Measured(a)), capacityScore, runtimeScore)
            <= SeverityOf(cfg, s.(poolSafety := Measured(b)), capacityScore, runtimeScore)
  {
    hide Measured, EffectiveCap, Decide, Severity, NormalRules, NormalBuckets, OrderedBands, FeatureCap, WorkloadCap, ClampRules;
    var sa, sb := s.(poolSafety := Measured(a)), s.(poolSafety := Measured(b));
    var risk := Max(capacityScore, runtimeScore);
    MeasuredIsUsable(a);
    MeasuredIsUsable(b);
    WorseSignalsTightenVector(a, b);
    CapFollowsSafeMax(cfg, s, Measured(a), Measured(b));
    assert OodEdge(cfg, sa, risk) == OodEdge(cfg, sb, risk) && Edge(cfg, sa, risk) == Edge(cfg, sb, risk);
    DecideIsMonotoneInSafety(cfg.policy.thresholds, risk, runtimeScore, PositionOf(cfg, sa), PositionOf(cfg, sb),
                             OodEdge(cfg, sa, risk), Edge(cfg, sa, risk));
  }

  // ----- market scores

  ghost predicate UnitScores(c: real, r: real) {
    0.0 <= c <= 1.0 && 0.0 <= r <= 1.0
  }

  /** Higher scores never give a softer action. */
  ghost predicate MarketMonotone(cfg: Config, s: NodeState) {
    forall c, r, c', r' :: UnitScores(c, r) && UnitScores(c', r') && c <= c' && r <= r' ==>
      SeverityOf(cfg, s, c, r) <= SeverityOf(cfg, s, c', r')
  }

  /** Above the cap and in need of a fast reduction, with a nonempty medium band reachable from below. */
  predicate MediumBandSoftens(cfg: Config, s: NodeState) {
    var t, p := cfg.policy.thresholds, PositionOf(cfg, s);
    && Overshoots(p) && MustReduceFast(p)
    && 0.0 < t.mediumRisk < t.highRisk && 0.0 < t.runtimeEmergency
  }

  lemma EdgesFallWithRisk(cfg: Config, s: NodeState, low: real, high: real)
    requires low <= high
    ensures OodEdge(cfg, s, high) ==> OodEdge(cfg, s, low)
    ensures Edge(cfg, s, high) ==> Edge(cfg, s, low)
  {
  }

  lemma DecideIsMonotoneInRisk(t: Thresholds, risk: real, runtime: real, risk': real, runtime': real, p: Position,
                               oodEdge: bool, edge: bool, oodEdge': bool, edge': bool)
    requires risk <= risk' && runtime <= runtime' && (oodEdge' ==> oodEdge) && (edge' ==> edge)
    requires !(Overshoots(p) && MustReduceFast(p)) || (risk >= t.mediumRisk || runtime >= t.runtimeEmergency) || t.mediumRisk >= t.highRisk
    ensures Severity(Decide(t, risk, runtime, p, oodEdge, edge).0) <= Severity(Decide(t, risk', runtime', p, oodEdge', edge').0)
  {
  }

  /** For a pool at or under its cap, severity follows both market scores without exception. */
  lemma UnderCapFollowsMarket(cfg: Config, s: NodeState, c: real, r: real, c': real, r': real)
    requires !Overshoots(PositionOf(cfg, s)) && c <= c' && r <= r'
    ensures SeverityOf(cfg, s, c, r) <= SeverityOf(cfg, s, c', r')
  {
    var risk, risk' := Max(c, r), Max(c', r');
    EdgesFallWithRisk(cfg, s, risk, risk');
    DecideIsMonotoneInRisk(cfg.policy.thresholds, risk, r, risk', r', PositionOf(cfg, s),
                           OodEdge(cfg, s, risk), Edge(cfg, s, risk), OodEdge(cfg, s, risk'), Edge(cfg, s, risk'));
  }

  lemma MediumBandWitness(cfg: Config, s: NodeState)
    requires OrderedBands(cfg.policy.thresholds) && MediumBandSoftens(cfg, s)
    ensures SeverityOf(cfg, s, 0.0, 0.0) == 4
    ensures SeverityOf(cfg, s, cfg.policy.thresholds.mediumRisk, 0.0) == 3
  {
  }

  /** A pool entirely on Spot whose loss of one node breaks a budget is such a pool under any usual configuration. */
  lemma SofteningPool(cfg: Config, s: NodeState, signals: Signals)
    requires WellFormed(cfg) && cfg.dials.minSpotRatio < 0.9
    requires 0.0 < cfg.policy.thresholds.mediumRisk < cfg.policy.thresholds.highRisk && 0.0 < cfg.policy.thresholds.runtimeEmergency
    requires signals.slackOne < 0.0 && s.currentSpotRatio == 1.0 && s.poolSafety == Measured(signals)
    ensures MediumBandSoftens(cfg, s) && !MarketMonotone(cfg, s)
  {
    MeasuredIsUsable(signals);
    assert Measured(signals).safeMax == 0.10;
    assert WorkloadCap(ClampRules(cfg.policy.rules), s) <= 0.10;
    MarketMonotoneIff(cfg, s);
  }

  /**
    Severity follows the market scores for every pool except exactly those that overshoot with a
    fast-reduction reason while the medium band is nonempty: there, medium risk asks for DECREASE_10
    where low risk asks for DECREASE_30.
   */
  lemma MarketMonotoneIff(cfg: Config, s: NodeState)
    requires OrderedBands(cfg.policy.thresholds)
    ensures MarketMonotone(cfg, s) <==> !MediumBandSoftens(cfg, s)
  {
    var t, p := cfg.policy.thresholds, PositionOf(cfg, s);
    if MediumBandSoftens(cfg, s) {
      MediumBandWitness(cfg, s);
      assert UnitScores(0.0, 0.0) && UnitScores(t.mediumRisk, 0.0);
      assert !MarketMonotone(cfg, s);
    } else {
      forall c, r, c', r' | UnitScores(c, r) && UnitScores(c', r') && c <= c' && r <= r'
        ensures SeverityOf(cfg, s, c, r) <= SeverityOf(cfg, s, c', r')
      {
        var risk, risk' := Max(c, r), Max(c', r');
        EdgesFallWithRisk(cfg, s, risk, risk');
        DecideIsMonotoneInRisk(t, risk, r, risk', r', p,
                               OodEdge(cfg, s, risk), Edge(cfg, s, risk), OodEdge(cfg, s, risk'), Edge(cfg, s, risk'));
      }
    }
  }

  // ----- features

  lemma {:induction false} FirstMatchMonotoneInCap(value: real, lo: real, hi: real, rules: seq<CapRule>)
    requires lo <= hi
    ensures FirstMatch(value, lo, rules) <= FirstMatch(value, hi, rules)
  {
    if rules != [] && value < rules[0].threshold {
      FirstMatchMonotoneInCap(value, lo, hi, rules[1..]);
    }
  }

  lemma ResolveIsNormalize(rules: seq<CapRule>, fallback: seq<CapRule>, unit: bool)
    requires IsNormal(fallback, unit)
    ensures Resolve(rules, fallback, unit) == Normalize(RulesOrDefault(rules, fallback), unit)
  {
    if rules == [] {
      NormalizeFixesNormal(fallback, unit);
    }
  }

  /** One link of the chain: a higher feature value and a tighter incoming cap give a tighter cap. */
  lemma CapLink(rules: seq<CapRule>, fallback: seq<CapRule>, unit: bool, v: real, w: real, capV: real, capW: real)
    requires IsNormal(fallback, unit) && Falling(RulesOrDefault(rules, fallback), unit) && v <= w && capW <= capV
    ensures FirstMatch(w, capW, Resolve(rules, fallback, unit)) <= FirstMatch(v, capV, Resolve(rules, fallback, unit))
  {
    ResolveIsNormalize(rules, fallback, unit);
    var n := Normalize(RulesOrDefault(rules, fallback), unit);
    FallingRulesAreAntitone(RulesOrDefault(rules, fallback), unit, v, w, capV);
    FirstMatchMonotoneInCap(w, capW, capV, n);
  }

  ghost predicate FallingRules(r: RuleSet) {
    && Falling(RulesOrDefault(r.priority, DEFAULT_PRIORITY_RULES), true)
    && Falling(RulesOrDefault(r.outage, DEFAULT_OUTAGE_RULES), false)
    && Falling(RulesOrDefault(r.startup, DEFAULT_STARTUP_RULES), false)
    && Falling(RulesOrDefault(r.migration, DEFAULT_MIGRATION_RULES), false)
    && Falling(RulesOrDefault(r.utilization, DEFAULT_UTILIZATION_RULES), true)
  }

  lemma DescendingPairFalls(rules: seq<CapRule>, unit: bool)
    requires forall i, j :: 0 <= i < j < |rules| ==>
               ClampRule(rules[i], unit).threshold > ClampRule(rules[j], unit).threshold
               && ClampRule(rules[i], unit).maxSpotRatio <= ClampRule(rules[j], unit).maxSpotRatio
    ensures Falling(rules, unit)
  {
    forall r, s | r in rules && s in rules && ClampRule(r, unit).threshold < ClampRule(s, unit).threshold
      ensures TightenedAt(rules, unit, r, s)
    {
      var i :| 0 <= i < |rules| && rules[i] == r;
      var j :| 0 <= j < |rules| && rules[j] == s;
      assert j < i;
    }
  }

  /** The built-in rules fall, so the monotonicity below holds out of the box. */
  lemma DefaultRulesFall(r: RuleSet)
    requires r == RuleSet([], [], [], [], [])
    ensures FallingRules(r)
  {
    DescendingPairFalls(DEFAULT_PRIORITY_RULES, true);
    DescendingPairFalls(DEFAULT_OUTAGE_RULES, false);
    DescendingPairFalls(DEFAULT_STARTUP_RULES, false);
    DescendingPairFalls(DEFAULT_MIGRATION_RULES, false);
    DescendingPairFalls(DEFAULT_UTILIZATION_RULES, true);
  }

  /** With falling rules, raising any of the five features never raises the combined feature cap. */
  lemma FeatureCapIsAntitone(r: RuleSet, a: NodeState, b: NodeState)
    requires FallingRules(r)
    requires a.priorityScore <= b.priorityScore && a.outagePenaltyHours <= b.outagePenaltyHours
    requires a.podStartupTime <= b.podStartupTime && a.migrationCost <= b.migrationCost
    requires a.clusterUtilization <= b.clusterUtilization
    ensures FeatureCap(ClampRules(r), b) <= FeatureCap(ClampRules(r), a)
  {
    hide FirstMatch, Resolve, IsNormal, Falling;
    DefaultRulesAreNormal();
    var c := ClampRules(r);
    CapLink(r.priority, DEFAULT_PRIORITY_RULES, true, a.priorityScore, b.priorityScore, 1.0, 1.0);
    var a1, b1 := FirstMatch(a.priorityScore, 1.0, c.priority), FirstMatch(b.priorityScore, 1.0, c.priority);
    CapLink(r.outage, DEFAULT_OUTAGE_RULES, false, a.outagePenaltyHours, b.outagePenaltyHours, a1, b1);
    var a2, b2 := FirstMatch(a.outagePenaltyHours, a1, c.outage), FirstMatch(b.outagePenaltyHours, b1, c.outage);
    CapLink(r.startup, DEFAULT_STARTUP_RULES, false, a.podStartupTime, b.podStartupTime, a2, b2);
    var a3, b3 := FirstMatch(a.podStartupTime, a2, c.startup), FirstMatch(b.podStartupTime, b2, c.startup);
    CapLink(r.migration, DEFAULT_MIGRATION_RULES, false, a.migrationCost, b.migrationCost, a3, b3);
    var a4, b4 := FirstMatch(a.migrationCost, a3, c.migration), FirstMatch(b.migrationCost, b3, c.migration);
    CapLink(r.utilization, DEFAULT_UTILIZATION_RULES, true, a.clusterUtilization, b.clusterUtilization, a4, b4);
  }
}
