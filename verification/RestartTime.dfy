/**
  From raw pool signals to the chosen action, the way the controller assembles a node state.

  The weighted p95 of pod start-up plays three parts at once: it is the restart signal of the safety
  vector, the start-up feature of the cap rules and buckets, and the factor the controller prices a
  migration with. The other seven signals move on their own.
 */
module RestartTime {
  import opened Wrappers
  import opened Numbers
  import opened CapRules
  import opened RuntimeConfigs
  import opened PoolSafety
  import opened Actions
  import opened Policy

  // ----- the observed state

  function Delta(s: NodeState): real {
    Max(0.0, s.onDemandPrice - s.spotPrice)
  }

  /** Start-up in hours, times the hourly saving, times utilization, times the fixed multiplier 2. */
  function MigrationCost(s: NodeState, p95: real): real {
    p95 / 60.0 / 60.0 * Delta(s) * s.clusterUtilization * 2.0
  }

  /** What the policy is given for a pool whose pods start up in p95 seconds. */
  function Observed(s: NodeState, sig: Signals, p95: real): NodeState {
    s.(podStartupTime := p95, migrationCost := MigrationCost(s, p95), poolSafety := Measured(sig.(restartP95 := p95)))
  }

  function SeverityAt(cfg: Config, s: NodeState, sig: Signals, ratio: real, p95: real, c: real, r: real): nat {
    SeverityOf(cfg, Observed(s.(currentSpotRatio := ratio), sig, p95), c, r)
  }

  /** End to end: worsening any of the seven other signals never makes the action less severe, whatever the market. */
  lemma WorseSignalsNeverSoftenAction(cfg: Config, s: NodeState, a: Signals, b: Signals, p95: real, c: real, r: real)
    requires WellFormed(cfg) && Worse(a.(restartP95 := p95), b.(restartP95 := p95))
    ensures SeverityOf(cfg, Observed(s, a, p95), c, r) <= SeverityOf(cfg, Observed(s, b, p95), c, r)
  {
    var base := s.(podStartupTime := p95, migrationCost := MigrationCost(s, p95));
    WorseVectorNeverSoftensAction(cfg, base, a.(restartP95 := p95), b.(restartP95 := p95), c, r);
    hide SeverityOf, Measured, MigrationCost;
    assert Observed(s, a, p95) == base.(poolSafety := Measured(a.(restartP95 := p95)));
    assert Observed(s, b, p95) == base.(poolSafety := Measured(b.(restartP95 := p95)));
  }

  // ----- what the p95 decides

  function CapAt(cfg: Config, s: NodeState, sig: Signals, p95: real): real {
    EffectiveCap(cfg, Observed(s, sig, p95))
  }

  function RiskAt(sig: Signals, p95: real): real {
    Measured(sig.(restartP95 := p95)).risk
  }

  /** The price side of the increase gate, which the p95 does not touch. */
  predicate Saves(s: NodeState, minSavings: real) {
    s.onDemandPrice > 0.0 && Delta(s) > 0.0 && Delta(s) / Max(s.onDemandPrice, 0.000001) >= minSavings
  }

  /** Dollars of migration cost per second of start-up, and hours of payback per second. */
  function CostRate(s: NodeState): real {
    Delta(s) * s.clusterUtilization * 2.0 / 3600.0
  }

  function PaybackRate(s: NodeState): real {
    CostRate(s) / Max(Delta(s), 0.000001)
  }

  lemma CostIsLinear(s: NodeState, p95: real)
    ensures MigrationCost(s, p95) == Scaled(p95, CostRate(s))
    ensures MigrationCost(s, p95) / Max(Delta(s), 0.000001) == Scaled(p95, PaybackRate(s))
  {
    var d, u := Delta(s), s.clusterUtilization;
    assert p95 / 60.0 / 60.0 * d * u * 2.0 == (d * u * 2.0 / 3600.0) * p95;
    var m, k := Max(d, 0.000001), CostRate(s);
    QuotientOfProduct(k, p95, m);
  }

  /** An hour of start-up costs twice the hourly saving, scaled by utilization. */
  lemma CostOfAnHour(s: NodeState)
    ensures s.onDemandPrice >= s.spotPrice ==> MigrationCost(s, 3600.0) == 2.0 * (s.onDemandPrice - s.spotPrice) * s.clusterUtilization
    ensures s.onDemandPrice < s.spotPrice ==> MigrationCost(s, 3600.0) == 0.0
  {
  }

  lemma QuotientOfProduct(k: real, x: real, m: real)
    requires m > 0.0
    ensures k * x / m == (k / m) * x
  {
    assert (k / m) * m == k;
    assert ((k / m) * x) * m == ((k / m) * m) * x;
  }

  lemma RatesAreNonNegative(s: NodeState)
    requires s.clusterUtilization >= 0.0
    ensures CostRate(s) >= 0.0 && PaybackRate(s) >= 0.0
  {
    assert Delta(s) * s.clusterUtilization >= 0.0;
  }

  lemma ScaledIsMonotone(x: real, y: real, k: real)
    requires x <= y && k >= 0.0
    ensures Scaled(x, k) <= Scaled(y, k)
  {
    ScaledIsNonNegative(y - x, k);
    ScaledOfDifference(y, x, k);
  }

  predicate Gate(s: NodeState, p95: real, risk: real, maxRisk: real, minSavings: real, maxPayback: real) {
    Saves(s, minSavings) && risk <= maxRisk && Scaled(p95, PaybackRate(s)) <= maxPayback
  }

  lemma GateMeaning(s: NodeState, sig: Signals, p95: real, risk: real, maxRisk: real, minSavings: real, maxPayback: real)
    ensures CanIncrease(Observed(s, sig, p95), risk, maxRisk, minSavings, maxPayback)
            <==> Gate(s, p95, risk, maxRisk, minSavings, maxPayback)
  {
    CostIsLinear(s, p95);
    hide Measured, MigrationCost, Scaled, PaybackRate;
  }

  /** No feature other than start-up is outside its buckets. */
  predicate FamiliarElsewhere(cfg: Config, s: NodeState) {
    var b := cfg.policy.buckets;
    && !OutOfRange(s.outagePenaltyHours, b.outagePenalty) && !OutOfRange(s.priorityScore, b.priority)
    && !OutOfRange(s.clusterUtilization, b.utilization)
  }

  function LowEnd(cfg: Config): real
    requires |cfg.policy.buckets.podStartup| >= 2
  {
    cfg.policy.buckets.podStartup[0]
  }

  function HighEnd(cfg: Config): real
    requires |cfg.policy.buckets.podStartup| >= 2
  {
    cfg.policy.buckets.podStartup[|cfg.policy.buckets.podStartup| - 1]
  }

  predicate Cautious(cfg: Config, s: NodeState, p95: real)
    requires |cfg.policy.buckets.podStartup| >= 2
  {
    cfg.policy.thresholds.oodConservative && (!FamiliarElsewhere(cfg, s) || p95 < LowEnd(cfg) || p95 > HighEnd(cfg))
  }

  lemma PositionAt(cfg: Config, s: NodeState, sig: Signals, p95: real)
    requires |cfg.policy.buckets.podStartup| >= 2
    ensures PositionOf(cfg, Observed(s, sig, p95))
            == Position(s.currentSpotRatio, CapAt(cfg, s, sig, p95), RiskAt(sig, p95), sig.slackOne, Cautious(cfg, s, p95))
  {
    MeasuredIsUsable(sig.(restartP95 := p95));
    hide EffectiveCap, Risk, SafeMax, MigrationCost;
  }

  // ----- the severity when no market band is active

  function CalmSeverity(p: Position, oodEdge: bool, edge: bool): nat {
    if Overshoots(p) then (if MustReduceFast(p) then 4 else 3)
    else if !HasRoom(p) then 2
    else if p.cautious then (if oodEdge then 1 else 2)
    else if !edge then 2
    else if p.cap - p.ratio >= 0.25 then 0
    else 1
  }

  lemma SeverityByBand(t: Thresholds, risk: real, runtime: real, p: Position, oodEdge: bool, edge: bool)
    ensures NoMarketBand(t, risk, runtime) ==>
              Severity(Decide(t, risk, runtime, p, oodEdge, edge).0) == CalmSeverity(p, oodEdge, edge)
    ensures !NoMarketBand(t, risk, runtime) ==>
              forall q, oodEdge', edge' :: Decide(t, risk, runtime, p, oodEdge, edge) == Decide(t, risk, runtime, q, oodEdge', edge')
  {
  }

  function PositionFor(cfg: Config, s: NodeState, sig: Signals, ratio: real, p95: real): Position
    requires |cfg.policy.buckets.podStartup| >= 2
  {
    Position(ratio, CapAt(cfg, s, sig, p95), RiskAt(sig, p95), sig.slackOne, Cautious(cfg, s, p95))
  }

  predicate OodGate(cfg: Config, s: NodeState, p95: real, risk: real) {
    var t := cfg.policy.thresholds;
    Gate(s, p95, risk, t.oodMaxRisk, t.oodMinSavings, t.oodMaxPayback)
  }

  predicate GrowthGate(cfg: Config, s: NodeState, p95: real, risk: real) {
    var t := cfg.policy.thresholds;
    Gate(s, p95, risk, t.mediumRisk, t.minSavings, t.maxPayback)
  }

  /** The severity in a calm market, in terms of what the p95 decides. */
  lemma CalmSeverityAt(cfg: Config, s: NodeState, sig: Signals, ratio: real, p95: real, c: real, r: real)
    requires |cfg.policy.buckets.podStartup| >= 2 && NoMarketBand(cfg.policy.thresholds, Max(c, r), r)
    ensures SeverityAt(cfg, s, sig, ratio, p95, c, r)
            == CalmSeverity(PositionFor(cfg, s, sig, ratio, p95), OodGate(cfg, s, p95, Max(c, r)), GrowthGate(cfg, s, p95, Max(c, r)))
  {
    var s' := s.(currentSpotRatio := ratio);
    var t, risk := cfg.policy.thresholds, Max(c, r);
    var o := Observed(s', sig, p95);
    var d := Decide(t, risk, r, PositionOf(cfg, o), OodEdge(cfg, o, risk), Edge(cfg, o, risk)).0;
    assert SeverityAt(cfg, s, sig, ratio, p95, c, r) == Severity(d) by {
      SeverityIsDecided(cfg, o, c, r);
    }
    PositionAtRatio(cfg, s, sig, ratio, p95);
    GatesAtRatio(cfg, s, sig, ratio, p95, risk);
    SeverityByBand(t, risk, r, PositionOf(cfg, o), OodEdge(cfg, o, risk), Edge(cfg, o, risk));
    hide *;
  }

  lemma SeverityIsDecided(cfg: Config, o: NodeState, c: real, r: real)
    ensures var risk := Max(c, r);
            SeverityOf(cfg, o, c, r)
            == Severity(Decide(cfg.policy.thresholds, risk, r, PositionOf(cfg, o), OodEdge(cfg, o, risk), Edge(cfg, o, risk)).0)
  {
    hide Decide, PositionOf, OodEdge, Edge, FeatureCap, WorkloadCap, EffectiveCap, ClampRules, Severity;
  }

  lemma PositionAtRatio(cfg: Config, s: NodeState, sig: Signals, ratio: real, p95: real)
    requires |cfg.policy.buckets.podStartup| >= 2
    ensures PositionOf(cfg, Observed(s.(currentSpotRatio := ratio), sig, p95)) == PositionFor(cfg, s, sig, ratio, p95)
  {
    PositionAt(cfg, s.(currentSpotRatio := ratio), sig, p95);
    RatioIsNotAFeature(cfg, s, sig, ratio, p95);
    hide PositionOf, Observed, CapAt, RiskAt, OutOfRange;
  }

  lemma GatesAtRatio(cfg: Config, s: NodeState, sig: Signals, ratio: real, p95: real, risk: real)
    ensures var o := Observed(s.(currentSpotRatio := ratio), sig, p95);
            OodEdge(cfg, o, risk) == OodGate(cfg, s, p95, risk) && Edge(cfg, o, risk) == GrowthGate(cfg, s, p95, risk)
  {
    var s', t := s.(currentSpotRatio := ratio), cfg.policy.thresholds;
    GateMeaning(s', sig, p95, risk, t.oodMaxRisk, t.oodMinSavings, t.oodMaxPayback);
    GateMeaning(s', sig, p95, risk, t.mediumRisk, t.minSavings, t.maxPayback);
    assert PaybackRate(s') == PaybackRate(s);
    hide CanIncrease, Observed, Scaled, PaybackRate;
  }

  lemma RatioIsNotAFeature(cfg: Config, s: NodeState, sig: Signals, ratio: real, p95: real)
    ensures CapAt(cfg, s.(currentSpotRatio := ratio), sig, p95) == CapAt(cfg, s, sig, p95)
  {
    var s' := s.(currentSpotRatio := ratio);
    var rules := ClampRules(cfg.policy.rules);
    var o, o' := Observed(s, sig, p95), Observed(s', sig, p95);
    assert MigrationCost(s, p95) == MigrationCost(s', p95);
    hide Measured, MigrationCost, ClampRules;
    assert FeatureCap(rules, o) == FeatureCap(rules, o');
    hide FeatureCap;
  }

  // ----- when a slower pool is treated more leniently

  /** A slower pool never gets a softer action, at any ratio and any market scores. */
  ghost predicate RestartMonotone(cfg: Config, s: NodeState, sig: Signals) {
    forall ratio, c, r, p, q :: ratio >= 0.0 && UnitScores(c, r) && 0.0 < p <= q ==>
      SeverityAt(cfg, s, sig, ratio, p, c, r) <= SeverityAt(cfg, s, sig, ratio, q, c, r)
  }

  /** Some scores activate no market band. */
  predicate CalmReachable(t: Thresholds) {
    t.mediumRisk > 0.0 && t.runtimeEmergency > 0.0
  }

  ghost predicate CapNeverRises(cfg: Config, s: NodeState, sig: Signals) {
    forall p, q :: 0.0 < p <= q ==> CapAt(cfg, s, sig, q) <= CapAt(cfg, s, sig, p)
  }

  /** At the first familiar start-up time the pool may grow, and by more than the cautious gate grants just below it. */
  predicate ThawsAtLowEnd(cfg: Config, s: NodeState, sig: Signals)
    requires |cfg.policy.buckets.podStartup| >= 2
  {
    var t, lo := cfg.policy.thresholds, LowEnd(cfg);
    && t.oodConservative && FamiliarElsewhere(cfg, s) && lo > 0.0
    && CapAt(cfg, s, sig, lo) > CAP_TOLERANCE && RiskAt(sig, lo) < 0.60
    && Saves(s, t.minSavings) && Scaled(lo, PaybackRate(s)) <= t.maxPayback
    && (CapAt(cfg, s, sig, lo) >= 0.25 || t.oodMaxRisk < t.mediumRisk || !Saves(s, t.oodMinSavings)
        || Scaled(lo, PaybackRate(s)) > t.oodMaxPayback)
  }

  /** Just beyond the last familiar start-up time the cautious gate admits growth the ordinary gate refuses at it. */
  predicate ThawsAtHighEnd(cfg: Config, s: NodeState, sig: Signals)
    requires |cfg.policy.buckets.podStartup| >= 2
  {
    var t, hi := cfg.policy.thresholds, HighEnd(cfg);
    && t.oodConservative && FamiliarElsewhere(cfg, s)
    && CapAt(cfg, s, sig, hi) > CAP_TOLERANCE && RiskAt(sig, hi) < 0.60
    && Saves(s, t.oodMinSavings) && t.oodMaxRisk >= 0.0
    && (Scaled(hi, PaybackRate(s)) < t.oodMaxPayback || (PaybackRate(s) == 0.0 && t.oodMaxPayback >= 0.0))
    && (!Saves(s, t.minSavings) || Scaled(hi, PaybackRate(s)) > t.maxPayback)
  }

  /** All of a slower pool's inputs but caution move towards severity. */
  lemma RiskRises(sig: Signals, p: real, q: real)
    requires p <= q
    ensures RiskAt(sig, p) <= RiskAt(sig, q)
  {
    WorseSignalsTightenVector(sig.(restartP95 := p), sig.(restartP95 := q));
    hide Measured;
  }

  lemma GatesClose(cfg: Config, s: NodeState, p: real, q: real, risk: real)
    requires s.clusterUtilization >= 0.0 && p <= q
    ensures OodGate(cfg, s, q, risk) ==> OodGate(cfg, s, p, risk)
    ensures GrowthGate(cfg, s, q, risk) ==> GrowthGate(cfg, s, p, risk)
  {
    RatesAreNonNegative(s);
    ScaledIsMonotone(p, q, PaybackRate(s));
    hide Scaled, PaybackRate, Saves;
  }

  lemma CalmStep(a: Position, b: Position, oodA: bool, edgeA: bool, oodB: bool, edgeB: bool)
    requires a.ratio == b.ratio && b.cap <= a.cap && a.safetyRisk <= b.safetyRisk && a.slackOne == b.slackOne
    requires (oodB ==> oodA) && (edgeB ==> edgeA)
    requires a.cautious && !b.cautious && HasRoom(b) && edgeB ==> oodA && b.cap - b.ratio < 0.25
    requires !a.cautious && b.cautious && HasRoom(b) && oodB ==> edgeA
    ensures CalmSeverity(a, oodA, edgeA) <= CalmSeverity(b, oodB, edgeB)
  {
  }

  lemma NoThawNoSoftening(cfg: Config, s: NodeState, sig: Signals, ratio: real, p: real, q: real, c: real, r: real)
    requires WellFormed(cfg) && s.clusterUtilization >= 0.0 && ratio >= 0.0 && 0.0 < p <= q && UnitScores(c, r)
    requires CapNeverRises(cfg, s, sig) && !ThawsAtLowEnd(cfg, s, sig) && !ThawsAtHighEnd(cfg, s, sig)
    requires NoMarketBand(cfg.policy.thresholds, Max(c, r), r)
    ensures SeverityAt(cfg, s, sig, ratio, p, c, r) <= SeverityAt(cfg, s, sig, ratio, q, c, r)
  {
    var risk, lo, hi := Max(c, r), LowEnd(cfg), HighEnd(cfg);
    var a, b := PositionFor(cfg, s, sig, ratio, p), PositionFor(cfg, s, sig, ratio, q);
    CalmSeverityAt(cfg, s, sig, ratio, p, c, r);
    CalmSeverityAt(cfg, s, sig, ratio, q, c, r);
    RiskRises(sig, p, q);
    GatesClose(cfg, s, p, q, risk);
    if a.cautious && !b.cautious && HasRoom(b) && GrowthGate(cfg, s, q, risk) {
      LowEndIsTight(cfg, s, sig, ratio, p, q, risk);
    }
    if !a.cautious && b.cautious && HasRoom(b) && OodGate(cfg, s, q, risk) {
      HighEndIsTight(cfg, s, sig, ratio, p, q, risk);
    }
    CalmStep(a, b, OodGate(cfg, s, p, risk), GrowthGate(cfg, s, p, risk), OodGate(cfg, s, q, risk), GrowthGate(cfg, s, q, risk));
    hide *;
  }

  lemma LowEndIsTight(cfg: Config, s: NodeState, sig: Signals, ratio: real, p: real, q: real, risk: real)
    requires WellFormed(cfg) && s.clusterUtilization >= 0.0 && ratio >= 0.0 && 0.0 < p <= q && 0.0 <= risk < cfg.policy.thresholds.mediumRisk
    requires CapNeverRises(cfg, s, sig) && !ThawsAtLowEnd(cfg, s, sig)
    requires Cautious(cfg, s, p) && !Cautious(cfg, s, q) && HasRoom(PositionFor(cfg, s, sig, ratio, q)) && GrowthGate(cfg, s, q, risk)
    ensures OodGate(cfg, s, p, risk) && CapAt(cfg, s, sig, q) - ratio < 0.25
  {
    var lo := LowEnd(cfg);
    assert p < lo <= q;
    RiskRises(sig, lo, q);
    RatesAreNonNegative(s);
    ScaledIsMonotone(p, lo, PaybackRate(s));
    ScaledIsMonotone(lo, q, PaybackRate(s));
    assert CapAt(cfg, s, sig, q) <= CapAt(cfg, s, sig, lo);
    hide CapAt, RiskAt, Scaled, PaybackRate, Saves, FamiliarElsewhere, CapNeverRises;
  }

  lemma HighEndIsTight(cfg: Config, s: NodeState, sig: Signals, ratio: real, p: real, q: real, risk: real)
    requires WellFormed(cfg) && s.clusterUtilization >= 0.0 && ratio >= 0.0 && 0.0 < p <= q && 0.0 <= risk < cfg.policy.thresholds.mediumRisk
    requires CapNeverRises(cfg, s, sig) && !ThawsAtHighEnd(cfg, s, sig)
    requires !Cautious(cfg, s, p) && Cautious(cfg, s, q) && HasRoom(PositionFor(cfg, s, sig, ratio, q)) && OodGate(cfg, s, q, risk)
    ensures GrowthGate(cfg, s, p, risk)
  {
    var hi := HighEnd(cfg);
    assert p <= hi < q;
    RiskRises(sig, hi, q);
    RatesAreNonNegative(s);
    ScaledIsMonotone(p, hi, PaybackRate(s));
    ScaledGrows(hi, q, PaybackRate(s));
    assert CapAt(cfg, s, sig, q) <= CapAt(cfg, s, sig, hi);
    hide CapAt, RiskAt, Scaled, PaybackRate, Saves, FamiliarElsewhere, CapNeverRises;
  }

  lemma ScaledGrows(x: real, y: real, k: real)
    requires x < y && k >= 0.0
    ensures if k == 0.0 then Scaled(x, k) == Scaled(y, k) == 0.0 else Scaled(x, k) < Scaled(y, k)
  {
    if k > 0.0 {
      assert k * (y - x) > 0.0;
    }
  }

  // ----- the witnesses

  lemma CapIsNotNegative(cfg: Config, s: NodeState, sig: Signals, p95: real)
    requires OrderedDials(cfg.dials)
    ensures CapAt(cfg, s, sig, p95) >= 0.0
  {
    hide WorkloadCap, Observed;
  }

  lemma RisingCapSoftens(cfg: Config, s: NodeState, sig: Signals, p: real, q: real) returns (ratio: real)
    requires WellFormed(cfg) && CalmReachable(cfg.policy.thresholds) && CapAt(cfg, s, sig, p) < CapAt(cfg, s, sig, q)
    ensures 0.0 <= ratio <= CapAt(cfg, s, sig, q) + CAP_TOLERANCE
    ensures SeverityAt(cfg, s, sig, ratio, p, 0.0, 0.0) > SeverityAt(cfg, s, sig, ratio, q, 0.0, 0.0)
  {
    var low, high := CapAt(cfg, s, sig, p), CapAt(cfg, s, sig, q);
    CapIsNotNegative(cfg, s, sig, p);
    ratio := low + CAP_TOLERANCE + (high - low) / 2.0;
    assert |cfg.policy.buckets.podStartup| >= 2 && NoMarketBand(cfg.policy.thresholds, 0.0, 0.0);
    hide SeverityAt, CapAt, RiskAt, OodGate, GrowthGate, Cautious, WellFormed;
    CalmSeverityAt(cfg, s, sig, ratio, p, 0.0, 0.0);
    CalmSeverityAt(cfg, s, sig, ratio, q, 0.0, 0.0);
  }

  /** Below the low end the cautious gate, at it the ordinary one. */
  lemma LowEndSoftens(cfg: Config, s: NodeState, sig: Signals) returns (p: real, c: real)
    requires WellFormed(cfg) && s.clusterUtilization >= 0.0 && CalmReachable(cfg.policy.thresholds) && ThawsAtLowEnd(cfg, s, sig)
    requires CapNeverRises(cfg, s, sig)
    ensures 0.0 < p < LowEnd(cfg) && 0.0 <= c <= 1.0
    ensures SeverityAt(cfg, s, sig, 0.0, p, c, 0.0) > SeverityAt(cfg, s, sig, 0.0, LowEnd(cfg), c, 0.0)
  {
    var t, lo, k := cfg.policy.thresholds, LowEnd(cfg), PaybackRate(s);
    EndsAreOrdered(cfg);
    RatesAreNonNegative(s);
    p := JustBelow(lo, k, t.oodMaxPayback);
    c := if 0.0 <= t.oodMaxRisk < t.mediumRisk then (t.oodMaxRisk + t.mediumRisk) / 2.0 else 0.0;
    RiskRises(sig, p, lo);
    assert CapAt(cfg, s, sig, lo) <= CapAt(cfg, s, sig, p);
    assert NoMarketBand(t, c, 0.0) && 0.0 <= c <= 1.0;
    hide SeverityAt, CapAt, RiskAt, Scaled, PaybackRate, Saves, FamiliarElsewhere, CapNeverRises, WellFormed, NoMarketBand;
    var a, b := PositionFor(cfg, s, sig, 0.0, p), PositionFor(cfg, s, sig, 0.0, lo);
    assert HasRoom(a) && HasRoom(b) && a.cautious && !b.cautious;
    assert GrowthGate(cfg, s, lo, c);
    assert b.cap < 0.25 ==> !OodGate(cfg, s, p, c);
    hide OodGate, GrowthGate, PositionFor, ThawsAtLowEnd, Cautious, HasRoom;
    LowEndStep(a, b, OodGate(cfg, s, p, c), GrowthGate(cfg, s, p, c), OodGate(cfg, s, lo, c), GrowthGate(cfg, s, lo, c));
    hide CalmSeverity;
    CalmSeverityAt(cfg, s, sig, 0.0, p, c, 0.0);
    CalmSeverityAt(cfg, s, sig, 0.0, lo, c, 0.0);
  }

  lemma LowEndStep(a: Position, b: Position, oodA: bool, edgeA: bool, oodB: bool, edgeB: bool)
    requires HasRoom(a) && HasRoom(b) && a.cautious && !b.cautious && edgeB && b.ratio == 0.0 && (b.cap < 0.25 ==> !oodA)
    ensures CalmSeverity(a, oodA, edgeA) > CalmSeverity(b, oodB, edgeB)
  {
  }

  lemma EndsAreOrdered(cfg: Config)
    requires WellFormed(cfg)
    ensures 0.0 <= LowEnd(cfg) < HighEnd(cfg)
  {
    var b := cfg.policy.buckets.podStartup;
    assert b[0] in b && b[0] < b[|b| - 1];
  }

  /** Somewhere below lo the product has already passed what it passes at lo. */
  lemma JustBelow(lo: real, k: real, limit: real) returns (p: real)
    requires lo > 0.0 && k >= 0.0
    ensures 0.0 < p < lo && (Scaled(lo, k) > limit ==> Scaled(p, k) > limit)
  {
    if Scaled(lo, k) > limit && limit >= 0.0 {
      var e := SmallStep(k, Scaled(lo, k) - limit);
      p := if e < lo then lo - e else lo / 2.0;
      var d := lo - p;
      ScaledIsMonotone(d, e, k);
      ScaledOfDifference(lo, d, k);
    } else {
      p := lo / 2.0;
      ScaledIsNonNegative(p, k);
    }
  }

  lemma SmallStep(k: real, gap: real) returns (e: real)
    requires k >= 0.0 && gap > 0.0
    ensures e > 0.0 && Scaled(e, k) < gap
  {
    e := gap / (2.0 * (k + 1.0));
    assert e * (k + 1.0) == gap / 2.0;
    assert e > 0.0;
  }

  // ----- the cap and the risk are steps that hold their value a little to the right

  /** Distance from x to the next threshold above it, at most 1. */
  function Gap(rules: seq<CapRule>, x: real): (g: real)
    ensures 0.0 < g <= 1.0
  {
    if rules == [] then 1.0
    else
      var rest, d := Gap(rules[1..], x), rules[0].threshold - x;
      if 0.0 < d < rest then d else rest
  }

  ghost predicate NoneBetween(rules: seq<CapRule>, x: real, y: real) {
    forall r :: r in rules ==> !(x < r.threshold <= y)
  }

  lemma {:induction false} GapIsEmpty(rules: seq<CapRule>, x: real, y: real)
    requires y < x + Gap(rules, x)
    ensures NoneBetween(rules, x, y)
  {
    if rules != [] {
      GapIsEmpty(rules[1..], x, y);
      assert forall r :: r in rules ==> r == rules[0] || r in rules[1..];
    }
  }

  /** The scan answers alike at two values with no threshold between them. */
  lemma {:induction false} MatchHolds(rules: seq<CapRule>, x: real, y: real, cap: real)
    requires x <= y && NoneBetween(rules, x, y)
    ensures FirstMatch(y, cap, rules) == FirstMatch(x, cap, rules)
  {
    if rules != [] {
      assert rules[0] in rules;
      assert forall r :: r in rules[1..] ==> r in rules;
      if x < rules[0].threshold {
        MatchHolds(rules[1..], x, y, cap);
      }
    }
  }

  /** The steps of the restart risk and cap. */
  const RESTART_STEPS := [120.0, 300.0, 600.0]

  function RestartGap(x: real): (g: real)
    ensures g > 0.0
  {
    if x < 120.0 then 120.0 - x else if x < 300.0 then 300.0 - x else if x < 600.0 then 600.0 - x else 1.0
  }

  ghost predicate NoRestartStep(x: real, y: real) {
    forall b :: b in RESTART_STEPS ==> !(x < b <= y)
  }

  lemma VectorHolds(sig: Signals, x: real, y: real)
    requires x <= y && NoRestartStep(x, y)
    ensures RiskAt(sig, y) == RiskAt(sig, x)
    ensures Measured(sig.(restartP95 := y)).safeMax == Measured(sig.(restartP95 := x)).safeMax
  {
    assert 120.0 in RESTART_STEPS && 300.0 in RESTART_STEPS && 600.0 in RESTART_STEPS;
    assert RestartRisk(x) == RestartRisk(y) && RestartCap(x) == RestartCap(y);
    assert Risk(sig.(restartP95 := x)) == Risk(sig.(restartP95 := y));
  }

  /** With no step of any of the three kinds between x and y, the cap is the same at both. */
  lemma CapHolds(cfg: Config, s: NodeState, sig: Signals, x: real, y: real)
    requires x <= y && NoRestartStep(x, y) && MigrationCost(s, x) <= MigrationCost(s, y)
    requires NoneBetween(ClampRules(cfg.policy.rules).startup, x, y)
    requires NoneBetween(ClampRules(cfg.policy.rules).migration, MigrationCost(s, x), MigrationCost(s, y))
    ensures CapAt(cfg, s, sig, y) == CapAt(cfg, s, sig, x)
  {
    var a, b := Observed(s, sig, x), Observed(s, sig, y);
    VectorHolds(sig, x, y);
    MeasuredIsUsable(sig.(restartP95 := x));
    MeasuredIsUsable(sig.(restartP95 := y));
    FeaturesHold(ClampRules(cfg.policy.rules), s, sig, x, y);
    hide Measured, MigrationCost, ClampRules, ResolveVector, FeatureCap;
  }

  lemma FeaturesHold(rules: RuleSet, s: NodeState, sig: Signals, x: real, y: real)
    requires x <= y && MigrationCost(s, x) <= MigrationCost(s, y) && NoneBetween(rules.startup, x, y)
    requires NoneBetween(rules.migration, MigrationCost(s, x), MigrationCost(s, y))
    ensures FeatureCap(rules, Observed(s, sig, x)) == FeatureCap(rules, Observed(s, sig, y))
  {
    hide Measured, MigrationCost, FirstMatch, NoneBetween;
    var cap2 := FirstMatch(s.outagePenaltyHours, FirstMatch(s.priorityScore, 1.0, rules.priority), rules.outage);
    MatchHolds(rules.startup, x, y, cap2);
    MatchHolds(rules.migration, MigrationCost(s, x), MigrationCost(s, y), FirstMatch(x, cap2, rules.startup));
  }

  /** A start-up time just beyond hi that changes neither cap nor risk and stays within a payback limit not yet reached. */
  lemma JustBeyond(cfg: Config, s: NodeState, sig: Signals, hi: real, limit: real) returns (q: real)
    requires s.clusterUtilization >= 0.0 && hi > 0.0
    requires Scaled(hi, PaybackRate(s)) < limit || (PaybackRate(s) == 0.0 && limit >= 0.0)
    ensures q > hi && CapAt(cfg, s, sig, q) == CapAt(cfg, s, sig, hi) && RiskAt(sig, q) == RiskAt(sig, hi)
    ensures Scaled(q, PaybackRate(s)) <= limit
  {
    hide CapAt, RiskAt, Scaled, MigrationCost, PaybackRate, CostRate, Gap, RestartGap, ClampRules, NoRestartStep, NoneBetween;
    var rules, k, c := ClampRules(cfg.policy.rules), PaybackRate(s), CostRate(s);
    RatesAreNonNegative(s);
    CostIsLinear(s, hi);
    var gap := Gap(rules.migration, MigrationCost(s, hi));
    var e1 := SmallStep(c, gap);
    var e2 := 1.0;
    if Scaled(hi, k) < limit {
      e2 := SmallStep(k, limit - Scaled(hi, k));
    }
    var e := Min(Min(e1, e2), Min(RestartGap(hi), Gap(rules.startup, hi))) / 2.0;
    q := hi + e;
    CostIsLinear(s, q);
    ScaledIsMonotone(e, e1, c);
    ScaledIsMonotone(e, e2, k);
    ScaledIsNonNegative(e, c);
    ScaledSum(hi, e, c);
    ScaledSum(hi, e, k);
    if k == 0.0 {
      ScaledByZero(q);
    }
    RestartGapIsEmpty(hi, q);
    GapIsEmpty(rules.startup, hi, q);
    GapIsEmpty(rules.migration, MigrationCost(s, hi), MigrationCost(s, q));
    CapHolds(cfg, s, sig, hi, q);
    VectorHolds(sig, hi, q);
  }

  lemma ScaledByZero(x: real)
    ensures Scaled(x, 0.0) == 0.0
  {
  }

  lemma RestartGapIsEmpty(x: real, y: real)
    requires y < x + RestartGap(x)
    ensures NoRestartStep(x, y)
  {
  }

  lemma ScaledSum(x: real, y: real, k: real)
    ensures Scaled(x + y, k) == Scaled(x, k) + Scaled(y, k)
  {
  }

  /** At the high end the ordinary gate refuses, just beyond it the cautious one admits. */
  lemma HighEndSoftens(cfg: Config, s: NodeState, sig: Signals) returns (q: real)
    requires WellFormed(cfg) && s.clusterUtilization >= 0.0 && CalmReachable(cfg.policy.thresholds) && ThawsAtHighEnd(cfg, s, sig)
    ensures q > HighEnd(cfg) > 0.0
    ensures SeverityAt(cfg, s, sig, 0.0, HighEnd(cfg), 0.0, 0.0) > SeverityAt(cfg, s, sig, 0.0, q, 0.0, 0.0)
  {
    var t, hi := cfg.policy.thresholds, HighEnd(cfg);
    EndsAreOrdered(cfg);
    assert NoMarketBand(t, 0.0, 0.0);
    hide SeverityAt, CapAt, RiskAt, Scaled, PaybackRate, Saves, FamiliarElsewhere, WellFormed, NoMarketBand;
    q := JustBeyond(cfg, s, sig, hi, t.oodMaxPayback);
    var a, b := PositionFor(cfg, s, sig, 0.0, hi), PositionFor(cfg, s, sig, 0.0, q);
    assert !GrowthGate(cfg, s, hi, 0.0) && OodGate(cfg, s, q, 0.0);
    assert HasRoom(a) && HasRoom(b) && !a.cautious && b.cautious;
    hide OodGate, GrowthGate, PositionFor, ThawsAtHighEnd, Cautious, HasRoom;
    HighEndStep(a, b, OodGate(cfg, s, hi, 0.0), GrowthGate(cfg, s, q, 0.0));
    hide CalmSeverity;
    CalmSeverityAt(cfg, s, sig, 0.0, hi, 0.0, 0.0);
    CalmSeverityAt(cfg, s, sig, 0.0, q, 0.0, 0.0);
  }

  lemma HighEndStep(a: Position, b: Position, oodA: bool, edgeB: bool)
    requires HasRoom(a) && HasRoom(b) && !a.cautious && b.cautious
    ensures CalmSeverity(a, oodA, false) > CalmSeverity(b, true, edgeB)
  {
  }

  // ----- a condition on finitely many start-up times

  function ThresholdsOf(rules: seq<CapRule>): seq<real> {
    seq(|rules|, i requires 0 <= i < |rules| => rules[i].threshold)
  }

  /** The start-up times at which the migration cost reaches the rules' thresholds. */
  function ReachedAt(rules: seq<CapRule>, rate: real): seq<real> {
    if rate == 0.0 then [] else seq(|rules|, i requires 0 <= i < |rules| => rules[i].threshold / rate)
  }

  /** Everywhere the effective cap can change with the p95. */
  function CapSteps(cfg: Config, s: NodeState): seq<real> {
    var rules := ClampRules(cfg.policy.rules);
    ThresholdsOf(rules.startup) + ReachedAt(rules.migration, CostRate(s)) + RESTART_STEPS
  }

  /** A start-up time below every positive step. */
  function FirstTime(steps: seq<real>): (e: real)
    ensures 0.0 < e <= 1.0 && forall b :: b in steps && b > 0.0 ==> e < b
  {
    if steps == [] then 1.0
    else
      var e := FirstTime(steps[1..]);
      assert forall b :: b in steps ==> b == steps[0] || b in steps[1..];
      if 0.0 < steps[0] <= e then steps[0] / 2.0 else e
  }

  /** Between any two of its steps, and from the start, the cap does not rise. */
  ghost predicate CapFallsAtSteps(cfg: Config, s: NodeState, sig: Signals) {
    var steps := CapSteps(cfg, s);
    forall a, b :: (a in steps || a == FirstTime(steps)) && b in steps && 0.0 < a <= b ==>
      CapAt(cfg, s, sig, b) <= CapAt(cfg, s, sig, a)
  }

  /** The last step at or before p, or e. */
  function Anchor(steps: seq<real>, e: real, p: real): (a: real)
    ensures a >= e && (a == e || (a in steps && a <= p))
    ensures forall b :: b in steps && b <= p ==> b <= a
  {
    if steps == [] then e
    else
      var a := Anchor(steps[1..], e, p);
      assert forall b :: b in steps ==> b == steps[0] || b in steps[1..];
      if a < steps[0] <= p then steps[0] else a
  }

  lemma CostBetween(rate: real, threshold: real, x: real, y: real)
    requires rate > 0.0
    ensures Scaled(x, rate) < threshold <= Scaled(y, rate) ==> x < threshold / rate <= y
  {
    var z := threshold / rate;
    assert z * rate == threshold;
    if z <= x {
      ScaledIsMonotone(z, x, rate);
    } else if z > y {
      ScaledGrows(y, z, rate);
    }
  }

  lemma NoneReachedBetween(rules: seq<CapRule>, rate: real, x: real, y: real)
    requires rate >= 0.0 && forall b :: b in ReachedAt(rules, rate) ==> !(x < b <= y)
    ensures NoneBetween(rules, Scaled(x, rate), Scaled(y, rate))
  {
    if rate > 0.0 {
      hide Scaled;
      forall r | r in rules ensures !(Scaled(x, rate) < r.threshold <= Scaled(y, rate)) {
        var i :| 0 <= i < |rules| && rules[i] == r;
        var b := ReachedAt(rules, rate)[i];
        assert b == r.threshold / rate && b in ReachedAt(rules, rate);
        CostBetween(rate, r.threshold, x, y);
      }
    }
  }

  /** No listed step between x and y: the cap is the same. */
  lemma NoStepNoChange(cfg: Config, s: NodeState, sig: Signals, x: real, y: real)
    requires s.clusterUtilization >= 0.0 && x <= y && forall b :: b in CapSteps(cfg, s) ==> !(x < b <= y)
    ensures CapAt(cfg, s, sig, x) == CapAt(cfg, s, sig, y)
  {
    var rules, rate := ClampRules(cfg.policy.rules), CostRate(s);
    var startup, reached := ThresholdsOf(rules.startup), ReachedAt(rules.migration, rate);
    hide ClampRules, CapAt, MigrationCost, CostRate, Scaled;
    CostRises(s, x, y);
    CostIsLinear(s, x);
    CostIsLinear(s, y);
    RatesAreNonNegative(s);
    assert NoRestartStep(x, y) by {
      assert forall b :: b in RESTART_STEPS ==> b in CapSteps(cfg, s);
    }
    forall r | r in rules.startup ensures !(x < r.threshold <= y) {
      var i :| 0 <= i < |rules.startup| && rules.startup[i] == r;
      assert startup[i] == r.threshold;
      assert startup[i] in CapSteps(cfg, s);
    }
    assert forall b :: b in reached ==> b in CapSteps(cfg, s);
    NoneReachedBetween(rules.migration, rate, x, y);
    hide CapSteps;
    CapHolds(cfg, s, sig, x, y);
  }

  lemma AnchorHolds(cfg: Config, s: NodeState, sig: Signals, p: real)
    requires s.clusterUtilization >= 0.0 && p > 0.0
    ensures var steps := CapSteps(cfg, s); CapAt(cfg, s, sig, p) == CapAt(cfg, s, sig, Anchor(steps, FirstTime(steps), p))
  {
    var steps := CapSteps(cfg, s);
    var e := FirstTime(steps);
    var a := Anchor(steps, e, p);
    hide CapAt, CapSteps;
    if a <= p {
      NoStepNoChange(cfg, s, sig, a, p);
    } else {
      NoStepNoChange(cfg, s, sig, p, a);
    }
  }

  /** The cap never rises with the p95 if and only if it does not rise between its finitely many steps. */
  lemma CapNeverRisesIff(cfg: Config, s: NodeState, sig: Signals)
    requires s.clusterUtilization >= 0.0
    ensures CapNeverRises(cfg, s, sig) <==> CapFallsAtSteps(cfg, s, sig)
  {
    hide CapAt, CapSteps;
    if CapFallsAtSteps(cfg, s, sig) {
      var steps := CapSteps(cfg, s);
      var e := FirstTime(steps);
      forall p, q | 0.0 < p <= q ensures CapAt(cfg, s, sig, q) <= CapAt(cfg, s, sig, p) {
        AnchorHolds(cfg, s, sig, p);
        AnchorHolds(cfg, s, sig, q);
        var a, b := Anchor(steps, e, p), Anchor(steps, e, q);
        assert a == e || a <= b;
      }
    }
  }

  // ----- exactly when

  lemma SeverityOutsideCalm(cfg: Config, s: NodeState, sig: Signals, ratio: real, p: real, q: real, c: real, r: real)
    requires !NoMarketBand(cfg.policy.thresholds, Max(c, r), r)
    ensures SeverityAt(cfg, s, sig, ratio, p, c, r) == SeverityAt(cfg, s, sig, ratio, q, c, r)
  {
    var s', risk, t := s.(currentSpotRatio := ratio), Max(c, r), cfg.policy.thresholds;
    var a, b := Observed(s', sig, p), Observed(s', sig, q);
    SeverityIsDecided(cfg, a, c, r);
    SeverityIsDecided(cfg, b, c, r);
    SeverityByBand(t, risk, r, PositionOf(cfg, a), OodEdge(cfg, a, risk), Edge(cfg, a, risk));
    hide Decide, PositionOf, OodEdge, Edge, SeverityOf, Observed, NoMarketBand;
  }

  /**
    A longer restart time never softens the action if and only if no calm market exists, or the
    effective cap does not rise between its steps and neither end of the start-up buckets thaws the pool.
   */
  lemma RestartMonotoneIff(cfg: Config, s: NodeState, sig: Signals)
    requires WellFormed(cfg) && s.clusterUtilization >= 0.0
    ensures RestartMonotone(cfg, s, sig) <==>
            (CalmReachable(cfg.policy.thresholds) ==>
               CapFallsAtSteps(cfg, s, sig) && !ThawsAtLowEnd(cfg, s, sig) && !ThawsAtHighEnd(cfg, s, sig))
  {
    EndsAreOrdered(cfg);
    CapNeverRisesIff(cfg, s, sig);
    assert |cfg.policy.buckets.podStartup| >= 2;
    hide RestartMonotone, CapFallsAtSteps, CapNeverRises, CalmReachable, ThawsAtLowEnd, ThawsAtHighEnd;
    if CalmReachable(cfg.policy.thresholds) && !(CapNeverRises(cfg, s, sig) && !ThawsAtLowEnd(cfg, s, sig) && !ThawsAtHighEnd(cfg, s, sig)) {
      SofteningIsReached(cfg, s, sig);
    } else {
      NothingSoftens(cfg, s, sig);
    }
  }

  lemma NothingSoftens(cfg: Config, s: NodeState, sig: Signals)
    requires WellFormed(cfg) && s.clusterUtilization >= 0.0
    requires CalmReachable(cfg.policy.thresholds) ==>
               CapNeverRises(cfg, s, sig) && !ThawsAtLowEnd(cfg, s, sig) && !ThawsAtHighEnd(cfg, s, sig)
    ensures RestartMonotone(cfg, s, sig)
  {
    hide SeverityAt, CapNeverRises, ThawsAtLowEnd, ThawsAtHighEnd, CalmReachable, UnitScores, NormalRules;
    forall ratio, c, r, p, q | ratio >= 0.0 && UnitScores(c, r) && 0.0 < p <= q
      ensures SeverityAt(cfg, s, sig, ratio, p, c, r) <= SeverityAt(cfg, s, sig, ratio, q, c, r)
    {
      SlowerIsNotSofter(cfg, s, sig, ratio, p, q, c, r);
    }
  }

  lemma SlowerIsNotSofter(cfg: Config, s: NodeState, sig: Signals, ratio: real, p: real, q: real, c: real, r: real)
    requires WellFormed(cfg) && s.clusterUtilization >= 0.0 && ratio >= 0.0 && UnitScores(c, r) && 0.0 < p <= q
    requires CalmReachable(cfg.policy.thresholds) ==>
               CapNeverRises(cfg, s, sig) && !ThawsAtLowEnd(cfg, s, sig) && !ThawsAtHighEnd(cfg, s, sig)
    ensures SeverityAt(cfg, s, sig, ratio, p, c, r) <= SeverityAt(cfg, s, sig, ratio, q, c, r)
  {
    hide SeverityAt, CapNeverRises, ThawsAtLowEnd, ThawsAtHighEnd, NormalRules;
    if NoMarketBand(cfg.policy.thresholds, Max(c, r), r) {
      assert CalmReachable(cfg.policy.thresholds);
      NoThawNoSoftening(cfg, s, sig, ratio, p, q, c, r);
    } else {
      SeverityOutsideCalm(cfg, s, sig, ratio, p, q, c, r);
    }
  }

  lemma SofteningIsReached(cfg: Config, s: NodeState, sig: Signals)
    requires WellFormed(cfg) && s.clusterUtilization >= 0.0 && CalmReachable(cfg.policy.thresholds)
    requires !CapNeverRises(cfg, s, sig) || ThawsAtLowEnd(cfg, s, sig) || ThawsAtHighEnd(cfg, s, sig)
    ensures !RestartMonotone(cfg, s, sig)
  {
    EndsAreOrdered(cfg);
    assert |cfg.policy.buckets.podStartup| >= 2;
    hide SeverityAt, CapAt, CalmReachable, ThawsAtLowEnd, ThawsAtHighEnd, NormalBuckets, NormalRules;
    if !CapNeverRises(cfg, s, sig) {
      var p, q :| 0.0 < p <= q && CapAt(cfg, s, sig, q) > CapAt(cfg, s, sig, p);
      var ratio := RisingCapSoftens(cfg, s, sig, p, q);
      assert UnitScores(0.0, 0.0);
    } else if ThawsAtLowEnd(cfg, s, sig) {
      var p, c := LowEndSoftens(cfg, s, sig);
      assert UnitScores(c, 0.0);
    } else {
      var q := HighEndSoftens(cfg, s, sig);
      assert UnitScores(0.0, 0.0);
    }
  }

  // ----- the cap and the rules

  /** Falling start-up and migration rules keep the cap from rising, whatever the other three lists say. */
  lemma FallingRulesKeepCap(cfg: Config, s: NodeState, sig: Signals)
    requires WellFormed(cfg) && s.clusterUtilization >= 0.0
    requires Falling(cfg.policy.rules.startup, false) && Falling(cfg.policy.rules.migration, false)
    ensures CapNeverRises(cfg, s, sig)
  {
    forall p, q | 0.0 < p <= q ensures CapAt(cfg, s, sig, q) <= CapAt(cfg, s, sig, p) {
      FallingStep(cfg, s, sig, p, q);
      hide *;
    }
  }

  lemma FallingStep(cfg: Config, s: NodeState, sig: Signals, p: real, q: real)
    requires WellFormed(cfg) && s.clusterUtilization >= 0.0 && p <= q
    requires Falling(cfg.policy.rules.startup, false) && Falling(cfg.policy.rules.migration, false)
    ensures CapAt(cfg, s, sig, q) <= CapAt(cfg, s, sig, p)
  {
    hide Measured, MigrationCost, FeatureCap, ClampRules, ResolveVector, NormalBuckets, IsNormal, Falling, OrderedBands;
    FallingFeatures(cfg.policy.rules, s, sig, p, q);
    MeasuredIsUsable(sig.(restartP95 := p));
    MeasuredIsUsable(sig.(restartP95 := q));
    WorseSignalsTightenVector(sig.(restartP95 := p), sig.(restartP95 := q));
  }

  lemma CostRises(s: NodeState, p: real, q: real)
    requires s.clusterUtilization >= 0.0 && p <= q
    ensures MigrationCost(s, p) <= MigrationCost(s, q)
  {
    RatesAreNonNegative(s);
    CostIsLinear(s, p);
    CostIsLinear(s, q);
    hide MigrationCost, CostRate;
    ScaledIsMonotone(p, q, CostRate(s));
  }

  lemma FallingFeatures(r: RuleSet, s: NodeState, sig: Signals, p: real, q: real)
    requires s.clusterUtilization >= 0.0 && p <= q && r.startup != [] && r.migration != []
    requires Falling(r.startup, false) && Falling(r.migration, false)
    ensures FeatureCap(ClampRules(r), Observed(s, sig, q)) <= FeatureCap(ClampRules(r), Observed(s, sig, p))
  {
    hide Measured, MigrationCost, FirstMatch, Resolve, IsNormal, Falling;
    var rules := ClampRules(r);
    var cap2 := FirstMatch(s.outagePenaltyHours, FirstMatch(s.priorityScore, 1.0, rules.priority), rules.outage);
    var mp, mq := MigrationCost(s, p), MigrationCost(s, q);
    CostRises(s, p, q);
    DefaultRulesAreNormal();
    CapLink(r.startup, DEFAULT_STARTUP_RULES, false, p, q, cap2, cap2);
    var ap, aq := FirstMatch(p, cap2, rules.startup), FirstMatch(q, cap2, rules.startup);
    CapLink(r.migration, DEFAULT_MIGRATION_RULES, false, mp, mq, ap, aq);
    FirstMatchMonotoneInCap(s.clusterUtilization, FirstMatch(mq, aq, rules.migration), FirstMatch(mp, ap, rules.migration), rules.utilization);
  }

  /** All eight signals at once: a pool worse in the seven and slower to restart is never treated more leniently, where nothing thaws. */
  lemma WorsePoolNeverSoftens(cfg: Config, s: NodeState, a: Signals, b: Signals, p: real, q: real, c: real, r: real)
    requires WellFormed(cfg) && s.clusterUtilization >= 0.0 && s.currentSpotRatio >= 0.0 && UnitScores(c, r)
    requires Worse(a.(restartP95 := p), b.(restartP95 := q)) && 0.0 < p
    requires CapFallsAtSteps(cfg, s, b) && !ThawsAtLowEnd(cfg, s, b) && !ThawsAtHighEnd(cfg, s, b)
    ensures SeverityOf(cfg, Observed(s, a, p), c, r) <= SeverityOf(cfg, Observed(s, b, q), c, r)
  {
    WorseSignalsNeverSoftenAction(cfg, s, a, b, p, c, r);
    RestartMonotoneIff(cfg, s, b);
    assert s.(currentSpotRatio := s.currentSpotRatio) == s;
    hide SeverityOf, Observed, CapFallsAtSteps, ThawsAtLowEnd, ThawsAtHighEnd;
    assert SeverityAt(cfg, s, b, s.currentSpotRatio, p, c, r) <= SeverityAt(cfg, s, b, s.currentSpotRatio, q, c, r);
  }

  // ----- the shipped configuration

  /** config/runtime.json, with the buckets it takes from config/workload_distributions.yaml. */
  const SHIPPED := Config(
                     Dials(1.0, 0.167, 1.0, 0.5, 10),
                     PolicyConfig(
                       Thresholds(0.891, 0.865, 0.782, 0.58, 0.249, 6.372, true, 0.189, 0.334, 2.189, Some(0.1)),
                       RuleSet(DEFAULT_PRIORITY_RULES, DEFAULT_OUTAGE_RULES, DEFAULT_STARTUP_RULES,
                               DEFAULT_MIGRATION_RULES, DEFAULT_UTILIZATION_RULES),
                       FeatureBuckets([3.0, 6.0, 31.0, 205.15, 500.0], [0.3, 0.4, 1.1, 12.605, 66.9],
                                      [0.0, 0.25, 0.5, 0.75, 1.0], [0.32, 0.51, 0.73, 0.89, 0.99])))

  const HEALTHY := Signals(0.0, 5.0, 5.0, 0.0, 0.0, 5.0, 1.0, 1.0)

  const QUIET_NODE := NodeState(0.4, 1.0, 0.0, 1.0, 0.0, 0.3, 0.6, 0.0, ZERO_VECTOR)

  /** A healthy on-demand pool under the shipped configuration: INCREASE_10 at two seconds, INCREASE_30 at ten. */
  lemma ShippedConfigurationThaws(s: NodeState)
    requires s == QUIET_NODE
    ensures SeverityAt(SHIPPED, s, HEALTHY, 0.0, 2.0, 0.0, 0.0) == 1
    ensures SeverityAt(SHIPPED, s, HEALTHY, 0.0, 10.0, 0.0, 0.0) == 0
  {
    hide SeverityAt, CapAt, RiskAt, Cautious, OodGate, GrowthGate;
    ShippedGates(s, 2.0);
    ShippedGates(s, 10.0);
    ShippedCap(s, 2.0);
    ShippedCap(s, 10.0);
    ShippedCaution(s);
    assert |SHIPPED.policy.buckets.podStartup| == 5;
    CalmSeverityAt(SHIPPED, s, HEALTHY, 0.0, 2.0, 0.0, 0.0);
    CalmSeverityAt(SHIPPED, s, HEALTHY, 0.0, 10.0, 0.0, 0.0);
  }

  lemma ShippedCaution(s: NodeState)
    requires s == QUIET_NODE
    ensures |SHIPPED.policy.buckets.podStartup| == 5 && Cautious(SHIPPED, s, 2.0) && !Cautious(SHIPPED, s, 10.0)
  {
  }

  lemma ShippedGates(s: NodeState, p: real)
    requires s == QUIET_NODE && 0.0 <= p <= 100.0
    ensures OodGate(SHIPPED, s, p, 0.0) && GrowthGate(SHIPPED, s, p, 0.0)
  {
    var d := 1.0 - 0.4;
    assert Delta(s) == d;
    assert CostRate(s) == 0.72 / 3600.0;
    assert PaybackRate(s) == 1.2 / 3600.0;
    assert Scaled(p, 1.2 / 3600.0) <= 1.0;
    hide PaybackRate, CostRate, Scaled;
  }

  lemma ShippedCap(s: NodeState, p: real)
    requires s == QUIET_NODE && 0.0 <= p <= 100.0
    ensures CapAt(SHIPPED, s, HEALTHY, p) == 1.0 && RiskAt(HEALTHY, p) == 0.0
  {
    var r, o, sig := SHIPPED.policy.rules, Observed(s, HEALTHY, p), HEALTHY.(restartP95 := p);
    MeasuredIsUsable(sig);
    HealthyVector(p);
    assert ClampRules(r) == r by {
      DefaultRulesAreNormal();
      ClampRulesFixesNormal(r);
    }
    assert FeatureCap(r, o) == 1.0 by {
      ShippedFeatures(s, p);
    }
    hide ClampRules, Measured, FeatureCap, ResolveVector, MigrationCost;
  }

  lemma HealthyVector(p: real)
    requires 0.0 <= p <= 100.0
    ensures var v := Measured(HEALTHY.(restartP95 := p)); v.risk == 0.0 && v.safeMax == 1.0
  {
    var sig := HEALTHY.(restartP95 := p);
    assert Risk(sig) == 0.0;
    assert SafeMax(sig, 0.0) == 1.0;
  }

  lemma ShippedFeatures(s: NodeState, p: real)
    requires s == QUIET_NODE && 0.0 <= p <= 100.0
    ensures FeatureCap(SHIPPED.policy.rules, Observed(s, HEALTHY, p)) == 1.0
  {
    hide Measured, MigrationCost, FirstMatch;
    var r, o := SHIPPED.policy.rules, Observed(s, HEALTHY, p);
    QuietCost(s, p);
    ScanPassesUnreached(o.priorityScore, 1.0, r.priority);
    ScanPassesUnreached(o.outagePenaltyHours, 1.0, r.outage);
    ScanPassesUnreached(o.podStartupTime, 1.0, r.startup);
    ScanPassesUnreached(o.migrationCost, 1.0, r.migration);
    ScanPassesUnreached(o.clusterUtilization, 1.0, r.utilization);
  }

  lemma QuietCost(s: NodeState, p: real)
    requires s == QUIET_NODE && 0.0 <= p <= 100.0
    ensures MigrationCost(s, p) < 2.0
  {
    CostIsLinear(s, p);
    assert CostRate(s) == 0.72 / 3600.0;
    hide MigrationCost, CostRate;
  }
}
