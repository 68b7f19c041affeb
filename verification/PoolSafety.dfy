/**
  The pool-safety vector: raw blast-radius signals, the recovery risk derived from them, and the
  largest Spot ratio they allow.
 */
module PoolSafety {
  import opened Numbers
  import opened PdbSlack

  datatype Signals = Signals(
    concentration: real, slackOne: real, slackTwo: real, stateful: real, restartP95: real,
    headroom: real, zone: real, evictable: real)

  datatype SafetyVector = SafetyVector(signals: Signals, risk: real, safeMax: real)

  const ZERO_VECTOR := SafetyVector(Signals(0.0, 0.0, 0.0, 0.0, 0.0, 0.0, 0.0, 0.0), 0.0, 0.0)

  const DEFAULT_VECTOR := SafetyVector(Signals(0.0, 0.0, 0.0, 0.0, 300.0, 0.0, 1.0, 1.0), 0.0, 1.0)

  // ----- computeRecoveryBudgetViolationRisk, one contribution per signal

  function SlackOneRisk(x: real): real {
    if x < 0.0 then 0.95 else if x < 1.0 then 0.70 else 0.0
  }

  function SlackTwoRisk(x: real): real {
    if x < 0.0 then 0.85 else if x < 1.0 then 0.55 else 0.0
  }

  function ConcentrationRisk(x: real): real {
    if x > 0.0 then Clamp(0.20 + 0.80 * x, 0.0, 1.0) else 0.0
  }

  function StatefulRisk(x: real): real {
    if x > 0.0 then Clamp(0.15 + 0.65 * x, 0.0, 1.0) else 0.0
  }

  function RestartRisk(x: real): real {
    if x >= 600.0 then 0.75 else if x >= 300.0 then 0.50 else if x >= 120.0 then 0.30 else 0.0
  }

  function HeadroomRisk(x: real): real {
    if x < 1.0 then 0.55 else 0.0
  }

  function ZoneRisk(x: real): real {
    Clamp((1.0 - x) * 0.60, 0.0, 1.0)
  }

  function EvictableRisk(x: real): real {
    Clamp((1.0 - x) * 0.85, 0.0, 1.0)
  }

  function Risk(s: Signals): real {
    var pdb := Max(SlackOneRisk(s.slackOne), SlackTwoRisk(s.slackTwo));
    var pods := Max(ConcentrationRisk(s.concentration), StatefulRisk(s.stateful));
    var speed := Max(RestartRisk(s.restartP95), HeadroomRisk(s.headroom));
    var spread := Max(ZoneRisk(s.zone), EvictableRisk(s.evictable));
    Clamp(Max(Max(pdb, pods), Max(speed, spread)), 0.0, 1.0)
  }

  // ----- computeSafeMaxSpotRatio, one cap per signal plus one for the derived risk

  function ConcentrationCap(x: real): real {
    if x >= 0.80 then 0.10 else if x >= 0.50 then 0.25 else if x >= 0.25 then 0.50 else 1.0
  }

  function SlackOneCap(x: real): real {
    if x < 0.0 then 0.10 else if x < 1.0 then 0.35 else 1.0
  }

  function SlackTwoCap(x: real): real {
    if x < 0.0 then 0.25 else if x < 1.0 then 0.50 else 1.0
  }

  function StatefulCap(x: real): real {
    if x >= 0.50 then 0.50 else if x >= 0.25 then 0.70 else 1.0
  }

  function RestartCap(x: real): real {
    if x >= 600.0 then 0.25 else if x >= 300.0 then 0.50 else 1.0
  }

  function RiskCap(x: real): real {
    if x >= 0.90 then 0.10 else if x >= 0.75 then 0.25 else if x >= 0.60 then 0.40 else 1.0
  }

  function HeadroomCap(x: real): real {
    if x < 1.0 then 0.60 else 1.0
  }

  function ZoneCap(x: real): real {
    if x < 0.50 then 0.60 else 1.0
  }

  function EvictableCap(x: real): real {
    if x < 0.25 then 0.20 else if x < 0.50 then 0.40 else 1.0
  }

  function SafeMax(s: Signals, risk: real): real {
    var pdb := Min(SlackOneCap(s.slackOne), SlackTwoCap(s.slackTwo));
    var pods := Min(ConcentrationCap(s.concentration), StatefulCap(s.stateful));
    var speed := Min(RestartCap(s.restartP95), HeadroomCap(s.headroom));
    var spread := Min(ZoneCap(s.zone), EvictableCap(s.evictable));
    Clamp(Min(RiskCap(risk), Min(Min(pdb, pods), Min(speed, spread))), 0.0, 1.0)
  }

  // ----- what the two numbers mean: a table of conditions each

  /** Some condition that holds of the signals stands for the risk x. */
  ghost predicate Threatens(s: Signals, x: real) {
    || (s.slackOne < 0.0 && x == 0.95) || (s.slackOne < 1.0 && x == 0.70)
    || (s.slackTwo < 0.0 && x == 0.85) || (s.slackTwo < 1.0 && x == 0.55)
    || (s.concentration > 0.0 && x == Min(1.0, 0.20 + 0.80 * s.concentration))
    || (s.stateful > 0.0 && x == Min(1.0, 0.15 + 0.65 * s.stateful))
    || (s.restartP95 >= 600.0 && x == 0.75) || (s.restartP95 >= 300.0 && x == 0.50) || (s.restartP95 >= 120.0 && x == 0.30)
    || (s.headroom < 1.0 && x == 0.55)
    || (s.zone < 1.0 && x == Min(1.0, 0.60 * (1.0 - s.zone)))
    || (s.evictable < 1.0 && x == Min(1.0, 0.85 * (1.0 - s.evictable)))
  }

  /** Some condition that holds of the signals or of the risk allows no more than x. */
  ghost predicate Restricts(s: Signals, risk: real, x: real) {
    || (s.concentration >= 0.80 && x == 0.10) || (s.concentration >= 0.50 && x == 0.25) || (s.concentration >= 0.25 && x == 0.50)
    || (s.slackOne < 0.0 && x == 0.10) || (s.slackOne < 1.0 && x == 0.35)
    || (s.slackTwo < 0.0 && x == 0.25) || (s.slackTwo < 1.0 && x == 0.50)
    || (s.stateful >= 0.50 && x == 0.50) || (s.stateful >= 0.25 && x == 0.70)
    || (s.restartP95 >= 600.0 && x == 0.25) || (s.restartP95 >= 300.0 && x == 0.50)
    || (risk >= 0.90 && x == 0.10) || (risk >= 0.75 && x == 0.25) || (risk >= 0.60 && x == 0.40)
    || (s.headroom < 1.0 && x == 0.60) || (s.zone < 0.50 && x == 0.60)
    || (s.evictable < 0.25 && x == 0.20) || (s.evictable < 0.50 && x == 0.40)
  }

  /** The greatest of 0 and the risks of all conditions that hold. */
  ghost predicate IsWorstThreat(s: Signals, risk: real) {
    && risk >= 0.0 && (risk == 0.0 || Threatens(s, risk))
    && forall x :: Threatens(s, x) ==> x <= risk
  }

  /** The least of 1 and the caps of all conditions that hold. */
  ghost predicate IsTightestCap(s: Signals, risk: real, cap: real) {
    && cap <= 1.0 && (cap == 1.0 || Restricts(s, risk, cap))
    && forall x :: Restricts(s, risk, x) ==> cap <= x
  }

  lemma RiskIsWorst(s: Signals)
    ensures IsWorstThreat(s, Risk(s))
  {
  }

  lemma CapIsTightest(s: Signals, risk: real)
    ensures IsTightestCap(s, risk, SafeMax(s, risk))
  {
  }

  // ----- NormalizePoolSafetyVector

  function NormalizeSignals(s: Signals): Signals {
    s.(concentration := Clamp(s.concentration, 0.0, 1.0), stateful := Clamp(s.stateful, 0.0, 1.0),
       restartP95 := Max(0.0, s.restartP95), headroom := Max(0.0, s.headroom),
       zone := Clamp(s.zone, 0.0, 1.0), evictable := Clamp(s.evictable, 0.0, 1.0))
  }

  function NormalizeVector(v: SafetyVector): SafetyVector {
    SafetyVector(NormalizeSignals(v.signals), Clamp(v.risk, 0.0, 1.0), Clamp(v.safeMax, 0.0, 1.0))
  }

  /** The vector the collector publishes for a pool with workload pods. */
  function Measured(s: Signals): SafetyVector {
    NormalizeVector(SafetyVector(s, Risk(s), SafeMax(s, Risk(s))))
  }

  /** resolvePoolSafetyVector: the all-zero vector stands for "not measured". */
  function ResolveVector(v: SafetyVector): SafetyVector {
    if v == ZERO_VECTOR then DEFAULT_VECTOR else NormalizeVector(v)
  }

  // ----- computePoolSafetyVector

  datatype PoolAccumulator = PoolAccumulator(
    budgets: PoolBudgets, odNodes: nat, workloadPods: nat, statefulPods: nat, evictablePods: nat,
    criticalPods: nat, criticalOnSpot: nat)

  function ZoneScore(zoneCount: int): real {
    if zoneCount >= 3 then 1.0 else if zoneCount == 2 then 0.5 else 0.0
  }

  function Share(part: nat, whole: nat): real {
    if whole == 0 then 0.0 else part as real / whole as real
  }

  function Headroom(odNodes: nat, util: real): real {
    Max(0.0, odNodes as real * (1.0 - Clamp(util, 0.0, 1.0)))
  }

  function SignalsOf(acc: PoolAccumulator, util: real, zoneCount: int, restartP95: real, one: int, two: int): Signals {
    Signals(Share(acc.criticalOnSpot, acc.criticalPods), one as real, two as real,
            Share(acc.statefulPods, acc.workloadPods), restartP95,
            Headroom(acc.odNodes, util), ZoneScore(zoneCount), Share(acc.evictablePods, acc.workloadPods))
  }

  ghost predicate SlackBounds(b: PoolBudgets, one: int, two: int) {
    if b.counts == map[] then one == 0 && two == 0 else IsWorstSlack(b, 1, one) && IsWorstSlack(b, 2, two)
  }

  /** s holds the raw signals of the pool: shares as fractions of pods, headroom in free on-demand nodes, zones scored. */
  ghost predicate AreSignalsOf(acc: PoolAccumulator, util: real, zoneCount: int, restartP95: real, one: int, two: int, s: Signals)
    requires acc.workloadPods > 0
  {
    && (acc.criticalPods == 0 ==> s.concentration == 0.0)
    && (acc.criticalPods > 0 ==> s.concentration * acc.criticalPods as real == acc.criticalOnSpot as real)
    && s.stateful * acc.workloadPods as real == acc.statefulPods as real
    && s.evictable * acc.workloadPods as real == acc.evictablePods as real
    && s.slackOne == one as real && s.slackTwo == two as real && s.restartP95 == restartP95
    && (util <= 0.0 ==> s.headroom == acc.odNodes as real)
    && (0.0 < util < 1.0 ==> s.headroom == acc.odNodes as real * (1.0 - util))
    && (util >= 1.0 ==> s.headroom == 0.0)
    && (zoneCount >= 3 ==> s.zone == 1.0) && (zoneCount == 2 ==> s.zone == 0.5) && (zoneCount <= 1 ==> s.zone == 0.0)
  }

  lemma SignalsMeaning(acc: PoolAccumulator, util: real, zoneCount: int, restartP95: real, one: int, two: int)
    requires acc.workloadPods > 0
    ensures AreSignalsOf(acc, util, zoneCount, restartP95, one, two, SignalsOf(acc, util, zoneCount, restartP95, one, two))
  {
    if 0.0 < util < 1.0 {
      assert acc.odNodes as real * (1.0 - util) >= 0.0;
    }
  }

  /** Publishing loses neither number. */
  lemma MeasuredNumbers(s: Signals)
    ensures IsWorstThreat(s, Measured(s).risk) && IsTightestCap(s, Measured(s).risk, Measured(s).safeMax)
    ensures Measured(s).signals.slackOne == s.slackOne
  {
    RiskIsWorst(s);
    CapIsTightest(s, Risk(s));
    SafeMaxRange(s, Risk(s));
    assert 0.0 <= Risk(s) <= 1.0;
    hide Risk, SafeMax, IsWorstThreat, IsTightestCap;
  }

  /** A pool that was never measured is neither at risk nor capped. */
  lemma UnmeasuredIsUncapped(v: SafetyVector)
    requires v == SafetyVector(Signals(0.0, 0.0, 0.0, 0.0, 0.0, 0.0, 0.0, 0.0), 0.0, 0.0)
    ensures ResolveVector(v).risk == 0.0 && ResolveVector(v).safeMax == 1.0 && ResolveVector(v).signals.slackOne == 0.0
  {
  }

  method ComputePoolSafetyVector(acc: PoolAccumulator, util: real, zoneCount: int, restartP95: real)
    returns (v: SafetyVector, one: int, two: int, ghost raw: Signals)
    ensures acc.workloadPods == 0 ==>
              && v.signals == NormalizeSignals(DEFAULT_VECTOR.signals.(
                   restartP95 := restartP95, headroom := Headroom(acc.odNodes, util), zone := ZoneScore(zoneCount)))
              && v.risk == 0.0 && v.safeMax == 1.0
    ensures acc.workloadPods > 0 ==>
              SlackBounds(acc.budgets, one, two) && v == Measured(SignalsOf(acc, util, zoneCount, restartP95, one, two))
    ensures acc.workloadPods > 0 ==>
              && AreSignalsOf(acc, util, zoneCount, restartP95, one, two, raw)
              && IsWorstThreat(raw, v.risk) && IsTightestCap(raw, v.risk, v.safeMax)
    ensures 0.10 <= v.safeMax <= 1.0 && ResolveVector(v) == v
  {
    one, two, raw := 0, 0, DEFAULT_VECTOR.signals;
    var signals := DEFAULT_VECTOR.signals.(
      restartP95 := restartP95, headroom := Headroom(acc.odNodes, util), zone := ZoneScore(zoneCount));
    if acc.workloadPods == 0 {
      v := NormalizeVector(SafetyVector(signals, 0.0, 1.0));
      NormalizeVectorTwice(SafetyVector(signals, 0.0, 1.0));
      return;
    }
    if acc.criticalPods > 0 {
      signals := signals.(concentration := acc.criticalOnSpot as real / acc.criticalPods as real);
    }
    signals := signals.(stateful := acc.statefulPods as real / acc.workloadPods as real,
                        evictable := acc.evictablePods as real / acc.workloadPods as real);
    one, two := ComputeSlackBounds(acc.budgets);
    signals := signals.(slackOne := one as real, slackTwo := two as real);
    assert signals == SignalsOf(acc, util, zoneCount, restartP95, one, two);
    v, raw := Measured(signals), signals;
    MeasuredIsUsable(signals);
    MeasuredNumbers(signals);
    SignalsMeaning(acc, util, zoneCount, restartP95, one, two);
    hide Measured, SignalsOf, IsWorstThreat, IsTightestCap, AreSignalsOf, ResolveVector;
  }

  lemma NormalizeVectorTwice(v: SafetyVector)
    ensures NormalizeVector(NormalizeVector(v)) == NormalizeVector(v)
  {
  }

  lemma SafeMaxRange(s: Signals, risk: real)
    ensures 0.10 <= SafeMax(s, risk) <= 1.0
  {
  }

  /** A measured vector always allows at least a tenth, so it is never mistaken for "not measured". */
  lemma MeasuredIsUsable(s: Signals)
    ensures 0.10 <= Measured(s).safeMax <= 1.0 && 0.0 <= Measured(s).risk <= 1.0
    ensures Measured(s) != ZERO_VECTOR && ResolveVector(Measured(s)) == Measured(s)
  {
    SafeMaxRange(s, Risk(s));
    NormalizeVectorTwice(SafetyVector(s, Risk(s), SafeMax(s, Risk(s))));
  }

  // ----- worse signals

  /** b is at least as dangerous as a in every raw signal. */
  predicate Worse(a: Signals, b: Signals) {
    && a.concentration <= b.concentration && a.slackOne >= b.slackOne && a.slackTwo >= b.slackTwo
    && a.stateful <= b.stateful && a.restartP95 <= b.restartP95 && a.headroom >= b.headroom
    && a.zone >= b.zone && a.evictable >= b.evictable
  }

  lemma WorseRaisesRisk(a: Signals, b: Signals)
    requires Worse(a, b)
    ensures Risk(a) <= Risk(b)
  {
    assert SlackOneRisk(a.slackOne) <= SlackOneRisk(b.slackOne) && SlackTwoRisk(a.slackTwo) <= SlackTwoRisk(b.slackTwo);
    assert ConcentrationRisk(a.concentration) <= ConcentrationRisk(b.concentration);
    assert StatefulRisk(a.stateful) <= StatefulRisk(b.stateful);
    assert RestartRisk(a.restartP95) <= RestartRisk(b.restartP95) && HeadroomRisk(a.headroom) <= HeadroomRisk(b.headroom);
    assert ZoneRisk(a.zone) <= ZoneRisk(b.zone) && EvictableRisk(a.evictable) <= EvictableRisk(b.evictable);
  }

  lemma WorseLowersCap(a: Signals, b: Signals, ra: real, rb: real)
    requires Worse(a, b) && ra <= rb
    ensures SafeMax(b, rb) <= SafeMax(a, ra)
  {
    assert SlackOneCap(b.slackOne) <= SlackOneCap(a.slackOne) && SlackTwoCap(b.slackTwo) <= SlackTwoCap(a.slackTwo);
    assert ConcentrationCap(b.concentration) <= ConcentrationCap(a.concentration);
    assert StatefulCap(b.stateful) <= StatefulCap(a.stateful);
    assert RestartCap(b.restartP95) <= RestartCap(a.restartP95) && HeadroomCap(b.headroom) <= HeadroomCap(a.headroom);
    assert ZoneCap(b.zone) <= ZoneCap(a.zone) && EvictableCap(b.evictable) <= EvictableCap(a.evictable);
    assert RiskCap(rb) <= RiskCap(ra);
  }

  /** From raw signals to the published vector: risk never falls, the cap never rises, the slack never rises. */
  lemma WorseSignalsTightenVector(a: Signals, b: Signals)
    requires Worse(a, b)
    ensures Measured(a).risk <= Measured(b).risk
    ensures Measured(b).safeMax <= Measured(a).safeMax
    ensures Measured(b).signals.slackOne <= Measured(a).signals.slackOne
  {
    WorseRaisesRisk(a, b);
    WorseLowersCap(a, b, Risk(a), Risk(b));
  }
}
