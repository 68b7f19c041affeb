/**
  The policy and the target update in closed loop: one executed action per tick, constant features,
  low market risk, and a pool whose ratio follows its target exactly.
 */
module ClosedLoop {
  import opened Wrappers
  import opened Numbers
  import opened RuntimeConfigs
  import opened PoolSafety
  import opened Actions
  import opened Policy
  import opened PoolBooks

  /** No market band is active. */
  predicate LowMarket(t: Thresholds, capacityScore: real, runtimeScore: real) {
    var risk := Max(capacityScore, runtimeScore);
    risk < t.mediumRisk && risk < t.highRisk && risk < t.emergencyRisk && runtimeScore < t.runtimeEmergency
  }

  /** HOLD is not executed, so it leaves the target alone; every other action moves it. */
  function Realise(cfg: Config, ratio: real, a: Action, riskLow: bool): real {
    if a.Hold? then ratio else UpdateTarget(ratio, a, Some(cfg), riskLow)
  }

  /** What one tick of the loop looks at: everything but the ratio is fixed. */
  datatype Loop = Loop(cfg: Config, state: NodeState, capacityScore: real, runtimeScore: real, riskLow: bool)

  function Cap(l: Loop): real {
    EffectiveCap(l.cfg, l.state)
  }

  function Tick(l: Loop, ratio: real): real {
    var s := l.state.(currentSpotRatio := ratio);
    Realise(l.cfg, ratio, Evaluate(l.cfg, s, l.capacityScore, l.runtimeScore).action, l.riskLow)
  }

  /** xs lists the ratio at successive ticks. */
  ghost predicate IsRun(l: Loop, xs: seq<real>) {
    forall i, j :: 0 <= i < j == i + 1 < |xs| ==> xs[j] == Tick(l, xs[i])
  }

  ghost predicate Calm(l: Loop) {
    OrderedDials(l.cfg.dials) && LowMarket(l.cfg.policy.thresholds, l.capacityScore, l.runtimeScore)
  }

  ghost predicate Inside(l: Loop, ratio: real) {
    l.cfg.dials.minSpotRatio <= ratio <= l.cfg.dials.maxSpotRatio
  }

  // ----- one tick

  /** The cap does not depend on the ratio, and it lies inside the configured bounds. */
  lemma CapIsFixed(l: Loop, ratio: real)
    requires Calm(l)
    ensures EffectiveCap(l.cfg, l.state.(currentSpotRatio := ratio)) == Cap(l)
    ensures Inside(l, Cap(l))
  {
    var s := l.state.(currentSpotRatio := ratio);
    var rules := ClampRules(l.cfg.policy.rules);
    assert FeatureCap(rules, s) == FeatureCap(rules, l.state);
    hide ClampRules, FeatureCap;
  }

  /** The three things the cascade can do under low market risk, by where the ratio stands. */
  lemma CalmDecision(l: Loop, ratio: real)
    requires Calm(l)
    ensures var s := l.state.(currentSpotRatio := ratio);
            var a := Evaluate(l.cfg, s, l.capacityScore, l.runtimeScore).action;
            && (ratio - Cap(l) > CAP_TOLERANCE <==> a.Decrease10? || a.Decrease30?)
            && (ratio - Cap(l) >= 0.25 ==> a.Decrease30?)
            && (a.Increase10? ==> ratio < Cap(l) - CAP_TOLERANCE)
            && (a.Increase30? ==> ratio <= Cap(l) - 0.25)
            && !a.EmergencyExit?
  {
    CapIsFixed(l, ratio);
    hide EffectiveCap, ResolveVector, OodReasons, CanIncrease, FeatureCap, WorkloadCap;
  }

  /**
    One tick: above the tolerance the ratio falls by a full tenth or lands on the minimum; otherwise
    it never gets a tenth above the cap; it never drops three tenths below the cap. The ratio may
    start anywhere in [0, 1], inside the configured bounds or not.
   */
  lemma OneTick(l: Loop, ratio: real)
    requires Calm(l) && 0.0 <= ratio <= 1.0
    ensures 0.0 <= Tick(l, ratio) <= 1.0
    ensures ratio - Cap(l) > CAP_TOLERANCE ==>
              Tick(l, ratio) <= ratio - 0.10 || Tick(l, ratio) == l.cfg.dials.minSpotRatio
    ensures ratio < Cap(l) + 0.10 ==> Tick(l, ratio) < Cap(l) + 0.10
    ensures ratio > Cap(l) - 0.30 ==> Tick(l, ratio) > Cap(l) - 0.30
    ensures ratio - Cap(l) <= CAP_TOLERANCE ==> Tick(l, ratio) >= ratio
  {
    CapIsFixed(l, ratio);
    CalmDecision(l, ratio);
    var a := Evaluate(l.cfg, l.state.(currentSpotRatio := ratio), l.capacityScore, l.runtimeScore).action;
    hide Evaluate, EffectiveCap, Scaled;
  }

  // ----- every run

  lemma {:induction false} RunStaysARatio(l: Loop, xs: seq<real>, n: nat)
    requires Calm(l) && IsRun(l, xs) && n < |xs| && 0.0 <= xs[0] <= 1.0
    ensures 0.0 <= xs[n] <= 1.0
  {
    hide Tick, Cap, Calm;
    if n > 0 {
      RunStaysARatio(l, xs, n - 1);
      OneTick(l, xs[n - 1]);
    }
  }

  /** Once below cap + 0.10 the ratio stays below it for ever; once above cap - 0.30, above that. */
  lemma {:induction false} EnvelopeIsForever(l: Loop, xs: seq<real>, k: nat, n: nat)
    requires Calm(l) && IsRun(l, xs) && k <= n < |xs| && 0.0 <= xs[0] <= 1.0
    ensures xs[k] < Cap(l) + 0.10 ==> xs[n] < Cap(l) + 0.10
    ensures xs[k] > Cap(l) - 0.30 ==> xs[n] > Cap(l) - 0.30
  {
    hide Tick, Cap, Calm;
    if k < n {
      EnvelopeIsForever(l, xs, k, n - 1);
      RunStaysARatio(l, xs, n - 1);
      OneTick(l, xs[n - 1]);
    }
  }

  ghost predicate AboveUntil(l: Loop, xs: seq<real>, n: nat) {
    n <= |xs| && forall k :: 0 <= k < n ==> xs[k] - Cap(l) > CAP_TOLERANCE
  }

  /** Until the ratio first comes within tolerance of the cap, every tick takes off a full tenth. */
  lemma {:induction false} OvershootFalls(l: Loop, xs: seq<real>, n: nat)
    requires Calm(l) && IsRun(l, xs) && n < |xs| && 0.0 <= xs[0] <= 1.0 && AboveUntil(l, xs, n)
    ensures xs[n] <= xs[0] - 0.10 * n as real || xs[n] == l.cfg.dials.minSpotRatio
  {
    hide Tick, Cap, Calm;
    if n > 0 {
      OvershootFalls(l, xs, n - 1);
      RunStaysARatio(l, xs, n - 1);
      CapIsFixed(l, xs[n - 1]);
      OneTick(l, xs[n - 1]);
    }
  }

  /** The first time within tolerance comes no later than the overshoot divided by a tenth. */
  lemma OvershootEnds(l: Loop, xs: seq<real>, n: nat) returns (k: nat)
    requires Calm(l) && IsRun(l, xs) && n < |xs| && 0.0 <= xs[0] <= 1.0 && xs[0] - Cap(l) <= 0.10 * n as real
    ensures k <= n && xs[k] - Cap(l) <= CAP_TOLERANCE
  {
    hide Tick, Cap, Calm;
    k := 0;
    while k < n && xs[k] - Cap(l) > CAP_TOLERANCE
      invariant k <= n && AboveUntil(l, xs, k)
    {
      k := k + 1;
    }
    CapIsFixed(l, xs[0]);
    OvershootFalls(l, xs, k);
  }

  /**
    Convergence: from any ratio at all, after as many ticks as tenths of overshoot, the ratio is
    below cap + 0.10 at every later tick. Ten ticks are enough for every pool.
   */
  lemma LoopConverges(l: Loop, xs: seq<real>, n: nat, m: nat)
    requires Calm(l) && IsRun(l, xs) && n <= m < |xs| && 0.0 <= xs[0] <= 1.0
    requires xs[0] - Cap(l) <= 0.10 * n as real || n >= 10
    ensures xs[m] < Cap(l) + 0.10
  {
    CapIsFixed(l, xs[0]);
    hide Tick, Cap;
    var k := OvershootEnds(l, xs, n);
    EnvelopeIsForever(l, xs, k, m);
  }
}
