/**
  The per-pool maps of the controller that survive ticks: node counts, current and target ratios.
 */
module PoolBooks {
  import opened Wrappers
  import opened Numbers
  import opened RuntimeConfigs
  import opened Actions

  datatype PoolCount = PoolCount(total: nat, spot: nat)

  /** One resolved node: the pool it belongs to and whether it runs on Spot. */
  datatype NodeSeen = NodeSeen(pool: string, isSpot: bool)

  // ----- counting, stated per pool

  function CountNodes(nodes: seq<NodeSeen>, pool: string): nat {
    if nodes == [] then 0 else (if nodes[0].pool == pool then 1 else 0) + CountNodes(nodes[1..], pool)
  }

  function CountSpot(nodes: seq<NodeSeen>, pool: string): nat {
    if nodes == [] then 0 else (if nodes[0].pool == pool && nodes[0].isSpot then 1 else 0) + CountSpot(nodes[1..], pool)
  }

  lemma {:induction false} CountsOfConcat(a: seq<NodeSeen>, b: seq<NodeSeen>, pool: string)
    ensures CountNodes(a + b, pool) == CountNodes(a, pool) + CountNodes(b, pool)
    ensures CountSpot(a + b, pool) == CountSpot(a, pool) + CountSpot(b, pool)
  {
    if a == [] {
      assert a + b == b;
    } else {
      assert (a + b)[1..] == a[1..] + b;
      CountsOfConcat(a[1..], b, pool);
    }
  }

  ghost function PoolIndices(nodes: seq<NodeSeen>, pool: string): set<int> {
    set i | 0 <= i < |nodes| && nodes[i].pool == pool
  }

  ghost function SpotIndices(nodes: seq<NodeSeen>, pool: string): set<int> {
    set i | 0 <= i < |nodes| && nodes[i].pool == pool && nodes[i].isSpot
  }

  lemma PoolIndicesOneMore(nodes: seq<NodeSeen>, pool: string)
    requires nodes != []
    ensures |PoolIndices(nodes, pool)| == |PoolIndices(nodes[..|nodes| - 1], pool)| + if nodes[|nodes| - 1].pool == pool then 1 else 0
  {
    var n := |nodes| - 1;
    if nodes[n].pool == pool {
      assert PoolIndices(nodes, pool) == PoolIndices(nodes[..n], pool) + {n};
    } else {
      assert PoolIndices(nodes, pool) == PoolIndices(nodes[..n], pool);
    }
  }

  lemma SpotIndicesOneMore(nodes: seq<NodeSeen>, pool: string)
    requires nodes != []
    ensures var last := nodes[|nodes| - 1];
            |SpotIndices(nodes, pool)| == |SpotIndices(nodes[..|nodes| - 1], pool)| + if last.pool == pool && last.isSpot then 1 else 0
  {
    var n := |nodes| - 1;
    if nodes[n].pool == pool && nodes[n].isSpot {
      assert SpotIndices(nodes, pool) == SpotIndices(nodes[..n], pool) + {n};
    } else {
      assert SpotIndices(nodes, pool) == SpotIndices(nodes[..n], pool);
    }
  }

  lemma CountsOneMore(nodes: seq<NodeSeen>, pool: string)
    requires nodes != []
    ensures var front, last := nodes[..|nodes| - 1], nodes[|nodes| - 1];
            && CountNodes(nodes, pool) == CountNodes(front, pool) + (if last.pool == pool then 1 else 0)
            && CountSpot(nodes, pool) == CountSpot(front, pool) + (if last.pool == pool && last.isSpot then 1 else 0)
  {
    var front, last := nodes[..|nodes| - 1], [nodes[|nodes| - 1]];
    assert nodes == front + last && last[1..] == [];
    CountsOfConcat(front, last, pool);
  }

  /** The two counts are numbers of listed nodes: those of the pool, and those of the pool that run on Spot. */
  lemma {:induction false} CountsAreListed(nodes: seq<NodeSeen>, pool: string)
    ensures CountNodes(nodes, pool) == |PoolIndices(nodes, pool)|
    ensures CountSpot(nodes, pool) == |SpotIndices(nodes, pool)|
  {
    if nodes == [] {
      assert PoolIndices(nodes, pool) == {} && SpotIndices(nodes, pool) == {};
    } else {
      hide *;
      CountsAreListed(nodes[..|nodes| - 1], pool);
      PoolIndicesOneMore(nodes, pool);
      SpotIndicesOneMore(nodes, pool);
      CountsOneMore(nodes, pool);
    }
  }

  lemma {:induction false} SpotIsPart(nodes: seq<NodeSeen>, pool: string)
    ensures CountSpot(nodes, pool) <= CountNodes(nodes, pool)
  {
    if nodes != [] {
      SpotIsPart(nodes[1..], pool);
    }
  }

  ghost predicate CountsOf(counts: map<string, PoolCount>, nodes: seq<NodeSeen>) {
    forall p :: if p in counts then counts[p] == PoolCount(CountNodes(nodes, p), CountSpot(nodes, p)) && CountNodes(nodes, p) > 0
                else CountNodes(nodes, p) == 0
  }

  function RatioOf(c: PoolCount): real
    requires c.total > 0
  {
    c.spot as real / c.total as real
  }

  // ----- target updates

  function Delta(a: Action): real {
    match a
    case Increase10 => 0.10
    case Increase30 => 0.30
    case Decrease10 => -0.10
    case Decrease30 => -0.30
    case Hold => 0.0
    case EmergencyExit => 0.0
  }

  function Lerp(a: real, b: real, t: real): real {
    a + Scaled(b - a, t)
  }

  function ClampSpotRatio(d: Dials, r: real): real {
    Clamp(r, d.minSpotRatio, d.maxSpotRatio)
  }

  /** applyTargetSpotRatioWithConfig on one pool's target; without a configuration only [0, 1] is enforced. */
  function UpdateTarget(current: real, a: Action, cfg: Option<Config>, riskLow: bool): real {
    var moved := Clamp(if a.EmergencyExit? then 0.0 else current + Delta(a), 0.0, 1.0);
    if cfg.None? then moved
    else
      var d := cfg.value.dials;
      var bounded := ClampSpotRatio(d, moved);
      if riskLow && a.Hold?
      then ClampSpotRatio(d, Lerp(bounded, d.targetSpotRatio, DriftAlpha(cfg.value.policy.thresholds)))
      else bounded
  }

  function TargetOf(targets: map<string, real>, pool: string): real {
    if pool in targets then targets[pool] else 0.0
  }

  /** First sight of a pool seeds its target with the observed ratio; later sights leave it alone. */
  function SeedTargets(targets: map<string, real>, ratios: map<string, real>): map<string, real> {
    ratios + targets
  }

  function PutTarget(targets: map<string, real>, pool: string, a: Action, cfg: Option<Config>, riskLow: bool): map<string, real> {
    if pool == "" then targets else targets[pool := UpdateTarget(TargetOf(targets, pool), a, cfg, riskLow)]
  }

  // ----- drain counts

  /** The exact number of nodes, usually fractional, that separates the current ratio from the goal. */
  function Requirement(goal: real, current: real, total: nat): real {
    Scaled(Abs(goal - current), total as real)
  }

  /** Where calculatePoolDrainCount aims: the stored target moved by the action. */
  function DrainGoal(target: real, a: Action): real {
    Clamp(target + Delta(a), 0.0, 1.0)
  }

  function DrainLimit(total: nat, maxDrainRatio: real): int {
    MaxInt(1, Truncate(total as real * maxDrainRatio))
  }

  /** The goal of a draining action: a tenth or three tenths from the target, within [0, 1]. */
  ghost predicate AimsAt(target: real, a: Action, goal: real) {
    && (a == Increase10 ==> goal == Min(1.0, target + 0.10)) && (a == Increase30 ==> goal == Min(1.0, target + 0.30))
    && (a == Decrease10 ==> goal == Max(0.0, target - 0.10)) && (a == Decrease30 ==> goal == Max(0.0, target - 0.30))
  }

  lemma DrainGoalSteps(target: real, a: Action)
    requires 0.0 <= target <= 1.0
    ensures AimsAt(target, a, DrainGoal(target, a))
  {
  }

  /** limit is the whole number of nodes in the share, but never less than one. */
  ghost predicate IsDrainLimit(total: nat, ratio: real, limit: int) {
    if total as real * ratio < 1.0 then limit == 1 else limit as real <= total as real * ratio < limit as real + 1.0
  }

  lemma DrainLimitMeaning(total: nat, maxDrainRatio: real)
    ensures IsDrainLimit(total, maxDrainRatio, DrainLimit(total, maxDrainRatio))
  {
  }

  ghost predicate UnitTargets(targets: map<string, real>) {
    forall p :: p in targets ==> 0.0 <= targets[p] <= 1.0
  }

  method CountPools(nodes: seq<NodeSeen>) returns (counts: map<string, PoolCount>)
    ensures CountsOf(counts, nodes)
  {
    counts := map[];
    for i := 0 to |nodes|
      invariant CountsOf(counts, nodes[..i])
    {
      var m := nodes[i];
      var c := if m.pool in counts then counts[m.pool] else PoolCount(0, 0);
      CountsAfterOneMore(counts, nodes, i);
      counts := counts[m.pool := PoolCount(c.total + 1, c.spot + if m.isSpot then 1 else 0)];
    }
    assert nodes[..|nodes|] == nodes;
  }

  class PoolBook {
    var poolNodeCounts: map<string, PoolCount>
    var currentSpotRatio: map<string, real>
    var targetSpotRatio: map<string, real>

    ghost predicate Valid()
      reads this
    {
      && currentSpotRatio.Keys == poolNodeCounts.Keys
      && (forall p :: p in poolNodeCounts ==>
            0 < poolNodeCounts[p].total && poolNodeCounts[p].spot <= poolNodeCounts[p].total
            && currentSpotRatio[p] == RatioOf(poolNodeCounts[p]))
      && currentSpotRatio.Keys <= targetSpotRatio.Keys
      && UnitTargets(targetSpotRatio)
    }

    constructor ()
      ensures Valid() && poolNodeCounts == map[] && targetSpotRatio == map[]
    {
      poolNodeCounts, currentSpotRatio, targetSpotRatio := map[], map[], map[];
    }

    /** The bookkeeping at the start of runInference. */
    method Observe(nodes: seq<NodeSeen>)
      requires Valid()
      modifies this
      ensures Valid()
      ensures CountsOf(poolNodeCounts, nodes)
      ensures targetSpotRatio == SeedTargets(old(targetSpotRatio), currentSpotRatio)
    {
      var counts := CountPools(nodes);
      forall p | p in counts ensures counts[p].total > 0 && counts[p].spot <= counts[p].total {
        SpotIsPart(nodes, p);
      }
      var ratios := map p | p in counts && counts[p].total > 0 :: RatioOf(counts[p]);
      forall p | p in ratios ensures 0.0 <= ratios[p] <= 1.0 {
        RatioIsUnit(counts[p]);
      }
      poolNodeCounts, currentSpotRatio := counts, ratios;
      targetSpotRatio := SeedTargets(targetSpotRatio, ratios);
    }

    method ApplyTargetSpotRatio(pool: string, a: Action, cfg: Option<Config>, riskLow: bool)
      requires Valid() && (cfg.Some? ==> OrderedDials(cfg.value.dials))
      modifies this`targetSpotRatio
      ensures Valid()
      ensures targetSpotRatio == PutTarget(old(targetSpotRatio), pool, a, cfg, riskLow)
    {
      if pool == "" {
        return;
      }
      var current := TargetOf(targetSpotRatio, pool);
      UpdatedTargetRange(current, a, cfg, riskLow);
      targetSpotRatio := targetSpotRatio[pool := UpdateTarget(current, a, cfg, riskLow)];
    }

    method CalculatePoolDrainCount(pool: string, a: Action, maxDrainRatio: real) returns (count: int)
      requires Valid()
      ensures pool !in poolNodeCounts || a.Hold? ==> count == 0
      ensures pool in poolNodeCounts && a.EmergencyExit? ==> count == poolNodeCounts[pool].spot
      ensures pool in poolNodeCounts && !a.Hold? && !a.EmergencyExit? ==>
                exists goal, limit :: AimsAt(targetSpotRatio[pool], a, goal) && IsDrainLimit(poolNodeCounts[pool].total, maxDrainRatio, limit)
                                      && IsDrainCount(poolNodeCounts[pool], goal, limit, count)
    {
      if pool !in poolNodeCounts || poolNodeCounts[pool].total == 0 {
        return 0;
      }
      var c, cur, target := poolNodeCounts[pool], currentSpotRatio[pool], TargetOf(targetSpotRatio, pool);
      if a.EmergencyExit? {
        return c.spot;
      }
      if a.Hold? {
        return 0;
      }
      var goal, limit := DrainGoal(target, a), DrainLimit(c.total, maxDrainRatio);
      DrainGoalSteps(target, a);
      DrainLimitMeaning(c.total, maxDrainRatio);
      CountsWithin(c, goal, limit);
      hide Requirement, Ceiling, DrainGoal, DrainLimit, AimsAt, IsDrainLimit, IsDrainCount;
      var need := Ceiling(Requirement(goal, cur, c.total));
      count := if need > limit then limit else need;
      assert AimsAt(targetSpotRatio[pool], a, goal) && IsDrainLimit(c.total, maxDrainRatio, limit);
    }
  }

  /**
    count drains bring the pool to the goal: within the limit, within the nodes of the side that has
    to shrink, and less than one node above the exact need unless the limit cuts it off.
   */
  ghost predicate IsDrainCount(c: PoolCount, goal: real, limit: int, count: int)
  {
    && c.total > 0 && 0 <= count <= limit
    && var cur := c.spot as real / c.total as real;
       var exact := (if goal >= cur then goal - cur else cur - goal) * c.total as real;
       && (goal <= cur ==> count <= c.spot) && (goal >= cur ==> count <= c.total - c.spot)
       && if exact <= limit as real then 0.0 <= count as real - exact < 1.0 else count == limit
  }

  lemma CountsWithin(c: PoolCount, goal: real, limit: int)
    requires 0.0 <= goal <= 1.0 && 0 < c.total && c.spot <= c.total && limit >= 1
    ensures var need := Ceiling(Requirement(goal, RatioOf(c), c.total));
            IsDrainCount(c, goal, limit, if need > limit then limit else need)
  {
    var cur := RatioOf(c);
    RoundedRequirement(goal, cur, c);
    RequirementMeaning(goal, cur, c.total);
    CeilingBounds(Requirement(goal, cur, c.total), limit);
    hide Requirement, Ceiling;
  }

  lemma RequirementMeaning(goal: real, cur: real, total: nat)
    ensures Requirement(goal, cur, total) == (if goal >= cur then goal - cur else cur - goal) * total as real
  {
  }

  // ----- supporting facts

  lemma CountsAfterOneMore(counts: map<string, PoolCount>, nodes: seq<NodeSeen>, i: nat)
    requires i < |nodes| && CountsOf(counts, nodes[..i])
    ensures var m := nodes[i];
            var c := if m.pool in counts then counts[m.pool] else PoolCount(0, 0);
            CountsOf(counts[m.pool := PoolCount(c.total + 1, c.spot + if m.isSpot then 1 else 0)], nodes[..i + 1])
  {
    var m := nodes[i];
    var c := if m.pool in counts then counts[m.pool] else PoolCount(0, 0);
    var after := counts[m.pool := PoolCount(c.total + 1, c.spot + if m.isSpot then 1 else 0)];
    assert nodes[..i + 1] == nodes[..i] + [m];
    forall p
      ensures if p in after then after[p] == PoolCount(CountNodes(nodes[..i + 1], p), CountSpot(nodes[..i + 1], p))
                                 && CountNodes(nodes[..i + 1], p) > 0
              else CountNodes(nodes[..i + 1], p) == 0
    {
      CountsOfConcat(nodes[..i], [m], p);
      SpotIsPart(nodes[..i], p);
    }
  }

  lemma RatioIsUnit(c: PoolCount)
    requires 0 < c.total && c.spot <= c.total
    ensures 0.0 <= RatioOf(c) <= 1.0
    ensures Scaled(RatioOf(c), c.total as real) == c.spot as real
  {
  }

  lemma UpdatedTargetRange(current: real, a: Action, cfg: Option<Config>, riskLow: bool)
    requires cfg.Some? ==> OrderedDials(cfg.value.dials)
    ensures 0.0 <= UpdateTarget(current, a, cfg, riskLow) <= 1.0
    ensures cfg.Some? ==> cfg.value.dials.minSpotRatio <= UpdateTarget(current, a, cfg, riskLow) <= cfg.value.dials.maxSpotRatio
  {
  }

  // ----- the size of a step

  /** Each action moves the target by its own step and stops at the configured bounds; EMERGENCY_EXIT goes to the minimum. */
  lemma StepIsExact(x: real, cfg: Config, riskLow: bool)
    requires OrderedDials(cfg.dials)
    ensures UpdateTarget(x, Increase10, Some(cfg), riskLow) == Clamp(x + 0.10, cfg.dials.minSpotRatio, cfg.dials.maxSpotRatio)
    ensures UpdateTarget(x, Increase30, Some(cfg), riskLow) == Clamp(x + 0.30, cfg.dials.minSpotRatio, cfg.dials.maxSpotRatio)
    ensures UpdateTarget(x, Decrease10, Some(cfg), riskLow) == Clamp(x - 0.10, cfg.dials.minSpotRatio, cfg.dials.maxSpotRatio)
    ensures UpdateTarget(x, Decrease30, Some(cfg), riskLow) == Clamp(x - 0.30, cfg.dials.minSpotRatio, cfg.dials.maxSpotRatio)
    ensures UpdateTarget(x, EmergencyExit, Some(cfg), riskLow) == cfg.dials.minSpotRatio
    ensures UpdateTarget(x, Hold, Some(cfg), false) == Clamp(x, cfg.dials.minSpotRatio, cfg.dials.maxSpotRatio)
  {
  }

  /** Without a configuration the same steps stop at 0 and 1. */
  lemma StepWithoutConfig(x: real, riskLow: bool)
    ensures UpdateTarget(x, Increase10, None, riskLow) == Clamp(x + 0.10, 0.0, 1.0)
    ensures UpdateTarget(x, Increase30, None, riskLow) == Clamp(x + 0.30, 0.0, 1.0)
    ensures UpdateTarget(x, Decrease10, None, riskLow) == Clamp(x - 0.10, 0.0, 1.0)
    ensures UpdateTarget(x, Decrease30, None, riskLow) == Clamp(x - 0.30, 0.0, 1.0)
    ensures UpdateTarget(x, EmergencyExit, None, riskLow) == 0.0
    ensures UpdateTarget(x, Hold, None, riskLow) == Clamp(x, 0.0, 1.0)
  {
  }

  /** The action lowers the target by this much. */
  predicate Lowers(a: Action, step: real) {
    (a == Decrease10 && step == 0.10) || (a == Decrease30 && step == 0.30)
  }

  predicate RaisesBy(a: Action, step: real) {
    (a == Increase10 && step == 0.10) || (a == Increase30 && step == 0.30)
  }

  /** An increase undoes the decrease of the same size wherever neither meets a bound, and the other way round. */
  lemma StepsUndoEachOther(x: real, down: Action, up: Action, step: real, cfg: Config, riskLow: bool)
    requires OrderedDials(cfg.dials) && Lowers(down, step) && RaisesBy(up, step)
    ensures cfg.dials.minSpotRatio + step <= x <= cfg.dials.maxSpotRatio ==>
              UpdateTarget(UpdateTarget(x, down, Some(cfg), riskLow), up, Some(cfg), riskLow) == x
    ensures cfg.dials.minSpotRatio <= x <= cfg.dials.maxSpotRatio - step ==>
              UpdateTarget(UpdateTarget(x, up, Some(cfg), riskLow), down, Some(cfg), riskLow) == x
  {
  }

  /** xs lists a target under one action repeated. */
  ghost predicate RepeatedUpdates(xs: seq<real>, a: Action, cfg: Config, riskLow: bool) {
    forall i, j :: 0 <= i < j == i + 1 < |xs| ==> xs[j] == UpdateTarget(xs[i], a, Some(cfg), riskLow)
  }

  lemma StepsSoFar(step: real, n: nat)
    requires n > 0 && step > 0.0
    ensures Scaled(n as real, step) == Scaled((n - 1) as real, step) + step && Scaled((n - 1) as real, step) >= 0.0
  {
  }

  lemma OneStepDown(min: real, max: real, start: real, done: real, step: real)
    requires min <= start <= max && done >= 0.0 && step > 0.0
    ensures Clamp(Max(min, start - done) - step, min, max) == Max(min, start - (done + step))
  {
  }

  lemma OneStepUp(min: real, max: real, start: real, done: real, step: real)
    requires min <= start <= max && done >= 0.0 && step > 0.0
    ensures Clamp(Min(max, start + done) + step, min, max) == Min(max, start + (done + step))
  {
  }

  /** n decreases take off exactly n steps, down to the minimum. */
  lemma {:induction false} DecreasesAddUp(xs: seq<real>, a: Action, step: real, cfg: Config, riskLow: bool, n: nat)
    requires OrderedDials(cfg.dials) && Lowers(a, step) && RepeatedUpdates(xs, a, cfg, riskLow) && n < |xs|
    requires cfg.dials.minSpotRatio <= xs[0] <= cfg.dials.maxSpotRatio
    ensures xs[n] == Max(cfg.dials.minSpotRatio, xs[0] - Scaled(n as real, step))
  {
    if n > 0 {
      assert step > 0.0;
      hide UpdateTarget, OrderedDials, Scaled, Lowers, RaisesBy;
      DecreasesAddUp(xs, a, step, cfg, riskLow, n - 1);
      StepIsExact(xs[n - 1], cfg, riskLow);
      StepsSoFar(step, n);
      OneStepDown(cfg.dials.minSpotRatio, cfg.dials.maxSpotRatio, xs[0], Scaled((n - 1) as real, step), step);
    }
  }

  /** n increases put on exactly n steps, up to the maximum. */
  lemma {:induction false} IncreasesAddUp(xs: seq<real>, a: Action, step: real, cfg: Config, riskLow: bool, n: nat)
    requires OrderedDials(cfg.dials) && RaisesBy(a, step) && RepeatedUpdates(xs, a, cfg, riskLow) && n < |xs|
    requires cfg.dials.minSpotRatio <= xs[0] <= cfg.dials.maxSpotRatio
    ensures xs[n] == Min(cfg.dials.maxSpotRatio, xs[0] + Scaled(n as real, step))
  {
    if n > 0 {
      assert step > 0.0;
      hide UpdateTarget, OrderedDials, Scaled, Lowers, RaisesBy;
      IncreasesAddUp(xs, a, step, cfg, riskLow, n - 1);
      StepIsExact(xs[n - 1], cfg, riskLow);
      StepsSoFar(step, n);
      OneStepUp(cfg.dials.minSpotRatio, cfg.dials.maxSpotRatio, xs[0], Scaled((n - 1) as real, step), step);
    }
  }

  /** An update touches its own pool only, a pool without a target starts from 0, and the nameless pool is never written. */
  lemma UpdateIsLocal(targets: map<string, real>, pool: string, a: Action, cfg: Option<Config>, riskLow: bool, other: string)
    ensures other != pool || pool == "" ==>
              (other in PutTarget(targets, pool, a, cfg, riskLow) <==> other in targets)
              && (other in targets ==> PutTarget(targets, pool, a, cfg, riskLow)[other] == targets[other])
    ensures pool != "" && pool in targets ==>
              pool in PutTarget(targets, pool, a, cfg, riskLow)
              && PutTarget(targets, pool, a, cfg, riskLow)[pool] == UpdateTarget(targets[pool], a, cfg, riskLow)
    ensures pool != "" && pool !in targets ==>
              pool in PutTarget(targets, pool, a, cfg, riskLow)
              && PutTarget(targets, pool, a, cfg, riskLow)[pool] == UpdateTarget(0.0, a, cfg, riskLow)
  {
    hide UpdateTarget;
  }

  /** Seeding keeps every target there is and gives a newly seen pool its observed ratio. */
  lemma SeedsOnlyNewPools(targets: map<string, real>, ratios: map<string, real>, pool: string)
    ensures pool in SeedTargets(targets, ratios) <==> pool in targets || pool in ratios
    ensures pool in targets ==> SeedTargets(targets, ratios)[pool] == targets[pool]
    ensures pool !in targets && pool in ratios ==> SeedTargets(targets, ratios)[pool] == ratios[pool]
  {
  }

  lemma CeilingBounds(x: real, n: int)
    ensures 0.0 <= Ceiling(x) as real - x < 1.0
    ensures x <= n as real ==> Ceiling(x) <= n
    ensures x >= 0.0 ==> Ceiling(x) >= 0
  {
  }

  /** The rounded requirement is at most the nodes present on the side that has to shrink. */
  lemma RoundedRequirement(goal: real, cur: real, c: PoolCount)
    requires 0.0 <= goal <= 1.0 && 0 < c.total && c.spot <= c.total && cur == RatioOf(c)
    ensures var exact := Requirement(goal, cur, c.total);
            && Ceiling(exact) >= 0
            && 0.0 <= Ceiling(exact) as real - exact < 1.0
            && (goal <= cur ==> Ceiling(exact) <= c.spot)
            && (goal >= cur ==> Ceiling(exact) <= c.total - c.spot)
  {
    RatioIsUnit(c);
    ExactRequirement(goal, cur, c.total as real, c.spot as real);
    var exact := Requirement(goal, cur, c.total);
    CeilingBounds(exact, c.spot);
    CeilingBounds(exact, c.total - c.spot);
  }

  lemma ExactRequirement(goal: real, cur: real, total: real, spot: real)
    requires 0.0 <= goal <= 1.0 && total >= 0.0 && Scaled(cur, total) == spot
    ensures Scaled(Abs(goal - cur), total) >= 0.0
    ensures goal <= cur ==> Scaled(Abs(goal - cur), total) <= spot
    ensures goal >= cur ==> Scaled(Abs(goal - cur), total) <= total - spot
  {
    ScaledIsNonNegative(Abs(goal - cur), total);
    ScaledOfDifference(cur, goal, total);
    ScaledOfDifference(goal, cur, total);
    ScaledOfDifference(1.0, goal, total);
    ScaledIsNonNegative(goal, total);
    ScaledIsNonNegative(1.0 - goal, total);
    assert Scaled(1.0, total) == total;
    hide Scaled;
  }

  // ----- whole runs of the target map

  datatype Op = Observation(ratios: map<string, real>) | Update(pool: string, action: Action, cfg: Option<Config>, riskLow: bool)

  /** Observed ratios are Spot shares; configurations are loaded ones (any reload between updates is allowed). */
  ghost predicate LegalOp(op: Op) {
    match op
    case Observation(ratios) => UnitTargets(ratios)
    case Update(_, _, cfg, _) => cfg.Some? ==> OrderedDials(cfg.value.dials)
  }

  function ApplyOp(targets: map<string, real>, op: Op): map<string, real> {
    match op
    case Observation(ratios) => SeedTargets(targets, ratios)
    case Update(pool, action, cfg, riskLow) => PutTarget(targets, pool, action, cfg, riskLow)
  }

  function RunOps(targets: map<string, real>, ops: seq<Op>): map<string, real> {
    if ops == [] then targets else ApplyOp(RunOps(targets, ops[..|ops| - 1]), ops[|ops| - 1])
  }

  /**
    Over every interleaving of observations, configuration reloads and updates, all stored targets
    stay in [0, 1]; the pool just updated sits inside that update's bounds, at the minimum after an
    emergency; and a pool, once tracked, stays tracked.
   */
  lemma {:induction false} TargetsStayBounded(targets: map<string, real>, ops: seq<Op>)
    requires UnitTargets(targets) && forall i :: 0 <= i < |ops| ==> LegalOp(ops[i])
    ensures UnitTargets(RunOps(targets, ops))
    ensures targets.Keys <= RunOps(targets, ops).Keys
    ensures ops != [] && ops[|ops| - 1].Update? && ops[|ops| - 1].pool != "" && ops[|ops| - 1].cfg.Some? ==>
              var last, t := ops[|ops| - 1], RunOps(targets, ops);
              && last.pool in t
              && last.cfg.value.dials.minSpotRatio <= t[last.pool] <= last.cfg.value.dials.maxSpotRatio
              && (last.action.EmergencyExit? ==> t[last.pool] == last.cfg.value.dials.minSpotRatio)
  {
    if ops != [] {
      var front, last := ops[..|ops| - 1], ops[|ops| - 1];
      TargetsStayBounded(targets, front);
      var before := RunOps(targets, front);
      if last.Update? && last.pool != "" {
        UpdatedTargetRange(TargetOf(before, last.pool), last.action, last.cfg, last.riskLow);
      }
    }
  }

  // ----- drift under HOLD

  function Pow(x: real, n: nat): real {
    if n == 0 then 1.0 else x * Pow(x, n - 1)
  }

  ghost predicate IsHoldUpdate(x: real, y: real, cfg: Config) {
    y == UpdateTarget(x, Hold, Some(cfg), true)
  }

  /** xs lists one pool's target over successive low-risk HOLD updates under one configuration. */
  ghost predicate HoldRun(xs: seq<real>, cfg: Config) {
    forall i, j :: 0 <= i < j == i + 1 < |xs| ==> IsHoldUpdate(xs[i], xs[j], cfg)
  }

  /** Where a target sits after the two clamps that precede the drift. */
  function Anchored(d: Dials, x: real): real {
    ClampSpotRatio(d, Clamp(x, 0.0, 1.0))
  }

  lemma LerpStaysInside(d: Dials, x: real, alpha: real)
    requires OrderedDials(d) && d.minSpotRatio <= x <= d.maxSpotRatio && 0.0 <= alpha <= 1.0
    ensures ClampSpotRatio(d, Lerp(x, d.targetSpotRatio, alpha)) == Lerp(x, d.targetSpotRatio, alpha)
    ensures Scales(1.0 - alpha, d.targetSpotRatio, x, Lerp(x, d.targetSpotRatio, alpha))
  {
    var t := d.targetSpotRatio;
    ScaledByDifference(x - t, 1.0, alpha);
    ScaledOfDifference(t, x, alpha);
    ScaledOfDifference(x, t, alpha);
    assert Scaled(x - t, 1.0) == x - t;
    if x <= t {
      ScaledByFraction(t - x, alpha);
    } else {
      ScaledByFraction(x - t, alpha);
    }
    hide Scaled;
  }

  /** y is beta times as far from the goal as x. */
  ghost predicate Scales(beta: real, goal: real, x: real, y: real) {
    y - goal == Scaled(x - goal, beta)
  }

  lemma OneHoldUpdate(x: real, y: real, cfg: Config, beta: real)
    requires OrderedDials(cfg.dials) && IsHoldUpdate(x, y, cfg) && beta == 1.0 - DriftAlpha(cfg.policy.thresholds)
    requires cfg.dials.minSpotRatio <= x <= cfg.dials.maxSpotRatio
    ensures cfg.dials.minSpotRatio <= y <= cfg.dials.maxSpotRatio
    ensures Scales(beta, cfg.dials.targetSpotRatio, x, y)
  {
    hide Scaled;
    LerpStaysInside(cfg.dials, x, DriftAlpha(cfg.policy.thresholds));
    UpdatedTargetRange(x, Hold, Some(cfg), true);
  }

  lemma {:induction false} GeometricApproach(xs: seq<real>, goal: real, beta: real, n: nat)
    requires n < |xs| && forall i, j :: 0 <= i < j == i + 1 < |xs| ==> Scales(beta, goal, xs[i], xs[j])
    ensures xs[n] - goal == Scaled(xs[0] - goal, Pow(beta, n))
  {
    if n > 0 {
      hide Scaled;
      GeometricApproach(xs, goal, beta, n - 1);
      assert Scales(beta, goal, xs[n - 1], xs[n]);
      ScaledTwice(xs[0] - goal, beta, Pow(beta, n - 1));
    }
  }

  lemma {:induction false} BoundedRunScales(xs: seq<real>, cfg: Config, beta: real, n: nat)
    requires OrderedDials(cfg.dials) && HoldRun(xs, cfg) && n < |xs| && beta == 1.0 - DriftAlpha(cfg.policy.thresholds)
    requires cfg.dials.minSpotRatio <= xs[0] <= cfg.dials.maxSpotRatio
    ensures cfg.dials.minSpotRatio <= xs[n] <= cfg.dials.maxSpotRatio
    ensures n > 0 ==> Scales(beta, cfg.dials.targetSpotRatio, xs[n - 1], xs[n])
  {
    if n > 0 {
      BoundedRunScales(xs, cfg, beta, n - 1);
      assert IsHoldUpdate(xs[n - 1], xs[n], cfg);
      OneHoldUpdate(xs[n - 1], xs[n], cfg, beta);
    }
  }

  /** Anchoring the first target changes no later one. */
  lemma AnchoredRun(xs: seq<real>, cfg: Config)
    requires OrderedDials(cfg.dials) && HoldRun(xs, cfg) && xs != []
    ensures HoldRun(xs[0 := Anchored(cfg.dials, xs[0])], cfg)
  {
    var ys := xs[0 := Anchored(cfg.dials, xs[0])];
    forall i, j | 0 <= i < j == i + 1 < |ys| ensures IsHoldUpdate(ys[i], ys[j], cfg) {
      assert IsHoldUpdate(xs[i], xs[j], cfg);
    }
  }

  lemma BoundedDrift(xs: seq<real>, cfg: Config, beta: real, n: nat)
    requires OrderedDials(cfg.dials) && HoldRun(xs, cfg) && n < |xs| && beta == 1.0 - DriftAlpha(cfg.policy.thresholds)
    requires cfg.dials.minSpotRatio <= xs[0] <= cfg.dials.maxSpotRatio
    ensures xs[n] - cfg.dials.targetSpotRatio == Scaled(xs[0] - cfg.dials.targetSpotRatio, Pow(beta, n))
  {
    hide UpdateTarget, Scaled;
    forall i, j | 0 <= i < j == i + 1 < |xs| ensures Scales(beta, cfg.dials.targetSpotRatio, xs[i], xs[j]) {
      BoundedRunScales(xs, cfg, beta, j);
    }
    GeometricApproach(xs, cfg.dials.targetSpotRatio, beta, n);
  }

  /** n low-risk HOLD updates shrink the distance from the clamped start to the configured target by exactly (1 - alpha)^n. */
  lemma HoldDriftIsGeometric(xs: seq<real>, cfg: Config, n: nat, start: real, beta: real)
    requires OrderedDials(cfg.dials) && HoldRun(xs, cfg) && 0 < n < |xs|
    requires start == Anchored(cfg.dials, xs[0]) && beta == 1.0 - DriftAlpha(cfg.policy.thresholds)
    ensures xs[n] - cfg.dials.targetSpotRatio == Scaled(start - cfg.dials.targetSpotRatio, Pow(beta, n))
  {
    hide UpdateTarget, Scaled;
    AnchoredRun(xs, cfg);
    BoundedDrift(xs[0 := start], cfg, beta, n);
  }
}
