# SpotVortex: a verified model of the control loop

SpotVortex decides, per node pool, how much Spot capacity to run, and then drains nodes to get there.
This project models the parts of the controller whose correctness spans several functions or many
ticks, and proves what they keep:

- **The reconcile tick** (`Reconcile`, built on `DrainSelection`, `NodePoolBudgets`, `Guardrails`,
  `Steering`, `TwinAsgs`, `Drainer`, `PoolBooks`, with `TickLedger` on top): filter, rank and truncate, guardrails, weight steering,
  capacity preparation, then per node guardrails again, target update, drain and cleanup. The controller
  is a class over four mutable parts. A tick's effect on the timeline, the groups, the weights and the
  targets is stated as a value of the entries it chose and the answers it got; from that follow the drain
  bounds, the capacity ledger, and that over every run each instance the cloud was asked to terminate
  follows a complete drain of its node.
- **The deterministic policy and its inputs** (`RuntimeConfigs`, `CapRules`, `PdbSlack`,
  `WeightedPercentiles`, `PoolSafety`, `Policy`, `RestartTime`, `ClosedLoop`): from raw pool signals and an
  arbitrary configuration file to the chosen action, with end-to-end monotonicity, its exact limits, and a
  closed-loop envelope.
- **The reliability telemetry differ** (`NodeTelemetry`, `PodTelemetry`): conservation and telescoping
  over unbounded runs of polls, failed polls included.
- **The price-history path** (`PricePath`): reversal, padding, downsampling and the flat tensor layout.

`Wrappers`, `Numbers`, `Sorting`, `Sums` and `Actions` hold optional values, shared arithmetic, a sorting theory,
finite sums and the severity order of the six actions. `dafny verify dfyconfig.toml` checks the whole project.

Conventions. Floating-point numbers are exact reals, 32-bit scores included; there is no NaN and no
rounding. Integers are unbounded. Times are integers in seconds, 0 standing for an unset time. Walking a
Go map is an arbitrary choice at each step, so what is proved holds in every iteration order. Every answer
of Kubernetes, the cloud or the clock is an unconstrained input of the operation that asks for it, except
that within one weight change the clock does not run backwards. A group of a twin pair is identified by
its pool and side instead of a generated name. Configuration modes given as strings are booleans. The
platform's square root is an arbitrary function parameter.

## Where the code differs from what one would expect

These are proved, each with its exact condition:

- Clamping a configuration twice is not the same as clamping it once exactly when `max_spot_ratio` is
  negative: the first pass clamps it to 0, a second reads 0 as unset and makes it 1
  (internal/config/runtime.go:287-293, `ClampedIsIdempotentIff`).
- A riskier market does not always mean a harsher action. For a pool above its cap that has to reduce
  fast, low risk gives DECREASE_30 and the medium band gives DECREASE_10
  (internal/controller/policy_deterministic.go:138-151). `MarketMonotoneIff` shows this is the only
  exception; `SofteningPool` shows that a whole family of ordinary pools falls under it.
- Slower pods do not always mean a harsher action. The same p95 is the restart signal, the start-up feature
  and the price of a migration (internal/collector/collector.go:331-334,
  internal/controller/controller.go:664-666), and a start-up time below the first bucket boundary counts as
  unfamiliar. Under the shipped configuration a healthy pool gets INCREASE_10 at two seconds and INCREASE_30 at ten
  (`ShippedConfigurationThaws`). `RestartMonotoneIff` states when it cannot happen: the effective cap does not
  rise between the finitely many start-up times at which it can change (falling start-up and migration rules
  are enough), and the growth gates admit no more
  just inside the lower bucket end, and the cautious gates no more just outside the upper one, than on the
  other side. The other seven signals never soften the action (`WorseSignalsNeverSoftenAction`).
- `buildPriceHistory` indexes out of range exactly on a non-empty history in which no entry has a price
  (internal/cloudapi/aws/aws.go:244-249, `BuildPriceHistory`).
- The tensor can look ahead. Rows a short history cannot fill are padded with the current price
  (internal/inference/features.go:136-147), and in rolling mode that is the newest entry of the history
  (internal/controller/controller.go:630-647): the oldest row of a short buffer is the newest price
  (`ShortBufferLooksAhead`). `IgnoresCurrentPriceIff` and `RollingNoLookAheadIff` state that this happens
  exactly while the history, the new price included, has fewer than 12 steps; at a fixed current price there is
  no look-ahead at any length (`NoLookAhead`).
- Terminating in a group whose desired size is already 0 does not decrement it
  (internal/capacity/asg_client.go:156-161), so a prepare-then-cleanup swap can leave a pool one larger than
  it was (`EmptyGroupGrows`). `ConservedIffCovered` states, on the starting sizes and the accepted swaps,
  exactly when the total is conserved; it never falls.
- The documentation of the swap workflow says that a failed preparation aborts the drain; the tick drains
  anyway, and a pool gets one scale-up however many of its nodes are drained (`RefusedSwapStillDrains`).
  `TickTotal` gives the pool's change per tick and when it falls; `UnpreparedPoolFallsIff` shows that without
  a standing scale-up it falls exactly when a chosen node's cleanup meets a non-empty group of the pool.
- Dry-run covers the drainer and the cleanup only: a dry-run tick can raise a twin and patch weights
  (`DryRunStillActs`), and `DryRunTickIsQuietIff` states exactly when it does neither: no requested scale-up
  stands, and the NodePool integration is off or no chosen pool is managed and off cooldown.

These are differences between comments or settings and the code, which the model follows without a theorem
of its own:

- The comment in `waitForNewNode` says existing nodes are recorded before scaling; the list is read after
  the scale-up (internal/capacity/asg_manager.go:166-174), and the model takes it there.
- The comment on `Check` lists four guardrails; the code has five, and the model has all five.
- The drain limit consults the NodePool budgets whenever a NodePool manager is present, and never reads the
  setting that is meant to switch this off; the setting is not part of the model.

## Model

| member | source | states |
|---|---|---|
| `CapRules.NormalizeCapRules` | internal/config/runtime.go:555-580 | clamping and stable sorting in a loop yields the reference normal form |
| `CapRules.NormalizeIsOrderInvariant` | internal/config/runtime.go:573-578 | any two listings of the same rules normalise to the same list |
| `CapRules.NormalizeIsIdempotent` | internal/config/runtime.go:555-580 | a second normalisation changes nothing |
| `CapRules.ApplyCapRules` | internal/controller/policy_deterministic.go:277-284 | the early-return loop is the first-match scan |
| `CapRules.FirstMatchRefinesBinding` | internal/controller/policy_deterministic.go:277-284 | for rules in any order, normalise-then-scan lowers the cap to the smallest ratio among the rules with the greatest clamped threshold not above the value |
| `CapRules.BindingRuleMeaning` | internal/config/runtime.go:555-580 | the binding rule by numbers: clamped thresholds and ratios, greatest threshold reached, smallest ratio at it |
| `CapRules.UnmatchedLeavesCap` | internal/controller/policy_deterministic.go:277-284 | with no rule reached the cap is unchanged |
| `CapRules.SomeRuleBinds` | internal/config/runtime.go:442-447 | if any rule is reached, one binds, so the two cases above are exhaustive |
| `CapRules.FallingRulesAreAntitone` | internal/config/runtime.go:548-580 | ratios falling as thresholds rise give a cap nonincreasing in the feature |
| `CapRules.AntitoneIffFalling` | internal/config/runtime.go:548-580 | falling is exactly the condition: no weaker rule list gives a nonincreasing cap |
| `RuntimeConfigs.NormalizeBoundaries` | internal/config/runtime.go:595-616 | clamp, sort and compact computes the reference boundary list |
| `RuntimeConfigs.CompactInPlace` | internal/config/runtime.go:607-615 | writing survivors over the buffer still being read yields the compaction of its original contents |
| `RuntimeConfigs.BoundariesMeaning` | internal/config/runtime.go:595-616 | boundaries are strictly increasing and are exactly the clamped inputs |
| `RuntimeConfigs.OutOfRangeMeaning` | internal/controller/policy_deterministic.go:303-308 | looking at the two ends decides whether the value is below or above every configured boundary |
| `RuntimeConfigs.RuntimeConfig.ApplyRuntimeClamps` | internal/config/runtime.go:277-370 | the in-place clamps take the configuration to its clamped value |
| `RuntimeConfigs.RuntimeConfig.ClampDialFields` | internal/config/runtime.go:279-315 | the top-level fields are clamped, the policy section is untouched |
| `RuntimeConfigs.RuntimeConfig.ClampPolicyFields` | internal/config/runtime.go:327-369 | thresholds, the five rule lists and the four bucket lists end at their clamped values |
| `RuntimeConfigs.ResolveRules` | internal/config/runtime.go:548-553 | each list is normalised, an empty one falling back to the built-in rules |
| `RuntimeConfigs.NormalizeBuckets` | internal/config/runtime.go:359-369 | all four lists are normalised, and all fall back if any is left with fewer than two boundaries |
| `RuntimeConfigs.RuntimeConfig.Finish` | internal/config/runtime.go:165-183 | a parsed configuration, after defaults and clamps, is well formed whatever it contained; it is refused exactly for a shadow comparison in RL mode |
| `RuntimeConfigs.ClampedIsWellFormed` | internal/config/runtime.go:277-370 | min <= target <= max within [0,1], ordered risk bands, normal rules and boundaries for every input |
| `RuntimeConfigs.ThresholdBounds` | internal/config/runtime.go:327-352 | each threshold ends at itself or at the nearest of its bounds, the bands pulled down into order |
| `RuntimeConfigs.DialBounds` | internal/config/runtime.go:277-315 | each dial ends at itself or at the nearest of its bounds, a zero maximum counting as unset |
| `RuntimeConfigs.EmptyConfigLoads` | internal/config/runtime.go:193-245 | the numbers an empty configuration loads to |
| `RuntimeConfigs.DefaultsFillGapsOnly` | internal/config/runtime.go:210-245 | no configured threshold is overridden by a default |
| `RuntimeConfigs.ListSources` | internal/config/runtime.go:246-275 | each rule list falls back on its own; buckets come from the configuration, else the file, else the built-in ones |
| `RuntimeConfigs.ClampedIsIdempotentIff` | internal/config/runtime.go:277-370 | clamping is idempotent if and only if `max_spot_ratio` is not negative, with the values of both passes otherwise |
| `RuntimeConfigs.DefaultRulesAreNormal` | internal/config/runtime.go:509-546 | the built-in rules are already in normal form |
| `PdbSlack.TopTwo` | internal/collector/collector.go:569-579 | one pass in any order finds the largest one-node and two-node losses, each attained by actual nodes |
| `PdbSlack.ComputeSlackBounds` | internal/collector/collector.go:560-598 | the results are the minimum of allowed minus lost pods over all budgets and all losses of at most one, and at most two, distinct nodes; zero without a matched budget |
| `PdbSlack.WorstSlackIsUnique` | internal/collector/collector.go:560-598 | that minimum is one value, so map order cannot matter |
| `PdbSlack.WorstSlackFallsWithLoss` | internal/collector/collector.go:560-598 | the two-node bound never exceeds the one-node bound |
| `PdbSlack.NegativeSlackMeansBrokenBudget` | internal/collector/collector.go:560-598 | negative if and only if some such loss takes more pods than a budget allows |
| `PdbSlack.SlackSignMeaning` | internal/collector/collector.go:560-598 | in the collector's own maps: negative exactly when one node, or two, hold more of a budget's pods than it allows |
| `WeightedPercentiles.CalculateWeightedPercentile` | internal/collector/collector.go:490-509 | for positive weights and 0 < p <= 1 the result is a percentile and the fallback return is not reached; smaller and larger p give the extremes |
| `WeightedPercentiles.Walk` | internal/collector/collector.go:490-509 | the running-weight walk stops where the weight crosses the target |
| `WeightedPercentiles.PercentileIsUnique` | internal/collector/collector.go:490-509 | one value only has less than p of the weight strictly below it and at least p up to it |
| `WeightedPercentiles.PercentileIsOrderFree` | internal/collector/collector.go:490-509 | listing order and order of ties cannot change the answer |
| `WeightedPercentiles.PercentileIsMonotone` | internal/collector/collector.go:490-509 | a higher share never selects a smaller value |
| `PoolSafety.ComputePoolSafetyVector` | internal/collector/collector.go:532-558 | a pool with workload pods is published with its raw signals, the worst risk and the tightest cap of all conditions that hold of them; a pool without any gets the default; never read back as unmeasured |
| `PoolSafety.RiskIsWorst` | internal/collector/collector.go:613-648 | the risk is the greatest of 0 and the numbers of all conditions that hold, from a table of conditions |
| `PoolSafety.CapIsTightest` | internal/collector/collector.go:650-712 | the safe cap is the least of 1 and the caps of all conditions that hold, from a table of conditions |
| `PoolSafety.SignalsMeaning` | internal/collector/collector.go:532-558 | the raw signals are the pool's pod shares, free on-demand nodes and zone score |
| `PoolSafety.UnmeasuredIsUncapped` | internal/controller/policy_deterministic.go:235-240 | the zero vector resolves to no risk and no cap |
| `PoolSafety.WorseRaisesRisk` | internal/collector/collector.go:613-648 | worsening any of the eight raw signals never lowers the risk |
| `PoolSafety.WorseLowersCap` | internal/collector/collector.go:650-712 | worsening any raw signal never raises the safe cap |
| `PoolSafety.MeasuredIsUsable` | internal/config/runtime.go:105-124 | a measured cap is in [0.10, 1], so it is never mistaken for the zero vector |
| `PoolSafety.WorseSignalsTightenVector` | internal/collector/collector.go:613-712 | both together on the published vector |
| `Policy.ComputeFeatureSpotCap` | internal/controller/policy_deterministic.go:222-233 | the result is the least of 1 and the binding ratios of the five features |
| `Policy.FeatureCapIsLeastBinding` | internal/controller/policy_deterministic.go:222-233 | the five-step chain is that minimum, so neither the order of the features nor that of their rules matters |
| `Policy.FeatureCapIsAntitone` | internal/controller/policy_deterministic.go:222-233 | with falling rules the combined cap is nonincreasing in all five features at once |
| `Policy.DefaultRulesFall` | internal/config/runtime.go:509-546 | the built-in rules satisfy that condition |
| `Policy.DecideByAction` | internal/controller/policy_deterministic.go:99-204 | an exact condition for each action on ratio, cap, risk and slack, independent of the order of the branches |
| `Policy.EvaluateByAction` | internal/controller/policy_deterministic.go:99-204 | the same for the whole evaluation, on configuration, state and scores |
| `Policy.EffectiveCapMeaning` | internal/controller/policy_deterministic.go:206-211 | the effective cap is the least of 1, the binding feature ratios and the safe cap, within the configured bounds |
| `Policy.WorseVectorNeverSoftensAction` | internal/controller/policy_deterministic.go:99-204 | for the evaluator alone, a vector measured from worse signals never softens the action |
| `RestartTime.WorseSignalsNeverSoftenAction` | internal/controller/policy_deterministic.go:99-204 | end to end, at the states the controller builds: worsening any of the seven signals other than restart time never makes the action less severe |
| `RestartTime.CostIsLinear` | internal/controller/controller.go:664-666 | migration cost and payback hours are linear in the p95 |
| `RestartTime.CostOfAnHour` | internal/controller/controller.go:664-666 | an hour of start-up costs twice the hourly saving, scaled by utilization |
| `RestartTime.RestartMonotoneIff` | internal/controller/controller.go:664-695 | at every ratio and score, a longer restart time never softens the action if and only if no calm market exists or the cap does not rise between its steps and neither bucket end thaws the pool |
| `RestartTime.CapNeverRisesIff` | internal/controller/policy_deterministic.go:222-240 | the cap never rises with the p95 if and only if it does not between the thresholds of the start-up and migration rules and the restart steps |
| `RestartTime.FallingRulesKeepCap` | internal/controller/policy_deterministic.go:222-240 | falling start-up and migration rules keep the effective cap from rising with the p95 |
| `RestartTime.WorsePoolNeverSoftens` | internal/controller/policy_deterministic.go:99-204 | all eight signals at once, where nothing thaws |
| `RestartTime.LowEndSoftens` | internal/controller/policy_deterministic.go:172-197 | whenever the lower end thaws, a start-up time below it with a harsher action than at it |
| `RestartTime.HighEndSoftens` | internal/controller/policy_deterministic.go:172-197 | whenever the upper end thaws, a start-up time above it with a softer action than at it |
| `RestartTime.ShippedConfigurationThaws` | config/runtime.json:1-48 | under the shipped configuration and buckets, INCREASE_10 at two seconds and INCREASE_30 at ten |
| `Policy.UnderCapFollowsMarket` | internal/controller/policy_deterministic.go:99-204 | at or under the cap, severity is nondecreasing in both market scores |
| `Policy.MarketMonotoneIff` | internal/controller/policy_deterministic.go:99-204 | severity follows the market if and only if the pool is not one the medium band softens |
| `Policy.MediumBandWitness` | internal/controller/policy_deterministic.go:138-151 | two concrete scores that show the exception for every such pool |
| `Policy.SofteningPool` | internal/controller/policy_deterministic.go:138-151 | an all-Spot pool with negative one-node slack is such a pool |
| `PoolBooks.CountPools` | internal/controller/controller.go:546-561 | per pool the stored counts are the numbers of nodes and Spot nodes listed |
| `PoolBooks.CountsAreListed` | internal/controller/controller.go:546-561 | the two counts are numbers of listed nodes of the pool, and of those on Spot |
| `PoolBooks.PoolBook.Observe` | internal/controller/controller.go:551-583 | counts replaced, ratio = spot/total, existing targets kept and missing ones seeded |
| `PoolBooks.PoolBook.ApplyTargetSpotRatio` | internal/controller/controller.go:1400-1458 | only the pool's own target changes, to the updated value; every target stays in [0,1] |
| `PoolBooks.UpdatedTargetRange` | internal/controller/controller.go:1400-1458 | an updated target is in [0,1] and in the configuration's [min,max] |
| `PoolBooks.StepIsExact` | internal/controller/controller.go:1408-1448 | each action moves the target by exactly 0.10 or 0.30 and stops at the bounds; EMERGENCY_EXIT lands on the minimum |
| `PoolBooks.DecreasesAddUp` | internal/controller/controller.go:1408-1448 | n decreases take off exactly n steps, down to the minimum |
| `PoolBooks.IncreasesAddUp` | internal/controller/controller.go:1408-1448 | n increases put on exactly n steps, up to the maximum |
| `PoolBooks.StepsUndoEachOther` | internal/controller/controller.go:1408-1448 | an increase undoes the decrease of its size away from the bounds, and the other way round |
| `PoolBooks.UpdateIsLocal` | internal/controller/controller.go:1400-1458 | an update touches its own pool only, a pool without a target starts from 0, the nameless pool is never written |
| `PoolBooks.SeedsOnlyNewPools` | internal/controller/controller.go:571-583 | seeding keeps existing targets and gives a new pool its observed ratio |
| `PoolBooks.TargetsStayBounded` | internal/controller/controller.go:1400-1458 | over any interleaving of observations, reloads and updates all targets stay in [0,1]; right after an update in [min,max], and exactly min after EMERGENCY |
| `PoolBooks.HoldDriftIsGeometric` | internal/controller/controller.go:1448-1463 | n low-risk HOLD updates scale the distance from the clamped start to the target by exactly (1 - alpha)^n |
| `PoolBooks.PoolBook.CalculatePoolDrainCount` | internal/controller/controller.go:1470-1526 | the goal is a tenth or three tenths from the target; the count is within max(1, floor(total * ratio)) and the nodes of the side that shrinks, and less than one node above the exact need when that fits the limit, the limit otherwise; emergencies take every Spot node |
| `PoolBooks.RoundedRequirement` | internal/controller/controller.go:1470-1526 | rounding up never asks for more nodes than the shrinking side has |
| `ClosedLoop.CalmDecision` | internal/controller/policy_deterministic.go:145-197 | under low market risk, which actions are possible by where the ratio stands against the cap |
| `ClosedLoop.OneTick` | internal/controller/policy_deterministic.go:145-197 | one closed-loop step from any ratio in [0,1]: above tolerance it falls by at least 0.10 or lands on the minimum; the band around the cap is kept |
| `ClosedLoop.EnvelopeIsForever` | internal/controller/controller.go:1400-1458 | over any run from any ratio in [0,1], once below cap + 0.10 always below, once above cap - 0.30 always above |
| `ClosedLoop.OvershootFalls` | internal/controller/policy_deterministic.go:145-197 | n steps above tolerance take off at least n tenths or reach the minimum |
| `ClosedLoop.OvershootEnds` | internal/controller/policy_deterministic.go:145-197 | the ratio comes within 1e-6 of the cap in at most overshoot / 0.10 steps |
| `ClosedLoop.LoopConverges` | internal/controller/controller.go:1400-1458 | from then on, and from step ten in any case, the ratio is below cap + 0.10 for ever |
| `NodePoolBudgets.LimitRoundTrip` | internal/karpenter/nodepool.go:406-431 | every natural number written as a count or a percentage is read back |
| `NodePoolBudgets.LimitEdgeCases` | internal/karpenter/nodepool.go:406-431 | nothing and no digits read as -1, a negative percentage as 0, a negative count as itself |
| `NodePoolBudgets.EffectiveDisruptionLimit` | internal/karpenter/nodepool.go:374-402 | the sentinel loop returns the tightest non-negative budget, or -1 if there is none |
| `NodePoolBudgets.KarpenterDisruptionLimit` | internal/controller/controller.go:1973-2030 | the tightest budget over both NodePools of every candidate's workload pool, in any visiting order |
| `NodePoolBudgets.TightestRespectsEveryBudget` | internal/controller/controller.go:1973-2030 | that limit is within each readable budget of each candidate's pool |
| `NodePoolBudgets.TightestIsWithinEachNodePool` | internal/controller/controller.go:1973-2030 | the same in the API's own terms: each budget of each NodePool named after a candidate's workload pool |
| `DrainSelection.ExchangeSort` | internal/controller/controller.go:1928-1941 | the nested swap loop permutes its array into (emergency, score) descending order |
| `DrainSelection.LimitFor` | internal/controller/controller.go:1917-1955 | the limit is max(1, floor(nodes * ratio)) tightened by the NodePool budgets when there are any |
| `DrainSelection.ApplyDrainLimit` | internal/controller/controller.go:1906-1968 | the output is the HOLD entries in order followed by a best-ranked selection within the limit |
| `DrainSelection.SelectionIsTopK` | internal/controller/controller.go:1906-1968 | exactly min(k, candidates) drains are kept, every HOLD survives, and no deferred node outranks a kept one |
| `DrainSelection.KeptComeFirst` | internal/controller/controller.go:1928-1941 | emergencies are kept before anything else, and the riskier node before the safer one |
| `DrainSelection.EmergenciesAreNeverCrowdedOut` | internal/controller/controller.go:1906-1968 | if the limit covers the emergencies, none is deferred |
| `DrainSelection.SelectionRespectsBudgets` | internal/controller/controller.go:1906-1968 | kept drains are within the share and within every governing budget |
| `Guardrails.CheckClusterFraction` | internal/controller/guardrails.go:113-153 | approves exactly when there is no Spot node or one node is at most the limit's share of them |
| `Guardrails.CheckPdb` | internal/controller/guardrails.go:173-219 | downgrades exactly when some pod on the node is matched by a budget that allows no disruption, failed lookups being passed over |
| `Guardrails.CheckCritical` | internal/controller/guardrails.go:223-279 | downgrades exactly when some pod is marked critical or graceful-only, wherever it stands in the list |
| `Guardrails.Check` | internal/controller/guardrails.go:61-109 | all five checks in order, list errors included, give the reference verdict |
| `Guardrails.CheckByVerdict` | internal/controller/guardrails.go:61-109 | exactly when an action is approved as it is, rewritten, blocked or left undecided by an API error, on share, confidence, budgets, critical pods and utilization |
| `Guardrails.ShareLimit` | internal/controller/controller.go:2069-2116 | the share limit is the configured drain ratio, or a fifth |
| `Guardrails.CheckOnlySoftens` | internal/controller/guardrails.go:61-109 | an approval keeps the action or turns EMERGENCY into DECREASE_30; severity never rises and direction never flips |
| `Guardrails.Recheck` | internal/controller/guardrails.go:284-337 | rechecking an approved action never rewrites it again and blocks exactly when an emergency was softened at utilization above 0.95 |
| `Guardrails.ApplyActiveGuardrails` | internal/controller/controller.go:2069-2116 | the method is the reference guard of one entry |
| `Guardrails.ApplyGuardrailsBeforePrep` | internal/controller/controller.go:2118-2150 | the list pass guards entry by entry, in order; entries that are blocked, fail or whose node cannot be fetched are dropped |
| `Guardrails.GuardAllIff` | internal/controller/controller.go:2118-2150 | exactly which entries survive the pass, and with which action |
| `Guardrails.GuardAllOnlyRemoves` | internal/controller/controller.go:2118-2150 | the pass invents no entry, turns no HOLD into a drain and adds no drains |
| `Guardrails.BusyReductionNeverPassesTwice` | internal/controller/controller.go:2069-2150 | above 0.95 utilization no reduction passes the guardrails twice, even if the cluster changes in between |
| `Drainer.Cluster.Drain` | internal/controller/drain.go:76-154 | the drain performs exactly the events and returns exactly the result of the reference trace, for any API answers |
| `Drainer.Cluster.EvictPods` | internal/controller/drain.go:108-139 | the eviction loop, early return included, performs the reference evictions |
| `Drainer.CountersAddUp` | internal/controller/drain.go:108-139 | evicted + skipped + failed is the number of pods processed |
| `Drainer.FailedPodsWereRefused` | internal/controller/drain.go:121-131 | each failed pod is named in full and was refused by the API |
| `Drainer.NothingAfterFirstFailure` | internal/controller/drain.go:108-139 | without Force the first refusal is the last event |
| `Drainer.SuccessHandlesEveryPod` | internal/controller/drain.go:108-154 | no failure means each listed pod that is neither static nor an ignored DaemonSet pod had its own eviction accepted or was already gone |
| `Drainer.EvictionsAreOfWorkloads` | internal/controller/drain.go:108-119 | every eviction is that of a listed pod that is neither static nor an ignored DaemonSet pod, with the API's own answer |
| `Drainer.SkippedAreOthers` | internal/controller/drain.go:108-139 | exactly the other pods are skipped |
| `Drainer.DrainSucceedsIff` | internal/controller/drain.go:76-154 | a real drain succeeds if and only if the node is cordoned, its pods are listed and every workload pod is let go |
| `Drainer.DrainBeginsWithCordon` | internal/controller/drain.go:157-186 | nothing happens unless the node can be cordoned, and a node not yet cordoned is cordoned first |
| `Drainer.BackedMeansEmptied` | internal/controller/controller.go:2263-2284 | read off the timeline alone: before an instance is terminated every listed pod that is neither DaemonSet nor static was evicted or gone |
| `Drainer.SuccessIsCompleteDrain` | internal/controller/drain.go:76-154 | success outside dry-run means cordoned, then listed, then every listed pod handled |
| `Drainer.DryRunChangesNothing` | internal/controller/drain.go:157-232 | a dry-run drain sends no mutating request |
| `Drainer.TerminationAfterDrainIsSafe` | internal/controller/controller.go:2263-2284 | terminating right after a complete drain keeps the whole timeline safe |
| `Drainer.DrainStaysOnNode` | internal/controller/drain.go:76-154 | a drain terminates nothing and touches no other node |
| `Drainer.SafeCallsAreBacked` | internal/controller/controller.go:2263-2284 | on a safe timeline every terminated instance follows a complete drain of its node |
| `TwinAsgs.AsgClient.AddTwinPair` | internal/capacity/asg_client.go:78-101 | both groups exist with the given total; other pools untouched |
| `TwinAsgs.AsgClient.SetDesiredCapacity` | internal/capacity/asg_client.go:123-145 | unknown groups and sizes over the maximum are refused without effect; otherwise only that group changes |
| `TwinAsgs.AsgClient.TerminateInstance` | internal/capacity/asg_client.go:147-170 | decrements only a non-empty group and logs the call |
| `TwinAsgs.WaitForNewNode` | internal/capacity/asg_manager.go:160-229 | the name is the first one any poll offers: a node new since the baseline, ready, of the right pool and capacity type; none exactly if no poll offers one |
| `TwinAsgs.PrepareSwap` | internal/capacity/asg_manager.go:89-157 | the outcome is read off the groups and the answers; the target twin is one up, or both are as found; stranded only when the rollback was refused |
| `TwinAsgs.AwaitedNodeAppears` | internal/capacity/asg_manager.go:160-229 | the awaited node is one some poll shows new, labelled, ready, of the pool and the wanted capacity type |
| `TwinAsgs.StandsIff` | internal/capacity/asg_manager.go:89-157 | the scale-up stands exactly when it is accepted within the size limit and not taken back |
| `TwinAsgs.RaisedOnTheRightSide` | internal/capacity/asg_manager.go:89-157 | a standing scale-up is on the side the pool moves to, and nowhere else |
| `TwinAsgs.PreparedOneMore` | internal/capacity/asg_manager.go:89-157 | preparing one pool after others has the outcome it has alone, so the order of pools does not matter |
| `TwinAsgs.PostDrainCleanup` | internal/capacity/asg_manager.go:247-328 | terminates at most the drained node's own instance, in the group it belongs to |
| `TwinAsgs.SwapsConserveCapacity` | internal/capacity/asg_manager.go:77-157 | over any sequence of swaps, refused ones included, a pool never dips below its start and exceeds it by the draws on empty groups |
| `TwinAsgs.DesiredFollowsPlan` | internal/capacity/asg_client.go:123-170 | without empty draws each group moves by the net inflow of the accepted swaps |
| `TwinAsgs.ConservedIffCovered` | internal/capacity/asg_client.go:123-170 | conserved if and only if at every accepted swap the source's start plus net inflow so far is positive |
| `TwinAsgs.RoomyPlansAreAccepted` | internal/capacity/asg_client.go:130-132 | with room for the whole plan under the size limits nothing is refused, so the condition reads off the plan |
| `TwinAsgs.EmptyGroupGrows` | internal/capacity/asg_client.go:147-170 | a concrete plan that ends one instance above its start |
| `Steering.Steerer.Steer` | internal/controller/controller.go:1533-1611 | with the integration on, patches only managed pools outside their cooldown and records a change only if some patch was accepted; with it off does nothing |
| `Steering.Steerer.BatchSteer` | internal/controller/controller.go:1619-1686 | with the integration on, each pool is patched at most once per batch; Spot gets the Spot weight exactly when strictly more of its nodes vote for Spot, the two are exchanged otherwise; exactly the accepted ones are recorded; with it off nothing is |
| `Steering.RecordedMeaning` | internal/controller/controller.go:1576-1608 | a pool's last change moves exactly when it is steered and one of its NodePools accepts |
| `Steering.SteeringMeaning` | internal/controller/controller.go:1533-1573 | when a pool is steered and which weights it is sent, by number |
| `Steering.OneVote` | internal/controller/controller.go:1632-1667 | a growing node votes for Spot, a shrinking or frozen one for on-demand |
| `Steering.HeavierSideIsMajority` | internal/controller/controller.go:1566-1573 | with a larger Spot weight the Spot NodePool is the heavier one exactly for a strict Spot majority |
| `Steering.CountVotes` | internal/controller/controller.go:1632-1667 | the tallies are the vote counts per labelled pool |
| `Steering.VotesAreOrderFree` | internal/controller/controller.go:1619-1686 | votes depend on the nodes, not on their order |
| `Steering.BatchIsOrderFree` | internal/controller/controller.go:1619-1686 | any listing order of the batch asks for the same weights |
| `Steering.EveryRunIsSpaced` | internal/controller/controller.go:1546-1608 | in every run two recorded changes of one pool are a cooldown apart, and only allowlisted pools change, with the integration on |
| `Reconcile.FilterActionableNodes` | internal/controller/controller.go:1808-1858 | the list pass is the entrywise filter |
| `Reconcile.PrimeDirective` | internal/controller/controller.go:1808-1858 | no confident node above the risk threshold is lost; it leaves the filter as an emergency |
| `Reconcile.ActionableIff` | internal/controller/controller.go:1808-1858 | exactly what the first filter keeps, and as which action |
| `Reconcile.FilterExecutableNodes` | internal/controller/controller.go:1860-1901 | keeps exactly the executable nodes, or everything if nodes cannot be listed |
| `Reconcile.ExecutableIff` | internal/controller/controller.go:1860-1901 | exactly what the second filter keeps |
| `Reconcile.Choose` | internal/controller/controller.go:379-401 | the chosen entries are the pre-checked selection of the filtered candidates within the limit |
| `Reconcile.ChosenBounds` | internal/controller/controller.go:379-401 | whatever is started from chosen entries is within every bound and permitted |
| `Reconcile.CollectRequests` | internal/controller/controller.go:1704-1747 | one request per pool, from the first qualifying node |
| `Reconcile.RequestIsFirstAsked` | internal/controller/controller.go:1704-1747 | a pool is requested if and only if some node asks for it, and the first that asks gives the direction |
| `Reconcile.PrepareCapacitySwaps` | internal/controller/controller.go:1691-1783 | in any order of pools, exactly the requested pools are prepared, each with the outcome of its own answers, and exactly the standing scale-ups are in the groups |
| `Reconcile.Controller.ExecuteAction` | internal/controller/controller.go:2153-2311 | one node: the events, group changes, terminate calls and target update, on every path including all errors |
| `Reconcile.AttemptsIff` | internal/controller/controller.go:2153-2262 | exactly which entries reach the drainer |
| `Reconcile.TerminatesIff` | internal/controller/controller.go:2263-2284 | exactly when, and in which group, executing a node terminates its instance |
| `Reconcile.TargetFollowsGuard` | internal/controller/controller.go:2221-2241 | the target moves by the action the guardrails left: a softened emergency by three tenths, not to the minimum |
| `Reconcile.ExecEventsAreSafe` | internal/controller/controller.go:2263-2284 | executing a node keeps the log termination-safe |
| `Reconcile.DryRunNeverTerminates` | internal/controller/controller.go:2263-2284 | a dry-run drain leads to no termination and no mutation |
| `Reconcile.Controller.ExecuteAll` | internal/controller/controller.go:412-419 | timeline, terminate calls, groups and targets are the entries' own effects folded in order |
| `Reconcile.OnlyAttemptedAreTouched` | internal/controller/controller.go:412-419 | every entry added to the timeline belongs to a node that was attempted |
| `Reconcile.TickStaysWithinBudgets` | internal/controller/controller.go:1906-2030 | the nodes a tick cordons, lists, evicts from or terminates number at most max(1, floor(nodes * ratio)) and at most any budget of the candidates' pools; none stems from a HOLD, none is a reduction above 0.95 utilization |
| `Reconcile.GuardedIsNotBusyEmergency` | internal/controller/guardrails.go:284-337 | after the pre-check no entry above 0.95 utilization is still an emergency |
| `Reconcile.Controller.Tick` | internal/controller/controller.go:327-423 | timeline, terminate calls, groups, weights and targets after a tick, as a value of the chosen entries and the answers |
| `Reconcile.Run` | internal/controller/controller.go:327-423 | the state after any run is that of its ticks in turn; every terminate call has its termination entry after every workload pod of its node left; no other pod is ever evicted; in dry-run nothing is terminated or mutated |
| `Reconcile.RunIsSafe` | internal/controller/controller.go:2263-2284 | over any run and any chosen entries the terminate calls are exactly those on the timeline, each after a complete drain |
| `Reconcile.DryRunIsHarmless` | internal/controller/drain.go:157-232 | any number of dry-run ticks terminate nothing and mutate no node |
| `TickLedger.GroupsAfter` | internal/capacity/asg_client.go:147-170 | a group ends at its size less the terminations that found an instance, in whatever order |
| `TickLedger.TickTotal` | internal/controller/controller.go:1691-1783 | a pool's total moves by one if its scale-up stands, less what its cleaned-up nodes took; it falls exactly when they took more |
| `TickLedger.UnpreparedPoolFallsIff` | internal/controller/controller.go:1766-1773 | without a standing scale-up a pool loses capacity exactly when a chosen node's cleanup meets a non-empty group of it |
| `TickLedger.RefusedSwapStillDrains` | internal/controller/controller.go:1766-1773 | a concrete tick: the scale-up is refused and the instance is terminated all the same |
| `TickLedger.CallsBelong` | internal/controller/controller.go:2263-2284 | every terminate call of a tick is the cleanup of one of its chosen nodes |
| `TickLedger.DryRunTickIsQuietIff` | internal/controller/controller.go:407-408 | a dry-run tick leaves the groups alone exactly when no scale-up stands, and the weights exactly when the integration is off or no chosen pool is managed and off cooldown |
| `TickLedger.DryRunStillActs` | internal/controller/controller.go:407-408 | a concrete dry-run tick, integration on, that raises a twin and patches weights |
| `NodeTelemetry.NodeSignals.Collect` | internal/controller/reliability_telemetry_collector.go:81-110 | one poll moves the readiness map to the listing and reports departures and drops; a failed poll changes nothing |
| `NodeTelemetry.NodeSignals.Scan` | internal/controller/reliability_telemetry_collector.go:88-99 | the first loop merges the listing into the map it is reading while counting drops |
| `NodeTelemetry.NodeSignals.Prune` | internal/controller/reliability_telemetry_collector.go:101-109 | the second loop counts and forgets exactly the nodes that disappeared |
| `NodeTelemetry.FoldCountsDrops` | internal/controller/reliability_telemetry_collector.go:88-99 | the running counter is the number of nodes ready before and not ready now |
| `NodeTelemetry.NodesAreConserved` | internal/controller/reliability_telemetry_collector.go:81-110 | over any run, terminations plus nodes last seen equals arrivals |
| `NodeTelemetry.TransitionsAreDropPairs` | internal/controller/reliability_telemetry_collector.go:81-110 | over any run, reported transitions are exactly the ready-then-not-ready pairs of successive successful polls |
| `NodeTelemetry.StateIsLastSuccess` | internal/controller/reliability_telemetry_collector.go:81-110 | the map is that of the last successful poll, through any number of failures |
| `PodTelemetry.PodSignals.Collect` | internal/controller/reliability_telemetry_collector.go:112-170 | one poll's restarts, pending and recovery samples and the next two maps |
| `PodTelemetry.PodSignals.TrackPod` | internal/controller/reliability_telemetry_collector.go:127-146 | the phase switch for one pod |
| `PodTelemetry.PodSignals.CountContainers` | internal/controller/reliability_telemetry_collector.go:148-157 | the inner loop adds the positive rises over the counts it overwrites |
| `PodTelemetry.Prune` | internal/controller/reliability_telemetry_collector.go:160-169 | forgets exactly what was not listed |
| `PodTelemetry.SamplesAreOwn` | internal/controller/reliability_telemetry_collector.go:112-170 | each pod is judged against its own previous status; recovery samples are exactly those ending in Running |
| `PodTelemetry.StretchIffPendingBefore` | internal/controller/reliability_telemetry_collector.go:127-146 | a stretch is remembered exactly when the last successful poll lists the pod as Pending |
| `PodTelemetry.StretchKeepsItsStart` | internal/controller/reliability_telemetry_collector.go:204-227 | while open, the remembered start is that of its first observation |
| `PodTelemetry.RememberedStretchWasOpened` | internal/controller/reliability_telemetry_collector.go:127-146 | every remembered stretch was opened by some poll |
| `PodTelemetry.SampleClosesStretch` | internal/controller/reliability_telemetry_collector.go:112-170 | a pod yields a sample exactly when it is listed in another phase with an open stretch; the sample is nonnegative and measured from the stretch's first observation |
| `PodTelemetry.SamplesAreClosedStretches` | internal/controller/reliability_telemetry_collector.go:112-170 | over any run, the samples correspond one to one, in order, with the Pending stretches seen to end, each being its stretch's length; the recoveries are exactly those that ended in Running |
| `PodTelemetry.LengthMeaning` | internal/controller/reliability_telemetry_collector.go:204-227 | a stretch's length from creation, or first sight, to the start of running, or the closing poll |
| `PodTelemetry.NextCountsAreListed` | internal/controller/reliability_telemetry_collector.go:148-169 | after a poll only listed containers are remembered |
| `PodTelemetry.CountIsSumOfRises` | internal/controller/reliability_telemetry_collector.go:148-157 | a poll's counter is the sum over containers of their rises |
| `PodTelemetry.RestartsAreSumOfIncrements` | internal/controller/reliability_telemetry_collector.go:112-170 | over any run, total restarts are the sum over containers of positive increments between consecutive sightings |
| `PodTelemetry.IncrementsTelescope` | internal/controller/reliability_telemetry_collector.go:148-157 | while present and nondecreasing, increments come to last minus first |
| `PricePath.BuildPriceHistory` | internal/cloudapi/aws/aws.go:229-256 | 24 steps, oldest first, step j being the present price of that age with the oldest repeated in front; fails exactly on a non-empty history without prices |
| `PricePath.NormalizePriceHistory` | internal/controller/controller.go:827-851 | the downsampling loop computes the reference series |
| `PricePath.DownsampledAt` | internal/controller/controller.go:827-851 | step i of a long history is entry 2i + 1 of its last 24 |
| `PricePath.NormalizeKeepsNewest` | internal/controller/controller.go:827-851 | at most 12 steps, always ending in the newest price |
| `PricePath.CalculateStdDev` | internal/inference/features.go:301-322 | the two loops compute the root of the sample variance, zero below two values |
| `PricePath.StdDevIsDeviation` | internal/inference/features.go:301-322 | it equals the one-pass textbook form in sums of values and squares |
| `PricePath.RollingStd` | internal/inference/features.go:283-298 | entry t is the standard deviation of the trailing window at t |
| `PricePath.FillRow` | internal/inference/features.go:161-201 | writes the ten features of row t and nothing else |
| `PricePath.BuildTftInput` | internal/inference/features.go:132-204 | the flat tensor holds feature f of row t at 10 t + f, and all ten columns of every row by name: price, on-demand price, lags, deviation, hour, weekday, weekend, relative time, length |
| `PricePath.NewestReachesLastRow` | internal/inference/features.go:132-204 | the newest price survives downsampling and padding into feature 0 of the last row |
| `PricePath.FullSeriesRows` | internal/inference/features.go:132-204 | a full AWS series feeds row t with its entry 2t + 1 |
| `PricePath.LagsAreEarlierRows` | internal/inference/features.go:161-201 | lag features are feature 0 of earlier rows |
| `PricePath.NoLookAhead` | internal/inference/features.go:132-204 | at a given current price, raw histories of one length that agree up to the entry behind row t give equal rows up to t |
| `PricePath.RowShowsEntry` | internal/inference/features.go:132-147 | which raw entry each row shows, and that rows without one show the current price |
| `PricePath.IgnoresCurrentPriceIff` | internal/inference/features.go:136-147 | no cell depends on the current price if and only if the history has at least 12 steps |
| `PricePath.ShortBufferLooksAhead` | internal/controller/controller.go:630-647 | in rolling mode the oldest row of a buffer under 12 steps is the newest price |
| `PricePath.RollingNoLookAheadIff` | internal/controller/controller.go:630-647 | in rolling mode no earlier row depends on the newest price if and only if the buffer with it has at least 12 steps |
| `PricePath.FutureOnlyShifts` | internal/inference/features.go:132-204 | at an unchanged current price a further step shifts the rows of a history of any length and appears only in the last |

## Left out

- ONNX inference, symbolic risk expressions and the odds-power risk scaling: foreign runtimes; scores are arbitrary inputs.
- AWS, GCP, Prometheus and Kubernetes client calls: only their possible answers are modelled, as inputs.
- Metrics, logging, dry-run report text, decision reasons and urgency labels: no effect on what is decided.
- The asynchronous executor and the Karpenter capacity manager's own preparation: not on the reconcile path.
- The price ring buffer and the reinforcement-learning input vector: the first is never read, the second would only add easy members.
- Pool-level inference feedback and the last-migration times: node-level mode with simple pool names is modelled.
- YAML and JSON parsing, environment variables, finalizers, labelling and version checks: thin or I/O.
- calculateWeightedAverage: an easy member beside the percentile.
- Action codes outside the six named ones, and overflow of 32- and 64-bit integers.
- Running without a Kubernetes client, as unit tests do.
- Parsing instance identifiers out of provider IDs and normalising capacity-type labels: the resolved values are inputs.
- Locks: each operation is one atomic step; the tick runs its stages in sequence.
- NodePoolBudgets.LimitRoundTrip: the decimal scan accepts blanks, a sign and digits and does not model overflow of the scanned number.
- The telemetry collector is two classes, one for nodes and one for pods, since the two halves share no map.
- The restart-time results are about pools with workload pods; a pool without any is given the default vector, whose risk and cap no signal moves.
