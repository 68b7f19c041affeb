/**
  What a tick does to the capacity of a pool, read off the entries it chose, the swap answers and
  the nodes it cleaned up; and what a dry-run tick still changes.
 */
module TickLedger {
  import opened Wrappers
  import opened RuntimeConfigs
  import opened Actions
  import opened DrainSelection
  import opened Guardrails
  import opened Drainer
  import opened TwinAsgs
  import opened Steering
  import opened PoolBooks
  import opened NodePoolBudgets
  import opened Reconcile

  // ----- terminations per group

  /** How many of the first n entries end with a termination in the group; g tells which groups exist. */
  function Hits(cfg: ControllerConfig, drainCfg: DrainConfig, nodes: seq<Assessment>, exec: nat -> ExecAnswers, n: nat, g: Groups, id: AsgId): nat
    requires n <= |nodes|
  {
    if n == 0 then 0
    else
      Hits(cfg, drainCfg, nodes, exec, n - 1, g, id)
      + if TerminatesIn(cfg, drainCfg, nodes[n - 1], exec(n - 1), g) == Some(id) then 1 else 0
  }

  /** Desired sizes are never negative. */
  ghost predicate Sized(g: Groups) {
    forall id :: id in g ==> g[id].desired >= 0
  }

  /** Terminations that find an instance to take. */
  function Taken(size: int, hits: nat): int {
    if hits <= size then hits else size
  }

  lemma TerminatesInByKeys(cfg: ControllerConfig, drainCfg: DrainConfig, n: Assessment, ans: ExecAnswers, g: Groups, h: Groups)
    requires g.Keys == h.Keys
    ensures TerminatesIn(cfg, drainCfg, n, ans, g) == TerminatesIn(cfg, drainCfg, n, ans, h)
  {
    hide Guard, DrainTrace, CleanupTarget;
    if CleansUp(cfg, drainCfg, n, ans) {
      CleanupTargetByKeys(g, h, ans.fetched.value.workloadPool, ans.cleanup);
    }
  }

  lemma CleanupAt(g: Groups, target: Option<AsgId>, id: AsgId)
    requires id in g && (target.Some? ==> target.value in g)
    ensures id in Cleanup(g, target)
    ensures Cleanup(g, target)[id].desired == if target == Some(id) then Decrement(g[id].desired) else g[id].desired
  {
  }

  /** Whatever the order of the entries, a group ends at its size less the terminations that found an instance. */
  lemma {:induction false} GroupsAfter(cfg: ControllerConfig, drainCfg: DrainConfig, nodes: seq<Assessment>, exec: nat -> ExecAnswers, n: nat,
                                       w: World, id: AsgId)
    requires n <= |nodes| && id in w.groups && w.groups[id].desired >= 0
    ensures var h := ExecFirst(cfg, drainCfg, nodes, exec, n, w).groups;
            && h.Keys == w.groups.Keys && id in h
            && h[id].desired == w.groups[id].desired - Taken(w.groups[id].desired, Hits(cfg, drainCfg, nodes, exec, n, w.groups, id))
  {
    hide TerminatesIn, ExecEvents;
    if n > 0 {
      GroupsAfter(cfg, drainCfg, nodes, exec, n - 1, w, id);
      var before := ExecFirst(cfg, drainCfg, nodes, exec, n - 1, w).groups;
      TerminatesInByKeys(cfg, drainCfg, nodes[n - 1], exec(n - 1), before, w.groups);
      CleanupAt(before, TerminatesIn(cfg, drainCfg, nodes[n - 1], exec(n - 1), before), id);
      hide Cleanup;
    }
  }

  // ----- the ledger of one tick

  predicate Raises(inp: TickInput, guarded: seq<Assessment>, g: Groups, pool: string) {
    StandsRaised(g, Requests(inp.objects, guarded), inp.swaps, pool)
  }

  /** The group's size once the tick's preparations are through. */
  function SizeAfterPrep(inp: TickInput, guarded: seq<Assessment>, g: Groups, id: AsgId): int
    requires id in g
  {
    var requests := Requests(inp.objects, guarded);
    g[id].desired + if Raises(inp, guarded, g, id.pool) && id == TargetGroup(id.pool, requests[id.pool]) then 1 else 0
  }

  /** Instances a tick takes from a group. */
  function TickTakes(cfg: ControllerConfig, drainCfg: DrainConfig, inp: TickInput, guarded: seq<Assessment>, g: Groups, id: AsgId): int
    requires id in g
  {
    Taken(SizeAfterPrep(inp, guarded, g, id), Hits(cfg, drainCfg, guarded, inp.exec, |guarded|, g, id))
  }

  lemma {:induction false} HitsByKeys(cfg: ControllerConfig, drainCfg: DrainConfig, nodes: seq<Assessment>, exec: nat -> ExecAnswers, n: nat,
                                      g: Groups, h: Groups, id: AsgId)
    requires n <= |nodes| && g.Keys == h.Keys
    ensures Hits(cfg, drainCfg, nodes, exec, n, g, id) == Hits(cfg, drainCfg, nodes, exec, n, h, id)
  {
    hide TerminatesIn;
    if n > 0 {
      HitsByKeys(cfg, drainCfg, nodes, exec, n - 1, g, h, id);
      TerminatesInByKeys(cfg, drainCfg, nodes[n - 1], exec(n - 1), g, h);
    }
  }

  lemma TickAt(cfg: ControllerConfig, drainCfg: DrainConfig, inp: TickInput, guarded: seq<Assessment>, w: World, id: AsgId)
    requires id in w.groups && w.groups[id].desired >= 0
    ensures var h := TickWorld(cfg, drainCfg, inp, guarded, w).groups;
            id in h && h[id].desired == SizeAfterPrep(inp, guarded, w.groups, id) - TickTakes(cfg, drainCfg, inp, guarded, w.groups, id)
  {
    hide Hits, ExecFirst, Taken, PreparationOf, Requests;
    var mid := PreparedAll(w.groups, Requests(inp.objects, guarded), inp.swaps);
    assert id in mid.Keys && mid[id].desired == SizeAfterPrep(inp, guarded, w.groups, id);
    GroupsAfter(cfg, drainCfg, guarded, inp.exec, |guarded|, w.(groups := mid), id);
    HitsByKeys(cfg, drainCfg, guarded, inp.exec, |guarded|, mid, w.groups, id);
  }

  /**
    Per pool and tick: the total moves by one if the pool's scale-up stands, less what the cleaned-up
    nodes took; it falls exactly when they took more than was raised.
   */
  lemma TickTotal(cfg: ControllerConfig, drainCfg: DrainConfig, inp: TickInput, guarded: seq<Assessment>, w: World, pool: string)
    requires HasTwins(w.groups, pool) && Sized(w.groups)
    ensures var h := TickWorld(cfg, drainCfg, inp, guarded, w).groups;
            var raised := if Raises(inp, guarded, w.groups, pool) then 1 else 0;
            var takes := TickTakes(cfg, drainCfg, inp, guarded, w.groups, SpotAsg(pool))
                         + TickTakes(cfg, drainCfg, inp, guarded, w.groups, OnDemandAsg(pool));
            && HasTwins(h, pool)
            && Total(h, pool) == Total(w.groups, pool) + raised - takes
            && (Total(h, pool) < Total(w.groups, pool) <==> takes > raised)
  {
    TickAt(cfg, drainCfg, inp, guarded, w, SpotAsg(pool));
    TickAt(cfg, drainCfg, inp, guarded, w, OnDemandAsg(pool));
    hide TickWorld, TickTakes, Requests, PreparationOf;
  }

  /**
    A failed or missing preparation does not protect a pool: without a standing scale-up it loses
    capacity exactly when some chosen node's cleanup terminates in a group that has an instance.
   */
  lemma UnpreparedPoolFallsIff(cfg: ControllerConfig, drainCfg: DrainConfig, inp: TickInput, guarded: seq<Assessment>, w: World, pool: string)
    requires HasTwins(w.groups, pool) && Sized(w.groups) && !Raises(inp, guarded, w.groups, pool)
    ensures var h := TickWorld(cfg, drainCfg, inp, guarded, w).groups;
            HasTwins(h, pool) &&
            (Total(h, pool) < Total(w.groups, pool) <==>
               exists i, id :: 0 <= i < |guarded| && CleanedUpIn(cfg, drainCfg, guarded[i], inp.exec(i), w.groups, id)
                               && id.pool == pool && w.groups[id].desired > 0)
  {
    hide TickWorld, Hits, Requests, TerminatesIn;
    TickTotal(cfg, drainCfg, inp, guarded, w, pool);
    var n := |guarded|;
    forall id | id in w.groups && id.pool == pool
      ensures TickTakes(cfg, drainCfg, inp, guarded, w.groups, id) >= 0
      ensures TickTakes(cfg, drainCfg, inp, guarded, w.groups, id) > 0 <==>
              w.groups[id].desired > 0 && exists i :: 0 <= i < n && CleanedUpIn(cfg, drainCfg, guarded[i], inp.exec(i), w.groups, id)
    {
      HitsMeaning(cfg, drainCfg, guarded, inp.exec, n, w.groups, id);
    }
    assert forall id: AsgId :: id.pool == pool ==> id == SpotAsg(pool) || id == OnDemandAsg(pool);
    hide TickTakes, Raises;
  }

  ghost predicate CleanedUpIn(cfg: ControllerConfig, drainCfg: DrainConfig, n: Assessment, ans: ExecAnswers, g: Groups, id: AsgId) {
    id in g && TerminatesIn(cfg, drainCfg, n, ans, g) == Some(id)
  }

  lemma {:induction false} HitsMeaning(cfg: ControllerConfig, drainCfg: DrainConfig, nodes: seq<Assessment>, exec: nat -> ExecAnswers, n: nat,
                                       g: Groups, id: AsgId)
    requires n <= |nodes| && id in g
    ensures Hits(cfg, drainCfg, nodes, exec, n, g, id) > 0 <==>
            exists i :: 0 <= i < n && CleanedUpIn(cfg, drainCfg, nodes[i], exec(i), g, id)
  {
    hide TerminatesIn;
    if n > 0 {
      HitsMeaning(cfg, drainCfg, nodes, exec, n - 1, g, id);
      if TerminatesIn(cfg, drainCfg, nodes[n - 1], exec(n - 1), g) == Some(id) {
        assert CleanedUpIn(cfg, drainCfg, nodes[n - 1], exec(n - 1), g, id);
      }
    }
  }

  /** The call is the cleanup of one of the first n entries. */
  ghost predicate IsCleanupOf(cfg: ControllerConfig, drainCfg: DrainConfig, nodes: seq<Assessment>, exec: nat -> ExecAnswers, n: nat,
                              g: Groups, call: (AsgId, string)) {
    exists i :: 0 <= i < n && i < |nodes| && CleanedUpIn(cfg, drainCfg, nodes[i], exec(i), g, call.0) && exec(i).cleanup.instance == call.1
  }

  lemma {:induction false} SameKeys(cfg: ControllerConfig, drainCfg: DrainConfig, nodes: seq<Assessment>, exec: nat -> ExecAnswers, n: nat, w: World)
    requires n <= |nodes|
    ensures ExecFirst(cfg, drainCfg, nodes, exec, n, w).groups.Keys == w.groups.Keys
  {
    hide TerminatesIn, ExecEvents, Cleanup;
    if n > 0 {
      SameKeys(cfg, drainCfg, nodes, exec, n - 1, w);
    }
  }

  /** Every terminate call of a tick is the cleanup of one of its chosen nodes. */
  lemma {:induction false} CallsBelong(cfg: ControllerConfig, drainCfg: DrainConfig, nodes: seq<Assessment>, exec: nat -> ExecAnswers, n: nat, w: World)
    requires n <= |nodes|
    ensures var calls := ExecFirst(cfg, drainCfg, nodes, exec, n, w).calls;
            && |w.calls| <= |calls| && calls[..|w.calls|] == w.calls
            && forall call :: call in calls[|w.calls|..] ==> IsCleanupOf(cfg, drainCfg, nodes, exec, n, w.groups, call)
  {
    hide TerminatesIn, ExecEvents, CleanedUpIn;
    if n > 0 {
      CallsBelong(cfg, drainCfg, nodes, exec, n - 1, w);
      var before := ExecFirst(cfg, drainCfg, nodes, exec, n - 1, w);
      var calls := ExecFirst(cfg, drainCfg, nodes, exec, n, w).calls;
      var more := OneMoreCall(cfg, drainCfg, nodes, exec, n, w);
      assert calls == before.calls + more;
      assert calls[|w.calls|..] == before.calls[|w.calls|..] + more;
    }
  }

  /** What the n-th entry adds to the calls. */
  lemma OneMoreCall(cfg: ControllerConfig, drainCfg: DrainConfig, nodes: seq<Assessment>, exec: nat -> ExecAnswers, n: nat, w: World)
    returns (more: seq<(AsgId, string)>)
    requires 0 < n <= |nodes|
    ensures ExecFirst(cfg, drainCfg, nodes, exec, n, w).calls == ExecFirst(cfg, drainCfg, nodes, exec, n - 1, w).calls + more
    ensures forall call :: call in more ==> IsCleanupOf(cfg, drainCfg, nodes, exec, n, w.groups, call)
  {
    hide TerminatesIn, ExecEvents;
    var before := ExecFirst(cfg, drainCfg, nodes, exec, n - 1, w);
    var a, ans := nodes[n - 1], exec(n - 1);
    SameKeys(cfg, drainCfg, nodes, exec, n - 1, w);
    TerminatesInByKeys(cfg, drainCfg, a, ans, before.groups, w.groups);
    var target := TerminatesIn(cfg, drainCfg, a, ans, w.groups);
    more := if target.Some? then [(target.value, ans.cleanup.instance)] else [];
    assert target.Some? ==> CleanedUpIn(cfg, drainCfg, a, ans, w.groups, target.value);
  }

  // ----- dry-run

  lemma PreparedAllIsSameIff(g: Groups, requests: map<string, Direction>, answers: string -> SwapAnswers)
    ensures PreparedAll(g, requests, answers) == g <==> forall pool :: !StandsRaised(g, requests, answers, pool)
  {
    var h := PreparedAll(g, requests, answers);
    if pool :| StandsRaised(g, requests, answers, pool) {
      var id := TargetGroup(pool, requests[pool]);
      assert id in g && id.pool == pool;
      assert h[id].desired == g[id].desired + 1;
    } else {
      hide StandsRaised;
      assert forall id :: id in g ==> h[id] == g[id];
    }
  }

  /**
    A dry-run tick terminates nothing and mutates no node. It leaves the groups alone exactly when no
    requested scale-up stands, and the weights exactly when the NodePool integration is off or no
    chosen node's pool is managed and off cooldown: neither steering nor preparation looks at the flag.
   */
  lemma DryRunTickIsQuietIff(cfg: ControllerConfig, drainCfg: DrainConfig, inp: TickInput, guarded: seq<Assessment>, w: World,
                             was: map<string, int>, made: seq<Patch>)
    requires drainCfg.dryRun && BatchPatches(cfg.karpenter, was, guarded, inp.labels, inp.steer, made)
    ensures var v := TickWorld(cfg, drainCfg, inp, guarded, w);
            && Harmless(w, v)
            && (v.groups == w.groups <==> forall pool :: !Raises(inp, guarded, w.groups, pool))
    ensures made == [] <==>
            !cfg.karpenter.enabled ||
            forall p :: p in PoolsIn(guarded, inp.labels) ==>
              !IsManaged(cfg.karpenter, p) || Cooling(cfg.karpenter, was, p, inp.steer(p).checkedAt)
  {
    hide TickWorld, PreparedAll, StandsRaised, Requests, Harmless;
    var requests := Requests(inp.objects, guarded);
    DryRunTick(cfg, drainCfg, inp, guarded, w);
    PreparedAllIsSameIff(w.groups, requests, inp.swaps);
    assert forall pool :: Raises(inp, guarded, w.groups, pool) == StandsRaised(w.groups, requests, inp.swaps, pool);
    QuietBatch(cfg.karpenter, was, guarded, inp.labels, inp.steer, made);
    hide BatchPatches, PoolsIn, IsManaged, Cooling;
  }

  lemma QuietBatch(cfg: KarpenterConfig, was: map<string, int>, nodes: seq<Assessment>, labels: map<string, string>,
                   answers: string -> SteerAnswers, made: seq<Patch>)
    requires BatchPatches(cfg, was, nodes, labels, answers, made)
    ensures made == [] <==>
            !cfg.enabled || forall p :: p in PoolsIn(nodes, labels) ==> !IsManaged(cfg, p) || Cooling(cfg, was, p, answers(p).checkedAt)
  {
    hide IsManaged, Cooling, PoolsIn, FavorsSpot;
    if made != [] {
      assert made[0].pool in PoolsIn(nodes, labels) && Entitled(cfg, was, nodes, labels, answers, made[0]);
    }
  }

  // ----- two concrete ticks

  const AT_RISK := Assessment("n", Decrease10, 0.5, 0.9, 0.5, ReduceGradual)
  const ITS_NODE := NodeObject(true, false, false, Spot, "p", "p", true)
  const ITS_VIEW := ClusterView(Some([true]), Some([]), Some([]))
  const ITS_POOL: Groups := map[SpotAsg("p") := AsgInfo(1, 1, 6), OnDemandAsg("p") := AsgInfo(1, 1, 6)]
  const SETTINGS := ControllerConfig(0.9, 1.0, 0.5, KarpenterConfig(true, [], 60, 80, 20))

  /** The node carries its pool's label; neither NodePool of the pool has a readable budget. */
  const ITS_NODEPOOLS := KarpenterView(map["n" := "p"], map[], "-spot", "-od")

  /** A new on-demand node of the pool, ready at the first poll. */
  const PROMPT_SWAP := SwapAnswers(true, true, true, Some({"n"}), [PollNodes([NodeInfo("m", true, "p", OnDemand, true)])])

  /** The cloud refuses the scale-up. */
  const REFUSED_SWAP := SwapAnswers(true, false, true, Some({"n"}), [])

  function ItsAnswers(c: Config): ExecAnswers {
    ExecAnswers(Some(ITS_NODE), ITS_VIEW, c, true, false,
                DrainAnswers(true, false, true, Some([]), (i: nat) => OtherError),
                CleanupAnswers(true, "i", None, true, Spot, true))
  }

  /** One Spot node with a DECREASE_10, everything else healthy; c is any loaded configuration. */
  function OneNodeTick(c: Config, swap: SwapAnswers): TickInput {
    TickInput([NodeSeen("p", true)], [AT_RISK], 1, None, ITS_NODEPOOLS, map["n" := ITS_VIEW], map["n" := "p"], (p: string) => SteerAnswers(0, 0, true, true),
              map["n" := ITS_NODE], (p: string) => swap, (i: nat) => ItsAnswers(c))
  }

  lemma OneNodeIsChosen(c: Config, swap: SwapAnswers)
    ensures ChosenFrom(SETTINGS, OneNodeTick(c, swap), [AT_RISK])
    ensures Requests(map["n" := ITS_NODE], [AT_RISK]) == map["p" := ToOnDemand]
    ensures Attempts(SETTINGS, AT_RISK, ItsAnswers(c))
    ensures OrderedDials(c.dials) ==> LegalInput(OneNodeTick(c, swap))
  {
    hide GuardAll, Guard, IsLimit, IsSelection, ActionableAll;
    var inp := OneNodeTick(c, swap);
    var one := [AT_RISK];
    OneNodeIsSelected();
    assert Candidates(SETTINGS, inp) == one;
    OneNodePasses();
    assert ChosenFrom(SETTINGS, inp, one);
    assert one[..0] == [];
  }

  lemma OneNodeIsSelected()
    ensures ActionableAll(SETTINGS, [AT_RISK]) == [AT_RISK]
    ensures IsSelection([AT_RISK], 1, [AT_RISK], [AT_RISK], [])
    ensures IsLimit(WithKarpenter(ITS_NODEPOOLS), [AT_RISK], 1, 1.0, 1)
  {
    var one := [AT_RISK];
    assert one[..0] == [] && one[1..] == [] && one + [] == one && [] + one == one;
    NoneHold(one);
    NoBudgets(NodeIds(Drains(one)));
    hide IsTightest, PoolLimits, CandidatePools;
  }

  lemma NoBudgets(nodes: seq<string>)
    ensures IsTightest(PoolLimits(ITS_NODEPOOLS, CandidatePools(ITS_NODEPOOLS, nodes), 1), -1)
  {
    hide ParseNodeLimit;
    assert forall pool, b :: !IsBudgetOf(ITS_NODEPOOLS, pool, b);
  }

  lemma OneNodePasses()
    ensures Guard(ITS_VIEW, 1.0, AT_RISK) == Allowed(Decrease10)
    ensures GuardAll([AT_RISK], map["n" := ITS_VIEW], 1.0) == [AT_RISK]
  {
    assert SpotCount([true][1..]) == 0;
    assert SpotCount([true]) == 1;
    var one := [AT_RISK];
    assert one[1..] == [];
  }

  /** The scale-up is refused, the preparation changes nothing, and the node is drained and terminated all the same. */
  lemma RefusedSwapStillDrains(c: Config)
    ensures var inp := OneNodeTick(c, REFUSED_SWAP);
            var h := TickWorld(SETTINGS, DrainConfig(false, true, false), inp, [AT_RISK], World([], [], ITS_POOL)).groups;
            && ChosenFrom(SETTINGS, inp, [AT_RISK]) && "p" in Requests(inp.objects, [AT_RISK])
            && PreparationOf(ITS_POOL, "p", ToOnDemand, REFUSED_SWAP).Unchanged?
            && HasTwins(ITS_POOL, "p") && HasTwins(h, "p") && Total(h, "p") == 1 < Total(ITS_POOL, "p")
  {
    var inp, cfg, drainCfg, one := OneNodeTick(c, REFUSED_SWAP), SETTINGS, DrainConfig(false, true, false), [AT_RISK];
    OneNodeIsChosen(c, REFUSED_SWAP);
    OneNodeDrains(c);
    hide ChosenFrom, TerminatesIn, TickWorld, Requests;
    TickTotal(cfg, drainCfg, inp, one, World([], [], ITS_POOL), "p");
    assert Hits(cfg, drainCfg, one, inp.exec, 0, ITS_POOL, SpotAsg("p")) == 0;
    assert Hits(cfg, drainCfg, one, inp.exec, 0, ITS_POOL, OnDemandAsg("p")) == 0;
    assert Hits(cfg, drainCfg, one, inp.exec, 1, ITS_POOL, SpotAsg("p")) == 1;
    assert Hits(cfg, drainCfg, one, inp.exec, 1, ITS_POOL, OnDemandAsg("p")) == 0;
  }

  lemma OneNodeDrains(c: Config)
    ensures TerminatesIn(SETTINGS, DrainConfig(false, true, false), AT_RISK, ItsAnswers(c), ITS_POOL) == Some(SpotAsg("p"))
  {
    OneNodeIsChosen(c, REFUSED_SWAP);
    hide Attempts, ChosenFrom;
    var drainCfg, ans := DrainConfig(false, true, false), ItsAnswers(c);
    assert DrainTrace(drainCfg, "n", ans.drain).result.success;
    assert CleansUp(SETTINGS, drainCfg, AT_RISK, ans);
  }

  /** In dry-run the same tick with a prompt replacement raises the on-demand twin and patches the pool's weights. */
  lemma DryRunStillActs(c: Config, made: seq<Patch>)
    requires BatchPatches(SETTINGS.karpenter, map[], [AT_RISK], map["n" := "p"], OneNodeTick(c, PROMPT_SWAP).steer, made)
    ensures var inp := OneNodeTick(c, PROMPT_SWAP);
            var h := TickWorld(SETTINGS, DrainConfig(true, true, false), inp, [AT_RISK], World([], [], ITS_POOL)).groups;
            && ChosenFrom(SETTINGS, inp, [AT_RISK]) && made != []
            && HasTwins(ITS_POOL, "p") && HasTwins(h, "p") && Total(h, "p") == Total(ITS_POOL, "p") + 1
  {
    hide ChosenFrom, TerminatesIn, TickWorld, Requests, BatchPatches, Hits, PreparationOf;
    var inp, drainCfg, one := OneNodeTick(c, PROMPT_SWAP), DrainConfig(true, true, false), [AT_RISK];
    var w := World([], [], ITS_POOL);
    OneNodeIsChosen(c, PROMPT_SWAP);
    PromptIsReady();
    TickTotal(SETTINGS, drainCfg, inp, one, w, "p");
    DryRunHitsNothing(c, drainCfg, inp, SpotAsg("p"));
    DryRunHitsNothing(c, drainCfg, inp, OnDemandAsg("p"));
    OneNodeIsSteered(c, inp, made);
  }

  lemma OneNodeIsSteered(c: Config, inp: TickInput, made: seq<Patch>)
    requires inp == OneNodeTick(c, PROMPT_SWAP)
    requires BatchPatches(SETTINGS.karpenter, map[], [AT_RISK], inp.labels, inp.steer, made)
    ensures made != []
  {
    var one := [AT_RISK];
    QuietBatch(SETTINGS.karpenter, map[], one, inp.labels, inp.steer, made);
    assert LabelOf(inp.labels, one[0].node) == "p";
    assert "p" in PoolsIn(one, inp.labels);
    assert IsManaged(SETTINGS.karpenter, "p") && !Cooling(SETTINGS.karpenter, map[], "p", inp.steer("p").checkedAt);
    hide BatchPatches, PoolsIn, IsManaged, Cooling;
  }

  lemma DryRunHitsNothing(c: Config, drainCfg: DrainConfig, inp: TickInput, id: AsgId)
    requires drainCfg.dryRun && inp == OneNodeTick(c, PROMPT_SWAP)
    ensures Hits(SETTINGS, drainCfg, [AT_RISK], inp.exec, 1, ITS_POOL, id) == 0
  {
    hide TerminatesIn;
    DryRunNeverTerminates(SETTINGS, drainCfg, AT_RISK, inp.exec(0), ITS_POOL);
    assert Hits(SETTINGS, drainCfg, [AT_RISK], inp.exec, 0, ITS_POOL, id) == 0;
  }

  lemma PromptIsReady()
    ensures PreparationOf(ITS_POOL, "p", ToOnDemand, PROMPT_SWAP) == Ready("m")
  {
    assert FirstOffer({"n"}, "p", ToOnDemand, [NodeInfo("m", true, "p", OnDemand, true)]) == Some("m");
  }
}
