/**
  One reconcile tick as a staged state machine: filter, select, guard, steer, prepare capacity, then
  guard again and execute node by node. Every answer of the cluster and the cloud is an input.
 */
module Reconcile {
  import opened Wrappers
  import opened Numbers
  import opened RuntimeConfigs
  import opened Actions
  import opened PoolBooks
  import opened DrainSelection
  import opened NodePoolBudgets
  import opened Guardrails
  import opened Drainer
  import opened TwinAsgs
  import opened Steering

  datatype ControllerConfig = ControllerConfig(riskThreshold: real, maxDrainRatio: real, confidenceThreshold: real, karpenter: KarpenterConfig)

  // ----- filterActionableNodes

  /** A confident node above the risk threshold is forced to EMERGENCY_EXIT whatever the policy said. */
  function Actionable(cfg: ControllerConfig, a: Assessment): Option<Assessment> {
    if a.confidence < cfg.confidenceThreshold then None
    else if a.capacityScore > cfg.riskThreshold then Some(a.(action := EmergencyExit))
    else if !a.action.Hold? then Some(a)
    else if a.mode.FreezeSpot? then Some(a)
    else None
  }

  function ActionableAll(cfg: ControllerConfig, s: seq<Assessment>): seq<Assessment> {
    if s == [] then []
    else
      var front := ActionableAll(cfg, s[..|s| - 1]);
      match Actionable(cfg, s[|s| - 1])
      case Some(a) => front + [a]
      case None => front
  }

  method FilterActionableNodes(cfg: ControllerConfig, s: seq<Assessment>) returns (actionable: seq<Assessment>)
    ensures actionable == ActionableAll(cfg, s)
  {
    actionable := [];
    for i := 0 to |s|
      invariant actionable == ActionableAll(cfg, s[..i])
    {
      var a := s[i];
      assert s[..i + 1][..i] == s[..i];
      if a.confidence < cfg.confidenceThreshold {
        continue;
      }
      if a.capacityScore > cfg.riskThreshold {
        a := a.(action := EmergencyExit);
        actionable := actionable + [a];
        continue;
      }
      if !a.action.Hold? {
        actionable := actionable + [a];
        continue;
      }
      if a.mode.FreezeSpot? {
        actionable := actionable + [a];
      }
    }
    assert s[..|s|] == s;
  }

  // ----- filterExecutableNodes

  datatype NodeMeta = NodeMeta(managed: bool, control: bool, fake: bool, isSpot: bool)

  /** Nodes the API does not know pass; known ones must be ours and on the side the action shrinks. */
  predicate Executable(metas: map<string, NodeMeta>, a: Assessment) {
    a.node in metas ==>
      var m := metas[a.node];
      m.managed && !m.control && !m.fake && (IsIncrease(a.action) ==> !m.isSpot) && (IsReduction(a.action) ==> m.isSpot)
  }

  function ExecutableAll(metas: map<string, NodeMeta>, s: seq<Assessment>): seq<Assessment> {
    if s == [] then []
    else
      var front := ExecutableAll(metas, s[..|s| - 1]);
      if Executable(metas, s[|s| - 1]) then front + [s[|s| - 1]] else front
  }

  /** metas is None when the node list cannot be read; then nothing is filtered. */
  method FilterExecutableNodes(metas: Option<map<string, NodeMeta>>, s: seq<Assessment>) returns (filtered: seq<Assessment>)
    ensures filtered == if metas.None? then s else ExecutableAll(metas.value, s)
  {
    if metas.None? {
      return s;
    }
    filtered := [];
    for i := 0 to |s|
      invariant filtered == ExecutableAll(metas.value, s[..i])
    {
      assert s[..i + 1][..i] == s[..i];
      if Executable(metas.value, s[i]) {
        filtered := filtered + [s[i]];
      }
    }
    assert s[..|s|] == s;
  }

  lemma {:induction false} FilteredMembers(cfg: ControllerConfig, metas: map<string, NodeMeta>, s: seq<Assessment>, x: Assessment)
    ensures x in ExecutableAll(metas, s) <==> x in s && Executable(metas, x)
    ensures x in ActionableAll(cfg, s) <==> exists a :: a in s && Actionable(cfg, a) == Some(x)
  {
    hide Executable, Actionable;
    if s != [] {
      var front, last := s[..|s| - 1], s[|s| - 1];
      assert s == front + [last];
      FilteredMembers(cfg, metas, front, x);
    }
  }

  /** The prime directive: no confident node above the risk threshold is lost or softened by the filter. */
  lemma PrimeDirective(cfg: ControllerConfig, s: seq<Assessment>, a: Assessment)
    requires a in s && a.confidence >= cfg.confidenceThreshold && a.capacityScore > cfg.riskThreshold
    ensures a.(action := EmergencyExit) in ActionableAll(cfg, s)
  {
    FilteredMembers(cfg, map[], s, a.(action := EmergencyExit));
  }

  /** What the first filter keeps: confident nodes, those above the risk threshold forced to leave, HOLD only where Spot is frozen. */
  lemma ActionableIff(cfg: ControllerConfig, s: seq<Assessment>, x: Assessment)
    ensures x in ActionableAll(cfg, s) <==>
            exists a :: a in s && a.confidence >= cfg.confidenceThreshold
                        && ((a.capacityScore > cfg.riskThreshold && x == a.(action := EmergencyExit))
                            || (a.capacityScore <= cfg.riskThreshold && x == a && (a.action != Hold || a.mode == FreezeSpot)))
  {
    FilteredMembers(cfg, map[], s, x);
    hide ActionableAll;
  }

  /** What the second filter keeps: unknown nodes, and managed ones on the side their action shrinks. */
  lemma ExecutableIff(metas: map<string, NodeMeta>, s: seq<Assessment>, x: Assessment)
    ensures x in ExecutableAll(metas, s) <==>
            x in s && (x.node in metas ==>
                         var m := metas[x.node];
                         && m.managed && !m.control && !m.fake
                         && (x.action == Increase10 || x.action == Increase30 ==> !m.isSpot)
                         && (x.action == Decrease10 || x.action == Decrease30 || x.action == EmergencyExit ==> m.isSpot))
  {
    FilteredMembers(ControllerConfig(0.0, 0.0, 0.0, KarpenterConfig(false, [], 0, 0, 0)), metas, s, x);
    hide ExecutableAll;
  }

  // ----- executeAction

  datatype NodeObject = NodeObject(
    managed: bool, controlPlane: bool, fake: bool, capacity: CapacityType, poolId: string, workloadPool: string, asgManaged: bool)

  /** Everything the outside world answers while one node is executed. */
  datatype ExecAnswers = ExecAnswers(
    fetched: Option<NodeObject>, view: ClusterView, runtimeCfg: Config, hasDrainer: bool, monitoring: bool,
    drain: DrainAnswers, cleanup: CleanupAnswers)

  predicate Eligible(n: Assessment, ans: ExecAnswers) {
    && ans.fetched.Some? && ans.fetched.value.managed && !ans.fetched.value.controlPlane && !ans.fetched.value.fake
    && !n.action.Hold?
    && (IsIncrease(n.action) ==> !ans.fetched.value.capacity.Spot?)
    && (IsReduction(n.action) ==> ans.fetched.value.capacity.Spot?)
  }

  predicate Acts(cfg: ControllerConfig, n: Assessment, ans: ExecAnswers) {
    Eligible(n, ans) && Guard(ans.view, cfg.maxDrainRatio, n).Allowed?
  }

  predicate Attempts(cfg: ControllerConfig, n: Assessment, ans: ExecAnswers) {
    Acts(cfg, n, ans) && ans.hasDrainer && !ans.monitoring
  }

  predicate CleansUp(cfg: ControllerConfig, drainCfg: DrainConfig, n: Assessment, ans: ExecAnswers) {
    && Attempts(cfg, n, ans)
    && var r := DrainTrace(drainCfg, n.node, ans.drain).result;
       r.success && !r.dryRun && ans.fetched.value.asgManaged
  }

  /** The group in which executing the node terminates its instance, if it does. */
  function TerminatesIn(cfg: ControllerConfig, drainCfg: DrainConfig, n: Assessment, ans: ExecAnswers, g: Groups): (target: Option<AsgId>)
    ensures target.Some? ==> target.value in g
  {
    if CleansUp(cfg, drainCfg, n, ans) then CleanupTarget(g, ans.fetched.value.workloadPool, ans.cleanup) else None
  }

  function ExecEvents(cfg: ControllerConfig, drainCfg: DrainConfig, n: Assessment, ans: ExecAnswers, g: Groups): seq<Event> {
    if !Attempts(cfg, n, ans) then []
    else
      DrainTrace(drainCfg, n.node, ans.drain).events +
      match TerminatesIn(cfg, drainCfg, n, ans, g)
      case Some(asg) => [Terminated(n.node, asg, ans.cleanup.instance)]
      case None => []
  }

  /** Which entries reach the drainer: our own worker nodes, on the side the action shrinks, approved by the guardrails. */
  lemma AttemptsIff(cfg: ControllerConfig, n: Assessment, ans: ExecAnswers)
    ensures Attempts(cfg, n, ans) <==>
            && ans.fetched.Some? && ans.hasDrainer && !ans.monitoring && n.action != Hold
            && var o := ans.fetched.value;
               var r := Judge(ans.view, FractionLimit(cfg.maxDrainRatio), n.action, n.confidence, n.utilization);
               && o.managed && !o.controlPlane && !o.fake
               && (n.action == Increase10 || n.action == Increase30 ==> o.capacity != Spot)
               && (n.action == Decrease10 || n.action == Decrease30 || n.action == EmergencyExit ==> o.capacity == Spot)
               && r.Some? && r.value.approved
  {
    hide Judge;
  }

  /**
    When and where executing a node terminates its instance: after a real, successful drain of an
    ASG-managed node, in the group the cloud names or else the twin the node's capacity type points to.
   */
  lemma TerminatesIff(cfg: ControllerConfig, drainCfg: DrainConfig, n: Assessment, ans: ExecAnswers, g: Groups, id: AsgId)
    ensures TerminatesIn(cfg, drainCfg, n, ans, g) == Some(id) <==>
            && Attempts(cfg, n, ans) && !drainCfg.dryRun && DrainTrace(drainCfg, n.node, ans.drain).result.success
            && ans.fetched.value.asgManaged && ans.cleanup.nodeFound && ans.cleanup.instance != "" && ans.cleanup.terminateAccepted && id in g
            && (ans.cleanup.instanceAsg == Some(id)
                || (ans.cleanup.instanceAsg == None && ans.cleanup.discoverable
                    && var pool := ans.fetched.value.workloadPool;
                       && pool != "" && SpotAsg(pool) in g && OnDemandAsg(pool) in g
                       && ((ans.cleanup.capacity == Spot && id == SpotAsg(pool)) || (ans.cleanup.capacity == OnDemand && id == OnDemandAsg(pool)))))
  {
    TraceSaysDryRun(drainCfg, n.node, ans.drain);
    hide Guard, DrainTrace;
  }

  lemma TraceSaysDryRun(cfg: DrainConfig, node: string, ans: DrainAnswers)
    ensures DrainTrace(cfg, node, ans).result.dryRun == cfg.dryRun
  {
    hide EvictFirst;
  }

  /** A drain in dry-run never leads to a termination. */
  lemma DryRunNeverTerminates(cfg: ControllerConfig, drainCfg: DrainConfig, n: Assessment, ans: ExecAnswers, g: Groups)
    requires drainCfg.dryRun
    ensures TerminatesIn(cfg, drainCfg, n, ans, g).None?
    ensures forall e :: e in ExecEvents(cfg, drainCfg, n, ans, g) ==> !Mutates(e)
  {
    DryRunChangesNothing(drainCfg, n.node, ans.drain);
    hide Acts, DrainTrace, CleanupTarget;
  }

  lemma ExecEventsAreSafe(cfg: ControllerConfig, drainCfg: DrainConfig, n: Assessment, ans: ExecAnswers, g: Groups, log: seq<Event>)
    requires TerminationSafe(drainCfg, log)
    ensures TerminationSafe(drainCfg, log + ExecEvents(cfg, drainCfg, n, ans, g))
  {
    var t := DrainTrace(drainCfg, n.node, ans.drain);
    if !Attempts(cfg, n, ans) {
      assert log + [] == log;
    } else {
      DrainStaysOnNode(drainCfg, n.node, ans.drain);
      var target := TerminatesIn(cfg, drainCfg, n, ans, g);
      if target.Some? {
        assert t.result.success && !drainCfg.dryRun;
        SuccessIsCompleteDrain(drainCfg, n.node, ans.drain);
        TerminationAfterDrainIsSafe(drainCfg, log, t.events, n.node, target.value, ans.cleanup.instance);
        assert log + ExecEvents(cfg, drainCfg, n, ans, g) == log + t.events + [Terminated(n.node, target.value, ans.cleanup.instance)];
      } else {
        TerminationSafeExtends(drainCfg, log, t.events);
        assert log + ExecEvents(cfg, drainCfg, n, ans, g) == log + t.events;
      }
    }
  }

  /** Executing a node writes entries of that node only, and one termination entry per terminate call. */
  lemma ExecEventsAreOwn(cfg: ControllerConfig, drainCfg: DrainConfig, n: Assessment, ans: ExecAnswers, g: Groups)
    ensures forall e :: e in ExecEvents(cfg, drainCfg, n, ans, g) ==> Attempts(cfg, n, ans) && e.node == n.node
    ensures CallsIn(ExecEvents(cfg, drainCfg, n, ans, g))
            == var target := TerminatesIn(cfg, drainCfg, n, ans, g); if target.Some? then [(target.value, ans.cleanup.instance)] else []
  {
    var target := TerminatesIn(cfg, drainCfg, n, ans, g);
    assert target.Some? ==> Attempts(cfg, n, ans);
    hide Attempts, TerminatesIn;
    if Attempts(cfg, n, ans) {
      var trace := DrainTrace(drainCfg, n.node, ans.drain).events;
      DrainStaysOnNode(drainCfg, n.node, ans.drain);
      hide DrainTrace;
      NoCalls(trace);
      var last := if target.Some? then [Terminated(n.node, target.value, ans.cleanup.instance)] else [];
      assert ExecEvents(cfg, drainCfg, n, ans, g) == trace + last;
      CallsConcat(trace, last);
      assert target.Some? ==> last[..0] == [];
    }
  }

  // ----- prepareCapacitySwaps

  /** Which scale-up a node asks for: only ASG-managed nodes with a workload pool and a moving action. */
  function RequestOf(objects: map<string, NodeObject>, n: Assessment): Option<(string, Direction)> {
    if n.node !in objects || !objects[n.node].asgManaged || objects[n.node].workloadPool == "" then None
    else if IsReduction(n.action) then Some((objects[n.node].workloadPool, ToOnDemand))
    else if IsIncrease(n.action) then Some((objects[n.node].workloadPool, ToSpot))
    else None
  }

  /** The first node of a pool decides the pool's single swap. */
  function Requests(objects: map<string, NodeObject>, nodes: seq<Assessment>): map<string, Direction> {
    if nodes == [] then map[]
    else
      var front := Requests(objects, nodes[..|nodes| - 1]);
      match RequestOf(objects, nodes[|nodes| - 1])
      case Some(r) => if r.0 in front then front else front[r.0 := r.1]
      case None => front
  }

  /** Which of the requests have been served. */
  ghost function Served(requests: map<string, Direction>, left: set<string>): map<string, Direction> {
    map pool | pool in requests && pool !in left :: requests[pool]
  }

  /** Requested pools are prepared in any order, each with its own answers. */
  method PrepareCapacitySwaps(client: AsgClient, nodes: seq<Assessment>, objects: map<string, NodeObject>, answers: string -> SwapAnswers)
    returns (preps: map<string, Preparation>)
    requires client.Valid()
    modifies client
    ensures client.Valid() && client.terminateCalls == old(client.terminateCalls)
    ensures var requests := Requests(objects, nodes);
            && client.asgs == PreparedAll(old(client.asgs), requests, answers)
            && preps.Keys == requests.Keys
            && forall pool :: pool in preps ==> preps[pool] == PreparationOf(old(client.asgs), pool, requests[pool], answers(pool))
  {
    hide Requests, RequestOf, PreparationOf, Prepare, Offers, PreparedAll, Served, HasTwins;
    var requests := CollectRequests(nodes, objects);
    preps := map[];
    var left := requests.Keys;
    ghost var start := client.asgs;
    ServedEnds(start, requests, answers);
    while left != {}
      invariant client.Valid() && client.terminateCalls == old(client.terminateCalls)
      invariant left <= requests.Keys && client.asgs == PreparedAll(start, Served(requests, left), answers)
      invariant OutcomesOf(start, requests, answers, left, preps)
      decreases left
    {
      var pool :| pool in left;
      ServedOneMore(requests, left, pool);
      PreparedOneMore(start, Served(requests, left), answers, pool, requests[pool]);
      OneMoreOutcome(start, requests, answers, left, preps, pool);
      hide OutcomesOf;
      var p := PrepareSwap(client, pool, requests[pool], answers(pool));
      preps := preps[pool := p];
      left := left - {pool};
    }
  }

  /** The outcomes of the requests served so far. */
  ghost predicate OutcomesOf(g: Groups, requests: map<string, Direction>, answers: string -> SwapAnswers, left: set<string>,
                             preps: map<string, Preparation>) {
    && preps.Keys == requests.Keys - left
    && forall pool :: pool in preps ==> preps[pool] == PreparationOf(g, pool, requests[pool], answers(pool))
  }

  lemma OneMoreOutcome(g: Groups, requests: map<string, Direction>, answers: string -> SwapAnswers, left: set<string>,
                       preps: map<string, Preparation>, pool: string)
    requires pool in left && left <= requests.Keys && OutcomesOf(g, requests, answers, left, preps)
    ensures OutcomesOf(g, requests, answers, left - {pool}, preps[pool := PreparationOf(g, pool, requests[pool], answers(pool))])
  {
    hide PreparationOf;
  }

  lemma ServedEnds(g: Groups, requests: map<string, Direction>, answers: string -> SwapAnswers)
    ensures PreparedAll(g, Served(requests, requests.Keys), answers) == g && Served(requests, {}) == requests
  {
  }

  lemma ServedOneMore(requests: map<string, Direction>, left: set<string>, pool: string)
    requires pool in left && left <= requests.Keys
    ensures pool !in Served(requests, left)
    ensures Served(requests, left)[pool := requests[pool]] == Served(requests, left - {pool})
  {
  }

  /** The node asks for its pool to be moved in this direction. */
  ghost predicate Asks(objects: map<string, NodeObject>, n: Assessment, pool: string, d: Direction) {
    && n.node in objects && objects[n.node].asgManaged && objects[n.node].workloadPool == pool && pool != ""
    && (d == ToOnDemand ==> n.action == Decrease10 || n.action == Decrease30 || n.action == EmergencyExit)
    && (d == ToSpot ==> n.action == Increase10 || n.action == Increase30)
  }

  /** A pool is requested if and only if some node asks for it, and the first that asks gives the direction. */
  lemma {:induction false} RequestIsFirstAsked(objects: map<string, NodeObject>, nodes: seq<Assessment>, pool: string)
    ensures pool in Requests(objects, nodes) ==>
              exists i :: 0 <= i < |nodes| && Asks(objects, nodes[i], pool, Requests(objects, nodes)[pool])
                          && forall j, d :: 0 <= j < i ==> !Asks(objects, nodes[j], pool, d)
    ensures pool !in Requests(objects, nodes) ==> forall i, d :: 0 <= i < |nodes| ==> !Asks(objects, nodes[i], pool, d)
  {
    if nodes != [] {
      var front, last := nodes[..|nodes| - 1], nodes[|nodes| - 1];
      RequestIsFirstAsked(objects, front, pool);
      OneAsks(objects, last, pool);
      hide Asks, RequestOf;
      if pool in Requests(objects, front) {
        var i :| 0 <= i < |front| && Asks(objects, front[i], pool, Requests(objects, front)[pool])
                 && forall j, d :: 0 <= j < i ==> !Asks(objects, front[j], pool, d);
        assert nodes[i] == front[i] && forall j :: 0 <= j < i ==> nodes[j] == front[j];
      } else if pool in Requests(objects, nodes) {
        var i := |nodes| - 1;
        assert nodes[i] == last && forall j :: 0 <= j < i ==> nodes[j] == front[j];
      }
    }
  }

  lemma OneAsks(objects: map<string, NodeObject>, n: Assessment, pool: string)
    ensures forall d :: Asks(objects, n, pool, d) <==> RequestOf(objects, n) == Some((pool, d))
  {
  }

  method CollectRequests(nodes: seq<Assessment>, objects: map<string, NodeObject>) returns (requests: map<string, Direction>)
    ensures requests == Requests(objects, nodes)
  {
    requests := map[];
    for i := 0 to |nodes|
      invariant requests == Requests(objects, nodes[..i])
    {
      assert nodes[..i + 1][..i] == nodes[..i];
      var r := RequestOf(objects, nodes[i]);
      if r.Some? && r.value.0 !in requests {
        requests := requests[r.value.0 := r.value.1];
      }
    }
    assert nodes[..|nodes|] == nodes;
  }

  // ----- the execution of a list of entries, as a value

  /** The timeline, the terminate calls and the groups: everything a tick does to the cluster and the cloud. */
  datatype World = World(log: seq<Event>, calls: seq<(AsgId, string)>, groups: Groups)

  function ExecOne(cfg: ControllerConfig, drainCfg: DrainConfig, n: Assessment, ans: ExecAnswers, w: World): World {
    var target := TerminatesIn(cfg, drainCfg, n, ans, w.groups);
    World(w.log + ExecEvents(cfg, drainCfg, n, ans, w.groups),
          w.calls + (if target.Some? then [(target.value, ans.cleanup.instance)] else []),
          Cleanup(w.groups, target))
  }

  /** The first n entries executed in order, each with its own answers. */
  function ExecFirst(cfg: ControllerConfig, drainCfg: DrainConfig, nodes: seq<Assessment>, exec: nat -> ExecAnswers, n: nat, w: World): World
    requires n <= |nodes|
  {
    if n == 0 then w else ExecOne(cfg, drainCfg, nodes[n - 1], exec(n - 1), ExecFirst(cfg, drainCfg, nodes, exec, n - 1, w))
  }

  /** The entries among the first n that get as far as the drainer. */
  function Attempted(cfg: ControllerConfig, nodes: seq<Assessment>, exec: nat -> ExecAnswers, n: nat): seq<Assessment>
    requires n <= |nodes|
  {
    if n == 0 then []
    else Attempted(cfg, nodes, exec, n - 1) + if Attempts(cfg, nodes[n - 1], exec(n - 1)) then [nodes[n - 1]] else []
  }

  /** The targets after the first n entries. */
  function TargetsAfter(cfg: ControllerConfig, nodes: seq<Assessment>, exec: nat -> ExecAnswers, n: nat, targets: map<string, real>): map<string, real>
    requires n <= |nodes|
  {
    if n == 0 then targets
    else TargetsOne(cfg, nodes[n - 1], exec(n - 1), TargetsAfter(cfg, nodes, exec, n - 1, targets))
  }

  function TargetsOne(cfg: ControllerConfig, n: Assessment, ans: ExecAnswers, targets: map<string, real>): map<string, real> {
    if Acts(cfg, n, ans)
    then PutTarget(targets, ans.fetched.value.poolId, Guard(ans.view, cfg.maxDrainRatio, n).action,
                   Some(ans.runtimeCfg), n.capacityScore < cfg.riskThreshold * 0.5)
    else targets
  }

  /**
    The target an executed node leaves behind, by what the guardrails made of its action: steps of a
    tenth or three tenths, the minimum for an emergency, three tenths down for a softened one.
   */
  lemma TargetFollowsGuard(cfg: ControllerConfig, n: Assessment, ans: ExecAnswers, targets: map<string, real>)
    requires Acts(cfg, n, ans) && OrderedDials(ans.runtimeCfg.dials) && ans.fetched.value.poolId in targets && ans.fetched.value.poolId != ""
    ensures var pool, d := ans.fetched.value.poolId, ans.runtimeCfg.dials;
            var was, now := targets[pool], TargetsOne(cfg, n, ans, targets);
            var approved := Judge(ans.view, FractionLimit(cfg.maxDrainRatio), n.action, n.confidence, n.utilization).value.modified;
            && now.Keys == targets.Keys && (forall p :: p in targets && p != pool ==> now[p] == targets[p])
            && (n.action == Increase10 ==> now[pool] == Clamp(was + 0.10, d.minSpotRatio, d.maxSpotRatio))
            && (n.action == Increase30 ==> now[pool] == Clamp(was + 0.30, d.minSpotRatio, d.maxSpotRatio))
            && (n.action == Decrease10 ==> now[pool] == Clamp(was - 0.10, d.minSpotRatio, d.maxSpotRatio))
            && (n.action == Decrease30 ==> now[pool] == Clamp(was - 0.30, d.minSpotRatio, d.maxSpotRatio))
            && (n.action == EmergencyExit && approved == EmergencyExit ==> now[pool] == d.minSpotRatio)
            && (n.action == EmergencyExit && approved != EmergencyExit ==> now[pool] == Clamp(was - 0.30, d.minSpotRatio, d.maxSpotRatio))
  {
    CheckOnlySoftens(ans.view, FractionLimit(cfg.maxDrainRatio), n.action, n.confidence, n.utilization);
    StepIsExact(targets[ans.fetched.value.poolId], ans.runtimeCfg, n.capacityScore < cfg.riskThreshold * 0.5);
    hide Judge, UpdateTarget, OrderedDials;
  }

  ghost function TouchedNodes(events: seq<Event>): set<string> {
    set e | e in events :: e.node
  }

  /**
    A safe world: every termination follows its complete drain, the cloud was asked for exactly
    those, and only workload pods were evicted.
   */
  ghost predicate Safe(drainCfg: DrainConfig, w: World) {
    TerminationSafe(drainCfg, w.log) && w.calls == CallsIn(w.log) && SparesOthers(drainCfg, w.log)
  }

  lemma ExecSparesOthers(cfg: ControllerConfig, drainCfg: DrainConfig, n: Assessment, ans: ExecAnswers, g: Groups)
    ensures SparesOthers(drainCfg, ExecEvents(cfg, drainCfg, n, ans, g))
  {
    DrainSparesOthers(drainCfg, n.node, ans.drain);
    hide DrainTrace, Attempts, TerminatesIn, CarriesWorkload;
  }

  lemma ExecOneIsSafe(cfg: ControllerConfig, drainCfg: DrainConfig, n: Assessment, ans: ExecAnswers, w: World)
    requires Safe(drainCfg, w)
    ensures Safe(drainCfg, ExecOne(cfg, drainCfg, n, ans, w))
  {
    ExecEventsAreSafe(cfg, drainCfg, n, ans, w.groups, w.log);
    ExecEventsAreOwn(cfg, drainCfg, n, ans, w.groups);
    CallsConcat(w.log, ExecEvents(cfg, drainCfg, n, ans, w.groups));
    ExecSparesOthers(cfg, drainCfg, n, ans, w.groups);
    hide TerminationSafe, ExecEvents, TerminatesIn, CallsIn, CarriesWorkload;
  }

  lemma {:induction false} ExecFirstIsSafe(cfg: ControllerConfig, drainCfg: DrainConfig, nodes: seq<Assessment>, exec: nat -> ExecAnswers, n: nat, w: World)
    requires n <= |nodes| && Safe(drainCfg, w)
    ensures Safe(drainCfg, ExecFirst(cfg, drainCfg, nodes, exec, n, w))
  {
    hide Safe, ExecOne;
    if n > 0 {
      ExecFirstIsSafe(cfg, drainCfg, nodes, exec, n - 1, w);
      ExecOneIsSafe(cfg, drainCfg, nodes[n - 1], exec(n - 1), ExecFirst(cfg, drainCfg, nodes, exec, n - 1, w));
    }
  }

  /** Every entry names the node of one of these assessments. */
  ghost predicate Accounted(events: seq<Event>, attempted: seq<Assessment>) {
    forall e :: e in events ==> exists a :: a in attempted && a.node == e.node
  }

  lemma AccountedConcat(x: seq<Event>, y: seq<Event>, s: seq<Assessment>, t: seq<Assessment>)
    requires Accounted(x, s) && Accounted(y, t)
    ensures Accounted(x + y, s + t)
  {
    forall e | e in x + y ensures exists a :: a in s + t && a.node == e.node {
      if e in x {
        var a :| a in s && a.node == e.node;
        assert a in s + t;
      } else {
        var a :| a in t && a.node == e.node;
        assert a in s + t;
      }
    }
  }

  lemma ExecEventsAreAccounted(cfg: ControllerConfig, drainCfg: DrainConfig, n: Assessment, ans: ExecAnswers, g: Groups)
    ensures Accounted(ExecEvents(cfg, drainCfg, n, ans, g), if Attempts(cfg, n, ans) then [n] else [])
  {
    ExecEventsAreOwn(cfg, drainCfg, n, ans, g);
    hide ExecEvents, Attempts;
    assert n in [n];
  }

  /** The entries added to the timeline are those of attempted nodes, and of no others. */
  lemma {:induction false} OnlyAttemptedAreTouched(cfg: ControllerConfig, drainCfg: DrainConfig, nodes: seq<Assessment>, exec: nat -> ExecAnswers, n: nat, w: World)
    requires n <= |nodes|
    ensures var log := ExecFirst(cfg, drainCfg, nodes, exec, n, w).log;
            && |w.log| <= |log| && log[..|w.log|] == w.log
            && Accounted(log[|w.log|..], Attempted(cfg, nodes, exec, n))
  {
    hide ExecEvents, Attempts, Accounted, TerminatesIn;
    if n == 0 {
      assert w.log[|w.log|..] == [];
      NothingToAccount();
    } else {
      OnlyAttemptedAreTouched(cfg, drainCfg, nodes, exec, n - 1, w);
      var before := ExecFirst(cfg, drainCfg, nodes, exec, n - 1, w);
      var more := ExecEvents(cfg, drainCfg, nodes[n - 1], exec(n - 1), before.groups);
      var log := ExecFirst(cfg, drainCfg, nodes, exec, n, w).log;
      ExecEventsAreAccounted(cfg, drainCfg, nodes[n - 1], exec(n - 1), before.groups);
      assert log == before.log + more;
      assert log[|w.log|..] == before.log[|w.log|..] + more;
      AccountedConcat(before.log[|w.log|..], more, Attempted(cfg, nodes, exec, n - 1),
                      if Attempts(cfg, nodes[n - 1], exec(n - 1)) then [nodes[n - 1]] else []);
    }
  }

  lemma NothingToAccount()
    ensures Accounted([], [])
  {
  }

  /** From w to v nothing was terminated and the timeline grew by requests that change nothing. */
  ghost predicate Harmless(w: World, v: World) {
    v.calls == w.calls && |w.log| <= |v.log| && v.log[..|w.log|] == w.log && forall e :: e in v.log[|w.log|..] ==> !Mutates(e)
  }

  lemma HarmlessJoins(u: World, v: World, w: World)
    requires Harmless(u, v) && Harmless(v, w)
    ensures Harmless(u, w)
  {
    hide Mutates;
    assert w.log == v.log + w.log[|v.log|..];
    assert w.log[|u.log|..] == v.log[|u.log|..] + w.log[|v.log|..];
    assert w.log[..|u.log|] == v.log[..|u.log|];
  }

  lemma NoHarm(w: World)
    ensures Harmless(w, w)
  {
  }

  lemma DryRunExecOne(cfg: ControllerConfig, drainCfg: DrainConfig, n: Assessment, ans: ExecAnswers, w: World)
    requires drainCfg.dryRun
    ensures Harmless(w, ExecOne(cfg, drainCfg, n, ans, w)) && ExecOne(cfg, drainCfg, n, ans, w).groups == w.groups
  {
    DryRunNeverTerminates(cfg, drainCfg, n, ans, w.groups);
    hide ExecEvents, TerminatesIn, Mutates;
    var log := ExecOne(cfg, drainCfg, n, ans, w).log;
    assert log[|w.log|..] == ExecEvents(cfg, drainCfg, n, ans, w.groups);
  }

  /** Nothing the drainer or the cleanup does in dry-run changes anything. */
  lemma {:induction false} DryRunExecutesNothing(cfg: ControllerConfig, drainCfg: DrainConfig, nodes: seq<Assessment>, exec: nat -> ExecAnswers, n: nat, w: World)
    requires n <= |nodes| && drainCfg.dryRun
    ensures Harmless(w, ExecFirst(cfg, drainCfg, nodes, exec, n, w)) && ExecFirst(cfg, drainCfg, nodes, exec, n, w).groups == w.groups
  {
    hide Harmless, ExecOne;
    if n == 0 {
      NoHarm(w);
    } else {
      var before := ExecFirst(cfg, drainCfg, nodes, exec, n - 1, w);
      DryRunExecutesNothing(cfg, drainCfg, nodes, exec, n - 1, w);
      DryRunExecOne(cfg, drainCfg, nodes[n - 1], exec(n - 1), before);
      HarmlessJoins(w, before, ExecOne(cfg, drainCfg, nodes[n - 1], exec(n - 1), before));
    }
  }

  lemma {:induction false} NodesOf(s: seq<Assessment>)
    ensures |set a | a in s :: a.node| <= |s|
  {
    if s != [] {
      var front, last := s[..|s| - 1], s[|s| - 1];
      NodesOf(front);
      assert s == front + [last];
      assert (set a | a in s :: a.node) == (set a | a in front :: a.node) + {last.node};
    }
  }

  lemma Subset(a: set<string>, b: set<string>)
    requires a <= b
    ensures |a| <= |b|
  {
    assert |b| == |a| + |b - a|;
  }

  lemma TouchedAtMostAttempted(cfg: ControllerConfig, drainCfg: DrainConfig, nodes: seq<Assessment>, exec: nat -> ExecAnswers, w: World)
    ensures |w.log| <= |ExecFirst(cfg, drainCfg, nodes, exec, |nodes|, w).log|
    ensures |TouchedNodes(ExecFirst(cfg, drainCfg, nodes, exec, |nodes|, w).log[|w.log|..])| <= |Attempted(cfg, nodes, exec, |nodes|)|
  {
    OnlyAttemptedAreTouched(cfg, drainCfg, nodes, exec, |nodes|, w);
    var s := Attempted(cfg, nodes, exec, |nodes|);
    hide ExecFirst, Attempted;
    NodesOf(s);
    Subset(TouchedNodes(ExecFirst(cfg, drainCfg, nodes, exec, |nodes|, w).log[|w.log|..]), set a | a in s :: a.node);
  }

  /** What may be started from a list of guarded entries. */
  ghost predicate StartedFrom(nodes: seq<Assessment>, started: seq<Assessment>) {
    && |started| <= |Drains(nodes)|
    && (forall n :: n in started ==> n in nodes && Startable(n))
  }

  /** What the second guard alone guarantees. */
  ghost predicate Startable(n: Assessment) {
    && !n.action.Hold?
    && !(n.utilization > BLOCKING_UTILIZATION && IsReduction(n.action) && !n.action.EmergencyExit?)
  }

  lemma {:induction false} AttemptedAreStartable(cfg: ControllerConfig, nodes: seq<Assessment>, exec: nat -> ExecAnswers, n: nat)
    requires n <= |nodes|
    ensures StartedFrom(nodes[..n], Attempted(cfg, nodes, exec, n))
  {
    if n > 0 {
      AttemptedAreStartable(cfg, nodes, exec, n - 1);
      var a := nodes[n - 1];
      assert nodes[..n] == nodes[..n - 1] + [a] && [a][1..] == [];
      DrainsConcat(nodes[..n - 1], [a]);
      if Attempts(cfg, a, exec(n - 1)) {
        GuardDerives(exec(n - 1).view, cfg.maxDrainRatio, a);
      }
      hide Guard, Derived;
    }
  }

  // ----- the tick as a value

  datatype TickInput = TickInput(
    seen: seq<NodeSeen>, assessments: seq<Assessment>, totalNodes: nat, metas: Option<map<string, NodeMeta>>, karpenter: KarpenterView,
    views: map<string, ClusterView>, labels: map<string, string>, steer: string -> SteerAnswers,
    objects: map<string, NodeObject>, swaps: string -> SwapAnswers, exec: nat -> ExecAnswers)

  /** Clocks do not run backwards and runtime configurations are loaded ones. */
  ghost predicate LegalInput(inp: TickInput) {
    && (forall p :: inp.steer(p).checkedAt <= inp.steer(p).recordedAt)
    && (forall i :: OrderedDials(inp.exec(i).runtimeCfg.dials))
  }

  /** The nodes left after both filters. */
  function Candidates(cfg: ControllerConfig, inp: TickInput): seq<Assessment> {
    var actionable := ActionableAll(cfg, inp.assessments);
    if inp.metas.None? then actionable else ExecutableAll(inp.metas.value, actionable)
  }

  /** NodePool budgets count only while the integration is on. */
  function Limits(cfg: ControllerConfig, inp: TickInput): LimitView {
    if cfg.karpenter.enabled then WithKarpenter(inp.karpenter) else NoKarpenter
  }

  /** count respects the configured share and every readable budget behind the candidates. */
  ghost predicate DrainsWithin(cfg: ControllerConfig, inp: TickInput, count: nat) {
    && count <= DrainLimit(inp.totalNodes, cfg.maxDrainRatio)
    && (cfg.karpenter.enabled ==>
          forall b :: Governs(inp.karpenter, Candidates(cfg, inp), b) && ParseNodeLimit(b, inp.totalNodes) >= 0
                      ==> count <= ParseNodeLimit(b, inp.totalNodes))
  }

  ghost predicate AllPermitted(candidates: seq<Assessment>, started: seq<Assessment>) {
    forall n :: n in started ==> Permitted(candidates, n)
  }

  /** guarded is what filtering, ranking within the limits and the pre-check leave, ties being ranked either way. */
  ghost predicate ChosenFrom(cfg: ControllerConfig, inp: TickInput, guarded: seq<Assessment>) {
    var candidates := Candidates(cfg, inp);
    if candidates == [] then guarded == []
    else exists k, selected, kept, deferred ::
        && IsLimit(Limits(cfg, inp), candidates, inp.totalNodes, cfg.maxDrainRatio, k) && k >= 0
        && IsSelection(candidates, k, selected, kept, deferred)
        && guarded == GuardAll(selected, inp.views, cfg.maxDrainRatio)
  }

  /** What one tick makes of the cluster and the cloud, given the entries it chose. */
  function TickWorld(cfg: ControllerConfig, drainCfg: DrainConfig, inp: TickInput, guarded: seq<Assessment>, w: World): World {
    var prepared := w.(groups := PreparedAll(w.groups, Requests(inp.objects, guarded), inp.swaps));
    ExecFirst(cfg, drainCfg, guarded, inp.exec, |guarded|, prepared)
  }

  /** Steps 3 to 4.5: filter, select, pre-check. */
  method Choose(cfg: ControllerConfig, inp: TickInput) returns (guarded: seq<Assessment>)
    ensures ChosenFrom(cfg, inp, guarded)
  {
    var actionable := FilterActionableNodes(cfg, inp.assessments);
    actionable := FilterExecutableNodes(inp.metas, actionable);
    assert actionable == Candidates(cfg, inp);
    if actionable == [] {
      guarded := [];
      return;
    }
    hide IsLimit, IsSelection, GuardAll, ActionableAll, ExecutableAll, Drains, Holds;
    var selected, k, kept, deferred := ApplyDrainLimit(actionable, inp.totalNodes, cfg.maxDrainRatio, Limits(cfg, inp));
    guarded := ApplyGuardrailsBeforePrep(selected, inp.views, cfg.maxDrainRatio);
  }

  /** Whatever is started from the chosen entries is within every bound and permitted. */
  lemma ChosenBounds(cfg: ControllerConfig, inp: TickInput, guarded: seq<Assessment>, started: seq<Assessment>)
    requires ChosenFrom(cfg, inp, guarded) && StartedFrom(guarded, started)
    ensures DrainsWithin(cfg, inp, |started|) && AllPermitted(Candidates(cfg, inp), started)
  {
    var candidates := Candidates(cfg, inp);
    hide Candidates, IsLimit, IsSelection, GuardAll, DrainsWithin, AllPermitted;
    if candidates == [] {
      NothingToStart(cfg, inp);
    } else {
      var k, selected, kept, deferred :|
        && IsLimit(Limits(cfg, inp), candidates, inp.totalNodes, cfg.maxDrainRatio, k) && k >= 0
        && IsSelection(candidates, k, selected, kept, deferred)
        && guarded == GuardAll(selected, inp.views, cfg.maxDrainRatio);
      ChosenIsWithin(cfg, inp, candidates, k, selected, kept, deferred, started);
      ChosenIsPermitted(cfg, candidates, k, selected, kept, deferred, inp.views, started);
    }
  }

  /**
    The per-tick bound: the nodes on which a tick cordons, lists, evicts or terminates anything are no
    more than the configured share and no more than any readable budget behind the candidates; each
    of them stems from a candidate with a draining action, and none is a reduction above 0.95 utilization.
   */
  lemma TickStaysWithinBudgets(cfg: ControllerConfig, drainCfg: DrainConfig, inp: TickInput, guarded: seq<Assessment>, w: World)
    requires ChosenFrom(cfg, inp, guarded)
    ensures var log := TickWorld(cfg, drainCfg, inp, guarded, w).log;
            var attempted := Attempted(cfg, guarded, inp.exec, |guarded|);
            && |w.log| <= |log| && log[..|w.log|] == w.log
            && DrainsWithin(cfg, inp, |attempted|) && DrainsWithin(cfg, inp, |TouchedNodes(log[|w.log|..])|)
            && AllPermitted(Candidates(cfg, inp), attempted)
            && Accounted(log[|w.log|..], attempted)
  {
    var prepared := w.(groups := PreparedAll(w.groups, Requests(inp.objects, guarded), inp.swaps));
    var attempted := Attempted(cfg, guarded, inp.exec, |guarded|);
    AttemptedAreStartable(cfg, guarded, inp.exec, |guarded|);
    assert guarded[..|guarded|] == guarded;
    hide ChosenFrom, StartedFrom, Attempted, ExecFirst, Candidates, TouchedNodes, AllPermitted, PreparedAll, Requests, Accounted;
    ChosenBounds(cfg, inp, guarded, attempted);
    OnlyAttemptedAreTouched(cfg, drainCfg, guarded, inp.exec, |guarded|, prepared);
    TouchedAtMostAttempted(cfg, drainCfg, guarded, inp.exec, prepared);
  }

  lemma NothingToStart(cfg: ControllerConfig, inp: TickInput)
    ensures forall started :: StartedFrom([], started) ==>
                                DrainsWithin(cfg, inp, |started|) && AllPermitted(Candidates(cfg, inp), started)
  {
    hide ParseNodeLimit, Governs, Candidates;
  }

  lemma ChosenIsWithin(cfg: ControllerConfig, inp: TickInput, candidates: seq<Assessment>, k: nat, selected: seq<Assessment>,
                       kept: seq<Assessment>, deferred: seq<Assessment>, started: seq<Assessment>)
    requires candidates == Candidates(cfg, inp)
    requires IsLimit(Limits(cfg, inp), candidates, inp.totalNodes, cfg.maxDrainRatio, k) && IsSelection(candidates, k, selected, kept, deferred)
    requires StartedFrom(GuardAll(selected, inp.views, cfg.maxDrainRatio), started)
    ensures DrainsWithin(cfg, inp, |started|)
  {
    SelectionRespectsBudgets(Limits(cfg, inp), candidates, inp.totalNodes, cfg.maxDrainRatio, k, selected, kept, deferred);
    GuardAllOnlyRemoves(selected, inp.views, cfg.maxDrainRatio);
    hide IsLimit, IsSelection, GuardAll, Drains, DrainLimit, ParseNodeLimit, Governs, Candidates, Derived;
  }

  lemma ChosenIsPermitted(cfg: ControllerConfig, candidates: seq<Assessment>, k: nat, selected: seq<Assessment>, kept: seq<Assessment>,
                          deferred: seq<Assessment>, views: map<string, ClusterView>, started: seq<Assessment>)
    requires IsSelection(candidates, k, selected, kept, deferred)
    requires StartedFrom(GuardAll(selected, views, cfg.maxDrainRatio), started)
    ensures AllPermitted(candidates, started)
  {
    forall n | n in started ensures Permitted(candidates, n) {
      StartedIsPermitted(cfg, candidates, k, selected, kept, deferred, views, started, n);
    }
  }

  /**
    What a started drain must look like: a non-HOLD candidate (or one softened from EMERGENCY_EXIT),
    and never a reduction carrying utilization above 0.95.
   */
  ghost predicate Permitted(candidates: seq<Assessment>, n: Assessment) {
    && !n.action.Hold?
    && (exists from :: from in candidates && Derived(n, from))
    && !(n.utilization > BLOCKING_UTILIZATION && IsReduction(n.action))
  }

  class Controller {
    const cfg: ControllerConfig
    const drainCfg: DrainConfig
    const cluster: Cluster
    const book: PoolBook
    const client: AsgClient
    const steerer: Steerer

    ghost function Snapshot(): World
      reads this, cluster, client
    {
      World(cluster.log, client.terminateCalls, client.asgs)
    }

    ghost predicate Valid()
      reads this, cluster, book, client, steerer
    {
      book.Valid() && client.Valid() && steerer.Valid() && steerer.cfg == cfg.karpenter && Safe(drainCfg, Snapshot())
    }

    constructor (cfg: ControllerConfig, drainCfg: DrainConfig)
      ensures Valid() && this.cfg == cfg && this.drainCfg == drainCfg
      ensures fresh(cluster) && fresh(book) && fresh(client) && fresh(steerer) && Snapshot() == World([], [], map[])
    {
      this.cfg, this.drainCfg := cfg, drainCfg;
      cluster := new Cluster();
      book := new PoolBook();
      client := new AsgClient();
      steerer := new Steerer(cfg.karpenter);
    }

    /** executeAction: one node, checked, guarded again, then drained and cleaned up. */
    method ExecuteAction(n: Assessment, ans: ExecAnswers)
      requires Valid() && OrderedDials(ans.runtimeCfg.dials)
      modifies cluster, book`targetSpotRatio, client
      ensures Valid()
      ensures Snapshot() == ExecOne(cfg, drainCfg, n, ans, old(Snapshot()))
      ensures book.targetSpotRatio == TargetsOne(cfg, n, ans, old(book.targetSpotRatio))
    {
      hide Guard, DrainTrace, CleanupTarget, PutTarget, Safe;
      ghost var w := Snapshot();
      assert Safe(drainCfg, ExecOne(cfg, drainCfg, n, ans, w)) by {
        ExecOneIsSafe(cfg, drainCfg, n, ans, w);
      }
      assert w.log + [] == w.log && w.calls + [] == w.calls;
      if ans.fetched.None? {
        return;
      }
      var obj := ans.fetched.value;
      if !obj.managed || obj.controlPlane || obj.fake || n.action.Hold? {
        return;
      }
      if IsIncrease(n.action) && obj.capacity.Spot? {
        return;
      }
      if IsReduction(n.action) && !obj.capacity.Spot? {
        return;
      }
      var g := ApplyActiveGuardrails(ans.view, cfg.maxDrainRatio, n);
      if !g.Allowed? {
        return;
      }
      book.ApplyTargetSpotRatio(obj.poolId, g.action, Some(ans.runtimeCfg), n.capacityScore < cfg.riskThreshold * 0.5);
      if !ans.hasDrainer || ans.monitoring {
        return;
      }
      var r, ok := cluster.Drain(drainCfg, n.node, ans.drain);
      ghost var t := DrainTrace(drainCfg, n.node, ans.drain);
      assert t.result.success ==> t.ok by {
        SuccessIsOk(drainCfg, n.node, ans.drain);
      }
      if ok && r.success && obj.asgManaged && !r.dryRun {
        var terminatedIn := PostDrainCleanup(client, obj.workloadPool, ans.cleanup);
        if terminatedIn.Some? {
          cluster.log := cluster.log + [Terminated(n.node, terminatedIn.value, ans.cleanup.instance)];
          assert cluster.log == w.log + (t.events + [Terminated(n.node, terminatedIn.value, ans.cleanup.instance)]);
          return;
        }
      }
      assert cluster.log == w.log + (t.events + []);
    }

    /** Step 6 of the tick: every surviving entry in order, errors of one node not stopping the next. */
    method ExecuteAll(nodes: seq<Assessment>, exec: nat -> ExecAnswers)
      requires Valid() && forall i :: OrderedDials(exec(i).runtimeCfg.dials)
      modifies cluster, book`targetSpotRatio, client
      ensures Valid()
      ensures Snapshot() == ExecFirst(cfg, drainCfg, nodes, exec, |nodes|, old(Snapshot()))
      ensures book.targetSpotRatio == TargetsAfter(cfg, nodes, exec, |nodes|, old(book.targetSpotRatio))
    {
      hide Safe, ExecOne, TargetsOne;
      ghost var w, targets := Snapshot(), book.targetSpotRatio;
      for i := 0 to |nodes|
        invariant Valid() && Snapshot() == ExecFirst(cfg, drainCfg, nodes, exec, i, w)
        invariant book.targetSpotRatio == TargetsAfter(cfg, nodes, exec, i, targets)
      {
        ExecuteAction(nodes[i], exec(i));
      }
    }

    /**
      One tick. guarded lists the entries that filtering, selection and the pre-check left; everything
      the tick does to the cluster, the groups, the weights and the targets is determined by them and
      by the answers.
     */
    method Tick(inp: TickInput) returns (ghost guarded: seq<Assessment>)
      requires Valid() && LegalInput(inp)
      modifies cluster, book, client, steerer
      ensures Valid() && ChosenFrom(cfg, inp, guarded)
      ensures Snapshot() == TickWorld(cfg, drainCfg, inp, guarded, old(Snapshot()))
      ensures |steerer.patches| >= |old(steerer.patches)| && steerer.patches[..|old(steerer.patches)|] == old(steerer.patches)
      ensures BatchPatches(cfg.karpenter, old(steerer.lastWeightChange), guarded, inp.labels, inp.steer,
                           steerer.patches[|old(steerer.patches)|..])
      ensures FollowsVotes(cfg.karpenter, guarded, inp.labels, steerer.patches[|old(steerer.patches)|..])
      ensures steerer.lastWeightChange
              == Recorded(cfg.karpenter, old(steerer.lastWeightChange), inp.steer, PoolsIn(guarded, inp.labels))
      ensures CountsOf(book.poolNodeCounts, inp.seen)
      ensures book.targetSpotRatio == TargetsAfter(cfg, guarded, inp.exec, |guarded|,
                                                   SeedTargets(old(book.targetSpotRatio), book.currentSpotRatio))
    {
      hide Safe, ExecOne, TargetsOne, ChosenFrom, BatchPatches, PreparedAll, Requests, CountsOf, SeedTargets, Recorded, AreChangesOf, PoolsIn, FollowsVotes,
           PreparationOf, ExecFirst, TargetsAfter;
      ghost var w := Snapshot();
      book.Observe(inp.seen);
      var chosen := Choose(cfg, inp);
      guarded := chosen;
      if chosen == [] {
        IdleTick(cfg, drainCfg, inp, w, steerer.lastWeightChange);
        assert steerer.patches[|steerer.patches|..] == [];
        return;
      }
      steerer.BatchSteer(chosen, inp.labels, inp.steer);
      var preps := PrepareCapacitySwaps(client, chosen, inp.objects, inp.swaps);
      assert Safe(drainCfg, Snapshot()) by {
        GroupsDoNotMatter(drainCfg, w, client.asgs);
      }
      ExecuteAll(chosen, inp.exec);
    }
  }

  lemma GroupsDoNotMatter(drainCfg: DrainConfig, w: World, g: Groups)
    requires Safe(drainCfg, w)
    ensures Safe(drainCfg, w.(groups := g))
  {
  }

  /** With nothing chosen, steering, preparing and executing the empty list is what returning early does. */
  lemma IdleTick(cfg: ControllerConfig, drainCfg: DrainConfig, inp: TickInput, w: World, was: map<string, int>)
    ensures TickWorld(cfg, drainCfg, inp, [], w) == w && forall targets :: TargetsAfter(cfg, [], inp.exec, 0, targets) == targets
    ensures FollowsVotes(cfg.karpenter, [], inp.labels, [])
    ensures BatchPatches(cfg.karpenter, was, [], inp.labels, inp.steer, []) && Recorded(cfg.karpenter, was, inp.steer, PoolsIn([], inp.labels)) == was
  {
    assert PreparedAll(w.groups, map[], inp.swaps) == w.groups;
  }

  // ----- whole runs

  function RunWorld(cfg: ControllerConfig, drainCfg: DrainConfig, inputs: seq<TickInput>, chosen: seq<seq<Assessment>>, n: nat, w: World): World
    requires n <= |inputs| && n <= |chosen|
  {
    if n == 0 then w
    else TickWorld(cfg, drainCfg, inputs[n - 1], chosen[n - 1], RunWorld(cfg, drainCfg, inputs, chosen, n - 1, w))
  }

  /** Any number of ticks with any answers, whatever entries each one chooses, keep the world safe. */
  lemma {:induction false} RunIsSafe(cfg: ControllerConfig, drainCfg: DrainConfig, inputs: seq<TickInput>, chosen: seq<seq<Assessment>>, n: nat, w: World)
    requires n <= |inputs| && n <= |chosen| && Safe(drainCfg, w)
    ensures Safe(drainCfg, RunWorld(cfg, drainCfg, inputs, chosen, n, w))
    ensures forall call :: call in RunWorld(cfg, drainCfg, inputs, chosen, n, w).calls ==>
              Backed(drainCfg, RunWorld(cfg, drainCfg, inputs, chosen, n, w).log, call)
              && EmptiedFirst(RunWorld(cfg, drainCfg, inputs, chosen, n, w).log, call)
  {
    hide ExecFirst, PreparedAll, Requests;
    if n > 0 {
      var before := RunWorld(cfg, drainCfg, inputs, chosen, n - 1, w);
      var inp, guarded := inputs[n - 1], chosen[n - 1];
      RunIsSafe(cfg, drainCfg, inputs, chosen, n - 1, w);
      var groups := PreparedAll(before.groups, Requests(inp.objects, guarded), inp.swaps);
      GroupsDoNotMatter(drainCfg, before, groups);
      ExecFirstIsSafe(cfg, drainCfg, guarded, inp.exec, |guarded|, before.(groups := groups));
    }
    var after := RunWorld(cfg, drainCfg, inputs, chosen, n, w);
    hide TerminationSafe, Backed, EmptiedFirst, CallsIn, RunWorld, SparesOthers;
    forall call | call in after.calls ensures Backed(drainCfg, after.log, call) && EmptiedFirst(after.log, call) {
      SafeCallsAreBacked(drainCfg, after.log, call);
      BackedMeansEmptied(drainCfg, after.log, call);
    }
  }

  lemma DryRunTick(cfg: ControllerConfig, drainCfg: DrainConfig, inp: TickInput, guarded: seq<Assessment>, w: World)
    requires drainCfg.dryRun
    ensures Harmless(w, TickWorld(cfg, drainCfg, inp, guarded, w))
    ensures TickWorld(cfg, drainCfg, inp, guarded, w).groups == PreparedAll(w.groups, Requests(inp.objects, guarded), inp.swaps)
  {
    hide ExecFirst, PreparedAll, Requests;
    var prepared := w.(groups := PreparedAll(w.groups, Requests(inp.objects, guarded), inp.swaps));
    DryRunExecutesNothing(cfg, drainCfg, guarded, inp.exec, |guarded|, prepared);
  }

  /** Any number of dry-run ticks terminate nothing and mutate no node. */
  lemma {:induction false} DryRunIsHarmless(cfg: ControllerConfig, drainCfg: DrainConfig, inputs: seq<TickInput>, chosen: seq<seq<Assessment>>, n: nat, w: World)
    requires n <= |inputs| && n <= |chosen| && drainCfg.dryRun
    ensures Harmless(w, RunWorld(cfg, drainCfg, inputs, chosen, n, w))
  {
    hide Harmless, TickWorld;
    if n == 0 {
      NoHarm(w);
    } else {
      var before := RunWorld(cfg, drainCfg, inputs, chosen, n - 1, w);
      DryRunIsHarmless(cfg, drainCfg, inputs, chosen, n - 1, w);
      DryRunTick(cfg, drainCfg, inputs[n - 1], chosen[n - 1], before);
      HarmlessJoins(w, before, TickWorld(cfg, drainCfg, inputs[n - 1], chosen[n - 1], before));
    }
  }

  /**
    Any number of ticks: the final state is that of the ticks in turn, and every instance the cloud
    was ever asked to terminate follows a complete drain of its node on the timeline.
   */
  method Run(c: Controller, inputs: seq<TickInput>) returns (ghost chosen: seq<seq<Assessment>>)
    requires c.Valid() && forall i :: 0 <= i < |inputs| ==> LegalInput(inputs[i])
    modifies c.cluster, c.book, c.client, c.steerer
    ensures c.Valid() && |chosen| == |inputs| && forall i :: 0 <= i < |inputs| ==> ChosenFrom(c.cfg, inputs[i], chosen[i])
    ensures c.Snapshot() == RunWorld(c.cfg, c.drainCfg, inputs, chosen, |inputs|, old(c.Snapshot()))
    ensures c.client.terminateCalls == CallsIn(c.cluster.log)
    ensures forall call :: call in c.client.terminateCalls ==> Backed(c.drainCfg, c.cluster.log, call) && EmptiedFirst(c.cluster.log, call)
    ensures SparesOthers(c.drainCfg, c.cluster.log)
    ensures c.drainCfg.dryRun ==> Harmless(old(c.Snapshot()), c.Snapshot())
  {
    hide Safe, ChosenFrom, TickWorld, Backed, EmptiedFirst, Harmless, LegalInput, BatchPatches, FollowsVotes, Recorded, PoolsIn, CountsOf, TargetsAfter, SeedTargets, CallsIn, SparesOthers;
    ghost var w := c.Snapshot();
    chosen := [];
    for i := 0 to |inputs|
      invariant c.Valid() && |chosen| == i && forall j :: 0 <= j < i ==> ChosenFrom(c.cfg, inputs[j], chosen[j])
      invariant c.Snapshot() == RunWorld(c.cfg, c.drainCfg, inputs, chosen, i, w)
    {
      ghost var guarded := c.Tick(inputs[i]);
      RunPrefix(c.cfg, c.drainCfg, inputs, chosen, guarded, i, w);
      chosen := chosen + [guarded];
    }
    RunIsSafe(c.cfg, c.drainCfg, inputs, chosen, |inputs|, w);
    if c.drainCfg.dryRun {
      DryRunIsHarmless(c.cfg, c.drainCfg, inputs, chosen, |inputs|, w);
    }
    assert c.client.terminateCalls == CallsIn(c.cluster.log) && SparesOthers(c.drainCfg, c.cluster.log) by {
      SafeCalls(c.drainCfg, c.Snapshot());
    }
  }

  lemma SafeCalls(drainCfg: DrainConfig, w: World)
    requires Safe(drainCfg, w)
    ensures w.calls == CallsIn(w.log) && SparesOthers(drainCfg, w.log)
  {
  }

  lemma {:induction false} RunPrefix(cfg: ControllerConfig, drainCfg: DrainConfig, inputs: seq<TickInput>, chosen: seq<seq<Assessment>>,
                                     guarded: seq<Assessment>, n: nat, w: World)
    requires n <= |inputs| && n <= |chosen|
    ensures RunWorld(cfg, drainCfg, inputs, chosen + [guarded], n, w) == RunWorld(cfg, drainCfg, inputs, chosen, n, w)
  {
    hide TickWorld;
    if n > 0 {
      RunPrefix(cfg, drainCfg, inputs, chosen, guarded, n - 1, w);
    }
  }

  lemma SuccessIsOk(cfg: DrainConfig, node: string, ans: DrainAnswers)
    ensures DrainTrace(cfg, node, ans).result.success ==> DrainTrace(cfg, node, ans).ok
  {
  }

  /** An entry that passed the pre-check with utilization above 0.95 is never still an emergency. */
  lemma {:induction false} GuardedIsNotBusyEmergency(nodes: seq<Assessment>, views: map<string, ClusterView>, ratio: real, n: Assessment)
    requires n in GuardAll(nodes, views, ratio)
    ensures !(n.utilization > BLOCKING_UTILIZATION && n.action.EmergencyExit?)
  {
    if nodes != [] {
      if nodes[0].node in views {
        GuardDerives(views[nodes[0].node], ratio, nodes[0]);
      }
      hide Guard;
      if n in GuardAll(nodes[1..], views, ratio) {
        GuardedIsNotBusyEmergency(nodes[1..], views, ratio, n);
      }
    }
  }

  lemma StartedIsPermitted(cfg: ControllerConfig, candidates: seq<Assessment>, k: nat, selected: seq<Assessment>, kept: seq<Assessment>,
                           deferred: seq<Assessment>, views: map<string, ClusterView>, started: seq<Assessment>, n: Assessment)
    requires IsSelection(candidates, k, selected, kept, deferred)
    requires StartedFrom(GuardAll(selected, views, cfg.maxDrainRatio), started) && n in started
    ensures Permitted(candidates, n)
  {
    GuardedIsNotBusyEmergency(selected, views, cfg.maxDrainRatio, n);
    GuardAllOnlyRemoves(selected, views, cfg.maxDrainRatio);
    hide GuardAll, Drains, Holds;
    var from :| from in selected && Derived(n, from);
    SelectedIsCandidate(candidates, k, selected, kept, deferred, from);
  }

  lemma SelectedIsCandidate(candidates: seq<Assessment>, k: nat, selected: seq<Assessment>, kept: seq<Assessment>,
                            deferred: seq<Assessment>, x: Assessment)
    requires IsSelection(candidates, k, selected, kept, deferred) && x in selected
    ensures x in candidates
  {
    hide Holds, Drains;
    DrainsMembers(candidates, x);
    if x in kept {
      assert x in multiset(kept + deferred);
      assert x in multiset(Drains(candidates));
    }
  }
}
