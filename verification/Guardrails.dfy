/**
  The five guardrails, applied to every action twice: before capacity is prepared and again just
  before the drain, each time against whatever the cluster answers at that moment.
 */
module Guardrails {
  import opened Wrappers
  import opened Actions
  import opened DrainSelection

  datatype PdbAnswer = LookupFailed | NoPdb | Matched(disruptionsAllowed: int)

  datatype PodFacts = PodFacts(pdb: PdbAnswer, critical: bool, gracefulOnly: bool)

  /** What the API answers to one check: all nodes' Spot flags, and the node's pods listed twice; None is an API error. */
  datatype ClusterView = ClusterView(
    spotFlags: Option<seq<bool>>, podsForPdb: Option<seq<PodFacts>>, podsForCritical: Option<seq<PodFacts>>)

  /** guardrail names the check that decided, "" when none did. */
  datatype Verdict = Verdict(approved: bool, modified: Action, guardrail: string)

  const CONFIDENCE_THRESHOLD := 0.50
  const HIGH_UTILIZATION := 0.85
  const BLOCKING_UTILIZATION := 0.95

  // ----- the single checks

  function SpotCount(flags: seq<bool>): nat {
    if flags == [] then 0 else SpotCount(flags[..|flags| - 1]) + if flags[|flags| - 1] then 1 else 0
  }

  function FractionLimit(maxDrainRatio: real): real {
    if maxDrainRatio <= 0.0 then 0.20 else maxDrainRatio
  }

  predicate FractionAllows(flags: seq<bool>, limit: real) {
    SpotCount(flags) == 0 || 1.0 / SpotCount(flags) as real <= limit
  }

  predicate PdbBlocks(pods: seq<PodFacts>) {
    exists p :: p in pods && p.pdb == Matched(0)
  }

  predicate NeedsGrace(pods: seq<PodFacts>) {
    exists p :: p in pods && (p.critical || p.gracefulOnly)
  }

  method CheckClusterFraction(flags: seq<bool>, limit: real) returns (approved: bool)
    ensures approved == FractionAllows(flags, limit)
  {
    var clusterSize := 0;
    for i := 0 to |flags|
      invariant clusterSize == SpotCount(flags[..i])
    {
      assert flags[..i + 1][..i] == flags[..i];
      if flags[i] {
        clusterSize := clusterSize + 1;
      }
    }
    assert flags[..|flags|] == flags;
    approved := clusterSize == 0 || !(1.0 / clusterSize as real > limit);
  }

  method CheckPdb(pods: seq<PodFacts>) returns (downgrade: bool)
    ensures downgrade == PdbBlocks(pods)
  {
    for i := 0 to |pods|
      invariant !PdbBlocks(pods[..i])
    {
      if pods[i].pdb.Matched? && pods[i].pdb.disruptionsAllowed == 0 {
        assert pods[i] in pods;
        return true;
      }
      assert pods[..i + 1] == pods[..i] + [pods[i]];
    }
    assert pods[..|pods|] == pods;
    return false;
  }

  method CheckCritical(pods: seq<PodFacts>) returns (downgrade: bool)
    ensures downgrade == NeedsGrace(pods)
  {
    for i := 0 to |pods|
      invariant !NeedsGrace(pods[..i])
    {
      assert pods[i] in pods;
      if pods[i].critical {
        return true;
      }
      if pods[i].gracefulOnly {
        return true;
      }
      assert pods[..i + 1] == pods[..i] + [pods[i]];
    }
    assert pods[..|pods|] == pods;
    return false;
  }

  /** checkHighUtilization */
  function UtilizationVerdict(util: real, a: Action): Verdict {
    if a.Hold? || IsIncrease(a) || util <= HIGH_UTILIZATION then Verdict(true, a, "high_utilization")
    else if a.EmergencyExit? then Verdict(true, Decrease30, "high_utilization")
    else if util > BLOCKING_UTILIZATION then Verdict(false, Hold, "high_utilization")
    else Verdict(true, a, "high_utilization")
  }

  // ----- the chain

  /** Check as a value; None is an API error. A blocked verdict carries the zero action, HOLD. */
  function Judge(v: ClusterView, limit: real, a: Action, confidence: real, util: real): Option<Verdict> {
    if a.Hold? then Some(Verdict(true, a, ""))
    else if v.spotFlags.None? then None
    else if !FractionAllows(v.spotFlags.value, limit) then Some(Verdict(false, Hold, "cluster_fraction"))
    else if confidence < CONFIDENCE_THRESHOLD then Some(Verdict(false, Hold, "low_confidence"))
    else if a.EmergencyExit? && v.podsForPdb.None? then None
    else if a.EmergencyExit? && PdbBlocks(v.podsForPdb.value) then Some(Verdict(true, Decrease30, "pdb"))
    else if a.EmergencyExit? && v.podsForCritical.None? then None
    else if a.EmergencyExit? && NeedsGrace(v.podsForCritical.value) then Some(Verdict(true, Decrease30, "critical_workload"))
    else
      var u := UtilizationVerdict(util, a);
      if !u.approved || u.modified != a then Some(u) else Some(Verdict(true, a, ""))
  }

  method Check(v: ClusterView, limit: real, a: Action, confidence: real, util: real) returns (r: Option<Verdict>)
    ensures r == Judge(v, limit, a, confidence, util)
  {
    if a.Hold? {
      return Some(Verdict(true, a, ""));
    }
    if v.spotFlags.None? {
      return None;
    }
    var withinFraction := CheckClusterFraction(v.spotFlags.value, limit);
    if !withinFraction {
      return Some(Verdict(false, Hold, "cluster_fraction"));
    }
    if confidence < CONFIDENCE_THRESHOLD {
      return Some(Verdict(false, Hold, "low_confidence"));
    }
    if a.EmergencyExit? {
      if v.podsForPdb.None? {
        return None;
      }
      var pdb := CheckPdb(v.podsForPdb.value);
      if pdb {
        return Some(Verdict(true, Decrease30, "pdb"));
      }
      if v.podsForCritical.None? {
        return None;
      }
      var critical := CheckCritical(v.podsForCritical.value);
      if critical {
        return Some(Verdict(true, Decrease30, "critical_workload"));
      }
    }
    var u := UtilizationVerdict(util, a);
    if !u.approved || u.modified != a {
      return Some(u);
    }
    return Some(Verdict(true, a, ""));
  }

  // ----- when each verdict is given, on the fields of the view

  lemma {:induction false} SpotCountMeaning(flags: seq<bool>)
    ensures SpotCount(flags) == |set i | 0 <= i < |flags| && flags[i]|
  {
    var all := set i | 0 <= i < |flags| && flags[i];
    if flags == [] {
      assert all == {};
    } else {
      var n := |flags| - 1;
      var front := set i | 0 <= i < n && flags[..n][i];
      SpotCountMeaning(flags[..n]);
      assert all == front + if flags[n] then {n} else {};
    }
  }

  /** Draining one of the Spot nodes takes at most the given share of them. */
  ghost predicate ShareFits(v: ClusterView, share: real) {
    v.spotFlags.Some? &&
    var n := |set i | 0 <= i < |v.spotFlags.value| && v.spotFlags.value[i]|;
    n == 0 || 1.0 / n as real <= share
  }

  /** Some pod on the node has a disruption budget with nothing left. */
  ghost predicate BudgetSpent(v: ClusterView) {
    v.podsForPdb.Some? && exists p :: p in v.podsForPdb.value && p.pdb.Matched? && p.pdb.disruptionsAllowed == 0
  }

  /** Some pod on the node is critical or to be moved gracefully only. */
  ghost predicate AsksForGrace(v: ClusterView) {
    v.podsForCritical.Some? && exists p :: p in v.podsForCritical.value && (p.critical || p.gracefulOnly)
  }

  /** The share guardrail's limit: the configured ratio, or a fifth when none is configured. */
  lemma ShareLimit(maxDrainRatio: real)
    ensures maxDrainRatio > 0.0 ==> FractionLimit(maxDrainRatio) == maxDrainRatio
    ensures maxDrainRatio <= 0.0 ==> FractionLimit(maxDrainRatio) == 0.20
  {
  }

  /**
    Exactly when the guardrails approve, rewrite, block or fail, for each kind of action. All five
    appear: the Spot share, the confidence, the budgets, the critical pods and the utilization.
   */
  lemma CheckByVerdict(v: ClusterView, limit: real, a: Action, confidence: real, util: real)
    ensures var r := Judge(v, limit, a, confidence, util);
            var sound := ShareFits(v, limit) && confidence >= 0.50;
            && (a == Hold ==> r.Some? && r.value.approved && r.value.modified == Hold)
            && (a == EmergencyExit ==>
                  && (r.None? <==> v.spotFlags.None? || (sound && (v.podsForPdb.None? || (!BudgetSpent(v) && v.podsForCritical.None?))))
                  && (r.Some? && !r.value.approved <==> v.spotFlags.Some? && !sound)
                  && (r.Some? && r.value.approved && r.value.modified == EmergencyExit <==>
                      sound && v.podsForPdb.Some? && v.podsForCritical.Some? && !BudgetSpent(v) && !AsksForGrace(v) && util <= 0.85)
                  && (r.Some? && r.value.approved && r.value.modified == Decrease30 <==>
                      sound && v.podsForPdb.Some? && (BudgetSpent(v) || (v.podsForCritical.Some? && (AsksForGrace(v) || util > 0.85)))))
            && (a == Decrease10 || a == Decrease30 ==>
                  && (r.None? <==> v.spotFlags.None?)
                  && (r.Some? && r.value.approved <==> sound && util <= 0.95)
                  && (r.Some? && r.value.approved ==> r.value.modified == a))
            && (a == Increase10 || a == Increase30 ==>
                  && (r.None? <==> v.spotFlags.None?)
                  && (r.Some? && r.value.approved <==> sound)
                  && (r.Some? && r.value.approved ==> r.value.modified == a))
  {
    if v.spotFlags.Some? {
      SpotCountMeaning(v.spotFlags.value);
    }
    hide SpotCount;
    assert v.podsForPdb.Some? ==> (PdbBlocks(v.podsForPdb.value) <==> BudgetSpent(v));
    assert v.podsForCritical.Some? ==> (NeedsGrace(v.podsForCritical.value) <==> AsksForGrace(v));
    assert v.spotFlags.Some? ==> (FractionAllows(v.spotFlags.value, limit) <==> ShareFits(v, limit));
    hide PdbBlocks, NeedsGrace, FractionAllows, BudgetSpent, AsksForGrace, ShareFits;
  }

  // ----- what one check may do

  /** An approved verdict keeps the action or softens an emergency to DECREASE_30; nothing else. */
  lemma CheckOnlySoftens(v: ClusterView, limit: real, a: Action, confidence: real, util: real)
    ensures var r := Judge(v, limit, a, confidence, util);
            r.Some? && r.value.approved ==>
              && (r.value.modified == a || (a.EmergencyExit? && r.value.modified.Decrease30?))
              && Severity(r.value.modified) <= Severity(a)
              && IsReduction(r.value.modified) == IsReduction(a)
              && IsIncrease(r.value.modified) == IsIncrease(a)
  {
  }

  /**
    Checking an approved result again against the same answers never rewrites it, and blocks it
    exactly when an emergency had been softened under utilization above 0.95.
   */
  lemma Recheck(v: ClusterView, limit: real, a: Action, confidence: real, util: real)
    requires var r := Judge(v, limit, a, confidence, util); r.Some? && r.value.approved
    ensures var m := Judge(v, limit, a, confidence, util).value.modified;
            var again := Judge(v, limit, m, confidence, util);
            && again.Some?
            && (again.value.approved ==> again.value.modified == m)
            && (!again.value.approved <==> a.EmergencyExit? && m.Decrease30? && util > BLOCKING_UTILIZATION)
  {
  }

  // ----- the controller's use of it

  datatype Guarded = GuardError | Blocked | Allowed(action: Action)

  /** applyActiveGuardrails */
  function Guard(v: ClusterView, maxDrainRatio: real, n: Assessment): Guarded {
    match Judge(v, FractionLimit(maxDrainRatio), n.action, n.confidence, n.utilization)
    case None => GuardError
    case Some(r) => if r.approved then Allowed(r.modified) else Blocked
  }

  method ApplyActiveGuardrails(v: ClusterView, maxDrainRatio: real, n: Assessment) returns (g: Guarded)
    ensures g == Guard(v, maxDrainRatio, n)
  {
    var r := Check(v, FractionLimit(maxDrainRatio), n.action, n.confidence, n.utilization);
    if r.None? {
      return GuardError;
    }
    if !r.value.approved {
      return Blocked;
    }
    return Allowed(r.value.modified);
  }

  /** applyGuardrailsBeforePrep; views holds the answers for each node that can be fetched. */
  function GuardAll(nodes: seq<Assessment>, views: map<string, ClusterView>, maxDrainRatio: real): seq<Assessment> {
    if nodes == [] then []
    else
      var rest := GuardAll(nodes[1..], views, maxDrainRatio);
      if nodes[0].node !in views then rest
      else
        match Guard(views[nodes[0].node], maxDrainRatio, nodes[0])
        case Allowed(a) => [nodes[0].(action := a)] + rest
        case Blocked => rest
        case GuardError => rest
  }

  lemma {:induction false} GuardAllConcat(a: seq<Assessment>, b: seq<Assessment>, views: map<string, ClusterView>, maxDrainRatio: real)
    ensures GuardAll(a + b, views, maxDrainRatio) == GuardAll(a, views, maxDrainRatio) + GuardAll(b, views, maxDrainRatio)
  {
    hide Guard;
    if a == [] {
      assert a + b == b;
    } else {
      assert (a + b)[1..] == a[1..] + b;
      GuardAllConcat(a[1..], b, views, maxDrainRatio);
    }
  }

  method ApplyGuardrailsBeforePrep(nodes: seq<Assessment>, views: map<string, ClusterView>, maxDrainRatio: real)
    returns (filtered: seq<Assessment>)
    ensures filtered == GuardAll(nodes, views, maxDrainRatio)
  {
    hide Guard;
    filtered := [];
    for i := 0 to |nodes|
      invariant filtered == GuardAll(nodes[..i], views, maxDrainRatio)
    {
      var n := nodes[i];
      assert nodes[..i + 1] == nodes[..i] + [n];
      GuardAllConcat(nodes[..i], [n], views, maxDrainRatio);
      if n.node in views {
        var g := ApplyActiveGuardrails(views[n.node], maxDrainRatio, n);
        if g.Allowed? {
          filtered := filtered + [n.(action := g.action)];
        }
      }
    }
    assert nodes[..|nodes|] == nodes;
  }

  /** Every surviving entry is an entry of the input, possibly an emergency softened to DECREASE_30. */
  ghost predicate Derived(n: Assessment, from: Assessment) {
    n == from || (from.action.EmergencyExit? && n == from.(action := Decrease30))
  }

  /** What the list pass keeps: exactly the entries whose node can be fetched and that the guardrails approve, as approved. */
  lemma {:induction false} GuardAllIff(nodes: seq<Assessment>, views: map<string, ClusterView>, maxDrainRatio: real, x: Assessment)
    ensures x in GuardAll(nodes, views, maxDrainRatio) <==>
            exists n :: n in nodes && n.node in views && ApprovedAs(views[n.node], maxDrainRatio, n, x)
  {
    hide ApprovedAs, Guard;
    if nodes != [] {
      GuardAllIff(nodes[1..], views, maxDrainRatio, x);
      assert forall n :: n in nodes <==> n == nodes[0] || n in nodes[1..];
      if nodes[0].node in views {
        ApprovedAsGuarded(views[nodes[0].node], maxDrainRatio, nodes[0], x);
      }
    }
  }

  /** The guardrails approve n, and x is n with the action they leave. */
  ghost predicate ApprovedAs(v: ClusterView, maxDrainRatio: real, n: Assessment, x: Assessment) {
    var r := Judge(v, FractionLimit(maxDrainRatio), n.action, n.confidence, n.utilization);
    r.Some? && r.value.approved && x == n.(action := r.value.modified)
  }

  lemma ApprovedAsGuarded(v: ClusterView, maxDrainRatio: real, n: Assessment, x: Assessment)
    ensures ApprovedAs(v, maxDrainRatio, n, x) <==>
            Guard(v, maxDrainRatio, n).Allowed? && x == n.(action := Guard(v, maxDrainRatio, n).action)
  {
    hide Judge;
  }

  lemma GuardDerives(v: ClusterView, maxDrainRatio: real, n: Assessment)
    ensures Guard(v, maxDrainRatio, n).Allowed? ==> Derived(n.(action := Guard(v, maxDrainRatio, n).action), n)
    ensures Guard(v, maxDrainRatio, n).Allowed? && n.utilization > BLOCKING_UTILIZATION && IsReduction(n.action) ==>
              n.action.EmergencyExit? && Guard(v, maxDrainRatio, n).action.Decrease30?
  {
    CheckOnlySoftens(v, FractionLimit(maxDrainRatio), n.action, n.confidence, n.utilization);
  }

  /** The pre-check never turns a HOLD into a drain, never invents an entry, and never adds drains. */
  lemma {:induction false} GuardAllOnlyRemoves(nodes: seq<Assessment>, views: map<string, ClusterView>, maxDrainRatio: real)
    ensures |Drains(GuardAll(nodes, views, maxDrainRatio))| <= |Drains(nodes)|
    ensures forall n :: n in GuardAll(nodes, views, maxDrainRatio) ==> exists from :: from in nodes && Derived(n, from)
  {
    if nodes != [] {
      var rest := GuardAll(nodes[1..], views, maxDrainRatio);
      GuardAllOnlyRemoves(nodes[1..], views, maxDrainRatio);
      if nodes[0].node in views {
        GuardDerives(views[nodes[0].node], maxDrainRatio, nodes[0]);
      }
      hide Guard;
      forall n | n in GuardAll(nodes, views, maxDrainRatio) ensures exists from :: from in nodes && Derived(n, from) {
        if n in rest {
          var from :| from in nodes[1..] && Derived(n, from);
          assert from in nodes;
        } else {
          assert Derived(n, nodes[0]);
        }
      }
    }
  }

  /**
    Two passes, with arbitrary cluster changes in between: no reduction carrying utilization above
    0.95 survives both.
   */
  lemma BusyReductionNeverPassesTwice(v1: ClusterView, v2: ClusterView, maxDrainRatio: real, n: Assessment)
    requires n.utilization > BLOCKING_UTILIZATION && IsReduction(n.action) && Guard(v1, maxDrainRatio, n).Allowed?
    ensures !Guard(v2, maxDrainRatio, n.(action := Guard(v1, maxDrainRatio, n).action)).Allowed?
  {
    GuardDerives(v1, maxDrainRatio, n);
  }
}
