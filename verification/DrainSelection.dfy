/**
  Thundering-herd protection: which of the actionable nodes may be drained this tick.

  Candidates are exchange-sorted in place, emergencies first and then by capacity score, and
  truncated to the limit; HOLD entries only steer capacity and pass through untouched.
 */
module DrainSelection {
  import opened Sorting
  import opened Actions
  import opened PoolBooks
  import opened NodePoolBudgets

  predicate Outranks(x: Assessment, y: Assessment) {
    || (x.action.EmergencyExit? && !y.action.EmergencyExit?)
    || (x.action.EmergencyExit? == y.action.EmergencyExit? && x.capacityScore > y.capacityScore)
  }

  function Holds(nodes: seq<Assessment>): seq<Assessment> {
    if nodes == [] then [] else (if nodes[0].action.Hold? then [nodes[0]] else []) + Holds(nodes[1..])
  }

  function Drains(nodes: seq<Assessment>): seq<Assessment> {
    if nodes == [] then [] else (if nodes[0].action.Hold? then [] else [nodes[0]]) + Drains(nodes[1..])
  }

  lemma {:induction false} HoldsConcat(a: seq<Assessment>, b: seq<Assessment>)
    ensures Holds(a + b) == Holds(a) + Holds(b)
  {
    if a == [] {
      assert a + b == b;
    } else {
      var head := if a[0].action.Hold? then [a[0]] else [];
      assert (a + b)[1..] == a[1..] + b;
      HoldsConcat(a[1..], b);
      assert Holds(a) == head + Holds(a[1..]) && Holds(a + b) == head + Holds(a[1..] + b);
    }
  }

  lemma {:induction false} DrainsConcat(a: seq<Assessment>, b: seq<Assessment>)
    ensures Drains(a + b) == Drains(a) + Drains(b)
  {
    if a == [] {
      assert a + b == b;
    } else {
      var head := if a[0].action.Hold? then [] else [a[0]];
      assert (a + b)[1..] == a[1..] + b;
      DrainsConcat(a[1..], b);
      assert Drains(a) == head + Drains(a[1..]) && Drains(a + b) == head + Drains(a[1..] + b);
    }
  }

  // ----- the exchange sort

  /** The first i positions are final: nothing later outranks them. */
  ghost predicate Settled(s: seq<Assessment>, i: int) {
    forall p, q :: 0 <= p < i && p < q < |s| ==> !Outranks(s[q], s[p])
  }

  ghost predicate Leads(s: seq<Assessment>, i: int, j: int) {
    forall q :: i < q < j && 0 <= i && q < |s| ==> !Outranks(s[q], s[i])
  }

  ghost function Swapped(s: seq<Assessment>, i: int, j: int): seq<Assessment>
    requires 0 <= i < |s| && 0 <= j < |s|
  {
    s[i := s[j]][j := s[i]]
  }

  lemma SwapIsPermutation(s: seq<Assessment>, i: int, j: int)
    requires 0 <= i < j < |s|
    ensures multiset(Swapped(s, i, j)) == multiset(s)
  {
    var mid := s[i + 1..j];
    assert s == s[..i] + [s[i]] + mid + [s[j]] + s[j + 1..];
    assert Swapped(s, i, j) == s[..i] + [s[j]] + mid + [s[i]] + s[j + 1..];
  }

  lemma SwapKeepsSettled(s: seq<Assessment>, i: int, j: int)
    requires 0 <= i < j < |s| && Settled(s, i) && Leads(s, i, j) && Outranks(s[j], s[i])
    ensures Settled(Swapped(s, i, j), i) && Leads(Swapped(s, i, j), i, j + 1)
  {
    var t := Swapped(s, i, j);
    forall p, q | 0 <= p < i && p < q < |t| ensures !Outranks(t[q], t[p]) {
      var q' := if q == i then j else if q == j then i else q;
      assert t[q] == s[q'] && t[p] == s[p];
    }
    forall q | i < q < j + 1 ensures !Outranks(t[q], t[i]) {
      if q < j {
        assert t[q] == s[q] && !Outranks(s[q], s[i]);
      }
    }
  }

  method ExchangeSort(a: array<Assessment>)
    modifies a
    ensures Settled(a[..], a.Length) && multiset(a[..]) == multiset(old(a[..]))
  {
    var i := 0;
    while i < a.Length - 1
      invariant 0 <= i <= a.Length
      invariant Settled(a[..], i) && multiset(a[..]) == multiset(old(a[..]))
      decreases a.Length - i
    {
      var j := i + 1;
      while j < a.Length
        invariant i < j <= a.Length
        invariant Settled(a[..], i) && Leads(a[..], i, j) && multiset(a[..]) == multiset(old(a[..]))
      {
        ghost var s := a[..];
        if Outranks(a[j], a[i]) {
          SwapIsPermutation(s, i, j);
          SwapKeepsSettled(s, i, j);
          a[i], a[j] := a[j], a[i];
          assert a[..] == Swapped(s, i, j);
        }
        j := j + 1;
      }
      LeaderSettles(a[..], i);
      i := i + 1;
    }
    assert Settled(a[..], a.Length);
  }

  lemma LeaderSettles(s: seq<Assessment>, i: int)
    requires 0 <= i < |s| && Settled(s, i) && Leads(s, i, |s|)
    ensures Settled(s, i + 1)
  {
  }

  // ----- the limit

  /** Karpenter is None when the integration is off. */
  datatype LimitView = NoKarpenter | WithKarpenter(view: KarpenterView)

  function NodeIds(nodes: seq<Assessment>): seq<string> {
    seq(|nodes|, i requires 0 <= i < |nodes| => nodes[i].node)
  }

  /** k is the number of drains the tick may keep: the configured share, or a tighter disruption budget. */
  ghost predicate IsLimit(lv: LimitView, nodes: seq<Assessment>, totalNodes: nat, ratio: real, k: int) {
    var config := DrainLimit(totalNodes, ratio);
    match lv
    case NoKarpenter => k == config
    case WithKarpenter(v) =>
      exists m :: IsTightest(PoolLimits(v, CandidatePools(v, NodeIds(Drains(nodes))), totalNodes), m)
                  && k == if 0 <= m < config then m else config
  }

  lemma LimitIsWithinShare(lv: LimitView, nodes: seq<Assessment>, totalNodes: nat, ratio: real, k: int)
    requires IsLimit(lv, nodes, totalNodes, ratio, k)
    ensures k <= DrainLimit(totalNodes, ratio)
  {
  }

  /** out keeps every HOLD in order, then the best k candidates; nothing deferred outranks anything kept. */
  ghost predicate IsSelection(nodes: seq<Assessment>, k: int, out: seq<Assessment>, kept: seq<Assessment>, deferred: seq<Assessment>) {
    && out == Holds(nodes) + kept
    && multiset(kept + deferred) == multiset(Drains(nodes))
    && Settled(kept + deferred, |kept + deferred|)
    && |kept| == (if k <= |Drains(nodes)| then k else |Drains(nodes)|)
  }

  method ApplyDrainLimit(nodes: seq<Assessment>, totalNodes: nat, ratio: real, lv: LimitView)
    returns (out: seq<Assessment>, ghost k: int, ghost kept: seq<Assessment>, ghost deferred: seq<Assessment>)
    ensures IsLimit(lv, nodes, totalNodes, ratio, k) && k >= 0
    ensures IsSelection(nodes, k, out, kept, deferred)
    ensures Holds(out) == Holds(nodes) && |Drains(out)| <= DrainLimit(totalNodes, ratio)
  {
    var capacityOnly, drainNodes := SplitByAction(nodes);
    var sorted := SortedCandidates(drainNodes);
    var maxDrain := LimitFor(lv, sorted, nodes, totalNodes, ratio);
    k := maxDrain;
    var keep := if |sorted| > maxDrain then sorted[..maxDrain] else sorted;
    kept, deferred := keep, sorted[|keep|..];
    hide Holds, Drains, Outranks, IsLimit;
    assert kept + deferred == sorted;
    MultisetMembers(sorted, drainNodes);
    out := capacityOnly + keep;
    SelectionIsTopK(nodes, k, out, kept, deferred);
    assert k <= DrainLimit(totalNodes, ratio) by { LimitIsWithinShare(lv, nodes, totalNodes, ratio, k); }
  }

  method SplitByAction(nodes: seq<Assessment>) returns (capacityOnly: seq<Assessment>, drainNodes: seq<Assessment>)
    ensures capacityOnly == Holds(nodes) && drainNodes == Drains(nodes)
  {
    capacityOnly, drainNodes := [], [];
    for i := 0 to |nodes|
      invariant capacityOnly == Holds(nodes[..i]) && drainNodes == Drains(nodes[..i])
    {
      assert nodes[..i + 1] == nodes[..i] + [nodes[i]];
      HoldsConcat(nodes[..i], [nodes[i]]);
      DrainsConcat(nodes[..i], [nodes[i]]);
      if nodes[i].action.Hold? {
        capacityOnly := capacityOnly + [nodes[i]];
      } else {
        drainNodes := drainNodes + [nodes[i]];
      }
    }
    assert nodes[..|nodes|] == nodes;
  }

  method SortedCandidates(drainNodes: seq<Assessment>) returns (sorted: seq<Assessment>)
    ensures Settled(sorted, |sorted|) && multiset(sorted) == multiset(drainNodes)
  {
    var a := new Assessment[|drainNodes|](i requires 0 <= i < |drainNodes| => drainNodes[i]);
    assert a[..] == drainNodes;
    ExchangeSort(a);
    sorted := a[..];
  }

  method LimitFor(lv: LimitView, sorted: seq<Assessment>, ghost nodes: seq<Assessment>, totalNodes: nat, ratio: real) returns (k: nat)
    requires multiset(sorted) == multiset(Drains(nodes))
    ensures IsLimit(lv, nodes, totalNodes, ratio, k)
  {
    k := DrainLimit(totalNodes, ratio);
    if lv.WithKarpenter? {
      var m := KarpenterDisruptionLimit(lv.view, NodeIds(sorted), totalNodes);
      SameCandidatePools(lv.view, sorted, Drains(nodes));
      if 0 <= m < k {
        k := m;
      }
    }
  }

  lemma SameCandidatePools(v: KarpenterView, a: seq<Assessment>, b: seq<Assessment>)
    requires multiset(a) == multiset(b)
    ensures CandidatePools(v, NodeIds(a)) == CandidatePools(v, NodeIds(b))
  {
    MultisetMembers(a, b);
    forall n ensures n in NodeIds(a) <==> n in NodeIds(b) {
      if n in NodeIds(a) {
        var i :| 0 <= i < |a| && NodeIds(a)[i] == n;
        assert a[i] in b;
        var j :| 0 <= j < |b| && b[j] == a[i];
        assert NodeIds(b)[j] == n;
      }
      if n in NodeIds(b) {
        var i :| 0 <= i < |b| && NodeIds(b)[i] == n;
        assert b[i] in a;
        var j :| 0 <= j < |a| && a[j] == b[i];
        assert NodeIds(a)[j] == n;
      }
    }
  }

  // ----- what a selection guarantees

  lemma {:induction false} DrainsMembers(nodes: seq<Assessment>, x: Assessment)
    ensures x in Drains(nodes) <==> x in nodes && !x.action.Hold?
    ensures x in Holds(nodes) <==> x in nodes && x.action.Hold?
  {
    if nodes != [] {
      DrainsMembers(nodes[1..], x);
    }
  }

  /** Exactly min(k, candidates) drains are kept, and no deferred node outranks a kept one. */
  lemma SelectionIsTopK(nodes: seq<Assessment>, k: nat, out: seq<Assessment>, kept: seq<Assessment>, deferred: seq<Assessment>)
    requires IsSelection(nodes, k, out, kept, deferred)
    ensures |kept| == if k <= |Drains(nodes)| then k else |Drains(nodes)|
    ensures Drains(out) == kept && Holds(out) == Holds(nodes)
    ensures forall x, y :: x in kept && y in deferred ==> !Outranks(y, x)
  {
    MultisetMembers(kept + deferred, Drains(nodes));
    forall x, y | x in kept && y in deferred ensures !Outranks(y, x) {
      var i :| 0 <= i < |kept| && kept[i] == x;
      var j :| 0 <= j < |deferred| && deferred[j] == y;
      assert (kept + deferred)[i] == x && (kept + deferred)[|kept| + j] == y;
    }
    forall x | x in kept ensures !x.action.Hold? {
      assert x in kept + deferred;
      DrainsMembers(nodes, x);
    }
    forall x | x in Holds(nodes) ensures x.action.Hold? {
      DrainsMembers(nodes, x);
    }
    HoldsConcat(Holds(nodes), kept);
    DrainsConcat(Holds(nodes), kept);
    AllHold(Holds(nodes));
    NoneHold(kept);
  }

  /** In the nodes' own terms: emergencies are kept before anything else, and the riskier node before the safer one. */
  lemma KeptComeFirst(nodes: seq<Assessment>, k: nat, out: seq<Assessment>, kept: seq<Assessment>, deferred: seq<Assessment>,
                      x: Assessment, y: Assessment)
    requires IsSelection(nodes, k, out, kept, deferred) && x in kept && y in deferred
    ensures y.action == EmergencyExit ==> x.action == EmergencyExit
    ensures (x.action == EmergencyExit <==> y.action == EmergencyExit) ==> x.capacityScore >= y.capacityScore
  {
    assert !Outranks(y, x) by {
      hide IsSelection, Outranks;
      SelectionIsTopK(nodes, k, out, kept, deferred);
    }
    hide IsSelection;
  }

  lemma {:induction false} AllHold(s: seq<Assessment>)
    requires forall x :: x in s ==> x.action.Hold?
    ensures Holds(s) == s && Drains(s) == []
  {
    if s != [] {
      assert s[0] in s && s == [s[0]] + s[1..];
      assert forall x :: x in s[1..] ==> x in s;
      AllHold(s[1..]);
    }
  }

  lemma {:induction false} NoneHold(s: seq<Assessment>)
    requires forall x :: x in s ==> !x.action.Hold?
    ensures Drains(s) == s && Holds(s) == []
  {
    if s != [] {
      assert s[0] in s && s == [s[0]] + s[1..];
      assert forall x :: x in s[1..] ==> x in s;
      NoneHold(s[1..]);
    }
  }

  function CountEmergencies(s: seq<Assessment>): nat {
    if s == [] then 0 else (if s[0].action.EmergencyExit? then 1 else 0) + CountEmergencies(s[1..])
  }

  lemma {:induction false} CountConcat(a: seq<Assessment>, b: seq<Assessment>)
    ensures CountEmergencies(a + b) == CountEmergencies(a) + CountEmergencies(b)
  {
    if a == [] {
      assert a + b == b;
    } else {
      assert (a + b)[1..] == a[1..] + b;
      CountConcat(a[1..], b);
    }
  }

  lemma {:induction false} CountOfPermutation(a: seq<Assessment>, b: seq<Assessment>)
    requires multiset(a) == multiset(b)
    ensures CountEmergencies(a) == CountEmergencies(b)
  {
    MultisetMembers(a, b);
    if a != [] {
      var i := RemoveHead(a, b);
      CountOfPermutation(a[1..], b[..i] + b[i + 1..]);
      assert b == b[..i] + ([b[i]] + b[i + 1..]);
      CountConcat(b[..i], [b[i]] + b[i + 1..]);
      CountConcat(b[..i], b[i + 1..]);
      assert ([b[i]] + b[i + 1..])[1..] == b[i + 1..];
    }
  }

  lemma {:induction false} CountAll(s: seq<Assessment>)
    requires forall x :: x in s ==> x.action.EmergencyExit?
    ensures CountEmergencies(s) == |s|
  {
    if s != [] {
      assert s[0] in s;
      CountAll(s[1..]);
    }
  }

  lemma {:induction false} CountSome(s: seq<Assessment>, x: Assessment)
    requires x in s && x.action.EmergencyExit?
    ensures CountEmergencies(s) >= 1
  {
    if !s[0].action.EmergencyExit? {
      CountSome(s[1..], x);
    }
  }

  lemma DeferredEmergencyFillsKept(kept: seq<Assessment>, deferred: seq<Assessment>, e: Assessment)
    requires e in deferred && e.action.EmergencyExit?
    requires forall x, y :: x in kept && y in deferred ==> !Outranks(y, x)
    ensures CountEmergencies(kept + deferred) > |kept|
  {
    forall x | x in kept ensures x.action.EmergencyExit? {
      assert !Outranks(e, x);
    }
    CountAll(kept);
    CountSome(deferred, e);
    CountConcat(kept, deferred);
  }

  /** If the limit leaves room for every emergency, no emergency is ever deferred. */
  lemma EmergenciesAreNeverCrowdedOut(nodes: seq<Assessment>, k: nat, out: seq<Assessment>, kept: seq<Assessment>, deferred: seq<Assessment>, e: Assessment)
    requires IsSelection(nodes, k, out, kept, deferred)
    requires CountEmergencies(Drains(nodes)) <= k && e in nodes && e.action.EmergencyExit?
    ensures e in kept
  {
    hide Holds, Drains, CountEmergencies, Outranks;
    assert e in kept + deferred && |kept + deferred| == |Drains(nodes)| by {
      DrainsMembers(nodes, e);
      MultisetMembers(kept + deferred, Drains(nodes));
    }
    if e !in kept {
      assert forall x, y :: x in kept && y in deferred ==> !Outranks(y, x) by {
        SelectionIsTopK(nodes, k, out, kept, deferred);
      }
      DeferredEmergencyFillsKept(kept, deferred, e);
      CountOfPermutation(kept + deferred, Drains(nodes));
      CountIsBounded(Drains(nodes));
      assert false;
    }
  }

  lemma {:induction false} CountIsBounded(s: seq<Assessment>)
    ensures CountEmergencies(s) <= |s|
  {
    if s != [] {
      CountIsBounded(s[1..]);
    }
  }

  /** b is a readable budget on a NodePool behind one of the candidates. */
  ghost predicate Governs(v: KarpenterView, nodes: seq<Assessment>, b: string) {
    exists c :: c in Drains(nodes) && PoolOf(v, c.node) != "" && IsBudgetOf(v, PoolOf(v, c.node), b)
  }

  /** The drains kept in one tick stay within the configured share and within every readable budget. */
  lemma SelectionRespectsBudgets(lv: LimitView, nodes: seq<Assessment>, totalNodes: nat, ratio: real, k: nat,
                                 out: seq<Assessment>, kept: seq<Assessment>, deferred: seq<Assessment>)
    requires IsLimit(lv, nodes, totalNodes, ratio, k) && IsSelection(nodes, k, out, kept, deferred)
    ensures |Drains(out)| <= DrainLimit(totalNodes, ratio)
    ensures lv.WithKarpenter? ==>
              forall b :: Governs(lv.view, nodes, b) && ParseNodeLimit(b, totalNodes) >= 0
                          ==> |Drains(out)| <= ParseNodeLimit(b, totalNodes)
  {
    SelectionIsTopK(nodes, k, out, kept, deferred);
    hide ParseNodeLimit, DrainLimit, IsBudgetOf, PoolOf;
    if lv.WithKarpenter? {
      var v, ids := lv.view, NodeIds(Drains(nodes));
      var m :| IsTightest(PoolLimits(v, CandidatePools(v, ids), totalNodes), m)
               && k == if 0 <= m < DrainLimit(totalNodes, ratio) then m else DrainLimit(totalNodes, ratio);
      forall b | Governs(v, nodes, b) && ParseNodeLimit(b, totalNodes) >= 0
        ensures |Drains(out)| <= ParseNodeLimit(b, totalNodes)
      {
        var c :| c in Drains(nodes) && PoolOf(v, c.node) != "" && IsBudgetOf(v, PoolOf(v, c.node), b);
        var i :| 0 <= i < |Drains(nodes)| && Drains(nodes)[i] == c;
        assert ids[i] == c.node;
        TightestRespectsEveryBudget(v, ids, totalNodes, m, c.node, b);
      }
    }
  }
}
