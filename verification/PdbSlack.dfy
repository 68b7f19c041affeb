/**
  Disruption-budget slack after losing nodes.

  The collector keeps, per budget, how many matching pods sit on each node, and scans those counts
  once for the two largest. The specification quantifies over every loss of at most k distinct nodes.
 */
module PdbSlack {
  /** Per budget: matching pods on each node, and disruptions the budget still allows. */
  datatype PoolBudgets = PoolBudgets(counts: map<string, map<string, nat>>, allowed: map<string, int>)

  /** Reading a Go map: a missing budget counts as zero. */
  function Allowed(acc: PoolBudgets, pdb: string): int {
    if pdb in acc.allowed then acc.allowed[pdb] else 0
  }

  ghost predicate IsLoss(counts: map<string, nat>, nodes: seq<string>, k: nat) {
    && |nodes| <= k
    && (forall i :: 0 <= i < |nodes| ==> nodes[i] in counts)
    && (forall i, j :: 0 <= i < j < |nodes| ==> nodes[i] != nodes[j])
  }

  ghost function PodsLost(counts: map<string, nat>, nodes: seq<string>): nat {
    if nodes == [] then 0
    else (if nodes[0] in counts then counts[nodes[0]] else 0) + PodsLost(counts, nodes[1..])
  }

  lemma PodsLostOfPair(counts: map<string, nat>, a: string, b: string)
    requires a in counts && b in counts
    ensures PodsLost(counts, [a]) == counts[a]
    ensures PodsLost(counts, [a, b]) == counts[a] + counts[b]
  {
    assert [a][1..] == [] && [a, b][1..] == [b] && [b][1..] == [];
  }

  ghost function SlackAfter(acc: PoolBudgets, pdb: string, nodes: seq<string>): int
    requires pdb in acc.counts
  {
    Allowed(acc, pdb) - PodsLost(acc.counts[pdb], nodes)
  }

  ghost predicate Loses(acc: PoolBudgets, k: nat, pdb: string, nodes: seq<string>) {
    pdb in acc.counts && IsLoss(acc.counts[pdb], nodes, k)
  }

  /** v is the least slack left to any budget by any loss of at most k distinct nodes. */
  ghost predicate IsWorstSlack(acc: PoolBudgets, k: nat, v: int) {
    && (exists pdb, nodes :: Loses(acc, k, pdb, nodes) && SlackAfter(acc, pdb, nodes) == v)
    && (forall pdb, nodes :: Loses(acc, k, pdb, nodes) ==> v <= SlackAfter(acc, pdb, nodes))
  }

  /** A single-node loss, or none, extended by another node on either side. */
  lemma LossGrows(counts: map<string, nat>, one: seq<string>, node: string)
    requires IsLoss(counts, one, 1) && node in counts && node !in one
    ensures IsLoss(counts, [node], 1) && PodsLost(counts, [node]) == counts[node]
    ensures IsLoss(counts, [node] + one, 2) && PodsLost(counts, [node] + one) == counts[node] + PodsLost(counts, one)
    ensures IsLoss(counts, one + [node], 2) && PodsLost(counts, one + [node]) == counts[node] + PodsLost(counts, one)
  {
    PodsLostOfPair(counts, node, node);
    if one == [] {
      assert [node] + one == [node] && one + [node] == [node];
    } else {
      var first := one[0];
      assert one == [first];
      assert [node] + one == [node, first] && one + [node] == [first, node];
      PodsLostOfPair(counts, first, node);
      PodsLostOfPair(counts, node, first);
    }
  }

  /** The inner scan: counts visited in any order, ties shifting the old maximum into second place. */
  method TopTwo(counts: map<string, nat>) returns (maxOne: nat, maxTwo: nat, ghost one: seq<string>, ghost two: seq<string>)
    ensures IsLoss(counts, one, 1) && PodsLost(counts, one) == maxOne
    ensures IsLoss(counts, two, 2) && PodsLost(counts, two) == maxOne + maxTwo
    ensures forall n :: n in counts ==> counts[n] <= maxOne
    ensures forall n, m :: n in counts && m in counts && n != m ==> counts[n] + counts[m] <= maxOne + maxTwo
  {
    maxOne, maxTwo, one, two := 0, 0, [], [];
    var left := counts.Keys;
    while left != {}
      invariant left <= counts.Keys && maxTwo <= maxOne
      invariant IsLoss(counts, one, 1) && PodsLost(counts, one) == maxOne
      invariant IsLoss(counts, two, 2) && PodsLost(counts, two) == maxOne + maxTwo
      invariant forall i :: 0 <= i < |one| ==> one[i] !in left
      invariant one == [] ==> left == counts.Keys && maxOne == 0
      invariant forall n :: n in counts && n !in left ==> counts[n] <= maxOne
      invariant forall n, m :: n in counts && m in counts && n != m && n !in left && m !in left ==>
                                 counts[n] + counts[m] <= maxOne + maxTwo
    {
      var node :| node in left;
      left := left - {node};
      var count := counts[node];
      LossGrows(counts, one, node);
      hide PodsLost, IsLoss;
      if count >= maxOne {
        two := [node] + one;
        one := [node];
        maxTwo, maxOne := maxOne, count;
      } else if count > maxTwo {
        two := one + [node];
        maxTwo := count;
      }
    }
  }

  lemma TopTwoBound(counts: map<string, nat>, maxOne: nat, maxTwo: nat, nodes: seq<string>, k: nat)
    requires forall n :: n in counts ==> counts[n] <= maxOne
    requires forall n, m :: n in counts && m in counts && n != m ==> counts[n] + counts[m] <= maxOne + maxTwo
    requires k <= 2 && IsLoss(counts, nodes, k)
    ensures PodsLost(counts, nodes) <= if k == 2 then maxOne + maxTwo else maxOne
  {
    if |nodes| == 1 {
      assert nodes == [nodes[0]];
      PodsLostOfPair(counts, nodes[0], nodes[0]);
    } else if |nodes| == 2 {
      assert nodes == [nodes[0], nodes[1]];
      PodsLostOfPair(counts, nodes[0], nodes[1]);
    }
  }

  /** The loop's view of the worst slack: restricted to budgets already visited. */
  ghost predicate IsWorstAmong(acc: PoolBudgets, k: nat, v: int, done: set<string>) {
    && (exists pdb, nodes :: pdb in done && Loses(acc, k, pdb, nodes) && SlackAfter(acc, pdb, nodes) == v)
    && (forall pdb, nodes :: pdb in done && Loses(acc, k, pdb, nodes) ==> v <= SlackAfter(acc, pdb, nodes))
  }

  lemma ExtendWorst(acc: PoolBudgets, k: nat, v: int, done: set<string>, pdb: string, w: int, nodes: seq<string>)
    requires done != {} ==> IsWorstAmong(acc, k, v, done)
    requires Loses(acc, k, pdb, nodes) && SlackAfter(acc, pdb, nodes) == w
    requires forall m :: Loses(acc, k, pdb, m) ==> w <= SlackAfter(acc, pdb, m)
    ensures IsWorstAmong(acc, k, if done == {} || w < v then w else v, done + {pdb})
  {
    var all := done + {pdb};
    if done == {} || w < v {
      assert pdb in all;
    } else {
      var p, m :| p in done && Loses(acc, k, p, m) && SlackAfter(acc, p, m) == v;
      assert p in all;
    }
    forall p, m | p in all && Loses(acc, k, p, m)
      ensures (if done == {} || w < v then w else v) <= SlackAfter(acc, p, m)
    {
      if p in done {
        assert v <= SlackAfter(acc, p, m);
      }
    }
  }

  /** computePDBSlackBounds; budgets are visited in any order, and no matched budget means zero slack. */
  method ComputeSlackBounds(acc: PoolBudgets) returns (minOne: int, minTwo: int)
    ensures acc.counts == map[] ==> minOne == 0 && minTwo == 0
    ensures acc.counts != map[] ==> IsWorstSlack(acc, 1, minOne) && IsWorstSlack(acc, 2, minTwo)
  {
    minOne, minTwo := 0, 0;
    var left := acc.counts.Keys;
    ghost var done := {};
    while left != {}
      invariant left + done == acc.counts.Keys && left !! done
      invariant done == {} ==> minOne == 0 && minTwo == 0
      invariant done != {} ==> IsWorstAmong(acc, 1, minOne, done) && IsWorstAmong(acc, 2, minTwo, done)
      decreases left
    {
      var pdb :| pdb in left;
      var first := left == acc.counts.Keys;
      assert first <==> done == {};
      var maxOne, maxTwo, one, two := TopTwo(acc.counts[pdb]);
      var slackOne := Allowed(acc, pdb) - maxOne;
      var slackTwo := Allowed(acc, pdb) - (maxOne + maxTwo);
      forall m, k | k in {1, 2} && Loses(acc, k, pdb, m)
        ensures (if k == 1 then slackOne else slackTwo) <= SlackAfter(acc, pdb, m)
      {
        TopTwoBound(acc.counts[pdb], maxOne, maxTwo, m, k);
      }
      ExtendWorst(acc, 1, minOne, done, pdb, slackOne, one);
      ExtendWorst(acc, 2, minTwo, done, pdb, slackTwo, two);
      if first || slackOne < minOne {
        minOne := slackOne;
      }
      if first || slackTwo < minTwo {
        minTwo := slackTwo;
      }
      left, done := left - {pdb}, done + {pdb};
    }
    if acc.counts != map[] {
      assert acc.counts.Keys != {};
      assert done == acc.counts.Keys;
      WorstAmongAll(acc, 1, minOne);
      WorstAmongAll(acc, 2, minTwo);
    }
  }

  lemma WorstAmongAll(acc: PoolBudgets, k: nat, v: int)
    requires IsWorstAmong(acc, k, v, acc.counts.Keys)
    ensures IsWorstSlack(acc, k, v)
  {
    var pdb, nodes :| pdb in acc.counts.Keys && Loses(acc, k, pdb, nodes) && SlackAfter(acc, pdb, nodes) == v;
    assert Loses(acc, k, pdb, nodes) && SlackAfter(acc, pdb, nodes) == v;
  }

  // ----- consequences

  /** The answer does not depend on the order in which Go walks its maps. */
  lemma WorstSlackIsUnique(acc: PoolBudgets, k: nat, v: int, w: int)
    requires IsWorstSlack(acc, k, v) && IsWorstSlack(acc, k, w)
    ensures v == w
  {
    var p, m :| Loses(acc, k, p, m) && SlackAfter(acc, p, m) == v;
    var q, n :| Loses(acc, k, q, n) && SlackAfter(acc, q, n) == w;
  }

  /** Losing more nodes never leaves more slack. */
  lemma WorstSlackFallsWithLoss(acc: PoolBudgets, k: nat, l: nat, v: int, w: int)
    requires k <= l && IsWorstSlack(acc, k, v) && IsWorstSlack(acc, l, w)
    ensures w <= v
  {
    var p, m :| Loses(acc, k, p, m) && SlackAfter(acc, p, m) == v;
    assert Loses(acc, l, p, m);
  }

  /** Negative means exactly: some loss of at most k nodes takes more pods than a budget allows. */
  lemma NegativeSlackMeansBrokenBudget(acc: PoolBudgets, k: nat, v: int)
    requires IsWorstSlack(acc, k, v)
    ensures v < 0 <==> exists pdb, nodes :: Loses(acc, k, pdb, nodes) && PodsLost(acc.counts[pdb], nodes) > Allowed(acc, pdb)
  {
    var p, m :| Loses(acc, k, p, m) && SlackAfter(acc, p, m) == v;
    if v < 0 {
      assert PodsLost(acc.counts[p], m) > Allowed(acc, p);
    }
    if pdb, nodes :| Loses(acc, k, pdb, nodes) && PodsLost(acc.counts[pdb], nodes) > Allowed(acc, pdb) {
      assert SlackAfter(acc, pdb, nodes) < 0;
    }
  }

  /** One node, or two where k is two, hold more than n of the budget's pods, or the budget is overdrawn as it is. */
  ghost predicate Overruns(counts: map<string, nat>, n: int, k: nat) {
    || n < 0
    || (exists a :: a in counts && counts[a] > n)
    || (k == 2 && exists a, b :: a in counts && b in counts && a != b && counts[a] + counts[b] > n)
  }

  lemma LossOverruns(counts: map<string, nat>, n: int, k: nat, nodes: seq<string>)
    requires 1 <= k <= 2 && IsLoss(counts, nodes, k) && PodsLost(counts, nodes) > n
    ensures Overruns(counts, n, k)
  {
    if |nodes| == 1 {
      PodsLostOfPair(counts, nodes[0], nodes[0]);
      assert nodes == [nodes[0]];
    } else if |nodes| == 2 {
      PodsLostOfPair(counts, nodes[0], nodes[1]);
      assert nodes == [nodes[0], nodes[1]];
    }
  }

  lemma OverrunIsLoss(counts: map<string, nat>, n: int, k: nat) returns (nodes: seq<string>)
    requires 1 <= k <= 2 && Overruns(counts, n, k)
    ensures IsLoss(counts, nodes, k) && PodsLost(counts, nodes) > n
  {
    nodes := [];
    if n >= 0 {
      if a :| a in counts && counts[a] > n {
        PodsLostOfPair(counts, a, a);
        nodes := [a];
      } else {
        var a, b :| a in counts && b in counts && a != b && counts[a] + counts[b] > n;
        PodsLostOfPair(counts, a, b);
        nodes := [a, b];
      }
    }
  }

  /** In the collector's own maps: the bound is negative exactly when losing one node, or two, would take more of a budget's pods than it allows. */
  lemma SlackSignMeaning(acc: PoolBudgets, k: nat, v: int)
    requires 1 <= k <= 2 && IsWorstSlack(acc, k, v)
    ensures v < 0 <==> exists pdb :: pdb in acc.counts && Overruns(acc.counts[pdb], if pdb in acc.allowed then acc.allowed[pdb] else 0, k)
  {
    NegativeSlackMeansBrokenBudget(acc, k, v);
    hide Overruns, IsLoss, PodsLost, IsWorstSlack;
    if v < 0 {
      var pdb, nodes :| Loses(acc, k, pdb, nodes) && PodsLost(acc.counts[pdb], nodes) > Allowed(acc, pdb);
      LossOverruns(acc.counts[pdb], Allowed(acc, pdb), k, nodes);
    }
    if pdb :| pdb in acc.counts && Overruns(acc.counts[pdb], if pdb in acc.allowed then acc.allowed[pdb] else 0, k) {
      var nodes := OverrunIsLoss(acc.counts[pdb], Allowed(acc, pdb), k);
      assert Loses(acc, k, pdb, nodes);
    }
  }
}
