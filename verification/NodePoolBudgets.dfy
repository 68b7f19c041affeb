/**
  Karpenter disruption budgets: parsing a node limit, the tightest budget of a NodePool, and the
  tightest budget over the NodePools behind a set of candidate nodes.
 */
module NodePoolBudgets {
  import opened Wrappers

  // ----- fmt.Sscanf(s, "%d"): blanks, an optional sign, then as many digits as there are

  predicate IsDigit(c: char) {
    '0' <= c <= '9'
  }

  function ScanDigits(s: string, acc: int, seen: bool): Option<int> {
    if s != "" && IsDigit(s[0]) then ScanDigits(s[1..], 10 * acc + (s[0] as int - '0' as int), true)
    else if seen then Some(acc) else None
  }

  function ScanInt(s: string): Option<int> {
    if s == "" then None
    else if s[0] == ' ' || s[0] == '\t' then ScanInt(s[1..])
    else if s[0] == '-' then
      (match ScanDigits(s[1..], 0, false) case Some(n) => Some(-n) case None => None)
    else if s[0] == '+' then ScanDigits(s[1..], 0, false)
    else ScanDigits(s, 0, false)
  }

  /** parseNodeLimit: an absolute count or a percentage of the nodes, -1 when unreadable. */
  function ParseNodeLimit(limit: string, totalNodes: nat): int {
    if limit == "" then -1
    else if limit[|limit| - 1] == '%' then
      match ScanInt(limit[..|limit| - 1])
      case None => -1
      case Some(percent) => if percent <= 0 then 0 else totalNodes * percent / 100
    else
      match ScanInt(limit)
      case None => -1
      case Some(count) => count
  }

  // ----- written limits are read back

  function Digit(d: nat): (c: char)
    requires d < 10
    ensures IsDigit(c) && c as int - '0' as int == d
  {
    ('0' as int + d) as char
  }

  function Decimal(n: nat): string {
    if n < 10 then [Digit(n)] else Decimal(n / 10) + [Digit(n % 10)]
  }

  lemma {:induction false} DecimalScans(n: nat, rest: string)
    ensures Decimal(n) != "" && IsDigit(Decimal(n)[0])
    ensures ScanDigits(Decimal(n) + rest, 0, false) == ScanDigits(rest, n, true)
  {
    if n < 10 {
      assert (Decimal(n) + rest)[1..] == rest;
    } else {
      var last := [Digit(n % 10)];
      DecimalScans(n / 10, last + rest);
      assert Decimal(n) + rest == Decimal(n / 10) + (last + rest);
      assert (last + rest)[1..] == rest;
    }
  }

  /** Every natural number an operator writes is read back, as a count and as a percentage. */
  lemma LimitRoundTrip(n: nat, totalNodes: nat)
    ensures ParseNodeLimit(Decimal(n), totalNodes) == n
    ensures ParseNodeLimit(Decimal(n) + "%", totalNodes) == totalNodes * n / 100
  {
    DecimalScans(n, "");
    assert Decimal(n) + "" == Decimal(n);
    DecimalEndsInDigit(n);
    var p := Decimal(n) + "%";
    assert p[..|p| - 1] == Decimal(n) && p[|p| - 1] == '%';
  }

  /** What an operator may get wrong: nothing, no digits, or a negative number. */
  lemma LimitEdgeCases(n: nat, totalNodes: nat, c: char)
    requires c !in " \t+-%" && !IsDigit(c)
    ensures ParseNodeLimit("", totalNodes) == -1 && ParseNodeLimit([c], totalNodes) == -1 && ParseNodeLimit("%", totalNodes) == -1
    ensures ParseNodeLimit("-" + Decimal(n), totalNodes) == 0 - n
    ensures ParseNodeLimit("-" + Decimal(n) + "%", totalNodes) == 0
  {
    DecimalScans(n, "");
    assert Decimal(n) + "" == Decimal(n);
    DecimalEndsInDigit(n);
    var minus := "-" + Decimal(n);
    assert minus[1..] == Decimal(n) && minus[|minus| - 1] == Decimal(n)[|Decimal(n)| - 1];
    var p := minus + "%";
    assert p[..|p| - 1] == minus && p[|p| - 1] == '%';
    assert [c][..0] == "" && "%"[..0] == "";
  }

  lemma DecimalEndsInDigit(n: nat)
    ensures Decimal(n) != "" && IsDigit(Decimal(n)[|Decimal(n)| - 1])
  {
  }

  // ----- the tightest budget

  /** m is the least non-negative member of limits, or -1 when there is none. */
  ghost predicate IsTightest(limits: iset<int>, m: int) {
    && (m == -1 || (m >= 0 && m in limits))
    && forall l :: l in limits && l >= 0 ==> 0 <= m <= l
  }

  ghost function LimitsOf(budgets: seq<string>, totalNodes: nat): iset<int> {
    iset b | b in budgets && b != "" :: ParseNodeLimit(b, totalNodes)
  }

  lemma LimitsOfOneMore(budgets: seq<string>, i: nat, totalNodes: nat)
    requires i < |budgets|
    ensures LimitsOf(budgets[..i + 1], totalNodes)
            == LimitsOf(budgets[..i], totalNodes) + (if budgets[i] == "" then iset{} else iset{ParseNodeLimit(budgets[i], totalNodes)})
  {
    hide ParseNodeLimit;
    var longer, shorter, last := budgets[..i + 1], budgets[..i], budgets[i];
    assert longer == shorter + [last];
    forall l | l in LimitsOf(longer, totalNodes)
      ensures l in LimitsOf(shorter, totalNodes) || (last != "" && l == ParseNodeLimit(last, totalNodes))
    {
      var b :| b in longer && b != "" && l == ParseNodeLimit(b, totalNodes);
      assert b in shorter || b == last;
    }
    forall l | l in LimitsOf(shorter, totalNodes) ensures l in LimitsOf(longer, totalNodes) {
      var b :| b in shorter && b != "" && l == ParseNodeLimit(b, totalNodes);
      assert b in longer;
    }
    assert last in longer;
  }

  function Tighter(m: int, limit: int): int {
    if limit >= 0 && (m < 0 || limit < m) then limit else m
  }

  lemma TighterMerges(a: iset<int>, b: iset<int>, m: int, l: int)
    requires IsTightest(a, m) && IsTightest(b, l)
    ensures IsTightest(a + b, Tighter(m, l))
  {
  }

  lemma TighterAdds(a: iset<int>, m: int, limit: int)
    requires IsTightest(a, m)
    ensures IsTightest(a + iset{limit}, Tighter(m, limit))
  {
    assert limit in iset{limit};
  }

  /** GetEffectiveDisruptionLimit on a readable NodePool: a running minimum with a -1 sentinel. */
  method EffectiveDisruptionLimit(budgets: seq<string>, totalNodes: nat) returns (minLimit: int)
    ensures IsTightest(LimitsOf(budgets, totalNodes), minLimit)
  {
    hide ParseNodeLimit;
    minLimit := -1;
    for i := 0 to |budgets|
      invariant IsTightest(LimitsOf(budgets[..i], totalNodes), minLimit)
    {
      var b := budgets[i];
      LimitsOfOneMore(budgets, i, totalNodes);
      if b != "" {
        var limit := ParseNodeLimit(b, totalNodes);
        TighterAdds(LimitsOf(budgets[..i], totalNodes), minLimit, limit);
        if limit >= 0 {
          if minLimit < 0 || limit < minLimit {
            minLimit := limit;
          }
        }
      } else {
        assert LimitsOf(budgets[..i + 1], totalNodes) == LimitsOf(budgets[..i], totalNodes);
      }
    }
    assert budgets[..|budgets|] == budgets;
  }

  // ----- all NodePools behind the candidates

  /**
    What the API answers: the workload pool labelled on each node that can be fetched, and the
    budgets of each NodePool that can be read.
   */
  datatype KarpenterView = KarpenterView(
    workloadPool: map<string, string>, budgets: map<string, seq<string>>, spotSuffix: string, odSuffix: string)

  /** The workload pool of a node, "" when it cannot be fetched or has no label. */
  function PoolOf(v: KarpenterView, node: string): string {
    if node in v.workloadPool then v.workloadPool[node] else ""
  }

  function BudgetsOf(v: KarpenterView, nodePool: string): seq<string> {
    if nodePool in v.budgets then v.budgets[nodePool] else []
  }

  /** A budget of a Spot or on-demand NodePool belonging to the workload pool. */
  ghost predicate IsBudgetOf(v: KarpenterView, pool: string, b: string) {
    b != "" && (b in BudgetsOf(v, pool + v.spotSuffix) || b in BudgetsOf(v, pool + v.odSuffix))
  }

  ghost function PoolLimits(v: KarpenterView, pools: set<string>, totalNodes: nat): iset<int> {
    iset pool, b | pool in pools && IsBudgetOf(v, pool, b) :: ParseNodeLimit(b, totalNodes)
  }

  ghost function CandidatePools(v: KarpenterView, nodes: seq<string>): set<string> {
    set n | n in nodes && PoolOf(v, n) != "" :: PoolOf(v, n)
  }

  lemma LimitsOfPool(v: KarpenterView, pool: string, totalNodes: nat)
    ensures PoolLimits(v, {pool}, totalNodes)
            == LimitsOf(BudgetsOf(v, pool + v.spotSuffix), totalNodes) + LimitsOf(BudgetsOf(v, pool + v.odSuffix), totalNodes)
  {
    var spot, od := BudgetsOf(v, pool + v.spotSuffix), BudgetsOf(v, pool + v.odSuffix);
    forall l | l in LimitsOf(spot, totalNodes) + LimitsOf(od, totalNodes) ensures l in PoolLimits(v, {pool}, totalNodes) {
      var b :| b != "" && (b in spot || b in od) && l == ParseNodeLimit(b, totalNodes);
      assert IsBudgetOf(v, pool, b);
    }
  }

  lemma LimitsOfMorePools(v: KarpenterView, pools: set<string>, pool: string, totalNodes: nat)
    ensures PoolLimits(v, pools + {pool}, totalNodes) == PoolLimits(v, pools, totalNodes) + PoolLimits(v, {pool}, totalNodes)
  {
    var all := PoolLimits(v, pools + {pool}, totalNodes);
    forall l | l in all ensures l in PoolLimits(v, pools, totalNodes) + PoolLimits(v, {pool}, totalNodes) {
      var p, b :| p in pools + {pool} && IsBudgetOf(v, p, b) && l == ParseNodeLimit(b, totalNodes);
      assert p in pools || p in {pool};
    }
    forall l | l in PoolLimits(v, pools, totalNodes) + PoolLimits(v, {pool}, totalNodes) ensures l in all {
      if l in PoolLimits(v, pools, totalNodes) {
        var p, b :| p in pools && IsBudgetOf(v, p, b) && l == ParseNodeLimit(b, totalNodes);
        assert p in pools + {pool};
      } else {
        var p, b :| p in {pool} && IsBudgetOf(v, p, b) && l == ParseNodeLimit(b, totalNodes);
        assert p in pools + {pool};
      }
    }
  }

  /** getKarpenterDisruptionLimit: pools are visited in any order; unreadable NodePools are passed over. */
  method KarpenterDisruptionLimit(v: KarpenterView, nodes: seq<string>, totalNodes: nat) returns (minLimit: int)
    ensures IsTightest(PoolLimits(v, CandidatePools(v, nodes), totalNodes), minLimit)
  {
    var left: set<string> := {};
    for i := 0 to |nodes|
      invariant left == CandidatePools(v, nodes[..i])
    {
      var pool := PoolOf(v, nodes[i]);
      assert forall x :: x in nodes[..i + 1] <==> x in nodes[..i] || x == nodes[i];
      if pool != "" {
        left := left + {pool};
      }
    }
    assert nodes[..|nodes|] == nodes;
    minLimit := -1;
    ghost var done: set<string> := {};
    while left != {}
      invariant left + done == CandidatePools(v, nodes)
      invariant IsTightest(PoolLimits(v, done, totalNodes), minLimit)
      decreases left
    {
      var pool :| pool in left;
      var spotLimit := EffectiveDisruptionLimit(BudgetsOf(v, pool + v.spotSuffix), totalNodes);
      var odLimit := EffectiveDisruptionLimit(BudgetsOf(v, pool + v.odSuffix), totalNodes);
      ghost var spot := LimitsOf(BudgetsOf(v, pool + v.spotSuffix), totalNodes);
      ghost var od := LimitsOf(BudgetsOf(v, pool + v.odSuffix), totalNodes);
      ghost var before := PoolLimits(v, done, totalNodes);
      LimitsOfPool(v, pool, totalNodes);
      LimitsOfMorePools(v, done, pool, totalNodes);
      TighterMerges(before, spot, minLimit, spotLimit);
      TighterMerges(before + spot, od, Tighter(minLimit, spotLimit), odLimit);
      assert before + spot + od == before + (spot + od);
      minLimit := Tighter(minLimit, spotLimit);
      minLimit := Tighter(minLimit, odLimit);
      left, done := left - {pool}, done + {pool};
    }
    assert done == CandidatePools(v, nodes);
  }

  /** In the API's own terms: the limit is within each budget of each NodePool named after a candidate's workload pool. */
  lemma TightestIsWithinEachNodePool(v: KarpenterView, nodes: seq<string>, totalNodes: nat, m: int, node: string, nodePool: string, b: string)
    requires IsTightest(PoolLimits(v, CandidatePools(v, nodes), totalNodes), m)
    requires node in nodes && node in v.workloadPool && v.workloadPool[node] != ""
    requires nodePool == v.workloadPool[node] + v.spotSuffix || nodePool == v.workloadPool[node] + v.odSuffix
    requires nodePool in v.budgets && b in v.budgets[nodePool] && ParseNodeLimit(b, totalNodes) >= 0
    ensures 0 <= m <= ParseNodeLimit(b, totalNodes)
  {
    assert b != "";
    hide ParseNodeLimit;
    TightestRespectsEveryBudget(v, nodes, totalNodes, m, node, b);
  }

  /** The effective limit is within every readable, non-negative budget of every candidate's pool. */
  lemma TightestRespectsEveryBudget(v: KarpenterView, nodes: seq<string>, totalNodes: nat, m: int, node: string, b: string)
    requires IsTightest(PoolLimits(v, CandidatePools(v, nodes), totalNodes), m)
    requires node in nodes && PoolOf(v, node) != "" && IsBudgetOf(v, PoolOf(v, node), b) && ParseNodeLimit(b, totalNodes) >= 0
    ensures 0 <= m <= ParseNodeLimit(b, totalNodes)
  {
    assert PoolOf(v, node) in CandidatePools(v, nodes);
    assert ParseNodeLimit(b, totalNodes) in PoolLimits(v, CandidatePools(v, nodes), totalNodes);
  }
}
