/**
  Karpenter weight steering: one majority decision per workload pool and batch, a switch, an allowlist,
  and a cooldown between recorded changes of the same pool. Times are seconds.
 */
module Steering {
  import opened Sorting
  import opened Actions

  datatype KarpenterConfig = KarpenterConfig(enabled: bool, managed: seq<string>, cooldownSeconds: int, spotWeight: int, odWeight: int)

  /** An empty allowlist manages every pool. */
  predicate IsManaged(cfg: KarpenterConfig, pool: string) {
    cfg.managed == [] || pool in cfg.managed
  }

  /** The integration is on and the pool is on its allowlist; otherwise no weight is ever touched. */
  predicate Steerable(cfg: KarpenterConfig, pool: string) {
    cfg.enabled && IsManaged(cfg, pool)
  }

  function Cooldown(cfg: KarpenterConfig): int {
    if cfg.cooldownSeconds <= 0 then 60 else cfg.cooldownSeconds
  }

  // ----- votes

  predicate VotesOnDemand(n: Assessment) {
    n.mode.FreezeSpot? || IsReduction(n.action)
  }

  predicate VotesSpot(n: Assessment) {
    !n.mode.FreezeSpot? && IsIncrease(n.action)
  }

  /** The workload-pool label of a node, "" when the node cannot be fetched or carries none. */
  function LabelOf(labels: map<string, string>, node: string): string {
    if node in labels then labels[node] else ""
  }

  function SpotVotes(nodes: seq<Assessment>, labels: map<string, string>, pool: string): nat {
    if nodes == [] then 0
    else (if LabelOf(labels, nodes[0].node) == pool && VotesSpot(nodes[0]) then 1 else 0) + SpotVotes(nodes[1..], labels, pool)
  }

  function OnDemandVotes(nodes: seq<Assessment>, labels: map<string, string>, pool: string): nat {
    if nodes == [] then 0
    else (if LabelOf(labels, nodes[0].node) == pool && VotesOnDemand(nodes[0]) then 1 else 0) + OnDemandVotes(nodes[1..], labels, pool)
  }

  /** Strict majority for Spot; ties go to on-demand. */
  predicate FavorsSpot(nodes: seq<Assessment>, labels: map<string, string>, pool: string) {
    SpotVotes(nodes, labels, pool) > OnDemandVotes(nodes, labels, pool)
  }

  ghost function PoolsIn(nodes: seq<Assessment>, labels: map<string, string>): set<string> {
    set n | n in nodes && LabelOf(labels, n.node) != "" :: LabelOf(labels, n.node)
  }

  /** What a single node contributes: a growing node votes for Spot, a shrinking or frozen one for on-demand. */
  lemma OneVote(n: Assessment, labels: map<string, string>, pool: string)
    ensures var own := n.node in labels && labels[n.node] == pool;
            && SpotVotes([n], labels, pool) ==
               (if (own || (n.node !in labels && pool == "")) && n.mode != FreezeSpot && (n.action == Increase10 || n.action == Increase30) then 1 else 0)
            && OnDemandVotes([n], labels, pool) ==
               (if (own || (n.node !in labels && pool == ""))
                   && (n.mode == FreezeSpot || n.action == Decrease10 || n.action == Decrease30 || n.action == EmergencyExit) then 1 else 0)
  {
    assert [n][1..] == [];
  }

  lemma {:induction false} VotesConcat(a: seq<Assessment>, b: seq<Assessment>, labels: map<string, string>, pool: string)
    ensures SpotVotes(a + b, labels, pool) == SpotVotes(a, labels, pool) + SpotVotes(b, labels, pool)
    ensures OnDemandVotes(a + b, labels, pool) == OnDemandVotes(a, labels, pool) + OnDemandVotes(b, labels, pool)
  {
    hide VotesSpot, VotesOnDemand, LabelOf;
    if a == [] {
      assert a + b == b;
    } else {
      assert (a + b)[1..] == a[1..] + b;
      VotesConcat(a[1..], b, labels, pool);
    }
  }

  /** The decision depends on which nodes are in the batch, not on the order they are listed in. */
  lemma {:induction false} VotesAreOrderFree(a: seq<Assessment>, b: seq<Assessment>, labels: map<string, string>, pool: string)
    requires multiset(a) == multiset(b)
    ensures SpotVotes(a, labels, pool) == SpotVotes(b, labels, pool)
    ensures OnDemandVotes(a, labels, pool) == OnDemandVotes(b, labels, pool)
    ensures FavorsSpot(a, labels, pool) == FavorsSpot(b, labels, pool)
  {
    hide VotesSpot, VotesOnDemand, LabelOf;
    MultisetMembers(a, b);
    if a != [] {
      var i := RemoveHead(a, b);
      VotesAreOrderFree(a[1..], b[..i] + b[i + 1..], labels, pool);
      var tail := [b[i]] + b[i + 1..];
      assert b == b[..i] + tail && tail[1..] == b[i + 1..];
      VotesConcat(b[..i], tail, labels, pool);
      VotesConcat(b[..i], b[i + 1..], labels, pool);
    }
  }

  // ----- steering one pool

  datatype Patch = Patch(pool: string, spotWeight: int, odWeight: int)

  datatype Change = Change(pool: string, at: int)

  /** Clock readings at the cooldown check and at recording, and whether each NodePool accepted its weight. */
  datatype SteerAnswers = SteerAnswers(checkedAt: int, recordedAt: int, spotAccepted: bool, odAccepted: bool)

  function PatchFor(cfg: KarpenterConfig, pool: string, favorSpot: bool): Patch {
    if favorSpot then Patch(pool, cfg.spotWeight, cfg.odWeight) else Patch(pool, cfg.odWeight, cfg.spotWeight)
  }

  predicate Cooling(cfg: KarpenterConfig, last: map<string, int>, pool: string, now: int) {
    pool in last && now - last[pool] < Cooldown(cfg)
  }

  /**
    When a pool is steered, and to what: the integration is on, the pool is on the allowlist or there
    is none, and its last change is a cooldown old, sixty seconds where none is configured.
   */
  lemma SteeringMeaning(cfg: KarpenterConfig, last: map<string, int>, pool: string, now: int, favorSpot: bool)
    ensures Steerable(cfg, pool) && !Cooling(cfg, last, pool, now) <==>
            && cfg.enabled && (cfg.managed == [] || pool in cfg.managed)
            && (pool in last ==> now - last[pool] >= if cfg.cooldownSeconds <= 0 then 60 else cfg.cooldownSeconds)
    ensures PatchFor(cfg, pool, favorSpot).pool == pool
    ensures favorSpot ==> PatchFor(cfg, pool, favorSpot).spotWeight == cfg.spotWeight && PatchFor(cfg, pool, favorSpot).odWeight == cfg.odWeight
    ensures !favorSpot ==> PatchFor(cfg, pool, favorSpot).spotWeight == cfg.odWeight && PatchFor(cfg, pool, favorSpot).odWeight == cfg.spotWeight
  {
  }

  class Steerer {
    const cfg: KarpenterConfig
    var lastWeightChange: map<string, int>
    /** Weight pairs requested from the API, and changes recorded, in order. */
    var patches: seq<Patch>
    var changes: seq<Change>

    ghost predicate Valid()
      reads this
    {
      && (forall i :: 0 <= i < |changes| ==>
            changes[i].pool in lastWeightChange && changes[i].at <= lastWeightChange[changes[i].pool])
      && Spaced(cfg, changes)
      && (forall i :: 0 <= i < |patches| ==> Steerable(cfg, patches[i].pool))
    }

    constructor (cfg: KarpenterConfig)
      ensures Valid() && this.cfg == cfg && patches == [] && changes == [] && lastWeightChange == map[]
    {
      this.cfg := cfg;
      lastWeightChange, patches, changes := map[], [], [];
    }

    /** steerKarpenterWeights */
    method Steer(pool: string, favorSpot: bool, ans: SteerAnswers)
      requires Valid() && ans.checkedAt <= ans.recordedAt
      modifies this
      ensures Valid()
      ensures var acts := Steerable(cfg, pool) && !Cooling(cfg, old(lastWeightChange), pool, ans.checkedAt);
              var records := acts && (ans.spotAccepted || ans.odAccepted);
              && patches == old(patches) + (if acts then [PatchFor(cfg, pool, favorSpot)] else [])
              && changes == old(changes) + (if records then [Change(pool, ans.recordedAt)] else [])
              && lastWeightChange == (if records then old(lastWeightChange)[pool := ans.recordedAt] else old(lastWeightChange))
    {
      if !cfg.enabled {
        return;
      }
      if !IsManaged(cfg, pool) {
        return;
      }
      if Cooling(cfg, lastWeightChange, pool, ans.checkedAt) {
        return;
      }
      patches := patches + [PatchFor(cfg, pool, favorSpot)];
      if ans.spotAccepted || ans.odAccepted {
        SpacedExtends(cfg, changes, lastWeightChange, pool, ans);
        changes := changes + [Change(pool, ans.recordedAt)];
        lastWeightChange := lastWeightChange[pool := ans.recordedAt];
      }
    }

    /** batchSteerKarpenterWeights: pools are steered in any order, each with its own answers. */
    method BatchSteer(nodes: seq<Assessment>, labels: map<string, string>, answers: string -> SteerAnswers)
      requires Valid() && forall p :: answers(p).checkedAt <= answers(p).recordedAt
      modifies this
      ensures Valid()
      ensures |patches| >= |old(patches)| && patches[..|old(patches)|] == old(patches)
      ensures BatchPatches(cfg, old(lastWeightChange), nodes, labels, answers, patches[|old(patches)|..])
      ensures FollowsVotes(cfg, nodes, labels, patches[|old(patches)|..])
      ensures lastWeightChange == Recorded(cfg, old(lastWeightChange), answers, PoolsIn(nodes, labels))
      ensures |changes| >= |old(changes)| && changes[..|old(changes)|] == old(changes)
      ensures AreChangesOf(cfg, old(lastWeightChange), answers, PoolsIn(nodes, labels), changes[|old(changes)|..])
    {
      hide SpotVotes, OnDemandVotes, Cooling, Steerable, PoolsIn, PatchFor, AreChangesOf, SteeredSoFar, Recorded;
      if !cfg.enabled {
        NothingIsSteerable(cfg, lastWeightChange, nodes, labels, answers);
        BatchFollowsVotes(cfg, lastWeightChange, nodes, labels, answers, []);
        assert patches[|patches|..] == [] && changes[|changes|..] == [];
        return;
      }
      var votes := CountVotes(nodes, labels);
      ghost var was, start, begun := lastWeightChange, patches, changes;
      var left := votes.Keys;
      ghost var made: seq<Patch>, noted: seq<Change> := [], [];
      NothingSteered(cfg, was, nodes, labels, answers);
      assert votes.Keys - left == {} && start + made == start && begun + noted == begun;
      while left != {}
        invariant Valid() && left <= votes.Keys && patches == start + made && changes == begun + noted
        invariant lastWeightChange == Recorded(cfg, was, answers, votes.Keys - left)
        invariant AreChangesOf(cfg, was, answers, votes.Keys - left, noted)
        invariant SteeredSoFar(cfg, was, nodes, labels, answers, votes.Keys - left, made)
        decreases left
      {
        var pool :| pool in left;
        var favorSpot := votes[pool].0 > votes[pool].1;
        assert favorSpot == FavorsSpot(nodes, labels, pool);
        ghost var done := votes.Keys - left;
        OneMoreRecorded(cfg, was, answers, done, noted, pool);
        SameCooling(cfg, lastWeightChange, was, pool, answers(pool).checkedAt);
        Steer(pool, favorSpot, answers(pool));
        ghost var acts := Steerable(cfg, pool) && !Cooling(cfg, was, pool, answers(pool).checkedAt);
        OneMoreSteered(cfg, was, nodes, labels, answers, done, made, pool);
        made := made + if acts then [PatchFor(cfg, pool, favorSpot)] else [];
        noted := noted + if Records(cfg, was, answers, pool) then [Change(pool, answers(pool).recordedAt)] else [];
        assert votes.Keys - (left - {pool}) == votes.Keys - left + {pool};
        left := left - {pool};
      }
      assert votes.Keys - left == PoolsIn(nodes, labels);
      assert patches[|start|..] == made && changes[|begun|..] == noted;
      BatchFollowsVotes(cfg, was, nodes, labels, answers, made);
    }
  }

  lemma SameCooling(cfg: KarpenterConfig, a: map<string, int>, b: map<string, int>, pool: string, now: int)
    requires (pool in a <==> pool in b) && (pool in a ==> a[pool] == b[pool])
    ensures Cooling(cfg, a, pool, now) == Cooling(cfg, b, pool, now)
  {
  }

  // ----- hysteresis

  /** Two recorded changes of one pool are at least the cooldown apart. */
  ghost predicate Spaced(cfg: KarpenterConfig, changes: seq<Change>) {
    forall i, j :: 0 <= i < j < |changes| && changes[i].pool == changes[j].pool ==>
      changes[j].at - changes[i].at >= if cfg.cooldownSeconds <= 0 then 60 else cfg.cooldownSeconds
  }

  lemma SpacedExtends(cfg: KarpenterConfig, changes: seq<Change>, last: map<string, int>, pool: string, ans: SteerAnswers)
    requires Spaced(cfg, changes) && !Cooling(cfg, last, pool, ans.checkedAt) && ans.checkedAt <= ans.recordedAt
    requires forall i :: 0 <= i < |changes| ==> changes[i].pool in last && changes[i].at <= last[changes[i].pool]
    ensures Spaced(cfg, changes + [Change(pool, ans.recordedAt)])
    ensures pool in last ==> last[pool] <= ans.recordedAt
  {
    var cooldown := if cfg.cooldownSeconds <= 0 then 60 else cfg.cooldownSeconds;
    assert Cooldown(cfg) == cooldown > 0;
    hide Cooldown;
  }

  /** One call of steerKarpenterWeights as the change history sees it. */
  datatype Call = Call(pool: string, ans: SteerAnswers)

  datatype History = History(last: map<string, int>, changes: seq<Change>)

  function SteerOnce(cfg: KarpenterConfig, h: History, c: Call): History {
    if Steerable(cfg, c.pool) && !Cooling(cfg, h.last, c.pool, c.ans.checkedAt) && (c.ans.spotAccepted || c.ans.odAccepted)
    then History(h.last[c.pool := c.ans.recordedAt], h.changes + [Change(c.pool, c.ans.recordedAt)])
    else h
  }

  function SteerRun(cfg: KarpenterConfig, calls: seq<Call>): History {
    if calls == [] then History(map[], []) else SteerOnce(cfg, SteerRun(cfg, calls[..|calls| - 1]), calls[|calls| - 1])
  }

  ghost predicate Latest(h: History) {
    forall i :: 0 <= i < |h.changes| ==> h.changes[i].pool in h.last && h.changes[i].at <= h.last[h.changes[i].pool]
  }

  /** In every run, whatever the pools, clocks and API answers, recorded changes of one pool keep the cooldown. */
  lemma {:induction false} EveryRunIsSpaced(cfg: KarpenterConfig, calls: seq<Call>)
    requires forall i :: 0 <= i < |calls| ==> calls[i].ans.checkedAt <= calls[i].ans.recordedAt
    ensures Spaced(cfg, SteerRun(cfg, calls).changes) && Latest(SteerRun(cfg, calls))
    ensures forall c :: c in SteerRun(cfg, calls).changes ==> Steerable(cfg, c.pool)
  {
    if calls != [] {
      var front, last := calls[..|calls| - 1], calls[|calls| - 1];
      EveryRunIsSpaced(cfg, front);
      var h := SteerRun(cfg, front);
      if !Cooling(cfg, h.last, last.pool, last.ans.checkedAt) {
        SpacedExtends(cfg, h.changes, h.last, last.pool, last.ans);
      }
      hide Cooling, Steerable, Cooldown;
    }
  }

  // ----- the batch

  /** One node's vote on its pool's tally (for Spot, for on-demand). */
  function Vote(n: Assessment, t: (nat, nat)): (nat, nat) {
    if n.mode.FreezeSpot? then (t.0, t.1 + 1)
    else if IsIncrease(n.action) then (t.0 + 1, t.1)
    else if IsReduction(n.action) then (t.0, t.1 + 1)
    else t
  }

  function AddVote(votes: map<string, (nat, nat)>, n: Assessment, pool: string): map<string, (nat, nat)> {
    if pool == "" then votes else votes[pool := Vote(n, TallyOf(votes, pool))]
  }

  ghost predicate Tallies(votes: map<string, (nat, nat)>, nodes: seq<Assessment>, labels: map<string, string>) {
    && votes.Keys == PoolsIn(nodes, labels)
    && forall p :: p != "" ==> TallyOf(votes, p) == (SpotVotes(nodes, labels, p), OnDemandVotes(nodes, labels, p))
  }

  lemma VotesOneMore(nodes: seq<Assessment>, n: Assessment, labels: map<string, string>, p: string)
    ensures (SpotVotes(nodes + [n], labels, p), OnDemandVotes(nodes + [n], labels, p))
            == var t := (SpotVotes(nodes, labels, p), OnDemandVotes(nodes, labels, p));
               if LabelOf(labels, n.node) == p then Vote(n, t) else t
  {
    VotesConcat(nodes, [n], labels, p);
    assert [n][1..] == [];
  }

  lemma PoolsOneMore(nodes: seq<Assessment>, n: Assessment, labels: map<string, string>)
    ensures PoolsIn(nodes + [n], labels) == PoolsIn(nodes, labels) + if LabelOf(labels, n.node) != "" then {LabelOf(labels, n.node)} else {}
  {
    hide LabelOf;
    forall x ensures x in nodes + [n] <==> x in nodes || x == n {
    }
  }

  lemma TallyOneMore(votes: map<string, (nat, nat)>, nodes: seq<Assessment>, n: Assessment, labels: map<string, string>)
    requires Tallies(votes, nodes, labels)
    ensures Tallies(AddVote(votes, n, LabelOf(labels, n.node)), nodes + [n], labels)
  {
    hide SpotVotes, OnDemandVotes, Vote, LabelOf, PoolsIn;
    var pool := LabelOf(labels, n.node);
    var after := AddVote(votes, n, pool);
    PoolsOneMore(nodes, n, labels);
    forall p | p != "" ensures TallyOf(after, p) == (SpotVotes(nodes + [n], labels, p), OnDemandVotes(nodes + [n], labels, p)) {
      VotesOneMore(nodes, n, labels, p);
      assert TallyOf(votes, p) == (SpotVotes(nodes, labels, p), OnDemandVotes(nodes, labels, p));
    }
  }

  method CountVotes(nodes: seq<Assessment>, labels: map<string, string>) returns (votes: map<string, (nat, nat)>)
    ensures votes.Keys == PoolsIn(nodes, labels)
    ensures forall p :: p in votes ==> votes[p] == (SpotVotes(nodes, labels, p), OnDemandVotes(nodes, labels, p))
  {
    hide SpotVotes, OnDemandVotes, Vote;
    votes := map[];
    assert Tallies(votes, [], labels) by {
      NoVotes(labels);
    }
    assert nodes[..0] == [];
    for i := 0 to |nodes|
      invariant Tallies(votes, nodes[..i], labels)
    {
      var n := nodes[i];
      assert nodes[..i + 1] == nodes[..i] + [n];
      TallyOneMore(votes, nodes[..i], n, labels);
      votes := AddVote(votes, n, LabelOf(labels, n.node));
    }
    assert nodes[..|nodes|] == nodes;
    forall p | p in votes ensures votes[p] == (SpotVotes(nodes, labels, p), OnDemandVotes(nodes, labels, p)) {
      assert p in PoolsIn(nodes, labels);
      assert p != "" && TallyOf(votes, p) == votes[p];
    }
  }

  lemma NoVotes(labels: map<string, string>)
    ensures Tallies(map[], [], labels)
  {
    forall p | p != "" ensures (0, 0) == (SpotVotes([], labels, p), OnDemandVotes([], labels, p)) {
    }
  }

  function TallyOf(votes: map<string, (nat, nat)>, pool: string): (nat, nat) {
    if pool in votes then votes[pool] else (0, 0)
  }

  /** A patch this batch is entitled to: an allowed pool, off cooldown, weighted by its majority. */
  ghost predicate Entitled(cfg: KarpenterConfig, was: map<string, int>, nodes: seq<Assessment>, labels: map<string, string>,
                           answers: string -> SteerAnswers, p: Patch) {
    && Steerable(cfg, p.pool) && !Cooling(cfg, was, p.pool, answers(p.pool).checkedAt)
    && p == PatchFor(cfg, p.pool, FavorsSpot(nodes, labels, p.pool))
  }

  /** made patches each of these pools at most once, exactly when entitled. */
  ghost predicate SteeredSoFar(cfg: KarpenterConfig, was: map<string, int>, nodes: seq<Assessment>, labels: map<string, string>,
                               answers: string -> SteerAnswers, pools: set<string>, made: seq<Patch>) {
    && (forall i, j :: 0 <= i < j < |made| ==> made[i].pool != made[j].pool)
    && (forall i :: 0 <= i < |made| ==> made[i].pool in pools && Entitled(cfg, was, nodes, labels, answers, made[i]))
    && (forall p :: p in pools && Steerable(cfg, p) && !Cooling(cfg, was, p, answers(p).checkedAt) ==>
          PatchFor(cfg, p, FavorsSpot(nodes, labels, p)) in made)
  }

  ghost predicate BatchPatches(cfg: KarpenterConfig, was: map<string, int>, nodes: seq<Assessment>, labels: map<string, string>,
                               answers: string -> SteerAnswers, made: seq<Patch>) {
    SteeredSoFar(cfg, was, nodes, labels, answers, PoolsIn(nodes, labels), made)
  }

  /**
    The weights asked for, spelled out: Spot gets the Spot weight and on-demand the on-demand weight
    when strictly more nodes of the pool vote for Spot, and they are exchanged otherwise, ties included.
   */
  ghost predicate FollowsVotes(cfg: KarpenterConfig, nodes: seq<Assessment>, labels: map<string, string>, made: seq<Patch>) {
    forall i :: 0 <= i < |made| ==>
      var p := made[i];
      if SpotVotes(nodes, labels, p.pool) > OnDemandVotes(nodes, labels, p.pool)
      then p.spotWeight == cfg.spotWeight && p.odWeight == cfg.odWeight
      else p.spotWeight == cfg.odWeight && p.odWeight == cfg.spotWeight
  }

  lemma BatchFollowsVotes(cfg: KarpenterConfig, was: map<string, int>, nodes: seq<Assessment>, labels: map<string, string>,
                          answers: string -> SteerAnswers, made: seq<Patch>)
    requires BatchPatches(cfg, was, nodes, labels, answers, made)
    ensures FollowsVotes(cfg, nodes, labels, made)
  {
    hide SpotVotes, OnDemandVotes, Cooling, Steerable, PoolsIn;
  }

  /** With a larger Spot weight, the Spot NodePool is the heavier one exactly for a strict Spot majority. */
  lemma HeavierSideIsMajority(cfg: KarpenterConfig, nodes: seq<Assessment>, labels: map<string, string>, made: seq<Patch>, i: nat)
    requires FollowsVotes(cfg, nodes, labels, made) && i < |made| && cfg.spotWeight > cfg.odWeight
    ensures made[i].spotWeight > made[i].odWeight <==>
            SpotVotes(nodes, labels, made[i].pool) > OnDemandVotes(nodes, labels, made[i].pool)
  {
  }

  lemma OneMoreSteered(cfg: KarpenterConfig, was: map<string, int>, nodes: seq<Assessment>, labels: map<string, string>,
                       answers: string -> SteerAnswers, pools: set<string>, made: seq<Patch>, pool: string)
    requires SteeredSoFar(cfg, was, nodes, labels, answers, pools, made) && pool !in pools
    ensures var acts := Steerable(cfg, pool) && !Cooling(cfg, was, pool, answers(pool).checkedAt);
            var more := if acts then [PatchFor(cfg, pool, FavorsSpot(nodes, labels, pool))] else [];
            SteeredSoFar(cfg, was, nodes, labels, answers, pools + {pool}, made + more)
  {
    hide Steerable, Cooling, FavorsSpot;
    var acts := Steerable(cfg, pool) && !Cooling(cfg, was, pool, answers(pool).checkedAt);
    var patch := PatchFor(cfg, pool, FavorsSpot(nodes, labels, pool));
    var after := made + if acts then [patch] else [];
    forall p | p in pools + {pool} && Steerable(cfg, p) && !Cooling(cfg, was, p, answers(p).checkedAt)
      ensures PatchFor(cfg, p, FavorsSpot(nodes, labels, p)) in after
    {
      if p == pool {
        assert after[|made|] == patch;
      }
    }
  }

  /** The pool is patched and at least one of its NodePools accepts. */
  predicate Records(cfg: KarpenterConfig, was: map<string, int>, answers: string -> SteerAnswers, pool: string) {
    && Steerable(cfg, pool) && !Cooling(cfg, was, pool, answers(pool).checkedAt)
    && (answers(pool).spotAccepted || answers(pool).odAccepted)
  }

  /** The last change of each pool once these pools have been steered. */
  ghost function Recorded(cfg: KarpenterConfig, was: map<string, int>, answers: string -> SteerAnswers, pools: set<string>): map<string, int> {
    map p | p in was.Keys + pools && (p in was || Records(cfg, was, answers, p)) ::
      if p in pools && Records(cfg, was, answers, p) then answers(p).recordedAt else was[p]
  }

  /** Exactly the changes of these pools that are recorded. */
  ghost predicate AreChangesOf(cfg: KarpenterConfig, was: map<string, int>, answers: string -> SteerAnswers, pools: set<string>, noted: seq<Change>) {
    && (forall i, j :: 0 <= i < j < |noted| ==> noted[i].pool != noted[j].pool)
    && (forall c :: c in noted <==> c.pool in pools && Records(cfg, was, answers, c.pool) && c.at == answers(c.pool).recordedAt)
  }

  /** A pool's last change moves to the recording time exactly when it is steered and one of its NodePools accepts. */
  lemma RecordedMeaning(cfg: KarpenterConfig, was: map<string, int>, answers: string -> SteerAnswers, pools: set<string>, pool: string)
    ensures var now := Recorded(cfg, was, answers, pools);
            var steered := pool in pools && Steerable(cfg, pool) && !Cooling(cfg, was, pool, answers(pool).checkedAt);
            var moved := steered && (answers(pool).spotAccepted || answers(pool).odAccepted);
            && (moved ==> pool in now && now[pool] == answers(pool).recordedAt)
            && (!moved ==> (pool in now <==> pool in was) && (pool in was ==> now[pool] == was[pool]))
  {
    hide Steerable, Cooling;
  }

  lemma NothingIsSteerable(cfg: KarpenterConfig, was: map<string, int>, nodes: seq<Assessment>, labels: map<string, string>,
                           answers: string -> SteerAnswers)
    requires !cfg.enabled
    ensures BatchPatches(cfg, was, nodes, labels, answers, [])
    ensures Recorded(cfg, was, answers, PoolsIn(nodes, labels)) == was && AreChangesOf(cfg, was, answers, PoolsIn(nodes, labels), [])
  {
    hide PoolsIn;
    assert forall p :: !Steerable(cfg, p);
  }

  lemma NothingSteered(cfg: KarpenterConfig, was: map<string, int>, nodes: seq<Assessment>, labels: map<string, string>,
                       answers: string -> SteerAnswers)
    ensures Recorded(cfg, was, answers, {}) == was && AreChangesOf(cfg, was, answers, {}, [])
    ensures SteeredSoFar(cfg, was, nodes, labels, answers, {}, [])
  {
    hide Records;
  }

  lemma OneMoreRecorded(cfg: KarpenterConfig, was: map<string, int>, answers: string -> SteerAnswers, pools: set<string>,
                        noted: seq<Change>, pool: string)
    requires pool !in pools && AreChangesOf(cfg, was, answers, pools, noted)
    ensures var before := Recorded(cfg, was, answers, pools);
            var records, at := Records(cfg, was, answers, pool), answers(pool).recordedAt;
            && (pool in before <==> pool in was) && (pool in was ==> before[pool] == was[pool])
            && Recorded(cfg, was, answers, pools + {pool}) == (if records then before[pool := at] else before)
            && AreChangesOf(cfg, was, answers, pools + {pool}, noted + if records then [Change(pool, at)] else [])
  {
    hide Records;
    var after := noted + if Records(cfg, was, answers, pool) then [Change(pool, answers(pool).recordedAt)] else [];
    forall i, j | 0 <= i < j < |after| ensures after[i].pool != after[j].pool {
      if j == |noted| {
        assert noted[i] in noted;
      }
    }
    forall c: Change ensures c in after <==> c in noted || (c.pool == pool && Records(cfg, was, answers, pool) && c.at == answers(pool).recordedAt) {
    }
  }

  /** Whatever the listing order, the same batch asks for the same weights. */
  lemma BatchIsOrderFree(cfg: KarpenterConfig, was: map<string, int>, a: seq<Assessment>, b: seq<Assessment>, labels: map<string, string>,
                         answers: string -> SteerAnswers, made: seq<Patch>)
    requires multiset(a) == multiset(b) && BatchPatches(cfg, was, a, labels, answers, made)
    ensures BatchPatches(cfg, was, b, labels, answers, made)
  {
    MultisetMembers(a, b);
    assert PoolsIn(a, labels) == PoolsIn(b, labels);
    forall p: string ensures FavorsSpot(a, labels, p) == FavorsSpot(b, labels, p) {
      VotesAreOrderFree(a, b, labels, p);
    }
  }
}
