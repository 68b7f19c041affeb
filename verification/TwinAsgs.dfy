/**
  Twin Auto Scaling Groups: scale up the twin, wait for the new node, roll back on failure; after a
  drain, terminate the old instance in its own group.
 */
module TwinAsgs {
  import opened Wrappers

  /** The two groups of a workload pool. */
  datatype AsgId = SpotAsg(pool: string) | OnDemandAsg(pool: string)

  datatype AsgInfo = AsgInfo(desired: int, current: int, maxSize: int)

  datatype Direction = ToOnDemand | ToSpot

  datatype CapacityType = Spot | OnDemand | OtherCapacity

  type Groups = map<AsgId, AsgInfo>

  function TargetGroup(pool: string, d: Direction): AsgId {
    if d.ToOnDemand? then OnDemandAsg(pool) else SpotAsg(pool)
  }

  function SourceGroup(pool: string, d: Direction): AsgId {
    if d.ToOnDemand? then SpotAsg(pool) else OnDemandAsg(pool)
  }

  predicate HasTwins(g: Groups, pool: string) {
    SpotAsg(pool) in g && OnDemandAsg(pool) in g
  }

  /** Spot plus on-demand desired capacity of a pool. */
  function Total(g: Groups, pool: string): int
    requires HasTwins(g, pool)
  {
    g[SpotAsg(pool)].desired + g[OnDemandAsg(pool)].desired
  }

  // ----- the client's state changes as values

  predicate ScaleFits(g: Groups, id: AsgId, desired: int) {
    id in g && desired <= g[id].maxSize
  }

  function Scale(g: Groups, id: AsgId, desired: int): Groups
    requires id in g
  {
    g[id := g[id].(desired := desired, current := desired)]
  }

  function Decrement(x: int): int {
    if x > 0 then x - 1 else x
  }

  function Terminate(g: Groups, id: AsgId): Groups
    requires id in g
  {
    g[id := g[id].(desired := Decrement(g[id].desired), current := Decrement(g[id].current))]
  }

  class AsgClient {
    var asgs: Groups
    var scaleUpCalls: seq<(AsgId, int)>
    var terminateCalls: seq<(AsgId, string)>

    ghost predicate Valid()
      reads this
    {
      forall id :: id in asgs ==> 0 <= asgs[id].desired == asgs[id].current <= asgs[id].maxSize
    }

    constructor ()
      ensures asgs == map[] && scaleUpCalls == [] && terminateCalls == [] && Valid()
    {
      asgs, scaleUpCalls, terminateCalls := map[], [], [];
    }

    method AddTwinPair(pool: string, spotDesired: nat, odDesired: nat)
      requires Valid()
      modifies this`asgs
      ensures Valid() && HasTwins(asgs, pool) && Total(asgs, pool) == spotDesired + odDesired
      ensures asgs[SpotAsg(pool)].desired == spotDesired && asgs[SpotAsg(pool)].maxSize == spotDesired + 5
      ensures asgs[OnDemandAsg(pool)].desired == odDesired && asgs[OnDemandAsg(pool)].maxSize == odDesired + 5
      ensures forall id :: id in old(asgs) && id.pool != pool ==> id in asgs && asgs[id] == old(asgs)[id]
    {
      asgs := asgs[SpotAsg(pool) := AsgInfo(spotDesired, spotDesired, spotDesired + 5)]
              [OnDemandAsg(pool) := AsgInfo(odDesired, odDesired, odDesired + 5)];
    }

    /** accepted is the service's own answer; the client additionally refuses unknown groups and oversizing. */
    method SetDesiredCapacity(id: AsgId, desired: int, accepted: bool) returns (ok: bool)
      modifies this
      ensures ok == (accepted && ScaleFits(old(asgs), id, desired))
      ensures ok ==> asgs == Scale(old(asgs), id, desired) && scaleUpCalls == old(scaleUpCalls) + [(id, desired)]
      ensures !ok ==> asgs == old(asgs) && scaleUpCalls == old(scaleUpCalls)
      ensures terminateCalls == old(terminateCalls)
    {
      if !accepted || id !in asgs || desired > asgs[id].maxSize {
        return false;
      }
      asgs := asgs[id := asgs[id].(desired := desired, current := desired)];
      scaleUpCalls := scaleUpCalls + [(id, desired)];
      return true;
    }

    method TerminateInstance(id: AsgId, instance: string, accepted: bool) returns (ok: bool)
      modifies this
      ensures ok == (accepted && id in old(asgs))
      ensures ok ==> asgs == Terminate(old(asgs), id) && terminateCalls == old(terminateCalls) + [(id, instance)]
      ensures !ok ==> asgs == old(asgs) && terminateCalls == old(terminateCalls)
      ensures scaleUpCalls == old(scaleUpCalls)
    {
      if !accepted || id !in asgs {
        return false;
      }
      var info := asgs[id];
      if info.desired > 0 {
        info := info.(desired := info.desired - 1);
      }
      if info.current > 0 {
        info := info.(current := info.current - 1);
      }
      asgs := asgs[id := info];
      terminateCalls := terminateCalls + [(id, instance)];
      return true;
    }
  }

  // ----- waiting for the replacement node

  datatype NodeInfo = NodeInfo(name: string, labelled: bool, pool: string, capacity: CapacityType, ready: bool)

  /** One poll of the node list before the deadline. */
  datatype Poll = PollFailed | PollNodes(nodes: seq<NodeInfo>)

  function Expected(d: Direction): CapacityType {
    if d.ToSpot? then Spot else OnDemand
  }

  predicate IsReplacement(existing: set<string>, pool: string, d: Direction, n: NodeInfo) {
    n.name !in existing && n.labelled && (n.pool == pool || pool == "") && n.capacity == Expected(d) && n.ready
  }

  ghost predicate Offers(existing: set<string>, pool: string, d: Direction, poll: Poll, name: string) {
    poll.PollNodes? && exists n :: n in poll.nodes && n.name == name && IsReplacement(existing, pool, d, n)
  }

  ghost predicate OffersNothing(existing: set<string>, pool: string, d: Direction, poll: Poll) {
    poll.PollNodes? ==> forall n :: n in poll.nodes ==> !IsReplacement(existing, pool, d, n)
  }

  function FirstOffer(existing: set<string>, pool: string, d: Direction, nodes: seq<NodeInfo>): Option<string> {
    if nodes == [] then None
    else if IsReplacement(existing, pool, d, nodes[0]) then Some(nodes[0].name)
    else FirstOffer(existing, pool, d, nodes[1..])
  }

  /** The first replacement any poll shows. */
  function AwaitedNode(existing: set<string>, pool: string, d: Direction, polls: seq<Poll>): Option<string> {
    if polls == [] then None
    else if polls[0].PollNodes? && FirstOffer(existing, pool, d, polls[0].nodes).Some?
    then FirstOffer(existing, pool, d, polls[0].nodes)
    else AwaitedNode(existing, pool, d, polls[1..])
  }

  lemma {:induction false} FirstOfferMeaning(existing: set<string>, pool: string, d: Direction, nodes: seq<NodeInfo>)
    ensures var o := FirstOffer(existing, pool, d, nodes);
            && (o.Some? ==> Offers(existing, pool, d, PollNodes(nodes), o.value))
            && (o.None? ==> OffersNothing(existing, pool, d, PollNodes(nodes)))
  {
    hide IsReplacement;
    if nodes != [] {
      assert nodes[0] in nodes;
      FirstOfferMeaning(existing, pool, d, nodes[1..]);
      assert forall n :: n in nodes <==> n == nodes[0] || n in nodes[1..];
    }
  }

  /** A name comes only from a poll that shows a matching new ready node; none is given only if no poll did. */
  lemma {:induction false} AwaitedNodeMeaning(existing: set<string>, pool: string, d: Direction, polls: seq<Poll>)
    ensures var o := AwaitedNode(existing, pool, d, polls);
            && (o.Some? ==> exists p :: p in polls && Offers(existing, pool, d, p, o.value))
            && (o.None? ==> forall p :: p in polls ==> OffersNothing(existing, pool, d, p))
  {
    hide FirstOffer, Offers;
    if polls != [] {
      assert polls[0] in polls;
      AwaitedNodeMeaning(existing, pool, d, polls[1..]);
      assert forall p :: p in polls <==> p == polls[0] || p in polls[1..];
      if polls[0].PollNodes? {
        FirstOfferMeaning(existing, pool, d, polls[0].nodes);
      }
    }
  }

  method FirstReplacement(existing: set<string>, pool: string, d: Direction, nodes: seq<NodeInfo>) returns (name: Option<string>)
    ensures name == FirstOffer(existing, pool, d, nodes)
  {
    for i := 0 to |nodes|
      invariant FirstOffer(existing, pool, d, nodes[i..]) == FirstOffer(existing, pool, d, nodes)
    {
      if IsReplacement(existing, pool, d, nodes[i]) {
        return Some(nodes[i].name);
      }
    }
    return None;
  }

  /** waitForNewNode: baseline is the node list taken after the scale-up; polls are those before the deadline. */
  method WaitForNewNode(baseline: Option<set<string>>, pool: string, d: Direction, polls: seq<Poll>) returns (name: Option<string>)
    ensures name == if baseline.None? then None else AwaitedNode(baseline.value, pool, d, polls)
    ensures name.Some? ==> exists p :: p in polls && Offers(baseline.value, pool, d, p, name.value)
    ensures name.None? ==> baseline.None? || forall p :: p in polls ==> OffersNothing(baseline.value, pool, d, p)
  {
    if baseline.None? {
      return None;
    }
    AwaitedNodeMeaning(baseline.value, pool, d, polls);
    for i := 0 to |polls|
      invariant AwaitedNode(baseline.value, pool, d, polls[i..]) == AwaitedNode(baseline.value, pool, d, polls)
    {
      if polls[i].PollNodes? {
        name := FirstReplacement(baseline.value, pool, d, polls[i].nodes);
        if name.Some? {
          return name;
        }
      }
    }
    return None;
  }

  // ----- PrepareSwap

  datatype SwapAnswers = SwapAnswers(
    discoverable: bool, scaleAccepted: bool, rollbackAccepted: bool, baseline: Option<set<string>>, polls: seq<Poll>)

  /** How a preparation ended: a ready node, nothing changed, or a scale-up whose rollback was refused. */
  datatype Preparation = Ready(node: string) | Unchanged | Stranded

  function Prepare(g: Groups, pool: string, d: Direction, p: Preparation): Groups
    requires HasTwins(g, pool)
  {
    var target := TargetGroup(pool, d);
    if p.Unchanged? then g else Scale(g, target, g[target].desired + 1)
  }

  /** The scale-up itself goes through. */
  predicate ScalesUp(g: Groups, pool: string, d: Direction, ans: SwapAnswers) {
    ans.discoverable && HasTwins(g, pool) && ans.scaleAccepted
    && ScaleFits(g, TargetGroup(pool, d), g[TargetGroup(pool, d)].desired + 1)
  }

  /** How a preparation ends, read off the groups and the answers. */
  function PreparationOf(g: Groups, pool: string, d: Direction, ans: SwapAnswers): Preparation {
    if !ScalesUp(g, pool, d, ans) then Unchanged
    else
      match if ans.baseline.None? then None else AwaitedNode(ans.baseline.value, pool, d, ans.polls)
      case Some(name) => Ready(name)
      case None => if ans.rollbackAccepted then Unchanged else Stranded
  }

  /** A node of some poll is new since the baseline, labelled, ready, of the pool and of the capacity type wanted. */
  ghost predicate Appears(existing: set<string>, pool: string, wanted: CapacityType, polls: seq<Poll>, name: string) {
    exists p, n :: p in polls && p.PollNodes? && n in p.nodes && n.name == name && name !in existing
                   && n.labelled && n.ready && n.capacity == wanted && (pool == "" || n.pool == pool)
  }

  lemma AwaitedNodeAppears(existing: set<string>, pool: string, d: Direction, polls: seq<Poll>)
    ensures var o, wanted := AwaitedNode(existing, pool, d, polls), if d == ToOnDemand then OnDemand else Spot;
            && (o.Some? ==> Appears(existing, pool, wanted, polls, o.value))
            && (o.None? ==> forall name :: !Appears(existing, pool, wanted, polls, name))
  {
    AwaitedNodeMeaning(existing, pool, d, polls);
    hide AwaitedNode;
    var o := AwaitedNode(existing, pool, d, polls);
    if o.Some? {
      var p :| p in polls && Offers(existing, pool, d, p, o.value);
      var n :| n in p.nodes && n.name == o.value && IsReplacement(existing, pool, d, n);
    }
  }

  /** The scale-up stands exactly when the service takes it within the size limit and it is not taken back. */
  lemma StandsIff(g: Groups, pool: string, d: Direction, ans: SwapAnswers)
    ensures var wanted := if d == ToOnDemand then OnDemand else Spot;
            !PreparationOf(g, pool, d, ans).Unchanged? <==>
            && ans.discoverable && ans.scaleAccepted && SpotAsg(pool) in g && OnDemandAsg(pool) in g
            && (d == ToOnDemand ==> g[OnDemandAsg(pool)].desired < g[OnDemandAsg(pool)].maxSize)
            && (d == ToSpot ==> g[SpotAsg(pool)].desired < g[SpotAsg(pool)].maxSize)
            && (!ans.rollbackAccepted || (ans.baseline.Some? && exists name :: Appears(ans.baseline.value, pool, wanted, ans.polls, name)))
  {
    if ans.baseline.Some? {
      AwaitedNodeAppears(ans.baseline.value, pool, d, ans.polls);
    }
    hide AwaitedNode, Appears;
  }

  /** A standing scale-up is on the side the pool moves to, and nowhere else. */
  lemma RaisedOnTheRightSide(g: Groups, requests: map<string, Direction>, answers: string -> SwapAnswers, pool: string)
    requires HasTwins(g, pool)
    ensures var h := PreparedAll(g, requests, answers);
            var stands := pool in requests && !PreparationOf(g, pool, requests[pool], answers(pool)).Unchanged?;
            && HasTwins(h, pool)
            && h[OnDemandAsg(pool)].desired == g[OnDemandAsg(pool)].desired + (if stands && requests[pool] == ToOnDemand then 1 else 0)
            && h[SpotAsg(pool)].desired == g[SpotAsg(pool)].desired + (if stands && requests[pool] == ToSpot then 1 else 0)
  {
    hide PreparationOf;
  }

  method PrepareSwap(client: AsgClient, pool: string, d: Direction, ans: SwapAnswers) returns (p: Preparation)
    requires client.Valid()
    modifies client
    ensures client.Valid() && client.terminateCalls == old(client.terminateCalls)
    ensures p == PreparationOf(old(client.asgs), pool, d, ans)
    ensures !p.Unchanged? ==> HasTwins(old(client.asgs), pool)
    ensures client.asgs == if p.Unchanged? then old(client.asgs) else Prepare(old(client.asgs), pool, d, p)
    ensures p.Stranded? ==> !ans.rollbackAccepted
    ensures p.Ready? ==> ans.baseline.Some? && exists q :: q in ans.polls && Offers(ans.baseline.value, pool, d, q, p.node)
  {
    if !ans.discoverable || SpotAsg(pool) !in client.asgs || OnDemandAsg(pool) !in client.asgs {
      return Unchanged;
    }
    var target := TargetGroup(pool, d);
    var found := client.asgs[target].desired;
    ghost var before := client.asgs;
    var scaled := client.SetDesiredCapacity(target, found + 1, ans.scaleAccepted);
    if !scaled {
      return Unchanged;
    }
    var name := WaitForNewNode(ans.baseline, pool, d, ans.polls);
    if name.None? {
      var rolledBack := client.SetDesiredCapacity(target, found, ans.rollbackAccepted);
      if rolledBack {
        assert client.asgs == before;
        return Unchanged;
      }
      return Stranded;
    }
    return Ready(name.value);
  }

  // ----- one preparation per requested pool

  /** The scale-up of this group's own pool stands after its preparation. */
  predicate StandsRaised(g: Groups, requests: map<string, Direction>, answers: string -> SwapAnswers, pool: string) {
    pool in requests && !PreparationOf(g, pool, requests[pool], answers(pool)).Unchanged?
  }

  /** All requested preparations, in whatever order: each pool's outcome depends on its own twins only. */
  function PreparedAll(g: Groups, requests: map<string, Direction>, answers: string -> SwapAnswers): (h: Groups)
    ensures h.Keys == g.Keys
  {
    map id | id in g ::
      if StandsRaised(g, requests, answers, id.pool) && id == TargetGroup(id.pool, requests[id.pool])
      then g[id].(desired := g[id].desired + 1, current := g[id].desired + 1)
      else g[id]
  }

  lemma SameTwinsSameOutcome(g: Groups, h: Groups, pool: string, d: Direction, ans: SwapAnswers)
    requires SpotAsg(pool) in g <==> SpotAsg(pool) in h
    requires OnDemandAsg(pool) in g <==> OnDemandAsg(pool) in h
    requires SpotAsg(pool) in g ==> g[SpotAsg(pool)] == h[SpotAsg(pool)]
    requires OnDemandAsg(pool) in g ==> g[OnDemandAsg(pool)] == h[OnDemandAsg(pool)]
    ensures PreparationOf(g, pool, d, ans) == PreparationOf(h, pool, d, ans)
  {
  }

  /** One more pool prepared on top of others. */
  lemma PreparedOneMore(g: Groups, done: map<string, Direction>, answers: string -> SwapAnswers, pool: string, d: Direction)
    requires pool !in done
    ensures var h := PreparedAll(g, done, answers);
            var p := PreparationOf(h, pool, d, answers(pool));
            && p == PreparationOf(g, pool, d, answers(pool))
            && (!p.Unchanged? ==> HasTwins(h, pool))
            && (if p.Unchanged? then h else Prepare(h, pool, d, p)) == PreparedAll(g, done[pool := d], answers)
  {
    var h, all := PreparedAll(g, done, answers), PreparedAll(g, done[pool := d], answers);
    hide PreparationOf, ScaleFits;
    TwinsBeforePrep(g, done, answers, pool);
    SameTwinsSameOutcome(g, h, pool, d, answers(pool));
    var p := PreparationOf(h, pool, d, answers(pool));
    RaisedHasTwins(h, pool, d, answers(pool));
    var after := if p.Unchanged? then h else Prepare(h, pool, d, p);
    forall id | id in g ensures id in after && after[id] == all[id] {
      if id.pool != pool {
        assert StandsRaised(g, done[pool := d], answers, id.pool) == StandsRaised(g, done, answers, id.pool);
      }
    }
    assert after.Keys == g.Keys;
  }

  lemma RaisedHasTwins(g: Groups, pool: string, d: Direction, ans: SwapAnswers)
    ensures !PreparationOf(g, pool, d, ans).Unchanged? ==> HasTwins(g, pool)
  {
  }

  /** Preparing other pools leaves this one's twins as they were. */
  lemma TwinsBeforePrep(g: Groups, done: map<string, Direction>, answers: string -> SwapAnswers, pool: string)
    requires pool !in done
    ensures forall id: AsgId :: id.pool == pool ==>
              (id in g <==> id in PreparedAll(g, done, answers)) && (id in g ==> PreparedAll(g, done, answers)[id] == g[id])
  {
    hide PreparationOf;
    assert PreparedAll(g, done, answers).Keys == g.Keys;
  }

  // ----- PostDrainCleanup

  /** instance is what the provider ID names ("" if none); instanceAsg the direct lookup, if it answered. */
  datatype CleanupAnswers = CleanupAnswers(
    nodeFound: bool, instance: string, instanceAsg: Option<AsgId>, discoverable: bool, capacity: CapacityType, terminateAccepted: bool)

  /** sourceASGForNode */
  function SourceOf(g: Groups, pool: string, ans: CleanupAnswers): Option<AsgId> {
    if ans.instanceAsg.Some? then ans.instanceAsg
    else if pool == "" || !ans.discoverable || !HasTwins(g, pool) then None
    else
      match ans.capacity
      case Spot => Some(SpotAsg(pool))
      case OnDemand => Some(OnDemandAsg(pool))
      case OtherCapacity => None
  }

  /** The group in which cleanup will terminate the instance, None when it gives up with an error. */
  function CleanupTarget(g: Groups, pool: string, ans: CleanupAnswers): (target: Option<AsgId>)
    ensures target.Some? ==> target.value in g
  {
    if !ans.nodeFound || ans.instance == "" then None
    else
      match SourceOf(g, pool, ans)
      case None => None
      case Some(id) => if ans.terminateAccepted && id in g then Some(id) else None
  }

  /** Which groups exist is all that the choice of the group depends on. */
  lemma CleanupTargetByKeys(g: Groups, h: Groups, pool: string, ans: CleanupAnswers)
    requires g.Keys == h.Keys
    ensures CleanupTarget(g, pool, ans) == CleanupTarget(h, pool, ans)
  {
    assert forall id: AsgId :: id in g.Keys <==> id in h.Keys;
  }

  function Cleanup(g: Groups, target: Option<AsgId>): (h: Groups)
    requires target.Some? ==> target.value in g
    ensures h.Keys == g.Keys
  {
    if target.Some? then Terminate(g, target.value) else g
  }

  method PostDrainCleanup(client: AsgClient, pool: string, ans: CleanupAnswers) returns (terminatedIn: Option<AsgId>)
    requires client.Valid()
    modifies client
    ensures client.Valid() && client.scaleUpCalls == old(client.scaleUpCalls)
    ensures terminatedIn == CleanupTarget(old(client.asgs), pool, ans)
    ensures client.asgs == Cleanup(old(client.asgs), terminatedIn)
    ensures client.terminateCalls
            == old(client.terminateCalls) + (if terminatedIn.Some? then [(terminatedIn.value, ans.instance)] else [])
  {
    if !ans.nodeFound || ans.instance == "" {
      return None;
    }
    var source := SourceOf(client.asgs, pool, ans);
    if source.None? {
      return None;
    }
    var ok := client.TerminateInstance(source.value, ans.instance, ans.terminateAccepted);
    return if ok then source else None;
  }

  // ----- the ledger

  /** A preparation adds one to its own pool unless it left everything as found, and touches no other pool. */
  lemma PrepareLedger(g: Groups, pool: string, d: Direction, p: Preparation, other: string)
    requires HasTwins(g, pool) && HasTwins(g, other)
    ensures HasTwins(Prepare(g, pool, d, p), other)
    ensures Total(Prepare(g, pool, d, p), other) == Total(g, other) + if pool == other && !p.Unchanged? then 1 else 0
  {
  }

  /** A cleanup takes one from its own pool unless that group is already empty, and touches no other pool. */
  lemma CleanupLedger(g: Groups, id: AsgId, other: string)
    requires id in g && HasTwins(g, other)
    ensures HasTwins(Terminate(g, id), other)
    ensures Total(Terminate(g, id), other) == Total(g, other) - if id.pool == other && g[id].desired > 0 then 1 else 0
  {
  }

  datatype Swap = Swap(pool: string, direction: Direction, node: string)

  function Source(s: Swap): AsgId {
    SourceGroup(s.pool, s.direction)
  }

  function Target(s: Swap): AsgId {
    TargetGroup(s.pool, s.direction)
  }

  /** The scale-up of this swap is within the target's size limit; otherwise the client refuses it. */
  predicate Fits(g: Groups, s: Swap) {
    HasTwins(g, s.pool) && ScaleFits(g, Target(s), g[Target(s)].desired + 1)
  }

  /** One node swapped: its twin raised and ready, then its own instance terminated; a refused scale-up ends the swap. */
  function SwapOne(g: Groups, s: Swap): (h: Groups)
    ensures h.Keys == g.Keys
  {
    if Fits(g, s) then Terminate(Prepare(g, s.pool, s.direction, Ready(s.node)), Source(s)) else g
  }

  function RunSwaps(g: Groups, swaps: seq<Swap>): (h: Groups)
    ensures h.Keys == g.Keys
  {
    if swaps == [] then g else SwapOne(RunSwaps(g, swaps[..|swaps| - 1]), swaps[|swaps| - 1])
  }

  /** The swap goes through and terminates in a group that has no instance left to give up. */
  predicate DrawsOnEmpty(g: Groups, s: Swap) {
    Fits(g, s) && g[Source(s)].desired <= 0
  }

  /** What one swap does to one group. */
  lemma SwapAt(g: Groups, s: Swap, id: AsgId)
    requires id in g
    ensures id in SwapOne(g, s) && SwapOne(g, s)[id].maxSize == g[id].maxSize
    ensures SwapOne(g, s)[id].desired - g[id].desired
            == if !Fits(g, s) then 0 else if Target(s) == id then 1 else if Source(s) == id && g[id].desired > 0 then -1 else 0
  {
  }

  lemma SwapLedger(g: Groups, s: Swap, pool: string)
    requires HasTwins(g, pool)
    ensures HasTwins(SwapOne(g, s), pool)
    ensures Total(SwapOne(g, s), pool) == Total(g, pool) + if s.pool == pool && DrawsOnEmpty(g, s) then 1 else 0
  {
    if Fits(g, s) {
      var raised := Prepare(g, s.pool, s.direction, Ready(s.node));
      PrepareLedger(g, s.pool, s.direction, Ready(s.node), pool);
      CleanupLedger(raised, Source(s), pool);
    }
  }

  /** How many of the swaps drew on an already empty group of the pool. */
  ghost function EmptyDraws(g: Groups, swaps: seq<Swap>, pool: string): nat {
    if swaps == [] then 0
    else
      var front, last := swaps[..|swaps| - 1], swaps[|swaps| - 1];
      EmptyDraws(g, front, pool) + if last.pool == pool && DrawsOnEmpty(RunSwaps(g, front), last) then 1 else 0
  }

  lemma TwinsStay(g: Groups, swaps: seq<Swap>, pool: string)
    ensures HasTwins(RunSwaps(g, swaps), pool) <==> HasTwins(g, pool)
  {
    var h := RunSwaps(g, swaps);
    assert SpotAsg(pool) in h.Keys <==> SpotAsg(pool) in g.Keys;
    assert OnDemandAsg(pool) in h.Keys <==> OnDemandAsg(pool) in g.Keys;
  }

  /**
    Over any sequence of single-node swaps, refused ones included, a pool's spot plus on-demand
    capacity never dips below its start, and it exceeds the start by exactly the number of swaps that
    drew on an empty group: it is conserved if and only if there was none.
   */
  lemma {:induction false} SwapsConserveCapacity(g: Groups, swaps: seq<Swap>, pool: string)
    requires HasTwins(g, pool)
    ensures HasTwins(RunSwaps(g, swaps), pool)
    ensures Total(RunSwaps(g, swaps), pool) == Total(g, pool) + EmptyDraws(g, swaps, pool)
    ensures Total(RunSwaps(g, swaps), pool) >= Total(g, pool)
    ensures Total(RunSwaps(g, swaps), pool) == Total(g, pool) <==> EmptyDraws(g, swaps, pool) == 0
  {
    if swaps != [] {
      var front := swaps[..|swaps| - 1];
      SwapsConserveCapacity(g, front, pool);
      SwapLedger(RunSwaps(g, front), swaps[|swaps| - 1], pool);
      hide DrawsOnEmpty, SwapOne;
    }
  }

  // ----- when capacity is conserved, counted on the swaps that were accepted

  /** The swaps whose scale-up was not refused, in order. */
  function AcceptedSwaps(g: Groups, swaps: seq<Swap>): seq<Swap> {
    if swaps == [] then []
    else
      var front, last := swaps[..|swaps| - 1], swaps[|swaps| - 1];
      AcceptedSwaps(g, front) + if Fits(RunSwaps(g, front), last) then [last] else []
  }

  /** Swaps into a group less swaps out of it. */
  function NetInflow(swaps: seq<Swap>, id: AsgId): int {
    if swaps == [] then 0
    else
      var last := swaps[|swaps| - 1];
      NetInflow(swaps[..|swaps| - 1], id) + (if Target(last) == id then 1 else if Source(last) == id then -1 else 0)
  }

  /** At each swap of the pool, what its source group started with plus the net inflow so far is positive. */
  ghost predicate Covered(g: Groups, swaps: seq<Swap>, pool: string)
    requires HasTwins(g, pool)
  {
    forall i :: 0 <= i < |swaps| && swaps[i].pool == pool ==>
                  g[Source(swaps[i])].desired + NetInflow(swaps[..i], Source(swaps[i])) > 0
  }

  lemma CoveredOneMore(g: Groups, front: seq<Swap>, last: Swap, pool: string)
    requires HasTwins(g, pool)
    ensures Covered(g, front + [last], pool) <==>
            Covered(g, front, pool) && (last.pool == pool ==> g[Source(last)].desired + NetInflow(front, Source(last)) > 0)
  {
    var swaps := front + [last];
    assert forall i :: 0 <= i < |front| ==> swaps[i] == front[i] && swaps[..i] == front[..i];
    assert swaps[|front|] == last && swaps[..|front|] == front;
  }

  lemma NetInflowOneMore(front: seq<Swap>, last: Swap, id: AsgId)
    ensures NetInflow(front + [last], id)
            == NetInflow(front, id) + if Target(last) == id then 1 else if Source(last) == id then -1 else 0
  {
    assert (front + [last])[..|front|] == front;
  }

  /** Without empty draws, each group of the pool moves by exactly the net inflow of the accepted swaps. */
  lemma {:induction false} DesiredFollowsPlan(g: Groups, swaps: seq<Swap>, pool: string, id: AsgId)
    requires HasTwins(g, pool) && EmptyDraws(g, swaps, pool) == 0 && id.pool == pool
    ensures id in RunSwaps(g, swaps) && RunSwaps(g, swaps)[id].desired == g[id].desired + NetInflow(AcceptedSwaps(g, swaps), id)
  {
    assert id in g.Keys;
    if swaps != [] {
      var front, last := swaps[..|swaps| - 1], swaps[|swaps| - 1];
      var before := RunSwaps(g, front);
      assert RunSwaps(g, swaps) == SwapOne(before, last);
      assert AcceptedSwaps(g, swaps) == if Fits(before, last) then AcceptedSwaps(g, front) + [last] else AcceptedSwaps(g, front);
      assert EmptyDraws(g, front, pool) == 0 && !(last.pool == pool && DrawsOnEmpty(before, last));
      hide SwapOne, NetInflow, ScaleFits, RunSwaps, AcceptedSwaps, EmptyDraws, HasTwins;
      DesiredFollowsPlan(g, front, pool, id);
      NetInflowOneMore(AcceptedSwaps(g, front), last, id);
      SwapAt(before, last, id);
    }
  }

  /**
    Capacity is conserved exactly when the accepted swaps are covered: a count on the starting sizes
    and the list, with the failing swaps being those that terminate in a group already at zero.
   */
  lemma {:induction false} ConservedIffCovered(g: Groups, swaps: seq<Swap>, pool: string)
    requires HasTwins(g, pool)
    ensures HasTwins(RunSwaps(g, swaps), pool)
    ensures Total(RunSwaps(g, swaps), pool) == Total(g, pool) <==> Covered(g, AcceptedSwaps(g, swaps), pool)
  {
    SwapsConserveCapacity(g, swaps, pool);
    if swaps != [] {
      var front, last := swaps[..|swaps| - 1], swaps[|swaps| - 1];
      SwapsConserveCapacity(g, front, pool);
      ConservedIffCovered(g, front, pool);
      CoveredOneMore(g, AcceptedSwaps(g, front), last, pool);
      assert AcceptedSwaps(g, front) + [] == AcceptedSwaps(g, front);
      if EmptyDraws(g, front, pool) == 0 && last.pool == pool {
        DesiredFollowsPlan(g, front, pool, Source(last));
      }
      hide Covered, NetInflow, Total, SwapOne;
    }
  }

  /** Every group the plan touches has room for the whole of it. */
  ghost predicate Roomy(g: Groups, swaps: seq<Swap>, extra: nat) {
    forall s :: s in swaps ==> HasTwins(g, s.pool) && g[Target(s)].desired + extra <= g[Target(s)].maxSize
  }

  ghost predicate GrownBy(g: Groups, h: Groups, plan: seq<Swap>, n: nat) {
    forall s :: s in plan ==>
      Target(s) in g && Target(s) in h && h[Target(s)].desired <= g[Target(s)].desired + n && h[Target(s)].maxSize == g[Target(s)].maxSize
  }

  /** Then nothing is refused, and coverage can be read off the plan as it stands. */
  lemma {:induction false} RoomyPlansAreAccepted(g: Groups, swaps: seq<Swap>, plan: seq<Swap>, n: nat)
    requires n <= |plan| && swaps == plan[..n] && Roomy(g, plan, |plan|)
    ensures AcceptedSwaps(g, swaps) == swaps && GrownBy(g, RunSwaps(g, swaps), plan, n)
  {
    if n > 0 {
      var front, last := plan[..n - 1], plan[n - 1];
      assert swaps[..|swaps| - 1] == front && swaps[|swaps| - 1] == last && last in plan;
      RoomyPlansAreAccepted(g, front, plan, n - 1);
      var before := RunSwaps(g, front);
      TwinsStay(g, front, last.pool);
      assert Fits(before, last);
      hide SwapOne;
      forall s | s in plan ensures Target(s) in SwapOne(before, last) && SwapOne(before, last)[Target(s)].desired <= g[Target(s)].desired + n
                                   && SwapOne(before, last)[Target(s)].maxSize == g[Target(s)].maxSize {
        SwapAt(before, last, Target(s));
      }
    }
  }

  /** Swapping the only Spot node twice over: the second swap finds an empty group and the pool ends one too large. */
  lemma EmptyGroupGrows(pool: string, node: string)
    ensures var g := map[SpotAsg(pool) := AsgInfo(1, 1, 9), OnDemandAsg(pool) := AsgInfo(0, 0, 9)];
            var twice := [Swap(pool, ToOnDemand, node), Swap(pool, ToOnDemand, node)];
            && HasTwins(RunSwaps(g, twice), pool) && Total(RunSwaps(g, twice), pool) == Total(g, pool) + 1
  {
    var g := map[SpotAsg(pool) := AsgInfo(1, 1, 9), OnDemandAsg(pool) := AsgInfo(0, 0, 9)];
    var once := [Swap(pool, ToOnDemand, node)];
    var twice := once + once;
    assert twice == [Swap(pool, ToOnDemand, node), Swap(pool, ToOnDemand, node)];
    assert once[..0] == [] && twice[..1] == once;
    SwapsConserveCapacity(g, twice, pool);
  }
}
