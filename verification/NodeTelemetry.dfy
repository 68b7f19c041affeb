/**
  Node reliability signals: each poll is compared with the last successful one.
 */
module NodeTelemetry {
  import opened Wrappers

  /** A listed node: its identity (UID, else name) and its Ready condition. */
  datatype NodeObs = NodeObs(key: string, ready: bool)

  /** One poll of the node list; None when the API call failed. */
  type Poll = Option<seq<NodeObs>>

  function KeysOf(nodes: seq<NodeObs>): set<string> {
    set n | n in nodes :: n.key
  }

  ghost predicate Distinct(nodes: seq<NodeObs>) {
    forall i, j :: 0 <= i < j < |nodes| ==> nodes[i].key != nodes[j].key
  }

  function ReadyMap(nodes: seq<NodeObs>): map<string, bool> {
    if nodes == [] then map[] else ReadyMap(nodes[..|nodes| - 1])[nodes[|nodes| - 1].key := nodes[|nodes| - 1].ready]
  }

  lemma {:induction false} ReadyMapKeys(nodes: seq<NodeObs>)
    ensures ReadyMap(nodes).Keys == KeysOf(nodes)
  {
    if nodes != [] {
      var front, last := nodes[..|nodes| - 1], nodes[|nodes| - 1];
      ReadyMapKeys(front);
      assert nodes == front + [last];
    }
  }

  // ----- what one successful poll adds

  /** Nodes ready at the previous poll and listed not ready at this one. */
  ghost function Drops(prev: map<string, bool>, cur: map<string, bool>): set<string> {
    set k | k in prev && IsDrop(prev, cur, k)
  }

  predicate IsDrop(prev: map<string, bool>, cur: map<string, bool>, k: string) {
    k in prev && k in cur && prev[k] && !cur[k]
  }

  /** The counter as the loop computes it, the map being overwritten while it is read. */
  function FoldDrops(prev: map<string, bool>, nodes: seq<NodeObs>): nat {
    if nodes == [] then 0
    else
      var front, last := nodes[..|nodes| - 1], nodes[|nodes| - 1];
      var seen := prev + ReadyMap(front);
      FoldDrops(prev, front) + if last.key in seen && seen[last.key] && !last.ready then 1 else 0
  }

  /** With one entry per node, the running counter counts exactly the ready-then-not-ready nodes. */
  lemma {:induction false} FoldCountsDrops(prev: map<string, bool>, nodes: seq<NodeObs>)
    requires Distinct(nodes)
    ensures FoldDrops(prev, nodes) == |Drops(prev, ReadyMap(nodes))|
  {
    if nodes == [] {
      assert Drops(prev, map[]) == {};
    } else {
      var front, last := nodes[..|nodes| - 1], nodes[|nodes| - 1];
      FoldCountsDrops(prev, front);
      assert last.key !in ReadyMap(front) by {
        ReadyMapKeys(front);
      }
      DropsOneMore(prev, ReadyMap(front), last.key, last.ready);
      hide Drops;
    }
  }

  lemma DropsOneMore(prev: map<string, bool>, cur: map<string, bool>, k: string, ready: bool)
    requires k !in cur
    ensures |Drops(prev, cur[k := ready])| == |Drops(prev, cur)| + if k in prev && prev[k] && !ready then 1 else 0
  {
    var before, after := Drops(prev, cur), Drops(prev, cur[k := ready]);
    var added := if IsDrop(prev, cur[k := ready], k) then {k} else {};
    forall x ensures x in after <==> x in before + added {
      assert x != k ==> IsDrop(prev, cur[k := ready], x) == IsDrop(prev, cur, x);
    }
    assert !IsDrop(prev, cur, k);
    assert after == before + added && before !! added;
  }

  /** One step of the scan, in terms of the values it maintains. */
  lemma ScanOneMore(prev: map<string, bool>, nodes: seq<NodeObs>, i: nat)
    requires i < |nodes|
    ensures ReadyMap(nodes[..i + 1]) == ReadyMap(nodes[..i])[nodes[i].key := nodes[i].ready]
    ensures KeysOf(nodes[..i + 1]) == KeysOf(nodes[..i]) + {nodes[i].key}
    ensures FoldDrops(prev, nodes[..i + 1]) == FoldDrops(prev, nodes[..i])
                                               + var seen := prev + ReadyMap(nodes[..i]);
                                                 if nodes[i].key in seen && seen[nodes[i].key] && !nodes[i].ready then 1 else 0
  {
    assert nodes[..i + 1][..i] == nodes[..i];
    assert nodes[..i + 1] == nodes[..i] + [nodes[i]];
  }

  // ----- map steps of the two loops

  lemma MergeThenPut(a: map<string, bool>, b: map<string, bool>, k: string, v: bool)
    ensures a + b[k := v] == (a + b)[k := v]
  {
  }

  /** Nodes seen last time, already looked at, and not seen now. */
  ghost function Gone(all: set<string>, left: set<string>, seen: set<string>): set<string> {
    (all - left) - seen
  }

  lemma GoneOneMore(all: set<string>, left: set<string>, seen: set<string>, k: string)
    requires k in left && left <= all
    ensures var before, after := Gone(all, left, seen), Gone(all, left - {k}, seen);
            if k in seen then after == before else k !in before && after == before + {k} && |after| == |before| + 1
  {
    var before, after := Gone(all, left, seen), Gone(all, left - {k}, seen);
    assert after == if k in seen then before else before + {k};
  }

  lemma RemoveOneMore(m: map<string, bool>, gone: set<string>, k: string)
    ensures (m - gone) - {k} == m - (gone + {k})
  {
  }

  lemma PruneLeavesCurrent(prev: map<string, bool>, cur: map<string, bool>)
    ensures (prev + cur) - (prev.Keys - cur.Keys) == cur
  {
  }

  class NodeSignals {
    var lastNodeReady: map<string, bool>
    var lastSeenNodes: set<string>

    ghost predicate Valid()
      reads this
    {
      lastNodeReady.Keys == lastSeenNodes
    }

    constructor ()
      ensures Valid() && lastNodeReady == map[]
    {
      lastNodeReady, lastSeenNodes := map[], {};
    }

    /** collectNodeSignals */
    method Collect(poll: Poll) returns (transitions: nat, terminations: nat)
      requires Valid()
      modifies this
      ensures Valid() && lastNodeReady == Next(old(lastNodeReady), poll)
      ensures terminations == Departures(old(lastNodeReady), poll)
      ensures poll.Some? ==> transitions == FoldDrops(old(lastNodeReady), poll.value)
      ensures poll.None? ==> transitions == 0
    {
      transitions, terminations := 0, 0;
      if poll.None? {
        return;
      }
      var currentSeen;
      ghost var prev := lastNodeReady;
      currentSeen, transitions := Scan(poll.value);
      terminations := Prune(currentSeen);
      ReadyMapKeys(poll.value);
      PruneLeavesCurrent(prev, ReadyMap(poll.value));
      hide ReadyMap, KeysOf, FoldDrops;
      lastSeenNodes := currentSeen;
    }

    /** First loop: overwrite readiness while counting ready-to-not-ready transitions. */
    method Scan(nodes: seq<NodeObs>) returns (currentSeen: set<string>, transitions: nat)
      modifies this`lastNodeReady
      ensures lastNodeReady == old(lastNodeReady) + ReadyMap(nodes)
      ensures currentSeen == KeysOf(nodes) && transitions == FoldDrops(old(lastNodeReady), nodes)
    {
      ghost var prev := lastNodeReady;
      transitions, currentSeen := 0, {};
      assert nodes[..0] == [] && prev + map[] == prev;
      for i := 0 to |nodes|
        invariant lastNodeReady == prev + ReadyMap(nodes[..i])
        invariant currentSeen == KeysOf(nodes[..i]) && transitions == FoldDrops(prev, nodes[..i])
      {
        ScanOneMore(prev, nodes, i);
        MergeThenPut(prev, ReadyMap(nodes[..i]), nodes[i].key, nodes[i].ready);
        var n := nodes[i];
        currentSeen := currentSeen + {n.key};
        if n.key in lastNodeReady && lastNodeReady[n.key] && !n.ready {
          transitions := transitions + 1;
        }
        hide ReadyMap, KeysOf, FoldDrops;
        lastNodeReady := lastNodeReady[n.key := n.ready];
      }
      assert nodes[..|nodes|] == nodes;
    }

    /** Second loop: nodes seen last time but not now are counted and forgotten, in any order. */
    method Prune(currentSeen: set<string>) returns (terminations: nat)
      modifies this`lastNodeReady
      ensures terminations == |lastSeenNodes - currentSeen|
      ensures lastNodeReady == old(lastNodeReady) - (lastSeenNodes - currentSeen)
    {
      terminations := 0;
      var left := lastSeenNodes;
      ghost var all, ready := lastSeenNodes, lastNodeReady;
      assert Gone(all, left, currentSeen) == {} && ready - {} == ready;
      while left != {}
        invariant left <= all && terminations == |Gone(all, left, currentSeen)| && lastNodeReady == ready - Gone(all, left, currentSeen)
        decreases left
      {
        var k :| k in left;
        GoneOneMore(all, left, currentSeen, k);
        RemoveOneMore(ready, Gone(all, left, currentSeen), k);
        hide Gone;
        left := left - {k};
        if k !in currentSeen {
          terminations := terminations + 1;
          lastNodeReady := lastNodeReady - {k};
        }
      }
      assert Gone(all, {}, currentSeen) == all - currentSeen;
    }
  }

  // ----- runs

  /** The readiness map after a poll; a failed poll is a stutter. */
  function Next(prev: map<string, bool>, poll: Poll): map<string, bool> {
    if poll.None? then prev else ReadyMap(poll.value)
  }

  function Departures(prev: map<string, bool>, poll: Poll): nat {
    if poll.None? then 0 else |prev.Keys - KeysOf(poll.value)|
  }

  function Arrivals(prev: map<string, bool>, poll: Poll): nat {
    if poll.None? then 0 else |KeysOf(poll.value) - prev.Keys|
  }

  function StateAfter(polls: seq<Poll>): map<string, bool> {
    if polls == [] then map[] else Next(StateAfter(polls[..|polls| - 1]), polls[|polls| - 1])
  }

  function TotalDepartures(polls: seq<Poll>): nat {
    if polls == [] then 0
    else TotalDepartures(polls[..|polls| - 1]) + Departures(StateAfter(polls[..|polls| - 1]), polls[|polls| - 1])
  }

  function TotalArrivals(polls: seq<Poll>): nat {
    if polls == [] then 0
    else TotalArrivals(polls[..|polls| - 1]) + Arrivals(StateAfter(polls[..|polls| - 1]), polls[|polls| - 1])
  }

  lemma SwapDifference(a: set<string>, b: set<string>)
    ensures |a - b| + |b| == |a| + |b - a|
  {
    assert (a - b) + b == a + (b - a);
    assert |(a - b) + b| == |a - b| + |b|;
    assert |a + (b - a)| == |a| + |b - a|;
  }

  /** Over any run of polls, terminations plus nodes last seen equals arrivals. */
  lemma {:induction false} NodesAreConserved(polls: seq<Poll>)
    ensures TotalDepartures(polls) + |StateAfter(polls).Keys| == TotalArrivals(polls)
  {
    if polls != [] {
      var front, last := polls[..|polls| - 1], polls[|polls| - 1];
      NodesAreConserved(front);
      if last.Some? {
        ReadyMapKeys(last.value);
        SwapDifference(StateAfter(front).Keys, KeysOf(last.value));
      }
    }
  }

  // ----- transitions over a run

  function TotalTransitions(polls: seq<Poll>): nat {
    if polls == [] then 0
    else
      var front, last := polls[..|polls| - 1], polls[|polls| - 1];
      TotalTransitions(front) + if last.None? then 0 else FoldDrops(StateAfter(front), last.value)
  }

  /** At poll i, node k is listed not ready after being ready at the successful poll before it. */
  ghost predicate DropsAt(polls: seq<Poll>, i: int, k: string) {
    0 <= i < |polls| && polls[i].Some? && IsDrop(StateAfter(polls[..i]), ReadyMap(polls[i].value), k)
  }

  ghost function Tagged(n: int, keys: set<string>): set<(int, string)> {
    set k | k in keys :: (n, k)
  }

  lemma {:induction false} TaggedSize(n: int, keys: set<string>)
    ensures |Tagged(n, keys)| == |keys|
    decreases keys
  {
    if keys != {} {
      var k :| k in keys;
      TaggedSize(n, keys - {k});
      assert Tagged(n, keys) == Tagged(n, keys - {k}) + {(n, k)};
    }
  }

  /** pairs holds exactly the (poll, node) pairs at which a node drops. */
  ghost predicate AreDropPairs(polls: seq<Poll>, pairs: set<(int, string)>) {
    forall i, k :: (i, k) in pairs <==> DropsAt(polls, i, k)
  }

  lemma DropsAtFront(polls: seq<Poll>, i: int, k: string)
    requires polls != [] && i < |polls| - 1
    ensures DropsAt(polls, i, k) <==> DropsAt(polls[..|polls| - 1], i, k)
  {
    if 0 <= i {
      assert polls[..|polls| - 1][..i] == polls[..i];
    }
  }

  /** Over any run, the reported transitions are exactly the ready-then-not-ready pairs of successive successful polls. */
  lemma {:induction false} TransitionsAreDropPairs(polls: seq<Poll>) returns (pairs: set<(int, string)>)
    requires forall i :: 0 <= i < |polls| && polls[i].Some? ==> Distinct(polls[i].value)
    ensures AreDropPairs(polls, pairs) && TotalTransitions(polls) == |pairs|
  {
    pairs := {};
    if polls != [] {
      var n := |polls| - 1;
      var front, last := polls[..n], polls[n];
      var before := TransitionsAreDropPairs(front);
      var fresh' := if last.None? then {} else Drops(StateAfter(front), ReadyMap(last.value));
      pairs := before + Tagged(n, fresh');
      if last.Some? {
        FoldCountsDrops(StateAfter(front), last.value);
      }
      assert TotalTransitions(polls) == TotalTransitions(front) + |fresh'|;
      forall k ensures DropsAt(polls, n, k) <==> k in fresh' {
      }
      hide FoldDrops, ReadyMap, StateAfter, DropsAt, TotalTransitions, Drops;
      forall i, k | i < n ensures DropsAt(polls, i, k) <==> DropsAt(front, i, k) {
        DropsAtFront(polls, i, k);
      }
      DropsAreListed(polls);
      DropsAreListed(front);
      PairsJoin(polls, front, before, fresh');
    }
  }

  lemma DropsAreListed(polls: seq<Poll>)
    ensures forall i, k :: DropsAt(polls, i, k) ==> 0 <= i < |polls|
  {
  }

  lemma PairsJoin(polls: seq<Poll>, front: seq<Poll>, before: set<(int, string)>, last: set<string>)
    requires polls != [] && AreDropPairs(front, before)
    requires forall i, k :: i < |polls| - 1 ==> (DropsAt(polls, i, k) <==> DropsAt(front, i, k))
    requires forall k :: DropsAt(polls, |polls| - 1, k) <==> k in last
    requires forall i, k :: DropsAt(polls, i, k) ==> 0 <= i < |polls|
    requires forall i, k :: DropsAt(front, i, k) ==> 0 <= i < |polls| - 1
    ensures AreDropPairs(polls, before + Tagged(|polls| - 1, last))
    ensures |before + Tagged(|polls| - 1, last)| == |before| + |last|
  {
    hide DropsAt;
    TaggedSize(|polls| - 1, last);
    assert before !! Tagged(|polls| - 1, last);
  }

  // ----- an independent reading: a node is last seen exactly if the last successful poll listed it

  ghost predicate LastListed(polls: seq<Poll>, i: nat, k: string, ready: bool) {
    && i < |polls| && polls[i].Some? && k in ReadyMap(polls[i].value) && ReadyMap(polls[i].value)[k] == ready
    && forall j :: i < j < |polls| ==> polls[j].None?
  }

  /** The tracked readiness is that of the last successful poll, however many failures follow it. */
  lemma {:induction false} StateIsLastSuccess(polls: seq<Poll>, k: string, ready: bool)
    ensures (k in StateAfter(polls) && StateAfter(polls)[k] == ready) <==> exists i: nat :: LastListed(polls, i, k, ready)
  {
    if polls != [] {
      var n := |polls| - 1;
      var front := polls[..n];
      StateIsLastSuccess(front, k, ready);
      if polls[n].Some? {
        if k in StateAfter(polls) && StateAfter(polls)[k] == ready {
          assert LastListed(polls, n, k, ready);
        }
        if i: nat :| LastListed(polls, i, k, ready) {
          assert i == n;
        }
      } else {
        if i: nat :| LastListed(front, i, k, ready) {
          assert LastListed(polls, i, k, ready);
        }
        if i: nat :| LastListed(polls, i, k, ready) {
          assert LastListed(front, i, k, ready);
        }
      }
    }
  }
}
