/**
  Pod reliability signals: container restart deltas and the length of Pending stretches, both
  obtained by comparing successive polls. Times are seconds; 0 stands for an unset time.
 */
module PodTelemetry {
  import opened Wrappers
  import opened Sums

  datatype Phase = Pending | Running | OtherPhase

  /** A container status under its key "pod/container". */
  datatype ContainerObs = ContainerObs(key: string, restarts: int)

  datatype PodObs = PodObs(key: string, phase: Phase, created: int, started: int, containers: seq<ContainerObs>)

  datatype Listing = Listing(pods: seq<PodObs>, now: int)

  /** One poll of the pod list; None when the API call failed. */
  type Poll = Option<Listing>

  datatype Status = Status(phase: Phase, pendingSince: int)

  // ----- the two time helpers

  function PendingStart(p: PodObs, now: int): int {
    if p.created != 0 then (if p.created > now then now else p.created) else now
  }

  function PendingDuration(start: int, p: PodObs, now: int): int {
    var end := if p.phase.Running? && p.started != 0 then p.started else now;
    var from := if start == 0 then end else start;
    if end < from then 0 else end - from
  }

  // ----- one pod against its remembered status

  function StatusOf(m: map<string, Status>, key: string): Status {
    if key in m then m[key] else Status(OtherPhase, 0)
  }

  predicate InStretch(s: Status) {
    s.phase.Pending? && s.pendingSince != 0
  }

  function NextStatus(prev: Status, p: PodObs, now: int): Status {
    if !p.phase.Pending? then Status(p.phase, 0)
    else if InStretch(prev) then Status(Pending, prev.pendingSince)
    else Status(Pending, PendingStart(p, now))
  }

  /** The sample a pod yields: one when a remembered stretch ends in another phase, none otherwise. */
  function SampleOf(prev: Status, p: PodObs, now: int): seq<int> {
    if !p.phase.Pending? && InStretch(prev) then [PendingDuration(prev.pendingSince, p, now)] else []
  }

  function RecoveryOf(prev: Status, p: PodObs, now: int): seq<int> {
    if p.phase.Running? then SampleOf(prev, p, now) else []
  }

  // ----- the loop over the listing, the map being rewritten while it is read

  function Statuses(prev: map<string, Status>, pods: seq<PodObs>, now: int): map<string, Status> {
    if pods == [] then prev
    else
      var m, last := Statuses(prev, pods[..|pods| - 1], now), pods[|pods| - 1];
      m[last.key := NextStatus(StatusOf(m, last.key), last, now)]
  }

  function Samples(prev: map<string, Status>, pods: seq<PodObs>, now: int): seq<int> {
    if pods == [] then []
    else
      var front, last := pods[..|pods| - 1], pods[|pods| - 1];
      Samples(prev, front, now) + SampleOf(StatusOf(Statuses(prev, front, now), last.key), last, now)
  }

  function Recoveries(prev: map<string, Status>, pods: seq<PodObs>, now: int): seq<int> {
    if pods == [] then []
    else
      var front, last := pods[..|pods| - 1], pods[|pods| - 1];
      Recoveries(prev, front, now) + RecoveryOf(StatusOf(Statuses(prev, front, now), last.key), last, now)
  }

  function Flatten(pods: seq<PodObs>): seq<ContainerObs> {
    if pods == [] then [] else Flatten(pods[..|pods| - 1]) + pods[|pods| - 1].containers
  }

  function Restarts(prev: map<string, int>, cs: seq<ContainerObs>): map<string, int> {
    if cs == [] then prev else Restarts(prev, cs[..|cs| - 1])[cs[|cs| - 1].key := cs[|cs| - 1].restarts]
  }

  function Rise(m: map<string, int>, c: ContainerObs): nat {
    if c.key in m && c.restarts > m[c.key] then c.restarts - m[c.key] else 0
  }

  function RestartCount(prev: map<string, int>, cs: seq<ContainerObs>): nat {
    if cs == [] then 0
    else RestartCount(prev, cs[..|cs| - 1]) + Rise(Restarts(prev, cs[..|cs| - 1]), cs[|cs| - 1])
  }

  ghost function PodKeys(pods: seq<PodObs>): set<string> {
    set p | p in pods :: p.key
  }

  ghost function ContainerKeys(cs: seq<ContainerObs>): set<string> {
    set c | c in cs :: c.key
  }

  function Restrict<V>(m: map<string, V>, keep: set<string>): map<string, V> {
    map k | k in m && k in keep :: m[k]
  }

  ghost function NextStatuses(prev: map<string, Status>, poll: Poll): map<string, Status> {
    if poll.None? then prev else Restrict(Statuses(prev, poll.value.pods, poll.value.now), PodKeys(poll.value.pods))
  }

  ghost function NextCounts(prev: map<string, int>, poll: Poll): map<string, int> {
    if poll.None? then prev
    else Restrict(Restarts(prev, Flatten(poll.value.pods)), ContainerKeys(Flatten(poll.value.pods)))
  }

  class PodSignals {
    var lastContainerRestarts: map<string, int>
    var lastPodLifecycleStatus: map<string, Status>

    constructor ()
      ensures lastContainerRestarts == map[] && lastPodLifecycleStatus == map[]
    {
      lastContainerRestarts, lastPodLifecycleStatus := map[], map[];
    }

    /** collectPodSignals */
    method Collect(poll: Poll) returns (restarts: nat, pending: seq<int>, recovery: seq<int>)
      modifies this
      ensures lastPodLifecycleStatus == NextStatuses(old(lastPodLifecycleStatus), poll)
      ensures lastContainerRestarts == NextCounts(old(lastContainerRestarts), poll)
      ensures poll.None? ==> restarts == 0 && pending == [] && recovery == []
      ensures poll.Some? ==>
                && restarts == RestartCount(old(lastContainerRestarts), Flatten(poll.value.pods))
                && pending == Samples(old(lastPodLifecycleStatus), poll.value.pods, poll.value.now)
                && recovery == Recoveries(old(lastPodLifecycleStatus), poll.value.pods, poll.value.now)
    {
      restarts, pending, recovery := 0, [], [];
      if poll.None? {
        return;
      }
      var pods, now := poll.value.pods, poll.value.now;
      ghost var m0, r0 := lastPodLifecycleStatus, lastContainerRestarts;
      var currentPods: set<string>, currentContainers: set<string> := {}, {};
      for i := 0 to |pods|
        invariant lastPodLifecycleStatus == Statuses(m0, pods[..i], now)
        invariant lastContainerRestarts == Restarts(r0, Flatten(pods[..i]))
        invariant restarts == RestartCount(r0, Flatten(pods[..i]))
        invariant pending == Samples(m0, pods[..i], now) && recovery == Recoveries(m0, pods[..i], now)
        invariant currentPods == PodKeys(pods[..i]) && currentContainers == ContainerKeys(Flatten(pods[..i]))
      {
        var pod := pods[i];
        PodsOneMore(pods, i);
        currentPods := currentPods + {pod.key};
        var sample, recovered := TrackPod(pod, now);
        var rises, keys := CountContainers(r0, Flatten(pods[..i]), pod.containers);
        hide PodKeys, ContainerKeys, Restarts, RestartCount, Flatten, SampleOf, RecoveryOf, NextStatus, StatusOf;
        pending, recovery := pending + sample, recovery + recovered;
        restarts := restarts + rises;
        currentContainers := currentContainers + keys;
      }
      assert pods[..|pods|] == pods;
      lastPodLifecycleStatus := Prune(lastPodLifecycleStatus, currentPods);
      lastContainerRestarts := Prune(lastContainerRestarts, currentContainers);
    }

    /** The phase switch for one pod. */
    method TrackPod(pod: PodObs, now: int) returns (sample: seq<int>, recovered: seq<int>)
      modifies this`lastPodLifecycleStatus
      ensures var prev := StatusOf(old(lastPodLifecycleStatus), pod.key);
              && lastPodLifecycleStatus == old(lastPodLifecycleStatus)[pod.key := NextStatus(prev, pod, now)]
              && sample == SampleOf(prev, pod, now) && recovered == RecoveryOf(prev, pod, now)
    {
      sample, recovered := [], [];
      var prev := StatusOf(lastPodLifecycleStatus, pod.key);
      var next := Status(pod.phase, 0);
      if pod.phase.Pending? {
        if InStretch(prev) {
          next := next.(pendingSince := prev.pendingSince);
        } else {
          next := next.(pendingSince := PendingStart(pod, now));
        }
      } else if InStretch(prev) {
        var d := PendingDuration(prev.pendingSince, pod, now);
        sample := [d];
        if pod.phase.Running? {
          recovered := [d];
        }
      }
      lastPodLifecycleStatus := lastPodLifecycleStatus[pod.key := next];
    }

    /** The inner loop over one pod's init and regular container statuses. */
    method CountContainers(ghost r0: map<string, int>, ghost before: seq<ContainerObs>, cs: seq<ContainerObs>)
      returns (rises: nat, keys: set<string>)
      requires lastContainerRestarts == Restarts(r0, before)
      modifies this`lastContainerRestarts
      ensures lastContainerRestarts == Restarts(r0, before + cs)
      ensures RestartCount(r0, before + cs) == RestartCount(r0, before) + rises
      ensures keys == ContainerKeys(cs)
    {
      rises, keys := 0, {};
      assert before + cs[..0] == before;
      for i := 0 to |cs|
        invariant lastContainerRestarts == Restarts(r0, before + cs[..i])
        invariant RestartCount(r0, before + cs[..i]) == RestartCount(r0, before) + rises
        invariant keys == ContainerKeys(cs[..i])
      {
        ContainersOneMore(r0, before, cs, i);
        hide Restarts, RestartCount, ContainerKeys;
        var c := cs[i];
        keys := keys + {c.key};
        if c.key in lastContainerRestarts {
          if c.restarts > lastContainerRestarts[c.key] {
            rises := rises + (c.restarts - lastContainerRestarts[c.key]);
          }
        }
        lastContainerRestarts := lastContainerRestarts[c.key := c.restarts];
      }
      assert before + cs[..|cs|] == before + cs && cs[..|cs|] == cs;
    }
  }

  /** Deletes every key that was not seen this time, in any order. */
  method Prune<V>(m: map<string, V>, keep: set<string>) returns (r: map<string, V>)
    ensures r == Restrict(m, keep)
  {
    r := m;
    var left := m.Keys;
    while left != {}
      invariant left <= m.Keys && r.Keys == left + (m.Keys * keep) && forall k :: k in r ==> r[k] == m[k]
      decreases left
    {
      var k :| k in left;
      left := left - {k};
      if k !in keep {
        r := r - {k};
      }
    }
  }

  lemma PodsOneMore(pods: seq<PodObs>, i: nat)
    requires i < |pods|
    ensures pods[..i + 1][..i] == pods[..i]
    ensures PodKeys(pods[..i + 1]) == PodKeys(pods[..i]) + {pods[i].key}
    ensures Flatten(pods[..i + 1]) == Flatten(pods[..i]) + pods[i].containers
    ensures ContainerKeys(Flatten(pods[..i + 1])) == ContainerKeys(Flatten(pods[..i])) + ContainerKeys(pods[i].containers)
  {
    assert pods[..i + 1][..i] == pods[..i];
    assert pods[..i + 1] == pods[..i] + [pods[i]];
  }

  lemma ContainersOneMore(r0: map<string, int>, before: seq<ContainerObs>, cs: seq<ContainerObs>, i: nat)
    requires i < |cs|
    ensures Restarts(r0, before + cs[..i + 1]) == Restarts(r0, before + cs[..i])[cs[i].key := cs[i].restarts]
    ensures RestartCount(r0, before + cs[..i + 1]) == RestartCount(r0, before + cs[..i]) + Rise(Restarts(r0, before + cs[..i]), cs[i])
    ensures ContainerKeys(cs[..i + 1]) == ContainerKeys(cs[..i]) + {cs[i].key}
  {
    var longer := before + cs[..i + 1];
    assert longer[..|longer| - 1] == before + cs[..i] && longer[|longer| - 1] == cs[i];
    assert cs[..i + 1] == cs[..i] + [cs[i]];
  }

  // ----- pods one by one

  ghost predicate DistinctPods(pods: seq<PodObs>) {
    forall i, j :: 0 <= i < j < |pods| ==> pods[i].key != pods[j].key
  }

  lemma {:induction false} StatusUntouched(prev: map<string, Status>, pods: seq<PodObs>, now: int, key: string)
    requires forall p :: p in pods ==> p.key != key
    ensures StatusOf(Statuses(prev, pods, now), key) == StatusOf(prev, key)
  {
    if pods != [] {
      var front, last := pods[..|pods| - 1], pods[|pods| - 1];
      assert pods == front + [last];
      StatusUntouched(prev, front, now, key);
      hide NextStatus;
    }
  }

  /** With one entry per pod, each listed pod is judged against its status from the previous poll. */
  lemma {:induction false} StatusOfListed(prev: map<string, Status>, pods: seq<PodObs>, now: int, i: nat)
    requires DistinctPods(pods) && i < |pods|
    ensures StatusOf(Statuses(prev, pods, now), pods[i].key) == NextStatus(StatusOf(prev, pods[i].key), pods[i], now)
  {
    var n := |pods| - 1;
    var front := pods[..n];
    if i == n {
      StatusUntouched(prev, front, now, pods[n].key);
    } else {
      StatusOfListed(prev, front, now, i);
      hide NextStatus;
    }
  }

  /** Each listed pod's own sample, in list order, judged against the previous poll only. */
  function OwnSamples(prev: map<string, Status>, pods: seq<PodObs>, now: int): seq<int> {
    if pods == [] then []
    else
      var last := pods[|pods| - 1];
      OwnSamples(prev, pods[..|pods| - 1], now) + SampleOf(StatusOf(prev, last.key), last, now)
  }

  function OwnRecoveries(prev: map<string, Status>, pods: seq<PodObs>, now: int): seq<int> {
    if pods == [] then []
    else
      var last := pods[|pods| - 1];
      OwnRecoveries(prev, pods[..|pods| - 1], now) + RecoveryOf(StatusOf(prev, last.key), last, now)
  }

  lemma {:induction false} SamplesAreOwn(prev: map<string, Status>, pods: seq<PodObs>, now: int)
    requires DistinctPods(pods)
    ensures Samples(prev, pods, now) == OwnSamples(prev, pods, now)
    ensures Recoveries(prev, pods, now) == OwnRecoveries(prev, pods, now)
  {
    if pods != [] {
      var front, last := pods[..|pods| - 1], pods[|pods| - 1];
      SamplesAreOwn(prev, front, now);
      StatusUntouched(prev, front, now, last.key);
      hide SampleOf, RecoveryOf, Statuses;
    }
  }

  // ----- Pending stretches over a run

  function Find(pods: seq<PodObs>, key: string): Option<PodObs> {
    if pods == [] then None
    else if pods[|pods| - 1].key == key then Some(pods[|pods| - 1])
    else Find(pods[..|pods| - 1], key)
  }

  lemma {:induction false} FindMeaning(pods: seq<PodObs>, key: string) returns (i: nat)
    ensures Find(pods, key).Some? ==> i < |pods| && pods[i] == Find(pods, key).value && pods[i].key == key
    ensures Find(pods, key).None? ==> forall p :: p in pods ==> p.key != key
  {
    i := 0;
    if pods != [] {
      var front := pods[..|pods| - 1];
      if pods[|pods| - 1].key == key {
        i := |pods| - 1;
      } else {
        i := FindMeaning(front, key);
        assert pods == front + [pods[|pods| - 1]];
      }
    }
  }

  ghost predicate PendingAt(poll: Poll, key: string) {
    poll.Some? && Find(poll.value.pods, key).Some? && Find(poll.value.pods, key).value.phase.Pending?
  }

  /** A real clock is past the zero time, and the API lists each pod once. */
  ghost predicate LegalPolls(polls: seq<Poll>) {
    forall i :: 0 <= i < |polls| && polls[i].Some? ==> polls[i].value.now != 0 && DistinctPods(polls[i].value.pods)
  }

  ghost function StatusAfter(polls: seq<Poll>): map<string, Status> {
    if polls == [] then map[] else NextStatuses(StatusAfter(polls[..|polls| - 1]), polls[|polls| - 1])
  }

  /** The last successful poll among the first n lists the pod as Pending. */
  ghost predicate PendingBefore(polls: seq<Poll>, n: nat, key: string) {
    n <= |polls| && exists h: nat :: h < n && PendingAt(polls[h], key) && NoneBetween(polls, h, n)
  }

  ghost predicate NoneBetween(polls: seq<Poll>, h: int, n: int) {
    forall j :: h < j < n && 0 <= j < |polls| ==> polls[j].None?
  }

  lemma NextStatusOfKey(prev: map<string, Status>, l: Listing, key: string)
    requires DistinctPods(l.pods)
    ensures StatusOf(NextStatuses(prev, Some(l)), key)
            == match Find(l.pods, key) case Some(p) => NextStatus(StatusOf(prev, key), p, l.now) case None => Status(OtherPhase, 0)
  {
    var i := FindMeaning(l.pods, key);
    if Find(l.pods, key).Some? {
      StatusOfListed(prev, l.pods, l.now, i);
      assert key in PodKeys(l.pods);
      StatusesHasListed(prev, l.pods, l.now, i);
      hide NextStatus, Find;
    } else {
      assert key !in PodKeys(l.pods);
    }
  }

  lemma {:induction false} StatusesHasListed(prev: map<string, Status>, pods: seq<PodObs>, now: int, i: nat)
    requires i < |pods|
    ensures pods[i].key in Statuses(prev, pods, now)
  {
    if i < |pods| - 1 {
      StatusesHasListed(prev, pods[..|pods| - 1], now, i);
    }
  }

  /** The remembered status is inside a stretch exactly when the last successful poll lists the pod as Pending. */
  lemma {:induction false} StretchIffPendingBefore(polls: seq<Poll>, key: string)
    requires LegalPolls(polls)
    ensures InStretch(StatusOf(StatusAfter(polls), key)) <==> PendingBefore(polls, |polls|, key)
  {
    if polls != [] {
      var n := |polls| - 1;
      var front, last := polls[..n], polls[n];
      StretchIffPendingBefore(front, key);
      if last.None? {
        PendingBeforeSkips(polls, key);
      } else {
        NextStatusOfKey(StatusAfter(front), last.value, key);
        if PendingAt(last, key) {
          assert NoneBetween(polls, n, n + 1);
          assert PendingBefore(polls, n + 1, key);
        }
        hide Find, NextStatuses, NoneBetween;
        if h: nat :| h < n + 1 && PendingAt(polls[h], key) && NoneBetween(polls, h, n + 1) {
          LastSuccessIsLast(polls, h, n);
        }
      }
    }
  }

  lemma LastSuccessIsLast(polls: seq<Poll>, h: nat, n: nat)
    requires n < |polls| && h <= n && polls[n].Some? && NoneBetween(polls, h, n + 1)
    ensures h == n
  {
  }

  lemma PendingBeforeSkips(polls: seq<Poll>, key: string)
    requires polls != [] && polls[|polls| - 1].None?
    ensures PendingBefore(polls, |polls|, key) <==> PendingBefore(polls[..|polls| - 1], |polls| - 1, key)
  {
    var n := |polls| - 1;
    var front := polls[..n];
    if h: nat :| h < n + 1 && PendingAt(polls[h], key) && NoneBetween(polls, h, n + 1) {
      assert h < n && front[h] == polls[h];
      assert NoneBetween(front, h, n);
    }
    if h: nat :| h < n && PendingAt(front[h], key) && NoneBetween(front, h, n) {
      assert front[h] == polls[h];
      assert NoneBetween(polls, h, n + 1);
    }
  }

  /**
    Poll i opens the stretch the pod is in after all of polls: it and every later successful poll list
    the pod as Pending, and the successful poll before it, if any, does not.
   */
  ghost predicate IsStretch(polls: seq<Poll>, i: nat, key: string) {
    && i < |polls| && PendingAt(polls[i], key)
    && (forall j :: i <= j < |polls| && polls[j].Some? ==> PendingAt(polls[j], key))
    && !PendingBefore(polls[..i], i, key)
  }

  ghost function StartOf(polls: seq<Poll>, i: nat, key: string): int
    requires i < |polls| && PendingAt(polls[i], key)
  {
    PendingStart(Find(polls[i].value.pods, key).value, polls[i].value.now)
  }

  /** Extending the run by one poll, from the point of view of one opening index. */
  lemma StretchExtends(polls: seq<Poll>, i: nat, key: string)
    requires polls != [] && i < |polls| - 1
    ensures var front, last := polls[..|polls| - 1], polls[|polls| - 1];
            IsStretch(polls, i, key) <==> IsStretch(front, i, key) && (last.Some? ==> PendingAt(last, key))
  {
    var front, last := polls[..|polls| - 1], polls[|polls| - 1];
    assert front[..i] == polls[..i];
    hide PendingAt, PendingBefore;
    assert forall j :: 0 <= j < |front| ==> front[j] == polls[j];
  }

  /** An open stretch means the last successful poll lists the pod as Pending. */
  lemma {:induction false} StretchIsPendingBefore(polls: seq<Poll>, i: nat, key: string)
    requires IsStretch(polls, i, key)
    ensures PendingBefore(polls, |polls|, key)
  {
    var n := |polls| - 1;
    if polls[n].Some? {
      LastPollIsPending(polls, n, key);
    } else {
      hide PendingAt, PendingBefore;
      assert i < n;
      StretchExtends(polls, i, key);
      hide IsStretch;
      StretchIsPendingBefore(polls[..n], i, key);
      PendingBeforeSkips(polls, key);
    }
  }

  lemma LastPollIsPending(polls: seq<Poll>, n: nat, key: string)
    requires |polls| == n + 1 && PendingAt(polls[n], key)
    ensures PendingBefore(polls, |polls|, key)
  {
    assert NoneBetween(polls, n, n + 1);
    hide PendingAt;
  }

  /** Soundness: while a stretch is open, the remembered start is that of its first observation. */
  lemma {:induction false} StretchKeepsItsStart(polls: seq<Poll>, i: nat, key: string)
    requires LegalPolls(polls) && IsStretch(polls, i, key)
    ensures StatusOf(StatusAfter(polls), key) == Status(Pending, StartOf(polls, i, key)) && StartOf(polls, i, key) != 0
  {
    var n := |polls| - 1;
    var front, last := polls[..n], polls[n];
    if i < n {
      StretchExtends(polls, i, key);
      StretchKeepsItsStart(front, i, key);
      assert front[i] == polls[i];
      if last.Some? {
        NextStatusOfKey(StatusAfter(front), last.value, key);
      }
    } else {
      assert polls[..i] == front;
      StretchIffPendingBefore(front, key);
      NextStatusOfKey(StatusAfter(front), last.value, key);
    }
  }

  /** Completeness: a remembered stretch was opened by some poll. */
  lemma {:induction false} RememberedStretchWasOpened(polls: seq<Poll>, key: string) returns (i: nat)
    requires LegalPolls(polls) && InStretch(StatusOf(StatusAfter(polls), key))
    ensures IsStretch(polls, i, key)
  {
    StretchIffPendingBefore(polls, key);
    var n := |polls| - 1;
    var front, last := polls[..n], polls[n];
    StretchIffPendingBefore(front, key);
    if last.None? {
      PendingBeforeSkips(polls, key);
      i := RememberedStretchWasOpened(front, key);
      StretchExtends(polls, i, key);
    } else {
      var h: nat :| h < n + 1 && PendingAt(polls[h], key) && NoneBetween(polls, h, n + 1);
      LastSuccessIsLast(polls, h, n);
      if InStretch(StatusOf(StatusAfter(front), key)) {
        i := RememberedStretchWasOpened(front, key);
        StretchExtends(polls, i, key);
      } else {
        i := n;
        assert polls[..i] == front;
      }
    }
  }

  /**
    A pod listed after any run yields a sample exactly when it has left Pending and a stretch was
    open; the sample is never negative and is measured from the stretch's first observation.
   */
  lemma SampleClosesStretch(polls: seq<Poll>, p: PodObs, now: int)
    requires LegalPolls(polls)
    ensures SampleOf(StatusOf(StatusAfter(polls), p.key), p, now) != [] <==>
            !p.phase.Pending? && exists i: nat :: IsStretch(polls, i, p.key)
    ensures forall i: nat :: IsStretch(polls, i, p.key) && !p.phase.Pending? ==>
                               SampleOf(StatusOf(StatusAfter(polls), p.key), p, now) == [PendingDuration(StartOf(polls, i, p.key), p, now)]
    ensures forall d :: d in SampleOf(StatusOf(StatusAfter(polls), p.key), p, now) ==> d >= 0
  {
    hide StatusAfter, PendingBefore;
    forall i: nat | IsStretch(polls, i, p.key)
      ensures StatusOf(StatusAfter(polls), p.key) == Status(Pending, StartOf(polls, i, p.key)) && StartOf(polls, i, p.key) != 0
    {
      StretchKeepsItsStart(polls, i, p.key);
    }
    if InStretch(StatusOf(StatusAfter(polls), p.key)) {
      var i := RememberedStretchWasOpened(polls, p.key);
    }
  }

  // ----- samples over a run

  ghost function PollSamples(prev: map<string, Status>, poll: Poll): seq<int> {
    if poll.None? then [] else Samples(prev, poll.value.pods, poll.value.now)
  }

  /** Everything a run reports, in order. */
  ghost function AllSamples(polls: seq<Poll>): seq<int> {
    if polls == [] then []
    else AllSamples(polls[..|polls| - 1]) + PollSamples(StatusAfter(polls[..|polls| - 1]), polls[|polls| - 1])
  }

  ghost function AllRecoveries(polls: seq<Poll>): seq<int> {
    if polls == [] then []
    else
      var front, last := polls[..|polls| - 1], polls[|polls| - 1];
      AllRecoveries(front) + if last.None? then [] else Recoveries(StatusAfter(front), last.value.pods, last.value.now)
  }

  /** A stretch of the pod, by the poll that opens it and the poll that lists the pod in another phase. */
  datatype Closing = Closing(opens: nat, closes: nat, key: string)

  ghost predicate LeavesPending(l: Listing, key: string) {
    Find(l.pods, key).Some? && !Find(l.pods, key).value.phase.Pending?
  }

  ghost predicate IsClosing(polls: seq<Poll>, x: Closing) {
    && x.closes < |polls| && polls[x.closes].Some? && LeavesPending(polls[x.closes].value, x.key)
    && IsStretch(polls[..x.closes], x.opens, x.key)
  }

  /** The stretch's length: from its first observation's start to the closing poll's end time. */
  ghost function LengthOf(polls: seq<Poll>, x: Closing): int
    requires IsClosing(polls, x)
  {
    var l := polls[x.closes].value;
    PendingDuration(StartOf(polls[..x.closes], x.opens, x.key), Find(l.pods, x.key).value, l.now)
  }

  /** A stretch's length in the API's own times: from creation, or first sight, to the start of running, or the closing poll. */
  lemma LengthMeaning(polls: seq<Poll>, x: Closing)
    requires IsClosing(polls, x) && LegalPolls(polls)
    ensures var first, last := Find(polls[x.opens].value.pods, x.key).value, Find(polls[x.closes].value.pods, x.key).value;
            var seen, now := polls[x.opens].value.now, polls[x.closes].value.now;
            var from := if first.created != 0 && first.created <= seen then first.created else seen;
            var to := if last.phase == Running && last.started != 0 then last.started else now;
            LengthOf(polls, x) == if to >= from then to - from else 0
  {
    assert polls[..x.closes][x.opens] == polls[x.opens];
    hide Find, PendingBefore;
  }

  ghost predicate EndsRunning(polls: seq<Poll>, x: Closing)
    requires IsClosing(polls, x)
  {
    Find(polls[x.closes].value.pods, x.key).value.phase.Running?
  }

  /** The lengths of the closings that end in Running, in order. */
  ghost function RunningLengths(polls: seq<Poll>, xs: seq<Closing>): seq<int> {
    if xs == [] then []
    else
      var last := xs[|xs| - 1];
      RunningLengths(polls, xs[..|xs| - 1]) + if IsClosing(polls, last) && EndsRunning(polls, last) then [LengthOf(polls, last)] else []
  }

  lemma {:induction false} RunningConcat(polls: seq<Poll>, xs: seq<Closing>, ys: seq<Closing>)
    ensures RunningLengths(polls, xs + ys) == RunningLengths(polls, xs) + RunningLengths(polls, ys)
  {
    hide IsClosing, EndsRunning, LengthOf;
    if ys == [] {
      assert xs + ys == xs;
    } else {
      assert (xs + ys)[..|xs + ys| - 1] == xs + ys[..|ys| - 1];
      RunningConcat(polls, xs, ys[..|ys| - 1]);
    }
  }

  /** A further poll changes nothing about closings already seen. */
  lemma {:induction false} RunningExtend(polls: seq<Poll>, xs: seq<Closing>)
    requires polls != [] && forall x :: x in xs ==> IsClosing(polls[..|polls| - 1], x)
    ensures RunningLengths(polls, xs) == RunningLengths(polls[..|polls| - 1], xs)
  {
    if xs != [] {
      var front, last := xs[..|xs| - 1], xs[|xs| - 1];
      assert last in xs && forall x :: x in front ==> x in xs;
      ClosingOfFront(polls, last);
      assert polls[..|polls| - 1][last.closes] == polls[last.closes];
      hide IsClosing, LengthOf;
      RunningExtend(polls, front);
    }
  }

  lemma StretchPrefix(polls: seq<Poll>, i: nat, j: nat, key: string)
    requires IsStretch(polls, i, key) && i < j <= |polls|
    ensures IsStretch(polls[..j], i, key)
  {
    assert polls[..j][..i] == polls[..i];
    hide PendingAt, PendingBefore;
  }

  /** A pod is in at most one open stretch. */
  lemma StretchIsUnique(polls: seq<Poll>, i: nat, j: nat, key: string)
    requires IsStretch(polls, i, key) && IsStretch(polls, j, key)
    ensures i == j
  {
    if i < j {
      StretchPrefix(polls, i, j, key);
      StretchIsPendingBefore(polls[..j], i, key);
    } else if j < i {
      StretchPrefix(polls, j, i, key);
      StretchIsPendingBefore(polls[..i], j, key);
    }
  }

  lemma FindDistinct(pods: seq<PodObs>, i: nat)
    requires DistinctPods(pods) && i < |pods|
    ensures Find(pods, pods[i].key) == Some(pods[i])
  {
    var j := FindMeaning(pods, pods[i].key);
    assert pods[i] in pods;
  }

  ghost predicate Once(xs: seq<Closing>) {
    forall i, j :: 0 <= i < j < |xs| ==> xs[i] != xs[j]
  }

  /** The samples are the lengths of these closings, in the same order. */
  ghost predicate Lengths(polls: seq<Poll>, xs: seq<Closing>, samples: seq<int>) {
    |xs| == |samples| && forall i :: 0 <= i < |xs| ==> IsClosing(polls, xs[i]) && samples[i] == LengthOf(polls, xs[i])
  }

  lemma OnceConcat(xs: seq<Closing>, ys: seq<Closing>)
    requires Once(xs) && Once(ys) && forall x :: x in xs ==> x !in ys
    ensures Once(xs + ys)
  {
    var all := xs + ys;
    forall i, j | 0 <= i < j < |all| ensures all[i] != all[j] {
      if i < |xs| <= j {
        assert xs[i] in xs && ys[j - |xs|] in ys;
      }
    }
  }

  lemma LengthsConcat(polls: seq<Poll>, xs: seq<Closing>, ys: seq<Closing>, a: seq<int>, b: seq<int>)
    requires Lengths(polls, xs, a) && Lengths(polls, ys, b)
    ensures Lengths(polls, xs + ys, a + b)
  {
    hide IsClosing, LengthOf;
  }

  /** ys lists the closings of the poll after front that concern the first m pods. */
  ghost predicate ClosesFirst(front: seq<Poll>, l: Listing, m: nat, ys: seq<Closing>)
    requires m <= |l.pods|
  {
    forall y :: y in ys <==> y.closes == |front| && IsClosing(front + [Some(l)], y) && y.key in PodKeys(l.pods[..m])
  }

  /** Once each, with their lengths. */
  ghost predicate ClosingsOf(front: seq<Poll>, l: Listing, m: nat, ys: seq<Closing>, samples: seq<int>) {
    m <= |l.pods| && Once(ys) && ClosesFirst(front, l, m, ys) && Lengths(front + [Some(l)], ys, samples)
  }

  lemma NewPodKey(pods: seq<PodObs>, m: nat)
    requires m < |pods| && DistinctPods(pods)
    ensures pods[m].key !in PodKeys(pods[..m]) && PodKeys(pods[..m + 1]) == PodKeys(pods[..m]) + {pods[m].key}
  {
    assert pods[..m + 1] == pods[..m] + [pods[m]];
  }

  /** What the m-th pod of the listing contributes. */
  lemma OnePodCloses(front: seq<Poll>, l: Listing, m: nat) returns (y: Closing)
    requires LegalPolls(front + [Some(l)]) && m < |l.pods|
    ensures var polls, p := front + [Some(l)], l.pods[m];
            var sample := SampleOf(StatusOf(StatusAfter(front), p.key), p, l.now);
            && (sample == [] ==> NoClosing(front, l, p))
            && (sample != [] ==> OnlyClosing(front, l, p, y) && sample == [LengthOf(polls, y)])
            && RecoveryOf(StatusOf(StatusAfter(front), p.key), p, l.now) == if sample == [] then [] else RunningLengths(polls, [y])
  {
    var polls, p := front + [Some(l)], l.pods[m];
    assert polls[|front|] == Some(l) && polls[..|front|] == front;
    assert LegalPolls(front) by {
      assert forall i :: 0 <= i < |front| ==> front[i] == polls[i];
    }
    FindDistinct(l.pods, m);
    SampleClosesStretch(front, p, l.now);
    y := Closing(0, |front|, p.key);
    hide SampleOf, StatusAfter, Find;
    if SampleOf(StatusOf(StatusAfter(front), p.key), p, l.now) != [] {
      var i: nat :| IsStretch(front, i, p.key);
      y := Closing(i, |front|, p.key);
      forall x | IsClosing(polls, x) && x.closes == |front| && x.key == p.key ensures x == y {
        StretchIsUnique(front, x.opens, i, p.key);
      }
      assert [y][..0] == [];
    }
  }

  /** y is the only closing of pod p at the poll after front. */
  ghost predicate OnlyClosing(front: seq<Poll>, l: Listing, p: PodObs, y: Closing) {
    var polls := front + [Some(l)];
    && y.closes == |front| && y.key == p.key && IsClosing(polls, y)
    && forall x :: IsClosing(polls, x) && x.closes == |front| && x.key == p.key ==> x == y
  }

  ghost predicate NoClosing(front: seq<Poll>, l: Listing, p: PodObs) {
    forall x :: IsClosing(front + [Some(l)], x) && x.closes == |front| ==> x.key != p.key
  }

  lemma SkipPod(front: seq<Poll>, l: Listing, m: nat, ys: seq<Closing>)
    requires m < |l.pods| && DistinctPods(l.pods) && ClosesFirst(front, l, m, ys) && NoClosing(front, l, l.pods[m])
    ensures ClosesFirst(front, l, m + 1, ys)
  {
    hide IsClosing, PodKeys;
    NewPodKey(l.pods, m);
  }

  lemma AddPod(front: seq<Poll>, l: Listing, m: nat, ys: seq<Closing>, y: Closing)
    requires m < |l.pods| && DistinctPods(l.pods) && ClosesFirst(front, l, m, ys) && OnlyClosing(front, l, l.pods[m], y)
    ensures ClosesFirst(front, l, m + 1, ys + [y]) && y !in ys
  {
    hide IsClosing, PodKeys;
    NewPodKey(l.pods, m);
    assert forall x :: x in ys + [y] <==> x in ys || x == y;
  }

  lemma {:induction false} PollCloses(front: seq<Poll>, l: Listing, m: nat) returns (ys: seq<Closing>)
    requires LegalPolls(front + [Some(l)]) && m <= |l.pods|
    ensures ClosingsOf(front, l, m, ys, OwnSamples(StatusAfter(front), l.pods[..m], l.now))
    ensures OwnRecoveries(StatusAfter(front), l.pods[..m], l.now) == RunningLengths(front + [Some(l)], ys)
  {
    hide *;
    if m == 0 {
      ys := [];
      NoPodCloses(front, l);
    } else {
      var prev := StatusAfter(front);
      var before := PollCloses(front, l, m - 1);
      var y := OnePodCloses(front, l, m - 1);
      OwnOneMore(prev, l.pods, m, l.now);
      ys := AddPodToPoll(front, l, m - 1, before, OwnSamples(prev, l.pods[..m - 1], l.now), y,
                         SampleOf(StatusOf(prev, l.pods[m - 1].key), l.pods[m - 1], l.now));
    }
  }

  lemma NoPodCloses(front: seq<Poll>, l: Listing)
    ensures ClosingsOf(front, l, 0, [], OwnSamples(StatusAfter(front), l.pods[..0], l.now))
    ensures OwnRecoveries(StatusAfter(front), l.pods[..0], l.now) == RunningLengths(front + [Some(l)], [])
  {
    hide StatusAfter, IsClosing;
  }

  lemma OwnOneMore(prev: map<string, Status>, pods: seq<PodObs>, m: nat, now: int)
    requires 0 < m <= |pods|
    ensures var status := StatusOf(prev, pods[m - 1].key);
            && OwnSamples(prev, pods[..m], now) == OwnSamples(prev, pods[..m - 1], now) + SampleOf(status, pods[m - 1], now)
            && OwnRecoveries(prev, pods[..m], now) == OwnRecoveries(prev, pods[..m - 1], now) + RecoveryOf(status, pods[m - 1], now)
  {
    assert pods[..m][..m - 1] == pods[..m - 1];
    hide SampleOf, RecoveryOf;
  }

  /** One more pod of the listing: its closing, if it has one, goes to the end. */
  lemma AddPodToPoll(front: seq<Poll>, l: Listing, m: nat, before: seq<Closing>, samples: seq<int>, y: Closing, sample: seq<int>)
    returns (ys: seq<Closing>)
    requires m < |l.pods| && LegalPolls(front + [Some(l)]) && ClosingsOf(front, l, m, before, samples)
    requires sample == [] ==> NoClosing(front, l, l.pods[m])
    requires sample != [] ==> OnlyClosing(front, l, l.pods[m], y) && sample == [LengthOf(front + [Some(l)], y)]
    ensures ClosingsOf(front, l, m + 1, ys, samples + sample)
    ensures RunningLengths(front + [Some(l)], ys)
            == RunningLengths(front + [Some(l)], before) + if sample == [] then [] else RunningLengths(front + [Some(l)], [y])
  {
    assert DistinctPods(l.pods) by {
      assert (front + [Some(l)])[|front|] == Some(l);
    }
    hide IsClosing, ClosesFirst, Once, OnlyClosing, NoClosing, LengthOf, LegalPolls, RunningLengths, DistinctPods;
    if sample == [] {
      ys := before;
      SkipPod(front, l, m, before);
      assert samples + sample == samples;
    } else {
      ys := before + [y];
      AddPod(front, l, m, before, y);
      OneClosing(front, l, l.pods[m], y, sample);
      OnceConcat(before, [y]);
      LengthsConcat(front + [Some(l)], before, [y], samples, sample);
      RunningConcat(front + [Some(l)], before, [y]);
    }
  }

  lemma OneClosing(front: seq<Poll>, l: Listing, p: PodObs, y: Closing, sample: seq<int>)
    requires OnlyClosing(front, l, p, y) && sample == [LengthOf(front + [Some(l)], y)]
    ensures Lengths(front + [Some(l)], [y], sample) && Once([y])
  {
  }

  lemma ClosingOfFront(polls: seq<Poll>, x: Closing)
    requires polls != [] && x.closes < |polls| - 1
    ensures IsClosing(polls, x) <==> IsClosing(polls[..|polls| - 1], x)
    ensures IsClosing(polls, x) ==> LengthOf(polls, x) == LengthOf(polls[..|polls| - 1], x)
  {
    var front := polls[..|polls| - 1];
    assert front[..x.closes] == polls[..x.closes] && front[x.closes] == polls[x.closes];
    hide IsStretch, LeavesPending, StartOf;
  }

  /** closings lists, once each, the closed stretches of the run; samples are their lengths in the same order. */
  ghost predicate Matched(polls: seq<Poll>, closings: seq<Closing>, samples: seq<int>) {
    Once(closings) && Lengths(polls, closings, samples) && forall x :: x in closings <==> IsClosing(polls, x)
  }

  lemma LengthsExtend(polls: seq<Poll>, xs: seq<Closing>, samples: seq<int>)
    requires polls != [] && Lengths(polls[..|polls| - 1], xs, samples)
    ensures Lengths(polls, xs, samples)
  {
    forall i | 0 <= i < |xs| ensures IsClosing(polls, xs[i]) && samples[i] == LengthOf(polls, xs[i]) {
      ClosingOfFront(polls, xs[i]);
    }
  }

  lemma MatchedJoins(front: seq<Poll>, l: Listing, xs: seq<Closing>, ys: seq<Closing>, a: seq<int>, b: seq<int>)
    requires Matched(front, xs, a) && ClosingsOf(front, l, |l.pods|, ys, b)
    ensures Matched(front + [Some(l)], xs + ys, a + b)
  {
    var polls := front + [Some(l)];
    assert polls[..|polls| - 1] == front && l.pods[..|l.pods|] == l.pods;
    forall x: Closing | x.closes < |front| ensures IsClosing(polls, x) <==> IsClosing(front, x) {
      ClosingOfFront(polls, x);
    }
    forall x | IsClosing(polls, x) && x.closes == |front| ensures x.key in PodKeys(l.pods) {
      ClosingIsListed(front, l, x);
    }
    forall x | IsClosing(front, x) ensures x.closes < |front| {
    }
    forall x | IsClosing(polls, x) ensures x.closes <= |front| {
    }
    LengthsExtend(polls, xs, a);
    hide IsClosing, PodKeys, Once, Lengths;
    OnceConcat(xs, ys);
    LengthsConcat(polls, xs, ys, a, b);
    assert forall x :: x in xs + ys <==> x in xs || x in ys;
  }

  lemma ClosingIsListed(front: seq<Poll>, l: Listing, x: Closing)
    requires IsClosing(front + [Some(l)], x) && x.closes == |front|
    ensures x.key in PodKeys(l.pods)
  {
    assert (front + [Some(l)])[|front|] == Some(l);
    var i := FindMeaning(l.pods, x.key);
    assert l.pods[i] in l.pods;
  }

  /**
    Over any run, the reported samples correspond one to one, in order, with the Pending stretches
    that were seen to end, each being the length of its stretch; the recoveries are exactly those of
    the stretches that ended in Running.
   */
  lemma {:induction false} SamplesAreClosedStretches(polls: seq<Poll>) returns (closings: seq<Closing>)
    requires LegalPolls(polls)
    ensures Matched(polls, closings, AllSamples(polls)) && AllRecoveries(polls) == RunningLengths(polls, closings)
  {
    hide *;
    if polls == [] {
      closings := [];
      NothingReported();
    } else {
      var front, last := polls[..|polls| - 1], polls[|polls| - 1];
      LegalFront(polls);
      var xs := SamplesAreClosedStretches(front);
      if last.None? {
        closings := xs;
        FailedPollReports(polls);
        FailedPollCloses(polls, xs, AllSamples(front));
        MatchedExtend(polls, xs, AllSamples(front));
      } else {
        assert polls == front + [Some(last.value)];
        var ys := PollCloses(front, last.value, |last.value.pods|);
        PollReports(polls, last.value);
        assert last.value.pods[..|last.value.pods|] == last.value.pods;
        MatchedExtend(polls, xs, AllSamples(front));
        MatchedJoins(front, last.value, xs, ys, AllSamples(front), OwnSamples(StatusAfter(front), last.value.pods, last.value.now));
        RunningConcat(polls, xs, ys);
        closings := xs + ys;
      }
    }
  }

  lemma NothingReported()
    ensures Matched([], [], AllSamples([])) && AllRecoveries([]) == RunningLengths([], [])
  {
  }

  lemma LegalFront(polls: seq<Poll>)
    requires polls != [] && LegalPolls(polls)
    ensures LegalPolls(polls[..|polls| - 1])
  {
  }

  /** What a poll adds to the run's reports: each listed pod's own sample and recovery. */
  lemma PollReports(polls: seq<Poll>, l: Listing)
    requires polls != [] && polls[|polls| - 1] == Some(l) && LegalPolls(polls)
    ensures var front := polls[..|polls| - 1];
            && AllSamples(polls) == AllSamples(front) + OwnSamples(StatusAfter(front), l.pods, l.now)
            && AllRecoveries(polls) == AllRecoveries(front) + OwnRecoveries(StatusAfter(front), l.pods, l.now)
  {
    SamplesAreOwn(StatusAfter(polls[..|polls| - 1]), l.pods, l.now);
    hide Samples, Recoveries, OwnSamples, OwnRecoveries, StatusAfter;
  }

  lemma FailedPollReports(polls: seq<Poll>)
    requires polls != [] && polls[|polls| - 1].None?
    ensures AllSamples(polls) == AllSamples(polls[..|polls| - 1]) && AllRecoveries(polls) == AllRecoveries(polls[..|polls| - 1])
  {
  }

  lemma MatchedExtend(polls: seq<Poll>, xs: seq<Closing>, samples: seq<int>)
    requires polls != [] && Matched(polls[..|polls| - 1], xs, samples)
    ensures RunningLengths(polls, xs) == RunningLengths(polls[..|polls| - 1], xs)
  {
    hide IsClosing, RunningLengths, Lengths, Once;
    RunningExtend(polls, xs);
  }

  lemma FailedPollCloses(polls: seq<Poll>, xs: seq<Closing>, samples: seq<int>)
    requires polls != [] && polls[|polls| - 1].None? && Matched(polls[..|polls| - 1], xs, samples)
    ensures Matched(polls, xs, samples)
  {
    var front := polls[..|polls| - 1];
    forall x: Closing ensures IsClosing(polls, x) <==> IsClosing(front, x) {
      if x.closes < |front| {
        ClosingOfFront(polls, x);
      }
    }
    LengthsExtend(polls, xs, samples);
    hide IsClosing, Lengths;
  }

  // ----- restarts over a run

  ghost predicate DistinctContainers(cs: seq<ContainerObs>) {
    forall i, j :: 0 <= i < j < |cs| ==> cs[i].key != cs[j].key
  }

  function CountMap(cs: seq<ContainerObs>): map<string, int> {
    Restarts(map[], cs)
  }

  lemma {:induction false} RestartsMerge(prev: map<string, int>, cs: seq<ContainerObs>)
    ensures Restarts(prev, cs) == prev + CountMap(cs)
    ensures CountMap(cs).Keys == ContainerKeys(cs)
  {
    if cs != [] {
      var front, last := cs[..|cs| - 1], cs[|cs| - 1];
      RestartsMerge(prev, front);
      assert cs == front + [last];
    }
  }

  /** After a poll only the containers it listed are remembered, with the counts it listed. */
  lemma NextCountsAreListed(prev: map<string, int>, l: Listing)
    ensures NextCounts(prev, Some(l)) == CountMap(Flatten(l.pods))
  {
    RestartsMerge(prev, Flatten(l.pods));
  }

  function RiseBetween(prev: map<string, int>, cur: map<string, int>, k: string): nat {
    if k in prev && k in cur && cur[k] > prev[k] then cur[k] - prev[k] else 0
  }

  ghost function RisesTo(prev: map<string, int>, cur: map<string, int>): string -> int {
    (k: string) => RiseBetween(prev, cur, k)
  }

  /** With one entry per container, the poll's counter is the sum of the containers' own rises. */
  lemma {:induction false} CountIsSumOfRises(prev: map<string, int>, cs: seq<ContainerObs>)
    requires DistinctContainers(cs)
    ensures RestartCount(prev, cs) == SumOver(ContainerKeys(cs), RisesTo(prev, CountMap(cs)))
  {
    if cs == [] {
      assert ContainerKeys(cs) == {};
    } else {
      hide RestartCount, CountMap, RiseBetween, SumOver;
      var front, last := cs[..|cs| - 1], cs[|cs| - 1];
      CountIsSumOfRises(prev, front);
      assert cs == front + [last];
      NewContainer(prev, front, last);
      var keys := ContainerKeys(front);
      assert ContainerKeys(cs) == keys + {last.key};
      var f, g := RisesTo(prev, CountMap(cs)), RisesTo(prev, CountMap(front));
      SumRemove(keys + {last.key}, f, last.key);
      assert keys + {last.key} - {last.key} == keys;
      SameSum(keys, f, g);
    }
  }

  lemma {:induction false} SameSum(s: set<string>, f: string -> int, g: string -> int)
    requires forall x :: x in s ==> f(x) == g(x)
    ensures SumOver(s, f) == SumOver(s, g)
    decreases s
  {
    if s != {} {
      var x :| x in s;
      SumRemove(s, f, x);
      SumRemove(s, g, x);
      SameSum(s - {x}, f, g);
    }
  }

  lemma NewContainer(prev: map<string, int>, front: seq<ContainerObs>, last: ContainerObs)
    requires DistinctContainers(front + [last])
    ensures last.key !in ContainerKeys(front)
    ensures CountMap(front + [last]) == CountMap(front)[last.key := last.restarts]
    ensures RestartCount(prev, front + [last]) == RestartCount(prev, front) + RiseBetween(prev, CountMap(front + [last]), last.key)
    ensures forall k :: k in ContainerKeys(front) ==>
                          RiseBetween(prev, CountMap(front + [last]), k) == RiseBetween(prev, CountMap(front), k)
  {
    var cs := front + [last];
    assert cs[..|cs| - 1] == front;
    forall c | c in front ensures c.key != last.key {
      var i :| 0 <= i < |front| && front[i] == c;
      assert cs[i] == c && cs[|front|] == last;
    }
    RestartsMerge(prev, front);
  }

  ghost function CountsAfter(polls: seq<Poll>): map<string, int> {
    if polls == [] then map[] else NextCounts(CountsAfter(polls[..|polls| - 1]), polls[|polls| - 1])
  }

  ghost function PollRestarts(prev: map<string, int>, poll: Poll): nat {
    if poll.None? then 0 else RestartCount(prev, Flatten(poll.value.pods))
  }

  ghost function TotalRestarts(polls: seq<Poll>): nat {
    if polls == [] then 0
    else TotalRestarts(polls[..|polls| - 1]) + PollRestarts(CountsAfter(polls[..|polls| - 1]), polls[|polls| - 1])
  }

  /** One container's share: its positive increments between consecutive sightings. */
  ghost function Increments(polls: seq<Poll>, k: string): nat {
    if polls == [] then 0
    else
      var front, last := polls[..|polls| - 1], polls[|polls| - 1];
      Increments(front, k) + if last.None? then 0 else RiseBetween(CountsAfter(front), CountMap(Flatten(last.value.pods)), k)
  }

  ghost function IncrementsIn(polls: seq<Poll>): string -> int {
    (k: string) => Increments(polls, k)
  }

  ghost function SeenContainers(polls: seq<Poll>): set<string> {
    if polls == [] then {}
    else
      SeenContainers(polls[..|polls| - 1])
      + if polls[|polls| - 1].None? then {} else ContainerKeys(Flatten(polls[|polls| - 1].value.pods))
  }

  ghost predicate DistinctInEveryPoll(polls: seq<Poll>) {
    forall i :: 0 <= i < |polls| && polls[i].Some? ==> DistinctContainers(Flatten(polls[i].value.pods))
  }

  lemma {:induction false} UnseenHasNoIncrements(polls: seq<Poll>, k: string)
    requires k !in SeenContainers(polls)
    ensures Increments(polls, k) == 0 && k !in CountsAfter(polls)
  {
    if polls != [] {
      var front, last := polls[..|polls| - 1], polls[|polls| - 1];
      UnseenHasNoIncrements(front, k);
      if last.Some? {
        NextCountsAreListed(CountsAfter(front), last.value);
        RestartsMerge(map[], Flatten(last.value.pods));
      }
    }
  }

  lemma OnePollOfRestarts(polls: seq<Poll>)
    requires polls != [] && polls[|polls| - 1].Some? && DistinctInEveryPoll(polls)
    requires var front := polls[..|polls| - 1]; TotalRestarts(front) == SumOver(SeenContainers(front), IncrementsIn(front))
    ensures TotalRestarts(polls) == SumOver(SeenContainers(polls), IncrementsIn(polls))
  {
    var front, last := polls[..|polls| - 1], polls[|polls| - 1];
    var prev, cs := CountsAfter(front), Flatten(last.value.pods);
    var rises, keys, all := RisesTo(prev, CountMap(cs)), ContainerKeys(cs), SeenContainers(polls);
    CountIsSumOfRises(prev, cs);
    RestartsMerge(prev, cs);
    forall k | k in all && k !in keys ensures rises(k) == 0 {
    }
    SumIgnoresZeros(keys, all, rises);
    forall k | k in all && k !in SeenContainers(front) ensures IncrementsIn(front)(k) == 0 {
      UnseenHasNoIncrements(front, k);
    }
    SumIgnoresZeros(SeenContainers(front), all, IncrementsIn(front));
    hide RestartCount, Flatten, CountMap, SumOver;
    SumAdds(all, IncrementsIn(front), rises, IncrementsIn(polls));
  }

  /** Over any run, the restarts reported are exactly the containers' positive increments, summed. */
  lemma {:induction false} RestartsAreSumOfIncrements(polls: seq<Poll>)
    requires DistinctInEveryPoll(polls)
    ensures TotalRestarts(polls) == SumOver(SeenContainers(polls), IncrementsIn(polls))
  {
    if polls != [] {
      var front, last := polls[..|polls| - 1], polls[|polls| - 1];
      RestartsAreSumOfIncrements(front);
      if last.Some? {
        OnePollOfRestarts(polls);
      } else {
        FailedPollOfRestarts(polls);
      }
      hide *;
    }
  }

  lemma FailedPollOfRestarts(polls: seq<Poll>)
    requires polls != [] && polls[|polls| - 1].None?
    ensures var front := polls[..|polls| - 1];
            TotalRestarts(polls) == TotalRestarts(front)
            && SumOver(SeenContainers(polls), IncrementsIn(polls)) == SumOver(SeenContainers(front), IncrementsIn(front))
  {
    var front := polls[..|polls| - 1];
    assert SeenContainers(polls) == SeenContainers(front);
    SameSum(SeenContainers(front), IncrementsIn(front), IncrementsIn(polls));
  }

  /** The container is listed at every successful poll from i on, with counts that never fall. */
  ghost predicate SteadyFrom(polls: seq<Poll>, i: nat, k: string) {
    && i < |polls| && polls[i].Some?
    && (forall j :: i <= j < |polls| && polls[j].Some? ==> k in CountMap(Flatten(polls[j].value.pods)))
    && (forall j :: i < j < |polls| && polls[j].Some? ==> NotBelow(CountsAfter(polls[..j]), CountMap(Flatten(polls[j].value.pods)), k))
  }

  ghost predicate NotBelow(prev: map<string, int>, cur: map<string, int>, k: string) {
    k in prev && k in cur && prev[k] <= cur[k]
  }

  /** While a container is present and its count does not fall, its increments telescope to last minus first. */
  lemma {:induction false} IncrementsTelescope(polls: seq<Poll>, i: nat, k: string)
    requires SteadyFrom(polls, i, k)
    ensures k in CountsAfter(polls)
    ensures Increments(polls, k) - Increments(polls[..i + 1], k) == CountsAfter(polls)[k] - CountMap(Flatten(polls[i].value.pods))[k]
  {
    var n := |polls| - 1;
    var front, last := polls[..n], polls[n];
    hide CountMap, Flatten, NextCounts;
    CountsStep(polls);
    if i == n {
      assert polls[..i + 1] == polls;
    } else {
      assert forall j :: 0 <= j <= n ==> polls[..j] == front[..j];
      assert front[..i + 1] == polls[..i + 1] && front[i] == polls[i];
      assert last.Some? ==> NotBelow(CountsAfter(front), CountMap(Flatten(last.value.pods)), k);
      assert Increments(polls, k) == Increments(front, k)
        + if last.None? then 0 else RiseBetween(CountsAfter(front), CountMap(Flatten(last.value.pods)), k);
      assert SteadyFrom(front, i, k);
      hide CountsAfter, Increments, SteadyFrom;
      IncrementsTelescope(front, i, k);
    }
  }

  /** What is remembered after the last poll. */
  lemma CountsStep(polls: seq<Poll>)
    requires polls != []
    ensures var front, last := polls[..|polls| - 1], polls[|polls| - 1];
            CountsAfter(polls) == if last.None? then CountsAfter(front) else CountMap(Flatten(last.value.pods))
  {
    var front, last := polls[..|polls| - 1], polls[|polls| - 1];
    if last.Some? {
      NextCountsAreListed(CountsAfter(front), last.value);
    }
  }
}
