/**
  Draining one node: cordon, list, evict pod by pod. Every API answer is an arbitrary input; the
  outcome is a trace of what the API was made to do, plus the counters of DrainResult.
 */
module Drainer {
  import opened Wrappers
  import TwinAsgs

  datatype Pod = Pod(namespace: string, name: string, daemonSet: bool, mirror: bool)

  function FullName(p: Pod): string {
    p.namespace + "/" + p.name
  }

  datatype EvictAnswer = Accepted | NotFound | TooManyRequests | OtherError

  datatype DrainConfig = DrainConfig(dryRun: bool, ignoreDaemonSets: bool, force: bool)

  /**
    The agent's timeline: what the API and the cloud were asked to do. Every entry names its node, and
    an eviction the position of its pod in the listing.
   */
  datatype Event =
    | Cordoned(node: string)
    | FoundCordoned(node: string)
    | Listed(node: string, pods: seq<Pod>)
    | Evicted(node: string, index: nat, pod: Pod, answer: EvictAnswer)
    | Terminated(node: string, asg: TwinAsgs.AsgId, instance: string)

  /** What the API will answer during one drain; evict gives the answer for the i-th listed pod. */
  datatype DrainAnswers = DrainAnswers(
    nodeFound: bool, unschedulable: bool, updateAccepted: bool, pods: Option<seq<Pod>>, evict: nat -> EvictAnswer)

  datatype DrainResult = DrainResult(success: bool, dryRun: bool, evicted: nat, skipped: nat, failed: nat, failedPods: seq<string>)

  const NOTHING_DONE := DrainResult(false, false, 0, 0, 0, [])

  predicate Gone(a: EvictAnswer) {
    a.Accepted? || a.NotFound?
  }

  /** Pods a drain leaves in place. */
  predicate Exempt(cfg: DrainConfig, p: Pod) {
    (cfg.ignoreDaemonSets && p.daemonSet) || p.mirror
  }

  // ----- the eviction loop as a value

  /** State after the first pods of the listing; stopped means the loop returned early. */
  datatype Progress = Progress(events: seq<Event>, evicted: nat, skipped: nat, failed: nat, failedPods: seq<string>, stopped: bool)

  function EvictOne(cfg: DrainConfig, node: string, i: nat, p: Pod, answer: EvictAnswer, g: Progress): Progress {
    if Exempt(cfg, p) then g.(skipped := g.skipped + 1)
    else if cfg.dryRun then g.(evicted := g.evicted + 1)
    else
      var h := g.(events := g.events + [Evicted(node, i, p, answer)]);
      if Gone(answer) then h.(evicted := g.evicted + 1)
      else h.(failed := g.failed + 1, failedPods := g.failedPods + [FullName(p)], stopped := !cfg.force)
  }

  function EvictFirst(cfg: DrainConfig, node: string, pods: seq<Pod>, n: nat, evict: nat -> EvictAnswer): Progress
    requires n <= |pods|
  {
    if n == 0 then Progress([], 0, 0, 0, [], false)
    else
      var g := EvictFirst(cfg, node, pods, n - 1, evict);
      if g.stopped then g else EvictOne(cfg, node, n - 1, pods[n - 1], evict(n - 1), g)
  }

  // ----- the whole drain as a value

  /** events of the drain, its result, and whether it returned without error. */
  datatype DrainOutcome = DrainOutcome(events: seq<Event>, result: DrainResult, ok: bool)

  function CordonEvents(cfg: DrainConfig, node: string, ans: DrainAnswers): Option<seq<Event>> {
    if cfg.dryRun then Some([])
    else if !ans.nodeFound then None
    else if ans.unschedulable then Some([FoundCordoned(node)])
    else if ans.updateAccepted then Some([Cordoned(node)])
    else None
  }

  function DrainTrace(cfg: DrainConfig, node: string, ans: DrainAnswers): DrainOutcome {
    match CordonEvents(cfg, node, ans)
    case None => DrainOutcome([], NOTHING_DONE.(dryRun := cfg.dryRun), false)
    case Some(cordon) =>
      if ans.pods.None? then DrainOutcome(cordon, NOTHING_DONE.(dryRun := cfg.dryRun), false)
      else
        var g := EvictFirst(cfg, node, ans.pods.value, |ans.pods.value|, ans.evict);
        DrainOutcome(cordon + [Listed(node, ans.pods.value)] + g.events,
                     DrainResult(!g.stopped && g.failed == 0, cfg.dryRun, g.evicted, g.skipped, g.failed, g.failedPods),
                     !g.stopped)
  }

  /** The cluster as the drainer changes it. */
  class Cluster {
    var log: seq<Event>

    constructor ()
      ensures log == []
    {
      log := [];
    }

    method Drain(cfg: DrainConfig, node: string, ans: DrainAnswers) returns (r: DrainResult, ok: bool)
      modifies this
      ensures var t := DrainTrace(cfg, node, ans);
              log == old(log) + t.events && r == t.result && ok == t.ok
    {
      ghost var start := log;
      r, ok := NOTHING_DONE.(dryRun := cfg.dryRun), false;
      if !cfg.dryRun {
        if !ans.nodeFound {
          return;
        }
        if ans.unschedulable {
          log := log + [FoundCordoned(node)];
        } else if ans.updateAccepted {
          log := log + [Cordoned(node)];
        } else {
          return;
        }
      }
      ghost var cordon := CordonEvents(cfg, node, ans).value;
      if ans.pods.None? {
        return;
      }
      var pods := ans.pods.value;
      log := log + [Listed(node, pods)];
      hide EvictFirst;
      var g := EvictPods(cfg, node, pods, ans.evict);
      r, ok := DrainResult(!g.stopped && g.failed == 0, cfg.dryRun, g.evicted, g.skipped, g.failed, g.failedPods), !g.stopped;
      assert log == start + (cordon + [Listed(node, pods)] + g.events);
    }

    /** The eviction loop; without Force it returns at the first refusal. */
    method EvictPods(cfg: DrainConfig, node: string, pods: seq<Pod>, evict: nat -> EvictAnswer) returns (g: Progress)
      modifies this
      ensures g == EvictFirst(cfg, node, pods, |pods|, evict) && log == old(log) + g.events
    {
      ghost var listed := log;
      g := Progress([], 0, 0, 0, [], false);
      for i := 0 to |pods|
        invariant g == EvictFirst(cfg, node, pods, i, evict) && !g.stopped && log == listed + g.events
      {
        var pod := pods[i];
        if Exempt(cfg, pod) {
          g := g.(skipped := g.skipped + 1);
        } else if cfg.dryRun {
          g := g.(evicted := g.evicted + 1);
        } else {
          var answer := evict(i);
          log := log + [Evicted(node, i, pod, answer)];
          g := g.(events := g.events + [Evicted(node, i, pod, answer)]);
          if Gone(answer) {
            g := g.(evicted := g.evicted + 1);
          } else {
            g := g.(failed := g.failed + 1, failedPods := g.failedPods + [FullName(pod)]);
            if !cfg.force {
              g := g.(stopped := true);
              StoppedStaysStopped(cfg, node, pods, i + 1, |pods|, evict);
              return;
            }
          }
        }
      }
    }
  }

  lemma {:induction false} StoppedStaysStopped(cfg: DrainConfig, node: string, pods: seq<Pod>, i: nat, n: nat, evict: nat -> EvictAnswer)
    requires i <= n <= |pods| && EvictFirst(cfg, node, pods, i, evict).stopped
    ensures EvictFirst(cfg, node, pods, n, evict) == EvictFirst(cfg, node, pods, i, evict)
  {
    if i < n {
      StoppedStaysStopped(cfg, node, pods, i, n - 1, evict);
    }
  }

  // ----- what a drain guarantees, for every sequence of answers

  /** evicted + skipped + failed counts exactly the pods reached; an unstopped loop reaches them all. */
  lemma {:induction false} CountersAddUp(cfg: DrainConfig, node: string, pods: seq<Pod>, n: nat, evict: nat -> EvictAnswer)
    requires n <= |pods|
    ensures var g := EvictFirst(cfg, node, pods, n, evict);
            && g.evicted + g.skipped + g.failed <= n
            && (!g.stopped ==> g.evicted + g.skipped + g.failed == n)
            && |g.failedPods| == g.failed
  {
    if n > 0 {
      CountersAddUp(cfg, node, pods, n - 1, evict);
    }
  }

  predicate Refused(a: EvictAnswer) {
    a == TooManyRequests || a == OtherError
  }

  /** Without Force nothing happens after the first refusal: it is the last event and the only failure. */
  lemma {:induction false} NothingAfterFirstFailure(cfg: DrainConfig, node: string, pods: seq<Pod>, n: nat, evict: nat -> EvictAnswer)
    requires n <= |pods| && !cfg.force
    ensures var g := EvictFirst(cfg, node, pods, n, evict);
            && g.failed <= 1 && (g.stopped <==> g.failed == 1)
            && (g.stopped ==> |g.events| > 0 && g.events[|g.events| - 1].Evicted? && Refused(g.events[|g.events| - 1].answer))
            && (forall i :: 0 <= i < |g.events| ==> g.events[i].Evicted?)
            && (forall i :: 0 <= i < |g.events| && Refused(g.events[i].answer) ==> g.stopped && i == |g.events| - 1)
  {
    if n > 0 {
      NothingAfterFirstFailure(cfg, node, pods, n - 1, evict);
    }
  }

  /** A pod that runs a workload: static pods never do, DaemonSet pods only where the drainer is told to evict them. */
  predicate CarriesWorkload(cfg: DrainConfig, p: Pod) {
    !p.mirror && !(p.daemonSet && cfg.ignoreDaemonSets)
  }

  /** The i-th listed pod was evicted from the node, or the API no longer knew it. */
  ghost predicate LeftNode(node: string, i: nat, p: Pod, events: seq<Event>) {
    exists e :: e in events && e.Evicted? && e.node == node && e.index == i && e.pod == p && (e.answer == Accepted || e.answer == NotFound)
  }

  lemma {:induction false} FailuresNeverShrink(cfg: DrainConfig, node: string, pods: seq<Pod>, i: nat, n: nat, evict: nat -> EvictAnswer)
    requires i <= n <= |pods|
    ensures EvictFirst(cfg, node, pods, i, evict).failed <= EvictFirst(cfg, node, pods, n, evict).failed
    ensures EvictFirst(cfg, node, pods, i, evict).stopped ==> EvictFirst(cfg, node, pods, n, evict).stopped
    ensures forall e :: e in EvictFirst(cfg, node, pods, i, evict).events ==> e in EvictFirst(cfg, node, pods, n, evict).events
  {
    if i < n {
      FailuresNeverShrink(cfg, node, pods, i, n - 1, evict);
    }
  }

  /** A real drain that reports no failure has seen each listed workload pod leave. */
  lemma SuccessHandlesEveryPod(cfg: DrainConfig, node: string, pods: seq<Pod>, evict: nat -> EvictAnswer, i: nat)
    requires !cfg.dryRun && i < |pods| && CarriesWorkload(cfg, pods[i])
    requires var g := EvictFirst(cfg, node, pods, |pods|, evict); !g.stopped && g.failed == 0
    ensures LeftNode(node, i, pods[i], EvictFirst(cfg, node, pods, |pods|, evict).events)
  {
    FailuresNeverShrink(cfg, node, pods, i, |pods|, evict);
    FailuresNeverShrink(cfg, node, pods, i + 1, |pods|, evict);
    var e := Evicted(node, i, pods[i], evict(i));
    assert e in EvictFirst(cfg, node, pods, i + 1, evict).events;
  }

  /** Every eviction is that of a listed workload pod, under its own position and with the answer the API gave it. */
  lemma {:induction false} EvictionsAreOfWorkloads(cfg: DrainConfig, node: string, pods: seq<Pod>, n: nat, evict: nat -> EvictAnswer)
    requires n <= |pods|
    ensures forall e :: e in EvictFirst(cfg, node, pods, n, evict).events ==>
              e.Evicted? && e.node == node && e.index < n && e.pod == pods[e.index] && e.answer == evict(e.index) && CarriesWorkload(cfg, e.pod)
  {
    if n > 0 {
      EvictionsAreOfWorkloads(cfg, node, pods, n - 1, evict);
    }
  }

  /** The workload pods among the first n. */
  function Workloads(cfg: DrainConfig, pods: seq<Pod>, n: nat): nat
    requires n <= |pods|
  {
    if n == 0 then 0 else Workloads(cfg, pods, n - 1) + if CarriesWorkload(cfg, pods[n - 1]) then 1 else 0
  }

  /** A pod is skipped exactly when it carries no workload; in dry-run every other one counts as evicted. */
  lemma {:induction false} SkippedAreOthers(cfg: DrainConfig, node: string, pods: seq<Pod>, n: nat, evict: nat -> EvictAnswer)
    requires n <= |pods|
    ensures var g := EvictFirst(cfg, node, pods, n, evict);
            !g.stopped ==> g.skipped == n - Workloads(cfg, pods, n) && g.evicted + g.failed == Workloads(cfg, pods, n)
  {
    if n > 0 {
      SkippedAreOthers(cfg, node, pods, n - 1, evict);
    }
  }

  /** The failed pods are named in full, and each was refused by the API. */
  lemma {:induction false} FailedPodsWereRefused(cfg: DrainConfig, node: string, pods: seq<Pod>, n: nat, evict: nat -> EvictAnswer, name: string)
    requires n <= |pods| && name in EvictFirst(cfg, node, pods, n, evict).failedPods
    ensures exists i :: 0 <= i < n && CarriesWorkload(cfg, pods[i]) && Refused(evict(i)) && name == pods[i].namespace + "/" + pods[i].name
  {
    var g := EvictFirst(cfg, node, pods, n - 1, evict);
    if name in g.failedPods {
      FailedPodsWereRefused(cfg, node, pods, n - 1, evict, name);
    } else {
      var i := n - 1;
      assert name == pods[i].namespace + "/" + pods[i].name;
    }
  }

  /** The loop runs to the end without a failure exactly when every workload pod is let go. */
  lemma {:induction false} NoFailureIff(cfg: DrainConfig, node: string, pods: seq<Pod>, n: nat, evict: nat -> EvictAnswer)
    requires n <= |pods| && !cfg.dryRun
    ensures var g := EvictFirst(cfg, node, pods, n, evict);
            (!g.stopped && g.failed == 0) <==>
            forall i :: 0 <= i < n && CarriesWorkload(cfg, pods[i]) ==> evict(i) == Accepted || evict(i) == NotFound
  {
    if n > 0 {
      NoFailureIff(cfg, node, pods, n - 1, evict);
    }
  }

  /** The node accepts no new pods: it was found that way, or it was made so. */
  predicate CanCordon(ans: DrainAnswers) {
    ans.nodeFound && (ans.unschedulable || ans.updateAccepted)
  }

  /** A real drain succeeds if and only if the node is cordoned, its pods are listed, and every workload pod is let go. */
  lemma DrainSucceedsIff(cfg: DrainConfig, node: string, ans: DrainAnswers)
    requires !cfg.dryRun
    ensures DrainTrace(cfg, node, ans).result.success <==>
            && CanCordon(ans) && ans.pods.Some?
            && forall i :: 0 <= i < |ans.pods.value| && CarriesWorkload(cfg, ans.pods.value[i]) ==>
                             ans.evict(i) == Accepted || ans.evict(i) == NotFound
  {
    if ans.pods.Some? {
      NoFailureIff(cfg, node, ans.pods.value, |ans.pods.value|, ans.evict);
    }
    hide EvictFirst;
  }

  /** A real drain touches nothing unless it can cordon, and begins by cordoning a node that is not yet cordoned. */
  lemma DrainBeginsWithCordon(cfg: DrainConfig, node: string, ans: DrainAnswers)
    requires !cfg.dryRun
    ensures var events := DrainTrace(cfg, node, ans).events;
            && (events == [] <==> !CanCordon(ans))
            && (events != [] ==> events[0] == if ans.unschedulable then FoundCordoned(node) else Cordoned(node))
  {
    hide EvictFirst;
  }

  lemma {:induction false} DryRunEvictsNothing(cfg: DrainConfig, node: string, pods: seq<Pod>, n: nat, evict: nat -> EvictAnswer)
    requires n <= |pods| && cfg.dryRun
    ensures var g := EvictFirst(cfg, node, pods, n, evict); g.events == [] && !g.stopped && g.failed == 0
  {
    if n > 0 {
      DryRunEvictsNothing(cfg, node, pods, n - 1, evict);
    }
  }

  predicate Mutates(e: Event) {
    e.Cordoned? || e.Evicted? || e.Terminated?
  }

  /** A dry-run drain asks the API to change nothing and marks its result as such. */
  lemma DryRunChangesNothing(cfg: DrainConfig, node: string, ans: DrainAnswers)
    requires cfg.dryRun
    ensures var t := DrainTrace(cfg, node, ans);
            t.result.dryRun && forall e :: e in t.events ==> !Mutates(e)
  {
    if ans.pods.Some? {
      DryRunEvictsNothing(cfg, node, ans.pods.value, |ans.pods.value|, ans.evict);
    }
  }

  /** The events of a drain after which the node may be terminated: cordoned, listed, and every listed workload pod gone. */
  ghost predicate CompleteDrain(cfg: DrainConfig, node: string, events: seq<Event>) {
    && |events| >= 2
    && (events[0] == Cordoned(node) || events[0] == FoundCordoned(node))
    && events[1].Listed? && events[1].node == node
    && forall i :: 0 <= i < |events[1].pods| && CarriesWorkload(cfg, events[1].pods[i]) ==> LeftNode(node, i, events[1].pods[i], events[2..])
  }

  /** Success outside dry-run means: cordoned first, listed next, every listed pod handled. */
  lemma SuccessIsCompleteDrain(cfg: DrainConfig, node: string, ans: DrainAnswers)
    requires !cfg.dryRun && DrainTrace(cfg, node, ans).result.success
    ensures DrainTrace(cfg, node, ans).ok && CompleteDrain(cfg, node, DrainTrace(cfg, node, ans).events)
  {
    var t, pods := DrainTrace(cfg, node, ans), ans.pods.value;
    var g := EvictFirst(cfg, node, pods, |pods|, ans.evict);
    assert t.events[2..] == g.events;
    forall i | 0 <= i < |pods| && CarriesWorkload(cfg, pods[i]) ensures LeftNode(node, i, pods[i], g.events) {
      SuccessHandlesEveryPod(cfg, node, pods, ans.evict, i);
    }
  }

  // ----- termination safety of a timeline

  /** No static pod is ever evicted, and no DaemonSet pod where they are to be ignored. */
  ghost predicate SparesOthers(cfg: DrainConfig, log: seq<Event>) {
    forall e :: e in log && e.Evicted? ==> CarriesWorkload(cfg, e.pod)
  }

  lemma DrainSparesOthers(cfg: DrainConfig, node: string, ans: DrainAnswers)
    ensures SparesOthers(cfg, DrainTrace(cfg, node, ans).events)
  {
    if ans.pods.Some? {
      EvictionsAreOfWorkloads(cfg, node, ans.pods.value, |ans.pods.value|, ans.evict);
    }
    hide EvictFirst;
  }

  /** Every termination on the timeline directly follows a complete drain of the same node. */
  ghost predicate TerminationSafe(cfg: DrainConfig, log: seq<Event>) {
    forall t :: 0 <= t < |log| && log[t].Terminated? ==>
      exists s :: 0 <= s < t && CompleteDrain(cfg, log[t].node, log[s..t])
  }

  lemma TerminationSafeExtends(cfg: DrainConfig, log: seq<Event>, more: seq<Event>)
    requires TerminationSafe(cfg, log) && forall e :: e in more ==> !e.Terminated?
    ensures TerminationSafe(cfg, log + more)
  {
    var all := log + more;
    forall t | |log| <= t < |all| ensures !all[t].Terminated? {
      assert all[t] in more;
    }
    forall t | 0 <= t < |log| && all[t].Terminated?
      ensures exists s :: 0 <= s < t && CompleteDrain(cfg, all[t].node, all[s..t])
    {
      var s :| 0 <= s < t && CompleteDrain(cfg, log[t].node, log[s..t]);
      assert all[s..t] == log[s..t];
    }
  }

  lemma TerminationAfterDrainIsSafe(cfg: DrainConfig, log: seq<Event>, drain: seq<Event>, node: string, asg: TwinAsgs.AsgId, instance: string)
    requires TerminationSafe(cfg, log) && CompleteDrain(cfg, node, drain) && forall e :: e in drain ==> !e.Terminated?
    ensures TerminationSafe(cfg, log + drain + [Terminated(node, asg, instance)])
  {
    var upTo, last := log + drain, Terminated(node, asg, instance);
    TerminationSafeExtends(cfg, log, drain);
    hide CompleteDrain;
    assert upTo[|log|..] == drain;
    assert |drain| >= 2 by {
      CompleteDrainIsLong(cfg, node, drain);
    }
    SafeWithOneMore(cfg, upTo, last, |log|);
  }

  lemma CompleteDrainIsLong(cfg: DrainConfig, node: string, events: seq<Event>)
    requires CompleteDrain(cfg, node, events)
    ensures |events| >= 2
  {
  }

  lemma SafeWithOneMore(cfg: DrainConfig, upTo: seq<Event>, last: Event, from: nat)
    requires TerminationSafe(cfg, upTo) && last.Terminated? && from < |upTo| && CompleteDrain(cfg, last.node, upTo[from..])
    ensures TerminationSafe(cfg, upTo + [last])
  {
    hide CompleteDrain;
    var all := upTo + [last];
    forall t | 0 <= t < |all| && all[t].Terminated?
      ensures exists s :: 0 <= s < t && CompleteDrain(cfg, all[t].node, all[s..t])
    {
      if t == |upTo| {
        assert all[from..t] == upTo[from..];
      } else {
        var s :| 0 <= s < t && CompleteDrain(cfg, upTo[t].node, upTo[s..t]);
        assert all[s..t] == upTo[s..t];
      }
    }
  }

  lemma {:induction false} EvictionEventsOnly(cfg: DrainConfig, node: string, pods: seq<Pod>, n: nat, evict: nat -> EvictAnswer)
    requires n <= |pods|
    ensures forall e :: e in EvictFirst(cfg, node, pods, n, evict).events ==> e.Evicted? && e.node == node
  {
    if n > 0 {
      EvictionEventsOnly(cfg, node, pods, n - 1, evict);
    }
  }

  /** The drainer itself never terminates anything, and it touches no other node. */
  lemma DrainStaysOnNode(cfg: DrainConfig, node: string, ans: DrainAnswers)
    ensures forall e :: e in DrainTrace(cfg, node, ans).events ==> !e.Terminated? && e.node == node
  {
    if ans.pods.Some? {
      EvictionEventsOnly(cfg, node, ans.pods.value, |ans.pods.value|, ans.evict);
    }
  }

  // ----- the terminations on a timeline

  /** The instances terminated, with the group each was taken from, in order. */
  function CallsIn(log: seq<Event>): seq<(TwinAsgs.AsgId, string)> {
    if log == [] then []
    else
      var last := log[|log| - 1];
      CallsIn(log[..|log| - 1]) + if last.Terminated? then [(last.asg, last.instance)] else []
  }

  lemma {:induction false} CallsConcat(a: seq<Event>, b: seq<Event>)
    ensures CallsIn(a + b) == CallsIn(a) + CallsIn(b)
  {
    if b == [] {
      assert a + b == a;
    } else {
      assert (a + b)[..|a + b| - 1] == a + b[..|b| - 1];
      CallsConcat(a, b[..|b| - 1]);
    }
  }

  lemma {:induction false} NoCalls(log: seq<Event>)
    requires forall e :: e in log ==> !e.Terminated?
    ensures CallsIn(log) == []
  {
    if log != [] {
      assert log[|log| - 1] in log;
      NoCalls(log[..|log| - 1]);
    }
  }

  /** Some entry terminates this instance in this group, right after a complete drain of the entry's node. */
  ghost predicate Backed(cfg: DrainConfig, log: seq<Event>, call: (TwinAsgs.AsgId, string)) {
    exists s, t :: 0 <= s < t < |log| && log[t].Terminated? && (log[t].asg, log[t].instance) == call
                   && CompleteDrain(cfg, log[t].node, log[s..t])
  }

  lemma {:induction false} CallHasEvent(log: seq<Event>, call: (TwinAsgs.AsgId, string)) returns (t: nat)
    requires call in CallsIn(log)
    ensures t < |log| && log[t].Terminated? && (log[t].asg, log[t].instance) == call
  {
    var n := |log| - 1;
    if log[n].Terminated? && (log[n].asg, log[n].instance) == call {
      t := n;
    } else {
      t := CallHasEvent(log[..n], call);
    }
  }

  /** On a safe timeline every terminated instance was drained first. */
  lemma SafeCallsAreBacked(cfg: DrainConfig, log: seq<Event>, call: (TwinAsgs.AsgId, string))
    requires TerminationSafe(cfg, log) && call in CallsIn(log)
    ensures Backed(cfg, log, call)
  {
    var t := CallHasEvent(log, call);
    var s :| 0 <= s < t && CompleteDrain(cfg, log[t].node, log[s..t]);
  }

  /**
    Read off the timeline alone: before the instance was terminated its node's pods were listed, and
    every listed pod that is neither DaemonSet nor static had its eviction accepted or was already gone.
   */
  ghost predicate EmptiedFirst(log: seq<Event>, call: (TwinAsgs.AsgId, string)) {
    exists s, t :: 0 <= s && s + 1 < t < |log| && log[t].Terminated? && (log[t].asg, log[t].instance) == call
                   && (log[s] == Cordoned(log[t].node) || log[s] == FoundCordoned(log[t].node))
                   && log[s + 1].Listed? && log[s + 1].node == log[t].node
                   && AllGone(log[t].node, log[s + 1].pods, log[s + 2..t])
  }

  ghost predicate AllGone(node: string, pods: seq<Pod>, events: seq<Event>) {
    forall i :: 0 <= i < |pods| && !pods[i].daemonSet && !pods[i].mirror ==>
      exists e :: e in events && e.Evicted? && e.node == node && e.index == i && e.pod == pods[i] && (e.answer.Accepted? || e.answer.NotFound?)
  }

  lemma BackedMeansEmptied(cfg: DrainConfig, log: seq<Event>, call: (TwinAsgs.AsgId, string))
    requires Backed(cfg, log, call)
    ensures EmptiedFirst(log, call)
  {
    var s, t :| 0 <= s < t < |log| && log[t].Terminated? && (log[t].asg, log[t].instance) == call
                && CompleteDrain(cfg, log[t].node, log[s..t]);
    var drain := log[s..t];
    assert drain[0] == log[s] && drain[1] == log[s + 1] && drain[2..] == log[s + 2..t];
    forall i | 0 <= i < |drain[1].pods| && !drain[1].pods[i].daemonSet && !drain[1].pods[i].mirror
      ensures LeftNode(log[t].node, i, drain[1].pods[i], drain[2..])
    {
      assert CarriesWorkload(cfg, drain[1].pods[i]);
    }
    assert AllGone(log[t].node, log[s + 1].pods, log[s + 2..t]);
  }
}
