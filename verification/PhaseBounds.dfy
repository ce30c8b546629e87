/** How many phase changes runs have when the environment behaves: one less than in general. */
module PhaseBounds {
  import opened Operator
  import opened Lifecycle
  import opened Pods
  import opened Protocol
  import opened Polls

  /** A Completed task has nothing to wait for: no PR is known, or its pod cannot answer. */
  predicate NothingToWaitFor(s: Status, pods: map<string, Pod>) {
    s.phase == Completed ==> s.prUrl == "" || !Ready(s.workerPod, pods)
  }

  /** At every point of the run. */
  predicate NeverWaitsAfterCompleted(spec: TaskSpec, acts: seq<Action>) {
    acts != [] ==>
      var before := acts[..|acts| - 1];
      NeverWaitsAfterCompleted(spec, before)
      && NothingToWaitFor(Current(Run(spec, before)), Run(spec, before).pods)
  }

  /** The phase changes still to come, when Completed can only become Closed. */
  function Remaining(spec: TaskSpec, s: Status): int {
    match s.phase
    case Completed => 1
    case WaitingForPR => 1
    case Merged => 0
    case Closed => 0
    case _ => Potential(spec, s) - 1
  }

  lemma RunningPays(spec: TaskSpec, s: Status, pods: map<string, Pod>, ans: Answers, d: Decision)
    requires Good(spec, s) && s.phase == Running && d == DecideRunning(s, pods, true, ans) && d.next.Some?
    ensures Remaining(spec, d.next.value) + (if d.next.value.phase != s.phase then 1 else 0) <= Remaining(spec, s)
  {
  }

  lemma WaitingPays(spec: TaskSpec, s: Status, pods: map<string, Pod>, ans: Answers, d: Decision)
    requires s.phase == Completed || s.phase == WaitingForPR
    requires NothingToWaitFor(s, pods) && d == DecideWaiting(s, pods, true, ans) && d.next.Some?
    ensures Remaining(spec, d.next.value) + (if d.next.value.phase != s.phase then 1 else 0) <= Remaining(spec, s)
  {
  }

  lemma DecisionPays(spec: TaskSpec, s: Status, pods: map<string, Pod>, ans: Answers, d: Decision)
    requires Good(spec, s) && NothingToWaitFor(s, pods) && d == Decide(spec, s, pods, true, ans) && d.next.Some?
    ensures Remaining(spec, d.next.value) + (if d.next.value.phase != s.phase then 1 else 0) <= Remaining(spec, s)
  {
    match s.phase
    case Running => RunningPays(spec, s, pods, ans, d);
    case Completed => WaitingPays(spec, s, pods, ans, d);
    case WaitingForPR => WaitingPays(spec, s, pods, ans, d);
    case _ =>
  }

  lemma RemainingApplied(spec: TaskSpec, w: World, d: Decision)
    requires w.versions != [] && d.next.Some?
    requires Remaining(spec, d.next.value) + (if d.next.value.phase != Current(w).phase then 1 else 0)
          <= Remaining(spec, Current(w))
    ensures var after := Applied(w, d, true);
      PhaseChanges(after.versions) + Remaining(spec, Current(after)) <= PhaseChanges(w.versions) + Remaining(spec, Current(w))
  {
    ChangeCounted(w.versions, d.next.value);
  }

  lemma RemainingCall(spec: TaskSpec, w: World, ans: Answers)
    requires w.versions != [] && Good(spec, Current(w)) && NothingToWaitFor(Current(w), w.pods) && ans.writeAnswers
    ensures var after := Reconciled(spec, w, 0, ans);
      PhaseChanges(after.versions) + Remaining(spec, Current(after)) <= PhaseChanges(w.versions) + Remaining(spec, Current(w))
  {
    var d := Decide(spec, Current(w), w.pods, true, ans);
    assert Reconciled(spec, w, 0, ans) == Applied(w, d, true);
    if d.next.Some? {
      DecisionPays(spec, Current(w), w.pods, ans, d);
      RemainingApplied(spec, w, d);
    }
  }

  lemma RemainingStep(spec: TaskSpec, w: World, a: Action)
    requires StoredInv(spec, w) && NothingToWaitFor(Current(w), w.pods)
    ensures PhaseChanges(Act(spec, w, a).versions) + Remaining(spec, Current(Act(spec, w, a)))
         <= PhaseChanges(w.versions) + Remaining(spec, Current(w))
  {
    if a.Reconcile? && WriteAccepted(a.lag, a.ans) {
      RemainingCall(spec, w, a.ans);
    } else {
      assert Act(spec, w, a).versions == w.versions;
    }
  }

  lemma {:induction false} RemainingAlways(spec: TaskSpec, acts: seq<Action>)
    requires NeverWaitsAfterCompleted(spec, acts)
    ensures PhaseChanges(Run(spec, acts).versions) + Remaining(spec, Current(Run(spec, acts))) <= 3 * Budget(spec) + 4
  {
    if acts != [] {
      var before := acts[..|acts| - 1];
      RemainingAlways(spec, before);
      StoredInvAlways(spec, before);
      RemainingStep(spec, Run(spec, before), acts[|acts| - 1]);
    }
  }

  /** One phase change less than the general bound, if Completed never turns into waiting. */
  lemma {:induction false} BoundWithoutWaiting(spec: TaskSpec, acts: seq<Action>)
    requires NeverWaitsAfterCompleted(spec, acts)
    ensures PhaseChanges(Run(spec, acts).versions) <= 3 * Budget(spec) + 4
  {
    RemainingAlways(spec, acts);
    StoredInvAlways(spec, acts);
  }

  // ----- Fresh reads, and pods that stay ended

  predicate EndedPodsStay(spec: TaskSpec, acts: seq<Action>) {
    acts != [] ==>
      var before, a := acts[..|acts| - 1], acts[|acts| - 1];
      var pods := Run(spec, before).pods;
      EndedPodsStay(spec, before) && (a.PodMoves? && a.name in pods ==> EndedStays(pods[a.name], a.pod))
  }

  lemma {:induction false} HonestPodsStayEnded(spec: TaskSpec, acts: seq<Action>)
    requires HonestRun(spec, acts)
    ensures EndedPodsStay(spec, acts)
  {
    if acts != [] {
      HonestPodsStayEnded(spec, acts[..|acts| - 1]);
    }
  }

  /** The pod of a Completed task has succeeded. */
  predicate CompletedPodEnded(s: Status, pods: map<string, Pod>) {
    s.phase == Completed && s.workerPod in pods ==> pods[s.workerPod].phase == PodSucceeded
  }

  lemma RunningCompletes(s: Status, pods: map<string, Pod>, ok: bool, ans: Answers)
    requires s.phase == Running
    ensures var d := DecideRunning(s, pods, ok, ans);
      d.next.Some? && d.next.value.phase == Completed ==>
        d.pods == pods && d.next.value.workerPod == s.workerPod && s.workerPod in pods
        && pods[s.workerPod].phase == PodSucceeded
  {
  }

  lemma OthersDoNotComplete(spec: TaskSpec, s: Status, pods: map<string, Pod>, ok: bool, ans: Answers)
    requires s.phase != Running && !s.phase.Unknown?
    ensures var d := Decide(spec, s, pods, ok, ans);
      && (d.next.Some? ==> d.next.value.phase != Completed)
      && (s.phase == Completed ==> d.pods == pods || d.pods == pods - {s.workerPod})
  {
  }

  lemma CompletedFromEnded(spec: TaskSpec, s: Status, pods: map<string, Pod>, ok: bool, ans: Answers, d: Decision)
    requires d == Decide(spec, s, pods, ok, ans) && !s.phase.Unknown? && CompletedPodEnded(s, pods)
    ensures CompletedPodEnded(if ok && d.next.Some? then d.next.value else s, d.pods)
  {
    if s.phase == Running {
      RunningCompletes(s, pods, ok, ans);
    } else {
      OthersDoNotComplete(spec, s, pods, ok, ans);
    }
  }

  lemma CompletedPodEndedCall(spec: TaskSpec, w: World, ans: Answers)
    requires w.versions != [] && !Current(w).phase.Unknown? && CompletedPodEnded(Current(w), w.pods)
    ensures CompletedPodEnded(Current(Reconciled(spec, w, 0, ans)), Reconciled(spec, w, 0, ans).pods)
  {
    var ok := WriteAccepted(0, ans);
    assert Snapshot(w, 0) == Current(w);
    CompletedFromEnded(spec, Current(w), w.pods, ok, ans, Decide(spec, Current(w), w.pods, ok, ans));
  }

  lemma CompletedPodEndedStep(spec: TaskSpec, w: World, a: Action)
    requires StoredInv(spec, w) && CompletedPodEnded(Current(w), w.pods) && (a.Reconcile? ==> a.lag == 0)
    requires a.PodMoves? && a.name in w.pods ==> EndedStays(w.pods[a.name], a.pod)
    ensures CompletedPodEnded(Current(Act(spec, w, a)), Act(spec, w, a).pods)
  {
    if a.Reconcile? {
      assert Good(spec, w.versions[|w.versions| - 1]);
      CompletedPodEndedCall(spec, w, a.ans);
    }
  }

  lemma {:induction false} EndedPodsNeverAnswer(spec: TaskSpec, acts: seq<Action>)
    requires FreshReads(acts) && EndedPodsStay(spec, acts)
    ensures NeverWaitsAfterCompleted(spec, acts) && CompletedPodEnded(Current(Run(spec, acts)), Run(spec, acts).pods)
  {
    if acts != [] {
      var before := acts[..|acts| - 1];
      EndedPodsNeverAnswer(spec, before);
      StoredInvAlways(spec, before);
      CompletedPodEndedStep(spec, Run(spec, before), acts[|acts| - 1]);
    }
  }

  /** With fresh reads and pods whose last phase is their last, a run stores at most 3M + 4 phase
      changes, whatever else pods, workers, people and lost updates do. */
  lemma {:induction false} FreshPhaseChangesBounded(spec: TaskSpec, acts: seq<Action>)
    requires FreshReads(acts) && EndedPodsStay(spec, acts)
    ensures PhaseChanges(Run(spec, acts).versions) <= 3 * Budget(spec) + 4
  {
    EndedPodsNeverAnswer(spec, acts);
    BoundWithoutWaiting(spec, acts);
  }

  /** In particular in honest runs with fresh reads. */
  lemma {:induction false} HonestFreshBound(spec: TaskSpec, acts: seq<Action>)
    requires HonestRun(spec, acts) && FreshReads(acts)
    ensures PhaseChanges(Run(spec, acts).versions) <= 3 * Budget(spec) + 4
  {
    HonestPodsStayEnded(spec, acts);
    FreshPhaseChangesBounded(spec, acts);
  }

  // ----- No retries, and honest polls

  lemma FirstAttemptKnowsNoPr(spec: TaskSpec, w: World)
    requires StoredInv(spec, w) && CarryInv(spec, w) && w.versions[0] == NEW_STATUS && Budget(spec) == 0
    ensures NothingToWaitFor(Current(w), w.pods)
  {
    assert Agree(w.versions[0], w.versions[|w.versions| - 1]);
  }

  lemma {:induction false} FirstVersionKept(spec: TaskSpec, acts: seq<Action>)
    ensures Run(spec, acts).versions[0] == NEW_STATUS
  {
    if acts != [] {
      FirstVersionKept(spec, acts[..|acts| - 1]);
    }
  }

  lemma {:induction false} WithoutRetriesNeverWaits(spec: TaskSpec, acts: seq<Action>)
    requires HonestRun(spec, acts) && Budget(spec) == 0
    ensures NeverWaitsAfterCompleted(spec, acts)
  {
    if acts != [] {
      var before := acts[..|acts| - 1];
      WithoutRetriesNeverWaits(spec, before);
      StoredInvAlways(spec, before);
      CarryInvAlways(spec, before);
      FirstVersionKept(spec, before);
      FirstAttemptKnowsNoPr(spec, Run(spec, before));
    }
  }

  /** Without retries four phase changes are the most, stale reads included, if polls are honest. */
  lemma {:induction false} HonestBoundWithoutRetries(spec: TaskSpec, acts: seq<Action>)
    requires HonestRun(spec, acts) && Budget(spec) == 0
    ensures PhaseChanges(Run(spec, acts).versions) <= 4
  {
    WithoutRetriesNeverWaits(spec, acts);
    BoundWithoutWaiting(spec, acts);
  }
}
