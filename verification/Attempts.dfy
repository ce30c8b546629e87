/** What every attempt is given, and what a finished task leaves behind. */
module Attempts {
  import opened PodNames
  import opened Operator
  import opened Lifecycle
  import opened Pods
  import Skills

  /** The pod requested for attempt `k`: the task's one branch, and all of the task's own skills. */
  predicate IsAttempt(spec: TaskSpec, c: Call, k: nat)
    requires c.CreatePod?
  {
    && k <= Budget(spec)
    && c.name == PodName(spec.name, k)
    && c.payload.taskId == spec.name
    && c.payload.branch == (if spec.targetBranch != "" then spec.targetBranch else "task-" + spec.name)
    && (c.payload.isRetry <==> k > 0)
    && Skills.NoDuplicates(c.payload.skills)
    && Skills.Elements(spec.skills) <= Skills.Elements(c.payload.skills)
  }

  ghost predicate OnlyAttempts(spec: TaskSpec, calls: seq<Call>) {
    forall i :: 0 <= i < |calls| && calls[i].CreatePod? ==> exists k :: IsAttempt(spec, calls[i], k)
  }

  lemma PayloadIsAttempt(spec: TaskSpec, s: Status, defaults: seq<string>, outcome: CreateOutcome)
    requires Good(spec, s)
    ensures IsAttempt(spec, CreatePod(OwnName(spec, s), PayloadFor(spec, s, defaults), outcome), s.retryCount)
  {
    Skills.MergedSkillsSound(defaults, spec.skills);
  }

  lemma PendingOnlyAttempts(spec: TaskSpec, s: Status, pods: map<string, Pod>, ok: bool, ans: Answers)
    requires Good(spec, s)
    ensures OnlyAttempts(spec, DecidePending(spec, s, pods, ok, ans).calls)
  {
    var calls := DecidePending(spec, s, pods, ok, ans).calls;
    if ans.agent.Some? {
      PayloadIsAttempt(spec, s, ans.agent.value, calls[0].outcome);
    }
  }

  predicate NoRequest(calls: seq<Call>) {
    forall i :: 0 <= i < |calls| ==> !calls[i].CreatePod?
  }

  lemma RunningNoRequest(s: Status, pods: map<string, Pod>, ok: bool, ans: Answers)
    requires s.phase == Running
    ensures NoRequest(DecideRunning(s, pods, ok, ans).calls)
  {
  }

  lemma WaitingNoRequest(s: Status, pods: map<string, Pod>, ok: bool, ans: Answers)
    requires s.phase == Completed || s.phase == WaitingForPR
    ensures NoRequest(DecideWaiting(s, pods, ok, ans).calls)
  {
  }

  lemma NoRequestElsewhere(spec: TaskSpec, s: Status, pods: map<string, Pod>, ok: bool, ans: Answers)
    requires s.phase != Pending
    ensures NoRequest(Decide(spec, s, pods, ok, ans).calls)
  {
    hide DecidePending, DecideRunning, DecideWaiting;
    if s.phase == Running {
      RunningNoRequest(s, pods, ok, ans);
    } else if s.phase == Completed || s.phase == WaitingForPR {
      WaitingNoRequest(s, pods, ok, ans);
    }
  }

  lemma DecisionOnlyAttempts(spec: TaskSpec, s: Status, pods: map<string, Pod>, d: Decision, ok: bool, ans: Answers)
    requires Good(spec, s) && d == Decide(spec, s, pods, ok, ans)
    ensures OnlyAttempts(spec, d.calls)
  {
    if s.phase == Pending {
      PendingOnlyAttempts(spec, s, pods, ok, ans);
    } else {
      NoRequestElsewhere(spec, s, pods, ok, ans);
    }
  }

  lemma OnlyAttemptsApplied(spec: TaskSpec, w: World, d: Decision, ok: bool)
    requires OnlyAttempts(spec, w.calls) && OnlyAttempts(spec, d.calls)
    ensures OnlyAttempts(spec, Applied(w, d, ok).calls)
  {
  }

  /** Every pod ever requested, stale reads and lost writes included, is that of an attempt within
      the budget, and every attempt is given the same branch. */
  lemma {:induction false} EveryRequestIsAnAttempt(spec: TaskSpec, acts: seq<Action>)
    ensures OnlyAttempts(spec, Run(spec, acts).calls)
  {
    if acts != [] {
      var before, a := acts[..|acts| - 1], acts[|acts| - 1];
      EveryRequestIsAnAttempt(spec, before);
      StoredInvAlways(spec, before);
      if a.Reconcile? {
        var w := Run(spec, before);
        var ok := WriteAccepted(a.lag, a.ans);
        var d := Decide(spec, Snapshot(w, a.lag), w.pods, ok, a.ans);
        DecisionOnlyAttempts(spec, Snapshot(w, a.lag), w.pods, d, ok, a.ans);
        OnlyAttemptsApplied(spec, w, d, ok);
      }
    }
  }

  /** The skills of a request are the agent's defaults, in their order, and then the task's own that
      are not among them, each once; the PR is that of the status that the call has read. */
  lemma RequestCarries(spec: TaskSpec, s: Status, pods: map<string, Pod>, ok: bool, ans: Answers, c: Call)
    requires s.phase == Pending && ans.agent.Some?
    requires c in DecidePending(spec, s, pods, ok, ans).calls && c.CreatePod?
    ensures var skills, defaults := c.payload.skills, ans.agent.value;
      && Skills.NoDuplicates(skills)
      && Skills.Elements(skills) == Skills.Elements(defaults) + Skills.Elements(spec.skills)
      && Skills.FirstOccurrences(defaults) <= skills
      && c.payload.prUrl == s.prUrl && c.payload.taskId == spec.name && (c.payload.isRetry <==> s.retryCount > 0)
  {
    Skills.MergedSkillsSound(ans.agent.value, spec.skills);
  }

  // ----- Pods of finished tasks

  predicate Over(s: Status) {
    s.phase == Merged || s.phase == Closed
  }

  lemma OverStep(spec: TaskSpec, w: World, a: Action, name: string)
    requires w.versions != [] && Over(Current(w)) && (a.Reconcile? ==> a.lag == 0) && !a.PodLost?
    ensures Over(Current(Act(spec, w, a))) && (name in Act(spec, w, a).pods <==> name in w.pods)
  {
  }

  /** Once a task is over, no call looks at its pods again. */
  lemma {:induction false} OverLeavesPods(spec: TaskSpec, acts: seq<Action>, more: seq<Action>, name: string)
    requires Over(Current(Run(spec, acts))) && FreshReads(more) && NoPodLost(more)
    ensures name in Run(spec, acts + more).pods <==> name in Run(spec, acts).pods
    ensures Over(Current(Run(spec, acts + more)))
    decreases more
  {
    if more == [] {
      assert acts + more == acts;
    } else {
      RunExtended(spec, acts, more[0]);
      OverStep(spec, Run(spec, acts), more[0], name);
      OverLeavesPods(spec, acts + [more[0]], more[1..], name);
      MoveFirst(acts, more);
    }
  }

  /** The pod that a call ends a task with: removed unless the deletion was not served, or the pod was
      there but could not answer, when it is not even tried. */
  predicate Leaves(s: Status, pods: map<string, Pod>, ans: Answers) {
    !ans.deleteAnswers || (s.prUrl != "" && (!ans.podGetAnswers || !Ready(s.workerPod, pods)))
  }

  lemma EndingCall(spec: TaskSpec, s: Status, pods: map<string, Pod>, ans: Answers)
    requires Good(spec, s) && !Over(s)
    requires var d := Decide(spec, s, pods, true, ans); d.next.Some? && Over(d.next.value)
    ensures s.phase == Completed || s.phase == WaitingForPR
    ensures s.workerPod in Decide(spec, s, pods, true, ans).pods <==> s.workerPod in pods && Leaves(s, pods, ans)
  {
    assert s.workerPod !in pods - {s.workerPod};
  }

  lemma EndingStep(spec: TaskSpec, w: World, ans: Answers)
    requires w.versions != [] && Good(spec, Current(w)) && !Over(Current(w)) && Over(Current(Reconciled(spec, w, 0, ans)))
    ensures var s := Current(w);
      s.workerPod in Reconciled(spec, w, 0, ans).pods <==> s.workerPod in w.pods && Leaves(s, w.pods, ans)
  {
    assert Snapshot(w, 0) == Current(w);
    EndingCall(spec, Current(w), w.pods, ans);
  }

  /** Exactly when a task that has become Merged or Closed keeps its pod for good. */
  lemma {:induction false} LeftoverPodExactly(spec: TaskSpec, acts: seq<Action>, ans: Answers, more: seq<Action>)
    requires !Over(Current(Run(spec, acts))) && Over(Current(Run(spec, acts + [Reconcile(0, ans)])))
    requires FreshReads(more) && NoPodLost(more)
    ensures var w := Run(spec, acts);
      var s, last := Current(w), Run(spec, acts + [Reconcile(0, ans)] + more);
      && Over(Current(last))
      && (s.workerPod in last.pods <==> s.workerPod in w.pods && Leaves(s, w.pods, ans))
  {
    var s := Current(Run(spec, acts));
    RunExtended(spec, acts, Reconcile(0, ans));
    StoredInvAlways(spec, acts);
    EndingStep(spec, Run(spec, acts), ans);
    OverLeavesPods(spec, acts + [Reconcile(0, ans)], more, s.workerPod);
  }

  // ----- Memory of finished tasks

  lemma EndingGraduates(spec: TaskSpec, s: Status, pods: map<string, Pod>, ans: Answers)
    requires s.phase == Completed || s.phase == WaitingForPR
    requires var d := DecideWaiting(s, pods, true, ans); d.next.Some? && Over(d.next.value)
    ensures Graduate(s.workerPod) in DecideWaiting(s, pods, true, ans).calls <==>
            s.prUrl != "" && ans.podGetAnswers && Ready(s.workerPod, pods)
  {
    var calls := DecideWaiting(s, pods, true, ans).calls;
    if s.prUrl != "" && ans.podGetAnswers && Ready(s.workerPod, pods) {
      assert calls[0] == Graduate(s.workerPod);
    }
  }

  /** Calls on a task that is over are made, but do nothing. */
  lemma {:induction false} OverCallsNothing(spec: TaskSpec, acts: seq<Action>, more: seq<Action>)
    requires Over(Current(Run(spec, acts))) && FreshReads(more)
    ensures Run(spec, acts + more).calls == Run(spec, acts).calls && Over(Current(Run(spec, acts + more)))
    decreases more
  {
    if more == [] {
      assert acts + more == acts;
    } else {
      RunExtended(spec, acts, more[0]);
      OverStepCalls(spec, Run(spec, acts), more[0]);
      OverCallsNothing(spec, acts + [more[0]], more[1..]);
      MoveFirst(acts, more);
    }
  }

  lemma OverStepCalls(spec: TaskSpec, w: World, a: Action)
    requires w.versions != [] && Over(Current(w)) && (a.Reconcile? ==> a.lag == 0)
    ensures Over(Current(Act(spec, w, a))) && Act(spec, w, a).calls == w.calls
  {
  }

  /** Exactly when a task that has become Merged or Closed is graduated, then or ever after: when a PR
      is known and the call that ends the task finds its pod able to answer. */
  lemma {:induction false} GraduatedExactly(spec: TaskSpec, acts: seq<Action>, ans: Answers, more: seq<Action>)
    requires !Over(Current(Run(spec, acts))) && Over(Current(Run(spec, acts + [Reconcile(0, ans)])))
    requires FreshReads(more)
    ensures var w, last := Run(spec, acts), Run(spec, acts + [Reconcile(0, ans)] + more);
      var s := Current(w);
      && w.calls <= last.calls
      && (Graduate(s.workerPod) in last.calls[|w.calls|..] <==>
            s.prUrl != "" && ans.podGetAnswers && Ready(s.workerPod, w.pods))
  {
    var w := Run(spec, acts);
    var s := Current(w);
    RunExtended(spec, acts, Reconcile(0, ans));
    StoredInvAlways(spec, acts);
    EndingCalls(spec, w, ans);
    OverCallsNothing(spec, acts + [Reconcile(0, ans)], more);
  }

  lemma EndingCalls(spec: TaskSpec, w: World, ans: Answers)
    requires w.versions != [] && Good(spec, Current(w)) && !Over(Current(w)) && Over(Current(Reconciled(spec, w, 0, ans)))
    ensures var s, after := Current(w), Reconciled(spec, w, 0, ans);
      && w.calls <= after.calls
      && (Graduate(s.workerPod) in after.calls[|w.calls|..] <==>
            s.prUrl != "" && ans.podGetAnswers && Ready(s.workerPod, w.pods))
  {
    assert Snapshot(w, 0) == Current(w);
    EndingCall(spec, Current(w), w.pods, ans);
    EndingGraduates(spec, Current(w), w.pods, ans);
    var d := DecideWaiting(Current(w), w.pods, true, ans);
    assert (w.calls + d.calls)[|w.calls|..] == d.calls;
  }
}
