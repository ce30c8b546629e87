/** When the reconciler is called again, and which lost updates it forgets. */
module Wakeups {
  import opened Operator
  import opened Lifecycle

  /** The calls that ignore a lost update and ask for no further call: the pod has succeeded, no PR is
      known, or the pod that could tell about the PR is not available. */
  predicate IgnoresLoss(s: Status, pods: map<string, Pod>, ans: Answers) {
    || (s.phase == Running && ans.podGetAnswers && s.workerPod in pods && pods[s.workerPod].phase == PodSucceeded)
    || ((s.phase == Completed || s.phase == WaitingForPR)
        && (s.prUrl == "" || !ans.podGetAnswers || !Ready(s.workerPod, pods)))
  }

  lemma RunningLoss(s: Status, pods: map<string, Pod>, ans: Answers)
    requires s.phase == Running
    ensures DecideRunning(s, pods, false, ans).result == Done <==> IgnoresLoss(s, pods, ans)
  {
  }

  /** Exactly when a call on a task that is not final gives up although its update was lost. */
  lemma LossIgnoredExactly(spec: TaskSpec, s: Status, pods: map<string, Pod>, ans: Answers)
    requires Good(spec, s) && !Terminal(spec, s)
    ensures Decide(spec, s, pods, false, ans).result == Done <==> IgnoresLoss(s, pods, ans)
  {
    if s.phase == Running {
      RunningLoss(s, pods, ans);
    }
  }

  /** A call that leaves a task that is not final with no further call to come. */
  predicate Forgets(spec: TaskSpec, w: World, a: Action)
    requires w.versions != []
  {
    && a.Reconcile? && a.lag == 0 && !a.ans.writeAnswers
    && var s := Current(w);
    && IgnoresLoss(s, w.pods, a.ans)
    && !(s.phase != Running && s.prUrl == "" && s.workerPod in w.pods && a.ans.deleteAnswers)
  }

  // ----- What each call asks for, in seconds

  /** After a poll has been answered or could not be, and after a pod that is gone or has ended. */
  lemma NextCallWhileRunning(s: Status, pods: map<string, Pod>, ok: bool, ans: Answers)
    requires s.phase == Running
    ensures var d := DecideRunning(s, pods, ok, ans);
      match d.next
      case None => d.result == After(15)
      case Some(t) =>
        d.result ==
          if t.phase == Completed then Done
          else if t.phase == Failed && (s.workerPod !in pods || pods[s.workerPod].phase == PodFailed) then Requeue
          else if !ok then Error
          else if t.phase == Running then After(15) else if t.phase == Failed then Requeue else Done
  {
  }

  /** While a PR waits: 30 seconds after an unanswered poll and after an open PR; a verdict ends it. */
  lemma NextCallWhileWaiting(s: Status, pods: map<string, Pod>, ok: bool, ans: Answers)
    requires s.phase == Completed || s.phase == WaitingForPR
    ensures var d := DecideWaiting(s, pods, ok, ans);
      match d.next
      case None => d.result == After(30)
      case Some(t) =>
        d.result ==
          if s.prUrl == "" || !ans.podGetAnswers || !Ready(s.workerPod, pods) then Done
          else if !ok then Error
          else if t.phase == WaitingForPR then After(30) else Done
  {
  }

  lemma NextCallElsewhere(spec: TaskSpec, s: Status, pods: map<string, Pod>, ok: bool, ans: Answers)
    requires Good(spec, s) && !Terminal(spec, s)
    ensures s.phase == Unset ==> DecideUnset(s, pods, ok).result == if ok then Requeue else Error
    ensures s.phase == Pending ==>
      DecidePending(spec, s, pods, ok, ans).result
        == if ok || ans.agent.None? || !ans.createAnswers then After(15) else Error
    ensures s.phase == Failed ==>
      DecideFailed(spec, s, pods, ok, ans).result == if ok then RetryAfter(30 * (s.retryCount + 1)) else Error
  {
  }

  /** A current call that leaves a task that is not final as it is, and is not forgotten, asks for the
      next one: at once after an error, after 15 seconds while the task is Pending or Running, and
      after 30 seconds while its PR waits. So polling goes on until something changes. */
  lemma {:induction false} PollingGoesOn(spec: TaskSpec, acts: seq<Action>, ans: Answers)
    requires !Terminal(spec, Current(Run(spec, acts)))
    requires Current(Run(spec, acts + [Reconcile(0, ans)])) == Current(Run(spec, acts))
    requires !Forgets(spec, Run(spec, acts), Reconcile(0, ans))
    ensures var w := Run(spec, acts);
      var s, result := Current(w), Decide(spec, Current(w), w.pods, ans.writeAnswers, ans).result;
      || result == Error || result == Requeue
      || (s.prUrl == "" && result == Done && Run(spec, acts + [Reconcile(0, ans)]).pods != w.pods)
      || ((s.phase == Pending || s.phase == Running) && result == After(15))
      || ((s.phase == Completed || s.phase == WaitingForPR) && result == After(30))
  {
    var w := Run(spec, acts);
    var s := Current(w);
    StoredInvAlways(spec, acts);
    RunExtended(spec, acts, Reconcile(0, ans));
    assert Snapshot(w, 0) == s;
    UnchangedAsks(spec, w, ans);
  }

  lemma UnchangedAsks(spec: TaskSpec, w: World, ans: Answers)
    requires w.versions != [] && Good(spec, Current(w)) && !Terminal(spec, Current(w))
    requires Current(Reconciled(spec, w, 0, ans)) == Current(w) && !Forgets(spec, w, Reconcile(0, ans))
    ensures var s, result := Current(w), Decide(spec, Current(w), w.pods, ans.writeAnswers, ans).result;
      || result == Error || result == Requeue
      || (s.prUrl == "" && result == Done && Reconciled(spec, w, 0, ans).pods != w.pods)
      || ((s.phase == Pending || s.phase == Running) && result == After(15))
      || ((s.phase == Completed || s.phase == WaitingForPR) && result == After(30))
  {
    var s, ok := Current(w), ans.writeAnswers;
    assert Snapshot(w, 0) == s;
    if ok {
      StoredOrDue(spec, s, w.pods, ans);
    } else {
      LossIgnoredExactly(spec, s, w.pods, ans);
      if IgnoresLoss(s, w.pods, ans) {
        LostCallKeepsPods(s, w.pods, spec, ans);
      }
    }
    if s.phase == Running {
      NextCallWhileRunning(s, w.pods, ok, ans);
    } else if s.phase == Completed || s.phase == WaitingForPR {
      NextCallWhileWaiting(s, w.pods, ok, ans);
    } else {
      NextCallElsewhere(spec, s, w.pods, ok, ans);
    }
  }

  // ----- Whether there is a next call

  /** Whether another call is to come: the last one asked for it, or the task or one of its pods has
      changed since. A stale read is followed by the change that it had missed. */
  predicate Due(spec: TaskSpec, acts: seq<Action>) {
    acts == [] ||
    var before, a := acts[..|acts| - 1], acts[|acts| - 1];
    var w, after := Run(spec, before), Run(spec, acts);
    match a
    case Reconcile(lag, ans) =>
      || lag > 0 || Current(after) != Current(w) || after.pods != w.pods
      || Decide(spec, Snapshot(w, lag), w.pods, WriteAccepted(lag, ans), ans).result != Done
    case PodMoves(_, _) => Due(spec, before) || after.pods != w.pods
    case PodLost(_) => Due(spec, before) || after.pods != w.pods
    case HumanMerges(_) => Due(spec, before)
  }

  lemma DueAfterCall(spec: TaskSpec, acts: seq<Action>, ans: Answers)
    ensures var w, after := Run(spec, acts), Run(spec, acts + [Reconcile(0, ans)]);
      Due(spec, acts + [Reconcile(0, ans)]) <==>
        || Current(after) != Current(w) || after.pods != w.pods
        || Decide(spec, Current(w), w.pods, ans.writeAnswers, ans).result != Done
  {
    assert (acts + [Reconcile(0, ans)])[..|acts|] == acts;
    assert Snapshot(Run(spec, acts), 0) == Current(Run(spec, acts));
  }

  lemma LostCallKeepsPods(s: Status, pods: map<string, Pod>, spec: TaskSpec, ans: Answers)
    requires Good(spec, s) && IgnoresLoss(s, pods, ans)
    ensures var d := Decide(spec, s, pods, false, ans);
      d.pods == pods <==> !(s.phase != Running && s.prUrl == "" && s.workerPod in pods && ans.deleteAnswers)
  {
    if s.workerPod in pods {
      assert s.workerPod !in pods - {s.workerPod};
    }
  }

  /** A stored call that asks for no further one has changed the status. */
  lemma StoredOrDue(spec: TaskSpec, s: Status, pods: map<string, Pod>, ans: Answers)
    requires Good(spec, s) && !Terminal(spec, s)
    ensures var d := Decide(spec, s, pods, true, ans);
      d.result == Done ==> d.next.Some? && d.next.value.phase != s.phase
  {
  }

  /** Exactly when a current call leaves a task that is not final with no further call to come: its
      update was lost and ignored, and no pod was deleted on the way. */
  lemma {:induction false} ForgottenExactly(spec: TaskSpec, acts: seq<Action>, ans: Answers)
    requires !Terminal(spec, Current(Run(spec, acts)))
    ensures var w := Run(spec, acts);
      var s := Current(w);
      !Due(spec, acts + [Reconcile(0, ans)]) <==>
        && !ans.writeAnswers && IgnoresLoss(s, w.pods, ans)
        && !(s.phase != Running && s.prUrl == "" && s.workerPod in w.pods && ans.deleteAnswers)
  {
    var w := Run(spec, acts);
    var s := Current(w);
    StoredInvAlways(spec, acts);
    DueAfterCall(spec, acts, ans);
    RunExtended(spec, acts, Reconcile(0, ans));
    assert Snapshot(w, 0) == s;
    if ans.writeAnswers {
      StoredOrDue(spec, s, w.pods, ans);
    } else {
      LossIgnoredExactly(spec, s, w.pods, ans);
      if IgnoresLoss(s, w.pods, ans) {
        LostCallKeepsPods(s, w.pods, spec, ans);
      }
    }
  }

  /** The last call was such a call, and no pod has changed since. */
  predicate Abandoned(spec: TaskSpec, acts: seq<Action>) {
    acts != [] &&
    var before, a := acts[..|acts| - 1], acts[|acts| - 1];
    if a.Reconcile? then Forgets(spec, Run(spec, before), a)
    else Abandoned(spec, before) && Run(spec, acts).pods == Run(spec, before).pods
  }

  lemma FinalStays(spec: TaskSpec, acts: seq<Action>, a: Action)
    requires !Terminal(spec, Current(Run(spec, acts + [a])))
    ensures !Terminal(spec, Current(Run(spec, acts)))
  {
    RunExtended(spec, acts, a);
    if Terminal(spec, Current(Run(spec, acts))) {
      TerminalStep(spec, Run(spec, acts), a);
    }
  }

  /** In every run: exactly when a task that is not final has no call to come. Its last call has lost
      its update and ignored that, and no pod has changed since; what people do does not count. */
  lemma {:induction false} AbandonedExactly(spec: TaskSpec, acts: seq<Action>)
    requires !Terminal(spec, Current(Run(spec, acts)))
    ensures !Due(spec, acts) <==> Abandoned(spec, acts)
  {
    if acts != [] {
      var before, a := acts[..|acts| - 1], acts[|acts| - 1];
      assert acts == before + [a];
      FinalStays(spec, before, a);
      if a.Reconcile? {
        if a.lag == 0 {
          ForgottenExactly(spec, before, a.ans);
        }
      } else {
        AbandonedExactly(spec, before);
      }
    }
  }
}
