/** Which statuses follow each other, and what one current call does in each phase. */
module Transitions {
  import opened PodNames
  import opened Operator
  import opened Lifecycle

  /** The phase, and whatever a poll may have brought: any progress, and a PR in place of none or another. */
  predicate AfterPoll(s: Status, t: Status) {
    t == s.(phase := t.phase, progress := t.progress, prUrl := t.prUrl, lastFailure := t.lastFailure)
    && (t.prUrl == "" ==> s.prUrl == "")
  }

  /** One stored status and the next. */
  predicate Follows(spec: TaskSpec, s: Status, t: Status) {
    match s.phase
    case Unset => t == s.(phase := Pending, progress := 0)
    case Pending =>
      t == s || t == s.(phase := Running, progress := 5, workerPod := PodName(spec.name, s.retryCount), started := true)
    case Running =>
      || (t.phase == Running && t.lastFailure == s.lastFailure && AfterPoll(s, t))
      || t == s.(phase := Failed, lastFailure := PodDisappeared)
      || t == s.(phase := Failed, lastFailure := PodFailure)
      || (t.phase == Failed && t.lastFailure in {IncompleteRun, RateLimited, WorkerFailure} && AfterPoll(s, t))
      || t == s.(phase := Completed, progress := 100, completed := true)
      || (t == s.(phase := WaitingForPR, progress := 100, completed := true, prState := "open", prUrl := t.prUrl)
          && (t.prUrl == "" ==> s.prUrl == ""))
    case Failed =>
      || (s.retryCount >= Budget(spec) && t == s)
      || (s.retryCount < Budget(spec)
          && t == s.(phase := Pending, progress := 0, workerPod := "", started := false, completed := false,
                     retryCount := s.retryCount + 1))
    case Completed => Decided(s, t)
    case WaitingForPR => Decided(s, t)
    case _ => false
  }

  /** A PR that waits on, or that ended with a verdict or without one. */
  predicate Decided(s: Status, t: Status) {
    || t == s.(phase := Closed)
    || (s.prUrl != "" && t == s.(phase := t.phase, prState := t.prState)
        && (t.phase == Merged || (t.phase == Closed && t.prState == "closed")
            || (t.phase == WaitingForPR && t.prState != "closed")))
  }

  lemma RunningFollows(spec: TaskSpec, s: Status, pods: map<string, Pod>, ans: Answers)
    requires s.phase == Running
    ensures var d := DecideRunning(s, pods, true, ans); d.next.Some? ==> Follows(spec, s, d.next.value)
  {
  }

  lemma WaitingFollows(spec: TaskSpec, s: Status, pods: map<string, Pod>, ans: Answers)
    requires s.phase == Completed || s.phase == WaitingForPR
    ensures var d := DecideWaiting(s, pods, true, ans); d.next.Some? ==> Follows(spec, s, d.next.value)
  {
  }

  lemma DecisionFollows(spec: TaskSpec, s: Status, pods: map<string, Pod>, ans: Answers)
    requires Good(spec, s)
    ensures var d := Decide(spec, s, pods, true, ans); d.next.Some? ==> Follows(spec, s, d.next.value)
  {
    hide DecideRunning, DecideWaiting;
    if s.phase == Running {
      RunningFollows(spec, s, pods, ans);
    } else if s.phase == Completed || s.phase == WaitingForPR {
      WaitingFollows(spec, s, pods, ans);
    }
  }

  /** In every run, stale reads and lost updates included, each stored status follows the one before. */
  lemma {:induction false} VersionsFollow(spec: TaskSpec, acts: seq<Action>, i: nat)
    requires i + 1 < |Run(spec, acts).versions|
    ensures Follows(spec, Run(spec, acts).versions[i], Run(spec, acts).versions[i + 1])
  {
    hide Decide, Follows, Good;
    if acts != [] {
      var before, a := acts[..|acts| - 1], acts[|acts| - 1];
      var w := Run(spec, before);
      if i + 1 < |w.versions| {
        VersionsFollow(spec, before, i);
      } else {
        StoredInvAlways(spec, before);
        DecisionFollows(spec, Current(w), w.pods, a.ans);
      }
    }
  }

  // ----- What one current call does

  /** In Pending: exactly when the agent is known and the API server serves the creation, the attempt's
      pod is there afterwards, adopted or new, and the task is Running. */
  lemma {:induction false} StartsExactly(spec: TaskSpec, acts: seq<Action>, ans: Answers)
    requires Current(Run(spec, acts)).phase == Pending && ans.writeAnswers
    ensures var w, after := Run(spec, acts), Run(spec, acts + [Reconcile(0, ans)]);
      var s := Current(w);
      var name := PodName(spec.name, s.retryCount);
      if ans.agent.Some? && ans.createAnswers then
        && Current(after) == s.(phase := Running, progress := 5, workerPod := name, started := true)
        && name in after.pods && after.pods - {name} == w.pods - {name}
        && if name in w.pods then after.pods[name] == w.pods[name]
           else after.pods[name].phase == PodPending && !after.pods[name].hasIP && !after.pods[name].worker.booted
      else Current(after) == s && after.pods == w.pods
  {
    RunExtended(spec, acts, Reconcile(0, ans));
    assert Snapshot(Run(spec, acts), 0) == Current(Run(spec, acts));
  }

  /** In Running: the state of the pod decides, and only an addressable pod's worker is listened to. */
  lemma {:induction false} PodDecides(spec: TaskSpec, acts: seq<Action>, ans: Answers)
    requires Current(Run(spec, acts)).phase == Running && ans.writeAnswers
    ensures var w, after := Run(spec, acts), Run(spec, acts + [Reconcile(0, ans)]);
      var s := Current(w);
      var name := PodName(spec.name, s.retryCount);
      && after.pods == w.pods
      && if !ans.podGetAnswers then after == w
         else if name !in w.pods then Current(after) == s.(phase := Failed, lastFailure := PodDisappeared)
         else match w.pods[name].phase
           case PodFailed => Current(after) == s.(phase := Failed, lastFailure := PodFailure)
           case PodSucceeded => Current(after) == s.(phase := Completed, progress := 100, completed := true)
           case PodRunning => (w.pods[name].hasIP && ans.status.Some?) || after == w
           case _ => after == w
  {
    StoredInvAlways(spec, acts);
    RunExtended(spec, acts, Reconcile(0, ans));
    assert Snapshot(Run(spec, acts), 0) == Current(Run(spec, acts));
    assert Run(spec, acts).calls + [] == Run(spec, acts).calls;
  }

  /** Once a task is done with a pod: a failed task's pod is deleted before its status is stored; that of
      a task without a PR afterwards, and that of a task whose pod cannot answer is left alone. */
  lemma {:induction false} CleanupOrder(spec: TaskSpec, acts: seq<Action>, ans: Answers)
    requires ans.writeAnswers
    ensures var w, after := Run(spec, acts), Run(spec, acts + [Reconcile(0, ans)]);
      var s := Current(w);
      var write := WriteStatus(Current(after), true);
      var name := PodName(spec.name, s.retryCount);
      var deleted := name in w.pods && ans.deleteAnswers;
      && (s.phase == Failed ==>
            after.pods == (if deleted then w.pods - {name} else w.pods)
            && after.calls == w.calls + (if deleted then [DeletePod(name), write] else [write]))
      && (s.phase == Completed || s.phase == WaitingForPR ==>
            && (s.prUrl == "" ==>
                  after.pods == (if deleted then w.pods - {name} else w.pods)
                  && after.calls == w.calls + (if deleted then [write, DeletePod(name)] else [write]))
            && (s.prUrl != "" && !(ans.podGetAnswers && name in w.pods && w.pods[name].phase == PodRunning && w.pods[name].hasIP) ==>
                  after.pods == w.pods && after.calls == w.calls + [write]))
  {
    StoredInvAlways(spec, acts);
    RunExtended(spec, acts, Reconcile(0, ans));
    assert Snapshot(Run(spec, acts), 0) == Current(Run(spec, acts));
  }
}
