/** Which worker pods a run creates, adopts and leaves behind. */
module Pods {
  import opened PodNames
  import opened Operator
  import opened Lifecycle

  predicate FreshReads(acts: seq<Action>) {
    forall i :: 0 <= i < |acts| && acts[i].Reconcile? ==> acts[i].lag == 0
  }

  predicate NoPodLost(acts: seq<Action>) {
    forall i :: 0 <= i < |acts| ==> !acts[i].PodLost?
  }

  predicate DeletesServed(acts: seq<Action>) {
    forall i :: 0 <= i < |acts| && acts[i].Reconcile? ==> acts[i].ans.deleteAnswers
  }

  function OwnName(spec: TaskSpec, s: Status): string {
    PodName(spec.name, s.retryCount)
  }

  /** The names of a task's attempts up to the given retry count. */
  function AttemptNames(spec: TaskSpec, retry: nat): set<string> {
    (if retry == 0 then {} else AttemptNames(spec, retry - 1)) + {PodName(spec.name, retry)}
  }

  lemma {:induction false} AttemptNamesAre(spec: TaskSpec, retry: nat, name: string)
    ensures name in AttemptNames(spec, retry) <==> exists k: nat :: k <= retry && name == PodName(spec.name, k)
  {
    if retry > 0 {
      AttemptNamesAre(spec, retry - 1, name);
    }
    assert name in AttemptNames(spec, retry) ==> name == PodName(spec.name, retry) || retry > 0;
  }

  function CreatedNames(calls: seq<Call>): seq<string> {
    if calls == [] then []
    else (if calls[0].CreatePod? && calls[0].outcome == Created then [calls[0].name] else [])
         + CreatedNames(calls[1..])
  }

  lemma {:induction false} CreatedNamesAppend(calls: seq<Call>, more: seq<Call>)
    ensures CreatedNames(calls + more) == CreatedNames(calls) + CreatedNames(more)
  {
    if calls == [] {
      assert calls + more == more;
    } else {
      assert (calls + more)[1..] == calls[1..] + more;
      CreatedNamesAppend(calls[1..], more);
    }
  }

  /** What one decision does to the pods: at most the current attempt's pod comes or goes, and it
      comes only from Pending, when it is not there yet. */
  ghost predicate TouchesOwnPod(spec: TaskSpec, s: Status, pods: map<string, Pod>, ans: Answers, d: Decision) {
    var own := OwnName(spec, s);
    && d.pods - {own} == pods - {own}
    && CreatedNames(d.calls) == (if own in d.pods && own !in pods then [own] else [])
    && (own in d.pods && own !in pods ==> s.phase == Pending)
    && (own in pods && own !in d.pods ==> s.phase == Failed || s.phase == Completed || s.phase == WaitingForPR)
    && (s.phase == Failed && ans.deleteAnswers ==> own !in d.pods)
    && (d.next.Some? && d.next.value.phase == Pending ==>
          s.phase == Unset || s.phase == Pending || (s.phase == Failed && d.next.value == Retried(s)))
  }

  lemma {:induction false} NothingCreated(calls: seq<Call>)
    requires forall i :: 0 <= i < |calls| ==> !calls[i].CreatePod?
    ensures CreatedNames(calls) == []
  {
    if calls != [] {
      NothingCreated(calls[1..]);
    }
  }

  lemma PendingPods(spec: TaskSpec, s: Status, pods: map<string, Pod>, ok: bool, ans: Answers)
    requires Good(spec, s) && s.phase == Pending
    ensures TouchesOwnPod(spec, s, pods, ans, DecidePending(spec, s, pods, ok, ans))
  {
    var d := DecidePending(spec, s, pods, ok, ans);
    if ans.agent.Some? {
      NothingCreated(d.calls[1..]);
      assert d.pods - {OwnName(spec, s)} == pods - {OwnName(spec, s)};
    } else {
      NothingCreated(d.calls);
    }
  }

  /** A decision whose only effect on pods is a cleanup of the current attempt's pod. */
  lemma CleanupTouches(spec: TaskSpec, s: Status, pods: map<string, Pod>, ans: Answers, d: Decision)
    requires s.phase == Failed || s.phase == Completed || s.phase == WaitingForPR
    requires d.pods == pods || d.pods == Cleaned(OwnName(spec, s), pods, ans)
    requires s.phase == Failed ==> d.pods == Cleaned(OwnName(spec, s), pods, ans)
    requires forall i :: 0 <= i < |d.calls| ==> !d.calls[i].CreatePod?
    requires d.next.Some? && d.next.value.phase == Pending ==> s.phase == Failed && d.next.value == Retried(s)
    ensures TouchesOwnPod(spec, s, pods, ans, d)
  {
    NothingCreated(d.calls);
    assert d.pods - {OwnName(spec, s)} == pods - {OwnName(spec, s)};
  }

  lemma WaitingCleansUp(s: Status, pods: map<string, Pod>, ok: bool, ans: Answers)
    requires s.phase == Completed || s.phase == WaitingForPR
    ensures var d := DecideWaiting(s, pods, ok, ans);
      && (d.pods == pods || d.pods == Cleaned(s.workerPod, pods, ans))
      && (forall i :: 0 <= i < |d.calls| ==> !d.calls[i].CreatePod?)
      && (d.next.Some? ==> d.next.value.phase != Pending)
  {
    if s.prUrl == "" {
    } else if !ans.podGetAnswers || !Ready(s.workerPod, pods) {
    } else if ans.pr.None? {
    } else {
    }
  }

  lemma WaitingPods(spec: TaskSpec, s: Status, pods: map<string, Pod>, ok: bool, ans: Answers)
    requires Good(spec, s) && (s.phase == Completed || s.phase == WaitingForPR)
    ensures TouchesOwnPod(spec, s, pods, ans, DecideWaiting(s, pods, ok, ans))
  {
    var d := DecideWaiting(s, pods, ok, ans);
    WaitingCleansUp(s, pods, ok, ans);
    CleanupTouches(spec, s, pods, ans, d);
  }

  lemma FailedPods(spec: TaskSpec, s: Status, pods: map<string, Pod>, ok: bool, ans: Answers)
    requires Good(spec, s) && s.phase == Failed
    ensures TouchesOwnPod(spec, s, pods, ans, DecideFailed(spec, s, pods, ok, ans))
  {
    var d := DecideFailed(spec, s, pods, ok, ans);
    assert s.workerPod != "" by {
      assert |OwnName(spec, s)| > 0;
    }
    CleanupTouches(spec, s, pods, ans, d);
  }

  lemma RunningLeavesPods(s: Status, pods: map<string, Pod>, ok: bool, ans: Answers)
    requires s.phase == Running
    ensures var d := DecideRunning(s, pods, ok, ans);
      && d.pods == pods
      && (forall i :: 0 <= i < |d.calls| ==> !d.calls[i].CreatePod?)
      && (d.next.Some? ==> d.next.value.phase != Pending)
  {
  }

  lemma RunningPods(spec: TaskSpec, s: Status, pods: map<string, Pod>, ok: bool, ans: Answers)
    requires s.phase == Running
    ensures TouchesOwnPod(spec, s, pods, ans, DecideRunning(s, pods, ok, ans))
  {
    RunningLeavesPods(s, pods, ok, ans);
    NothingCreated(DecideRunning(s, pods, ok, ans).calls);
  }

  lemma DecisionPods(spec: TaskSpec, s: Status, pods: map<string, Pod>, ok: bool, ans: Answers)
    requires Good(spec, s)
    ensures TouchesOwnPod(spec, s, pods, ans, Decide(spec, s, pods, ok, ans))
  {
    match s.phase
    case Pending => PendingPods(spec, s, pods, ok, ans);
    case Running => RunningPods(spec, s, pods, ok, ans);
    case Failed => FailedPods(spec, s, pods, ok, ans);
    case Completed => WaitingPods(spec, s, pods, ok, ans);
    case WaitingForPR => WaitingPods(spec, s, pods, ok, ans);
    case _ => NothingCreated(Decide(spec, s, pods, ok, ans).calls);
  }

  /** Pods under any other name are left as they are. */
  lemma OtherPodsUntouched(spec: TaskSpec, s: Status, pods: map<string, Pod>, ok: bool, ans: Answers, name: string)
    requires Good(spec, s) && name != OwnName(spec, s)
    ensures var after := Decide(spec, s, pods, ok, ans).pods;
      (name in after <==> name in pods) && (name in pods ==> after[name] == pods[name])
  {
    DecisionPods(spec, s, pods, ok, ans);
    var own := OwnName(spec, s);
    var after := Decide(spec, s, pods, ok, ans).pods;
    assert name in after <==> name in after - {own};
    assert name in pods <==> name in pods - {own};
    if name in pods {
      assert (pods - {own})[name] == (after - {own})[name];
    }
  }

  /** Reconciling one task leaves another task's pod alone, unless a first attempt's name clashes
      with a retried attempt's. */
  lemma TasksAreIsolated(spec: TaskSpec, s: Status, pods: map<string, Pod>, ok: bool, ans: Answers,
                         other: string, retry: nat)
    requires Good(spec, s) && other != spec.name
    requires !NameClash(spec.name, s.retryCount, other, retry) && !NameClash(other, retry, spec.name, s.retryCount)
    ensures var after := Decide(spec, s, pods, ok, ans).pods;
      var name := PodName(other, retry);
      (name in after <==> name in pods) && (name in pods ==> after[name] == pods[name])
  {
    PodNameCollision(spec.name, s.retryCount, other, retry);
    OtherPodsUntouched(spec, s, pods, ok, ans, PodName(other, retry));
  }

  lemma KeysStay(spec: TaskSpec, s: Status, pods: map<string, Pod>, ans: Answers, d: Decision)
    requires TouchesOwnPod(spec, s, pods, ans, d)
    ensures d.pods.Keys <= pods.Keys + {OwnName(spec, s)}
  {
    forall n | n in d.pods.Keys && n != OwnName(spec, s) ensures n in pods.Keys {
      assert n in d.pods - {OwnName(spec, s)};
    }
  }

  // ----- Live pods

  ghost predicate RetriesOnlyGrow(versions: seq<Status>) {
    versions != []
    && forall i :: 0 <= i < |versions| ==> versions[i].retryCount <= versions[|versions| - 1].retryCount
  }

  ghost predicate LiveInv(spec: TaskSpec, w: World) {
    && RetriesOnlyGrow(w.versions)
    && w.pods.Keys <= AttemptNames(spec, Current(w).retryCount)
  }

  lemma {:induction false} AttemptNamesGrow(spec: TaskSpec, retry: nat, more: nat)
    requires retry <= more
    ensures AttemptNames(spec, retry) <= AttemptNames(spec, more)
    ensures PodName(spec.name, retry) in AttemptNames(spec, more)
  {
    if retry < more {
      AttemptNamesGrow(spec, retry, more - 1);
    }
  }

  lemma OnlyFailedRetries(spec: TaskSpec, s: Status, pods: map<string, Pod>, ok: bool, ans: Answers)
    ensures Decide(spec, s, pods, ok, ans).result.RetryAfter? ==> s.phase == Failed && ok
  {
  }

  /** How the stored status moves in one step: not at all, on within the attempt, or to a retry. */
  lemma StatusMoves(spec: TaskSpec, s: Status, t: Status, pods: map<string, Pod>, d: Decision, ok: bool, ans: Answers)
    requires Good(spec, s) && Progresses(spec, s, ok, d) && (d.result.RetryAfter? ==> ok)
    requires TouchesOwnPod(spec, s, pods, ans, d)
    requires t == if ok && d.next.Some? then d.next.value else s
    ensures Good(spec, t) && (t != s ==> t.phase != Unset)
    ensures t.retryCount == s.retryCount + (if d.result.RetryAfter? then 1 else 0)
    ensures !d.result.RetryAfter? && t.phase == Pending ==> s.phase == Pending || s.phase == Unset
  {
  }

  lemma RetriesGrow(versions: seq<Status>, next: Status)
    requires RetriesOnlyGrow(versions) && next.retryCount >= versions[|versions| - 1].retryCount
    ensures RetriesOnlyGrow(versions + [next])
  {
  }

  /** A call reads any snapshot; only a current one can be stored. */
  lemma LiveInvApplied(spec: TaskSpec, w: World, s: Status, d: Decision, ok: bool, ans: Answers)
    requires LiveInv(spec, w) && Good(spec, s) && s.retryCount <= Current(w).retryCount
    requires TouchesOwnPod(spec, s, w.pods, ans, d)
    requires ok ==> s == Current(w) && Progresses(spec, s, ok, d)
    ensures LiveInv(spec, Applied(w, d, ok))
  {
    var current := Current(w).retryCount;
    KeysStay(spec, s, w.pods, ans, d);
    AttemptNamesGrow(spec, s.retryCount, current);
    AttemptNamesGrow(spec, current, current + 1);
    if ok && d.next.Some? {
      StatusMoves(spec, s, d.next.value, w.pods, d, ok, ans);
      RetriesGrow(w.versions, d.next.value);
    } else {
      assert Applied(w, d, ok).versions == w.versions;
    }
  }

  /** The decision of a call on any snapshot of a run, with what is known of it. */
  lemma KnownDecision(spec: TaskSpec, w: World, lag: nat, ok: bool, ans: Answers) returns (d: Decision)
    requires StoredInv(spec, w) && RetriesOnlyGrow(w.versions)
    ensures var s := Snapshot(w, lag);
      && d == Decide(spec, s, w.pods, ok, ans)
      && Good(spec, s) && s.retryCount <= Current(w).retryCount
      && Progresses(spec, s, ok, d) && TouchesOwnPod(spec, s, w.pods, ans, d)
  {
    var s := Snapshot(w, lag);
    d := Decide(spec, s, w.pods, ok, ans);
    DecisionProgresses(spec, s, w.pods, ok, ans);
    DecisionPods(spec, s, w.pods, ok, ans);
  }

  lemma LiveInvStep(spec: TaskSpec, w: World, a: Action)
    requires LiveInv(spec, w) && StoredInv(spec, w)
    ensures LiveInv(spec, Act(spec, w, a))
  {
    hide PodName, StoredInv, Decide, Progresses, TouchesOwnPod;
    if a.Reconcile? {
      var ok := WriteAccepted(a.lag, a.ans);
      var d := KnownDecision(spec, w, a.lag, ok, a.ans);
      LiveInvApplied(spec, w, Snapshot(w, a.lag), d, ok, a.ans);
    }
  }

  lemma {:induction false} LiveInvAlways(spec: TaskSpec, acts: seq<Action>)
    ensures LiveInv(spec, Run(spec, acts))
  {
    if acts != [] {
      LiveInvAlways(spec, acts[..|acts| - 1]);
      StoredInvAlways(spec, acts[..|acts| - 1]);
      LiveInvStep(spec, Run(spec, acts[..|acts| - 1]), acts[|acts| - 1]);
    }
  }

  /** Live pods carry the names of attempts made so far, in every run, stale reads included. */
  lemma {:induction false} LivePodsAreAttempts(spec: TaskSpec, acts: seq<Action>)
    ensures Run(spec, acts).pods.Keys <= AttemptNames(spec, Current(Run(spec, acts)).retryCount)
  {
    LiveInvAlways(spec, acts);
  }

  // ----- When only the current attempt's pod is alive

  predicate OnlyCurrent(spec: TaskSpec, w: World)
    requires w.versions != []
  {
    w.pods.Keys <= {OwnName(spec, Current(w))}
  }

  /** A call that leaves the pod of an earlier attempt: it acts on an earlier attempt's Pending
      snapshot and is served, or it stores a retry although the failed pod could not be deleted. */
  predicate LeavesOldPod(spec: TaskSpec, w: World, a: Action)
    requires w.versions != []
  {
    a.Reconcile? &&
    var read, current := Snapshot(w, a.lag), Current(w);
    || (read.phase == Pending && read.retryCount < current.retryCount && a.ans.agent.Some? && a.ans.createAnswers)
    || (a.lag == 0 && current.phase == Failed && current.retryCount < MaxRetries(spec)
        && OwnName(spec, current) in w.pods && !a.ans.deleteAnswers && a.ans.writeAnswers)
  }

  /** What becomes of the pod of the snapshot's attempt, and when a retry is asked for. */
  predicate OwnPodFacts(spec: TaskSpec, s: Status, pods: map<string, Pod>, ok: bool, ans: Answers, d: Decision) {
    var own := OwnName(spec, s);
    && (own !in pods ==> (own in d.pods <==> s.phase == Pending && ans.agent.Some? && ans.createAnswers))
    && (s.phase == Failed && own in pods ==> (own in d.pods <==> !ans.deleteAnswers))
    && (d.result.RetryAfter? <==> s.phase == Failed && s.retryCount < MaxRetries(spec) && ok)
  }

  lemma OwnPodAfter(spec: TaskSpec, s: Status, pods: map<string, Pod>, ok: bool, ans: Answers)
    requires Good(spec, s)
    ensures OwnPodFacts(spec, s, pods, ok, ans, Decide(spec, s, pods, ok, ans))
  {
    assert s.started ==> s.workerPod == OwnName(spec, s) && |s.workerPod| > 0;
  }

  /** A stale call cannot be stored, so all it may do is to create its own attempt's pod. */
  lemma StaleCallKeepsExactly(spec: TaskSpec, w: World, s: Status, d: Decision, ok: bool, ans: Answers)
    requires w.versions != [] && OnlyCurrent(spec, w) && s.retryCount < Current(w).retryCount && !ok
    requires TouchesOwnPod(spec, s, w.pods, ans, d) && OwnPodFacts(spec, s, w.pods, ok, ans, d)
    ensures OnlyCurrent(spec, Applied(w, d, ok)) <==> !(s.phase == Pending && ans.agent.Some? && ans.createAnswers)
  {
    var own, after := OwnName(spec, s), Applied(w, d, ok);
    if own == OwnName(spec, Current(w)) {
      AttemptsDiffer(spec.name, s.retryCount, Current(w).retryCount);
    }
    KeysStay(spec, s, w.pods, ans, d);
    assert after.versions == w.versions;
    assert own in d.pods <==> own in d.pods.Keys;
  }

  lemma CurrentCallKeepsExactly(spec: TaskSpec, w: World, s: Status, t: Status, d: Decision, ok: bool, ans: Answers)
    requires w.versions != [] && OnlyCurrent(spec, w) && s.retryCount == Current(w).retryCount
    requires TouchesOwnPod(spec, s, w.pods, ans, d) && OwnPodFacts(spec, s, w.pods, ok, ans, d)
    requires t.retryCount == s.retryCount + (if d.result.RetryAfter? then 1 else 0)
    ensures d.pods.Keys <= {OwnName(spec, t)} <==>
            !(ok && s.phase == Failed && s.retryCount < MaxRetries(spec) && OwnName(spec, s) in w.pods && !ans.deleteAnswers)
  {
    var own := OwnName(spec, s);
    KeysStay(spec, s, w.pods, ans, d);
    assert d.pods.Keys <= {own};
    assert own in d.pods <==> own in d.pods.Keys;
    if d.result.RetryAfter? && own == OwnName(spec, t) {
      AttemptsDiffer(spec.name, s.retryCount, t.retryCount);
    }
  }

  lemma AppliedOwnName(spec: TaskSpec, w: World, s: Status, t: Status, d: Decision, ok: bool)
    requires w.versions != [] && s.retryCount == Current(w).retryCount && (ok ==> s == Current(w))
    requires t == if ok && d.next.Some? then d.next.value else s
    ensures OnlyCurrent(spec, Applied(w, d, ok)) <==> d.pods.Keys <= {OwnName(spec, t)}
  {
    assert Current(Applied(w, d, ok)).retryCount == t.retryCount;
  }

  lemma OnlyCurrentCall(spec: TaskSpec, w: World, s: Status, d: Decision, ok: bool, ans: Answers)
    requires w.versions != [] && OnlyCurrent(spec, w) && s.retryCount <= Current(w).retryCount
    requires Good(spec, s) && (ok ==> s == Current(w)) && Progresses(spec, s, ok, d)
    requires TouchesOwnPod(spec, s, w.pods, ans, d) && OwnPodFacts(spec, s, w.pods, ok, ans, d)
    ensures OnlyCurrent(spec, Applied(w, d, ok)) <==>
      && !(s.phase == Pending && s.retryCount < Current(w).retryCount && ans.agent.Some? && ans.createAnswers)
      && !(ok && s.phase == Failed && s.retryCount < MaxRetries(spec) && OwnName(spec, s) in w.pods && !ans.deleteAnswers)
  {
    if s.retryCount < Current(w).retryCount {
      assert !ok;
      StaleCallKeepsExactly(spec, w, s, d, ok, ans);
    } else {
      var t := if ok && d.next.Some? then d.next.value else s;
      StatusMoves(spec, s, t, w.pods, d, ok, ans);
      AppliedOwnName(spec, w, s, t, d, ok);
      CurrentCallKeepsExactly(spec, w, s, t, d, ok, ans);
    }
  }

  lemma OnlyCurrentReconcile(spec: TaskSpec, w: World, lag: nat, ans: Answers)
    requires StoredInv(spec, w) && RetriesOnlyGrow(w.versions) && OnlyCurrent(spec, w)
    ensures OnlyCurrent(spec, Reconciled(spec, w, lag, ans)) <==> !LeavesOldPod(spec, w, Reconcile(lag, ans))
  {
    hide PodName, StoredInv, Decide, Progresses, TouchesOwnPod, OwnPodFacts;
    var ok := WriteAccepted(lag, ans);
    var d := OwnedDecision(spec, w, lag, ok, ans);
    OnlyCurrentCall(spec, w, Snapshot(w, lag), d, ok, ans);
  }

  lemma OwnedDecision(spec: TaskSpec, w: World, lag: nat, ok: bool, ans: Answers) returns (d: Decision)
    requires StoredInv(spec, w) && RetriesOnlyGrow(w.versions)
    ensures var s := Snapshot(w, lag);
      && d == Decide(spec, s, w.pods, ok, ans)
      && Good(spec, s) && s.retryCount <= Current(w).retryCount && Progresses(spec, s, ok, d)
      && TouchesOwnPod(spec, s, w.pods, ans, d) && OwnPodFacts(spec, s, w.pods, ok, ans, d)
  {
    d := KnownDecision(spec, w, lag, ok, ans);
    OwnPodAfter(spec, Snapshot(w, lag), w.pods, ok, ans);
  }

  lemma OnlyCurrentStep(spec: TaskSpec, w: World, a: Action)
    requires StoredInv(spec, w) && LiveInv(spec, w) && OnlyCurrent(spec, w)
    ensures OnlyCurrent(spec, Act(spec, w, a)) <==> !LeavesOldPod(spec, w, a)
  {
    if a.Reconcile? {
      OnlyCurrentReconcile(spec, w, a.lag, a.ans);
    }
  }

  /** At every point of the run, at most the current attempt's pod is alive. */
  predicate AlwaysOnlyCurrent(spec: TaskSpec, acts: seq<Action>) {
    OnlyCurrent(spec, Run(spec, acts)) && (acts != [] ==> AlwaysOnlyCurrent(spec, acts[..|acts| - 1]))
  }

  predicate NeverLeavesOldPod(spec: TaskSpec, acts: seq<Action>) {
    acts != [] ==>
      var before := acts[..|acts| - 1];
      NeverLeavesOldPod(spec, before) && !LeavesOldPod(spec, Run(spec, before), acts[|acts| - 1])
  }

  /** Exactly when only the current attempt's pod is ever alive. */
  lemma {:induction false} OnlyCurrentPodLivesExactly(spec: TaskSpec, acts: seq<Action>)
    ensures AlwaysOnlyCurrent(spec, acts) <==> NeverLeavesOldPod(spec, acts)
  {
    if acts != [] {
      var before := acts[..|acts| - 1];
      OnlyCurrentPodLivesExactly(spec, before);
      if AlwaysOnlyCurrent(spec, before) {
        StoredInvAlways(spec, before);
        LiveInvAlways(spec, before);
        OnlyCurrentStep(spec, Run(spec, before), acts[|acts| - 1]);
      }
    }
  }

  lemma {:induction false} ServedDeletesLeaveNone(spec: TaskSpec, acts: seq<Action>)
    requires FreshReads(acts) && DeletesServed(acts)
    ensures NeverLeavesOldPod(spec, acts)
  {
    if acts != [] {
      var before := acts[..|acts| - 1];
      ServedDeletesLeaveNone(spec, before);
      FreshCallLeavesNone(spec, Run(spec, before), acts[|acts| - 1]);
    }
  }

  lemma FreshCallLeavesNone(spec: TaskSpec, w: World, a: Action)
    requires w.versions != [] && (a.Reconcile? ==> a.lag == 0 && a.ans.deleteAnswers)
    ensures !LeavesOldPod(spec, w, a)
  {
  }

  /** In particular, when deletions are served and reads are fresh. */
  lemma {:induction false} OnlyCurrentPodLives(spec: TaskSpec, acts: seq<Action>)
    requires FreshReads(acts) && DeletesServed(acts)
    ensures OnlyCurrent(spec, Run(spec, acts))
  {
    ServedDeletesLeaveNone(spec, acts);
    OnlyCurrentPodLivesExactly(spec, acts);
  }

  lemma NextNameIsNew(spec: TaskSpec, retry: nat)
    ensures PodName(spec.name, retry + 1) !in AttemptNames(spec, retry)
  {
    AttemptNamesAre(spec, retry, PodName(spec.name, retry + 1));
    if PodName(spec.name, retry + 1) in AttemptNames(spec, retry) {
      var k: nat :| k <= retry && PodName(spec.name, k) == PodName(spec.name, retry + 1);
      AttemptsDiffer(spec.name, k, retry + 1);
    }
  }
}
