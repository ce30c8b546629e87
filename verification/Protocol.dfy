/** The operator and its workers together: polls are answered from the worker's own registry. */
module Protocol {
  import opened Operator
  import opened Lifecycle
  import opened Pods
  import A = Agent
  import W = Worker

  /** The request a worker reads from its pod's payload. */
  function RequestOf(p: Payload): A.Request {
    A.Request(p.taskId, p.branch, p.isRetry, p.prUrl, p.skills)
  }

  /** GitHub reports a PR as merged only after a person has merged it. */
  predicate TruthfulLookup(merged: set<string>, url: string, l: W.PrLookup) {
    l.PullRequest? && l.merged ==> url in merged
  }

  /** The polls of a reconcile call on status `s` are answered by the pod's own worker. */
  ghost predicate HonestAnswers(spec: TaskSpec, s: Status, pods: map<string, Pod>, merged: set<string>, ans: Answers) {
    s.workerPod in pods ==>
      var worker := pods[s.workerPod].worker;
      && (ans.status.Some? ==> spec.name in worker.statuses && ans.status.value == worker.statuses[spec.name])
      && (ans.pr.Some? ==>
            && spec.name in worker.statuses
            && exists l :: TruthfulLookup(merged, worker.statuses[spec.name].prUrl, l)
                           && ans.pr == W.PrStatusAnswer(worker, spec.name, l))
  }

  /** Succeeded and Failed are the last phases of a pod. */
  predicate Ended(pod: Pod) {
    pod.phase == PodSucceeded || pod.phase == PodFailed
  }

  predicate EndedStays(before: Pod, after: Pod) {
    Ended(before) ==> after.phase == before.phase
  }

  /** A pod changes phase until it has ended; until then its worker takes a step of its own, or none. */
  ghost predicate PodEvolves(before: Pod, after: Pod) {
    && after.payload == before.payload
    && EndedStays(before, after)
    && (Ended(before) ==> after.worker == before.worker)
    && (after.worker == before.worker
        || exists e :: W.OperatorDriven(e, RequestOf(before.payload)) && after.worker == W.Step(before.worker, e))
  }

  /** Actions of the composed system: polls are answered by the polled worker itself. */
  ghost predicate Honest(spec: TaskSpec, w: World, a: Action)
    requires w.versions != []
  {
    match a
    case Reconcile(lag, ans) => HonestAnswers(spec, Snapshot(w, lag), w.pods, w.mergedPrs, ans)
    case PodMoves(name, pod) => name in w.pods ==> PodEvolves(w.pods[name], pod)
    case PodLost(_) => true
    case HumanMerges(_) => true
  }

  ghost predicate HonestRun(spec: TaskSpec, acts: seq<Action>) {
    acts != [] ==>
      var n := |acts| - 1;
      HonestRun(spec, acts[..n]) && Honest(spec, Run(spec, acts[..n]), acts[n])
  }

  lemma HonestLast(spec: TaskSpec, acts: seq<Action>, a: Action)
    requires HonestRun(spec, acts + [a])
    ensures HonestRun(spec, acts) && Honest(spec, Run(spec, acts), a)
  {
    assert (acts + [a])[..|acts|] == acts;
  }

  // ----- The composed invariant

  ghost predicate PodOk(spec: TaskSpec, pod: Pod) {
    && pod.payload.taskId == spec.name
    && pod.payload.branch == TargetBranch(spec)
    && W.WorkerInv(pod.worker, RequestOf(pod.payload))
    && W.RecordIsLogged(pod.worker, RequestOf(pod.payload))
  }

  predicate Reports(spec: TaskSpec, worker: W.WorkerState, p: A.TaskPhase, url: string) {
    spec.name in worker.statuses && worker.statuses[spec.name].phase == p && worker.statuses[spec.name].prUrl == url
  }

  /** What the current attempt's pod knows about the stored PR. */
  predicate PodKnowsPr(spec: TaskSpec, s: Status, pod: Pod) {
    match s.phase
    case Unset => pod.payload.prUrl == s.prUrl
    case Pending => pod.payload.prUrl == s.prUrl
    case Running => pod.payload.prUrl == s.prUrl
    case Completed => pod.payload.prUrl == s.prUrl
    case WaitingForPR =>
      (pod.payload.prUrl == s.prUrl && s.prUrl != "") || Reports(spec, pod.worker, A.Succeeded, s.prUrl)
    case _ => true
  }

  ghost predicate PodsOk(spec: TaskSpec, pods: map<string, Pod>) {
    forall n :: n in pods ==> PodOk(spec, pods[n])
  }

  predicate OwnPodKnows(spec: TaskSpec, s: Status, pods: map<string, Pod>) {
    OwnName(spec, s) in pods ==> PodKnowsPr(spec, s, pods[OwnName(spec, s)])
  }

  predicate MergedTruly(s: Status, merged: set<string>) {
    s.phase == Merged ==> s.prUrl != "" && s.prUrl in merged
  }

  ghost predicate ProtocolInv(spec: TaskSpec, w: World) {
    && LiveInv(spec, w)
    && Good(spec, Current(w))
    && PodsOk(spec, w.pods)
    && OwnPodKnows(spec, Current(w), w.pods)
    && MergedTruly(Current(w), w.mergedPrs)
    && Percentages(w.versions)
  }

  predicate Percentages(versions: seq<Status>) {
    forall i :: 0 <= i < |versions| ==> 0 <= versions[i].progress <= 100
  }

  /** A worker never reports another PR than the one its payload came with. */
  lemma PolledUrl(spec: TaskSpec, pod: Pod)
    requires PodOk(spec, pod) && spec.name in pod.worker.statuses
    ensures var r := pod.worker.statuses[spec.name];
      && 0 <= r.progress <= 100
      && (pod.payload.prUrl != "" ==> r.prUrl == "" || r.prUrl == pod.payload.prUrl)
      && (r.phase == A.Succeeded && pod.payload.prUrl != "" ==> r.prUrl == pod.payload.prUrl)
      && r.phase in {A.Running, A.Succeeded, A.Incomplete, A.Failed}
  {
  }

  /** A status that may follow `s`: it keeps a stored PR, and the pod that stays knows about it. */
  predicate Follows(spec: TaskSpec, s: Status, t: Status, pods: map<string, Pod>, merged: set<string>) {
    && (s.prUrl != "" ==> t.prUrl == s.prUrl)
    && 0 <= t.progress <= 100
    && MergedTruly(t, merged)
    && (t.retryCount == s.retryCount ==> OwnPodKnows(spec, t, pods))
  }

  predicate RespectsPr(spec: TaskSpec, s: Status, merged: set<string>, d: Decision) {
    && (d.next.Some? ==> Follows(spec, s, d.next.value, d.pods, merged))
    && OwnPodKnows(spec, s, d.pods)
  }

  /** The facts about the current state that a decision may use. */
  ghost predicate Consistent(spec: TaskSpec, s: Status, pods: map<string, Pod>, merged: set<string>, ans: Answers) {
    && Good(spec, s) && 0 <= s.progress <= 100
    && PodsOk(spec, pods) && OwnPodKnows(spec, s, pods) && MergedTruly(s, merged)
    && HonestAnswers(spec, s, pods, merged, ans)
  }

  lemma PendingRespectsPr(spec: TaskSpec, s: Status, pods: map<string, Pod>, merged: set<string>, ok: bool, ans: Answers)
    requires Good(spec, s) && s.phase == Pending && OwnPodKnows(spec, s, pods)
    ensures RespectsPr(spec, s, merged, DecidePending(spec, s, pods, ok, ans))
  {
  }

  /** What an answered poll stores: the record's PR is the one the pod was given, if it was given one. */
  lemma PollFollows(spec: TaskSpec, s: Status, pods: map<string, Pod>, merged: set<string>)
    requires Good(spec, s) && s.phase == Running && s.workerPod in pods && PodOk(spec, pods[s.workerPod])
    requires OwnPodKnows(spec, s, pods) && spec.name in pods[s.workerPod].worker.statuses
    ensures Follows(spec, s, Polled(s, pods[s.workerPod].worker.statuses[spec.name]), pods, merged)
  {
    PolledUrl(spec, pods[s.workerPod]);
  }

  /** Decisions that leave the PR and the pods alone respect the PR. */
  lemma NeutralRespectsPr(spec: TaskSpec, s: Status, pods: map<string, Pod>, merged: set<string>, d: Decision)
    requires Good(spec, s) && 0 <= s.progress <= 100 && OwnPodKnows(spec, s, pods)
    requires d.pods == pods || d.pods == pods - {OwnName(spec, s)}
    requires d.next.Some? ==>
      && d.next.value.prUrl == s.prUrl && 0 <= d.next.value.progress <= 100
      && (d.next.value.phase == Failed || d.next.value.phase == Closed
          || (d.next.value.phase == Completed && s.phase == Running)
          || (d.next.value.phase == WaitingForPR && s.phase == Completed && s.prUrl != "")
          || (d.next.value.phase == WaitingForPR && s.phase == WaitingForPR)
          || (d.next.value.phase == Merged && s.prUrl != "" && s.prUrl in merged))
    ensures RespectsPr(spec, s, merged, d)
  {
  }

  lemma RunningRespectsPr(spec: TaskSpec, s: Status, pods: map<string, Pod>, merged: set<string>, ok: bool, ans: Answers)
    requires Good(spec, s) && s.phase == Running && 0 <= s.progress <= 100 && OwnPodKnows(spec, s, pods)
    requires s.workerPod in pods && ans.status.Some? ==> Follows(spec, s, Polled(s, ans.status.value), pods, merged)
    ensures RespectsPr(spec, s, merged, DecideRunning(s, pods, ok, ans))
  {
    if !(ans.podGetAnswers && Ready(s.workerPod, pods) && ans.status.Some?) {
      NeutralRespectsPr(spec, s, pods, merged, DecideRunning(s, pods, ok, ans));
    }
  }

  /** A merged answer is about the stored PR, which has then been merged. */
  lemma VerdictIsTrue(spec: TaskSpec, s: Status, pods: map<string, Pod>, merged: set<string>, ans: Answers)
    requires Good(spec, s) && (s.phase == Completed || s.phase == WaitingForPR) && s.prUrl != ""
    requires s.workerPod in pods && PodOk(spec, pods[s.workerPod]) && OwnPodKnows(spec, s, pods)
    requires HonestAnswers(spec, s, pods, merged, ans) && ans.pr.Some? && ans.pr.value.merged
    ensures s.prUrl in merged
  {
    PolledUrl(spec, pods[s.workerPod]);
  }

  lemma WaitingRespectsPr(spec: TaskSpec, s: Status, pods: map<string, Pod>, merged: set<string>, ok: bool, ans: Answers)
    requires Good(spec, s) && (s.phase == Completed || s.phase == WaitingForPR) && OwnPodKnows(spec, s, pods)
    requires s.workerPod in pods && s.prUrl != "" && ans.pr.Some? && ans.pr.value.merged ==> s.prUrl in merged
    ensures RespectsPr(spec, s, merged, DecideWaiting(s, pods, ok, ans))
  {
    NeutralRespectsPr(spec, s, pods, merged, DecideWaiting(s, pods, ok, ans));
  }

  lemma FailedRespectsPr(spec: TaskSpec, s: Status, pods: map<string, Pod>, merged: set<string>, ok: bool, ans: Answers)
    requires Good(spec, s) && s.phase == Failed && 0 <= s.progress <= 100
    ensures RespectsPr(spec, s, merged, DecideFailed(spec, s, pods, ok, ans))
  {
  }

  lemma DecisionRespectsPr(spec: TaskSpec, s: Status, pods: map<string, Pod>, merged: set<string>, ok: bool, ans: Answers)
    requires Consistent(spec, s, pods, merged, ans)
    ensures RespectsPr(spec, s, merged, Decide(spec, s, pods, ok, ans))
  {
    if s.workerPod in pods {
      assert PodOk(spec, pods[s.workerPod]);
    }
    if s.phase == Pending {
      PendingRespectsPr(spec, s, pods, merged, ok, ans);
    } else if s.phase == Running {
      if s.workerPod in pods && ans.status.Some? {
        PollFollows(spec, s, pods, merged);
      }
      RunningRespectsPr(spec, s, pods, merged, ok, ans);
    } else if s.phase == Failed {
      FailedRespectsPr(spec, s, pods, merged, ok, ans);
    } else if s.phase == Completed || s.phase == WaitingForPR {
      if s.workerPod in pods && s.prUrl != "" && ans.pr.Some? && ans.pr.value.merged {
        VerdictIsTrue(spec, s, pods, merged, ans);
      }
      WaitingRespectsPr(spec, s, pods, merged, ok, ans);
    }
  }

  lemma WaitingPodsComeFrom(s: Status, pods: map<string, Pod>, ok: bool, ans: Answers)
    ensures var after := DecideWaiting(s, pods, ok, ans).pods; after == pods || after == pods - {s.workerPod}
  {
  }

  lemma PodsComeFrom(spec: TaskSpec, s: Status, pods: map<string, Pod>, ok: bool, ans: Answers)
    ensures var after := Decide(spec, s, pods, ok, ans).pods;
      || after == pods || after == pods - {s.workerPod}
      || (ans.agent.Some? && after == pods[OwnName(spec, s) := NewPod(PayloadFor(spec, s, ans.agent.value))])
  {
    if s.phase == Completed || s.phase == WaitingForPR {
      WaitingPodsComeFrom(s, pods, ok, ans);
    }
  }

  /** A decision leaves old pods as they are and may add a sound one. */
  lemma PodsStayOk(spec: TaskSpec, s: Status, pods: map<string, Pod>, ok: bool, ans: Answers, after: map<string, Pod>)
    requires Good(spec, s) && PodsOk(spec, pods)
    requires after == Decide(spec, s, pods, ok, ans).pods
    ensures PodsOk(spec, after)
  {
    PodsComeFrom(spec, s, pods, ok, ans);
    if ans.agent.Some? {
      PodsOkUpdate(spec, pods, OwnName(spec, s), NewPod(PayloadFor(spec, s, ans.agent.value)));
    }
  }

  lemma RetriedNameUnused(spec: TaskSpec, s: Status, t: Status, before: map<string, Pod>, pods: map<string, Pod>)
    requires before.Keys <= AttemptNames(spec, s.retryCount) && pods.Keys <= before.Keys + {OwnName(spec, s)}
    requires t.retryCount == s.retryCount + 1
    ensures OwnName(spec, t) !in pods
  {
    NextNameIsNew(spec, s.retryCount);
    assert OwnName(spec, s) in AttemptNames(spec, s.retryCount);
  }

  /** The pods that a decision leaves know the PR of the status stored then. */
  lemma StoredKnows(spec: TaskSpec, w: World, s: Status, t: Status, d: Decision, ok: bool)
    requires LiveInv(spec, w) && s == Current(w) && RespectsPr(spec, s, w.mergedPrs, d) && Progresses(spec, s, ok, d)
    requires d.pods.Keys <= w.pods.Keys + {OwnName(spec, s)} && (!ok ==> !d.result.RetryAfter?)
    requires t == if ok && d.next.Some? then d.next.value else s
    ensures OwnPodKnows(spec, t, d.pods)
  {
    if d.result.RetryAfter? {
      RetriedNameUnused(spec, s, t, w.pods, d.pods);
    }
  }

  lemma PercentagesApplied(w: World, d: Decision, ok: bool)
    requires Percentages(w.versions) && (d.next.Some? ==> 0 <= d.next.value.progress <= 100)
    ensures Percentages(Applied(w, d, ok).versions)
  {
  }

  lemma ProtocolInvApplied(spec: TaskSpec, w: World, d: Decision, ok: bool)
    requires ProtocolInv(spec, w) && RespectsPr(spec, Current(w), w.mergedPrs, d) && PodsOk(spec, d.pods)
    requires LiveInv(spec, Applied(w, d, ok))
    requires d.pods.Keys <= w.pods.Keys + {OwnName(spec, Current(w))}
    requires Progresses(spec, Current(w), ok, d) && (!ok ==> !d.result.RetryAfter?)
    ensures ProtocolInv(spec, Applied(w, d, ok))
  {
    var s, t := Current(w), if ok && d.next.Some? then d.next.value else Current(w);
    assert Current(Applied(w, d, ok)) == t;
    StoredKnows(spec, w, s, t, d, ok);
    PercentagesApplied(w, d, ok);
  }

  /** A decision with all its properties, whatever it is, keeps the invariant. */
  lemma ProtocolInvCall(spec: TaskSpec, w: World, d: Decision, ok: bool, ans: Answers)
    requires ProtocolInv(spec, w) && RespectsPr(spec, Current(w), w.mergedPrs, d) && PodsOk(spec, d.pods)
    requires Progresses(spec, Current(w), ok, d) && TouchesOwnPod(spec, Current(w), w.pods, ans, d)
    requires !ok ==> !d.result.RetryAfter?
    ensures ProtocolInv(spec, Applied(w, d, ok))
  {
    KeysStay(spec, Current(w), w.pods, ans, d);
    LiveInvApplied(spec, w, Current(w), d, ok, ans);
    ProtocolInvApplied(spec, w, d, ok);
  }

  lemma ProtocolInvReconcile(spec: TaskSpec, w: World, ans: Answers)
    requires ProtocolInv(spec, w) && HonestAnswers(spec, Current(w), w.pods, w.mergedPrs, ans)
    ensures ProtocolInv(spec, Reconciled(spec, w, 0, ans))
  {
    var s, ok := Current(w), WriteAccepted(0, ans);
    var d := Decide(spec, s, w.pods, ok, ans);
    assert Snapshot(w, 0) == s;
    assert Consistent(spec, s, w.pods, w.mergedPrs, ans);
    DecisionProgresses(spec, s, w.pods, ok, ans);
    DecisionPods(spec, s, w.pods, ok, ans);
    DecisionRespectsPr(spec, s, w.pods, w.mergedPrs, ok, ans);
    PodsStayOk(spec, s, w.pods, ok, ans, d.pods);
    OnlyFailedRetries(spec, s, w.pods, ok, ans);
    ProtocolInvCall(spec, w, d, ok, ans);
  }

  lemma PodsOkUpdate(spec: TaskSpec, pods: map<string, Pod>, name: string, pod: Pod)
    requires PodsOk(spec, pods) && PodOk(spec, pod)
    ensures PodsOk(spec, pods[name := pod])
  {
  }

  lemma OwnPodReplaced(spec: TaskSpec, s: Status, pods: map<string, Pod>, name: string, pod: Pod)
    requires OwnPodKnows(spec, s, pods) && name in pods && pod.payload.prUrl == pods[name].payload.prUrl
    requires Reports(spec, pods[name].worker, A.Succeeded, s.prUrl) ==> Reports(spec, pod.worker, A.Succeeded, s.prUrl)
    ensures OwnPodKnows(spec, s, pods[name := pod])
  {
  }

  lemma ProtocolInvPodReplaced(spec: TaskSpec, w: World, name: string, pod: Pod)
    requires ProtocolInv(spec, w) && name in w.pods && PodOk(spec, pod)
    requires pod.payload.prUrl == w.pods[name].payload.prUrl
    requires Reports(spec, w.pods[name].worker, A.Succeeded, Current(w).prUrl) ==>
             Reports(spec, pod.worker, A.Succeeded, Current(w).prUrl)
    ensures ProtocolInv(spec, w.(pods := w.pods[name := pod]))
  {
    PodsOkUpdate(spec, w.pods, name, pod);
    OwnPodReplaced(spec, Current(w), w.pods, name, pod);
    assert w.pods[name := pod].Keys == w.pods.Keys;
  }

  lemma ProtocolInvPodMoves(spec: TaskSpec, w: World, name: string, pod: Pod)
    requires ProtocolInv(spec, w) && name in w.pods && PodEvolves(w.pods[name], pod)
    ensures ProtocolInv(spec, w.(pods := w.pods[name := pod]))
  {
    assert PodOk(spec, w.pods[name]);
    PodEvolutionOk(spec, w.pods[name], pod, Current(w).prUrl);
    ProtocolInvPodReplaced(spec, w, name, pod);
  }

  lemma ProtocolInvPodLost(spec: TaskSpec, w: World, name: string)
    requires ProtocolInv(spec, w)
    ensures ProtocolInv(spec, w.(pods := w.pods - {name}))
  {
  }

  lemma ProtocolInvStep(spec: TaskSpec, w: World, a: Action)
    requires ProtocolInv(spec, w) && Honest(spec, w, a) && (a.Reconcile? ==> a.lag == 0)
    ensures ProtocolInv(spec, Act(spec, w, a))
  {
    match a
    case Reconcile(_, ans) => ProtocolInvReconcile(spec, w, ans);
    case PodMoves(name, pod) =>
      if name in w.pods {
        ProtocolInvPodMoves(spec, w, name, pod);
      }
    case PodLost(name) => ProtocolInvPodLost(spec, w, name);
    case HumanMerges(url) =>
  }

  /** A pod's own steps keep it sound and keep what a finished worker reports. */
  lemma {:induction false} PodEvolutionOk(spec: TaskSpec, before: Pod, after: Pod, url: string)
    requires PodOk(spec, before) && PodEvolves(before, after)
    ensures PodOk(spec, after)
    ensures Reports(spec, before.worker, A.Succeeded, url) ==> Reports(spec, after.worker, A.Succeeded, url)
  {
    if after.worker != before.worker {
      var req := RequestOf(before.payload);
      var e :| W.OperatorDriven(e, req) && after.worker == W.Step(before.worker, e);
      W.WorkerInvStep(before.worker, e, req);
      W.RecordIsLoggedStep(before.worker, e, req);
      if before.worker.booted && before.worker.statuses[spec.name].phase != A.Running {
        W.SettledWorkerIsFrozen(before.worker, e, req);
      }
    }
  }
}
