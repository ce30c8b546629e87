/** How often a task, over all its attempts, asks GitHub for a draft PR. */
module Drafts {
  import opened Options
  import opened Operator
  import opened Lifecycle
  import opened Pods
  import opened Protocol
  import opened Polls
  import W = Worker

  /** The draft PRs that one action asks for. */
  function Asks(w: World, a: Action): int {
    if a.PodMoves? && a.name in w.pods then a.pod.worker.drafts - w.pods[a.name].worker.drafts else 0
  }

  function TaskDrafts(spec: TaskSpec, acts: seq<Action>): int {
    if acts == [] then 0
    else
      var before := acts[..|acts| - 1];
      TaskDrafts(spec, before) + Asks(Run(spec, before), acts[|acts| - 1])
  }

  predicate Asked(pod: Pod) {
    pod.worker.drafts > 0
  }

  /** A pod whose worker will not ask any more: it was given a PR, its task has ended, or the pod has. */
  predicate Quiet(pod: Pod) {
    pod.payload.prUrl != "" || (pod.worker.booted && pod.worker.running == []) || Ended(pod)
  }

  lemma AskedOnce(spec: TaskSpec, before: Pod, after: Pod)
    requires PodOk(spec, before) && PodOk(spec, after) && PodEvolves(before, after)
    ensures 0 <= after.worker.drafts - before.worker.drafts <= 1
    ensures after.worker.drafts > before.worker.drafts ==> !Quiet(before)
    ensures Quiet(before) ==> Quiet(after)
    ensures Asked(after) ==> Quiet(after)
  {
    if after.worker != before.worker {
      var e :| W.OperatorDriven(e, RequestOf(before.payload)) && after.worker == W.Step(before.worker, e);
    }
  }

  // ----- Once a PR is stored

  /** Later pods are given the stored PR; so what was not given one was there before. */
  predicate OldOrGiven(before: map<string, Pod>, after: map<string, Pod>, url: string) {
    forall n :: n in after && after[n].payload.prUrl != url ==> n in before && after[n].payload == before[n].payload
  }

  lemma CallGives(spec: TaskSpec, s: Status, pods: map<string, Pod>, ok: bool, ans: Answers, n: string)
    requires n in Decide(spec, s, pods, ok, ans).pods
    ensures var after := Decide(spec, s, pods, ok, ans).pods;
      (n in pods && after[n] == pods[n]) || (after[n].payload.prUrl == s.prUrl && s.phase == Pending && ans.agent.Some?)
  {
  }

  lemma OldOrGivenStep(spec: TaskSpec, w: World, a: Action, first: map<string, Pod>)
    requires w.versions != [] && Honest(spec, w, a) && OnePr(w.versions) && !RequestsWithoutPr(w, a)
    requires OldOrGiven(first, w.pods, Current(w).prUrl)
    ensures OldOrGiven(first, Act(spec, w, a).pods, Current(w).prUrl)
  {
    var after := Act(spec, w, a).pods;
    forall n | n in after && after[n].payload.prUrl != Current(w).prUrl
      ensures n in first && after[n].payload == first[n].payload
    {
      if a.Reconcile? {
        var j := if a.lag < |w.versions| then |w.versions| - 1 - a.lag else 0;
        assert SamePr(w.versions[j], w.versions[|w.versions| - 1]);
        CallGives(spec, Snapshot(w, a.lag), w.pods, WriteAccepted(a.lag, a.ans), a.ans, n);
      }
    }
  }

  /** Once a PR is stored, and unless a call acts on a Pending snapshot from before: every pod that is
      created later is given it, and asks for no draft. */
  lemma {:induction false} LaterAttemptsAskNothing(spec: TaskSpec, acts: seq<Action>, more: seq<Action>)
    requires HonestRun(spec, acts + more) && Current(Run(spec, acts)).prUrl != "" && NeverWithoutPr(spec, acts, more)
    ensures var before, after := Run(spec, acts), Run(spec, acts + more);
      && Current(after).prUrl == Current(before).prUrl
      && OldOrGiven(before.pods, after.pods, Current(before).prUrl)
      && forall n :: n in after.pods && (n in before.pods ==> after.pods[n].payload != before.pods[n].payload) ==>
           after.pods[n].worker.drafts == 0
    decreases more
  {
    hide Decide;
    var before, after := Run(spec, acts), Run(spec, acts + more);
    if more == [] {
      assert acts + more == acts;
    } else {
      var rest, last := more[..|more| - 1], more[|more| - 1];
      assert acts + more == (acts + rest) + [last];
      HonestLast(spec, acts + rest, last);
      LaterAttemptsAskNothing(spec, acts, rest);
      OnePrAlways(spec, acts + rest);
      RunExtended(spec, acts + rest, last);
      OldOrGivenStep(spec, Run(spec, acts + rest), last, before.pods);
    }
    StoredPrStable(spec, acts, more);
    GivenAskNothing(spec, acts + more, before.pods, Current(before).prUrl);
  }

  lemma GivenAskNothing(spec: TaskSpec, acts: seq<Action>, before: map<string, Pod>, url: string)
    requires HonestRun(spec, acts) && url != "" && OldOrGiven(before, Run(spec, acts).pods, url)
    ensures var after := Run(spec, acts).pods;
      forall n :: n in after && (n in before ==> after[n].payload != before[n].payload) ==> after[n].worker.drafts == 0
  {
    var after := Run(spec, acts).pods;
    forall n | n in after && (n in before ==> after[n].payload != before[n].payload) ensures after[n].worker.drafts == 0 {
      NoSecondDraft(spec, acts, n);
    }
  }

  // ----- Pods that are left behind

  /** Pods of earlier attempts are quiet, and so is the pod of an attempt that has failed. */
  predicate LeftBehindQuiet(spec: TaskSpec, s: Status, pods: map<string, Pod>) {
    && (forall n :: n in pods && n != OwnName(spec, s) ==> Quiet(pods[n]))
    && (s.phase == Failed && OwnName(spec, s) in pods ==> Quiet(pods[OwnName(spec, s)]))
  }

  /** A poll that ends an attempt, or brings its first PR, has found a worker whose task has ended. */
  predicate PollEndsWorker(s: Status, pods: map<string, Pod>, ans: Answers) {
    s.workerPod in pods && ans.status.Some? ==>
      (Polled(s, ans.status.value).phase != Running || ans.status.value.prUrl != "" ==> Quiet(pods[s.workerPod]))
  }

  lemma HonestPollEnds(spec: TaskSpec, s: Status, pods: map<string, Pod>, merged: set<string>, ans: Answers)
    requires s.phase == Running && PodsOk(spec, pods) && HonestAnswers(spec, s, pods, merged, ans)
    ensures PollEndsWorker(s, pods, ans)
  {
    if s.workerPod in pods && ans.status.Some? {
      assert PodOk(spec, pods[s.workerPod]);
      PolledUrl(spec, pods[s.workerPod]);
    }
  }

  /** What a decision does, as far as quiet pods and the first PR are concerned. */
  predicate QuietDecision(spec: TaskSpec, s: Status, pods: map<string, Pod>, d: Decision) {
    var own := OwnName(spec, s);
    && (own in d.pods && own in pods ==> d.pods[own] == pods[own])
    && (own in d.pods && own !in pods ==> s.phase == Pending && d.pods[own].payload.prUrl == s.prUrl
                                          && d.pods[own].worker == W.FRESH_WORKER && d.pods[own].phase == PodPending)
    && (d.next.Some? && d.next.value.phase == Failed && s.phase != Failed ==>
          s.phase == Running && d.pods == pods && (own in pods ==> Quiet(pods[own])))
    && (d.next.Some? && s.prUrl == "" && d.next.value.prUrl != "" ==>
          d.pods == pods && own in pods && Quiet(pods[own]) && d.next.value.retryCount == s.retryCount)
  }

  lemma RunningQuiet(spec: TaskSpec, s: Status, pods: map<string, Pod>, ok: bool, ans: Answers)
    requires s.phase == Running && s.workerPod == OwnName(spec, s) && PollEndsWorker(s, pods, ans)
    ensures QuietDecision(spec, s, pods, DecideRunning(s, pods, ok, ans))
  {
  }

  lemma PendingQuiet(spec: TaskSpec, s: Status, pods: map<string, Pod>, ok: bool, ans: Answers)
    requires s.phase == Pending
    ensures QuietDecision(spec, s, pods, DecidePending(spec, s, pods, ok, ans))
  {
  }

  lemma OtherQuiet(spec: TaskSpec, s: Status, pods: map<string, Pod>, ok: bool, ans: Answers)
    requires s.phase != Running && s.phase != Pending && !s.phase.Unknown?
    ensures QuietDecision(spec, s, pods, Decide(spec, s, pods, ok, ans))
  {
    OthersAddNone(spec, s, pods, ok, ans);
    OtherStatus(spec, s, pods, ok, ans);
  }

  lemma OtherStatus(spec: TaskSpec, s: Status, pods: map<string, Pod>, ok: bool, ans: Answers)
    requires s.phase != Running && s.phase != Pending && !s.phase.Unknown?
    ensures var d := Decide(spec, s, pods, ok, ans);
      d.next.Some? ==> d.next.value.prUrl == s.prUrl && (d.next.value.phase == Failed ==> s.phase == Failed)
  {
  }

  lemma DecisionQuiet(spec: TaskSpec, s: Status, pods: map<string, Pod>, merged: set<string>, ok: bool, ans: Answers)
    requires Good(spec, s) && PodsOk(spec, pods) && HonestAnswers(spec, s, pods, merged, ans)
    ensures QuietDecision(spec, s, pods, Decide(spec, s, pods, ok, ans))
  {
    if s.phase == Running {
      HonestPollEnds(spec, s, pods, merged, ans);
      RunningQuiet(spec, s, pods, ok, ans);
    } else if s.phase == Pending {
      PendingQuiet(spec, s, pods, ok, ans);
    } else {
      OtherQuiet(spec, s, pods, ok, ans);
    }
  }

  /** Pods other than the current attempt's are the same before and after. */
  lemma OthersSame(spec: TaskSpec, s: Status, pods: map<string, Pod>, d: Decision, ans: Answers, n: string)
    requires TouchesOwnPod(spec, s, pods, ans, d) && n != OwnName(spec, s)
    ensures n in d.pods <==> n in pods
    ensures n in pods ==> d.pods[n] == pods[n]
  {
    var own := OwnName(spec, s);
    assert n in d.pods <==> n in d.pods - {own};
    assert n in pods <==> n in pods - {own};
    assert n in pods ==> (d.pods - {own})[n] == (pods - {own})[n];
  }

  lemma LeftBehindCall(spec: TaskSpec, s: Status, t: Status, pods: map<string, Pod>, d: Decision, ok: bool, ans: Answers)
    requires Good(spec, s) && LeftBehindQuiet(spec, s, pods) && Progresses(spec, s, ok, d)
    requires TouchesOwnPod(spec, s, pods, ans, d) && QuietDecision(spec, s, pods, d)
    requires t == if ok && d.next.Some? then d.next.value else s
    requires d.result.RetryAfter? ==> s.phase == Failed && ok
    requires d.result.RetryAfter? ==> OwnName(spec, t) !in d.pods
    ensures LeftBehindQuiet(spec, t, d.pods)
  {
    StatusMoves(spec, s, t, pods, d, ok, ans);
    forall n | n in d.pods && n != OwnName(spec, s) ensures n in pods && d.pods[n] == pods[n] {
      OthersSame(spec, s, pods, d, ans, n);
    }
  }

  lemma RetriedPodIsNew(spec: TaskSpec, w: World, s: Status, t: Status, d: Decision, ok: bool, ans: Answers)
    requires LiveInv(spec, w) && s == Current(w) && Good(spec, s) && Progresses(spec, s, ok, d)
    requires TouchesOwnPod(spec, s, w.pods, ans, d) && t == if ok && d.next.Some? then d.next.value else s
    requires d.result.RetryAfter?
    ensures OwnName(spec, t) !in d.pods
  {
    KeysStay(spec, s, w.pods, ans, d);
    RetriedNameUnused(spec, s, t, w.pods, d.pods);
  }

  // ----- Exactly when a task asks twice

  /** The current attempt's pod is there and has asked. */
  predicate OwnAsked(spec: TaskSpec, s: Status, pods: map<string, Pod>) {
    OwnName(spec, s) in pods && Asked(pods[OwnName(spec, s)])
  }

  /** The pod that asked has gone, or a later attempt has become the current one. */
  predicate LosesTrack(spec: TaskSpec, s: Status, t: Status, after: map<string, Pod>) {
    OwnName(spec, s) !in after || OwnName(spec, t) != OwnName(spec, s)
  }

  /** A step that forgets a draft: the current attempt's pod had asked for it, track of that pod is
      lost, and no PR is stored. */
  predicate ForgetsDraft(spec: TaskSpec, w: World, a: Action)
    requires w.versions != []
  {
    var after := Act(spec, w, a);
    && OwnAsked(spec, Current(w), w.pods) && Current(after).prUrl == ""
    && LosesTrack(spec, Current(w), Current(after), after.pods)
  }

  predicate Forgotten(spec: TaskSpec, acts: seq<Action>) {
    acts != [] &&
    var before := acts[..|acts| - 1];
    Forgotten(spec, before) || ForgetsDraft(spec, Run(spec, before), acts[|acts| - 1])
  }

  /** A draft is asked for after one was forgotten. */
  predicate AsksAfterForgotten(spec: TaskSpec, acts: seq<Action>) {
    acts != [] &&
    var before := acts[..|acts| - 1];
    AsksAfterForgotten(spec, before) || (Forgotten(spec, before) && Asks(Run(spec, before), acts[|acts| - 1]) > 0)
  }

  predicate AllQuiet(pods: map<string, Pod>) {
    forall n :: n in pods ==> Quiet(pods[n])
  }

  /** What is known of a task that has asked for `n` drafts and forgotten none. */
  predicate Remembered(spec: TaskSpec, s: Status, pods: map<string, Pod>, n: int) {
    && n <= 1
    && (n == 1 || s.prUrl != "" ==> AllQuiet(pods))
    && (n == 1 && s.prUrl == "" ==> OwnAsked(spec, s, pods))
  }

  predicate Counted(spec: TaskSpec, s: Status, pods: map<string, Pod>, n: int) {
    n >= 0 && (OwnAsked(spec, s, pods) ==> n >= 1)
  }

  lemma QuietCall(spec: TaskSpec, s: Status, t: Status, pods: map<string, Pod>, d: Decision, ans: Answers, n: int)
    requires Remembered(spec, s, pods, n) && LeftBehindQuiet(spec, s, pods) && SamePr(s, t)
    requires TouchesOwnPod(spec, s, pods, ans, d) && QuietDecision(spec, s, pods, d)
    requires t == s || d.next == Some(t)
    ensures n == 1 || t.prUrl != "" ==> AllQuiet(d.pods)
  {
    if n == 1 || t.prUrl != "" {
      forall k | k in d.pods ensures Quiet(d.pods[k]) {
        if k != OwnName(spec, s) {
          OthersSame(spec, s, pods, d, ans, k);
        }
      }
    }
  }

  /** A call, in terms of the status `s` that it reads and the status `t` that is stored then. */
  lemma RememberedCall(spec: TaskSpec, s: Status, t: Status, pods: map<string, Pod>, d: Decision, ans: Answers, n: int)
    requires LeftBehindQuiet(spec, s, pods) && SamePr(s, t) && Counted(spec, s, pods, n)
    requires TouchesOwnPod(spec, s, pods, ans, d) && QuietDecision(spec, s, pods, d)
    requires t == s || d.next == Some(t)
    requires OwnName(spec, t) != OwnName(spec, s) ==> OwnName(spec, t) !in d.pods
    ensures Counted(spec, t, d.pods, n)
    ensures Remembered(spec, s, pods, n)
            && !(OwnAsked(spec, s, pods) && t.prUrl == "" && LosesTrack(spec, s, t, d.pods)) ==>
              Remembered(spec, t, d.pods, n)
  {
    if Remembered(spec, s, pods, n) {
      QuietCall(spec, s, t, pods, d, ans, n);
    }
  }

  /** The state in which one step is looked at. */
  ghost predicate Before(spec: TaskSpec, w: World, a: Action) {
    && StoredInv(spec, w) && PodsOk(spec, w.pods) && CarryInv(spec, w) && LiveInv(spec, w)
    && LeftBehindQuiet(spec, Current(w), w.pods) && Honest(spec, w, a) && (a.Reconcile? ==> a.lag == 0)
  }

  /** The decision of a current call, with what is known of it. */
  lemma CallDecision(spec: TaskSpec, w: World, ans: Answers) returns (d: Decision)
    requires Before(spec, w, Reconcile(0, ans))
    ensures var s, ok := Current(w), WriteAccepted(0, ans);
      && d == Decide(spec, s, w.pods, ok, ans) && Reconciled(spec, w, 0, ans) == Applied(w, d, ok)
      && Progresses(spec, s, ok, d) && TouchesOwnPod(spec, s, w.pods, ans, d) && QuietDecision(spec, s, w.pods, d)
      && (d.result.RetryAfter? ==> s.phase == Failed && ok)
  {
    assert Snapshot(w, 0) == Current(w);
    d := KnownDecision(spec, w, 0, WriteAccepted(0, ans), ans);
    DecisionQuiet(spec, Current(w), w.pods, w.mergedPrs, WriteAccepted(0, ans), ans);
    OnlyFailedRetries(spec, Current(w), w.pods, WriteAccepted(0, ans), ans);
  }

  /** What such a decision leaves, whatever it is. */
  lemma DecisionLeaves(spec: TaskSpec, w: World, d: Decision, ok: bool, ans: Answers) returns (t: Status)
    requires LiveInv(spec, w) && Good(spec, Current(w)) && LeftBehindQuiet(spec, Current(w), w.pods)
    requires Progresses(spec, Current(w), ok, d) && TouchesOwnPod(spec, Current(w), w.pods, ans, d)
    requires QuietDecision(spec, Current(w), w.pods, d) && (d.result.RetryAfter? ==> Current(w).phase == Failed && ok)
    ensures t == Current(Applied(w, d, ok)) && (t == Current(w) || d.next == Some(t))
    ensures OwnName(spec, t) != OwnName(spec, Current(w)) ==> OwnName(spec, t) !in d.pods
    ensures LeftBehindQuiet(spec, t, d.pods)
  {
    var s := Current(w);
    t := if ok && d.next.Some? then d.next.value else s;
    if d.result.RetryAfter? {
      RetriedPodIsNew(spec, w, s, t, d, ok, ans);
    }
    StatusMoves(spec, s, t, w.pods, d, ok, ans);
    LeftBehindCall(spec, s, t, w.pods, d, ok, ans);
  }

  ghost predicate StepKeeps(spec: TaskSpec, w: World, a: Action, n: int)
    requires w.versions != []
  {
    var after := Act(spec, w, a);
    && 0 <= Asks(w, a) <= 1 && (Asks(w, a) > 0 ==> !ForgetsDraft(spec, w, a))
    && LeftBehindQuiet(spec, Current(after), after.pods)
    && (Counted(spec, Current(w), w.pods, n) ==> Counted(spec, Current(after), after.pods, n + Asks(w, a)))
    && (Remembered(spec, Current(w), w.pods, n) && !ForgetsDraft(spec, w, a) ==>
          Remembered(spec, Current(after), after.pods, n + Asks(w, a)))
  }

  lemma ReconcileKeeps(spec: TaskSpec, w: World, ans: Answers, n: int)
    requires Before(spec, w, Reconcile(0, ans)) && Counted(spec, Current(w), w.pods, n)
    ensures StepKeeps(spec, w, Reconcile(0, ans), n)
  {
    var d := CallDecision(spec, w, ans);
    var t := DecisionLeaves(spec, w, d, WriteAccepted(0, ans), ans);
    CarryInvReconcile(spec, w, 0, ans);
    RememberedCall(spec, Current(w), t, w.pods, d, ans, n);
  }

  lemma PodChangeKeeps(spec: TaskSpec, s: Status, pods: map<string, Pod>, name: string, pod: Pod, n: int)
    requires name in pods && PodOk(spec, pods[name]) && PodOk(spec, pod) && PodEvolves(pods[name], pod)
    requires LeftBehindQuiet(spec, s, pods) && Counted(spec, s, pods, n)
    ensures var after, more := pods[name := pod], pod.worker.drafts - pods[name].worker.drafts;
      && 0 <= more <= 1 && LeftBehindQuiet(spec, s, after) && Counted(spec, s, after, n + more)
      && (Remembered(spec, s, pods, n) ==> Remembered(spec, s, after, n + more))
  {
    AskedOnce(spec, pods[name], pod);
  }

  lemma MoveKeeps(spec: TaskSpec, w: World, name: string, pod: Pod, n: int)
    requires w.versions != [] && name in w.pods && PodOk(spec, w.pods[name]) && PodEvolves(w.pods[name], pod)
    requires LeftBehindQuiet(spec, Current(w), w.pods) && Counted(spec, Current(w), w.pods, n)
    ensures StepKeeps(spec, w, PodMoves(name, pod), n)
  {
    hide PodOk, PodEvolves;
    PodEvolutionOk(spec, w.pods[name], pod, "");
    PodChangeKeeps(spec, Current(w), w.pods, name, pod, n);
    assert Act(spec, w, PodMoves(name, pod)) == w.(pods := w.pods[name := pod]);
  }

  lemma QuietEventKeeps(spec: TaskSpec, w: World, a: Action, n: int)
    requires w.versions != [] && (a.PodLost? || a.HumanMerges? || (a.PodMoves? && a.name !in w.pods))
    requires LeftBehindQuiet(spec, Current(w), w.pods) && Counted(spec, Current(w), w.pods, n)
    ensures StepKeeps(spec, w, a, n)
  {
  }

  lemma DraftStep(spec: TaskSpec, w: World, a: Action, n: int)
    requires Before(spec, w, a) && Counted(spec, Current(w), w.pods, n)
    ensures StepKeeps(spec, w, a, n)
  {
    if a.Reconcile? {
      ReconcileKeeps(spec, w, a.ans, n);
    } else if a.PodMoves? && a.name in w.pods {
      assert PodOk(spec, w.pods[a.name]);
      MoveKeeps(spec, w, a.name, a.pod, n);
    } else {
      QuietEventKeeps(spec, w, a, n);
    }
  }

  lemma BeforeStep(spec: TaskSpec, before: seq<Action>, a: Action)
    requires HonestRun(spec, before) && Honest(spec, Run(spec, before), a) && (a.Reconcile? ==> a.lag == 0)
    requires LeftBehindQuiet(spec, Current(Run(spec, before)), Run(spec, before).pods)
    ensures Before(spec, Run(spec, before), a)
  {
    StoredInvAlways(spec, before);
    LiveInvAlways(spec, before);
    PodsInvAlways(spec, before);
    CarryInvAlways(spec, before);
  }

  /** The drafts asked for so far, and what holds while none was forgotten. */
  predicate DraftsInv(spec: TaskSpec, w: World, n: int, forgotten: bool, again: bool)
    requires w.versions != []
  {
    && LeftBehindQuiet(spec, Current(w), w.pods)
    && Counted(spec, Current(w), w.pods, n)
    && (if forgotten then n >= 1 else Remembered(spec, Current(w), w.pods, n))
    && (n >= 2 <==> again)
  }

  lemma DraftsInvStep(spec: TaskSpec, w: World, a: Action, n: int, forgotten: bool, again: bool)
    requires w.versions != [] && DraftsInv(spec, w, n, forgotten, again) && StepKeeps(spec, w, a, n)
    ensures DraftsInv(spec, Act(spec, w, a), n + Asks(w, a), forgotten || ForgetsDraft(spec, w, a),
                      again || (forgotten && Asks(w, a) > 0))
  {
  }

  lemma {:induction false} DraftsCounted(spec: TaskSpec, acts: seq<Action>)
    requires HonestRun(spec, acts) && FreshReads(acts)
    ensures DraftsInv(spec, Run(spec, acts), TaskDrafts(spec, acts), Forgotten(spec, acts), AsksAfterForgotten(spec, acts))
  {
    if acts != [] {
      var before, a := acts[..|acts| - 1], acts[|acts| - 1];
      DraftsCounted(spec, before);
      BeforeStep(spec, before, a);
      DraftStep(spec, Run(spec, before), a, TaskDrafts(spec, before));
      DraftsInvStep(spec, Run(spec, before), a, TaskDrafts(spec, before), Forgotten(spec, before),
                    AsksAfterForgotten(spec, before));
    }
  }

  /** Exactly when a task asks for two drafts or more: one of them was forgotten, because its pod went
      away or was succeeded by a later attempt's while no PR was stored, and then another was asked for. */
  lemma {:induction false} SecondDraftExactly(spec: TaskSpec, acts: seq<Action>)
    requires HonestRun(spec, acts) && FreshReads(acts)
    ensures TaskDrafts(spec, acts) >= 2 <==> AsksAfterForgotten(spec, acts)
  {
    DraftsCounted(spec, acts);
  }
}
