/** What polls bring back: results that stale reads and lost updates do not disturb. */
module Polls {
  import opened Options
  import opened PodNames
  import opened Operator
  import opened Lifecycle
  import opened Pods
  import opened Protocol
  import A = Agent
  import T = Attempts
  import W = Worker

  ghost predicate PodsInv(spec: TaskSpec, w: World) {
    PodsOk(spec, w.pods) && Percentages(w.versions)
  }

  lemma PercentAdded(versions: seq<Status>, next: Status)
    requires Percentages(versions) && 0 <= next.progress <= 100
    ensures Percentages(versions + [next])
  {
  }

  lemma PodsInvApplied(spec: TaskSpec, w: World, d: Decision, ok: bool)
    requires Percentages(w.versions) && PodsOk(spec, d.pods)
    requires d.next.Some? ==> 0 <= d.next.value.progress <= 100
    ensures PodsInv(spec, Applied(w, d, ok))
  {
    if ok && d.next.Some? {
      PercentAdded(w.versions, d.next.value);
    }
  }

  lemma PollPercent(s: Status, pods: map<string, Pod>, ok: bool, ans: Answers)
    requires s.phase == Running && 0 <= s.progress <= 100
    requires ans.status.Some? && s.workerPod in pods ==> 0 <= ans.status.value.progress <= 100
    ensures var d := DecideRunning(s, pods, ok, ans); d.next.Some? ==> 0 <= d.next.value.progress <= 100
  {
  }

  lemma OtherPercent(spec: TaskSpec, s: Status, pods: map<string, Pod>, ok: bool, ans: Answers)
    requires s.phase != Running && 0 <= s.progress <= 100
    ensures var d := Decide(spec, s, pods, ok, ans); d.next.Some? ==> 0 <= d.next.value.progress <= 100
  {
  }

  /** A decision on any snapshot with an honest poll stores a percentage. */
  lemma DecisionPercent(spec: TaskSpec, s: Status, pods: map<string, Pod>, merged: set<string>, d: Decision, ok: bool,
                        ans: Answers)
    requires 0 <= s.progress <= 100 && PodsOk(spec, pods) && HonestAnswers(spec, s, pods, merged, ans)
    requires d == Decide(spec, s, pods, ok, ans)
    ensures d.next.Some? ==> 0 <= d.next.value.progress <= 100
  {
    if s.phase == Running {
      if s.workerPod in pods && ans.status.Some? {
        assert PodOk(spec, pods[s.workerPod]);
        PolledUrl(spec, pods[s.workerPod]);
      }
      PollPercent(s, pods, ok, ans);
    } else {
      OtherPercent(spec, s, pods, ok, ans);
    }
  }

  lemma PodsInvStep(spec: TaskSpec, w: World, a: Action)
    requires StoredInv(spec, w) && PodsInv(spec, w) && Honest(spec, w, a)
    ensures PodsInv(spec, Act(spec, w, a))
  {
    match a
    case Reconcile(lag, ans) =>
      var s, ok := Snapshot(w, lag), WriteAccepted(lag, ans);
      var d := Decide(spec, s, w.pods, ok, ans);
      DecisionPercent(spec, s, w.pods, w.mergedPrs, d, ok, ans);
      PodsStayOk(spec, s, w.pods, ok, ans, d.pods);
      PodsInvApplied(spec, w, d, ok);
    case PodMoves(name, pod) =>
      if name in w.pods {
        assert PodOk(spec, w.pods[name]);
        PodEvolutionOk(spec, w.pods[name], pod, "");
        PodsOkUpdate(spec, w.pods, name, pod);
      }
    case PodLost(_) =>
    case HumanMerges(_) =>
  }

  lemma {:induction false} PodsInvAlways(spec: TaskSpec, acts: seq<Action>)
    requires HonestRun(spec, acts)
    ensures PodsInv(spec, Run(spec, acts))
  {
    if acts != [] {
      var before := acts[..|acts| - 1];
      PodsInvAlways(spec, before);
      StoredInvAlways(spec, before);
      PodsInvStep(spec, Run(spec, before), acts[|acts| - 1]);
    }
  }

  /** Every stored progress is a percentage. */
  lemma {:induction false} ProgressInRange(spec: TaskSpec, acts: seq<Action>)
    requires HonestRun(spec, acts)
    ensures Percentages(Run(spec, acts).versions)
  {
    PodsInvAlways(spec, acts);
  }

  /** An attempt that was given a PR never asks for another one, and no attempt asks twice. */
  lemma {:induction false} NoSecondDraft(spec: TaskSpec, acts: seq<Action>, name: string)
    requires HonestRun(spec, acts) && name in Run(spec, acts).pods
    ensures var pod := Run(spec, acts).pods[name];
      pod.worker.drafts <= 1 && (pod.payload.prUrl != "" ==> pod.worker.drafts == 0)
  {
    PodsInvAlways(spec, acts);
    assert PodOk(spec, Run(spec, acts).pods[name]);
  }

  // ----- The PR of an attempt that has not reported yet

  predicate Early(s: Status) {
    s.phase == Unset || s.phase == Pending || s.phase == Running || s.phase == Completed
  }

  predicate Agree(s: Status, t: Status) {
    Early(s) && Early(t) && s.retryCount == t.retryCount ==> s.prUrl == t.prUrl
  }

  /** The early statuses of one attempt agree on the PR. */
  ghost predicate EarlyAgree(versions: seq<Status>) {
    forall i, j :: 0 <= i < |versions| && 0 <= j < |versions| ==> Agree(versions[i], versions[j])
  }

  /** A live pod carries the PR of its attempt's early statuses. */
  predicate Carries(spec: TaskSpec, s: Status, pods: map<string, Pod>) {
    Early(s) && OwnName(spec, s) in pods ==> pods[OwnName(spec, s)].payload.prUrl == s.prUrl
  }

  ghost predicate PodsCarry(spec: TaskSpec, versions: seq<Status>, pods: map<string, Pod>) {
    forall i :: 0 <= i < |versions| ==> Carries(spec, versions[i], pods)
  }

  ghost predicate CarryInv(spec: TaskSpec, w: World) {
    w.versions != [] && EarlyAgree(w.versions) && PodsCarry(spec, w.versions, w.pods)
  }

  /** A status that may be stored next: not early, a later attempt's, or one with the same PR. */
  predicate KeepsEarlyPr(s: Status, t: Status) {
    Early(t) ==> t.retryCount == s.retryCount + 1 || (t.retryCount == s.retryCount && t.prUrl == s.prUrl && Early(s))
  }

  lemma EarlyAgreeAppend(versions: seq<Status>, next: Status)
    requires RetriesOnlyGrow(versions) && EarlyAgree(versions) && KeepsEarlyPr(versions[|versions| - 1], next)
    ensures EarlyAgree(versions + [next])
  {
  }

  lemma PodsCarryAppend(spec: TaskSpec, versions: seq<Status>, next: Status, pods: map<string, Pod>)
    requires versions != [] && PodsCarry(spec, versions, pods) && KeepsEarlyPr(versions[|versions| - 1], next)
    requires next.retryCount == versions[|versions| - 1].retryCount + 1 ==> OwnName(spec, next) !in pods
    ensures PodsCarry(spec, versions + [next], pods)
  {
    assert Carries(spec, versions[|versions| - 1], pods);
  }

  /** A call may add the pod of its snapshot's attempt, with the snapshot's PR. */
  lemma PodsCarryCall(spec: TaskSpec, versions: seq<Status>, j: nat, pods: map<string, Pod>, after: map<string, Pod>,
                      defaults: seq<string>)
    requires j < |versions| && Early(versions[j]) && EarlyAgree(versions) && PodsCarry(spec, versions, pods)
    requires after == pods[OwnName(spec, versions[j]) := NewPod(PayloadFor(spec, versions[j], defaults))]
    ensures PodsCarry(spec, versions, after)
  {
    forall i | 0 <= i < |versions| ensures Carries(spec, versions[i], after) {
      assert Carries(spec, versions[i], pods);
      if OwnName(spec, versions[i]) == OwnName(spec, versions[j]) {
        AttemptsDiffer(spec.name, versions[i].retryCount, versions[j].retryCount);
      }
    }
  }

  /** A pod whose payload stays may change otherwise, and pods may go. */
  lemma PodsCarryKept(spec: TaskSpec, versions: seq<Status>, pods: map<string, Pod>, after: map<string, Pod>)
    requires PodsCarry(spec, versions, pods)
    requires forall n :: n in after ==> n in pods && after[n].payload == pods[n].payload
    ensures PodsCarry(spec, versions, after)
  {
    forall i | 0 <= i < |versions| ensures Carries(spec, versions[i], after) {
      assert Carries(spec, versions[i], pods);
    }
  }

  /** What an honest poll does to the PR: it stays if there was one, and while the run goes on. */
  predicate PollKeepsPr(s: Status, t: Status) {
    (s.prUrl != "" || t.phase == Running ==> t.prUrl == s.prUrl) && t.retryCount == s.retryCount
  }

  lemma PollKeeps(spec: TaskSpec, s: Status, pods: map<string, Pod>, r: A.TaskStatus)
    requires s.phase == Running && s.workerPod == OwnName(spec, s) && s.workerPod in pods
    requires PodOk(spec, pods[s.workerPod]) && Carries(spec, s, pods)
    requires spec.name in pods[s.workerPod].worker.statuses && r == pods[s.workerPod].worker.statuses[spec.name]
    ensures PollKeepsPr(s, Polled(s, r)) && Polled(s, r).phase in {Running, WaitingForPR, Failed}
    ensures r.phase == A.Succeeded ==> Polled(s, r).prUrl == r.prUrl
  {
    PolledUrl(spec, pods[s.workerPod]);
  }

  predicate KeepsPr(s: Status, d: Decision) {
    d.next.Some? ==> KeepsEarlyPr(s, d.next.value) && (s.prUrl != "" ==> d.next.value.prUrl == s.prUrl)
  }

  lemma RunningKeepsPr(s: Status, pods: map<string, Pod>, ok: bool, ans: Answers)
    requires s.phase == Running
    requires s.workerPod in pods && ans.status.Some? ==>
      var t := Polled(s, ans.status.value); PollKeepsPr(s, t) && t.phase in {Running, WaitingForPR, Failed}
    ensures KeepsPr(s, DecideRunning(s, pods, ok, ans))
  {
  }

  lemma OtherKeepsPr(spec: TaskSpec, s: Status, pods: map<string, Pod>, ok: bool, ans: Answers)
    requires s.phase != Running && !s.phase.Unknown?
    ensures KeepsPr(s, Decide(spec, s, pods, ok, ans))
  {
  }

  lemma DecisionKeepsPr(spec: TaskSpec, s: Status, pods: map<string, Pod>, merged: set<string>, d: Decision, ok: bool,
                        ans: Answers)
    requires Good(spec, s) && PodsOk(spec, pods) && Carries(spec, s, pods) && HonestAnswers(spec, s, pods, merged, ans)
    requires d == Decide(spec, s, pods, ok, ans)
    ensures KeepsPr(s, d)
  {
    if s.phase == Running {
      if s.workerPod in pods && ans.status.Some? {
        assert PodOk(spec, pods[s.workerPod]);
        PollKeeps(spec, s, pods, ans.status.value);
      }
      RunningKeepsPr(s, pods, ok, ans);
    } else {
      OtherKeepsPr(spec, s, pods, ok, ans);
    }
  }

  /** What is known of the snapshot that a call reads: it is version `j`. */
  lemma SnapshotFacts(spec: TaskSpec, w: World, lag: nat) returns (j: nat)
    requires StoredInv(spec, w) && LiveInv(spec, w) && CarryInv(spec, w)
    ensures j < |w.versions| && Snapshot(w, lag) == w.versions[j]
    ensures var s := Snapshot(w, lag);
      Good(spec, s) && s.retryCount <= Current(w).retryCount && Carries(spec, s, w.pods)
  {
    j := if lag < |w.versions| then |w.versions| - 1 - lag else 0;
    assert Good(spec, w.versions[j]) && Carries(spec, w.versions[j], w.pods);
  }

  /** The pods that a call on snapshot `j` leaves. */
  lemma CallCarries(spec: TaskSpec, w: World, j: nat, d: Decision, ok: bool, ans: Answers)
    requires j < |w.versions| && CarryInv(spec, w)
    requires d == Decide(spec, w.versions[j], w.pods, ok, ans)
    ensures PodsCarry(spec, w.versions, d.pods)
  {
    var s := w.versions[j];
    PodsComeFrom(spec, s, w.pods, ok, ans);
    if s.phase == Pending && ans.agent.Some? && d.pods != w.pods {
      PendingAdds(spec, s, w.pods, ok, ans);
      PodsCarryCall(spec, w.versions, j, w.pods, d.pods, ans.agent.value);
    } else {
      OthersAddNone(spec, s, w.pods, ok, ans);
      PodsCarryKept(spec, w.versions, w.pods, d.pods);
    }
  }

  lemma PendingAdds(spec: TaskSpec, s: Status, pods: map<string, Pod>, ok: bool, ans: Answers)
    requires s.phase == Pending && ans.agent.Some?
    ensures var after := DecidePending(spec, s, pods, ok, ans).pods;
      after == pods || after == pods[OwnName(spec, s) := NewPod(PayloadFor(spec, s, ans.agent.value))]
  {
  }

  lemma OthersAddNone(spec: TaskSpec, s: Status, pods: map<string, Pod>, ok: bool, ans: Answers)
    ensures var after := Decide(spec, s, pods, ok, ans).pods;
      s.phase != Pending ==> after == pods || after == pods - {s.workerPod}
  {
  }

  lemma CarryInvApplied(spec: TaskSpec, w: World, d: Decision, ok: bool)
    requires LiveInv(spec, w) && CarryInv(spec, w) && PodsCarry(spec, w.versions, d.pods)
    requires d.pods.Keys <= AttemptNames(spec, Current(w).retryCount)
    requires ok ==> KeepsPr(Current(w), d)
    ensures CarryInv(spec, Applied(w, d, ok))
  {
    if ok && d.next.Some? {
      var next := d.next.value;
      EarlyAgreeAppend(w.versions, next);
      NextNameIsNew(spec, Current(w).retryCount);
      PodsCarryAppend(spec, w.versions, next, d.pods);
    } else {
      assert Applied(w, d, ok).versions == w.versions;
    }
  }

  lemma CarryInvCall(spec: TaskSpec, w: World, s: Status, d: Decision, ok: bool, ans: Answers)
    requires LiveInv(spec, w) && CarryInv(spec, w) && PodsCarry(spec, w.versions, d.pods)
    requires TouchesOwnPod(spec, s, w.pods, ans, d) && s.retryCount <= Current(w).retryCount
    requires KeepsPr(s, d) && (ok ==> s == Current(w))
    ensures CarryInv(spec, Applied(w, d, ok))
    ensures Current(w).prUrl != "" ==> Current(Applied(w, d, ok)).prUrl == Current(w).prUrl
  {
    KeysStay(spec, s, w.pods, ans, d);
    AttemptNamesGrow(spec, s.retryCount, Current(w).retryCount);
    CarryInvApplied(spec, w, d, ok);
    if !ok || d.next.None? {
      assert Applied(w, d, ok).versions == w.versions;
    }
  }

  /** The decision on a snapshot, with what the invariants make of it. */
  lemma CarryingDecision(spec: TaskSpec, w: World, lag: nat, ok: bool, ans: Answers) returns (d: Decision)
    requires StoredInv(spec, w) && LiveInv(spec, w) && PodsOk(spec, w.pods) && CarryInv(spec, w)
    requires HonestAnswers(spec, Snapshot(w, lag), w.pods, w.mergedPrs, ans)
    ensures d == Decide(spec, Snapshot(w, lag), w.pods, ok, ans)
    ensures TouchesOwnPod(spec, Snapshot(w, lag), w.pods, ans, d) && KeepsPr(Snapshot(w, lag), d)
    ensures PodsCarry(spec, w.versions, d.pods) && Snapshot(w, lag).retryCount <= Current(w).retryCount
  {
    var j := SnapshotFacts(spec, w, lag);
    var s := Snapshot(w, lag);
    d := Decide(spec, s, w.pods, ok, ans);
    DecisionPods(spec, s, w.pods, ok, ans);
    DecisionKeepsPr(spec, s, w.pods, w.mergedPrs, d, ok, ans);
    CallCarries(spec, w, j, d, ok, ans);
  }

  lemma CarryInvReconcile(spec: TaskSpec, w: World, lag: nat, ans: Answers)
    requires StoredInv(spec, w) && LiveInv(spec, w) && PodsOk(spec, w.pods) && CarryInv(spec, w)
    requires HonestAnswers(spec, Snapshot(w, lag), w.pods, w.mergedPrs, ans)
    ensures CarryInv(spec, Reconciled(spec, w, lag, ans))
    ensures Current(w).prUrl != "" ==> Current(Reconciled(spec, w, lag, ans)).prUrl == Current(w).prUrl
  {
    var d := CarryingDecision(spec, w, lag, WriteAccepted(lag, ans), ans);
    CarryInvCall(spec, w, Snapshot(w, lag), d, WriteAccepted(lag, ans), ans);
  }

  lemma CarryInvPods(spec: TaskSpec, w: World, after: map<string, Pod>)
    requires CarryInv(spec, w) && forall n :: n in after ==> n in w.pods && after[n].payload == w.pods[n].payload
    ensures CarryInv(spec, w.(pods := after))
  {
    PodsCarryKept(spec, w.versions, w.pods, after);
  }

  lemma PayloadsKept(pods: map<string, Pod>, name: string, pod: Pod)
    requires name in pods && pod.payload == pods[name].payload
    ensures forall n :: n in pods[name := pod] ==> n in pods && pods[name := pod][n].payload == pods[n].payload
  {
  }

  lemma CarryInvPodMoves(spec: TaskSpec, w: World, name: string, pod: Pod)
    requires CarryInv(spec, w) && name in w.pods && pod.payload == w.pods[name].payload
    ensures CarryInv(spec, w.(pods := w.pods[name := pod]))
  {
    PayloadsKept(w.pods, name, pod);
    CarryInvPods(spec, w, w.pods[name := pod]);
  }

  /** What happens outside the reconciler keeps the invariant, as long as payloads stay. */
  lemma CarryInvEvent(spec: TaskSpec, w: World, a: Action)
    requires CarryInv(spec, w) && !a.Reconcile?
    requires a.PodMoves? && a.name in w.pods ==> a.pod.payload == w.pods[a.name].payload
    ensures CarryInv(spec, Act(spec, w, a)) && Current(Act(spec, w, a)) == Current(w)
  {
    match a
    case PodMoves(name, pod) =>
      if name in w.pods {
        CarryInvPodMoves(spec, w, name, pod);
      }
    case PodLost(name) => CarryInvPods(spec, w, w.pods - {name});
    case HumanMerges(_) =>
  }

  lemma CarryInvStep(spec: TaskSpec, w: World, a: Action)
    requires StoredInv(spec, w) && LiveInv(spec, w) && PodsOk(spec, w.pods) && CarryInv(spec, w) && Honest(spec, w, a)
    ensures CarryInv(spec, Act(spec, w, a))
    ensures Current(w).prUrl != "" ==> Current(Act(spec, w, a)).prUrl == Current(w).prUrl
  {
    if a.Reconcile? {
      CarryInvReconcile(spec, w, a.lag, a.ans);
    } else {
      CarryInvEvent(spec, w, a);
    }
  }

  lemma {:induction false} CarryInvAlways(spec: TaskSpec, acts: seq<Action>)
    requires HonestRun(spec, acts)
    ensures CarryInv(spec, Run(spec, acts))
  {
    if acts != [] {
      var before := acts[..|acts| - 1];
      CarryInvAlways(spec, before);
      StoredInvAlways(spec, before);
      LiveInvAlways(spec, before);
      PodsInvAlways(spec, before);
      CarryInvStep(spec, Run(spec, before), acts[|acts| - 1]);
    }
  }

  /** Once a PR URL is stored it never changes or empties, stale reads and lost updates included. */
  lemma {:induction false} StoredPrStable(spec: TaskSpec, acts: seq<Action>, more: seq<Action>)
    requires HonestRun(spec, acts + more) && Current(Run(spec, acts)).prUrl != ""
    ensures Current(Run(spec, acts + more)).prUrl == Current(Run(spec, acts)).prUrl
    decreases more
  {
    if more == [] {
      assert acts + more == acts;
    } else {
      var rest, last := more[..|more| - 1], more[|more| - 1];
      assert acts + more == (acts + rest) + [last];
      HonestLast(spec, acts + rest, last);
      StoredPrStable(spec, acts, rest);
      StoredInvAlways(spec, acts + rest);
      LiveInvAlways(spec, acts + rest);
      PodsInvAlways(spec, acts + rest);
      CarryInvAlways(spec, acts + rest);
      RunExtended(spec, acts + rest, last);
      CarryInvStep(spec, Run(spec, acts + rest), last);
    }
  }

  // ----- What later attempts are given

  /** A run stores one PR at most. */
  ghost predicate OnePr(versions: seq<Status>) {
    forall i, j :: 0 <= i <= j < |versions| ==> SamePr(versions[i], versions[j])
  }

  predicate SamePr(s: Status, t: Status) {
    s.prUrl != "" ==> t.prUrl == s.prUrl
  }

  lemma OnePrAppend(versions: seq<Status>, next: Status)
    requires versions != [] && OnePr(versions) && SamePr(versions[|versions| - 1], next)
    ensures OnePr(versions + [next])
  {
    var longer, last := versions + [next], |versions| - 1;
    forall i, j | 0 <= i <= j < |longer| ensures SamePr(longer[i], longer[j]) {
      if j < |versions| {
        assert SamePr(versions[i], versions[j]);
      } else if i < |versions| {
        assert SamePr(versions[i], versions[last]);
      }
    }
  }

  lemma OneMoreVersion(spec: TaskSpec, w: World, a: Action)
    requires w.versions != []
    ensures var after := Act(spec, w, a);
      after.versions == w.versions || after.versions == w.versions + [Current(after)]
  {
  }

  lemma {:induction false} OnePrAlways(spec: TaskSpec, acts: seq<Action>)
    requires HonestRun(spec, acts)
    ensures OnePr(Run(spec, acts).versions)
  {
    if acts != [] {
      var before, a := acts[..|acts| - 1], acts[|acts| - 1];
      var w := Run(spec, before);
      OnePrAlways(spec, before);
      StoredInvAlways(spec, before);
      LiveInvAlways(spec, before);
      PodsInvAlways(spec, before);
      CarryInvAlways(spec, before);
      CarryInvStep(spec, w, a);
      OneMoreVersion(spec, w, a);
      if Act(spec, w, a).versions != w.versions {
        OnePrAppend(w.versions, Current(Act(spec, w, a)));
      }
    }
  }

  predicate PayloadsCarry(spec: TaskSpec, calls: seq<Call>, url: string) {
    forall i :: 0 <= i < |calls| && calls[i].CreatePod? ==>
      calls[i].payload.prUrl == url && calls[i].payload.branch == TargetBranch(spec)
  }

  function NewCalls(spec: TaskSpec, w: World, a: Action): seq<Call>
    requires w.versions != []
  {
    if a.Reconcile? then Decide(spec, Snapshot(w, a.lag), w.pods, WriteAccepted(a.lag, a.ans), a.ans).calls else []
  }

  /** A call that requests a pod from a Pending snapshot that knows no PR. */
  predicate RequestsWithoutPr(w: World, a: Action)
    requires w.versions != []
  {
    a.Reconcile? && Snapshot(w, a.lag).phase == Pending && a.ans.agent.Some? && Snapshot(w, a.lag).prUrl == ""
  }

  lemma PendingPayload(spec: TaskSpec, s: Status, pods: map<string, Pod>, ok: bool, ans: Answers, url: string)
    requires s.phase == Pending && ans.agent.Some?
    ensures PayloadsCarry(spec, DecidePending(spec, s, pods, ok, ans).calls, url) <==> s.prUrl == url
  {
    var calls := DecidePending(spec, s, pods, ok, ans).calls;
    assert calls[0].CreatePod? && calls[0].payload.prUrl == s.prUrl;
  }

  lemma OtherPayloads(spec: TaskSpec, s: Status, pods: map<string, Pod>, ok: bool, ans: Answers, url: string)
    requires s.phase != Pending || ans.agent.None?
    ensures PayloadsCarry(spec, Decide(spec, s, pods, ok, ans).calls, url)
  {
    if s.phase != Pending {
      T.NoRequestElsewhere(spec, s, pods, ok, ans);
    }
  }

  lemma NewCallsCarry(spec: TaskSpec, w: World, a: Action)
    requires w.versions != [] && OnePr(w.versions) && Current(w).prUrl != ""
    ensures Act(spec, w, a).calls == w.calls + NewCalls(spec, w, a)
    ensures PayloadsCarry(spec, NewCalls(spec, w, a), Current(w).prUrl) <==> !RequestsWithoutPr(w, a)
  {
    if a.Reconcile? {
      var s, ok, j := Snapshot(w, a.lag), WriteAccepted(a.lag, a.ans), if a.lag < |w.versions| then |w.versions| - 1 - a.lag else 0;
      assert SamePr(w.versions[j], w.versions[|w.versions| - 1]);
      if s.phase == Pending && a.ans.agent.Some? {
        PendingPayload(spec, s, w.pods, ok, a.ans, Current(w).prUrl);
      } else {
        OtherPayloads(spec, s, w.pods, ok, a.ans, Current(w).prUrl);
      }
    }
  }

  /** None of the later actions `more` is such a request. */
  predicate NeverWithoutPr(spec: TaskSpec, acts: seq<Action>, more: seq<Action>) {
    more != [] ==>
      var rest := more[..|more| - 1];
      NeverWithoutPr(spec, acts, rest) && !RequestsWithoutPr(Run(spec, acts + rest), more[|more| - 1])
  }

  lemma PayloadsAppend(spec: TaskSpec, calls: seq<Call>, more: seq<Call>, url: string)
    ensures PayloadsCarry(spec, calls + more, url) <==> PayloadsCarry(spec, calls, url) && PayloadsCarry(spec, more, url)
  {
    var all := calls + more;
    assert forall i :: 0 <= i < |calls| ==> all[i] == calls[i];
    assert forall i :: 0 <= i < |more| ==> all[|calls| + i] == more[i];
  }

  lemma LaterExtended(spec: TaskSpec, first: seq<Call>, calls: seq<Call>, added: seq<Call>, url: string)
    requires first <= calls
    ensures first <= calls + added
    ensures PayloadsCarry(spec, (calls + added)[|first|..], url) <==>
            PayloadsCarry(spec, calls[|first|..], url) && PayloadsCarry(spec, added, url)
  {
    assert (calls + added)[|first|..] == calls[|first|..] + added;
    PayloadsAppend(spec, calls[|first|..], added, url);
  }

  /** Once a PR URL is stored it never changes, and every later attempt is given that URL and the task's
      branch, exactly when no later call acts on a Pending snapshot from before the PR. */
  lemma {:induction false} PrStableExactly(spec: TaskSpec, acts: seq<Action>, more: seq<Action>)
    requires HonestRun(spec, acts + more) && Current(Run(spec, acts)).prUrl != ""
    ensures var before, after := Run(spec, acts), Run(spec, acts + more);
      && Current(after).prUrl == Current(before).prUrl
      && before.calls <= after.calls
      && (PayloadsCarry(spec, after.calls[|before.calls|..], Current(before).prUrl) <==> NeverWithoutPr(spec, acts, more))
    decreases more
  {
    var before := Run(spec, acts);
    StoredPrStable(spec, acts, more);
    if more == [] {
      assert acts + more == acts;
    } else {
      var rest, last := more[..|more| - 1], more[|more| - 1];
      assert acts + more == (acts + rest) + [last];
      HonestLast(spec, acts + rest, last);
      PrStableExactly(spec, acts, rest);
      OnePrAlways(spec, acts + rest);
      RunExtended(spec, acts + rest, last);
      NewCallsCarry(spec, Run(spec, acts + rest), last);
      LaterExtended(spec, before.calls, Run(spec, acts + rest).calls, NewCalls(spec, Run(spec, acts + rest), last),
                    Current(before).prUrl);
    }
  }

  lemma FreshRequestsHavePr(spec: TaskSpec, w: World, a: Action)
    requires w.versions != [] && Current(w).prUrl != "" && (a.Reconcile? ==> a.lag == 0)
    ensures !RequestsWithoutPr(w, a)
  {
  }

  // ----- How attempts end

  /** How the worker of a pod ended its task. */
  function LoggedEnding(pod: Pod): (e: W.Ending)
    requires |pod.worker.endings| == 1
  {
    pod.worker.endings[0]
  }

  /** A logged run that got all the way: the model answered, changes were staged, committed and
      pushed, and the URL was reported. */
  predicate Delivered(req: A.Request, e: W.Ending, url: string) {
    && e.Ran? && e.req == req && e.script.attempts != []
    && A.LlmAnswer(req, e.script, e.ix).Some? && e.script.hasChanges && e.script.land.None?
    && A.Outcome(req, e.script, e.ix).steps == A.Reported(A.TaskStatus(A.Succeeded, 100, url, false, false))
  }

  lemma SuccessIsDelivered(req: A.Request, worker: W.WorkerState)
    requires W.WorkerInv(worker, req) && W.RecordIsLogged(worker, req) && req.taskId in worker.statuses
    requires worker.statuses[req.taskId].phase == A.Succeeded
    ensures |worker.endings| == 1 && Delivered(req, worker.endings[0], worker.statuses[req.taskId].prUrl)
  {
    var e := worker.endings[0];
    A.OutcomeSound(req, e.script, e.ix);
  }

  /** What an answered poll stored, when it ended the attempt. */
  predicate FromPoll(s: Status, pods: map<string, Pod>, ans: Answers, t: Status) {
    && s.workerPod in pods && ans.status.Some? && t == Polled(s, ans.status.value)
  }

  predicate FinalizedThenStored(s: Status, w: World, after: World)
    requires after.versions != []
  {
    after.calls == w.calls + [Finalize(s.workerPod), WriteStatus(Current(after), true)]
  }

  /** A status stored by one call is its decision on the current snapshot. */
  lemma StoredByCall(spec: TaskSpec, w: World, lag: nat, ans: Answers)
    requires w.versions != [] && Current(Reconciled(spec, w, lag, ans)) != Current(w)
    ensures lag == 0 && ans.writeAnswers && Snapshot(w, lag) == Current(w)
    ensures var d := Decide(spec, Current(w), w.pods, true, ans);
      d.next == Some(Current(Reconciled(spec, w, lag, ans))) && Reconciled(spec, w, lag, ans).calls == w.calls + d.calls
  {
  }

  lemma WaitingIsPolled(s: Status, pods: map<string, Pod>, ans: Answers, d: Decision)
    requires s.phase == Running && d == DecideRunning(s, pods, true, ans)
    requires d.next.Some? && d.next.value.phase == WaitingForPR
    ensures FromPoll(s, pods, ans, d.next.value) && ans.status.value.phase in {A.Succeeded, A.Completed}
    ensures d.calls == [Finalize(s.workerPod), WriteStatus(d.next.value, true)]
  {
  }

  /** A task moves from Running to waiting for its PR only for a run of its current attempt that
      pushed staged changes: the run that the pod's worker logged. Its PR is marked ready before the
      status is stored, and is the one stored. Stale reads and lost updates are allowed. */
  lemma {:induction false} SuccessIsEarned(spec: TaskSpec, acts: seq<Action>, lag: nat, ans: Answers)
    requires HonestRun(spec, acts + [Reconcile(lag, ans)])
    requires Current(Run(spec, acts)).phase == Running
    requires Current(Reconciled(spec, Run(spec, acts), lag, ans)).phase == WaitingForPR
    ensures var w := Run(spec, acts);
      var s, t := Current(w), Current(Reconciled(spec, w, lag, ans));
      && OwnName(spec, s) in w.pods
      && FinalizedThenStored(s, w, Reconciled(spec, w, lag, ans))
      && var pod := w.pods[OwnName(spec, s)];
      && |pod.worker.endings| == 1 && Delivered(RequestOf(pod.payload), LoggedEnding(pod), t.prUrl)
      && t == s.(phase := WaitingForPR, progress := 100, completed := true, prState := "open", prUrl := t.prUrl)
  {
    HonestLast(spec, acts, Reconcile(lag, ans));
    StoredInvAlways(spec, acts);
    PodsInvAlways(spec, acts);
    CarryInvAlways(spec, acts);
    var w := Run(spec, acts);
    var s := Current(w);
    StoredByCall(spec, w, lag, ans);
    WaitingIsPolled(s, w.pods, ans, Decide(spec, s, w.pods, true, ans));
    var pod := w.pods[s.workerPod];
    assert PodOk(spec, pod) && Carries(spec, s, w.pods);
    PolledUrl(spec, pod);
    PollKeeps(spec, s, w.pods, ans.status.value);
    SuccessIsDelivered(RequestOf(pod.payload), pod.worker);
  }

  /** What a poll stores while a run goes on: the worker's progress, and nothing else. */
  lemma {:induction false} ProgressIsStored(spec: TaskSpec, acts: seq<Action>, ans: Answers)
    requires HonestRun(spec, acts + [Reconcile(0, ans)]) && Current(Run(spec, acts)).phase == Running
    requires var w := Run(spec, acts);
      Ready(OwnName(spec, Current(w)), w.pods) && ans.podGetAnswers && ans.status.Some? && ans.writeAnswers
    requires ans.status.value.phase == A.Running
    ensures var w := Run(spec, acts);
      var s, worker := Current(w), w.pods[OwnName(spec, Current(w))].worker;
      && spec.name in worker.statuses
      && Current(Reconciled(spec, w, 0, ans)) == s.(progress := worker.statuses[spec.name].progress)
  {
    HonestLast(spec, acts, Reconcile(0, ans));
    StoredInvAlways(spec, acts);
    PodsInvAlways(spec, acts);
    var w := Run(spec, acts);
    assert Snapshot(w, 0) == Current(w);
    assert PodOk(spec, w.pods[Current(w).workerPod]);
    PolledUrl(spec, w.pods[Current(w).workerPod]);
  }

  /** The exception that ended a task, if one did; without one its run reported a result. */
  function EndError(e: W.Ending): Option<A.Failure> {
    match e
    case Crashed(_, error) => Some(error)
    case Ran(req, script, ix) =>
      if script.attempts == [] then None
      else
        var steps := A.RunSteps(req, script, ix).steps;
        if steps.Aborted? then Some(steps.error) else None
  }

  /** The reason for a failure that a logged ending calls for. */
  function ReasonOf(e: W.Ending): FailureReason {
    match EndError(e)
    case None => IncompleteRun
    case Some(f) => if f.rateLimit || f.limitInMessage then RateLimited else WorkerFailure
  }

  /** A run that ended without an exception and without success found nothing staged. */
  predicate FoundNothing(e: W.Ending) {
    EndError(e).None? ==> e.Ran? && e.script.attempts != [] && !e.script.hasChanges && e.script.land.None?
  }

  lemma FailureIsLogged(req: A.Request, worker: W.WorkerState, s: Status)
    requires W.WorkerInv(worker, req) && W.RecordIsLogged(worker, req) && req.taskId in worker.statuses
    requires s.phase == Running && Polled(s, worker.statuses[req.taskId]).phase == Failed
    ensures |worker.endings| == 1 && worker.endings[0].req == req && FoundNothing(worker.endings[0])
    ensures Polled(s, worker.statuses[req.taskId]).lastFailure == ReasonOf(worker.endings[0])
  {
    var e := worker.endings[0];
    if e.Ran? {
      A.PhaseExactly(req, e.script, e.ix);
    }
  }

  lemma FailedIsPolled(s: Status, pods: map<string, Pod>, ans: Answers, d: Decision)
    requires s.phase == Running && d == DecideRunning(s, pods, true, ans)
    requires d.next.Some? && d.next.value.phase == Failed
    ensures s.workerPod !in pods ==> d.next.value.lastFailure == PodDisappeared
    ensures s.workerPod in pods && pods[s.workerPod].phase == PodFailed ==> d.next.value.lastFailure == PodFailure
    ensures s.workerPod in pods && pods[s.workerPod].phase != PodFailed ==> FromPoll(s, pods, ans, d.next.value)
  {
  }

  /** When a task moves from Running to Failed, the stored reason says exactly what became of the
      attempt: its pod is gone, its pod failed, or else how the pod's worker ended the task. */
  lemma {:induction false} FailureReasonExactly(spec: TaskSpec, acts: seq<Action>, lag: nat, ans: Answers)
    requires HonestRun(spec, acts + [Reconcile(lag, ans)])
    requires Current(Run(spec, acts)).phase == Running
    requires Current(Reconciled(spec, Run(spec, acts), lag, ans)).phase == Failed
    ensures var w := Run(spec, acts);
      var own, t := OwnName(spec, Current(w)), Current(Reconciled(spec, w, lag, ans));
      if own !in w.pods then t.lastFailure == PodDisappeared
      else if w.pods[own].phase == PodFailed then t.lastFailure == PodFailure
      else
        var pod := w.pods[own];
        && |pod.worker.endings| == 1
        && LoggedEnding(pod).req == RequestOf(pod.payload) && FoundNothing(LoggedEnding(pod))
        && t.lastFailure == ReasonOf(LoggedEnding(pod))
  {
    HonestLast(spec, acts, Reconcile(lag, ans));
    StoredInvAlways(spec, acts);
    PodsInvAlways(spec, acts);
    var w := Run(spec, acts);
    var s := Current(w);
    StoredByCall(spec, w, lag, ans);
    FailedIsPolled(s, w.pods, ans, Decide(spec, s, w.pods, true, ans));
    if s.workerPod in w.pods && w.pods[s.workerPod].phase != PodFailed {
      assert PodOk(spec, w.pods[s.workerPod]);
      FailureIsLogged(RequestOf(w.pods[s.workerPod].payload), w.pods[s.workerPod].worker, s);
    }
  }

  /** Finalize and graduate requests follow an answered poll of the pod they are sent to. */
  predicate FollowsPoll(s: Status, pods: map<string, Pod>, ans: Answers, d: Decision, call: Call) {
    && (call.Finalize? ==>
          && call.name == s.workerPod && s.workerPod in pods
          && ans.status.Some? && ans.status.value.phase in {A.Succeeded, A.Completed}
          && s.phase == Running && d.next == Some(Polled(s, ans.status.value)))
    && (call.Graduate? ==> call.name == s.workerPod && s.workerPod in pods && ans.pr.Some?)
  }

  lemma RunningFollowsPoll(s: Status, pods: map<string, Pod>, ok: bool, ans: Answers, i: nat)
    requires s.phase == Running && i < |DecideRunning(s, pods, ok, ans).calls|
    ensures var d := DecideRunning(s, pods, ok, ans); FollowsPoll(s, pods, ans, d, d.calls[i])
  {
  }

  lemma WaitingFollowsPoll(s: Status, pods: map<string, Pod>, ok: bool, ans: Answers, i: nat)
    requires i < |DecideWaiting(s, pods, ok, ans).calls|
    ensures var d := DecideWaiting(s, pods, ok, ans); FollowsPoll(s, pods, ans, d, d.calls[i])
  {
  }

  lemma PendingFollowsPoll(spec: TaskSpec, s: Status, pods: map<string, Pod>, ok: bool, ans: Answers, i: nat)
    requires i < |DecidePending(spec, s, pods, ok, ans).calls|
    ensures var d := DecidePending(spec, s, pods, ok, ans); FollowsPoll(s, pods, ans, d, d.calls[i])
  {
  }

  lemma FailedFollowsPoll(spec: TaskSpec, s: Status, pods: map<string, Pod>, ok: bool, ans: Answers, i: nat)
    requires i < |DecideFailed(spec, s, pods, ok, ans).calls|
    ensures var d := DecideFailed(spec, s, pods, ok, ans); FollowsPoll(s, pods, ans, d, d.calls[i])
  {
  }

  lemma RequestFollowsPoll(spec: TaskSpec, s: Status, pods: map<string, Pod>, ok: bool, ans: Answers, call: Call)
    requires call in Decide(spec, s, pods, ok, ans).calls
    ensures FollowsPoll(s, pods, ans, Decide(spec, s, pods, ok, ans), call)
  {
    var calls := Decide(spec, s, pods, ok, ans).calls;
    var i :| 0 <= i < |calls| && calls[i] == call;
    match s.phase
    case Running => RunningFollowsPoll(s, pods, ok, ans, i);
    case Completed => WaitingFollowsPoll(s, pods, ok, ans, i);
    case WaitingForPR => WaitingFollowsPoll(s, pods, ok, ans, i);
    case Pending => PendingFollowsPoll(spec, s, pods, ok, ans, i);
    case Failed => FailedFollowsPoll(spec, s, pods, ok, ans, i);
    case _ =>
  }

  /** The worker refuses neither request that a reconcile call sends after a poll, whatever the worker
      does between the poll and the request. A finalize marks the record's PR, which is the one that
      the call tries to store. */
  lemma {:induction false} GuardsNeverRefuse(spec: TaskSpec, acts: seq<Action>, lag: nat, ans: Answers, call: Call,
                                             events: seq<W.Event>)
    requires HonestRun(spec, acts + [Reconcile(lag, ans)])
    requires var w := Run(spec, acts);
      call in Decide(spec, Snapshot(w, lag), w.pods, WriteAccepted(lag, ans), ans).calls
    requires call.Finalize? || call.Graduate?
    ensures call.name in Run(spec, acts).pods
    ensures var w := Run(spec, acts);
      var s, pod := Snapshot(w, lag), w.pods[call.name];
      var d := Decide(spec, s, w.pods, WriteAccepted(lag, ans), ans);
      W.AllOperatorDriven(events, RequestOf(pod.payload)) ==> Passes(spec, d, call, W.Run(pod.worker, events))
  {
    HonestLast(spec, acts, Reconcile(lag, ans));
    StoredInvAlways(spec, acts);
    PodsInvAlways(spec, acts);
    CarryInvAlways(spec, acts);
    var w := Run(spec, acts);
    var s := Snapshot(w, lag);
    RequestFollowsPoll(spec, s, w.pods, WriteAccepted(lag, ans), ans, call);
    var pod := w.pods[s.workerPod];
    assert PodOk(spec, pod) && Carries(spec, s, w.pods);
    if W.AllOperatorDriven(events, RequestOf(pod.payload)) {
      WorkerStaysReady(spec, pod, events);
      PolledUrl(spec, pod);
      if call.Finalize? {
        PollKeeps(spec, s, w.pods, ans.status.value);
      }
    }
  }

  /** The worker's guards for a request of this decision, and what a finalize marks ready. */
  predicate Passes(spec: TaskSpec, d: Decision, call: Call, worker: W.WorkerState) {
    && (call.Graduate? ==> spec.name in worker.statuses)
    && (call.Finalize? ==>
          var answer := W.FinalizeAnswer(worker, spec.name);
          d.next.Some? && answer == W.Finalized(if d.next.value.prUrl != "" then Some(d.next.value.prUrl) else None))
  }

  lemma WorkerStaysReady(spec: TaskSpec, pod: Pod, events: seq<W.Event>)
    requires PodOk(spec, pod) && W.AllOperatorDriven(events, RequestOf(pod.payload)) && spec.name in pod.worker.statuses
    ensures var worker := W.Run(pod.worker, events);
      && spec.name in worker.statuses
      && (pod.worker.statuses[spec.name].phase == A.Succeeded ==> worker == pod.worker)
  {
    W.WorkerRunKeeps(pod.worker, events, RequestOf(pod.payload));
  }
}
