/** Whole runs of the reconciler, with lost writes and stale reads: what holds of every stored status. */
module Lifecycle {
  import opened Options
  import opened PodNames
  import opened Operator
  import A = Agent

  /** A run interleaves reconcile calls with whatever pods and people do. */
  datatype Action =
    | Reconcile(lag: nat, ans: Answers)
    | PodMoves(name: string, pod: Pod)
    | PodLost(name: string)
    | HumanMerges(url: string)

  function Act(spec: TaskSpec, w: World, a: Action): (after: World)
    requires w.versions != []
    ensures w.versions <= after.versions
  {
    match a
    case Reconcile(lag, ans) => Reconciled(spec, w, lag, ans)
    case PodMoves(name, pod) => if name in w.pods then w.(pods := w.pods[name := pod]) else w
    case PodLost(name) => w.(pods := w.pods - {name})
    case HumanMerges(url) => w.(mergedPrs := w.mergedPrs + {url})
  }

  function Run(spec: TaskSpec, acts: seq<Action>): (w: World)
    ensures w.versions != []
  {
    if acts == [] then NEW_WORLD
    else Act(spec, Run(spec, acts[..|acts| - 1]), acts[|acts| - 1])
  }

  /** How many retries a task may have: a negative setting allows none. */
  function Budget(spec: TaskSpec): nat {
    if MaxRetries(spec) < 0 then 0 else MaxRetries(spec)
  }

  /** The budget, spelled out: two retries by default, none for a negative setting. A failed task is final
      exactly when it is used up, and otherwise a stored call retries it. */
  lemma RetryBudgetExactly(spec: TaskSpec, s: Status, pods: map<string, Pod>, ans: Answers)
    requires s.phase == Failed
    ensures Budget(spec) == (if spec.maxRetries == 0 then 2 else if spec.maxRetries < 0 then 0 else spec.maxRetries)
    ensures Terminal(spec, s) <==> s.retryCount >= Budget(spec)
    ensures var d := DecideFailed(spec, s, pods, true, ans);
      if s.retryCount < Budget(spec) then
        d.next == Some(s.(phase := Pending, progress := 0, workerPod := "", started := false, completed := false,
                          retryCount := s.retryCount + 1))
      else d.next == Some(s)
  {
  }

  predicate Finished(p: Phase) {
    p == Completed || p == WaitingForPR || p == Merged || p == Closed
  }

  /** What each stored phase says about the other fields. */
  predicate Good(spec: TaskSpec, s: Status) {
    && !s.phase.Unknown?
    && s.retryCount <= Budget(spec)
    && (s.completed <==> Finished(s.phase))
    && (Finished(s.phase) ==> s.progress == 100)
    && (s.started <==> s.phase == Running || s.phase == Failed || Finished(s.phase))
    && s.workerPod == (if s.started then PodName(spec.name, s.retryCount) else "")
    && (s.phase == Pending || s.phase == Unset ==> s.progress == 0)
    && (!Finished(s.phase) ==> s.prState == "")
    && (s.prState == "closed" ==> s.phase == Merged || s.phase == Closed)
    && (s.phase == Unset ==> s == NEW_STATUS)
  }

  /** An upper bound on the phase changes still to come. */
  function Potential(spec: TaskSpec, s: Status): int {
    var left := 3 * (Budget(spec) - s.retryCount);
    match s.phase
    case Unset => left + 5
    case Pending => left + 4
    case Running => left + 3
    case Failed => left + 2
    case Completed => 2
    case WaitingForPR => 1
    case _ => 0
  }

  /** The sum of the backoffs before the first, second, ... retry. */
  function BackoffTotal(retries: nat): nat {
    if retries == 0 then 0 else BackoffTotal(retries - 1) + 30 * retries
  }

  /** A decision stores a good status that comes closer to the end whenever the phase changes, and
      counts a retry exactly when it asks for the retry delay. */
  predicate Progresses(spec: TaskSpec, s: Status, ok: bool, d: Decision) {
    && (d.next.Some? ==>
          && Good(spec, d.next.value) && d.next.value.phase != Unset
          && 0 <= Potential(spec, d.next.value) <= Potential(spec, s)
          && (d.next.value.phase != s.phase ==> Potential(spec, d.next.value) < Potential(spec, s)))
    && (if d.result.RetryAfter? then
          ok && d.next == Some(Retried(s)) && d.result.seconds == 30 * (s.retryCount + 1)
        else d.next.Some? && ok ==> d.next.value.retryCount == s.retryCount)
  }

  lemma PendingProgresses(spec: TaskSpec, s: Status, pods: map<string, Pod>, ok: bool, ans: Answers)
    requires Good(spec, s) && s.phase == Pending
    ensures Progresses(spec, s, ok, DecidePending(spec, s, pods, ok, ans))
  {
  }

  lemma PolledProgresses(spec: TaskSpec, s: Status, r: A.TaskStatus, pods: map<string, Pod>, ok: bool)
    requires Good(spec, s) && s.phase == Running
    ensures Progresses(spec, s, ok, DecidePolled(s, r, pods, ok))
  {
  }

  lemma RunningProgresses(spec: TaskSpec, s: Status, pods: map<string, Pod>, ok: bool, ans: Answers)
    requires Good(spec, s) && s.phase == Running
    ensures Progresses(spec, s, ok, DecideRunning(s, pods, ok, ans))
  {
    if ans.status.Some? {
      PolledProgresses(spec, s, ans.status.value, pods, ok);
    }
  }

  lemma WaitingProgresses(spec: TaskSpec, s: Status, pods: map<string, Pod>, ok: bool, ans: Answers)
    requires Good(spec, s) && (s.phase == Completed || s.phase == WaitingForPR)
    ensures Progresses(spec, s, ok, DecideWaiting(s, pods, ok, ans))
  {
  }

  lemma FailedProgresses(spec: TaskSpec, s: Status, pods: map<string, Pod>, ok: bool, ans: Answers)
    requires Good(spec, s) && s.phase == Failed
    ensures Progresses(spec, s, ok, DecideFailed(spec, s, pods, ok, ans))
  {
  }

  lemma DecisionProgresses(spec: TaskSpec, s: Status, pods: map<string, Pod>, ok: bool, ans: Answers)
    requires Good(spec, s)
    ensures Progresses(spec, s, ok, Decide(spec, s, pods, ok, ans))
  {
    match s.phase
    case Pending => PendingProgresses(spec, s, pods, ok, ans);
    case Running => RunningProgresses(spec, s, pods, ok, ans);
    case Failed => FailedProgresses(spec, s, pods, ok, ans);
    case Completed => WaitingProgresses(spec, s, pods, ok, ans);
    case WaitingForPR => WaitingProgresses(spec, s, pods, ok, ans);
    case _ =>
  }

  ghost predicate AllGood(spec: TaskSpec, versions: seq<Status>) {
    forall i :: 0 <= i < |versions| ==> Good(spec, versions[i])
  }

  function PhaseChanges(versions: seq<Status>): nat {
    if |versions| < 2 then 0
    else PhaseChanges(versions[..|versions| - 1])
         + (if versions[|versions| - 1].phase != versions[|versions| - 2].phase then 1 else 0)
  }

  ghost predicate StoredInv(spec: TaskSpec, w: World) {
    && w.versions != []
    && AllGood(spec, w.versions)
    && Potential(spec, Current(w)) >= 0
    && PhaseChanges(w.versions) + Potential(spec, Current(w)) <= 3 * Budget(spec) + 5
    && w.backoff == BackoffTotal(Current(w).retryCount)
  }

  lemma ChangeCounted(versions: seq<Status>, next: Status)
    requires versions != []
    ensures PhaseChanges(versions + [next])
         == PhaseChanges(versions) + (if next.phase != versions[|versions| - 1].phase then 1 else 0)
  {
    assert (versions + [next])[..|versions|] == versions;
  }

  lemma VersionStored(spec: TaskSpec, versions: seq<Status>, next: Status)
    requires versions != [] && AllGood(spec, versions) && Good(spec, next)
    ensures AllGood(spec, versions + [next])
    ensures PhaseChanges(versions + [next])
         == PhaseChanges(versions) + (if next.phase != versions[|versions| - 1].phase then 1 else 0)
  {
    ChangeCounted(versions, next);
    forall i | 0 <= i < |versions + [next]| ensures Good(spec, (versions + [next])[i]) {
      if i < |versions| {
        assert Good(spec, versions[i]);
      }
    }
  }

  lemma PotentialPaid(spec: TaskSpec, s: Status, d: Decision, ok: bool, backoff: nat)
    requires Progresses(spec, s, ok, d) && ok && d.next.Some? && backoff == BackoffTotal(s.retryCount)
    ensures Potential(spec, d.next.value) >= 0
    ensures Potential(spec, d.next.value) + (if d.next.value.phase != s.phase then 1 else 0) <= Potential(spec, s)
    ensures backoff + (if d.result.RetryAfter? then d.result.seconds else 0) == BackoffTotal(d.next.value.retryCount)
  {
  }

  lemma StoredInvApplied(spec: TaskSpec, w: World, d: Decision, ok: bool)
    requires StoredInv(spec, w) && (ok ==> Progresses(spec, Current(w), ok, d)) && (!ok ==> !d.result.RetryAfter?)
    ensures StoredInv(spec, Applied(w, d, ok))
  {
    if ok && d.next.Some? {
      VersionStored(spec, w.versions, d.next.value);
      PotentialPaid(spec, Current(w), d, ok, w.backoff);
    } else {
      assert Applied(w, d, ok).versions == w.versions;
    }
  }

  lemma StoredInvStep(spec: TaskSpec, w: World, a: Action)
    requires StoredInv(spec, w)
    ensures StoredInv(spec, Act(spec, w, a))
  {
    hide Decide, Progresses;
    if a.Reconcile? {
      var s := Snapshot(w, a.lag);
      var ok := WriteAccepted(a.lag, a.ans);
      DecisionProgresses(spec, s, w.pods, ok, a.ans);
      StoredInvApplied(spec, w, Decide(spec, s, w.pods, ok, a.ans), ok);
    }
  }

  lemma {:induction false} BackoffClosedForm(n: nat)
    ensures BackoffTotal(n) == 15 * n * (n + 1)
  {
    if n > 0 {
      BackoffClosedForm(n - 1);
    }
  }

  lemma {:induction false} StoredInvAlways(spec: TaskSpec, acts: seq<Action>)
    ensures StoredInv(spec, Run(spec, acts))
  {
    if acts != [] {
      StoredInvAlways(spec, acts[..|acts| - 1]);
      StoredInvStep(spec, Run(spec, acts[..|acts| - 1]), acts[|acts| - 1]);
    }
  }

  /** Every status ever stored has the shape its phase promises, and no unknown phase is stored. */
  lemma {:induction false} EveryStoredStatusGood(spec: TaskSpec, acts: seq<Action>)
    ensures AllGood(spec, Run(spec, acts).versions)
  {
    StoredInvAlways(spec, acts);
  }

  /** A run stores at most 3M + 5 phase changes, M being the retry budget. */
  lemma {:induction false} PhaseChangesBounded(spec: TaskSpec, acts: seq<Action>)
    ensures PhaseChanges(Run(spec, acts).versions) <= 3 * Budget(spec) + 5
  {
    StoredInvAlways(spec, acts);
  }

  /** The retry delays requested over a run add up to 15 R (R + 1) seconds after R retries. */
  lemma {:induction false} BackoffSum(spec: TaskSpec, acts: seq<Action>)
    ensures var w := Run(spec, acts);
      w.backoff == 15 * Current(w).retryCount * (Current(w).retryCount + 1) && Current(w).retryCount <= Budget(spec)
  {
    StoredInvAlways(spec, acts);
    BackoffClosedForm(Current(Run(spec, acts)).retryCount);
  }

  predicate Terminal(spec: TaskSpec, s: Status) {
    s.phase == Merged || s.phase == Closed || (s.phase == Failed && s.retryCount >= MaxRetries(spec))
  }

  lemma TerminalStep(spec: TaskSpec, w: World, a: Action)
    requires w.versions != [] && Terminal(spec, Current(w))
    ensures Current(Act(spec, w, a)) == Current(w)
  {
  }

  lemma RunExtended(spec: TaskSpec, acts: seq<Action>, a: Action)
    ensures Run(spec, acts + [a]) == Act(spec, Run(spec, acts), a)
  {
    assert (acts + [a])[..|acts|] == acts;
  }

  lemma MoveFirst<T>(s: seq<T>, t: seq<T>)
    requires t != []
    ensures s + [t[0]] + t[1..] == s + t
  {
  }

  /** Merged, Closed and an exhausted Failed are final: whatever happens later, stale reads and lost
      writes included, the stored status stays as it is. */
  lemma {:induction false} TerminalAbsorbs(spec: TaskSpec, acts: seq<Action>, more: seq<Action>)
    requires Terminal(spec, Current(Run(spec, acts)))
    ensures Current(Run(spec, acts + more)) == Current(Run(spec, acts))
    decreases more
  {
    if more == [] {
      assert acts + more == acts;
    } else {
      RunExtended(spec, acts, more[0]);
      TerminalStep(spec, Run(spec, acts), more[0]);
      TerminalAbsorbs(spec, acts + [more[0]], more[1..]);
      MoveFirst(acts, more);
    }
  }

  lemma MergedDecision(spec: TaskSpec, s: Status, pods: map<string, Pod>, ok: bool, ans: Answers)
    requires Good(spec, s)
    requires var d := Decide(spec, s, pods, ok, ans); d.next.Some? && d.next.value.phase == Merged
    ensures var d := Decide(spec, s, pods, ok, ans);
      && ans.pr.Some? && ans.pr.value.merged && d.next.value.prState == ans.pr.value.state
      && s.prUrl != "" && Ready(s.workerPod, pods)
      && d.calls == [Graduate(s.workerPod)] + CleanupCalls(s.workerPod, pods, ans) + [WriteStatus(d.next.value, ok)]
  {
  }

  /** A status becomes Merged only in a call whose PR poll read merged; that call graduates the
      memory first, then removes the pod, and writes the status last. */
  lemma MergedIsOrdered(spec: TaskSpec, acts: seq<Action>, lag: nat, ans: Answers)
    requires var w := Run(spec, acts);
      Current(w).phase != Merged && Current(Act(spec, w, Reconcile(lag, ans))).phase == Merged
    ensures var w := Run(spec, acts);
      var s, after := Current(w), Act(spec, w, Reconcile(lag, ans));
      && lag == 0
      && ans.pr.Some? && ans.pr.value.merged && Current(after).prState == ans.pr.value.state
      && after.calls == w.calls + ([Graduate(s.workerPod)] + CleanupCalls(s.workerPod, w.pods, ans)
                                   + [WriteStatus(Current(after), true)])
  {
    var w := Run(spec, acts);
    StoredInvAlways(spec, acts);
    assert Snapshot(w, 0) == Current(w);
    MergedDecision(spec, Current(w), w.pods, true, ans);
  }

  /** A human verdict on the PR, as a status records it. */
  predicate RecordsVerdict(s: Status) {
    s.phase == Merged || (s.phase == Closed && s.prState == "closed")
  }

  /** A write of a verdict, accepted or lost, comes right after the graduation of the task's memory
      and, if that was served, the deletion of its pod. */
  predicate VerdictInOrder(calls: seq<Call>, i: nat)
    requires i < |calls|
  {
    calls[i].WriteStatus? && RecordsVerdict(calls[i].status) ==>
      var name := calls[i].status.workerPod;
      || (i > 0 && calls[i - 1] == Graduate(name))
      || (i > 1 && calls[i - 1] == DeletePod(name) && calls[i - 2] == Graduate(name))
  }

  predicate VerdictsInOrder(calls: seq<Call>) {
    forall i :: 0 <= i < |calls| ==> VerdictInOrder(calls, i)
  }

  lemma InOrderAppend(calls: seq<Call>, more: seq<Call>)
    requires VerdictsInOrder(calls) && VerdictsInOrder(more)
    ensures VerdictsInOrder(calls + more)
  {
    forall i | 0 <= i < |calls + more| ensures VerdictInOrder(calls + more, i) {
      if i < |calls| {
        assert VerdictInOrder(calls, i);
      } else {
        assert VerdictInOrder(more, i - |calls|);
      }
    }
  }

  lemma WaitingInOrder(spec: TaskSpec, s: Status, pods: map<string, Pod>, ok: bool, ans: Answers)
    requires Good(spec, s) && (s.phase == Completed || s.phase == WaitingForPR)
    ensures VerdictsInOrder(DecideWaiting(s, pods, ok, ans).calls)
  {
  }

  predicate NoVerdict(calls: seq<Call>) {
    forall i :: 0 <= i < |calls| && calls[i].WriteStatus? ==> !RecordsVerdict(calls[i].status)
  }

  lemma RunningNoVerdict(s: Status, pods: map<string, Pod>, ok: bool, ans: Answers)
    requires s.phase == Running
    ensures NoVerdict(DecideRunning(s, pods, ok, ans).calls)
  {
  }

  lemma NoVerdictElsewhere(spec: TaskSpec, s: Status, pods: map<string, Pod>, ok: bool, ans: Answers)
    requires s.phase != Completed && s.phase != WaitingForPR
    ensures NoVerdict(Decide(spec, s, pods, ok, ans).calls)
  {
    if s.phase == Running {
      RunningNoVerdict(s, pods, ok, ans);
    }
  }

  lemma DecisionInOrder(spec: TaskSpec, s: Status, pods: map<string, Pod>, ok: bool, ans: Answers, d: Decision)
    requires Good(spec, s) && d == Decide(spec, s, pods, ok, ans)
    ensures VerdictsInOrder(d.calls)
  {
    if s.phase == Completed || s.phase == WaitingForPR {
      WaitingInOrder(spec, s, pods, ok, ans);
    } else {
      NoVerdictElsewhere(spec, s, pods, ok, ans);
    }
  }

  /** In every run no attempt to store a human verdict is made before the memory is graduated. */
  lemma {:induction false} VerdictsAlwaysInOrder(spec: TaskSpec, acts: seq<Action>)
    ensures VerdictsInOrder(Run(spec, acts).calls)
  {
    if acts != [] {
      var before, a := acts[..|acts| - 1], acts[|acts| - 1];
      VerdictsAlwaysInOrder(spec, before);
      StoredInvAlways(spec, before);
      if a.Reconcile? {
        var w := Run(spec, before);
        var s, ok := Snapshot(w, a.lag), WriteAccepted(a.lag, a.ans);
        var d := Decide(spec, s, w.pods, ok, a.ans);
        DecisionInOrder(spec, s, w.pods, ok, a.ans, d);
        InOrderAppend(w.calls, d.calls);
      }
    }
  }
}
