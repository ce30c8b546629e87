/** What the pod of a waiting task knows of its PR, and so whether Merged is true. */
module Waiting {
  import opened Options
  import opened PodNames
  import opened Operator
  import opened Lifecycle
  import opened Pods
  import opened Protocol
  import opened Polls
  import W = Worker

  /** A call that gives a waiting task a pod that does not know the stored PR: it acts on an old Pending
      snapshot of the current attempt, is served, and finds the attempt's pod gone. */
  predicate Misinforms(spec: TaskSpec, w: World, a: Action)
    requires w.versions != []
  {
    a.Reconcile? &&
    var read, current := Snapshot(w, a.lag), Current(w);
    && read.phase == Pending && read.retryCount == current.retryCount
    && a.ans.agent.Some? && a.ans.createAnswers && OwnName(spec, current) !in w.pods
    && current.phase == WaitingForPR && (read.prUrl != current.prUrl || current.prUrl == "")
  }

  lemma PendingCreates(spec: TaskSpec, s: Status, pods: map<string, Pod>, ok: bool, ans: Answers)
    requires s.phase == Pending
    ensures DecidePending(spec, s, pods, ok, ans).pods ==
      if ans.agent.Some? && ans.createAnswers && OwnName(spec, s) !in pods
      then pods[OwnName(spec, s) := NewPod(PayloadFor(spec, s, ans.agent.value))] else pods
  {
  }

  /** The pod of a new attempt and the status of that attempt. */
  lemma NewPodKnows(spec: TaskSpec, s: Status, c: Status, defaults: seq<string>)
    requires s.phase == Pending && s.retryCount == c.retryCount && Agree(s, c)
    ensures PodKnowsPr(spec, c, NewPod(PayloadFor(spec, s, defaults))) <==>
            !(c.phase == WaitingForPR && (s.prUrl != c.prUrl || c.prUrl == ""))
  {
  }

  /** A stale call that stores nothing. */
  lemma StaleCallKnows(spec: TaskSpec, s: Status, c: Status, pods: map<string, Pod>, ans: Answers)
    requires OwnPodKnows(spec, c, pods) && Agree(s, c)
    ensures OwnPodKnows(spec, c, Decide(spec, s, pods, false, ans).pods) <==>
      !(s.phase == Pending && s.retryCount == c.retryCount && ans.agent.Some? && ans.createAnswers
        && OwnName(spec, c) !in pods && c.phase == WaitingForPR && (s.prUrl != c.prUrl || c.prUrl == ""))
  {
    if s.phase == Pending {
      PendingCreates(spec, s, pods, false, ans);
      if OwnName(spec, s) == OwnName(spec, c) {
        AttemptsDiffer(spec.name, s.retryCount, c.retryCount);
        if ans.agent.Some? {
          NewPodKnows(spec, s, c, ans.agent.value);
        }
      }
    } else {
      OthersAddNone(spec, s, pods, false, ans);
    }
  }

  lemma StaleApplied(spec: TaskSpec, w: World, s: Status, d: Decision, ans: Answers)
    requires ProtocolInv(spec, w) && Good(spec, s) && s.retryCount <= Current(w).retryCount
    requires TouchesOwnPod(spec, s, w.pods, ans, d) && PodsOk(spec, d.pods)
    ensures ProtocolInv(spec, Applied(w, d, false)) <==> OwnPodKnows(spec, Current(w), d.pods)
    ensures Current(Applied(w, d, false)) == Current(w)
  {
    LiveInvApplied(spec, w, s, d, false, ans);
    assert Applied(w, d, false).versions == w.versions;
  }

  lemma StaleReconcile(spec: TaskSpec, w: World, lag: nat, ans: Answers)
    requires StoredInv(spec, w) && ProtocolInv(spec, w) && CarryInv(spec, w) && lag > 0
    ensures var after := Reconciled(spec, w, lag, ans);
      && (ProtocolInv(spec, after) <==> !Misinforms(spec, w, Reconcile(lag, ans)))
      && (OwnPodKnows(spec, Current(after), after.pods) <==> !Misinforms(spec, w, Reconcile(lag, ans)))
  {
    var j := SnapshotFacts(spec, w, lag);
    var s := Snapshot(w, lag);
    var d := KnownDecision(spec, w, lag, false, ans);
    assert Agree(w.versions[j], w.versions[|w.versions| - 1]);
    StaleCallKnows(spec, s, Current(w), w.pods, ans);
    PodsStayOk(spec, s, w.pods, false, ans, d.pods);
    StaleApplied(spec, w, s, d, ans);
  }

  /** One step keeps the composed invariant unless it is such a call; then the pod knows no better. */
  lemma WaitingStep(spec: TaskSpec, w: World, a: Action)
    requires StoredInv(spec, w) && ProtocolInv(spec, w) && CarryInv(spec, w) && Honest(spec, w, a)
    ensures ProtocolInv(spec, Act(spec, w, a)) <==> !Misinforms(spec, w, a)
    ensures Misinforms(spec, w, a) ==> !OwnPodKnows(spec, Current(Act(spec, w, a)), Act(spec, w, a).pods)
  {
    hide Decide, ProtocolInv, CarryInv, OwnPodKnows;
    if a.Reconcile? && a.lag > 0 {
      StaleReconcile(spec, w, a.lag, a.ans);
    } else {
      ProtocolInvStep(spec, w, a);
      assert Snapshot(w, 0) == Current(w);
    }
  }

  // ----- Whole runs

  predicate NeverMisinforms(spec: TaskSpec, acts: seq<Action>) {
    acts != [] ==>
      var before := acts[..|acts| - 1];
      NeverMisinforms(spec, before) && !Misinforms(spec, Run(spec, before), acts[|acts| - 1])
  }

  /** At every point of the run the current attempt's pod, if it is there, knows the stored PR. */
  predicate AlwaysKnows(spec: TaskSpec, acts: seq<Action>) {
    && OwnPodKnows(spec, Current(Run(spec, acts)), Run(spec, acts).pods)
    && (acts != [] ==> AlwaysKnows(spec, acts[..|acts| - 1]))
  }

  lemma {:induction false} ProtocolInvAlways(spec: TaskSpec, acts: seq<Action>)
    requires HonestRun(spec, acts)
    ensures NeverMisinforms(spec, acts) ==> ProtocolInv(spec, Run(spec, acts))
    ensures AlwaysKnows(spec, acts) <==> NeverMisinforms(spec, acts)
  {
    if acts != [] {
      var before := acts[..|acts| - 1];
      ProtocolInvAlways(spec, before);
      if NeverMisinforms(spec, before) {
        StoredInvAlways(spec, before);
        CarryInvAlways(spec, before);
        WaitingStep(spec, Run(spec, before), acts[|acts| - 1]);
      }
    }
  }

  /** Exactly when a waiting task's pod always knows the PR that the task waits for, for any reads. */
  lemma {:induction false} PodKnowsPrExactly(spec: TaskSpec, acts: seq<Action>)
    requires HonestRun(spec, acts)
    ensures AlwaysKnows(spec, acts) <==> NeverMisinforms(spec, acts)
  {
    ProtocolInvAlways(spec, acts);
  }

  /** Then a task stored as Merged has a PR that a person has merged. */
  lemma {:induction false} MergedIsTrue(spec: TaskSpec, acts: seq<Action>)
    requires HonestRun(spec, acts) && NeverMisinforms(spec, acts)
    ensures var w := Run(spec, acts);
      Current(w).phase == Merged ==> Current(w).prUrl != "" && Current(w).prUrl in w.mergedPrs
  {
    ProtocolInvAlways(spec, acts);
  }

  /** In particular with fresh reads. */
  lemma {:induction false} FreshReadsNeverMisinform(spec: TaskSpec, acts: seq<Action>)
    requires FreshReads(acts)
    ensures NeverMisinforms(spec, acts)
  {
    if acts != [] {
      FreshReadsNeverMisinform(spec, acts[..|acts| - 1]);
    }
  }

  // ----- What people decide is what is stored

  /** A poll of a waiting task's worker, which has a PR to ask about. */
  predicate AsksAbout(spec: TaskSpec, s: Status, pods: map<string, Pod>, ans: Answers, l: W.PrLookup) {
    && (s.phase == Completed || s.phase == WaitingForPR) && s.prUrl != ""
    && ans.podGetAnswers && Ready(s.workerPod, pods)
    && spec.name in pods[s.workerPod].worker.statuses
    && pods[s.workerPod].worker.statuses[spec.name].prUrl != ""
    && ans.pr == W.PrStatusAnswer(pods[s.workerPod].worker, spec.name, l)
  }

  lemma VerdictDecided(spec: TaskSpec, s: Status, pods: map<string, Pod>, ans: Answers, l: W.PrLookup)
    requires AsksAbout(spec, s, pods, ans, l)
    ensures var d := DecideWaiting(s, pods, true, ans);
      if l.PullRequest? && l.merged then
        d.next == Some(s.(phase := Merged, prState := "merged")) && d.calls != [] && d.calls[0] == Graduate(s.workerPod)
      else if l.PullRequest? && l.state == "closed" then
        d.next == Some(s.(phase := Closed, prState := "closed")) && d.calls != [] && d.calls[0] == Graduate(s.workerPod)
      else
        && d.next == Some(s.(phase := WaitingForPR, prState := match l
                              case UnparsableUrl => "unknown"
                              case LookupFails => "error"
                              case PullRequest(_, state, _) => state))
        && d.calls == [WriteStatus(d.next.value, true)] && d.pods == pods && d.result == After(30)
  {
  }

  /** In every run: a served call on a waiting task whose pod answers stores what GitHub says of the PR.
      Merged and closed are stored after the graduate request; anything else is asked again in 30
      seconds, with nothing but the status touched. */
  lemma {:induction false} HumanVerdictIsStored(spec: TaskSpec, acts: seq<Action>, ans: Answers, l: W.PrLookup)
    requires AsksAbout(spec, Current(Run(spec, acts)), Run(spec, acts).pods, ans, l) && ans.writeAnswers
    ensures var w := Run(spec, acts);
      var s, after := Current(w), Run(spec, acts + [Reconcile(0, ans)]);
      && |after.calls| > |w.calls| && after.calls[..|w.calls|] == w.calls
      && if l.PullRequest? && l.merged then
           Current(after) == s.(phase := Merged, prState := "merged") && after.calls[|w.calls|] == Graduate(s.workerPod)
         else if l.PullRequest? && l.state == "closed" then
           Current(after) == s.(phase := Closed, prState := "closed") && after.calls[|w.calls|] == Graduate(s.workerPod)
         else
           && Current(after).phase == WaitingForPR && after.pods == w.pods
           && after.calls == w.calls + [WriteStatus(Current(after), true)]
           && (l.PullRequest? ==> Current(after) == s.(phase := WaitingForPR, prState := l.state))
           && Decide(spec, s, w.pods, true, ans).result == After(30)
  {
    var w := Run(spec, acts);
    RunExtended(spec, acts, Reconcile(0, ans));
    assert Snapshot(w, 0) == Current(w);
    VerdictDecided(spec, Current(w), w.pods, ans, l);
  }

  /** Without a PR, and when the pod cannot answer, a served call ends the task Closed, and changes
      nothing else of its status. */
  lemma {:induction false} ClosedWithoutVerdict(spec: TaskSpec, acts: seq<Action>, ans: Answers)
    requires var w := Run(spec, acts);
      var s := Current(w);
      && (s.phase == Completed || s.phase == WaitingForPR) && ans.writeAnswers
      && (s.prUrl == "" || !ans.podGetAnswers || !Ready(s.workerPod, w.pods))
    ensures Current(Run(spec, acts + [Reconcile(0, ans)])) == Current(Run(spec, acts)).(phase := Closed)
  {
    RunExtended(spec, acts, Reconcile(0, ans));
    assert Snapshot(Run(spec, acts), 0) == Current(Run(spec, acts));
  }
}
