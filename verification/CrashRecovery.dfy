/** Reconcile calls whose status update is lost, repeated until one is stored. */
module CrashRecovery {
  import opened Options
  import opened Operator

  function Lost(ans: Answers): Answers {
    ans.(writeAnswers := false)
  }

  function Stored(ans: Answers): Answers {
    ans.(writeAnswers := true)
  }

  /** The same environment answers `lost + 1` calls in a row; only the last update is stored. */
  function Repeated(spec: TaskSpec, w: World, ans: Answers, lost: nat): (after: World)
    requires w.versions != []
    ensures after.versions != []
    decreases lost
  {
    if lost == 0 then Reconciled(spec, w, 0, Stored(ans))
    else Repeated(spec, Reconciled(spec, w, 0, Lost(ans)), ans, lost - 1)
  }

  /** A human verdict on a PR that the call can act on, of which a lost update leaves no trace: the
      pod is deleted, and without it a later call cannot learn the verdict again. */
  predicate VerdictLost(s: Status, pods: map<string, Pod>, ans: Answers) {
    && (s.phase == Completed || s.phase == WaitingForPR)
    && s.prUrl != "" && ans.podGetAnswers && Ready(s.workerPod, pods) && ans.deleteAnswers
    && ans.pr.Some?
    && (ans.pr.value.merged || (ans.pr.value.state == "closed" && s.prState != "closed"))
  }

  predicate SameOutcome(d: Decision, e: Decision) {
    d.next == e.next && d.pods == e.pods
  }

  lemma FailedAgain(spec: TaskSpec, s: Status, pods: map<string, Pod>, ans: Answers)
    ensures var first := DecideFailed(spec, s, pods, false, Lost(ans));
      SameOutcome(DecideFailed(spec, s, first.pods, true, Stored(ans)), DecideFailed(spec, s, pods, true, Stored(ans)))
  {
  }

  lemma PendingAgain(spec: TaskSpec, s: Status, pods: map<string, Pod>, ans: Answers)
    ensures var first := DecidePending(spec, s, pods, false, Lost(ans));
      SameOutcome(DecidePending(spec, s, first.pods, true, Stored(ans)), DecidePending(spec, s, pods, true, Stored(ans)))
  {
  }

  lemma WaitingAgain(s: Status, pods: map<string, Pod>, ans: Answers)
    requires s.phase == Completed || s.phase == WaitingForPR
    ensures var first := DecideWaiting(s, pods, false, Lost(ans));
      && (SameOutcome(DecideWaiting(s, first.pods, true, Stored(ans)), DecideWaiting(s, pods, true, Stored(ans)))
          <==> !VerdictLost(s, pods, ans))
      && (VerdictLost(s, pods, ans) ==>
            && !VerdictLost(s, first.pods, ans)
            && DecideWaiting(s, first.pods, true, Stored(ans)).next == Some(s.(phase := Closed)))
      && (!VerdictLost(s, pods, ans) ==> !VerdictLost(s, first.pods, ans))
  {
  }

  /** After one lost update the next call decides as the first one would have, or the verdict is lost. */
  lemma DecidesAgain(spec: TaskSpec, s: Status, pods: map<string, Pod>, ans: Answers)
    ensures var first := Decide(spec, s, pods, false, Lost(ans));
      && (SameOutcome(Decide(spec, s, first.pods, true, Stored(ans)), Decide(spec, s, pods, true, Stored(ans)))
          <==> !VerdictLost(s, pods, ans))
      && !VerdictLost(s, first.pods, ans)
  {
    match s.phase
    case Pending => PendingAgain(spec, s, pods, ans);
    case Failed => FailedAgain(spec, s, pods, ans);
    case Completed => WaitingAgain(s, pods, ans);
    case WaitingForPR => WaitingAgain(s, pods, ans);
    case _ =>
  }

  lemma {:induction false} RepeatedFromSame(spec: TaskSpec, w: World, ans: Answers, lost: nat)
    requires w.versions != [] && !VerdictLost(Current(w), w.pods, ans)
    ensures var once, again := Reconciled(spec, w, 0, Stored(ans)), Repeated(spec, w, ans, lost);
      again.versions == once.versions && again.pods == once.pods
    decreases lost
  {
    if lost > 0 {
      DecidesAgain(spec, Current(w), w.pods, ans);
      RepeatedFromSame(spec, Reconciled(spec, w, 0, Lost(ans)), ans, lost - 1);
    }
  }

  /** Exactly when losing updates makes no difference: any positive number of lost updates, then a
      stored one, leaves the stored status and the pods of a single stored call, unless the call
      acted on a human verdict. So a retry is counted once and a created pod is adopted. */
  lemma {:induction false} LostWritesHarmlessExactly(spec: TaskSpec, w: World, ans: Answers, lost: nat)
    requires w.versions != [] && lost > 0
    ensures var once, again := Reconciled(spec, w, 0, Stored(ans)), Repeated(spec, w, ans, lost);
      (again.versions == once.versions && again.pods == once.pods) <==> !VerdictLost(Current(w), w.pods, ans)
  {
    var s := Current(w);
    DecidesAgain(spec, s, w.pods, ans);
    var next := Reconciled(spec, w, 0, Lost(ans));
    RepeatedFromSame(spec, next, ans, lost - 1);
    if VerdictLost(s, w.pods, ans) {
      WaitingAgain(s, w.pods, ans);
      var once := Reconciled(spec, w, 0, Stored(ans));
      var again := Repeated(spec, w, ans, lost);
      assert again.versions[|w.versions|] == s.(phase := Closed);
      assert once.versions[|w.versions|] != s.(phase := Closed);
    }
  }

  /** The verdict that is lost reads, in the end, as a PR closed because its worker is gone. */
  lemma {:induction false} LostVerdictReadsClosed(spec: TaskSpec, w: World, ans: Answers, lost: nat)
    requires w.versions != [] && lost > 0 && VerdictLost(Current(w), w.pods, ans)
    ensures Current(Repeated(spec, w, ans, lost)) == Current(w).(phase := Closed)
  {
    WaitingAgain(Current(w), w.pods, ans);
    var next := Reconciled(spec, w, 0, Lost(ans));
    RepeatedFromSame(spec, next, ans, lost - 1);
  }
}
