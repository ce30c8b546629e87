/** Runs that reach the bounds, and runs that show what stale reads can do. */
module Witnesses {
  import opened Options
  import opened PodNames
  import opened Operator
  import opened Lifecycle
  import opened Pods
  import opened Protocol
  import D = Drafts
  import Skills
  import A = Agent
  import M = Memory
  import W = Worker

  const SERVED := Answers(Some([]), true, true, None, None, true, true)

  /** What is asked of a run: nothing, honest polls, or honest polls and fresh reads. */
  datatype Mode = Anything | HonestPolls | HonestAndFresh

  ghost predicate InMode(spec: TaskSpec, acts: seq<Action>, mode: Mode) {
    && (mode != Anything ==> HonestRun(spec, acts))
    && (mode == HonestAndFresh ==> FreshReads(acts))
  }

  /** Where a run has got to. */
  datatype Point = Point(changes: nat, status: Status, pods: map<string, Pod>, merged: set<string>)

  const START := Point(0, NEW_STATUS, map[], {})

  ghost predicate Reaches(spec: TaskSpec, acts: seq<Action>, mode: Mode, p: Point) {
    var w := Run(spec, acts);
    && PhaseChanges(w.versions) == p.changes && Current(w) == p.status && w.pods == p.pods && w.mergedPrs == p.merged
    && InMode(spec, acts, mode)
  }

  lemma InModeExtended(spec: TaskSpec, acts: seq<Action>, mode: Mode, a: Action)
    requires InMode(spec, acts, mode) && (mode != Anything ==> Honest(spec, Run(spec, acts), a))
    requires mode == HonestAndFresh && a.Reconcile? ==> a.lag == 0
    ensures InMode(spec, acts + [a], mode)
  {
    assert (acts + [a])[..|acts|] == acts;
  }

  /** Only the operator removes pods, and it always can. */
  predicate Tame(acts: seq<Action>) {
    NoPodLost(acts) && DeletesServed(acts)
  }

  // ----- Steps of a run

  /** After a call that reads the current status and stores one. */
  function After(spec: TaskSpec, p: Point, ans: Answers): Point
    requires Decide(spec, p.status, p.pods, true, ans).next.Some?
  {
    var d := Decide(spec, p.status, p.pods, true, ans);
    Point(p.changes + (if d.next.value.phase != p.status.phase then 1 else 0), d.next.value, d.pods, p.merged)
  }

  lemma DraftsExtended(spec: TaskSpec, acts: seq<Action>, a: Action)
    ensures D.TaskDrafts(spec, acts + [a]) == D.TaskDrafts(spec, acts) + D.Asks(Run(spec, acts), a)
  {
    assert (acts + [a])[..|acts|] == acts;
  }

  lemma Called(spec: TaskSpec, acts: seq<Action>, mode: Mode, p: Point, ans: Answers) returns (longer: seq<Action>)
    requires Reaches(spec, acts, mode, p) && ans.writeAnswers
    requires mode != Anything ==> HonestAnswers(spec, p.status, p.pods, p.merged, ans)
    requires Decide(spec, p.status, p.pods, true, ans).next.Some?
    ensures acts <= longer && Reaches(spec, longer, mode, After(spec, p, ans))
    ensures Run(spec, longer).calls == Run(spec, acts).calls + Decide(spec, p.status, p.pods, true, ans).calls
    ensures Tame(acts) && ans.deleteAnswers ==> Tame(longer)
    ensures D.TaskDrafts(spec, longer) == D.TaskDrafts(spec, acts)
  {
    var w, d := Run(spec, acts), Decide(spec, p.status, p.pods, true, ans);
    longer := acts + [Reconcile(0, ans)];
    RunExtended(spec, acts, Reconcile(0, ans));
    InModeExtended(spec, acts, mode, Reconcile(0, ans));
    DraftsExtended(spec, acts, Reconcile(0, ans));
    ChangeCounted(w.versions, d.next.value);
  }

  /** A call that polls nobody is honest. */
  lemma ServedIsHonest(spec: TaskSpec, s: Status, pods: map<string, Pod>, merged: set<string>)
    ensures HonestAnswers(spec, s, pods, merged, SERVED)
  {
  }

  lemma Moved(spec: TaskSpec, acts: seq<Action>, mode: Mode, p: Point, name: string, pod: Pod)
    returns (longer: seq<Action>)
    requires Reaches(spec, acts, mode, p) && name in p.pods && (mode != Anything ==> PodEvolves(p.pods[name], pod))
    ensures acts <= longer && Reaches(spec, longer, mode, p.(pods := p.pods[name := pod]))
    ensures Tame(acts) ==> Tame(longer)
    ensures D.TaskDrafts(spec, longer) == D.TaskDrafts(spec, acts) + pod.worker.drafts - p.pods[name].worker.drafts
  {
    hide PodEvolves;
    longer := acts + [PodMoves(name, pod)];
    RunExtended(spec, acts, PodMoves(name, pod));
    DraftsExtended(spec, acts, PodMoves(name, pod));
    InModeExtended(spec, acts, mode, PodMoves(name, pod));
  }

  lemma Vanished(spec: TaskSpec, acts: seq<Action>, mode: Mode, p: Point, name: string) returns (longer: seq<Action>)
    requires Reaches(spec, acts, mode, p)
    ensures acts <= longer && Reaches(spec, longer, mode, p.(pods := p.pods - {name}))
    ensures D.TaskDrafts(spec, longer) == D.TaskDrafts(spec, acts)
  {
    longer := acts + [PodLost(name)];
    DraftsExtended(spec, acts, PodLost(name));
    RunExtended(spec, acts, PodLost(name));
    InModeExtended(spec, acts, mode, PodLost(name));
  }

  lemma PrMerged(spec: TaskSpec, acts: seq<Action>, mode: Mode, p: Point, url: string) returns (longer: seq<Action>)
    requires Reaches(spec, acts, mode, p)
    ensures acts <= longer && Reaches(spec, longer, mode, p.(merged := p.merged + {url}))
  {
    longer := acts + [HumanMerges(url)];
    RunExtended(spec, acts, HumanMerges(url));
    InModeExtended(spec, acts, mode, HumanMerges(url));
  }

  // ----- Attempts

  function PendingStatus(retry: nat, reason: FailureReason, url: string): Status {
    NEW_STATUS.(phase := Pending, retryCount := retry, lastFailure := reason, prUrl := url)
  }

  function RunningStatus(spec: TaskSpec, retry: nat, reason: FailureReason, url: string): Status {
    PendingStatus(retry, reason, url).(phase := Running, progress := 5, workerPod := PodName(spec.name, retry),
                                       started := true)
  }

  function FirstPod(spec: TaskSpec, retry: nat, url: string): Pod {
    NewPod(PayloadFor(spec, PendingStatus(retry, NoReason, url), []))
  }

  /** Pending with no pod, and Running with a new one. */
  function PendingPoint(changes: nat, retry: nat, reason: FailureReason, url: string): Point {
    Point(changes, PendingStatus(retry, reason, url), map[], {})
  }

  function RunningPoint(spec: TaskSpec, changes: nat, retry: nat, reason: FailureReason, url: string): Point {
    Point(changes, RunningStatus(spec, retry, reason, url), map[PodName(spec.name, retry) := FirstPod(spec, retry, url)], {})
  }

  lemma StartAttempt(spec: TaskSpec, acts: seq<Action>, mode: Mode, changes: nat, retry: nat, reason: FailureReason,
                     url: string) returns (longer: seq<Action>)
    requires Reaches(spec, acts, mode, PendingPoint(changes, retry, reason, url))
    ensures acts <= longer && Reaches(spec, longer, mode, RunningPoint(spec, changes + 1, retry, reason, url))
    ensures PodName(spec.name, retry) in CreatedNames(Run(spec, longer).calls)
    ensures Tame(acts) ==> Tame(longer)
    ensures D.TaskDrafts(spec, longer) == D.TaskDrafts(spec, acts)
  {
    var p := PendingPoint(changes, retry, reason, url);
    longer := Called(spec, acts, mode, p, SERVED);
    var calls := Decide(spec, p.status, p.pods, true, SERVED).calls;
    CreatedNamesAppend(Run(spec, acts).calls, calls);
    assert CreatedNames(calls)[0] == PodName(spec.name, retry);
  }

  /** A failed attempt is retried, and its pod deleted. */
  lemma Retry(spec: TaskSpec, acts: seq<Action>, mode: Mode, changes: nat, s: Status, pod: Pod)
    returns (longer: seq<Action>)
    requires s.phase == Failed && s.workerPod != "" && s.retryCount < MaxRetries(spec)
    requires Reaches(spec, acts, mode, Point(changes, s, map[s.workerPod := pod], {}))
    ensures acts <= longer && Reaches(spec, longer, mode, Point(changes + 1, Retried(s), map[], {}))
    ensures Tame(acts) ==> Tame(longer)
  {
    longer := Called(spec, acts, mode, Point(changes, s, map[s.workerPod := pod], {}), SERVED);
    assert map[s.workerPod := pod] - {s.workerPod} == map[];
  }

  /** A pod changes, and a call sees it. */
  lemma MovedThenCalled(spec: TaskSpec, acts: seq<Action>, mode: Mode, p: Point, pod: Pod, ans: Answers)
    returns (longer: seq<Action>)
    requires Reaches(spec, acts, mode, p) && p.status.workerPod in p.pods && ans.writeAnswers
    requires p.pods.Keys == {p.status.workerPod}
    requires mode != Anything ==>
      && PodEvolves(p.pods[p.status.workerPod], pod)
      && HonestAnswers(spec, p.status, map[p.status.workerPod := pod], p.merged, ans)
    requires Decide(spec, p.status, map[p.status.workerPod := pod], true, ans).next.Some?
    ensures acts <= longer
    ensures Reaches(spec, longer, mode, After(spec, p.(pods := map[p.status.workerPod := pod]), ans))
    ensures Tame(acts) && ans.deleteAnswers ==> Tame(longer)
  {
    longer := Moved(spec, acts, mode, p, p.status.workerPod, pod);
    assert p.pods[p.status.workerPod := pod] == map[p.status.workerPod := pod];
    longer := Called(spec, longer, mode, p.(pods := map[p.status.workerPod := pod]), ans);
  }

  /** An attempt whose pod fails, up to the next Pending. */
  lemma FailAttempt(spec: TaskSpec, acts: seq<Action>, mode: Mode, changes: nat, retry: nat, reason: FailureReason)
    returns (longer: seq<Action>)
    requires retry < MaxRetries(spec) && Reaches(spec, acts, mode, RunningPoint(spec, changes, retry, reason, ""))
    ensures acts <= longer && Reaches(spec, longer, mode, PendingPoint(changes + 2, retry + 1, PodFailure, ""))
    ensures Tame(acts) ==> Tame(longer)
  {
    var p, pod := RunningPoint(spec, changes, retry, reason, ""), FirstPod(spec, retry, "").(phase := PodFailed);
    ServedIsHonest(spec, p.status, map[p.status.workerPod := pod], p.merged);
    longer := MovedThenCalled(spec, acts, mode, p, pod, SERVED);
    longer := Retry(spec, longer, mode, changes + 1, Failing(p.status, PodFailure), pod);
  }

  lemma FailedRound(spec: TaskSpec, acts: seq<Action>, mode: Mode, changes: nat, retry: nat, reason: FailureReason)
    returns (longer: seq<Action>)
    requires retry < MaxRetries(spec) && Reaches(spec, acts, mode, PendingPoint(changes, retry, reason, ""))
    ensures acts <= longer && Reaches(spec, longer, mode, PendingPoint(changes + 3, retry + 1, PodFailure, ""))
  {
    longer := StartAttempt(spec, acts, mode, changes, retry, reason, "");
    longer := FailAttempt(spec, longer, mode, changes + 1, retry, reason);
  }

  lemma FirstPending(spec: TaskSpec, mode: Mode) returns (acts: seq<Action>)
    ensures Reaches(spec, acts, mode, PendingPoint(1, 0, NoReason, "")) && Tame(acts)
    ensures D.TaskDrafts(spec, acts) == 0
  {
    acts := Called(spec, [], mode, START, SERVED);
  }

  lemma {:induction false} ReachPending(spec: TaskSpec, mode: Mode, retry: nat)
    returns (acts: seq<Action>, reason: FailureReason)
    requires retry <= Budget(spec)
    ensures Reaches(spec, acts, mode, PendingPoint(1 + 3 * retry, retry, reason, ""))
  {
    if retry == 0 {
      acts := FirstPending(spec, mode);
      reason := NoReason;
    } else {
      acts, reason := ReachPending(spec, mode, retry - 1);
      acts := FailedRound(spec, acts, mode, 1 + 3 * (retry - 1), retry - 1, reason);
      reason := PodFailure;
    }
  }

  // ----- Workers that come to an end

  /** A run that stages changes and succeeds, or stages nothing; it may create the PR `url`. */
  function ScriptFor(succeeds: bool, url: string): A.Script {
    var answer := A.LlmResult(false, if succeeds then {"code_edit"} else {});
    A.Script(0.0, None, [A.StreamEnds([], A.Invocation.Answers(answer))], None, succeeds, A.Failure(false, false, false),
             None, A.CreateReply.Created(url), "", 0.0, M.BulkReply({}, false))
  }

  const NO_MEMORY := M.Indices([], [])

  lemma ScriptOutcome(req: A.Request, succeeds: bool, url: string)
    ensures A.Outcome(req, ScriptFor(succeeds, url), NO_MEMORY).steps == A.Reported(A.TaskStatus(
              if succeeds then A.Succeeded else A.Incomplete, 100, if req.prUrl != "" then req.prUrl else url, false, false))
  {
    var s := ScriptFor(succeeds, url);
    assert A.RunAttempts(req, 0.0, A.Memo([], [], NO_MEMORY), None, s.attempts, 0, 0).llm
        == A.Answered(s.attempts[0].invocation.result);
  }

  function RecordFor(req: A.Request, succeeds: bool, url: string): A.TaskStatus {
    A.TaskStatus(if succeeds then A.Succeeded else A.Incomplete, 100, if req.prUrl != "" then req.prUrl else url, false, false)
  }

  /** A new pod that has come up and booted its worker. */
  function Booted(pod: Pod): Pod {
    pod.(phase := PodRunning, hasIP := true, worker := W.Step(pod.worker, W.Boot(RequestOf(pod.payload))))
  }

  /** ... and whose worker has then ended its task. */
  function Finished(pod: Pod, succeeds: bool, url: string): Pod {
    Booted(pod).(worker := W.Step(Booted(pod).worker, W.Finish(0, ScriptFor(succeeds, url), NO_MEMORY)))
  }

  lemma FinishedRecord(pod: Pod, succeeds: bool, url: string)
    requires pod.worker == W.FRESH_WORKER
    ensures var id := pod.payload.taskId;
      && Booted(pod).worker.statuses == map[id := W.RUNNING_STATUS]
      && Finished(pod, succeeds, url).worker.statuses == map[id := RecordFor(RequestOf(pod.payload), succeeds, url)]
      && Booted(pod).worker.drafts == 0
      && Finished(pod, succeeds, url).worker.drafts == (if pod.payload.prUrl == "" then 1 else 0)
  {
    ScriptOutcome(RequestOf(pod.payload), succeeds, url);
  }

  lemma PodBoots(spec: TaskSpec, acts: seq<Action>, mode: Mode, p: Point, name: string, pod: Pod)
    returns (longer: seq<Action>)
    requires Reaches(spec, acts, mode, p) && p.pods == map[name := pod] && pod.phase == PodPending
    ensures acts <= longer && Reaches(spec, longer, mode, p.(pods := map[name := Booted(pod)]))
    ensures D.TaskDrafts(spec, longer) == D.TaskDrafts(spec, acts) + Booted(pod).worker.drafts - pod.worker.drafts
  {
    assert W.OperatorDriven(W.Boot(RequestOf(pod.payload)), RequestOf(pod.payload));
    assert PodEvolves(pod, Booted(pod));
    longer := Moved(spec, acts, mode, p, name, Booted(pod));
    assert p.pods[name := Booted(pod)] == map[name := Booted(pod)];
  }

  lemma WorkerEnds(spec: TaskSpec, acts: seq<Action>, mode: Mode, p: Point, name: string, pod: Pod, succeeds: bool,
                   url: string) returns (longer: seq<Action>)
    requires Reaches(spec, acts, mode, p) && p.pods == map[name := Booted(pod)]
    ensures acts <= longer && Reaches(spec, longer, mode, p.(pods := map[name := Finished(pod, succeeds, url)]))
    ensures D.TaskDrafts(spec, longer) == D.TaskDrafts(spec, acts) + Finished(pod, succeeds, url).worker.drafts - Booted(pod).worker.drafts
  {
    var e := W.Finish(0, ScriptFor(succeeds, url), NO_MEMORY);
    assert W.OperatorDriven(e, RequestOf(pod.payload));
    assert PodEvolves(Booted(pod), Finished(pod, succeeds, url));
    longer := Moved(spec, acts, mode, p, name, Finished(pod, succeeds, url));
    assert p.pods[name := Finished(pod, succeeds, url)] == map[name := Finished(pod, succeeds, url)];
  }

  lemma RunsToEnd(spec: TaskSpec, acts: seq<Action>, mode: Mode, p: Point, name: string, first: Pod, succeeds: bool,
                  url: string) returns (longer: seq<Action>)
    requires Reaches(spec, acts, mode, p) && p.pods == map[name := first] && first.phase == PodPending
    ensures acts <= longer && Reaches(spec, longer, mode, p.(pods := map[name := Finished(first, succeeds, url)]))
    ensures D.TaskDrafts(spec, longer)
         == D.TaskDrafts(spec, acts) + Finished(first, succeeds, url).worker.drafts - first.worker.drafts
  {
    longer := PodBoots(spec, acts, mode, p, name, first);
    longer := WorkerEnds(spec, longer, mode, p.(pods := map[name := Booted(first)]), name, first, succeeds, url);
  }

  /** A poll that finds the record of an ended worker. */
  lemma RecordPolled(spec: TaskSpec, acts: seq<Action>, mode: Mode, p: Point, pod: Pod, record: A.TaskStatus)
    returns (longer: seq<Action>)
    requires Reaches(spec, acts, mode, p) && p.pods == map[p.status.workerPod := pod] && p.status.phase == Running
    requires pod.phase == PodRunning && pod.hasIP && pod.worker.statuses == map[spec.name := record]
    ensures acts <= longer
    ensures var t := Polled(p.status, record);
      Reaches(spec, longer, mode, p.(status := t, changes := p.changes + (if t.phase != Running then 1 else 0)))
  {
    longer := Called(spec, acts, mode, p, SERVED.(status := Some(record)));
  }

  /** A running attempt whose worker ends and is polled. */
  lemma EndAttempt(spec: TaskSpec, acts: seq<Action>, mode: Mode, changes: nat, retry: nat, reason: FailureReason,
                   succeeds: bool, url: string) returns (longer: seq<Action>)
    requires Reaches(spec, acts, mode, RunningPoint(spec, changes, retry, reason, "")) && url != ""
    ensures acts <= longer
    ensures var s := RunningStatus(spec, retry, reason, "");
      var pod := Finished(FirstPod(spec, retry, ""), succeeds, url);
      Reaches(spec, longer, mode,
              Point(changes + 1, Polled(s, RecordFor(RequestOf(pod.payload), succeeds, url)), map[s.workerPod := pod], {}))
  {
    var p := RunningPoint(spec, changes, retry, reason, "");
    var name, first := p.status.workerPod, FirstPod(spec, retry, "");
    var pod := Finished(first, succeeds, url);
    longer := RunsToEnd(spec, acts, mode, p, name, first, succeeds, url);
    FinishedRecord(first, succeeds, url);
    longer := RecordPolled(spec, longer, mode, p.(pods := map[name := pod]), pod,
                           RecordFor(RequestOf(pod.payload), succeeds, url));
  }

  function MergedAnswer(url: string): Answers {
    SERVED.(pr := Some(W.PrStatus(url, "merged", true, false)))
  }

  /** The PR that the worker reports is merged, and a call sees it. */
  lemma MergePr(spec: TaskSpec, acts: seq<Action>, mode: Mode, p: Point, pod: Pod, url: string)
    returns (longer: seq<Action>)
    requires Reaches(spec, acts, mode, p) && p.pods == map[p.status.workerPod := pod]
    requires p.status.phase == WaitingForPR && p.status.prUrl != "" && pod.phase == PodRunning && pod.hasIP
    requires spec.name in pod.worker.statuses && pod.worker.statuses[spec.name].prUrl == url && url != ""
    ensures acts <= longer
    ensures Reaches(spec, longer, mode,
                    Point(p.changes + 1, p.status.(phase := Merged, prState := "merged"), map[], p.merged + {url}))
  {
    longer := PrMerged(spec, acts, mode, p, url);
    var ans, merged := MergedAnswer(url), p.(merged := p.merged + {url});
    var l := W.PullRequest(true, "closed", false);
    assert TruthfulLookup(merged.merged, url, l) && ans.pr == W.PrStatusAnswer(pod.worker, spec.name, l);
    longer := Called(spec, longer, mode, merged, ans);
    assert p.pods - {p.status.workerPod} == map[];
  }

  // ----- The bounds on phase changes are met

  /** Some honest run with fresh reads stores exactly 3M + 4 phase changes. */
  lemma FreshBoundIsMet(spec: TaskSpec)
    ensures exists acts :: HonestRun(spec, acts) && FreshReads(acts)
                           && PhaseChanges(Run(spec, acts).versions) == 3 * Budget(spec) + 4
  {
    var m := Budget(spec);
    var acts, reason := ReachPending(spec, HonestAndFresh, m);
    acts := StartAttempt(spec, acts, HonestAndFresh, 1 + 3 * m, m, reason, "");
    acts := EndAttempt(spec, acts, HonestAndFresh, 2 + 3 * m, m, reason, true, "pr");
    var pod := Finished(FirstPod(spec, m, ""), true, "pr");
    FinishedRecord(FirstPod(spec, m, ""), true, "pr");
    var s := Polled(RunningStatus(spec, m, reason, ""), RecordFor(RequestOf(pod.payload), true, "pr"));
    acts := MergePr(spec, acts, HonestAndFresh, Point(3 + 3 * m, s, map[s.workerPod := pod], {}), pod, "pr");
  }

  function Polling(url: string): Answers {
    SERVED.(status := Some(A.TaskStatus(A.Running, 50, url, false, false)))
  }

  function Verdict(merged: bool): Answers {
    SERVED.(pr := Some(W.PrStatus("pr", if merged then "merged" else "open", merged, false)))
  }

  /** A running worker names a PR, and its pod ends. */
  lemma CompleteWithPr(spec: TaskSpec, acts: seq<Action>, changes: nat, retry: nat, reason: FailureReason)
    returns (longer: seq<Action>)
    requires Reaches(spec, acts, Anything, RunningPoint(spec, changes, retry, reason, ""))
    ensures var s := RunningStatus(spec, retry, reason, "pr").(phase := Completed, progress := 100, completed := true);
      var pod := FirstPod(spec, retry, "").(phase := PodSucceeded, hasIP := true);
      Reaches(spec, longer, Anything, Point(changes + 1, s, map[s.workerPod := pod], {}))
  {
    var p := RunningPoint(spec, changes, retry, reason, "");
    var up := FirstPod(spec, retry, "").(phase := PodRunning, hasIP := true);
    longer := MovedThenCalled(spec, acts, Anything, p, up, Polling("pr"));
    var polled := Point(changes, RunningStatus(spec, retry, reason, "pr").(progress := 50), map[p.status.workerPod := up], {});
    longer := MovedThenCalled(spec, longer, Anything, polled, up.(phase := PodSucceeded), SERVED);
  }

  /** The ended pod runs again: the PR is open, and then merged. */
  lemma DecidePr(spec: TaskSpec, acts: seq<Action>, p: Point, pod: Pod) returns (longer: seq<Action>)
    requires Reaches(spec, acts, Anything, p) && p.pods == map[p.status.workerPod := pod]
    requires p.status.phase == Completed && p.status.prUrl != "" && pod.hasIP
    ensures PhaseChanges(Run(spec, longer).versions) == p.changes + 2
  {
    var q := p.(pods := p.pods[p.status.workerPod := pod.(phase := PodRunning)]);
    longer := Moved(spec, acts, Anything, p, p.status.workerPod, pod.(phase := PodRunning));
    longer := Called(spec, longer, Anything, q, Verdict(false));
    longer := Called(spec, longer, Anything, After(spec, q, Verdict(false)), Verdict(true));
  }

  /** In an environment that may do anything, some run of any task stores exactly 3M + 5. */
  lemma PhaseBoundIsMet(spec: TaskSpec)
    ensures exists acts :: PhaseChanges(Run(spec, acts).versions) == 3 * Budget(spec) + 5
  {
    var m := Budget(spec);
    var acts, reason := ReachPending(spec, Anything, m);
    acts := StartAttempt(spec, acts, Anything, 1 + 3 * m, m, reason, "");
    acts := CompleteWithPr(spec, acts, 2 + 3 * m, m, reason);
    var s := RunningStatus(spec, m, reason, "pr").(phase := Completed, progress := 100, completed := true);
    var pod := FirstPod(spec, m, "").(phase := PodSucceeded, hasIP := true);
    acts := DecidePr(spec, acts, Point(3 + 3 * m, s, map[s.workerPod := pod], {}), pod);
  }

  // ----- Stale reads

  lemma {:induction false} HistoryKept(spec: TaskSpec, acts: seq<Action>, longer: seq<Action>)
    requires acts <= longer
    ensures Run(spec, acts).versions <= Run(spec, longer).versions
    ensures Run(spec, acts).calls <= Run(spec, longer).calls
    decreases longer
  {
    if acts == longer {
    } else {
      var before := longer[..|longer| - 1];
      assert acts <= before;
      HistoryKept(spec, acts, before);
    }
  }

  /** A call on an old Pending snapshot creates that attempt's pod and stores nothing. */
  lemma RespawnCall(spec: TaskSpec, w: World, lag: nat, s: Status)
    requires w.versions != [] && lag > 0 && Snapshot(w, lag) == s && s.phase == Pending && OwnName(spec, s) !in w.pods
    ensures var pod := NewPod(PayloadFor(spec, s, []));
      Reconciled(spec, w, lag, SERVED) ==
        w.(pods := w.pods[OwnName(spec, s) := pod],
           calls := w.calls + [CreatePod(OwnName(spec, s), pod.payload, Created),
                               WriteStatus(s.(phase := Running, progress := 5, workerPod := OwnName(spec, s), started := true), false)])
  {
  }

  lemma OneCreated(calls: seq<Call>, name: string, payload: Payload, s: Status)
    ensures CreatedNames(calls + [CreatePod(name, payload, Created), WriteStatus(s, false)]) == CreatedNames(calls) + [name]
  {
    var more := [CreatePod(name, payload, Created), WriteStatus(s, false)];
    CreatedNamesAppend(calls, more);
    assert more[1..] == [WriteStatus(s, false)];
    NothingCreated(more[1..]);
  }

  /** A stale read of a Pending status creates the pod of its attempt, if that pod is not there. */
  lemma Respawned(spec: TaskSpec, early: seq<Action>, acts: seq<Action>, mode: Mode, retry: nat, reason: FailureReason,
                  url: string, p: Point) returns (longer: seq<Action>)
    requires mode != HonestAndFresh && early <= acts && Reaches(spec, acts, mode, p)
    requires Current(Run(spec, early)) == PendingStatus(retry, reason, url) && p.status != PendingStatus(retry, reason, url)
    requires PodName(spec.name, retry) !in p.pods
    ensures acts <= longer
    ensures Reaches(spec, longer, mode, p.(pods := p.pods[PodName(spec.name, retry) := FirstPod(spec, retry, url)]))
    ensures CreatedNames(Run(spec, longer).calls) == CreatedNames(Run(spec, acts).calls) + [PodName(spec.name, retry)]
    ensures Tame(acts) ==> Tame(longer)
  {
    hide PodName, Decide;
    var lag := OldSnapshot(spec, early, acts);
    longer := StaleCalled(spec, acts, mode, lag);
    RespawnStep(spec, Run(spec, acts), lag, retry, reason, url);
  }

  lemma StaleCalled(spec: TaskSpec, acts: seq<Action>, mode: Mode, lag: nat) returns (longer: seq<Action>)
    requires InMode(spec, acts, mode) && mode != HonestAndFresh
    ensures acts <= longer && InMode(spec, longer, mode)
    ensures Run(spec, longer) == Act(spec, Run(spec, acts), Reconcile(lag, SERVED))
    ensures Tame(acts) ==> Tame(longer)
  {
    longer := acts + [Reconcile(lag, SERVED)];
    RunExtended(spec, acts, Reconcile(lag, SERVED));
    ServedIsHonest(spec, Snapshot(Run(spec, acts), lag), Run(spec, acts).pods, Run(spec, acts).mergedPrs);
    InModeExtended(spec, acts, mode, Reconcile(lag, SERVED));
  }

  lemma RespawnStep(spec: TaskSpec, w: World, lag: nat, retry: nat, reason: FailureReason, url: string)
    requires w.versions != [] && lag > 0 && Snapshot(w, lag) == PendingStatus(retry, reason, url)
    requires PodName(spec.name, retry) !in w.pods
    ensures var after := Act(spec, w, Reconcile(lag, SERVED));
      && after.versions == w.versions && after.mergedPrs == w.mergedPrs
      && after.pods == w.pods[PodName(spec.name, retry) := FirstPod(spec, retry, url)]
      && CreatedNames(after.calls) == CreatedNames(w.calls) + [PodName(spec.name, retry)]
  {
    var s := PendingStatus(retry, reason, url);
    RespawnCall(spec, w, lag, s);
    OneCreated(w.calls, OwnName(spec, s), PayloadFor(spec, s, []),
               s.(phase := Running, progress := 5, workerPod := OwnName(spec, s), started := true));
  }

  /** What a run has stored once can be read again later. */
  lemma OldSnapshot(spec: TaskSpec, early: seq<Action>, acts: seq<Action>) returns (lag: nat)
    requires early <= acts
    ensures Snapshot(Run(spec, acts), lag) == Current(Run(spec, early))
  {
    HistoryKept(spec, early, acts);
    lag := |Run(spec, acts).versions| - |Run(spec, early).versions|;
  }

  /** An earlier attempt's pod has been created a second time, and lives beside a later attempt. */
  ghost predicate PodRevived(spec: TaskSpec, acts: seq<Action>) {
    var w := Run(spec, acts);
    && Current(w).retryCount == 1 && PodName(spec.name, 0) in w.pods
    && !Skills.NoDuplicates(CreatedNames(w.calls))
  }

  /** In some honest run, with every deletion served and no pod lost, a stale read does that. */
  lemma StaleReadRevivesPod(spec: TaskSpec)
    requires Budget(spec) > 0
    ensures exists acts :: HonestRun(spec, acts) && Tame(acts) && PodRevived(spec, acts)
  {
    var early := FirstPending(spec, HonestPolls);
    var first := StartAttempt(spec, early, HonestPolls, 1, 0, NoReason, "");
    var acts := FailAttempt(spec, first, HonestPolls, 2, 0, NoReason);
    HistoryKept(spec, first, acts);
    CreatedKept(Run(spec, first).calls, Run(spec, acts).calls, PodName(spec.name, 0));
    var longer := Respawned(spec, early, acts, HonestPolls, 0, NoReason, "", PendingPoint(4, 1, PodFailure, ""));
    TwiceIsDuplicate(CreatedNames(Run(spec, acts).calls), PodName(spec.name, 0));
    assert PodRevived(spec, longer);
  }

  lemma CreatedKept(calls: seq<Call>, more: seq<Call>, name: string)
    requires calls <= more && name in CreatedNames(calls)
    ensures name in CreatedNames(more)
  {
    assert more == calls + more[|calls|..];
    CreatedNamesAppend(calls, more[|calls|..]);
  }

  lemma TwiceIsDuplicate(names: seq<string>, name: string)
    requires name in names
    ensures !Skills.NoDuplicates(names + [name])
  {
    var i :| 0 <= i < |names| && names[i] == name;
    assert (names + [name])[i] == (names + [name])[|names|];
  }

  /** In some honest run a stale read makes a task Merged although the stored PR was never merged: the
      revived worker has opened another PR. */
  lemma StaleReadMergesOther(spec: TaskSpec)
    ensures exists acts :: HonestRun(spec, acts) && Current(Run(spec, acts)).phase == Merged
                           && Current(Run(spec, acts)).prUrl !in Run(spec, acts).mergedPrs
  {
    var acts, p := WaitAndRespawn(spec);
    acts := OtherMerged(spec, acts, p, FirstPod(spec, 0, ""));
  }

  /** The first attempt succeeds, its pod is lost, and a stale read creates it again. */
  lemma WaitAndRespawn(spec: TaskSpec) returns (acts: seq<Action>, p: Point)
    ensures Reaches(spec, acts, HonestPolls, p) && p.merged == {}
    ensures p.status.phase == WaitingForPR && p.status.prUrl == "pr"
    ensures p.pods == map[p.status.workerPod := FirstPod(spec, 0, "")]
  {
    var early := FirstPending(spec, HonestPolls);
    acts := StartAttempt(spec, early, HonestPolls, 1, 0, NoReason, "");
    acts := EndAttempt(spec, acts, HonestPolls, 2, 0, NoReason, true, "pr");
    var name, first := PodName(spec.name, 0), FirstPod(spec, 0, "");
    var s := Polled(RunningStatus(spec, 0, NoReason, ""), RecordFor(RequestOf(first.payload), true, "pr"));
    p := Point(3, s, map[name := Finished(first, true, "pr")], {});
    acts := Vanished(spec, acts, HonestPolls, p, name);
    p := p.(pods := p.pods - {name});
    acts := Respawned(spec, early, acts, HonestPolls, 0, NoReason, "", p);
    p := p.(pods := p.pods[name := first]);
    assert p.pods == map[name := first];
  }

  /** The new pod of a waiting task boots, opens a PR of its own, and sees that one merged. */
  lemma OtherMerged(spec: TaskSpec, acts: seq<Action>, p: Point, first: Pod) returns (longer: seq<Action>)
    requires Reaches(spec, acts, HonestPolls, p) && p.pods == map[p.status.workerPod := first] && p.merged == {}
    requires p.status.phase == WaitingForPR && p.status.prUrl != "" && p.status.prUrl != "other"
    requires first.payload.prUrl == "" && first.payload.taskId == spec.name
    requires first.worker == W.FRESH_WORKER && first.phase == PodPending
    ensures HonestRun(spec, longer) && Current(Run(spec, longer)).phase == Merged
    ensures Current(Run(spec, longer)).prUrl !in Run(spec, longer).mergedPrs
  {
    var name, other := p.status.workerPod, Finished(first, true, "other");
    longer := PodBoots(spec, acts, HonestPolls, p, name, first);
    longer := WorkerEnds(spec, longer, HonestPolls, p.(pods := map[name := Booted(first)]), name, first, true, "other");
    FinishedRecord(first, true, "other");
    longer := MergePr(spec, longer, HonestPolls, p.(pods := map[name := other]), other, "other");
  }

  /** With retries, honest runs that read stale statuses reach 3M + 5 too: the last attempt, which was
      given a PR, completes without a report, and is started again by a stale read. */
  lemma StaleReadsMeetTheBound(spec: TaskSpec)
    requires Budget(spec) > 0
    ensures exists acts :: HonestRun(spec, acts) && PhaseChanges(Run(spec, acts).versions) == 3 * Budget(spec) + 5
  {
    var m := Budget(spec);
    var early := ReachRetryWithPr(spec);
    var acts := StartAttempt(spec, early, HonestPolls, 1 + 3 * m, m, IncompleteRun, "pr");
    var p := RunningPoint(spec, 2 + 3 * m, m, IncompleteRun, "pr");
    acts, p := CompleteAndRespawn(spec, early, acts, p, m, IncompleteRun);
    acts := ReviveAndMerge(spec, acts, p, FirstPod(spec, m, "pr"));
  }

  /** The attempt's pod succeeds without a report and is lost, and a stale read creates it again. */
  lemma CompleteAndRespawn(spec: TaskSpec, early: seq<Action>, acts: seq<Action>, p: Point, retry: nat,
                           reason: FailureReason) returns (longer: seq<Action>, q: Point)
    requires early <= acts && Current(Run(spec, early)) == PendingStatus(retry, reason, "pr")
    requires p == RunningPoint(spec, p.changes, retry, reason, "pr") && Reaches(spec, acts, HonestPolls, p)
    ensures Reaches(spec, longer, HonestPolls, q) && q.changes == p.changes + 1
    ensures q.status.phase == Completed && q.status.prUrl == "pr"
    ensures q.pods == map[q.status.workerPod := FirstPod(spec, retry, "pr")]
  {
    var name, first := p.status.workerPod, FirstPod(spec, retry, "pr");
    longer := Moved(spec, acts, HonestPolls, p, name, first.(phase := PodSucceeded));
    q := p.(pods := p.pods[name := first.(phase := PodSucceeded)]);
    longer := Called(spec, longer, HonestPolls, q, SERVED);
    q := After(spec, q, SERVED);
    longer := Vanished(spec, longer, HonestPolls, q, name);
    q := q.(pods := q.pods - {name});
    longer := Respawned(spec, early, longer, HonestPolls, retry, reason, "pr", q);
    q := q.(pods := q.pods[name := first]);
    assert q.pods == map[name := first];
  }

  lemma ReachRetryWithPr(spec: TaskSpec) returns (acts: seq<Action>)
    requires Budget(spec) > 0
    ensures Reaches(spec, acts, HonestPolls, PendingPoint(1 + 3 * Budget(spec), Budget(spec), IncompleteRun, "pr"))
  {
    var k, reason := Budget(spec) - 1, NoReason;
    acts, reason := ReachPending(spec, HonestPolls, k);
    acts := StartAttempt(spec, acts, HonestPolls, 1 + 3 * k, k, reason, "");
    acts := EndAttempt(spec, acts, HonestPolls, 2 + 3 * k, k, reason, false, "pr");
    var pod := Finished(FirstPod(spec, k, ""), false, "pr");
    var s := Polled(RunningStatus(spec, k, reason, ""), RecordFor(RequestOf(pod.payload), false, "pr"));
    acts := Retry(spec, acts, HonestPolls, 3 + 3 * k, s, pod);
    assert Retried(s) == PendingStatus(k + 1, IncompleteRun, "pr");
  }

  /** A Completed task whose pod has come back waits for its PR, which is then merged. */
  lemma ReviveAndMerge(spec: TaskSpec, acts: seq<Action>, p: Point, first: Pod) returns (longer: seq<Action>)
    requires Reaches(spec, acts, HonestPolls, p) && p.pods == map[p.status.workerPod := first]
    requires p.status.phase == Completed && p.status.prUrl == first.payload.prUrl != ""
    requires first.payload.taskId == spec.name && first.worker == W.FRESH_WORKER && first.phase == PodPending
    ensures HonestRun(spec, longer) && PhaseChanges(Run(spec, longer).versions) == p.changes + 2
  {
    var name, q := p.status.workerPod, p.(pods := map[p.status.workerPod := Booted(first)]);
    var ans := SERVED.(pr := Some(W.PrStatus("", "", false, false)));
    FinishedRecord(first, true, "");
    longer := PodBoots(spec, acts, HonestPolls, p, name, first);
    assert TruthfulLookup(q.merged, "", W.LookupFails) && ans.pr == W.PrStatusAnswer(Booted(first).worker, spec.name, W.LookupFails);
    longer := Called(spec, longer, HonestPolls, q, ans);
    q := After(spec, q, ans);
    longer := WorkerEnds(spec, longer, HonestPolls, q, name, first, true, "");
    var pod := Finished(first, true, "");
    longer := MergePr(spec, longer, HonestPolls, q.(pods := map[name := pod]), pod, first.payload.prUrl);
  }

  // ----- What the documentation does not say

  /** A first attempt that has succeeded, and whose PR has then been merged. */
  lemma MergedBehindTheBack(spec: TaskSpec) returns (acts: seq<Action>, p: Point)
    ensures Reaches(spec, acts, HonestAndFresh, p)
    ensures p.status.phase == WaitingForPR && p.status.prUrl == "pr" && p.merged == {"pr"}
    ensures p.pods == map[p.status.workerPod := Finished(FirstPod(spec, 0, ""), true, "pr")]
    ensures p.status.workerPod == PodName(spec.name, 0)
  {
    acts := FirstPending(spec, HonestAndFresh);
    acts := StartAttempt(spec, acts, HonestAndFresh, 1, 0, NoReason, "");
    acts := EndAttempt(spec, acts, HonestAndFresh, 2, 0, NoReason, true, "pr");
    var pod := Finished(FirstPod(spec, 0, ""), true, "pr");
    var s := Polled(RunningStatus(spec, 0, NoReason, ""), RecordFor(RequestOf(pod.payload), true, "pr"));
    p := Point(3, s, map[s.workerPod := pod], {});
    acts := PrMerged(spec, acts, HonestAndFresh, p, "pr");
    p := p.(merged := p.merged + {"pr"});
  }

  /** In some honest run with fresh reads a merged task keeps its pod: one deletion was not served. */
  lemma MergedTaskKeepsPod(spec: TaskSpec)
    ensures exists acts :: HonestRun(spec, acts) && FreshReads(acts) && Current(Run(spec, acts)).phase == Merged
                           && PodName(spec.name, 0) in Run(spec, acts).pods
  {
    var acts, p := MergedBehindTheBack(spec);
    var first, ans := FirstPod(spec, 0, ""), MergedAnswer("pr").(deleteAnswers := false);
    FinishedRecord(first, true, "pr");
    var l := W.PullRequest(true, "closed", false);
    assert TruthfulLookup(p.merged, "pr", l);
    assert ans.pr == W.PrStatusAnswer(p.pods[p.status.workerPod].worker, spec.name, l);
    acts := Called(spec, acts, HonestAndFresh, p, ans);
  }

  /** In some honest run with fresh reads, every update stored, a task ends Closed although a person has
      merged its PR: its pod was lost before the next poll. */
  lemma MergedPrEndsClosed(spec: TaskSpec)
    ensures exists acts :: HonestRun(spec, acts) && FreshReads(acts) && Current(Run(spec, acts)).phase == Closed
                           && Current(Run(spec, acts)).prUrl in Run(spec, acts).mergedPrs
  {
    var acts, p := MergedBehindTheBack(spec);
    acts := Vanished(spec, acts, HonestAndFresh, p, p.status.workerPod);
    ServedIsHonest(spec, p.status, p.pods - {p.status.workerPod}, p.merged);
    acts := Called(spec, acts, HonestAndFresh, p.(pods := p.pods - {p.status.workerPod}), SERVED);
  }

  /** The first attempt opens a PR, and its pod is lost before a poll. */
  lemma LosePod(spec: TaskSpec) returns (acts: seq<Action>)
    ensures Reaches(spec, acts, HonestAndFresh, Point(2, RunningStatus(spec, 0, NoReason, ""), map[], {}))
    ensures D.TaskDrafts(spec, acts) == 1
  {
    var p, first := RunningPoint(spec, 2, 0, NoReason, ""), FirstPod(spec, 0, "");
    var name := p.status.workerPod;
    acts := FirstPending(spec, HonestAndFresh);
    acts := StartAttempt(spec, acts, HonestAndFresh, 1, 0, NoReason, "");
    FinishedRecord(first, true, "pr");
    acts := RunsToEnd(spec, acts, HonestAndFresh, p, name, first, true, "pr");
    acts := Vanished(spec, acts, HonestAndFresh, p.(pods := map[name := Finished(first, true, "pr")]), name);
    assert map[name := Finished(first, true, "pr")] - {name} == map[];
  }

  /** Then the second attempt is started. */
  lemma LoseFirstDraft(spec: TaskSpec) returns (acts: seq<Action>)
    requires Budget(spec) > 0
    ensures Reaches(spec, acts, HonestAndFresh, RunningPoint(spec, 5, 1, PodDisappeared, ""))
    ensures D.TaskDrafts(spec, acts) == 1
  {
    var p := Point(2, RunningStatus(spec, 0, NoReason, ""), map[], {});
    acts := LosePod(spec);
    acts := Called(spec, acts, HonestAndFresh, p, SERVED);
    p := After(spec, p, SERVED);
    acts := Called(spec, acts, HonestAndFresh, p, SERVED);
    assert After(spec, p, SERVED) == PendingPoint(4, 1, PodDisappeared, "");
    acts := StartAttempt(spec, acts, HonestAndFresh, 4, 1, PodDisappeared, "");
  }

  /** In some honest run with fresh reads a task asks for two drafts. */
  lemma TaskAsksTwice(spec: TaskSpec)
    requires Budget(spec) > 0
    ensures exists acts :: HonestRun(spec, acts) && FreshReads(acts) && D.TaskDrafts(spec, acts) == 2
  {
    var acts := LoseFirstDraft(spec);
    var p, first := RunningPoint(spec, 5, 1, PodDisappeared, ""), FirstPod(spec, 1, "");
    FinishedRecord(first, true, "other");
    acts := RunsToEnd(spec, acts, HonestAndFresh, p, p.status.workerPod, first, true, "other");
  }
}
