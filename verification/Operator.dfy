/** The AgentTask reconciler: one reconcile call over the stored status, the pods and the worker. */
module Operator {
  import opened Options
  import opened PodNames
  import Skills
  import A = Agent
  import W = Worker

  const REQUEUE_SECONDS := 15
  const PR_POLL_SECONDS := 30
  const RETRY_BACKOFF_SECONDS := 30
  const DEFAULT_MAX_RETRIES := 2

  datatype TaskSpec = TaskSpec(name: string, targetBranch: string, skills: seq<string>, maxRetries: int)

  /** A stored phase; `Unset` is the empty string of a new object. */
  datatype Phase = Unset | Pending | Running | Failed | Completed | WaitingForPR | Merged | Closed
                 | Unknown(text: string)

  datatype FailureReason = NoReason | PodDisappeared | PodFailure | IncompleteRun | RateLimited | WorkerFailure

  /** The stored status. Times are kept as set or unset, messages are left out. */
  datatype Status = Status(phase: Phase, progress: int, workerPod: string, prUrl: string, prState: string,
                           started: bool, completed: bool, retryCount: nat, lastFailure: FailureReason)

  const NEW_STATUS := Status(Unset, 0, "", "", "", false, false, 0, NoReason)

  datatype Payload = Payload(taskId: string, branch: string, skills: seq<string>, isRetry: bool, prUrl: string)

  datatype PodPhase = PodPending | PodRunning | PodSucceeded | PodFailed | PodUnknown

  datatype Pod = Pod(phase: PodPhase, hasIP: bool, payload: Payload, worker: W.WorkerState)

  datatype CreateOutcome = Created | AlreadyExists | Refused

  /** What a reconcile call did to the world, in order. */
  datatype Call =
    | CreatePod(name: string, payload: Payload, outcome: CreateOutcome)
    | DeletePod(name: string)
    | Finalize(name: string)
    | Graduate(name: string)
    | WriteStatus(status: Status, accepted: bool)

  datatype Result = Done | Error | Requeue | After(seconds: nat) | RetryAfter(seconds: nat)

  /** What the environment answers during one reconcile call. */
  datatype Answers = Answers(
    agent: Option<seq<string>>,         // the agent's default skills, if it could be fetched
    createAnswers: bool,                // the API server serves the pod creation
    podGetAnswers: bool,                // ... the pod lookup
    status: Option<A.TaskStatus>,       // the worker's status, if the poll is answered
    pr: Option<W.PrStatus>,             // the worker's PR status, if the poll is answered
    deleteAnswers: bool,                // ... lookup and deletion during cleanup
    writeAnswers: bool)                 // ... the status update

  function MaxRetries(spec: TaskSpec): int {
    if spec.maxRetries == 0 then DEFAULT_MAX_RETRIES else spec.maxRetries
  }

  /** The branch of every attempt. */
  function TargetBranch(spec: TaskSpec): string {
    if spec.targetBranch == "" then "task-" + spec.name else spec.targetBranch
  }

  function PayloadFor(spec: TaskSpec, s: Status, defaults: seq<string>): Payload {
    Payload(spec.name, TargetBranch(spec), Skills.MergedSkills(defaults, spec.skills), s.retryCount > 0, s.prUrl)
  }

  function NewPod(p: Payload): Pod {
    Pod(PodPending, false, p, W.FRESH_WORKER)
  }

  /** What a handler decides: the calls it makes, the status it tries to store, the pods it leaves. */
  datatype Decision = Decision(calls: seq<Call>, next: Option<Status>, pods: map<string, Pod>, result: Result)

  /** Store `next` as the last call. */
  function Store(next: Status, pods: map<string, Pod>, ok: bool, result: Result): Decision {
    Decision([WriteStatus(next, ok)], Some(next), pods, result)
  }

  function Keep(pods: map<string, Pod>, result: Result): Decision {
    Decision([], None, pods, result)
  }

  function Preceded(calls: seq<Call>, d: Decision): Decision {
    d.(calls := calls + d.calls)
  }

  /** A cleanup deletes the pod if it is there and the API server serves it. */
  predicate CleansUp(name: string, pods: map<string, Pod>, ans: Answers) {
    name in pods && ans.deleteAnswers
  }

  function CleanupCalls(name: string, pods: map<string, Pod>, ans: Answers): seq<Call> {
    if CleansUp(name, pods, ans) then [DeletePod(name)] else []
  }

  function Cleaned(name: string, pods: map<string, Pod>, ans: Answers): map<string, Pod> {
    if CleansUp(name, pods, ans) then pods - {name} else pods
  }

  function DecideUnset(s: Status, pods: map<string, Pod>, ok: bool): Decision {
    Store(s.(phase := Pending, progress := 0), pods, ok, if ok then Requeue else Error)
  }

  function DecideUnknown(s: Status, pods: map<string, Pod>, ok: bool): Decision {
    Store(s.(phase := Pending), pods, ok, Requeue)
  }

  function DecidePending(spec: TaskSpec, s: Status, pods: map<string, Pod>, ok: bool, ans: Answers): Decision {
    if ans.agent.None? then Store(s, pods, ok, After(REQUEUE_SECONDS))
    else
      var name := PodName(spec.name, s.retryCount);
      var payload := PayloadFor(spec, s, ans.agent.value);
      if !ans.createAnswers then
        Preceded([CreatePod(name, payload, Refused)], Store(s, pods, ok, After(REQUEUE_SECONDS)))
      else
        var adopted := name in pods;
        Preceded([CreatePod(name, payload, if adopted then AlreadyExists else Created)],
          Store(s.(phase := Running, progress := 5, workerPod := name, started := true),
                if adopted then pods else pods[name := NewPod(payload)],
                ok, if ok then After(REQUEUE_SECONDS) else Error))
  }

  function Failing(s: Status, reason: FailureReason): Status {
    s.(phase := Failed, lastFailure := reason)
  }

  /** The status after an answered poll. */
  function Polled(s: Status, r: A.TaskStatus): Status {
    var t := s.(progress := r.progress, prUrl := if r.prUrl != "" then r.prUrl else s.prUrl);
    match r.phase
    case Succeeded => t.(phase := WaitingForPR, progress := 100, completed := true, prState := "open")
    case Completed => t.(phase := WaitingForPR, progress := 100, completed := true, prState := "open")
    case Incomplete => Failing(t, IncompleteRun)
    case Failed => Failing(t, if r.rateLimited || r.limitInMessage then RateLimited else WorkerFailure)
    case _ => t
  }

  predicate Ready(name: string, pods: map<string, Pod>) {
    name in pods && pods[name].phase == PodRunning && pods[name].hasIP
  }

  function DecidePolled(s: Status, r: A.TaskStatus, pods: map<string, Pod>, ok: bool): Decision {
    var next := Polled(s, r);
    Preceded(if next.phase == WaitingForPR then [Finalize(s.workerPod)] else [],
      Store(next, pods, ok,
        if !ok then Error
        else if next.phase == Running then After(REQUEUE_SECONDS)
        else if next.phase == Failed then Requeue
        else Done))
  }

  function DecideRunning(s: Status, pods: map<string, Pod>, ok: bool, ans: Answers): Decision {
    if !ans.podGetAnswers then Keep(pods, After(REQUEUE_SECONDS))
    else if s.workerPod !in pods then Store(Failing(s, PodDisappeared), pods, ok, Requeue)
    else
      match pods[s.workerPod].phase
      case PodFailed => Store(Failing(s, PodFailure), pods, ok, Requeue)
      case PodSucceeded => Store(s.(phase := Completed, progress := 100, completed := true), pods, ok, Done)
      case PodPending => Keep(pods, After(REQUEUE_SECONDS))
      case PodUnknown => Keep(pods, After(REQUEUE_SECONDS))
      case PodRunning =>
        if !pods[s.workerPod].hasIP || ans.status.None? then Keep(pods, After(REQUEUE_SECONDS))
        else DecidePolled(s, ans.status.value, pods, ok)
  }

  function DecidePrStatus(s: Status, pr: W.PrStatus, pods: map<string, Pod>, ok: bool, ans: Answers): Decision {
    var t := s.(prState := pr.state);
    if pr.merged || pr.state == "closed" then
      Preceded([Graduate(s.workerPod)] + CleanupCalls(s.workerPod, pods, ans),
        Store(t.(phase := if pr.merged then Merged else Closed), Cleaned(s.workerPod, pods, ans), ok,
              if ok then Done else Error))
    else
      Store(t.(phase := WaitingForPR), pods, ok, if ok then After(PR_POLL_SECONDS) else Error)
  }

  function DecideWaiting(s: Status, pods: map<string, Pod>, ok: bool, ans: Answers): Decision {
    if s.prUrl == "" then
      var d := Store(s.(phase := Closed), Cleaned(s.workerPod, pods, ans), ok, Done);
      d.(calls := d.calls + CleanupCalls(s.workerPod, pods, ans))
    else if !ans.podGetAnswers || !Ready(s.workerPod, pods) then
      Store(s.(phase := Closed), pods, ok, Done)
    else if ans.pr.None? then Keep(pods, After(PR_POLL_SECONDS))
    else DecidePrStatus(s, ans.pr.value, pods, ok, ans)
  }

  function Retried(s: Status): Status {
    s.(phase := Pending, progress := 0, workerPod := "", started := false, completed := false,
       retryCount := s.retryCount + 1)
  }

  function DecideFailed(spec: TaskSpec, s: Status, pods: map<string, Pod>, ok: bool, ans: Answers): Decision {
    var calls := if s.workerPod != "" then CleanupCalls(s.workerPod, pods, ans) else [];
    var left := if s.workerPod != "" then Cleaned(s.workerPod, pods, ans) else pods;
    if s.retryCount < MaxRetries(spec) then
      Preceded(calls, Store(Retried(s), left, ok,
        if ok then RetryAfter(RETRY_BACKOFF_SECONDS * (s.retryCount + 1)) else Error))
    else Preceded(calls, Store(s, left, ok, Done))
  }

  function Decide(spec: TaskSpec, s: Status, pods: map<string, Pod>, ok: bool, ans: Answers): Decision {
    match s.phase
    case Unset => DecideUnset(s, pods, ok)
    case Pending => DecidePending(spec, s, pods, ok, ans)
    case Running => DecideRunning(s, pods, ok, ans)
    case Failed => DecideFailed(spec, s, pods, ok, ans)
    case Completed => DecideWaiting(s, pods, ok, ans)
    case WaitingForPR => DecideWaiting(s, pods, ok, ans)
    case Merged => Keep(pods, Done)
    case Closed => Keep(pods, Done)
    case Unknown(_) => DecideUnknown(s, pods, ok)
  }

  /** Everything outside the reconciler: the versions of the stored status, oldest first; the
      task's pods; the PRs that people have merged; what has been called, and the seconds of retry
      backoff requested so far. */
  datatype World = World(versions: seq<Status>, pods: map<string, Pod>, mergedPrs: set<string>,
                         calls: seq<Call>, backoff: nat)

  const NEW_WORLD := World([NEW_STATUS], map[], {}, [], 0)

  function Current(w: World): Status
    requires w.versions != []
  {
    w.versions[|w.versions| - 1]
  }

  /** The snapshot a reconcile call reads: `lag` versions old, the oldest one at most. */
  function Snapshot(w: World, lag: nat): Status
    requires w.versions != []
  {
    if lag < |w.versions| then w.versions[|w.versions| - 1 - lag] else w.versions[0]
  }

  /** An update is accepted when the API server serves it and the snapshot is still current. */
  predicate WriteAccepted(lag: nat, ans: Answers) {
    lag == 0 && ans.writeAnswers
  }

  function Applied(w: World, d: Decision, ok: bool): World {
    World(if ok && d.next.Some? then w.versions + [d.next.value] else w.versions, d.pods, w.mergedPrs,
          w.calls + d.calls, w.backoff + (if d.result.RetryAfter? then d.result.seconds else 0))
  }

  function Reconciled(spec: TaskSpec, w: World, lag: nat, ans: Answers): World
    requires w.versions != []
  {
    var ok := WriteAccepted(lag, ans);
    Applied(w, Decide(spec, Snapshot(w, lag), w.pods, ok, ans), ok)
  }

  /** The reconciler with the cluster it acts on. */
  class AgentTaskReconciler {
    const spec: TaskSpec
    var versions: seq<Status>
    var pods: map<string, Pod>
    var mergedPrs: set<string>
    var calls: seq<Call>
    var backoff: nat

    constructor (spec: TaskSpec)
      ensures this.spec == spec && Cluster() == NEW_WORLD
    {
      this.spec := spec;
      versions := [NEW_STATUS];
      pods, mergedPrs, calls, backoff := map[], {}, [], 0;
    }

    function Cluster(): World
      reads this
    {
      World(versions, pods, mergedPrs, calls, backoff)
    }

    method UpdateStatus(task: Status, lag: nat, ans: Answers) returns (ok: bool)
      modifies this`versions, this`calls
      ensures ok == WriteAccepted(lag, ans)
      ensures versions == if ok then old(versions) + [task] else old(versions)
      ensures calls == old(calls) + [WriteStatus(task, ok)]
    {
      ok := lag == 0 && ans.writeAnswers;
      if ok {
        versions := versions + [task];
      }
      calls := calls + [WriteStatus(task, ok)];
    }

    method CleanupWorkerPod(name: string, ans: Answers)
      modifies this`pods, this`calls
      ensures pods == Cleaned(name, old(pods), ans)
      ensures calls == old(calls) + CleanupCalls(name, old(pods), ans)
    {
      if name !in pods || !ans.deleteAnswers {
        return;
      }
      pods := pods - {name};
      calls := calls + [DeletePod(name)];
    }

    method GraduateAndTearDown(name: string, ans: Answers)
      modifies this`pods, this`calls
      ensures pods == Cleaned(name, old(pods), ans)
      ensures calls == old(calls) + ([Graduate(name)] + CleanupCalls(name, old(pods), ans))
    {
      calls := calls + [Graduate(name)];
      CleanupWorkerPod(name, ans);
    }

    method CreateWorkerPod(name: string, payload: Payload, ans: Answers) returns (outcome: CreateOutcome)
      modifies this`pods, this`calls
      ensures outcome == if !ans.createAnswers then Refused
                         else if name in old(pods) then AlreadyExists else Created
      ensures pods == if outcome == Created then old(pods)[name := NewPod(payload)] else old(pods)
      ensures calls == old(calls) + [CreatePod(name, payload, outcome)]
    {
      if !ans.createAnswers {
        outcome := Refused;
      } else if name in pods {
        outcome := AlreadyExists;
      } else {
        outcome := Created;
        pods := pods[name := NewPod(payload)];
      }
      calls := calls + [CreatePod(name, payload, outcome)];
    }

    /** The payload of the snapshot's attempt. */
    method BuildPayload(snapshot: Status, defaults: seq<string>) returns (payload: Payload)
      ensures payload == PayloadFor(spec, snapshot, defaults)
    {
      var skills := Skills.MergeSkills(defaults, spec.skills);
      var targetBranch := spec.targetBranch;
      if targetBranch == "" {
        targetBranch := "task-" + spec.name;
      }
      var isRetry := snapshot.retryCount > 0;
      payload := Payload(spec.name, targetBranch, skills, isRetry, snapshot.prUrl);
    }

    method HandlePending(snapshot: Status, lag: nat, ans: Answers) returns (result: Result)
      modifies this`versions, this`pods, this`calls
      ensures var ok := WriteAccepted(lag, ans);
        var d := DecidePending(spec, snapshot, old(pods), ok, ans);
        Cluster() == Applied(old(Cluster()), d, ok) && result == d.result
    {
      ghost var d := DecidePending(spec, snapshot, pods, WriteAccepted(lag, ans), ans);
      var task := snapshot;
      if ans.agent.None? {
        var _ := UpdateStatus(task, lag, ans);
        return After(REQUEUE_SECONDS);
      }
      var payload := BuildPayload(task, ans.agent.value);
      var name := PodName(spec.name, task.retryCount);
      var outcome := CreateWorkerPod(name, payload, ans);
      if outcome == Refused {
        var _ := UpdateStatus(task, lag, ans);
        assert calls == old(calls) + d.calls;
        return After(REQUEUE_SECONDS);
      }
      task := task.(phase := Running);
      task := task.(progress := 5);
      task := task.(workerPod := name);
      task := task.(started := true);
      assert Some(task) == d.next;
      var ok := UpdateStatus(task, lag, ans);
      assert calls == old(calls) + d.calls;
      if !ok { return Error; }
      result := After(REQUEUE_SECONDS);
    }

    /** An answered poll, copied into the status field by field. */
    method RecordPoll(snapshot: Status, status: A.TaskStatus) returns (task: Status)
      ensures task == Polled(snapshot, status)
    {
      task := snapshot;
      task := task.(progress := status.progress);
      if status.prUrl != "" {
        task := task.(prUrl := status.prUrl);
      }
      if status.phase == A.Succeeded || status.phase == A.Completed {
        task := task.(phase := WaitingForPR);
        task := task.(progress := 100);
        task := task.(completed := true);
        task := task.(prState := "open");
      } else if status.phase == A.Incomplete {
        task := task.(phase := Failed);
        task := task.(lastFailure := IncompleteRun);
      } else if status.phase == A.Failed {
        var reason := WorkerFailure;
        if status.rateLimited || status.limitInMessage {
          reason := RateLimited;
        }
        task := task.(phase := Failed);
        task := task.(lastFailure := reason);
      }
    }

    method HandleRunning(snapshot: Status, lag: nat, ans: Answers) returns (result: Result)
      requires snapshot.phase == Running
      modifies this`versions, this`pods, this`calls
      ensures var ok := WriteAccepted(lag, ans);
        var d := DecideRunning(snapshot, old(pods), ok, ans);
        Cluster() == Applied(old(Cluster()), d, ok) && result == d.result
    {
      var task := snapshot;
      if !ans.podGetAnswers { return After(REQUEUE_SECONDS); }
      if task.workerPod !in pods {
        task := task.(phase := Failed);
        task := task.(lastFailure := PodDisappeared);
        var _ := UpdateStatus(task, lag, ans);
        return Requeue;
      }
      var pod := pods[task.workerPod];
      match pod.phase {
        case PodFailed =>
          task := task.(phase := Failed);
          task := task.(lastFailure := PodFailure);
          var _ := UpdateStatus(task, lag, ans);
          return Requeue;
        case PodSucceeded =>
          if task.phase != Completed {
            task := task.(phase := Completed);
            task := task.(progress := 100);
            task := task.(completed := true);
            var _ := UpdateStatus(task, lag, ans);
          }
          return Done;
        case PodRunning =>
        case _ =>
          return After(REQUEUE_SECONDS);
      }
      if !pod.hasIP || ans.status.None? { return After(REQUEUE_SECONDS); }
      result := HandlePolled(task, ans.status.value, lag, ans);
    }

    /** The second half of a running step: the worker has answered. */
    method HandlePolled(snapshot: Status, status: A.TaskStatus, lag: nat, ans: Answers) returns (result: Result)
      modifies this`versions, this`calls
      ensures var ok := WriteAccepted(lag, ans);
        var d := DecidePolled(snapshot, status, pods, ok);
        Cluster() == Applied(old(Cluster()), d, ok) && result == d.result
    {
      ghost var d := DecidePolled(snapshot, status, pods, WriteAccepted(lag, ans));
      var task := RecordPoll(snapshot, status);
      if task.phase == WaitingForPR {
        calls := calls + [Finalize(task.workerPod)];
      }
      var ok := UpdateStatus(task, lag, ans);
      assert calls == old(calls) + d.calls;
      if !ok { return Error; }
      if task.phase == Running { return After(REQUEUE_SECONDS); }
      if task.phase == Failed { return Requeue; }
      result := Done;
    }

    method HandleWaitingForPR(snapshot: Status, lag: nat, ans: Answers) returns (result: Result)
      requires snapshot.phase == Completed || snapshot.phase == WaitingForPR
      modifies this`versions, this`pods, this`calls
      ensures var ok := WriteAccepted(lag, ans);
        var d := DecideWaiting(snapshot, old(pods), ok, ans);
        Cluster() == Applied(old(Cluster()), d, ok) && result == d.result
    {
      ghost var d := DecideWaiting(snapshot, pods, WriteAccepted(lag, ans), ans);
      var task := snapshot;
      if task.prUrl == "" {
        task := task.(phase := Closed);
        var _ := UpdateStatus(task, lag, ans);
        CleanupWorkerPod(task.workerPod, ans);
        assert calls == old(calls) + d.calls;
        return Done;
      }
      if !ans.podGetAnswers || task.workerPod !in pods
         || pods[task.workerPod].phase != PodRunning || !pods[task.workerPod].hasIP {
        task := task.(phase := Closed);
        var _ := UpdateStatus(task, lag, ans);
        return Done;
      }
      if ans.pr.None? { return After(PR_POLL_SECONDS); }
      result := HandlePrStatus(task, ans.pr.value, lag, ans);
    }

    /** The second half of a waiting step: the worker has answered. */
    method HandlePrStatus(snapshot: Status, prStatus: W.PrStatus, lag: nat, ans: Answers) returns (result: Result)
      requires snapshot.phase == Completed || snapshot.phase == WaitingForPR
      modifies this`versions, this`pods, this`calls
      ensures var ok := WriteAccepted(lag, ans);
        var d := DecidePrStatus(snapshot, prStatus, old(pods), ok, ans);
        Cluster() == Applied(old(Cluster()), d, ok) && result == d.result
    {
      ghost var d := DecidePrStatus(snapshot, prStatus, pods, WriteAccepted(lag, ans), ans);
      var task := snapshot;
      task := task.(prState := prStatus.state);
      if prStatus.merged {
        task := task.(phase := Merged);
        GraduateAndTearDown(task.workerPod, ans);
      } else if prStatus.state == "closed" {
        task := task.(phase := Closed);
        GraduateAndTearDown(task.workerPod, ans);
      } else if task.phase != WaitingForPR {
        task := task.(phase := WaitingForPR);
      }
      assert Some(task) == d.next;
      var ok := UpdateStatus(task, lag, ans);
      assert calls == old(calls) + d.calls;
      if !ok { return Error; }
      if task.phase == WaitingForPR { return After(PR_POLL_SECONDS); }
      result := Done;
    }

    method HandleFailed(snapshot: Status, lag: nat, ans: Answers) returns (result: Result)
      modifies this`versions, this`pods, this`calls, this`backoff
      ensures var ok := WriteAccepted(lag, ans);
        var d := DecideFailed(spec, snapshot, old(pods), ok, ans);
        Cluster() == Applied(old(Cluster()), d, ok) && result == d.result
    {
      ghost var d := DecideFailed(spec, snapshot, pods, WriteAccepted(lag, ans), ans);
      var task := snapshot;
      var maxRetries := spec.maxRetries;
      if maxRetries == 0 {
        maxRetries := DEFAULT_MAX_RETRIES;
      }
      var canRetry := task.retryCount < maxRetries;
      if task.workerPod != "" {
        CleanupWorkerPod(task.workerPod, ans);
      }
      if canRetry {
        task := task.(retryCount := task.retryCount + 1);
        task := task.(phase := Pending);
        task := task.(progress := 0);
        task := task.(workerPod := "");
        task := task.(started := false);
        task := task.(completed := false);
        assert task == Retried(snapshot);
        var ok := UpdateStatus(task, lag, ans);
        assert calls == old(calls) + d.calls;
        if !ok { return Error; }
        var wait := RETRY_BACKOFF_SECONDS * task.retryCount;
        backoff := backoff + wait;
        return RetryAfter(wait);
      }
      var _ := UpdateStatus(task, lag, ans);
      assert calls == old(calls) + d.calls;
      result := Done;
    }

    method Reconcile(lag: nat, ans: Answers) returns (result: Result)
      requires versions != []
      modifies this`versions, this`pods, this`calls, this`backoff
      ensures Cluster() == Reconciled(spec, old(Cluster()), lag, ans)
      ensures result == Decide(spec, Snapshot(old(Cluster()), lag), old(pods), WriteAccepted(lag, ans), ans).result
    {
      var task := Snapshot(Cluster(), lag);
      match task.phase {
        case Unset =>
          task := task.(phase := Pending);
          task := task.(progress := 0);
          var ok := UpdateStatus(task, lag, ans);
          if !ok { return Error; }
          result := Requeue;
        case Pending => result := HandlePending(task, lag, ans);
        case Running => result := HandleRunning(task, lag, ans);
        case Failed => result := HandleFailed(task, lag, ans);
        case Completed => result := HandleWaitingForPR(task, lag, ans);
        case WaitingForPR => result := HandleWaitingForPR(task, lag, ans);
        case Merged => result := Done;
        case Closed => result := Done;
        case Unknown(_) =>
          task := task.(phase := Pending);
          var _ := UpdateStatus(task, lag, ans);
          result := Requeue;
      }
    }
  }
}
