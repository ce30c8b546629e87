/** The worker process: its in-memory task registry, its routes, and the task coroutines. */
module Worker {
  import opened Options
  import Memory
  import A = Agent

  /** GitHub's answer about a pull request. */
  datatype PrLookup = UnparsableUrl | LookupFails | PullRequest(merged: bool, state: string, draft: bool)

  datatype PrStatus = PrStatus(url: string, state: string, merged: bool, draft: bool)

  /** The GitHub client's reading of a lookup: a merged pull request has the state "merged". */
  function PrView(url: string, l: PrLookup): PrStatus {
    match l
    case UnparsableUrl => PrStatus(url, "unknown", false, false)
    case LookupFails => PrStatus(url, "error", false, false)
    case PullRequest(merged, state, draft) => PrStatus(url, if merged then "merged" else state, merged, draft)
  }

  /** How a task coroutine ended: with what `RunTask` returned, or with an exception outside it. */
  datatype Ending = Ran(req: A.Request, script: A.Script, ix: Memory.Indices)
                  | Crashed(req: A.Request, error: A.Failure)

  /** `running` holds the request of each task coroutine that has not ended. Two fields are history
      only: `drafts` counts the draft pull requests this process asked GitHub for, and `endings`
      says how its coroutines ended, in order. */
  datatype WorkerState = WorkerState(booted: bool, statuses: map<string, A.TaskStatus>, running: seq<A.Request>,
                                     drafts: nat, endings: seq<Ending>)

  const FRESH_WORKER := WorkerState(false, map[], [], 0, [])

  datatype Event =
    | Boot(req: A.Request)
    | Submit(req: A.Request)
    | Progress(task: nat, progress: nat)
    | Finish(task: nat, script: A.Script, ix: Memory.Indices)
    | Crash(task: nat, error: A.Failure)

  const RUNNING_STATUS := A.TaskStatus(A.Running, 0, "", false, false)

  function CrashStatus(f: A.Failure): A.TaskStatus {
    A.TaskStatus(A.Failed, 0, "", f.rateLimit, f.limitInMessage)
  }

  function Launch(w: WorkerState, req: A.Request): WorkerState {
    w.(statuses := w.statuses[req.taskId := RUNNING_STATUS], running := w.running + [req])
  }

  function Ended(w: WorkerState, task: nat, status: A.TaskStatus, ending: Ending): WorkerState
    requires task < |w.running|
  {
    w.(statuses := w.statuses[w.running[task].taskId := status],
       running := w.running[..task] + w.running[task + 1..],
       endings := w.endings + [ending])
  }

  /** Events that name no running coroutine, and a second boot, do not happen: they change nothing. */
  function Step(w: WorkerState, e: Event): WorkerState {
    match e
    case Boot(req) => if w.booted then w else Launch(w.(booted := true), req)
    case Submit(req) => Launch(w, req)
    case Progress(task, progress) =>
      if task < |w.running| && w.running[task].taskId in w.statuses then
        var id := w.running[task].taskId;
        w.(statuses := w.statuses[id := w.statuses[id].(progress := if progress < 99 then progress else 99)])
      else w
    case Finish(task, script, ix) =>
      if task < |w.running| && script.attempts != [] then
        var run := A.Outcome(w.running[task], script, ix);
        Ended(w.(drafts := w.drafts + run.drafts), task, run.steps.status, Ran(w.running[task], script, ix))
      else w
    case Crash(task, error) =>
      if task < |w.running| then Ended(w, task, CrashStatus(error), Crashed(w.running[task], error)) else w
  }

  function Run(w: WorkerState, events: seq<Event>): WorkerState
    decreases events
  {
    if events == [] then w else Run(Step(w, events[0]), events[1..])
  }

  // ----- Route answers

  datatype FinalizeReply = FinalizeNotFound | NotSucceeded | Finalized(marked: Option<string>)

  function FinalizeAnswer(w: WorkerState, id: string): FinalizeReply {
    if id !in w.statuses then FinalizeNotFound
    else if w.statuses[id].phase != A.Succeeded then NotSucceeded
    else Finalized(if w.statuses[id].prUrl != "" then Some(w.statuses[id].prUrl) else None)
  }

  /** `None` is the 404 answer. */
  function PrStatusAnswer(w: WorkerState, id: string, l: PrLookup): Option<PrStatus> {
    if id !in w.statuses then None
    else if w.statuses[id].prUrl == "" then Some(PrStatus("", "", false, false))
    else Some(PrView(w.statuses[id].prUrl, l))
  }

  datatype GraduateReply = GraduateNotFound | GraduateFails | GraduateDone(graduated: bool, prState: string)

  /** The state a task's PR is graduated under. */
  function GraduationState(w: WorkerState, id: string, l: PrLookup): string
    requires id in w.statuses
  {
    if w.statuses[id].prUrl == "" then "unknown" else PrView(w.statuses[id].prUrl, l).state
  }

  /** A graduation fails as a whole exactly when there is a result to share and sharing it fails. */
  function GraduateAnswer(w: WorkerState, id: string, l: PrLookup, ix: Memory.Indices,
                          replies: Memory.GraduateReplies): GraduateReply {
    if id !in w.statuses then GraduateNotFound
    else
      var found := replies.lookupAnswers && Memory.LatestSuccess(ix.tasks, id).Some?;
      if found && !replies.storeAnswers then GraduateFails
      else GraduateDone(found, GraduationState(w, id, l))
  }

  class Worker {
    var booted: bool
    var statuses: map<string, A.TaskStatus>
    var running: seq<A.Request>
    var drafts: nat
    var endings: seq<Ending>

    function State(): WorkerState
      reads this
    {
      WorkerState(booted, statuses, running, drafts, endings)
    }

    constructor ()
      ensures State() == FRESH_WORKER
    {
      booted, statuses, running, drafts, endings := false, map[], [], 0, [];
    }

    /** Process start: the task from the payload is registered and started. */
    method Lifespan(payload: A.Request)
      requires !booted
      modifies this
      ensures State() == Step(old(State()), Boot(payload))
      ensures statuses == old(statuses)[payload.taskId := A.TaskStatus(A.Running, 0, "", false, false)]
    {
      booted := true;
      CreateTask(payload);
    }

    method CreateTask(req: A.Request)
      modifies this`statuses, this`running
      ensures State() == Step(old(State()), Submit(req))
      ensures statuses == old(statuses)[req.taskId := A.TaskStatus(A.Running, 0, "", false, false)]
      ensures running == old(running) + [req]
    {
      statuses := statuses[req.taskId := RUNNING_STATUS];
      running := running + [req];
    }

    method GetTaskStatus(id: string) returns (status: Option<A.TaskStatus>)
      ensures status == if id in statuses then Some(statuses[id]) else None
    {
      if id !in statuses { return None; }
      status := Some(statuses[id]);
    }

    method FinalizeTask(id: string) returns (r: FinalizeReply)
      ensures r == FinalizeAnswer(State(), id)
      ensures r.Finalized? <==> id in statuses && statuses[id].phase == A.Succeeded
      ensures r.FinalizeNotFound? <==> id !in statuses
      ensures r.Finalized? ==> r.marked == if statuses[id].prUrl == "" then None else Some(statuses[id].prUrl)
    {
      if id !in statuses { return FinalizeNotFound; }
      var status := statuses[id];
      if status.phase != A.Succeeded { return NotSucceeded; }
      var marked: Option<string> := None;
      if status.prUrl != "" {
        marked := Some(status.prUrl);
      }
      r := Finalized(marked);
    }

    method GetPrStatus(id: string, l: PrLookup) returns (r: Option<PrStatus>)
      ensures r == PrStatusAnswer(State(), id, l)
      ensures r.Some? <==> id in statuses
      ensures r.Some? ==> r.value.url == statuses[id].prUrl
      ensures r.Some? && statuses[id].prUrl == "" ==> r.value.state == "" && !r.value.merged && !r.value.draft
      ensures r.Some? && statuses[id].prUrl != "" ==>
        && r.value.merged == (l.PullRequest? && l.merged) && r.value.draft == (l.PullRequest? && l.draft)
        && r.value.state == if l.UnparsableUrl? then "unknown" else if l.LookupFails? then "error"
                            else if l.merged then "merged" else l.state
    {
      if id !in statuses { return None; }
      var status := statuses[id];
      if status.prUrl == "" { return Some(PrStatus("", "", false, false)); }
      r := Some(PrView(status.prUrl, l));
    }

    method GraduateTask(id: string, l: PrLookup, store: Memory.MemoryStore, replies: Memory.GraduateReplies)
      returns (r: GraduateReply)
      modifies store
      ensures r == GraduateAnswer(old(State()), id, l, old(store.Contents()), replies)
      ensures id !in statuses ==> store.Contents() == old(store.Contents())
      ensures id in statuses ==>
        store.Contents() == Memory.AfterGraduate(old(store.Contents()), id, GraduationState(State(), id, l), replies)
      ensures r.GraduateDone? ==>
        r.prState == if statuses[id].prUrl == "" then "unknown"
                     else match l
                       case UnparsableUrl => "unknown"
                       case LookupFails => "error"
                       case PullRequest(merged, state, _) => if merged then "merged" else state
      ensures r.GraduateFails? <==>
        id in statuses && replies.lookupAnswers && Memory.LatestSuccess(old(store.taskMemory), id).Some? && !replies.storeAnswers
      ensures r.GraduateDone? ==>
        (r.graduated <==> replies.lookupAnswers && Memory.LatestSuccess(old(store.taskMemory), id).Some?)
      ensures r.GraduateDone? && r.graduated ==>
        && |store.sharedMemory| == |old(store.sharedMemory)| + 1
        && (store.sharedMemory[|old(store.sharedMemory)|].outcome == "merged" <==>
              statuses[id].prUrl != "" && l.PullRequest? && (l.merged || l.state == "merged"))
    {
      if id !in statuses { return GraduateNotFound; }
      var prState := "unknown";
      if statuses[id].prUrl != "" {
        prState := PrView(statuses[id].prUrl, l).state;
      }
      var result := store.GraduateToShared(id, prState, replies);
      if result.StoreRaised? { return GraduateFails; }
      r := GraduateDone(result.stored, prState);
    }

    /** A task coroutine ends: its record is replaced by what it returned, or by a failure. */
    method ExecuteTask(task: nat, script: A.Script, ix: Memory.Indices, error: Option<A.Failure>)
      requires task < |running| && script.attempts != []
      modifies this
      ensures State() ==
        Step(old(State()), if error.Some? then Crash(task, error.value) else Finish(task, script, ix))
      ensures var req := old(running)[task];
        && |endings| == |old(endings)| + 1 && endings[..|old(endings)|] == old(endings)
        && endings[|old(endings)|] == (if error.Some? then Crashed(req, error.value) else Ran(req, script, ix))
        && req.taskId in statuses && Leaves(endings[|old(endings)|], statuses[req.taskId])
        && statuses == old(statuses)[req.taskId := statuses[req.taskId]]
        && running == old(running)[..task] + old(running)[task + 1..]
    {
      var req := running[task];
      running := running[..task] + running[task + 1..];
      if error.None? {
        A.FailureReported(req, script, ix);
        var run := A.Outcome(req, script, ix);
        drafts := drafts + run.drafts;
        statuses := statuses[req.taskId := run.steps.status];
        endings := endings + [Ran(req, script, ix)];
      } else {
        statuses := statuses[req.taskId := CrashStatus(error.value)];
        endings := endings + [Crashed(req, error.value)];
      }
    }

    method UpdateProgress(task: nat, progress: nat)
      modifies this`statuses
      ensures State() == Step(old(State()), Progress(task, progress))
      ensures task < |running| && running[task].taskId in old(statuses) ==>
        && statuses.Keys == old(statuses).Keys
        && statuses[running[task].taskId].progress == (if progress < 99 then progress else 99)
        && forall id :: id in statuses ==>
             statuses[id] == old(statuses)[id] || (id == running[task].taskId
               && statuses[id] == old(statuses)[id].(progress := statuses[id].progress))
    {
      if task < |running| && running[task].taskId in statuses {
        var id := running[task].taskId;
        var status := statuses[id];
        status := status.(progress := if progress < 99 then progress else 99);
        statuses := statuses[id := status];
      }
    }
  }

  // ----- Workers that only the operator drives

  /** The operator never posts tasks; its pod's payload starts the one task there is. */
  predicate OperatorDriven(e: Event, req: A.Request) {
    !e.Submit? && (e.Boot? ==> e.req == req)
  }

  /** A finished record of a request: an existing PR is never exchanged for another. */
  predicate Settled(s: A.TaskStatus, req: A.Request) {
    && s.phase in {A.Succeeded, A.Incomplete, A.Failed}
    && 0 <= s.progress <= 100
    && (req.prUrl != "" ==> s.prUrl == "" || s.prUrl == req.prUrl)
    && (s.phase == A.Succeeded && req.prUrl != "" ==> s.prUrl == req.prUrl)
  }

  ghost predicate WorkerInv(w: WorkerState, req: A.Request) {
    && (!w.booted ==> w == FRESH_WORKER)
    && w.statuses.Keys == (if w.booted then {req.taskId} else {})
    && w.drafts <= 1
    && (req.prUrl != "" ==> w.drafts == 0)
    && (w.booted ==>
          var s := w.statuses[req.taskId];
          if w.running == [] then Settled(s, req)
          else w.running == [req] && w.drafts == 0 && w.endings == [] && s.phase == A.Running && s.prUrl == "" && 0 <= s.progress <= 99)
  }

  lemma WorkerInvStep(w: WorkerState, e: Event, req: A.Request)
    requires WorkerInv(w, req) && OperatorDriven(e, req)
    ensures WorkerInv(Step(w, e), req)
  {
    if w.booted && w.running != [] && e.Finish? && e.task == 0 && e.script.attempts != [] {
      A.RunKeepsPr(req, e.script, e.ix);
      A.OutcomeSound(req, e.script, e.ix);
    }
  }

  /** The record that an ending leaves. */
  predicate Leaves(e: Ending, s: A.TaskStatus) {
    match e
    case Ran(req, script, ix) => script.attempts != [] && A.Outcome(req, script, ix).steps == A.Reported(s)
    case Crashed(_, error) => s == A.TaskStatus(A.Failed, 0, "", error.rateLimit, error.limitInMessage)
  }

  /** A worker whose task has ended has ended it once, and its record is the one that ending left. */
  predicate RecordIsLogged(w: WorkerState, req: A.Request) {
    w.running == [] && req.taskId in w.statuses ==>
      |w.endings| == 1 && w.endings[0].req == req && Leaves(w.endings[0], w.statuses[req.taskId])
  }

  lemma RecordIsLoggedStep(w: WorkerState, e: Event, req: A.Request)
    requires WorkerInv(w, req) && OperatorDriven(e, req) && RecordIsLogged(w, req)
    ensures RecordIsLogged(Step(w, e), req)
  {
    if w.booted && w.running != [] && e.Finish? && e.task == 0 && e.script.attempts != [] {
      A.OutcomeSound(req, e.script, e.ix);
    }
  }

  /** Once the record of an operator-driven worker is final, nothing changes any more. */
  lemma SettledWorkerIsFrozen(w: WorkerState, e: Event, req: A.Request)
    requires WorkerInv(w, req) && OperatorDriven(e, req)
    requires w.booted && w.statuses[req.taskId].phase != A.Running
    ensures Step(w, e) == w
  {
  }

  predicate AllOperatorDriven(events: seq<Event>, req: A.Request) {
    forall i :: 0 <= i < |events| ==> OperatorDriven(events[i], req)
  }

  lemma {:induction false} WorkerRunKeeps(w: WorkerState, events: seq<Event>, req: A.Request)
    requires WorkerInv(w, req) && AllOperatorDriven(events, req)
    ensures WorkerInv(Run(w, events), req)
    ensures w.booted ==> Run(w, events).booted
    ensures w.booted && w.statuses[req.taskId].phase != A.Running ==> Run(w, events) == w
    decreases events
  {
    if events != [] {
      WorkerInvStep(w, events[0], req);
      if w.booted && w.statuses[req.taskId].phase != A.Running {
        SettledWorkerIsFrozen(w, events[0], req);
      }
      StaysBooted(w, events[0]);
      WorkerRunKeeps(Step(w, events[0]), events[1..], req);
    }
  }

  lemma StaysBooted(w: WorkerState, e: Event)
    ensures w.booted ==> Step(w, e).booted
  {
  }

  /** The events after which a finalize of a succeeded task is refused: the task is submitted or
      booted again, or another coroutine of the same task ends without success. */
  predicate Overwrites(w: WorkerState, e: Event, id: string) {
    match e
    case Boot(req) => !w.booted && req.taskId == id
    case Submit(req) => req.taskId == id
    case Progress(_, _) => false
    case Finish(task, script, ix) =>
      task < |w.running| && w.running[task].taskId == id && script.attempts != []
      && A.Outcome(w.running[task], script, ix).steps.status.phase != A.Succeeded
    case Crash(task, _) => task < |w.running| && w.running[task].taskId == id
  }

  lemma OverwriteRefuses(w: WorkerState, e: Event, id: string)
    requires FinalizeAnswer(w, id).Finalized?
    ensures FinalizeAnswer(Step(w, e), id).Finalized? <==> !Overwrites(w, e, id)
  {
  }

  /** Exactly when a finalize is never refused after a poll that read `Succeeded`, whatever the
      process does in the meantime: when no event overwrites the record. */
  lemma {:induction false} FinalizeNeverRefusedExactly(w: WorkerState, id: string, events: seq<Event>)
    requires id in w.statuses && w.statuses[id].phase == A.Succeeded
    ensures (forall k :: 0 <= k <= |events| ==> FinalizeAnswer(Run(w, events[..k]), id).Finalized?)
            <==> (forall i :: 0 <= i < |events| ==> !Overwrites(Run(w, events[..i]), events[i], id))
    decreases |events|
  {
    if events == [] {
      assert Run(w, events[..0]) == w;
    } else {
      var n := |events| - 1;
      var before := events[..n];
      FinalizeNeverRefusedExactly(w, id, before);
      assert forall k :: 0 <= k <= n ==> events[..k] == before[..k];
      assert events == before + [events[n]] && events[..n + 1] == events;
      RunAppend(w, before, events[n]);
      if FinalizeAnswer(Run(w, before), id).Finalized? {
        OverwriteRefuses(Run(w, before), events[n], id);
      } else {
        assert !FinalizeAnswer(Run(w, before[..n]), id).Finalized? by { assert before[..n] == before; }
      }
    }
  }

  lemma {:induction false} RunAppend(w: WorkerState, events: seq<Event>, e: Event)
    ensures Run(w, events + [e]) == Step(Run(w, events), e)
    decreases events
  {
    if events == [] {
      assert [e][1..] == [];
    } else {
      assert (events + [e])[1..] == events[1..] + [e];
      RunAppend(Step(w, events[0]), events[1..], e);
    }
  }
}
