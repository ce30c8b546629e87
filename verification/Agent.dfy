/** One run of an agent task: LLM attempts, evaluation, publication and memory writes. */
module Agent {
  import opened Options
  import opened Memory

  const LLM_TRIES := 3
  const BACKOFF_SECONDS := 15

  datatype TaskPhase = Running | Succeeded | Incomplete | Failed | Completed | OtherPhase

  datatype Request = Request(taskId: string, branch: string, isRetry: bool, prUrl: string, skills: seq<string>)

  /** What the worker reports; `limitInMessage` says that the message names a rate limit. */
  datatype TaskStatus = TaskStatus(phase: TaskPhase, progress: int, prUrl: string, rateLimited: bool,
                                   limitInMessage: bool)

  /** An exception, as far as its text decides anything. */
  datatype Failure = Failure(recursion: bool, rateLimit: bool, limitInMessage: bool)

  datatype LlmResult = LlmResult(admitsFailure: bool, tools: set<string>)

  datatype LlmEvent = ToolStart(now: real, flush: BulkReply) | ChatModelEnd(output: LlmResult) | OtherEvent

  datatype Invocation = Answers(result: LlmResult) | Fails(error: Failure)

  /** One pass over the agent's event stream, and how it ends: exhausted, when a missing output is
      fetched by a plain invocation, or with an exception. */
  datatype LlmAttempt = StreamEnds(events: seq<LlmEvent>, invocation: Invocation)
                      | StreamRaises(events: seq<LlmEvent>, error: Failure)

  datatype CreateReply = Created(url: string) | CreateFails(error: Failure)

  /** Everything that happens around one run: which steps raise, what the model and git answer. */
  datatype Script = Script(
    start: real,
    setup: Option<Failure>,         // clone, checkout, repository and memory lookups
    attempts: seq<LlmAttempt>,
    stage: Option<Failure>,         // staging all changes
    hasChanges: bool,               // the staged diff is not empty
    nothingStaged: Failure,         // what committing nothing raises
    land: Option<Failure>,          // commit and push
    create: CreateReply,
    report: string,
    finish: real,
    flush: BulkReply)

  /** The write buffer's contents and those of the two indices. */
  datatype Memo = Memo(buffered: seq<TaskDoc>, shared: seq<SharedDoc>, store: Indices)

  // ----- The LLM loop

  function CheckpointDraft(req: Request): Draft {
    Draft("Running", req.skills, "checkpoint")
  }

  function Flushed(m: Memo, reply: BulkReply): Memo {
    m.(store := BulkWritten(m.store, m.buffered, m.shared, reply))
  }

  function Buffered(m: Memo, doc: TaskDoc): Memo {
    m.(buffered := m.buffered + [doc])
  }

  /** A long run checkpoints at every tool call: nothing ever moves the last flush time. */
  function AfterEvent(req: Request, start: real, m: Memo, e: LlmEvent): Memo {
    if e.ToolStart? && FlushDue(start, start, e.now) then
      Flushed(Buffered(m, Stamped(CheckpointDraft(req), req.taskId, e.now)), e.flush)
    else m
  }

  function AfterEvents(req: Request, start: real, m: Memo, events: seq<LlmEvent>): Memo
    decreases events
  {
    if events == [] then m else AfterEvents(req, start, AfterEvent(req, start, m, events[0]), events[1..])
  }

  function LastOutput(found: Option<LlmResult>, events: seq<LlmEvent>): Option<LlmResult>
    decreases events
  {
    if events == [] then found
    else LastOutput(if events[0].ChatModelEnd? then Some(events[0].output) else found, events[1..])
  }

  /** The last output wins: a later one replaces it, and no other event does. */
  lemma {:induction false} LastOutputWins(found: Option<LlmResult>, events: seq<LlmEvent>, e: LlmEvent)
    ensures LastOutput(found, []) == found
    ensures LastOutput(found, events + [e]) == if e.ChatModelEnd? then Some(e.output) else LastOutput(found, events)
    decreases events
  {
    if events == [] {
      assert [e][1..] == [];
    } else {
      assert (events + [e])[1..] == events[1..] + [e];
      LastOutputWins(if events[0].ChatModelEnd? then Some(events[0].output) else found, events[1..], e);
    }
  }

  /** Exactly when a run checkpoints: at each tool call more than 300 seconds after its start, with one
      document, and with a flush of all that is buffered then. */
  lemma {:induction false} CheckpointsExactly(req: Request, start: real, m: Memo, events: seq<LlmEvent>, e: LlmEvent)
    ensures AfterEvents(req, start, m, []) == m
    ensures var before, after := AfterEvents(req, start, m, events), AfterEvents(req, start, m, events + [e]);
      if e.ToolStart? && e.now - start > 300.0 then
        && after.buffered == before.buffered + [TaskDoc(req.taskId, e.now, "Running", req.skills, "checkpoint")]
        && after.shared == before.shared
        && after.store == BulkWritten(before.store, after.buffered, after.shared, e.flush)
      else after == before
    decreases events
  {
    if events == [] {
      assert [e][1..] == [];
    } else {
      assert (events + [e])[1..] == events[1..] + [e];
      CheckpointsExactly(req, start, AfterEvent(req, start, m, events[0]), events[1..], e);
    }
  }

  datatype Llm = Answered(result: LlmResult) | Raised(error: Failure)

  /** What one attempt comes to, given the last output seen so far. */
  function AttemptOutcome(found: Option<LlmResult>, a: LlmAttempt): Llm {
    if a.StreamRaises? then Raised(a.error)
    else if found.Some? then Answered(found.value)
    else if a.invocation.Answers? then Answered(a.invocation.result)
    else Raised(a.invocation.error)
  }

  const STEP_LIMIT_RESULT := LlmResult(false, {})

  function Power2(n: nat): nat {
    if n == 0 then 1 else 2 * Power2(n - 1)
  }

  datatype LlmRun = LlmRun(memo: Memo, llm: Llm, slept: nat)

  function RunAttempts(req: Request, start: real, m: Memo, found: Option<LlmResult>, attempts: seq<LlmAttempt>,
                       attempt: nat, slept: nat): LlmRun
    requires attempt < |attempts|
    decreases |attempts| - attempt
  {
    var a := attempts[attempt];
    var memo := AfterEvents(req, start, m, a.events);
    var output := LastOutput(found, a.events);
    var r := AttemptOutcome(output, a);
    if r.Answered? then LlmRun(memo, r, slept)
    else if r.error.recursion then LlmRun(memo, Answered(STEP_LIMIT_RESULT), slept)
    else if r.error.rateLimit && attempt < |attempts| - 1 then
      RunAttempts(req, start, memo, output, attempts, attempt + 1, slept + Power2(attempt) * BACKOFF_SECONDS)
    else LlmRun(memo, r, slept)
  }

  method Stream(req: Request, events: seq<LlmEvent>, found: Option<LlmResult>,
                buffer: MemoryWriteBuffer, store: MemoryStore) returns (result: Option<LlmResult>)
    requires buffer.taskId == req.taskId && buffer.lastFlushTime == buffer.startTime
    modifies buffer`taskDocs, store
    ensures result == LastOutput(found, events)
    ensures Memo(buffer.taskDocs, buffer.sharedDocs, store.Contents())
         == AfterEvents(req, buffer.startTime, old(Memo(buffer.taskDocs, buffer.sharedDocs, store.Contents())), events)
  {
    result := found;
    ghost var before := Memo(buffer.taskDocs, buffer.sharedDocs, store.Contents());
    assert events[0..] == events;
    for i := 0 to |events|
      invariant LastOutput(result, events[i..]) == LastOutput(found, events)
      invariant AfterEvents(req, buffer.startTime, Memo(buffer.taskDocs, buffer.sharedDocs, store.Contents()), events[i..])
             == AfterEvents(req, buffer.startTime, before, events)
    {
      assert events[i..][1..] == events[i + 1..];
      match events[i]
      case ToolStart(now, reply) =>
        var due := buffer.ShouldFlushIntermediate(now);
        if due {
          buffer.AddTaskMemory(CheckpointDraft(req), now);
          var _ := store.BulkWrite(buffer, reply);
        }
      case ChatModelEnd(output) =>
        result := Some(output);
      case OtherEvent =>
    }
  }

  method RunLlm(req: Request, attempts: seq<LlmAttempt>, buffer: MemoryWriteBuffer, store: MemoryStore)
    returns (r: Llm, slept: nat)
    requires attempts != []
    requires buffer.taskId == req.taskId && buffer.lastFlushTime == buffer.startTime
    modifies buffer`taskDocs, store
    ensures LlmRun(Memo(buffer.taskDocs, buffer.sharedDocs, store.Contents()), r, slept)
         == RunAttempts(req, buffer.startTime, old(Memo(buffer.taskDocs, buffer.sharedDocs, store.Contents())),
                        None, attempts, 0, 0)
  {
    var result: Option<LlmResult> := None;
    var attempt: nat := 0;
    slept := 0;
    ghost var goal := RunAttempts(req, buffer.startTime, Memo(buffer.taskDocs, buffer.sharedDocs, store.Contents()),
                                  None, attempts, 0, 0);
    while true
      invariant attempt < |attempts|
      invariant RunAttempts(req, buffer.startTime, Memo(buffer.taskDocs, buffer.sharedDocs, store.Contents()),
                            result, attempts, attempt, slept) == goal
      decreases |attempts| - attempt
    {
      var a := attempts[attempt];
      result := Stream(req, a.events, result, buffer, store);
      var error: Failure;
      if a.StreamRaises? {
        error := a.error;
      } else if result.Some? {
        return Answered(result.value), slept;
      } else if a.invocation.Answers? {
        return Answered(a.invocation.result), slept;
      } else {
        error := a.invocation.error;
      }
      if error.recursion {
        return Answered(STEP_LIMIT_RESULT), slept;
      } else if error.rateLimit && attempt < |attempts| - 1 {
        slept := slept + Power2(attempt) * BACKOFF_SECONDS;
        attempt := attempt + 1;
      } else {
        return Raised(error), slept;
      }
    }
  }

  /** The loop's sleep is bounded by the doubling backoff of all tries but the last, and it ends
      with the agent's answer or with the exception of one of its attempts. */
  lemma {:induction false} LlmSleepBound(req: Request, start: real, m: Memo, found: Option<LlmResult>,
                                         attempts: seq<LlmAttempt>, attempt: nat, slept: nat)
    requires attempt < |attempts|
    ensures var run := RunAttempts(req, start, m, found, attempts, attempt, slept);
      && run.slept + BACKOFF_SECONDS * Power2(attempt) <= slept + BACKOFF_SECONDS * Power2(|attempts| - 1)
      && (run.llm.Raised? ==>
            && !run.llm.error.recursion
            && exists i :: attempt <= i < |attempts| && AttemptRaised(attempts[i], run.llm.error)
                           && (run.llm.error.rateLimit ==> i == |attempts| - 1))
    decreases |attempts| - attempt
  {
    var a := attempts[attempt];
    var output := LastOutput(found, a.events);
    var r := AttemptOutcome(output, a);
    Power2Grows(attempt, |attempts| - 1);
    if r.Raised? {
      assert AttemptRaised(attempts[attempt], r.error);
      if !r.error.recursion && r.error.rateLimit && attempt < |attempts| - 1 {
        LlmSleepBound(req, start, AfterEvents(req, start, m, a.events), output, attempts, attempt + 1,
                      slept + Power2(attempt) * BACKOFF_SECONDS);
      }
    }
  }

  /** The output seen up to and including try `k`. */
  function OutputBy(found: Option<LlmResult>, attempts: seq<LlmAttempt>, k: nat): Option<LlmResult>
    requires k < |attempts|
  {
    LastOutput(if k == 0 then found else OutputBy(found, attempts, k - 1), attempts[k].events)
  }

  /** The error of try `k`, if it ends with one: its stream raises, or the plain invocation does that a
      stream without any output is followed by. */
  function TryError(found: Option<LlmResult>, attempts: seq<LlmAttempt>, k: nat): Option<Failure>
    requires k < |attempts|
  {
    match attempts[k]
    case StreamRaises(_, error) => Some(error)
    case StreamEnds(_, invocation) =>
      if OutputBy(found, attempts, k).None? && invocation.Fails? then Some(invocation.error) else None
  }

  /** A try after which the loop would go on, if it is not the last one. */
  predicate IsRetried(found: Option<LlmResult>, attempts: seq<LlmAttempt>, k: nat)
    requires k < |attempts|
  {
    match TryError(found, attempts, k)
    case Some(error) => error.rateLimit && !error.recursion
    case None => false
  }

  /** The tries before `k` were rate-limited, and `k` is not followed by another one. */
  predicate EndsAt(found: Option<LlmResult>, attempts: seq<LlmAttempt>, k: nat) {
    && k < |attempts|
    && (forall i :: 0 <= i < k ==> IsRetried(found, attempts, i))
    && (k < |attempts| - 1 ==> !IsRetried(found, attempts, k))
  }

  /** What the loop comes to when it ends at try `k`: an error, the empty result of a run that has hit its
      step limit, or the last output, for which the model is invoked only if there is none. */
  predicate AnswersAt(found: Option<LlmResult>, attempts: seq<LlmAttempt>, k: nat, llm: Llm)
    requires k < |attempts|
  {
    match TryError(found, attempts, k)
    case Some(error) => llm == if error.recursion then Answered(LlmResult(false, {})) else Raised(error)
    case None =>
      if OutputBy(found, attempts, k).Some? then llm == Answered(OutputBy(found, attempts, k).value)
      else attempts[k].StreamEnds? && attempts[k].invocation.Answers? && llm == Answered(attempts[k].invocation.result)
  }

  /** The loop from some try on, the ones before it having been rate-limited. */
  lemma {:induction false} LoopExactly(req: Request, start: real, m: Memo, first: Option<LlmResult>,
                                       found: Option<LlmResult>, attempts: seq<LlmAttempt>, attempt: nat, slept: nat)
    requires attempt < |attempts| && slept == 15 * (Power2(attempt) - 1)
    requires found == if attempt == 0 then first else OutputBy(first, attempts, attempt - 1)
    requires forall i :: 0 <= i < attempt ==> IsRetried(first, attempts, i)
    ensures var run := RunAttempts(req, start, m, found, attempts, attempt, slept);
      exists k :: EndsAt(first, attempts, k) && AnswersAt(first, attempts, k, run.llm) && run.slept == 15 * (Power2(k) - 1)
    decreases |attempts| - attempt
  {
    var a := attempts[attempt];
    var output := LastOutput(found, a.events);
    assert output == OutputBy(first, attempts, attempt);
    var r := AttemptOutcome(output, a);
    if r.Raised? && !r.error.recursion && r.error.rateLimit && attempt < |attempts| - 1 {
      LoopExactly(req, start, AfterEvents(req, start, m, a.events), first, output, attempts, attempt + 1,
                  slept + Power2(attempt) * BACKOFF_SECONDS);
    } else {
      assert EndsAt(first, attempts, attempt);
    }
  }

  /** A task's loop: it sleeps 0, 15 or 45 seconds, after none, one or two rate-limited tries. */
  lemma TaskLoopExactly(req: Request, start: real, m: Memo, attempts: seq<LlmAttempt>)
    requires |attempts| == LLM_TRIES
    ensures var run := RunAttempts(req, start, m, None, attempts, 0, 0);
      exists k :: EndsAt(None, attempts, k) && AnswersAt(None, attempts, k, run.llm)
                  && run.slept == (if k == 0 then 0 else if k == 1 then 15 else 45)
  {
    LoopExactly(req, start, m, None, None, attempts, 0, 0);
    assert Power2(2) == 2 * Power2(1) == 4;
  }

  predicate AttemptRaised(a: LlmAttempt, f: Failure) {
    if a.StreamRaises? then a.error == f else a.invocation == Fails(f)
  }

  lemma {:induction false} Power2Grows(m: nat, n: nat)
    requires m <= n
    ensures Power2(m) <= Power2(n)
  {
    if m < n {
      Power2Grows(m, n - 1);
    }
  }

  /** With the three tries of a task, at most 45 seconds. */
  lemma TaskSleepBound(req: Request, start: real, m: Memo, attempts: seq<LlmAttempt>)
    requires |attempts| == LLM_TRIES
    ensures RunAttempts(req, start, m, None, attempts, 0, 0).slept <= 45
  {
    LlmSleepBound(req, start, m, None, attempts, 0, 0);
    assert Power2(2) == 2 * Power2(1) == 4;
  }

  // ----- From the answer to the reported status

  const MEANINGFUL_TOOLS: set<string> := {"code_edit", "test_generator", "doc_update"}
  const SKILL_TOOLS: set<string> := {"code_edit", "test_generator", "doc_update", "graphql_debug"}

  predicate TaskIncomplete(hasChanges: bool, r: LlmResult) {
    !hasChanges && (r.admitsFailure || r.tools !! MEANINGFUL_TOOLS)
  }

  predicate ShouldWriteToSharedMemory(status: string, hasChanges: bool, tools: set<string>) {
    (status == "Succeeded" || status == "success") && hasChanges && !(tools !! SKILL_TOOLS)
  }

  function PhaseName(p: TaskPhase): string {
    match p
    case Running => "Running"
    case Succeeded => "Succeeded"
    case Incomplete => "Incomplete"
    case Failed => "Failed"
    case Completed => "Completed"
    case OtherPhase => ""
  }

  /** The document that records how a run ended. */
  function OutcomeDoc(req: Request, s: Script, p: TaskPhase): (d: TaskDoc)
    ensures p == Succeeded ==> d == TaskDoc(req.taskId, s.finish, "Succeeded", req.skills, s.report)
    ensures p == Incomplete ==> d == TaskDoc(req.taskId, s.finish, "Incomplete", req.skills, s.report)
    ensures p == Failed ==> d == TaskDoc(req.taskId, s.finish, "Failed", req.skills, s.report)
  {
    Stamped(Draft(PhaseName(p), req.skills, s.report), req.taskId, s.finish)
  }

  function SharedOutcome(req: Request, s: Script): SharedDoc {
    SharedDoc("Succeeded", req.skills, s.report)
  }

  datatype Steps = Reported(status: TaskStatus) | Aborted(error: Failure)

  /** How far a run got: memory, calls to create a draft PR, and the result of its steps. */
  datatype TaskRun = TaskRun(memo: Memo, drafts: nat, steps: Steps)

  /** Publishing the work: the URL to report, when nothing raises. */
  function PublishedUrl(req: Request, s: Script): Option<string> {
    if s.land.Some? then None
    else if req.prUrl != "" then Some(req.prUrl)
    else if s.create.Created? then Some(s.create.url)
    else None
  }

  function PublishError(req: Request, s: Script): Failure {
    if s.land.Some? then s.land.value
    else if s.create.CreateFails? then s.create.error else s.nothingStaged
  }

  function DraftCalls(req: Request, s: Script): nat {
    if s.land.None? && req.prUrl == "" then 1 else 0
  }

  /** The steps of a run up to the point where its status is known or a step raises. */
  function RunSteps(req: Request, s: Script, ix: Indices): TaskRun
    requires s.attempts != []
  {
    var m0 := Memo([], [], ix);
    if s.setup.Some? then TaskRun(m0, 0, Aborted(s.setup.value))
    else
      var run := RunAttempts(req, s.start, m0, None, s.attempts, 0, 0);
      var m := run.memo;
      if run.llm.Raised? then TaskRun(m, 0, Aborted(run.llm.error))
      else if s.stage.Some? then TaskRun(m, 0, Aborted(s.stage.value))
      else
        var r := run.llm.result;
        var url := PublishedUrl(req, s);
        var incomplete := TaskIncomplete(s.hasChanges, r);
        if !incomplete && !s.hasChanges then TaskRun(m, 0, Aborted(s.nothingStaged))
        else if url.None? then TaskRun(m, DraftCalls(req, s), Aborted(PublishError(req, s)))
        else if incomplete then
          TaskRun(Flushed(Buffered(m, OutcomeDoc(req, s, Incomplete)), s.flush), DraftCalls(req, s),
                  Reported(TaskStatus(Incomplete, 100, url.value, false, false)))
        else
          var b := Buffered(m, OutcomeDoc(req, s, Succeeded));
          var c := if ShouldWriteToSharedMemory("Succeeded", true, r.tools)
                   then b.(shared := b.shared + [SharedOutcome(req, s)]) else b;
          TaskRun(Flushed(c, s.flush), DraftCalls(req, s),
                  Reported(TaskStatus(Succeeded, 100, url.value, false, false)))
  }

  /** A step that raised is recorded as a failed run. */
  function Outcome(req: Request, s: Script, ix: Indices): TaskRun
    requires s.attempts != []
  {
    var t := RunSteps(req, s, ix);
    if t.steps.Reported? then t
    else TaskRun(Flushed(Buffered(t.memo, OutcomeDoc(req, s, Failed)), s.flush), t.drafts,
                 Reported(TaskStatus(Failed, 0, req.prUrl, t.steps.error.rateLimit, t.steps.error.limitInMessage)))
  }

  class GitHubClient {
    var drafts: nat

    method CreateDraftPr(reply: CreateReply) returns (r: CreateReply)
      modifies this
      ensures drafts == old(drafts) + 1 && r == reply
    {
      drafts := drafts + 1;
      r := reply;
    }
  }

  method HandleIncomplete(req: Request, s: Script, buffer: MemoryWriteBuffer, store: MemoryStore,
                          github: GitHubClient) returns (r: Steps)
    requires buffer.taskId == req.taskId
    modifies buffer`taskDocs, store, github
    ensures github.drafts == old(github.drafts) + DraftCalls(req, s)
    ensures var url := PublishedUrl(req, s);
      var m := old(Memo(buffer.taskDocs, buffer.sharedDocs, store.Contents()));
      && r == (if url.Some? then Reported(TaskStatus(Incomplete, 100, url.value, false, false))
               else Aborted(PublishError(req, s)))
      && Memo(buffer.taskDocs, buffer.sharedDocs, store.Contents())
         == if url.Some? then Flushed(Buffered(m, OutcomeDoc(req, s, Incomplete)), s.flush) else m
  {
    if s.land.Some? { return Aborted(s.land.value); }
    var prUrl := req.prUrl;
    if prUrl == "" {
      var created := github.CreateDraftPr(s.create);
      if created.CreateFails? { return Aborted(created.error); }
      prUrl := created.url;
    }
    buffer.AddTaskMemory(Draft(PhaseName(Incomplete), req.skills, s.report), s.finish);
    var _ := store.BulkWrite(buffer, s.flush);
    r := Reported(TaskStatus(Incomplete, 100, prUrl, false, false));
  }

  method TrySteps(req: Request, s: Script, buffer: MemoryWriteBuffer, store: MemoryStore,
                  github: GitHubClient) returns (r: Steps)
    requires s.attempts != []
    requires buffer.taskId == req.taskId && buffer.startTime == buffer.lastFlushTime == s.start
    requires buffer.taskDocs == [] && buffer.sharedDocs == []
    modifies buffer, store, github
    ensures github.drafts >= old(github.drafts)
    ensures TaskRun(Memo(buffer.taskDocs, buffer.sharedDocs, store.Contents()), github.drafts - old(github.drafts), r)
         == RunSteps(req, s, old(store.Contents()))
  {
    if s.setup.Some? { return Aborted(s.setup.value); }
    var llm, _ := RunLlm(req, s.attempts, buffer, store);
    if llm.Raised? { return Aborted(llm.error); }
    if s.stage.Some? { return Aborted(s.stage.value); }
    if TaskIncomplete(s.hasChanges, llm.result) {
      r := HandleIncomplete(req, s, buffer, store, github);
      return;
    }
    if !s.hasChanges { return Aborted(s.nothingStaged); }
    if s.land.Some? { return Aborted(s.land.value); }
    var prUrl := req.prUrl;
    if prUrl == "" {
      var created := github.CreateDraftPr(s.create);
      if created.CreateFails? { return Aborted(created.error); }
      prUrl := created.url;
    }
    buffer.AddTaskMemory(Draft(PhaseName(Succeeded), req.skills, s.report), s.finish);
    if ShouldWriteToSharedMemory("Succeeded", true, llm.result.tools) {
      buffer.AddSharedMemory(SharedOutcome(req, s));
    }
    var _ := store.BulkWrite(buffer, s.flush);
    r := Reported(TaskStatus(Succeeded, 100, prUrl, false, false));
  }

  method RunTask(req: Request, s: Script, store: MemoryStore, github: GitHubClient)
    returns (status: TaskStatus, buffer: MemoryWriteBuffer)
    requires s.attempts != []
    modifies store, github
    ensures fresh(buffer)
    ensures github.drafts >= old(github.drafts)
    ensures TaskRun(Memo(buffer.taskDocs, buffer.sharedDocs, store.Contents()), github.drafts - old(github.drafts),
                    Reported(status))
         == Outcome(req, s, old(store.Contents()))
  {
    buffer := new MemoryWriteBuffer(req.taskId, s.start);
    var steps := TrySteps(req, s, buffer, store, github);
    if steps.Reported? {
      return steps.status, buffer;
    }
    var prUrl := req.prUrl;
    buffer.AddTaskMemory(Draft(PhaseName(Failed), req.skills, s.report), s.finish);
    var _ := store.BulkWrite(buffer, s.flush);
    status := TaskStatus(Failed, 0, prUrl, steps.error.rateLimit, steps.error.limitInMessage);
  }

  // ----- What every run records

  predicate Checkpoints(docs: seq<TaskDoc>, taskId: string) {
    forall i :: 0 <= i < |docs| ==> docs[i].phase == "Running" && docs[i].taskId == taskId
  }

  lemma {:induction false} EventsBufferCheckpoints(req: Request, start: real, m: Memo, events: seq<LlmEvent>)
    requires Checkpoints(m.buffered, req.taskId)
    ensures var after := AfterEvents(req, start, m, events);
      Checkpoints(after.buffered, req.taskId) && after.shared == m.shared
    decreases events
  {
    if events != [] {
      EventsBufferCheckpoints(req, start, AfterEvent(req, start, m, events[0]), events[1..]);
    }
  }

  lemma {:induction false} LlmBuffersCheckpoints(req: Request, start: real, m: Memo, found: Option<LlmResult>,
                                                 attempts: seq<LlmAttempt>, attempt: nat, slept: nat)
    requires attempt < |attempts| && Checkpoints(m.buffered, req.taskId)
    ensures var memo := RunAttempts(req, start, m, found, attempts, attempt, slept).memo;
      Checkpoints(memo.buffered, req.taskId) && memo.shared == m.shared
    decreases |attempts| - attempt
  {
    var a := attempts[attempt];
    EventsBufferCheckpoints(req, start, m, a.events);
    if attempt + 1 < |attempts| {
      LlmBuffersCheckpoints(req, start, AfterEvents(req, start, m, a.events), LastOutput(found, a.events),
                            attempts, attempt + 1, slept + Power2(attempt) * BACKOFF_SECONDS);
    }
  }

  /** The answer the run's LLM loop gave, when it gave one. */
  function LlmAnswer(req: Request, s: Script, ix: Indices): Option<LlmResult>
    requires s.attempts != []
  {
    var llm := RunAttempts(req, s.start, Memo([], [], ix), None, s.attempts, 0, 0).llm;
    if s.setup.None? && llm.Answered? then Some(llm.result) else None
  }

  /** Memory as the LLM loop leaves it, before the run's outcome is recorded. */
  function LlmMemo(req: Request, s: Script, ix: Indices): Memo
    requires s.attempts != []
  {
    var m0 := Memo([], [], ix);
    if s.setup.Some? then m0 else RunAttempts(req, s.start, m0, None, s.attempts, 0, 0).memo
  }

  /** Whatever path a run takes, it adds one document to the buffer and flushes once more. */
  lemma OutcomeShape(req: Request, s: Script, ix: Indices)
    requires s.attempts != []
    ensures var run := Outcome(req, s, ix);
      && run.steps.Reported?
      && run.memo.buffered == LlmMemo(req, s, ix).buffered + [OutcomeDoc(req, s, run.steps.status.phase)]
      && run.memo.store == BulkWritten(LlmMemo(req, s, ix).store, run.memo.buffered, run.memo.shared, s.flush)
  {
  }

  lemma LlmMemoCheckpoints(req: Request, s: Script, ix: Indices)
    requires s.attempts != []
    ensures Checkpoints(LlmMemo(req, s, ix).buffered, req.taskId) && LlmMemo(req, s, ix).shared == []
  {
    LlmBuffersCheckpoints(req, s.start, Memo([], [], ix), None, s.attempts, 0, 0);
  }

  predicate UsedSkillTool(tools: set<string>) {
    "code_edit" in tools || "test_generator" in tools || "doc_update" in tools || "graphql_debug" in tools
  }

  predicate UsedMeaningfulTool(tools: set<string>) {
    "code_edit" in tools || "test_generator" in tools || "doc_update" in tools
  }

  /** Every run buffers checkpoints and then exactly one outcome document, in the reported phase.
      Success needs staged changes; only a success that used a skill tool offers shared knowledge. */
  lemma OutcomeSound(req: Request, s: Script, ix: Indices)
    requires s.attempts != []
    ensures var run := Outcome(req, s, ix);
      && run.steps.Reported?
      && run.steps.status.phase in {Succeeded, Incomplete, Failed}
      && (exists checkpoints :: Checkpoints(checkpoints, req.taskId)
            && run.memo.buffered == checkpoints + [OutcomeDoc(req, s, run.steps.status.phase)])
      && (run.steps.status.phase == Succeeded ==>
            s.setup.None? && s.stage.None? && s.hasChanges && s.land.None? && LlmAnswer(req, s, ix).Some?)
      && run.memo.shared ==
         if run.steps.status.phase == Succeeded && UsedSkillTool(LlmAnswer(req, s, ix).value.tools)
         then [SharedDoc("Succeeded", req.skills, s.report)] else []
  {
    LlmMemoCheckpoints(req, s, ix);
    OutcomeShape(req, s, ix);
    if LlmAnswer(req, s, ix).Some? {
      var tools := LlmAnswer(req, s, ix).value.tools;
      assert UsedSkillTool(tools) <==> !(tools !! SKILL_TOOLS) by {
        assert forall t :: t in SKILL_TOOLS <==> t == "code_edit" || t == "test_generator" || t == "doc_update" || t == "graphql_debug";
        assert !(tools !! SKILL_TOOLS) ==> exists t :: t in tools && t in SKILL_TOOLS;
      }
    }
  }

  /** The steps that every reported result needs: setup, an answer, staging, and publication. */
  predicate Published(req: Request, s: Script, ix: Indices)
    requires s.attempts != []
  {
    && LlmAnswer(req, s, ix).Some? && s.stage.None? && s.land.None?
    && (req.prUrl == "" ==> s.create.Created?)
  }

  lemma IncompleteExactly(hasChanges: bool, r: LlmResult)
    ensures TaskIncomplete(hasChanges, r) <==> !hasChanges && (r.admitsFailure || !UsedMeaningfulTool(r.tools))
  {
    assert forall t :: t in MEANINGFUL_TOOLS <==> t == "code_edit" || t == "test_generator" || t == "doc_update";
    assert !(r.tools !! MEANINGFUL_TOOLS) ==> exists t :: t in r.tools && t in MEANINGFUL_TOOLS;
  }

  /** Exactly when a run succeeds, and exactly when it is incomplete; every other run has failed. Exactly
      when it asks for a draft PR, whether that raises or not. */
  lemma PhaseExactly(req: Request, s: Script, ix: Indices)
    requires s.attempts != []
    ensures var run := Outcome(req, s, ix);
      var answer := LlmAnswer(req, s, ix);
      && run.steps.Reported?
      && (run.steps.status.phase == Succeeded <==> Published(req, s, ix) && s.hasChanges)
      && (run.steps.status.phase == Incomplete <==>
            Published(req, s, ix) && !s.hasChanges
            && (answer.value.admitsFailure || !UsedMeaningfulTool(answer.value.tools)))
      && (run.steps.status.phase == Failed <==>
            run.steps.status.phase != Succeeded && run.steps.status.phase != Incomplete)
      && run.drafts ==
           (if answer.Some? && s.stage.None? && s.land.None? && req.prUrl == ""
               && (s.hasChanges || answer.value.admitsFailure || !UsedMeaningfulTool(answer.value.tools)) then 1 else 0)
  {
    OutcomeSound(req, s, ix);
    if LlmAnswer(req, s, ix).Some? {
      IncompleteExactly(s.hasChanges, LlmAnswer(req, s, ix).value);
    }
  }

  /** The exception that ends a run is that of the first step that raises; a commit of nothing is one. */
  lemma FirstErrorExactly(req: Request, s: Script, ix: Indices)
    requires s.attempts != []
    ensures var steps, answer := RunSteps(req, s, ix).steps, LlmAnswer(req, s, ix);
      && (s.setup.Some? ==> steps == Aborted(s.setup.value))
      && (s.setup.None? && answer.None? ==>
            steps.Aborted? && Raised(steps.error) == RunAttempts(req, s.start, Memo([], [], ix), None, s.attempts, 0, 0).llm)
      && (answer.Some? && s.stage.Some? ==> steps == Aborted(s.stage.value))
      && (answer.Some? && s.stage.None? ==>
            if !s.hasChanges && !answer.value.admitsFailure && UsedMeaningfulTool(answer.value.tools)
            then steps == Aborted(s.nothingStaged)
            else if s.land.Some? then steps == Aborted(s.land.value)
            else if req.prUrl == "" && s.create.CreateFails? then steps == Aborted(s.create.error)
            else steps.Reported?)
  {
    if LlmAnswer(req, s, ix).Some? {
      IncompleteExactly(s.hasChanges, LlmAnswer(req, s, ix).value);
    }
  }

  /** A failed run reports no progress, its given PR, and whether its exception was a rate limit. */
  lemma FailureReported(req: Request, s: Script, ix: Indices)
    requires s.attempts != []
    ensures var steps, run := RunSteps(req, s, ix).steps, Outcome(req, s, ix);
      && run.steps.Reported?
      && (steps.Aborted? ==> run.steps.status == TaskStatus(Failed, 0, req.prUrl, steps.error.rateLimit, steps.error.limitInMessage))
      && (steps.Reported? ==> run.steps == steps && run.steps.status.progress == 100
                              && !run.steps.status.rateLimited && !run.steps.status.limitInMessage)
  {
  }

  // ----- From a run to graduation

  lemma CheckpointsNeverSucceed(docs: seq<TaskDoc>, rejected: set<nat>, taskId: string, id: string)
    requires Checkpoints(docs, taskId)
    ensures Successes(Accepted(docs, rejected, 0), id) == []
  {
    var taken := Accepted(docs, rejected, 0);
    AcceptedAreOffered(docs, rejected, 0);
    SuccessesExactly(taken, [], id);
    assert forall d :: d in Successes(taken, id) ==> d in docs && d.phase == "Succeeded";
    NonemptyHasMember(Successes(taken, id));
  }

  lemma NonemptyHasMember<T>(s: seq<T>)
    ensures s != [] ==> exists d :: d in s
  {
    if s != [] {
      assert s[0] in s;
    }
  }

  lemma OutcomeTaken(store: seq<TaskDoc>, docs: seq<TaskDoc>, outcome: TaskDoc, rejected: set<nat>, taskId: string, id: string)
    requires Checkpoints(docs, taskId)
    ensures Successes(store + Accepted(docs + [outcome], rejected, 0), id) == Successes(store, id) +
      (if id == outcome.taskId && outcome.phase == "Succeeded" && |docs| !in rejected then [outcome] else [])
  {
    var taken, last := Accepted(docs, rejected, 0), if |docs| in rejected then [] else [outcome];
    AcceptedExactly(docs, outcome, rejected, 0);
    CheckpointsNeverSucceed(docs, rejected, taskId, id);
    SuccessesExactly(taken, last, id);
    SuccessesExactly(store, taken + last, id);
    assert [outcome][1..] == [];
  }

  /** What a run's last flush leaves: the task gains one succeeded result exactly if the run succeeded
      and the store took the outcome document, and shared memory gains one document exactly if the run
      offered it and the store took that. Failed and incomplete runs leave no result. */
  lemma RunRecords(req: Request, s: Script, ix: Indices, id: string)
    requires s.attempts != []
    ensures var run, before := Outcome(req, s, ix), LlmMemo(req, s, ix);
      var n := |before.buffered|;
      && run.steps.Reported?
      && Successes(run.memo.store.tasks, id) == Successes(before.store.tasks, id) +
           (if id == req.taskId && run.steps.status.phase == Succeeded && n !in s.flush.rejected
            then [TaskDoc(req.taskId, s.finish, "Succeeded", req.skills, s.report)] else [])
      && run.memo.store.shared == before.store.shared +
           (if run.memo.shared != [] && n + 1 !in s.flush.rejected
            then [SharedDoc("Succeeded", req.skills, s.report)] else [])
  {
    var run, before := Outcome(req, s, ix), LlmMemo(req, s, ix);
    OutcomeShape(req, s, ix);
    OutcomeSound(req, s, ix);
    LlmMemoCheckpoints(req, s, ix);
    OutcomeTaken(before.store.tasks, before.buffered, OutcomeDoc(req, s, run.steps.status.phase), s.flush.rejected,
                 req.taskId, id);
    if run.memo.shared != [] {
      SharedTaken(run.memo.shared[0], |run.memo.buffered|, s.flush.rejected);
    }
  }

  lemma SharedTaken(doc: SharedDoc, offset: nat, rejected: set<nat>)
    ensures Accepted([doc], rejected, offset) == if offset in rejected then [] else [doc]
  {
    assert [doc][1..] == [];
  }

  /** A first success that the store took becomes the task's shared knowledge when its PR is decided. */
  lemma SuccessIsGraduated(req: Request, s: Script, ix: Indices, prState: string)
    requires s.attempts != [] && Successes(LlmMemo(req, s, ix).store.tasks, req.taskId) == []
    requires Outcome(req, s, ix).steps.Reported? && Outcome(req, s, ix).steps.status.phase == Succeeded
    requires |LlmMemo(req, s, ix).buffered| !in s.flush.rejected
    ensures var store := Outcome(req, s, ix).memo.store;
      var after := AfterGraduate(store, req.taskId, prState, ALL_ANSWER);
      && after.shared == store.shared +
           [SharedDoc(if prState == "merged" then "merged" else "closed without merge", req.skills, s.report)]
      && forall d :: d in after.tasks <==> d in store.tasks && d.taskId != req.taskId
  {
    var store := Outcome(req, s, ix).memo.store;
    RunRecords(req, s, ix, req.taskId);
    WithoutSound(store.tasks, req.taskId, req.taskId);
  }

  /** What a run reports about its PR: a URL it was given stays, and then no draft is created. */
  lemma RunKeepsPr(req: Request, s: Script, ix: Indices)
    requires s.attempts != []
    ensures var run := Outcome(req, s, ix);
      && run.drafts <= 1
      && run.steps.Reported?
      && (req.prUrl != "" ==> run.drafts == 0 && run.steps.status.prUrl == req.prUrl)
      && (run.steps.status.phase == Failed ==> run.steps.status.prUrl == req.prUrl)
      && (run.steps.status.phase != Failed && req.prUrl == "" ==>
            run.drafts == 1 && s.create == Created(run.steps.status.prUrl))
      && 0 <= run.steps.status.progress <= 100
  {
  }

  // ----- Flush accounting

  predicate FlushesSucceed(events: seq<LlmEvent>) {
    forall i :: 0 <= i < |events| && events[i].ToolStart? ==> events[i].flush.rejected == {}
  }

  predicate AllFlushesSucceed(s: Script) {
    && s.flush.rejected == {}
    && forall i :: 0 <= i < |s.attempts| ==> FlushesSucceed(s.attempts[i].events)
  }

  /** Documents gained so far: every earlier flush sent all documents buffered by then. */
  function Triangle(n: nat): nat {
    n * (n + 1) / 2
  }

  lemma TriangleStep(n: nat)
    ensures Triangle(n + 1) == Triangle(n) + n + 1
  {
    assert (n + 1) * (n + 2) == n * (n + 1) + 2 * (n + 1);
  }

  ghost predicate Accounted(m: Memo, base: nat) {
    |m.store.tasks| == base + Triangle(|m.buffered|)
  }

  lemma FlushAccounts(m: Memo, doc: TaskDoc, reply: BulkReply, base: nat)
    requires Accounted(m, base) && reply.rejected == {}
    ensures Accounted(Flushed(Buffered(m, doc), reply), base)
  {
    AllAccepted(m.buffered + [doc], 0);
    TriangleStep(|m.buffered|);
  }

  lemma {:induction false} EventsAccount(req: Request, start: real, m: Memo, events: seq<LlmEvent>, base: nat)
    requires Accounted(m, base) && FlushesSucceed(events)
    ensures Accounted(AfterEvents(req, start, m, events), base)
    decreases events
  {
    if events != [] {
      var e := events[0];
      if e.ToolStart? {
        FlushAccounts(m, Stamped(CheckpointDraft(req), req.taskId, e.now), e.flush, base);
      }
      EventsAccount(req, start, AfterEvent(req, start, m, e), events[1..], base);
    }
  }

  lemma {:induction false} LlmAccounts(req: Request, start: real, m: Memo, found: Option<LlmResult>,
                                       attempts: seq<LlmAttempt>, attempt: nat, slept: nat, base: nat)
    requires attempt < |attempts| && Accounted(m, base)
    requires forall i :: 0 <= i < |attempts| ==> FlushesSucceed(attempts[i].events)
    ensures Accounted(RunAttempts(req, start, m, found, attempts, attempt, slept).memo, base)
    decreases |attempts| - attempt
  {
    var a := attempts[attempt];
    EventsAccount(req, start, m, a.events, base);
    if attempt + 1 < |attempts| {
      LlmAccounts(req, start, AfterEvents(req, start, m, a.events), LastOutput(found, a.events),
                  attempts, attempt + 1, slept + Power2(attempt) * BACKOFF_SECONDS, base);
    }
  }

  /** The last flush offers again everything the run buffered: if the store takes all of it, the
      run's memory is complete, whatever became of earlier flushes. */
  lemma LastFlushCompletes(req: Request, s: Script, ix: Indices)
    requires s.attempts != [] && s.flush.rejected == {}
    ensures var run := Outcome(req, s, ix);
      run.memo.store == Indices(LlmMemo(req, s, ix).store.tasks + run.memo.buffered,
                                LlmMemo(req, s, ix).store.shared + run.memo.shared)
  {
    var run := Outcome(req, s, ix);
    OutcomeShape(req, s, ix);
    AllAccepted(run.memo.buffered, 0);
    AllAccepted(run.memo.shared, |run.memo.buffered|);
  }

  /** With `n` checkpoints and no rejection, task memory gains (n+1)(n+2)/2 documents: nothing
      clears the buffer between flushes. */
  lemma FlushCount(req: Request, s: Script, ix: Indices)
    requires s.attempts != [] && AllFlushesSucceed(s)
    ensures var run := Outcome(req, s, ix);
      var n := |LlmMemo(req, s, ix).buffered|;
      && |run.memo.buffered| == n + 1
      && |run.memo.store.tasks| - |ix.tasks| == (n + 1) * (n + 2) / 2
  {
    LlmAccounts(req, s.start, Memo([], [], ix), None, s.attempts, 0, 0, |ix.tasks|);
    OutcomeShape(req, s, ix);
    LastFlushCompletes(req, s, ix);
    assert Accounted(LlmMemo(req, s, ix), |ix.tasks|);
    TriangleStep(|LlmMemo(req, s, ix).buffered|);
  }
}
