/** Graduation calls that may fail at any point: what is shared, how often, and what is left. */
module Graduation {
  import opened Memory

  datatype Request = Request(taskId: string, prState: string, replies: GraduateReplies)

  /** The indices after a sequence of calls. */
  function AfterRequests(ix: Indices, calls: seq<Request>): Indices
    decreases |calls|
  {
    if calls == [] then ix
    else
      var last := calls[|calls| - 1];
      AfterGraduate(AfterRequests(ix, calls[..|calls| - 1]), last.taskId, last.prState, last.replies)
  }

  /** The documents that the calls for one task have added. */
  function GainedFor(ix: Indices, calls: seq<Request>, taskId: string): seq<SharedDoc>
    decreases |calls|
  {
    if calls == [] then []
    else
      var before := calls[..|calls| - 1];
      GainedFor(ix, before, taskId)
      + (if calls[|calls| - 1].taskId == taskId
         then Added(AfterRequests(ix, before).shared, AfterRequests(ix, calls).shared) else [])
  }

  function Added(before: seq<SharedDoc>, after: seq<SharedDoc>): seq<SharedDoc> {
    if before <= after then after[|before|..] else []
  }

  // ----- What the replies decide

  predicate Shares(r: GraduateReplies) {
    r.lookupAnswers && r.storeAnswers
  }

  /** The call gets to its deletion and that is served: finding a result that cannot be stored ends
      the call before. `docs` is task memory before any call. */
  predicate Deletes(docs: seq<TaskDoc>, c: Request) {
    c.replies.deleteAnswers
    && (c.replies.lookupAnswers && LatestSuccess(docs, c.taskId).Some? ==> c.replies.storeAnswers)
  }

  /** Some call has deleted the task's memory. */
  predicate Gone(docs: seq<TaskDoc>, calls: seq<Request>, taskId: string) {
    exists i :: 0 <= i < |calls| && calls[i].taskId == taskId && Deletes(docs, calls[i])
  }

  /** Call `i` is for the task, finds and stores, and no call before it has deleted the memory. */
  predicate SharesAt(docs: seq<TaskDoc>, calls: seq<Request>, taskId: string, i: nat)
    requires i < |calls|
  {
    calls[i].taskId == taskId && Shares(calls[i].replies) && !Gone(docs, calls[..i], taskId)
  }

  /** All those calls, in order. */
  function SharingCalls(docs: seq<TaskDoc>, calls: seq<Request>, taskId: string): seq<Request>
    decreases |calls|
  {
    if calls == [] then []
    else
      var n := |calls| - 1;
      SharingCalls(docs, calls[..n], taskId) + (if SharesAt(docs, calls, taskId, n) then [calls[n]] else [])
  }

  lemma GoneExtended(docs: seq<TaskDoc>, calls: seq<Request>, taskId: string)
    requires calls != []
    ensures var n := |calls| - 1;
      Gone(docs, calls, taskId) <==>
        Gone(docs, calls[..n], taskId) || (calls[n].taskId == taskId && Deletes(docs, calls[n]))
  {
    var n := |calls| - 1;
    assert forall i :: 0 <= i < n ==> calls[..n][i] == calls[i];
  }

  // ----- Task memory

  /** A task's memory is as it was until a call deletes it; then nothing of it is left. */
  ghost predicate MemoryAfter(before: seq<TaskDoc>, after: seq<TaskDoc>, taskId: string, gone: bool) {
    && Successes(after, taskId) == (if gone then [] else Successes(before, taskId))
    && forall d: TaskDoc :: d.taskId == taskId ==> (d in after <==> d in before && !gone)
  }

  lemma {:induction false} MemoryAlways(ix: Indices, calls: seq<Request>, taskId: string)
    ensures MemoryAfter(ix.tasks, AfterRequests(ix, calls).tasks, taskId, Gone(ix.tasks, calls, taskId))
    decreases |calls|
  {
    if calls != [] {
      var n := |calls| - 1;
      MemoryAlways(ix, calls[..n], taskId);
      MemoryAlways(ix, calls[..n], calls[n].taskId);
      GoneExtended(ix.tasks, calls, taskId);
      WithoutSound(AfterRequests(ix, calls[..n]).tasks, calls[n].taskId, taskId);
    }
  }

  // ----- Shared memory

  lemma CallGains(ix: Indices, calls: seq<Request>)
    requires calls != []
    ensures var n := |calls| - 1;
      var known := LatestSuccess(ix.tasks, calls[n].taskId);
      AfterRequests(ix, calls).shared == AfterRequests(ix, calls[..n]).shared +
        (if known.Some? && SharesAt(ix.tasks, calls, calls[n].taskId, n)
         then [Knowledge(known.value, calls[n].prState)] else [])
  {
    var n := |calls| - 1;
    MemoryAlways(ix, calls[..n], calls[n].taskId);
  }

  /** What a sequence of sharing calls adds, each from the task's latest result. */
  function FromResult(known: TaskDoc, calls: seq<Request>): seq<SharedDoc> {
    seq(|calls|, i requires 0 <= i < |calls| => Knowledge(known, calls[i].prState))
  }

  /** Whatever fails: a task gains one document for each call whose lookup and store answer before
      its memory is first deleted, each from its latest result, and nothing without a result. */
  lemma {:induction false} GainedExactly(ix: Indices, calls: seq<Request>, taskId: string)
    ensures var known := LatestSuccess(ix.tasks, taskId);
      GainedFor(ix, calls, taskId) ==
        if known.Some? then FromResult(known.value, SharingCalls(ix.tasks, calls, taskId)) else []
    decreases |calls|
  {
    if calls != [] {
      GainedExactly(ix, calls[..|calls| - 1], taskId);
      CallGains(ix, calls);
    }
  }

  lemma {:induction false} SharingIndices(docs: seq<TaskDoc>, calls: seq<Request>, taskId: string)
    ensures SharingCalls(docs, calls, taskId) != [] <==>
              exists i :: 0 <= i < |calls| && SharesAt(docs, calls, taskId, i)
    ensures |SharingCalls(docs, calls, taskId)| >= 2 <==>
              exists i, j :: 0 <= i < j < |calls| && SharesAt(docs, calls, taskId, i) && SharesAt(docs, calls, taskId, j)
    decreases |calls|
  {
    if calls != [] {
      var n := |calls| - 1;
      var before := calls[..n];
      SharingIndices(docs, before, taskId);
      forall i | 0 <= i < n ensures SharesAt(docs, calls, taskId, i) <==> SharesAt(docs, before, taskId, i) {
        assert before[..i] == calls[..i];
      }
    }
  }

  /** Exactly when a task's knowledge is shared more than once. */
  lemma DuplicatesExactly(ix: Indices, calls: seq<Request>, taskId: string)
    requires LatestSuccess(ix.tasks, taskId).Some?
    ensures |GainedFor(ix, calls, taskId)| >= 2 <==>
      exists i, j :: 0 <= i < j < |calls| && SharesAt(ix.tasks, calls, taskId, i) && SharesAt(ix.tasks, calls, taskId, j)
  {
    GainedExactly(ix, calls, taskId);
    SharingIndices(ix.tasks, calls, taskId);
  }
}
