/** The worker's memory pipeline: the write buffer, the two indices, and graduation. */
module Memory {
  import opened Options

  const FLUSH_AFTER_SECONDS: real := 300.0

  /** A task-memory document; `text` stands for its prompt, output and methodology fields. */
  datatype TaskDoc = TaskDoc(taskId: string, stamp: real, phase: string, skills: seq<string>, text: string)

  /** A document before the buffer adds the task's id and the time. */
  datatype Draft = Draft(phase: string, skills: seq<string>, text: string)

  datatype SharedDoc = SharedDoc(outcome: string, skills: seq<string>, text: string)

  /** The contents of the two indices. */
  datatype Indices = Indices(tasks: seq<TaskDoc>, shared: seq<SharedDoc>)

  function Stamped(d: Draft, taskId: string, now: real): TaskDoc {
    TaskDoc(taskId, now, d.phase, d.skills, d.text)
  }

  /** The flush test of a buffer started at `start` and last cleared at `lastFlush`. */
  predicate FlushDue(start: real, lastFlush: real, now: real) {
    now - start > FLUSH_AFTER_SECONDS && now - lastFlush > FLUSH_AFTER_SECONDS
  }

  class MemoryWriteBuffer {
    const taskId: string
    const startTime: real
    var taskDocs: seq<TaskDoc>
    var sharedDocs: seq<SharedDoc>
    var lastFlushTime: real

    constructor (taskId: string, now: real)
      ensures this.taskId == taskId && startTime == lastFlushTime == now
      ensures taskDocs == [] && sharedDocs == []
    {
      this.taskId := taskId;
      startTime := now;
      lastFlushTime := now;
      taskDocs := [];
      sharedDocs := [];
    }

    method AddTaskMemory(d: Draft, now: real)
      modifies this`taskDocs
      ensures taskDocs == old(taskDocs) + [Stamped(d, taskId, now)]
    {
      taskDocs := taskDocs + [Stamped(d, taskId, now)];
    }

    method AddSharedMemory(d: SharedDoc)
      modifies this`sharedDocs
      ensures sharedDocs == old(sharedDocs) + [d]
    {
      sharedDocs := sharedDocs + [d];
    }

    method ShouldFlushIntermediate(now: real) returns (due: bool)
      ensures due == FlushDue(startTime, lastFlushTime, now)
    {
      var elapsed := now - startTime;
      var sinceLastFlush := now - lastFlushTime;
      due := elapsed > FLUSH_AFTER_SECONDS && sinceLastFlush > FLUSH_AFTER_SECONDS;
    }

    method Clear(now: real)
      modifies this
      ensures taskDocs == [] && sharedDocs == [] && lastFlushTime == now
    {
      taskDocs := [];
      sharedDocs := [];
      lastFlushTime := now;
    }
  }

  // ----- Bulk writes

  /** The store's answer to a bulk request: which documents it did not take, by position in the
      request, and whether the call itself raised (then documents may still have been taken). */
  datatype BulkReply = BulkReply(rejected: set<nat>, raised: bool)

  datatype BulkResult = BulkResult(success: nat, failed: nat)

  /** The documents taken from a request, the first of which has position `offset`. */
  function Accepted<T>(docs: seq<T>, rejected: set<nat>, offset: nat): seq<T> {
    if docs == [] then []
    else (if offset in rejected then [] else [docs[0]]) + Accepted(docs[1..], rejected, offset + 1)
  }

  lemma {:induction false} AllAccepted<T>(docs: seq<T>, offset: nat)
    ensures Accepted(docs, {}, offset) == docs
  {
    if docs != [] {
      AllAccepted(docs[1..], offset + 1);
    }
  }

  lemma {:induction false} AcceptedAreOffered<T>(docs: seq<T>, rejected: set<nat>, offset: nat)
    ensures |Accepted(docs, rejected, offset)| <= |docs|
    ensures forall d :: d in Accepted(docs, rejected, offset) ==> d in docs
  {
    if docs != [] {
      AcceptedAreOffered(docs[1..], rejected, offset + 1);
    }
  }

  /** Document by document: the one at position `offset + |docs|` of the request is taken unless the
      store has refused that position. */
  lemma {:induction false} AcceptedExactly<T>(docs: seq<T>, d: T, rejected: set<nat>, offset: nat)
    ensures Accepted(docs + [d], rejected, offset)
         == Accepted(docs, rejected, offset) + (if offset + |docs| in rejected then [] else [d])
  {
    if docs == [] {
      assert docs + [d] == [d] && [d][1..] == [];
    } else {
      assert (docs + [d])[1..] == docs[1..] + [d];
      AcceptedExactly(docs[1..], d, rejected, offset + 1);
    }
  }

  function BulkWritten(ix: Indices, tasks: seq<TaskDoc>, shared: seq<SharedDoc>, reply: BulkReply): Indices {
    Indices(ix.tasks + Accepted(tasks, reply.rejected, 0), ix.shared + Accepted(shared, reply.rejected, |tasks|))
  }

  // ----- Graduation

  datatype GraduateReplies = GraduateReplies(lookupAnswers: bool, storeAnswers: bool, deleteAnswers: bool)

  datatype GraduateResult = Graduated(stored: bool) | StoreRaised

  const SUCCEEDED := "Succeeded"

  /** The succeeded documents of a task, in index order. */
  function Successes(docs: seq<TaskDoc>, taskId: string): seq<TaskDoc> {
    if docs == [] then []
    else (if docs[0].taskId == taskId && docs[0].phase == SUCCEEDED then [docs[0]] else [])
         + Successes(docs[1..], taskId)
  }

  /** They are exactly the task's documents in phase "Succeeded", and every part of the index adds its own. */
  lemma {:induction false} SuccessesExactly(docs: seq<TaskDoc>, more: seq<TaskDoc>, taskId: string)
    ensures Successes(docs + more, taskId) == Successes(docs, taskId) + Successes(more, taskId)
    ensures forall d :: d in Successes(docs, taskId) <==> d in docs && d.taskId == taskId && d.phase == "Succeeded"
  {
    if docs == [] {
      assert docs + more == more;
    } else {
      assert (docs + more)[1..] == docs[1..] + more;
      SuccessesExactly(docs[1..], more, taskId);
      assert forall d :: d in docs <==> d == docs[0] || d in docs[1..];
    }
  }

  function Latest(docs: seq<TaskDoc>): (d: TaskDoc)
    requires docs != []
    ensures d in docs && forall e :: e in docs ==> e.stamp <= d.stamp
  {
    if |docs| == 1 then docs[0]
    else
      var rest := Latest(docs[1..]);
      assert forall e :: e in docs ==> e == docs[0] || e in docs[1..];
      if docs[0].stamp >= rest.stamp then docs[0] else rest
  }

  function LatestSuccess(docs: seq<TaskDoc>, taskId: string): Option<TaskDoc> {
    if Successes(docs, taskId) == [] then None else Some(Latest(Successes(docs, taskId)))
  }

  function Without(docs: seq<TaskDoc>, taskId: string): seq<TaskDoc> {
    if docs == [] then []
    else (if docs[0].taskId == taskId then [] else [docs[0]]) + Without(docs[1..], taskId)
  }

  function OutcomeText(prState: string): string {
    if prState == "merged" then "merged" else "closed without merge"
  }

  /** A shared document that carries what a result says. */
  predicate Carries(doc: SharedDoc, known: TaskDoc) {
    doc.text == known.text && doc.skills == known.skills
  }

  /** The knowledge a task's result becomes once its PR has been decided. */
  function Knowledge(d: TaskDoc, prState: string): (doc: SharedDoc)
    ensures Carries(doc, d)
    ensures doc.outcome == (if prState == "merged" then "merged" else "closed without merge")
  {
    SharedDoc(OutcomeText(prState), d.skills, d.text)
  }

  function AfterGraduate(ix: Indices, taskId: string, prState: string, r: GraduateReplies): Indices {
    var found := if r.lookupAnswers then LatestSuccess(ix.tasks, taskId) else None;
    if found.Some? && !r.storeAnswers then ix
    else
      Indices(if r.deleteAnswers then Without(ix.tasks, taskId) else ix.tasks,
              if found.Some? then ix.shared + [Knowledge(found.value, prState)] else ix.shared)
  }

  class MemoryStore {
    var taskMemory: seq<TaskDoc>
    var sharedMemory: seq<SharedDoc>

    constructor (contents: Indices)
      ensures Contents() == contents
    {
      taskMemory := contents.tasks;
      sharedMemory := contents.shared;
    }

    function Contents(): Indices
      reads this
    {
      Indices(taskMemory, sharedMemory)
    }

    /** Writes what the buffer holds and leaves the buffer as it is. */
    method BulkWrite(buffer: MemoryWriteBuffer, reply: BulkReply) returns (result: BulkResult)
      modifies this
      ensures Contents() == BulkWritten(old(Contents()), buffer.taskDocs, buffer.sharedDocs, reply)
      ensures result.success + result.failed == |buffer.taskDocs| + |buffer.sharedDocs|
      ensures reply.raised ==> result.success == 0
      ensures !reply.raised ==>
        result.success == |taskMemory| - |old(taskMemory)| + |sharedMemory| - |old(sharedMemory)|
    {
      var tasks, shared := buffer.taskDocs, buffer.sharedDocs;
      AcceptedAreOffered(tasks, reply.rejected, 0);
      AcceptedAreOffered(shared, reply.rejected, |tasks|);
      if |tasks| + |shared| == 0 {
        return BulkResult(0, 0);
      }
      var takenTasks, takenShared := Accepted(tasks, reply.rejected, 0), Accepted(shared, reply.rejected, |tasks|);
      taskMemory := taskMemory + takenTasks;
      sharedMemory := sharedMemory + takenShared;
      if reply.raised {
        return BulkResult(0, |tasks| + |shared|);
      }
      var taken := |takenTasks| + |takenShared|;
      result := BulkResult(taken, |tasks| + |shared| - taken);
    }

    /** The latest succeeded result of a task; a failed search reads as no result. */
    method GetTaskResult(taskId: string, answers: bool) returns (found: Option<TaskDoc>)
      ensures found == if answers then LatestSuccess(taskMemory, taskId) else None
      ensures found.Some? ==>
        && found.value in Successes(taskMemory, taskId)
        && forall d :: d in Successes(taskMemory, taskId) ==> d.stamp <= found.value.stamp
    {
      if !answers { return None; }
      found := LatestSuccess(taskMemory, taskId);
    }

    method DeleteTaskMemory(taskId: string, answers: bool) returns (deleted: int)
      modifies this`taskMemory
      ensures taskMemory == if answers then Without(old(taskMemory), taskId) else old(taskMemory)
      ensures deleted == |old(taskMemory)| - |taskMemory|
    {
      if !answers { return 0; }
      var kept := Without(taskMemory, taskId);
      deleted := |taskMemory| - |kept|;
      taskMemory := kept;
    }

    method GraduateToShared(taskId: string, prState: string, r: GraduateReplies) returns (result: GraduateResult)
      modifies this
      ensures Contents() == AfterGraduate(old(Contents()), taskId, prState, r)
      ensures result == if r.lookupAnswers && LatestSuccess(old(taskMemory), taskId).Some?
                        then (if r.storeAnswers then Graduated(true) else StoreRaised) else Graduated(false)
      ensures result == Graduated(true) ==>
        var known := LatestSuccess(old(taskMemory), taskId).value;
        sharedMemory == old(sharedMemory) +
          [SharedDoc(if prState == "merged" then "merged" else "closed without merge", known.skills, known.text)]
    {
      var taskResult := GetTaskResult(taskId, r.lookupAnswers);
      if taskResult.None? {
        var _ := DeleteTaskMemory(taskId, r.deleteAnswers);
        return Graduated(false);
      }
      if !r.storeAnswers { return StoreRaised; }
      sharedMemory := sharedMemory + [Knowledge(taskResult.value, prState)];
      var _ := DeleteTaskMemory(taskId, r.deleteAnswers);
      result := Graduated(true);
    }
  }

  lemma {:induction false} WithoutSound(docs: seq<TaskDoc>, taskId: string, other: string)
    ensures Successes(Without(docs, taskId), other) == if other == taskId then [] else Successes(docs, other)
    ensures forall d :: d in Without(docs, taskId) <==> d in docs && d.taskId != taskId
  {
    if docs != [] {
      WithoutSound(docs[1..], taskId, other);
      var kept, rest := Without(docs, taskId), Without(docs[1..], taskId);
      if docs[0].taskId != taskId {
        assert kept[1..] == rest;
      } else {
        assert kept == rest;
      }
      assert forall d :: d in docs <==> d == docs[0] || d in docs[1..];
      assert forall d :: d in kept <==> (d == docs[0] && d.taskId != taskId) || d in rest;
    }
  }

  /** A task's knowledge is kept: the result in task memory, or a document that carries it in shared memory. */
  predicate KnowledgeKept(ix: Indices, taskId: string, known: TaskDoc) {
    known in Successes(ix.tasks, taskId) || exists doc :: doc in ix.shared && Carries(doc, known)
  }

  /** Exactly when graduating a task that had succeeded, and whose knowledge was not yet shared,
      loses that knowledge: the lookup fails and the delete goes through. */
  lemma KnowledgeLostExactly(ix: Indices, taskId: string, prState: string, r: GraduateReplies)
    requires LatestSuccess(ix.tasks, taskId).Some?
    requires forall doc :: doc in ix.shared ==> !Carries(doc, LatestSuccess(ix.tasks, taskId).value)
    ensures !KnowledgeKept(AfterGraduate(ix, taskId, prState, r), taskId, LatestSuccess(ix.tasks, taskId).value)
            <==> !r.lookupAnswers && r.deleteAnswers
  {
    var known := LatestSuccess(ix.tasks, taskId).value;
    var after := AfterGraduate(ix, taskId, prState, r);
    WithoutSound(ix.tasks, taskId, taskId);
    if r.lookupAnswers && r.storeAnswers {
      assert Carries(after.shared[|ix.shared|], known);
    }
  }

  // ----- Graduating many tasks, in any order, some of them several times

  datatype Graduation = Graduation(taskId: string, prState: string)

  const ALL_ANSWER := GraduateReplies(true, true, true)

  function AfterAll(ix: Indices, calls: seq<Graduation>): Indices
    decreases calls
  {
    if calls == [] then ix
    else AfterAll(AfterGraduate(ix, calls[0].taskId, calls[0].prState, ALL_ANSWER), calls[1..])
  }

  function CalledTasks(calls: seq<Graduation>): set<string> {
    set c | c in calls :: c.taskId
  }

  /** The first call for each task that had a succeeded result in `docs`, tasks in `done` aside. */
  function Effective(docs: seq<TaskDoc>, calls: seq<Graduation>, done: set<string>): seq<Graduation> {
    if calls == [] then []
    else if calls[0].taskId in done || LatestSuccess(docs, calls[0].taskId).None? then
      Effective(docs, calls[1..], done)
    else [calls[0]] + Effective(docs, calls[1..], done + {calls[0].taskId})
  }

  /** What those calls add, each from the latest result its task had in `docs`. */
  function Gained(docs: seq<TaskDoc>, calls: seq<Graduation>): seq<SharedDoc> {
    if calls == [] then []
    else (if LatestSuccess(docs, calls[0].taskId).Some?
          then [Knowledge(LatestSuccess(docs, calls[0].taskId).value, calls[0].prState)] else [])
         + Gained(docs, calls[1..])
  }

  /** Documents of tasks outside `ids`, in order. */
  function Outside(docs: seq<TaskDoc>, ids: set<string>): seq<TaskDoc> {
    if docs == [] then []
    else (if docs[0].taskId in ids then [] else [docs[0]]) + Outside(docs[1..], ids)
  }

  lemma {:induction false} OutsideGrows(docs: seq<TaskDoc>, ids: set<string>, taskId: string)
    ensures Without(Outside(docs, ids), taskId) == Outside(docs, ids + {taskId})
  {
    if docs != [] {
      OutsideGrows(docs[1..], ids, taskId);
      if docs[0].taskId in ids {
        assert Outside(docs, ids) == Outside(docs[1..], ids);
      } else {
        assert Outside(docs, ids)[1..] == Outside(docs[1..], ids);
      }
    }
  }

  lemma {:induction false} OutsideSuccesses(docs: seq<TaskDoc>, ids: set<string>, taskId: string)
    ensures Successes(Outside(docs, ids), taskId) == if taskId in ids then [] else Successes(docs, taskId)
  {
    if docs != [] {
      OutsideSuccesses(docs[1..], ids, taskId);
      if docs[0].taskId in ids {
        assert Outside(docs, ids) == Outside(docs[1..], ids);
      } else {
        assert Outside(docs, ids)[1..] == Outside(docs[1..], ids);
      }
    }
  }

  lemma {:induction false} OutsideNothing(docs: seq<TaskDoc>)
    ensures Outside(docs, {}) == docs
  {
    if docs != [] {
      OutsideNothing(docs[1..]);
    }
  }

  /** Deleting tasks' memory keeps each document of every other task, once and in its place. */
  lemma {:induction false} OutsideExactly(docs: seq<TaskDoc>, d: TaskDoc, more: seq<TaskDoc>, ids: set<string>)
    ensures Outside(docs + [d] + more, ids)
         == Outside(docs, ids) + (if d.taskId in ids then [] else [d]) + Outside(more, ids)
    ensures Without(docs, d.taskId) == Outside(docs, {d.taskId})
  {
    OutsideNothing(docs);
    OutsideGrows(docs, {}, d.taskId);
    assert {} + {d.taskId} == {d.taskId};
    if docs == [] {
      assert docs + [d] + more == [d] + more;
      assert ([d] + more)[1..] == more;
    } else {
      assert (docs + [d] + more)[1..] == docs[1..] + [d] + more;
      OutsideExactly(docs[1..], d, more, ids);
    }
  }

  lemma {:induction false} AfterAllFrom(docs: seq<TaskDoc>, shared: seq<SharedDoc>, done: set<string>,
                                        calls: seq<Graduation>)
    ensures AfterAll(Indices(Outside(docs, done), shared), calls)
         == Indices(Outside(docs, done + CalledTasks(calls)), shared + Gained(docs, Effective(docs, calls, done)))
    decreases calls
  {
    if calls == [] {
      assert done + CalledTasks(calls) == done;
    } else {
      var c, rest := calls[0], calls[1..];
      assert CalledTasks(calls) == {c.taskId} + CalledTasks(rest);
      assert done + CalledTasks(calls) == done + {c.taskId} + CalledTasks(rest);
      OutsideGrows(docs, done, c.taskId);
      OutsideSuccesses(docs, done, c.taskId);
      var effective := Effective(docs, calls, done);
      if c.taskId in done {
        assert done + {c.taskId} == done;
        AfterAllFrom(docs, shared, done, rest);
      } else if LatestSuccess(docs, c.taskId).None? {
        AfterAllFrom(docs, shared, done + {c.taskId}, rest);
        UnsuccessfulIgnored(docs, rest, done, c.taskId);
      } else {
        var gain := [Knowledge(LatestSuccess(docs, c.taskId).value, c.prState)];
        AfterAllFrom(docs, shared + gain, done + {c.taskId}, rest);
        assert effective[1..] == Effective(docs, rest, done + {c.taskId});
        assert shared + gain + Gained(docs, effective[1..]) == shared + (gain + Gained(docs, effective[1..]));
      }
    }
  }

  lemma {:induction false} UnsuccessfulIgnored(docs: seq<TaskDoc>, calls: seq<Graduation>, done: set<string>, id: string)
    requires LatestSuccess(docs, id).None?
    ensures Effective(docs, calls, done + {id}) == Effective(docs, calls, done)
  {
    if calls != [] {
      var more := done + {calls[0].taskId};
      UnsuccessfulIgnored(docs, calls[1..], done, id);
      UnsuccessfulIgnored(docs, calls[1..], more, id);
      assert done + {id} + {calls[0].taskId} == more + {id};
    }
  }

  lemma {:induction false} EffectiveTasks(docs: seq<TaskDoc>, calls: seq<Graduation>, done: set<string>, id: string)
    ensures id in CalledTasks(Effective(docs, calls, done))
       <==> id in CalledTasks(calls) && id !in done && LatestSuccess(docs, id).Some?
  {
    if calls != [] {
      var c, rest := calls[0], calls[1..];
      var skip := c.taskId in done || LatestSuccess(docs, c.taskId).None?;
      var tail := Effective(docs, rest, if skip then done else done + {c.taskId});
      EffectiveTasks(docs, rest, if skip then done else done + {c.taskId}, id);
      assert CalledTasks(calls) == {c.taskId} + CalledTasks(rest);
      if !skip {
        assert CalledTasks([c] + tail) == {c.taskId} + CalledTasks(tail);
      }
    }
  }

  predicate DistinctTasks(calls: seq<Graduation>) {
    forall i, j :: 0 <= i < j < |calls| ==> calls[i].taskId != calls[j].taskId
  }

  lemma {:induction false} EffectiveOnce(docs: seq<TaskDoc>, calls: seq<Graduation>, done: set<string>)
    ensures DistinctTasks(Effective(docs, calls, done))
    ensures |Gained(docs, Effective(docs, calls, done))| == |Effective(docs, calls, done)|
  {
    if calls != [] {
      var c, rest := calls[0], calls[1..];
      if c.taskId in done || LatestSuccess(docs, c.taskId).None? {
        EffectiveOnce(docs, rest, done);
      } else {
        var tail := Effective(docs, rest, done + {c.taskId});
        EffectiveOnce(docs, rest, done + {c.taskId});
        EffectiveTasks(docs, rest, done + {c.taskId}, c.taskId);
        assert ([c] + tail)[1..] == tail;
        forall j | 0 <= j < |tail| ensures tail[j].taskId != c.taskId {
          assert tail[j].taskId in CalledTasks(tail);
        }
      }
    }
  }

  lemma {:induction false} GainedAt(docs: seq<TaskDoc>, calls: seq<Graduation>, i: nat)
    requires forall k :: 0 <= k < |calls| ==> LatestSuccess(docs, calls[k].taskId).Some?
    requires i < |calls|
    ensures |Gained(docs, calls)| == |calls|
    ensures Gained(docs, calls)[i] == Knowledge(LatestSuccess(docs, calls[i].taskId).value, calls[i].prState)
  {
    if |calls| > 1 {
      GainedAt(docs, calls[1..], if i == 0 then 0 else i - 1);
    }
  }

  lemma AfterAllIs(ix: Indices, calls: seq<Graduation>)
    ensures AfterAll(ix, calls) == Indices(Outside(ix.tasks, CalledTasks(calls)),
                                           ix.shared + Gained(ix.tasks, Effective(ix.tasks, calls, {})))
  {
    OutsideNothing(ix.tasks);
    var all := CalledTasks(calls);
    assert {} + all == all;
    AfterAllFrom(ix.tasks, ix.shared, {}, calls);
    assert Indices(Outside(ix.tasks, {}), ix.shared) == ix;
  }

  lemma EffectiveGain(docs: seq<TaskDoc>, firsts: seq<Graduation>, calls: seq<Graduation>)
    requires firsts == Effective(docs, calls, {})
    ensures forall i :: 0 <= i < |firsts| ==>
      && LatestSuccess(docs, firsts[i].taskId).Some? && i < |Gained(docs, firsts)|
      && Gained(docs, firsts)[i] == Knowledge(LatestSuccess(docs, firsts[i].taskId).value, firsts[i].prState)
  {
    forall i | 0 <= i < |firsts| ensures LatestSuccess(docs, firsts[i].taskId).Some? {
      assert firsts[i].taskId in CalledTasks(firsts);
      EffectiveTasks(docs, calls, {}, firsts[i].taskId);
    }
    forall i | 0 <= i < |firsts|
      ensures i < |Gained(docs, firsts)|
      ensures Gained(docs, firsts)[i] == Knowledge(LatestSuccess(docs, firsts[i].taskId).value, firsts[i].prState)
    {
      GainedAt(docs, firsts, i);
    }
  }

  /** Any interleaving of graduations that the stores answer: one shared document for each called
      task with a succeeded result, from its latest one; called tasks' documents gone, others kept. */
  lemma {:induction false} GraduationExactlyOnce(ix: Indices, calls: seq<Graduation>)
    ensures var after := AfterAll(ix, calls);
      var firsts := Effective(ix.tasks, calls, {});
      && after.tasks == Outside(ix.tasks, CalledTasks(calls))
      && after.shared == ix.shared + Gained(ix.tasks, firsts)
      && |after.shared| == |ix.shared| + |firsts|
      && DistinctTasks(firsts)
      && (forall id :: id in CalledTasks(firsts) <==> id in CalledTasks(calls) && LatestSuccess(ix.tasks, id).Some?)
      && forall i :: 0 <= i < |firsts| ==>
           && LatestSuccess(ix.tasks, firsts[i].taskId).Some?
           && after.shared[|ix.shared| + i] == Knowledge(LatestSuccess(ix.tasks, firsts[i].taskId).value, firsts[i].prState)
  {
    AfterAllIs(ix, calls);
    EffectiveOnce(ix.tasks, calls, {});
    EffectiveGain(ix.tasks, Effective(ix.tasks, calls, {}), calls);
    forall id ensures id in CalledTasks(Effective(ix.tasks, calls, {})) <==>
                      id in CalledTasks(calls) && LatestSuccess(ix.tasks, id).Some?
    {
      EffectiveTasks(ix.tasks, calls, {}, id);
    }
  }
}
