/** How often a run creates the pods of a task. */
module Creations {
  import opened PodNames
  import opened Operator
  import opened Lifecycle
  import opened Pods
  import Skills

  predicate PastPending(s: Status) {
    s.phase != Unset && s.phase != Pending
  }

  /** The names created by the time of status `s`, if none was created twice: those of earlier
      attempts, and the current one's once its pod is there or has been. */
  function Expected(spec: TaskSpec, s: Status, live: bool): set<string> {
    (if s.retryCount == 0 then {} else AttemptNames(spec, s.retryCount - 1))
    + (if PastPending(s) || live then {OwnName(spec, s)} else {})
  }

  ghost predicate CreatedInv(spec: TaskSpec, w: World) {
    && w.versions != []
    && Skills.NoDuplicates(CreatedNames(w.calls))
    && Skills.Elements(CreatedNames(w.calls)) == Expected(spec, Current(w), OwnName(spec, Current(w)) in w.pods)
  }

  /** Before the current attempt has started, no status of it was stored as started. */
  predicate StartsInOrder(s: Status, current: Status) {
    && (current.phase == Unset ==> s.phase == Unset)
    && (current.phase == Pending && s.retryCount == current.retryCount ==> !PastPending(s))
  }

  ghost predicate OrderInv(versions: seq<Status>) {
    versions != [] && forall i :: 0 <= i < |versions| ==> StartsInOrder(versions[i], versions[|versions| - 1])
  }

  lemma OrderAppend(versions: seq<Status>, next: Status)
    requires OrderInv(versions) && RetriesOnlyGrow(versions) && next.phase != Unset
    requires next.retryCount >= versions[|versions| - 1].retryCount
    requires next.phase == Pending && next.retryCount == versions[|versions| - 1].retryCount ==>
      !PastPending(versions[|versions| - 1])
    ensures OrderInv(versions + [next])
  {
    var last := versions[|versions| - 1];
    forall i | 0 <= i < |versions + [next]| ensures StartsInOrder((versions + [next])[i], next) {
      if i < |versions| {
        assert StartsInOrder(versions[i], last);
      }
    }
  }

  lemma OrderApplied(spec: TaskSpec, w: World, d: Decision, ok: bool, ans: Answers)
    requires OrderInv(w.versions) && RetriesOnlyGrow(w.versions)
    requires ok ==> Good(spec, Current(w)) && Progresses(spec, Current(w), ok, d)
                    && TouchesOwnPod(spec, Current(w), w.pods, ans, d)
    ensures OrderInv(Applied(w, d, ok).versions)
  {
    hide RetriesOnlyGrow, StartsInOrder, PodName, Potential;
    if ok && d.next.Some? {
      StatusMoves(spec, Current(w), d.next.value, w.pods, d, ok, ans);
      OrderAppend(w.versions, d.next.value);
    } else {
      assert Applied(w, d, ok).versions == w.versions;
    }
  }

  lemma OrderStep(spec: TaskSpec, w: World, a: Action)
    requires StoredInv(spec, w) && RetriesOnlyGrow(w.versions) && OrderInv(w.versions)
    ensures OrderInv(Act(spec, w, a).versions)
  {
    hide Decide, OrderInv, Progresses, TouchesOwnPod;
    if a.Reconcile? {
      var ok := WriteAccepted(a.lag, a.ans);
      var d := KnownDecision(spec, w, a.lag, ok, a.ans);
      OrderApplied(spec, w, d, ok, a.ans);
    }
  }

  lemma {:induction false} OrderAlways(spec: TaskSpec, acts: seq<Action>)
    ensures OrderInv(Run(spec, acts).versions)
  {
    if acts != [] {
      var before := acts[..|acts| - 1];
      OrderAlways(spec, before);
      StoredInvAlways(spec, before);
      LiveInvAlways(spec, before);
      OrderStep(spec, Run(spec, before), acts[|acts| - 1]);
    }
  }

  // ----- One call

  /** A call that creates a pod which has been created before: it acts on a Pending snapshot, is served,
      finds no pod, and the attempt is not the one that is Pending now. */
  predicate Recreates(spec: TaskSpec, w: World, a: Action)
    requires w.versions != []
  {
    a.Reconcile? &&
    var read, current := Snapshot(w, a.lag), Current(w);
    && read.phase == Pending && a.ans.agent.Some? && a.ans.createAnswers && OwnName(spec, read) !in w.pods
    && !(current.phase == Pending && current.retryCount == read.retryCount)
  }

  /** An attempt is started only with its pod there. */
  lemma StartedWithPod(spec: TaskSpec, s: Status, pods: map<string, Pod>, ok: bool, ans: Answers)
    requires !PastPending(s)
    ensures var d := Decide(spec, s, pods, ok, ans);
      d.next.Some? && PastPending(d.next.value) ==> OwnName(spec, s) in d.pods
  {
  }

  lemma OwnIsNotEarlier(spec: TaskSpec, s: Status)
    ensures s.retryCount > 0 ==> OwnName(spec, s) !in AttemptNames(spec, s.retryCount - 1)
  {
    if s.retryCount > 0 {
      NextNameIsNew(spec, s.retryCount - 1);
    }
  }

  lemma EarlierIsExpected(spec: TaskSpec, s: Status, current: Status, live: bool)
    requires s.retryCount <= current.retryCount && (s.retryCount == current.retryCount ==> PastPending(current))
    ensures OwnName(spec, s) in Expected(spec, current, live)
  {
    if s.retryCount < current.retryCount {
      AttemptNamesGrow(spec, s.retryCount, current.retryCount - 1);
    }
  }

  /** The names expected after a call that creates nothing. */
  lemma ExpectedKept(spec: TaskSpec, s: Status, c: Status, t: Status, pods: map<string, Pod>, d: Decision, ok: bool,
                     ans: Answers)
    requires Good(spec, s) && s.retryCount <= c.retryCount && (ok ==> s == c) && Progresses(spec, s, ok, d)
    requires TouchesOwnPod(spec, s, pods, ans, d) && StartsInOrder(s, c) && (d.result.RetryAfter? ==> ok)
    requires t == if ok && d.next.Some? then d.next.value else c
    requires pods.Keys <= AttemptNames(spec, c.retryCount)
    requires OwnName(spec, s) !in pods ==> OwnName(spec, s) !in d.pods
    requires ok && !PastPending(s) && PastPending(t) ==> OwnName(spec, s) in d.pods
    requires d.result.RetryAfter? ==> s.phase == Failed
    ensures Expected(spec, t, OwnName(spec, t) in d.pods) == Expected(spec, c, OwnName(spec, c) in pods)
  {
    var own := OwnName(spec, s);
    assert OwnName(spec, c) != own ==> (OwnName(spec, c) in d.pods <==> OwnName(spec, c) in d.pods - {own});
    assert OwnName(spec, c) != own ==> (OwnName(spec, c) in pods <==> OwnName(spec, c) in pods - {own});
    if OwnName(spec, c) == own {
      AttemptsDiffer(spec.name, s.retryCount, c.retryCount);
    }
    if ok {
      StatusMoves(spec, s, t, pods, d, ok, ans);
      if d.result.RetryAfter? {
        KeysStay(spec, s, pods, ans, d);
        AttemptNamesGrow(spec, s.retryCount, s.retryCount);
        OwnIsNotEarlier(spec, t);
        assert OwnName(spec, t) !in d.pods.Keys;
      }
    }
  }

  /** A call that creates the pod of the attempt that is Pending now. */
  lemma ExpectedGrows(spec: TaskSpec, s: Status, c: Status, t: Status, pods: map<string, Pod>, d: Decision, ok: bool)
    requires s.retryCount == c.retryCount && s.phase == Pending && c.phase == Pending && (ok ==> s == c)
    requires Progresses(spec, s, ok, d) && !d.result.RetryAfter?
    requires t == if ok && d.next.Some? then d.next.value else c
    requires OwnName(spec, s) in d.pods && OwnName(spec, s) !in pods
    ensures OwnName(spec, s) !in Expected(spec, c, false)
    ensures Expected(spec, t, OwnName(spec, t) in d.pods) == Expected(spec, c, false) + {OwnName(spec, s)}
  {
    OwnIsNotEarlier(spec, c);
  }

  lemma AppendDuplicates(names: seq<string>, name: string)
    ensures Skills.NoDuplicates(names + [name]) <==> Skills.NoDuplicates(names) && name !in Skills.Elements(names)
  {
    var more := names + [name];
    assert forall i :: 0 <= i < |names| ==> more[i] == names[i];
    assert more[|names|] == name;
    if name in Skills.Elements(names) {
      var i :| 0 <= i < |names| && names[i] == name;
      assert more[i] == more[|names|];
    }
  }

  predicate CreatesOwn(spec: TaskSpec, s: Status, pods: map<string, Pod>, d: Decision) {
    OwnName(spec, s) in d.pods && OwnName(spec, s) !in pods
  }

  /** What a call does to the names created so far. */
  lemma CreatedByCall(spec: TaskSpec, w: World, s: Status, t: Status, d: Decision, ok: bool, ans: Answers)
    requires CreatedInv(spec, w) && LiveInv(spec, w) && StartsInOrder(s, Current(w))
    requires Good(spec, s) && s.retryCount <= Current(w).retryCount && (ok ==> s == Current(w))
    requires Progresses(spec, s, ok, d) && TouchesOwnPod(spec, s, w.pods, ans, d)
    requires t == if ok && d.next.Some? then d.next.value else Current(w)
    requires ok && !PastPending(s) && PastPending(t) ==> OwnName(spec, s) in d.pods
    requires d.result.RetryAfter? ==> s.phase == Failed && ok
    ensures var created := CreatedNames(w.calls + d.calls);
      if CreatesOwn(spec, s, w.pods, d) && !(Current(w).phase == Pending && Current(w).retryCount == s.retryCount) then
        !Skills.NoDuplicates(created)
      else
        Skills.NoDuplicates(created) && Skills.Elements(created) == Expected(spec, t, OwnName(spec, t) in d.pods)
  {
    var own, c, names := OwnName(spec, s), Current(w), CreatedNames(w.calls);
    CreatedNamesAppend(w.calls, d.calls);
    if CreatesOwn(spec, s, w.pods, d) {
      AppendDuplicates(names, own);
      Skills.ElementsAppend(names, own);
      if c.phase == Pending && c.retryCount == s.retryCount {
        ExpectedGrows(spec, s, c, t, w.pods, d, ok);
      } else {
        EarlierIsExpected(spec, s, c, OwnName(spec, c) in w.pods);
      }
    } else {
      assert names + [] == names;
      ExpectedKept(spec, s, c, t, w.pods, d, ok, ans);
    }
  }

  lemma CreatedCall(spec: TaskSpec, w: World, lag: nat, ans: Answers)
    requires StoredInv(spec, w) && LiveInv(spec, w) && OrderInv(w.versions) && CreatedInv(spec, w)
    ensures var after := Reconciled(spec, w, lag, ans);
      if Recreates(spec, w, Reconcile(lag, ans)) then !Skills.NoDuplicates(CreatedNames(after.calls))
      else CreatedInv(spec, after)
  {
    hide PodName, StoredInv, Decide, Progresses, TouchesOwnPod;
    var s, ok := Snapshot(w, lag), WriteAccepted(lag, ans);
    var d := KnownDecision(spec, w, lag, ok, ans);
    OwnPodAfter(spec, s, w.pods, ok, ans);
    if !PastPending(s) {
      StartedWithPod(spec, s, w.pods, ok, ans);
    }
    var t := if ok && d.next.Some? then d.next.value else Current(w);
    assert Current(Applied(w, d, ok)) == t;
    CreatedByCall(spec, w, s, t, d, ok, ans);
  }

  // ----- Whole runs

  predicate NeverRecreates(spec: TaskSpec, acts: seq<Action>) {
    acts != [] ==>
      var before := acts[..|acts| - 1];
      NeverRecreates(spec, before) && !Recreates(spec, Run(spec, before), acts[|acts| - 1])
  }

  lemma CreatedInvEvent(spec: TaskSpec, w: World, a: Action)
    requires CreatedInv(spec, w) && !a.Reconcile? && !a.PodLost?
    ensures CreatedInv(spec, Act(spec, w, a))
  {
  }

  lemma DuplicatesStay(calls: seq<Call>, more: seq<Call>)
    requires !Skills.NoDuplicates(CreatedNames(calls))
    ensures !Skills.NoDuplicates(CreatedNames(calls + more))
  {
    CreatedNamesAppend(calls, more);
    var names, all := CreatedNames(calls), CreatedNames(calls + more);
    var i, j :| 0 <= i < j < |names| && names[i] == names[j];
    assert all[i] == all[j];
  }

  lemma CallsGrow(spec: TaskSpec, w: World, a: Action)
    requires w.versions != []
    ensures w.calls <= Act(spec, w, a).calls
  {
  }

  lemma {:induction false} CreatedAlways(spec: TaskSpec, acts: seq<Action>)
    requires NoPodLost(acts)
    ensures var w := Run(spec, acts);
      if NeverRecreates(spec, acts) then CreatedInv(spec, w) else !Skills.NoDuplicates(CreatedNames(w.calls))
  {
    if acts != [] {
      var before, a := acts[..|acts| - 1], acts[|acts| - 1];
      var w := Run(spec, before);
      CreatedAlways(spec, before);
      if NeverRecreates(spec, before) {
        StoredInvAlways(spec, before);
        LiveInvAlways(spec, before);
        OrderAlways(spec, before);
        if a.Reconcile? {
          CreatedCall(spec, w, a.lag, a.ans);
        } else {
          CreatedInvEvent(spec, w, a);
        }
      } else {
        CallsGrow(spec, w, a);
        var more := Run(spec, acts).calls[|w.calls|..];
        assert Run(spec, acts).calls == w.calls + more;
        DuplicatesStay(w.calls, more);
      }
    }
  }

  /** If only the operator removes pods: exactly when no pod is ever created twice, for any reads. */
  lemma {:induction false} CreatedOnceExactly(spec: TaskSpec, acts: seq<Action>)
    requires NoPodLost(acts)
    ensures Skills.NoDuplicates(CreatedNames(Run(spec, acts).calls)) <==> NeverRecreates(spec, acts)
  {
    CreatedAlways(spec, acts);
  }

  lemma {:induction false} AttemptNamesCount(spec: TaskSpec, retry: nat)
    ensures |AttemptNames(spec, retry)| <= retry + 1
  {
    if retry > 0 {
      AttemptNamesCount(spec, retry - 1);
    }
  }

  lemma {:induction false} DistinctCount(names: seq<string>)
    requires Skills.NoDuplicates(names)
    ensures |Skills.Elements(names)| == |names|
  {
    if names != [] {
      var n := |names| - 1;
      assert names == names[..n] + [names[n]];
      AppendDuplicates(names[..n], names[n]);
      Skills.ElementsAppend(names[..n], names[n]);
      DistinctCount(names[..n]);
    }
  }

  lemma SubsetCount(small: set<string>, big: set<string>)
    requires small <= big
    ensures |small| <= |big|
  {
    assert big == small + (big - small);
  }

  /** Then a run creates at most one pod for each attempt made, so at most M + 1 in all. */
  lemma {:induction false} PodsCreatedBound(spec: TaskSpec, acts: seq<Action>)
    requires NoPodLost(acts) && NeverRecreates(spec, acts)
    ensures var w := Run(spec, acts);
      var created := CreatedNames(w.calls);
      && |created| <= Current(w).retryCount + 1 <= Budget(spec) + 1
      && Skills.NoDuplicates(created)
      && Skills.Elements(created) <= AttemptNames(spec, Current(w).retryCount)
  {
    var retry := Current(Run(spec, acts)).retryCount;
    StoredInvAlways(spec, acts);
    CreatedAlways(spec, acts);
    if retry > 0 {
      AttemptNamesGrow(spec, retry - 1, retry);
    }
    AttemptNamesGrow(spec, retry, retry);
    AttemptNamesCount(spec, retry);
    DistinctCount(CreatedNames(Run(spec, acts).calls));
    SubsetCount(Skills.Elements(CreatedNames(Run(spec, acts).calls)), AttemptNames(spec, retry));
  }

  /** In particular with fresh reads. */
  lemma {:induction false} FreshReadsNeverRecreate(spec: TaskSpec, acts: seq<Action>)
    requires FreshReads(acts)
    ensures NeverRecreates(spec, acts)
  {
    if acts != [] {
      FreshReadsNeverRecreate(spec, acts[..|acts| - 1]);
    }
  }
}
