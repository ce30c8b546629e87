/** How runs end: enough decisive calls finish a task. */
module Termination {
  import opened Operator
  import opened Lifecycle
  import A = Agent

  /** The environment serves the call and gives it something to act on: the pod has ended or its
      worker reports a result, and a PR that is asked about has been merged or closed. */
  predicate Decisive(s: Status, pods: map<string, Pod>, ans: Answers) {
    && ans.agent.Some? && ans.createAnswers && ans.podGetAnswers && ans.writeAnswers
    && (s.phase == Running && s.workerPod in pods ==>
          || pods[s.workerPod].phase == PodFailed || pods[s.workerPod].phase == PodSucceeded
          || (Ready(s.workerPod, pods) && ans.status.Some?
              && ans.status.value.phase in {A.Succeeded, A.Completed, A.Incomplete, A.Failed}))
    && ((s.phase == Completed || s.phase == WaitingForPR) && s.prUrl != "" && Ready(s.workerPod, pods) ==>
          ans.pr.Some? && (ans.pr.value.merged || ans.pr.value.state == "closed"))
  }

  lemma DecisiveCallMoves(spec: TaskSpec, s: Status, pods: map<string, Pod>, ans: Answers)
    requires Good(spec, s) && !Terminal(spec, s) && Decisive(s, pods, ans)
    ensures var d := Decide(spec, s, pods, true, ans);
      d.next.Some? && d.next.value.phase != s.phase
  {
  }

  predicate DecisiveAction(w: World, a: Action)
    requires w.versions != []
  {
    a.Reconcile? && a.lag == 0 && Decisive(Current(w), w.pods, a.ans)
  }

  /** The number of decisive calls in a run. */
  function Decisives(spec: TaskSpec, acts: seq<Action>): nat {
    if acts == [] then 0
    else
      var before := acts[..|acts| - 1];
      Decisives(spec, before) + (if DecisiveAction(Run(spec, before), acts[|acts| - 1]) then 1 else 0)
  }

  lemma DecisiveStep(spec: TaskSpec, w: World, a: Action)
    requires StoredInv(spec, w)
    ensures Terminal(spec, Current(w)) ==> Terminal(spec, Current(Act(spec, w, a)))
    ensures Potential(spec, Current(Act(spec, w, a))) <= Potential(spec, Current(w))
    ensures DecisiveAction(w, a) && !Terminal(spec, Current(w)) ==>
      Potential(spec, Current(Act(spec, w, a))) < Potential(spec, Current(w))
  {
    if Terminal(spec, Current(w)) {
      TerminalStep(spec, w, a);
    }
    if a.Reconcile? && a.lag == 0 {
      var s, ok := Current(w), WriteAccepted(a.lag, a.ans);
      DecisionProgresses(spec, s, w.pods, ok, a.ans);
      if DecisiveAction(w, a) && !Terminal(spec, s) {
        DecisiveCallMoves(spec, s, w.pods, a.ans);
      }
    }
  }

  lemma {:induction false} DecisivesBounded(spec: TaskSpec, acts: seq<Action>)
    ensures Terminal(spec, Current(Run(spec, acts)))
      || Decisives(spec, acts) + Potential(spec, Current(Run(spec, acts))) <= 3 * Budget(spec) + 5
  {
    if acts != [] {
      var before := acts[..|acts| - 1];
      DecisivesBounded(spec, before);
      StoredInvAlways(spec, before);
      DecisiveStep(spec, Run(spec, before), acts[|acts| - 1]);
    }
  }

  /** After 3M + 5 decisive calls a task has come to its end, whatever happened in between. */
  lemma {:induction false} DecisiveRunTerminates(spec: TaskSpec, acts: seq<Action>)
    requires Decisives(spec, acts) >= 3 * Budget(spec) + 5
    ensures Terminal(spec, Current(Run(spec, acts)))
  {
    DecisivesBounded(spec, acts);
    StoredInvAlways(spec, acts);
  }
}
