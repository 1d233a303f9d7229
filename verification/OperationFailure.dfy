/**
 A body runs only if its operation was not cancelled and every condition held, so a failed
 operation keeps everything that depends on it from running.
 */
module OperationFailure {
  import opened Common
  import opened OperationLifecycle
  import opened OperationScheduler

  /** Finished by its own body, without an error. */
  ghost predicate Succeeded(s: Scheduler, d: Id) {
    d in s.ops && s.ops[d].phase.Finished? && s.ops[d].executed && s.ops[d].error == None
  }

  predicate Careful(o: Operation) {
    NoFailedDependencies(false) in o.conditions
  }

  /** What a satisfied condition says of a dependency, for good. */
  ghost predicate Grants(c: Condition, d: Operation) {
    match c
    case NoFailedDependencies(false) => d.phase.Finished? && d.executed && d.error == None
    case NoFailedDependencies(true) => d.phase.Finished? && (d.error == None || d.error == Some(Cancelled))
    case NoCancelledDependencies => d.phase.Finished? && d.executed
    case _ => true
  }

  /** Condition `i` was asked and said yes. */
  predicate Assured(o: Operation, i: int) {
    0 <= i < |o.verdicts| && i < |o.conditions| && o.verdicts[i] == Some(true)
  }

  ghost predicate GrantedAll(s: Scheduler, x: Id, c: Condition)
    requires x in s.ops
  {
    forall d :: d in s.ops[x].dependencies && d in s.ops ==> Grants(c, s.ops[d])
  }

  /** Conditions start being asked only once the dependencies are finished, and then those are fixed. */
  ghost predicate AskedOk(s: Scheduler, x: Id)
    requires x in s.ops
  {
    s.ops[x].verdicts != [] ==> DependenciesFinished(s, x)
  }

  ghost predicate FailureInv(s: Scheduler) {
    && OpsOk(s)
    && (forall x :: x in s.ops ==> AskedOk(s, x))
    && forall x, i :: x in s.ops && Assured(s.ops[x], i) ==> GrantedAll(s, x, s.ops[x].conditions[i])
  }

  lemma GrantStays(c: Condition, d: Operation, e: Operation)
    requires Advances(d, e) && Grants(c, d)
    ensures Grants(c, e)
  {
  }

  /** What a condition that answers on the spot has seen when it says yes. */
  lemma VerdictGrants(s: Scheduler, x: Id, c: Condition, d: Id)
    requires x in s.ops && d in s.ops[x].dependencies && d in s.ops && Wf(s.ops[d]) && s.ops[d].phase.Finished?
    requires Verdict(s, x, c) == Some(true)
    ensures Grants(c, s.ops[d])
  {
  }

  lemma EvaluationAssures(s: Scheduler, e: Event, i: int)
    requires OpsOk(s) && Enabled(s, e) && e.Signalled? && e.sig.Evaluate?
    requires Assured(Step(s, e).ops[e.id], i)
    ensures GrantedAll(s, e.id, s.ops[e.id].conditions[i])
    ensures Step(s, e).ops[e.id].dependencies == s.ops[e.id].dependencies
  {
    var o := s.ops[e.id];
    assert Verdict(s, e.id, o.conditions[i]) == Some(true);
    forall d | d in o.dependencies
      ensures d in s.ops && Grants(o.conditions[i], s.ops[d])
    {
      VerdictGrants(s, e.id, o.conditions[i], d);
    }
  }

  /** Outside evaluation only block conditions answer, and the dependencies are fixed. */
  lemma AssuranceIsOld(s: Scheduler, e: Event, i: int)
    requires OpsOk(s) && Enabled(s, e) && e.Signalled? && !e.sig.Evaluate?
    requires Assured(Step(s, e).ops[e.id], i)
    ensures Assured(s.ops[e.id], i) || Step(s, e).ops[e.id].conditions[i].BlockCondition?
    ensures Step(s, e).ops[e.id].dependencies == s.ops[e.id].dependencies
  {
    assert Wf(s.ops[e.id]);
    ApplyAdvances(s.ops[e.id], e.sig);
  }

  /** Conditions are first asked when the dependencies are finished. */
  lemma AsksFirst(s: Scheduler, e: Event)
    requires OpsOk(s) && Enabled(s, e) && e.Signalled?
    requires s.ops[e.id].verdicts == [] && Step(s, e).ops[e.id].verdicts != []
    ensures e.sig.Evaluate? && DependenciesFinished(s, e.id)
    ensures Step(s, e).ops[e.id].dependencies == s.ops[e.id].dependencies
  {
    assert Wf(s.ops[e.id]);
  }

  lemma FixedOnceAsked(o: Operation, p: Operation)
    requires Wf(o) && o.verdicts != [] && (p == o || Advances(o, p))
    ensures p.dependencies == o.dependencies
  {
  }

  lemma FinishedStays(s: Scheduler, t: Scheduler, z: Id, x: Id)
    requires Touches(s, t, z) && x in s.ops && DependenciesFinished(s, x)
    requires t.ops[x].dependencies == s.ops[x].dependencies
    ensures DependenciesFinished(t, x)
  {
  }

  lemma AskedStays(s: Scheduler, e: Event, x: Id)
    requires FailureInv(s) && Enabled(s, e) && x in Step(s, e).ops
    ensures AskedOk(Step(s, e), x)
  {
    var t := Step(s, e);
    StepTouches(s, e);
    if x in s.ops && t.ops[x].verdicts != [] {
      if s.ops[x].verdicts == [] {
        AsksFirst(s, e);
      } else {
        FixedOnceAsked(s.ops[x], t.ops[x]);
      }
      FinishedStays(s, t, e.id, x);
    }
  }

  lemma StepKeepsFailure(s: Scheduler, e: Event)
    requires FailureInv(s) && Enabled(s, e)
    ensures FailureInv(Step(s, e))
  {
    var t := Step(s, e);
    StepTouches(s, e);
    forall x | x in t.ops
      ensures AskedOk(t, x)
    {
      AskedStays(s, e, x);
    }
    forall x, i | x in t.ops && Assured(t.ops[x], i)
      ensures GrantedAll(t, x, t.ops[x].conditions[i])
    {
      AssuredStays(s, e, x, i);
    }
  }

  lemma AssuredStays(s: Scheduler, e: Event, x: Id, i: int)
    requires FailureInv(s) && Enabled(s, e) && Touches(s, Step(s, e), e.id)
    requires x in Step(s, e).ops && Assured(Step(s, e).ops[x], i)
    ensures GrantedAll(Step(s, e), x, Step(s, e).ops[x].conditions[i])
  {
    var t := Step(s, e);
    var c := t.ops[x].conditions[i];
    if x == e.id && e.Signalled? {
      if e.sig.Evaluate? {
        EvaluationAssures(s, e, i);
      } else {
        AssuranceIsOld(s, e, i);
      }
    }
    if !c.BlockCondition? {
      assert AskedOk(s, x);
      forall d | d in t.ops[x].dependencies && d in t.ops
        ensures Grants(c, t.ops[d])
      {
        assert d in s.ops && Grants(c, s.ops[d]);
        if d == e.id {
          GrantStays(c, s.ops[d], t.ops[d]);
        }
      }
    }
  }

  lemma {:induction false} FailureOverRun(s: Scheduler, es: seq<Event>)
    requires FailureInv(s) && Runs(s, es)
    ensures FailureInv(After(s, es))
    decreases |es|
  {
    if es != [] {
      StepKeepsFailure(s, es[0]);
      FailureOverRun(Step(s, es[0]), es[1..]);
    }
  }

  /** Each operation on the path depends on the next one. */
  ghost predicate DependencyPath(s: Scheduler, path: seq<Id>) {
    && (forall k :: 0 <= k < |path| ==> path[k] in s.ops)
    && (forall k :: 0 <= k < |path| - 1 ==> path[k + 1] in s.ops[path[k]].dependencies)
  }

  /** A body that ran had every condition satisfied, and each condition's word about each dependency stands. */
  lemma BodyRanMeansGranted(s: Scheduler, x: Id, i: nat, d: Id)
    requires FailureInv(s) && x in s.ops && s.ops[x].executed && i < |s.ops[x].conditions| && d in s.ops[x].dependencies
    ensures d in s.ops && Grants(s.ops[x].conditions[i], s.ops[d])
  {
    assert Wf(s.ops[x]) && AskedOk(s, x);
    assert Assured(s.ops[x], i);
  }

  lemma {:induction false} SuccessAlongPath(s: Scheduler, path: seq<Id>, k: nat)
    requires FailureInv(s) && DependencyPath(s, path) && 0 < k < |path|
    requires forall i :: 0 <= i < k ==> Careful(s.ops[path[i]])
    requires s.ops[path[0]].executed
    ensures Succeeded(s, path[k])
    decreases k
  {
    if k > 1 {
      SuccessAlongPath(s, path, k - 1);
    }
    var o := s.ops[path[k - 1]];
    var i :| 0 <= i < |o.conditions| && o.conditions[i] == NoFailedDependencies(false);
    BodyRanMeansGranted(s, path[k - 1], i, path[k]);
  }

  /** Over every run, a body ran only if each of its conditions held of each dependency. */
  lemma ConditionsGuardBodies(rule: ReadinessRule, es: seq<Event>, x: Id, i: nat, d: Id)
    requires Runs(Initial(rule), es)
    requires
      var s := After(Initial(rule), es);
      x in s.ops && s.ops[x].executed && i < |s.ops[x].conditions| && d in s.ops[x].dependencies
    ensures
      var s := After(Initial(rule), es);
      d in s.ops && Grants(s.ops[x].conditions[i], s.ops[d])
  {
    FailureOverRun(Initial(rule), es);
    BodyRanMeansGranted(After(Initial(rule), es), x, i, d);
  }

  /**
   If every operation of a dependency graph insists on successful dependencies, an operation whose
   body ran has only transitive dependencies that ran and finished without an error. Hence none
   with a failed transitive dependency ever executes.
   */
  lemma FailurePropagates(rule: ReadinessRule, es: seq<Event>, path: seq<Id>)
    requires Runs(Initial(rule), es)
    requires
      var s := After(Initial(rule), es);
      DependencyPath(s, path) && |path| > 1 && forall i :: 0 <= i < |path| - 1 ==> Careful(s.ops[path[i]])
    ensures
      var s := After(Initial(rule), es);
      && (s.ops[path[0]].executed ==> Succeeded(s, path[|path| - 1]))
      && (s.ops[path[|path| - 1]].error != None ==> !s.ops[path[0]].executed)
  {
    FailureOverRun(Initial(rule), es);
    var s := After(Initial(rule), es);
    if s.ops[path[0]].executed {
      SuccessAlongPath(s, path, |path| - 1);
    }
  }
}
