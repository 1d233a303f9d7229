/**
 Why an operation did not run: it was asked to cancel, or one of its conditions had a reason to say no.
 */
module OperationCauses {
  import opened Common
  import opened OperationLifecycle
  import opened OperationScheduler
  import opened OperationExclusivity
  import opened OperationHistory

  /** A finished dependency that a condition does not accept. */
  ghost predicate Blames(c: Condition, d: Operation) {
    match c
    case NoFailedDependencies(ignore) =>
      || (d.error.Some? && d.error != Some(Cancelled))
      || (!ignore && (d.cancelled || d.error == Some(Cancelled)))
    case NoCancelledDependencies => d.cancelled
    case _ => false
  }

  ghost predicate Objects(s: Scheduler, x: Id, c: Condition)
    requires x in s.ops
  {
    exists d :: d in s.ops[x].dependencies && d in s.ops && s.ops[d].phase.Finished? && Blames(c, s.ops[d])
  }

  /** Of finished dependencies a condition says no exactly if it blames one of them. */
  lemma VerdictIsExact(s: Scheduler, x: Id, c: Condition)
    requires x in s.ops && DependenciesFinished(s, x) && !c.BlockCondition?
    ensures Verdict(s, x, c) == Some(!Objects(s, x, c))
  {
    if c.NoFailedDependencies? {
      forall d | d in s.ops[x].dependencies && d in s.ops
        ensures DependencyPasses(s.ops[d], c.ignoreCancellations) <==> !Blames(c, s.ops[d])
      {
      }
    }
  }

  /** Where the answer of condition `i` came from: a report, or a dependency that it blames. */
  ghost predicate AnswerCaused(past: seq<Event>, s: Scheduler, x: Id, i: nat)
    requires x in s.ops && i < |s.ops[x].verdicts| && i < |s.ops[x].conditions| && s.ops[x].verdicts[i].Some?
  {
    var b, c := s.ops[x].verdicts[i].value, s.ops[x].conditions[i];
    if c.BlockCondition? then Signalled(x, Reported(i, b)) in past else !b ==> Objects(s, x, c)
  }

  predicate SaidNo(o: Operation) {
    Some(false) in o.verdicts
  }

  ghost predicate AnswersCaused(past: seq<Event>, s: Scheduler, x: Id)
    requires x in s.ops
  {
    forall i: nat :: i < |s.ops[x].verdicts| && i < |s.ops[x].conditions| && s.ops[x].verdicts[i].Some? ==>
      AnswerCaused(past, s, x, i)
  }

  ghost predicate CancelCaused(past: seq<Event>, s: Scheduler, x: Id)
    requires x in s.ops
  {
    s.ops[x].cancelled ==> Signalled(x, CancelRequested) in past || SaidNo(s.ops[x])
  }

  /** Every report is on record as it was made. */
  ghost predicate ReportsKept(past: seq<Event>, s: Scheduler) {
    forall x: Id, i: nat, b: bool :: Signalled(x, Reported(i, b)) in past ==>
      x in s.ops && i < |s.ops[x].verdicts| && s.ops[x].verdicts[i] == Some(b)
  }

  ghost predicate CauseInv(past: seq<Event>, s: Scheduler) {
    && OpsOk(s)
    && (forall x :: x in s.ops ==> AnswersCaused(past, s, x) && CancelCaused(past, s, x))
    && ReportsKept(past, s)
  }

  /** A new answer comes from the evaluation or from a report, as it was given. */
  lemma NewAnswer(o: Operation, sig: Signal, i: nat)
    requires Wf(o) && Accepts(o, sig) && i < |Apply(o, sig).verdicts| && Apply(o, sig).verdicts[i].Some?
    ensures
      var b := Apply(o, sig).verdicts[i];
      || (i < |o.verdicts| && o.verdicts[i] == b)
      || (sig.Evaluate? && sig.initial[i] == b)
      || sig == Reported(i, b.value)
  {
  }

  lemma NewCancellation(o: Operation, sig: Signal)
    requires Wf(o) && Accepts(o, sig) && Apply(o, sig).cancelled && !o.cancelled
    ensures sig.CancelRequested? || SaidNo(Apply(o, sig))
  {
    if sig.Evaluated? {
      var i :| 0 <= i < |o.verdicts| && o.verdicts[i] != Some(true);
      assert o.verdicts[i].Some? && o.verdicts[i].value == false;
    }
  }

  lemma ObjectionStays(s: Scheduler, t: Scheduler, z: Id, x: Id, c: Condition)
    requires Touches(s, t, z) && x in s.ops && Objects(s, x, c)
    ensures Objects(t, x, c)
  {
    var d :| d in s.ops[x].dependencies && d in s.ops && s.ops[d].phase.Finished? && Blames(c, s.ops[d]);
    assert d in t.ops[x].dependencies && t.ops[d].phase.Finished? && Blames(c, t.ops[d]);
  }

  lemma AnswerStays(past: seq<Event>, s: Scheduler, e: Event, x: Id, i: nat)
    requires CauseInv(past, s) && Enabled(s, e) && Touches(s, Step(s, e), e.id) && x in s.ops
    requires i < |s.ops[x].verdicts| && i < |s.ops[x].conditions| && s.ops[x].verdicts[i].Some?
    ensures
      var t := Step(s, e);
      && i < |t.ops[x].verdicts| && t.ops[x].verdicts[i] == s.ops[x].verdicts[i]
      && t.ops[x].conditions == s.ops[x].conditions
      && AnswerCaused(past + [e], t, x, i)
  {
    assert AnswersCaused(past, s, x) && AnswerCaused(past, s, x, i);
    if Objects(s, x, s.ops[x].conditions[i]) {
      ObjectionStays(s, Step(s, e), e.id, x, s.ops[x].conditions[i]);
    }
  }

  /** An answer given in this step has its cause in this step. */
  lemma NewAnswerCaused(past: seq<Event>, s: Scheduler, e: Event, i: nat)
    requires OpsOk(s) && Enabled(s, e) && e.Signalled? && Touches(s, Step(s, e), e.id)
    requires
      var o := Step(s, e).ops[e.id];
      i < |o.verdicts| && i < |o.conditions| && o.verdicts[i].Some?
    requires !(i < |s.ops[e.id].verdicts| && s.ops[e.id].verdicts[i].Some?)
    ensures AnswerCaused(past + [e], Step(s, e), e.id, i)
  {
    var t, x := Step(s, e), e.id;
    StepOps(s, e);
    NewAnswer(s.ops[x], e.sig, i);
    var c := t.ops[x].conditions[i];
    if e.sig.Evaluate? && !c.BlockCondition? {
      VerdictIsExact(s, x, c);
      if Objects(s, x, c) {
        ObjectionStays(s, t, x, x, c);
      }
    }
    assert e in past + [e];
  }

  lemma AnswersStay(past: seq<Event>, s: Scheduler, e: Event, x: Id, i: nat)
    requires CauseInv(past, s) && Enabled(s, e) && Touches(s, Step(s, e), e.id) && x in Step(s, e).ops
    requires
      var o := Step(s, e).ops[x];
      i < |o.verdicts| && i < |o.conditions| && o.verdicts[i].Some?
    ensures AnswerCaused(past + [e], Step(s, e), x, i)
  {
    if x in s.ops && i < |s.ops[x].verdicts| && s.ops[x].verdicts[i].Some? {
      assert Wf(s.ops[x]);
      AnswerStays(past, s, e, x, i);
    } else {
      StepOps(s, e);
      NewAnswerCaused(past, s, e, i);
    }
  }

  lemma CancellationStays(past: seq<Event>, s: Scheduler, e: Event, x: Id)
    requires CauseInv(past, s) && Enabled(s, e) && Touches(s, Step(s, e), e.id) && x in Step(s, e).ops
    ensures CancelCaused(past + [e], Step(s, e), x)
  {
    var t := Step(s, e);
    StepOps(s, e);
    if t.ops[x].cancelled && x in s.ops {
      if s.ops[x].cancelled {
        assert CancelCaused(past, s, x);
        if SaidNo(s.ops[x]) {
          var i :| 0 <= i < |s.ops[x].verdicts| && s.ops[x].verdicts[i] == Some(false);
          assert t.ops[x].verdicts[i] == Some(false);
        }
      } else {
        NewCancellation(s.ops[x], e.sig);
        assert e in past + [e];
      }
    }
  }

  lemma VerdictStays(s: Scheduler, t: Scheduler, z: Id, x: Id, i: nat, b: bool)
    requires Touches(s, t, z) && x in s.ops && i < |s.ops[x].verdicts| && s.ops[x].verdicts[i] == Some(b)
    ensures x in t.ops && i < |t.ops[x].verdicts| && t.ops[x].verdicts[i] == Some(b)
  {
  }

  lemma ReportRecorded(s: Scheduler, x: Id, i: nat, b: bool)
    requires Enabled(s, Signalled(x, Reported(i, b)))
    ensures
      var t := Step(s, Signalled(x, Reported(i, b)));
      x in t.ops && i < |t.ops[x].verdicts| && t.ops[x].verdicts[i] == Some(b)
  {
  }

  lemma ReportsStay(past: seq<Event>, s: Scheduler, e: Event)
    requires ReportsKept(past, s) && Enabled(s, e) && Touches(s, Step(s, e), e.id)
    ensures ReportsKept(past + [e], Step(s, e))
  {
    var t := Step(s, e);
    forall x: Id, i: nat, b: bool | Signalled(x, Reported(i, b)) in past + [e]
      ensures x in t.ops && i < |t.ops[x].verdicts| && t.ops[x].verdicts[i] == Some(b)
    {
      if Signalled(x, Reported(i, b)) in past {
        VerdictStays(s, t, e.id, x, i, b);
      } else {
        ReportRecorded(s, x, i, b);
      }
    }
  }

  lemma StepKeepsCauses(past: seq<Event>, s: Scheduler, e: Event)
    requires CauseInv(past, s) && Enabled(s, e)
    ensures CauseInv(past + [e], Step(s, e))
  {
    StepTouches(s, e);
    ReportsStay(past, s, e);
    var t := Step(s, e);
    forall x | x in t.ops
      ensures AnswersCaused(past + [e], t, x) && CancelCaused(past + [e], t, x)
    {
      CancellationStays(past, s, e, x);
      forall i: nat | i < |t.ops[x].verdicts| && i < |t.ops[x].conditions| && t.ops[x].verdicts[i].Some?
        ensures AnswerCaused(past + [e], t, x, i)
      {
        AnswersStay(past, s, e, x, i);
      }
    }
  }

  lemma {:induction false} CausesOverRun(past: seq<Event>, s: Scheduler, es: seq<Event>)
    requires CauseInv(past, s) && Runs(s, es)
    ensures CauseInv(past + es, After(s, es))
    decreases |es|
  {
    if es == [] {
      assert past + es == past;
    } else {
      StepKeepsCauses(past, s, es[0]);
      CausesOverRun(past + [es[0]], Step(s, es[0]), es[1..]);
      assert past + [es[0]] + es[1..] == past + es;
    }
  }

  /** Condition `i` had a reason to say no: it was reported unsatisfied, or it blames a dependency. */
  ghost predicate Refused(es: seq<Event>, s: Scheduler, x: Id, i: nat)
    requires x in s.ops && i < |s.ops[x].conditions|
  {
    if s.ops[x].conditions[i].BlockCondition? then Signalled(x, Reported(i, false)) in es
    else Objects(s, x, s.ops[x].conditions[i])
  }

  /**
   An operation that is cancelled, or finished without its body having run, was asked to cancel or had a
   condition with a reason to refuse. A body that ran had every block condition reported satisfied and none
   reported otherwise.
   */
  lemma SkippedOnlyForCause(rule: ReadinessRule, es: seq<Event>, x: Id)
    requires Runs(Initial(rule), es) && x in After(Initial(rule), es).ops
    ensures
      var s := After(Initial(rule), es);
      && (s.ops[x].cancelled || (s.ops[x].phase.Finished? && x !in s.executions) ==>
            || Signalled(x, CancelRequested) in es
            || exists i: nat :: i < |s.ops[x].conditions| && Refused(es, s, x, i))
      && (x in s.executions ==>
            forall i: nat :: i < |s.ops[x].conditions| && s.ops[x].conditions[i].BlockCondition? ==>
              Signalled(x, Reported(i, true)) in es && Signalled(x, Reported(i, false)) !in es)
  {
    var s := After(Initial(rule), es);
    CausesOverRun([], Initial(rule), es);
    assert [] + es == es;
    RecordOverRun(Initial(rule), es);
    var o := s.ops[x];
    assert Wf(o) && AnswersCaused(es, s, x) && CancelCaused(es, s, x);
    if o.cancelled && SaidNo(o) {
      var i :| 0 <= i < |o.verdicts| && o.verdicts[i] == Some(false);
      assert AnswerCaused(es, s, x, i);
      assert Refused(es, s, x, i);
    }
    if x in s.executions {
      forall i: nat | i < |o.conditions| && o.conditions[i].BlockCondition?
        ensures Signalled(x, Reported(i, true)) in es && Signalled(x, Reported(i, false)) !in es
      {
        assert o.verdicts[i] == Some(true);
        assert AnswerCaused(es, s, x, i);
      }
    }
  }
}
