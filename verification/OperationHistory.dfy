/**
 What one operation and its observers live through over a whole run.
 */
module OperationHistory {
  import opened Common
  import opened OperationLifecycle
  import opened OperationScheduler
  import opened OperationExclusivity

  lemma {:induction false} OpsOverRun(s: Scheduler, es: seq<Event>)
    requires OpsOk(s) && Runs(s, es)
    ensures OpsOk(After(s, es))
    ensures forall x :: x in s.ops ==> x in After(s, es).ops && Advances(s.ops[x], After(s, es).ops[x])
    decreases |es|
  {
    if es != [] {
      var t := Step(s, es[0]);
      StepTouches(s, es[0]);
      OpsOverRun(t, es[1..]);
      forall x | x in s.ops
        ensures x in After(s, es).ops && Advances(s.ops[x], After(s, es).ops[x])
      {
        if x == es[0].id {
          AdvancesTransitive(s.ops[x], t.ops[x], After(s, es).ops[x]);
        }
      }
    }
  }

  /**
   An observer hears of each event at most once. The finish callback comes last, carries the
   operation's error, and has arrived exactly when the finish block has run. It hears of the start exactly
   if the body ran, and of a cancellation for sure if that interrupted the body.
   */
  ghost predicate ToldRight(o: Operation, log: seq<Callback>) {
    && (forall j, k :: 0 <= j < k < |log| ==> log[j] != log[k] && !log[j].DidFinish?)
    && (forall k :: 0 <= k < |log| && log[k].DidFinish? ==> log[k].error == o.error)
    && ((exists k :: 0 <= k < |log| && log[k].DidFinish?) <==> FinishDelivered(o))
    && (DidCancel in log ==> o.cancelled)
    && (DidStart in log <==> o.executed)
    && (o.interrupted && FinishDelivered(o) ==> DidCancel in log)
  }

  lemma ObserversToldRight(o: Operation, i: nat)
    requires Wf(o) && i < |o.observers|
    ensures ToldRight(o, o.observers[i])
  {
    var log := o.observers[i];
    assert LogOk(o, log);
    if FinishDelivered(o) {
      assert log[|log| - 1].DidFinish?;
    }
  }

  /**
   From any moment of any run to any later one: phases only rise, an error once set is final,
   a finished operation stays finished, and callback logs only grow.
   */
  lemma LifecycleOverRun(rule: ReadinessRule, es: seq<Event>, more: seq<Event>, x: Id, i: nat)
    requires Runs(Initial(rule), es) && Runs(After(Initial(rule), es), more)
    requires x in After(Initial(rule), es).ops && i < |After(Initial(rule), es).ops[x].observers|
    ensures
      var s := After(Initial(rule), es);
      var t := After(s, more);
      && x in t.ops
      && Rank(s.ops[x].phase) <= Rank(t.ops[x].phase)
      && (s.ops[x].phase.Finished? ==> t.ops[x].phase.Finished? && t.ops[x].error == s.ops[x].error)
      && i < |t.ops[x].observers| && s.ops[x].observers[i] <= t.ops[x].observers[i]
      && ToldRight(t.ops[x], t.ops[x].observers[i])
      && (t.ops[x].executed ==> Satisfied(t.ops[x]) && t.ops[x].started)
      && (t.ops[x].phase.Finished? && !t.ops[x].executed ==> t.ops[x].cancelled)
  {
    var s := After(Initial(rule), es);
    OpsOverRun(Initial(rule), es);
    OpsOverRun(s, more);
    var o := After(s, more).ops[x];
    assert Wf(o);
    ObserversToldRight(o, i);
  }

  lemma CancelledStaysIdle(o: Operation, sig: Signal)
    requires Wf(o) && Accepts(o, sig) && o.cancelled && !o.executed
    ensures Apply(o, sig).cancelled && !Apply(o, sig).executed
  {
  }

  /** Cancelled before its body began: the body never begins. */
  lemma {:induction false} CancelledNeverRuns(s: Scheduler, es: seq<Event>, x: Id)
    requires OpsOk(s) && Runs(s, es)
    requires x in s.ops && s.ops[x].cancelled && !s.ops[x].executed
    ensures x in After(s, es).ops && !After(s, es).ops[x].executed
    decreases |es|
  {
    if es != [] {
      var e := es[0];
      var t := Step(s, e);
      StepTouches(s, e);
      if e.Signalled? && e.id == x {
        CancelledStaysIdle(s.ops[x], e.sig);
        assert t.ops[x] == Apply(s.ops[x], e.sig);
      } else {
        assert t.ops[x] == s.ops[x];
      }
      CancelledNeverRuns(t, es[1..], x);
    }
  }

  /** The bodies recorded as run are those of the operations that executed. */
  ghost predicate Recorded(s: Scheduler) {
    forall x :: x in s.executions <==> x in s.ops && s.ops[x].executed
  }

  lemma StepKeepsRecord(s: Scheduler, e: Event)
    requires OpsOk(s) && Recorded(s) && Enabled(s, e)
    ensures Recorded(Step(s, e))
  {
    var t := Step(s, e);
    ExecutionShape(s, e);
    StepOps(s, e);
    forall x
      ensures x in t.executions <==> x in t.ops && t.ops[x].executed
    {
      assert x in s.executions <==> x in s.ops && s.ops[x].executed;
      if x != e.id {
        assert x in t.executions <==> x in s.executions;
      }
    }
  }

  lemma {:induction false} RecordOverRun(s: Scheduler, es: seq<Event>)
    requires OpsOk(s) && Recorded(s) && Runs(s, es)
    ensures OpsOk(After(s, es)) && Recorded(After(s, es))
    decreases |es|
  {
    if es != [] {
      StepKeepsRecord(s, es[0]);
      StepTouches(s, es[0]);
      RecordOverRun(Step(s, es[0]), es[1..]);
    }
  }

  /** A request to cancel that comes before the body has started keeps it from ever starting. */
  lemma CancelBeforeStart(rule: ReadinessRule, es: seq<Event>, x: Id, more: seq<Event>)
    requires Runs(Initial(rule), es) && x in After(Initial(rule), es).ops
    requires x !in After(Initial(rule), es).executions
    requires Runs(Step(After(Initial(rule), es), Signalled(x, CancelRequested)), more)
    ensures
      var t := After(Step(After(Initial(rule), es), Signalled(x, CancelRequested)), more);
      x in t.ops && x !in t.executions && !t.ops[x].phase.Executing? && t.ops[x].cancelled
  {
    var s, e := After(Initial(rule), es), Signalled(x, CancelRequested);
    RecordOverRun(Initial(rule), es);
    StepTouches(s, e);
    StepKeepsRecord(s, e);
    RequestCancels(s.ops[x]);
    CancelledNeverRuns(Step(s, e), more, x);
    RecordOverRun(Step(s, e), more);
    OpsOverRun(Step(s, e), more);
  }

  lemma RequestCancels(o: Operation)
    requires Wf(o)
    ensures Apply(o, CancelRequested).cancelled && Apply(o, CancelRequested).executed == o.executed
    ensures o.phase.Executing? ==> Apply(o, CancelRequested).interrupted
  {
  }

  lemma InterruptedLog(o: Operation, i: nat)
    requires Wf(o) && o.interrupted && i < |o.observers|
    ensures o.dispatch == [] ==> DidCancel in o.observers[i]
    ensures o.phase.Finished? && FinishBlock !in o.dispatch ==>
              o.observers[i] == [DidStart, DidCancel, DidFinish(o.error)]
  {
    assert LogOk(o, o.observers[i]);
  }

  /**
   A request to cancel that comes while the body is running reaches every observer attached by then, after
   the start and before the finish.
   */
  lemma CancelWhileExecuting(rule: ReadinessRule, es: seq<Event>, x: Id, more: seq<Event>, i: nat)
    requires Runs(Initial(rule), es) && x in After(Initial(rule), es).ops
    requires After(Initial(rule), es).ops[x].phase.Executing? && i < |After(Initial(rule), es).ops[x].observers|
    requires Runs(Step(After(Initial(rule), es), Signalled(x, CancelRequested)), more)
    ensures
      var t := After(Step(After(Initial(rule), es), Signalled(x, CancelRequested)), more);
      && x in t.ops && i < |t.ops[x].observers|
      && (t.ops[x].dispatch == [] ==> DidCancel in t.ops[x].observers[i])
      && (t.ops[x].phase.Finished? && FinishBlock !in t.ops[x].dispatch ==>
            t.ops[x].observers[i] == [DidStart, DidCancel, DidFinish(t.ops[x].error)])
  {
    var s, e := After(Initial(rule), es), Signalled(x, CancelRequested);
    OpsOverRun(Initial(rule), es);
    StepTouches(s, e);
    RequestCancels(s.ops[x]);
    OpsOverRun(Step(s, e), more);
    var o := After(Step(s, e), more).ops[x];
    InterruptedLog(o, i);
  }

  /** How many observers the events attach to the operation. */
  function Attached(es: seq<Event>, x: Id): nat {
    if es == [] then 0 else (if es[0] == Signalled(x, ObserverAdded) then 1 else 0) + Attached(es[1..], x)
  }

  lemma ObserversAfter(o: Operation, sig: Signal)
    requires Accepts(o, sig)
    ensures |Apply(o, sig).observers| == |o.observers| + if sig.ObserverAdded? then 1 else 0
  {
    match sig {
      case BlockRuns =>
      case _ =>
    }
  }

  /** Every observer attached is one that is told, and there are no others. */
  lemma {:induction false} ObserversAreAttached(s: Scheduler, es: seq<Event>, x: Id)
    requires OpsOk(s) && Runs(s, es) && x in s.ops
    ensures x in After(s, es).ops && |After(s, es).ops[x].observers| == |s.ops[x].observers| + Attached(es, x)
    decreases |es|
  {
    if es != [] {
      StepTouches(s, es[0]);
      StepOps(s, es[0]);
      if es[0].Signalled? && es[0].id == x {
        ObserversAfter(s.ops[x], es[0].sig);
      }
      ObserversAreAttached(Step(s, es[0]), es[1..], x);
    }
  }

  /** The error an operation finishes with: the first finish's own, or a cancellation before the body. */
  ghost predicate Finishes(sig: Signal, error: Option<OperationError>) {
    sig == FinishRequested(error) || (sig.CancelledFinishes? && error == Some(Cancelled))
  }

  lemma FinishSetsError(o: Operation, sig: Signal, error: Option<OperationError>)
    requires Accepts(o, sig) && Finishes(sig, error) && !o.phase.Finished?
    ensures Apply(o, sig).phase.Finished? && Apply(o, sig).error == error
  {
    if sig.CancelledFinishes? {
      assert Apply(o, sig) == FinishCancelled(o);
    } else {
      assert Apply(o, sig) == Finish(o, error);
    }
  }

  /** The log ends with the finish, its only one. */
  ghost predicate EndsWith(log: seq<Callback>, error: Option<OperationError>) {
    log != [] && log[|log| - 1] == DidFinish(error) && forall k :: 0 <= k < |log| - 1 ==> !log[k].DidFinish?
  }

  lemma FinishStep(s: Scheduler, x: Id, sig: Signal, error: Option<OperationError>)
    requires OpsOk(s) && Enabled(s, Signalled(x, sig)) && Finishes(sig, error) && !s.ops[x].phase.Finished?
    ensures
      var t := Step(s, Signalled(x, sig));
      && OpsOk(t) && x in t.ops && t.ops[x].phase.Finished? && t.ops[x].error == error
      && |s.ops[x].observers| <= |t.ops[x].observers|
  {
    StepTouches(s, Signalled(x, sig));
    StepOps(s, Signalled(x, sig));
    FinishSetsError(s.ops[x], sig, error);
  }

  lemma FinalError(s: Scheduler, more: seq<Event>, x: Id, i: nat)
    requires OpsOk(s) && x in s.ops && s.ops[x].phase.Finished? && i < |s.ops[x].observers| && Runs(s, more)
    ensures
      var t := After(s, more);
      && x in t.ops && t.ops[x].phase.Finished? && t.ops[x].error == s.ops[x].error && i < |t.ops[x].observers|
      && (FinishBlock !in t.ops[x].dispatch ==> EndsWith(t.ops[x].observers[i], s.ops[x].error))
  {
    OpsOverRun(s, more);
    FinishedLog(After(s, more).ops[x], i);
  }

  /** The first finish decides the error for good, and every observer attached by then is told just that one. */
  lemma FirstFinishDecides(rule: ReadinessRule, es: seq<Event>, x: Id, sig: Signal, error: Option<OperationError>,
                           more: seq<Event>, i: nat)
    requires Runs(Initial(rule), es) && Enabled(After(Initial(rule), es), Signalled(x, sig)) && Finishes(sig, error)
    requires !After(Initial(rule), es).ops[x].phase.Finished? && i < |After(Initial(rule), es).ops[x].observers|
    requires Runs(Step(After(Initial(rule), es), Signalled(x, sig)), more)
    ensures
      var t := After(Step(After(Initial(rule), es), Signalled(x, sig)), more);
      && x in t.ops && t.ops[x].phase.Finished? && t.ops[x].error == error && i < |t.ops[x].observers|
      && (FinishBlock !in t.ops[x].dispatch ==> EndsWith(t.ops[x].observers[i], error))
  {
    OpsOverRun(Initial(rule), es);
    var s := After(Initial(rule), es);
    FinishStep(s, x, sig, error);
    FinalError(Step(s, Signalled(x, sig)), more, x, i);
  }

  lemma FinishedLog(o: Operation, i: nat)
    requires Wf(o) && i < |o.observers|
    ensures o.phase.Finished? && FinishBlock !in o.dispatch ==> EndsWith(o.observers[i], o.error)
  {
    if o.phase.Finished? && FinishBlock !in o.dispatch {
      assert LogOk(o, o.observers[i]);
    }
  }
}
