/**
 An operation depends on what it was told to depend on and on what the exclusivity manager adds, and
 its body waits for all of them.
 */
module OperationDependencies {
  import opened Common
  import opened OperationLifecycle
  import opened OperationScheduler
  import opened OperationExclusivity
  import opened OperationFailure
  import opened OperationHistory

  /** The dependency was asked for, or came with the enqueueing. */
  ghost predicate Given(past: seq<Event>, x: Id, d: Id) {
    || Signalled(x, DependencyAdded(d)) in past
    || exists ticket: nat, predecessors: set<Id> ::
         Signalled(x, Enqueue(ticket, predecessors)) in past && d in predecessors
  }

  ghost predicate EdgesGiven(past: seq<Event>, s: Scheduler) {
    && (forall x: Id, d: Id :: Given(past, x, d) ==> x in s.ops && d in s.ops[x].dependencies)
    && (forall x, d :: x in s.ops && d in s.ops[x].dependencies ==> Given(past, x, d))
  }

  /** Started without having been cancelled, or past its start: everything it depends on is finished. */
  ghost predicate Waited(s: Scheduler, x: Id)
    requires x in s.ops
  {
    (s.ops[x].started && !s.ops[x].cancelled) || s.ops[x].executed ==> DependenciesFinished(s, x)
  }

  ghost predicate WaitInv(s: Scheduler) {
    OpsOk(s) && forall x :: x in s.ops ==> Waited(s, x)
  }

  lemma EdgesAfter(o: Operation, sig: Signal, d: Id)
    requires Accepts(o, sig)
    ensures d in Apply(o, sig).dependencies
       <==> d in o.dependencies || sig == DependencyAdded(d) || (sig.Enqueue? && d in sig.predecessors)
  {
    match sig {
      case DependencyAdded(_) =>
      case Enqueue(_, _) =>
      case ObserverAdded =>
      case Submit =>
      case Enqueued =>
      case Evaluate(_) =>
      case Reported(_, _) =>
      case Evaluated =>
      case QueueStarts =>
      case BlockRuns =>
      case CancelRequested =>
      case FinishRequested(_) =>
      case CancelledFinishes =>
    }
  }

  lemma GivenLater(past: seq<Event>, e: Event, x: Id, d: Id)
    ensures Given(past + [e], x, d)
       <==> || Given(past, x, d)
            || e == Signalled(x, DependencyAdded(d))
            || (e.Signalled? && e.id == x && e.sig.Enqueue? && d in e.sig.predecessors)
  {
    assert forall f :: f in past + [e] <==> f in past || f == e;
    if e.Signalled? && e.id == x && e.sig.Enqueue? && d in e.sig.predecessors {
      assert Signalled(x, Enqueue(e.sig.ticket, e.sig.predecessors)) in past + [e];
    }
  }

  lemma StepKeepsEdges(past: seq<Event>, s: Scheduler, e: Event)
    requires EdgesGiven(past, s) && Enabled(s, e)
    ensures EdgesGiven(past + [e], Step(s, e))
  {
    var t := Step(s, e);
    StepOps(s, e);
    forall x: Id, d: Id
      ensures Given(past + [e], x, d) <==> x in t.ops && d in t.ops[x].dependencies
    {
      GivenLater(past, e, x, d);
      assert Given(past, x, d) <==> x in s.ops && d in s.ops[x].dependencies;
      if e.Signalled? && e.id == x {
        EdgesAfter(s.ops[x], e.sig, d);
      }
    }
  }

  /** Whoever now counts as having waited did so before, or is being started with its dependencies finished. */
  lemma WaiterBefore(o: Operation, sig: Signal)
    requires Wf(o) && Accepts(o, sig)
    requires var p := Apply(o, sig); (p.started && !p.cancelled) || p.executed
    ensures (o.started && !o.cancelled) || o.executed || (sig.QueueStarts? && !o.cancelled)
    ensures Apply(o, sig).dependencies == o.dependencies || (!o.started && !sig.QueueStarts?)
  {
    match sig {
      case BlockRuns =>
      case _ =>
    }
  }

  lemma StepKeepsWaiting(s: Scheduler, e: Event, x: Id)
    requires WaitInv(s) && Enabled(s, e) && Touches(s, Step(s, e), e.id) && x in Step(s, e).ops
    ensures Waited(Step(s, e), x)
  {
    var t := Step(s, e);
    StepOps(s, e);
    if x in s.ops && ((t.ops[x].started && !t.ops[x].cancelled) || t.ops[x].executed) {
      assert Waited(s, x) && Wf(s.ops[x]);
      if e.Signalled? && e.id == x {
        WaiterBefore(s.ops[x], e.sig);
      }
      assert DependenciesFinished(s, x);
      FinishedStays(s, t, e.id, x);
    }
  }

  lemma StepKeepsWaitInv(s: Scheduler, e: Event)
    requires WaitInv(s) && Enabled(s, e)
    ensures WaitInv(Step(s, e))
  {
    StepTouches(s, e);
    forall x | x in Step(s, e).ops
      ensures Waited(Step(s, e), x)
    {
      StepKeepsWaiting(s, e, x);
    }
  }

  lemma {:induction false} EdgesOverRun(past: seq<Event>, s: Scheduler, es: seq<Event>)
    requires EdgesGiven(past, s) && WaitInv(s) && Runs(s, es)
    ensures EdgesGiven(past + es, After(s, es)) && WaitInv(After(s, es))
    decreases |es|
  {
    if es == [] {
      assert past + es == past;
    } else {
      StepKeepsEdges(past, s, es[0]);
      StepKeepsWaitInv(s, es[0]);
      EdgesOverRun(past + [es[0]], Step(s, es[0]), es[1..]);
      assert past + [es[0]] + es[1..] == past + es;
    }
  }

  /**
   Under either readiness rule, and with cancellations at any moment: an operation depends on exactly what it was
   given, and if its body ran, all of that is finished.
   */
  lemma BodiesWait(rule: ReadinessRule, es: seq<Event>, x: Id, d: Id)
    requires Runs(Initial(rule), es) && x in After(Initial(rule), es).ops
    ensures
      var s := After(Initial(rule), es);
      && (d in s.ops[x].dependencies <==> Given(es, x, d))
      && (x in s.executions && Given(es, x, d) ==> d in s.ops && s.ops[d].phase.Finished?)
  {
    EdgesOverRun([], Initial(rule), es);
    assert [] + es == es;
    RecordOverRun(Initial(rule), es);
    var s := After(Initial(rule), es);
    assert Waited(s, x);
  }
}
