/**
 If explicit dependencies point to operations enqueued earlier, the edges that the exclusivity
 manager adds cannot close a cycle, and from every reachable state all enqueued operations can
 still be brought to an end.
 */
module OperationProgress {
  import opened Common
  import opened OperationLifecycle
  import opened OperationScheduler
  import opened OperationFailure

  ghost predicate EarlierThan(s: Scheduler, d: Id, x: Id)
    requires x in s.ops
  {
    d in s.ops && 0 <= s.ops[d].ticket < s.ops[x].ticket
  }

  ghost predicate BackEdges(s: Scheduler) {
    forall x, d :: x in s.ops && s.ops[x].ticket >= 0 && d in s.ops[x].dependencies ==> EarlierThan(s, d, x)
  }

  /** The callers' discipline: an explicit dependency is enqueued before the operation that needs it. */
  ghost predicate PointsBack(s: Scheduler, e: Event)
    requires Enabled(s, e)
  {
    e.Signalled? ==>
      match e.sig
      case Enqueue(_, _) => forall d :: d in s.ops[e.id].dependencies ==> d in s.ops && s.ops[d].ticket >= 0
      case DependencyAdded(d) => s.ops[e.id].ticket >= 0 ==> EarlierThan(s, d, e.id)
      case _ => true
  }

  lemma LastIsEnqueued(s: Scheduler, categories: set<string>, d: Id)
    requires ListsOk(s) && d in LastOperations(s.lists, categories)
    ensures d in s.ops && s.ops[d].ticket >= 0
  {
    var c :| c in categories && ListOf(s.lists, c) != [] && d == ListOf(s.lists, c)[|ListOf(s.lists, c)| - 1];
    assert ListOk(s.ops, s.lists[c], c);
  }

  lemma EnqueueEdges(s: Scheduler, e: Event, d: Id)
    requires BaseInv(s) && Enabled(s, e) && e.Signalled? && e.sig.Enqueue? && PointsBack(s, e)
    requires d in Step(s, e).ops[e.id].dependencies
    ensures d in s.ops && s.ops[d].ticket >= 0
  {
    StepOps(s, e);
    if d !in s.ops[e.id].dependencies {
      LastIsEnqueued(s, Categories(s.ops[e.id]), d);
    }
  }

  lemma EdgesStay(o: Operation, sig: Signal)
    requires Accepts(o, sig) && !sig.Enqueue? && !sig.DependencyAdded?
    ensures Apply(o, sig).dependencies == o.dependencies && Apply(o, sig).ticket == o.ticket
  {
    match sig {
      case ObserverAdded =>
      case Submit =>
      case Enqueued =>
      case Evaluate(_) =>
      case Reported(_, _) =>
      case Evaluated =>
      case QueueStarts =>
      case BlockRuns =>
      case CancelRequested =>
      case FinishRequested(_) =>
      case CancelledFinishes =>
    }
  }

  /** A step other than enqueueing leaves tickets alone, and its dependencies point back as before. */
  lemma EdgePointsBack(s: Scheduler, e: Event, d: Id)
    requires BaseInv(s) && BackEdges(s) && Enabled(s, e) && PointsBack(s, e) && e.Signalled? && !e.sig.Enqueue?
    requires Step(s, e).ops[e.id].ticket >= 0 && d in Step(s, e).ops[e.id].dependencies
    ensures EarlierThan(s, d, e.id)
  {
    StepOps(s, e);
    TicketAfter(s.ops[e.id], e.sig);
    if !e.sig.DependencyAdded? {
      EdgesStay(s.ops[e.id], e.sig);
    }
  }

  lemma StepKeepsBackEdges(s: Scheduler, e: Event)
    requires BaseInv(s) && BackEdges(s) && Enabled(s, e) && PointsBack(s, e)
    ensures BackEdges(Step(s, e))
  {
    var t := Step(s, e);
    StepTouches(s, e);
    StepOps(s, e);
    forall x, d | x in t.ops && t.ops[x].ticket >= 0 && d in t.ops[x].dependencies
      ensures EarlierThan(t, d, x)
    {
      if e.Signalled? && x == e.id {
        TicketAfter(s.ops[x], e.sig);
        if e.sig.Enqueue? {
          EnqueueEdges(s, e, d);
        } else {
          EdgePointsBack(s, e, d);
        }
      } else {
        assert EarlierThan(s, d, x);
      }
    }
  }

  /** A dependency path from an enqueued operation back to itself. */
  ghost predicate Cycle(s: Scheduler, path: seq<Id>) {
    DependencyPath(s, path) && |path| > 1 && path[|path| - 1] == path[0] && s.ops[path[0]].ticket >= 0
  }

  /** Tickets fall along every dependency path, so no path returns to its start. */
  lemma {:induction false} PathsFall(s: Scheduler, path: seq<Id>, k: nat)
    requires BackEdges(s) && DependencyPath(s, path) && 0 < k < |path| && s.ops[path[0]].ticket >= 0
    ensures 0 <= s.ops[path[k]].ticket && s.ops[path[k]].ticket + k <= s.ops[path[0]].ticket
    ensures path[k] != path[0]
  {
    if k > 1 {
      PathsFall(s, path, k - 1);
    }
    assert EarlierThan(s, path[k], path[k - 1]);
  }

  // ---------------------------------------------------------------------------
  // Bringing one operation to its end

  function Unreported(verdicts: seq<Option<bool>>): nat {
    if verdicts == [] then 0 else (if verdicts[0].None? then 1 else 0) + Unreported(verdicts[1..])
  }

  lemma {:induction false} ReportingCounts(verdicts: seq<Option<bool>>, i: nat, b: bool)
    requires i < |verdicts| && verdicts[i].None?
    ensures Unreported(verdicts[i := Some(b)]) == Unreported(verdicts) - 1
  {
    if i == 0 {
      assert verdicts[i := Some(b)][1..] == verdicts[1..];
    } else {
      ReportingCounts(verdicts[1..], i - 1, b);
      assert verdicts[i := Some(b)][1..] == verdicts[1..][i - 1 := Some(b)];
    }
  }

  lemma {:induction false} UnreportedBound(verdicts: seq<Option<bool>>)
    ensures Unreported(verdicts) <= |verdicts|
  {
    if verdicts != [] {
      UnreportedBound(verdicts[1..]);
    }
  }

  /** How many steps an operation is away from its end. */
  function Distance(o: Operation): nat {
    if o.phase.Finished? then 0
    else if o.phase.Executing? || o.finishingCancelled then 1
    else if o.started then 2
    else if !o.submitted then 7 + |o.conditions|
    else if o.cancelled || o.phase.Ready? then 3
    else match o.phase
      case EvaluatingConditions => 4 + Unreported(o.verdicts)
      case Pending => 5 + |o.conditions|
      case _ => 6 + |o.conditions|
  }

  ghost predicate Drivable(s: Scheduler, x: Id) {
    x in s.ops && Wf(s.ops[x]) && s.ops[x].ticket >= 0 && DependenciesFinished(s, x)
  }

  /** The next step of an operation whose dependencies are finished. */
  ghost function NextSignal(s: Scheduler, x: Id): Signal
    requires x in s.ops
  {
    var o := s.ops[x];
    if o.finishingCancelled then CancelledFinishes
    else if o.phase.Executing? then FinishRequested(None)
    else if o.started then BlockRuns
    else if !o.submitted then Submit
    else if o.cancelled || o.phase.Ready? then QueueStarts
    else match o.phase
      case EvaluatingConditions =>
        if AllReported(o.verdicts) then Evaluated
        else var i :| 0 <= i < |o.verdicts| && o.verdicts[i].None?; Reported(i, true)
      case Pending => Evaluate(Verdicts(s, x))
      case _ => Enqueued
  }

  /** The earliest unfinished operation always has a step, and the step brings it closer to its end. */
  lemma NextStepExists(s: Scheduler, x: Id)
    requires Drivable(s, x) && !s.ops[x].phase.Finished?
    ensures Enabled(s, Signalled(x, NextSignal(s, x)))
    ensures Distance(Step(s, Signalled(x, NextSignal(s, x))).ops[x]) < Distance(s.ops[x])
  {
    var o, sig := s.ops[x], NextSignal(s, x);
    if sig.Reported? {
      ReportingCounts(o.verdicts, sig.index, true);
    }
    if sig.Evaluate? {
      UnreportedBound(sig.initial);
    }
  }

  /** Stepping one operation leaves the others, its place and its dependencies alone. */
  lemma DriveStep(s: Scheduler, x: Id) returns (t: Scheduler)
    requires BaseInv(s) && BackEdges(s) && Drivable(s, x) && !s.ops[x].phase.Finished?
    ensures Enabled(s, Signalled(x, NextSignal(s, x)))
    ensures t == Step(s, Signalled(x, NextSignal(s, x)))
    ensures BaseInv(t) && BackEdges(t) && Drivable(t, x)
    ensures Distance(t.ops[x]) < Distance(s.ops[x])
    ensures t.ops.Keys == s.ops.Keys && t.ops[x].ticket == s.ops[x].ticket
    ensures forall y :: y in s.ops && y != x ==> t.ops[y] == s.ops[y]
  {
    var e := Signalled(x, NextSignal(s, x));
    NextStepExists(s, x);
    StepKeepsBase(s, e);
    StepKeepsBackEdges(s, e);
    StepTouches(s, e);
    t := Step(s, e);
    StepOps(s, e);
    EdgesStay(s.ops[x], e.sig);
    StillDrivable(s, t, x);
  }

  lemma StillDrivable(s: Scheduler, t: Scheduler, x: Id)
    requires Drivable(s, x) && Touches(s, t, x) && Wf(t.ops[x]) && !s.ops[x].phase.Finished?
    requires t.ops[x].ticket == s.ops[x].ticket && t.ops[x].dependencies == s.ops[x].dependencies
    ensures Drivable(t, x)
  {
  }

  lemma {:induction false} Drive(s: Scheduler, x: Id) returns (es: seq<Event>)
    requires BaseInv(s) && BackEdges(s) && Drivable(s, x)
    ensures Runs(s, es)
    ensures
      var t := After(s, es);
      && BaseInv(t) && BackEdges(t)
      && t.ops.Keys == s.ops.Keys && t.ops[x].phase.Finished? && t.ops[x].ticket == s.ops[x].ticket
      && forall y :: y in s.ops && y != x ==> t.ops[y] == s.ops[y]
    decreases Distance(s.ops[x])
  {
    if s.ops[x].phase.Finished? {
      es := [];
    } else {
      var t := DriveStep(s, x);
      var rest := Drive(t, x);
      es := [Signalled(x, NextSignal(s, x))] + rest;
      assert es[1..] == rest;
    }
  }

  // ---------------------------------------------------------------------------
  // Bringing all of them to an end

  ghost function Waiting(s: Scheduler): set<Id> {
    set x | x in s.ops && s.ops[x].ticket >= 0 && !s.ops[x].phase.Finished?
  }

  lemma {:induction false} Earliest(s: Scheduler, xs: set<Id>) returns (x: Id)
    requires xs != {} && forall y :: y in xs ==> y in s.ops
    ensures x in xs && forall y :: y in xs ==> s.ops[x].ticket <= s.ops[y].ticket
    decreases |xs|
  {
    var a :| a in xs;
    var rest := xs - {a};
    if rest == {} {
      assert xs == {a};
      x := a;
    } else {
      var z := Earliest(s, rest);
      x := if s.ops[z].ticket < s.ops[a].ticket then z else a;
      forall y | y in xs
        ensures s.ops[x].ticket <= s.ops[y].ticket
      {
        assert y == a || y in rest;
      }
    }
  }

  /** The earliest unfinished operation never waits. */
  lemma EarliestIsFree(s: Scheduler, x: Id)
    requires BackEdges(s) && x in Waiting(s)
    requires forall y :: y in Waiting(s) ==> s.ops[x].ticket <= s.ops[y].ticket
    ensures DependenciesFinished(s, x)
  {
    forall d | d in s.ops[x].dependencies
      ensures d in s.ops && s.ops[d].phase.Finished?
    {
      assert EarlierThan(s, d, x);
      assert d !in Waiting(s);
    }
  }

  lemma OneFewer(s: Scheduler, t: Scheduler, x: Id)
    requires x in Waiting(s) && t.ops.Keys == s.ops.Keys && t.ops[x].phase.Finished?
    requires forall y :: y in s.ops && y != x ==> t.ops[y] == s.ops[y]
    ensures |Waiting(t)| < |Waiting(s)|
  {
    assert Waiting(t) == Waiting(s) - {x};
  }

  /** From such a state some run finishes every enqueued operation. */
  lemma {:induction false} FinishAll(s: Scheduler) returns (es: seq<Event>)
    requires BaseInv(s) && BackEdges(s)
    ensures Runs(s, es) && After(s, es).ops.Keys == s.ops.Keys
    ensures Waiting(After(s, es)) == {}
    ensures forall y :: y in s.ops ==> After(s, es).ops[y].ticket == s.ops[y].ticket
    decreases |Waiting(s)|
  {
    if Waiting(s) == {} {
      es := [];
    } else {
      var x := Earliest(s, Waiting(s));
      EarliestIsFree(s, x);
      var first := Drive(s, x);
      var t := After(s, first);
      OneFewer(s, t, x);
      var rest := FinishAll(t);
      Concat(s, first, rest);
      es := first + rest;
    }
  }

  ghost predicate DisciplinedRun(s: Scheduler, es: seq<Event>)
    decreases |es|
  {
    es == [] || (Enabled(s, es[0]) && PointsBack(s, es[0]) && DisciplinedRun(Step(s, es[0]), es[1..]))
  }

  lemma {:induction false} DisciplineOverRun(s: Scheduler, es: seq<Event>)
    requires BaseInv(s) && BackEdges(s) && DisciplinedRun(s, es)
    ensures Runs(s, es) && BaseInv(After(s, es)) && BackEdges(After(s, es))
    decreases |es|
  {
    if es != [] {
      StepKeepsBase(s, es[0]);
      StepKeepsBackEdges(s, es[0]);
      DisciplineOverRun(Step(s, es[0]), es[1..]);
    }
  }

  /**
   Deadlock freedom: after any run whose explicit dependencies point back, the dependency graph has
   no cycle, and the run can be continued until every operation enqueued so far is finished.
   */
  lemma NoDeadlock(rule: ReadinessRule, es: seq<Event>) returns (more: seq<Event>)
    requires DisciplinedRun(Initial(rule), es)
    ensures Runs(Initial(rule), es)
    ensures
      var s := After(Initial(rule), es);
      && (forall path :: !Cycle(s, path))
      && Runs(s, more)
      && forall x :: x in s.ops && s.ops[x].ticket >= 0 ==>
           x in After(s, more).ops && After(s, more).ops[x].phase.Finished?
  {
    DisciplineOverRun(Initial(rule), es);
    var s := After(Initial(rule), es);
    forall path | Cycle(s, path)
      ensures false
    {
      PathsFall(s, path, |path| - 1);
    }
    more := FinishAll(s);
    forall x | x in s.ops && s.ops[x].ticket >= 0
      ensures x in After(s, more).ops && After(s, more).ops[x].phase.Finished?
    {
      assert x !in Waiting(After(s, more));
    }
  }
}
