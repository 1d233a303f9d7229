/**
 The lifecycle of one asynchronous operation, as a value and as an object.

 An operation moves through six phases. Its fields change only inside critical
 sections, so every critical section is one transition function here. Work that the
 operation sends to its own serial dispatch queue waits in `dispatch`.
 */
module OperationLifecycle {
  import opened Common

  type Id = nat

  datatype OperationError = Cancelled | UnsatisfiedRequirement | Other(code: int)

  datatype Phase = Initialized | Pending | EvaluatingConditions | Ready | Executing | Finished

  function Rank(p: Phase): nat {
    match p
    case Initialized => 0
    case Pending => 1
    case EvaluatingConditions => 2
    case Ready => 3
    case Executing => 4
    case Finished => 5
  }

  datatype Condition =
    | MutuallyExclusive(category: string)
    | NoFailedDependencies(ignoreCancellations: bool)
    | NoCancelledDependencies
    | BlockCondition

  /** What an observer is told. */
  datatype Callback = DidStart | DidCancel | DidFinish(error: Option<OperationError>)

  /** Work waiting on the operation's serial dispatch queue. */
  datatype Block = StartBlock | CancelBlock | FinishBlock

  /**
   `observers` holds, for each observer, the callbacks it has received so far. `ticket` is the
   position in enqueue order, or -1 before the operation is enqueued. `submitted` and `started`
   are the operation queue's own bookkeeping. `executed`, `cancelNotified` and `finishingCancelled`
   record which parts of `start` have run, `interrupted` that `cancel` came while the body was running.
   */
  datatype Operation = Operation(
    phase: Phase,
    cancelled: bool,
    error: Option<OperationError>,
    conditions: seq<Condition>,
    verdicts: seq<Option<bool>>,
    observers: seq<seq<Callback>>,
    dispatch: seq<Block>,
    dependencies: set<Id>,
    ticket: int,
    submitted: bool,
    started: bool,
    executed: bool,
    cancelNotified: bool,
    finishingCancelled: bool,
    interrupted: bool)

  function New(conditions: seq<Condition>): Operation {
    Operation(Initialized, false, None, conditions, [], [], [], {}, -1, false, false, false, false, false, false)
  }

  function Categories(o: Operation): set<string> {
    set c | c in o.conditions && c.MutuallyExclusive? :: c.category
  }

  predicate AllReported(verdicts: seq<Option<bool>>) {
    forall i :: 0 <= i < |verdicts| ==> verdicts[i].Some?
  }

  predicate AllSatisfied(verdicts: seq<Option<bool>>) {
    forall i :: 0 <= i < |verdicts| ==> verdicts[i] == Some(true)
  }

  predicate Satisfied(o: Operation) {
    |o.verdicts| == |o.conditions| && AllSatisfied(o.verdicts)
  }

  // ---------------------------------------------------------------------------
  // Transitions

  function Tell(observers: seq<seq<Callback>>, c: Callback): (r: seq<seq<Callback>>)
    ensures |r| == |observers|
  {
    seq(|observers|, i requires 0 <= i < |observers| => observers[i] + [c])
  }

  /** The operation's conditions, its dependencies and its place in the queue are untouched. */
  predicate SamePlace(o: Operation, r: Operation) {
    && r.ticket == o.ticket && r.submitted == o.submitted
    && r.dependencies == o.dependencies && r.conditions == o.conditions
  }

  function AddObserver(o: Operation): (r: Operation)
    ensures SamePlace(o, r)
  {
    o.(observers := o.observers + [[]])
  }

  function DidEnqueue(o: Operation): (r: Operation)
    ensures SamePlace(o, r)
  {
    if o.phase.Initialized? then o.(phase := Pending) else o
  }

  /** `initial` are the verdicts of the conditions that answer on the spot. */
  function BeginEvaluation(o: Operation, initial: seq<Option<bool>>): (r: Operation)
    ensures SamePlace(o, r)
  {
    if o.conditions == [] then
      o.(phase := Ready)
    else
      o.(phase := EvaluatingConditions, verdicts := initial)
  }

  function Report(o: Operation, i: nat, verdict: bool): (r: Operation)
    requires i < |o.verdicts|
    ensures SamePlace(o, r)
  {
    o.(verdicts := o.verdicts[i := Some(verdict)])
  }

  function Cancel(o: Operation): (r: Operation)
    ensures SamePlace(o, r)
  {
    if o.cancelled then
      o
    else if o.phase.Executing? then
      o.(cancelled := true, interrupted := true, dispatch := o.dispatch + [CancelBlock])
    else
      o.(cancelled := true)
  }

  function DidEvaluate(o: Operation): (r: Operation)
    ensures SamePlace(o, r)
  {
    if Rank(o.phase) >= Rank(Ready) then
      o
    else
      (if AllSatisfied(o.verdicts) then o else Cancel(o)).(phase := Ready)
  }

  /** The queue calls `start`, which hands `_start` to the dispatch queue. */
  function Start(o: Operation): (r: Operation)
    ensures SamePlace(o, r)
  {
    o.(started := true, dispatch := o.dispatch + [StartBlock])
  }

  function Finish(o: Operation, error: Option<OperationError>): (r: Operation)
    ensures SamePlace(o, r)
  {
    if o.phase.Finished? then
      o
    else
      o.(phase := Finished, error := error, dispatch := o.dispatch + [FinishBlock])
  }

  /** The last statement of `_start` for a cancelled operation. */
  function FinishCancelled(o: Operation): (r: Operation)
    ensures SamePlace(o, r)
  {
    Finish(o, Some(Cancelled)).(finishingCancelled := false)
  }

  /** Runs the block at the head of the dispatch queue. */
  function RunBlock(o: Operation): (r: Operation)
    requires o.dispatch != []
    ensures SamePlace(o, r)
  {
    var rest := o.(dispatch := o.dispatch[1..]);
    match o.dispatch[0]
    case StartBlock =>
      if o.cancelled then
        rest.(observers := Tell(o.observers, DidCancel), cancelNotified := true, finishingCancelled := true)
      else
        rest.(phase := Executing, executed := true, observers := Tell(o.observers, DidStart))
    case CancelBlock =>
      rest.(observers := Tell(o.observers, DidCancel), cancelNotified := true)
    case FinishBlock =>
      rest.(observers := Tell(o.observers, DidFinish(o.error)))
  }

  // ---------------------------------------------------------------------------
  // What holds of an operation at every moment

  predicate FinishDelivered(o: Operation) {
    o.phase.Finished? && FinishBlock !in o.dispatch
  }

  /** Everything an observer may have been told, given where the operation stands. */
  predicate LogOk(o: Operation, log: seq<Callback>) {
    var end := if FinishDelivered(o) then [DidFinish(o.error)] else [];
    if o.executed then
      log == [DidStart] + (if o.cancelNotified then [DidCancel] else []) + end
    else
      log == end || (o.cancelNotified && log == [DidCancel] + end)
  }

  predicate LogsOk(o: Operation) {
    forall i :: 0 <= i < |o.observers| ==> LogOk(o, o.observers[i])
  }

  predicate DispatchOk(o: Operation) {
    || o.dispatch == []
    || (o.dispatch == [StartBlock] && o.started && !o.executed && !o.cancelNotified
        && !o.finishingCancelled && Rank(o.phase) <= Rank(Ready))
    || (o.dispatch == [CancelBlock] && o.phase.Executing? && o.cancelled && !o.cancelNotified)
    || (o.dispatch == [FinishBlock] && o.phase.Finished?)
    || (o.dispatch == [CancelBlock, FinishBlock] && o.phase.Finished? && o.executed && o.cancelled && !o.cancelNotified)
  }

  predicate PhaseOk(o: Operation) {
    && (o.phase.Executing? ==> o.executed)
    && (o.executed ==> o.phase in {Executing, Finished} && o.started && Satisfied(o) && !o.finishingCancelled)
    && (o.phase.Finished? && !o.executed ==> o.cancelled && o.cancelNotified && o.started)
    && (!o.phase.Finished? ==> o.error == None)
    && (o.phase.Ready? && !o.cancelled ==> Satisfied(o))
    && (o.phase.EvaluatingConditions? ==> |o.verdicts| == |o.conditions| && o.conditions != [])
    && (o.phase in {Initialized, Pending} ==> o.verdicts == [])
    && |o.verdicts| <= |o.conditions|
    && (forall i :: 0 <= i < |o.verdicts| && o.verdicts[i].None? ==> o.conditions[i].BlockCondition?)
  }

  predicate StartOk(o: Operation) {
    && o.ticket >= -1
    && (o.submitted ==> o.ticket >= 0)
    && (!o.phase.Initialized? || o.started ==> o.submitted)
    && (o.started && !o.cancelled ==> o.phase in {Ready, Executing, Finished})
    && (!o.started ==> o.dispatch == [] && !o.cancelNotified && !o.finishingCancelled && Rank(o.phase) <= Rank(Ready))
    && (o.finishingCancelled ==> o.cancelled && o.cancelNotified)
    && (o.started && !o.executed && !o.phase.Finished? && o.dispatch == [] ==> o.finishingCancelled)
    && (o.cancelNotified ==> o.cancelled)
    && (o.interrupted ==> o.executed && (o.cancelNotified || CancelBlock in o.dispatch))
    && (o.phase.Executing? && o.cancelled ==> o.interrupted)
  }

  predicate Wf(o: Operation) {
    PhaseOk(o) && StartOk(o) && DispatchOk(o) && LogsOk(o)
  }

  /** How an operation may change between two moments, however far apart. */
  predicate Advances(o: Operation, p: Operation) {
    && Rank(o.phase) <= Rank(p.phase)
    && p.conditions == o.conditions
    && (o.phase.Finished? ==> p.error == o.error)
    && (o.cancelled ==> p.cancelled)
    && (o.executed ==> p.executed)
    && (o.interrupted ==> p.interrupted)
    && (o.started ==> p.started)
    && (o.submitted ==> p.submitted)
    && (o.ticket >= 0 ==> p.ticket == o.ticket)
    && o.dependencies <= p.dependencies
    && (o.started || Rank(o.phase) > Rank(Pending) ==> p.dependencies == o.dependencies)
    && (o.verdicts != [] ==> |p.verdicts| == |o.verdicts|)
    && (forall i :: 0 <= i < |o.verdicts| && o.verdicts[i].Some? ==> i < |p.verdicts| && p.verdicts[i] == o.verdicts[i])
    && |o.observers| <= |p.observers|
    && (forall i :: 0 <= i < |o.observers| ==> o.observers[i] <= p.observers[i])
  }

  // ---------------------------------------------------------------------------
  // The transitions as one alphabet

  datatype Signal =
    | ObserverAdded
    | DependencyAdded(dependency: Id)
    | Enqueue(ticket: nat, predecessors: set<Id>)
    | Submit
    | Enqueued
    | Evaluate(initial: seq<Option<bool>>)
    | Reported(index: nat, verdict: bool)
    | Evaluated
    | QueueStarts
    | BlockRuns
    | CancelRequested
    | FinishRequested(error: Option<OperationError>)
    | CancelledFinishes

  /**
   When a signal can arrive. Observers and dependencies come early, as the callers' own
   assertions demand; the queue starts an operation once; `finish` comes after `start`.
   */
  predicate Accepts(o: Operation, sig: Signal) {
    match sig
    case ObserverAdded => Rank(o.phase) < Rank(Executing)
    case DependencyAdded(_) => !o.started && Rank(o.phase) <= Rank(Pending)
    case Enqueue(_, _) => o.ticket < 0
    case Submit => o.ticket >= 0 && !o.submitted
    case Enqueued => o.submitted
    case Evaluate(initial) =>
      && o.phase.Pending? && !o.cancelled && |initial| == |o.conditions|
      && (forall i :: 0 <= i < |initial| && initial[i].None? ==> o.conditions[i].BlockCondition?)
    case Reported(i, _) => i < |o.verdicts| && o.verdicts[i].None?
    case Evaluated => o.verdicts != [] && AllReported(o.verdicts)
    case QueueStarts => o.submitted && !o.started && (o.cancelled || o.phase.Ready?)
    case BlockRuns => o.dispatch != []
    case CancelRequested => true
    case FinishRequested(_) => o.phase in {Executing, Finished} || o.finishingCancelled
    case CancelledFinishes => o.finishingCancelled
  }

  function Apply(o: Operation, sig: Signal): Operation
    requires Accepts(o, sig)
  {
    match sig
    case ObserverAdded => AddObserver(o)
    case DependencyAdded(d) => o.(dependencies := o.dependencies + {d})
    case Enqueue(ticket, predecessors) => o.(ticket := ticket, dependencies := o.dependencies + predecessors)
    case Submit => o.(submitted := true)
    case Enqueued => DidEnqueue(o)
    case Evaluate(initial) => BeginEvaluation(o, initial)
    case Reported(i, verdict) => Report(o, i, verdict)
    case Evaluated => DidEvaluate(o)
    case QueueStarts => Start(o)
    case BlockRuns => RunBlock(o)
    case CancelRequested => Cancel(o)
    case FinishRequested(error) => Finish(o, error)
    case CancelledFinishes => FinishCancelled(o)
  }

  lemma RunBlockKeepsWf(o: Operation)
    requires Wf(o) && o.dispatch != []
    ensures Wf(RunBlock(o))
  {
  }

  lemma FinishKeepsWf(o: Operation, error: Option<OperationError>)
    requires Wf(o) && Accepts(o, FinishRequested(error))
    ensures Wf(Finish(o, error)) && (o.finishingCancelled ==> Wf(Finish(o, error).(finishingCancelled := false)))
  {
  }

  lemma CancelKeepsWf(o: Operation)
    requires Wf(o)
    ensures Wf(Cancel(o))
  {
  }

  lemma EarlyKeepsWf(o: Operation, sig: Signal)
    requires Wf(o) && Accepts(o, sig)
    requires sig.ObserverAdded? || sig.DependencyAdded? || sig.Enqueue? || sig.Submit? || sig.Enqueued?
    ensures Wf(Apply(o, sig))
  {
  }

  lemma EvaluationKeepsWf(o: Operation, sig: Signal)
    requires Wf(o) && Accepts(o, sig) && (sig.Evaluate? || sig.Reported? || sig.Evaluated?)
    ensures Wf(Apply(o, sig))
  {
  }

  lemma ApplyKeepsWf(o: Operation, sig: Signal)
    requires Wf(o) && Accepts(o, sig)
    ensures Wf(Apply(o, sig))
  {
    match sig {
      case QueueStarts =>
      case BlockRuns => RunBlockKeepsWf(o);
      case CancelRequested => CancelKeepsWf(o);
      case FinishRequested(error) => FinishKeepsWf(o, error);
      case CancelledFinishes => FinishKeepsWf(o, Some(Cancelled));
      case Evaluate(_) => EvaluationKeepsWf(o, sig);
      case Reported(_, _) => EvaluationKeepsWf(o, sig);
      case Evaluated => EvaluationKeepsWf(o, sig);
      case _ => EarlyKeepsWf(o, sig);
    }
  }

  lemma ApplyAdvances(o: Operation, sig: Signal)
    requires Wf(o) && Accepts(o, sig)
    ensures Advances(o, Apply(o, sig))
  {
    if sig.BlockRuns? {
      RunBlockAdvances(o);
    }
  }

  lemma RunBlockAdvances(o: Operation)
    requires Wf(o) && o.dispatch != []
    ensures Advances(o, RunBlock(o))
  {
  }

  lemma AdvancesTransitive(o: Operation, p: Operation, q: Operation)
    requires Advances(o, p) && Advances(p, q)
    ensures Advances(o, q)
  {
  }
}
