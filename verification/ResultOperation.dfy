/**
 An operation with a result: whoever finishes it first decides the result, the completion
 handler hears of it once, and only then does the operation become finished.
 */
module ResultOperations {
  import opened Common
  import opened OperationLifecycle
  import opened AsyncOperationObject

  type Handler = nat

  type Outcome<T> = Result<T, OperationError>

  /** The block that `_finish` sends to the completion queue, and how far it has come. */
  datatype Completion<T> = Idle | Queued(handler: Option<Handler>, result: Outcome<T>) | HandlerDone(result: Outcome<T>)

  /** `calls` lists the handler calls made; `given` is the first result given, kept as history. */
  datatype ResultOp<T> = ResultOp(
    base: Operation,
    output: Option<T>,
    handler: Option<Handler>,
    pendingFinish: bool,
    completion: Completion<T>,
    calls: seq<(Handler, Outcome<T>)>,
    given: Option<Outcome<T>>)

  function NewResultOp<T>(conditions: seq<Condition>, handler: Option<Handler>): ResultOp<T> {
    ResultOp(New(conditions), None, handler, false, Idle, [], None)
  }

  function OutputOf<T>(result: Outcome<T>): Option<T> {
    if result.Success? then Some(result.value) else None
  }

  function ErrorOf<T>(result: Outcome<T>): Option<OperationError> {
    if result.Failure? then Some(result.error) else None
  }

  /** The `result` property. */
  function ResultNow<T>(r: ResultOp<T>): Option<Outcome<T>> {
    if r.output.Some? then Some(Success(r.output.value))
    else if r.base.error.Some? then Some(Failure(r.base.error.value))
    else None
  }

  function AssignHandler<T>(r: ResultOp<T>, handler: Option<Handler>): ResultOp<T> {
    if r.pendingFinish then r else r.(handler := handler)
  }

  function FinishWith<T>(r: ResultOp<T>, result: Outcome<T>): ResultOp<T> {
    if r.pendingFinish then
      r
    else
      r.(pendingFinish := true, completion := Queued(r.handler, result), handler := None,
         output := OutputOf(result), given := Some(result))
  }

  function CallHandler<T>(r: ResultOp<T>): ResultOp<T>
    requires r.completion.Queued?
  {
    var Queued(handler, result) := r.completion;
    r.(completion := HandlerDone(result),
       calls := if handler.Some? then r.calls + [(handler.value, result)] else r.calls)
  }

  function FinishBase<T>(r: ResultOp<T>): ResultOp<T>
    requires r.completion.HandlerDone?
  {
    r.(completion := Idle, base := Finish(r.base, ErrorOf(r.completion.result)))
  }

  datatype Event<T> =
    | Base(sig: Signal)
    | Assign(handler: Option<Handler>)
    | Give(result: Outcome<T>)
    | GiveError(error: Option<OperationError>)
    | HandlerRuns
    | BaseFinishes

  /** The base class never finishes by itself: its `finish` is overridden to give a failure. */
  predicate Admits<T>(r: ResultOp<T>, e: Event<T>) {
    match e
    case Base(sig) => !sig.FinishRequested? && !sig.CancelledFinishes? && Accepts(r.base, sig)
    case Assign(_) => true
    case Give(_) => Accepts(r.base, FinishRequested(None))
    case GiveError(_) => Accepts(r.base, FinishRequested(None))
    case HandlerRuns => r.completion.Queued?
    case BaseFinishes => r.completion.HandlerDone?
  }

  function Step<T>(r: ResultOp<T>, e: Event<T>): ResultOp<T>
    requires Admits(r, e)
  {
    match e
    case Base(sig) => r.(base := Apply(r.base, sig))
    case Assign(handler) => AssignHandler(r, handler)
    case Give(result) => FinishWith(r, result)
    case GiveError(error) => FinishWith(r, Failure(if error.Some? then error.value else Cancelled))
    case HandlerRuns => CallHandler(r)
    case BaseFinishes => FinishBase(r)
  }

  ghost predicate GivenOk<T>(r: ResultOp<T>) {
    && (r.pendingFinish <==> r.given.Some?)
    && (!r.pendingFinish ==> r.output == None && r.completion.Idle? && r.calls == [] && !r.base.phase.Finished?)
    && (r.pendingFinish ==> r.handler == None && r.output == OutputOf(r.given.value))
  }

  ghost predicate CompletionOk<T>(r: ResultOp<T>) {
    match r.completion
    case Idle => r.pendingFinish ==> r.given.Some? && r.base.phase.Finished? && r.base.error == ErrorOf(r.given.value)
    case Queued(_, result) => r.given == Some(result) && r.calls == [] && !r.base.phase.Finished? && Finishable(r.base)
    case HandlerDone(result) => r.given == Some(result) && !r.base.phase.Finished? && Finishable(r.base)
  }

  predicate Finishable(o: Operation) {
    o.phase.Executing? || o.finishingCancelled
  }

  ghost predicate CallsOk<T>(r: ResultOp<T>) {
    |r.calls| <= 1 && forall i :: 0 <= i < |r.calls| ==> r.given == Some(r.calls[i].1)
  }

  ghost predicate ResultWf<T>(r: ResultOp<T>) {
    Wf(r.base) && GivenOk(r) && CompletionOk(r) && CallsOk(r)
  }

  lemma StepKeepsWf<T>(r: ResultOp<T>, e: Event<T>)
    requires ResultWf(r) && Admits(r, e)
    ensures ResultWf(Step(r, e))
  {
    match e {
      case Base(sig) =>
        ApplyKeepsWf(r.base, sig);
      case BaseFinishes =>
        ApplyKeepsWf(r.base, FinishRequested(ErrorOf(r.completion.result)));
      case _ =>
    }
  }

  // ---------------------------------------------------------------------------
  // Runs

  ghost predicate Runs<T>(r: ResultOp<T>, es: seq<Event<T>>)
    decreases |es|
  {
    es == [] || (Admits(r, es[0]) && Runs(Step(r, es[0]), es[1..]))
  }

  ghost function After<T>(r: ResultOp<T>, es: seq<Event<T>>): ResultOp<T>
    requires Runs(r, es)
    decreases |es|
  {
    if es == [] then r else After(Step(r, es[0]), es[1..])
  }

  lemma {:induction false} WfOverRun<T>(r: ResultOp<T>, es: seq<Event<T>>)
    requires ResultWf(r) && Runs(r, es)
    ensures ResultWf(After(r, es))
    decreases |es|
  {
    if es != [] {
      StepKeepsWf(r, es[0]);
      WfOverRun(Step(r, es[0]), es[1..]);
    }
  }

  /** Once a result is given, later results and handler assignments change nothing of it. */
  lemma {:induction false} FirstResultStays<T>(r: ResultOp<T>, es: seq<Event<T>>)
    requires ResultWf(r) && r.pendingFinish && Runs(r, es)
    ensures
      var q := After(r, es);
      && q.given == r.given && q.output == r.output && q.handler == None
      && (r.completion.Idle? ==> q.calls == r.calls)
      && (r.completion.HandlerDone? ==> q.calls == r.calls)
      && r.calls <= q.calls
      && (r.completion.Queued? && r.completion.handler.None? ==> q.calls == [])
      && (r.completion.Queued? && r.completion.handler.Some? ==>
            q.calls == [] || q.calls == [(r.completion.handler.value, r.given.value)])
    decreases |es|
  {
    if es != [] {
      StepKeepsWf(r, es[0]);
      FirstResultStays(Step(r, es[0]), es[1..]);
    }
  }

  /** The first result that any of the events gives; an inherited `finish` without an error is a cancellation. */
  function FirstGiven<T>(es: seq<Event<T>>): Option<Outcome<T>>
    decreases |es|
  {
    if es == [] then None
    else match es[0]
      case Give(Success(value)) => Some(Success(value))
      case Give(Failure(error)) => Some(Failure(error))
      case GiveError(Some(error)) => Some(Failure(error))
      case GiveError(None) => Some(Failure(Cancelled))
      case _ => FirstGiven(es[1..])
  }

  lemma {:induction false} GivenIsFirst<T>(r: ResultOp<T>, es: seq<Event<T>>)
    requires ResultWf(r) && Runs(r, es)
    ensures After(r, es).given == if r.given.Some? then r.given else FirstGiven(es)
    decreases |es|
  {
    if es != [] {
      StepKeepsWf(r, es[0]);
      GivenIsFirst(Step(r, es[0]), es[1..]);
    }
  }

  /**
   The handler in place when the first result arrives is called at most once, with that result, before
   the operation is finished; and a finished operation's result is the first result given.
   */
  lemma ExactlyOnce<T>(conditions: seq<Condition>, handler: Option<Handler>, es: seq<Event<T>>)
    requires Runs(NewResultOp(conditions, handler), es)
    ensures
      var q := After(NewResultOp(conditions, handler), es);
      && q.given == FirstGiven(es)
      && |q.calls| <= 1
      && (forall i :: 0 <= i < |q.calls| ==> q.given == Some(q.calls[i].1))
      && (q.base.phase.Finished? ==> q.given.Some? && ResultNow(q) == q.given && q.completion.Idle?)
      && (ResultNow(q).Some? ==> ResultNow(q) == q.given)
  {
    var r := NewResultOp<T>(conditions, handler);
    WfOverRun(r, es);
    GivenIsFirst(r, es);
    assert Wf(After(r, es).base);
  }

  /** From the moment a result is given, the operation ends finished with its handler called exactly once. */
  lemma HandlerCalledOnEnd<T>(r: ResultOp<T>, result: Outcome<T>, es: seq<Event<T>>)
    requires ResultWf(r) && !r.pendingFinish && Admits(r, Give(result)) && Runs(FinishWith(r, result), es)
    requires After(FinishWith(r, result), es).base.phase.Finished?
    ensures
      var q := After(FinishWith(r, result), es);
      && q.calls == (if r.handler.Some? then [(r.handler.value, result)] else [])
      && ResultNow(q) == Some(result)
  {
    var m := FinishWith(r, result);
    StepKeepsWf(r, Give(result));
    WfOverRun(m, es);
    CallsFollow(m, es);
    FirstResultStays(m, es);
  }

  /** A finished operation has called the handler it was holding. */
  lemma {:induction false} CallsFollow<T>(m: ResultOp<T>, es: seq<Event<T>>)
    requires ResultWf(m) && m.completion.Queued? && Runs(m, es)
    ensures
      var q := After(m, es);
      || q.completion.Queued?
      || q.calls == if m.completion.handler.Some? then [(m.completion.handler.value, m.completion.result)] else []
    decreases |es|
  {
    if es != [] {
      var n := Step(m, es[0]);
      StepKeepsWf(m, es[0]);
      if n.completion.Queued? {
        CallsFollow(n, es[1..]);
      } else {
        FirstResultStays(n, es[1..]);
      }
    }
  }

  function LastAssigned<T>(es: seq<Event<T>>, start: Option<Handler>): Option<Handler>
    decreases |es|
  {
    if es == [] then start else LastAssigned(es[1..], if es[0].Assign? then es[0].handler else start)
  }

  /** Until a result is given, the handler is the last one assigned. */
  lemma {:induction false} HandlerIsLastAssigned<T>(r: ResultOp<T>, es: seq<Event<T>>)
    requires ResultWf(r) && Runs(r, es) && !After(r, es).pendingFinish
    ensures After(r, es).handler == LastAssigned(es, r.handler)
    decreases |es|
  {
    if es != [] {
      StepKeepsWf(r, es[0]);
      if r.pendingFinish || Step(r, es[0]).pendingFinish {
        FirstResultStays(Step(r, es[0]), es[1..]);
        WfOverRun(Step(r, es[0]), es[1..]);
      } else {
        HandlerIsLastAssigned(Step(r, es[0]), es[1..]);
      }
    }
  }

  // ---------------------------------------------------------------------------
  // The object

  class ResultOperation<T> {
    const base: AsyncOperation
    var output: Option<T>
    var completionHandler: Option<Handler>
    var pendingFinish: bool
    var completion: Completion<T>
    var calls: seq<(Handler, Outcome<T>)>
    ghost var given: Option<Outcome<T>>

    ghost function Value(): ResultOp<T>
      reads this, base
    {
      ResultOp(base.Value(), output, completionHandler, pendingFinish, completion, calls, given)
    }

    ghost predicate Valid()
      reads this, base
    {
      ResultWf(Value())
    }

    constructor (conditions: seq<Condition>, handler: Option<Handler>)
      ensures Valid() && fresh(base) && Value() == NewResultOp(conditions, handler)
    {
      base := new AsyncOperation(conditions);
      output, completionHandler, pendingFinish := None, handler, false;
      completion, calls, given := Idle, [], None;
    }

    method SetCompletionHandler(handler: Option<Handler>)
      requires Valid()
      modifies this`completionHandler
      ensures Valid() && Value() == AssignHandler(old(Value()), handler)
    {
      StepKeepsWf(Value(), Assign(handler));
      if !pendingFinish {
        completionHandler := handler;
      }
    }

    method Finish(result: Outcome<T>)
      requires Valid() && Admits(Value(), Give(result))
      modifies this
      ensures Valid() && Value() == FinishWith(old(Value()), result)
    {
      StepKeepsWf(Value(), Give(result));
      if pendingFinish {
        return;
      }
      pendingFinish := true;
      var handler := completionHandler;
      completionHandler := None;
      match result {
        case Success(value) => output := Some(value);
        case Failure(_) =>
      }
      given := Some(result);
      completion := Queued(handler, result);
    }

    /** The inherited `finish`, which the cancelled start of the base class ends in. */
    method FinishWithError(error: Option<OperationError>)
      requires Valid() && Admits(Value(), GiveError(error))
      modifies this
      ensures Valid() && Value() == Step(old(Value()), GiveError(error))
    {
      Finish(Failure(if error.Some? then error.value else Cancelled));
    }

    /** The whole completion block, run without interruption. */
    method RunCompletion()
      requires Valid() && completion.Queued?
      modifies this, base
      ensures Valid()
      ensures Value() == FinishBase(CallHandler(old(Value())))
      ensures base.state.Finished? && ResultNow(Value()) == given
    {
      StepKeepsWf(Value(), HandlerRuns);
      StepKeepsWf(Step(Value(), HandlerRuns), BaseFinishes);
      if completion.handler.Some? {
        calls := calls + [(completion.handler.value, completion.result)];
      }
      var error := match completion.result case Success(_) => None case Failure(e) => Some(e);
      completion := Idle;
      base.Finish(error);
    }

    method GetResult() returns (result: Option<Outcome<T>>)
      ensures result == ResultNow(Value())
    {
      if output.Some? {
        result := Some(Success(output.value));
      } else if base.error.Some? {
        result := Some(Failure(base.error.value));
      } else {
        result := None;
      }
    }
  }
}
