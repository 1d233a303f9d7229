/**
 The operation as the object the source makes it: fields changed in place, each method one
 critical section, proved to do what the matching transition says.
 */
module AsyncOperationObject {
  import opened Common
  import opened OperationLifecycle

  class AsyncOperation {
    const conditions: seq<Condition>
    var state: Phase
    var isCancelled: bool
    var error: Option<OperationError>
    var results: seq<Option<bool>>
    var observers: seq<seq<Callback>>
    var dispatchQueue: seq<Block>
    var dependencies: set<Id>
    ghost var ticket: int
    ghost var submitted: bool
    ghost var started: bool
    ghost var executed: bool
    ghost var cancelNotified: bool
    ghost var finishingCancelled: bool
    ghost var interrupted: bool

    ghost function Value(): Operation
      reads this
    {
      Operation(state, isCancelled, error, conditions, results, observers, dispatchQueue, dependencies,
                ticket, submitted, started, executed, cancelNotified, finishingCancelled, interrupted)
    }

    ghost predicate Valid()
      reads this
    {
      Wf(Value())
    }

    constructor (conditions: seq<Condition>)
      ensures Valid() && Value() == New(conditions)
    {
      this.conditions := conditions;
      state := Initialized;
      isCancelled, error, results, observers, dispatchQueue := false, None, [], [], [];
      dependencies, ticket, submitted, started := {}, -1, false, false;
      executed, cancelNotified, finishingCancelled, interrupted := false, false, false, false;
    }

    /** The setter of `state`. Its assertion is the precondition, so no caller can break it. */
    method SetState(newState: Phase)
      requires Rank(state) < Rank(newState)
      modifies this`state
      ensures state == newState
    {
      state := newState;
    }

    method AddObserver()
      requires Valid() && Rank(state) < Rank(Executing)
      modifies this`observers
      ensures Valid() && Value() == OperationLifecycle.AddObserver(old(Value()))
    {
      ApplyKeepsWf(Value(), ObserverAdded);
      observers := observers + [[]];
    }

    method Notify(callback: Callback)
      modifies this`observers
      ensures observers == Tell(old(observers), callback)
    {
      var told: seq<seq<Callback>> := [];
      for i := 0 to |observers|
        invariant |told| == i
        invariant forall k :: 0 <= k < i ==> told[k] == observers[k] + [callback]
      {
        told := told + [observers[i] + [callback]];
      }
      observers := told;
    }

    method DidEnqueue()
      requires Valid() && submitted
      modifies this`state
      ensures Valid() && Value() == OperationLifecycle.DidEnqueue(old(Value()))
    {
      ApplyKeepsWf(Value(), Enqueued);
      if state != Initialized {
        return;
      }
      SetState(Pending);
    }

    /** `answers` holds what each condition says when asked, `None` for one that answers later. */
    method EvaluateConditions(answers: seq<Option<bool>>)
      requires Valid() && Accepts(Value(), Evaluate(answers))
      modifies this`state, this`results
      ensures Valid() && Value() == BeginEvaluation(old(Value()), answers)
    {
      ApplyKeepsWf(Value(), Evaluate(answers));
      if conditions == [] {
        SetState(Ready);
        return;
      }
      SetState(EvaluatingConditions);
      var asked: seq<Option<bool>> := seq(|conditions|, _ => None);
      for i := 0 to |conditions|
        invariant |asked| == |conditions|
        invariant asked[..i] == answers[..i]
        invariant forall k :: i <= k < |asked| ==> asked[k] == None
      {
        if answers[i].Some? {
          asked := asked[i := answers[i]];
        }
        assert asked[..i + 1] == asked[..i] + [asked[i]];
        assert answers[..i + 1] == answers[..i] + [answers[i]];
      }
      assert asked == answers;
      results := asked;
    }

    method CheckReadiness(dependenciesFinished: bool, answers: seq<Option<bool>>)
      requires Valid()
      requires state.Pending? && !isCancelled && dependenciesFinished ==> Accepts(Value(), Evaluate(answers))
      modifies this`state, this`results
      ensures Valid()
      ensures Value() == if old(state).Pending? && !isCancelled && dependenciesFinished
                         then BeginEvaluation(old(Value()), answers) else old(Value())
    {
      if state == Pending && !isCancelled && dependenciesFinished {
        EvaluateConditions(answers);
      }
    }

    method DidEvaluateConditions()
      requires Valid() && Accepts(Value(), Evaluated)
      modifies this`state, this`isCancelled, this`interrupted, this`dispatchQueue
      ensures Valid() && Value() == DidEvaluate(old(Value()))
    {
      ApplyKeepsWf(Value(), Evaluated);
      if Rank(state) >= Rank(Ready) {
        return;
      }
      if exists i :: 0 <= i < |results| && results[i] != Some(true) {
        Cancel();
      }
      SetState(Ready);
    }

    method Start()
      requires Valid() && Accepts(Value(), QueueStarts)
      modifies this`started, this`dispatchQueue
      ensures Valid() && Value() == OperationLifecycle.Start(old(Value()))
    {
      ApplyKeepsWf(Value(), QueueStarts);
      started := true;
      dispatchQueue := dispatchQueue + [StartBlock];
    }

    method Cancel()
      requires Valid()
      modifies this`isCancelled, this`interrupted, this`dispatchQueue
      ensures Valid() && Value() == OperationLifecycle.Cancel(old(Value()))
    {
      ApplyKeepsWf(Value(), CancelRequested);
      if !isCancelled {
        isCancelled := true;
        if state == Executing {
          interrupted := true;
          dispatchQueue := dispatchQueue + [CancelBlock];
        }
      }
    }

    method TryFinish(anError: Option<OperationError>) returns (won: bool)
      modifies this`error, this`state
      ensures won == !old(state).Finished?
      ensures won ==> state.Finished? && error == anError
      ensures !won ==> state == old(state) && error == old(error)
    {
      if Rank(state) >= Rank(Finished) {
        return false;
      }
      error := anError;
      SetState(Finished);
      return true;
    }

    method Finish(anError: Option<OperationError>)
      requires Valid() && Accepts(Value(), FinishRequested(anError))
      modifies this`error, this`state, this`dispatchQueue
      ensures Valid() && Value() == OperationLifecycle.Finish(old(Value()), anError)
    {
      ApplyKeepsWf(Value(), FinishRequested(anError));
      var won := TryFinish(anError);
      if won {
        dispatchQueue := dispatchQueue + [FinishBlock];
      }
    }

    /** `_start`, run from the head of the serial dispatch queue. */
    method RunStart()
      requires Valid() && dispatchQueue != [] && dispatchQueue[0] == StartBlock
      modifies this
      ensures Valid() && Value() == RunBlock(old(Value()))
    {
      ApplyKeepsWf(Value(), BlockRuns);
      dispatchQueue := dispatchQueue[1..];
      if isCancelled {
        Notify(DidCancel);
        cancelNotified, finishingCancelled := true, true;
      } else {
        SetState(Executing);
        executed := true;
        Notify(DidStart);
      }
    }

    method RunCancel()
      requires Valid() && dispatchQueue != [] && dispatchQueue[0] == CancelBlock
      modifies this
      ensures Valid() && Value() == RunBlock(old(Value()))
    {
      ApplyKeepsWf(Value(), BlockRuns);
      dispatchQueue := dispatchQueue[1..];
      Notify(DidCancel);
      cancelNotified := true;
    }

    method RunFinish()
      requires Valid() && dispatchQueue != [] && dispatchQueue[0] == FinishBlock
      modifies this
      ensures Valid() && Value() == RunBlock(old(Value()))
    {
      ApplyKeepsWf(Value(), BlockRuns);
      dispatchQueue := dispatchQueue[1..];
      Notify(DidFinish(error));
    }

    /** Runs the block at the head of the serial dispatch queue. */
    method RunNextBlock()
      requires Valid() && dispatchQueue != []
      modifies this
      ensures Valid() && Value() == RunBlock(old(Value()))
    {
      match dispatchQueue[0] {
        case StartBlock => RunStart();
        case CancelBlock => RunCancel();
        case FinishBlock => RunFinish();
      }
    }
  }
}
