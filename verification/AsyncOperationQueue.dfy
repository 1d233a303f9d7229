/**
 The operation queue's `addOperation` and the exclusivity manager behind it, as objects.
 */
module AsyncOperationQueueObject {
  import opened OperationLifecycle
  import opened OperationScheduler
  import opened AsyncOperationObject

  class ExclusivityManager {
    var operationsByCategory: CategoryLists

    constructor ()
      ensures operationsByCategory == map[]
    {
      operationsByCategory := map[];
    }

    /** `id` names `operation` in the lists. Categories come in no particular order. */
    method AddOperation(operation: AsyncOperation, id: Id, categories: set<string>)
      modifies this, operation`dependencies
      ensures operationsByCategory == Register(old(operationsByCategory), id, categories)
      ensures operation.dependencies
           == old(operation.dependencies) + LastOperations(old(operationsByCategory), categories)
    {
      ghost var before := operationsByCategory;
      var remaining := categories;
      while remaining != {}
        invariant remaining <= categories
        invariant operationsByCategory == Register(before, id, categories - remaining)
        invariant operation.dependencies == old(operation.dependencies) + LastOperations(before, categories - remaining)
        decreases remaining
      {
        var category :| category in remaining;
        ghost var done := categories - remaining;
        var operations := if category in operationsByCategory then operationsByCategory[category] else [];
        assert operations == ListOf(before, category);
        if operations != [] {
          operation.dependencies := operation.dependencies + {operations[|operations| - 1]};
        }
        operations := operations + [id];
        operationsByCategory := operationsByCategory[category := operations];
        remaining := remaining - {category};
        assert categories - remaining == done + {category};
        LastOperationsGrow(before, done, category);
        assert operationsByCategory == Register(before, id, done + {category});
      }
      assert categories - remaining == categories;
    }

    method RemoveOperation(id: Id, categories: set<string>)
      modifies this
      ensures operationsByCategory == Unregister(old(operationsByCategory), id, categories)
    {
      ghost var before := operationsByCategory;
      assert Unregister(before, id, {}) == before;
      var remaining := categories;
      while remaining != {}
        invariant remaining <= categories
        invariant operationsByCategory == Unregister(before, id, categories - remaining)
        decreases remaining
      {
        var category :| category in remaining;
        ghost var done := categories - remaining;
        remaining := remaining - {category};
        assert categories - remaining == done + {category};
        if category !in operationsByCategory {
          assert Unregister(before, id, done + {category}) == Unregister(before, id, done);
          continue;
        }
        var operations := operationsByCategory[category];
        operations := RemoveFrom(operations, id);
        if operations == [] {
          operationsByCategory := operationsByCategory - {category};
        } else {
          operationsByCategory := operationsByCategory[category := operations];
        }
        assert operationsByCategory == Unregister(before, id, done + {category});
      }
      assert categories - remaining == categories;
    }
  }

  lemma LastOperationsGrow(lists: CategoryLists, done: set<string>, c: string)
    ensures LastOperations(lists, done + {c})
         == LastOperations(lists, done)
          + if ListOf(lists, c) == [] then {} else {ListOf(lists, c)[|ListOf(lists, c)| - 1]}
  {
  }

  /** Finds the first position of `id` and removes it. */
  method RemoveFrom(operations: seq<Id>, id: Id) returns (rest: seq<Id>)
    ensures rest == RemoveFirst(operations, id)
  {
    var i := 0;
    while i < |operations| && operations[i] != id
      invariant 0 <= i <= |operations|
      invariant forall m :: 0 <= m < i ==> operations[m] != id
    {
      i := i + 1;
    }
    ghost var k := RemoveFirstCuts(operations, id);
    if i < |operations| {
      assert forall m :: 0 <= m < k ==> operations[m] == operations[..k][m];
      assert k == i;
      rest := operations[..i] + operations[i + 1..];
    } else {
      rest := operations;
    }
  }

  /** The names of the mutually exclusive conditions. */
  method CategoriesOf(conditions: seq<Condition>) returns (categories: set<string>)
    ensures categories == set c | c in conditions && c.MutuallyExclusive? :: c.category
  {
    categories := {};
    for i := 0 to |conditions|
      invariant categories == set c | c in conditions[..i] && c.MutuallyExclusive? :: c.category
    {
      assert conditions[..i + 1] == conditions[..i] + [conditions[i]];
      if conditions[i].MutuallyExclusive? {
        categories := categories + {conditions[i].category};
      }
    }
    assert conditions[..|conditions|] == conditions;
  }

  class AsyncOperationQueue {
    const manager: ExclusivityManager

    constructor (manager: ExclusivityManager)
      ensures this.manager == manager
    {
      this.manager := manager;
    }

    /** `ticket` is the place in enqueue order. Nothing comes between the three parts here. */
    method AddOperation(operation: AsyncOperation, id: Id, ghost ticket: nat)
      requires operation.Valid() && operation.ticket < 0
      modifies manager, operation
      ensures operation.Valid()
      ensures
        var before := old(manager.operationsByCategory);
        var categories := Categories(old(operation.Value()));
        && manager.operationsByCategory == Register(before, id, categories)
        && operation.Value() == EnqueuedWith(old(operation.Value()), ticket, LastOperations(before, categories))
      ensures forall c :: MutuallyExclusive(c) in operation.conditions ==>
                c in manager.operationsByCategory && id in manager.operationsByCategory[c]
    {
      ghost var o := operation.Value();
      var categories := CategoriesOf(operation.conditions);
      assert categories == Categories(o);
      ghost var predecessors := LastOperations(manager.operationsByCategory, categories);
      ApplyKeepsWf(o, Enqueue(ticket, predecessors));
      ApplyKeepsWf(Apply(o, Enqueue(ticket, predecessors)), Submit);
      if categories != {} {
        manager.AddOperation(operation, id, categories);
      } else {
        assert Register(manager.operationsByCategory, id, {}) == manager.operationsByCategory;
        assert operation.dependencies + {} == operation.dependencies;
      }
      operation.ticket := ticket;
      operation.submitted := true;
      operation.DidEnqueue();
      forall c | MutuallyExclusive(c) in operation.conditions
        ensures c in manager.operationsByCategory && id in manager.operationsByCategory[c]
      {
        CategoriesAre(o, c);
        assert manager.operationsByCategory[c] == ListOf(old(manager.operationsByCategory), c) + [id];
      }
    }
  }

  /** Enqueued behind its predecessors, taken by the queue, and told so. */
  function EnqueuedWith(o: Operation, ticket: nat, predecessors: set<Id>): Operation
    requires o.ticket < 0 && !o.submitted
  {
    DidEnqueue(Apply(Apply(o, Enqueue(ticket, predecessors)), Submit))
  }
}
