/**
 Any number of operations, the queue that starts them and the exclusivity manager that
 chains operations of one category. A run is any interleaving of the critical sections.
 */
module OperationScheduler {
  import opened Common
  import opened OperationLifecycle

  /**
   When the base class calls an operation ready. The source expects the first rule;
   the second lets a cancelled operation overtake its dependencies.
   */
  datatype ReadinessRule = AllDependenciesFinished | CancelledIgnoresDependencies

  type CategoryLists = map<string, seq<Id>>

  /** `executions` lists the operations whose body ran, in the order the bodies started. */
  datatype Scheduler = Scheduler(
    rule: ReadinessRule,
    ops: map<Id, Operation>,
    tickets: nat,
    lists: CategoryLists,
    executions: seq<Id>)

  // ---------------------------------------------------------------------------
  // The exclusivity manager

  function ListOf(lists: CategoryLists, c: string): seq<Id> {
    if c in lists then lists[c] else []
  }

  /** Every mutually exclusive condition counts, wherever it stands among the conditions. */
  lemma CategoriesAre(o: Operation, c: string)
    ensures c in Categories(o) <==> MutuallyExclusive(c) in o.conditions
  {
  }

  function LastOperations(lists: CategoryLists, categories: set<string>): set<Id> {
    set c | c in categories && ListOf(lists, c) != [] :: ListOf(lists, c)[|ListOf(lists, c)| - 1]
  }

  function Register(lists: CategoryLists, x: Id, categories: set<string>): CategoryLists {
    map c | c in lists.Keys + categories :: if c in categories then ListOf(lists, c) + [x] else lists[c]
  }

  function RemoveFirst(s: seq<Id>, x: Id): seq<Id> {
    if s == [] then [] else if s[0] == x then s[1..] else [s[0]] + RemoveFirst(s[1..], x)
  }

  function Unregister(lists: CategoryLists, x: Id, categories: set<string>): CategoryLists {
    map c | c in lists.Keys && !(c in categories && RemoveFirst(lists[c], x) == [])
      :: if c in categories then RemoveFirst(lists[c], x) else lists[c]
  }

  // ---------------------------------------------------------------------------
  // Conditions

  predicate DependenciesFinished(s: Scheduler, x: Id)
    requires x in s.ops
  {
    forall d :: d in s.ops[x].dependencies ==> d in s.ops && s.ops[d].phase.Finished?
  }

  predicate DependencyPasses(d: Operation, ignoreCancellations: bool) {
    var isCancellationError := d.error == Some(Cancelled);
    if d.error != None && !isCancellationError then false
    else if (d.cancelled || isCancellationError) && !ignoreCancellations then false
    else true
  }

  /** The answer a condition gives while it is being asked; a block condition answers later. */
  function Verdict(s: Scheduler, x: Id, c: Condition): Option<bool>
    requires x in s.ops
  {
    match c
    case MutuallyExclusive(_) => Some(true)
    case NoFailedDependencies(ignore) =>
      Some(forall d :: d in s.ops[x].dependencies && d in s.ops ==> DependencyPasses(s.ops[d], ignore))
    case NoCancelledDependencies =>
      Some(forall d :: d in s.ops[x].dependencies && d in s.ops ==> !s.ops[d].cancelled)
    case BlockCondition => None
  }

  function Verdicts(s: Scheduler, x: Id): seq<Option<bool>>
    requires x in s.ops
  {
    var cs := s.ops[x].conditions;
    seq(|cs|, i requires 0 <= i < |cs| => Verdict(s, x, cs[i]))
  }

  // ---------------------------------------------------------------------------
  // Steps and runs

  datatype Event = Create(id: Id, conditions: seq<Condition>) | Signalled(id: Id, sig: Signal)

  predicate BaseReady(s: Scheduler, x: Id)
    requires x in s.ops
  {
    DependenciesFinished(s, x) || (s.rule.CancelledIgnoresDependencies? && s.ops[x].cancelled)
  }

  predicate Enabled(s: Scheduler, e: Event) {
    match e
    case Create(id, _) => id !in s.ops
    case Signalled(x, sig) =>
      && x in s.ops
      && Accepts(s.ops[x], sig)
      && match sig {
           case DependencyAdded(d) => d in s.ops && d != x
           case Enqueue(ticket, predecessors) =>
             ticket == s.tickets && predecessors == LastOperations(s.lists, Categories(s.ops[x]))
           case Evaluate(initial) => DependenciesFinished(s, x) && initial == Verdicts(s, x)
           case Reported(i, _) => i < |s.ops[x].conditions| && s.ops[x].conditions[i].BlockCondition?
           case QueueStarts => BaseReady(s, x)
           case _ => true
         }
  }

  function Step(s: Scheduler, e: Event): Scheduler
    requires Enabled(s, e)
  {
    match e
    case Create(id, conditions) => s.(ops := s.ops[id := New(conditions)])
    case Signalled(x, sig) =>
      var o := s.ops[x];
      var next := s.(ops := s.ops[x := Apply(o, sig)]);
      match sig
      case Enqueue(ticket, _) => next.(tickets := s.tickets + 1, lists := Register(s.lists, x, Categories(o)))
      case BlockRuns =>
        if o.dispatch[0].FinishBlock? then
          next.(lists := Unregister(s.lists, x, Categories(o)))
        else if o.dispatch[0].StartBlock? && !o.cancelled then
          next.(executions := s.executions + [x])
        else
          next
      case _ => next
  }

  ghost predicate Runs(s: Scheduler, es: seq<Event>)
    decreases |es|
  {
    es == [] || (Enabled(s, es[0]) && Runs(Step(s, es[0]), es[1..]))
  }

  ghost function After(s: Scheduler, es: seq<Event>): Scheduler
    requires Runs(s, es)
    decreases |es|
  {
    if es == [] then s else After(Step(s, es[0]), es[1..])
  }

  lemma {:induction false} Concat(s: Scheduler, es: seq<Event>, fs: seq<Event>)
    requires Runs(s, es) && Runs(After(s, es), fs)
    ensures Runs(s, es + fs) && After(s, es + fs) == After(After(s, es), fs)
    decreases |es|
  {
    if es == [] {
      assert es + fs == fs;
    } else {
      Concat(Step(s, es[0]), es[1..], fs);
      assert (es + fs)[1..] == es[1..] + fs;
    }
  }

  lemma Extend(s: Scheduler, es: seq<Event>, e: Event)
    requires Runs(s, es) && Enabled(After(s, es), e)
    ensures Runs(s, es + [e]) && After(s, es + [e]) == Step(After(s, es), e)
  {
    var m := After(s, es);
    assert Runs(Step(m, e), []) && Runs(m, [e]);
    Concat(s, es, [e]);
  }

  function Initial(rule: ReadinessRule): Scheduler {
    Scheduler(rule, map[], 0, map[], [])
  }

  // ---------------------------------------------------------------------------
  // Invariants

  ghost predicate OpsOk(s: Scheduler) {
    forall x :: x in s.ops ==> Wf(s.ops[x]) && s.ops[x].ticket < s.tickets
  }

  ghost predicate TicketsDistinct(s: Scheduler) {
    forall x, y :: x in s.ops && y in s.ops && x != y && s.ops[x].ticket >= 0 ==> s.ops[x].ticket != s.ops[y].ticket
  }

  /** Listed operations are enqueued, belong to the category and stand in enqueue order. */
  ghost predicate ListOk(ops: map<Id, Operation>, l: seq<Id>, c: string) {
    && (forall i :: 0 <= i < |l| ==> l[i] in ops && ops[l[i]].ticket >= 0 && c in Categories(ops[l[i]]))
    && (forall i, j :: 0 <= i < j < |l| ==> ops[l[i]].ticket < ops[l[j]].ticket)
  }

  /** An operation is listed in its categories from its enqueueing until its finish block has run. */
  ghost predicate ListsOk(s: Scheduler) {
    && (forall c :: c in s.lists ==> s.lists[c] != [] && ListOk(s.ops, s.lists[c], c))
    && (forall x, c :: x in s.ops && s.ops[x].ticket >= 0 && c in Categories(s.ops[x]) ==>
          (x in ListOf(s.lists, c) <==> !FinishDelivered(s.ops[x])))
  }

  /** Two operations of one category, the first enqueued earlier. */
  ghost predicate Before(s: Scheduler, c: string, x: Id, y: Id) {
    && x in s.ops && y in s.ops
    && c in Categories(s.ops[x]) && c in Categories(s.ops[y])
    && 0 <= s.ops[x].ticket < s.ops[y].ticket
  }

  ghost predicate AtOrBehind(s: Scheduler, c: string, x: Id, z: Id)
    requires x in s.ops
  {
    z in s.ops && c in Categories(s.ops[z]) && s.ops[x].ticket <= s.ops[z].ticket
  }

  /** `y` waits for `x` itself or for a later operation of the category. */
  ghost predicate WaitsBehind(s: Scheduler, c: string, x: Id, y: Id)
    requires x in s.ops && y in s.ops
  {
    exists z :: z in s.ops[y].dependencies && AtOrBehind(s, c, x, z)
  }

  ghost predicate Chained(s: Scheduler) {
    forall c, x, y :: Before(s, c, x, y) ==> s.ops[x].phase.Finished? || WaitsBehind(s, c, x, y)
  }

  ghost predicate ExclusiveStartOk(s: Scheduler) {
    forall x :: x in s.ops && Categories(s.ops[x]) != {} && s.ops[x].started ==> DependenciesFinished(s, x)
  }

  ghost predicate InTurn(s: Scheduler) {
    forall c, x, y :: Before(s, c, x, y) && s.ops[y].started ==> s.ops[x].phase.Finished?
  }

  ghost predicate BaseInv(s: Scheduler) {
    OpsOk(s) && TicketsDistinct(s) && ListsOk(s) && Chained(s)
  }

  // ---------------------------------------------------------------------------
  // Every step changes one operation. The lemmas below speak of two states that
  // differ in one operation, so that each needs only the facts it names.

  ghost predicate Touches(s: Scheduler, t: Scheduler, x: Id) {
    && t.ops.Keys == s.ops.Keys + {x}
    && (forall y :: y in s.ops && y != x ==> t.ops[y] == s.ops[y])
    && (x in s.ops ==> Advances(s.ops[x], t.ops[x]))
  }

  /** A step other than enqueueing. */
  ghost predicate KeepsPlace(s: Scheduler, t: Scheduler, x: Id)
    requires Touches(s, t, x)
  {
    t.ops[x].ticket == if x in s.ops then s.ops[x].ticket else -1
  }

  /** A step other than starting. */
  ghost predicate KeepsStarted(s: Scheduler, t: Scheduler, x: Id)
    requires Touches(s, t, x)
  {
    t.ops[x].started == (x in s.ops && s.ops[x].started)
  }

  /** A step other than running the finish block. */
  ghost predicate KeepsDelivered(s: Scheduler, t: Scheduler, x: Id)
    requires Touches(s, t, x)
  {
    FinishDelivered(t.ops[x]) == (x in s.ops && FinishDelivered(s.ops[x]))
  }

  lemma StepOps(s: Scheduler, e: Event)
    requires Enabled(s, e)
    ensures Step(s, e).ops == s.ops[e.id := if e.Create? then New(e.conditions) else Apply(s.ops[e.id], e.sig)]
    ensures Step(s, e).tickets == if e.Signalled? && e.sig.Enqueue? then s.tickets + 1 else s.tickets
  {
  }

  lemma TicketAfter(o: Operation, sig: Signal)
    requires Accepts(o, sig)
    ensures Apply(o, sig).ticket == if sig.Enqueue? then sig.ticket else o.ticket
  {
  }

  lemma StepTouches(s: Scheduler, e: Event)
    requires OpsOk(s) && Enabled(s, e)
    ensures OpsOk(Step(s, e))
    ensures Touches(s, Step(s, e), e.id)
  {
    var t := Step(s, e);
    StepOps(s, e);
    if e.Signalled? {
      ApplyKeepsWf(s.ops[e.id], e.sig);
      ApplyAdvances(s.ops[e.id], e.sig);
      TicketAfter(s.ops[e.id], e.sig);
    }
    forall x | x in t.ops
      ensures Wf(t.ops[x]) && t.ops[x].ticket < t.tickets
    {
      if x != e.id {
        assert t.ops[x] == s.ops[x];
      }
    }
  }

  lemma StepShape(s: Scheduler, e: Event)
    requires OpsOk(s) && Enabled(s, e)
    requires Touches(s, Step(s, e), e.id)
    ensures !(e.Signalled? && e.sig.Enqueue?) ==> KeepsPlace(s, Step(s, e), e.id) && Step(s, e).tickets == s.tickets
    ensures !(e.Signalled? && e.sig.QueueStarts?) ==> KeepsStarted(s, Step(s, e), e.id)
    ensures !(e.Signalled? && (e.sig.BlockRuns? || e.sig.Enqueue?)) ==> Step(s, e).lists == s.lists
  {
  }

  predicate RunsFinishBlock(o: Operation, sig: Signal)
    requires Accepts(o, sig)
  {
    sig.BlockRuns? && o.dispatch[0].FinishBlock?
  }

  lemma DeliveryStays(o: Operation, sig: Signal)
    requires Wf(o) && Accepts(o, sig)
    ensures FinishDelivered(Apply(o, sig)) == (FinishDelivered(o) || RunsFinishBlock(o, sig))
  {
  }

  lemma TicketsStayDistinct(s: Scheduler, t: Scheduler, x: Id)
    requires OpsOk(s) && TicketsDistinct(s) && Touches(s, t, x)
    requires KeepsPlace(s, t, x) || t.ops[x].ticket == s.tickets
    ensures TicketsDistinct(t)
  {
  }

  lemma ChainsStay(s: Scheduler, t: Scheduler, x: Id)
    requires Chained(s) && Touches(s, t, x) && KeepsPlace(s, t, x)
    ensures Chained(t)
  {
    forall c, a, b | Before(t, c, a, b)
      ensures t.ops[a].phase.Finished? || WaitsBehind(t, c, a, b)
    {
      assert Before(s, c, a, b);
      if !s.ops[a].phase.Finished? {
        var z :| z in s.ops[b].dependencies && AtOrBehind(s, c, a, z);
        assert z in t.ops[b].dependencies && AtOrBehind(t, c, a, z);
      }
    }
  }

  lemma TurnsStay(s: Scheduler, t: Scheduler, x: Id)
    requires InTurn(s) && Touches(s, t, x) && KeepsPlace(s, t, x) && KeepsStarted(s, t, x)
    ensures InTurn(t)
  {
    forall c, a, b | Before(t, c, a, b) && t.ops[b].started
      ensures t.ops[a].phase.Finished?
    {
      assert Before(s, c, a, b);
    }
  }

  lemma StartsStay(s: Scheduler, t: Scheduler, x: Id)
    requires ExclusiveStartOk(s) && Touches(s, t, x) && KeepsStarted(s, t, x)
    ensures ExclusiveStartOk(t)
  {
  }

  /** Listed operations keep their places in a step that does not enqueue. */
  lemma ListStays(s: Scheduler, t: Scheduler, x: Id, l: seq<Id>, c: string)
    requires ListOk(s.ops, l, c) && Touches(s, t, x)
    ensures ListOk(t.ops, l, c)
  {
  }

  lemma StartStartsOk(s: Scheduler, t: Scheduler, x: Id)
    requires ExclusiveStartOk(s) && x in s.ops && Touches(s, t, x) && t.ops[x].dependencies == s.ops[x].dependencies
    requires Categories(s.ops[x]) != {} ==> DependenciesFinished(s, x)
    ensures ExclusiveStartOk(t)
  {
    assert Categories(t.ops[x]) == Categories(s.ops[x]);
  }

  lemma ListsStay(s: Scheduler, t: Scheduler, x: Id)
    requires ListsOk(s) && Touches(s, t, x) && KeepsPlace(s, t, x) && KeepsDelivered(s, t, x) && t.lists == s.lists
    ensures ListsOk(t)
  {
    forall c | c in t.lists
      ensures ListOk(t.ops, t.lists[c], c)
    {
      ListStays(s, t, x, s.lists[c], c);
    }
  }

  // ---------------------------------------------------------------------------
  // Enqueueing, starting and leaving the category lists

  ghost predicate Enqueues(s: Scheduler, t: Scheduler, x: Id) {
    && x in s.ops && Touches(s, t, x) && s.ops[x].ticket < 0
    && t.ops[x].ticket == s.tickets
    && LastOperations(s.lists, Categories(s.ops[x])) <= t.ops[x].dependencies
    && t.lists == Register(s.lists, x, Categories(s.ops[x]))
    && !FinishDelivered(t.ops[x])
  }

  ghost predicate TicketsBounded(s: Scheduler) {
    forall y :: y in s.ops ==> s.ops[y].ticket < s.tickets
  }

  /** The newcomer waits behind whatever is still listed in its category. */
  lemma NewcomerWaits(s: Scheduler, t: Scheduler, x: Id, c: string, a: Id)
    requires ListOk(s.ops, ListOf(s.lists, c), c) && Enqueues(s, t, x)
    requires a in ListOf(s.lists, c) && a in t.ops && t.ops[a].ticket == s.ops[a].ticket
    requires c in Categories(s.ops[x])
    requires x !in ListOf(s.lists, c)
    ensures WaitsBehind(t, c, a, x)
  {
    var l := ListOf(s.lists, c);
    var z := l[|l| - 1];
    assert z in LastOperations(s.lists, Categories(s.ops[x]));
    assert z in t.ops[x].dependencies && s.ops[a].ticket <= s.ops[z].ticket;
    assert t.ops[z] == s.ops[z] && AtOrBehind(t, c, a, z);
  }

  lemma EnqueueChains(s: Scheduler, t: Scheduler, x: Id)
    requires TicketsBounded(s) && ListsOk(s) && Chained(s) && Enqueues(s, t, x)
    ensures Chained(t)
  {
    forall c, a, b | Before(t, c, a, b)
      ensures t.ops[a].phase.Finished? || WaitsBehind(t, c, a, b)
    {
      if b == x {
        if a in ListOf(s.lists, c) {
          NewcomerWaits(s, t, x, c, a);
        }
      } else {
        assert a != x;
        assert Before(s, c, a, b);
        if !s.ops[a].phase.Finished? {
          var z :| z in s.ops[b].dependencies && AtOrBehind(s, c, a, z);
          assert z in t.ops[b].dependencies && AtOrBehind(t, c, a, z);
        }
      }
    }
  }

  lemma EnqueueTurns(s: Scheduler, t: Scheduler, x: Id)
    requires OpsOk(s) && InTurn(s) && Enqueues(s, t, x) && KeepsStarted(s, t, x)
    ensures InTurn(t)
  {
    forall c, a, b | Before(t, c, a, b) && t.ops[b].started
      ensures t.ops[a].phase.Finished?
    {
      assert Wf(s.ops[x]);
      assert Before(s, c, a, b);
    }
  }

  lemma NewcomerListOk(s: Scheduler, t: Scheduler, x: Id, l: seq<Id>, c: string)
    requires TicketsBounded(s) && ListOk(s.ops, l, c) && Enqueues(s, t, x)
    requires c in Categories(s.ops[x])
    ensures ListOk(t.ops, l + [x], c)
  {
    ListStays(s, t, x, l, c);
  }

  lemma EnqueueLists(s: Scheduler, t: Scheduler, x: Id)
    requires TicketsBounded(s) && ListsOk(s) && Enqueues(s, t, x)
    ensures ListsOk(t)
  {
    forall c | c in t.lists
      ensures ListOk(t.ops, t.lists[c], c)
    {
      if c in Categories(s.ops[x]) {
        NewcomerListOk(s, t, x, ListOf(s.lists, c), c);
      } else {
        ListStays(s, t, x, s.lists[c], c);
      }
    }
    forall y, c | y in t.ops && t.ops[y].ticket >= 0 && c in Categories(t.ops[y])
      ensures y in ListOf(t.lists, c) <==> !FinishDelivered(t.ops[y])
    {
      var l, m := ListOf(s.lists, c), ListOf(t.lists, c);
      assert m == if c in Categories(s.ops[x]) then l + [x] else l;
    }
  }

  /** Position `k` is the first that holds `x`, and `m` is `l` without it. */
  ghost predicate CutAt(l: seq<Id>, m: seq<Id>, k: nat, x: Id) {
    k < |l| && l[k] == x && x !in l[..k] && m == l[..k] + l[k + 1..]
  }

  lemma CutBehind(a: Id, rest: seq<Id>, m: seq<Id>, j: nat, x: Id)
    requires a != x && CutAt(rest, m, j, x)
    ensures CutAt([a] + rest, [a] + m, j + 1, x)
  {
    var l := [a] + rest;
    assert l[..j + 1] == [a] + rest[..j];
    assert l[j + 2..] == rest[j + 1..];
  }

  /** Removing the first occurrence drops one position, or nothing. */
  lemma {:induction false} RemoveFirstCuts(l: seq<Id>, x: Id) returns (k: nat)
    ensures k <= |l|
    ensures x !in l ==> RemoveFirst(l, x) == l
    ensures x in l ==> CutAt(l, RemoveFirst(l, x), k, x)
  {
    k := 0;
    if l != [] && l[0] != x {
      var rest := l[1..];
      assert l == [l[0]] + rest;
      var j := RemoveFirstCuts(rest, x);
      if x in rest {
        CutBehind(l[0], rest, RemoveFirst(rest, x), j, x);
        k := j + 1;
      }
    }
  }

  ghost predicate Leaves(s: Scheduler, t: Scheduler, x: Id) {
    && x in s.ops && Touches(s, t, x) && KeepsPlace(s, t, x)
    && FinishDelivered(t.ops[x])
    && t.lists == Unregister(s.lists, x, Categories(s.ops[x]))
  }

  lemma UnregisteredList(lists: CategoryLists, x: Id, categories: set<string>, c: string)
    ensures ListOf(Unregister(lists, x, categories), c)
         == if c in categories then RemoveFirst(ListOf(lists, c), x) else ListOf(lists, c)
  {
  }

  /** Cutting one position out of a list leaves the rest in order. */
  lemma CutKeepsOrder(ops: map<Id, Operation>, l: seq<Id>, m: seq<Id>, c: string, k: nat)
    requires ListOk(ops, l, c) && k < |l| && |m| == |l| - 1
    requires forall i :: 0 <= i < k ==> m[i] == l[i]
    requires forall i :: k <= i < |m| ==> m[i] == l[i + 1]
    ensures ListOk(ops, m, c)
  {
  }

  lemma CutListOk(ops: map<Id, Operation>, l: seq<Id>, c: string, x: Id)
    requires ListOk(ops, l, c)
    ensures ListOk(ops, RemoveFirst(l, x), c)
  {
    var k := RemoveFirstCuts(l, x);
    if x in l {
      CutKeepsOrder(ops, l, RemoveFirst(l, x), c, k);
    }
  }

  lemma LeaveKeepsMember(l: seq<Id>, x: Id, y: Id)
    requires y != x
    ensures y in RemoveFirst(l, x) <==> y in l
  {
    var k := RemoveFirstCuts(l, x);
    if x in l && y in l {
      var j :| 0 <= j < |l| && l[j] == y;
      assert RemoveFirst(l, x)[if j < k then j else j - 1] == y;
    }
  }

  /** An ordered list names an operation once, so removing the first occurrence removes it. */
  lemma LeaverIsGone(ops: map<Id, Operation>, l: seq<Id>, c: string, x: Id)
    requires ListOk(ops, l, c)
    ensures x !in RemoveFirst(l, x)
  {
    var k := RemoveFirstCuts(l, x);
  }

  lemma LeaveLists(s: Scheduler, t: Scheduler, x: Id)
    requires ListsOk(s) && Leaves(s, t, x)
    ensures ListsOk(t)
  {
    forall c | c in t.lists
      ensures ListOk(t.ops, t.lists[c], c)
    {
      ListStays(s, t, x, s.lists[c], c);
      CutListOk(t.ops, s.lists[c], c, x);
    }
    forall y, c | y in t.ops && t.ops[y].ticket >= 0 && c in Categories(t.ops[y])
      ensures y in ListOf(t.lists, c) <==> !FinishDelivered(t.ops[y])
    {
      UnregisteredList(s.lists, x, Categories(s.ops[x]), c);
      if y == x {
        LeaverIsGone(s.ops, ListOf(s.lists, c), c, x);
      } else {
        LeaveKeepsMember(ListOf(s.lists, c), x, y);
      }
    }
  }

  lemma StartInTurn(s: Scheduler, t: Scheduler, x: Id)
    requires OpsOk(s) && TicketsDistinct(s) && Chained(s) && InTurn(s)
    requires x in s.ops && Touches(s, t, x) && KeepsPlace(s, t, x)
    requires Categories(s.ops[x]) != {} ==> DependenciesFinished(s, x)
    ensures InTurn(t)
  {
    forall c, a, b | Before(t, c, a, b) && t.ops[b].started
      ensures t.ops[a].phase.Finished?
    {
      assert Before(s, c, a, b);
      if b == x && WaitsBehind(s, c, a, b) {
        var z :| z in s.ops[b].dependencies && AtOrBehind(s, c, a, z);
        assert s.ops[z].phase.Finished? && Wf(s.ops[z]);
        if z != a {
          assert Before(s, c, a, z);
        }
      }
    }
  }

  // ---------------------------------------------------------------------------
  // Every step keeps the invariants

  lemma StepEnqueues(s: Scheduler, e: Event)
    requires OpsOk(s) && Enabled(s, e) && e.Signalled? && e.sig.Enqueue?
    ensures Enqueues(s, Step(s, e), e.id) && KeepsStarted(s, Step(s, e), e.id)
  {
    StepTouches(s, e);
  }

  lemma BlockListCases(s: Scheduler, e: Event)
    requires OpsOk(s) && Enabled(s, e) && e.Signalled? && e.sig.BlockRuns? && Touches(s, Step(s, e), e.id)
    ensures Leaves(s, Step(s, e), e.id) || (Step(s, e).lists == s.lists && KeepsDelivered(s, Step(s, e), e.id))
  {
    StepShape(s, e);
    assert Wf(s.ops[e.id]);
    DeliveryStays(s.ops[e.id], e.sig);
  }

  lemma OthersKeepDelivered(s: Scheduler, e: Event)
    requires OpsOk(s) && Enabled(s, e) && Touches(s, Step(s, e), e.id) && !(e.Signalled? && e.sig.BlockRuns?)
    ensures KeepsDelivered(s, Step(s, e), e.id)
  {
    StepOps(s, e);
    if e.Signalled? {
      DeliveryStays(s.ops[e.id], e.sig);
    }
  }

  lemma StepKeepsBase(s: Scheduler, e: Event)
    requires BaseInv(s) && Enabled(s, e)
    ensures BaseInv(Step(s, e))
  {
    var t, x := Step(s, e), e.id;
    StepTouches(s, e);
    StepShape(s, e);
    if e.Signalled? && e.sig.Enqueue? {
      StepEnqueues(s, e);
      TicketsStayDistinct(s, t, x);
      EnqueueChains(s, t, x);
      EnqueueLists(s, t, x);
    } else {
      TicketsStayDistinct(s, t, x);
      ChainsStay(s, t, x);
      if e.Signalled? && e.sig.BlockRuns? {
        BlockListCases(s, e);
      } else {
        OthersKeepDelivered(s, e);
      }
      if Leaves(s, t, x) {
        LeaveLists(s, t, x);
      } else {
        ListsStay(s, t, x);
      }
    }
  }

  /** No operation with a category is cancelled while one of its dependencies is unfinished. */
  ghost predicate NoCancelledWaiter(s: Scheduler) {
    forall x :: x in s.ops && Categories(s.ops[x]) != {} && s.ops[x].cancelled && !s.ops[x].started ==>
      DependenciesFinished(s, x)
  }

  ghost predicate Orderly(s: Scheduler) {
    s.rule.AllDependenciesFinished? || NoCancelledWaiter(s)
  }

  ghost predicate TurnInv(s: Scheduler) {
    ExclusiveStartOk(s) && InTurn(s)
  }

  lemma StepKeepsTurns(s: Scheduler, e: Event)
    requires BaseInv(s) && TurnInv(s) && Orderly(s) && Enabled(s, e)
    ensures TurnInv(Step(s, e))
  {
    var t, x := Step(s, e), e.id;
    StepTouches(s, e);
    StepShape(s, e);
    if e.Signalled? && e.sig.QueueStarts? {
      assert Categories(s.ops[x]) != {} ==> DependenciesFinished(s, x);
      assert t.ops[x].dependencies == s.ops[x].dependencies;
      StartInTurn(s, t, x);
      StartStartsOk(s, t, x);
    } else {
      StartsStay(s, t, x);
      if e.Signalled? && e.sig.Enqueue? {
        StepEnqueues(s, e);
        EnqueueTurns(s, t, x);
      } else {
        TurnsStay(s, t, x);
      }
    }
  }
}
