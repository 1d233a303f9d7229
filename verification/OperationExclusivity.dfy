/**
 Operations of one category never overlap and run in the order they were enqueued.
 */
module OperationExclusivity {
  import opened Common
  import opened OperationLifecycle
  import opened OperationScheduler

  ghost predicate Ordered(s: Scheduler, x: Id, y: Id)
    requires x in s.ops && y in s.ops
  {
    forall c :: c in Categories(s.ops[x]) && c in Categories(s.ops[y]) ==> 0 <= s.ops[x].ticket < s.ops[y].ticket
  }

  /** The bodies that ran, each once, category by category in enqueue order. */
  ghost predicate ExecutionsOk(s: Scheduler) {
    var ran := s.executions;
    && (forall i :: 0 <= i < |ran| ==> ran[i] in s.ops)
    && (forall x :: x in s.ops ==> (s.ops[x].executed <==> x in ran))
    && (forall i, j :: 0 <= i < j < |ran| ==> ran[i] != ran[j] && Ordered(s, ran[i], ran[j]))
  }

  lemma ExecutionsStay(s: Scheduler, t: Scheduler, x: Id)
    requires ExecutionsOk(s) && Touches(s, t, x) && t.executions == s.executions
    requires t.ops[x].executed == (x in s.ops && s.ops[x].executed)
    ensures ExecutionsOk(t)
  {
    var ran := s.executions;
    forall i, j | 0 <= i < j < |ran|
      ensures Ordered(t, ran[i], ran[j])
    {
      assert Ordered(s, ran[i], ran[j]);
      assert Categories(t.ops[ran[i]]) == Categories(s.ops[ran[i]]);
      assert Categories(t.ops[ran[j]]) == Categories(s.ops[ran[j]]);
    }
  }

  /** A body that starts now was enqueued after every body of its category that ran before. */
  lemma ExecutionAppends(s: Scheduler, t: Scheduler, x: Id)
    requires OpsOk(s) && TicketsDistinct(s) && InTurn(s) && ExecutionsOk(s)
    requires x in s.ops && Touches(s, t, x) && KeepsPlace(s, t, x)
    requires !s.ops[x].executed && !s.ops[x].phase.Finished? && s.ops[x].ticket >= 0
    requires t.ops[x].executed && t.executions == s.executions + [x]
    ensures ExecutionsOk(t)
  {
    var ran := t.executions;
    forall i, j | 0 <= i < j < |ran|
      ensures ran[i] != ran[j] && Ordered(t, ran[i], ran[j])
    {
      var y := ran[i];
      assert Wf(s.ops[y]);
      if j == |s.executions| {
        forall c | c in Categories(t.ops[y]) && c in Categories(t.ops[x])
          ensures 0 <= t.ops[y].ticket < t.ops[x].ticket
        {
          assert !Before(s, c, x, y);
        }
      } else {
        assert Ordered(s, y, ran[j]);
      }
    }
    forall y | y in t.ops
      ensures t.ops[y].executed <==> y in ran
    {
      assert y in ran <==> y in s.executions || y == x;
    }
  }

  ghost predicate ExclusionInv(s: Scheduler) {
    BaseInv(s) && TurnInv(s) && ExecutionsOk(s)
  }

  lemma ExecutionShape(s: Scheduler, e: Event)
    requires OpsOk(s) && Enabled(s, e)
    ensures
      var t, x := Step(s, e), e.id;
      || (t.executions == s.executions && t.ops[x].executed == (x in s.ops && s.ops[x].executed))
      || (&& x in s.ops && t.executions == s.executions + [x] && t.ops[x].executed
          && !s.ops[x].executed && !s.ops[x].phase.Finished? && s.ops[x].ticket >= 0 && !e.sig.Enqueue?)
  {
    if e.Signalled? {
      assert Wf(s.ops[e.id]);
    }
  }

  lemma StepKeepsExclusion(s: Scheduler, e: Event)
    requires ExclusionInv(s) && Orderly(s) && Enabled(s, e)
    ensures ExclusionInv(Step(s, e))
  {
    StepKeepsBase(s, e);
    StepKeepsTurns(s, e);
    StepTouches(s, e);
    StepShape(s, e);
    ExecutionShape(s, e);
    if Step(s, e).executions == s.executions {
      ExecutionsStay(s, Step(s, e), e.id);
    } else {
      ExecutionAppends(s, Step(s, e), e.id);
    }
  }

  /** A run in which every state but the last is orderly. */
  ghost predicate OrderlyRun(s: Scheduler, es: seq<Event>)
    decreases |es|
  {
    es == [] || (Orderly(s) && Enabled(s, es[0]) && OrderlyRun(Step(s, es[0]), es[1..]))
  }

  lemma {:induction false} ExclusionOverRun(s: Scheduler, es: seq<Event>)
    requires ExclusionInv(s) && OrderlyRun(s, es)
    ensures Runs(s, es) && ExclusionInv(After(s, es))
    decreases |es|
  {
    if es != [] {
      StepKeepsExclusion(s, es[0]);
      ExclusionOverRun(Step(s, es[0]), es[1..]);
    }
  }

  /** The operation executes and carries a condition of the category. */
  ghost predicate ExecutesIn(s: Scheduler, x: Id, c: string) {
    x in s.ops && s.ops[x].phase.Executing? && MutuallyExclusive(c) in s.ops[x].conditions
  }

  ghost predicate Exclusive(s: Scheduler) {
    forall x, y, c :: ExecutesIn(s, x, c) && ExecutesIn(s, y, c) ==> x == y
  }

  /** Two operations that carry a condition of the same category. */
  ghost predicate Rivals(s: Scheduler, x: Id, y: Id, c: string) {
    && x in s.ops && y in s.ops
    && MutuallyExclusive(c) in s.ops[x].conditions && MutuallyExclusive(c) in s.ops[y].conditions
  }

  /**
   Whatever the interleaving, at most one operation of a category executes at a time, an operation
   that was started found every earlier operation of its categories finished, and bodies run in
   enqueue order.
   */
  lemma MutualExclusion(rule: ReadinessRule, es: seq<Event>)
    requires OrderlyRun(Initial(rule), es)
    ensures Runs(Initial(rule), es)
    ensures
      var s := After(Initial(rule), es);
      && (forall x, y, c :: ExecutesIn(s, x, c) && ExecutesIn(s, y, c) ==> x == y)
      && (forall x, y, c :: Rivals(s, x, y, c) && 0 <= s.ops[x].ticket < s.ops[y].ticket && s.ops[y].started ==>
            s.ops[x].phase.Finished?)
      && (forall i, j, c :: 0 <= i < j < |s.executions| && Rivals(s, s.executions[i], s.executions[j], c) ==>
            0 <= s.ops[s.executions[i]].ticket < s.ops[s.executions[j]].ticket)
      && (forall x :: x in s.executions <==> x in s.ops && s.ops[x].executed)
  {
    ExclusionOverRun(Initial(rule), es);
    var s := After(Initial(rule), es);
    forall x, y, c | ExecutesIn(s, x, c) && ExecutesIn(s, y, c)
      ensures x == y
    {
      assert Wf(s.ops[x]) && Wf(s.ops[y]);
      RivalsAreOrdered(s, x, y, c);
      RivalsAreOrdered(s, y, x, c);
    }
    forall x, y, c | Rivals(s, x, y, c) && 0 <= s.ops[x].ticket < s.ops[y].ticket && s.ops[y].started
      ensures s.ops[x].phase.Finished?
    {
      RivalsAreOrdered(s, x, y, c);
    }
    forall i, j, c | 0 <= i < j < |s.executions| && Rivals(s, s.executions[i], s.executions[j], c)
      ensures 0 <= s.ops[s.executions[i]].ticket < s.ops[s.executions[j]].ticket
    {
      var x, y := s.executions[i], s.executions[j];
      CategoriesAre(s.ops[x], c);
      CategoriesAre(s.ops[y], c);
      assert Ordered(s, x, y);
    }
  }

  lemma RivalsAreOrdered(s: Scheduler, x: Id, y: Id, c: string)
    requires InTurn(s) && Rivals(s, x, y, c)
    ensures 0 <= s.ops[x].ticket < s.ops[y].ticket && s.ops[y].started ==> s.ops[x].phase.Finished?
  {
    CategoriesAre(s.ops[x], c);
    CategoriesAre(s.ops[y], c);
    if 0 <= s.ops[x].ticket < s.ops[y].ticket {
      assert Before(s, c, x, y);
    }
  }

  lemma {:induction false} BaseOverRun(s: Scheduler, es: seq<Event>)
    requires BaseInv(s) && Runs(s, es)
    ensures BaseInv(After(s, es))
    decreases |es|
  {
    if es != [] {
      StepKeepsBase(s, es[0]);
      BaseOverRun(Step(s, es[0]), es[1..]);
    }
  }

  /**
   In every run, orderly or not, the manager lists an enqueued operation under a category exactly if it
   carries a condition of that category and its finish block has not run yet.
   */
  lemma ListedExactly(rule: ReadinessRule, es: seq<Event>, x: Id, c: string)
    requires Runs(Initial(rule), es)
    requires x in After(Initial(rule), es).ops && After(Initial(rule), es).ops[x].ticket >= 0
    ensures
      var s := After(Initial(rule), es);
      var o := s.ops[x];
      (c in s.lists && x in s.lists[c])
      <==> MutuallyExclusive(c) in o.conditions && !(o.phase.Finished? && FinishBlock !in o.dispatch)
  {
    BaseOverRun(Initial(rule), es);
    var s := After(Initial(rule), es);
    CategoriesAre(s.ops[x], c);
    assert x in ListOf(s.lists, c) <==> c in s.lists && x in s.lists[c];
    if c in s.lists && x in s.lists[c] {
      var i :| 0 <= i < |s.lists[c]| && s.lists[c][i] == x;
      assert ListOk(s.ops, s.lists[c], c);
    }
  }

  lemma {:induction false} RuleStays(s: Scheduler, es: seq<Event>)
    requires s.rule.AllDependenciesFinished? && Runs(s, es)
    ensures OrderlyRun(s, es)
    decreases |es|
  {
    if es != [] {
      RuleStays(Step(s, es[0]), es[1..]);
    }
  }

  // ---------------------------------------------------------------------------
  // A cancelled waiting operation lets its successor overtake

  const CATEGORY := "tunnel"

  /** An operation of the one category, at the moments the overtaking run passes through. */
  function Fresh(ticket: int, dependencies: set<Id>, submitted: bool): Operation {
    New([MutuallyExclusive(CATEGORY)]).(ticket := ticket, dependencies := dependencies, submitted := submitted)
  }

  function Running(ticket: int, dependencies: set<Id>): Operation {
    Fresh(ticket, dependencies, true).(phase := Executing, verdicts := [Some(true)], started := true, executed := true)
  }

  function Gone(ticket: int, dependencies: set<Id>): Operation {
    Fresh(ticket, dependencies, true).(phase := Finished, cancelled := true, error := Some(Cancelled), started := true,
                                       cancelNotified := true, dispatch := [FinishBlock])
  }

  /** One step of `x`, described against a state `b` that differs only in `x`. */
  lemma Act(s: Scheduler, es: seq<Event>, b: Scheduler, x: Id, o: Operation, sig: Signal) returns (run: seq<Event>)
    requires Runs(s, es) && After(s, es) == b.(ops := b.ops[x := o])
    requires Enabled(After(s, es), Signalled(x, sig))
    requires !sig.Enqueue? && !sig.BlockRuns?
    ensures Runs(s, run) && After(s, run) == b.(ops := b.ops[x := Apply(o, sig)])
  {
    Extend(s, es, Signalled(x, sig));
    run := es + [Signalled(x, sig)];
    assert b.ops[x := o][x := Apply(o, sig)] == b.ops[x := Apply(o, sig)];
  }

  /** Creating, enqueueing and submitting the next operation of the category. */
  lemma Arrive(s: Scheduler, es: seq<Event>, x: Id) returns (run: seq<Event>)
    requires Runs(s, es)
    requires
      var m := After(s, es);
      x !in m.ops && m.tickets == x && ListOf(m.lists, CATEGORY) == seq(x, i => i)
    ensures Runs(s, run)
    ensures
      var m, n := After(s, es), After(s, run);
      n == m.(ops := m.ops[x := Fresh(x, if x == 0 then {} else {x - 1}, true)],
              tickets := x + 1,
              lists := m.lists[CATEGORY := seq(x + 1, i => i)])
  {
    var m := After(s, es);
    var last := if x == 0 then {} else {x - 1};
    var created := Create(x, [MutuallyExclusive(CATEGORY)]);
    Extend(s, es, created);
    var r1 := es + [created];
    EnqueueStep(Step(m, created), m, x, last);
    Extend(s, r1, Signalled(x, Enqueue(x, last)));
    var b := m.(tickets := x + 1, lists := m.lists[CATEGORY := seq(x + 1, i => i)]);
    run := Act(s, r1 + [Signalled(x, Enqueue(x, last))], b, x, Fresh(x, last, false), Submit);
  }

  lemma EnqueueStep(n: Scheduler, m: Scheduler, x: Id, last: set<Id>)
    requires n == m.(ops := m.ops[x := New([MutuallyExclusive(CATEGORY)])])
    requires m.tickets == x && ListOf(m.lists, CATEGORY) == seq(x, i => i)
    requires last == if x == 0 then {} else {x - 1}
    ensures
      var e := Signalled(x, Enqueue(x, last));
      && Enabled(n, e)
      && Step(n, e) == m.(ops := m.ops[x := Fresh(x, last, false)], tickets := x + 1,
                          lists := m.lists[CATEGORY := seq(x + 1, i => i)])
  {
    assert Categories(n.ops[x]) == {CATEGORY} by {
      assert n.ops[x].conditions[0] == MutuallyExclusive(CATEGORY);
    }
    assert LastOperations(n.lists, {CATEGORY}) == last;
    assert {} + last == last;
    assert seq(x + 1, i => i) == seq(x, i => i) + [x];
    assert Register(n.lists, x, {CATEGORY}) == m.lists[CATEGORY := seq(x + 1, i => i)];
    assert n.ops[x := Fresh(x, last, false)] == m.ops[x := Fresh(x, last, false)];
  }

  lemma LaunchedRuns(x: Id, dependencies: set<Id>)
    ensures RunBlock(Start(Prepared(x, dependencies))) == Running(x, dependencies)
  {
    assert Tell([], DidStart) == [];
  }

  lemma OvertakerGoes(x: Id, dependencies: set<Id>)
    ensures FinishCancelled(RunBlock(Start(Cancel(Fresh(x, dependencies, true))))) == Gone(x, dependencies)
  {
    assert Tell([], DidCancel) == [];
  }

  /** Running the head of the dispatch queue when it is `_start`. */
  lemma ActStart(s: Scheduler, es: seq<Event>, b: Scheduler, x: Id, o: Operation) returns (run: seq<Event>)
    requires Runs(s, es) && After(s, es) == b.(ops := b.ops[x := o]) && o.dispatch == [StartBlock]
    ensures Runs(s, run)
    ensures After(s, run) == b.(ops := b.ops[x := RunBlock(o)],
                                executions := if o.cancelled then b.executions else b.executions + [x])
  {
    Extend(s, es, Signalled(x, BlockRuns));
    run := es + [Signalled(x, BlockRuns)];
    assert b.ops[x := o][x := RunBlock(o)] == b.ops[x := RunBlock(o)];
  }

  function Prepared(ticket: int, dependencies: set<Id>): Operation {
    Fresh(ticket, dependencies, true).(phase := Ready, verdicts := [Some(true)])
  }

  /** An operation whose dependencies are finished has its condition answered and becomes ready. */
  lemma Prepare(s: Scheduler, es: seq<Event>, x: Id, dependencies: set<Id>) returns (run: seq<Event>)
    requires Runs(s, es)
    requires
      var m := After(s, es);
      x in m.ops && m.ops[x] == Fresh(x, dependencies, true) && DependenciesFinished(m, x)
    ensures Runs(s, run)
    ensures After(s, run) == After(s, es).(ops := After(s, es).ops[x := Prepared(x, dependencies)])
  {
    var m := After(s, es);
    var o := m.ops[x];
    assert m.ops[x := o] == m.ops;
    run := Act(s, es, m, x, o, Enqueued);
    assert Verdicts(After(s, run), x) == [Some(true)];
    o := DidEnqueue(o);
    run := Act(s, run, m, x, o, Evaluate([Some(true)]));
    o := BeginEvaluation(o, [Some(true)]);
    run := Act(s, run, m, x, o, Evaluated);
    assert DidEvaluate(o) == Prepared(x, dependencies);
  }

  /** It then goes all the way to its body. */
  lemma Launch(s: Scheduler, es: seq<Event>, x: Id, dependencies: set<Id>) returns (run: seq<Event>)
    requires Runs(s, es)
    requires
      var m := After(s, es);
      x in m.ops && m.ops[x] == Fresh(x, dependencies, true) && DependenciesFinished(m, x)
    ensures Runs(s, run)
    ensures
      var m, n := After(s, es), After(s, run);
      n == m.(ops := m.ops[x := Running(x, dependencies)], executions := m.executions + [x])
  {
    var m, o := After(s, es), Prepared(x, dependencies);
    run := Prepare(s, es, x, dependencies);
    assert DependenciesFinished(After(s, run), x);
    run := Act(s, run, m, x, o, QueueStarts);
    run := ActStart(s, run, m, x, Start(o));
    LaunchedRuns(x, dependencies);
  }

  /** A cancelled operation is started past its unfinished dependencies and finishes. */
  lemma Overtake(s: Scheduler, es: seq<Event>, x: Id, dependencies: set<Id>) returns (run: seq<Event>)
    requires Runs(s, es)
    requires
      var m := After(s, es);
      x in m.ops && m.ops[x] == Fresh(x, dependencies, true) && m.rule == CancelledIgnoresDependencies
    ensures Runs(s, run)
    ensures
      var m, n := After(s, es), After(s, run);
      n == m.(ops := m.ops[x := Gone(x, dependencies)])
  {
    var m := After(s, es);
    var o := m.ops[x];
    assert m.ops[x := o] == m.ops;
    run := Act(s, es, m, x, o, CancelRequested);
    o := Cancel(o);
    run := Act(s, run, m, x, o, QueueStarts);
    o := Start(o);
    run := ActStart(s, run, m, x, o);
    o := RunBlock(o);
    run := Act(s, run, m, x, o, CancelledFinishes);
    OvertakerGoes(x, dependencies);
  }

  /** The first runs; the second is cancelled while it waits; the third then runs beside the first. */
  lemma OvertakingRun() returns (es: seq<Event>)
    ensures Runs(Initial(CancelledIgnoresDependencies), es)
    ensures !Exclusive(After(Initial(CancelledIgnoresDependencies), es))
  {
    var s := Initial(CancelledIgnoresDependencies);
    es := Arrive(s, [], 0);
    es := Launch(s, es, 0, {});
    es := Arrive(s, es, 1);
    es := Overtake(s, es, 1, {0});
    es := Arrive(s, es, 2);
    es := Launch(s, es, 2, {1});
    var t := After(s, es);
    assert MutuallyExclusive(CATEGORY) in t.ops[0].conditions && MutuallyExclusive(CATEGORY) in t.ops[2].conditions;
    assert ExecutesIn(t, 0, CATEGORY) && ExecutesIn(t, 2, CATEGORY);
  }

  /** Exclusion holds over all runs exactly under the readiness rule the source relies on. */
  lemma ExclusionExactlyUnderRule(rule: ReadinessRule)
    ensures (forall es :: Runs(Initial(rule), es) ==> Exclusive(After(Initial(rule), es)))
       <==> rule == AllDependenciesFinished
  {
    if rule == AllDependenciesFinished {
      forall es | Runs(Initial(rule), es)
        ensures Exclusive(After(Initial(rule), es))
      {
        RuleStays(Initial(rule), es);
        MutualExclusion(rule, es);
      }
    } else {
      var es := OvertakingRun();
    }
  }
}
