/**
 The repository of recent connections: what its operations leave in the store, over any
 sequence of them.
 */
module RecentConnectionsRepositories {
  import opened Common
  import opened RecentConnections

  datatype Recents = Recents(isEnabled: bool, entryLocations: seq<Recent>, exitLocations: seq<Recent>)

  datatype RepositoryError = RecentsDisabled | StoreFailed

  /** `published` is everything sent to subscribers. */
  datatype Repository = Repository(
    maxLimit: nat,
    store: Option<Recents>,
    published: seq<Result<Recents, RepositoryError>>)

  // ---------------------------------------------------------------------------
  // Deleting a custom list

  /** What becomes of one entry when list `id` is deleted; an unrestricted entry goes as well. */
  function ClearOne(r: Recent, id: ListId): Option<Recent> {
    match r
    case Any => None
    case Only(item) =>
      if item.customList.Some? && item.customList.value.listId == id then
        if item.customList.value.isList then None
        else Some(Only(UserSelectedRelays(item.locations, None)))
      else
        Some(Only(item))
  }

  function Cleared(l: seq<Recent>, id: ListId): seq<Recent> {
    if l == [] then []
    else match ClearOne(l[0], id)
      case None => Cleared(l[1..], id)
      case Some(r) => [r] + Cleared(l[1..], id)
  }

  function UpdatedList(l: seq<Recent>, id: ListId, maxLimit: nat): seq<Recent> {
    Prefix(Dedup([], Prefix(Cleared(l, id), maxLimit)), maxLimit)
  }

  function Keys(l: seq<Recent>): (ks: seq<Key>)
    ensures |ks| == |l|
  {
    seq(|l|, i requires 0 <= i < |l| => KeyOf(l[i]))
  }

  /** The keys that survive the deletion, in order. */
  function SurvivingKeys(ks: seq<Key>, id: ListId): seq<Key> {
    if ks == [] then []
    else (if ks[0] == ListKey(id) || ks[0] == LocationsKey(None) then [] else [ks[0]]) + SurvivingKeys(ks[1..], id)
  }

  ghost predicate RefersTo(r: Recent, id: ListId) {
    r.Only? && r.selection.customList.Some? && r.selection.customList.value.listId == id
  }

  lemma {:induction false} ClearedKeys(l: seq<Recent>, id: ListId)
    ensures Keys(Cleared(l, id)) == SurvivingKeys(Keys(l), id)
    ensures |Cleared(l, id)| <= |l|
    ensures forall i :: 0 <= i < |Cleared(l, id)| ==> Cleared(l, id)[i].Only? && !RefersTo(Cleared(l, id)[i], id)
  {
    if l != [] {
      ClearedKeys(l[1..], id);
      assert Keys(l)[1..] == Keys(l[1..]);
      match ClearOne(l[0], id) {
        case None =>
        case Some(r) =>
          assert KeyOf(r) == KeyOf(l[0]);
          assert Keys([r] + Cleared(l[1..], id)) == [KeyOf(r)] + Keys(Cleared(l[1..], id));
      }
    }
  }

  lemma {:induction false} SurvivingKeysAreSome(ks: seq<Key>, id: ListId, k: Key)
    ensures k in SurvivingKeys(ks, id) ==> k in ks
  {
    if ks != [] {
      SurvivingKeysAreSome(ks[1..], id, k);
    }
  }

  ghost predicate NoRepeats(ks: seq<Key>) {
    forall i, j :: 0 <= i < j < |ks| ==> ks[i] != ks[j]
  }

  lemma {:induction false} SurvivingKeysDistinct(ks: seq<Key>, id: ListId)
    requires NoRepeats(ks)
    ensures NoRepeats(SurvivingKeys(ks, id))
  {
    if ks != [] {
      SurvivingKeysDistinct(ks[1..], id);
      SurvivingKeysAreSome(ks[1..], id, ks[0]);
      assert ks[0] !in ks[1..];
    }
  }

  /** Entry `r` after the deletion of list `id`: as it was, or without its mention of the list. */
  ghost predicate Survives(l: Recent, r: Recent, id: ListId) {
    && l.Only? && r.Only? && r.selection.locations == l.selection.locations
    && (RefersTo(l, id) ==> !l.selection.customList.value.isList && r.selection.customList.None?)
    && (!RefersTo(l, id) ==> r == l)
  }

  /** `ps` are the positions of `l`, in order, that survive as `out`; all other entries go. */
  ghost predicate Survivors(l: seq<Recent>, out: seq<Recent>, id: ListId, ps: seq<nat>) {
    && |ps| == |out|
    && (forall i :: 0 <= i < |ps| ==> ps[i] < |l| && Survives(l[ps[i]], out[i], id))
    && (forall i, j :: 0 <= i < j < |ps| ==> ps[i] < ps[j])
    && (forall p :: 0 <= p < |l| && p !in ps ==> l[p].Any? || (RefersTo(l[p], id) && IsWholeList(l[p])))
  }

  lemma SurvivorsShift(l: seq<Recent>, out: seq<Recent>, id: ListId, qs: seq<nat>)
    requires l != [] && Survivors(l[1..], out, id, qs)
    requires l[0].Any? || (RefersTo(l[0], id) && IsWholeList(l[0]))
    ensures Survivors(l, out, id, Shifted(qs))
  {
    forall p | 0 <= p < |l| && p !in Shifted(qs)
      ensures l[p].Any? || (RefersTo(l[p], id) && IsWholeList(l[p]))
    {
      if p > 0 {
        ShiftedHas(qs, p);
        assert l[1..][p - 1] == l[p];
      }
    }
  }

  lemma ShiftedHas(qs: seq<nat>, p: nat)
    requires p > 0
    ensures p - 1 in qs ==> p in Shifted(qs)
  {
    if p - 1 in qs {
      var i :| 0 <= i < |qs| && qs[i] == p - 1;
      assert Shifted(qs)[i] == p;
    }
  }

  lemma SurvivorsCons(l: seq<Recent>, r: Recent, out: seq<Recent>, id: ListId, qs: seq<nat>)
    requires l != [] && Survivors(l[1..], out, id, qs) && Survives(l[0], r, id)
    ensures Survivors(l, [r] + out, id, [0] + Shifted(qs))
  {
    var ps := [0] + Shifted(qs);
    forall i | 0 <= i < |ps|
      ensures ps[i] < |l| && Survives(l[ps[i]], ([r] + out)[i], id)
    {
      if i > 0 {
        assert ps[i] == qs[i - 1] + 1 && l[1..][qs[i - 1]] == l[ps[i]] && ([r] + out)[i] == out[i - 1];
      }
    }
    forall p | 0 <= p < |l| && p !in ps
      ensures l[p].Any? || (RefersTo(l[p], id) && IsWholeList(l[p]))
    {
      assert p != ps[0] && p !in Shifted(qs);
      ShiftedHas(qs, p);
      assert l[1..][p - 1] == l[p];
    }
  }

  /** Deletion keeps all but unrestricted entries and the whole list itself, and changes only mentions of the list. */
  lemma {:induction false} ClearedSurvivors(l: seq<Recent>, id: ListId) returns (ps: seq<nat>)
    ensures Survivors(l, Cleared(l, id), id, ps)
  {
    if l == [] {
      ps := [];
    } else {
      var qs := ClearedSurvivors(l[1..], id);
      match ClearOne(l[0], id) {
        case None =>
          ps := Shifted(qs);
          SurvivorsShift(l, Cleared(l, id), id, qs);
        case Some(r) =>
          ps := [0] + Shifted(qs);
          SurvivorsCons(l, r, Cleared(l[1..], id), id, qs);
      }
    }
  }

  /**
   On a list of distinct keys within the limit, deletion removes exactly the whole-list entry of `id` and
   unrestricted entries; nothing merges, nothing is truncated, survivors keep their order.
   */
  lemma DeletionIsExact(l: seq<Recent>, id: ListId, maxLimit: nat)
    requires DistinctKeys(l) && |l| <= maxLimit
    ensures UpdatedList(l, id, maxLimit) == Cleared(l, id)
    ensures Keys(UpdatedList(l, id, maxLimit)) == SurvivingKeys(Keys(l), id)
    ensures DistinctKeys(UpdatedList(l, id, maxLimit)) && |UpdatedList(l, id, maxLimit)| <= maxLimit
    ensures forall i :: 0 <= i < |UpdatedList(l, id, maxLimit)| ==> !RefersTo(UpdatedList(l, id, maxLimit)[i], id)
  {
    ClearedIsFine(l, id);
    NothingToDo(Cleared(l, id), maxLimit);
    ClearedKeys(l, id);
  }

  /** Clearing a list of distinct keys leaves distinct keys. */
  lemma ClearedIsFine(l: seq<Recent>, id: ListId)
    requires DistinctKeys(l)
    ensures DistinctKeys(Cleared(l, id)) && |Cleared(l, id)| <= |l|
  {
    ClearedKeys(l, id);
    KeysDistinct(l);
    SurvivingKeysDistinct(Keys(l), id);
    KeysDistinct(Cleared(l, id));
  }

  lemma KeysDistinct(l: seq<Recent>)
    ensures NoRepeats(Keys(l)) <==> DistinctKeys(l)
  {
    assert forall i :: 0 <= i < |l| ==> Keys(l)[i] == KeyOf(l[i]);
  }

  /** On distinct keys within the limit, neither removing duplicates nor truncating changes anything. */
  lemma NothingToDo(c: seq<Recent>, maxLimit: nat)
    requires DistinctKeys(c) && |c| <= maxLimit
    ensures Prefix(Dedup([], Prefix(c, maxLimit)), maxLimit) == c
  {
    assert [] + c == c;
    DedupOfDistinct([], c);
  }

  /**
   Whatever the store held, even a list that no sequence of operations makes: deletion leaves distinct keys within
   the limit and no mention of the list, and loses no key of the first `maxLimit` entries left after clearing.
   */
  lemma DeletionOfAnyList(l: seq<Recent>, id: ListId, maxLimit: nat, k: Key)
    ensures
      var out := UpdatedList(l, id, maxLimit);
      && DistinctKeys(out) && |out| <= maxLimit
      && (forall i :: 0 <= i < |out| ==> out[i].Only? && !RefersTo(out[i], id))
      && (HasKey(out, k) <==> HasKey(Prefix(Cleared(l, id), maxLimit), k))
  {
    var first := Prefix(Cleared(l, id), maxLimit);
    DedupDistinct([], first);
    DedupKeys([], first, k);
    ClearedKeys(l, id);
    var ps := DedupKeepsFirsts([], first);
    FirstsShorter([], first, ps);
    var out := Dedup([], first);
    forall i | 0 <= i < |out|
      ensures out[i].Only? && !RefersTo(out[i], id)
    {
      assert out[i] == first[ps[i]] == Cleared(l, id)[ps[i]];
    }
  }

  /** Increasing positions in a list are no more than its entries. */
  lemma FirstsShorter(seen: seq<Recent>, l: seq<Recent>, ps: seq<nat>)
    requires Firsts(seen, l, ps)
    ensures |ps| <= |l|
  {
    IncreasingBound(ps, |ps|);
  }

  lemma {:induction false} IncreasingBound(ps: seq<nat>, n: nat)
    requires n <= |ps| && forall i, j :: 0 <= i < j < |ps| ==> ps[i] < ps[j]
    ensures n > 0 ==> ps[n - 1] >= n - 1
  {
    if n > 1 {
      IncreasingBound(ps, n - 1);
    }
  }

  /** What survives a deletion survives as it was, in its order, less the mention of the list. */
  lemma DeletionKeepsTheRest(l: seq<Recent>, id: ListId, maxLimit: nat)
    requires DistinctKeys(l) && |l| <= maxLimit
    ensures exists ps :: Survivors(l, UpdatedList(l, id, maxLimit), id, ps)
  {
    DeletionIsExact(l, id, maxLimit);
    var ps := ClearedSurvivors(l, id);
    assert Survivors(l, UpdatedList(l, id, maxLimit), id, ps);
  }

  // ---------------------------------------------------------------------------
  // The operations

  /** `stored` says whether the store accepts the write. */
  function Write(p: Repository, value: Recents, stored: bool): Repository {
    if stored then p.(store := Some(value), published := p.published + [Success(value)])
    else p.(published := p.published + [Failure(StoreFailed)])
  }

  function Disable(p: Repository, stored: bool): Repository {
    Write(p, Recents(false, [], []), stored)
  }

  function Enable(p: Repository, entry: Option<Recent>, exit: Recent, stored: bool): Repository {
    Write(p, Recents(true, if entry.Some? then [entry.value] else [], [exit]), stored)
  }

  function Add(p: Repository, entry: Recent, exit: Recent, stored: bool): Repository {
    if p.store.None? then
      p.(published := p.published + [Failure(StoreFailed)])
    else if !p.store.value.isEnabled then
      p.(published := p.published + [Failure(RecentsDisabled)])
    else
      Write(p, Recents(true,
                       InsertAtZero(p.store.value.entryLocations, entry, p.maxLimit),
                       InsertAtZero(p.store.value.exitLocations, exit, p.maxLimit)), stored)
  }

  function DeleteCustomList(p: Repository, id: ListId, stored: bool): Repository {
    if p.store.None? then
      p.(published := p.published + [Failure(StoreFailed)])
    else
      Write(p, Recents(true,
                       UpdatedList(p.store.value.entryLocations, id, p.maxLimit),
                       UpdatedList(p.store.value.exitLocations, id, p.maxLimit)), stored)
  }

  function Load(p: Repository): Repository {
    p.(published := p.published + [if p.store.Some? then Success(p.store.value) else Failure(StoreFailed)])
  }

  datatype Operation =
    | DoDisable(stored: bool)
    | DoEnable(entry: Option<Recent>, exit: Recent, stored: bool)
    | DoAdd(entryAdded: Recent, exitAdded: Recent, stored: bool)
    | DoDelete(id: ListId, stored: bool)
    | DoLoad

  function Step(p: Repository, op: Operation): Repository {
    match op
    case DoDisable(stored) => Disable(p, stored)
    case DoEnable(entry, exit, stored) => Enable(p, entry, exit, stored)
    case DoAdd(entry, exit, stored) => Add(p, entry, exit, stored)
    case DoDelete(id, stored) => DeleteCustomList(p, id, stored)
    case DoLoad => Load(p)
  }

  function Run(p: Repository, ops: seq<Operation>): Repository
    decreases |ops|
  {
    if ops == [] then p else Run(Step(p, ops[0]), ops[1..])
  }

  ghost predicate ListOk(l: seq<Recent>, maxLimit: nat) {
    DistinctKeys(l) && |l| <= maxLimit
  }

  ghost predicate StoreOk(p: Repository) {
    p.store.Some? ==>
      ListOk(p.store.value.entryLocations, p.maxLimit) && ListOk(p.store.value.exitLocations, p.maxLimit)
  }

  lemma InsertKeeps(l: seq<Recent>, x: Recent, maxLimit: nat)
    ensures ListOk(InsertAtZero(l, x, maxLimit), maxLimit)
  {
    DedupDistinct([x], l);
  }

  lemma StepKeepsStore(p: Repository, op: Operation)
    requires StoreOk(p) && p.maxLimit >= 1
    ensures StoreOk(Step(p, op)) && Step(p, op).maxLimit == p.maxLimit
  {
    if p.store.Some? {
      var s := p.store.value;
      match op {
        case DoAdd(entry, exit, _) =>
          InsertKeeps(s.entryLocations, entry, p.maxLimit);
          InsertKeeps(s.exitLocations, exit, p.maxLimit);
        case DoDelete(id, _) =>
          DeletionIsExact(s.entryLocations, id, p.maxLimit);
          DeletionIsExact(s.exitLocations, id, p.maxLimit);
        case _ =>
      }
    }
  }

  /** Every reachable store has pairwise distinct keys and at most `maxLimit` entries per list. */
  lemma {:induction false} AlwaysDistinctAndBounded(p: Repository, ops: seq<Operation>)
    requires StoreOk(p) && p.maxLimit >= 1
    ensures StoreOk(Run(p, ops)) && Run(p, ops).maxLimit == p.maxLimit
    decreases |ops|
  {
    if ops != [] {
      StepKeepsStore(p, ops[0]);
      AlwaysDistinctAndBounded(Step(p, ops[0]), ops[1..]);
    }
  }

  /** A limit of zero is the one limit that enabling breaks. */
  lemma BoundHoldsExactlyWhen(maxLimit: nat)
    ensures (forall ops :: StoreOk(Run(Repository(maxLimit, None, []), ops))) <==> maxLimit >= 1
  {
    var start := Repository(maxLimit, None, []);
    if maxLimit >= 1 {
      forall ops
        ensures StoreOk(Run(start, ops))
      {
        AlwaysDistinctAndBounded(start, ops);
      }
    } else {
      var enable := DoEnable(None, Any, true);
      assert [enable][1..] == [];
      assert Run(start, [enable]) == Step(start, enable);
      assert !StoreOk(Run(start, [enable]));
    }
  }

  // ---------------------------------------------------------------------------
  // What subscribers are told

  /** An operation fails exactly if the store rejects it, there is nothing to read, or recents are off. */
  predicate Fails(p: Repository, op: Operation) {
    match op
    case DoDisable(stored) => !stored
    case DoEnable(_, _, stored) => !stored
    case DoAdd(_, _, stored) => p.store.None? || !p.store.value.isEnabled || !stored
    case DoDelete(_, stored) => p.store.None? || !stored
    case DoLoad => p.store.None?
  }

  /** The last value published as a success. */
  function LastGood(published: seq<Result<Recents, RepositoryError>>): Option<Recents> {
    if published == [] then None
    else match published[|published| - 1]
      case Success(v) => Some(v)
      case Failure(_) => LastGood(published[..|published| - 1])
  }

  /** Each operation publishes once: the stored value, or an error that leaves the store alone. */
  lemma StepPublishes(p: Repository, op: Operation)
    ensures
      var q := Step(p, op);
      && |q.published| == |p.published| + 1 && p.published == q.published[..|p.published|]
      && (q.published[|p.published|].Failure? <==> Fails(p, op))
      && (Fails(p, op) ==> q.store == p.store)
      && (!Fails(p, op) ==> q.store == Some(q.published[|p.published|].value))
  {
  }

  /** Over any operations the store holds the last value published as a success. */
  lemma {:induction false} StoreIsLastPublished(p: Repository, ops: seq<Operation>)
    requires p.store == LastGood(p.published)
    ensures Run(p, ops).store == LastGood(Run(p, ops).published)
    ensures |Run(p, ops).published| == |p.published| + |ops|
    decreases |ops|
  {
    if ops != [] {
      StepPublishes(p, ops[0]);
      StoreIsLastPublished(Step(p, ops[0]), ops[1..]);
    }
  }

  /** Right after a deletion, in any reachable store, no entry refers to the list and the rest stands in order. */
  lemma DeletionOverRun(maxLimit: nat, ops: seq<Operation>, id: ListId)
    requires maxLimit >= 1 && Run(Repository(maxLimit, None, []), ops).store.Some?
    ensures
      var before := Run(Repository(maxLimit, None, []), ops);
      var after := DeleteCustomList(before, id, true);
      && after.store.Some? && after.store.value.isEnabled
      && Keys(after.store.value.entryLocations) == SurvivingKeys(Keys(before.store.value.entryLocations), id)
      && Keys(after.store.value.exitLocations) == SurvivingKeys(Keys(before.store.value.exitLocations), id)
      && (exists ps :: Survivors(before.store.value.entryLocations, after.store.value.entryLocations, id, ps))
      && (exists ps :: Survivors(before.store.value.exitLocations, after.store.value.exitLocations, id, ps))
      && (forall i :: 0 <= i < |after.store.value.entryLocations| ==>
            !RefersTo(after.store.value.entryLocations[i], id))
      && (forall i :: 0 <= i < |after.store.value.exitLocations| ==> !RefersTo(after.store.value.exitLocations[i], id))
  {
    var start := Repository(maxLimit, None, []);
    AlwaysDistinctAndBounded(start, ops);
    var s := Run(start, ops).store.value;
    DeletionIsExact(s.entryLocations, id, maxLimit);
    DeletionIsExact(s.exitLocations, id, maxLimit);
    DeletionKeepsTheRest(s.entryLocations, id, maxLimit);
    DeletionKeepsTheRest(s.exitLocations, id, maxLimit);
  }

  /** Neither enables recents nor deletes a list with effect. */
  predicate LeavesDisabled(op: Operation) {
    op.DoAdd? || op.DoLoad? || op.DoDisable? || !op.stored
  }

  /** Once disabled, recents stay disabled and empty until an enable or a deletion is stored; additions are refused. */
  lemma {:induction false} DisabledStaysEmpty(p: Repository, ops: seq<Operation>)
    requires forall i :: 0 <= i < |ops| ==> LeavesDisabled(ops[i])
    ensures
      var q := Run(Disable(p, true), ops);
      q.store == Some(Recents(false, [], [])) && |q.published| == |p.published| + 1 + |ops|
    ensures
      var q := Run(Disable(p, true), ops);
      forall entry, exit, stored ::
        var t := Add(q, entry, exit, stored);
        t.store == q.store && t.published == q.published + [Failure(RecentsDisabled)]
  {
    StaysDisabled(Disable(p, true), ops);
  }

  lemma {:induction false} StaysDisabled(p: Repository, ops: seq<Operation>)
    requires p.store == Some(Recents(false, [], [])) && forall i :: 0 <= i < |ops| ==> LeavesDisabled(ops[i])
    ensures Run(p, ops).store == Some(Recents(false, [], [])) && |Run(p, ops).published| == |p.published| + |ops|
    decreases |ops|
  {
    if ops != [] {
      StaysDisabled(Step(p, ops[0]), ops[1..]);
    }
  }

  // ---------------------------------------------------------------------------
  // The bounded list against the whole history

  datatype End = Entry | Exit

  function LocationsOf(v: Recents, end: End): seq<Recent> {
    if end.Entry? then v.entryLocations else v.exitLocations
  }

  /** An addition, or an operation that does not get to change the store. */
  predicate AddsOrKeeps(op: Operation) {
    op.DoAdd? || op.DoLoad? || !op.stored
  }

  /** The history with what the operation adds to it, if its write is stored, newest first. */
  function Recorded(history: seq<Recent>, op: Operation, end: End): seq<Recent> {
    if op.DoAdd? && op.stored then [if end.Entry? then op.entryAdded else op.exitAdded] + history else history
  }

  function History(history: seq<Recent>, ops: seq<Operation>, end: End): seq<Recent>
    decreases |ops|
  {
    if ops == [] then history else History(Recorded(history, ops[0], end), ops[1..], end)
  }

  /** The list holds the newest part of the history, each entry once. */
  ghost predicate Remembers(p: Repository, history: seq<Recent>, end: End) {
    && p.store.Some? && p.store.value.isEnabled
    && LocationsOf(p.store.value, end) == Prefix(Dedup([], history), p.maxLimit)
  }

  lemma StepRemembers(p: Repository, op: Operation, history: seq<Recent>, end: End)
    requires p.maxLimit >= 1 && Remembers(p, history, end) && AddsOrKeeps(op)
    ensures Remembers(Step(p, op), Recorded(history, op, end), end) && Step(p, op).maxLimit == p.maxLimit
  {
    if op.DoAdd? && op.stored {
      TruncationIsHarmless(history, if end.Entry? then op.entryAdded else op.exitAdded, p.maxLimit);
    }
  }

  lemma {:induction false} RunRemembers(p: Repository, ops: seq<Operation>, history: seq<Recent>, end: End)
    requires p.maxLimit >= 1 && Remembers(p, history, end) && forall i :: 0 <= i < |ops| ==> AddsOrKeeps(ops[i])
    ensures Remembers(Run(p, ops), History(history, ops, end), end)
    decreases |ops|
  {
    if ops != [] {
      StepRemembers(p, ops[0], history, end);
      RunRemembers(Step(p, ops[0]), ops[1..], Recorded(history, ops[0], end), end);
    }
  }

  /**
   After enabling and any additions, with loads and failed operations between them, each list is the first
   `maxLimit` entries of its whole stored history, newest first, without duplicates: truncating at every
   step loses nothing.
   */
  lemma ListsAreRecentHistory(p: Repository, entry: Option<Recent>, exit: Recent, ops: seq<Operation>)
    requires p.maxLimit >= 1 && forall i :: 0 <= i < |ops| ==> AddsOrKeeps(ops[i])
    ensures
      var q := Run(Enable(p, entry, exit, true), ops);
      && q.store.Some? && q.store.value.isEnabled
      && q.store.value.exitLocations == Prefix(Dedup([], History([exit], ops, Exit)), p.maxLimit)
      && q.store.value.entryLocations
         == Prefix(Dedup([], History(if entry.Some? then [entry.value] else [], ops, Entry)), p.maxLimit)
  {
    var q := Enable(p, entry, exit, true);
    var first := if entry.Some? then [entry.value] else [];
    DedupOfDistinct([], [exit]);
    DedupOfDistinct([], first);
    assert [] + [exit] == [exit] && [] + first == first;
    RunRemembers(q, ops, [exit], Exit);
    RunRemembers(q, ops, first, Entry);
    LimitStays(q, ops);
  }

  lemma {:induction false} LimitStays(p: Repository, ops: seq<Operation>)
    ensures Run(p, ops).maxLimit == p.maxLimit
    decreases |ops|
  {
    if ops != [] {
      LimitStays(Step(p, ops[0]), ops[1..]);
    }
  }

  // ---------------------------------------------------------------------------
  // The object

  class RecentConnectionsRepository {
    const maxLimit: nat
    var store: Option<Recents>
    var published: seq<Result<Recents, RepositoryError>>

    ghost function Value(): Repository
      reads this
    {
      Repository(maxLimit, store, published)
    }

    constructor (maxLimit: nat, store: Option<Recents>)
      ensures Value() == Repository(maxLimit, store, [])
    {
      this.maxLimit, this.store, published := maxLimit, store, [];
    }

    method WriteAndPublish(value: Recents, stored: bool)
      modifies this`store, this`published
      ensures Value() == Write(old(Value()), value, stored)
    {
      if stored {
        store := Some(value);
        published := published + [Success(value)];
      } else {
        published := published + [Failure(StoreFailed)];
      }
    }

    method DisableRecents(stored: bool)
      modifies this`store, this`published
      ensures Value() == Disable(old(Value()), stored)
    {
      WriteAndPublish(Recents(false, [], []), stored);
    }

    method EnableRecents(entry: Option<Recent>, exit: Recent, stored: bool)
      modifies this`store, this`published
      ensures Value() == Enable(old(Value()), entry, exit, stored)
    {
      WriteAndPublish(Recents(true, if entry.Some? then [entry.value] else [], [exit]), stored);
    }

    method AddRecent(entry: Recent, exit: Recent, stored: bool)
      modifies this`store, this`published
      ensures Value() == Add(old(Value()), entry, exit, stored)
    {
      if store.None? {
        published := published + [Failure(StoreFailed)];
        return;
      }
      if !store.value.isEnabled {
        published := published + [Failure(RecentsDisabled)];
        return;
      }
      var entries := RemoveDuplicates([entry], store.value.entryLocations);
      var exits := RemoveDuplicates([exit], store.value.exitLocations);
      WriteAndPublish(Recents(true, Prefix(entries, maxLimit), Prefix(exits, maxLimit)), stored);
    }

    method DeleteList(id: ListId, stored: bool)
      modifies this`store, this`published
      ensures Value() == DeleteCustomList(old(Value()), id, stored)
    {
      if store.None? {
        published := published + [Failure(StoreFailed)];
        return;
      }
      var entries := ClearCustomList(store.value.entryLocations, id);
      entries := RemoveDuplicates([], Prefix(entries, maxLimit));
      var exits := ClearCustomList(store.value.exitLocations, id);
      exits := RemoveDuplicates([], Prefix(exits, maxLimit));
      WriteAndPublish(Recents(true, Prefix(entries, maxLimit), Prefix(exits, maxLimit)), stored);
    }
  }

  /** The loop shared by insertion and deletion: append what is not yet there. */
  method RemoveDuplicates(start: seq<Recent>, recents: seq<Recent>) returns (result: seq<Recent>)
    ensures result == Dedup(start, recents)
  {
    result := start;
    for i := 0 to |recents|
      invariant Dedup(start, recents) == Dedup(result, recents[i..])
    {
      assert recents[i..][0] == recents[i] && recents[i..][1..] == recents[i + 1..];
      if !IsDuplicate(result, recents[i]) {
        result := result + [recents[i]];
      }
    }
  }

  method ClearCustomList(recents: seq<Recent>, id: ListId) returns (result: seq<Recent>)
    ensures result == Cleared(recents, id)
  {
    result := [];
    for i := 0 to |recents|
      invariant result + Cleared(recents[i..], id) == Cleared(recents, id)
    {
      assert recents[i..][0] == recents[i] && recents[i..][1..] == recents[i + 1..];
      ghost var cleared := ClearOne(recents[i], id);
      ghost var rest := Cleared(recents[i + 1..], id);
      assert Cleared(recents[i..], id) == if cleared.Some? then [cleared.value] + rest else rest;
      assert cleared.Some? ==> result + ([cleared.value] + rest) == (result + [cleared.value]) + rest;
      match recents[i] {
        case Any =>
        case Only(item) =>
          if item.customList.Some? && item.customList.value.listId == id {
            if !item.customList.value.isList {
              result := result + [Only(UserSelectedRelays(item.locations, None))];
            }
          } else {
            result := result + [Only(item)];
          }
      }
    }
  }
}
