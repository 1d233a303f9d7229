/**
 The list of recently used locations: newest first, bounded, without duplicates in a sense
 of its own.
 */
module RecentConnections {
  import opened Common

  type ListId = nat

  datatype Location = Country(country: string) | City(country: string, city: string)
                    | Host(country: string, city: string, host: string)

  datatype CustomListSelection = CustomListSelection(listId: ListId, isList: bool)

  datatype UserSelectedRelays = UserSelectedRelays(locations: seq<Location>, customList: Option<CustomListSelection>)

  /** A relay constraint: anything, or one selection. */
  datatype Recent = Any | Only(selection: UserSelectedRelays)

  // ---------------------------------------------------------------------------
  // Duplicates

  predicate IsWholeList(r: Recent) {
    r.Only? && r.selection.customList.Some? && r.selection.customList.value.isList
  }

  function Locations(r: Recent): Option<seq<Location>> {
    match r
    case Any => None
    case Only(selection) => Some(selection.locations)
  }

  predicate SameList(item: Recent, recent: Recent) {
    && item.Only? && recent.Only?
    && item.selection.customList.Some? && recent.selection.customList.Some?
    && recent.selection.customList.value.listId == item.selection.customList.value.listId
  }

  /** One item of the current list against the new one. */
  predicate Duplicates(item: Recent, recent: Recent) {
    if SameList(item, recent) then
      if IsWholeList(item) && IsWholeList(recent) then true else recent == item
    else if Locations(recent) == Locations(item) then
      !(IsWholeList(item) || IsWholeList(recent))
    else
      false
  }

  predicate IsDuplicate(current: seq<Recent>, recent: Recent) {
    exists i :: 0 <= i < |current| && Duplicates(current[i], recent)
  }

  /** What tells entries apart: the list for a whole list, the locations for everything else. */
  datatype Key = ListKey(id: ListId) | LocationsKey(locations: Option<seq<Location>>)

  function KeyOf(r: Recent): Key {
    if IsWholeList(r) then ListKey(r.selection.customList.value.listId) else LocationsKey(Locations(r))
  }

  /** The many-branched comparison is equality of keys, hence an equivalence. */
  lemma DuplicatesIsSameKey(item: Recent, recent: Recent)
    ensures Duplicates(item, recent) <==> KeyOf(item) == KeyOf(recent)
  {
  }

  lemma DuplicatesIsEquivalence(a: Recent, b: Recent, c: Recent)
    ensures Duplicates(a, a)
    ensures Duplicates(a, b) <==> Duplicates(b, a)
    ensures Duplicates(a, b) && Duplicates(b, c) ==> Duplicates(a, c)
  {
    DuplicatesIsSameKey(a, b);
    DuplicatesIsSameKey(b, a);
    DuplicatesIsSameKey(b, c);
    DuplicatesIsSameKey(a, c);
  }

  ghost predicate HasKey(l: seq<Recent>, k: Key) {
    exists i :: 0 <= i < |l| && KeyOf(l[i]) == k
  }

  lemma IsDuplicateIsHasKey(l: seq<Recent>, r: Recent)
    ensures IsDuplicate(l, r) <==> HasKey(l, KeyOf(r))
  {
    forall i | 0 <= i < |l|
      ensures Duplicates(l[i], r) <==> KeyOf(l[i]) == KeyOf(r)
    {
      DuplicatesIsSameKey(l[i], r);
    }
  }

  ghost predicate DistinctKeys(l: seq<Recent>) {
    forall i, j :: 0 <= i < j < |l| ==> KeyOf(l[i]) != KeyOf(l[j])
  }

  // ---------------------------------------------------------------------------
  // Removing duplicates, keeping first occurrences

  function Append(seen: seq<Recent>, r: Recent): seq<Recent> {
    if IsDuplicate(seen, r) then seen else seen + [r]
  }

  /** `seen` followed by what is new in `l`, in order. */
  function Dedup(seen: seq<Recent>, l: seq<Recent>): seq<Recent>
    decreases |l|
  {
    if l == [] then seen else Dedup(Append(seen, l[0]), l[1..])
  }

  function Prefix(l: seq<Recent>, n: nat): seq<Recent> {
    if |l| <= n then l else l[..n]
  }

  function InsertAtZero(recents: seq<Recent>, recent: Recent, maxLimit: nat): seq<Recent> {
    Prefix(Dedup([recent], recents), maxLimit)
  }

  lemma {:induction false} DedupDistinct(seen: seq<Recent>, l: seq<Recent>)
    requires DistinctKeys(seen)
    ensures DistinctKeys(Dedup(seen, l)) && seen <= Dedup(seen, l)
    decreases |l|
  {
    if l != [] {
      IsDuplicateIsHasKey(seen, l[0]);
      DedupDistinct(Append(seen, l[0]), l[1..]);
    }
  }

  /** Nothing is lost: every key of the input is present afterwards, and no other. */
  lemma {:induction false} DedupKeys(seen: seq<Recent>, l: seq<Recent>, k: Key)
    ensures HasKey(Dedup(seen, l), k) <==> HasKey(seen, k) || HasKey(l, k)
    decreases |l|
  {
    if l != [] {
      var next := Append(seen, l[0]);
      IsDuplicateIsHasKey(seen, l[0]);
      DedupKeys(next, l[1..], k);
      assert HasKey(l, k) <==> KeyOf(l[0]) == k || HasKey(l[1..], k) by {
        HasKeyCons(l, k);
      }
      HasKeyAppend(seen, l[0], k);
    }
  }

  /** Positions in `l`, increasing, each the first in `l` with its key and with a key not in `seen`. */
  ghost predicate Firsts(seen: seq<Recent>, l: seq<Recent>, ps: seq<nat>) {
    && (forall i :: 0 <= i < |ps| ==> ps[i] < |l|)
    && (forall i, j :: 0 <= i < j < |ps| ==> ps[i] < ps[j])
    && (forall i :: 0 <= i < |ps| ==> !HasKey(seen, KeyOf(l[ps[i]])))
    && (forall i, j :: 0 <= i < |ps| && 0 <= j < ps[i] ==> KeyOf(l[j]) != KeyOf(l[ps[i]]))
  }

  function Shifted(ps: seq<nat>): (qs: seq<nat>)
    ensures |qs| == |ps|
  {
    seq(|ps|, i requires 0 <= i < |ps| => ps[i] + 1)
  }

  /** From position `n` on, `out` holds the entries of `l` at the positions `ps`. */
  ghost predicate Picks(out: seq<Recent>, n: nat, l: seq<Recent>, ps: seq<nat>) {
    |out| == n + |ps| && forall i :: 0 <= i < |ps| ==> ps[i] < |l| && out[n + i] == l[ps[i]]
  }

  lemma PicksShift(out: seq<Recent>, n: nat, l: seq<Recent>, qs: seq<nat>)
    requires l != [] && Picks(out, n, l[1..], qs)
    ensures Picks(out, n, l, Shifted(qs))
  {
    forall i | 0 <= i < |qs|
      ensures Shifted(qs)[i] < |l| && out[n + i] == l[Shifted(qs)[i]]
    {
      assert out[n + i] == l[1..][qs[i]];
    }
  }

  lemma PicksZero(out: seq<Recent>, n: nat, l: seq<Recent>, ps: seq<nat>)
    requires l != [] && Picks(out, n + 1, l, ps) && out[n] == l[0]
    ensures Picks(out, n, l, [0] + ps)
  {
    forall i | 0 <= i < |[0] + ps|
      ensures ([0] + ps)[i] < |l| && out[n + i] == l[([0] + ps)[i]]
    {
      assert i > 0 ==> out[n + 1 + (i - 1)] == l[ps[i - 1]];
    }
  }

  /** What follows `seen` are entries of `l` in their order, each the first with its key. */
  lemma {:induction false} DedupKeepsFirsts(seen: seq<Recent>, l: seq<Recent>) returns (ps: seq<nat>)
    ensures Firsts(seen, l, ps)
    ensures seen <= Dedup(seen, l) && Picks(Dedup(seen, l), |seen|, l, ps)
    decreases |l|
  {
    if l == [] {
      ps := [];
    } else {
      var next := Append(seen, l[0]);
      IsDuplicateIsHasKey(seen, l[0]);
      var qs := DedupKeepsFirsts(next, l[1..]);
      ps := Shifted(qs);
      ShiftedFirsts(seen, l, qs);
      PicksShift(Dedup(seen, l), |next|, l, qs);
      if !IsDuplicate(seen, l[0]) {
        ZeroFirst(seen, l, ps);
        PicksZero(Dedup(seen, l), |seen|, l, ps);
        ps := [0] + ps;
      }
    }
  }

  lemma FirstShifts(seen: seq<Recent>, l: seq<Recent>, qs: seq<nat>, i: nat)
    requires l != [] && Firsts(Append(seen, l[0]), l[1..], qs) && i < |qs|
    ensures qs[i] + 1 < |l| && !HasKey(seen, KeyOf(l[qs[i] + 1]))
    ensures forall j :: 0 <= j < qs[i] + 1 ==> KeyOf(l[j]) != KeyOf(l[qs[i] + 1])
  {
    var k := KeyOf(l[1..][qs[i]]);
    assert !HasKey(Append(seen, l[0]), k);
    HasKeyAppend(seen, l[0], k);
    IsDuplicateIsHasKey(seen, l[0]);
    forall j | 0 < j < qs[i] + 1
      ensures KeyOf(l[j]) != k
    {
      assert l[1..][j - 1] == l[j];
    }
  }

  lemma ShiftedFirsts(seen: seq<Recent>, l: seq<Recent>, qs: seq<nat>)
    requires l != [] && Firsts(Append(seen, l[0]), l[1..], qs)
    ensures Firsts(seen, l, Shifted(qs))
  {
    forall i | 0 <= i < |qs|
      ensures qs[i] + 1 < |l| && !HasKey(seen, KeyOf(l[qs[i] + 1]))
      ensures forall j :: 0 <= j < qs[i] + 1 ==> KeyOf(l[j]) != KeyOf(l[qs[i] + 1])
    {
      FirstShifts(seen, l, qs, i);
    }
  }

  lemma ZeroFirst(seen: seq<Recent>, l: seq<Recent>, ps: seq<nat>)
    requires l != [] && Firsts(seen, l, ps) && !HasKey(seen, KeyOf(l[0])) && forall i :: 0 <= i < |ps| ==> 0 < ps[i]
    ensures Firsts(seen, l, [0] + ps)
  {
  }

  lemma HasKeyCons(l: seq<Recent>, k: Key)
    requires l != []
    ensures HasKey(l, k) <==> KeyOf(l[0]) == k || HasKey(l[1..], k)
  {
    if HasKey(l, k) {
      var i :| 0 <= i < |l| && KeyOf(l[i]) == k;
      assert i == 0 || KeyOf(l[1..][i - 1]) == k;
    }
    if HasKey(l[1..], k) {
      var i :| 0 <= i < |l[1..]| && KeyOf(l[1..][i]) == k;
      assert KeyOf(l[i + 1]) == k;
    }
  }

  lemma HasKeyAppend(l: seq<Recent>, r: Recent, k: Key)
    ensures HasKey(l + [r], k) <==> HasKey(l, k) || KeyOf(r) == k
  {
    assert (l + [r])[|l|] == r;
    if HasKey(l, k) {
      var i :| 0 <= i < |l| && KeyOf(l[i]) == k;
      assert KeyOf((l + [r])[i]) == k;
    }
  }

  /** The entries with another key, in order. */
  function Without(l: seq<Recent>, k: Key): seq<Recent> {
    if l == [] then [] else (if KeyOf(l[0]) == k then [] else [l[0]]) + Without(l[1..], k)
  }

  lemma {:induction false} WithoutConcat(l: seq<Recent>, m: seq<Recent>, k: Key)
    ensures Without(l + m, k) == Without(l, k) + Without(m, k)
  {
    if l == [] {
      assert l + m == m;
    } else {
      assert (l + m)[1..] == l[1..] + m;
      WithoutConcat(l[1..], m, k);
    }
  }

  lemma {:induction false} WithoutKeys(l: seq<Recent>, k: Key, other: Key)
    requires other != k
    ensures HasKey(Without(l, k), other) <==> HasKey(l, other)
  {
    if l != [] {
      WithoutKeys(l[1..], k, other);
      HasKeyCons(l, other);
      if KeyOf(l[0]) != k {
        HasKeyCons(Without(l, k), other);
        assert Without(l, k)[1..] == Without(l[1..], k);
      } else {
        assert Without(l, k) == Without(l[1..], k);
      }
    }
  }

  /** Removing one key from a list of distinct keys removes at most one entry. */
  lemma {:induction false} WithoutLength(l: seq<Recent>, k: Key)
    requires DistinctKeys(l)
    ensures |l| - 1 <= |Without(l, k)| <= |l|
    ensures !HasKey(l, k) ==> Without(l, k) == l
  {
    if l != [] {
      WithoutLength(l[1..], k);
      HasKeyCons(l, k);
      if KeyOf(l[0]) == k {
        assert forall j :: 0 <= j < |l[1..]| ==> l[1..][j] == l[j + 1];
        assert !HasKey(l[1..], k);
      }
    }
  }

  /** Putting `x` in front and removing duplicates commute, up to the entry that `x` replaces. */
  lemma {:induction false} DedupBehind(x: Recent, seen: seq<Recent>, h: seq<Recent>)
    ensures Dedup([x] + Without(seen, KeyOf(x)), h) == [x] + Without(Dedup(seen, h), KeyOf(x))
    decreases |h|
  {
    if h != [] {
      AppendBehind(x, seen, h[0]);
      DedupBehind(x, Append(seen, h[0]), h[1..]);
    }
  }

  lemma AppendBehind(x: Recent, seen: seq<Recent>, r: Recent)
    ensures Append([x] + Without(seen, KeyOf(x)), r) == [x] + Without(Append(seen, r), KeyOf(x))
  {
    var k := KeyOf(x);
    var front := [x] + Without(seen, k);
    IsDuplicateIsHasKey(front, r);
    IsDuplicateIsHasKey(seen, r);
    HasKeyCons(front, KeyOf(r));
    assert front[1..] == Without(seen, k);
    WithoutConcat(seen, [r], k);
    if KeyOf(r) == k {
      assert Without([r], k) == [];
    } else {
      WithoutKeys(seen, k, KeyOf(r));
      assert Without([r], k) == [r];
      assert front + [r] == [x] + (Without(seen, k) + [r]);
    }
  }

  lemma {:induction false} DedupOfDistinct(seen: seq<Recent>, l: seq<Recent>)
    requires DistinctKeys(seen + l)
    ensures Dedup(seen, l) == seen + l
    decreases |l|
  {
    if l != [] {
      IsDuplicateIsHasKey(seen, l[0]);
      assert (seen + l)[|seen|] == l[0];
      assert forall i :: 0 <= i < |seen| ==> (seen + l)[i] == seen[i];
      assert !HasKey(seen, KeyOf(l[0]));
      assert seen + l == (seen + [l[0]]) + l[1..];
      DedupOfDistinct(seen + [l[0]], l[1..]);
    } else {
      assert seen + l == seen;
    }
  }

  /** Inserting into a list without duplicates replaces the entry with the same key. */
  lemma InsertIntoDistinct(l: seq<Recent>, x: Recent)
    requires DistinctKeys(l)
    ensures Dedup([x], l) == [x] + Without(l, KeyOf(x))
  {
    DedupBehind(x, [], l);
    DedupOfDistinct([], l);
    assert [] + l == l && [x] + [] == [x];
  }

  /** Inserting into a whole history is inserting into the history without its duplicates. */
  lemma InsertIntoHistory(h: seq<Recent>, x: Recent)
    ensures Dedup([], [x] + h) == [x] + Without(Dedup([], h), KeyOf(x))
  {
    DedupBehind(x, [], h);
    assert ([x] + h)[1..] == h && [] + [x] == [x] && [x] + [] == [x];
  }

  lemma PrefixOfInsertion(full: seq<Recent>, x: Recent, n: nat)
    requires DistinctKeys(full) && n >= 1
    ensures Prefix([x] + Without(Prefix(full, n), KeyOf(x)), n) == Prefix([x] + Without(full, KeyOf(x)), n)
  {
    if |full| > n {
      var cut, rest := full[..n], full[n..];
      assert full == cut + rest;
      WithoutConcat(cut, rest, KeyOf(x));
      WithoutLength(cut, KeyOf(x));
      var a := [x] + Without(cut, KeyOf(x));
      assert [x] + Without(full, KeyOf(x)) == a + Without(rest, KeyOf(x));
      assert |a| >= n;
      assert (a + Without(rest, KeyOf(x)))[..n] == a[..n];
    }
  }

  /** Truncating before the next insertion loses nothing that the insertion would keep. */
  lemma TruncationIsHarmless(h: seq<Recent>, x: Recent, n: nat)
    requires n >= 1
    ensures InsertAtZero(Prefix(Dedup([], h), n), x, n) == Prefix(Dedup([], [x] + h), n)
  {
    DedupDistinct([], h);
    InsertIntoHistory(h, x);
    InsertIntoDistinct(Prefix(Dedup([], h), n), x);
    PrefixOfInsertion(Dedup([], h), x, n);
  }
}
