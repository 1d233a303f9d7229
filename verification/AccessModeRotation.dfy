/**
 Cyclic search over the API access methods, and what repeated rotation visits.
 */
module AccessModeRotation {
  import opened Common

  type Id = nat

  datatype AccessMethod = Direct | Bridge | EncryptedDnsProxy | DomainFronting | Custom(proxy: string)

  datatype Setting = Setting(id: Id, name: string, enabled: bool, accessMethod: AccessMethod)

  datatype Settings = Settings(
    direct: Setting,
    mullvadBridges: Setting,
    encryptedDnsProxy: Setting,
    domainFronting: Setting,
    custom: seq<Setting>)

  /** Built-in methods first, `direct` in front. */
  function Iter(s: Settings): (l: seq<Setting>)
    ensures l != [] && l[0] == s.direct
  {
    [s.direct, s.mullvadBridges, s.encryptedDnsProxy, s.domainFronting] + s.custom
  }

  // ---------------------------------------------------------------------------
  // Going round

  lemma ModStep(a: nat, n: nat)
    requires n > 0
    ensures (a + 1) % n == if a % n + 1 == n then 0 else a % n + 1
  {
    var q, r := a / n, a % n;
    assert a == q * n + r;
    if r + 1 == n {
      assert a + 1 == (q + 1) * n;
      ModUnique(a + 1, n, q + 1, 0);
    } else {
      ModUnique(a + 1, n, q, r + 1);
    }
  }

  lemma ModUnique(a: nat, n: nat, q: nat, r: nat)
    requires n > 0 && a == q * n + r && r < n
    ensures a % n == r
  {
    var d := a / n - q;
    assert a == (a / n) * n + a % n;
    assert (a / n) * n == q * n + d * n;
    if d >= 1 {
      MulAtLeast(d, n);
    } else if d <= -1 {
      MulAtLeast(-d, n);
    }
  }

  lemma MulAtLeast(d: int, n: nat)
    requires d >= 1
    ensures d * n >= n && -d * n == -(d * n)
  {
  }

  /** The setting at position `p` of the endless cycle. */
  function At(l: seq<Setting>, p: nat): Setting
    requires l != []
  {
    l[p % |l|]
  }

  /** Searches `steps` positions from `p` on, wrapping round. */
  function FindFrom(l: seq<Setting>, p: nat, steps: nat): (r: Option<nat>)
    requires l != []
    ensures r.Some? ==> r.value < |l| && l[r.value].enabled
    decreases steps
  {
    if steps == 0 then None
    else if At(l, p).enabled then Some(p % |l|)
    else FindFrom(l, p + 1, steps - 1)
  }

  function FindNextActive(start: nat, s: Settings): (r: (nat, Setting))
    ensures r.0 < |Iter(s)| && r.1 == Iter(s)[r.0]
  {
    match FindFrom(Iter(s), start, |Iter(s)|)
    case Some(i) => (i, Iter(s)[i])
    case None => (0, s.direct)
  }

  predicate AnyEnabled(l: seq<Setting>) {
    exists i :: 0 <= i < |l| && l[i].enabled
  }

  /** Going round from `start`, position `q` is the first enabled one. */
  ghost predicate FirstEnabledFrom(l: seq<Setting>, start: nat, q: nat)
    requires l != []
  {
    start <= q && At(l, q).enabled && forall p :: start <= p < q ==> !At(l, p).enabled
  }

  /** The search finds the first enabled position within its reach, and nothing only if there is none. */
  lemma {:induction false} FindFromIsFirst(l: seq<Setting>, start: nat, steps: nat) returns (q: nat)
    requires l != []
    ensures FindFrom(l, start, steps).Some? ==>
              q < start + steps && FirstEnabledFrom(l, start, q) && FindFrom(l, start, steps) == Some(q % |l|)
    ensures FindFrom(l, start, steps).None? ==> forall p :: start <= p < start + steps ==> !At(l, p).enabled
    decreases steps
  {
    q := start;
    if steps > 0 && !At(l, start).enabled {
      q := FindFromIsFirst(l, start + 1, steps - 1);
    }
  }

  /** Each setting comes by within any |l| consecutive positions. */
  lemma Covers(l: seq<Setting>, start: nat, i: nat) returns (p: nat)
    requires i < |l|
    ensures start <= p < start + |l| && p % |l| == i
  {
    var n := |l|;
    var r := start % n;
    var base := start - r;
    assert base == (start / n) * n;
    p := if r <= i then base + i else base + n + i;
    if r <= i {
      ModUnique(p, n, start / n, i);
    } else {
      assert (start / n + 1) * n == base + n;
      ModUnique(p, n, start / n + 1, i);
    }
  }

  /** If any method is enabled, the search finds the first enabled one from `start` on. */
  lemma NextActiveIsFirst(start: nat, s: Settings) returns (q: nat)
    requires AnyEnabled(Iter(s))
    ensures FirstEnabledFrom(Iter(s), start, q) && q < start + |Iter(s)|
    ensures FindNextActive(start, s) == (q % |Iter(s)|, At(Iter(s), q))
  {
    var l := Iter(s);
    q := FindFromIsFirst(l, start, |l|);
    var i :| 0 <= i < |l| && l[i].enabled;
    var p := Covers(l, start, i);
    assert At(l, p).enabled;
  }

  /** If none is enabled the choice falls back to the direct method. */
  lemma NoneActiveIsDirect(start: nat, s: Settings)
    requires !AnyEnabled(Iter(s))
    ensures FindNextActive(start, s) == (0, s.direct)
  {
    var q := FindFromIsFirst(Iter(s), start, |Iter(s)|);
  }

  lemma FirstIsUnique(l: seq<Setting>, start: nat, q: nat, r: nat)
    requires l != [] && FirstEnabledFrom(l, start, q) && FirstEnabledFrom(l, start, r)
    ensures q == r
  {
  }

  // ---------------------------------------------------------------------------
  // Rotating again and again

  /** The indices that `m` rotations choose, starting from index `i`. */
  function Rotations(s: Settings, i: nat, m: nat): (v: seq<nat>)
    ensures |v| == m
    decreases m
  {
    if m == 0 then [] else var j := FindNextActive(i + 1, s).0; [j] + Rotations(s, j, m - 1)
  }

  /** The enabled positions after `a` and up to `b`, in order. */
  function Actives(l: seq<Setting>, a: nat, b: nat): seq<nat>
    requires l != [] && a <= b
    decreases b - a
  {
    if a == b then [] else (if At(l, a + 1).enabled then [a + 1] else []) + Actives(l, a + 1, b)
  }

  function Wrapped(v: seq<nat>, n: nat): (w: seq<nat>)
    requires n > 0
    ensures |w| == |v|
  {
    seq(|v|, i requires 0 <= i < |v| => v[i] % n)
  }

  lemma {:induction false} FindFromPeriodic(l: seq<Setting>, p: nat, q: nat, steps: nat)
    requires l != [] && p % |l| == q % |l|
    ensures FindFrom(l, p, steps) == FindFrom(l, q, steps)
    decreases steps
  {
    if steps > 0 {
      ModStep(p, |l|);
      ModStep(q, |l|);
      FindFromPeriodic(l, p + 1, q + 1, steps - 1);
    }
  }

  lemma {:induction false} ActivesSkip(l: seq<Setting>, a: nat, q: nat, b: nat)
    requires l != [] && a < q <= b && FirstEnabledFrom(l, a + 1, q)
    ensures Actives(l, a, b) == [q] + Actives(l, q, b)
    decreases q - a
  {
    if a + 1 < q {
      assert !At(l, a + 1).enabled;
      ActivesSkip(l, a + 1, q, b);
    }
  }

  lemma {:induction false} NoActives(l: seq<Setting>, a: nat, b: nat)
    requires l != [] && a <= b && forall p :: a < p <= b ==> !At(l, p).enabled
    ensures Actives(l, a, b) == []
    decreases b - a
  {
    if a < b {
      NoActives(l, a + 1, b);
    }
  }

  lemma NextFromWrapped(s: Settings, a: nat)
    ensures FindNextActive(a % |Iter(s)| + 1, s) == FindNextActive(a + 1, s)
  {
    var n := |Iter(s)|;
    var r := a % n;
    ModUnique(r, n, 0, r);
    ModStep(a, n);
    ModStep(r, n);
    FindFromPeriodic(Iter(s), r + 1, a + 1, n);
  }

  lemma WrappedCons(q: nat, rest: seq<nat>, n: nat)
    requires n > 0
    ensures Wrapped([q] + rest, n) == [q % n] + Wrapped(rest, n)
  {
  }

  lemma RotationsCons(s: Settings, i: nat, j: nat, m: nat)
    requires FindNextActive(i + 1, s).0 == j
    ensures Rotations(s, i, m + 1) == [j] + Rotations(s, j, m)
  {
  }

  /** Rotation visits the enabled positions one after the other, leaving none out. */
  lemma {:induction false} RotationsFollow(s: Settings, a: nat, b: nat)
    requires AnyEnabled(Iter(s)) && a <= b
    ensures
      var l := Iter(s);
      Rotations(s, a % |l|, |Actives(l, a, b)|) == Wrapped(Actives(l, a, b), |l|)
    decreases b - a
  {
    var l := Iter(s);
    var q := NextActiveIsFirst(a + 1, s);
    if q <= b {
      ActivesSkip(l, a, q, b);
      RotationsFollow(s, q, b);
      NextFromWrapped(s, a);
      RotationsCons(s, a % |l|, q % |l|, |Actives(l, q, b)|);
      WrappedCons(q, Actives(l, q, b), |l|);
    } else {
      NoActives(l, a, b);
    }
  }

  /** `v` lists exactly the enabled positions after `a` and up to `b`, in increasing order. */
  ghost predicate ListsActives(l: seq<Setting>, a: nat, b: nat, v: seq<nat>)
    requires l != []
  {
    && (forall x :: 0 <= x < |v| ==> a < v[x] <= b && At(l, v[x]).enabled)
    && (forall x, y :: 0 <= x < y < |v| ==> v[x] < v[y])
    && (forall p :: a < p <= b && At(l, p).enabled ==> p in v)
  }

  lemma {:induction false} ActivesExact(l: seq<Setting>, a: nat, b: nat)
    requires l != [] && a <= b
    ensures ListsActives(l, a, b, Actives(l, a, b))
    decreases b - a
  {
    if a < b {
      ActivesExact(l, a + 1, b);
      var v, rest := Actives(l, a, b), Actives(l, a + 1, b);
      assert v == rest || v == [a + 1] + rest;
      forall p | a < p <= b && At(l, p).enabled
        ensures p in v
      {
        assert p == a + 1 || p in rest;
      }
    }
  }

  /** How far ahead of `i` index `q` lies when going round, one full turn for `i` itself. */
  function Ahead(i: nat, q: nat, n: nat): int {
    if q > i then q - i else q + n - i
  }

  lemma AheadOfPosition(i: nat, p: nat, n: nat)
    requires i < n && i < p <= i + n
    ensures p % n < n && Ahead(i, p % n, n) == p - i
  {
    if p < n {
      ModUnique(p, n, 0, p);
    } else {
      ModUnique(p, n, 1, p - n);
    }
  }

  function EnabledIndices(l: seq<Setting>): set<nat> {
    set i: nat | i < |l| && l[i].enabled
  }

  function Elements(v: seq<nat>): set<nat> {
    set q | q in v
  }

  lemma {:induction false} DistinctLength(v: seq<nat>)
    requires forall x, y :: 0 <= x < y < |v| ==> v[x] != v[y]
    ensures |Elements(v)| == |v|
  {
    if v != [] {
      var rest := v[1..];
      DistinctLength(rest);
      assert v[0] !in rest;
      assert Elements(v) == {v[0]} + Elements(rest);
    }
  }

  lemma PositionIsIndex(l: seq<Setting>, i: nat, p: nat)
    requires i < |l| && i < p <= i + |l| && At(l, p).enabled
    ensures p % |l| in EnabledIndices(l) && Ahead(i, p % |l|, |l|) == p - i
  {
    AheadOfPosition(i, p, |l|);
  }

  lemma IndexIsListed(l: seq<Setting>, i: nat, q: nat, ps: seq<nat>)
    requires i < |l| && q in EnabledIndices(l) && ListsActives(l, i, i + |l|, ps)
    ensures q in Wrapped(ps, |l|)
  {
    var p := Covers(l, i + 1, q);
    assert At(l, p).enabled && p in ps;
    var x :| 0 <= x < |ps| && ps[x] == p;
    assert Wrapped(ps, |l|)[x] == q;
  }

  /** `v` goes through the enabled indices in cyclic order from `i` and leaves none out. */
  ghost predicate GoesRound(l: seq<Setting>, i: nat, v: seq<nat>) {
    && (forall x :: 0 <= x < |v| ==> v[x] in EnabledIndices(l))
    && (forall x, y :: 0 <= x < y < |v| ==> Ahead(i, v[x], |l|) < Ahead(i, v[y], |l|))
    && (forall q :: q in EnabledIndices(l) ==> q in v)
  }

  /** One turn of positions, wrapped to indices, is each enabled index once, in cyclic order. */
  lemma TurnOfPositions(l: seq<Setting>, i: nat, ps: seq<nat>)
    requires i < |l| && ListsActives(l, i, i + |l|, ps)
    ensures GoesRound(l, i, Wrapped(ps, |l|))
  {
    var v := Wrapped(ps, |l|);
    forall x | 0 <= x < |v|
      ensures v[x] in EnabledIndices(l) && Ahead(i, v[x], |l|) == ps[x] - i
    {
      PositionIsIndex(l, i, ps[x]);
    }
    forall q | q in EnabledIndices(l)
      ensures q in v
    {
      IndexIsListed(l, i, q, ps);
    }
  }

  lemma OneTurn(s: Settings, i: nat) returns (v: seq<nat>)
    requires AnyEnabled(Iter(s)) && i < |Iter(s)|
    ensures v == Rotations(s, i, |v|) && GoesRound(Iter(s), i, v)
  {
    var l := Iter(s);
    var ps := Actives(l, i, i + |l|);
    v := Wrapped(ps, |l|);
    ActivesExact(l, i, i + |l|);
    TurnOfPositions(l, i, ps);
    ModUnique(i, |l|, 0, i);
    RotationsFollow(s, i, i + |l|);
  }

  lemma TurnIsComplete(l: seq<Setting>, i: nat, v: seq<nat>)
    requires GoesRound(l, i, v)
    ensures Elements(v) == EnabledIndices(l) && |v| == |EnabledIndices(l)|
    ensures forall x, y :: 0 <= x < y < |v| ==> v[x] != v[y]
  {
    assert forall x, y :: 0 <= x < y < |v| ==> v[x] != v[y];
    DistinctLength(v);
  }

  /**
   With k enabled methods, any k consecutive rotations visit each enabled method exactly once,
   in cyclic order from where the selector stood.
   */
  lemma FullTurn(s: Settings, i: nat)
    requires AnyEnabled(Iter(s)) && i < |Iter(s)|
    ensures
      var l := Iter(s);
      var v := Rotations(s, i, |EnabledIndices(l)|);
      && Elements(v) == EnabledIndices(l)
      && (forall x, y :: 0 <= x < y < |v| ==> v[x] != v[y])
      && (forall x, y :: 0 <= x < y < |v| ==> Ahead(i, v[x], |l|) < Ahead(i, v[y], |l|))
  {
    var v := OneTurn(s, i);
    TurnIsComplete(Iter(s), i, v);
  }
}
