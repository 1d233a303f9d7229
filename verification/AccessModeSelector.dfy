/**
 The actor that decides how the API is reached: which access method is current, what the
 provider of connection modes has been told, and how changed settings are taken up.
 */
module AccessModeSelectors {
  import opened Common
  import opened AccessModeRotation

  datatype Mode = DirectMode | Proxied(config: string)

  type Endpoint = string

  datatype Resolved = Resolved(connectionMode: Mode, endpoint: Endpoint, setting: Setting)

  /** What the resolver answers for the one method a command asks about. */
  datatype Resolution = Resolution(found: Option<(Endpoint, Mode)>, fallback: Endpoint)

  /** `sent` are the modes sent to the provider after its initial one. */
  datatype Selector = Selector(
    settings: Settings,
    index: nat,
    current: Resolved,
    initial: Mode,
    sent: seq<Mode>)

  function ResolveWithDefault(setting: Setting, r: Resolution): Resolved {
    match r.found
    case Some((endpoint, mode)) => Resolved(mode, endpoint, setting)
    case None => Resolved(DirectMode, r.fallback, setting)
  }

  function Spawn(settings: Settings, r: Resolution): Selector {
    var (index, next) := FindNextActive(0, settings);
    var first := ResolveWithDefault(next, r);
    Selector(settings, index, first, first.connectionMode, [])
  }

  /** The first position with the id. */
  function FindId(l: seq<Setting>, id: Id): (r: Option<nat>)
    ensures r.Some? ==> r.value < |l| && l[r.value].id == id && forall j :: 0 <= j < r.value ==> l[j].id != id
    ensures r.None? ==> forall j :: 0 <= j < |l| ==> l[j].id != id
  {
    if l == [] then None
    else if l[0].id == id then Some(0)
    else match FindId(l[1..], id)
      case Some(i) => Some(i + 1)
      case None => None
  }

  function SetCurrent(s: Selector, setting: Setting, r: Resolution): Selector {
    var resolved := ResolveWithDefault(setting, r);
    s.(current := resolved, sent := s.sent + [resolved.connectionMode])
  }

  function UseMethod(s: Selector, id: Id, r: Resolution): Selector {
    match FindId(Iter(s.settings), id)
    case Some(i) => SetCurrent(s.(index := i), Iter(s.settings)[i], r)
    case None => s
  }

  function NextMode(s: Selector, r: Resolution): Selector {
    var (i, next) := FindNextActive(s.index + 1, s.settings);
    SetCurrent(s.(index := i), next, r)
  }

  function Update(s: Selector, settings: Settings, r: Resolution): Selector {
    var t := s.(settings := settings);
    match FindId(Iter(settings), s.current.setting.id)
    case Some(i) =>
      var found := Iter(settings)[i];
      if s.current.setting == found then t.(index := i)
      else if found.enabled then SetCurrent(t.(index := i), found, r)
      else NextMode(t.(index := i), r)
    case None =>
      NextMode(t.(index := if s.index == 0 then 0 else s.index - 1), r)
  }

  datatype Command =
    | Get
    | Use(id: Id, resolution: Resolution)
    | Rotate(resolution: Resolution)
    | UpdateSettings(settings: Settings, resolution: Resolution)
    | Resolve(setting: Setting, resolution: Resolution)

  function Step(s: Selector, c: Command): Selector {
    match c
    case Get => s
    case Use(id, r) => UseMethod(s, id, r)
    case Rotate(r) => NextMode(s, r)
    case UpdateSettings(settings, r) => Update(s, settings, r)
    case Resolve(_, _) => s
  }

  function Run(s: Selector, cs: seq<Command>): Selector
    decreases |cs|
  {
    if cs == [] then s else Run(Step(s, cs[0]), cs[1..])
  }

  /** What the provider believes, having read everything sent to it. */
  function ProviderView(s: Selector): Mode {
    if s.sent == [] then s.initial else s.sent[|s.sent| - 1]
  }

  predicate Consistent(s: Selector) {
    && s.index < |Iter(s.settings)|
    && Iter(s.settings)[s.index] == s.current.setting
    && ProviderView(s) == s.current.connectionMode
  }

  lemma SetCurrentConsistent(s: Selector, setting: Setting, r: Resolution)
    requires s.index < |Iter(s.settings)| && Iter(s.settings)[s.index] == setting
    ensures Consistent(SetCurrent(s, setting, r))
  {
  }

  lemma NextModeConsistent(s: Selector, r: Resolution)
    ensures Consistent(NextMode(s, r))
  {
    var (i, next) := FindNextActive(s.index + 1, s.settings);
    SetCurrentConsistent(s.(index := i), next, r);
  }

  lemma UpdateConsistent(s: Selector, settings: Settings, r: Resolution)
    requires Consistent(s)
    ensures Consistent(Update(s, settings, r))
  {
    var t := s.(settings := settings);
    match FindId(Iter(settings), s.current.setting.id) {
      case Some(i) =>
        if s.current.setting != Iter(settings)[i] {
          if Iter(settings)[i].enabled {
            SetCurrentConsistent(t.(index := i), Iter(settings)[i], r);
          } else {
            NextModeConsistent(t.(index := i), r);
          }
        }
      case None =>
        NextModeConsistent(t.(index := if s.index == 0 then 0 else s.index - 1), r);
    }
  }

  lemma StepKeepsConsistent(s: Selector, c: Command)
    requires Consistent(s)
    ensures Consistent(Step(s, c))
  {
    match c {
      case Use(id, r) =>
        var found := FindId(Iter(s.settings), id);
        if found.Some? {
          SetCurrentConsistent(s.(index := found.value), Iter(s.settings)[found.value], r);
        }
      case Rotate(r) => NextModeConsistent(s, r);
      case UpdateSettings(settings, r) => UpdateConsistent(s, settings, r);
      case _ =>
    }
  }

  lemma {:induction false} RunKeepsConsistent(s: Selector, cs: seq<Command>)
    requires Consistent(s)
    ensures Consistent(Run(s, cs))
    decreases |cs|
  {
    if cs != [] {
      StepKeepsConsistent(s, cs[0]);
      RunKeepsConsistent(Step(s, cs[0]), cs[1..]);
    }
  }

  /** After any commands the index points at the current setting and the provider knows the current mode. */
  lemma AlwaysConsistent(settings: Settings, r: Resolution, cs: seq<Command>)
    ensures
      var s := Run(Spawn(settings, r), cs);
      && s.index < |Iter(s.settings)| && Iter(s.settings)[s.index] == s.current.setting
      && ProviderView(s) == s.current.connectionMode
  {
    RunKeepsConsistent(Spawn(settings, r), cs);
  }

  // ---------------------------------------------------------------------------
  // Where the current mode and endpoint come from

  /** The selector uses what the resolver found, or goes directly to the default endpoint if it found nothing. */
  ghost predicate Uses(s: Selector, r: Resolution) {
    && (r.found.Some? ==> (s.current.endpoint, s.current.connectionMode) == r.found.value)
    && (r.found.None? ==> s.current.endpoint == r.fallback && s.current.connectionMode == DirectMode)
    && ProviderView(s) == s.current.connectionMode
  }

  /** The command makes the selector resolve a method anew. */
  ghost predicate Resolves(s: Selector, c: Command) {
    match c
    case Use(id, _) => exists i :: 0 <= i < |Iter(s.settings)| && Iter(s.settings)[i].id == id
    case Rotate(_) => true
    case UpdateSettings(settings, _) =>
      forall i :: 0 <= i < |Iter(settings)| && Iter(settings)[i] == s.current.setting ==>
        exists j :: 0 <= j < i && Iter(settings)[j].id == s.current.setting.id
    case _ => false
  }

  /** The answer of the resolver that counts after the commands. */
  ghost function LastResolution(s: Selector, cs: seq<Command>, r: Resolution): Resolution
    decreases |cs|
  {
    if cs == [] then r
    else LastResolution(Step(s, cs[0]), cs[1..], if Resolves(s, cs[0]) then cs[0].resolution else r)
  }

  lemma StepResolves(s: Selector, c: Command, r: Resolution)
    requires Uses(s, r)
    ensures Resolves(s, c) ==> Uses(Step(s, c), c.resolution) && |Step(s, c).sent| == |s.sent| + 1
    ensures !Resolves(s, c) ==> Uses(Step(s, c), r) && Step(s, c).sent == s.sent
  {
    if c.UpdateSettings? {
      var l, found := Iter(c.settings), FindId(Iter(c.settings), s.current.setting.id);
      if found.Some? && l[found.value] == s.current.setting {
        assert !Resolves(s, c);
      }
    }
  }

  lemma {:induction false} RunResolves(s: Selector, cs: seq<Command>, r: Resolution)
    requires Uses(s, r)
    ensures Uses(Run(s, cs), LastResolution(s, cs, r))
    decreases |cs|
  {
    if cs != [] {
      StepResolves(s, cs[0], r);
      RunResolves(Step(s, cs[0]), cs[1..], if Resolves(s, cs[0]) then cs[0].resolution else r);
    }
  }

  /**
   After any commands, current mode, endpoint and the provider's view are what the resolver last answered: for
   the use of a known id, a rotation, or settings that changed or lost the current method; else at the start.
   */
  lemma CurrentIsResolved(settings: Settings, r: Resolution, cs: seq<Command>)
    ensures Uses(Run(Spawn(settings, r), cs), LastResolution(Spawn(settings, r), cs, r))
  {
    RunResolves(Spawn(settings, r), cs, r);
  }

  // ---------------------------------------------------------------------------
  // Which method a command chooses

  /** The selector stands on the first enabled method from `start` on, or on the direct one if none is enabled. */
  ghost predicate StandsOnFirst(s: Selector, start: nat) {
    if AnyEnabled(Iter(s.settings)) then
      exists q: nat :: FirstEnabledFrom(Iter(s.settings), start, q) && s.index == q % |Iter(s.settings)|
    else
      s.index == 0 && s.current.setting == s.settings.direct
  }

  lemma FirstChosen(s: Selector, start: nat)
    requires (s.index, s.current.setting) == FindNextActive(start, s.settings)
    ensures StandsOnFirst(s, start)
  {
    if AnyEnabled(Iter(s.settings)) {
      var q := NextActiveIsFirst(start, s.settings);
    } else {
      NoneActiveIsDirect(start, s.settings);
    }
  }

  lemma SpawnStandsOnFirst(settings: Settings, r: Resolution)
    ensures StandsOnFirst(Spawn(settings, r), 0)
  {
    FirstChosen(Spawn(settings, r), 0);
  }

  /** Asking for a method by id selects it, enabled or not; an unknown id changes nothing. */
  lemma UseSelects(s: Selector, id: Id, r: Resolution)
    ensures
      var t := UseMethod(s, id, r);
      if exists i :: 0 <= i < |Iter(s.settings)| && Iter(s.settings)[i].id == id then
        t.current.setting.id == id && t.index < |Iter(s.settings)| && t.current.setting == Iter(s.settings)[t.index]
      else
        t == s
  {
  }

  /**
   New settings leave an unchanged method alone and tell the provider nothing; a changed one that is
   enabled stays selected, with its new content; one that is disabled gives way to the next enabled one.
   */
  lemma UpdateChooses(s: Selector, settings: Settings, r: Resolution, i: nat)
    requires FindId(Iter(settings), s.current.setting.id) == Some(i)
    ensures
      var t, found := Update(s, settings, r), Iter(settings)[i];
      if found == s.current.setting then t == s.(settings := settings, index := i)
      else if found.enabled then t.index == i && t.current.setting == found && |t.sent| == |s.sent| + 1
      else StandsOnFirst(t, i + 1) && |t.sent| == |s.sent| + 1
  {
    var found := Iter(settings)[i];
    if found != s.current.setting && !found.enabled {
      FirstChosen(Update(s, settings, r), i + 1);
    }
  }

  // ---------------------------------------------------------------------------
  // Rotation through commands

  function RotateAll(rs: seq<Resolution>): (cs: seq<Command>)
    ensures |cs| == |rs|
  {
    seq(|rs|, i requires 0 <= i < |rs| => Rotate(rs[i]))
  }

  /** The indices the selector passes through. */
  function IndicesVisited(s: Selector, cs: seq<Command>): (v: seq<nat>)
    ensures |v| == |cs|
    decreases |cs|
  {
    if cs == [] then [] else [Step(s, cs[0]).index] + IndicesVisited(Step(s, cs[0]), cs[1..])
  }

  lemma RotateStep(s: Selector, r: Resolution)
    ensures Step(s, Rotate(r)).settings == s.settings
    ensures Step(s, Rotate(r)).index == FindNextActive(s.index + 1, s.settings).0
  {
  }

  lemma VisitedCons(s: Selector, c: Command, cs: seq<Command>)
    ensures IndicesVisited(s, [c] + cs) == [Step(s, c).index] + IndicesVisited(Step(s, c), cs)
  {
    assert ([c] + cs)[1..] == cs;
  }

  lemma RotateAllCons(rs: seq<Resolution>)
    requires rs != []
    ensures RotateAll(rs) == [Rotate(rs[0])] + RotateAll(rs[1..])
  {
  }

  lemma {:induction false} RotateCommandsRotate(s: Selector, rs: seq<Resolution>)
    ensures IndicesVisited(s, RotateAll(rs)) == Rotations(s.settings, s.index, |rs|)
    decreases |rs|
  {
    if rs != [] {
      var t := Step(s, Rotate(rs[0]));
      RotateAllCons(rs);
      VisitedCons(s, Rotate(rs[0]), RotateAll(rs[1..]));
      RotateStep(s, rs[0]);
      RotateCommandsRotate(t, rs[1..]);
      RotationsCons(s.settings, s.index, t.index, |rs| - 1);
    }
  }

  /** A method of the settings, built in or custom. */
  predicate Offered(s: Settings, m: Setting) {
    m == s.direct || m == s.mullvadBridges || m == s.encryptedDnsProxy || m == s.domainFronting || m in s.custom
  }

  /** The methods that go round are those of the settings, the built-in ones in front, the custom ones in order. */
  lemma IterIsComplete(s: Settings, m: Setting)
    ensures m in Iter(s) <==> Offered(s, m)
    ensures |Iter(s)| == 4 + |s.custom| && forall i :: 0 <= i < |s.custom| ==> Iter(s)[4 + i] == s.custom[i]
  {
    var l := Iter(s);
    assert l[0] == s.direct && l[1] == s.mullvadBridges && l[2] == s.encryptedDnsProxy && l[3] == s.domainFronting;
    if m in s.custom {
      var i :| 0 <= i < |s.custom| && s.custom[i] == m;
      assert l[4 + i] == m;
    }
  }

  /** Each enabled method of the settings has its turn within one round of rotations. */
  lemma EveryMethodHasItsTurn(settings: Settings, r: Resolution, cs: seq<Command>, rs: seq<Resolution>, m: Setting)
    requires
      var s := Run(Spawn(settings, r), cs);
      Offered(s.settings, m) && m.enabled && |rs| == |EnabledIndices(Iter(s.settings))|
    ensures
      var s := Run(Spawn(settings, r), cs);
      var v := IndicesVisited(s, RotateAll(rs));
      exists k :: 0 <= k < |v| && v[k] < |Iter(s.settings)| && Iter(s.settings)[v[k]] == m
  {
    var s := Run(Spawn(settings, r), cs);
    IterIsComplete(s.settings, m);
    var i :| 0 <= i < |Iter(s.settings)| && Iter(s.settings)[i] == m;
    RotationIsFair(settings, r, cs, rs);
    assert i in EnabledIndices(Iter(s.settings));
    assert i in Elements(IndicesVisited(s, RotateAll(rs)));
  }

  /** From any reachable state, as many rotations as there are enabled methods choose each of them once. */
  lemma RotationIsFair(settings: Settings, r: Resolution, cs: seq<Command>, rs: seq<Resolution>)
    requires var s := Run(Spawn(settings, r), cs);
      AnyEnabled(Iter(s.settings)) && |rs| == |EnabledIndices(Iter(s.settings))|
    ensures
      var s := Run(Spawn(settings, r), cs);
      var v := IndicesVisited(s, RotateAll(rs));
      && Elements(v) == EnabledIndices(Iter(s.settings))
      && (forall x, y :: 0 <= x < y < |v| ==> v[x] != v[y])
      && (forall x, y :: 0 <= x < y < |v| ==>
            Ahead(s.index, v[x], |Iter(s.settings)|) < Ahead(s.index, v[y], |Iter(s.settings)|))
  {
    var s := Run(Spawn(settings, r), cs);
    RunKeepsConsistent(Spawn(settings, r), cs);
    RotateCommandsRotate(s, rs);
    FullTurn(s.settings, s.index);
  }

  // ---------------------------------------------------------------------------
  // Removing the current method

  ghost predicate Removed(s: Selector, settings: Settings) {
    forall j :: 0 <= j < |Iter(settings)| ==> Iter(settings)[j].id != s.current.setting.id
  }

  /** A removed method is replaced by the first enabled one at or after its place, going round. */
  lemma RemovalTakesSuccessor(s: Selector, settings: Settings, r: Resolution) returns (q: nat)
    requires Consistent(s) && Removed(s, settings) && s.index >= 1 && AnyEnabled(Iter(settings))
    ensures FirstEnabledFrom(Iter(settings), s.index, q)
    ensures Update(s, settings, r).index == q % |Iter(settings)|
    ensures Update(s, settings, r).current.setting == At(Iter(settings), q)
  {
    q := NextActiveIsFirst(s.index, settings);
  }

  /**
   In every case, nothing enabled at or after the removed method's place is skipped exactly if the
   place was not 0, or the method now at 0 is disabled, or it is the only one enabled.
   */
  lemma RemovalSkipsNothingExactlyWhen(s: Selector, settings: Settings, r: Resolution)
    requires Consistent(s) && Removed(s, settings) && AnyEnabled(Iter(settings))
    ensures
      var l := Iter(settings);
      (exists q: nat :: FirstEnabledFrom(l, s.index, q) && Update(s, settings, r).index == q % |l|)
      <==> (s.index >= 1 || !l[0].enabled || forall j :: 0 < j < |l| ==> !l[j].enabled)
  {
    var l := Iter(settings);
    var i := if s.index == 0 then 1 else s.index;
    var q := NextActiveIsFirst(i, settings);
    if s.index == 0 {
      ModUnique(0, |l|, 0, 0);
      if l[0].enabled {
        assert FirstEnabledFrom(l, 0, 0);
        forall p: nat | FirstEnabledFrom(l, 0, p)
          ensures p == 0
        {
          FirstIsUnique(l, 0, 0, p);
        }
        ZeroChosenExactlyIfAlone(l, q);
      } else {
        assert FirstEnabledFrom(l, 0, q);
      }
    }
  }

  /** The direct method at place 0 gets a new id; although enabled, it is passed over for the second method. */
  lemma SkippingUpdate() returns (settings: Settings, updated: Settings, r: Resolution)
    ensures
      var s, l := Spawn(settings, r), Iter(updated);
      && s.index == 0 && s.current.setting == settings.direct && Removed(s, updated)
      && (forall i, j :: 0 <= i < j < |l| ==> l[i].id != l[j].id)
      && l[0].enabled && FirstEnabledFrom(l, s.index, 0)
      && Update(s, updated, r).index == 1
      && !exists q: nat :: FirstEnabledFrom(l, s.index, q) && Update(s, updated, r).index == q % |l|
  {
    r := Resolution(None, "");
    settings := Settings(Setting(0, "Direct", true, Direct), Setting(1, "Bridges", true, Bridge),
                         Setting(2, "DNS", false, EncryptedDnsProxy),
                         Setting(3, "Fronting", false, DomainFronting), []);
    updated := settings.(direct := settings.direct.(id := 9));
    var l := Iter(updated);
    ModUnique(0, |l|, 0, 0);
    ModUnique(1, |l|, 0, 1);
    assert FirstEnabledFrom(Iter(settings), 0, 0) && FirstEnabledFrom(l, 0, 0) && FirstEnabledFrom(l, 1, 1);
    var q := NextActiveIsFirst(0, settings);
    FirstIsUnique(Iter(settings), 0, 0, q);
    q := NextActiveIsFirst(1, updated);
    FirstIsUnique(l, 1, 1, q);
    forall p: nat | FirstEnabledFrom(l, 0, p)
      ensures p == 0
    {
      FirstIsUnique(l, 0, 0, p);
    }
  }

  lemma ZeroChosenExactlyIfAlone(l: seq<Setting>, q: nat)
    requires l != [] && l[0].enabled && FirstEnabledFrom(l, 1, q) && q < 1 + |l|
    ensures q % |l| == 0 <==> forall j :: 0 < j < |l| ==> !l[j].enabled
  {
    forall j | 0 < j < |l|
      ensures j % |l| == j && At(l, j) == l[j]
    {
      ModUnique(j, |l|, 0, j);
    }
    if q == |l| {
      ModUnique(q, |l|, 1, 0);
    }
  }

  // ---------------------------------------------------------------------------
  // The object

  method FindPosition(l: seq<Setting>, id: Id) returns (r: Option<nat>)
    ensures r == FindId(l, id)
  {
    var i := 0;
    while i < |l|
      invariant 0 <= i <= |l|
      invariant forall j :: 0 <= j < i ==> l[j].id != id
    {
      if l[i].id == id {
        assert FindId(l, id).Some?;
        return Some(i);
      }
      i := i + 1;
    }
    return None;
  }

  class AccessModeSelector {
    var accessMethodSettings: Settings
    var index: nat
    var current: Resolved
    const initial: Mode
    var sentToProvider: seq<Mode>

    ghost function Value(): Selector
      reads this
    {
      Selector(accessMethodSettings, index, current, initial, sentToProvider)
    }

    ghost predicate Valid()
      reads this
    {
      Consistent(Value())
    }

    constructor (settings: Settings, resolution: Resolution)
      ensures Valid() && Value() == Spawn(settings, resolution)
    {
      var (i, next) := FindNextActive(0, settings);
      var first := ResolveWithDefault(next, resolution);
      accessMethodSettings, index, current := settings, i, first;
      initial, sentToProvider := first.connectionMode, [];
    }

    method MakeCurrent(accessMethod: Setting, resolution: Resolution)
      modifies this`current, this`sentToProvider
      ensures Value() == SetCurrent(old(Value()), accessMethod, resolution)
    {
      var resolved := ResolveWithDefault(accessMethod, resolution);
      sentToProvider := sentToProvider + [resolved.connectionMode];
      current := resolved;
    }

    method UseAccessMethod(id: Id, resolution: Resolution)
      requires Valid()
      modifies this`index, this`current, this`sentToProvider
      ensures Valid() && Value() == UseMethod(old(Value()), id, resolution)
    {
      var found := FindPosition(Iter(accessMethodSettings), id);
      if found.None? {
        return;
      }
      index := found.value;
      MakeCurrent(Iter(accessMethodSettings)[index], resolution);
    }

    method NextConnectionMode(resolution: Resolution) returns (mode: Mode)
      modifies this`index, this`current, this`sentToProvider
      ensures Valid() && Value() == NextMode(old(Value()), resolution) && mode == current.connectionMode
    {
      var (nextIndex, next) := FindNextActive(index + 1, accessMethodSettings);
      index := nextIndex;
      MakeCurrent(next, resolution);
      mode := current.connectionMode;
    }

    method UpdateAccessMethods(accessMethods: Settings, resolution: Resolution)
      requires Valid()
      modifies this`accessMethodSettings, this`index, this`current, this`sentToProvider
      ensures Valid() && Value() == Update(old(Value()), accessMethods, resolution)
    {
      accessMethodSettings := accessMethods;
      var newCurrent := FindPosition(Iter(accessMethodSettings), current.setting.id);
      match newCurrent {
        case Some(position) =>
          var found := Iter(accessMethodSettings)[position];
          index := position;
          if current.setting != found {
            if found.enabled {
              MakeCurrent(found, resolution);
            } else {
              var _ := NextConnectionMode(resolution);
            }
          }
        case None =>
          index := if index == 0 then 0 else index - 1;
          var _ := NextConnectionMode(resolution);
      }
    }
  }
}
