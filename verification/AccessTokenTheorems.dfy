/**
 What every run of the token store guarantees, and what it guarantees only while no aborted
 fetch gets its result through.
 */
module AccessTokenTheorems {
  import opened Common
  import opened AccessTokens

  // ---------------------------------------------------------------------------
  // Reuse

  /** The token of completion `c`, sent to `ch`. */
  function TokenTo(s: Store, c: Completion, ch: Channel): Answer
    requires c.result.Success?
  {
    Answer(ch, c.account, c.fetch, Success(c.result.value.token), EpochOf(s, c.account))
  }

  /** A completed fetch answers everyone who waited, in order, and the next request without a new fetch. */
  lemma FetchedTokenIsReused(s: Store, c: Completion, ch: Channel, now: int, fetch: Fetch)
    requires c.result.Success? && now < c.result.value.expiry
    ensures
      var waiters := AccountOf(s, c.account).waiters;
      var u := OnGet(OnCompleted(s, c), c.account, ch, now, fetch);
      && u.running == s.running && u.begun == s.begun && AccountOf(u, c.account).waiters == []
      && |u.answers| == |s.answers| + |waiters| + 1 && s.answers <= u.answers
      && (forall i :: 0 <= i < |waiters| ==> u.answers[|s.answers| + i] == TokenTo(s, c, waiters[i]))
      && u.answers[|u.answers| - 1] == TokenTo(s, c, ch)
  {
    var t := OnCompleted(s, c);
    var waiters := AccountOf(s, c.account).waiters;
    var sent := Responses(waiters, c.account, c.fetch, c.result, EpochOf(s, c.account));
    assert AccountOf(t, c.account) == AccountState(Some(Cached(c.result.value, c.fetch)), None, []);
    var u := OnGet(t, c.account, ch, now, fetch);
    assert u.answers == s.answers + sent + [TokenTo(s, c, ch)];
    forall i | 0 <= i < |waiters|
      ensures u.answers[|s.answers| + i] == TokenTo(s, c, waiters[i])
    {
      assert u.answers[|s.answers| + i] == sent[i];
      assert sent[i] == Answer(waiters[i], c.account, c.fetch, ToResponse(c.result), EpochOf(s, c.account));
      assert ToResponse(c.result) == Success(c.result.value.token);
    }
  }

  /** After an invalidation the next request starts a fetch of its own and is not answered yet. */
  lemma InvalidationForcesFetch(s: Store, a: Account, race: Option<Fetched>, ch: Channel, now: int, fetch: Fetch)
    ensures
      var u := OnGet(OnInvalidate(s, a, race), a, ch, now, fetch);
      && fetch in u.running && u.running[fetch] == a && u.begun[fetch] == Begun(a, EpochOf(s, a) + 1)
      && u.answers == s.answers && AccountOf(u, a) == AccountState(None, Some(fetch), [ch])
  {
  }

  /** The step begins a fetch for the account. */
  ghost predicate Begins(s: Store, e: Event, a: Account)
    requires Enabled(s, e)
  {
    e.HandleAction? && e.fetch in Step(s, e).begun && Step(s, e).begun[e.fetch].account == a
  }

  /** The step handles a completion or an invalidation for the account. */
  predicate Ends(s: Store, e: Event, a: Account)
    requires Enabled(s, e)
  {
    || (e.HandleCompletion? && s.completions[0].account == a)
    || (e.HandleAction? && s.actions[0] == Invalidate(a))
  }

  ghost function Beginnings(s: Store, es: seq<Event>, a: Account): nat
    requires Runs(s, es)
    decreases |es|
  {
    if es == [] then 0 else One(Begins(s, es[0], a)) + Beginnings(Step(s, es[0]), es[1..], a)
  }

  ghost function Endings(s: Store, es: seq<Event>, a: Account): nat
    requires Runs(s, es)
    decreases |es|
  {
    if es == [] then 0 else One(Ends(s, es[0], a)) + Endings(Step(s, es[0]), es[1..], a)
  }

  function Underway(s: Store, a: Account): nat {
    One(AccountOf(s, a).inflight.Some?)
  }

  lemma GetBegins(s: Store, b: Account, ch: Channel, now: int, fetch: Fetch, a: Account)
    requires fetch !in s.begun
    ensures
      var t := OnGet(s, b, ch, now, fetch);
      && (AccountOf(s, a).inflight.Some? ==> AccountOf(t, a).inflight.Some?)
      && (fetch in t.begun && t.begun[fetch].account == a ==>
            AccountOf(s, a).inflight.None? && AccountOf(t, a).inflight.Some?)
  {
  }

  lemma InvalidateEnds(s: Store, b: Account, race: Option<Fetched>, a: Account)
    ensures
      var t := OnInvalidate(s, b, race);
      t.begun == s.begun && Underway(s, a) <= One(a == b) + Underway(t, a)
  {
  }

  lemma CompletedEnds(s: Store, c: Completion, a: Account)
    ensures Underway(s, a) <= One(a == c.account) + Underway(OnCompleted(s, c), a)
  {
  }

  lemma StepBegins(s: Store, e: Event, a: Account)
    requires Enabled(s, e)
    ensures One(Begins(s, e, a)) + Underway(s, a) <= One(Ends(s, e, a)) + Underway(Step(s, e), a)
  {
    match e {
      case HandleAction(now, fetch, race) =>
        var rest := s.(actions := s.actions[1..]);
        assert Underway(rest, a) == Underway(s, a);
        match s.actions[0] {
          case GetToken(b, ch) => GetBegins(rest, b, ch, now, fetch, a);
          case Invalidate(b) => InvalidateEnds(rest, b, race, a);
        }
      case HandleCompletion =>
        var rest := s.(completions := s.completions[1..]);
        assert Underway(rest, a) == Underway(s, a);
        CompletedEnds(rest, s.completions[0], a);
      case _ =>
        assert AccountOf(Step(s, e), a) == AccountOf(s, a);
    }
  }

  /**
   However many requests arrive, an account's fetches are begun one at a time: over any run at most one more
   than the completions and invalidations handled for it.
   */
  lemma {:induction false} FetchesAreShared(s: Store, es: seq<Event>, a: Account)
    requires Runs(s, es)
    ensures Beginnings(s, es, a) + Underway(s, a) <= Endings(s, es, a) + Underway(After(s, es), a)
    ensures Beginnings(s, es, a) <= Endings(s, es, a) + 1
    decreases |es|
  {
    if es != [] {
      StepBegins(s, es[0], a);
      FetchesAreShared(Step(s, es[0]), es[1..], a);
    }
  }

  // ---------------------------------------------------------------------------
  // Answers are honest and nobody is stranded

  ghost predicate Pending(s: Store, f: Fetch) {
    exists i :: 0 <= i < |s.completions| && s.completions[i].fetch == f
  }

  /** The fetch was begun for the account. */
  ghost predicate For(s: Store, f: Fetch, a: Account) {
    f in s.begun && s.begun[f].account == a
  }

  ghost predicate CompletionOk(s: Store, c: Completion) {
    For(s, c.fetch, c.account) && c.fetch in s.outcomes && s.outcomes[c.fetch] == c.result
  }

  ghost predicate TableOk(s: Store) {
    && (forall f :: f in s.running ==> For(s, f, s.running[f]) && f !in s.outcomes)
    && (forall f :: f in s.outcomes ==> f in s.begun)
  }

  ghost predicate TasksOk(s: Store) {
    TableOk(s) && forall i :: 0 <= i < |s.completions| ==> CompletionOk(s, s.completions[i])
  }

  ghost predicate AccountOk(s: Store, a: Account) {
    var st := AccountOf(s, a);
    && (st.waiters != [] ==> st.inflight.Some?)
    && (st.inflight.Some? ==>
          For(s, st.inflight.value, a) && (st.inflight.value in s.running || Pending(s, st.inflight.value)))
    && (st.token.Some? ==>
          var c := st.token.value;
          For(s, c.source, a) && c.source in s.outcomes && s.outcomes[c.source] == Success(c.data))
  }

  ghost predicate AnswerOk(s: Store, x: Answer) {
    For(s, x.fetch, x.account) && x.fetch in s.outcomes && x.value == ToResponse(s.outcomes[x.fetch])
  }

  ghost predicate FetchesOk(s: Store) {
    && TasksOk(s)
    && (forall a :: AccountOk(s, a))
    && (forall i :: 0 <= i < |s.answers| ==> AnswerOk(s, s.answers[i]))
  }

  /** History only grows. */
  ghost predicate Grows(s: Store, t: Store) {
    && (forall f :: f in s.begun ==> f in t.begun && t.begun[f] == s.begun[f])
    && (forall f :: f in s.outcomes ==> f in t.outcomes && t.outcomes[f] == s.outcomes[f])
  }

  lemma GetGrows(s: Store, a: Account, ch: Channel, now: int, fetch: Fetch)
    requires fetch !in s.begun
    ensures Grows(s, OnGet(s, a, ch, now, fetch))
  {
  }

  lemma InvalidateGrows(s: Store, a: Account, race: Option<Fetched>)
    requires TableOk(s)
    ensures Grows(s, OnInvalidate(s, a, race))
  {
  }

  lemma StepGrows(s: Store, e: Event)
    requires TableOk(s) && Enabled(s, e)
    ensures Grows(s, Step(s, e))
  {
    match e {
      case HandleAction(now, fetch, race) =>
        var rest := s.(actions := s.actions[1..]);
        match s.actions[0] {
          case GetToken(a, ch) => GetGrows(rest, a, ch, now, fetch);
          case Invalidate(a) => InvalidateGrows(rest, a, race);
        }
      case _ =>
    }
  }

  lemma StepKeepsTable(s: Store, e: Event)
    requires TableOk(s) && Enabled(s, e)
    ensures TableOk(Step(s, e))
  {
    match e {
      case HandleAction(now, fetch, race) =>
        var rest := s.(actions := s.actions[1..]);
        match s.actions[0] {
          case GetToken(a, ch) => GetKeepsTable(rest, a, ch, now, fetch);
          case Invalidate(a) => InvalidateKeepsTable(rest, a, race);
        }
      case _ =>
    }
  }

  lemma GetKeepsTable(s: Store, a: Account, ch: Channel, now: int, fetch: Fetch)
    requires TableOk(s) && fetch !in s.begun
    ensures TableOk(OnGet(s, a, ch, now, fetch))
  {
  }

  lemma InvalidateKeepsTable(s: Store, a: Account, race: Option<Fetched>)
    requires TableOk(s)
    ensures TableOk(OnInvalidate(s, a, race))
  {
  }

  lemma InvalidateCompletions(s: Store, a: Account, race: Option<Fetched>)
    ensures
      var t, inflight := OnInvalidate(s, a, race), AccountOf(s, a).inflight;
      if inflight.Some? && inflight.value in s.running && race.Some?
      then t.completions == s.completions + [Completion(a, inflight.value, race.value)]
           && inflight.value in t.outcomes && t.outcomes[inflight.value] == race.value
      else t.completions == s.completions
  {
  }

  lemma GetCompletions(s: Store, a: Account, ch: Channel, now: int, fetch: Fetch)
    ensures OnGet(s, a, ch, now, fetch).completions == s.completions
  {
  }

  /** The completion inbox loses its head, or gains what a task that was running sent. */
  ghost predicate Delivers(s: Store, t: Store) {
    exists c :: t.completions == s.completions + [c] && c.fetch in s.running && s.running[c.fetch] == c.account
             && c.fetch in t.outcomes && t.outcomes[c.fetch] == c.result
  }

  lemma InboxShape(s: Store, e: Event)
    requires FetchesOk(s) && Enabled(s, e)
    ensures
      var t := Step(s, e);
      t.completions == s.completions || (e.HandleCompletion? && t.completions == s.completions[1..]) || Delivers(s, t)
  {
    var t := Step(s, e);
    match e {
      case HandleAction(now, fetch, race) =>
        var rest := s.(actions := s.actions[1..]);
        match s.actions[0] {
          case GetToken(a, ch) => GetCompletions(rest, a, ch, now, fetch);
          case Invalidate(a) =>
            InvalidateCompletions(rest, a, race);
            assert AccountOk(s, a);
            if t.completions != s.completions {
              var c := t.completions[|s.completions|];
              assert For(s, c.fetch, a) && For(s, c.fetch, s.running[c.fetch]);
              assert t.completions == s.completions + [c];
            }
        }
      case FetchEnds(f, result) =>
        assert t.completions == s.completions + [Completion(s.running[f], f, result)];
      case _ =>
    }
  }

  lemma StepKeepsCompletions(s: Store, e: Event, i: nat)
    requires FetchesOk(s) && Enabled(s, e) && i < |Step(s, e).completions|
    ensures CompletionOk(Step(s, e), Step(s, e).completions[i])
  {
    var t := Step(s, e);
    StepGrows(s, e);
    InboxShape(s, e);
    CompletionsStayOk(s, t, i);
  }

  lemma CompletionsStayOk(s: Store, t: Store, i: nat)
    requires TasksOk(s) && Grows(s, t) && i < |t.completions|
    requires
      || t.completions == s.completions
      || (s.completions != [] && t.completions == s.completions[1..])
      || Delivers(s, t)
    ensures CompletionOk(t, t.completions[i])
  {
    var c := t.completions[i];
    if c in s.completions {
      var j :| 0 <= j < |s.completions| && s.completions[j] == c;
      assert CompletionOk(s, s.completions[j]);
    } else {
      assert For(s, c.fetch, s.running[c.fetch]);
    }
  }

  lemma StepKeepsTasks(s: Store, e: Event)
    requires FetchesOk(s) && Enabled(s, e)
    ensures TasksOk(Step(s, e))
  {
    var t := Step(s, e);
    StepKeepsTable(s, e);
    forall i | 0 <= i < |t.completions|
      ensures CompletionOk(t, t.completions[i])
    {
      StepKeepsCompletions(s, e, i);
    }
  }

  /** A fetch that was alive is still alive, unless its own completion was just handled or it was aborted. */
  lemma AliveStays(s: Store, e: Event, f: Fetch)
    requires TasksOk(s) && Enabled(s, e) && (f in s.running || Pending(s, f))
    requires !(e.HandleCompletion? && s.completions[0].fetch == f)
    requires !(e.HandleAction? && s.actions[0].Invalidate? && AccountOf(s, s.actions[0].account).inflight == Some(f))
    ensures var t := Step(s, e); f in t.running || Pending(t, f)
  {
    var t := Step(s, e);
    if e.FetchEnds? && e.fetch == f {
      assert t.completions[|s.completions|].fetch == f;
    } else if Pending(s, f) {
      var i :| 0 <= i < |s.completions| && s.completions[i].fetch == f;
      if e.HandleCompletion? {
        assert t.completions[i - 1].fetch == f;
      } else {
        assert t.completions[i].fetch == f;
      }
    }
  }

  lemma UntouchedAccount(s: Store, e: Event, a: Account)
    requires FetchesOk(s) && Enabled(s, e) && AccountOf(Step(s, e), a) == AccountOf(s, a)
    requires !(e.HandleCompletion? && s.completions[0].account == a)
    requires !(e.HandleAction? && s.actions[0] == Invalidate(a))
    ensures AccountOk(Step(s, e), a)
  {
    assert AccountOk(s, a);
    StepGrows(s, e);
    var st := AccountOf(s, a);
    if st.inflight.Some? {
      if e.HandleAction? && s.actions[0].Invalidate? {
        assert AccountOk(s, s.actions[0].account);
      }
      AliveStays(s, e, st.inflight.value);
    }
  }

  lemma GetAccount(s: Store, e: Event)
    requires FetchesOk(s) && Enabled(s, e) && e.HandleAction? && s.actions[0].GetToken?
    ensures AccountOk(Step(s, e), s.actions[0].account)
  {
    var a := s.actions[0].account;
    assert AccountOk(s, a);
    StepGrows(s, e);
    var st := AccountOf(s, a);
    if st.inflight.Some? {
      AliveStays(s, e, st.inflight.value);
    }
  }

  lemma CompletedAccount(s: Store)
    requires FetchesOk(s) && s.completions != []
    ensures AccountOk(Step(s, HandleCompletion), s.completions[0].account)
  {
    var c := s.completions[0];
    assert AccountOk(s, c.account) && CompletionOk(s, c);
    var st := AccountOf(Step(s, HandleCompletion), c.account);
    assert st.inflight == None && st.waiters == [];
  }

  lemma StepKeepsAccount(s: Store, e: Event, a: Account)
    requires FetchesOk(s) && Enabled(s, e)
    ensures AccountOk(Step(s, e), a)
  {
    if e.HandleAction? && s.actions[0].GetToken? && s.actions[0].account == a {
      GetAccount(s, e);
    } else if e.HandleAction? && s.actions[0] == Invalidate(a) {
      assert AccountOf(Step(s, e), a) == NOTHING;
    } else if e.HandleCompletion? && s.completions[0].account == a {
      CompletedAccount(s);
    } else {
      UntouchedAccount(s, e, a);
    }
  }

  lemma StepKeepsAnswers(s: Store, e: Event)
    requires FetchesOk(s) && Enabled(s, e)
    ensures forall i :: 0 <= i < |Step(s, e).answers| ==> AnswerOk(Step(s, e), Step(s, e).answers[i])
  {
    StepGrows(s, e);
    if e.HandleAction? {
      assert AccountOk(s, s.actions[0].account);
    }
  }

  lemma StepKeepsFetches(s: Store, e: Event)
    requires FetchesOk(s) && Enabled(s, e)
    ensures FetchesOk(Step(s, e))
  {
    StepKeepsTasks(s, e);
    forall a
      ensures AccountOk(Step(s, e), a)
    {
      StepKeepsAccount(s, e, a);
    }
    StepKeepsAnswers(s, e);
  }

  lemma {:induction false} AccountedOverRun(s: Store, es: seq<Event>)
    requires ChannelsOk(s) && FetchesOk(s) && Runs(s, es)
    ensures ChannelsOk(After(s, es)) && FetchesOk(After(s, es))
    decreases |es|
  {
    if es != [] {
      StepKeepsChannels(s, es[0]);
      StepKeepsFetches(s, es[0]);
      AccountedOverRun(Step(s, es[0]), es[1..]);
    }
  }

  /** The answer is what its fetch, begun for the account, returned: the token of a success, or the error. */
  ghost predicate Returned(s: Store, x: Answer) {
    && x.fetch in s.begun && s.begun[x.fetch].account == x.account && x.fetch in s.outcomes
    && (s.outcomes[x.fetch].Success? ==> x.value == Success(s.outcomes[x.fetch].value.token))
    && (s.outcomes[x.fetch].Failure? ==> x.value == Failure(s.outcomes[x.fetch].error))
  }

  /**
   In every run each request channel is in exactly one place: still in the inbox, waiting under its own
   account, answered once, or dropped. Answers carry what a fetch for that account returned. Whoever
   waits is served by a fetch that is running or has its completion queued.
   */
  lemma EveryRequestAccountedFor(es: seq<Event>)
    requires Runs(EMPTY, es)
    ensures
      var s := After(EMPTY, es);
      && (forall ch :: ch in s.asked ==> OnePlace(s, ch))
      && AnswersDistinct(s.answers)
      && (forall i :: 0 <= i < |s.answers| ==>
            && s.answers[i].channel in s.asked && s.asked[s.answers[i].channel] == s.answers[i].account
            && Returned(s, s.answers[i]))
      && (forall a :: AccountOf(s, a).waiters != [] ==>
            && AccountOf(s, a).inflight.Some? && For(s, AccountOf(s, a).inflight.value, a)
            && (AccountOf(s, a).inflight.value in s.running || Pending(s, AccountOf(s, a).inflight.value)))
  {
    AccountedOverRun(EMPTY, es);
    var s := After(EMPTY, es);
    forall i | 0 <= i < |s.answers|
      ensures Returned(s, s.answers[i])
    {
      assert AnswerOk(s, s.answers[i]);
    }
    forall a | AccountOf(s, a).waiters != []
      ensures
        && AccountOf(s, a).inflight.Some? && For(s, AccountOf(s, a).inflight.value, a)
        && (AccountOf(s, a).inflight.value in s.running || Pending(s, AccountOf(s, a).inflight.value))
    {
      assert AccountOk(s, a);
    }
  }

  predicate Holds(s: Store, a: Account, now: int) {
    a in s.accounts && s.accounts[a].token.Some? && now < s.accounts[a].token.value.data.expiry
  }

  /** A token held beyond `now` is the answer; otherwise the request waits for a fetch, and no token is held. */
  ghost predicate AnswersByExpiry(s: Store, t: Store, a: Account, ch: Channel, now: int) {
    if Holds(s, a, now) then
      var held := s.accounts[a].token.value;
      && t.answers == s.answers + [Answer(ch, a, held.source, Success(held.data.token), EpochOf(s, a))]
      && t.begun == s.begun && a in t.accounts && t.accounts[a] == s.accounts[a]
    else
      && t.answers == s.answers && a in t.accounts && t.accounts[a].token == None
      && t.accounts[a].inflight.Some? && ch in t.accounts[a].waiters
  }

  lemma GetByExpiry(s: Store, a: Account, ch: Channel, now: int, fetch: Fetch)
    ensures AnswersByExpiry(s, OnGet(s, a, ch, now, fetch), a, ch, now)
  {
  }

  lemma HeldIsFetched(s: Store, a: Account, now: int)
    requires AccountOk(s, a) && Holds(s, a, now)
    ensures
      var held := s.accounts[a].token.value;
      held.source in s.outcomes && s.outcomes[held.source] == Success(held.data) && For(s, held.source, a)
  {
  }

  /**
   In every run, handling a request at time `now` answers it exactly if the account holds a token that expires
   after `now`; the answer is that token, which a fetch for the account returned. Otherwise the request waits,
   whatever token was held is gone, and a fetch is under way.
   */
  lemma AnsweredExactlyBeforeExpiry(before: seq<Event>, now: int, fetch: Fetch, race: Option<Fetched>)
    requires Runs(EMPTY, before) && Enabled(After(EMPTY, before), HandleAction(now, fetch, race))
    requires After(EMPTY, before).actions[0].GetToken?
    ensures
      var s := After(EMPTY, before);
      var a, ch := s.actions[0].account, s.actions[0].channel;
      && AnswersByExpiry(s, Step(s, HandleAction(now, fetch, race)), a, ch, now)
      && (Holds(s, a, now) ==>
            var held := s.accounts[a].token.value;
            held.source in s.outcomes && s.outcomes[held.source] == Success(held.data) && For(s, held.source, a))
  {
    AccountedOverRun(EMPTY, before);
    var s := After(EMPTY, before);
    var a := s.actions[0].account;
    RequestHandled(s, now, fetch, race);
    if Holds(s, a, now) {
      HeldIsFetched(s, a, now);
    }
  }

  lemma RequestHandled(s: Store, now: int, fetch: Fetch, race: Option<Fetched>)
    requires Enabled(s, HandleAction(now, fetch, race)) && s.actions[0].GetToken?
    ensures
      AnswersByExpiry(s, Step(s, HandleAction(now, fetch, race)), s.actions[0].account, s.actions[0].channel, now)
  {
    GetByExpiry(s.(actions := s.actions[1..]), s.actions[0].account, s.actions[0].channel, now, fetch);
  }

  /** The token an account holds after a step, from the events alone. */
  ghost function HeldAfter(s: Store, e: Event, a: Account, held: Option<TokenData>): Option<TokenData>
    requires Enabled(s, e)
  {
    if e.HandleCompletion? && s.completions[0].account == a && s.completions[0].result.Success? then
      Some(s.completions[0].result.value)
    else if e.HandleAction? && s.actions[0] == Invalidate(a) then
      None
    else if e.HandleAction? && s.actions[0].GetToken? && s.actions[0].account == a && held.Some?
            && held.value.expiry <= e.now then
      None
    else
      held
  }

  ghost function LastFetched(s: Store, es: seq<Event>, a: Account, held: Option<TokenData>): Option<TokenData>
    requires Runs(s, es)
    decreases |es|
  {
    if es == [] then held else LastFetched(Step(s, es[0]), es[1..], a, HeldAfter(s, es[0], a, held))
  }

  function HeldBy(s: Store, a: Account): Option<TokenData> {
    if a in s.accounts && s.accounts[a].token.Some? then Some(s.accounts[a].token.value.data) else None
  }

  lemma GetHolds(s: Store, b: Account, ch: Channel, now: int, fetch: Fetch, a: Account)
    ensures
      HeldBy(OnGet(s, b, ch, now, fetch), a)
        == if a == b && HeldBy(s, a).Some? && HeldBy(s, a).value.expiry <= now then None else HeldBy(s, a)
  {
  }

  lemma StepHolds(s: Store, e: Event, a: Account)
    requires Enabled(s, e)
    ensures HeldBy(Step(s, e), a) == HeldAfter(s, e, a, HeldBy(s, a))
  {
    match e {
      case HandleAction(now, fetch, race) =>
        var rest := s.(actions := s.actions[1..]);
        if s.actions[0].GetToken? {
          GetHolds(rest, s.actions[0].account, s.actions[0].channel, now, fetch, a);
        } else {
          assert OnInvalidate(rest, s.actions[0].account, race).accounts == s.accounts[s.actions[0].account := NOTHING];
        }
      case _ =>
    }
  }

  /**
   Over every run an account holds the token of the last successful fetch handled for it, a failed fetch
   changing nothing, until an invalidation or a request that finds it expired.
   */
  lemma {:induction false} TokenIsLastFetched(s: Store, es: seq<Event>, a: Account)
    requires Runs(s, es)
    ensures HeldBy(After(s, es), a) == LastFetched(s, es, a, HeldBy(s, a))
    decreases |es|
  {
    if es != [] {
      StepHolds(s, es[0], a);
      TokenIsLastFetched(Step(s, es[0]), es[1..], a);
    }
  }

  // ---------------------------------------------------------------------------
  // Freshness, while no aborted fetch gets its result through

  /** The step does not abort a fetch whose completion is queued or slips out during the abort. */
  ghost predicate Clean(s: Store, e: Event)
    requires Enabled(s, e)
  {
    e.HandleAction? && s.actions[0].Invalidate? ==>
      var inflight := AccountOf(s, s.actions[0].account).inflight;
      inflight.Some? ==> !Pending(s, inflight.value) && !(inflight.value in s.running && e.race.Some?)
  }

  /** Running, or finished with its completion still to be handled. */
  ghost predicate Live(s: Store, f: Fetch, a: Account) {
    || (f in s.running && s.running[f] == a)
    || exists i :: 0 <= i < |s.completions| && s.completions[i].fetch == f && s.completions[i].account == a
  }

  ghost predicate OneLive(s: Store) {
    && (forall f: Fetch, a: Account :: Live(s, f, a) ==> AccountOf(s, a).inflight == Some(f))
    && (forall i, j :: 0 <= i < j < |s.completions| ==> s.completions[i].fetch != s.completions[j].fetch)
  }

  ghost predicate CurrentEpoch(s: Store, f: Fetch, a: Account) {
    f in s.begun && s.begun[f].epoch == EpochOf(s, a)
  }

  ghost predicate FreshAccount(s: Store, a: Account) {
    var st := AccountOf(s, a);
    && (st.inflight.Some? ==> CurrentEpoch(s, st.inflight.value, a))
    && (st.token.Some? ==> CurrentEpoch(s, st.token.value.source, a))
  }

  /** No invalidation was handled between the beginning of the fetch and the answer it gave. */
  ghost predicate FreshAnswer(s: Store, x: Answer) {
    x.fetch in s.begun && s.begun[x.fetch].epoch == x.epoch
  }

  ghost predicate FreshAnswers(s: Store) {
    forall i :: 0 <= i < |s.answers| ==> FreshAnswer(s, s.answers[i])
  }

  ghost predicate CleanInv(s: Store) {
    FetchesOk(s) && OneLive(s) && (forall a :: FreshAccount(s, a)) && FreshAnswers(s)
  }

  /** The fetch that a request starts. */
  ghost predicate Starts(s: Store, e: Event, f: Fetch, a: Account)
    requires Enabled(s, e)
  {
    && e.HandleAction? && s.actions[0].GetToken? && s.actions[0].account == a && e.fetch == f
    && AccountOf(Step(s, e), a).inflight == Some(f) && AccountOf(s, a).inflight == None
  }

  lemma GetRunning(s: Store, a: Account, ch: Channel, now: int, fetch: Fetch, f: Fetch)
    requires f in OnGet(s, a, ch, now, fetch).running
    ensures
      var t := OnGet(s, a, ch, now, fetch);
      || (f in s.running && t.running[f] == s.running[f])
      || (f == fetch && t.running[f] == a && AccountOf(t, a).inflight == Some(f) && AccountOf(s, a).inflight == None)
  {
  }

  lemma InvalidateRunning(s: Store, a: Account, race: Option<Fetched>, f: Fetch)
    requires f in OnInvalidate(s, a, race).running
    ensures f in s.running && OnInvalidate(s, a, race).running[f] == s.running[f]
  {
  }

  lemma RunningBefore(s: Store, e: Event, f: Fetch, a: Account)
    requires Enabled(s, e)
    requires var t := Step(s, e); f in t.running && t.running[f] == a
    ensures Live(s, f, a) || Starts(s, e, f, a)
  {
    match e {
      case HandleAction(now, fetch, race) =>
        var rest := s.(actions := s.actions[1..]);
        match s.actions[0] {
          case GetToken(b, ch) => GetRunning(rest, b, ch, now, fetch, f);
          case Invalidate(b) => InvalidateRunning(rest, b, race, f);
        }
      case _ =>
    }
  }

  lemma CompletedBefore(s: Store, e: Event, i: nat)
    requires FetchesOk(s) && Enabled(s, e) && i < |Step(s, e).completions|
    ensures var c := Step(s, e).completions[i]; Live(s, c.fetch, c.account)
  {
    InboxShape(s, e);
    var c := Step(s, e).completions[i];
    if c in s.completions {
      var j :| 0 <= j < |s.completions| && s.completions[j] == c;
    }
  }

  /** Fetches come alive only through a request that starts one. */
  lemma LiveBefore(s: Store, e: Event, f: Fetch, a: Account)
    requires FetchesOk(s) && Enabled(s, e) && Live(Step(s, e), f, a)
    ensures Live(s, f, a) || Starts(s, e, f, a)
  {
    var t := Step(s, e);
    if f in t.running && t.running[f] == a {
      RunningBefore(s, e, f, a);
    } else {
      var i :| 0 <= i < |t.completions| && t.completions[i].fetch == f && t.completions[i].account == a;
      CompletedBefore(s, e, i);
    }
  }

  /** Handling a completion, or a clean invalidation, leaves nothing alive for the account. */
  lemma NothingLeft(s: Store, e: Event, f: Fetch, a: Account)
    requires FetchesOk(s) && OneLive(s) && Enabled(s, e) && Clean(s, e)
    requires Ends(s, e, a)
    ensures !Live(Step(s, e), f, a)
  {
    var t := Step(s, e);
    assert AccountOk(s, a);
    if Live(t, f, a) {
      LiveBefore(s, e, f, a);
      assert AccountOf(s, a).inflight == Some(f);
      if e.HandleCompletion? {
        assert CompletionOk(s, s.completions[0]);
        assert Live(s, s.completions[0].fetch, a);
      }
    }
  }

  lemma InflightKept(s: Store, e: Event, a: Account)
    requires Enabled(s, e) && AccountOf(s, a).inflight.Some?
    requires !Ends(s, e, a)
    ensures AccountOf(Step(s, e), a).inflight == AccountOf(s, a).inflight
  {
    if e.HandleAction? {
      var rest := s.(actions := s.actions[1..]);
      if s.actions[0].GetToken? {
        GetKeepsInflight(rest, s.actions[0].account, s.actions[0].channel, e.now, e.fetch, a);
      } else {
        assert OnInvalidate(rest, s.actions[0].account, e.race).accounts == s.accounts[s.actions[0].account := NOTHING];
      }
    }
  }

  lemma GetKeepsInflight(s: Store, b: Account, ch: Channel, now: int, fetch: Fetch, a: Account)
    requires AccountOf(s, a).inflight.Some?
    ensures AccountOf(OnGet(s, b, ch, now, fetch), a).inflight == AccountOf(s, a).inflight
  {
  }

  lemma LiveIsInflight(s: Store, e: Event, f: Fetch, a: Account)
    requires FetchesOk(s) && OneLive(s) && Enabled(s, e) && Clean(s, e) && Live(Step(s, e), f, a)
    ensures AccountOf(Step(s, e), a).inflight == Some(f)
  {
    if Ends(s, e, a) {
      NothingLeft(s, e, f, a);
    } else {
      LiveBefore(s, e, f, a);
      if Live(s, f, a) {
        InflightKept(s, e, a);
      }
    }
  }

  lemma CompletionsStayDistinct(s: Store, e: Event, i: nat, j: nat)
    requires FetchesOk(s) && OneLive(s) && Enabled(s, e) && Clean(s, e) && i < j < |Step(s, e).completions|
    ensures Step(s, e).completions[i].fetch != Step(s, e).completions[j].fetch
  {
    if i < |s.completions| {
      assert CompletionOk(s, s.completions[i]);
    }
    if e.HandleAction? {
      assert AccountOk(s, s.actions[0].account);
    }
  }

  lemma StepKeepsOneLive(s: Store, e: Event)
    requires FetchesOk(s) && OneLive(s) && Enabled(s, e) && Clean(s, e)
    ensures OneLive(Step(s, e))
  {
    var t := Step(s, e);
    forall f: Fetch, a: Account | Live(t, f, a)
      ensures AccountOf(t, a).inflight == Some(f)
    {
      LiveIsInflight(s, e, f, a);
    }
    forall i, j | 0 <= i < j < |t.completions|
      ensures t.completions[i].fetch != t.completions[j].fetch
    {
      CompletionsStayDistinct(s, e, i, j);
    }
  }

  /** What is current stays current as long as no invalidation of the account is handled. */
  lemma EpochStays(s: Store, e: Event, a: Account, f: Fetch)
    requires TableOk(s) && Enabled(s, e) && !(e.HandleAction? && s.actions[0] == Invalidate(a)) && CurrentEpoch(s, f, a)
    ensures CurrentEpoch(Step(s, e), f, a)
  {
    StepGrows(s, e);
    assert EpochOf(Step(s, e), a) == EpochOf(s, a);
  }

  /** Where an account's token and fetch come from. */
  lemma AccountSources(s: Store, e: Event, a: Account)
    requires Enabled(s, e) && !(e.HandleAction? && s.actions[0] == Invalidate(a))
    ensures
      var st, st' := AccountOf(s, a), AccountOf(Step(s, e), a);
      && (st'.inflight.Some? ==> st'.inflight == st.inflight || Starts(s, e, st'.inflight.value, a))
      && (st'.token.Some? ==>
            || st'.token == st.token
            || (e.HandleCompletion? && s.completions[0].account == a
                && st'.token.value.source == s.completions[0].fetch))
  {
    if e.HandleAction? && s.actions[0].GetToken? {
      GetSources(s.(actions := s.actions[1..]), s.actions[0].account, s.actions[0].channel, e.now, e.fetch, a);
    }
  }

  lemma GetSources(s: Store, b: Account, ch: Channel, now: int, fetch: Fetch, a: Account)
    ensures
      var st, st' := AccountOf(s, a), AccountOf(OnGet(s, b, ch, now, fetch), a);
      && (st'.token.Some? ==> st'.token == st.token)
      && (st'.inflight == st.inflight || (a == b && st.inflight == None && st'.inflight == Some(fetch)))
  {
  }

  lemma StepKeepsFresh(s: Store, e: Event, a: Account)
    requires CleanInv(s) && Enabled(s, e) && Clean(s, e)
    ensures FreshAccount(Step(s, e), a)
  {
    if e.HandleAction? && s.actions[0] == Invalidate(a) {
      assert AccountOf(Step(s, e), a) == NOTHING;
    } else {
      assert FreshAccount(s, a);
      AccountSources(s, e, a);
      var st, st' := AccountOf(s, a), AccountOf(Step(s, e), a);
      if st'.inflight.Some? && st'.inflight == st.inflight {
        EpochStays(s, e, a, st.inflight.value);
      }
      if st'.token.Some? {
        if e.HandleCompletion? && s.completions[0].account == a {
          assert Live(s, s.completions[0].fetch, a);
        }
        EpochStays(s, e, a, st'.token.value.source);
      }
    }
  }

  lemma StepKeepsFreshAnswers(s: Store, e: Event)
    requires CleanInv(s) && Enabled(s, e) && Clean(s, e)
    ensures FreshAnswers(Step(s, e))
  {
    StepGrows(s, e);
    if e.HandleAction? {
      assert FreshAccount(s, s.actions[0].account);
    }
    if e.HandleCompletion? {
      var c := s.completions[0];
      assert Live(s, c.fetch, c.account) && FreshAccount(s, c.account);
    }
  }

  lemma StepKeepsClean(s: Store, e: Event)
    requires CleanInv(s) && Enabled(s, e) && Clean(s, e)
    ensures CleanInv(Step(s, e))
  {
    StepKeepsFetches(s, e);
    StepKeepsOneLive(s, e);
    forall a
      ensures FreshAccount(Step(s, e), a)
    {
      StepKeepsFresh(s, e, a);
    }
    StepKeepsFreshAnswers(s, e);
  }

  ghost predicate CleanRun(s: Store, es: seq<Event>)
    decreases |es|
  {
    es == [] || (Enabled(s, es[0]) && Clean(s, es[0]) && CleanRun(Step(s, es[0]), es[1..]))
  }

  lemma {:induction false} CleanOverRun(s: Store, es: seq<Event>)
    requires CleanInv(s) && CleanRun(s, es)
    ensures Runs(s, es) && CleanInv(After(s, es))
    decreases |es|
  {
    if es != [] {
      StepKeepsClean(s, es[0]);
      CleanOverRun(Step(s, es[0]), es[1..]);
    }
  }

  /**
   In a clean run at most one fetch per account is alive at a time, and no answer carries a token
   whose fetch began before an invalidation that was handled before the answer.
   */
  lemma CleanRunsAreFresh(es: seq<Event>)
    requires CleanRun(EMPTY, es)
    ensures Runs(EMPTY, es)
    ensures
      var s := After(EMPTY, es);
      && (forall f: Fetch, g: Fetch, a: Account :: Live(s, f, a) && Live(s, g, a) ==> f == g)
      && FreshAnswers(s)
  {
    CleanOverRun(EMPTY, es);
  }

  // ---------------------------------------------------------------------------
  // The condition is exact: an aborted fetch that gets through can be served

  lemma {:induction false} FreshNumber(used: set<nat>) returns (n: nat)
    ensures n !in used && forall m :: m in used ==> m < n
    decreases |used|
  {
    if used == {} {
      n := 0;
    } else {
      var m :| m in used;
      var k := FreshNumber(used - {m});
      n := if k <= m then m + 1 else k;
      assert forall x :: x in used ==> x == m || x in used - {m};
    }
  }

  /** After the first `n` answers, one gives the result `r` of fetch `f`. */
  ghost predicate Served(s: Store, n: nat, f: Fetch, r: Fetched) {
    exists i :: n <= i < |s.answers| && s.answers[i].fetch == f && s.answers[i].value == ToResponse(r)
  }

  /** A request handled when the token held, if any, has expired waits. */
  lemma RequestWaits(s: Store, a: Account, ch: Channel, f: Fetch)
    requires s.actions == [GetToken(a, ch)]
    ensures
      var now := if AccountOf(s, a).token.Some? then AccountOf(s, a).token.value.data.expiry else 0;
      var t := OnGet(s.(actions := []), a, ch, now, f);
      AccountOf(t, a).waiters != [] && t.answers == s.answers && t.completions == s.completions
  {
  }

  lemma HeadAnswers(s: Store, n: nat)
    requires s.completions != [] && AccountOf(s, s.completions[0].account).waiters != [] && n <= |s.answers|
    ensures Served(Step(s, HandleCompletion), n, s.completions[0].fetch, s.completions[0].result)
  {
    var t, c := Step(s, HandleCompletion), s.completions[0];
    assert t.answers[|s.answers|].fetch == c.fetch && t.answers[|s.answers|].value == ToResponse(c.result);
  }

  lemma RunOf(s: Store, e: Event, es: seq<Event>)
    requires Enabled(s, e) && Runs(Step(s, e), es)
    ensures Runs(s, [e] + es) && After(s, [e] + es) == After(Step(s, e), es)
  {
    assert ([e] + es)[1..] == es;
  }

  /** With the completion at the head of an otherwise idle store, the next request is answered by it. */
  lemma HeadServesRequest(s: Store, n: nat) returns (es: seq<Event>)
    requires s.actions == [] && s.completions != [] && n <= |s.answers|
    ensures Runs(s, es) && Served(After(s, es), n, s.completions[0].fetch, s.completions[0].result)
  {
    var a := s.completions[0].account;
    var ch := FreshNumber(s.asked.Keys);
    var f := FreshNumber(s.begun.Keys);
    var t := Step(s, Ask(a, ch));
    var now := if AccountOf(t, a).token.Some? then AccountOf(t, a).token.value.data.expiry else 0;
    var u := Step(t, HandleAction(now, f, None));
    RequestWaits(t, a, ch, f);
    assert u == OnGet(t.(actions := []), a, ch, now, f);
    HeadAnswers(u, n);
    var v := Step(u, HandleCompletion);
    assert Runs(v, []) && After(v, []) == v;
    RunOf(u, HandleCompletion, []);
    RunOf(t, HandleAction(now, f, None), [HandleCompletion] + []);
    RunOf(s, Ask(a, ch), [HandleAction(now, f, None)] + ([HandleCompletion] + []));
    es := [Ask(a, ch)] + ([HandleAction(now, f, None)] + ([HandleCompletion] + []));
  }

  /** Handling an action without a late result leaves the queued completions, and what was sent, in place. */
  lemma QuietAction(s: Store, f: Fetch)
    requires s.actions != [] && f !in s.begun
    ensures
      var t := Step(s, HandleAction(0, f, None));
      t.actions == s.actions[1..] && t.completions == s.completions && s.answers <= t.answers
  {
    var rest := s.(actions := s.actions[1..]);
    match s.actions[0] {
      case GetToken(a, ch) => QuietGet(rest, a, ch, f);
      case Invalidate(a) =>
        assert OnInvalidate(rest, a, None).answers == s.answers;
    }
  }

  lemma QuietGet(s: Store, a: Account, ch: Channel, f: Fetch)
    ensures
      var t := OnGet(s, a, ch, 0, f);
      t.actions == s.actions && t.completions == s.completions && s.answers <= t.answers
  {
    GetShape(s, a, ch, 0, f);
    assert OnGet(s, a, ch, 0, f).completions == s.completions;
  }

  /** Whatever is queued, a queued completion can still answer someone who asks. */
  lemma {:induction false} QueuedIsServed(s: Store, k: nat, n: nat) returns (es: seq<Event>)
    requires k < |s.completions| && n <= |s.answers|
    ensures Runs(s, es) && Served(After(s, es), n, s.completions[k].fetch, s.completions[k].result)
    decreases k, |s.actions|
  {
    if s.actions != [] {
      var f := FreshNumber(s.begun.Keys);
      var handle := HandleAction(0, f, None);
      QuietAction(s, f);
      var rest := QueuedIsServed(Step(s, handle), k, n);
      es := [handle] + rest;
      RunOf(s, handle, rest);
    } else if k > 0 {
      var t := Step(s, HandleCompletion);
      assert t.completions[k - 1] == s.completions[k];
      var rest := QueuedIsServed(t, k - 1, n);
      es := [HandleCompletion] + rest;
      RunOf(s, HandleCompletion, rest);
    } else {
      es := HeadServesRequest(s, n);
    }
  }

  /** The fetch is over, and nothing of it is left to be answered with. */
  ghost predicate Gone(s: Store, f: Fetch) {
    && f in s.begun && f !in s.running && !Pending(s, f)
    && forall a ::
         && AccountOf(s, a).inflight != Some(f)
         && (AccountOf(s, a).token.Some? ==> AccountOf(s, a).token.value.source != f)
  }

  ghost predicate Silent(s: Store, n: nat, f: Fetch) {
    forall i :: n <= i < |s.answers| ==> s.answers[i].fetch != f
  }

  lemma GetKeepsGone(s: Store, a: Account, ch: Channel, now: int, fetch: Fetch, n: nat, f: Fetch)
    requires Gone(s, f) && Silent(s, n, f) && fetch !in s.begun
    ensures var t := OnGet(s, a, ch, now, fetch); Gone(t, f) && Silent(t, n, f)
  {
    var t := OnGet(s, a, ch, now, fetch);
    assert AccountOf(s, a).inflight != Some(f);
    forall b
      ensures
        && AccountOf(t, b).inflight != Some(f)
        && (AccountOf(t, b).token.Some? ==> AccountOf(t, b).token.value.source != f)
    {
      assert AccountOf(s, b).inflight != Some(f);
    }
    assert t.completions == s.completions;
  }

  lemma InvalidateKeepsGone(s: Store, a: Account, race: Option<Fetched>, n: nat, f: Fetch)
    requires Gone(s, f) && Silent(s, n, f)
    ensures var t := OnInvalidate(s, a, race); Gone(t, f) && Silent(t, n, f)
  {
    var t := OnInvalidate(s, a, race);
    assert AccountOf(s, a).inflight != Some(f);
    forall b
      ensures
        && AccountOf(t, b).inflight != Some(f)
        && (AccountOf(t, b).token.Some? ==> AccountOf(t, b).token.value.source != f)
    {
      assert AccountOf(s, b).inflight != Some(f);
    }
    forall i | 0 <= i < |t.completions|
      ensures t.completions[i].fetch != f
    {
      assert i < |s.completions| ==> s.completions[i].fetch != f;
    }
  }

  lemma CompletedKeepsGone(s: Store, n: nat, f: Fetch)
    requires Gone(s, f) && Silent(s, n, f) && s.completions != []
    ensures var t := Step(s, HandleCompletion); Gone(t, f) && Silent(t, n, f)
  {
    var t, c := Step(s, HandleCompletion), s.completions[0];
    assert c.fetch != f;
    forall b
      ensures
        && AccountOf(t, b).inflight != Some(f)
        && (AccountOf(t, b).token.Some? ==> AccountOf(t, b).token.value.source != f)
    {
      assert AccountOf(s, b).inflight != Some(f);
    }
    assert forall i :: 0 <= i < |t.completions| ==> t.completions[i] == s.completions[i + 1];
  }

  lemma StepKeepsGone(s: Store, e: Event, n: nat, f: Fetch)
    requires Gone(s, f) && Silent(s, n, f) && Enabled(s, e)
    ensures Gone(Step(s, e), f) && Silent(Step(s, e), n, f)
  {
    var t := Step(s, e);
    match e {
      case HandleAction(now, fetch, race) =>
        var rest := s.(actions := s.actions[1..]);
        assert forall a :: AccountOf(rest, a) == AccountOf(s, a);
        match s.actions[0] {
          case GetToken(a, ch) => GetKeepsGone(rest, a, ch, now, fetch, n, f);
          case Invalidate(a) => InvalidateKeepsGone(rest, a, race, n, f);
        }
      case HandleCompletion => CompletedKeepsGone(s, n, f);
      case _ =>
        assert forall a :: AccountOf(t, a) == AccountOf(s, a);
        assert forall i :: 0 <= i < |s.completions| ==> t.completions[i] == s.completions[i];
    }
  }

  lemma {:induction false} GoneOverRun(s: Store, es: seq<Event>, n: nat, f: Fetch)
    requires Gone(s, f) && Silent(s, n, f) && Runs(s, es)
    ensures Silent(After(s, es), n, f)
    decreases |es|
  {
    if es != [] {
      StepKeepsGone(s, es[0], n, f);
      GoneOverRun(Step(s, es[0]), es[1..], n, f);
    }
  }

  /** The step handles an invalidation that aborts fetch `f`. */
  ghost predicate Aborts(s: Store, e: Event, f: Fetch) {
    && Enabled(s, e) && e.HandleAction? && s.actions[0].Invalidate?
    && AccountOf(s, s.actions[0].account).inflight == Some(f)
  }

  /** The result that the aborted fetch has queued already, or queues during the abort. */
  ghost function LateResult(s: Store, e: Event, f: Fetch): Option<Fetched>
    requires Aborts(s, e, f)
  {
    if Pending(s, f) && f in s.outcomes then Some(s.outcomes[f])
    else if f in s.running then e.race
    else None
  }

  /** The late result, if there is one, is queued after the abort. */
  lemma LateResultIsQueued(s: Store, e: Event, f: Fetch) returns (k: nat)
    requires FetchesOk(s) && Aborts(s, e, f) && LateResult(s, e, f).Some?
    ensures
      var t := Step(s, e);
      k < |t.completions| && t.completions[k].fetch == f && t.completions[k].result == LateResult(s, e, f).value
  {
    if Pending(s, f) && f in s.outcomes {
      k :| 0 <= k < |s.completions| && s.completions[k].fetch == f;
      assert CompletionOk(s, s.completions[k]);
      assert Step(s, e).completions[k] == s.completions[k];
    } else {
      k := |s.completions|;
    }
  }

  lemma AbortedIsGone(s: Store, e: Event, f: Fetch)
    requires FetchesOk(s) && Aborts(s, e, f) && LateResult(s, e, f).None?
    ensures Gone(Step(s, e), f)
  {
    var t, a := Step(s, e), s.actions[0].account;
    assert AccountOk(s, a);
    forall i | 0 <= i < |s.completions|
      ensures s.completions[i].fetch != f
    {
      assert CompletionOk(s, s.completions[i]);
    }
    forall b
      ensures
        && AccountOf(t, b).inflight != Some(f)
        && (AccountOf(t, b).token.Some? ==> AccountOf(t, b).token.value.source != f)
    {
      assert AccountOk(s, b);
    }
  }

  /**
   In every reachable state, with anything queued: after an invalidation aborts fetch `f`, some run answers
   with `f`'s result exactly if `f` has a late result, that is, if the step is not clean. And some run hands
   out the token of `f` exactly if the late result is a success.
   */
  lemma AbortedFetchServedExactlyWhen(before: seq<Event>, e: Event, f: Fetch)
    requires Runs(EMPTY, before) && Aborts(After(EMPTY, before), e, f)
    ensures
      var s := After(EMPTY, before);
      && (LateResult(s, e, f).None? <==> Clean(s, e))
      && ((exists es :: AnswersWith(s, e, f, es, false)) <==> !Clean(s, e))
      && ((exists es :: AnswersWith(s, e, f, es, true))
          <==> LateResult(s, e, f).Some? && LateResult(s, e, f).value.Success?)
  {
    var s := After(EMPTY, before);
    AccountedOverRun(EMPTY, before);
    assert AccountOk(s, s.actions[0].account);
    LateMeansUnclean(s, e, f);
    if LateResult(s, e, f).Some? {
      LateAnswers(s, e, f);
      forall es | AnswersWith(s, e, f, es, true)
        ensures LateResult(s, e, f).value.Success?
      {
        AnswersAreLate(s, e, f, es);
      }
    } else {
      forall es
        ensures !AnswersWith(s, e, f, es, false) && !AnswersWith(s, e, f, es, true)
      {
        NothingFromGone(s, e, f, es);
      }
    }
  }

  /** The run goes on after the abort to an answer from `f`, of any kind or only with a token. */
  ghost predicate AnswersWith(s: Store, e: Event, f: Fetch, es: seq<Event>, token: bool)
    requires Enabled(s, e)
  {
    && Runs(Step(s, e), es)
    && exists i :: |s.answers| <= i < |After(Step(s, e), es).answers| &&
         var x := After(Step(s, e), es).answers[i];
         x.fetch == f && (token ==> x.value.Success?)
  }

  lemma LateMeansUnclean(s: Store, e: Event, f: Fetch)
    requires FetchesOk(s) && Aborts(s, e, f)
    ensures LateResult(s, e, f).None? <==> Clean(s, e)
  {
    if i :| 0 <= i < |s.completions| && s.completions[i].fetch == f {
      assert CompletionOk(s, s.completions[i]);
    }
  }

  lemma LateAnswers(s: Store, e: Event, f: Fetch)
    requires FetchesOk(s) && Aborts(s, e, f) && LateResult(s, e, f).Some?
    ensures exists es :: AnswersWith(s, e, f, es, false)
    ensures LateResult(s, e, f).value.Success? ==> exists es :: AnswersWith(s, e, f, es, true)
  {
    var t := Step(s, e);
    var k := LateResultIsQueued(s, e, f);
    var es := QueuedIsServed(t, k, |s.answers|);
    var u := After(t, es);
    var i :| |s.answers| <= i < |u.answers| && u.answers[i].fetch == f
      && u.answers[i].value == ToResponse(LateResult(s, e, f).value);
    assert AnswersWith(s, e, f, es, false);
    assert LateResult(s, e, f).value.Success? ==> AnswersWith(s, e, f, es, true);
  }

  /** Whatever is answered from the aborted fetch is its late result. */
  lemma AnswersAreLate(s: Store, e: Event, f: Fetch, es: seq<Event>)
    requires FetchesOk(s) && ChannelsOk(s) && Aborts(s, e, f)
    requires LateResult(s, e, f).Some? && AnswersWith(s, e, f, es, true)
    ensures LateResult(s, e, f).value.Success?
  {
    var t := Step(s, e);
    StepKeepsFetches(s, e);
    StepKeepsChannels(s, e);
    AccountedOverRun(t, es);
    GrowsOverRun(t, es);
    var k := LateResultIsQueued(s, e, f);
    assert CompletionOk(t, t.completions[k]);
    var u := After(t, es);
    var i :| |s.answers| <= i < |u.answers| && u.answers[i].fetch == f && u.answers[i].value.Success?;
    assert AnswerOk(u, u.answers[i]);
  }

  lemma {:induction false} GrowsOverRun(s: Store, es: seq<Event>)
    requires FetchesOk(s) && Runs(s, es)
    ensures Grows(s, After(s, es))
    decreases |es|
  {
    if es != [] {
      StepGrows(s, es[0]);
      StepKeepsFetches(s, es[0]);
      GrowsOverRun(Step(s, es[0]), es[1..]);
    }
  }

  lemma NothingFromGone(s: Store, e: Event, f: Fetch, es: seq<Event>)
    requires FetchesOk(s) && Aborts(s, e, f) && LateResult(s, e, f).None?
    ensures !AnswersWith(s, e, f, es, false) && !AnswersWith(s, e, f, es, true)
  {
    if Runs(Step(s, e), es) {
      AbortedIsGone(s, e, f);
      assert Step(s, e).answers == s.answers;
      GoneOverRun(Step(s, e), es, |s.answers|, f);
    }
  }

  /** The first request has started its fetch, and the invalidation waits in the inbox. */
  ghost predicate Fetching(s: Store) {
    && s.actions == [Invalidate("a")] && s.completions == [] && s.answers == []
    && AccountOf(s, "a") == AccountState(None, Some(0), [0]) && s.running == map[0 := "a"]
    && s.asked == map[0 := "a"] && s.begun == map[0 := Begun("a", 0)] && s.epochs == map[]
  }

  lemma RequestFetches() returns (es: seq<Event>)
    ensures Runs(EMPTY, es) && Fetching(After(EMPTY, es))
    ensures forall tail :: Runs(After(EMPTY, es), tail) ==>
              Runs(EMPTY, es + tail) && After(EMPTY, es + tail) == After(After(EMPTY, es), tail)
  {
    var ask, get, report := Ask("a", 0), HandleAction(0, 0, None), ReportInvalid("a");
    var s1 := Step(EMPTY, ask);
    var s2 := Step(s1, get);
    var s3 := Step(s2, report);
    assert Fetching(s3) && Runs(s3, []) && After(s3, []) == s3;
    es := [ask, get, report];
    forall tail | Runs(s3, tail)
      ensures Runs(EMPTY, es + tail) && After(EMPTY, es + tail) == After(s3, tail)
    {
      RunOf(s2, report, tail);
      RunOf(s1, get, [report] + tail);
      RunOf(EMPTY, ask, [get] + ([report] + tail));
      assert es + tail == [ask] + ([get] + ([report] + tail));
    }
    assert es + [] == es;
  }

  /** The abort lets the result through, and the next request is answered with it. */
  lemma LateTokenServed(s: Store) returns (es: seq<Event>)
    requires Fetching(s)
    ensures Runs(s, es) && es != [] && !Clean(s, es[0])
    ensures
      var t := After(s, es);
      |t.answers| == 1 && t.answers[0].value == Success("old") && !FreshAnswer(t, t.answers[0])
  {
    var late := Success(TokenData("old", 9));
    var abort, ask, get := HandleAction(0, 1, Some(late)), Ask("a", 1), HandleAction(0, 1, None);
    var s4 := Step(s, abort);
    assert s4.completions == [Completion("a", 0, late)] && AccountOf(s4, "a") == NOTHING && EpochOf(s4, "a") == 1;
    var s5 := Step(s4, ask);
    var s6 := Step(s5, get);
    assert AccountOf(s6, "a") == AccountState(None, Some(1), [1]) && s6.begun[0] == Begun("a", 0);
    var s7 := Step(s6, HandleCompletion);
    assert s7.answers == Responses([1], "a", 0, late, 1) == [Answer(1, "a", 0, ToResponse(late), 1)];
    assert Runs(s7, []) && After(s7, []) == s7;
    RunOf(s6, HandleCompletion, []);
    RunOf(s5, get, [HandleCompletion] + []);
    RunOf(s4, ask, [get] + ([HandleCompletion] + []));
    RunOf(s, abort, [ask] + ([get] + ([HandleCompletion] + [])));
    es := [abort] + ([ask] + ([get] + ([HandleCompletion] + [])));
  }

  /**
   A run of seven steps: a fetch is aborted while its result slips out, and the request made after the
   invalidation is answered with the old token.
   */
  lemma StaleRun() returns (es: seq<Event>, k: nat)
    ensures Runs(EMPTY, es) && k < |es| && Runs(EMPTY, es[..k])
    ensures Enabled(After(EMPTY, es[..k]), es[k]) && !Clean(After(EMPTY, es[..k]), es[k])
    ensures
      var s := After(EMPTY, es);
      |s.answers| == 1 && s.answers[0].value == Success("old") && !FreshAnswer(s, s.answers[0])
  {
    var start := RequestFetches();
    var tail := LateTokenServed(After(EMPTY, start));
    es, k := start + tail, |start|;
    assert es[..k] == start && es[k] == tail[0];
  }
}
