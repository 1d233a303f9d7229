/**
 The access token store: an actor that answers token requests, fetching at most one token
 for all the requests that arrive while a fetch is under way.
 */
module AccessTokens {
  import opened Common

  type Account = string
  type Channel = nat
  type Fetch = nat

  datatype TokenData = TokenData(token: string, expiry: int)

  type Fetched = Result<TokenData, string>

  datatype Action = GetToken(account: Account, channel: Channel) | Invalidate(account: Account)

  /** A stored token, with the fetch it came from. */
  datatype Cached = Cached(data: TokenData, source: Fetch)

  datatype AccountState = AccountState(
    token: Option<Cached>,
    inflight: Option<Fetch>,
    waiters: seq<Channel>)

  const NOTHING := AccountState(None, None, [])

  datatype Completion = Completion(account: Account, fetch: Fetch, result: Fetched)

  /** A response sent, with the number of invalidations of the account handled before it. */
  datatype Answer = Answer(channel: Channel, account: Account, fetch: Fetch, value: Result<string, string>, epoch: nat)

  /** A fetch as it was begun, with the number of invalidations handled before it. */
  datatype Begun = Begun(account: Account, epoch: nat)

  /**
   `accounts` is the actor's own state; `actions` and `completions` are its two inboxes; `running` are the
   fetch tasks alive. The rest is history: who asked, what was sent, what was dropped, what was fetched.
   */
  datatype Store = Store(
    accounts: map<Account, AccountState>,
    actions: seq<Action>,
    completions: seq<Completion>,
    running: map<Fetch, Account>,
    asked: map<Channel, Account>,
    answers: seq<Answer>,
    dropped: seq<Channel>,
    begun: map<Fetch, Begun>,
    outcomes: map<Fetch, Fetched>,
    epochs: map<Account, nat>)

  const EMPTY := Store(map[], [], [], map[], map[], [], [], map[], map[], map[])

  function AccountOf(s: Store, a: Account): AccountState {
    if a in s.accounts then s.accounts[a] else NOTHING
  }

  function EpochOf(s: Store, a: Account): nat {
    if a in s.epochs then s.epochs[a] else 0
  }

  function ToResponse(r: Fetched): Result<string, string> {
    match r
    case Success(data) => Success(data.token)
    case Failure(e) => Failure(e)
  }

  predicate IsExpired(data: TokenData, now: int) {
    now >= data.expiry
  }

  // ---------------------------------------------------------------------------
  // The actor's three reactions

  /** `fetch` is the identity of the fetch this request starts, if it does. */
  function OnGet(s: Store, a: Account, ch: Channel, now: int, fetch: Fetch): Store {
    var st := AccountOf(s, a);
    if st.token.Some? && !IsExpired(st.token.value.data, now) then
      s.(accounts := s.accounts[a := st],
         answers := s.answers
           + [Answer(ch, a, st.token.value.source, Success(st.token.value.data.token), EpochOf(s, a))])
    else if st.inflight.Some? then
      s.(accounts := s.accounts[a := AccountState(None, st.inflight, st.waiters + [ch])])
    else
      s.(accounts := s.accounts[a := AccountState(None, Some(fetch), st.waiters + [ch])],
         running := s.running[fetch := a],
         begun := s.begun[fetch := Begun(a, EpochOf(s, a))])
  }

  /** `race` is what an aborted task manages to send after all, if it does. */
  function OnInvalidate(s: Store, a: Account, race: Option<Fetched>): Store {
    var st := AccountOf(s, a);
    var aborted :=
      if st.inflight.Some? then
        var f := st.inflight.value;
        if f in s.running && race.Some? then
          s.(running := s.running - {f}, completions := s.completions + [Completion(a, f, race.value)],
             outcomes := s.outcomes[f := race.value])
        else
          s.(running := s.running - {f})
      else
        s;
    aborted.(accounts := s.accounts[a := NOTHING],
             dropped := s.dropped + st.waiters,
             epochs := s.epochs[a := EpochOf(s, a) + 1])
  }

  function Responses(waiters: seq<Channel>, a: Account, f: Fetch, r: Fetched, epoch: nat): (answers: seq<Answer>)
    ensures |answers| == |waiters|
  {
    seq(|waiters|, i requires 0 <= i < |waiters| => Answer(waiters[i], a, f, ToResponse(r), epoch))
  }

  function OnCompleted(s: Store, c: Completion): Store {
    var st := AccountOf(s, c.account);
    var token := if c.result.Success? then Some(Cached(c.result.value, c.fetch)) else st.token;
    s.(accounts := s.accounts[c.account := AccountState(token, None, [])],
       answers := s.answers + Responses(st.waiters, c.account, c.fetch, c.result, EpochOf(s, c.account)))
  }

  // ---------------------------------------------------------------------------
  // Runs

  datatype Event =
    | Ask(account: Account, channel: Channel)
    | ReportInvalid(account: Account)
    | HandleAction(now: int, fetch: Fetch, race: Option<Fetched>)
    | FetchEnds(fetch: Fetch, result: Fetched)
    | HandleCompletion

  predicate Enabled(s: Store, e: Event) {
    match e
    case Ask(_, ch) => ch !in s.asked
    case ReportInvalid(_) => true
    case HandleAction(_, fetch, _) => s.actions != [] && fetch !in s.begun
    case FetchEnds(f, _) => f in s.running
    case HandleCompletion => s.completions != []
  }

  function Step(s: Store, e: Event): Store
    requires Enabled(s, e)
  {
    match e
    case Ask(a, ch) => s.(actions := s.actions + [GetToken(a, ch)], asked := s.asked[ch := a])
    case ReportInvalid(a) => s.(actions := s.actions + [Invalidate(a)])
    case HandleAction(now, fetch, race) =>
      var rest := s.(actions := s.actions[1..]);
      (match s.actions[0]
       case GetToken(a, ch) => OnGet(rest, a, ch, now, fetch)
       case Invalidate(a) => OnInvalidate(rest, a, race))
    case FetchEnds(f, result) =>
      s.(running := s.running - {f}, completions := s.completions + [Completion(s.running[f], f, result)],
         outcomes := s.outcomes[f := result])
    case HandleCompletion => OnCompleted(s.(completions := s.completions[1..]), s.completions[0])
  }

  ghost predicate Runs(s: Store, es: seq<Event>)
    decreases |es|
  {
    es == [] || (Enabled(s, es[0]) && Runs(Step(s, es[0]), es[1..]))
  }

  ghost function After(s: Store, es: seq<Event>): Store
    requires Runs(s, es)
    decreases |es|
  {
    if es == [] then s else After(Step(s, es[0]), es[1..])
  }

  // ---------------------------------------------------------------------------
  // Every request is in exactly one place

  ghost predicate Queued(s: Store, ch: Channel, a: Account) {
    GetToken(a, ch) in s.actions
  }

  ghost predicate Waits(s: Store, ch: Channel, a: Account) {
    ch in AccountOf(s, a).waiters
  }

  ghost predicate Answered(s: Store, ch: Channel) {
    exists i :: 0 <= i < |s.answers| && s.answers[i].channel == ch
  }

  ghost predicate Dropped(s: Store, ch: Channel) {
    ch in s.dropped
  }

  /** Each place holds only channels that were asked for, under their own account, without repetition. */
  ghost predicate PlacesOk(s: Store) {
    && (forall ch, a :: Queued(s, ch, a) || Waits(s, ch, a) ==> ch in s.asked && s.asked[ch] == a)
    && (forall i :: 0 <= i < |s.answers| ==>
          s.answers[i].channel in s.asked && s.asked[s.answers[i].channel] == s.answers[i].account)
    && (forall ch :: Dropped(s, ch) ==> ch in s.asked)
  }

  ghost predicate Distinct(l: seq<Channel>) {
    forall i, j :: 0 <= i < j < |l| ==> l[i] != l[j]
  }

  ghost predicate ActionsDistinct(l: seq<Action>) {
    forall i, j :: 0 <= i < j < |l| && l[i].GetToken? ==> l[i] != l[j]
  }

  ghost predicate AnswersDistinct(l: seq<Answer>) {
    forall i, j :: 0 <= i < j < |l| ==> l[i].channel != l[j].channel
  }

  ghost predicate NoRepeats(s: Store) {
    && ActionsDistinct(s.actions)
    && (forall a :: Distinct(AccountOf(s, a).waiters))
    && AnswersDistinct(s.answers)
    && Distinct(s.dropped)
  }

  function One(b: bool): nat {
    if b then 1 else 0
  }

  ghost predicate OnePlace(s: Store, ch: Channel)
    requires ch in s.asked
  {
    var a := s.asked[ch];
    One(Queued(s, ch, a)) + One(Waits(s, ch, a)) + One(Answered(s, ch)) + One(Dropped(s, ch)) == 1
  }

  ghost predicate ChannelsOk(s: Store) {
    PlacesOk(s) && NoRepeats(s) && forall ch :: ch in s.asked ==> OnePlace(s, ch)
  }

  lemma QueueTail(s: Store)
    requires s.actions != [] && NoRepeats(s)
    ensures
      var r := s.(actions := s.actions[1..]);
      forall ch, a :: Queued(r, ch, a) <==> Queued(s, ch, a) && s.actions[0] != GetToken(a, ch)
  {
    var r := s.(actions := s.actions[1..]);
    forall ch, a
      ensures Queued(r, ch, a) <==> Queued(s, ch, a) && s.actions[0] != GetToken(a, ch)
    {
      if Queued(s, ch, a) && s.actions[0] != GetToken(a, ch) {
        var i :| 0 <= i < |s.actions| && s.actions[i] == GetToken(a, ch);
        assert r.actions[i - 1] == GetToken(a, ch);
      }
    }
  }

  lemma OneMoreAnswer(s: Store, t: Store, x: Answer)
    requires t.answers == s.answers + [x]
    ensures forall ch :: Answered(t, ch) <==> Answered(s, ch) || ch == x.channel
  {
    assert t.answers[|s.answers|] == x;
    forall ch | Answered(s, ch)
      ensures Answered(t, ch)
    {
      var i :| 0 <= i < |s.answers| && s.answers[i].channel == ch;
      assert t.answers[i] == s.answers[i];
    }
  }

  // Each of the next lemmas describes one kind of move by its effect on the four places only.

  lemma Arrives(s: Store, t: Store, ch: Channel, a: Account)
    requires ChannelsOk(s) && ch !in s.asked && t.asked == s.asked[ch := a]
    requires forall c, b :: Queued(t, c, b) <==> Queued(s, c, b) || (c == ch && b == a)
    requires forall c, b :: Waits(t, c, b) <==> Waits(s, c, b)
    requires t.answers == s.answers && t.dropped == s.dropped
    ensures PlacesOk(t) && forall c :: c in t.asked ==> OnePlace(t, c)
  {
    forall c | c in t.asked
      ensures OnePlace(t, c)
    {
      assert Answered(t, c) <==> Answered(s, c);
      if c != ch {
        assert OnePlace(s, c);
      }
    }
  }

  /** The request at the head of the inbox is answered or starts to wait. */
  lemma Moves(s: Store, t: Store, ch: Channel, a: Account, waits: bool)
    requires ChannelsOk(s) && t.asked == s.asked && Queued(s, ch, a)
    requires forall c, b :: Queued(t, c, b) <==> Queued(s, c, b) && !(c == ch && b == a)
    requires forall c, b :: Waits(t, c, b) <==> Waits(s, c, b) || (waits && c == ch && b == a)
    requires forall c :: Answered(t, c) <==> Answered(s, c) || (!waits && c == ch)
    requires t.dropped == s.dropped
    requires forall i :: 0 <= i < |t.answers| ==>
               t.answers[i] in s.answers || (t.answers[i].channel == ch && t.answers[i].account == a)
    ensures PlacesOk(t) && forall c :: c in t.asked ==> OnePlace(t, c)
  {
    assert OnePlace(s, ch);
    forall c | c in t.asked
      ensures OnePlace(t, c)
    {
      assert OnePlace(s, c);
    }
  }

  /** All the waiters of an account are answered, or all are dropped. */
  lemma Drains(s: Store, t: Store, a: Account, answered: bool)
    requires ChannelsOk(s) && t.asked == s.asked
    requires forall c, b :: Queued(t, c, b) <==> Queued(s, c, b)
    requires forall c, b :: Waits(t, c, b) <==> Waits(s, c, b) && b != a
    requires forall c :: Answered(t, c) <==> Answered(s, c) || (answered && Waits(s, c, a))
    requires forall c :: Dropped(t, c) <==> Dropped(s, c) || (!answered && Waits(s, c, a))
    requires forall i :: 0 <= i < |t.answers| ==>
               t.answers[i] in s.answers || (Waits(s, t.answers[i].channel, a) && t.answers[i].account == a)
    ensures PlacesOk(t) && forall c :: c in t.asked ==> OnePlace(t, c)
  {
    forall c | c in t.asked
      ensures OnePlace(t, c)
    {
      assert OnePlace(s, c);
      if Waits(s, c, a) {
        assert s.asked[c] == a;
      }
    }
  }

  lemma AskKeepsChannels(s: Store, a: Account, ch: Channel)
    requires ChannelsOk(s) && ch !in s.asked
    ensures ChannelsOk(Step(s, Ask(a, ch)))
  {
    var t := Step(s, Ask(a, ch));
    assert t.actions[|s.actions|] == GetToken(a, ch);
    assert !Queued(s, ch, a);
    assert forall b :: AccountOf(t, b) == AccountOf(s, b);
    assert NoRepeats(t);
    forall c, b
      ensures Queued(t, c, b) <==> Queued(s, c, b) || (c == ch && b == a)
    {
      assert GetToken(b, c) in t.actions <==> GetToken(b, c) in s.actions || GetToken(b, c) == GetToken(a, ch);
    }
    Arrives(s, t, ch, a);
  }

  lemma GetKeepsChannels(s: Store, a: Account, ch: Channel, now: int, fetch: Fetch)
    requires ChannelsOk(s) && s.actions != [] && s.actions[0] == GetToken(a, ch)
    ensures ChannelsOk(OnGet(s.(actions := s.actions[1..]), a, ch, now, fetch))
  {
    var t := OnGet(s.(actions := s.actions[1..]), a, ch, now, fetch);
    assert Queued(s, ch, a) && OnePlace(s, ch);
    GetShape(s.(actions := s.actions[1..]), a, ch, now, fetch);
    assert forall b :: AccountOf(s.(actions := s.actions[1..]), b) == AccountOf(s, b);
    if t.answers == s.answers {
      HeadWaits(s, t, a, ch);
    } else {
      HeadAnswered(s, t, a, ch, t.answers[|s.answers|]);
    }
  }

  /** A request waits or is answered, and touches nothing of other accounts. */
  lemma GetShape(s: Store, a: Account, ch: Channel, now: int, fetch: Fetch)
    ensures
      var t, w := OnGet(s, a, ch, now, fetch), AccountOf(s, a).waiters;
      && t.actions == s.actions && t.asked == s.asked && t.dropped == s.dropped
      && (forall b :: b != a ==> AccountOf(t, b) == AccountOf(s, b))
      && (|| (t.answers == s.answers && AccountOf(t, a).waiters == w + [ch])
          || (AccountOf(t, a).waiters == w && AnswersNext(s, t, ch, a)))
  {
    var t, st := OnGet(s, a, ch, now, fetch), AccountOf(s, a);
    if st.token.Some? && !IsExpired(st.token.value.data, now) {
      assert AccountOf(t, a) == st && AnswersNext(s, t, ch, a);
    } else if st.inflight.Some? {
      assert AccountOf(t, a) == AccountState(None, st.inflight, st.waiters + [ch]);
    } else {
      assert AccountOf(t, a) == AccountState(None, Some(fetch), st.waiters + [ch]);
    }
  }

  ghost predicate AnswersNext(s: Store, t: Store, ch: Channel, a: Account) {
    && |t.answers| == |s.answers| + 1 && t.answers == s.answers + [t.answers[|s.answers|]]
    && t.answers[|s.answers|].channel == ch && t.answers[|s.answers|].account == a
  }

  lemma HeadWaits(s: Store, t: Store, a: Account, ch: Channel)
    requires ChannelsOk(s) && s.actions != [] && s.actions[0] == GetToken(a, ch) && !Waits(s, ch, a)
    requires t.actions == s.actions[1..] && t.asked == s.asked && t.answers == s.answers && t.dropped == s.dropped
    requires AccountOf(t, a).waiters == AccountOf(s, a).waiters + [ch]
    requires forall b :: b != a ==> AccountOf(t, b).waiters == AccountOf(s, b).waiters
    ensures ChannelsOk(t)
  {
    QueueTail(s);
    assert Queued(s, ch, a);
    assert forall c :: Answered(t, c) <==> Answered(s, c);
    Moves(s, t, ch, a, true);
  }

  lemma HeadAnswered(s: Store, t: Store, a: Account, ch: Channel, x: Answer)
    requires ChannelsOk(s) && s.actions != [] && s.actions[0] == GetToken(a, ch) && !Answered(s, ch)
    requires t.actions == s.actions[1..] && t.asked == s.asked && t.dropped == s.dropped
    requires t.answers == s.answers + [x] && x.channel == ch && x.account == a
    requires forall b :: AccountOf(t, b).waiters == AccountOf(s, b).waiters
    ensures ChannelsOk(t)
  {
    QueueTail(s);
    OneMoreAnswer(s, t, x);
    assert Queued(s, ch, a);
    Moves(s, t, ch, a, false);
  }

  /** The waiters of an account leave together; the head of the inbox, if it goes too, carries no channel. */
  lemma AllDropped(s: Store, t: Store, a: Account)
    requires ChannelsOk(s) && s.actions != [] && s.actions[0].Invalidate?
    requires t.actions == s.actions[1..] && t.asked == s.asked && t.answers == s.answers
    requires t.dropped == s.dropped + AccountOf(s, a).waiters && AccountOf(t, a).waiters == []
    requires forall b :: b != a ==> AccountOf(t, b).waiters == AccountOf(s, b).waiters
    ensures ChannelsOk(t)
  {
    QueueTail(s);
    var w := AccountOf(s, a).waiters;
    assert forall c :: Answered(t, c) <==> Answered(s, c);
    forall c
      ensures Dropped(t, c) <==> Dropped(s, c) || Waits(s, c, a)
    {
    }
    forall i | 0 <= i < |w|
      ensures w[i] !in s.dropped
    {
      assert Waits(s, w[i], a) && OnePlace(s, w[i]);
    }
    Drains(s, t, a, false);
  }

  /** `sent` answers the waiters of the account, in order. */
  ghost predicate AnswersAll(s: Store, t: Store, a: Account, sent: seq<Answer>) {
    && t.answers == s.answers + sent && |sent| == |AccountOf(s, a).waiters|
    && forall i :: 0 <= i < |sent| ==> sent[i].channel == AccountOf(s, a).waiters[i] && sent[i].account == a
  }

  lemma AnsweredMore(s: Store, t: Store, a: Account, sent: seq<Answer>, c: Channel)
    requires AnswersAll(s, t, a, sent)
    ensures Answered(t, c) <==> Answered(s, c) || Waits(s, c, a)
  {
    var w := AccountOf(s, a).waiters;
    if Answered(s, c) {
      var i :| 0 <= i < |s.answers| && s.answers[i].channel == c;
      assert t.answers[i].channel == c;
    }
    if Waits(s, c, a) {
      var i :| 0 <= i < |w| && w[i] == c;
      assert t.answers[|s.answers| + i] == sent[i];
    }
  }

  lemma AnswersStayDistinct(s: Store, t: Store, a: Account, sent: seq<Answer>)
    requires ChannelsOk(s) && AnswersAll(s, t, a, sent)
    ensures AnswersDistinct(t.answers)
  {
    var w := AccountOf(s, a).waiters;
    forall i, j | 0 <= i < |s.answers| && 0 <= j < |sent|
      ensures s.answers[i].channel != sent[j].channel
    {
      assert Waits(s, w[j], a) && OnePlace(s, w[j]);
    }
    forall i, j | 0 <= i < j < |sent|
      ensures sent[i].channel != sent[j].channel
    {
      assert Distinct(w);
    }
  }

  lemma AllAnswered(s: Store, t: Store, a: Account, sent: seq<Answer>)
    requires ChannelsOk(s) && AnswersAll(s, t, a, sent)
    requires t.actions == s.actions && t.asked == s.asked && t.dropped == s.dropped
    requires AccountOf(t, a).waiters == []
    requires forall b :: b != a ==> AccountOf(t, b).waiters == AccountOf(s, b).waiters
    ensures ChannelsOk(t)
  {
    forall c
      ensures Answered(t, c) <==> Answered(s, c) || Waits(s, c, a)
    {
      AnsweredMore(s, t, a, sent, c);
    }
    forall i | 0 <= i < |t.answers|
      ensures t.answers[i] in s.answers || (Waits(s, t.answers[i].channel, a) && t.answers[i].account == a)
    {
      assert i < |s.answers| ==> t.answers[i] == s.answers[i];
      assert i >= |s.answers| ==> t.answers[i] == sent[i - |s.answers|];
    }
    AnswersStayDistinct(s, t, a, sent);
    assert forall b :: Distinct(AccountOf(t, b).waiters);
    Drains(s, t, a, true);
  }

  lemma StepKeepsChannels(s: Store, e: Event)
    requires ChannelsOk(s) && Enabled(s, e)
    ensures ChannelsOk(Step(s, e))
  {
    var t := Step(s, e);
    match e {
      case Ask(a, ch) =>
        AskKeepsChannels(s, a, ch);
      case ReportInvalid(a) =>
        assert forall c, b :: GetToken(b, c) in t.actions <==> GetToken(b, c) in s.actions;
        ChannelsUntouched(s, t);
      case HandleAction(now, fetch, race) =>
        match s.actions[0] {
          case GetToken(a, ch) => GetKeepsChannels(s, a, ch, now, fetch);
          case Invalidate(a) => AllDropped(s, t, a);
        }
      case FetchEnds(_, _) =>
        ChannelsUntouched(s, t);
      case HandleCompletion =>
        var c := s.completions[0];
        AllAnswered(s, t, c.account,
                    Responses(AccountOf(s, c.account).waiters, c.account, c.fetch, c.result, EpochOf(s, c.account)));
    }
  }

  lemma ChannelsUntouched(s: Store, t: Store)
    requires ChannelsOk(s) && t.accounts == s.accounts
    requires t.asked == s.asked && t.answers == s.answers && t.dropped == s.dropped
    requires ActionsDistinct(t.actions) && forall c, a :: Queued(t, c, a) <==> Queued(s, c, a)
    ensures ChannelsOk(t)
  {
    assert forall a :: AccountOf(t, a) == AccountOf(s, a);
    assert forall c, a :: Waits(t, c, a) <==> Waits(s, c, a);
    forall c | c in t.asked
      ensures OnePlace(t, c)
    {
      assert OnePlace(s, c);
      assert Answered(t, c) <==> Answered(s, c);
    }
  }
}
