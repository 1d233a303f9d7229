/**
 The actor of the token store as an object: its map of account states changed in place by
 the three arms of its loop.
 */
module AccessTokenActor {
  import opened Common
  import opened AccessTokens

  class TokenActor {
    var accountStates: map<Account, AccountState>
    var actions: seq<Action>
    var completions: seq<Completion>
    var running: map<Fetch, Account>
    var responses: seq<(Channel, Result<string, string>)>
    ghost var asked: map<Channel, Account>
    ghost var answers: seq<Answer>
    ghost var dropped: seq<Channel>
    ghost var begun: map<Fetch, Begun>
    ghost var outcomes: map<Fetch, Fetched>
    ghost var epochs: map<Account, nat>

    ghost function Value(): Store
      reads this
    {
      Store(accountStates, actions, completions, running, asked, answers, dropped, begun, outcomes, epochs)
    }

    /** The responses sent are those of the recorded answers, in order. */
    ghost predicate Valid()
      reads this
    {
      && |responses| == |answers|
      && forall i :: 0 <= i < |answers| ==> responses[i] == (answers[i].channel, answers[i].value)
    }

    constructor ()
      ensures Valid() && Value() == EMPTY
    {
      accountStates, actions, completions, running, responses := map[], [], [], map[], [];
      asked, answers, dropped, begun, outcomes, epochs := map[], [], [], map[], map[], map[];
    }

    method Entry(account: Account) returns (state: AccountState)
      ensures state == AccountOf(Value(), account)
    {
      if account in accountStates {
        state := accountStates[account];
      } else {
        state := NOTHING;
      }
    }

    /** Sends one response; `fetch` is where it came from. */
    method Respond(channel: Channel, account: Account, value: Result<string, string>, ghost fetch: Fetch)
      requires Valid()
      modifies this`responses, this`answers
      ensures Valid()
      ensures answers == old(answers) + [Answer(channel, account, fetch, value, EpochOf(Value(), account))]
    {
      responses := responses + [(channel, value)];
      answers := answers + [Answer(channel, account, fetch, value, EpochOf(Value(), account))];
    }

    method GetAccessToken(account: Account, channel: Channel, now: int, fetch: Fetch)
      requires Valid()
      modifies this`accountStates, this`responses, this`answers, this`running, this`begun
      ensures Valid() && Value() == OnGet(old(Value()), account, channel, now, fetch)
    {
      var state := Entry(account);
      if state.token.Some? {
        var held := state.token.value;
        if !IsExpired(held.data, now) {
          Respond(channel, account, Success(held.data.token), held.source);
          accountStates := accountStates[account := state];
          return;
        }
        state := state.(token := None);
      }
      if state.inflight.None? {
        running := running[fetch := account];
        begun := begun[fetch := Begun(account, EpochOf(Value(), account))];
        state := state.(inflight := Some(fetch));
      }
      state := state.(waiters := state.waiters + [channel]);
      accountStates := accountStates[account := state];
    }

    method InvalidateToken(account: Account, race: Option<Fetched>)
      requires Valid()
      modifies this`accountStates, this`running, this`completions, this`outcomes, this`dropped, this`epochs
      ensures Valid() && Value() == OnInvalidate(old(Value()), account, race)
    {
      var state := Entry(account);
      if state.inflight.Some? {
        var task := state.inflight.value;
        if task in running && race.Some? {
          completions := completions + [Completion(account, task, race.value)];
          outcomes := outcomes[task := race.value];
        }
        running := running - {task};
        state := state.(inflight := None);
      }
      dropped := dropped + state.waiters;
      state := state.(waiters := []);
      state := state.(token := None);
      accountStates := accountStates[account := state];
      epochs := epochs[account := EpochOf(Value(), account) + 1];
    }

    method Completed(c: Completion)
      requires Valid()
      modifies this`accountStates, this`responses, this`answers
      ensures Valid() && Value() == OnCompleted(old(Value()), c)
    {
      var state := Entry(c.account);
      ghost var epoch := EpochOf(Value(), c.account);
      ghost var sent := Responses(state.waiters, c.account, c.fetch, c.result, epoch);
      for i := 0 to |state.waiters|
        invariant Valid() && answers == old(answers) + sent[..i]
        invariant accountStates == old(accountStates)
      {
        Respond(state.waiters[i], c.account, ToResponse(c.result), c.fetch);
        assert sent[..i + 1] == sent[..i] + [sent[i]];
      }
      assert sent[..|state.waiters|] == sent;
      state := state.(inflight := None, waiters := []);
      match c.result {
        case Success(data) => state := state.(token := Some(Cached(data, c.fetch)));
        case Failure(_) =>
      }
      accountStates := accountStates[c.account := state];
    }

    /** The action arm of the loop. */
    method HandleNext(now: int, fetch: Fetch, race: Option<Fetched>)
      requires Valid() && Enabled(Value(), HandleAction(now, fetch, race))
      modifies this
      ensures Valid() && Value() == Step(old(Value()), HandleAction(now, fetch, race))
    {
      var action := actions[0];
      actions := actions[1..];
      match action {
        case GetToken(account, channel) => GetAccessToken(account, channel, now, fetch);
        case Invalidate(account) => InvalidateToken(account, race);
      }
    }

    /** The completion arm of the loop. */
    method HandleNextCompletion()
      requires Valid() && Enabled(Value(), HandleCompletion)
      modifies this
      ensures Valid() && Value() == Step(old(Value()), HandleCompletion)
    {
      var c := completions[0];
      completions := completions[1..];
      Completed(c);
    }
  }
}
