/**
 Shared availability flags, the broadcast of every change, and the tasks that wait for a
 flag to clear.
 */
module ApiAvailability {
  import opened Common

  datatype State = State(suspended: bool, pauseBackground: bool, offline: bool, inactive: bool)

  predicate IsBackgroundPaused(s: State) {
    s.offline || s.pauseBackground || s.suspended || s.inactive
  }

  /** What a task may wait for. */
  datatype Want = Unsuspended | BackgroundAllowed | Online

  predicate Ready(want: Want, s: State) {
    match want
    case Unsuspended => !s.suspended
    case BackgroundAllowed => !IsBackgroundPaused(s)
    case Online => !s.offline
  }

  /**
   Positions count broadcasts: `since` at subscription, `checked` at the first look at the state, `next`
   the one to receive next. A task that returned had seen the state after `seen` broadcasts, when `sent`
   had been sent.
   */
  datatype Waiter =
    | Subscribed(want: Want, since: nat)
    | Looping(want: Want, since: nat, checked: nat, next: nat)
    | Returned(want: Want, since: nat, ok: bool, seen: nat, sent: nat)

  type TaskId = nat

  /** `broadcasts` are all states ever sent; the channel keeps the last `capacity` of them. */
  datatype Hub = Hub(
    initial: State,
    state: State,
    broadcasts: seq<State>,
    capacity: nat,
    timerRunning: bool,
    waiters: map<TaskId, Waiter>)

  function New(initial: State, capacity: nat): Hub {
    ResetTimer(Hub(initial, initial, [], capacity, false, map[]))
  }

  /** The state after `t` broadcasts. */
  function StateAt(h: Hub, t: nat): State
    requires t <= |h.broadcasts|
  {
    if t == 0 then h.initial else h.broadcasts[t - 1]
  }

  // ---------------------------------------------------------------------------
  // Flag changes, each under the mutex

  function Send(h: Hub, state: State): Hub {
    h.(state := state, broadcasts := h.broadcasts + [state])
  }

  function Suspend(h: Hub): Hub {
    if !h.state.suspended then Send(h, h.state.(suspended := true)) else h
  }

  function Unsuspend(h: Hub): Hub {
    if h.state.suspended then Send(h, h.state.(suspended := false)) else h
  }

  function SetInactive(h: Hub): Hub {
    if !h.state.inactive then Send(h, h.state.(inactive := true)) else h
  }

  function SetActive(h: Hub): Hub {
    if h.state.inactive then Send(h, h.state.(inactive := false)) else h
  }

  function SetOffline(h: Hub, offline: bool): Hub {
    if h.state.offline != offline then Send(h, h.state.(offline := offline)) else h
  }

  function PauseBackground(h: Hub): Hub {
    if !h.state.pauseBackground then Send(h, h.state.(pauseBackground := true)) else h
  }

  function ResumeBackground(h: Hub): Hub {
    if h.state.pauseBackground then Send(h, h.state.(pauseBackground := false)) else h
  }

  function StopTimer(h: Hub): Hub {
    h.(timerRunning := false)
  }

  function ResetTimer(h: Hub): Hub {
    SetActive(StopTimer(h).(timerRunning := true))
  }

  // ---------------------------------------------------------------------------
  // Waiting

  function FirstCheck(h: Hub, w: Waiter): Waiter
    requires w.Subscribed?
  {
    if Ready(w.want, h.state) then Returned(w.want, w.since, true, |h.broadcasts|, |h.broadcasts|)
    else Looping(w.want, w.since, |h.broadcasts|, w.since)
  }

  predicate Lagged(h: Hub, w: Waiter)
    requires w.Looping?
  {
    w.next + h.capacity < |h.broadcasts|
  }

  function Receive(h: Hub, w: Waiter): Waiter
    requires w.Looping? && w.next < |h.broadcasts|
  {
    if Lagged(h, w) then Returned(w.want, w.since, false, w.next, |h.broadcasts|)
    else if Ready(w.want, h.broadcasts[w.next]) then Returned(w.want, w.since, true, w.next + 1, |h.broadcasts|)
    else w.(next := w.next + 1)
  }

  // ---------------------------------------------------------------------------
  // Runs

  datatype Event =
    | DoSuspend | DoUnsuspend | TimerFires | DoSetOffline(offline: bool)
    | DoPauseBackground | DoResumeBackground | DoStopTimer | DoResetTimer
    | Subscribe(task: TaskId, want: Want)
    | Check(task: TaskId)
    | Recv(task: TaskId)

  predicate Enabled(h: Hub, e: Event) {
    match e
    case Subscribe(task, _) => task !in h.waiters
    case Check(task) => task in h.waiters && h.waiters[task].Subscribed?
    case Recv(task) => task in h.waiters && h.waiters[task].Looping? && h.waiters[task].next < |h.broadcasts|
    case _ => true
  }

  function Step(h: Hub, e: Event): Hub
    requires Enabled(h, e)
  {
    match e
    case DoSuspend => Suspend(h)
    case DoUnsuspend => Unsuspend(h)
    case TimerFires => SetInactive(h)
    case DoSetOffline(offline) => SetOffline(h, offline)
    case DoPauseBackground => PauseBackground(h)
    case DoResumeBackground => ResumeBackground(h)
    case DoStopTimer => StopTimer(h)
    case DoResetTimer => ResetTimer(h)
    case Subscribe(task, want) => h.(waiters := h.waiters[task := Subscribed(want, |h.broadcasts|)])
    case Check(task) => h.(waiters := h.waiters[task := FirstCheck(h, h.waiters[task])])
    case Recv(task) => h.(waiters := h.waiters[task := Receive(h, h.waiters[task])])
  }

  ghost predicate Runs(h: Hub, es: seq<Event>)
    decreases |es|
  {
    es == [] || (Enabled(h, es[0]) && Runs(Step(h, es[0]), es[1..]))
  }

  ghost function After(h: Hub, es: seq<Event>): Hub
    requires Runs(h, es)
    decreases |es|
  {
    if es == [] then h else After(Step(h, es[0]), es[1..])
  }

  // ---------------------------------------------------------------------------
  // Invariants

  /** The last broadcast is the current state, and each broadcast is a change. */
  ghost predicate BroadcastsOk(h: Hub) {
    && StateAt(h, |h.broadcasts|) == h.state
    && forall t: nat :: t < |h.broadcasts| ==> StateAt(h, t) != h.broadcasts[t]
  }

  ghost predicate WaiterOk(h: Hub, w: Waiter) {
    match w
    case Subscribed(_, since) => since <= |h.broadcasts|
    case Looping(want, since, checked, next) =>
      && since <= checked <= |h.broadcasts| && since <= next <= |h.broadcasts|
      && !Ready(want, StateAt(h, checked))
      && (forall t :: since < t <= next ==> !Ready(want, StateAt(h, t)))
    case Returned(_, _, _, _, _) => ReturnOk(h, w)
  }

  /** Success means the last state seen was a good one; failure means falling behind, with nothing good seen. */
  ghost predicate ReturnOk(h: Hub, w: Waiter)
    requires w.Returned?
  {
    && w.since <= w.seen <= w.sent <= |h.broadcasts|
    && (w.ok <==> w.sent <= w.seen + h.capacity)
    && (w.ok ==> Ready(w.want, StateAt(h, w.seen)))
    && (!w.ok ==> forall t :: w.since < t <= w.seen ==> !Ready(w.want, StateAt(h, t)))
  }

  ghost predicate WaitersOk(h: Hub) {
    forall task :: task in h.waiters ==> WaiterOk(h, h.waiters[task])
  }

  ghost predicate Extends(h: Hub, k: Hub) {
    h.initial == k.initial && h.capacity == k.capacity && h.broadcasts <= k.broadcasts
  }

  lemma SendKeeps(h: Hub, state: State)
    requires BroadcastsOk(h) && state != h.state
    ensures BroadcastsOk(Send(h, state))
  {
    var k := Send(h, state);
    assert forall t: nat :: t <= |h.broadcasts| ==> StateAt(k, t) == StateAt(h, t);
  }

  lemma StepExtends(h: Hub, e: Event)
    requires BroadcastsOk(h) && Enabled(h, e)
    ensures Extends(h, Step(h, e)) && BroadcastsOk(Step(h, e))
  {
    var k := Step(h, e);
    if k.state != h.state {
      SendKeeps(h, k.state);
      BroadcastsAre(Send(h, k.state), k);
    } else {
      BroadcastsAre(h, k);
    }
  }

  /** The broadcasts' invariant does not look at timers or waiters. */
  lemma BroadcastsAre(h: Hub, k: Hub)
    requires BroadcastsOk(h) && k.initial == h.initial && k.state == h.state && k.broadcasts == h.broadcasts
    ensures BroadcastsOk(k)
  {
    assert forall t: nat :: t <= |h.broadcasts| ==> StateAt(k, t) == StateAt(h, t);
  }

  lemma WaiterStays(h: Hub, k: Hub, w: Waiter)
    requires WaiterOk(h, w) && Extends(h, k)
    ensures WaiterOk(k, w)
  {
    assert forall t: nat :: t <= |h.broadcasts| ==> StateAt(k, t) == StateAt(h, t);
  }

  lemma CheckKeeps(h: Hub, w: Waiter)
    requires BroadcastsOk(h) && WaiterOk(h, w) && w.Subscribed?
    ensures WaiterOk(h, FirstCheck(h, w))
  {
    assert StateAt(h, |h.broadcasts|) == h.state;
  }

  lemma ReceiveKeeps(h: Hub, w: Waiter)
    requires WaiterOk(h, w) && w.Looping? && w.next < |h.broadcasts|
    ensures WaiterOk(h, Receive(h, w))
  {
    assert StateAt(h, w.next + 1) == h.broadcasts[w.next];
  }

  lemma StepKeepsWaiters(h: Hub, e: Event)
    requires BroadcastsOk(h) && WaitersOk(h) && Enabled(h, e)
    ensures WaitersOk(Step(h, e))
  {
    var k := Step(h, e);
    StepExtends(h, e);
    forall task | task in k.waiters
      ensures WaiterOk(k, k.waiters[task])
    {
      if e.Check? && e.task == task {
        CheckKeeps(h, h.waiters[task]);
        WaiterStays(h, k, k.waiters[task]);
      } else if e.Recv? && e.task == task {
        ReceiveKeeps(h, h.waiters[task]);
        WaiterStays(h, k, k.waiters[task]);
      } else if task in h.waiters {
        WaiterStays(h, k, h.waiters[task]);
      }
    }
  }

  lemma {:induction false} InvOverRun(h: Hub, es: seq<Event>)
    requires BroadcastsOk(h) && WaitersOk(h) && Runs(h, es)
    ensures BroadcastsOk(After(h, es)) && WaitersOk(After(h, es))
    decreases |es|
  {
    if es != [] {
      StepExtends(h, es[0]);
      StepKeepsWaiters(h, es[0]);
      InvOverRun(Step(h, es[0]), es[1..]);
    }
  }

  // ---------------------------------------------------------------------------
  // The flags say what was last asked of them

  datatype Flag = Suspension | Pause | Offline | Inactivity

  function Get(state: State, flag: Flag): bool {
    match flag
    case Suspension => state.suspended
    case Pause => state.pauseBackground
    case Offline => state.offline
    case Inactivity => state.inactive
  }

  /** What an event asks of a flag, if anything. */
  function Asks(e: Event, flag: Flag): Option<bool> {
    match flag
    case Suspension => if e.DoSuspend? then Some(true) else if e.DoUnsuspend? then Some(false) else None
    case Pause => if e.DoPauseBackground? then Some(true) else if e.DoResumeBackground? then Some(false) else None
    case Offline => if e.DoSetOffline? then Some(e.offline) else None
    case Inactivity => if e.TimerFires? then Some(true) else if e.DoResetTimer? then Some(false) else None
  }

  function LastAsked(es: seq<Event>, flag: Flag, start: bool): bool
    decreases |es|
  {
    if es == [] then start
    else LastAsked(es[1..], flag, if Asks(es[0], flag).Some? then Asks(es[0], flag).value else start)
  }

  lemma StepAnswers(h: Hub, e: Event, flag: Flag)
    requires Enabled(h, e)
    ensures Get(Step(h, e).state, flag) == if Asks(e, flag).Some? then Asks(e, flag).value else Get(h.state, flag)
  {
  }

  /** After any run each flag holds what was last asked of it, whatever happened to the other flags. */
  lemma {:induction false} FlagsAreLastAsked(h: Hub, es: seq<Event>, flag: Flag)
    requires Runs(h, es)
    ensures Get(After(h, es).state, flag) == LastAsked(es, flag, Get(h.state, flag))
    decreases |es|
  {
    if es != [] {
      StepAnswers(h, es[0], flag);
      FlagsAreLastAsked(Step(h, es[0]), es[1..], flag);
    }
  }

  /** Whether the inactivity timer was last started or stopped. */
  function TimerAsked(es: seq<Event>, start: bool): bool
    decreases |es|
  {
    if es == [] then start
    else TimerAsked(es[1..], if es[0].DoResetTimer? then true else if es[0].DoStopTimer? then false else start)
  }

  /** The timer counts as running exactly from a reset to the next stop, whether or not it fires in between. */
  lemma {:induction false} TimerIsLastAsked(h: Hub, es: seq<Event>)
    requires Runs(h, es)
    ensures After(h, es).timerRunning == TimerAsked(es, h.timerRunning)
    decreases |es|
  {
    if es != [] {
      TimerIsLastAsked(Step(h, es[0]), es[1..]);
    }
  }

  /** From a new hub on: it starts out active, with the timer running, and otherwise as given. */
  lemma FlagsFromTheStart(initial: State, capacity: nat, es: seq<Event>, flag: Flag)
    requires Runs(New(initial, capacity), es)
    ensures
      var h := After(New(initial, capacity), es);
      && Get(h.state, flag) == LastAsked(es, flag, !flag.Inactivity? && Get(initial, flag))
      && h.timerRunning == TimerAsked(es, true)
  {
    FlagsAreLastAsked(New(initial, capacity), es, flag);
    TimerIsLastAsked(New(initial, capacity), es);
  }

  // ---------------------------------------------------------------------------
  // No lost wake-up

  /** A state that would wake the waiter, seen at or after its first check, is still ahead of it. */
  lemma WakeUpIsPending(h: Hub, w: Waiter, t: nat)
    requires WaiterOk(h, w) && w.Looping? && w.checked <= t <= |h.broadcasts| && Ready(w.want, StateAt(h, t))
    ensures w.next < t && Ready(w.want, h.broadcasts[t - 1])
  {
  }

  function Receives(es: seq<Event>, task: TaskId): nat {
    if es == [] then 0 else (if es[0] == Recv(task) then 1 else 0) + Receives(es[1..], task)
  }

  /** The task's receiver has not fallen behind at any of its own receives. */
  ghost predicate KeepsUp(h: Hub, es: seq<Event>, task: TaskId)
    requires Runs(h, es)
    decreases |es|
  {
    es != [] ==>
      && (es[0] == Recv(task) ==> !Lagged(h, h.waiters[task]))
      && KeepsUp(Step(h, es[0]), es[1..], task)
  }

  /** Woken with success, or still waiting for the state after `t` broadcasts with its next receive possible. */
  ghost predicate OnItsWay(h: Hub, k: Hub, task: TaskId, t: nat, received: nat)
    requires task in h.waiters && h.waiters[task].Looping?
  {
    var w := h.waiters[task];
    task in k.waiters &&
    match k.waiters[task]
    case Returned(want, since, ok, _, _) => want == w.want && since == w.since && ok && received <= t - w.next
    case Looping(want, since, _, next) =>
      want == w.want && since == w.since && next == w.next + received && next < t <= |k.broadcasts|
    case Subscribed(_, _) => false
  }

  /** A state that could wake the waiter has been sent, and the waiter has seen nothing good so far. */
  ghost predicate WakeUpAhead(h: Hub, task: TaskId, t: nat) {
    && task in h.waiters && h.waiters[task].Looping?
    && h.waiters[task].next < t <= |h.broadcasts| && Ready(h.waiters[task].want, StateAt(h, t))
  }

  lemma OthersKeepAhead(h: Hub, e: Event, task: TaskId, t: nat)
    requires BroadcastsOk(h) && WakeUpAhead(h, task, t) && Enabled(h, e) && e != Recv(task)
    ensures WakeUpAhead(Step(h, e), task, t) && Step(h, e).waiters[task] == h.waiters[task]
  {
    StepExtends(h, e);
    assert StateAt(Step(h, e), t) == StateAt(h, t);
  }

  lemma ReceiveKeepsAhead(h: Hub, task: TaskId, t: nat)
    requires WakeUpAhead(h, task, t) && !Lagged(h, h.waiters[task])
    ensures
      var w, k := h.waiters[task], Step(h, Recv(task));
      if Ready(w.want, h.broadcasts[w.next]) then
        k.waiters[task] == Returned(w.want, w.since, true, w.next + 1, |h.broadcasts|)
      else
        WakeUpAhead(k, task, t) && k.waiters[task] == w.(next := w.next + 1)
  {
    var k := Step(h, Recv(task));
    assert StateAt(k, t) == StateAt(h, t);
    assert StateAt(h, h.waiters[task].next + 1) == h.broadcasts[h.waiters[task].next];
  }

  lemma {:induction false} ReturnedStays(h: Hub, es: seq<Event>, task: TaskId)
    requires Runs(h, es) && task in h.waiters && h.waiters[task].Returned?
    ensures task in After(h, es).waiters && After(h, es).waiters[task] == h.waiters[task] && Receives(es, task) == 0
    decreases |es|
  {
    if es != [] {
      ReturnedStays(Step(h, es[0]), es[1..], task);
    }
  }

  /** Whatever else happens, receives alone bring a waiter that keeps up to success, in at most `t - next` of them. */
  lemma {:induction false} WakesUp(h: Hub, es: seq<Event>, task: TaskId, t: nat)
    requires BroadcastsOk(h) && WakeUpAhead(h, task, t) && Runs(h, es) && KeepsUp(h, es, task)
    ensures OnItsWay(h, After(h, es), task, t, Receives(es, task))
    decreases |es|
  {
    if es != [] {
      StepExtends(h, es[0]);
      var k := Step(h, es[0]);
      if es[0] != Recv(task) {
        OthersKeepAhead(h, es[0], task, t);
        WakesUp(k, es[1..], task, t);
      } else {
        ReceiveKeepsAhead(h, task, t);
        if k.waiters[task].Returned? {
          ReturnedStays(k, es[1..], task);
        } else {
          WakesUp(k, es[1..], task, t);
        }
      }
    }
  }

  /** The flags that stand in the way of each want. */
  ghost predicate Clear(want: Want, state: State) {
    && (want.Online? ==> !state.offline)
    && (want.Unsuspended? ==> !state.suspended)
    && (want.BackgroundAllowed? ==>
          !state.offline && !state.suspended && !state.pauseBackground && !state.inactive)
  }

  lemma ReadyIsClear(want: Want, state: State)
    ensures Ready(want, state) <==> Clear(want, state)
  {
  }

  /**
   Over every run: the last broadcast, or the initial state, is the current state, and broadcasts are
   exactly the changes. A task returned an error exactly if its receiver had fallen behind by more than the
   channel keeps, and else returned on a state that satisfied it; nothing it saw before did.
   */
  lemma ReturnsAreRight(initial: State, capacity: nat, es: seq<Event>, task: TaskId)
    requires Runs(New(initial, capacity), es) && task in After(New(initial, capacity), es).waiters
    ensures
      var h := After(New(initial, capacity), es);
      var w := h.waiters[task];
      && BroadcastsOk(h)
      && (w.Returned? ==>
            && w.since <= w.seen <= w.sent <= |h.broadcasts|
            && (w.ok <==> w.sent <= w.seen + capacity)
            && (w.ok ==> Clear(w.want, StateAt(h, w.seen)))
            && (!w.ok ==> forall t :: w.since < t <= w.seen ==> !Clear(w.want, StateAt(h, t))))
      && (w.Looping? ==>
            && (forall t :: w.since < t <= w.next && t <= |h.broadcasts| ==> !Clear(w.want, StateAt(h, t)))
            && forall t: nat :: w.checked <= t <= |h.broadcasts| && Clear(w.want, StateAt(h, t)) ==> w.next < t)
  {
    InvOverRun(New(initial, capacity), es);
    CapacityStays(New(initial, capacity), es);
    var h := After(New(initial, capacity), es);
    var w := h.waiters[task];
    assert WaiterOk(h, w);
    forall t: nat | t <= |h.broadcasts|
      ensures Ready(w.want, StateAt(h, t)) <==> Clear(w.want, StateAt(h, t))
    {
      ReadyIsClear(w.want, StateAt(h, t));
    }
    if w.Looping? {
      forall t: nat | w.checked <= t <= |h.broadcasts| && Clear(w.want, StateAt(h, t))
        ensures w.next < t
      {
        WakeUpIsPending(h, w, t);
      }
    }
  }

  lemma {:induction false} CapacityStays(h: Hub, es: seq<Event>)
    requires Runs(h, es)
    ensures After(h, es).capacity == h.capacity
    decreases |es|
  {
    if es != [] {
      CapacityStays(Step(h, es[0]), es[1..]);
    }
  }

  /**
   No lost wake-up: a task still waiting after any run, whose condition held at or after its first check,
   returns successfully in every continuation in which its receiver keeps up and receives often enough.
   Until then its next receive is always possible.
   */
  lemma NoLostWakeUp(initial: State, capacity: nat, before: seq<Event>, es: seq<Event>, task: TaskId, t: nat)
    requires Runs(New(initial, capacity), before) && Runs(After(New(initial, capacity), before), es)
    requires
      var h := After(New(initial, capacity), before);
      && task in h.waiters && h.waiters[task].Looping? && KeepsUp(h, es, task)
      && h.waiters[task].checked <= t <= |h.broadcasts| && Clear(h.waiters[task].want, StateAt(h, t))
    ensures
      var h := After(New(initial, capacity), before);
      var w, k := h.waiters[task], After(h, es);
      && w.next < t && task in k.waiters
      && (Receives(es, task) >= t - w.next ==> k.waiters[task].Returned? && k.waiters[task].ok)
      && (k.waiters[task].Returned? ==> k.waiters[task].ok)
      && (!k.waiters[task].Returned? ==> Enabled(k, Recv(task)))
  {
    InvOverRun(New(initial, capacity), before);
    var h := After(New(initial, capacity), before);
    assert WaiterOk(h, h.waiters[task]);
    ReadyIsClear(h.waiters[task].want, StateAt(h, t));
    WakeUpIsPending(h, h.waiters[task], t);
    WakesUp(h, es, task, t);
  }

  // ---------------------------------------------------------------------------
  // The object behind the mutex

  class ApiAvailabilityState {
    const initial: State
    const capacity: nat
    var tx: seq<State>
    var state: State
    var inactivityTimer: bool

    ghost function Value(): Hub
      reads this
    {
      Hub(initial, state, tx, capacity, inactivityTimer, map[])
    }

    ghost predicate Valid()
      reads this
    {
      BroadcastsOk(Value())
    }

    constructor (initialState: State, capacity: nat)
      ensures Valid() && Value() == New(initialState, capacity)
    {
      initial, this.capacity := initialState, capacity;
      tx, state, inactivityTimer := [], initialState, true;
      new;
      MakeActive();
    }

    method Broadcast(newState: State)
      requires Valid() && newState != state
      modifies this`state, this`tx
      ensures Valid() && Value() == Send(old(Value()), newState)
    {
      SendKeeps(Value(), newState);
      state := newState;
      tx := tx + [state];
    }

    method SuspendRequests()
      requires Valid()
      modifies this`state, this`tx
      ensures Valid() && Value() == Suspend(old(Value()))
    {
      if !state.suspended {
        Broadcast(state.(suspended := true));
      }
    }

    method UnsuspendRequests()
      requires Valid()
      modifies this`state, this`tx
      ensures Valid() && Value() == Unsuspend(old(Value()))
    {
      if state.suspended {
        Broadcast(state.(suspended := false));
      }
    }

    method MakeInactive()
      requires Valid()
      modifies this`state, this`tx
      ensures Valid() && Value() == SetInactive(old(Value()))
    {
      if !state.inactive {
        Broadcast(state.(inactive := true));
      }
    }

    method MakeActive()
      requires Valid()
      modifies this`state, this`tx
      ensures Valid() && Value() == SetActive(old(Value()))
    {
      if state.inactive {
        Broadcast(state.(inactive := false));
      }
    }

    method MakeOffline(offline: bool)
      requires Valid()
      modifies this`state, this`tx
      ensures Valid() && Value() == SetOffline(old(Value()), offline)
    {
      if state.offline != offline {
        Broadcast(state.(offline := offline));
      }
    }

    method Pause()
      requires Valid()
      modifies this`state, this`tx
      ensures Valid() && Value() == PauseBackground(old(Value()))
    {
      if !state.pauseBackground {
        Broadcast(state.(pauseBackground := true));
      }
    }

    /** Resuming restarts the inactivity timer if it is running. */
    method Resume()
      requires Valid()
      modifies this
      ensures Valid()
      ensures var h := ResumeBackground(old(Value())); Value() == if h.timerRunning then ResetTimer(h) else h
      ensures !state.pauseBackground && inactivityTimer == old(inactivityTimer)
      ensures state.inactive == (old(state).inactive && !old(inactivityTimer))
      ensures state.suspended == old(state).suspended && state.offline == old(state).offline
    {
      if state.pauseBackground {
        Broadcast(state.(pauseBackground := false));
      }
      if inactivityTimer {
        ResetInactivityTimer();
      }
    }

    method StopInactivityTimer()
      requires Valid()
      modifies this`inactivityTimer
      ensures Valid() && Value() == StopTimer(old(Value())) && !inactivityTimer
    {
      inactivityTimer := false;
    }

    method ResetInactivityTimer()
      requires Valid()
      modifies this
      ensures Valid() && Value() == ResetTimer(old(Value())) && inactivityTimer && !state.inactive
    {
      StopInactivityTimer();
      inactivityTimer := true;
      MakeActive();
    }
  }
}
