/**
 The log stream: writes go to the file while it is open; while it is not, they wait in a
 bounded buffer until a timer manages to reopen the file.
 */
module LogFileOutputStreams {

  type Bytes = seq<bv8>

  datatype Config = Config(header: Bytes, fileSizeLimit: nat, maximumBufferCapacity: nat)

  datatype Phase = Closed | Opened | WaitingToReopen

  /** What the system calls of one step report. */
  datatype Outcome = Outcome(opens: bool, headerWritten: bool, dataWritten: bool)

  const FINE := Outcome(true, true, true)

  /** A stretch of accepted bytes: handed over at once, or buffered until a reopening. */
  datatype Episode = Direct(data: Bytes) | Buffered(data: Bytes)

  /**
   `accepted` are all bytes given to the stream, `handed` the ones given to the file, `sinceFlush` those
   buffered since the last flush, and `episodes` how it came about; these are history.
   */
  datatype Stream = Stream(
    config: Config,
    phase: Phase,
    timer: bool,
    buffer: Bytes,
    accepted: Bytes,
    handed: Bytes,
    sinceFlush: Bytes,
    episodes: seq<Episode>)

  function New(config: Config): Stream {
    Stream(config, Closed, false, [], [], [], [], [])
  }

  function LastBytes(b: Bytes, n: nat): Bytes {
    if |b| > n then b[|b| - n..] else b
  }

  // ---------------------------------------------------------------------------
  // Transitions

  /** Setting the state starts the timer on the way into waiting and stops it on the way out. */
  function SetPhase(s: Stream, phase: Phase): Stream {
    match (s.phase, phase)
    case (Opened, WaitingToReopen) => s.(phase := phase, timer := true)
    case (Closed, WaitingToReopen) => s.(phase := phase, timer := true)
    case (WaitingToReopen, Opened) => s.(phase := phase, timer := false)
    case (WaitingToReopen, Closed) => s.(phase := phase, timer := false)
    case _ => s.(phase := phase)
  }

  /** A chunk larger than the file may be is refused before anything is written. */
  predicate Fits(s: Stream, data: Bytes) {
    |data| <= s.config.fileSizeLimit
  }

  predicate OpensWithHeader(s: Stream, o: Outcome) {
    o.opens && Fits(s, s.config.header) && o.headerWritten
  }

  function BufferData(s: Stream, data: Bytes): Stream {
    s.(buffer := LastBytes(s.buffer + data, s.config.maximumBufferCapacity), sinceFlush := s.sinceFlush + data)
  }

  function HandOver(s: Stream, data: Bytes): Stream {
    s.(handed := s.handed + data, episodes := s.episodes + [Direct(data)])
  }

  function WriteOpened(s: Stream, data: Bytes, o: Outcome): Stream {
    if Fits(s, data) && o.dataWritten then HandOver(s, data)
    else SetPhase(BufferData(s, data), WaitingToReopen)
  }

  function Write(s: Stream, data: Bytes, o: Outcome): Stream {
    var t := s.(accepted := s.accepted + data);
    match s.phase
    case Closed =>
      if OpensWithHeader(s, o) then WriteOpened(SetPhase(t, Opened), data, o)
      else SetPhase(BufferData(t, data), WaitingToReopen)
    case Opened => WriteOpened(t, data, o)
    case WaitingToReopen => BufferData(t, data)
  }

  function Flush(s: Stream): Stream {
    s.(buffer := [], handed := s.handed + s.buffer, episodes := s.episodes + [Buffered(s.sinceFlush)], sinceFlush := [])
  }

  function Reopen(s: Stream, o: Outcome): Stream {
    if OpensWithHeader(s, o) && (s.buffer == [] || (Fits(s, s.buffer) && o.dataWritten)) then
      SetPhase(Flush(s), Opened)
    else
      SetPhase(s, WaitingToReopen)
  }

  datatype Event = Writes(data: Bytes, outcome: Outcome) | TimerFires(outcome: Outcome)

  predicate Enabled(s: Stream, e: Event) {
    e.TimerFires? ==> s.timer
  }

  function Step(s: Stream, e: Event): Stream {
    match e
    case Writes(data, o) => Write(s, data, o)
    case TimerFires(o) => Reopen(s, o)
  }

  ghost predicate Runs(s: Stream, es: seq<Event>)
    decreases |es|
  {
    es == [] || (Enabled(s, es[0]) && Runs(Step(s, es[0]), es[1..]))
  }

  function After(s: Stream, es: seq<Event>): Stream
    decreases |es|
  {
    if es == [] then s else After(Step(s, es[0]), es[1..])
  }

  // ---------------------------------------------------------------------------
  // The buffer and the timer

  /** All the bytes of the episodes. */
  function Everything(eps: seq<Episode>): Bytes {
    if eps == [] then [] else Everything(eps[..|eps| - 1]) + eps[|eps| - 1].data
  }

  function KeptOf(e: Episode, capacity: nat): Bytes {
    match e
    case Direct(data) => data
    case Buffered(data) => LastBytes(data, capacity)
  }

  /** What of them should reach the file: direct bytes all, buffered bytes the last `capacity`. */
  function Kept(eps: seq<Episode>, capacity: nat): Bytes {
    if eps == [] then [] else Kept(eps[..|eps| - 1], capacity) + KeptOf(eps[|eps| - 1], capacity)
  }

  predicate BufferOk(s: Stream) {
    && (s.timer <==> s.phase.WaitingToReopen?)
    && s.buffer == LastBytes(s.sinceFlush, s.config.maximumBufferCapacity)
    && (s.sinceFlush != [] ==> s.phase.WaitingToReopen?)
  }

  predicate HistoryOk(s: Stream) {
    && s.accepted == Everything(s.episodes) + s.sinceFlush
    && s.handed == Kept(s.episodes, s.config.maximumBufferCapacity)
  }

  lemma LastBytesAgain(b: Bytes, data: Bytes, n: nat)
    ensures LastBytes(LastBytes(b, n) + data, n) == LastBytes(b + data, n)
  {
    var c := LastBytes(b, n);
    if |b| > n {
      assert b == b[..|b| - n] + c;
      assert b + data == b[..|b| - n] + (c + data);
    }
  }

  lemma StepKeepsBuffer(s: Stream, e: Event)
    requires BufferOk(s) && Enabled(s, e)
    ensures BufferOk(Step(s, e))
  {
    if e.Writes? {
      LastBytesAgain(s.sinceFlush, e.data, s.config.maximumBufferCapacity);
    }
  }

  lemma EpisodeAdded(eps: seq<Episode>, e: Episode, capacity: nat)
    ensures Everything(eps + [e]) == Everything(eps) + e.data
    ensures Kept(eps + [e], capacity) == Kept(eps, capacity) + KeptOf(e, capacity)
  {
    assert (eps + [e])[..|eps|] == eps;
  }

  /** A write hands its bytes over or buffers them. */
  lemma WriteShape(s: Stream, data: Bytes, o: Outcome)
    ensures
      var t := Write(s, data, o);
      && t.config == s.config && t.accepted == s.accepted + data
      && (|| (t.handed == s.handed + data && t.episodes == s.episodes + [Direct(data)] && t.sinceFlush == s.sinceFlush
              && !s.phase.WaitingToReopen?)
          || (t.handed == s.handed && t.episodes == s.episodes && t.sinceFlush == s.sinceFlush + data))
  {
  }

  lemma HandedKeepsHistory(s: Stream, t: Stream, data: Bytes)
    requires HistoryOk(s) && s.sinceFlush == [] && t.sinceFlush == [] && t.config == s.config
    requires t.accepted == s.accepted + data && t.handed == s.handed + data && t.episodes == s.episodes + [Direct(data)]
    ensures HistoryOk(t)
  {
    EpisodeAdded(s.episodes, Direct(data), s.config.maximumBufferCapacity);
  }

  lemma BufferedKeepsHistory(s: Stream, t: Stream, data: Bytes)
    requires HistoryOk(s) && t.config == s.config && t.handed == s.handed && t.episodes == s.episodes
    requires t.accepted == s.accepted + data && t.sinceFlush == s.sinceFlush + data
    ensures HistoryOk(t)
  {
    assert (Everything(s.episodes) + s.sinceFlush) + data == Everything(s.episodes) + (s.sinceFlush + data);
  }

  lemma FlushKeepsHistory(s: Stream)
    requires BufferOk(s) && HistoryOk(s)
    ensures HistoryOk(Flush(s))
  {
    EpisodeAdded(s.episodes, Buffered(s.sinceFlush), s.config.maximumBufferCapacity);
  }

  lemma StepKeepsHistory(s: Stream, e: Event)
    requires BufferOk(s) && HistoryOk(s) && Enabled(s, e)
    ensures HistoryOk(Step(s, e))
  {
    match e {
      case Writes(data, o) =>
        WriteShape(s, data, o);
        var t := Write(s, data, o);
        if t.episodes == s.episodes {
          BufferedKeepsHistory(s, t, data);
        } else {
          HandedKeepsHistory(s, t, data);
        }
      case TimerFires(_) =>
        FlushKeepsHistory(s);
    }
  }

  lemma {:induction false} InvOverRun(s: Stream, es: seq<Event>)
    requires BufferOk(s) && HistoryOk(s) && Runs(s, es)
    ensures BufferOk(After(s, es)) && HistoryOk(After(s, es)) && After(s, es).config == s.config
    decreases |es|
  {
    if es != [] {
      StepKeepsBuffer(s, es[0]);
      StepKeepsHistory(s, es[0]);
      InvOverRun(Step(s, es[0]), es[1..]);
    }
  }

  /**
   In every run the timer is live exactly while the stream waits to reopen, the buffer is non-empty only
   then, and it is the last `maximumBufferCapacity` bytes buffered since the last flush. The accepted bytes
   split, in order, into stretches handed over at once and stretches that were buffered; the file was given,
   in the same order, all of the former and the last `maximumBufferCapacity` bytes of each of the latter.
   */
  lemma NothingReorderedOrInvented(config: Config, es: seq<Event>)
    requires Runs(New(config), es)
    ensures
      var s := After(New(config), es);
      && (s.timer <==> s.phase.WaitingToReopen?)
      && (s.buffer != [] ==> s.phase.WaitingToReopen?)
      && s.buffer == LastBytes(s.sinceFlush, config.maximumBufferCapacity)
      && s.accepted == Everything(s.episodes) + s.sinceFlush
      && s.handed == Kept(s.episodes, config.maximumBufferCapacity)
  {
    InvOverRun(New(config), es);
  }

  /** A write reaches the file at once exactly if the file is, or can be, opened and takes the data. */
  lemma WriteReachesFileExactly(s: Stream, data: Bytes, o: Outcome)
    ensures
      var t := Write(s, data, o);
      && (t.phase.Opened?
          <==> (s.phase.Opened? || (s.phase.Closed? && OpensWithHeader(s, o))) && Fits(s, data) && o.dataWritten)
      && (t.phase.Opened? ==> t.handed == s.handed + data && t.buffer == s.buffer)
      && (!t.phase.Opened? ==> t.phase.WaitingToReopen? && t.handed == s.handed)
  {
  }

  /**
   A reopening succeeds exactly if the file opens, takes the header, and takes the buffer if there is one; it
   then empties the buffer into the file. One that fails loses nothing.
   */
  lemma ReopenFlushesOrKeeps(s: Stream, o: Outcome)
    requires s.phase.WaitingToReopen?
    ensures
      var t := Reopen(s, o);
      && (t.phase.Opened?
          <==> o.opens && o.headerWritten && |s.config.header| <= s.config.fileSizeLimit
               && (s.buffer == [] || (o.dataWritten && |s.buffer| <= s.config.fileSizeLimit)))
      && (t.phase.Opened? ==> t.handed == s.handed + s.buffer && t.buffer == [] && !t.timer)
      && (!t.phase.Opened? ==> t == s)
  {
  }

  /** The file is open for the step, or can be opened. */
  ghost predicate Reachable(s: Stream, o: Outcome) {
    s.phase.Opened? || (o.opens && o.headerWritten && |s.config.header| <= s.config.fileSizeLimit)
  }

  /** What a step hands over, if the file takes it: a write its bytes unless the stream waits, the timer the buffer. */
  ghost function GivenBy(s: Stream, e: Event): Bytes {
    var bytes := match e {
      case Writes(data, _) => if s.phase.WaitingToReopen? then [] else data
      case TimerFires(_) => s.buffer
    };
    if Reachable(s, e.outcome) && e.outcome.dataWritten && |bytes| <= s.config.fileSizeLimit then bytes else []
  }

  ghost function Given(s: Stream, es: seq<Event>): Bytes
    decreases |es|
  {
    if es == [] then [] else GivenBy(s, es[0]) + Given(Step(s, es[0]), es[1..])
  }

  lemma StepGives(s: Stream, e: Event)
    requires BufferOk(s) && Enabled(s, e)
    ensures Step(s, e).handed == s.handed + GivenBy(s, e)
  {
    match e {
      case Writes(data, o) => WriteReachesFileExactly(s, data, o);
      case TimerFires(o) => ReopenFlushesOrKeeps(s, o);
    }
  }

  /** Over every run the file was handed exactly the bytes of the steps in which it took them, in order. */
  lemma {:induction false} HandedIsTaken(s: Stream, es: seq<Event>)
    requires BufferOk(s) && Runs(s, es)
    ensures After(s, es).handed == s.handed + Given(s, es)
    decreases |es|
  {
    if es == [] {
      assert s.handed + Given(s, es) == s.handed;
    } else {
      var t := Step(s, es[0]);
      StepGives(s, es[0]);
      StepKeepsBuffer(s, es[0]);
      HandedIsTaken(t, es[1..]);
      Reassociate(s.handed, GivenBy(s, es[0]), Given(t, es[1..]));
    }
  }

  lemma Reassociate(a: Bytes, b: Bytes, c: Bytes)
    ensures (a + b) + c == a + (b + c)
  {
  }

  // ---------------------------------------------------------------------------
  // When the stream can recover

  /** A buffer larger than the file may be can never be flushed: the stream waits forever. */
  lemma {:induction false} OversizedBufferNeverFlushes(s: Stream, es: seq<Event>)
    requires s.phase.WaitingToReopen? && |s.buffer| > s.config.fileSizeLimit && Runs(s, es)
    requires |s.buffer| <= s.config.maximumBufferCapacity
    ensures After(s, es).phase.WaitingToReopen? && After(s, es).handed == s.handed
    decreases |es|
  {
    if es != [] {
      OversizedBufferNeverFlushes(Step(s, es[0]), es[1..]);
    }
  }

  /** Whenever the stream waits, a reopening whose system calls all succeed brings it back and hands the buffer over. */
  ghost predicate Recovers(s: Stream) {
    s.phase.WaitingToReopen? ==>
      var t := Reopen(s, FINE);
      t.phase.Opened? && t.handed == s.handed + s.buffer && t.buffer == [] && !t.timer
  }

  lemma RecoversWhenItFits(config: Config, es: seq<Event>)
    requires |config.header| <= config.fileSizeLimit && config.maximumBufferCapacity <= config.fileSizeLimit
    requires Runs(New(config), es)
    ensures Recovers(After(New(config), es))
  {
    InvOverRun(New(config), es);
    var s := After(New(config), es);
    if s.phase.WaitingToReopen? {
      ReopenFlushesOrKeeps(s, FINE);
    }
  }

  /** One write that leaves the stream waiting for good. */
  lemma StuckRun(config: Config) returns (e: Event)
    requires |config.header| > config.fileSizeLimit || config.maximumBufferCapacity > config.fileSizeLimit
    ensures Runs(New(config), [e]) && !Recovers(After(New(config), [e]))
  {
    var data: Bytes := seq(config.fileSizeLimit + 1, _ => 0);
    e := Writes(data, FINE);
    var s := New(config);
    var t := Step(s, e);
    assert [e][1..] == [] && Runs(t, []) && After(s, [e]) == t;
    assert [] + data == data;
    assert t.buffer == LastBytes(data, config.maximumBufferCapacity);
  }

  /** The stream can recover from every failure exactly if its header and a full buffer fit into the file. */
  lemma RecoversExactlyWhen(config: Config)
    ensures (forall es :: Runs(New(config), es) ==> Recovers(After(New(config), es)))
       <==> |config.header| <= config.fileSizeLimit && config.maximumBufferCapacity <= config.fileSizeLimit
  {
    if |config.header| <= config.fileSizeLimit && config.maximumBufferCapacity <= config.fileSizeLimit {
      forall es | Runs(New(config), es)
        ensures Recovers(After(New(config), es))
      {
        RecoversWhenItFits(config, es);
      }
    } else {
      var e := StuckRun(config);
    }
  }

  // ---------------------------------------------------------------------------
  // The object

  class LogFileOutputStream {
    const config: Config
    var state: Phase
    var timer: bool
    var buffer: Bytes
    ghost var accepted: Bytes
    ghost var handed: Bytes
    ghost var sinceFlush: Bytes
    ghost var episodes: seq<Episode>

    ghost function Value(): Stream
      reads this
    {
      Stream(config, state, timer, buffer, accepted, handed, sinceFlush, episodes)
    }

    ghost predicate Valid()
      reads this
    {
      BufferOk(Value()) && HistoryOk(Value())
    }

    constructor (config: Config)
      ensures Valid() && Value() == New(config)
    {
      this.config := config;
      state, timer, buffer := Closed, false, [];
      accepted, handed, sinceFlush, episodes := [], [], [], [];
    }

    /** The setter of `state` with its observer. */
    method SetState(newState: Phase)
      modifies this`state, this`timer
      ensures Value() == SetPhase(old(Value()), newState)
    {
      var oldState := state;
      state := newState;
      if oldState != WaitingToReopen && newState == WaitingToReopen {
        timer := true;
      } else if oldState == WaitingToReopen && newState != WaitingToReopen {
        timer := false;
      }
    }

    method Buffer(data: Bytes)
      modifies this`buffer, this`sinceFlush
      ensures Value() == BufferData(old(Value()), data)
    {
      buffer := buffer + data;
      if |buffer| > config.maximumBufferCapacity {
        buffer := buffer[|buffer| - config.maximumBufferCapacity..];
      }
      sinceFlush := sinceFlush + data;
    }

    /** Writing a chunk to the open file; `written` is what the file handle reports. */
    method WriteToFile(data: Bytes, written: bool) returns (ok: bool)
      ensures ok == (|data| <= config.fileSizeLimit && written)
    {
      if |data| > config.fileSizeLimit {
        return false;
      }
      return written;
    }

    method OpenFileWithHeader(o: Outcome) returns (ok: bool)
      ensures ok == OpensWithHeader(Value(), o)
    {
      if !o.opens {
        return false;
      }
      ok := WriteToFile(config.header, o.headerWritten);
    }

    method WriteOrBuffer(data: Bytes, written: bool)
      modifies this
      ensures Value() == WriteOpened(old(Value()), data, Outcome(true, true, written))
    {
      var ok := WriteToFile(data, written);
      if ok {
        handed, episodes := handed + data, episodes + [Direct(data)];
      } else {
        Buffer(data);
        SetState(WaitingToReopen);
      }
    }

    method WriteOnQueue(data: Bytes, o: Outcome)
      requires Valid()
      modifies this
      ensures Valid() && Value() == Write(old(Value()), data, o)
    {
      ghost var next := Write(Value(), data, o);
      assert BufferOk(next) && HistoryOk(next) by {
        StepKeepsBuffer(Value(), Writes(data, o));
        StepKeepsHistory(Value(), Writes(data, o));
      }
      accepted := accepted + data;
      match state {
        case Closed =>
          var isOpen := OpenFileWithHeader(o);
          if isOpen {
            SetState(Opened);
            WriteOrBuffer(data, o.dataWritten);
          } else {
            Buffer(data);
            SetState(WaitingToReopen);
          }
        case Opened =>
          WriteOrBuffer(data, o.dataWritten);
        case WaitingToReopen =>
          Buffer(data);
      }
      assert Value() == next;
    }

    method ReopenFile(o: Outcome)
      requires Valid() && timer
      modifies this
      ensures Valid() && Value() == Reopen(old(Value()), o)
    {
      StepKeepsBuffer(Value(), TimerFires(o));
      StepKeepsHistory(Value(), TimerFires(o));
      var isOpen := OpenFileWithHeader(o);
      if isOpen && buffer != [] {
        isOpen := WriteToFile(buffer, o.dataWritten);
      }
      if isOpen {
        handed, episodes, sinceFlush := handed + buffer, episodes + [Buffered(sinceFlush)], [];
        buffer := [];
        SetState(Opened);
      } else {
        SetState(WaitingToReopen);
      }
    }
  }
}
