/**
 The file cache as a protocol between any number of calls, in any number of processes, that
 share one file, one lock file and one temporary file. Every system call is a step of its own,
 and a process may die between any two of them.
 */
module FileCacheProtocol {
  import opened Common

  type Bytes = seq<bv8>
  type Time = nat
  type Tid = nat

  datatype Stored = Stored(bytes: Bytes, mtime: Time)

  /** How contents become bytes and back; decoding may fail. */
  datatype Codec<!C> = Codec(encode: C -> Bytes, decode: Bytes -> Option<C>)

  ghost predicate RoundTrips<C(!new)>(codec: Codec<C>) {
    forall c :: codec.decode(codec.encode(c)) == Some(c)
  }

  datatype Instance = Instance(process: nat, index: nat)

  datatype Cache<C> = Cache(content: Option<C>, modified: Option<Time>)

  /** What a call did to the file when it took effect. */
  datatype Outcome<C> = DidRead(content: C) | DidWrite(content: C) | DidClear

  /**
   Where a call stands. `since` is the instant of the call, `at` the instant at which it looked at the
   file or changed it. Comments give the lock held.
   */
  datatype Call<C> =
    | ReadStat(since: nat)
    | ReadCheck(since: nat, mtime: Option<Time>, at: nat)
    | ReadLock(since: nat)
    | ReadData(since: nat)                                                // shared
    | ReadStamp(since: nat, content: C, at: nat)                          // shared
    | ReadStore(since: nat, content: C, mtime: Option<Time>, at: nat)     // shared
    | ReadUnlock(since: nat, content: C, at: nat)                         // shared
    | ReadReturn(since: nat, content: C, at: nat)
    | WriteLock(since: nat, content: C)
    | WriteTemp(since: nat, content: C)                                   // exclusive
    | WriteRename(since: nat, content: C)                                 // exclusive
    | WriteStamp(since: nat, content: C, at: nat)                         // exclusive
    | WriteStore(since: nat, content: C, mtime: Option<Time>, at: nat)    // exclusive
    | ClearLock(since: nat)
    | ClearRemove(since: nat)                                             // exclusive
    | ClearStore(since: nat, at: nat)                                     // exclusive
    | ExclusiveUnlock(since: nat, outcome: Outcome<C>, at: nat)           // exclusive

  predicate Shared<C>(call: Call<C>) {
    call.ReadData? || call.ReadStamp? || call.ReadStore? || call.ReadUnlock?
  }

  predicate Exclusive<C>(call: Call<C>) {
    || call.WriteTemp? || call.WriteRename? || call.WriteStamp? || call.WriteStore?
    || call.ClearRemove? || call.ClearStore? || call.ExclusiveUnlock?
  }

  datatype Active<C> = Active(instance: Instance, call: Call<C>)

  datatype Returned<C> = Returned(tid: Tid, since: nat, at: nat, until: nat, outcome: Outcome<C>)

  /**
   `timeline[i]` is what the file's name showed at instant i, and `actors[i]` whose step led to it.
   `written` collects the file present at the start and what every completed write of the temporary file
   left there; `returned` collects the calls that returned without an error.
   */
  datatype World<C> = World(
    file: Option<Stored>,
    temp: Option<Stored>,
    caches: map<Instance, Cache<C>>,
    active: map<Tid, Active<C>>,
    timeline: seq<Option<Stored>>,
    actors: seq<Option<Tid>>,
    written: set<Stored>,
    returned: seq<Returned<C>>)

  function Initial<C>(file: Option<Stored>, temp: Option<Stored>): World<C> {
    World(file, temp, map[], map[], [file], [None], if file.Some? then {file.value} else {}, [])
  }

  function CacheOf<C>(w: World<C>, i: Instance): Cache<C> {
    if i in w.caches then w.caches[i] else Cache(None, None)
  }

  function Now<C>(w: World<C>): int {
    |w.timeline| - 1
  }

  datatype Event<C> =
    | CallRead(tid: Tid, instance: Instance)
    | CallWrite(tid: Tid, instance: Instance, content: C)
    | CallClear(tid: Tid, instance: Instance)
    | Advance(tid: Tid, stamp: Time)
    | StatFails(tid: Tid)
    | WritesPart(tid: Tid, part: Bytes)
    | Throws(tid: Tid)
    | Crash(process: nat)

  // ---------------------------------------------------------------------------
  // Steps

  ghost predicate NoneHolds<C>(w: World<C>) {
    forall t :: t in w.active ==> !Shared(w.active[t].call) && !Exclusive(w.active[t].call)
  }

  ghost predicate NoneHoldsExclusive<C>(w: World<C>) {
    forall t :: t in w.active ==> !Exclusive(w.active[t].call)
  }

  /** Distinct writes leave distinct modification times. */
  ghost predicate FreshTime<C>(w: World<C>, stamp: Time) {
    forall s :: s in w.written ==> s.mtime != stamp
  }

  ghost predicate CanAdvance<C>(codec: Codec<C>, w: World<C>, call: Call<C>, stamp: Time) {
    match call
    case ReadLock(_) => NoneHoldsExclusive(w)
    case ReadData(_) => w.file.Some? && codec.decode(w.file.value.bytes).Some?
    case WriteLock(_, _) => NoneHolds(w)
    case WriteTemp(_, _) => FreshTime(w, stamp)
    case WriteRename(_, _) => w.temp.Some?
    case ClearLock(_) => NoneHolds(w)
    case ClearRemove(_) => w.file.Some?
    case _ => true
  }

  ghost predicate Enabled<C>(codec: Codec<C>, w: World<C>, e: Event<C>) {
    match e
    case CallRead(t, _) => t !in w.active
    case CallWrite(t, _, _) => t !in w.active
    case CallClear(t, _) => t !in w.active
    case Advance(t, stamp) => t in w.active && CanAdvance(codec, w, w.active[t].call, stamp)
    case StatFails(t) => t in w.active && var c := w.active[t].call; c.ReadStat? || c.ReadStamp? || c.WriteStamp?
    case WritesPart(t, _) => t in w.active && w.active[t].call.WriteTemp?
    case Throws(t) =>
      t in w.active && var c := w.active[t].call;
      c.ReadLock? || c.ReadData? || c.WriteLock? || c.WriteTemp? || c.WriteRename? || c.ClearLock? || c.ClearRemove?
    case Crash(_) => true
  }

  function Mtime(file: Option<Stored>): Option<Time> {
    if file.Some? then Some(file.value.mtime) else None
  }

  /** The instant after a step. */
  function Tick<C>(w: World<C>, actor: Option<Tid>): World<C> {
    w.(timeline := w.timeline + [w.file], actors := w.actors + [actor])
  }

  /** Only call `t` moves, and history only grows. */
  ghost predicate OnlyMoves<C>(w: World<C>, v: World<C>, t: Tid) {
    && v.timeline == w.timeline && v.actors == w.actors && w.written <= v.written
    && (forall u :: u in v.active && u != t ==> u in w.active && v.active[u] == w.active[u])
  }

  function Put<C>(w: World<C>, t: Tid, call: Call<C>): World<C>
    requires t in w.active
  {
    w.(active := w.active[t := w.active[t].(call := call)])
  }

  function Leave<C>(w: World<C>, t: Tid): World<C> {
    w.(active := w.active - {t})
  }

  function Keep<C>(w: World<C>, t: Tid, cache: Cache<C>): World<C>
    requires t in w.active
  {
    w.(caches := w.caches[w.active[t].instance := cache])
  }

  function AdvanceRead<C>(codec: Codec<C>, w: World<C>, t: Tid): (v: World<C>)
    requires t in w.active
    requires
      var c := w.active[t].call;
      || c.ReadStat? || c.ReadCheck? || c.ReadLock? || c.ReadStamp? || c.ReadStore? || c.ReadUnlock? || c.ReadReturn?
      || (c.ReadData? && w.file.Some? && codec.decode(w.file.value.bytes).Some?)
    requires w.timeline != []
    ensures OnlyMoves(w, v, t) && v.file == w.file && v.temp == w.temp && v.written == w.written
  {
    match w.active[t].call
    case ReadStat(since) => Put(w, t, ReadCheck(since, Mtime(w.file), Now(w)))
    case ReadCheck(since, mtime, at) =>
      var cache := CacheOf(w, w.active[t].instance);
      if cache.content.Some? && cache.modified.Some? && cache.modified == mtime then
        Put(w, t, ReadReturn(since, cache.content.value, at))
      else
        Put(w, t, ReadLock(since))
    case ReadLock(since) => Put(w, t, ReadData(since))
    case ReadData(since) => Put(w, t, ReadStamp(since, codec.decode(w.file.value.bytes).value, Now(w)))
    case ReadStamp(since, content, at) => Put(w, t, ReadStore(since, content, Mtime(w.file), at))
    case ReadStore(since, content, mtime, at) =>
      Put(Keep(w, t, Cache(Some(content), mtime)), t, ReadUnlock(since, content, at))
    case ReadUnlock(since, content, at) => Put(w, t, ReadReturn(since, content, at))
    case ReadReturn(since, content, at) =>
      Leave(w, t).(returned := w.returned + [Returned(t, since, at, Now(w), DidRead(content))])
  }

  function AdvanceExclusive<C>(codec: Codec<C>, w: World<C>, t: Tid, stamp: Time): (v: World<C>)
    requires t in w.active
    requires var c := w.active[t].call; Exclusive(c) || c.WriteLock? || c.ClearLock?
    requires w.timeline != []
    ensures OnlyMoves(w, v, t) && (!Exclusive(w.active[t].call) ==> v.file == w.file && v.temp == w.temp)
  {
    match w.active[t].call
    case WriteLock(since, content) => Put(w, t, WriteTemp(since, content))
    case WriteTemp(since, content) =>
      var whole := Stored(codec.encode(content), stamp);
      Put(w, t, WriteRename(since, content)).(temp := Some(whole), written := w.written + {whole})
    case WriteRename(since, content) => Put(w, t, WriteStamp(since, content, Now(w) + 1)).(file := w.temp, temp := None)
    case WriteStamp(since, content, at) => Put(w, t, WriteStore(since, content, Mtime(w.file), at))
    case WriteStore(since, content, mtime, at) =>
      Put(Keep(w, t, Cache(Some(content), mtime)), t, ExclusiveUnlock(since, DidWrite(content), at))
    case ClearLock(since) => Put(w, t, ClearRemove(since))
    case ClearRemove(since) => Put(w, t, ClearStore(since, Now(w) + 1)).(file := None)
    case ClearStore(since, at) => Put(Keep(w, t, Cache(None, None)), t, ExclusiveUnlock(since, DidClear, at))
    case ExclusiveUnlock(since, outcome, at) =>
      Leave(w, t).(returned := w.returned + [Returned(t, since, at, Now(w), outcome)])
  }

  function StatFailed<C>(w: World<C>, t: Tid): (v: World<C>)
    requires t in w.active
    requires var c := w.active[t].call; c.ReadStat? || c.ReadStamp? || c.WriteStamp?
    requires w.timeline != []
    ensures OnlyMoves(w, v, t) && v.file == w.file && v.temp == w.temp && v.written == w.written
  {
    match w.active[t].call
    case ReadStat(since) => Put(w, t, ReadCheck(since, None, Now(w)))
    case ReadStamp(since, content, at) => Put(w, t, ReadStore(since, content, None, at))
    case WriteStamp(since, content, at) => Put(w, t, WriteStore(since, content, None, at))
  }

  function Crashed<C>(w: World<C>, p: nat): World<C> {
    w.(active := map t | t in w.active && w.active[t].instance.process != p :: w.active[t],
       caches := map i | i in w.caches && i.process != p :: w.caches[i])
  }

  /** The effect of an event before the clock moves on. */
  ghost function Effect<C>(codec: Codec<C>, w: World<C>, e: Event<C>): World<C>
    requires Enabled(codec, w, e) && w.timeline != []
  {
    match e
    case CallRead(t, i) => w.(active := w.active[t := Active(i, ReadStat(Now(w)))])
    case CallWrite(t, i, content) => w.(active := w.active[t := Active(i, WriteLock(Now(w), content))])
    case CallClear(t, i) => w.(active := w.active[t := Active(i, ClearLock(Now(w)))])
    case Advance(t, stamp) =>
      var c := w.active[t].call;
      if Exclusive(c) || c.WriteLock? || c.ClearLock? then AdvanceExclusive(codec, w, t, stamp)
      else AdvanceRead(codec, w, t)
    case StatFails(t) => StatFailed(w, t)
    case WritesPart(t, part) => w.(temp := Some(Stored(part, 0)))
    case Throws(t) => if w.active[t].call.WriteRename? then Leave(w, t).(temp := None) else Leave(w, t)
    case Crash(p) => Crashed(w, p)
  }

  ghost function Step<C>(codec: Codec<C>, w: World<C>, e: Event<C>): World<C>
    requires Enabled(codec, w, e) && w.timeline != []
  {
    Tick(Effect(codec, w, e), if e.Crash? then None else Some(e.tid))
  }
}
