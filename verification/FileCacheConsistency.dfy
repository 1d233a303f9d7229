/**
 Every call that returns took effect at some instant between call and return, and the file itself
 is never anything but one whole write.
 */
module FileCacheConsistency {
  import opened Common
  import opened FileCacheProtocol

  /** The stored bytes decode to `content`. */
  ghost predicate Shows<C>(codec: Codec<C>, file: Option<Stored>, content: C) {
    file.Some? && codec.decode(file.value.bytes) == Some(content)
  }

  /** At some instant the file had this modification time and this content. */
  ghost predicate TrueVersion<C>(codec: Codec<C>, w: World<C>, content: C, mtime: Time) {
    exists i :: 0 <= i < |w.timeline| && Mtime(w.timeline[i]) == Some(mtime) && Shows(codec, w.timeline[i], content)
  }

  ghost predicate CacheOk<C>(codec: Codec<C>, w: World<C>, cache: Cache<C>) {
    cache.content.Some? && cache.modified.Some? ==> TrueVersion(codec, w, cache.content.value, cache.modified.value)
  }

  /** A step of call `t` changed the file at instant `i`. */
  ghost predicate ChangedBy<C>(w: World<C>, i: nat, t: Tid) {
    0 < i < |w.timeline| && i < |w.actors| && w.actors[i] == Some(t) && w.timeline[i] != w.timeline[i - 1]
  }

  ghost predicate Holds<C>(codec: Codec<C>, file: Option<Stored>, content: C) {
    file.Some? && file.value.bytes == codec.encode(content)
  }

  /**
   A read looked at the file at instant `at`, and it showed the content. A write or clear changed the file
   itself at that instant: to the bytes of its content, or to nothing.
   */
  ghost predicate TookEffect<C>(codec: Codec<C>, w: World<C>, t: Tid, since: nat, at: nat, outcome: Outcome<C>) {
    && since <= at < |w.timeline|
    && match outcome {
         case DidRead(content) => Shows(codec, w.timeline[at], content)
         case DidWrite(content) => since < at && ChangedBy(w, at, t) && Holds(codec, w.timeline[at], content)
         case DidClear => since < at && ChangedBy(w, at, t) && w.timeline[at].None?
       }
  }

  ghost predicate CallOk<C>(codec: Codec<C>, w: World<C>, t: Tid, call: Call<C>) {
    && call.since < |w.timeline|
    && match call {
         case ReadCheck(since, mtime, at) =>
           since <= at < |w.timeline| && (mtime.Some? ==> Mtime(w.timeline[at]) == mtime)
         case ReadStamp(since, content, at) =>
           TookEffect(codec, w, t, since, at, DidRead(content)) && Shows(codec, w.file, content)
         case ReadStore(since, content, mtime, at) =>
           && TookEffect(codec, w, t, since, at, DidRead(content)) && Shows(codec, w.file, content)
           && (mtime.Some? ==> Mtime(w.file) == mtime)
         case ReadUnlock(since, content, at) => TookEffect(codec, w, t, since, at, DidRead(content))
         case ReadReturn(since, content, at) => TookEffect(codec, w, t, since, at, DidRead(content))
         case WriteRename(_, content) =>
           w.temp.Some? && w.temp.value in w.written && Holds(codec, w.temp, content) && w.temp != w.file
         case WriteStamp(since, content, at) =>
           TookEffect(codec, w, t, since, at, DidWrite(content)) && Holds(codec, w.file, content)
         case WriteStore(since, content, mtime, at) =>
           && TookEffect(codec, w, t, since, at, DidWrite(content)) && Holds(codec, w.file, content)
           && (mtime.Some? ==> Mtime(w.file) == mtime)
         case ClearStore(since, at) => TookEffect(codec, w, t, since, at, DidClear)
         case ExclusiveUnlock(since, outcome, at) => TookEffect(codec, w, t, since, at, outcome)
         case _ => true
       }
  }

  ghost predicate TimesDiffer(written: set<Stored>) {
    forall s, u :: s in written && u in written && s.mtime == u.mtime ==> s == u
  }

  ghost predicate TimelineOk<C>(w: World<C>) {
    && w.timeline != [] && w.timeline[|w.timeline| - 1] == w.file && |w.actors| == |w.timeline|
    && (forall i :: 0 <= i < |w.timeline| && w.timeline[i].Some? ==> w.timeline[i].value in w.written)
    && TimesDiffer(w.written)
  }

  ghost predicate LocksOk<C>(w: World<C>) {
    forall t, u :: t in w.active && u in w.active && t != u && Exclusive(w.active[t].call) ==>
      !Exclusive(w.active[u].call) && !Shared(w.active[u].call)
  }

  ghost predicate CallsOk<C>(codec: Codec<C>, w: World<C>) {
    forall t :: t in w.active ==> CallOk(codec, w, t, w.active[t].call)
  }

  ghost predicate CachesOk<C>(codec: Codec<C>, w: World<C>) {
    forall i :: i in w.caches ==> CacheOk(codec, w, w.caches[i])
  }

  ghost predicate ReturnOk<C>(codec: Codec<C>, w: World<C>, r: Returned<C>) {
    r.at <= r.until < |w.timeline| && TookEffect(codec, w, r.tid, r.since, r.at, r.outcome)
  }

  ghost predicate ReturnsOk<C>(codec: Codec<C>, w: World<C>) {
    forall k :: 0 <= k < |w.returned| ==> ReturnOk(codec, w, w.returned[k])
  }

  ghost predicate Inv<C>(codec: Codec<C>, w: World<C>) {
    TimelineOk(w) && LocksOk(w) && CallsOk(codec, w) && CachesOk(codec, w) && ReturnsOk(codec, w)
  }

  // ---------------------------------------------------------------------------
  // What a step does to everyone else

  ghost predicate Later<C>(w: World<C>, v: World<C>) {
    w.timeline <= v.timeline && w.actors <= v.actors && w.written <= v.written
  }

  lemma OthersStay<C>(codec: Codec<C>, w: World<C>, v: World<C>, t: Tid, call: Call<C>)
    requires CallOk(codec, w, t, call) && Later(w, v)
    requires v.file == w.file || !(Shared(call) || Exclusive(call))
    requires v.temp == w.temp || !Exclusive(call)
    ensures CallOk(codec, v, t, call)
  {
  }

  lemma CacheStays<C>(codec: Codec<C>, w: World<C>, v: World<C>, cache: Cache<C>)
    requires CacheOk(codec, w, cache) && w.timeline <= v.timeline
    ensures CacheOk(codec, v, cache)
  {
    if cache.content.Some? && cache.modified.Some? {
      var i :| 0 <= i < |w.timeline| && Mtime(w.timeline[i]) == Some(cache.modified.value)
        && Shows(codec, w.timeline[i], cache.content.value);
      assert v.timeline[i] == w.timeline[i];
    }
  }

  /** The fast path: equal modification times mean the cached content is what the file showed. */
  lemma FastPathIsTrue<C>(codec: Codec<C>, w: World<C>, at: nat, mtime: Time, content: C)
    requires TimelineOk(w) && at < |w.timeline| && Mtime(w.timeline[at]) == Some(mtime)
    requires TrueVersion(codec, w, content, mtime)
    ensures Shows(codec, w.timeline[at], content)
  {
    var i :| 0 <= i < |w.timeline| && Mtime(w.timeline[i]) == Some(mtime) && Shows(codec, w.timeline[i], content);
    assert w.timeline[i].value == w.timeline[at].value;
  }

  /** A step of call `t` leaves the other calls alone, and only a lock holder touches the files. */
  ghost predicate Frame<C>(w: World<C>, v: World<C>, t: Tid) {
    && Later(w, v) && |v.timeline| == |w.timeline| + 1
    && (forall u :: u in v.active && u != t ==> u in w.active && v.active[u] == w.active[u])
    && (v.file != w.file || v.temp != w.temp ==> t in w.active && Exclusive(w.active[t].call))
  }

  lemma StepFrame<C>(codec: Codec<C>, w: World<C>, e: Event<C>)
    requires w.timeline != [] && Enabled(codec, w, e) && !e.Crash?
    ensures Frame(w, Step(codec, w, e), e.tid)
  {
    match e {
      case CallRead(_, _) =>
      case CallWrite(_, _, _) =>
      case CallClear(_, _) =>
      case Advance(t, stamp) =>
        var c := w.active[t].call;
        assert OnlyMoves(w, Effect(codec, w, e), t);
      case StatFails(t) =>
        assert OnlyMoves(w, Effect(codec, w, e), t);
      case WritesPart(_, _) =>
      case Throws(_) =>
    }
  }

  lemma StepWritten<C>(codec: Codec<C>, w: World<C>, e: Event<C>)
    requires w.timeline != [] && TimesDiffer(w.written) && Enabled(codec, w, e)
    ensures w.written <= Step(codec, w, e).written && TimesDiffer(Step(codec, w, e).written)
  {
  }

  /** The file changes only by being removed or by taking over a whole temporary file. */
  lemma StepFile<C>(codec: Codec<C>, w: World<C>, e: Event<C>)
    requires w.timeline != [] && CallsOk(codec, w) && Enabled(codec, w, e)
    ensures
      var v := Step(codec, w, e);
      v.file == w.file || v.file.None? || v.file.value in w.written
  {
    if e.Advance? {
      assert CallOk(codec, w, e.tid, w.active[e.tid].call);
    }
  }

  lemma StepTimeline<C>(codec: Codec<C>, w: World<C>, e: Event<C>)
    requires TimelineOk(w) && CallsOk(codec, w) && Enabled(codec, w, e)
    ensures TimelineOk(Step(codec, w, e))
  {
    var v := Step(codec, w, e);
    StepWritten(codec, w, e);
    StepFile(codec, w, e);
    assert v.timeline == w.timeline + [v.file];
  }

  lemma StepLocks<C>(codec: Codec<C>, w: World<C>, e: Event<C>)
    requires w.timeline != [] && LocksOk(w) && Enabled(codec, w, e)
    ensures LocksOk(Step(codec, w, e))
  {
    var v := Step(codec, w, e);
    if !e.Crash? {
      StepFrame(codec, w, e);
      LockOnlyIfFree(codec, w, e);
    }
  }

  lemma ReaderLocks<C>(codec: Codec<C>, w: World<C>, t: Tid, stamp: Time)
    requires w.timeline != [] && t in w.active && CanAdvance(codec, w, w.active[t].call, stamp)
    requires var c := w.active[t].call; !(Exclusive(c) || c.WriteLock? || c.ClearLock?)
    ensures
      var v, c := AdvanceRead(codec, w, t), w.active[t].call;
      t in v.active ==> !Exclusive(v.active[t].call) && (Shared(v.active[t].call) ==> Shared(c) || c.ReadLock?)
  {
  }

  lemma WriterLocks<C>(codec: Codec<C>, w: World<C>, t: Tid, stamp: Time)
    requires w.timeline != [] && t in w.active
    requires var c := w.active[t].call; Exclusive(c) || c.WriteLock? || c.ClearLock?
    ensures
      var v := AdvanceExclusive(codec, w, t, stamp);
      t in v.active ==> !Shared(v.active[t].call)
  {
  }

  /** A call that holds a lock after its step held one before, or took it when nobody stood in the way. */
  lemma LockOnlyIfFree<C>(codec: Codec<C>, w: World<C>, e: Event<C>)
    requires w.timeline != [] && Enabled(codec, w, e) && !e.Crash?
    ensures
      var v := Step(codec, w, e);
      e.tid in v.active ==>
        && (Exclusive(v.active[e.tid].call) ==> (e.tid in w.active && Exclusive(w.active[e.tid].call)) || NoneHolds(w))
        && (Shared(v.active[e.tid].call) ==>
              (e.tid in w.active && Shared(w.active[e.tid].call)) || NoneHoldsExclusive(w))
  {
    if e.Advance? {
      var c := w.active[e.tid].call;
      if Exclusive(c) || c.WriteLock? || c.ClearLock? {
        WriterLocks(codec, w, e.tid, e.stamp);
      } else {
        ReaderLocks(codec, w, e.tid, e.stamp);
      }
    }
  }

  lemma OwnReadOk<C>(codec: Codec<C>, w: World<C>, t: Tid, stamp: Time)
    requires TimelineOk(w) && CallsOk(codec, w) && CachesOk(codec, w)
    requires Enabled(codec, w, Advance(t, stamp))
    requires var c := w.active[t].call; !(Exclusive(c) || c.WriteLock? || c.ClearLock?)
    ensures
      var v := Step(codec, w, Advance(t, stamp));
      t in v.active ==> CallOk(codec, v, t, v.active[t].call)
  {
    var call := w.active[t].call;
    assert CallOk(codec, w, t, call);
    var cache := CacheOf(w, w.active[t].instance);
    if call.ReadCheck? && cache.content.Some? && cache.modified.Some? && cache.modified == call.mtime {
      FastPathIsTrue(codec, w, call.at, cache.modified.value, cache.content.value);
    }
  }

  lemma OwnExclusiveOk<C(!new)>(codec: Codec<C>, w: World<C>, t: Tid, stamp: Time)
    requires RoundTrips(codec) && TimelineOk(w) && CallsOk(codec, w)
    requires Enabled(codec, w, Advance(t, stamp))
    requires var c := w.active[t].call; Exclusive(c) || c.WriteLock? || c.ClearLock?
    ensures
      var v := Step(codec, w, Advance(t, stamp));
      t in v.active ==> CallOk(codec, v, t, v.active[t].call)
  {
    assert CallOk(codec, w, t, w.active[t].call);
  }

  lemma OwnCallOk<C(!new)>(codec: Codec<C>, w: World<C>, e: Event<C>)
    requires RoundTrips(codec) && TimelineOk(w) && CallsOk(codec, w) && CachesOk(codec, w)
    requires Enabled(codec, w, e) && !e.Crash?
    ensures
      var v := Step(codec, w, e);
      e.tid in v.active ==> CallOk(codec, v, e.tid, v.active[e.tid].call)
  {
    if e.Advance? {
      var c := w.active[e.tid].call;
      if Exclusive(c) || c.WriteLock? || c.ClearLock? {
        OwnExclusiveOk(codec, w, e.tid, e.stamp);
      } else {
        OwnReadOk(codec, w, e.tid, e.stamp);
      }
    } else if e.tid in w.active {
      assert CallOk(codec, w, e.tid, w.active[e.tid].call);
    }
  }

  lemma StepCalls<C(!new)>(codec: Codec<C>, w: World<C>, e: Event<C>)
    requires RoundTrips(codec) && TimelineOk(w) && LocksOk(w) && CallsOk(codec, w) && CachesOk(codec, w)
    requires Enabled(codec, w, e)
    ensures CallsOk(codec, Step(codec, w, e))
  {
    var v := Step(codec, w, e);
    if !e.Crash? {
      StepFrame(codec, w, e);
      OwnCallOk(codec, w, e);
    }
    forall u | u in v.active
      ensures CallOk(codec, v, u, v.active[u].call)
    {
      if e.Crash? || u != e.tid {
        OthersStay(codec, w, v, u, w.active[u].call);
      }
    }
  }

  /** A cache changes only to forget, or to hold what the lock holder sees in the file. */
  lemma NewCache<C(!new)>(codec: Codec<C>, w: World<C>, e: Event<C>, i: Instance)
    requires RoundTrips(codec) && TimelineOk(w) && CallsOk(codec, w) && CachesOk(codec, w) && Enabled(codec, w, e)
    requires i in Step(codec, w, e).caches
    ensures CacheOk(codec, w, Step(codec, w, e).caches[i])
  {
    var v := Step(codec, w, e);
    if e.Advance? && !(i in w.caches && v.caches[i] == w.caches[i]) {
      var call := w.active[e.tid].call;
      assert CallOk(codec, w, e.tid, call);
      assert w.timeline[|w.timeline| - 1] == w.file;
    }
  }

  lemma StepCaches<C(!new)>(codec: Codec<C>, w: World<C>, e: Event<C>)
    requires RoundTrips(codec) && TimelineOk(w) && CallsOk(codec, w) && CachesOk(codec, w) && Enabled(codec, w, e)
    ensures CachesOk(codec, Step(codec, w, e))
  {
    var v := Step(codec, w, e);
    forall i | i in v.caches
      ensures CacheOk(codec, v, v.caches[i])
    {
      NewCache(codec, w, e, i);
      CacheStays(codec, w, v, v.caches[i]);
    }
  }

  /** A return adds one record; any other step none. */
  lemma NewReturn<C>(codec: Codec<C>, w: World<C>, e: Event<C>)
    requires TimelineOk(w) && CallsOk(codec, w) && Enabled(codec, w, e)
    ensures
      var v := Step(codec, w, e);
      v.returned == w.returned
      || exists r :: v.returned == w.returned + [r] && ReturnOk(codec, w, r)
  {
    if e.Advance? {
      var call := w.active[e.tid].call;
      assert CallOk(codec, w, e.tid, call);
      if call.ReadReturn? {
        assert ReturnOk(codec, w, Returned(e.tid, call.since, call.at, Now(w), DidRead(call.content)));
      }
      if call.ExclusiveUnlock? {
        assert ReturnOk(codec, w, Returned(e.tid, call.since, call.at, Now(w), call.outcome));
      }
    }
  }

  lemma ReturnStays<C>(codec: Codec<C>, w: World<C>, v: World<C>, r: Returned<C>)
    requires ReturnOk(codec, w, r) && w.timeline <= v.timeline && w.actors <= v.actors
    ensures ReturnOk(codec, v, r)
  {
  }

  lemma StepReturns<C>(codec: Codec<C>, w: World<C>, e: Event<C>)
    requires TimelineOk(w) && CallsOk(codec, w) && ReturnsOk(codec, w) && Enabled(codec, w, e)
    ensures ReturnsOk(codec, Step(codec, w, e))
  {
    var v := Step(codec, w, e);
    NewReturn(codec, w, e);
    forall k | 0 <= k < |v.returned|
      ensures ReturnOk(codec, v, v.returned[k])
    {
      ReturnStays(codec, w, v, v.returned[k]);
    }
  }

  lemma StepKeepsInv<C(!new)>(codec: Codec<C>, w: World<C>, e: Event<C>)
    requires RoundTrips(codec) && Inv(codec, w) && Enabled(codec, w, e)
    ensures Inv(codec, Step(codec, w, e))
  {
    StepTimeline(codec, w, e);
    StepLocks(codec, w, e);
    StepCalls(codec, w, e);
    StepCaches(codec, w, e);
    StepReturns(codec, w, e);
  }

  // ---------------------------------------------------------------------------
  // Runs

  ghost predicate Runs<C>(codec: Codec<C>, w: World<C>, es: seq<Event<C>>)
    decreases |es|
  {
    w.timeline != [] && (es == [] || (Enabled(codec, w, es[0]) && Runs(codec, Step(codec, w, es[0]), es[1..])))
  }

  ghost function After<C>(codec: Codec<C>, w: World<C>, es: seq<Event<C>>): World<C>
    requires Runs(codec, w, es)
    decreases |es|
  {
    if es == [] then w else After(codec, Step(codec, w, es[0]), es[1..])
  }

  lemma {:induction false} InvOverRun<C(!new)>(codec: Codec<C>, w: World<C>, es: seq<Event<C>>)
    requires RoundTrips(codec) && Inv(codec, w) && Runs(codec, w, es)
    ensures Inv(codec, After(codec, w, es))
    decreases |es|
  {
    if es != [] {
      StepKeepsInv(codec, w, es[0]);
      InvOverRun(codec, Step(codec, w, es[0]), es[1..]);
    }
  }

  /**
   In every interleaving, crashes included, each call that returned took effect at an instant between its
   call and its return: the file then showed what the read gave back; or a step of this very call changed it
   then, to the bytes the write was given or, for a clear, to nothing. And each cached pair is a version the
   file really had.
   */
  lemma CallsAreTrue<C(!new)>(codec: Codec<C>, file: Option<Stored>, temp: Option<Stored>, es: seq<Event<C>>)
    requires RoundTrips(codec) && Runs(codec, Initial(file, temp), es)
    ensures
      var w := After(codec, Initial(file, temp), es);
      && (forall k :: 0 <= k < |w.returned| ==>
            var r := w.returned[k];
            r.at <= r.until < |w.timeline| && TookEffect(codec, w, r.tid, r.since, r.at, r.outcome))
      && (forall i :: i in w.caches && w.caches[i].content.Some? && w.caches[i].modified.Some? ==>
            TrueVersion(codec, w, w.caches[i].content.value, w.caches[i].modified.value))
  {
    InvOverRun(codec, Initial(file, temp), es);
    assert forall k :: 0 <= k < |After(codec, Initial(file, temp), es).returned| ==>
        ReturnOk(codec, After(codec, Initial(file, temp), es), After(codec, Initial(file, temp), es).returned[k]);
  }

  // ---------------------------------------------------------------------------
  // Crash safety

  /** Some call was asked to write the content. */
  ghost predicate AskedFor<C(!new)>(es: seq<Event<C>>, content: C) {
    exists k :: 0 <= k < |es| && es[k].CallWrite? && es[k].content == content
  }

  /** The version is the one found at the start, or the whole of a content some call was asked to write. */
  ghost predicate Whole<C(!new)>(codec: Codec<C>, start: Option<Stored>, es: seq<Event<C>>, s: Stored) {
    start == Some(s) || exists k :: 0 <= k < |es| && es[k].CallWrite? && s.bytes == codec.encode(es[k].content)
  }

  predicate Writing<C>(call: Call<C>) {
    call.WriteLock? || call.WriteTemp?
  }

  ghost predicate AllWhole<C(!new)>(codec: Codec<C>, start: Option<Stored>, es: seq<Event<C>>, w: World<C>) {
    && (forall s :: s in w.written ==> Whole(codec, start, es, s))
    && (forall t :: t in w.active && Writing(w.active[t].call) ==>
          AskedFor(es, w.active[t].call.content))
  }

  lemma WholeLater<C(!new)>(codec: Codec<C>, start: Option<Stored>, es: seq<Event<C>>, e: Event<C>, s: Stored)
    requires Whole(codec, start, es, s)
    ensures Whole(codec, start, es + [e], s)
  {
    if start != Some(s) {
      var k :| 0 <= k < |es| && es[k].CallWrite? && s.bytes == codec.encode(es[k].content);
      assert (es + [e])[k] == es[k];
    }
  }

  lemma AskedLater<C(!new)>(es: seq<Event<C>>, e: Event<C>, content: C)
    requires AskedFor(es, content) || (e.CallWrite? && e.content == content)
    ensures AskedFor(es + [e], content)
  {
    if AskedFor(es, content) {
      var k :| 0 <= k < |es| && es[k].CallWrite? && es[k].content == content;
      assert (es + [e])[k] == es[k];
    } else {
      assert (es + [e])[|es|] == e;
    }
  }

  lemma WritersMoveOn<C>(codec: Codec<C>, w: World<C>, t: Tid, stamp: Time)
    requires w.timeline != [] && t in w.active && CanAdvance(codec, w, w.active[t].call, stamp)
    ensures
      var v, call := Effect(codec, w, Advance(t, stamp)), w.active[t].call;
      t in v.active && Writing(v.active[t].call) ==> call.WriteLock? && v.active[t].call.content == call.content
  {
  }

  /** A write in its early stages carries a content it was called with. */
  lemma WriterBefore<C>(codec: Codec<C>, w: World<C>, e: Event<C>, t: Tid)
    requires w.timeline != [] && Enabled(codec, w, e)
    requires
      var v := Step(codec, w, e);
      t in v.active && Writing(v.active[t].call)
    ensures
      var content := Step(codec, w, e).active[t].call.content;
      || (e.CallWrite? && e.content == content)
      || (t in w.active && Writing(w.active[t].call) && w.active[t].call.content == content)
  {
    if !e.Crash? {
      StepFrame(codec, w, e);
      if e.Advance? {
        WritersMoveOn(codec, w, e.tid, e.stamp);
      }
    }
  }

  lemma WrittenBefore<C>(codec: Codec<C>, w: World<C>, e: Event<C>, s: Stored)
    requires w.timeline != [] && Enabled(codec, w, e) && s in Step(codec, w, e).written && s !in w.written
    ensures e.Advance? && w.active[e.tid].call.WriteTemp? && s.bytes == codec.encode(w.active[e.tid].call.content)
  {
  }

  lemma StepKeepsWhole<C(!new)>(codec: Codec<C>, start: Option<Stored>, es: seq<Event<C>>, w: World<C>, e: Event<C>)
    requires w.timeline != [] && AllWhole(codec, start, es, w) && Enabled(codec, w, e)
    ensures AllWhole(codec, start, es + [e], Step(codec, w, e))
  {
    var v := Step(codec, w, e);
    forall s | s in v.written
      ensures Whole(codec, start, es + [e], s)
    {
      if s in w.written {
        WholeLater(codec, start, es, e, s);
      } else {
        WrittenBefore(codec, w, e, s);
        AskedLater(es, e, w.active[e.tid].call.content);
      }
    }
    forall t | t in v.active && Writing(v.active[t].call)
      ensures AskedFor(es + [e], v.active[t].call.content)
    {
      WriterBefore(codec, w, e, t);
      AskedLater(es, e, v.active[t].call.content);
    }
  }

  lemma {:induction false} WholeOverRun<C(!new)>(codec: Codec<C>, start: Option<Stored>, past: seq<Event<C>>,
                                                 w: World<C>, es: seq<Event<C>>)
    requires AllWhole(codec, start, past, w) && Runs(codec, w, es)
    ensures AllWhole(codec, start, past + es, After(codec, w, es))
    decreases |es|
  {
    if es == [] {
      assert past + es == past;
    } else {
      StepKeepsWhole(codec, start, past, w, es[0]);
      WholeOverRun(codec, start, past + [es[0]], Step(codec, w, es[0]), es[1..]);
      assert past + [es[0]] + es[1..] == past + es;
    }
  }

  /**
   Whatever dies at whatever step, the file is at every instant absent, the file found at the start, or
   exactly the bytes of one content that some call was asked to write.
   */
  lemma FileIsAlwaysWhole<C(!new)>(codec: Codec<C>, file: Option<Stored>, temp: Option<Stored>,
                                   es: seq<Event<C>>, i: nat)
    requires RoundTrips(codec) && Runs(codec, Initial(file, temp), es)
    requires i < |After(codec, Initial(file, temp), es).timeline|
    ensures
      var seen := After(codec, Initial(file, temp), es).timeline[i];
      || seen.None? || seen == file
      || exists k :: 0 <= k < |es| && es[k].CallWrite? && seen.value.bytes == codec.encode(es[k].content)
  {
    InvOverRun(codec, Initial(file, temp), es);
    WholeOverRun(codec, file, [], Initial(file, temp), es);
    assert [] + es == es;
    var seen := After(codec, Initial(file, temp), es).timeline[i];
    assert seen.Some? ==> Whole(codec, file, es, seen.value);
  }

  /** The two worlds differ at most in a temporary file that nobody is about to rename. */
  ghost predicate SameButTemp<C>(w: World<C>, v: World<C>) {
    && v == w.(temp := v.temp)
    && ((exists t :: t in w.active && w.active[t].call.WriteRename?) ==> v.temp == w.temp)
  }

  lemma EnabledSame<C>(codec: Codec<C>, w: World<C>, v: World<C>, e: Event<C>)
    requires w.timeline != [] && SameButTemp(w, v) && Enabled(codec, w, e)
    ensures Enabled(codec, v, e)
  {
    if e.Advance? && w.active[e.tid].call.WriteRename? {
      assert v.temp == w.temp;
    }
  }

  lemma ReadSame<C>(codec: Codec<C>, w: World<C>, temp: Option<Stored>, t: Tid, stamp: Time)
    requires w.timeline != [] && t in w.active && CanAdvance(codec, w, w.active[t].call, stamp)
    requires var c := w.active[t].call; !(Exclusive(c) || c.WriteLock? || c.ClearLock?)
    ensures AdvanceRead(codec, w.(temp := temp), t) == AdvanceRead(codec, w, t).(temp := temp)
    ensures AdvanceRead(codec, w, t).temp == w.temp
  {
  }

  lemma ExclusiveSame<C>(codec: Codec<C>, w: World<C>, temp: Option<Stored>, t: Tid, stamp: Time)
    requires w.timeline != [] && t in w.active
    requires var c := w.active[t].call; Exclusive(c) || c.WriteLock? || c.ClearLock?
    requires w.active[t].call.WriteRename? ==> temp == w.temp
    ensures
      var w', v' := AdvanceExclusive(codec, w, t, stamp), AdvanceExclusive(codec, w.(temp := temp), t, stamp);
      v' == w' || (v' == w'.(temp := temp) && w'.temp == w.temp)
  {
    match w.active[t].call {
      case WriteLock(_, _) =>
      case WriteTemp(_, _) =>
      case WriteRename(_, _) =>
        assert w.(temp := temp) == w;
      case WriteStamp(_, _, _) =>
      case WriteStore(_, _, _, _) =>
      case ClearLock(_) =>
      case ClearRemove(_) =>
      case ClearStore(_, _) =>
      case ExclusiveUnlock(_, _, _) =>
    }
  }

  /** A step does the same to both worlds; if it touches the temporary file they become equal. */
  lemma EffectSame<C>(codec: Codec<C>, w: World<C>, v: World<C>, e: Event<C>)
    requires w.timeline != [] && SameButTemp(w, v) && Enabled(codec, w, e) && Enabled(codec, v, e)
    ensures
      var w', v' := Effect(codec, w, e), Effect(codec, v, e);
      v' == w' || (v' == w'.(temp := v.temp) && w'.temp == w.temp)
  {
    if e.Advance? {
      var c := w.active[e.tid].call;
      if Exclusive(c) || c.WriteLock? || c.ClearLock? {
        ExclusiveSame(codec, w, v.temp, e.tid, e.stamp);
      } else {
        ReadSame(codec, w, v.temp, e.tid, e.stamp);
      }
    }
  }

  /** Only writing the temporary file makes a call about to rename it. */
  lemma OnlyTempLeadsToRename<C>(codec: Codec<C>, w: World<C>, t: Tid, stamp: Time)
    requires w.timeline != [] && t in w.active && CanAdvance(codec, w, w.active[t].call, stamp)
    requires !w.active[t].call.WriteTemp?
    ensures
      var v := Effect(codec, w, Advance(t, stamp));
      t in v.active ==> !v.active[t].call.WriteRename?
  {
  }

  /** A call about to rename has just written the temporary file, or was about to rename before. */
  lemma RenamerIsOld<C>(codec: Codec<C>, w: World<C>, e: Event<C>, t: Tid)
    requires w.timeline != [] && Enabled(codec, w, e)
    requires var w' := Effect(codec, w, e); t in w'.active && w'.active[t].call.WriteRename?
    ensures
      || (t in w.active && w.active[t].call.WriteRename?)
      || (e.Advance? && e.tid == t && t in w.active && w.active[t].call.WriteTemp?)
  {
    if !e.Crash? {
      StepFrame(codec, w, e);
      if e.Advance? && !w.active[e.tid].call.WriteTemp? {
        OnlyTempLeadsToRename(codec, w, e.tid, e.stamp);
      }
    }
  }

  lemma StepSameButTemp<C>(codec: Codec<C>, w: World<C>, v: World<C>, e: Event<C>)
    requires w.timeline != [] && SameButTemp(w, v) && Enabled(codec, w, e)
    ensures Enabled(codec, v, e) && SameButTemp(Step(codec, w, e), Step(codec, v, e))
  {
    EnabledSame(codec, w, v, e);
    EffectSame(codec, w, v, e);
    var w', v' := Effect(codec, w, e), Effect(codec, v, e);
    if t :| t in w'.active && w'.active[t].call.WriteRename? {
      RenamerIsOld(codec, w, e, t);
    }
  }

  /** A temporary file left by a crash changes no later read, write, clear or cache, however long the run. */
  lemma {:induction false} LeftoverTempIsInert<C>(codec: Codec<C>, w: World<C>, v: World<C>, es: seq<Event<C>>)
    requires SameButTemp(w, v) && Runs(codec, w, es)
    ensures Runs(codec, v, es)
    ensures SameButTemp(After(codec, w, es), After(codec, v, es))
    decreases |es|
  {
    if es != [] {
      StepSameButTemp(codec, w, v, es[0]);
      LeftoverTempIsInert(codec, Step(codec, w, es[0]), Step(codec, v, es[0]), es[1..]);
    }
  }
}
