/**
 What the cache is for and what a failure leaves behind: the file changes only by a completed write or
 clear, temporary files do not pile up, and a read of an unchanged file goes without the lock.
 */
module FileCacheUse {
  import opened Common
  import opened FileCacheProtocol
  import opened FileCacheConsistency
  import opened FileCacheProgress

  // ---------------------------------------------------------------------------
  // Failures leave the file alone

  lemma OnlySuccessChanges<C>(codec: Codec<C>, w: World<C>, e: Event<C>)
    requires w.timeline != [] && Enabled(codec, w, e) && Step(codec, w, e).file != w.file
    ensures e.Advance? && (w.active[e.tid].call.WriteRename? || w.active[e.tid].call.ClearRemove?)
  {
  }

  lemma {:induction false} ChangesOverRun<C>(codec: Codec<C>, w: World<C>, es: seq<Event<C>>, k: nat)
    requires w.timeline != [] && w.timeline[|w.timeline| - 1] == w.file && Runs(codec, w, es) && k < |es|
    ensures
      var v, n := After(codec, w, es), |w.timeline|;
      && w.timeline <= v.timeline && |v.timeline| == n + |es|
      && (v.timeline[n + k] != v.timeline[n + k - 1] ==> es[k].Advance?)
    decreases |es|
  {
    var m := Step(codec, w, es[0]);
    assert m.timeline == w.timeline + [m.file];
    if m.file != w.file {
      OnlySuccessChanges(codec, w, es[0]);
    }
    if |es| > 1 {
      ChangesOverRun(codec, m, es[1..], if k == 0 then 0 else k - 1);
    } else {
      assert es[1..] == [];
    }
  }

  /** Over every run an error, a partial write, a failed look at the file or a crash never changes the file. */
  lemma FailuresLeaveTheFile<C>(codec: Codec<C>, file: Option<Stored>, temp: Option<Stored>, es: seq<Event<C>>, k: nat)
    requires Runs(codec, Initial(file, temp), es) && k < |es| && !es[k].Advance?
    ensures
      var seen := After(codec, Initial(file, temp), es).timeline;
      |seen| == |es| + 1 && seen[k + 1] == seen[k]
  {
    ChangesOverRun(codec, Initial(file, temp), es, k);
  }

  /** A crash ends exactly the calls of its process, so that the locks it held are free. */
  lemma CrashReleases<C>(codec: Codec<C>, w: World<C>, p: nat)
    requires w.timeline != []
    ensures
      var v := Step(codec, w, Crash(p));
      && (forall t :: t in v.active <==> t in w.active && w.active[t].instance.process != p)
      && (forall t :: t in v.active ==> v.active[t] == w.active[t])
      && ((forall t :: t in w.active && (Shared(w.active[t].call) || Exclusive(w.active[t].call)) ==>
             w.active[t].instance.process == p) ==> NoneHolds(v))
      && v.file == w.file && v.temp == w.temp
  {
  }

  // ---------------------------------------------------------------------------
  // Returns answer calls

  /** The event by which the call was made. */
  ghost predicate MadeBy<C>(e: Event<C>, t: Tid, call: Call<C>) {
    match call
    case WriteLock(_, content) => e.CallWrite? && e.tid == t && e.content == content
    case WriteTemp(_, content) => e.CallWrite? && e.tid == t && e.content == content
    case WriteRename(_, content) => e.CallWrite? && e.tid == t && e.content == content
    case WriteStamp(_, content, _) => e.CallWrite? && e.tid == t && e.content == content
    case WriteStore(_, content, _, _) => e.CallWrite? && e.tid == t && e.content == content
    case ClearLock(_) => e.CallClear? && e.tid == t
    case ClearRemove(_) => e.CallClear? && e.tid == t
    case ClearStore(_, _) => e.CallClear? && e.tid == t
    case ExclusiveUnlock(_, outcome, _) => AsksFor(e, t, outcome) && !outcome.DidRead?
    case _ => e.CallRead? && e.tid == t
  }

  /** The event is the call that such an outcome answers. */
  ghost predicate AsksFor<C>(e: Event<C>, t: Tid, outcome: Outcome<C>) {
    match outcome
    case DidRead(_) => e.CallRead? && e.tid == t
    case DidWrite(content) => e.CallWrite? && e.tid == t && e.content == content
    case DidClear => e.CallClear? && e.tid == t
  }

  ghost predicate CallMade<C>(past: seq<Event<C>>, t: Tid, call: Call<C>) {
    call.since < |past| && MadeBy(past[call.since], t, call)
  }

  ghost predicate ReturnAnswers<C>(past: seq<Event<C>>, r: Returned<C>) {
    && r.since < r.until < |past|
    && AsksFor(past[r.since], r.tid, r.outcome)
    && past[r.until].Advance? && past[r.until].tid == r.tid
  }

  ghost predicate CallsMade<C>(past: seq<Event<C>>, w: World<C>) {
    && |w.timeline| == |past| + 1
    && (forall t :: t in w.active ==> CallMade(past, t, w.active[t].call))
    && (forall k :: 0 <= k < |w.returned| ==> ReturnAnswers(past, w.returned[k]))
  }

  lemma ReadGoesOn<C>(codec: Codec<C>, w: World<C>, t: Tid, stamp: Time, e: Event<C>)
    requires w.timeline != [] && t in w.active && CanAdvance(codec, w, w.active[t].call, stamp)
    requires var c := w.active[t].call; !(Exclusive(c) || c.WriteLock? || c.ClearLock?)
    requires MadeBy(e, t, w.active[t].call)
    ensures
      var v, c := AdvanceRead(codec, w, t), w.active[t].call;
      && (t in v.active ==> v.active[t].call.since == c.since && MadeBy(e, t, v.active[t].call))
      && (|| v.returned == w.returned
          || exists r :: v.returned == w.returned + [r] && r.tid == t && r.since == c.since && r.until == Now(w)
               && AsksFor(e, t, r.outcome))
  {
    var v, c := AdvanceRead(codec, w, t), w.active[t].call;
    if c.ReadReturn? {
      assert v.returned == w.returned + [Returned(t, c.since, c.at, Now(w), DidRead(c.content))];
    }
  }

  lemma ExclusiveGoesOn<C>(codec: Codec<C>, w: World<C>, t: Tid, stamp: Time, e: Event<C>)
    requires w.timeline != [] && t in w.active && CanAdvance(codec, w, w.active[t].call, stamp)
    requires var c := w.active[t].call; Exclusive(c) || c.WriteLock? || c.ClearLock?
    requires MadeBy(e, t, w.active[t].call)
    ensures
      var v, c := AdvanceExclusive(codec, w, t, stamp), w.active[t].call;
      && (t in v.active ==> v.active[t].call.since == c.since && MadeBy(e, t, v.active[t].call))
      && (|| v.returned == w.returned
          || exists r :: v.returned == w.returned + [r] && r.tid == t && r.since == c.since && r.until == Now(w)
               && AsksFor(e, t, r.outcome))
  {
    var v, c := AdvanceExclusive(codec, w, t, stamp), w.active[t].call;
    if c.ExclusiveUnlock? {
      assert v.returned == w.returned + [Returned(t, c.since, c.at, Now(w), c.outcome)];
    }
  }

  lemma OwnCallMade<C>(codec: Codec<C>, past: seq<Event<C>>, w: World<C>, e: Event<C>)
    requires CallsMade(past, w) && w.timeline != [] && Enabled(codec, w, e) && !e.Crash?
    ensures
      var v := Step(codec, w, e);
      && (e.tid in v.active ==> CallMade(past + [e], e.tid, v.active[e.tid].call))
      && (|| v.returned == w.returned
          || exists r :: v.returned == w.returned + [r] && ReturnAnswers(past + [e], r))
  {
    var v := Step(codec, w, e);
    if e.tid in w.active {
      var c := w.active[e.tid].call;
      assert CallMade(past, e.tid, c) && (past + [e])[c.since] == past[c.since];
      if e.Advance? {
        if Exclusive(c) || c.WriteLock? || c.ClearLock? {
          ExclusiveGoesOn(codec, w, e.tid, e.stamp, past[c.since]);
        } else {
          ReadGoesOn(codec, w, e.tid, e.stamp, past[c.since]);
        }
        if v.returned != w.returned {
          var r :| v.returned == w.returned + [r] && r.tid == e.tid && r.since == c.since && r.until == Now(w)
            && AsksFor(past[c.since], e.tid, r.outcome);
          assert (past + [e])[r.until] == e && ReturnAnswers(past + [e], r);
        }
      }
    } else {
      assert (past + [e])[|past|] == e;
    }
  }

  lemma StepKeepsCallsMade<C>(codec: Codec<C>, past: seq<Event<C>>, w: World<C>, e: Event<C>)
    requires CallsMade(past, w) && w.timeline != [] && Enabled(codec, w, e)
    ensures CallsMade(past + [e], Step(codec, w, e))
  {
    var v := Step(codec, w, e);
    if !e.Crash? {
      StepFrame(codec, w, e);
      OwnCallMade(codec, past, w, e);
    }
    forall t | t in v.active
      ensures CallMade(past + [e], t, v.active[t].call)
    {
      if e.Crash? || t != e.tid {
        assert CallMade(past, t, w.active[t].call) && v.active[t] == w.active[t];
      }
    }
    forall k | 0 <= k < |v.returned|
      ensures ReturnAnswers(past + [e], v.returned[k])
    {
      if k < |w.returned| {
        assert v.returned[k] == w.returned[k] && ReturnAnswers(past, w.returned[k]);
      }
    }
  }

  lemma {:induction false} CallsMadeOverRun<C>(codec: Codec<C>, past: seq<Event<C>>, w: World<C>, es: seq<Event<C>>)
    requires CallsMade(past, w) && Runs(codec, w, es)
    ensures CallsMade(past + es, After(codec, w, es))
    decreases |es|
  {
    if es == [] {
      assert past + es == past;
    } else {
      StepKeepsCallsMade(codec, past, w, es[0]);
      CallsMadeOverRun(codec, past + [es[0]], Step(codec, w, es[0]), es[1..]);
      assert past + [es[0]] + es[1..] == past + es;
    }
  }

  /**
   Over every run each return answers a call: event `since` of the run is that call, by the same task and, for a
   write, with that content, and event `until` is the step that returned. Together with `CallsAreTrue`, which puts
   the effect between the two, calls happen as if each took place at one instant.
   */
  lemma ReturnsAnswerCalls<C>(codec: Codec<C>, file: Option<Stored>, temp: Option<Stored>, es: seq<Event<C>>, k: nat)
    requires Runs(codec, Initial(file, temp), es)
    requires k < |After(codec, Initial(file, temp), es).returned|
    ensures
      var r := After(codec, Initial(file, temp), es).returned[k];
      && r.since < r.until < |es|
      && AsksFor(es[r.since], r.tid, r.outcome)
      && es[r.until].Advance? && es[r.until].tid == r.tid
  {
    CallsMadeOverRun(codec, [], Initial(file, temp), es);
    assert [] + es == es;
    assert ReturnAnswers(es, After(codec, Initial(file, temp), es).returned[k]);
  }

  // ---------------------------------------------------------------------------
  // Temporary files do not pile up

  /** Nobody dies and no write of the temporary file fails. */
  ghost predicate Calm<C>(w: World<C>, e: Event<C>) {
    !e.Crash? && !(e.Throws? && e.tid in w.active && w.active[e.tid].call.WriteTemp?)
  }

  ghost predicate TempInUse<C>(w: World<C>) {
    w.temp.Some? ==> exists t :: t in w.active && (w.active[t].call.WriteTemp? || w.active[t].call.WriteRename?)
  }

  /** Only a call that wrote the temporary file, or renames or removes it, stops using it. */
  lemma StepKeepsTemp<C>(codec: Codec<C>, w: World<C>, e: Event<C>)
    requires w.timeline != [] && LocksOk(w) && TempInUse(w) && Enabled(codec, w, e) && Calm(w, e)
    ensures TempInUse(Step(codec, w, e))
  {
    var v := Step(codec, w, e);
    if v.temp.Some? {
      if e.tid in w.active && (w.active[e.tid].call.WriteTemp? || w.active[e.tid].call.WriteRename?) {
        assert e.tid in v.active && (v.active[e.tid].call.WriteTemp? || v.active[e.tid].call.WriteRename?);
      } else {
        assert v.temp == w.temp;
        var t :| t in w.active && (w.active[t].call.WriteTemp? || w.active[t].call.WriteRename?);
        assert t in v.active && v.active[t] == w.active[t];
      }
    }
  }

  ghost predicate CalmRun<C>(codec: Codec<C>, w: World<C>, es: seq<Event<C>>)
    requires Runs(codec, w, es)
    decreases |es|
  {
    es != [] ==> Calm(w, es[0]) && CalmRun(codec, Step(codec, w, es[0]), es[1..])
  }

  lemma {:induction false} TempOverRun<C>(codec: Codec<C>, w: World<C>, es: seq<Event<C>>)
    requires w.timeline != [] && LocksOk(w) && TempInUse(w) && Runs(codec, w, es) && CalmRun(codec, w, es)
    ensures TempInUse(After(codec, w, es))
    decreases |es|
  {
    if es != [] {
      StepKeepsTemp(codec, w, es[0]);
      StepLocks(codec, w, es[0]);
      TempOverRun(codec, Step(codec, w, es[0]), es[1..]);
    }
  }

  /**
   While no process dies and no write of it fails, a temporary file is there only while a write is at work on it:
   a rename takes it away, and so does a rename that fails.
   */
  lemma TempOnlyWhileWriting<C>(codec: Codec<C>, file: Option<Stored>, es: seq<Event<C>>)
    requires Runs(codec, Initial(file, None), es) && CalmRun(codec, Initial(file, None), es)
    ensures
      var w := After(codec, Initial(file, None), es);
      w.temp.Some? ==> exists t :: t in w.active && (w.active[t].call.WriteTemp? || w.active[t].call.WriteRename?)
  {
    TempOverRun(codec, Initial(file, None), es);
  }

  // ---------------------------------------------------------------------------
  // What an instance remembers

  /** The cache of an instance after a step, from the calls alone: what was last stored, until its process dies. */
  ghost function Remembered<C>(w: World<C>, e: Event<C>, i: Instance, cache: Cache<C>): Cache<C> {
    if e.Crash? && e.process == i.process then Cache(None, None)
    else if e.Advance? && e.tid in w.active && w.active[e.tid].instance == i then
      match w.active[e.tid].call
      case ReadStore(_, content, mtime, _) => Cache(Some(content), mtime)
      case WriteStore(_, content, mtime, _) => Cache(Some(content), mtime)
      case ClearStore(_, _) => Cache(None, None)
      case _ => cache
    else cache
  }

  ghost function LastStored<C>(codec: Codec<C>, w: World<C>, es: seq<Event<C>>, i: Instance, cache: Cache<C>): Cache<C>
    requires Runs(codec, w, es)
    decreases |es|
  {
    if es == [] then cache
    else LastStored(codec, Step(codec, w, es[0]), es[1..], i, Remembered(w, es[0], i, cache))
  }

  lemma ReadRemembers<C>(codec: Codec<C>, w: World<C>, t: Tid, stamp: Time, i: Instance)
    requires w.timeline != [] && t in w.active && CanAdvance(codec, w, w.active[t].call, stamp)
    requires var c := w.active[t].call; !(Exclusive(c) || c.WriteLock? || c.ClearLock?)
    ensures CacheOf(AdvanceRead(codec, w, t), i) == Remembered(w, Advance(t, stamp), i, CacheOf(w, i))
  {
  }

  lemma WriteRemembers<C>(codec: Codec<C>, w: World<C>, t: Tid, stamp: Time, i: Instance)
    requires w.timeline != [] && t in w.active
    requires var c := w.active[t].call; Exclusive(c) || c.WriteLock? || c.ClearLock?
    ensures CacheOf(AdvanceExclusive(codec, w, t, stamp), i) == Remembered(w, Advance(t, stamp), i, CacheOf(w, i))
  {
  }

  lemma StepRemembers<C>(codec: Codec<C>, w: World<C>, e: Event<C>, i: Instance)
    requires w.timeline != [] && Enabled(codec, w, e)
    ensures CacheOf(Step(codec, w, e), i) == Remembered(w, e, i, CacheOf(w, i))
  {
    if e.Advance? {
      var c := w.active[e.tid].call;
      if Exclusive(c) || c.WriteLock? || c.ClearLock? {
        WriteRemembers(codec, w, e.tid, e.stamp, i);
      } else {
        ReadRemembers(codec, w, e.tid, e.stamp, i);
      }
    }
  }

  /** Over every run an instance remembers what its last read or write stored, and nothing after a clear. */
  lemma {:induction false} CacheIsLastStored<C>(codec: Codec<C>, w: World<C>, es: seq<Event<C>>, i: Instance)
    requires Runs(codec, w, es)
    ensures CacheOf(After(codec, w, es), i) == LastStored(codec, w, es, i, CacheOf(w, i))
    decreases |es|
  {
    if es != [] {
      StepRemembers(codec, w, es[0], i);
      CacheIsLastStored(codec, Step(codec, w, es[0]), es[1..], i);
    }
  }

  /** A read goes without the lock exactly if its instance remembers the modification time it saw. */
  lemma FastExactlyWhenRemembered<C>(codec: Codec<C>, w: World<C>, t: Tid, stamp: Time)
    requires w.timeline != [] && t in w.active && w.active[t].call.ReadCheck?
    ensures
      var seen, cache := w.active[t].call.mtime, CacheOf(w, w.active[t].instance);
      var v := Step(codec, w, Advance(t, stamp));
      && t in v.active
      && (v.active[t].call.ReadReturn? <==> seen.Some? && cache.modified == seen && cache.content.Some?)
      && (v.active[t].call.ReadReturn? ==> v.active[t].call.content == cache.content.value)
      && (!v.active[t].call.ReadReturn? ==> v.active[t].call.ReadLock?)
  {
  }

  /** A run with one more step. */
  lemma Then<C>(codec: Codec<C>, w: World<C>, es: seq<Event<C>>, e: Event<C>)
    requires Runs(codec, w, es) && After(codec, w, es).timeline != [] && Enabled(codec, After(codec, w, es), e)
    ensures Runs(codec, w, es + [e]) && After(codec, w, es + [e]) == Step(codec, After(codec, w, es), e)
  {
    One(codec, After(codec, w, es), e);
    Concat(codec, w, es, [e]);
  }

  function Stamped(mtime: Time, statOk: bool): Option<Time> {
    if statOk then Some(mtime) else None
  }

  /** The write, undisturbed: it holds the lock, replaces the file, and remembers what it wrote. */
  lemma UndisturbedWrite<C>(codec: Codec<C>, w: World<C>, t: Tid, stamp: Time, statOk: bool) returns (es: seq<Event<C>>)
    requires w.timeline != [] && t in w.active && w.active[t].call.WriteLock? && NoneHolds(w) && FreshTime(w, stamp)
    ensures Runs(codec, w, es)
    ensures
      var v, content := After(codec, w, es), w.active[t].call.content;
      && t in v.active && v.active[t].call.ExclusiveUnlock? && v.active[t].call.outcome == DidWrite(content)
      && v.file == Some(Stored(codec.encode(content), stamp)) && v.temp == None
      && CacheOf(v, w.active[t].instance) == Cache(Some(content), Stamped(stamp, statOk))
  {
    var i, content, since := w.active[t].instance, w.active[t].call.content, w.active[t].call.since;
    es := [];
    Then(codec, w, es, Advance(t, 0));
    es := es + [Advance(t, 0)];
    assert After(codec, w, es).active[t] == Active(i, WriteTemp(since, content));
    Then(codec, w, es, Advance(t, stamp));
    es := es + [Advance(t, stamp)];
    assert After(codec, w, es).active[t] == Active(i, WriteRename(since, content));
    Then(codec, w, es, Advance(t, 0));
    es := es + [Advance(t, 0)];
    StampAndStore(codec, After(codec, w, es), t, statOk);
    var stat := if statOk then Advance(t, 0) else StatFails(t);
    Then(codec, w, es, stat);
    es := es + [stat];
    Then(codec, w, es, Advance(t, 0));
    es := es + [Advance(t, 0)];
  }

  /** The last two steps of a write: looking at the new file, and remembering it. */
  lemma StampAndStore<C>(codec: Codec<C>, w: World<C>, t: Tid, statOk: bool)
    requires w.timeline != [] && t in w.active && w.active[t].call.WriteStamp? && w.file.Some?
    ensures
      var stat := if statOk then Advance(t, 0) else StatFails(t);
      && Enabled(codec, w, stat) && Step(codec, w, stat).timeline != []
      && Enabled(codec, Step(codec, w, stat), Advance(t, 0))
      && var v := Step(codec, Step(codec, w, stat), Advance(t, 0));
         && t in v.active && v.active[t].call.ExclusiveUnlock? && v.file == w.file && v.temp == w.temp
         && v.active[t].call.outcome == DidWrite(w.active[t].call.content)
         && CacheOf(v, w.active[t].instance)
            == Cache(Some(w.active[t].call.content), Stamped(w.file.value.mtime, statOk))
  {
    var stat := if statOk then Advance(t, 0) else StatFails(t);
    var v, c := Step(codec, w, stat), w.active[t].call;
    assert v.active[t] == Active(w.active[t].instance,
                                 WriteStore(c.since, c.content, Stamped(w.file.value.mtime, statOk), c.at));
  }

  /** The slow read, undisturbed: it gives back what the file holds and remembers it. */
  lemma UndisturbedRead<C>(codec: Codec<C>, w: World<C>, t: Tid, statOk: bool) returns (es: seq<Event<C>>)
    requires w.timeline != [] && t in w.active && w.active[t].call.ReadLock? && NoneHoldsExclusive(w)
    requires w.file.Some? && codec.decode(w.file.value.bytes).Some?
    ensures Runs(codec, w, es)
    ensures
      var v, content := After(codec, w, es), codec.decode(w.file.value.bytes).value;
      && t in v.active && v.active[t].call.ReadUnlock? && v.active[t].call.content == content && v.file == w.file
      && CacheOf(v, w.active[t].instance) == Cache(Some(content), Stamped(w.file.value.mtime, statOk))
  {
    var i, since, content := w.active[t].instance, w.active[t].call.since, codec.decode(w.file.value.bytes).value;
    es := [];
    Then(codec, w, es, Advance(t, 0));
    es := es + [Advance(t, 0)];
    assert After(codec, w, es).active[t] == Active(i, ReadData(since));
    Then(codec, w, es, Advance(t, 0));
    es := es + [Advance(t, 0)];
    var w2 := After(codec, w, es);
    assert w2.active[t] == Active(i, ReadStamp(since, content, w2.active[t].call.at)) && w2.file == w.file;
    LookAndStore(codec, w2, t, statOk);
    var stat := if statOk then Advance(t, 0) else StatFails(t);
    Then(codec, w, es, stat);
    es := es + [stat];
    Then(codec, w, es, Advance(t, 0));
    es := es + [Advance(t, 0)];
  }

  lemma LookAndStore<C>(codec: Codec<C>, w: World<C>, t: Tid, statOk: bool)
    requires w.timeline != [] && t in w.active && w.active[t].call.ReadStamp? && w.file.Some?
    ensures
      var stat := if statOk then Advance(t, 0) else StatFails(t);
      && Enabled(codec, w, stat) && Step(codec, w, stat).timeline != []
      && Enabled(codec, Step(codec, w, stat), Advance(t, 0))
      && var v := Step(codec, Step(codec, w, stat), Advance(t, 0));
         && t in v.active && v.active[t].call.ReadUnlock? && v.file == w.file
         && v.active[t].call.content == w.active[t].call.content
         && CacheOf(v, w.active[t].instance)
            == Cache(Some(w.active[t].call.content), Stamped(w.file.value.mtime, statOk))
  {
    var stat := if statOk then Advance(t, 0) else StatFails(t);
    var v, c := Step(codec, w, stat), w.active[t].call;
    assert v.active[t] == Active(w.active[t].instance,
                                 ReadStore(c.since, c.content, Stamped(w.file.value.mtime, statOk), c.at));
  }

  /**
   Whoever remembers the file as it is, as after an undisturbed read or write, reads it without the lock; if a
   look at the file failed, then or now, the read takes the lock.
   */
  lemma ReadAgain<C>(codec: Codec<C>, w: World<C>, t: Tid, i: Instance, content: C, statOk: bool)
    returns (es: seq<Event<C>>)
    requires w.timeline != [] && t !in w.active && w.file.Some? && CacheOf(w, i).content == Some(content)
    requires CacheOf(w, i).modified.None? || CacheOf(w, i).modified == Some(w.file.value.mtime)
    ensures Runs(codec, w, es) && t in After(codec, w, es).active
    ensures
      var call := After(codec, w, es).active[t].call;
      if statOk && CacheOf(w, i).modified.Some? then call.ReadReturn? && call.content == content else call.ReadLock?
  {
    es := [];
    Then(codec, w, es, CallRead(t, i));
    es := es + [CallRead(t, i)];
    var stat := if statOk then Advance(t, 0) else StatFails(t);
    Then(codec, w, es, stat);
    es := es + [stat];
    var w2 := After(codec, w, es);
    assert w2.active[t].call.mtime == Stamped(w.file.value.mtime, statOk) && CacheOf(w2, i) == CacheOf(w, i);
    Then(codec, w, es, Advance(t, 0));
    es := es + [Advance(t, 0)];
  }
}
