/**
 The lock never leaves the calls of the file cache stuck: from every state that can be reached, each
 call under way can be brought to its end, and a write to its success.
 */
module FileCacheProgress {
  import opened Common
  import opened FileCacheProtocol
  import opened FileCacheConsistency

  lemma {:induction false} FreshStamp(written: set<Stored>) returns (stamp: Time)
    ensures forall s :: s in written ==> s.mtime < stamp
    decreases |written|
  {
    if written == {} {
      stamp := 0;
    } else {
      var a :| a in written;
      var k := FreshStamp(written - {a});
      stamp := if k <= a.mtime then a.mtime + 1 else k;
      assert forall s :: s in written ==> s == a || s in written - {a};
    }
  }

  /** How many steps a call is away from its end. */
  function Distance<C>(call: Call<C>): nat {
    match call
    case ReadStat(_) => 8
    case ReadCheck(_, _, _) => 7
    case ReadLock(_) => 6
    case ReadData(_) => 5
    case ReadStamp(_, _, _) => 4
    case ReadStore(_, _, _, _) => 3
    case ReadUnlock(_, _, _) => 2
    case ReadReturn(_, _, _) => 1
    case WriteLock(_, _) => 6
    case WriteTemp(_, _) => 5
    case WriteRename(_, _) => 4
    case WriteStamp(_, _, _) => 3
    case WriteStore(_, _, _, _) => 2
    case ClearLock(_) => 4
    case ClearRemove(_) => 3
    case ClearStore(_, _) => 2
    case ExclusiveUnlock(_, _, _) => 1
  }

  /** The content the call is there to write, if it is a write. */
  function ToWrite<C>(call: Call<C>): Option<C> {
    match call
    case WriteLock(_, content) => Some(content)
    case WriteTemp(_, content) => Some(content)
    case WriteRename(_, content) => Some(content)
    case WriteStamp(_, content, _) => Some(content)
    case WriteStore(_, content, _, _) => Some(content)
    case ExclusiveUnlock(_, DidWrite(content), _) => Some(content)
    case _ => None
  }

  predicate Locking<C>(call: Call<C>) {
    call.ReadLock? || call.WriteLock? || call.ClearLock?
  }

  ghost predicate Free<C>(w: World<C>, call: Call<C>) {
    && (call.ReadLock? ==> NoneHoldsExclusive(w))
    && (call.WriteLock? || call.ClearLock? ==> NoneHolds(w))
  }

  ghost predicate OthersSame<C>(w: World<C>, v: World<C>, t: Tid) {
    && (forall u :: u in w.active && u != t ==> u in v.active && v.active[u] == w.active[u])
    && (forall u :: u in v.active && u != t ==> u in w.active)
  }

  ghost predicate Unreadable<C>(codec: Codec<C>, file: Option<Stored>) {
    file.None? || codec.decode(file.value.bytes).None?
  }

  /** The call returned after the first `n` returns, a write with its own content. */
  ghost predicate Succeeds<C>(v: World<C>, n: nat, t: Tid, content: Option<C>) {
    exists k :: n <= k < |v.returned| && v.returned[k].tid == t
      && (content.Some? ==> v.returned[k].outcome == DidWrite(content.value))
  }

  /** It returned; or, unless it is a write, it found no file, or one that it could not decode. */
  ghost predicate Ended<C>(codec: Codec<C>, w: World<C>, v: World<C>, t: Tid, content: Option<C>) {
    && t !in v.active && |w.timeline| <= |v.timeline|
    && (|| Succeeds(v, |w.returned|, t, content)
        || (content.None?
            && exists i :: 0 <= i && |w.timeline| - 1 <= i < |v.timeline| && Unreadable(codec, v.timeline[i])))
  }

  /** One step closer, with the same purpose. */
  ghost predicate Closer<C>(w: World<C>, v: World<C>, t: Tid)
    requires t in w.active
  {
    && t in v.active && Distance(v.active[t].call) < Distance(w.active[t].call)
    && ToWrite(v.active[t].call) == ToWrite(w.active[t].call)
    && (!Locking(v.active[t].call) || w.active[t].call.ReadCheck?)
  }

  lemma ReadCloser<C>(codec: Codec<C>, w: World<C>, t: Tid, stamp: Time)
    requires w.timeline != [] && t in w.active && CanAdvance(codec, w, w.active[t].call, stamp)
    requires var c := w.active[t].call; !(Exclusive(c) || c.WriteLock? || c.ClearLock?)
    ensures
      var v := AdvanceRead(codec, w, t);
      && OthersSame(w, v, t)
      && (Closer(w, v, t) || (t !in v.active && |v.returned| == |w.returned| + 1 && v.returned[|w.returned|].tid == t))
      && ToWrite(w.active[t].call) == None
  {
  }

  /** The call has just returned, a write with its content. */
  ghost predicate JustReturned<C>(w: World<C>, v: World<C>, t: Tid)
    requires t in w.active
  {
    && t !in v.active && |v.returned| == |w.returned| + 1 && v.returned[|w.returned|].tid == t
    && (ToWrite(w.active[t].call).Some? ==>
          v.returned[|w.returned|].outcome == DidWrite(ToWrite(w.active[t].call).value))
  }

  lemma UnlockReturns<C>(codec: Codec<C>, w: World<C>, t: Tid, stamp: Time)
    requires w.timeline != [] && t in w.active && w.active[t].call.ExclusiveUnlock?
    ensures var v := AdvanceExclusive(codec, w, t, stamp); OthersSame(w, v, t) && JustReturned(w, v, t)
  {
  }

  lemma OthersKeepStill<C>(codec: Codec<C>, w: World<C>, t: Tid, stamp: Time)
    requires w.timeline != [] && t in w.active
    requires var c := w.active[t].call; Exclusive(c) || c.WriteLock? || c.ClearLock?
    ensures OthersSame(w, AdvanceExclusive(codec, w, t, stamp), t)
  {
  }

  lemma WriteCloser<C>(codec: Codec<C>, w: World<C>, t: Tid, stamp: Time)
    requires w.timeline != [] && t in w.active
    requires
      var c := w.active[t].call;
      c.WriteLock? || c.WriteTemp? || c.WriteRename? || c.WriteStamp? || c.WriteStore?
    ensures Closer(w, AdvanceExclusive(codec, w, t, stamp), t)
  {
  }

  lemma ClearCloser<C>(codec: Codec<C>, w: World<C>, t: Tid, stamp: Time)
    requires w.timeline != [] && t in w.active
    requires var c := w.active[t].call; c.ClearLock? || c.ClearRemove? || c.ClearStore?
    ensures Closer(w, AdvanceExclusive(codec, w, t, stamp), t)
  {
  }

  lemma ExclusiveCloser<C>(codec: Codec<C>, w: World<C>, t: Tid, stamp: Time)
    requires w.timeline != [] && t in w.active && CanAdvance(codec, w, w.active[t].call, stamp)
    requires var c := w.active[t].call; Exclusive(c) || c.WriteLock? || c.ClearLock?
    ensures
      var v := AdvanceExclusive(codec, w, t, stamp);
      OthersSame(w, v, t) && (Closer(w, v, t) || JustReturned(w, v, t))
  {
    var call := w.active[t].call;
    OthersKeepStill(codec, w, t, stamp);
    if call.ExclusiveUnlock? {
      UnlockReturns(codec, w, t, stamp);
    } else if call.ClearLock? || call.ClearRemove? || call.ClearStore? {
      ClearCloser(codec, w, t, stamp);
    } else {
      WriteCloser(codec, w, t, stamp);
    }
  }

  /** A call that is not kept out by the lock has a step that brings it closer to its end, or ends it. */
  lemma FreeCallSteps<C>(codec: Codec<C>, w: World<C>, t: Tid) returns (e: Event<C>)
    requires Inv(codec, w) && t in w.active && Free(w, w.active[t].call)
    ensures Enabled(codec, w, e)
    ensures
      var v := Step(codec, w, e);
      && OthersSame(w, v, t)
      && (Closer(w, v, t) || Ended(codec, w, v, t, ToWrite(w.active[t].call)))
  {
    var call := w.active[t].call;
    var stamp := FreshStamp(w.written);
    assert CallOk(codec, w, t, call);
    if CanAdvance(codec, w, call, stamp) {
      e := Advance(t, stamp);
      if Exclusive(call) || call.WriteLock? || call.ClearLock? {
        ExclusiveCloser(codec, w, t, stamp);
      } else {
        ReadCloser(codec, w, t, stamp);
      }
    } else {
      e := Throws(t);
      assert Unreadable(codec, w.file);
      assert Step(codec, w, e).timeline[|w.timeline| - 1] == w.file;
    }
  }

  lemma {:induction false} Concat<C>(codec: Codec<C>, w: World<C>, es: seq<Event<C>>, fs: seq<Event<C>>)
    requires Runs(codec, w, es) && Runs(codec, After(codec, w, es), fs)
    ensures Runs(codec, w, es + fs) && After(codec, w, es + fs) == After(codec, After(codec, w, es), fs)
    decreases |es|
  {
    if es == [] {
      assert es + fs == fs;
    } else {
      Concat(codec, Step(codec, w, es[0]), es[1..], fs);
      assert (es + fs)[1..] == es[1..] + fs;
    }
  }

  lemma One<C>(codec: Codec<C>, w: World<C>, e: Event<C>)
    requires w.timeline != [] && Enabled(codec, w, e) && Step(codec, w, e).timeline != []
    ensures Runs(codec, w, [e]) && After(codec, w, [e]) == Step(codec, w, e)
  {
    var v := Step(codec, w, e);
    assert Runs(codec, v, []) && After(codec, v, []) == v;
    assert [e][1..] == [];
  }

  /** What a later world keeps: the timeline and the returns so far. */
  ghost predicate Continues<C>(w: World<C>, v: World<C>) {
    w.timeline <= v.timeline && w.returned <= v.returned
  }

  lemma StepContinues<C>(codec: Codec<C>, w: World<C>, e: Event<C>)
    requires TimelineOk(w) && CallsOk(codec, w) && Enabled(codec, w, e)
    ensures Continues(w, Step(codec, w, e))
  {
    NewReturn(codec, w, e);
  }

  lemma {:induction false} RunContinues<C(!new)>(codec: Codec<C>, w: World<C>, es: seq<Event<C>>)
    requires RoundTrips(codec) && Inv(codec, w) && Runs(codec, w, es)
    ensures Continues(w, After(codec, w, es)) && Inv(codec, After(codec, w, es))
    decreases |es|
  {
    if es != [] {
      StepContinues(codec, w, es[0]);
      StepKeepsInv(codec, w, es[0]);
      RunContinues(codec, Step(codec, w, es[0]), es[1..]);
    }
  }

  lemma EndedEarlier<C>(codec: Codec<C>, w: World<C>, m: World<C>, v: World<C>, t: Tid, content: Option<C>)
    requires Continues(w, m) && Ended(codec, m, v, t, content)
    ensures Ended(codec, w, v, t, content)
  {
  }

  /** A call past the locking goes to its end, and nobody else moves. */
  lemma {:induction false} Drive<C(!new)>(codec: Codec<C>, w: World<C>, t: Tid) returns (es: seq<Event<C>>)
    requires RoundTrips(codec) && Inv(codec, w) && t in w.active
    requires !Locking(w.active[t].call) && !w.active[t].call.ReadStat? && !w.active[t].call.ReadCheck?
    ensures Runs(codec, w, es)
    ensures
      var v := After(codec, w, es);
      Inv(codec, v) && OthersSame(w, v, t) && Ended(codec, w, v, t, ToWrite(w.active[t].call))
    decreases Distance(w.active[t].call)
  {
    var e := FreeCallSteps(codec, w, t);
    var v := Step(codec, w, e);
    StepKeepsInv(codec, w, e);
    One(codec, w, e);
    if t !in v.active {
      es := [e];
    } else {
      StepContinues(codec, w, e);
      assert !v.active[t].call.ReadStat? && !v.active[t].call.ReadCheck?;
      var rest := Drive(codec, v, t);
      es := [e] + rest;
      Concat(codec, w, [e], rest);
      EndedEarlier(codec, w, v, After(codec, v, rest), t, ToWrite(w.active[t].call));
    }
  }

  ghost function Holders<C>(w: World<C>): set<Tid> {
    set t | t in w.active && (Shared(w.active[t].call) || Exclusive(w.active[t].call))
  }

  /** Everyone who holds the lock goes to their end; whoever does not stays as they are. */
  lemma {:induction false} ReleaseAll<C(!new)>(codec: Codec<C>, w: World<C>) returns (es: seq<Event<C>>)
    requires RoundTrips(codec) && Inv(codec, w)
    ensures Runs(codec, w, es)
    ensures
      var v := After(codec, w, es);
      && Inv(codec, v) && NoneHolds(v)
      && forall u :: u in w.active && u !in Holders(w) ==> u in v.active && v.active[u] == w.active[u]
    decreases |Holders(w)|
  {
    if Holders(w) == {} {
      es := [];
      assert forall t :: t in w.active ==> t !in Holders(w);
    } else {
      var t :| t in Holders(w);
      var first := Drive(codec, w, t);
      var v := After(codec, w, first);
      HolderGone(w, v, t);
      var rest := ReleaseAll(codec, v);
      es := first + rest;
      Concat(codec, w, first, rest);
    }
  }

  lemma HolderGone<C>(w: World<C>, v: World<C>, t: Tid)
    requires t in Holders(w) && t !in v.active && OthersSame(w, v, t)
    ensures Holders(v) == Holders(w) - {t} && |Holders(v)| < |Holders(w)|
  {
  }

  /** A call waiting for the lock gets it once the holders have gone, and goes to its end. */
  lemma DriveLocking<C(!new)>(codec: Codec<C>, w: World<C>, t: Tid) returns (es: seq<Event<C>>)
    requires RoundTrips(codec) && Inv(codec, w) && t in w.active && Locking(w.active[t].call)
    ensures Runs(codec, w, es) && Inv(codec, After(codec, w, es))
    ensures Ended(codec, w, After(codec, w, es), t, ToWrite(w.active[t].call))
  {
    var first := ReleaseAll(codec, w);
    RunContinues(codec, w, first);
    var m := After(codec, w, first);
    assert t !in Holders(w) && m.active[t] == w.active[t];
    var e := FreeCallSteps(codec, m, t);
    StepKeepsInv(codec, m, e);
    StepContinues(codec, m, e);
    One(codec, m, e);
    Concat(codec, w, first, [e]);
    var n := Step(codec, m, e);
    es := first + [e];
    if t in n.active {
      var rest := DriveLocked(codec, m, n, t);
      Concat(codec, w, es, rest);
      es := es + rest;
      EndedEarlier(codec, m, n, After(codec, n, rest), t, ToWrite(w.active[t].call));
    }
    EndedEarlier(codec, w, m, After(codec, w, es), t, ToWrite(w.active[t].call));
  }

  lemma DriveLocked<C(!new)>(codec: Codec<C>, m: World<C>, n: World<C>, t: Tid) returns (es: seq<Event<C>>)
    requires RoundTrips(codec) && Inv(codec, n) && t in m.active && Locking(m.active[t].call) && Closer(m, n, t)
    ensures Runs(codec, n, es) && Inv(codec, After(codec, n, es))
    ensures Ended(codec, n, After(codec, n, es), t, ToWrite(m.active[t].call))
  {
    es := Drive(codec, n, t);
  }

  /** From any state that keeps the invariant, a call can be brought to its end. */
  lemma {:induction false} BringToEnd<C(!new)>(codec: Codec<C>, w: World<C>, t: Tid) returns (es: seq<Event<C>>)
    requires RoundTrips(codec) && Inv(codec, w) && t in w.active
    ensures Runs(codec, w, es) && Ended(codec, w, After(codec, w, es), t, ToWrite(w.active[t].call))
    decreases Distance(w.active[t].call)
  {
    var call := w.active[t].call;
    if Locking(call) {
      es := DriveLocking(codec, w, t);
    } else if call.ReadStat? || call.ReadCheck? {
      var e := FreeCallSteps(codec, w, t);
      var v := Step(codec, w, e);
      StepKeepsInv(codec, w, e);
      StepContinues(codec, w, e);
      One(codec, w, e);
      if t !in v.active {
        es := [e];
      } else {
        var rest := BringToEnd(codec, v, t);
        es := [e] + rest;
        Concat(codec, w, [e], rest);
        EndedEarlier(codec, w, v, After(codec, v, rest), t, ToWrite(call));
      }
    } else {
      es := Drive(codec, w, t);
    }
  }

  /**
   After any run, crashes included, every call under way can still be brought to its end. A write then returns
   with its content written; a read or clear returns, unless it finds no file or one that does not decode.
   */
  lemma EveryCallCanEnd<C(!new)>(codec: Codec<C>, file: Option<Stored>, temp: Option<Stored>,
                                 before: seq<Event<C>>, t: Tid)
    returns (es: seq<Event<C>>)
    requires RoundTrips(codec) && Runs(codec, Initial(file, temp), before)
    requires t in After(codec, Initial(file, temp), before).active
    ensures
      var w := After(codec, Initial(file, temp), before);
      && Runs(codec, w, es) && t !in After(codec, w, es).active
      && Ended(codec, w, After(codec, w, es), t, ToWrite(w.active[t].call))
  {
    InvOverRun(codec, Initial(file, temp), before);
    es := BringToEnd(codec, After(codec, Initial(file, temp), before), t);
  }
}
