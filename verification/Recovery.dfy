/** What a crash leaves of the state: the snapshot's events and, behind them, the entries above its
    number. When that amounts to the events of the log. */
module Recovery {
  import opened Wrappers
  import opened Wal
  import opened LogLaws
  import opened Protocol
  import opened ProtocolInvariant
  import opened ProtocolTheorems
  import opened Collapse
  import opened Traces

  // The trace amounts to the first `k` events, and those above `from` are all the same one.
  ghost predicate Tracks<E>(trace: seq<E>, history: seq<E>, from: int, k: int) {
    0 <= from <= k <= |history| && AllEqual(history[from..k]) && Distilled(trace) == Distilled(history[..k])
  }

  ghost predicate SnapTracks<S, E>(s: Option<Snapshot<S, E>>, history: seq<E>, onDisk: int) {
    s.Some? ==> exists k :: k <= onDisk && Tracks(s.value.trace, history, s.value.num, k)
  }

  ghost predicate SnapsTrack<S, E>(w: World<S, E>) {
    var onDisk := OnDisk(w.log, w.history);
    && (forall i :: 0 <= i < |w.snaps| ==> SnapTracks(w.snaps[i], w.history, onDisk))
    && (w.checkpoint.Captured? || w.checkpoint.Renamed? ==> SnapTracks(Some(w.checkpoint.snap), w.history, onDisk))
  }

  // What has to be so when a checkpoint captures the state: it amounts to events of the log that are
  // on disk, and those above the mark are repetitions of one event.
  ghost predicate Covered<S, E>(w: World<S, E>) {
    exists k :: k <= OnDisk(w.log, w.history) && Tracks(w.trace, w.history, w.log.processedSeq, k)
  }

  ghost predicate CapturesCovered<S, E>(m: Model<S, E>, w: World<S, E>, run: seq<Action<E>>)
    requires Legal(m, w, run)
    decreases |run|
  {
    run == [] || ((run[0].Capture? ==> Covered(w)) && CapturesCovered(m, Next(m, w, run[0]), run[1..]))
  }

  // ------------------------------------------------------------- replay

  // Replaying the entries above the snapshot's number on a state that tracks some of them.
  lemma ReplayTracks<E>(trace: seq<E>, known: seq<E>, num: nat, k: nat)
    requires num <= k <= |known| && Distilled(trace) == Distilled(known[..k])
    ensures Distilled(trace + known[num..]) == Distilled(known) <==> AllEqual(known[num..k])
  {
    var before, again, more := known[..num], known[num..k], known[k..];
    DistilledAppend(trace, known[..k], known[num..]);
    hide Distilled, AllEqual;
    Pieces(known, num, k);
    RepeatThenIff(before, again, more);
  }

  lemma Pieces<E>(known: seq<E>, num: nat, k: nat)
    requires num <= k <= |known|
    ensures var before, again, more := known[..num], known[num..k], known[k..];
            known[..k] + known[num..] == before + again + again + more && known == before + again + more
  {
    var before, again, more := known[..num], known[num..k], known[k..];
    assert known[..k] == before + again && known[num..] == again + more;
  }

  // ---------------------------------------------------------- preservation

  lemma TracksLater<E>(trace: seq<E>, history: seq<E>, later: seq<E>, from: int, k: int)
    requires Tracks(trace, history, from, k) && k <= |later| && (history <= later || later <= history)
    ensures Tracks(trace, later, from, k)
  {
    assert later[..k] == history[..k] && later[from..k] == history[from..k];
  }

  lemma SnapLater<S, E>(s: Option<Snapshot<S, E>>, history: seq<E>, onDisk: int, later: seq<E>, onDiskLater: int)
    requires SnapTracks(s, history, onDisk) && onDisk <= onDiskLater && onDisk <= |later|
    requires history <= later || later <= history
    ensures SnapTracks(s, later, onDiskLater)
  {
    if s.Some? {
      var k :| k <= onDisk && Tracks(s.value.trace, history, s.value.num, k);
      TracksLater(s.value.trace, history, later, s.value.num, k);
    }
  }

  // A life only adds to the log and to what is on disk.
  lemma DiskGrows<S, E>(m: Model<S, E>, w: World<S, E>, a: Action<E>)
    requires Inv(w) && Enabled(w, a) && !a.Crash?
    ensures var n := Next(m, w, a);
            w.history <= n.history && OnDisk(w.log, w.history) <= OnDisk(n.log, n.history) <= |n.history|
  {
    SyncLog(w.log, w.history);
    OnDiskBound(w.log, w.history);
    if a.Truncate? { TruncateLog(w.log, w.history, w.checkpoint.num); }
    hide Inv, LogOk, Sync, Truncated, Rewinds, AtCursor;
  }

  lemma LifeSnaps<S, E>(m: Model<S, E>, w: World<S, E>, a: Action<E>)
    requires Inv(w) && SnapsTrack(w) && Enabled(w, a) && !a.Crash? && (a.Capture? ==> Covered(w))
    ensures SnapsTrack(Next(m, w, a))
  {
    var n := Next(m, w, a);
    DiskGrows(m, w, a);
    var onDisk := OnDisk(w.log, w.history);
    OnDiskBound(w.log, w.history);
    NewSnaps(m, w, a);
    hide Inv, Next, OnDisk, Tracks, SnapTracks;
    forall i | 0 <= i < |n.snaps| ensures SnapTracks(n.snaps[i], n.history, OnDisk(n.log, n.history)) {
      SnapLater(n.snaps[i], w.history, onDisk, n.history, OnDisk(n.log, n.history));
    }
    if n.checkpoint.Captured? || n.checkpoint.Renamed? {
      SnapLater(Some(n.checkpoint.snap), w.history, onDisk, n.history, OnDisk(n.log, n.history));
    }
  }

  // Whatever snapshot there is after a step there was before, or it has just been captured.
  lemma NewSnaps<S, E>(m: Model<S, E>, w: World<S, E>, a: Action<E>)
    requires SnapsTrack(w) && Enabled(w, a) && !a.Crash? && (a.Capture? ==> Covered(w))
    ensures var n, onDisk := Next(m, w, a), OnDisk(w.log, w.history);
            && (forall i :: 0 <= i < |n.snaps| ==> SnapTracks(n.snaps[i], w.history, onDisk))
            && (n.checkpoint.Captured? || n.checkpoint.Renamed? ==>
                  SnapTracks(Some(n.checkpoint.snap), w.history, onDisk))
  {
    hide OnDisk, Tracks, Sync, Truncated, Rewinds, AtCursor, Appended, Advanced;
    if a.Capture? { CapturedSnap(w); }
    hide SnapTracks;
  }

  lemma CapturedSnap<S, E>(w: World<S, E>)
    requires Covered(w)
    ensures SnapTracks(Some(Snapshot(w.log.processedSeq, w.state, w.trace)), w.history, OnDisk(w.log, w.history))
  {
    hide Tracks, OnDisk;
  }

  // ------------------------------------------------------------- restarts

  lemma RebornFacts<S, E>(m: Model<S, E>, w: World<S, E>, a: Action<E>)
    requires Inv(w) && a.Crash? && Enabled(w, a)
    ensures var n, known, snap := Next(m, w, a), SurvivingHistory(w.log, w.history, a.written), w.snaps[a.pick];
            && n.history == known && n.snaps == [snap] && n.checkpoint.Idle? && n.reader.Checking?
            && n.delivered == [] && SnapNum(snap) <= |known| && n.log.processedSeq == SnapNum(snap)
            && n.trace == (if snap.Some? then snap.value.trace else []) + known[SnapNum(snap)..]
            && n.log.buffer == [] && n.applied == n.log.writeSeq && n.ahead == []
  {
    var known, snap := SurvivingHistory(w.log, w.history, a.written), w.snaps[a.pick];
    var file := TornFile(SurvivingLines(w.log, a.written), a.torn);
    CrashRestarts(m, w, a);
    assert Reborn(m, w, a) == Restarted(m, file, known, snap, a.clock)
        && Replayed(w, a) == ReplayedLines(file, snap) by {
      hide Restarted, TornFile, SurvivingLines, SurvivingHistory, Opened, Above, Readable, SnapNum, Inv;
    }
    hide *;
    CrashReplays(w, a);
    RestartedParts(m, file, known, snap, a.clock);
    SliceEvents(known, SnapNum(snap));
  }

  lemma SliceEvents<E>(history: seq<E>, num: nat)
    requires num <= |history|
    ensures Events(Slice(history, num, |history|)) == history[num..]
  {
  }

  lemma WholeLog<S, E>(w: World<S, E>)
    requires Inv(w) && w.log.buffer == []
    ensures w.log.writeSeq == |w.history| == OnDisk(w.log, w.history) && Last(w.base, w.delivered) <= |w.history|
  {
    hide SnapsFit, InOrder, Numbered, StageOk, ReaderOk;
  }

  // What a crash leaves amounts to the events that survived.
  lemma RecoveredTrace<S, E>(m: Model<S, E>, w: World<S, E>, a: Action<E>)
    requires Inv(w) && SnapsTrack(w) && a.Crash? && Enabled(w, a)
    ensures var n := Next(m, w, a); Distilled(n.trace) == Distilled(n.history) && SnapsTrack(n)
  {
    var n, snap := Next(m, w, a), w.snaps[a.pick];
    PickedTracks(w, a);
    hide *;
    RebornFacts(m, w, a);
    CrashInv(m, w, a);
    WholeLog(n);
    SnapRecovers(snap, n.history);
    FreshSnaps(n, snap);
  }

  lemma PickedTracks<S, E>(w: World<S, E>, a: Action<E>)
    requires Inv(w) && SnapsTrack(w) && a.Crash? && Enabled(w, a)
    ensures var known := SurvivingHistory(w.log, w.history, a.written); SnapTracks(w.snaps[a.pick], known, |known|)
  {
    var known := SurvivingHistory(w.log, w.history, a.written);
    OnDiskBound(w.log, w.history);
    assert OnDisk(w.log, w.history) <= |known| && known <= w.history;
    assert SnapTracks(w.snaps[a.pick], w.history, OnDisk(w.log, w.history)) by { hide Tracks, SnapTracks; }
    hide SnapTracks, Inv;
    SnapLater(w.snaps[a.pick], w.history, OnDisk(w.log, w.history), known, |known|);
  }

  lemma FreshSnaps<S, E>(n: World<S, E>, snap: Option<Snapshot<S, E>>)
    requires n.snaps == [snap] && n.checkpoint.Idle? && OnDisk(n.log, n.history) == |n.history|
    requires SnapTracks(snap, n.history, |n.history|)
    ensures SnapsTrack(n)
  {
    hide SnapTracks;
  }

  lemma SnapRecovers<S, E>(snap: Option<Snapshot<S, E>>, known: seq<E>)
    requires SnapTracks(snap, known, |known|) && SnapNum(snap) <= |known|
    ensures Distilled((if snap.Some? then snap.value.trace else []) + known[SnapNum(snap)..]) == Distilled(known)
  {
    hide Distilled, AllEqual;
    if snap.Some? {
      var k :| k <= |known| && Tracks(snap.value.trace, known, snap.value.num, k);
      ReplayTracks(snap.value.trace, known, snap.value.num, k);
    } else {
      assert [] + known[0..] == known;
    }
  }

  lemma FreshCursor<S, E>(n: World<S, E>)
    requires Inv(n) && n.delivered == [] && n.reader.Checking?
    ensures Cursor(n.log, n.history) == n.base + 1
  {
    hide SnapsFit, InOrder, Numbered, StageOk;
  }

  lemma NextSnaps<S, E>(m: Model<S, E>, w: World<S, E>, a: Action<E>)
    requires Inv(w) && SnapsTrack(w) && Enabled(w, a) && (a.Capture? ==> Covered(w))
    ensures SnapsTrack(Next(m, w, a))
  {
    hide *;
    if a.Crash? { RecoveredTrace(m, w, a); } else { LifeSnaps(m, w, a); }
  }

  lemma {:induction false} RunSnaps<S, E>(m: Model<S, E>, w: World<S, E>, run: seq<Action<E>>)
    requires Inv(w) && SnapsTrack(w) && Legal(m, w, run) && CapturesCovered(m, w, run)
    ensures SnapsTrack(After(m, w, run)) && Inv(After(m, w, run))
    decreases |run|
  {
    hide Inv, SnapsTrack, Next, Enabled, Covered;
    if run != [] {
      NextInv(m, w, run[0]);
      NextSnaps(m, w, run[0]);
      RunSnaps(m, Next(m, w, run[0]), run[1..]);
    }
  }

  lemma StartSnaps<S, E>(m: Model<S, E>)
    ensures SnapsTrack(Start(m))
  {
  }

  // ------------------------------------------------------------- the state

  // After any run at all, what a crash recovers is the fold of the snapshot's trace and the surviving
  // events above its number.
  lemma RecoveryIsTrace<S(!new), E(!new)>(m: Model<S, E>, run: seq<Action<E>>, a: Action<E>)
    requires Legal(m, Start(m), run) && a.Crash? && Enabled(After(m, Start(m), run), a) && Congruent(m)
    ensures var w := After(m, Start(m), run); var n, snap := Next(m, w, a), w.snaps[a.pick];
            && SnapNum(snap) <= |n.history| && n.history == SurvivingHistory(w.log, w.history, a.written)
            && n.trace == (if snap.Some? then snap.value.trace else []) + n.history[SnapNum(snap)..]
            && m.erase(n.state) == m.erase(Fold(m, n.trace))
  {
    StartInv(m);
    RunInv(m, Start(m), run);
    StartTrace(m);
    RunTrace(m, Start(m), run);
    var w := After(m, Start(m), run);
    hide Inv, After, Legal, Congruent, Fold, SurvivingHistory;
    RebornFacts(m, w, a);
    NextTrace(m, w, a);
    hide Next;
  }

  // If whatever a checkpoint captured amounted to events of the log, that is the fold of every event
  // that survived: whatever was applied early in between, however often it crashed.
  lemma RecoveryIsFold<S(!new), E(!new)>(m: Model<S, E>, run: seq<Action<E>>, a: Action<E>)
    requires Legal(m, Start(m), run) && CapturesCovered(m, Start(m), run)
    requires a.Crash? && Enabled(After(m, Start(m), run), a) && Congruent(m) && Idempotent(m)
    ensures var w := After(m, Start(m), run); var n := Next(m, w, a);
            && m.erase(n.state) == m.erase(Fold(m, n.history))
            && n.history <= w.history && |w.history| - |w.log.buffer| <= |n.history|
  {
    StartInv(m);
    StartSnaps(m);
    RunSnaps(m, Start(m), run);
    RecoveryIsTrace(m, run, a);
    var w := After(m, Start(m), run);
    RecoveredTrace(m, w, a);
    hide Inv, SnapsTrack, After, Legal, CapturesCovered, Congruent, Idempotent, Fold, Distilled, Next;
    SameState(m, Next(m, w, a).trace, Next(m, w, a).history);
  }

  // A snapshot that holds the first `k` events, from its number `num` on, recovers the log exactly if
  // the events in between are repetitions of one; otherwise some idempotent transition function
  // recovers another state.
  lemma SnapshotGoodIff<E(!new)>(trace: seq<E>, known: seq<E>, num: nat, k: nat)
    requires num <= k <= |known| && Distilled(trace) == Distilled(known[..k])
    ensures Congruent(Recorder<E>()) && Idempotent(Recorder<E>())
    ensures Fold(Recorder(), trace + known[num..]) == Fold(Recorder(), known) <==> AllEqual(known[num..k])
  {
    ReplayTracks(trace, known, num, k);
    RecorderTells(trace + known[num..], known);
  }
}
