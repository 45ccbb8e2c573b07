/** In every run the state is the fold of the events that were applied to it, in the order in which
    that happened -- by the reader, early by the executor or a listener, or by replay. */
module Traces {
  import opened Wrappers
  import opened Actions
  import opened Wal
  import opened Protocol
  import opened ProtocolInvariant
  import opened Collapse

  ghost predicate Holds<S, E>(m: Model<S, E>, s: S, trace: seq<E>) {
    m.erase(s) == m.erase(Fold(m, trace))
  }

  ghost predicate SnapHolds<S, E>(m: Model<S, E>, s: Option<Snapshot<S, E>>) {
    s.Some? ==> Holds(m, s.value.state, s.value.trace)
  }

  ghost predicate TraceOk<S, E>(m: Model<S, E>, w: World<S, E>) {
    && Holds(m, w.state, w.trace)
    && (forall i :: 0 <= i < |w.snaps| ==> SnapHolds(m, w.snaps[i]))
    && (w.checkpoint.Captured? || w.checkpoint.Renamed? ==> SnapHolds(m, Some(w.checkpoint.snap)))
  }

  lemma ApplyHolds<S(!new), E(!new)>(m: Model<S, E>, s: S, trace: seq<E>, e: E, now: nat)
    requires Congruent(m) && Holds(m, s, trace)
    ensures Holds(m, m.apply(s, e, now), trace + [e])
  {
    ApplyRespects(m, s, Fold(m, trace), e, now);
    FoldSnoc(m, trace, e);
  }

  lemma AdjustHolds<S(!new), E(!new)>(m: Model<S, E>, s: S, trace: seq<E>, how: Adjustment)
    requires Congruent(m) && Holds(m, s, trace)
    ensures Holds(m, m.adjust(s, how), trace)
  {
  }

  lemma {:induction false} ReplayHolds<S(!new), E(!new)>(m: Model<S, E>, s: S, trace: seq<E>, entries: seq<Line<E>>,
                                                        clock: nat -> nat)
    requires Congruent(m) && Holds(m, s, trace) && forall i :: 0 <= i < |entries| ==> entries[i].Entry?
    ensures Holds(m, Replay(m, s, entries, clock), trace + Events(entries))
  {
    hide Congruent, Holds;
    if entries == [] {
      assert trace + Events(entries) == trace;
    } else {
      var init, last := entries[..|entries| - 1], entries[|entries| - 1];
      ReplayHolds(m, s, trace, init, clock);
      ApplyHolds(m, Replay(m, s, init, clock), trace + Events(init), last.event, clock(last.num));
      assert trace + Events(entries) == trace + Events(init) + [last.event];
    }
  }

  lemma RestartedTrace<S(!new), E(!new)>(m: Model<S, E>, file: seq<Line<E>>, history: seq<E>,
                                         snap: Option<Snapshot<S, E>>, clock: nat -> nat)
    requires Congruent(m) && SnapHolds(m, snap)
    ensures TraceOk(m, Restarted(m, file, history, snap, clock))
  {
    var start := if snap.Some? then snap.value.state else m.init;
    var done := if snap.Some? then snap.value.trace else [];
    assert Holds(m, start, done);
    hide *;
    RestartedParts(m, file, history, snap, clock);
    ReplayHolds(m, start, done, ReplayedLines(file, snap), clock);
    FreshTrace(m, Restarted(m, file, history, snap, clock), snap);
  }

  lemma FreshTrace<S, E>(m: Model<S, E>, n: World<S, E>, snap: Option<Snapshot<S, E>>)
    requires Holds(m, n.state, n.trace) && n.snaps == [snap] && n.checkpoint.Idle? && SnapHolds(m, snap)
    ensures TraceOk(m, n)
  {
    hide Holds, SnapHolds;
  }

  // What a restart replays.
  function ReplayedLines<S, E>(file: seq<Line<E>>, snap: Option<Snapshot<S, E>>): (r: seq<Line<E>>)
    ensures forall i :: 0 <= i < |r| ==> r[i].Entry?
  {
    Above(Readable(Opened(file, SnapNum(snap)).lines), SnapNum(snap), false)
  }

  lemma RestartedParts<S, E>(m: Model<S, E>, file: seq<Line<E>>, history: seq<E>, snap: Option<Snapshot<S, E>>,
                             clock: nat -> nat)
    ensures var w, replayed := Restarted(m, file, history, snap, clock), ReplayedLines(file, snap);
            && w.state == Replay(m, if snap.Some? then snap.value.state else m.init, replayed, clock)
            && w.trace == (if snap.Some? then snap.value.trace else []) + Events(replayed)
            && w.snaps == [snap] && w.checkpoint.Idle? && w.history == history && w.reader.Checking?
            && w.delivered == [] && w.applied == w.log.writeSeq && w.ahead == []
            && w.log.processedSeq == SnapNum(snap) && w.log.buffer == []
  {
    OpenedMark(file, SnapNum(snap));
    hide Opened, Above, Readable, Replay, BeforeCursor;
  }

  lemma OpenedMark<E>(file: seq<Line<E>>, num: nat)
    ensures Opened(file, num).processedSeq == num && Opened(file, num).buffer == []
  {
  }

  lemma NextTrace<S(!new), E(!new)>(m: Model<S, E>, w: World<S, E>, a: Action<E>)
    requires Congruent(m) && TraceOk(m, w) && Enabled(w, a)
    ensures TraceOk(m, Next(m, w, a))
  {
    hide *;
    if a.Crash? { CrashTrace(m, w, a); }
    else if a.Handle? || a.Early? || a.Adjust? { ApplyTrace(m, w, a); }
    else if a.Capture? || a.Rename? || a.SyncDir? || a.FailCheckpoint? { CheckpointTrace(m, w, a); }
    else { LogTrace(m, w, a); }
  }

  lemma ApplyTrace<S(!new), E(!new)>(m: Model<S, E>, w: World<S, E>, a: Action<E>)
    requires Congruent(m) && TraceOk(m, w) && Enabled(w, a) && (a.Handle? || a.Early? || a.Adjust?)
    ensures TraceOk(m, Next(m, w, a))
  {
    hide Congruent, Holds, SnapHolds;
    match a
    case Handle(now) => ApplyHolds(m, w.state, w.trace, w.reader.event, now);
    case Early(e, now) => ApplyHolds(m, w.state, w.trace, e, now);
    case Adjust(how) => AdjustHolds(m, w.state, w.trace, how);
  }

  lemma CheckpointTrace<S, E>(m: Model<S, E>, w: World<S, E>, a: Action<E>)
    requires TraceOk(m, w) && Enabled(w, a) && (a.Capture? || a.Rename? || a.SyncDir? || a.FailCheckpoint?)
    ensures TraceOk(m, Next(m, w, a))
  {
    hide Holds;
  }

  // The other steps leave the state alone.
  lemma LogTrace<S, E>(m: Model<S, E>, w: World<S, E>, a: Action<E>)
    requires TraceOk(m, w) && Enabled(w, a) && !a.Crash? && !a.Handle? && !a.Early? && !a.Adjust?
    requires !a.Capture? && !a.Rename? && !a.SyncDir? && !a.FailCheckpoint?
    ensures TraceOk(m, Next(m, w, a))
  {
    hide Holds, SnapHolds, Sync, Truncated, Appended, Advanced, AtCursor, Rewinds;
  }

  lemma CrashTrace<S(!new), E(!new)>(m: Model<S, E>, w: World<S, E>, a: Action<E>)
    requires Congruent(m) && TraceOk(m, w) && a.Crash? && Enabled(w, a)
    ensures TraceOk(m, Next(m, w, a))
  {
    assert SnapHolds(m, w.snaps[a.pick]) by { hide SnapHolds, Holds; }
    hide Congruent, TraceOk, Next, Restarted, TornFile, SurvivingLines, SurvivingHistory, SnapHolds;
    CrashRestarts(m, w, a);
    RestartedTrace(m, TornFile(SurvivingLines(w.log, a.written), a.torn),
                   SurvivingHistory(w.log, w.history, a.written), w.snaps[a.pick], a.clock);
  }

  lemma {:induction false} RunTrace<S(!new), E(!new)>(m: Model<S, E>, w: World<S, E>, run: seq<Action<E>>)
    requires Congruent(m) && TraceOk(m, w) && Legal(m, w, run)
    ensures TraceOk(m, After(m, w, run))
    decreases |run|
  {
    hide TraceOk, Next, Enabled, Congruent;
    if run != [] {
      NextTrace(m, w, run[0]);
      RunTrace(m, Next(m, w, run[0]), run[1..]);
    }
  }

  lemma StartTrace<S, E>(m: Model<S, E>)
    ensures TraceOk(m, Start(m))
  {
  }

  // Whatever is applied early, whenever a crash strikes: the state is the fold of the trace, for
  // any transition function whose clock readings stay in the fields `erase` forgets.
  lemma StateIsTrace<S(!new), E(!new)>(m: Model<S, E>, run: seq<Action<E>>)
    requires Congruent(m) && Legal(m, Start(m), run)
    ensures var w := After(m, Start(m), run); m.erase(w.state) == m.erase(Fold(m, w.trace))
  {
    StartTrace(m);
    RunTrace(m, Start(m), run);
  }
}
