/** Runs that stay in step with the log at every moment: their early applications and checkpoints
    follow the reader. */
module Steady {
  import opened Wal
  import opened LogLaws
  import opened Protocol
  import opened ProtocolInvariant
  import opened ProtocolTheorems
  import opened Collapse
  import opened Traces
  import opened Recovery

  // How many entries the reader is through with: the next one handled is that many plus one.
  function Position<E>(r: Reader<E>, cursor: int): int {
    if r.Holding? then r.num - 1 else cursor - 1
  }

  // The log as it will be when what the state has ahead of it is sent, and how much of that is applied.
  function Expected<S, E>(w: World<S, E>): seq<E> { w.history + w.ahead }

  function Reach<S, E>(w: World<S, E>): nat { w.applied + |w.ahead| }

  ghost predicate InStep<S, E>(w: World<S, E>) {
    var from := Position(w.reader, Cursor(w.log, w.history));
    && w.log.processedSeq <= w.applied <= |w.history| && from <= w.applied
    && (w.ahead != [] ==> w.applied == |w.history|)
    && (w.reader.Handled? ==> w.reader.num <= w.applied)
    && Tracks(w.trace, Expected(w), from, Reach(w))
  }

  // ------------------------------------------------------------- the discipline

  // What the state holds above the mark, and what a restart will handle again.
  function AboveMark<S, E>(w: World<S, E>): seq<E> {
    if w.log.processedSeq <= w.applied <= |w.history| then w.history[w.log.processedSeq..w.applied] + w.ahead else []
  }

  function Redone<S, E>(w: World<S, E>, a: Action<E>): seq<E>
    requires a.Crash? && Enabled(w, a)
  {
    var known, num := SurvivingHistory(w.log, w.history, a.written), SnapNum(w.snaps[a.pick]);
    var base := if num == 0 && known != [] then 1 else num;
    if base <= |known| then known[base..] else []
  }

  // What keeps the state in step with the reader. An event is applied early only
  //   - right after it was applied,
  //   - right after it was sent, when nothing else was applied ahead of the reader (a listener), or
  //   - just before it is sent, when nothing is waiting to be handled (the executor);
  // in the last case nothing else is sent in between. A checkpoint captures only what is on disk, and it
  // captures and truncates only while what the state holds above the mark is repetitions of one event;
  // and so is what a restart handles again.
  predicate Tame<S, E(==)>(w: World<S, E>, a: Action<E>)
    requires Enabled(w, a)
  {
    match a
    case Send(_, e) => w.ahead == [] || CatchesUp(w, e)
    case Early(e, _) => EndsIn(w.trace, e) || KeepsPace(w, e)
    case Capture => AllEqual(AboveMark(w)) && w.ahead == [] && w.applied <= OnDisk(w.log, w.history)
    case Truncate => AllEqual(AboveMark(w))
    case Crash(_, _, _, _) => AllEqual(Redone(w, a))
    case _ => true
  }

  predicate KeepsPace<S, E(==)>(w: World<S, E>, e: E) {
    w.ahead == [] && (ReachesNext(w, e) || RunsAhead(w, e))
    && w.applied == Position(w.reader, Cursor(w.log, w.history))
  }

  predicate TameRun<S, E(==)>(m: Model<S, E>, w: World<S, E>, run: seq<Action<E>>)
    requires Legal(m, w, run)
    decreases |run|
  {
    run == [] || (Tame(w, run[0]) && TameRun(m, Next(m, w, run[0]), run[1..]))
  }

  // ------------------------------------------------------------- one event

  lemma AllEqualPart<E>(history: seq<E>, from: nat, later: nat, k: nat)
    requires from <= later <= k <= |history| && AllEqual(history[from..k])
    ensures AllEqual(history[later..k])
    ensures forall i :: from <= i < k ==> history[i] == history[k - 1]
  {
    var all := history[from..k];
    assert forall i :: 0 <= i < |all| ==> all[i] == history[from + i];
    assert forall i :: from <= i < k ==> history[i] == all[i - from];
  }

  lemma DistilledPrefix<E>(history: seq<E>, k: nat)
    requires k < |history|
    ensures Distilled(history[..k + 1]) == Distil(Distilled(history[..k]), history[k])
  {
    assert history[..k + 1] == history[..k] + [history[k]];
    DistilledSnoc(history[..k], history[k]);
  }

  lemma LastDistilled<E>(trace: seq<E>, history: seq<E>, k: nat)
    requires 0 < k <= |history| && Distilled(trace) == Distilled(history[..k])
    ensures EndsIn(trace, history[k - 1])
  {
    assert trace == [] ==> Distilled(trace) == [];
  }

  // Handling the entry behind position `from` on a state that holds `k` of them.
  lemma HandleTracks<E>(trace: seq<E>, history: seq<E>, from: nat, k: nat)
    requires Tracks(trace, history, from, k) && from < |history|
    ensures Tracks(trace + [history[from]], history, from, if k == from then k + 1 else k)
  {
    var e := history[from];
    DistilledSnoc(trace, e);
    if k == from {
      DistilledPrefix(history, k);
      assert history[from..k + 1] == [e];
    } else {
      AllEqualPart(history, from, from, k);
      LastDistilled(trace, history, k);
    }
  }

  lemma TracksFrom<E>(trace: seq<E>, history: seq<E>, from: nat, later: nat, k: nat)
    requires Tracks(trace, history, from, k) && from <= later <= k
    ensures Tracks(trace, history, later, k)
  {
    AllEqualPart(history, from, later, k);
  }

  // An event repeated, or the next one.
  lemma EarlyTracks<E>(trace: seq<E>, history: seq<E>, from: nat, k: nat, e: E)
    requires Tracks(trace, history, from, k)
    ensures EndsIn(trace, e) ==> Tracks(trace + [e], history, from, k)
    ensures k < |history| && history[k] == e && (from == k || EndsIn(trace, e)) ==>
              Tracks(trace + [e], history, from, k + 1)
  {
    DistilledSnoc(trace, e);
    assert EndsIn(trace, e) ==> Distilled(trace) != [] && Distilled(trace)[|Distilled(trace)| - 1] == e;
    if k < |history| && history[k] == e && (from == k || EndsIn(trace, e)) {
      DistilledPrefix(history, k);
      NextAlike(trace, history, from, k, e);
    }
  }

  lemma NextAlike<E>(trace: seq<E>, history: seq<E>, from: nat, k: nat, e: E)
    requires Tracks(trace, history, from, k) && k < |history| && history[k] == e && (from == k || EndsIn(trace, e))
    ensures AllEqual(history[from..k + 1])
  {
    if from < k {
      AllEqualPart(history, from, from, k);
      LastDistilled(trace, history, k);
      assert history[k - 1] == e;
      var all := history[from..k + 1];
      assert forall i :: 0 <= i < |all| ==> all[i] == history[from + i];
    }
  }

  // ---------------------------------------------------------- preservation

  // A step that applies nothing and does not set the reader back.
  lemma QuietInStep<S, E>(w: World<S, E>, n: World<S, E>)
    requires InStep(w) && Expected(w) <= Expected(n) && Reach(n) == Reach(w)
    requires n.trace == w.trace && n.applied <= |n.history| && (n.ahead != [] ==> n.applied == |n.history|)
    requires n.log.processedSeq <= n.applied && (n.reader.Handled? ==> n.reader.num <= n.applied)
    requires Position(w.reader, Cursor(w.log, w.history)) <= Position(n.reader, Cursor(n.log, n.history)) <= n.applied
    ensures InStep(n)
  {
    hide Position, Cursor, Tracks, Expected;
    var from, later := Position(w.reader, Cursor(w.log, w.history)), Position(n.reader, Cursor(n.log, n.history));
    TracksBounds(w.trace, Expected(w), from, Reach(w));
    TracksLater(w.trace, Expected(w), Expected(n), from, Reach(w));
    TracksFrom(w.trace, Expected(n), from, later, Reach(w));
  }

  lemma TracksBounds<E>(trace: seq<E>, history: seq<E>, from: int, k: int)
    requires Tracks(trace, history, from, k)
    ensures 0 <= from <= k <= |history|
  {
  }

  lemma StartInStep<S, E>(m: Model<S, E>)
    ensures InStep(Start(m))
  {
    assert Expected(Start(m))[..0] == [];
  }

  lemma SendInStep<S, E>(m: Model<S, E>, w: World<S, E>, a: Action<E>)
    requires Inv(w) && InStep(w) && a.Send? && Enabled(w, a) && Tame(w, a)
    ensures InStep(Next(m, w, a))
  {
    var n := Next(m, w, a);
    assert Cursor(n.log, n.history) == Cursor(w.log, w.history);
    StepBounds(w);
    SendExpects(m, w, a);
    hide Inv, Tracks, Cursor, OnDisk, Expected;
    QuietInStep(w, n);
  }

  lemma SendExpects<S, E>(m: Model<S, E>, w: World<S, E>, a: Action<E>)
    requires InStep(w) && a.Send? && Enabled(w, a) && Tame(w, a)
    ensures var n := Next(m, w, a);
            && Expected(w) <= Expected(n) && Reach(n) == Reach(w) && w.applied <= n.applied <= |n.history|
            && (n.ahead != [] ==> n.applied == |n.history|)
  {
    var n := Next(m, w, a);
    if w.ahead != [] {
      assert w.ahead == [a.event] + n.ahead;
      assert Expected(n) == Expected(w);
    }
  }

  // What being in step says about the position.
  lemma StepBounds<S, E>(w: World<S, E>)
    requires InStep(w)
    ensures 0 <= Position(w.reader, Cursor(w.log, w.history)) <= w.applied <= |w.history|
    ensures w.ahead != [] ==> w.applied == |w.history|
  {
  }

  lemma FlushInStep<S, E>(m: Model<S, E>, w: World<S, E>)
    requires Inv(w) && InStep(w)
    ensures InStep(Next(m, w, FlushLog))
  {
    var n := Next(m, w, FlushLog);
    SyncLog(w.log, w.history);
    StepBounds(w);
    hide Inv, LogOk, Tracks, Cursor, OnDisk, Sync;
    QuietInStep(w, n);
  }

  lemma CheckInStep<S, E>(m: Model<S, E>, w: World<S, E>)
    requires Inv(w) && InStep(w) && w.reader.Checking?
    ensures InStep(Next(m, w, Check))
  {
    var f, n := Next(m, w, FlushLog), Next(m, w, Check);
    FlushInStep(m, w);
    FlushInv(m, w);
    CheckIs(m, w);
    SyncLog(w.log, w.history);
    CheckMoves(m, w);
    StepBounds(f);
    hide Inv, LogOk, Tracks, Cursor, OnDisk, Sync, Next, InStep, Position;
    assert InStep(n) by { QuietInStep(f, n); }
  }

  lemma CheckMoves<S, E>(m: Model<S, E>, w: World<S, E>)
    requires Inv(w) && InStep(w) && w.reader.Checking?
    ensures var f, n := Next(m, w, FlushLog), Next(m, w, Check);
            && n.history == f.history && n.trace == f.trace && n.applied == f.applied && n.ahead == f.ahead
            && n.log.processedSeq == f.log.processedSeq <= f.applied && !n.reader.Handled?
            && Position(n.reader, Cursor(n.log, n.history)) == Position(f.reader, Cursor(f.log, f.history))
  {
    var f, n := Next(m, w, FlushLog), Next(m, w, Check);
    CheckIs(m, w);
    SyncLog(w.log, w.history);
    FlushIs(m, w);
    assert w.log.processedSeq <= w.applied;
    hide Inv, InStep, Next, Sync;
    TakesNext(f, n);
  }

  lemma FlushIs<S, E>(m: Model<S, E>, w: World<S, E>)
    ensures Next(m, w, FlushLog) == w.(log := Sync(w.log))
  {
    hide Sync;
  }

  lemma TakesNext<S, E>(f: World<S, E>, n: World<S, E>)
    requires LogOk(f.log, f.history) && f.reader.Checking?
    requires f.log.readPos >= |f.log.lines| ==> n == f.(reader := Waiting)
    requires f.log.readPos < |f.log.lines| && f.log.lines[f.log.readPos].Entry? ==>
               var line := f.log.lines[f.log.readPos];
               n == f.(log := f.log.(readPos := f.log.readPos + 1), reader := Holding(line.num, line.event),
                       delivered := n.delivered)
    ensures n.history == f.history && n.trace == f.trace && n.applied == f.applied && n.ahead == f.ahead
    ensures n.log.processedSeq == f.log.processedSeq && !n.reader.Handled?
    ensures Position(n.reader, Cursor(n.log, n.history)) == Position(f.reader, Cursor(f.log, f.history))
  {
    if f.log.readPos < |f.log.lines| { EntryAtCursor(f.log, f.history); }
    hide LogOk;
  }

  lemma ReaderInStep<S, E>(m: Model<S, E>, w: World<S, E>, a: Action<E>)
    requires Inv(w) && InStep(w) && (a.Wake? || a.Receive? || a.Cancel? || a.Mark? || a.Adjust?) && Enabled(w, a)
    ensures InStep(Next(m, w, a))
  {
    StepBounds(w);
    var n := Next(m, w, a);
    assert Cursor(n.log, n.history) == Cursor(w.log, w.history);
    hide Inv, Tracks, Cursor, OnDisk;
    QuietInStep(w, n);
  }

  lemma HandleInStep<S, E>(m: Model<S, E>, w: World<S, E>, now: nat)
    requires Inv(w) && InStep(w) && w.reader.Holding?
    ensures InStep(Next(m, w, Handle(now)))
  {
    var n := Next(m, w, Handle(now));
    hide *;
    HeldBounds(w);
    HandledIs(m, w, now);
    PositionHeld(w);
    HandledReach(w, n);
    OneMoreTracks(w.trace, n.trace, Expected(w), w.reader.num - 1, Reach(w), Reach(n));
    HandledInStep(w, n);
  }

  lemma OneMoreTracks<E>(trace: seq<E>, longer: seq<E>, expected: seq<E>, from: nat, k: nat, later: nat)
    requires Tracks(trace, expected, from, k) && from < |expected| && longer == trace + [expected[from]]
    requires later == if k == from then k + 1 else k
    ensures Tracks(longer, expected, from, later)
  {
    hide Tracks;
    HandleTracks(trace, expected, from, k);
  }

  lemma HandledIs<S, E>(m: Model<S, E>, w: World<S, E>, now: nat)
    requires w.reader.Holding?
    ensures var n, num := Next(m, w, Handle(now)), w.reader.num;
            && n.log == w.log && n.history == w.history && n.reader == Handled(num) && n.ahead == w.ahead
            && n.trace == w.trace + [w.reader.event] && n.applied == if w.applied < num then num else w.applied
  {
  }

  lemma PositionHeld<S, E>(w: World<S, E>)
    requires InStep(w) && w.reader.Holding? && 1 <= w.reader.num <= |w.history|
    ensures Tracks(w.trace, Expected(w), w.reader.num - 1, Reach(w)) && w.reader.num - 1 <= w.applied
    ensures w.log.processedSeq <= w.applied <= |w.history| && (w.ahead != [] ==> w.applied == |w.history|)
    ensures w.reader.num <= |Expected(w)| && Expected(w)[w.reader.num - 1] == w.history[w.reader.num - 1]
  {
  }

  lemma HandledReach<S, E>(w: World<S, E>, n: World<S, E>)
    requires w.reader.Holding? && 1 <= w.reader.num <= |w.history| && w.reader.num - 1 <= w.applied
    requires w.ahead != [] ==> w.applied == |w.history|
    requires n.history == w.history && n.ahead == w.ahead
    requires n.applied == if w.applied < w.reader.num then w.reader.num else w.applied
    ensures Expected(n) == Expected(w)
    ensures Reach(n) == if Reach(w) == w.reader.num - 1 then Reach(w) + 1 else Reach(w)
  {
  }

  lemma HandledInStep<S, E>(w: World<S, E>, n: World<S, E>)
    requires w.reader.Holding? && 1 <= w.reader.num <= |w.history|
    requires w.reader.num - 1 <= w.applied <= |w.history| && w.log.processedSeq <= w.applied
    requires w.reader.num <= Cursor(w.log, w.history) <= w.reader.num + 1
    requires n.log == w.log && n.history == w.history && n.reader == Handled(w.reader.num)
    requires n.applied == if w.applied < w.reader.num then w.reader.num else w.applied
    requires n.ahead == w.ahead && (w.ahead != [] ==> w.applied == |w.history|)
    requires Tracks(n.trace, Expected(n), w.reader.num - 1, Reach(n))
    ensures InStep(n)
  {
    hide Tracks, Cursor, OnDisk, Expected;
    TracksFrom(n.trace, Expected(n), w.reader.num - 1, Cursor(w.log, w.history) - 1, Reach(n));
  }

  lemma HeldBounds<S, E>(w: World<S, E>)
    requires Inv(w) && w.reader.Holding?
    ensures 1 <= w.reader.num <= |w.history|
    ensures w.reader.event == w.history[w.reader.num - 1]
    ensures w.reader.num <= Cursor(w.log, w.history) <= w.reader.num + 1
  {
    hide SnapsFit, InOrder, Numbered, StageOk;
  }

  lemma EarlyInStep<S, E>(m: Model<S, E>, w: World<S, E>, a: Action<E>)
    requires Inv(w) && InStep(w) && a.Early? && Enabled(w, a) && Tame(w, a)
    ensures InStep(Next(m, w, a))
  {
    var e, n := a.event, Next(m, w, a);
    EarlyIs(m, w, a);
    hide *;
    if RunsAhead(w, e) { AheadTracks(w, e); } else { BesideTracks(w, e); }
    EarlyKeeps(w, n, e);
  }

  lemma EarlyIs<S, E>(m: Model<S, E>, w: World<S, E>, a: Action<E>)
    requires a.Early? && (EndsIn(w.trace, a.event) || KeepsPace(w, a.event))
    ensures var n, e := Next(m, w, a), a.event;
            && n.log == w.log && n.history == w.history && n.reader == w.reader && n.trace == w.trace + [e]
            && n.applied == (if ReachesNext(w, e) then w.applied + 1 else w.applied)
            && n.ahead == (if RunsAhead(w, e) then w.ahead + [e] else w.ahead)
            && (RunsAhead(w, e) ==> w.ahead == [] && !ReachesNext(w, e) && KeepsPace(w, e))
  {
  }

  // An event applied just before it is sent: the log will have it next.
  lemma AheadTracks<S, E>(w: World<S, E>, e: E)
    requires InStep(w) && RunsAhead(w, e) && KeepsPace(w, e)
    ensures Tracks(w.trace + [e], w.history + [e], Position(w.reader, Cursor(w.log, w.history)), w.applied + 1)
  {
    var from, later := Position(w.reader, Cursor(w.log, w.history)), w.history + [e];
    assert Expected(w) == w.history && Reach(w) == w.applied == |w.history|;
    hide Tracks, Position, Cursor, Expected;
    TracksBounds(w.trace, w.history, from, w.applied);
    TracksLater(w.trace, w.history, later, from, w.applied);
    EarlyTracks(w.trace, later, from, w.applied, e);
  }

  // One applied just after it was sent, or applied again.
  lemma BesideTracks<S, E>(w: World<S, E>, e: E)
    requires InStep(w) && !RunsAhead(w, e) && (EndsIn(w.trace, e) || KeepsPace(w, e))
    ensures Tracks(w.trace + [e], Expected(w), Position(w.reader, Cursor(w.log, w.history)),
                   if ReachesNext(w, e) then Reach(w) + 1 else Reach(w))
  {
    var from := Position(w.reader, Cursor(w.log, w.history));
    assert ReachesNext(w, e) ==> Expected(w) == w.history;
    hide Tracks, Position, Cursor, Expected;
    TracksBounds(w.trace, Expected(w), from, Reach(w));
    EarlyTracks(w.trace, Expected(w), from, Reach(w), e);
  }

  lemma EarlyKeeps<S, E>(w: World<S, E>, n: World<S, E>, e: E)
    requires InStep(w) && n.log == w.log && n.history == w.history && n.reader == w.reader
    requires n.applied == if ReachesNext(w, e) then w.applied + 1 else w.applied
    requires n.ahead == if RunsAhead(w, e) then w.ahead + [e] else w.ahead
    requires RunsAhead(w, e) ==> w.ahead == [] && !ReachesNext(w, e)
    requires var from := Position(w.reader, Cursor(w.log, w.history));
             if RunsAhead(w, e) then Tracks(n.trace, w.history + [e], from, w.applied + 1)
             else Tracks(n.trace, Expected(w), from, if ReachesNext(w, e) then Reach(w) + 1 else Reach(w))
    ensures InStep(n)
  {
    hide Tracks, Cursor, Position;
    assert RunsAhead(w, e) ==> Expected(n) == w.history + [e];
    assert !RunsAhead(w, e) ==> Expected(n) == Expected(w);
  }

  lemma CheckpointInStep<S, E>(m: Model<S, E>, w: World<S, E>, a: Action<E>)
    requires Inv(w) && InStep(w) && Enabled(w, a) && Tame(w, a)
    requires a.Capture? || a.Rename? || a.SyncDir? || a.FailCheckpoint?
    ensures InStep(Next(m, w, a)) && (a.Capture? ==> Covered(w))
  {
    hide Inv, Tracks, Cursor, Position, OnDisk, AllEqual;
    if a.Capture? { CaptureIsCovered(w); }
  }

  // A state in step is captured as the log has it.
  lemma CaptureIsCovered<S, E>(w: World<S, E>)
    requires InStep(w) && Enabled(w, Capture) && Tame(w, Capture)
    ensures Covered(w) && Tracks(w.trace, w.history, w.log.processedSeq, w.applied)
  {
    MarkedTracks(w);
    assert Expected(w) == w.history && Reach(w) == w.applied;
  }

  lemma TruncateInStep<S, E>(m: Model<S, E>, w: World<S, E>)
    requires Inv(w) && InStep(w) && Enabled(w, Truncate) && Tame(w, Truncate)
    ensures InStep(Next(m, w, Truncate))
  {
    var n := Next(m, w, Truncate);
    TruncateLog(w.log, w.history, w.checkpoint.num);
    StepBounds(w);
    SameRest(m, w);
    MarkedTracks(w);
    hide *;
    SetBack(w, n);
  }

  lemma SameRest<S, E>(m: Model<S, E>, w: World<S, E>)
    requires Enabled(w, Truncate)
    ensures var n := Next(m, w, Truncate);
            && n.log == Truncated(Sync(w.log), w.checkpoint.num) && n.reader == w.reader && n.history == w.history
            && n.trace == w.trace && n.applied == w.applied && n.ahead == w.ahead
  {
    hide Truncated, Sync, Rewinds;
  }

  lemma MarkedTracks<S, E>(w: World<S, E>)
    requires InStep(w) && AllEqual(AboveMark(w))
    ensures Tracks(w.trace, Expected(w), w.log.processedSeq, Reach(w))
  {
    assert Expected(w)[w.log.processedSeq..Reach(w)] == AboveMark(w);
  }

  lemma SetBack<S, E>(w: World<S, E>, n: World<S, E>)
    requires Inv(w) && InStep(w) && Tracks(w.trace, Expected(w), w.log.processedSeq, Reach(w))
    requires n.reader == w.reader && n.history == w.history && n.trace == w.trace && n.applied == w.applied
    requires n.log.processedSeq == w.log.processedSeq && n.ahead == w.ahead
    requires Cursor(n.log, n.history) == w.log.processedSeq + 1 && w.applied <= |w.history|
    ensures InStep(n)
  {
    hide Inv, Tracks, OnDisk, Cursor;
  }

  // ------------------------------------------------------------- restarts

  lemma CrashInStep<S, E>(m: Model<S, E>, w: World<S, E>, a: Action<E>)
    requires Inv(w) && SnapsTrack(w) && a.Crash? && Enabled(w, a) && Tame(w, a)
    ensures InStep(Next(m, w, a))
  {
    var n := Next(m, w, a);
    RestartPassesOverFirst(m, w, a);
    RebornFacts(m, w, a);
    RedoneIs(m, w, a);
    hide *;
    RecoveredTrace(m, w, a);
    CrashInv(m, w, a);
    WholeLog(n);
    FreshCursor(n);
    FreshInStep(n);
  }

  lemma RedoneIs<S, E>(m: Model<S, E>, w: World<S, E>, a: Action<E>)
    requires Inv(w) && a.Crash? && Enabled(w, a) && Tame(w, a)
    ensures var n := Next(m, w, a); n.base <= |n.history| && AllEqual(n.history[n.base..])
  {
    RebornFacts(m, w, a);
    RestartPassesOverFirst(m, w, a);
    hide Inv, Next, SurvivingHistory, AllEqual;
  }

  lemma FreshInStep<S, E>(n: World<S, E>)
    requires n.log.processedSeq <= n.applied == |n.history| && n.base <= |n.history| && n.ahead == []
    requires n.reader.Checking? && Cursor(n.log, n.history) == n.base + 1
    requires AllEqual(n.history[n.base..]) && Distilled(n.trace) == Distilled(n.history)
    ensures InStep(n)
  {
    assert Expected(n) == n.history && n.history[..|n.history|] == n.history;
    assert n.history[n.base..|n.history|] == n.history[n.base..];
    hide Expected, Cursor, OnDisk, AllEqual, Distilled;
  }

  lemma NextInStep<S, E>(m: Model<S, E>, w: World<S, E>, a: Action<E>)
    requires Inv(w) && InStep(w) && SnapsTrack(w) && Enabled(w, a) && Tame(w, a)
    ensures InStep(Next(m, w, a)) && (a.Capture? ==> Covered(w))
  {
    hide Inv, InStep, SnapsTrack, Next, Tame;
    match a
    case Send(_, _) => SendInStep(m, w, a);
    case Check => CheckInStep(m, w);
    case FlushLog => FlushInStep(m, w);
    case Truncate => TruncateInStep(m, w);
    case Crash(_, _, _, _) => CrashInStep(m, w, a);
    case Handle(now) => HandleInStep(m, w, now);
    case Early(_, _) => EarlyInStep(m, w, a);
    case Adjust(_) => ReaderInStep(m, w, a);
    case Capture => CheckpointInStep(m, w, a);
    case Wake(_) => ReaderInStep(m, w, a);
    case Receive => ReaderInStep(m, w, a);
    case Cancel => ReaderInStep(m, w, a);
    case Mark => ReaderInStep(m, w, a);
    case Rename => CheckpointInStep(m, w, a);
    case SyncDir => CheckpointInStep(m, w, a);
    case FailCheckpoint => CheckpointInStep(m, w, a);
  }

  // Tame runs stay in step, and every checkpoint in them captures events of the log.
  lemma {:induction false} RunInStep<S, E>(m: Model<S, E>, w: World<S, E>, run: seq<Action<E>>)
    requires Inv(w) && InStep(w) && SnapsTrack(w) && Legal(m, w, run) && TameRun(m, w, run)
    ensures InStep(After(m, w, run)) && CapturesCovered(m, w, run)
    decreases |run|
  {
    hide Inv, InStep, SnapsTrack, Next, Enabled, Tame, Covered;
    if run != [] {
      NextInv(m, w, run[0]);
      NextInStep(m, w, run[0]);
      NextSnaps(m, w, run[0]);
      RunInStep(m, Next(m, w, run[0]), run[1..]);
    }
  }

  // ------------------------------------------------------------- the state

  // In a tame run the state is at every moment the fold of the entries applied so far and of what is
  // about to be sent, for every idempotent transition function, and what its checkpoints capture
  // recovers the log.
  lemma StateIsFold<S(!new), E(!new)>(m: Model<S, E>, run: seq<Action<E>>)
    requires Legal(m, Start(m), run) && TameRun(m, Start(m), run) && Congruent(m) && Idempotent(m)
    ensures var w := After(m, Start(m), run);
            && w.applied <= |w.history| && (w.ahead != [] ==> w.applied == |w.history|)
            && m.erase(w.state) == m.erase(Fold(m, w.history[..w.applied] + w.ahead))
    ensures CapturesCovered(m, Start(m), run)
  {
    StartInv(m);
    StartInStep(m);
    StartSnaps(m);
    RunInStep(m, Start(m), run);
    StateIsTrace(m, run);
    var w := After(m, Start(m), run);
    InStepPrefix(w);
    hide Inv, InStep, SnapsTrack, CapturesCovered, After, Legal, TameRun, Congruent, Idempotent, Fold, Distilled;
    SameState(m, w.trace, w.history[..w.applied] + w.ahead);
  }

  lemma InStepPrefix<S, E>(w: World<S, E>)
    requires InStep(w)
    ensures w.applied <= |w.history| && (w.ahead != [] ==> w.applied == |w.history|)
    ensures Distilled(w.trace) == Distilled(w.history[..w.applied] + w.ahead)
  {
    assert Expected(w)[..Reach(w)] == w.history[..w.applied] + w.ahead;
  }
}
