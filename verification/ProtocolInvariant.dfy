/** What every step of the protocol keeps. */
module ProtocolInvariant {
  import opened Wrappers
  import opened Wal
  import opened LogLaws
  import opened Protocol

  // ------------------------------------------------------------ the log

  // How many events are on disk, and the number of the first entry the file still holds.
  function OnDisk<E>(log: Log<E>, history: seq<E>): int { |history| - |log.buffer| }

  function Low<E>(log: Log<E>, history: seq<E>): int { OnDisk(log, history) + 1 - |log.lines| }

  // The number of the entry the cursor is at.
  function Cursor<E>(log: Log<E>, history: seq<E>): int { Low(log, history) + log.readPos }

  ghost predicate LogOk<E>(log: Log<E>, history: seq<E>) {
    && Low(log, history) >= 1
    && Numbered(log.lines, Low(log, history), history)
    && Numbered(log.buffer, OnDisk(log, history) + 1, history)
    && log.writeSeq == |history|
    && log.readPos <= |log.lines|
    && log.processedSeq <= OnDisk(log, history)
    && (if log.processedSeq == 0 then Low(log, history) == 1 else Low(log, history) <= log.processedSeq)
    && (log.lines == [] ==> Low(log, history) == 1)
  }

  // ------------------------------------------------------- the checkpoint

  // The snapshot needs no entry that is gone, and is not ahead of the log.
  predicate SnapFits<S, E>(s: Option<Snapshot<S, E>>, low: int, onDisk: int) {
    SnapNum(s) <= onDisk && (if s.None? then low == 1 else low <= s.value.num && 1 <= s.value.num)
  }

  predicate SnapsFit<S, E>(snaps: seq<Option<Snapshot<S, E>>>, low: int, onDisk: int) {
    snaps != [] && forall i :: 0 <= i < |snaps| ==> SnapFits(snaps[i], low, onDisk)
  }

  predicate StageOk<S, E>(c: Checkpoint<S, E>, snaps: seq<Option<Snapshot<S, E>>>, low: int, processed: nat) {
    match c
    case Idle => true
    case Captured(snap) => low <= snap.num <= processed && 1 <= snap.num
    case Renamed(snap) => low <= snap.num <= processed && 1 <= snap.num
    case Synced(num) => low <= num <= processed && 1 <= num
                        && |snaps| == 1 && snaps[0].Some? && snaps[0].value.num == num
  }

  // --------------------------------------------------------- the delivery

  function Last(base: nat, delivered: seq<nat>): nat {
    if delivered == [] then base else delivered[|delivered| - 1]
  }

  // Deliveries start right after `base` and go up by one, or repeat after a rewind.
  predicate InOrder(base: nat, delivered: seq<nat>, rewound: bool) {
    delivered == []
    || (InOrder(base, delivered[..|delivered| - 1], rewound)
        && (Last(base, delivered) == Last(base, delivered[..|delivered| - 1]) + 1
            || (rewound && Last(base, delivered) == Last(base, delivered[..|delivered| - 1]))))
  }

  // Entries are marked up to `n`; the first life of a log may begin one entry ahead of the mark.
  predicate MarkedUpTo(processed: nat, base: nat, n: nat) {
    processed == n || (processed == 0 && n == base == 1)
  }

  predicate HeldOk(num: nat, last: nat, cursor: int, processed: nat, base: nat, rewound: bool) {
    && num == last && 1 <= num
    && ((1 <= num && MarkedUpTo(processed, base, num - 1)) || (rewound && processed == num))
    && (cursor == num + 1 || (rewound && cursor == num && processed == num - 1))
  }

  // Where the reader is, against the last delivery, the cursor and the mark.
  ghost predicate ReaderOk<E>(r: Reader<E>, last: nat, cursor: int, processed: nat, base: nat, rewound: bool,
                        history: seq<E>)
  {
    match r
    case Waiting => cursor == last + 1 && MarkedUpTo(processed, base, last)
    case Checking =>
      (cursor == last + 1 || (rewound && cursor == last && processed == last && last > base))
      && MarkedUpTo(processed, base, last)
    case Holding(num, event) =>
      HeldOk(num, last, cursor, processed, base, rewound) && num <= |history| && event == history[num - 1]
    case Handled(num) => HeldOk(num, last, cursor, processed, base, rewound)
  }

  ghost predicate Inv<S, E>(w: World<S, E>) {
    var low, onDisk, cursor := Low(w.log, w.history), OnDisk(w.log, w.history), Cursor(w.log, w.history);
    var last, processed := Last(w.base, w.delivered), w.log.processedSeq;
    && LogOk(w.log, w.history)
    && SnapsFit(w.snaps, low, onDisk)
    && StageOk(w.checkpoint, w.snaps, low, processed)
    && InOrder(w.base, w.delivered, w.rewound)
    && last <= onDisk
    && (w.delivered == [] ==> w.reader.Checking? || w.reader.Waiting?)
    && (w.delivered != [] ==> last > w.base)
    && ReaderOk(w.reader, last, cursor, processed, w.base, w.rewound, w.history)
    // A waiting reader with something to read is about to be woken.
    && (w.reader.Waiting? && cursor <= |w.history| ==> w.token || w.pending != {})
  }

  // ---------------------------------------------------------- preservation

  lemma StartInv<S, E>(m: Model<S, E>)
    ensures Inv(Start(m))
  {
  }

  lemma SendInv<S, E>(m: Model<S, E>, w: World<S, E>, a: Action<E>)
    requires Inv(w) && a.Send? && Enabled(w, a)
    ensures Inv(Next(m, w, a))
  {
    assert LogOk(Next(m, w, a).log, Next(m, w, a).history);
  }

  // Flushing changes where entries are, not which there are.
  lemma SyncLog<E>(log: Log<E>, history: seq<E>)
    requires LogOk(log, history)
    ensures LogOk(Sync(log), history) && Sync(log).buffer == []
    ensures Low(Sync(log), history) == Low(log, history) && Cursor(Sync(log), history) == Cursor(log, history)
    ensures OnDisk(Sync(log), history) == |history| && Sync(log).processedSeq == log.processedSeq
  {
    NumberedSync(log.lines, log.buffer, Low(log, history), history);
    assert log.buffer[..|log.buffer|] == log.buffer;
  }

  lemma SnapsFitLater<S, E>(snaps: seq<Option<Snapshot<S, E>>>, low: int, onDisk: int, later: int)
    requires SnapsFit(snaps, low, onDisk) && onDisk <= later
    ensures SnapsFit(snaps, low, later)
  {
  }

  lemma FlushInv<S, E>(m: Model<S, E>, w: World<S, E>)
    requires Inv(w)
    ensures Inv(Next(m, w, FlushLog))
  {
    hide LogOk, SnapsFit, ReaderOk, StageOk, Low, OnDisk, Cursor;
    assert OnDisk(w.log, w.history) <= |w.history| by { OnDiskBound(w.log, w.history); }
    SyncLog(w.log, w.history);
    SnapsFitLater(w.snaps, Low(w.log, w.history), OnDisk(w.log, w.history), |w.history|);
  }

  lemma OnDiskBound<E>(log: Log<E>, history: seq<E>)
    ensures OnDisk(log, history) <= |history|
  {
  }

  lemma EntryAtCursor<E>(log: Log<E>, history: seq<E>)
    requires LogOk(log, history) && log.readPos < |log.lines|
    ensures 1 <= Cursor(log, history) <= |history|
    ensures log.lines[log.readPos] == Entry(Cursor(log, history), history[Cursor(log, history) - 1])
  {
  }

  // Checking is flushing, then looking at the line under the cursor.
  lemma CheckIs<S, E>(m: Model<S, E>, w: World<S, E>)
    requires w.reader.Checking?
    ensures var f, n := Next(m, w, FlushLog), Next(m, w, Check);
            && (f.log.readPos >= |f.log.lines| ==> n == f.(reader := Waiting))
            && (f.log.readPos < |f.log.lines| && f.log.lines[f.log.readPos].Entry? ==>
                  var line := f.log.lines[f.log.readPos];
                  n == f.(log := f.log.(readPos := f.log.readPos + 1), reader := Holding(line.num, line.event),
                          delivered := w.delivered + [line.num]))
  {
    hide Sync;
  }

  lemma CheckInv<S, E>(m: Model<S, E>, w: World<S, E>)
    requires Inv(w) && w.reader.Checking?
    ensures Inv(Next(m, w, Check))
  {
    FlushInv(m, w);
    SyncLog(w.log, w.history);
    CheckIs(m, w);
    var f := Next(m, w, FlushLog);
    assert LogOk(f.log, f.history) && f.reader.Checking? && f.log.buffer == [] && f.delivered == w.delivered;
    hide Inv, LogOk, Cursor, Next;
    if f.log.readPos < |f.log.lines| {
      EntryAtCursor(f.log, f.history);
      DeliverInv(f, Next(m, w, Check));
    } else {
      SleepInv(f);
    }
  }

  // At the end of the log the reader goes to sleep.
  lemma SleepInv<S, E>(w: World<S, E>)
    requires Inv(w) && w.reader.Checking? && w.log.buffer == [] && w.log.readPos >= |w.log.lines|
    ensures Inv(w.(reader := Waiting))
  {
    hide SnapsFit, StageOk, InOrder, Numbered;
  }

  lemma DeliverInv<S, E>(w: World<S, E>, n: World<S, E>)
    requires Inv(w) && w.reader.Checking? && w.log.buffer == [] && w.log.readPos < |w.log.lines|
    requires var cursor := Cursor(w.log, w.history);
             n == w.(log := w.log.(readPos := w.log.readPos + 1),
                     reader := Holding(cursor, w.history[cursor - 1]), delivered := w.delivered + [cursor])
    ensures Inv(n)
  {
    hide SnapsFit, StageOk;
    assert n.delivered[..|n.delivered| - 1] == w.delivered;
  }

  lemma ReaderInv<S, E>(m: Model<S, E>, w: World<S, E>, a: Action<E>)
    requires Inv(w) && (a.Wake? || a.Receive? || a.Cancel? || a.Handle? || a.Mark?) && Enabled(w, a)
    ensures Inv(Next(m, w, a))
  {
    hide SnapsFit, InOrder;
  }

  lemma EarlyInv<S, E>(m: Model<S, E>, w: World<S, E>, a: Action<E>)
    requires Inv(w) && (a.Early? || a.Adjust?)
    ensures Inv(Next(m, w, a))
  {
    hide SnapsFit, InOrder, LogOk, ReaderOk, StageOk;
  }

  lemma CheckpointInv<S, E>(m: Model<S, E>, w: World<S, E>, a: Action<E>)
    requires Inv(w) && (a.Capture? || a.Rename? || a.SyncDir? || a.FailCheckpoint?) && Enabled(w, a)
    ensures Inv(Next(m, w, a))
  {
    hide InOrder, ReaderOk;
    var n := Next(m, w, a);
    assert n.log == w.log && n.history == w.history;
    assert SnapsFit(n.snaps, Low(n.log, n.history), OnDisk(n.log, n.history));
  }

  lemma TruncatedFile<E>(lines: seq<Line<E>>, low: nat, history: seq<E>, num: nat, processed: nat)
    requires Numbered(lines, low, history) && low <= num <= processed <= low - 1 + |lines|
    ensures var kept := Above(Readable(lines), num, true);
            && kept == lines[num - low..] && Numbered(kept, num, history)
            && FirstAbove(kept, 0, processed) == processed + 1 - num
  {
    NumberedReadable(lines, low, history);
    NumberedFrom(lines, low, history, num);
    var kept := lines[num - low..];
    assert Numbered(kept, num, history);
    NumberedFirst(kept, num, history, 0, processed);
  }

  // What makes a log without buffered entries consistent.
  lemma FlushedLogOk<E>(log: Log<E>, low: nat, history: seq<E>)
    requires log.buffer == [] && Numbered(log.lines, low, history) && low - 1 + |log.lines| == |history|
    requires log.writeSeq == |history| && log.readPos <= |log.lines| && log.processedSeq <= |history|
    requires if log.processedSeq == 0 then low == 1 else low <= log.processedSeq
    requires log.lines == [] ==> low == 1
    ensures LogOk(log, history) && Low(log, history) == low && OnDisk(log, history) == |history|
    ensures Cursor(log, history) == low + log.readPos
  {
  }

  lemma TruncateLog<E>(log: Log<E>, history: seq<E>, num: nat)
    requires LogOk(log, history) && Low(log, history) <= num <= log.processedSeq && 1 <= num
    ensures var n := Truncated(Sync(log), num);
            && LogOk(n, history) && OnDisk(n, history) == |history| && Low(n, history) == num
            && Cursor(n, history) == log.processedSeq + 1 && n.processedSeq == log.processedSeq
  {
    SyncLog(log, history);
    TruncatedFile(Sync(log).lines, Low(log, history), history, num, log.processedSeq);
    hide Above, FirstAbove, Readable, Numbered, Sync;
    FlushedLogOk(Truncated(Sync(log), num), num, history);
  }

  lemma RewindsIff<E>(log: Log<E>, history: seq<E>)
    requires LogOk(log, history)
    ensures Rewinds(log) <==> log.processedSeq + 1 < Cursor(log, history) && 0 < log.readPos
  {
    if log.processedSeq + 1 < Cursor(log, history) && 0 < log.readPos {
      assert log.lines[log.readPos - 1].num == Cursor(log, history) - 1;
    }
  }

  lemma {:induction false} InOrderMayRepeat(base: nat, delivered: seq<nat>)
    requires InOrder(base, delivered, false)
    ensures InOrder(base, delivered, true)
  {
    if delivered != [] { InOrderMayRepeat(base, delivered[..|delivered| - 1]); }
  }

  // The one snapshot left needs no entry below its own number.
  lemma SyncedFits<S, E>(snaps: seq<Option<Snapshot<S, E>>>, num: nat, onDisk: int)
    requires |snaps| == 1 && snaps[0].Some? && snaps[0].value.num == num && 1 <= num <= onDisk
    ensures SnapsFit(snaps, num, onDisk)
  {
  }

  // A log cut down to what is above `num`, with the cursor right after the mark.
  ghost predicate CutAt<E>(log: Log<E>, history: seq<E>, num: nat, processed: nat) {
    && LogOk(log, history) && OnDisk(log, history) == |history| && Low(log, history) == num
    && Cursor(log, history) == processed + 1 && log.processedSeq == processed
  }

  lemma CutReader<S, E>(w: World<S, E>, log: Log<E>, rewound: bool)
    requires Inv(w) && w.checkpoint.Synced? && CutAt(log, w.history, w.checkpoint.num, w.log.processedSeq)
    requires w.rewound || (w.log.processedSeq + 1 < Cursor(w.log, w.history) && 0 < w.log.readPos) ==> rewound
    ensures ReaderOk(w.reader, Last(w.base, w.delivered), Cursor(log, w.history), log.processedSeq, w.base, rewound,
                     w.history)
  {
    hide InOrder, Numbered, SnapsFit;
  }

  lemma CutInv<S, E>(w: World<S, E>, n: World<S, E>)
    requires Inv(w) && w.checkpoint.Synced? && n == w.(log := n.log, checkpoint := Idle, rewound := n.rewound)
    requires CutAt(n.log, w.history, w.checkpoint.num, w.log.processedSeq)
    requires w.rewound || (w.log.processedSeq + 1 < Cursor(w.log, w.history) && 0 < w.log.readPos) ==> n.rewound
    requires InOrder(w.base, w.delivered, n.rewound)
    ensures Inv(n)
  {
    CutReader(w, n.log, n.rewound);
    SyncedFits(w.snaps, w.checkpoint.num, |w.history|);
    hide InOrder, Numbered, SnapsFit, ReaderOk;
    CutWaiting(w, n.log);
  }

  // A sleeping reader's cursor stays where it is.
  lemma CutWaiting<S, E>(w: World<S, E>, log: Log<E>)
    requires Inv(w) && w.checkpoint.Synced? && CutAt(log, w.history, w.checkpoint.num, w.log.processedSeq)
    ensures w.reader.Waiting? ==> Cursor(log, w.history) == Cursor(w.log, w.history)
  {
    hide InOrder, Numbered, SnapsFit;
  }

  lemma TruncateInv<S, E>(m: Model<S, E>, w: World<S, E>)
    requires Inv(w) && w.checkpoint.Synced?
    ensures Inv(Next(m, w, Truncate))
  {
    TruncateLog(w.log, w.history, w.checkpoint.num);
    RewindsIff(w.log, w.history);
    if !w.rewound { InOrderMayRepeat(w.base, w.delivered); }
    var n := Next(m, w, Truncate);
    assert CutAt(n.log, w.history, w.checkpoint.num, w.log.processedSeq);
    hide Inv, CutAt, InOrder, Truncated, Rewinds, Cursor;
    CutInv(w, n);
  }

  lemma ReopenedLog<E>(kept: seq<Line<E>>, low: nat, history: seq<E>, torn: bool, num: nat)
    requires Numbered(kept, low, history) && low - 1 + |kept| == |history| && (kept == [] ==> low == 1)
    requires num <= |history| && (if num == 0 then low == 1 else low <= num)
    ensures var log := Opened(TornFile(kept, torn), num);
            && LogOk(log, history) && Low(log, history) == low && OnDisk(log, history) == |history|
            && log.lines == kept && log.processedSeq == num && log.writeSeq == |history|
            && Cursor(log, history) == (if num == 0 && kept != [] then 2 else num + 1)
            && BeforeCursor(log) == Cursor(log, history) - 1
  {
    NumberedOpened(kept, low, history, torn, num);
    hide Opened, Numbered, TornFile;
    FlushedLogOk(Opened(TornFile(kept, torn), num), low, history);
    hide LogOk;
  }

  lemma FreshInv<S, E>(w: World<S, E>)
    requires LogOk(w.log, w.history) && w.reader.Checking? && w.delivered == [] && w.checkpoint.Idle?
    requires SnapsFit(w.snaps, Low(w.log, w.history), OnDisk(w.log, w.history))
    requires w.base == Cursor(w.log, w.history) - 1 <= OnDisk(w.log, w.history)
    requires MarkedUpTo(w.log.processedSeq, w.base, w.base)
    ensures Inv(w)
  {
  }

  lemma RestartedInv<S, E>(m: Model<S, E>, kept: seq<Line<E>>, low: nat, history: seq<E>, torn: bool,
                           snap: Option<Snapshot<S, E>>, clock: nat -> nat)
    requires Numbered(kept, low, history) && low - 1 + |kept| == |history| && (kept == [] ==> low == 1)
    requires SnapFits(snap, low, |history|)
    ensures Inv(Restarted(m, TornFile(kept, torn), history, snap, clock))
  {
    ReopenedLog(kept, low, history, torn, SnapNum(snap));
    hide Opened, Replay, LogOk, Low, OnDisk, Cursor, BeforeCursor, Above, Numbered, TornFile, Inv;
    FreshInv(Restarted(m, TornFile(kept, torn), history, snap, clock));
  }

  lemma SurvivingFile<E>(log: Log<E>, history: seq<E>, written: nat)
    requires LogOk(log, history) && written <= |log.buffer| <= |history|
    ensures var kept, known := SurvivingLines(log, written), SurvivingHistory(log, history, written);
            var low := Low(log, history);
            && 1 <= low && Numbered(kept, low, known) && low - 1 + |kept| == |known|
            && OnDisk(log, history) <= |known| && (kept == [] ==> low == 1)
  {
  }

  // What a crash leaves of the file and of the history.
  function SurvivingLines<E>(log: Log<E>, written: nat): seq<Line<E>>
    requires written <= |log.buffer|
  {
    log.lines + log.buffer[..written]
  }

  function SurvivingHistory<E>(log: Log<E>, history: seq<E>, written: nat): seq<E>
    requires written <= |log.buffer| <= |history|
  {
    history[..|history| - |log.buffer| + written]
  }

  // The world a crash leads to.
  function Reborn<S, E(==)>(m: Model<S, E>, w: World<S, E>, a: Action<E>): World<S, E>
    requires a.Crash? && Enabled(w, a)
  {
    Restarted(m, TornFile(SurvivingLines(w.log, a.written), a.torn),
              SurvivingHistory(w.log, w.history, a.written), w.snaps[a.pick], a.clock)
  }

  lemma CrashRestarts<S, E>(m: Model<S, E>, w: World<S, E>, a: Action<E>)
    requires a.Crash? && Enabled(w, a)
    ensures Next(m, w, a) == Reborn(m, w, a)
  {
    hide Restarted, TornFile;
  }

  lemma SnapSurvives<S, E>(w: World<S, E>, a: Action<E>)
    requires Inv(w) && a.Crash? && Enabled(w, a)
    ensures SnapFits(w.snaps[a.pick], Low(w.log, w.history), |SurvivingHistory(w.log, w.history, a.written)|)
  {
    hide Numbered, ReaderOk, InOrder, StageOk;
    assert SnapFits(w.snaps[a.pick], Low(w.log, w.history), OnDisk(w.log, w.history));
  }

  lemma RebornInv<S, E>(m: Model<S, E>, w: World<S, E>, a: Action<E>)
    requires Inv(w) && a.Crash? && Enabled(w, a)
    ensures Inv(Reborn(m, w, a))
  {
    SnapSurvives(w, a);
    SurvivingFile(w.log, w.history, a.written);
    hide Inv, Restarted, LogOk, Numbered, Low, OnDisk, SnapFits, TornFile, SurvivingLines, SurvivingHistory;
    RestartedInv(m, SurvivingLines(w.log, a.written), Low(w.log, w.history),
                 SurvivingHistory(w.log, w.history, a.written), a.torn, w.snaps[a.pick], a.clock);
  }

  lemma CrashInv<S, E>(m: Model<S, E>, w: World<S, E>, a: Action<E>)
    requires Inv(w) && a.Crash? && Enabled(w, a)
    ensures Inv(Next(m, w, a))
  {
    CrashRestarts(m, w, a);
    RebornInv(m, w, a);
    hide Inv, Next, Reborn;
  }

  lemma NextInv<S, E>(m: Model<S, E>, w: World<S, E>, a: Action<E>)
    requires Inv(w) && Enabled(w, a)
    ensures Inv(Next(m, w, a))
  {
    hide Inv, Next;
    match a
    case Send(_, _) => SendInv(m, w, a);
    case Check => CheckInv(m, w);
    case FlushLog => FlushInv(m, w);
    case Truncate => TruncateInv(m, w);
    case Crash(_, _, _, _) => CrashInv(m, w, a);
    case Wake(_) => ReaderInv(m, w, a);
    case Receive => ReaderInv(m, w, a);
    case Cancel => ReaderInv(m, w, a);
    case Handle(_) => ReaderInv(m, w, a);
    case Early(_, _) => EarlyInv(m, w, a);
    case Adjust(_) => EarlyInv(m, w, a);
    case Mark => ReaderInv(m, w, a);
    case Capture => CheckpointInv(m, w, a);
    case Rename => CheckpointInv(m, w, a);
    case SyncDir => CheckpointInv(m, w, a);
    case FailCheckpoint => CheckpointInv(m, w, a);
  }

  lemma {:induction false} RunInv<S, E>(m: Model<S, E>, w: World<S, E>, run: seq<Action<E>>)
    requires Inv(w) && Legal(m, w, run)
    ensures Inv(After(m, w, run))
    decreases |run|
  {
    hide Inv, Next, Enabled;
    if run != [] {
      assert Enabled(w, run[0]);
      NextInv(m, w, run[0]);
      RunInv(m, Next(m, w, run[0]), run[1..]);
    }
  }
}
