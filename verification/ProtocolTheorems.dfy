/** What every run of the protocol guarantees, and exactly where the guarantees stop. */
module ProtocolTheorems {
  import opened Wrappers
  import opened Wal
  import opened LogLaws
  import opened Protocol
  import opened ProtocolInvariant

  // The numbers a + 1, ..., b.
  function UpFrom(a: nat, b: nat): (r: seq<nat>)
    requires a <= b
    ensures |r| == b - a
    ensures forall i :: 0 <= i < |r| ==> r[i] == a + 1 + i
  {
    seq(b - a, i requires 0 <= i < b - a => a + 1 + i)
  }

  lemma {:induction false} InOrderExactly(base: nat, delivered: seq<nat>)
    requires InOrder(base, delivered, false)
    ensures base <= Last(base, delivered) && delivered == UpFrom(base, Last(base, delivered))
  {
    if delivered != [] {
      var before := delivered[..|delivered| - 1];
      InOrderExactly(base, before);
      assert delivered == before + [Last(base, delivered)];
    }
  }

  // Deliveries never go back, and never jump over an entry.
  lemma {:induction false} InOrderNoGaps(base: nat, delivered: seq<nat>, rewound: bool, num: nat)
    requires InOrder(base, delivered, rewound) && base < num <= Last(base, delivered)
    ensures num in delivered
  {
    if delivered != [] && Last(base, delivered) != num {
      var before := delivered[..|delivered| - 1];
      InOrderNoGaps(base, before, rewound, num);
    }
  }

  // When the reader sleeps, no wake is under way and every sender is done, then everything that
  // was sent has been delivered, in order, once (unless a truncation rewound the cursor), and marked.
  lemma NoLostWakeup<S, E>(m: Model<S, E>, run: seq<Action<E>>)
    requires Legal(m, Start(m), run)
    requires var w := After(m, Start(m), run); w.reader.Waiting? && !w.token && w.pending == {}
    ensures var w := After(m, Start(m), run);
            && Last(w.base, w.delivered) == |w.history|
            && (forall num :: w.base < num <= |w.history| ==> num in w.delivered)
            && (!w.rewound ==> w.base <= |w.history| && w.delivered == UpFrom(w.base, |w.history|))
            && (w.log.processedSeq == |w.history| || (w.log.processedSeq == 0 && w.base == |w.history| == 1))
  {
    StartInv(m);
    RunInv(m, Start(m), run);
    var w := After(m, Start(m), run);
    Settled(w);
    forall num | w.base < num <= |w.history| ensures num in w.delivered {
      InOrderNoGaps(w.base, w.delivered, w.rewound, num);
    }
    if !w.rewound { InOrderExactly(w.base, w.delivered); }
  }

  lemma Settled<S, E>(w: World<S, E>)
    requires Inv(w) && w.reader.Waiting? && !w.token && w.pending == {}
    ensures Last(w.base, w.delivered) == |w.history| && InOrder(w.base, w.delivered, w.rewound)
    ensures MarkedUpTo(w.log.processedSeq, w.base, |w.history|)
  {
    hide SnapsFit, InOrder, Numbered, StageOk;
  }

  // Within one life deliveries follow the log without gaps; without a rewind, without repeats.
  lemma InSequence<S, E>(m: Model<S, E>, run: seq<Action<E>>, num: nat)
    requires Legal(m, Start(m), run)
    ensures var w := After(m, Start(m), run); var last := Last(w.base, w.delivered);
            && last <= |w.history|
            && (w.base < num <= last ==> num in w.delivered)
            && (!w.rewound ==> w.base <= last && w.delivered == UpFrom(w.base, last))
  {
    StartInv(m);
    RunInv(m, Start(m), run);
    var w := After(m, Start(m), run);
    Ordered(w);
    if w.base < num <= Last(w.base, w.delivered) { InOrderNoGaps(w.base, w.delivered, w.rewound, num); }
    if !w.rewound { InOrderExactly(w.base, w.delivered); }
  }

  lemma Ordered<S, E>(w: World<S, E>)
    requires Inv(w)
    ensures Last(w.base, w.delivered) <= |w.history| && InOrder(w.base, w.delivered, w.rewound)
  {
    hide SnapsFit, InOrder, Numbered, StageOk, ReaderOk;
  }

  // --------------------------------------------------- crash safety of truncation

  lemma SurvivingReplay<E>(kept: seq<Line<E>>, low: nat, history: seq<E>, torn: bool, num: nat)
    requires Numbered(kept, low, history) && low - 1 + |kept| == |history| && (kept == [] ==> low == 1)
    requires num <= |history| && (if num == 0 then low == 1 else low <= num)
    ensures var log := Opened(TornFile(kept, torn), num);
            Above(Readable(log.lines), num, false) == Slice(history, num, |history|)
  {
    ReopenedLog(kept, low, history, torn, num);
    NumberedReadable(kept, low, history);
    NumberedAbove(kept, low, history, num);
    NumberedTail(kept, low, history, num);
    hide Opened, Above, Readable, Numbered, LogOk, TornFile;
  }

  lemma NumberedTail<E>(kept: seq<Line<E>>, low: nat, history: seq<E>, num: nat)
    requires Numbered(kept, low, history) && low - 1 + |kept| == |history| && low <= num + 1 <= |history| + 1
    ensures kept[num + 1 - low..] == Slice(history, num, |history|)
  {
  }

  // The entries recovery has to replay after the crash `a`.
  function Replayed<S, E>(w: World<S, E>, a: Action<E>): seq<Line<E>>
    requires a.Crash? && Enabled(w, a)
  {
    var num := SnapNum(w.snaps[a.pick]);
    Above(Readable(Opened(TornFile(SurvivingLines(w.log, a.written), a.torn), num).lines), num, false)
  }

  // Whatever a crash leaves -- any snapshot that may have become visible, any prefix of the
  // buffered lines, a torn last line -- recovery finds every event above its snapshot, in order.
  lemma NothingNeededIsTruncated<S, E>(m: Model<S, E>, run: seq<Action<E>>, a: Action<E>)
    requires Legal(m, Start(m), run) && a.Crash? && Enabled(After(m, Start(m), run), a)
    ensures var w := After(m, Start(m), run);
            var known := SurvivingHistory(w.log, w.history, a.written);
            && SnapNum(w.snaps[a.pick]) <= |known|
            && Replayed(w, a) == Slice(known, SnapNum(w.snaps[a.pick]), |known|)
            && known <= w.history && |w.history| - |w.log.buffer| <= |known|
  {
    StartInv(m);
    RunInv(m, Start(m), run);
    var w := After(m, Start(m), run);
    CrashReplays(w, a);
  }

  lemma CrashReplays<S, E>(w: World<S, E>, a: Action<E>)
    requires Inv(w) && a.Crash? && Enabled(w, a)
    ensures var known := SurvivingHistory(w.log, w.history, a.written);
            && SnapNum(w.snaps[a.pick]) <= |known|
            && Replayed(w, a) == Slice(known, SnapNum(w.snaps[a.pick]), |known|)
  {
    SnapSurvives(w, a);
    SurvivingFile(w.log, w.history, a.written);
    var low, num := Low(w.log, w.history), SnapNum(w.snaps[a.pick]);
    var kept, known := SurvivingLines(w.log, a.written), SurvivingHistory(w.log, w.history, a.written);
    assert num <= |known| && (if num == 0 then low == 1 else low <= num);
    hide Inv, LogOk, Numbered, Low, OnDisk, TornFile, SurvivingLines, SurvivingHistory, Opened, Readable, Above;
    SurvivingReplay(kept, low, known, a.torn, num);
  }

  // A restart delivers every entry above its snapshot, except that without a snapshot the first
  // entry of the file is passed over: byte offset 0 also means "not found".
  lemma RestartPassesOverFirst<S, E>(m: Model<S, E>, w: World<S, E>, a: Action<E>)
    requires Inv(w) && a.Crash? && Enabled(w, a)
    ensures var n, num := Next(m, w, a), SnapNum(w.snaps[a.pick]);
            && (n.base == num <==> num > 0 || n.history == [])
            && (n.base != num ==> num == 0 && n.base == 1)
  {
    var low, num := Low(w.log, w.history), SnapNum(w.snaps[a.pick]);
    var kept, known := SurvivingLines(w.log, a.written), SurvivingHistory(w.log, w.history, a.written);
    CrashRestarts(m, w, a);
    assert Reborn(m, w, a) == Restarted(m, TornFile(kept, a.torn), known, w.snaps[a.pick], a.clock) by {
      hide Restarted, TornFile, SurvivingLines, SurvivingHistory, SnapNum, Low, Inv;
    }
    hide *;
    RestartedBase(m, TornFile(kept, a.torn), known, w.snaps[a.pick], a.clock);
    SnapFitsFrom(w, a);
    SurvivingFile(w.log, w.history, a.written);
    ReopenedLog(kept, low, known, a.torn, num);
    NoneKept(kept, low, known);
  }

  lemma RestartedBase<S, E>(m: Model<S, E>, file: seq<Line<E>>, history: seq<E>, snap: Option<Snapshot<S, E>>,
                            clock: nat -> nat)
    ensures var n := Restarted(m, file, history, snap, clock);
            n.history == history && n.base == BeforeCursor(Opened(file, SnapNum(snap)))
  {
    hide Opened, Readable, Above, Replay, BeforeCursor;
  }

  lemma SnapFitsFrom<S, E>(w: World<S, E>, a: Action<E>)
    requires Inv(w) && a.Crash? && Enabled(w, a)
    ensures var low, num := Low(w.log, w.history), SnapNum(w.snaps[a.pick]);
            num <= |SurvivingHistory(w.log, w.history, a.written)| && (if num == 0 then low == 1 else low <= num)
  {
    SnapSurvives(w, a);
    hide Inv, SurvivingHistory, Low;
  }

  lemma NoneKept<E>(kept: seq<Line<E>>, low: int, known: seq<E>)
    requires low - 1 + |kept| == |known| && (kept == [] ==> low == 1) && low >= 1
    ensures kept == [] <==> known == []
  {
  }

  // ------------------------------------------------------------- redelivery

  // Truncating moves the cursor exactly when an entry is held that is not marked yet.
  lemma TruncateMovesCursorIff<S, E>(m: Model<S, E>, w: World<S, E>)
    requires Inv(w) && w.checkpoint.Synced?
    ensures var n := Next(m, w, Truncate);
            && (Cursor(n.log, n.history) != Cursor(w.log, w.history)
                <==> Cursor(w.log, w.history) != w.log.processedSeq + 1)
            && Cursor(n.log, n.history) == w.log.processedSeq + 1
            && n.log.processedSeq == w.log.processedSeq
  {
    TruncateLog(w.log, w.history, w.checkpoint.num);
  }

  // Then the entry is handled and marked, and delivered a second time.
  lemma HeldEntryComesBack<S, E>(m: Model<S, E>, w: World<S, E>, now: nat)
    requires Inv(w) && w.checkpoint.Synced? && w.reader.Holding? && w.log.processedSeq < w.reader.num
    ensures Legal(m, w, [Truncate, Handle(now), Mark, Check])
    ensures After(m, w, [Truncate, Handle(now), Mark, Check]).reader == w.reader
    ensures After(m, w, [Truncate, Handle(now), Mark, Check]).delivered == w.delivered + [w.reader.num]
  {
    TruncateLog(w.log, w.history, w.checkpoint.num);
    HeldNumber(w);
    var t := Next(m, w, Truncate);
    assert t == w.(log := t.log, checkpoint := Idle, rewound := t.rewound);
    assert Cursor(t.log, w.history) == w.reader.num && t.log.buffer == [] && LogOk(t.log, w.history);
    hide Inv, LogOk, Cursor, Truncated, Sync, Rewinds;
    RestOfLoop(m, t, now);
    FourSteps(m, w, Truncate, Handle(now), Mark, Check);
  }

  lemma RestOfLoop<S, E>(m: Model<S, E>, t: World<S, E>, now: nat)
    requires LogOk(t.log, t.history) && t.log.buffer == [] && t.reader.Holding?
    requires Cursor(t.log, t.history) == t.reader.num && 1 <= t.reader.num <= |t.history|
    requires t.reader.event == t.history[t.reader.num - 1]
    ensures var h := Next(m, t, Handle(now)); var k := Next(m, h, Mark); var n := Next(m, k, Check);
            n.reader == t.reader && n.delivered == t.delivered + [t.reader.num] && k.reader.Checking?
  {
    var h := Next(m, t, Handle(now));
    var k := Next(m, h, Mark);
    CheckAt(m, k, t.log);
  }

  lemma HeldNumber<S, E>(w: World<S, E>)
    requires Inv(w) && w.reader.Holding? && w.log.processedSeq < w.reader.num && w.log.processedSeq > 0
    ensures w.reader.num == w.log.processedSeq + 1 && w.reader.num <= |w.history|
    ensures w.reader.event == w.history[w.reader.num - 1]
  {
    hide SnapsFit, InOrder, Numbered, StageOk;
  }

  // Checking a flushed log delivers the entry at the cursor.
  lemma CheckAt<S, E>(m: Model<S, E>, w: World<S, E>, log: Log<E>)
    requires w.reader.Checking? && LogOk(log, w.history) && log.buffer == []
    requires w.log.lines == log.lines && w.log.buffer == [] && w.log.readPos == log.readPos
    requires 1 <= Cursor(log, w.history) <= |w.history|
    ensures var num := Cursor(log, w.history); var n := Next(m, w, Check);
            n.reader == Holding(num, w.history[num - 1]) && n.delivered == w.delivered + [num]
  {
    EntryAtCursor(log, w.history);
    assert Sync(w.log).lines == w.log.lines;
  }

  lemma FourSteps<S, E>(m: Model<S, E>, w: World<S, E>, a: Action<E>, b: Action<E>, c: Action<E>, d: Action<E>)
    requires Enabled(w, a) && Enabled(Next(m, w, a), b) && Enabled(Next(m, Next(m, w, a), b), c)
    requires Enabled(Next(m, Next(m, Next(m, w, a), b), c), d)
    ensures Legal(m, w, [a, b, c, d])
    ensures After(m, w, [a, b, c, d]) == Next(m, Next(m, Next(m, Next(m, w, a), b), c), d)
  {
    hide Next, Enabled;
    assert [a, b, c, d][1..] == [b, c, d] && [b, c, d][1..] == [c, d] && [c, d][1..] == [d] && [d][1..] == [];
    var w1 := Next(m, w, a);
    var w2 := Next(m, w1, b);
    var w3 := Next(m, w2, c);
    var w4 := Next(m, w3, d);
    assert Legal(m, w4, []);
    assert Legal(m, w3, [d]) && After(m, w3, [d]) == w4;
    assert Legal(m, w2, [c, d]) && After(m, w2, [c, d]) == w4;
    assert Legal(m, w1, [b, c, d]) && After(m, w1, [b, c, d]) == w4;
  }
}
