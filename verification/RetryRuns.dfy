/** Which attempts and retries a restart of the daemon keeps: those that the snapshot captured, as the
    events above its number leave them. What the runtime counted since is lost, because no event says so. */
module RetryRuns {
  import opened Wrappers
  import opened Actions
  import opened Wal
  import opened Protocol
  import opened ProtocolInvariant
  import opened ProtocolTheorems
  import opened Traces
  import opened Recovery
  import opened Runs
  import opened Restart
  import opened Emission
  import opened DaemonRuns
  import opened Retries
  import opened RetryCounts
  import S = State

  type Daemons = World<S.State, S.Event>

  // ------------------------------------------------------------- replay

  predicate Creates(events: seq<S.Event>, id: string) {
    exists i :: 0 <= i < |events| && events[i].JobCreated? && events[i].job == id
  }

  predicate Deletes(events: seq<S.Event>, id: string) {
    exists i :: 0 <= i < |events| && events[i].JobDeleted? && events[i].job == id
  }

  lemma CreatesSnoc(events: seq<S.Event>, e: S.Event, id: string)
    ensures Creates(events + [e], id) <==> Creates(events, id) || (e.JobCreated? && e.job == id)
    ensures Deletes(events + [e], id) <==> Deletes(events, id) || (e.JobDeleted? && e.job == id)
  {
    var more := events + [e];
    assert more[|events|] == e && forall i :: 0 <= i < |events| ==> more[i] == events[i];
    if Creates(events, id) {
      var i :| 0 <= i < |events| && events[i].JobCreated? && events[i].job == id;
      assert more[i].JobCreated?;
    }
    if Deletes(events, id) {
      var i :| 0 <= i < |events| && events[i].JobDeleted? && events[i].job == id;
      assert more[i].JobDeleted?;
    }
  }

  // The event makes the job anew, or moves it on from a step that has not failed.
  predicate ClearsAt(s: S.State, e: S.Event, id: string) {
    (e.JobCreated? && e.job == id) || (e.JobAdvanced? && e.job == id && id in s.jobs && Clears(s.jobs[id], e.step))
  }

  ghost predicate Cleared(s: S.State, entries: seq<Line<S.Event>>, clock: nat -> nat, id: string)
    requires forall i :: 0 <= i < |entries| ==> entries[i].Entry?
  {
    exists k :: 0 <= k < |entries| && ClearsBy(s, entries, clock, id, k)
  }

  ghost predicate ClearsBy(s: S.State, entries: seq<Line<S.Event>>, clock: nat -> nat, id: string, k: nat)
    requires k < |entries| && forall i :: 0 <= i < |entries| ==> entries[i].Entry?
  {
    ClearsAt(Replay(Daemon(), s, entries[..k], clock), entries[k].event, id)
  }

  lemma ClearedSnoc(s: S.State, entries: seq<Line<S.Event>>, clock: nat -> nat, id: string)
    requires entries != [] && forall i :: 0 <= i < |entries| ==> entries[i].Entry?
    ensures var init, last := entries[..|entries| - 1], entries[|entries| - 1];
            Cleared(s, entries, clock, id) <==>
              Cleared(s, init, clock, id) || ClearsAt(Replay(Daemon(), s, init, clock), last.event, id)
  {
    var init := entries[..|entries| - 1];
    hide Replay, ClearsAt, Daemon;
    forall k: nat | k < |init| ensures ClearsBy(s, init, clock, id, k) == ClearsBy(s, entries, clock, id, k) {
      assert init[..k] == entries[..k];
    }
    assert ClearsBy(s, entries, clock, id, |init|)
        == ClearsAt(Replay(Daemon(), s, init, clock), entries[|entries| - 1].event, id);
    hide ClearsBy;
  }

  // The counts a job had (if it was there), as they are carried on: to none for a job made anew, with no
  // attempts where those were cleared, and else as they were. A job goes only if it is deleted.
  predicate Carried(before: Option<Counts>, made: bool, gone: bool, cleared: bool, after: Option<Counts>) {
    && (made ==> cleared) && (before.Some? && !gone ==> after.Some?)
    && (after.Some? ==>
          && (made || before.Some?)
          && after.value.totalRetries == (if made then 0 else before.value.totalRetries)
          && after.value.attempts == (if cleared || made then map[] else before.value.attempts))
  }

  lemma OneMore(before: Option<Counts>, made: bool, gone: bool, cleared: bool, s: S.State, e: S.Event, id: string)
    requires Carried(before, made, gone, cleared, JobCounts(s, id))
    ensures Carried(before, made || (e.JobCreated? && e.job == id), gone || (e.JobDeleted? && e.job == id),
                 cleared || ClearsAt(s, e, id), CountsAfter(s, e, id))
  {
    hide Clears, CountsOf;
  }

  // What replaying entries makes of the counts of a job.
  lemma {:induction false} ReplayCounts(s: S.State, entries: seq<Line<S.Event>>, clock: nat -> nat, id: string)
    requires forall i :: 0 <= i < |entries| ==> entries[i].Entry?
    ensures Carried(JobCounts(s, id), Creates(Events(entries), id), Deletes(Events(entries), id),
                 Cleared(s, entries, clock, id), JobCounts(Replay(Daemon(), s, entries, clock), id))
  {
    if entries == [] {
      NoReplay(s, entries, clock);
    } else {
      var init, last := entries[..|entries| - 1], entries[|entries| - 1];
      assert Events(entries) == Events(init) + [last.event];
      hide *;
      ReplayCounts(s, init, clock, id);
      CreatesSnoc(Events(init), last.event, id);
      ClearedSnoc(s, entries, clock, id);
      ReplayUnfolds(s, entries, clock);
      var t := Replay(Daemon(), s, init, clock);
      CountsStep(t, last.event, clock(last.num), id);
      OneMore(JobCounts(s, id), Creates(Events(init), id), Deletes(Events(init), id), Cleared(s, init, clock, id), t,
              last.event, id);
    }
  }

  lemma NoReplay(s: S.State, entries: seq<Line<S.Event>>, clock: nat -> nat)
    requires entries == []
    ensures Replay(Daemon(), s, entries, clock) == s
  {
  }

  lemma ReplayUnfolds(s: S.State, entries: seq<Line<S.Event>>, clock: nat -> nat)
    requires entries != [] && forall i :: 0 <= i < |entries| ==> entries[i].Entry?
    ensures var init, last := entries[..|entries| - 1], entries[|entries| - 1];
            Replay(Daemon(), s, entries, clock)
            == S.Apply(Replay(Daemon(), s, init, clock), last.event, clock(last.num))
  {
    hide S.Apply;
  }

  // ------------------------------------------------------------- restarts

  function SnapState(snap: Option<Snapshot<S.State, S.Event>>): S.State {
    if snap.Some? then snap.value.state else S.EMPTY
  }

  // A job that a crash leaves has the counts it had when the snapshot was captured, unless an event
  // above the snapshot's number made the job anew or cleared its attempts; the live state has no say.
  lemma RestartCounts(run: seq<Action<S.Event>>, w: Daemons, a: Action<S.Event>, id: string)
    requires Reached(Daemon(), run, w) && a.Crash? && Enabled(w, a)
    ensures var n, snap := Next(Daemon(), w, a), w.snaps[a.pick];
            && SnapNum(snap) <= |n.history| && Events(Replayed(w, a)) == n.history[SnapNum(snap)..]
            && n.state == Replay(Daemon(), SnapState(snap), Replayed(w, a), a.clock)
            && Carried(JobCounts(SnapState(snap), id), Creates(n.history[SnapNum(snap)..], id),
                       Deletes(n.history[SnapNum(snap)..], id),
                       Cleared(SnapState(snap), Replayed(w, a), a.clock, id), JobCounts(n.state, id))
  {
    ReachedInv(Daemon(), run, w);
    ReplayedState(w, a);
    ReplayCounts(SnapState(w.snaps[a.pick]), Replayed(w, a), a.clock, id);
    hide *;
  }

  lemma ReplayedState(w: Daemons, a: Action<S.Event>)
    requires Inv(w) && a.Crash? && Enabled(w, a)
    ensures var n, snap := Next(Daemon(), w, a), w.snaps[a.pick];
            && SnapNum(snap) <= |n.history| && Events(Replayed(w, a)) == n.history[SnapNum(snap)..]
            && n.state == Replay(Daemon(), SnapState(snap), Replayed(w, a), a.clock)
  {
    var known, snap := SurvivingHistory(w.log, w.history, a.written), w.snaps[a.pick];
    var file := TornFile(SurvivingLines(w.log, a.written), a.torn);
    CrashRestarts(Daemon(), w, a);
    RebornIs(w, a, file, known, snap);
    assert Daemon().init == S.EMPTY;
    hide Inv, Daemon, Replay, Next, Reborn, Restarted, Replayed, SurvivingHistory, SurvivingLines, TornFile,
         ReplayedLines, Enabled;
    CrashReplays(w, a);
    RestartedParts(Daemon(), file, known, snap, a.clock);
    SliceEvents(known, SnapNum(snap));
  }

  lemma RebornIs(w: Daemons, a: Action<S.Event>, file: seq<Line<S.Event>>, known: seq<S.Event>,
                 snap: Option<Snapshot<S.State, S.Event>>)
    requires a.Crash? && Enabled(w, a) && file == TornFile(SurvivingLines(w.log, a.written), a.torn)
    requires known == SurvivingHistory(w.log, w.history, a.written) && snap == w.snaps[a.pick]
    ensures Reborn(Daemon(), w, a) == Restarted(Daemon(), file, known, snap, a.clock)
    ensures Replayed(w, a) == ReplayedLines(file, snap)
  {
    hide Restarted, TornFile, SurvivingLines, SurvivingHistory, Opened, Above, Readable, SnapNum, Daemon;
  }

  // ------------------------------------------------------------- a life

  predicate Unmade(events: seq<S.Event>, id: string) { !Creates(events, id) && !Deletes(events, id) }

  // Whether the step counts a retry of the job: an attempt that is not the first of its kind.
  predicate AddsRetry(s: S.State, a: Action<S.Event>, id: string) {
    a.Adjust? && IsRetry(s, a.how, id)
  }

  ghost function Retried(w: Daemons, run: seq<Action<S.Event>>, id: string): nat
    requires Legal(Daemon(), w, run)
    decreases |run|
  {
    if run == [] then 0
    else (if AddsRetry(w.state, run[0], id) then 1 else 0) + Retried(Next(Daemon(), w, run[0]), run[1..], id)
  }

  // What a step of a life applies.
  function Applies(w: Daemons, a: Action<S.Event>): seq<S.Event> {
    if a.Handle? && w.reader.Holding? then [w.reader.event] else if a.Early? then [a.event] else []
  }

  lemma StepState(w: Daemons, a: Action<S.Event>)
    requires Enabled(w, a) && !a.Crash?
    ensures var n := Next(Daemon(), w, a);
            && n.trace == w.trace + Applies(w, a)
            && (a.Handle? ==> n.state == S.Apply(w.state, w.reader.event, a.now))
            && (a.Early? ==> n.state == S.Apply(w.state, a.event, a.now))
            && (a.Adjust? ==> n.state == Adjusted(w.state, a.how))
            && (!a.Handle? && !a.Early? && !a.Adjust? ==> n.state == w.state)
  {
    hide S.Apply, Adjusted, Sync, AtCursor, Truncated, Rewinds, Appended, Advanced;
  }

  lemma AdjustTotals(s: S.State, a: Action<S.Event>, id: string)
    requires a.Adjust? && id in s.jobs
    ensures var t := Adjusted(s, a.how);
            id in t.jobs && t.jobs[id].totalRetries == s.jobs[id].totalRetries + if AddsRetry(s, a, id) then 1 else 0
  {
    AdjustedTotals(s, a.how, id);
    hide Adjusted;
  }

  lemma ApplyTotals(s: S.State, e: S.Event, now: nat, id: string)
    requires id in s.jobs && !Creates([e], id) && !Deletes([e], id)
    ensures var t := S.Apply(s, e, now); id in t.jobs && t.jobs[id].totalRetries == s.jobs[id].totalRetries
  {
    CountsStep(s, e, now, id);
    assert [e][0] == e;
    hide S.Apply, Clears;
  }

  lemma StepTotals(w: Daemons, a: Action<S.Event>, id: string)
    requires Enabled(w, a) && !a.Crash? && id in w.state.jobs
    requires !Creates(Applies(w, a), id) && !Deletes(Applies(w, a), id)
    ensures var s, t := w.state, Next(Daemon(), w, a).state;
            id in t.jobs && t.jobs[id].totalRetries == s.jobs[id].totalRetries + if AddsRetry(s, a, id) then 1 else 0
  {
    StepState(w, a);
    if a.Handle? { ApplyTotals(w.state, w.reader.event, a.now, id); }
    if a.Early? { ApplyTotals(w.state, a.event, a.now, id); }
    if a.Adjust? { AdjustTotals(w.state, a, id); }
    hide S.Apply, Adjusted, Next, Daemon, Creates, Deletes;
  }

  lemma NoneOfPart(whole: seq<S.Event>, a: seq<S.Event>, b: seq<S.Event>, id: string)
    requires whole == a + b && !Creates(whole, id) && !Deletes(whole, id)
    ensures !Creates(a, id) && !Deletes(a, id) && !Creates(b, id) && !Deletes(b, id)
  {
    assert forall i :: 0 <= i < |a| ==> whole[i] == a[i];
    assert forall i :: 0 <= i < |b| ==> whole[|a| + i] == b[i];
  }

  lemma Since<T>(a: seq<T>, b: seq<T>, c: seq<T>, first: seq<T>)
    requires b == a + first && b <= c
    ensures a <= c && c[|a|..] == first + c[|b|..]
  {
  }

  // Over a life, as long as no event makes or deletes the job, its retries grow by what the runtime
  // counts, and by nothing else.
  lemma {:induction false} LifeRetries(w: Daemons, run: seq<Action<S.Event>>, id: string)
    requires Legal(Daemon(), w, run) && forall i :: 0 <= i < |run| ==> !run[i].Crash?
    requires id in w.state.jobs
    ensures var end := After(Daemon(), w, run);
            && w.trace <= end.trace
            && (!Creates(end.trace[|w.trace|..], id) && !Deletes(end.trace[|w.trace|..], id) ==>
                  id in end.state.jobs
                  && end.state.jobs[id].totalRetries == w.state.jobs[id].totalRetries + Retried(w, run, id))
    decreases |run|
  {
    LifeUnfolds(w, run, id);
    if run != [] {
      var a, rest := run[0], run[1..];
      assert !a.Crash? && forall i :: 0 <= i < |rest| ==> rest[i] == run[i + 1];
      StepState(w, a);
      var n := Next(Daemon(), w, a);
      var end := After(Daemon(), n, rest);
      hide *;
      LifeTrace(n, rest);
      var since, first := end.trace[|w.trace|..], Applies(w, a);
      Since(w.trace, n.trace, end.trace, first);
      if !Creates(since, id) && !Deletes(since, id) {
        NoneOfPart(since, first, end.trace[|n.trace|..], id);
        StepTotals(w, a, id);
        LifeRetries(n, rest, id);
      }
    }
  }

  lemma {:induction false} LifeTrace(w: Daemons, run: seq<Action<S.Event>>)
    requires Legal(Daemon(), w, run) && forall i :: 0 <= i < |run| ==> !run[i].Crash?
    ensures w.trace <= After(Daemon(), w, run).trace
    decreases |run|
  {
    if run != [] {
      var rest := run[1..];
      assert !run[0].Crash? && forall i :: 0 <= i < |rest| ==> rest[i] == run[i + 1];
      StepState(w, run[0]);
      hide Next, Enabled, Daemon, Applies;
      LifeTrace(Next(Daemon(), w, run[0]), rest);
    }
  }

  lemma LifeUnfolds(w: Daemons, run: seq<Action<S.Event>>, id: string)
    requires Legal(Daemon(), w, run)
    ensures run == [] ==> After(Daemon(), w, run) == w && Retried(w, run, id) == 0
    ensures run != [] ==>
              && Enabled(w, run[0]) && Legal(Daemon(), Next(Daemon(), w, run[0]), run[1..])
              && After(Daemon(), w, run) == After(Daemon(), Next(Daemon(), w, run[0]), run[1..])
              && Retried(w, run, id) == (if AddsRetry(w.state, run[0], id) then 1 else 0)
                                        + Retried(Next(Daemon(), w, run[0]), run[1..], id)
  {
    hide Next, Enabled, AddsRetry, Daemon;
  }

  // So a restart forgets exactly the retries counted since the capture: if the snapshot that a crash
  // leaves was captured at `c` in this life, and no event since makes or deletes the job.
  lemma RetriesLost(before: seq<Action<S.Event>>, c: Daemons, since: seq<Action<S.Event>>, a: Action<S.Event>,
                    id: string)
    requires Reached(Daemon(), before, c) && Enabled(c, Capture) && id in c.state.jobs
    requires Legal(Daemon(), Next(Daemon(), c, Capture), since) && forall i :: 0 <= i < |since| ==> !since[i].Crash?
    requires var w := After(Daemon(), Next(Daemon(), c, Capture), since);
             && a.Crash? && Enabled(w, a) && w.snaps[a.pick] == Some(Snapshot(c.log.processedSeq, c.state, c.trace))
    ensures var w := After(Daemon(), Next(Daemon(), c, Capture), since);
            var n := Next(Daemon(), w, a);
            && c.trace <= w.trace && c.log.processedSeq <= |n.history|
            && (Unmade(w.trace[|c.trace|..], id) && Unmade(n.history[c.log.processedSeq..], id) ==>
                  && id in w.state.jobs && id in n.state.jobs
                  && w.state.jobs[id].totalRetries
                     == n.state.jobs[id].totalRetries + Retried(Next(Daemon(), c, Capture), since, id))
  {
    var d := Next(Daemon(), c, Capture);
    var w := After(Daemon(), d, since);
    CapturedAs(c);
    hide *;
    ReachedOn(before, c, since);
    LifeRetries(d, since, id);
    RestartCounts(before + [Capture] + since, w, a, id);
    KeptTotals(w, a, c.state, c.log.processedSeq, id);
  }

  lemma CapturedAs(c: Daemons)
    requires Enabled(c, Capture)
    ensures var d := Next(Daemon(), c, Capture); d.state == c.state && d.trace == c.trace
  {
  }

  lemma ReachedOn(before: seq<Action<S.Event>>, c: Daemons, since: seq<Action<S.Event>>)
    requires Reached(Daemon(), before, c) && Enabled(c, Capture) && Legal(Daemon(), Next(Daemon(), c, Capture), since)
    ensures Reached(Daemon(), before + [Capture] + since, After(Daemon(), Next(Daemon(), c, Capture), since))
  {
    hide Next, Enabled, Daemon;
    var m, start, one := Daemon(), Start(Daemon()), [Capture];
    var d := Next(m, c, Capture);
    NoSteps(m, d);
    assert one[1..] == [] && Legal(m, c, one) && After(m, c, one) == d;
    LegalAppend(m, start, before, one);
    LegalAppend(m, start, before + one, since);
  }

  lemma KeptTotals(w: Daemons, a: Action<S.Event>, captured: S.State, num: nat, id: string)
    requires a.Crash? && Enabled(w, a) && w.snaps[a.pick].Some?
    requires w.snaps[a.pick].value.num == num && w.snaps[a.pick].value.state == captured && id in captured.jobs
    requires var n, snap := Next(Daemon(), w, a), w.snaps[a.pick];
             && SnapNum(snap) <= |n.history|
             && Carried(JobCounts(SnapState(snap), id), Creates(n.history[SnapNum(snap)..], id),
                        Deletes(n.history[SnapNum(snap)..], id),
                        Cleared(SnapState(snap), Replayed(w, a), a.clock, id), JobCounts(n.state, id))
    ensures var n := Next(Daemon(), w, a);
            && num <= |n.history|
            && (Unmade(n.history[num..], id) ==>
                  id in n.state.jobs && n.state.jobs[id].totalRetries == captured.jobs[id].totalRetries)
  {
    hide Next, Daemon, Creates, Deletes, Cleared, Replayed;
  }

  // Draining the log counts nothing either.
  lemma DrainedRetries(run: seq<Action<S.Event>>, w: Daemons, a: Action<S.Event>, clock: nat -> nat, end: Daemons,
                       id: string)
    requires Reached(Daemon(), run, w) && a.Crash? && Enabled(w, a)
    requires Drained(Daemon(), Next(Daemon(), w, a), clock, end)
    ensures var n := Next(Daemon(), w, a);
            id in n.state.jobs && Unmade(Left(n), id) ==>
              id in end.state.jobs && end.state.jobs[id].totalRetries == n.state.jobs[id].totalRetries
  {
    hide *;
    var n := Next(Daemon(), w, a);
    DaemonCongruent();
    var same := RestartRepeats(Daemon(), run, w, a, clock);
    SameDrain(Daemon(), n, clock, end, same);
    LeftIs(n);
    TurnsRetries(n, |Left(n)|, clock, end, Left(n), id);
  }

  lemma TurnsRetries(n: Daemons, turns: nat, clock: nat -> nat, end: Daemons, left: seq<S.Event>, id: string)
    requires Drained(Daemon(), n, clock, end) && turns == |Left(n)| && end.trace == n.trace + left
    ensures id in n.state.jobs && Unmade(left, id) ==>
              id in end.state.jobs && end.state.jobs[id].totalRetries == n.state.jobs[id].totalRetries
  {
    var run := Turns(turns, clock);
    assert Legal(Daemon(), n, run) && After(Daemon(), n, run) == end;
    hide *;
    LoopActions<S.Event>(turns, clock);
    Since(n.trace, end.trace, end.trace, left);
    UnmadeIs(left, id);
    if id in n.state.jobs && Unmade(left, id) {
      LifeRetries(n, run, id);
      NoAdjustments(n, run, id);
    }
  }

  lemma UnmadeIs(events: seq<S.Event>, id: string)
    ensures Unmade(events, id) <==> !Creates(events, id) && !Deletes(events, id)
  {
  }

  lemma {:induction false} NoAdjustments(w: Daemons, run: seq<Action<S.Event>>, id: string)
    requires Legal(Daemon(), w, run) && forall i :: 0 <= i < |run| ==> !run[i].Adjust?
    ensures Retried(w, run, id) == 0
    decreases |run|
  {
    if run != [] {
      var rest := run[1..];
      assert !run[0].Adjust? && forall i :: 0 <= i < |rest| ==> rest[i] == run[i + 1];
      hide Next, Enabled, Daemon;
      NoAdjustments(Next(Daemon(), w, run[0]), rest, id);
    }
  }

  // ------------------------------------------------------------- an attempt forgotten

  function Again(): Adjustment { OfJob("j", Increment("on_idle", 0)) }

  // A job is created and handled, and its state captured; then an action is attempted twice.
  ghost function Before(): seq<Action<S.Event>> { Sends([Created()]) + OneTurn(0) }

  ghost function Attempting(): seq<Action<S.Event>> { [Rename, Adjust(Again()), Adjust(Again())] }

  lemma HandledCreated() returns (c: Daemons)
    ensures Reached(Daemon(), Before(), c) && Enabled(c, Capture) && c.log.processedSeq == 1
    ensures c.history == [Created()] && c.snaps == [None] && c.state == S.Apply(S.EMPTY, Created(), 0)
  {
    hide *;
    var m, start, sends := Daemon(), Start(Daemon()), Sends([Created()]);
    StartFacts(m);
    StartIs(m);
    SendsApply(m, start, [Created()]);
    var w := After(m, start, sends);
    SentFirst(start, w, [Created()]);
    GrownKeeps(start, w, [Created()]);
    TurnApplies(m, w, 0, 0);
    TurnKeepsSnaps(m, w, 0);
    TurnState(w, 0, 0);
    LegalAppend(m, start, sends, OneTurn(0));
    c := After(m, w, OneTurn(0));
    BeforeIs(c);
    MayCapture(c);
  }

  lemma MayCapture(c: Daemons)
    ensures Enabled(c, Capture) <==> c.checkpoint.Idle? && c.log.processedSeq > 0
  {
  }

  lemma TurnState(w: Daemons, from: nat, now: nat)
    requires Ready(w, from) && from < |w.history| && Legal(Daemon(), w, OneTurn(now))
    ensures After(Daemon(), w, OneTurn(now)).state == S.Apply(w.state, w.history[from], now)
  {
    TurnTakes(Daemon(), w, from);
    var c := Next(Daemon(), w, Check);
    var h := Next(Daemon(), c, Handle(now));
    assert Enabled(c, Handle(now)) && Enabled(h, Mark) by { hide Inv; }
    StepState(w, Check);
    StepState(c, Handle(now));
    StepState(h, Mark);
    ThreeSteps(Daemon(), w, Check, Handle(now), Mark);
    hide Next, After, Legal, Enabled, Ready, S.Apply, Daemon;
  }

  lemma BeforeIs(c: Daemons)
    requires var run := Sends([Created()]) + OneTurn(0);
             Legal(Daemon(), Start(Daemon()), run) && After(Daemon(), Start(Daemon()), run) == c
    ensures Reached(Daemon(), Before(), c)
  {
    hide Legal, After, Sends, OneTurn, Created, Daemon;
  }

  lemma StartIs(m: Model<S.State, S.Event>)
    requires m == Daemon()
    ensures Start(m).snaps == [None] && Start(m).trace == [] && Start(m).state == S.EMPTY
  {
  }

  lemma GrownKeeps(w: Daemons, n: Daemons, events: seq<S.Event>)
    requires Grown(w, n, events)
    ensures n.snaps == w.snaps && n.trace == w.trace && n.state == w.state
  {
  }

  lemma TurnKeepsSnaps(m: Model<S.State, S.Event>, w: Daemons, now: nat)
    requires Legal(m, w, OneTurn(now))
    ensures After(m, w, OneTurn(now)).snaps == w.snaps
  {
    var run: seq<Action<S.Event>> := OneTurn(now);
    hide Legal, After;
    LoopKeepsSenders(m, w, run);
  }

  lemma TwoAttempts(s: S.State)
    requires JobCounts(s, "j") == Some(Counts(map[], 0))
    ensures var t := Adjusted(Adjusted(s, Again()), Again());
            "j" in t.jobs && t.jobs["j"].totalRetries == 1 && Attempts(t.jobs["j"].tracker.attempts, "on_idle", 0) == 2
  {
    var once := Adjusted(s, Again());
    AdjustedAt(s.jobs, Again(), "j");
    AdjustedAt(once.jobs, Again(), "j");
    hide Key;
  }

  lemma FirstCounts(s: S.State)
    requires s == S.Apply(S.EMPTY, Created(), 0)
    ensures JobCounts(s, "j") == Some(Counts(map[], 0))
  {
    CountsStep(S.EMPTY, Created(), 0, "j");
    hide S.Apply;
  }

  lemma AttemptingIs(c: Daemons)
    requires Enabled(c, Capture) && c.snaps == [None]
    ensures var d := Next(Daemon(), c, Capture);
            && Legal(Daemon(), d, Attempting())
            && var w := After(Daemon(), d, Attempting());
               && w.state == Adjusted(Adjusted(c.state, Again()), Again()) && w.history == c.history
               && w.log == c.log && w.snaps == [None, Some(Snapshot(c.log.processedSeq, c.state, c.trace))]
  {
    var d := Next(Daemon(), c, Capture);
    var r := Next(Daemon(), d, Rename);
    var x := Next(Daemon(), r, Adjust(Again()));
    hide Adjusted, Again;
    assert r.state == c.state && r.snaps == [None] + [Some(Snapshot(c.log.processedSeq, c.state, c.trace))];
    assert x.state == Adjusted(c.state, Again());
    ThreeSteps(Daemon(), d, Rename, Adjust(Again()), Adjust(Again()));
  }

  // The live job has two attempts, one of them a retry; after the crash it has none.
  lemma AttemptForgotten(clock: nat -> nat) returns (w: Daemons, a: Action<S.Event>)
    ensures Reached(Daemon(), Before() + [Capture] + Attempting(), w) && a.Crash? && Enabled(w, a)
    ensures "j" in w.state.jobs && w.state.jobs["j"].totalRetries == 1
            && Attempts(w.state.jobs["j"].tracker.attempts, "on_idle", 0) == 2
    ensures JobCounts(Next(Daemon(), w, a).state, "j") == Some(Counts(map[], 0))
  {
    hide *;
    var c := HandledCreated();
    FirstCounts(c.state);
    AttemptingIs(c);
    w := After(Daemon(), Next(Daemon(), c, Capture), Attempting());
    TwoAttempts(c.state);
    ReachedOn(Before(), c, Attempting());
    a := Crash(|w.log.buffer|, false, 1, clock);
    ReachedInv(Daemon(), Before() + [Capture] + Attempting(), w);
    PickSecond(w, a);
    RestartCounts(Before() + [Capture] + Attempting(), w, a, "j");
    RebornFacts(Daemon(), w, a);
    NothingAbove(w, a, c);
  }

  lemma PickSecond(w: Daemons, a: Action<S.Event>)
    requires Inv(w) && a.Crash? && a.written == |w.log.buffer| && a.pick == 1 && |w.snaps| == 2
    ensures Enabled(w, a) && SurvivingHistory(w.log, w.history, a.written) == w.history
  {
    assert w.history[..|w.history|] == w.history;
  }

  // With nothing above the snapshot's number, its counts are those of the job.
  lemma NothingAbove(w: Daemons, a: Action<S.Event>, c: Daemons)
    requires a.Crash? && Enabled(w, a) && w.snaps[a.pick] == Some(Snapshot(1, c.state, c.trace))
    requires Next(Daemon(), w, a).history == [Created()] && JobCounts(c.state, "j") == Some(Counts(map[], 0))
    requires var n, snap := Next(Daemon(), w, a), w.snaps[a.pick];
             && SnapNum(snap) <= |n.history|
             && Carried(JobCounts(SnapState(snap), "j"), Creates(n.history[SnapNum(snap)..], "j"),
                        Deletes(n.history[SnapNum(snap)..], "j"),
                        Cleared(SnapState(snap), Replayed(w, a), a.clock, "j"), JobCounts(n.state, "j"))
    ensures JobCounts(Next(Daemon(), w, a).state, "j") == Some(Counts(map[], 0))
  {
    hide Next, Daemon, Cleared, Replayed, CountsOf, Created;
    assert [Created()][1..] == [];
  }
}
