/** What a restart does to the state: recovery puts it in step with the log, and then every entry
    above the snapshot is handled a second time. */
module Restart {
  import opened Protocol
  import opened ProtocolInvariant
  import opened Collapse
  import opened Commuting
  import opened Traces
  import opened Recovery
  import opened Runs

  // ------------------------------------------------- restarts

  // `w` can be reached from the first start.
  ghost predicate Reached<St, E>(m: Model<St, E>, run: seq<Action<E>>, w: World<St, E>) {
    Legal(m, Start(m), run) && After(m, Start(m), run) == w
  }

  // The entries a new life goes through before it meets new ones, and the world when it has.
  function Left<St, E>(n: World<St, E>): seq<E> {
    if n.base <= |n.history| then n.history[n.base..] else []
  }

  ghost predicate Drained<St, E>(m: Model<St, E>, n: World<St, E>, clock: nat -> nat, end: World<St, E>) {
    Legal(m, n, Turns(|Left(n)|, clock)) && After(m, n, Turns(|Left(n)|, clock)) == end
  }

  lemma NewLifeReady<St, E>(m: Model<St, E>, w: World<St, E>, a: Action<E>)
    requires Inv(w) && a.Crash? && Enabled(w, a)
    ensures var n := Next(m, w, a); n.base <= |n.history| && Ready(n, n.base)
  {
    var n := Next(m, w, a);
    RebornFacts(m, w, a);
    CrashInv(m, w, a);
    FreshCursor(n);
    WholeLog(n);
    hide Inv, Next;
  }

  // After any crash of any run the new life can drain the log, and then it has applied every entry
  // above its base on top of what was recovered.
  lemma RestartRepeats<St(!new), E(!new)>(m: Model<St, E>, run: seq<Action<E>>, w: World<St, E>, a: Action<E>,
                                          clock: nat -> nat)
    returns (end: World<St, E>)
    requires Reached(m, run, w) && a.Crash? && Enabled(w, a) && Congruent(m)
    ensures var n := Next(m, w, a);
            && Drained(m, n, clock, end) && end.history == n.history && n.base <= |n.history|
            && end.trace == n.trace + n.history[n.base..] && m.erase(end.state) == m.erase(Fold(m, end.trace))
  {
    hide *;
    ReachedInv(m, run, w);
    NewLifeReady(m, w, a);
    NextTrace(m, w, a);
    var n := Next(m, w, a);
    LeftIs(n);
    TurnsApply(m, n, n.base, |Left(n)|, clock);
    end := After(m, n, Turns(|Left(n)|, clock));
    RunTrace(m, n, Turns(|Left(n)|, clock));
    DrainedIs(m, n, clock);
    TraceHolds(m, end);
    assert n.history[n.base..n.base + |Left(n)|] == n.history[n.base..];
  }

  lemma ReachedInv<St(!new), E(!new)>(m: Model<St, E>, run: seq<Action<E>>, w: World<St, E>)
    requires Reached(m, run, w)
    ensures Inv(w) && (Congruent(m) ==> TraceOk(m, w)) && (CapturesCovered(m, Start(m), run) ==> SnapsTrack(w))
  {
    hide Inv, SnapsTrack, TraceOk, Congruent, Start, Legal, CapturesCovered, After;
    StartInv(m);
    RunInv(m, Start(m), run);
    StartTrace(m);
    StartSnaps(m);
    if Congruent(m) { RunTrace(m, Start(m), run); }
    if CapturesCovered(m, Start(m), run) { RunSnaps(m, Start(m), run); }
  }

  lemma DrainedIs<St, E>(m: Model<St, E>, n: World<St, E>, clock: nat -> nat)
    requires Legal(m, n, Turns(|Left(n)|, clock))
    ensures Drained(m, n, clock, After(m, n, Turns(|Left(n)|, clock)))
  {
    hide Legal, After, Left, Turns;
  }

  lemma TraceHolds<St, E>(m: Model<St, E>, w: World<St, E>)
    requires TraceOk(m, w)
    ensures m.erase(w.state) == m.erase(Fold(m, w.trace))
  {
  }

  // If what the checkpoints captured amounted to events of the log, the drained state does so too
  // exactly if the entries above the base are all the same event: one is harmless, two different
  // ones are not.
  lemma RestartHarmlessIff<St(!new), E(!new)>(m: Model<St, E>, run: seq<Action<E>>, w: World<St, E>, a: Action<E>,
                                              clock: nat -> nat, end: World<St, E>)
    requires Reached(m, run, w) && CapturesCovered(m, Start(m), run) && a.Crash? && Enabled(w, a)
    requires Congruent(m) && Drained(m, Next(m, w, a), clock, end)
    ensures var n := Next(m, w, a);
            && (Distilled(end.trace) == Distilled(n.history) <==> AllEqual(Left(n)))
            && Distilled(end.trace) == Distilled(n.history + Left(n))
            && end.history == n.history && m.erase(end.state) == m.erase(Fold(m, end.trace))
  {
    hide *;
    ReachedInv(m, run, w);
    RecoveredTrace(m, w, a);
    var n := Next(m, w, a);
    var same := RestartRepeats(m, run, w, a, clock);
    SameDrain(m, n, clock, end, same);
    LeftIs(n);
    var before, left := n.history[..n.base], Left(n);
    RepeatIff(before, left);
    DistilledAppend(n.trace, n.history, left);
    assert n.history == before + left;
  }

  lemma LeftIs<St, E>(n: World<St, E>)
    requires n.base <= |n.history|
    ensures Left(n) == n.history[n.base..] && n.base + |Left(n)| == |n.history|
  {
  }

  lemma SameDrain<St, E>(m: Model<St, E>, n: World<St, E>, clock: nat -> nat, end: World<St, E>, same: World<St, E>)
    requires Drained(m, n, clock, end) && Drained(m, n, clock, same)
    ensures end == same
  {
  }

  // For states: every idempotent transition function ends in the fold if the condition holds, and one of
  // which the entries above the base commute does so too ...
  lemma RestartKeepsState<St(!new), E(!new)>(m: Model<St, E>, run: seq<Action<E>>, w: World<St, E>, a: Action<E>,
                                             clock: nat -> nat, end: World<St, E>)
    requires Reached(m, run, w) && CapturesCovered(m, Start(m), run) && a.Crash? && Enabled(w, a)
    requires Congruent(m) && Idempotent(m) && Drained(m, Next(m, w, a), clock, end)
    ensures var n := Next(m, w, a);
            && m.erase(end.state) == m.erase(Fold(m, n.history + Left(n)))
            && (AllEqual(Left(n)) ==> m.erase(end.state) == m.erase(Fold(m, n.history)))
            && (InAnyOrder(m, Left(n)) ==> m.erase(end.state) == m.erase(Fold(m, n.history)))
  {
    hide *;
    RestartHarmlessIff(m, run, w, a, clock, end);
    var n := Next(m, w, a);
    SameState(m, end.trace, n.history + Left(n));
    if AllEqual(Left(n)) { SameState(m, end.trace, n.history); }
    if InAnyOrder(m, Left(n)) { GoneThrough(m, run, w, a); }
  }

  // Entries that commute may be gone through once more.
  lemma GoneThrough<St(!new), E(!new)>(m: Model<St, E>, run: seq<Action<E>>, w: World<St, E>, a: Action<E>)
    requires Reached(m, run, w) && a.Crash? && Enabled(w, a) && Congruent(m) && Idempotent(m)
    requires InAnyOrder(m, Left(Next(m, w, a)))
    ensures var n := Next(m, w, a); m.erase(Fold(m, n.history + Left(n))) == m.erase(Fold(m, n.history))
  {
    hide *;
    ReachedInv(m, run, w);
    NewLifeReady(m, w, a);
    var n := Next(m, w, a);
    LeftIs(n);
    var before, left := n.history[..n.base], Left(n);
    assert n.history == before + left;
    AgainIsOnce(m, before, left);
    SameMeans(m, before + left + left, before + left);
  }

  lemma SameMeans<St, E>(m: Model<St, E>, a: seq<E>, b: seq<E>)
    requires Same(m, a, b)
    ensures m.erase(Fold(m, a)) == m.erase(Fold(m, b))
  {
  }

  // ... and the one that tells all others apart only then.
  lemma RestartTellsIff<E(!new)>(run: seq<Action<E>>, w: World<seq<E>, E>, a: Action<E>, clock: nat -> nat,
                                 end: World<seq<E>, E>)
    requires Reached(Recorder(), run, w) && CapturesCovered(Recorder(), Start(Recorder()), run) && a.Crash?
    requires Enabled(w, a)
    requires Drained(Recorder(), Next(Recorder(), w, a), clock, end)
    ensures Congruent(Recorder<E>()) && Idempotent(Recorder<E>())
    ensures var n := Next(Recorder(), w, a); end.state == Fold(Recorder(), n.history) <==> AllEqual(Left(n))
  {
    hide *;
    var n := Next(Recorder(), w, a);
    RecorderTells(end.trace, n.history);
    RestartHarmlessIff(Recorder(), run, w, a, clock, end);
    RecorderErases(end.state);
    RecorderErases(Fold(Recorder(), end.trace));
  }
}
