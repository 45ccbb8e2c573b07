/** The protocol with the daemon's own transition function: what its runs and restarts do to jobs. */
module DaemonRuns {
  import opened Wrappers
  import opened Protocol
  import opened ProtocolInvariant
  import opened ProtocolTheorems
  import opened Collapse
  import opened Recovery
  import opened Runs
  import opened Restart
  import opened Weaving
  import opened Commuting
  import opened Independence
  import opened Emission
  import S = State
  import StateLaws
  import Jobs
  import Clocks
  import RetryCounts

  // ------------------------------------------------------------- the daemon's state

  // The daemon: events applied as crates/storage/src/state.rs does, attempts counted as the runtime
  // does, compared up to clock readings and those counts.
  ghost function Daemon(): Model<S.State, S.Event> {
    Model((s, e, now) => S.Apply(s, e, now), S.EMPTY, s => Clocks.Forget(s), (s, how) => RetryCounts.Adjusted(s, how))
  }

  lemma DaemonCongruent()
    ensures Congruent(Daemon())
  {
    forall s, e, now ensures Forgets(Daemon(), s, e, now) {
      Clocks.ApplyForget(s, e, now);
      hide S.Apply, Clocks.Forget;
    }
    forall s, how ensures Daemon().erase(Daemon().adjust(s, how)) == Daemon().erase(s) {
      RetryCounts.AdjustedForgets(s, how);
      hide RetryCounts.Adjusted, Clocks.Forget;
    }
  }

  lemma DaemonIdempotent()
    ensures Idempotent(Daemon())
  {
    hide S.Apply, Clocks.Forget;
    forall s, e ensures S.Apply(S.Apply(s, e, 0), e, 0) == S.Apply(s, e, 0) {
      StateLaws.ApplyTwiceSameClock(s, e, 0);
    }
  }

  // Applying an event again changes clock readings only.
  lemma Reapply(s: S.State, e: S.Event, now: nat, later: nat)
    ensures Clocks.Scrub(S.Apply(S.Apply(s, e, now), e, later)) == Clocks.Scrub(S.Apply(s, e, now))
  {
    hide S.Apply, Clocks.Scrub;
    var once := S.Apply(s, e, now);
    Clocks.ApplyClock(once, e, later);
    Clocks.ApplyClock(once, e, now);
    StateLaws.ApplyTwiceSameClock(s, e, now);
  }

  // Events about different jobs, different queues or different tables may trade places.
  lemma DaemonCommute(x: S.Event, y: S.Event)
    requires x == y || Independent(x, y)
    ensures Commute(Daemon(), x, y)
  {
    hide S.Apply, Independent, Clocks.Forget;
    forall s ensures S.Apply(S.Apply(s, x, 0), y, 0) == S.Apply(S.Apply(s, y, 0), x, 0) {
      if x != y { IndependentCommute(s, x, y, 0, 0); }
    }
  }

  // Any two of the events are the same or independent.
  predicate Separate(events: seq<S.Event>) {
    forall i, j :: 0 <= i < j < |events| ==> events[j] == events[i] || Independent(events[j], events[i])
  }

  lemma SeparateCommute(events: seq<S.Event>)
    requires Separate(events)
    ensures InAnyOrder(Daemon(), events)
  {
    forall i, j | 0 <= i < j < |events| ensures Commute(Daemon(), events[j], events[i]) {
      DaemonCommute(events[j], events[i]);
    }
    hide Independent, Commute;
  }

  // A restart recovers the daemon's state: if what the checkpoints captured amounted to events of the
  // log, it is, up to clock readings and what the runtime counts without events, the fold of every event
  // that survived; and still so when the log is drained, if the entries above the base are repetitions
  // or independent of one another.
  lemma DaemonRecovers(run: seq<Action<S.Event>>, w: World<S.State, S.Event>, a: Action<S.Event>, clock: nat -> nat)
    returns (end: World<S.State, S.Event>)
    requires Reached(Daemon(), run, w) && CapturesCovered(Daemon(), Start(Daemon()), run) && a.Crash? && Enabled(w, a)
    ensures var n := Next(Daemon(), w, a);
            && Clocks.Forget(n.state) == Clocks.Forget(Fold(Daemon(), n.history))
            && n.history <= w.history && |w.history| - |w.log.buffer| <= |n.history|
            && Drained(Daemon(), n, clock, end)
            && (Separate(Left(n)) ==> Clocks.Forget(end.state) == Clocks.Forget(Fold(Daemon(), n.history)))
  {
    DaemonCongruent();
    DaemonIdempotent();
    assert Legal(Daemon(), Start(Daemon()), run) && After(Daemon(), Start(Daemon()), run) == w;
    hide *;
    var n := Next(Daemon(), w, a);
    RecoveryIsFold(Daemon(), run, a);
    end := RestartRepeats(Daemon(), run, w, a, clock);
    if Separate(Left(n)) { SeparateCommute(Left(n)); }
    RestartKeepsState(Daemon(), run, w, a, clock, end);
    EraseIsForget(n.state);
    EraseIsForget(end.state);
    EraseIsForget(Fold(Daemon(), n.history));
  }

  // The event comes up again in `next`, and is independent of what comes before it there.
  predicate ComesLater(x: S.Event, next: seq<S.Event>) {
    exists p :: 0 <= p < |next| && next[p] == x && forall i :: 0 <= i < p ==> Independent(x, next[i])
  }

  lemma LaterAbsorbs(x: S.Event, next: seq<S.Event>)
    requires ComesLater(x, next)
    ensures Absorbs(Daemon(), x, next)
  {
    var p :| 0 <= p < |next| && next[p] == x && forall i :: 0 <= i < p ==> Independent(x, next[i]);
    forall i | 0 <= i < p ensures Commute(Daemon(), x, next[..p][i]) {
      DaemonCommute(x, next[i]);
    }
    hide Independent, Commute;
    assert PassesAll(Daemon(), x, next[..p]);
  }

  predicate AllComeLater(log: seq<S.Event>, applied: seq<seq<S.Event>>)
    requires |applied| == |log|
  {
    forall i, k :: 0 <= i < |log| && 0 <= k < |applied[i]| ==> ComesLater(applied[i][k], log[i + 1..])
  }

  lemma AllLaterAbsorbed(log: seq<S.Event>, applied: seq<seq<S.Event>>)
    requires |applied| == |log| && AllComeLater(log, applied)
    ensures AllAbsorbed(Daemon(), log, applied)
  {
    hide ComesLater, Absorbs;
    forall i | 0 <= i < |log| ensures AbsorbedAt(Daemon(), log, applied, i) {
      forall k | 0 <= k < |applied[i]| ensures Absorbs(Daemon(), applied[i][k], log[i + 1..]) {
        LaterAbsorbs(applied[i][k], log[i + 1..]);
      }
    }
  }

  // A life without a crash keeps the daemon's state in step with the log, whatever comes in and whatever
  // handlers of emitted events emit, if every event applied early comes up again among the entries
  // handled and is independent of those handled before it does.
  lemma DaemonLives(rounds: seq<Round<S.Event>>, now: nat) returns (end: World<S.State, S.Event>)
    requires Busy(0, rounds)
    ensures Reached(Daemon(), Life(rounds, now), end) && end.history == Logged(rounds) && |rounds| <= |end.history|
    ensures AllComeLater(end.history[..|rounds|], Behind(rounds)) ==>
              Clocks.Forget(end.state) == Clocks.Forget(Fold(Daemon(), end.history[..|rounds|]))
  {
    DaemonCongruent();
    DaemonIdempotent();
    hide *;
    LifeAbsorbed(Daemon(), rounds, now);
    end := After(Daemon(), Start(Daemon()), Life(rounds, now));
    var log := end.history[..|rounds|];
    if AllComeLater(log, Behind(rounds)) { AllLaterAbsorbed(log, Behind(rounds)); }
    ReachedIs(Life(rounds, now), end);
    EraseIsForget(end.state);
    EraseIsForget(Fold(Daemon(), end.history[..|rounds|]));
  }

  lemma EraseIsForget(s: S.State)
    ensures Daemon().erase(s) == Clocks.Forget(s)
  {
  }

  // ------------------------------------------------- replaying entries out of turn is not harmless

  function Created(): S.Event { S.JobCreated("j", "build", "j", "", "", map[], "a", 0, "", None) }

  function Example(): seq<S.Event> { [Created(), S.JobAdvanced("j", "b"), S.JobAdvanced("j", "c")] }

  // What a life applies that passes over the first entry and replays the others.
  function Twice(): seq<S.Event> { Example() + Example()[1..] }

  function VisitsToB(j: Jobs.Job): nat { if "b" in j.stepVisits then j.stepVisits["b"] else 0 }

  // Where the job stands: its step, whether that failed, and how often `b` was entered.
  predicate JobAt(s: S.State, step: string, failed: bool, visits: nat) {
    && "j" in s.jobs && s.jobs["j"].step == step && s.jobs["j"].status.Failed? == failed
    && VisitsToB(s.jobs["j"]) == visits
  }

  lemma AdvanceJob(s: S.State, from: string, failed: bool, step: string, visits: nat)
    requires JobAt(s, from, failed, visits) && (from != step || failed) && (step == "b" || step == "c")
    ensures JobAt(S.Apply(s, S.JobAdvanced("j", step), 0), step, false, if step == "b" then visits + 1 else visits)
  {
    var e := S.JobAdvanced("j", step);
    assert !Jobs.TerminalStep(step) && !S.Stays(s.jobs, e);
    AdvanceOnly(s, step);
    hide S.Apply, S.ApplyJob, S.HistoryOnEntry, S.ClosingOutcome;
  }

  lemma AdvanceOnly(s: S.State, step: string)
    requires "j" in s.jobs && !S.Stays(s.jobs, S.JobAdvanced("j", step))
    ensures var t := S.Apply(s, S.JobAdvanced("j", step), 0);
            "j" in t.jobs && t.jobs["j"] == S.Advance(s.jobs["j"], step, 0)
  {
    var e := S.JobAdvanced("j", step);
    hide S.ApplyStep, S.ApplyAgent, S.ApplySignal, S.ApplySession, S.ApplyWorkspace, S.ApplyWorker, S.ApplyQueue,
         S.ApplyCron, S.ApplyDecision, S.ApplyRun, S.Advance, S.Stays;
    assert S.Apply(s, e, 0) == S.ApplyJob(s, e, 0);
    assert S.JobAfter(s.jobs["j"], e, 0) == S.Advance(s.jobs["j"], step, 0);
  }

  lemma FoldAdvance(done: seq<S.Event>, from: string, failed: bool, step: string, visits: nat)
    requires JobAt(Fold(Daemon(), done), from, failed, visits) && (from != step || failed)
    requires step == "b" || step == "c"
    ensures JobAt(Fold(Daemon(), done + [S.JobAdvanced("j", step)]), step, false,
                  if step == "b" then visits + 1 else visits)
  {
    hide S.Apply, JobAt;
    FoldSnoc(Daemon(), done, S.JobAdvanced("j", step));
    AdvanceJob(Fold(Daemon(), done), from, failed, step, visits);
  }

  lemma FoldCreated()
    ensures JobAt(Fold(Daemon(), [Created()]), "a", false, 0)
  {
    assert [Created()] == [] + [Created()];
    FoldSnoc(Daemon(), [], Created());
  }

  lemma ExampleFold()
    ensures JobAt(Fold(Daemon(), Example()), "c", false, 1)
    ensures JobAt(Fold(Daemon(), Twice()), "c", false, 2)
  {
    var c1, c2, c3 := [Created()], [Created(), S.JobAdvanced("j", "b")], Example();
    FoldCreated();
    hide Fold, JobAt, S.Apply, Daemon;
    assert c2 == c1 + [S.JobAdvanced("j", "b")] && c3 == c2 + [S.JobAdvanced("j", "c")];
    FoldAdvance(c1, "a", false, "b", 0);
    FoldAdvance(c2, "b", false, "c", 1);
    var c4 := c3 + [S.JobAdvanced("j", "b")];
    FoldAdvance(c3, "c", false, "b", 1);
    FoldAdvance(c4, "b", false, "c", 2);
    assert c4 + [S.JobAdvanced("j", "c")] == Twice();
  }

  lemma VisitsRemembered(s: S.State, t: S.State, step: string, a: nat, b: nat)
    requires JobAt(s, step, false, a) && JobAt(t, step, false, b) && a != b
    ensures Clocks.Forget(s) != Clocks.Forget(t)
  {
    assert Clocks.Forget(s).jobs["j"].stepVisits == s.jobs["j"].stepVisits;
    assert Clocks.Forget(t).jobs["j"].stepVisits == t.jobs["j"].stepVisits;
  }

  // A crash after those events, sent and never checkpointed, and a restart leave the job with a step
  // entered twice as often as it was: neither clock readings nor retry counts explain the difference.
  lemma RestartCanDiverge(clock: nat -> nat)
    returns (w: World<S.State, S.Event>, a: Action<S.Event>, end: World<S.State, S.Event>)
    ensures Reached(Daemon(), Sends(Example()), w) && a.Crash? && Enabled(w, a)
    ensures var n := Next(Daemon(), w, a);
            && n.history == Example() && Drained(Daemon(), n, clock, end)
            && Clocks.Forget(n.state) == Clocks.Forget(Fold(Daemon(), Example()))
            && Clocks.Forget(end.state) != Clocks.Forget(Fold(Daemon(), Example()))
  {
    hide *;
    w := ExampleSent();
    a := Crash(|w.log.buffer|, false, 0, clock);
    SentCrash(w, clock);
    DaemonCongruent();
    DaemonIdempotent();
    end := DaemonRecovers(Sends(Example()), w, a, clock);
    RestartKeepsState(Daemon(), Sends(Example()), w, a, clock, end);
    EraseIsForget(end.state);
    EraseIsForget(Fold(Daemon(), Twice()));
    ExampleFold();
    VisitsRemembered(Fold(Daemon(), Example()), Fold(Daemon(), Twice()), "c", 1, 2);
  }

  lemma ExampleSent() returns (w: World<S.State, S.Event>)
    ensures Reached(Daemon(), Sends(Example()), w) && CapturesCovered(Daemon(), Start(Daemon()), Sends(Example()))
    ensures Inv(w) && w.history == Example() && w.snaps == [None]
  {
    hide Next, Inv, Legal, After, CapturesCovered, Sends, Example, Daemon;
    StartInv(Daemon());
    SendsApply(Daemon(), Start(Daemon()), Example());
    w := After(Daemon(), Start(Daemon()), Sends(Example()));
    SendsOnly(Example());
    NoCaptures(Daemon(), Start(Daemon()), Sends(Example()));
  }

  lemma SentCrash(w: World<S.State, S.Event>, clock: nat -> nat)
    requires Inv(w) && w.history == Example() && w.snaps == [None]
    ensures var a := Crash(|w.log.buffer|, false, 0, clock);
            && Enabled(w, a) && Next(Daemon(), w, a).history == Example()
            && Example() + Left(Next(Daemon(), w, a)) == Twice()
  {
    var a := Crash(|w.log.buffer|, false, 0, clock);
    AllSurvives(w, a);
    hide Next, Inv, SurvivingHistory;
    RebornFacts(Daemon(), w, a);
    RestartPassesOverFirst(Daemon(), w, a);
  }

  lemma AllSurvives(w: World<S.State, S.Event>, a: Action<S.Event>)
    requires Inv(w) && a.Crash? && a.written == |w.log.buffer| && a.pick == 0 && w.snaps == [None]
    ensures Enabled(w, a) && SurvivingHistory(w.log, w.history, a.written) == w.history
  {
    assert w.history[..|w.history|] == w.history;
  }

  // ------------------------------------------------- applying events early is not harmless

  function Started(): S.Event { S.StepStarted("j", None, None) }

  function Exited(): S.Event { S.ShellExited("j", 1) }

  // What the handler of a failing command emits for a step that goes on to `b` on failure.
  function Recovering(): seq<S.Event> { [S.StepFailed("j", ""), S.JobAdvanced("j", "b"), Started()] }

  // A job is created and its first step started; then that fails.
  function FailingJob(): seq<Round<S.Event>> {
    FailureRounds(Created(), Started(), Exited(), S.StepFailed("j", ""), S.JobAdvanced("j", "b"))
  }

  function FailingLog(): seq<S.Event> {
    [Created(), Started(), Exited(), S.StepFailed("j", ""), S.JobAdvanced("j", "b"), Started()]
  }

  function FailingTrace(): seq<S.Event> {
    [Created(), Started(), Started(), Exited(), S.StepFailed("j", ""), S.JobAdvanced("j", "b"), Started(),
     S.StepFailed("j", ""), S.JobAdvanced("j", "b"), Started()]
  }

  lemma StepJob(s: S.State, step: string, failed: bool, visits: nat, e: S.Event)
    requires JobAt(s, step, failed, visits) && (e == Started() || e == Exited() || e == S.StepFailed("j", ""))
    ensures JobAt(S.Apply(s, e, 0), step, !e.StepStarted?, visits)
  {
    StepOnly(s, e);
    hide S.Apply, S.ApplyStep, Jobs.Finalize, Jobs.SetOutcome;
  }

  lemma StepOnly(s: S.State, e: S.Event)
    requires "j" in s.jobs && S.AboutStep(e) && e.job == "j"
    ensures var t := S.Apply(s, e, 0); "j" in t.jobs && t.jobs["j"] == S.JobAfterStep(s.jobs["j"], e, 0)
  {
    hide S.ApplyJob, S.ApplyAgent, S.ApplySignal, S.ApplySession, S.ApplyWorkspace, S.ApplyWorker, S.ApplyQueue,
         S.ApplyCron, S.ApplyDecision, S.ApplyRun, S.JobAfterStep, S.StartedAgents;
    assert S.Apply(s, e, 0) == S.ApplyStep(s, e, 0);
    assert S.JobAfter(s.jobs["j"], e, 0) == S.JobAfterStep(s.jobs["j"], e, 0);
  }

  lemma FoldStarted(done: seq<S.Event>, step: string, failed: bool, visits: nat)
    requires JobAt(Fold(Daemon(), done), step, failed, visits)
    ensures JobAt(Fold(Daemon(), done + [Started()]), step, false, visits)
  {
    hide S.Apply, JobAt;
    FoldSnoc(Daemon(), done, Started());
    StepJob(Fold(Daemon(), done), step, failed, visits, Started());
  }

  lemma FoldFailed(done: seq<S.Event>, step: string, failed: bool, visits: nat, e: S.Event)
    requires JobAt(Fold(Daemon(), done), step, failed, visits) && (e == Exited() || e == S.StepFailed("j", ""))
    ensures JobAt(Fold(Daemon(), done + [e]), step, true, visits)
  {
    hide S.Apply, JobAt;
    FoldSnoc(Daemon(), done, e);
    StepJob(Fold(Daemon(), done), step, failed, visits, e);
  }

  lemma FoldRecovering(done: seq<S.Event>, step: string, failed: bool, visits: nat)
    requires JobAt(Fold(Daemon(), done), step, failed, visits)
    ensures JobAt(Fold(Daemon(), done + Recovering()), "b", false, visits + 1)
  {
    var f, a := S.StepFailed("j", ""), S.JobAdvanced("j", "b");
    assert Recovering() == [f, a, Started()];
    hide *;
    FoldFailed(done, step, failed, visits, f);
    FoldAdvance(done + [f], step, true, "b", visits);
    FoldStarted(done + [f] + [a], "b", false, visits + 1);
    OneByOne(done, f, a, Started());
  }

  // The log has the job enter `b` once, the state has it enter twice.
  lemma FailingFold()
    ensures JobAt(Fold(Daemon(), FailingLog()), "b", false, 1)
    ensures JobAt(Fold(Daemon(), FailingTrace()), "b", false, 2)
  {
    var c, s := [Created()], Started();
    FoldCreated();
    FailingLists();
    hide *;
    FoldStarted(c, "a", false, 0);
    FoldFailed(c + [s], "a", false, 0, Exited());
    FoldRecovering(c + [s] + [Exited()], "a", true, 0);
    FoldStarted(c + [s], "a", false, 0);
    FoldFailed(c + [s] + [s], "a", false, 0, Exited());
    FoldRecovering(c + [s] + [s] + [Exited()], "a", true, 0);
    FoldRecovering(c + [s] + [s] + [Exited()] + Recovering(), "b", false, 1);
  }

  lemma FailingLists()
    ensures FailingLog() == [Created()] + [Started()] + [Exited()] + Recovering()
    ensures FailingTrace() == [Created()] + [Started()] + [Started()] + [Exited()] + Recovering() + Recovering()
  {
  }

  // In a run without a crash, one failing command leaves the job with a step entered twice that the
  // log has it enter once: neither clock readings nor retry counts explain the difference.
  lemma EarlyCanDiverge(now: nat) returns (end: World<S.State, S.Event>)
    ensures Reached(Daemon(), Life(FailingJob(), now), end) && end.history == FailingLog()
    ensures Clocks.Forget(end.state) == Clocks.Forget(Fold(Daemon(), FailingTrace()))
    ensures Clocks.Forget(end.state) != Clocks.Forget(Fold(Daemon(), end.history))
  {
    DaemonCongruent();
    FailingRounds();
    hide *;
    var run := Life(FailingJob(), now);
    LifeSettlesIff(Daemon(), FailingJob(), now);
    end := After(Daemon(), Start(Daemon()), run);
    assert end.history[..|FailingJob()|] == end.history;
    EraseIsForget(end.state);
    EraseIsForget(Fold(Daemon(), end.trace));
    FailingFold();
    VisitsRemembered(Fold(Daemon(), end.history), Fold(Daemon(), end.trace), "b", 1, 2);
    ReachedIs(run, end);
  }

  lemma FailingRounds()
    ensures Busy(0, FailingJob()) && Logged(FailingJob()) == FailingLog()
    ensures |FailingJob()| == |FailingLog()| && Woven(FailingLog(), Behind(FailingJob())) == FailingTrace()
  {
    FailureLog(Created(), Started(), Exited(), S.StepFailed("j", ""), S.JobAdvanced("j", "b"));
    FailureWoven(Created(), Started(), Exited(), S.StepFailed("j", ""), S.JobAdvanced("j", "b"));
    hide FailureRounds, Logged, Busy, Woven, Behind;
  }

  lemma ReachedIs(run: seq<Action<S.Event>>, w: World<S.State, S.Event>)
    requires Legal(Daemon(), Start(Daemon()), run) && After(Daemon(), Start(Daemon()), run) == w
    ensures Reached(Daemon(), run, w)
  {
    hide Legal, After, Daemon;
  }
}
