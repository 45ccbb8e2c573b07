/** Which attempts of an agent run a restart keeps. No event clears them but the one that makes the run. */
module RunAttempts {
  import opened Wrappers
  import opened Actions
  import opened State
  import opened Tables
  import opened Retries
  import opened Protocol
  import opened ProtocolTheorems
  import opened Restart
  import opened DaemonRuns
  import RetryRuns
  import opened Wal

  // ------------------------------------------------------------- one event

  function Kept(r: AgentRun): Counts { Counts(r.tracker.attempts, 0) }

  function RunCounts(m: map<string, AgentRun>, id: string): Option<Counts> {
    if id in m then Some(Kept(m[id])) else None
  }

  function RunCountsAfter(m: map<string, AgentRun>, e: Event, id: string): Option<Counts> {
    if e.AgentRunCreated? && e.run == id then Some(Counts(map[], 0))
    else if e.AgentRunDeleted? && e.run == id then None
    else RunCounts(m, id)
  }

  lemma RecordKeeps(r: AgentRun, e: Event, now: nat)
    ensures Kept(RunAfter(r, e, now)) == Kept(r)
  {
  }

  lemma OneKeeps(m: map<string, AgentRun>, k: string, e: Event, now: nat, id: string)
    ensures RunCounts(RunsAt(m, k, e, now), id) == RunCounts(m, id)
  {
    if k in m { RecordKeeps(m[k], e, now); }
    hide RunAfter, Kept;
  }

  lemma AllKeep(m: map<string, AgentRun>, e: Event, now: nat, id: string)
    ensures RunCounts(AllRuns(m, e, now), id) == RunCounts(m, id)
  {
    if id in m { RecordKeeps(m[id], e, now); }
    hide RunAfter, Kept;
  }

  lemma OwnedKeep(m: map<string, AgentRun>, owner: Owner, e: Event, now: nat, id: string)
    ensures RunCounts(OwnedRuns(m, owner, e, now), id) == RunCounts(m, id)
  {
    if owner.RunOwner? { OneKeeps(m, owner.id, e, now, id); }
    hide RunsAt, Kept;
  }

  lemma SignalKeeps(s: State, e: Event, now: nat, id: string)
    requires e.AgentSignaled?
    ensures RunCounts(ApplySignal(s, e, now).runs, id) == RunCounts(s.runs, id)
  {
    hide JobsAt, RunsAt, RunsOfAgent, JobsOfAgent, RunCounts;
    var runs := RunsOfAgent(s.runs, e.agent);
    if e.kind != Continue && runs != {} {
      OneKeeps(s.runs, FirstOf(runs), e, now, id);
      assert ApplySignal(s, e, now) == s.(runs := RunsAt(s.runs, FirstOf(runs), e, now));
    }
  }

  lemma SessionKeeps(s: State, e: Event, now: nat, id: string)
    requires AboutSession(e)
    ensures RunCounts(ApplySession(s, e, now).runs, id) == RunCounts(s.runs, id)
  {
    AllKeep(s.runs, e, now, id);
    if e.SessionCreated? { OwnedKeep(s.runs, e.owner, e, now, id); }
    hide RunCounts, OwnedJobs, AllJobs, OwnedRuns, AllRuns, AllAgents, Without;
  }

  lemma DecisionKeeps(s: State, e: Event, now: nat, id: string)
    requires AboutDecision(e)
    ensures RunCounts(ApplyDecision(s, e, now).runs, id) == RunCounts(s.runs, id)
  {
    if e.DecisionCreated? { OwnedKeep(s.runs, e.owner, e, now, id); }
    hide RunCounts, OwnedJobs, OwnedRuns, AllDecisions, DecisionsAt, NewDecision;
  }

  lemma RunKeeps(s: State, e: Event, now: nat, id: string)
    requires AboutRun(e)
    ensures RunCounts(ApplyRun(s, e, now).runs, id) == RunCountsAfter(s.runs, e, id)
  {
    if e.AgentRunCreated? {
      NewKeeps(e);
      hide NewRun, Kept;
    } else if e.AgentRunDeleted? {
      hide Kept, AgentsNotOf;
    } else {
      OneKeeps(s.runs, e.run, e, now, id);
      hide RunCounts, RunsAt, StartedRunAgents, DecisionsOnStatus;
    }
  }

  lemma NewKeeps(e: Event)
    requires e.AgentRunCreated?
    ensures Kept(NewRun(e)) == Counts(map[], 0)
  {
  }

  // On the whole state: the attempts of a run after an event are those.
  lemma RunCountsStep(s: State, e: Event, now: nat, id: string)
    ensures RunCounts(Apply(s, e, now).runs, id) == RunCountsAfter(s.runs, e, id)
  {
    hide ApplyJob, ApplyStep, ApplyAgent, ApplySignal, ApplySession, ApplyWorkspace, ApplyWorker, ApplyQueue, ApplyCron,
         ApplyDecision, ApplyRun, AboutJob, AboutStep, AboutAgent, AboutSession, AboutWorkspace, AboutWorker,
         AboutQueue, AboutCron, AboutDecision, AboutRun, RunCounts;
    if UsesRuns(e) {
      RunChanges(e);
      if e.AgentSignaled? { SignalKeeps(s, e, now, id); }
      else if AboutSession(e) { SessionKeeps(s, e, now, id); }
      else if e.DecisionCreated? { DecisionKeeps(s, e, now, id); }
      else { RunKeeps(s, e, now, id); }
    } else {
      Frame(s, e, now);
      NoRunEvent(e);
      hide Apply;
    }
  }

  lemma RunChanges(e: Event)
    requires UsesRuns(e)
    ensures !AboutJob(e) && !AboutStep(e) && !AboutAgent(e) && !AboutWorkspace(e) && !AboutWorker(e) && !AboutQueue(e)
    ensures !AboutCron(e) && (AboutSession(e) ==> !e.AgentSignaled?) && (AboutDecision(e) ==> !AboutSession(e))
    ensures e.DecisionCreated? ==> AboutDecision(e)
    ensures AboutRun(e) ==> !AboutSession(e) && !AboutDecision(e) && !e.AgentSignaled?
    ensures !AboutRun(e) ==> !e.AgentRunCreated? && !e.AgentRunDeleted?
  {
  }

  lemma NoRunEvent(e: Event)
    requires !UsesRuns(e)
    ensures !e.AgentRunCreated? && !e.AgentRunDeleted?
  {
  }

  // ------------------------------------------------------------- restarts

  predicate Creates(events: seq<Event>, id: string) {
    exists i :: 0 <= i < |events| && events[i].AgentRunCreated? && events[i].run == id
  }

  predicate Deletes(events: seq<Event>, id: string) {
    exists i :: 0 <= i < |events| && events[i].AgentRunDeleted? && events[i].run == id
  }

  lemma CreatesSnoc(events: seq<Event>, e: Event, id: string)
    ensures Creates(events + [e], id) <==> Creates(events, id) || (e.AgentRunCreated? && e.run == id)
    ensures Deletes(events + [e], id) <==> Deletes(events, id) || (e.AgentRunDeleted? && e.run == id)
  {
    var more := events + [e];
    assert more[|events|] == e && forall i :: 0 <= i < |events| ==> more[i] == events[i];
    if Creates(events, id) {
      var i :| 0 <= i < |events| && events[i].AgentRunCreated? && events[i].run == id;
      assert more[i].AgentRunCreated?;
    }
    if Deletes(events, id) {
      var i :| 0 <= i < |events| && events[i].AgentRunDeleted? && events[i].run == id;
      assert more[i].AgentRunDeleted?;
    }
  }

  // The attempts are carried on as they were, and made anew with the run.
  predicate Carried(before: Option<Counts>, made: bool, gone: bool, after: Option<Counts>) {
    RetryRuns.Carried(before, made, gone, made, after)
  }

  lemma OneMore(before: Option<Counts>, made: bool, gone: bool, m: map<string, AgentRun>, e: Event, id: string)
    requires Carried(before, made, gone, RunCounts(m, id))
    ensures Carried(before, made || (e.AgentRunCreated? && e.run == id), gone || (e.AgentRunDeleted? && e.run == id),
                    RunCountsAfter(m, e, id))
  {
    hide Kept;
  }

  lemma {:induction false} ReplayRuns(s: State, entries: seq<Line<Event>>, clock: nat -> nat, id: string)
    requires forall i :: 0 <= i < |entries| ==> entries[i].Entry?
    ensures Carried(RunCounts(s.runs, id), Creates(Events(entries), id), Deletes(Events(entries), id),
                    RunCounts(Replay(Daemon(), s, entries, clock).runs, id))
  {
    if entries == [] {
      RetryRuns.NoReplay(s, entries, clock);
      hide RunCounts;
    } else {
      var init, last := entries[..|entries| - 1], entries[|entries| - 1];
      assert Events(entries) == Events(init) + [last.event];
      hide *;
      ReplayRuns(s, init, clock, id);
      CreatesSnoc(Events(init), last.event, id);
      RetryRuns.ReplayUnfolds(s, entries, clock);
      var t := Replay(Daemon(), s, init, clock);
      RunCountsStep(t, last.event, clock(last.num), id);
      OneMore(RunCounts(s.runs, id), Creates(Events(init), id), Deletes(Events(init), id), t.runs, last.event, id);
    }
  }

  // An agent run that a crash leaves has the attempts it had when the snapshot was captured, or none if
  // an event above the snapshot's number made it; the live state has no say.
  lemma RestartRuns(run: seq<Action<Event>>, w: RetryRuns.Daemons, a: Action<Event>, id: string)
    requires Reached(Daemon(), run, w) && a.Crash? && Enabled(w, a)
    ensures var n, snap := Next(Daemon(), w, a), w.snaps[a.pick];
            && SnapNum(snap) <= |n.history|
            && Carried(RunCounts(RetryRuns.SnapState(snap).runs, id), Creates(n.history[SnapNum(snap)..], id),
                       Deletes(n.history[SnapNum(snap)..], id), RunCounts(n.state.runs, id))
  {
    ReachedInv(Daemon(), run, w);
    RetryRuns.ReplayedState(w, a);
    ReplayRuns(RetryRuns.SnapState(w.snaps[a.pick]), Replayed(w, a), a.clock, id);
    hide *;
  }
}
