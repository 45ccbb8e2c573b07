/** What the clock readings taken while applying events can influence: only the clock fields, which
    `Erase` zeroes (it keeps whether an optional one is set). And what the attempts and retries that
    the runtime counts without events can influence: only those counts, which it forgets on request. */
module Clocks {
  import opened Wrappers
  import opened Actions
  import opened Jobs
  import opened State

  function Zeroed(t: Option<nat>): Option<nat> {
    if t.Some? then Some(0) else None
  }

  function EraseRecord(r: StepRecord): StepRecord {
    r.(startedAt := 0, finishedAt := Zeroed(r.finishedAt))
  }

  function EraseHistory(h: seq<StepRecord>): (r: seq<StepRecord>)
    ensures |r| == |h| && forall i :: 0 <= i < |h| ==> r[i] == EraseRecord(h[i])
  {
    seq(|h|, i requires 0 <= i < |h| => EraseRecord(h[i]))
  }

  function EraseTracker(t: Tracker, retries: bool): Tracker {
    if retries then t.(attempts := map[]) else t
  }

  function EraseJob(j: Job, retries: bool): Job {
    j.(history := EraseHistory(j.history), tracker := EraseTracker(j.tracker, retries),
       totalRetries := if retries then 0 else j.totalRetries)
  }

  function EraseAgent(a: Agent): Agent { a.(createdAt := 0, updatedAt := 0) }

  function EraseRun(r: AgentRun, retries: bool): AgentRun {
    r.(updatedAt := 0, tracker := EraseTracker(r.tracker, retries))
  }

  function EraseWorkspace(w: Workspace): Workspace { w.(createdAt := 0) }

  function EraseCron(c: Cron): Cron { c.(startedAt := 0, lastFiredAt := Zeroed(c.lastFiredAt)) }

  function EraseJobs(m: map<string, Job>, retries: bool): map<string, Job> {
    map k | k in m :: EraseJob(m[k], retries)
  }

  function EraseAgents(m: map<string, Agent>): map<string, Agent> { map k | k in m :: EraseAgent(m[k]) }

  function EraseRuns(m: map<string, AgentRun>, retries: bool): map<string, AgentRun> {
    map k | k in m :: EraseRun(m[k], retries)
  }

  function EraseWorkspaces(m: map<string, Workspace>): map<string, Workspace> {
    map k | k in m :: EraseWorkspace(m[k])
  }

  function EraseCrons(m: map<string, Cron>): map<string, Cron> { map k | k in m :: EraseCron(m[k]) }

  function Erase(s: State, retries: bool): State {
    s.(jobs := EraseJobs(s.jobs, retries), agents := EraseAgents(s.agents), runs := EraseRuns(s.runs, retries),
       workspaces := EraseWorkspaces(s.workspaces), crons := EraseCrons(s.crons))
  }

  // ------------------------------------------------------------- one record

  lemma EraseHistoryTwice(h: seq<StepRecord>)
    ensures EraseHistory(EraseHistory(h)) == EraseHistory(h)
  {
  }

  lemma EraseJobTwice(j: Job, retries: bool)
    ensures EraseJob(EraseJob(j, retries), retries) == EraseJob(j, retries)
  {
    EraseHistoryTwice(j.history);
  }

  lemma FinalizeClock(h: seq<StepRecord>, outcome: StepOutcome, now: nat)
    ensures EraseHistory(Finalize(h, outcome, now)) == EraseHistory(Finalize(EraseHistory(h), outcome, 0))
  {
  }

  lemma ClosingOutcomeClock(j: Job, step: string, retries: bool)
    ensures ClosingOutcome(EraseJob(j, retries), step) == ClosingOutcome(j, step)
  {
  }

  lemma HistoryOnEntryClock(h: seq<StepRecord>, outcome: StepOutcome, step: string, now: nat)
    ensures EraseHistory(HistoryOnEntry(h, outcome, step, now))
         == EraseHistory(HistoryOnEntry(EraseHistory(h), outcome, step, 0))
  {
    hide Finalize, TerminalStep;
    FinalizeClock(h, outcome, now);
    var a, b := Finalize(h, outcome, now), Finalize(EraseHistory(h), outcome, 0);
    assert |a| == |EraseHistory(a)| && |b| == |EraseHistory(b)|;
    forall i | 0 <= i < |a| ensures EraseRecord(a[i]) == EraseRecord(b[i]) {
      assert EraseHistory(a)[i] == EraseHistory(b)[i];
    }
  }

  lemma OutcomeClock(h: seq<StepRecord>, outcome: StepOutcome)
    ensures EraseHistory(SetOutcome(h, outcome)) == SetOutcome(EraseHistory(h), outcome)
  {
  }

  lemma AgentIdClock(h: seq<StepRecord>, agent: string)
    ensures EraseHistory(SetAgentId(h, agent)) == SetAgentId(EraseHistory(h), agent)
    ensures EraseHistory(SetAgentName(h, agent)) == SetAgentName(EraseHistory(h), agent)
  {
  }

  lemma AdvanceClock(j: Job, step: string, now: nat, retries: bool)
    ensures EraseJob(Advance(j, step, now), retries) == EraseJob(Advance(EraseJob(j, retries), step, 0), retries)
  {
    hide TerminalStep, EraseHistory, HistoryOnEntry, ClosingOutcome, Visit, StatusOnEntry;
    EraseHistoryTwice(j.history);
    HistoryOnEntryClock(j.history, ClosingOutcome(j, step), step, now);
    assert ClosingOutcome(EraseJob(j, retries), step) == ClosingOutcome(j, step) by {
      ClosingOutcomeClock(j, step, retries);
    }
  }

  lemma StepEndedClock(j: Job, failure: Option<string>, now: nat, retries: bool)
    ensures EraseJob(StepEnded(j, failure, now), retries)
         == EraseJob(StepEnded(EraseJob(j, retries), failure, 0), retries)
  {
    hide EraseHistory, Finalize;
    FinalizeClock(j.history, if failure.None? then Succeeded else FailedWith(failure.value), now);
  }

  lemma StartStepClock(j: Job, agentId: Option<string>, agentName: Option<string>, retries: bool)
    ensures EraseJob(StartStep(j, agentId, agentName), retries)
         == EraseJob(StartStep(EraseJob(j, retries), agentId, agentName), retries)
  {
    hide EraseHistory, SetAgentId, SetAgentName, SetOutcome;
    var h1 := if agentId.Some? then SetAgentId(j.history, agentId.value) else j.history;
    var h2 := if agentName.Some? then SetAgentName(h1, agentName.value) else h1;
    if agentId.Some? { AgentIdClock(j.history, agentId.value); }
    if agentName.Some? { AgentIdClock(h1, agentName.value); }
    OutcomeClock(h2, StillRunning);
    EraseHistoryTwice(SetOutcome(h2, StillRunning));
  }

  lemma WaitStepClock(j: Job, reason: Option<string>, decision: Option<string>, retries: bool)
    ensures EraseJob(WaitStep(j, reason, decision), retries)
         == EraseJob(WaitStep(EraseJob(j, retries), reason, decision), retries)
  {
    hide EraseHistory, SetOutcome;
    var outcome := WaitingFor(if reason.Some? then reason.value else "");
    OutcomeClock(j.history, outcome);
    EraseHistoryTwice(SetOutcome(j.history, outcome));
  }

  lemma StepEventClock(j: Job, e: Event, now: nat, retries: bool)
    requires AboutStep(e)
    ensures EraseJob(JobAfterStep(j, e, now), retries) == EraseJob(JobAfterStep(EraseJob(j, retries), e, 0), retries)
  {
    hide StepEnded, StartStep, WaitStep, EraseJob, ShellFailure;
    match e
    case ShellExited(_, code) => StepEndedClock(j, ShellFailure(code), now, retries);
    case StepStarted(_, agentId, agentName) => StartStepClock(j, agentId, agentName, retries);
    case StepWaiting(_, reason, decision) => WaitStepClock(j, reason, decision, retries);
    case StepCompleted(_) => StepEndedClock(j, None, now, retries);
    case StepFailed(_, error) => StepEndedClock(j, Some(error), now, retries);
  }

  lemma AgentEventClock(j: Job, e: Event, retries: bool)
    requires AboutAgent(e)
    ensures EraseJob(JobAfterAgent(j, e), retries) == EraseJob(JobAfterAgent(EraseJob(j, retries), e), retries)
  {
    hide AgentStopped, EraseJob, AgentFailure;
    match e
    case AgentWorking(_, _) => RunningClock(j, retries);
    case AgentWaiting(_) => EraseJobTwice(j, retries);
    case AgentExited(_, code, _) => StoppedClock(j, AgentFailure(code), retries);
    case AgentFailed(_, reason, _) => StoppedClock(j, Some(reason), retries);
    case AgentGone(_, _) => StoppedClock(j, Some(GONE), retries);
  }

  lemma RunningClock(j: Job, retries: bool)
    ensures EraseJob(j.(status := Running), retries) == EraseJob(EraseJob(j, retries).(status := Running), retries)
  {
    hide EraseHistory;
    EraseHistoryTwice(j.history);
  }

  lemma StoppedClock(j: Job, failure: Option<string>, retries: bool)
    ensures EraseJob(AgentStopped(j, failure), retries)
         == EraseJob(AgentStopped(EraseJob(j, retries), failure), retries)
  {
    hide TerminalStep, EraseHistory;
    EraseHistoryTwice(j.history);
  }

  lemma JobAfterClock(j: Job, e: Event, now: nat, retries: bool)
    ensures EraseJob(JobAfter(j, e, now), retries) == EraseJob(JobAfter(EraseJob(j, retries), e, 0), retries)
  {
    JobAfterIs(j, e, now);
    JobAfterIs(EraseJob(j, retries), e, 0);
    hide *;
    if AboutStep(e) { StepEventClock(j, e, now, retries); }
    else if AboutAgent(e) { AgentEventClock(j, e, retries); }
    else if e.JobAdvanced? { AdvanceClock(j, e.step, now, retries); }
    else { OtherEventClock(j, e, now, retries); }
  }

  lemma JobAfterIs(j: Job, e: Event, now: nat)
    ensures AboutStep(e) ==> JobAfter(j, e, now) == JobAfterStep(j, e, now)
    ensures !AboutStep(e) && AboutAgent(e) ==> JobAfter(j, e, now) == JobAfterAgent(j, e)
    ensures e.JobAdvanced? ==> JobAfter(j, e, now) == Advance(j, e.step, now)
  {
    hide Advance, JobAfterStep, JobAfterAgent;
  }

  lemma OtherEventClock(j: Job, e: Event, now: nat, retries: bool)
    requires !AboutStep(e) && !AboutAgent(e) && !e.JobAdvanced?
    ensures EraseJob(JobAfter(j, e, now), retries) == EraseJob(JobAfter(EraseJob(j, retries), e, 0), retries)
  {
    OtherEventIs(j, e, now);
    OtherEventIs(EraseJob(j, retries), e, 0);
    hide JobAfter, AboutStep, AboutAgent, EraseHistory;
    EraseHistoryTwice(j.history);
  }

  // Which fields of the job such an event leaves alone, and that it reads none of them.
  lemma OtherEventIs(j: Job, e: Event, now: nat)
    requires !AboutStep(e) && !AboutAgent(e) && !e.JobAdvanced?
    ensures var signal := if e.AgentSignaled? then Some(Actions.Signal(e.kind, e.message)) else j.tracker.signal;
            && JobAfter(j, e, now)
               == (if e.SessionDeleted? && j.sessionId == Some(e.session) then j.(sessionId := None)
                   else if e.AgentSignaled? then j.(tracker := j.tracker.(signal := signal))
                   else if e.JobUpdated? then j.(vars := j.vars + e.vars)
                   else if e.JobCancelling? then j.(cancelling := true)
                   else if e.SessionCreated? then j.(sessionId := Some(e.session))
                   else if e.WorkspaceCreated? then j.(workspacePath := Some(e.path), workspaceId := Some(e.workspace))
                   else if e.DecisionCreated? then j.(status := Waiting(Some(e.decision)))
                   else j)
  {
  }

  // -------------------------------------------------------------- one table

  lemma EraseJobsTwice(m: map<string, Job>, retries: bool)
    ensures EraseJobs(EraseJobs(m, retries), retries) == EraseJobs(m, retries)
  {
    hide EraseJob;
    forall k | k in m ensures EraseJob(EraseJob(m[k], retries), retries) == EraseJob(m[k], retries) {
      EraseJobTwice(m[k], retries);
    }
  }

  lemma JobsAtClock(m: map<string, Job>, id: string, e: Event, now: nat, retries: bool)
    ensures EraseJobs(JobsAt(m, id, e, now), retries) == EraseJobs(JobsAt(EraseJobs(m, retries), id, e, 0), retries)
  {
    hide JobAfter, EraseJob;
    if id in m { JobAfterClock(m[id], e, now, retries); }
    forall k | k in m ensures EraseJob(EraseJob(m[k], retries), retries) == EraseJob(m[k], retries) {
      EraseJobTwice(m[k], retries);
    }
  }

  lemma AllJobsClock(m: map<string, Job>, e: Event, now: nat, retries: bool)
    ensures EraseJobs(AllJobs(m, e, now), retries) == EraseJobs(AllJobs(EraseJobs(m, retries), e, 0), retries)
  {
    hide JobAfter, EraseJob;
    forall k | k in m
      ensures EraseJob(JobAfter(m[k], e, now), retries) == EraseJob(JobAfter(EraseJob(m[k], retries), e, 0), retries)
    {
      JobAfterClock(m[k], e, now, retries);
    }
  }

  lemma PutJobClock(m: map<string, Job>, k: string, j: Job, retries: bool)
    ensures EraseJobs(m[k := j], retries) == EraseJobs(EraseJobs(m, retries)[k := j], retries)
  {
    hide EraseJob;
    forall k | k in m ensures EraseJob(EraseJob(m[k], retries), retries) == EraseJob(m[k], retries) {
      EraseJobTwice(m[k], retries);
    }
  }

  lemma DropJobClock(m: map<string, Job>, k: string, retries: bool)
    ensures EraseJobs(Without(m, k), retries) == EraseJobs(Without(EraseJobs(m, retries), k), retries)
  {
    hide EraseJob;
    forall k | k in m ensures EraseJob(EraseJob(m[k], retries), retries) == EraseJob(m[k], retries) {
      EraseJobTwice(m[k], retries);
    }
  }

  lemma AgentAfterClock(a: Agent, e: Event, now: nat)
    ensures EraseAgent(AgentAfter(a, e, now)) == EraseAgent(AgentAfter(EraseAgent(a), e, 0))
  {
  }

  lemma AgentsAtClock(m: map<string, Agent>, id: string, e: Event, now: nat)
    ensures EraseAgents(AgentsAt(m, id, e, now)) == EraseAgents(AgentsAt(EraseAgents(m), id, e, 0))
  {
    hide AgentAfter;
    if id in m { AgentAfterClock(m[id], e, now); }
  }

  lemma AllAgentsClock(m: map<string, Agent>, e: Event, now: nat)
    ensures EraseAgents(AllAgents(m, e, now)) == EraseAgents(AllAgents(EraseAgents(m), e, 0))
  {
    hide AgentAfter, EraseAgent;
    forall k | k in m
      ensures EraseAgent(AgentAfter(m[k], e, now)) == EraseAgent(AgentAfter(EraseAgent(m[k]), e, 0))
    {
      AgentAfterClock(m[k], e, now);
    }
  }

  lemma EraseAgentsTwice(m: map<string, Agent>)
    ensures EraseAgents(EraseAgents(m)) == EraseAgents(m)
  {
  }

  lemma PutAgentClock(m: map<string, Agent>, k: string, a: Agent, b: Agent)
    requires EraseAgent(a) == EraseAgent(b)
    ensures EraseAgents(m[k := a]) == EraseAgents(EraseAgents(m)[k := b])
  {
  }

  lemma AgentsNotOfClock(m: map<string, Agent>, owner: Owner)
    ensures EraseAgents(AgentsNotOf(m, owner)) == EraseAgents(AgentsNotOf(EraseAgents(m), owner))
  {
  }

  lemma RunAfterClock(r: AgentRun, e: Event, now: nat, retries: bool)
    ensures EraseRun(RunAfter(r, e, now), retries) == EraseRun(RunAfter(EraseRun(r, retries), e, 0), retries)
  {
  }

  lemma EraseRunsTwice(m: map<string, AgentRun>, retries: bool)
    ensures EraseRuns(EraseRuns(m, retries), retries) == EraseRuns(m, retries)
  {
  }

  lemma RunsAtClock(m: map<string, AgentRun>, id: string, e: Event, now: nat, retries: bool)
    ensures EraseRuns(RunsAt(m, id, e, now), retries) == EraseRuns(RunsAt(EraseRuns(m, retries), id, e, 0), retries)
  {
    hide RunAfter;
    if id in m { RunAfterClock(m[id], e, now, retries); }
  }

  lemma AllRunsClock(m: map<string, AgentRun>, e: Event, now: nat, retries: bool)
    ensures EraseRuns(AllRuns(m, e, now), retries) == EraseRuns(AllRuns(EraseRuns(m, retries), e, 0), retries)
  {
    hide RunAfter, EraseRun;
    forall k | k in m
      ensures EraseRun(RunAfter(m[k], e, now), retries) == EraseRun(RunAfter(EraseRun(m[k], retries), e, 0), retries)
    {
      RunAfterClock(m[k], e, now, retries);
    }
  }

  lemma PutRunClock(m: map<string, AgentRun>, k: string, r: AgentRun, retries: bool)
    ensures EraseRuns(m[k := r], retries) == EraseRuns(EraseRuns(m, retries)[k := r], retries)
  {
  }

  lemma DropRunClock(m: map<string, AgentRun>, k: string, retries: bool)
    ensures EraseRuns(Without(m, k), retries) == EraseRuns(Without(EraseRuns(m, retries), k), retries)
  {
  }

  lemma OwnedClock(jobs: map<string, Job>, runs: map<string, AgentRun>, owner: Owner, e: Event, now: nat, retries: bool)
    ensures EraseJobs(OwnedJobs(jobs, owner, e, now), retries)
         == EraseJobs(OwnedJobs(EraseJobs(jobs, retries), owner, e, 0), retries)
    ensures EraseRuns(OwnedRuns(runs, owner, e, now), retries)
         == EraseRuns(OwnedRuns(EraseRuns(runs, retries), owner, e, 0), retries)
  {
    hide EraseJobs, EraseRuns, JobsAt, RunsAt;
    EraseJobsTwice(jobs, retries);
    EraseRunsTwice(runs, retries);
    RunsAtClock(runs, owner.id, e, now, retries);
    JobsAtClock(jobs, owner.id, e, now, retries);
  }

  lemma EraseWorkspacesTwice(m: map<string, Workspace>)
    ensures EraseWorkspaces(EraseWorkspaces(m)) == EraseWorkspaces(m)
  {
  }

  lemma WorkspacesAtClock(m: map<string, Workspace>, id: string, e: Event)
    ensures EraseWorkspaces(WorkspacesAt(m, id, e)) == EraseWorkspaces(WorkspacesAt(EraseWorkspaces(m), id, e))
  {
  }

  lemma PutWorkspaceClock(m: map<string, Workspace>, k: string, a: Workspace, b: Workspace)
    requires EraseWorkspace(a) == EraseWorkspace(b)
    ensures EraseWorkspaces(m[k := a]) == EraseWorkspaces(EraseWorkspaces(m)[k := b])
  {
  }

  lemma DropWorkspaceClock(m: map<string, Workspace>, k: string)
    ensures EraseWorkspaces(Without(m, k)) == EraseWorkspaces(Without(EraseWorkspaces(m), k))
  {
  }

  lemma EraseCronsTwice(m: map<string, Cron>)
    ensures EraseCrons(EraseCrons(m)) == EraseCrons(m)
  {
  }

  lemma CronsAtClock(m: map<string, Cron>, key: string, e: Event, now: nat)
    ensures EraseCrons(CronsAt(m, key, e, now)) == EraseCrons(CronsAt(EraseCrons(m), key, e, 0))
  {
  }

  lemma PutCronClock(m: map<string, Cron>, k: string, a: Cron, b: Cron)
    requires EraseCron(a) == EraseCron(b)
    ensures EraseCrons(m[k := a]) == EraseCrons(EraseCrons(m)[k := b])
  {
  }

  lemma DropCronClock(m: map<string, Cron>, k: string)
    ensures EraseCrons(Without(m, k)) == EraseCrons(Without(EraseCrons(m), k))
  {
  }

  // -------------------------------------------------------------- the state

  lemma EraseTwice(s: State, retries: bool)
    ensures Erase(Erase(s, retries), retries) == Erase(s, retries)
  {
    hide EraseJobs, EraseAgents, EraseRuns, EraseWorkspaces, EraseCrons;
    EraseJobsTwice(s.jobs, retries);
    EraseAgentsTwice(s.agents);
    EraseRunsTwice(s.runs, retries);
    EraseWorkspacesTwice(s.workspaces);
    EraseCronsTwice(s.crons);
  }

  lemma JobAdvancedClock(s: State, e: Event, now: nat, retries: bool)
    requires e.JobAdvanced?
    ensures Erase(ApplyJob(s, e, now), retries) == Erase(ApplyJob(Erase(s, retries), e, 0), retries)
  {
    hide EraseJobs, EraseAgents, EraseRuns, EraseWorkspaces, EraseCrons, JobsAt, WorkersOnEntry,
         DecisionsOnEntry, Stays;
    EraseTwice(s, retries);
    StaysClock(s.jobs, e, retries);
    JobsAtClock(s.jobs, e.job, e, now, retries);
    assert Erase(ApplyJob(s, e, now), retries) == Erase(ApplyJob(Erase(s, retries), e, 0), retries);
  }

  lemma JobDeletedClock(s: State, e: Event, now: nat, retries: bool)
    requires e.JobDeleted?
    ensures Erase(ApplyJob(s, e, now), retries) == Erase(ApplyJob(Erase(s, retries), e, 0), retries)
  {
    hide EraseJobs, EraseAgents, EraseRuns, EraseWorkspaces, EraseCrons, Without, AgentsNotOf, DecisionsNotOf;
    EraseTwice(s, retries);
    DropJobClock(s.jobs, e.job, retries);
    AgentsNotOfClock(s.agents, JobOwner(e.job));
  }

  lemma JobChangedClock(s: State, e: Event, now: nat, retries: bool)
    requires e.JobCreated? || e.JobUpdated? || e.JobCancelling?
    ensures Erase(ApplyJob(s, e, now), retries) == Erase(ApplyJob(Erase(s, retries), e, 0), retries)
  {
    hide EraseJobs, EraseAgents, EraseRuns, EraseWorkspaces, EraseCrons, JobsAt, NewJob;
    EraseTwice(s, retries);
    if e.JobCreated? {
      PutJobClock(s.jobs, e.job, NewJob(e), retries);
    } else {
      JobsAtClock(s.jobs, e.job, e, now, retries);
    }
  }

  lemma JobClock(s: State, e: Event, now: nat, retries: bool)
    requires AboutJob(e)
    ensures Erase(ApplyJob(s, e, now), retries) == Erase(ApplyJob(Erase(s, retries), e, 0), retries)
  {
    hide ApplyJob, Erase;
    if e.JobAdvanced? { JobAdvancedClock(s, e, now, retries); }
    else if e.JobDeleted? { JobDeletedClock(s, e, now, retries); }
    else { JobChangedClock(s, e, now, retries); }
  }

  lemma EraseJobsKeys(m: map<string, Job>, retries: bool)
    ensures EraseJobs(m, retries).Keys == m.Keys
  {
  }

  lemma StaysClock(m: map<string, Job>, e: Event, retries: bool)
    requires e.JobAdvanced?
    ensures Stays(EraseJobs(m, retries), e) == Stays(m, e)
  {
  }

  lemma NewJobAgentClock(m: map<string, Job>, e: Event, now: nat, retries: bool)
    requires e.StepStarted? && e.agentId.Some? && e.job in m
    ensures e.job in EraseJobs(m, retries)
    ensures EraseAgent(NewJobAgent(m[e.job], e.job, e.agentId.value, e.agentName, now))
         == EraseAgent(NewJobAgent(EraseJobs(m, retries)[e.job], e.job, e.agentId.value, e.agentName, 0))
  {
  }

  lemma EraseAgentsKeys(m: map<string, Agent>)
    ensures EraseAgents(m).Keys == m.Keys
  {
  }

  lemma StartedAgentsClock(agents: map<string, Agent>, jobs: map<string, Job>, e: Event, now: nat, retries: bool)
    requires e.StepStarted?
    ensures EraseAgents(StartedAgents(agents, jobs, e, now))
         == EraseAgents(StartedAgents(EraseAgents(agents), EraseJobs(jobs, retries), e, 0))
  {
    hide EraseAgents, EraseJobs, NewJobAgent, EraseAgent;
    EraseAgentsTwice(agents);
    EraseAgentsKeys(agents);
    EraseJobsKeys(jobs, retries);
    if e.job in jobs && e.agentId.Some? && e.agentId.value !in agents {
      NewJobAgentClock(jobs, e, now, retries);
      PutAgentClock(agents, e.agentId.value,
                    NewJobAgent(jobs[e.job], e.job, e.agentId.value, e.agentName, now),
                    NewJobAgent(EraseJobs(jobs, retries)[e.job], e.job, e.agentId.value, e.agentName, 0));
    }
  }

  lemma StepClock(s: State, e: Event, now: nat, retries: bool)
    requires AboutStep(e)
    ensures Erase(ApplyStep(s, e, now), retries) == Erase(ApplyStep(Erase(s, retries), e, 0), retries)
  {
    hide EraseJobs, EraseAgents, EraseRuns, EraseWorkspaces, EraseCrons, JobsAt, StartedAgents;
    EraseTwice(s, retries);
    JobsAtClock(s.jobs, e.job, e, now, retries);
    if e.StepStarted? { StartedAgentsClock(s.agents, s.jobs, e, now, retries); }
  }

  lemma AgentClock(s: State, e: Event, now: nat, retries: bool)
    requires AboutAgent(e)
    ensures Erase(ApplyAgent(s, e, now), retries) == Erase(ApplyAgent(Erase(s, retries), e, 0), retries)
  {
    hide EraseJobs, EraseAgents, EraseRuns, EraseWorkspaces, EraseCrons, AgentsAt, OwnedJobs;
    EraseTwice(s, retries);
    AgentsAtClock(s.agents, e.agent, e, now);
    if !e.AgentWaiting? { OwnedClock(s.jobs, s.runs, e.owner, e, now, retries); }
  }

  lemma AgentsInErased(jobs: map<string, Job>, runs: map<string, AgentRun>, agent: string, retries: bool)
    ensures JobsOfAgent(EraseJobs(jobs, retries), agent) == JobsOfAgent(jobs, agent)
    ensures RunsOfAgent(EraseRuns(runs, retries), agent) == RunsOfAgent(runs, agent)
  {
  }

  lemma SignalToRunClock(s: State, e: Event, now: nat, retries: bool)
    requires e.AgentSignaled? && RunsOfAgent(s.runs, e.agent) != {}
    ensures Erase(ApplySignal(s, e, now), retries) == Erase(ApplySignal(Erase(s, retries), e, 0), retries)
  {
    hide EraseJobs, EraseAgents, EraseRuns, EraseWorkspaces, EraseCrons, RunsAt, JobsOfAgent, RunsOfAgent;
    EraseTwice(s, retries);
    AgentsInErased(s.jobs, s.runs, e.agent, retries);
    RunsAtClock(s.runs, FirstOf(RunsOfAgent(s.runs, e.agent)), e, now, retries);
    assert RunsOfAgent(Erase(s, retries).runs, e.agent) == RunsOfAgent(s.runs, e.agent);
  }

  lemma SignalToJobClock(s: State, e: Event, now: nat, retries: bool)
    requires e.AgentSignaled? && RunsOfAgent(s.runs, e.agent) == {}
    ensures Erase(ApplySignal(s, e, now), retries) == Erase(ApplySignal(Erase(s, retries), e, 0), retries)
  {
    hide EraseJobs, EraseAgents, EraseRuns, EraseWorkspaces, EraseCrons, JobsAt, JobsOfAgent, RunsOfAgent;
    EraseTwice(s, retries);
    AgentsInErased(s.jobs, s.runs, e.agent, retries);
    var jobs := JobsOfAgent(s.jobs, e.agent);
    if jobs != {} { JobsAtClock(s.jobs, FirstOf(jobs), e, now, retries); }
    assert JobsOfAgent(Erase(s, retries).jobs, e.agent) == jobs;
    assert RunsOfAgent(Erase(s, retries).runs, e.agent) == {};
  }

  lemma SignalClock(s: State, e: Event, now: nat, retries: bool)
    requires e.AgentSignaled?
    ensures Erase(ApplySignal(s, e, now), retries) == Erase(ApplySignal(Erase(s, retries), e, 0), retries)
  {
    hide ApplySignal, Erase;
    if RunsOfAgent(s.runs, e.agent) != {} {
      SignalToRunClock(s, e, now, retries);
    } else {
      SignalToJobClock(s, e, now, retries);
    }
  }

  lemma SessionClock(s: State, e: Event, now: nat, retries: bool)
    requires AboutSession(e)
    ensures Erase(ApplySession(s, e, now), retries) == Erase(ApplySession(Erase(s, retries), e, 0), retries)
  {
    hide EraseJobs, EraseAgents, EraseRuns, EraseWorkspaces, EraseCrons, OwnedJobs, OwnedRuns, AllAgents,
         AllJobs, AllRuns, Without;
    EraseTwice(s, retries);
    AllAgentsClock(s.agents, e, now);
    if e.SessionCreated? { OwnedClock(s.jobs, s.runs, e.owner, e, now, retries); }
    else {
      AllJobsClock(s.jobs, e, now, retries);
      AllRunsClock(s.runs, e, now, retries);
    }
  }

  lemma WorkspaceOwnerClock(s: State, e: Event, now: nat, retries: bool)
    requires e.WorkspaceCreated?
    ensures EraseJobs(ApplyWorkspace(s, e, now).jobs, retries)
         == EraseJobs(ApplyWorkspace(Erase(s, retries), e, 0).jobs, retries)
  {
    WorkspaceOwnerJobs(s, e, now);
    WorkspaceOwnerJobs(Erase(s, retries), e, 0);
    assert Erase(s, retries).jobs == EraseJobs(s.jobs, retries);
    hide *;
    EraseJobsTwice(s.jobs, retries);
    if e.wsOwner.Some? { OwnedClock(s.jobs, s.runs, e.wsOwner.value, e, now, retries); }
  }

  lemma WorkspaceOwnerJobs(s: State, e: Event, now: nat)
    requires e.WorkspaceCreated?
    ensures ApplyWorkspace(s, e, now).jobs
         == if e.wsOwner.Some? then OwnedJobs(s.jobs, e.wsOwner.value, e, now) else s.jobs
  {
    hide OwnedJobs, NewWorkspace;
  }

  lemma WorkspaceCreatedClock(s: State, e: Event, now: nat, retries: bool)
    requires e.WorkspaceCreated?
    ensures Erase(ApplyWorkspace(s, e, now), retries) == Erase(ApplyWorkspace(Erase(s, retries), e, 0), retries)
  {
    PutWorkspaceClock(s.workspaces, e.workspace, NewWorkspace(e, now), NewWorkspace(e, 0));
    WorkspaceOwnerClock(s, e, now, retries);
    hide EraseJobs, EraseAgents, EraseRuns, EraseWorkspaces, EraseCrons, OwnedJobs, NewWorkspace;
    EraseTwice(s, retries);
  }

  lemma WorkspaceClock(s: State, e: Event, now: nat, retries: bool)
    requires AboutWorkspace(e)
    ensures Erase(ApplyWorkspace(s, e, now), retries) == Erase(ApplyWorkspace(Erase(s, retries), e, 0), retries)
  {
    if e.WorkspaceCreated? {
      hide ApplyWorkspace, Erase;
      WorkspaceCreatedClock(s, e, now, retries);
    } else {
      hide EraseJobs, EraseAgents, EraseRuns, EraseWorkspaces, EraseCrons, OwnedJobs, WorkspacesAt, Without;
      EraseTwice(s, retries);
      DropWorkspaceClock(s.workspaces, e.workspace);
      WorkspacesAtClock(s.workspaces, e.workspace, e);
    }
  }

  lemma WorkerClock(s: State, e: Event, retries: bool)
    requires AboutWorker(e)
    ensures Erase(ApplyWorker(s, e), retries) == Erase(ApplyWorker(Erase(s, retries), e), retries)
  {
    hide EraseJobs, EraseAgents, EraseRuns, EraseWorkspaces, EraseCrons, WorkersAt, Without, Names.Scoped, Root;
    EraseTwice(s, retries);
    if e.CommandRun? { assert Erase(ApplyWorker(s, e), retries) == Erase(ApplyWorker(Erase(s, retries), e), retries); }
    else if e.WorkerStarted? {
      assert Erase(ApplyWorker(s, e), retries) == Erase(ApplyWorker(Erase(s, retries), e), retries);
    }
  }

  lemma QueuePushedClock(s: State, e: Event, retries: bool)
    requires e.QueuePushed?
    ensures Erase(ApplyQueue(s, e), retries) == Erase(ApplyQueue(Erase(s, retries), e), retries)
  {
    hide EraseJobs, EraseAgents, EraseRuns, EraseWorkspaces, EraseCrons, HasItem, Names.Scoped;
    EraseTwice(s, retries);
  }

  lemma QueueClock(s: State, e: Event, retries: bool)
    requires AboutQueue(e)
    ensures Erase(ApplyQueue(s, e), retries) == Erase(ApplyQueue(Erase(s, retries), e), retries)
  {
    hide EraseJobs, EraseAgents, EraseRuns, EraseWorkspaces, EraseCrons, ItemsAfter, ItemsWithout, HasItem,
         Names.Scoped;
    if e.QueuePushed? { QueuePushedClock(s, e, retries); } else { EraseTwice(s, retries); }
  }

  lemma CronClock(s: State, e: Event, now: nat, retries: bool)
    requires AboutCron(e)
    ensures Erase(ApplyCron(s, e, now), retries) == Erase(ApplyCron(Erase(s, retries), e, 0), retries)
  {
    hide EraseJobs, EraseAgents, EraseRuns, EraseWorkspaces, EraseCrons, CronsAt, Without, Names.Scoped, Root;
    EraseTwice(s, retries);
    if !e.RunbookLoaded? {
      var key := Names.Scoped(e.namespace, e.cron);
      CronsAtClock(s.crons, key, e, now);
      DropCronClock(s.crons, key);
      if e.CronStarted? { CronStartedClock(s, e, now, retries); }
    }
  }

  lemma CronStartedClock(s: State, e: Event, now: nat, retries: bool)
    requires e.CronStarted?
    ensures EraseCrons(ApplyCron(s, e, now).crons) == EraseCrons(ApplyCron(Erase(s, retries), e, 0).crons)
  {
    hide Names.Scoped;
    var key := Names.Scoped(e.namespace, e.cron);
    PutCronClock(s.crons, key, ApplyCron(s, e, now).crons[key], ApplyCron(Erase(s, retries), e, 0).crons[key]);
  }

  lemma DecisionClock(s: State, e: Event, now: nat, retries: bool)
    requires AboutDecision(e)
    ensures Erase(ApplyDecision(s, e, now), retries) == Erase(ApplyDecision(Erase(s, retries), e, 0), retries)
  {
    hide EraseJobs, EraseAgents, EraseRuns, EraseWorkspaces, EraseCrons, OwnedJobs, OwnedRuns, AllDecisions,
         DecisionsAt, NewDecision;
    EraseTwice(s, retries);
    if e.DecisionCreated? { OwnedClock(s.jobs, s.runs, e.owner, e, now, retries); }
  }

  lemma StartedRunAgentsClock(agents: map<string, Agent>, runs: map<string, AgentRun>, e: Event, now: nat,
                              retries: bool)
    requires e.AgentRunStarted?
    ensures EraseAgents(StartedRunAgents(agents, runs, e, now))
         == EraseAgents(StartedRunAgents(EraseAgents(agents), EraseRuns(runs, retries), e, 0))
  {
    hide EraseAgents, EraseRuns, NewRunAgent, EraseAgent;
    EraseAgentsTwice(agents);
    EraseAgentsKeys(agents);
    EraseRunsKeys(runs, retries);
    if e.run in runs && e.agent !in agents {
      NewRunAgentClock(runs, e, now, retries);
      PutAgentClock(agents, e.agent, NewRunAgent(runs[e.run], e.run, e.agent, now),
                    NewRunAgent(EraseRuns(runs, retries)[e.run], e.run, e.agent, 0));
    }
  }

  lemma RunStartedClock(s: State, e: Event, now: nat, retries: bool)
    requires e.AgentRunStarted?
    ensures Erase(ApplyRun(s, e, now), retries) == Erase(ApplyRun(Erase(s, retries), e, 0), retries)
  {
    hide EraseJobs, EraseAgents, EraseRuns, EraseWorkspaces, EraseCrons, RunsAt, StartedRunAgents;
    EraseTwice(s, retries);
    RunsAtClock(s.runs, e.run, e, now, retries);
    StartedRunAgentsClock(s.agents, s.runs, e, now, retries);
  }

  lemma EraseRunsKeys(m: map<string, AgentRun>, retries: bool)
    ensures EraseRuns(m, retries).Keys == m.Keys
  {
  }

  lemma NewRunAgentClock(m: map<string, AgentRun>, e: Event, now: nat, retries: bool)
    requires e.AgentRunStarted? && e.run in m
    ensures e.run in EraseRuns(m, retries)
    ensures EraseAgent(NewRunAgent(m[e.run], e.run, e.agent, now))
         == EraseAgent(NewRunAgent(EraseRuns(m, retries)[e.run], e.run, e.agent, 0))
  {
  }

  lemma RunDeletedClock(s: State, e: Event, now: nat, retries: bool)
    requires e.AgentRunDeleted?
    ensures Erase(ApplyRun(s, e, now), retries) == Erase(ApplyRun(Erase(s, retries), e, 0), retries)
  {
    hide EraseJobs, EraseAgents, EraseRuns, EraseWorkspaces, EraseCrons, Without, AgentsNotOf;
    EraseTwice(s, retries);
    DropRunClock(s.runs, e.run, retries);
    AgentsNotOfClock(s.agents, RunOwner(e.run));
  }

  lemma RunChangedClock(s: State, e: Event, now: nat, retries: bool)
    requires e.AgentRunCreated? || e.AgentRunStatusChanged?
    ensures Erase(ApplyRun(s, e, now), retries) == Erase(ApplyRun(Erase(s, retries), e, 0), retries)
  {
    hide EraseJobs, EraseAgents, EraseRuns, EraseWorkspaces, EraseCrons, RunsAt, DecisionsOnStatus, NewRun;
    EraseTwice(s, retries);
    if e.AgentRunCreated? {
      PutRunClock(s.runs, e.run, NewRun(e), retries);
    } else {
      RunsAtClock(s.runs, e.run, e, now, retries);
    }
  }

  lemma RunClock(s: State, e: Event, now: nat, retries: bool)
    requires AboutRun(e)
    ensures Erase(ApplyRun(s, e, now), retries) == Erase(ApplyRun(Erase(s, retries), e, 0), retries)
  {
    hide ApplyRun, Erase;
    if e.AgentRunStarted? { RunStartedClock(s, e, now, retries); }
    else if e.AgentRunDeleted? { RunDeletedClock(s, e, now, retries); }
    else { RunChangedClock(s, e, now, retries); }
  }

  lemma EraseApply(s: State, e: Event, now: nat, retries: bool)
    ensures Erase(Apply(s, e, now), retries) == Erase(Apply(Erase(s, retries), e, 0), retries)
  {
    hide ApplyJob, ApplyStep, ApplyAgent, ApplySignal, ApplySession, ApplyWorkspace, ApplyWorker,
         ApplyQueue, ApplyCron, ApplyDecision, ApplyRun, AboutJob, AboutStep, AboutAgent, AboutSession,
         AboutWorkspace, AboutWorker, AboutQueue, AboutCron, AboutDecision, AboutRun, Erase;
    var a, b := Erase(Apply(s, e, now), retries), Erase(Apply(Erase(s, retries), e, 0), retries);
    assert a == b by {
      if AboutJob(e) { JobClock(s, e, now, retries); }
      else if AboutStep(e) { StepClock(s, e, now, retries); }
      else if AboutAgent(e) { AgentClock(s, e, now, retries); }
      else if e.AgentSignaled? { SignalClock(s, e, now, retries); }
      else if AboutSession(e) { SessionClock(s, e, now, retries); }
      else if AboutWorkspace(e) { WorkspaceClock(s, e, now, retries); }
      else if AboutWorker(e) { WorkerClock(s, e, retries); }
      else if AboutQueue(e) { QueueClock(s, e, retries); }
      else if AboutCron(e) { CronClock(s, e, now, retries); }
      else if AboutDecision(e) { DecisionClock(s, e, now, retries); }
      else if AboutRun(e) { RunClock(s, e, now, retries); }
      else { EraseTwice(s, retries); }
    }
  }

  // ----------------------------------------------------- what is forgotten

  // The state without clock readings, and without what the runtime counts on its own as well.
  function Scrub(s: State): State { Erase(s, false) }

  function Forget(s: State): State { Erase(s, true) }

  lemma ApplyClock(s: State, e: Event, now: nat)
    ensures Scrub(Apply(s, e, now)) == Scrub(Apply(Scrub(s), e, 0))
  {
    hide Apply, Erase;
    EraseApply(s, e, now, false);
  }

  lemma ApplyForget(s: State, e: Event, now: nat)
    ensures Forget(Apply(s, e, now)) == Forget(Apply(Forget(s), e, 0))
  {
    hide Apply, Erase;
    EraseApply(s, e, now, true);
  }
}
