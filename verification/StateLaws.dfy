/** Laws of the transition function: applying an event twice in a row is applying it once,
    and clock readings influence nothing but the clock fields. */
module StateLaws {
  import opened Wrappers
  import opened Actions
  import opened Jobs
  import opened State

  // ------------------------------------------------ applying twice, same clock

  lemma AdvanceTwice(j: Job, step: string, now: nat)
    ensures Advance(Advance(j, step, now), step, now) == Advance(j, step, now)
  {
  }

  lemma StepEndedTwice(j: Job, failure: Option<string>, now: nat)
    ensures StepEnded(StepEnded(j, failure, now), failure, now) == StepEnded(j, failure, now)
  {
  }

  lemma StartStepTwice(j: Job, agentId: Option<string>, agentName: Option<string>)
    ensures StartStep(StartStep(j, agentId, agentName), agentId, agentName) == StartStep(j, agentId, agentName)
  {
    var t := StartStep(j, agentId, agentName);
    assert StartStep(t, agentId, agentName).history == t.history;
  }

  lemma WaitStepTwice(j: Job, reason: Option<string>, decision: Option<string>)
    ensures WaitStep(WaitStep(j, reason, decision), reason, decision) == WaitStep(j, reason, decision)
  {
    var t := WaitStep(j, reason, decision);
    assert WaitStep(t, reason, decision).history == t.history;
  }

  lemma AgentStoppedTwice(j: Job, failure: Option<string>)
    ensures AgentStopped(AgentStopped(j, failure), failure) == AgentStopped(j, failure)
  {
    hide TerminalStep;
  }

  lemma StepEventTwice(j: Job, e: Event, now: nat)
    requires AboutStep(e)
    ensures JobAfterStep(JobAfterStep(j, e, now), e, now) == JobAfterStep(j, e, now)
  {
    hide StepEnded, StartStep, WaitStep;
    match e
    case ShellExited(_, code) => StepEndedTwice(j, ShellFailure(code), now);
    case StepStarted(_, agentId, agentName) => StartStepTwice(j, agentId, agentName);
    case StepWaiting(_, reason, decision) => WaitStepTwice(j, reason, decision);
    case StepCompleted(_) => StepEndedTwice(j, None, now);
    case StepFailed(_, error) => StepEndedTwice(j, Some(error), now);
  }

  lemma AgentEventTwice(j: Job, e: Event)
    requires AboutAgent(e)
    ensures JobAfterAgent(JobAfterAgent(j, e), e) == JobAfterAgent(j, e)
  {
    hide AgentStopped, AgentFailure;
    var t := JobAfterAgent(j, e);
    if e.AgentExited? { AgentStoppedTwice(j, AgentFailure(e.exitCode)); assert JobAfterAgent(t, e) == t; }
    else if e.AgentFailed? { AgentStoppedTwice(j, Some(e.reason)); assert JobAfterAgent(t, e) == t; }
    else if e.AgentGone? { AgentStoppedTwice(j, Some(GONE)); assert JobAfterAgent(t, e) == t; }
  }

  lemma JobAfterTwice(j: Job, e: Event, now: nat)
    ensures JobAfter(JobAfter(j, e, now), e, now) == JobAfter(j, e, now)
  {
    hide Advance, JobAfterStep, JobAfterAgent;
    var t := JobAfter(j, e, now);
    var u := JobAfter(t, e, now);
    assert u == t by {
      if AboutStep(e) { StepEventTwice(j, e, now); }
      else if AboutAgent(e) { AgentEventTwice(j, e); }
      else if e.JobAdvanced? { AdvanceTwice(j, e.step, now); }
      else if e.JobUpdated? { assert j.vars + e.vars + e.vars == j.vars + e.vars; }
    }
  }

  lemma JobsAtKeys(m: map<string, Job>, id: string, e: Event, now: nat)
    ensures JobsAt(m, id, e, now).Keys == m.Keys
  {
    hide JobAfter;
  }

  lemma JobsAtTwice(m: map<string, Job>, id: string, e: Event, now: nat)
    ensures JobsAt(JobsAt(m, id, e, now), id, e, now) == JobsAt(m, id, e, now)
  {
    hide JobAfter;
    if id in m { JobAfterTwice(m[id], e, now); }
  }

  lemma AgentsAtTwice(m: map<string, Agent>, id: string, e: Event, now: nat)
    ensures AgentsAt(AgentsAt(m, id, e, now), id, e, now) == AgentsAt(m, id, e, now)
  {
  }

  lemma RunsAtTwice(m: map<string, AgentRun>, id: string, e: Event, now: nat)
    ensures RunsAt(RunsAt(m, id, e, now), id, e, now) == RunsAt(m, id, e, now)
  {
  }

  lemma RunsAtKeys(m: map<string, AgentRun>, id: string, e: Event, now: nat)
    ensures RunsAt(m, id, e, now).Keys == m.Keys
  {
    hide RunAfter;
  }

  lemma OwnedTwice(jobs: map<string, Job>, runs: map<string, AgentRun>, owner: Owner, e: Event, now: nat)
    ensures OwnedJobs(OwnedJobs(jobs, owner, e, now), owner, e, now) == OwnedJobs(jobs, owner, e, now)
    ensures OwnedRuns(OwnedRuns(runs, owner, e, now), owner, e, now) == OwnedRuns(runs, owner, e, now)
  {
    if owner.JobOwner? { JobsAtTwice(jobs, owner.id, e, now); } else { RunsAtTwice(runs, owner.id, e, now); }
  }

  lemma {:induction false} OthersTwice(ids: seq<string>, id: string)
    ensures Others(Others(ids, id), id) == Others(ids, id)
  {
    if ids != [] {
      OthersTwice(ids[1..], id);
      var rest := Others(ids[1..], id);
      assert ids[0] != id ==> ([ids[0]] + rest)[1..] == rest;
    }
  }

  lemma WorkerAfterTwice(w: Worker, e: Event)
    ensures WorkerAfter(WorkerAfter(w, e), e) == WorkerAfter(w, e)
  {
    if e.JobAdvanced? { OthersTwice(w.activeJobs, e.job); }
  }

  lemma {:induction false} ItemsAfterTwice(items: seq<QueueItem>, item: string, e: Event)
    ensures ItemsAfter(ItemsAfter(items, item, e), item, e) == ItemsAfter(items, item, e)
  {
    if items != [] && items[0].id != item {
      ItemsAfterTwice(items[1..], item, e);
    }
  }

  lemma {:induction false} ItemsWithoutTwice(items: seq<QueueItem>, item: string)
    ensures ItemsWithout(ItemsWithout(items, item), item) == ItemsWithout(items, item)
  {
    if items != [] {
      ItemsWithoutTwice(items[1..], item);
      var rest := ItemsWithout(items[1..], item);
      assert items[0].id != item ==> ([items[0]] + rest)[1..] == rest;
    }
  }

  lemma OnEntryTwice(workers: map<string, Worker>, decisions: map<string, Decision>, e: Event)
    requires e.JobAdvanced?
    ensures WorkersOnEntry(WorkersOnEntry(workers, e), e) == WorkersOnEntry(workers, e)
    ensures DecisionsOnEntry(DecisionsOnEntry(decisions, e), e) == DecisionsOnEntry(decisions, e)
  {
    hide AllWorkers, DecisionsNotOf, TerminalStep;
    AllWorkersTwice(workers, e);
    DecisionsNotOfTwice(decisions, e.job, false);
  }

  lemma JobAdvancedTwice(s: State, e: Event, now: nat)
    requires e.JobAdvanced?
    ensures ApplyJob(ApplyJob(s, e, now), e, now) == ApplyJob(s, e, now)
  {
    hide JobsAt, WorkersOnEntry, DecisionsOnEntry, Stays;
    JobsAtTwice(s.jobs, e.job, e, now);
    OnEntryTwice(s.workers, s.decisions, e);
    assert ApplyJob(ApplyJob(s, e, now), e, now) == ApplyJob(s, e, now);
  }

  lemma DecisionsNotOfTwice(m: map<string, Decision>, job: string, all: bool)
    ensures DecisionsNotOf(DecisionsNotOf(m, job, all), job, all) == DecisionsNotOf(m, job, all)
  {
  }

  lemma AllWorkersTwice(m: map<string, Worker>, e: Event)
    ensures AllWorkers(AllWorkers(m, e), e) == AllWorkers(m, e)
  {
    forall k | k in m ensures WorkerAfter(WorkerAfter(m[k], e), e) == WorkerAfter(m[k], e) {
      WorkerAfterTwice(m[k], e);
    }
  }

  lemma JobDeletedTwice(s: State, e: Event, now: nat)
    requires e.JobDeleted?
    ensures ApplyJob(ApplyJob(s, e, now), e, now) == ApplyJob(s, e, now)
  {
    var t := ApplyJob(s, e, now);
    var u := ApplyJob(t, e, now);
    assert u.jobs == t.jobs;
    assert u.decisions == t.decisions;
    assert u.agents == t.agents;
  }

  lemma JobChangedTwice(s: State, e: Event, now: nat)
    requires e.JobCreated? || e.JobUpdated? || e.JobCancelling?
    ensures ApplyJob(ApplyJob(s, e, now), e, now) == ApplyJob(s, e, now)
  {
    hide JobAfter, JobsAt, NewJob;
    JobsAtTwice(s.jobs, e.job, e, now);
  }

  lemma JobTwice(s: State, e: Event, now: nat)
    requires AboutJob(e)
    ensures ApplyJob(ApplyJob(s, e, now), e, now) == ApplyJob(s, e, now)
  {
    hide ApplyJob;
    if e.JobAdvanced? { JobAdvancedTwice(s, e, now); }
    else if e.JobDeleted? { JobDeletedTwice(s, e, now); }
    else { JobChangedTwice(s, e, now); }
  }

  lemma StartedAgentsTwice(agents: map<string, Agent>, jobs: map<string, Job>, later: map<string, Job>,
                           e: Event, now: nat)
    requires e.StepStarted? && later.Keys == jobs.Keys
    ensures StartedAgents(StartedAgents(agents, jobs, e, now), later, e, now) == StartedAgents(agents, jobs, e, now)
  {
  }

  lemma StepStartedTwice(s: State, e: Event, now: nat)
    requires e.StepStarted?
    ensures ApplyStep(ApplyStep(s, e, now), e, now) == ApplyStep(s, e, now)
  {
    hide JobsAt, StartedAgents;
    var t := ApplyStep(s, e, now);
    JobsAtKeys(s.jobs, e.job, e, now);
    StartedAgentsTwice(s.agents, s.jobs, t.jobs, e, now);
    assert JobsAt(t.jobs, e.job, e, now) == t.jobs by { JobsAtTwice(s.jobs, e.job, e, now); }
    assert ApplyStep(t, e, now) == t;
  }

  lemma StepTwice(s: State, e: Event, now: nat)
    requires AboutStep(e)
    ensures ApplyStep(ApplyStep(s, e, now), e, now) == ApplyStep(s, e, now)
  {
    hide JobsAt;
    if e.StepStarted? { StepStartedTwice(s, e, now); } else { JobsAtTwice(s.jobs, e.job, e, now); }
  }

  lemma AgentTwice(s: State, e: Event, now: nat)
    requires AboutAgent(e)
    ensures ApplyAgent(ApplyAgent(s, e, now), e, now) == ApplyAgent(s, e, now)
  {
    AgentsAtTwice(s.agents, e.agent, e, now);
    if !e.AgentWaiting? { OwnedTwice(s.jobs, s.runs, e.owner, e, now); }
  }

  lemma SignalKeepsHistory(j: Job, e: Event, now: nat)
    requires e.AgentSignaled?
    ensures JobAfter(j, e, now).history == j.history
  {
  }

  lemma SignalKeepsJobs(m: map<string, Job>, id: string, e: Event, now: nat)
    requires e.AgentSignaled?
    ensures JobsOfAgent(JobsAt(m, id, e, now), e.agent) == JobsOfAgent(m, e.agent)
  {
    hide JobAfter;
    if id in m { SignalKeepsHistory(m[id], e, now); }
  }

  lemma SignalKeepsRuns(m: map<string, AgentRun>, id: string, e: Event, now: nat)
    requires e.AgentSignaled?
    ensures RunsOfAgent(RunsAt(m, id, e, now), e.agent) == RunsOfAgent(m, e.agent)
  {
  }

  lemma SignalToRunTwice(s: State, e: Event, now: nat)
    requires e.AgentSignaled? && e.kind != Continue && RunsOfAgent(s.runs, e.agent) != {}
    ensures ApplySignal(ApplySignal(s, e, now), e, now) == ApplySignal(s, e, now)
  {
    hide JobsAt, RunsAt, RunsOfAgent, JobsOfAgent;
    var first := FirstOf(RunsOfAgent(s.runs, e.agent));
    var t := ApplySignal(s, e, now);
    assert RunsAt(t.runs, first, e, now) == t.runs by { RunsAtTwice(s.runs, first, e, now); }
    SignalKeepsRuns(s.runs, first, e, now);
    assert ApplySignal(t, e, now) == t;
  }

  lemma SignalToJobTwice(s: State, e: Event, now: nat)
    requires e.AgentSignaled? && e.kind != Continue && RunsOfAgent(s.runs, e.agent) == {}
    requires JobsOfAgent(s.jobs, e.agent) != {}
    ensures ApplySignal(ApplySignal(s, e, now), e, now) == ApplySignal(s, e, now)
  {
    hide JobsAt, RunsAt, RunsOfAgent, JobsOfAgent;
    var first := FirstOf(JobsOfAgent(s.jobs, e.agent));
    var t := ApplySignal(s, e, now);
    assert JobsAt(t.jobs, first, e, now) == t.jobs by { JobsAtTwice(s.jobs, first, e, now); }
    SignalKeepsJobs(s.jobs, first, e, now);
    assert ApplySignal(t, e, now) == t;
  }

  lemma SignalTwice(s: State, e: Event, now: nat)
    requires e.AgentSignaled?
    ensures ApplySignal(ApplySignal(s, e, now), e, now) == ApplySignal(s, e, now)
  {
    var t := ApplySignal(s, e, now);
    assert ApplySignal(t, e, now) == t by {
      if e.kind == Continue {
      } else if RunsOfAgent(s.runs, e.agent) != {} {
        SignalToRunTwice(s, e, now);
      } else if JobsOfAgent(s.jobs, e.agent) != {} {
        SignalToJobTwice(s, e, now);
      }
    }
  }

  lemma AllAgentsTwice(m: map<string, Agent>, e: Event, now: nat)
    ensures AllAgents(AllAgents(m, e, now), e, now) == AllAgents(m, e, now)
  {
  }

  lemma SessionCreatedTwice(s: State, e: Event, now: nat)
    requires e.SessionCreated?
    ensures ApplySession(ApplySession(s, e, now), e, now) == ApplySession(s, e, now)
  {
    hide OwnedJobs, OwnedRuns, AllAgents;
    OwnedTwice(s.jobs, s.runs, e.owner, e, now);
    AllAgentsTwice(s.agents, e, now);
    assert ApplySession(ApplySession(s, e, now), e, now) == ApplySession(s, e, now);
  }

  lemma AllJobsTwice(m: map<string, Job>, e: Event, now: nat)
    ensures AllJobs(AllJobs(m, e, now), e, now) == AllJobs(m, e, now)
  {
    hide JobAfter;
    forall k | k in m ensures JobAfter(JobAfter(m[k], e, now), e, now) == JobAfter(m[k], e, now) {
      JobAfterTwice(m[k], e, now);
    }
  }

  lemma AllRunsTwice(m: map<string, AgentRun>, e: Event, now: nat)
    ensures AllRuns(AllRuns(m, e, now), e, now) == AllRuns(m, e, now)
  {
  }

  lemma WithoutTwice<V>(m: map<string, V>, k: string)
    ensures Without(Without(m, k), k) == Without(m, k)
  {
  }

  lemma SessionDeletedTwice(s: State, e: Event, now: nat)
    requires e.SessionDeleted?
    ensures ApplySession(ApplySession(s, e, now), e, now) == ApplySession(s, e, now)
  {
    hide AllJobs, AllRuns, AllAgents, Without;
    AllJobsTwice(s.jobs, e, now);
    AllRunsTwice(s.runs, e, now);
    AllAgentsTwice(s.agents, e, now);
    WithoutTwice(s.sessions, e.session);
  }

  lemma SessionTwice(s: State, e: Event, now: nat)
    requires AboutSession(e)
    ensures ApplySession(ApplySession(s, e, now), e, now) == ApplySession(s, e, now)
  {
    hide ApplySession;
    if e.SessionCreated? { SessionCreatedTwice(s, e, now); } else { SessionDeletedTwice(s, e, now); }
  }

  lemma PutTwice<V>(m: map<string, V>, k: string, v: V)
    ensures m[k := v][k := v] == m[k := v]
  {
  }

  lemma WorkspaceCreatedTwice(s: State, e: Event, now: nat)
    requires e.WorkspaceCreated?
    ensures ApplyWorkspace(ApplyWorkspace(s, e, now), e, now) == ApplyWorkspace(s, e, now)
  {
    hide OwnedJobs, NewWorkspace;
    PutTwice(s.workspaces, e.workspace, NewWorkspace(e, now));
    if e.wsOwner.Some? { OwnedTwice(s.jobs, s.runs, e.wsOwner.value, e, now); }
  }

  lemma WorkspacesTwice(m: map<string, Workspace>, id: string, e: Event)
    ensures WorkspacesAt(WorkspacesAt(m, id, e), id, e) == WorkspacesAt(m, id, e)
    ensures Without(Without(m, id), id) == Without(m, id)
  {
  }

  lemma WorkspaceChangedTwice(s: State, e: Event, now: nat)
    requires AboutWorkspace(e) && !e.WorkspaceCreated?
    ensures ApplyWorkspace(ApplyWorkspace(s, e, now), e, now) == ApplyWorkspace(s, e, now)
  {
    hide WorkspacesAt, Without;
    WorkspacesTwice(s.workspaces, e.workspace, e);
  }

  lemma WorkspaceTwice(s: State, e: Event, now: nat)
    requires AboutWorkspace(e)
    ensures ApplyWorkspace(ApplyWorkspace(s, e, now), e, now) == ApplyWorkspace(s, e, now)
  {
    hide ApplyWorkspace;
    if e.WorkspaceCreated? { WorkspaceCreatedTwice(s, e, now); } else { WorkspaceChangedTwice(s, e, now); }
  }

  lemma WorkersTwice(m: map<string, Worker>, key: string, e: Event)
    ensures WorkersAt(WorkersAt(m, key, e), key, e) == WorkersAt(m, key, e)
    ensures Without(Without(m, key), key) == Without(m, key)
  {
    if key in m { WorkerAfterTwice(m[key], e); }
  }

  lemma WorkerStartedTwice(s: State, e: Event)
    requires e.WorkerStarted? || e.CommandRun?
    ensures ApplyWorker(ApplyWorker(s, e), e) == ApplyWorker(s, e)
  {
    hide Names.Scoped;
    var t := ApplyWorker(s, e);
    var u := ApplyWorker(t, e);
    assert u.workers == t.workers;
    assert u.projectRoots == t.projectRoots;
  }

  lemma WorkerChangedTwice(s: State, e: Event)
    requires AboutWorker(e) && !e.WorkerStarted? && !e.CommandRun?
    ensures ApplyWorker(ApplyWorker(s, e), e) == ApplyWorker(s, e)
  {
    hide WorkersAt, Without, Names.Scoped;
    WorkersTwice(s.workers, Names.Scoped(e.namespace, e.worker), e);
  }

  lemma WorkerTwice(s: State, e: Event)
    requires AboutWorker(e)
    ensures ApplyWorker(ApplyWorker(s, e), e) == ApplyWorker(s, e)
  {
    hide ApplyWorker;
    if e.WorkerStarted? || e.CommandRun? { WorkerStartedTwice(s, e); } else { WorkerChangedTwice(s, e); }
  }

  lemma QueuePushedTwice(s: State, e: Event)
    requires e.QueuePushed?
    ensures ApplyQueue(ApplyQueue(s, e), e) == ApplyQueue(s, e)
  {
    hide Names.Scoped, HasItem;
    var key := Names.Scoped(e.namespace, e.queue);
    var t := ApplyQueue(s, e);
    assert HasItem(t.queues[key], e.item) by { PushedHasItem(s, e); }
    assert ApplyQueue(t, e).queues == t.queues;
  }

  lemma PushedHasItem(s: State, e: Event)
    requires e.QueuePushed?
    ensures var key := Names.Scoped(e.namespace, e.queue);
            var t := ApplyQueue(s, e);
            key in t.queues && HasItem(t.queues[key], e.item)
  {
    hide Names.Scoped;
    var items := ApplyQueue(s, e).queues[Names.Scoped(e.namespace, e.queue)];
    assert items != [];
    assert items[|items| - 1] in items;
  }

  lemma QueueChangedTwice(s: State, e: Event)
    requires AboutQueue(e) && !e.QueuePushed?
    ensures ApplyQueue(ApplyQueue(s, e), e) == ApplyQueue(s, e)
  {
    hide Names.Scoped, ItemsAfter, ItemsWithout;
    var key := Names.Scoped(e.namespace, e.queue);
    var t := ApplyQueue(s, e);
    if key in s.queues {
      ItemsAfterTwice(s.queues[key], e.item, e);
      ItemsWithoutTwice(s.queues[key], e.item);
      assert ApplyQueue(t, e).queues == t.queues;
    }
  }

  lemma QueueTwice(s: State, e: Event)
    requires AboutQueue(e)
    ensures ApplyQueue(ApplyQueue(s, e), e) == ApplyQueue(s, e)
  {
    hide ApplyQueue;
    if e.QueuePushed? { QueuePushedTwice(s, e); } else { QueueChangedTwice(s, e); }
  }

  lemma CronStartedTwice(s: State, e: Event, now: nat)
    requires e.CronStarted? || e.RunbookLoaded?
    ensures ApplyCron(ApplyCron(s, e, now), e, now) == ApplyCron(s, e, now)
  {
    var t := ApplyCron(s, e, now);
    var u := ApplyCron(t, e, now);
    assert u.crons == t.crons;
    assert u.projectRoots == t.projectRoots;
  }

  lemma CronChangedTwice(s: State, e: Event, now: nat)
    requires e.CronStopped? || e.CronFired? || e.CronDeleted?
    ensures ApplyCron(ApplyCron(s, e, now), e, now) == ApplyCron(s, e, now)
  {
    var t := ApplyCron(s, e, now);
    var u := ApplyCron(t, e, now);
    assert u.crons == t.crons;
  }

  lemma CronTwice(s: State, e: Event, now: nat)
    requires AboutCron(e)
    ensures ApplyCron(ApplyCron(s, e, now), e, now) == ApplyCron(s, e, now)
  {
    hide ApplyCron;
    if e.CronStarted? || e.RunbookLoaded? { CronStartedTwice(s, e, now); } else { CronChangedTwice(s, e, now); }
  }

  lemma DecisionTwice(s: State, e: Event, now: nat)
    requires AboutDecision(e)
    ensures ApplyDecision(ApplyDecision(s, e, now), e, now) == ApplyDecision(s, e, now)
  {
    hide OwnedJobs, OwnedRuns, JobAfter, RunAfter, NewDecision;
    var t := ApplyDecision(s, e, now);
    var u := ApplyDecision(t, e, now);
    if e.DecisionCreated? { OwnedTwice(s.jobs, s.runs, e.owner, e, now); }
    assert u.decisions == t.decisions;
  }

  lemma RunDeletedTwice(s: State, e: Event, now: nat)
    requires e.AgentRunDeleted?
    ensures ApplyRun(ApplyRun(s, e, now), e, now) == ApplyRun(s, e, now)
  {
    var t := ApplyRun(s, e, now);
    var u := ApplyRun(t, e, now);
    assert u.runs == t.runs;
    assert u.agents == t.agents;
  }

  lemma DecisionsNotOfRunTwice(m: map<string, Decision>, run: string)
    ensures DecisionsNotOfRun(DecisionsNotOfRun(m, run), run) == DecisionsNotOfRun(m, run)
  {
  }

  lemma RunStatusTwice(s: State, e: Event, now: nat)
    requires e.AgentRunStatusChanged?
    ensures ApplyRun(ApplyRun(s, e, now), e, now) == ApplyRun(s, e, now)
  {
    hide RunsAt, DecisionsNotOfRun;
    RunsAtTwice(s.runs, e.run, e, now);
    DecisionsNotOfRunTwice(s.decisions, e.run);
  }

  lemma RunCreatedTwice(s: State, e: Event, now: nat)
    requires e.AgentRunCreated?
    ensures ApplyRun(ApplyRun(s, e, now), e, now) == ApplyRun(s, e, now)
  {
    hide NewRun;
  }

  lemma StartedRunAgentsTwice(agents: map<string, Agent>, runs: map<string, AgentRun>,
                              later: map<string, AgentRun>, e: Event, now: nat)
    requires e.AgentRunStarted? && later.Keys == runs.Keys
    ensures StartedRunAgents(StartedRunAgents(agents, runs, e, now), later, e, now)
         == StartedRunAgents(agents, runs, e, now)
  {
  }

  lemma RunStartedTwice(s: State, e: Event, now: nat)
    requires e.AgentRunStarted?
    ensures ApplyRun(ApplyRun(s, e, now), e, now) == ApplyRun(s, e, now)
  {
    hide RunsAt, StartedRunAgents;
    var t := ApplyRun(s, e, now);
    RunsAtKeys(s.runs, e.run, e, now);
    StartedRunAgentsTwice(s.agents, s.runs, t.runs, e, now);
    assert RunsAt(t.runs, e.run, e, now) == t.runs by { RunsAtTwice(s.runs, e.run, e, now); }
    assert ApplyRun(t, e, now) == t;
  }

  lemma RunTwice(s: State, e: Event, now: nat)
    requires AboutRun(e)
    ensures ApplyRun(ApplyRun(s, e, now), e, now) == ApplyRun(s, e, now)
  {
    hide ApplyRun;
    if e.AgentRunDeleted? { RunDeletedTwice(s, e, now); }
    else if e.AgentRunStatusChanged? { RunStatusTwice(s, e, now); }
    else if e.AgentRunCreated? { RunCreatedTwice(s, e, now); }
    else { RunStartedTwice(s, e, now); }
  }

  lemma ApplyTwiceSameClock(s: State, e: Event, now: nat)
    ensures Apply(Apply(s, e, now), e, now) == Apply(s, e, now)
  {
    hide ApplyJob, ApplyStep, ApplyAgent, ApplySignal, ApplySession, ApplyWorkspace, ApplyWorker,
         ApplyQueue, ApplyCron, ApplyDecision, ApplyRun, AboutJob, AboutStep, AboutAgent, AboutSession,
         AboutWorkspace, AboutWorker, AboutQueue, AboutCron, AboutDecision, AboutRun;
    var t := Apply(s, e, now);
    var u := Apply(t, e, now);
    assert u == t by {
      if AboutJob(e) { JobTwice(s, e, now); }
      else if AboutStep(e) { StepTwice(s, e, now); }
      else if AboutAgent(e) { AgentTwice(s, e, now); }
      else if e.AgentSignaled? { SignalTwice(s, e, now); }
      else if AboutSession(e) { SessionTwice(s, e, now); }
      else if AboutWorkspace(e) { WorkspaceTwice(s, e, now); }
      else if AboutWorker(e) { WorkerTwice(s, e); }
      else if AboutQueue(e) { QueueTwice(s, e); }
      else if AboutCron(e) { CronTwice(s, e, now); }
      else if AboutDecision(e) { DecisionTwice(s, e, now); }
      else if AboutRun(e) { RunTwice(s, e, now); }
    }
  }
}
