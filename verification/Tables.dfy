/** Which tables of the state an event reads or writes (crates/storage/src/state.rs). */
module Tables {
  import opened Wrappers
  import opened Jobs
  import opened State
  import Actions
  import Scoping = Names

  predicate UsesJobs(e: Event) {
    AboutJob(e) || AboutStep(e) || (AboutAgent(e) && !e.AgentWaiting?) || e.AgentSignaled? || AboutSession(e)
    || e.WorkspaceCreated? || e.DecisionCreated?
  }

  predicate UsesRuns(e: Event) { e.AgentSignaled? || AboutSession(e) || e.DecisionCreated? || AboutRun(e) }

  // A job that merely goes on touches no decision and no worker.
  predicate UsesDecisions(e: Event) {
    AboutDecision(e) || (e.JobAdvanced? && TerminalStep(e.step)) || e.JobDeleted? || e.AgentRunStatusChanged?
  }

  predicate UsesWorkers(e: Event) { (AboutWorker(e) && !e.CommandRun?) || (e.JobAdvanced? && TerminalStep(e.step)) }

  predicate UsesAgents(e: Event) {
    e.JobDeleted? || e.StepStarted? || AboutAgent(e) || AboutSession(e) || e.AgentRunDeleted? || e.AgentRunStarted?
  }

  predicate UsesCrons(e: Event) { AboutCron(e) && !e.RunbookLoaded? }

  predicate UsesRoots(e: Event) { e.CommandRun? || e.WorkerStarted? || e.CronStarted? }

  // The event leaves the tables alone that it does not use.
  predicate Framed(s: State, t: State, e: Event) {
    && (UsesJobs(e) || s.jobs == t.jobs) && (UsesRuns(e) || s.runs == t.runs)
    && (UsesDecisions(e) || s.decisions == t.decisions) && (UsesAgents(e) || s.agents == t.agents)
    && (UsesWorkers(e) || s.workers == t.workers) && (UsesCrons(e) || s.crons == t.crons)
    && (UsesRoots(e) || s.projectRoots == t.projectRoots) && (AboutSession(e) || s.sessions == t.sessions)
    && (AboutQueue(e) || s.queues == t.queues) && (AboutWorkspace(e) || s.workspaces == t.workspaces)
    && (e.RunbookLoaded? || s.runbooks == t.runbooks)
  }

  // The states agree on the tables that the event uses.
  predicate Agree(s: State, t: State, e: Event) {
    && (UsesJobs(e) ==> s.jobs == t.jobs) && (UsesRuns(e) ==> s.runs == t.runs)
    && (UsesDecisions(e) ==> s.decisions == t.decisions) && (UsesAgents(e) ==> s.agents == t.agents)
    && (UsesWorkers(e) ==> s.workers == t.workers) && (UsesCrons(e) ==> s.crons == t.crons)
    && (UsesRoots(e) ==> s.projectRoots == t.projectRoots) && (AboutSession(e) ==> s.sessions == t.sessions)
    && (AboutQueue(e) ==> s.queues == t.queues) && (AboutWorkspace(e) ==> s.workspaces == t.workspaces)
    && (e.RunbookLoaded? ==> s.runbooks == t.runbooks)
  }

  lemma JobFrame(s: State, e: Event, now: nat)
    requires AboutJob(e)
    ensures Framed(s, ApplyJob(s, e, now), e)
  {
    hide JobsAt, NewJob, Without, AllWorkers, DecisionsNotOf, AgentsNotOf, SkipsAdvance, TerminalStep;
  }

  lemma JobAgree(s: State, t: State, e: Event, now: nat)
    requires AboutJob(e) && Agree(s, t, e)
    ensures Agree(ApplyJob(s, e, now), ApplyJob(t, e, now), e)
  {
    if e.JobAdvanced? {
      AdvanceAgree(s, t, e, now);
      hide ApplyJob;
    } else {
      hide JobsAt, NewJob, Without, DecisionsNotOf, AgentsNotOf;
    }
  }

  lemma AdvanceAgree(s: State, t: State, e: Event, now: nat)
    requires e.JobAdvanced? && Agree(s, t, e)
    ensures Agree(ApplyJob(s, e, now), ApplyJob(t, e, now), e)
  {
    hide JobsAt, AllWorkers, DecisionsNotOf, Stays, TerminalStep;
    assert Stays(s.jobs, e) == Stays(t.jobs, e);
  }

  lemma StepFrame(s: State, e: Event, now: nat)
    requires AboutStep(e)
    ensures Framed(s, ApplyStep(s, e, now), e)
  {
    hide JobsAt, StartedAgents;
  }

  lemma StepAgree(s: State, t: State, e: Event, now: nat)
    requires AboutStep(e) && Agree(s, t, e)
    ensures Agree(ApplyStep(s, e, now), ApplyStep(t, e, now), e)
  {
    hide JobsAt, StartedAgents;
  }

  lemma AgentFrame(s: State, e: Event, now: nat)
    requires AboutAgent(e)
    ensures Framed(s, ApplyAgent(s, e, now), e)
  {
    hide OwnedJobs, AgentsAt;
  }

  lemma AgentAgree(s: State, t: State, e: Event, now: nat)
    requires AboutAgent(e) && Agree(s, t, e)
    ensures Agree(ApplyAgent(s, e, now), ApplyAgent(t, e, now), e)
  {
    hide OwnedJobs, AgentsAt;
  }

  // A signal changes one agent run, or one job, or nothing.
  lemma SignalFrame(s: State, e: Event, now: nat)
    requires e.AgentSignaled?
    ensures Framed(s, ApplySignal(s, e, now), e)
  {
    SignalIs(s, e, now);
    hide ApplySignal;
  }

  lemma SignalAgree(s: State, t: State, e: Event, now: nat)
    requires e.AgentSignaled? && Agree(s, t, e)
    ensures Agree(ApplySignal(s, e, now), ApplySignal(t, e, now), e)
  {
    SignalIs(s, e, now);
    SignalIs(t, e, now);
    SignalUses(s, t, e);
    hide ApplySignal, SignalJobs, SignalRuns;
  }

  lemma SignalUses(s: State, t: State, e: Event)
    requires e.AgentSignaled?
    ensures Agree(s, t, e) <==> s.jobs == t.jobs && s.runs == t.runs
  {
  }

  ghost function SignalRuns(m: map<string, AgentRun>, e: Event, now: nat): map<string, AgentRun>
    requires e.AgentSignaled?
  {
    var runs := RunsOfAgent(m, e.agent);
    if e.kind == Actions.Continue || runs == {} then m else RunsAt(m, FirstOf(runs), e, now)
  }

  ghost function SignalJobs(m: map<string, Job>, runs: map<string, AgentRun>, e: Event, now: nat): map<string, Job>
    requires e.AgentSignaled?
  {
    var jobs := JobsOfAgent(m, e.agent);
    if e.kind == Actions.Continue || RunsOfAgent(runs, e.agent) != {} || jobs == {} then m
    else JobsAt(m, FirstOf(jobs), e, now)
  }

  lemma SignalIs(s: State, e: Event, now: nat)
    requires e.AgentSignaled?
    ensures ApplySignal(s, e, now) == s.(jobs := SignalJobs(s.jobs, s.runs, e, now), runs := SignalRuns(s.runs, e, now))
  {
    hide JobsAt, RunsAt, RunsOfAgent, JobsOfAgent;
  }

  lemma SessionFrame(s: State, e: Event, now: nat)
    requires AboutSession(e)
    ensures Framed(s, ApplySession(s, e, now), e)
  {
    hide OwnedJobs, OwnedRuns, AllJobs, AllRuns, AllAgents, Without;
  }

  lemma SessionAgree(s: State, t: State, e: Event, now: nat)
    requires AboutSession(e) && Agree(s, t, e)
    ensures Agree(ApplySession(s, e, now), ApplySession(t, e, now), e)
  {
    hide OwnedJobs, OwnedRuns, AllJobs, AllRuns, AllAgents, Without;
  }

  lemma WorkspaceFrame(s: State, e: Event, now: nat)
    requires AboutWorkspace(e)
    ensures Framed(s, ApplyWorkspace(s, e, now), e)
  {
    hide OwnedJobs, WorkspacesAt, NewWorkspace, Without;
  }

  lemma WorkspaceAgree(s: State, t: State, e: Event, now: nat)
    requires AboutWorkspace(e) && Agree(s, t, e)
    ensures Agree(ApplyWorkspace(s, e, now), ApplyWorkspace(t, e, now), e)
  {
    hide OwnedJobs, WorkspacesAt, NewWorkspace, Without;
  }

  lemma WorkerFrame(s: State, e: Event)
    requires AboutWorker(e)
    ensures Framed(s, ApplyWorker(s, e), e)
  {
    hide Scoping.Scoped, Root, Without, WorkersAt;
  }

  lemma WorkerAgree(s: State, t: State, e: Event)
    requires AboutWorker(e) && Agree(s, t, e)
    ensures Agree(ApplyWorker(s, e), ApplyWorker(t, e), e)
  {
    hide Scoping.Scoped, Root, Without, WorkersAt;
  }

  lemma QueuesOnly(s: State, e: Event)
    requires AboutQueue(e)
    ensures var t := ApplyQueue(s, e); t == s.(queues := t.queues)
  {
    hide Scoping.Scoped, HasItem, ItemsAfter, ItemsWithout, AboutQueue;
  }

  lemma QueueFrame(s: State, e: Event)
    requires AboutQueue(e)
    ensures Framed(s, ApplyQueue(s, e), e)
  {
    hide Scoping.Scoped, HasItem, ItemsAfter, ItemsWithout;
  }

  lemma QueueAgree(s: State, t: State, e: Event)
    requires AboutQueue(e) && Agree(s, t, e)
    ensures Agree(ApplyQueue(s, e), ApplyQueue(t, e), e)
  {
    hide Scoping.Scoped, HasItem, ItemsAfter, ItemsWithout;
  }

  lemma CronFrame(s: State, e: Event, now: nat)
    requires AboutCron(e)
    ensures Framed(s, ApplyCron(s, e, now), e)
  {
    hide Scoping.Scoped, Root, Without, CronsAt;
  }

  lemma CronAgree(s: State, t: State, e: Event, now: nat)
    requires AboutCron(e) && Agree(s, t, e)
    ensures Agree(ApplyCron(s, e, now), ApplyCron(t, e, now), e)
  {
    hide Scoping.Scoped, Root, Without, CronsAt;
  }

  lemma DecisionFrame(s: State, e: Event, now: nat)
    requires AboutDecision(e)
    ensures Framed(s, ApplyDecision(s, e, now), e)
  {
    hide OwnedJobs, OwnedRuns, AllDecisions, DecisionsAt, NewDecision;
  }

  lemma DecisionAgree(s: State, t: State, e: Event, now: nat)
    requires AboutDecision(e) && Agree(s, t, e)
    ensures Agree(ApplyDecision(s, e, now), ApplyDecision(t, e, now), e)
  {
    hide OwnedJobs, OwnedRuns, AllDecisions, DecisionsAt, NewDecision;
  }

  lemma RunFrame(s: State, e: Event, now: nat)
    requires AboutRun(e)
    ensures Framed(s, ApplyRun(s, e, now), e)
  {
    hide RunsAt, NewRun, Without, AgentsNotOf, StartedRunAgents, DecisionsOnStatus;
  }

  lemma RunAgree(s: State, t: State, e: Event, now: nat)
    requires AboutRun(e) && Agree(s, t, e)
    ensures Agree(ApplyRun(s, e, now), ApplyRun(t, e, now), e)
  {
    hide RunsAt, NewRun, Without, AgentsNotOf, StartedRunAgents, DecisionsOnStatus;
  }

  // Every event leaves the tables alone that are not its own ...
  lemma Frame(s: State, e: Event, now: nat)
    ensures Framed(s, Apply(s, e, now), e)
  {
    hide Framed, ApplyJob, ApplyStep, ApplyAgent, ApplySignal, ApplySession, ApplyWorkspace, ApplyWorker, ApplyQueue,
         ApplyCron, ApplyDecision, ApplyRun, AboutJob, AboutStep, AboutAgent, AboutSession, AboutWorkspace,
         AboutWorker, AboutQueue, AboutCron, AboutDecision, AboutRun;
    if AboutJob(e) { JobFrame(s, e, now); }
    else if AboutStep(e) { StepFrame(s, e, now); }
    else if AboutAgent(e) { AgentFrame(s, e, now); }
    else if e.AgentSignaled? { SignalFrame(s, e, now); }
    else if AboutSession(e) { SessionFrame(s, e, now); }
    else if AboutWorkspace(e) { WorkspaceFrame(s, e, now); }
    else if AboutWorker(e) { WorkerFrame(s, e); }
    else if AboutQueue(e) { QueueFrame(s, e); }
    else if AboutCron(e) { CronFrame(s, e, now); }
    else if AboutDecision(e) { DecisionFrame(s, e, now); }
    else if AboutRun(e) { RunFrame(s, e, now); }
    else { Untouched(s, e); }
  }

  lemma Untouched(s: State, e: Event)
    ensures Framed(s, s, e)
  {
  }

  // ... and what it makes of its own depends on nothing else.
  lemma Locality(s: State, t: State, e: Event, now: nat)
    requires Agree(s, t, e)
    ensures Agree(Apply(s, e, now), Apply(t, e, now), e)
  {
    hide Agree, ApplyJob, ApplyStep, ApplyAgent, ApplySignal, ApplySession, ApplyWorkspace, ApplyWorker, ApplyQueue,
         ApplyCron, ApplyDecision, ApplyRun, AboutJob, AboutStep, AboutAgent, AboutSession, AboutWorkspace,
         AboutWorker, AboutQueue, AboutCron, AboutDecision, AboutRun;
    if AboutJob(e) { JobAgree(s, t, e, now); }
    else if AboutStep(e) { StepAgree(s, t, e, now); }
    else if AboutAgent(e) { AgentAgree(s, t, e, now); }
    else if e.AgentSignaled? { SignalAgree(s, t, e, now); }
    else if AboutSession(e) { SessionAgree(s, t, e, now); }
    else if AboutWorkspace(e) { WorkspaceAgree(s, t, e, now); }
    else if AboutWorker(e) { WorkerAgree(s, t, e); }
    else if AboutQueue(e) { QueueAgree(s, t, e); }
    else if AboutCron(e) { CronAgree(s, t, e, now); }
    else if AboutDecision(e) { DecisionAgree(s, t, e, now); }
    else if AboutRun(e) { RunAgree(s, t, e, now); }
  }

  // ------------------------------------------------------------- one queue

  function Pushed(e: Event): QueueItem
    requires e.QueuePushed?
  {
    QueueItem(e.item, e.queue, e.payload, ItemPending, None, e.at, 0)
  }

  // A queue after an event about one of its items.
  function QueueAfter(items: seq<QueueItem>, e: Event): seq<QueueItem>
    requires AboutQueue(e)
  {
    if e.QueuePushed? then (if HasItem(items, e.item) then items else items + [Pushed(e)])
    else if e.QueueDropped? then ItemsWithout(items, e.item)
    else ItemsAfter(items, e.item, e)
  }

  lemma QueueTable(s: State, e: Event, at: string)
    requires AboutQueue(e) && at == Scoping.Scoped(e.namespace, e.queue)
    ensures ApplyQueue(s, e).queues
            == if e.QueuePushed? || at in s.queues
               then s.queues[at := QueueAfter(if at in s.queues then s.queues[at] else [], e)] else s.queues
  {
    hide HasItem, ItemsWithout, ItemsAfter, Scoping.Scoped;
  }

  lemma QueueOnly(s: State, e: Event, now: nat)
    requires AboutQueue(e)
    ensures Apply(s, e, now) == ApplyQueue(s, e)
  {
    QueueEventsOnly(e);
    hide ApplyJob, ApplyStep, ApplyAgent, ApplySignal, ApplySession, ApplyWorkspace, ApplyWorker,
         ApplyQueue, ApplyCron, ApplyDecision, ApplyRun, AboutJob, AboutStep, AboutAgent, AboutSession,
         AboutWorkspace, AboutWorker, AboutQueue;
  }

  lemma QueueEventsOnly(e: Event)
    requires AboutQueue(e)
    ensures !AboutJob(e) && !AboutStep(e) && !AboutAgent(e) && !e.AgentSignaled? && !AboutSession(e)
    ensures !AboutWorkspace(e) && !AboutWorker(e)
  {
  }
}
