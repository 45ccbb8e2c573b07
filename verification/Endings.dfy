/** What any history leaves in the workers' lists and among the open decisions
    (crates/storage/src/state.rs), and so what is left of a job that ended or was deleted. */
module Endings {
  import opened Jobs
  import opened State
  import opened StateReferences
  import opened Tables
  import JobTables
  import Scoping = Names
  import Collapse
  import DaemonRuns

  // ------------------------------------------------------------- one event

  // The worker's list has the job.
  predicate Held(s: State, worker: string, job: string) {
    worker in s.workers && job in s.workers[worker].activeJobs
  }

  // The event gives the job to the worker, which is there.
  predicate Gives(s: State, e: Event, worker: string, job: string) {
    e.WorkerItemDispatched? && Scoping.Scoped(e.namespace, e.worker) == worker && e.job == job && worker in s.workers
  }

  // The event ends the job: it is not there already, or is there and has failed.
  predicate Ends(s: State, e: Event, job: string) {
    e.JobAdvanced? && e.job == job && TerminalStep(e.step) && !Stays(s.jobs, e)
  }

  predicate Takes(s: State, e: Event, worker: string, job: string) {
    Ends(s, e, job) || (e.WorkerDeleted? && Scoping.Scoped(e.namespace, e.worker) == worker)
  }

  lemma HeldStep(s: State, e: Event, now: nat, worker: string, job: string)
    ensures Held(Apply(s, e, now), worker, job) <==>
              Gives(s, e, worker, job) || (Held(s, worker, job) && !Takes(s, e, worker, job))
  {
    if AboutWorker(e) {
      WorkersOnly(s, e, now);
      HeldByWorker(s, e, worker, job);
      WorkersEndNothing(s, e, worker, job);
    } else if e.JobAdvanced? {
      HeldOnAdvance(s, e, now, worker, job);
    } else {
      Elsewhere(s, e, now);
      OthersHoldNothing(s, e, worker, job);
    }
    hide Apply, ApplyWorker, AboutWorker, Ends;
  }

  lemma WorkersEndNothing(s: State, e: Event, worker: string, job: string)
    requires AboutWorker(e)
    ensures Takes(s, e, worker, job) <==> e.WorkerDeleted? && Scoping.Scoped(e.namespace, e.worker) == worker
  {
    hide Scoping.Scoped;
  }

  lemma OthersHoldNothing(s: State, e: Event, worker: string, job: string)
    requires !AboutWorker(e) && !e.JobAdvanced?
    ensures !Gives(s, e, worker, job) && !Takes(s, e, worker, job)
  {
    hide Scoping.Scoped;
  }

  lemma Elsewhere(s: State, e: Event, now: nat)
    ensures !AboutWorker(e) && !e.JobAdvanced? ==> Apply(s, e, now).workers == s.workers
    ensures !UsesDecisions(e) ==> Apply(s, e, now).decisions == s.decisions
  {
    Frame(s, e, now);
    hide Apply, UsesJobs, UsesRuns, UsesDecisions, UsesAgents, AboutSession, AboutQueue, AboutWorker;
  }

  lemma WorkersOnly(s: State, e: Event, now: nat)
    requires AboutWorker(e)
    ensures Apply(s, e, now) == ApplyWorker(s, e)
  {
    WorkerEvents(e);
    hide ApplyJob, ApplyStep, ApplyAgent, ApplySignal, ApplySession, ApplyWorkspace, ApplyWorker, ApplyQueue, ApplyCron,
         ApplyDecision, ApplyRun, AboutJob, AboutStep, AboutAgent, AboutSession, AboutWorkspace, AboutWorker;
  }

  lemma WorkerEvents(e: Event)
    requires AboutWorker(e)
    ensures !AboutJob(e) && !AboutStep(e) && !AboutAgent(e) && !e.AgentSignaled? && !AboutSession(e)
    ensures !AboutWorkspace(e)
  {
  }

  lemma HeldByWorker(s: State, e: Event, worker: string, job: string)
    requires AboutWorker(e)
    ensures Held(ApplyWorker(s, e), worker, job) <==>
              Gives(s, e, worker, job)
              || (Held(s, worker, job) && !(e.WorkerDeleted? && Scoping.Scoped(e.namespace, e.worker) == worker))
  {
    if e.WorkerStarted? {
      HeldByStarted(s, e, worker, job);
    } else {
      WorkersAfter(s, e);
      if !e.CommandRun? { HeldInTable(s.workers, e, Scoping.Scoped(e.namespace, e.worker), worker, job); }
      hide ApplyWorker, Scoping.Scoped, Without, WorkersAt, AboutWorker;
    }
  }

  lemma HeldInTable(m: map<string, Worker>, e: Event, key: string, worker: string, job: string)
    ensures var n := if e.WorkerDeleted? then Without(m, key) else WorkersAt(m, key, e);
            e.WorkerDeleted? || e.WorkerStopped? || e.WorkerResized? || e.WorkerItemDispatched? ==>
              (worker in n && job in n[worker].activeJobs <==>
                 (e.WorkerItemDispatched? && key == worker && e.job == job && worker in m)
                 || (worker in m && job in m[worker].activeJobs && !(e.WorkerDeleted? && key == worker)))
  {
  }

  lemma HeldByStarted(s: State, e: Event, worker: string, job: string)
    requires e.WorkerStarted?
    ensures Held(ApplyWorker(s, e), worker, job) <==> Held(s, worker, job)
  {
    hide Root, Scoping.Scoped;
  }

  lemma WorkersAfter(s: State, e: Event)
    requires AboutWorker(e) && !e.WorkerStarted?
    ensures ApplyWorker(s, e).workers
         == if e.CommandRun? then s.workers
            else var key := Scoping.Scoped(e.namespace, e.worker);
                 if e.WorkerDeleted? then Without(s.workers, key) else WorkersAt(s.workers, key, e)
  {
    hide Root, Scoping.Scoped, Without, WorkersAt;
  }

  lemma HeldOnAdvance(s: State, e: Event, now: nat, worker: string, job: string)
    requires e.JobAdvanced?
    ensures Held(Apply(s, e, now), worker, job) <==> Held(s, worker, job) && !Ends(s, e, job)
  {
    if TerminalStep(e.step) {
      EndingClears(s, e, now, worker, job, "");
      hide Apply, TerminalStep, Stays;
    } else {
      GoingOn(s, e, now);
      hide Apply, TerminalStep, Stays;
    }
  }

  // A job that merely goes on leaves workers and decisions alone.
  lemma GoingOn(s: State, e: Event, now: nat)
    requires e.JobAdvanced? && !TerminalStep(e.step)
    ensures var t := Apply(s, e, now); t.workers == s.workers && t.decisions == s.decisions
  {
    hide JobsAt, Stays, TerminalStep;
    assert Apply(s, e, now) == ApplyJob(s, e, now);
    hide Apply;
  }

  // A decision of the job that nobody has taken.
  predicate Undecided(s: State, decision: string, job: string) {
    decision in s.decisions && s.decisions[decision].jobId == job && Open(s.decisions[decision])
  }

  // The event asks for it, and it is new.
  predicate Asks(s: State, e: Event, decision: string, job: string) {
    e.DecisionCreated? && e.decision == decision && e.decisionJob == job && decision !in s.decisions
  }

  // The event takes it, replaces it by another one of its owner, or drops it with its job or agent run.
  predicate Settles(s: State, e: Event, decision: string, job: string) {
    Ends(s, e, job) || (e.JobDeleted? && e.job == job) || (e.DecisionResolved? && e.decision == decision)
    || (decision in s.decisions && SettlesOwner(s, e, s.decisions[decision].owner))
  }

  predicate SettlesOwner(s: State, e: Event, owner: Owner) {
    (e.DecisionCreated? && e.decision !in s.decisions && e.owner == owner)
    || (e.AgentRunStatusChanged? && TerminalRun(e.status) && owner == RunOwner(e.run))
  }

  lemma UndecidedStep(s: State, e: Event, now: nat, decision: string, job: string)
    ensures Undecided(Apply(s, e, now), decision, job) <==>
              Asks(s, e, decision, job) || (Undecided(s, decision, job) && !Settles(s, e, decision, job))
  {
    if AboutDecision(e) {
      UndecidedOnDecision(s, e, now, decision, job);
    } else if e.JobAdvanced? {
      UndecidedOnAdvance(s, e, now, decision, job);
    } else if e.JobDeleted? {
      UndecidedOnDelete(s, e, now, decision, job);
    } else if e.AgentRunStatusChanged? {
      UndecidedOnStatus(s, e, now, decision, job);
    } else {
      Elsewhere(s, e, now);
      OthersSettleNothing(s, e, decision, job);
    }
    hide Apply, AboutDecision, TerminalStep, Stays, TerminalRun;
  }

  lemma OthersSettleNothing(s: State, e: Event, decision: string, job: string)
    requires !UsesDecisions(e)
    ensures !Asks(s, e, decision, job) && !Settles(s, e, decision, job)
  {
  }

  lemma UndecidedOnDecision(s: State, e: Event, now: nat, decision: string, job: string)
    requires AboutDecision(e)
    ensures Undecided(Apply(s, e, now), decision, job) <==>
              Asks(s, e, decision, job) || (Undecided(s, decision, job) && !Settles(s, e, decision, job))
  {
    DecisionsApply(s, e, now);
    hide Apply;
    if e.DecisionCreated? && e.decision !in s.decisions {
      NewSupersedes(s, e, now, decision);
      KeepsJob(s, e, now, decision);
      hide ApplyDecision;
    } else {
      hide OwnedJobs, OwnedRuns;
    }
  }

  lemma KeepsJob(s: State, e: Event, now: nat, decision: string)
    requires e.DecisionCreated? && e.decision !in s.decisions
    ensures var t := ApplyDecision(s, e, now).decisions;
            && e.decision in t && t[e.decision].jobId == e.decisionJob
            && (decision in s.decisions ==> decision in t && t[decision].jobId == s.decisions[decision].jobId)
  {
    hide OwnedJobs, OwnedRuns;
  }

  lemma DecisionsApply(s: State, e: Event, now: nat)
    requires AboutDecision(e)
    ensures Apply(s, e, now) == ApplyDecision(s, e, now)
  {
    DecisionEvents(e);
    hide ApplyJob, ApplyStep, ApplyAgent, ApplySignal, ApplySession, ApplyWorkspace, ApplyWorker, ApplyQueue, ApplyCron,
         ApplyDecision, ApplyRun, AboutJob, AboutStep, AboutAgent, AboutSession, AboutWorkspace, AboutWorker,
         AboutQueue, AboutCron, AboutDecision;
  }

  lemma DecisionEvents(e: Event)
    requires AboutDecision(e)
    ensures !AboutJob(e) && !AboutStep(e) && !AboutAgent(e) && !e.AgentSignaled? && !AboutSession(e)
    ensures !AboutWorkspace(e)
    ensures !AboutWorker(e) && !AboutQueue(e) && !AboutCron(e)
  {
  }

  lemma UndecidedOnAdvance(s: State, e: Event, now: nat, decision: string, job: string)
    requires e.JobAdvanced?
    ensures Undecided(Apply(s, e, now), decision, job) <==> Undecided(s, decision, job) && !Ends(s, e, job)
  {
    if TerminalStep(e.step) {
      EndingClears(s, e, now, "", job, decision);
      EndingKeeps(s, e, now, decision);
    } else {
      GoingOn(s, e, now);
    }
    hide Apply, TerminalStep, Stays;
  }

  lemma EndingKeeps(s: State, e: Event, now: nat, decision: string)
    requires e.JobAdvanced?
    ensures var t := Apply(s, e, now).decisions;
            decision in t ==> decision in s.decisions && t[decision] == s.decisions[decision]
  {
    DecisionsAdvance(s, e, now);
    hide Apply, Stays, TerminalStep;
  }

  lemma DecisionsAdvance(s: State, e: Event, now: nat)
    requires e.JobAdvanced?
    ensures Apply(s, e, now).decisions == if Stays(s.jobs, e) then s.decisions else DecisionsOnEntry(s.decisions, e)
  {
    hide JobsAt, Stays, WorkersOnEntry, DecisionsOnEntry;
    assert Apply(s, e, now) == ApplyJob(s, e, now);
    hide Apply;
  }

  lemma UndecidedOnDelete(s: State, e: Event, now: nat, decision: string, job: string)
    requires e.JobDeleted?
    ensures Undecided(Apply(s, e, now), decision, job) <==> Undecided(s, decision, job) && e.job != job
  {
    hide Without, AgentsNotOf;
    assert Apply(s, e, now) == ApplyJob(s, e, now);
    hide Apply;
  }

  lemma UndecidedOnStatus(s: State, e: Event, now: nat, decision: string, job: string)
    requires e.AgentRunStatusChanged?
    ensures Undecided(Apply(s, e, now), decision, job) <==>
              Undecided(s, decision, job) && !(TerminalRun(e.status) && s.decisions[decision].owner == RunOwner(e.run))
  {
    hide RunsAt, TerminalRun;
    assert Apply(s, e, now) == ApplyRun(s, e, now);
    hide Apply;
  }

  // ------------------------------------------------------------- deleted

  predicate NoDecision(m: map<string, Decision>, job: string) { forall k :: k in m ==> m[k].jobId != job }

  predicate NoAgent(m: map<string, Agent>, job: string) { forall k :: k in m ==> m[k].owner != JobOwner(job) }

  // Nothing is left of the job.
  predicate Gone(s: State, job: string) { job !in s.jobs && NoDecision(s.decisions, job) && NoAgent(s.agents, job) }

  // The event makes something of the job again.
  predicate Revives(e: Event, job: string) {
    (e.JobCreated? && e.job == job) || (e.DecisionCreated? && e.decisionJob == job)
  }

  lemma DeletedIsGone(s: State, job: string, now: nat)
    ensures Gone(Apply(s, JobDeleted(job), now), job)
  {
    var t := Apply(s, JobDeleted(job), now);
    hide Apply;
    DeletingClears(s, job, now, "");
    forall k | k in t.decisions ensures t.decisions[k].jobId != job { DeletingClears(s, job, now, k); }
    forall k | k in t.agents ensures t.agents[k].owner != JobOwner(job) { DeletingClears(s, job, now, k); }
  }

  lemma GoneStep(s: State, e: Event, now: nat, job: string)
    requires Gone(s, job) && !Revives(e, job)
    ensures Gone(Apply(s, e, now), job)
  {
    NoJobStep(s, e, now, job);
    NoDecisionStep(s, e, now, job);
    NoAgentStep(s, e, now, job);
    hide Apply, NoDecision, NoAgent;
  }

  lemma NoJobStep(s: State, e: Event, now: nat, job: string)
    requires job !in s.jobs && !Revives(e, job)
    ensures job !in Apply(s, e, now).jobs
  {
    if AboutJob(e) || AboutStep(e) {
      if e.job == job { JobTables.OwnJob(s, e, now); } else { JobTables.OtherJobsStay(s, e, now, job); }
    } else {
      JobTables.ElsewhereTouches(s, e, now, job);
    }
    hide Apply, JobAfter, AboutJob, AboutStep, NewJob;
  }

  lemma NoDecisionStep(s: State, e: Event, now: nat, job: string)
    requires NoDecision(s.decisions, job) && !Revives(e, job)
    ensures NoDecision(Apply(s, e, now).decisions, job)
  {
    hide Apply, NoDecision;
    if AboutDecision(e) {
      NoNewDecision(s, e, now, job);
    } else if e.JobAdvanced? {
      DecisionsAdvance(s, e, now);
      FewerDecisions(s.decisions, e.job, "", job);
    } else if e.JobDeleted? || e.AgentRunStatusChanged? {
      DecisionsDrop(s, e, now);
      FewerDecisions(s.decisions, if e.JobDeleted? then e.job else "", if e.JobDeleted? then "" else e.run, job);
    } else {
      Elsewhere(s, e, now);
    }
    hide Stays, TerminalStep, DecisionsNotOf, DecisionsNotOfRun;
  }

  lemma NoNewDecision(s: State, e: Event, now: nat, job: string)
    requires AboutDecision(e) && NoDecision(s.decisions, job) && !Revives(e, job)
    ensures NoDecision(Apply(s, e, now).decisions, job)
  {
    DecisionsApply(s, e, now);
    hide OwnedJobs, OwnedRuns, Apply;
  }

  lemma DecisionsDrop(s: State, e: Event, now: nat)
    requires e.JobDeleted? || e.AgentRunStatusChanged?
    ensures Apply(s, e, now).decisions
         == if e.JobDeleted? then DecisionsNotOf(s.decisions, e.job, true)
            else DecisionsOnStatus(s.decisions, e.run, e.status)
  {
    hide AgentsNotOf, Without, RunsAt, DecisionsNotOf, DecisionsOnStatus;
    if e.JobDeleted? {
      assert Apply(s, e, now) == ApplyJob(s, e, now);
      hide Apply;
    } else {
      assert Apply(s, e, now) == ApplyRun(s, e, now);
      hide Apply;
    }
  }

  lemma FewerDecisions(m: map<string, Decision>, of: string, run: string, job: string)
    requires NoDecision(m, job)
    ensures NoDecision(DecisionsNotOf(m, of, true), job) && NoDecision(DecisionsNotOf(m, of, false), job)
    ensures NoDecision(DecisionsNotOfRun(m, run), job)
  {
  }

  lemma NoAgentStep(s: State, e: Event, now: nat, job: string)
    requires job !in s.jobs && NoAgent(s.agents, job)
    ensures NoAgent(Apply(s, e, now).agents, job)
  {
    if UsesAgents(e) {
      AgentsChange(s, e, now, job);
    } else {
      Frame(s, e, now);
    }
    hide Apply, UsesJobs, UsesRuns, UsesDecisions, UsesAgents, AboutSession, AboutQueue, AboutWorker, NoAgent;
  }

  lemma AgentsChange(s: State, e: Event, now: nat, job: string)
    requires job !in s.jobs && NoAgent(s.agents, job) && UsesAgents(e)
    ensures NoAgent(Apply(s, e, now).agents, job)
  {
    AgentsKept(s.agents, e, now, job);
    if AboutRun(e) { RunsKept(s, e, now, job); } else { AgentsBy(s, e, now); }
    if e.StepStarted? { StartedKept(s, e, now, job); }
    hide Apply, NoAgent, AgentsNotOf, AgentsAt, AllAgents, StartedAgents;
  }

  lemma AgentsBy(s: State, e: Event, now: nat)
    requires UsesAgents(e) && !AboutRun(e)
    ensures Apply(s, e, now).agents
         == if e.JobDeleted? then AgentsNotOf(s.agents, JobOwner(e.job))
            else if e.StepStarted? then StartedAgents(s.agents, s.jobs, e, now)
            else if AboutAgent(e) then AgentsAt(s.agents, e.agent, e, now) else AllAgents(s.agents, e, now)
  {
    if e.JobDeleted? || e.StepStarted? { AgentsOfJobs(s, e, now); } else { AgentsThemselves(s, e, now); }
    hide Apply, AgentsNotOf, AgentsAt, AllAgents, StartedAgents;
  }

  lemma AgentsOfJobs(s: State, e: Event, now: nat)
    requires e.JobDeleted? || e.StepStarted?
    ensures Apply(s, e, now).agents
         == if e.JobDeleted? then AgentsNotOf(s.agents, JobOwner(e.job)) else StartedAgents(s.agents, s.jobs, e, now)
  {
    hide AgentsNotOf, StartedAgents, JobsAt, Without, DecisionsNotOf;
    if e.JobDeleted? { assert Apply(s, e, now) == ApplyJob(s, e, now); hide Apply; }
    else { assert Apply(s, e, now) == ApplyStep(s, e, now); hide Apply; }
  }

  lemma AgentsThemselves(s: State, e: Event, now: nat)
    requires AboutAgent(e) || AboutSession(e)
    ensures Apply(s, e, now).agents
         == if AboutAgent(e) then AgentsAt(s.agents, e.agent, e, now) else AllAgents(s.agents, e, now)
  {
    AgentsApply(s, e, now);
    hide Apply, AgentsAt, AllAgents, OwnedJobs, OwnedRuns, AllJobs, AllRuns, Without;
  }

  lemma AgentsApply(s: State, e: Event, now: nat)
    requires AboutAgent(e) || AboutSession(e)
    ensures Apply(s, e, now) == if AboutAgent(e) then ApplyAgent(s, e, now) else ApplySession(s, e, now)
  {
    AgentEvents(e);
    hide ApplyJob, ApplyStep, ApplyAgent, ApplySignal, ApplySession, ApplyWorkspace, ApplyWorker, ApplyQueue, ApplyCron,
         ApplyDecision, ApplyRun, AboutJob, AboutStep, AboutAgent, AboutSession;
  }

  lemma AgentEvents(e: Event)
    requires AboutAgent(e) || AboutSession(e)
    ensures !AboutJob(e) && !AboutStep(e) && !e.AgentSignaled? && !(AboutAgent(e) && AboutSession(e))
  {
  }

  lemma RunsKept(s: State, e: Event, now: nat, job: string)
    requires AboutRun(e) && NoAgent(s.agents, job)
    ensures NoAgent(Apply(s, e, now).agents, job)
  {
    RunsApply(s, e, now);
    AgentsOfRuns(s, e, now);
    AgentsKept(s.agents, e, now, job);
    if e.AgentRunStarted? { StartedRunKept(s, e, now, job); }
    hide Apply, ApplyRun, NoAgent, AgentsNotOf, AgentsAt, AllAgents, StartedRunAgents;
  }

  lemma AgentsOfRuns(s: State, e: Event, now: nat)
    requires AboutRun(e)
    ensures ApplyRun(s, e, now).agents
         == if e.AgentRunDeleted? then AgentsNotOf(s.agents, RunOwner(e.run))
            else if e.AgentRunStarted? then StartedRunAgents(s.agents, s.runs, e, now) else s.agents
  {
    hide AgentsNotOf, StartedRunAgents, RunsAt, Without, DecisionsOnStatus, NewRun;
  }

  lemma RunsApply(s: State, e: Event, now: nat)
    requires AboutRun(e)
    ensures Apply(s, e, now) == ApplyRun(s, e, now)
  {
    RunEvents(e);
    hide ApplyJob, ApplyStep, ApplyAgent, ApplySignal, ApplySession, ApplyWorkspace, ApplyWorker, ApplyQueue, ApplyCron,
         ApplyDecision, ApplyRun, AboutJob, AboutStep, AboutAgent, AboutSession, AboutWorkspace, AboutWorker,
         AboutQueue, AboutCron, AboutDecision, AboutRun;
  }

  lemma RunEvents(e: Event)
    requires AboutRun(e)
    ensures !AboutJob(e) && !AboutStep(e) && !AboutAgent(e) && !e.AgentSignaled? && !AboutSession(e)
    ensures !AboutWorkspace(e)
    ensures !AboutWorker(e) && !AboutQueue(e) && !AboutCron(e) && !AboutDecision(e)
  {
  }

  lemma AgentsKept(m: map<string, Agent>, e: Event, now: nat, job: string)
    requires NoAgent(m, job)
    ensures NoAgent(AllAgents(m, e, now), job) && (AboutAgent(e) ==> NoAgent(AgentsAt(m, e.agent, e, now), job))
    ensures forall owner :: NoAgent(AgentsNotOf(m, owner), job)
  {
  }

  lemma StartedKept(s: State, e: Event, now: nat, job: string)
    requires e.StepStarted? && job !in s.jobs && NoAgent(s.agents, job)
    ensures NoAgent(StartedAgents(s.agents, s.jobs, e, now), job)
  {
  }

  lemma StartedRunKept(s: State, e: Event, now: nat, job: string)
    requires e.AgentRunStarted? && NoAgent(s.agents, job)
    ensures NoAgent(StartedRunAgents(s.agents, s.runs, e, now), job)
  {
  }

  // ------------------------------------------------------------- any history

  ghost function Past(history: seq<Event>, n: nat): State
    requires n <= |history|
  {
    Collapse.Fold(DaemonRuns.Daemon(), history[..n])
  }

  lemma PastNext(history: seq<Event>, n: nat)
    requires n < |history|
    ensures Past(history, n + 1) == Apply(Past(history, n), history[n], 0)
    ensures Past(history, |history|) == Collapse.Fold(DaemonRuns.Daemon(), history)
  {
    assert history[..n + 1] == history[..n] + [history[n]] && history[..|history|] == history;
    Collapse.FoldSnoc(DaemonRuns.Daemon(), history[..n], history[n]);
    hide Collapse.Fold, Apply;
  }

  // Raised before `n`, and not lowered since.
  ghost predicate Up(raised: nat -> bool, lowered: nat -> bool, n: nat) {
    exists i: nat :: i < n && raised(i) && Unlowered(lowered, i, n)
  }

  ghost predicate Unlowered(lowered: nat -> bool, from: nat, n: nat) { forall j: nat :: from < j < n ==> !lowered(j) }

  lemma UpNext(raised: nat -> bool, lowered: nat -> bool, n: nat)
    ensures !Up(raised, lowered, 0)
    ensures Up(raised, lowered, n + 1) <==> raised(n) || (Up(raised, lowered, n) && !lowered(n))
  {
    if raised(n) { assert Unlowered(lowered, n, n + 1); }
    if Up(raised, lowered, n) && !lowered(n) {
      var i: nat :| i < n && raised(i) && Unlowered(lowered, i, n);
      assert Unlowered(lowered, i, n + 1);
    }
    if Up(raised, lowered, n + 1) && !raised(n) {
      var i: nat :| i < n + 1 && raised(i) && Unlowered(lowered, i, n + 1);
      assert i < n && Unlowered(lowered, i, n);
    }
  }

  ghost predicate GivenAt(history: seq<Event>, i: nat, worker: string, job: string) {
    i < |history| && Gives(Past(history, i), history[i], worker, job)
  }

  ghost predicate TakenAt(history: seq<Event>, i: nat, worker: string, job: string) {
    i < |history| && Takes(Past(history, i), history[i], worker, job)
  }

  ghost predicate AskedAt(history: seq<Event>, i: nat, decision: string, job: string) {
    i < |history| && Asks(Past(history, i), history[i], decision, job)
  }

  ghost predicate SettledAt(history: seq<Event>, i: nat, decision: string, job: string) {
    i < |history| && Settles(Past(history, i), history[i], decision, job)
  }

  ghost function Given(history: seq<Event>, worker: string, job: string): nat -> bool {
    (i: nat) => GivenAt(history, i, worker, job)
  }

  ghost function Taken(history: seq<Event>, worker: string, job: string): nat -> bool {
    (i: nat) => TakenAt(history, i, worker, job)
  }

  ghost function Asked(history: seq<Event>, decision: string, job: string): nat -> bool {
    (i: nat) => AskedAt(history, i, decision, job)
  }

  ghost function Settled(history: seq<Event>, decision: string, job: string): nat -> bool {
    (i: nat) => SettledAt(history, i, decision, job)
  }

  lemma Means(history: seq<Event>, n: nat, worker: string, decision: string, job: string)
    ensures Given(history, worker, job)(n) == GivenAt(history, n, worker, job)
    ensures Taken(history, worker, job)(n) == TakenAt(history, n, worker, job)
    ensures Asked(history, decision, job)(n) == AskedAt(history, n, decision, job)
    ensures Settled(history, decision, job)(n) == SettledAt(history, n, decision, job)
  {
    hide GivenAt, TakenAt, AskedAt, SettledAt;
  }

  lemma {:induction false} HeldUpTo(history: seq<Event>, n: nat, worker: string, job: string)
    requires n <= |history|
    ensures Held(Past(history, n), worker, job) <==>
              Up(Given(history, worker, job), Taken(history, worker, job), n)
  {
    hide *;
    if n == 0 {
      NothingPast(history, worker, "", job);
      UpNext(Given(history, worker, job), Taken(history, worker, job), 0);
    } else {
      HeldUpTo(history, n - 1, worker, job);
      HeldNext(history, n - 1, worker, job);
      Means(history, n - 1, worker, "", job);
      UpNext(Given(history, worker, job), Taken(history, worker, job), n - 1);
    }
  }

  lemma NothingPast(history: seq<Event>, worker: string, decision: string, job: string)
    ensures !Held(Past(history, 0), worker, job) && !Undecided(Past(history, 0), decision, job)
  {
    assert Past(history, 0) == EMPTY;
    hide Past;
  }

  lemma HeldNext(history: seq<Event>, n: nat, worker: string, job: string)
    requires n < |history|
    ensures Held(Past(history, n + 1), worker, job) <==>
              GivenAt(history, n, worker, job)
              || (Held(Past(history, n), worker, job) && !TakenAt(history, n, worker, job))
  {
    PastNext(history, n);
    HeldStep(Past(history, n), history[n], 0, worker, job);
    hide Apply, Past, Held, Gives, Takes;
  }

  lemma {:induction false} UndecidedUpTo(history: seq<Event>, n: nat, decision: string, job: string)
    requires n <= |history|
    ensures Undecided(Past(history, n), decision, job) <==>
              Up(Asked(history, decision, job), Settled(history, decision, job), n)
  {
    hide *;
    if n == 0 {
      NothingPast(history, "", decision, job);
      UpNext(Asked(history, decision, job), Settled(history, decision, job), 0);
    } else {
      UndecidedUpTo(history, n - 1, decision, job);
      UndecidedNext(history, n - 1, decision, job);
      Means(history, n - 1, "", decision, job);
      UpNext(Asked(history, decision, job), Settled(history, decision, job), n - 1);
    }
  }

  lemma UndecidedNext(history: seq<Event>, n: nat, decision: string, job: string)
    requires n < |history|
    ensures Undecided(Past(history, n + 1), decision, job) <==>
              AskedAt(history, n, decision, job)
              || (Undecided(Past(history, n), decision, job) && !SettledAt(history, n, decision, job))
  {
    PastNext(history, n);
    UndecidedStep(Past(history, n), history[n], 0, decision, job);
    hide Apply, Past, Undecided, Asks, Settles;
  }

  // Given at `i`, and not taken since.
  ghost predicate GivenFor(history: seq<Event>, i: nat, worker: string, job: string) {
    GivenAt(history, i, worker, job) && forall j: nat :: i < j < |history| ==> !TakenAt(history, j, worker, job)
  }

  // For every history: a worker's list has a job exactly if that was given to it and not taken since,
  // by the job's end or the worker's deletion. Deleting the job does not take it.
  lemma HeldIff(history: seq<Event>, worker: string, job: string)
    ensures Held(Collapse.Fold(DaemonRuns.Daemon(), history), worker, job) <==>
              exists i: nat :: GivenFor(history, i, worker, job)
  {
    hide *;
    HeldUpTo(history, |history|, worker, job);
    WholePast(history);
    GivenIsUp(history, worker, job);
  }

  lemma GivenIsUp(history: seq<Event>, worker: string, job: string)
    ensures Up(Given(history, worker, job), Taken(history, worker, job), |history|) <==>
              exists i: nat :: GivenFor(history, i, worker, job)
  {
    var given, taken := Given(history, worker, job), Taken(history, worker, job);
    GivenThere(history, worker, job);
    hide GivenAt, TakenAt;
    if Up(given, taken, |history|) {
      var i: nat :| i < |history| && given(i) && Unlowered(taken, i, |history|);
      forall j: nat | i < j < |history| ensures !TakenAt(history, j, worker, job) { assert !taken(j); }
      assert GivenFor(history, i, worker, job);
    }
    if i: nat :| GivenFor(history, i, worker, job) {
      assert given(i) && Unlowered(taken, i, |history|);
    }
  }

  lemma GivenThere(history: seq<Event>, worker: string, job: string)
    ensures forall i: nat :: GivenAt(history, i, worker, job) ==> i < |history|
  {
    hide Past, Gives;
  }

  // Asked for at `i`, and not settled since.
  ghost predicate AskedFor(history: seq<Event>, i: nat, decision: string, job: string) {
    AskedAt(history, i, decision, job) && forall j: nat :: i < j < |history| ==> !SettledAt(history, j, decision, job)
  }

  // And a decision of a job is open exactly if it was asked for and not settled since.
  lemma UndecidedIff(history: seq<Event>, decision: string, job: string)
    ensures Undecided(Collapse.Fold(DaemonRuns.Daemon(), history), decision, job) <==>
              exists i: nat :: AskedFor(history, i, decision, job)
  {
    hide *;
    UndecidedUpTo(history, |history|, decision, job);
    WholePast(history);
    AskedIsUp(history, decision, job);
  }

  lemma AskedIsUp(history: seq<Event>, decision: string, job: string)
    ensures Up(Asked(history, decision, job), Settled(history, decision, job), |history|)
            <==> exists i: nat :: AskedFor(history, i, decision, job)
  {
    var asked, settled := Asked(history, decision, job), Settled(history, decision, job);
    AskedThere(history, decision, job);
    hide AskedAt, SettledAt;
    if Up(asked, settled, |history|) {
      var i: nat :| i < |history| && asked(i) && Unlowered(settled, i, |history|);
      forall j: nat | i < j < |history| ensures !SettledAt(history, j, decision, job) { assert !settled(j); }
      assert AskedFor(history, i, decision, job);
    }
    if i: nat :| AskedFor(history, i, decision, job) {
      assert asked(i) && Unlowered(settled, i, |history|);
    }
  }

  lemma AskedThere(history: seq<Event>, decision: string, job: string)
    ensures forall i: nat :: AskedAt(history, i, decision, job) ==> i < |history|
  {
    hide Past, Asks;
  }

  lemma WholePast(history: seq<Event>)
    ensures Past(history, |history|) == Collapse.Fold(DaemonRuns.Daemon(), history)
  {
    assert history[..|history|] == history;
    hide Collapse.Fold;
  }

  // So once a job has ended, no worker's list has it and no decision of it is open, until it is
  // dispatched or asked about again.
  lemma EndedLeavesNothing(history: seq<Event>, i: nat, job: string, worker: string, decision: string)
    requires i < |history| && Ends(Past(history, i), history[i], job)
    requires forall j :: i < j < |history| ==>
               !(history[j].WorkerItemDispatched? && history[j].job == job)
               && !(history[j].DecisionCreated? && history[j].decisionJob == job)
    ensures var s := Collapse.Fold(DaemonRuns.Daemon(), history); !Held(s, worker, job) && !Undecided(s, decision, job)
  {
    HeldIff(history, worker, job);
    UndecidedIff(history, decision, job);
    hide Collapse.Fold, Held, Undecided, Past, Ends;
    forall k: nat ensures !GivenFor(history, k, worker, job) && !AskedFor(history, k, decision, job) {
      NeitherSince(history, i, k, job, worker, decision);
    }
  }

  lemma NeitherSince(history: seq<Event>, i: nat, k: nat, job: string, worker: string, decision: string)
    requires i < |history| && Ends(Past(history, i), history[i], job)
    requires forall j :: i < j < |history| ==>
               !(history[j].WorkerItemDispatched? && history[j].job == job)
               && !(history[j].DecisionCreated? && history[j].decisionJob == job)
    ensures !GivenFor(history, k, worker, job) && !AskedFor(history, k, decision, job)
  {
    EndsBoth(history, i, job, worker, decision);
    if i < k < |history| { NotAgain(history, k, job, worker, decision); }
    GivenThere(history, worker, job);
    AskedThere(history, decision, job);
    hide Past, GivenAt, TakenAt, AskedAt, SettledAt, Ends;
  }

  // At the end of a job it is taken from every worker that has it, and its open decisions are settled.
  lemma EndsBoth(history: seq<Event>, i: nat, job: string, worker: string, decision: string)
    requires i < |history| && Ends(Past(history, i), history[i], job)
    ensures TakenAt(history, i, worker, job) && !GivenAt(history, i, worker, job) && !AskedAt(history, i, decision, job)
    ensures SettledAt(history, i, decision, job)
  {
    hide Past, Scoping.Scoped;
  }

  lemma NotAgain(history: seq<Event>, k: nat, job: string, worker: string, decision: string)
    requires k < |history|
    requires !(history[k].WorkerItemDispatched? && history[k].job == job)
    requires !(history[k].DecisionCreated? && history[k].decisionJob == job)
    ensures !GivenAt(history, k, worker, job) && !AskedAt(history, k, decision, job)
  {
    hide Past, Scoping.Scoped;
  }

  // And once it is deleted, nothing is left of it in the jobs, decisions and agents, until it is made
  // or asked about again.
  lemma {:induction false} DeletedLeavesNothing(history: seq<Event>, i: nat, n: nat, job: string)
    requires i < n <= |history| && history[i] == JobDeleted(job)
    requires forall j :: i < j < n ==> !Revives(history[j], job)
    ensures Gone(Past(history, n), job)
    decreases n
  {
    PastNext(history, n - 1);
    if n - 1 == i {
      DeletedIsGone(Past(history, i), job, 0);
    } else {
      DeletedLeavesNothing(history, i, n - 1, job);
      GoneStep(Past(history, n - 1), history[n - 1], 0, job);
    }
    hide Apply, Past, Gone, Revives;
  }
}
