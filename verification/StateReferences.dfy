/** How the tables of the state refer to one another (crates/storage/src/state.rs): sessions,
    decisions and the jobs of workers. */
module StateReferences {
  import opened Wrappers
  import opened Actions
  import opened Jobs
  import opened State
  import opened Tables
  import Scoping = Names
  import Collapse
  import DaemonRuns

  // ------------------------------------------------------------- sessions

  predicate Linked(id: Option<string>, sessions: map<string, Session>) { id.Some? ==> id.value in sessions }

  predicate JobsLinked(m: map<string, Job>, sessions: map<string, Session>) {
    forall k :: k in m ==> Linked(m[k].sessionId, sessions)
  }

  predicate RunsLinked(m: map<string, AgentRun>, sessions: map<string, Session>) {
    forall k :: k in m ==> Linked(m[k].sessionId, sessions)
  }

  predicate AgentsLinked(m: map<string, Agent>, sessions: map<string, Session>) {
    forall k :: k in m ==> Linked(m[k].sessionId, sessions)
  }

  // The session a record refers to after an event: the one created, none, or the one it had, but
  // never one that was deleted.
  predicate SessionAfter(before: Option<string>, after: Option<string>, e: Event) {
    && (after == before || after.None? || (e.SessionCreated? && after == Some(e.session)))
    && (e.SessionDeleted? ==> after != Some(e.session))
  }

  lemma JobSession(j: Job, e: Event, now: nat)
    ensures SessionAfter(j.sessionId, JobAfter(j, e, now).sessionId, e)
  {
    hide Finalize, SetOutcome, SetAgentId, SetAgentName, AgentFailure, ShellFailure, HistoryOnEntry, Visit,
         ClosingOutcome, StatusOnEntry;
  }

  lemma RunSession(r: AgentRun, e: Event, now: nat)
    ensures SessionAfter(r.sessionId, RunAfter(r, e, now).sessionId, e)
  {
  }

  lemma AgentSession(a: Agent, e: Event, now: nat)
    ensures SessionAfter(a.sessionId, AgentAfter(a, e, now).sessionId, e)
  {
  }

  // The sessions after an event.
  function SessionsAfter(m: map<string, Session>, e: Event): map<string, Session> {
    if e.SessionCreated? then m[e.session := Session(e.session, if e.owner.JobOwner? then e.owner.id else "")]
    else if e.SessionDeleted? then Without(m, e.session)
    else m
  }

  lemma StaysLinked(before: Option<string>, after: Option<string>, sessions: map<string, Session>, e: Event)
    requires Linked(before, sessions) && SessionAfter(before, after, e)
    ensures Linked(after, SessionsAfter(sessions, e))
  {
  }

  lemma JobsStayLinked(m: map<string, Job>, sessions: map<string, Session>, e: Event, now: nat, id: string)
    requires JobsLinked(m, sessions)
    ensures !e.SessionDeleted? ==> JobsLinked(JobsAt(m, id, e, now), SessionsAfter(sessions, e))
                                   && JobsLinked(m, SessionsAfter(sessions, e))
    ensures JobsLinked(AllJobs(m, e, now), SessionsAfter(sessions, e))
  {
    forall k | k in m ensures Linked(JobAfter(m[k], e, now).sessionId, SessionsAfter(sessions, e)) {
      JobSession(m[k], e, now);
      StaysLinked(m[k].sessionId, JobAfter(m[k], e, now).sessionId, sessions, e);
    }
    hide JobAfter;
  }

  lemma RunsStayLinked(m: map<string, AgentRun>, sessions: map<string, Session>, e: Event, now: nat, id: string)
    requires RunsLinked(m, sessions)
    ensures !e.SessionDeleted? ==> RunsLinked(RunsAt(m, id, e, now), SessionsAfter(sessions, e))
                                   && RunsLinked(m, SessionsAfter(sessions, e))
    ensures RunsLinked(AllRuns(m, e, now), SessionsAfter(sessions, e))
  {
    forall k | k in m ensures Linked(RunAfter(m[k], e, now).sessionId, SessionsAfter(sessions, e)) {
      RunSession(m[k], e, now);
      StaysLinked(m[k].sessionId, RunAfter(m[k], e, now).sessionId, sessions, e);
    }
    hide RunAfter;
  }

  lemma AgentsStayLinked(m: map<string, Agent>, sessions: map<string, Session>, e: Event, now: nat, id: string)
    requires AgentsLinked(m, sessions)
    ensures !e.SessionDeleted? ==> AgentsLinked(AgentsAt(m, id, e, now), SessionsAfter(sessions, e))
                                   && AgentsLinked(m, SessionsAfter(sessions, e))
    ensures AgentsLinked(AllAgents(m, e, now), SessionsAfter(sessions, e))
  {
    forall k | k in m ensures Linked(AgentAfter(m[k], e, now).sessionId, SessionsAfter(sessions, e)) {
      AgentSession(m[k], e, now);
      StaysLinked(m[k].sessionId, AgentAfter(m[k], e, now).sessionId, sessions, e);
    }
    hide AgentAfter;
  }

  // Every session a job, an agent run or an agent refers to exists.
  predicate SessionsOk(s: State) {
    JobsLinked(s.jobs, s.sessions) && RunsLinked(s.runs, s.sessions) && AgentsLinked(s.agents, s.sessions)
  }

  // ------------------------------------------------------------- decisions

  predicate Open(d: Decision) { d.resolvedAt.None? }

  // No owner has two open decisions.
  predicate OneOpen(m: map<string, Decision>) {
    forall i, j :: i in m && j in m && Open(m[i]) && Open(m[j]) && m[i].owner == m[j].owner ==> i == j
  }

  // A smaller table, or one with more decisions closed, has no more open ones.
  predicate Fewer(n: map<string, Decision>, m: map<string, Decision>) {
    forall k :: k in n ==> k in m && n[k].owner == m[k].owner && (Open(n[k]) ==> Open(m[k]))
  }

  lemma FewerOpen(n: map<string, Decision>, m: map<string, Decision>)
    requires OneOpen(m) && Fewer(n, m)
    ensures OneOpen(n)
  {
  }

  // A new decision closes the open one of its owner, in its favour, and touches no other.
  lemma NewSupersedes(s: State, e: Event, now: nat, k: string)
    requires e.DecisionCreated? && e.decision !in s.decisions
    ensures var t := ApplyDecision(s, e, now).decisions;
            && e.decision in t && Open(t[e.decision]) && t[e.decision].owner == e.owner
            && (k in s.decisions ==>
                  k in t && (t[k] == s.decisions[k] <==> !(s.decisions[k].owner == e.owner && Open(s.decisions[k])))
                                     && (t[k].owner == e.owner ==> !Open(t[k]))
                                     && (t[k] != s.decisions[k] ==> t[k].supersededBy == Some(e.decision)))
            && (k in t ==> k == e.decision || k in s.decisions)
  {
    hide OwnedJobs, OwnedRuns;
  }

  lemma CreatedOpen(m: map<string, Decision>, e: Event)
    requires e.DecisionCreated? && OneOpen(m) && e.decision !in m
    ensures OneOpen(AllDecisions(m, e)[e.decision := NewDecision(e)])
  {
    var all := AllDecisions(m, e);
    forall k | k in m ensures all[k].owner == m[k].owner && (Open(all[k]) ==> Open(m[k]) && m[k].owner != e.owner) { }
    hide AllDecisions, DecisionAfter;
    assert Open(NewDecision(e)) && NewDecision(e).owner == e.owner;
  }

  lemma DecisionsOpen(s: State, e: Event, now: nat)
    requires AboutDecision(e) && OneOpen(s.decisions)
    ensures OneOpen(ApplyDecision(s, e, now).decisions)
  {
    hide OwnedJobs, OwnedRuns, OneOpen, AllDecisions, NewDecision, DecisionsAt;
    if e.DecisionResolved? {
      ResolvedFewer(s.decisions, e.decision, e);
      FewerOpen(DecisionsAt(s.decisions, e.decision, e), s.decisions);
    } else if e.decision !in s.decisions {
      CreatedOpen(s.decisions, e);
    }
  }

  lemma ResolvedFewer(m: map<string, Decision>, id: string, e: Event)
    requires e.DecisionResolved?
    ensures Fewer(DecisionsAt(m, id, e), m)
  {
  }

  lemma DroppedFewer(m: map<string, Decision>, job: string, all: bool, run: string)
    ensures Fewer(DecisionsNotOf(m, job, all), m) && Fewer(DecisionsNotOfRun(m, run), m) && Fewer(m, m)
  {
  }

  // ------------------------------------------------------------- every event keeps both

  predicate Ok(s: State) { SessionsOk(s) && OneOpen(s.decisions) }

  // A step that touches none of these tables.
  lemma Elsewhere(s: State, t: State)
    requires Ok(s) && t.jobs == s.jobs && t.runs == s.runs && t.agents == s.agents && t.sessions == s.sessions
    requires t.decisions == s.decisions
    ensures Ok(t)
  {
    hide JobsLinked, RunsLinked, AgentsLinked, OneOpen;
  }

  // One whose tables are linked and whose decisions are fewer.
  lemma Together(s: State, t: State)
    requires OneOpen(s.decisions) && (t.decisions == s.decisions || Fewer(t.decisions, s.decisions))
    requires JobsLinked(t.jobs, t.sessions) && RunsLinked(t.runs, t.sessions) && AgentsLinked(t.agents, t.sessions)
    ensures Ok(t)
  {
    if t.decisions != s.decisions { FewerOpen(t.decisions, s.decisions); }
    hide JobsLinked, RunsLinked, AgentsLinked, OneOpen;
  }

  lemma PutJob(m: map<string, Job>, sessions: map<string, Session>, k: string, j: Job)
    requires JobsLinked(m, sessions) && Linked(j.sessionId, sessions)
    ensures JobsLinked(m[k := j], sessions) && JobsLinked(Without(m, k), sessions)
  {
  }

  lemma NotOfLinked(m: map<string, Agent>, sessions: map<string, Session>, owner: Owner)
    requires AgentsLinked(m, sessions)
    ensures AgentsLinked(AgentsNotOf(m, owner), sessions)
  {
  }

  lemma JobCreatedEvent(s: State, e: Event)
    requires Ok(s) && e.JobCreated?
    ensures Ok(s.(jobs := s.jobs[e.job := NewJob(e)]))
  {
    NewJobLinked(e, s.sessions);
    PutJob(s.jobs, s.sessions, e.job, NewJob(e));
    hide JobsLinked, RunsLinked, AgentsLinked, OneOpen, Fewer, NewJob;
    Together(s, s.(jobs := s.jobs[e.job := NewJob(e)]));
  }

  lemma JobDeletedEvent(s: State, e: Event)
    requires Ok(s) && e.JobDeleted?
    ensures Ok(s.(jobs := Without(s.jobs, e.job), decisions := DecisionsNotOf(s.decisions, e.job, true),
                  agents := AgentsNotOf(s.agents, JobOwner(e.job))))
  {
    hide JobsLinked, RunsLinked, AgentsLinked, OneOpen, Fewer, DecisionsNotOf, AgentsNotOf, Without;
    DroppedFewer(s.decisions, e.job, true, "");
    DeletedLinked(s.jobs, s.sessions, e.job);
    NotOfLinked(s.agents, s.sessions, JobOwner(e.job));
    Together(s, s.(jobs := Without(s.jobs, e.job), decisions := DecisionsNotOf(s.decisions, e.job, true),
                   agents := AgentsNotOf(s.agents, JobOwner(e.job))));
  }

  lemma JobChangedEvent(s: State, e: Event, now: nat, workers: map<string, Worker>, decisions: map<string, Decision>)
    requires Ok(s) && AboutJob(e) && Fewer(decisions, s.decisions)
    ensures Ok(s.(jobs := JobsAt(s.jobs, e.job, e, now), workers := workers, decisions := decisions))
  {
    hide JobsLinked, RunsLinked, AgentsLinked, OneOpen, Fewer, JobsAt;
    JobsStayLinked(s.jobs, s.sessions, e, now, e.job);
    Together(s, s.(jobs := JobsAt(s.jobs, e.job, e, now), workers := workers, decisions := decisions));
  }

  lemma JobEvent(s: State, e: Event, now: nat)
    requires Ok(s) && AboutJob(e)
    ensures Ok(ApplyJob(s, e, now))
  {
    hide Ok, Fewer, JobsAt, NewJob, WorkersOnEntry, DecisionsNotOf, AgentsNotOf, Without, Stays;
    if e.JobCreated? {
      JobCreatedEvent(s, e);
    } else if e.JobDeleted? {
      JobDeletedEvent(s, e);
    } else {
      DroppedFewer(s.decisions, e.job, false, "");
      if e.JobAdvanced? {
        JobChangedEvent(s, e, now, WorkersOnEntry(s.workers, e), DecisionsOnEntry(s.decisions, e));
      } else {
        JobChangedEvent(s, e, now, s.workers, s.decisions);
      }
    }
  }

  lemma NewJobLinked(e: Event, sessions: map<string, Session>)
    requires e.JobCreated?
    ensures Linked(NewJob(e).sessionId, sessions)
  {
  }

  lemma DeletedLinked(m: map<string, Job>, sessions: map<string, Session>, id: string)
    requires JobsLinked(m, sessions)
    ensures JobsLinked(Without(m, id), sessions)
  {
  }

  lemma StartedLinked(agents: map<string, Agent>, jobs: map<string, Job>, sessions: map<string, Session>, e: Event,
                      now: nat)
    requires e.StepStarted? && AgentsLinked(agents, sessions)
    ensures AgentsLinked(StartedAgents(agents, jobs, e, now), sessions)
  {
  }

  lemma StepEvent(s: State, e: Event, now: nat)
    requires Ok(s) && AboutStep(e)
    ensures Ok(ApplyStep(s, e, now))
  {
    hide JobsLinked, RunsLinked, AgentsLinked, OneOpen, Fewer, JobsAt, StartedAgents;
    JobsStayLinked(s.jobs, s.sessions, e, now, e.job);
    if e.StepStarted? { StartedLinked(s.agents, s.jobs, s.sessions, e, now); }
    Together(s, ApplyStep(s, e, now));
  }

  lemma OwnedLinked(s: State, owner: Owner, e: Event, now: nat)
    requires SessionsOk(s) && !e.SessionDeleted?
    ensures JobsLinked(OwnedJobs(s.jobs, owner, e, now), SessionsAfter(s.sessions, e))
    ensures RunsLinked(OwnedRuns(s.runs, owner, e, now), SessionsAfter(s.sessions, e))
  {
    JobsStayLinked(s.jobs, s.sessions, e, now, owner.id);
    RunsStayLinked(s.runs, s.sessions, e, now, owner.id);
    hide JobsLinked, RunsLinked, JobsAt, RunsAt, SessionsAfter;
  }

  lemma AgentEvent(s: State, e: Event, now: nat)
    requires Ok(s) && AboutAgent(e)
    ensures Ok(ApplyAgent(s, e, now))
  {
    hide JobsLinked, RunsLinked, AgentsLinked, OneOpen, Fewer, OwnedJobs, OwnedRuns, AgentsAt;
    AgentsStayLinked(s.agents, s.sessions, e, now, e.agent);
    if !e.AgentWaiting? { OwnedLinked(s, e.owner, e, now); }
    Together(s, ApplyAgent(s, e, now));
  }

  lemma SessionEvent(s: State, e: Event, now: nat)
    requires Ok(s) && AboutSession(e)
    ensures Ok(ApplySession(s, e, now))
  {
    hide JobsLinked, RunsLinked, AgentsLinked, OneOpen, Fewer, OwnedJobs, OwnedRuns, AllJobs, AllRuns, AllAgents;
    JobsStayLinked(s.jobs, s.sessions, e, now, "");
    RunsStayLinked(s.runs, s.sessions, e, now, "");
    AgentsStayLinked(s.agents, s.sessions, e, now, "");
    if e.SessionCreated? { OwnedLinked(s, e.owner, e, now); }
    Together(s, ApplySession(s, e, now));
  }

  lemma OwnedWorkspace(s: State, owner: Option<Owner>, workspaces: map<string, Workspace>, e: Event, now: nat)
    requires Ok(s) && AboutWorkspace(e)
    ensures Ok(s.(jobs := if owner.Some? then OwnedJobs(s.jobs, owner.value, e, now) else s.jobs,
                  workspaces := workspaces))
  {
    hide JobsLinked, RunsLinked, AgentsLinked, OneOpen, Fewer, OwnedJobs, OwnedRuns;
    if owner.Some? { OwnedLinked(s, owner.value, e, now); }
    Together(s, s.(jobs := if owner.Some? then OwnedJobs(s.jobs, owner.value, e, now) else s.jobs,
                   workspaces := workspaces));
  }

  lemma WorkspaceEvent(s: State, e: Event, now: nat)
    requires Ok(s) && AboutWorkspace(e)
    ensures Ok(ApplyWorkspace(s, e, now))
  {
    hide Ok, OwnedJobs, WorkspacesAt, NewWorkspace, Without;
    if e.WorkspaceCreated? {
      OwnedWorkspace(s, e.wsOwner, s.workspaces[e.workspace := NewWorkspace(e, now)], e, now);
    } else if e.WorkspaceDeleted? {
      OwnedWorkspace(s, None, Without(s.workspaces, e.workspace), e, now);
    } else {
      OwnedWorkspace(s, None, WorkspacesAt(s.workspaces, e.workspace, e), e, now);
    }
  }

  lemma DecisionEvent(s: State, e: Event, now: nat)
    requires Ok(s) && AboutDecision(e)
    ensures Ok(ApplyDecision(s, e, now))
  {
    DecisionsOpen(s, e, now);
    hide JobsLinked, RunsLinked, AgentsLinked, OneOpen, Fewer, OwnedJobs, OwnedRuns, AllDecisions, NewDecision,
         DecisionsAt;
    if e.DecisionCreated? { OwnedLinked(s, e.owner, e, now); }
  }

  lemma NewRunLinked(m: map<string, AgentRun>, sessions: map<string, Session>, e: Event)
    requires e.AgentRunCreated? && RunsLinked(m, sessions)
    ensures RunsLinked(m[e.run := NewRun(e)], sessions)
  {
  }

  lemma RunGone(m: map<string, AgentRun>, sessions: map<string, Session>, id: string)
    requires RunsLinked(m, sessions)
    ensures RunsLinked(Without(m, id), sessions)
  {
  }

  lemma StartedRunLinked(agents: map<string, Agent>, runs: map<string, AgentRun>, sessions: map<string, Session>,
                         e: Event, now: nat)
    requires e.AgentRunStarted? && AgentsLinked(agents, sessions)
    ensures AgentsLinked(StartedRunAgents(agents, runs, e, now), sessions)
  {
  }

  lemma RunChanged(s: State, runs: map<string, AgentRun>, agents: map<string, Agent>, decisions: map<string, Decision>)
    requires Ok(s) && RunsLinked(runs, s.sessions) && AgentsLinked(agents, s.sessions) && Fewer(decisions, s.decisions)
    ensures Ok(s.(runs := runs, agents := agents, decisions := decisions))
  {
    hide JobsLinked, RunsLinked, AgentsLinked, OneOpen, Fewer;
    Together(s, s.(runs := runs, agents := agents, decisions := decisions));
  }

  lemma RunEvent(s: State, e: Event, now: nat)
    requires Ok(s) && AboutRun(e)
    ensures Ok(ApplyRun(s, e, now))
  {
    assert SessionsOk(s);
    DroppedFewer(s.decisions, "", false, e.run);
    hide Ok, JobsLinked, RunsLinked, AgentsLinked, Fewer, RunsAt, NewRun, StartedRunAgents, Without, AgentsNotOf,
         DecisionsNotOfRun;
    if e.AgentRunCreated? {
      NewRunLinked(s.runs, s.sessions, e);
      RunChanged(s, s.runs[e.run := NewRun(e)], s.agents, s.decisions);
    } else if e.AgentRunDeleted? {
      RunGone(s.runs, s.sessions, e.run);
      NotOfLinked(s.agents, s.sessions, RunOwner(e.run));
      RunChanged(s, Without(s.runs, e.run), AgentsNotOf(s.agents, RunOwner(e.run)), s.decisions);
    } else {
      RunsStayLinked(s.runs, s.sessions, e, now, e.run);
      if e.AgentRunStarted? {
        StartedRunLinked(s.agents, s.runs, s.sessions, e, now);
        RunChanged(s, RunsAt(s.runs, e.run, e, now), StartedRunAgents(s.agents, s.runs, e, now), s.decisions);
      } else {
        RunChanged(s, RunsAt(s.runs, e.run, e, now), s.agents, DecisionsOnStatus(s.decisions, e.run, e.status));
      }
    }
  }

  lemma SignalEvent(s: State, e: Event, now: nat)
    requires Ok(s) && e.AgentSignaled?
    ensures Ok(ApplySignal(s, e, now))
  {
    hide Ok, JobsAt, RunsAt, RunsOfAgent, JobsOfAgent;
    var runs, jobs := RunsOfAgent(s.runs, e.agent), JobsOfAgent(s.jobs, e.agent);
    if e.kind == Continue {
    } else if runs != {} {
      OneRun(s, FirstOf(runs), e, now);
    } else if jobs != {} {
      OneJob(s, FirstOf(jobs), e, now);
    }
  }

  lemma OneRun(s: State, id: string, e: Event, now: nat)
    requires Ok(s) && e.AgentSignaled?
    ensures Ok(s.(runs := RunsAt(s.runs, id, e, now)))
  {
    RunsStayLinked(s.runs, s.sessions, e, now, id);
    hide JobsLinked, RunsLinked, AgentsLinked, OneOpen, RunsAt;
  }

  lemma OneJob(s: State, id: string, e: Event, now: nat)
    requires Ok(s) && e.AgentSignaled?
    ensures Ok(s.(jobs := JobsAt(s.jobs, id, e, now)))
  {
    JobsStayLinked(s.jobs, s.sessions, e, now, id);
    hide JobsLinked, RunsLinked, AgentsLinked, OneOpen, JobsAt;
  }

  lemma QueueEvent(s: State, e: Event)
    requires Ok(s) && AboutQueue(e)
    ensures Ok(ApplyQueue(s, e))
  {
    QueuesOnly(s, e);
    hide *;
    Elsewhere(s, ApplyQueue(s, e));
  }

  lemma WorkerEvent(s: State, e: Event)
    requires Ok(s) && AboutWorker(e)
    ensures Ok(ApplyWorker(s, e))
  {
    hide Ok, Root, Scoping.Scoped, WorkerAfter, WorkersAt, Without;
    Elsewhere(s, ApplyWorker(s, e));
  }

  lemma CronEvent(s: State, e: Event, now: nat)
    requires Ok(s) && AboutCron(e)
    ensures Ok(ApplyCron(s, e, now))
  {
    hide Ok, Root, Scoping.Scoped, CronsAt, Without;
    Elsewhere(s, ApplyCron(s, e, now));
  }

  // Every event keeps sessions linked and leaves no owner with two open decisions.
  lemma ApplyKeepsReferences(s: State, e: Event, now: nat)
    requires Ok(s)
    ensures Ok(Apply(s, e, now))
  {
    hide Ok, ApplyJob, ApplyStep, ApplyAgent, ApplySignal, ApplySession, ApplyWorkspace, ApplyWorker,
         ApplyQueue, ApplyCron, ApplyDecision, ApplyRun, AboutJob, AboutStep, AboutAgent, AboutSession,
         AboutWorkspace, AboutWorker, AboutQueue, AboutCron, AboutDecision, AboutRun;
    if AboutJob(e) { JobEvent(s, e, now); }
    else if AboutStep(e) { StepEvent(s, e, now); }
    else if AboutAgent(e) { AgentEvent(s, e, now); }
    else if e.AgentSignaled? { SignalEvent(s, e, now); }
    else if AboutSession(e) { SessionEvent(s, e, now); }
    else if AboutWorkspace(e) { WorkspaceEvent(s, e, now); }
    else if AboutWorker(e) { WorkerEvent(s, e); }
    else if AboutQueue(e) { QueueEvent(s, e); }
    else if AboutCron(e) { CronEvent(s, e, now); }
    else if AboutDecision(e) { DecisionEvent(s, e, now); }
    else if AboutRun(e) { RunEvent(s, e, now); }
  }

  lemma {:induction false} FoldKeepsReferences(history: seq<Event>)
    ensures Ok(Collapse.Fold(DaemonRuns.Daemon(), history))
  {
    hide Apply;
    if history != [] {
      var before := history[..|history| - 1];
      FoldKeepsReferences(before);
      ApplyKeepsReferences(Collapse.Fold(DaemonRuns.Daemon(), before), history[|history| - 1], 0);
    }
  }

  // ------------------------------------------------------------- what events clear away

  // A job that ends leaves every worker and takes its open decisions with it -- unless it already
  // stands on that step without having failed, and then nothing changes.
  lemma EndingClears(s: State, e: Event, now: nat, worker: string, job: string, decision: string)
    requires e.JobAdvanced? && TerminalStep(e.step)
    ensures var t := Apply(s, e, now);
            && (Stays(s.jobs, e) ==> t == s)
            && (!Stays(s.jobs, e) ==>
                  && t.workers.Keys == s.workers.Keys && t.decisions.Keys <= s.decisions.Keys
                  && (worker in s.workers ==>
                        (job in t.workers[worker].activeJobs <==> job in s.workers[worker].activeJobs && job != e.job))
                  && (decision in s.decisions ==>
                        (decision in t.decisions
                         <==> !(s.decisions[decision].jobId == e.job && Open(s.decisions[decision])))))
  {
    hide JobsAt, SkipsAdvance;
    assert Apply(s, e, now) == ApplyJob(s, e, now);
    hide Apply;
  }

  // Deleting a job leaves no decision and no agent of it, and every other job as it was.
  lemma DeletingClears(s: State, job: string, now: nat, k: string)
    ensures var t := Apply(s, JobDeleted(job), now);
            && job !in t.jobs
            && (k in t.decisions <==> k in s.decisions && s.decisions[k].jobId != job)
            && (k in t.decisions ==> t.decisions[k] == s.decisions[k])
            && (k in t.agents <==> k in s.agents && s.agents[k].owner != JobOwner(job))
            && (k in t.agents ==> t.agents[k] == s.agents[k])
            && (k != job ==> (k in t.jobs <==> k in s.jobs) && (k in t.jobs ==> t.jobs[k] == s.jobs[k]))
  {
    var e := JobDeleted(job);
    assert Apply(s, e, now) == ApplyJob(s, e, now);
    hide Apply;
  }
}
