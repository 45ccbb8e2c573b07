/** What events do to the table of jobs (crates/storage/src/state.rs): each job stays as it was, or
    changes as its record does. */
module JobTables {
  import opened Actions
  import opened Jobs
  import opened State
  import opened Tables

  // Events about one job leave the others alone.
  lemma OtherJobsStay(s: State, e: Event, now: nat, k: string)
    requires (AboutJob(e) || AboutStep(e)) && e.job != k
    ensures var jobs := Apply(s, e, now).jobs; (k in jobs <==> k in s.jobs) && (k in jobs ==> jobs[k] == s.jobs[k])
  {
    JobTable(s, e, now);
    hide Apply, JobAfter, NewJob, AboutJob, AboutStep;
    if e.JobCreated? { PutOther(s.jobs, e.job, NewJob(e), k); }
    if e.job in s.jobs { PutOther(s.jobs, e.job, JobAfter(s.jobs[e.job], e, now), k); }
  }

  // And its own job is created, deleted, or changed as a record.
  lemma OwnJob(s: State, e: Event, now: nat)
    requires AboutJob(e) || AboutStep(e)
    ensures var jobs := Apply(s, e, now).jobs;
            if e.JobCreated? then e.job in jobs && jobs[e.job] == NewJob(e)
            else if e.JobDeleted? then e.job !in jobs
            else (e.job in jobs <==> e.job in s.jobs)
                 && (e.job in jobs ==> jobs[e.job] == JobAfter(s.jobs[e.job], e, now))
  {
    assert Apply(s, e, now) == if AboutJob(e) then ApplyJob(s, e, now) else ApplyStep(s, e, now);
    hide Apply, JobAfter, NewJob;
    if e.JobCreated? || e.JobDeleted? {
      hide WorkersOnEntry, DecisionsOnEntry, StartedAgents, DecisionsNotOf, AgentsNotOf, JobsAt;
    } else {
      hide ApplyJob, ApplyStep;
      OwnJobChanges(s, e, now);
    }
  }

  lemma OwnJobChanges(s: State, e: Event, now: nat)
    requires (AboutJob(e) || AboutStep(e)) && !e.JobCreated? && !e.JobDeleted?
    ensures var jobs := if AboutJob(e) then ApplyJob(s, e, now).jobs else ApplyStep(s, e, now).jobs;
            (e.job in jobs <==> e.job in s.jobs) && (e.job in jobs ==> jobs[e.job] == JobAfter(s.jobs[e.job], e, now))
  {
    ChangedTable(s, e, now);
    if e.JobAdvanced? && e.job in s.jobs { StaysIs(s.jobs[e.job], e, now); }
    hide JobAfter, ApplyJob, ApplyStep;
  }

  lemma ChangedTable(s: State, e: Event, now: nat)
    requires (AboutJob(e) || AboutStep(e)) && !e.JobCreated? && !e.JobDeleted?
    ensures (if AboutJob(e) then ApplyJob(s, e, now).jobs else ApplyStep(s, e, now).jobs)
            == if e.JobAdvanced? && Stays(s.jobs, e) then s.jobs else JobsAt(s.jobs, e.job, e, now)
  {
    hide Stays, JobsAt, WorkersOnEntry, DecisionsOnEntry, StartedAgents;
  }

  lemma StaysIs(j: Job, e: Event, now: nat)
    requires e.JobAdvanced?
    ensures SkipsAdvance(j, e.step) ==> JobAfter(j, e, now) == j
  {
  }

  lemma PutOther(m: map<string, Job>, id: string, j: Job, k: string)
    requires k != id
    ensures var n := m[id := j]; (k in n <==> k in m) && (k in n ==> n[k] == m[k])
  {
  }

  // The jobs after an event about one of them.
  lemma JobTable(s: State, e: Event, now: nat)
    requires AboutJob(e) || AboutStep(e)
    ensures var jobs := Apply(s, e, now).jobs;
            jobs == s.jobs || jobs == JobsAt(s.jobs, e.job, e, now)
            || (e.JobCreated? && jobs == s.jobs[e.job := NewJob(e)])
            || (e.JobDeleted? && jobs == Without(s.jobs, e.job))
  {
    hide JobsAt, NewJob, Without, WorkersOnEntry, DecisionsOnEntry, StartedAgents, Stays, DecisionsNotOf, AgentsNotOf;
    assert Apply(s, e, now) == if AboutJob(e) then ApplyJob(s, e, now) else ApplyStep(s, e, now);
    hide Apply;
  }

  // ------------------------------------------------------------- events about other things

  // The job is as it was, or as the event changes it.
  predicate Touched(before: map<string, Job>, after: map<string, Job>, e: Event, now: nat, id: string) {
    (id in after <==> id in before)
    && (id in before ==> after[id] == before[id] || after[id] == JobAfter(before[id], e, now))
  }

  lemma SameTouches(m: map<string, Job>, e: Event, now: nat, id: string)
    ensures Touched(m, m, e, now, id)
  {
  }

  lemma OneTouches(m: map<string, Job>, k: string, e: Event, now: nat, id: string)
    ensures Touched(m, JobsAt(m, k, e, now), e, now, id)
  {
    hide JobAfter;
  }

  lemma OwnedTouches(m: map<string, Job>, owner: Owner, e: Event, now: nat, id: string)
    ensures Touched(m, OwnedJobs(m, owner, e, now), e, now, id)
  {
    hide Touched, JobsAt;
    OneTouches(m, owner.id, e, now, id);
    SameTouches(m, e, now, id);
  }

  lemma AllTouches(m: map<string, Job>, e: Event, now: nat, id: string)
    ensures Touched(m, AllJobs(m, e, now), e, now, id)
  {
    hide JobAfter;
  }

  lemma AgentTouches(s: State, e: Event, now: nat, id: string)
    requires AboutAgent(e)
    ensures Touched(s.jobs, ApplyAgent(s, e, now).jobs, e, now, id)
  {
    hide Touched, OwnedJobs, AgentsAt;
    SameTouches(s.jobs, e, now, id);
    if !e.AgentWaiting? { OwnedTouches(s.jobs, e.owner, e, now, id); }
  }

  lemma SignalTouches(s: State, e: Event, now: nat, id: string)
    requires e.AgentSignaled?
    ensures Touched(s.jobs, ApplySignal(s, e, now).jobs, e, now, id)
  {
    hide Touched, ApplySignal, JobsAt;
    SameTouches(s.jobs, e, now, id);
    var k := SignalTo(s, e, now);
    OneTouches(s.jobs, k, e, now, id);
  }

  lemma SignalTo(s: State, e: Event, now: nat) returns (k: string)
    requires e.AgentSignaled?
    ensures var jobs := ApplySignal(s, e, now).jobs; jobs == s.jobs || jobs == JobsAt(s.jobs, k, e, now)
  {
    k := "";
    var runs, jobs := RunsOfAgent(s.runs, e.agent), JobsOfAgent(s.jobs, e.agent);
    if e.kind != Continue && runs == {} && jobs != {} {
      k := FirstOf(jobs);
      SignalToJob(s, e, now);
    } else {
      SignalToRun(s, e, now);
    }
    hide ApplySignal, JobsAt, RunsOfAgent, JobsOfAgent;
  }

  lemma SignalToJob(s: State, e: Event, now: nat)
    requires e.AgentSignaled? && e.kind != Continue && RunsOfAgent(s.runs, e.agent) == {}
    requires JobsOfAgent(s.jobs, e.agent) != {}
    ensures ApplySignal(s, e, now).jobs == JobsAt(s.jobs, FirstOf(JobsOfAgent(s.jobs, e.agent)), e, now)
  {
    hide JobsAt, RunsAt, RunsOfAgent, JobsOfAgent;
  }

  lemma SignalToRun(s: State, e: Event, now: nat)
    requires e.AgentSignaled?
    requires e.kind == Continue || RunsOfAgent(s.runs, e.agent) != {} || JobsOfAgent(s.jobs, e.agent) == {}
    ensures ApplySignal(s, e, now).jobs == s.jobs
  {
    hide JobsAt, RunsAt, RunsOfAgent, JobsOfAgent;
  }

  lemma SessionTouches(s: State, e: Event, now: nat, id: string)
    requires AboutSession(e)
    ensures Touched(s.jobs, ApplySession(s, e, now).jobs, e, now, id)
  {
    hide Touched, OwnedJobs, AllJobs, OwnedRuns, AllRuns, AllAgents, Without;
    if e.SessionCreated? { OwnedTouches(s.jobs, e.owner, e, now, id); } else { AllTouches(s.jobs, e, now, id); }
  }

  lemma WorkspaceTouches(s: State, e: Event, now: nat, id: string)
    requires AboutWorkspace(e)
    ensures Touched(s.jobs, ApplyWorkspace(s, e, now).jobs, e, now, id)
  {
    WorkspaceJobs(s, e, now);
    hide Touched, OwnedJobs, ApplyWorkspace, AboutWorkspace;
    SameTouches(s.jobs, e, now, id);
    if e.WorkspaceCreated? && e.wsOwner.Some? { OwnedTouches(s.jobs, e.wsOwner.value, e, now, id); }
  }

  lemma WorkspaceJobs(s: State, e: Event, now: nat)
    requires AboutWorkspace(e)
    ensures ApplyWorkspace(s, e, now).jobs
         == if e.WorkspaceCreated? && e.wsOwner.Some? then OwnedJobs(s.jobs, e.wsOwner.value, e, now) else s.jobs
  {
    hide OwnedJobs, WorkspacesAt, NewWorkspace, Without;
  }

  lemma DecisionTouches(s: State, e: Event, now: nat, id: string)
    requires AboutDecision(e)
    ensures Touched(s.jobs, ApplyDecision(s, e, now).jobs, e, now, id)
  {
    hide Touched, OwnedJobs, OwnedRuns, AllDecisions, DecisionsAt, NewDecision;
    SameTouches(s.jobs, e, now, id);
    if e.DecisionCreated? { OwnedTouches(s.jobs, e.owner, e, now, id); }
  }

  lemma ElsewhereTouches(s: State, e: Event, now: nat, id: string)
    requires !AboutJob(e) && !AboutStep(e)
    ensures Touched(s.jobs, Apply(s, e, now).jobs, e, now, id)
  {
    hide ApplyAgent, ApplySignal, ApplySession, ApplyWorkspace, ApplyWorker, ApplyQueue, ApplyCron, ApplyDecision,
         ApplyRun, AboutJob, AboutStep, AboutAgent, AboutSession, AboutWorkspace, AboutWorker, AboutQueue,
         AboutCron, AboutDecision, AboutRun, Touched;
    if AboutAgent(e) { AgentTouches(s, e, now, id); }
    else if e.AgentSignaled? { SignalTouches(s, e, now, id); }
    else if AboutSession(e) { SessionTouches(s, e, now, id); }
    else if AboutWorkspace(e) { WorkspaceTouches(s, e, now, id); }
    else if AboutDecision(e) { DecisionsOnly(e); DecisionTouches(s, e, now, id); }
    else { NoJobEvent(e); OthersTouch(s, e, now, id); }
  }

  lemma DecisionsOnly(e: Event)
    requires AboutDecision(e)
    ensures !AboutWorker(e) && !AboutQueue(e) && !AboutCron(e)
  {
  }

  lemma NoJobEvent(e: Event)
    requires !AboutJob(e) && !AboutStep(e) && !AboutAgent(e) && !e.AgentSignaled? && !AboutSession(e)
    requires !AboutWorkspace(e) && !AboutDecision(e)
    ensures !UsesJobs(e)
  {
  }

  lemma OthersTouch(s: State, e: Event, now: nat, id: string)
    requires !UsesJobs(e)
    ensures Touched(s.jobs, Apply(s, e, now).jobs, e, now, id)
  {
    Frame(s, e, now);
    SameTouches(s.jobs, e, now, id);
    hide Apply, Touched, UsesJobs;
  }
}
