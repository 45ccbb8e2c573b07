/** What one event makes of the index of agents, of the decisions and of the agents' signals, in any state
    (crates/storage/src/state.rs). */
module Effects {
  import opened Wrappers
  import opened Jobs
  import opened State
  import opened Stories
  import opened Tables
  import Actions
  import Endings
  import RecordStories

  // ------------------------------------------------------------- the index of agents

  function Or(o: Option<string>, otherwise: string): string { if o.Some? then o.value else otherwise }

  // The agent of a starting step or run, unless it is known: it works where its owner does.
  function Starting(s: State, e: Event, agent: string, now: nat): Option<Agent> {
    if e.StepStarted? && e.agentId == Some(agent) && e.job in s.jobs then
      var j := s.jobs[e.job];
      Some(Agent(agent, Or(e.agentName, ""), JobOwner(e.job), j.namespace, Or(j.workspacePath, j.cwd), None,
                 AgentStarting, now, now))
    else if e.AgentRunStarted? && e.agent == agent && e.run in s.runs then
      var r := s.runs[e.run];
      Some(Agent(agent, r.agentName, RunOwner(e.run), r.namespace, r.cwd, None, AgentRunning, now, now))
    else None
  }

  // An agent goes with its owner.
  predicate Leaves(e: Event, owner: Owner) {
    (e.JobDeleted? && owner == JobOwner(e.job)) || (e.AgentRunDeleted? && owner == RunOwner(e.run))
  }

  function StatusSaid(e: Event, agent: string): Option<AgentStatus> {
    if !AboutAgent(e) || e.agent != agent then None
    else if e.AgentWorking? then Some(AgentRunning)
    else if e.AgentWaiting? then Some(AgentIdling)
    else if e.AgentGone? then Some(AgentVanished)
    else Some(AgentEnded)
  }

  // The session is the owner's first one, until it is deleted.
  function SessionKept(a: Agent, e: Event): Option<string> {
    if e.SessionCreated? && a.owner == e.owner && a.sessionId.None? then Some(e.session)
    else if e.SessionDeleted? && a.sessionId == Some(e.session) then None
    else a.sessionId
  }

  function AgentThen(a: Agent, e: Event, agent: string, now: nat): Agent {
    var said := StatusSaid(e, agent);
    a.(sessionId := SessionKept(a, e), status := if said.Some? then said.value else a.status,
       updatedAt := if said.Some? then now else a.updatedAt)
  }

  function AgentAt(s: State, e: Event, agent: string, now: nat): Option<Agent> {
    var before := At(s.agents, agent);
    if before.None? then Starting(s, e, agent, now)
    else if Leaves(e, before.value.owner) then None
    else Some(AgentThen(before.value, e, agent, now))
  }

  lemma AgentIs(s: State, e: Event, now: nat, agent: string)
    ensures At(Apply(s, e, now).agents, agent)
            == AgentAt(s, e, agent, now)
  {
    if UsesAgents(e) {
      if AboutRun(e) {
        Endings.RunsApply(s, e, now);
        Endings.AgentsOfRuns(s, e, now);
        RunsAgent(s, e, now, agent);
      } else {
        Endings.AgentsBy(s, e, now);
        AgentBy(s, e, now, agent);
      }
      hide Apply, ApplyRun, AgentsNotOf, StartedAgents, StartedRunAgents, AgentsAt, AllAgents, Starting, AgentThen,
           AboutRun, AboutAgent, AboutSession;
    } else {
      Frame(s, e, now);
      AgentStays(s, e, now, agent);
      hide Apply, AgentThen, Starting;
    }
  }

  lemma AgentStays(s: State, e: Event, now: nat, agent: string)
    requires !UsesAgents(e)
    ensures Starting(s, e, agent, now) == None
    ensures forall a: Agent :: AgentThen(a, e, agent, now) == a
  {
  }

  lemma RunsAgent(s: State, e: Event, now: nat, agent: string)
    requires UsesAgents(e) && AboutRun(e)
    ensures At(if e.AgentRunDeleted? then AgentsNotOf(s.agents, RunOwner(e.run))
               else StartedRunAgents(s.agents, s.runs, e, now), agent)
            == AgentAt(s, e, agent, now)
  {
  }

  lemma AgentBy(s: State, e: Event, now: nat, agent: string)
    requires UsesAgents(e) && !AboutRun(e)
    ensures At(if e.JobDeleted? then AgentsNotOf(s.agents, JobOwner(e.job))
               else if e.StepStarted? then StartedAgents(s.agents, s.jobs, e, now)
               else if AboutAgent(e) then AgentsAt(s.agents, e.agent, e, now) else AllAgents(s.agents, e, now), agent)
            == AgentAt(s, e, agent, now)
  {
    if e.JobDeleted? || e.StepStarted? {
      AgentOfJob(s, e, now, agent);
    } else {
      if agent in s.agents && !(AboutAgent(e) && e.agent != agent) { AgentItself(s.agents[agent], e, now, agent); }
      AgentElsewhere(s, e, now, agent);
      hide AgentAfter, AgentThen, Starting;
    }
  }

  lemma AgentOfJob(s: State, e: Event, now: nat, agent: string)
    requires e.JobDeleted? || e.StepStarted?
    ensures At(if e.JobDeleted? then AgentsNotOf(s.agents, JobOwner(e.job))
               else StartedAgents(s.agents, s.jobs, e, now), agent)
            == AgentAt(s, e, agent, now)
  {
  }

  lemma AgentElsewhere(s: State, e: Event, now: nat, agent: string)
    requires AboutAgent(e) || AboutSession(e)
    ensures Starting(s, e, agent, now) == None
    ensures AboutAgent(e) && e.agent != agent ==> forall a: Agent :: AgentThen(a, e, agent, now) == a
  {
  }

  lemma AgentItself(a: Agent, e: Event, now: nat, agent: string)
    requires (AboutAgent(e) && e.agent == agent) || AboutSession(e)
    ensures AgentAfter(a, e, now) == AgentThen(a, e, agent, now)
  {
  }

  // ------------------------------------------------------------- decisions

  // A decision that is asked for twice stays as it was first asked for.
  function Asked(e: Event, decision: string): Option<Decision> {
    if e.DecisionCreated? && e.decision == decision then
      Some(Decision(decision, e.decisionJob, e.agentId, e.owner, e.source, e.context, e.options, None, None, e.at,
                    None, None, e.namespace))
    else None
  }

  // It goes with its job, and if it is open with the end of its job or of its agent run.
  predicate Dropped(s: State, e: Event, d: Decision) {
    || (e.JobDeleted? && d.jobId == e.job)
    || (d.resolvedAt.None? && Endings.Ends(s, e, d.jobId))
    || (d.resolvedAt.None? && e.AgentRunStatusChanged? && (e.status == RunCompleted || e.status == RunFailed)
        && d.owner == RunOwner(e.run))
  }

  // It is resolved as is said, or by a new decision of its owner if it is open.
  function Settled(s: State, e: Event, d: Decision, decision: string): Decision {
    if e.DecisionResolved? && e.decision == decision then
      d.(chosen := e.chosen, message := e.message, resolvedAt := Some(e.at))
    else if e.DecisionCreated? && e.decision !in s.decisions && d.owner == e.owner && d.resolvedAt.None? then
      d.(resolvedAt := Some(e.at), supersededBy := Some(e.decision))
    else d
  }

  function DecisionAt(s: State, e: Event, decision: string): Option<Decision> {
    var before := At(s.decisions, decision);
    if before.None? then Asked(e, decision)
    else if Dropped(s, e, before.value) then None
    else Some(Settled(s, e, before.value, decision))
  }

  lemma DecisionIs(s: State, e: Event, now: nat, decision: string)
    ensures At(Apply(s, e, now).decisions, decision) == DecisionAt(s, e, decision)
  {
    hide Apply, Asked, Dropped, Settled, AboutDecision, TerminalRun;
    if AboutDecision(e) { Endings.DecisionsApply(s, e, now); DecisionTold(s, e, now, decision); hide ApplyDecision; }
    else if e.JobAdvanced? { DecisionEnds(s, e, now, decision); }
    else if e.JobDeleted? { DecisionDeleted(s, e, now, decision); }
    else if e.AgentRunStatusChanged? { DecisionOfRun(s, e, now, decision); }
    else { Endings.Elsewhere(s, e, now); DecisionStays(s, e, decision); }
  }

  lemma DecisionStays(s: State, e: Event, decision: string)
    requires !UsesDecisions(e)
    ensures Asked(e, decision) == None
    ensures forall d: Decision :: !Dropped(s, e, d) && Settled(s, e, d, decision) == d
  {
  }

  lemma DecisionTold(s: State, e: Event, now: nat, decision: string)
    requires AboutDecision(e)
    ensures At(ApplyDecision(s, e, now).decisions, decision) == DecisionAt(s, e, decision)
  {
    hide OwnedJobs, OwnedRuns;
  }

  lemma DecisionEnds(s: State, e: Event, now: nat, decision: string)
    requires e.JobAdvanced?
    ensures At(Apply(s, e, now).decisions, decision) == DecisionAt(s, e, decision)
  {
    Endings.DecisionsAdvance(s, e, now);
    hide Apply, Stays, TerminalStep;
  }

  lemma DecisionDeleted(s: State, e: Event, now: nat, decision: string)
    requires e.JobDeleted?
    ensures At(Apply(s, e, now).decisions, decision) == DecisionAt(s, e, decision)
  {
    hide Without, AgentsNotOf;
    assert Apply(s, e, now) == ApplyJob(s, e, now);
    hide Apply;
  }

  lemma DecisionOfRun(s: State, e: Event, now: nat, decision: string)
    requires e.AgentRunStatusChanged?
    ensures At(Apply(s, e, now).decisions, decision) == DecisionAt(s, e, decision)
  {
    hide RunsAt;
    assert Apply(s, e, now) == ApplyRun(s, e, now);
    hide Apply;
  }

  // ------------------------------------------------------------- signals

  predicate RunHas(s: State, run: string, agent: string) { run in s.runs && s.runs[run].agentId == Some(agent) }

  // The agent works on the job's last step.
  predicate JobHas(s: State, job: string, agent: string) {
    job in s.jobs && s.jobs[job].history != []
    && s.jobs[job].history[|s.jobs[job].history| - 1].agentId == Some(agent)
  }

  function Signal(e: Event): Option<Actions.Signal>
    requires e.AgentSignaled?
  {
    Some(Actions.Signal(e.kind, e.message))
  }

  predicate ToRun(s: State, t: State, e: Event, run: string)
    requires e.AgentSignaled?
  {
    RunHas(s, run, e.agent)
    && t == s.(runs := s.runs[run := s.runs[run].(tracker := s.runs[run].tracker.(signal := Signal(e)))])
  }

  predicate ToJob(s: State, t: State, e: Event, job: string)
    requires e.AgentSignaled?
  {
    JobHas(s, job, e.agent)
    && t == s.(jobs := s.jobs[job := s.jobs[job].(tracker := s.jobs[job].tracker.(signal := Signal(e)))])
  }

  // The signal is kept with one agent run of the agent, or else with one job of it, and nothing else changes;
  // nobody keeps a signal to continue, or of an agent that nobody has.
  ghost predicate Kept(s: State, t: State, e: Event)
    requires e.AgentSignaled?
  {
    if e.kind == Actions.Continue then t == s
    else if exists run :: RunHas(s, run, e.agent) then exists run :: ToRun(s, t, e, run)
    else if exists job :: JobHas(s, job, e.agent) then exists job :: ToJob(s, t, e, job)
    else t == s
  }

  lemma SignalIsKept(s: State, e: Event, now: nat)
    requires e.AgentSignaled?
    ensures Kept(s, Apply(s, e, now), e)
  {
    RecordStories.SignalApply(s, e, now);
    var runs, jobs := RunsOfAgent(s.runs, e.agent), JobsOfAgent(s.jobs, e.agent);
    assert forall run :: RunHas(s, run, e.agent) <==> run in runs;
    assert forall job :: JobHas(s, job, e.agent) <==> job in jobs;
    SignalCases(s, e, now);
    hide Apply, ApplySignal, RunsOfAgent, JobsOfAgent, RunHas, JobHas, ToRun, ToJob;
    if e.kind != Actions.Continue && runs != {} { assert RunHas(s, FirstOf(runs), e.agent); }
    else if e.kind != Actions.Continue && jobs != {} { assert JobHas(s, FirstOf(jobs), e.agent); }
  }

  lemma SignalCases(s: State, e: Event, now: nat)
    requires e.AgentSignaled?
    ensures var runs, jobs, t := RunsOfAgent(s.runs, e.agent), JobsOfAgent(s.jobs, e.agent), ApplySignal(s, e, now);
            if e.kind == Actions.Continue then t == s
            else if runs != {} then ToRun(s, t, e, FirstOf(runs))
            else if jobs != {} then ToJob(s, t, e, FirstOf(jobs)) else t == s
  {
  }
}
