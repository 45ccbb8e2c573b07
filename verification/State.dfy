/** The event-sourced state and its transition function (crates/storage/src/state.rs).
    `now` stands for the clock reading a handler takes while it applies an event. */
module State {
  import opened Wrappers
  import opened Actions
  import opened Jobs
  import Names
  import Text

  datatype Owner = JobOwner(id: string) | RunOwner(id: string)

  datatype Session = Session(id: string, jobId: string)

  datatype WorkspaceStatus = Creating | Ready | SetupFailed(reason: string)

  datatype WorkspaceKind = Folder | Worktree

  datatype Workspace = Workspace(
    id: string, path: string, branch: Option<string>, owner: Option<Owner>,
    status: WorkspaceStatus, kind: WorkspaceKind, createdAt: nat)

  datatype Runbook = Runbook(version: nat, data: string)

  datatype Worker = Worker(
    name: string, namespace: string, projectRoot: string, runbookHash: string, status: string,
    activeJobs: seq<string>, queueName: string, concurrency: nat)

  datatype ItemStatus = ItemPending | ItemActive | ItemCompleted | ItemFailed | ItemDead

  datatype QueueItem = QueueItem(
    id: string, queueName: string, data: map<string, string>, status: ItemStatus,
    workerName: Option<string>, pushedAt: nat, failureCount: nat)

  datatype Cron = Cron(
    name: string, namespace: string, projectRoot: string, runbookHash: string, status: string,
    interval: string, runTarget: string, startedAt: nat, lastFiredAt: Option<nat>)

  datatype Decision = Decision(
    id: string, jobId: string, agentId: Option<string>, owner: Owner, source: string,
    context: string, options: seq<string>, chosen: Option<nat>, message: Option<string>,
    createdAt: nat, resolvedAt: Option<nat>, supersededBy: Option<string>, namespace: string)

  datatype RunStatus = RunStarting | RunRunning | RunWaiting | RunCompleted | RunFailed | RunEscalated

  datatype AgentRun = AgentRun(
    id: string, agentName: string, commandName: string, namespace: string, cwd: string,
    runbookHash: string, status: RunStatus, agentId: Option<string>, sessionId: Option<string>,
    error: Option<string>, createdAt: nat, updatedAt: nat, tracker: Tracker, vars: map<string, string>)

  datatype AgentStatus = AgentStarting | AgentRunning | AgentIdling | AgentEnded | AgentVanished

  datatype Agent = Agent(
    id: string, name: string, owner: Owner, namespace: string, workspacePath: string,
    sessionId: Option<string>, status: AgentStatus, createdAt: nat, updatedAt: nat)

  datatype State = State(
    jobs: map<string, Job>, sessions: map<string, Session>, workspaces: map<string, Workspace>,
    runbooks: map<string, Runbook>, workers: map<string, Worker>,
    queues: map<string, seq<QueueItem>>, crons: map<string, Cron>,
    decisions: map<string, Decision>, runs: map<string, AgentRun>, agents: map<string, Agent>,
    projectRoots: map<string, string>)

  const EMPTY := State(map[], map[], map[], map[], map[], map[], map[], map[], map[], map[], map[])

  // Every event that changes the state, and `Signal` for those that never do
  // (job id carried by the signal, if any, and whether it asks to resume a job).
  datatype Event =
    | AgentWorking(agent: string, owner: Owner)
    | AgentWaiting(agent: string)
    | AgentExited(agent: string, exitCode: Option<int>, owner: Owner)
    | AgentFailed(agent: string, reason: string, owner: Owner)
    | AgentGone(agent: string, owner: Owner)
    | AgentSignaled(agent: string, kind: SignalKind, message: Option<string>)
    | CommandRun(job: string, namespace: string, projectRoot: string)
    | JobCreated(job: string, jobKind: string, name: string, runbookHash: string, cwd: string,
                 vars: map<string, string>, initialStep: string, at: nat, namespace: string,
                 cronName: Option<string>)
    | JobAdvanced(job: string, step: string)
    | JobUpdated(job: string, vars: map<string, string>)
    | JobCancelling(job: string)
    | JobDeleted(job: string)
    | RunbookLoaded(hash: string, version: nat, data: string)
    | SessionCreated(session: string, owner: Owner)
    | SessionDeleted(session: string)
    | ShellExited(job: string, code: int)
    | StepStarted(job: string, agentId: Option<string>, agentName: Option<string>)
    | StepWaiting(job: string, waitReason: Option<string>, decisionId: Option<string>)
    | StepCompleted(job: string)
    | StepFailed(job: string, error: string)
    | WorkspaceCreated(workspace: string, path: string, branch: Option<string>,
                       wsOwner: Option<Owner>, wsType: Option<string>)
    | WorkspaceReady(workspace: string)
    | WorkspaceFailed(workspace: string, reason: string)
    | WorkspaceDeleted(workspace: string)
    | CronStarted(cron: string, projectRoot: string, runbookHash: string, interval: string,
                  runTarget: string, namespace: string)
    | CronStopped(cron: string, namespace: string)
    | CronFired(cron: string, firedJob: string, agentRun: Option<string>, namespace: string)
    | CronDeleted(cron: string, namespace: string)
    | WorkerStarted(worker: string, projectRoot: string, runbookHash: string, queue: string,
                    concurrency: nat, namespace: string)
    | WorkerItemDispatched(worker: string, item: string, job: string, namespace: string)
    | WorkerStopped(worker: string, namespace: string)
    | WorkerResized(worker: string, concurrency: nat, namespace: string)
    | WorkerDeleted(worker: string, namespace: string)
    | QueuePushed(queue: string, item: string, payload: map<string, string>, at: nat, namespace: string)
    | QueueTaken(queue: string, item: string, worker: string, namespace: string)
    | QueueCompleted(queue: string, item: string, namespace: string)
    | QueueFailed(queue: string, item: string, namespace: string)
    | QueueDropped(queue: string, item: string, namespace: string)
    | QueueItemRetry(queue: string, item: string, namespace: string)
    | QueueItemDead(queue: string, item: string, namespace: string)
    | DecisionCreated(decision: string, decisionJob: string, agentId: Option<string>, owner: Owner,
                      source: string, context: string, options: seq<string>, at: nat, namespace: string)
    | DecisionResolved(decision: string, chosen: Option<nat>, message: Option<string>, at: nat)
    | AgentRunCreated(run: string, agentLabel: string, commandName: string, namespace: string,
                      cwd: string, runbookHash: string, vars: map<string, string>, at: nat)
    | AgentRunStarted(run: string, agent: string)
    | AgentRunStatusChanged(run: string, status: RunStatus, why: Option<string>)
    | AgentRunDeleted(run: string)
    | Shutdown
    | JobResume(job: string)
    | Signal(about: Option<string>)

  predicate AboutJob(e: Event) {
    e.JobCreated? || e.JobAdvanced? || e.JobUpdated? || e.JobCancelling? || e.JobDeleted?
  }

  predicate AboutStep(e: Event) {
    e.ShellExited? || e.StepStarted? || e.StepWaiting? || e.StepCompleted? || e.StepFailed?
  }

  predicate AboutAgent(e: Event) {
    e.AgentWorking? || e.AgentWaiting? || e.AgentExited? || e.AgentFailed? || e.AgentGone?
  }

  predicate AboutSession(e: Event) { e.SessionCreated? || e.SessionDeleted? }

  predicate AboutWorkspace(e: Event) {
    e.WorkspaceCreated? || e.WorkspaceReady? || e.WorkspaceFailed? || e.WorkspaceDeleted?
  }

  predicate AboutWorker(e: Event) {
    e.WorkerStarted? || e.WorkerItemDispatched? || e.WorkerStopped? || e.WorkerResized? || e.WorkerDeleted?
    || e.CommandRun?
  }

  predicate AboutQueue(e: Event) {
    e.QueuePushed? || e.QueueTaken? || e.QueueCompleted? || e.QueueFailed? || e.QueueDropped?
    || e.QueueItemRetry? || e.QueueItemDead?
  }

  predicate AboutCron(e: Event) {
    e.CronStarted? || e.CronStopped? || e.CronFired? || e.CronDeleted? || e.RunbookLoaded?
  }

  predicate AboutDecision(e: Event) { e.DecisionCreated? || e.DecisionResolved? }

  predicate AboutRun(e: Event) {
    e.AgentRunCreated? || e.AgentRunStarted? || e.AgentRunStatusChanged? || e.AgentRunDeleted?
  }

  // ------------------------------------------- what an event does to one record

  const GONE := "session terminated unexpectedly"

  function AgentFailure(code: Option<int>): Option<string> {
    if code == Some(0) then None
    else if code.None? then Some("exit code: None")
    else Some("exit code: Some(" + Text.Signed(code.value) + ")")
  }

  function ShellFailure(code: int): Option<string> {
    if code == 0 then None else Some("shell exit code: " + Text.Signed(code))
  }

  function AgentStopped(j: Job, failure: Option<string>): Job {
    if j.IsTerminal() then j
    else if failure.None? then j.(status := Completed)
    else j.(status := Failed, error := failure)
  }

  function StepEnded(j: Job, failure: Option<string>, now: nat): Job {
    match failure
    case None => j.(status := Completed, history := Finalize(j.history, Succeeded, now))
    case Some(e) => j.(status := Failed, error := Some(e),
                       history := Finalize(j.history, FailedWith(e), now))
  }

  function NewJob(e: Event): Job
    requires e.JobCreated?
  {
    Job(e.job, e.name, e.jobKind, e.namespace, e.initialStep, Pending, [NewRecord(e.initialStep, e.at)],
        e.vars, e.runbookHash, e.cwd, None, None, None, None, Tracker(map[], None), false, 0, map[],
        e.cronName)
  }

  function StatusOnEntry(step: string): StepStatus {
    if step == "failed" || step == "cancelled" then Failed
    else if step == "done" then Completed
    else Pending
  }

  // Already on the step, and not recovering from a failure.
  predicate SkipsAdvance(j: Job, step: string) {
    j.step == step && !j.status.Failed?
  }

  function ClosingOutcome(j: Job, step: string): StepOutcome {
    if step == "failed" || step == "cancelled" then FailedWith(if j.error.Some? then j.error.value else "")
    else Succeeded
  }

  // Closes the open record and, unless the step is terminal, opens one for it.
  function HistoryOnEntry(h: seq<StepRecord>, outcome: StepOutcome, step: string, now: nat): seq<StepRecord> {
    var closed := Finalize(h, outcome, now);
    if TerminalStep(step) then closed else closed + [NewRecord(step, now)]
  }

  function Advance(j: Job, step: string, now: nat): Job {
    if SkipsAdvance(j, step) then j
    else
      var resuming := j.IsTerminal() && !TerminalStep(step);
      j.(error := if resuming then None else j.error,
         sessionId := if resuming then None else j.sessionId,
         step := step,
         status := StatusOnEntry(step),
         tracker := Tracker(if j.status.Failed? then j.tracker.attempts else map[], None),
         stepVisits := if TerminalStep(step) then j.stepVisits else Visit(j.stepVisits, step),
         history := HistoryOnEntry(j.history, ClosingOutcome(j, step), step, now))
  }

  function StartStep(j: Job, agentId: Option<string>, agentName: Option<string>): Job {
    var h1 := if agentId.Some? then SetAgentId(j.history, agentId.value) else j.history;
    var h2 := if agentName.Some? then SetAgentName(h1, agentName.value) else h1;
    j.(status := Running, history := SetOutcome(h2, StillRunning))
  }

  function WaitStep(j: Job, reason: Option<string>, decision: Option<string>): Job {
    j.(status := Waiting(decision),
       error := if reason.Some? then reason else j.error,
       history := SetOutcome(j.history, WaitingFor(if reason.Some? then reason.value else "")))
  }

  function JobAfterStep(j: Job, e: Event, now: nat): Job
    requires AboutStep(e)
  {
    match e
    case ShellExited(_, code) => StepEnded(j, ShellFailure(code), now)
    case StepStarted(_, agentId, agentName) => StartStep(j, agentId, agentName)
    case StepWaiting(_, reason, decision) => WaitStep(j, reason, decision)
    case StepCompleted(_) => StepEnded(j, None, now)
    case StepFailed(_, error) => StepEnded(j, Some(error), now)
  }

  function JobAfterAgent(j: Job, e: Event): Job
    requires AboutAgent(e)
  {
    match e
    case AgentWorking(_, _) => j.(status := Running)
    case AgentWaiting(_) => j
    case AgentExited(_, code, _) => AgentStopped(j, AgentFailure(code))
    case AgentFailed(_, reason, _) => AgentStopped(j, Some(reason))
    case AgentGone(_, _) => AgentStopped(j, Some(GONE))
  }

  function JobAfter(j: Job, e: Event, now: nat): Job {
    if AboutStep(e) then JobAfterStep(j, e, now)
    else if AboutAgent(e) then JobAfterAgent(j, e)
    else match e
    case JobAdvanced(_, step) => Advance(j, step, now)
    case JobUpdated(_, vars) => j.(vars := j.vars + vars)
    case JobCancelling(_) => j.(cancelling := true)
    case AgentSignaled(_, kind, message) =>
      j.(tracker := j.tracker.(signal := Some(Actions.Signal(kind, message))))
    case SessionCreated(id, _) => j.(sessionId := Some(id))
    case SessionDeleted(id) => if j.sessionId == Some(id) then j.(sessionId := None) else j
    case WorkspaceCreated(id, path, _, _, _) => j.(workspacePath := Some(path), workspaceId := Some(id))
    case DecisionCreated(id, _, _, _, _, _, _, _, _) => j.(status := Waiting(Some(id)))
    case _ => j
  }

  function AgentAfter(a: Agent, e: Event, now: nat): Agent {
    match e
    case AgentWorking(_, _) => a.(status := AgentRunning, updatedAt := now)
    case AgentWaiting(_) => a.(status := AgentIdling, updatedAt := now)
    case AgentExited(_, _, _) | AgentFailed(_, _, _) => a.(status := AgentEnded, updatedAt := now)
    case AgentGone(_, _) => a.(status := AgentVanished, updatedAt := now)
    case SessionCreated(id, owner) =>
      if a.owner == owner && a.sessionId.None? then a.(sessionId := Some(id)) else a
    case SessionDeleted(id) => if a.sessionId == Some(id) then a.(sessionId := None) else a
    case _ => a
  }

  function RunAfter(r: AgentRun, e: Event, now: nat): AgentRun {
    match e
    case AgentRunStarted(_, agent) => r.(status := RunRunning, agentId := Some(agent), updatedAt := now)
    case AgentRunStatusChanged(_, status, why) =>
      r.(status := status, error := if why.Some? then why else r.error, updatedAt := now)
    case AgentSignaled(_, kind, message) =>
      r.(tracker := r.tracker.(signal := Some(Actions.Signal(kind, message))))
    case SessionCreated(id, _) => r.(sessionId := Some(id))
    case SessionDeleted(id) => if r.sessionId == Some(id) then r.(sessionId := None) else r
    case DecisionCreated(_, _, _, _, _, _, _, _, _) => r.(status := RunWaiting)
    case _ => r
  }

  function WorkspaceAfter(w: Workspace, e: Event): Workspace {
    match e
    case WorkspaceReady(_) => w.(status := Ready)
    case WorkspaceFailed(_, reason) => w.(status := SetupFailed(reason))
    case _ => w
  }

  function Others(ids: seq<string>, id: string): (r: seq<string>)
    ensures forall x :: x in r <==> x in ids && x != id
  {
    if ids == [] then []
    else if ids[0] == id then Others(ids[1..], id)
    else [ids[0]] + Others(ids[1..], id)
  }

  function WorkerAfter(w: Worker, e: Event): Worker {
    match e
    case WorkerItemDispatched(_, _, job, _) =>
      if job in w.activeJobs then w else w.(activeJobs := w.activeJobs + [job])
    case WorkerStopped(_, _) => w.(status := "stopped")
    case WorkerResized(_, concurrency, _) => w.(concurrency := concurrency)
    case JobAdvanced(id, _) => w.(activeJobs := Others(w.activeJobs, id))
    case _ => w
  }

  function ItemAfter(i: QueueItem, e: Event): (r: QueueItem)
    ensures r.id == i.id
  {
    match e
    case QueueTaken(_, _, worker, _) => i.(status := ItemActive, workerName := Some(worker))
    case QueueCompleted(_, _, _) => i.(status := ItemCompleted)
    case QueueFailed(_, _, _) =>
      i.(failureCount := if i.status != ItemFailed then i.failureCount + 1 else i.failureCount,
         status := ItemFailed)
    case QueueItemRetry(_, _, _) => i.(status := ItemPending, failureCount := 0, workerName := None)
    case QueueItemDead(_, _, _) => i.(status := ItemDead)
    case _ => i
  }

  // The first item called `item` changes; the others stay.
  function ItemsAfter(items: seq<QueueItem>, item: string, e: Event): seq<QueueItem> {
    if items == [] then []
    else if items[0].id == item then [ItemAfter(items[0], e)] + items[1..]
    else [items[0]] + ItemsAfter(items[1..], item, e)
  }

  function ItemsWithout(items: seq<QueueItem>, item: string): (r: seq<QueueItem>)
    ensures forall x :: x in r ==> x.id != item
  {
    if items == [] then []
    else if items[0].id == item then ItemsWithout(items[1..], item)
    else [items[0]] + ItemsWithout(items[1..], item)
  }

  function CronAfter(c: Cron, e: Event, now: nat): Cron {
    match e
    case CronStopped(_, _) => c.(status := "stopped")
    case CronFired(_, _, _, _) => c.(lastFiredAt := Some(now))
    case _ => c
  }

  function DecisionAfter(d: Decision, e: Event): Decision {
    match e
    case DecisionCreated(id, _, _, owner, _, _, _, at, _) =>
      if d.owner == owner && d.resolvedAt.None?
      then d.(resolvedAt := Some(at), supersededBy := Some(id)) else d
    case DecisionResolved(_, chosen, message, at) =>
      d.(chosen := chosen, message := message, resolvedAt := Some(at))
    case _ => d
  }

  // ---------------------------------------------- what it does to one table

  function JobsAt(m: map<string, Job>, id: string, e: Event, now: nat): map<string, Job> {
    if id in m then m[id := JobAfter(m[id], e, now)] else m
  }

  function AgentsAt(m: map<string, Agent>, id: string, e: Event, now: nat): map<string, Agent> {
    if id in m then m[id := AgentAfter(m[id], e, now)] else m
  }

  function RunsAt(m: map<string, AgentRun>, id: string, e: Event, now: nat): map<string, AgentRun> {
    if id in m then m[id := RunAfter(m[id], e, now)] else m
  }

  function OwnedJobs(m: map<string, Job>, owner: Owner, e: Event, now: nat): map<string, Job> {
    if owner.JobOwner? then JobsAt(m, owner.id, e, now) else m
  }

  function OwnedRuns(m: map<string, AgentRun>, owner: Owner, e: Event, now: nat): map<string, AgentRun> {
    if owner.RunOwner? then RunsAt(m, owner.id, e, now) else m
  }

  function WorkspacesAt(m: map<string, Workspace>, id: string, e: Event): map<string, Workspace> {
    if id in m then m[id := WorkspaceAfter(m[id], e)] else m
  }

  function WorkersAt(m: map<string, Worker>, key: string, e: Event): map<string, Worker> {
    if key in m then m[key := WorkerAfter(m[key], e)] else m
  }

  function CronsAt(m: map<string, Cron>, key: string, e: Event, now: nat): map<string, Cron> {
    if key in m then m[key := CronAfter(m[key], e, now)] else m
  }

  function DecisionsAt(m: map<string, Decision>, id: string, e: Event): map<string, Decision> {
    if id in m then m[id := DecisionAfter(m[id], e)] else m
  }

  function AllJobs(m: map<string, Job>, e: Event, now: nat): map<string, Job> {
    map k | k in m :: JobAfter(m[k], e, now)
  }

  function AllRuns(m: map<string, AgentRun>, e: Event, now: nat): map<string, AgentRun> {
    map k | k in m :: RunAfter(m[k], e, now)
  }

  function AllAgents(m: map<string, Agent>, e: Event, now: nat): map<string, Agent> {
    map k | k in m :: AgentAfter(m[k], e, now)
  }

  function AllWorkers(m: map<string, Worker>, e: Event): map<string, Worker> {
    map k | k in m :: WorkerAfter(m[k], e)
  }

  function AllDecisions(m: map<string, Decision>, e: Event): map<string, Decision> {
    map k | k in m :: DecisionAfter(m[k], e)
  }

  function Without<V>(m: map<string, V>, k: string): map<string, V> {
    map j | j in m && j != k :: m[j]
  }

  function AgentsNotOf(m: map<string, Agent>, owner: Owner): map<string, Agent> {
    map k | k in m && m[k].owner != owner :: m[k]
  }

  // Drops what `job` left undecided (`all`: what it decided too).
  function DecisionsNotOf(m: map<string, Decision>, job: string, all: bool): map<string, Decision> {
    map k | k in m && (m[k].jobId != job || (!all && m[k].resolvedAt.Some?)) :: m[k]
  }

  function DecisionsNotOfRun(m: map<string, Decision>, run: string): map<string, Decision> {
    map k | k in m && (m[k].owner == RunOwner(run) ==> m[k].resolvedAt.Some?) :: m[k]
  }

  function Root(m: map<string, string>, namespace: string, root: string): map<string, string> {
    if namespace == "" then m else m[namespace := root]
  }

  // -------------------------------------------------- what it does to the state

  predicate Stays(m: map<string, Job>, e: Event)
    requires e.JobAdvanced?
  {
    e.job in m && SkipsAdvance(m[e.job], e.step)
  }

  // A job that ends leaves its worker, and what it left undecided is dropped.
  function WorkersOnEntry(m: map<string, Worker>, e: Event): map<string, Worker>
    requires e.JobAdvanced?
  {
    if TerminalStep(e.step) then AllWorkers(m, e) else m
  }

  function DecisionsOnEntry(m: map<string, Decision>, e: Event): map<string, Decision>
    requires e.JobAdvanced?
  {
    if TerminalStep(e.step) then DecisionsNotOf(m, e.job, false) else m
  }

  function ApplyJob(s: State, e: Event, now: nat): State
    requires AboutJob(e)
  {
    if e.JobCreated? then s.(jobs := s.jobs[e.job := NewJob(e)])
    else if e.JobDeleted? then
      s.(jobs := Without(s.jobs, e.job), decisions := DecisionsNotOf(s.decisions, e.job, true),
         agents := AgentsNotOf(s.agents, JobOwner(e.job)))
    else if e.JobAdvanced? && Stays(s.jobs, e) then s
    else if e.JobAdvanced? then
      s.(jobs := JobsAt(s.jobs, e.job, e, now), workers := WorkersOnEntry(s.workers, e),
         decisions := DecisionsOnEntry(s.decisions, e))
    else s.(jobs := JobsAt(s.jobs, e.job, e, now))
  }

  function NewJobAgent(j: Job, id: string, agentId: string, agentName: Option<string>, now: nat): Agent {
    Agent(agentId, if agentName.Some? then agentName.value else "", JobOwner(id), j.namespace,
          if j.workspacePath.Some? then j.workspacePath.value else j.cwd, None, AgentStarting, now, now)
  }

  // The agent of a starting step enters the index of agents, unless it is there.
  function StartedAgents(agents: map<string, Agent>, jobs: map<string, Job>, e: Event, now: nat): map<string, Agent>
    requires e.StepStarted?
  {
    if e.agentId.None? || e.job !in jobs || e.agentId.value in agents then agents
    else agents[e.agentId.value := NewJobAgent(jobs[e.job], e.job, e.agentId.value, e.agentName, now)]
  }

  function ApplyStep(s: State, e: Event, now: nat): State
    requires AboutStep(e)
  {
    var jobs := JobsAt(s.jobs, e.job, e, now);
    if e.StepStarted? then s.(jobs := jobs, agents := StartedAgents(s.agents, s.jobs, e, now)) else s.(jobs := jobs)
  }

  function ApplyAgent(s: State, e: Event, now: nat): State
    requires AboutAgent(e)
  {
    var agents := AgentsAt(s.agents, e.agent, e, now);
    if e.AgentWaiting? then s.(agents := agents)
    else s.(jobs := OwnedJobs(s.jobs, e.owner, e, now), agents := agents)
  }

  // Which of several matching entries a scan of a hash map meets first. It is fixed by the
  // set of candidates: changing values in place does not reorder the map.
  ghost function FirstOf(keys: set<string>): (k: string)
    requires keys != {}
    ensures k in keys
  {
    var k :| k in keys; k
  }

  function RunsOfAgent(runs: map<string, AgentRun>, agent: string): set<string> {
    set k | k in runs && runs[k].agentId == Some(agent)
  }

  predicate CurrentAgent(j: Job, agent: string) {
    j.history != [] && j.history[|j.history| - 1].agentId == Some(agent)
  }

  function JobsOfAgent(jobs: map<string, Job>, agent: string): set<string> {
    set k | k in jobs && CurrentAgent(jobs[k], agent)
  }

  ghost function ApplySignal(s: State, e: Event, now: nat): State
    requires e.AgentSignaled?
  {
    var runs, jobs := RunsOfAgent(s.runs, e.agent), JobsOfAgent(s.jobs, e.agent);
    if e.kind == Continue then s
    else if runs != {} then s.(runs := RunsAt(s.runs, FirstOf(runs), e, now))
    else if jobs != {} then s.(jobs := JobsAt(s.jobs, FirstOf(jobs), e, now))
    else s
  }

  function ApplySession(s: State, e: Event, now: nat): State
    requires AboutSession(e)
  {
    if e.SessionCreated? then
      s.(sessions := s.sessions[e.session := Session(e.session, if e.owner.JobOwner? then e.owner.id else "")],
         jobs := OwnedJobs(s.jobs, e.owner, e, now),
         runs := OwnedRuns(s.runs, e.owner, e, now),
         agents := AllAgents(s.agents, e, now))
    else
      s.(sessions := Without(s.sessions, e.session), jobs := AllJobs(s.jobs, e, now),
         runs := AllRuns(s.runs, e, now), agents := AllAgents(s.agents, e, now))
  }

  function NewWorkspace(e: Event, now: nat): Workspace
    requires e.WorkspaceCreated?
  {
    var kind := if e.wsType == Some("worktree") then Worktree else Folder;
    Workspace(e.workspace, e.path, e.branch, e.wsOwner, Creating, kind, now)
  }

  function ApplyWorkspace(s: State, e: Event, now: nat): State
    requires AboutWorkspace(e)
  {
    if e.WorkspaceCreated? then
      s.(jobs := if e.wsOwner.Some? then OwnedJobs(s.jobs, e.wsOwner.value, e, now) else s.jobs,
         workspaces := s.workspaces[e.workspace := NewWorkspace(e, now)])
    else if e.WorkspaceDeleted? then s.(workspaces := Without(s.workspaces, e.workspace))
    else s.(workspaces := WorkspacesAt(s.workspaces, e.workspace, e))
  }

  function ApplyWorker(s: State, e: Event): State
    requires AboutWorker(e)
  {
    if e.CommandRun? then s.(projectRoots := Root(s.projectRoots, e.namespace, e.projectRoot))
    else
      var key := Names.Scoped(e.namespace, e.worker);
      if e.WorkerStarted? then
        var active := if key in s.workers then s.workers[key].activeJobs else [];
        s.(projectRoots := Root(s.projectRoots, e.namespace, e.projectRoot),
           workers := s.workers[key := Worker(e.worker, e.namespace, e.projectRoot, e.runbookHash, "running",
                                              active, e.queue, e.concurrency)])
      else if e.WorkerDeleted? then s.(workers := Without(s.workers, key))
      else s.(workers := WorkersAt(s.workers, key, e))
  }

  predicate HasItem(items: seq<QueueItem>, item: string) {
    exists i :: i in items && i.id == item
  }

  function ApplyQueue(s: State, e: Event): State
    requires AboutQueue(e)
  {
    var key := Names.Scoped(e.namespace, e.queue);
    var items := if key in s.queues then s.queues[key] else [];
    if e.QueuePushed? then
      var pushed := if HasItem(items, e.item) then items
                    else items + [QueueItem(e.item, e.queue, e.payload, ItemPending, None, e.at, 0)];
      s.(queues := s.queues[key := pushed])
    else if key !in s.queues then s
    else if e.QueueDropped? then s.(queues := s.queues[key := ItemsWithout(items, e.item)])
    else s.(queues := s.queues[key := ItemsAfter(items, e.item, e)])
  }

  function ApplyCron(s: State, e: Event, now: nat): State
    requires AboutCron(e)
  {
    if e.RunbookLoaded? then
      (if e.hash in s.runbooks then s else s.(runbooks := s.runbooks[e.hash := Runbook(e.version, e.data)]))
    else
      var key := Names.Scoped(e.namespace, e.cron);
      if e.CronStarted? then
        var last := if key in s.crons then s.crons[key].lastFiredAt else None;
        s.(projectRoots := Root(s.projectRoots, e.namespace, e.projectRoot),
           crons := s.crons[key := Cron(e.cron, e.namespace, e.projectRoot, e.runbookHash, "running",
                                        e.interval, e.runTarget, now, last)])
      else if e.CronDeleted? then s.(crons := Without(s.crons, key))
      else s.(crons := CronsAt(s.crons, key, e, now))
  }

  function NewDecision(e: Event): Decision
    requires e.DecisionCreated?
  {
    Decision(e.decision, e.decisionJob, e.agentId, e.owner, e.source, e.context, e.options, None, None,
             e.at, None, None, e.namespace)
  }

  function ApplyDecision(s: State, e: Event, now: nat): State
    requires AboutDecision(e)
  {
    if e.DecisionResolved? then s.(decisions := DecisionsAt(s.decisions, e.decision, e))
    else
      s.(decisions := if e.decision in s.decisions then s.decisions
                      else AllDecisions(s.decisions, e)[e.decision := NewDecision(e)],
         jobs := OwnedJobs(s.jobs, e.owner, e, now),
         runs := OwnedRuns(s.runs, e.owner, e, now))
  }

  predicate TerminalRun(status: RunStatus) { status.RunCompleted? || status.RunFailed? }

  function NewRun(e: Event): AgentRun
    requires e.AgentRunCreated?
  {
    AgentRun(e.run, e.agentLabel, e.commandName, e.namespace, e.cwd, e.runbookHash, RunStarting,
             None, None, None, e.at, e.at, Tracker(map[], None), e.vars)
  }

  function NewRunAgent(r: AgentRun, run: string, agent: string, now: nat): Agent {
    Agent(agent, r.agentName, RunOwner(run), r.namespace, r.cwd, None, AgentRunning, now, now)
  }

  function StartedRunAgents(agents: map<string, Agent>, runs: map<string, AgentRun>, e: Event, now: nat)
    : map<string, Agent>
    requires e.AgentRunStarted?
  {
    if e.run !in runs || e.agent in agents then agents
    else agents[e.agent := NewRunAgent(runs[e.run], e.run, e.agent, now)]
  }

  function DecisionsOnStatus(m: map<string, Decision>, run: string, status: RunStatus): map<string, Decision> {
    if TerminalRun(status) then DecisionsNotOfRun(m, run) else m
  }

  function ApplyRun(s: State, e: Event, now: nat): State
    requires AboutRun(e)
  {
    if e.AgentRunCreated? then s.(runs := s.runs[e.run := NewRun(e)])
    else if e.AgentRunDeleted? then
      s.(runs := Without(s.runs, e.run), agents := AgentsNotOf(s.agents, RunOwner(e.run)))
    else if e.AgentRunStarted? then
      s.(runs := RunsAt(s.runs, e.run, e, now), agents := StartedRunAgents(s.agents, s.runs, e, now))
    else
      s.(runs := RunsAt(s.runs, e.run, e, now), decisions := DecisionsOnStatus(s.decisions, e.run, e.status))
  }

  ghost function Apply(s: State, e: Event, now: nat): State {
    if AboutJob(e) then ApplyJob(s, e, now)
    else if AboutStep(e) then ApplyStep(s, e, now)
    else if AboutAgent(e) then ApplyAgent(s, e, now)
    else if e.AgentSignaled? then ApplySignal(s, e, now)
    else if AboutSession(e) then ApplySession(s, e, now)
    else if AboutWorkspace(e) then ApplyWorkspace(s, e, now)
    else if AboutWorker(e) then ApplyWorker(s, e)
    else if AboutQueue(e) then ApplyQueue(s, e)
    else if AboutCron(e) then ApplyCron(s, e, now)
    else if AboutDecision(e) then ApplyDecision(s, e, now)
    else if AboutRun(e) then ApplyRun(s, e, now)
    else s
  }
}
