/** What any history leaves in the smaller tables of the state (crates/storage/src/state.rs): each entry,
    told from the events about it. */
module RecordStories {
  import opened Wrappers
  import opened State
  import opened Stories
  import Jobs
  import opened Tables
  import Scoping = Names
  import Collapse
  import DaemonRuns
  import Endings
  import QueueItems

  // The table has the entry exactly if it has a story, and then the entry is as the story says.
  ghost predicate Tells<V>(t: map<string, V>, key: string, story: Option<seq<Event>>, says: (V, seq<Event>) -> bool) {
    (key in t <==> story.Some?) && (story.Some? ==> says(t[key], story.value))
  }

  ghost function Now(history: seq<Event>): State { Collapse.Fold(DaemonRuns.Daemon(), history) }

  // ------------------------------------------------------------- workspaces

  function WorkspacePlot(id: string): Plot<Event> {
    Plot((e: Event) => e.WorkspaceCreated? && e.workspace == id, (e: Event) => e.WorkspaceDeleted? && e.workspace == id,
         (e: Event) => (e.WorkspaceReady? || e.WorkspaceFailed?) && e.workspace == id)
  }

  // It is as it was made, and its status is what was last said of it.
  predicate WorkspaceSays(w: Workspace, story: seq<Event>) {
    && story != [] && story[0].WorkspaceCreated?
    && w.id == story[0].workspace && w.path == story[0].path && w.branch == story[0].branch
    && w.owner == story[0].wsOwner && (w.kind == Worktree <==> story[0].wsType == Some("worktree"))
    && match story[|story| - 1]
       case WorkspaceReady(_) => w.status == Ready
       case WorkspaceFailed(_, reason) => w.status == SetupFailed(reason)
       case _ => w.status == Creating
  }

  lemma WorkspaceNext(s: State, e: Event, id: string, story: Option<seq<Event>>)
    requires Tells(s.workspaces, id, story, WorkspaceSays)
    ensures Tells(Apply(s, e, 0).workspaces, id, Next(WorkspacePlot(id), story, e), WorkspaceSays)
  {
    if AboutWorkspace(e) {
      WorkspaceApply(s, e);
      WorkspaceTable(s, e, id);
      if story.Some? && (e.WorkspaceReady? || e.WorkspaceFailed?) {
        WorkspaceGoesOn(s.workspaces[id], story.value, e);
      }
      hide Apply, ApplyWorkspace, WorkspaceSays, WorkspaceAfter;
    } else {
      Frame(s, e, 0);
      hide Apply, WorkspaceSays;
    }
  }

  lemma WorkspaceGoesOn(w: Workspace, story: seq<Event>, e: Event)
    requires WorkspaceSays(w, story) && (e.WorkspaceReady? || e.WorkspaceFailed?)
    ensures WorkspaceSays(WorkspaceAfter(w, e), story + [e])
  {
  }

  lemma WorkspaceTable(s: State, e: Event, id: string)
    requires AboutWorkspace(e)
    ensures var t := ApplyWorkspace(s, e, 0).workspaces;
            if e.workspace != id then (id in t <==> id in s.workspaces) && (id in t ==> t[id] == s.workspaces[id])
            else if e.WorkspaceCreated? then id in t && WorkspaceSays(t[id], [e])
            else (id in t <==> !e.WorkspaceDeleted? && id in s.workspaces)
                 && (id in t ==> t[id] == WorkspaceAfter(s.workspaces[id], e))
  {
    hide OwnedJobs, WorkspaceAfter;
  }

  lemma WorkspaceApply(s: State, e: Event)
    requires AboutWorkspace(e)
    ensures Apply(s, e, 0) == ApplyWorkspace(s, e, 0)
  {
    WorkspaceEvents(e);
    hide ApplyJob, ApplyStep, ApplyAgent, ApplySignal, ApplySession, ApplyWorkspace, ApplyWorker, ApplyQueue, ApplyCron,
         ApplyDecision, ApplyRun, AboutJob, AboutStep, AboutAgent, AboutSession, AboutWorkspace;
  }

  lemma WorkspaceEvents(e: Event)
    requires AboutWorkspace(e)
    ensures !AboutJob(e) && !AboutStep(e) && !AboutAgent(e) && !e.AgentSignaled? && !AboutSession(e)
  {
  }

  // In every history, between any other events.
  lemma {:induction false} WorkspaceTold(history: seq<Event>, id: string)
    ensures Tells(Now(history).workspaces, id, Story(WorkspacePlot(id), history), WorkspaceSays)
  {
    if history != [] {
      WorkspaceTold(history[..|history| - 1], id);
      QueueItems.FoldUnfolds(history);
      WorkspaceNext(Now(history[..|history| - 1]), history[|history| - 1], id,
                    Story(WorkspacePlot(id), history[..|history| - 1]));
      hide Apply, Collapse.Fold, Tells;
    }
  }

  // ------------------------------------------------------------- workers

  predicate AboutWorkerAt(e: Event, key: string) {
    AboutWorker(e) && !e.CommandRun? && Scoping.Scoped(e.namespace, e.worker) == key
  }

  function WorkerPlot(key: string): Plot<Event> {
    Plot((e: Event) => e.WorkerStarted? && AboutWorkerAt(e, key),
         (e: Event) => e.WorkerDeleted? && AboutWorkerAt(e, key),
         (e: Event) => (e.WorkerStopped? || e.WorkerResized?) && AboutWorkerAt(e, key))
  }

  // It is as it was last started, stopped if it was stopped since, and as large as was last said.
  predicate WorkerSays(w: Worker, story: seq<Event>) {
    && story != [] && story[0].WorkerStarted?
    && w.name == story[0].worker && w.namespace == story[0].namespace && w.projectRoot == story[0].projectRoot
    && w.runbookHash == story[0].runbookHash && w.queueName == story[0].queue
    && w.status == (if exists e :: e in story && e.WorkerStopped? then "stopped" else "running")
    && (var sized := Last(story, (e: Event) => e.WorkerStarted? || e.WorkerResized?);
        sized.Some? && w.concurrency == sized.value.concurrency)
  }

  lemma WorkerSnoc(story: seq<Event>, e: Event)
    requires story != []
    ensures (exists x :: x in story + [e] && x.WorkerStopped?)
            <==> e.WorkerStopped? || exists x :: x in story && x.WorkerStopped?
    ensures Last(story + [e], (e: Event) => e.WorkerStarted? || e.WorkerResized?)
            == if e.WorkerStarted? || e.WorkerResized? then Some(e)
               else Last(story, (e: Event) => e.WorkerStarted? || e.WorkerResized?)
    ensures (story + [e])[0] == story[0]
  {
    LastSnoc(story, e, (e: Event) => e.WorkerStarted? || e.WorkerResized?);
    var more := story + [e];
    assert forall x :: x in more <==> x in story || x == e;
  }

  lemma WorkerGoesOn(w: Worker, story: seq<Event>, e: Event)
    requires WorkerSays(w, story) && (e.WorkerStopped? || e.WorkerResized? || e.WorkerItemDispatched? || e.JobAdvanced?)
    ensures WorkerSays(WorkerAfter(w, e), if e.WorkerStopped? || e.WorkerResized? then story + [e] else story)
  {
    WorkerSnoc(story, e);
    WorkerAlters(w, e);
    hide Last, WorkerAfter;
  }

  lemma WorkerAlters(w: Worker, e: Event)
    requires e.WorkerStopped? || e.WorkerResized? || e.WorkerItemDispatched? || e.JobAdvanced?
    ensures WorkerAfter(w, e).(activeJobs := w.activeJobs)
            == if e.WorkerStopped? then w.(status := "stopped")
               else if e.WorkerResized? then w.(concurrency := e.concurrency) else w
  {
    hide Others;
  }

  lemma WorkerStarts(s: State, e: Event, key: string)
    requires e.WorkerStarted?
    ensures var t := ApplyWorker(s, e).workers;
            if AboutWorkerAt(e, key) then key in t && WorkerSays(t[key], [e])
            else (key in t <==> key in s.workers) && (key in t ==> t[key] == s.workers[key])
  {
    assert [e][..0] == [];
    hide Scoping.Scoped, Root;
  }

  lemma WorkerChanges(s: State, e: Event, key: string)
    requires AboutWorker(e) && !e.WorkerStarted?
    ensures var t := ApplyWorker(s, e).workers;
            if AboutWorkerAt(e, key) then
              (key in t <==> !e.WorkerDeleted? && key in s.workers)
              && (key in t ==> t[key] == WorkerAfter(s.workers[key], e))
            else (key in t <==> key in s.workers) && (key in t ==> t[key] == s.workers[key])
  {
    Endings.WorkersAfter(s, e);
    hide ApplyWorker, WorkerAfter, Scoping.Scoped;
  }

  lemma WorkerNext(s: State, e: Event, key: string, story: Option<seq<Event>>)
    requires Tells(s.workers, key, story, WorkerSays)
    ensures Tells(Apply(s, e, 0).workers, key, Next(WorkerPlot(key), story, e), WorkerSays)
  {
    if AboutWorker(e) {
      Endings.WorkersOnly(s, e, 0);
      if e.WorkerStarted? { WorkerStarts(s, e, key); } else { WorkerChanges(s, e, key); }
      if story.Some? && (e.WorkerStopped? || e.WorkerResized? || e.WorkerItemDispatched?) {
        WorkerGoesOn(s.workers[key], story.value, e);
      }
      hide Apply, ApplyWorker, WorkerSays, WorkerAfter, Scoping.Scoped;
    } else if e.JobAdvanced? {
      WorkersAdvance(s, e, key);
      if story.Some? { WorkerGoesOn(s.workers[key], story.value, e); }
      hide Apply, WorkerSays, WorkerAfter, AboutWorker;
    } else {
      Endings.Elsewhere(s, e, 0);
      hide Apply, WorkerSays;
    }
  }

  lemma WorkersAdvance(s: State, e: Event, key: string)
    requires e.JobAdvanced?
    ensures var t := Apply(s, e, 0).workers;
            && (key in t <==> key in s.workers)
            && (key in t ==> t[key] == s.workers[key] || t[key] == WorkerAfter(s.workers[key], e))
  {
    WorkersOf(s, e);
    hide Apply, Stays, WorkerAfter, Jobs.TerminalStep;
  }

  lemma WorkersOf(s: State, e: Event)
    requires e.JobAdvanced?
    ensures Apply(s, e, 0).workers == if Stays(s.jobs, e) then s.workers else WorkersOnEntry(s.workers, e)
  {
    hide JobsAt, Stays, WorkersOnEntry, DecisionsOnEntry;
    assert Apply(s, e, 0) == ApplyJob(s, e, 0);
    hide Apply;
  }

  // In every history, between any other events.
  lemma {:induction false} WorkerTold(history: seq<Event>, key: string)
    ensures Tells(Now(history).workers, key, Story(WorkerPlot(key), history), WorkerSays)
  {
    if history != [] {
      WorkerTold(history[..|history| - 1], key);
      QueueItems.FoldUnfolds(history);
      WorkerNext(Now(history[..|history| - 1]), history[|history| - 1], key,
                 Story(WorkerPlot(key), history[..|history| - 1]));
      hide Apply, Collapse.Fold, Tells;
    }
  }

  // ------------------------------------------------------------- crons

  predicate AboutCronAt(e: Event, key: string) {
    AboutCron(e) && !e.RunbookLoaded? && Scoping.Scoped(e.namespace, e.cron) == key
  }

  function CronPlot(key: string): Plot<Event> {
    Plot((e: Event) => e.CronStarted? && AboutCronAt(e, key), (e: Event) => e.CronDeleted? && AboutCronAt(e, key),
         (e: Event) => (e.CronStopped? || e.CronFired?) && AboutCronAt(e, key))
  }

  // It is as it was last started, and stopped if it was stopped since.
  predicate CronSays(c: Cron, story: seq<Event>) {
    && story != [] && story[0].CronStarted?
    && c.name == story[0].cron && c.namespace == story[0].namespace && c.projectRoot == story[0].projectRoot
    && c.runbookHash == story[0].runbookHash && c.interval == story[0].interval && c.runTarget == story[0].runTarget
    && c.status == (if exists e :: e in story && e.CronStopped? then "stopped" else "running")
  }

  // Whether it fired since it was first there: starting it again does not forget that, deleting it does.
  predicate HasFired(history: seq<Event>, key: string) {
    if history == [] then false
    else
      var before, e := history[..|history| - 1], history[|history| - 1];
      FiredAfter(HasFired(before, key), e, key, Story(CronPlot(key), before).Some?)
  }

  lemma CronSnoc(story: seq<Event>, e: Event)
    ensures (exists x :: x in story + [e] && x.CronStopped?)
            <==> e.CronStopped? || exists x :: x in story && x.CronStopped?
    ensures story != [] ==> (story + [e])[0] == story[0]
  {
    var more := story + [e];
    assert forall x :: x in more <==> x in story || x == e;
  }

  predicate Fired(t: map<string, Cron>, key: string) { key in t && t[key].lastFiredAt.Some? }

  lemma CronNext(s: State, e: Event, key: string, story: Option<seq<Event>>)
    requires Tells(s.crons, key, story, CronSays)
    ensures Tells(Apply(s, e, 0).crons, key, Next(CronPlot(key), story, e), CronSays)
    ensures Fired(Apply(s, e, 0).crons, key) <==> FiredAfter(Fired(s.crons, key), e, key, story.Some?)
  {
    if AboutCron(e) {
      CronApply(s, e);
      CronTable(s, e, key, story);
      hide Apply, ApplyCron, Tells, CronPlot, Fired, FiredAfter;
    } else {
      Frame(s, e, 0);
      hide Apply, CronSays;
    }
  }

  lemma CronTable(s: State, e: Event, key: string, story: Option<seq<Event>>)
    requires Tells(s.crons, key, story, CronSays) && AboutCron(e)
    ensures Tells(ApplyCron(s, e, 0).crons, key, Next(CronPlot(key), story, e), CronSays)
    ensures Fired(ApplyCron(s, e, 0).crons, key) <==> FiredAfter(Fired(s.crons, key), e, key, story.Some?)
  {
    if e.CronStarted? {
      CronStarts(s, e, key);
    } else {
      CronChanges(s, e, key);
      if story.Some? && (e.CronStopped? || e.CronFired?) { CronGoesOn(s.crons[key], story.value, e); }
    }
    hide ApplyCron, CronSays, CronAfter, Scoping.Scoped;
  }

  predicate FiredAfter(fired: bool, e: Event, key: string, there: bool) {
    if !AboutCronAt(e, key) then fired else !e.CronDeleted? && (fired || (e.CronFired? && there))
  }

  lemma CronGoesOn(c: Cron, story: seq<Event>, e: Event)
    requires CronSays(c, story) && (e.CronStopped? || e.CronFired?)
    ensures CronSays(CronAfter(c, e, 0), story + [e])
    ensures CronAfter(c, e, 0).lastFiredAt.Some? <==> c.lastFiredAt.Some? || e.CronFired?
  {
    CronSnoc(story, e);
  }

  lemma CronStarts(s: State, e: Event, key: string)
    requires e.CronStarted?
    ensures var t := ApplyCron(s, e, 0).crons;
            if AboutCronAt(e, key) then key in t && CronSays(t[key], [e]) && (Fired(t, key) <==> Fired(s.crons, key))
            else (key in t <==> key in s.crons) && (key in t ==> t[key] == s.crons[key])
  {
    hide Scoping.Scoped, Root;
  }

  lemma CronChanges(s: State, e: Event, key: string)
    requires AboutCron(e) && !e.CronStarted?
    ensures var t := ApplyCron(s, e, 0).crons;
            if AboutCronAt(e, key) then
              (key in t <==> !e.CronDeleted? && key in s.crons)
              && (key in t ==> t[key] == CronAfter(s.crons[key], e, 0))
            else (key in t <==> key in s.crons) && (key in t ==> t[key] == s.crons[key])
  {
    CronsChange(s, e);
    hide ApplyCron, CronAfter, Scoping.Scoped;
  }

  lemma CronsChange(s: State, e: Event)
    requires AboutCron(e) && !e.CronStarted?
    ensures ApplyCron(s, e, 0).crons
            == if e.RunbookLoaded? then s.crons
               else var key := Scoping.Scoped(e.namespace, e.cron);
                    if e.CronDeleted? then Without(s.crons, key) else CronsAt(s.crons, key, e, 0)
  {
    hide Root, Scoping.Scoped, Without, CronsAt;
  }

  lemma CronApply(s: State, e: Event)
    requires AboutCron(e)
    ensures Apply(s, e, 0) == ApplyCron(s, e, 0)
  {
    CronEvents(e);
    hide ApplyJob, ApplyStep, ApplyAgent, ApplySignal, ApplySession, ApplyWorkspace, ApplyWorker, ApplyQueue, ApplyCron,
         ApplyDecision, ApplyRun, AboutJob, AboutStep, AboutAgent, AboutSession, AboutWorkspace, AboutWorker,
         AboutQueue, AboutCron;
  }

  lemma CronEvents(e: Event)
    requires AboutCron(e)
    ensures !AboutJob(e) && !AboutStep(e) && !AboutAgent(e) && !e.AgentSignaled? && !AboutSession(e)
    ensures !AboutWorkspace(e) && !AboutWorker(e) && !AboutQueue(e)
  {
  }

  // In every history, between any other events.
  lemma {:induction false} CronTold(history: seq<Event>, key: string)
    ensures Tells(Now(history).crons, key, Story(CronPlot(key), history), CronSays)
    ensures Fired(Now(history).crons, key) <==> HasFired(history, key)
  {
    if history != [] {
      CronTold(history[..|history| - 1], key);
      QueueItems.FoldUnfolds(history);
      CronNext(Now(history[..|history| - 1]), history[|history| - 1], key,
               Story(CronPlot(key), history[..|history| - 1]));
      hide Apply, Collapse.Fold, Tells, AboutCronAt, Fired;
    }
  }

  // ------------------------------------------------------------- sessions, runbooks, project roots

  // A session is there since it was last made, with the job it was made for, until it is deleted.
  function SessionIn(history: seq<Event>, id: string): Option<Session> {
    if history == [] then None
    else
      var e := history[|history| - 1];
      if e.SessionCreated? && e.session == id then
        Some(Session(id, match e.owner case JobOwner(job) => job case RunOwner(_) => ""))
      else if e.SessionDeleted? && e.session == id then None
      else SessionIn(history[..|history| - 1], id)
  }

  // A runbook stays as it was first loaded.
  function RunbookIn(history: seq<Event>, hash: string): Option<Runbook> {
    if history == [] then None
    else if history[0].RunbookLoaded? && history[0].hash == hash then
      Some(Runbook(history[0].version, history[0].data))
    else RunbookIn(history[1..], hash)
  }

  predicate NamesRoot(e: Event) { e.CommandRun? || e.WorkerStarted? || e.CronStarted? }

  // A namespace has the root that was last named for it; the empty one has none.
  function RootIn(history: seq<Event>, namespace: string): Option<string> {
    var named := Last(history, (e: Event) => NamesRoot(e) && e.namespace == namespace);
    if named.None? || namespace == "" then None else Some(named.value.projectRoot)
  }

  lemma RunbookSnoc(history: seq<Event>, e: Event, hash: string)
    ensures RunbookIn(history + [e], hash)
            == if RunbookIn(history, hash).Some? then RunbookIn(history, hash)
               else if e.RunbookLoaded? && e.hash == hash then Some(Runbook(e.version, e.data)) else None
  {
    if history == [] {
      assert (history + [e])[1..] == [];
    } else {
      RunbookSnoc(history[1..], e, hash);
      assert (history + [e])[1..] == history[1..] + [e];
    }
  }

  lemma {:induction false} SessionsTold(history: seq<Event>, id: string)
    ensures At(Now(history).sessions, id) == SessionIn(history, id)
  {
    if history != [] {
      SessionsTold(history[..|history| - 1], id);
      QueueItems.FoldUnfolds(history);
      SessionNext(Now(history[..|history| - 1]), history[|history| - 1], id);
      hide Apply, Collapse.Fold, At;
    }
  }

  lemma SessionNext(s: State, e: Event, id: string)
    ensures At(Apply(s, e, 0).sessions, id)
            == if e.SessionCreated? && e.session == id then
                 Some(Session(id, if e.owner.JobOwner? then e.owner.id else ""))
               else if e.SessionDeleted? && e.session == id then None else At(s.sessions, id)
  {
    if AboutSession(e) {
      hide OwnedJobs, OwnedRuns, AllJobs, AllRuns, AllAgents;
    } else {
      Frame(s, e, 0);
      hide Apply;
    }
  }

  lemma {:induction false} RunbooksTold(history: seq<Event>, hash: string)
    ensures At(Now(history).runbooks, hash) == RunbookIn(history, hash)
  {
    if history != [] {
      var before, e := history[..|history| - 1], history[|history| - 1];
      RunbooksTold(before, hash);
      QueueItems.FoldUnfolds(history);
      assert before + [e] == history;
      RunbookSnoc(before, e, hash);
      RunbookNext(Now(before), e, hash);
      hide Apply, Collapse.Fold, At;
    }
  }

  lemma RunbookNext(s: State, e: Event, hash: string)
    ensures At(Apply(s, e, 0).runbooks, hash)
            == if hash in s.runbooks then Some(s.runbooks[hash])
               else if e.RunbookLoaded? && e.hash == hash then Some(Runbook(e.version, e.data)) else None
  {
    if e.RunbookLoaded? {
      CronApply(s, e);
      RunbookLoads(s, e, hash);
      hide Apply, ApplyCron;
    } else {
      Frame(s, e, 0);
      hide Apply;
    }
  }

  lemma RunbookLoads(s: State, e: Event, hash: string)
    requires e.RunbookLoaded?
    ensures At(ApplyCron(s, e, 0).runbooks, hash)
            == if hash in s.runbooks then Some(s.runbooks[hash])
               else if e.hash == hash then Some(Runbook(e.version, e.data)) else None
  {
    hide Scoping.Scoped, Root, CronsAt, Without;
  }

  lemma {:induction false} RootsTold(history: seq<Event>, namespace: string)
    ensures At(Now(history).projectRoots, namespace) == RootIn(history, namespace)
  {
    if history != [] {
      RootsTold(history[..|history| - 1], namespace);
      QueueItems.FoldUnfolds(history);
      RootNext(Now(history[..|history| - 1]), history[|history| - 1], namespace);
      hide Apply, Collapse.Fold, At;
    }
  }

  lemma RootNext(s: State, e: Event, namespace: string)
    ensures At(Apply(s, e, 0).projectRoots, namespace) == RootAfter(At(s.projectRoots, namespace), e, namespace)
  {
    if e.CronStarted? {
      CronApply(s, e);
      CronRoot(s, e, namespace);
      hide Apply, ApplyCron;
    } else if NamesRoot(e) {
      Endings.WorkersOnly(s, e, 0);
      WorkerRoot(s, e, namespace);
      hide Apply, ApplyWorker;
    } else {
      RootKept(s, e);
      hide Apply;
    }
  }

  lemma RootKept(s: State, e: Event)
    requires !NamesRoot(e)
    ensures Apply(s, e, 0).projectRoots == s.projectRoots
  {
    Frame(s, e, 0);
    hide Apply;
  }

  function RootAfter(before: Option<string>, e: Event, namespace: string): Option<string> {
    if NamesRoot(e) && e.namespace == namespace && namespace != "" then Some(e.projectRoot) else before
  }

  lemma CronRoot(s: State, e: Event, namespace: string)
    requires e.CronStarted?
    ensures At(ApplyCron(s, e, 0).projectRoots, namespace) == RootAfter(At(s.projectRoots, namespace), e, namespace)
  {
    hide Scoping.Scoped, CronsAt;
  }

  lemma WorkerRoot(s: State, e: Event, namespace: string)
    requires e.CommandRun? || e.WorkerStarted?
    ensures At(ApplyWorker(s, e).projectRoots, namespace) == RootAfter(At(s.projectRoots, namespace), e, namespace)
  {
    hide Scoping.Scoped, WorkersAt;
  }

  // ------------------------------------------------------------- agent runs

  function RunPlot(id: string): Plot<Event> {
    Plot((e: Event) => e.AgentRunCreated? && e.run == id, (e: Event) => e.AgentRunDeleted? && e.run == id,
         (e: Event) => ConcernsRun(e, id))
  }

  predicate ConcernsRun(e: Event, id: string) {
    || ((e.AgentRunStarted? || e.AgentRunStatusChanged?) && e.run == id)
    || ((e.DecisionCreated? || e.SessionCreated?) && e.owner == RunOwner(id)) || e.SessionDeleted?
  }

  // What the event says of the run's status, if anything: made, started, changed, or waiting for a decision.
  function StatusSaid(e: Event): Option<RunStatus> {
    match e
    case AgentRunCreated(_, _, _, _, _, _, _, _) => Some(RunStarting)
    case AgentRunStarted(_, _) => Some(RunRunning)
    case AgentRunStatusChanged(_, status, _) => Some(status)
    case DecisionCreated(_, _, _, _, _, _, _, _, _) => Some(RunWaiting)
    case _ => None
  }

  function RunStatusOf(story: seq<Event>): Option<RunStatus> {
    var said := Last(story, (e: Event) => StatusSaid(e).Some?);
    if said.Some? then StatusSaid(said.value) else None
  }

  function RunErrorOf(story: seq<Event>): Option<string> {
    match Last(story, (e: Event) => e.AgentRunStatusChanged? && e.why.Some?)
    case Some(e) => if e.AgentRunStatusChanged? then e.why else None
    case None => None
  }

  function RunAgentOf(story: seq<Event>): Option<string> {
    match Last(story, (e: Event) => e.AgentRunStarted?)
    case Some(e) => if e.AgentRunStarted? then Some(e.agent) else None
    case None => None
  }

  // The session is the last one made for the run, unless it was deleted since.
  function RunSessionOf(story: seq<Event>): Option<string> {
    if story == [] then None
    else
      var before, e := RunSessionOf(story[..|story| - 1]), story[|story| - 1];
      if e.SessionCreated? then Some(e.session)
      else if e.SessionDeleted? && before == Some(e.session) then None
      else before
  }

  predicate RunMadeAs(r: AgentRun, e: Event) {
    && e.AgentRunCreated? && r.id == e.run && r.agentName == e.agentLabel && r.commandName == e.commandName
    && r.namespace == e.namespace && r.cwd == e.cwd && r.runbookHash == e.runbookHash && r.vars == e.vars
    && r.createdAt == e.at
  }

  predicate RunSays(r: AgentRun, story: seq<Event>) {
    && story != [] && RunMadeAs(r, story[0])
    && Some(r.status) == RunStatusOf(story) && r.error == RunErrorOf(story) && r.agentId == RunAgentOf(story)
    && r.sessionId == RunSessionOf(story)
  }

  lemma RunSnoc(story: seq<Event>, e: Event)
    ensures RunStatusOf(story + [e]) == if StatusSaid(e).Some? then StatusSaid(e) else RunStatusOf(story)
    ensures RunErrorOf(story + [e]) == if e.AgentRunStatusChanged? && e.why.Some? then e.why else RunErrorOf(story)
    ensures RunAgentOf(story + [e]) == if e.AgentRunStarted? then Some(e.agent) else RunAgentOf(story)
    ensures RunSessionOf(story + [e])
            == if e.SessionCreated? then Some(e.session)
               else if e.SessionDeleted? && RunSessionOf(story) == Some(e.session) then None else RunSessionOf(story)
    ensures story != [] ==> (story + [e])[0] == story[0]
  {
    LastSnoc(story, e, (e: Event) => StatusSaid(e).Some?);
    LastSnoc(story, e, (e: Event) => e.AgentRunStatusChanged? && e.why.Some?);
    LastSnoc(story, e, (e: Event) => e.AgentRunStarted?);
    assert (story + [e])[..|story|] == story;
    hide Last, StatusSaid;
  }

  // The run is as it was, but for a signal of its agent.
  predicate Spared(before: map<string, AgentRun>, after: map<string, AgentRun>, id: string) {
    && (id in after <==> id in before)
    && (id in before ==> after[id].(tracker := before[id].tracker) == before[id])
  }

  predicate Continued(before: map<string, AgentRun>, after: map<string, AgentRun>, e: Event, id: string) {
    && (id in after <==> id in before)
    && (id in before ==> after[id] == RunAfter(before[id], e, 0))
  }

  lemma RunGoesOn(r: AgentRun, story: seq<Event>, e: Event, id: string)
    requires RunSays(r, story) && ConcernsRun(e, id)
    ensures RunSays(RunAfter(r, e, 0), story + [e])
  {
    RunSnoc(story, e);
    hide RunStatusOf, RunErrorOf, RunAgentOf, RunSessionOf;
  }

  lemma SessionRuns(s: State, e: Event, id: string)
    requires AboutSession(e)
    ensures var after := ApplySession(s, e, 0).runs;
            if ConcernsRun(e, id) then Continued(s.runs, after, e, id) else Spared(s.runs, after, id)
  {
    hide OwnedJobs, AllJobs, AllAgents, Without, RunAfter;
  }

  lemma DecisionRuns(s: State, e: Event, id: string)
    requires AboutDecision(e)
    ensures var after := ApplyDecision(s, e, 0).runs;
            if ConcernsRun(e, id) then Continued(s.runs, after, e, id) else Spared(s.runs, after, id)
  {
    hide OwnedJobs, AllDecisions, DecisionsAt, NewDecision, RunAfter;
  }

  lemma SignalRun(s: State, e: Event, id: string)
    requires e.AgentSignaled?
    ensures Spared(s.runs, ApplySignal(s, e, 0).runs, id)
  {
    SignalIs(s, e, 0);
    hide ApplySignal, SignalJobs, RunsOfAgent, FirstOf;
  }

  lemma OwnRun(s: State, e: Event, id: string)
    requires AboutRun(e)
    ensures var after := ApplyRun(s, e, 0).runs;
            if e.run == id && e.AgentRunCreated? then id in after && RunSays(after[id], [e])
            else if e.run == id && e.AgentRunDeleted? then id !in after
            else if ConcernsRun(e, id) then Continued(s.runs, after, e, id) else Spared(s.runs, after, id)
  {
    if e.AgentRunCreated? { RunMade(e); }
    hide NewRun, RunSays, AgentsNotOf, StartedRunAgents, DecisionsOnStatus, RunAfter, RunStatusOf,
         RunErrorOf, RunAgentOf, RunSessionOf;
  }

  lemma RunMade(e: Event)
    requires e.AgentRunCreated?
    ensures RunSays(NewRun(e), [e])
  {
    RunSnoc([], e);
    assert [] + [e] == [e];
  }

  lemma SignalApply(s: State, e: Event, now: nat)
    ensures e.AgentSignaled? ==> Apply(s, e, now) == ApplySignal(s, e, now)
    ensures AboutSession(e) ==> Apply(s, e, now) == ApplySession(s, e, now)
  {
    hide ApplyJob, ApplyStep, ApplyAgent, ApplySignal, ApplySession, ApplyWorkspace, ApplyWorker, ApplyQueue, ApplyCron,
         ApplyDecision, ApplyRun;
  }

  lemma RunStep(s: State, e: Event, id: string)
    requires !(AboutRun(e) && e.run == id && (e.AgentRunCreated? || e.AgentRunDeleted?))
    ensures var after := Apply(s, e, 0).runs;
            if ConcernsRun(e, id) then Continued(s.runs, after, e, id) else Spared(s.runs, after, id)
  {
    hide ApplyJob, ApplyStep, ApplyAgent, ApplySignal, ApplySession, ApplyWorkspace, ApplyWorker, ApplyQueue, ApplyCron,
         ApplyDecision, ApplyRun, AboutJob, AboutStep, AboutAgent, AboutWorkspace, AboutWorker, AboutQueue, AboutCron,
         Continued, Spared, RunAfter;
    if AboutRun(e) { Endings.RunsApply(s, e, 0); OwnRun(s, e, id); hide Apply; }
    else if e.AgentSignaled? { SignalApply(s, e, 0); SignalRun(s, e, id); hide Apply; }
    else if AboutSession(e) { SignalApply(s, e, 0); SessionRuns(s, e, id); hide Apply; }
    else if AboutDecision(e) { Endings.DecisionsApply(s, e, 0); DecisionRuns(s, e, id); hide Apply; }
    else { Frame(s, e, 0); SameRun(s.runs, id); hide Apply; }
  }

  lemma SameRun(m: map<string, AgentRun>, id: string)
    ensures Spared(m, m, id)
  {
  }

  lemma RunNext(s: State, e: Event, id: string, story: Option<seq<Event>>)
    requires Tells(s.runs, id, story, RunSays)
    ensures Tells(Apply(s, e, 0).runs, id, Next(RunPlot(id), story, e), RunSays)
  {
    if RunPlot(id).makes(e) || RunPlot(id).ends(e) {
      Endings.RunsApply(s, e, 0);
      OwnRun(s, e, id);
      hide Apply, ApplyRun, RunSays, Continued, Spared;
    } else {
      PlotKeeps(e, id);
      RunStep(s, e, id);
      RunKept(s.runs, Apply(s, e, 0).runs, e, id, story);
      hide Apply, AboutRun, Continued, Spared, ConcernsRun, Tells, RunPlot;
    }
  }

  lemma PlotKeeps(e: Event, id: string)
    requires !RunPlot(id).makes(e) && !RunPlot(id).ends(e)
    ensures !(AboutRun(e) && e.run == id && (e.AgentRunCreated? || e.AgentRunDeleted?))
    ensures RunPlot(id).about(e) <==> ConcernsRun(e, id)
  {
  }

  lemma RunKept(before: map<string, AgentRun>, after: map<string, AgentRun>, e: Event, id: string,
                story: Option<seq<Event>>)
    requires Tells(before, id, story, RunSays)
    requires if ConcernsRun(e, id) then Continued(before, after, e, id) else Spared(before, after, id)
    ensures Tells(after, id, if story.Some? && ConcernsRun(e, id) then Some(story.value + [e]) else story, RunSays)
  {
    if story.Some? && ConcernsRun(e, id) { RunGoesOn(before[id], story.value, e, id); }
    hide RunAfter, ConcernsRun, RunStatusOf, RunErrorOf, RunAgentOf, RunSessionOf;
  }

  // In every history, between any other events.
  lemma {:induction false} RunTold(history: seq<Event>, id: string)
    ensures Tells(Now(history).runs, id, Story(RunPlot(id), history), RunSays)
  {
    if history != [] {
      RunTold(history[..|history| - 1], id);
      QueueItems.FoldUnfolds(history);
      RunNext(Now(history[..|history| - 1]), history[|history| - 1], id, Story(RunPlot(id), history[..|history| - 1]));
      hide Apply, Collapse.Fold, Tells;
    }
  }
}
