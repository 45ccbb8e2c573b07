/** What every event keeps true of the state (crates/storage/src/state.rs, crates/core/src/job.rs). */
module StateInvariant {
  import opened Wrappers
  import opened Actions
  import opened Jobs
  import opened State
  import Scoping = Names
  import Collapse
  import DaemonRuns

  // ------------------------------------------------------------- jobs

  function Names(h: seq<StepRecord>): (r: seq<string>)
    ensures |r| == |h| && forall i :: 0 <= i < |r| ==> r[i] == h[i].name
  {
    seq(|h|, i requires 0 <= i < |h| => h[i].name)
  }

  function Occurrences(names: seq<string>, name: string): nat {
    if names == [] then 0
    else Occurrences(names[..|names| - 1], name) + if names[|names| - 1] == name then 1 else 0
  }

  function VisitsTo(visits: map<string, nat>, step: string): nat { if step in visits then visits[step] else 0 }

  // Only the last record may be open.
  predicate ClosedButLast(h: seq<StepRecord>) {
    forall i :: 0 <= i < |h| - 1 ==> h[i].finishedAt.Some?
  }

  // Every record but the first was a visit, and every visit left a record.
  ghost predicate VisitsRecorded(names: seq<string>, visits: map<string, nat>) {
    names != [] && forall step ::
      Occurrences(names, step) == VisitsTo(visits, step) + if step == names[0] then 1 else 0
  }

  ghost predicate JobOk(id: string, j: Job) {
    j.id == id && ClosedButLast(j.history) && VisitsRecorded(Names(j.history), j.stepVisits)
  }

  lemma OccurrencesSnoc(names: seq<string>, last: string, name: string)
    ensures Occurrences(names + [last], name) == Occurrences(names, name) + if last == name then 1 else 0
  {
    assert (names + [last])[..|names|] == names;
  }

  lemma VisitRecorded(names: seq<string>, visits: map<string, nat>, step: string)
    requires VisitsRecorded(names, visits)
    ensures VisitsRecorded(names + [step], Visit(visits, step))
  {
    forall s ensures Occurrences(names + [step], s)
                  == VisitsTo(Visit(visits, step), s) + if s == (names + [step])[0] then 1 else 0
    {
      OccurrencesSnoc(names, step, s);
    }
  }

  // Changing the open record in place moves no name and reopens nothing.
  lemma FinalizeKeeps(h: seq<StepRecord>, outcome: StepOutcome, now: nat)
    ensures Names(Finalize(h, outcome, now)) == Names(h) && |Finalize(h, outcome, now)| == |h|
    ensures ClosedButLast(h) ==> forall i :: 0 <= i < |h| ==> Finalize(h, outcome, now)[i].finishedAt.Some?
  {
  }

  lemma OutcomeKeeps(h: seq<StepRecord>, outcome: StepOutcome)
    ensures Names(SetOutcome(h, outcome)) == Names(h)
    ensures ClosedButLast(h) ==> ClosedButLast(SetOutcome(h, outcome))
  {
  }

  lemma AgentKeeps(h: seq<StepRecord>, agent: string)
    ensures Names(SetAgentId(h, agent)) == Names(h) && Names(SetAgentName(h, agent)) == Names(h)
    ensures ClosedButLast(h) ==> ClosedButLast(SetAgentId(h, agent)) && ClosedButLast(SetAgentName(h, agent))
  {
  }

  // What entering a step does to the records: nothing if the job stands on it already; else the last
  // one is closed, all before it stay, and a step that is not terminal gets one open record and
  // counts as visited once more, and no other step does.
  ghost predicate Enters(j: Job, step: string, k: Job) {
    && k.step == step
    && |k.history| == |j.history| + (if TerminalStep(step) then 0 else 1)
    && (forall i :: 0 <= i < |j.history| ==>
          && k.history[i].name == j.history[i].name && k.history[i].finishedAt.Some?
          && (j.history[i].finishedAt.Some? ==> k.history[i] == j.history[i]))
    && (!TerminalStep(step) ==>
          && k.history[|j.history|].name == step && k.history[|j.history|].finishedAt.None?
          && k.history[|j.history|].outcome.StillRunning?)
    && (forall other :: VisitsTo(k.stepVisits, other)
                        == VisitsTo(j.stepVisits, other) + if other == step && !TerminalStep(step) then 1 else 0)
  }

  lemma AdvanceOk(id: string, j: Job, step: string, now: nat)
    requires JobOk(id, j)
    ensures JobOk(id, Advance(j, step, now))
    ensures j.step == step && !j.status.Failed? ==> Advance(j, step, now) == j
    ensures j.step != step || j.status.Failed? ==> Enters(j, step, Advance(j, step, now))
  {
    if !SkipsAdvance(j, step) {
      AdvanceKeeps(id, j, step, now);
      AdvanceEnters(j, step, now);
    }
    hide Advance, Enters, JobOk;
  }

  lemma AdvanceKeeps(id: string, j: Job, step: string, now: nat)
    requires JobOk(id, j) && !SkipsAdvance(j, step)
    ensures JobOk(id, Advance(j, step, now))
  {
    var outcome := ClosingOutcome(j, step);
    FinalizeKeeps(j.history, outcome, now);
    var closed := Finalize(j.history, outcome, now);
    hide Finalize, ClosingOutcome;
    assert ClosedButLast(closed);
    if !TerminalStep(step) {
      var h := closed + [NewRecord(step, now)];
      assert Names(h) == Names(closed) + [step];
      VisitRecorded(Names(j.history), j.stepVisits, step);
      hide VisitsRecorded;
    }
  }

  lemma AdvanceEnters(j: Job, step: string, now: nat)
    requires ClosedButLast(j.history) && !SkipsAdvance(j, step)
    ensures Enters(j, step, Advance(j, step, now))
  {
    ClosesLast(j.history, ClosingOutcome(j, step), now);
    hide Finalize, ClosingOutcome, StatusOnEntry, ClosedButLast;
  }

  lemma ClosesLast(h: seq<StepRecord>, outcome: StepOutcome, now: nat)
    requires ClosedButLast(h)
    ensures |Finalize(h, outcome, now)| == |h|
    ensures forall i :: 0 <= i < |h| ==>
      && Finalize(h, outcome, now)[i].name == h[i].name && Finalize(h, outcome, now)[i].finishedAt.Some?
      && (h[i].finishedAt.Some? ==> Finalize(h, outcome, now)[i] == h[i])
  {
  }

  lemma StepEndedOk(id: string, j: Job, failure: Option<string>, now: nat)
    requires JobOk(id, j)
    ensures JobOk(id, StepEnded(j, failure, now))
  {
    FinalizeKeeps(j.history, if failure.None? then Succeeded else FailedWith(failure.value), now);
    hide Finalize, VisitsRecorded;
  }

  lemma StartStepOk(id: string, j: Job, agentId: Option<string>, agentName: Option<string>)
    requires JobOk(id, j)
    ensures JobOk(id, StartStep(j, agentId, agentName))
  {
    hide SetAgentId, SetAgentName, SetOutcome, VisitsRecorded, ClosedButLast, Names;
    var h1 := if agentId.Some? then SetAgentId(j.history, agentId.value) else j.history;
    var h2 := if agentName.Some? then SetAgentName(h1, agentName.value) else h1;
    if agentId.Some? { AgentKeeps(j.history, agentId.value); }
    if agentName.Some? { AgentKeeps(h1, agentName.value); }
    OutcomeKeeps(h2, StillRunning);
  }

  // Most events leave the history and the visits alone.
  predicate SameHistory(j: Job, k: Job) { k.id == j.id && k.history == j.history && k.stepVisits == j.stepVisits }

  lemma AgentLeaves(j: Job, e: Event)
    requires AboutAgent(e)
    ensures SameHistory(j, JobAfterAgent(j, e))
  {
    hide AgentFailure;
  }

  lemma OthersLeave(j: Job, e: Event, now: nat)
    requires !AboutStep(e) && !AboutAgent(e) && !e.JobAdvanced?
    ensures SameHistory(j, JobAfter(j, e, now))
  {
    hide JobAfterStep, JobAfterAgent, Advance;
  }

  lemma StepOk(id: string, j: Job, e: Event, now: nat)
    requires JobOk(id, j) && AboutStep(e)
    ensures JobOk(id, JobAfterStep(j, e, now))
  {
    hide VisitsRecorded, ClosedButLast, Names, StepEnded, StartStep, SetOutcome, ShellFailure, WaitStep;
    match e
    case ShellExited(_, code) => StepEndedOk(id, j, ShellFailure(code), now);
    case StepCompleted(_) => StepEndedOk(id, j, None, now);
    case StepFailed(_, error) => StepEndedOk(id, j, Some(error), now);
    case StepStarted(_, agentId, agentName) => StartStepOk(id, j, agentId, agentName);
    case StepWaiting(_, reason, decision) => WaitStepOk(id, j, reason, decision);
  }

  lemma WaitStepOk(id: string, j: Job, reason: Option<string>, decision: Option<string>)
    requires JobOk(id, j)
    ensures JobOk(id, WaitStep(j, reason, decision))
  {
    OutcomeKeeps(j.history, WaitingFor(if reason.Some? then reason.value else ""));
    hide VisitsRecorded, ClosedButLast, Names, SetOutcome;
  }

  lemma JobAfterOk(id: string, j: Job, e: Event, now: nat)
    requires JobOk(id, j)
    ensures JobOk(id, JobAfter(j, e, now))
  {
    hide JobAfterStep, JobAfterAgent, Advance, VisitsRecorded, ClosedButLast, Names;
    if AboutStep(e) { StepOk(id, j, e, now); }
    else if AboutAgent(e) { AgentLeaves(j, e); }
    else if e.JobAdvanced? { AdvanceOk(id, j, e.step, now); }
    else { OthersLeave(j, e, now); hide JobAfter; }
  }

  ghost predicate JobsOk(m: map<string, Job>) { forall k :: k in m ==> JobOk(k, m[k]) }

  lemma JobsAtOk(m: map<string, Job>, id: string, e: Event, now: nat)
    requires JobsOk(m)
    ensures JobsOk(JobsAt(m, id, e, now))
  {
    if id in m { JobAfterOk(id, m[id], e, now); }
    hide JobOk, JobAfter;
  }

  lemma AllJobsOk(m: map<string, Job>, e: Event, now: nat)
    requires JobsOk(m)
    ensures JobsOk(AllJobs(m, e, now))
  {
    hide JobOk, JobAfter;
    forall k | k in m ensures JobOk(k, JobAfter(m[k], e, now)) { JobAfterOk(k, m[k], e, now); }
  }

  lemma NewJobOk(e: Event)
    requires e.JobCreated?
    ensures JobOk(e.job, NewJob(e))
  {
    var names := Names(NewJob(e).history);
    assert names == [e.initialStep];
    forall step ensures Occurrences(names, step) == VisitsTo(map[], step) + if step == names[0] then 1 else 0 {
      OccurrencesSnoc([], e.initialStep, step);
      assert [] + [e.initialStep] == names;
    }
  }

  // ------------------------------------------------------------- queues and workers

  predicate DistinctItems(items: seq<QueueItem>) {
    forall i, j :: 0 <= i < j < |items| ==> items[i].id != items[j].id
  }

  predicate QueuesOk(m: map<string, seq<QueueItem>>) { forall k :: k in m ==> DistinctItems(m[k]) }

  predicate DistinctIds(ids: seq<string>) { forall i, j :: 0 <= i < j < |ids| ==> ids[i] != ids[j] }

  predicate WorkersOk(m: map<string, Worker>) { forall k :: k in m ==> DistinctIds(m[k].activeJobs) }

  lemma {:induction false} ItemsAfterIds(items: seq<QueueItem>, item: string, e: Event)
    ensures var r := ItemsAfter(items, item, e); |r| == |items| && forall i :: 0 <= i < |r| ==> r[i].id == items[i].id
  {
    hide ItemAfter;
    if items != [] && items[0].id != item { ItemsAfterIds(items[1..], item, e); }
  }

  lemma {:induction false} ItemsWithoutDistinct(items: seq<QueueItem>, item: string)
    requires DistinctItems(items)
    ensures DistinctItems(ItemsWithout(items, item))
    ensures forall x :: x in ItemsWithout(items, item) ==> x in items
  {
    if items != [] {
      ItemsWithoutDistinct(items[1..], item);
      var rest := ItemsWithout(items[1..], item);
      forall x | x in rest ensures x.id != items[0].id {
        var i :| 0 <= i < |items[1..]| && items[1..][i] == x;
        assert items[i + 1] == x;
      }
    }
  }

  lemma {:induction false} OthersDistinct(ids: seq<string>, id: string)
    requires DistinctIds(ids)
    ensures DistinctIds(Others(ids, id))
  {
    if ids != [] {
      OthersDistinct(ids[1..], id);
      assert ids[0] !in ids[1..];
      var rest := Others(ids[1..], id);
      assert ids[0] !in rest;
    }
  }

  lemma WorkerAfterOk(w: Worker, e: Event)
    requires DistinctIds(w.activeJobs)
    ensures DistinctIds(WorkerAfter(w, e).activeJobs)
  {
    if e.JobAdvanced? { OthersDistinct(w.activeJobs, e.job); }
    hide Others;
  }

  lemma AllWorkersOk(m: map<string, Worker>, e: Event)
    requires WorkersOk(m)
    ensures WorkersOk(AllWorkers(m, e))
  {
    hide WorkerAfter, DistinctIds;
    forall k | k in m ensures DistinctIds(WorkerAfter(m[k], e).activeJobs) { WorkerAfterOk(m[k], e); }
  }

  // ------------------------------------------------------------- the whole state

  // Jobs are filed under their ids, with consistent histories; no queue holds an item twice, and no
  // worker a job.
  ghost predicate Ok(s: State) { JobsOk(s.jobs) && QueuesOk(s.queues) && WorkersOk(s.workers) }

  lemma PushedDistinct(items: seq<QueueItem>, item: QueueItem)
    requires DistinctItems(items) && !HasItem(items, item.id)
    ensures DistinctItems(items + [item])
  {
    forall i | 0 <= i < |items| ensures items[i].id != item.id { assert items[i] in items; }
  }

  lemma QueueEventKeeps(s: State, e: Event)
    requires AboutQueue(e)
    ensures var t := ApplyQueue(s, e); t.jobs == s.jobs && t.workers == s.workers
  {
    hide ItemsAfter, ItemsWithout, HasItem, Scoping.Scoped;
  }

  lemma PutQueueOk(m: map<string, seq<QueueItem>>, key: string, items: seq<QueueItem>)
    requires QueuesOk(m) && DistinctItems(items)
    ensures QueuesOk(m[key := items])
  {
    hide DistinctItems;
  }

  lemma QueuesAfterOk(s: State, e: Event)
    requires QueuesOk(s.queues) && AboutQueue(e)
    ensures QueuesOk(ApplyQueue(s, e).queues)
  {
    var key := Scoping.Scoped(e.namespace, e.queue);
    var items := if key in s.queues then s.queues[key] else [];
    assert DistinctItems(items);
    hide DistinctItems, QueuesOk, ItemsAfter, ItemsWithout, HasItem, Scoping.Scoped;
    if e.QueuePushed? {
      if HasItem(items, e.item) {
        PutQueueOk(s.queues, key, items);
      } else {
        var pushed := QueueItem(e.item, e.queue, e.payload, ItemPending, None, e.at, 0);
        PushedDistinct(items, pushed);
        PutQueueOk(s.queues, key, items + [pushed]);
      }
    } else if e.QueueDropped? {
      ItemsWithoutDistinct(items, e.item);
      PutQueueOk(s.queues, key, ItemsWithout(items, e.item));
    } else {
      SameIdsDistinct(items, e.item, e);
      PutQueueOk(s.queues, key, ItemsAfter(items, e.item, e));
    }
  }

  lemma SameIdsDistinct(items: seq<QueueItem>, item: string, e: Event)
    requires DistinctItems(items)
    ensures DistinctItems(ItemsAfter(items, item, e))
  {
    ItemsAfterIds(items, item, e);
    hide ItemsAfter;
  }

  lemma QueueOk(s: State, e: Event)
    requires Ok(s) && AboutQueue(e)
    ensures Ok(ApplyQueue(s, e))
  {
    QueueEventKeeps(s, e);
    QueuesAfterOk(s, e);
    hide JobsOk, WorkersOk, QueuesOk, ApplyQueue;
  }

  lemma PutWorkerOk(m: map<string, Worker>, key: string, w: Worker)
    requires WorkersOk(m) && DistinctIds(w.activeJobs)
    ensures WorkersOk(m[key := w])
  {
    hide DistinctIds;
  }

  lemma WorkerStartedOk(s: State, e: Event)
    requires WorkersOk(s.workers) && e.WorkerStarted?
    ensures WorkersOk(ApplyWorker(s, e).workers)
  {
    var key := Scoping.Scoped(e.namespace, e.worker);
    var active := if key in s.workers then s.workers[key].activeJobs else [];
    WorkerStarts(s, e);
    NoIds();
    assert DistinctIds(active) by { hide DistinctIds, Scoping.Scoped; }
    hide *;
    PutWorkerOk(s.workers, key,
                Worker(e.worker, e.namespace, e.projectRoot, e.runbookHash, "running", active, e.queue, e.concurrency));
  }

  lemma WorkerStarts(s: State, e: Event)
    requires e.WorkerStarted?
    ensures var key := Scoping.Scoped(e.namespace, e.worker);
            var active := if key in s.workers then s.workers[key].activeJobs else [];
            ApplyWorker(s, e).workers
            == s.workers[key := Worker(e.worker, e.namespace, e.projectRoot, e.runbookHash, "running", active,
                                       e.queue, e.concurrency)]
  {
    hide Root, Scoping.Scoped;
  }

  lemma WithoutWorkerOk(m: map<string, Worker>, key: string)
    requires WorkersOk(m)
    ensures WorkersOk(Without(m, key))
  {
    hide DistinctIds;
  }

  lemma WorkersAtOk(m: map<string, Worker>, key: string, e: Event)
    requires WorkersOk(m)
    ensures WorkersOk(WorkersAt(m, key, e))
  {
    hide DistinctIds, WorkerAfter;
    if key in m {
      WorkerAfterOk(m[key], e);
      PutWorkerOk(m, key, WorkerAfter(m[key], e));
    }
  }

  lemma OnlyWorkersOk(s: State, workers: map<string, Worker>, roots: map<string, string>)
    requires Ok(s) && WorkersOk(workers)
    ensures Ok(s.(workers := workers, projectRoots := roots))
  {
    hide JobsOk, QueuesOk, WorkersOk;
  }

  lemma WorkerOk(s: State, e: Event)
    requires Ok(s) && AboutWorker(e)
    ensures Ok(ApplyWorker(s, e))
  {
    assert WorkersOk(s.workers);
    hide Ok, Root, Scoping.Scoped, WorkersOk, WorkersAt, Without;
    var key := if e.CommandRun? then "" else Scoping.Scoped(e.namespace, e.worker);
    if e.CommandRun? {
      OnlyWorkersOk(s, s.workers, Root(s.projectRoots, e.namespace, e.projectRoot));
    } else if e.WorkerStarted? {
      WorkerStartedOk(s, e);
      OnlyWorkersOk(s, ApplyWorker(s, e).workers, ApplyWorker(s, e).projectRoots);
    } else if e.WorkerDeleted? {
      WithoutWorkerOk(s.workers, key);
      OnlyWorkersOk(s, Without(s.workers, key), s.projectRoots);
    } else {
      WorkersAtOk(s.workers, key, e);
      OnlyWorkersOk(s, WorkersAt(s.workers, key, e), s.projectRoots);
    }
  }

  lemma NoIds()
    ensures DistinctIds([])
  {
  }

  lemma JobEventOk(s: State, e: Event, now: nat)
    requires Ok(s) && AboutJob(e)
    ensures Ok(ApplyJob(s, e, now))
  {
    hide JobOk, WorkersOk, QueuesOk, AllWorkers, JobsAt, NewJob, DecisionsNotOf, AgentsNotOf;
    if e.JobCreated? { NewJobOk(e); }
    else {
      JobsAtOk(s.jobs, e.job, e, now);
      AllWorkersOk(s.workers, e);
    }
  }

  lemma OwnedOk(m: map<string, Job>, owner: Owner, e: Event, now: nat)
    requires JobsOk(m)
    ensures JobsOk(OwnedJobs(m, owner, e, now))
  {
    hide JobsOk, JobsAt;
    if owner.JobOwner? { JobsAtOk(m, owner.id, e, now); }
  }

  lemma SessionOk(s: State, e: Event, now: nat)
    requires Ok(s) && AboutSession(e)
    ensures Ok(ApplySession(s, e, now))
  {
    hide JobsOk, QueuesOk, WorkersOk, OwnedJobs, AllJobs;
    if e.SessionCreated? { OwnedOk(s.jobs, e.owner, e, now); } else { AllJobsOk(s.jobs, e, now); }
  }

  lemma StepEventOk(s: State, e: Event, now: nat)
    requires Ok(s) && AboutStep(e)
    ensures Ok(ApplyStep(s, e, now))
  {
    hide JobsOk, QueuesOk, WorkersOk, JobsAt, StartedAgents;
    JobsAtOk(s.jobs, e.job, e, now);
  }

  lemma AgentEventOk(s: State, e: Event, now: nat)
    requires Ok(s) && AboutAgent(e)
    ensures Ok(ApplyAgent(s, e, now))
  {
    hide JobsOk, QueuesOk, WorkersOk, OwnedJobs, AgentsAt;
    if !e.AgentWaiting? { OwnedOk(s.jobs, e.owner, e, now); }
  }

  lemma WorkspaceJobs(s: State, e: Event, now: nat)
    requires AboutWorkspace(e)
    ensures var t := ApplyWorkspace(s, e, now);
            && t.queues == s.queues && t.workers == s.workers
            && t.jobs == if e.WorkspaceCreated? && e.wsOwner.Some? then OwnedJobs(s.jobs, e.wsOwner.value, e, now)
                         else s.jobs
  {
    hide OwnedJobs, NewWorkspace, WorkspacesAt, Without;
  }

  lemma WorkspaceOk(s: State, e: Event, now: nat)
    requires Ok(s) && AboutWorkspace(e)
    ensures Ok(ApplyWorkspace(s, e, now))
  {
    hide JobsOk, QueuesOk, WorkersOk, OwnedJobs, ApplyWorkspace;
    WorkspaceJobs(s, e, now);
    if e.WorkspaceCreated? && e.wsOwner.Some? { OwnedOk(s.jobs, e.wsOwner.value, e, now); }
  }

  lemma DecisionOk(s: State, e: Event, now: nat)
    requires Ok(s) && AboutDecision(e)
    ensures Ok(ApplyDecision(s, e, now))
  {
    hide JobsOk, QueuesOk, WorkersOk, OwnedJobs, OwnedRuns, NewDecision, DecisionsAt, AllDecisions;
    if e.DecisionCreated? { OwnedOk(s.jobs, e.owner, e, now); }
  }

  lemma SignalOk(s: State, e: Event, now: nat)
    requires Ok(s) && e.AgentSignaled?
    ensures Ok(ApplySignal(s, e, now))
  {
    hide Ok, JobsAt, RunsAt, RunsOfAgent, JobsOfAgent;
    var runs, jobs := RunsOfAgent(s.runs, e.agent), JobsOfAgent(s.jobs, e.agent);
    if e.kind == Continue {
    } else if runs != {} {
      OnlyRunsOk(s, RunsAt(s.runs, FirstOf(runs), e, now));
    } else if jobs != {} {
      OnlyJobsOk(s, FirstOf(jobs), e, now);
    }
  }

  lemma OnlyRunsOk(s: State, runs: map<string, AgentRun>)
    requires Ok(s)
    ensures Ok(s.(runs := runs))
  {
    hide JobsOk, QueuesOk, WorkersOk;
  }

  lemma OnlyJobsOk(s: State, id: string, e: Event, now: nat)
    requires Ok(s)
    ensures Ok(s.(jobs := JobsAt(s.jobs, id, e, now)))
  {
    JobsAtOk(s.jobs, id, e, now);
    hide JobsOk, QueuesOk, WorkersOk, JobsAt;
  }

  // Every event keeps the state consistent.
  lemma ApplyOk(s: State, e: Event, now: nat)
    requires Ok(s)
    ensures Ok(Apply(s, e, now))
  {
    hide Ok, ApplyJob, ApplyStep, ApplyAgent, ApplySignal, ApplySession, ApplyWorkspace, ApplyWorker,
         ApplyQueue, ApplyCron, ApplyDecision, ApplyRun, AboutJob, AboutStep, AboutAgent, AboutSession,
         AboutWorkspace, AboutWorker, AboutQueue, AboutCron, AboutDecision, AboutRun;
    if AboutJob(e) { JobEventOk(s, e, now); }
    else if AboutStep(e) { StepEventOk(s, e, now); }
    else if AboutAgent(e) { AgentEventOk(s, e, now); }
    else if e.AgentSignaled? { SignalOk(s, e, now); }
    else if AboutSession(e) { SessionOk(s, e, now); }
    else if AboutWorkspace(e) { WorkspaceOk(s, e, now); }
    else if AboutWorker(e) { WorkerOk(s, e); }
    else if AboutQueue(e) { QueueOk(s, e); }
    else if AboutCron(e) { CronOk(s, e, now); }
    else if AboutDecision(e) { DecisionOk(s, e, now); }
    else if AboutRun(e) { RunOk(s, e, now); }
  }

  lemma CronOk(s: State, e: Event, now: nat)
    requires Ok(s) && AboutCron(e)
    ensures Ok(ApplyCron(s, e, now))
  {
    hide JobsOk, QueuesOk, WorkersOk, CronsAt, Root, Scoping.Scoped;
  }

  lemma RunOk(s: State, e: Event, now: nat)
    requires Ok(s) && AboutRun(e)
    ensures Ok(ApplyRun(s, e, now))
  {
    hide JobsOk, QueuesOk, WorkersOk, RunsAt, StartedRunAgents, DecisionsOnStatus;
  }

  lemma EmptyOk()
    ensures Ok(EMPTY)
  {
  }

  // So every state the daemon can fold its history to is consistent.
  lemma {:induction false} FoldOk(history: seq<Event>)
    ensures Ok(Collapse.Fold(DaemonRuns.Daemon(), history))
  {
    hide Ok, Apply;
    if history == [] {
      EmptyOk();
    } else {
      var before := history[..|history| - 1];
      FoldOk(before);
      ApplyOk(Collapse.Fold(DaemonRuns.Daemon(), before), history[|history| - 1], 0);
    }
  }
}
