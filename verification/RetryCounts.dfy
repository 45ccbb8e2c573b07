/** The attempts and retries of jobs and agent runs inside the state: what the runtime writes there
    without an event, and what events do to them. */
module RetryCounts {
  import opened Wrappers
  import opened Actions
  import opened Jobs
  import opened State
  import opened Retries
  import Clocks
  import opened JobTables

  function CountsOf(j: Job): Counts { Counts(j.tracker.attempts, j.totalRetries) }

  function WithCounts(j: Job, c: Counts): Job {
    j.(tracker := j.tracker.(attempts := c.attempts), totalRetries := c.totalRetries)
  }

  // An agent run counts its attempts, but no retries.
  function WithOp(r: AgentRun, op: Op): AgentRun {
    r.(tracker := r.tracker.(attempts := Do(Counts(r.tracker.attempts, 0), op).attempts))
  }

  function AdjustedJobs(m: map<string, Job>, how: Adjustment): map<string, Job> {
    if how.OfJob? && how.job in m then m[how.job := WithCounts(m[how.job], Do(CountsOf(m[how.job]), how.op))] else m
  }

  function AdjustedRuns(m: map<string, AgentRun>, how: Adjustment): map<string, AgentRun> {
    if how.OfRun? && how.run in m then m[how.run := WithOp(m[how.run], how.op)] else m
  }

  function Adjusted(s: State, how: Adjustment): State {
    s.(jobs := AdjustedJobs(s.jobs, how), runs := AdjustedRuns(s.runs, how))
  }

  // An increment adds a retry if it is not the first attempt of its kind.
  predicate IsRetry(s: State, how: Adjustment, id: string) {
    how.OfJob? && how.job == id && how.op.Increment? && id in s.jobs
    && Attempts(s.jobs[id].tracker.attempts, how.op.trigger, how.op.position) > 0
  }

  lemma AdjustedTotals(s: State, how: Adjustment, id: string)
    requires id in s.jobs
    ensures var t := Adjusted(s, how);
            id in t.jobs && t.jobs[id].totalRetries == s.jobs[id].totalRetries + if IsRetry(s, how, id) then 1 else 0
  {
    AdjustedAt(s.jobs, how, id);
    RetryIs(s, how, id);
    AdjustedIs(s, how);
    hide *;
    if how.OfJob? && how.job == id { CountedTotals(s.jobs[id], how.op); }
  }

  lemma AdjustedIs(s: State, how: Adjustment)
    ensures Adjusted(s, how).jobs == AdjustedJobs(s.jobs, how)
  {
    hide AdjustedJobs, AdjustedRuns;
  }

  lemma RetryIs(s: State, how: Adjustment, id: string)
    requires id in s.jobs
    ensures IsRetry(s, how, id) <==>
              how.OfJob? && how.job == id && how.op.Increment?
              && Attempts(s.jobs[id].tracker.attempts, how.op.trigger, how.op.position) > 0
  {
    hide Attempts;
  }

  lemma AdjustedAt(m: map<string, Job>, how: Adjustment, id: string)
    requires id in m
    ensures id in AdjustedJobs(m, how)
    ensures AdjustedJobs(m, how)[id]
         == if how.OfJob? && how.job == id then WithCounts(m[id], Do(CountsOf(m[id]), how.op)) else m[id]
  {
    hide Do, CountsOf, WithCounts;
  }

  lemma CountedTotals(j: Job, op: Op)
    ensures WithCounts(j, Do(CountsOf(j), op)).totalRetries
         == j.totalRetries + if op.Increment? && Attempts(j.tracker.attempts, op.trigger, op.position) > 0 then 1 else 0
  {
    hide Attempts, Incremented;
  }

  lemma AdjustedForgets(s: State, how: Adjustment)
    ensures Clocks.Forget(Adjusted(s, how)) == Clocks.Forget(s)
  {
    hide Do, Clocks.EraseJobs, Clocks.EraseRuns, WithCounts, WithOp;
    if how.OfJob? && how.job in s.jobs { JobForgets(s.jobs, how.job, Do(CountsOf(s.jobs[how.job]), how.op)); }
    if how.OfRun? && how.run in s.runs { RunForgets(s.runs, how.run, how.op); }
  }

  lemma JobForgets(m: map<string, Job>, id: string, c: Counts)
    requires id in m
    ensures Clocks.EraseJobs(m[id := WithCounts(m[id], c)], true) == Clocks.EraseJobs(m, true)
  {
    hide Clocks.EraseHistory;
  }

  lemma RunForgets(m: map<string, AgentRun>, id: string, op: Op)
    requires id in m
    ensures Clocks.EraseRuns(m[id := WithOp(m[id], op)], true) == Clocks.EraseRuns(m, true)
  {
    hide Do;
  }

  // ------------------------------------------------------------- one event

  function JobCounts(s: State, id: string): Option<Counts> {
    if id in s.jobs then Some(CountsOf(s.jobs[id])) else None
  }

  // Entering another step forgets the attempts, unless the step before it failed.
  predicate Clears(j: Job, step: string) { j.step != step && !j.status.Failed? }

  // The counts after an event: a new job has none, a deleted one is gone, attempts are forgotten where
  // the job goes on, and no event counts anything.
  function CountsAfter(s: State, e: Event, id: string): Option<Counts> {
    if e.JobCreated? && e.job == id then Some(Counts(map[], 0))
    else if (e.JobDeleted? && e.job == id) || id !in s.jobs then None
    else if e.JobAdvanced? && e.job == id && Clears(s.jobs[id], e.step)
    then Some(CountsOf(s.jobs[id]).(attempts := map[]))
    else Some(CountsOf(s.jobs[id]))
  }

  lemma RecordCounts(j: Job, e: Event, now: nat)
    ensures CountsOf(JobAfter(j, e, now))
         == if e.JobAdvanced? && Clears(j, e.step) then CountsOf(j).(attempts := map[]) else CountsOf(j)
  {
    hide AgentFailure, ShellFailure, Finalize, SetOutcome, SetAgentId, SetAgentName, HistoryOnEntry, ClosingOutcome,
         Visit, TerminalStep;
  }

  // On the whole state: the counts of a job after an event are those, whatever the clock says.
  lemma CountsStep(s: State, e: Event, now: nat, id: string)
    ensures JobCounts(Apply(s, e, now), id) == CountsAfter(s, e, id)
  {
    if AboutJob(e) || AboutStep(e) {
      var own := e.job == id;
      hide Apply, AboutJob, AboutStep;
      if own { OwnCounts(s, e, now, id); } else { OtherCounts(s, e, now, id); }
    } else {
      ElsewhereCounts(s, e, now, id);
      hide Apply;
    }
  }

  lemma ElsewhereCounts(s: State, e: Event, now: nat, id: string)
    requires !AboutJob(e) && !AboutStep(e)
    ensures JobCounts(Apply(s, e, now), id) == CountsAfter(s, e, id)
  {
    ElsewhereTouches(s, e, now, id);
    if id in s.jobs { RecordCounts(s.jobs[id], e, now); }
    hide Apply, JobAfter, CountsOf;
  }

  lemma OtherCounts(s: State, e: Event, now: nat, id: string)
    requires (AboutJob(e) || AboutStep(e)) && e.job != id
    ensures JobCounts(Apply(s, e, now), id) == CountsAfter(s, e, id)
  {
    hide Apply, AboutJob, AboutStep, CountsOf;
    OtherJobsStay(s, e, now, id);
  }

  lemma OwnCounts(s: State, e: Event, now: nat, id: string)
    requires (AboutJob(e) || AboutStep(e)) && e.job == id
    ensures JobCounts(Apply(s, e, now), id) == CountsAfter(s, e, id)
  {
    OwnJob(s, e, now);
    if e.JobCreated? {
      NewCounts(e);
    } else if e.JobDeleted? {
    } else {
      ChangedCounts(s, Apply(s, e, now), e, now, id);
    }
    hide Apply, JobAfter, Clears, CountsOf, NewJob, AboutJob, AboutStep;
  }

  lemma ChangedCounts(s: State, t: State, e: Event, now: nat, id: string)
    requires !e.JobCreated? && !e.JobDeleted? && (e.JobAdvanced? ==> e.job == id) && (id in t.jobs <==> id in s.jobs)
    requires id in t.jobs ==> t.jobs[id] == JobAfter(s.jobs[id], e, now)
    ensures JobCounts(t, id) == CountsAfter(s, e, id)
  {
    if id in s.jobs { RecordCounts(s.jobs[id], e, now); }
    hide JobAfter, Clears, CountsOf;
  }

  lemma NewCounts(e: Event)
    requires e.JobCreated?
    ensures CountsOf(NewJob(e)) == Counts(map[], 0)
  {
  }
}
