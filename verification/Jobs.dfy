/** The job record and its step history as values (crates/core/src/job.rs). */
module Jobs {
  import opened Wrappers
  import opened Actions

  datatype StepStatus = Pending | Running | Waiting(decision: Option<string>) | Completed | Failed

  datatype StepOutcome = StillRunning | Succeeded | FailedWith(error: string) | WaitingFor(reason: string)

  datatype StepRecord = StepRecord(
    name: string, startedAt: nat, finishedAt: Option<nat>, outcome: StepOutcome,
    agentId: Option<string>, agentName: Option<string>)

  datatype Job = Job(
    id: string, name: string, kind: string, namespace: string,
    step: string, status: StepStatus, history: seq<StepRecord>,
    vars: map<string, string>, runbookHash: string, cwd: string,
    workspaceId: Option<string>, workspacePath: Option<string>, sessionId: Option<string>,
    error: Option<string>, tracker: Tracker, cancelling: bool,
    totalRetries: nat, stepVisits: map<string, nat>, cronName: Option<string>)
  {
    predicate IsTerminal() { TerminalStep(step) }
  }

  predicate TerminalStep(step: string) {
    step == "done" || step == "failed" || step == "cancelled"
  }

  function NewRecord(name: string, now: nat): StepRecord {
    StepRecord(name, now, None, StillRunning, None, None)
  }

  // The last record, if it has not finished, is replaced by its image under `f`.
  function AlterOpenStep(history: seq<StepRecord>, f: StepRecord -> StepRecord): (r: seq<StepRecord>)
    ensures |r| == |history|
  {
    if history != [] && history[|history| - 1].finishedAt.None?
    then history[|history| - 1 := f(history[|history| - 1])]
    else history
  }

  function Finalize(history: seq<StepRecord>, outcome: StepOutcome, now: nat): seq<StepRecord> {
    AlterOpenStep(history, (r: StepRecord) => r.(finishedAt := Some(now), outcome := outcome))
  }

  function SetOutcome(history: seq<StepRecord>, outcome: StepOutcome): seq<StepRecord> {
    AlterOpenStep(history, (r: StepRecord) => r.(outcome := outcome))
  }

  function SetAgentId(history: seq<StepRecord>, agent: string): seq<StepRecord> {
    AlterOpenStep(history, (r: StepRecord) => r.(agentId := Some(agent)))
  }

  function SetAgentName(history: seq<StepRecord>, agent: string): seq<StepRecord> {
    AlterOpenStep(history, (r: StepRecord) => r.(agentName := Some(agent)))
  }

  function Visit(visits: map<string, nat>, step: string): map<string, nat> {
    visits[step := (if step in visits then visits[step] else 0) + 1]
  }

  // The fields of the record that its methods change in place.
  class JobRecord {
    const tracker: ActionTracker
    var history: seq<StepRecord>
    var stepVisits: map<string, nat>
    var totalRetries: nat

    constructor (initialStep: string, now: nat)
      ensures fresh(tracker) && tracker.Value() == Tracker(map[], None)
      ensures history == [NewRecord(initialStep, now)] && stepVisits == map[] && totalRetries == 0
    {
      tracker := new ActionTracker();
      history, stepVisits, totalRetries := [NewRecord(initialStep, now)], map[], 0;
    }

    method FinalizeCurrentStep(outcome: StepOutcome, now: nat)
      modifies this`history
      ensures history == Finalize(old(history), outcome, now)
    {
      if history != [] {
        var record := history[|history| - 1];
        if record.finishedAt.None? {
          history := history[|history| - 1 := record.(finishedAt := Some(now), outcome := outcome)];
        }
      }
    }

    method UpdateCurrentStepOutcome(outcome: StepOutcome)
      modifies this`history
      ensures history == SetOutcome(old(history), outcome)
    {
      if history != [] {
        var record := history[|history| - 1];
        if record.finishedAt.None? {
          history := history[|history| - 1 := record.(outcome := outcome)];
        }
      }
    }

    method PushStep(name: string, now: nat)
      modifies this`history
      ensures history == old(history) + [NewRecord(name, now)]
    {
      history := history + [NewRecord(name, now)];
    }

    method SetCurrentStepAgentId(agent: string)
      modifies this`history
      ensures history == SetAgentId(old(history), agent)
    {
      if history != [] {
        var record := history[|history| - 1];
        if record.finishedAt.None? {
          history := history[|history| - 1 := record.(agentId := Some(agent))];
        }
      }
    }

    method SetCurrentStepAgentName(agent: string)
      modifies this`history
      ensures history == SetAgentName(old(history), agent)
    {
      if history != [] {
        var record := history[|history| - 1];
        if record.finishedAt.None? {
          history := history[|history| - 1 := record.(agentName := Some(agent))];
        }
      }
    }

    // A retry is an attempt after the first one.
    method IncrementActionAttempt(trigger: string, position: nat) returns (count: nat)
      modifies this`totalRetries, tracker`attempts
      ensures tracker.attempts == Incremented(old(tracker.attempts), trigger, position)
      ensures count == Attempts(old(tracker.attempts), trigger, position) + 1
      ensures totalRetries == old(totalRetries) + if count > 1 then 1 else 0
    {
      count := tracker.IncrementActionAttempt(trigger, position);
      if count > 1 { totalRetries := totalRetries + 1; }
    }

    method ResetActionAttempts()
      modifies tracker`attempts
      ensures tracker.attempts == map[]
    {
      tracker.ResetActionAttempts();
    }

    method RecordStepVisit(step: string) returns (count: nat)
      modifies this`stepVisits
      ensures stepVisits == Visit(old(stepVisits), step) && count == stepVisits[step]
    {
      if step !in stepVisits { stepVisits := stepVisits[step := 0]; }
      count := stepVisits[step] + 1;
      stepVisits := stepVisits[step := count];
      assert stepVisits == Visit(old(stepVisits), step);
    }
  }
}
