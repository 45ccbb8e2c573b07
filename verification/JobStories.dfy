/** What a whole history makes of a job (crates/storage/src/state.rs): each field of its record, told from
    the events about the job since it was made. */
module JobStories {
  import opened Wrappers
  import opened Text
  import opened Jobs
  import opened State
  import opened Stories
  import opened Tables
  import JobTables
  import Collapse
  import DaemonRuns
  import QueueItems

  // ------------------------------------------------------------- a job's story

  // The event is about the job, its agent, its workspace or a decision of it, or about a session that it
  // may have.
  predicate Concerns(e: Event, id: string) {
    || ((AboutJob(e) || AboutStep(e)) && e.job == id)
    || ((e.AgentWorking? || e.AgentExited? || e.AgentFailed? || e.AgentGone?) && e.owner == JobOwner(id))
    || ((e.DecisionCreated? || e.SessionCreated?) && e.owner == JobOwner(id))
    || (e.WorkspaceCreated? && e.wsOwner == Some(JobOwner(id))) || e.SessionDeleted?
  }

  function JobPlot(id: string): Plot<Event> {
    Plot((e: Event) => e.JobCreated? && e.job == id, (e: Event) => e.JobDeleted? && e.job == id,
         (e: Event) => Concerns(e, id))
  }

  predicate IsStory(story: seq<Event>) { story != [] && story[0].JobCreated? }

  // ------------------------------------------------------------- field by field

  // The step is the one it was last told to go to.
  function StepOf(story: seq<Event>): string
    requires IsStory(story)
  {
    var e := story[|story| - 1];
    if |story| == 1 then story[0].initialStep
    else if e.JobAdvanced? then e.step
    else StepOf(story[..|story| - 1])
  }

  predicate Final(step: string) { step == "done" || step == "failed" || step == "cancelled" }

  // An advance to the step where the job stands, and has not failed, is passed over.
  predicate Passed(story: seq<Event>, step: string)
    requires IsStory(story)
    decreases |story|, 1
  {
    StepOf(story) == step && StatusOf(story) != Failed
  }

  function StatusOf(story: seq<Event>): StepStatus
    requires IsStory(story)
    decreases |story|, 0
  {
    if |story| == 1 then Pending
    else
      var p, e := story[..|story| - 1], story[|story| - 1];
      match e
      case JobAdvanced(_, step) =>
        if Passed(p, step) then StatusOf(p)
        else if step == "done" then Completed
        else if step == "failed" || step == "cancelled" then Failed
        else Pending
      case ShellExited(_, code) => if code == 0 then Completed else Failed
      case StepStarted(_, _, _) => Running
      case StepWaiting(_, _, decision) => Waiting(decision)
      case StepCompleted(_) => Completed
      case StepFailed(_, _) => Failed
      case AgentWorking(_, _) => Running
      case AgentExited(_, code, _) =>
        if Final(StepOf(p)) then StatusOf(p) else if code == Some(0) then Completed else Failed
      case AgentFailed(_, _, _) => if Final(StepOf(p)) then StatusOf(p) else Failed
      case AgentGone(_, _) => if Final(StepOf(p)) then StatusOf(p) else Failed
      case DecisionCreated(decision, _, _, _, _, _, _, _, _) => Waiting(Some(decision))
      case _ => StatusOf(p)
  }

  // The error is that of the last failure or wait that names one, until the job is taken up again.
  function ErrorOf(story: seq<Event>): Option<string>
    requires IsStory(story)
  {
    if |story| == 1 then None
    else
      var p, e := story[..|story| - 1], story[|story| - 1];
      match e
      case ShellExited(_, code) => if code == 0 then ErrorOf(p) else Some("shell exit code: " + Signed(code))
      case StepFailed(_, error) => Some(error)
      case StepWaiting(_, reason, _) => if reason.Some? then reason else ErrorOf(p)
      case AgentExited(_, code, _) =>
        if Final(StepOf(p)) || code == Some(0) then ErrorOf(p)
        else if code.None? then Some("exit code: None")
        else Some("exit code: Some(" + Signed(code.value) + ")")
      case AgentFailed(_, reason, _) => if Final(StepOf(p)) then ErrorOf(p) else Some(reason)
      case AgentGone(_, _) => if Final(StepOf(p)) then ErrorOf(p) else Some("session terminated unexpectedly")
      case JobAdvanced(_, step) =>
        if !Passed(p, step) && Final(StepOf(p)) && !Final(step) then None else ErrorOf(p)
      case _ => ErrorOf(p)
  }

  // A step record: what it is called, whether it is still open, what came of it, and who is at work.
  datatype Record =
    Record(name: string, open: bool, outcome: StepOutcome, agent: Option<string>, agentName: Option<string>)

  // Only an open record can change, and only the last one is looked at.
  function Closing(records: seq<Record>, outcome: StepOutcome): (r: seq<Record>)
    requires records != []
    ensures |r| == |records|
  {
    var last := records[|records| - 1];
    if last.open then records[..|records| - 1] + [last.(open := false, outcome := outcome)] else records
  }

  function Noting(records: seq<Record>, outcome: StepOutcome, agent: Option<string>, name: Option<string>)
    : (r: seq<Record>)
    requires records != []
    ensures |r| == |records|
  {
    var last := records[|records| - 1];
    if !last.open then records
    else
      records[..|records| - 1]
      + [last.(outcome := outcome, agent := if agent.Some? then agent else last.agent,
               agentName := if name.Some? then name else last.agentName)]
  }

  // What came of a step that the job leaves for another one.
  function Left(story: seq<Event>, step: string): StepOutcome
    requires IsStory(story)
  {
    if step == "failed" || step == "cancelled" then
      FailedWith(if ErrorOf(story).Some? then ErrorOf(story).value else "")
    else Succeeded
  }

  // The records of the steps that the job went through.
  function RecordsOf(story: seq<Event>): (r: seq<Record>)
    requires IsStory(story)
    ensures r != []
  {
    if |story| == 1 then [Record(story[0].initialStep, true, StillRunning, None, None)]
    else
      var p, e := story[..|story| - 1], story[|story| - 1];
      var rs := RecordsOf(p);
      match e
      case JobAdvanced(_, step) =>
        if Passed(p, step) then rs
        else if Final(step) then Closing(rs, Left(p, step))
        else Closing(rs, Left(p, step)) + [Record(step, true, StillRunning, None, None)]
      case ShellExited(_, code) =>
        Closing(rs, if code == 0 then Succeeded else FailedWith("shell exit code: " + Signed(code)))
      case StepCompleted(_) => Closing(rs, Succeeded)
      case StepFailed(_, error) => Closing(rs, FailedWith(error))
      case StepStarted(_, agent, name) => Noting(rs, StillRunning, agent, name)
      case StepWaiting(_, reason, _) =>
        Noting(rs, WaitingFor(if reason.Some? then reason.value else ""), None, None)
      case _ => rs
  }

  // How often a step was entered: the job is made on its first step without entering it.
  function Entered(records: seq<Record>, step: string): nat {
    if |records| <= 1 then 0
    else Entered(records[..|records| - 1], step) + if records[|records| - 1].name == step then 1 else 0
  }

  function Count(visits: map<string, nat>, step: string): nat { if step in visits then visits[step] else 0 }

  ghost predicate VisitsAre(visits: map<string, nat>, records: seq<Record>) {
    forall step :: Count(visits, step) == Entered(records, step)
  }

  // A variable has the value it was last given.
  function VarsOf(story: seq<Event>): map<string, string>
    requires IsStory(story)
  {
    var e := story[|story| - 1];
    if |story| == 1 then story[0].vars
    else if e.JobUpdated? then VarsOf(story[..|story| - 1]) + e.vars
    else VarsOf(story[..|story| - 1])
  }

  predicate CancellingIn(story: seq<Event>) { exists i :: 0 <= i < |story| && story[i].JobCancelling? }

  // The session is the last one made for the job, unless it was deleted or the job taken up again since.
  function SessionOf(story: seq<Event>): Option<string>
    requires IsStory(story)
  {
    if |story| == 1 then None
    else
      var p, e := story[..|story| - 1], story[|story| - 1];
      if e.SessionCreated? then Some(e.session)
      else if e.SessionDeleted? && SessionOf(p) == Some(e.session) then None
      else if e.JobAdvanced? && !Passed(p, e.step) && Final(StepOf(p)) && !Final(e.step) then None
      else SessionOf(p)
  }

  // The workspace is the last one made for the job: its id and its path.
  function WorkspaceOf(story: seq<Event>): Option<(string, string)>
    requires IsStory(story)
  {
    var e := story[|story| - 1];
    if |story| == 1 then None
    else if e.WorkspaceCreated? then Some((e.workspace, e.path))
    else WorkspaceOf(story[..|story| - 1])
  }

  // What is fixed when the job is made.
  predicate MadeAs(j: Job, e: Event)
    requires e.JobCreated?
  {
    && j.id == e.job && j.name == e.name && j.kind == e.jobKind && j.namespace == e.namespace
    && j.runbookHash == e.runbookHash && j.cwd == e.cwd && j.cronName == e.cronName
  }

  predicate Is(s: StepRecord, r: Record) {
    && s.name == r.name && s.finishedAt.None? == r.open && s.outcome == r.outcome
    && s.agentId == r.agent && s.agentName == r.agentName
  }

  predicate Are(h: seq<StepRecord>, rs: seq<Record>) {
    |h| == |rs| && forall i :: 0 <= i < |h| ==> Is(h[i], rs[i])
  }

  predicate PlaceIs(j: Job, place: Option<(string, string)>) {
    && j.workspaceId == (if place.Some? then Some(place.value.0) else None)
    && j.workspacePath == (if place.Some? then Some(place.value.1) else None)
  }

  // The record tells the story.
  ghost predicate Told(j: Job, story: seq<Event>) {
    && IsStory(story) && MadeAs(j, story[0])
    && j.step == StepOf(story) && j.status == StatusOf(story) && j.error == ErrorOf(story)
    && Are(j.history, RecordsOf(story)) && VisitsAre(j.stepVisits, RecordsOf(story)) && j.vars == VarsOf(story)
    && (j.cancelling <==> CancellingIn(story)) && j.sessionId == SessionOf(story)
    && PlaceIs(j, WorkspaceOf(story))
  }

  // ------------------------------------------------------------- one event

  lemma MadeTold(e: Event)
    requires e.JobCreated?
    ensures Told(NewJob(e), [e])
  {
  }

  lemma CancellingSnoc(p: seq<Event>, e: Event)
    ensures CancellingIn(p + [e]) <==> CancellingIn(p) || e.JobCancelling?
  {
    var more := p + [e];
    assert more[|p|] == e && forall i :: 0 <= i < |p| ==> more[i] == p[i];
    if CancellingIn(p) {
      var i :| 0 <= i < |p| && p[i].JobCancelling?;
      assert more[i].JobCancelling?;
    }
  }

  lemma Snoc(p: seq<Event>, e: Event)
    requires IsStory(p)
    ensures var more := p + [e];
            IsStory(more) && more[0] == p[0] && more[..|more| - 1] == p && more[|more| - 1] == e && |more| > 1
  {
  }

  // The events a story goes on with.
  predicate Tells(e: Event) {
    || AboutStep(e) || e.JobAdvanced? || e.JobUpdated? || e.JobCancelling?
    || e.AgentWorking? || e.AgentExited? || e.AgentFailed? || e.AgentGone?
    || e.DecisionCreated? || AboutSession(e) || e.WorkspaceCreated?
  }

  // What was fixed when the job was made stays.
  predicate SameMaking(j: Job, k: Job) {
    && j.id == k.id && j.name == k.name && j.kind == k.kind && j.namespace == k.namespace
    && j.runbookHash == k.runbookHash && j.cwd == k.cwd && j.cronName == k.cronName
  }

  lemma StepFixed(j: Job, e: Event, now: nat)
    requires AboutStep(e)
    ensures SameMaking(JobAfter(j, e, now), j)
  {
    hide Finalize, SetOutcome, SetAgentId, SetAgentName;
  }

  lemma AdvanceFixed(j: Job, e: Event, now: nat)
    requires e.JobAdvanced?
    ensures SameMaking(JobAfter(j, e, now), j)
  {
    hide HistoryOnEntry, SkipsAdvance, ClosingOutcome, StatusOnEntry, Visit, TerminalStep;
  }

  lemma FixedTold(j: Job, e: Event, now: nat)
    requires Tells(e)
    ensures SameMaking(JobAfter(j, e, now), j)
  {
    if AboutStep(e) { StepFixed(j, e, now); }
    if e.JobAdvanced? { AdvanceFixed(j, e, now); }
    hide JobAfterStep, Advance;
  }

  lemma StepFieldTold(j: Job, p: seq<Event>, e: Event, now: nat)
    requires IsStory(p) && Tells(e) && j.step == StepOf(p) && j.status == StatusOf(p)
    ensures JobAfter(j, e, now).step == StepOf(p + [e])
  {
    Snoc(p, e);
    hide StatusOf;
  }

  lemma StatusTold(j: Job, p: seq<Event>, e: Event, now: nat)
    requires IsStory(p) && Tells(e) && j.step == StepOf(p) && j.status == StatusOf(p)
    ensures JobAfter(j, e, now).status == StatusOf(p + [e])
  {
    Snoc(p, e);
    hide StepOf;
  }

  lemma ErrorTold(j: Job, p: seq<Event>, e: Event, now: nat)
    requires IsStory(p) && Tells(e) && j.step == StepOf(p) && j.status == StatusOf(p) && j.error == ErrorOf(p)
    ensures JobAfter(j, e, now).error == ErrorOf(p + [e])
  {
    Snoc(p, e);
    hide StepOf, StatusOf;
  }

  lemma ClosingAre(h: seq<StepRecord>, rs: seq<Record>, outcome: StepOutcome, now: nat)
    requires Are(h, rs) && rs != []
    ensures Are(Finalize(h, outcome, now), Closing(rs, outcome))
  {
  }

  lemma NotingAre(h: seq<StepRecord>, rs: seq<Record>, outcome: StepOutcome)
    requires Are(h, rs) && rs != []
    ensures Are(SetOutcome(h, outcome), Noting(rs, outcome, None, None))
  {
  }

  lemma StartedAre(h: seq<StepRecord>, rs: seq<Record>, agent: Option<string>, name: Option<string>)
    requires Are(h, rs) && rs != []
    ensures Are(Jobs.SetOutcome(Named(h, agent, name), StillRunning), Noting(rs, StillRunning, agent, name))
  {
    NamedIs(h, agent, name);
    hide Named;
  }

  // The history of a starting step, with its agent and the agent's name.
  function Named(h: seq<StepRecord>, agent: Option<string>, name: Option<string>): seq<StepRecord> {
    var h1 := if agent.Some? then SetAgentId(h, agent.value) else h;
    if name.Some? then SetAgentName(h1, name.value) else h1
  }

  lemma NamedIs(h: seq<StepRecord>, agent: Option<string>, name: Option<string>)
    ensures var n := Named(h, agent, name);
            && |n| == |h|
            && (forall i :: 0 <= i < |h| - 1 ==> n[i] == h[i])
            && (h != [] ==>
                var l := h[|h| - 1];
                n[|h| - 1]
                == if l.finishedAt.Some? then l
                   else l.(agentId := if agent.Some? then agent else l.agentId,
                           agentName := if name.Some? then name else l.agentName))
  {
  }

  lemma EnteredAre(h: seq<StepRecord>, rs: seq<Record>, outcome: StepOutcome, step: string, now: nat)
    requires Are(h, rs) && rs != []
    ensures Are(HistoryOnEntry(h, outcome, step, now),
                if Final(step) then Closing(rs, outcome)
                else Closing(rs, outcome) + [Record(step, true, StillRunning, None, None)])
  {
    ClosingAre(h, rs, outcome, now);
    hide Finalize, Closing;
  }

  lemma AdvanceRecords(j: Job, p: seq<Event>, e: Event, now: nat)
    requires IsStory(p) && e.JobAdvanced?
    requires j.step == StepOf(p) && j.status == StatusOf(p) && j.error == ErrorOf(p) && Are(j.history, RecordsOf(p))
    ensures Are(JobAfter(j, e, now).history, RecordsOf(p + [e]))
  {
    Snoc(p, e);
    EnteredAre(j.history, RecordsOf(p), ClosingOutcome(j, e.step), e.step, now);
    hide StepOf, StatusOf, ErrorOf, HistoryOnEntry, Closing, Are;
  }

  lemma EndRecords(j: Job, p: seq<Event>, e: Event, now: nat)
    requires IsStory(p) && (e.ShellExited? || e.StepCompleted? || e.StepFailed?) && Are(j.history, RecordsOf(p))
    ensures Are(JobAfter(j, e, now).history, RecordsOf(p + [e]))
  {
    Snoc(p, e);
    var h, rs := j.history, RecordsOf(p);
    if e.ShellExited? && e.code != 0 { ClosingAre(h, rs, FailedWith("shell exit code: " + Signed(e.code)), now); }
    else if e.StepFailed? { ClosingAre(h, rs, FailedWith(e.error), now); }
    else { ClosingAre(h, rs, Succeeded, now); }
    hide Are, Closing, Finalize, Signed;
  }

  lemma WorkRecords(j: Job, p: seq<Event>, e: Event, now: nat)
    requires IsStory(p) && (e.StepStarted? || e.StepWaiting?) && Are(j.history, RecordsOf(p))
    ensures Are(JobAfter(j, e, now).history, RecordsOf(p + [e]))
  {
    Snoc(p, e);
    var h, rs := j.history, RecordsOf(p);
    if e.StepStarted? { StartedAre(h, rs, e.agentId, e.agentName); }
    else { NotingAre(h, rs, WaitingFor(if e.waitReason.Some? then e.waitReason.value else "")); }
    hide Are, Noting, SetOutcome, SetAgentId, SetAgentName, Signed;
  }

  lemma OtherRecords(j: Job, p: seq<Event>, e: Event, now: nat)
    requires IsStory(p) && Tells(e) && !AboutStep(e) && !e.JobAdvanced? && Are(j.history, RecordsOf(p))
    ensures Are(JobAfter(j, e, now).history, RecordsOf(p + [e]))
  {
    Snoc(p, e);
    hide Are;
  }

  // Changing the last record in place enters nothing.
  lemma SameEntered(rs: seq<Record>, changed: seq<Record>, step: string)
    requires |rs| == |changed| && forall i :: 0 <= i < |rs| ==> rs[i].name == changed[i].name
    ensures Entered(rs, step) == Entered(changed, step)
  {
    if |rs| > 1 { SameEntered(rs[..|rs| - 1], changed[..|rs| - 1], step); }
  }

  lemma ClosingEntered(rs: seq<Record>, outcome: StepOutcome, agent: Option<string>, name: Option<string>, step: string)
    requires rs != []
    ensures Entered(Closing(rs, outcome), step) == Entered(rs, step)
    ensures Entered(Noting(rs, outcome, agent, name), step) == Entered(rs, step)
  {
    SameEntered(rs, Closing(rs, outcome), step);
    SameEntered(rs, Noting(rs, outcome, agent, name), step);
  }

  // The event enters the step.
  predicate Enters(p: seq<Event>, e: Event, step: string)
    requires IsStory(p)
  {
    e.JobAdvanced? && e.step == step && !Passed(p, step) && !Final(step)
  }

  lemma EnteredSnoc(p: seq<Event>, e: Event, step: string)
    requires IsStory(p)
    ensures Entered(RecordsOf(p + [e]), step) == Entered(RecordsOf(p), step) + if Enters(p, e, step) then 1 else 0
  {
    Snoc(p, e);
    if e.JobAdvanced? { EnteredAdvance(p, e, step); }
    else { EnteredOtherwise(p, e, step); }
    hide RecordsOf, Passed, Final, Entered;
  }

  lemma EnteredAdvance(p: seq<Event>, e: Event, step: string)
    requires IsStory(p) && e.JobAdvanced?
    ensures Entered(RecordsOf(p + [e]), step) == Entered(RecordsOf(p), step) + if Enters(p, e, step) then 1 else 0
  {
    RecordsEntered(p, e);
    var rs, outcome := RecordsOf(p), Left(p, e.step);
    ClosingEntered(rs, outcome, None, None, step);
    EnteredMore(Closing(rs, outcome), Record(e.step, true, StillRunning, None, None), step);
    hide RecordsOf, Closing, Entered, Left, Passed, Final;
  }

  lemma RecordsEntered(p: seq<Event>, e: Event)
    requires IsStory(p) && e.JobAdvanced?
    ensures var rs, outcome := RecordsOf(p), Left(p, e.step);
            RecordsOf(p + [e])
            == if Passed(p, e.step) then rs
               else if Final(e.step) then Closing(rs, outcome)
               else Closing(rs, outcome) + [Record(e.step, true, StillRunning, None, None)]
  {
    Snoc(p, e);
    hide Closing, Left, Passed, Final;
  }

  lemma EnteredMore(rs: seq<Record>, r: Record, step: string)
    requires rs != []
    ensures Entered(rs + [r], step) == Entered(rs, step) + if r.name == step then 1 else 0
  {
    assert (rs + [r])[..|rs|] == rs;
  }

  lemma EnteredOtherwise(p: seq<Event>, e: Event, step: string)
    requires IsStory(p) && !e.JobAdvanced?
    ensures Entered(RecordsOf(p + [e]), step) == Entered(RecordsOf(p), step)
  {
    Snoc(p, e);
    var rs := RecordsOf(p);
    forall outcome, agent, name
      ensures Entered(Closing(rs, outcome), step) == Entered(rs, step)
      ensures Entered(Noting(rs, outcome, agent, name), step) == Entered(rs, step)
    {
      ClosingEntered(rs, outcome, agent, name, step);
    }
    hide Closing, Noting, Entered, Signed;
  }

  lemma VisitCounted(j: Job, p: seq<Event>, e: Event, now: nat, step: string)
    requires IsStory(p) && Tells(e) && j.step == StepOf(p) && j.status == StatusOf(p)
    ensures Count(JobAfter(j, e, now).stepVisits, step)
            == Count(j.stepVisits, step) + if Enters(p, e, step) then 1 else 0
  {
    if e.JobAdvanced? { CountedAdvance(j, p, e, now, step); }
    else { UncountedOtherwise(j, e, now); }
    hide JobAfter, StepOf, StatusOf, Final, Count;
  }

  lemma CountedAdvance(j: Job, p: seq<Event>, e: Event, now: nat, step: string)
    requires IsStory(p) && e.JobAdvanced? && j.step == StepOf(p) && j.status == StatusOf(p)
    ensures Count(JobAfter(j, e, now).stepVisits, step)
            == Count(j.stepVisits, step) + if Enters(p, e, step) then 1 else 0
  {
    hide StepOf, StatusOf, HistoryOnEntry, ClosingOutcome;
  }

  lemma UncountedOtherwise(j: Job, e: Event, now: nat)
    requires Tells(e) && !e.JobAdvanced?
    ensures JobAfter(j, e, now).stepVisits == j.stepVisits
  {
    hide Finalize, SetOutcome, SetAgentId, SetAgentName;
  }

  lemma VisitsTold(j: Job, p: seq<Event>, e: Event, now: nat)
    requires IsStory(p) && Tells(e) && j.step == StepOf(p) && j.status == StatusOf(p)
    requires VisitsAre(j.stepVisits, RecordsOf(p))
    ensures VisitsAre(JobAfter(j, e, now).stepVisits, RecordsOf(p + [e]))
  {
    forall step ensures Count(JobAfter(j, e, now).stepVisits, step) == Entered(RecordsOf(p + [e]), step) {
      EnteredSnoc(p, e, step);
      VisitCounted(j, p, e, now, step);
    }
    hide Entered, RecordsOf, JobAfter, Enters, StepOf, StatusOf, Tells, Count;
  }

  lemma VarsTold(j: Job, p: seq<Event>, e: Event, now: nat)
    requires IsStory(p) && Tells(e) && j.vars == VarsOf(p)
    ensures JobAfter(j, e, now).vars == VarsOf(p + [e])
  {
    Snoc(p, e);
  }

  lemma CancellingTold(j: Job, p: seq<Event>, e: Event, now: nat)
    requires IsStory(p) && Tells(e) && (j.cancelling <==> CancellingIn(p))
    ensures JobAfter(j, e, now).cancelling <==> CancellingIn(p + [e])
  {
    CancellingSnoc(p, e);
    hide CancellingIn;
  }

  lemma SessionTold(j: Job, p: seq<Event>, e: Event, now: nat)
    requires IsStory(p) && Tells(e) && j.step == StepOf(p) && j.status == StatusOf(p) && j.sessionId == SessionOf(p)
    ensures JobAfter(j, e, now).sessionId == SessionOf(p + [e])
  {
    Snoc(p, e);
    hide StepOf, StatusOf;
  }

  lemma PlaceTold(j: Job, p: seq<Event>, e: Event, now: nat)
    requires IsStory(p) && Tells(e) && PlaceIs(j, WorkspaceOf(p))
    ensures PlaceIs(JobAfter(j, e, now), WorkspaceOf(p + [e]))
  {
    Snoc(p, e);
  }

  lemma GoesOn(j: Job, p: seq<Event>, e: Event, now: nat)
    requires Told(j, p) && Tells(e)
    ensures Told(JobAfter(j, e, now), p + [e])
  {
    Snoc(p, e);
    FixedTold(j, e, now);
    StepFieldTold(j, p, e, now);
    StatusTold(j, p, e, now);
    ErrorTold(j, p, e, now);
    if e.StepStarted? || e.StepWaiting? { WorkRecords(j, p, e, now); }
    else if AboutStep(e) { EndRecords(j, p, e, now); }
    else if e.JobAdvanced? { AdvanceRecords(j, p, e, now); }
    else { OtherRecords(j, p, e, now); }
    VisitsTold(j, p, e, now);
    VarsTold(j, p, e, now);
    CancellingTold(j, p, e, now);
    SessionTold(j, p, e, now);
    PlaceTold(j, p, e, now);
    hide StepOf, StatusOf, ErrorOf, RecordsOf, VarsOf, CancellingIn, SessionOf, WorkspaceOf, JobAfter, Are,
         VisitsAre, PlaceIs, Tells;
  }

  // ------------------------------------------------------------- the whole state

  // The job is as it was, but for a signal of its agent.
  predicate Spared(before: map<string, Job>, after: map<string, Job>, id: string) {
    && (id in after <==> id in before)
    && (id in before ==> after[id].(tracker := before[id].tracker) == before[id])
  }

  predicate Continued(before: map<string, Job>, after: map<string, Job>, e: Event, now: nat, id: string) {
    && (id in after <==> id in before)
    && (id in before ==> after[id] == JobAfter(before[id], e, now))
  }

  lemma SameSpares(m: map<string, Job>, id: string)
    ensures Spared(m, m, id)
  {
  }

  lemma OwnedStep(m: map<string, Job>, owner: Owner, e: Event, now: nat, id: string)
    ensures var after := OwnedJobs(m, owner, e, now);
            if owner == JobOwner(id) then Continued(m, after, e, now, id) else Spared(m, after, id)
  {
    if owner != JobOwner(id) { OwnedOther(m, owner, e, now, id); }
    hide JobAfter, Spared;
  }

  lemma OwnedOther(m: map<string, Job>, owner: Owner, e: Event, now: nat, id: string)
    requires owner != JobOwner(id)
    ensures Spared(m, OwnedJobs(m, owner, e, now), id)
  {
    SameSpares(m, id);
    hide JobAfter;
  }

  lemma AgentStep(s: State, e: Event, now: nat, id: string)
    requires AboutAgent(e)
    ensures var after := ApplyAgent(s, e, now).jobs;
            if Concerns(e, id) then Continued(s.jobs, after, e, now, id) else Spared(s.jobs, after, id)
  {
    SameSpares(s.jobs, id);
    if !e.AgentWaiting? { OwnedStep(s.jobs, e.owner, e, now, id); }
    hide OwnedJobs, AgentsAt, Spared, Continued;
  }

  lemma SignalStep(s: State, e: Event, now: nat, id: string)
    requires e.AgentSignaled?
    ensures Spared(s.jobs, ApplySignal(s, e, now).jobs, id)
  {
    SameSpares(s.jobs, id);
    var k := JobTables.SignalTo(s, e, now);
    SignalSpares(s.jobs, k, e, now, id);
    hide ApplySignal, JobsAt, Spared;
  }

  lemma SignalSpares(m: map<string, Job>, k: string, e: Event, now: nat, id: string)
    requires e.AgentSignaled?
    ensures Spared(m, JobsAt(m, k, e, now), id)
  {
    if id in m { SignalFixed(m[id], e, now); }
    hide JobAfter;
  }

  lemma SignalFixed(j: Job, e: Event, now: nat)
    requires e.AgentSignaled?
    ensures JobAfter(j, e, now).(tracker := j.tracker) == j
  {
  }

  lemma SessionStep(s: State, e: Event, now: nat, id: string)
    requires AboutSession(e)
    ensures var after := ApplySession(s, e, now).jobs;
            if Concerns(e, id) then Continued(s.jobs, after, e, now, id) else Spared(s.jobs, after, id)
  {
    if e.SessionCreated? { OwnedStep(s.jobs, e.owner, e, now, id); }
    else { EveryJob(s.jobs, e, now, id); }
    hide OwnedJobs, OwnedRuns, AllJobs, AllRuns, AllAgents, Without, Spared, Continued;
  }

  lemma EveryJob(m: map<string, Job>, e: Event, now: nat, id: string)
    ensures Continued(m, AllJobs(m, e, now), e, now, id)
  {
    hide JobAfter;
  }

  lemma WorkspaceStep(s: State, e: Event, now: nat, id: string)
    requires AboutWorkspace(e)
    ensures var after := ApplyWorkspace(s, e, now).jobs;
            if Concerns(e, id) then Continued(s.jobs, after, e, now, id) else Spared(s.jobs, after, id)
  {
    JobTables.WorkspaceJobs(s, e, now);
    SameSpares(s.jobs, id);
    if e.WorkspaceCreated? && e.wsOwner.Some? { OwnedStep(s.jobs, e.wsOwner.value, e, now, id); }
    hide ApplyWorkspace, OwnedJobs, Spared, Continued;
  }

  lemma DecisionStep(s: State, e: Event, now: nat, id: string)
    requires AboutDecision(e)
    ensures var after := ApplyDecision(s, e, now).jobs;
            if Concerns(e, id) then Continued(s.jobs, after, e, now, id) else Spared(s.jobs, after, id)
  {
    SameSpares(s.jobs, id);
    if e.DecisionCreated? { OwnedStep(s.jobs, e.owner, e, now, id); }
    hide OwnedJobs, OwnedRuns, AllDecisions, DecisionsAt, NewDecision, Spared, Continued;
  }

  lemma JobStep(s: State, e: Event, now: nat, id: string)
    requires (AboutJob(e) || AboutStep(e)) && !(e.JobCreated? && e.job == id) && !(e.JobDeleted? && e.job == id)
    ensures var after := Apply(s, e, now).jobs;
            if Concerns(e, id) then Continued(s.jobs, after, e, now, id) else Spared(s.jobs, after, id)
  {
    OwnConcerns(e, id);
    if e.job == id { OwnStep(s, e, now); } else { OtherStep(s, e, now, id); }
    hide Apply, Concerns, Spared, Continued, AboutJob, AboutStep;
  }

  lemma OwnConcerns(e: Event, id: string)
    requires AboutJob(e) || AboutStep(e)
    ensures Concerns(e, id) <==> e.job == id
  {
  }

  lemma OwnStep(s: State, e: Event, now: nat)
    requires (AboutJob(e) || AboutStep(e)) && !e.JobCreated? && !e.JobDeleted?
    ensures Continued(s.jobs, Apply(s, e, now).jobs, e, now, e.job)
  {
    JobTables.OwnJob(s, e, now);
    hide Apply, JobAfter, AboutJob, AboutStep;
  }

  lemma OtherStep(s: State, e: Event, now: nat, id: string)
    requires (AboutJob(e) || AboutStep(e)) && e.job != id
    ensures Spared(s.jobs, Apply(s, e, now).jobs, id)
  {
    JobTables.OtherJobsStay(s, e, now, id);
    Alike(s.jobs, Apply(s, e, now).jobs, id);
    hide Apply, Spared, AboutJob, AboutStep;
  }

  lemma Alike(m: map<string, Job>, n: map<string, Job>, id: string)
    ensures (id in n <==> id in m) && (id in n ==> n[id] == m[id]) ==> Spared(m, n, id)
  {
    SameSpares(m, id);
  }

  // What an event does to a job that it neither makes nor deletes.
  lemma Step(s: State, e: Event, now: nat, id: string)
    requires !(e.JobCreated? && e.job == id) && !(e.JobDeleted? && e.job == id)
    ensures var after := Apply(s, e, now).jobs;
            if Concerns(e, id) then Continued(s.jobs, after, e, now, id) else Spared(s.jobs, after, id)
  {
    hide ApplyAgent, ApplySignal, ApplySession, ApplyWorkspace, ApplyWorker, ApplyQueue, ApplyCron, ApplyDecision,
         ApplyRun, ApplyJob, ApplyStep, AboutJob, AboutStep, AboutAgent, AboutSession, AboutWorkspace, AboutWorker,
         AboutQueue, AboutCron, AboutDecision, AboutRun, Spared, Continued, Concerns;
    if AboutJob(e) || AboutStep(e) { JobStep(s, e, now, id); }
    else if AboutAgent(e) { AgentStep(s, e, now, id); }
    else if e.AgentSignaled? { NoConcern(e, id); SignalStep(s, e, now, id); }
    else if AboutSession(e) { SessionStep(s, e, now, id); }
    else if AboutWorkspace(e) { WorkspaceStep(s, e, now, id); }
    else if AboutDecision(e) { JobTables.DecisionsOnly(e); DecisionStep(s, e, now, id); }
    else {
      JobTables.NoJobEvent(e);
      NoConcern(e, id);
      Frame(s, e, now);
      SameSpares(s.jobs, id);
      hide Apply, UsesJobs;
    }
  }

  lemma NoConcern(e: Event, id: string)
    requires e.AgentSignaled? || !UsesJobs(e)
    ensures !Concerns(e, id)
  {
  }

  lemma ConcernTells(e: Event, id: string)
    requires Concerns(e, id) && !e.JobCreated? && !e.JobDeleted?
    ensures Tells(e)
  {
  }

  lemma SparedTold(before: map<string, Job>, after: map<string, Job>, id: string, story: seq<Event>)
    requires Spared(before, after, id) && id in before && Told(before[id], story)
    ensures Told(after[id], story)
  {
    hide StepOf, StatusOf, ErrorOf, RecordsOf, VarsOf, CancellingIn, SessionOf, WorkspaceOf, Are, VisitsAre;
  }

  // Between any other events, in every history: the job is there exactly if it was made and not deleted
  // since, and its record tells what happened to it.
  lemma {:induction false} JobTold(history: seq<Event>, id: string)
    ensures var jobs, story := Collapse.Fold(DaemonRuns.Daemon(), history).jobs, Story(JobPlot(id), history);
            (id in jobs <==> story.Some?) && (story.Some? ==> Told(jobs[id], story.value))
  {
    if history != [] {
      var before, e := history[..|history| - 1], history[|history| - 1];
      JobTold(before, id);
      QueueItems.FoldUnfolds(history);
      var s := Collapse.Fold(DaemonRuns.Daemon(), before);
      TellsOn(s, e, id, Story(JobPlot(id), before));
      hide Apply, Collapse.Fold, Told, JobPlot;
    }
  }

  lemma TellsOn(s: State, e: Event, id: string, story: Option<seq<Event>>)
    requires (id in s.jobs <==> story.Some?) && (story.Some? ==> Told(s.jobs[id], story.value))
    ensures var jobs, next := Apply(s, e, 0).jobs, Next(JobPlot(id), story, e);
            (id in jobs <==> next.Some?) && (next.Some? ==> Told(jobs[id], next.value))
  {
    hide Told, Apply, Concerns, JobAfter, NewJob;
    if (e.JobCreated? || e.JobDeleted?) && e.job == id {
      JobTables.OwnJob(s, e, 0);
      if e.JobCreated? { MadeTold(e); }
    } else {
      Step(s, e, 0, id);
      if story.Some? {
        if Concerns(e, id) {
          MakesOther(e, id);
          ConcernTells(e, id);
          GoesOn(s.jobs[id], story.value, e, 0);
        } else {
          SparedTold(s.jobs, Apply(s, e, 0).jobs, id, story.value);
        }
      }
    }
  }

  lemma MakesOther(e: Event, id: string)
    requires Concerns(e, id) && !((e.JobCreated? || e.JobDeleted?) && e.job == id)
    ensures !e.JobCreated? && !e.JobDeleted?
  {
  }
}
