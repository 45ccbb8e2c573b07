/** Which events may trade places (crates/storage/src/state.rs): those that use different tables, and
    those about different jobs or different queues. */
module Independence {
  import opened Wrappers
  import opened Jobs
  import opened State
  import opened Tables
  import JobTables
  import Scoping = Names

  // ------------------------------------------------------------- different tables

  // The events use different tables.
  predicate Apart(x: Event, y: Event) {
    && !(UsesJobs(x) && UsesJobs(y)) && !(UsesRuns(x) && UsesRuns(y)) && !(UsesDecisions(x) && UsesDecisions(y))
    && !(UsesAgents(x) && UsesAgents(y)) && !(UsesWorkers(x) && UsesWorkers(y)) && !(UsesCrons(x) && UsesCrons(y))
    && !(UsesRoots(x) && UsesRoots(y)) && !(AboutSession(x) && AboutSession(y)) && !(AboutQueue(x) && AboutQueue(y))
    && !(AboutWorkspace(x) && AboutWorkspace(y)) && !(x.RunbookLoaded? && y.RunbookLoaded?)
  }

  // Such events may trade places, whatever the clock says at either.
  lemma ApartCommute(s: State, x: Event, y: Event, now: nat, later: nat)
    requires Apart(x, y)
    ensures Apply(Apply(s, x, now), y, later) == Apply(Apply(s, y, later), x, now)
  {
    hide *;
    var sx, sy := Apply(s, x, now), Apply(s, y, later);
    Frame(s, x, now);
    Frame(s, y, later);
    Frame(sx, y, later);
    Frame(sy, x, now);
    Unused(s, sx, x, y);
    Unused(s, sy, y, x);
    Locality(s, sx, y, later);
    Locality(s, sy, x, now);
    SamePlaces(s, sx, sy, Apply(sx, y, later), Apply(sy, x, now), x, y);
  }

  lemma Unused(s: State, t: State, x: Event, y: Event)
    requires Framed(s, t, x) && (Apart(x, y) || Apart(y, x))
    ensures Agree(s, t, y)
  {
    hide UsesJobs, UsesRuns, UsesDecisions, UsesAgents, UsesWorkers, UsesCrons, UsesRoots, AboutSession, AboutQueue,
         AboutWorkspace;
  }

  lemma SamePlaces(s: State, sx: State, sy: State, sxy: State, syx: State, x: Event, y: Event)
    requires Apart(x, y) && Framed(s, sx, x) && Framed(s, sy, y) && Framed(sx, sxy, y) && Framed(sy, syx, x)
    requires Agree(sy, sxy, y) && Agree(sx, syx, x)
    ensures sxy == syx
  {
    SameRecords(s, sx, sy, sxy, syx, x, y);
    SameOthers(s, sx, sy, sxy, syx, x, y);
    hide *;
  }

  lemma SameRecords(s: State, sx: State, sy: State, sxy: State, syx: State, x: Event, y: Event)
    requires Apart(x, y) && Framed(s, sx, x) && Framed(s, sy, y) && Framed(sx, sxy, y) && Framed(sy, syx, x)
    requires Agree(sy, sxy, y) && Agree(sx, syx, x)
    ensures sxy.jobs == syx.jobs && sxy.runs == syx.runs && sxy.agents == syx.agents && sxy.decisions == syx.decisions
    ensures sxy.sessions == syx.sessions
  {
    hide UsesJobs, UsesRuns, UsesDecisions, UsesAgents, UsesWorkers, UsesCrons, UsesRoots, AboutSession, AboutQueue,
         AboutWorkspace;
  }

  lemma SameOthers(s: State, sx: State, sy: State, sxy: State, syx: State, x: Event, y: Event)
    requires Apart(x, y) && Framed(s, sx, x) && Framed(s, sy, y) && Framed(sx, sxy, y) && Framed(sy, syx, x)
    requires Agree(sy, sxy, y) && Agree(sx, syx, x)
    ensures sxy.workers == syx.workers && sxy.queues == syx.queues && sxy.crons == syx.crons
    ensures sxy.workspaces == syx.workspaces && sxy.runbooks == syx.runbooks && sxy.projectRoots == syx.projectRoots
  {
    hide UsesJobs, UsesRuns, UsesDecisions, UsesAgents, UsesWorkers, UsesCrons, UsesRoots, AboutSession, AboutQueue,
         AboutWorkspace;
  }

  // ------------------------------------------------------------- different jobs

  // The event touches nothing but the record of its job.
  predicate OneJob(e: Event) {
    (AboutJob(e) && !e.JobDeleted? && !(e.JobAdvanced? && TerminalStep(e.step)))
    || (AboutStep(e) && !(e.StepStarted? && e.agentId.Some?))
  }

  function JobOf(e: Event): string
    requires OneJob(e)
  {
    e.job
  }

  function JobsWith(m: map<string, Job>, e: Event, id: string, now: nat): map<string, Job> {
    if e.JobCreated? then m[id := NewJob(e)] else JobsAt(m, id, e, now)
  }

  lemma OneJobIs(s: State, e: Event, now: nat)
    requires OneJob(e)
    ensures Apply(s, e, now) == s.(jobs := JobsWith(s.jobs, e, JobOf(e), now))
  {
    if AboutJob(e) { JobIs(s, e, now); } else { StepIs(s, e, now); }
    hide Apply, JobsWith, AboutJob, AboutStep;
  }

  lemma JobIs(s: State, e: Event, now: nat)
    requires OneJob(e) && AboutJob(e)
    ensures Apply(s, e, now) == s.(jobs := JobsWith(s.jobs, e, e.job, now))
  {
    assert Apply(s, e, now) == ApplyJob(s, e, now);
    hide Apply, NewJob, JobAfter, TerminalStep, SkipsAdvance;
    if e.JobAdvanced? && Stays(s.jobs, e) {
      JobTables.StaysIs(s.jobs[e.job], e, now);
      assert JobsAt(s.jobs, e.job, e, now) == s.jobs;
    }
  }

  lemma StepIs(s: State, e: Event, now: nat)
    requires OneJob(e) && AboutStep(e)
    ensures Apply(s, e, now) == s.(jobs := JobsWith(s.jobs, e, e.job, now))
  {
    StepAlone(s, e, now);
    StepApplies(s, e, now);
    hide Apply, ApplyStep, JobAfter, JobsAt;
  }

  lemma StepApplies(s: State, e: Event, now: nat)
    requires AboutStep(e)
    ensures Apply(s, e, now) == ApplyStep(s, e, now)
  {
    NotAboutJob(e);
    hide ApplyJob, ApplyStep, ApplyAgent, ApplySignal, ApplySession, ApplyWorkspace, ApplyWorker, ApplyQueue, ApplyCron,
         ApplyDecision, ApplyRun, AboutJob, AboutStep;
  }

  lemma NotAboutJob(e: Event)
    requires AboutStep(e)
    ensures !AboutJob(e)
  {
  }

  lemma StepAlone(s: State, e: Event, now: nat)
    requires OneJob(e) && AboutStep(e)
    ensures ApplyStep(s, e, now) == s.(jobs := JobsAt(s.jobs, e.job, e, now))
  {
    hide JobAfter, JobsAt, TerminalStep;
  }

  // `n` is `m` with `v` in the place of `id`.
  predicate PutAt<V(==)>(m: map<string, V>, n: map<string, V>, id: string, v: Option<V>) {
    && (v.Some? ==> n == m[id := v.value]) && (v.None? ==> n == m - {id})
  }

  lemma PutsSwap<V>(m: map<string, V>, mx: map<string, V>, my: map<string, V>, mxy: map<string, V>, myx: map<string, V>,
                    a: string, b: string, va: Option<V>, vb: Option<V>)
    requires a != b && PutAt(m, mx, a, va) && PutAt(m, my, b, vb) && PutAt(mx, mxy, b, vb) && PutAt(my, myx, a, va)
    ensures mxy == myx
  {
  }

  function RecordWith(before: Option<Job>, e: Event, now: nat): Option<Job> {
    if e.JobCreated? then Some(NewJob(e)) else if before.Some? then Some(JobAfter(before.value, e, now)) else None
  }

  function At<V>(m: map<string, V>, id: string): Option<V> { if id in m then Some(m[id]) else None }

  lemma JobsPut(m: map<string, Job>, e: Event, id: string, now: nat)
    ensures PutAt(m, JobsWith(m, e, id, now), id, RecordWith(At(m, id), e, now))
  {
    hide JobAfter, NewJob;
    if id !in m { assert m - {id} == m; }
  }

  lemma PutElsewhere<V>(m: map<string, V>, n: map<string, V>, a: string, v: Option<V>, b: string)
    requires a != b && PutAt(m, n, a, v)
    ensures At(n, b) == At(m, b)
  {
  }

  lemma JobsSwap(m: map<string, Job>, x: Event, y: Event, a: string, b: string, now: nat, later: nat)
    requires a != b
    ensures JobsWith(JobsWith(m, x, a, now), y, b, later) == JobsWith(JobsWith(m, y, b, later), x, a, now)
  {
    hide *;
    var mx, my := JobsWith(m, x, a, now), JobsWith(m, y, b, later);
    var mxy, myx := JobsWith(mx, y, b, later), JobsWith(my, x, a, now);
    var va, vb := RecordWith(At(m, a), x, now), RecordWith(At(m, b), y, later);
    JobsPut(m, x, a, now);
    JobsPut(m, y, b, later);
    JobsPut(mx, y, b, later);
    JobsPut(my, x, a, now);
    PutElsewhere(m, mx, a, va, b);
    PutElsewhere(m, my, b, vb, a);
    PutsSwap(m, mx, my, mxy, myx, a, b, va, vb);
  }

  lemma JobsCommute(s: State, x: Event, y: Event, now: nat, later: nat)
    requires OneJob(x) && OneJob(y) && JobOf(x) != JobOf(y)
    ensures Apply(Apply(s, x, now), y, later) == Apply(Apply(s, y, later), x, now)
  {
    OneJobIs(s, x, now);
    OneJobIs(s, y, later);
    OneJobIs(Apply(s, x, now), y, later);
    OneJobIs(Apply(s, y, later), x, now);
    hide Apply, JobsWith, OneJob, JobOf;
    JobsSwap(s.jobs, x, y, JobOf(x), JobOf(y), now, later);
  }

  // ------------------------------------------------------------- different queues

  function QueueKey(e: Event): string
    requires AboutQueue(e)
  {
    Scoping.Scoped(e.namespace, e.queue)
  }

  function QueuesWith(m: map<string, seq<QueueItem>>, e: Event, key: string): map<string, seq<QueueItem>>
    requires AboutQueue(e)
  {
    if e.QueuePushed? || key in m then m[key := QueueAfter(if key in m then m[key] else [], e)] else m
  }

  lemma QueuesAre(s: State, e: Event, now: nat)
    requires AboutQueue(e)
    ensures Apply(s, e, now) == s.(queues := QueuesWith(s.queues, e, QueueKey(e)))
  {
    QueueOnly(s, e, now);
    QueueTable(s, e, QueueKey(e));
    QueuesOnly(s, e);
    hide Apply, ApplyQueue, QueueAfter, AboutQueue;
  }

  lemma QueuesSwap(m: map<string, seq<QueueItem>>, x: Event, y: Event, a: string, b: string)
    requires AboutQueue(x) && AboutQueue(y) && a != b
    ensures QueuesWith(QueuesWith(m, x, a), y, b) == QueuesWith(QueuesWith(m, y, b), x, a)
  {
    hide QueueAfter, AboutQueue;
  }

  lemma QueuesCommute(s: State, x: Event, y: Event, now: nat, later: nat)
    requires AboutQueue(x) && AboutQueue(y) && QueueKey(x) != QueueKey(y)
    ensures Apply(Apply(s, x, now), y, later) == Apply(Apply(s, y, later), x, now)
  {
    QueuesAre(s, x, now);
    QueuesAre(s, y, later);
    QueuesAre(Apply(s, x, now), y, later);
    QueuesAre(Apply(s, y, later), x, now);
    hide Apply, QueuesWith, AboutQueue, QueueKey;
    QueuesSwap(s.queues, x, y, QueueKey(x), QueueKey(y));
  }

  // ------------------------------------------------------------- altogether

  predicate Independent(x: Event, y: Event) {
    || Apart(x, y)
    || (OneJob(x) && OneJob(y) && JobOf(x) != JobOf(y))
    || (AboutQueue(x) && AboutQueue(y) && QueueKey(x) != QueueKey(y))
  }

  // Independent events may trade places in any state, each at its own clock reading.
  lemma IndependentCommute(s: State, x: Event, y: Event, now: nat, later: nat)
    requires Independent(x, y)
    ensures Apply(Apply(s, x, now), y, later) == Apply(Apply(s, y, later), x, now)
  {
    hide Apply, Apart, QueueKey, OneJob, JobOf, AboutQueue;
    if Apart(x, y) { ApartCommute(s, x, y, now, later); }
    else if AboutQueue(x) && AboutQueue(y) && QueueKey(x) != QueueKey(y) { QueuesCommute(s, x, y, now, later); }
    else { JobsCommute(s, x, y, now, later); }
  }
}
