/** The engine loop's treatment of entries that fail (crates/daemon/src/main.rs:205-251): the entry
    is marked, and the job it belongs to is failed by at most one further event. */
module Engine {
  import opened Wrappers
  import opened Wal
  import opened State
  import JobTables

  // The job an event names (crates/core/src/event.rs:970-1020).
  function JobId(e: Event): Option<string> {
    match e
    case CommandRun(job, _, _) => Some(job)
    case ShellExited(job, _) => Some(job)
    case StepStarted(job, _, _) => Some(job)
    case StepWaiting(job, _, _) => Some(job)
    case StepCompleted(job) => Some(job)
    case StepFailed(job, _) => Some(job)
    case JobCreated(job, _, _, _, _, _, _, _, _, _) => Some(job)
    case JobAdvanced(job, _) => Some(job)
    case JobUpdated(job, _) => Some(job)
    case JobResume(job) => Some(job)
    case JobCancelling(job) => Some(job)
    case JobDeleted(job) => Some(job)
    case WorkerItemDispatched(_, _, job, _) => Some(job)
    case CronFired(_, job, run, _) => if run.Some? then None else Some(job)
    case DecisionCreated(_, job, _, owner, _, _, _, _, _) => if owner.RunOwner? then None else Some(job)
    case SessionCreated(_, owner) => if owner.JobOwner? then Some(owner.id) else None
    case Signal(about) => about
    case _ => None
  }

  predicate IsFailure(e: Event) { e.JobAdvanced? && e.step == "failed" }

  // Whether a failing event fails its job.
  predicate Cascades(e: Event) {
    !e.Shutdown? && JobId(e).Some? && !IsFailure(e) && !e.JobResume?
  }

  // The event is about the job: its own, if it is about a job or a step, or else the one it carries, if that
  // is its owner.
  predicate Carries(e: Event, job: string) {
    || ((AboutJob(e) || AboutStep(e)) && e.job == job)
    || ((e.CommandRun? || e.JobResume? || e.WorkerItemDispatched?) && e.job == job)
    || (e.CronFired? && e.agentRun.None? && e.firedJob == job)
    || (e.DecisionCreated? && e.owner.JobOwner? && e.decisionJob == job)
    || (e.SessionCreated? && e.owner == JobOwner(job))
    || (e.Signal? && e.about == Some(job))
  }

  // The job that is named is the job the event is about.
  lemma JobIdIs(e: Event, job: string)
    ensures JobId(e) == Some(job) <==> Carries(e, job)
  {
  }

  // So an event about a job or a step is answered for the job whose record it changes.
  lemma ChangesItsJob(s: State, e: Event, now: nat, id: string)
    requires AboutJob(e) || AboutStep(e)
    ensures var t := Apply(s, e, now);
            Carries(e, id) || ((id in t.jobs <==> id in s.jobs) && (id in t.jobs ==> t.jobs[id] == s.jobs[id]))
  {
    if e.job != id { JobTables.OtherJobsStay(s, e, now, id); }
    hide Apply;
  }

  // Which entries fail: an arbitrary oracle over number and event.
  type Oracle = (nat, Event) -> bool

  // The failure events that the entries lead to, in order.
  function Failures(entries: seq<Line<Event>>, fails: Oracle): (r: seq<Event>)
    requires forall i :: 0 <= i < |entries| ==> entries[i].Entry?
    ensures |r| <= |entries| && forall i :: 0 <= i < |r| ==> IsFailure(r[i])
  {
    if entries == [] then []
    else
      var first := entries[0];
      (if Cascades(first.event) && fails(first.num, first.event)
       then [JobAdvanced(JobId(first.event).value, "failed")] else [])
      + Failures(entries[1..], fails)
  }

  function Numbers(entries: seq<Line<Event>>): (r: seq<nat>)
    requires forall i :: 0 <= i < |entries| ==> entries[i].Entry?
    ensures |r| == |entries| && forall i :: 0 <= i < |r| ==> r[i] == entries[i].num
  {
    seq(|entries|, i requires 0 <= i < |entries| => entries[i].num)
  }

  // Events numbered consecutively after `last`.
  function Entries(last: nat, events: seq<Event>): (r: seq<Line<Event>>)
    ensures |r| == |events| && forall i :: 0 <= i < |r| ==> r[i] == Entry(last + 1 + i, events[i])
  {
    seq(|events|, i requires 0 <= i < |events| => Entry(last + 1 + i, events[i]))
  }

  // What is still to be read: the rest of the file, then the buffer.
  function ToRead(w: Log<Event>): seq<Line<Event>> {
    if w.readPos <= |w.lines| then w.lines[w.readPos..] + w.buffer else []
  }

  // A log the reader never stops short in.
  ghost predicate Clean(w: Log<Event>) {
    w.readPos <= |w.lines| && forall i :: 0 <= i < |ToRead(w)| ==> ToRead(w)[i].Entry?
  }

  // Ordinary entries weigh two, failure events one: a failing entry leaves less than it takes.
  function Weight(entries: seq<Line<Event>>): nat {
    if entries == [] then 0
    else (if entries[0].Entry? && IsFailure(entries[0].event) then 1 else 2) + Weight(entries[1..])
  }

  lemma {:induction false} WeightAppend(a: seq<Line<Event>>, b: seq<Line<Event>>)
    ensures Weight(a + b) == Weight(a) + Weight(b)
  {
    if a == [] {
      assert a + b == b;
    } else {
      assert (a + b)[1..] == a[1..] + b;
      WeightAppend(a[1..], b);
    }
  }

  lemma {:induction false} FailuresAppend(a: seq<Line<Event>>, b: seq<Line<Event>>, fails: Oracle)
    requires forall i :: 0 <= i < |a| ==> a[i].Entry?
    requires forall i :: 0 <= i < |b| ==> b[i].Entry?
    ensures Failures(a + b, fails) == Failures(a, fails) + Failures(b, fails)
  {
    if a == [] {
      assert a + b == b;
    } else {
      assert (a + b)[1..] == a[1..] + b;
      FailuresAppend(a[1..], b, fails);
    }
  }

  // Failing a failure event adds nothing.
  lemma {:induction false} FailuresDoNotCascade(last: nat, events: seq<Event>, fails: Oracle)
    requires forall i :: 0 <= i < |events| ==> IsFailure(events[i])
    ensures Failures(Entries(last, events), fails) == []
    decreases |events|
  {
    if events != [] {
      assert Entries(last, events)[1..] == Entries(last + 1, events[1..]);
      FailuresDoNotCascade(last + 1, events[1..], fails);
    }
  }

  lemma EntriesSnoc(last: nat, events: seq<Event>, e: Event)
    ensures Entries(last, events + [e]) == Entries(last, events) + [Entry(last + |events| + 1, e)]
  {
  }

  // Everything there is to handle: what was unread, then the failures that leads to.
  function Work(unread: seq<Line<Event>>, last: nat, fails: Oracle): (r: seq<Line<Event>>)
    requires forall i :: 0 <= i < |unread| ==> unread[i].Entry?
    ensures forall i :: 0 <= i < |r| ==> r[i].Entry?
  {
    unread + Entries(last, Failures(unread, fails))
  }

  // No entry of the work leads to more than its own failures.
  lemma WorkIsClosed(unread: seq<Line<Event>>, last: nat, fails: Oracle)
    requires forall i :: 0 <= i < |unread| ==> unread[i].Entry?
    ensures Failures(Work(unread, last, fails), fails) == Failures(unread, fails)
    ensures |Work(unread, last, fails)| <= 2 * |unread|
  {
    FailuresAppend(unread, Entries(last, Failures(unread, fails)), fails);
    FailuresDoNotCascade(last, Failures(unread, fails), fails);
  }

  // Taking the first entry of what is to be read.
  lemma TakeFirst(w: Log<Event>)
    requires Clean(w) && ToRead(w) != []
    ensures var f := Flushed(w, |w.buffer|); var x := ToRead(w)[0];
            && AtCursor(f) == Got(x.num, x.event) && Clean(Advanced(f)) && Advanced(f).buffer == []
            && ToRead(Advanced(f)) == ToRead(w)[1..] && Advanced(f).writeSeq == w.writeSeq
  {
    var f := Flushed(w, |w.buffer|);
    assert f.lines == w.lines + w.buffer;
    assert f.lines[w.readPos] == ToRead(w)[0];
    assert f.lines[w.readPos..] == ToRead(w);
  }

  lemma NothingLeft(w: Log<Event>)
    requires Clean(w) && ToRead(w) == []
    ensures var f := Flushed(w, |w.buffer|); AtCursor(f).Nothing? && Advanced(f) == f && ToRead(f) == [] && Clean(f)
  {
  }

  function Failure(e: Event): Event
    requires Cascades(e)
  {
    JobAdvanced(JobId(e).value, "failed")
  }

  // An entry that carries a job, and is neither its failure nor a resume, is answered.
  ghost predicate Answerable(e: Event) {
    (exists job :: Carries(e, job)) && !(e.JobAdvanced? && e.step == "failed") && !e.JobResume?
  }

  lemma AnswerableIff(e: Event)
    ensures Cascades(e) <==> Answerable(e)
    ensures forall job :: Carries(e, job) && Cascades(e) ==> Failure(e) == JobAdvanced(job, "failed")
  {
    forall job ensures JobId(e) == Some(job) <==> Carries(e, job) { JobIdIs(e, job); }
    hide Carries;
    if Cascades(e) { assert Carries(e, JobId(e).value); }
  }

  // Which entries are answered, and with what: each failing one that carries a job and is neither a failure
  // nor a resume leads to one failure of that job, in the order of the entries, and no other entry does.
  lemma {:induction false} FailuresAre(entries: seq<Line<Event>>, fails: Oracle) returns (from: seq<nat>)
    requires forall i :: 0 <= i < |entries| ==> entries[i].Entry?
    ensures forall k :: 0 <= k < |from| ==> from[k] < |entries|
    ensures forall k, l :: 0 <= k < l < |from| ==> from[k] < from[l]
    ensures forall i: nat :: i < |entries| ==>
              (i in from <==> Answerable(entries[i].event) && fails(entries[i].num, entries[i].event))
    ensures var failed := Failures(entries, fails);
            |failed| == |from| && forall k :: 0 <= k < |from| ==> AnsweredFor(entries[from[k]].event, failed[k])
  {
    from := [];
    if entries != [] {
      var init, last := entries[..|entries| - 1], entries[|entries| - 1];
      assert entries == init + [last];
      from := FailuresAre(init, fails);
      FailuresSnoc(init, last, fails);
      AnswerableIff(last.event);
      hide Failures, Cascades, Answerable, Failure;
      if Answerable(last.event) && fails(last.num, last.event) {
        CarriesOne(last.event);
        from := from + [|init|];
      }
    }
  }

  ghost predicate AnsweredFor(e: Event, failure: Event) {
    exists job :: Carries(e, job) && failure == JobAdvanced(job, "failed")
  }

  lemma CarriesOne(e: Event)
    requires Cascades(e)
    ensures AnsweredFor(e, Failure(e))
  {
    JobIdIs(e, JobId(e).value);
    hide Carries;
  }

  // The log after its next entry was read and marked, and, if it failed, answered.
  function Marked(w: Log<Event>): Log<Event>
    requires Clean(w) && ToRead(w) != []
  {
    Advanced(Flushed(w, |w.buffer|)).(processedSeq := ToRead(w)[0].num)
  }

  function Answered(w: Log<Event>, fails: Oracle): Log<Event>
    requires Clean(w) && ToRead(w) != []
  {
    var x := ToRead(w)[0];
    if Cascades(x.event) && fails(x.num, x.event) then Appended(Marked(w), Failure(x.event)) else Marked(w)
  }

  lemma MarkedRest(w: Log<Event>)
    requires Clean(w) && ToRead(w) != []
    ensures var n := Marked(w);
            && Clean(n) && ToRead(n) == ToRead(w)[1..] && n.writeSeq == w.writeSeq && n.processedSeq == ToRead(w)[0].num
  {
    TakeFirst(w);
    hide Flushed, Advanced;
  }

  lemma AppendedRest(w: Log<Event>, e: Event)
    requires Clean(w)
    ensures var n := Appended(w, e);
            && Clean(n) && ToRead(n) == ToRead(w) + [Entry(w.writeSeq + 1, e)] && n.writeSeq == w.writeSeq + 1
            && n.processedSeq == w.processedSeq
  {
    var n := Appended(w, e);
    assert ToRead(n) == ToRead(w) + [Entry(w.writeSeq + 1, e)];
    hide ToRead;
  }

  // `done` was handled, the rest is in the log.
  ghost predicate Progress(unread: seq<Line<Event>>, last: nat, done: seq<Line<Event>>, w: Log<Event>, fails: Oracle) {
    && Clean(w) && (forall i :: 0 <= i < |done| ==> done[i].Entry?)
    && done + ToRead(w) == unread + Entries(last, Failures(done, fails))
    && w.writeSeq == last + |Failures(done, fails)|
  }

  lemma AnsweredRest(w: Log<Event>, fails: Oracle)
    requires Clean(w) && ToRead(w) != []
    ensures var x, n := ToRead(w)[0], Answered(w, fails);
            && Clean(n) && n.processedSeq == x.num
            && (if Cascades(x.event) && fails(x.num, x.event)
                then ToRead(n) == ToRead(w)[1..] + [Entry(w.writeSeq + 1, Failure(x.event))]
                     && n.writeSeq == w.writeSeq + 1
                else ToRead(n) == ToRead(w)[1..] && n.writeSeq == w.writeSeq)
  {
    AnsweredIs(w, fails);
    MarkedRest(w);
    hide *;
    var x := ToRead(w)[0];
    if Cascades(x.event) && fails(x.num, x.event) { AppendedRest(Marked(w), Failure(x.event)); }
  }

  lemma AnsweredIs(w: Log<Event>, fails: Oracle)
    requires Clean(w) && ToRead(w) != []
    ensures var x := ToRead(w)[0];
            && x.Entry?
            && Answered(w, fails)
               == if Cascades(x.event) && fails(x.num, x.event) then Appended(Marked(w), Failure(x.event))
                  else Marked(w)
  {
    hide Marked, Appended, Cascades, Failure, ToRead;
  }

  // Where the answered entry led to a failure event.
  lemma AnswerFails(unread: seq<Line<Event>>, last: nat, done: seq<Line<Event>>, w: Log<Event>, n: Log<Event>,
                    fails: Oracle, failure: Event)
    requires Progress(unread, last, done, w, fails) && ToRead(w) != [] && Clean(n)
    requires var x := ToRead(w)[0]; Cascades(x.event) && fails(x.num, x.event) && failure == Failure(x.event)
    requires ToRead(n) == ToRead(w)[1..] + [Entry(w.writeSeq + 1, failure)] && n.writeSeq == w.writeSeq + 1
    ensures Progress(unread, last, done + [ToRead(w)[0]], n, fails)
    ensures Weight(ToRead(n)) < Weight(ToRead(w))
  {
    var x, added := ToRead(w)[0], Entry(w.writeSeq + 1, failure);
    WeightAppend(ToRead(w)[1..], [added]);
    WeightFirst(ToRead(w), added);
    hide Cascades, Failures, Weight;
    DoneGrows(unread, last, done, x, ToRead(w), failure, fails);
    hide Clean, ToRead, Entries;
  }

  // What is done and what is left still make up the entries and the failures they led to.
  lemma DoneGrows(unread: seq<Line<Event>>, last: nat, done: seq<Line<Event>>, x: Line<Event>, left: seq<Line<Event>>,
                  failure: Event, fails: Oracle)
    requires left != [] && left[0] == x && x.Entry? && forall i :: 0 <= i < |done| ==> done[i].Entry?
    requires Cascades(x.event) && fails(x.num, x.event) && failure == Failure(x.event)
    requires done + left == unread + Entries(last, Failures(done, fails))
    ensures var failed := Failures(done, fails);
            && Failures(done + [x], fails) == failed + [failure]
            && done + [x] + (left[1..] + [Entry(last + |failed| + 1, failure)])
               == unread + Entries(last, failed + [failure])
  {
    var failed := Failures(done, fails);
    FailuresSnoc(done, x, fails);
    EntriesSnoc(last, failed, failure);
    hide *;
    Shift(done, left, unread, Entries(last, failed), [Entry(last + |failed| + 1, failure)]);
  }

  lemma Shift<T>(done: seq<T>, left: seq<T>, unread: seq<T>, entries: seq<T>, more: seq<T>)
    requires left != [] && done + left == unread + entries
    ensures done + [left[0]] + (left[1..] + more) == unread + (entries + more)
  {
    assert left == [left[0]] + left[1..];
    assert done + [left[0]] + (left[1..] + more) == done + left + more;
  }

  lemma FailuresSnoc(done: seq<Line<Event>>, x: Line<Event>, fails: Oracle)
    requires x.Entry? && forall i :: 0 <= i < |done| ==> done[i].Entry?
    ensures Failures(done + [x], fails)
            == Failures(done, fails) + if Cascades(x.event) && fails(x.num, x.event) then [Failure(x.event)] else []
  {
    FailuresAppend(done, [x], fails);
    OneFailure(x, fails);
    hide Failures, Cascades;
  }

  lemma OneFailure(x: Line<Event>, fails: Oracle)
    requires x.Entry?
    ensures Failures([x], fails) == if Cascades(x.event) && fails(x.num, x.event) then [Failure(x.event)] else []
  {
    assert Failures([x][1..], fails) == [];
  }

  lemma WeightFirst(entries: seq<Line<Event>>, failure: Line<Event>)
    requires entries != [] && entries[0].Entry? && Cascades(entries[0].event) && failure.Entry?
    requires IsFailure(failure.event)
    ensures Weight(entries[1..]) + Weight([failure]) < Weight(entries)
  {
    assert Weight([failure][1..]) == 0;
  }

  lemma AnswerProgresses(unread: seq<Line<Event>>, last: nat, done: seq<Line<Event>>, w: Log<Event>, fails: Oracle)
    requires Progress(unread, last, done, w, fails) && ToRead(w) != []
    ensures Progress(unread, last, done + [ToRead(w)[0]], Answered(w, fails), fails)
    ensures Weight(ToRead(Answered(w, fails))) < Weight(ToRead(w))
  {
    var x, n := ToRead(w)[0], Answered(w, fails);
    AnsweredRest(w, fails);
    assert x.Entry? by { hide Answered, Failures, Entries; }
    hide *;
    if Cascades(x.event) && fails(x.num, x.event) {
      AnswerFails(unread, last, done, w, n, fails, Failure(x.event));
    } else {
      AnswerDone(unread, last, done, w, n, fails);
    }
  }

  lemma AnswerDone(unread: seq<Line<Event>>, last: nat, done: seq<Line<Event>>, w: Log<Event>, n: Log<Event>,
                   fails: Oracle)
    requires Progress(unread, last, done, w, fails) && ToRead(w) != [] && Clean(n) && ToRead(w)[0].Entry?
    requires var x := ToRead(w)[0]; !(Cascades(x.event) && fails(x.num, x.event))
    requires ToRead(n) == ToRead(w)[1..] && n.writeSeq == w.writeSeq
    ensures Progress(unread, last, done + [ToRead(w)[0]], n, fails)
    ensures Weight(ToRead(n)) < Weight(ToRead(w))
  {
    FailuresSnoc(done, ToRead(w)[0], fails);
    hide Failures, Clean, ToRead, Entries, Cascades;
    assert done + [ToRead(w)[0]] + ToRead(n) == done + ToRead(w);
  }

  lemma Finished(unread: seq<Line<Event>>, last: nat, done: seq<Line<Event>>, w: Log<Event>, fails: Oracle)
    requires Progress(unread, last, done, w, fails) && ToRead(w) == []
    requires forall i :: 0 <= i < |unread| ==> unread[i].Entry?
    ensures done == Work(unread, last, fails) && w.writeSeq == last + |Failures(unread, fails)|
    ensures Failures(done, fails) == Failures(unread, fails)
  {
    var failed := Failures(done, fails);
    assert done == unread + Entries(last, failed);
    FailuresAppend(unread, Entries(last, failed), fails);
    FailuresDoNotCascade(last, failed, fails);
  }

  // One pass of the loop's entry branch.
  method Answer(wal: Wal<Event>, fails: Oracle, num: nat, event: Event)
    modifies wal
    ensures var marked := old(wal.Value()).(processedSeq := num);
            wal.Value() == if Cascades(event) && fails(num, event) then Appended(marked, Failure(event)) else marked
    ensures var marked := old(wal.Value()).(processedSeq := num);
            && (Answerable(event) && fails(num, event) ==>
                  exists job :: Carries(event, job) && wal.Value() == Appended(marked, JobAdvanced(job, "failed")))
            && (!Answerable(event) || !fails(num, event) ==> wal.Value() == marked)
  {
    AnswerableIff(event);
    if JobId(event).Some? { JobIdIs(event, JobId(event).value); }
    if event.Shutdown? {
      wal.MarkProcessed(num);
    } else {
      var job := JobId(event);
      var isFailure, isResume := IsFailure(event), event.JobResume?;
      if !fails(num, event) {
        wal.MarkProcessed(num);
      } else {
        wal.MarkProcessed(num);
        if job.Some? && !isFailure && !isResume {
          var sent := wal.Append(JobAdvanced(job.value, "failed"));
        }
      }
    }
  }

  // One turn of the loop: read an entry and answer it.
  method Turn(wal: Wal<Event>, fails: Oracle) returns (r: Read<Event>)
    requires Clean(wal.Value())
    modifies wal
    ensures var w := old(wal.Value());
            if ToRead(w) == [] then r.Nothing? && wal.Value() == Flushed(w, |w.buffer|)
            else r == Got(ToRead(w)[0].num, ToRead(w)[0].event) && wal.Value() == Answered(w, fails)
  {
    ghost var w := wal.Value();
    if ToRead(w) == [] { NothingLeft(w); } else { TakeFirst(w); }
    hide ToRead, JobId, Cascades;
    r := wal.NextUnprocessed(|wal.buffer|);
    if r.Got? { Answer(wal, fails, r.num, r.event); }
  }

  // Handles entries until the log is drained. `marked` lists the entries in the order they were
  // marked processed.
  method Drain(wal: Wal<Event>, fails: Oracle) returns (marked: seq<nat>)
    requires Clean(wal.Value())
    modifies wal
    ensures ToRead(wal.Value()) == []
    ensures var unread := ToRead(old(wal.Value()));
            && marked == Numbers(Work(unread, old(wal.writeSeq), fails))
            && wal.writeSeq == old(wal.writeSeq) + |Failures(unread, fails)|
            && All(wal.Value()) == old(All(wal.Value())) + Entries(old(wal.writeSeq), Failures(unread, fails))
    ensures wal.processedSeq == if marked == [] then old(wal.processedSeq) else marked[|marked| - 1]
  {
    ghost var unread, last, all := ToRead(wal.Value()), wal.writeSeq, All(wal.Value());
    ghost var done: seq<Line<Event>>, x := [], Blank;
    marked := [];
    Begins(wal.Value(), fails);
    ghost var w := wal.Value();
    hide Progress, Weight, Failures, Answered, ToRead, Clean, Entries, Flushed, Work, Numbers, JobId, Cascades,
         IsFailure, Failure, AtCursor, Advanced, Appended, All;
    NoNumbers();
    assert All(w) == all + Entries(last, Failures(done, fails)) by { NothingYet(last, all, fails); }
    while true
      invariant w == wal.Value() && Progress(unread, last, done, w, fails)
      invariant All(w) == all + Entries(last, Failures(done, fails))
      invariant forall i :: 0 <= i < |done| ==> done[i].Entry?
      invariant marked == Numbers(done)
      invariant w.processedSeq == if marked == [] then old(wal.processedSeq) else marked[|marked| - 1]
      decreases Weight(ToRead(w))
    {
      LoopStep(unread, last, done, w, fails);
      AllStep(unread, last, done, w, fails, all);
      if ToRead(w) != [] { x := ToRead(w)[0]; }
      var r := Turn(wal, fails);
      ghost var before := w;
      w := wal.Value();
      if !r.Got? {
        assert ToRead(w) == [];
        break;
      }
      assert w == Answered(before, fails) && r.num == x.num;
      done, marked := done + [x], marked + [r.num];
    }
    Finished(unread, last, done, w, fails);
  }

  // What is in the file and in the buffer.
  function All(w: Log<Event>): seq<Line<Event>> { w.lines + w.buffer }

  lemma NothingYet(last: nat, all: seq<Line<Event>>, fails: Oracle)
    ensures all + Entries(last, Failures([], fails)) == all
  {
  }

  lemma AllAnswered(w: Log<Event>, fails: Oracle)
    requires Clean(w) && ToRead(w) != []
    ensures var x := ToRead(w)[0];
            All(Answered(w, fails))
            == All(w) + if Cascades(x.event) && fails(x.num, x.event)
                        then [Entry(w.writeSeq + 1, Failure(x.event))] else []
  {
    AllMarked(w);
    AnsweredIs(w, fails);
    hide *;
    var x := ToRead(w)[0];
    if Cascades(x.event) && fails(x.num, x.event) {
      AllAppended(Marked(w), Failure(x.event));
    } else {
      assert All(w) + [] == All(w);
    }
  }

  lemma AllMarked(w: Log<Event>)
    requires Clean(w) && ToRead(w) != []
    ensures All(Marked(w)) == All(w) && Marked(w).writeSeq == w.writeSeq && ToRead(w)[0].Entry?
  {
    var f := Flushed(w, |w.buffer|);
    assert f.lines == w.lines + w.buffer && f.buffer == [];
    assert f.lines + [] == f.lines;
    hide ToRead, Clean, Flushed;
  }

  lemma AllAppended(w: Log<Event>, e: Event)
    ensures All(Appended(w, e)) == All(w) + [Entry(w.writeSeq + 1, e)]
  {
  }

  // A turn of the loop keeps what is there and adds the failure it leads to.
  lemma AllStep(unread: seq<Line<Event>>, last: nat, done: seq<Line<Event>>, w: Log<Event>, fails: Oracle,
                all: seq<Line<Event>>)
    requires Progress(unread, last, done, w, fails) && All(w) == all + Entries(last, Failures(done, fails))
    ensures ToRead(w) == [] ==> All(Flushed(w, |w.buffer|)) == all + Entries(last, Failures(done, fails))
    ensures ToRead(w) != [] ==>
              ToRead(w)[0].Entry?
              && All(Answered(w, fails)) == all + Entries(last, Failures(done + [ToRead(w)[0]], fails))
  {
    if ToRead(w) == [] {
      assert Flushed(w, |w.buffer|).lines == w.lines + w.buffer && Flushed(w, |w.buffer|).buffer == [];
    } else {
      var x, failed := ToRead(w)[0], Failures(done, fails);
      assert x.Entry? && w.writeSeq == last + |failed|;
      AllAnswered(w, fails);
      FailuresSnoc(done, x, fails);
      hide *;
      if Cascades(x.event) && fails(x.num, x.event) {
        EntriesSnoc(last, failed, Failure(x.event));
        Append3(all, Entries(last, failed), [Entry(w.writeSeq + 1, Failure(x.event))]);
      } else {
        assert failed + [] == failed && All(w) + [] == All(w);
      }
    }
  }

  lemma Append3<T>(a: seq<T>, b: seq<T>, c: seq<T>)
    ensures a + b + c == a + (b + c)
  {
  }

  lemma NoNumbers()
    ensures Numbers([]) == []
  {
  }

  lemma Begins(w: Log<Event>, fails: Oracle)
    requires Clean(w)
    ensures Progress(ToRead(w), w.writeSeq, [], w, fails)
  {
    assert Entries(w.writeSeq, []) == [];
  }

  // One turn of the loop, whether it finds an entry or not.
  lemma LoopStep(unread: seq<Line<Event>>, last: nat, done: seq<Line<Event>>, w: Log<Event>, fails: Oracle)
    requires Progress(unread, last, done, w, fails) && forall i :: 0 <= i < |done| ==> done[i].Entry?
    ensures Clean(w)
    ensures ToRead(w) == [] ==>
              var f := Flushed(w, |w.buffer|);
              Progress(unread, last, done, f, fails) && ToRead(f) == [] && f.processedSeq == w.processedSeq
    ensures ToRead(w) != [] ==>
              var x, n := ToRead(w)[0], Answered(w, fails);
              && x.Entry? && Progress(unread, last, done + [x], n, fails) && Weight(ToRead(n)) < Weight(ToRead(w))
              && n.processedSeq == x.num && Numbers(done + [x]) == Numbers(done) + [x.num]
  {
    if ToRead(w) == [] {
      NothingLeft(w);
      hide Failures, Entries, Clean, ToRead;
    } else {
      AnswerProgresses(unread, last, done, w, fails);
      AnsweredRest(w, fails);
      NumbersSnoc(done, ToRead(w)[0]);
      hide Progress, Failures, Entries, ToRead, Answered, Weight, Numbers;
    }
  }

  lemma NumbersSnoc(entries: seq<Line<Event>>, x: Line<Event>)
    requires x.Entry? && forall i :: 0 <= i < |entries| ==> entries[i].Entry?
    ensures Numbers(entries + [x]) == Numbers(entries) + [x.num]
  {
  }
}
