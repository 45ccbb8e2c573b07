/** Which timers go when a job is deleted (crates/engine/src/runtime/handlers/lifecycle.rs:276-285):
    the timer table and the timer ids together. */
module TimerCleanup {
  import opened Text
  import opened State
  import opened Scheduler
  import opened TimerIds

  // The cancellations of the handler, in its order.
  function Cleanup(job: string): seq<Op> {
    [Cancel("liveness:" + job), Cancel("exit-deferred:" + job), Cancel("idle-grace:" + job),
     CancelPrefix("cooldown:" + job)]
  }

  function CleanedUp(timers: Timers, job: string): Timers {
    var ops := Cleanup(job);
    Step(Step(Step(Step(timers, ops[0]), ops[1]), ops[2]), ops[3])
  }

  method CancelJobTimers(scheduler: Scheduler, job: string)
    modifies scheduler
    ensures scheduler.timers == CleanedUp(old(scheduler.timers), job)
  {
    scheduler.CancelTimer("liveness:" + job);
    scheduler.CancelTimer("exit-deferred:" + job);
    scheduler.CancelTimer("idle-grace:" + job);
    scheduler.CancelTimersWithPrefix("cooldown:" + job);
  }

  // The timers of the job itself -- and, for want of a closing colon, the cooldowns of every job whose
  // id begins with its id, and of every agent run if its id begins the marker of those.
  predicate Swept(t: Timer, job: string) {
    if t.Cooldown? then job <= (if t.owner.JobOwner? then t.owner.id else "ar")
    else Owned(t) && t.owner == JobOwner(job)
  }

  // Whatever is in the table: a timer goes exactly if it is swept, and the others keep their deadlines.
  lemma CleanupSweepsIff(timers: Timers, job: string, t: Timer)
    requires ':' !in job
    ensures Id(t) in CleanedUp(timers, job) <==> Id(t) in timers && !Swept(t, job)
    ensures Id(t) in CleanedUp(timers, job) ==> CleanedUp(timers, job)[Id(t)] == timers[Id(t)]
    // Among ids of one length, such as UUIDs, only the job's own go.
    ensures Owned(t) && |t.owner.id| == |job| > 2 ==> (Swept(t, job) <==> t.owner == JobOwner(job))
  {
    WholeId(t, "liveness", job);
    WholeId(t, "exit-deferred", job);
    WholeId(t, "idle-grace", job);
    CooldownPrefixIff(t, job);
    Colons();
    KindByPrefix(t);
    OwnerTextIs(t, job);
    hide Id, Payload, Prefix, OwnerText;
    assert Id(t) in CleanedUp(timers, job) <==>
           Id(t) in timers && forall i :: 0 <= i < 4 ==> !Removes(Cleanup(job)[i], Id(t)) by {
      FourRemovals(timers, job, Id(t));
    }
    Removals(job, Id(t));
  }

  lemma Colons()
    ensures "liveness" + ":" == "liveness:" && "exit-deferred" + ":" == "exit-deferred:"
    ensures "idle-grace" + ":" == "idle-grace:" && "cooldown" + ":" == "cooldown:"
  {
  }

  lemma FourRemovals(timers: Timers, job: string, id: string)
    ensures id in CleanedUp(timers, job) <==> id in timers && forall i :: 0 <= i < 4 ==> !Removes(Cleanup(job)[i], id)
    ensures id in CleanedUp(timers, job) ==> CleanedUp(timers, job)[id] == timers[id]
  {
    var ops := Cleanup(job);
    hide Removes;
  }

  lemma Removals(job: string, id: string)
    ensures (forall i :: 0 <= i < 4 ==> !Removes(Cleanup(job)[i], id)) <==>
              id != "liveness:" + job && id != "exit-deferred:" + job && id != "idle-grace:" + job
              && !("cooldown:" + job <= id)
  {
    var ops := Cleanup(job);
    assert Removes(ops[0], id) == (id == "liveness:" + job) && Removes(ops[1], id) == (id == "exit-deferred:" + job);
    assert Removes(ops[2], id) == (id == "idle-grace:" + job) && Removes(ops[3], id) == ("cooldown:" + job <= id);
  }

  lemma WholeId(t: Timer, kind: string, rest: string)
    requires ':' !in kind
    ensures Id(t) == (kind + ":") + rest <==> kind == Prefix(t) && rest == Payload(t)
  {
    StripPrefix(t, kind);
    assert (kind + ":" + rest)[|kind| + 1..] == rest;
    hide Payload, Prefix;
  }

  lemma OwnerTextIs(t: Timer, job: string)
    requires ':' !in job
    ensures Owned(t) && !t.Cooldown? ==> (job == Payload(t) <==> t.owner == JobOwner(job))
  {
    if Owned(t) && !t.Cooldown? && t.owner.RunOwner? { assert Payload(t)[2] == ':'; }
  }

  // The prefix without the closing colon.
  lemma CooldownPrefixIff(t: Timer, job: string)
    requires ':' !in job
    ensures ("cooldown" + ":") + job <= Id(t) <==> t.Cooldown? && Swept(t, job)
  {
    StripPrefix(t, "cooldown");
    StripMore(Id(t), "cooldown" + ":", job);
    KindByPrefix(t);
    if t.Cooldown? { PayloadPrefixIff(t, job); }
    hide Id, Payload, Prefix;
  }

  lemma PayloadPrefixIff(t: Timer, job: string)
    requires t.Cooldown? && ':' !in job
    ensures job <= Payload(t) <==> Swept(t, job)
  {
    var owner := if t.owner.JobOwner? then t.owner.id else "ar";
    var rest := if t.owner.JobOwner? then t.trigger + (":" + Decimal(t.position))
                else t.owner.id + (":" + (t.trigger + (":" + Decimal(t.position))));
    assert Payload(t) == owner + (":" + rest);
    PrefixBeforeColon(job, owner, rest);
  }

  lemma PrefixBeforeColon(p: string, a: string, rest: string)
    requires ':' !in p
    ensures p <= a + (":" + rest) <==> p <= a
  {
    assert (a + (":" + rest))[|a|] == ':';
    assert p <= a + (":" + rest) ==> |p| <= |a|;
  }

  // With the colon it would be the cooldowns of that job alone, and those of agent runs only for a job
  // called like their marker.
  lemma ColonWouldSuffice(t: Timer, job: string)
    requires ':' !in job && (t.Cooldown? ==> ':' !in t.owner.id)
    ensures ("cooldown" + ":") + (job + ":") <= Id(t) <==>
              t.Cooldown? && (if t.owner.JobOwner? then t.owner.id == job else job == "ar")
  {
    StripPrefix(t, "cooldown");
    StripMore(Id(t), "cooldown" + ":", job + ":");
    KindByPrefix(t);
    if t.Cooldown? { PayloadColonIff(t, job); }
    hide Id, Payload, Prefix;
  }

  lemma PayloadColonIff(t: Timer, job: string)
    requires t.Cooldown? && ':' !in job && ':' !in t.owner.id
    ensures job + ":" <= Payload(t) <==> if t.owner.JobOwner? then t.owner.id == job else job == "ar"
  {
    var owner := if t.owner.JobOwner? then t.owner.id else "ar";
    var rest := if t.owner.JobOwner? then t.trigger + (":" + Decimal(t.position))
                else t.owner.id + (":" + (t.trigger + (":" + Decimal(t.position))));
    assert Payload(t) == owner + (":" + rest);
    PrefixWithColon(job, owner, rest);
  }

  lemma PrefixWithColon(p: string, a: string, rest: string)
    requires ':' !in p && ':' !in a
    ensures p + ":" <= a + (":" + rest) <==> p == a
  {
    var s := a + (":" + rest);
    if p + ":" <= s {
      var tail := s[|p| + 1..];
      assert s == p + ([':'] + tail);
      CutFirst(p, tail, a, rest, ':');
    }
    if p == a { assert s == (p + ":") + rest; }
  }

  // So deleting `j1` takes the cooldown of `j10` along.
  lemma OthersCooldownGoes(timers: Timers, trigger: string, position: nat)
    ensures var t := Cooldown(JobOwner("j10"), trigger, position); Id(t) !in CleanedUp(timers, "j1")
  {
    assert "j1" <= "j10";
    CleanupSweepsIff(timers, "j1", Cooldown(JobOwner("j10"), trigger, position));
  }
}
