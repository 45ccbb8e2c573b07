/** The timer table (crates/engine/src/scheduler.rs) as a refinement of the log of its operations.
    Instants are numbers. */
module Scheduler {
  import opened Wrappers

  datatype Op =
    | Set(id: string, duration: nat, now: nat)
    | Cancel(id: string)
    | CancelPrefix(prefix: string)
    | Fire(now: nat)

  type Timers = map<string, nat>

  predicate Removes(op: Op, id: string) {
    (op.Cancel? && op.id == id) || (op.CancelPrefix? && op.prefix <= id)
  }

  function Due(timers: Timers, now: nat): set<string> {
    set id | id in timers && timers[id] <= now
  }

  function Step(timers: Timers, op: Op): Timers {
    match op
    case Set(id, duration, now) => timers[id := now + duration]
    case Fire(now) => timers - Due(timers, now)
    case _ => map id | id in timers && !Removes(op, id) :: timers[id]
  }

  // The table after the first `n` operations.
  function Table(ops: seq<Op>, n: nat): Timers
    requires n <= |ops|
  {
    if n == 0 then map[] else Step(Table(ops, n - 1), ops[n - 1])
  }

  // ------------------------------------------------------------- the class

  class Scheduler {
    var timers: Timers

    constructor ()
      ensures timers == Table([], 0)
    {
      timers := map[];
    }

    method SetTimer(id: string, duration: nat, now: nat)
      modifies this
      ensures timers == Step(old(timers), Set(id, duration, now))
    {
      timers := timers[id := now + duration];
    }

    method CancelTimer(id: string)
      modifies this
      ensures timers == Step(old(timers), Cancel(id))
    {
      timers := timers - {id};
      assert timers == Step(old(timers), Cancel(id));
    }

    method CancelTimersWithPrefix(prefix: string)
      modifies this
      ensures timers == Step(old(timers), CancelPrefix(prefix))
    {
      var keys := timers.Keys;
      while keys != {}
        invariant keys <= old(timers).Keys
        invariant timers == map id | id in old(timers) && (id in keys || !(prefix <= id)) :: old(timers)[id]
        decreases |keys|
      {
        var id :| id in keys;
        if prefix <= id { timers := timers - {id}; }
        keys := keys - {id};
      }
    }

    // The order of the events is that of the hash map: any.
    method FiredTimers(now: nat) returns (events: seq<string>)
      modifies this
      ensures timers == Step(old(timers), Fire(now))
      ensures forall id :: id in events <==> id in Due(old(timers), now)
      ensures forall i, j :: 0 <= i < j < |events| ==> events[i] != events[j]
    {
      events := [];
      var keys := timers.Keys;
      while keys != {}
        invariant keys <= timers.Keys && timers == old(timers)
        invariant forall id :: id in events <==> id in timers && timers[id] <= now && id !in keys
        invariant forall i, j :: 0 <= i < j < |events| ==> events[i] != events[j]
        decreases |keys|
      {
        var id :| id in keys;
        if timers[id] <= now { events := events + [id]; }
        keys := keys - {id};
      }
      Remove(events);
      assert timers == old(timers) - Due(old(timers), now);
    }

    method Remove(ids: seq<string>)
      modifies this
      ensures timers == map id | id in old(timers) && id !in ids :: old(timers)[id]
    {
      for i := 0 to |ids|
        invariant timers == map id | id in old(timers) && id !in ids[..i] :: old(timers)[id]
      {
        assert ids[..i + 1] == ids[..i] + [ids[i]];
        timers := timers - {ids[i]};
      }
      assert ids[..|ids|] == ids;
    }

    method NextDeadline() returns (d: Option<nat>)
      ensures d.None? <==> timers == map[]
      ensures d.Some? ==> (exists id :: id in timers && timers[id] == d.value)
                          && forall id :: id in timers ==> d.value <= timers[id]
    {
      d := None;
      var keys := timers.Keys;
      while keys != {}
        invariant keys <= timers.Keys
        invariant d.None? <==> keys == timers.Keys
        invariant d.Some? ==> exists id :: id in timers && timers[id] == d.value
        invariant d.Some? ==> forall id :: id in timers && id !in keys ==> d.value <= timers[id]
        decreases |keys|
      {
        var id :| id in keys;
        if d.None? || timers[id] < d.value { d := Some(timers[id]); }
        keys := keys - {id};
      }
    }

    method HasTimers() returns (has: bool)
      ensures has <==> exists id :: id in timers
    {
      has := timers != map[];
      if has { assert timers.Keys != {}; var id :| id in timers.Keys; }
    }
  }

  // ------------------------------------------------------------- what the log says

  function Deadline(op: Op): nat
    requires op.Set?
  {
    op.now + op.duration
  }

  // What ends a set of `id` with that deadline.
  predicate Ends(op: Op, id: string, deadline: nat) {
    (op.Set? && op.id == id) || Removes(op, id) || (op.Fire? && deadline <= op.now)
  }

  // Of the first `n` operations, `i` sets `id`, and nothing later has set, cancelled or fired it.
  ghost predicate Live(ops: seq<Op>, n: nat, i: int, id: string) {
    && 0 <= i < n <= |ops| && ops[i].Set? && ops[i].id == id
    && forall j :: i < j < n ==> !Ends(ops[j], id, Deadline(ops[i]))
  }

  // A timer is in the table exactly if its latest operation is a live set, and with its deadline.
  lemma {:induction false} TableIsLive(ops: seq<Op>, n: nat, id: string)
    requires n <= |ops|
    ensures id in Table(ops, n) <==> exists i :: Live(ops, n, i, id)
    ensures forall i :: Live(ops, n, i, id) ==> id in Table(ops, n) && Table(ops, n)[id] == Deadline(ops[i])
  {
    if n > 0 {
      TableIsLive(ops, n - 1, id);
      hide Table;
      var before, op := Table(ops, n - 1), ops[n - 1];
      assert Table(ops, n) == Step(before, op) by { TableStep(ops, n); }
      if op.Set? && op.id == id {
        assert Live(ops, n, n - 1, id);
        assert forall i :: Live(ops, n, i, id) ==> i == n - 1 by {
          forall i | Live(ops, n, i, id) ensures i == n - 1 { assert Ends(ops[n - 1], id, Deadline(ops[i])); }
        }
      } else {
        forall i ensures Live(ops, n, i, id) <==> Live(ops, n - 1, i, id) && !Ends(op, id, Deadline(ops[i])) {
          LiveStep(ops, n, i, id);
        }
        if id in Step(before, op) {
          var i :| Live(ops, n - 1, i, id);
          assert !Ends(op, id, Deadline(ops[i]));
        }
      }
    }
  }

  lemma TableStep(ops: seq<Op>, n: nat)
    requires 0 < n <= |ops|
    ensures Table(ops, n) == Step(Table(ops, n - 1), ops[n - 1])
  {
  }

  lemma LiveStep(ops: seq<Op>, n: nat, i: int, id: string)
    requires 0 < n <= |ops| && !(ops[n - 1].Set? && ops[n - 1].id == id)
    ensures Live(ops, n, i, id) <==> Live(ops, n - 1, i, id) && !Ends(ops[n - 1], id, Deadline(ops[i]))
  {
  }

  // Firing after `n` operations reports an id exactly if a live set of it is due.
  lemma FiresIff(ops: seq<Op>, n: nat, now: nat, id: string)
    requires n <= |ops|
    ensures id in Due(Table(ops, n), now) <==> exists i :: Live(ops, n, i, id) && Deadline(ops[i]) <= now
  {
    hide Table;
    TableIsLive(ops, n, id);
    if id in Due(Table(ops, n), now) {
      var i :| Live(ops, n, i, id);
      assert Deadline(ops[i]) <= now;
    }
  }

  // The set at `i` fires at the operation `k`: its id is reported, and the set is the live one.
  ghost predicate FiresAt(ops: seq<Op>, i: int, k: nat, id: string) {
    k < |ops| && ops[k].Fire? && Live(ops, k, i, id) && id in Due(Table(ops, k), ops[k].now)
  }

  // No set fires twice, nor before its deadline.
  lemma FiresOnce(ops: seq<Op>, i: int, k: nat, l: nat, id: string)
    requires FiresAt(ops, i, k, id) && FiresAt(ops, i, l, id)
    ensures k == l && Deadline(ops[i]) <= ops[k].now
  {
    TableIsLive(ops, k, id);
    TableIsLive(ops, l, id);
    hide Table;
    assert Ends(ops[k], id, Deadline(ops[i])) && Ends(ops[l], id, Deadline(ops[i]));
  }

  // A set that is never overridden or cancelled fires at the first firing that reaches its deadline.
  lemma FiresAtFirst(ops: seq<Op>, i: nat, k: nat, id: string)
    requires i < k < |ops| && ops[i].Set? && ops[i].id == id && ops[k].Fire? && Deadline(ops[i]) <= ops[k].now
    requires forall j :: i < j < k ==> !Ends(ops[j], id, Deadline(ops[i]))
    ensures FiresAt(ops, i, k, id) && id !in Table(ops, k + 1)
  {
    hide Table;
    assert Live(ops, k, i, id);
    TableIsLive(ops, k, id);
    TableStep(ops, k + 1);
  }

  // Something fires exactly if the earliest deadline has come.
  lemma FiresIffDeadline(timers: Timers, now: nat, d: Option<nat>)
    requires d.None? <==> timers == map[]
    requires d.Some? ==> (exists id :: id in timers && timers[id] == d.value)
                         && forall id :: id in timers ==> d.value <= timers[id]
    ensures Due(timers, now) != {} <==> d.Some? && d.value <= now
  {
    if d.Some? {
      var id :| id in timers && timers[id] == d.value;
      if d.value <= now { assert id in Due(timers, now); }
    }
  }
}
