/** Retries over a whole run of increments and resets (crates/core/src/action_tracker.rs,
    crates/core/src/job.rs:413-433). */
module Retries {
  import opened Actions
  import opened Jobs

  // The two fields a run changes.
  datatype Counts = Counts(attempts: map<string, nat>, totalRetries: nat)

  function Do(c: Counts, op: Op): Counts {
    match op
    case Reset => c.(attempts := map[])
    case Increment(trigger, position) =>
      Counts(Incremented(c.attempts, trigger, position),
             c.totalRetries + if Attempts(c.attempts, trigger, position) + 1 > 1 then 1 else 0)
  }

  function Run(ops: seq<Op>): Counts {
    if ops == [] then Counts(map[], 0) else Do(Run(ops[..|ops| - 1]), ops[|ops| - 1])
  }

  // The class does what `Do` says.
  method Perform(job: JobRecord, op: Op)
    modifies job`totalRetries, job.tracker`attempts
    ensures Counts(job.tracker.attempts, job.totalRetries)
         == Do(old(Counts(job.tracker.attempts, job.totalRetries)), op)
  {
    match op
    case Reset => job.ResetActionAttempts();
    case Increment(trigger, position) => var count := job.IncrementActionAttempt(trigger, position);
  }

  // ------------------------------------------------------------- counting by pairs

  // Increments of the pair since the last reset.
  function Since(ops: seq<Op>, trigger: string, position: nat): nat {
    if ops == [] then 0
    else
      var before := Since(ops[..|ops| - 1], trigger, position);
      match ops[|ops| - 1]
      case Reset => 0
      case Increment(t, p) => if t == trigger && p == position then before + 1 else before
  }

  // The table keyed by strings counts as one keyed by pairs would.
  lemma {:induction false} CountsByPair(ops: seq<Op>, trigger: string, position: nat)
    ensures Attempts(Run(ops).attempts, trigger, position) == Since(ops, trigger, position)
  {
    if ops != [] {
      var before, op := ops[..|ops| - 1], ops[|ops| - 1];
      CountsByPair(before, trigger, position);
      if op.Increment? {
        KeyInjective(trigger, position, op.trigger, op.position);
        hide Key;
        assert Run(ops) == Do(Run(before), op);
      }
    }
  }

  // ------------------------------------------------------------- conservation

  function Increments(ops: seq<Op>): nat {
    if ops == [] then 0 else Increments(ops[..|ops| - 1]) + if ops[|ops| - 1].Increment? then 1 else 0
  }

  // How many resets there were.
  function Epoch(ops: seq<Op>): nat {
    if ops == [] then 0 else Epoch(ops[..|ops| - 1]) + if ops[|ops| - 1].Reset? then 1 else 0
  }

  // The pairs attempted, each with the epoch it was attempted in.
  function Attempted(ops: seq<Op>): set<(nat, string, nat)> {
    if ops == [] then {}
    else
      var before := ops[..|ops| - 1];
      match ops[|ops| - 1]
      case Reset => Attempted(before)
      case Increment(trigger, position) => Attempted(before) + {(Epoch(before), trigger, position)}
  }

  lemma {:induction false} AttemptedIff(ops: seq<Op>, trigger: string, position: nat)
    ensures (Epoch(ops), trigger, position) in Attempted(ops) <==> Since(ops, trigger, position) > 0
    ensures forall x :: x in Attempted(ops) ==> x.0 <= Epoch(ops)
  {
    if ops != [] { AttemptedIff(ops[..|ops| - 1], trigger, position); }
  }

  // Total retries are the increments less the first attempts: one for every pair and epoch.
  lemma {:induction false} RetriesConserved(ops: seq<Op>)
    ensures Run(ops).totalRetries + |Attempted(ops)| == Increments(ops)
  {
    if ops != [] {
      var before, op := ops[..|ops| - 1], ops[|ops| - 1];
      RetriesConserved(before);
      if op.Increment? {
        AttemptedIff(before, op.trigger, op.position);
        CountsByPair(before, op.trigger, op.position);
        hide Since, Attempts, Incremented;
        assert Run(ops) == Do(Run(before), op);
        var x := (Epoch(before), op.trigger, op.position);
        assert Attempted(ops) == Attempted(before) + {x};
        if x in Attempted(before) { assert Attempted(before) + {x} == Attempted(before); }
      }
    }
  }
}
