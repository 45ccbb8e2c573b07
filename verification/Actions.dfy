/** Retry bookkeeping (crates/core/src/action_tracker.rs). */
module Actions {
  import opened Wrappers
  import opened Text

  datatype SignalKind = Complete | Escalate | Continue

  datatype Signal = Signal(kind: SignalKind, message: Option<string>)

  // The tracker as a value: attempt counts under "trigger:position" keys, and the agent's signal.
  datatype Tracker = Tracker(attempts: map<string, nat>, signal: Option<Signal>)

  function Key(trigger: string, position: nat): string { trigger + (":" + Decimal(position)) }

  function Attempts(attempts: map<string, nat>, trigger: string, position: nat): nat {
    if Key(trigger, position) in attempts then attempts[Key(trigger, position)] else 0
  }

  function Incremented(attempts: map<string, nat>, trigger: string, position: nat): map<string, nat> {
    attempts[Key(trigger, position) := Attempts(attempts, trigger, position) + 1]
  }

  datatype Op = Increment(trigger: string, position: nat) | Reset

  // What the runtime writes into jobs and agent runs without an event: an attempt is counted, or all
  // attempts are forgotten (crates/engine/src/runtime/monitor.rs, crates/engine/src/runtime/agent_run.rs).
  datatype Adjustment = OfJob(job: string, op: Op) | OfRun(run: string, op: Op)

  class ActionTracker {
    var attempts: map<string, nat>
    var signal: Option<Signal>

    function Value(): Tracker
      reads this
    {
      Tracker(attempts, signal)
    }

    constructor ()
      ensures Value() == Tracker(map[], None)
    {
      attempts, signal := map[], None;
    }

    method IncrementActionAttempt(trigger: string, position: nat) returns (count: nat)
      modifies this`attempts
      ensures attempts == Incremented(old(attempts), trigger, position)
      ensures count == Attempts(attempts, trigger, position) == Attempts(old(attempts), trigger, position) + 1
    {
      var key := Key(trigger, position);
      if key !in attempts { attempts := attempts[key := 0]; }
      count := attempts[key] + 1;
      attempts := attempts[key := count];
      assert attempts == Incremented(old(attempts), trigger, position);
    }

    function GetActionAttempt(trigger: string, position: nat): nat
      reads this
    {
      Attempts(attempts, trigger, position)
    }

    method ResetActionAttempts()
      modifies this`attempts
      ensures attempts == map[]
    {
      attempts := map[];
    }

    method ClearAgentSignal()
      modifies this`signal
      ensures signal == None
    {
      signal := None;
    }
  }

  // ------------------------------------------------------------- keys

  // A key can be taken apart again at its last colon, whatever the trigger contains.
  lemma KeyInjective(trigger: string, position: nat, other: string, at: nat)
    ensures Key(trigger, position) == Key(other, at) <==> trigger == other && position == at
  {
    if Key(trigger, position) == Key(other, at) {
      CutLast(trigger, Decimal(position), other, Decimal(at), ':');
      DecimalInjective(position, at);
    }
  }
}
