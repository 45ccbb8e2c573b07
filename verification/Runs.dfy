/** Runs of the protocol put together from pieces: senders, a handler's emissions, turns of the loop. */
module Runs {
  import opened Actions
  import opened Wal
  import opened LogLaws
  import opened Protocol
  import opened ProtocolInvariant
  import opened ProtocolTheorems
  import opened Recovery

  // ------------------------------------------------- runs, one after the other

  lemma {:induction false} LegalAppend<St, E>(m: Model<St, E>, w: World<St, E>, a: seq<Action<E>>, b: seq<Action<E>>)
    requires Legal(m, w, a)
    ensures Legal(m, w, a + b) <==> Legal(m, After(m, w, a), b)
    ensures Legal(m, w, a + b) ==> After(m, w, a + b) == After(m, After(m, w, a), b)
    decreases |a|
  {
    hide Next, Enabled;
    if a == [] {
      assert a + b == b;
    } else {
      LegalAppend(m, Next(m, w, a[0]), a[1..], b);
      assert (a + b)[0] == a[0] && (a + b)[1..] == a[1..] + b;
    }
  }

  lemma ThreeSteps<St, E>(m: Model<St, E>, w: World<St, E>, a: Action<E>, b: Action<E>, c: Action<E>)
    requires Enabled(w, a) && Enabled(Next(m, w, a), b) && Enabled(Next(m, Next(m, w, a), b), c)
    ensures Legal(m, w, [a, b, c])
    ensures After(m, w, [a, b, c]) == Next(m, Next(m, Next(m, w, a), b), c)
  {
    hide Next, Enabled;
    assert [a, b, c][1..] == [b, c] && [b, c][1..] == [c] && [c][1..] == [];
    var w1 := Next(m, w, a);
    var w2 := Next(m, w1, b);
    var w3 := Next(m, w2, c);
    assert Legal(m, w3, []) && After(m, w3, []) == w3;
    assert Legal(m, w2, [c]) && After(m, w2, [c]) == w3;
    assert Legal(m, w1, [b, c]) && After(m, w1, [b, c]) == w3;
  }

  // A run without checkpoints captures nothing wrong.
  lemma {:induction false} NoCaptures<St, E>(m: Model<St, E>, w: World<St, E>, run: seq<Action<E>>)
    requires Legal(m, w, run) && forall i :: 0 <= i < |run| ==> !run[i].Capture?
    ensures CapturesCovered(m, w, run)
    decreases |run|
  {
    hide Next, Enabled, Covered;
    if run != [] {
      assert !run[0].Capture? && forall i :: 0 <= i < |run[1..]| ==> run[1..][i] == run[i + 1];
      NoCaptures(m, Next(m, w, run[0]), run[1..]);
    }
  }

  // ------------------------------------------------- draining the log

  // One turn of the engine loop, and `n` of them at the given clock readings.
  function OneTurn<E>(now: nat): seq<Action<E>> { [Check, Handle(now), Mark] }

  function Turns<E>(n: nat, clock: nat -> nat): seq<Action<E>> {
    if n == 0 then [] else OneTurn(clock(n)) + Turns(n - 1, clock)
  }

  // The loop asks the log, and there is an entry.
  ghost predicate Ready<St, E>(w: World<St, E>, from: int) {
    Inv(w) && w.reader.Checking? && Cursor(w.log, w.history) == from + 1 && 0 <= from <= |w.history|
  }

  lemma TurnTakes<St, E>(m: Model<St, E>, w: World<St, E>, from: nat)
    requires Ready(w, from) && from < |w.history|
    ensures var c := Next(m, w, Check);
            && c.reader == Holding(from + 1, w.history[from]) && Inv(c)
            && c == w.(log := c.log, reader := c.reader, delivered := w.delivered + [from + 1])
            && Cursor(c.log, c.history) == from + 2
  {
    SyncLog(w.log, w.history);
    var f := Next(m, w, FlushLog);
    EntryAtCursor(f.log, f.history);
    CheckIs(m, w);
    CheckInv(m, w);
    hide Inv, LogOk, Numbered, Sync;
  }

  // Between handling an entry and marking it.
  ghost predicate InHand<S, E>(w: World<S, E>, from: nat) {
    Inv(w) && w.reader == Handled(from + 1) && Cursor(w.log, w.history) == from + 2 && from < |w.history|
  }

  lemma HandleEntry<S, E>(m: Model<S, E>, w: World<S, E>, from: nat, now: nat)
    requires Ready(w, from) && from < |w.history|
    ensures Legal(m, w, [Check, Handle(now)])
    ensures var h := After(m, w, [Check, Handle(now)]);
            && InHand(h, from) && h.history == w.history && h.trace == w.trace + [w.history[from]]
            && h.pending == w.pending
            && h.delivered == w.delivered + [from + 1] && h.checkpoint == w.checkpoint
  {
    TurnTakes(m, w, from);
    var c := Next(m, w, Check);
    ReaderInv(m, c, Handle(now));
    HeldIsHandled(m, c, from, now);
    var h := Next(m, c, Handle(now));
    assert Enabled(w, Check) && Enabled(c, Handle(now)) by { hide Inv; }
    hide Inv, InHand, Cursor, Next, Enabled;
    TwoSteps(m, w, Check, Handle(now));
  }

  lemma HeldIsHandled<S, E>(m: Model<S, E>, c: World<S, E>, from: nat, now: nat)
    requires c.reader.Holding? && c.reader.num == from + 1 && Cursor(c.log, c.history) == from + 2 && from < |c.history|
    requires Inv(Next(m, c, Handle(now)))
    ensures var h := Next(m, c, Handle(now));
            && InHand(h, from) && h.history == c.history && h.trace == c.trace + [c.reader.event]
            && h.pending == c.pending
            && h.delivered == c.delivered && h.checkpoint == c.checkpoint
  {
    hide Inv;
  }

  lemma TwoSteps<S, E>(m: Model<S, E>, w: World<S, E>, a: Action<E>, b: Action<E>)
    requires Enabled(w, a) && Enabled(Next(m, w, a), b)
    ensures Legal(m, w, [a, b]) && After(m, w, [a, b]) == Next(m, Next(m, w, a), b)
  {
    hide Next, Enabled;
    assert [a, b][1..] == [b] && [b][1..] == [];
    var w1 := Next(m, w, a);
    NoSteps(m, Next(m, w1, b));
    assert Legal(m, w1, [b]) && After(m, w1, [b]) == Next(m, w1, b);
  }

  lemma MarkInHand<S, E>(m: Model<S, E>, w: World<S, E>, from: nat)
    requires InHand(w, from)
    ensures Legal(m, w, [Mark])
    ensures var n := After(m, w, [Mark]);
            && Ready(n, from + 1) && n.history == w.history && n.trace == w.trace && n.pending == w.pending
            && n.log.processedSeq == from + 1 && n.delivered == w.delivered && n.checkpoint == w.checkpoint
  {
    ReaderInv(m, w, Mark);
    var n := Next(m, w, Mark);
    assert Ready(n, from + 1) by { hide Inv; }
    hide Inv, Ready;
    NoSteps(m, n);
    var one: seq<Action<E>> := [Mark];
    assert one[1..] == [];
  }

  lemma TurnApplies<St, E>(m: Model<St, E>, w: World<St, E>, from: nat, now: nat)
    requires Ready(w, from) && from < |w.history|
    ensures Legal(m, w, OneTurn(now))
    ensures var n := After(m, w, OneTurn(now));
            && Ready(n, from + 1) && n.history == w.history && n.trace == w.trace + [w.history[from]]
            && n.log.processedSeq == from + 1 && n.delivered == w.delivered + [from + 1] && n.checkpoint == w.checkpoint
  {
    var both: seq<Action<E>> := [Check, Handle(now)];
    assert OneTurn(now) == both + [Mark];
    hide *;
    HandleEntry(m, w, from, now);
    MarkInHand(m, After(m, w, both), from);
    LegalAppend(m, w, both, [Mark]);
  }

  // Draining applies the entries from the cursor on, whatever the state already holds.
  lemma {:induction false} TurnsApply<St, E>(m: Model<St, E>, w: World<St, E>, from: nat, n: nat, clock: nat -> nat)
    requires Ready(w, from) && from + n <= |w.history|
    ensures Legal(m, w, Turns(n, clock))
    ensures var end := After(m, w, Turns(n, clock));
            Ready(end, from + n) && end.history == w.history && end.trace == w.trace + w.history[from..from + n]
    decreases n
  {
    hide *;
    TurnsUnfold<E>(n, clock);
    NoSteps(m, w);
    if n == 0 {
      assert w.trace + w.history[from..from] == w.trace;
    } else {
      TurnApplies(m, w, from, clock(n));
      var next := After(m, w, OneTurn(clock(n)));
      TurnsApply(m, next, from + 1, n - 1, clock);
      LegalAppend(m, w, OneTurn(clock(n)), Turns(n - 1, clock));
      OneMore(w.trace, w.history, from, n);
    }
  }

  lemma TurnsUnfold<E>(n: nat, clock: nat -> nat)
    ensures Turns<E>(n, clock) == if n == 0 then [] else OneTurn(clock(n)) + Turns(n - 1, clock)
  {
    hide OneTurn;
  }

  lemma NoSteps<St, E>(m: Model<St, E>, w: World<St, E>)
    ensures Legal(m, w, []) && After(m, w, []) == w
  {
  }

  lemma OneMore<E>(done: seq<E>, history: seq<E>, from: nat, turns: nat)
    requires 0 < turns && from + turns <= |history|
    ensures done + [history[from]] + history[from + 1..from + turns] == done + history[from..from + turns]
  {
  }

  // ------------------------------------------------- sending

  // One sender sends, and wakes the reader, event by event.
  function OneSend<E>(e: E): seq<Action<E>> { [Send(0, e), Wake(0)] }

  function Sends<E>(events: seq<E>): seq<Action<E>> {
    if events == [] then [] else OneSend(events[0]) + Sends(events[1..])
  }

  // `n` is `w` with a longer history and log.
  ghost predicate Grown<St, E>(w: World<St, E>, n: World<St, E>, events: seq<E>) {
    && Inv(n) && n.history == w.history + events
    && n == w.(log := n.log, token := n.token, history := n.history, applied := n.applied, ahead := n.ahead)
    && n.log.processedSeq == w.log.processedSeq && Cursor(n.log, n.history) == Cursor(w.log, w.history)
  }

  lemma SendApplies<St, E>(m: Model<St, E>, w: World<St, E>, e: E)
    requires Inv(w) && 0 !in w.pending
    ensures Legal(m, w, OneSend(e)) && Grown(w, After(m, w, OneSend(e)), [e])
  {
    var s := Next(m, w, Send(0, e));
    SendInv(m, w, Send(0, e));
    ReaderInv(m, s, Wake(0));
    var n := Next(m, s, Wake(0));
    assert n.pending == w.pending;
    assert Cursor(n.log, n.history) == Cursor(w.log, w.history);
    assert [Send(0, e), Wake(0)][1..] == [Wake(0)];
    hide Inv, Cursor;
    assert After(m, s, [Wake(0)]) == n;
  }

  lemma {:induction false} SendsApply<St, E>(m: Model<St, E>, w: World<St, E>, events: seq<E>)
    requires Inv(w) && 0 !in w.pending
    ensures Legal(m, w, Sends(events)) && Grown(w, After(m, w, Sends(events)), events)
    decreases |events|
  {
    hide Inv, OneSend, Legal, After, Cursor;
    NoSteps(m, w);
    if events == [] {
      assert w.history + events == w.history;
    } else {
      SendApplies(m, w, events[0]);
      var n := After(m, w, OneSend(events[0]));
      SendsApply(m, n, events[1..]);
      LegalAppend(m, w, OneSend(events[0]), Sends(events[1..]));
      assert w.history + [events[0]] + events[1..] == w.history + events;
    }
  }

  lemma {:induction false} SendsOnly<E>(events: seq<E>)
    ensures forall i :: 0 <= i < |Sends(events)| ==> Sends(events)[i].Send? || Sends(events)[i].Wake?
  {
    if events != [] {
      SendsOnly(events[1..]);
      assert OneSend(events[0])[0].Send? && OneSend(events[0])[1].Wake?;
    }
  }

  // ------------------------------------------------- handlers

  // What a handler does to the state: an event is applied and sent in the end, or applied and dropped
  // (its return value is not passed on, or the handler fails), or the runtime counts on its own.
  datatype Effect<+E> = Emit(event: E) | Drop(event: E) | Count(how: Adjustment)

  function Applies<E>(effect: Effect<E>): seq<E> { if effect.Count? then [] else [effect.event] }

  function OneStep<E>(effect: Effect<E>, now: nat): seq<Action<E>> {
    [if effect.Count? then Adjust(effect.how) else Early(effect.event, now)]
  }

  function Steps<E>(effects: seq<Effect<E>>, now: nat): seq<Action<E>> {
    if effects == [] then [] else OneStep(effects[0], now) + Steps(effects[1..], now)
  }

  function AppliedBy<E>(effects: seq<Effect<E>>): seq<E> {
    if effects == [] then [] else Applies(effects[0]) + AppliedBy(effects[1..])
  }

  function SentBy<E>(effects: seq<Effect<E>>): seq<E> {
    if effects == [] then []
    else (if effects[0].Emit? then [effects[0].event] else []) + SentBy(effects[1..])
  }

  // `n` is `w` with more applied to the state.
  ghost predicate Applied<St, E>(w: World<St, E>, n: World<St, E>, events: seq<E>) {
    && Inv(n) && n.trace == w.trace + events
    && n == w.(state := n.state, trace := n.trace, applied := n.applied, ahead := n.ahead)
  }

  lemma StepApplies<St, E>(m: Model<St, E>, w: World<St, E>, effect: Effect<E>, now: nat)
    requires Inv(w)
    ensures Legal(m, w, OneStep(effect, now)) && Applied(w, After(m, w, OneStep(effect, now)), Applies(effect))
  {
    var run := OneStep(effect, now);
    EarlyInv(m, w, run[0]);
    var n := Next(m, w, run[0]);
    hide Inv;
    NoSteps(m, n);
    assert run[1..] == [];
  }

  lemma {:induction false} StepsApply<St, E>(m: Model<St, E>, w: World<St, E>, effects: seq<Effect<E>>, now: nat)
    requires Inv(w)
    ensures Legal(m, w, Steps(effects, now)) && Applied(w, After(m, w, Steps(effects, now)), AppliedBy(effects))
    decreases |effects|
  {
    hide Inv, Legal, After, OneStep, Applies;
    NoSteps(m, w);
    if effects == [] {
      assert w.trace + AppliedBy(effects) == w.trace;
    } else {
      StepApplies(m, w, effects[0], now);
      var n := After(m, w, OneStep(effects[0], now));
      StepsApply(m, n, effects[1..], now);
      LegalAppend(m, w, OneStep(effects[0], now), Steps(effects[1..], now));
      assert w.trace + Applies(effects[0]) + AppliedBy(effects[1..]) == w.trace + AppliedBy(effects);
    }
  }

  // ------------------------------------------------- an entry delivered twice

  // From a loop that is through with an entry: a checkpoint up to the truncation, and the next entry.
  function Checkpointing<E>(): seq<Action<E>> { [Capture, Rename, SyncDir, Check] }

  lemma CheckpointTakes<St, E>(m: Model<St, E>, w: World<St, E>, from: nat)
    requires Ready(w, from) && 0 < from < |w.history| && w.checkpoint.Idle? && w.log.processedSeq == from
    ensures Legal(m, w, Checkpointing())
    ensures var n := After(m, w, Checkpointing());
            && Inv(n) && n.checkpoint.Synced? && n.reader == Holding(from + 1, w.history[from])
            && n.log.processedSeq == from && n.delivered == w.delivered + [from + 1]
  {
    var sync: seq<Action<E>> := [Capture, Rename, SyncDir];
    assert Checkpointing<E>() == sync + [Check];
    hide *;
    CheckpointSyncs(m, w, from);
    CheckTakes(m, After(m, w, sync), from);
    LegalAppend(m, w, sync, [Check]);
  }

  lemma CheckpointSyncs<St, E>(m: Model<St, E>, w: World<St, E>, from: nat)
    requires Ready(w, from) && 0 < from && w.checkpoint.Idle? && w.log.processedSeq == from
    ensures Legal(m, w, [Capture, Rename, SyncDir])
    ensures var d := After(m, w, [Capture, Rename, SyncDir]);
            && Ready(d, from) && d.checkpoint.Synced? && d.log.processedSeq == from
            && d.history == w.history && d.delivered == w.delivered
  {
    var c := Next(m, w, Capture);
    var r := Next(m, c, Rename);
    var d := Next(m, r, SyncDir);
    NextInv(m, w, Capture);
    NextInv(m, c, Rename);
    NextInv(m, r, SyncDir);
    hide Inv, Cursor;
    assert d == w.(checkpoint := d.checkpoint, snaps := d.snaps) && d.checkpoint == Synced(from);
    assert Ready(d, from);
    hide Ready, Next;
    ThreeSteps(m, w, Capture, Rename, SyncDir);
  }

  lemma CheckTakes<St, E>(m: Model<St, E>, w: World<St, E>, from: nat)
    requires Ready(w, from) && from < |w.history|
    ensures Legal(m, w, [Check])
    ensures var n := After(m, w, [Check]);
            && Inv(n) && n.checkpoint == w.checkpoint && n.reader == Holding(from + 1, w.history[from])
            && n.log.processedSeq == w.log.processedSeq && n.delivered == w.delivered + [from + 1]
  {
    TurnTakes(m, w, from);
    TakingKeepsMark(m, w);
    var n := Next(m, w, Check);
    hide Inv, Cursor, Next;
    NoSteps(m, n);
    var one: seq<Action<E>> := [Check];
    assert one[1..] == [];
  }

  lemma TakingKeepsMark<St, E>(m: Model<St, E>, w: World<St, E>)
    requires w.reader.Checking?
    ensures Next(m, w, Check).log.processedSeq == w.log.processedSeq
  {
  }

  // So it happens: two events are sent, the first is handled and marked, a checkpoint is taken, the
  // second is being handled when the log is truncated, and it is delivered once more.
  lemma EntryComesBack<St, E>(m: Model<St, E>, x: E, y: E, now: nat) returns (run: seq<Action<E>>)
    ensures Legal(m, Start(m), run) && After(m, Start(m), run).history == [x, y]
    ensures After(m, Start(m), run).delivered == [1, 2, 2]
  {
    hide *;
    var s, t, c := Sends([x, y]), OneTurn<E>(now), Checkpointing<E>();
    StartFacts(m);
    SendsApply(m, Start(m), [x, y]);
    var w1 := After(m, Start(m), s);
    SentFirst(Start(m), w1, [x, y]);
    TurnApplies(m, w1, 0, now);
    LegalAppend(m, Start(m), s, t);
    var w2 := After(m, w1, t);
    CheckpointTakes(m, w2, 1);
    LegalAppend(m, Start(m), s + t, c);
    var w3 := After(m, w2, c);
    HeldEntryComesBack(m, w3, now);
    LegalAppend(m, Start(m), s + t + c, [Truncate, Handle(now), Mark, Check]);
    run := s + t + c + [Truncate, Handle(now), Mark, Check];
    CheckpointingSteps<E>();
    NoneSent(m, w2, c);
    NoneSent(m, w3, [Truncate, Handle(now), Mark, Check]);
  }

  lemma CheckpointingSteps<E>()
    ensures |Checkpointing<E>()| == 4
    ensures forall i :: 0 <= i < 4 ==> !Checkpointing<E>()[i].Send? && !Checkpointing<E>()[i].Crash?
  {
  }

  lemma StartFacts<St, E>(m: Model<St, E>)
    ensures var w := Start(m);
            && Inv(w) && Ready(w, 0) && w.checkpoint.Idle? && w.delivered == [] && w.history == [] && w.pending == {}
  {
    StartInv(m);
  }

  lemma SentFirst<St, E>(w: World<St, E>, n: World<St, E>, events: seq<E>)
    requires Grown(w, n, events) && Ready(w, 0) && w.history == []
    ensures Ready(n, 0) && n.history == events && n.checkpoint == w.checkpoint && n.delivered == w.delivered
  {
    hide Inv, Cursor;
  }

  lemma {:induction false} NoneSent<St, E>(m: Model<St, E>, w: World<St, E>, run: seq<Action<E>>)
    requires Legal(m, w, run) && forall i :: 0 <= i < |run| ==> !run[i].Send? && !run[i].Crash?
    ensures After(m, w, run).history == w.history
    decreases |run|
  {
    if run != [] {
      assert Next(m, w, run[0]).history == w.history by { hide Sync, AtCursor, Truncated, Rewinds; }
      assert forall i :: 0 <= i < |run[1..]| ==> run[1..][i] == run[i + 1];
      hide Next, Enabled;
      NoneSent(m, Next(m, w, run[0]), run[1..]);
    }
  }
}
