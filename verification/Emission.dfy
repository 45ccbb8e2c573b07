/** What handlers do to the state before it is in the log -- events applied as soon as they are emitted,
    which the loop applies again when it comes to them, events dropped, counts -- and when that is
    harmless. */
module Emission {
  import opened Wal
  import opened Protocol
  import opened ProtocolInvariant
  import opened Collapse
  import opened Weaving
  import opened Commuting
  import opened Traces
  import opened Recovery
  import opened Runs

  // Handling one entry: it is applied, then the handler's effects take place, then what it emits is
  // sent, then the entry is marked.
  function Handling<E>(effects: seq<Effect<E>>, now: nat): seq<Action<E>> {
    [Check, Handle(now)] + Steps(effects, now) + Sends(SentBy(effects)) + [Mark]
  }

  // And then the loop goes through what was waiting and what was emitted, without a restart.
  function Served<E>(effects: seq<Effect<E>>, waiting: nat, now: nat, clock: nat -> nat): seq<Action<E>> {
    Handling(effects, now) + Turns(waiting + |SentBy(effects)|, clock)
  }

  // The loop asks the log behind `from` entries, and the state amounts to those.
  ghost predicate Settled<S, E>(m: Model<S, E>, w: World<S, E>, from: nat) {
    && Ready(w, from) && w.pending == {} && TraceOk(m, w)
    && Distilled(w.trace) == Distilled(w.history[..from])
  }

  // ------------------------------------------------------------- handling

  lemma StepInHand<S, E>(m: Model<S, E>, w: World<S, E>, from: nat, effects: seq<Effect<E>>, now: nat)
    requires InHand(w, from)
    ensures Legal(m, w, Steps(effects, now))
    ensures var n := After(m, w, Steps(effects, now));
            && InHand(n, from) && n.history == w.history && n.trace == w.trace + AppliedBy(effects)
            && n.pending == w.pending
  {
    StepsApply(m, w, effects, now);
    hide Inv, Legal, After, Steps, AppliedBy, Cursor;
  }

  lemma SendInHand<S, E>(m: Model<S, E>, w: World<S, E>, from: nat, emitted: seq<E>)
    requires InHand(w, from) && w.pending == {}
    ensures Legal(m, w, Sends(emitted))
    ensures var n := After(m, w, Sends(emitted));
            && InHand(n, from) && n.history == w.history + emitted && n.trace == w.trace && n.pending == {}
  {
    SendsApply(m, w, emitted);
    hide Inv, Legal, After, Sends, Cursor;
  }

  lemma HandlingApplies<S, E>(m: Model<S, E>, w: World<S, E>, from: nat, effects: seq<Effect<E>>, now: nat)
    requires Ready(w, from) && from < |w.history| && w.pending == {}
    ensures Legal(m, w, Handling(effects, now))
    ensures var n := After(m, w, Handling(effects, now));
            && Ready(n, from + 1) && n.history == w.history + SentBy(effects) && n.pending == {}
            && n.trace == w.trace + [w.history[from]] + AppliedBy(effects)
  {
    hide *;
    HandlingIs(effects, now);
    HandleEntry(m, w, from, now);
    var w1 := After(m, w, [Check, Handle(now)]);
    StepInHand(m, w1, from, effects, now);
    LegalAppend(m, w, [Check, Handle(now)], Steps(effects, now));
    var w2 := After(m, w1, Steps(effects, now));
    SendInHand(m, w2, from, SentBy(effects));
    LegalAppend(m, w, [Check, Handle(now)] + Steps(effects, now), Sends(SentBy(effects)));
    var w3 := After(m, w2, Sends(SentBy(effects)));
    MarkInHand(m, w3, from);
    LegalAppend(m, w, [Check, Handle(now)] + Steps(effects, now) + Sends(SentBy(effects)), [Mark]);
  }

  lemma HandlingIs<E>(effects: seq<Effect<E>>, now: nat)
    ensures Handling(effects, now)
         == [Check, Handle(now)] + Steps(effects, now) + Sends(SentBy(effects)) + [Mark]
  {
    hide Steps, Sends, SentBy;
  }

  // ------------------------------------------------------------- serving

  // The effects are applied right behind the entry, and what was emitted again behind what was waiting.
  lemma ServedApplies<S, E>(m: Model<S, E>, w: World<S, E>, from: nat, effects: seq<Effect<E>>, now: nat,
                            clock: nat -> nat)
    requires Ready(w, from) && from < |w.history| && w.pending == {}
    ensures Legal(m, w, Served(effects, |w.history| - from - 1, now, clock))
    ensures var end, sent := After(m, w, Served(effects, |w.history| - from - 1, now, clock)), SentBy(effects);
            && Ready(end, |end.history|) && end.history == w.history + sent && end.pending == {}
            && end.trace == w.trace + [w.history[from]] + AppliedBy(effects) + (w.history[from + 1..] + sent)
  {
    hide *;
    var waiting, sent := |w.history| - from - 1, SentBy(effects);
    ServedIs(effects, waiting, now, clock);
    HandlingApplies(m, w, from, effects, now);
    var n := After(m, w, Handling(effects, now));
    TurnsApply(m, n, from + 1, waiting + |sent|, clock);
    TurnsKeepSenders(m, n, waiting + |sent|, clock);
    LegalAppend(m, w, Handling(effects, now), Turns(waiting + |sent|, clock));
    assert n.history[from + 1..from + 1 + (waiting + |sent|)] == w.history[from + 1..] + sent;
  }

  lemma ServedIs<E>(effects: seq<Effect<E>>, waiting: nat, now: nat, clock: nat -> nat)
    ensures Served(effects, waiting, now, clock) == Handling(effects, now) + Turns(waiting + |SentBy(effects)|, clock)
  {
    hide Handling, Turns, SentBy;
  }

  lemma {:induction false} TurnsKeepSenders<S, E>(m: Model<S, E>, w: World<S, E>, n: nat, clock: nat -> nat)
    requires Legal(m, w, Turns(n, clock))
    ensures After(m, w, Turns(n, clock)).pending == w.pending
  {
    LoopActions<E>(n, clock);
    hide Turns;
    LoopKeepsSenders(m, w, Turns(n, clock));
  }

  lemma {:induction false} LoopActions<E>(n: nat, clock: nat -> nat)
    ensures forall i :: 0 <= i < |Turns<E>(n, clock)| ==>
              Turns<E>(n, clock)[i].Check? || Turns<E>(n, clock)[i].Handle? || Turns<E>(n, clock)[i].Mark?
  {
    if n > 0 { LoopActions<E>(n - 1, clock); }
  }

  lemma {:induction false} LoopKeepsSenders<S, E>(m: Model<S, E>, w: World<S, E>, run: seq<Action<E>>)
    requires Legal(m, w, run)
    requires forall i :: 0 <= i < |run| ==> run[i].Check? || run[i].Handle? || run[i].Mark?
    ensures After(m, w, run).pending == w.pending && After(m, w, run).snaps == w.snaps
    decreases |run|
  {
    if run != [] {
      assert Next(m, w, run[0]).pending == w.pending && Next(m, w, run[0]).snaps == w.snaps by { hide Sync, AtCursor; }
      assert forall i :: 0 <= i < |run[1..]| ==> run[1..][i] == run[i + 1];
      hide Next, Enabled;
      LoopKeepsSenders(m, Next(m, w, run[0]), run[1..]);
    }
  }

  // From a settled world the state is settled again exactly if what the handler applies fits between
  // the entry and the next one: what was waiting, or else what is emitted.
  lemma EarlyHarmlessIff<S(!new), E(!new)>(m: Model<S, E>, w: World<S, E>, from: nat, effects: seq<Effect<E>>,
                                           now: nat, clock: nat -> nat)
    requires Settled(m, w, from) && from < |w.history| && Congruent(m)
    ensures Legal(m, w, Served(effects, |w.history| - from - 1, now, clock))
    ensures var end, sent := After(m, w, Served(effects, |w.history| - from - 1, now, clock)), SentBy(effects);
            && end.history == w.history + sent && m.erase(end.state) == m.erase(Fold(m, end.trace))
            && (Settled(m, end, |end.history|) <==> Distilled(end.trace) == Distilled(end.history))
            && (Distilled(end.trace) == Distilled(end.history)
                <==> Fits(AppliedBy(effects), w.history[from], w.history[from + 1..] + sent))
  {
    var run := Served(effects, |w.history| - from - 1, now, clock);
    SettledParts(m, w, from);
    hide *;
    ServedApplies(m, w, from, effects, now, clock);
    RunTrace(m, w, run);
    var end := After(m, w, run);
    TraceIsFold(m, end);
    EarlyOrders(w.trace, w.history, from, AppliedBy(effects), SentBy(effects));
    SettledIff(m, end);
  }

  lemma EarlyOrders<E>(trace: seq<E>, history: seq<E>, from: nat, applied: seq<E>, sent: seq<E>)
    requires from < |history| && Distilled(trace) == Distilled(history[..from])
    ensures Distilled(trace + [history[from]] + applied + (history[from + 1..] + sent)) == Distilled(history + sent)
            <==> Fits(applied, history[from], history[from + 1..] + sent)
  {
    hide *;
    var before, next := history[..from + 1], history[from + 1..] + sent;
    assert before == history[..from] + [history[from]] && before[|before| - 1] == history[from];
    DistilledAppend(trace, history[..from], [history[from]]);
    DistilledAppend(trace + [history[from]], before, applied);
    DistilledAppend(trace + [history[from]] + applied, before + applied, next);
    FitsIff(before, applied, next);
    assert history + sent == before + next;
  }

  lemma SettledParts<S, E>(m: Model<S, E>, w: World<S, E>, from: nat)
    requires Settled(m, w, from)
    ensures Ready(w, from) && w.pending == {} && TraceOk(m, w) && Distilled(w.trace) == Distilled(w.history[..from])
  {
  }

  lemma SettledIff<S, E>(m: Model<S, E>, end: World<S, E>)
    requires Ready(end, |end.history|) && end.pending == {} && TraceOk(m, end)
    ensures Settled(m, end, |end.history|) <==> Distilled(end.trace) == Distilled(end.history)
  {
    assert end.history[..|end.history|] == end.history;
    hide Ready, TraceOk, Distilled;
  }

  lemma TraceIsFold<S, E>(m: Model<S, E>, w: World<S, E>)
    requires TraceOk(m, w)
    ensures m.erase(w.state) == m.erase(Fold(m, w.trace))
  {
  }

  // For states: if it fits, every idempotent transition function ends in the fold of the log, and
  // otherwise the one that tells all others apart does not.
  lemma EarlyKeepsState<S(!new), E(!new)>(m: Model<S, E>, w: World<S, E>, from: nat, effects: seq<Effect<E>>,
                                          now: nat, clock: nat -> nat)
    requires Settled(m, w, from) && from < |w.history| && Congruent(m) && Idempotent(m)
    requires Fits(AppliedBy(effects), w.history[from], w.history[from + 1..] + SentBy(effects))
    ensures Legal(m, w, Served(effects, |w.history| - from - 1, now, clock))
    ensures var end := After(m, w, Served(effects, |w.history| - from - 1, now, clock));
            m.erase(end.state) == m.erase(Fold(m, end.history))
  {
    hide *;
    EarlyHarmlessIff(m, w, from, effects, now, clock);
    var end := After(m, w, Served(effects, |w.history| - from - 1, now, clock));
    SameState(m, end.trace, end.history);
  }

  lemma EarlyTellsIff<E(!new)>(w: World<seq<E>, E>, from: nat, effects: seq<Effect<E>>, now: nat, clock: nat -> nat)
    requires Settled(Recorder(), w, from) && from < |w.history|
    ensures Congruent(Recorder<E>()) && Idempotent(Recorder<E>())
    ensures Legal(Recorder(), w, Served(effects, |w.history| - from - 1, now, clock))
    ensures var end := After(Recorder(), w, Served(effects, |w.history| - from - 1, now, clock));
            && (end.state == Fold(Recorder(), end.history)
                <==> Fits(AppliedBy(effects), w.history[from], w.history[from + 1..] + SentBy(effects)))
  {
    hide *;
    RecorderTells<E>([], []);
    EarlyHarmlessIff(Recorder(), w, from, effects, now, clock);
    var end := After(Recorder(), w, Served(effects, |w.history| - from - 1, now, clock));
    RecorderTells(end.trace, end.history);
    RecorderErases(end.state);
    RecorderErases(Fold(Recorder(), end.trace));
  }

  // And so does every one by which what the handler applied is absorbed by what waits and what is emitted.
  lemma EarlyAbsorbed<S(!new), E(!new)>(m: Model<S, E>, w: World<S, E>, from: nat, effects: seq<Effect<E>>,
                                        now: nat, clock: nat -> nat)
    requires Settled(m, w, from) && from < |w.history| && Congruent(m) && Idempotent(m)
    requires AbsorbsAll(m, AppliedBy(effects), w.history[from + 1..] + SentBy(effects))
    ensures Legal(m, w, Served(effects, |w.history| - from - 1, now, clock))
    ensures var end := After(m, w, Served(effects, |w.history| - from - 1, now, clock));
            m.erase(end.state) == m.erase(Fold(m, end.history))
  {
    SettledParts(m, w, from);
    hide *;
    var run, next := Served(effects, |w.history| - from - 1, now, clock), w.history[from + 1..] + SentBy(effects);
    ServedApplies(m, w, from, effects, now, clock);
    RunTrace(m, w, run);
    var end, before := After(m, w, run), w.history[..from] + [w.history[from]];
    TraceIsFold(m, end);
    SameIsSame(m, w.trace, w.history[..from]);
    SameAppend(m, w.trace, w.history[..from], [w.history[from]] + AppliedBy(effects) + next);
    AllOnce(m, before, AppliedBy(effects), next);
    EarlyParts(w.trace, w.history, from, AppliedBy(effects), SentBy(effects));
    FoldsTo(m, end.state, end.trace, before + AppliedBy(effects) + next, end.history);
  }

  lemma SameIsSame<S(!new), E(!new)>(m: Model<S, E>, a: seq<E>, b: seq<E>)
    requires Congruent(m) && Idempotent(m) && Distilled(a) == Distilled(b)
    ensures Same(m, a, b)
  {
    hide Congruent, Idempotent, Distilled;
    SameState(m, a, b);
  }

  lemma FoldsTo<S, E>(m: Model<S, E>, s: S, a: seq<E>, b: seq<E>, c: seq<E>)
    requires m.erase(s) == m.erase(Fold(m, a)) && (a == b || Same(m, a, b)) && Same(m, b, c)
    ensures m.erase(s) == m.erase(Fold(m, c))
  {
    hide Fold;
  }

  lemma EarlyParts<E>(trace: seq<E>, history: seq<E>, from: nat, applied: seq<E>, sent: seq<E>)
    requires from < |history|
    ensures var next, before := history[from + 1..] + sent, history[..from] + [history[from]];
            && trace + ([history[from]] + applied + next) == trace + [history[from]] + applied + next
            && history[..from] + ([history[from]] + applied + next) == before + applied + next
            && before + next == history + sent
  {
  }

  // A checkpoint taken while the loop is settled captures events of the log.
  lemma SettledIsCovered<S, E>(m: Model<S, E>, w: World<S, E>, from: nat)
    requires Settled(m, w, from) && from == w.log.processedSeq <= OnDisk(w.log, w.history)
    ensures Covered(w)
  {
    assert w.history[from..from] == [];
    hide Ready, TraceOk, Distilled, OnDisk;
    assert Tracks(w.trace, w.history, w.log.processedSeq, from) by { OnDiskBound(w.log, w.history); }
  }

  // One taken between the handler's emissions and the mark does not, unless the handler emitted nothing
  // but the entry it handles: what such a snapshot and the entries above its number amount to is the
  // log exactly then.
  lemma CaptureInHandlingIff<E>(before: seq<E>, e: E, emitted: seq<E>, waiting: seq<E>)
    ensures Distilled(before + [e] + emitted + ([e] + waiting + emitted)) == Distilled(before + [e] + waiting + emitted)
            <==> AllAre(emitted, e)
  {
    var a, more := before + [e], waiting + emitted;
    assert a + emitted + ([e] + waiting + emitted) == a + (emitted + [e]) + more && a + waiting + emitted == a + more;
    hide Distilled;
    if more == [] {
      assert a + (emitted + [e]) + more == a + [e] && a + more == a;
      OneBehind(a, e);
    } else {
      InsertIff(a, emitted + [e], more);
      BridgesBack(emitted, e, more[0]);
    }
  }

  // A bridge from `e` that ends in `e` is `e` throughout.
  lemma {:induction false} BridgesBack<E>(emitted: seq<E>, e: E, y: E)
    ensures Bridges(emitted + [e], e, y) <==> AllAre(emitted, e)
  {
    var put := emitted + [e];
    assert put[|emitted|] == e && forall i :: 0 <= i < |emitted| ==> put[i] == emitted[i];
    if emitted != [] {
      BridgesBack(emitted[1..], e, y);
      assert put[1..] == emitted[1..] + [e];
      assert forall i :: 0 < i < |emitted| ==> emitted[i] == emitted[1..][i - 1];
    }
  }

  // ------------------------------------------------------------- a life without crashes

  // Events come in from outside, and then one entry is handled, whoever sent it.
  datatype Round<E> = Round(incoming: seq<E>, effects: seq<Effect<E>>)

  function OneRound<E>(round: Round<E>, now: nat): seq<Action<E>> {
    Sends(round.incoming) + Handling(round.effects, now)
  }

  function Life<E>(rounds: seq<Round<E>>, now: nat): seq<Action<E>> {
    if rounds == [] then [] else OneRound(rounds[0], now) + Life(rounds[1..], now)
  }

  // Each round finds an entry to handle, `waiting` being there before the first one.
  predicate Busy<E>(waiting: nat, rounds: seq<Round<E>>)
    decreases |rounds|
  {
    rounds == []
    || (var there := waiting + |rounds[0].incoming|;
        there > 0 && Busy(there - 1 + |SentBy(rounds[0].effects)|, rounds[1..]))
  }

  // What that writes to the log, and what it applies behind each entry.
  function Logged<E>(rounds: seq<Round<E>>): seq<E> {
    if rounds == [] then [] else rounds[0].incoming + SentBy(rounds[0].effects) + Logged(rounds[1..])
  }

  function Behind<E>(rounds: seq<Round<E>>): (r: seq<seq<E>>)
    ensures |r| == |rounds| && forall i :: 0 <= i < |r| ==> r[i] == AppliedBy(rounds[i].effects)
  {
    seq(|rounds|, i requires 0 <= i < |rounds| => AppliedBy(rounds[i].effects))
  }

  lemma RoundApplies<S, E>(m: Model<S, E>, w: World<S, E>, from: nat, round: Round<E>, now: nat)
    requires Ready(w, from) && w.pending == {} && from < |w.history| + |round.incoming|
    ensures Legal(m, w, OneRound(round, now)) && Rounded(w, from, round, After(m, w, OneRound(round, now)))
  {
    assert OneRound(round, now) == Sends(round.incoming) + Handling(round.effects, now) by { hide Sends, Handling; }
    SendsReady(m, w, from, round.incoming);
    hide *;
    var n := After(m, w, Sends(round.incoming));
    HandlingApplies(m, n, from, round.effects, now);
    LegalAppend(m, w, Sends(round.incoming), Handling(round.effects, now));
    RoundedIs(w, from, round, After(m, n, Handling(round.effects, now)));
  }

  // `n` is where a life that is at `w` is after the round.
  ghost predicate Rounded<S, E>(w: World<S, E>, from: nat, round: Round<E>, n: World<S, E>) {
    && Ready(n, from + 1) && n.pending == {}
    && n.history == w.history + round.incoming + SentBy(round.effects)
    && from < |n.history| && n.trace == w.trace + [n.history[from]] + AppliedBy(round.effects)
  }

  lemma RoundedIs<S, E>(w: World<S, E>, from: nat, round: Round<E>, n: World<S, E>)
    requires Ready(n, from + 1) && n.pending == {} && from < |w.history| + |round.incoming|
    requires n.history == w.history + round.incoming + SentBy(round.effects)
    requires n.trace == w.trace + [(w.history + round.incoming)[from]] + AppliedBy(round.effects)
    ensures Rounded(w, from, round, n)
  {
    hide Ready, SentBy, AppliedBy;
  }

  lemma SendsReady<S, E>(m: Model<S, E>, w: World<S, E>, from: nat, events: seq<E>)
    requires Ready(w, from) && w.pending == {}
    ensures Legal(m, w, Sends(events))
    ensures var n := After(m, w, Sends(events));
            Ready(n, from) && n.history == w.history + events && n.trace == w.trace && n.pending == {}
  {
    SendsApply(m, w, events);
    hide Inv, Legal, After, Sends, Cursor;
  }

  // `end` is where a life that is at `w` is after these rounds.
  ghost predicate Lived<S, E>(w: World<S, E>, from: nat, rounds: seq<Round<E>>, end: World<S, E>) {
    && Ready(end, from + |rounds|) && end.pending == {}
    && end.history == w.history + Logged(rounds)
    && end.trace == w.trace + Woven(end.history[from..from + |rounds|], Behind(rounds))
  }

  lemma {:induction false} LifeApplies<S, E>(m: Model<S, E>, w: World<S, E>, from: nat, waiting: nat,
                                             rounds: seq<Round<E>>, now: nat)
    requires Ready(w, from) && w.pending == {} && |w.history| == from + waiting && Busy(waiting, rounds)
    ensures Legal(m, w, Life(rounds, now)) && Lived(w, from, rounds, After(m, w, Life(rounds, now)))
    decreases |rounds|
  {
    hide *;
    if rounds == [] {
      LifeIs(rounds, now);
      NoSteps(m, w);
      NothingLived(w, from);
    } else {
      var left := BusyIs(waiting, rounds);
      RoundApplies(m, w, from, rounds[0], now);
      var n := After(m, w, OneRound(rounds[0], now));
      RoundLeaves(w, from, waiting, rounds[0], n, left);
      LifeApplies(m, n, from + 1, left, rounds[1..], now);
      LifeOn(m, w, n, from, rounds, now);
    }
  }

  lemma LifeOn<S, E>(m: Model<S, E>, w: World<S, E>, n: World<S, E>, from: nat, rounds: seq<Round<E>>, now: nat)
    requires rounds != [] && Legal(m, w, OneRound(rounds[0], now)) && n == After(m, w, OneRound(rounds[0], now))
    requires Rounded(w, from, rounds[0], n)
    requires Legal(m, n, Life(rounds[1..], now)) && Lived(n, from + 1, rounds[1..], After(m, n, Life(rounds[1..], now)))
    ensures Legal(m, w, Life(rounds, now)) && Lived(w, from, rounds, After(m, w, Life(rounds, now)))
  {
    LifeIs(rounds, now);
    hide *;
    LegalAppend(m, w, OneRound(rounds[0], now), Life(rounds[1..], now));
    LifeGoesOn(w, n, After(m, n, Life(rounds[1..], now)), from, rounds);
  }

  lemma RoundLeaves<S, E>(w: World<S, E>, from: nat, waiting: nat, round: Round<E>, n: World<S, E>, left: nat)
    requires Rounded(w, from, round, n) && |w.history| == from + waiting
    requires left == waiting + |round.incoming| - 1 + |SentBy(round.effects)|
    ensures Ready(n, from + 1) && n.pending == {} && |n.history| == from + 1 + left
  {
    hide Ready, SentBy, AppliedBy;
  }

  lemma NothingLived<S, E>(w: World<S, E>, from: nat)
    requires Ready(w, from) && w.pending == {}
    ensures Lived(w, from, [], w)
  {
    ReadyBound(w, from);
    hide Ready;
  }

  lemma LifeGoesOn<S, E>(w: World<S, E>, n: World<S, E>, end: World<S, E>, from: nat, rounds: seq<Round<E>>)
    requires rounds != [] && Lived(n, from + 1, rounds[1..], end) && Rounded(w, from, rounds[0], n)
    ensures Lived(w, from, rounds, end)
  {
    LifeIs(rounds, 0);
    hide Ready, Life, Logged, Behind, Woven, SentBy, AppliedBy;
    ReadyBound(end, from + 1 + |rounds[1..]|);
    Regrouped(w.history, rounds[0].incoming, SentBy(rounds[0].effects), Logged(rounds[1..]));
    WovenOn(w.trace, n.trace, end.trace, n.history, end.history, from, rounds);
  }

  lemma LivedIs<S, E>(w: World<S, E>, rounds: seq<Round<E>>, end: World<S, E>)
    requires Lived(w, 0, rounds, end) && w.history == [] && w.trace == []
    ensures Ready(end, |rounds|) && |rounds| <= |end.history| && end.history == Logged(rounds)
    ensures end.trace == Woven(end.history[..|rounds|], Behind(rounds))
  {
    ReadyBound(end, |rounds|);
    var log := Logged(rounds);
    hide Ready, Logged;
    assert end.history == log && end.history[0..0 + |rounds|] == end.history[..|rounds|];
    FromNothing(Woven(end.history[..|rounds|], Behind(rounds)));
    hide Woven, Behind;
  }

  lemma FromNothing<E>(events: seq<E>)
    ensures [] + events == events
  {
  }

  lemma ReadyBound<S, E>(w: World<S, E>, from: nat)
    requires Ready(w, from)
    ensures from <= |w.history|
  {
  }

  lemma Regrouped<E>(history: seq<E>, a: seq<E>, b: seq<E>, c: seq<E>)
    ensures history + a + b + c == history + (a + b + c)
  {
  }

  lemma LifeIs<E>(rounds: seq<Round<E>>, now: nat)
    ensures rounds == [] ==> Life(rounds, now) == [] && Logged(rounds) == []
    ensures rounds != [] ==>
              && Life(rounds, now) == OneRound(rounds[0], now) + Life(rounds[1..], now)
              && Logged(rounds) == rounds[0].incoming + SentBy(rounds[0].effects) + Logged(rounds[1..])
  {
    hide OneRound, SentBy;
  }

  // How many wait behind the first round.
  lemma BusyIs<E>(waiting: nat, rounds: seq<Round<E>>) returns (left: nat)
    requires Busy(waiting, rounds) && rounds != []
    ensures waiting + |rounds[0].incoming| > 0 && Busy(left, rounds[1..])
    ensures left == waiting + |rounds[0].incoming| - 1 + |SentBy(rounds[0].effects)|
  {
    hide SentBy;
    left := waiting + |rounds[0].incoming| - 1 + |SentBy(rounds[0].effects)|;
  }

  lemma WovenOn<E>(before: seq<E>, trace: seq<E>, end: seq<E>, history: seq<E>, later: seq<E>, from: nat,
                   rounds: seq<Round<E>>)
    requires rounds != [] && from < |history| && history <= later && from + |rounds| <= |later|
    requires trace == before + [history[from]] + AppliedBy(rounds[0].effects)
    requires end == trace + Woven(later[from + 1..from + 1 + |rounds[1..]|], Behind(rounds[1..]))
    ensures end == before + Woven(later[from..from + |rounds|], Behind(rounds))
  {
    hide *;
    var rest, behind := later[from + 1..from + 1 + |rounds[1..]|], AppliedBy(rounds[0].effects);
    BehindRest(rounds);
    NextOf(history, later, from, |rounds|);
    WovenCons(history[from], behind, rest, Behind(rounds[1..]));
    Associates(before, [history[from]] + behind, Woven(rest, Behind(rounds[1..])));
    Associates(before, [history[from]], behind);
  }

  lemma BehindRest<E>(rounds: seq<Round<E>>)
    requires rounds != []
    ensures Behind(rounds) == [AppliedBy(rounds[0].effects)] + Behind(rounds[1..])
  {
    hide AppliedBy;
  }

  lemma NextOf<E>(history: seq<E>, later: seq<E>, from: nat, n: nat)
    requires 0 < n && from < |history| && history <= later && from + n <= |later|
    ensures later[from..from + n] == [history[from]] + later[from + 1..from + n]
  {
  }

  // A whole life without a crash, whatever comes in and whatever the handlers do, those of emitted
  // events included: when `n` entries are handled, the state amounts to those exactly if what each
  // handler applied fits between its entry and the next one.
  lemma LifeSettlesIff<S(!new), E(!new)>(m: Model<S, E>, rounds: seq<Round<E>>, now: nat)
    requires Congruent(m) && Busy(0, rounds)
    ensures Legal(m, Start(m), Life(rounds, now))
    ensures var end, n := After(m, Start(m), Life(rounds, now)), |rounds|;
            && end.history == Logged(rounds) && n <= |end.history|
            && end.trace == Woven(end.history[..n], Behind(rounds))
            && m.erase(end.state) == m.erase(Fold(m, end.trace))
            && (Distilled(end.trace) == Distilled(end.history[..n]) <==> AllFit(end.history[..n], Behind(rounds)))
            && (Idempotent(m) && AllFit(end.history[..n], Behind(rounds)) ==>
                  m.erase(end.state) == m.erase(Fold(m, end.history[..n])))
  {
    StartReady(m);
    hide *;
    LifeApplies(m, Start(m), 0, 0, rounds, now);
    LivedIs(Start(m), rounds, After(m, Start(m), Life(rounds, now)));
    var end, n := After(m, Start(m), Life(rounds, now)), |rounds|;
    StateIsTrace(m, Life(rounds, now));
    WovenIff(end.history[..n], Behind(rounds));
    if Idempotent(m) && AllFit(end.history[..n], Behind(rounds)) { SameState(m, end.trace, end.history[..n]); }
  }

  // For one transition function more lives will do: all that the handlers apply may be absorbed by the
  // entries handled later, whatever waits in between and whatever those entries' handlers do.
  lemma LifeAbsorbed<S(!new), E(!new)>(m: Model<S, E>, rounds: seq<Round<E>>, now: nat)
    requires Congruent(m) && Idempotent(m) && Busy(0, rounds)
    ensures Legal(m, Start(m), Life(rounds, now))
    ensures var end, n := After(m, Start(m), Life(rounds, now)), |rounds|;
            && end.history == Logged(rounds) && n <= |end.history|
            && (AllAbsorbed(m, end.history[..n], Behind(rounds)) ==>
                  m.erase(end.state) == m.erase(Fold(m, end.history[..n])))
  {
    hide *;
    LifeSettlesIff(m, rounds, now);
    var end, n := After(m, Start(m), Life(rounds, now)), |rounds|;
    if AllAbsorbed(m, end.history[..n], Behind(rounds)) {
      LogAbsorbs(m, end.state, end.trace, end.history[..n], Behind(rounds));
    }
  }

  lemma LogAbsorbs<S(!new), E(!new)>(m: Model<S, E>, s: S, trace: seq<E>, log: seq<E>, behind: seq<seq<E>>)
    requires Congruent(m) && Idempotent(m) && |behind| == |log| && AllAbsorbed(m, log, behind)
    requires m.erase(s) == m.erase(Fold(m, trace)) && trace == Woven(log, behind)
    ensures m.erase(s) == m.erase(Fold(m, log))
  {
    hide *;
    WovenAbsorbed(m, [], log, behind);
    FromNothing(trace);
    FromNothing(log);
    FoldsTo(m, s, trace, trace, log);
  }

  lemma StartReady<S, E>(m: Model<S, E>)
    ensures Ready(Start(m), 0) && Start(m).pending == {} && Start(m).history == [] && Start(m).trace == []
  {
    StartInv(m);
  }

  // And the transition function that tells all others apart ends in the fold only then.
  lemma LifeTellsIff<E(!new)>(rounds: seq<Round<E>>, now: nat)
    requires Busy(0, rounds)
    ensures Congruent(Recorder<E>()) && Idempotent(Recorder<E>())
    ensures Legal(Recorder(), Start(Recorder()), Life(rounds, now))
    ensures var end, n := After(Recorder(), Start(Recorder()), Life(rounds, now)), |rounds|;
            && n <= |end.history|
            && (end.state == Fold(Recorder(), end.history[..n]) <==> AllFit(end.history[..n], Behind(rounds)))
  {
    hide *;
    RecorderTells<E>([], []);
    LifeSettlesIff(Recorder(), rounds, now);
    var end, n := After(Recorder(), Start(Recorder()), Life(rounds, now)), |rounds|;
    RecorderTells(end.trace, end.history[..n]);
    RecorderErases(end.state);
    RecorderErases(Fold(Recorder(), end.trace));
  }

  // ------------------------------------------------------------- one that fails

  // A job is created and its first step started; then that exits, and its handler goes on to another.
  function FailureRounds<E>(created: E, started: E, exited: E, failed: E, advanced: E): seq<Round<E>> {
    [Round([created], [Emit(started)]), Round([], []),
     Round([exited], [Emit(failed), Emit(advanced), Emit(started)]), Round([], []), Round([], []), Round([], [])]
  }

  lemma RoundsCons<E>(round: Round<E>, rest: seq<Round<E>>, sent: seq<E>, applied: seq<E>, waiting: nat)
    requires sent == SentBy(round.effects) && applied == AppliedBy(round.effects)
    ensures Logged([round] + rest) == round.incoming + sent + Logged(rest)
    ensures Behind([round] + rest) == [applied] + Behind(rest)
    ensures waiting + |round.incoming| > 0 && Busy(waiting + |round.incoming| - 1 + |sent|, rest) ==>
              Busy(waiting, [round] + rest)
  {
    BehindCons(round, rest);
    LoggedCons(round, rest);
    if waiting + |round.incoming| > 0 && Busy(waiting + |round.incoming| - 1 + |sent|, rest) {
      BusyCons(round, rest, waiting);
    }
    hide *;
  }

  lemma LoggedCons<E>(round: Round<E>, rest: seq<Round<E>>)
    ensures Logged([round] + rest) == round.incoming + SentBy(round.effects) + Logged(rest)
  {
    var rounds := [round] + rest;
    LifeIs(rounds, 0);
    assert rounds[0] == round && rounds[1..] == rest;
    hide *;
  }

  lemma BusyCons<E>(round: Round<E>, rest: seq<Round<E>>, waiting: nat)
    requires waiting + |round.incoming| > 0 && Busy(waiting + |round.incoming| - 1 + |SentBy(round.effects)|, rest)
    ensures Busy(waiting, [round] + rest)
  {
    var rounds := [round] + rest;
    assert rounds[0] == round && rounds[1..] == rest;
    hide SentBy;
  }

  lemma BehindCons<E>(round: Round<E>, rest: seq<Round<E>>)
    ensures Behind([round] + rest) == [AppliedBy(round.effects)] + Behind(rest)
  {
    hide AppliedBy;
  }

  lemma EffectsCons<E>(effect: Effect<E>, rest: seq<Effect<E>>)
    ensures SentBy([effect] + rest) == (if effect.Emit? then [effect.event] else []) + SentBy(rest)
    ensures AppliedBy([effect] + rest) == Applies(effect) + AppliedBy(rest)
  {
    assert ([effect] + rest)[1..] == rest;
  }

  lemma NoEffects<E>()
    ensures SentBy<E>([]) == [] && AppliedBy<E>([]) == []
  {
  }

  lemma EffectLists<E>(a: E, b: E, c: E)
    ensures SentBy([Emit(a)]) == [a] && AppliedBy([Emit(a)]) == [a]
    ensures SentBy([Emit(a), Emit(b), Emit(c)]) == [a, b, c] && AppliedBy([Emit(a), Emit(b), Emit(c)]) == [a, b, c]
  {
    NoEffects<E>();
    EffectsCons(Emit(c), []);
    EffectsCons(Emit(b), [Emit(c)]);
    EffectsCons(Emit(a), [Emit(b), Emit(c)]);
    EffectsCons(Emit(a), []);
    hide SentBy, AppliedBy;
    assert [Emit(a)] + [] == [Emit(a)] && [Emit(c)] + [] == [Emit(c)] && [Emit(b)] + [Emit(c)] == [Emit(b), Emit(c)];
    assert [Emit(a)] + [Emit(b), Emit(c)] == [Emit(a), Emit(b), Emit(c)];
  }

  // The log has the events of the failure once behind the exit, the state has them twice.
  lemma FailureLog<E>(created: E, started: E, exited: E, failed: E, advanced: E)
    ensures var rounds := FailureRounds(created, started, exited, failed, advanced);
            && Busy(0, rounds) && |rounds| == |Logged(rounds)| == 6
            && Logged(rounds) == [created, started, exited, failed, advanced, started]
            && Behind(rounds) == [[started], [], [failed, advanced, started], [], [], []]
  {
    var r0: Round<E>, q: Round<E> := Round([created], [Emit(started)]), Round([], []);
    var r2: Round<E> := Round([exited], [Emit(failed), Emit(advanced), Emit(started)]);
    EffectLists(started, started, started);
    EffectLists(failed, advanced, started);
    FailureIs(created, started, exited, failed, advanced);
    hide *;
    var tail: seq<Round<E>> := [q] + ([q] + ([q] + []));
    QuietRounds<E>();
    RoundsCons(r2, tail, [failed, advanced, started], [failed, advanced, started], 0);
    NoEffects<E>();
    RoundsCons(q, [r2] + tail, [], [], 1);
    RoundsCons(r0, [q] + ([r2] + tail), [started], [started], 0);
  }

  lemma FailureIs<E>(created: E, started: E, exited: E, failed: E, advanced: E)
    ensures FailureRounds(created, started, exited, failed, advanced)
         == [Round([created], [Emit(started)])]
            + ([Round([], [])]
               + ([Round([exited], [Emit(failed), Emit(advanced), Emit(started)])]
                  + ([Round([], [])] + ([Round([], [])] + ([Round([], [])] + [])))))
  {
  }

  lemma QuietRounds<E>()
    ensures var q: Round<E> := Round([], []);
            var three := [q] + ([q] + ([q] + []));
            Logged(three) == [] && Behind(three) == [[], [], []] && Busy(3, three)
  {
    var q: Round<E> := Round([], []);
    NoEffects<E>();
    assert Logged<E>([]) == [] && Behind<E>([]) == [] && Busy<E>(0, []);
    hide *;
    RoundsCons(q, [], [], [], 1);
    RoundsCons(q, [q] + [], [], [], 2);
    RoundsCons(q, [q] + ([q] + []), [], [], 3);
  }

  lemma WovenStep<E>(x: E, behind: seq<E>, log: seq<E>, applied: seq<seq<E>>, woven: seq<E>)
    requires |applied| == |log| && Woven(log, applied) == woven
    ensures Woven([x] + log, [behind] + applied) == [x] + behind + woven
  {
    hide Woven;
    WovenCons(x, behind, log, applied);
  }

  lemma FailureWoven<E>(c: E, s: E, x: E, f: E, a: E)
    ensures Woven([c, s, x, f, a, s], [[s], [], [f, a, s], [], [], []]) == [c, s, s, x, f, a, s, f, a, s]
  {
    var e: seq<E> := [];
    assert Woven<E>([], []) == [];
    hide Woven;
    WovenStep(s, e, [], [], []);
    assert [s] + [] == [s] && [e] + [] == [e] && [s] + e + [] == [s];
    WovenStep(a, e, [s], [e], [s]);
    assert [a] + [s] == [a, s] && [e] + [e] == [e, e] && [a] + e + [s] == [a, s];
    WovenStep(f, e, [a, s], [e, e], [a, s]);
    assert [f] + [a, s] == [f, a, s] && [e] + [e, e] == [e, e, e] && [f] + e + [a, s] == [f, a, s];
    FailureWovenOn(c, s, x, f, a);
  }

  lemma FailureWovenOn<E>(c: E, s: E, x: E, f: E, a: E)
    requires Woven([f, a, s], [[], [], []]) == [f, a, s]
    ensures Woven([c, s, x, f, a, s], [[s], [], [f, a, s], [], [], []]) == [c, s, s, x, f, a, s, f, a, s]
  {
    var e: seq<E>, l: seq<E> := [], [f, a, s];
    hide Woven;
    WovenStep(x, l, [f, a, s], [e, e, e], [f, a, s]);
    assert [x] + [f, a, s] == [x, f, a, s] && [l] + [e, e, e] == [l, e, e, e];
    assert [x] + l + [f, a, s] == [x, f, a, s, f, a, s];
    WovenStep(s, e, [x, f, a, s], [l, e, e, e], [x, f, a, s, f, a, s]);
    assert [s] + [x, f, a, s] == [s, x, f, a, s] && [e] + [l, e, e, e] == [e, l, e, e, e];
    assert [s] + e + [x, f, a, s, f, a, s] == [s, x, f, a, s, f, a, s];
    WovenStep(c, [s], [s, x, f, a, s], [e, l, e, e, e], [s, x, f, a, s, f, a, s]);
    assert [c] + [s, x, f, a, s] == [c, s, x, f, a, s] && [[s]] + [e, l, e, e, e] == [[s], e, l, e, e, e];
  }
}
