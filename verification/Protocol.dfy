/** The event bus, the engine loop, the checkpoint task and the crash/restart cycle as one
    interleaved transition system (crates/daemon/src/event_bus.rs, crates/daemon/src/main.rs,
    crates/daemon/src/lifecycle/mod.rs, crates/storage/src/checkpoint.rs). */
module Protocol {
  import opened Wrappers
  import opened Actions
  import opened Wal

  // How events act on the state, and what the runtime writes into it without one; `erase` forgets what
  // clock readings and such writes may change.
  datatype Model<!S, !E> = Model(apply: (S, E, nat) -> S, init: S, erase: S -> S, adjust: (S, Adjustment) -> S)

  // Where the engine loop is: about to ask the log, waiting for the wake channel, holding an
  // entry, or done handling it but not yet having marked it.
  datatype Reader<+E> = Checking | Waiting | Holding(num: nat, event: E) | Handled(num: nat)

  // `trace` lists the events that were applied to the state, in order, for stating properties.
  datatype Snapshot<+S, +E> = Snapshot(num: nat, state: S, trace: seq<E>)

  datatype Checkpoint<+S, +E> =
    | Idle
    | Captured(snap: Snapshot<S, E>)
    | Renamed(snap: Snapshot<S, E>)
    | Synced(num: nat)

  datatype World<S, E> = World(
    log: Log<E>,
    token: bool,                   // the wake channel, of capacity one
    pending: set<nat>,             // senders that appended and have not yet tried to wake
    reader: Reader<E>,
    state: S,
    checkpoint: Checkpoint<S, E>,
    snaps: seq<Option<Snapshot<S, E>>>, // what a crash may leave as the snapshot file; visible one last
    // What the run did, for stating properties:
    history: seq<E>,               // the events appended and not lost, in order
    base: nat,                     // the last entry this life does not deliver
    delivered: seq<nat>,           // the entries delivered in this life
    rewound: bool,                 // a truncation ran in this life while an unmarked entry was held
    applied: nat,                  // the last event sent that the state includes
    ahead: seq<E>,                 // and the events it includes that are yet to be sent
    trace: seq<E>)                 // the events applied to the state, in order

  datatype Action<!E> =
    | Send(sender: nat, event: E)
    | Wake(sender: nat)
    | Check
    | Receive
    | Cancel
    | Handle(now: nat)
    | Early(event: E, now: nat)    // the executor or a listener applies an event past the log
    | Adjust(how: Adjustment)       // the runtime writes to the state without an event
    | Mark
    | FlushLog
    | Capture
    | Rename
    | SyncDir
    | FailCheckpoint
    | Truncate
    | Crash(written: nat, torn: bool, pick: nat, clock: nat -> nat)

  function SnapNum<S, E>(s: Option<Snapshot<S, E>>): nat {
    if s.Some? then s.value.num else 0
  }

  function Replay<S, E>(m: Model<S, E>, s: S, entries: seq<Line<E>>, clock: nat -> nat): S
    requires forall i :: 0 <= i < |entries| ==> entries[i].Entry?
  {
    if entries == [] then s
    else
      var last := entries[|entries| - 1];
      m.apply(Replay(m, s, entries[..|entries| - 1], clock), last.event, clock(last.num))
  }

  // Whether truncating would move the cursor back over an entry.
  predicate Rewinds<E>(w: Log<E>) {
    exists i :: 0 <= i < w.readPos <= |w.lines| && w.lines[i].Entry? && w.lines[i].num > w.processedSeq
  }

  predicate Enabled<S, E>(w: World<S, E>, a: Action<E>) {
    match a
    case Send(sender, _) => sender !in w.pending
    case Wake(sender) => sender in w.pending
    case Check => w.reader.Checking?
    case Receive => w.reader.Waiting? && w.token
    case Cancel => w.reader.Waiting?
    case Handle(_) => w.reader.Holding?
    case Early(_, _) => true
    case Adjust(_) => true
    case Mark => w.reader.Handled?
    case FlushLog => true
    case Capture => w.checkpoint.Idle? && w.log.processedSeq > 0
    case Rename => w.checkpoint.Captured?
    case SyncDir => w.checkpoint.Renamed?
    case FailCheckpoint => w.checkpoint.Captured? || w.checkpoint.Renamed?
    case Truncate => w.checkpoint.Synced?
    case Crash(written, _, pick, _) => written <= |w.log.buffer| <= |w.history| && pick < |w.snaps|
  }

  // The number of the entry before the cursor, when the entries are numbered up to `writeSeq`.
  function BeforeCursor<E>(log: Log<E>): nat {
    if log.writeSeq + log.readPos >= |log.lines| then log.writeSeq + log.readPos - |log.lines| else 0
  }

  // A crash may leave a fragment of one more line.
  function TornFile<E>(lines: seq<Line<E>>, torn: bool): seq<Line<E>> {
    if torn then lines + [BadJson] else lines
  }

  // The events that entries carry.
  function Events<E>(entries: seq<Line<E>>): (r: seq<E>)
    requires forall i :: 0 <= i < |entries| ==> entries[i].Entry?
    ensures |r| == |entries| && forall i :: 0 <= i < |r| ==> r[i] == entries[i].event
  {
    seq(|entries|, i requires 0 <= i < |entries| => entries[i].event)
  }

  // A restart: load the snapshot, open the log (dropping a torn last line), replay what is above.
  function Restarted<S, E>(m: Model<S, E>, file: seq<Line<E>>, history: seq<E>, snap: Option<Snapshot<S, E>>,
                           clock: nat -> nat): World<S, E>
  {
    var log := Opened(file, SnapNum(snap));
    var start := if snap.Some? then snap.value.state else m.init;
    var done := if snap.Some? then snap.value.trace else [];
    var replayed := Above(Readable(log.lines), SnapNum(snap), false);
    World(log, false, {}, Checking, Replay(m, start, replayed, clock), Idle, [snap],
          history, BeforeCursor(log), [], false, log.writeSeq, [], done + Events(replayed))
  }

  // Whether applying `e` early brings the state to the next event that was sent.
  predicate ReachesNext<S, E(==)>(w: World<S, E>, e: E) {
    w.ahead == [] && w.applied < |w.history| && w.history[w.applied] == e
  }

  // Whether the event just applied early is about to be sent: it is new, and all that was sent is applied.
  predicate RunsAhead<S, E(==)>(w: World<S, E>, e: E) {
    w.applied == |w.history| && (w.trace == [] || w.trace[|w.trace| - 1] != e)
  }

  // Whether what is sent is what the state has ahead of the log.
  predicate CatchesUp<S, E(==)>(w: World<S, E>, e: E) {
    w.ahead != [] && w.ahead[0] == e
  }

  function Next<S, E(==)>(m: Model<S, E>, w: World<S, E>, a: Action<E>): World<S, E>
    requires Enabled(w, a)
  {
    match a
    case Send(sender, e) =>
      w.(log := Appended(w.log, e), pending := w.pending + {sender}, history := w.history + [e],
         applied := if CatchesUp(w, e) then w.applied + 1 else w.applied,
         ahead := if CatchesUp(w, e) then w.ahead[1..] else w.ahead)
    case Wake(sender) => w.(token := true, pending := w.pending - {sender})
    case Check =>
      var log := Sync(w.log);
      (match AtCursor(log)
       case Got(num, event) =>
         w.(log := Advanced(log), reader := Holding(num, event), delivered := w.delivered + [num])
       case Nothing => w.(log := Advanced(log), reader := Waiting)
       case IoError => w)
    case Receive => w.(token := false, reader := Checking)
    case Cancel => w.(reader := Checking)
    case Handle(now) =>
      w.(state := m.apply(w.state, w.reader.event, now), reader := Handled(w.reader.num),
         applied := if w.applied < w.reader.num then w.reader.num else w.applied, trace := w.trace + [w.reader.event])
    case Early(e, now) =>
      w.(state := m.apply(w.state, e, now), trace := w.trace + [e],
         applied := if ReachesNext(w, e) then w.applied + 1 else w.applied,
         ahead := if RunsAhead(w, e) then w.ahead + [e] else w.ahead)
    case Adjust(how) => w.(state := m.adjust(w.state, how))
    case Mark => w.(log := w.log.(processedSeq := w.reader.num), reader := Checking)
    case FlushLog => w.(log := Sync(w.log))
    case Capture => w.(checkpoint := Captured(Snapshot(w.log.processedSeq, w.state, w.trace)))
    case Rename => w.(checkpoint := Renamed(w.checkpoint.snap), snaps := w.snaps + [Some(w.checkpoint.snap)])
    case SyncDir => w.(checkpoint := Synced(w.checkpoint.snap.num), snaps := [Some(w.checkpoint.snap)])
    case FailCheckpoint => w.(checkpoint := Idle)
    case Truncate =>
      w.(log := Truncated(Sync(w.log), w.checkpoint.num), checkpoint := Idle,
         rewound := w.rewound || Rewinds(w.log))
    case Crash(written, torn, pick, clock) =>
      Restarted(m, TornFile(w.log.lines + w.log.buffer[..written], torn),
                w.history[..|w.history| - |w.log.buffer| + written],
                w.snaps[pick], clock)
  }

  // The first start: no snapshot, an empty log.
  function Start<S, E>(m: Model<S, E>): World<S, E> {
    World(Opened([], 0), false, {}, Checking, m.init, Idle, [None], [], 0, [], false, 0, [], [])
  }

  predicate Legal<S, E(==)>(m: Model<S, E>, w: World<S, E>, run: seq<Action<E>>)
    decreases |run|
  {
    run == [] || (Enabled(w, run[0]) && Legal(m, Next(m, w, run[0]), run[1..]))
  }

  function After<S, E(==)>(m: Model<S, E>, w: World<S, E>, run: seq<Action<E>>): World<S, E>
    requires Legal(m, w, run)
    decreases |run|
  {
    if run == [] then w else After(m, Next(m, w, run[0]), run[1..])
  }
}
