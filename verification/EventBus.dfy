/** The event bus as the object the senders and the reader share (crates/daemon/src/event_bus.rs).
    Its calls are the steps of the protocol in module Protocol. */
module EventBus {
  import opened Wal
  import opened ProtocolInvariant

  datatype Outcome<+E> = Delivered(num: nat, event: E) | Blocked | Failed

  // What a receive does to the log and the wake channel, if the disk accepts `budget` lines: it
  // flushes and looks at the log, and as long as it finds nothing it takes a token and looks again.
  function Received<E>(log: Log<E>, token: bool, budget: nat): (Log<E>, bool, Outcome<E>)
    decreases token
  {
    var flushed := Flushed(log, budget);
    if budget < |log.buffer| then (flushed, token, Failed)
    else match AtCursor(flushed)
      case Got(num, event) => (Advanced(flushed), token, Delivered(num, event))
      case _ => if token then Received(Advanced(flushed), false, budget) else (Advanced(flushed), false, Blocked)
  }

  class Bus<E> {
    const wal: Wal<E>
    var token: bool

    constructor (log: Wal<E>)
      ensures wal == log && !token
    {
      wal, token := log, false;
    }

    // Appends, then wakes the reader unless a token is waiting already.
    method Send(e: E) returns (num: nat)
      modifies this, wal
      ensures wal.Value() == Appended(old(wal.Value()), e) && num == wal.writeSeq
      ensures token
    {
      num := wal.Append(e);
      if !token {
        token := true;
      }
    }

    method Recv(budget: nat) returns (r: Outcome<E>)
      modifies this, wal
      ensures (wal.Value(), token, r) == Received(old(wal.Value()), old(token), budget)
    {
      while true
        invariant Received(wal.Value(), token, budget) == Received(old(wal.Value()), old(token), budget)
        decreases token
      {
        var entry := wal.NextUnprocessed(budget);
        match entry {
          case Got(num, event) => return Delivered(num, event);
          case IoError => return Failed;
          case Nothing =>
        }
        if !token {
          return Blocked;
        }
        token := false;
      }
    }

    method MarkProcessed(num: nat)
      modifies wal
      ensures wal.Value() == old(wal.Value()).(processedSeq := num)
    {
      wal.MarkProcessed(num);
    }
  }

  // On a sound log a receive fails exactly if the disk does not take what is buffered; else it blocks
  // exactly if everything sent was delivered, and otherwise delivers the next event and leaves the
  // token for the next call.
  lemma BlocksIff<E>(log: Log<E>, history: seq<E>, token: bool, budget: nat)
    requires LogOk(log, history)
    ensures var r, cursor := Received(log, token, budget), Cursor(log, history);
            && (r.2.Failed? <==> budget < |log.buffer|)
            && (r.2.Blocked? <==> |log.buffer| <= budget && cursor == |history| + 1)
            && (r.2.Delivered? ==> 1 <= cursor <= |history| && r.2 == Delivered(cursor, history[cursor - 1])
                                   && r.1 == token && Cursor(r.0, history) == cursor + 1)
    decreases token
  {
    if |log.buffer| <= budget {
      SyncLog(log, history);
      var f := Sync(log);
      assert f == Flushed(log, budget);
      assert Cursor(f, history) <= |history| + 1;
      if f.readPos < |f.lines| {
        EntryAtCursor(f, history);
      } else {
        assert Advanced(f) == f;
        if token { BlocksIff(f, history, false, budget); }
      }
    }
  }
}
