/** Log rotation by renaming (crates/daemon/src/main.rs:466-487, crates/engine/src/usage_metrics.rs:396-417). */
module Rotation {
  // File 0 is the log, file k its k-th rotation.
  type Directory<T> = map<nat, T>

  const MAX_ROTATED: nat := 3

  // Renaming replaces what was there; without a source it does nothing.
  function Renamed<T>(d: Directory<T>, from: nat, to: nat): Directory<T> {
    if from !in d then d else (d - {from})[to := d[from]]
  }

  // Whether file `k` exists after a rotation, and which file it was before.
  predicate HasAfter<T>(d: Directory<T>, k: nat) {
    if k == 0 then false
    else if k < MAX_ROTATED then k - 1 in d
    else if k == MAX_ROTATED then k - 1 in d || k in d
    else k in d
  }

  function Before<T>(d: Directory<T>, k: nat): nat {
    if 0 < k <= MAX_ROTATED && k - 1 in d then k - 1 else k
  }

  // What rotation makes of a directory: every file moves up by one. The oldest is lost, unless
  // there is nothing to take its place.
  function Shifted<T>(d: Directory<T>): Directory<T> {
    map k | k in d.Keys + (set i | i in d :: i + 1) && HasAfter(d, k) :: d[Before(d, k)]
  }

  class Logs<T> {
    var files: Directory<T>

    constructor (initial: Directory<T>)
      ensures files == initial
    {
      files := initial;
    }

    method Rename(from: nat, to: nat)
      modifies this
      ensures files == Renamed(old(files), from, to)
    {
      if from in files {
        files := (files - {from})[to := files[from]];
      }
    }

    method Rotate()
      modifies this
      ensures files == Shifted(old(files))
    {
      var i := MAX_ROTATED - 1;
      while i >= 1
        invariant 0 <= i < MAX_ROTATED
        invariant files == MovedAbove(old(files), i + 1)
        decreases i
      {
        MoveOne(old(files), i);
        Rename(i, i + 1);
        i := i - 1;
      }
      MoveOne(old(files), 0);
      Rename(0, 1);
      MovedAll(old(files));
    }
  }

  // The directory after the renames of the files `n .. MAX_ROTATED - 1`, oldest first.
  function MovedAbove<T>(d: Directory<T>, n: nat): Directory<T>
    decreases MAX_ROTATED - n
  {
    if n >= MAX_ROTATED then d else Renamed(MovedAbove(d, n + 1), n, n + 1)
  }

  lemma MoveOne<T>(d: Directory<T>, i: nat)
    requires i < MAX_ROTATED
    ensures MovedAbove(d, i) == Renamed(MovedAbove(d, i + 1), i, i + 1)
  {
  }

  lemma MovedAll<T>(d: Directory<T>)
    ensures MovedAbove(d, 0) == Shifted(d)
  {
  }

  // The rotations hold the latest contents of `history`, newest first.
  predicate Keeps<T(==)>(d: Directory<T>, history: seq<T>) {
    forall k :: 1 <= k <= MAX_ROTATED ==>
      (k in d <==> k <= |history|) && (k in d && k <= |history| ==> d[k] == history[|history| - k])
  }

  // Rotating keeps the log's content as the newest one and gives up the oldest only when all
  // places are taken.
  lemma RotationKeepsLatest<T>(d: Directory<T>, history: seq<T>)
    requires 0 in d && Keeps(d, history)
    ensures Keeps(Shifted(d), history + [d[0]]) && 0 !in Shifted(d)
  {
    var e, later := Shifted(d), history + [d[0]];
    forall k | 1 <= k <= MAX_ROTATED
      ensures (k in e <==> k <= |later|) && (k in e && k <= |later| ==> e[k] == later[|later| - k])
    {
      if k - 1 in d { assert k - 1 + 1 in set i | i in d :: i + 1; }
    }
  }
}
