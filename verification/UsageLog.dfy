/** Incremental reading of session logs (crates/engine/src/usage_metrics.rs:72-193, 251-314). What a
    line says is a parameter: the JSON in it is not part of this model. */
module UsageLog {
  import opened Wrappers

  type Byte = b: nat | b < 256

  const NEWLINE: Byte := 10

  type File = seq<Byte>

  datatype Deltas = Deltas(input: nat, output: nat, cacheCreation: nat, cacheRead: nat, model: Option<string>)

  const ZERO := Deltas(0, 0, 0, 0, None)

  function Plus(a: Deltas, b: Deltas): Deltas {
    Deltas(a.input + b.input, a.output + b.output, a.cacheCreation + b.cacheCreation, a.cacheRead + b.cacheRead,
           if b.model.Some? then b.model else a.model)
  }

  // A complete line is no text at all, or counts something (ZERO, if it is not a usage record).
  datatype Meaning = NotText | Counts(deltas: Deltas)

  type Reading = File -> Meaning

  // Where the line that starts at `from` ends, behind its newline; `from` if it is not complete.
  function LineEnd(s: File, from: nat): (n: nat)
    requires from <= |s|
    ensures from <= n <= |s|
    ensures n > from ==> s[n - 1] == NEWLINE && forall i :: from <= i < n - 1 ==> s[i] != NEWLINE
    ensures n == from ==> forall i :: from <= i < |s| ==> s[i] != NEWLINE
    decreases |s| - from
  {
    if from == |s| then from
    else if s[from] == NEWLINE then from + 1
    else
      var n := LineEnd(s, from + 1);
      if n == from + 1 then from else n
  }

  // One pass over the complete lines from `from` on, up to one that is not text: what they count,
  // and where the last of them ends.
  function Scan(s: File, from: nat, read: Reading): (r: (Deltas, nat))
    requires from <= |s|
    ensures from <= r.1 <= |s|
    decreases |s| - from
  {
    var n := LineEnd(s, from);
    if n == from then (ZERO, from)
    else
      match read(s[from..n])
      case NotText => (ZERO, from)
      case Counts(d) =>
        var rest := Scan(s, n, read);
        (Plus(d, rest.0), rest.1)
  }

  function ScanFrom(file: Option<File>, offset: nat, read: Reading): (Deltas, nat) {
    if file.None? || offset > |file.value| then (ZERO, offset) else Scan(file.value, offset, read)
  }

  lemma PlusAssociative(a: Deltas, b: Deltas, c: Deltas)
    ensures Plus(Plus(a, b), c) == Plus(a, Plus(b, c)) && Plus(a, ZERO) == a && Plus(ZERO, a) == a
  {
  }

  // The source's loop. A file that cannot be opened, and an offset behind its end, read nothing.
  method ParseSessionUsage(file: Option<File>, offset: nat, read: Reading) returns (deltas: Deltas, end: nat)
    ensures (deltas, end) == ScanFrom(file, offset, read)
  {
    if file.None? || offset > |file.value| {
      return ZERO, offset;
    }
    var s := file.value;
    hide Plus;
    deltas, end := ZERO, offset;
    PlusAssociative(Scan(s, offset, read).0, ZERO, ZERO);
    while true
      invariant offset <= end <= |s|
      invariant Scan(s, offset, read) == (Plus(deltas, Scan(s, end, read).0), Scan(s, end, read).1)
      decreases |s| - end
    {
      var n := LineEnd(s, end);
      PlusAssociative(deltas, ZERO, ZERO);
      if n == end {
        break;
      }
      var meaning := read(s[end..n]);
      if meaning.NotText? {
        break;
      }
      PlusAssociative(deltas, meaning.deltas, Scan(s, n, read).0);
      deltas := Plus(deltas, meaning.deltas);
      end := n;
    }
  }

  // ------------------------------------------------------------- incremental is one-shot

  lemma {:induction false} LineEndGrows(s: File, t: File, from: nat)
    requires s <= t && from <= |s| && LineEnd(s, from) > from
    ensures LineEnd(t, from) == LineEnd(s, from) && t[from..LineEnd(s, from)] == s[from..LineEnd(s, from)]
    decreases |s| - from
  {
    if s[from] != NEWLINE { LineEndGrows(s, t, from + 1); }
  }

  // Resuming where an earlier scan stopped, on the grown file, completes it.
  lemma {:induction false} ScanResumes(s: File, t: File, from: nat, read: Reading)
    requires s <= t && from <= |s|
    ensures var first := Scan(s, from, read); var rest := Scan(t, first.1, read);
            Scan(t, from, read) == (Plus(first.0, rest.0), rest.1)
    decreases |s| - from
  {
    hide Plus;
    var n := LineEnd(s, from);
    if n > from && read(s[from..n]).Counts? {
      LineEndGrows(s, t, from);
      ScanResumes(s, t, n, read);
      PlusAssociative(read(s[from..n]).deltas, Scan(s, n, read).0, Scan(t, Scan(s, n, read).1, read).0);
    } else {
      PlusAssociative(Scan(t, from, read).0, ZERO, ZERO);
    }
  }

  // One session: totals so far and where to resume.
  datatype Session = Session(offset: nat, totals: Deltas)

  const FRESH := Session(0, ZERO)

  function Fed(s: Session, file: Option<File>, read: Reading): Session {
    var r := ScanFrom(file, s.offset, read);
    Session(r.1, Plus(s.totals, r.0))
  }

  function FedAll(files: seq<Option<File>>, read: Reading): Session {
    if files == [] then FRESH else Fed(FedAll(files[..|files| - 1], read), files[|files| - 1], read)
  }

  // The file as last seen; empty before it was there.
  function LastSeen(files: seq<Option<File>>): File {
    if files == [] then []
    else if files[|files| - 1].Some? then files[|files| - 1].value
    else LastSeen(files[..|files| - 1])
  }

  // The log only grows, though it may be out of reach at times.
  predicate Growing(files: seq<Option<File>>)
    decreases |files|
  {
    files == [] || (Growing(files[..|files| - 1]) && LastSeen(files[..|files| - 1]) <= LastSeen(files))
  }

  // Whatever the schedule of reads on a growing log: the totals are those of one pass over the log
  // as last seen, and the offset is where that pass ends.
  lemma {:induction false} IncrementalIsOneShot(files: seq<Option<File>>, read: Reading)
    requires Growing(files)
    ensures var one := Scan(LastSeen(files), 0, read); FedAll(files, read) == Session(one.1, one.0)
    decreases |files|
  {
    hide Plus;
    if files != [] {
      hide Scan;
      var before := files[..|files| - 1];
      IncrementalIsOneShot(before, read);
      ScanResumes(LastSeen(before), LastSeen(files), 0, read);
      PlusAssociative(FedAll(before, read).totals, ZERO, ZERO);
    }
  }

  // ------------------------------------------------------------- which lines count

  // The complete lines from `from` on, as the pairs of their ends.
  function Lines(s: File, from: nat): (r: seq<(nat, nat)>)
    requires from <= |s|
    ensures forall i :: 0 <= i < |r| ==> from <= r[i].0 < r[i].1 <= |s|
    decreases |s| - from
  {
    var n := LineEnd(s, from);
    if n == from then [] else [(from, n)] + Lines(s, n)
  }

  predicate IsText(s: File, line: (nat, nat), read: Reading)
    requires line.0 <= line.1 <= |s|
  {
    read(s[line.0..line.1]).Counts?
  }

  // What the first `k` lines count.
  function Sum(s: File, lines: seq<(nat, nat)>, k: nat, read: Reading): Deltas
    requires k <= |lines| && forall i :: 0 <= i < |lines| ==> lines[i].0 <= lines[i].1 <= |s|
    requires forall i :: 0 <= i < k ==> IsText(s, lines[i], read)
  {
    if k == 0 then ZERO
    else
      assert IsText(s, lines[0], read);
      Plus(read(s[lines[0].0..lines[0].1]).deltas, Sum(s, lines[1..], k - 1, read))
  }

  // How many lines come before the first that is not text.
  function TextLines(s: File, lines: seq<(nat, nat)>, read: Reading): (n: nat)
    requires forall i :: 0 <= i < |lines| ==> lines[i].0 <= lines[i].1 <= |s|
    ensures n <= |lines|
    ensures forall i :: 0 <= i < n ==> IsText(s, lines[i], read)
    ensures n < |lines| ==> !IsText(s, lines[n], read)
  {
    if lines == [] || !IsText(s, lines[0], read) then 0 else 1 + TextLines(s, lines[1..], read)
  }

  // The scan counts each complete line before the first that is not text once, and no other; it
  // ends behind the last line counted.
  lemma {:induction false} ScanCounts(s: File, from: nat, read: Reading)
    requires from <= |s|
    ensures var lines := Lines(s, from); var k := TextLines(s, lines, read);
            Scan(s, from, read) == (Sum(s, lines, k, read), if k == 0 then from else lines[k - 1].1)
    decreases |s| - from
  {
    var n := LineEnd(s, from);
    if n > from && read(s[from..n]).Counts? {
      ScanCounts(s, n, read);
      assert Lines(s, from) == [(from, n)] + Lines(s, n);
      hide Plus, LineEnd, Scan, Lines;
      CountFirst(s, (from, n), Lines(s, n), read);
      assert Scan(s, from, read) == (Plus(read(s[from..n]).deltas, Scan(s, n, read).0), Scan(s, n, read).1) by {
        ScanFirst(s, from, read);
      }
    } else {
      hide Plus, LineEnd;
    }
  }

  lemma ScanFirst(s: File, from: nat, read: Reading)
    requires from <= |s| && LineEnd(s, from) > from && read(s[from..LineEnd(s, from)]).Counts?
    ensures var n := LineEnd(s, from);
            Scan(s, from, read) == (Plus(read(s[from..n]).deltas, Scan(s, n, read).0), Scan(s, n, read).1)
  {
    hide Plus, LineEnd;
  }

  lemma CountFirst(s: File, first: (nat, nat), rest: seq<(nat, nat)>, read: Reading)
    requires first.0 <= first.1 <= |s| && forall i :: 0 <= i < |rest| ==> rest[i].0 <= rest[i].1 <= |s|
    requires IsText(s, first, read)
    ensures var lines, k := [first] + rest, TextLines(s, rest, read);
            && TextLines(s, lines, read) == k + 1
            && Sum(s, lines, k + 1, read) == Plus(read(s[first.0..first.1]).deltas, Sum(s, rest, k, read))
  {
    var lines := [first] + rest;
    assert lines[0] == first && lines[1..] == rest;
    hide Plus;
  }

  // ------------------------------------------------------------- plain sums

  // What the lines count that come before the first that is not text, line by line.
  function CountedOf(s: File, lines: seq<(nat, nat)>, read: Reading): (r: seq<Deltas>)
    requires forall i :: 0 <= i < |lines| ==> lines[i].0 <= lines[i].1 <= |s|
    ensures |r| == TextLines(s, lines, read)
    ensures forall i :: 0 <= i < |r| ==> read(s[lines[i].0..lines[i].1]) == Counts(r[i])
  {
    seq(TextLines(s, lines, read), i requires 0 <= i < TextLines(s, lines, read) =>
      assert IsText(s, lines[i], read);
      read(s[lines[i].0..lines[i].1]).deltas)
  }

  function Counted(s: File, from: nat, read: Reading): seq<Deltas>
    requires from <= |s|
  {
    CountedOf(s, Lines(s, from), read)
  }

  function Total(ns: seq<nat>): nat { if ns == [] then 0 else ns[0] + Total(ns[1..]) }

  function Each(counted: seq<Deltas>, count: Deltas -> nat): seq<nat> {
    seq(|counted|, i requires 0 <= i < |counted| => count(counted[i]))
  }

  predicate Unnamed(counted: seq<Deltas>, from: nat) {
    forall j :: from <= j < |counted| ==> counted[j].model.None?
  }

  // The model named last, if any line names one.
  predicate NamedLast(model: Option<string>, counted: seq<Deltas>) {
    if model.None? then Unnamed(counted, 0)
    else exists i :: 0 <= i < |counted| && counted[i].model == model && Unnamed(counted, i + 1)
  }

  // Count by count the deltas are the sums over the lines, and the model is the last one named.
  predicate AddsUp(d: Deltas, counted: seq<Deltas>) {
    && d.input == Total(Each(counted, (c: Deltas) => c.input))
    && d.output == Total(Each(counted, (c: Deltas) => c.output))
    && d.cacheCreation == Total(Each(counted, (c: Deltas) => c.cacheCreation))
    && d.cacheRead == Total(Each(counted, (c: Deltas) => c.cacheRead))
    && NamedLast(d.model, counted)
  }

  lemma TotalFirst(first: Deltas, rest: seq<Deltas>, count: Deltas -> nat)
    ensures Total(Each([first] + rest, count)) == count(first) + Total(Each(rest, count))
  {
    assert Each([first] + rest, count)[1..] == Each(rest, count);
  }

  lemma NamedFirst(first: Deltas, rest: seq<Deltas>, model: Option<string>)
    requires NamedLast(model, rest)
    ensures NamedLast(if model.Some? then model else first.model, [first] + rest)
  {
    var all := [first] + rest;
    if model.Some? {
      var i :| 0 <= i < |rest| && rest[i].model == model && Unnamed(rest, i + 1);
      UnnamedFirst(first, rest, i + 1);
      hide Unnamed;
      assert all[i + 1].model == model;
    } else {
      UnnamedFirst(first, rest, 0);
      if first.model.Some? {
        hide Unnamed;
        assert all[0].model == first.model;
      }
    }
  }

  lemma UnnamedFirst(first: Deltas, rest: seq<Deltas>, from: nat)
    ensures Unnamed([first] + rest, from + 1) <==> Unnamed(rest, from)
  {
    var all := [first] + rest;
    assert forall i :: 0 <= i < |rest| ==> all[i + 1] == rest[i];
    assert forall j :: 0 < j < |all| ==> all[j] == rest[j - 1];
  }

  lemma AddsFirst(first: Deltas, rest: seq<Deltas>, d: Deltas)
    requires AddsUp(d, rest)
    ensures AddsUp(Plus(first, d), [first] + rest)
  {
    TotalFirst(first, rest, (c: Deltas) => c.input);
    TotalFirst(first, rest, (c: Deltas) => c.output);
    TotalFirst(first, rest, (c: Deltas) => c.cacheCreation);
    TotalFirst(first, rest, (c: Deltas) => c.cacheRead);
    NamedFirst(first, rest, d.model);
    hide NamedLast, Total, Each;
  }

  lemma CountedFirst(s: File, from: nat, read: Reading)
    requires from <= |s|
    ensures var n := LineEnd(s, from);
            Counted(s, from, read)
            == if n > from && read(s[from..n]).Counts? then [read(s[from..n]).deltas] + Counted(s, n, read) else []
  {
    var n := LineEnd(s, from);
    LinesFirst(s, from);
    hide LineEnd, Lines, CountedOf;
    if n > from { CountedLine(s, (from, n), Lines(s, n), read); }
  }

  lemma CountedLine(s: File, first: (nat, nat), rest: seq<(nat, nat)>, read: Reading)
    requires first.0 <= first.1 <= |s| && forall i :: 0 <= i < |rest| ==> rest[i].0 <= rest[i].1 <= |s|
    ensures CountedOf(s, [first] + rest, read)
         == match read(s[first.0..first.1]) case NotText => [] case Counts(d) => [d] + CountedOf(s, rest, read)
  {
    var lines := [first] + rest;
    if IsText(s, first, read) {
      CountFirst(s, first, rest, read);
      var one, more := CountedOf(s, lines, read), CountedOf(s, rest, read);
      assert |one| == |more| + 1;
      hide *;
      CountedAt(s, lines, read, 0);
      forall i | 0 < i < |one| ensures one[i] == more[i - 1] {
        CountedAt(s, lines, read, i);
        CountedAt(s, rest, read, i - 1);
        assert lines[i] == rest[i - 1];
      }
      assert read(s[first.0..first.1]) == Counts(one[0]);
    } else {
      assert TextLines(s, lines, read) == 0;
      hide CountedOf, TextLines;
    }
  }

  lemma CountedAt(s: File, lines: seq<(nat, nat)>, read: Reading, i: nat)
    requires forall i :: 0 <= i < |lines| ==> lines[i].0 <= lines[i].1 <= |s|
    requires i < |CountedOf(s, lines, read)|
    ensures i < |lines| && read(s[lines[i].0..lines[i].1]) == Counts(CountedOf(s, lines, read)[i])
  {
    hide CountedOf, TextLines;
  }

  lemma LinesFirst(s: File, from: nat)
    requires from <= |s|
    ensures var n := LineEnd(s, from); Lines(s, from) == if n == from then [] else [(from, n)] + Lines(s, n)
  {
    hide LineEnd;
  }

  // What a scan counts are the sums over the lines before the first that is not text.
  lemma {:induction false} ScanTotals(s: File, from: nat, read: Reading)
    requires from <= |s|
    ensures AddsUp(Scan(s, from, read).0, Counted(s, from, read))
    decreases |s| - from
  {
    var n := LineEnd(s, from);
    CountedFirst(s, from, read);
    if n > from && read(s[from..n]).Counts? {
      ScanTotals(s, n, read);
      ScanFirst(s, from, read);
      hide *;
      AddsFirst(read(s[from..n]).deltas, Counted(s, n, read), Scan(s, n, read).0);
    } else {
      hide Counted, LineEnd;
    }
  }

  // Whatever the schedule of reads on a growing log, the totals are those sums over the log as last seen.
  lemma ReadsTotal(files: seq<Option<File>>, read: Reading)
    requires Growing(files)
    ensures AddsUp(FedAll(files, read).totals, Counted(LastSeen(files), 0, read))
  {
    IncrementalIsOneShot(files, read);
    ScanTotals(LastSeen(files), 0, read);
  }

  lemma {:induction false} ScanEndsLine(s: File, from: nat, read: Reading)
    requires from <= |s| && (from == 0 || s[from - 1] == NEWLINE)
    ensures var end := Scan(s, from, read).1; end == 0 || s[end - 1] == NEWLINE
    decreases |s| - from
  {
    var n := LineEnd(s, from);
    if n > from { ScanEndsLine(s, n, read); }
  }

  // The offset stands behind a newline, or at the start.
  lemma OffsetEndsLine(files: seq<Option<File>>, read: Reading)
    requires Growing(files)
    ensures var end, s := FedAll(files, read).offset, LastSeen(files); end <= |s| && (end == 0 || s[end - 1] == NEWLINE)
  {
    IncrementalIsOneShot(files, read);
    ScanEndsLine(LastSeen(files), 0, read);
  }

  lemma {:induction false} ScanStops(s: File, from: nat, read: Reading)
    requires from <= |s|
    ensures var end := Scan(s, from, read).1; LineEnd(s, end) > end ==> read(s[end..LineEnd(s, end)]).NotText?
    decreases |s| - from
  {
    hide Plus;
    var n := LineEnd(s, from);
    if n > from && read(s[from..n]).Counts? { ScanStops(s, n, read); }
  }

  // Complete lines are left behind the offset exactly if the first of them is not text; and then,
  // however the log grows, nothing is counted any more.
  lemma LeftBehindIff(s: File, t: File, read: Reading)
    requires s <= t
    ensures var end := Scan(s, 0, read).1; var n := LineEnd(s, end);
            && ((exists i :: end <= i < |s| && s[i] == NEWLINE) <==> n > end && read(s[end..n]).NotText?)
            && (n > end ==> Scan(t, 0, read) == Scan(s, 0, read))
  {
    var end := Scan(s, 0, read).1;
    ScanStops(s, 0, read);
    ScanResumes(s, t, 0, read);
    if LineEnd(s, end) > end {
      LineEndGrows(s, t, end);
      assert s[LineEnd(s, end) - 1] == NEWLINE;
      assert Scan(t, end, read) == (ZERO, end);
      PlusAssociative(Scan(s, 0, read).0, ZERO, ZERO);
    }
  }

  // ------------------------------------------------------------- the collector

  class Collector {
    var sessions: map<string, Session>

    constructor ()
      ensures sessions == map[]
    {
      sessions := map[];
    }

    // One cycle over the agents whose session logs were found.
    method CollectOnce(logs: seq<(string, Option<File>)>, read: Reading)
      modifies this
      ensures sessions == CollectAll(old(sessions), logs, read)
    {
      for i := 0 to |logs|
        invariant sessions == CollectAll(old(sessions), logs[..i], read)
      {
        var id, file := logs[i].0, logs[i].1;
        assert logs[..i + 1][..i] == logs[..i];
        var session := if id in sessions then sessions[id] else FRESH;
        var deltas, end := ParseSessionUsage(file, session.offset, read);
        sessions := sessions[id := Session(end, Plus(session.totals, deltas))];
      }
      assert logs[..|logs|] == logs;
    }
  }

  function CollectAll(sessions: map<string, Session>, logs: seq<(string, Option<File>)>, read: Reading)
    : map<string, Session>
  {
    if logs == [] then sessions
    else
      var before := CollectAll(sessions, logs[..|logs| - 1], read);
      var last := logs[|logs| - 1];
      before[last.0 := Fed(if last.0 in before then before[last.0] else FRESH, last.1, read)]
  }

  // A cycle feeds each session its own log once, and leaves the others alone.
  lemma {:induction false} CollectsEach(sessions: map<string, Session>, logs: seq<(string, Option<File>)>,
                                        read: Reading, id: string)
    requires forall i, j :: 0 <= i < j < |logs| ==> logs[i].0 != logs[j].0
    ensures var after := CollectAll(sessions, logs, read);
            && (forall i :: 0 <= i < |logs| && logs[i].0 == id ==>
                  id in after && after[id] == Fed(if id in sessions then sessions[id] else FRESH, logs[i].1, read))
            && ((forall i :: 0 <= i < |logs| ==> logs[i].0 != id) ==>
                  (id in after <==> id in sessions) && (id in after ==> after[id] == sessions[id]))
  {
    if logs != [] {
      var before := logs[..|logs| - 1];
      CollectsEach(sessions, before, read, id);
      CollectsEach(sessions, before, read, logs[|logs| - 1].0);
      assert forall i :: 0 <= i < |before| ==> before[i] == logs[i];
    }
  }

  // Cycle after cycle, from the start.
  function Cycles(cycles: seq<seq<(string, Option<File>)>>, read: Reading): map<string, Session> {
    if cycles == [] then map[]
    else CollectAll(Cycles(cycles[..|cycles| - 1], read), cycles[|cycles| - 1], read)
  }

  // What was found of one session, if anything, and over the cycles, in order.
  function FoundLog(logs: seq<(string, Option<File>)>, id: string): seq<Option<File>> {
    if logs == [] then []
    else if logs[|logs| - 1].0 == id then [logs[|logs| - 1].1]
    else FoundLog(logs[..|logs| - 1], id)
  }

  function FoundLogs(cycles: seq<seq<(string, Option<File>)>>, id: string): seq<Option<File>> {
    if cycles == [] then [] else FoundLogs(cycles[..|cycles| - 1], id) + FoundLog(cycles[|cycles| - 1], id)
  }

  predicate OncePerCycle(cycles: seq<seq<(string, Option<File>)>>) {
    forall k :: 0 <= k < |cycles| ==> forall i, j :: 0 <= i < j < |cycles[k]| ==> cycles[k][i].0 != cycles[k][j].0
  }

  lemma {:induction false} FoundIs(logs: seq<(string, Option<File>)>, id: string)
    requires forall i, j :: 0 <= i < j < |logs| ==> logs[i].0 != logs[j].0
    ensures var found := FoundLog(logs, id);
            && (found == [] <==> forall i :: 0 <= i < |logs| ==> logs[i].0 != id)
            && (forall i :: 0 <= i < |logs| && logs[i].0 == id ==> found == [logs[i].1])
  {
    if logs != [] { FoundIs(logs[..|logs| - 1], id); }
  }

  // Over any cycles a session is fed its own logs as they were found, one after the other.
  lemma {:induction false} CyclesFeed(cycles: seq<seq<(string, Option<File>)>>, read: Reading, id: string)
    requires OncePerCycle(cycles)
    ensures var sessions, found := Cycles(cycles, read), FoundLogs(cycles, id);
            (id in sessions <==> found != []) && (id in sessions ==> sessions[id] == FedAll(found, read))
  {
    if cycles != [] {
      var before, logs := cycles[..|cycles| - 1], cycles[|cycles| - 1];
      assert OncePerCycle(before);
      CyclesFeed(before, read, id);
      CollectsEach(Cycles(before, read), logs, read, id);
      FoundIs(logs, id);
      hide CollectAll, Fed, FoundLog;
      if FoundLog(logs, id) == [] {
        assert FoundLogs(cycles, id) == FoundLogs(before, id);
      } else {
        var i :| 0 <= i < |logs| && logs[i].0 == id;
        FedSnoc(FoundLogs(before, id), logs[i].1, read);
      }
    }
  }

  lemma FedSnoc(files: seq<Option<File>>, file: Option<File>, read: Reading)
    ensures FedAll(files + [file], read) == Fed(FedAll(files, read), file, read)
    ensures FedAll([], read) == FRESH
  {
    assert (files + [file])[..|files|] == files;
    hide Fed;
  }

  // So the collector's totals are the sums over the session's log as last seen.
  lemma CollectedTotal(cycles: seq<seq<(string, Option<File>)>>, read: Reading, id: string)
    requires OncePerCycle(cycles) && Growing(FoundLogs(cycles, id)) && id in Cycles(cycles, read)
    ensures AddsUp(Cycles(cycles, read)[id].totals, Counted(LastSeen(FoundLogs(cycles, id)), 0, read))
  {
    hide *;
    CyclesFeed(cycles, read, id);
    ReadsTotal(FoundLogs(cycles, id), read);
  }
}
