/** The write-ahead log (crates/storage/src/wal.rs). A file is a sequence of complete lines; a
    byte offset at a line start is modelled by the index of that line, so offset 0 is index 0.
    `budget` counts the lines the disk accepts before a write fails. */
module Wal {

  datatype Line<+E> =
    | Entry(num: nat, event: E)
    | Blank
    | BadJson
    | BadUtf8
  {
    predicate Bad() { BadJson? || BadUtf8? }
  }

  datatype Log<+E> = Log(
    lines: seq<Line<E>>, writeSeq: nat, processedSeq: nat, buffer: seq<Line<E>>, readPos: nat)

  datatype Read<+E> = IoError | Nothing | Got(num: nat, event: E)

  // ------------------------------------------------------ specification

  // The lines before the first one that does not parse.
  function Readable<E>(lines: seq<Line<E>>): (r: seq<Line<E>>)
    ensures r <= lines
    ensures forall i :: 0 <= i < |r| ==> !r[i].Bad()
    ensures |r| < |lines| ==> lines[|r|].Bad()
  {
    if lines == [] || lines[0].Bad() then [] else [lines[0]] + Readable(lines[1..])
  }

  function Records<E>(lines: seq<Line<E>>): (r: seq<Line<E>>)
    ensures |r| <= |lines|
    ensures forall i :: 0 <= i < |r| ==> r[i].Entry?
  {
    if lines == [] then []
    else if lines[0].Entry? then [lines[0]] + Records(lines[1..])
    else Records(lines[1..])
  }

  // The records numbered above (or, with `orEqual`, from) `num`.
  function Above<E>(lines: seq<Line<E>>, num: nat, orEqual: bool): (r: seq<Line<E>>)
    ensures |r| <= |lines|
    ensures forall i :: 0 <= i < |r| ==> r[i].Entry? && r[i].num >= num && (orEqual || r[i].num > num)
  {
    if lines == [] then []
    else if lines[0].Entry? && (lines[0].num > num || (orEqual && lines[0].num == num))
    then [lines[0]] + Above(lines[1..], num, orEqual)
    else Above(lines[1..], num, orEqual)
  }

  function MaxSeq<E>(lines: seq<Line<E>>): nat {
    if lines == [] then 0
    else
      var rest := MaxSeq(lines[1..]);
      if lines[0].Entry? && lines[0].num > rest then lines[0].num else rest
  }

  // The index, from `from` on, of the first entry numbered above `num`; |lines| if there is none.
  function FirstAbove<E>(lines: seq<Line<E>>, from: nat, num: nat): (i: nat)
    requires from <= |lines|
    ensures from <= i <= |lines|
    ensures i < |lines| ==> lines[i].Entry? && lines[i].num > num
    ensures forall j :: from <= j < i ==> !(lines[j].Entry? && lines[j].num > num)
    decreases |lines| - from
  {
    if from == |lines| || (lines[from].Entry? && lines[from].num > num) then from
    else FirstAbove(lines, from + 1, num)
  }

  // Where the scan puts the cursor. Offset 0 doubles as "not found yet", so the first line is
  // never chosen.
  function ScanCursor<E>(lines: seq<Line<E>>, processed: nat): nat {
    if lines == [] then 0 else FirstAbove(lines, 1, processed)
  }

  function Repaired<E>(lines: seq<Line<E>>): seq<Line<E>> {
    if |Readable(lines)| == |lines| then lines else Records(Readable(lines))
  }

  function Opened<E>(lines: seq<Line<E>>, processed: nat): Log<E> {
    var clean := Repaired(lines);
    Log(clean, MaxSeq(clean), processed, [], ScanCursor(clean, processed))
  }

  function Appended<E>(w: Log<E>, e: E): Log<E> {
    w.(writeSeq := w.writeSeq + 1, buffer := w.buffer + [Entry(w.writeSeq + 1, e)])
  }

  function Min(a: nat, b: nat): nat { if a < b then a else b }

  // A failed write drops what is still buffered.
  function Flushed<E>(w: Log<E>, budget: nat): Log<E> {
    w.(lines := w.lines + w.buffer[..Min(budget, |w.buffer|)], buffer := [])
  }

  // Everything buffered goes to disk.
  function Sync<E>(w: Log<E>): Log<E> { Flushed(w, |w.buffer|) }

  function Advanced<E>(w: Log<E>): Log<E> {
    if w.readPos < |w.lines| && (w.lines[w.readPos].Entry? || w.lines[w.readPos].BadJson?)
    then w.(readPos := w.readPos + 1) else w
  }

  function AtCursor<E>(w: Log<E>): Read<E> {
    if w.readPos < |w.lines| && w.lines[w.readPos].Entry?
    then Got(w.lines[w.readPos].num, w.lines[w.readPos].event) else Nothing
  }

  function Truncated<E>(w: Log<E>, num: nat): Log<E> {
    var kept := Above(Readable(w.lines), num, true);
    w.(lines := kept, readPos := FirstAbove(kept, 0, w.processedSeq))
  }

  // ------------------------------------------------------ implementation

  method Scan<E>(lines: seq<Line<E>>, processed: nat) returns (maxSeq: nat, readPos: nat, corrupt: bool)
    ensures corrupt <==> |Readable(lines)| < |lines|
    ensures maxSeq == MaxSeq(Readable(lines))
    ensures readPos == ScanCursor(Readable(lines), processed)
  {
    maxSeq, readPos, corrupt := 0, 0, false;
    var pos := 0;
    while pos < |lines|
      invariant 0 <= pos <= |lines|
      invariant forall i :: 0 <= i < pos ==> !lines[i].Bad()
      invariant maxSeq == MaxSeq(lines[..pos])
      invariant readPos != 0 ==> 1 <= readPos < pos && lines[readPos].Entry? && lines[readPos].num > processed
      invariant forall i :: 1 <= i < (if readPos == 0 then pos else readPos) ==>
                  !(lines[i].Entry? && lines[i].num > processed)
    {
      var line := lines[pos];
      if line.Bad() {
        corrupt := true;
        break;
      }
      MaxSeqSnoc(lines[..pos], line);
      assert lines[..pos + 1] == lines[..pos] + [line];
      if line.Entry? {
        maxSeq := if maxSeq > line.num then maxSeq else line.num;
        if line.num > processed && readPos == 0 {
          readPos := pos;
        }
      }
      pos := pos + 1;
    }
    ReadableWhile(lines, pos);
    assert Readable(lines) == lines[..pos];
    if readPos == 0 {
      readPos := pos;
    }
    if pos > 0 { FirstAboveIs(lines[..pos], 1, processed, readPos); }
  }

  lemma {:induction false} FirstAboveIs<E>(lines: seq<Line<E>>, from: nat, num: nat, i: nat)
    requires from <= i <= |lines|
    requires i < |lines| ==> lines[i].Entry? && lines[i].num > num
    requires forall j :: from <= j < i ==> !(lines[j].Entry? && lines[j].num > num)
    ensures FirstAbove(lines, from, num) == i
    decreases i - from
  {
    if from < i { FirstAboveIs(lines, from + 1, num, i); }
  }

  lemma {:induction false} ReadableWhile<E>(lines: seq<Line<E>>, n: nat)
    requires n <= |lines|
    requires forall i :: 0 <= i < n ==> !lines[i].Bad()
    ensures lines[..n] <= Readable(lines)
  {
    if n > 0 {
      ReadableWhile(lines[1..], n - 1);
      assert lines[..n] == [lines[0]] + lines[1..][..n - 1];
    }
  }

  lemma {:induction false} MaxSeqSnoc<E>(lines: seq<Line<E>>, last: Line<E>)
    ensures MaxSeq(lines + [last])
         == if last.Entry? && last.num > MaxSeq(lines) then last.num else MaxSeq(lines)
  {
    if lines != [] {
      MaxSeqSnoc(lines[1..], last);
      assert (lines + [last])[1..] == lines[1..] + [last];
    } else {
      assert (lines + [last])[1..] == [];
    }
  }

  // Collects what `Above(Readable(lines), num, orEqual)` lists, as the source's loops do.
  method Collect<E>(lines: seq<Line<E>>, num: nat, orEqual: bool) returns (kept: seq<Line<E>>)
    ensures kept == Above(Readable(lines), num, orEqual)
  {
    kept := [];
    var pos := 0;
    while pos < |lines| && !lines[pos].Bad()
      invariant 0 <= pos <= |lines|
      invariant forall i :: 0 <= i < pos ==> !lines[i].Bad()
      invariant kept == Above(lines[..pos], num, orEqual)
    {
      var line := lines[pos];
      AboveSnoc(lines[..pos], line, num, orEqual);
      assert lines[..pos + 1] == lines[..pos] + [line];
      if line.Entry? && (line.num > num || (orEqual && line.num == num)) {
        kept := kept + [line];
      }
      pos := pos + 1;
    }
    ReadableWhile(lines, pos);
    assert Readable(lines) == lines[..pos];
  }

  lemma {:induction false} AboveSnoc<E>(lines: seq<Line<E>>, last: Line<E>, num: nat, orEqual: bool)
    ensures Above(lines + [last], num, orEqual)
         == Above(lines, num, orEqual)
            + if last.Entry? && (last.num > num || (orEqual && last.num == num)) then [last] else []
  {
    if lines != [] {
      AboveSnoc(lines[1..], last, num, orEqual);
      assert (lines + [last])[1..] == lines[1..] + [last];
    } else {
      assert (lines + [last])[1..] == [];
    }
  }

  method ValidLines<E>(lines: seq<Line<E>>) returns (valid: seq<Line<E>>)
    ensures valid == Records(Readable(lines))
  {
    valid := [];
    var pos := 0;
    while pos < |lines| && !lines[pos].Bad()
      invariant 0 <= pos <= |lines|
      invariant forall i :: 0 <= i < pos ==> !lines[i].Bad()
      invariant valid == Records(lines[..pos])
    {
      RecordsAppend(lines[..pos], [lines[pos]]);
      assert lines[..pos + 1] == lines[..pos] + [lines[pos]];
      if lines[pos].Entry? {
        valid := valid + [lines[pos]];
      }
      pos := pos + 1;
    }
    ReadableWhile(lines, pos);
    assert Readable(lines) == lines[..pos];
  }

  lemma {:induction false} RecordsAppend<E>(a: seq<Line<E>>, b: seq<Line<E>>)
    ensures Records(a + b) == Records(a) + Records(b)
  {
    if a == [] {
      assert a + b == b;
    } else {
      assert (a + b)[1..] == a[1..] + b;
      RecordsAppend(a[1..], b);
    }
  }

  lemma {:induction false} ReadableOfRecords<E>(lines: seq<Line<E>>)
    ensures Readable(Records(lines)) == Records(lines)
  {
    if lines != [] {
      ReadableOfRecords(lines[1..]);
      var rest := Records(lines[1..]);
      assert lines[0].Entry? ==> ([lines[0]] + rest)[1..] == rest;
    }
  }

  class Wal<E> {
    var lines: seq<Line<E>>
    var writeSeq: nat
    var processedSeq: nat
    var buffer: seq<Line<E>>
    var readPos: nat

    function Value(): Log<E>
      reads this
    {
      Log(lines, writeSeq, processedSeq, buffer, readPos)
    }

    constructor Open(file: seq<Line<E>>, processed: nat)
      ensures Value() == Opened(file, processed)
    {
      var clean := file;
      var maxSeq, cursor, corrupt := Scan(file, processed);
      if corrupt {
        clean := ValidLines(file);
        ReadableOfRecords(Readable(file));
        maxSeq, cursor, corrupt := Scan(clean, processed);
      } else {
        assert Readable(file) == file;
      }
      lines, writeSeq, processedSeq, buffer, readPos := clean, maxSeq, processed, [], cursor;
    }

    method Append(e: E) returns (num: nat)
      modifies this
      ensures Value() == Appended(old(Value()), e) && num == writeSeq
    {
      writeSeq := writeSeq + 1;
      buffer := buffer + [Entry(writeSeq, e)];
      num := writeSeq;
    }

    method Flush(budget: nat) returns (ok: bool)
      modifies this
      ensures Value() == Flushed(old(Value()), budget)
      ensures ok <==> |old(buffer)| <= budget
    {
      var i := 0;
      while i < |buffer| && i < budget
        invariant 0 <= i <= Min(budget, |buffer|)
        invariant buffer == old(buffer) && unchanged(this`writeSeq) && unchanged(this`processedSeq)
        invariant unchanged(this`readPos)
        invariant lines == old(lines) + old(buffer)[..i]
      {
        lines := lines + [buffer[i]];
        i := i + 1;
      }
      ok := i == |buffer|;
      buffer := [];
    }

    method NextUnprocessed(budget: nat) returns (r: Read<E>)
      modifies this
      ensures var flushed := Flushed(old(Value()), budget);
              if budget < |old(buffer)| then r == IoError && Value() == flushed
              else r == AtCursor(flushed) && Value() == Advanced(flushed)
    {
      var ok := Flush(budget);
      if !ok {
        return IoError;
      }
      if readPos >= |lines| {
        return Nothing;
      }
      match lines[readPos]
      case BadUtf8 => r := Nothing;
      case Blank => r := Nothing;
      case BadJson => readPos := readPos + 1; r := Nothing;
      case Entry(num, event) => readPos := readPos + 1; r := Got(num, event);
    }

    method MarkProcessed(num: nat)
      modifies this`processedSeq
      ensures processedSeq == num
    {
      processedSeq := num;
    }

    method TruncateBefore(num: nat, budget: nat) returns (ok: bool)
      modifies this
      ensures var flushed := Flushed(old(Value()), budget);
              ok == (|old(buffer)| <= budget)
              && Value() == if ok then Truncated(flushed, num) else flushed
    {
      ok := Flush(budget);
      if !ok {
        return;
      }
      var kept := Collect(lines, num, true);
      var pos, found, cursor := 0, false, 0;
      while pos < |kept|
        invariant 0 <= pos <= |kept|
        invariant !found ==> forall i :: 0 <= i < pos ==> kept[i].num <= processedSeq
        invariant found ==> cursor < pos && kept[cursor].num > processedSeq
        invariant found ==> forall i :: 0 <= i < cursor ==> kept[i].num <= processedSeq
        invariant Value() == Flushed(old(Value()), budget)
      {
        if kept[pos].num > processedSeq && !found {
          cursor, found := pos, true;
        }
        pos := pos + 1;
      }
      lines := kept;
      readPos := if found then cursor else pos;
      FirstAboveIs(kept, 0, processedSeq, readPos);
    }

    // What recovery replays.
    method EntriesAfter(num: nat) returns (entries: seq<Line<E>>)
      ensures entries == Above(Readable(lines), num, false)
    {
      entries := Collect(lines, num, false);
    }
  }
}
