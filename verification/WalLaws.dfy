/** What the log promises on any file, damaged or not (crates/storage/src/wal.rs), and where it
    promises less than it seems to. */
module WalLaws {
  import opened Wal

  predicate Unread<E>(line: Line<E>, processed: nat) { line.Entry? && line.num > processed }

  lemma {:induction false} RepairedReadable<E>(lines: seq<Line<E>>)
    ensures Readable(Repaired(lines)) == Repaired(lines)
    ensures Records(Repaired(lines)) == Records(Readable(lines))
  {
    if |Readable(lines)| == |lines| {
      assert Readable(lines) == lines;
    } else {
      ReadableOfRecords(Readable(lines));
      RecordsTwice(Readable(lines));
    }
  }

  lemma {:induction false} RecordsTwice<E>(lines: seq<Line<E>>)
    ensures Records(Records(lines)) == Records(lines)
  {
    if lines != [] {
      RecordsTwice(lines[1..]);
      var rest := Records(lines[1..]);
      assert lines[0].Entry? ==> ([lines[0]] + rest)[1..] == rest;
    }
  }

  // Opening again changes nothing.
  lemma OpenTwice<E>(lines: seq<Line<E>>, processed: nat)
    ensures Opened(Opened(lines, processed).lines, processed) == Opened(lines, processed)
  {
    RepairedReadable(lines);
  }

  // The cursor of an opened log is at the first entry above the mark, unless that is the very
  // first line of the file: byte offset 0 also stands for "not found".
  lemma OpenCursorIff<E>(lines: seq<Line<E>>, processed: nat)
    ensures var w := Opened(lines, processed);
            (w.readPos == FirstAbove(w.lines, 0, processed) <==> w.lines == [] || !Unread(w.lines[0], processed))
  {
    var w := Opened(lines, processed);
    if w.lines != [] && !Unread(w.lines[0], processed) {
      FirstAboveIs(w.lines, 0, processed, w.readPos);
    }
  }

  // In that case the first line alone is passed over.
  lemma OpenPassesOver<E>(lines: seq<Line<E>>, processed: nat, i: nat)
    requires i < |Opened(lines, processed).lines| && Unread(Opened(lines, processed).lines[i], processed)
    ensures i < Opened(lines, processed).readPos <==> i == 0
  {
  }

  lemma {:induction false} MaxSeqBounds<E>(lines: seq<Line<E>>)
    ensures forall i :: 0 <= i < |lines| && lines[i].Entry? ==> lines[i].num <= MaxSeq(lines)
    ensures MaxSeq(lines) == 0 || exists i :: 0 <= i < |lines| && lines[i].Entry? && lines[i].num == MaxSeq(lines)
  {
    if lines != [] {
      var rest := lines[1..];
      MaxSeqBounds(rest);
      assert forall i :: 1 <= i < |lines| ==> lines[i] == rest[i - 1];
      assert forall i :: 0 <= i < |rest| ==> rest[i] == lines[i + 1];
    }
  }

  // The number given to the next event is new in the file ...
  lemma NextNumberIsNew<E>(lines: seq<Line<E>>, processed: nat, e: E, i: nat)
    requires i < |Opened(lines, processed).lines| && Opened(lines, processed).lines[i].Entry?
    ensures Opened(lines, processed).lines[i].num < Appended(Opened(lines, processed), e).writeSeq
  {
    var w := Opened(lines, processed);
    MaxSeqBounds(w.lines);
  }

  // ... but it lies above the snapshot's number exactly when some readable entry reaches that
  // number; otherwise the event is numbered as if it had been processed, and replay drops it.
  lemma NextNumberAboveSnapshotIff<E>(lines: seq<Line<E>>, processed: nat, e: E)
    ensures var w := Opened(lines, processed); var n := Appended(w, e);
            && (n.writeSeq > processed <==>
                  processed == 0 || exists i :: 0 <= i < |w.lines| && w.lines[i].Entry? && w.lines[i].num >= processed)
            && (n.writeSeq <= processed ==> Above(n.buffer, processed, false) == [])
  {
    var w := Opened(lines, processed);
    MaxSeqBounds(w.lines);
    if w.writeSeq < processed {
      assert Above([Entry(w.writeSeq + 1, e)], processed, false)
          == Above([Entry(w.writeSeq + 1, e)][1..], processed, false);
    }
  }

  // ------------------------------------------------------------ durability

  lemma {:induction false} ReadableAppend<E>(a: seq<Line<E>>, b: seq<Line<E>>)
    requires Readable(a) == a
    ensures Readable(a + b) == a + Readable(b)
  {
    if a == [] {
      assert a + b == b;
    } else {
      var first, rest := a[0], a[1..];
      assert Readable(rest) == rest && !first.Bad();
      assert (a + b)[0] == first && (a + b)[1..] == rest + b;
      ReadableAppend(rest, b);
      assert Readable(a + b) == [first] + Readable(rest + b);
      hide Readable;
      assert [first] + (rest + Readable(b)) == a + Readable(b);
    }
  }

  // What a flush could write survives reopening; what it could not is gone, from memory too.
  lemma FlushedSurvives<E>(w: Log<E>, budget: nat, processed: nat)
    requires Readable(w.lines) == w.lines && Readable(w.buffer) == w.buffer
    ensures var n := Flushed(w, budget);
            && Opened(n.lines, processed).lines == w.lines + w.buffer[..Min(budget, |w.buffer|)]
            && n.buffer == []
  {
    var written := w.buffer[..Min(budget, |w.buffer|)];
    PrefixReadable(w.buffer, Min(budget, |w.buffer|));
    ReadableAppend(w.lines, written);
  }

  lemma {:induction false} PrefixReadable<E>(lines: seq<Line<E>>, n: nat)
    requires Readable(lines) == lines && n <= |lines|
    ensures Readable(lines[..n]) == lines[..n]
  {
    if n > 0 {
      assert Readable(lines[1..]) == lines[1..];
      PrefixReadable(lines[1..], n - 1);
      assert lines[..n][1..] == lines[1..][..n - 1];
    }
  }

  // ----------------------------------------------------- damage in mid-file

  lemma {:induction false} AboveKeepsAll<E>(lines: seq<Line<E>>, num: nat, i: nat)
    requires i < |lines| && lines[i].Entry? && lines[i].num >= num
    ensures lines[i] in Above(lines, num, true)
  {
    if i > 0 { AboveKeepsAll(lines[1..], num, i - 1); }
  }

  lemma {:induction false} AboveIsFrom<E>(lines: seq<Line<E>>, num: nat, orEqual: bool)
    ensures forall l :: l in Above(lines, num, orEqual) ==> l in lines
  {
    if lines != [] { AboveIsFrom(lines[1..], num, orEqual); }
  }

  // Truncation keeps an entry it was asked to keep exactly when a copy stands before the first
  // line that does not parse: everything behind such a line goes, marked or not.
  lemma TruncateKeepsIff<E>(w: Log<E>, num: nat, i: nat)
    requires i < |w.lines| && w.lines[i].Entry? && w.lines[i].num >= num
    ensures w.lines[i] in Truncated(w, num).lines <==> w.lines[i] in Readable(w.lines)
  {
    var clean := Readable(w.lines);
    AboveIsFrom(clean, num, true);
    if w.lines[i] in clean {
      var j :| 0 <= j < |clean| && clean[j] == w.lines[i];
      AboveKeepsAll(clean, num, j);
    }
  }

  // Reader, writer and checkpoint steps; a budget is how many lines the disk accepts.
  datatype Step<!E> =
    | Write(event: E)
    | Flush(budget: nat)
    | Next(budget: nat)
    | Mark(num: nat)
    | Truncate(num: nat, budget: nat)

  function Do<E>(w: Log<E>, s: Step<E>): Log<E> {
    match s
    case Write(e) => Appended(w, e)
    case Flush(budget) => Flushed(w, budget)
    case Next(budget) => if budget < |w.buffer| then Flushed(w, budget) else Advanced(Flushed(w, budget))
    case Mark(num) => w.(processedSeq := num)
    case Truncate(num, budget) =>
      if budget < |w.buffer| then Flushed(w, budget) else Truncated(Flushed(w, budget), num)
  }

  function DoAll<E>(w: Log<E>, steps: seq<Step<E>>): Log<E> {
    if steps == [] then w else Do(DoAll(w, steps[..|steps| - 1]), steps[|steps| - 1])
  }

  predicate Stuck<E>(w: Log<E>) {
    w.readPos < |w.lines| && (w.lines[w.readPos].Blank? || w.lines[w.readPos].BadUtf8?)
  }

  // A line that is blank or not UTF-8 stops the reader until the log is truncated: whatever is
  // written behind it, reading finds nothing. A line that is merely not JSON is stepped over.
  lemma {:induction false} StuckReader<E>(w: Log<E>, steps: seq<Step<E>>)
    requires Stuck(w) && forall i :: 0 <= i < |steps| ==> !steps[i].Truncate?
    ensures var n := DoAll(w, steps); Stuck(n) && n.readPos == w.readPos && AtCursor(n).Nothing? && w.lines <= n.lines
  {
    if steps != [] {
      var before := steps[..|steps| - 1];
      assert !steps[|steps| - 1].Truncate? && forall i :: 0 <= i < |before| ==> before[i] == steps[i];
      StuckReader(w, before);
    }
  }

  // What a truncation makes of it: nothing is left in the file that could stop a reader, and of the
  // unmarked entries it was asked to keep exactly those come up again that stand before the first
  // damaged line. So a blank line is dropped, and a line that is not UTF-8 is dropped together with
  // everything behind it.
  lemma TruncationFrees<E>(w: Log<E>, num: nat, unread: Line<E>)
    requires unread.Entry? && num <= unread.num && w.processedSeq < unread.num
    ensures var n := Truncated(w, num);
            && !Stuck(n) && (unread in n.lines[n.readPos..] <==> unread in Readable(w.lines))
            && (unread in Readable(w.lines) ==> AtCursor(n).Got?)
    ensures w.readPos < |w.lines| && w.lines[w.readPos].BadUtf8? ==> Readable(w.lines) <= w.lines[..w.readPos]
  {
    var n, clean := Truncated(w, num), Readable(w.lines);
    AboveIsFrom(clean, num, true);
    UnmarkedAhead(n.lines, w.processedSeq, unread);
    if unread in clean {
      var j :| 0 <= j < |clean| && clean[j] == unread;
      AboveKeepsAll(clean, num, j);
    }
    hide Above, FirstAbove;
    if w.readPos < |w.lines| && w.lines[w.readPos].BadUtf8? { assert |clean| <= w.readPos; }
  }

  // From the first unmarked entry on are all of them.
  lemma UnmarkedAhead<E>(lines: seq<Line<E>>, processed: nat, unread: Line<E>)
    requires unread.Entry? && processed < unread.num && forall i :: 0 <= i < |lines| ==> lines[i].Entry?
    ensures var from := FirstAbove(lines, 0, processed);
            && (unread in lines[from..] <==> unread in lines) && (unread in lines ==> from < |lines|)
  {
    var from := FirstAbove(lines, 0, processed);
    hide FirstAbove;
    if unread in lines {
      var i :| 0 <= i < |lines| && lines[i] == unread;
      assert from <= i && lines[from..][i - from] == unread;
    }
  }

  // The reader moves on exactly if an unmarked entry to be kept stands before the first damaged line.
  lemma FreedIff<E>(w: Log<E>, num: nat)
    ensures AtCursor(Truncated(w, num)).Got? <==>
              exists i :: 0 <= i < |Readable(w.lines)| && Readable(w.lines)[i].Entry?
                          && Readable(w.lines)[i].num >= num && Readable(w.lines)[i].num > w.processedSeq
  {
    var n, clean := Truncated(w, num), Readable(w.lines);
    AboveIsFrom(clean, num, true);
    if AtCursor(n).Got? {
      var got := n.lines[n.readPos];
      assert got in n.lines && got in clean;
      var i :| 0 <= i < |clean| && clean[i] == got;
    }
    if i :| 0 <= i < |clean| && clean[i].Entry? && clean[i].num >= num && clean[i].num > w.processedSeq {
      TruncationFrees(w, num, clean[i]);
    }
  }

  // ------------------------------------------------ a truncation that is undone

  lemma {:induction false} AboveAppend<E>(a: seq<Line<E>>, b: seq<Line<E>>, num: nat, orEqual: bool)
    ensures Above(a + b, num, orEqual) == Above(a, num, orEqual) + Above(b, num, orEqual)
  {
    if a == [] {
      assert a + b == b;
    } else {
      assert (a + b)[0] == a[0] && (a + b)[1..] == a[1..] + b;
      AboveAppend(a[1..], b, num, orEqual);
    }
  }

  lemma {:induction false} AboveTwice<E>(lines: seq<Line<E>>, num: nat)
    ensures Above(Above(lines, num, true), num, false) == Above(lines, num, false)
    ensures Readable(Above(lines, num, true)) == Above(lines, num, true)
  {
    if lines != [] {
      AboveTwice(lines[1..], num);
      var rest := Above(lines[1..], num, true);
      assert ([lines[0]] + rest)[1..] == rest;
    }
  }

  // The directory is not synced behind the rename that ends a truncation, so a power failure may bring
  // the old file back. Above the number truncated at, recovery then finds what it would have found, but
  // for the entries flushed since: nothing is lost exactly if none of those lies above that number.
  lemma RenameUndone<E>(w: Log<E>, num: nat, since: seq<Line<E>>)
    requires Readable(since) == since
    ensures var survived := Above(Readable(Truncated(w, num).lines + since), num, false);
            var undone := Above(Readable(w.lines), num, false);
            && survived == undone + Above(since, num, false)
            && (survived == undone <==> forall i :: 0 <= i < |since| && since[i].Entry? ==> since[i].num <= num)
  {
    var kept := Above(Readable(w.lines), num, true);
    AboveTwice(Readable(w.lines), num);
    ReadableAppend(kept, since);
    AboveAppend(kept, since, num, false);
    NoneAbove(since, num);
    hide Above, Readable;
  }

  lemma {:induction false} NoneAbove<E>(lines: seq<Line<E>>, num: nat)
    ensures Above(lines, num, false) == [] <==> forall i :: 0 <= i < |lines| && lines[i].Entry? ==> lines[i].num <= num
  {
    if lines != [] {
      NoneAbove(lines[1..], num);
      assert forall i :: 1 <= i < |lines| ==> lines[i] == lines[1..][i - 1];
      assert forall i :: 0 <= i < |lines[1..]| ==> lines[1..][i] == lines[i + 1];
    }
  }

  // Otherwise reading gives every record from the cursor on, in order: `calls` calls at a budget
  // that suffices return the records among the next `calls` lines.
  function ReadOut<E>(w: Log<E>, calls: nat): (Log<E>, seq<Line<E>>)
    decreases calls
  {
    if calls == 0 then (w, [])
    else
      var f := Sync(w);
      var got := match AtCursor(f) case Got(num, e) => [Entry(num, e)] case _ => [];
      var rest := ReadOut(Advanced(f), calls - 1);
      (rest.0, got + rest.1)
  }

  lemma {:induction false} ReadsEverything<E>(w: Log<E>, calls: nat)
    requires var all := w.lines + w.buffer;
             && w.readPos + calls <= |all|
             && forall i :: w.readPos <= i < w.readPos + calls ==> all[i].Entry? || all[i].BadJson?
    ensures ReadOut(w, calls).1 == Records((w.lines + w.buffer)[w.readPos..w.readPos + calls])
    ensures ReadOut(w, calls).0.readPos == w.readPos + calls
    decreases calls
  {
    var all := w.lines + w.buffer;
    if calls > 0 {
      var f := Sync(w);
      assert f.lines == all && f.buffer == [];
      var n := Advanced(f);
      assert n.lines + n.buffer == all;
      ReadsEverything(n, calls - 1);
      assert all[w.readPos..w.readPos + calls][1..] == all[w.readPos + 1..w.readPos + calls];
    }
  }
}
