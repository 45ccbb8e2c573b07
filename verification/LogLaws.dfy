/** The log's functions on a file that holds consecutively numbered entries. */
module LogLaws {
  import opened Wal
  import opened Protocol

  // `lines` are the entries numbered from `lo` on, carrying those events of `history`.
  ghost predicate Numbered<E>(lines: seq<Line<E>>, lo: nat, history: seq<E>) {
    1 <= lo && lo - 1 + |lines| <= |history|
    && forall i :: 0 <= i < |lines| ==> lines[i] == Entry(lo + i, history[lo + i - 1])
  }

  // The entries numbered above `a`, up to `b`.
  function Slice<E>(history: seq<E>, a: nat, b: nat): (r: seq<Line<E>>)
    requires a <= b <= |history|
    ensures |r| == b - a
    ensures forall i :: 0 <= i < |r| ==> r[i] == Entry(a + i + 1, history[a + i])
  {
    seq(b - a, i requires 0 <= i < b - a => Entry(a + i + 1, history[a + i]))
  }

  lemma {:induction false} NumberedReadable<E>(lines: seq<Line<E>>, lo: nat, history: seq<E>)
    requires Numbered(lines, lo, history)
    ensures Readable(lines) == lines && Records(lines) == lines
  {
    if lines != [] {
      assert Numbered(lines[1..], lo + 1, history);
      NumberedReadable(lines[1..], lo + 1, history);
    }
  }

  lemma {:induction false} NumberedMax<E>(lines: seq<Line<E>>, lo: nat, history: seq<E>)
    requires Numbered(lines, lo, history)
    ensures MaxSeq(lines) == if lines == [] then 0 else lo - 1 + |lines|
  {
    if lines != [] {
      assert Numbered(lines[1..], lo + 1, history);
      NumberedMax(lines[1..], lo + 1, history);
    }
  }

  lemma {:induction false} NumberedAbove<E>(lines: seq<Line<E>>, lo: nat, history: seq<E>, num: nat)
    requires Numbered(lines, lo, history) && lo <= num + 1 <= lo + |lines|
    ensures Above(lines, num, false) == lines[num + 1 - lo..]
  {
    if lines != [] {
      assert Numbered(lines[1..], lo + 1, history);
      if num + 1 == lo {
        NumberedAll(lines, lo, history, num, false);
      } else {
        NumberedAbove(lines[1..], lo + 1, history, num);
      }
    }
  }

  lemma {:induction false} NumberedAll<E>(lines: seq<Line<E>>, lo: nat, history: seq<E>, num: nat, orEqual: bool)
    requires Numbered(lines, lo, history) && (num < lo || (orEqual && num == lo))
    ensures Above(lines, num, orEqual) == lines
  {
    if lines != [] {
      assert Numbered(lines[1..], lo + 1, history);
      NumberedAll(lines[1..], lo + 1, history, num, orEqual);
    }
  }

  lemma {:induction false} NumberedFrom<E>(lines: seq<Line<E>>, lo: nat, history: seq<E>, num: nat)
    requires Numbered(lines, lo, history) && lo <= num <= lo + |lines|
    ensures Above(lines, num, true) == lines[num - lo..]
  {
    if lines != [] {
      assert Numbered(lines[1..], lo + 1, history);
      if num == lo {
        NumberedAll(lines, lo, history, num, true);
      } else {
        NumberedFrom(lines[1..], lo + 1, history, num);
      }
    }
  }

  lemma NumberedFirst<E>(lines: seq<Line<E>>, lo: nat, history: seq<E>, from: nat, num: nat)
    requires Numbered(lines, lo, history) && from <= |lines| && num <= lo - 1 + |lines|
    ensures FirstAbove(lines, from, num) == if num + 1 <= lo + from then from else num + 1 - lo
  {
    FirstAboveIs(lines, from, num, if num + 1 <= lo + from then from else num + 1 - lo);
  }

  lemma NumberedSync<E>(lines: seq<Line<E>>, more: seq<Line<E>>, lo: nat, history: seq<E>)
    requires Numbered(lines, lo, history) && Numbered(more, lo + |lines|, history)
    ensures Numbered(lines + more, lo, history)
  {
  }

  // A torn last line is dropped when the log is opened, and nothing else is.
  lemma {:induction false} TornReadable<E>(lines: seq<Line<E>>, lo: nat, history: seq<E>)
    requires Numbered(lines, lo, history)
    ensures Readable(lines + [BadJson]) == lines
  {
    if lines == [] {
      assert lines + [BadJson] == [BadJson];
    } else {
      assert Numbered(lines[1..], lo + 1, history);
      assert (lines + [BadJson])[1..] == lines[1..] + [BadJson];
      TornReadable(lines[1..], lo + 1, history);
    }
  }

  lemma NumberedOpened<E>(lines: seq<Line<E>>, lo: nat, history: seq<E>, torn: bool, num: nat)
    requires Numbered(lines, lo, history) && lo <= num + 1 && num <= lo - 1 + |lines|
    requires num == 0 || lo <= num
    requires |lines| == 0 ==> lo == 1
    ensures var w := Opened(TornFile(lines, torn), num);
            && w.lines == lines && w.writeSeq == lo - 1 + |lines| && w.processedSeq == num && w.buffer == []
            && w.readPos == if |lines| == 0 then 0 else if num == 0 then 1 else num + 1 - lo
  {
    NumberedReadable(lines, lo, history);
    if torn { TornReadable(lines, lo, history); }
    NumberedMax(lines, lo, history);
    if lines != [] { NumberedFirst(lines, lo, history, 1, num); }
  }
}
