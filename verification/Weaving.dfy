/** A log whose entries are applied one by one, with other events applied behind each of them: when that
    amounts to the log. */
module Weaving {
  import opened Collapse

  // Behind entry `i` come the events `applied[i]`.
  function Woven<E>(log: seq<E>, applied: seq<seq<E>>): seq<E>
    requires |applied| == |log|
  {
    if log == [] then []
    else
      var n := |log| - 1;
      Woven(log[..n], applied[..n]) + [log[n]] + applied[n]
  }

  lemma {:induction false} WovenCons<E>(x: E, behind: seq<E>, log: seq<E>, applied: seq<seq<E>>)
    requires |applied| == |log|
    ensures Woven([x] + log, [behind] + applied) == [x] + behind + Woven(log, applied)
  {
    var n := |log|;
    var longer, all := [x] + log, [behind] + applied;
    if n == 0 {
      assert longer[..0] == [] && all[..0] == [];
    } else {
      WovenCons(x, behind, log[..n - 1], applied[..n - 1]);
      assert longer[..n] == [x] + log[..n - 1] && all[..n] == [behind] + applied[..n - 1];
    }
  }

  predicate FitsAt<E(==)>(log: seq<E>, applied: seq<seq<E>>, i: nat)
    requires i < |log| == |applied|
  {
    Fits(applied[i], log[i], log[i + 1..])
  }

  predicate AllFit<E(==)>(log: seq<E>, applied: seq<seq<E>>)
    requires |applied| == |log|
  {
    forall i :: 0 <= i < |log| ==> FitsAt(log, applied, i)
  }

  // Up to the last entry, without what is applied behind that.
  predicate FitsBefore<E(==)>(log: seq<E>, applied: seq<seq<E>>)
    requires |applied| == |log|
  {
    forall i :: 0 <= i < |log| - 1 ==> FitsAt(log, applied, i)
  }

  predicate EndsAs<E(==)>(a: seq<E>, b: seq<E>) {
    a != [] && b != [] && a[|a| - 1] == b[|b| - 1]
  }

  // Once there is a difference it stays: both end alike, and one has more in it.
  ghost predicate Ahead<E>(a: seq<E>, b: seq<E>) {
    EndsAs(a, b) && |Distilled(a)| > |Distilled(b)|
  }

  // What is put before an event makes no difference, or the result longer.
  lemma PutLengthens<E>(a: seq<E>, put: seq<E>, y: E)
    requires a != []
    ensures Distilled(a + put + [y]) == Distilled(a + [y]) || |Distilled(a + put + [y])| > |Distilled(a + [y])|
  {
    SameIffRepeats(a, put);
    OneBehind(a, y);
    Grows(a + put, y);
    DistilledSnoc(a + put, y);
    hide Distilled;
    if Repeats(a, put) {
      DistilledAppend(a + put, a, [y]);
    } else {
      hide Repeats;
      LongPrefix(Distilled(a), Distilled(a + put), Distilled(a + put + [y]), y);
    }
  }

  lemma LongPrefix<E>(done: seq<E>, more: seq<E>, long: seq<E>, y: E)
    requires done <= more && done != more && long == Distil(more, y) && done != []
    ensures |long| > |done| && (|long| > |Distil(done, y)| || long == Distil(done, y))
  {
  }

  lemma PutBefore<E>(a: seq<E>, b: seq<E>, put: seq<E>, y: E)
    requires EndsAs(a, b)
    ensures Distilled(a) == Distilled(b) && Bridges(put, b[|b| - 1], y) ==>
              Distilled(a + put + [y]) == Distilled(b + [y])
    ensures (Distilled(a) == Distilled(b) && !Bridges(put, b[|b| - 1], y)) || Ahead(a, b) ==>
              Ahead(a + put + [y], b + [y])
  {
    InsertBefore(a, put, y);
    PutLengthens(a, put, y);
    hide Distilled, Bridges;
    if Distilled(a) == Distilled(b) { DistilledAppend(a, b, [y]); }
    if Ahead(a, b) { var end := SameTail(a, b, a[|a| - 1], [y]); }
  }

  // What is applied up to the last entry amounts to the log exactly if it fits there, or it runs ahead.
  lemma {:induction false} CoreIff<E>(log: seq<E>, applied: seq<seq<E>>)
    requires |applied| == |log| > 0
    ensures var n := |log| - 1;
            var core := Woven(log[..n], applied[..n]) + [log[n]];
            && EndsAs(core, log)
            && (FitsBefore(log, applied) ==> Distilled(core) == Distilled(log))
            && (!FitsBefore(log, applied) ==> Ahead(core, log))
  {
    var n := |log| - 1;
    if n == 0 {
      assert Woven(log[..0], applied[..0]) + [log[0]] == log;
    } else {
      var init, behind := log[..n], applied[..n];
      CoreIff(init, behind);
      var core := Woven(init[..n - 1], behind[..n - 1]) + [init[n - 1]];
      assert Woven(init, behind) == core + behind[n - 1];
      PutBefore(core, init, behind[n - 1], log[n]);
      assert init + [log[n]] == log;
      FitsLater(log, applied);
      hide Distilled, Woven, FitsBefore, Bridges;
    }
  }

  lemma FitsLater<E>(log: seq<E>, applied: seq<seq<E>>)
    requires |applied| == |log| > 1
    ensures var n := |log| - 1;
            FitsBefore(log, applied) <==>
              FitsBefore(log[..n], applied[..n]) && Bridges(applied[n - 1], log[n - 1], log[n])
  {
    var n := |log| - 1;
    forall i | 0 <= i < n - 1 ensures FitsAt(log, applied, i) == FitsAt(log[..n], applied[..n], i) {
      assert log[i + 1..][0] == log[..n][i + 1..][0];
    }
    assert log[n..] == [log[n]] && FitsAt(log, applied, n - 1) == Bridges(applied[n - 1], log[n - 1], log[n]);
    hide FitsAt, Bridges;
  }

  // The whole of it amounts to the log exactly if everything fits where it is applied.
  lemma WovenIff<E>(log: seq<E>, applied: seq<seq<E>>)
    requires |applied| == |log|
    ensures Distilled(Woven(log, applied)) == Distilled(log) <==> AllFit(log, applied)
  {
    if log != [] {
      var n := |log| - 1;
      CoreIff(log, applied);
      var core := Woven(log[..n], applied[..n]) + [log[n]];
      SameIffRepeats(core, applied[n]);
      LastFits(log, applied);
      hide Distilled, Bridges, FitsBefore, AllFit;
      assert Repeats(core, applied[n]) <==> AllAre(applied[n], log[n]);
    }
  }

  lemma LastFits<E>(log: seq<E>, applied: seq<seq<E>>)
    requires |applied| == |log| > 0
    ensures var n := |log| - 1; AllFit(log, applied) <==> FitsBefore(log, applied) && AllAre(applied[n], log[n])
  {
    assert FitsAt(log, applied, |log| - 1) <==> AllAre(applied[|log| - 1], log[|log| - 1]);
  }
}
