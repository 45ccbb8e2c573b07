/** Which orders of application every idempotent transition function takes for the same.
    Consecutive repetitions of an event are all that can be dropped. */
module Collapse {
  import opened Protocol

  // The reference: every event applied once, in order.
  function Fold<S, E>(m: Model<S, E>, events: seq<E>): S {
    if events == [] then m.init
    else m.apply(Fold(m, events[..|events| - 1]), events[|events| - 1], 0)
  }

  // Clock readings, and what the runtime writes without an event, change nothing but what `erase` forgets.
  ghost predicate Congruent<S(!new), E(!new)>(m: Model<S, E>) {
    && (forall s, e, now :: Forgets(m, s, e, now))
    && (forall s, how :: m.erase(m.adjust(s, how)) == m.erase(s))
  }

  predicate Forgets<S(==), E>(m: Model<S, E>, s: S, e: E, now: nat) {
    m.erase(m.apply(s, e, now)) == m.erase(m.apply(m.erase(s), e, 0))
  }

  // Applying an event twice in a row is applying it once.
  ghost predicate Idempotent<S(!new), E(!new)>(m: Model<S, E>) {
    forall s, e :: m.erase(m.apply(m.apply(s, e, 0), e, 0)) == m.erase(m.apply(s, e, 0))
  }

  // The events without consecutive repetitions.
  function Distilled<E(==)>(events: seq<E>): (r: seq<E>)
    ensures |r| <= |events|
    ensures events != [] ==> r != [] && r[|r| - 1] == events[|events| - 1]
  {
    if events == [] then []
    else Distil(Distilled(events[..|events| - 1]), events[|events| - 1])
  }

  function Distil<E(==)>(done: seq<E>, e: E): (r: seq<E>)
    ensures done <= r && r != [] && r[|r| - 1] == e
    ensures r == done <==> done != [] && done[|done| - 1] == e
  {
    if done != [] && done[|done| - 1] == e then done else done + [e]
  }

  predicate AllEqual<E(==)>(events: seq<E>) {
    forall i :: 0 <= i < |events| ==> events[i] == events[|events| - 1]
  }

  lemma DistilledSnoc<E>(events: seq<E>, e: E)
    ensures Distilled(events + [e]) == Distil(Distilled(events), e)
  {
    assert (events + [e])[..|events|] == events;
  }

  // What follows is distilled alike behind events that are.
  lemma {:induction false} DistilledAppend<E>(a: seq<E>, b: seq<E>, more: seq<E>)
    requires Distilled(a) == Distilled(b)
    ensures Distilled(a + more) == Distilled(b + more)
  {
    if more == [] {
      assert a + more == a && b + more == b;
    } else {
      var init, e := more[..|more| - 1], more[|more| - 1];
      DistilledAppend(a, b, init);
      assert a + more == a + init + [e] && b + more == b + init + [e];
      DistilledSnoc(a + init, e);
      DistilledSnoc(b + init, e);
    }
  }

  predicate Repeats<E(==)>(a: seq<E>, more: seq<E>) {
    forall i :: 0 <= i < |more| ==> a != [] && more[i] == a[|a| - 1]
  }

  lemma RepeatsSnoc<E>(a: seq<E>, more: seq<E>, e: E)
    ensures Repeats(a, more + [e]) <==> Repeats(a, more) && a != [] && e == a[|a| - 1]
  {
    assert (more + [e])[|more|] == e;
    assert forall i :: 0 <= i < |more| ==> (more + [e])[i] == more[i];
  }

  lemma LastOfRepeats<E>(a: seq<E>, more: seq<E>)
    requires Repeats(a, more) && a + more != []
    ensures a != [] && (a + more)[|a + more| - 1] == a[|a| - 1]
  {
  }

  predicate EndsIn<E(==)>(events: seq<E>, e: E) { events != [] && events[|events| - 1] == e }

  lemma Grows<E>(events: seq<E>, e: E)
    ensures |Distilled(events + [e])| == |Distilled(events)| + (if EndsIn(events, e) then 0 else 1)
    ensures EndsIn(events + [e], e)
  {
    DistilledSnoc(events, e);
    assert events == [] ==> Distilled(events) == [];
  }

  // Appending changes nothing exactly if all that is appended repeats the last event.
  lemma {:induction false} SameIffRepeats<E>(a: seq<E>, more: seq<E>)
    ensures Distilled(a) <= Distilled(a + more)
    ensures Distilled(a + more) == Distilled(a) <==> Repeats(a, more)
  {
    if more == [] {
      assert a + more == a;
    } else {
      var init, e := more[..|more| - 1], more[|more| - 1];
      SameIffRepeats(a, init);
      RepeatsSnoc(a, init, e);
      assert a + more == a + init + [e] && more == init + [e];
      hide *;
      SameSnoc(a, init, e);
    }
  }

  lemma SameSnoc<E>(a: seq<E>, init: seq<E>, e: E)
    requires Distilled(a) <= Distilled(a + init)
    requires Distilled(a + init) == Distilled(a) <==> Repeats(a, init)
    ensures Distilled(a) <= Distilled(a + init + [e])
    ensures Distilled(a + init + [e]) == Distilled(a) <==> Repeats(a, init) && a != [] && e == a[|a| - 1]
  {
    Grows(a + init, e);
    DistilledSnoc(a + init, e);
    hide Distilled, Repeats;
    if Repeats(a, init) && a + init != [] { LastOfRepeats(a, init); }
  }

  // Going through the last events once more is harmless exactly if they are all the same one.
  lemma RepeatIff<E>(before: seq<E>, again: seq<E>)
    ensures Distilled(before + again + again) == Distilled(before + again) <==> AllEqual(again)
  {
    SameIffRepeats(before + again, again);
    var a := before + again;
    if again != [] { assert a[|a| - 1] == again[|again| - 1]; }
  }

  lemma EndsAlike<E>(a: seq<E>, b: seq<E>, e: E, f: E)
    requires EndsIn(a, e) && EndsIn(b, e)
    ensures EndsIn(a, f) == EndsIn(b, f)
  {
  }

  // Behind the same last event the same events follow.
  lemma {:induction false} SameTail<E>(a: seq<E>, b: seq<E>, last: E, more: seq<E>) returns (end: E)
    requires EndsIn(a, last) && EndsIn(b, last)
    ensures |Distilled(a + more)| - |Distilled(a)| == |Distilled(b + more)| - |Distilled(b)|
    ensures EndsIn(a + more, end) && EndsIn(b + more, end)
  {
    hide Distilled, EndsIn;
    end := last;
    if more == [] {
      assert a + more == a && b + more == b;
    } else {
      var init, e := more[..|more| - 1], more[|more| - 1];
      var before := SameTail(a, b, last, init);
      assert a + more == a + init + [e] && b + more == b + init + [e];
      Grows(a + init, e);
      Grows(b + init, e);
      EndsAlike(a + init, b + init, before, e);
      end := e;
    }
  }

  // And so it is if more follows.
  lemma RepeatThenIff<E>(before: seq<E>, again: seq<E>, more: seq<E>)
    ensures Distilled(before + again + again + more) == Distilled(before + again + more) <==> AllEqual(again)
  {
    RepeatIff(before, again);
    var once, twice := before + again, before + again + again;
    if AllEqual(again) {
      DistilledAppend(twice, once, more);
    } else {
      assert EndsIn(once, again[|again| - 1]) && EndsIn(twice, again[|again| - 1]);
      var end := SameTail(twice, once, again[|again| - 1], more);
      SameIffRepeats(once, again);
    }
  }

  lemma OneByOne<E>(done: seq<E>, a: E, b: E, c: E)
    ensures done + [a] + [b] + [c] == done + [a, b, c]
  {
  }

  // Repetitions of `x` followed by repetitions of `y`.
  predicate Bridges<E(==)>(events: seq<E>, x: E, y: E) {
    AllAre(events, y) || (events[0] == x && Bridges(events[1..], x, y))
  }

  predicate AllAre<E(==)>(events: seq<E>, e: E) {
    forall i :: 0 <= i < |events| ==> events[i] == e
  }

  // What is put between an event and the next one changes nothing exactly if it bridges the two.
  lemma InsertIff<E>(a: seq<E>, put: seq<E>, more: seq<E>)
    requires a != [] && more != []
    ensures Distilled(a + put + more) == Distilled(a + more) <==> Bridges(put, a[|a| - 1], more[0])
  {
    var x, y, rest := a[|a| - 1], more[0], more[1..];
    var long, short := a + put + [y], a + [y];
    assert a + put + more == long + rest && a + more == short + rest && more == [y] + rest;
    InsertBefore(a, put, y);
    SameIffRepeats(long, rest);
    SameIffRepeats(short, rest);
    assert EndsIn(long, y) && EndsIn(short, y);
    var end := SameTail(long, short, y, rest);
    hide Distilled, Bridges;
    if Distilled(long) == Distilled(short) {
      DistilledAppend(long, short, rest);
    } else if |Distilled(long)| == |Distilled(short)| {
      PrefixesDiffer(Distilled(long), Distilled(short), Distilled(long + rest), Distilled(short + rest));
    }
  }

  lemma PrefixesDiffer<E>(a: seq<E>, b: seq<E>, longA: seq<E>, longB: seq<E>)
    requires a <= longA && b <= longB && |a| == |b| && a != b
    ensures longA != longB
  {
  }

  lemma {:induction false} InsertBefore<E>(a: seq<E>, put: seq<E>, y: E)
    requires a != []
    ensures Distilled(a + put + [y]) == Distilled(a + [y]) <==> Bridges(put, a[|a| - 1], y)
  {
    var x := a[|a| - 1];
    hide Distilled;
    if put == [] {
      assert a + put + [y] == a + [y];
    } else if put[0] == x {
      InsertBefore(a, put[1..], y);
      DropRepeated(a, put, y);
      assert AllAre(put, y) ==> AllAre(put[1..], y);
    } else {
      InsertOther(a, put, y);
    }
  }

  lemma DropRepeated<E>(a: seq<E>, put: seq<E>, y: E)
    requires a != [] && put != [] && put[0] == a[|a| - 1]
    ensures Distilled(a + put + [y]) == Distilled(a + put[1..] + [y])
  {
    var x, rest := put[0], put[1..];
    DistilledSnoc(a, x);
    hide *;
    DistilledAppend(a + [x], a, rest);
    assert put == [x] + rest;
    Associates(a, [x], rest);
    DistilledAppend(a + [x] + rest, a + rest, [y]);
  }

  lemma Associates<E>(a: seq<E>, b: seq<E>, c: seq<E>)
    ensures a + b + c == a + (b + c)
  {
  }

  lemma InsertOther<E>(a: seq<E>, put: seq<E>, y: E)
    requires a != [] && put != [] && put[0] != a[|a| - 1]
    ensures Distilled(a + put + [y]) == Distilled(a + [y]) <==> AllAre(put, y)
  {
    var f, rest := put[0], put[1..];
    hide *;
    OneBehind(a, f);
    OneBehind(a, y);
    AllBehind(a, put, y);
    AllAreRepeats(a, put, y);
    LongerDiffers(Distilled(a), Distilled(a + put + [y]), f, y, a[|a| - 1]);
  }

  lemma OneBehind<E>(a: seq<E>, e: E)
    requires a != []
    ensures EndsIn(Distilled(a), a[|a| - 1]) && Distilled(a + [e]) == Distil(Distilled(a), e)
    ensures e != a[|a| - 1] ==> Distilled(a + [e]) == Distilled(a) + [e]
  {
    DistilledSnoc(a, e);
  }

  lemma AllBehind<E>(a: seq<E>, put: seq<E>, y: E)
    requires put != []
    ensures Distilled(a + [put[0]]) <= Distilled(a + put + [y])
    ensures Distilled(a + put + [y]) == Distilled(a + [put[0]]) <==> Repeats(a + [put[0]], put[1..]) && y == put[0]
  {
    var b, rest := a + [put[0]], put[1..];
    assert put == [put[0]] + rest && b != [] && b[|b| - 1] == put[0];
    hide *;
    SameIffRepeats(b, rest + [y]);
    RepeatsSnoc(b, rest, y);
    Associates(a, [put[0]], rest);
    Associates(b, rest, [y]);
  }

  lemma AllAreRepeats<E>(a: seq<E>, put: seq<E>, y: E)
    requires put != []
    ensures AllAre(put, y) <==> put[0] == y && Repeats(a + [put[0]], put[1..])
  {
    var rest := put[1..];
    assert forall i :: 0 <= i < |rest| ==> rest[i] == put[i + 1];
    assert forall i :: 0 < i < |put| ==> put[i] == rest[i - 1];
  }

  // What extends `done` by `f` equals `done`, or `done` extended by `y`, only if that is all it is.
  lemma LongerDiffers<E>(done: seq<E>, long: seq<E>, f: E, y: E, x: E)
    requires EndsIn(done, x) && f != x && done + [f] <= long
    ensures long == Distil(done, y) <==> y != x && y == f && long == done + [f]
  {
    if long == Distil(done, y) {
      assert long[|done|] == f;
    }
  }

  // When what is applied behind an event, and before those that follow, makes no difference: it repeats
  // the event if nothing follows, and else it bridges the event to the next one.
  predicate Fits<E(==)>(applied: seq<E>, e: E, next: seq<E>) {
    if next == [] then AllAre(applied, e) else Bridges(applied, e, next[0])
  }

  lemma FitsIff<E>(a: seq<E>, applied: seq<E>, next: seq<E>)
    requires a != []
    ensures Distilled(a + applied + next) == Distilled(a + next) <==> Fits(applied, a[|a| - 1], next)
  {
    if next == [] {
      assert a + applied + next == a + applied && a + next == a;
      SameIffRepeats(a, applied);
      hide Distilled;
    } else {
      InsertIff(a, applied, next);
    }
  }

  // ------------------------------------------------- what that means for states

  lemma FoldSnoc<S, E>(m: Model<S, E>, events: seq<E>, e: E)
    ensures Fold(m, events + [e]) == m.apply(Fold(m, events), e, 0)
  {
    assert (events + [e])[..|events|] == events;
  }

  lemma ApplyRespects<S(!new), E(!new)>(m: Model<S, E>, s: S, t: S, e: E, now: nat)
    requires Congruent(m) && m.erase(s) == m.erase(t)
    ensures m.erase(m.apply(s, e, now)) == m.erase(m.apply(t, e, 0))
  {
    assert Forgets(m, s, e, now) && Forgets(m, t, e, 0);
  }

  lemma {:induction false} FoldDistilled<S(!new), E(!new)>(m: Model<S, E>, events: seq<E>)
    requires Congruent(m) && Idempotent(m)
    ensures m.erase(Fold(m, events)) == m.erase(Fold(m, Distilled(events)))
  {
    if events != [] {
      var init, e := events[..|events| - 1], events[|events| - 1];
      var done := Distilled(init);
      FoldDistilled(m, init);
      ApplyRespects(m, Fold(m, init), Fold(m, done), e, 0);
      if done != [] && done[|done| - 1] == e {
        var short := done[..|done| - 1];
        assert done == short + [e];
        FoldSnoc(m, short, e);
        assert m.erase(m.apply(m.apply(Fold(m, short), e, 0), e, 0)) == m.erase(m.apply(Fold(m, short), e, 0));
      } else {
        FoldSnoc(m, done, e);
      }
    }
  }

  // Orders that are distilled alike lead every idempotent transition function to the same state.
  lemma SameState<S(!new), E(!new)>(m: Model<S, E>, a: seq<E>, b: seq<E>)
    requires Congruent(m) && Idempotent(m) && Distilled(a) == Distilled(b)
    ensures m.erase(Fold(m, a)) == m.erase(Fold(m, b))
  {
    FoldDistilled(m, a);
    FoldDistilled(m, b);
  }

  // And no others: this one tells all others apart. Its state is the distilled events themselves.
  ghost function Recorder<E>(): Model<seq<E>, E> {
    Model((s, e, now) => Distil(s, e), [], s => s, (s, how) => s)
  }

  lemma {:induction false} RecorderFold<E>(events: seq<E>)
    ensures Fold(Recorder(), events) == Distilled(events)
  {
    if events != [] { RecorderFold(events[..|events| - 1]); }
  }

  lemma RecorderTells<E(!new)>(a: seq<E>, b: seq<E>)
    ensures Congruent(Recorder<E>()) && Idempotent(Recorder<E>())
    ensures Fold(Recorder(), a) == Fold(Recorder(), b) <==> Distilled(a) == Distilled(b)
  {
    RecorderFold(a);
    RecorderFold(b);
    forall s: seq<E>, e: E, now: nat ensures Forgets(Recorder<E>(), s, e, now) { }
  }

  lemma RecorderErases<E>(s: seq<E>)
    ensures Recorder<E>().erase(s) == s
  {
  }
}
