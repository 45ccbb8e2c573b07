/** Events that may trade places: what is applied early and comes again from the log is harmless if it
    commutes with what lies between. */
module Commuting {
  import opened Protocol
  import opened Collapse
  import opened Weaving

  // In any state the two may be applied in either order.
  ghost predicate Commute<S(!new), E>(m: Model<S, E>, x: E, y: E) {
    forall s :: m.erase(m.apply(m.apply(s, x, 0), y, 0)) == m.erase(m.apply(m.apply(s, y, 0), x, 0))
  }

  ghost predicate PassesAll<S(!new), E>(m: Model<S, E>, x: E, events: seq<E>) {
    forall i :: 0 <= i < |events| ==> Commute(m, x, events[i])
  }

  // The two orders lead to the same state.
  ghost predicate Same<S, E>(m: Model<S, E>, a: seq<E>, b: seq<E>) {
    m.erase(Fold(m, a)) == m.erase(Fold(m, b))
  }

  lemma SameSnoc<S(!new), E(!new)>(m: Model<S, E>, a: seq<E>, b: seq<E>, e: E)
    requires Congruent(m) && Same(m, a, b)
    ensures Same(m, a + [e], b + [e])
  {
    FoldSnoc(m, a, e);
    FoldSnoc(m, b, e);
    ApplyRespects(m, Fold(m, a), Fold(m, b), e, 0);
  }

  lemma {:induction false} SameAppend<S(!new), E(!new)>(m: Model<S, E>, a: seq<E>, b: seq<E>, more: seq<E>)
    requires Congruent(m) && Same(m, a, b)
    ensures Same(m, a + more, b + more)
  {
    hide Congruent, Same;
    if more == [] {
      assert a + more == a && b + more == b;
    } else {
      var init, e := more[..|more| - 1], more[|more| - 1];
      SameAppend(m, a, b, init);
      SameSnoc(m, a + init, b + init, e);
      assert a + more == a + init + [e] && b + more == b + init + [e];
    }
  }

  lemma Swap<S(!new), E(!new)>(m: Model<S, E>, a: seq<E>, x: E, y: E)
    requires Commute(m, x, y)
    ensures Same(m, a + [x] + [y], a + [y] + [x])
  {
    FoldSnoc(m, a, x);
    FoldSnoc(m, a, y);
    FoldSnoc(m, a + [x], y);
    FoldSnoc(m, a + [y], x);
    assert Fold(m, a + [x] + [y]) == m.apply(m.apply(Fold(m, a), x, 0), y, 0);
  }

  lemma SameTrans<S, E>(m: Model<S, E>, a: seq<E>, b: seq<E>, c: seq<E>)
    requires Same(m, a, b) && Same(m, b, c)
    ensures Same(m, a, c)
  {
  }

  // An event may be applied behind others that it commutes with.
  lemma {:induction false} Later<S(!new), E(!new)>(m: Model<S, E>, a: seq<E>, x: E, more: seq<E>)
    requires Congruent(m) && PassesAll(m, x, more)
    ensures Same(m, a + [x] + more, a + more + [x])
  {
    if more == [] {
      assert a + [x] + more == a + more + [x];
    } else {
      var init, e := more[..|more| - 1], more[|more| - 1];
      assert Commute(m, x, e) && PassesAll(m, x, init);
      hide Congruent, Same, PassesAll, Commute;
      Later(m, a, x, init);
      SameSnoc(m, a + [x] + init, a + init + [x], e);
      Swap(m, a + init, x, e);
      assert a + [x] + more == a + [x] + init + [e] && a + more + [x] == a + init + [e] + [x];
      SameTrans(m, a + [x] + more, a + init + [x] + [e], a + more + [x]);
    }
  }

  // The event comes up again in `next`, and commutes with what comes before it there.
  ghost predicate Absorbs<S(!new), E>(m: Model<S, E>, x: E, next: seq<E>) {
    exists p :: 0 <= p < |next| && next[p] == x && PassesAll(m, x, next[..p])
  }

  lemma Twice<S(!new), E(!new)>(m: Model<S, E>, a: seq<E>, x: E)
    requires Congruent(m) && Idempotent(m)
    ensures Same(m, a + [x] + [x], a + [x])
  {
    FoldSnoc(m, a, x);
    FoldSnoc(m, a + [x], x);
    assert m.erase(m.apply(m.apply(Fold(m, a), x, 0), x, 0)) == m.erase(m.apply(Fold(m, a), x, 0));
  }

  lemma Once<S(!new), E(!new)>(m: Model<S, E>, a: seq<E>, x: E, next: seq<E>)
    requires Congruent(m) && Idempotent(m) && Absorbs(m, x, next)
    ensures Same(m, a + [x] + next, a + next)
  {
    var p :| 0 <= p < |next| && next[p] == x && PassesAll(m, x, next[..p]);
    hide *;
    var before, rest := next[..p], next[p + 1..];
    Later(m, a, x, before);
    SameSnoc(m, a + [x] + before, a + before + [x], x);
    Twice(m, a + before, x);
    SameTrans(m, a + [x] + before + [x], a + before + [x] + [x], a + before + [x]);
    SameAppend(m, a + [x] + before + [x], a + before + [x], rest);
    SplitAt(a, x, next, p);
  }

  lemma SplitAt<E>(a: seq<E>, x: E, next: seq<E>, p: nat)
    requires p < |next| && next[p] == x
    ensures a + [x] + next == a + [x] + next[..p] + [x] + next[p + 1..]
    ensures a + next == a + next[..p] + [x] + next[p + 1..]
  {
    assert next == next[..p] + [x] + next[p + 1..];
  }

  ghost predicate AbsorbsAll<S(!new), E>(m: Model<S, E>, early: seq<E>, next: seq<E>) {
    forall i :: 0 <= i < |early| ==> Absorbs(m, early[i], next)
  }

  // What is applied early changes nothing if all of it is absorbed by what follows.
  lemma {:induction false} AllOnce<S(!new), E(!new)>(m: Model<S, E>, a: seq<E>, early: seq<E>, next: seq<E>)
    requires Congruent(m) && Idempotent(m) && AbsorbsAll(m, early, next)
    ensures Same(m, a + early + next, a + next)
  {
    if early == [] {
      assert a + early + next == a + next;
    } else {
      var init, x := early[..|early| - 1], early[|early| - 1];
      assert Absorbs(m, x, next) && AbsorbsAll(m, init, next);
      hide *;
      AllOnce(m, a, init, next);
      Once(m, a + init, x, next);
      assert early == init + [x];
      Associates(a, init, [x]);
      SameTrans(m, a + early + next, a + init + next, a + next);
    }
  }

  // ------------------------------------------------------------- a whole log

  // Whatever is applied behind an entry is absorbed by the entries that follow.
  ghost predicate AllAbsorbed<S(!new), E>(m: Model<S, E>, log: seq<E>, applied: seq<seq<E>>)
    requires |applied| == |log|
  {
    forall i :: 0 <= i < |log| ==> AbsorbedAt(m, log, applied, i)
  }

  ghost predicate AbsorbedAt<S(!new), E>(m: Model<S, E>, log: seq<E>, applied: seq<seq<E>>, i: nat)
    requires i < |log| == |applied|
  {
    AbsorbsAll(m, applied[i], log[i + 1..])
  }

  // Then the whole of it leads where the log leads.
  lemma {:induction false} WovenAbsorbed<S(!new), E(!new)>(m: Model<S, E>, a: seq<E>, log: seq<E>, applied: seq<seq<E>>)
    requires |applied| == |log| && Congruent(m) && Idempotent(m) && AllAbsorbed(m, log, applied)
    ensures Same(m, a + Woven(log, applied), a + log)
    decreases |log|
  {
    if log == [] {
      assert Woven(log, applied) == [];
    } else {
      var x, behind, rest, others := log[0], applied[0], log[1..], applied[1..];
      AbsorbedRest(m, log, applied);
      hide *;
      WovenAbsorbed(m, a + [x] + behind, rest, others);
      AllOnce(m, a + [x], behind, rest);
      WovenCons(x, behind, rest, others);
      assert log == [x] + rest && applied == [behind] + others;
      Associates(a, [x] + behind, Woven(rest, others));
      Associates(a, [x], behind);
      Associates(a, [x], rest);
      SameTrans(m, a + Woven(log, applied), a + [x] + behind + rest, a + log);
    }
  }

  lemma AbsorbedRest<S(!new), E>(m: Model<S, E>, log: seq<E>, applied: seq<seq<E>>)
    requires |applied| == |log| > 0 && AllAbsorbed(m, log, applied)
    ensures AllAbsorbed(m, log[1..], applied[1..]) && AbsorbsAll(m, applied[0], log[1..])
  {
    hide AbsorbsAll;
    assert AbsorbedAt(m, log, applied, 0);
    forall i | 0 <= i < |log| - 1 ensures AbsorbedAt(m, log[1..], applied[1..], i) {
      assert AbsorbedAt(m, log, applied, i + 1);
      assert log[1..][i + 1..] == log[i + 2..];
    }
  }

  // ------------------------------------------------------------- going through events once more

  ghost predicate InAnyOrder<S(!new), E>(m: Model<S, E>, events: seq<E>) {
    forall i, j :: 0 <= i < j < |events| ==> Commute(m, events[j], events[i])
  }

  lemma AgainAbsorbed<S(!new), E>(m: Model<S, E>, events: seq<E>)
    requires InAnyOrder(m, events)
    ensures AbsorbsAll(m, events, events)
  {
    forall i | 0 <= i < |events| ensures Absorbs(m, events[i], events) {
      assert events[i] == events[i] && PassesAll(m, events[i], events[..i]) by { hide Commute; }
    }
  }

  lemma AgainIsOnce<S(!new), E(!new)>(m: Model<S, E>, before: seq<E>, again: seq<E>)
    requires Congruent(m) && Idempotent(m) && InAnyOrder(m, again)
    ensures Same(m, before + again + again, before + again)
  {
    hide *;
    AgainAbsorbed(m, again);
    AllOnce(m, before, again, again);
  }
}
