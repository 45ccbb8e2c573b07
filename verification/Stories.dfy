/** Telling what a history of events makes of one entry of a table from the events about it. */
module Stories {
  import opened Wrappers

  function At<V>(t: map<string, V>, key: string): Option<V> { if key in t then Some(t[key]) else None }

  // Which events make the entry, end it, and are about it while it is there.
  datatype Plot<!E> = Plot(makes: E -> bool, ends: E -> bool, about: E -> bool)

  function Next<E>(p: Plot<E>, story: Option<seq<E>>, e: E): Option<seq<E>> {
    if p.makes(e) then Some([e])
    else if p.ends(e) then None
    else if story.Some? && p.about(e) then Some(story.value + [e])
    else story
  }

  // What happened to the entry since it was last made, if it is there.
  function Story<E>(p: Plot<E>, history: seq<E>): Option<seq<E>> {
    if history == [] then None else Next(p, Story(p, history[..|history| - 1]), history[|history| - 1])
  }

  // The last of them for which something is so.
  function Last<E>(story: seq<E>, wanted: E -> bool): (r: Option<E>)
    ensures r.Some? ==> r.value in story && wanted(r.value)
    ensures r.None? <==> forall e :: e in story ==> !wanted(e)
  {
    if story == [] then None
    else if wanted(story[|story| - 1]) then Some(story[|story| - 1])
    else Last(story[..|story| - 1], wanted)
  }

  lemma LastSnoc<E>(story: seq<E>, e: E, wanted: E -> bool)
    ensures Last(story + [e], wanted) == if wanted(e) then Some(e) else Last(story, wanted)
  {
    assert (story + [e])[..|story|] == story;
  }
}
