/** What becomes of a queue item over a whole history (crates/storage/src/state.rs, the queue events). */
module QueueItems {
  import opened Wrappers
  import opened State
  import opened Tables
  import Scoping = Names
  import Collapse
  import DaemonRuns

  // The item as the state's lookups find it.
  function Find(items: seq<QueueItem>, item: string): (r: Option<QueueItem>)
    ensures r.Some? ==> r.value in items && r.value.id == item
    ensures r.Some? <==> HasItem(items, item)
  {
    if items == [] then None else if items[0].id == item then Some(items[0]) else Find(items[1..], item)
  }

  function Item(s: State, key: string, item: string): Option<QueueItem> {
    if key in s.queues then Find(s.queues[key], item) else None
  }

  // ------------------------------------------------------------- one queue

  // A queue event about an item changes that item alone and keeps the order of the queue.
  lemma {:induction false} OtherItemsStay(items: seq<QueueItem>, item: string, e: Event, i: nat)
    requires i < |items|
    ensures var r := ItemsAfter(items, item, e);
            && |r| == |items| && r[i].id == items[i].id
            && (items[i].id != item ==> r[i] == items[i])
            && (items[i].id == item && (forall j :: 0 <= j < i ==> items[j].id != item) ==>
                  r[i] == ItemAfter(items[i], e))
  {
    hide ItemAfter;
    if items[0].id != item {
      if i > 0 { OtherItemsStay(items[1..], item, e, i - 1); }
      else { ItemsLength(items[1..], item, e); }
    }
  }

  lemma {:induction false} ItemsLength(items: seq<QueueItem>, item: string, e: Event)
    ensures |ItemsAfter(items, item, e)| == |items|
  {
    hide ItemAfter;
    if items != [] && items[0].id != item { ItemsLength(items[1..], item, e); }
  }

  lemma {:induction false} FindAfter(items: seq<QueueItem>, changed: string, e: Event, item: string)
    ensures Find(ItemsAfter(items, changed, e), item)
            == if item != changed || Find(items, item).None? then Find(items, item)
               else Some(ItemAfter(Find(items, item).value, e))
  {
    hide ItemAfter, HasItem;
    if items != [] {
      FindAfter(items[1..], changed, e, item);
      var first := if items[0].id == changed then ItemAfter(items[0], e) else items[0];
      assert first.id == items[0].id;
      if items[0].id == changed { assert ([first] + items[1..])[1..] == items[1..]; }
    }
  }

  lemma {:induction false} FindWithout(items: seq<QueueItem>, dropped: string, item: string)
    ensures Find(ItemsWithout(items, dropped), item) == if item == dropped then None else Find(items, item)
  {
    hide HasItem;
    if items != [] { FindWithout(items[1..], dropped, item); }
  }

  lemma {:induction false} FindPushed(items: seq<QueueItem>, new_: QueueItem, item: string)
    ensures Find(items + [new_], item)
            == if Find(items, item).Some? then Find(items, item) else if new_.id == item then Some(new_) else None
  {
    hide HasItem;
    if items != [] {
      FindPushed(items[1..], new_, item);
      assert (items + [new_])[1..] == items[1..] + [new_];
    }
  }

  // ------------------------------------------------------------- the whole state

  // Whether an event is about this item of this queue; the queue's key joins namespace and name.
  predicate Concerns(e: Event, key: string, item: string) {
    AboutQueue(e) && Scoping.Scoped(e.namespace, e.queue) == key && e.item == item
  }

  // An event about another item, another queue or another table leaves the item as it was; a push
  // adds it if it is not there, a drop takes it away, and the others change it as a record.
  lemma ItemStep(s: State, e: Event, now: nat, key: string, item: string)
    ensures Item(Apply(s, e, now), key, item) ==
            var before := Item(s, key, item);
            if !Concerns(e, key, item) then before
            else if e.QueuePushed? then (if before.Some? then before else Some(Pushed(e)))
            else if e.QueueDropped? || before.None? then None
            else Some(ItemAfter(before.value, e))
  {
    if AboutQueue(e) {
      QueueOnly(s, e, now);
      QueueStep(s, e, key, item);
    } else {
      Frame(s, e, now);
    }
    hide Apply, ApplyQueue, ItemAfter, Find, Scoping.Scoped;
  }

  lemma QueueStep(s: State, e: Event, key: string, item: string)
    requires AboutQueue(e)
    ensures Item(ApplyQueue(s, e), key, item) ==
            var before := Item(s, key, item);
            if !Concerns(e, key, item) then before
            else if e.QueuePushed? then (if before.Some? then before else Some(Pushed(e)))
            else if e.QueueDropped? || before.None? then None
            else Some(ItemAfter(before.value, e))
  {
    var at := Scoping.Scoped(e.namespace, e.queue);
    QueueTable(s, e, at);
    hide ApplyQueue, ItemAfter, ItemsAfter, ItemsWithout, Scoping.Scoped, AboutQueue, HasItem, Find, Pushed;
    if at == key { OneQueue(if at in s.queues then s.queues[at] else [], e, item); }
  }

  lemma OneQueue(items: seq<QueueItem>, e: Event, item: string)
    requires AboutQueue(e)
    ensures Find(QueueAfter(items, e), item) ==
            var before := Find(items, item);
            if e.item != item then before
            else if e.QueuePushed? then (if before.Some? then before else Some(Pushed(e)))
            else if e.QueueDropped? || before.None? then None
            else Some(ItemAfter(before.value, e))
    ensures Find([], item) == None
  {
    if e.QueuePushed? { FindPushed(items, Pushed(e), item); }
    else if e.QueueDropped? { FindWithout(items, e.item, item); }
    else { FindAfter(items, e.item, e, item); }
    hide ItemAfter, ItemsAfter, ItemsWithout, HasItem;
  }

  // ------------------------------------------------------------- an item's story

  // What happened to the item since it was last pushed, if it is there: the events about it, between
  // whatever else the history holds.
  function Story(history: seq<Event>, key: string, item: string): Option<seq<Event>> {
    if history == [] then None
    else
      var before, e := Story(history[..|history| - 1], key, item), history[|history| - 1];
      if !Concerns(e, key, item) then before
      else if e.QueuePushed? then (if before.Some? then before else Some([]))
      else if e.QueueDropped? || before.None? then None
      else Some(before.value + [e])
  }

  // Where the item failed without having failed just before, and was not retried since.
  function Failures(story: seq<Event>): set<nat> {
    set i: nat | i < |story| && TurnedFailed(story[..i], story[i]) && Unretried(story[i + 1..])
  }

  predicate TurnedFailed(before: seq<Event>, e: Event) {
    e.QueueFailed? && (before == [] || !before[|before| - 1].QueueFailed?)
  }

  predicate Unretried(since: seq<Event>) { forall j :: 0 <= j < |since| ==> !since[j].QueueItemRetry? }

  function Standing(story: seq<Event>): ItemStatus {
    if story == [] then ItemPending
    else match story[|story| - 1]
      case QueueTaken(_, _, _, _) => ItemActive
      case QueueCompleted(_, _, _) => ItemCompleted
      case QueueFailed(_, _, _) => ItemFailed
      case QueueItemDead(_, _, _) => ItemDead
      case _ => ItemPending
  }

  predicate OfItem(e: Event) {
    e.QueueTaken? || e.QueueCompleted? || e.QueueFailed? || e.QueueItemRetry? || e.QueueItemDead?
  }

  lemma FailuresSnoc(story: seq<Event>, e: Event)
    requires OfItem(e)
    ensures |Failures(story + [e])|
            == if e.QueueItemRetry? then 0
               else |Failures(story)| + if e.QueueFailed? && Standing(story) != ItemFailed then 1 else 0
  {
    var more := story + [e];
    forall i | 0 <= i <= |story| ensures i in Failures(more) <==>
        !e.QueueItemRetry? && (if i < |story| then i in Failures(story) else TurnedFailed(story, e))
    {
      FailureSnoc(story, e, i);
    }
    Turning(story, e);
    hide TurnedFailed, Unretried;
    assert forall i :: i in Failures(more) ==> 0 <= i <= |story|;
    assert forall i :: i in Failures(story) ==> 0 <= i < |story|;
    hide Failures;
    if e.QueueItemRetry? {
      assert Failures(more) == {};
    } else if TurnedFailed(story, e) {
      assert Failures(more) == Failures(story) + {|story|};
    } else {
      assert Failures(more) == Failures(story);
    }
  }

  lemma FailureSnoc(story: seq<Event>, e: Event, i: nat)
    requires i <= |story|
    ensures i in Failures(story + [e]) <==>
              !e.QueueItemRetry? && (if i < |story| then i in Failures(story) else TurnedFailed(story, e))
  {
    var more := story + [e];
    if i < |story| {
      assert more[..i] == story[..i] && more[i + 1..] == story[i + 1..] + [e];
      UnretriedSnoc(story[i + 1..], e);
    } else {
      assert more[..i] == story && more[i + 1..] == [];
    }
    hide TurnedFailed;
  }

  lemma UnretriedSnoc(since: seq<Event>, e: Event)
    ensures Unretried(since + [e]) <==> Unretried(since) && !e.QueueItemRetry?
  {
    assert (since + [e])[|since|] == e && forall j :: 0 <= j < |since| ==> (since + [e])[j] == since[j];
  }

  lemma Turning(story: seq<Event>, e: Event)
    ensures Unretried([]) && (TurnedFailed(story, e) <==> e.QueueFailed? && Standing(story) != ItemFailed)
  {
  }

  predicate Agrees(i: QueueItem, item: string, story: seq<Event>) {
    i.id == item && i.failureCount == |Failures(story)| && i.status == Standing(story)
  }

  lemma AgreesSnoc(i: QueueItem, item: string, story: seq<Event>, e: Event)
    requires Agrees(i, item, story) && OfItem(e)
    ensures Agrees(ItemAfter(i, e), item, story + [e])
  {
    FailuresSnoc(story, e);
    hide Failures;
  }

  lemma AgreesPushed(e: Event, item: string)
    requires e.QueuePushed? && e.item == item
    ensures Agrees(Pushed(e), item, [])
  {
  }

  // For every history, queue and item, between any other events: the item is in the queue exactly if
  // it has a story; its status is the last event's; and its failure count is the number of times it
  // turned to failed since it was last pushed or retried.
  lemma {:induction false} FailuresCounted(history: seq<Event>, key: string, item: string)
    ensures var found, story := Item(Collapse.Fold(DaemonRuns.Daemon(), history), key, item), Story(history, key, item);
            && (found.Some? <==> story.Some?)
            && (story.Some? ==> Agrees(found.value, item, story.value))
  {
    if history != [] {
      var before, e := history[..|history| - 1], history[|history| - 1];
      FailuresCounted(before, key, item);
      FoldUnfolds(history);
      ItemStep(Collapse.Fold(DaemonRuns.Daemon(), before), e, 0, key, item);
      hide Apply, Collapse.Fold, Item, Agrees, ItemAfter, Pushed, Scoping.Scoped;
      var i, story := Item(Collapse.Fold(DaemonRuns.Daemon(), before), key, item), Story(before, key, item);
      if Concerns(e, key, item) && e.QueuePushed? { AgreesPushed(e, item); }
      else if Concerns(e, key, item) && !e.QueueDropped? && story.Some? { AgreesSnoc(i.value, item, story.value, e); }
    }
  }

  // ------------------------------------------------------------- what was pushed, and in which order

  // The push that the item comes from, if it is there.
  function PushOf(history: seq<Event>, key: string, item: string): (r: Option<Event>)
    ensures r.Some? ==> r.value.QueuePushed? && r.value.item == item
  {
    if history == [] then None
    else
      var before, e := PushOf(history[..|history| - 1], key, item), history[|history| - 1];
      if !Concerns(e, key, item) then before
      else if e.QueuePushed? && before.None? then Some(e)
      else if e.QueueDropped? then None
      else before
  }

  // The worker that took the item last, unless it was put back to be retried.
  function TakenBy(history: seq<Event>, key: string, item: string): Option<string> {
    if history == [] then None
    else
      var before, e := TakenBy(history[..|history| - 1], key, item), history[|history| - 1];
      if !Concerns(e, key, item) || PushOf(history[..|history| - 1], key, item).None? then before
      else if e.QueueTaken? then Some(e.worker)
      else if e.QueueItemRetry? || e.QueueDropped? then None
      else before
  }

  predicate Holds(found: Option<QueueItem>, push: Option<Event>, worker: Option<string>) {
    if push.None? || !push.value.QueuePushed? then found.None? && worker.None?
    else
      && found.Some? && found.value.queueName == push.value.queue && found.value.data == push.value.payload
      && found.value.pushedAt == push.value.at && found.value.workerName == worker
  }

  // In every history: an item holds what was pushed, and names the worker that has it.
  lemma {:induction false} ItemHolds(history: seq<Event>, key: string, item: string)
    ensures Holds(Item(Collapse.Fold(DaemonRuns.Daemon(), history), key, item), PushOf(history, key, item),
                  TakenBy(history, key, item))
  {
    if history != [] {
      var before, e := history[..|history| - 1], history[|history| - 1];
      ItemHolds(before, key, item);
      FoldUnfolds(history);
      var s := Collapse.Fold(DaemonRuns.Daemon(), before);
      ItemStep(s, e, 0, key, item);
      var found := Item(s, key, item);
      if found.Some? { ItemKeeps(found.value, e); }
      hide Apply, Collapse.Fold, Item, ItemAfter, Scoping.Scoped;
    }
  }

  lemma ItemKeeps(i: QueueItem, e: Event)
    ensures var j := ItemAfter(i, e);
            && j.queueName == i.queueName && j.data == i.data && j.pushedAt == i.pushedAt
            && j.workerName
               == if e.QueueTaken? then Some(e.worker) else if e.QueueItemRetry? then None else i.workerName
  {
  }

  function Ids(items: seq<QueueItem>): (r: seq<string>)
    ensures |r| == |items| && forall i :: 0 <= i < |items| ==> r[i] == items[i].id
  {
    if items == [] then [] else [items[0].id] + Ids(items[1..])
  }

  // The items that were pushed, in the order of their pushes: a push of one that is there changes nothing,
  // and a dropped one is taken out.
  function Order(history: seq<Event>, key: string): seq<string> {
    if history == [] then []
    else
      var before, e := Order(history[..|history| - 1], key), history[|history| - 1];
      if !AboutQueue(e) || Scoping.Scoped(e.namespace, e.queue) != key then before
      else if e.QueuePushed? && e.item !in before then before + [e.item]
      else if e.QueueDropped? then Others(before, e.item)
      else before
  }

  // In every history: a queue has its items in that order, whatever became of them.
  lemma {:induction false} QueueOrder(history: seq<Event>, key: string)
    ensures Queued(Collapse.Fold(DaemonRuns.Daemon(), history), key) == Order(history, key)
  {
    if history != [] {
      var before, e := history[..|history| - 1], history[|history| - 1];
      QueueOrder(before, key);
      FoldUnfolds(history);
      OrderStep(Collapse.Fold(DaemonRuns.Daemon(), before), e, key);
      hide Apply, Collapse.Fold, Queued, Scoping.Scoped, AboutQueue, Others;
    }
  }

  function Queued(s: State, key: string): seq<string> { if key in s.queues then Ids(s.queues[key]) else [] }

  lemma OrderStep(s: State, e: Event, key: string)
    ensures Queued(Apply(s, e, 0), key) ==
            var before := Queued(s, key);
            if !AboutQueue(e) || Scoping.Scoped(e.namespace, e.queue) != key then before
            else if e.QueuePushed? && e.item !in before then before + [e.item]
            else if e.QueueDropped? then Others(before, e.item)
            else before
  {
    if AboutQueue(e) {
      QueueOnly(s, e, 0);
      var at := Scoping.Scoped(e.namespace, e.queue);
      QueueTable(s, e, at);
      IdsAfter(if at in s.queues then s.queues[at] else [], e);
      hide Apply, ApplyQueue, QueueAfter, Scoping.Scoped, Others, AboutQueue;
    } else {
      Frame(s, e, 0);
      hide Apply, Others;
    }
  }

  lemma IdsAfter(items: seq<QueueItem>, e: Event)
    requires AboutQueue(e)
    ensures Ids(QueueAfter(items, e)) ==
            var before := Ids(items);
            if e.QueuePushed? && e.item !in before then before + [e.item]
            else if e.QueueDropped? then Others(before, e.item)
            else before
    ensures Others([], e.item) == []
  {
    hide ItemAfter, ItemsAfter, ItemsWithout;
    if e.QueuePushed? { IdsHave(items, e.item); }
    else if e.QueueDropped? { IdsWithout(items, e.item); }
    else {
      ItemsLength(items, e.item, e);
      forall i: nat | i < |items| ensures ItemsAfter(items, e.item, e)[i].id == items[i].id {
        OtherItemsStay(items, e.item, e, i);
      }
    }
  }

  lemma IdsHave(items: seq<QueueItem>, item: string)
    ensures HasItem(items, item) <==> item in Ids(items)
  {
  }

  lemma {:induction false} IdsWithout(items: seq<QueueItem>, item: string)
    ensures Ids(ItemsWithout(items, item)) == Others(Ids(items), item)
  {
    if items != [] {
      IdsWithout(items[1..], item);
      assert Ids(items)[1..] == Ids(items[1..]);
    }
  }

  lemma FoldUnfolds(history: seq<Event>)
    requires history != []
    ensures Collapse.Fold(DaemonRuns.Daemon(), history)
            == Apply(Collapse.Fold(DaemonRuns.Daemon(), history[..|history| - 1]), history[|history| - 1], 0)
  {
    hide Apply;
  }
}
