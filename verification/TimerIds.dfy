/** Timer identifiers: what is packed into the string, and what can be read from it
    (crates/core/src/timer.rs). */
module TimerIds {
  import opened Wrappers
  import opened Text
  import Names
  import opened State

  datatype Timer =
    | Liveness(owner: Owner)
    | ExitDeferred(owner: Owner)
    | IdleGrace(owner: Owner)
    | Cooldown(owner: Owner, trigger: string, position: nat)
    | QueueRetry(queue: string, item: string)
    | Cron(cron: string, namespace: string)
    | QueuePoll(worker: string, namespace: string)

  function OwnerText(owner: Owner): string {
    if owner.JobOwner? then owner.id else "ar:" + owner.id
  }

  function Prefix(t: Timer): (p: string)
    ensures ':' !in p
  {
    match t
    case Liveness(_) => "liveness"
    case ExitDeferred(_) => "exit-deferred"
    case IdleGrace(_) => "idle-grace"
    case Cooldown(_, _, _) => "cooldown"
    case QueueRetry(_, _) => "queue-retry"
    case Cron(_, _) => "cron"
    case QueuePoll(_, _) => "queue-poll"
  }

  function Payload(t: Timer): string {
    match t
    case Liveness(owner) => OwnerText(owner)
    case ExitDeferred(owner) => OwnerText(owner)
    case IdleGrace(owner) => OwnerText(owner)
    case Cooldown(owner, trigger, position) => OwnerText(owner) + (":" + (trigger + (":" + Decimal(position))))
    case QueueRetry(queue, item) => queue + (":" + item)
    case Cron(cron, namespace) => Names.Scoped(namespace, cron)
    case QueuePoll(worker, namespace) => Names.Scoped(namespace, worker)
  }

  function Id(t: Timer): string { Prefix(t) + (":" + Payload(t)) }

  // ------------------------------------------------------------- reading

  function Strip(s: string, prefix: string): Option<string> {
    if prefix <= s then Some(s[|prefix|..]) else None
  }

  function AgentRunPart(id: string): Option<string> {
    if Strip(id, "liveness:ar:").Some? then Strip(id, "liveness:ar:")
    else if Strip(id, "exit-deferred:ar:").Some? then Strip(id, "exit-deferred:ar:")
    else if Strip(id, "cooldown:ar:").Some? then Some(UpTo(Strip(id, "cooldown:ar:").value, ':'))
    else Strip(id, "idle-grace:ar:")
  }

  function JobPart(id: string): Option<string> {
    if AgentRunPart(id).Some? then None
    else if Strip(id, "liveness:").Some? then Strip(id, "liveness:")
    else if Strip(id, "exit-deferred:").Some? then Strip(id, "exit-deferred:")
    else if Strip(id, "cooldown:").Some? then Some(UpTo(Strip(id, "cooldown:").value, ':'))
    else Strip(id, "idle-grace:")
  }

  function OwnerOf(id: string): Option<Owner> {
    if AgentRunPart(id).Some? then Some(RunOwner(AgentRunPart(id).value))
    else if JobPart(id).Some? then Some(JobOwner(JobPart(id).value))
    else None
  }

  // Whether `p:` begins an id, by the part before its first colon.
  lemma StripPrefix(t: Timer, p: string)
    requires ':' !in p
    ensures Strip(Id(t), p + ":") == if p == Prefix(t) then Some(Payload(t)) else None
  {
    var id := Id(t);
    if p + ":" <= id {
      assert id == p + ([':'] + id[|p| + 1..]);
      CutFirst(p, id[|p| + 1..], Prefix(t), Payload(t), ':');
    }
    if p == Prefix(t) { assert id == (p + ":") + Payload(t); }
  }

  lemma StripOwner(t: Timer, p: string)
    requires ':' !in p
    ensures Strip(Id(t), p + ":ar:") == if p == Prefix(t) then Strip(Payload(t), "ar:") else None
  {
    StripPrefix(t, p);
    assert p + ":ar:" == (p + ":") + "ar:";
    StripMore(Id(t), p + ":", "ar:");
  }

  lemma StripMore(s: string, a: string, b: string)
    ensures Strip(s, a + b) == if Strip(s, a).Some? then Strip(Strip(s, a).value, b) else None
  {
    if a + b <= s {
      assert s[..|a|] == (a + b)[..|a|] == a;
      assert s[|a|..][..|b|] == b;
      assert s[|a|..][|b|..] == s[|a + b|..];
    } else if a <= s {
      assert s == a + s[|a|..];
    }
  }

  lemma Strips(t: Timer)
    ensures Strip(Id(t), "liveness:") == if t.Liveness? then Some(Payload(t)) else None
    ensures Strip(Id(t), "exit-deferred:") == if t.ExitDeferred? then Some(Payload(t)) else None
    ensures Strip(Id(t), "idle-grace:") == if t.IdleGrace? then Some(Payload(t)) else None
    ensures Strip(Id(t), "cooldown:") == if t.Cooldown? then Some(Payload(t)) else None
  {
    hide Id, Payload, Strip;
    StripPrefix(t, "liveness");
    StripPrefix(t, "exit-deferred");
    StripPrefix(t, "idle-grace");
    StripPrefix(t, "cooldown");
    assert "liveness" + ":" == "liveness:" && "exit-deferred" + ":" == "exit-deferred:";
    assert "idle-grace" + ":" == "idle-grace:" && "cooldown" + ":" == "cooldown:";
    KindByPrefix(t);
  }

  lemma OwnerStrips(t: Timer)
    ensures Strip(Id(t), "liveness:ar:") == if t.Liveness? then Strip(Payload(t), "ar:") else None
    ensures Strip(Id(t), "exit-deferred:ar:") == if t.ExitDeferred? then Strip(Payload(t), "ar:") else None
    ensures Strip(Id(t), "idle-grace:ar:") == if t.IdleGrace? then Strip(Payload(t), "ar:") else None
    ensures Strip(Id(t), "cooldown:ar:") == if t.Cooldown? then Strip(Payload(t), "ar:") else None
  {
    hide Id, Payload, Strip;
    StripOwner(t, "liveness");
    StripOwner(t, "exit-deferred");
    StripOwner(t, "idle-grace");
    StripOwner(t, "cooldown");
    assert "liveness" + ":ar:" == "liveness:ar:" && "exit-deferred" + ":ar:" == "exit-deferred:ar:";
    assert "idle-grace" + ":ar:" == "idle-grace:ar:" && "cooldown" + ":ar:" == "cooldown:ar:";
    KindByPrefix(t);
  }

  lemma KindByPrefix(t: Timer)
    ensures Prefix(t) == "liveness" <==> t.Liveness?
    ensures Prefix(t) == "exit-deferred" <==> t.ExitDeferred?
    ensures Prefix(t) == "idle-grace" <==> t.IdleGrace?
    ensures Prefix(t) == "cooldown" <==> t.Cooldown?
    ensures Prefix(t) == "queue-retry" <==> t.QueueRetry?
    ensures Prefix(t) == "cron" <==> t.Cron?
    ensures Prefix(t) == "queue-poll" <==> t.QueuePoll?
  {
    assert |"liveness"| == 8 && |"exit-deferred"| == 13 && |"idle-grace"| == 10 && |"cooldown"| == 8;
    assert |"queue-retry"| == 11 && |"cron"| == 4 && |"queue-poll"| == 10;
    assert "liveness"[0] == 'l' && "cooldown"[0] == 'c' && "idle-grace"[0] == 'i' && "queue-poll"[0] == 'q';
  }

  predicate Owned(t: Timer) { t.Liveness? || t.ExitDeferred? || t.IdleGrace? || t.Cooldown? }

  lemma StripAr(id: string)
    ensures Strip("ar:" + id, "ar:") == Some(id)
    ensures Strip(id, "ar:").Some? <==> "ar:" <= id
  {
    assert ("ar:" + id)[3..] == id;
  }

  // The owner can be read back exactly under these conditions on its id. A cooldown stops reading
  // at the first colon, so its owner's id must have none, and "ar" as a job id passes for the
  // marker of agent runs; the other kinds only misread a job id that begins with that marker.
  predicate Readable(t: Timer)
    requires Owned(t)
  {
    if t.Cooldown? then ':' !in t.owner.id && t.owner != JobOwner("ar")
    else t.owner.JobOwner? ==> !("ar:" <= t.owner.id)
  }

  lemma OwnerReadIff(t: Timer)
    requires Owned(t)
    ensures OwnerOf(Id(t)) == Some(t.owner) <==> Readable(t)
  {
    Strips(t);
    OwnerStrips(t);
    hide Id, Strip;
    StripAr(t.owner.id);
    if t.Cooldown? {
      CooldownRead(t);
    }
  }

  lemma UpToColon(a: string, x: string)
    ensures UpTo(a + (":" + x), ':') == UpTo(a, ':')
  {
    var i := Find(a, ':');
    if i == |a| {
      FindAppend(a, ":" + x, ':');
    } else {
      assert a == a[..i] + a[i..];
      assert a + (":" + x) == a[..i] + (a[i..] + (":" + x));
      FindAppend(a[..i], a[i..] + (":" + x), ':');
    }
  }

  // What is read from a cooldown's payload.
  function CooldownOwner(payload: string): Owner {
    var rest := Strip(payload, "ar:");
    if rest.Some? then RunOwner(UpTo(rest.value, ':')) else JobOwner(UpTo(payload, ':'))
  }

  lemma UpToWhole(id: string)
    ensures UpTo(id, ':') == id <==> ':' !in id
  {
  }

  lemma CooldownOfRun(id: string, tail: string)
    ensures CooldownOwner("ar:" + (id + (":" + tail))) == RunOwner(UpTo(id, ':'))
  {
    StripAr(id + (":" + tail));
    UpToColon(id, tail);
    hide Strip, UpTo;
  }

  lemma CooldownOfJob(id: string, tail: string)
    ensures var payload := id + (":" + tail);
            && CooldownOwner(payload)
               == (if "ar:" <= payload then RunOwner(UpTo(payload[3..], ':')) else JobOwner(UpTo(id, ':')))
            && (':' !in id ==> ("ar:" <= payload <==> id == "ar"))
  {
    var payload := id + (":" + tail);
    UpToColon(id, tail);
    hide UpTo;
    if "ar:" <= payload && ':' !in id {
      assert payload == "ar" + ([':'] + payload[3..]);
      CutFirst("ar", payload[3..], id, tail, ':');
    }
    if id == "ar" { assert payload == "ar:" + tail; }
  }

  lemma CooldownRead(t: Timer)
    requires t.Cooldown?
    ensures CooldownOwner(Payload(t)) == t.owner <==> Readable(t)
  {
    var id, tail := t.owner.id, t.trigger + (":" + Decimal(t.position));
    UpToWhole(id);
    hide CooldownOwner, UpTo;
    if t.owner.RunOwner? {
      assert Payload(t) == "ar:" + id + (":" + tail) == "ar:" + (id + (":" + tail));
      CooldownOfRun(id, tail);
    } else {
      assert Payload(t) == id + (":" + tail);
      CooldownOfJob(id, tail);
    }
  }

  // Cron and queue timers have no owner, whatever their names.
  lemma NoOwner(t: Timer)
    requires !Owned(t)
    ensures OwnerOf(Id(t)).None?
  {
    Strips(t);
    OwnerStrips(t);
  }

  // ------------------------------------------------------------- distinctness

  // Free of the delimiters that would make two timers look alike.
  predicate Plain(t: Timer) {
    match t
    case Liveness(owner) => ':' !in owner.id
    case ExitDeferred(owner) => ':' !in owner.id
    case IdleGrace(owner) => ':' !in owner.id
    case Cooldown(owner, _, _) => ':' !in owner.id && owner != JobOwner("ar")
    case QueueRetry(queue, _) => ':' !in queue
    case Cron(cron, namespace) => '/' !in namespace && (namespace == "" ==> '/' !in cron)
    case QueuePoll(worker, namespace) => '/' !in namespace && (namespace == "" ==> '/' !in worker)
  }

  lemma OwnerTextInjective(a: Owner, b: Owner)
    requires ':' !in a.id && ':' !in b.id && OwnerText(a) == OwnerText(b)
    ensures a == b
  {
    assert a.RunOwner? ==> OwnerText(a)[2] == ':' && OwnerText(a)[3..] == a.id;
    assert b.RunOwner? ==> OwnerText(b)[2] == ':' && OwnerText(b)[3..] == b.id;
  }

  lemma CooldownInjective(t: Timer, u: Timer)
    requires t.Cooldown? && u.Cooldown? && Plain(t) && Plain(u) && Id(t) == Id(u)
    ensures t == u
  {
    OwnerReadIff(t);
    OwnerReadIff(u);
    assert t.owner == u.owner;
    var a, b := t.trigger + (":" + Decimal(t.position)), u.trigger + (":" + Decimal(u.position));
    CutFirst(Prefix(t), Payload(t), Prefix(u), Payload(u), ':');
    hide Id, OwnerOf, Readable;
    var o := OwnerText(t.owner);
    assert (o + (":" + a))[|o| + 1..] == a && (o + (":" + b))[|o| + 1..] == b;
    CutLast(t.trigger, Decimal(t.position), u.trigger, Decimal(u.position), ':');
    DecimalInjective(t.position, u.position);
  }

  // Different timers have different ids, even where a trigger contains colons.
  lemma IdInjective(t: Timer, u: Timer)
    requires Plain(t) && Plain(u) && Id(t) == Id(u)
    ensures t == u
  {
    CutFirst(Prefix(t), Payload(t), Prefix(u), Payload(u), ':');
    KindByPrefix(t);
    KindByPrefix(u);
    if t.Cooldown? {
      CooldownInjective(t, u);
    } else {
      hide Id;
      match t
      case Liveness(owner) => OwnerTextInjective(owner, u.owner);
      case ExitDeferred(owner) => OwnerTextInjective(owner, u.owner);
      case IdleGrace(owner) => OwnerTextInjective(owner, u.owner);
      case QueueRetry(queue, item) => CutFirst(queue, item, u.queue, u.item, ':');
      case Cron(cron, namespace) =>
        Names.SplitOfScopedIff(namespace, cron);
        Names.SplitOfScopedIff(u.namespace, u.cron);
      case QueuePoll(worker, namespace) =>
        Names.SplitOfScopedIff(namespace, worker);
        Names.SplitOfScopedIff(u.namespace, u.worker);
    }
  }
}
