/** Raw command-line arguments against a specification (crates/runbook/src/command.rs:413-473,
    611-713): splitting, validating, binding. */
module ArgSplit {
  import opened Wrappers
  import opened ArgSpec

  datatype Split = Split(positional: seq<string>, named: map<string, string>)

  // What the first argument turns out to be.
  datatype Kind = Terminator | Value(name: string) | Flag(name: string) | Plain

  function FindOption(options: seq<OptionDef>, name: string): Option<string> {
    if options == [] then None
    else if options[0].name == name then Some(name)
    else FindOption(options[1..], name)
  }

  function FindShortOption(options: seq<OptionDef>, c: char): Option<string> {
    if options == [] then None
    else if options[0].short == Some(c) then Some(options[0].name)
    else FindShortOption(options[1..], c)
  }

  predicate HasFlag(flags: seq<FlagDef>, name: string) { exists i :: 0 <= i < |flags| && flags[i].name == name }

  function FindShortFlag(flags: seq<FlagDef>, c: char): Option<string> {
    if flags == [] then None
    else if flags[0].short == Some(c) then Some(flags[0].name)
    else FindShortFlag(flags[1..], c)
  }

  // A dash and one further character of one byte.
  predicate ShortForm(arg: string) { |arg| == 2 && arg[0] == '-' && arg[1] < '\U{0080}' }

  function Classify(s: Spec, arg: string): Kind {
    if arg == "--" then Terminator
    else if StartsWith(arg, "--") then
      var name := arg[2..];
      if FindOption(s.options, name).Some? then Value(name)
      else if HasFlag(s.flags, name) then Flag(name)
      else Plain
    else if ShortForm(arg) then
      match FindShortOption(s.options, arg[1])
      case Some(name) => Value(name)
      case None => (match FindShortFlag(s.flags, arg[1]) case Some(name) => Flag(name) case None => Plain)
    else Plain
  }

  // ------------------------------------------------------------- what an argument is

  predicate LongOption(s: Spec, arg: string, name: string) {
    arg == "--" + name && name != "" && name in OptionNames(s.options)
  }

  // A name that options and flags share is an option's.
  predicate LongFlag(s: Spec, arg: string, name: string) {
    arg == "--" + name && name != "" && name in FlagList(s.flags) && name !in OptionNames(s.options)
  }

  predicate OneDash(arg: string) { |arg| == 2 && arg[0] == '-' && arg[1] != '-' && arg[1] < '\U{0080}' }

  // The first definition with the alias has the name.
  predicate FirstAlias(options: seq<OptionDef>, c: char, name: string) {
    exists i :: 0 <= i < |options| && options[i].short == Some(c) && options[i].name == name
                && forall j :: 0 <= j < i ==> options[j].short != Some(c)
  }

  predicate FirstAliasFlag(flags: seq<FlagDef>, c: char, name: string) {
    exists i :: 0 <= i < |flags| && flags[i].short == Some(c) && flags[i].name == name
                && forall j :: 0 <= j < i ==> flags[j].short != Some(c)
  }

  predicate ShortOption(s: Spec, arg: string, name: string) { OneDash(arg) && FirstAlias(s.options, arg[1], name) }

  // An alias that options and flags share is an option's.
  predicate ShortFlag(s: Spec, arg: string, name: string) {
    && OneDash(arg) && (forall i :: 0 <= i < |s.options| ==> s.options[i].short != Some(arg[1]))
    && FirstAliasFlag(s.flags, arg[1], name)
  }

  predicate IsOption(s: Spec, arg: string, name: string) { LongOption(s, arg, name) || ShortOption(s, arg, name) }

  predicate IsFlag(s: Spec, arg: string, name: string) { LongFlag(s, arg, name) || ShortFlag(s, arg, name) }

  ghost predicate IsPlain(s: Spec, arg: string) {
    arg != "--" && forall name :: !IsOption(s, arg, name) && !IsFlag(s, arg, name)
  }

  lemma {:induction false} FoundLong(options: seq<OptionDef>, name: string)
    ensures FindOption(options, name) == if name in OptionNames(options) then Some(name) else None
  {
    if options != [] {
      FoundLong(options[1..], name);
      assert OptionNames(options) == [options[0].name] + OptionNames(options[1..]);
    }
  }

  lemma {:induction false} FoundShort(options: seq<OptionDef>, c: char, from: nat)
    requires from <= |options| && forall j :: 0 <= j < from ==> options[j].short != Some(c)
    ensures var r := FindShortOption(options[from..], c);
            && (r.None? ==> forall i :: 0 <= i < |options| ==> options[i].short != Some(c))
            && (r.Some? ==> FirstAlias(options, c, r.value))
    decreases |options| - from
  {
    if from < |options| && options[from].short != Some(c) {
      assert options[from..][1..] == options[from + 1..];
      FoundShort(options, c, from + 1);
    }
  }

  lemma {:induction false} FoundFlag(flags: seq<FlagDef>, c: char, from: nat)
    requires from <= |flags| && forall j :: 0 <= j < from ==> flags[j].short != Some(c)
    ensures var r := FindShortFlag(flags[from..], c);
            && (r.None? ==> forall i :: 0 <= i < |flags| ==> flags[i].short != Some(c))
            && (r.Some? ==> FirstAliasFlag(flags, c, r.value))
    decreases |flags| - from
  {
    if from < |flags| && flags[from].short != Some(c) {
      assert flags[from..][1..] == flags[from + 1..];
      FoundFlag(flags, c, from + 1);
    }
  }

  lemma {:induction false} HasFlagIff(flags: seq<FlagDef>, name: string)
    ensures HasFlag(flags, name) <==> name in FlagList(flags)
  {
    var names := FlagList(flags);
    if HasFlag(flags, name) {
      var i :| 0 <= i < |flags| && flags[i].name == name;
      assert names[i] == name;
    }
    if name in names {
      var i :| 0 <= i < |names| && names[i] == name;
      assert flags[i].name == name;
    }
  }

  lemma OneName(a: string, b: string)
    requires "--" + a == "--" + b
    ensures a == b
  {
    assert ("--" + a)[2..] == a && ("--" + b)[2..] == b;
  }

  lemma LongIs(s: Spec, arg: string, name: string)
    requires StartsWith(arg, "--")
    ensures Classify(s, arg) == Terminator <==> arg == "--"
    ensures Classify(s, arg) == Value(name) <==> LongOption(s, arg, name)
    ensures Classify(s, arg) == Flag(name) <==> LongFlag(s, arg, name)
    ensures !OneDash(arg)
  {
    var rest := arg[2..];
    assert arg == "--" + rest;
    if arg == "--" + name { OneName(rest, name); }
    FoundLong(s.options, rest);
    HasFlagIff(s.flags, rest);
    hide FindOption, HasFlag, OptionNames, FlagList;
  }

  lemma ShortIs(s: Spec, arg: string, name: string)
    requires !StartsWith(arg, "--") && ShortForm(arg)
    ensures Classify(s, arg) == Value(name) <==> ShortOption(s, arg, name)
    ensures Classify(s, arg) == Flag(name) <==> ShortFlag(s, arg, name)
    ensures !Classify(s, arg).Terminator? && arg != "--" + name
  {
    var c := arg[1];
    assert s.options[0..] == s.options && s.flags[0..] == s.flags;
    FoundShort(s.options, c, 0);
    FoundFlag(s.flags, c, 0);
    assert arg[1] == '-' ==> arg == "--";
    var option, flag := FindShortOption(s.options, c), FindShortFlag(s.flags, c);
    if option.Some? && FirstAlias(s.options, c, name) { OneAlias(s.options, c, name, option.value); }
    if flag.Some? && FirstAliasFlag(s.flags, c, name) { OneAliasFlag(s.flags, c, name, flag.value); }
    if FirstAlias(s.options, c, name) { assert exists i :: 0 <= i < |s.options| && s.options[i].short == Some(c); }
    if option.Some? { assert exists i :: 0 <= i < |s.options| && s.options[i].short == Some(c); }
    hide FirstAlias, FirstAliasFlag, FindShortOption, FindShortFlag, FindOption, HasFlag;
  }

  lemma OneAlias(options: seq<OptionDef>, c: char, a: string, b: string)
    requires FirstAlias(options, c, a) && FirstAlias(options, c, b)
    ensures a == b
  {
  }

  lemma OneAliasFlag(flags: seq<FlagDef>, c: char, a: string, b: string)
    requires FirstAliasFlag(flags, c, a) && FirstAliasFlag(flags, c, b)
    ensures a == b
  {
  }

  // What the loop takes an argument for is what it is.
  lemma ClassifyIs(s: Spec, arg: string, name: string)
    ensures Classify(s, arg) == Terminator <==> arg == "--"
    ensures Classify(s, arg) == Value(name) <==> IsOption(s, arg, name)
    ensures Classify(s, arg) == Flag(name) <==> IsFlag(s, arg, name)
  {
    hide FindOption, FindShortOption, FindShortFlag, HasFlag, FirstAlias, FirstAliasFlag;
    if StartsWith(arg, "--") {
      LongIs(s, arg, name);
    } else if ShortForm(arg) {
      ShortIs(s, arg, name);
    }
  }

  function SplitArgs(s: Spec, raw: seq<string>): Split
    decreases |raw|
  {
    if raw == [] then Split([], map[])
    else
      match Classify(s, raw[0])
      case Terminator => Split(raw[1..], map[])
      case Value(name) =>
        if |raw| > 1 then
          var rest := SplitArgs(s, raw[2..]);
          Split(rest.positional, map[name := raw[1]] + rest.named)
        else Split([raw[0]], map[])
      case Flag(name) =>
        var rest := SplitArgs(s, raw[1..]);
        Split(rest.positional, map[name := "true"] + rest.named)
      case Plain =>
        var rest := SplitArgs(s, raw[1..]);
        Split([raw[0]] + rest.positional, rest.named)
  }

  // Argument by argument: an option takes the next one, if there is one, and a flag is set; of a name
  // given more than once the last value counts. `--` makes what follows positional, and so stays
  // everything that is neither.
  lemma FirstArgument(s: Spec, arg: string, rest: seq<string>, name: string)
    ensures var r, later := SplitArgs(s, [arg] + rest), SplitArgs(s, rest);
            && (arg == "--" ==> r == Split(rest, map[]))
            && (IsOption(s, arg, name) && rest != [] ==>
                  var after := SplitArgs(s, rest[1..]);
                  r == Split(after.positional, map[name := rest[0]] + after.named))
            && (IsOption(s, arg, name) && rest == [] ==> r == Split([arg], map[]))
            && (IsFlag(s, arg, name) ==> r == Split(later.positional, map[name := "true"] + later.named))
            && (IsPlain(s, arg) ==> r == Split([arg] + later.positional, later.named))
  {
    var raw := [arg] + rest;
    assert raw[0] == arg && raw[1..] == rest && (rest != [] ==> raw[1] == rest[0] && raw[2..] == rest[1..]);
    ClassifyIs(s, arg, name);
    if IsPlain(s, arg) { PlainIs(s, arg); }
    hide Classify, IsOption, IsFlag, IsPlain;
  }

  lemma PlainIs(s: Spec, arg: string)
    ensures Classify(s, arg).Plain? <==> IsPlain(s, arg)
  {
    hide Classify, IsOption, IsFlag;
    if Classify(s, arg).Plain? {
      forall name ensures !IsOption(s, arg, name) && !IsFlag(s, arg, name) { ClassifyIs(s, arg, name); }
      ClassifyIs(s, arg, "");
    } else {
      match Classify(s, arg)
      case Terminator => ClassifyIs(s, arg, "");
      case Value(name) => ClassifyIs(s, arg, name);
      case Flag(name) => ClassifyIs(s, arg, name);
    }
  }

  // ------------------------------------------------------------- the loop

  method LookUpOption(options: seq<OptionDef>, name: string) returns (r: Option<string>)
    ensures r == FindOption(options, name)
  {
    for i := 0 to |options|
      invariant FindOption(options, name) == FindOption(options[i..], name)
    {
      if options[i].name == name { return Some(name); }
    }
    r := None;
  }

  method LookUpShort(s: Spec, c: char) returns (option: Option<string>, flag: Option<string>)
    ensures option == FindShortOption(s.options, c) && flag == FindShortFlag(s.flags, c)
  {
    option, flag := None, None;
    var i := 0;
    while i < |s.options| && s.options[i].short != Some(c)
      invariant 0 <= i <= |s.options|
      invariant FindShortOption(s.options, c) == FindShortOption(s.options[i..], c)
    {
      i := i + 1;
    }
    if i < |s.options| { option := Some(s.options[i].name); }
    i := 0;
    while i < |s.flags| && s.flags[i].short != Some(c)
      invariant 0 <= i <= |s.flags|
      invariant FindShortFlag(s.flags, c) == FindShortFlag(s.flags[i..], c)
    {
      i := i + 1;
    }
    if i < |s.flags| { flag := Some(s.flags[i].name); }
  }

  // What the loop has after `i` arguments, put together with the rest.
  function Joined(a: Split, b: Split): Split { Split(a.positional + b.positional, a.named + b.named) }

  lemma JoinedTwice(a: Split, b: Split, c: Split)
    ensures Joined(Joined(a, b), c) == Joined(a, Joined(b, c))
  {
    assert (a.named + b.named) + c.named == a.named + (b.named + c.named);
  }

  // What one argument contributes, when the scan goes on behind it.
  function One(kind: Kind, arg: string, value: string): Split {
    match kind
    case Value(name) => Split([], map[name := value])
    case Flag(name) => Split([], map[name := "true"])
    case _ => Split([arg], map[])
  }

  // How many arguments the first one takes.
  function Width(kind: Kind): nat { if kind.Value? then 2 else 1 }

  lemma SplitFirst(s: Spec, raw: seq<string>)
    requires raw != [] && !Classify(s, raw[0]).Terminator? && Width(Classify(s, raw[0])) <= |raw|
    ensures var k := Classify(s, raw[0]);
            SplitArgs(s, raw) == Joined(One(k, raw[0], if k.Value? then raw[1] else ""), SplitArgs(s, raw[Width(k)..]))
  {
    hide Classify;
    var k := Classify(s, raw[0]);
    var rest := SplitArgs(s, raw[Width(k)..]);
    assert [] + rest.positional == rest.positional;
    assert map[] + rest.named == rest.named;
  }

  method SplitRawArgs(s: Spec, raw: seq<string>) returns (r: Split)
    ensures r == SplitArgs(s, raw)
  {
    var positional: seq<string>, named: map<string, string> := [], map[];
    var i := 0;
    assert raw[0..] == raw;
    while i < |raw|
      invariant 0 <= i <= |raw|
      invariant SplitArgs(s, raw) == Joined(Split(positional, named), SplitArgs(s, raw[i..]))
    {
      var arg := raw[i];
      ghost var done, rest := Split(positional, named), raw[i..];
      if arg == "--" {
        positional := positional + raw[i + 1..];
        assert SplitArgs(s, rest) == Split(raw[i + 1..], map[]);
        return Split(positional, named);
      }
      ghost var kind := Classify(s, arg);
      var width := 1;
      if StartsWith(arg, "--") {
        var name := arg[2..];
        var option := LookUpOption(s.options, name);
        if option.Some? {
          if i + 1 < |raw| {
            named := named[name := raw[i + 1]];
            width := 2;
          } else {
            positional := positional + [arg];
          }
        } else if HasFlag(s.flags, name) {
          named := named[name := "true"];
        } else {
          positional := positional + [arg];
        }
      } else if ShortForm(arg) {
        var option, flag := LookUpShort(s, arg[1]);
        if option.Some? {
          if i + 1 < |raw| {
            named := named[option.value := raw[i + 1]];
            width := 2;
          } else {
            positional := positional + [arg];
          }
        } else if flag.Some? {
          named := named[flag.value := "true"];
        } else {
          positional := positional + [arg];
        }
      } else {
        positional := positional + [arg];
      }
      Turn(s, rest, done, Split(positional, named), width);
      assert rest[width..] == raw[i + width..];
      i := i + width;
    }
    assert raw[i..] == [];
    r := Split(positional, named);
    assert Joined(r, Split([], map[])) == r;
  }

  // The positionals and the named arguments after one turn of the loop.
  function Taken(before: Split, kind: Kind, rest: seq<string>): Split
    requires rest != []
  {
    if kind.Value? && |rest| > 1 then before.(named := before.named[kind.name := rest[1]])
    else if kind.Flag? then before.(named := before.named[kind.name := "true"])
    else before.(positional := before.positional + [rest[0]])
  }

  lemma Turn(s: Spec, rest: seq<string>, before: Split, now: Split, width: nat)
    requires rest != [] && !Classify(s, rest[0]).Terminator?
    requires width == (if |rest| == 1 then 1 else Width(Classify(s, rest[0])))
    requires now == Taken(before, Classify(s, rest[0]), rest)
    ensures width <= |rest| && Joined(before, SplitArgs(s, rest)) == Joined(now, SplitArgs(s, rest[width..]))
  {
    hide Classify, Joined, One, Taken;
    var k := Classify(s, rest[0]);
    if k.Value? && |rest| == 1 {
      assert rest[1..] == [];
      TakenLast(s, before, rest);
    } else {
      SplitFirst(s, rest);
      TakenIs(before, k, rest);
      JoinedTwice(before, One(k, rest[0], if k.Value? then rest[1] else ""), SplitArgs(s, rest[width..]));
    }
  }

  lemma TakenIs(before: Split, kind: Kind, rest: seq<string>)
    requires rest != [] && (kind.Value? ==> |rest| > 1)
    ensures Taken(before, kind, rest) == Joined(before, One(kind, rest[0], if kind.Value? then rest[1] else ""))
  {
    assert before.positional + [] == before.positional;
    assert before.named + map[] == before.named;
  }

  lemma TakenLast(s: Spec, before: Split, rest: seq<string>)
    requires |rest| == 1 && Classify(s, rest[0]).Value?
    ensures Joined(before, SplitArgs(s, rest)) == Joined(Taken(before, Classify(s, rest[0]), rest), SplitArgs(s, []))
  {
    hide Classify;
    assert before.positional + rest == before.positional + rest + [];
    assert before.named + map[] == before.named + map[] + map[];
    assert rest == [rest[0]];
  }

  // ------------------------------------------------------------- compositionality

  // How a scan of `a` ends when more arguments follow.
  datatype Ending = AtEnd | AfterTerminator | Dangling(name: string)

  function EndingOf(s: Spec, a: seq<string>): Ending
    decreases |a|
  {
    if a == [] then AtEnd
    else
      match Classify(s, a[0])
      case Terminator => AfterTerminator
      case Value(name) => if |a| > 1 then EndingOf(s, a[2..]) else Dangling(name)
      case _ => EndingOf(s, a[1..])
  }

  function Composed(s: Spec, a: seq<string>, b: seq<string>): Split {
    match EndingOf(s, a)
    case AtEnd => Joined(SplitArgs(s, a), SplitArgs(s, b))
    case AfterTerminator => Joined(SplitArgs(s, a), Split(b, map[]))
    case Dangling(name) =>
      if b == [] || a == [] then SplitArgs(s, a)
      else Joined(SplitArgs(s, a[..|a| - 1]), Joined(Split([], map[name := b[0]]), SplitArgs(s, b[1..])))
  }

  // Splitting is compositional exactly where the first part has come to an end: behind `--` the
  // rest is positional, and a dangling option takes the first of it as its value.
  lemma {:induction false} SplitAppend(s: Spec, a: seq<string>, b: seq<string>)
    ensures SplitArgs(s, a + b) == Composed(s, a, b)
    decreases |a|
  {
    hide Classify;
    if a == [] {
      assert a + b == b;
      assert Joined(Split([], map[]), SplitArgs(s, b)) == SplitArgs(s, b);
    } else {
      var k := Classify(s, a[0]);
      assert (a + b)[0] == a[0];
      if k.Terminator? {
        assert (a + b)[1..] == a[1..] + b;
      } else if k.Value? && |a| == 1 {
        DanglingAppend(s, a, b);
      } else {
        StepAppend(s, a, b);
      }
    }
  }

  lemma DanglingAppend(s: Spec, a: seq<string>, b: seq<string>)
    requires |a| == 1 && Classify(s, a[0]).Value?
    ensures var name := Classify(s, a[0]).name;
            SplitArgs(s, a + b) ==
              if b == [] then SplitArgs(s, a)
              else Joined(SplitArgs(s, a[..0]), Joined(Split([], map[name := b[0]]), SplitArgs(s, b[1..])))
  {
    hide Classify;
    if b == [] {
      assert a + b == a;
    } else {
      assert (a + b)[1] == b[0] && (a + b)[2..] == b[1..];
      SplitFirst(s, a + b);
      var rest := Joined(Split([], map[Classify(s, a[0]).name := b[0]]), SplitArgs(s, b[1..]));
      assert a[..0] == [];
      assert Joined(Split([], map[]), rest) == rest;
    }
  }

  lemma StepAppend(s: Spec, a: seq<string>, b: seq<string>)
    requires a != [] && !Classify(s, a[0]).Terminator? && Width(Classify(s, a[0])) <= |a|
    ensures SplitArgs(s, a + b) == Composed(s, a, b)
    decreases |a|, 0
  {
    hide Classify, Joined, One;
    var k := Classify(s, a[0]);
    var w := Width(k);
    var rest := a[w..];
    var one := One(k, a[0], if k.Value? then a[1] else "");
    assert (a + b)[0] == a[0] && (k.Value? ==> (a + b)[1] == a[1]) && (a + b)[w..] == rest + b;
    SplitFirst(s, a + b);
    SplitFirst(s, a);
    SplitAppend(s, rest, b);
    match EndingOf(s, rest)
    case AtEnd => JoinedTwice(one, SplitArgs(s, rest), SplitArgs(s, b));
    case AfterTerminator => JoinedTwice(one, SplitArgs(s, rest), Split(b, map[]));
    case Dangling(name) =>
      DanglingNotEmpty(s, rest);
      if b == [] {
        assert rest + b == rest;
      } else {
        var init := a[..|a| - 1];
        assert init[0] == a[0] && (k.Value? ==> init[1] == a[1]) && init[w..] == rest[..|rest| - 1];
        SplitFirst(s, init);
        JoinedTwice(one, SplitArgs(s, rest[..|rest| - 1]), Joined(Split([], map[name := b[0]]), SplitArgs(s, b[1..])));
      }
  }

  lemma DanglingNotEmpty(s: Spec, a: seq<string>)
    requires EndingOf(s, a).Dangling?
    ensures a != []
  {
  }

  // The entries under other names.
  function Apart(named: map<string, string>, name: string): map<string, string> {
    map k | k in named && k != name :: named[k]
  }

  // What comes to an end: nothing, a flag or what is neither in front of what does, or an option with its
  // value.
  ghost predicate Ended(s: Spec, a: seq<string>)
    decreases |a|
  {
    || a == []
    || ((IsPlain(s, a[0]) || exists name :: IsFlag(s, a[0], name)) && Ended(s, a[1..]))
    || ((exists name :: IsOption(s, a[0], name)) && |a| > 1 && Ended(s, a[2..]))
  }

  lemma {:induction false} EndedIff(s: Spec, a: seq<string>)
    ensures EndingOf(s, a).AtEnd? <==> Ended(s, a)
    decreases |a|
  {
    hide Classify, IsOption, IsFlag, IsPlain;
    if a != [] {
      PlainIs(s, a[0]);
      KindIs(s, a[0]);
      EndedIff(s, a[1..]);
      if |a| > 1 { EndedIff(s, a[2..]); }
    }
  }

  lemma KindIs(s: Spec, arg: string)
    ensures Classify(s, arg).Value? <==> exists name :: IsOption(s, arg, name)
    ensures Classify(s, arg).Flag? <==> exists name :: IsFlag(s, arg, name)
  {
    hide Classify, IsOption, IsFlag;
    forall name
      ensures Classify(s, arg) == Value(name) <==> IsOption(s, arg, name)
      ensures Classify(s, arg) == Flag(name) <==> IsFlag(s, arg, name)
    {
      ClassifyIs(s, arg, name);
    }
    var k := Classify(s, arg);
    if k.Value? { assert IsOption(s, arg, k.name); }
    if k.Flag? { assert IsFlag(s, arg, k.name); }
  }

  // A flag of the specification put where the scan has come to an end changes its own entry and nothing
  // else.
  lemma FlagPosition(s: Spec, a: seq<string>, flag: string, name: string, b: seq<string>)
    requires Ended(s, a) && IsFlag(s, flag, name)
    ensures var with, without := SplitArgs(s, a + ([flag] + b)), SplitArgs(s, a + b);
            && with.positional == without.positional
            && Apart(with.named, name) == Apart(without.named, name)
            && name in with.named
            && (name !in SplitArgs(s, b).named ==> with.named[name] == "true")
  {
    EndedIff(s, a);
    ClassifyIs(s, flag, name);
    hide Classify, SplitArgs, EndingOf, Apart, Ended, IsFlag, IsOption;
    SplitAppend(s, a, b);
    SplitAppend(s, a, [flag] + b);
    assert ([flag] + b)[0] == flag && ([flag] + b)[1..] == b;
    SplitFirst(s, [flag] + b);
    var rest := SplitArgs(s, b);
    assert [] + rest.positional == rest.positional;
    InsertEntry(SplitArgs(s, a).named, name, rest.named);
  }

  lemma InsertEntry(a: map<string, string>, name: string, b: map<string, string>)
    ensures var with := a + (map[name := "true"] + b);
            && Apart(with, name) == Apart(a + b, name) && name in with
            && (name !in b ==> with[name] == "true")
  {
  }
}
