/** Printing a specification and parsing the line gives it back (crates/runbook/src/command.rs:92-399). */
module UsageRoundTrip {
  import opened Wrappers
  import opened Text
  import opened ArgSpec
  import opened Usage

  function TryAll(p: Parser, parts: seq<Part>): Result<Parser, Error>
    decreases |parts|
  {
    if parts == [] then Ok(p)
    else if Trouble(p, parts[0]).Some? then Err(Trouble(p, parts[0]).value)
    else TryAll(Add(p, parts[0]), parts[1..])
  }

  predicate AllPrintable(parts: seq<Part>) { forall i :: 0 <= i < |parts| ==> Printable(parts[i]) }

  lemma JoinFirst(parts: seq<Part>)
    requires parts != []
    ensures Line(parts) == Print(parts[0]) + if |parts| == 1 then "" else " " + Line(parts[1..])
  {
    assert Prints(parts)[1..] == Prints(parts[1..]);
    if |parts| > 1 {
      assert Print(parts[0]) + " " + Line(parts[1..]) == Print(parts[0]) + (" " + Line(parts[1..]));
    }
  }

  lemma {:induction false} LineEnds(parts: seq<Part>)
    requires parts != []
    ensures Line(parts) != "" && !IsWhitespace(Line(parts)[0]) && !IsWhitespace(Line(parts)[|Line(parts)| - 1])
    decreases |parts|
  {
    JoinFirst(parts);
    if |parts| > 1 { LineEnds(parts[1..]); }
  }

  lemma SkipSpace(p: Parser, s: string)
    ensures ParseFrom(p, " " + s) == ParseFrom(p, s)
  {
    assert (" " + s)[1..] == s;
    hide AngledItem, BracketedItem, DashedItem;
    assert Item(p, ' ', s) == Ok((p, s));
  }

  lemma {:induction false} LineParses(p: Parser, parts: seq<Part>)
    requires AllPrintable(parts)
    ensures ParseFrom(p, Line(parts)) == TryAll(p, parts)
    decreases |parts|
  {
    if parts == [] {
      assert Line(parts) == "";
    } else {
      hide ParseFrom, Add, Trouble, Printable, Print, Line;
      var q, rest := Add(p, parts[0]), parts[1..];
      JoinFirst(parts);
      LineParses(q, rest);
      if rest == [] {
        assert Print(parts[0]) + "" == Print(parts[0]);
        PartParses(p, parts[0], "");
        EmptyLine();
      } else {
        PartParses(p, parts[0], " " + Line(rest));
        SkipSpace(q, Line(rest));
      }
    }
  }

  lemma EmptyLine()
    ensures Line([]) == ""
  {
  }

  // ------------------------------------------------- parts in any order

  predicate Twice(parts: seq<Part>, i: nat)
    requires i < |parts|
  {
    exists j :: 0 <= j < i && NameOf(parts[j]) == NameOf(parts[i])
  }

  predicate HasRest(parts: seq<Part>, i: nat)
    requires i <= |parts|
  {
    exists j :: 0 <= j < i && parts[j].Rest?
  }

  predicate HasOptional(parts: seq<Part>, i: nat)
    requires i <= |parts|
  {
    exists j :: 0 <= j < i && parts[j].Positional? && !parts[j].arg.required
  }

  // What is wrong with a part where it stands: a positional after the variadic, a required one after an
  // optional one, a second variadic, or a name that was given before.
  function ErrorAt(parts: seq<Part>, i: nat): Option<Error>
    requires i < |parts|
  {
    var name, late := NameOf(parts[i]), HasRest(parts, i);
    if parts[i].Positional? && late then Some(VariadicNotLast(name))
    else if parts[i].Positional? && parts[i].arg.required && HasOptional(parts, i) then
      Some(OptionalBeforeRequired(name))
    else if Twice(parts, i) then Some(DuplicateName(name))
    else if parts[i].Rest? && late then Some(VariadicNotLast(name))
    else None
  }

  // The specification that the parts make: each kind in the order in which it is written.
  function Collected(parts: seq<Part>): Spec {
    if parts == [] then EMPTY else Collect(Collected(parts[..|parts| - 1]), parts[|parts| - 1])
  }

  function Collect(s: Spec, part: Part): Spec {
    match part
    case Positional(arg) => s.(positional := s.positional + [arg])
    case Rest(all) => s.(variadic := Some(all))
    case Valued(option) => s.(options := s.options + [option])
    case Switch(flag) => s.(flags := s.flags + [flag])
  }

  lemma CollectedSnoc(parts: seq<Part>, part: Part)
    ensures Collected(parts + [part]) == Collect(Collected(parts), part)
  {
    assert (parts + [part])[..|parts|] == parts;
  }

  // The parser behind the first `k` parts.
  ghost predicate Behind(p: Parser, parts: seq<Part>, k: nat)
    requires k <= |parts|
  {
    && (forall name :: name in p.names <==> exists j :: 0 <= j < k && NameOf(parts[j]) == name)
    && (p.spec.variadic.Some? <==> HasRest(parts, k)) && (p.seenOptional <==> HasOptional(parts, k))
    && p.spec == Collected(parts[..k])
  }

  lemma BehindNext(p: Parser, parts: seq<Part>, k: nat)
    requires k < |parts| && Behind(p, parts, k)
    ensures Trouble(p, parts[k]) == ErrorAt(parts, k)
    ensures Behind(Add(p, parts[k]), parts, k + 1)
  {
    assert parts[..k + 1][..k] == parts[..k];
  }

  predicate NothingWrong(parts: seq<Part>, from: nat) {
    forall i :: from <= i < |parts| ==> ErrorAt(parts, i).None?
  }

  predicate FirstWrong(parts: seq<Part>, from: nat, i: nat, error: Error) {
    from <= i < |parts| && ErrorAt(parts, i) == Some(error) && forall j :: from <= j < i ==> ErrorAt(parts, j).None?
  }

  lemma {:induction false} Tried(p: Parser, parts: seq<Part>, k: nat, i: nat, error: Error)
    requires k <= |parts| && Behind(p, parts, k)
    ensures NothingWrong(parts, k) ==>
              var r := TryAll(p, parts[k..]); r.Ok? && r.value.spec == Collected(parts)
    ensures FirstWrong(parts, k, i, error) ==> TryAll(p, parts[k..]) == Err(error)
    decreases |parts| - k
  {
    if k < |parts| {
      BehindNext(p, parts, k);
      assert parts[k..][1..] == parts[k + 1..] && parts[k..][0] == parts[k];
      hide ErrorAt, Trouble, Add, Behind, Collected;
      if ErrorAt(parts, k).None? { Tried(Add(p, parts[k]), parts, k + 1, i, error); }
    } else {
      assert parts[..k] == parts;
    }
  }

  // For printable parts, written in any order: the text is accepted exactly if nothing is wrong with any of
  // them, and then gives what they make; otherwise the error is that of the first with which something is.
  lemma WrittenIff(parts: seq<Part>, i: nat, error: Error)
    requires AllPrintable(parts)
    ensures NothingWrong(parts, 0) ==> Parse(Line(parts)) == Ok(Collected(parts))
    ensures FirstWrong(parts, 0, i, error) ==> Parse(Line(parts)) == Err(error)
    ensures NothingWrong(parts, 0) || exists j, e :: FirstWrong(parts, 0, j, e)
  {
    LineParses(START, parts);
    TrimLine(parts);
    Beginning(parts);
    Tried(START, parts, 0, i, error);
    assert parts[0..] == parts;
    var j, e := SomeFirst(parts, 0);
    hide ParseFrom, TryAll, Collected, Line, Trim, NothingWrong, FirstWrong, AllPrintable, Behind;
  }

  lemma Beginning(parts: seq<Part>)
    ensures Behind(START, parts, 0)
  {
  }

  lemma SomeFirst(parts: seq<Part>, k: nat) returns (i: nat, error: Error)
    requires k <= |parts|
    ensures NothingWrong(parts, k) || FirstWrong(parts, k, i, error)
    decreases |parts| - k
  {
    hide ErrorAt;
    i, error := k, DuplicateName("");
    if k < |parts| && ErrorAt(parts, k).Some? { error := ErrorAt(parts, k).value; }
    else if k < |parts| { i, error := SomeFirst(parts, k + 1); }
  }

  lemma TrimLine(parts: seq<Part>)
    ensures Trim(Line(parts)) == Line(parts)
  {
    if parts == [] {
      EmptyLine();
    } else {
      LineEnds(parts);
      TrimWhole(Line(parts));
    }
  }

  // ------------------------------------------------- a well-formed specification can be added

  function PartNames(parts: seq<Part>): (r: seq<string>)
    ensures |r| == |parts| && forall i :: 0 <= i < |r| ==> r[i] == NameOf(parts[i])
  {
    seq(|parts|, i requires 0 <= i < |parts| => NameOf(parts[i]))
  }

  predicate Positioned(part: Part) { part.Positional? || part.Rest? }

  predicate Fixed(part: Part) { part.Positional? && part.arg.required }

  // Positionals come before the variadic, required ones before optional ones.
  predicate Ordered(parts: seq<Part>) {
    forall i, j :: 0 <= i < j < |parts| ==>
      (Positioned(parts[j]) ==> !parts[i].Rest?)
      && (Fixed(parts[j]) && parts[i].Positional? ==> parts[i].arg.required)
  }

  lemma OrderedAccepted(parts: seq<Part>)
    requires Ordered(parts) && Distinct(PartNames(parts))
    ensures NothingWrong(parts, 0)
  {
    forall i | 0 <= i < |parts| ensures !Twice(parts, i) {
      assert forall j :: 0 <= j < i ==> PartNames(parts)[j] != PartNames(parts)[i];
    }
  }

  lemma PartsOrdered(s: Spec)
    requires WellFormed(s)
    ensures Ordered(Parts(s)) && PartNames(Parts(s)) == Names(s)
  {
    var n, k := |s.positional|, |s.positional| + |RestPart(s.variadic)|;
    var parts := Parts(s);
    assert forall i :: 0 <= i < n ==> parts[i] == Positional(s.positional[i]);
    assert forall i :: n <= i < k ==> parts[i].Rest?;
    assert forall i :: k <= i < |parts| ==> !Positioned(parts[i]);
    hide Parts, Names;
    assert Ordered(parts);
    assert PartNames(parts) == Names(s) by { SameNames(s); }
  }

  lemma SameNames(s: Spec)
    ensures PartNames(Parts(s)) == Names(s)
  {
    var a, b, c, d := Positionals(s.positional), RestPart(s.variadic), Options(s.options), Switches(s.flags);
    assert PartNames(a) == ArgNames(s.positional) && PartNames(b) == VariadicName(s.variadic);
    assert PartNames(c) == OptionNames(s.options) && PartNames(d) == FlagList(s.flags);
    assert PartNames(a + b + c + d) == PartNames(a) + PartNames(b) + PartNames(c) + PartNames(d);
  }

  // ------------------------------------------------------------- what is added

  lemma {:induction false} CollectsArgs(args: seq<ArgDef>)
    ensures Collected(Positionals(args)) == EMPTY.(positional := args)
  {
    if args != [] {
      CollectsArgs(args[..|args| - 1]);
      assert Positionals(args)[..|args| - 1] == Positionals(args[..|args| - 1]);
    }
  }

  lemma {:induction false} CollectsOptions(before: seq<Part>, options: seq<OptionDef>)
    ensures var s := Collected(before); Collected(before + Options(options)) == s.(options := s.options + options)
  {
    if options == [] {
      assert before + Options(options) == before && Collected(before).options + [] == Collected(before).options;
    } else {
      var less := options[..|options| - 1];
      CollectsOptions(before, less);
      CollectedSnoc(before + Options(less), Valued(options[|less|]));
      assert before + Options(options) == before + Options(less) + [Valued(options[|less|])];
      assert Collected(before).options + less + [options[|less|]] == Collected(before).options + options;
      hide Collected;
    }
  }

  lemma {:induction false} CollectsSwitches(before: seq<Part>, flags: seq<FlagDef>)
    ensures var s := Collected(before); Collected(before + Switches(flags)) == s.(flags := s.flags + flags)
  {
    if flags == [] {
      assert before + Switches(flags) == before && Collected(before).flags + [] == Collected(before).flags;
    } else {
      var less := flags[..|flags| - 1];
      CollectsSwitches(before, less);
      CollectedSnoc(before + Switches(less), Switch(flags[|less|]));
      assert before + Switches(flags) == before + Switches(less) + [Switch(flags[|less|])];
      assert Collected(before).flags + less + [flags[|less|]] == Collected(before).flags + flags;
      hide Collected;
    }
  }

  lemma CollectsAll(s: Spec)
    ensures Collected(Parts(s)) == s
  {
    var a, b, c := Positionals(s.positional), RestPart(s.variadic), Options(s.options);
    CollectsArgs(s.positional);
    assert Collected(a + b) == EMPTY.(positional := s.positional, variadic := s.variadic) by {
      if s.variadic.Some? { assert (a + b)[..|a|] == a; } else { assert a + b == a; }
    }
    CollectsOptions(a + b, s.options);
    CollectsSwitches(a + b + c, s.flags);
    assert [] + s.options == s.options && [] + s.flags == s.flags;
  }

  // Parsing the definition of a well-formed specification, with names and aliases free of the delimiters of
  // their position, gives the specification back, short aliases included.
  lemma DefinitionRoundTrip(s: Spec)
    requires WellFormed(s) && AllPrintable(Parts(s))
    ensures Parse(Definition(s)) == Ok(s)
  {
    PartsOrdered(s);
    OrderedAccepted(Parts(s));
    WrittenIff(Parts(s), 0, DuplicateName(""));
    CollectsAll(s);
    hide Parse, Parts, Collected, NothingWrong, AllPrintable, Ordered, WellFormed;
  }

  // Parsing the usage line, which leaves the aliases out, gives the specification back without them.
  lemma UsageRoundTrip(s: Spec)
    requires WellFormed(s) && AllPrintable(Parts(Erased(s)))
    ensures Parse(UsageLine(s)) == Ok(Erased(s))
  {
    hide Parse, Definition, Erased, WellFormed, AllPrintable, Parts;
    ErasedNames(s);
    DefinitionRoundTrip(Erased(s));
  }

  lemma ErasedNames(s: Spec)
    ensures WellFormed(Erased(s)) <==> WellFormed(s)
  {
    assert OptionNames(Erased(s).options) == OptionNames(s.options);
    assert FlagList(Erased(s).flags) == FlagList(s.flags);
    assert Names(Erased(s)) == Names(s);
  }

  // Among specifications with printable names, exactly the well-formed ones survive.
  lemma RoundTripIff(s: Spec)
    requires AllPrintable(Parts(Erased(s)))
    ensures Parse(UsageLine(s)) == Ok(Erased(s)) <==> WellFormed(s)
  {
    hide Parse, UsageLine, Erased, WellFormed, AllPrintable, Parts;
    if WellFormed(s) { UsageRoundTrip(s); }
    if Parse(UsageLine(s)) == Ok(Erased(s)) {
      AcceptedIsWellFormed(UsageLine(s));
      ErasedNames(s);
    }
  }
}
