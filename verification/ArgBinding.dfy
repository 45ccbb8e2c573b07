/** Validating split arguments and binding them to names (crates/runbook/src/command.rs:609-713). */
module ArgBinding {
  import opened Wrappers
  import opened Text
  import opened ArgSpec
  import opened ArgSplit

  datatype Problem =
    | MissingPositional(name: string)
    | MissingOption(name: string)
    | MissingVariadic(name: string)
    | UnexpectedPositional(arg: string)
    | UnknownOption(name: string)

  predicate Given(name: string, named: map<string, string>, defaults: map<string, string>) {
    name in named || name in defaults
  }

  function FirstMissingArg(args: seq<ArgDef>, from: nat, given: Split, defaults: map<string, string>): Option<Problem>
    requires from <= |args|
    decreases |args| - from
  {
    if from == |args| then None
    else if args[from].required && from >= |given.positional| && !Given(args[from].name, given.named, defaults)
    then Some(MissingPositional(args[from].name))
    else FirstMissingArg(args, from + 1, given, defaults)
  }

  function FirstMissingOption(options: seq<OptionDef>, from: nat, given: Split,
                              defaults: map<string, string>): Option<Problem>
    requires from <= |options|
    decreases |options| - from
  {
    if from == |options| then None
    else if options[from].required && !Given(options[from].name, given.named, defaults)
    then Some(MissingOption(options[from].name))
    else FirstMissingOption(options, from + 1, given, defaults)
  }

  function RestProblem(s: Spec, given: Split, defaults: map<string, string>): Option<Problem> {
    var n := |s.positional|;
    if s.variadic.Some? then
      (if s.variadic.value.required && |given.positional| <= n && !Given(s.variadic.value.name, given.named, defaults)
       then Some(MissingVariadic(s.variadic.value.name)) else None)
    else if |given.positional| > n then Some(UnexpectedPositional(given.positional[n]))
    else None
  }

  // What validation finds once every named argument is known.
  function FirstProblem(s: Spec, given: Split, defaults: map<string, string>): Option<Problem> {
    var arg := FirstMissingArg(s.positional, 0, given, defaults);
    var option := FirstMissingOption(s.options, 0, given, defaults);
    if arg.Some? then arg
    else if option.Some? then option
    else RestProblem(s, given, defaults)
  }

  predicate Known(s: Spec, named: map<string, string>) { forall k :: k in named ==> k in Names(s) }

  // ------------------------------------------------------------- what has to be there

  // A required positional has an argument in its place, is named, or has a default.
  predicate HasArg(s: Spec, given: Split, defaults: map<string, string>, i: nat)
    requires i < |s.positional|
  {
    s.positional[i].required ==>
      i < |given.positional| || s.positional[i].name in given.named || s.positional[i].name in defaults
  }

  predicate HasArgs(s: Spec, given: Split, defaults: map<string, string>) {
    forall i :: 0 <= i < |s.positional| ==> HasArg(s, given, defaults, i)
  }

  // A required option is named or has a default.
  predicate HasOption(s: Spec, given: Split, defaults: map<string, string>, i: nat)
    requires i < |s.options|
  {
    s.options[i].required ==> s.options[i].name in given.named || s.options[i].name in defaults
  }

  predicate HasOptions(s: Spec, given: Split, defaults: map<string, string>) {
    forall i :: 0 <= i < |s.options| ==> HasOption(s, given, defaults, i)
  }

  // A required variadic has arguments behind the positionals, is named, or has a default.
  predicate HasRest(s: Spec, given: Split, defaults: map<string, string>) {
    s.variadic.Some? && s.variadic.value.required ==>
      |given.positional| > |s.positional| || s.variadic.value.name in given.named || s.variadic.value.name in defaults
  }

  // Without a variadic there is an argument for each positional at most.
  predicate Fits(s: Spec, given: Split) { s.variadic.None? ==> |given.positional| <= |s.positional| }

  predicate Complete(s: Spec, given: Split, defaults: map<string, string>) {
    HasArgs(s, given, defaults) && HasOptions(s, given, defaults) && HasRest(s, given, defaults) && Fits(s, given)
  }

  // The problem is one, and in the order positionals, options, variadic, left-over arguments, each in the
  // order of the specification, there is none before it.
  predicate FirstOf(s: Spec, given: Split, defaults: map<string, string>, problem: Problem) {
    match problem
    case MissingPositional(name) =>
      exists i :: 0 <= i < |s.positional| && s.positional[i].name == name && !HasArg(s, given, defaults, i)
                  && forall j :: 0 <= j < i ==> HasArg(s, given, defaults, j)
    case MissingOption(name) =>
      && HasArgs(s, given, defaults)
      && exists i :: 0 <= i < |s.options| && s.options[i].name == name && !HasOption(s, given, defaults, i)
                     && forall j :: 0 <= j < i ==> HasOption(s, given, defaults, j)
    case MissingVariadic(name) =>
      && HasArgs(s, given, defaults) && HasOptions(s, given, defaults) && !HasRest(s, given, defaults)
      && s.variadic.value.name == name
    case UnexpectedPositional(arg) =>
      && HasArgs(s, given, defaults) && HasOptions(s, given, defaults) && HasRest(s, given, defaults)
      && !Fits(s, given) && given.positional[|s.positional|] == arg
    case UnknownOption(_) => false
  }

  lemma {:induction false} FirstArg(s: Spec, from: nat, given: Split, defaults: map<string, string>)
    requires from <= |s.positional| && forall j :: 0 <= j < from ==> HasArg(s, given, defaults, j)
    ensures var r := FirstMissingArg(s.positional, from, given, defaults);
            && (r.None? <==> HasArgs(s, given, defaults))
            && (r.Some? ==> r.value.MissingPositional? && FirstOf(s, given, defaults, r.value))
    decreases |s.positional| - from
  {
    if from < |s.positional| && HasArg(s, given, defaults, from) { FirstArg(s, from + 1, given, defaults); }
  }

  lemma {:induction false} FirstOption(s: Spec, from: nat, given: Split, defaults: map<string, string>)
    requires from <= |s.options| && forall j :: 0 <= j < from ==> HasOption(s, given, defaults, j)
    requires HasArgs(s, given, defaults)
    ensures var r := FirstMissingOption(s.options, from, given, defaults);
            && (r.None? <==> HasOptions(s, given, defaults))
            && (r.Some? ==> r.value.MissingOption? && FirstOf(s, given, defaults, r.value))
    decreases |s.options| - from
  {
    if from < |s.options| && HasOption(s, given, defaults, from) { FirstOption(s, from + 1, given, defaults); }
  }

  // Nothing is found exactly if all that has to be there is, and nothing is left over; and what is found is
  // the first problem.
  lemma ProblemIs(s: Spec, given: Split, defaults: map<string, string>)
    ensures FirstProblem(s, given, defaults).None? <==> Complete(s, given, defaults)
    ensures var r := FirstProblem(s, given, defaults); r.Some? ==> FirstOf(s, given, defaults, r.value)
  {
    FirstArg(s, 0, given, defaults);
    if HasArgs(s, given, defaults) { FirstOption(s, 0, given, defaults); }
    hide FirstMissingArg, FirstMissingOption, HasArgs, HasOptions;
  }

  // The hash map may be walked in any order, so any unknown name may be the one reported.
  method ValidateArgs(s: Spec, given: Split, defaults: map<string, string>) returns (r: Option<Problem>)
    ensures Known(s, given.named) ==> r == FirstProblem(s, given, defaults)
    ensures r.None? <==> Known(s, given.named) && Complete(s, given, defaults)
    ensures Known(s, given.named) && r.Some? ==> FirstOf(s, given, defaults, r.value)
    ensures !Known(s, given.named) ==> r.Some? && r.value.UnknownOption?
                                       && r.value.name in given.named && r.value.name !in Names(s)
  {
    ProblemIs(s, given, defaults);
    hide Complete, FirstOf;
    var keys := given.named.Keys;
    while keys != {}
      invariant keys <= given.named.Keys
      invariant forall k :: k in given.named && k !in keys ==> k in Names(s)
      decreases |keys|
    {
      var key :| key in keys;
      if key !in Names(s) { return Some(UnknownOption(key)); }
      keys := keys - {key};
    }
    for i := 0 to |s.positional|
      invariant FirstMissingArg(s.positional, 0, given, defaults) == FirstMissingArg(s.positional, i, given, defaults)
    {
      var arg := s.positional[i];
      if arg.required {
        var hasValue := i < |given.positional| || arg.name in given.named || arg.name in defaults;
        if !hasValue { return Some(MissingPositional(arg.name)); }
      }
    }
    for i := 0 to |s.options|
      invariant FirstMissingOption(s.options, 0, given, defaults) == FirstMissingOption(s.options, i, given, defaults)
    {
      var option := s.options[i];
      if option.required {
        var hasValue := option.name in given.named || option.name in defaults;
        if !hasValue { return Some(MissingOption(option.name)); }
      }
    }
    if s.variadic.Some? && s.variadic.value.required {
      var name := s.variadic.value.name;
      var hasValues := |given.positional| > |s.positional| || name in given.named || name in defaults;
      if !hasValues { return Some(MissingVariadic(name)); }
    }
    if s.variadic.None? && |given.positional| > |s.positional| {
      return Some(UnexpectedPositional(given.positional[|s.positional|]));
    }
    r := None;
  }

  // ------------------------------------------------------------- binding

  // The defaults after the first `n` positional arguments were bound.
  function BoundUpTo(s: Spec, given: Split, defaults: map<string, string>, n: nat): map<string, string>
    requires n <= |s.positional|
  {
    if n == 0 then defaults
    else
      var m := BoundUpTo(s, given, defaults, n - 1);
      if n - 1 < |given.positional| then m[s.positional[n - 1].name := given.positional[n - 1]] else m
  }

  function WithRest(s: Spec, given: Split, m: map<string, string>): map<string, string> {
    var n := |s.positional|;
    if s.variadic.Some? && |given.positional| > n
    then m[s.variadic.value.name := Join(given.positional[n..], " ")] else m
  }

  function Bound(s: Spec, given: Split, defaults: map<string, string>): map<string, string> {
    WithRest(s, given, BoundUpTo(s, given, defaults, |s.positional|)) + given.named
  }

  method ParseArgs(s: Spec, given: Split, defaults: map<string, string>) returns (result: map<string, string>)
    ensures result == Bound(s, given, defaults)
  {
    result := defaults;
    for i := 0 to |s.positional|
      invariant result == BoundUpTo(s, given, defaults, i)
    {
      if i < |given.positional| {
        result := result[s.positional[i].name := given.positional[i]];
      }
    }
    if s.variadic.Some? {
      var start := |s.positional|;
      if |given.positional| > start {
        result := result[s.variadic.value.name := Join(given.positional[start..], " ")];
      }
    }
    result := Override(result, given.named);
  }

  // All but the entries under `keys` inserted.
  function AllBut(before: map<string, string>, named: map<string, string>, keys: set<string>): map<string, string> {
    before + (named - keys)
  }

  lemma AllButEnds(before: map<string, string>, named: map<string, string>)
    ensures AllBut(before, named, named.Keys) == before && AllBut(before, named, {}) == before + named
  {
    assert named - {} == named;
  }

  lemma OneEntry(before: map<string, string>, named: map<string, string>, keys: set<string>, key: string)
    requires keys <= named.Keys && key in keys
    ensures AllBut(before, named, keys)[key := named[key]] == AllBut(before, named, keys - {key})
  {
    assert (named - keys)[key := named[key]] == named - (keys - {key});
  }

  // Inserts every named argument, in any order.
  method Override(before: map<string, string>, named: map<string, string>) returns (result: map<string, string>)
    ensures result == before + named
  {
    hide AllBut;
    result := before;
    var keys := named.Keys;
    AllButEnds(before, named);
    while keys != {}
      invariant keys <= named.Keys && result == AllBut(before, named, keys)
      decreases |keys|
    {
      var key :| key in keys;
      OneEntry(before, named, keys, key);
      result := result[key := named[key]];
      keys := keys - {key};
    }
  }

  // ------------------------------------------------------------- soundness

  lemma {:induction false} OptionFound(options: seq<OptionDef>, name: string, c: char)
    ensures FindOption(options, name).Some? ==> name in OptionNames(options)
    ensures FindShortOption(options, c).Some? ==> FindShortOption(options, c).value in OptionNames(options)
  {
    if options != [] {
      OptionFound(options[1..], name, c);
      assert OptionNames(options)[0] == options[0].name && OptionNames(options)[1..] == OptionNames(options[1..]);
    }
  }

  lemma {:induction false} FlagFound(flags: seq<FlagDef>, c: char)
    ensures FindShortFlag(flags, c).Some? ==> FindShortFlag(flags, c).value in FlagList(flags)
  {
    if flags != [] {
      FlagFound(flags[1..], c);
      assert FlagList(flags)[0] == flags[0].name && FlagList(flags)[1..] == FlagList(flags[1..]);
    }
  }

  lemma ClassifiedKnown(s: Spec, arg: string)
    ensures var k := Classify(s, arg); (k.Value? || k.Flag?) ==> k.name in Names(s)
  {
    if |arg| >= 2 {
      OptionFound(s.options, arg[2..], arg[1]);
      FlagFound(s.flags, arg[1]);
      var i := |ArgNames(s.positional) + VariadicName(s.variadic)|;
      assert forall n :: n in OptionNames(s.options) ==> n in Names(s);
      assert forall n :: n in FlagList(s.flags) ==> n in Names(s);
      if HasFlag(s.flags, arg[2..]) {
        var j :| 0 <= j < |s.flags| && s.flags[j].name == arg[2..];
        assert FlagList(s.flags)[j] == arg[2..];
      }
    }
  }

  // Splitting names only what the specification knows, so validation after it never reports an
  // unknown option.
  lemma {:induction false} SplitIsKnown(s: Spec, raw: seq<string>)
    ensures Known(s, SplitArgs(s, raw).named)
    decreases |raw|
  {
    hide Classify, Names;
    if raw != [] {
      ClassifiedKnown(s, raw[0]);
      SplitIsKnown(s, raw[1..]);
      if |raw| > 1 { SplitIsKnown(s, raw[2..]); }
    }
  }

  lemma {:induction false} NoMissingArg(args: seq<ArgDef>, from: nat, given: Split, defaults: map<string, string>,
                                        i: nat)
    requires from <= i < |args| && FirstMissingArg(args, from, given, defaults).None? && args[i].required
    ensures i < |given.positional| || Given(args[i].name, given.named, defaults)
    decreases |args| - from
  {
    if from < i { NoMissingArg(args, from + 1, given, defaults, i); }
  }

  lemma {:induction false} NoMissingOption(options: seq<OptionDef>, from: nat, given: Split,
                                           defaults: map<string, string>, i: nat)
    requires from <= i < |options| && FirstMissingOption(options, from, given, defaults).None? && options[i].required
    ensures Given(options[i].name, given.named, defaults)
    decreases |options| - from
  {
    if from < i { NoMissingOption(options, from + 1, given, defaults, i); }
  }

  // Binding touches the names of the positionals and keeps everything else.
  lemma {:induction false} BoundUpToAt(s: Spec, given: Split, defaults: map<string, string>, n: nat, name: string)
    requires n <= |s.positional| && Distinct(ArgNames(s.positional))
    ensures var m := BoundUpTo(s, given, defaults, n);
            && (forall i :: 0 <= i < n && i < |given.positional| && s.positional[i].name == name
                  ==> name in m && m[name] == given.positional[i])
            && ((forall i :: 0 <= i < n && i < |given.positional| ==> s.positional[i].name != name)
                  ==> (name in m <==> name in defaults) && (name in m ==> m[name] == defaults[name]))
  {
    if n > 0 {
      BoundUpToAt(s, given, defaults, n - 1, name);
      assert forall i, j :: 0 <= i < j < |s.positional| ==> ArgNames(s.positional)[i] != ArgNames(s.positional)[j];
    }
  }

  lemma NamesDistinct(s: Spec)
    requires Distinct(Names(s))
    ensures Distinct(ArgNames(s.positional))
    ensures s.variadic.Some? ==> s.variadic.value.name !in ArgNames(s.positional)
    ensures forall o :: o in OptionNames(s.options) ==> o !in ArgNames(s.positional)
                                                        && (s.variadic.Some? ==> o != s.variadic.value.name)
  {
    var names, n := Names(s), |s.positional|;
    assert forall i :: 0 <= i < n ==> names[i] == ArgNames(s.positional)[i];
    if s.variadic.Some? { assert names[n] == s.variadic.value.name; }
    var k := n + |VariadicName(s.variadic)|;
    assert forall i :: 0 <= i < |s.options| ==> names[k + i] == OptionNames(s.options)[i];
  }

  // A positional gets its named value, else the argument in its place, else its default; a
  // required one that passed validation gets one of them.
  lemma PositionalBound(s: Spec, given: Split, defaults: map<string, string>, i: nat)
    requires WellFormed(s) && i < |s.positional|
    ensures var m, name := Bound(s, given, defaults), s.positional[i].name;
            && (s.positional[i].required && FirstProblem(s, given, defaults).None? ==> name in m)
            && (name in m ==> m[name] == (if name in given.named then given.named[name]
                                          else if i < |given.positional| then given.positional[i]
                                          else if name in defaults then defaults[name] else ""))
            && (name in m <==> name in given.named || i < |given.positional| || name in defaults)
  {
    var name := s.positional[i].name;
    NamesDistinct(s);
    assert ArgNames(s.positional)[i] == name;
    BoundUpToAt(s, given, defaults, |s.positional|, name);
    assert forall j :: 0 <= j < |s.positional| && j != i ==> s.positional[j].name != name by {
      assert forall j :: 0 <= j < |s.positional| ==> ArgNames(s.positional)[j] == s.positional[j].name;
    }
    if s.positional[i].required && FirstProblem(s, given, defaults).None? {
      NoMissingArg(s.positional, 0, given, defaults, i);
    }
  }

  lemma OptionBound(s: Spec, given: Split, defaults: map<string, string>, i: nat)
    requires WellFormed(s) && i < |s.options|
    ensures var m, name := Bound(s, given, defaults), s.options[i].name;
            && (s.options[i].required && FirstProblem(s, given, defaults).None? ==> name in m)
            && (name in m ==> m[name] == (if name in given.named then given.named[name]
                                          else if name in defaults then defaults[name] else ""))
            && (name in m <==> Given(name, given.named, defaults))
  {
    var name := s.options[i].name;
    NamesDistinct(s);
    assert OptionNames(s.options)[i] == name && name in OptionNames(s.options);
    assert forall j :: 0 <= j < |s.positional| ==> ArgNames(s.positional)[j] == s.positional[j].name;
    BoundUpToAt(s, given, defaults, |s.positional|, name);
    if s.options[i].required && FirstProblem(s, given, defaults).None? {
      NoMissingOption(s.options, 0, given, defaults, i);
    }
  }

  lemma VariadicBound(s: Spec, given: Split, defaults: map<string, string>)
    requires WellFormed(s) && s.variadic.Some?
    ensures var m, name, n := Bound(s, given, defaults), s.variadic.value.name, |s.positional|;
            && (s.variadic.value.required && FirstProblem(s, given, defaults).None? ==> name in m)
            && (name in m ==> m[name] == (if name in given.named then given.named[name]
                                          else if |given.positional| > n then Join(given.positional[n..], " ")
                                          else if name in defaults then defaults[name] else ""))
            && (name in m <==> name in given.named || |given.positional| > n || name in defaults)
  {
    var name := s.variadic.value.name;
    NamesDistinct(s);
    assert forall j :: 0 <= j < |s.positional| ==> ArgNames(s.positional)[j] == s.positional[j].name;
    BoundUpToAt(s, given, defaults, |s.positional|, name);
  }

  // From the raw command line: if validation of the split arguments succeeds, every required name
  // is bound.
  lemma ValidatedIsBound(text: string, raw: seq<string>, defaults: map<string, string>)
    requires Parse(text).Ok? && FirstProblem(Parse(text).value, SplitArgs(Parse(text).value, raw), defaults).None?
    ensures var s := Parse(text).value; var m := Bound(s, SplitArgs(s, raw), defaults);
            && (forall i :: 0 <= i < |s.positional| && s.positional[i].required ==> s.positional[i].name in m)
            && (forall i :: 0 <= i < |s.options| && s.options[i].required ==> s.options[i].name in m)
            && (s.variadic.Some? && s.variadic.value.required ==> s.variadic.value.name in m)
  {
    AcceptedIsWellFormed(text);
    var s := Parse(text).value;
    var given := SplitArgs(s, raw);
    hide Parse, SplitArgs, WellFormed, FirstProblem, Bound;
    forall i | 0 <= i < |s.positional| && s.positional[i].required
      ensures s.positional[i].name in Bound(s, given, defaults)
    {
      PositionalBound(s, given, defaults, i);
    }
    forall i | 0 <= i < |s.options| && s.options[i].required ensures s.options[i].name in Bound(s, given, defaults) {
      OptionBound(s, given, defaults, i);
    }
    if s.variadic.Some? { VariadicBound(s, given, defaults); }
  }
}
