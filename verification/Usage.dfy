/** The usage line of a specification (crates/runbook/src/command.rs:370-399), and that parsing it
    gives the specification back. */
module Usage {
  import opened Wrappers
  import opened Text
  import opened ArgSpec

  datatype Part = Positional(arg: ArgDef) | Rest(all: VariadicDef) | Valued(option: OptionDef) | Switch(flag: FlagDef)

  function NameOf(part: Part): string {
    match part
    case Positional(arg) => arg.name
    case Rest(all) => all.name
    case Valued(option) => option.name
    case Switch(flag) => flag.name
  }

  // A flag or option as it is written in a definition: the alias, if any, before the name.
  function Dashed(short: Option<char>, name: string): (r: string)
    ensures |r| >= 2 && r[0] == '-'
  {
    if short.Some? then "-" + [short.value] + ("/--" + name) else "--" + name
  }

  // A part of a definition.
  function Print(part: Part): (r: string)
    ensures r != "" && !IsWhitespace(r[0])
    ensures !IsWhitespace(r[|r| - 1])
  {
    match part
    case Positional(arg) => if arg.required then "<" + (arg.name + ">") else "[" + (arg.name + "]")
    case Rest(all) => if all.required then "<" + (all.name + "..." + ">") else "[" + (all.name + "..." + "]")
    case Valued(option) =>
      if option.required then Dashed(option.short, option.name) + " <" + option.name + ">"
      else "[" + (Dashed(option.short, option.name) + " <" + option.name + ">" + "]")
    case Switch(flag) => "[" + (Dashed(flag.short, flag.name) + "]")
  }

  function Positionals(args: seq<ArgDef>): (r: seq<Part>)
    ensures |r| == |args| && forall i :: 0 <= i < |r| ==> r[i] == Positional(args[i])
  {
    seq(|args|, i requires 0 <= i < |args| => Positional(args[i]))
  }

  function Options(options: seq<OptionDef>): (r: seq<Part>)
    ensures |r| == |options| && forall i :: 0 <= i < |r| ==> r[i] == Valued(options[i])
  {
    seq(|options|, i requires 0 <= i < |options| => Valued(options[i]))
  }

  function Switches(flags: seq<FlagDef>): (r: seq<Part>)
    ensures |r| == |flags| && forall i :: 0 <= i < |r| ==> r[i] == Switch(flags[i])
  {
    seq(|flags|, i requires 0 <= i < |flags| => Switch(flags[i]))
  }

  function RestPart(v: Option<VariadicDef>): seq<Part> {
    if v.Some? then [Rest(v.value)] else []
  }

  // The parts of the line, in order.
  function Parts(s: Spec): seq<Part> {
    Positionals(s.positional) + RestPart(s.variadic) + Options(s.options) + Switches(s.flags)
  }

  function Prints(parts: seq<Part>): (r: seq<string>)
    ensures |r| == |parts| && forall i :: 0 <= i < |r| ==> r[i] == Print(parts[i])
  {
    seq(|parts|, i requires 0 <= i < |parts| => Print(parts[i]))
  }

  function Line(parts: seq<Part>): string { Join(Prints(parts), " ") }

  // The whole definition of a specification.
  function Definition(s: Spec): string { Line(Parts(s)) }

  // The specification without its short aliases.
  function Erased(s: Spec): Spec {
    s.(options := seq(|s.options|, i requires 0 <= i < |s.options| => s.options[i].(short := None)),
       flags := seq(|s.flags|, i requires 0 <= i < |s.flags| => s.flags[i].(short := None)))
  }

  // The usage line leaves the aliases out.
  function UsageLine(s: Spec): string { Definition(Erased(s)) }

  lemma PrintsSnoc(done: seq<string>, parts: seq<Part>, i: nat)
    requires i < |parts|
    ensures done + Prints(parts[..i + 1]) == done + Prints(parts[..i]) + [Print(parts[i])]
  {
    hide Print;
  }

  lemma PrintsAppend(a: seq<Part>, b: seq<Part>)
    ensures Prints(a + b) == Prints(a) + Prints(b)
  {
    hide Print;
  }

  lemma PrintedArg(arg: ArgDef)
    ensures Print(Positional(arg)) == if arg.required then "<" + (arg.name + ">") else "[" + (arg.name + "]")
  {
  }

  lemma PrintedRest(v: Option<VariadicDef>, parts: seq<string>)
    ensures parts + Prints(RestPart(v))
         == if v.None? then parts
            else parts + [if v.value.required then "<" + (v.value.name + "..." + ">")
                          else "[" + (v.value.name + "..." + "]")]
  {
  }

  lemma PrintedOption(option: OptionDef)
    ensures Print(Valued(option.(short := None)))
         == (if option.required then "--" + option.name + " <" + option.name + ">"
             else "[" + ("--" + option.name + " <" + option.name + ">" + "]"))
  {
  }

  lemma PrintedFlag(flag: FlagDef)
    ensures Print(Switch(flag.(short := None))) == "[" + ("--" + flag.name + "]")
  {
  }

  lemma NoPrints(done: seq<string>, parts: seq<Part>)
    ensures done + Prints(parts[..0]) == done && parts[..|parts|] == parts
  {
  }

  // The line as the source builds it.
  method BuildUsageLine(s: Spec) returns (line: string)
    ensures line == UsageLine(s)
  {
    ghost var args, options, flags := Positionals(s.positional), Options(Erased(s).options), Switches(Erased(s).flags);
    ErasedAt(s);
    hide *;
    var parts: seq<string> := [];
    NoPrints([], args);
    for i := 0 to |s.positional|
      invariant parts == [] + Prints(args[..i])
    {
      var arg := s.positional[i];
      PrintsSnoc([], args, i);
      PrintedArg(arg);
      parts := parts + [if arg.required then "<" + (arg.name + ">") else "[" + (arg.name + "]")];
    }
    PrintedRest(s.variadic, parts);
    if s.variadic.Some? {
      var v := s.variadic.value;
      parts := parts + [if v.required then "<" + (v.name + "..." + ">") else "[" + (v.name + "..." + "]")];
    }
    ghost var done := parts;
    NoPrints(done, options);
    for i := 0 to |s.options|
      invariant parts == done + Prints(options[..i])
    {
      var opt := s.options[i];
      PrintsSnoc(done, options, i);
      PrintedOption(opt);
      parts := parts + [if opt.required then "--" + opt.name + " <" + opt.name + ">"
                        else "[" + ("--" + opt.name + " <" + opt.name + ">" + "]")];
    }
    done := parts;
    NoPrints(done, flags);
    for i := 0 to |s.flags|
      invariant parts == done + Prints(flags[..i])
    {
      var flag := s.flags[i];
      PrintsSnoc(done, flags, i);
      PrintedFlag(flag);
      parts := parts + ["[" + ("--" + flag.name + "]")];
    }
    PrintedParts(s);
    line := Join(parts, " ");
  }

  lemma ErasedAt(s: Spec)
    ensures var options, flags := Options(Erased(s).options), Switches(Erased(s).flags);
            && |options| == |s.options| && |flags| == |s.flags|
            && (forall i :: 0 <= i < |options| ==> options[i] == Valued(s.options[i].(short := None)))
            && (forall i :: 0 <= i < |flags| ==> flags[i] == Switch(s.flags[i].(short := None)))
    ensures |Positionals(s.positional)| == |s.positional|
    ensures forall i :: 0 <= i < |s.positional| ==> Positionals(s.positional)[i] == Positional(s.positional[i])
  {
  }

  lemma PrintedParts(s: Spec)
    ensures UsageLine(s)
         == Join([] + Prints(Positionals(s.positional)) + Prints(RestPart(s.variadic))
                 + Prints(Options(Erased(s).options)) + Prints(Switches(Erased(s).flags)), " ")
  {
    var a, b := Positionals(s.positional), RestPart(s.variadic);
    var c, d := Options(Erased(s).options), Switches(Erased(s).flags);
    assert Parts(Erased(s)) == a + b + c + d;
    hide *;
    PrintsAppend(a + b + c, d);
    PrintsAppend(a + b, c);
    PrintsAppend(a, b);
    NoneBefore(Prints(a));
    LineOf(s);
  }

  lemma NoneBefore(lines: seq<string>)
    ensures [] + lines == lines
  {
  }

  lemma LineOf(s: Spec)
    ensures UsageLine(s) == Join(Prints(Parts(Erased(s))), " ")
  {
    hide Prints, Parts, Erased, Join;
  }

  // ------------------------------------------------------------- names that survive printing

  predicate Free(name: string, delimiters: string) { forall c :: c in delimiters ==> c !in name }

  predicate NoLeadingSpace(name: string) { name == "" || !IsWhitespace(name[0]) }

  predicate NoTrailingSpace(name: string) { name == "" || !IsWhitespace(name[|name| - 1]) }

  predicate NoSpace(name: string) { forall c :: c in name ==> !IsWhitespace(c) }

  predicate GoodAlias(short: Option<char>) { short.Some? ==> !IsWhitespace(short.value) && short.value !in "-/<[]" }

  // Free of the delimiters of its position.
  predicate Printable(part: Part) {
    match part
    case Positional(arg) =>
      Trimmed(arg.name) && !EndsWithDots(arg.name)
      && (if arg.required then Free(arg.name, ">") else Balanced(arg.name) && !StartsWith(arg.name, "-"))
    case Rest(all) =>
      NoLeadingSpace(all.name) && !EndsWithDots(all.name)
      && (if all.required then Free(all.name, ">") else Balanced(all.name) && !StartsWith(all.name, "-"))
    case Valued(option) =>
      Free(option.name, "</") && GoodAlias(option.short)
      && (if option.required then Free(option.name, ">") && NoSpace(option.name)
          else Balanced(option.name) && NoTrailingSpace(option.name))
    case Switch(flag) =>
      Free(flag.name, "</") && Balanced(flag.name) && NoTrailingSpace(flag.name) && GoodAlias(flag.short)
  }

  // ------------------------------------------------------------- one part

  // What parsing a printed part adds.
  function Add(p: Parser, part: Part): Parser {
    var q := p.(names := p.names + {NameOf(part)});
    match part
    case Positional(arg) =>
      q.(spec := p.spec.(positional := p.spec.positional + [arg]), seenOptional := p.seenOptional || !arg.required)
    case Rest(all) => q.(spec := p.spec.(variadic := Some(all)))
    case Valued(option) => q.(spec := p.spec.(options := p.spec.options + [option]))
    case Switch(flag) => q.(spec := p.spec.(flags := p.spec.flags + [flag]))
  }

  // Why a part cannot be added: the first reason in the parser's order.
  function Trouble(p: Parser, part: Part): Option<Error> {
    var name := NameOf(part);
    var double := if name in p.names then Some(DuplicateName(name)) else None;
    match part
    case Positional(arg) =>
      if p.spec.variadic.Some? then Some(VariadicNotLast(name))
      else if arg.required && p.seenOptional then Some(OptionalBeforeRequired(name))
      else double
    case Rest(_) => if double.None? && p.spec.variadic.Some? then Some(VariadicNotLast(name)) else double
    case _ => double
  }

  function TryAdd(p: Parser, part: Part): Result<Parser, Error> {
    if Trouble(p, part).Some? then Err(Trouble(p, part).value) else Ok(Add(p, part))
  }

  predicate Ends(tail: string) { tail == "" || tail[0] == ' ' }

  lemma TrimWhole(s: string)
    requires s != "" && !IsWhitespace(s[0]) && !IsWhitespace(s[|s| - 1])
    ensures Trim(s) == s
  {
    TrimTrimmed(s);
  }

  lemma UpToFirst(name: string, c: char, tail: string)
    requires c !in name
    ensures UpTo(name + [c] + tail, c) == name && ArgSpec.After(name + [c] + tail, c) == tail
  {
    assert name + [c] + tail == name + ([c] + tail);
    FindAppend(name, [c] + tail, c);
  }

  lemma BracketedFirst(name: string, tail: string)
    requires Balanced(name)
    ensures Bracketed(name + "]" + tail) == name && AfterClosing(name + "]" + tail) == tail
  {
    var s := name + "]" + tail;
    hide Closing, Balanced;
    assert s[..|name|] == name && s[|name|] == ']' && s[|name| + 1..] == tail;
    ClosesOnce(s, |name|);
  }

  function Resume(r: Result<Parser, Error>, tail: string): Result<Parser, Error> {
    match r
    case Err(e) => Err(e)
    case Ok(p) => ParseFrom(p, tail)
  }

  lemma ParseItem(p: Parser, c: char, s: string)
    ensures ParseFrom(p, [c] + s) ==
            (match Item(p, c, s) case Err(e) => Err(e) case Ok(r) => ParseFrom(r.0, r.1))
  {
    assert ([c] + s)[1..] == s;
    hide Item;
  }

  lemma Regroup(open: string, token: string, close: string, tail: string)
    ensures open + (token + close) + tail == open + (token + close + tail)
  {
  }

  // Whether dots stand before the rest of the text.
  function Dots(dots: bool): string { if dots then "..." else "" }

  lemma DotsBefore(dots: bool, tail: string)
    requires dots || Ends(tail)
    ensures Ellipsis(Dots(dots) + tail) == dots && SkipDots(Dots(dots) + tail) == tail
  {
    if dots { assert ("..." + tail)[..3] == "..."; } else { assert "" + tail == tail; }
  }

  // `<token>` with or without dots behind it, and otherwise before a space or the end.
  lemma AngledPart(p: Parser, token: string, dots: bool, tail: string)
    requires '>' !in token && (dots || Ends(tail))
    ensures ParseFrom(p, "<" + (token + ">") + (Dots(dots) + tail)) == Resume(AddAngled(p, token, dots), tail)
  {
    var rest := Dots(dots) + tail;
    var s := token + ">" + rest;
    UpToFirst(token, '>', rest);
    DotsBefore(dots, tail);
    Regroup("<", token, ">", rest);
    ParseItem(p, '<', s);
    hide AddAngled, UpTo, ArgSpec.After, ParseFrom, Ellipsis, SkipDots, Ends, Dots;
    assert AngledItem(p, s) == With(AddAngled(p, token, dots), tail);
  }

  lemma BracketedPart(p: Parser, token: string, dots: bool, tail: string)
    requires Balanced(token) && (dots || Ends(tail))
    ensures ParseFrom(p, "[" + (token + "]") + (Dots(dots) + tail)) == Resume(AddBracketed(p, token, dots), tail)
  {
    var rest := Dots(dots) + tail;
    var s := token + "]" + rest;
    BracketedFirst(token, rest);
    DotsBefore(dots, tail);
    Regroup("[", token, "]", rest);
    ParseItem(p, '[', s);
    hide AddBracketed, Bracketed, AfterClosing, ParseFrom, Ellipsis, SkipDots, Ends, Balanced, Dots;
    assert BracketedItem(p, s) == With(AddBracketed(p, token, dots), tail);
  }

  lemma NoDots(tail: string)
    ensures Dots(false) + tail == tail
  {
  }

  lemma DotsGo(name: string)
    requires !EndsWithDots(name)
    ensures EndsWithDots(name + "...") && TrimDots(name + "...") == name
  {
    assert (name + "...")[..|name|] == name;
  }

  lemma DashedNames(short: Option<char>, name: string)
    requires '/' !in name && NoTrailingSpace(name) && GoodAlias(short)
    ensures FlagNames(Dashed(short, name)) == Ok((short, name))
  {
    var part := Dashed(short, name);
    DashedEnds(short, name);
    TrimWhole(part);
    if short.Some? { AliasNames(short.value, name); } else { assert '/' !in part && part[2..] == name; }
  }

  lemma AliasNames(c: char, name: string)
    requires '/' !in name && NoTrailingSpace(name) && GoodAlias(Some(c))
    ensures FlagNames(Dashed(Some(c), name)) == Ok((Some(c), name))
  {
    var part, alias, long := Dashed(Some(c), name), "-" + [c], "--" + name;
    AliasEnds(c, name);
    FindAtOnce("/" + long, '/');
    FindAppend(alias, "/" + long, '/');
    assert part == alias + ("/" + long);
    assert part[..2] == alias && part[3..] == long;
    AliasStarts(c, name);
    hide *;
    TrimWhole(part);
    TrimWhole(alias);
    TrimWhole(long);
    FromAlias(part, c, name, alias, long);
  }

  lemma AliasStarts(c: char, name: string)
    ensures var alias, long := "-" + [c], "--" + name;
            && StartsWith(alias, "-") && (c != '-' ==> !StartsWith(alias, "--")) && alias[1] == c
            && StartsWith(long, "--") && long[2..] == name
  {
    var alias := "-" + [c];
    assert alias[..1] == "-" && alias[1] == c;
    assert "--"[1] == '-';
  }

  lemma AliasEnds(c: char, name: string)
    requires '/' !in name && NoTrailingSpace(name) && GoodAlias(Some(c))
    ensures var part, alias, long := Dashed(Some(c), name), "-" + [c], "--" + name;
            && '/' !in alias && '/' !in long && c != '-'
            && part != "" && !IsWhitespace(part[0]) && !IsWhitespace(part[|part| - 1])
            && !IsWhitespace(alias[0]) && !IsWhitespace(alias[|alias| - 1])
            && !IsWhitespace(long[0]) && !IsWhitespace(long[|long| - 1])
  {
    assert '/' in "-/<[]" && '-' in "-/<[]";
  }

  lemma FromAlias(part: string, c: char, name: string, alias: string, long: string)
    requires Trim(part) == part && Trim(alias) == alias && Trim(long) == long && Find(part, '/') == 2 < |part|
    requires part[..2] == alias && part[3..] == long && '/' !in long
    requires StartsWith(alias, "-") && !StartsWith(alias, "--") && |alias| == 2 && alias[1] == c
    requires StartsWith(long, "--") && long[2..] == name
    ensures FlagNames(part) == Ok((Some(c), name))
  {
    hide Trim, Find, StartsWith;
  }

  lemma DashedEnds(short: Option<char>, name: string)
    requires NoTrailingSpace(name) && GoodAlias(short)
    ensures var d := Dashed(short, name); d != "" && !IsWhitespace(d[0]) && !IsWhitespace(d[|d| - 1])
  {
  }

  lemma DashedBalanced(short: Option<char>, name: string)
    requires Balanced(name) && GoodAlias(short)
    ensures Balanced(Dashed(short, name))
  {
    var first := if short.Some? then "-" + [short.value] + "/--" else "--";
    assert '[' in "-/<[]" && ']' in "-/<[]";
    assert Dashed(short, name) == first + name;
    FreeBalanced(first);
    hide *;
    BalancedAppend(first, name);
  }

  lemma FreeBalanced(s: string)
    requires '[' !in s && ']' !in s
    ensures Balanced(s)
  {
    forall i | 0 <= i <= |s| ensures Nesting(s[..i]) == 0 { FreeNesting(s[..i]); }
    assert s[..|s|] == s;
  }

  lemma FreeNesting(s: string)
    requires '[' !in s && ']' !in s
    ensures Nesting(s) == 0
  {
  }

  lemma BalancedAppend(a: string, b: string)
    requires Balanced(a) && Balanced(b)
    ensures Balanced(a + b)
  {
    NestingAppend(a, b);
    forall i | 0 <= i <= |a + b| ensures Nesting((a + b)[..i]) >= 0 {
      if i <= |a| {
        assert (a + b)[..i] == a[..i];
      } else {
        assert (a + b)[..i] == a + b[..i - |a|];
        NestingAppend(a, b[..i - |a|]);
      }
    }
    hide Nesting;
  }

  lemma AddsOption(p: Parser, short: Option<char>, name: string, required: bool)
    requires Free(name, "</") && NoTrailingSpace(name) && GoodAlias(short)
    ensures AddFlagOrOption(p, Dashed(short, name) + " <" + name + ">", required)
         == TryAdd(p, Valued(OptionDef(name, short, required)))
  {
    OptionText(short, name);
    DashedEnds(short, name);
    TrimSpaced(Dashed(short, name));
    assert '/' in "</";
    DashedNames(short, name);
    hide *;
    AddsNamed(p, Dashed(short, name) + " <" + name + ">", short, name, required);
  }

  // Adding what was named, if there is a value behind the names and if there is not.
  lemma AddsNamed(p: Parser, content: string, short: Option<char>, name: string, required: bool)
    requires Trim(content) == content
    ensures var i := Find(content, '<');
            && (i < |content| && FlagNames(Trim(content[..i])) == Ok((short, name)) ==>
                  AddFlagOrOption(p, content, required) == TryAdd(p, Valued(OptionDef(name, short, required))))
            && (i == |content| && FlagNames(content) == Ok((short, name)) ==>
                  AddFlagOrOption(p, content, required) == TryAdd(p, Switch(FlagDef(name, short))))
  {
    hide FlagNames, Trim, Find;
  }

  lemma OptionText(short: Option<char>, name: string)
    requires Free(name, "</") && GoodAlias(short)
    ensures var d := Dashed(short, name); var content := d + " <" + name + ">";
            Trim(content) == content && Find(content, '<') == |d| + 1 && content[..|d| + 1] == d + " "
  {
    var d := Dashed(short, name);
    var content := d + " <" + name + ">";
    TrimWhole(content);
    assert '<' in "</" && '<' in "-/<[]";
    assert '<' !in d;
    hide Find, Trim, Dashed;
    assert content == (d + " ") + ("<" + name + ">");
    FindAppend(d + " ", "<" + name + ">", '<');
    assert Find("<" + name + ">", '<') == 0 by { FindAtOnce("<" + name + ">", '<'); }
  }

  lemma TrimSpaced(s: string)
    requires s != "" && !IsWhitespace(s[0]) && !IsWhitespace(s[|s| - 1])
    ensures Trim(s + " ") == s
  {
    assert TrimStart(s + " ") == s + " ";
    assert (s + " ")[..|s|] == s;
    assert TrimEnd(s + " ") == TrimEnd(s);
  }

  lemma AddsFlag(p: Parser, short: Option<char>, name: string, required: bool)
    requires Free(name, "</") && NoTrailingSpace(name) && GoodAlias(short)
    ensures AddFlagOrOption(p, Dashed(short, name), required)
         == TryAdd(p, Switch(FlagDef(name, short)))
  {
    var content := Dashed(short, name);
    DashedEnds(short, name);
    TrimWhole(content);
    assert '<' in "</" && '/' in "</" && '<' in "-/<[]";
    assert Find(content, '<') == |content|;
    DashedNames(short, name);
    hide *;
    AddsNamed(p, content, short, name, required);
  }

  lemma AddsPositional(p: Parser, part: Part)
    requires part.Positional? && Printable(part)
    ensures (if part.arg.required then AddAngled(p, part.arg.name, false) else AddBracketed(p, part.arg.name, false))
         == TryAdd(p, part)
  {
    TrimTrimmed(part.arg.name);
    AddsOne(p, part.arg);
    hide Trim, EndsWithDots, Free, AddFlagOrOption, AddRequired, AddOptional, TryAdd, TrimDots;
  }

  lemma AddsOne(p: Parser, arg: ArgDef)
    ensures (if arg.required then AddRequired(p, arg.name) else AddOptional(p, arg.name)) == TryAdd(p, Positional(arg))
  {
  }

  lemma PositionalPart(p: Parser, part: Part, tail: string)
    requires part.Positional? && Printable(part) && Ends(tail)
    ensures ParseFrom(p, Print(part) + tail) == Resume(TryAdd(p, part), tail)
  {
    var name := part.arg.name;
    AddsPositional(p, part);
    assert '>' in ">";
    hide ParseFrom, TryAdd, AddAngled, AddBracketed, EndsWithDots, StartsWith, Trimmed;
    if part.arg.required {
      AngledPart(p, name, false, tail);
      NoDots(tail);
    } else {
      BracketedPart(p, name, false, tail);
      NoDots(tail);
    }
  }

  lemma AddsRest(p: Parser, part: Part)
    requires part.Rest? && Printable(part)
    ensures (if part.all.required then AddAngled(p, part.all.name + "...", false)
             else AddBracketed(p, part.all.name + "...", false))
         == TryAdd(p, part)
  {
    var token := part.all.name + "...";
    TrimWhole(token);
    DotsGo(part.all.name);
    NotDashed(part.all.name);
    AddsAll(p, part.all);
    hide Trim, EndsWithDots, Free, AddFlagOrOption, AddVariadic, TryAdd, TrimDots, StartsWith;
  }

  lemma AddsAll(p: Parser, all: VariadicDef)
    ensures AddVariadic(p, all.name, all.required) == TryAdd(p, Rest(all))
  {
  }

  lemma NotDashed(name: string)
    ensures StartsWith(name + "...", "-") == StartsWith(name, "-")
  {
    DashStart(name);
    DashStart(name + "...");
    if name == "" { assert name + "..." == "..."; } else { assert (name + "...")[0] == name[0]; }
  }

  lemma DashStart(s: string)
    ensures StartsWith(s, "-") <==> s != "" && s[0] == '-'
  {
    if s != "" && s[0] == '-' { assert s[..1] == "-"; }
  }

  lemma FreeDots(name: string)
    ensures '>' !in name ==> '>' !in name + "..."
    ensures Balanced(name) ==> Balanced(name + "...")
  {
    FreeBalanced("...");
    if Balanced(name) { BalancedAppend(name, "..."); }
  }

  lemma RestPartParses(p: Parser, part: Part, tail: string)
    requires part.Rest? && Printable(part) && Ends(tail)
    ensures ParseFrom(p, Print(part) + tail) == Resume(TryAdd(p, part), tail)
  {
    var name := part.all.name;
    var token := name + "...";
    AddsRest(p, part);
    assert '>' in ">";
    FreeDots(name);
    hide ParseFrom, TryAdd, AddAngled, AddBracketed, EndsWithDots, StartsWith, NoLeadingSpace, Ends, Resume;
    assert part.all.required ==> '>' !in name;
    hide Free;
    if part.all.required {
      AngledPart(p, token, false, tail);
      NoDots(tail);
      assert Print(part) == "<" + (token + ">");
    } else {
      BracketedPart(p, token, false, tail);
      NoDots(tail);
      assert Print(part) == "[" + (token + "]");
    }
  }

  lemma AddsSwitch(p: Parser, short: Option<char>, name: string)
    requires Free(name, "</") && NoTrailingSpace(name) && GoodAlias(short)
    ensures AddBracketed(p, Dashed(short, name), false) == TryAdd(p, Switch(FlagDef(name, short)))
  {
    hide *;
    AddsFlag(p, short, name, false);
    BracketedDash(p, short, name);
  }

  lemma BracketedDash(p: Parser, short: Option<char>, name: string)
    requires NoTrailingSpace(name) && GoodAlias(short)
    ensures AddBracketed(p, Dashed(short, name), false) == AddFlagOrOption(p, Dashed(short, name), false)
  {
    var d := Dashed(short, name);
    DashedEnds(short, name);
    TrimWhole(d);
    DashStart(d);
    hide AddFlagOrOption, Trim, Dashed, StartsWith, EndsWithDots, TrimDots;
  }

  lemma SwitchPart(p: Parser, part: Part, tail: string)
    requires part.Switch? && Printable(part) && Ends(tail)
    ensures ParseFrom(p, Print(part) + tail) == Resume(TryAdd(p, part), tail)
  {
    var short, name := part.flag.short, part.flag.name;
    DashedBalanced(short, name);
    AddsSwitch(p, short, name);
    hide ParseFrom, AddBracketed, Dashed, Free, Balanced, Add;
    BracketedPart(p, Dashed(short, name), false, tail);
    NoDots(tail);
  }

  lemma AddsOptional(p: Parser, short: Option<char>, name: string)
    requires Free(name, "</") && NoTrailingSpace(name) && GoodAlias(short)
    ensures var token := Dashed(short, name) + " <" + name + ">";
            AddBracketed(p, token, false) == AddFlagOrOption(p, token, false)
  {
    var token := Dashed(short, name) + " <" + name + ">";
    OptionText(short, name);
    DashStart(token);
    hide AddFlagOrOption, Trim, Dashed, StartsWith, EndsWithDots, TrimDots;
  }

  lemma OptionBalanced(short: Option<char>, name: string)
    requires Balanced(name) && GoodAlias(short)
    ensures Balanced(Dashed(short, name) + " <" + name + ">")
  {
    DashedBalanced(short, name);
    FreeBalanced(" <");
    FreeBalanced(">");
    hide *;
    BalancedAppend(Dashed(short, name), " <");
    BalancedAppend(Dashed(short, name) + " <", name);
    BalancedAppend(Dashed(short, name) + " <" + name, ">");
  }

  lemma OptionalOptionPart(p: Parser, part: Part, tail: string)
    requires part.Valued? && !part.option.required && Printable(part) && Ends(tail)
    ensures ParseFrom(p, Print(part) + tail) == Resume(TryAdd(p, part), tail)
  {
    var short, name := part.option.short, part.option.name;
    var token := Dashed(short, name) + " <" + name + ">";
    OptionBalanced(short, name);
    AddsOptional(p, short, name);
    AddsOption(p, short, name, false);
    hide ParseFrom, AddFlagOrOption, AddBracketed, Free, Balanced, NoTrailingSpace, Dashed;
    BracketedPart(p, token, false, tail);
    NoDots(tail);
  }

  lemma {:induction false} WordOfName(name: string, tail: string)
    requires NoSpace(name) && tail != "" && IsWhitespace(tail[0])
    ensures WordEnd(name + tail) == |name|
  {
    if name == "" {
      assert name + tail == tail;
    } else {
      assert (name + tail)[0] == name[0] && (name + tail)[1..] == name[1..] + tail;
      WordOfName(name[1..], tail);
    }
  }

  // The word and the rest of `word rest`.
  lemma WordSplits(word: string, rest: string)
    requires NoSpace(word) && rest != "" && !IsWhitespace(rest[0])
    ensures Word(word + (" " + rest)) == word && AfterWord(word + (" " + rest)) == rest
  {
    WordOfName(word, " " + rest);
    assert (word + (" " + rest))[|word|..] == " " + rest;
    assert (" " + rest)[1..] == rest;
  }

  // What follows the dash that begins a required option.
  function Undashed(short: Option<char>, name: string): string { Dashed(short, name)[1..] }

  lemma RequiredOptionText(short: Option<char>, name: string, tail: string)
    ensures var u := Undashed(short, name);
            && Dashed(short, name) + " <" + name + ">" + tail == "-" + (u + (" " + ("<" + (name + ">" + tail))))
            && "-" + u + " <" + name + ">" == Dashed(short, name) + " <" + name + ">"
  {
    var d, u := Dashed(short, name), Undashed(short, name);
    hide Dashed;
    assert d == "-" + u;
  }

  lemma RequiredOptionItem(p: Parser, short: Option<char>, name: string, tail: string)
    requires Free(name, "</") && Free(name, ">") && NoSpace(name) && GoodAlias(short)
    ensures DashedItem(p, Undashed(short, name) + (" " + ("<" + (name + ">" + tail))))
         == With(TryAdd(p, Valued(OptionDef(name, short, true))), tail)
  {
    hide *;
    var u, rest := Undashed(short, name), "<" + (name + ">" + tail);
    var text := u + (" " + rest);
    assert Word(text) == u && AfterWord(text) == rest by {
      DashWord(short, name);
      NotSpace();
      WordSplits(u, rest);
    }
    assert rest[1..] == name + ">" + tail;
    assert UpTo(rest[1..], '>') == name && ArgSpec.After(rest[1..], '>') == tail by {
      FreeOne(name);
      UpToFirst(name, '>', tail);
    }
    assert AddFlagOrOption(p, "-" + u + " <" + name + ">", true) == TryAdd(p, Valued(OptionDef(name, short, true))) by {
      RequiredOptionText(short, name, tail);
      NoSpaceEnd(name);
      AddsOption(p, short, name, true);
    }
    DashedOption(p, text);
  }

  lemma DashWord(short: Option<char>, name: string)
    requires NoSpace(name) && GoodAlias(short)
    ensures NoSpace(Undashed(short, name))
  {
  }

  lemma NotSpace()
    ensures !IsWhitespace('<')
  {
  }

  lemma FreeOne(name: string)
    requires Free(name, ">")
    ensures '>' !in name
  {
    assert '>' in ">";
  }

  lemma NoSpaceEnd(name: string)
    requires NoSpace(name)
    ensures NoTrailingSpace(name)
  {
  }

  lemma RequiredOptionPart(p: Parser, part: Part, tail: string)
    requires part.Valued? && part.option.required && Printable(part) && Ends(tail)
    ensures ParseFrom(p, Print(part) + tail) == Resume(TryAdd(p, part), tail)
  {
    var short, name := part.option.short, part.option.name;
    var s := Undashed(short, name) + (" " + ("<" + (name + ">" + tail)));
    RequiredOptionItem(p, short, name, tail);
    RequiredOptionText(short, name, tail);
    ParseItem(p, '-', s);
    hide ParseFrom, DashedItem, Free, NoSpace, Dashed, Undashed;
    assert Item(p, '-', s) == DashedItem(p, s);
  }

  // A printed part is read as itself, wherever it stands in the line.
  lemma PartParses(p: Parser, part: Part, tail: string)
    requires Printable(part) && Ends(tail)
    ensures ParseFrom(p, Print(part) + tail) == Resume(TryAdd(p, part), tail)
  {
    hide ParseFrom, Print, TryAdd, Printable, Resume;
    match part
    case Positional(_) => PositionalPart(p, part, tail);
    case Rest(_) => RestPartParses(p, part, tail);
    case Switch(_) => SwitchPart(p, part, tail);
    case Valued(option) =>
      if option.required { RequiredOptionPart(p, part, tail); } else { OptionalOptionPart(p, part, tail); }
  }

  // ------------------------------------------------------------- flags without brackets

  // A flag may stand without brackets; what follows it, but for a value, is read on its own.
  lemma BareFlag(p: Parser, flag: FlagDef, rest: string)
    requires Free(flag.name, "</") && NoSpace(flag.name) && GoodAlias(flag.short)
    requires rest == "" || (!IsWhitespace(rest[0]) && rest[0] != '<')
    ensures ParseFrom(p, Dashed(flag.short, flag.name) + if rest == "" then "" else " " + rest)
            == Resume(TryAdd(p, Switch(flag)), rest)
  {
    hide *;
    var u := Undashed(flag.short, flag.name);
    var s := u + if rest == "" then "" else " " + rest;
    DashWord(flag.short, flag.name);
    NoSpaceEnd(flag.name);
    AddsFlag(p, flag.short, flag.name, true);
    DashedWhole(flag.short, flag.name, if rest == "" then "" else " " + rest);
    WordAndRest(u, rest);
    DashedFlag(p, s);
    ParseItem(p, '-', s);
    ItemDashed(p, s);
    ResumeWith(TryAdd(p, Switch(flag)), rest);
  }

  lemma DashedWhole(short: Option<char>, name: string, tail: string)
    ensures var u := Undashed(short, name);
            Dashed(short, name) == "-" + u && Dashed(short, name) + tail == "-" + (u + tail)
  {
    var d, u := Dashed(short, name), Undashed(short, name);
    hide Dashed;
    assert d == "-" + u;
  }

  lemma WordAndRest(word: string, rest: string)
    requires NoSpace(word) && (rest == "" || !IsWhitespace(rest[0]))
    ensures var s := word + if rest == "" then "" else " " + rest; Word(s) == word && AfterWord(s) == rest
  {
    if rest == "" {
      assert word + "" == word;
      WordEndWhole(word);
      assert word[|word|..] == "" && word[..|word|] == word;
    } else {
      WordSplits(word, rest);
    }
  }

  lemma WordEndWhole(word: string)
    requires NoSpace(word)
    ensures WordEnd(word) == |word|
  {
    if word != "" { WordEndWhole(word[1..]); }
  }

  lemma ItemDashed(p: Parser, s: string)
    ensures Item(p, '-', s) == DashedItem(p, s)
  {
    hide DashedItem;
  }

  lemma ResumeWith(r: Result<Parser, Error>, tail: string)
    ensures Resume(r, tail)
            == match With(r, tail) case Err(e) => Err(e) case Ok(q) => ParseFrom(q.0, q.1)
  {
    hide ParseFrom;
  }

  // ------------------------------------------------------------- dots behind the brackets

  // A variadic may have its dots behind the brackets, whatever follows them.
  lemma DotsBehind(p: Parser, all: VariadicDef, tail: string)
    requires Printable(Rest(all)) && NoTrailingSpace(all.name)
    ensures ParseFrom(p, Print(Positional(ArgDef(all.name, all.required))) + ("..." + tail))
            == Resume(TryAdd(p, Rest(all)), tail)
  {
    var name := all.name;
    AddsDotted(p, all);
    assert '>' in ">";
    hide ParseFrom, TryAdd, AddAngled, AddBracketed, EndsWithDots, StartsWith, Balanced, Resume;
    if all.required { AngledPart(p, name, true, tail); } else { BracketedPart(p, name, true, tail); }
  }

  lemma AddsDotted(p: Parser, all: VariadicDef)
    requires Printable(Rest(all)) && NoTrailingSpace(all.name)
    ensures (if all.required then AddAngled(p, all.name, true) else AddBracketed(p, all.name, true))
         == TryAdd(p, Rest(all))
  {
    TrimTrimmed(all.name);
    DotsGo(all.name);
    AddsAll(p, all);
    hide Trim, EndsWithDots, Free, Balanced, AddFlagOrOption, AddVariadic, TryAdd, StartsWith;
  }

  // Behind a flag or an option they are refused.
  lemma DotsRefused(p: Parser, content: string, tail: string)
    requires Balanced(content) && StartsWith(Trim(content), "-")
    ensures ParseFrom(p, "[" + (content + "]") + ("..." + tail))
            == Err(InvalidSyntax("ellipsis not valid after flag/option: [" + Trim(content) + "]..."))
  {
    BracketedPart(p, content, true, tail);
    hide ParseFrom, Trim, Balanced, StartsWith, AddFlagOrOption, EndsWithDots, TrimDots;
  }
}
