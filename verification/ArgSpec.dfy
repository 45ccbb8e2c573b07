/** The argument-specification language (crates/runbook/src/command.rs:10-368): its parser as a
    function, and what every accepted specification satisfies. */
module ArgSpec {
  import opened Wrappers
  import opened Text

  datatype ArgDef = ArgDef(name: string, required: bool)

  datatype FlagDef = FlagDef(name: string, short: Option<char>)

  datatype OptionDef = OptionDef(name: string, short: Option<char>, required: bool)

  datatype VariadicDef = VariadicDef(name: string, required: bool)

  datatype Spec = Spec(
    positional: seq<ArgDef>, flags: seq<FlagDef>, options: seq<OptionDef>, variadic: Option<VariadicDef>)

  datatype Error =
    | InvalidSyntax(text: string)
    | VariadicNotLast(name: string)
    | OptionalBeforeRequired(name: string)
    | DuplicateName(name: string)

  const EMPTY := Spec([], [], [], None)

  // The parser between two items.
  datatype Parser = Parser(spec: Spec, names: set<string>, seenOptional: bool)

  const START := Parser(EMPTY, {}, false)

  // ------------------------------------------------------------- scanning

  function After(s: string, c: char): (rest: string)
    ensures |rest| <= |s|
  {
    var i := Find(s, c);
    if i < |s| then s[i + 1..] else ""
  }

  // Where `depth` open brackets are closed; |s| if they are not.
  function Closing(s: string, depth: nat): (i: nat)
    requires depth > 0
    ensures i <= |s|
  {
    if s == "" then 0
    else if s[0] == '[' then 1 + Closing(s[1..], depth + 1)
    else if s[0] == ']' then (if depth == 1 then 0 else 1 + Closing(s[1..], depth - 1))
    else 1 + Closing(s[1..], depth)
  }

  // How many brackets the text opens more than it closes.
  function Nesting(s: string): int {
    if s == "" then 0 else (if s[0] == '[' then 1 else if s[0] == ']' then -1 else 0) + Nesting(s[1..])
  }

  // Every bracket that closes was opened, and every one that opens is closed.
  predicate Balanced(s: string) { Nesting(s) == 0 && forall i :: 0 <= i <= |s| ==> Nesting(s[..i]) >= 0 }

  lemma NestingAppend(a: string, b: string)
    ensures Nesting(a + b) == Nesting(a) + Nesting(b)
  {
    if a == "" {
      assert a + b == b;
    } else {
      assert (a + b)[1..] == a[1..] + b;
      NestingAppend(a[1..], b);
    }
  }

  lemma {:induction false} ClosingIs(s: string, depth: nat)
    requires depth > 0
    ensures var i := Closing(s, depth);
            && (forall j :: 0 <= j <= i ==> depth + Nesting(s[..j]) > 0)
            && (i < |s| ==> s[i] == ']' && depth + Nesting(s[..i]) == 1)
  {
    if s != "" {
      var i, c := Closing(s, depth), s[0];
      var next := if c == '[' then depth + 1 else if c == ']' then depth - 1 else depth;
      if next > 0 {
        ClosingIs(s[1..], next);
        forall j | 0 < j <= |s| ensures depth + Nesting(s[..j]) == next + Nesting(s[1..][..j - 1]) {
          assert s[..j][0] == c && s[..j][1..] == s[1..][..j - 1];
        }
      }
      assert s[..0] == "";
    }
  }

  lemma ClosesBalanced(s: string)
    ensures var k := Closing(s, 1); k < |s| ==> s[k] == ']' && Balanced(s[..k])
  {
    ClosingIs(s, 1);
    var k := Closing(s, 1);
    hide Closing, Nesting;
    if k < |s| { assert forall j :: 0 <= j <= k ==> s[..k][..j] == s[..j]; }
  }

  lemma ClosesOnce(s: string, j: nat)
    requires j < |s| && s[j] == ']' && Balanced(s[..j])
    ensures Closing(s, 1) == j
  {
    ClosingIs(s, 1);
    var k := Closing(s, 1);
    hide Closing, Nesting;
    if j < k { PastClosing(s, j, j + 1); }
    if k < j { PastClosing(s, k, j); }
  }

  // The bracket that closes is the one behind a balanced text; there is at most one.
  lemma ClosingIff(s: string, i: nat)
    requires i <= |s|
    ensures Closing(s, 1) == i <==>
              if i < |s| then s[i] == ']' && Balanced(s[..i])
              else forall j :: 0 <= j < |s| ==> !(s[j] == ']' && Balanced(s[..j]))
  {
    ClosesBalanced(s);
    hide Closing, Balanced;
    forall j | 0 <= j < |s| && s[j] == ']' && Balanced(s[..j]) ensures Closing(s, 1) == j { ClosesOnce(s, j); }
  }

  lemma NestingOne(c: char)
    ensures Nesting([c]) == if c == '[' then 1 else if c == ']' then -1 else 0
  {
  }

  lemma PastClosing(s: string, k: nat, j: nat)
    requires k < j <= |s| && s[k] == ']' && Nesting(s[..k]) == 0
    ensures !Balanced(s[..j]) && Nesting(s[..k + 1]) == -1
  {
    assert s[..k + 1] == s[..k] + [s[k]];
    assert s[..j][..k + 1] == s[..k + 1];
    NestingAppend(s[..k], [s[k]]);
    NestingOne(s[k]);
    hide Nesting;
  }

  function WordEnd(s: string): (i: nat)
    ensures i <= |s|
    ensures forall j :: 0 <= j < i ==> !IsWhitespace(s[j])
    ensures i < |s| ==> IsWhitespace(s[i])
  {
    if s == "" || IsWhitespace(s[0]) then 0 else 1 + WordEnd(s[1..])
  }

  predicate Ellipsis(s: string) { "..." <= s }

  predicate EndsWithDots(s: string) { |s| >= 3 && s[|s| - 3..] == "..." }

  function TrimDots(s: string): (r: string)
    ensures r <= s && !EndsWithDots(r)
  {
    if EndsWithDots(s) then TrimDots(s[..|s| - 3]) else s
  }

  predicate StartsWith(s: string, prefix: string) { prefix <= s }

  // ------------------------------------------------------------- one item

  // The short and the long name of a flag or an option.
  function FlagNames(text: string): Result<(Option<char>, string), Error> {
    var part := Trim(text);
    var i := Find(part, '/');
    if i < |part| then
      (if '/' in part[i + 1..] then Err(InvalidSyntax("invalid flag syntax: " + part))
       else
         var short, long := Trim(part[..i]), Trim(part[i + 1..]);
         if !StartsWith(short, "-") || StartsWith(short, "--") then Err(InvalidSyntax("invalid short flag: " + short))
         else if !StartsWith(long, "--") then Err(InvalidSyntax("invalid long flag: " + long))
         else Ok((if |short| >= 2 then Some(short[1]) else None, long[2..])))
    else if StartsWith(part, "--") then Ok((None, part[2..]))
    else if StartsWith(part, "-") then
      (if |part| < 2 then Err(InvalidSyntax("empty flag")) else Ok((Some(part[1]), [part[1]])))
    else Err(InvalidSyntax("flag must start with -: " + part))
  }

  // The alias stands before the only slash, behind one dash, and the name behind two after it; without a
  // slash there is the name alone, or an alias that is the name.
  predicate Slashed(part: string, short: Option<char>, name: string, left: string, right: string) {
    && part == left + ("/" + right) && '/' !in left && '/' !in right && Trim(right) == "--" + name
    && Trim(left) != "" && Trim(left)[0] == '-'
    && (if |Trim(left)| == 1 then short.None? else Trim(left)[1] != '-' && short == Some(Trim(left)[1]))
  }

  ghost predicate Spells(part: string, short: Option<char>, name: string) {
    || (exists left, right :: Slashed(part, short, name, left, right))
    || ('/' !in part && short.None? && part == "--" + name)
    || ('/' !in part && |part| >= 2 && part[0] == '-' && part[1] != '-' && short == Some(part[1]) && name == [part[1]])
  }

  lemma StartsDashed(s: string)
    ensures StartsWith(s, "-") <==> s != "" && s[0] == '-'
    ensures StartsWith(s, "--") <==> |s| >= 2 && s[0] == '-' && s[1] == '-'
    ensures StartsWith(s, "--") ==> s == "--" + s[2..]
  {
    if s != "" && s[0] == '-' { assert s[..1] == "-"; }
    if |s| >= 2 && s[0] == '-' && s[1] == '-' { assert s[..2] == "--"; }
  }

  // Whatever the text of a flag or an option, that is its alias and its name.
  lemma AliasIff(text: string, short: Option<char>, name: string)
    ensures FlagNames(text) == Ok((short, name)) <==> Spells(Trim(text), short, name)
  {
    var part := Trim(text);
    if '/' in part { SlashIff(text, short, name); } else { NoSlashIff(text, short, name); }
    hide FlagNames, Spells, Trim;
  }

  lemma NoSlashIff(text: string, short: Option<char>, name: string)
    requires '/' !in Trim(text)
    ensures FlagNames(text) == Ok((short, name)) <==> Spells(Trim(text), short, name)
  {
    var part := Trim(text);
    hide Trim;
    assert Find(part, '/') == |part|;
    StartsDashed(part);
    NotSlashed(part, short, name);
    hide Slashed, Find, StartsWith;
    if part == "--" + name { assert part[2..] == name; }
  }

  lemma NotSlashed(part: string, short: Option<char>, name: string)
    requires '/' !in part
    ensures forall left, right :: !Slashed(part, short, name, left, right)
  {
    forall left, right ensures part != left + ("/" + right) {
      assert (left + ("/" + right))[|left|] == '/';
    }
    hide Trim;
  }

  lemma SlashIff(text: string, short: Option<char>, name: string)
    requires '/' in Trim(text)
    ensures FlagNames(text) == Ok((short, name)) <==> Spells(Trim(text), short, name)
  {
    hide *;
    var part := Trim(text);
    FindIn(part, '/');
    var i := Find(part, '/');
    var left, right := part[..i], part[i + 1..];
    SlashedHere(part, short, name, left, right);
    FlagNamesHere(text, left, right, i);
    SlashedIs(part, short, name, left, right);
    LongStarts(Trim(right), name);
  }

  lemma FindIn(s: string, c: char)
    requires c in s
    ensures Find(s, c) < |s|
  {
  }

  lemma SlashedIs(part: string, short: Option<char>, name: string, left: string, right: string)
    requires part == left + ("/" + right) && '/' !in left
    ensures Slashed(part, short, name, left, right) <==>
              && '/' !in right && Trim(right) == "--" + name
              && StartsWith(Trim(left), "-") && !StartsWith(Trim(left), "--")
              && short == (if |Trim(left)| >= 2 then Some(Trim(left)[1]) else None)
  {
    hide Trim;
    StartsDashed(Trim(left));
    hide StartsWith;
  }

  lemma FlagNamesHere(text: string, left: string, right: string, i: nat)
    requires i == Find(Trim(text), '/') < |Trim(text)| && left == Trim(text)[..i] && right == Trim(text)[i + 1..]
    ensures var short, long := Trim(left), Trim(right);
            && (FlagNames(text).Ok? <==>
                  '/' !in right && StartsWith(short, "-") && !StartsWith(short, "--") && StartsWith(long, "--"))
            && (FlagNames(text).Ok? ==>
                  FlagNames(text).value == (if |short| >= 2 then Some(short[1]) else None, long[2..]))
  {
    hide Trim, Find;
  }

  lemma LongStarts(s: string, name: string)
    ensures s == "--" + name <==> StartsWith(s, "--") && s[2..] == name
  {
    StartsDashed(s);
  }

  lemma SlashedHere(part: string, short: Option<char>, name: string, left: string, right: string)
    requires '/' in part && left == part[..Find(part, '/')] && right == part[Find(part, '/') + 1..]
    ensures Spells(part, short, name) <==> Slashed(part, short, name, left, right)
    ensures part == left + ("/" + right) && '/' !in left
  {
    assert part == left + ("/" + right) && '/' !in left;
    hide Trim, Find;
    if x, y :| Slashed(part, short, name, x, y) {
      CutFirst(left, right, x, y, '/');
    }
  }

  function AddFlagOrOption(p: Parser, text: string, required: bool): Result<Parser, Error> {
    var content := Trim(text);
    var i := Find(content, '<');
    match FlagNames(if i < |content| then Trim(content[..i]) else content)
    case Err(e) => Err(e)
    case Ok((short, name)) =>
      if name in p.names then Err(DuplicateName(name))
      else if i < |content| then
        Ok(p.(names := p.names + {name},
              spec := p.spec.(options := p.spec.options + [OptionDef(name, short, required)])))
      else
        Ok(p.(names := p.names + {name}, spec := p.spec.(flags := p.spec.flags + [FlagDef(name, short)])))
  }

  function AddVariadic(p: Parser, name: string, required: bool): Result<Parser, Error> {
    if name in p.names then Err(DuplicateName(name))
    else if p.spec.variadic.Some? then Err(VariadicNotLast(name))
    else Ok(p.(names := p.names + {name}, spec := p.spec.(variadic := Some(VariadicDef(name, required)))))
  }

  function AddRequired(p: Parser, name: string): Result<Parser, Error> {
    if p.spec.variadic.Some? then Err(VariadicNotLast(name))
    else if p.seenOptional then Err(OptionalBeforeRequired(name))
    else if name in p.names then Err(DuplicateName(name))
    else Ok(p.(names := p.names + {name}, spec := p.spec.(positional := p.spec.positional + [ArgDef(name, true)])))
  }

  function AddOptional(p: Parser, name: string): Result<Parser, Error> {
    if p.spec.variadic.Some? then Err(VariadicNotLast(name))
    else if name in p.names then Err(DuplicateName(name))
    else Ok(p.(names := p.names + {name}, seenOptional := true,
               spec := p.spec.(positional := p.spec.positional + [ArgDef(name, false)])))
  }

  // What stands between `<` and `>`, and whether dots follow.
  function AddAngled(p: Parser, token: string, dots: bool): Result<Parser, Error> {
    var name := Trim(token);
    if EndsWithDots(name) || dots then AddVariadic(p, TrimDots(name), true) else AddRequired(p, name)
  }

  // What stands between `[` and its `]`, and whether dots follow.
  function AddBracketed(p: Parser, token: string, dots: bool): Result<Parser, Error> {
    var content := Trim(token);
    if StartsWith(content, "-") then
      (if dots then Err(InvalidSyntax("ellipsis not valid after flag/option: [" + content + "]..."))
       else AddFlagOrOption(p, content, false))
    else if EndsWithDots(content) || dots then AddVariadic(p, TrimDots(content), false)
    else AddOptional(p, content)
  }

  function SkipDots(s: string): (r: string)
    ensures |r| <= |s|
  {
    if Ellipsis(s) then s[3..] else s
  }

  // The text up to the bracket that closes, and what is behind it.
  function Bracketed(s: string): string { s[..Closing(s, 1)] }

  function AfterClosing(s: string): (rest: string)
    ensures |rest| <= |s|
  {
    if Closing(s, 1) < |s| then s[Closing(s, 1) + 1..] else ""
  }

  function Word(s: string): string { s[..WordEnd(s)] }

  function AfterWord(s: string): (rest: string)
    ensures |rest| <= |s|
  {
    TrimStart(s[WordEnd(s)..])
  }

  function AngledItem(p: Parser, s: string): (r: Result<(Parser, string), Error>)
    ensures r.Ok? ==> |r.value.1| <= |s|
  {
    var rest := After(s, '>');
    With(AddAngled(p, UpTo(s, '>'), Ellipsis(rest)), SkipDots(rest))
  }

  function BracketedItem(p: Parser, s: string): (r: Result<(Parser, string), Error>)
    ensures r.Ok? ==> |r.value.1| <= |s|
  {
    var rest := AfterClosing(s);
    With(AddBracketed(p, Bracketed(s), Ellipsis(rest)), SkipDots(rest))
  }

  function DashedItem(p: Parser, s: string): (r: Result<(Parser, string), Error>)
    ensures r.Ok? ==> |r.value.1| <= |s|
  {
    var word, rest := "-" + Word(s), AfterWord(s);
    if StartsWith(rest, "<") then
      With(AddFlagOrOption(p, word + " <" + UpTo(rest[1..], '>') + ">", true), After(rest[1..], '>'))
    else With(AddFlagOrOption(p, word, true), rest)
  }

  // The item that begins with `c`, the rest of the text being `s`; what is left of it.
  function Item(p: Parser, c: char, s: string): (r: Result<(Parser, string), Error>)
    ensures r.Ok? ==> |r.value.1| <= |s|
  {
    if c == '<' then AngledItem(p, s)
    else if c == '[' then BracketedItem(p, s)
    else if c == '-' then DashedItem(p, s)
    else if IsWhitespace(c) then Ok((p, s))
    else Err(InvalidSyntax("unexpected character: " + [c]))
  }

  function With(r: Result<Parser, Error>, rest: string): (q: Result<(Parser, string), Error>)
    ensures q.Ok? ==> q.value.1 == rest
  {
    match r
    case Ok(p) => Ok((p, rest))
    case Err(e) => Err(e)
  }

  lemma DashedOption(p: Parser, s: string)
    requires AfterWord(s) != "" && AfterWord(s)[0] == '<'
    ensures var rest := AfterWord(s)[1..];
            DashedItem(p, s)
            == With(AddFlagOrOption(p, "-" + Word(s) + " <" + UpTo(rest, '>') + ">", true), After(rest, '>'))
  {
    hide Word, AfterWord, UpTo, After, AddFlagOrOption;
    assert StartsWith(AfterWord(s), "<");
  }

  lemma DashedFlag(p: Parser, s: string)
    requires AfterWord(s) == "" || AfterWord(s)[0] != '<'
    ensures DashedItem(p, s) == With(AddFlagOrOption(p, "-" + Word(s), true), AfterWord(s))
  {
    hide Word, AfterWord, UpTo, After, AddFlagOrOption;
  }

  // ------------------------------------------------------------- the whole text

  function ParseFrom(p: Parser, s: string): Result<Parser, Error>
    decreases |s|
  {
    if s == "" then Ok(p)
    else
      match Item(p, s[0], s[1..])
      case Err(e) => Err(e)
      case Ok((q, rest)) => ParseFrom(q, rest)
  }

  function Parse(text: string): Result<Spec, Error> {
    match ParseFrom(START, Trim(text))
    case Ok(p) => Ok(p.spec)
    case Err(e) => Err(e)
  }

  // ------------------------------------------------------------- what is accepted

  function ArgNames(args: seq<ArgDef>): (r: seq<string>)
    ensures |r| == |args| && forall i :: 0 <= i < |r| ==> r[i] == args[i].name
  {
    seq(|args|, i requires 0 <= i < |args| => args[i].name)
  }

  function OptionNames(options: seq<OptionDef>): (r: seq<string>)
    ensures |r| == |options| && forall i :: 0 <= i < |r| ==> r[i] == options[i].name
  {
    seq(|options|, i requires 0 <= i < |options| => options[i].name)
  }

  function FlagList(flags: seq<FlagDef>): (r: seq<string>)
    ensures |r| == |flags| && forall i :: 0 <= i < |r| ==> r[i] == flags[i].name
  {
    seq(|flags|, i requires 0 <= i < |flags| => flags[i].name)
  }

  function VariadicName(v: Option<VariadicDef>): seq<string> {
    if v.Some? then [v.value.name] else []
  }

  // All names of a specification.
  function Names(s: Spec): seq<string> {
    ArgNames(s.positional) + VariadicName(s.variadic) + OptionNames(s.options) + FlagList(s.flags)
  }

  predicate Distinct(names: seq<string>) {
    forall i, j :: 0 <= i < j < |names| ==> names[i] != names[j]
  }

  predicate RequiredFirst(args: seq<ArgDef>) {
    forall i, j :: 0 <= i < j < |args| && args[j].required ==> args[i].required
  }

  predicate WellFormed(s: Spec) {
    Distinct(Names(s)) && RequiredFirst(s.positional)
  }

  ghost predicate Consistent(p: Parser) {
    && WellFormed(p.spec)
    && (forall n :: n in p.names <==> n in Names(p.spec))
    && (!p.seenOptional ==> forall i :: 0 <= i < |p.spec.positional| ==> p.spec.positional[i].required)
  }

  // A new name put anywhere among distinct ones.
  lemma InsertName(a: seq<string>, b: seq<string>, name: string)
    requires Distinct(a + b) && name !in a + b
    ensures Distinct(a + [name] + b)
    ensures forall n :: n in a + [name] + b <==> n == name || n in a + b
  {
    var before, all := a + b, a + [name] + b;
    forall i | 0 <= i < |all| && i != |a| ensures all[i] == before[if i < |a| then i else i - 1] && all[i] != name {
      assert before[if i < |a| then i else i - 1] in before;
    }
    forall n ensures n in all <==> n == name || n in before {
      if n in before { assert n in a || n in b; }
    }
  }

  lemma AddPositional(p: Parser, arg: ArgDef)
    requires Consistent(p) && arg.name !in p.names && (arg.required ==> !p.seenOptional)
    ensures Consistent(Parser(p.spec.(positional := p.spec.positional + [arg]), p.names + {arg.name},
                              p.seenOptional || !arg.required))
  {
    var s, t := p.spec, p.spec.(positional := p.spec.positional + [arg]);
    var a, b := ArgNames(s.positional), VariadicName(s.variadic) + OptionNames(s.options) + FlagList(s.flags);
    assert Names(s) == a + b;
    assert ArgNames(t.positional) == a + [arg.name];
    assert Names(t) == a + [arg.name] + b;
    InsertName(a, b, arg.name);
  }

  lemma AddOption(p: Parser, option: OptionDef)
    requires Consistent(p) && option.name !in p.names
    ensures Consistent(p.(names := p.names + {option.name}, spec := p.spec.(options := p.spec.options + [option])))
  {
    var s, t := p.spec, p.spec.(options := p.spec.options + [option]);
    var a, b := ArgNames(s.positional) + VariadicName(s.variadic) + OptionNames(s.options), FlagList(s.flags);
    assert Names(s) == a + b;
    assert OptionNames(t.options) == OptionNames(s.options) + [option.name];
    assert Names(t) == a + [option.name] + b;
    InsertName(a, b, option.name);
  }

  lemma AddFlag(p: Parser, flag: FlagDef)
    requires Consistent(p) && flag.name !in p.names
    ensures Consistent(p.(names := p.names + {flag.name}, spec := p.spec.(flags := p.spec.flags + [flag])))
  {
    var s, t := p.spec, p.spec.(flags := p.spec.flags + [flag]);
    assert FlagList(t.flags) == FlagList(s.flags) + [flag.name];
    assert Names(t) == Names(s) + [flag.name];
    assert Names(t) == Names(s) + [flag.name] + [];
    assert Names(s) == Names(s) + [];
    InsertName(Names(s), [], flag.name);
  }

  lemma AddRest(p: Parser, variadic: VariadicDef)
    requires Consistent(p) && variadic.name !in p.names && p.spec.variadic.None?
    ensures Consistent(p.(names := p.names + {variadic.name}, spec := p.spec.(variadic := Some(variadic))))
  {
    var s, t := p.spec, p.spec.(variadic := Some(variadic));
    var a, b := ArgNames(s.positional), OptionNames(s.options) + FlagList(s.flags);
    assert Names(s) == a + b;
    assert Names(t) == a + [variadic.name] + b;
    InsertName(a, b, variadic.name);
  }

  lemma FlagOrOptionConsistent(p: Parser, text: string, required: bool)
    requires Consistent(p) && AddFlagOrOption(p, text, required).Ok?
    ensures Consistent(AddFlagOrOption(p, text, required).value)
  {
    hide Consistent, FlagNames;
    var content := Trim(text);
    var i := Find(content, '<');
    var names := FlagNames(if i < |content| then Trim(content[..i]) else content).value;
    if i < |content| { AddOption(p, OptionDef(names.1, names.0, required)); }
    else { AddFlag(p, FlagDef(names.1, names.0)); }
  }

  lemma AngledConsistent(p: Parser, token: string, dots: bool)
    requires Consistent(p) && AddAngled(p, token, dots).Ok?
    ensures Consistent(AddAngled(p, token, dots).value)
  {
    hide Consistent;
    var name := Trim(token);
    if EndsWithDots(name) || dots { AddRest(p, VariadicDef(TrimDots(name), true)); }
    else { AddPositional(p, ArgDef(name, true)); }
  }

  lemma BracketedConsistent(p: Parser, token: string, dots: bool)
    requires Consistent(p) && AddBracketed(p, token, dots).Ok?
    ensures Consistent(AddBracketed(p, token, dots).value)
  {
    hide Consistent, Trim, StartsWith, EndsWithDots, TrimDots, AddFlagOrOption, AddVariadic, AddOptional;
    var content := Trim(token);
    if StartsWith(content, "-") { FlagOrOptionConsistent(p, content, false); }
    else if EndsWithDots(content) || dots { OptionalRestConsistent(p, TrimDots(content)); }
    else { OptionalConsistent(p, content); }
  }

  lemma OptionalRestConsistent(p: Parser, name: string)
    requires Consistent(p) && AddVariadic(p, name, false).Ok?
    ensures Consistent(AddVariadic(p, name, false).value)
  {
    hide Consistent;
    AddRest(p, VariadicDef(name, false));
  }

  lemma OptionalConsistent(p: Parser, name: string)
    requires Consistent(p) && AddOptional(p, name).Ok?
    ensures Consistent(AddOptional(p, name).value)
  {
    hide Consistent;
    AddPositional(p, ArgDef(name, false));
  }

  lemma ItemConsistent(p: Parser, c: char, s: string)
    requires Consistent(p) && Item(p, c, s).Ok?
    ensures Consistent(Item(p, c, s).value.0)
  {
    hide Consistent, AddAngled, AddBracketed, AddFlagOrOption;
    if c == '<' {
      AngledConsistent(p, UpTo(s, '>'), Ellipsis(After(s, '>')));
    } else if c == '[' {
      BracketedConsistent(p, Bracketed(s), Ellipsis(AfterClosing(s)));
    } else if c == '-' {
      var word, rest := "-" + Word(s), AfterWord(s);
      FlagOrOptionConsistent(p, if StartsWith(rest, "<") then word + " <" + UpTo(rest[1..], '>') + ">" else word, true);
    }
  }

  lemma {:induction false} ParseConsistent(p: Parser, s: string)
    requires Consistent(p) && ParseFrom(p, s).Ok?
    ensures Consistent(ParseFrom(p, s).value)
    decreases |s|
  {
    hide Consistent, Item;
    if s != "" {
      ItemConsistent(p, s[0], s[1..]);
      ParseConsistent(Item(p, s[0], s[1..]).value.0, Item(p, s[0], s[1..]).value.1);
    }
  }

  // Whatever text is accepted: all names differ, across positionals, variadic, options and flags,
  // and no required positional comes after an optional one.
  lemma AcceptedIsWellFormed(text: string)
    ensures Parse(text).Ok? ==> WellFormed(Parse(text).value)
  {
    assert Consistent(START);
    hide ParseFrom, Trim;
    if Parse(text).Ok? { ParseConsistent(START, Trim(text)); }
  }
}
