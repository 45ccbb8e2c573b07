/** Which characters of colored help text are shown in which color (crates/cli/src/help.rs:136-371). */
module Shades {
  import opened Wrappers
  import opened Text
  import opened Help

  type Shade = Option<nat>

  // ------------------------------------------------------------- what a terminal shows

  // The color that an escape sequence switches to: none, or one of the palette.
  function Switched(body: string): Shade {
    if "[38;5;" <= body && forall c :: c in body[6..] ==> IsDigit(c) then Some(ParseDecimal(body[6..])) else None
  }

  // The characters that are shown, each with the color that is on.
  function Shown(s: string, on: Shade): seq<(char, Shade)>
    decreases |s|
  {
    if s == "" then []
    else if s[0] == ESC then
      var i := Find(s, 'm');
      if i < |s| then Shown(s[i + 1..], Switched(s[1..i])) else []
    else [(s[0], on)] + Shown(s[1..], on)
  }

  function All(s: string, on: Shade): seq<(char, Shade)> { seq(|s|, i requires 0 <= i < |s| => (s[i], on)) }

  lemma AllFirst(s: string, on: Shade)
    requires s != ""
    ensures All(s, on) == [(s[0], on)] + All(s[1..], on)
  {
  }

  lemma {:induction false} PlainShown(a: string, b: string, on: Shade)
    requires Clean(a)
    ensures Shown(a + b, on) == All(a, on) + Shown(b, on)
  {
    if a == "" {
      assert a + b == b;
    } else {
      assert (a + b)[0] == a[0] && (a + b)[1..] == a[1..] + b;
      PlainShown(a[1..], b, on);
      AllFirst(a, on);
      hide Shown, All;
      ShownFirst(a + b, on);
      Regroup3([(a[0], on)], All(a[1..], on), Shown(b, on));
    }
  }

  lemma ShownFirst(s: string, on: Shade)
    requires s != "" && s[0] != ESC
    ensures Shown(s, on) == [(s[0], on)] + Shown(s[1..], on)
  {
  }

  lemma Regroup3<T>(a: seq<T>, b: seq<T>, c: seq<T>)
    ensures a + b + c == a + (b + c)
  {
  }

  lemma SequenceShown(body: string, b: string, on: Shade)
    requires 'm' !in body
    ensures Shown([ESC] + body + "m" + b, on) == Shown(b, Switched(body))
  {
    var s := [ESC] + body + "m" + b;
    assert s == ([ESC] + body) + ("m" + b);
    FindAppend([ESC] + body, "m" + b, 'm');
    assert s[|body| + 2..] == b && s[1..|body| + 1] == body;
  }

  lemma SwitchedTo(code: nat)
    ensures Switched("[38;5;" + Decimal(code)) == Some(code) && 'm' !in "[38;5;" + Decimal(code)
    ensures Switched("[0") == None && 'm' !in "[0"
  {
    var body := "[38;5;" + Decimal(code);
    assert body[6..] == Decimal(code) && body[..6] == "[38;5;";
    ParseOfDecimal(code);
  }

  // Painted text is shown in its color, and what follows in none.
  lemma PaintShown(code: nat, text: string, b: string, on: Shade)
    requires Clean(text)
    ensures Shown(Paint(code, text) + b, on) == All(text, Some(code)) + Shown(b, None)
  {
    var first, last := "[38;5;" + Decimal(code), "[0";
    assert RESET == [ESC] + last + "m";
    assert Fg256(code) == [ESC] + first + "m";
    assert Paint(code, text) + b == [ESC] + first + "m" + (text + ([ESC] + last + "m" + b));
    SwitchedTo(code);
    hide *;
    SequenceShown(first, text + ([ESC] + last + "m" + b), on);
    PlainShown(text, [ESC] + last + "m" + b, Some(code));
    SequenceShown(last, b, Some(code));
  }

  // ------------------------------------------------------------- flags, character by character

  // A flag runs from a dash to a space or a comma, a placeholder from `<` to `>`.
  datatype Mode = Between | InFlag | InPlaceholder

  function FlagShade(mode: Mode, c: char): Shade {
    match mode
    case Between => if c == '-' then Some(LITERAL) else if c == '<' then Some(CONTEXT) else None
    case InFlag => if c == ' ' || c == ',' then None else Some(LITERAL)
    case InPlaceholder => Some(CONTEXT)
  }

  function NextMode(mode: Mode, c: char): Mode {
    match mode
    case Between => if c == '-' then InFlag else if c == '<' then InPlaceholder else Between
    case InFlag => if c == ' ' || c == ',' then Between else InFlag
    case InPlaceholder => if c == '>' then Between else InPlaceholder
  }

  function FlagShades(s: string, mode: Mode): seq<(char, Shade)> {
    if s == "" then [] else [(s[0], FlagShade(mode, s[0]))] + FlagShades(s[1..], NextMode(mode, s[0]))
  }

  lemma {:induction false} FlagRuns(s: string)
    ensures FlagShades(s, InFlag) == All(s[..FlagEnd(s)], Some(LITERAL)) + FlagShades(s[FlagEnd(s)..], Between)
  {
    var n := FlagEnd(s);
    if n == 0 {
      assert s[..0] == "" && s[0..] == s;
      assert All(s[..0], Some(LITERAL)) == [];
      if s != "" { assert FlagShades(s, InFlag) == FlagShades(s, Between); }
    } else {
      FlagRuns(s[1..]);
      assert s[..n][1..] == s[1..][..n - 1] && s[n..] == s[1..][n - 1..];
      AllFirst(s[..n], Some(LITERAL));
      hide All, FlagEnd;
    }
  }

  lemma {:induction false} PlaceholderRuns(s: string)
    ensures var n := PlaceholderEnd(s);
            FlagShades(s, InPlaceholder) == All(s[..n], Some(CONTEXT)) + FlagShades(s[n..], Between)
  {
    var n := PlaceholderEnd(s);
    if s == "" {
    } else if s[0] == '>' {
      assert n == 1 && s[..1][1..] == "" && s[..1] == [s[0]];
      AllFirst(s[..1], Some(CONTEXT));
    } else {
      PlaceholderRuns(s[1..]);
      assert n == PlaceholderEnd(s[1..]) + 1;
      assert s[..n][1..] == s[1..][..n - 1] && s[n..] == s[1..][n - 1..];
      AllFirst(s[..n], Some(CONTEXT));
      hide All, PlaceholderEnd;
    }
  }

  lemma FlagPieceShown(s: string, b: string)
    requires Clean(s) && s != ""
    ensures var n := FlagPiece(s).1;
            && 0 < n <= |s|
            && FlagShades(s, Between) == Shown(FlagPiece(s).0, None) + FlagShades(s[n..], Between)
            && Shown(FlagPiece(s).0 + b, None) == Shown(FlagPiece(s).0, None) + Shown(b, None)
  {
    FlagsFirst(s);
    var n := FlagPiece(s).1;
    var first := s[..n];
    assert Clean(first) && first[0] == s[0];
    if s[0] == '-' {
      assert s[..FlagEnd(s)] == first;
      FlagRun(s);
      hide *;
      PaintedPiece(LITERAL, first, b);
    } else if s[0] == '<' {
      PlaceholderRun(s);
      hide *;
      PaintedPiece(CONTEXT, first, b);
    } else {
      assert first == [s[0]];
      PlainShown(first, b, None);
      PlainShown(first, "", None);
      assert first + "" == first;
    }
  }

  lemma FlagRun(s: string)
    requires s != "" && s[0] == '-'
    ensures FlagShades(s, Between) == All(s[..FlagEnd(s)], Some(LITERAL)) + FlagShades(s[FlagEnd(s)..], Between)
  {
    FlagRuns(s);
    assert FlagShades(s, Between) == FlagShades(s, InFlag);
  }

  lemma PlaceholderRun(s: string)
    requires s != "" && s[0] == '<'
    ensures var n := PlaceholderEnd(s);
            FlagShades(s, Between) == All(s[..n], Some(CONTEXT)) + FlagShades(s[n..], Between)
  {
    PlaceholderRuns(s);
    assert FlagShades(s, Between) == FlagShades(s, InPlaceholder);
  }

  lemma PaintedPiece(code: nat, text: string, b: string)
    requires Clean(text)
    ensures Shown(Paint(code, text), None) == All(text, Some(code))
    ensures Shown(Paint(code, text) + b, None) == All(text, Some(code)) + Shown(b, None)
  {
    PaintShown(code, text, "", None);
    PaintShown(code, text, b, None);
    assert Paint(code, text) + "" == Paint(code, text);
    assert Shown("", None) == [] && All(text, Some(code)) + [] == All(text, Some(code));
  }

  lemma {:induction false} FlagsShown(s: string, b: string)
    requires Clean(s)
    ensures Shown(Flags(s) + b, None) == FlagShades(s, Between) + Shown(b, None)
    decreases |s|
  {
    if s == "" {
      FlagsOfNothing();
      assert "" + b == b;
    } else {
      FlagsFirst(s);
      var piece, n := FlagPiece(s).0, FlagPiece(s).1;
      FlagPieceShown(s, Flags(s[n..]) + b);
      FlagsShown(s[n..], b);
      hide *;
      Regroup3(piece, Flags(s[n..]), b);
      Regroup3(Shown(piece, None), FlagShades(s[n..], Between), Shown(b, None));
    }
  }

  // ------------------------------------------------------------- descriptions, character by character

  // How deep in brackets the next character is.
  function Deeper(depth: nat, c: char): nat {
    if c == '[' then depth + 1 else if c == ']' && depth > 0 then depth - 1 else depth
  }

  // Brackets and what is inside them.
  function DescriptionShades(s: string, depth: nat): seq<(char, Shade)> {
    if s == "" then []
    else
      [(s[0], if depth > 0 || s[0] == '[' then Some(CONTEXT) else None)]
      + DescriptionShades(s[1..], Deeper(depth, s[0]))
  }

  lemma {:induction false} BracketRuns(s: string, depth: nat)
    ensures var n := BracketEnd(s, depth);
            DescriptionShades(s, depth) == All(s[..n], Some(CONTEXT)) + DescriptionShades(s[n..], 0)
  {
    var n := BracketEnd(s, depth);
    if s == "" || depth == 0 {
      assert n == 0 && s[..0] == "" && s[0..] == s && All("", Some(CONTEXT)) == [];
      assert s == "" ==> DescriptionShades(s, depth) == DescriptionShades(s, 0);
    } else {
      BracketRuns(s[1..], Deeper(depth, s[0]));
      assert n == BracketEnd(s[1..], Deeper(depth, s[0])) + 1;
      assert s[..n][1..] == s[1..][..n - 1] && s[n..] == s[1..][n - 1..];
      AllFirst(s[..n], Some(CONTEXT));
      hide All, BracketEnd;
    }
  }

  lemma BracketRun(s: string)
    requires s != "" && s[0] == '['
    ensures var n := 1 + BracketEnd(s[1..], 1);
            DescriptionShades(s, 0) == All(s[..n], Some(CONTEXT)) + DescriptionShades(s[n..], 0)
  {
    var n := 1 + BracketEnd(s[1..], 1);
    BracketRuns(s[1..], 1);
    assert s[..n][1..] == s[1..][..n - 1] && s[n..] == s[1..][n - 1..];
    AllFirst(s[..n], Some(CONTEXT));
    hide All, BracketEnd;
  }

  lemma DescriptionPieceShown(s: string, b: string)
    requires Clean(s) && s != ""
    ensures var n := DescriptionPiece(s).1;
            && 0 < n <= |s|
            && DescriptionShades(s, 0) == Shown(DescriptionPiece(s).0, None) + DescriptionShades(s[n..], 0)
            && Shown(DescriptionPiece(s).0 + b, None) == Shown(DescriptionPiece(s).0, None) + Shown(b, None)
  {
    DescriptionFirst(s);
    var n := DescriptionPiece(s).1;
    var first := s[..n];
    assert Clean(first) && first[0] == s[0];
    if s[0] == '[' {
      BracketRun(s);
      hide *;
      DescriptionPieceIs(s);
      PaintedPiece(CONTEXT, first, b);
    } else {
      assert first == [s[0]];
      PlainShown(first, b, None);
      PlainShown(first, "", None);
      assert first + "" == first;
      hide BracketEnd;
    }
  }

  lemma DescriptionPieceIs(s: string)
    requires s != "" && s[0] == '['
    ensures DescriptionPiece(s) == (Paint(CONTEXT, s[..1 + BracketEnd(s[1..], 1)]), 1 + BracketEnd(s[1..], 1))
  {
  }

  lemma {:induction false} DescriptionShown(s: string, b: string)
    requires Clean(s)
    ensures Shown(Description(s) + b, None) == DescriptionShades(s, 0) + Shown(b, None)
    decreases |s|
  {
    if s == "" {
      DescriptionOfNothing();
      assert "" + b == b;
    } else {
      DescriptionFirst(s);
      var piece, n := DescriptionPiece(s).0, DescriptionPiece(s).1;
      DescriptionPieceShown(s, Description(s[n..]) + b);
      DescriptionShown(s[n..], b);
      hide *;
      Regroup3(piece, Description(s[n..]), b);
      Regroup3(Shown(piece, None), DescriptionShades(s[n..], 0), Shown(b, None));
    }
  }

  // ------------------------------------------------------------- where a description begins

  // Two spaces behind the first character, with something behind them.
  predicate Opens(s: string, p: nat) {
    0 < p < |s| - 1 && s[p] == s[p + 1] == ' ' && exists k :: p < k < |s| && s[k] != ' '
  }

  predicate OpensFirst(s: string, p: nat) { Opens(s, p) && forall q: nat :: q < p ==> !Opens(s, q) }

  lemma {:induction false} StartIs(s: string, i: nat, spaces: Option<nat>)
    requires 0 < i <= |s| && s[0] != ' '
    requires spaces.Some? ==> 0 < spaces.value < i && forall k :: spaces.value <= k < i ==> s[k] == ' '
    requires spaces.None? ==> s[i - 1] != ' '
    requires forall p :: 0 < p < i - 1 && s[p] == s[p + 1] == ' ' ==> spaces.Some? && spaces.value <= p
    ensures var r := DescriptionFrom(s, i, spaces, true);
            && (r.None? ==> forall p :: !Opens(s, p))
            && (r.Some? ==> OpensFirst(s, r.value))
    decreases |s| - i
  {
    if i == |s| {
      forall p ensures !Opens(s, p) { }
    } else if s[i] == ' ' {
      StartIs(s, i + 1, if spaces.None? then Some(i) else spaces);
    } else if spaces.Some? && i - spaces.value >= 2 {
      assert Opens(s, spaces.value);
    } else {
      StartIs(s, i + 1, None);
    }
  }

  // The description begins at the first such place.
  lemma DescriptionStartIs(s: string)
    requires s != "" && s[0] != ' '
    ensures var r := DescriptionStart(s);
            && (r.None? ==> forall p :: !Opens(s, p))
            && (r.Some? ==> OpensFirst(s, r.value))
  {
    StartIs(s, 1, None);
  }

  // ------------------------------------------------------------- whole lines

  predicate TwoSpacesAt(line: string, i: nat) { i < |line| - 1 && line[i] == line[i + 1] == ' ' }

  predicate IsHeading(line: string) {
    line != "" && line[|line| - 1] == ':' && forall i :: 0 <= i < |line| ==> !TwoSpacesAt(line, i)
  }

  predicate IsUsage(line: string) { "Usage:" <= line }

  // Two spaces, and then a name.
  predicate IsCommand(line: string) {
    |line| > 2 && line[0] == line[1] == ' ' && !IsWhitespace(line[2]) && line[2] != '-'
  }

  // Two spaces, more white space, and then a dash; `n` is where the dash is.
  predicate IsOption(line: string, n: nat) {
    2 <= n < |line| && line[0] == line[1] == ' ' && line[n] == '-' && forall i :: 0 <= i < n ==> IsWhitespace(line[i])
  }

  // The shades of what is behind the indentation of an option line.
  ghost predicate OptionShades(s: string, shades: seq<(char, Shade)>) {
    && ((forall p :: !Opens(s, p)) ==> shades == FlagShades(s, Between))
    && (forall p: nat :: OpensFirst(s, p) ==>
          shades == FlagShades(s[..p], Between) + DescriptionShades(s[p..], 0))
  }

  lemma {:induction false} GapIs(s: string)
    ensures var n := Gap(s); (n < |s| ==> TwoSpacesAt(s, n)) && forall q :: 0 <= q < n ==> !TwoSpacesAt(s, q)
  {
    TwoFirst(s);
    if s != "" && !("  " <= s) {
      GapIs(s[1..]);
      forall q | 0 < q < Gap(s) ensures !TwoSpacesAt(s, q) {
        assert !TwoSpacesAt(s[1..], q - 1);
      }
    }
  }

  lemma TwoFirst(s: string)
    ensures "  " <= s <==> TwoSpacesAt(s, 0)
  {
    if TwoSpacesAt(s, 0) { assert s[..2] == "  "; }
  }

  lemma HeadingIff(line: string)
    ensures IsHeading(line) <==> line != "" && line[|line| - 1] == ':' && !HasTwoSpaces(line)
  {
    GapIs(line);
    hide Gap;
  }

  lemma ColorIs(line: string)
    requires Clean(line)
    ensures ColorLine(line)
         == if IsHeading(line) then Paint(HEADER, line)
            else if IsUsage(line) then
              (if Find(line, ' ') < |line| then
                 Paint(HEADER, line[..Find(line, ' ')]) + (" " + line[Find(line, ' ') + 1..])
               else line)
            else if CommandLine(line).Some? then CommandLine(line).value
            else if OptionLine(line).Some? then OptionLine(line).value
            else line
  {
    HeadingIff(line);
    assert !HasEscape(line);
    hide HasEscape, HasTwoSpaces, IsHeading, Paint, CommandLine, OptionLine, Find;
  }

  // A heading is shown in one color.
  lemma HeadingShown(line: string)
    requires Clean(line) && IsHeading(line)
    ensures Shown(ColorLine(line), None) == All(line, Some(HEADER))
  {
    ColorIs(line);
    hide *;
    PaintedPiece(HEADER, line, "");
  }

  // Of a usage line that is what comes before the first space, if there is one.
  lemma UsageShown(line: string, n: nat)
    requires Clean(line) && !IsHeading(line) && IsUsage(line)
    requires n <= |line| && (n < |line| ==> line[n] == ' ') && forall i :: 0 <= i < n ==> line[i] != ' '
    ensures Shown(ColorLine(line), None)
         == if n < |line| then All(line[..n], Some(HEADER)) + All(line[n..], None) else All(line, None)
  {
    ColorIs(line);
    assert Find(line, ' ') == n;
    var rest := if n < |line| then " " + line[n + 1..] else "";
    assert n < |line| ==> line[n..] == rest && Clean(rest) && Clean(line[..n]);
    hide *;
    if n < |line| {
      PaintedPiece(HEADER, line[..n], rest);
      OnlyPlain(rest);
    } else {
      OnlyPlain(line);
    }
  }

  lemma OnlyPlain(s: string)
    requires Clean(s)
    ensures Shown(s, None) == All(s, None)
  {
    PlainShown(s, "", None);
    assert s + "" == s && Shown("", None) == [] && All(s, None) + [] == All(s, None);
  }

  lemma CommandIff(line: string)
    requires !Respaced(line) && !IsHeading(line) && !IsUsage(line)
    ensures CommandLine(line).Some? <==> IsCommand(line)
    ensures IsCommand(line) ==> TrimStart(line) == line[2..]
  {
    HeadingIff(line);
    if IsCommand(line) { TrimmedTwo(line); }
    if CommandLine(line).Some? {
      Reindented(line);
      assert Indentation(line) == "  ";
      hide TrimStart, Gap, Paint, Indentation;
      assert line == "  " + TrimStart(line);
    }
    hide Paint, HasTwoSpaces;
  }

  lemma TrimmedTwo(line: string)
    requires IsCommand(line)
    ensures TrimStart(line) == line[2..] && "  " <= line && !("   " <= line) && Gap(line[2..]) > 0
  {
    assert line[..2] == "  ";
    ThreeSpaces(line);
    assert TrimStart(line) == TrimStart(line[1..]) == TrimStart(line[1..][1..]);
    assert line[1..][1..] == line[2..];
  }

  // Of a command line that is the name, up to the next two spaces.
  lemma CommandShown(line: string, n: nat)
    requires Clean(line) && !Respaced(line) && !IsHeading(line) && !IsUsage(line) && IsCommand(line)
    requires 2 <= n <= |line| && (n < |line| ==> TwoSpacesAt(line, n))
    requires forall i :: 2 <= i < n ==> !TwoSpacesAt(line, i)
    ensures Shown(ColorLine(line), None)
         == All(line[..2], None) + All(line[2..n], Some(LITERAL)) + All(line[n..], None)
  {
    ColorIs(line);
    CommandIff(line);
    NameOf(line, n);
    var name, rest := line[2..n], line[n..];
    assert line[..2] == "  " && Clean(name) && Clean(rest) && Clean("  ");
    hide *;
    PlainShown("  ", Paint(LITERAL, name) + rest, None);
    PaintedPiece(LITERAL, name, rest);
    OnlyPlain(rest);
    Regroup3(All("  ", None), All(name, Some(LITERAL)), All(rest, None));
  }

  lemma NameOf(line: string, n: nat)
    requires IsCommand(line) && CommandLine(line).Some? && TrimStart(line) == line[2..]
    requires 2 <= n <= |line| && (n < |line| ==> TwoSpacesAt(line, n))
    requires forall i :: 2 <= i < n ==> !TwoSpacesAt(line, i)
    ensures CommandLine(line).value == "  " + (Paint(LITERAL, line[2..n]) + line[n..])
  {
    hide *;
    GapAt(line, n);
    CommandValue(line);
    Slices(line, n);
  }

  lemma Slices(line: string, n: nat)
    requires 2 <= n <= |line|
    ensures line[2..][..n - 2] == line[2..n] && line[2..][n - 2..] == line[n..]
  {
  }

  lemma CommandValue(line: string)
    requires CommandLine(line).Some?
    ensures var s := TrimStart(line); CommandLine(line).value == "  " + (Paint(LITERAL, s[..Gap(s)]) + s[Gap(s)..])
  {
    hide TrimStart, Paint, Gap;
  }

  lemma GapAt(line: string, n: nat)
    requires IsCommand(line)
    requires 2 <= n <= |line| && (n < |line| ==> TwoSpacesAt(line, n))
    requires forall i :: 2 <= i < n ==> !TwoSpacesAt(line, i)
    ensures Gap(line[2..]) == n - 2
  {
    var s := line[2..];
    GapIs(s);
    hide Gap;
    assert forall i: nat :: TwoSpacesAt(s, i) <==> TwoSpacesAt(line, i + 2);
    assert n < |line| ==> TwoSpacesAt(s, n - 2);
    assert Gap(s) < |s| ==> TwoSpacesAt(line, Gap(s) + 2);
  }

  lemma {:induction false} TrimmedAt(line: string, n: nat)
    requires n < |line| && !IsWhitespace(line[n]) && forall i :: 0 <= i < n ==> IsWhitespace(line[i])
    ensures TrimStart(line) == line[n..]
  {
    if n > 0 {
      TrimmedAt(line[1..], n - 1);
      assert line[1..][n - 1..] == line[n..];
    }
  }

  lemma OptionIs(line: string, n: nat)
    requires IsOption(line, n)
    ensures n < |line| && TrimStart(line) == line[n..] && CommandLine(line).None? && OptionLine(line).Some?
  {
    assert line[..2] == "  ";
    TrimmedAt(line, n);
    hide TrimStart, Gap, Paint, Flags, Description, DescriptionStart;
  }

  // Of an option line flags and placeholders, and in its description what stands in brackets.
  lemma OptionShown(line: string, n: nat)
    requires Clean(line) && !IsHeading(line) && !IsUsage(line) && IsOption(line, n)
    ensures exists shades ::
              OptionShades(line[n..], shades) && Shown(ColorLine(line), None) == All(line[..n], None) + shades
  {
    hide *;
    OptionIs(line, n);
    OptionStarts(line, n);
    ColorIs(line);
    var s := line[n..];
    var p := if DescriptionStart(s).Some? then DescriptionStart(s).value else |s|;
    OptionParts(line, n, p);
    CleanParts(line, n, p);
    PartsShown(line[..n], s[..p], s[p..]);
    ShadesAre(s, p);
  }

  lemma OptionStarts(line: string, n: nat)
    requires IsOption(line, n)
    ensures var s := line[n..]; var start := DescriptionStart(s);
            && (start.Some? ==> start.value < |s| && OpensFirst(s, start.value))
            && (start.None? ==> forall r :: !Opens(s, r))
  {
    DescriptionStartIs(line[n..]);
    StartInside(line[n..]);
    hide DescriptionStart, Opens, OpensFirst;
  }

  lemma CleanParts(line: string, n: nat, p: nat)
    requires Clean(line) && n + p <= |line|
    ensures Clean(line[..n]) && Clean(line[n..][..p]) && Clean(line[n..][p..])
  {
  }

  lemma PartsShown(indent: string, flags: string, description: string)
    requires Clean(indent) && Clean(flags) && Clean(description)
    ensures Shown(indent + (Flags(flags) + Description(description)), None)
         == All(indent, None) + (FlagShades(flags, Between) + DescriptionShades(description, 0))
  {
    hide *;
    PlainShown(indent, Flags(flags) + Description(description), None);
    FlagsShown(flags, Description(description));
    DescriptionShown(description, "");
    NothingShown(Description(description), DescriptionShades(description, 0));
  }

  lemma StartInside(s: string)
    ensures DescriptionStart(s).Some? ==> DescriptionStart(s).value < |s|
  {
    DescriptionInside(s, 0, None, false);
  }

  lemma ShadesAre(s: string, p: nat)
    requires p <= |s| && (if p == |s| then forall r :: !Opens(s, r) else OpensFirst(s, p))
    ensures OptionShades(s, FlagShades(s[..p], Between) + DescriptionShades(s[p..], 0))
  {
    OneFirst(s, p);
    if p == |s| { assert s[..p] == s && s[p..] == "" && DescriptionShades("", 0) == []; }
    assert p < |s| ==> Opens(s, p);
    hide Opens, OpensFirst, FlagShades, DescriptionShades;
    assert FlagShades(s, Between) + [] == FlagShades(s, Between);
  }

  lemma NothingShown(s: string, shades: seq<(char, Shade)>)
    requires Shown(s + "", None) == shades + Shown("", None)
    ensures Shown(s, None) == shades
  {
    assert s + "" == s && shades + [] == shades;
  }

  lemma OneFirst(s: string, p: nat)
    ensures OpensFirst(s, p) ==> forall r :: OpensFirst(s, r) ==> r == p
    ensures (forall r :: !Opens(s, r)) ==> forall r :: !OpensFirst(s, r)
  {
    hide Opens;
  }

  lemma OptionParts(line: string, n: nat, p: nat)
    requires IsOption(line, n) && TrimStart(line) == line[n..] && OptionLine(line).Some?
    requires var start := DescriptionStart(line[n..]);
             p == (if start.Some? then start.value else |line| - n) && p <= |line| - n
    ensures OptionLine(line).value == line[..n] + (Flags(line[n..][..p]) + Description(line[n..][p..]))
  {
    hide *;
    OptionValue(line, n);
    WholeLine(line[n..]);
  }

  lemma WholeLine(s: string)
    ensures s[..|s|] == s && s[|s|..] == "" && Description("") == "" && Flags(s) + "" == Flags(s)
  {
    DescriptionOfNothing();
    hide Flags, Description;
  }

  lemma OptionValue(line: string, n: nat)
    requires n <= |line| && TrimStart(line) == line[n..] && OptionLine(line).Some?
    ensures var s := line[n..]; var start := DescriptionStart(s);
            OptionLine(line).value
            == if start.Some? && start.value <= |s| then
                 line[..n] + (Flags(s[..start.value]) + Description(s[start.value..]))
               else line[..n] + Flags(s)
  {
    hide TrimStart, Flags, Description, DescriptionStart;
  }

  // A line that has an escape sequence already is left alone.
  lemma EscapedKept(before: string, after: string)
    ensures var line := before + ([ESC, '['] + after); ColorLine(line) == line
  {
    var line := before + ([ESC, '['] + after);
    assert line[|before|] == ESC && line[|before| + 1] == '[';
    hide CommandLine, OptionLine, Find, HasTwoSpaces, Paint;
  }

  // Every other line is shown as it is.
  lemma OthersShown(line: string)
    requires Clean(line) && !Respaced(line) && !IsHeading(line) && !IsUsage(line) && !IsCommand(line)
    requires forall n :: !IsOption(line, n)
    ensures Shown(ColorLine(line), None) == All(line, None)
  {
    ColorIs(line);
    CommandIff(line);
    NoOption(line);
    hide *;
    OnlyPlain(line);
  }

  lemma NoOption(line: string)
    requires forall n :: !IsOption(line, n)
    ensures OptionLine(line).None?
  {
    var trimmed := TrimStart(line);
    var n := |line| - |trimmed|;
    assert trimmed == line[n..];
    assert !IsOption(line, n);
    hide TrimStart, Flags, Description, DescriptionStart;
  }
}
