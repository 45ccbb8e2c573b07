/** Coloring help text (crates/cli/src/help.rs:136-371), on characters of one byte. */
module Help {
  import opened Wrappers
  import opened Text

  const ESC: char := '\U{001B}'
  const HEADER: nat := 74
  const LITERAL: nat := 250
  const CONTEXT: nat := 245
  const RESET: string := [ESC] + "[0m"

  function Fg256(code: nat): string { [ESC] + "[38;5;" + Decimal(code) + "m" }

  function Paint(code: nat, text: string): string { Fg256(code) + (text + RESET) }

  // ------------------------------------------------------------- option lines

  // Where the gap of two or more spaces behind the flags begins.
  function DescriptionFrom(s: string, i: nat, spaces: Option<nat>, pastFlags: bool): Option<nat>
    requires i <= |s| && (spaces.Some? ==> spaces.value < i)
    decreases |s| - i
  {
    if i == |s| then None
    else if s[i] == ' ' then DescriptionFrom(s, i + 1, if spaces.None? then Some(i) else spaces, pastFlags)
    else if spaces.Some? && pastFlags && i - spaces.value >= 2 then spaces
    else DescriptionFrom(s, i + 1, None, true)
  }

  function DescriptionStart(s: string): Option<nat> { DescriptionFrom(s, 0, None, false) }

  method FindDescriptionStart(s: string) returns (r: Option<nat>)
    ensures r == DescriptionStart(s)
  {
    var i, inSpaces, spaceStart, pastFlags := 0, false, 0, false;
    while i < |s|
      invariant i <= |s| && (inSpaces ==> spaceStart < i)
      invariant DescriptionStart(s) == DescriptionFrom(s, i, if inSpaces then Some(spaceStart) else None, pastFlags)
    {
      if s[i] == ' ' {
        if !inSpaces {
          inSpaces, spaceStart := true, i;
        }
      } else {
        if inSpaces && pastFlags && i - spaceStart >= 2 {
          return Some(spaceStart);
        }
        inSpaces, pastFlags := false, true;
      }
      i := i + 1;
    }
    r := None;
  }

  // The description starts inside the line, at two spaces.
  lemma {:induction false} DescriptionInside(s: string, i: nat, spaces: Option<nat>, pastFlags: bool)
    requires i <= |s| && (spaces.Some? ==> spaces.value < i)
    requires spaces.Some? ==> forall j :: spaces.value <= j < i ==> s[j] == ' '
    ensures var r := DescriptionFrom(s, i, spaces, pastFlags);
            r.Some? ==> r.value + 2 <= |s| && s[r.value] == s[r.value + 1] == ' '
    decreases |s| - i
  {
    if i < |s| {
      if s[i] == ' ' { DescriptionInside(s, i + 1, if spaces.None? then Some(i) else spaces, pastFlags); }
      else if !(spaces.Some? && pastFlags && i - spaces.value >= 2) { DescriptionInside(s, i + 1, None, true); }
    }
  }

  function FlagEnd(s: string): (n: nat)
    ensures n <= |s|
  {
    if s == "" || s[0] == ' ' || s[0] == ',' then 0 else 1 + FlagEnd(s[1..])
  }

  function PlaceholderEnd(s: string): (n: nat)
    ensures n <= |s|
  {
    var i := Find(s, '>');
    if i < |s| then i + 1 else |s|
  }

  function Flags(s: string): string
    decreases |s|
  {
    if s == "" then ""
    else if s[0] == '-' then Paint(LITERAL, s[..FlagEnd(s)]) + Flags(s[FlagEnd(s)..])
    else if s[0] == '<' then Paint(CONTEXT, s[..PlaceholderEnd(s)]) + Flags(s[PlaceholderEnd(s)..])
    else [s[0]] + Flags(s[1..])
  }

  method SkipFlag(s: string, from: nat) returns (i: nat)
    requires from <= |s|
    ensures i == from + FlagEnd(s[from..])
  {
    i := from;
    while i < |s| && s[i] != ' ' && s[i] != ','
      invariant from <= i <= |s|
      invariant FlagEnd(s[from..]) == i - from + FlagEnd(s[i..])
    {
      assert s[i..][0] == s[i] && s[i..][1..] == s[i + 1..];
      i := i + 1;
    }
  }

  method SkipPlaceholder(s: string, from: nat) returns (i: nat)
    requires from <= |s|
    ensures i == from + PlaceholderEnd(s[from..])
  {
    i := from;
    while i < |s| && s[i] != '>'
      invariant from <= i <= |s|
      invariant Find(s[from..], '>') == i - from + Find(s[i..], '>')
    {
      assert s[i..][0] == s[i] && s[i..][1..] == s[i + 1..];
      i := i + 1;
    }
    if i < |s| {
      i := i + 1;
    }
  }

  // The first piece of the flags, colored.
  function FlagPiece(s: string): (string, nat)
    requires s != ""
  {
    if s[0] == '-' then (Paint(LITERAL, s[..FlagEnd(s)]), FlagEnd(s))
    else if s[0] == '<' then (Paint(CONTEXT, s[..PlaceholderEnd(s)]), PlaceholderEnd(s))
    else ([s[0]], 1)
  }

  lemma FlagsFirst(s: string)
    requires s != ""
    ensures 0 < FlagPiece(s).1 <= |s| && Flags(s) == FlagPiece(s).0 + Flags(s[FlagPiece(s).1..])
  {
    hide Paint;
  }

  method ColorizeFlags(s: string) returns (r: string)
    ensures r == Flags(s)
  {
    hide Paint, Flags;
    r := "";
    var i := 0;
    assert s[0..] == s;
    while i < |s|
      invariant i <= |s| && Flags(s) == r + Flags(s[i..])
      decreases |s| - i
    {
      var start := i;
      ghost var rest := s[i..];
      FlagsFirst(rest);
      var piece: string;
      if s[i] == '-' {
        i := SkipFlag(s, i);
        piece := Paint(LITERAL, s[start..i]);
      } else if s[i] == '<' {
        i := SkipPlaceholder(s, i);
        piece := Paint(CONTEXT, s[start..i]);
      } else {
        piece := [s[i]];
        i := i + 1;
      }
      assert rest[..i - start] == s[start..i] && rest[i - start..] == s[i..];
      assert piece == FlagPiece(rest).0;
      r := r + piece;
    }
    assert s[i..] == "";
    FlagsOfNothing();
  }

  lemma FlagsOfNothing()
    ensures Flags("") == ""
  {
  }

  // Where the bracket closes that stands `depth` deep.
  function BracketEnd(s: string, depth: nat): (n: nat)
    ensures n <= |s|
  {
    if s == "" || depth == 0 then 0
    else 1 + BracketEnd(s[1..], if s[0] == '[' then depth + 1 else if s[0] == ']' then depth - 1 else depth)
  }

  function Description(s: string): string
    decreases |s|
  {
    if s == "" then ""
    else if s[0] == '[' then
      var n := 1 + BracketEnd(s[1..], 1);
      Paint(CONTEXT, s[..n]) + Description(s[n..])
    else [s[0]] + Description(s[1..])
  }

  method SkipBracketed(s: string, from: nat) returns (i: nat)
    requires from < |s|
    ensures i == from + 1 + BracketEnd(s[from + 1..], 1)
  {
    var depth := 1;
    i := from + 1;
    while i < |s| && depth > 0
      invariant from < i <= |s| && depth >= 0
      invariant BracketEnd(s[from + 1..], 1) == i - from - 1 + BracketEnd(s[i..], depth)
      decreases |s| - i
    {
      assert s[i..][0] == s[i] && s[i..][1..] == s[i + 1..];
      if s[i] == '[' {
        depth := depth + 1;
      } else if s[i] == ']' {
        depth := depth - 1;
      }
      i := i + 1;
    }
  }

  // The first piece of the description, colored.
  function DescriptionPiece(s: string): (string, nat)
    requires s != ""
  {
    if s[0] == '[' then (Paint(CONTEXT, s[..1 + BracketEnd(s[1..], 1)]), 1 + BracketEnd(s[1..], 1)) else ([s[0]], 1)
  }

  lemma DescriptionFirst(s: string)
    requires s != ""
    ensures 0 < DescriptionPiece(s).1 <= |s|
    ensures Description(s) == DescriptionPiece(s).0 + Description(s[DescriptionPiece(s).1..])
  {
    hide Paint;
  }

  method ColorizeOptionDescription(s: string) returns (r: string)
    ensures r == Description(s)
  {
    hide Paint, Description, BracketEnd;
    r := "";
    var i := 0;
    assert s[0..] == s;
    while i < |s|
      invariant i <= |s| && Description(s) == r + Description(s[i..])
      decreases |s| - i
    {
      var start := i;
      ghost var rest := s[i..];
      DescriptionFirst(rest);
      var piece: string;
      if s[i] == '[' {
        assert rest[1..] == s[i + 1..];
        i := SkipBracketed(s, i);
        piece := Paint(CONTEXT, s[start..i]);
      } else {
        piece := [s[i]];
        i := i + 1;
      }
      assert rest[..i - start] == s[start..i] && rest[i - start..] == s[i..];
      assert piece == DescriptionPiece(rest).0;
      r := r + piece;
    }
    assert s[i..] == "";
    DescriptionOfNothing();
  }

  lemma DescriptionOfNothing()
    ensures Description("") == ""
  {
  }

  function OptionLine(line: string): Option<string> {
    var trimmed := TrimStart(line);
    if !("  " <= line) || trimmed == "" || trimmed[0] != '-' then None
    else
      var indent, start := line[..|line| - |trimmed|], DescriptionStart(trimmed);
      Some(if start.Some? && start.value <= |trimmed|
           then indent + (Flags(trimmed[..start.value]) + Description(trimmed[start.value..]))
           else indent + Flags(trimmed))
  }

  // ------------------------------------------------------------- command lines

  // The position of the first two spaces, or the length.
  function Gap(s: string): (n: nat)
    ensures n <= |s|
  {
    if s == "" || "  " <= s then 0 else 1 + Gap(s[1..])
  }

  function CommandLine(line: string): Option<string> {
    var trimmed := TrimStart(line);
    if !("  " <= line) || "   " <= line then None
    else if trimmed != "" && trimmed[0] == '-' then None
    else if Gap(trimmed) == 0 then None
    else Some("  " + (Paint(LITERAL, trimmed[..Gap(trimmed)]) + trimmed[Gap(trimmed)..]))
  }

  // ------------------------------------------------------------- whole lines

  predicate HasTwoSpaces(s: string) { Gap(s) < |s| }

  predicate HasEscape(s: string) { exists i :: 0 <= i < |s| - 1 && s[i] == ESC && s[i + 1] == '[' }

  function ColorLine(line: string): string {
    if HasEscape(line) then line
    else if line != "" && line[|line| - 1] == ':' && !HasTwoSpaces(line) then Paint(HEADER, line)
    else if "Usage:" <= line then
      var i := Find(line, ' ');
      if i < |line| then Paint(HEADER, line[..i]) + (" " + line[i + 1..]) else line
    else if CommandLine(line).Some? then CommandLine(line).value
    else if OptionLine(line).Some? then OptionLine(line).value
    else line
  }

  function ColorLines(lines: seq<string>): (r: seq<string>)
    ensures |r| == |lines| && forall i :: 0 <= i < |r| ==> r[i] == ColorLine(lines[i])
  {
    seq(|lines|, i requires 0 <= i < |lines| => ColorLine(lines[i]))
  }

  function ColorHelp(text: string): string { Join(ColorLines(Lines(text)), "\n") }

  method ColorizeOptionLine(line: string) returns (r: Option<string>)
    ensures r == OptionLine(line)
  {
    hide Flags, Description;
    var trimmed := TrimStart(line);
    if !("  " <= line) || trimmed == "" || trimmed[0] != '-' {
      return None;
    }
    var indent := line[..|line| - |trimmed|];
    var start := FindDescriptionStart(trimmed);
    DescriptionInside(trimmed, 0, None, false);
    if start.Some? {
      var flags := ColorizeFlags(trimmed[..start.value]);
      var description := ColorizeOptionDescription(trimmed[start.value..]);
      return Some(indent + (flags + description));
    }
    var flags := ColorizeFlags(trimmed);
    r := Some(indent + flags);
  }

  method ColorizeHelp(text: string) returns (r: string)
    ensures r == ColorHelp(text)
  {
    hide CommandLine, OptionLine, Paint;
    var result: seq<string> := [];
    var lines := Lines(text);
    for i := 0 to |lines|
      invariant result == ColorLines(lines)[..i]
    {
      var line := lines[i];
      var colored := line;
      if HasEscape(line) {
      } else if line != "" && line[|line| - 1] == ':' && !HasTwoSpaces(line) {
        colored := Paint(HEADER, line);
      } else if "Usage:" <= line {
        var space := Find(line, ' ');
        if space < |line| {
          colored := Paint(HEADER, line[..space]) + (" " + line[space + 1..]);
        }
      } else if CommandLine(line).Some? {
        colored := CommandLine(line).value;
      } else {
        var option := ColorizeOptionLine(line);
        if option.Some? { colored := option.value; }
      }
      assert colored == ColorLine(line);
      result := result + [colored];
    }
    assert ColorLines(lines)[..|lines|] == ColorLines(lines);
    r := Join(result, "\n");
  }

  // ------------------------------------------------------------- the text stays

  // The text without escape sequences: each runs up to the next `m`.
  function Erase(s: string): string
    decreases |s|
  {
    if s == "" then ""
    else if s[0] == ESC then
      var i := Find(s, 'm');
      if i < |s| then Erase(s[i + 1..]) else ""
    else [s[0]] + Erase(s[1..])
  }

  predicate Clean(s: string) { ESC !in s }

  lemma {:induction false} ErasePlain(a: string, b: string)
    requires Clean(a)
    ensures Erase(a + b) == a + Erase(b)
  {
    if a == "" {
      assert a + b == b;
    } else {
      assert (a + b)[0] == a[0] && (a + b)[1..] == a[1..] + b;
      ErasePlain(a[1..], b);
      assert [a[0]] + (a[1..] + Erase(b)) == a + Erase(b);
    }
  }

  lemma EraseSequence(body: string, b: string)
    requires 'm' !in body
    ensures Erase([ESC] + body + "m" + b) == Erase(b)
  {
    var s := [ESC] + body + "m" + b;
    assert s == ([ESC] + body) + ("m" + b);
    FindAppend([ESC] + body, "m" + b, 'm');
    assert s[|body| + 2..] == b;
  }

  lemma ErasePaint(code: nat, text: string, b: string)
    requires Clean(text)
    ensures Erase(Paint(code, text) + b) == text + Erase(b)
  {
    var on, off := "[38;5;" + Decimal(code), "[0";
    assert RESET == [ESC] + off + "m";
    assert Fg256(code) == [ESC] + on + "m";
    assert Paint(code, text) + b == [ESC] + on + "m" + (text + ([ESC] + off + "m" + b));
    EraseSequence(on, text + ([ESC] + off + "m" + b));
    ErasePlain(text, [ESC] + off + "m" + b);
    EraseSequence(off, b);
  }

  lemma Regroup(a: string, b: string, c: string)
    ensures a + b + c == a + (b + c)
  {
  }

  lemma Rejoin(s: string, n: nat, rest: string)
    requires n <= |s|
    ensures s[..n] + (s[n..] + rest) == s + rest
  {
  }

  lemma EraseFlagPiece(s: string, b: string)
    requires Clean(s) && s != ""
    ensures Erase(FlagPiece(s).0 + b) == s[..FlagPiece(s).1] + Erase(b)
  {
    FlagsFirst(s);
    hide Paint, Erase, FlagEnd, PlaceholderEnd;
    var first := s[..FlagPiece(s).1];
    assert Clean(first);
    if s[0] == '-' { ErasePaint(LITERAL, first, b); }
    else if s[0] == '<' { ErasePaint(CONTEXT, first, b); }
    else { assert first == [s[0]]; ErasePlain(first, b); }
  }

  lemma {:induction false} EraseFlags(s: string, b: string)
    requires Clean(s)
    ensures Erase(Flags(s) + b) == s + Erase(b)
    decreases |s|
  {
    hide Erase, FlagPiece, Flags;
    if s == "" {
      FlagsOfNothing();
      assert "" + b == b && "" + Erase(b) == Erase(b);
    } else {
      FlagsFirst(s);
      var piece, n := FlagPiece(s).0, FlagPiece(s).1;
      EraseFlagPiece(s, Flags(s[n..]) + b);
      EraseFlags(s[n..], b);
      Regroup(piece, Flags(s[n..]), b);
      Rejoin(s, n, Erase(b));
    }
  }

  lemma EraseDescriptionPiece(s: string, b: string)
    requires Clean(s) && s != ""
    ensures Erase(DescriptionPiece(s).0 + b) == s[..DescriptionPiece(s).1] + Erase(b)
  {
    DescriptionFirst(s);
    hide Paint, Erase, BracketEnd;
    var first := s[..DescriptionPiece(s).1];
    assert Clean(first);
    if s[0] == '[' { ErasePaint(CONTEXT, first, b); }
    else { assert first == [s[0]]; ErasePlain(first, b); }
  }

  lemma {:induction false} EraseDescription(s: string, b: string)
    requires Clean(s)
    ensures Erase(Description(s) + b) == s + Erase(b)
    decreases |s|
  {
    hide Erase, DescriptionPiece, Description;
    if s == "" {
      DescriptionOfNothing();
      assert "" + b == b && "" + Erase(b) == Erase(b);
    } else {
      DescriptionFirst(s);
      var piece, n := DescriptionPiece(s).0, DescriptionPiece(s).1;
      EraseDescriptionPiece(s, Description(s[n..]) + b);
      EraseDescription(s[n..], b);
      Regroup(piece, Description(s[n..]), b);
      Rejoin(s, n, Erase(b));
    }
  }

  lemma EraseOption(line: string, b: string)
    requires Clean(line) && OptionLine(line).Some?
    ensures Erase(OptionLine(line).value + b) == line + Erase(b)
  {
    hide Erase, Flags, Description, DescriptionStart, TrimStart;
    var trimmed := TrimStart(line);
    var indent, start := line[..|line| - |trimmed|], DescriptionStart(trimmed);
    var n := if start.Some? && start.value <= |trimmed| then start.value else |trimmed|;
    assert line == indent + trimmed && trimmed == trimmed[..n] + trimmed[n..];
    assert Clean(indent) && Clean(trimmed[..n]) && Clean(trimmed[n..]);
    assert OptionLine(line).value == indent + (Flags(trimmed[..n]) + Description(trimmed[n..])) by {
      if n == |trimmed| { assert trimmed[..n] == trimmed && trimmed[n..] == ""; DescriptionOfNothing(); }
      assert Flags(trimmed[..n]) + "" == Flags(trimmed[..n]);
    }
    ErasePieces(indent, trimmed[..n], trimmed[n..], b);
  }

  lemma ErasePieces(indent: string, flags: string, description: string, b: string)
    requires Clean(indent) && Clean(flags) && Clean(description)
    ensures Erase(indent + (Flags(flags) + Description(description)) + b) == indent + (flags + description) + Erase(b)
  {
    hide Erase, Flags, Description;
    var f, d := Flags(flags), Description(description);
    assert indent + (f + d) + b == indent + (f + (d + b));
    ErasePlain(indent, f + (d + b));
    EraseFlags(flags, d + b);
    EraseDescription(description, b);
    assert indent + (flags + (description + Erase(b))) == indent + (flags + description) + Erase(b);
  }

  // What the coloring of a command line drops: white space other than spaces behind the two
  // spaces it is indented by.
  function Indentation(line: string): string { line[..|line| - |TrimStart(line)|] }

  lemma EraseCommand(line: string, b: string)
    requires Clean(line) && CommandLine(line).Some?
    ensures Erase(CommandLine(line).value + b) == "  " + TrimStart(line) + Erase(b)
  {
    hide Erase, Paint, TrimStart, Gap;
    var trimmed := TrimStart(line);
    TrimmedClean(line);
    var n := Gap(trimmed);
    assert trimmed == trimmed[..n] + trimmed[n..];
    EraseNamed(trimmed[..n], trimmed[n..], b);
  }

  lemma TrimmedClean(line: string)
    requires Clean(line)
    ensures Clean(TrimStart(line))
  {
    hide TrimStart;
    var trimmed := TrimStart(line);
    assert forall i :: 0 <= i < |trimmed| ==> trimmed[i] == line[|line| - |trimmed| + i];
  }

  lemma EraseNamed(name: string, rest: string, b: string)
    requires Clean(name) && Clean(rest)
    ensures Erase("  " + (Paint(LITERAL, name) + rest) + b) == "  " + (name + rest) + Erase(b)
  {
    hide Erase, Paint;
    var p := Paint(LITERAL, name);
    assert "  " + (p + rest) + b == "  " + (p + (rest + b));
    ErasePlain("  ", p + (rest + b));
    ErasePaint(LITERAL, name, rest + b);
    ErasePlain(rest, b);
    assert "  " + (name + (rest + Erase(b))) == "  " + (name + rest) + Erase(b);
  }

  // Whether a line is colored as a command although its indentation is not just two spaces.
  predicate Respaced(line: string) {
    && CommandLine(line).Some? && Indentation(line) != "  "
    && !(line != "" && line[|line| - 1] == ':' && !HasTwoSpaces(line)) && !("Usage:" <= line)
  }

  lemma EraseUsage(line: string, i: nat, b: string)
    requires Clean(line) && i < |line| && line[i] == ' '
    ensures Erase(Paint(HEADER, line[..i]) + (" " + line[i + 1..]) + b) == line + Erase(b)
  {
    hide Erase, Paint;
    var head, rest := line[..i], " " + line[i + 1..];
    assert line == head + rest && Clean(head) && Clean(rest);
    assert Paint(HEADER, head) + rest + b == Paint(HEADER, head) + (rest + b);
    ErasePaint(HEADER, head, rest + b);
    ErasePlain(rest, b);
    assert head + (rest + Erase(b)) == line + Erase(b);
  }

  lemma EraseLine(line: string, b: string)
    requires Clean(line) && !Respaced(line)
    ensures Erase(ColorLine(line) + b) == line + Erase(b)
  {
    hide Erase, Paint, CommandLine, OptionLine, TrimStart, Find, HasTwoSpaces;
    assert !HasEscape(line);
    if line != "" && line[|line| - 1] == ':' && !HasTwoSpaces(line) {
      ErasePaint(HEADER, line, b);
    } else if "Usage:" <= line {
      if Find(line, ' ') < |line| { EraseUsage(line, Find(line, ' '), b); } else { ErasePlain(line, b); }
    } else if CommandLine(line).Some? {
      EraseCommand(line, b);
      Reindented(line);
    } else if OptionLine(line).Some? {
      EraseOption(line, b);
    } else {
      ErasePlain(line, b);
    }
  }

  lemma {:induction false} EraseLines(lines: seq<string>)
    requires forall i :: 0 <= i < |lines| ==> Clean(lines[i]) && !Respaced(lines[i])
    ensures Erase(Join(ColorLines(lines), "\n")) == Join(lines, "\n")
  {
    hide Erase, ColorLine, Respaced;
    var colored := ColorLines(lines);
    if |lines| == 0 {
      assert Erase("") == "" by { ErasePlain("", ""); EraseNothing(); }
    } else if |lines| == 1 {
      EraseLine(lines[0], "");
      EraseNothing();
      assert ColorLine(lines[0]) + "" == ColorLine(lines[0]);
    } else {
      EraseLines(lines[1..]);
      assert colored[1..] == ColorLines(lines[1..]);
      var rest := Join(colored[1..], "\n");
      assert Join(colored, "\n") == ColorLine(lines[0]) + ("\n" + rest);
      EraseLine(lines[0], "\n" + rest);
      ErasePlain("\n", rest);
      assert lines[0] + ("\n" + Join(lines[1..], "\n")) == lines[0] + "\n" + Join(lines[1..], "\n");
    }
  }

  lemma EraseNothing()
    ensures Erase("") == ""
  {
  }

  // Without its escape sequences the colored help is the lines of the text again.
  lemma ColoringPreservesText(text: string)
    requires forall i :: 0 <= i < |Lines(text)| ==> Clean(Lines(text)[i]) && !Respaced(Lines(text)[i])
    ensures Erase(ColorHelp(text)) == Join(Lines(text), "\n")
  {
    EraseLines(Lines(text));
  }

  // For a single line the condition is exact: one that is re-spaced loses white space.
  lemma LinePreservedIff(line: string)
    requires Clean(line)
    ensures Erase(ColorLine(line)) == line <==> !Respaced(line)
  {
    hide Erase, Paint, TrimStart, CommandLine, OptionLine;
    EraseNothing();
    assert ColorLine(line) + "" == ColorLine(line);
    if !Respaced(line) {
      hide ColorLine, Respaced;
      EraseLine(line, "");
    } else {
      assert !HasEscape(line);
      assert ColorLine(line) == CommandLine(line).value;
      hide ColorLine;
      EraseCommand(line, "");
      assert "  " + TrimStart(line) + "" == "  " + TrimStart(line);
      Reindented(line);
    }
  }

  lemma Reindented(line: string)
    ensures line == Indentation(line) + TrimStart(line)
    ensures "  " + TrimStart(line) == line ==> Indentation(line) == "  "
  {
    hide TrimStart;
    var trimmed := TrimStart(line);
    if "  " + trimmed == line { assert line[..2] == "  "; }
  }

  // Indentation by spaces alone is never re-spaced.
  lemma SpacesSuffice(line: string)
    requires forall c :: c in Indentation(line) ==> c == ' '
    ensures !Respaced(line)
  {
    if CommandLine(line).Some? {
      Reindented(line);
      var trimmed, indent := TrimStart(line), Indentation(line);
      hide Gap, TrimStart, Indentation;
      assert trimmed != "" && !IsWhitespace(trimmed[0]) && line == indent + trimmed && "  " <= line && !("   " <= line);
      TwoSpaces(indent, trimmed);
    }
  }

  lemma ThreeSpaces(s: string)
    ensures "   " <= s <==> |s| >= 3 && s[0] == s[1] == s[2] == ' '
  {
    if |s| >= 3 && s[0] == s[1] == s[2] == ' ' { assert s[..3] == "   "; }
  }

  lemma TwoSpaces(indent: string, rest: string)
    requires rest != "" && !IsWhitespace(rest[0]) && (forall c :: c in indent ==> c == ' ')
    requires "  " <= indent + rest && !("   " <= indent + rest)
    ensures indent == "  "
  {
    var line := indent + rest;
    assert line[0] == ' ' && line[1] == ' ';
    assert line[|indent|] == rest[0] != ' ';
    assert forall k :: 0 <= k < |indent| ==> line[k] == indent[k] && indent[k] in indent;
    ThreeSpaces(line);
  }
}
