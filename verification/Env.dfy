/** Dotenv files (crates/engine/src/env.rs). */
module Env {
  import opened Wrappers
  import opened Text

  type Vars = map<string, string>

  // What one line sets, if anything.
  function Entry(line: string): Option<(string, string)> {
    var trimmed := Trim(line);
    if trimmed == "" || trimmed[0] == '#' then None
    else
      var i := Find(trimmed, '=');
      if i == |trimmed| then None
      else
        var key := Trim(trimmed[..i]);
        if key == "" then None else Some((key, trimmed[i + 1..]))
  }

  function Inserted(vars: Vars, entry: Option<(string, string)>): Vars {
    if entry.None? then vars else vars[entry.value.0 := entry.value.1]
  }

  function ParseLines(lines: seq<string>): Vars {
    if lines == [] then map[] else Inserted(ParseLines(lines[..|lines| - 1]), Entry(lines[|lines| - 1]))
  }

  function Parse(content: string): Vars { ParseLines(Lines(content)) }

  method ParseLine(line: string) returns (entry: Option<(string, string)>)
    ensures entry == Entry(line)
  {
    entry := None;
    var trimmed := Trim(line);
    if trimmed == "" || trimmed[0] == '#' {
      return;
    }
    var eq := Find(trimmed, '=');
    if eq < |trimmed| {
      var key := Trim(trimmed[..eq]);
      var value := trimmed[eq + 1..];
      if key != "" {
        entry := Some((key, value));
      }
    }
  }

  method ParseEnv(content: string) returns (vars: Vars)
    ensures vars == Parse(content)
  {
    hide Lines, Entry;
    vars := map[];
    var lines := Lines(content);
    for i := 0 to |lines|
      invariant vars == ParseLines(lines[..i])
    {
      assert lines[..i + 1][..i] == lines[..i];
      var entry := ParseLine(lines[i]);
      if entry.Some? {
        vars := vars[entry.value.0 := entry.value.1];
      }
    }
    assert lines[..|lines|] == lines;
  }

  // ------------------------------------------------------------- printing

  function Line(vars: Vars, key: string): string
    requires key in vars
  {
    key + ("=" + vars[key])
  }

  // The keys of `vars` in some order. The source prints in the order of the keys; nothing below
  // depends on it.
  predicate Orders(keys: seq<string>, vars: Vars) {
    && (forall i :: 0 <= i < |keys| ==> keys[i] in vars)
    && (forall k :: k in vars ==> k in keys)
    && (forall i, j :: 0 <= i < j < |keys| ==> keys[i] != keys[j])
  }

  // Every line with its line feed: the joined lines and a final line feed.
  function Printed(vars: Vars, keys: seq<string>): string
    requires forall i :: 0 <= i < |keys| ==> keys[i] in vars
  {
    if keys == [] then "" else Line(vars, keys[0]) + ("\n" + Printed(vars, keys[1..]))
  }

  function PrintedLines(vars: Vars, keys: seq<string>): (r: seq<string>)
    requires forall i :: 0 <= i < |keys| ==> keys[i] in vars
    ensures |r| == |keys| && forall i :: 0 <= i < |r| ==> r[i] == Line(vars, keys[i])
  {
    seq(|keys|, i requires 0 <= i < |keys| => Line(vars, keys[i]))
  }

  lemma {:induction false} PrintedIsJoined(vars: Vars, keys: seq<string>)
    requires keys != [] && forall i :: 0 <= i < |keys| ==> keys[i] in vars
    ensures Printed(vars, keys) == Join(PrintedLines(vars, keys), "\n") + "\n"
  {
    var lines := PrintedLines(vars, keys);
    if |keys| > 1 {
      var rest := PrintedLines(vars, keys[1..]);
      assert lines[1..] == rest;
      PrintedIsJoined(vars, keys[1..]);
      assert Join(lines, "\n") == lines[0] + "\n" + Join(rest, "\n");
      assert lines[0] + ("\n" + (Join(rest, "\n") + "\n")) == lines[0] + "\n" + Join(rest, "\n") + "\n";
    } else {
      assert Printed(vars, keys[1..]) == "";
      assert Join(lines, "\n") == lines[0];
    }
  }

  // What reading finds after `vars` was written: an empty map removes the file.
  function WrittenAndRead(vars: Vars, keys: seq<string>): Vars
    requires Orders(keys, vars)
  {
    if vars == map[] then map[] else Parse(Printed(vars, keys))
  }

  // ------------------------------------------------------------- what survives

  predicate GoodKey(key: string) {
    key != "" && Trimmed(key) && key[0] != '#' && '=' !in key && '\n' !in key
  }

  predicate GoodValue(value: string) {
    '\n' !in value && (value == "" || !IsWhitespace(value[|value| - 1]))
  }

  predicate Good(vars: Vars) {
    forall k :: k in vars ==> GoodKey(k) && GoodValue(vars[k])
  }

  lemma TrimKeeps(s: string, c: char)
    requires c !in s
    ensures c !in Trim(s)
  {
    hide TrimStart, TrimEnd;
    var t := TrimStart(s);
    assert forall i :: 0 <= i < |t| ==> t[i] == s[|s| - |t| + i];
    assert c !in t;
  }

  // A line sets only good keys, to good values.
  lemma EntryIsGood(line: string)
    requires '\n' !in line && Entry(line).Some?
    ensures GoodKey(Entry(line).value.0) && GoodValue(Entry(line).value.1)
  {
    hide Trim, Find;
    var trimmed := Trim(line);
    var i := Find(trimmed, '=');
    var head := trimmed[..i];
    TrimKeeps(line, '\n');
    assert '=' !in head && '\n' !in head;
    TrimKeeps(head, '=');
    TrimKeeps(head, '\n');
    if head == "" { TrimTrimmed(head); }
    TrimHead(head);
  }

  lemma TrimHead(s: string)
    ensures s != "" && !IsWhitespace(s[0]) ==> Trim(s) != "" && Trim(s)[0] == s[0]
  {
    if s != "" && !IsWhitespace(s[0]) {
      assert TrimStart(s) == s;
      assert |TrimEnd(s)| > 0;
    }
  }

  lemma {:induction false} ParsedLinesAreGood(lines: seq<string>)
    requires forall i :: 0 <= i < |lines| ==> '\n' !in lines[i]
    ensures Good(ParseLines(lines))
  {
    if lines != [] {
      ParsedLinesAreGood(lines[..|lines| - 1]);
      var last := lines[|lines| - 1];
      if Entry(last).Some? { EntryIsGood(last); }
      hide Entry, GoodKey, GoodValue;
    }
  }

  lemma GoodLine(vars: Vars, key: string)
    requires key in vars && GoodKey(key) && GoodValue(vars[key])
    ensures var line := Line(vars, key);
            && Entry(line) == Some((key, vars[key])) && line != "" && '\n' !in line && line[|line| - 1] != '\r'
  {
    var line, value := Line(vars, key), vars[key];
    assert line == key + ("=" + value) && Trimmed(key) && '=' !in key && key != "";
    LineIsTrimmed(key, value);
    FindAppend(key, "=" + value, '=');
    assert Find("=" + value, '=') == 0;
    hide *;
    TrimTrimmed(line);
    TrimTrimmed(key);
    assert line[..|key|] == key && line[|key| + 1..] == value;
    EntryOf(line, key, value);
  }

  lemma EntryOf(line: string, key: string, value: string)
    requires Trim(line) == line && Trim(key) == key && key != "" && line != "" && line[0] != '#'
    requires Find(line, '=') == |key| < |line| && line[..|key|] == key && line[|key| + 1..] == value
    ensures Entry(line) == Some((key, value))
  {
    hide Trim, Find;
  }

  lemma LineIsTrimmed(key: string, value: string)
    requires GoodKey(key) && GoodValue(value)
    ensures var line := key + ("=" + value);
            Trimmed(line) && line[0] != '#' && '\n' !in line && line[|line| - 1] != '\r'
  {
    var line := key + ("=" + value);
    assert line[|line| - 1] == if value == "" then '=' else value[|value| - 1];
  }

  lemma {:induction false} LinesOfPrinted(vars: Vars, keys: seq<string>)
    requires Good(vars) && forall i :: 0 <= i < |keys| ==> keys[i] in vars
    ensures Lines(Printed(vars, keys)) == PrintedLines(vars, keys)
  {
    if keys != [] {
      GoodLine(vars, keys[0]);
      hide Lines, Line, Entry, GoodKey, GoodValue;
      LinesOfPrinted(vars, keys[1..]);
      FirstLine(Line(vars, keys[0]), Printed(vars, keys[1..]));
    }
  }

  // The part of `vars` under some keys.
  function Part(vars: Vars, keys: seq<string>): Vars { map k | k in vars && k in keys :: vars[k] }

  lemma PartStep(vars: Vars, keys: seq<string>, key: string)
    requires key in vars
    ensures Part(vars, keys)[key := vars[key]] == Part(vars, keys + [key])
  {
  }

  lemma InsertedSome(vars: Vars, key: string, value: string)
    ensures Inserted(vars, Some((key, value))) == vars[key := value]
  {
  }

  lemma ParseLinesSnoc(lines: seq<string>, last: string)
    ensures ParseLines(lines + [last]) == Inserted(ParseLines(lines), Entry(last))
  {
    assert (lines + [last])[..|lines|] == lines;
    hide Entry, Inserted;
  }

  lemma PrintedSnoc(vars: Vars, keys: seq<string>, last: string)
    requires last in vars && forall i :: 0 <= i < |keys| ==> keys[i] in vars
    ensures PrintedLines(vars, keys + [last]) == PrintedLines(vars, keys) + [Line(vars, last)]
  {
  }

  lemma {:induction false} ParsePrintedLines(vars: Vars, keys: seq<string>)
    requires Good(vars) && forall i :: 0 <= i < |keys| ==> keys[i] in vars
    ensures ParseLines(PrintedLines(vars, keys)) == Part(vars, keys)
  {
    if keys != [] {
      var before, last := keys[..|keys| - 1], keys[|keys| - 1];
      assert GoodKey(last) && GoodValue(vars[last]);
      assert keys == before + [last];
      hide *;
      GoodLine(vars, last);
      ParsePrintedLines(vars, before);
      PrintedSnoc(vars, before, last);
      ParseLinesSnoc(PrintedLines(vars, before), Line(vars, last));
      InsertedSome(Part(vars, before), last, vars[last]);
      PartStep(vars, before, last);
    } else {
      assert Part(vars, keys) == map[];
    }
  }

  // Writing and reading gives back exactly the maps with good keys and values.
  lemma RoundTripIff(vars: Vars, keys: seq<string>)
    requires Orders(keys, vars)
    ensures WrittenAndRead(vars, keys) == vars <==> Good(vars)
  {
    hide Lines, Line, Entry, Printed, GoodKey, GoodValue, ParseLines;
    if vars != map[] {
      if Good(vars) {
        LinesOfPrinted(vars, keys);
        ParsePrintedLines(vars, keys);
        assert Part(vars, keys) == vars;
      }
      ParsedLinesAreGood(Lines(Printed(vars, keys)));
    }
  }

  // Whatever a file holds: writing what was read from it and reading again changes nothing.
  lemma NormalForm(content: string, keys: seq<string>)
    requires Orders(keys, Parse(content))
    ensures WrittenAndRead(Parse(content), keys) == Parse(content)
  {
    hide Lines, Entry, ParseLines, WrittenAndRead, Good;
    ParsedLinesAreGood(Lines(content));
    RoundTripIff(Parse(content), keys);
  }

  // ------------------------------------------------------------- any line

  predicate Blank(s: string) { forall c :: c in s ==> IsWhitespace(c) }

  lemma BlankAt(s: string)
    ensures Blank(s) <==> forall i :: 0 <= i < |s| ==> IsWhitespace(s[i])
  {
    assert forall i :: 0 <= i < |s| ==> s[i] in s;
  }

  lemma TrimParts(s: string) returns (a: string, b: string)
    ensures s == a + Trim(s) + b && Blank(a) && Blank(b)
  {
    hide TrimStart, TrimEnd;
    var t := TrimStart(s);
    a := s[..|s| - |t|];
    b := t[|Trim(s)|..];
    BlankAt(a);
    BlankAt(b);
    hide Blank;
    assert s == a + t && t == Trim(s) + b;
  }

  // White space around a trimmed text is what trimming takes away.
  lemma TrimOf(a: string, core: string, b: string)
    requires Blank(a) && Blank(b) && core != "" && Trimmed(core)
    ensures Trim(a + core + b) == core
  {
    var s := a + core + b;
    var x, y := TrimParts(s);
    var r := Trim(s);
    BlankAt(a);
    BlankAt(b);
    BlankAt(x);
    BlankAt(y);
    hide Trim, Blank;
    OneTrimming(s, a, core, b, x, r, y);
  }

  lemma OneTrimming(s: string, a: string, core: string, b: string, x: string, r: string, y: string)
    requires s == a + core + b == x + r + y && core != "" && Trimmed(core) && Trimmed(r)
    requires forall i :: 0 <= i < |a| ==> IsWhitespace(a[i])
    requires forall i :: 0 <= i < |b| ==> IsWhitespace(b[i])
    requires forall i :: 0 <= i < |x| ==> IsWhitespace(x[i])
    requires forall i :: 0 <= i < |y| ==> IsWhitespace(y[i])
    ensures core == r
  {
    hide IsWhitespace;
    assert forall i :: 0 <= i < |a| ==> s[i] == a[i];
    assert forall i :: 0 <= i < |x| ==> s[i] == x[i];
    assert forall i :: |a| + |core| <= i < |s| ==> s[i] == b[i - |a| - |core|];
    assert forall i :: |x| + |r| <= i < |s| ==> s[i] == y[i - |x| - |r|];
    assert s[|a|] == core[0] && s[|a| + |core| - 1] == core[|core| - 1];
    assert r != "";
    assert s[|x|] == r[0] && s[|x| + |r| - 1] == r[|r| - 1];
    assert |x| == |a| && |y| == |b|;
    assert core == s[|a|..|a| + |core|] && r == s[|x|..|x| + |r|];
  }

  // The line is the key and the value with `=` in between, and white space around the key and behind.
  predicate SetsAs(line: string, key: string, value: string, before: string, between: string, behind: string) {
    && line == before + (key + between + ("=" + value)) + behind && Blank(before) && Blank(between) && Blank(behind)
    && key != "" && Trimmed(key) && key[0] != '#' && '=' !in key
    && (value == "" || !IsWhitespace(value[|value| - 1]))
  }

  ghost predicate Sets(line: string, key: string, value: string) {
    exists before, between, behind :: SetsAs(line, key, value, before, between, behind)
  }

  // Any line at all sets that key to that value, and nothing else.
  lemma EntryIff(line: string, key: string, value: string)
    ensures Entry(line) == Some((key, value)) <==> Sets(line, key, value)
  {
    hide Trim, Find, Blank, Entry, SetsAs;
    if Entry(line) == Some((key, value)) { EntrySets(line, key, value); }
    if before, between, behind :| SetsAs(line, key, value, before, between, behind) {
      SetsEntry(line, key, value, before, between, behind);
    }
  }

  lemma SetsEntry(line: string, key: string, value: string, before: string, between: string, behind: string)
    requires SetsAs(line, key, value, before, between, behind)
    ensures Entry(line) == Some((key, value))
  {
    hide *;
    SetsParts(line, key, value, before, between, behind);
    CoreIsTrimmed(key, between, value);
    TrimOf(before, key + between + ("=" + value), behind);
    TrimOf("", key, between);
    NothingBefore(key, between);
    HeadEnds(key, between, value);
    EntryFrom(line, key + between + ("=" + value), key, |key + between|, value);
  }

  lemma SetsParts(line: string, key: string, value: string, before: string, between: string, behind: string)
    requires SetsAs(line, key, value, before, between, behind)
    ensures line == before + (key + between + ("=" + value)) + behind
    ensures Blank(before) && Blank(between) && Blank(behind) && Blank("")
    ensures key != "" && Trimmed(key) && key[0] != '#' && '=' !in key
    ensures value == "" || !IsWhitespace(value[|value| - 1])
  {
  }

  lemma NothingBefore(a: string, b: string)
    ensures "" + a + b == a + b
  {
  }

  lemma CoreIsTrimmed(key: string, between: string, value: string)
    requires key != "" && Trimmed(key) && key[0] != '#' && (value == "" || !IsWhitespace(value[|value| - 1]))
    ensures var core := key + between + ("=" + value); core != "" && Trimmed(core) && core[0] != '#'
  {
    var core := key + between + ("=" + value);
    assert core[0] == key[0] && core[|core| - 1] == if value == "" then '=' else value[|value| - 1];
  }

  lemma HeadEnds(key: string, between: string, value: string)
    requires '=' !in key && Blank(between)
    ensures var head, core := key + between, key + between + ("=" + value);
            Find(core, '=') == |head| < |core| && core[..|head|] == head && core[|head| + 1..] == value
  {
    var head := key + between;
    NoEquals(between);
    hide Blank;
    assert Find("=" + value, '=') == 0;
    FindAppend(head, "=" + value, '=');
  }

  lemma EntryFrom(line: string, core: string, key: string, i: nat, value: string)
    requires Trim(line) == core && core != "" && core[0] != '#' && Find(core, '=') == i < |core|
    requires Trim(core[..i]) == key && key != "" && core[i + 1..] == value
    ensures Entry(line) == Some((key, value))
  {
    hide Trim, Find;
  }

  lemma EntrySets(line: string, key: string, value: string)
    requires Entry(line) == Some((key, value))
    ensures Sets(line, key, value)
  {
    hide Trim, Find, Blank;
    var trimmed := Trim(line);
    var i := Find(trimmed, '=');
    var head := trimmed[..i];
    var a, b := TrimParts(line);
    var c, d := TrimParts(head);
    TrimHead(head);
    NoBlankHead(head, c, key + d);
    assert "" + key + d == head;
    assert trimmed == key + d + ("=" + value);
    assert '=' !in head;
    assert key[0] == head[0] == trimmed[0] && forall x :: x in key ==> x in head;
    assert SetsAs(line, key, value, a, d, b);
  }

  lemma NoBlankHead(head: string, c: string, rest: string)
    requires head == c + rest && Blank(c) && head != "" && !IsWhitespace(head[0])
    ensures c == ""
  {
    BlankAt(c);
    hide Blank, IsWhitespace;
    assert forall i :: 0 <= i < |c| ==> head[i] == c[i];
  }

  // A `#` with nothing but white space before it.
  predicate Comment(line: string) { exists i :: 0 <= i < |line| && line[i] == '#' && Blank(line[..i]) }

  // The lines that set nothing: comments, and those with nothing but white space before the first `=`, or
  // without one.
  lemma SetsNothingIff(line: string)
    ensures Entry(line).None? <==>
              Comment(line) || forall i :: 0 <= i < |line| && line[i] == '=' && '=' !in line[..i] ==> Blank(line[..i])
  {
    hide Trim, Find, Blank, Comment;
    var trimmed := Trim(line);
    var a, b := TrimParts(line);
    CommentIs(a, trimmed, b);
    if trimmed == "" || trimmed[0] == '#' {
      if trimmed == "" { BlankAt(a); BlankAt(b); assert line == a + b; }
    } else {
      var i := Find(trimmed, '=');
      NoEquals(a);
      NoEquals(b);
      if i == |trimmed| {
        assert '=' !in line;
      } else {
        assert line == a + (trimmed[..i] + ("=" + trimmed[i + 1..])) + b;
        FirstEquals(line, a + trimmed[..i]);
        BlankHead(a, trimmed[..i]);
        assert line[..|a| + i] == a + trimmed[..i];
      }
    }
  }

  lemma NoEquals(s: string)
    requires Blank(s)
    ensures '=' !in s
  {
  }

  lemma CommentIs(a: string, trimmed: string, b: string)
    requires Blank(a) && Blank(b) && Trimmed(trimmed)
    ensures Comment(a + trimmed + b) <==> trimmed != "" && trimmed[0] == '#'
  {
    var line := a + trimmed + b;
    BlankAt(a);
    BlankAt(b);
    if trimmed != "" && trimmed[0] == '#' {
      assert line[|a|] == '#' && line[..|a|] == a;
    }
    if i :| 0 <= i < |line| && line[i] == '#' && Blank(line[..i]) {
      BlankAt(line[..i]);
      hide Blank;
      HashAt(a, trimmed, b, i);
    }
  }

  lemma HashAt(a: string, trimmed: string, b: string, i: nat)
    requires Trimmed(trimmed) && i < |a + trimmed + b| && (a + trimmed + b)[i] == '#'
    requires forall j :: 0 <= j < |a| ==> IsWhitespace(a[j])
    requires forall j :: 0 <= j < |b| ==> IsWhitespace(b[j])
    requires forall j :: 0 <= j < i ==> IsWhitespace((a + trimmed + b)[..i][j])
    ensures trimmed != "" && trimmed[0] == '#'
  {
    var line := a + trimmed + b;
    assert !IsWhitespace('#');
    hide IsWhitespace;
    assert forall j :: 0 <= j < |a| ==> line[j] == a[j];
    assert forall j :: |a| + |trimmed| <= j < |line| ==> line[j] == b[j - |a| - |trimmed|];
    assert forall j :: 0 <= j < i ==> line[..i][j] == line[j];
    assert trimmed != "" ==> line[|a|] == trimmed[0];
  }

  lemma FirstEquals(line: string, head: string)
    requires head <= line && |head| < |line| && line[|head|] == '=' && '=' !in head
    ensures forall i :: 0 <= i < |line| && line[i] == '=' && '=' !in line[..i] <==> i == |head|
  {
    assert line[..|head|] == head;
    assert forall i :: 0 <= i < |head| ==> line[i] == head[i] && head[i] in head;
    assert forall i :: |head| < i < |line| ==> line[..i][|head|] == '=' && line[..i][|head|] in line[..i];
  }

  lemma BlankHead(a: string, head: string)
    requires Blank(a)
    ensures Blank(a + head) <==> Trim(head) == ""
  {
    var c, d := TrimParts(head);
    hide Trim;
    if Trim(head) == "" {
      assert head == c + d;
    } else {
      assert Trim(head)[0] in a + head;
      assert (a + head)[|a| + |c|] == Trim(head)[0];
    }
  }

  ghost predicate LeavesOut(line: string, key: string) { forall value :: !Sets(line, key, value) }

  // Line `i` sets it, and no later one sets the key.
  ghost predicate SetBy(lines: seq<string>, i: nat, key: string, value: string)
    requires i < |lines|
  {
    Sets(lines[i], key, value) && forall j :: i < j < |lines| ==> LeavesOut(lines[j], key)
  }

  lemma EntryOut(line: string, key: string)
    ensures LeavesOut(line, key) <==> Entry(line).None? || Entry(line).value.0 != key
    ensures !LeavesOut(line, key) ==> Sets(line, key, Entry(line).value.1)
  {
    forall value ensures Entry(line) == Some((key, value)) <==> Sets(line, key, value) { EntryIff(line, key, value); }
    hide Entry, Sets;
    if Entry(line).Some? && Entry(line).value.0 == key { assert Sets(line, key, Entry(line).value.1); }
  }

  lemma SetBefore(init: seq<string>, last: string, i: nat, key: string, value: string)
    requires i < |init| && SetBy(init, i, key, value) && LeavesOut(last, key)
    ensures SetBy(init + [last], i, key, value)
  {
    hide LeavesOut, Sets;
  }

  lemma SetLast(init: seq<string>, last: string, key: string, value: string)
    requires Sets(last, key, value)
    ensures SetBy(init + [last], |init|, key, value)
  {
    hide LeavesOut, Sets;
  }

  // A key has the value that the last line to set it sets, and no other key has one.
  lemma {:induction false} LastLineWins(lines: seq<string>, key: string)
    ensures var vars := ParseLines(lines);
            && (key in vars ==> exists i :: 0 <= i < |lines| && SetBy(lines, i, key, vars[key]))
            && (key !in vars ==> forall i :: 0 <= i < |lines| ==> LeavesOut(lines[i], key))
  {
    if lines != [] {
      var init, last := lines[..|lines| - 1], lines[|lines| - 1];
      assert lines == init + [last];
      LastLineWins(init, key);
      EntryOut(last, key);
      hide Entry, LeavesOut, Sets, SetBy;
      if !LeavesOut(last, key) {
        SetLast(init, last, key, Entry(last).value.1);
      } else if key in ParseLines(init) {
        var i :| 0 <= i < |init| && SetBy(init, i, key, ParseLines(init)[key]);
        SetBefore(init, last, i, key, ParseLines(init)[key]);
      }
    }
  }

  // ------------------------------------------------------------- layering

  function Layer(file: Option<string>): Vars {
    if file.Some? then Parse(file.value) else map[]
  }

  // The project's file overrides the global one; an unreadable file counts for nothing, and
  // without a namespace the project's is not looked at.
  method LoadMergedEnv(global: Option<string>, project: Option<string>, namespace: string) returns (merged: Vars)
    ensures merged == Layer(global) + if namespace == "" then map[] else Layer(project)
  {
    merged := map[];
    if global.Some? {
      var vars := ParseEnv(global.value);
      merged := merged + vars;
    }
    if namespace != "" {
      if project.Some? {
        var vars := ParseEnv(project.value);
        merged := merged + vars;
      }
    }
  }
}
