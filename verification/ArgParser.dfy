/** The parser of argument specifications as the scanning loops of crates/runbook/src/command.rs. */
module ArgParser {
  import opened Wrappers
  import opened Text
  import opened ArgSpec

  // Reads up to and past the next `close`; an unclosed token runs to the end.
  method TakeUntil(s: string, from: nat, close: char) returns (token: string, pos: nat)
    requires from <= |s|
    ensures from <= pos <= |s|
    ensures token == UpTo(s[from..], close) && s[pos..] == ArgSpec.After(s[from..], close)
  {
    token, pos := "", from;
    while pos < |s| && s[pos] != close
      invariant from <= pos <= |s|
      invariant token == s[from..pos] && close !in token
    {
      token := token + [s[pos]];
      pos := pos + 1;
    }
    FindIs(s[from..], close, pos - from);
    if pos < |s| { pos := pos + 1; }
  }

  lemma {:induction false} FindIs(s: string, c: char, i: nat)
    requires i <= |s| && c !in s[..i] && (i < |s| ==> s[i] == c)
    ensures Find(s, c) == i
  {
    if i > 0 {
      assert s[0] == s[..i][0];
      assert s[1..][..i - 1] == s[..i][1..];
      FindIs(s[1..], c, i - 1);
    }
  }

  method TakeBracketed(s: string, from: nat) returns (token: string, pos: nat)
    requires from <= |s|
    ensures from <= pos <= |s|
    ensures token == Bracketed(s[from..]) && s[pos..] == AfterClosing(s[from..])
  {
    var depth := 1;
    token, pos := "", from;
    while pos < |s|
      invariant from <= pos <= |s| && depth > 0
      invariant token == s[from..pos]
      invariant Closing(s[from..], 1) == pos - from + Closing(s[pos..], depth)
    {
      assert s[pos..][0] == s[pos] && s[pos..][1..] == s[pos + 1..];
      if s[pos] == '[' {
        depth := depth + 1;
      } else if s[pos] == ']' {
        depth := depth - 1;
        if depth == 0 {
          pos := pos + 1;
          assert s[from..][pos - from..] == s[pos..];
          return;
        }
      }
      token := token + [s[pos]];
      pos := pos + 1;
    }
  }

  method TakeWord(s: string, from: nat) returns (word: string, pos: nat)
    requires from <= |s|
    ensures from <= pos <= |s|
    ensures word == Word(s[from..]) && s[pos..] == s[from..][WordEnd(s[from..])..]
  {
    word, pos := "", from;
    while pos < |s| && !IsWhitespace(s[pos])
      invariant from <= pos <= |s|
      invariant word == s[from..pos]
      invariant WordEnd(s[from..]) == pos - from + WordEnd(s[pos..])
    {
      assert s[pos..][0] == s[pos] && s[pos..][1..] == s[pos + 1..];
      word := word + [s[pos]];
      pos := pos + 1;
    }
  }

  method SkipWhitespace(s: string, from: nat) returns (pos: nat)
    requires from <= |s|
    ensures from <= pos <= |s| && s[pos..] == TrimStart(s[from..])
  {
    pos := from;
    while pos < |s| && IsWhitespace(s[pos])
      invariant from <= pos <= |s|
      invariant TrimStart(s[from..]) == TrimStart(s[pos..])
    {
      assert s[pos..][0] == s[pos] && s[pos..][1..] == s[pos + 1..];
      pos := pos + 1;
    }
  }

  // Consumes three dots, if they are next.
  method PeekEllipsis(s: string, from: nat) returns (found: bool, pos: nat)
    requires from <= |s|
    ensures from <= pos <= |s|
    ensures found == Ellipsis(s[from..]) && s[pos..] == SkipDots(s[from..])
  {
    var ahead := from;
    while ahead < |s| && ahead < from + 3 && s[ahead] == '.'
      invariant from <= ahead <= |s| && ahead <= from + 3
      invariant forall i :: from <= i < ahead ==> s[i] == '.'
    {
      ahead := ahead + 1;
    }
    found := ahead == from + 3;
    pos := if found then ahead else from;
    assert found ==> s[from..][..3] == "...";
    assert !found && ahead < |s| ==> s[from..][ahead - from] != '.';
  }

  // The item after `<`.
  method TakeAngled(p: Parser, s: string, from: nat) returns (r: Result<Parser, Error>, pos: nat)
    requires from <= |s|
    ensures from <= pos <= |s| && AngledItem(p, s[from..]) == With(r, s[pos..])
  {
    var token, afterToken := TakeUntil(s, from, '>');
    var name := Trim(token);
    var dots, next := PeekEllipsis(s, afterToken);
    pos := next;
    hide UpTo, ArgSpec.After, SkipDots, Ellipsis, Trim, TrimDots, EndsWithDots;
    if EndsWithDots(name) || dots {
      var rest := TrimDots(name);
      if rest in p.names {
        r := Err(DuplicateName(rest));
      } else if p.spec.variadic.Some? {
        r := Err(VariadicNotLast(rest));
      } else {
        r := Ok(p.(names := p.names + {rest}, spec := p.spec.(variadic := Some(VariadicDef(rest, true)))));
      }
    } else if p.spec.variadic.Some? {
      r := Err(VariadicNotLast(name));
    } else if p.seenOptional {
      r := Err(OptionalBeforeRequired(name));
    } else if name in p.names {
      r := Err(DuplicateName(name));
    } else {
      r := Ok(p.(names := p.names + {name}, spec := p.spec.(positional := p.spec.positional + [ArgDef(name, true)])));
    }
  }

  // The item after `[`.
  method TakeOptional(p: Parser, s: string, from: nat) returns (r: Result<Parser, Error>, pos: nat)
    requires from <= |s|
    ensures from <= pos <= |s| && BracketedItem(p, s[from..]) == With(r, s[pos..])
  {
    var token, afterToken := TakeBracketed(s, from);
    var content := Trim(token);
    var dots, next := PeekEllipsis(s, afterToken);
    pos := next;
    hide Bracketed, AfterClosing, SkipDots, Ellipsis, Trim, TrimDots, EndsWithDots, AddFlagOrOption;
    if StartsWith(content, "-") {
      if dots {
        r := Err(InvalidSyntax("ellipsis not valid after flag/option: [" + content + "]..."));
      } else {
        r := AddFlagOrOption(p, content, false);
      }
    } else if EndsWithDots(content) || dots {
      var rest := TrimDots(content);
      if rest in p.names {
        r := Err(DuplicateName(rest));
      } else if p.spec.variadic.Some? {
        r := Err(VariadicNotLast(rest));
      } else {
        r := Ok(p.(names := p.names + {rest}, spec := p.spec.(variadic := Some(VariadicDef(rest, false)))));
      }
    } else if p.spec.variadic.Some? {
      r := Err(VariadicNotLast(content));
    } else if content in p.names {
      r := Err(DuplicateName(content));
    } else {
      r := Ok(p.(names := p.names + {content}, seenOptional := true,
                 spec := p.spec.(positional := p.spec.positional + [ArgDef(content, false)])));
    }
  }

  // The item after a `-` outside brackets.
  method TakeDashed(p: Parser, s: string, from: nat) returns (r: Result<Parser, Error>, pos: nat)
    requires from <= |s|
    ensures from <= pos <= |s| && DashedItem(p, s[from..]) == With(r, s[pos..])
  {
    var word, afterWord := TakeWord(s, from);
    var token := "-" + word;
    pos := SkipWhitespace(s, afterWord);
    ghost var text, rest := s[from..], s[pos..];
    assert rest == ArgSpec.AfterWord(text);
    hide Word, ArgSpec.AfterWord, UpTo, ArgSpec.After, AddFlagOrOption, DashedItem;
    if pos < |s| && s[pos] == '<' {
      assert rest[0] == '<' && rest[1..] == s[pos + 1..];
      var value, next := TakeUntil(s, pos + 1, '>');
      DashedOption(p, text);
      r, pos := AddFlagOrOption(p, token + " <" + value + ">", true), next;
    } else {
      assert rest != "" ==> rest[0] == s[pos];
      DashedFlag(p, text);
      r := AddFlagOrOption(p, token, true);
    }
  }

  method ParseArgSpec(text: string) returns (r: Result<Spec, Error>)
    ensures r == Parse(text)
  {
    hide AngledItem, BracketedItem, DashedItem, Trim;
    var s := Trim(text);
    if s == "" {
      return Ok(EMPTY);
    }
    var p := START;
    var pos := 0;
    assert s[0..] == s;
    while pos < |s|
      invariant pos <= |s|
      invariant ParseFrom(START, s) == ParseFrom(p, s[pos..])
      decreases |s| - pos
    {
      var c := s[pos];
      assert s[pos..][0] == c && s[pos..][1..] == s[pos + 1..];
      pos := pos + 1;
      if c == '<' || c == '[' || c == '-' {
        var q, next;
        if c == '<' { q, next := TakeAngled(p, s, pos); }
        else if c == '[' { q, next := TakeOptional(p, s, pos); }
        else { q, next := TakeDashed(p, s, pos); }
        if q.Err? {
          return Err(q.error);
        }
        p, pos := q.value, next;
      } else {
        OtherItem(p, c, s[pos..]);
        if !IsWhitespace(c) {
          return Err(InvalidSyntax("unexpected character: " + [c]));
        }
      }
    }
    r := Ok(p.spec);
  }

  lemma OtherItem(p: Parser, c: char, s: string)
    requires c != '<' && c != '[' && c != '-'
    ensures Item(p, c, s) == if IsWhitespace(c) then Ok((p, s)) else Err(InvalidSyntax("unexpected character: " + [c]))
  {
  }
}
