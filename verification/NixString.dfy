/** Printing text as a double-quoted Nix string, and what the Nix lexer reads back. */
module NixString {
  import opened Wrappers

  /** What one character becomes, given what follows it. */
  function EscapeChar(c: char, rest: string): string {
    if c == '\\' then "\\\\"
    else if c == '"' then "\\\""
    else if c == '$' && rest != "" && rest[0] == '{' then "\\$"
    else [c]
  }

  function Escaped(value: string): string {
    if value == "" then "" else EscapeChar(value[0], value[1..]) + Escaped(value[1..])
  }

  lemma EscapedNext(escaped: string, value: string, i: nat)
    requires i < |value|
    ensures escaped + Escaped(value[i..]) == (escaped + EscapeChar(value[i], value[i + 1..])) + Escaped(value[i + 1..])
  {
    assert value[i..][1..] == value[i + 1..];
  }

  /** The peeking loop. */
  method NixDoubleString(value: string) returns (escaped: string)
    ensures escaped == Escaped(value)
  {
    escaped := "";
    var i := 0;
    while i < |value|
      invariant 0 <= i <= |value|
      invariant Escaped(value) == escaped + Escaped(value[i..])
    {
      var next := value[i];
      EscapedNext(escaped, value, i);
      i := i + 1;
      if next == '\\' {
        escaped := escaped + "\\\\";
      } else if next == '"' {
        escaped := escaped + "\\\"";
      } else if next == '$' && i < |value| && value[i] == '{' {
        escaped := escaped + "\\$";
      } else {
        escaped := escaped + [next];
      }
    }
    assert value[i..] == "";
  }

  function JsonNix(json: string): string {
    "\"" + Escaped(json) + "\""
  }

  function Unescape(c: char): char {
    match c
    case 'n' => '\n'
    case 'r' => '\r'
    case 't' => '\t'
    case _ => c
  }

  function Prepend(s: string, r: Option<(string, string)>): Option<(string, string)> {
    match r
    case None => None
    case Some((value, rest)) => Some((s + value, rest))
  }

  /**
   * A string literal after its opening quote: its value and what follows the closing quote. A dollar pair is literal,
   * an interpolation is no plain string, and a raw carriage return, alone or before a line feed, reads as a line feed.
   */
  function ReadBody(text: string): Option<(string, string)>
    decreases |text|
  {
    if text == "" then None
    else
      var c, rest := text[0], text[1..];
      if c == '"' then Some(("", rest))
      else if c == '\\' then
        if rest == "" then None else Prepend([Unescape(rest[0])], ReadBody(rest[1..]))
      else if c == '$' && rest != "" && rest[0] == '{' then None
      else if c == '$' && rest != "" && rest[0] == '$' then Prepend(['$', '$'], ReadBody(rest[1..]))
      else if c == '\r' then Prepend("\n", ReadBody(if rest != "" && rest[0] == '\n' then rest[1..] else rest))
      else Prepend([c], ReadBody(rest))
  }

  function ReadLiteral(text: string): Option<(string, string)> {
    if text == "" || text[0] != '"' then None else ReadBody(text[1..])
  }

  /** Every carriage return, alone or before a line feed, turned into one line feed. */
  function Normalised(value: string): string
    decreases |value|
  {
    if value == "" then ""
    else if value[0] == '\r' then
      "\n" + Normalised(if |value| > 1 && value[1] == '\n' then value[2..] else value[1..])
    else [value[0]] + Normalised(value[1..])
  }

  lemma ReadEscape(c: char, rest: string)
    requires Unescape(c) == c
    ensures ReadBody(['\\', c] + rest) == Prepend([c], ReadBody(rest))
  {
    var text := ['\\', c] + rest;
    assert text[1..] == [c] + rest;
    assert ([c] + rest)[1..] == rest;
  }

  /** Reading the printed text up to its closing quote gives the value, carriage returns normalised. */
  lemma {:induction false} ReadsNormalised(value: string, rest: string)
    ensures ReadBody(Escaped(value) + "\"" + rest) == Some((Normalised(value), rest))
    decreases |value|
  {
    var tail := "\"" + rest;
    var text := Escaped(value) + "\"" + rest;
    if value == "" {
      assert text == tail && tail[1..] == rest;
    } else {
      var c, more := value[0], value[1..];
      var following := Escaped(more) + "\"" + rest;
      assert text == EscapeChar(c, more) + following;
      if c == '\r' && more != "" && more[0] == '\n' {
        ReadsLineBreak(value, rest);
      } else if c == '$' && more != "" && more[0] == '$' && EscapeChar('$', more[1..]) == "$" {
        ReadsDollarPair(value, rest);
      } else {
        ReadsNormalised(more, rest);
        if EscapeChar(c, more) == [c] {
          assert text[1..] == following;
          FollowingStart(more, rest);
        } else {
          assert EscapeChar(c, more) == ['\\', c];
          ReadEscape(c, following);
        }
      }
    }
  }

  /** The first character the reader meets after a character of the value. */
  lemma FollowingStart(more: string, rest: string)
    ensures (Escaped(more) + "\"" + rest)[0]
         == if more == "" then '"' else EscapeChar(more[0], more[1..])[0]
  {
  }

  lemma ReadsLineBreak(value: string, rest: string)
    requires |value| > 1 && value[0] == '\r' && value[1] == '\n'
    ensures ReadBody(Escaped(value) + "\"" + rest) == Some((Normalised(value), rest))
    decreases |value|, 0
  {
    var following := Escaped(value[2..]) + "\"" + rest;
    var text := Escaped(value) + "\"" + rest;
    assert value[1..][1..] == value[2..];
    assert Escaped(value[1..]) == "\n" + Escaped(value[2..]);
    assert text == "\r" + ("\n" + following);
    assert text[1..] == "\n" + following;
    assert text[1..][1..] == following;
    ReadsNormalised(value[2..], rest);
  }

  lemma ReadPair(following: string)
    ensures ReadBody(['$', '$'] + following) == Prepend(['$', '$'], ReadBody(following))
  {
    var text := ['$', '$'] + following;
    assert text[1..] == ['$'] + following;
    assert text[1..][1..] == following;
  }

  lemma TwoInFront(c: char, d: char, s: string)
    ensures [c] + ([d] + s) == [c, d] + s
  {
  }

  lemma EscapedPair(value: string)
    requires |value| > 1
    requires EscapeChar(value[0], value[1..]) == [value[0]] && EscapeChar(value[1], value[2..]) == [value[1]]
    ensures Escaped(value) == [value[0], value[1]] + Escaped(value[2..])
  {
    assert value[1..][1..] == value[2..];
    TwoInFront(value[0], value[1], Escaped(value[2..]));
  }

  lemma NormalisedPair(value: string)
    requires |value| > 1 && value[0] != '\r' && value[1] != '\r'
    ensures Normalised(value) == [value[0], value[1]] + Normalised(value[2..])
  {
    assert value[1..][1..] == value[2..];
    TwoInFront(value[0], value[1], Normalised(value[2..]));
  }

  lemma ReadsDollarPair(value: string, rest: string)
    requires |value| > 1 && value[0] == '$' && value[1] == '$' && EscapeChar('$', value[2..]) == "$"
    ensures ReadBody(Escaped(value) + "\"" + rest) == Some((Normalised(value), rest))
    decreases |value|, 0
  {
    var following := Escaped(value[2..]) + "\"" + rest;
    EscapedPair(value);
    NormalisedPair(value);
    assert Escaped(value) + "\"" + rest == ['$', '$'] + following;
    ReadPair(following);
    ReadsNormalised(value[2..], rest);
  }

  lemma {:induction false} NormalisedIff(value: string)
    ensures Normalised(value) == value <==> '\r' !in value
    ensures '\r' !in Normalised(value)
    decreases |value|
  {
    if value != "" {
      if value[0] == '\r' {
        NormalisedIff(if |value| > 1 && value[1] == '\n' then value[2..] else value[1..]);
      } else {
        NormalisedIff(value[1..]);
        assert value == [value[0]] + value[1..];
      }
    }
  }

  /**
   * The literal is one plain string, closed by its own last quote, and it is the text itself unless it holds a raw
   * carriage return.
   */
  lemma JsonNixRoundTrip(json: string)
    ensures ReadLiteral(JsonNix(json)) == Some((Normalised(json), ""))
    ensures ReadLiteral(JsonNix(json)) == Some((json, "")) <==> '\r' !in json
  {
    assert JsonNix(json)[1..] == Escaped(json) + "\"" + "";
    ReadsNormalised(json, "");
    NormalisedIff(json);
  }
}
