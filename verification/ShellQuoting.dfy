/** Quoting an argv for a POSIX shell, and what the shell reads back (sections 2.2 and 2.3 of POSIX.1-2017). */
module ShellQuoting {
  import opened Wrappers

  function Escape(value: string): string {
    if value == "" then ""
    else (if value[0] == '\'' then "'\\''" else [value[0]]) + Escape(value[1..])
  }

  function ShellQuote(value: string): string {
    "'" + Escape(value) + "'"
  }

  function ShellJoin(argv: seq<string>): string {
    if argv == [] then ""
    else if |argv| == 1 then ShellQuote(argv[0])
    else ShellQuote(argv[0]) + " " + ShellJoin(argv[1..])
  }

  predicate IsBlank(c: char) {
    c == ' ' || c == '\t'
  }

  /** Characters that end a word when unquoted. */
  predicate EndsWord(c: char) {
    IsBlank(c) || c == '\n' || c in "|&;<>()"
  }

  /** Characters that mean more than themselves when unquoted; such a text is no plain list of words. */
  predicate IsActive(c: char) {
    c in "$`\"*?[#~=%{}!]"
  }

  datatype Mode = Plain | Quoted | Escaped

  /** One word after quote removal, and the text that follows it. */
  function ReadWord(text: string, mode: Mode, word: string): (r: Option<(string, string)>)
    ensures r.Some? ==> |r.value.1| <= |text|
    ensures r.Some? && text != "" && (mode != Plain || !EndsWord(text[0])) ==> |r.value.1| < |text|
  {
    if text == "" then if mode == Plain then Some((word, "")) else None
    else
      var c, rest := text[0], text[1..];
      match mode
      case Quoted => if c == '\'' then ReadWord(rest, Plain, word) else ReadWord(rest, Quoted, word + [c])
      case Escaped => ReadWord(rest, Plain, if c == '\n' then word else word + [c])
      case Plain =>
        if EndsWord(c) then Some((word, text))
        else if c == '\'' then ReadWord(rest, Quoted, word)
        else if c == '\\' then ReadWord(rest, Escaped, word)
        else if IsActive(c) then None
        else ReadWord(rest, Plain, word + [c])
  }

  /** The words of a simple command, or nothing when the text is more than a list of words. */
  function Split(text: string): Option<seq<string>>
    decreases |text|
  {
    if text == "" then Some([])
    else if IsBlank(text[0]) then Split(text[1..])
    else if EndsWord(text[0]) then None
    else
      var first := ReadWord(text, Plain, "");
      if first.None? then None
      else
        var rest := Split(first.value.1);
        if rest.None? then None else Some([first.value.0] + rest.value)
  }

  predicate StartsAfterWord(rest: string) {
    rest == "" || EndsWord(rest[0])
  }

  lemma QuoteStep(c: char, rest: string, word: string)
    requires c == '\''
    ensures ReadWord("'\\''" + rest, Quoted, word) == ReadWord(rest, Quoted, word + [c])
  {
    var a := "'\\''" + rest;
    assert a[1..] == "\\''" + rest;
    assert ("\\''" + rest)[1..] == "''" + rest;
    assert ("''" + rest)[1..] == "'" + rest;
    assert ("'" + rest)[1..] == rest;
    assert ReadWord(a, Quoted, word) == ReadWord("\\''" + rest, Plain, word);
    assert ReadWord("\\''" + rest, Plain, word) == ReadWord("''" + rest, Escaped, word);
    assert ReadWord("''" + rest, Escaped, word) == ReadWord("'" + rest, Plain, word + [c]);
  }

  lemma {:induction false} ReadsEscaped(value: string, rest: string, word: string)
    ensures ReadWord(Escape(value) + "'" + rest, Quoted, word) == ReadWord(rest, Plain, word + value)
    decreases |value|
  {
    if value == "" {
      assert Escape(value) + "'" + rest == "'" + rest;
      assert ("'" + rest)[1..] == rest;
      assert word + value == word;
    } else {
      var tail := Escape(value[1..]) + "'" + rest;
      assert word + [value[0]] + value[1..] == word + value;
      if value[0] == '\'' {
        assert Escape(value) + "'" + rest == "'\\''" + tail;
        QuoteStep(value[0], tail, word);
      } else {
        assert Escape(value) + "'" + rest == [value[0]] + tail;
        assert ([value[0]] + tail)[1..] == tail;
      }
      ReadsEscaped(value[1..], rest, word + [value[0]]);
    }
  }

  /** At any point where the shell starts a word, a quoted value reads as exactly that value. */
  lemma QuotedReadsBack(value: string, rest: string)
    requires StartsAfterWord(rest)
    ensures ReadWord(ShellQuote(value) + rest, Plain, "") == Some((value, rest))
  {
    var text := ShellQuote(value) + rest;
    assert text[0] == '\'';
    assert text[1..] == Escape(value) + "'" + rest;
    ReadsEscaped(value, rest, "");
    assert "" + value == value;
  }

  /** Splitting a joined argv gives back exactly the argv: empty words, quotes, newlines and all. */
  lemma {:induction false} JoinSplits(argv: seq<string>)
    ensures Split(ShellJoin(argv)) == Some(argv)
    decreases |argv|
  {
    if argv != [] {
      var rest := if |argv| == 1 then "" else " " + ShellJoin(argv[1..]);
      assert ShellJoin(argv) == ShellQuote(argv[0]) + rest;
      QuotedReadsBack(argv[0], rest);
      JoinSplits(argv[1..]);
      if |argv| > 1 {
        assert rest[1..] == ShellJoin(argv[1..]);
      }
      assert [argv[0]] + argv[1..] == argv;
    }
  }

  lemma JoinIsInjective(a: seq<string>, b: seq<string>)
    requires ShellJoin(a) == ShellJoin(b)
    ensures a == b
  {
    JoinSplits(a);
    JoinSplits(b);
  }
}
