/** Scripts with quoted values set into them, and where a shell stands when it comes to each value. */
module ShellScript {
  import opened Wrappers
  import opened ShellQuoting

  datatype Quoting = Outside | InSingle | InDouble | AfterBackslash(double: bool)

  function Step(q: Quoting, c: char): Quoting {
    match q
    case Outside =>
      if c == '\'' then InSingle else if c == '"' then InDouble
      else if c == '\\' then AfterBackslash(false) else Outside
    case InSingle => if c == '\'' then Outside else InSingle
    case InDouble => if c == '"' then Outside else if c == '\\' then AfterBackslash(true) else InDouble
    case AfterBackslash(double) => if double then InDouble else Outside
  }

  /** Where a shell stands, as far as sections 2.2.1 to 2.2.3 go, after reading a text. */
  function QuotingAfter(text: string, q: Quoting): Quoting {
    if text == "" then q else QuotingAfter(text[1..], Step(q, text[0]))
  }

  lemma {:induction false} QuotingJoins(a: string, b: string, q: Quoting)
    ensures QuotingAfter(a + b, q) == QuotingAfter(b, QuotingAfter(a, q))
    decreases |a|
  {
    if a == "" {
      assert a + b == b;
    } else {
      assert (a + b)[1..] == a[1..] + b;
      QuotingJoins(a[1..], b, Step(q, a[0]));
    }
  }

  lemma QuotingOne(c: char, rest: string, q: Quoting)
    ensures QuotingAfter([c] + rest, q) == QuotingAfter(rest, Step(q, c))
  {
    assert ([c] + rest)[1..] == rest;
  }

  /** No character of the text changes where the shell stands. */
  predicate Inert(text: string, q: Quoting) {
    forall i :: 0 <= i < |text| ==> Step(q, text[i]) == q
  }

  lemma InertJoins(a: string, b: string, q: Quoting)
    requires Inert(a, q) && Inert(b, q)
    ensures Inert(a + b, q)
  {
  }

  lemma {:induction false} Undisturbed(text: string, q: Quoting)
    requires Inert(text, q)
    ensures QuotingAfter(text, q) == q
    decreases |text|
  {
    if text != "" {
      Undisturbed(text[1..], q);
    }
  }

  lemma {:induction false} EscapeStaysQuoted(value: string)
    ensures QuotingAfter(Escape(value), InSingle) == InSingle
    decreases |value|
  {
    if value != "" {
      var rest := Escape(value[1..]);
      EscapeStaysQuoted(value[1..]);
      if value[0] == '\'' {
        QuotingOne('\'', rest, Outside);
        QuotingOne('\'', ['\''] + rest, AfterBackslash(false));
        QuotingOne('\\', ['\''] + (['\''] + rest), Outside);
        QuotingOne('\'', ['\\'] + (['\''] + (['\''] + rest)), InSingle);
        assert Escape(value) == ['\''] + (['\\'] + (['\''] + (['\''] + rest)));
      } else {
        QuotingOne(value[0], rest, InSingle);
      }
    }
  }

  lemma QuoteClosesItself(value: string)
    ensures QuotingAfter(ShellQuote(value), Outside) == Outside
  {
    assert ShellQuote(value) == ['\''] + (Escape(value) + "'");
    QuotingOne('\'', Escape(value) + "'", Outside);
    QuotingJoins(Escape(value), "'", InSingle);
    EscapeStaysQuoted(value);
    assert "'"[1..] == "";
  }

  /** A quoted passage between two texts without quotes. */
  lemma Passage(before: string, quote: char, inside: string, after: string)
    requires quote == '\'' || quote == '"'
    requires Inert(before, Outside)
    requires Inert(inside, Step(Outside, quote))
    requires Inert(after, Outside)
    ensures QuotingAfter(before + [quote] + inside + [quote] + after, Outside) == Outside
  {
    var tail := inside + ([quote] + after);
    PassageCloses(quote, inside, after);
    PassageRegroups(before, [quote], inside, after);
    QuotingJoins(before, [quote] + tail, Outside);
    Undisturbed(before, Outside);
    QuotingOne(quote, tail, Outside);
  }

  lemma PassageRegroups(a: string, q: string, b: string, c: string)
    ensures a + q + b + q + c == a + (q + (b + (q + c)))
  {
  }

  lemma PassageCloses(quote: char, inside: string, after: string)
    requires quote == '\'' || quote == '"'
    requires Inert(inside, Step(Outside, quote))
    requires Inert(after, Outside)
    ensures QuotingAfter(inside + ([quote] + after), Step(Outside, quote)) == Outside
  {
    QuotingJoins(inside, [quote] + after, Step(Outside, quote));
    Undisturbed(inside, Step(Outside, quote));
    QuotingOne(quote, after, Step(Outside, quote));
    Undisturbed(after, Outside);
  }

  /** A fixed text and the value quoted after it. */
  datatype Piece = Piece(text: string, value: string)

  function Script(pieces: seq<Piece>, tail: string): string {
    if pieces == [] then tail
    else pieces[0].text + (ShellQuote(pieces[0].value) + Script(pieces[1..], tail))
  }

  /** A value quoted into the script: the shell reaches it outside quotes and reads exactly that value as a word. */
  ghost predicate SlotReads(before: string, value: string, after: string) {
    && QuotingAfter(before, Outside) == Outside
    && before != "" && StartsWord(before[|before| - 1])
    && ReadWord(ShellQuote(value) + after, Plain, "") == Some((value, after))
  }

  predicate StartsWord(c: char) {
    IsBlank(c) || c == '\n'
  }

  /** The text leaves no quote open and a word starts behind it. */
  predicate Opens(text: string) {
    QuotingAfter(text, Outside) == Outside && text != "" && StartsWord(text[|text| - 1])
  }

  /** A word ends where the text begins. */
  predicate Closes(text: string) {
    text != "" && EndsWord(text[0])
  }

  /** Every value stands between texts that set it apart. */
  predicate SetApart(pieces: seq<Piece>, tail: string) {
    && (forall i :: 0 <= i < |pieces| ==> Opens(pieces[i].text))
    && (forall i :: 0 < i < |pieces| ==> Closes(pieces[i].text))
    && (pieces != [] ==> Closes(tail))
  }

  function BeforeSlot(pieces: seq<Piece>, i: nat): string
    requires i < |pieces|
  {
    if i == 0 then pieces[0].text
    else pieces[0].text + (ShellQuote(pieces[0].value) + BeforeSlot(pieces[1..], i - 1))
  }

  lemma Regroup(a: string, b: string, c: string, d: string)
    ensures a + (b + (c + d)) == (a + (b + c)) + d
  {
  }

  lemma TailCloses(pieces: seq<Piece>, tail: string)
    requires SetApart(pieces, tail) && pieces != []
    ensures Closes(Script(pieces[1..], tail))
  {
    if |pieces| > 1 {
      assert pieces[1..][0] == pieces[1];
    }
  }

  lemma SetApartShifts(pieces: seq<Piece>, tail: string)
    requires SetApart(pieces, tail) && pieces != []
    ensures SetApart(pieces[1..], tail)
  {
    assert forall i :: 0 <= i < |pieces[1..]| ==> pieces[1..][i] == pieces[i + 1];
  }

  lemma FirstSlotReads(pieces: seq<Piece>, tail: string)
    requires SetApart(pieces, tail) && pieces != []
    ensures SlotReads(pieces[0].text, pieces[0].value, Script(pieces[1..], tail))
  {
    TailCloses(pieces, tail);
    QuotedReadsBack(pieces[0].value, Script(pieces[1..], tail));
  }

  /** A slot further on is reached outside quotes too. */
  lemma SlotMovesOn(text: string, quoted: string, before: string, value: string, after: string)
    requires Opens(text) && QuotingAfter(quoted, Outside) == Outside && SlotReads(before, value, after)
    ensures SlotReads(text + (quoted + before), value, after)
  {
    QuotingJoins(text, quoted + before, Outside);
    QuotingJoins(quoted, before, Outside);
    var longer := text + (quoted + before);
    assert longer[|longer| - 1] == before[|before| - 1];
  }

  /** What a script is, split at one of its values. */
  lemma {:induction false} ScriptSplits(pieces: seq<Piece>, tail: string, i: nat)
    requires i < |pieces|
    ensures Script(pieces, tail) == BeforeSlot(pieces,
                                               i) + (ShellQuote(pieces[i].value) + Script(pieces[i + 1..], tail))
    decreases i
  {
    if i > 0 {
      ScriptSplits(pieces[1..], tail, i - 1);
      assert pieces[1..][i..] == pieces[i + 1..];
      Regroup(pieces[0].text, ShellQuote(pieces[0].value), BeforeSlot(pieces[1..], i - 1),
              ShellQuote(pieces[i].value) + Script(pieces[i + 1..], tail));
    }
  }

  /** The shell comes to every value outside quotes, where a word starts, and reads exactly that value. */
  lemma {:induction false} SlotReadsBack(pieces: seq<Piece>, tail: string, i: nat)
    requires SetApart(pieces, tail) && i < |pieces|
    ensures SlotReads(BeforeSlot(pieces, i), pieces[i].value, Script(pieces[i + 1..], tail))
    decreases i
  {
    if i == 0 {
      FirstSlotReads(pieces, tail);
    } else {
      SetApartShifts(pieces, tail);
      SlotReadsBack(pieces[1..], tail, i - 1);
      assert pieces[1..][i..] == pieces[i + 1..];
      QuoteClosesItself(pieces[0].value);
      SlotMovesOn(pieces[0].text, ShellQuote(pieces[0].value), BeforeSlot(pieces[1..], i - 1), pieces[i].value,
                  Script(pieces[i + 1..], tail));
    }
  }

  /** All values of a script read back where they stand. */
  ghost predicate ScriptReads(script: string, pieces: seq<Piece>, tail: string) {
    && script == Script(pieces, tail)
    && forall i :: 0 <= i < |pieces| ==>
         && script == BeforeSlot(pieces, i) + (ShellQuote(pieces[i].value) + Script(pieces[i + 1..], tail))
         && SlotReads(BeforeSlot(pieces, i), pieces[i].value, Script(pieces[i + 1..], tail))
  }

  lemma ScriptReadsBack(pieces: seq<Piece>, tail: string)
    requires SetApart(pieces, tail)
    ensures ScriptReads(Script(pieces, tail), pieces, tail)
  {
    forall i | 0 <= i < |pieces|
      ensures Script(pieces, tail)
           == BeforeSlot(pieces, i) + (ShellQuote(pieces[i].value) + Script(pieces[i + 1..], tail))
      ensures SlotReads(BeforeSlot(pieces, i), pieces[i].value, Script(pieces[i + 1..], tail))
    {
      ScriptSplits(pieces, tail, i);
      SlotReadsBack(pieces, tail, i);
    }
  }
}
