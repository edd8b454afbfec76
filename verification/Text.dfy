/** White space, lines and decimal numbers, as Rust's standard library reads them. */
module Text {
  predicate IsSpace(c: char) {
    var n := c as int;
    || 0x09 <= n <= 0x0D || n == 0x20 || n == 0x85 || n == 0xA0 || n == 0x1680
    || 0x2000 <= n <= 0x200A || n == 0x2028 || n == 0x2029 || n == 0x202F || n == 0x205F || n == 0x3000
  }

  function TrimStart(s: string): string {
    if s != "" && IsSpace(s[0]) then TrimStart(s[1..]) else s
  }

  function TrimEnd(s: string): string {
    if s != "" && IsSpace(s[|s| - 1]) then TrimEnd(s[..|s| - 1]) else s
  }

  function Trim(s: string): string {
    TrimEnd(TrimStart(s))
  }

  predicate HasText(s: string) {
    exists i :: 0 <= i < |s| && !IsSpace(s[i])
  }

  lemma {:induction false} TrimStartKeeps(s: string)
    ensures HasText(TrimStart(s)) <==> HasText(s)
    ensures TrimStart(s) == "" || !IsSpace(TrimStart(s)[0])
  {
    if s != "" && IsSpace(s[0]) {
      TrimStartKeeps(s[1..]);
      if HasText(s) {
        var i :| 0 <= i < |s| && !IsSpace(s[i]);
        assert s[1..][i - 1] == s[i];
      }
      if HasText(s[1..]) {
        var i :| 0 <= i < |s[1..]| && !IsSpace(s[1..][i]);
        assert s[i + 1] == s[1..][i];
      }
    } else if s != "" {
      assert !IsSpace(s[0]);
    }
  }

  lemma {:induction false} TrimEndKeeps(s: string)
    ensures HasText(s) ==> TrimEnd(s) != ""
    ensures !HasText(s) ==> TrimEnd(s) == ""
  {
    if s != "" && IsSpace(s[|s| - 1]) {
      TrimEndKeeps(s[..|s| - 1]);
      if HasText(s) {
        var i :| 0 <= i < |s| && !IsSpace(s[i]);
        assert s[..|s| - 1][i] == s[i];
      }
      if HasText(s[..|s| - 1]) {
        var i :| 0 <= i < |s| - 1 && !IsSpace(s[..|s| - 1][i]);
        assert !IsSpace(s[i]);
      }
    } else if s != "" {
      assert !IsSpace(s[|s| - 1]);
    }
  }

  /** Trimming leaves nothing exactly of blank text. */
  lemma TrimsToNothingIff(s: string)
    ensures Trim(s) == "" <==> !HasText(s)
  {
    TrimStartKeeps(s);
    TrimEndKeeps(TrimStart(s));
  }

  predicate StartsWith(s: string, prefix: string) {
    |prefix| <= |s| && s[..|prefix|] == prefix
  }

  predicate OccursAt(s: string, part: string, i: nat) {
    i + |part| <= |s| && s[i..i + |part|] == part
  }

  predicate Contains(s: string, part: string) {
    exists i :: 0 <= i <= |s| && OccursAt(s, part, i)
  }

  function StripCr(line: string): string {
    if line != "" && line[|line| - 1] == '\r' then line[..|line| - 1] else line
  }

  /** Where the first line feed is, or the length. */
  function LineEnd(text: string): (n: nat)
    ensures n <= |text| && (forall i :: 0 <= i < n ==> text[i] != '\n') && (n < |text| ==> text[n] == '\n')
  {
    if text == "" || text[0] == '\n' then 0 else LineEnd(text[1..]) + 1
  }

  /** The lines of a text; a last empty line does not count, and `\r\n` ends a line like `\n`. */
  function Lines(text: string): seq<string>
    decreases |text|
  {
    if text == "" then []
    else
      var n := LineEnd(text);
      if n == |text| then [text] else [StripCr(text[..n])] + Lines(text[n + 1..])
  }

  lemma {:induction false} LineEndOfLine(line: string, rest: string)
    requires '\n' !in line
    ensures LineEnd(line + "\n" + rest) == |line|
    decreases |line|
  {
    var text := line + "\n" + rest;
    if line == "" {
      assert text[0] == '\n';
    } else {
      assert text[1..] == line[1..] + "\n" + rest;
      assert text[0] == line[0];
      LineEndOfLine(line[1..], rest);
    }
  }

  lemma FirstLine(line: string, rest: string)
    requires '\n' !in line
    ensures Lines(line + "\n" + rest) == [StripCr(line)] + Lines(rest)
  {
    LineEndOfLine(line, rest);
    var text := line + "\n" + rest;
    assert text[..|line|] == line && text[|line| + 1..] == rest;
  }

  predicate IsDigit(c: char) {
    '0' <= c <= '9'
  }

  function Decimal(n: nat): (text: string)
    ensures text != "" && forall i :: 0 <= i < |text| ==> IsDigit(text[i])
  {
    (if n < 10 then "" else Decimal(n / 10)) + ['0' + (n % 10) as char]
  }

  function DigitsValue(text: string, acc: nat): nat
    requires forall i :: 0 <= i < |text| ==> IsDigit(text[i])
  {
    if text == "" then acc
    else
      assert IsDigit(text[0]);
      DigitsValue(text[1..], acc * 10 + (text[0] as int - '0' as int))
  }

  /** The leading digits of a text and what follows them. */
  function SpanDigits(text: string): (r: (string, string))
    ensures text == r.0 + r.1
    ensures forall i :: 0 <= i < |r.0| ==> IsDigit(r.0[i])
  {
    if text == "" || !IsDigit(text[0]) then ("", text)
    else
      var (digits, rest) := SpanDigits(text[1..]);
      ([text[0]] + digits, rest)
  }

  lemma {:induction false} SpanReads(digits: string, rest: string)
    requires forall i :: 0 <= i < |digits| ==> IsDigit(digits[i])
    requires rest == "" || !IsDigit(rest[0])
    ensures SpanDigits(digits + rest) == (digits, rest)
    decreases |digits|
  {
    if digits == "" {
      assert digits + rest == rest;
    } else {
      assert (digits + rest)[1..] == digits[1..] + rest;
      SpanReads(digits[1..], rest);
      assert IsDigit((digits + rest)[0]);
      assert [digits[0]] + digits[1..] == digits;
    }
  }

  lemma {:induction false} DigitsSnoc(text: string, d: char, acc: nat)
    requires forall i :: 0 <= i < |text| ==> IsDigit(text[i])
    requires IsDigit(d)
    ensures DigitsValue(text + [d], acc) == DigitsValue(text, acc) * 10 + (d as int - '0' as int)
    decreases |text|
  {
    if text == "" {
      assert text + [d] == [d] && [d][1..] == "";
    } else {
      assert (text + [d])[1..] == text[1..] + [d];
      DigitsSnoc(text[1..], d, acc * 10 + (text[0] as int - '0' as int));
    }
  }

  lemma {:induction false} DecimalReadsBack(n: nat)
    ensures DigitsValue(Decimal(n), 0) == n
  {
    var d := '0' + (n % 10) as char;
    if n < 10 {
      assert Decimal(n) == [d] && [d][1..] == "";
    } else {
      DecimalReadsBack(n / 10);
      DigitsSnoc(Decimal(n / 10), d, 0);
    }
  }
}
