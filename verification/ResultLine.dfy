/** The one sentinel-prefixed line that carries a command's result out of a guest. */
module ResultLine {
  import opened Wrappers
  import opened Protocol
  import opened Text
  import opened Base64

  const SENTINEL := "__WORKENV_EXEDEV_RESULT__"
  const WRAPPER_CHDIR_FAILED: nat := 122

  type Lossy = seq<Byte> -> string

  /** One `"key":value` member. */
  function Member(key: string, value: string): string {
    "\"" + key + "\":" + value
  }

  function Quoted(s: string): string {
    "\"" + s + "\""
  }

  /** The line the guest's script prints for one finished command. */
  function Payload(exitCode: string, stdout: string, stderr: string): string {
    "{" + Member("exit_code", exitCode) + "," + Member("stdout", Quoted(stdout)) + "," + Member("stderr",
                                                                                                Quoted(stderr)) + "}"
  }

  /** A JSON string after its opening quote, up to the closing one; escapes are not part of this model. */
  function ParseString(text: string): Option<(string, string)> {
    if text == "" || text[0] == '\\' || text[0] < ' ' then None
    else if text[0] == '"' then Some(("", text[1..]))
    else
      match ParseString(text[1..])
      case None => None
      case Some((s, rest)) => Some(([text[0]] + s, rest))
  }

  /** A JSON string or a JSON number without sign, fraction, exponent or leading zero. */
  function ParseValue(text: string): Option<(Json, string)> {
    if text == "" then None
    else if text[0] == '"' then
      match ParseString(text[1..])
      case None => None
      case Some((s, rest)) => Some((Json.String(s), rest))
    else
      var (digits, rest) := SpanDigits(text);
      if digits == "" || (|digits| > 1 && digits[0] == '0') then None
      else Some((Number(DigitsValue(digits, 0)), rest))
  }

  /** The members of a JSON object, from the first one's opening quote to the end of the text. */
  function ParseMembers(text: string, fields: map<string, Json>): Option<map<string, Json>>
    decreases |text|
  {
    if text == "" || text[0] != '"' then None
    else
      match ParseString(text[1..])
      case None => None
      case Some((key, afterKey)) =>
        if afterKey == "" || afterKey[0] != ':' then None
        else
          match ParseValue(afterKey[1..])
          case None => None
          case Some((value, rest)) =>
            if rest == "}" then Some(fields[key := value])
            else if rest != "" && rest[0] == ',' && |rest| <= |text| then ParseMembers(rest[1..], fields[key := value])
            else None
  }

  function ParseObject(text: string): Option<Json> {
    if text == "" || text[0] != '{' then None
    else
      match ParseMembers(text[1..], map[])
      case None => None
      case Some(fields) => Some(Object(fields))
  }

  datatype CommandResult = CommandResult(exitCode: int, stdout: string, stderr: string)

  function FindResult(lines: seq<string>): Option<string> {
    if lines == [] then None
    else if StartsWith(lines[0], SENTINEL) then Some(lines[0][|SENTINEL|..])
    else FindResult(lines[1..])
  }

  /** A missing or undecodable stream reads as empty. */
  function DecodeStream(text: string, lossy: Lossy): string {
    if Decode(text).Some? then lossy(Decode(text).value) else ""
  }

  function DecodeField(value: Json, field: string, lossy: Lossy): string {
    match value.Get(field)
    case Some(String(text)) => DecodeStream(text, lossy)
    case _ => ""
  }

  function ExitCode(value: Json): int {
    match value.Get("exit_code")
    case Some(Number(n)) => if -0x8000_0000_0000_0000 <= n < 0x8000_0000_0000_0000 then n else -1
    case _ => -1
  }

  function ParseLine(line: string, lossy: Lossy): Option<CommandResult> {
    match ParseObject(Trim(line))
    case None => None
    case Some(value) =>
      Some(CommandResult(ExitCode(value), DecodeField(value, "stdout", lossy), DecodeField(value, "stderr", lossy)))
  }

  function Parse(stdout: string, lossy: Lossy): Option<CommandResult> {
    match FindResult(Lines(stdout))
    case None => None
    case Some(line) => ParseLine(line, lossy)
  }

  /** Text a JSON string can hold as it stands. */
  predicate IsPlain(s: string) {
    forall i :: 0 <= i < |s| ==> s[i] >= ' ' && s[i] != '"' && s[i] != '\\'
  }

  lemma {:induction false} StringReads(s: string, rest: string)
    requires IsPlain(s)
    ensures ParseString(s + "\"" + rest) == Some((s, rest))
    decreases |s|
  {
    var text := s + "\"" + rest;
    if s == "" {
      assert text == "\"" + rest && text[1..] == rest;
    } else {
      assert text[0] == s[0] && text[1..] == s[1..] + "\"" + rest;
      StringReads(s[1..], rest);
      assert [s[0]] + s[1..] == s;
    }
  }

  lemma TextValueReads(s: string, rest: string)
    requires IsPlain(s)
    ensures ParseValue(Quoted(s) + rest) == Some((Json.String(s), rest))
  {
    var text := Quoted(s) + rest;
    assert text[1..] == s + "\"" + rest;
    StringReads(s, rest);
  }

  lemma {:induction false} DecimalHasNoLeadingZero(n: nat)
    ensures |Decimal(n)| > 1 ==> Decimal(n)[0] != '0'
    ensures n > 0 ==> Decimal(n)[0] != '0'
  {
    if n >= 10 {
      DecimalHasNoLeadingZero(n / 10);
      assert Decimal(n)[0] == Decimal(n / 10)[0];
    }
  }

  lemma NumberValueReads(n: nat, rest: string)
    requires rest == "" || !IsDigit(rest[0])
    ensures ParseValue(Decimal(n) + rest) == Some((Number(n), rest))
  {
    var text := Decimal(n) + rest;
    assert text[0] == Decimal(n)[0];
    SpanReads(Decimal(n), rest);
    DecimalReadsBack(n);
    DecimalHasNoLeadingZero(n);
  }

  lemma MemberReads(key: string, value: string, read: Json, rest: string, fields: map<string, Json>)
    requires IsPlain(key) && ParseValue(value + rest) == Some((read, rest))
    requires rest == "}" || (rest != "" && rest[0] == ',')
    ensures ParseMembers(Member(key, value) + rest, fields)
         == if rest == "}" then Some(fields[key := read]) else ParseMembers(rest[1..], fields[key := read])
  {
    var afterKey := ":" + (value + rest);
    var text := Member(key, value) + rest;
    assert text[1..] == key + "\"" + afterKey;
    StringReads(key, afterKey);
    assert afterKey[1..] == value + rest;
  }

  lemma EncodedIsPlain(bytes: seq<Byte>)
    ensures IsPlain(Encode(bytes))
  {
    var text := Encode(bytes);
    forall i | 0 <= i < |text| ensures text[i] >= ' ' && text[i] != '"' && text[i] != '\\' {
      assert IsSymbol(text[i]);
    }
  }

  lemma Regroup(a: string, b: string, c: string)
    ensures "{" + a + "," + b + "," + c + "}" == "{" + (a + ("," + (b + ("," + (c + "}")))))
  {
  }

  lemma MemberThenMore(key: string, value: string, read: Json, tail: string, fields: map<string, Json>)
    requires IsPlain(key) && ParseValue(value + ("," + tail)) == Some((read, "," + tail))
    ensures ParseMembers(Member(key, value) + ("," + tail), fields) == ParseMembers(tail, fields[key := read])
  {
    var rest := "," + tail;
    assert rest[0] == ',' && rest[1..] == tail;
    assert rest != "}";
    MemberReads(key, value, read, rest, fields);
  }

  lemma StreamsParse(stdout: string, stderr: string, fields: map<string, Json>)
    requires IsPlain(stdout) && IsPlain(stderr)
    ensures ParseMembers(Member("stdout", Quoted(stdout)) + ("," + (Member("stderr", Quoted(stderr)) + "}")), fields)
         == Some(fields["stdout" := Json.String(stdout)]["stderr" := Json.String(stderr)])
  {
    var third := Member("stderr", Quoted(stderr)) + "}";
    TextValueReads(stdout, "," + third);
    MemberThenMore("stdout", Quoted(stdout), Json.String(stdout), third, fields);
    TextValueReads(stderr, "}");
    MemberReads("stderr", Quoted(stderr), Json.String(stderr), "}", fields["stdout" := Json.String(stdout)]);
  }

  /** The hand-written object reads back, whatever its streams hold, as long as they need no escapes. */
  lemma PayloadParses(exitCode: nat, stdout: string, stderr: string)
    requires IsPlain(stdout) && IsPlain(stderr)
    ensures ParseObject(Payload(Decimal(exitCode), stdout, stderr))
         == Some(Object(map["exit_code" := Number(exitCode)]
                        ["stdout" := Json.String(stdout)]["stderr" := Json.String(stderr)]))
  {
    var a, b, c := Member("exit_code", Decimal(exitCode)), Member("stdout", Quoted(stdout)),
      Member("stderr", Quoted(stderr));
    var second := b + ("," + (c + "}"));
    Regroup(a, b, c);
    assert ("{" + (a + ("," + second)))[1..] == a + ("," + second);
    NumberValueReads(exitCode, "," + second);
    MemberThenMore("exit_code", Decimal(exitCode), Number(exitCode), second, map[]);
    StreamsParse(stdout, stderr, map["exit_code" := Number(exitCode)]);
  }

  function Joined(lines: seq<string>): string {
    if lines == [] then "" else lines[0] + "\n" + Joined(lines[1..])
  }

  /** Lines the reader skips: each on a line of its own, none starting with the sentinel. */
  predicate Noise(lines: seq<string>) {
    forall i :: 0 <= i < |lines| ==> '\n' !in lines[i] && !StartsWith(lines[i], SENTINEL)
  }

  lemma {:induction false} NoiseIsSkipped(lines: seq<string>, rest: string)
    requires Noise(lines)
    ensures FindResult(Lines(Joined(lines) + rest)) == FindResult(Lines(rest))
    decreases |lines|
  {
    if lines == [] {
      assert Joined(lines) + rest == rest;
    } else {
      var more := Joined(lines[1..]) + rest;
      assert Joined(lines) + rest == lines[0] + "\n" + more;
      FirstLine(lines[0], more);
      NoiseIsSkipped(lines[1..], rest);
      var found := Lines(lines[0] + "\n" + more);
      assert found[1..] == Lines(more);
      StrippedNoise(lines[0]);
    }
  }

  lemma StrippedNoise(line: string)
    ensures StartsWith(StripCr(line), SENTINEL) ==> StartsWith(line, SENTINEL)
  {
    StrippedPrefix(line, SENTINEL);
  }

  lemma StrippedPrefix(line: string, prefix: string)
    ensures StartsWith(StripCr(line), prefix) ==> StartsWith(line, prefix)
  {
    if |prefix| <= |StripCr(line)| {
      assert line[..|prefix|] == StripCr(line)[..|prefix|];
    }
  }

  lemma NoLineFeedInDecimal(n: nat)
    ensures '\n' !in Decimal(n)
  {
    forall i | 0 <= i < |Decimal(n)| ensures Decimal(n)[i] != '\n' {
      assert IsDigit(Decimal(n)[i]);
    }
  }

  /** The payload stays on one line and needs no trimming. */
  lemma PayloadIsOneLine(exitCode: nat, stdout: string, stderr: string)
    requires IsPlain(stdout) && IsPlain(stderr)
    ensures '\n' !in Payload(Decimal(exitCode), stdout, stderr)
    ensures Trim(Payload(Decimal(exitCode), stdout, stderr)) == Payload(Decimal(exitCode), stdout, stderr)
    ensures Payload(Decimal(exitCode), stdout, stderr) != ""
    ensures StripCr(Payload(Decimal(exitCode), stdout, stderr)) == Payload(Decimal(exitCode), stdout, stderr)
  {
    NoLineFeedInDecimal(exitCode);
    assert '\n' !in stdout && '\n' !in stderr;
    var text := Payload(Decimal(exitCode), stdout, stderr);
    assert text[0] == '{' && text[|text| - 1] == '}';
  }

  /** The line starting at the sentinel is the one found. */
  lemma SentinelLineFound(payload: string, after: string)
    requires '\n' !in payload && StripCr(payload) == payload && payload != ""
    ensures FindResult(Lines(SENTINEL + payload + "\n" + after)) == Some(payload)
  {
    SentinelLine(SENTINEL, payload, after);
  }

  lemma SentinelLine(sentinel: string, payload: string, after: string)
    requires sentinel == SENTINEL
    requires '\n' !in payload && StripCr(payload) == payload && payload != ""
    ensures FindResult(Lines(sentinel + payload + "\n" + after)) == Some(payload)
  {
    var line := sentinel + payload;
    assert '\n' !in sentinel;
    FirstLine(line, after);
    assert line[|line| - 1] == payload[|payload| - 1];
    assert StripCr(line) == line;
    assert line[..|sentinel|] == sentinel && line[|sentinel|..] == payload;
    var lines := [line] + Lines(after);
    assert lines[0] == line;
  }

  /** The whole stream: noise, the sentinel line, and whatever follows. */
  function Stream(before: seq<string>, payload: string, after: string): string {
    Joined(before) + (SENTINEL + payload + "\n" + after)
  }

  lemma PayloadLineParses(exitCode: nat, stdout: string, stderr: string, lossy: Lossy)
    requires IsPlain(stdout) && IsPlain(stderr) && exitCode < 0x8000_0000_0000_0000
    ensures ParseLine(Payload(Decimal(exitCode), stdout, stderr), lossy)
         == Some(CommandResult(exitCode, DecodeStream(stdout, lossy), DecodeStream(stderr, lossy)))
  {
    PayloadIsOneLine(exitCode, stdout, stderr);
    PayloadParses(exitCode, stdout, stderr);
  }

  lemma StreamParses(before: seq<string>, exitCode: nat, stdout: string, stderr: string, after: string, lossy: Lossy)
    requires Noise(before) && IsPlain(stdout) && IsPlain(stderr) && exitCode < 0x8000_0000_0000_0000
    ensures Parse(Stream(before, Payload(Decimal(exitCode), stdout, stderr), after), lossy)
         == Some(CommandResult(exitCode, DecodeStream(stdout, lossy), DecodeStream(stderr, lossy)))
  {
    var payload := Payload(Decimal(exitCode), stdout, stderr);
    PayloadIsOneLine(exitCode, stdout, stderr);
    SentinelLineFound(payload, after);
    NoiseIsSkipped(before, SENTINEL + payload + "\n" + after);
    PayloadLineParses(exitCode, stdout, stderr, lossy);
  }

  /** What the printed triple reads back as, through any noise before it and anything after it. */
  lemma ResultLineRoundTrip(before: seq<string>, exitCode: nat, stdout: seq<Byte>, stderr: seq<Byte>, after: string,
                            lossy: Lossy)
    requires Noise(before) && exitCode < 0x8000_0000_0000_0000
    ensures Parse(Stream(before, Payload(Decimal(exitCode), Encode(stdout), Encode(stderr)), after), lossy)
         == Some(CommandResult(exitCode, lossy(stdout), lossy(stderr)))
  {
    EncodedIsPlain(stdout);
    EncodedIsPlain(stderr);
    StreamParses(before, exitCode, Encode(stdout), Encode(stderr), after, lossy);
    RoundTrip(stdout);
    RoundTrip(stderr);
  }

  /** No sentinel line, no result: a command that never ran is not a command that failed. */
  lemma NoSentinelNoResult(lines: seq<string>, lossy: Lossy)
    requires Noise(lines)
    ensures Parse(Joined(lines), lossy) == None
  {
    NoiseIsSkipped(lines, "");
    assert Joined(lines) + "" == Joined(lines);
  }

  /** A status that is missing, no number or out of range reads as -1; any other is the command's own. */
  lemma ExitCodeReads(value: Json)
    ensures forall n :: value.Get("exit_code") == Some(Number(n)) && -0x8000_0000_0000_0000 <= n < 0x8000_0000_0000_0000
              ==> ExitCode(value) == n
    ensures (forall n :: value.Get("exit_code") == Some(Number(n)) ==>
               n < -0x8000_0000_0000_0000 || n >= 0x8000_0000_0000_0000) ==> ExitCode(value) == -1
  {
  }

  const CHDIR_MESSAGE := "cannot change directory"

  lemma ChdirMessageIsPlain()
    ensures IsPlain(CHDIR_MESSAGE) && |CHDIR_MESSAGE| == 23 && CHDIR_MESSAGE[6] == ' '
  {
    forall i | 0 <= i < |CHDIR_MESSAGE|
      ensures CHDIR_MESSAGE[i] >= ' ' && CHDIR_MESSAGE[i] != '"' && CHDIR_MESSAGE[i] != '\\'
    {
    }
  }

  /** The wrapper's own message is printed unencoded, so the reader drops it and keeps only the reserved status. */
  lemma ChdirMessageIsDropped(before: seq<string>, after: string, lossy: Lossy)
    requires Noise(before)
    ensures Parse(Stream(before, Payload(Decimal(WRAPPER_CHDIR_FAILED), "", CHDIR_MESSAGE), after), lossy)
         == Some(CommandResult(WRAPPER_CHDIR_FAILED, lossy([]), ""))
  {
    ChdirMessageIsPlain();
    BlankDoesNotDecode(CHDIR_MESSAGE, 6);
    UndecodableIsDropped(before, WRAPPER_CHDIR_FAILED, CHDIR_MESSAGE, after, lossy);
  }

  lemma UndecodableIsDropped(before: seq<string>, exitCode: nat, message: string, after: string, lossy: Lossy)
    requires Noise(before) && IsPlain(message) && Decode(message).None? && exitCode < 0x8000_0000_0000_0000
    ensures Parse(Stream(before, Payload(Decimal(exitCode), "", message), after), lossy)
         == Some(CommandResult(exitCode, lossy([]), ""))
  {
    StreamParses(before, exitCode, "", message, after, lossy);
  }

  lemma {:induction false} BlankDoesNotDecode(text: string, i: nat)
    requires i < |text| && text[i] == ' '
    ensures Decode(text) == None
    decreases |text|
  {
    if |text| > 4 && i >= 4 {
      BlankDoesNotDecode(text[4..], i - 4);
    }
  }
}
