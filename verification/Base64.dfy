/** Section 4 of RFC 4648: the standard alphabet with padding, as a printer and a strict reader. */
module Base64 {
  import opened Wrappers

  type Byte = b: int | 0 <= b < 256

  type Sextet = s: int | 0 <= s < 64

  function Symbol(s: Sextet): char {
    if s < 26 then 'A' + (s as char)
    else if s < 52 then 'a' + ((s - 26) as char)
    else if s < 62 then '0' + ((s - 52) as char)
    else if s == 62 then '+'
    else '/'
  }

  function SextetOf(c: char): Option<Sextet> {
    if 'A' <= c <= 'Z' then Some(c as int - 'A' as int)
    else if 'a' <= c <= 'z' then Some(c as int - 'a' as int + 26)
    else if '0' <= c <= '9' then Some(c as int - '0' as int + 52)
    else if c == '+' then Some(62)
    else if c == '/' then Some(63)
    else None
  }

  predicate IsSymbol(c: char) {
    SextetOf(c).Some? || c == '='
  }

  lemma SymbolRoundTrip(s: Sextet)
    ensures SextetOf(Symbol(s)) == Some(s) && Symbol(s) != '='
  {
  }

  function Encode(bytes: seq<Byte>): (text: string)
    ensures forall i :: 0 <= i < |text| ==> IsSymbol(text[i])
  {
    if bytes == [] then ""
    else if |bytes| == 1 then
      SymbolRoundTrip(bytes[0] / 4);
      SymbolRoundTrip(bytes[0] % 4 * 16);
      [Symbol(bytes[0] / 4), Symbol(bytes[0] % 4 * 16), '=', '=']
    else if |bytes| == 2 then
      SymbolRoundTrip(bytes[0] / 4);
      SymbolRoundTrip(bytes[0] % 4 * 16 + bytes[1] / 16);
      SymbolRoundTrip(bytes[1] % 16 * 4);
      [Symbol(bytes[0] / 4), Symbol(bytes[0] % 4 * 16 + bytes[1] / 16), Symbol(bytes[1] % 16 * 4), '=']
    else
      Group(bytes[0], bytes[1], bytes[2]) + Encode(bytes[3..])
  }

  function Group(a: Byte, b: Byte, c: Byte): (text: string)
    ensures |text| == 4 && forall i :: 0 <= i < 4 ==> IsSymbol(text[i])
  {
    SymbolRoundTrip(a / 4);
    SymbolRoundTrip(a % 4 * 16 + b / 16);
    SymbolRoundTrip(b % 16 * 4 + c / 64);
    SymbolRoundTrip(c % 64);
    [Symbol(a / 4), Symbol(a % 4 * 16 + b / 16), Symbol(b % 16 * 4 + c / 64), Symbol(c % 64)]
  }

  /** The last group may be padded; the bits a padded group drops must be zero. */
  function DecodeLast(text: string): Option<seq<Byte>>
    requires |text| == 4
  {
    var a, b := SextetOf(text[0]), SextetOf(text[1]);
    if a.None? || b.None? then None
    else if text[2] == '=' then
      if text[3] == '=' && b.value % 16 == 0 then Some([a.value * 4 + b.value / 16]) else None
    else
      var c := SextetOf(text[2]);
      if c.None? then None
      else if text[3] == '=' then
        if c.value % 4 == 0 then Some([a.value * 4 + b.value / 16, b.value % 16 * 16 + c.value / 4]) else None
      else DecodeGroup(text)
  }

  function DecodeGroup(text: string): Option<seq<Byte>>
    requires |text| == 4
  {
    var a, b, c, d := SextetOf(text[0]), SextetOf(text[1]), SextetOf(text[2]), SextetOf(text[3]);
    if a.None? || b.None? || c.None? || d.None? then None
    else Some([a.value * 4 + b.value / 16, b.value % 16 * 16 + c.value / 4, c.value % 4 * 64 + d.value])
  }

  function Decode(text: string): Option<seq<Byte>> {
    if text == "" then Some([])
    else if |text| < 4 then None
    else if |text| == 4 then DecodeLast(text)
    else
      var first, rest := DecodeGroup(text[..4]), Decode(text[4..]);
      if first.None? || rest.None? then None else Some(first.value + rest.value)
  }

  lemma GroupRoundTrip(a: Byte, b: Byte, c: Byte)
    ensures DecodeGroup(Group(a, b, c)) == Some([a, b, c])
    ensures DecodeLast(Group(a, b, c)) == Some([a, b, c])
  {
    var x, y, z, w := a / 4, a % 4 * 16 + b / 16, b % 16 * 4 + c / 64, c % 64;
    SymbolRoundTrip(x);
    SymbolRoundTrip(y);
    SymbolRoundTrip(z);
    SymbolRoundTrip(w);
    assert Group(a, b, c) == [Symbol(x), Symbol(y), Symbol(z), Symbol(w)];
    assert x * 4 + y / 16 == a;
    assert y % 16 * 16 + z / 4 == b;
    assert z % 4 * 64 + w == c;
  }

  lemma OneRoundTrip(a: Byte)
    ensures |Encode([a])| == 4 && DecodeLast(Encode([a])) == Some([a])
  {
    SymbolRoundTrip(a / 4);
    SymbolRoundTrip(a % 4 * 16);
  }

  lemma TwoRoundTrip(a: Byte, b: Byte)
    ensures |Encode([a, b])| == 4 && DecodeLast(Encode([a, b])) == Some([a, b])
  {
    var x, y, z := a / 4, a % 4 * 16 + b / 16, b % 16 * 4;
    SymbolRoundTrip(x);
    SymbolRoundTrip(y);
    SymbolRoundTrip(z);
    assert Encode([a, b]) == [Symbol(x), Symbol(y), Symbol(z), '='];
    assert x * 4 + y / 16 == a;
    assert y % 16 * 16 + z / 4 == b;
    assert z % 4 == 0;
  }

  /** Reading gives back exactly the bytes printed. */
  lemma {:induction false} RoundTrip(bytes: seq<Byte>)
    ensures Decode(Encode(bytes)) == Some(bytes)
    decreases |bytes|
  {
    if |bytes| == 1 {
      OneRoundTrip(bytes[0]);
      assert bytes == [bytes[0]];
    } else if |bytes| == 2 {
      TwoRoundTrip(bytes[0], bytes[1]);
      assert bytes == [bytes[0], bytes[1]];
    } else if |bytes| >= 3 {
      var first, rest := Group(bytes[0], bytes[1], bytes[2]), Encode(bytes[3..]);
      GroupRoundTrip(bytes[0], bytes[1], bytes[2]);
      RoundTrip(bytes[3..]);
      assert (first + rest)[..4] == first && (first + rest)[4..] == rest;
      assert bytes == [bytes[0], bytes[1], bytes[2]] + bytes[3..];
      if bytes[3..] == [] {
        assert Encode(bytes) == first + rest == first;
        assert bytes == [bytes[0], bytes[1], bytes[2]];
      } else {
        EncodeLength(bytes[3..]);
      }
    }
  }

  lemma EncodeLength(bytes: seq<Byte>)
    requires bytes != []
    ensures |Encode(bytes)| >= 4
  {
  }
}
