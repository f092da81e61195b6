// The textual primitives of encoding/primitives.py: decimal strings, hex ids
// and base64 (section 4 of RFC 4648), each with the reader a receiver applies.
module Text {
  import opened Wrappers

  type Byte = b: int | 0 <= b < 256

  // ---- decimal strings ----

  function DigitChar(d: int): char
    requires 0 <= d < 10
  {
    ('0' as int + d) as char
  }

  function DigitValue(c: char): Option<int> {
    if '0' <= c <= '9' then Some(c as int - '0' as int) else None
  }

  function NatToString(n: nat): (s: string)
    ensures s != [] && s[0] != '-'
  {
    if n < 10 then [DigitChar(n)] else NatToString(n / 10) + [DigitChar(n % 10)]
  }

  function IntToString(i: int): (s: string)
    ensures s != []
  {
    if i < 0 then "-" + NatToString(-i) else NatToString(i)
  }

  function ParseNat(s: string): Option<int> {
    if s == [] then None
    else if |s| == 1 then DigitValue(s[0])
    else
      var high :- ParseNat(s[..|s| - 1]);
      var low :- DigitValue(s[|s| - 1]);
      Some(10 * high + low)
  }

  function ParseInt(s: string): Option<int> {
    if s != [] && s[0] == '-' then
      var n :- ParseNat(s[1..]);
      Some(-n)
    else
      ParseNat(s)
  }

  lemma {:induction false} NatRoundTrip(n: nat)
    ensures ParseNat(NatToString(n)) == Some(n)
  {
    if n >= 10 {
      NatRoundTrip(n / 10);
      var s := NatToString(n);
      assert s[..|s| - 1] == NatToString(n / 10);
    }
  }

  lemma IntRoundTrip(i: int)
    ensures ParseInt(IntToString(i)) == Some(i)
  {
    NatRoundTrip(if i < 0 then -i else i);
    if i < 0 {
      assert IntToString(i)[1..] == NatToString(-i);
    }
  }

  // ---- hex ids ----

  function HexChar(d: int): char
    requires 0 <= d < 16
  {
    if d < 10 then ('0' as int + d) as char else ('a' as int + d - 10) as char
  }

  function HexValue(c: char): Option<int> {
    if '0' <= c <= '9' then Some(c as int - '0' as int)
    else if 'a' <= c <= 'f' then Some(c as int - 'a' as int + 10)
    else if 'A' <= c <= 'F' then Some(c as int - 'A' as int + 10)
    else None
  }

  function HexId(bytes: seq<Byte>): (s: string)
    ensures s == [] <==> bytes == []
  {
    if bytes == [] then [] else
    [HexChar(bytes[0] / 16), HexChar(bytes[0] % 16)] + HexId(bytes[1..])
  }

  function ParseHex(s: string): Option<seq<Byte>> {
    if s == [] then Some([])
    else if |s| == 1 then None
    else
      var high :- HexValue(s[0]);
      var low :- HexValue(s[1]);
      var rest :- ParseHex(s[2..]);
      Some([16 * high + low] + rest)
  }

  lemma {:induction false} HexRoundTrip(bytes: seq<Byte>)
    ensures ParseHex(HexId(bytes)) == Some(bytes)
  {
    if bytes != [] {
      HexRoundTrip(bytes[1..]);
      assert HexId(bytes)[2..] == HexId(bytes[1..]);
      assert [bytes[0]] + bytes[1..] == bytes;
    }
  }

  // ---- base64 ----

  type Sextet = v: int | 0 <= v < 64

  function SextetChar(v: Sextet): char {
    if v < 26 then ('A' as int + v) as char
    else if v < 52 then ('a' as int + v - 26) as char
    else if v < 62 then ('0' as int + v - 52) as char
    else if v == 62 then '+'
    else '/'
  }

  function SextetValue(c: char): Option<Sextet> {
    if 'A' <= c <= 'Z' then Some(c as int - 'A' as int)
    else if 'a' <= c <= 'z' then Some(c as int - 'a' as int + 26)
    else if '0' <= c <= '9' then Some(c as int - '0' as int + 52)
    else if c == '+' then Some(62)
    else if c == '/' then Some(63)
    else None
  }

  // A base64 symbol: six bits, or None for the padding character.
  type Symbol = Option<Sextet>

  function SymbolChar(v: Symbol): char {
    if v.Some? then SextetChar(v.value) else '='
  }

  function CharSymbol(c: char): Option<Symbol> {
    if c == '=' then Some(None)
    else
      var v :- SextetValue(c);
      Some(Some(v))
  }

  // Groups of three bytes as four symbols, the last group padded.
  function ToSymbols(bytes: seq<Byte>): seq<Symbol> {
    if bytes == [] then []
    else if |bytes| == 1 then [Some(bytes[0] / 4), Some(bytes[0] % 4 * 16), None, None]
    else if |bytes| == 2 then
      [Some(bytes[0] / 4), Some(bytes[0] % 4 * 16 + bytes[1] / 16), Some(bytes[1] % 16 * 4), None]
    else
      [Some(bytes[0] / 4), Some(bytes[0] % 4 * 16 + bytes[1] / 16),
       Some(bytes[1] % 16 * 4 + bytes[2] / 64), Some(bytes[2] % 64)] + ToSymbols(bytes[3..])
  }

  // Padding may end the input and stand nowhere else.
  function FromSymbols(v: seq<Symbol>): Option<seq<Byte>> {
    if v == [] then Some([])
    else if |v| < 4 || v[0].None? || v[1].None? then None
    else
      var a: int, b: int := v[0].value, v[1].value;
      var first: Byte := a * 4 + b / 16;
      if v[2].None? then
        if |v| == 4 && v[3].None? then Some([first]) else None
      else
        var c: int := v[2].value;
        var second: Byte := b % 16 * 16 + c / 4;
        if v[3].None? then
          if |v| == 4 then Some([first, second]) else None
        else
          var d: int := v[3].value;
          var third: Byte := c % 4 * 64 + d;
          var rest :- FromSymbols(v[4..]);
          Some([first, second, third] + rest)
  }

  function Base64(bytes: seq<Byte>): string {
    SymbolText(ToSymbols(bytes))
  }

  function SymbolText(v: seq<Symbol>): string {
    if v == [] then [] else [SymbolChar(v[0])] + SymbolText(v[1..])
  }

  function ParseBase64(s: string): Option<seq<Byte>> {
    var v :- Traverse(CharSymbol, s);
    FromSymbols(v)
  }

  lemma SymbolRoundTrip(v: Symbol)
    ensures CharSymbol(SymbolChar(v)) == Some(v)
  {
  }

  lemma {:induction false} SymbolTextRoundTrip(v: seq<Symbol>)
    ensures Traverse(CharSymbol, SymbolText(v)) == Some(v)
  {
    if v != [] {
      SymbolRoundTrip(v[0]);
      SymbolTextRoundTrip(v[1..]);
      assert SymbolText(v)[1..] == SymbolText(v[1..]);
      assert [v[0]] + v[1..] == v;
    }
  }

  // Three bytes cut into four sextets and put together again.
  lemma Regroup(b0: Byte, b1: Byte, b2: Byte)
    ensures b0 / 4 * 4 + (b0 % 4 * 16 + b1 / 16) / 16 == b0
    ensures (b0 % 4 * 16 + b1 / 16) % 16 * 16 + (b1 % 16 * 4 + b2 / 64) / 4 == b1
    ensures (b1 % 16 * 4 + b2 / 64) % 4 * 64 + b2 % 64 == b2
  {
  }

  lemma {:induction false} SymbolsRoundTrip(bytes: seq<Byte>)
    ensures FromSymbols(ToSymbols(bytes)) == Some(bytes)
  {
    if |bytes| == 1 {
      Regroup(bytes[0], 0, 0);
      assert FromSymbols(ToSymbols(bytes)).value == [bytes[0]] == bytes;
    } else if |bytes| == 2 {
      Regroup(bytes[0], bytes[1], 0);
      assert FromSymbols(ToSymbols(bytes)).value == [bytes[0], bytes[1]] == bytes;
    } else if |bytes| > 2 {
      Regroup(bytes[0], bytes[1], bytes[2]);
      SymbolsRoundTrip(bytes[3..]);
      assert ToSymbols(bytes)[4..] == ToSymbols(bytes[3..]);
      assert [bytes[0], bytes[1], bytes[2]] + bytes[3..] == bytes;
    }
  }

  lemma Base64RoundTrip(bytes: seq<Byte>)
    ensures ParseBase64(Base64(bytes)) == Some(bytes)
  {
    SymbolTextRoundTrip(ToSymbols(bytes));
    SymbolsRoundTrip(bytes);
  }
}
