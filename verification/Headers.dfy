// _parse_headers: the `k=v,k=v` form of OTEL_EXPORTER_OTLP_HEADERS, with
// percent-encoded keys and values, and a printer for it.
module Headers {
  import opened Wrappers
  import opened Text

  // ---- str.split, str.strip and str.partition ----

  function Split(s: string, sep: char): (parts: seq<string>)
    ensures parts != []
  {
    if s == [] then [[]] else
    var rest := Split(s[1..], sep);
    if s[0] == sep then [[]] + rest else [[s[0]] + rest[0]] + rest[1..]
  }

  function Join(parts: seq<string>, sep: char): string {
    if parts == [] then [] else if |parts| == 1 then parts[0] else parts[0] + [sep] + Join(parts[1..], sep)
  }

  // str.isspace
  predicate IsSpace(c: char) {
    var u := c as int;
    || 0x09 <= u <= 0x0D || 0x1C <= u <= 0x20 || u == 0x85 || u == 0xA0 || u == 0x1680
    || 0x2000 <= u <= 0x200A || u == 0x2028 || u == 0x2029 || u == 0x202F || u == 0x205F || u == 0x3000
  }

  function StripLeft(s: string): string {
    if s != [] && IsSpace(s[0]) then StripLeft(s[1..]) else s
  }

  function StripRight(s: string): string {
    if s != [] && IsSpace(s[|s| - 1]) then StripRight(s[..|s| - 1]) else s
  }

  function Strip(s: string): string {
    StripRight(StripLeft(s))
  }

  // What stands before and after the first separator; None without one.
  function Partition(s: string, sep: char): Option<(string, string)> {
    if s == [] then None
    else if s[0] == sep then Some(([], s[1..]))
    else
      var (before, after) :- Partition(s[1..], sep);
      Some(([s[0]] + before, after))
  }

  // There is a separator exactly when the text has one, and it is the first.
  lemma {:induction false} PartitionSplits(s: string, sep: char)
    ensures Partition(s, sep).Some? <==> sep in s
    ensures Partition(s, sep).Some? ==>
      var (before, after) := Partition(s, sep).value; s == before + [sep] + after && sep !in before
  {
    if s != [] {
      assert s == [s[0]] + s[1..];
      if s[0] != sep { PartitionSplits(s[1..], sep); }
    }
  }

  predicate AllSpaces(s: string) {
    forall c :: c in s ==> IsSpace(c)
  }

  // The characters str.isspace accepts.
  lemma SpacesAre(c: char)
    ensures IsSpace(c) <==>
      c as int in {0x09, 0x0A, 0x0B, 0x0C, 0x0D, 0x1C, 0x1D, 0x1E, 0x1F, 0x20, 0x85, 0xA0, 0x1680, 0x2000, 0x2001,
                   0x2002, 0x2003, 0x2004, 0x2005, 0x2006, 0x2007, 0x2008, 0x2009, 0x200A, 0x2028, 0x2029, 0x202F,
                   0x205F, 0x3000}
  {
  }

  lemma {:induction false} LeftStrips(s: string) returns (left: string)
    ensures s == left + StripLeft(s) && AllSpaces(left)
    ensures StripLeft(s) != [] ==> !IsSpace(StripLeft(s)[0])
  {
    hide IsSpace;
    left := [];
    if s != [] && IsSpace(s[0]) {
      var rest := LeftStrips(s[1..]);
      left := [s[0]] + rest;
      assert [s[0]] + (rest + StripLeft(s)) == left + StripLeft(s);
      assert [s[0]] + s[1..] == s;
    }
  }

  lemma {:induction false} RightStrips(s: string) returns (right: string)
    ensures s == StripRight(s) + right && AllSpaces(right)
    ensures StripRight(s) != [] ==> !IsSpace(StripRight(s)[|StripRight(s)| - 1])
  {
    hide IsSpace;
    right := [];
    var n := |s| - 1;
    if s != [] && IsSpace(s[n]) {
      var rest := RightStrips(s[..n]);
      right := rest + [s[n]];
      assert (StripRight(s) + rest) + [s[n]] == StripRight(s) + right;
      assert s[..n] + [s[n]] == s;
    }
  }

  // Stripping takes the spaces from both ends, all of them and nothing else.
  lemma StripTrims(s: string)
    ensures exists left, right :: s == left + Strip(s) + right && AllSpaces(left) && AllSpaces(right)
    ensures Strip(s) != [] ==> !IsSpace(Strip(s)[0]) && !IsSpace(Strip(s)[|Strip(s)| - 1])
    ensures Strip(s) == [] <==> AllSpaces(s)
  {
    hide IsSpace, StripLeft, StripRight;
    var l := StripLeft(s);
    var left := LeftStrips(s);
    var right := RightStrips(l);
    assert s == left + Strip(s) + right;
    if Strip(s) != [] {
      assert l[0] == Strip(s)[0];
      assert Strip(s)[0] in s;
    }
  }

  // ---- UTF-8, section 3 of RFC 3629 ----

  function Utf8(c: char): (b: seq<Byte>)
    ensures b != []
  {
    var u := c as int;
    if u < 0x80 then [u]
    else if u < 0x800 then [0xC0 + u / 64, 0x80 + u % 64]
    else if u < 0x1_0000 then [0xE0 + u / 4096, 0x80 + u / 64 % 64, 0x80 + u % 64]
    else [0xF0 + u / 262144, 0x80 + u / 4096 % 64, 0x80 + u / 64 % 64, 0x80 + u % 64]
  }

  function EncodeUtf8(s: string): seq<Byte> {
    if s == [] then [] else Utf8(s[0]) + EncodeUtf8(s[1..])
  }

  const REPLACEMENT := 0xFFFD as char

  predicate ByteIn(b: seq<Byte>, i: nat, low: int, high: int) {
    i < |b| && low <= b[i] <= high
  }

  // The six bits of a continuation byte.
  function Tail(b: seq<Byte>, i: nat): int
    requires i < |b|
  {
    var v: int := b[i];
    v - 0x80
  }

  // The character at the start of b, and how many bytes it takes: a malformed
  // start is one replacement character for its longest valid prefix.
  function FirstChar(b: seq<Byte>): (r: (char, nat))
    requires b != []
    ensures 1 <= r.1 <= |b|
  {
    var lead: int := b[0];
    if lead < 0x80 then (lead as char, 1)
    else if 0xC2 <= lead <= 0xDF then
      if ByteIn(b, 1, 0x80, 0xBF) then ((64 * (lead - 0xC0) + Tail(b, 1)) as char, 2) else (REPLACEMENT, 1)
    else if 0xE0 <= lead <= 0xEF then
      if !ByteIn(b, 1, if lead == 0xE0 then 0xA0 else 0x80, if lead == 0xED then 0x9F else 0xBF) then (REPLACEMENT, 1)
      else if !ByteIn(b, 2, 0x80, 0xBF) then (REPLACEMENT, 2)
      else ((4096 * (lead - 0xE0) + 64 * Tail(b, 1) + Tail(b, 2)) as char, 3)
    else if 0xF0 <= lead <= 0xF4 then
      if !ByteIn(b, 1, if lead == 0xF0 then 0x90 else 0x80, if lead == 0xF4 then 0x8F else 0xBF) then (REPLACEMENT, 1)
      else if !ByteIn(b, 2, 0x80, 0xBF) then (REPLACEMENT, 2)
      else if !ByteIn(b, 3, 0x80, 0xBF) then (REPLACEMENT, 3)
      else ((262144 * (lead - 0xF0) + 4096 * Tail(b, 1) + 64 * Tail(b, 2) + Tail(b, 3)) as char, 4)
    else (REPLACEMENT, 1)
  }

  function DecodeUtf8(b: seq<Byte>): string {
    if b == [] then [] else
    var (c, n) := FirstChar(b);
    [c] + DecodeUtf8(b[n..])
  }

  lemma FirstCharOfUtf8(c: char, rest: seq<Byte>)
    ensures FirstChar(Utf8(c) + rest) == (c, |Utf8(c)|)
  {
    var u := c as int;
    if u < 0x80 {
    } else if u < 0x800 {
      TwoBytes(c, rest);
    } else if u < 0x1_0000 {
      ThreeBytes(c, rest);
    } else {
      FourBytes(c, rest);
    }
  }

  lemma TwoBytes(c: char, rest: seq<Byte>)
    requires 0x80 <= c as int < 0x800
    ensures FirstChar(Utf8(c) + rest) == (c, 2)
  {
    var u, b := c as int, Utf8(c) + rest;
    SixBits(u);
    assert (b[0], b[1]) == (0xC0 + u / 64, 0x80 + u % 64);
  }

  lemma ThreeBytes(c: char, rest: seq<Byte>)
    requires 0x800 <= c as int < 0x1_0000
    ensures FirstChar(Utf8(c) + rest) == (c, 3)
  {
    var u, b := c as int, Utf8(c) + rest;
    SixBits(u);
    SixBits(u / 64);
    SecondByte(u);
    assert (b[0], b[1], b[2]) == (0xE0 + u / 4096, 0x80 + u / 64 % 64, 0x80 + u % 64);
  }

  lemma FourBytes(c: char, rest: seq<Byte>)
    requires 0x1_0000 <= c as int
    ensures FirstChar(Utf8(c) + rest) == (c, 4)
  {
    var u, b := c as int, Utf8(c) + rest;
    SixBits(u);
    SixBits(u / 64);
    SecondByte(u);
    assert (b[0], b[1], b[2], b[3])
        == (0xF0 + u / 262144, 0x80 + u / 4096 % 64, 0x80 + u / 64 % 64, 0x80 + u % 64);
  }

  lemma SixBits(u: nat)
    ensures u == 64 * (u / 64) + u % 64 && 0 <= u % 64 < 64
    ensures u / 64 / 64 == u / 4096 && u / 64 / 64 / 64 == u / 262144 && u / 4096 / 64 == u / 262144
    ensures u / 4096 == 64 * (u / 262144) + u / 4096 % 64
  {
  }

  // Neither overlong nor a surrogate nor out of range.
  lemma SecondByte(u: nat)
    requires 0x800 <= u < 0xD800 || 0xE000 <= u < 0x11_0000
    ensures u < 0x1000 ==> u / 64 % 64 >= 0x20
    ensures u / 4096 == 0xD ==> u / 64 % 64 < 0x20
    ensures 0x1_0000 <= u < 0x4_0000 ==> u / 4096 % 64 >= 0x10
    ensures u >= 0x10_0000 ==> u / 4096 % 64 < 0x10
  {
    SixBits(u);
    SixBits(u / 64);
  }

  lemma {:induction false} Utf8RoundTrip(s: string)
    ensures DecodeUtf8(EncodeUtf8(s)) == s
  {
    hide FirstChar, Utf8;
    if s != [] {
      FirstCharOfUtf8(s[0], EncodeUtf8(s[1..]));
      assert EncodeUtf8(s)[|Utf8(s[0])|..] == EncodeUtf8(s[1..]);
      Utf8RoundTrip(s[1..]);
    }
  }

  // ---- percent-encoding, section 2.1 of RFC 3986 ----

  predicate IsAscii(c: char) {
    c as int < 0x80
  }

  predicate AllAscii(s: string) {
    forall c :: c in s ==> IsAscii(c)
  }

  // urllib.parse.unquote_to_bytes: an escape without two hex digits stays as it is.
  function UnquoteToBytes(s: string): seq<Byte>
    requires AllAscii(s)
  {
    if s == [] then []
    else if s[0] == '%' && |s| > 2 && HexValue(s[1]).Some? && HexValue(s[2]).Some? then
      [16 * HexValue(s[1]).value + HexValue(s[2]).value] + UnquoteToBytes(s[3..])
    else
      assert IsAscii(s[0]);
      [s[0] as int] + UnquoteToBytes(s[1..])
  }

  // The length of the run of ASCII characters at the start.
  function AsciiRun(s: string): (n: nat)
    ensures n <= |s| && AllAscii(s[..n]) && (n < |s| ==> !IsAscii(s[n]))
  {
    if s == [] || !IsAscii(s[0]) then 0 else
    var n := AsciiRun(s[1..]);
    assert s[..1 + n] == [s[0]] + s[1..][..n];
    1 + n
  }

  // urllib.parse.unquote: runs of ASCII are decoded, other characters pass.
  function Unquote(s: string): string
    decreases |s|
  {
    if s == [] then []
    else if IsAscii(s[0]) then
      var n := AsciiRun(s);
      DecodeUtf8(UnquoteToBytes(s[..n])) + Unquote(s[n..])
    else
      [s[0]] + Unquote(s[1..])
  }

  predicate IsHexDigit(c: char) {
    '0' <= c <= '9' || 'a' <= c <= 'f' || 'A' <= c <= 'F'
  }

  // No percent sign is followed by two hex digits.
  predicate NoEscapes(s: string) {
    forall i :: 0 <= i < |s| - 2 ==> !(s[i] == '%' && IsHexDigit(s[i + 1]) && IsHexDigit(s[i + 2]))
  }

  lemma {:induction false} PlainBytes(s: string)
    requires AllAscii(s) && NoEscapes(s)
    ensures DecodeUtf8(UnquoteToBytes(s)) == s
  {
    hide NoEscapes, HexValue, FirstChar;
    if s != [] {
      assert s[0] in s;
      Shorter(s, 1, |s|);
      assert s[1..|s|] == s[1..];
      NotAnEscape(s);
      PlainBytes(s[1..]);
      var bytes := UnquoteToBytes(s);
      assert bytes[0] == s[0] as int && bytes[1..] == UnquoteToBytes(s[1..]);
      AsciiFirst(bytes);
      assert [s[0]] + s[1..] == s;
    }
  }

  lemma AsciiFirst(b: seq<Byte>)
    requires b != [] && b[0] < 0x80
    ensures FirstChar(b) == (b[0] as char, 1)
  {
  }

  lemma NotAnEscape(s: string)
    requires NoEscapes(s)
    ensures |s| > 2 && s[0] == '%' ==> HexValue(s[1]).None? || HexValue(s[2]).None?
  {
  }

  lemma Shorter(s: string, from: nat, to: nat)
    requires NoEscapes(s) && from <= to <= |s|
    ensures NoEscapes(s[from..to])
  {
    var t := s[from..to];
    forall i | 0 <= i < |t| - 2 ensures !(t[i] == '%' && IsHexDigit(t[i + 1]) && IsHexDigit(t[i + 2])) {
      assert t[i] == s[from + i] && t[i + 1] == s[from + i + 1] && t[i + 2] == s[from + i + 2];
    }
  }

  // A string without an escape means itself: a percent sign that two hex digits
  // do not follow stays, and so does every character that is not ASCII.
  lemma {:induction false} PlainTextUnquotesToItself(s: string)
    requires NoEscapes(s)
    ensures Unquote(s) == s
    decreases |s|
  {
    hide NoEscapes, UnquoteToBytes, DecodeUtf8, AllAscii;
    if s != [] {
      if IsAscii(s[0]) {
        var n := AsciiRun(s);
        Shorter(s, 0, n);
        Shorter(s, n, |s|);
        assert s[0..n] == s[..n] && s[n..|s|] == s[n..];
        PlainBytes(s[..n]);
        PlainTextUnquotesToItself(s[n..]);
        assert s == s[..n] + s[n..];
      } else {
        Shorter(s, 1, |s|);
        assert s[1..|s|] == s[1..];
        PlainTextUnquotesToItself(s[1..]);
        assert [s[0]] + s[1..] == s;
      }
    }
  }

  // Malformed UTF-8 becomes one replacement character for each longest valid
  // prefix of a character, and one for each byte that starts none.
  lemma MalformedUtf8()
    ensures FirstChar([0xFF, 0x41]) == (REPLACEMENT, 1)        // no lead byte
    ensures FirstChar([0x80, 0x41]) == (REPLACEMENT, 1)        // a continuation alone
    ensures FirstChar([0xC0, 0x80]) == (REPLACEMENT, 1)        // overlong
    ensures FirstChar([0xE0, 0x80, 0x80]) == (REPLACEMENT, 1)  // overlong
    ensures FirstChar([0xED, 0xA0, 0x80]) == (REPLACEMENT, 1)  // a surrogate
    ensures FirstChar([0xF4, 0x90, 0x80, 0x80]) == (REPLACEMENT, 1)  // out of range
    ensures FirstChar([0xE2, 0x82]) == (REPLACEMENT, 2)        // cut short
    ensures FirstChar([0xE2, 0x82, 0x41]) == (REPLACEMENT, 2)
    ensures FirstChar([0xF0, 0x9F, 0x98, 0x41]) == (REPLACEMENT, 3)
    ensures REPLACEMENT as int == 0xFFFD
  {
  }

  // ---- _parse_headers ----

  // The entry that is not key=value.
  datatype ConfigError = MalformedEntry(entry: string)

  predicate IsBlank(entry: string) {
    Strip(entry) == []
  }

  function KeyOf(entry: string): string
    requires Partition(entry, '=').Some?
  {
    Unquote(Strip(Partition(entry, '=').value.0))
  }

  function ValueOf(entry: string): string
    requires Partition(entry, '=').Some?
  {
    Unquote(Strip(Partition(entry, '=').value.1))
  }

  // The map after these entries, or the first malformed one.
  function Filled(entries: seq<string>): Result<map<string, string>, ConfigError> {
    if entries == [] then Ok(map[]) else
    var headers :- Filled(entries[..|entries| - 1]);
    var entry := entries[|entries| - 1];
    if IsBlank(entry) then Ok(headers)
    else if Partition(entry, '=').None? then Raised(MalformedEntry(entry))
    else Ok(headers[KeyOf(entry) := ValueOf(entry)])
  }

  method ParseHeaders(raw: string) returns (r: Result<map<string, string>, ConfigError>)
    ensures r == Filled(Split(raw, ','))
  {
    hide Strip, Partition, Split, Unquote;
    var entries := Split(raw, ',');
    var headers: map<string, string> := map[];
    var i := 0;
    while i < |entries|
      invariant i <= |entries|
      invariant Filled(entries[..i]) == Ok(headers)
    {
      var entry := entries[i];
      assert entries[..i + 1][..i] == entries[..i];
      if Strip(entry) != [] {
        var parts := Partition(entry, '=');
        if parts.None? {
          MalformedStays(entries, i + 1);
          return Raised(MalformedEntry(entry));
        }
        headers := headers[Unquote(Strip(parts.value.0)) := Unquote(Strip(parts.value.1))];
      }
      i := i + 1;
    }
    assert entries[..i] == entries;
    r := Ok(headers);
  }

  // Nothing after a malformed entry is looked at.
  lemma {:induction false} MalformedStays(entries: seq<string>, n: nat)
    requires n <= |entries| && Filled(entries[..n]).Raised?
    ensures Filled(entries) == Filled(entries[..n])
  {
    hide Strip, Partition, Unquote;
    if n == |entries| {
      assert entries[..n] == entries;
    } else {
      assert entries[..|entries| - 1][..n] == entries[..n];
      MalformedStays(entries[..|entries| - 1], n);
    }
  }

  // Not blank, and without a "=".
  predicate Malformed(entry: string) {
    '=' !in entry && !AllSpaces(entry)
  }

  lemma MalformedIs(entry: string)
    ensures Malformed(entry) <==> !IsBlank(entry) && Partition(entry, '=').None?
  {
    StripTrims(entry);
    PartitionSplits(entry, '=');
  }

  // Parsing fails exactly when some entry has no "=" and is not all spaces, and
  // names the first of them.
  lemma {:induction false} FailsExactlyOnMalformedEntries(entries: seq<string>)
    ensures Filled(entries).Raised? <==> exists i :: 0 <= i < |entries| && Malformed(entries[i])
    ensures Filled(entries).Raised? ==>
      exists i :: 0 <= i < |entries| && Filled(entries).error == MalformedEntry(entries[i]) && Malformed(entries[i])
                  && forall j :: 0 <= j < i ==> !Malformed(entries[j])
  {
    hide IsBlank, Partition, Unquote, Strip, Malformed;
    if entries != [] {
      var before := entries[..|entries| - 1];
      FailsExactlyOnMalformedEntries(before);
      assert forall i :: 0 <= i < |before| ==> before[i] == entries[i];
      MalformedIs(entries[|before|]);
      if Malformed(entries[|entries| - 1]) {
        assert Malformed(entries[|before|]);
      }
    }
  }

  predicate Gives(entry: string, key: string) {
    !IsBlank(entry) && Partition(entry, '=').Some? && KeyOf(entry) == key
  }

  // The key and the value of an entry: what stands before and after its first
  // "=", without the spaces around, and percent-decoded.
  lemma EntryParts(before: string, after: string, left: string, key: string, right: string)
    requires '=' !in before && before == left + key + right && AllSpaces(left) && AllSpaces(right)
    requires key != [] ==> !IsSpace(key[0]) && !IsSpace(key[|key| - 1])
    ensures var entry := before + ['='] + after;
      && !IsBlank(entry) && Partition(entry, '=') == Some((before, after))
      && KeyOf(entry) == Unquote(key) && ValueOf(entry) == Unquote(Strip(after))
  {
    hide Strip, Unquote;
    FirstSeparator(before, after, '=');
    NotBlank(before + ['='] + after, '=');
    StripIsUnique(left, key, right);
  }

  lemma StripIsUnique(left: string, middle: string, right: string)
    requires AllSpaces(left) && AllSpaces(right)
    requires middle != [] ==> !IsSpace(middle[0]) && !IsSpace(middle[|middle| - 1])
    ensures Strip(left + middle + right) == middle
  {
    var s := left + middle + right;
    StripTrims(s);
    if middle == [] {
      assert AllSpaces(s);
    } else {
      DropLeft(left, middle + right);
      assert s == left + (middle + right);
      DropRight(middle, right);
    }
  }

  lemma {:induction false} DropLeft(left: string, s: string)
    requires AllSpaces(left) && s != [] && !IsSpace(s[0])
    ensures StripLeft(left + s) == s
  {
    if left == [] {
      assert left + s == s;
    } else {
      assert left[0] in left && forall c :: c in left[1..] ==> c in left;
      assert (left + s)[1..] == left[1..] + s;
      DropLeft(left[1..], s);
    }
  }

  lemma {:induction false} DropRight(s: string, right: string)
    requires AllSpaces(right) && s != [] && !IsSpace(s[|s| - 1])
    ensures StripRight(s + right) == s
  {
    if right == [] {
      assert s + right == s;
    } else {
      var n := |right| - 1;
      assert right[n] in right && forall c :: c in right[..n] ==> c in right;
      assert (s + right)[..|s + right| - 1] == s + right[..n];
      DropRight(s, right[..n]);
    }
  }

  // Each key that some entry gives has the value of the last entry that gives
  // it, and there are no other keys.
  lemma {:induction false} LastOccurrenceWins(entries: seq<string>, key: string)
    requires Filled(entries).Ok?
    ensures key in Filled(entries).value <==> exists i :: 0 <= i < |entries| && Gives(entries[i], key)
    ensures forall i :: 0 <= i < |entries| && Gives(entries[i], key)
                        && (forall j :: i < j < |entries| ==> !Gives(entries[j], key))
                        ==> Filled(entries).value[key] == ValueOf(entries[i])
  {
    hide IsBlank, Partition, Unquote, Strip;
    if entries != [] {
      var before := entries[..|entries| - 1];
      LastOccurrenceWins(before, key);
      var last := entries[|entries| - 1];
      assert entries == before + [last];
      if Gives(last, key) {
        assert Gives(entries[|before|], key);
      } else {
        assert forall i :: 0 <= i < |before| ==> before[i] == entries[i];
      }
    }
  }

  // ---- a printer ----

  // Characters a printer may leave as they are.
  predicate Harmless(c: char) {
    IsAscii(c) && c != '%' && c != ',' && c != '=' && !IsSpace(c)
  }

  // How a printer writes: what it leaves as it is, the case of its hex digits,
  // and the blanks it puts around keys and values.
  datatype Style = Style(safe: set<char>, upper: bool, left: string, right: string) {
    predicate Good() {
      && (forall c :: c in safe ==> Harmless(c))
      && (forall c :: c in left + right ==> c == ' ' || c == '\t')
    }
  }

  function HexDigit(upper: bool, d: int): char
    requires 0 <= d < 16
  {
    if d < 10 then ('0' as int + d) as char
    else if upper then ('A' as int + d - 10) as char
    else ('a' as int + d - 10) as char
  }

  function EscapeByte(upper: bool, b: Byte): string {
    ['%', HexDigit(upper, b / 16), HexDigit(upper, b % 16)]
  }

  function EscapeBytes(upper: bool, b: seq<Byte>): string {
    if b == [] then [] else EscapeByte(upper, b[0]) + EscapeBytes(upper, b[1..])
  }

  // Percent-encoding of everything the printer does not think safe.
  function Quote(style: Style, s: string): string {
    if s == [] then []
    else (if s[0] in style.safe then [s[0]] else EscapeBytes(style.upper, Utf8(s[0]))) + Quote(style, s[1..])
  }

  function Padded(style: Style, s: string): string {
    style.left + Quote(style, s) + style.right
  }

  function PrintEntry(style: Style, pair: (string, string)): string {
    Padded(style, pair.0) + "=" + Padded(style, pair.1)
  }

  function PrintEntries(style: Style, pairs: seq<(string, string)>): seq<string> {
    seq(|pairs|, i requires 0 <= i < |pairs| => PrintEntry(style, pairs[i]))
  }

  function PrintHeaders(style: Style, pairs: seq<(string, string)>): string {
    Join(PrintEntries(style, pairs), ',')
  }

  // ---- reading what was printed ----

  // Nothing the header syntax cares about.
  predicate Clean(s: string) {
    forall c :: c in s ==> IsAscii(c) && !IsSpace(c) && c != ',' && c != '='
  }

  lemma CleanConcat(s: string, t: string)
    requires Clean(s) && Clean(t)
    ensures Clean(s + t)
  {
  }

  lemma {:induction false} EscapeBytesIsClean(upper: bool, b: seq<Byte>)
    ensures Clean(EscapeBytes(upper, b))
  {
    if b != [] {
      EscapeBytesIsClean(upper, b[1..]);
      CleanConcat(EscapeByte(upper, b[0]), EscapeBytes(upper, b[1..]));
    }
  }

  lemma {:induction false} QuoteIsClean(style: Style, s: string)
    requires style.Good()
    ensures Clean(Quote(style, s))
  {
    if s != [] {
      QuoteIsClean(style, s[1..]);
      EscapeBytesIsClean(style.upper, Utf8(s[0]));
      CleanConcat(if s[0] in style.safe then [s[0]] else EscapeBytes(style.upper, Utf8(s[0])), Quote(style, s[1..]));
    }
  }

  lemma HexPair(upper: bool, b: Byte)
    ensures HexValue(HexDigit(upper, b / 16)).Some? && HexValue(HexDigit(upper, b % 16)).Some?
    ensures 16 * HexValue(HexDigit(upper, b / 16)).value + HexValue(HexDigit(upper, b % 16)).value == b
  {
  }

  lemma EscapesAreAscii(upper: bool, b: seq<Byte>, rest: string)
    requires AllAscii(rest)
    ensures AllAscii(EscapeBytes(upper, b) + rest)
  {
    hide EscapeBytes, IsSpace;
    EscapeBytesIsClean(upper, b);
  }

  // One escape gives its byte back.
  lemma EscapeIsRead(upper: bool, b: Byte, rest: string)
    requires AllAscii(rest) && AllAscii(EscapeByte(upper, b) + rest)
    ensures UnquoteToBytes(EscapeByte(upper, b) + rest) == [b] + UnquoteToBytes(rest)
  {
    hide HexDigit, HexValue, AllAscii;
    HexPair(upper, b);
    assert (EscapeByte(upper, b) + rest)[3..] == rest;
  }

  lemma {:induction false} EscapeRoundTrip(upper: bool, b: seq<Byte>, rest: string)
    requires AllAscii(rest)
    ensures AllAscii(EscapeBytes(upper, b) + rest)
    ensures UnquoteToBytes(EscapeBytes(upper, b) + rest) == b + UnquoteToBytes(rest)
  {
    hide AllAscii, Clean, UnquoteToBytes, EscapeByte;
    EscapesAreAscii(upper, b, rest);
    if b == [] {
      assert EscapeBytes(upper, b) + rest == rest;
    } else {
      var more := EscapeBytes(upper, b[1..]) + rest;
      EscapeRoundTrip(upper, b[1..], rest);
      assert EscapeBytes(upper, b) + rest == EscapeByte(upper, b[0]) + more;
      EscapeIsRead(upper, b[0], more);
      assert b == [b[0]] + b[1..];
    }
  }

  lemma {:induction false} QuoteRoundTrip(style: Style, s: string)
    requires style.Good()
    ensures AllAscii(Quote(style, s))
    ensures UnquoteToBytes(Quote(style, s)) == EncodeUtf8(s)
  {
    QuoteIsClean(style, s);
    if s != [] {
      var c := s[0];
      QuoteRoundTrip(style, s[1..]);
      if c in style.safe {
        assert Harmless(c);
        assert Quote(style, s)[1..] == Quote(style, s[1..]);
      } else {
        EscapeRoundTrip(style.upper, Utf8(c), Quote(style, s[1..]));
      }
    }
  }

  lemma {:induction false} RunOfAscii(s: string)
    requires AllAscii(s)
    ensures AsciiRun(s) == |s|
  {
    if s != [] {
      assert s[0] in s;
      RunOfAscii(s[1..]);
    }
  }

  // Decoding inverts every such percent-encoding.
  lemma UnquoteInvertsQuote(style: Style, s: string)
    requires style.Good()
    ensures Unquote(Quote(style, s)) == s
  {
    var q := Quote(style, s);
    QuoteRoundTrip(style, s);
    Utf8RoundTrip(s);
    if q != [] {
      RunOfAscii(q);
      assert q[..|q|] == q && q[|q|..] == [];
      assert IsAscii(q[0]);
    }
  }

  lemma {:induction false} FirstSeparator(s: string, t: string, sep: char)
    requires sep !in s
    ensures Partition(s + [sep] + t, sep) == Some((s, t))
  {
    if s == [] {
      assert (s + [sep] + t)[1..] == t;
    } else {
      assert s[0] in s;
      assert (s + [sep] + t)[1..] == s[1..] + [sep] + t;
      FirstSeparator(s[1..], t, sep);
      assert [s[0]] + s[1..] == s;
    }
  }

  lemma {:induction false} SplitOnce(s: string, sep: char)
    requires sep !in s
    ensures Split(s, sep) == [s]
  {
    if s != [] {
      assert s[0] in s;
      SplitOnce(s[1..], sep);
      assert [s[0]] + s[1..] == s;
    }
  }

  lemma {:induction false} SplitFirst(s: string, t: string, sep: char)
    requires sep !in s
    ensures Split(s + [sep] + t, sep) == [s] + Split(t, sep)
  {
    if s == [] {
      assert (s + [sep] + t)[1..] == t;
    } else {
      assert s[0] in s;
      assert (s + [sep] + t)[1..] == s[1..] + [sep] + t;
      SplitFirst(s[1..], t, sep);
      assert [s[0]] + s[1..] == s;
      assert ([s[1..]] + Split(t, sep))[1..] == Split(t, sep);
    }
  }

  lemma {:induction false} SplitInvertsJoin(parts: seq<string>, sep: char)
    requires parts != [] && forall p :: p in parts ==> sep !in p
    ensures Split(Join(parts, sep), sep) == parts
  {
    assert parts[0] in parts;
    if |parts| == 1 {
      SplitOnce(parts[0], sep);
    } else {
      SplitInvertsJoin(parts[1..], sep);
      SplitFirst(parts[0], Join(parts[1..], sep), sep);
      assert parts[0] + [sep] + Join(parts[1..], sep) == Join(parts, sep);
    }
  }

  // Splitting loses nothing.
  lemma {:induction false} JoinInvertsSplit(s: string, sep: char)
    ensures Join(Split(s, sep), sep) == s
    ensures forall p :: p in Split(s, sep) ==> sep !in p
  {
    if s != [] {
      JoinInvertsSplit(s[1..], sep);
      var rest := Split(s[1..], sep);
      if s[0] == sep {
        assert Split(s, sep)[1..] == rest;
      } else {
        assert Split(s, sep)[1..] == rest[1..];
        assert rest[0] in rest;
      }
    }
  }

  lemma {:induction false} NotBlank(s: string, c: char)
    requires c in s && !IsSpace(c)
    ensures Strip(s) != []
  {
    StripLeftKeeps(s, c);
    StripRightKeeps(StripLeft(s), c);
  }

  lemma {:induction false} StripLeftKeeps(s: string, c: char)
    requires c in s && !IsSpace(c)
    ensures c in StripLeft(s)
  {
    if IsSpace(s[0]) { StripLeftKeeps(s[1..], c); }
  }

  lemma {:induction false} StripRightKeeps(s: string, c: char)
    requires c in s && !IsSpace(c)
    ensures c in StripRight(s)
  {
    if IsSpace(s[|s| - 1]) { StripRightKeeps(s[..|s| - 1], c); }
  }

  lemma PaddedStrips(style: Style, s: string)
    requires style.Good()
    ensures Strip(Padded(style, s)) == Quote(style, s)
    ensures ',' !in Padded(style, s) && '=' !in Padded(style, s)
    ensures AllSpaces(style.left) && AllSpaces(style.right)
  {
    hide Strip, Quote;
    var q := Quote(style, s);
    QuoteIsClean(style, s);
    forall c | c in style.left || c in style.right ensures IsSpace(c) && c != ',' && c != '=' {
      assert c in style.left + style.right;
    }
    if q != [] { assert q[0] in q && q[|q| - 1] in q; }
    StripIsUnique(style.left, q, style.right);
  }

  // A printed entry is read as the pair it was printed from.
  lemma EntryRoundTrip(style: Style, pair: (string, string))
    requires style.Good()
    ensures var entry := PrintEntry(style, pair);
      && ',' !in entry && !IsBlank(entry) && Partition(entry, '=').Some?
      && KeyOf(entry) == pair.0 && ValueOf(entry) == pair.1
  {
    hide Strip, Unquote, Quote, Padded;
    var entry := PrintEntry(style, pair);
    var k, v := Padded(style, pair.0), Padded(style, pair.1);
    PaddedStrips(style, pair.0);
    PaddedStrips(style, pair.1);
    assert entry == k + ['='] + v;
    FirstSeparator(k, v, '=');
    NotBlank(entry, '=');
    UnquoteInvertsQuote(style, pair.0);
    UnquoteInvertsQuote(style, pair.1);
  }

  // The map a list of pairs stands for: the last pair of a key counts.
  function MapOf(pairs: seq<(string, string)>): map<string, string> {
    if pairs == [] then map[]
    else MapOf(pairs[..|pairs| - 1])[pairs[|pairs| - 1].0 := pairs[|pairs| - 1].1]
  }

  lemma {:induction false} EntriesRoundTrip(style: Style, pairs: seq<(string, string)>)
    requires style.Good()
    ensures Filled(PrintEntries(style, pairs)) == Ok(MapOf(pairs))
  {
    hide PrintEntry, KeyOf, ValueOf, IsBlank, Partition;
    if pairs != [] {
      var before := pairs[..|pairs| - 1];
      EntriesRoundTrip(style, before);
      assert PrintEntries(style, pairs)[..|before|] == PrintEntries(style, before);
      EntryRoundTrip(style, pairs[|before|]);
    }
  }

  // Parsing what was printed from a list of pairs, none included, gives their
  // map, whatever the keys and values contain.
  lemma {:induction false} ParseInvertsPrint(style: Style, pairs: seq<(string, string)>)
    requires style.Good()
    ensures Filled(Split(PrintHeaders(style, pairs), ',')) == Ok(MapOf(pairs))
  {
    var entries := PrintEntries(style, pairs);
    if pairs == [] {
      assert Split(PrintHeaders(style, pairs), ',') == [""];
      assert [""][..0] == [];
    } else {
      forall p | p in entries ensures ',' !in p {
        var i :| 0 <= i < |entries| && entries[i] == p;
        EntryRoundTrip(style, pairs[i]);
      }
      SplitInvertsJoin(entries, ',');
      EntriesRoundTrip(style, pairs);
    }
  }

  // So every header map comes back, in whatever order its entries are printed.
  lemma HeaderMapsRoundTrip(style: Style, headers: map<string, string>, pairs: seq<(string, string)>)
    requires style.Good()
    requires forall p :: p in pairs <==> p.0 in headers && headers[p.0] == p.1
    ensures Filled(Split(PrintHeaders(style, pairs), ',')) == Ok(headers)
  {
    ParseInvertsPrint(style, pairs);
    Enumerated(headers, pairs);
    assert forall k :: k in headers ==> (k, headers[k]) in pairs;
    assert MapOf(pairs) == headers;
  }

  lemma {:induction false} Enumerated(headers: map<string, string>, pairs: seq<(string, string)>)
    requires forall p :: p in pairs ==> p.0 in headers && headers[p.0] == p.1
    ensures forall k :: k in MapOf(pairs) ==> k in headers && MapOf(pairs)[k] == headers[k]
    ensures forall p :: p in pairs ==> p.0 in MapOf(pairs)
  {
    if pairs != [] {
      var last := pairs[|pairs| - 1];
      assert pairs == pairs[..|pairs| - 1] + [last];
      Enumerated(headers, pairs[..|pairs| - 1]);
    }
  }
}
