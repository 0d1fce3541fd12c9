/**
 * The unpadded base64url of section 5 of RFC 4648, as the two conversions build it from the
 * platform's padded base64.
 */
module Base64Url {
  import opened Basics

  type byte = x: int | 0 <= x < 256

  // ---------------------------------------------------------------------
  // The platform's base64
  // ---------------------------------------------------------------------

  /** One symbol of the standard alphabet. */
  function Symbol(n: nat): char
    requires n < 64
  {
    if n < 26 then ('A' as int + n) as char
    else if n < 52 then ('a' as int + n - 26) as char
    else if n < 62 then ('0' as int + n - 52) as char
    else if n == 62 then '+'
    else '/'
  }

  function Bits(c: char): (bits: Option<nat>)
    ensures bits.Some? ==> bits.value < 64
  {
    if 'A' <= c <= 'Z' then Some(c as int - 'A' as int)
    else if 'a' <= c <= 'z' then Some(c as int - 'a' as int + 26)
    else if '0' <= c <= '9' then Some(c as int - '0' as int + 52)
    else if c == '+' then Some(62)
    else if c == '/' then Some(63)
    else None
  }

  function Three(x: byte, y: byte, z: byte): (r: string)
    ensures |r| == 4
  {
    [Symbol(x / 4), Symbol(x % 4 * 16 + y / 16), Symbol(y % 16 * 4 + z / 64), Symbol(z % 64)]
  }

  function Btoa(bytes: seq<byte>): string
    decreases |bytes|
  {
    if bytes == [] then ""
    else if |bytes| == 1 then [Symbol(bytes[0] / 4), Symbol(bytes[0] % 4 * 16), '=', '=']
    else if |bytes| == 2 then
      [Symbol(bytes[0] / 4), Symbol(bytes[0] % 4 * 16 + bytes[1] / 16), Symbol(bytes[1] % 16 * 4), '=']
    else Three(bytes[0], bytes[1], bytes[2]) + Btoa(bytes[3..])
  }

  function Pair(a: Option<nat>, b: Option<nat>): Option<seq<byte>>
    requires (a.Some? ==> a.value < 64) && (b.Some? ==> b.value < 64)
  {
    if a.None? || b.None? then None else Some([a.value * 4 + b.value / 16])
  }

  function Triple(a: Option<nat>, b: Option<nat>, c: Option<nat>): Option<seq<byte>>
    requires (a.Some? ==> a.value < 64) && (b.Some? ==> b.value < 64) && (c.Some? ==> c.value < 64)
  {
    if a.None? || b.None? || c.None? then None
    else Some([a.value * 4 + b.value / 16, b.value % 16 * 16 + c.value / 4])
  }

  function Quad(a: Option<nat>, b: Option<nat>, c: Option<nat>, d: Option<nat>): Option<seq<byte>>
    requires (a.Some? ==> a.value < 64) && (b.Some? ==> b.value < 64) && (c.Some? ==> c.value < 64)
    requires (d.Some? ==> d.value < 64)
  {
    if a.None? || b.None? || c.None? || d.None? then None
    else Some([a.value * 4 + b.value / 16, b.value % 16 * 16 + c.value / 4, c.value % 4 * 64 + d.value])
  }

  /** Decode text without padding; spare bits of a last, shorter group are dropped. */
  function Groups(text: string): Option<seq<byte>>
    decreases |text|
  {
    if text == "" then Some([])
    else if |text| == 1 then None
    else if |text| == 2 then Pair(Bits(text[0]), Bits(text[1]))
    else if |text| == 3 then Triple(Bits(text[0]), Bits(text[1]), Bits(text[2]))
    else
      var first, rest := Quad(Bits(text[0]), Bits(text[1]), Bits(text[2]), Bits(text[3])), Groups(text[4..]);
      if first.None? || rest.None? then None else Some(first.value + rest.value)
  }

  function Unpad(text: string, atMost: nat): string
    decreases atMost
  {
    if atMost == 0 || text == "" || text[|text| - 1] != '=' then text else Unpad(text[..|text| - 1], atMost - 1)
  }

  /** The platform's decoder, for text without white space. `None` is its exception. */
  function Atob(text: string): Option<seq<byte>> {
    Groups(if |text| % 4 == 0 then Unpad(text, 2) else text)
  }

  // ---------------------------------------------------------------------
  // The two conversions
  // ---------------------------------------------------------------------

  function UrlSafe(c: char): char {
    if c == '+' then '-' else if c == '/' then '_' else c
  }

  function Standard(c: char): char {
    if c == '-' then '+' else if c == '_' then '/' else c
  }

  function Map(f: char -> char, s: string): (r: string)
    ensures |r| == |s| && forall i :: 0 <= i < |s| ==> r[i] == f(s[i])
  {
    if s == "" then "" else Map(f, s[..|s| - 1]) + [f(s[|s| - 1])]
  }

  function StripPadding(s: string): string {
    if s == "" || s[|s| - 1] != '=' then s else StripPadding(s[..|s| - 1])
  }

  function Encode(bytes: seq<byte>): string {
    StripPadding(Map(UrlSafe, Btoa(bytes)))
  }

  function Padding(n: nat): string {
    if n % 4 == 0 then "" else seq(4 - n % 4, _ => '=')
  }

  function Decode(text: string): Option<seq<byte>> {
    Atob(Map(Standard, text) + Padding(|text|))
  }

  method BufToBase64Url(bytes: seq<byte>) returns (text: string)
    ensures text == Encode(bytes)
  {
    var binary: seq<char> := [];
    for i := 0 to |bytes|
      invariant |binary| == i && forall k :: 0 <= k < i ==> binary[k] as int == bytes[k]
    {
      binary := binary + [bytes[i] as char];
    }
    assert Codes(binary) == bytes;
    text := StripPadding(Map(UrlSafe, Btoa(Codes(binary))));
  }

  function Codes(binary: seq<char>): (codes: seq<byte>)
    requires forall i :: 0 <= i < |binary| ==> binary[i] as int < 256
    ensures |codes| == |binary| && forall i :: 0 <= i < |binary| ==> codes[i] == binary[i] as int
  {
    seq(|binary|, i requires 0 <= i < |binary| => binary[i] as int)
  }

  method Base64UrlToBuf(text: string) returns (bytes: Option<seq<byte>>)
    ensures bytes == Decode(text)
  {
    var binary := Atob(Map(Standard, text) + Padding(|text|));
    if binary.None? {
      return None;
    }
    var codes := binary.value;
    var buffer := new byte[|codes|](_ => 0);
    for i := 0 to |codes|
      invariant buffer[..i] == codes[..i]
    {
      buffer[i] := codes[i];
    }
    assert buffer[..] == buffer[..|codes|] == codes[..|codes|] == codes;
    return Some(buffer[..]);
  }

  // ---------------------------------------------------------------------
  // The round trip
  // ---------------------------------------------------------------------

  predicate UrlAlphabet(c: char) {
    'A' <= c <= 'Z' || 'a' <= c <= 'z' || '0' <= c <= '9' || c == '-' || c == '_'
  }

  /** The text of `Btoa` without its padding. */
  function Core(bytes: seq<byte>): string
    decreases |bytes|
  {
    if bytes == [] then ""
    else if |bytes| == 1 then [Symbol(bytes[0] / 4), Symbol(bytes[0] % 4 * 16)]
    else if |bytes| == 2 then
      [Symbol(bytes[0] / 4), Symbol(bytes[0] % 4 * 16 + bytes[1] / 16), Symbol(bytes[1] % 16 * 4)]
    else Three(bytes[0], bytes[1], bytes[2]) + Core(bytes[3..])
  }

  lemma SymbolBits(n: nat)
    requires n < 64
    ensures Bits(Symbol(n)) == Some(n) && Symbol(n) != '='
    ensures UrlAlphabet(UrlSafe(Symbol(n))) && Standard(UrlSafe(Symbol(n))) == Symbol(n)
  {
  }

  ghost predicate IsSymbol(c: char) {
    exists n: nat :: n < 64 && c == Symbol(n)
  }

  lemma ThreeSymbols(x: byte, y: byte, z: byte)
    ensures forall i :: 0 <= i < 4 ==> IsSymbol(Three(x, y, z)[i])
  {
  }

  lemma {:induction false} CoreSymbols(bytes: seq<byte>)
    ensures forall i :: 0 <= i < |Core(bytes)| ==> IsSymbol(Core(bytes)[i])
    decreases |bytes|
  {
    if |bytes| > 2 {
      CoreSymbols(bytes[3..]);
      ThreeSymbols(bytes[0], bytes[1], bytes[2]);
    }
  }

  lemma {:induction false} CoreShape(bytes: seq<byte>)
    ensures |Core(bytes)| == (4 * |bytes| + 2) / 3 && |Core(bytes)| % 4 != 1
    ensures Btoa(bytes) == Core(bytes) + Padding(|Core(bytes)|)
    decreases |bytes|
  {
    if |bytes| > 2 {
      CoreShape(bytes[3..]);
      var rest := Core(bytes[3..]);
      assert Padding(|rest| + 4) == Padding(|rest|);
    }
  }

  lemma {:induction false} CoreDecodes(bytes: seq<byte>)
    ensures Groups(Core(bytes)) == Some(bytes)
    decreases |bytes|
  {
    if |bytes| == 1 {
      OneDecodes(bytes);
    } else if |bytes| == 2 {
      TwoDecodes(bytes);
    } else if |bytes| > 2 {
      CoreDecodes(bytes[3..]);
      ThreeDecodes(bytes, Core(bytes[3..]));
    }
  }

  lemma TwoDecodes(bytes: seq<byte>)
    requires |bytes| == 2
    ensures Groups(Core(bytes)) == Some(bytes)
  {
    TwoDecode(bytes[0], bytes[1]);
    assert bytes == [bytes[0], bytes[1]];
  }

  lemma ThreeDecodes(bytes: seq<byte>, text: string)
    requires |bytes| > 2 && Groups(text) == Some(bytes[3..])
    ensures Groups(Three(bytes[0], bytes[1], bytes[2]) + text) == Some(bytes)
  {
    ThreeDecode(bytes[0], bytes[1], bytes[2], text, bytes[3..]);
    assert bytes == [bytes[0], bytes[1], bytes[2]] + bytes[3..];
  }

  lemma OneDecodes(bytes: seq<byte>)
    requires |bytes| == 1
    ensures Groups(Core(bytes)) == Some(bytes)
  {
    OneByte(bytes[0]);
    assert bytes == [bytes[0]];
  }

  lemma TwoDecode(x: byte, y: byte)
    ensures Groups([Symbol(x / 4), Symbol(x % 4 * 16 + y / 16), Symbol(y % 16 * 4)]) == Some([x, y])
  {
    TwoBytes(x, y);
  }

  lemma ThreeDecode(x: byte, y: byte, z: byte, rest: string, tail: seq<byte>)
    requires Groups(rest) == Some(tail)
    ensures Groups(Three(x, y, z) + rest) == Some([x, y, z] + tail)
  {
    ThreeBytes(x, y, z);
    var text := Three(x, y, z) + rest;
    assert text[4..] == rest;
    assert Quad(Bits(text[0]), Bits(text[1]), Bits(text[2]), Bits(text[3])) == Some([x, y, z]);
  }

  lemma OneByte(x: byte)
    ensures Bits(Symbol(x / 4)) == Some(x / 4) && Bits(Symbol(x % 4 * 16)) == Some(x % 4 * 16)
    ensures x / 4 * 4 + x % 4 * 16 / 16 == x
  {
    SymbolBits(x / 4);
    SymbolBits(x % 4 * 16);
  }

  lemma TwoBytes(x: byte, y: byte)
    ensures Bits(Symbol(x / 4)) == Some(x / 4)
    ensures Bits(Symbol(x % 4 * 16 + y / 16)) == Some(x % 4 * 16 + y / 16)
    ensures Bits(Symbol(y % 16 * 4)) == Some(y % 16 * 4)
    ensures x / 4 * 4 + (x % 4 * 16 + y / 16) / 16 == x && (x % 4 * 16 + y / 16) % 16 * 16 + y % 16 * 4 / 4 == y
  {
    SymbolBits(x / 4);
    SymbolBits(x % 4 * 16 + y / 16);
    SymbolBits(y % 16 * 4);
  }

  lemma ThreeBytes(x: byte, y: byte, z: byte)
    ensures Bits(Symbol(x / 4)) == Some(x / 4)
    ensures Bits(Symbol(x % 4 * 16 + y / 16)) == Some(x % 4 * 16 + y / 16)
    ensures Bits(Symbol(y % 16 * 4 + z / 64)) == Some(y % 16 * 4 + z / 64)
    ensures Bits(Symbol(z % 64)) == Some(z % 64)
    ensures x / 4 * 4 + (x % 4 * 16 + y / 16) / 16 == x
    ensures (x % 4 * 16 + y / 16) % 16 * 16 + (y % 16 * 4 + z / 64) / 4 == y
    ensures (y % 16 * 4 + z / 64) % 4 * 64 + z % 64 == z
  {
    SymbolBits(x / 4);
    SymbolBits(x % 4 * 16 + y / 16);
    SymbolBits(y % 16 * 4 + z / 64);
    SymbolBits(z % 64);
  }

  lemma {:induction false} StripExact(s: string, n: nat)
    requires forall i :: 0 <= i < |s| ==> s[i] != '='
    ensures StripPadding(s + seq(n, _ => '=')) == s
  {
    var t := s + seq(n, _ => '=');
    if n == 0 {
      assert t == s;
    } else {
      assert t[..|t| - 1] == s + seq(n - 1, _ => '=');
      StripExact(s, n - 1);
    }
  }

  lemma {:induction false} UnpadExact(s: string, n: nat)
    requires n <= 2 && (s == "" || s[|s| - 1] != '=')
    ensures Unpad(s + seq(n, _ => '='), 2) == s
  {
    var t := s + seq(n, _ => '=');
    if n == 0 {
      assert t == s;
    } else if n == 1 {
      assert t[..|t| - 1] == s && t[|t| - 1] == '=';
    } else {
      assert t[|t| - 1] == '=' && t[..|t| - 1] == s + ['='];
      assert (s + ['='])[..|s|] == s;
    }
  }

  /** What is encoded is the unpadded core in the URL-safe alphabet. */
  lemma EncodedText(bytes: seq<byte>)
    ensures Encode(bytes) == Map(UrlSafe, Core(bytes))
    ensures forall i :: 0 <= i < |Encode(bytes)| ==> UrlAlphabet(Encode(bytes)[i])
    ensures |Encode(bytes)| == (4 * |bytes| + 2) / 3
  {
    CoreShape(bytes);
    CoreSymbols(bytes);
    var core := Core(bytes);
    var safe := Map(UrlSafe, core);
    forall i | 0 <= i < |core| ensures UrlAlphabet(safe[i]) && safe[i] != '=' {
      assert IsSymbol(core[i]);
      var n: nat :| n < 64 && core[i] == Symbol(n);
      SymbolBits(n);
    }
    var pad := Padding(|core|);
    assert Map(UrlSafe, core + pad) == safe + pad;
    assert pad == seq(|pad|, _ => '=');
    StripExact(safe, |pad|);
  }

  /** Every byte sequence survives the trip. */
  lemma RoundTrip(bytes: seq<byte>)
    ensures Decode(Encode(bytes)) == Some(bytes)
  {
    CoreShape(bytes);
    CoreSymbols(bytes);
    EncodedText(bytes);
    CoreDecodes(bytes);
    DecodesSafe(Core(bytes));
  }

  lemma DecodesSafe(core: string)
    requires |core| % 4 != 1 && forall i :: 0 <= i < |core| ==> IsSymbol(core[i])
    ensures Decode(Map(UrlSafe, core)) == Groups(core)
  {
    SafeAndBack(core);
    var pad := Padding(|core|);
    assert |pad| <= 2 && pad == seq(|pad|, _ => '=');
    UnpadExact(core, |pad|);
    PaddedDecodes(core, pad);
  }

  lemma PaddedDecodes(core: string, pad: string)
    requires pad == Padding(|core|) && Unpad(core + pad, 2) == core
    ensures Atob(core + pad) == Groups(core)
  {
    assert |core + pad| % 4 == 0;
  }

  lemma SafeAndBack(core: string)
    requires forall i :: 0 <= i < |core| ==> IsSymbol(core[i])
    ensures Map(Standard, Map(UrlSafe, core)) == core
    ensures core == "" || core[|core| - 1] != '='
  {
    forall i | 0 <= i < |core| ensures Standard(UrlSafe(core[i])) == core[i] && core[i] != '=' {
      assert IsSymbol(core[i]);
      var n: nat :| n < 64 && core[i] == Symbol(n);
      SymbolBits(n);
    }
    assert Map(Standard, Map(UrlSafe, core)) == core;
  }

  /** Two different contents never share an encoding. */
  lemma EncodeInjective(a: seq<byte>, b: seq<byte>)
    requires Encode(a) == Encode(b)
    ensures a == b
  {
    RoundTrip(a);
    RoundTrip(b);
  }

  /** Capital letters, small letters and digits in their order, then `-` and `_`. */
  predicate StandsFor(c: char, value: int) {
    || ('A' <= c <= 'Z' && value == c as int - 'A' as int)
    || ('a' <= c <= 'z' && value == 26 + c as int - 'a' as int)
    || ('0' <= c <= '9' && value == 52 + c as int - '0' as int)
    || (c == '-' && value == 62)
    || (c == '_' && value == 63)
  }

  /** The bits `6k` to `6k + 5` of the bytes laid end to end, with zeros after them. */
  function Sextet(bytes: seq<byte>, k: nat): nat {
    var first, second := ByteAt(bytes, 6 * k / 8), ByteAt(bytes, 6 * k / 8 + 1);
    match 6 * k % 8
    case 0 => first / 4
    case 2 => first % 64
    case 4 => first % 16 * 4 + second / 64
    case _ => first % 4 * 16 + second / 16
  }

  function ByteAt(bytes: seq<byte>, i: nat): byte {
    if i < |bytes| then bytes[i] else 0
  }

  lemma {:induction false} CoreSextets(bytes: seq<byte>, k: nat)
    requires k < |Core(bytes)|
    ensures Sextet(bytes, k) < 64 && Core(bytes)[k] == Symbol(Sextet(bytes, k))
    decreases |bytes|
  {
    if |bytes| > 2 && k >= 4 {
      CoreSextets(bytes[3..], k - 4);
      SextetShift(bytes, k - 4);
    }
  }

  lemma SextetShift(bytes: seq<byte>, k: nat)
    requires |bytes| > 2
    ensures Sextet(bytes, k + 4) == Sextet(bytes[3..], k)
  {
    assert 6 * (k + 4) == 6 * k + 24;
    assert ByteAt(bytes, 6 * k / 8 + 3) == ByteAt(bytes[3..], 6 * k / 8);
    assert ByteAt(bytes, 6 * k / 8 + 4) == ByteAt(bytes[3..], 6 * k / 8 + 1);
  }

  /** Each character stands for the next six bits, by its place in the URL-safe alphabet. */
  lemma EncodedBits(bytes: seq<byte>, k: nat)
    requires k < |Encode(bytes)|
    ensures StandsFor(Encode(bytes)[k], Sextet(bytes, k))
  {
    EncodedText(bytes);
    CoreSextets(bytes, k);
  }

  predicate EitherAlphabet(c: char) {
    UrlAlphabet(c) || c == '+' || c == '/'
  }

  /** Symbols, then no more padding than fills up the last group of four; a lone symbol makes no group. */
  ghost predicate Splits(text: string, n: nat) {
    && n <= |text| && n % 4 != 1 && |text| - n <= (4 - n % 4) % 4
    && (forall i :: 0 <= i < n ==> EitherAlphabet(text[i]))
    && (forall i :: n <= i < |text| ==> text[i] == '=')
  }

  /** Text is decoded if and only if it is symbols of either alphabet with at most the padding that completes them. */
  lemma DecodesExact(text: string)
    ensures Decode(text).Some? <==> exists n: nat :: Splits(text, n)
  {
    if n: nat :| Splits(text, n) {
      SplitsDecodes(text, n);
    }
    if Decode(text).Some? {
      DecodedSplits(text);
    }
  }

  lemma SplitsDecodes(text: string, n: nat)
    requires Splits(text, n)
    ensures Decode(text).Some?
  {
    var t := DecodesPadded(text);
    WholeGroups(|text|, n);
    var core, m := t[..n], |t| - n;
    StandardBits(text[..n], core);
    assert t == core + seq(m, _ => '=');
    GroupsExact(core);
    UnpadExact(core, m);
  }

  lemma DecodesPadded(text: string) returns (t: string)
    ensures Decode(text) == Groups(Unpad(t, 2)) && |t| == |text| + |Padding(|text|)|
    ensures forall i :: 0 <= i < |text| ==> t[i] == Standard(text[i])
    ensures forall i :: |text| <= i < |t| ==> t[i] == '='
  {
    t := Map(Standard, text) + Padding(|text|);
    PaddingFills(|text|);
  }

  lemma PaddingFills(n: nat)
    ensures (n + |Padding(n)|) % 4 == 0
  {
  }

  lemma WholeGroups(length: nat, n: nat)
    requires n <= length && n % 4 != 1 && length - n <= (4 - n % 4) % 4
    ensures length + |Padding(length)| - n <= 2
  {
  }

  lemma StandardBits(text: string, plain: string)
    requires |text| == |plain| && forall i :: 0 <= i < |text| ==> plain[i] == Standard(text[i])
    ensures forall i :: 0 <= i < |text| ==> (Bits(plain[i]).Some? <==> EitherAlphabet(text[i]))
  {
  }

  lemma DecodedSplits(text: string)
    requires Decode(text).Some?
    ensures exists n: nat :: Splits(text, n)
  {
    var t := DecodesPadded(text);
    var n := UnpaddedSymbols(t, |text|);
    FilledUp(|text|, n);
    SymbolsThenPadding(text, t, n);
    assert Splits(text, n);
  }

  lemma SymbolsThenPadding(text: string, t: string, n: nat)
    requires n <= |text| <= |t| && forall i :: 0 <= i < |text| ==> t[i] == Standard(text[i])
    requires forall i :: 0 <= i < n ==> Bits(t[..n][i]).Some?
    requires forall i :: n <= i < |t| ==> t[i] == '='
    ensures forall i :: 0 <= i < n ==> EitherAlphabet(text[i])
    ensures forall i :: n <= i < |text| ==> text[i] == '='
  {
    StandardBits(text[..n], t[..n]);
    assert forall i :: 0 <= i < n ==> EitherAlphabet(text[..n][i]);
    assert forall i :: n <= i < |text| ==> Standard(text[i]) == '=';
  }

  lemma UnpaddedSymbols(t: string, length: nat) returns (n: nat)
    requires length <= |t| && (forall i :: length <= i < |t| ==> t[i] == '=') && Groups(Unpad(t, 2)).Some?
    ensures n <= length && n % 4 != 1 && |t| <= n + 2
    ensures forall i :: 0 <= i < n ==> Bits(t[..n][i]).Some?
    ensures forall i :: n <= i < |t| ==> t[i] == '='
  {
    var u := Unpad(t, 2);
    n := |u|;
    UnpadSplits(t, 2);
    assert n > length ==> u[length] == t[length] == '=';
    GroupsExact(u);
  }

  lemma FilledUp(length: nat, n: nat)
    requires n <= length && n % 4 != 1 && length + |Padding(length)| <= n + 2
    ensures length - n <= (4 - n % 4) % 4
  {
  }

  lemma {:induction false} UnpadSplits(text: string, atMost: nat)
    ensures var u := Unpad(text, atMost);
            |u| <= |text| <= |u| + atMost && u == text[..|u|] && forall i :: |u| <= i < |text| ==> text[i] == '='
  {
    if atMost > 0 && text != "" && text[|text| - 1] == '=' {
      UnpadSplits(text[..|text| - 1], atMost - 1);
    }
  }

  lemma {:induction false} GroupsExact(text: string)
    ensures Groups(text).Some? <==> |text| % 4 != 1 && AllSymbols(text)
    decreases |text|
  {
    if |text| > 3 {
      var rest := text[4..];
      GroupsExact(rest);
      assert text == text[..4] + rest;
      SymbolsSplit(text[..4], rest);
      assert |text| == |rest| + 4;
    }
  }

  predicate AllSymbols(text: string) {
    forall i :: 0 <= i < |text| ==> Bits(text[i]).Some?
  }

  lemma SymbolsSplit(a: string, b: string)
    ensures AllSymbols(a + b) <==> AllSymbols(a) && AllSymbols(b)
  {
    assert AllSymbols(a + b) ==> forall i :: 0 <= i < |b| ==> b[i] == (a + b)[|a| + i];
    assert AllSymbols(a + b) ==> forall i :: 0 <= i < |a| ==> a[i] == (a + b)[i];
  }
}
