/** The base64 text inside PEM blocks: how `pem_encode` writes bytes and how `base64_decode` reads them. */
module Base64 {
  import opened Options

  newtype Byte = b: int | 0 <= b < 256

  // ---------------------------------------------------------------- the alphabet

  /** The alphabet of section 4 of RFC 4648. */
  function Symbol(v: int): char
    requires 0 <= v < 64
  {
    if v < 26 then (v + 'A' as int) as char
    else if v < 52 then (v - 26 + 'a' as int) as char
    else if v < 62 then (v - 52 + '0' as int) as char
    else if v == 62 then '+'
    else '/'
  }

  function Value(c: char): Option<int> {
    if 'A' <= c <= 'Z' then Some(c as int - 'A' as int)
    else if 'a' <= c <= 'z' then Some(c as int - 'a' as int + 26)
    else if '0' <= c <= '9' then Some(c as int - '0' as int + 52)
    else if c == '+' then Some(62)
    else if c == '/' then Some(63)
    else None
  }

  lemma ValueOfSymbol(v: int)
    requires 0 <= v < 64
    ensures Value(Symbol(v)) == Some(v)
  {}

  // ---------------------------------------------------------------- writing

  /** Three bytes as one number; a missing byte counts as zero. */
  function Packed(chunk: seq<Byte>): (n: int)
    requires 1 <= |chunk| <= 3
    ensures 0 <= n < 16777216
  {
    (chunk[0] as int) * 65536 + ByteAt(chunk, 1) * 256 + ByteAt(chunk, 2)
  }

  function ByteAt(chunk: seq<Byte>, i: nat): (b: int)
    ensures 0 <= b < 256
  {
    if i < |chunk| then chunk[i] as int else 0
  }

  /** Six bits of a 24-bit number: digit 0 is the highest. */
  function Sextet(n: int, k: int): (v: int)
    requires 0 <= n < 16777216 && 0 <= k < 4
    ensures 0 <= v < 64
  {
    if k == 0 then n / 262144 % 64 else if k == 1 then n / 4096 % 64 else if k == 2 then n / 64 % 64 else n % 64
  }

  function Quad(chunk: seq<Byte>): string
    requires 1 <= |chunk| <= 3
  {
    var n := Packed(chunk);
    [Symbol(Sextet(n, 0)),
     Symbol(Sextet(n, 1)),
     if |chunk| > 1 then Symbol(Sextet(n, 2)) else '=',
     if |chunk| > 2 then Symbol(Sextet(n, 3)) else '=']
  }

  function Encoded(bytes: seq<Byte>): string {
    if |bytes| == 0 then ""
    else if |bytes| <= 3 then Quad(bytes)
    else Quad(bytes[..3]) + Encoded(bytes[3..])
  }

  /** The characters from place `i` on, with a newline before every 64th but the first, and one at the end. */
  function WrapFrom(chars: string, i: nat): string
    requires i <= |chars|
    decreases |chars| - i
  {
    if i == |chars| then "\n" else Break(i) + [chars[i]] + WrapFrom(chars, i + 1)
  }

  function Break(i: nat): string {
    if i > 0 && i % 64 == 0 then "\n" else ""
  }

  function PemEncoded(bytes: seq<Byte>): string {
    WrapFrom(Encoded(bytes), 0)
  }

  /** The piece of at most `n` elements at place `i`. */
  function Chunk<T>(s: seq<T>, i: nat, n: nat): (chunk: seq<T>)
    requires i < |s| && n > 0
    ensures 1 <= |chunk| <= n
  {
    if |s| - i > n then s[i..i + n] else s[i..]
  }

  lemma EncodedStep(bytes: seq<Byte>, i: nat)
    requires i < |bytes|
    ensures var chunk := Chunk(bytes, i, 3); Encoded(bytes[i..]) == Quad(chunk) + Encoded(bytes[i + |chunk|..])
  {}

  lemma Rejoin(a: string, b: string, c: string)
    ensures a + (b + c) == a + b + c
  {}

  method EncodeChars(bytes: seq<Byte>) returns (chars: string)
    ensures chars == Encoded(bytes)
  {
    var i := 0;
    chars := "";
    while i < |bytes|
      invariant 0 <= i <= |bytes|
      invariant chars + Encoded(bytes[i..]) == Encoded(bytes)
    {
      EncodedStep(bytes, i);
      var chunk := Chunk(bytes, i, 3);
      var quad := Quad(chunk);
      i := i + |chunk|;
      Rejoin(chars, quad, Encoded(bytes[i..]));
      chars := chars + quad;
    }
  }

  lemma WrapStep(out: string, chars: string, i: nat)
    requires i < |chars|
    ensures out + WrapFrom(chars, i) == (out + Break(i)) + [chars[i]] + WrapFrom(chars, i + 1)
  {}

  method PemEncode(bytes: seq<Byte>) returns (out: string)
    ensures out == PemEncoded(bytes)
  {
    var chars := EncodeChars(bytes);
    out := "";
    for i := 0 to |chars|
      invariant out + WrapFrom(chars, i) == WrapFrom(chars, 0)
    {
      WrapStep(out, chars, i);
      assert out + "" == out;
      if i > 0 && i % 64 == 0 {
        out := out + "\n";
      }
      out := out + [chars[i]];
    }
    out := out + "\n";
  }

  // ---------------------------------------------------------------- reading

  predicate AsciiWhitespace(c: char) {
    c == ' ' || c == '\t' || c == '\n' || c == '\U{0C}' || c == '\r'
  }

  function Squeezed(s: string): string {
    if s == "" then ""
    else
      var rest, c := Squeezed(s[..|s| - 1]), s[|s| - 1];
      if AsciiWhitespace(c) then rest else rest + [c]
  }

  /** Where the padding starts. */
  function PadStart(s: string): (i: nat)
    ensures i <= |s| && '=' !in s[..i] && (i < |s| ==> s[i] == '=')
  {
    if s == "" || s[0] == '=' then 0
    else
      var i := PadStart(s[1..]);
      assert s[..i + 1] == [s[0]] + s[1..][..i];
      i + 1
  }

  predicate PaddingOk(s: string) {
    var i := PadStart(s);
    i < |s| ==> |s| % 4 == 0 && forall j :: i <= j < |s| ==> s[j] == '='
  }

  /** Four, three or two symbols give three, two or one byte; a lone symbol gives nothing. */
  function DecodeChunk(chunk: string): Option<seq<Byte>>
    requires |chunk| <= 4
  {
    if |chunk| < 2 then None
    else
      var v0, v1 := Value(chunk[0]), Value(chunk[1]);
      var v2 := if |chunk| > 2 then Value(chunk[2]) else Some(0);
      var v3 := if |chunk| > 3 then Value(chunk[3]) else Some(0);
      if v0.None? || v1.None? || v2.None? || v3.None? then None
      else
        var n := v0.value * 262144 + v1.value * 4096 + v2.value * 64 + v3.value;
        var b0, b1, b2 := (n / 65536 % 256) as Byte, (n / 256 % 256) as Byte, (n % 256) as Byte;
        Some(if |chunk| == 2 then [b0] else if |chunk| == 3 then [b0, b1] else [b0, b1, b2])
  }

  function DecodeBody(body: string): Option<seq<Byte>> {
    if body == "" then Some([])
    else if |body| <= 4 then DecodeChunk(body)
    else
      var first, rest := DecodeChunk(body[..4]), DecodeBody(body[4..]);
      if first.None? || rest.None? then None else Some(first.value + rest.value)
  }

  function Base64Decode(input: string): Option<seq<Byte>> {
    var s := Squeezed(input);
    if PaddingOk(s) then DecodeBody(s[..PadStart(s)]) else None
  }

  lemma DecodeStep(body: string, i: nat)
    requires i < |body|
    ensures var chunk := Chunk(body, i, 4);
      DecodeBody(body[i..]) ==
        var first, rest := DecodeChunk(chunk), DecodeBody(body[i + |chunk|..]);
        if first.None? || rest.None? then None else Some(first.value + rest.value)
  {
    var rest := body[i..];
    if |rest| > 4 {
      assert rest[..4] == Chunk(body, i, 4) && rest[4..] == body[i + 4..];
    } else {
      assert body[i + |rest|..] == "";
      if DecodeChunk(rest).Some? { assert DecodeChunk(rest).value + [] == DecodeChunk(rest).value; }
    }
  }

  function Joined(out: seq<Byte>, rest: Option<seq<Byte>>): Option<seq<Byte>> {
    if rest.Some? then Some(out + rest.value) else None
  }

  lemma JoinedStep(out: seq<Byte>, body: string, i: nat)
    requires i < |body|
    ensures var chunk := Chunk(body, i, 4);
      var first := DecodeChunk(chunk);
      Joined(out, DecodeBody(body[i..])) ==
        if first.None? then None
        else Joined(out + first.value, DecodeBody(body[i + |chunk|..]))
  {
    DecodeStep(body, i);
    var chunk := Chunk(body, i, 4);
    var first, rest := DecodeChunk(chunk), DecodeBody(body[i + |chunk|..]);
    if first.Some? && rest.Some? {
      assert out + (first.value + rest.value) == out + first.value + rest.value;
    }
  }

  method DecodeSymbols(body: string) returns (result: Option<seq<Byte>>)
    ensures result == DecodeBody(body)
  {
    var out: seq<Byte>, i := [], 0;
    assert body[0..] == body;
    assert DecodeBody(body).Some? ==> [] + DecodeBody(body).value == DecodeBody(body).value;
    while i < |body|
      invariant 0 <= i <= |body|
      invariant DecodeBody(body) == Joined(out, DecodeBody(body[i..]))
    {
      JoinedStep(out, body, i);
      var chunk := Chunk(body, i, 4);
      var bytes := DecodeChunk(chunk);
      if bytes.None? {
        return None;
      }
      out := out + bytes.value;
      i := i + |chunk|;
    }
    assert out + [] == out;
    result := Some(out);
  }

  method DecodeText(input: string) returns (result: Option<seq<Byte>>)
    ensures result == Base64Decode(input)
  {
    var s := "";
    for i := 0 to |input|
      invariant s == Squeezed(input[..i])
    {
      assert input[..i + 1][..i] == input[..i];
      if !AsciiWhitespace(input[i]) {
        s := s + [input[i]];
      }
    }
    assert input[..|input|] == input;
    if PaddingOk(s) {
      result := DecodeSymbols(s[..PadStart(s)]);
    } else {
      result := None;
    }
  }

  // ---------------------------------------------------------------- what can be decoded

  predicate IsSymbol(c: char) {
    Value(c).Some?
  }

  predicate AllSymbols(s: string) {
    forall i :: 0 <= i < |s| ==> IsSymbol(s[i])
  }

  lemma ChunkDecodesExactlyWhen(chunk: string)
    requires |chunk| <= 4
    ensures DecodeChunk(chunk).Some? <==> AllSymbols(chunk) && |chunk| >= 2
    ensures DecodeChunk(chunk).Some? ==> |DecodeChunk(chunk).value| == |chunk| - 1
  {}

  lemma AllSymbolsSplit(s: string, n: nat)
    requires n <= |s|
    ensures AllSymbols(s) <==> AllSymbols(s[..n]) && AllSymbols(s[n..])
  {
    assert forall i :: n <= i < |s| ==> s[i] == s[n..][i - n];
  }

  /** Four symbols give three bytes, and a rest of two or three gives one or two; a lone symbol gives nothing. */
  function DecodedLength(n: nat): nat {
    if n % 4 == 0 then n / 4 * 3 else n / 4 * 3 + n % 4 - 1
  }

  lemma FourLess(n: nat)
    requires n > 4
    ensures DecodedLength(n) == 3 + DecodedLength(n - 4) && n % 4 == (n - 4) % 4
  {}

  lemma DecodeNext(body: string)
    requires |body| > 4
    ensures var first, rest := DecodeChunk(body[..4]), DecodeBody(body[4..]);
      && (DecodeBody(body).Some? <==> first.Some? && rest.Some?)
      && (DecodeBody(body).Some? ==> |DecodeBody(body).value| == |first.value| + |rest.value|)
  {}

  lemma {:induction false} BodyDecodesExactlyWhen(body: string)
    ensures DecodeBody(body).Some? <==> AllSymbols(body) && |body| % 4 != 1
    ensures DecodeBody(body).Some? ==> |DecodeBody(body).value| == DecodedLength(|body|)
    decreases |body|
  {
    if |body| > 4 {
      ChunkDecodesExactlyWhen(body[..4]);
      BodyDecodesExactlyWhen(body[4..]);
      AllSymbolsSplit(body, 4);
      FourLess(|body|);
      DecodeNext(body);
    } else if body != "" {
      ChunkDecodesExactlyWhen(body);
    }
  }

  /** A text decodes exactly when, whitespace aside, there is padding only where it belongs, nothing but symbols before
      it, and no lone symbol at the end. */
  lemma DecodesExactlyWhen(input: string)
    ensures var s := Squeezed(input);
      var body := s[..PadStart(s)];
      && (Base64Decode(input).Some? <==> PaddingOk(s) && AllSymbols(body) && |body| % 4 != 1)
      && (Base64Decode(input).Some? ==> |Base64Decode(input).value| == DecodedLength(|body|))
  {
    BodyDecodesExactlyWhen(Squeezed(input)[..PadStart(Squeezed(input))]);
  }

  /** Three bytes are written as the four digits, to the base 64, of the number that they are to the base 256. */
  lemma QuadDigits(chunk: seq<Byte>, v0: int, v1: int, v2: int, v3: int)
    requires |chunk| == 3 && 0 <= v0 < 64 && 0 <= v1 < 64 && 0 <= v2 < 64 && 0 <= v3 < 64
    requires (chunk[0] as int) * 65536 + (chunk[1] as int) * 256 + chunk[2] as int
      == v0 * 262144 + v1 * 4096 + v2 * 64 + v3
    ensures Encoded(chunk) == [Symbol(v0), Symbol(v1), Symbol(v2), Symbol(v3)]
  {
    var n := Packed(chunk);
    assert n == v0 * 262144 + v1 * 4096 + v2 * 64 + v3;
    SextetsOf(n, v0, v1, v2, v3);
  }

  lemma SextetsOf(n: int, v0: int, v1: int, v2: int, v3: int)
    requires 0 <= v0 < 64 && 0 <= v1 < 64 && 0 <= v2 < 64 && 0 <= v3 < 64
    requires 0 <= n < 16777216 && n == v0 * 262144 + v1 * 4096 + v2 * 64 + v3
    ensures Sextet(n, 0) == v0 && Sextet(n, 1) == v1 && Sextet(n, 2) == v2 && Sextet(n, 3) == v3
  {
    assert n / 262144 == v0;
    assert n / 4096 == v0 * 64 + v1;
    assert n / 64 == v0 * 4096 + v1 * 64 + v2;
  }

  /** The longest of the test vectors of section 10 of RFC 4648, "foobar". */
  lemma KnownVector()
    ensures Encoded([0x66, 0x6F, 0x6F, 0x62, 0x61, 0x72]) == "Zm9vYmFy"
  {
    var bytes: seq<Byte> := [0x66, 0x6F, 0x6F, 0x62, 0x61, 0x72];
    assert bytes[..3] == [0x66, 0x6F, 0x6F] && bytes[3..] == [0x62, 0x61, 0x72];
    QuadDigits(bytes[..3], 25, 38, 61, 47);
    QuadDigits(bytes[3..], 24, 38, 5, 50);
    assert Encoded(bytes) == Encoded(bytes[..3]) + Encoded(bytes[3..]);
  }

  // ---------------------------------------------------------------- what is written is read back

  /** The symbols of a chunk without its padding. */
  function Symbols(chunk: seq<Byte>): string
    requires 1 <= |chunk| <= 3
  {
    Quad(chunk)[..|chunk| + 1]
  }

  function Unpadded(bytes: seq<Byte>): string {
    if |bytes| == 0 then ""
    else if |bytes| <= 3 then Symbols(bytes)
    else Symbols(bytes[..3]) + Unpadded(bytes[3..])
  }

  function Padding(n: nat): string {
    if n % 3 == 1 then "==" else if n % 3 == 2 then "=" else ""
  }

  /** A number is its six-bit digits, put together. */
  lemma Sextets(n: int)
    requires 0 <= n < 16777216
    ensures Sextet(n, 0) * 262144 + Sextet(n, 1) * 4096 + Sextet(n, 2) * 64 + Sextet(n, 3) == n
  {
    assert n / 64 / 64 == n / 4096 && n / 4096 / 64 == n / 262144;
  }

  lemma LastOctet(high: int, low: int)
    requires 0 <= low < 256
    ensures (high * 256 + low) / 256 == high && (high * 256 + low) % 256 == low
  {}

  lemma Octets(b0: int, b1: int, b2: int)
    requires 0 <= b0 < 256 && 0 <= b1 < 256 && 0 <= b2 < 256
    ensures var n := b0 * 65536 + b1 * 256 + b2; n / 65536 % 256 == b0 && n / 256 % 256 == b1 && n % 256 == b2
  {
    LastOctet(b0 * 256 + b1, b2);
    LastOctet(b0, b1);
    assert (b0 * 65536 + b1 * 256 + b2) / 65536 == b0;
  }

  /** Missing bytes leave nothing in the digits that are not written. */
  lemma ShortChunk(chunk: seq<Byte>)
    requires 1 <= |chunk| <= 3
    ensures |chunk| < 3 ==> Sextet(Packed(chunk), 3) == 0
    ensures |chunk| < 2 ==> Sextet(Packed(chunk), 2) == 0
  {}

  /** Symbols whose values are the digits of a chunk decode to that chunk. */
  lemma DigitsDecode(s: string, chunk: seq<Byte>)
    requires 1 <= |chunk| <= 3 && |s| == |chunk| + 1
    requires forall k :: 0 <= k < |s| ==> Value(s[k]) == Some(Sextet(Packed(chunk), k))
    ensures DecodeChunk(s) == Some(chunk)
  {
    var n := Packed(chunk);
    ShortChunk(chunk);
    Sextets(n);
    Octets(chunk[0] as int, ByteAt(chunk, 1), ByteAt(chunk, 2));
    var d2 := if |s| > 2 then Value(s[2]) else Some(0);
    var d3 := if |s| > 3 then Value(s[3]) else Some(0);
    assert d2 == Some(Sextet(n, 2)) && d3 == Some(Sextet(n, 3));
    if |chunk| == 1 {
      assert chunk == [chunk[0]];
    } else if |chunk| == 2 {
      assert chunk == [chunk[0], chunk[1]];
    } else {
      assert chunk == [chunk[0], chunk[1], chunk[2]];
    }
  }

  lemma SymbolsAre(chunk: seq<Byte>)
    requires 1 <= |chunk| <= 3
    ensures Quad(chunk) == Symbols(chunk) + Padding(|chunk|)
    ensures forall k :: 0 <= k < |chunk| + 1 ==> Value(Symbols(chunk)[k]) == Some(Sextet(Packed(chunk), k))
  {
    var n := Packed(chunk);
    forall k | 0 <= k < |chunk| + 1 ensures Value(Symbols(chunk)[k]) == Some(Sextet(n, k)) {
      ValueOfSymbol(Sextet(n, k));
      assert Symbols(chunk)[k] == Symbol(Sextet(n, k));
    }
  }

  lemma ChunkRoundTrip(chunk: seq<Byte>)
    requires 1 <= |chunk| <= 3
    ensures DecodeChunk(Symbols(chunk)) == Some(chunk)
  {
    SymbolsAre(chunk);
    DigitsDecode(Symbols(chunk), chunk);
  }

  lemma {:induction false} BodyRoundTrip(bytes: seq<Byte>)
    ensures DecodeBody(Unpadded(bytes)) == Some(bytes)
  {
    if |bytes| > 3 {
      var first, rest := Symbols(bytes[..3]), Unpadded(bytes[3..]);
      ChunkRoundTrip(bytes[..3]);
      BodyRoundTrip(bytes[3..]);
      assert rest != "";
      assert (first + rest)[..4] == first && (first + rest)[4..] == rest;
      assert bytes[..3] + bytes[3..] == bytes;
    } else if |bytes| > 0 {
      ChunkRoundTrip(bytes);
    }
  }

  lemma SymbolsAllSymbols(chunk: seq<Byte>)
    requires 1 <= |chunk| <= 3
    ensures AllSymbols(Symbols(chunk))
  {}

  lemma {:induction false} UnpaddedAllSymbols(bytes: seq<Byte>)
    ensures AllSymbols(Unpadded(bytes))
  {
    if |bytes| > 3 {
      UnpaddedAllSymbols(bytes[3..]);
      SymbolsAllSymbols(bytes[..3]);
    } else if |bytes| > 0 {
      SymbolsAllSymbols(bytes);
    }
  }

  lemma SamePadding(n: nat)
    requires n > 3
    ensures Padding(n) == Padding(n - 3)
  {}

  lemma EncodedSplit(bytes: seq<Byte>)
    requires |bytes| > 3
    ensures var first := Symbols(bytes[..3]);
      |first| == 4 && Encoded(bytes) == first + Encoded(bytes[3..]) && Unpadded(bytes) == first + Unpadded(bytes[3..])
  {}

  lemma EncodedShort(bytes: seq<Byte>)
    requires 1 <= |bytes| <= 3
    ensures Encoded(bytes) == Unpadded(bytes) + Padding(|bytes|) && |Encoded(bytes)| == 4
  {}

  lemma {:induction false} EncodedLength(bytes: seq<Byte>)
    ensures |Encoded(bytes)| % 4 == 0
  {
    if |bytes| > 3 {
      EncodedLength(bytes[3..]);
      FourMore(|Encoded(bytes[3..])|);
      assert |Encoded(bytes)| == 4 + |Encoded(bytes[3..])|;
    }
  }

  lemma FourMore(n: nat)
    requires n % 4 == 0
    ensures (4 + n) % 4 == 0
  {}

  lemma JoinSplit(first: string, encoded: string, unpadded: string, pad: string)
    requires encoded == unpadded + pad
    ensures first + encoded == (first + unpadded) + pad
  {}

  lemma {:induction false} EncodedIs(bytes: seq<Byte>)
    ensures Encoded(bytes) == Unpadded(bytes) + Padding(|bytes|)
  {
    if |bytes| > 3 {
      EncodedIs(bytes[3..]);
      JoinSplit(Symbols(bytes[..3]), Encoded(bytes[3..]), Unpadded(bytes[3..]), Padding(|bytes[3..]|));
      SamePadding(|bytes|);
      EncodedSplit(bytes);
    } else if |bytes| > 0 {
      EncodedShort(bytes);
    }
  }

  lemma {:induction false} PadStartIs(body: string, pad: string)
    requires '=' !in body && (pad != "" ==> pad[0] == '=')
    ensures PadStart(body + pad) == |body|
  {
    if body == "" {
      assert body + pad == pad;
    } else {
      PadStartIs(body[1..], pad);
      assert (body + pad)[1..] == body[1..] + pad;
      assert body[0] in body;
    }
  }

  lemma {:induction false} SqueezedAlready(s: string)
    requires forall i :: 0 <= i < |s| ==> !AsciiWhitespace(s[i])
    ensures Squeezed(s) == s
  {
    if s != "" {
      SqueezedAlready(s[..|s| - 1]);
    }
  }

  lemma {:induction false} SqueezedConcat(a: string, b: string)
    ensures Squeezed(a + b) == Squeezed(a) + Squeezed(b)
  {
    if b == "" {
      assert a + b == a;
    } else {
      SqueezedConcat(a, b[..|b| - 1]);
      assert (a + b)[..|a + b| - 1] == a + b[..|b| - 1];
    }
  }

  /** Wrapping adds only newlines, which reading drops. */
  lemma {:induction false} WrapSqueezed(chars: string, i: nat)
    requires i <= |chars|
    ensures Squeezed(WrapFrom(chars, i)) == Squeezed(chars[i..])
    decreases |chars| - i
  {
    if i < |chars| {
      WrapSqueezed(chars, i + 1);
      var sep := Break(i);
      SqueezedConcat(sep + [chars[i]], WrapFrom(chars, i + 1));
      SqueezedConcat(sep, [chars[i]]);
      SqueezedConcat([chars[i]], chars[i + 1..]);
      assert [chars[i]] + chars[i + 1..] == chars[i..];
    }
  }

  /** No character of symbols and padding is white. */
  lemma NothingToSqueeze(body: string, pad: string)
    requires (forall i :: 0 <= i < |body| ==> IsSymbol(body[i])) && (forall i :: 0 <= i < |pad| ==> pad[i] == '=')
    ensures Squeezed(body + pad) == body + pad
  {
    forall i | 0 <= i < |body + pad| ensures !AsciiWhitespace((body + pad)[i]) {
      if i < |body| { assert IsSymbol(body[i]); }
    }
    SqueezedAlready(body + pad);
  }

  lemma EncodedText(bytes: seq<Byte>)
    ensures Squeezed(Encoded(bytes)) == Encoded(bytes)
    ensures PadStart(Encoded(bytes)) == |Unpadded(bytes)| && PaddingOk(Encoded(bytes))
  {
    var body, pad := Unpadded(bytes), Padding(|bytes|);
    EncodedIs(bytes);
    EncodedLength(bytes);
    UnpaddedAllSymbols(bytes);
    NothingToSqueeze(body, pad);
    PadStartIs(body, pad);
  }

  lemma EncodedDecodes(bytes: seq<Byte>)
    ensures Base64Decode(Encoded(bytes)) == Some(bytes)
  {
    EncodedText(bytes);
    EncodedIs(bytes);
    BodyRoundTrip(bytes);
    assert (Unpadded(bytes) + Padding(|bytes|))[..|Unpadded(bytes)|] == Unpadded(bytes);
  }

  /** What `pem_encode` writes, `base64_decode` reads back, for every sequence of bytes. */
  lemma PemTextRoundTrip(bytes: seq<Byte>)
    ensures Base64Decode(PemEncoded(bytes)) == Some(bytes)
  {
    WrapSqueezed(Encoded(bytes), 0);
    EncodedDecodes(bytes);
    assert Encoded(bytes)[0..] == Encoded(bytes);
    EncodedText(bytes);
  }

  /** The padding is optional: the same text without it decodes to the same bytes. */
  lemma PaddingIsOptional(bytes: seq<Byte>)
    ensures Base64Decode(Unpadded(bytes)) == Some(bytes)
  {
    var body := Unpadded(bytes);
    UnpaddedAllSymbols(bytes);
    BodyRoundTrip(bytes);
    BareBody(body);
  }

  /** Symbols alone are read as they are. */
  lemma BareBody(body: string)
    requires AllSymbols(body)
    ensures Base64Decode(body) == DecodeBody(body)
  {
    NothingToSqueeze(body, "");
    assert body + "" == body && body[..|body|] == body;
    forall i | 0 <= i < |body| ensures body[i] != '=' {
      assert IsSymbol(body[i]);
    }
    PadStartIs(body, "");
  }
}
