/** PEM text: reading every block of a file, writing blocks, and splitting a combined certificate and key file. */
module Pem {
  import opened Options
  import opened Base64
  import opened Text

  datatype Block = Block(kind: string, der: seq<Byte>)

  const BEGIN := "-----BEGIN "
  const END := "-----END "
  const DASHES := "-----"

  // ---------------------------------------------------------------- reading

  /** The reader between two lines: blocks so far, the open block's type, its text so far. */
  datatype Reader = Reader(blocks: seq<Block>, current: Option<string>, text: string)

  function ReadLine(r: Reader, raw: string): Reader {
    var line := Trim(raw);
    if BEGIN <= line then
      var kind := StripSuffix(line[|BEGIN|..], DASHES);
      if kind.Some? then r.(current := kind, text := "") else r
    else if END <= line then
      if StripSuffix(line[|END|..], DASHES) == r.current then
        var der := Base64Decode(r.text);
        if r.current.Some? && der.Some? then Reader(r.blocks + [Block(r.current.value, der.value)], None, "")
        else Reader(r.blocks, None, "")
      else r
    else if r.current.Some? then r.(text := r.text + line)
    else r
  }

  function ReadLines(r: Reader, lines: seq<string>): Reader
    decreases |lines|
  {
    if lines == [] then r else ReadLines(ReadLine(r, lines[0]), lines[1..])
  }

  const START := Reader([], None, "")

  function BlocksOf(data: string): seq<Block> {
    ReadLines(START, Lines(data)).blocks
  }

  method PemBlocks(data: string) returns (blocks: seq<Block>)
    ensures blocks == BlocksOf(data)
  {
    blocks := [];
    var current: Option<string>, text := None, "";
    var lines := Lines(data);
    for i := 0 to |lines|
      invariant ReadLines(START, lines) == ReadLines(Reader(blocks, current, text), lines[i..])
    {
      assert lines[i..][1..] == lines[i + 1..];
      var line := Trim(lines[i]);
      if BEGIN <= line {
        var kind := StripSuffix(line[|BEGIN|..], DASHES);
        if kind.Some? {
          current := kind;
          text := "";
        }
      } else if END <= line {
        if StripSuffix(line[|END|..], DASHES) == current {
          var der := DecodeText(text);
          if current.Some? && der.Some? {
            blocks := blocks + [Block(current.value, der.value)];
          }
          current := None;
          text := "";
        }
      } else if current.Some? {
        text := text + line;
      }
    }
  }

  // ---------------------------------------------------------------- writing

  function Written(b: Block): string {
    BEGIN + b.kind + DASHES + "\n" + PemEncoded(b.der) + END + b.kind + DASHES + "\n"
  }

  function WrittenAll(blocks: seq<Block>): string {
    if |blocks| == 0 then "" else Written(blocks[0]) + WrittenAll(blocks[1..])
  }

  lemma {:induction false} WrittenSnoc(blocks: seq<Block>, b: Block)
    ensures WrittenAll(blocks + [b]) == WrittenAll(blocks) + Written(b)
  {
    if |blocks| == 0 {
      WrittenOne(b);
      assert blocks + [b] == [b];
    } else {
      WrittenSnoc(blocks[1..], b);
      assert (blocks + [b])[1..] == blocks[1..] + [b];
      Rejoin(Written(blocks[0]), WrittenAll(blocks[1..]), Written(b));
    }
  }

  lemma WrittenOne(b: Block)
    ensures WrittenAll([b]) == "" + Written(b)
  {}

  // ---------------------------------------------------------------- a written block reads as itself

  predicate BodyChar(c: char) {
    IsSymbol(c) || c == '='
  }

  predicate BodyChars(s: string) {
    forall i :: 0 <= i < |s| ==> BodyChar(s[i])
  }

  /** Lines of 64 characters. */
  function BodyText(s: string): string
    decreases |s|
  {
    if |s| <= 64 then s + "\n" else s[..64] + "\n" + BodyText(s[64..])
  }

  lemma NoBreak(k: nat, i: nat)
    requires 64 * k < i < 64 * k + 64
    ensures Break(i) == ""
  {}

  lemma WrapOne(s: string, i: nat)
    requires i < |s| && Break(i) == ""
    ensures WrapFrom(s, i) == [s[i]] + WrapFrom(s, i + 1)
  {}

  /** Within line `k`, wrapping copies. */
  lemma {:induction false} WrapCopies(s: string, k: nat, i: nat, j: nat)
    requires 64 * k < i <= j <= |s| && j <= 64 * k + 64
    ensures WrapFrom(s, i) == s[i..j] + WrapFrom(s, j)
    decreases j - i
  {
    if i < j {
      NoBreak(k, i);
      WrapOne(s, i);
      WrapCopies(s, k, i + 1, j);
      Extend(s, i, j, WrapFrom(s, j));
    } else {
      assert s[i..j] == "";
    }
  }

  lemma Extend(s: string, i: nat, j: nat, rest: string)
    requires i < j <= |s|
    ensures [s[i]] + (s[i + 1..j] + rest) == s[i..j] + rest
  {}

  /** Line `k` of the wrapped text, up to place `j`. */
  lemma WrapLine(s: string, k: nat, j: nat)
    requires 64 * k < j <= |s| && j <= 64 * k + 64
    ensures WrapFrom(s, 64 * k) == Break(64 * k) + (s[64 * k..j] + WrapFrom(s, j))
  {
    var i := 64 * k;
    WrapCopies(s, k, i + 1, j);
    Extend(s, i, j, WrapFrom(s, j));
    assert Break(i) + [s[i]] + (s[i + 1..j] + WrapFrom(s, j)) == Break(i) + ([s[i]] + (s[i + 1..j] + WrapFrom(s, j)));
  }

  lemma LaterBreak(k: nat)
    requires k > 0
    ensures Break(64 * k) == "\n"
  {}

  lemma {:induction false} WrapIsBodyText(s: string, k: nat)
    requires 64 * k < |s|
    ensures WrapFrom(s, 64 * k) == Break(64 * k) + BodyText(s[64 * k..])
    decreases |s| - 64 * k
  {
    if |s| <= 64 * k + 64 {
      WrapLine(s, k, |s|);
      LastLine(s, 64 * k);
    } else {
      WrapIsBodyText(s, k + 1);
      LaterBreak(k + 1);
      WrapLine(s, k, 64 * (k + 1));
      TailText(s, 64 * k);
    }
  }

  lemma LastLine(s: string, i: nat)
    requires i < |s| <= i + 64
    ensures BodyText(s[i..]) == s[i..|s|] + WrapFrom(s, |s|)
  {
    assert s[i..] == s[i..|s|];
  }

  lemma TailText(s: string, i: nat)
    requires |s| - i > 64
    ensures BodyText(s[i..]) == s[i..i + 64] + ("\n" + BodyText(s[i + 64..]))
  {
    var t := s[i..];
    assert t[..64] == s[i..i + 64] && t[64..] == s[i + 64..];
    assert BodyText(t) == t[..64] + "\n" + BodyText(t[64..]);
    JoinLines(t[..64], BodyText(t[64..]));
  }

  lemma JoinLines(line: string, rest: string)
    ensures line + "\n" + rest == line + ("\n" + rest)
  {}

  lemma PemText(bytes: seq<Byte>)
    ensures PemEncoded(bytes) == BodyText(Encoded(bytes))
  {
    var chars := Encoded(bytes);
    if chars != "" {
      WrapIsBodyText(chars, 0);
      assert 64 * 0 == 0 && chars[0..] == chars && "" + BodyText(chars) == BodyText(chars);
    }
  }

  lemma BodyLine(r: Reader, line: string)
    requires r.current.Some? && BodyChars(line)
    ensures ReadLine(r, line) == r.(text := r.text + line)
  {}

  lemma {:induction false} ReadConcat(r: Reader, a: seq<string>, b: seq<string>)
    ensures ReadLines(r, a + b) == ReadLines(ReadLines(r, a), b)
    decreases |a|
  {
    if a == [] {
      assert a + b == b;
    } else {
      ReadConcat(ReadLine(r, a[0]), a[1..], b);
      assert (a + b)[1..] == a[1..] + b;
    }
  }

  function BodyLines(s: string): seq<string>
    decreases |s|
  {
    if |s| <= 64 then [s] else [s[..64]] + BodyLines(s[64..])
  }

  /** Every line of a body but the last is full, and the last is not empty unless the body is. */
  lemma {:induction false} BodyLinesFull(s: string)
    ensures |BodyLines(s)| > 0
    ensures forall i :: 0 <= i < |BodyLines(s)| ==>
      && |BodyLines(s)[i]| <= 64 && (i < |BodyLines(s)| - 1 ==> |BodyLines(s)[i]| == 64)
      && (s != "" ==> BodyLines(s)[i] != "")
    decreases |s|
  {
    if |s| > 64 {
      BodyLinesFull(s[64..]);
    }
  }

  predicate Unbroken(line: string) {
    '\n' !in line && (line != "" ==> line[|line| - 1] != '\r')
  }

  lemma BodyIsUnbroken(s: string)
    requires BodyChars(s)
    ensures Unbroken(s)
  {}

  lemma BodyCut(s: string)
    requires BodyChars(s) && |s| > 64
    ensures BodyChars(s[..64]) && BodyChars(s[64..])
  {}

  lemma {:induction false} BodyTextLines(s: string, rest: string)
    requires BodyChars(s)
    ensures Lines(BodyText(s) + rest) == BodyLines(s) + Lines(rest)
    decreases |s|
  {
    if |s| <= 64 {
      BodyIsUnbroken(s);
      FirstLine(s, rest);
    } else {
      var line, more := s[..64], BodyText(s[64..]);
      BodyCut(s);
      BodyIsUnbroken(line);
      assert line + "\n" + more + rest == line + "\n" + (more + rest);
      FirstLine(line, more + rest);
      BodyTextLines(s[64..], rest);
      assert [line] + (BodyLines(s[64..]) + Lines(rest)) == [line] + BodyLines(s[64..]) + Lines(rest);
    }
  }

  lemma BodyNext(s: string)
    requires |s| > 64
    ensures BodyLines(s) != [] && BodyLines(s)[0] == s[..64] && BodyLines(s)[1..] == BodyLines(s[64..])
  {}

  lemma ReadOne(r: Reader, line: string)
    ensures ReadLines(r, [line]) == ReadLine(r, line)
  {}

  lemma BodyNextRead(r: Reader, s: string)
    requires r.current.Some? && |s| > 64 && BodyChars(s[..64])
    ensures ReadLines(r, BodyLines(s)) == ReadLines(r.(text := r.text + s[..64]), BodyLines(s[64..]))
  {
    BodyNext(s);
    BodyLine(r, s[..64]);
  }

  lemma BodyLastRead(r: Reader, s: string)
    requires r.current.Some? && BodyChars(s) && |s| <= 64
    ensures ReadLines(r, BodyLines(s)) == r.(text := r.text + s)
  {
    BodyLine(r, s);
    ReadOne(r, s);
  }

  lemma TextGrows(r: Reader, s: string, n: nat)
    requires n <= |s|
    ensures var r1 := r.(text := r.text + s[..n]); r1.(text := r1.text + s[n..]) == r.(text := r.text + s)
  {}

  lemma {:induction false} BodyLinesRead(r: Reader, s: string)
    requires r.current.Some? && BodyChars(s)
    ensures ReadLines(r, BodyLines(s)) == r.(text := r.text + s)
    decreases |s|
  {
    if |s| <= 64 {
      BodyLastRead(r, s);
    } else {
      BodyCut(s);
      BodyNextRead(r, s);
      BodyLinesRead(r.(text := r.text + s[..64]), s[64..]);
      TextGrows(r, s, 64);
    }
  }

  lemma EncodedIsBody(bytes: seq<Byte>)
    ensures BodyChars(Encoded(bytes))
  {}

  /** The encoded text stands in lines of 64 characters, only the last of which may be shorter. */
  lemma EncodedInLinesOf64(bytes: seq<Byte>, i: nat)
    requires |bytes| > 0 && i < |Lines(PemEncoded(bytes))|
    ensures var lines := Lines(PemEncoded(bytes));
      1 <= |lines[i]| <= 64 && (i < |lines| - 1 ==> |lines[i]| == 64)
  {
    var chars := Encoded(bytes);
    PemText(bytes);
    EncodedIsBody(bytes);
    BodyTextLines(chars, "");
    assert BodyText(chars) + "" == BodyText(chars) && BodyLines(chars) + Lines("") == BodyLines(chars);
    BodyLinesFull(chars);
  }

  lemma BeginLine(r: Reader, kind: string)
    ensures ReadLine(r, BEGIN + kind + DASHES) == r.(current := Some(kind), text := "")
  {
    var line := BEGIN + kind + DASHES;
    TrimmedAlready(line);
    assert line[|BEGIN|..] == kind + DASHES;
    assert (kind + DASHES)[..|kind|] == kind && (kind + DASHES)[|kind|..] == DASHES;
  }

  lemma EndLine(r: Reader, kind: string, der: seq<Byte>)
    requires r.current == Some(kind) && Base64Decode(r.text) == Some(der)
    ensures ReadLine(r, END + kind + DASHES) == Reader(r.blocks + [Block(kind, der)], None, "")
  {
    var line := END + kind + DASHES;
    TrimmedAlready(line);
    assert line[5] == 'E' && BEGIN[5] == 'B';
    assert line[|END|..] == kind + DASHES;
    assert (kind + DASHES)[..|kind|] == kind && (kind + DASHES)[|kind|..] == DASHES;
  }

  function BlockLines(b: Block): seq<string> {
    [BEGIN + b.kind + DASHES] + (BodyLines(Encoded(b.der)) + [END + b.kind + DASHES])
  }

  /** A written block is its lines. */
  lemma WrittenLines(b: Block, rest: string)
    requires '\n' !in b.kind
    ensures Lines(Written(b) + rest) == BlockLines(b) + Lines(rest)
  {
    var begin, end, chars := BEGIN + b.kind + DASHES, END + b.kind + DASHES, Encoded(b.der);
    EncodedIsBody(b.der);
    WrittenIs(b, begin, end, BodyText(chars), rest);
    FramedLines(begin, chars, end, rest);
  }

  lemma WrittenIs(b: Block, begin: string, end: string, body: string, rest: string)
    requires begin == BEGIN + b.kind + DASHES && end == END + b.kind + DASHES && body == BodyText(Encoded(b.der))
    ensures Written(b) + rest == begin + "\n" + (body + (end + "\n" + rest))
    ensures '\n' !in b.kind ==> Unbroken(begin) && Unbroken(end)
  {
    PemText(b.der);
    assert begin + "\n" + body + END + b.kind + DASHES + "\n" + rest == begin + "\n" + (body + (end + "\n" + rest));
  }

  lemma FramedLines(begin: string, chars: string, end: string, rest: string)
    requires Unbroken(begin) && Unbroken(end) && BodyChars(chars)
    ensures Lines(begin + "\n" + (BodyText(chars) + (end + "\n" + rest)))
      == [begin] + (BodyLines(chars) + [end]) + Lines(rest)
  {
    var tail := end + "\n" + rest;
    var text := BodyText(chars) + tail;
    BodyTextLines(chars, tail);
    EndAfter(BodyLines(chars), end, rest);
    FirstLine(begin, text);
    Reassociate([begin], BodyLines(chars) + [end], Lines(rest));
  }

  lemma EndAfter(before: seq<string>, end: string, rest: string)
    requires Unbroken(end)
    ensures before + Lines(end + "\n" + rest) == before + [end] + Lines(rest)
  {
    FirstLine(end, rest);
    Reassociate(before, [end], Lines(rest));
  }

  lemma Reassociate(a: seq<string>, b: seq<string>, c: seq<string>)
    ensures a + (b + c) == a + b + c
  {}

  /** A block's lines are read as the block, whatever was read before. */
  lemma BlockRead(r: Reader, b: Block)
    ensures ReadLines(r, BlockLines(b)) == Reader(r.blocks + [b], None, "")
  {
    var begin, end, chars := BEGIN + b.kind + DASHES, END + b.kind + DASHES, Encoded(b.der);
    var r1, r2 := Reader(r.blocks, Some(b.kind), ""), Reader(r.blocks, Some(b.kind), chars);
    ReadConcat(r, [begin], BodyLines(chars) + [end]);
    ReadOne(r, begin);
    BeginLine(r, b.kind);
    ReadConcat(r1, BodyLines(chars), [end]);
    EncodedIsBody(b.der);
    BodyLinesRead(r1, chars);
    assert "" + chars == chars;
    ReadOne(r2, end);
    EncodedDecodes(b.der);
    EndLine(r2, b.kind, b.der);
  }

  function AllLines(blocks: seq<Block>): seq<string> {
    if |blocks| == 0 then [] else BlockLines(blocks[0]) + AllLines(blocks[1..])
  }

  lemma {:induction false} WrittenAllLines(blocks: seq<Block>)
    requires forall b :: b in blocks ==> '\n' !in b.kind
    ensures Lines(WrittenAll(blocks)) == AllLines(blocks)
  {
    if |blocks| > 0 {
      WrittenLines(blocks[0], WrittenAll(blocks[1..]));
      WrittenAllLines(blocks[1..]);
    }
  }

  lemma BlockNextRead(r: Reader, blocks: seq<Block>)
    requires |blocks| > 0
    ensures ReadLines(r, AllLines(blocks)) == ReadLines(Reader(r.blocks + [blocks[0]], None, ""), AllLines(blocks[1..]))
  {
    ReadConcat(r, BlockLines(blocks[0]), AllLines(blocks[1..]));
    BlockRead(r, blocks[0]);
  }

  lemma {:induction false} BlocksRead(r: Reader, blocks: seq<Block>)
    ensures ReadLines(r, AllLines(blocks)).blocks == r.blocks + blocks
    decreases |blocks|
  {
    if |blocks| > 0 {
      var r1, more := Reader(r.blocks + [blocks[0]], None, ""), blocks[1..];
      assert ReadLines(r, AllLines(blocks)).blocks == r1.blocks + more by {
        BlockNextRead(r, blocks);
        BlocksRead(r1, more);
      }
    }
  }

  /** Blocks that are written are the blocks that are read: same types, same bytes, same order. */
  lemma BlocksRoundTrip(blocks: seq<Block>, text: string)
    requires (forall b :: b in blocks ==> '\n' !in b.kind) && text == WrittenAll(blocks)
    ensures BlocksOf(text) == blocks
  {
    WrittenAllLines(blocks);
    BlocksRead(START, blocks);
    assert [] + blocks == blocks;
  }

  // ---------------------------------------------------------------- what stands around the blocks

  predicate Opens(line: string) {
    var l := Trim(line);
    BEGIN <= l && StripSuffix(l[|BEGIN|..], DASHES).Some?
  }

  predicate NoneOpens(lines: seq<string>) {
    forall i :: 0 <= i < |lines| ==> !Opens(lines[i])
  }

  lemma {:induction false} OutsideIgnored(blocks: seq<Block>, lines: seq<string>)
    requires NoneOpens(lines)
    ensures ReadLines(Reader(blocks, None, ""), lines) == Reader(blocks, None, "")
  {
    if lines != [] {
      assert !Opens(lines[0]);
      assert ReadLine(Reader(blocks, None, ""), lines[0]) == Reader(blocks, None, "");
      OutsideIgnored(blocks, lines[1..]);
    }
  }

  /** A block and the lines that stand before it. */
  datatype Part = Part(before: seq<string>, block: Block)

  function PartLines(parts: seq<Part>): seq<string> {
    if |parts| == 0 then [] else parts[0].before + (BlockLines(parts[0].block) + PartLines(parts[1..]))
  }

  function BlocksIn(parts: seq<Part>): seq<Block> {
    seq(|parts|, i requires 0 <= i < |parts| => parts[i].block)
  }

  lemma PartRead(blocks: seq<Block>, p: Part, rest: seq<string>)
    requires NoneOpens(p.before)
    ensures ReadLines(Reader(blocks, None, ""), p.before + (BlockLines(p.block) + rest))
      == ReadLines(Reader(blocks + [p.block], None, ""), rest)
  {
    ReadConcat(Reader(blocks, None, ""), p.before, BlockLines(p.block) + rest);
    OutsideIgnored(blocks, p.before);
    ReadConcat(Reader(blocks, None, ""), BlockLines(p.block), rest);
    BlockRead(Reader(blocks, None, ""), p.block);
  }

  lemma Nested(a: seq<string>, b: seq<string>, c: seq<string>, d: seq<string>)
    ensures a + (b + c) + d == a + (b + (c + d))
  {}

  /** Whatever stands before, between and behind the blocks of a file, as long as it opens no block, is ignored. */
  lemma {:induction false} SurroundingsIgnored(blocks: seq<Block>, parts: seq<Part>, behind: seq<string>)
    requires (forall p :: p in parts ==> NoneOpens(p.before)) && NoneOpens(behind)
    ensures ReadLines(Reader(blocks, None, ""), PartLines(parts) + behind) ==
      Reader(blocks + BlocksIn(parts), None, "")
    decreases |parts|
  {
    if |parts| == 0 {
      OutsideIgnored(blocks, behind);
      assert PartLines(parts) + behind == behind && blocks + BlocksIn(parts) == blocks;
    } else {
      var p, more := parts[0], parts[1..];
      SurroundingsIgnored(blocks + [p.block], more, behind);
      PartRead(blocks, p, PartLines(more) + behind);
      Nested(p.before, BlockLines(p.block), PartLines(more), behind);
      assert blocks + BlocksIn(parts) == blocks + [p.block] + BlocksIn(more);
    }
  }

  /** Inside a block an end of another type is ignored; its own end closes it, and drops it when its text cannot be
      decoded. */
  lemma EndMeans(r: Reader, kind: string)
    requires r.current.Some?
    ensures var after := ReadLine(r, END + kind + DASHES);
      if r.current != Some(kind) then after == r
      else after == Reader(if Base64Decode(r.text).Some? then r.blocks + [Block(kind, Base64Decode(r.text).value)]
                           else r.blocks, None, "")
  {
    var line := END + kind + DASHES;
    TrimmedAlready(line);
    assert line[5] == 'E' && BEGIN[5] == 'B';
    assert line[|END|..] == kind + DASHES;
    assert (kind + DASHES)[..|kind|] == kind && (kind + DASHES)[|kind|..] == DASHES;
  }

  // ---------------------------------------------------------------- a block's type never holds a newline

  lemma {:induction false} LinesHaveNoNewline(s: string, i: nat)
    requires i < |Lines(s)|
    ensures '\n' !in Lines(s)[i]
    decreases |s|
  {
    var n := LineLength(s);
    if n < |s| && i > 0 {
      LinesHaveNoNewline(s[n + 1..], i - 1);
    } else if n == |s| {
      assert s[..n] == s;
    } else if n > 0 {
      assert forall j :: 0 <= j < n - 1 ==> s[..n - 1][j] == s[..n][j];
    }
  }

  lemma {:induction false} TrimIsPart(s: string, c: char)
    requires c !in s
    ensures c !in Trim(s)
  {
    LeftIsPart(s, c);
    RightIsPart(TrimLeft(s), c);
  }

  lemma {:induction false} LeftIsPart(s: string, c: char)
    requires c !in s
    ensures c !in TrimLeft(s)
  {
    if s != "" && IsWhitespace(s[0]) {
      LeftIsPart(s[1..], c);
    }
  }

  lemma {:induction false} RightIsPart(s: string, c: char)
    requires c !in s
    ensures c !in TrimRight(s)
  {
    if s != "" && IsWhitespace(s[|s| - 1]) {
      RightIsPart(s[..|s| - 1], c);
    }
  }

  predicate OneLine(r: Reader) {
    (forall b :: b in r.blocks ==> '\n' !in b.kind) && (r.current.Some? ==> '\n' !in r.current.value)
  }

  lemma LineKeepsOneLine(r: Reader, line: string)
    requires OneLine(r) && '\n' !in line
    ensures OneLine(ReadLine(r, line))
  {
    TrimIsPart(line, '\n');
  }

  lemma {:induction false} LinesKeepOneLine(r: Reader, lines: seq<string>)
    requires OneLine(r) && forall l :: l in lines ==> '\n' !in l
    ensures OneLine(ReadLines(r, lines))
    decreases |lines|
  {
    if lines != [] {
      LineKeepsOneLine(r, lines[0]);
      LinesKeepOneLine(ReadLine(r, lines[0]), lines[1..]);
    }
  }

  lemma KindsAreOneLine(data: string)
    ensures forall b :: b in BlocksOf(data) ==> '\n' !in b.kind
  {
    forall l | l in Lines(data) ensures '\n' !in l {
      var i :| 0 <= i < |Lines(data)| && Lines(data)[i] == l;
      LinesHaveNoNewline(data, i);
    }
    LinesKeepOneLine(START, Lines(data));
  }

  // ---------------------------------------------------------------- splitting a combined file

  datatype Split = Files(cert: string, key: string) | NoBlocks | NoCertificate | NoKey

  predicate IsCertificate(b: Block) {
    b.kind == "CERTIFICATE"
  }

  predicate IsKey(b: Block) {
    b.kind == "PRIVATE KEY" || b.kind == "RSA PRIVATE KEY" || b.kind == "EC PRIVATE KEY"
  }

  function Certificates(blocks: seq<Block>): (kept: seq<Block>)
    ensures forall b :: b in kept ==> b in blocks && IsCertificate(b)
  {
    if |blocks| == 0 then []
    else
      var rest, b := Certificates(blocks[..|blocks| - 1]), blocks[|blocks| - 1];
      if IsCertificate(b) then rest + [b] else rest
  }

  function Keys(blocks: seq<Block>): (kept: seq<Block>)
    ensures forall b :: b in kept ==> b in blocks && IsKey(b)
  {
    if |blocks| == 0 then []
    else
      var rest, b := Keys(blocks[..|blocks| - 1]), blocks[|blocks| - 1];
      if IsKey(b) then rest + [b] else rest
  }

  lemma WrittenIsNotEmpty(blocks: seq<Block>)
    ensures WrittenAll(blocks) == "" <==> |blocks| == 0
  {}

  method SplitBlocks(blocks: seq<Block>) returns (cert: string, key: string)
    ensures cert == WrittenAll(Certificates(blocks)) && key == WrittenAll(Keys(blocks))
  {
    cert, key := "", "";
    for i := 0 to |blocks|
      invariant cert == WrittenAll(Certificates(blocks[..i])) && key == WrittenAll(Keys(blocks[..i]))
    {
      assert blocks[..i + 1][..i] == blocks[..i];
      var b := blocks[i];
      var body := PemEncode(b.der);
      var text := BEGIN + b.kind + DASHES + "\n" + body + END + b.kind + DASHES + "\n";
      if IsCertificate(b) {
        WrittenSnoc(Certificates(blocks[..i]), b);
        cert := cert + text;
      } else if IsKey(b) {
        WrittenSnoc(Keys(blocks[..i]), b);
        key := key + text;
      }
    }
    assert blocks[..|blocks|] == blocks;
  }

  lemma PartIsOneLine(b: Block)
    requires IsCertificate(b) || IsKey(b)
    ensures '\n' !in b.kind
  {
    assert '\n' !in "CERTIFICATE" && '\n' !in "PRIVATE KEY" && '\n' !in "RSA PRIVATE KEY" && '\n' !in "EC PRIVATE KEY";
  }

  lemma PartReads(blocks: seq<Block>)
    requires forall b :: b in blocks ==> IsCertificate(b) || IsKey(b)
    ensures BlocksOf(WrittenAll(blocks)) == blocks
  {
    forall b | b in blocks ensures '\n' !in b.kind {
      PartIsOneLine(b);
    }
    BlocksRoundTrip(blocks, WrittenAll(blocks));
  }

  /** Splits a combined file.  Both parts together keep every certificate and every key, in order and byte for byte,
      and a part is missing exactly when the input has no block for it. */
  method SplitCombined(data: string) returns (split: Split)
    ensures var certs, keys := Certificates(BlocksOf(data)), Keys(BlocksOf(data));
      match split
      case Files(cert, key) => |certs| > 0 && |keys| > 0 && BlocksOf(cert) == certs && BlocksOf(key) == keys
      case NoBlocks => |certs| == 0 && |keys| == 0
      case NoCertificate => |certs| == 0 && |keys| > 0
      case NoKey => |certs| > 0 && |keys| == 0
  {
    var blocks := PemBlocks(data);
    var cert, key := SplitBlocks(blocks);
    PartReads(Certificates(blocks));
    PartReads(Keys(blocks));
    WrittenIsNotEmpty(Certificates(blocks));
    WrittenIsNotEmpty(Keys(blocks));
    if cert == "" && key == "" {
      return NoBlocks;
    }
    if cert == "" {
      return NoCertificate;
    }
    if key == "" {
      return NoKey;
    }
    split := Files(cert, key);
  }

  /** Any file, once read and written back, reads the same. */
  lemma RewritingIsStable(data: string, text: string)
    requires text == WrittenAll(BlocksOf(data))
    ensures BlocksOf(text) == BlocksOf(data)
  {
    KindsAreOneLine(data);
    BlocksRoundTrip(BlocksOf(data), text);
  }
}
