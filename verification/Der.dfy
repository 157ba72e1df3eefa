/** The DER reader and what it takes out of private keys. */
module Der {
  import opened Options
  import opened Base64

  type Bytes = seq<Byte>

  /** One element as it was read: tag, content, and the bytes it occupied. */
  datatype Tlv = Tlv(tag: Byte, content: Bytes, raw: Bytes)

  // ---------------------------------------------------------------- reading one element

  /** A big-endian number. */
  function BigEndian(bytes: Bytes): (n: nat) {
    if |bytes| == 0 then 0 else BigEndian(bytes[..|bytes| - 1]) * 256 + bytes[|bytes| - 1] as int
  }

  /** The content length and the size of tag and length bytes together. */
  function Header(buf: Bytes): (h: Option<(nat, nat)>)
    ensures h.Some? ==> 2 <= h.value.1 <= |buf|
  {
    if |buf| < 2 then None
    else if buf[1] < 128 then Some((buf[1] as int, 2))
    else
      var n := (buf[1] - 128) as int;
      if n == 0 || n > 4 || |buf| < 2 + n then None else Some((BigEndian(buf[2..2 + n]), 2 + n))
  }

  function ReadTlv(buf: Bytes): (t: Option<Tlv>)
    ensures t.Some? ==> 2 <= |t.value.raw| <= |buf| && t.value.raw == buf[..|t.value.raw|] && t.value.tag == buf[0]
    ensures t.Some? ==> |t.value.content| + 2 <= |t.value.raw|
  {
    var h := Header(buf);
    if h.None? || |buf| < h.value.1 + h.value.0 then None
    else Some(Tlv(buf[0], buf[h.value.1..h.value.1 + h.value.0], buf[..h.value.1 + h.value.0]))
  }

  method ReadElement(buf: Bytes) returns (t: Option<Tlv>)
    ensures t == ReadTlv(buf)
  {
    if |buf| < 2 {
      return None;
    }
    var length, header := buf[1] as int, 2;
    if buf[1] >= 128 {
      var n := (buf[1] - 128) as int;
      if n == 0 || n > 4 || |buf| < 2 + n {
        return None;
      }
      var bytes := buf[2..2 + n];
      length, header := 0, 2 + n;
      for i := 0 to n
        invariant length == BigEndian(bytes[..i])
      {
        assert bytes[..i + 1][..i] == bytes[..i];
        length := length * 256 + bytes[i] as int;
      }
      assert bytes[..n] == bytes;
    }
    if |buf| < header + length {
      return None;
    }
    t := Some(Tlv(buf[0], buf[header..header + length], buf[..header + length]));
  }

  // ---------------------------------------------------------------- reading a list of elements

  function Children(content: Bytes): seq<Tlv>
    decreases |content|
  {
    var t := ReadTlv(content);
    if t.None? then [] else [t.value] + Children(content[|t.value.raw|..])
  }

  /** The bytes after the last element that could be read. */
  function Leftover(content: Bytes): Bytes
    decreases |content|
  {
    var t := ReadTlv(content);
    if t.None? then content else Leftover(content[|t.value.raw|..])
  }

  function RawAll(elements: seq<Tlv>): Bytes {
    if |elements| == 0 then [] else elements[0].raw + RawAll(elements[1..])
  }

  method ReadChildren(content: Bytes) returns (elements: seq<Tlv>)
    ensures elements == Children(content)
  {
    elements := [];
    var rest := content;
    while true
      invariant elements + Children(rest) == Children(content)
      decreases |rest|
    {
      var t := ReadElement(rest);
      if t.None? {
        break;
      }
      assert elements + ([t.value] + Children(rest[|t.value.raw|..]))
        == elements + [t.value] + Children(rest[|t.value.raw|..]);
      elements := elements + [t.value];
      rest := rest[|t.value.raw|..];
    }
  }

  /** The walk drops and invents nothing: the raw elements and the leftover are the content, nothing more can be
      read from the leftover, and each element alone reads as itself. */
  lemma {:induction false} ChildrenCover(content: Bytes)
    ensures RawAll(Children(content)) + Leftover(content) == content && ReadTlv(Leftover(content)).None?
    ensures forall t :: t in Children(content) ==> ReadTlv(t.raw) == Some(t)
    decreases |content|
  {
    var t := ReadTlv(content);
    if t.Some? {
      var rest := content[|t.value.raw|..];
      ChildrenCover(rest);
      assert content == t.value.raw + rest;
      assert ([t.value] + Children(rest))[1..] == Children(rest);
      assert t.value.raw + RawAll(Children(rest)) + Leftover(rest)
        == t.value.raw + (RawAll(Children(rest)) + Leftover(rest));
      ReadAgain(content);
    }
  }

  lemma ReadAgain(buf: Bytes)
    requires ReadTlv(buf).Some?
    ensures ReadTlv(ReadTlv(buf).value.raw) == ReadTlv(buf)
  {
    var h, raw := Header(buf).value, ReadTlv(buf).value.raw;
    if buf[1] >= 128 {
      assert raw[2..h.1] == buf[2..h.1];
    }
    assert raw[h.1..h.1 + h.0] == buf[h.1..h.1 + h.0];
    assert raw[..|raw|] == raw;
  }

  // ---------------------------------------------------------------- definite-length encodings

  /** A definite-length encoding: any of the forms of section 8.1.3 of X.690 that fits, short, or long with up to
      four length bytes, minimal or not. */
  datatype Element = Short(tag: Byte, content: Bytes) | Long(tag: Byte, length: Bytes, content: Bytes)

  predicate WellFormed(e: Element) {
    match e
    case Short(_, content) => |content| < 128
    case Long(_, length, content) => 1 <= |length| <= 4 && BigEndian(length) == |content|
  }

  function Encode(e: Element): Bytes
    requires WellFormed(e)
  {
    match e
    case Short(tag, content) => [tag, |content| as Byte] + content
    case Long(tag, length, content) => [tag, (128 + |length|) as Byte] + length + content
  }

  lemma ReadEncoded(e: Element, rest: Bytes)
    requires WellFormed(e)
    ensures ReadTlv(Encode(e) + rest) == Some(Tlv(e.tag, e.content, Encode(e)))
  {
    var raw := Encode(e);
    var buf := raw + rest;
    assert buf[0] == e.tag;
    match e
    case Short(tag, content) =>
      assert buf[2..2 + |content|] == content;
      assert buf[..2 + |content|] == raw;
    case Long(tag, length, content) =>
      var n := |length|;
      assert buf[1] == (128 + n) as Byte;
      assert buf[2..2 + n] == length;
      assert buf[2 + n..2 + n + |content|] == content;
      assert buf[..2 + n + |content|] == raw;
  }

  function EncodeAll(es: seq<Element>): Bytes
    requires forall e :: e in es ==> WellFormed(e)
  {
    if |es| == 0 then [] else Encode(es[0]) + EncodeAll(es[1..])
  }

  function AsRead(es: seq<Element>): seq<Tlv>
    requires forall e :: e in es ==> WellFormed(e)
  {
    if |es| == 0 then [] else [Tlv(es[0].tag, es[0].content, Encode(es[0]))] + AsRead(es[1..])
  }

  /** The children of an encoded list are the list: tags, contents and encodings, whatever length form each took. */
  lemma {:induction false} EncodedChildren(es: seq<Element>)
    requires forall e :: e in es ==> WellFormed(e)
    ensures Children(EncodeAll(es)) == AsRead(es) && Leftover(EncodeAll(es)) == []
  {
    if |es| > 0 {
      var raw, rest := Encode(es[0]), EncodeAll(es[1..]);
      ReadEncoded(es[0], rest);
      EncodedChildren(es[1..]);
      assert (raw + rest)[|raw|..] == rest;
    }
  }

  // ---------------------------------------------------------------- public material of private keys

  const SEQUENCE: Byte := 0x30
  const OID: Byte := 0x06
  const OCTETS: Byte := 0x04
  const BITS: Byte := 0x03
  const INTEGER: Byte := 0x02
  const CONTEXT1: Byte := 0xA1

  const OID_RSA: Bytes := [0x2A, 0x86, 0x48, 0x86, 0xF7, 0x0D, 0x01, 0x01, 0x01]
  const OID_EC: Bytes := [0x2A, 0x86, 0x48, 0xCE, 0x3D, 0x02, 0x01]

  datatype Fault =
    | Truncated | NotASequence | NoAlgorithm | OtherAlgorithm | Unrecognized
    | NoPoint | EmptyPoint | NoModulus | NoExponent

  datatype Material = EcPoint(point: Bytes) | RsaNAndE(n: Bytes, e: Bytes) | Refused(fault: Fault)

  /** The children of an outer SEQUENCE. */
  function Parts(der: Bytes): Option<seq<Tlv>> {
    var t := ReadTlv(der);
    if t.None? || t.value.tag != SEQUENCE then None else Some(Children(t.value.content))
  }

  function SequenceFault(der: Bytes): Fault {
    if ReadTlv(der).None? then Truncated else NotASequence
  }

  /** The first element with a tag. */
  function FindTag(parts: seq<Tlv>, tag: Byte): Option<Tlv> {
    if |parts| == 0 then None else if parts[0].tag == tag then Some(parts[0]) else FindTag(parts[1..], tag)
  }

  function Sec1PublicKey(der: Bytes): Material {
    var parts := Parts(der);
    if parts.None? then Refused(SequenceFault(der))
    else
      var holder := FindTag(parts.value, CONTEXT1);
      var bits := if holder.Some? then ReadTlv(holder.value.content) else None;
      if bits.None? || bits.value.tag != BITS then Refused(NoPoint)
      else if |bits.value.content| < 1 then Refused(EmptyPoint)
      else EcPoint(bits.value.content[1..])
  }

  function RsaPublicKey(der: Bytes): Material {
    var parts := Parts(der);
    if parts.None? then Refused(SequenceFault(der))
    else if |parts.value| < 2 || parts.value[1].tag != INTEGER then Refused(NoModulus)
    else if |parts.value| < 3 || parts.value[2].tag != INTEGER then Refused(NoExponent)
    else RsaNAndE(parts.value[1].raw, parts.value[2].raw)
  }

  function KeyPublicMaterial(der: Bytes): Material {
    var found := Parts(der);
    if found.None? then Refused(SequenceFault(der))
    else
      var parts := found.value;
      var integerFirst := |parts| > 0 && parts[0].tag == INTEGER;
      if integerFirst && |parts| >= 3 && parts[1].tag == SEQUENCE && parts[2].tag == OCTETS then
        var algorithm := Children(parts[1].content);
        if |algorithm| == 0 || algorithm[0].tag != OID then Refused(NoAlgorithm)
        else if algorithm[0].content == OID_EC then Sec1PublicKey(parts[2].content)
        else if algorithm[0].content == OID_RSA then RsaPublicKey(parts[2].content)
        else Refused(OtherAlgorithm)
      else if integerFirst && |parts| >= 2 && parts[1].tag == OCTETS then Sec1PublicKey(der)
      else if integerFirst && |parts| >= 3 && parts[1].tag == INTEGER then RsaPublicKey(der)
      else Refused(Unrecognized)
  }

  // ---------------------------------------------------------------- wrapping does not change the key

  /** An outer SEQUENCE around elements, in either length form. */
  predicate Wraps(outer: Element, es: seq<Element>) {
    WellFormed(outer) && outer.tag == SEQUENCE && (forall e :: e in es ==> WellFormed(e)) &&
      outer.content == EncodeAll(es)
  }

  lemma WrappedParts(outer: Element, es: seq<Element>)
    requires Wraps(outer, es)
    ensures Parts(Encode(outer)) == Some(AsRead(es))
  {
    ReadEncoded(outer, []);
    assert Encode(outer) + [] == Encode(outer);
    EncodedChildren(es);
  }

  lemma AsReadPrefix(es: seq<Element>)
    requires forall e :: e in es ==> WellFormed(e)
    ensures |AsRead(es)| == |es|
    ensures forall i :: 0 <= i < |es| ==> AsRead(es)[i] == Tlv(es[i].tag, es[i].content, Encode(es[i]))
  {}

  /** A SEC1 key (section 3 of RFC 5915): version, private key octets, then optional fields. */
  predicate IsSec1(key: Element, es: seq<Element>) {
    Wraps(key, es) && |es| >= 2 && es[0].tag == INTEGER && es[1].tag == OCTETS
  }

  /** A PKCS#1 key: version, modulus, exponent and more. */
  predicate IsPkcs1(key: Element, es: seq<Element>) {
    Wraps(key, es) && |es| >= 3 && es[0].tag == INTEGER && es[1].tag == INTEGER
  }

  /** A PKCS#8 wrapping (section 2 of RFC 5958) of a key under an algorithm: version, algorithm, key octets, and
      perhaps attributes. */
  predicate IsPkcs8(outer: Element, es: seq<Element>, algorithm: seq<Element>, oid: Bytes, inner: Bytes) {
    && Wraps(outer, es) && |es| >= 3
    && es[0].tag == INTEGER && Wraps(es[1], algorithm) && es[2].tag == OCTETS && es[2].content == inner
    && |algorithm| >= 1 && algorithm[0].tag == OID && algorithm[0].content == oid
  }

  lemma Pkcs8Unwraps(outer: Element, es: seq<Element>, algorithm: seq<Element>, oid: Bytes, inner: Bytes)
    requires IsPkcs8(outer, es, algorithm, oid, inner)
    ensures oid == OID_EC ==> KeyPublicMaterial(Encode(outer)) == Sec1PublicKey(inner)
    ensures oid == OID_RSA ==> KeyPublicMaterial(Encode(outer)) == RsaPublicKey(inner)
    ensures oid != OID_EC && oid != OID_RSA ==> KeyPublicMaterial(Encode(outer)) == Refused(OtherAlgorithm)
  {
    Pkcs8Parts(outer, es, algorithm, oid, inner);
    ByAlgorithm(Encode(outer), AsRead(es), Children(AsRead(es)[1].content), oid, inner);
  }

  lemma OidsDiffer()
    ensures OID_RSA != OID_EC
  {
    assert OID_RSA[3] != OID_EC[3];
  }

  lemma ByAlgorithm(der: Bytes, parts: seq<Tlv>, algorithm: seq<Tlv>, oid: Bytes, inner: Bytes)
    requires Parts(der) == Some(parts) && |parts| >= 3 && algorithm == Children(parts[1].content)
    requires parts[0].tag == INTEGER && parts[1].tag == SEQUENCE && parts[2].tag == OCTETS && parts[2].content == inner
    requires |algorithm| >= 1 && algorithm[0].tag == OID && algorithm[0].content == oid
    ensures oid == OID_EC ==> KeyPublicMaterial(der) == Sec1PublicKey(inner)
    ensures oid == OID_RSA ==> KeyPublicMaterial(der) == RsaPublicKey(inner)
    ensures oid != OID_EC && oid != OID_RSA ==> KeyPublicMaterial(der) == Refused(OtherAlgorithm)
  {
    OidsDiffer();
  }

  lemma Pkcs8Parts(outer: Element, es: seq<Element>, algorithm: seq<Element>, oid: Bytes, inner: Bytes)
    requires IsPkcs8(outer, es, algorithm, oid, inner)
    ensures Parts(Encode(outer)) == Some(AsRead(es)) && |AsRead(es)| >= 3
    ensures var parts := AsRead(es);
      parts[0].tag == INTEGER && parts[1].tag == SEQUENCE && parts[2].tag == OCTETS && parts[2].content == inner
    ensures var read := Children(AsRead(es)[1].content);
      |read| >= 1 && read[0].tag == OID && read[0].content == oid
  {
    WrappedParts(outer, es);
    AsReadPrefix(es);
    EncodedChildren(algorithm);
    AsReadPrefix(algorithm);
  }

  /** A SEC1 key gives the same material bare and wrapped in PKCS#8, even when the key has no point. */
  lemma Sec1WrappedOrBare(outer: Element, es: seq<Element>, algorithm: seq<Element>, key: Element,
                          fields: seq<Element>, wrapped: Bytes, bare: Bytes)
    requires IsSec1(key, fields) && bare == Encode(key)
    requires IsPkcs8(outer, es, algorithm, OID_EC, bare) && wrapped == Encode(outer)
    ensures KeyPublicMaterial(wrapped) == KeyPublicMaterial(bare) == Sec1PublicKey(bare)
  {
    Pkcs8Unwraps(outer, es, algorithm, OID_EC, Encode(key));
    WrappedParts(key, fields);
    AsReadPrefix(fields);
  }

  /** The same for an RSA key. */
  lemma Pkcs1WrappedOrBare(outer: Element, es: seq<Element>, algorithm: seq<Element>, key: Element,
                           fields: seq<Element>, wrapped: Bytes, bare: Bytes)
    requires IsPkcs1(key, fields) && bare == Encode(key)
    requires IsPkcs8(outer, es, algorithm, OID_RSA, bare) && wrapped == Encode(outer)
    ensures KeyPublicMaterial(wrapped) == KeyPublicMaterial(bare) == RsaPublicKey(bare)
  {
    Pkcs8Unwraps(outer, es, algorithm, OID_RSA, Encode(key));
    WrappedParts(key, fields);
    AsReadPrefix(fields);
  }

  lemma {:induction false} FindEncoded(es: seq<Element>, tag: Byte, i: nat)
    requires (forall e :: e in es ==> WellFormed(e)) && i < |es| && es[i].tag == tag
    requires forall j :: 0 <= j < i ==> es[j].tag != tag
    ensures FindTag(AsRead(es), tag) == Some(Tlv(tag, es[i].content, Encode(es[i])))
  {
    assert AsRead(es)[1..] == AsRead(es[1..]);
    if i > 0 {
      FindEncoded(es[1..], tag, i - 1);
    }
  }

  lemma {:induction false} NoneFound(es: seq<Element>, tag: Byte)
    requires forall e :: e in es ==> WellFormed(e) && e.tag != tag
    ensures FindTag(AsRead(es), tag) == None
  {
    if |es| > 0 {
      assert AsRead(es)[1..] == AsRead(es[1..]);
      NoneFound(es[1..], tag);
    }
  }

  /** What is refused: anything but a SEQUENCE, one that does not begin with a version, and a SEC1 key without a [1]
      field. */
  lemma RefusedKeys(outer: Element, es: seq<Element>)
    requires WellFormed(outer)
    ensures outer.tag != SEQUENCE ==> KeyPublicMaterial(Encode(outer)) == Refused(NotASequence)
    ensures Wraps(outer, es) && (|es| == 0 || es[0].tag != INTEGER) ==>
      KeyPublicMaterial(Encode(outer)) == Refused(Unrecognized)
    ensures IsSec1(outer, es) && (forall e :: e in es ==> e.tag != CONTEXT1) ==>
      KeyPublicMaterial(Encode(outer)) == Refused(NoPoint)
  {
    ReadEncoded(outer, []);
    assert Encode(outer) + [] == Encode(outer);
    if Wraps(outer, es) {
      WrappedParts(outer, es);
      AsReadPrefix(es);
      if forall e :: e in es ==> e.tag != CONTEXT1 {
        NoneFound(es, CONTEXT1);
      }
    }
  }

  /** The point of a SEC1 key is the bits of its first [1] field, after the byte that counts unused bits. */
  lemma Sec1Point(key: Element, fields: seq<Element>, i: nat, bits: Element, unused: Byte, point: Bytes)
    requires IsSec1(key, fields) && i < |fields| && fields[i].tag == CONTEXT1
    requires forall j :: 0 <= j < i ==> fields[j].tag != CONTEXT1
    requires WellFormed(bits) && bits.tag == BITS && bits.content == [unused] + point &&
      fields[i].content == Encode(bits)
    ensures KeyPublicMaterial(Encode(key)) == EcPoint(point)
  {
    WrappedParts(key, fields);
    AsReadPrefix(fields);
    FindEncoded(fields, CONTEXT1, i);
    ReadEncoded(bits, []);
    assert Encode(bits) + [] == Encode(bits);
  }

  /** The modulus and exponent of an RSA key are the encodings of its second and third fields. */
  lemma Pkcs1Numbers(key: Element, fields: seq<Element>)
    requires IsPkcs1(key, fields) && fields[2].tag == INTEGER
    ensures KeyPublicMaterial(Encode(key)) == RsaNAndE(Encode(fields[1]), Encode(fields[2]))
  {
    WrappedParts(key, fields);
    AsReadPrefix(fields);
  }
}
