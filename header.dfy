// The fixed replay header (header.py / header.go): a 48-byte base header
// starting with a 28-byte magic, then a 16-byte (version 0) or 20-byte
// (version 1) sub-header, all little-endian. The stream is modelled as the
// bytes it would deliver; `parse_header_from_bytes` is `ParseHeader` over
// the same bytes.

module Header {
  import opened Common
  import opened Models

  const BaseHeaderSize: nat := 0x30
  const SubHeaderV0Size: nat := 0x10
  const SubHeaderV1Size: nat := 0x14

  /** "Warcraft III recorded game\x1a\x00". */
  const Magic: seq<u8> :=
    [0x57, 0x61, 0x72, 0x63, 0x72, 0x61, 0x66, 0x74, 0x20, 0x49, 0x49, 0x49, 0x20, 0x72,
     0x65, 0x63, 0x6F, 0x72, 0x64, 0x65, 0x64, 0x20, 0x67, 0x61, 0x6D, 0x65, 0x1A, 0x00]

  function SubHeaderSize(headerVersion: nat): (n: nat)
    requires headerVersion < 2
    ensures n == 16 || n == 20
  {
    if headerVersion == 0 then SubHeaderV0Size else SubHeaderV1Size
  }

  /**
   * Decodes the header at the start of `stream`. Errors, in the order they
   * are checked: a short base header (Python reports the bytes it got, Go
   * the size it wanted), a wrong magic, a header version other than 0 or 1,
   * a short sub-header (Python again reports the bytes it got, Go 48).
   */
  function ParseHeader(port: Port, stream: seq<u8>): (r: Result<ReplayHeader>)
    ensures |stream| < BaseHeaderSize ==>
      r == Err(TruncatedData(if port == Py then |stream| else BaseHeaderSize))
    ensures BaseHeaderSize <= |stream| && stream[..28] != Magic ==> r == Err(InvalidHeader)
    ensures BaseHeaderSize <= |stream| && stream[..28] == Magic && LE32(stream, 0x24) >= 2 ==>
      r == Err(InvalidHeader)
    ensures BaseHeaderSize <= |stream| && stream[..28] == Magic && LE32(stream, 0x24) < 2
      && |stream| < BaseHeaderSize + SubHeaderSize(LE32(stream, 0x24))
      ==> r == Err(TruncatedData(if port == Py then |stream| else BaseHeaderSize))
    ensures r.Ok? ==>
      var h := r.value;
      h.magic == Magic && h.headerVersion < 2
      && |h.rawHeader| == BaseHeaderSize + SubHeaderSize(h.headerVersion) <= |stream|
      && h.rawHeader == stream[..|h.rawHeader|]
      && |h.identifier| == 4 && (h.headerVersion == 0 ==> h.identifier == IdClassic)
      && HeaderFieldsInRange(h)
  {
    if |stream| < BaseHeaderSize then
      Err(TruncatedData(if port == Py then |stream| else BaseHeaderSize))
    else if stream[..28] != Magic then Err(InvalidHeader)
    else
      var hv := LE32(stream, 0x24);
      if hv >= 2 then Err(InvalidHeader)
      else if |stream| < BaseHeaderSize + SubHeaderSize(hv) then
        Err(TruncatedData(if port == Py then |stream| else BaseHeaderSize))
      else if hv == 0 then Ok(DecodeV0(stream))
      else Ok(DecodeV1(stream))
  }

  /** Fields of a version-0 header; the identifier is always "WAR3". */
  function DecodeV0(stream: seq<u8>): ReplayHeader
    requires BaseHeaderSize + SubHeaderV0Size <= |stream|
  {
    ReplayHeader(
      magic := stream[..28],
      headerSize := LE32(stream, 0x1C),
      compressedSize := LE32(stream, 0x20),
      headerVersion := LE32(stream, 0x24),
      decompressedSize := LE32(stream, 0x28),
      numBlocks := LE32(stream, 0x2C),
      identifier := IdClassic,
      version := LE16(stream, 0x32),
      build := LE16(stream, 0x34),
      flags := LE16(stream, 0x36),
      durationMs := LE32(stream, 0x38),
      crc32 := LE32(stream, 0x3C),
      rawHeader := stream[..BaseHeaderSize + SubHeaderV0Size])
  }

  /** Fields of a version-1 header; the identifier is the four bytes as stored. */
  function DecodeV1(stream: seq<u8>): ReplayHeader
    requires BaseHeaderSize + SubHeaderV1Size <= |stream|
  {
    ReplayHeader(
      magic := stream[..28],
      headerSize := LE32(stream, 0x1C),
      compressedSize := LE32(stream, 0x20),
      headerVersion := LE32(stream, 0x24),
      decompressedSize := LE32(stream, 0x28),
      numBlocks := LE32(stream, 0x2C),
      identifier := stream[0x30..0x34],
      version := LE32(stream, 0x34),
      build := LE16(stream, 0x38),
      flags := LE16(stream, 0x3A),
      durationMs := LE32(stream, 0x3C),
      crc32 := LE32(stream, 0x40),
      rawHeader := stream[..BaseHeaderSize + SubHeaderV1Size])
  }

  /** Every decoded field fits the width it is read with. */
  predicate HeaderFieldsInRange(h: ReplayHeader)
  {
    h.headerSize < 0x1_0000_0000 && h.compressedSize < 0x1_0000_0000
    && h.headerVersion < 0x1_0000_0000 && h.decompressedSize < 0x1_0000_0000
    && h.numBlocks < 0x1_0000_0000 && h.version < 0x1_0000_0000
    && h.build < 0x1_0000 && h.flags < 0x1_0000
    && h.durationMs < 0x1_0000_0000 && h.crc32 < 0x1_0000_0000
    && (h.headerVersion == 0 ==> h.version < 0x1_0000)
  }

  /** A header a writer could produce: its raw bytes are the encoding of its fields. */
  predicate WellFormed(h: ReplayHeader)
  {
    h.magic == Magic && h.headerVersion < 2 && HeaderFieldsInRange(h)
    && |h.identifier| == 4 && (h.headerVersion == 0 ==> h.identifier == IdClassic)
    && h.rawHeader == EncodeHeader(h)
  }

  /** The writer's side: base header then sub-header. */
  function EncodeHeader(h: ReplayHeader): (s: seq<u8>)
    requires h.headerVersion < 2 && HeaderFieldsInRange(h) && |h.identifier| == 4
    ensures |s| == |h.magic| + 20 + SubHeaderSize(h.headerVersion)
  {
    EncodeBase(h) + EncodeSub(h)
  }

  function EncodeBase(h: ReplayHeader): (s: seq<u8>)
    requires HeaderFieldsInRange(h)
    ensures |s| == |h.magic| + 20
  {
    h.magic + Enc32(h.headerSize) + Enc32(h.compressedSize) + Enc32(h.headerVersion)
    + Enc32(h.decompressedSize) + Enc32(h.numBlocks)
  }

  /** Version 0 writes a zero unknown word where version 1 writes the identifier. */
  function EncodeSub(h: ReplayHeader): (s: seq<u8>)
    requires h.headerVersion < 2 && HeaderFieldsInRange(h) && |h.identifier| == 4
    ensures |s| == SubHeaderSize(h.headerVersion)
  {
    if h.headerVersion == 0 then
      Enc16(0) + Enc16(h.version) + Enc16(h.build) + Enc16(h.flags)
      + Enc32(h.durationMs) + Enc32(h.crc32)
    else
      h.identifier + Enc32(h.version) + Enc16(h.build) + Enc16(h.flags)
      + Enc32(h.durationMs) + Enc32(h.crc32)
  }

  /** The piece `m` of `a + m + b` sits at offset `|a|`. */
  lemma PieceAt(s: seq<u8>, a: seq<u8>, m: seq<u8>, b: seq<u8>)
    requires s == a + m + b
    ensures s[|a|..|a| + |m|] == m
  {
  }

  lemma ReadBase(h: ReplayHeader)
    requires HeaderFieldsInRange(h) && |h.magic| == 28
    ensures var u := EncodeBase(h);
      u[..28] == h.magic
      && LE32(u, 0x1C) == h.headerSize && LE32(u, 0x20) == h.compressedSize
      && LE32(u, 0x24) == h.headerVersion && LE32(u, 0x28) == h.decompressedSize
      && LE32(u, 0x2C) == h.numBlocks
  {
    var m, e1, e2, e3, e4, e5 := h.magic, Enc32(h.headerSize), Enc32(h.compressedSize),
      Enc32(h.headerVersion), Enc32(h.decompressedSize), Enc32(h.numBlocks);
    var u := EncodeBase(h);
    assert u == m + e1 + e2 + e3 + e4 + e5;
    assert u == m + e1 + (e2 + e3 + e4 + e5);
    LE32Enc(m, h.headerSize, e2 + e3 + e4 + e5);
    assert u == (m + e1) + e2 + (e3 + e4 + e5);
    LE32Enc(m + e1, h.compressedSize, e3 + e4 + e5);
    assert u == (m + e1 + e2) + e3 + (e4 + e5);
    LE32Enc(m + e1 + e2, h.headerVersion, e4 + e5);
    assert u == (m + e1 + e2 + e3) + e4 + e5;
    LE32Enc(m + e1 + e2 + e3, h.decompressedSize, e5);
    assert u == (m + e1 + e2 + e3 + e4) + e5 + [];
    LE32Enc(m + e1 + e2 + e3 + e4, h.numBlocks, []);
  }

  /** Fields read from a window of a buffer are the fields read from the buffer at the shifted offset. */
  lemma ReadShifted(s: seq<u8>, off: nat, u: seq<u8>, i: nat)
    requires off + |u| <= |s| && u == s[off..off + |u|]
    ensures i + 2 <= |u| ==> LE16(u, i) == LE16(s, off + i)
    ensures i + 4 <= |u| ==> LE32(u, i) == LE32(s, off + i)
  {
    if i + 2 <= |u| {
      assert u[i] == s[off + i] && u[i + 1] == s[off + i + 1];
    }
    if i + 4 <= |u| {
      assert u[i + 2] == s[off + i + 2] && u[i + 3] == s[off + i + 3];
    }
  }

  lemma ReadSubV0(h: ReplayHeader)
    requires HeaderFieldsInRange(h) && h.headerVersion == 0 && |h.identifier| == 4
    ensures var u := EncodeSub(h);
      LE16(u, 2) == h.version && LE16(u, 4) == h.build && LE16(u, 6) == h.flags
      && LE32(u, 8) == h.durationMs && LE32(u, 12) == h.crc32
  {
    var z, v, b, f, d, c := Enc16(0), Enc16(h.version), Enc16(h.build),
      Enc16(h.flags), Enc32(h.durationMs), Enc32(h.crc32);
    var u := EncodeSub(h);
    assert u == z + v + b + f + d + c;
    assert u == z + v + (b + f + d + c);
    LE16Enc(z, h.version, b + f + d + c);
    assert u == (z + v) + b + (f + d + c);
    LE16Enc(z + v, h.build, f + d + c);
    assert u == (z + v + b) + f + (d + c);
    LE16Enc(z + v + b, h.flags, d + c);
    assert u == (z + v + b + f) + d + c;
    LE32Enc(z + v + b + f, h.durationMs, c);
    assert u == (z + v + b + f + d) + c + [];
    LE32Enc(z + v + b + f + d, h.crc32, []);
  }

  lemma ReadSubV1(h: ReplayHeader)
    requires HeaderFieldsInRange(h) && h.headerVersion == 1 && |h.identifier| == 4
    ensures var u := EncodeSub(h);
      u[..4] == h.identifier
      && LE32(u, 4) == h.version && LE16(u, 8) == h.build && LE16(u, 10) == h.flags
      && LE32(u, 12) == h.durationMs && LE32(u, 16) == h.crc32
  {
    var i, v, b, f, d, c := h.identifier, Enc32(h.version), Enc16(h.build),
      Enc16(h.flags), Enc32(h.durationMs), Enc32(h.crc32);
    var u := EncodeSub(h);
    assert u == i + v + b + f + d + c;
    assert u == i + v + (b + f + d + c);
    LE32Enc(i, h.version, b + f + d + c);
    assert u == (i + v) + b + (f + d + c);
    LE16Enc(i + v, h.build, f + d + c);
    assert u == (i + v + b) + f + (d + c);
    LE16Enc(i + v + b, h.flags, d + c);
    assert u == (i + v + b + f) + d + c;
    LE32Enc(i + v + b + f, h.durationMs, c);
    assert u == (i + v + b + f + d) + c + [];
    LE32Enc(i + v + b + f + d, h.crc32, []);
  }

  /** Decoding an encoded header gives it back, whatever follows it in the stream. */
  lemma ParseEncodeHeader(port: Port, h: ReplayHeader, rest: seq<u8>)
    requires WellFormed(h)
    ensures ParseHeader(port, h.rawHeader + rest) == Ok(h)
  {
    var s := h.rawHeader + rest;
    assert s[..|h.rawHeader|] == h.rawHeader;
    assert s[..48] == EncodeBase(h) && s[48..|h.rawHeader|] == EncodeSub(h) by {
      assert h.rawHeader == EncodeBase(h) + EncodeSub(h);
    }
    BaseOfEncoded(s, h);
    if h.headerVersion == 0 {
      DecodeV0Encoded(s, h);
    } else {
      DecodeV1Encoded(s, h);
    }
  }

  lemma BaseOfEncoded(s: seq<u8>, h: ReplayHeader)
    requires HeaderFieldsInRange(h) && |h.magic| == 28
    requires 48 <= |s| && s[..48] == EncodeBase(h)
    ensures s[..28] == h.magic && LE32(s, 0x1C) == h.headerSize && LE32(s, 0x20) == h.compressedSize
    ensures LE32(s, 0x24) == h.headerVersion && LE32(s, 0x28) == h.decompressedSize
    ensures LE32(s, 0x2C) == h.numBlocks
  {
    var b := EncodeBase(h);
    ReadBase(h);
    assert s[..28] == b[..28];
    ReadShifted(s, 0, b, 0x1C);
    ReadShifted(s, 0, b, 0x20);
    ReadShifted(s, 0, b, 0x24);
    ReadShifted(s, 0, b, 0x28);
    ReadShifted(s, 0, b, 0x2C);
  }

  lemma DecodeV0Encoded(s: seq<u8>, h: ReplayHeader)
    requires WellFormed(h) && h.headerVersion == 0
    requires 64 <= |s| && s[..64] == h.rawHeader && s[48..64] == EncodeSub(h)
    requires s[..28] == h.magic && LE32(s, 0x1C) == h.headerSize && LE32(s, 0x20) == h.compressedSize
    requires LE32(s, 0x24) == h.headerVersion && LE32(s, 0x28) == h.decompressedSize
    requires LE32(s, 0x2C) == h.numBlocks
    ensures DecodeV0(s) == h
  {
    var u := EncodeSub(h);
    ReadSubV0(h);
    ReadShifted(s, 48, u, 2);
    ReadShifted(s, 48, u, 4);
    ReadShifted(s, 48, u, 6);
    ReadShifted(s, 48, u, 8);
    ReadShifted(s, 48, u, 12);
  }

  lemma DecodeV1Encoded(s: seq<u8>, h: ReplayHeader)
    requires WellFormed(h) && h.headerVersion == 1
    requires 68 <= |s| && s[..68] == h.rawHeader && s[48..68] == EncodeSub(h)
    requires s[..28] == h.magic && LE32(s, 0x1C) == h.headerSize && LE32(s, 0x20) == h.compressedSize
    requires LE32(s, 0x24) == h.headerVersion && LE32(s, 0x28) == h.decompressedSize
    requires LE32(s, 0x2C) == h.numBlocks
    ensures DecodeV1(s) == h
  {
    var u := EncodeSub(h);
    ReadSubV1(h);
    assert s[48..52] == u[..4];
    ReadShifted(s, 48, u, 4);
    ReadShifted(s, 48, u, 8);
    ReadShifted(s, 48, u, 10);
    ReadShifted(s, 48, u, 12);
    ReadShifted(s, 48, u, 16);
  }

  /** The two implementations accept the same headers and decode them alike; only truncation offsets differ. */
  lemma ParseHeaderPorts(stream: seq<u8>)
    ensures ParseHeader(Py, stream).Ok? <==> ParseHeader(Go, stream).Ok?
    ensures ParseHeader(Py, stream).Ok? ==> ParseHeader(Py, stream) == ParseHeader(Go, stream)
    ensures ParseHeader(Py, stream) == Err(InvalidHeader) <==> ParseHeader(Go, stream) == Err(InvalidHeader)
    ensures ParseHeader(Go, stream).Err? && ParseHeader(Go, stream) != Err(InvalidHeader) ==>
      ParseHeader(Go, stream) == Err(TruncatedData(BaseHeaderSize))
      && ParseHeader(Py, stream) == Err(TruncatedData(|stream|)) && |stream| < 68
  {
  }

  // ---------------------------------------------------------------------
  // The header fixtures of the test suite

  /** The fixture bytes after the magic: the rest of the base header, then the sub-header. */
  const ClassicTail: seq<u8> :=
    [0x40, 0x00, 0x00, 0x00, 0x00, 0x10, 0x00, 0x00, 0x00, 0x00, 0x00, 0x00, 0x00, 0x20, 0x00, 0x00, 0x01, 0x00, 0x00, 0x00]
    + [0x00, 0x00, 0x06, 0x01, 0x00, 0x10, 0x00, 0x80, 0xA0, 0x93, 0x04, 0x00, 0x00, 0x00, 0x00, 0x00]

  const ExpansionTail: seq<u8> :=
    [0x44, 0x00, 0x00, 0x00, 0x00, 0x10, 0x00, 0x00, 0x01, 0x00, 0x00, 0x00, 0x00, 0x20, 0x00, 0x00, 0x01, 0x00, 0x00, 0x00]
    + [0x57, 0x33, 0x58, 0x50, 0x1A, 0x00, 0x00, 0x00, 0x00, 0x10, 0x00, 0x80, 0xC0, 0x27, 0x09, 0x00, 0x00, 0x00, 0x00, 0x00]

  const ClassicFixture: seq<u8> := Magic + ClassicTail
  const ExpansionFixture: seq<u8> := Magic + ExpansionTail

  /** A version-0 header after the magic: its fields are read from the rest of the bytes. */
  lemma DecodeAfterMagicV0(port: Port, t: seq<u8>)
    requires 36 <= |t| && LE32(t, 8) == 0
    ensures ParseHeader(port, Magic + t) == Ok(DecodeV0(Magic + t))
    ensures var h := DecodeV0(Magic + t);
      h.headerSize == LE32(t, 0) && h.headerVersion == 0 && h.version == LE16(t, 22)
      && h.flags == LE16(t, 26) && h.durationMs == LE32(t, 28)
  {
    AfterMagic(t);
    FieldsV0(t);
  }

  /** The magic, then the rest: the version word of the rest is the header version. */
  lemma AfterMagic(t: seq<u8>)
    requires 12 <= |t|
    ensures |Magic + t| == 28 + |t| && (Magic + t)[..28] == Magic && (Magic + t)[28..] == t
    ensures LE32(Magic + t, 0x24) == LE32(t, 8)
  {
    var s := Magic + t;
    assert |Magic| == 28;
    assert s[..28] == Magic;
    assert s[28..] == t;
    ReadShifted(s, 28, t, 8);
  }

  lemma FieldsV0(t: seq<u8>)
    requires 36 <= |t|
    ensures var h := DecodeV0(Magic + t);
      h.headerSize == LE32(t, 0) && h.headerVersion == LE32(t, 8) && h.version == LE16(t, 22)
      && h.flags == LE16(t, 26) && h.durationMs == LE32(t, 28)
  {
    var s := Magic + t;
    AfterMagic(t);
    ReadShifted(s, 28, t, 0);
    ReadShifted(s, 28, t, 22);
    ReadShifted(s, 28, t, 26);
    ReadShifted(s, 28, t, 28);
  }

  /** A version-1 header after the magic: its fields are read from the rest of the bytes. */
  lemma DecodeAfterMagicV1(port: Port, t: seq<u8>)
    requires 40 <= |t| && LE32(t, 8) == 1
    ensures ParseHeader(port, Magic + t) == Ok(DecodeV1(Magic + t))
    ensures var h := DecodeV1(Magic + t);
      h.headerSize == LE32(t, 0) && h.headerVersion == 1 && h.identifier == t[20..24]
      && h.version == LE32(t, 24) && h.flags == LE16(t, 30) && h.durationMs == LE32(t, 32)
  {
    AfterMagic(t);
    FieldsV1(t);
  }

  lemma FieldsV1(t: seq<u8>)
    requires 40 <= |t|
    ensures var h := DecodeV1(Magic + t);
      h.headerSize == LE32(t, 0) && h.headerVersion == LE32(t, 8) && h.identifier == t[20..24]
      && h.version == LE32(t, 24) && h.flags == LE16(t, 30) && h.durationMs == LE32(t, 32)
  {
    var s := Magic + t;
    AfterMagic(t);
    assert s[48..52] == t[20..24];
    ReadShifted(s, 28, t, 0);
    ReadShifted(s, 28, t, 24);
    ReadShifted(s, 28, t, 30);
    ReadShifted(s, 28, t, 32);
  }

  /**
   * The classic fixture: version 0, "WAR3", version 0x0106, multiplayer.
   * Its duration bytes A0 93 04 00 read as 0x0493A0 ms (the fixture's own
   * comment calls them 300000).
   */
  lemma ClassicFixtureDecodes(port: Port)
    ensures ParseHeader(port, ClassicFixture).Ok?
    ensures var h := ParseHeader(port, ClassicFixture).value;
      h.headerSize == 0x40 && h.headerVersion == 0 && h.identifier == IdClassic
      && h.version == 0x0106 && IsMultiplayer(h) && h.durationMs == 0x0493A0
  {
    ClassicTailFields();
    DecodeAfterMagicV0(port, ClassicTail);
    assert HasBit(0x8000, FlagMultiplayer);
  }

  lemma ClassicTailFields()
    ensures |ClassicTail| == 36
    ensures LE32(ClassicTail, 0) == 0x40 && LE32(ClassicTail, 8) == 0
    ensures LE16(ClassicTail, 22) == 0x0106 && LE16(ClassicTail, 26) == 0x8000
    ensures LE32(ClassicTail, 28) == 0x0493A0
  {
    var t := ClassicTail;
    assert t[0] == 0x40 && t[1] == 0 && t[2] == 0 && t[3] == 0;
    assert t[8] == 0 && t[9] == 0 && t[10] == 0 && t[11] == 0;
    assert t[22] == 6 && t[23] == 1 && t[26] == 0 && t[27] == 0x80;
    assert t[28] == 0xA0 && t[29] == 0x93 && t[30] == 4 && t[31] == 0;
  }

  /** The expansion fixture: version 1, "W3XP", version 26 ("1.26"), multiplayer, 600000 ms. */
  lemma ExpansionFixtureDecodes(port: Port)
    ensures ParseHeader(port, ExpansionFixture).Ok?
    ensures var h := ParseHeader(port, ExpansionFixture).value;
      h.headerSize == 0x44 && h.headerVersion == 1 && h.identifier == IdExpansion
      && h.version == 26 && IsExpansion(h) && IsMultiplayer(h) && h.durationMs == 600000
      && VersionString(h) == "1.26"
  {
    ExpansionTailFields();
    DecodeAfterMagicV1(port, ExpansionTail);
    assert HasBit(0x8000, FlagMultiplayer);
    var h := DecodeV1(ExpansionFixture);
    assert h.identifier != IdReforged by {
      assert IdExpansion[0] != IdReforged[0];
    }
    VersionString26(h);
  }

  lemma ExpansionTailFields()
    ensures |ExpansionTail| == 40
    ensures LE32(ExpansionTail, 0) == 0x44 && LE32(ExpansionTail, 8) == 1
    ensures ExpansionTail[20..24] == IdExpansion && LE32(ExpansionTail, 24) == 26
    ensures LE16(ExpansionTail, 30) == 0x8000 && LE32(ExpansionTail, 32) == 600000
  {
    var t := ExpansionTail;
    assert t[0] == 0x44 && t[1] == 0 && t[2] == 0 && t[3] == 0;
    assert t[8] == 1 && t[9] == 0 && t[10] == 0 && t[11] == 0;
    assert t[20] == 0x57 && t[21] == 0x33 && t[22] == 0x58 && t[23] == 0x50;
    assert t[24] == 0x1A && t[25] == 0 && t[26] == 0 && t[27] == 0;
    assert t[30] == 0 && t[31] == 0x80;
    assert t[32] == 0xC0 && t[33] == 0x27 && t[34] == 9 && t[35] == 0;
  }

  /** A TFT header of version 26 reads "1.26". */
  lemma VersionString26(h: ReplayHeader)
    requires h.version == 26 && h.identifier != IdReforged
    ensures VersionString(h) == "1.26"
  {
    assert Decimal(26) == "26";
  }

  /** The magic alone is too short for a header. */
  lemma MagicOnlyTruncated(port: Port)
    ensures ParseHeader(port, Magic) == Err(TruncatedData(if port == Py then 28 else 48))
  {
  }

  /** "Invalid header data" followed by 100 zero bytes: rejected on its magic. */
  lemma BadMagicRejected(port: Port)
    ensures ParseHeader(port, BadMagicFixture) == Err(InvalidHeader)
  {
    var s := BadMagicFixture;
    assert s[..28][0] == 0x49 != Magic[0];
  }

  const BadMagicFixture: seq<u8> :=
    [0x49, 0x6E, 0x76, 0x61, 0x6C, 0x69, 0x64, 0x20, 0x68, 0x65, 0x61, 0x64, 0x65, 0x72,
     0x20, 0x64, 0x61, 0x74, 0x61] + seq(100, _ => 0)
}
