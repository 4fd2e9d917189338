// The encoded string of the game prelude (players.py `decode_encoded_string`,
// encoded.go `decodeEncodedString`): a control byte, then up to seven data
// bytes whose control bits say whether each is stored as is or raised by
// one. Then the settings block inside it (parser.py `_parse_encoded_settings`,
// encoded.go `parseEncodedSettings`) and the map name cut from the map path.

module Encoded {
  import opened Common
  import opened Models

  // ---------------------------------------------------------------------
  // The string codec

  /** Bit `k` of `x`, reached by shifting right one place at a time. */
  predicate BitAt(x: nat, k: nat)
    decreases k
  {
    if k == 0 then x % 2 == 1 else BitAt(x / 2, k - 1)
  }

  /** Bit `bit + 1` of the control byte marks the `bit`-th byte of its group as stored as is. */
  predicate Literal(control: u8, bit: nat)
  {
    BitAt(control, bit + 1)
  }

  /** Bytes decoded so far and the cursor position after them. */
  datatype Decoded = Decoded(bytes: seq<u8>, end: nat)

  /** The position in a group that stands for "the next byte is a control byte". */
  const AtControl: nat := 7

  /**
   * What decoding produces from `pos` on, `bit` bytes into the group that
   * `control` announced. At the end of the data nothing more is produced.
   * A zero control byte ends the string; so does a raw zero data byte, which
   * is itself emitted. Other data bytes are emitted as is or lowered by one,
   * as their control bit says, and after seven of them a control byte follows.
   */
  function Decode(data: seq<u8>, control: u8, pos: nat, bit: nat): (r: Decoded)
    requires bit <= AtControl
    ensures pos <= r.end
    ensures pos <= |data| ==> r.end <= |data|
    ensures |r.bytes| <= r.end - pos
    decreases |data| - pos
  {
    if |data| <= pos then Decoded([], pos)
    else if bit == AtControl then
      if data[pos] == 0 then Decoded([], pos + 1) else Decode(data, data[pos], pos + 1, 0)
    else if data[pos] == 0 then Decoded([0], pos + 1)
    else
      var b: u8 := if Literal(control, bit) then data[pos] else data[pos] - 1;
      var rest := Decode(data, control, pos + 1, bit + 1);
      Decoded([b] + rest.bytes, rest.end)
  }

  /** Decoding an encoded string that starts at `offset`. */
  function DecodeString(data: seq<u8>, offset: nat): (r: Decoded)
    ensures offset <= r.end
    ensures offset <= |data| ==> r.end <= |data|
    ensures |r.bytes| <= r.end - offset
  {
    Decode(data, 0, offset, AtControl)
  }

  /** At a control byte, the previous group's control byte no longer matters. */
  lemma ControlIgnored(data: seq<u8>, control: u8, pos: nat)
    ensures Decode(data, control, pos, AtControl) == DecodeString(data, pos)
  {
  }

  /** One data byte under a control bit: a literal byte, or one less when the bit is clear. */
  lemma DecodeStep(data: seq<u8>, control: u8, pos: nat, bit: nat)
    requires bit < AtControl && pos < |data| && data[pos] != 0
    ensures var rest := Decode(data, control, pos + 1, bit + 1);
      Decode(data, control, pos, bit)
        == Decoded([if Literal(control, bit) then data[pos] else data[pos] - 1] + rest.bytes, rest.end)
  {
  }

  /** The decoding loops of both implementations. */
  method DecodeEncodedString(data: seq<u8>, offset: nat) returns (result: seq<u8>, pos: nat)
    ensures Decoded(result, pos) == DecodeString(data, offset)
  {
    ghost var total := DecodeString(data, offset);
    result := [];
    pos := offset;
    assert result + DecodeString(data, pos).bytes == total.bytes;
    while pos < |data|
      invariant result + DecodeString(data, pos).bytes == total.bytes
      invariant DecodeString(data, pos).end == total.end
      decreases |data| - pos
    {
      var control := data[pos];
      pos := pos + 1;
      if control == 0 {
        assert result == total.bytes;
        break;
      }
      var group, stop;
      ghost var start := pos;
      group, pos, stop := DecodeGroup(data, control, pos);
      assert result + group + DecodeString(data, pos).bytes == result + (group + DecodeString(data, pos).bytes);
      result := result + group;
      if stop {
        return;
      }
    }
  }

  /**
   * The inner loop over the seven data bytes of one group. It stops the
   * whole string at a raw zero; otherwise it leaves the cursor at the next
   * control byte or at the end of the data.
   */
  method DecodeGroup(data: seq<u8>, control: u8, start: nat) returns (group: seq<u8>, pos: nat, stop: bool)
    ensures start <= pos
    ensures stop ==> Decoded(group, pos) == Decode(data, control, start, 0)
    ensures !stop ==> group + DecodeString(data, pos).bytes == Decode(data, control, start, 0).bytes
    ensures !stop ==> DecodeString(data, pos).end == Decode(data, control, start, 0).end
  {
    ghost var d := Decode(data, control, start, 0);
    group := [];
    pos := start;
    stop := false;
    var bit := 0;
    while bit < 7 && pos < |data| && !stop
      invariant bit <= AtControl && start <= pos
      invariant stop ==> Decoded(group, pos) == d
      invariant !stop ==> group + Decode(data, control, pos, bit).bytes == d.bytes
      invariant !stop ==> Decode(data, control, pos, bit).end == d.end
      decreases 7 - bit, !stop
    {
      var b := data[pos];
      if b == 0 {
        ZeroEnds(data, control, pos, bit, group, d);
        group := group + [0];
        stop := true;
      } else {
        var x: u8 := if Literal(control, bit) then b else b - 1;
        GroupStep(data, control, pos, bit, group, d);
        group := group + [x];
        bit := bit + 1;
      }
      pos := pos + 1;
    }
    if !stop {
      GroupLeft(data, control, pos, bit, group, d);
    }
  }

  /** A raw zero inside a group is emitted and ends the string. */
  lemma ZeroEnds(data: seq<u8>, control: u8, pos: nat, bit: nat, group: seq<u8>, d: Decoded)
    requires bit < AtControl && pos < |data| && data[pos] == 0
    requires group + Decode(data, control, pos, bit).bytes == d.bytes && Decode(data, control, pos, bit).end == d.end
    ensures Decoded(group + [0], pos + 1) == d
  {
  }

  /** Where the group loop stops without a raw zero, the rest is decoded as from a control byte. */
  lemma GroupLeft(data: seq<u8>, control: u8, pos: nat, bit: nat, group: seq<u8>, d: Decoded)
    requires bit <= AtControl && (bit == AtControl || |data| <= pos)
    requires group + Decode(data, control, pos, bit).bytes == d.bytes && Decode(data, control, pos, bit).end == d.end
    ensures group + DecodeString(data, pos).bytes == d.bytes && DecodeString(data, pos).end == d.end
  {
    ControlIgnored(data, control, pos);
  }

  /** One step of the group loop keeps its invariant. */
  lemma GroupStep(data: seq<u8>, control: u8, pos: nat, bit: nat, group: seq<u8>, d: Decoded)
    requires bit < AtControl && pos < |data| && data[pos] != 0
    requires group + Decode(data, control, pos, bit).bytes == d.bytes && Decode(data, control, pos, bit).end == d.end
    ensures var x: u8 := if Literal(control, bit) then data[pos] else data[pos] - 1;
      var rest := Decode(data, control, pos + 1, bit + 1);
      (group + [x]) + rest.bytes == d.bytes && rest.end == d.end
  {
    DecodeStep(data, control, pos, bit);
    var x: u8 := if Literal(control, bit) then data[pos] else data[pos] - 1;
    ByteDecoded(group, x, Decode(data, control, pos, bit), Decode(data, control, pos + 1, bit + 1), d);
  }

  /** Moving one decoded byte from what is still to decode onto what was decoded. */
  lemma ByteDecoded(group: seq<u8>, x: u8, cur: Decoded, rest: Decoded, d: Decoded)
    requires cur == Decoded([x] + rest.bytes, rest.end)
    requires group + cur.bytes == d.bytes && cur.end == d.end
    ensures (group + [x]) + rest.bytes == d.bytes && rest.end == d.end
  {
    assert group + [x] + rest.bytes == group + ([x] + rest.bytes);
  }

  /** A control byte of zero yields nothing and moves the cursor past it. */
  lemma EmptyString(data: seq<u8>, offset: nat)
    requires offset < |data| && data[offset] == 0
    ensures DecodeString(data, offset) == Decoded([], offset + 1)
  {
  }

  /**
   * Only a raw zero ends the string: a raw 1 under a clear control bit
   * decodes to 0 and decoding goes on, here into the next byte.
   */
  lemma DecodedZeroDoesNotEnd()
    ensures DecodeString([0x01, 0x01, 0x43, 0x00, 0x99], 0) == Decoded([0x00, 0x42, 0x00], 4)
  {
    var data: seq<u8> := [0x01, 0x01, 0x43, 0x00, 0x99];
    assert !Literal(1, 0) && !Literal(1, 1);
    var third := Decode(data, 1, 3, 2);
    assert third == Decoded([0x00], 4);
    var second := Decode(data, 1, 2, 1);
    assert second == Decoded([0x42] + third.bytes, 4);
    var first := Decode(data, 1, 1, 0);
    assert first == Decoded([0x00] + second.bytes, 4);
    assert [0x00] + ([0x42] + [0x00]) == [0x00, 0x42, 0x00];
  }

  // ---------------------------------------------------------------------
  // The writer's side of the codec, and the round trip

  /** How a writer stores a byte: even values are raised by one, so no stored byte is zero. */
  function Stored(b: u8): (c: u8)
    ensures c % 2 == 1
  {
    if b % 2 == 0 then b + 1 else b
  }

  function StoredAll(chunk: seq<u8>): (e: seq<u8>)
    ensures |e| == |chunk|
    ensures forall i :: 0 <= i < |chunk| ==> e[i] == Stored(chunk[i])
  {
    if chunk == [] then [] else [Stored(chunk[0])] + StoredAll(chunk[1..])
  }

  /** Bit i of the result is the parity of `chunk[i]`. */
  function ControlBits(chunk: seq<u8>): (n: nat)
    ensures n < Pow2(|chunk|)
  {
    if chunk == [] then 0 else chunk[0] % 2 + 2 * ControlBits(chunk[1..])
  }

  lemma Pow2Monotone(a: nat, b: nat)
    requires a <= b
    ensures Pow2(a) <= Pow2(b)
    decreases b
  {
    if a < b {
      Pow2Monotone(a, b - 1);
    }
  }

  /** Bit 0 always set, so a control byte is never zero; bit i+1 set for an odd i-th byte. */
  function ControlByte(chunk: seq<u8>): (c: u8)
    requires |chunk| <= 7
    ensures c % 2 == 1
  {
    Pow2Monotone(|chunk|, 7);
    1 + 2 * ControlBits(chunk)
  }

  /** Groups of seven, each behind its control byte, then a zero byte. */
  function EncodeString(s: seq<u8>): (e: seq<u8>)
    ensures |e| >= 1
    decreases |s|
  {
    if s == [] then [0]
    else
      var k := Min(7, |s|);
      [ControlByte(s[..k])] + StoredAll(s[..k]) + EncodeString(s[k..])
  }

  /**
   * What decoding gives back: when the last group is short, its terminating
   * zero is read as a raw data byte and emitted.
   */
  function Padded(s: seq<u8>): seq<u8>
  {
    if |s| % 7 == 0 then s else s + [0]
  }

  /** `x >> (k + 1)` is `(x >> 1) >> k`. */
  lemma DivPow2Step(x: nat, k: nat)
    ensures x / Pow2(k + 1) == (x / 2) / Pow2(k)
  {
    var p := Pow2(k);
    var q, r := x / 2, x % 2;
    var a, b := q / p, q % p;
    assert q == p * a + b;
    assert x == (2 * p) * a + (2 * b + r) by {
      assert (2 * p) * a == 2 * (p * a);
    }
    DivUnique(x, 2 * p, a, 2 * b + r);
  }

  /** Shifting bit by bit tests the same bit as the mask `1 << k`. */
  lemma {:induction false} BitAtMask(x: nat, k: nat)
    ensures BitAt(x, k) <==> HasBit(x, Pow2(k))
    decreases k
  {
    if k > 0 {
      DivPow2Step(x, k - 1);
      BitAtMask(x / 2, k - 1);
    }
  }

  lemma {:induction false} ControlBitsBit(chunk: seq<u8>, i: nat)
    requires i < |chunk|
    ensures BitAt(ControlBits(chunk), i) <==> chunk[i] % 2 == 1
    decreases i
  {
    var n, t := ControlBits(chunk), ControlBits(chunk[1..]);
    Mod2Unique(n, t, chunk[0] % 2);
    if i > 0 {
      ControlBitsBit(chunk[1..], i - 1);
    }
  }

  /** The control byte marks exactly the odd bytes of its group as stored as is. */
  lemma ControlByteLiteral(chunk: seq<u8>, i: nat)
    requires i < |chunk| <= 7
    ensures Literal(ControlByte(chunk), i) <==> chunk[i] % 2 == 1
  {
    var c := ControlByte(chunk);
    Mod2Unique(c, ControlBits(chunk), 1);
    ControlBitsBit(chunk, i);
  }

  /** A stored byte, lowered or not as its control bit says, is the original byte. */
  lemma StoredByteDecodes(chunk: seq<u8>, j: nat)
    requires j < |chunk| <= 7
    ensures Stored(chunk[j]) != 0
    ensures (if Literal(ControlByte(chunk), j) then Stored(chunk[j]) else Stored(chunk[j]) - 1) == chunk[j]
  {
    ControlByteLiteral(chunk, j);
  }

  /** One stored byte of a group decodes to the original byte, and decoding goes on after it. */
  lemma GroupByteDecodes(data: seq<u8>, p: nat, j: nat, chunk: seq<u8>)
    requires j < |chunk| <= 7 && p < |data| && data[p] == Stored(chunk[j])
    ensures var rest := Decode(data, ControlByte(chunk), p + 1, j + 1);
      Decode(data, ControlByte(chunk), p, j) == Decoded([chunk[j]] + rest.bytes, rest.end)
  {
    StoredByteDecodes(chunk, j);
    DecodeStep(data, ControlByte(chunk), p, j);
  }

  /**
   * A group whose bytes were stored by the writer from `base` on decodes to
   * the original bytes, from any byte `j` of the group to its end.
   */
  lemma {:induction false} GroupDecodes(data: seq<u8>, base: nat, j: nat, chunk: seq<u8>)
    requires j <= |chunk| <= 7
    requires base + |chunk| <= |data|
    requires forall i :: j <= i < |chunk| ==> data[base + i] == Stored(chunk[i])
    ensures var g := Decode(data, ControlByte(chunk), base + |chunk|, |chunk|);
      Decode(data, ControlByte(chunk), base + j, j) == Decoded(chunk[j..] + g.bytes, g.end)
    decreases |chunk| - j
  {
    var c := ControlByte(chunk);
    var g := Decode(data, c, base + |chunk|, |chunk|);
    if j < |chunk| {
      var next := j + 1;
      GroupByteDecodes(data, base + j, j, chunk);
      GroupDecodes(data, base, next, chunk);
      assert base + j + 1 == base + next;
      GroupConcat(chunk, j, Decode(data, c, base + j, j), Decode(data, c, base + next, next), g);
    } else {
      assert chunk[j..] + g.bytes == g.bytes;
    }
  }

  /** One more decoded byte in front of the rest of the group. */
  lemma GroupConcat(chunk: seq<u8>, j: nat, x: Decoded, rest: Decoded, g: Decoded)
    requires j < |chunk|
    requires x == Decoded([chunk[j]] + rest.bytes, rest.end) && rest == Decoded(chunk[j + 1..] + g.bytes, g.end)
    ensures x == Decoded(chunk[j..] + g.bytes, g.end)
  {
    assert chunk[j..] == [chunk[j]] + chunk[j + 1..];
  }

  /** The first group of an encoded string, laid out after `pre`. */
  lemma {:induction false} EncodedGroupAt(pre: seq<u8>, s: seq<u8>, rest: seq<u8>, k: nat)
    requires s != [] && k == Min(7, |s|)
    ensures var data, te := pre + EncodeString(s) + rest, EncodeString(s[k..]);
      |EncodeString(s)| == 1 + k + |te|
      && data[|pre|] == ControlByte(s[..k])
      && (forall i :: 0 <= i < k ==> data[|pre| + 1 + i] == Stored(s[i]))
      && data == (pre + [ControlByte(s[..k])] + StoredAll(s[..k])) + te + rest
  {
    var c, st, te := ControlByte(s[..k]), StoredAll(s[..k]), EncodeString(s[k..]);
    var data := pre + EncodeString(s) + rest;
    assert EncodeString(s) == [c] + st + te;
    assert data == (pre + [c] + st) + te + rest;
    forall i | 0 <= i < k
      ensures data[|pre| + 1 + i] == Stored(s[i])
    {
      assert data[|pre| + 1 + i] == st[i];
    }
  }

  /** Padding is decided by the last group alone. */
  lemma PaddedStep(s: seq<u8>)
    requires 7 <= |s|
    ensures Padded(s) == s[..7] + Padded(s[7..])
  {
    var n := |s| - 7;
    DivUnique(|s|, 7, n / 7 + 1, n % 7);
    assert s == s[..7] + s[7..];
  }

  /** A short last group: its terminating zero is decoded as data, then decoding stops. */
  lemma ShortGroupEnds(pre: seq<u8>, s: seq<u8>, rest: seq<u8>)
    requires 0 < |s| < 7
    ensures DecodeString(pre + EncodeString(s) + rest, |pre|)
      == Decoded(Padded(s), |pre| + |EncodeString(s)|)
  {
    var k := |s|;
    var data := pre + EncodeString(s) + rest;
    assert s[..k] == s && s[k..] == [];
    EncodedGroupAt(pre, s, rest, k);
    assert EncodeString(s[k..]) == [0];
    assert data[|pre| + 1 + k] == 0;
    ShortGroupDecodes(data, |pre| + 1, s);
    DivUnique(k, 7, 0, k);
  }

  /** A group of fewer than seven stored bytes followed by a zero, read from its control byte. */
  lemma ShortGroupDecodes(data: seq<u8>, base: nat, s: seq<u8>)
    requires 0 < |s| < 7 && 1 <= base && base + |s| < |data|
    requires data[base - 1] == ControlByte(s) && data[base + |s|] == 0
    requires forall i :: 0 <= i < |s| ==> data[base + i] == Stored(s[i])
    ensures DecodeString(data, base - 1) == Decoded(s + [0], base + |s| + 1)
  {
    var c := ControlByte(s);
    GroupDecodes(data, base, 0, s);
    assert Decode(data, c, base + |s|, |s|) == Decoded([0], base + |s| + 1);
    assert DecodeString(data, base - 1) == Decode(data, c, base, 0);
    assert s[0..] == s;
  }

  /**
   * Round trip: the decoder reads back what the writer wrote, wherever it
   * sits in the data, and stops exactly at its end.
   */
  lemma {:induction false} DecodeEncodeString(pre: seq<u8>, s: seq<u8>, rest: seq<u8>)
    ensures DecodeString(pre + EncodeString(s) + rest, |pre|)
      == Decoded(Padded(s), |pre| + |EncodeString(s)|)
    decreases |s|
  {
    var data := pre + EncodeString(s) + rest;
    if s == [] {
      assert data[|pre|] == 0;
    } else if |s| < 7 {
      ShortGroupEnds(pre, s, rest);
    } else {
      var chunk, t := s[..7], s[7..];
      var c := ControlByte(chunk);
      var pre2 := pre + [c] + StoredAll(chunk);
      EncodedGroupAt(pre, s, rest, 7);
      assert forall i :: 0 <= i < 7 ==> data[|pre| + 1 + i] == Stored(chunk[i]);
      GroupDecodes(data, |pre| + 1, 0, chunk);
      assert DecodeString(data, |pre|) == Decode(data, c, |pre| + 1, 0);
      ControlIgnored(data, c, |pre2|);
      DecodeEncodeString(pre2, t, rest);
      PaddedStep(s);
    }
  }

  // ---------------------------------------------------------------------
  // The settings block

  /** What the encoded string carries: the settings, the map path and the map name cut from it. */
  datatype EncodedSettings = EncodedSettings(settings: GameSettings, mapPath: seq<u8>, mapName: seq<u8>)

  /** The bit fields of bytes 0..3 and the checksum in bytes 9..12. */
  function SettingsFields(enc: seq<u8>): (gs: GameSettings)
    requires 13 <= |enc|
    ensures gs.speed < 4 && gs.visibility < 16 && gs.observers < 4
    ensures gs.mapChecksum == enc[9..13]
  {
    GameSettings(
      speed := enc[0] % 4,
      visibility := enc[1] % 16,
      observers := (enc[1] / 16) % 4,
      teamsTogether := HasBit(enc[1], 0x40),
      lockTeams := HasBit(enc[2], 0x02) || HasBit(enc[2], 0x04),
      fullSharedControl := HasBit(enc[3], 0x01),
      randomHero := HasBit(enc[3], 0x02),
      randomRaces := HasBit(enc[3], 0x04),
      referees := HasBit(enc[3], 0x40),
      mapChecksum := enc[9..13])
  }

  /** Where the map path starts: byte 13, or 14 when byte 13 is a null. */
  function MapPathStart(enc: seq<u8>): (start: nat)
    requires 13 <= |enc|
    ensures start <= |enc|
  {
    if 13 < |enc| && enc[13] == 0 then 14 else 13
  }

  /** The map path: the whole run of non-null bytes from its start. */
  function MapPath(enc: seq<u8>): (path: seq<u8>)
    requires 13 <= |enc|
    ensures var start := MapPathStart(enc);
      start + |path| <= |enc| && enc[start..start + |path|] == path
      && (start + |path| == |enc| || enc[start + |path|] == 0)
    ensures forall i :: 0 <= i < |path| ==> path[i] != 0
  {
    var start := MapPathStart(enc);
    var path := enc[start..NullIndex(enc, start)];
    assert forall i :: 0 <= i < |path| ==> path[i] == enc[start + i];
    path
  }

  /**
   * The settings, path and name the encoded string yields: defaults when it
   * is shorter than 13 bytes; otherwise the bit fields, the map path, and a
   * map name only for a non-empty path.
   */
  function SettingsOf(port: Port, enc: seq<u8>): (r: EncodedSettings)
    ensures |enc| < 13 ==> r == EncodedSettings(DefaultSettings, [], [])
    ensures 13 <= |enc| ==> r.settings == SettingsFields(enc) && r.mapPath == MapPath(enc)
    ensures r.mapPath == [] ==> r.mapName == []
  {
    if |enc| < 13 then EncodedSettings(DefaultSettings, [], [])
    else
      var path := MapPath(enc);
      EncodedSettings(SettingsFields(enc), path, if path == [] then [] else MapName(port, path))
  }

  /** `_parse_encoded_settings` / `parseEncodedSettings`: the fields, then the null scan for the path. */
  method ParseEncodedSettings(port: Port, enc: seq<u8>) returns (r: EncodedSettings)
    ensures r == SettingsOf(port, enc)
  {
    if |enc| < 13 {
      return EncodedSettings(DefaultSettings, [], []);
    }
    var settings := SettingsFields(enc);
    var offset := 13;
    if offset < |enc| && enc[offset] == 0 {
      offset := offset + 1;
    }
    var pathStart := offset;
    offset := ScanToNull(enc, offset);
    var path := enc[pathStart..offset];
    assert pathStart == MapPathStart(enc);
    assert path == MapPath(enc);
    var name: seq<u8> := [];
    if offset > pathStart {
      match port
      case Py => name := MapName(Py, path);
      case Go => name := ExtractMapName(path);
    }
    assert name == (if path == [] then [] else MapName(port, path));
    r := EncodedSettings(settings, path, name);
  }

  /** How a writer lays out the settings block: the inverse of `SettingsFields`. */
  function EncodeSettings(gs: GameSettings): (e: seq<u8>)
    requires gs.speed < 4 && gs.visibility < 16 && gs.observers < 4 && |gs.mapChecksum| == 4
    ensures |e| == 13
  {
    var b1 := gs.visibility + 16 * gs.observers + (if gs.teamsTogether then 0x40 else 0);
    var b3 := (if gs.fullSharedControl then 0x01 else 0) + (if gs.randomHero then 0x02 else 0)
      + (if gs.randomRaces then 0x04 else 0) + (if gs.referees then 0x40 else 0);
    [gs.speed, b1, if gs.lockTeams then 0x02 else 0, b3, 0, 0, 0, 0, 0] + gs.mapChecksum
  }

  /** Round trip: every setting the writer stored is read back. */
  lemma SettingsFieldsEncode(gs: GameSettings, rest: seq<u8>)
    requires gs.speed < 4 && gs.visibility < 16 && gs.observers < 4 && |gs.mapChecksum| == 4
    ensures SettingsFields(EncodeSettings(gs) + rest) == gs
  {
    var enc := EncodeSettings(gs) + rest;
    var v, o, t := gs.visibility, gs.observers, if gs.teamsTogether then 1 else 0;
    assert enc[1] == v + 16 * (o + 4 * t);
    DivUnique(enc[1], 16, o + 4 * t, v);
    DivUnique(o + 4 * t, 4, t, o);
    DivUnique(enc[1], 0x40, t, v + 16 * o);
    var a, b, c, d := if gs.fullSharedControl then 1 else 0, if gs.randomHero then 1 else 0,
      if gs.randomRaces then 1 else 0, if gs.referees then 1 else 0;
    assert enc[3] == a + 2 * (b + 2 * c + 32 * d);
    Mod2Unique(enc[3], b + 2 * c + 32 * d, a);
    Mod2Unique(b + 2 * c + 32 * d, c + 16 * d, b);
    DivUnique(enc[3], 4, c + 16 * d, a + 2 * b);
    Mod2Unique(c + 16 * d, 8 * d, c);
    DivUnique(enc[3], 0x40, d, a + 2 * b + 4 * c);
    assert enc[9..13] == gs.mapChecksum;
  }

  // ---------------------------------------------------------------------
  // Map name

  const Slash: u8 := 0x2F
  const Backslash: u8 := 0x5C

  /** Index of the last byte of `s` equal to `b`, if any. */
  function LastIndex(s: seq<u8>, b: u8): (k: Option<nat>)
    ensures k.Some? ==> (k.value < |s| && s[k.value] == b
                         && forall j :: k.value < j < |s| ==> s[j] != b)
    ensures k.None? ==> forall j :: 0 <= j < |s| ==> s[j] != b
  {
    if s == [] then None
    else if s[|s| - 1] == b then Some(|s| - 1)
    else LastIndex(s[..|s| - 1], b)
  }

  predicate IsSeparator(b: u8)
  {
    b == Slash || b == Backslash
  }

  /** Index of the last separator of either kind, if any. */
  function LastSeparator(s: seq<u8>): (k: Option<nat>)
    ensures k.Some? ==> (k.value < |s| && IsSeparator(s[k.value])
                         && forall j :: k.value < j < |s| ==> !IsSeparator(s[j]))
    ensures k.None? ==> forall j :: 0 <= j < |s| ==> !IsSeparator(s[j])
  {
    if s == [] then None
    else if IsSeparator(s[|s| - 1]) then Some(|s| - 1)
    else LastSeparator(s[..|s| - 1])
  }

  function After(s: seq<u8>, k: Option<nat>): (t: seq<u8>)
    requires k.Some? ==> k.value < |s|
    ensures |t| <= |s| && t == s[|s| - |t|..]
  {
    if k.Some? then s[k.value + 1..] else s
  }

  /**
   * Python: after the last "/", or only when there is none, after the last
   * "\"; the result is a suffix of the path holding no "/".
   */
  function PyBaseName(path: seq<u8>): (base: seq<u8>)
    ensures |base| <= |path| && base == path[|path| - |base|..]
    ensures forall j :: 0 <= j < |base| ==> base[j] != Slash
    ensures base == path || path[|path| - |base| - 1] == Slash
      || (path[|path| - |base| - 1] == Backslash && forall j :: 0 <= j < |path| ==> path[j] != Slash)
  {
    if LastIndex(path, Slash).Some? then After(path, LastIndex(path, Slash))
    else After(path, LastIndex(path, Backslash))
  }

  /** Go: the longest suffix of the path holding no separator of either kind. */
  function GoBaseName(path: seq<u8>): (base: seq<u8>)
    ensures |base| <= |path| && base == path[|path| - |base|..]
    ensures forall j :: 0 <= j < |base| ==> !IsSeparator(base[j])
    ensures base == path || IsSeparator(path[|path| - |base| - 1])
  {
    After(path, LastSeparator(path))
  }

  /** Without any backslash the two rules cut at the same place. */
  lemma BaseNamesAgree(path: seq<u8>)
    requires forall j :: 0 <= j < |path| ==> path[j] != Backslash
    ensures PyBaseName(path) == GoBaseName(path)
  {
    var k := LastIndex(path, Slash);
    assert LastSeparator(path) == k by {
      var g := LastSeparator(path);
      if g.Some? {
        assert path[g.value] == Slash;
      }
    }
  }

  const ExtW3xLower: seq<u8> := [0x2E, 0x77, 0x33, 0x78]
  const ExtW3mLower: seq<u8> := [0x2E, 0x77, 0x33, 0x6D]
  const ExtW3xUpper: seq<u8> := [0x2E, 0x57, 0x33, 0x58]
  const ExtW3mUpper: seq<u8> := [0x2E, 0x57, 0x33, 0x4D]

  function LowerAscii(b: u8): u8
  {
    if 0x41 <= b <= 0x5A then b + 0x20 else b
  }

  function LowerAll(s: seq<u8>): (t: seq<u8>)
    ensures |t| == |s| && forall i :: 0 <= i < |s| ==> t[i] == LowerAscii(s[i])
  {
    if s == [] then [] else [LowerAscii(s[0])] + LowerAll(s[1..])
  }

  /** Python strips a ".w3x" / ".w3m" ending in any letter case, even when nothing is left. */
  function PyStrip(name: seq<u8>): (r: seq<u8>)
  {
    if 4 <= |name| && LowerAll(name[|name| - 4..]) in {ExtW3xLower, ExtW3mLower}
    then name[..|name| - 4] else name
  }

  /** Go strips only the four exact spellings, and only from a name longer than the ending. */
  function GoStrip(name: seq<u8>): (r: seq<u8>)
  {
    if 4 < |name| && name[|name| - 4..] in {ExtW3xLower, ExtW3mLower, ExtW3xUpper, ExtW3mUpper}
    then name[..|name| - 4] else name
  }

  /** The map name each implementation derives from a non-empty map path. */
  function MapName(port: Port, path: seq<u8>): (name: seq<u8>)
  {
    match port
    case Py => PyStrip(PyBaseName(path))
    case Go => GoStrip(GoBaseName(path))
  }

  /** Stripping removes exactly a recognised ending or nothing; Go's rule is the narrower one. */
  lemma {:induction false} StripRules(name: seq<u8>)
    ensures PyStrip(name) == name
      || (name == PyStrip(name) + name[|name| - 4..] && LowerAll(name[|name| - 4..]) in {ExtW3xLower, ExtW3mLower})
    ensures GoStrip(name) == name
      || (name == GoStrip(name) + name[|name| - 4..] && |GoStrip(name)| >= 1)
    ensures GoStrip(name) != name ==> PyStrip(name) == GoStrip(name)
  {
    if 4 <= |name| {
      assert name == name[..|name| - 4] + name[|name| - 4..];
    }
    if GoStrip(name) != name {
      var ext := name[|name| - 4..];
      ExtsLower();
      assert ext == ExtW3xLower || ext == ExtW3mLower || ext == ExtW3xUpper || ext == ExtW3mUpper;
      assert LowerAll(ext) in {ExtW3xLower, ExtW3mLower};
    }
  }

  /** The four spellings Go accepts all lower-case to one of the two Python endings. */
  lemma ExtsLower()
    ensures LowerAll(ExtW3xUpper) == ExtW3xLower && LowerAll(ExtW3mUpper) == ExtW3mLower
    ensures LowerAll(ExtW3xLower) == ExtW3xLower && LowerAll(ExtW3mLower) == ExtW3mLower
  {
  }

  /** "a/b\\c.w3x": Python keeps "b\\c", Go keeps "c". */
  lemma MapNamePortsDiffer()
    ensures MapName(Py, MixedPath()) == [0x62, 0x5C, 0x63]
    ensures MapName(Go, MixedPath()) == [0x63]
  {
    PyMixedPath();
    GoMixedPath();
  }

  function MixedPath(): seq<u8>
  {
    [0x61, 0x2F, 0x62, 0x5C, 0x63, 0x2E, 0x77, 0x33, 0x78]
  }

  lemma PyMixedPath()
    ensures MapName(Py, MixedPath()) == [0x62, 0x5C, 0x63]
  {
    var path := MixedPath();
    assert path[1] == Slash;
    assert LastIndex(path, Slash) == Some(1);
    assert path[2..] == [0x62, 0x5C, 0x63] + ExtW3xLower;
    ExtsLower();
  }

  lemma GoMixedPath()
    ensures MapName(Go, MixedPath()) == [0x63]
  {
    var path := MixedPath();
    BaseNameAt(path, 3);
    assert path[4..] == [0x63] + ExtW3xLower;
  }

  /** `extractMapName`: the backward scan for a separator, then the ending check. */
  method ExtractMapName(path: seq<u8>) returns (name: seq<u8>)
    ensures name == MapName(Go, path)
  {
    var i := |path| - 1;
    while i >= 0 && !IsSeparator(path[i])
      invariant -1 <= i < |path|
      invariant forall j :: i < j < |path| ==> !IsSeparator(path[j])
      decreases i
    {
      i := i - 1;
    }
    BaseNameAt(path, i);
    name := path[i + 1..];
    if |name| > 4 {
      var ext := name[|name| - 4..];
      if ext == ExtW3xLower || ext == ExtW3mLower || ext == ExtW3xUpper || ext == ExtW3mUpper {
        name := name[..|name| - 4];
      }
    }
  }

  /** The Go base name starts right after the last separator found by a backward scan. */
  lemma BaseNameAt(path: seq<u8>, i: int)
    requires -1 <= i < |path| && (0 <= i ==> IsSeparator(path[i]))
    requires forall j :: i < j < |path| ==> !IsSeparator(path[j])
    ensures GoBaseName(path) == path[i + 1..]
  {
    var k := LastSeparator(path);
    if k.Some? {
      assert k.value == i;
    } else {
      assert i == -1;
    }
  }
}
