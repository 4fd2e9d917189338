// Player records, slot records and the game start record of the replay
// prelude (players.py, players.go), and how slot information is merged into
// the players.

module Players {
  import opened Common
  import opened Models

  const RecordHost: u8 := 0x00
  const RecordAdditionalPlayer: u8 := 0x16
  const BlockGameStart: u8 := 0x19
  const ObserverTeamClassic: nat := 12
  const ObserverTeamReforged: nat := 24

  // ---------------------------------------------------------------------
  // Player records

  /**
   * The player a record yields before slot information is applied. Python's
   * dataclass defaults the slot status to USED; Go's zero value is 0.
   */
  function RecordPlayer(port: Port, id: u8, name: seq<u8>, isHost: bool, race: Race, runtimeMs: nat): PlayerInfo
  {
    PlayerInfo(id, name, race, 0, 0, 100, isHost, false, false,
      if port == Py then SlotUsed else SlotEmpty, runtimeMs, 0, 0.0, None, None)
  }

  function ExpectedTag(isHost: bool): u8
  {
    if isHost then RecordHost else RecordAdditionalPlayer
  }

  /** What the extra data after a player's name yields: race, runtime and where reading goes on. */
  datatype ExtraInfo = ExtraInfo(race: Race, runtimeMs: nat, next: nat)

  /**
   * The extra data whose size byte sits at `o`: one more byte for a custom
   * game; runtime and race flags for a ladder game when all eight bytes are
   * there (Go keeps only the low byte of the flags), nothing otherwise; for
   * any other size, that many bytes skipped.
   */
  function ExtraAt(port: Port, data: seq<u8>, o: nat): (x: ExtraInfo)
    requires o < |data|
    ensures o < x.next && x.runtimeMs < 0x1_0000_0000
  {
    if data[o] == 0x01 then ExtraInfo(Unknown, 0, o + 2)
    else if data[o] == 0x08 then
      if o + 9 <= |data| then
        var flags := if port == Py then LE32(data, o + 5) else data[o + 5];
        ExtraInfo(RaceFromFlags(flags), LE32(data, o + 1), o + 9)
      else ExtraInfo(Unknown, 0, o + 1)
    else ExtraInfo(Unknown, 0, o + 1 + data[o])
  }

  /** The two ports read extra data alike: the race bits all sit in the low byte of the flags. */
  lemma ExtraPorts(data: seq<u8>, o: nat)
    requires o < |data|
    ensures ExtraAt(Py, data, o) == ExtraAt(Go, data, o)
  {
    if data[o] == 0x08 && o + 9 <= |data| {
      RaceFromFlagsLowByte(LE32(data, o + 5));
      LE32LowByte(data, o + 5);
    }
  }

  /**
   * What a player record at `offset` yields and where reading stops: no
   * player at the end of the data or under a foreign tag (cursor unchanged),
   * none when only the tag is left (cursor past it); otherwise the id, the
   * name up to its null, then the extra data when there is any left.
   */
  function PlayerRecord(port: Port, data: seq<u8>, offset: nat, isHost: bool): (r: (Option<PlayerInfo>, nat))
    ensures r.0.Some? <==> offset + 1 < |data| && data[offset] == ExpectedTag(isHost)
    ensures r.0.None? ==> r.1 == offset || (r.1 == offset + 1 && offset + 1 == |data|)
    ensures r.0.Some? ==> (offset + 3 <= r.1 && r.0.value.id == data[offset + 1] && r.0.value.isHost == isHost)
  {
    if |data| <= offset || data[offset] != ExpectedTag(isHost) then (None, offset)
    else if |data| <= offset + 1 then (None, offset + 1)
    else
      var nameEnd := NullIndex(data, offset + 2);
      var name := data[offset + 2..nameEnd];
      if |data| <= nameEnd + 1 then
        (Some(RecordPlayer(port, data[offset + 1], name, isHost, if port == Py then Unknown else Unset, 0)), nameEnd + 1)
      else
        var x := ExtraAt(port, data, nameEnd + 1);
        (Some(RecordPlayer(port, data[offset + 1], name, isHost, x.race, x.runtimeMs)), x.next)
  }

  /** The name read is the run of bytes after the id up to the first null or the end of the data. */
  lemma PlayerRecordName(port: Port, data: seq<u8>, offset: nat, isHost: bool)
    requires offset + 1 < |data| && data[offset] == ExpectedTag(isHost)
    ensures var name := PlayerRecord(port, data, offset, isHost).0.value.name;
      var nameEnd := offset + 2 + |name|;
      nameEnd <= |data| && data[offset + 2..nameEnd] == name && NoNull(name)
      && (nameEnd == |data| || data[nameEnd] == 0)
  {
    var nameEnd := NullIndex(data, offset + 2);
    var name := data[offset + 2..nameEnd];
    assert forall i :: 0 <= i < |name| ==> name[i] == data[offset + 2 + i];
  }

  /** The extra-data part of `parse_player_record` / `parsePlayerRecord`, from the size byte at `o` on. */
  method ParseExtra(port: Port, data: seq<u8>, o: nat) returns (race: Race, runtimeMs: nat, next: nat)
    requires o < |data|
    ensures ExtraInfo(race, runtimeMs, next) == ExtraAt(port, data, o)
  {
    var extraSize := data[o];
    next := o + 1;
    runtimeMs := 0;
    race := Unknown;
    if extraSize == 0x01 {
      next := next + 1;
    } else if extraSize == 0x08 {
      if next + 8 <= |data| {
        runtimeMs := LE32(data, next);
        next := next + 4;
        var raceFlags := LE32(data, next);
        if port == Go {
          LE32LowByte(data, next);
          raceFlags := raceFlags % 0x100;
        }
        next := next + 4;
        race := RaceFromFlags(raceFlags);
      }
    } else {
      next := next + extraSize;
    }
  }

  /** `parse_player_record` / `parsePlayerRecord`. */
  method ParsePlayerRecord(port: Port, data: seq<u8>, offset: nat, isHost: bool)
    returns (player: Option<PlayerInfo>, next: nat)
    ensures (player, next) == PlayerRecord(port, data, offset, isHost)
  {
    if offset >= |data| {
      return None, offset;
    }
    var recordId := data[offset];
    next := offset + 1;
    if recordId != ExpectedTag(isHost) {
      return None, next - 1;
    }
    if next >= |data| {
      return None, next;
    }
    var playerId := data[next];
    next := next + 1;
    var nameStart := next;
    next := ScanToNull(data, next);
    var name := data[nameStart..next];
    next := next + 1;
    if next >= |data| {
      var race := if port == Py then Unknown else Unset;
      return Some(RecordPlayer(port, playerId, name, isHost, race, 0)), next;
    }
    var race, runtimeMs;
    race, runtimeMs, next := ParseExtra(port, data, next);
    player := Some(RecordPlayer(port, playerId, name, isHost, race, runtimeMs));
  }

  /** The extra data a writer puts after the name. */
  datatype Extra = Custom | Ladder(runtimeMs: nat, raceFlags: nat)

  function EncodeExtra(extra: Extra): (e: seq<u8>)
    requires extra.Ladder? ==> extra.runtimeMs < 0x1_0000_0000 && extra.raceFlags < 0x1_0000_0000
  {
    match extra
    case Custom => [0x01, 0x00]
    case Ladder(runtimeMs, raceFlags) => [0x08] + Enc32(runtimeMs) + Enc32(raceFlags)
  }

  /** A player record as a writer lays it out. */
  function EncodePlayerRecord(isHost: bool, id: u8, name: seq<u8>, extra: Extra): (e: seq<u8>)
    requires NoNull(name)
    requires extra.Ladder? ==> extra.runtimeMs < 0x1_0000_0000 && extra.raceFlags < 0x1_0000_0000
  {
    [ExpectedTag(isHost), id] + name + ([0] + EncodeExtra(extra))
  }

  /** Where the pieces of an encoded player record lie after `pre`. */
  lemma PlayerRecordLayout(pre: seq<u8>, isHost: bool, id: u8, name: seq<u8>, extra: Extra, rest: seq<u8>)
    requires NoNull(name)
    requires extra.Ladder? ==> extra.runtimeMs < 0x1_0000_0000 && extra.raceFlags < 0x1_0000_0000
    ensures var data := pre + EncodePlayerRecord(isHost, id, name, extra) + rest;
      var x := EncodeExtra(extra);
      |pre| + 3 + |name| + |x| <= |data|
      && data[|pre|] == ExpectedTag(isHost) && data[|pre| + 1] == id
      && data[|pre| + 2..|pre| + 2 + |name|] == name
      && NullIndex(data, |pre| + 2) == |pre| + 2 + |name|
      && data[|pre| + 3 + |name|] == x[0]
  {
    var a: seq<u8> := [ExpectedTag(isHost), id];
    var tail := [0] + EncodeExtra(extra);
    Regroup(pre, a, name, tail, rest);
    var data := (pre + a) + name + (tail + rest);
    MiddleSlice(pre + a, name, tail + rest);
    assert data[|pre| + 2 + |name|] == 0;
    NullAfterRun(data, |pre| + 2, name);
  }

  /** A record whose name ends at `nameEnd` and that has extra data. */
  lemma PlayerRecordAt(port: Port, data: seq<u8>, offset: nat, isHost: bool, nameEnd: nat)
    requires offset + 1 < |data| && data[offset] == ExpectedTag(isHost)
    requires NullIndex(data, offset + 2) == nameEnd && nameEnd + 1 < |data|
    ensures var x := ExtraAt(port, data, nameEnd + 1);
      PlayerRecord(port, data, offset, isHost)
        == (Some(RecordPlayer(port, data[offset + 1], data[offset + 2..nameEnd], isHost, x.race, x.runtimeMs)), x.next)
  {
  }

  /** Round trip for a record written for a custom game. */
  lemma CustomRecordRoundTrip(port: Port, pre: seq<u8>, isHost: bool, id: u8, name: seq<u8>, rest: seq<u8>)
    requires NoNull(name)
    ensures PlayerRecord(port, pre + EncodePlayerRecord(isHost, id, name, Custom) + rest, |pre|, isHost)
      == (Some(RecordPlayer(port, id, name, isHost, Unknown, 0)), |pre| + |name| + 5)
  {
    var data := pre + EncodePlayerRecord(isHost, id, name, Custom) + rest;
    var nameEnd := |pre| + 2 + |name|;
    PlayerRecordLayout(pre, isHost, id, name, Custom, rest);
    assert data[nameEnd + 1] == EncodeExtra(Custom)[0];
    PlayerRecordAt(port, data, |pre|, isHost, nameEnd);
  }

  /** Extra data that holds a complete ladder block. */
  lemma LadderExtra(port: Port, data: seq<u8>, o: nat, runtimeMs: nat, flags: nat)
    requires o + 9 <= |data| && data[o] == 0x08
    requires LE32(data, o + 1) == runtimeMs && LE32(data, o + 5) == flags
    ensures ExtraAt(port, data, o) == ExtraInfo(RaceFromFlags(flags), runtimeMs, o + 9)
  {
    ExtraPorts(data, o);
  }

  /** An encoded ladder record, regrouped around its two 32-bit fields. */
  lemma LadderRegroup(pre: seq<u8>, isHost: bool, id: u8, name: seq<u8>, runtimeMs: nat, raceFlags: nat, rest: seq<u8>)
    requires NoNull(name) && runtimeMs < 0x1_0000_0000 && raceFlags < 0x1_0000_0000
    ensures var data := pre + EncodePlayerRecord(isHost, id, name, Ladder(runtimeMs, raceFlags)) + rest;
      var h := pre + [ExpectedTag(isHost), id] + name + [0, 0x08];
      data == h + Enc32(runtimeMs) + (Enc32(raceFlags) + rest)
      && data == (h + Enc32(runtimeMs)) + Enc32(raceFlags) + rest
  {
  }

  /** Round trip for a record written for a ladder game. */
  lemma LadderRecordRoundTrip(port: Port, pre: seq<u8>, isHost: bool, id: u8, name: seq<u8>,
                              runtimeMs: nat, raceFlags: nat, rest: seq<u8>)
    requires NoNull(name) && runtimeMs < 0x1_0000_0000 && raceFlags < 0x1_0000_0000
    ensures PlayerRecord(port, pre + EncodePlayerRecord(isHost, id, name, Ladder(runtimeMs, raceFlags)) + rest, |pre|, isHost)
      == (Some(RecordPlayer(port, id, name, isHost, RaceFromFlags(raceFlags), runtimeMs)), |pre| + |name| + 12)
  {
    var data := pre + EncodePlayerRecord(isHost, id, name, Ladder(runtimeMs, raceFlags)) + rest;
    LadderFields(pre, isHost, id, name, runtimeMs, raceFlags, rest);
    LadderRecordAt(port, data, |pre|, isHost, name, runtimeMs, raceFlags);
  }

  /** Where the fields of an encoded ladder record lie after `pre`. */
  lemma LadderFields(pre: seq<u8>, isHost: bool, id: u8, name: seq<u8>, runtimeMs: nat, raceFlags: nat, rest: seq<u8>)
    requires NoNull(name) && runtimeMs < 0x1_0000_0000 && raceFlags < 0x1_0000_0000
    ensures var data := pre + EncodePlayerRecord(isHost, id, name, Ladder(runtimeMs, raceFlags)) + rest;
      var offset := |pre|;
      offset + 1 < |data| && data[offset] == ExpectedTag(isHost) && data[offset + 1] == id
      && offset + 2 + |name| <= |data| && data[offset + 2..offset + 2 + |name|] == name
      && NullIndex(data, offset + 2) == offset + 2 + |name|
      && offset + 12 + |name| <= |data| && data[offset + 3 + |name|] == 0x08
      && LE32(data, offset + 4 + |name|) == runtimeMs && LE32(data, offset + 8 + |name|) == raceFlags
  {
    PlayerRecordLayout(pre, isHost, id, name, Ladder(runtimeMs, raceFlags), rest);
    var h := pre + [ExpectedTag(isHost), id] + name + [0, 0x08];
    LadderRegroup(pre, isHost, id, name, runtimeMs, raceFlags, rest);
    LE32Enc(h, runtimeMs, Enc32(raceFlags) + rest);
    LE32Enc(h + Enc32(runtimeMs), raceFlags, rest);
  }

  /** A record on any buffer whose name is followed by a complete ladder block. */
  lemma LadderRecordAt(port: Port, data: seq<u8>, offset: nat, isHost: bool, name: seq<u8>, runtimeMs: nat, flags: nat)
    requires offset + 1 < |data| && data[offset] == ExpectedTag(isHost)
    requires offset + 2 + |name| <= |data| && data[offset + 2..offset + 2 + |name|] == name
    requires NullIndex(data, offset + 2) == offset + 2 + |name|
    requires offset + 12 + |name| <= |data| && data[offset + 3 + |name|] == 0x08
    requires LE32(data, offset + 4 + |name|) == runtimeMs && LE32(data, offset + 8 + |name|) == flags
    ensures PlayerRecord(port, data, offset, isHost)
      == (Some(RecordPlayer(port, data[offset + 1], name, isHost, RaceFromFlags(flags), runtimeMs)), offset + 12 + |name|)
  {
    LadderExtra(port, data, offset + 3 + |name|, runtimeMs, flags);
    PlayerRecordAt(port, data, offset, isHost, offset + 2 + |name|);
  }

  /**
   * The two ports read the same records: they agree on where reading stops,
   * on the id, name, runtime and race, and differ only in the default slot
   * status and, for a record cut off right after its name, in the race.
   */
  lemma PlayerRecordPorts(data: seq<u8>, offset: nat, isHost: bool)
    ensures var py, go := PlayerRecord(Py, data, offset, isHost), PlayerRecord(Go, data, offset, isHost);
      py.1 == go.1 && py.0.Some? == go.0.Some?
      && (py.0.Some? ==>
            py.0.value.(slotStatus := SlotEmpty, race := Unknown) == go.0.value.(race := Unknown)
            && py.0.value.slotStatus == SlotUsed
            && (go.0.value.race == Unset || py.0.value.race == go.0.value.race))
  {
    if offset + 1 < |data| && data[offset] == ExpectedTag(isHost) {
      var o := NullIndex(data, offset + 2) + 1;
      if o < |data| {
        ExtraPorts(data, o);
      }
    }
  }

  // ---------------------------------------------------------------------
  // Slot records

  datatype SlotRecord = SlotRecord(
    playerId: u8,
    downloadPercent: u8,
    slotStatus: u8,
    isComputer: bool,
    team: u8,
    color: u8,
    raceFlags: u8,
    aiStrength: u8,
    handicap: u8)

  /** Seven bytes before version 3, eight before version 7, nine from then on. */
  function SlotSize(version: nat): (n: nat)
    ensures 7 <= n <= 9
  {
    if version < 3 then 7 else if version < 7 then 8 else 9
  }

  /**
   * The slot record at `offset`, or none (cursor unchanged) when it does not
   * fit. The AI strength is only present from eight bytes on, the handicap
   * only from nine; a missing handicap reads as 100.
   */
  function SlotAt(data: seq<u8>, offset: nat, version: nat): (r: (Option<SlotRecord>, nat))
    ensures r.0.None? <==> |data| < offset + SlotSize(version)
    ensures r.1 == if r.0.Some? then offset + SlotSize(version) else offset
  {
    var size := SlotSize(version);
    if |data| < offset + size then (None, offset)
    else
      var slot := SlotRecord(data[offset], data[offset + 1], data[offset + 2], data[offset + 3] == 0x01,
        data[offset + 4], data[offset + 5], data[offset + 6],
        if size >= 8 then data[offset + 7] else 0,
        if size >= 9 then data[offset + 8] else 100);
      (Some(slot), offset + size)
  }

  /** A slot record holds nothing its version's layout cannot carry. */
  predicate CanonicalSlot(slot: SlotRecord, version: nat)
  {
    (SlotSize(version) < 8 ==> slot.aiStrength == 0)
    && (SlotSize(version) < 9 ==> slot.handicap == 100)
  }

  /** A slot record as a writer lays it out for the given version. */
  function EncodeSlot(slot: SlotRecord, version: nat): (e: seq<u8>)
    ensures |e| == SlotSize(version)
  {
    var base: seq<u8> := [slot.playerId, slot.downloadPercent, slot.slotStatus, if slot.isComputer then 1 else 0,
      slot.team, slot.color, slot.raceFlags];
    if SlotSize(version) == 7 then base
    else if SlotSize(version) == 8 then base + [slot.aiStrength]
    else base + [slot.aiStrength, slot.handicap]
  }

  /** Round trip for one slot record. */
  lemma SlotRoundTrip(pre: seq<u8>, slot: SlotRecord, version: nat, rest: seq<u8>)
    requires CanonicalSlot(slot, version)
    ensures SlotAt(pre + EncodeSlot(slot, version) + rest, |pre|, version)
      == (Some(slot), |pre| + SlotSize(version))
  {
    var data := pre + EncodeSlot(slot, version) + rest;
    var e := EncodeSlot(slot, version);
    forall i | 0 <= i < |e|
      ensures data[|pre| + i] == e[i]
    {
    }
  }

  // ---------------------------------------------------------------------
  // The game start record

  /** `n` slot records read one after another; a record that does not fit is skipped. */
  function SlotsFrom(data: seq<u8>, offset: nat, version: nat, n: nat): (r: (seq<SlotRecord>, nat))
    ensures |r.0| <= n && offset <= r.1
    decreases n
  {
    if n == 0 then ([], offset)
    else
      var first := SlotAt(data, offset, version);
      var rest := SlotsFrom(data, first.1, version, n - 1);
      (if first.0.Some? then [first.0.value] + rest.0 else rest.0, rest.1)
  }

  /** Once a slot record does not fit, neither does any later one: nothing more is read. */
  lemma {:induction false} SlotsStuck(data: seq<u8>, offset: nat, version: nat, n: nat)
    requires |data| < offset + SlotSize(version)
    ensures SlotsFrom(data, offset, version, n) == ([], offset)
    decreases n
  {
    if n > 0 {
      SlotsStuck(data, offset, version, n - 1);
    }
  }

  function EncodeSlots(slots: seq<SlotRecord>, version: nat): (e: seq<u8>)
    ensures |e| == |slots| * SlotSize(version)
  {
    if slots == [] then [] else EncodeSlot(slots[0], version) + EncodeSlots(slots[1..], version)
  }

  /** Reading a run whose first record fits. */
  lemma SlotsFromFirst(data: seq<u8>, offset: nat, version: nat, n: nat, slot: SlotRecord)
    requires 0 < n && SlotAt(data, offset, version) == (Some(slot), offset + SlotSize(version))
    ensures SlotsFrom(data, offset, version, n)
      == ([slot] + SlotsFrom(data, offset + SlotSize(version), version, n - 1).0,
          SlotsFrom(data, offset + SlotSize(version), version, n - 1).1)
  {
  }

  /** Round trip for a run of slot records. */
  lemma {:induction false} SlotsRoundTrip(pre: seq<u8>, slots: seq<SlotRecord>, version: nat, rest: seq<u8>)
    requires forall i :: 0 <= i < |slots| ==> CanonicalSlot(slots[i], version)
    ensures SlotsFrom(pre + EncodeSlots(slots, version) + rest, |pre|, version, |slots|)
      == (slots, |pre| + |EncodeSlots(slots, version)|)
    decreases |slots|
  {
    if slots != [] {
      var e0, et := EncodeSlot(slots[0], version), EncodeSlots(slots[1..], version);
      SlotsRoundTripStep(pre, e0, et, slots, version, rest);
    }
  }

  /** The inductive step of `SlotsRoundTrip`, with the two encoded pieces named. */
  lemma {:induction false} SlotsRoundTripStep(pre: seq<u8>, e0: seq<u8>, et: seq<u8>, slots: seq<SlotRecord>,
                                              version: nat, rest: seq<u8>)
    requires slots != [] && e0 == EncodeSlot(slots[0], version) && et == EncodeSlots(slots[1..], version)
    requires forall i :: 0 <= i < |slots| ==> CanonicalSlot(slots[i], version)
    ensures SlotsFrom(pre + (e0 + et) + rest, |pre|, version, |slots|) == (slots, |pre| + |e0| + |et|)
    decreases |slots|, 1
  {
    FirstSlotAt(pre, e0, et, slots[0], version, rest);
    LaterSlotsAt(pre, e0, et, slots, version, rest);
    SlotsCons(pre + (e0 + et) + rest, |pre|, version, slots, |pre| + |e0| + |et|);
  }

  /** The first slot record of a run is read back. */
  lemma FirstSlotAt(pre: seq<u8>, e0: seq<u8>, et: seq<u8>, slot: SlotRecord, version: nat, rest: seq<u8>)
    requires e0 == EncodeSlot(slot, version) && CanonicalSlot(slot, version)
    ensures SlotAt(pre + (e0 + et) + rest, |pre|, version) == (Some(slot), |pre| + SlotSize(version))
  {
    Reassoc(pre, e0, et, rest);
    SlotRoundTrip(pre, slot, version, et + rest);
  }

  /** The records after the first one are read back from where the first one ends. */
  lemma {:induction false} LaterSlotsAt(pre: seq<u8>, e0: seq<u8>, et: seq<u8>, slots: seq<SlotRecord>,
                                        version: nat, rest: seq<u8>)
    requires slots != [] && e0 == EncodeSlot(slots[0], version) && et == EncodeSlots(slots[1..], version)
    requires forall i :: 0 <= i < |slots| ==> CanonicalSlot(slots[i], version)
    ensures SlotsFrom(pre + (e0 + et) + rest, |pre| + SlotSize(version), version, |slots| - 1)
      == (slots[1..], |pre| + |e0| + |et|)
    decreases |slots|, 0
  {
    Reassoc(pre, e0, et, rest);
    SlotsRoundTrip(pre + e0, slots[1..], version, rest);
  }

  /** A run read as its first record followed by the rest. */
  lemma SlotsCons(data: seq<u8>, offset: nat, version: nat, slots: seq<SlotRecord>, end: nat)
    requires slots != []
    requires SlotAt(data, offset, version) == (Some(slots[0]), offset + SlotSize(version))
    requires SlotsFrom(data, offset + SlotSize(version), version, |slots| - 1) == (slots[1..], end)
    ensures SlotsFrom(data, offset, version, |slots|) == (slots, end)
  {
    SlotsFromFirst(data, offset, version, |slots|, slots[0]);
    assert [slots[0]] + slots[1..] == slots;
  }

  /** The slots, random seed and select mode of a game start record, and where reading stops. */
  datatype GameStart = GameStart(slots: seq<SlotRecord>, randomSeed: nat, selectMode: u8, end: nat)

  /**
   * What a game start record at `offset` yields: nothing (cursor unchanged)
   * without the 0x19 tag; nothing (cursor past what was read) when the data
   * ends inside the size word or before the slot count; otherwise the slots,
   * then the seed, the select mode and the start spot count, each read only
   * when it fits.
   */
  function GameStartRecord(data: seq<u8>, offset: nat, version: nat): (g: GameStart)
    ensures offset <= g.end
    ensures |g.slots| <= 0x100
    ensures (|data| <= offset || data[offset] != BlockGameStart) ==> g == GameStart([], 0, 0, offset)
  {
    if |data| <= offset || data[offset] != BlockGameStart then GameStart([], 0, 0, offset)
    else if |data| < offset + 3 then GameStart([], 0, 0, offset + 1)
    else if |data| <= offset + 3 then GameStart([], 0, 0, offset + 3)
    else
      var read := SlotsFrom(data, offset + 4, version, data[offset + 3]);
      var o := read.1;
      var seed := if o + 4 <= |data| then LE32(data, o) else 0;
      var o2 := if o + 4 <= |data| then o + 4 else o;
      var mode: u8 := if o2 < |data| then data[o2] else 0;
      var o3 := if o2 < |data| then o2 + 1 else o2;
      GameStart(read.0, seed, mode, if o3 < |data| then o3 + 1 else o3)
  }

  /** `parse_game_start_record` / `parseGameStartRecord`. */
  method ParseGameStartRecord(data: seq<u8>, offset: nat, version: nat) returns (g: GameStart)
    ensures g == GameStartRecord(data, offset, version)
  {
    if offset >= |data| || data[offset] != BlockGameStart {
      return GameStart([], 0, 0, offset);
    }
    var o: nat := offset + 1;
    if o + 2 > |data| {
      return GameStart([], 0, 0, o);
    }
    o := o + 2;
    if o >= |data| {
      return GameStart([], 0, 0, o);
    }
    var numSlots := data[o];
    o := o + 1;
    ghost var all := SlotsFrom(data, o, version, numSlots);
    var slots: seq<SlotRecord> := [];
    var i: nat := 0;
    while i < numSlots
      invariant i <= numSlots
      invariant slots + SlotsFrom(data, o, version, numSlots - i).0 == all.0
      invariant SlotsFrom(data, o, version, numSlots - i).1 == all.1
    {
      var slot := SlotAt(data, o, version);
      ghost var rest := SlotsFrom(data, slot.1, version, numSlots - i - 1);
      if slot.0.Some? {
        assert slots + [slot.0.value] + rest.0 == slots + ([slot.0.value] + rest.0);
        slots := slots + [slot.0.value];
      }
      o := slot.1;
      i := i + 1;
    }
    var seed := 0;
    if o + 4 <= |data| {
      seed := LE32(data, o);
      o := o + 4;
    }
    var mode: u8 := 0;
    if o < |data| {
      mode := data[o];
      o := o + 1;
    }
    if o < |data| {
      o := o + 1;
    }
    g := GameStart(slots, seed, mode, o);
  }

  /** A game start record as a writer lays it out. */
  function EncodeGameStart(numBytes: nat, slots: seq<SlotRecord>, version: nat, seed: nat, mode: u8, spots: u8): seq<u8>
    requires numBytes < 0x1_0000 && |slots| < 0x100 && seed < 0x1_0000_0000
  {
    [BlockGameStart] + Enc16(numBytes) + [|slots|] + EncodeSlots(slots, version) + Enc32(seed) + [mode, spots]
  }

  /** A tagged record whose slots end at `slotsEnd`, followed by the seed, the mode and the spot count. */
  lemma GameStartComplete(data: seq<u8>, offset: nat, version: nat, slots: seq<SlotRecord>, slotsEnd: nat,
                          seed: nat, mode: u8, end: nat)
    requires offset + 3 < |data| && data[offset] == BlockGameStart
    requires SlotsFrom(data, offset + 4, version, data[offset + 3]) == (slots, slotsEnd)
    requires slotsEnd + 6 <= |data| && LE32(data, slotsEnd) == seed && data[slotsEnd + 4] == mode
    requires end == slotsEnd + 6
    ensures GameStartRecord(data, offset, version) == GameStart(slots, seed, mode, end)
  {
  }

  /** Round trip: every slot, the seed and the select mode are read back, and reading stops at the end. */
  lemma GameStartRoundTrip(pre: seq<u8>, numBytes: nat, slots: seq<SlotRecord>, version: nat,
                           seed: nat, mode: u8, spots: u8, rest: seq<u8>)
    requires numBytes < 0x1_0000 && |slots| < 0x100 && seed < 0x1_0000_0000
    requires forall i :: 0 <= i < |slots| ==> CanonicalSlot(slots[i], version)
    ensures var e := EncodeGameStart(numBytes, slots, version, seed, mode, spots);
      GameStartRecord(pre + e + rest, |pre|, version) == GameStart(slots, seed, mode, |pre| + |e|)
  {
    var a := [BlockGameStart] + Enc16(numBytes) + [|slots|];
    var es := EncodeSlots(slots, version);
    var t := Enc32(seed) + [mode, spots];
    assert EncodeGameStart(numBytes, slots, version, seed, mode, spots) == a + es + t;
    GameStartHead(pre, a, es, t, slots, version, rest);
    GameStartTail(pre, a, es, t, seed, mode, rest);
    GameStartPieces(pre, a, es, t, slots, version, seed, mode, rest);
  }

  /** A game start record laid out as the pieces `a`, `es` and `t`, once its head and tail read back. */
  lemma GameStartPieces(pre: seq<u8>, a: seq<u8>, es: seq<u8>, t: seq<u8>, slots: seq<SlotRecord>, version: nat,
                        seed: nat, mode: u8, rest: seq<u8>)
    requires var data := pre + (a + es + t) + rest;
      |pre| + 3 < |data| && data[|pre|] == BlockGameStart && data[|pre| + 3] == |slots|
      && SlotsFrom(data, |pre| + 4, version, data[|pre| + 3]) == (slots, |pre| + 4 + |es|)
    requires var data := pre + (a + es + t) + rest;
      var o := |pre| + 4 + |es|;
      o + 6 <= |data| && LE32(data, o) == seed && data[o + 4] == mode
    ensures GameStartRecord(pre + (a + es + t) + rest, |pre|, version) == GameStart(slots, seed, mode, |pre| + 10 + |es|)
  {
    GameStartComplete(pre + (a + es + t) + rest, |pre|, version, slots, |pre| + 4 + |es|, seed, mode, |pre| + 10 + |es|);
  }

  /** The tag, the slot count and the slots of an encoded game start record. */
  lemma GameStartHead(pre: seq<u8>, a: seq<u8>, es: seq<u8>, t: seq<u8>, slots: seq<SlotRecord>, version: nat,
                      rest: seq<u8>)
    requires |a| == 4 && a[0] == BlockGameStart && a[3] == |slots|
    requires es == EncodeSlots(slots, version) && forall i :: 0 <= i < |slots| ==> CanonicalSlot(slots[i], version)
    ensures var data := pre + (a + es + t) + rest;
      |pre| + 3 < |data| && data[|pre|] == BlockGameStart && data[|pre| + 3] == |slots|
      && SlotsFrom(data, |pre| + 4, version, data[|pre| + 3]) == (slots, |pre| + 4 + |es|)
  {
    var head := pre + a;
    Regroup(pre, a, es, t, rest);
    assert (pre + (a + es + t) + rest)[|pre| + 3] == a[3];
    SlotsRoundTrip(head, slots, version, t + rest);
  }

  /** The seed and the select mode that follow the slots. */
  lemma GameStartTail(pre: seq<u8>, a: seq<u8>, es: seq<u8>, t: seq<u8>, seed: nat, mode: u8, rest: seq<u8>)
    requires |a| == 4 && seed < 0x1_0000_0000 && |t| == 6 && t[..4] == Enc32(seed) && t[4] == mode
    ensures var data := pre + (a + es + t) + rest;
      var o := |pre| + 4 + |es|;
      o + 6 <= |data| && LE32(data, o) == seed && data[o + 4] == mode
  {
    var head := pre + a + es;
    var data := pre + (a + es + t) + rest;
    assert data == head + t + rest;
    forall j | 0 <= j < 4
      ensures data[|head| + j] == Enc32(seed)[j]
    {
      assert data[|head| + j] == t[j] == t[..4][j];
    }
    LE32Window(data, |head|, seed);
  }

  /**
   * The check the prelude uses to recognise a game start record: the tag, a
   * size word between 10 and 500, and between 2 and 24 slots.
   */
  predicate IsValidGameStartRecord(data: seq<u8>, offset: nat)
  {
    offset + 4 <= |data| && data[offset] == BlockGameStart
    && 10 <= LE16(data, offset + 1) <= 500 && 2 <= data[offset + 3] <= 24
  }

  /** A record a writer produced with a plausible size and 2..24 slots passes the check. */
  lemma {:induction false} EncodedGameStartIsValid(pre: seq<u8>, numBytes: nat, slots: seq<SlotRecord>, version: nat,
                                seed: nat, mode: u8, spots: u8, rest: seq<u8>)
    requires 10 <= numBytes <= 500 && 2 <= |slots| <= 24 && seed < 0x1_0000_0000
    ensures IsValidGameStartRecord(pre + EncodeGameStart(numBytes, slots, version, seed, mode, spots) + rest, |pre|)
  {
    var e := EncodeGameStart(numBytes, slots, version, seed, mode, spots);
    var data := pre + e + rest;
    assert e[0] == BlockGameStart && e[1] == numBytes % 0x100 && e[2] == numBytes / 0x100 && e[3] == |slots|;
    assert data[|pre|] == e[0] && data[|pre| + 1] == e[1] && data[|pre| + 2] == e[2] && data[|pre| + 3] == e[3];
    LE16Of(data, |pre| + 1, numBytes);
  }

  /** A recognised record is read from its slot count on: the parse does not stop early. */
  lemma ValidRecordReadsSlots(data: seq<u8>, offset: nat, version: nat)
    requires IsValidGameStartRecord(data, offset)
    ensures GameStartRecord(data, offset, version).slots
      == SlotsFrom(data, offset + 4, version, data[offset + 3]).0
  {
  }

  // ---------------------------------------------------------------------
  // Applying slot information

  function ObserverTeam(version: nat): nat
  {
    if version >= ReforgedVersionThreshold then ObserverTeamReforged else ObserverTeamClassic
  }

  /** Index of the last player with the given id: the one the id-to-player map keeps. */
  function LastWithId(players: seq<PlayerInfo>, id: u8): (k: Option<nat>)
    ensures k.Some? ==> (k.value < |players| && players[k.value].id == id
                         && forall j :: k.value < j < |players| ==> players[j].id != id)
    ensures k.None? ==> forall j :: 0 <= j < |players| ==> players[j].id != id
  {
    if players == [] then None
    else if players[|players| - 1].id == id then Some(|players| - 1)
    else LastWithId(players[..|players| - 1], id)
  }

  /** The lookup depends only on the ids. */
  lemma {:induction false} LastWithIdSameIds(a: seq<PlayerInfo>, b: seq<PlayerInfo>, id: u8)
    requires |a| == |b| && forall j :: 0 <= j < |a| ==> a[j].id == b[j].id
    ensures LastWithId(a, id) == LastWithId(b, id)
    decreases |a|
  {
    if a != [] {
      LastWithIdSameIds(a[..|a| - 1], b[..|b| - 1], id);
    }
  }

  /** The player a used computer slot creates. */
  function ComputerPlayer(slot: SlotRecord): PlayerInfo
  {
    PlayerInfo(slot.playerId, Numbered("Computer ", slot.playerId), RaceFromFlags(slot.raceFlags),
      slot.team, slot.color, slot.handicap, false, true, false, SlotUsed, 0, 0, 0.0, None, None)
  }

  /**
   * A player updated from its slot: team, color, handicap and status are
   * taken over; the race only when it is still unknown; and the player
   * becomes an observer when the slot puts it on the observer team.
   */
  function WithSlot(p: PlayerInfo, slot: SlotRecord, observerTeam: nat): (q: PlayerInfo)
    ensures q.id == p.id && q.name == p.name
  {
    p.(team := slot.team, color := slot.color, handicap := slot.handicap, slotStatus := slot.slotStatus,
       race := if p.race == Unknown then RaceFromFlags(slot.raceFlags) else p.race,
       isObserver := p.isObserver || slot.team == observerTeam)
  }

  predicate UsedHuman(slot: SlotRecord)
  {
    slot.slotStatus == SlotUsed && !slot.isComputer
  }

  /**
   * One slot applied to the players, the first `known` of which were there
   * when the id map was built. Go appends the computer to its local copy of
   * the slice only, so the caller never sees it.
   */
  function ApplySlot(port: Port, players: seq<PlayerInfo>, known: nat, slot: SlotRecord, observerTeam: nat): seq<PlayerInfo>
    requires known <= |players|
  {
    if slot.slotStatus != SlotUsed then players
    else if slot.isComputer then (if port == Py then players + [ComputerPlayer(slot)] else players)
    else match LastWithId(players[..known], slot.playerId)
      case None => players
      case Some(k) => players[k := WithSlot(players[k], slot, observerTeam)]
  }

  /** All slots applied in order. */
  function ApplySlots(port: Port, players: seq<PlayerInfo>, known: nat, slots: seq<SlotRecord>, version: nat): (r: seq<PlayerInfo>)
    requires known <= |players|
    ensures |players| <= |r|
    ensures forall j :: 0 <= j < |players| ==> r[j].id == players[j].id && r[j].name == players[j].name
    decreases |slots|
  {
    if slots == [] then players
    else
      var prev := ApplySlots(port, players, known, slots[..|slots| - 1], version);
      ApplySlot(port, prev, known, slots[|slots| - 1], ObserverTeam(version))
  }

  /** The computers the used computer slots create, in slot order. */
  function Computers(slots: seq<SlotRecord>): seq<PlayerInfo>
  {
    if slots == [] then []
    else
      var last := slots[|slots| - 1];
      Computers(slots[..|slots| - 1]) + (if last.slotStatus == SlotUsed && last.isComputer then [ComputerPlayer(last)] else [])
  }

  /**
   * Python appends one computer player per used computer slot, after the
   * parsed players; Go leaves the list as long as it was.
   */
  lemma {:induction false} AppendedComputers(port: Port, players: seq<PlayerInfo>, slots: seq<SlotRecord>, version: nat)
    ensures var r := ApplySlots(port, players, |players|, slots, version);
      r[|players|..] == (if port == Py then Computers(slots) else [])
    decreases |slots|
  {
    if slots != [] {
      var init := slots[..|slots| - 1];
      AppendedComputers(port, players, init, version);
      var prev := ApplySlots(port, players, |players|, init, version);
      var r := ApplySlots(port, players, |players|, slots, version);
      var last := slots[|slots| - 1];
      if last.slotStatus == SlotUsed && last.isComputer && port == Py {
        assert r == prev + [ComputerPlayer(last)];
        assert r[|players|..] == prev[|players|..] + [ComputerPlayer(last)];
      } else if last.slotStatus == SlotUsed && !last.isComputer {
        match LastWithId(prev[..|players|], last.playerId)
        case None =>
        case Some(k) =>
          assert r[|players|..] == prev[|players|..];
      }
    }
  }

  /** The last used human slot that names the given id, if any. */
  function LastSlotFor(slots: seq<SlotRecord>, id: u8): (s: Option<SlotRecord>)
    ensures s.Some? ==> UsedHuman(s.value) && s.value.playerId == id
  {
    if slots == [] then None
    else
      var last := slots[|slots| - 1];
      if UsedHuman(last) && last.playerId == id then Some(last) else LastSlotFor(slots[..|slots| - 1], id)
  }

  /** What one slot does to a player that was there when the id map was built. */
  lemma ApplySlotAt(port: Port, players: seq<PlayerInfo>, known: nat, slot: SlotRecord, observerTeam: nat, k: nat)
    requires k < known <= |players|
    ensures ApplySlot(port, players, known, slot, observerTeam)[k]
      == if UsedHuman(slot) && LastWithId(players[..known], slot.playerId) == Some(k)
         then WithSlot(players[k], slot, observerTeam) else players[k]
  {
  }

  /**
   * The last slot wins: the player the id map keeps for an id ends with the
   * team, color, handicap and status of the last used human slot naming
   * that id, and keeps its own when there is none; a race already known is
   * kept; players the map does not keep are left as they were.
   */
  lemma {:induction false} LastSlotWins(port: Port, players: seq<PlayerInfo>, slots: seq<SlotRecord>, version: nat, k: nat)
    requires k < |players|
    ensures var r := ApplySlots(port, players, |players|, slots, version);
      var p, q := players[k], r[k];
      (LastWithId(players, p.id) != Some(k) ==> q == p)
      && (LastWithId(players, p.id) == Some(k) ==>
            match LastSlotFor(slots, p.id)
            case None => q == p
            case Some(s) => q.team == s.team && q.color == s.color && q.handicap == s.handicap
                            && q.slotStatus == SlotUsed)
      && (p.race != Unknown ==> q.race == p.race)
      && (p.isObserver ==> q.isObserver)
    decreases |slots|
  {
    if slots != [] {
      var init, last := slots[..|slots| - 1], slots[|slots| - 1];
      LastSlotWins(port, players, init, version, k);
      var prev := ApplySlots(port, players, |players|, init, version);
      LastWithIdSameIds(prev[..|players|], players, last.playerId);
      assert players[..|players|] == players;
      ApplySlotAt(port, prev, |players|, last, ObserverTeam(version), k);
      assert LastSlotFor(slots, players[k].id)
        == if UsedHuman(last) && last.playerId == players[k].id then Some(last) else LastSlotFor(init, players[k].id);
    }
  }

  /** A player put on the observer team by any used slot for it is an observer at the end. */
  lemma {:induction false} ObserverSlotMarks(port: Port, players: seq<PlayerInfo>, slots: seq<SlotRecord>, version: nat, k: nat, i: nat)
    requires k < |players| && LastWithId(players, players[k].id) == Some(k)
    requires i < |slots| && UsedHuman(slots[i]) && slots[i].playerId == players[k].id
    requires slots[i].team == ObserverTeam(version)
    ensures ApplySlots(port, players, |players|, slots, version)[k].isObserver
    decreases |slots|
  {
    var init, last := slots[..|slots| - 1], slots[|slots| - 1];
    var prev := ApplySlots(port, players, |players|, init, version);
    LastWithIdSameIds(prev[..|players|], players, slots[i].playerId);
    assert players[..|players|] == players;
    if i < |slots| - 1 {
      ObserverSlotMarks(port, players, init, version, k, i);
      LastSlotWins(port, players, slots, version, k);
      assert slots[..|slots| - 1] == init;
    }
  }

  /** Applying one more slot of a prefix of the slots. */
  lemma ApplySlotsSnoc(port: Port, players: seq<PlayerInfo>, slots: seq<SlotRecord>, version: nat, i: nat)
    requires i < |slots|
    ensures ApplySlots(port, players, |players|, slots[..i + 1], version)
      == ApplySlot(port, ApplySlots(port, players, |players|, slots[..i], version), |players|, slots[i], ObserverTeam(version))
  {
    assert slots[..i + 1][..i] == slots[..i];
  }

  /** The id-to-index map both ports build first: a later player with the same id overwrites an earlier one. */
  method PlayerIndex(players: seq<PlayerInfo>) returns (playerMap: map<u8, nat>)
    ensures forall id: u8 :: (id in playerMap) == LastWithId(players, id).Some?
    ensures forall id: u8 :: id in playerMap ==> LastWithId(players, id) == Some(playerMap[id])
  {
    playerMap := map[];
    var j := 0;
    while j < |players|
      invariant j <= |players|
      invariant forall id: u8 :: (id in playerMap) == LastWithId(players[..j], id).Some?
      invariant forall id: u8 :: id in playerMap ==> LastWithId(players[..j], id) == Some(playerMap[id])
    {
      assert players[..j + 1][..j] == players[..j];
      playerMap := playerMap[players[j].id := j];
      j := j + 1;
    }
    assert players[..|players|] == players;
  }

  /** The loop body of `ApplySlotInfoToPlayers`: one slot, looked up through the id map. */
  method ApplyOneSlot(port: Port, players: seq<PlayerInfo>, playerMap: map<u8, nat>, out: seq<PlayerInfo>,
                      slot: SlotRecord, observerTeam: nat) returns (next: seq<PlayerInfo>)
    requires forall id: u8 :: (id in playerMap) == LastWithId(players, id).Some?
    requires forall id: u8 :: id in playerMap ==> LastWithId(players, id) == Some(playerMap[id])
    requires |players| <= |out| && forall j :: 0 <= j < |players| ==> out[j].id == players[j].id
    ensures next == ApplySlot(port, out, |players|, slot, observerTeam)
  {
    LastWithIdSameIds(out[..|players|], players, slot.playerId);
    next := out;
    if slot.slotStatus != SlotUsed {
    } else if slot.isComputer {
      if port == Py {
        next := out + [ComputerPlayer(slot)];
      }
    } else if slot.playerId in playerMap {
      var k := playerMap[slot.playerId];
      next := out[k := WithSlot(out[k], slot, observerTeam)];
    }
  }

  /** `apply_slot_info_to_players` / `applySlotInfoToPlayers`: build the id map, then apply each slot. */
  method ApplySlotInfoToPlayers(port: Port, players: seq<PlayerInfo>, slots: seq<SlotRecord>, version: nat)
    returns (out: seq<PlayerInfo>)
    ensures out == ApplySlots(port, players, |players|, slots, version)
  {
    var playerMap := PlayerIndex(players);
    var observerTeam := ObserverTeam(version);
    out := players;
    var i := 0;
    while i < |slots|
      invariant i <= |slots|
      invariant out == ApplySlots(port, players, |players|, slots[..i], version)
    {
      ApplySlotsSnoc(port, players, slots, version, i);
      out := ApplyOneSlot(port, players, playerMap, out, slots[i], observerTeam);
      i := i + 1;
    }
    assert slots[..|slots|] == slots;
  }
}
