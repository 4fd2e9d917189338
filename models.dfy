// The records the decoder produces (models.py / models.go) and the
// properties computed from them.

module Models {
  import opened Common

  // ---------------------------------------------------------------------
  // Race

  /**
   * Race of a player. `Unset` is Go's zero value `Race(0)`: it prints as
   * "Unknown" but is a different value from `RaceUnknown` (0xFF).
   */
  datatype Race = Human | Orc | NightElf | Undead | Random | Selectable | Unknown | Unset

  /** The races `from_flags` can answer other than Unknown, in priority order, with their bits. */
  const RacePriority: seq<Race> := [Human, Orc, NightElf, Undead, Random, Selectable]
  const RaceMasks: seq<nat> := [0x01, 0x02, 0x04, 0x08, 0x20, 0x40]

  /** `Race.from_flags` / `RaceFromFlags`: the first set bit in priority order decides. */
  function RaceFromFlags(flags: nat): Race
  {
    if HasBit(flags, 0x01) then Human
    else if HasBit(flags, 0x02) then Orc
    else if HasBit(flags, 0x04) then NightElf
    else if HasBit(flags, 0x08) then Undead
    else if HasBit(flags, 0x20) then Random
    else if HasBit(flags, 0x40) then Selectable
    else Unknown
  }

  /**
   * The race is the k-th of the priority list exactly when its bit is set
   * and no bit before it is; Unknown exactly when none of the six bits is set.
   */
  lemma RaceFromFlagsPriority(flags: nat, k: nat)
    requires k < 6
    ensures RaceFromFlags(flags) == RacePriority[k]
      <==> (HasBit(flags, RaceMasks[k]) && forall j :: 0 <= j < k ==> !HasBit(flags, RaceMasks[j]))
    ensures RaceFromFlags(flags) == Unknown
      <==> forall j :: 0 <= j < 6 ==> !HasBit(flags, RaceMasks[j])
  {
    assert RaceMasks[0] == 0x01 && RaceMasks[1] == 0x02 && RaceMasks[2] == 0x04;
    assert RaceMasks[3] == 0x08 && RaceMasks[4] == 0x20 && RaceMasks[5] == 0x40;
    assert RacePriority[0] == Human && RacePriority[1] == Orc && RacePriority[2] == NightElf;
    assert RacePriority[3] == Undead && RacePriority[4] == Random && RacePriority[5] == Selectable;
  }

  /**
   * Python applies `from_flags` to the whole u32 race field, Go to its low
   * byte (`uint8(raceFlags)`); both give the same race.
   */
  lemma RaceFromFlagsLowByte(flags: nat)
    ensures RaceFromFlags(flags) == RaceFromFlags(flags % 0x100)
  {
    LowByteBit(flags, 0x01, 0x100);
    LowByteBit(flags, 0x02, 0x80);
    LowByteBit(flags, 0x04, 0x40);
    LowByteBit(flags, 0x08, 0x20);
    LowByteBit(flags, 0x20, 0x08);
    LowByteBit(flags, 0x40, 0x04);
  }

  /** A bit below 0x100 reads the same from the value and from its low byte. */
  lemma LowByteBit(flags: nat, mask: nat, k: nat)
    requires mask >= 1 && k % 2 == 0 && mask * k == 0x100
    ensures HasBit(flags, mask) == HasBit(flags % 0x100, mask)
  {
    var q, r := flags / 0x100, flags % 0x100;
    var s, e := r / mask, r % mask;
    assert r == mask * s + e;
    assert flags == mask * (k * q + s) + e by {
      assert flags == 0x100 * q + r;
      assert 0x100 * q == (mask * k) * q == mask * (k * q);
      assert mask * (k * q + s) == mask * (k * q) + mask * s;
    }
    DivUnique(flags, mask, k * q + s, e);
    Mod2Unique(s, s / 2, s % 2);
    Mod2Unique(k * q + s, (k / 2) * q + s / 2, s % 2);
  }

  // ---------------------------------------------------------------------
  // Slot status and leave result

  const SlotEmpty: nat := 0
  const SlotClosed: nat := 1
  const SlotUsed: nat := 2

  const LeaveLeft: nat := 0x01
  const LeaveLeftAlt: nat := 0x07
  const LeaveLost: nat := 0x08
  const LeaveWon: nat := 0x09
  const LeaveDraw: nat := 0x0A
  const LeaveObserverLeft: nat := 0x0B

  /** The members of the `LeaveResult` enum. */
  predicate IsLeaveResult(code: nat)
  {
    code in {LeaveLeft, LeaveLeftAlt, LeaveLost, LeaveWon, LeaveDraw, LeaveObserverLeft}
  }

  /**
   * The leave result stored for the u32 `result` field of a leave block:
   * Python converts with `LeaveResult(result)` and falls back to LEFT for
   * a non-member; Go casts to `uint8` with no check.
   */
  function LeaveResultOf(port: Port, result: nat): (code: nat)
    ensures port == Py ==> IsLeaveResult(code)
    ensures port == Py ==> (code == result <==> IsLeaveResult(result))
    ensures port == Go ==> code < 0x100 && (result - code) % 0x100 == 0
  {
    match port
    case Py => if IsLeaveResult(result) then result else LeaveLeft
    case Go => result % 0x100
  }

  /** `LeaveResult.String` (Go). */
  function LeaveResultName(code: nat): string
  {
    if code == LeaveLeft || code == LeaveLeftAlt then "Left"
    else if code == LeaveLost then "Lost"
    else if code == LeaveWon then "Won"
    else if code == LeaveDraw then "Draw"
    else if code == LeaveObserverLeft then "ObserverLeft"
    else "Unknown"
  }

  /**
   * Every enum member has a name of its own, the two "left" codes share
   * one, and every other value prints as "Unknown".
   */
  lemma LeaveResultNameCovers(a: nat, b: nat)
    ensures LeaveResultName(a) == "Unknown" <==> !IsLeaveResult(a)
    ensures IsLeaveResult(a) && IsLeaveResult(b) ==>
      (LeaveResultName(a) == LeaveResultName(b) <==> a == b || {a, b} == {LeaveLeft, LeaveLeftAlt})
  {
  }

  // ---------------------------------------------------------------------
  // Header and its derived properties

  datatype ReplayHeader = ReplayHeader(
    magic: seq<u8>,
    headerSize: nat,
    compressedSize: nat,
    headerVersion: nat,
    decompressedSize: nat,
    numBlocks: nat,
    identifier: seq<u8>,
    version: nat,
    build: nat,
    flags: nat,
    durationMs: nat,
    crc32: nat,
    rawHeader: seq<u8>)

  /** "WAR3", "W3XP" and "PX3W". */
  const IdClassic: seq<u8> := [0x57, 0x41, 0x52, 0x33]
  const IdExpansion: seq<u8> := [0x57, 0x33, 0x58, 0x50]
  const IdReforged: seq<u8> := [0x50, 0x58, 0x33, 0x57]
  const ReforgedVersionThreshold: nat := 29
  const FlagMultiplayer: nat := 0x8000

  predicate IsMultiplayer(h: ReplayHeader) { HasBit(h.flags, FlagMultiplayer) }

  predicate IsReforged(h: ReplayHeader) { h.version >= ReforgedVersionThreshold || h.identifier == IdReforged }

  predicate IsExpansion(h: ReplayHeader) { h.identifier == IdExpansion || h.identifier == IdReforged }

  /** For a 16-bit flags field, multiplayer is exactly its top bit 0x8000. */
  lemma MultiplayerIsTopBit(h: ReplayHeader)
    requires h.flags < 0x1_0000
    ensures IsMultiplayer(h) <==> h.flags >= 0x8000
  {
  }

  /** Known reforged builds. */
  const BuildVersions: map<nat, string> := map[
    6105 := "1.32.0", 6106 := "1.32.1", 6108 := "1.32.2", 6110 := "1.32.3",
    6111 := "1.32.4", 6112 := "1.32.5", 6113 := "1.32.6", 6114 := "1.32.7",
    6115 := "1.32.8", 6116 := "1.32.9", 6117 := "1.32.10", 6118 := "1.33.0",
    6119 := "1.34.0", 6120 := "1.35.0", 6121 := "1.36.0", 6122 := "1.36.1",
    6123 := "1.36.2"]

  /** `version_string` / `VersionString`: the build table for reforged headers, else the patch number. */
  function VersionString(h: ReplayHeader): string
  {
    if IsReforged(h) then
      if h.build in BuildVersions then BuildVersions[h.build]
      else "1.3x (build " + Decimal(h.build) + ")"
    else PatchVersionString(h.version)
  }

  /** The two non-reforged branches of `version_string`, as written. */
  function PatchVersionString(version: nat): string
  {
    if version >= 10000 then
      var major := version / 10000;
      var minor := (version % 10000) / 100;
      var patch := version % 100;
      if patch != 0 then Decimal(major) + "." + Decimal(minor) + "." + Decimal(patch)
      else Decimal(major) + "." + Decimal(minor)
    else "1." + Decimal(version)
  }

  /**
   * The `version >= 10000` branch can never be taken: such a version is
   * already reforged. Every non-reforged header reads "1.N".
   */
  lemma VersionStringClassic(h: ReplayHeader)
    ensures h.version >= 10000 ==> IsReforged(h)
    ensures !IsReforged(h) ==> VersionString(h) == "1." + Decimal(h.version)
  {
  }

  // ---------------------------------------------------------------------
  // Players, settings, chat, actions, replay

  datatype PlayerInfo = PlayerInfo(
    id: u8,
    name: seq<u8>,
    race: Race,
    team: nat,
    color: nat,
    handicap: nat,
    isHost: bool,
    isComputer: bool,
    isObserver: bool,
    slotStatus: nat,
    runtimeMs: nat,
    actionCount: nat,
    apm: real,
    leaveResult: Option<nat>,
    leaveTimeMs: Option<nat>)

  datatype GameSettings = GameSettings(
    speed: nat,
    visibility: nat,
    observers: nat,
    teamsTogether: bool,
    lockTeams: bool,
    fullSharedControl: bool,
    randomHero: bool,
    randomRaces: bool,
    referees: bool,
    mapChecksum: seq<u8>)

  /** `GameSettings()` in Python; the `Speed: 2` value Go starts the walk with. */
  const DefaultSettings: GameSettings :=
    GameSettings(2, 0, 0, false, false, false, false, false, false, [])

  /** `speed_name` / `SpeedName`. */
  function SpeedName(port: Port, speed: nat): string
  {
    var names := ["Slow", "Normal", "Fast"];
    match port
    case Py => names[Min(speed, 2)]
    case Go => if speed < 3 then names[speed] else "Unknown"
  }

  /** The two ports name speeds 0..2 alike and disagree on every larger value. */
  lemma SpeedNamePorts(speed: nat)
    ensures speed < 3 ==> SpeedName(Py, speed) == SpeedName(Go, speed)
    ensures speed >= 3 ==> SpeedName(Py, speed) == "Fast" && SpeedName(Go, speed) == "Unknown"
  {
  }

  datatype ChatMessage = ChatMessage(
    timestampMs: nat,
    playerId: u8,
    playerName: seq<u8>,
    message: seq<u8>,
    mode: nat,
    isStartup: bool)

  /** `mode_name` / `ModeName`. */
  function ModeName(mode: nat): string
  {
    if mode == 0 then "All"
    else if mode == 1 then "Allies"
    else if mode == 2 then "Observers"
    else "Player " + Decimal(mode - 2)
  }

  /** No two chat modes share a name. */
  lemma ModeNameInjective(a: nat, b: nat)
    ensures a != b ==> ModeName(a) != ModeName(b)
  {
    if a == b {
    } else if a >= 3 && b >= 3 {
      DecimalInjective(a - 2, b - 2);
      assert ModeName(a)[7..] == Decimal(a - 2) != Decimal(b - 2) == ModeName(b)[7..];
    } else if a >= 3 {
      assert ModeName(a)[0] == 'P' != ModeName(b)[0];
    } else if b >= 3 {
      assert ModeName(b)[0] == 'P' != ModeName(a)[0];
    }
  }

  /** A value in an action's `data` dictionary (floats are kept as their raw bytes). */
  datatype Field = Num(n: nat) | Raw(bytes: seq<u8>) | Nums(ns: seq<nat>)

  /** The keys an action's `data` dictionary uses; `KeyName` gives each one's spelling. */
  datatype FieldKey =
    | Speed | Filename | AbilityFlags | ItemId | TargetX | TargetY | ObjectId1 | ObjectId2
    | SelectMode | UnitCount | Group | ObjectIds | Flag | Slot | PlayerSlot | Flags | Gold | Lumber
    | Command | X | Y

  function KeyName(k: FieldKey): string
  {
    match k
    case Speed => "speed"
    case Filename => "filename"
    case AbilityFlags => "ability_flags"
    case ItemId => "item_id"
    case TargetX => "target_x"
    case TargetY => "target_y"
    case ObjectId1 => "object_id_1"
    case ObjectId2 => "object_id_2"
    case SelectMode => "select_mode"
    case UnitCount => "unit_count"
    case Group => "group"
    case ObjectIds => "object_ids"
    case Flag => "flag"
    case Slot => "slot"
    case PlayerSlot => "player_slot"
    case Flags => "flags"
    case Gold => "gold"
    case Lumber => "lumber"
    case Command => "command"
    case X => "x"
    case Y => "y"
  }

  /**
   * A decoded action. Its name is not stored: both implementations derive
   * it from the opcode alone, and the model does the same (`Actions.ActionName`).
   */
  datatype GameAction = GameAction(
    timestampMs: nat,
    playerId: u8,
    actionType: u8,
    payload: seq<u8>,
    fields: map<FieldKey, Field>)

  datatype Replay = Replay(
    header: ReplayHeader,
    gameName: seq<u8>,
    mapName: seq<u8>,
    mapPath: seq<u8>,
    hostName: seq<u8>,
    settings: GameSettings,
    players: seq<PlayerInfo>,
    chatMessages: seq<ChatMessage>,
    actions: seq<GameAction>,
    rawDecompressed: seq<u8>)

  // ---------------------------------------------------------------------
  // First-match searches

  /** Index of the first player with the given id. */
  function FirstWithId(players: seq<PlayerInfo>, id: u8): (k: Option<nat>)
    ensures k.Some? ==>
      k.value < |players| && players[k.value].id == id
      && forall j :: 0 <= j < k.value ==> players[j].id != id
    ensures k.None? ==> forall j :: 0 <= j < |players| ==> players[j].id != id
  {
    if players == [] then None
    else if players[0].id == id then Some(0)
    else match FirstWithId(players[1..], id)
      case None => None
      case Some(k) => Some(k + 1)
  }

  /** Index of the first player whose leave result is WON. */
  function FirstWinner(players: seq<PlayerInfo>): (k: Option<nat>)
    ensures k.Some? ==>
      k.value < |players| && players[k.value].leaveResult == Some(LeaveWon)
      && forall j :: 0 <= j < k.value ==> players[j].leaveResult != Some(LeaveWon)
    ensures k.None? ==> forall j :: 0 <= j < |players| ==> players[j].leaveResult != Some(LeaveWon)
  {
    if players == [] then None
    else if players[0].leaveResult == Some(LeaveWon) then Some(0)
    else match FirstWinner(players[1..])
      case None => None
      case Some(k) => Some(k + 1)
  }

  /** `get_player` / `GetPlayer`: the first player with that id, if any. */
  function GetPlayer(r: Replay, id: u8): (p: Option<PlayerInfo>)
    ensures p.None? <==> forall j :: 0 <= j < |r.players| ==> r.players[j].id != id
    ensures p.Some? ==>
      exists k :: 0 <= k < |r.players| && r.players[k] == p.value && p.value.id == id
        && forall j :: 0 <= j < k ==> r.players[j].id != id
  {
    match FirstWithId(r.players, id)
    case None => None
    case Some(k) => Some(r.players[k])
  }

  /** `winner` / `Winner`: the first player whose leave result is WON, if any. */
  function Winner(r: Replay): (p: Option<PlayerInfo>)
    ensures p.None? <==> forall j :: 0 <= j < |r.players| ==> r.players[j].leaveResult != Some(LeaveWon)
    ensures p.Some? ==>
      exists k :: 0 <= k < |r.players| && r.players[k] == p.value
        && p.value.leaveResult == Some(LeaveWon)
        && forall j :: 0 <= j < k ==> r.players[j].leaveResult != Some(LeaveWon)
  {
    match FirstWinner(r.players)
    case None => None
    case Some(k) => Some(r.players[k])
  }
}
