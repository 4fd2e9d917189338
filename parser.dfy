// The record walk over the decompressed game data (`_parse_game_data` in
// parser.py, `parseGameData` in parser.go): the prelude (host and
// additional player records, game name, encoded settings, the game start
// record and its slots), the tag-dispatched block loop with its clock,
// leave results, action counts and chat, and the APM pass.

module Parser {
  import opened Common
  import opened Models
  import Encoded
  import Players
  import Chat
  import Actions

  const BlockLeaveGame: u8 := 0x17
  const BlockFirstStart: u8 := 0x1A
  const BlockSecondStart: u8 := 0x1B
  const BlockThirdStart: u8 := 0x1C
  const BlockTimeSlotOld: u8 := 0x1E
  const BlockTimeSlot: u8 := 0x1F
  const BlockChat: u8 := 0x20
  const BlockChecksum: u8 := 0x22
  /** A length-prefixed block seen in some replays; it has no name in the constants. */
  const BlockUnnamed23: u8 := 0x23
  const BlockForcedEnd: u8 := 0x2F

  /** The tags the block loop has a branch for. */
  predicate KnownBlock(tag: u8)
  {
    tag == BlockLeaveGame || BlockFirstStart <= tag <= BlockThirdStart
    || tag == BlockTimeSlotOld || tag == BlockTimeSlot || tag == BlockChat
    || tag == BlockChecksum || tag == BlockUnnamed23 || tag == BlockForcedEnd
  }

  // ---------------------------------------------------------------------
  // One block

  /** The variables the block loop updates: cursor, game clock, players, chat messages and actions. */
  datatype WalkState = WalkState(
    pos: nat,
    clock: nat,
    players: seq<PlayerInfo>,
    chat: seq<ChatMessage>,
    actions: seq<GameAction>)

  /** The clock after a time slot: Python's integer grows without bound, Go's `uint32` wraps. */
  function Tick(port: Port, clock: nat, inc: nat): nat
  {
    match port
    case Py => clock + inc
    case Go => (clock + inc) % 0x1_0000_0000
  }

  /** The first player with the given id marked as having left with `code` at `time`. */
  function Left(players: seq<PlayerInfo>, id: u8, code: nat, time: nat): seq<PlayerInfo>
  {
    match FirstWithId(players, id)
    case None => players
    case Some(k) => players[k := players[k].(leaveResult := Some(code), leaveTimeMs := Some(time))]
  }

  /** A leave block whose tag sits just before `o`: reason, player id, result and an unknown word. */
  function LeaveStep(port: Port, data: seq<u8>, o: nat, s: WalkState): WalkState
  {
    if |data| < o + 13 then s.(pos := o)
    else s.(pos := o + 13, players := Left(s.players, data[o + 4], LeaveResultOf(port, LE32(data, o + 5)), s.clock))
  }

  /** The actions of a time slot, each stamped with the clock. */
  function Stamped(acts: seq<GameAction>, clock: nat): seq<GameAction>
  {
    seq(|acts|, i requires 0 <= i < |acts| => acts[i].(timestampMs := clock))
  }

  /** One action counted for the first player with its batch's player id. */
  function CountOne(players: seq<PlayerInfo>, id: u8): seq<PlayerInfo>
  {
    match FirstWithId(players, id)
    case None => players
    case Some(k) => players[k := players[k].(actionCount := players[k].actionCount + 1)]
  }

  /** The actions counted one after the other. */
  function Counted(players: seq<PlayerInfo>, acts: seq<GameAction>): seq<PlayerInfo>
    decreases |acts|
  {
    if acts == [] then players
    else CountOne(Counted(players, acts[..|acts| - 1]), acts[|acts| - 1].playerId)
  }

  /**
   * A time slot whose tag sits just before `o`: acted on only when the two
   * words are there; the clock moves on by the increment and, when the
   * length word exceeds 2, the command data is decoded and the cursor moves
   * past exactly `length - 2` bytes of it.
   */
  function TimeSlotStep(port: Port, version: nat, data: seq<u8>, o: nat, s: WalkState): WalkState
  {
    if |data| < o + 4 then s.(pos := o)
    else
      var numBytes := LE16(data, o);
      var clock := Tick(port, s.clock, LE16(data, o + 2));
      if numBytes <= 2 then s.(pos := o + 4, clock := clock)
      else
        var acts := Actions.CommandActions(port, data, o + 4, o + 4 + (numBytes - 2), version);
        WalkState(o + 4 + (numBytes - 2), clock, Counted(s.players, acts), s.chat, s.actions + Stamped(acts, clock))
  }

  /** A chat block whose tag sits just before `o`: the message, when there is one, stamped with the clock. */
  function ChatStep(port: Port, data: seq<u8>, o: nat, names: map<u8, seq<u8>>, s: WalkState): WalkState
  {
    var r := Chat.ChatAt(port, data, o, names);
    match r.0
    case None => s.(pos := r.1)
    case Some(m) => s.(pos := r.1, chat := s.chat + [m.(timestampMs := s.clock)])
  }

  /** A block made of a length byte and that many bytes; only the tag when the length byte is missing. */
  function LengthSkip(data: seq<u8>, o: nat): nat
  {
    if o < |data| then o + 1 + data[o] else o
  }

  /** One turn of the block loop, dispatched on the tag at the cursor. */
  function BlockStep(port: Port, version: nat, data: seq<u8>, names: map<u8, seq<u8>>, s: WalkState): (t: WalkState)
    requires s.pos < |data|
    ensures s.pos < t.pos
  {
    var tag := data[s.pos];
    var o := s.pos + 1;
    if tag == BlockLeaveGame then LeaveStep(port, data, o, s)
    else if BlockFirstStart <= tag <= BlockThirdStart then s.(pos := o + 4)
    else if tag == BlockTimeSlotOld || tag == BlockTimeSlot then TimeSlotStep(port, version, data, o, s)
    else if tag == BlockChat then ChatStep(port, data, o, names, s)
    else if tag == BlockChecksum || tag == BlockUnnamed23 then s.(pos := LengthSkip(data, o))
    else if tag == BlockForcedEnd then s.(pos := o + 8)
    else s.(pos := o)
  }

  /**
   * Python in strict mode leaves the loop at an unknown tag; in Go the
   * `break` there leaves only the `switch`, so the walk goes on either way.
   */
  predicate StopsAt(port: Port, strict: bool, tag: u8)
  {
    port == Py && strict && !KnownBlock(tag)
  }

  /** The block loop from state `s` to the end of the data or a strict stop. */
  function WalkFrom(port: Port, strict: bool, version: nat, data: seq<u8>, names: map<u8, seq<u8>>, s: WalkState)
    : WalkState
    decreases Actions.Dist(s.pos, |data|)
  {
    if |data| <= s.pos then s
    else
      var t := BlockStep(port, version, data, names, s);
      if StopsAt(port, strict, data[s.pos]) then t else WalkFrom(port, strict, version, data, names, t)
  }

  // ---------------------------------------------------------------------
  // The loop itself

  /** The `for player in players: if player.id == ...: break` search. */
  method FindFirst(players: seq<PlayerInfo>, id: u8) returns (k: Option<nat>)
    ensures k == FirstWithId(players, id)
  {
    var i := 0;
    while i < |players|
      invariant i <= |players|
      invariant forall j :: 0 <= j < i ==> players[j].id != id
    {
      if players[i].id == id {
        return Some(i);
      }
      i := i + 1;
    }
    return None;
  }

  method ReadLeave(port: Port, data: seq<u8>, o: nat, s: WalkState) returns (t: WalkState)
    ensures t == LeaveStep(port, data, o, s)
  {
    if o + 13 > |data| {
      return s.(pos := o);
    }
    var pos := o + 4;
    var leavePlayerId := data[pos];
    pos := pos + 1;
    var result := LE32(data, pos);
    pos := pos + 8;
    var players := s.players;
    var k := FindFirst(players, leavePlayerId);
    if k.Some? {
      var code := if port == Py then (if IsLeaveResult(result) then result else LeaveLeft) else result % 0x100;
      players := players[k.value := players[k.value].(leaveResult := Some(code), leaveTimeMs := Some(s.clock))];
    }
    t := s.(pos := pos, players := players);
  }

  lemma CountedSnoc(players: seq<PlayerInfo>, acts: seq<GameAction>, i: nat)
    requires i < |acts|
    ensures Counted(players, acts[..i + 1]) == CountOne(Counted(players, acts[..i]), acts[i].playerId)
  {
    assert acts[..i + 1][..i] == acts[..i];
  }

  lemma StampedSnoc(acts: seq<GameAction>, i: nat, clock: nat)
    requires i < |acts|
    ensures Stamped(acts[..i + 1], clock) == Stamped(acts[..i], clock) + [acts[i].(timestampMs := clock)]
  {
  }

  /** The inner search of the action loop, then the increment. */
  method CountFor(players: seq<PlayerInfo>, id: u8) returns (out: seq<PlayerInfo>)
    ensures out == CountOne(players, id)
  {
    out := players;
    var k := FindFirst(players, id);
    if k.Some? {
      out := players[k.value := players[k.value].(actionCount := players[k.value].actionCount + 1)];
    }
  }

  lemma RecordStep(actions0: seq<GameAction>, cmd: seq<GameAction>, i: nat, clock: nat)
    requires i < |cmd|
    ensures actions0 + Stamped(cmd[..i + 1], clock) == (actions0 + Stamped(cmd[..i], clock)) + [cmd[i].(timestampMs := clock)]
  {
    StampedSnoc(cmd, i, clock);
  }

  /** The loop over a time slot's decoded actions: stamp, append, count for the first player with the id. */
  method RecordActions(players0: seq<PlayerInfo>, actions0: seq<GameAction>, cmd: seq<GameAction>, clock: nat)
    returns (players: seq<PlayerInfo>, actions: seq<GameAction>)
    ensures players == Counted(players0, cmd)
    ensures actions == actions0 + Stamped(cmd, clock)
  {
    players := players0;
    actions := actions0;
    var i := 0;
    while i < |cmd|
      invariant i <= |cmd|
      invariant players == Counted(players0, cmd[..i])
      invariant actions == actions0 + Stamped(cmd[..i], clock)
    {
      CountedSnoc(players0, cmd, i);
      RecordStep(actions0, cmd, i, clock);
      actions := actions + [cmd[i].(timestampMs := clock)];
      players := CountFor(players, cmd[i].playerId);
      i := i + 1;
    }
    assert cmd[..|cmd|] == cmd;
  }

  method ReadTimeSlot(port: Port, version: nat, data: seq<u8>, o: nat, s: WalkState) returns (t: WalkState)
    ensures t == TimeSlotStep(port, version, data, o, s)
  {
    if o + 4 > |data| {
      return s.(pos := o);
    }
    var numBytes := LE16(data, o);
    var timeIncrement := LE16(data, o + 2);
    var pos := o + 4;
    var clock := Tick(port, s.clock, timeIncrement);
    if numBytes <= 2 {
      return s.(pos := pos, clock := clock);
    }
    var cmdLength := numBytes - 2;
    var cmd := Actions.ParseCommandData(port, data, pos, cmdLength, version);
    var players, actions := RecordActions(s.players, s.actions, cmd, clock);
    t := WalkState(pos + cmdLength, clock, players, s.chat, actions);
  }

  method ReadChat(port: Port, data: seq<u8>, o: nat, names: map<u8, seq<u8>>, s: WalkState) returns (t: WalkState)
    ensures t == ChatStep(port, data, o, names, s)
  {
    var msg, next := Chat.ParseChatMessage(port, data, o, names);
    t := s.(pos := next);
    if msg.Some? {
      t := t.(chat := s.chat + [msg.value.(timestampMs := s.clock)]);
    }
  }

  /** One turn of the loop: the tag, then its branch; `stop` when strict Python meets an unknown tag. */
  method ReadBlock(port: Port, strict: bool, version: nat, data: seq<u8>, names: map<u8, seq<u8>>, s: WalkState)
    returns (t: WalkState, stop: bool)
    requires s.pos < |data|
    ensures t == BlockStep(port, version, data, names, s)
    ensures stop == StopsAt(port, strict, data[s.pos])
  {
    var blockId := data[s.pos];
    var o := s.pos + 1;
    stop := false;
    if blockId == BlockLeaveGame {
      t := ReadLeave(port, data, o, s);
    } else if blockId == BlockFirstStart || blockId == BlockSecondStart || blockId == BlockThirdStart {
      t := s.(pos := o + 4);
    } else if blockId == BlockTimeSlot || blockId == BlockTimeSlotOld {
      t := ReadTimeSlot(port, version, data, o, s);
    } else if blockId == BlockChat {
      t := ReadChat(port, data, o, names, s);
    } else if blockId == BlockChecksum || blockId == BlockUnnamed23 {
      t := s.(pos := o);
      if o < |data| {
        var length := data[o];
        t := s.(pos := o + 1 + length);
      }
    } else if blockId == BlockForcedEnd {
      t := s.(pos := o + 8);
    } else {
      t := s.(pos := o);
      stop := port == Py && strict;
    }
  }

  /** The block loop: `while offset < len(data)`, one block per turn. */
  method WalkBlocks(port: Port, strict: bool, version: nat, data: seq<u8>, names: map<u8, seq<u8>>, s0: WalkState)
    returns (s: WalkState)
    ensures s == WalkFrom(port, strict, version, data, names, s0)
  {
    s := s0;
    while s.pos < |data|
      invariant WalkFrom(port, strict, version, data, names, s) == WalkFrom(port, strict, version, data, names, s0)
      decreases |data| - s.pos
    {
      var t, stop := ReadBlock(port, strict, version, data, names, s);
      s := t;
      if stop {
        break;
      }
    }
  }

  // ---------------------------------------------------------------------
  // What one block does

  /**
   * Start blocks skip their 4-byte word, forced end its 8 bytes, the
   * checksum and the 0x23 block a length byte and that many bytes (only the
   * tag when the length byte is missing), and an unknown tag only itself.
   */
  lemma SkipSizes(port: Port, version: nat, data: seq<u8>, names: map<u8, seq<u8>>, s: WalkState)
    requires s.pos < |data|
    ensures var t, tag, o := BlockStep(port, version, data, names, s), data[s.pos], s.pos + 1;
      (BlockFirstStart <= tag <= BlockThirdStart ==> t == s.(pos := o + 4))
      && (tag == BlockForcedEnd ==> t == s.(pos := o + 8))
      && (tag == BlockChecksum || tag == BlockUnnamed23 ==> t == s.(pos := if o < |data| then o + 1 + data[o] else o))
      && (!KnownBlock(tag) ==> t == s.(pos := o))
  {
  }

  /** Which branch a tag takes; the branches not named change nothing but the cursor. */
  lemma BlockShape(port: Port, version: nat, data: seq<u8>, names: map<u8, seq<u8>>, s: WalkState)
    requires s.pos < |data|
    ensures var t, tag, o := BlockStep(port, version, data, names, s), data[s.pos], s.pos + 1;
      (tag == BlockLeaveGame ==> t == LeaveStep(port, data, o, s))
      && (tag == BlockTimeSlotOld || tag == BlockTimeSlot ==> t == TimeSlotStep(port, version, data, o, s))
      && (tag == BlockChat ==> t == ChatStep(port, data, o, names, s))
      && (tag != BlockLeaveGame && tag != BlockTimeSlotOld && tag != BlockTimeSlot && tag != BlockChat ==>
            t == s.(pos := t.pos))
  {
  }

  /**
   * A leave block needs 13 bytes after its tag, otherwise only the tag is
   * consumed; it changes only the first player with the id it names, whose
   * leave result becomes the result word as the port converts it and whose
   * leave time becomes the clock.
   */
  lemma LeaveUpdatesFirst(port: Port, version: nat, data: seq<u8>, names: map<u8, seq<u8>>, s: WalkState)
    requires s.pos < |data| && data[s.pos] == BlockLeaveGame
    ensures var t, o := BlockStep(port, version, data, names, s), s.pos + 1;
      t.clock == s.clock && t.chat == s.chat && t.actions == s.actions && |t.players| == |s.players|
      && (|data| < o + 13 ==> t == s.(pos := o))
      && (o + 13 <= |data| ==>
            (t.pos == o + 13
             && forall k :: 0 <= k < |s.players| ==>
                  t.players[k] == if FirstWithId(s.players, data[o + 4]) == Some(k)
                                  then s.players[k].(leaveResult := Some(LeaveResultOf(port, LE32(data, o + 5))),
                                                     leaveTimeMs := Some(s.clock))
                                  else s.players[k]))
  {
    BlockShape(port, version, data, names, s);
  }

  /** What a time slot does, stated on its own step. */
  lemma TimeSlotFacts(port: Port, version: nat, data: seq<u8>, o: nat, s: WalkState)
    requires o + 4 <= |data|
    ensures var t, n := TimeSlotStep(port, version, data, o, s), LE16(data, o);
      var acts := if n > 2 then Actions.CommandActions(port, data, o + 4, o + 4 + (n - 2), version) else [];
      t.pos == o + 4 + (if n > 2 then n - 2 else 0)
      && t.clock == Tick(port, s.clock, LE16(data, o + 2))
      && t.chat == s.chat
      && t.actions == s.actions + Stamped(acts, t.clock)
  {
    var n := LE16(data, o);
    if n <= 2 {
      assert Stamped([], TimeSlotStep(port, version, data, o, s).clock) == [];
    }
  }

  /**
   * A time slot needs its two words after the tag, otherwise only the tag
   * is consumed. The clock moves on by the increment; when the length word
   * exceeds 2 the cursor skips exactly `length - 2` bytes, however many
   * actions they decode to, and those actions are appended in order, each
   * stamped with the new clock.
   */
  lemma TimeSlotSkips(port: Port, version: nat, data: seq<u8>, names: map<u8, seq<u8>>, s: WalkState)
    requires s.pos < |data| && (data[s.pos] == BlockTimeSlot || data[s.pos] == BlockTimeSlotOld)
    ensures var t, o := BlockStep(port, version, data, names, s), s.pos + 1;
      (|data| < o + 4 ==> t == s.(pos := o))
      && (o + 4 <= |data| ==>
            var n := LE16(data, o);
            var acts := if n > 2 then Actions.CommandActions(port, data, o + 4, o + 4 + (n - 2), version) else [];
            t.pos == o + 4 + (if n > 2 then n - 2 else 0)
            && t.clock == Tick(port, s.clock, LE16(data, o + 2))
            && t.chat == s.chat
            && t.actions == s.actions + Stamped(acts, t.clock))
  {
    BlockShape(port, version, data, names, s);
    if s.pos + 1 + 4 <= |data| {
      TimeSlotFacts(port, version, data, s.pos + 1, s);
    }
  }

  /**
   * A chat block appends one message, stamped with the clock, exactly when
   * four bytes follow the tag; nothing else changes but the cursor.
   */
  lemma ChatStamped(port: Port, version: nat, data: seq<u8>, names: map<u8, seq<u8>>, s: WalkState)
    requires s.pos < |data| && data[s.pos] == BlockChat
    ensures var t := BlockStep(port, version, data, names, s);
      t.clock == s.clock && t.players == s.players && t.actions == s.actions
      && t.chat[..|s.chat|] == s.chat
      && (if s.pos + 5 <= |data| then |t.chat| == |s.chat| + 1 && t.chat[|s.chat|].timestampMs == s.clock
          else t.chat == s.chat)
  {
  }

  // ---------------------------------------------------------------------
  // What the walk keeps

  /** `b` is `a` with at most the action counts and leave information changed. */
  predicate Steady(a: seq<PlayerInfo>, b: seq<PlayerInfo>)
  {
    |a| == |b|
    && forall k :: 0 <= k < |a| ==>
         b[k] == a[k].(actionCount := b[k].actionCount, leaveResult := b[k].leaveResult, leaveTimeMs := b[k].leaveTimeMs)
  }

  /** The first-match search depends only on the ids. */
  lemma FirstWithIdSameIds(a: seq<PlayerInfo>, b: seq<PlayerInfo>, id: u8)
    requires |a| == |b| && forall j :: 0 <= j < |a| ==> a[j].id == b[j].id
    ensures FirstWithId(a, id) == FirstWithId(b, id)
  {
  }

  /** How many of the actions count for player `k`: those whose id's first player is `k`. */
  function Matches(players: seq<PlayerInfo>, acts: seq<GameAction>, k: nat): nat
    decreases |acts|
  {
    if acts == [] then 0
    else
      Matches(players, acts[..|acts| - 1], k)
      + (if FirstWithId(players, acts[|acts| - 1].playerId) == Some(k) then 1 else 0)
  }

  lemma {:induction false} MatchesSameIds(a: seq<PlayerInfo>, b: seq<PlayerInfo>, acts: seq<GameAction>, k: nat)
    requires |a| == |b| && forall j :: 0 <= j < |a| ==> a[j].id == b[j].id
    ensures Matches(a, acts, k) == Matches(b, acts, k)
    decreases |acts|
  {
    if acts != [] {
      MatchesSameIds(a, b, acts[..|acts| - 1], k);
      FirstWithIdSameIds(a, b, acts[|acts| - 1].playerId);
    }
  }

  lemma {:induction false} MatchesAppend(players: seq<PlayerInfo>, a: seq<GameAction>, b: seq<GameAction>, k: nat)
    ensures Matches(players, a + b, k) == Matches(players, a, k) + Matches(players, b, k)
    decreases |b|
  {
    if b == [] {
      assert a + b == a;
    } else {
      MatchesAppend(players, a, b[..|b| - 1], k);
      assert (a + b)[..|a + b| - 1] == a + b[..|b| - 1];
    }
  }

  lemma {:induction false} MatchesStamped(players: seq<PlayerInfo>, acts: seq<GameAction>, clock: nat, k: nat)
    ensures Matches(players, Stamped(acts, clock), k) == Matches(players, acts, k)
    decreases |acts|
  {
    if acts != [] {
      MatchesStamped(players, acts[..|acts| - 1], clock, k);
      assert Stamped(acts, clock)[..|acts| - 1] == Stamped(acts[..|acts| - 1], clock);
    }
  }

  /** Counting a run of actions adds to each player exactly the actions that count for it. */
  lemma {:induction false} CountedCounts(players: seq<PlayerInfo>, acts: seq<GameAction>)
    ensures var r := Counted(players, acts);
      |r| == |players|
      && forall k :: 0 <= k < |players| ==>
           r[k] == players[k].(actionCount := players[k].actionCount + Matches(players, acts, k))
    decreases |acts|
  {
    if acts != [] {
      var init := acts[..|acts| - 1];
      CountedCounts(players, init);
      FirstWithIdSameIds(Counted(players, init), players, acts[|acts| - 1].playerId);
    }
  }

  /** Every player's action count is the number of recorded actions that count for it. */
  predicate CountsMatch(s: WalkState)
  {
    forall k :: 0 <= k < |s.players| ==> s.players[k].actionCount == Matches(s.players, s.actions, k)
  }

  /** Python stores only members of the `LeaveResult` enum. */
  predicate LeaveCodes(port: Port, players: seq<PlayerInfo>)
  {
    port == Py ==> forall k :: 0 <= k < |players| && players[k].leaveResult.Some? ==> IsLeaveResult(players[k].leaveResult.value)
  }

  lemma TimeSlotKeeps(port: Port, version: nat, data: seq<u8>, o: nat, s: WalkState)
    requires CountsMatch(s)
    ensures var t := TimeSlotStep(port, version, data, o, s);
      Steady(s.players, t.players) && CountsMatch(t) && (LeaveCodes(port, s.players) ==> LeaveCodes(port, t.players))
  {
    var t := TimeSlotStep(port, version, data, o, s);
    if o + 4 <= |data| && LE16(data, o) > 2 {
      var acts := Actions.CommandActions(port, data, o + 4, o + 4 + (LE16(data, o) - 2), version);
      var st := Stamped(acts, t.clock);
      CountedCounts(s.players, acts);
      forall k | 0 <= k < |t.players|
        ensures t.players[k].actionCount == Matches(t.players, t.actions, k)
      {
        MatchesSameIds(t.players, s.players, s.actions + st, k);
        MatchesAppend(s.players, s.actions, st, k);
        MatchesStamped(s.players, acts, t.clock, k);
      }
    }
  }

  lemma LeaveKeeps(port: Port, data: seq<u8>, o: nat, s: WalkState)
    requires CountsMatch(s)
    ensures var t := LeaveStep(port, data, o, s);
      Steady(s.players, t.players) && CountsMatch(t) && (LeaveCodes(port, s.players) ==> LeaveCodes(port, t.players))
  {
    var t := LeaveStep(port, data, o, s);
    forall k | 0 <= k < |t.players|
      ensures t.players[k].actionCount == Matches(t.players, t.actions, k)
    {
      MatchesSameIds(t.players, s.players, s.actions, k);
    }
  }

  /**
   * One block keeps the players (only counts and leave information change),
   * keeps every action count equal to the number of recorded actions that
   * count for its player, and keeps Python's leave results within the enum.
   */
  lemma StepKeeps(port: Port, version: nat, data: seq<u8>, names: map<u8, seq<u8>>, s: WalkState)
    requires s.pos < |data| && CountsMatch(s)
    ensures var t := BlockStep(port, version, data, names, s);
      Steady(s.players, t.players) && CountsMatch(t) && (LeaveCodes(port, s.players) ==> LeaveCodes(port, t.players))
  {
    var tag, o := data[s.pos], s.pos + 1;
    BlockShape(port, version, data, names, s);
    if tag == BlockLeaveGame {
      LeaveKeeps(port, data, o, s);
    } else if tag == BlockTimeSlotOld || tag == BlockTimeSlot {
      TimeSlotKeeps(port, version, data, o, s);
    }
  }

  lemma SteadyTrans(a: seq<PlayerInfo>, b: seq<PlayerInfo>, c: seq<PlayerInfo>)
    requires Steady(a, b) && Steady(b, c)
    ensures Steady(a, c)
  {
  }

  /** The walk keeps what every block keeps. */
  lemma {:induction false} WalkKeeps(port: Port, strict: bool, version: nat, data: seq<u8>, names: map<u8, seq<u8>>, s: WalkState)
    requires CountsMatch(s)
    ensures var t := WalkFrom(port, strict, version, data, names, s);
      Steady(s.players, t.players) && CountsMatch(t) && (LeaveCodes(port, s.players) ==> LeaveCodes(port, t.players))
    decreases Actions.Dist(s.pos, |data|)
  {
    if s.pos < |data| {
      var t := BlockStep(port, version, data, names, s);
      StepKeeps(port, version, data, names, s);
      if !StopsAt(port, strict, data[s.pos]) {
        WalkKeeps(port, strict, version, data, names, t);
        SteadyTrans(s.players, t.players, WalkFrom(port, strict, version, data, names, t).players);
      }
    }
  }

  // ---------------------------------------------------------------------
  // The clock and the timestamps

  /** Actions and chat messages are in clock order, and none is later than the clock. */
  predicate Ordered(s: WalkState)
  {
    (forall i, j :: 0 <= i < j < |s.actions| ==> s.actions[i].timestampMs <= s.actions[j].timestampMs)
    && (forall i :: 0 <= i < |s.actions| ==> s.actions[i].timestampMs <= s.clock)
    && (forall i, j :: 0 <= i < j < |s.chat| ==> s.chat[i].timestampMs <= s.chat[j].timestampMs)
    && (forall i :: 0 <= i < |s.chat| ==> s.chat[i].timestampMs <= s.clock)
  }

  /**
   * Go's clock cannot wrap before the end of the data: even if every byte
   * left were a time slot of the largest increment, the clock would stay
   * below 2^32. Python's clock never wraps.
   */
  predicate NoWrapAhead(port: Port, data: seq<u8>, s: WalkState)
  {
    port == Py || s.clock + Actions.Dist(s.pos, |data|) * 0xFFFF < 0x1_0000_0000
  }

  lemma OrderedAppend(s: WalkState, acts: seq<GameAction>, clock: nat)
    requires Ordered(s) && s.clock <= clock
    ensures Ordered(s.(clock := clock, actions := s.actions + Stamped(acts, clock)))
  {
  }

  lemma TimeSlotOrdered(port: Port, version: nat, data: seq<u8>, s: WalkState)
    requires s.pos < |data| && Ordered(s) && NoWrapAhead(port, data, s)
    ensures var t := TimeSlotStep(port, version, data, s.pos + 1, s);
      Ordered(t) && s.clock <= t.clock && NoWrapAhead(port, data, t)
  {
    var o := s.pos + 1;
    if o + 4 <= |data| {
      var inc := LE16(data, o + 2);
      assert port == Go ==> s.clock + inc < 0x1_0000_0000;
      var c := Tick(port, s.clock, inc);
      assert c == s.clock + inc;
      var n := LE16(data, o);
      if n > 2 {
        OrderedAppend(s, Actions.CommandActions(port, data, o + 4, o + 4 + (n - 2), version), c);
      }
    }
  }

  lemma ChatOrdered(port: Port, data: seq<u8>, names: map<u8, seq<u8>>, s: WalkState)
    requires s.pos < |data| && Ordered(s) && NoWrapAhead(port, data, s)
    ensures var t := ChatStep(port, data, s.pos + 1, names, s);
      Ordered(t) && s.clock <= t.clock && NoWrapAhead(port, data, t)
  {
  }

  /**
   * One block keeps actions and chat in clock order and never moves the
   * clock back, as long as Go's clock cannot wrap before the end of the data.
   */
  lemma StepOrdered(port: Port, version: nat, data: seq<u8>, names: map<u8, seq<u8>>, s: WalkState)
    requires s.pos < |data| && Ordered(s) && NoWrapAhead(port, data, s)
    ensures var t := BlockStep(port, version, data, names, s);
      Ordered(t) && s.clock <= t.clock && NoWrapAhead(port, data, t)
  {
    var tag := data[s.pos];
    BlockShape(port, version, data, names, s);
    if tag == BlockTimeSlotOld || tag == BlockTimeSlot {
      TimeSlotOrdered(port, version, data, s);
    } else if tag == BlockChat {
      ChatOrdered(port, data, names, s);
    }
  }

  /** The walk keeps actions and chat in clock order and never moves the clock back. */
  lemma {:induction false} WalkOrdered(port: Port, strict: bool, version: nat, data: seq<u8>, names: map<u8, seq<u8>>, s: WalkState)
    requires Ordered(s) && NoWrapAhead(port, data, s)
    ensures var t := WalkFrom(port, strict, version, data, names, s);
      Ordered(t) && s.clock <= t.clock
    decreases Actions.Dist(s.pos, |data|)
  {
    if s.pos < |data| {
      StepOrdered(port, version, data, names, s);
      if !StopsAt(port, strict, data[s.pos]) {
        WalkOrdered(port, strict, version, data, names, BlockStep(port, version, data, names, s));
      }
    }
  }

  /** Go's clock does wrap: a slot of increment 1 at clock 2^32 - 1 takes it back to 0. */
  lemma GoClockWraps()
    ensures Tick(Go, 0xFFFF_FFFF, 1) == 0 && Tick(Py, 0xFFFF_FFFF, 1) == 0x1_0000_0000
  {
  }

  // ---------------------------------------------------------------------
  // Where the walk ends

  /**
   * The walk reaches the end of the data, except in strict Python, which
   * stops just past the first unknown tag.
   */
  lemma {:induction false} WalkEnds(port: Port, strict: bool, version: nat, data: seq<u8>, names: map<u8, seq<u8>>, s: WalkState)
    ensures var t := WalkFrom(port, strict, version, data, names, s);
      |data| <= t.pos || (0 < t.pos <= |data| && StopsAt(port, strict, data[t.pos - 1]))
    decreases Actions.Dist(s.pos, |data|)
  {
    if s.pos < |data| {
      var t := BlockStep(port, version, data, names, s);
      if StopsAt(port, strict, data[s.pos]) {
        SkipSizes(port, version, data, names, s);
      } else {
        WalkEnds(port, strict, version, data, names, t);
      }
    }
  }

  // ---------------------------------------------------------------------
  // The prelude

  /** A player as the record readers and the slot pass create it: no actions, no APM, no leave information. */
  predicate Fresh(p: PlayerInfo)
  {
    p.actionCount == 0 && p.apm == 0.0 && p.leaveResult.None? && p.leaveTimeMs.None?
  }

  /** The id-to-name map chat lookups use: a later player with the same id overwrites an earlier one. */
  function NamesOf(players: seq<PlayerInfo>): map<u8, seq<u8>>
    decreases |players|
  {
    if players == [] then map[]
    else NamesOf(players[..|players| - 1])[players[|players| - 1].id := players[|players| - 1].name]
  }

  /** Each id maps to the name of the last player with that id, and only ids of players are mapped. */
  lemma {:induction false} NamesOfLast(players: seq<PlayerInfo>, id: u8)
    ensures (id in NamesOf(players)) == Players.LastWithId(players, id).Some?
    ensures id in NamesOf(players) ==> NamesOf(players)[id] == players[Players.LastWithId(players, id).value].name
    decreases |players|
  {
    if players != [] {
      NamesOfLast(players[..|players| - 1], id);
    }
  }

  /**
   * The host record: the host is kept when one is read; Python always
   * moves the cursor to where the record reader stopped, Go only when a
   * host was read.
   */
  function HostRecord(port: Port, data: seq<u8>, o: nat): (Option<PlayerInfo>, nat)
  {
    var rec := Players.PlayerRecord(port, data, o, true);
    (rec.0, if port == Py || rec.0.Some? then rec.1 else o)
  }

  /**
   * The ports agree on whether a host is read, and their cursors differ
   * exactly when the data ends one byte after a host tag: Python steps
   * over the tag, Go stays on it.
   */
  lemma HostCursorPorts(data: seq<u8>, o: nat)
    ensures HostRecord(Py, data, o).0.Some? == HostRecord(Go, data, o).0.Some?
    ensures HostRecord(Py, data, o).1 != HostRecord(Go, data, o).1
      <==> (o + 1 == |data| && data[o] == Players.RecordHost)
  {
    Players.PlayerRecordPorts(data, o, true);
  }

  /** The game name: the bytes up to the first null or the end of the data; the cursor one past that point. */
  function GameNameAt(data: seq<u8>, o: nat): (seq<u8>, nat)
  {
    var e := NullIndex(data, o);
    (Slice(data, o, e), e + 1)
  }

  /**
   * A game name that would start past the end of the data is empty, and the
   * cursor still steps one past where its null would be.
   */
  lemma GameNamePastEnd(data: seq<u8>, o: nat)
    requires |data| <= o
    ensures GameNameAt(data, o) == ([], o + 1)
  {
  }

  /** A null-free name followed by a null reads back whole, with the cursor just past the null. */
  lemma GameNameRoundTrip(pre: seq<u8>, name: seq<u8>, rest: seq<u8>)
    requires NoNull(name)
    ensures GameNameAt(pre + name + [0] + rest, |pre|) == (name, |pre| + |name| + 1)
  {
    var data := pre + name + [0] + rest;
    MiddleSlice(pre, name, [0] + rest);
    assert data == pre + name + ([0] + rest);
    NullAfterRun(data, |pre|, name);
  }

  /** One null byte skipped when there is one. */
  function SkipNull(data: seq<u8>, p: nat): nat
  {
    if p < |data| && data[p] == 0 then p + 1 else p
  }

  /** The encoded string and, when it is not empty, the settings, map path and map name it holds. */
  function EncodedAt(port: Port, data: seq<u8>, o: nat): (Encoded.EncodedSettings, nat)
  {
    var d := Encoded.DecodeString(data, o);
    (if d.bytes == [] then Encoded.EncodedSettings(DefaultSettings, [], []) else Encoded.SettingsOf(port, d.bytes), d.end)
  }

  /** Player count, game type and language id: three words skipped when all are there. */
  function SkipGameInfo(data: seq<u8>, p: nat): nat
  {
    if p + 12 <= |data| then p + 12 else p
  }

  /**
   * The additional player records from `o` on, appended to `players`,
   * read while the cursor is inside the data and a record is found; the
   * cursor stays at the first position that does not hold one.
   */
  function MorePlayers(port: Port, data: seq<u8>, o: nat, players: seq<PlayerInfo>): (r: (seq<PlayerInfo>, nat))
    ensures |players| <= |r.0| && r.0[..|players|] == players && o <= r.1
    ensures forall k :: |players| <= k < |r.0| ==> Fresh(r.0[k]) && !r.0[k].isHost
    decreases Actions.Dist(o, |data|)
  {
    if |data| <= o then (players, o)
    else
      var rec := Players.PlayerRecord(port, data, o, false);
      if rec.0.None? then (players, o)
      else
        var r := MorePlayers(port, data, rec.1, players + [rec.0.value]);
        assert r.0[..|players|] == (players + [rec.0.value])[..|players|];
        r
  }

  /** The first position at or after `p` where a valid game start record begins, if any. */
  function FirstValidFrom(data: seq<u8>, p: nat): (r: Option<nat>)
    ensures r.Some? ==>
      p <= r.value && Players.IsValidGameStartRecord(data, r.value)
      && forall q :: p <= q < r.value ==> !Players.IsValidGameStartRecord(data, q)
    ensures r.None? ==> forall q :: p <= q ==> !Players.IsValidGameStartRecord(data, q)
    decreases Actions.Dist(p, |data|)
  {
    if |data| < p + 4 then None
    else if Players.IsValidGameStartRecord(data, p) then Some(p)
    else FirstValidFrom(data, p + 1)
  }

  /**
   * The resync scan: a cursor inside the data that does not stand on a
   * valid game start record moves to the first valid one after it, and
   * stays put when there is none.
   */
  function Resync(data: seq<u8>, o: nat): nat
  {
    if o < |data| && !Players.IsValidGameStartRecord(data, o) then
      match FirstValidFrom(data, o)
      case None => o
      case Some(p) => p
    else o
  }

  /**
   * The cursor after the scan is the smallest position at or after it
   * holding a valid record; when no position does, it is unchanged.
   */
  lemma ResyncFindsFirst(data: seq<u8>, o: nat)
    ensures var r := Resync(data, o);
      o <= r
      && (forall q :: o <= q < r ==> !Players.IsValidGameStartRecord(data, q))
      && (Players.IsValidGameStartRecord(data, r) || (r == o && forall q :: o <= q ==> !Players.IsValidGameStartRecord(data, q)))
  {
  }

  /** The game start record, when its tag is at the cursor, with its slots applied to the players. */
  function GameStartAt(port: Port, version: nat, data: seq<u8>, p: nat, players: seq<PlayerInfo>): (seq<PlayerInfo>, nat)
  {
    if p < |data| && data[p] == Players.BlockGameStart then
      var g := Players.GameStartRecord(data, p, version);
      (Players.ApplySlots(port, players, |players|, g.slots, version), g.end)
    else (players, p)
  }

  /** What the prelude yields: the cursor where the blocks start, the players, the chat names and the game fields. */
  datatype Prelude = Prelude(
    pos: nat,
    players: seq<PlayerInfo>,
    names: map<u8, seq<u8>>,
    hostName: seq<u8>,
    gameName: seq<u8>,
    encoded: Encoded.EncodedSettings)

  /**
   * The head of the prelude: an unknown word skipped when it fits, the
   * host record, the game name and its separator, the encoded settings,
   * and three words of game information.
   */
  function HeadOf(port: Port, data: seq<u8>): Prelude
  {
    var host := HostRecord(port, data, if 4 <= |data| then 4 else 0);
    var players := if host.0.Some? then [host.0.value] else [];
    var game := GameNameAt(data, host.1);
    var enc := EncodedAt(port, data, SkipNull(data, game.1));
    Prelude(SkipGameInfo(data, enc.1), players, NamesOf(players), if host.0.Some? then host.0.value.name else [],
            game.0, enc.0)
  }

  /**
   * The whole prelude: the head, the additional player records, the resync
   * scan, and the game start record with its slots. The chat names are
   * those of the players read from records, before any computer is added.
   */
  function PreludeOf(port: Port, version: nat, data: seq<u8>): Prelude
  {
    var head := HeadOf(port, data);
    var more := MorePlayers(port, data, head.pos, head.players);
    var start := GameStartAt(port, version, data, Resync(data, more.1), more.0);
    head.(pos := start.1, players := start.0, names := NamesOf(more.0))
  }

  // ---------------------------------------------------------------------
  // The prelude's loops

  /** The additional-players loop, recording each player's name for chat as it goes. */
  method ReadMorePlayers(port: Port, data: seq<u8>, o: nat, players0: seq<PlayerInfo>, names0: map<u8, seq<u8>>)
    returns (players: seq<PlayerInfo>, names: map<u8, seq<u8>>, offset: nat)
    requires names0 == NamesOf(players0)
    ensures (players, offset) == MorePlayers(port, data, o, players0)
    ensures names == NamesOf(players)
  {
    players, names, offset := players0, names0, o;
    while offset < |data|
      invariant MorePlayers(port, data, offset, players) == MorePlayers(port, data, o, players0)
      invariant names == NamesOf(players)
      decreases |data| - offset
    {
      var player, newOffset := Players.ParsePlayerRecord(port, data, offset, false);
      if player.None? {
        break;
      }
      assert (players + [player.value])[..|players|] == players;
      players := players + [player.value];
      names := names[player.value.id := player.value.name];
      offset := newOffset;
    }
  }

  /** The resync scan as both ports write it: a search that stops short of the last four bytes, then a re-test. */
  method ResyncOffset(data: seq<u8>, o: nat) returns (offset: nat)
    ensures offset == Resync(data, o)
  {
    offset := o;
    if offset < |data| && !Players.IsValidGameStartRecord(data, offset) {
      var searchOffset := offset;
      while searchOffset < |data| - 4
        invariant o <= searchOffset
        invariant FirstValidFrom(data, searchOffset) == FirstValidFrom(data, o)
        decreases |data| - searchOffset
      {
        if data[searchOffset] == Players.BlockGameStart {
          if Players.IsValidGameStartRecord(data, searchOffset) {
            break;
          }
        }
        searchOffset := searchOffset + 1;
      }
      if searchOffset < |data| && Players.IsValidGameStartRecord(data, searchOffset) {
        offset := searchOffset;
      }
    }
  }

  /** The unknown word and the host record. */
  method ReadHost(port: Port, data: seq<u8>)
    returns (players: seq<PlayerInfo>, names: map<u8, seq<u8>>, hostName: seq<u8>, offset: nat)
    ensures var host := HostRecord(port, data, if 4 <= |data| then 4 else 0);
      players == (if host.0.Some? then [host.0.value] else [])
      && names == NamesOf(players)
      && hostName == (if host.0.Some? then host.0.value.name else [])
      && offset == host.1
  {
    offset := 0;
    if offset + 4 <= |data| {
      offset := offset + 4;
    }
    players, names, hostName := [], map[], [];
    var hostPlayer, newOffset := Players.ParsePlayerRecord(port, data, offset, true);
    if port == Py {
      offset := newOffset;
    }
    if hostPlayer.Some? {
      var host := hostPlayer.value.(isHost := true);
      players := players + [host];
      names := names[host.id := host.name];
      hostName := host.name;
      offset := newOffset;
      assert players[..0] == [];
    }
  }

  /** The game name and its separator. */
  method ReadGameName(data: seq<u8>, o: nat) returns (gameName: seq<u8>, offset: nat)
    ensures var game := GameNameAt(data, o);
      gameName == game.0 && offset == SkipNull(data, game.1)
  {
    offset := ScanToNull(data, o);
    gameName := Slice(data, o, offset);
    offset := offset + 1;
    if offset < |data| && data[offset] == 0 {
      offset := offset + 1;
    }
  }

  /** The encoded string and, when it is not empty, the settings it holds. */
  method ReadEncoded(port: Port, data: seq<u8>, o: nat) returns (encoded: Encoded.EncodedSettings, offset: nat)
    ensures (encoded, offset) == EncodedAt(port, data, o)
  {
    var encodedData;
    encodedData, offset := Encoded.DecodeEncodedString(data, o);
    encoded := Encoded.EncodedSettings(DefaultSettings, [], []);
    if |encodedData| > 0 {
      encoded := Encoded.ParseEncodedSettings(port, encodedData);
    }
  }

  /** The head of the prelude. */
  method ReadHead(port: Port, data: seq<u8>) returns (head: Prelude)
    ensures head == HeadOf(port, data)
  {
    var players, names, hostName, offset := ReadHost(port, data);
    var gameName, encoded;
    gameName, offset := ReadGameName(data, offset);
    encoded, offset := ReadEncoded(port, data, offset);
    if offset + 12 <= |data| {
      offset := offset + 12;
    }
    head := Prelude(offset, players, names, hostName, gameName, encoded);
  }

  /** The prelude of `_parse_game_data` / `parseGameData`, up to the first block. */
  method ParsePrelude(port: Port, version: nat, data: seq<u8>) returns (pre: Prelude)
    ensures pre == PreludeOf(port, version, data)
  {
    var head := ReadHead(port, data);
    var players, names, offset := ReadMorePlayers(port, data, head.pos, head.players, head.names);
    offset := ResyncOffset(data, offset);
    if offset < |data| && data[offset] == Players.BlockGameStart {
      var g := Players.ParseGameStartRecord(data, offset, version);
      offset := g.end;
      players := Players.ApplySlotInfoToPlayers(port, players, g.slots, version);
    }
    pre := head.(pos := offset, players := players, names := names);
  }

  // ---------------------------------------------------------------------
  // After the walk

  /**
   * Go's leave time is a pointer to the one clock variable, so once the
   * walk is over every recorded leave time reads as the final clock.
   */
  function AliasLeaveTimes(players: seq<PlayerInfo>, clock: nat): seq<PlayerInfo>
  {
    seq(|players|, k requires 0 <= k < |players| =>
      if players[k].leaveTimeMs.Some? then players[k].(leaveTimeMs := Some(clock)) else players[k])
  }

  /** Actions per minute of game time, for a game with a non-zero duration; APM stays as it was otherwise. */
  function WithApm(players: seq<PlayerInfo>, durationMs: nat): seq<PlayerInfo>
  {
    if durationMs == 0 then players
    else
      seq(|players|, k requires 0 <= k < |players| =>
        players[k].(apm := (players[k].actionCount as real) / (durationMs as real / 60000.0)))
  }

  /** The APM loop. */
  method ComputeApm(players: seq<PlayerInfo>, durationMs: nat) returns (out: seq<PlayerInfo>)
    ensures out == WithApm(players, durationMs)
  {
    out := players;
    var durationMinutes := durationMs as real / 60000.0;
    if durationMinutes > 0.0 {
      var i := 0;
      while i < |out|
        invariant i <= |out| == |players|
        invariant forall k :: 0 <= k < i ==> out[k] == WithApm(players, durationMs)[k]
        invariant forall k :: i <= k < |out| ==> out[k] == players[k]
      {
        out := out[i := out[i].(apm := (out[i].actionCount as real) / durationMinutes)];
        i := i + 1;
      }
    }
  }

  /** The walk as it starts after the prelude: clock 0, no chat, no actions. */
  function FirstState(pre: Prelude): WalkState
  {
    WalkState(pre.pos, 0, pre.players, [], [])
  }

  /**
   * `_parse_game_data` / `parseGameData`: the prelude, the block walk, Go's
   * aliased leave times, and APM from the header's duration.
   */
  function GameData(port: Port, strict: bool, header: ReplayHeader, data: seq<u8>): Replay
  {
    var pre := PreludeOf(port, header.version, data);
    var s := WalkFrom(port, strict, header.version, data, pre.names, FirstState(pre));
    Assemble(port, header, data, pre, s)
  }

  /** The replay built from the prelude and the state the walk ended in. */
  function Assemble(port: Port, header: ReplayHeader, data: seq<u8>, pre: Prelude, s: WalkState): Replay
  {
    var players := if port == Go then AliasLeaveTimes(s.players, s.clock) else s.players;
    Replay(header, pre.gameName, pre.encoded.mapName, pre.encoded.mapPath, pre.hostName, pre.encoded.settings,
           WithApm(players, header.durationMs), s.chat, s.actions, data)
  }

  method ParseGameData(port: Port, strict: bool, header: ReplayHeader, data: seq<u8>) returns (r: Replay)
    ensures r == GameData(port, strict, header, data)
  {
    var pre := ParsePrelude(port, header.version, data);
    var s := WalkBlocks(port, strict, header.version, data, pre.names, FirstState(pre));
    var players := s.players;
    if port == Go {
      players := AliasLeaveTimes(players, s.clock);
    }
    players := ComputeApm(players, header.durationMs);
    r := Replay(header, pre.gameName, pre.encoded.mapName, pre.encoded.mapPath, pre.hostName, pre.encoded.settings,
                players, s.chat, s.actions, data);
  }

  // ---------------------------------------------------------------------
  // What the whole walk promises

  predicate AllFresh(players: seq<PlayerInfo>)
  {
    forall k :: 0 <= k < |players| ==> Fresh(players[k])
  }

  lemma {:induction false} ApplySlotsFresh(port: Port, players: seq<PlayerInfo>, slots: seq<Players.SlotRecord>, version: nat)
    requires forall k :: 0 <= k < |players| ==> Fresh(players[k])
    ensures AllFresh(Players.ApplySlots(port, players, |players|, slots, version))
    decreases |slots|
  {
    if slots != [] {
      ApplySlotsFresh(port, players, slots[..|slots| - 1], version);
      var prev := Players.ApplySlots(port, players, |players|, slots[..|slots| - 1], version);
      ApplySlotFresh(port, prev, |players|, slots[|slots| - 1], Players.ObserverTeam(version));
    }
  }

  lemma ApplySlotFresh(port: Port, players: seq<PlayerInfo>, known: nat, slot: Players.SlotRecord, observerTeam: nat)
    requires known <= |players|
    requires AllFresh(players)
    ensures AllFresh(Players.ApplySlot(port, players, known, slot, observerTeam))
  {
  }

  lemma RecordFresh(port: Port, data: seq<u8>, o: nat, isHost: bool)
    ensures var rec := Players.PlayerRecord(port, data, o, isHost);
      rec.0.Some? ==> Fresh(rec.0.value)
  {
  }

  lemma GameStartFresh(port: Port, version: nat, data: seq<u8>, p: nat, players: seq<PlayerInfo>)
    requires forall k :: 0 <= k < |players| ==> Fresh(players[k])
    ensures var r := GameStartAt(port, version, data, p, players).0;
      forall k :: 0 <= k < |r| ==> Fresh(r[k])
  {
    if p < |data| && data[p] == Players.BlockGameStart {
      var g := Players.GameStartRecord(data, p, version);
      ApplySlotsFresh(port, players, g.slots, version);
      assert GameStartAt(port, version, data, p, players).0 == Players.ApplySlots(port, players, |players|, g.slots, version);
    }
  }

  lemma MorePlayersFresh(port: Port, data: seq<u8>, o: nat, players: seq<PlayerInfo>)
    requires forall k :: 0 <= k < |players| ==> Fresh(players[k])
    ensures var r := MorePlayers(port, data, o, players).0;
      forall k :: 0 <= k < |r| ==> Fresh(r[k])
  {
    var r := MorePlayers(port, data, o, players).0;
    forall k | 0 <= k < |r|
      ensures Fresh(r[k])
    {
      if k < |players| {
        assert r[k] == r[..|players|][k];
      }
    }
  }

  /** Every player the prelude yields is fresh: no actions, no APM, no leave information. */
  lemma PreludeFresh(port: Port, version: nat, data: seq<u8>)
    ensures var pre := PreludeOf(port, version, data);
      forall k :: 0 <= k < |pre.players| ==> Fresh(pre.players[k])
  {
    var head := HeadOf(port, data);
    RecordFresh(port, data, if 4 <= |data| then 4 else 0, true);
    var more := MorePlayers(port, data, head.pos, head.players);
    MorePlayersFresh(port, data, head.pos, head.players);
    GameStartFresh(port, version, data, Resync(data, more.1), more.0);
  }

  /** The state the walk starts from keeps counts and clock order, and Go's clock has room when the data is short. */
  lemma FirstStateFacts(port: Port, version: nat, data: seq<u8>)
    ensures var s := FirstState(PreludeOf(port, version, data));
      CountsMatch(s) && Ordered(s) && LeaveCodes(port, s.players)
      && (|data| <= 0x1_0000 ==> NoWrapAhead(port, data, s))
  {
    PreludeFresh(port, version, data);
  }

  /** Counts stay matched through the post-walk passes, which keep ids and counts. */
  lemma AssembleCounts(port: Port, header: ReplayHeader, data: seq<u8>, pre: Prelude, s: WalkState)
    requires CountsMatch(s)
    ensures var r := Assemble(port, header, data, pre, s);
      forall k :: 0 <= k < |r.players| ==> r.players[k].actionCount == Matches(r.players, r.actions, k)
  {
    var r := Assemble(port, header, data, pre, s);
    forall k | 0 <= k < |r.players|
      ensures r.players[k].actionCount == Matches(r.players, r.actions, k)
    {
      MatchesSameIds(r.players, s.players, s.actions, k);
    }
  }

  /**
   * Each player's action count is the number of recorded actions whose
   * batch player id has that player as its first match.
   */
  lemma GameDataCounts(port: Port, strict: bool, header: ReplayHeader, data: seq<u8>)
    ensures var r := GameData(port, strict, header, data);
      forall k :: 0 <= k < |r.players| ==> r.players[k].actionCount == Matches(r.players, r.actions, k)
  {
    var pre := PreludeOf(port, header.version, data);
    var s0 := FirstState(pre);
    FirstStateFacts(port, header.version, data);
    WalkKeeps(port, strict, header.version, data, pre.names, s0);
    AssembleCounts(port, header, data, pre, WalkFrom(port, strict, header.version, data, pre.names, s0));
  }

  /**
   * Actions and chat messages come out in clock order: always in Python,
   * and in Go whenever the data is at most 65,536 bytes long, too short for
   * its 32-bit clock to wrap.
   */
  lemma GameDataOrdered(port: Port, strict: bool, header: ReplayHeader, data: seq<u8>)
    requires port == Py || |data| <= 0x1_0000
    ensures var r := GameData(port, strict, header, data);
      (forall i, j :: 0 <= i < j < |r.actions| ==> r.actions[i].timestampMs <= r.actions[j].timestampMs)
      && (forall i, j :: 0 <= i < j < |r.chatMessages| ==> r.chatMessages[i].timestampMs <= r.chatMessages[j].timestampMs)
  {
    var pre := PreludeOf(port, header.version, data);
    FirstStateFacts(port, header.version, data);
    WalkOrdered(port, strict, header.version, data, pre.names, FirstState(pre));
  }

  lemma ApmRate(count: nat, durationMs: nat)
    requires durationMs > 0
    ensures (count as real) / (durationMs as real / 60000.0) * (durationMs as real) == (count * 60000) as real
  {
    var d := durationMs as real;
    var m := d / 60000.0;
    assert m * 60000.0 == d;
    assert (count as real) / m * m == count as real;
  }

  /**
   * Each player's APM is its action count per minute of the given duration,
   * or 0 when the duration is 0.
   */
  predicate ApmPerMinute(players: seq<PlayerInfo>, durationMs: nat)
  {
    forall k :: 0 <= k < |players| ==>
      if durationMs == 0 then players[k].apm == 0.0
      else players[k].apm * (durationMs as real) == (players[k].actionCount * 60000) as real
  }

  lemma AssembleApm(port: Port, header: ReplayHeader, data: seq<u8>, pre: Prelude, s: WalkState)
    requires forall k :: 0 <= k < |s.players| ==> s.players[k].apm == 0.0
    ensures var r := Assemble(port, header, data, pre, s);
      ApmPerMinute(r.players, header.durationMs)
  {
    var r := Assemble(port, header, data, pre, s);
    var players := if port == Go then AliasLeaveTimes(s.players, s.clock) else s.players;
    forall k | 0 <= k < |r.players|
      ensures if header.durationMs == 0 then r.players[k].apm == 0.0
              else r.players[k].apm * (header.durationMs as real) == (r.players[k].actionCount * 60000) as real
    {
      assert players[k].apm == 0.0;
      if header.durationMs != 0 {
        ApmRate(players[k].actionCount, header.durationMs);
      }
    }
  }

  /**
   * APM is the action count per minute of the header's duration when that
   * is not zero, and stays 0 otherwise.
   */
  lemma GameDataApm(port: Port, strict: bool, header: ReplayHeader, data: seq<u8>)
    ensures var r := GameData(port, strict, header, data);
      ApmPerMinute(r.players, header.durationMs)
  {
    var pre := PreludeOf(port, header.version, data);
    var s0 := FirstState(pre);
    FirstStateFacts(port, header.version, data);
    PreludeFresh(port, header.version, data);
    WalkKeeps(port, strict, header.version, data, pre.names, s0);
    var s := WalkFrom(port, strict, header.version, data, pre.names, s0);
    SteadyApm(s0.players, s.players);
    AssembleApm(port, header, data, pre, s);
    assert GameData(port, strict, header, data) == Assemble(port, header, data, pre, s);
  }

  /** Every player that has a leave time has `clock` as that time. */
  predicate LeaveTimesAre(players: seq<PlayerInfo>, clock: nat)
  {
    forall k :: 0 <= k < |players| && players[k].leaveTimeMs.Some? ==> players[k].leaveTimeMs == Some(clock)
  }

  /** Walk steadiness keeps APM. */
  lemma SteadyApm(a: seq<PlayerInfo>, b: seq<PlayerInfo>)
    requires Steady(a, b)
    ensures forall k :: 0 <= k < |b| ==> b[k].apm == a[k].apm
  {
    forall k | 0 <= k < |b|
      ensures b[k].apm == a[k].apm
    {
      assert b[k] == a[k].(actionCount := b[k].actionCount, leaveResult := b[k].leaveResult, leaveTimeMs := b[k].leaveTimeMs);
    }
  }

  lemma AssembleLeaves(port: Port, header: ReplayHeader, data: seq<u8>, pre: Prelude, s: WalkState)
    requires LeaveCodes(port, s.players)
    ensures var r := Assemble(port, header, data, pre, s);
      LeaveCodes(port, r.players) && (port == Go ==> LeaveTimesAre(r.players, s.clock))
  {
  }

  /**
   * Leave information after the walk: in Python every recorded result is a
   * member of the `LeaveResult` enum; in Go every recorded leave time is the
   * clock the walk ended on, whenever the player left.
   */
  lemma GameDataLeaves(port: Port, strict: bool, header: ReplayHeader, data: seq<u8>)
    ensures var r, pre := GameData(port, strict, header, data), PreludeOf(port, header.version, data);
      var s := WalkFrom(port, strict, header.version, data, pre.names, FirstState(pre));
      LeaveCodes(port, r.players) && (port == Go ==> LeaveTimesAre(r.players, s.clock))
  {
    var pre := PreludeOf(port, header.version, data);
    var s0 := FirstState(pre);
    FirstStateFacts(port, header.version, data);
    WalkKeeps(port, strict, header.version, data, pre.names, s0);
    AssembleLeaves(port, header, data, pre, WalkFrom(port, strict, header.version, data, pre.names, s0));
  }
}
