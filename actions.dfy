// The action decoder (actions.py, actions.go): one action per opcode, with
// fixed, version-dependent, guarded or count- and null-delimited sizes, and
// the CommandData framing that groups actions into per-player batches.

module Actions {
  import opened Common
  import opened Models

  const ActionPause: u8 := 0x01
  const ActionResume: u8 := 0x02
  const ActionSetSpeed: u8 := 0x03
  const ActionIncSpeed: u8 := 0x04
  const ActionDecSpeed: u8 := 0x05
  const ActionSaveGame: u8 := 0x06
  const ActionSaveFinished: u8 := 0x07
  const ActionAbilityNoParams: u8 := 0x10
  const ActionAbilityTargetPos: u8 := 0x11
  const ActionAbilityPosObject: u8 := 0x12
  const ActionAbilityDropItem: u8 := 0x13
  const ActionAbilityTwoPos: u8 := 0x14
  const ActionChangeSelection: u8 := 0x16
  const ActionAssignGroup: u8 := 0x17
  const ActionSelectGroup: u8 := 0x18
  const ActionSelectSubgroup: u8 := 0x19
  const ActionPreSubselection: u8 := 0x1A
  const ActionSyncSelection: u8 := 0x1B
  const ActionSelectGroundItem: u8 := 0x1C
  const ActionCancelHeroRevival: u8 := 0x1D
  const ActionRemoveFromQueue: u8 := 0x1E
  const ActionAllyOptions: u8 := 0x50
  const ActionTransferResources: u8 := 0x51
  const ActionTriggerCommand: u8 := 0x60
  const ActionEscPressed: u8 := 0x61
  const ActionScenarioTrigger: u8 := 0x62
  const ActionHeroSkillMenu: u8 := 0x66
  const ActionBuildingMenu: u8 := 0x67
  const ActionMinimapSignal: u8 := 0x68
  const ActionContinueGameB: u8 := 0x69
  const ActionContinueGameA: u8 := 0x6A
  const ActionUnknown75: u8 := 0x75

  /** `ACTION_NAMES` / `ActionNames`; the two tables differ only in the name of 0x1B. */
  function ActionNameOf(port: Port, op: u8): Option<string>
  {
    if op == 0x01 then Some("pause")
    else if op == 0x02 then Some("resume")
    else if op == 0x03 then Some("set_speed")
    else if op == 0x04 then Some("increase_speed")
    else if op == 0x05 then Some("decrease_speed")
    else if op == 0x06 then Some("save_game")
    else if op == 0x07 then Some("save_finished")
    else if op == 0x10 then Some("ability")
    else if op == 0x11 then Some("ability_position")
    else if op == 0x12 then Some("ability_object")
    else if op == 0x13 then Some("drop_item")
    else if op == 0x14 then Some("ability_two_positions")
    else if op == 0x16 then Some("select_units")
    else if op == 0x17 then Some("assign_group")
    else if op == 0x18 then Some("select_group")
    else if op == 0x19 then Some("select_subgroup")
    else if op == 0x1A then Some("pre_subselection")
    else if op == 0x1B then Some(if port == Py then "unknown_1b" else "sync_selection")
    else if op == 0x1C then Some("select_item")
    else if op == 0x1D then Some("cancel_revival")
    else if op == 0x1E then Some("remove_from_queue")
    else if op == 0x50 then Some("ally_options")
    else if op == 0x51 then Some("transfer_resources")
    else if op == 0x60 then Some("trigger_command")
    else if op == 0x61 then Some("escape")
    else if op == 0x62 then Some("scenario_trigger")
    else if op == 0x66 then Some("hero_skill_menu")
    else if op == 0x67 then Some("building_menu")
    else if op == 0x68 then Some("minimap_ping")
    else if op == 0x69 then Some("continue_game_b")
    else if op == 0x6A then Some("continue_game_a")
    else if op == 0x75 then Some("unknown_75")
    else None
  }

  /** `CHEAT_ACTIONS`: single-player cheat opcodes. */
  predicate IsCheat(op: u8)
  {
    0x20 <= op <= 0x32
  }

  /** Opcodes the decoder knows how to size: the named ones and the cheats. */
  predicate Recognised(op: u8)
  {
    Named(op) || IsCheat(op)
  }

  /** The opcodes the name tables hold. */
  predicate Named(op: u8)
  {
    0x01 <= op <= 0x07 || 0x10 <= op <= 0x14 || 0x16 <= op <= 0x1E || op == 0x50 || op == 0x51
    || 0x60 <= op <= 0x62 || 0x66 <= op <= 0x6A || op == 0x75
  }

  /** Both tables name the same opcodes, and no named opcode is a cheat. */
  lemma NameTablesAgree(op: u8)
    ensures ActionNameOf(Py, op).Some? <==> Named(op)
    ensures ActionNameOf(Go, op).Some? <==> Named(op)
    ensures Named(op) ==> !IsCheat(op)
    ensures op != ActionSyncSelection ==> ActionNameOf(Py, op) == ActionNameOf(Go, op)
  {
  }

  /** The name an action with opcode `op` is reported under. */
  function ActionName(port: Port, op: u8): string
    requires Recognised(op)
  {
    NameTablesAgree(op);
    if IsCheat(op) then "cheat" else ActionNameOf(port, op).value
  }

  /** Width of the ability flags: a word from version 13 on, a byte before. */
  function FlagsWidth(version: nat): (w: nat)
    ensures w == 1 || w == 2
  {
    if version >= 13 then 2 else 1
  }

  /** The little-endian ability flags of the given width at `i`. */
  function FlagsAt(data: seq<u8>, i: nat, w: nat): nat
    requires w == 1 || w == 2
    requires i + w <= |data|
  {
    if w == 2 then LE16(data, i) else data[i]
  }

  /** Where reading goes on after an action's opcode, and the fields read on the way. */
  datatype Step = Step(next: nat, fields: map<FieldKey, Field>)

  // ---------------------------------------------------------------------
  // Per-family rules; `o` is the position just past the opcode.

  /**
   * Opcodes whose size depends on nothing but the opcode and the version:
   * they skip their bytes whether or not those bytes exist. The two ports
   * differ by one byte for 0x13 and 0x14.
   */
  function FixedSkip(port: Port, op: u8, version: nat): nat
  {
    if op == 0x07 then 4
    else if op == 0x13 then (if port == Py then 35 else 36) + (if version >= 13 then 1 else 0)
    else if op == 0x14 then (if port == Py then 40 else 41) + (if version >= 13 then 1 else 0)
    else if op == 0x19 then (if version >= 14 then 12 else 1)
    else if op == 0x1B || op == 0x1C then 9
    else if op == 0x1D then 8
    else if op == 0x62 then 12
    else if op == 0x69 || op == 0x6A then 16
    else if op == 0x75 then 1
    else 0
  }

  predicate IsFixed(op: u8)
  {
    op == 0x01 || op == 0x02 || op == 0x04 || op == 0x05 || op == 0x07 || op == 0x13 || op == 0x14
    || 0x19 <= op <= 0x1D || op == 0x61 || op == 0x62 || op == 0x66 || op == 0x67 || op == 0x69 || op == 0x6A || op == 0x75
  }

  /** Go reads the two object ids of 0x1B when its nine bytes are there; Python reads nothing. */
  function SyncFields(port: Port, data: seq<u8>, o: nat): map<FieldKey, Field>
  {
    if port == Go && o + 9 <= |data| then
      map[Flag := Num(data[o]), ObjectId1 := Num(LE32(data, o + 1)), ObjectId2 := Num(LE32(data, o + 5))]
    else map[]
  }

  /**
   * Opcodes whose fields are read only when all of them fit, with nothing
   * but the opcode consumed otherwise.
   */
  function GuardedNeed(op: u8): nat
  {
    if op == 0x03 then 1
    else if op == 0x18 then 2
    else if op == 0x1E || op == 0x50 then 5
    else if op == 0x51 then 9
    else if op == 0x68 then 12
    else 0
  }

  predicate IsGuarded(op: u8)
  {
    op == 0x03 || op == 0x18 || op == 0x1E || op == 0x50 || op == 0x51 || op == 0x68
  }

  function GuardedFields(op: u8, data: seq<u8>, o: nat): map<FieldKey, Field>
    requires IsGuarded(op) && o + GuardedNeed(op) <= |data|
  {
    if op == 0x03 then map[Speed := Num(data[o])]
    else if op == 0x18 then map[Group := Num(data[o])]
    else if op == 0x1E then map[Slot := Num(data[o]), ItemId := Raw(data[o + 1..o + 5])]
    else if op == 0x50 then map[PlayerSlot := Num(data[o]), Flags := Num(LE32(data, o + 1))]
    else if op == 0x51 then
      map[PlayerSlot := Num(data[o]), Gold := Num(LE32(data, o + 1)), Lumber := Num(LE32(data, o + 5))]
    else map[X := Raw(data[o..o + 4]), Y := Raw(data[o + 4..o + 8])]
  }

  function GuardedStep(op: u8, data: seq<u8>, o: nat): Step
    requires IsGuarded(op)
  {
    if o + GuardedNeed(op) <= |data| then Step(o + GuardedNeed(op), GuardedFields(op, data, o))
    else Step(o, map[])
  }

  /**
   * The ability opcodes 0x10..0x12: how many bytes after the opcode the
   * guard asks for, and how many are consumed when it passes (Go's 0x12
   * reads its object ids one by one on top of this).
   */
  function AbilityGuard(port: Port, op: u8, w: nat): nat
  {
    if op == 0x10 then w + 11
    else if op == 0x11 then (if port == Py then w + 18 else w + 19)
    else (if port == Py then w + 26 else w + 23)
  }

  function AbilityBase(port: Port, op: u8, w: nat): nat
  {
    if op == 0x10 then w + 11
    else if op == 0x11 then (if port == Py then w + 16 else w + 20)
    else (if port == Py then w + 24 else w + 20)
  }

  predicate IsAbility(op: u8)
  {
    0x10 <= op <= 0x12
  }

  /** The target position, kept as its two raw 32-bit floats, when its eight bytes are there. */
  function TargetFields(data: seq<u8>, p: nat): map<FieldKey, Field>
  {
    if p + 8 <= |data| then map[TargetX := Raw(data[p..p + 4]), TargetY := Raw(data[p + 4..p + 8])]
    else map[]
  }

  /** Go's 0x12 object ids: each read, and the cursor moved, only when its four bytes are there. */
  function GoObjectIds(data: seq<u8>, p: nat): Step
  {
    if p + 4 <= |data| then
      if p + 8 <= |data| then
        Step(p + 8, map[ObjectId1 := Num(LE32(data, p)), ObjectId2 := Num(LE32(data, p + 4))])
      else Step(p + 4, map[ObjectId1 := Num(LE32(data, p))])
    else Step(p, map[])
  }

  function AbilityStep(port: Port, op: u8, data: seq<u8>, o: nat, version: nat): Step
    requires IsAbility(op)
  {
    var w := FlagsWidth(version);
    if o + AbilityGuard(port, op, w) <= |data| then
      var base := map[AbilityFlags := Num(FlagsAt(data, o, w)), ItemId := Raw(data[o + w..o + w + 4])];
      var end := o + AbilityBase(port, op, w);
      if op == 0x10 then Step(end, base)
      else if port == Py then
        var target := TargetFields(data, o + w + 8);
        if op == 0x11 then Step(end, base + target)
        else Step(end, base + target + map[ObjectId1 := Raw(data[o + w + 16..o + w + 20]),
                                           ObjectId2 := Raw(data[o + w + 20..o + w + 24])])
      else
        var target := TargetFields(data, o + w + 12);
        if op == 0x11 then Step(end, base + target)
        else
          var ids := GoObjectIds(data, end);
          Step(ids.next, base + target + ids.fields)
    else Step(o, map[])
  }

  /**
   * Go's unit list for 0x16 / 0x17: up to `count` object ids, eight bytes
   * apart, read only while eight bytes are left.
   */
  function UnitIds(data: seq<u8>, p: nat, count: nat): (ids: seq<nat>)
    ensures |ids| <= count
    ensures p <= |data| ==> p + 8 * |ids| <= |data|
    decreases count
  {
    if count == 0 || |data| < p + 8 then [] else [LE32(data, p)] + UnitIds(data, p + 8, count - 1)
  }

  predicate IsSelection(op: u8)
  {
    op == 0x16 || op == 0x17
  }

  /**
   * 0x16 / 0x17 when the mode or group byte and the unit count fit: Python
   * skips eight bytes per unit without looking at them; Go reads the ids
   * while they fit.
   */
  function SelectionStep(port: Port, op: u8, data: seq<u8>, o: nat): Step
    requires IsSelection(op)
  {
    if o + 3 <= |data| then
      var count := LE16(data, o + 1);
      var fields := map[(if op == 0x16 then SelectMode else Group) := Num(data[o]), UnitCount := Num(count)];
      if port == Py then Step(o + 3 + 8 * count, fields)
      else
        var ids := UnitIds(data, o + 3, count);
        Step(o + 3 + 8 * |ids|, fields[ObjectIds := Nums(ids)])
    else Step(o, map[])
  }

  /** 0x06 and 0x60: a null-terminated string (0x60 after eight skipped bytes), cursor past its null. */
  function StringStep(op: u8, data: seq<u8>, o: nat): Step
  {
    var start := if op == 0x06 then o else o + 8;
    var e := NullIndex(data, start);
    Step(e + 1, map[(if op == 0x06 then Filename else Command) := Raw(Slice(data, start, e))])
  }

  /** Cheats: Python skips up to five bytes, as many as are left; Go skips five only when they are all there. */
  function CheatStep(port: Port, data: seq<u8>, o: nat): Step
    requires o <= |data|
  {
    if port == Py then Step(o + Min(5, |data| - o), map[])
    else if o + 5 <= |data| then Step(o + 5, map[])
    else Step(o, map[])
  }

  /** The rule for a recognised opcode. */
  function StepFor(port: Port, op: u8, data: seq<u8>, o: nat, version: nat): Step
    requires Recognised(op) && o <= |data|
  {
    if IsFixed(op) then Step(o + FixedSkip(port, op, version), if op == 0x1B then SyncFields(port, data, o) else map[])
    else if IsGuarded(op) then GuardedStep(op, data, o)
    else if IsAbility(op) then AbilityStep(port, op, data, o, version)
    else if IsSelection(op) then SelectionStep(port, op, data, o)
    else if op == 0x06 || op == 0x60 then StringStep(op, data, o)
    else CheatStep(port, data, o)
  }

  /** Every recognised opcode falls under exactly one family. */
  lemma FamiliesCover(op: u8)
    requires Recognised(op)
    ensures IsFixed(op) || IsGuarded(op) || IsAbility(op) || IsSelection(op) || op == 0x06 || op == 0x60 || IsCheat(op)
    ensures IsCheat(op) ==> !(IsFixed(op) || IsGuarded(op) || IsAbility(op) || IsSelection(op) || op == 0x06 || op == 0x60)
  {
  }

  /** The rule never moves the cursor back. */
  lemma StepAdvances(port: Port, op: u8, data: seq<u8>, o: nat, version: nat)
    requires Recognised(op) && o <= |data|
    ensures o <= StepFor(port, op, data, o, version).next
  {
    if IsSelection(op) && port == Go && o + 3 <= |data| {
      var ids := UnitIds(data, o + 3, LE16(data, o + 1));
    }
  }

  /**
   * `parse_action` / `parseAction` as a function: nothing at the end of the
   * data (cursor unchanged); nothing for an opcode the decoder does not know
   * (cursor past it); otherwise the action with its opcode, name, fields and
   * payload, and the cursor after it. The cursor may pass the end of the
   * data, since several opcodes skip their bytes unconditionally; the
   * payload is the slice from the opcode to the cursor, cut at the end of
   * the data.
   */
  function ActionAt(port: Port, data: seq<u8>, offset: nat, version: nat): (r: (Option<GameAction>, nat))
    ensures r.0.None? <==> |data| <= offset || !Recognised(data[offset])
    ensures r.0.None? ==> r.1 == (if |data| <= offset then offset else offset + 1)
    ensures r.0.Some? ==> (offset + 1 <= r.1
                           && r.0.value.actionType == data[offset]
                           && r.0.value.payload == data[offset..Min(r.1, |data|)]
                           && r.0.value.timestampMs == 0 && r.0.value.playerId == 0)
  {
    if |data| <= offset then (None, offset)
    else if !Recognised(data[offset]) then (None, offset + 1)
    else
      var op := data[offset];
      var s := StepFor(port, op, data, offset + 1, version);
      StepAdvances(port, op, data, offset + 1, version);
      (Some(GameAction(0, 0, op, Slice(data, offset, s.next), s.fields)), s.next)
  }

  // ---------------------------------------------------------------------
  // The layout table

  /**
   * Total size of each opcode whose size is fixed, opcode included, as
   * a table independent of the decoder's family rules.
   */
  function FixedTotal(port: Port, op: u8, version: nat): Option<nat>
  {
    var v13 := if version >= 13 then 1 else 0;
    match op
    case 0x01 => Some(1) case 0x02 => Some(1) case 0x04 => Some(1) case 0x05 => Some(1)
    case 0x1A => Some(1) case 0x61 => Some(1) case 0x66 => Some(1) case 0x67 => Some(1)
    case 0x07 => Some(5)
    case 0x13 => Some(if port == Py then 36 + v13 else 37 + v13)
    case 0x14 => Some(if port == Py then 41 + v13 else 42 + v13)
    case 0x19 => Some(if version >= 14 then 13 else 2)
    case 0x1B => Some(10) case 0x1C => Some(10)
    case 0x1D => Some(9)
    case 0x62 => Some(13)
    case 0x69 => Some(17) case 0x6A => Some(17)
    case 0x75 => Some(2)
    case _ => None
  }

  /** Fixed-size opcodes advance by their table size, whether or not the data holds that many bytes. */
  lemma FixedSizes(port: Port, data: seq<u8>, offset: nat, version: nat)
    requires offset < |data| && FixedTotal(port, data[offset], version).Some?
    ensures ActionAt(port, data, offset, version).1 == offset + FixedTotal(port, data[offset], version).value
  {
  }

  /** Guarded opcodes consume their fields only when all of them fit, otherwise only the opcode. */
  lemma GuardedSizes(port: Port, data: seq<u8>, offset: nat, version: nat)
    requires offset < |data| && IsGuarded(data[offset])
    ensures var need := GuardedNeed(data[offset]);
      ActionAt(port, data, offset, version).1 == if offset + 1 + need <= |data| then offset + 1 + need else offset + 1
    ensures ActionAt(port, data, offset, version).1 <= |data|
  {
  }

  /** The ability opcodes follow the ability rule. */
  lemma AbilityRule(port: Port, op: u8, data: seq<u8>, o: nat, version: nat)
    requires IsAbility(op) && o <= |data|
    ensures StepFor(port, op, data, o, version) == AbilityStep(port, op, data, o, version)
  {
  }

  /**
   * The ability rule, with `w` the flags width: the opcode alone when the
   * guard fails; otherwise the flags and item id are read and the base size
   * consumed, which only Go's 0x11 can take past the end of the data (by one
   * byte); Go's 0x12 adds four bytes per object id that fits.
   */
  lemma AbilityStepSizes(port: Port, op: u8, data: seq<u8>, o: nat, version: nat)
    requires IsAbility(op) && o <= |data|
    ensures var w, s := FlagsWidth(version), AbilityStep(port, op, data, o, version);
      (o + AbilityGuard(port, op, w) > |data| ==> s == Step(o, map[]))
      && (o + AbilityGuard(port, op, w) <= |data| && !(port == Go && op == 0x12) ==> s.next == o + AbilityBase(port, op, w))
      && (o + AbilityGuard(port, op, w) <= |data| && port == Go && op == 0x12 ==>
            o + w + 20 <= s.next <= o + w + 28 && s.next <= |data|)
      && (o + AbilityGuard(port, op, w) <= |data| ==>
            AbilityFlags in s.fields && s.fields[AbilityFlags] == Num(FlagsAt(data, o, w))
            && ItemId in s.fields && s.fields[ItemId] == Raw(data[o + w..o + w + 4]))
      && (!(port == Go && op == 0x11) ==> s.next <= |data|)
  {
  }

  /** The ability sizes as the decoder reports them. */
  lemma AbilitySizes(port: Port, data: seq<u8>, offset: nat, version: nat)
    requires offset < |data| && IsAbility(data[offset])
    ensures var op, w, r := data[offset], FlagsWidth(version), ActionAt(port, data, offset, version);
      var o := offset + 1;
      (o + AbilityGuard(port, op, w) > |data| ==> r.1 == o)
      && (o + AbilityGuard(port, op, w) <= |data| && !(port == Go && op == 0x12) ==> r.1 == o + AbilityBase(port, op, w))
      && (o + AbilityGuard(port, op, w) <= |data| && port == Go && op == 0x12 ==>
            o + w + 20 <= r.1 <= o + w + 28 && r.1 <= |data|)
      && (o + AbilityGuard(port, op, w) <= |data| ==>
            AbilityFlags in r.0.value.fields && r.0.value.fields[AbilityFlags] == Num(FlagsAt(data, o, w)))
      && (!(port == Go && op == 0x11) ==> r.1 <= |data|)
  {
    var op := data[offset];
    AbilityRule(port, op, data, offset + 1, version);
    AbilityStepSizes(port, op, data, offset + 1, version);
    ActionAtStep(port, data, offset, version, AbilityStep(port, op, data, offset + 1, version));
  }

  /**
   * Go's 0x11 whose guard is met with no byte to spare: the cursor ends one
   * byte past the end of the data.
   */
  lemma GoPositionOvershoot(data: seq<u8>, offset: nat, version: nat)
    requires offset < |data| && data[offset] == 0x11
    requires |data| == offset + 1 + FlagsWidth(version) + 19
    ensures ActionAt(Go, data, offset, version).1 == |data| + 1
  {
    AbilitySizes(Go, data, offset, version);
  }

  /**
   * 0x16 / 0x17: Python advances eight bytes per declared unit without
   * reading them; Go reads at most the declared number of ids and never
   * passes the end of the data.
   */
  lemma SelectionSizes(port: Port, data: seq<u8>, offset: nat, version: nat)
    requires offset < |data| && IsSelection(data[offset])
    ensures var r, o := ActionAt(port, data, offset, version), offset + 1;
      (o + 3 > |data| ==> r.1 == o)
      && (o + 3 <= |data| && port == Py ==> r.1 == o + 3 + 8 * LE16(data, o + 1))
      && (o + 3 <= |data| && port == Go ==>
            r.1 <= |data| && r.0.value.fields[ObjectIds].Nums?
            && |r.0.value.fields[ObjectIds].ns| <= LE16(data, o + 1)
            && r.1 == o + 3 + 8 * |r.0.value.fields[ObjectIds].ns|)
  {
  }

  /** Cheats never take the cursor past the end of the data, in either port. */
  lemma CheatsStayInside(port: Port, data: seq<u8>, offset: nat, version: nat)
    requires offset < |data| && IsCheat(data[offset])
    ensures var r := ActionAt(port, data, offset, version);
      ActionName(port, r.0.value.actionType) == "cheat" && r.1 <= |data|
      && (offset + 6 <= |data| ==> r.1 == offset + 6)
      && (port == Go && offset + 6 > |data| ==> r.1 == offset + 1)
  {
  }

  /** The string rule: the cursor one past the first null from the string's start, the field the run before it. */
  lemma StringStepFacts(op: u8, data: seq<u8>, o: nat)
    ensures var start := if op == 0x06 then o else o + 8;
      var key := if op == 0x06 then Filename else Command;
      var s := StringStep(op, data, o);
      s.next == NullIndex(data, start) + 1 && key in s.fields && s.fields[key].Raw?
      && NoNull(s.fields[key].bytes)
  {
    var start := if op == 0x06 then o else o + 8;
    var e := NullIndex(data, start);
    var t := Slice(data, start, e);
    if start < |data| && start <= e {
      assert forall i :: 0 <= i < |t| ==> t[i] == data[start + i];
    }
  }

  /** A recognised action is its opcode's rule applied after the opcode. */
  lemma ActionAtStep(port: Port, data: seq<u8>, offset: nat, version: nat, s: Step)
    requires offset < |data| && Recognised(data[offset])
    requires s == StepFor(port, data[offset], data, offset + 1, version)
    ensures ActionAt(port, data, offset, version) == (Some(GameAction(0, 0, data[offset], Slice(data, offset, s.next), s.fields)), s.next)
  {
  }

  /** The unit-list opcodes follow the selection rule. */
  lemma SelectionRule(port: Port, op: u8, data: seq<u8>, o: nat, version: nat)
    requires IsSelection(op) && o <= |data|
    ensures StepFor(port, op, data, o, version) == SelectionStep(port, op, data, o)
  {
  }

  /** The string opcodes follow the string rule. */
  lemma StringRule(port: Port, op: u8, data: seq<u8>, o: nat, version: nat)
    requires (op == 0x06 || op == 0x60) && o <= |data|
    ensures StepFor(port, op, data, o, version) == StringStep(op, data, o)
  {
  }

  /** 0x06 and 0x60 read a null-terminated string and step one past the null. */
  lemma StringActions(port: Port, data: seq<u8>, offset: nat, version: nat)
    requires offset < |data| && (data[offset] == 0x06 || data[offset] == 0x60)
    ensures var op, r := data[offset], ActionAt(port, data, offset, version);
      var start := if op == 0x06 then offset + 1 else offset + 9;
      var key := if op == 0x06 then Filename else Command;
      r.1 == NullIndex(data, start) + 1
      && key in r.0.value.fields && r.0.value.fields[key].Raw? && NoNull(r.0.value.fields[key].bytes)
  {
    var op := data[offset];
    StringRule(port, op, data, offset + 1, version);
    ActionAtStep(port, data, offset, version, StringStep(op, data, offset + 1));
    StringStepFacts(op, data, offset + 1);
  }

  /**
   * The ports decode every opcode alike except the ability family from
   * 0x11 on, the unit lists, 0x1B (name and fields) and the cheats.
   */
  lemma ActionPorts(data: seq<u8>, offset: nat, version: nat)
    requires offset < |data|
    requires !(data[offset] in {0x11, 0x12, 0x13, 0x14, 0x16, 0x17, 0x1B}) && !IsCheat(data[offset])
    ensures ActionAt(Py, data, offset, version) == ActionAt(Go, data, offset, version)
  {
    NameTablesAgree(data[offset]);
  }

  // ---------------------------------------------------------------------
  // The imperative decoder

  /** Go's unit-id loop for 0x16 / 0x17. */
  method ReadUnitIds(data: seq<u8>, p: nat, count: nat) returns (ids: seq<nat>, next: nat)
    ensures ids == UnitIds(data, p, count) && next == p + 8 * |ids|
  {
    ids := [];
    next := p;
    var i := 0;
    while i < count
      invariant i <= count && next == p + 8 * |ids|
      invariant ids + UnitIds(data, next, count - i) == UnitIds(data, p, count)
    {
      if next + 8 <= |data| {
        var id := LE32(data, next);
        assert [id] + UnitIds(data, next + 8, count - i - 1) == UnitIds(data, next, count - i);
        assert ids + [id] + UnitIds(data, next + 8, count - i - 1) == ids + ([id] + UnitIds(data, next + 8, count - i - 1));
        ids := ids + [id];
        next := next + 8;
      } else {
        break;
      }
      i := i + 1;
    }
  }

  /** The selection branches of `parse_action` / `parseAction`. */
  method ParseSelection(port: Port, op: u8, data: seq<u8>, o: nat) returns (s: Step)
    requires IsSelection(op)
    ensures s == SelectionStep(port, op, data, o)
  {
    if o + 3 > |data| {
      return Step(o, map[]);
    }
    var key := if op == 0x16 then SelectMode else Group;
    var fields := map[key := Num(data[o])];
    var count := LE16(data, o + 1);
    fields := fields[UnitCount := Num(count)];
    if port == Py {
      return Step(o + 3 + 8 * count, fields);
    }
    var ids, next := ReadUnitIds(data, o + 3, count);
    s := Step(next, fields[ObjectIds := Nums(ids)]);
  }

  /** The string branches of `parse_action` / `parseAction`: the null-scan loop. */
  method ParseString(op: u8, data: seq<u8>, o: nat) returns (s: Step)
    ensures s == StringStep(op, data, o)
  {
    var start := if op == 0x06 then o else o + 8;
    var e := ScanToNull(data, start);
    var key := if op == 0x06 then Filename else Command;
    s := Step(e + 1, map[key := Raw(Slice(data, start, e))]);
  }

  /** `parse_action` / `parseAction`. */
  method ParseAction(port: Port, data: seq<u8>, offset: nat, version: nat) returns (action: Option<GameAction>, next: nat)
    ensures (action, next) == ActionAt(port, data, offset, version)
  {
    if offset >= |data| {
      return None, offset;
    }
    var op := data[offset];
    if !Recognised(op) {
      return None, offset + 1;
    }
    var s;
    if IsSelection(op) {
      s := ParseSelection(port, op, data, offset + 1);
      SelectionRule(port, op, data, offset + 1, version);
    } else if op == 0x06 || op == 0x60 {
      s := ParseString(op, data, offset + 1);
      StringRule(port, op, data, offset + 1, version);
    } else {
      s := StepFor(port, op, data, offset + 1, version);
    }
    ActionAtStep(port, data, offset, version, s);
    action := Some(GameAction(0, 0, op, Slice(data, offset, s.next), s.fields));
    next := s.next;
  }

  // ---------------------------------------------------------------------
  // CommandData batches

  /** How far `from` is before `to`; zero once it is not. */
  function Dist(from: nat, to: nat): nat
  {
    if from < to then to - from else 0
  }

  /**
   * `parse_command_data` / `parseCommandData`: batches of player id, length
   * word and actions, read while the cursor is before `end` and three bytes
   * remain; each batch's actions are followed by those of the batches after
   * it, which start exactly `3 + length` bytes after it did.
   */
  function CommandActions(port: Port, data: seq<u8>, offset: nat, end: nat, version: nat): seq<GameAction>
    decreases Dist(offset, end), 0
  {
    if end <= offset || |data| < offset + 3 then []
    else BatchActions(port, data, offset + 3, offset + 3 + LE16(data, offset + 1), end, version, data[offset])
  }

  /**
   * The actions of the batch of player `pid` from `offset`, decoded while the
   * cursor is before `actionEnd` (the first action that does not decode
   * abandons the rest of the batch), then those of the batches from
   * `actionEnd` on.
   */
  function BatchActions(port: Port, data: seq<u8>, offset: nat, actionEnd: nat, end: nat, version: nat, pid: u8)
    : seq<GameAction>
    decreases Dist(actionEnd, end), Dist(offset, actionEnd) + 1
  {
    if actionEnd <= offset then CommandActions(port, data, actionEnd, end, version)
    else
      var r := ActionAt(port, data, offset, version);
      if r.0.None? then CommandActions(port, data, actionEnd, end, version)
      else [r.0.value.(playerId := pid)] + BatchActions(port, data, r.1, actionEnd, end, version, pid)
  }

  /** The player ids of the batches from `offset` on, in order. */
  function BatchIds(data: seq<u8>, offset: nat, end: nat): (ids: seq<u8>)
    decreases Dist(offset, end)
  {
    if end <= offset || |data| < offset + 3 then []
    else [data[offset]] + BatchIds(data, offset + 3 + LE16(data, offset + 1), end)
  }

  /** Every action is stamped with the player id of the batch it came from. */
  lemma {:induction false} CommandCarriesIds(port: Port, data: seq<u8>, offset: nat, end: nat, version: nat)
    ensures forall a :: a in CommandActions(port, data, offset, end, version) ==> a.playerId in BatchIds(data, offset, end)
    decreases Dist(offset, end), 0
  {
    if offset < end && offset + 3 <= |data| {
      BatchCarriesIds(port, data, offset + 3, offset + 3 + LE16(data, offset + 1), end, version, data[offset]);
    }
  }

  /** Inside a batch: its own player's id, or that of a later batch. */
  lemma {:induction false} BatchCarriesIds(port: Port, data: seq<u8>, offset: nat, actionEnd: nat, end: nat, version: nat, pid: u8)
    ensures forall a :: a in BatchActions(port, data, offset, actionEnd, end, version, pid) ==>
      a.playerId == pid || a.playerId in BatchIds(data, actionEnd, end)
    decreases Dist(actionEnd, end), Dist(offset, actionEnd) + 1
  {
    if actionEnd <= offset || ActionAt(port, data, offset, version).0.None? {
      CommandCarriesIds(port, data, actionEnd, end, version);
    } else {
      BatchCarriesIds(port, data, ActionAt(port, data, offset, version).1, actionEnd, end, version, pid);
    }
  }

  /** A batch whose first action does not decode, or that is used up, gives way to the next batch. */
  lemma BatchDone(port: Port, data: seq<u8>, offset: nat, actionEnd: nat, end: nat, version: nat, pid: u8)
    requires actionEnd <= offset || ActionAt(port, data, offset, version).0.None?
    ensures BatchActions(port, data, offset, actionEnd, end, version, pid) == CommandActions(port, data, actionEnd, end, version)
  {
  }

  /** One turn of the batch loop. */
  lemma BatchStep(port: Port, data: seq<u8>, offset: nat, actionEnd: nat, end: nat, version: nat, pid: u8,
                  a: GameAction, next: nat)
    requires offset < actionEnd && ActionAt(port, data, offset, version) == (Some(a), next)
    ensures BatchActions(port, data, offset, actionEnd, end, version, pid)
      == [a.(playerId := pid)] + BatchActions(port, data, next, actionEnd, end, version, pid)
  {
  }

  /** One turn of the command-data loop: its batch starts three bytes on. */
  lemma CommandStep(port: Port, data: seq<u8>, offset: nat, end: nat, version: nat)
    requires offset < end && offset + 3 <= |data|
    ensures CommandActions(port, data, offset, end, version)
      == BatchActions(port, data, offset + 3, offset + 3 + LE16(data, offset + 1), end, version, data[offset])
  {
  }

  /** The command-data loop stops when the cursor reaches the end or fewer than three bytes are left. */
  lemma CommandDone(port: Port, data: seq<u8>, offset: nat, end: nat, version: nat)
    requires end <= offset || |data| < offset + 3
    ensures CommandActions(port, data, offset, end, version) == []
  {
  }

  /** One batch's loop; what follows the batch is left to the caller. */
  method ParseBatch(port: Port, data: seq<u8>, offset: nat, actionEnd: nat, ghost end: nat, version: nat, pid: u8)
    returns (actions: seq<GameAction>)
    ensures actions + CommandActions(port, data, actionEnd, end, version)
      == BatchActions(port, data, offset, actionEnd, end, version, pid)
  {
    actions := [];
    var pos := offset;
    while pos < actionEnd
      invariant actions + BatchActions(port, data, pos, actionEnd, end, version, pid)
        == BatchActions(port, data, offset, actionEnd, end, version, pid)
      decreases actionEnd - pos
    {
      var action, next := ParseAction(port, data, pos, version);
      if action.None? {
        break;
      }
      BatchStep(port, data, pos, actionEnd, end, version, pid, action.value, next);
      AppendStep(actions, [action.value.(playerId := pid)], BatchActions(port, data, next, actionEnd, end, version, pid),
                 BatchActions(port, data, pos, actionEnd, end, version, pid));
      actions := actions + [action.value.(playerId := pid)];
      pos := next;
    }
    BatchDone(port, data, pos, actionEnd, end, version, pid);
  }

  /** One turn of the command-data loop: a batch's header and actions; the cursor moves `3 + length` bytes on. */
  method ParseNextBatch(port: Port, data: seq<u8>, pos: nat, ghost end: nat, version: nat)
    returns (batch: seq<GameAction>, next: nat)
    requires pos < end && pos + 3 <= |data|
    ensures pos + 3 <= next
    ensures batch + CommandActions(port, data, next, end, version) == CommandActions(port, data, pos, end, version)
  {
    var pid := data[pos];
    next := pos + 3 + LE16(data, pos + 1);
    batch := ParseBatch(port, data, pos + 3, next, end, version, pid);
    CommandStep(port, data, pos, end, version);
  }

  /** `parse_command_data` / `parseCommandData`. */
  method ParseCommandData(port: Port, data: seq<u8>, offset: nat, length: nat, version: nat)
    returns (actions: seq<GameAction>)
    ensures actions == CommandActions(port, data, offset, offset + length, version)
  {
    var end := offset + length;
    actions := [];
    var pos := offset;
    while pos < end && pos + 3 <= |data|
      invariant actions + CommandActions(port, data, pos, end, version) == CommandActions(port, data, offset, end, version)
      decreases end - pos
    {
      var batch, next := ParseNextBatch(port, data, pos, end, version);
      AppendStep(actions, batch, CommandActions(port, data, next, end, version), CommandActions(port, data, pos, end, version));
      actions := actions + batch;
      pos := next;
    }
    CommandDone(port, data, pos, end, version);
    AppendDone(actions, CommandActions(port, data, pos, end, version), CommandActions(port, data, offset, end, version));
  }

  // ---------------------------------------------------------------------
  // Go's payload slice

  /** Go's `data[startOffset:offset]` stays within the data only when the cursor has not passed its end. */
  predicate GoPayloadInBounds(data: seq<u8>, offset: nat, next: nat)
  {
    offset <= next <= |data|
  }

  /**
   * A 0x60 within eight bytes of the end: its string would start past the
   * end, so the command is empty and the cursor lands ten bytes after the opcode.
   */
  lemma CommandPastEnd(port: Port, data: seq<u8>, offset: nat, version: nat)
    requires offset < |data| && data[offset] == 0x60 && |data| <= offset + 9
    ensures var r := ActionAt(port, data, offset, version);
      r.1 == offset + 10 && r.0.value.fields[Command] == Raw([])
  {
    StringActions(port, data, offset, version);
    StringRule(port, 0x60, data, offset + 1, version);
    ActionAtStep(port, data, offset, version, StringStep(0x60, data, offset + 1));
  }

  /**
   * A lone 0x13 at the end of the data: the unconditional skip takes the
   * cursor 37 bytes past the end, so Go's payload slice reaches beyond the
   * data, where Python's slice is cut at the end.
   */
  lemma GoPayloadPastEnd()
    ensures var r := ActionAt(Go, [0x13], 0, 13);
      r.1 == 38 && !GoPayloadInBounds([0x13], 0, r.1) && r.0.value.payload == [0x13]
  {
    assert FixedTotal(Go, 0x13, 13) == Some(38);
    FixedSizes(Go, [0x13], 0, 13);
  }
}
