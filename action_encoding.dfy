// Writers for the action layouts the decoder reads (actions.py, actions.go),
// and the read-back lemmas: an action written with given field values is
// decoded to exactly those values, with the cursor just after it.

module ActionEncoding {
  import opened Common
  import opened Models
  import opened Actions

  /** All values fit in 32 bits. */
  predicate Dwords(ids: seq<nat>)
  {
    forall i :: 0 <= i < |ids| ==> ids[i] < 0x1_0000_0000
  }

  /** The unit list of 0x16 / 0x17: per unit its object id, then a second dword neither decoder reads. */
  function UnitBytes(ids: seq<nat>): (s: seq<u8>)
    requires Dwords(ids)
    ensures |s| == 8 * |ids|
  {
    if ids == [] then [] else Enc32(ids[0]) + Enc32(0) + UnitBytes(ids[1..])
  }

  /** A whole 0x16 / 0x17 action: opcode, select mode or group, unit count, units. */
  function SelectionBytes(op: u8, mode: u8, ids: seq<nat>): (s: seq<u8>)
    requires Dwords(ids) && |ids| < 0x1_0000
    ensures |s| == 4 + 8 * |ids|
  {
    [op, mode] + Enc16(|ids|) + UnitBytes(ids)
  }

  /** Go's id loop reads back every id of a written unit list. */
  lemma {:induction false} UnitIdsRead(pre: seq<u8>, ids: seq<nat>, rest: seq<u8>)
    requires Dwords(ids)
    ensures UnitIds(pre + UnitBytes(ids) + rest, |pre|, |ids|) == ids
    decreases |ids|
  {
    if ids != [] {
      var tail := UnitBytes(ids[1..]);
      var pre' := pre + Enc32(ids[0]) + Enc32(0);
      assert pre + UnitBytes(ids) + rest == pre + Enc32(ids[0]) + (Enc32(0) + tail + rest);
      assert pre + UnitBytes(ids) + rest == pre' + tail + rest;
      LE32Enc(pre, ids[0], Enc32(0) + tail + rest);
      UnitIdsRead(pre', ids[1..], rest);
      assert [ids[0]] + ids[1..] == ids;
    }
  }

  /**
   * A written 0x16 / 0x17 action reads back as written in both ports: the
   * mode or group, the unit count, and (Go only) the object ids; the cursor
   * lands just after the unit list, whatever follows it.
   */
  lemma SelectionRoundTrip(port: Port, op: u8, mode: u8, ids: seq<nat>, rest: seq<u8>, version: nat)
    requires IsSelection(op) && Dwords(ids) && |ids| < 0x1_0000
    ensures var a := SelectionBytes(op, mode, ids);
      var r := ActionAt(port, a + rest, 0, version);
      var key := if op == 0x16 then SelectMode else Group;
      r.1 == |a| && r.0.Some? && r.0.value.actionType == op && r.0.value.payload == a
      && key in r.0.value.fields && r.0.value.fields[key] == Num(mode)
      && UnitCount in r.0.value.fields && r.0.value.fields[UnitCount] == Num(|ids|)
      && (port == Go ==> ObjectIds in r.0.value.fields && r.0.value.fields[ObjectIds] == Nums(ids))
      && (port == Py ==> ObjectIds !in r.0.value.fields)
  {
    var a := SelectionBytes(op, mode, ids);
    var data := a + rest;
    assert data[0] == op;
    assert data == [op, mode] + Enc16(|ids|) + (UnitBytes(ids) + rest);
    LE16Enc([op, mode], |ids|, UnitBytes(ids) + rest);
    assert data == ([op, mode] + Enc16(|ids|)) + UnitBytes(ids) + rest;
    UnitIdsRead([op, mode] + Enc16(|ids|), ids, rest);
    SelectionRule(port, op, data, 1, version);
    ActionAtStep(port, data, 0, version, SelectionStep(port, op, data, 1));
    assert data[0..|a|] == a;
  }

  /** The ability flags as written: a word from version 13 on, a byte before. */
  function FlagsBytes(w: nat, flags: nat): (s: seq<u8>)
    requires (w == 1 && flags < 0x100) || (w == 2 && flags < 0x1_0000)
    ensures |s| == w
  {
    if w == 2 then Enc16(flags) else [flags]
  }

  /**
   * The body of an ability action after its flags and item id: the bytes
   * the decoder consumes, at the port's base size.
   */
  predicate AbilityBody(port: Port, op: u8, w: nat, body: seq<u8>)
  {
    |body| + w + 4 == AbilityBase(port, op, w)
  }

  /** A written ability action: opcode, flags, item id, then the rest of its body. */
  function AbilityBytes(op: u8, w: nat, flags: nat, item: seq<u8>, body: seq<u8>): (s: seq<u8>)
    requires (w == 1 && flags < 0x100) || (w == 2 && flags < 0x1_0000)
    ensures |s| == 1 + w + |item| + |body|
  {
    [op] + FlagsBytes(w, flags) + item + body
  }

  /** Where the pieces of a written ability action sit. */
  lemma AbilityLayout(op: u8, w: nat, flags: nat, item: seq<u8>, body: seq<u8>, rest: seq<u8>)
    requires (w == 1 && flags < 0x100) || (w == 2 && flags < 0x1_0000)
    requires |item| == 4
    ensures var data := AbilityBytes(op, w, flags, item, body) + rest;
      data[0] == op && FlagsAt(data, 1, w) == flags && data[1 + w..1 + w + 4] == item
      && data[1 + w + 4..1 + w + 4 + |body|] == body
  {
    var data := AbilityBytes(op, w, flags, item, body) + rest;
    if w == 2 {
      assert data == [op] + Enc16(flags) + (item + body + rest);
      LE16Enc([op], flags, item + body + rest);
    } else {
      assert data[1] == flags;
    }
    assert data == ([op] + FlagsBytes(w, flags)) + item + (body + rest);
    MiddleSlice([op] + FlagsBytes(w, flags), item, body + rest);
    assert data == ([op] + FlagsBytes(w, flags) + item) + body + rest;
    MiddleSlice([op] + FlagsBytes(w, flags) + item, body, rest);
  }

  /**
   * A written ability action (0x10 and 0x11 in both ports, 0x12 in Python)
   * reads back its flags and item id, with the cursor after the port's base
   * size, so long as the data holds the guard's extra bytes (two in Python's
   * 0x11 and 0x12).
   */
  lemma AbilityRoundTrip(port: Port, op: u8, version: nat, flags: nat, item: seq<u8>, body: seq<u8>, rest: seq<u8>)
    requires IsAbility(op) && !(port == Go && op == 0x12)
    requires var w := FlagsWidth(version); (w == 1 && flags < 0x100) || (w == 2 && flags < 0x1_0000)
    requires |item| == 4 && AbilityBody(port, op, FlagsWidth(version), body)
    requires port == Py && op != 0x10 ==> |rest| >= 2
    ensures var a := AbilityBytes(op, FlagsWidth(version), flags, item, body);
      var r := ActionAt(port, a + rest, 0, version);
      r.0.Some? && r.1 == |a| && r.0.value.payload == a
      && AbilityFlags in r.0.value.fields && r.0.value.fields[AbilityFlags] == Num(flags)
      && ItemId in r.0.value.fields && r.0.value.fields[ItemId] == Raw(item)
  {
    var w := FlagsWidth(version);
    var a := AbilityBytes(op, w, flags, item, body);
    var data := a + rest;
    AbilityLayout(op, w, flags, item, body, rest);
    AbilityRule(port, op, data, 1, version);
    AbilityStepSizes(port, op, data, 1, version);
    ActionAtStep(port, data, 0, version, AbilityStep(port, op, data, 1, version));
    assert data[0..|a|] == a;
  }

  /**
   * The target position of a written 0x11 or 0x12 reads back as its raw
   * bytes where the port reads it: after a four-byte gap in Python, after
   * eight in Go's 0x11. Python's 0x12 also reads back its two object ids as
   * raw bytes.
   */
  lemma TargetRoundTrip(port: Port, op: u8, version: nat, flags: nat, item: seq<u8>, body: seq<u8>, rest: seq<u8>)
    requires op == 0x11 || (op == 0x12 && port == Py)
    requires var w := FlagsWidth(version); (w == 1 && flags < 0x100) || (w == 2 && flags < 0x1_0000)
    requires |item| == 4 && AbilityBody(port, op, FlagsWidth(version), body)
    requires port == Py ==> |rest| >= 2
    ensures var a := AbilityBytes(op, FlagsWidth(version), flags, item, body);
      var f := ActionAt(port, a + rest, 0, version).0.value.fields;
      var t := if port == Py then 4 else 8;
      TargetX in f && f[TargetX] == Raw(body[t..t + 4]) && TargetY in f && f[TargetY] == Raw(body[t + 4..t + 8])
      && (op == 0x12 ==>
            ObjectId1 in f && f[ObjectId1] == Raw(body[12..16]) && ObjectId2 in f && f[ObjectId2] == Raw(body[16..20]))
  {
    var w := FlagsWidth(version);
    var data := AbilityBytes(op, w, flags, item, body) + rest;
    var b := 1 + w + 4;
    var t := if port == Py then 4 else 8;
    AbilityLayout(op, w, flags, item, body, rest);
    SliceOfSlice(data, b, b + |body|, t, t + 4);
    SliceOfSlice(data, b, b + |body|, t + 4, t + 8);
    if op == 0x12 {
      SliceOfSlice(data, b, b + |body|, 12, 16);
      SliceOfSlice(data, b, b + |body|, 16, 20);
    }
    AbilityRule(port, op, data, 1, version);
    ActionAtStep(port, data, 0, version, AbilityStep(port, op, data, 1, version));
  }

  /** A written 0x50 (ally options) or 0x51 (transfer resources) action. */
  function AllyBytes(op: u8, slot: u8, x: nat, y: nat): (s: seq<u8>)
    requires x < 0x1_0000_0000 && y < 0x1_0000_0000
  {
    if op == 0x50 then [op, slot] + Enc32(x) else [op, slot] + Enc32(x) + Enc32(y)
  }

  /**
   * Ally options and resource transfers read back exactly their written
   * fields in both ports: the slot and flags, or the slot, gold and lumber.
   */
  lemma AllyRoundTrip(port: Port, op: u8, slot: u8, x: nat, y: nat, rest: seq<u8>, version: nat)
    requires (op == 0x50 || op == 0x51) && x < 0x1_0000_0000 && y < 0x1_0000_0000
    ensures var a := AllyBytes(op, slot, x, y);
      var r := ActionAt(port, a + rest, 0, version);
      r.0.Some? && r.1 == |a| && r.0.value.payload == a
      && r.0.value.fields == if op == 0x50 then map[PlayerSlot := Num(slot), Flags := Num(x)]
                             else map[PlayerSlot := Num(slot), Gold := Num(x), Lumber := Num(y)]
  {
    var a := AllyBytes(op, slot, x, y);
    var data := a + rest;
    assert data[0] == op && data[1] == slot;
    if op == 0x50 {
      assert data == [op, slot] + Enc32(x) + rest;
      LE32Enc([op, slot], x, rest);
    } else {
      assert data == [op, slot] + Enc32(x) + (Enc32(y) + rest);
      LE32Enc([op, slot], x, Enc32(y) + rest);
      assert data == [op, slot] + Enc32(x) + Enc32(y) + rest;
      LE32Enc([op, slot] + Enc32(x), y, rest);
    }
    ActionAtStep(port, data, 0, version, GuardedStep(op, data, 1));
    assert data[0..|a|] == a;
  }

  /** A written 0x1B (sync selection) action: flag byte and two object ids. */
  function SyncBytes(flag: u8, id1: nat, id2: nat): (s: seq<u8>)
    requires id1 < 0x1_0000_0000 && id2 < 0x1_0000_0000
    ensures |s| == 10
  {
    [0x1B, flag] + Enc32(id1) + Enc32(id2)
  }

  /** A written 0x1B reads back its flag and object ids in Go, and nothing in Python; ten bytes either way. */
  lemma SyncRoundTrip(port: Port, flag: u8, id1: nat, id2: nat, rest: seq<u8>, version: nat)
    requires id1 < 0x1_0000_0000 && id2 < 0x1_0000_0000
    ensures var a := SyncBytes(flag, id1, id2);
      var r := ActionAt(port, a + rest, 0, version);
      r.0.Some? && r.1 == 10 && r.0.value.payload == a
      && r.0.value.fields == if port == Go then map[Flag := Num(flag), ObjectId1 := Num(id1), ObjectId2 := Num(id2)]
                             else map[]
  {
    var a := SyncBytes(flag, id1, id2);
    var data := a + rest;
    assert data[0] == 0x1B && data[1] == flag;
    assert data == [0x1B, flag] + Enc32(id1) + (Enc32(id2) + rest);
    LE32Enc([0x1B, flag], id1, Enc32(id2) + rest);
    assert data == [0x1B, flag] + Enc32(id1) + Enc32(id2) + rest;
    LE32Enc([0x1B, flag] + Enc32(id1), id2, rest);
    ActionAtStep(port, data, 0, version, StepFor(port, 0x1B, data, 1, version));
    assert data[0..10] == a;
  }

  /** A written 0x06 (save game) or 0x60 (trigger command, after eight skipped bytes) action. */
  function StringBytes(op: u8, skipped: seq<u8>, text: seq<u8>): seq<u8>
  {
    if op == 0x06 then [op] + text + [0] else [op] + skipped + text + [0]
  }

  /** A written save-game or trigger-command action reads back its text, with the cursor past its null. */
  lemma StringRoundTrip(port: Port, op: u8, skipped: seq<u8>, text: seq<u8>, rest: seq<u8>, version: nat)
    requires (op == 0x06 || op == 0x60) && |skipped| == 8 && NoNull(text)
    ensures var a := StringBytes(op, skipped, text);
      var r := ActionAt(port, a + rest, 0, version);
      var key := if op == 0x06 then Filename else Command;
      r.0.Some? && r.1 == |a| && r.0.value.payload == a
      && r.0.value.fields == map[key := Raw(text)]
  {
    var a := StringBytes(op, skipped, text);
    var data := a + rest;
    var start := if op == 0x06 then 1 else 9;
    assert data[0] == op;
    assert data[start..start + |text|] == text;
    assert data[start + |text|] == 0;
    NullAfterRun(data, start, text);
    StringRule(port, op, data, 1, version);
    ActionAtStep(port, data, 0, version, StringStep(op, data, 1));
    assert data[0..|a|] == a;
  }
}
