// Chat message blocks (chat.py, chat.go): sender, flags, optional chat
// mode and the null-terminated text, plus the sender's display name.

module Chat {
  import opened Common
  import opened Models

  const ChatFlagStartup: u8 := 0x10
  const ChatFlagNormal: u8 := 0x20

  /**
   * The name shown for a sender: the name the id map holds, else
   * "Player <id>". Go also falls back when the map holds an empty name,
   * since its map lookup cannot tell a missing key from an empty value.
   */
  function SenderName(port: Port, names: map<u8, seq<u8>>, id: u8): (n: seq<u8>)
    ensures id in names && (port == Py || names[id] != []) ==> n == names[id]
    ensures !(id in names) ==> n == Numbered("Player ", id)
    ensures port == Go ==> n != []
  {
    if id in names && (port == Py || names[id] != []) then names[id] else Numbered("Player ", id)
  }

  /** The two ports show the same name unless the map holds an empty one for the sender. */
  lemma SenderNamePorts(names: map<u8, seq<u8>>, id: u8)
    ensures SenderName(Py, names, id) == SenderName(Go, names, id) <==> !(id in names && names[id] == [])
  {
    if id in names && names[id] == [] {
      assert |SenderName(Go, names, id)| > 0;
    }
  }

  /** Where the text of a chat block starting at `offset` begins: after the mode word when one is read. */
  function TextStart(data: seq<u8>, offset: nat): nat
    requires offset + 4 <= |data|
  {
    if data[offset + 3] == ChatFlagNormal && offset + 8 <= |data| then offset + 8 else offset + 4
  }

  /**
   * What a chat block at `offset` yields and where reading stops: nothing
   * (cursor unchanged) when fewer than four bytes are left; otherwise the
   * sender, the startup flag, the chat mode (read only under the normal
   * flag and only when four bytes are there, 0 otherwise) and the text up to
   * the first null, the cursor past that null. The length word is not used.
   */
  function ChatAt(port: Port, data: seq<u8>, offset: nat, names: map<u8, seq<u8>>): (r: (Option<ChatMessage>, nat))
    ensures r.0.None? <==> |data| < offset + 4
    ensures r.0.None? ==> r.1 == offset
    ensures r.0.Some? ==> (offset + 5 <= r.1 && r.0.value.timestampMs == 0
                           && r.0.value.playerId == data[offset]
                           && r.0.value.playerName == SenderName(port, names, data[offset])
                           && (r.0.value.isStartup <==> data[offset + 3] == ChatFlagStartup)
                           && r.0.value.mode < 0x1_0000_0000
                           && (r.0.value.mode != 0 ==> data[offset + 3] == ChatFlagNormal))
  {
    if |data| < offset + 4 then (None, offset)
    else
      var id := data[offset];
      var flags := data[offset + 3];
      var start := TextStart(data, offset);
      var mode := if start == offset + 8 then LE32(data, offset + 4) else 0;
      var textEnd := NullIndex(data, start);
      (Some(ChatMessage(0, id, SenderName(port, names, id), data[start..textEnd], mode, flags == ChatFlagStartup)),
       textEnd + 1)
  }

  /**
   * The text is the run of bytes from its start up to the first null or the
   * end of the data, and reading stops one past that point.
   */
  lemma ChatText(port: Port, data: seq<u8>, offset: nat, names: map<u8, seq<u8>>)
    requires offset + 4 <= |data|
    ensures var r := ChatAt(port, data, offset, names);
      var start := TextStart(data, offset);
      var text := r.0.value.message;
      start + |text| <= |data| && data[start..start + |text|] == text && NoNull(text)
      && r.1 == start + |text| + 1
      && (start + |text| == |data| || data[start + |text|] == 0)
  {
    var start := TextStart(data, offset);
    var text := data[start..NullIndex(data, start)];
    assert forall i :: 0 <= i < |text| ==> text[i] == data[start + i];
  }

  /** The two ports read the same block, up to the sender's display name. */
  lemma ChatPorts(data: seq<u8>, offset: nat, names: map<u8, seq<u8>>)
    ensures var py, go := ChatAt(Py, data, offset, names), ChatAt(Go, data, offset, names);
      py.1 == go.1 && py.0.Some? == go.0.Some?
      && (py.0.Some? ==> py.0.value.(playerName := []) == go.0.value.(playerName := []))
      && (py.0.Some? && !(data[offset] in names && names[data[offset]] == []) ==> py == go)
  {
    if offset + 4 <= |data| {
      SenderNamePorts(names, data[offset]);
    }
  }

  /** `parse_chat_message` / `parseChatMessage`. */
  method ParseChatMessage(port: Port, data: seq<u8>, offset: nat, names: map<u8, seq<u8>>)
    returns (msg: Option<ChatMessage>, next: nat)
    ensures (msg, next) == ChatAt(port, data, offset, names)
  {
    if offset + 4 > |data| {
      return None, offset;
    }
    var playerId := data[offset];
    next := offset + 1;
    next := next + 2;
    var flags := data[next];
    next := next + 1;
    var mode := 0;
    var isStartup := false;
    if flags == ChatFlagStartup {
      isStartup := true;
    } else if flags == ChatFlagNormal {
      if next + 4 <= |data| {
        mode := LE32(data, next);
        next := next + 4;
      }
    }
    var msgStart := next;
    next := ScanToNull(data, next);
    var message := data[msgStart..next];
    next := next + 1;
    var playerName := SenderName(port, names, playerId);
    msg := Some(ChatMessage(0, playerId, playerName, message, mode, isStartup));
  }

  /** The flags byte of a chat block as a writer chooses it. */
  datatype ChatKind = Startup | Normal(mode: nat) | Other(flags: u8)

  predicate ValidKind(kind: ChatKind)
  {
    match kind
    case Startup => true
    case Normal(mode) => mode < 0x1_0000_0000
    case Other(flags) => flags != ChatFlagStartup && flags != ChatFlagNormal
  }

  function KindFlags(kind: ChatKind): u8
  {
    match kind
    case Startup => ChatFlagStartup
    case Normal(_) => ChatFlagNormal
    case Other(flags) => flags
  }

  /** The bytes between the flags and the text: the mode word, under the normal flag only. */
  function KindBody(kind: ChatKind): (e: seq<u8>)
    requires ValidKind(kind)
    ensures |e| == if kind.Normal? then 4 else 0
  {
    if kind.Normal? then Enc32(kind.mode) else []
  }

  /** The sender, the length word (text plus its null) and the flags. */
  function ChatHead(id: u8, kind: ChatKind, text: seq<u8>): (h: seq<u8>)
    requires |text| < 0xFFFF
    ensures |h| == 4 && h[0] == id && h[3] == KindFlags(kind)
  {
    [id] + Enc16(|text| + 1) + [KindFlags(kind)]
  }

  /** A chat block as a writer lays it out: sender, length word, flags, mode, text and its null. */
  function EncodeChat(id: u8, kind: ChatKind, text: seq<u8>): (e: seq<u8>)
    requires ValidKind(kind) && NoNull(text) && |text| < 0xFFFF
  {
    ChatHead(id, kind, text) + KindBody(kind) + (text + [0])
  }

  /** Where the pieces of a block lie inside a buffer. */
  lemma ChatLayout(pre: seq<u8>, h: seq<u8>, b: seq<u8>, text: seq<u8>, rest: seq<u8>)
    requires |h| == 4
    ensures var data := pre + (h + b + (text + [0])) + rest;
      var start := |pre| + 4 + |b|;
      data[|pre|] == h[0] && data[|pre| + 3] == h[3]
      && data == (pre + h) + b + ((text + [0]) + rest)
      && start + |text| < |data| && data[start..start + |text|] == text && data[start + |text|] == 0
  {
    var data := pre + (h + b + (text + [0])) + rest;
    Regroup(pre, h, b, text + [0], rest);
    assert data == (pre + h + b) + text + ([0] + rest);
    MiddleSlice(pre + h + b, text, [0] + rest);
  }

  /** A block on any buffer whose header is read and whose text starts at `start`. */
  lemma ChatAtText(port: Port, data: seq<u8>, offset: nat, names: map<u8, seq<u8>>, mode: nat, text: seq<u8>)
    requires offset + 4 <= |data|
    requires mode == if TextStart(data, offset) == offset + 8 then LE32(data, offset + 4) else 0
    requires var start := TextStart(data, offset);
      start + |text| < |data| && data[start..start + |text|] == text && NoNull(text) && data[start + |text|] == 0
    ensures ChatAt(port, data, offset, names)
      == (Some(ChatMessage(0, data[offset], SenderName(port, names, data[offset]), text, mode,
                           data[offset + 3] == ChatFlagStartup)),
          TextStart(data, offset) + |text| + 1)
  {
    NullAfterRun(data, TextStart(data, offset), text);
  }

  /**
   * Round trip: the sender, the startup flag, the mode and the text come
   * back, the name comes from the id map, and reading stops right after
   * the block.
   */
  lemma ChatRoundTrip(port: Port, pre: seq<u8>, id: u8, kind: ChatKind, text: seq<u8>, rest: seq<u8>,
                      names: map<u8, seq<u8>>)
    requires ValidKind(kind) && NoNull(text) && |text| < 0xFFFF
    ensures var mode := if kind.Normal? then kind.mode else 0;
      ChatAt(port, pre + EncodeChat(id, kind, text) + rest, |pre|, names)
        == (Some(ChatMessage(0, id, SenderName(port, names, id), text, mode, kind.Startup?)),
            |pre| + |EncodeChat(id, kind, text)|)
  {
    var h := ChatHead(id, kind, text);
    var b := KindBody(kind);
    var data := pre + EncodeChat(id, kind, text) + rest;
    ChatLayout(pre, h, b, text, rest);
    if kind.Normal? {
      LE32Enc(pre + h, kind.mode, (text + [0]) + rest);
    }
    var mode := if kind.Normal? then kind.mode else 0;
    ChatAtText(port, data, |pre|, names, mode, text);
  }
}
