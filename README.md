# w3g-parser decode pipeline in Dafny

This project models how the w3g-parser library decodes a Warcraft III replay (`.w3g`). The library exists twice, as a Python package (`src/w3g_parser`) and as a Go package (`pkg/w3g`). The model covers both. A `Port` parameter (`Py` or `Go`) appears only where the two implementations behave differently. Lemmas name each difference and prove that the two agree everywhere else.

The pipeline, module by module:

- `Common`: bytes (`u8`), little-endian 16- and 32-bit fields, `Option` and `Result`, the error kinds, and the null-terminated scan that every reader uses.
- `Models`: race flags, leave results, the header predicates and version string, speed and chat-mode names, and the player lookup and winner queries on a replay.
- `Header`: the 48-byte base header and the version-0 and version-1 sub-headers, with their error order. Also a writer (`EncodeHeader`), a round trip, and the header fixtures of the repository's own suite.
- `Decompressor`: the block loop of `decompress_blocks` / `decompressBlocks` and single-block inflation. The foreign inflaters are a parameter (`Inflater`) given as finite tables. Go's zlib read loop is modelled over the chunks its reader returns. The module also has a block writer, a round trip over any run of laid-out blocks, and a proof that the two ports agree when their raw inflaters agree and their zlib inflaters agree.
- `Encoded`: the "encoded string" codec with its decoding loops, a writer, and the round trip. It also decodes the game settings it carries and derives the map path and map name.
- `Players`: host and additional player records, slot records, the game start record with its validity check, and how slot information is applied to players. Every record reader has a writer and a round trip.
- `Chat`: chat blocks, the sender-name fallback, a writer and a round trip.
- `Actions`: the per-opcode action decoder, grouped into families with one rule per family, and the batched command-data loop.
- `ActionEncoding`: writers for the selection, ability, ally, sync and string action layouts, with lemmas that the decoder reads back the written field values.
- `Parser`: the prelude of `_parse_game_data` / `parseGameData`, the block walk (leave, start, time slot, chat, checksum, forced end, 0x23, unknown), and APM. The module proves invariants of the walk:
  - each player's action count equals the number of recorded actions attributed to that player;
  - actions and chat messages stay in clock order;
  - players keep their identity and only their counts and leave information change;
  - Python's leave results stay inside the `LeaveResult` enum;
  - Go's recorded leave times all alias the final clock.

`src/w3g_parser/constants.py` is not part of this model. The Python constants are taken to equal those of `pkg/w3g/constants.go`, and the tables and opcodes used here come from that file.

Where the code does something other than the library's own names, comments or tests suggest, the model follows the code:

- `decode_encoded_string` (src/w3g_parser/players.py:19-25) documents a scheme in which every stored byte is odd. Its loop ends the string only on a raw zero data byte (players.py:53-56, pkg/w3g/encoded.go:32-38). A stored byte that decodes to zero does not end it (`Encoded.DecodedZeroDoesNotEnd`).
- `UnsupportedVersionError` (src/w3g_parser/exceptions.py:18, pkg/w3g/errors.go:24) is never raised for a bad header version. src/w3g_parser/header.py:65 raises `InvalidHeaderError` for any version other than 0 or 1 (`Header.ParseHeader`).
- The classic header fixture's duration bytes `A0 93 04 00` decode to 0x0493A0 = 299936 ms. The fixture's own comment (tests/conftest.py:46) says 300000 ms (`Header.ClassicFixtureDecodes`).

The action decoder can also move the cursor past the end of the data. Several opcodes skip a fixed number of bytes without checking, and Go's 0x11 can overshoot by one byte (`Actions.FixedSizes`, `Actions.GoPositionOvershoot`).

## Model

| member | source | states |
|---|---|---|
| `Common.NullIndex` | src/w3g_parser/parser.py:157-160 | The null scan stops at the first zero byte at or after its start, or at the end of the data; every byte it passes is non-zero. |
| `Common.ScanToNull` | pkg/w3g/parser.go:136-140 | The scanning loop stops exactly where `NullIndex` says. |
| `Models.RaceFromFlagsPriority` | src/w3g_parser/models.py:22-37 | The race is the k-th of Human, Orc, Night Elf, Undead, Random, Selectable exactly when its bit is set and no earlier bit is; it is Unknown exactly when none of the six bits is set. |
| `Models.RaceFromFlagsLowByte` | pkg/w3g/models.go:48-65 | Go converts only the low byte of the race flags; that gives the same race as Python's conversion of the whole field. |
| `Models.LeaveResultOf` | src/w3g_parser/parser.py:244-250 | Python always stores an enum member: the result itself when it is one, LEFT otherwise. Go stores the result truncated to a byte. |
| `Models.LeaveResultNameCovers` | pkg/w3g/models.go:101-116 | Every enum member has a name other than "Unknown", and every other value prints as "Unknown"; the two "left" codes share a name and all other members have distinct names. |
| `Models.MultiplayerIsTopBit` | src/w3g_parser/models.py:95-98 | For a 16-bit flags field, a replay is multiplayer exactly when the top bit 0x8000 is set. |
| `Models.VersionStringClassic` | src/w3g_parser/models.py:110-151 | A version of 10000 or more already counts as reforged, so the patch-number branch is unreachable; every non-reforged header reads "1.N". |
| `Models.SpeedNamePorts` | pkg/w3g/models.go:227-233 | Both ports name speeds 0 to 2 alike; for larger speeds Python answers "Fast" and Go "Unknown". |
| `Models.ModeNameInjective` | src/w3g_parser/models.py:217-227 | No two chat modes share a display name. |
| `Models.FirstWithId` | src/w3g_parser/parser.py:244-246 | The index found holds the id and no earlier player does; none is found only when no player has the id. |
| `Models.FirstWinner` | src/w3g_parser/models.py:279-285 | The index found is a player whose leave result is WON, and no earlier player's is; none is found only when nobody won. |
| `Models.GetPlayer` | src/w3g_parser/models.py:264-269 | The player returned is the first one with the id; none is returned exactly when no player has the id. |
| `Models.Winner` | pkg/w3g/models.go:330-337 | The player returned is the first whose leave result is WON; none is returned exactly when nobody won. |
| `Header.SubHeaderSize` | src/w3g_parser/header.py:57-65 | The sub-header is 16 bytes for version 0 and 20 bytes for version 1. |
| `Header.ParseHeader` | src/w3g_parser/header.py:18-120 | Errors come in this order: a short base header (Python reports the bytes it got, Go the 48 it wanted), a wrong magic, a version other than 0 or 1 (an invalid header), then a short sub-header. Otherwise the fields are decoded at their offsets. |
| `Header.EncodeHeader` | pkg/w3g/header.go:15-105 | The writer lays out the base header and then the sub-header of the right size. |
| `Header.ParseEncodeHeader` | src/w3g_parser/header.py:53-119 | Round trip: decoding an encoded well-formed header gives it back, whatever bytes follow it. |
| `Header.ParseHeaderPorts` | pkg/w3g/header.go:18-58 | Both ports accept the same headers and decode them alike. They reject the same magics and versions, and differ only in the offset they report for a truncation. |
| `Header.DecodeAfterMagicV0` | src/w3g_parser/header.py:87-91 | After a correct magic with version word 0, the header decodes with the "WAR3" identifier and its fields read from the bytes that follow. |
| `Header.DecodeAfterMagicV1` | src/w3g_parser/header.py:100-104 | After a correct magic with version word 1, the header decodes with the identifier and fields stored in the sub-header. |
| `Header.ClassicFixtureDecodes` | tests/test_header.py:10-19 | The classic fixture decodes in both ports: header size 0x40, version 0, "WAR3", version 0x0106, multiplayer, 0x0493A0 ms. |
| `Header.ExpansionFixtureDecodes` | tests/test_header.py:22-33 | The expansion fixture decodes in both ports: header size 0x44, version 1, "W3XP", version 26, expansion, multiplayer, 600000 ms. |
| `Header.VersionString26` | tests/test_header.py:52-57 | A non-reforged header of version 26 reads "1.26". |
| `Header.MagicOnlyTruncated` | tests/test_header.py:44-49 | The magic alone is a truncation error: at 28 bytes in Python, 48 in Go. |
| `Header.BadMagicRejected` | tests/test_header.py:36-41 | A buffer that does not start with the magic is rejected as an invalid header. |
| `Decompressor.Inflate` | src/w3g_parser/decompressor.py:71-79 | Inflation succeeds exactly on the buffers the inflater's table for that format holds. |
| `Decompressor.GoZlibKeepsPartialOutput` | pkg/w3g/decompressor.go:96-126 | Go's zlib read keeps whatever was read before an end of stream, expected or not. It fails only on a refused stream header, or on a read error before any output. |
| `Decompressor.DecompressZlib` | pkg/w3g/decompressor.go:106-125 | The read loop returns what the specification function `GoZlib` gives for the reader's chunks. |
| `Decompressor.GoFlateOn` | pkg/w3g/decompressor.go:128-134 | Go's raw inflation succeeds exactly on the buffers of its own table, kept apart from Python's: `io.ReadAll` over `flate.NewReader` reports a stream that stops early as an error. |
| `Decompressor.InflateBlock` | pkg/w3g/decompressor.go:70-81 | Reforged blocks go through the port's zlib with no fallback. Classic blocks take the port's raw deflate when it succeeds, and the port's zlib otherwise. |
| `Decompressor.InflateBlockFails` | src/w3g_parser/decompressor.py:101-116 | A classic block fails only when both formats fail; a reforged block fails exactly when zlib does. A classic block whose raw inflation fails gets the zlib result. |
| `Decompressor.TruncatedRawPorts` | src/w3g_parser/decompressor.py:101-116 | A raw payload that Python's `decompressobj` plus `flush` accepts, such as one that stops early, but Go's raw reader rejects: Python keeps the raw output, Go's block is decided by its zlib fallback alone, and the two differ when that fallback fails. |
| `Decompressor.InflatePayload` | src/w3g_parser/decompressor.py:70-117 | Inflating a payload gives what `InflateBlock` specifies. |
| `Decompressor.BlockAtFacts` | src/w3g_parser/decompressor.py:47-117 | A block is read when its header and payload fit in the stream and the payload inflates, and reading stops right after the payload. A short header or payload is a truncation, with Python reporting the end of the file; a payload that does not inflate is a decompression error. |
| `Decompressor.Blocks` | src/w3g_parser/decompressor.py:46-120 | The loop yields only truncation and decompression errors. Python's truncation offset is the end of the stream, Python's error offsets lie within the stream, and Go's are at least the output produced so far. |
| `Decompressor.BlocksCons` | src/w3g_parser/decompressor.py:46-118 | Reading several blocks is reading the first and then the rest, its output joined in front. |
| `Decompressor.BlocksStop` | pkg/w3g/decompressor.go:32-90 | A block that cannot be read ends the loop with its error. |
| `Decompressor.BlocksPorts` | pkg/w3g/decompressor.go:28-93 | When the two raw inflaters agree and the two zlib inflaters agree, both ports succeed on the same streams with the same output, and fail with the same kind of error. |
| `Decompressor.ReadBlock` | pkg/w3g/decompressor.go:35-89 | Reading one block gives what `BlockAt` specifies. |
| `Decompressor.NextBlock` | src/w3g_parser/decompressor.py:46-118 | One turn of the loop: the walk either ends with this block's error or continues with its output appended. |
| `Decompressor.DecompressBlocks` | src/w3g_parser/decompressor.py:11-120 | The loop returns the concatenated outputs of as many blocks as the header names, in the header's format, or the first block's error. |
| `Decompressor.BlockAtLaidOut` | src/w3g_parser/decompressor.py:82-118 | A block written into the stream reads back as its inflated payload, and reading stops right after it. |
| `Decompressor.BlocksRoundTrip` | pkg/w3g/decompressor.go:28-92 | Round trip: a stream holding written blocks reads back their inflated payloads in order, whatever precedes or follows them. |
| `Decompressor.HeaderTruncated` | pkg/w3g/decompressor.go:35-55 | A stream that ends inside a block header is a truncation error in both ports. |
| `Decompressor.SingleBlock` | src/w3g_parser/decompressor.py:142-150 | Any failure of single-block inflation surfaces as the bare inflater error. |
| `Decompressor.SingleBlockFallback` | pkg/w3g/decompressor.go:137-148 | Python succeeds whenever either format does, in either order. Go's zlib request succeeds only through zlib. A raw request inflates exactly as a classic block does. |
| `Decompressor.DecompressSingleBlock` | src/w3g_parser/decompressor.py:133-150 | The method returns what `SingleBlock` specifies. |
| `Encoded.Decode` | src/w3g_parser/players.py:49-67 | Decoding never moves back and never passes the end of the data, and it yields at most one byte per byte consumed. |
| `Encoded.DecodeString` | pkg/w3g/encoded.go:9-53 | The same bounds for a whole encoded string. |
| `Encoded.ControlIgnored` | src/w3g_parser/players.py:37-46 | At a control byte, the previous group's control byte no longer matters. |
| `Encoded.DecodeStep` | src/w3g_parser/players.py:53-67 | A non-zero data byte decodes as itself under a set control bit, and as one less under a clear one. |
| `Encoded.DecodeEncodedString` | src/w3g_parser/players.py:19-69 | The decoding loops yield the bytes and the end position that `DecodeString` specifies. |
| `Encoded.EmptyString` | src/w3g_parser/players.py:44-46 | A zero control byte yields an empty string, and the cursor moves past it. |
| `Encoded.DecodedZeroDoesNotEnd` | pkg/w3g/encoded.go:32-48 | Only a raw zero ends the string: a raw 1 under a clear control bit decodes to 0, and decoding goes on. |
| `Encoded.ControlByteLiteral` | src/w3g_parser/players.py:62-67 | The writer's control byte marks exactly the odd bytes of its group as stored as is. |
| `Encoded.StoredByteDecodes` | src/w3g_parser/players.py:62-67 | A stored byte is never zero, and lowering it or not, as its control bit says, gives back the original byte. |
| `Encoded.GroupDecodes` | pkg/w3g/encoded.go:27-49 | A group the writer stored decodes to the original bytes. |
| `Encoded.ShortGroupEnds` | src/w3g_parser/players.py:49-67 | In a short last group, the terminating zero is read as a raw data byte and emitted, and decoding stops. |
| `Encoded.DecodeEncodeString` | src/w3g_parser/players.py:19-69 | Round trip: decoding what the writer wrote gives back the string, padded by the zero the decoder emits for a short last group, and stops exactly at the end of the encoding. |
| `Encoded.SettingsFields` | src/w3g_parser/parser.py:361-381 | Speed, visibility and observers are within their bit widths, and the map checksum is bytes 9 to 12. |
| `Encoded.MapPath` | src/w3g_parser/parser.py:384-395 | The map path is the whole run of non-null bytes from byte 13, or from byte 14 when byte 13 is a null. |
| `Encoded.SettingsOf` | pkg/w3g/encoded.go:62-119 | A string shorter than 13 bytes yields the default settings with no path and no name. Otherwise it yields the decoded fields and the map path, and a map name only for a non-empty path. |
| `Encoded.ParseEncodedSettings` | src/w3g_parser/parser.py:335-412 | The method returns what `SettingsOf` specifies. |
| `Encoded.SettingsFieldsEncode` | src/w3g_parser/parser.py:356-381 | Round trip: every setting the writer stored is read back. |
| `Encoded.PyBaseName` | src/w3g_parser/parser.py:397-402 | Python's base name is a suffix of the path with no "/". It is either the whole path or follows a "/". |
| `Encoded.GoBaseName` | pkg/w3g/encoded.go:126-131 | Go's base name is the longest suffix of the path with no separator of either kind. |
| `Encoded.BaseNamesAgree` | pkg/w3g/encoded.go:122-131 | For a path with no backslash, both rules cut at the same place. |
| `Encoded.StripRules` | src/w3g_parser/parser.py:404-406 | Stripping removes exactly a recognised ending or nothing. Go's rule is the narrower one: whatever Go strips, Python strips the same way. |
| `Encoded.MapNamePortsDiffer` | pkg/w3g/encoded.go:122-142 | For "a/b\c.w3x", Python's map name is "b\c" and Go's is "c". |
| `Encoded.ExtractMapName` | pkg/w3g/encoded.go:122-142 | The backward scan and the ending check give Go's map name as `MapName` specifies. |
| `Players.ExtraAt` | src/w3g_parser/players.py:119-138 | Reading the extra data always moves past its size byte, and the runtime fits in 32 bits. |
| `Players.ExtraPorts` | pkg/w3g/players.go:54-75 | Both ports read the extra data alike, because the race bits all sit in the low byte of the flags. |
| `Players.PlayerRecord` | src/w3g_parser/players.py:72-146 | A player is read exactly when the expected tag and an id are there. Without one, the cursor stays put, or passes a lone tag at the end. A player read has the id after the tag and the requested host flag, and reading moves at least three bytes. |
| `Players.PlayerRecordName` | pkg/w3g/players.go:41-47 | The name is the run of bytes after the id up to the first null or the end of the data. |
| `Players.ParseExtra` | pkg/w3g/players.go:54-75 | The extra-data branch returns what `ExtraAt` specifies. |
| `Players.ParsePlayerRecord` | pkg/w3g/players.go:16-85 | The method returns what `PlayerRecord` specifies. |
| `Players.CustomRecordRoundTrip` | src/w3g_parser/players.py:109-127 | Round trip for a custom-game record: id, name and host flag come back, and reading stops right after the record. |
| `Players.LadderRecordRoundTrip` | src/w3g_parser/players.py:128-135 | Round trip for a ladder record: id, name, runtime and the race derived from the flags come back, and reading stops right after the record. |
| `Players.PlayerRecordPorts` | pkg/w3g/players.go:16-85 | Both ports agree on where reading stops and on the id, name, runtime and race. They differ only in the default slot status, and in the race of a record cut off right after its name. |
| `Players.SlotSize` | src/w3g_parser/players.py:174-179 | A slot record is 7, 8 or 9 bytes long, by version. |
| `Players.SlotAt` | src/w3g_parser/players.py:149-199 | A slot is read exactly when its record fits, and reading then moves by the record size; otherwise the cursor stays put. |
| `Players.SlotRoundTrip` | pkg/w3g/players.go:99-131 | Round trip for one slot record. |
| `Players.SlotsFrom` | src/w3g_parser/players.py:244-248 | No more slots are read than were announced, and the cursor never moves back. |
| `Players.SlotsStuck` | pkg/w3g/players.go:168-174 | Once a slot record does not fit, no later one is read. |
| `Players.SlotsRoundTrip` | src/w3g_parser/players.py:244-248 | Round trip for a run of slot records. |
| `Players.GameStartRecord` | src/w3g_parser/players.py:202-266 | Reading never moves back, and there are at most 256 slots. Without the 0x19 tag, nothing is read and the cursor stays put. |
| `Players.ParseGameStartRecord` | pkg/w3g/players.go:143-196 | The method returns what `GameStartRecord` specifies. |
| `Players.GameStartRoundTrip` | src/w3g_parser/players.py:202-266 | Round trip: every slot, the random seed and the select mode are read back, and reading stops at the end of the record. |
| `Players.EncodedGameStartIsValid` | pkg/w3g/players.go:251-261 | A record written with a size between 10 and 500 and with 2 to 24 slots passes the validity check. |
| `Players.ValidRecordReadsSlots` | src/w3g_parser/parser.py:195-203 | A record that passes the validity check is read from its slot count on, not cut short. |
| `Players.LastWithId` | src/w3g_parser/players.py:280 | The index found is the last player with the id, which is the one the id map keeps; none is found only when no player has the id. |
| `Players.WithSlot` | src/w3g_parser/players.py:310-324 | Applying a slot keeps the player's id and name. |
| `Players.ApplySlots` | pkg/w3g/players.go:199-248 | Applying slots never shrinks the list, and keeps every existing player's id and name. |
| `Players.AppendedComputers` | src/w3g_parser/players.py:297-309 | Python appends one computer player per used computer slot, in slot order, after the parsed players. Go's list keeps its length. |
| `Players.LastSlotFor` | src/w3g_parser/players.py:289-316 | The slot found is a used human slot naming the id. |
| `Players.LastSlotWins` | src/w3g_parser/players.py:310-324 | The player the id map keeps ends with the team, color, handicap and status of the last used human slot for its id, or keeps its own when there is none. A known race and an observer flag are kept. Players the map does not keep are unchanged. |
| `Players.ObserverSlotMarks` | src/w3g_parser/players.py:283-324 | A player put on the observer team by any used slot ends as an observer. |
| `Players.PlayerIndex` | pkg/w3g/players.go:201-204 | The id map holds exactly the players' ids, each mapped to the last player with that id. |
| `Players.ApplySlotInfoToPlayers` | src/w3g_parser/players.py:269-324 | The method returns what `ApplySlots` specifies. |
| `Chat.SenderName` | src/w3g_parser/chat.py:61 | The sender is the mapped name when the id is mapped (in Go, only when that name is not empty), and "Player N" when it is not mapped. Go never shows an empty name. |
| `Chat.SenderNamePorts` | pkg/w3g/chat.go:51-54 | The two ports show different names exactly when the map holds an empty name for the sender. |
| `Chat.ChatAt` | src/w3g_parser/chat.py:9-70 | A message is read exactly when four bytes are left, and the cursor otherwise stays put. A message read carries clock 0 and moves the cursor at least five bytes. |
| `Chat.ChatText` | pkg/w3g/chat.go:44-49 | The text runs from its start to the first null or the end of the data, and reading stops one past that point. |
| `Chat.ChatPorts` | pkg/w3g/chat.go:16-64 | Both ports read a block alike, up to the sender's display name. |
| `Chat.ParseChatMessage` | pkg/w3g/chat.go:16-64 | The method returns what `ChatAt` specifies. |
| `Chat.ChatRoundTrip` | src/w3g_parser/chat.py:9-70 | Round trip: sender, startup flag, mode and text come back, the name comes from the id map, and reading stops right after the block. |
| `Actions.NameTablesAgree` | src/w3g_parser/actions.py:46-79 | Both name tables name the same opcodes, and no named opcode is a cheat. The names agree except for 0x1B. |
| `Actions.FamiliesCover` | pkg/w3g/actions.go:74-377 | Every recognised opcode falls under one family, and cheats under no other. |
| `Actions.StepAdvances` | src/w3g_parser/actions.py:108-332 | No opcode's rule moves the cursor back. |
| `Actions.ActionAt` | src/w3g_parser/actions.py:85-354 | No action at the end of the data, with the cursor unchanged. No action for an opcode the decoder does not know, with the cursor past it. Otherwise the action carries the opcode and a payload that is the consumed bytes cut at the end of the data. |
| `Actions.FixedSizes` | src/w3g_parser/actions.py:197-209 | Fixed-size opcodes advance by their table size, whether or not the data holds that many bytes. |
| `Actions.GuardedSizes` | src/w3g_parser/actions.py:235-319 | Guarded opcodes consume their fields only when all of them fit, otherwise only the opcode, and never pass the end. |
| `Actions.AbilitySizes` | src/w3g_parser/actions.py:134-195 | The ability opcodes consume only the opcode when their guard fails; otherwise the flags and item id are read and the base size consumed. Python's guard for 0x11 and 0x12 asks for two bytes more than it consumes. Go's 0x12 adds four bytes per object id that fits. |
| `Actions.GoPositionOvershoot` | pkg/w3g/actions.go:125-152 | Go's 0x11, when its guard is met with no byte to spare, leaves the cursor one byte past the end. |
| `Actions.SelectionSizes` | src/w3g_parser/actions.py:211-233 | For 0x16 and 0x17, Python advances eight bytes per declared unit without reading them. Go reads at most the declared number of ids and never passes the end. |
| `Actions.CheatsStayInside` | src/w3g_parser/actions.py:327-332 | Cheat opcodes never take the cursor past the end, in either port. |
| `Actions.StringActions` | src/w3g_parser/actions.py:123-129 | 0x06 and 0x60 read a null-terminated string and step one past its null. |
| `Actions.CommandPastEnd` | pkg/w3g/actions.go:333-341 | A 0x60 within eight bytes of the end of the data yields an empty command, with the cursor ten bytes after the opcode. |
| `Actions.ActionPorts` | pkg/w3g/actions.go:59-391 | Both ports decode every opcode alike, except the ability family from 0x11 on, the unit lists, 0x1B and the cheats. |
| `Actions.UnitIds` | pkg/w3g/actions.go:217-227 | Go reads at most the declared number of unit ids, and only ids that lie within the data. |
| `Actions.ReadUnitIds` | pkg/w3g/actions.go:241-251 | The unit-id loop yields what `UnitIds` specifies, and moves eight bytes per id. |
| `Actions.ParseSelection` | pkg/w3g/actions.go:206-252 | The selection branches do what `SelectionStep` specifies. |
| `Actions.ParseString` | pkg/w3g/actions.go:90-97 | The string branches do what `StringStep` specifies. |
| `Actions.ParseAction` | pkg/w3g/actions.go:59-391 | The method returns what `ActionAt` specifies. |
| `Actions.CommandCarriesIds` | src/w3g_parser/actions.py:377-395 | Every action is stamped with the player id of the batch it came from. |
| `Actions.BatchDone` | src/w3g_parser/actions.py:389-395 | A batch whose next action does not decode, or that is used up, gives way to the next batch at the declared end. |
| `Actions.CommandStep` | pkg/w3g/actions.go:408-438 | Each batch starts three bytes after its header, and the next batch starts exactly at the declared end of this one. |
| `Actions.CommandDone` | src/w3g_parser/actions.py:377-379 | The loop stops at the end or when fewer than three bytes remain. |
| `Actions.ParseNextBatch` | pkg/w3g/actions.go:409-437 | One turn of the batch loop moves at least three bytes, and its actions followed by the rest make up all the actions. |
| `Actions.ParseCommandData` | src/w3g_parser/actions.py:356-395 | The method returns what `CommandActions` specifies. |
| `Actions.GoPayloadPastEnd` | pkg/w3g/actions.go:380 | A lone 0x13 at the end of the data moves the cursor 37 bytes past the end, so Go's payload slice falls outside the data. |
| `ActionEncoding.UnitIdsRead` | pkg/w3g/actions.go:217-227 | Go's id loop reads back every object id of a written unit list, one id per eight bytes. |
| `ActionEncoding.SelectionRoundTrip` | src/w3g_parser/actions.py:211-233 | A written 0x16 or 0x17 reads back its select mode or group and its unit count in both ports, and its object ids in Go only. The cursor lands just after the unit list, whatever follows it. |
| `ActionEncoding.AbilityRoundTrip` | src/w3g_parser/actions.py:134-195 | A written 0x10 or 0x11, or Python's 0x12, reads back its ability flags (one byte before version 13, a word from 13 on) and its item id, when at least two more bytes follow it in Python's 0x11 and 0x12 (Python's guard asks for two bytes more than it consumes). The cursor lands after the port's base size. |
| `ActionEncoding.TargetRoundTrip` | pkg/w3g/actions.go:125-152 | A written 0x11, or Python's 0x12, reads back its target position's raw bytes, when at least two more bytes follow it in Python's 0x11 and 0x12 (Python's guard asks for two bytes more than it consumes). Python reads them after a four-byte gap, Go's 0x11 after an eight-byte gap. Python's 0x12 also reads back both object ids. |
| `ActionEncoding.AllyRoundTrip` | src/w3g_parser/actions.py:275-294 | A written 0x50 decodes to exactly its slot and flags, and a written 0x51 to exactly its slot, gold and lumber, in both ports. |
| `ActionEncoding.SyncRoundTrip` | pkg/w3g/actions.go:275-289 | A written 0x1B takes ten bytes in both ports. Go reads back its flag and both object ids; Python reads no fields. |
| `ActionEncoding.StringRoundTrip` | src/w3g_parser/actions.py:123-129 | A written 0x06 or 0x60 with a null-free text decodes to exactly that text, with the cursor just past its null. |
| `Parser.BlockStep` | src/w3g_parser/parser.py:225-314 | Every block moves the cursor forward. |
| `Parser.FindFirst` | src/w3g_parser/parser.py:244-251 | The search finds what `FirstWithId` specifies. |
| `Parser.ReadLeave` | pkg/w3g/parser.go:214-234 | The leave branch does what `LeaveStep` specifies. |
| `Parser.CountFor` | src/w3g_parser/parser.py:277-280 | Counting one action does what `CountOne` specifies. |
| `Parser.RecordActions` | pkg/w3g/parser.go:254-265 | The action loop counts the actions for their players and appends them stamped with the clock. |
| `Parser.ReadTimeSlot` | pkg/w3g/parser.go:240-268 | The time-slot branch does what `TimeSlotStep` specifies. |
| `Parser.ReadChat` | pkg/w3g/parser.go:270-277 | The chat branch does what `ChatStep` specifies. |
| `Parser.ReadBlock` | pkg/w3g/parser.go:210-303 | One turn of the loop does what `BlockStep` specifies, and stops only where strict Python meets an unknown tag. |
| `Parser.WalkBlocks` | src/w3g_parser/parser.py:225-314 | The block loop ends in the state `WalkFrom` specifies. |
| `Parser.SkipSizes` | src/w3g_parser/parser.py:253-314 | Start blocks skip 4 bytes and forced end 8 bytes. The checksum and 0x23 blocks skip a length byte and that many bytes, or only the tag when the length byte is missing. An unknown tag skips only itself. |
| `Parser.BlockShape` | pkg/w3g/parser.go:213-303 | Which branch each tag takes; the branches not named change nothing but the cursor. |
| `Parser.LeaveUpdatesFirst` | src/w3g_parser/parser.py:232-251 | A leave block needs 13 bytes after its tag. It changes only the first player with the id it names, setting the converted result and the current clock. |
| `Parser.TimeSlotSkips` | src/w3g_parser/parser.py:257-282 | A time slot needs both words after its tag. It advances the clock by the increment, and when the length word exceeds 2, the cursor skips exactly length minus 2 bytes, however many actions they decode to. |
| `Parser.ChatStamped` | src/w3g_parser/parser.py:284-289 | A chat block appends one message stamped with the clock exactly when four bytes follow the tag. Nothing else changes but the cursor. |
| `Parser.CountedCounts` | src/w3g_parser/parser.py:276-280 | Counting a run of actions adds to each player exactly the actions attributed to it. |
| `Parser.StepKeeps` | pkg/w3g/parser.go:205-303 | One block keeps every action count equal to the number of recorded actions attributed to its player, and changes only counts and leave information. It keeps Python's leave results within the enum. |
| `Parser.WalkKeeps` | src/w3g_parser/parser.py:225-314 | The whole walk keeps what every block keeps. |
| `Parser.StepOrdered` | pkg/w3g/parser.go:240-277 | While Go's clock cannot wrap, a block never moves the clock back and keeps actions and chat in clock order. |
| `Parser.WalkOrdered` | pkg/w3g/parser.go:205-304 | While Go's clock cannot wrap, the walk keeps actions and chat in clock order and never moves the clock back. |
| `Parser.GoClockWraps` | pkg/w3g/parser.go:248 | Go's 32-bit clock wraps from 2^32 - 1 to 0, where Python's integer reaches 2^32. |
| `Parser.WalkEnds` | src/w3g_parser/parser.py:225-314 | The walk reaches the end of the data, except in strict Python, which stops just past the first unknown tag. |
| `Parser.NamesOfLast` | src/w3g_parser/parser.py:181-189 | The chat name map sends each id to the name of the last player with that id, and maps only ids of players. |
| `Parser.HostCursorPorts` | pkg/w3g/parser.go:126-134 | Both ports agree on whether a host is read. Their cursors differ exactly when the data ends one byte after a host tag: Python steps over the tag, and Go stays on it. |
| `Parser.GameNameRoundTrip` | src/w3g_parser/parser.py:156-165 | A null-free game name followed by a null reads back whole, and the cursor ends just past the null. |
| `Parser.GameNamePastEnd` | pkg/w3g/parser.go:136-142 | A game name that would start at or past the end of the data is empty, and the cursor steps one further. |
| `Parser.MorePlayers` | src/w3g_parser/parser.py:182-189 | The loop only appends players, each fresh and not the host, and never moves the cursor back. |
| `Parser.FirstValidFrom` | src/w3g_parser/parser.py:205-214 | The position found holds a valid game start record, and no earlier one from the start does; none is found only when no position holds one. |
| `Parser.ResyncFindsFirst` | pkg/w3g/parser.go:180-194 | After the scan, the cursor is at the first position at or after it that holds a valid record, or unchanged when there is none. |
| `Parser.ReadMorePlayers` | pkg/w3g/parser.go:167-176 | The loop gives the players and cursor `MorePlayers` specifies, with the names map tracking them. |
| `Parser.ResyncOffset` | src/w3g_parser/parser.py:205-214 | The search loop, which stops short of the last four bytes, followed by the re-test, lands where `Resync` says. |
| `Parser.ReadHost` | src/w3g_parser/parser.py:144-154 | The host record is read after the unknown word, when that word fits. |
| `Parser.ReadGameName` | pkg/w3g/parser.go:136-146 | The game name and separator are read as `GameNameAt` specifies. |
| `Parser.ReadEncoded` | pkg/w3g/parser.go:149-153 | The encoded string and its settings are read as `EncodedAt` specifies. |
| `Parser.ReadHead` | src/w3g_parser/parser.py:144-178 | The head of the prelude is read as `HeadOf` specifies. |
| `Parser.ParsePrelude` | pkg/w3g/parser.go:120-202 | The whole prelude is read as `PreludeOf` specifies. |
| `Parser.ComputeApm` | src/w3g_parser/parser.py:316-320 | The APM loop gives what `WithApm` specifies. |
| `Parser.ParseGameData` | src/w3g_parser/parser.py:117-333 | The method returns what `GameData` specifies. |
| `Parser.PreludeFresh` | pkg/w3g/parser.go:124-202 | Every player the prelude yields has no actions, no APM and no leave information. |
| `Parser.GameDataCounts` | src/w3g_parser/parser.py:270-280 | In the finished replay, each player's action count equals the number of recorded actions whose batch player id has that player as its first match. |
| `Parser.GameDataOrdered` | pkg/w3g/parser.go:248-275 | Actions and chat messages come out in clock order: always in Python, and in Go whenever the data is at most 65,536 bytes. |
| `Parser.GameDataApm` | src/w3g_parser/parser.py:316-320 | APM is the action count per minute of the header's duration when that is non-zero, and 0 otherwise. |
| `Parser.GameDataLeaves` | pkg/w3g/parser.go:228-231 | In Python every recorded leave result is an enum member. In Go every player with a leave time has the clock the walk ended on, whenever that player left, because every leave time points at the one clock variable. |

## Left out

- Reading files and streams is left out: `parse`, `parse_stream`, `parse_header_only`, `iter_actions` and their Go counterparts, and the `W3GReplay.parse` class method. The model starts from the bytes those functions read.
- The inflaters (Python's `zlib`, Go's `compress/flate` and `compress/zlib`) are foreign code. They are the `Inflater` parameter, given as finite tables of results: Python's raw and zlib `decompressobj`, Go's raw-deflate reader in a table of its own, and Go's zlib reader as the chunks its reads return. Which streams each library accepts is not modelled.
- Decompressor.BlocksPorts: the two ports are shown to agree only under the hypothesis that Python's raw inflater and Go's raw reader accept the same streams. Python's `decompressobj(wbits=-15)` plus `flush` returns the partial output of a raw stream that stops early; Go's `io.ReadAll` reports an unexpected end and falls back to zlib (`Decompressor.TruncatedRawPorts`).
- Text decoding (UTF-8 with replacement in Python, raw `string(...)` in Go) is not modelled. Names, the game name, map path, map name and chat text stay byte sequences. So does the version-1 header's game identifier, which Python decodes as ASCII with replacement (src/w3g_parser/header.py:104) and Go converts with `string(...)` (pkg/w3g/header.go:93).
- APM is computed over exact reals, not IEEE doubles.
- Ability target positions are kept as their raw 32-bit float bytes and are not converted.
- Go's `decodeItemID` (the item id rendered as text) is not modelled; item ids stay raw bytes.
- An action's name is not stored in the action. Both implementations derive it from the opcode alone, so the model gives it by `Actions.ActionName`. The keys of an action's `data` dictionary are a datatype with their spellings in `Models.KeyName`.
- Logging and the `except Exception` around each Python action branch are left out. No modelled branch can raise, because every read is guarded, clamped or skipped.
- Actions.ActionAt: Go's payload slice `data[startOffset:offset]` (pkg/w3g/actions.go:380) is bounded by the capacity of the decompressed buffer (`result.Bytes()` of a `bytes.Buffer`, pkg/w3g/decompressor.go:92), not by its length. With the cursor past the end, Go returns bytes from the buffer's spare capacity, and it panics only once the cursor passes the capacity. The model cuts the payload at the end of the data, as Python does, and does not model the buffer's capacity (see Findings).
- Parser.GameNameAt: when the host record runs past the end of the data, Go's `data[gameNameStart:offset]` (pkg/w3g/parser.go:141) starts past the length. Go gives an empty name within the buffer's capacity and panics past it. The model gives the empty name, as Python does (`Parser.GameNamePastEnd`).
- Actions.StringStep: a 0x60 within eight bytes of the end makes Go's `data[strStart:offset]` (pkg/w3g/actions.go:336-340) start past the length. Go gives an empty command within the buffer's capacity and panics past it. The model gives the empty command, as Python does (`Actions.CommandPastEnd`).
- Parser.GameDataOrdered: for Go, this is stated only for data of at most 65,536 bytes. Longer data can wrap the 32-bit clock (`Parser.GoClockWraps`).
- `get_player_by_name` / `GetPlayerByName` (case folding of decoded text), `to_dict`, `to_json`, `ToJSON`, the duration and timestamp helpers, `String` and `MarshalJSON` methods, and the command line (`cli.py`) are left out. They present decoded data and do not decode it.
- Go's `applySlotInfoToPlayers` appends computer players to its local copy of the slice, so the caller never sees them. The model states this outcome (`Players.AppendedComputers`) rather than a slice header shared between two frames.
- The Go `error` values and the Python exception classes become the `ParseError` datatype. Their message strings are not modelled.

## Findings

| source | as written | input that shows it | evidently intended | confidence | as-written member | corrected member |
|---|---|---|---|---|---|---|
| pkg/w3g/actions.go:380 | 0x13 skips 37 bytes without checking (lines 193-198), and the payload is then sliced as `data[startOffset:offset]` with `offset` past the end of the data; Go bounds the slice by the buffer's capacity, so it returns spare-capacity bytes or panics past the capacity | a 0x13 action within 37 bytes of the end of the whole decompressed game data, which `parseAction` receives (actions.go:421), for example a lone 0x13 as its last byte | the payload cut at the end of the data, as Python's slice is | medium, not executed | Actions.GoPayloadPastEnd | Actions.ActionAt |
