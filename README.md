# MCProtocolLib core in Dafny

This project models the core of MCProtocolLib, a Java implementation of the Minecraft client/server protocol. It covers four parts.

- **`NetUtil` field codecs.** These cover packed block states and positions, optional item stacks and tags, the entity-metadata list, and the chunk-column reader and writer. The reader includes its sky-light retry.
- **The two connection listeners.** `ServerListener` answers handshakes, runs the login exchange (verify token, encryption, authentication, compression and login success), serves status queries and measures latency. `ClientListener` drives the same exchange from the other end.
- **`AutoAuthenticationService`.** It signs in with Mojang and falls back to Microsoft on rejected credentials. It then routes every call to the selected provider.
- **`ServerPlayerAbilitiesPacket`.** Four booleans are packed into a flag byte, followed by two speeds.

Byte streams are `seq<Byte>`, and a decoder returns either `Ok(value, rest)` or `Fail`. The `rest` part is the unread suffix, so it plays the role of the stream cursor. A `Fail` stands for an `IOException` from a short or malformed input. Java's 32- and 64-bit wrap-around is written out with `ToInt32` and `ToInt64`.

A listener's state is its own fields plus the session's sub-protocol, the session flags, and a log of what it did to the session, in order: packets sent, disconnects, encryption turned on, thresholds set, tasks started and handlers called. Each handler is a function on that state, and the listener class performs the same steps on its fields. Each method's `ensures` ties the new state to the function, and the lemmas state what the Java code promises about those functions. The module `Conversation` feeds one listener's output to the other.

Files:
- `optional.dfy`, `wire.dfy`: an option type, and the transport primitives the codecs are built on.
- `netutil.dfy`: the codecs other than the chunk column.
- `chunk_column.dfy`: the chunk-column reader and writer.
- `abilities.dfy`, `byte_bits.dfy`: the player-abilities packet, and the byte-to-`bv8` conversion its flag tests rely on.
- `protocol.dfy`: packets, flags and actions shared by both listeners.
- `server_listener.dfy`, `client_listener.dfy`, `auth_service.dfy`, `conversation.dfy`: the listeners, the authentication service, and the two listeners together.

The transport primitives in `wire.dfy` stand in for packetlib's `NetInput`/`NetOutput`, which are not part of this model. They use the protocol's usual encodings:
- fixed-width big-endian integers;
- a little-endian base-128 varint of at most five bytes;
- a string as a varint length plus its bytes;
- a UUID as two longs;
- a float as its 32-bit pattern.

Their round trips are proved in `wire.dfy`.

## Model

| member | source | states |
|---|---|---|
| NetUtil.ReadBlockState | src/main/java/com/github/steveice10/mc/protocol/util/NetUtil.java:46-49 | the decoded `data` is always in 0..15 and the decoded `id` (an arithmetic `>> 4`) lies in the signed 28-bit range |
| NetUtil.BlockStateRoundTrip | src/main/java/com/github/steveice10/mc/protocol/util/NetUtil.java:46-53 | the special case of an id within 28 signed bits: the id comes back unchanged and the data as `data & 0xF` |
| NetUtil.PackedIdWraps | src/main/java/com/github/steveice10/mc/protocol/util/NetUtil.java:48-52 | for any id and a data nibble, `(id << 4 | data) >> 4` in 32-bit arithmetic is the id wrapped to 28 signed bits and `& 0xF` gives the nibble back |
| NetUtil.BlockStateWrapsId | src/main/java/com/github/steveice10/mc/protocol/util/NetUtil.java:46-53 | reading any written block state gives its id wrapped to 28 signed bits (ids at or beyond 2^27 come back shifted by a multiple of 2^28, possibly negative) and `data & 0xF` |
| NetUtil.PositionRoundTrip | src/main/java/com/github/steveice10/mc/protocol/util/NetUtil.java:70-86 | x and z in [-2^25, 2^25) and y in [0, 4096) survive the 64-bit packing: x at bit 38, y at bit 26, z at bit 0, sign-extended x and z, zero-extended y |
| NetUtil.LowFieldSignExtended | src/main/java/com/github/steveice10/mc/protocol/util/NetUtil.java:75 | `(val << 38) >> 38` is the low 26 bits of `val` read as a signed number |
| NetUtil.ReadNbt | src/main/java/com/github/steveice10/mc/protocol/util/NetUtil.java:35-39 | a leading 0 byte reads as an absent tag and consumes exactly that byte |
| NetUtil.AbsentTagIsZeroByte | src/main/java/com/github/steveice10/mc/protocol/util/NetUtil.java:41-42 | an absent tag is written as the single byte 0 |
| NetUtil.NbtRoundTrip | src/main/java/com/github/steveice10/mc/protocol/util/NetUtil.java:35-44 | an absent or present tag reads back as written |
| NetUtil.AbsentItemIsMinusOne | src/main/java/com/github/steveice10/mc/protocol/util/NetUtil.java:60-61 | an absent item is written as exactly the short -1 |
| NetUtil.NegativeShortIsAbsent | src/main/java/com/github/steveice10/mc/protocol/util/NetUtil.java:55-57 | any negative leading short reads as an absent item, consuming only the short |
| NetUtil.ItemRoundTrip | src/main/java/com/github/steveice10/mc/protocol/util/NetUtil.java:55-68 | an item whose fields fit their wire widths reads back id, amount, data and tag, in that order: id in 0..0x7FFF, amount a signed byte, data a signed short, tag payload shorter than 2^16 bytes |
| NetUtil.ItemWrapsAround | src/main/java/com/github/steveice10/mc/protocol/util/NetUtil.java:55-68 | for any item whose tag payload is shorter than 2^16 bytes: `writeShort` and `writeByte` keep only the low bits, so id, amount and data come back wrapped to a short, a byte and a short; an id whose low sixteen bits read as negative comes back as the absent item, with the amount, data and tag bytes left unread |
| NetUtil.TypeOfId | src/main/java/com/github/steveice10/mc/protocol/util/NetUtil.java:102-103 | a metadata type id names a type iff it is in 0..13, and it is then that type's id |
| NetUtil.TypeIdsDistinct | src/main/java/com/github/steveice10/mc/protocol/util/NetUtil.java:137 | distinct metadata types are written with distinct ids |
| NetUtil.FaceOf | src/main/java/com/github/steveice10/mc/protocol/util/NetUtil.java:118 | a block-face id names a face iff it is in 0..5, and it is then that face's id |
| NetUtil.OptionalPositionRoundTrip | src/main/java/com/github/steveice10/mc/protocol/util/NetUtil.java:114-117 | an optional position is a presence boolean followed by the position only when present, and reads back as written (the counterpart is at lines 147-150 of the same file) |
| NetUtil.OptionalUuidRoundTrip | src/main/java/com/github/steveice10/mc/protocol/util/NetUtil.java:119-122 | the same for an optional UUID (the counterpart is at lines 152-155 of the same file) |
| NetUtil.RotationRoundTrip | src/main/java/com/github/steveice10/mc/protocol/util/NetUtil.java:88-96 | pitch, yaw and roll read back in the order written |
| NetUtil.MetadataValueRoundTrip | src/main/java/com/github/steveice10/mc/protocol/util/NetUtil.java:105-159 | every in-range value of each of the fourteen types reads back under its own type's reader: strings and chat shorter than 2^31 bytes, items and tags as for ItemRoundTrip, positions in the 26/12/26-bit ranges, block-state ids within 28 signed bits with data in 0..15 |
| NetUtil.EntryRoundTrip | src/main/java/com/github/steveice10/mc/protocol/util/NetUtil.java:101-157 | an entry (index byte, type varint, value) reads back as written, for an index in 0..254 and an in-range value as for MetadataValueRoundTrip |
| NetUtil.ReadEntityMetadata | src/main/java/com/github/steveice10/mc/protocol/util/NetUtil.java:98-132 | the loop appends one entry per non-255 index, stops at the first 255 and gives exactly the list decoding of the input |
| NetUtil.WriteEntityMetadata | src/main/java/com/github/steveice10/mc/protocol/util/NetUtil.java:134-163 | the loop writes each entry in order, then one 255 |
| NetUtil.EmptyMetadataIsTerminator | src/main/java/com/github/steveice10/mc/protocol/util/NetUtil.java:162 | an empty metadata array is written as `[255]` |
| NetUtil.EntriesRoundTrip | src/main/java/com/github/steveice10/mc/protocol/util/NetUtil.java:98-163 | decoding written entries yields those entries in order, followed by whatever the remaining input decodes to |
| NetUtil.MetadataRoundTrip | src/main/java/com/github/steveice10/mc/protocol/util/NetUtil.java:98-163 | any list whose indices are all in 0..254 and whose values are all in range as for MetadataValueRoundTrip reads back in order, leaving the bytes after the terminator |
| NetUtil.MetadataStopsAtTerminator | src/main/java/com/github/steveice10/mc/protocol/util/NetUtil.java:101 | a leading 255 ends the list at once |
| NetUtil.UnknownTypeIsError | src/main/java/com/github/steveice10/mc/protocol/util/NetUtil.java:125 | an unrecognised type id is an error carrying that id, and no list is returned |
| ChunkColumn.ReadSection | src/main/java/com/github/steveice10/mc/protocol/util/NetUtil.java:173-176 | a section read gives 2048-byte block light, and sky light iff sky light is assumed |
| ChunkColumn.BitIsDigit | src/main/java/com/github/steveice10/mc/protocol/util/NetUtil.java:172 | the recursive bit test `Bit(m, i)` holds exactly when the `i`-th binary digit of `m` is 1, that is when `m / 2^i` is odd |
| ChunkColumn.MaskBitsDigits | src/main/java/com/github/steveice10/mc/protocol/util/NetUtil.java:171-172 | the reader marks slot i, for each of the sixteen slots, exactly when digit i of the mask's 32-bit two's-complement pattern is 1 |
| ChunkColumn.ReadPass | src/main/java/com/github/steveice10/mc/protocol/util/NetUtil.java:166-184 | one pass of the reader fills the slots whose mask bit is set, in ascending order, reads the biome bytes for a full column, and yields exactly the pass `ReadAttempt` describes: a column with the unread bytes, or a throw |
| ChunkColumn.ReadColumn | src/main/java/com/github/steveice10/mc/protocol/util/NetUtil.java:165-196 | with sky light assumed, leftover bytes are accepted and only a failed read is an error; without it, a clean pass is the answer and a failure or leftover bytes retry once with sky light |
| ChunkColumn.WriteSlot | src/main/java/com/github/steveice10/mc/protocol/util/NetUtil.java:202-207 | one pass of the loop keeps both loop invariants: the mask holds exactly the sent flags of the slots visited, and the output followed by the encoding of the remaining slots is the encoding of the whole column |
| ChunkColumn.WriteSlots | src/main/java/com/github/steveice10/mc/protocol/util/NetUtil.java:199-209 | the loop writes the present sections that are sent (for a full column only the non-empty ones) in ascending slot order, with sky light only when requested, and its mask has bit i set exactly when slot i was sent, below 2^16 |
| ChunkColumn.WriteColumn | src/main/java/com/github/steveice10/mc/protocol/util/NetUtil.java:198-212 | the output is the sent sections in ascending order (with sky light only when requested), then the biomes for a full column; mask bit i is set iff slot i is present and, for a full column, not empty; the mask fits in 16 bits |
| ChunkColumn.SectionRoundTrip | src/main/java/com/github/steveice10/mc/protocol/util/NetUtil.java:173-176 | one written section reads back with its blocks, its block light and, when sky light is on, its sky light (the counterpart is at lines 205-207 of the same file) |
| ChunkColumn.SectionsRoundTrip | src/main/java/com/github/steveice10/mc/protocol/util/NetUtil.java:171-177 | reading the written sections under the written mask gives every slot its sent section, and none for an unsent slot (the counterpart is at lines 201-209 of the same file) |
| ChunkColumn.ColumnRoundTrip | src/main/java/com/github/steveice10/mc/protocol/util/NetUtil.java:165-212 | reading a written column with the returned mask and the same sky-light setting succeeds: same x, z and tile entities, the biomes iff full, and each slot as sent |
| ChunkColumn.PartialColumnRoundTrip | src/main/java/com/github/steveice10/mc/protocol/util/NetUtil.java:165-212 | a non-full column written and read with sky light reads back exactly |
| ChunkColumn.SkyLightDetected | src/main/java/com/github/steveice10/mc/protocol/util/NetUtil.java:187-193 | with one sent section written with sky light, reading without sky light leaves bytes over, retries, and gives the same column as reading with it |
| PlayerAbilities.FlagByteBits | src/main/java/com/github/steveice10/mc/protocol/packet/ingame/server/entity/player/ServerPlayerAbilitiesPacket.java:47-64 | the written flag value has 0x01 iff invincible, 0x02 iff flying, 0x04 iff can-fly and 0x08 iff creative, and lies in 0..15 (the flag constants are at lines 21-24 of the same file) |
| PlayerAbilities.RewriteKeepsLowBits | src/main/java/com/github/steveice10/mc/protocol/packet/ingame/server/entity/player/ServerPlayerAbilitiesPacket.java:34-64 | writing back what was read gives `flags & 0x0F`: every other bit is ignored |
| PlayerAbilities.RoundTrip | src/main/java/com/github/steveice10/mc/protocol/packet/ingame/server/entity/player/ServerPlayerAbilitiesPacket.java:34-67 | reading a written packet gives all four booleans and both speeds back, reading flags, fly speed and walk speed in that order |
| PlayerAbilities.ServerPlayerAbilitiesPacket.Read | src/main/java/com/github/steveice10/mc/protocol/packet/ingame/server/entity/player/ServerPlayerAbilitiesPacket.java:34-43 | sets each boolean iff its bit is set, then the two speeds; when input runs out, the fields assigned before the failing read keep their new values |
| PlayerAbilities.ServerPlayerAbilitiesPacket.Write | src/main/java/com/github/steveice10/mc/protocol/packet/ingame/server/entity/player/ServerPlayerAbilitiesPacket.java:46-68 | or-ing the flags one at a time gives the encoding of the packet's six fields |
| ServerSide.IrrelevantPacketIgnored | src/main/java/com/github/steveice10/mc/protocol/ServerListener.java:60-107 | a packet the current sub-protocol does not react to changes nothing |
| ServerSide.HandshakeTransitions | src/main/java/com/github/steveice10/mc/protocol/ServerListener.java:63-74 | status intent moves to Status; login intent moves to Login, changes nothing else but the log, and disconnects "Outdated server!" for a newer client, "Outdated client!" for an older one and not at all for an equal one; any other intent throws and changes nothing |
| ServerSide.LoginStartBehaviour | src/main/java/com/github/steveice10/mc/protocol/ServerListener.java:76-81 | LoginStart records the name and changes nothing else but the log: it sends an encryption request with the verify token iff the verify-users flag is present and true, and otherwise starts authentication without a key |
| ServerSide.NonceCheck | src/main/java/com/github/steveice10/mc/protocol/ServerListener.java:82-92 | a token mismatch only disconnects with "Invalid nonce!"; a match enables encryption with the key, then starts authentication with it; either way nothing but the log changes |
| ServerSide.StatusReplies | src/main/java/com/github/steveice10/mc/protocol/ServerListener.java:94-102 | a query is answered from the builder flag or the default ("A Minecraft Server", player counts 0 and 20); a ping's time comes back unchanged in the pong |
| ServerSide.KeepAliveMatching | src/main/java/com/github/steveice10/mc/protocol/ServerListener.java:104-106 | a keep-alive with the last ping id sets the ping flag to `now - lastPingTime` (64-bit); any other id changes nothing |
| ServerSide.PingMeasured | src/main/java/com/github/steveice10/mc/protocol/ServerListener.java:104-106 | a tick at `t` followed by the echo of `(int) t` stores `now - t` as the ping (the counterpart is at lines 176-179 of the same file) |
| ServerSide.UserAuthOutcomes | src/main/java/com/github/steveice10/mc/protocol/ServerListener.java:146-167 | verify defaults to true; the service is asked only with verify on and a key; a request error only disconnects; a null profile disconnects but is still stored and the threshold sent; otherwise the offline or looked-up profile is stored and the threshold (256 by default) sent |
| ServerSide.SentTransitions | src/main/java/com/github/steveice10/mc/protocol/ServerListener.java:110-121 | after compression is sent, the threshold is set and then login success is sent with the stored profile; after login success, Game, the login handler if installed, then keep-alive |
| ServerSide.DisconnectPacketChoice | src/main/java/com/github/steveice10/mc/protocol/ServerListener.java:124-138 | escape iff the reason is present and not JSON; LoginDisconnect only in Login, ServerDisconnect only in Game, nothing otherwise |
| ServerSide.ReceivedKeepsFlagsTyped | src/main/java/com/github/steveice10/mc/protocol/ServerListener.java:106 | every packet handler, including the keep-alive echo that stores the ping, leaves each flag at the type of its key |
| ServerSide.EventsKeepFlagsTyped | src/main/java/com/github/steveice10/mc/protocol/ServerListener.java:56 | the connection event, which zeroes the ping, and the sent-packet events leave each flag at the type of its key |
| ServerSide.TasksKeepFlagsTyped | src/main/java/com/github/steveice10/mc/protocol/ServerListener.java:163 | the authentication step, which stores the profile, and the keep-alive tick leave each flag at the type of its key |
| ServerSide.OfflineLogin | src/main/java/com/github/steveice10/mc/protocol/ServerListener.java:63-167 | handshake, LoginStart with verification off (the flag false or unset), authentication and the two sent-packet events end in Game with the offline profile stored and sent |
| ServerSide.ServerListener.constructor | src/main/java/com/github/steveice10/mc/protocol/ServerListener.java:43-52 | a new listener has the given random token, empty server id and name, ping time and id 0, in the handshake |
| ServerSide.ServerListener.Connected | src/main/java/com/github/steveice10/mc/protocol/ServerListener.java:55-57 | the ping flag becomes 0 |
| ServerSide.ServerListener.PacketReceived | src/main/java/com/github/steveice10/mc/protocol/ServerListener.java:60-107 | the four sub-protocol blocks run in order on the fields, each seeing the sub-protocol the ones before left |
| ServerSide.ServerListener.PacketSent | src/main/java/com/github/steveice10/mc/protocol/ServerListener.java:110-121 | as the sent-packet transitions, on the fields |
| ServerSide.ServerListener.Disconnecting | src/main/java/com/github/steveice10/mc/protocol/ServerListener.java:124-138 | as the disconnect choice, on the fields |
| ServerSide.ServerListener.RunUserAuth | src/main/java/com/github/steveice10/mc/protocol/ServerListener.java:146-167 | as the authentication outcomes, on the fields, returning early on a request error |
| ServerSide.ServerListener.KeepAlive | src/main/java/com/github/steveice10/mc/protocol/ServerListener.java:176-179 | one tick sets `lastPingTime = now`, `lastPingId = (int) now` and sends that id |
| ClientSide.IrrelevantPacketIgnored | src/main/java/com/github/steveice10/mc/protocol/ClientListener.java:41-94 | a packet the current sub-protocol does not react to, such as a keep-alive during login, changes nothing |
| ClientSide.EncryptionRequestHandling | src/main/java/com/github/steveice10/mc/protocol/ClientListener.java:46-66 | each join failure disconnects with its own reason and sends nothing; a successful join sends the response echoing the server's verify token before encryption is enabled |
| ClientSide.LoginSuccessEntersGame | src/main/java/com/github/steveice10/mc/protocol/ClientListener.java:67-69 | login success stores the profile and moves to Game |
| ClientSide.DisconnectAndCompression | src/main/java/com/github/steveice10/mc/protocol/ClientListener.java:70-92 | both disconnect packets disconnect with their reason and both compression packets set the threshold |
| ClientSide.StatusExchange | src/main/java/com/github/steveice10/mc/protocol/ClientListener.java:74-85 | a response goes to the info handler if installed, then a ping stamped `now` is sent; a pong reports `now - pingTime` to its handler if installed, then disconnects "Finished" |
| ClientSide.KeepAliveEcho | src/main/java/com/github/steveice10/mc/protocol/ClientListener.java:86-88 | a server keep-alive is answered with a client keep-alive of the same id |
| ClientSide.HandshakeThenStart | src/main/java/com/github/steveice10/mc/protocol/ClientListener.java:96-117 | the handshake (pinned version, login or status intent) is sent only for a login or status target; once sent, the client is in its target and sends LoginStart with the profile's name (or "") or a status query |
| ClientSide.StatusSession | src/main/java/com/github/steveice10/mc/protocol/ClientListener.java:74-117 | a status client sends handshake, query and ping, then disconnects "Finished" |
| ClientSide.ClientListener.PacketReceived | src/main/java/com/github/steveice10/mc/protocol/ClientListener.java:41-94 | the Login, Status and Game branches on the fields |
| ClientSide.ClientListener.PacketSent | src/main/java/com/github/steveice10/mc/protocol/ClientListener.java:96-107 | the handshake transition on the fields |
| ClientSide.ClientListener.Connected | src/main/java/com/github/steveice10/mc/protocol/ClientListener.java:109-117 | the handshake on the fields |
| AutoAuth.MojangFirst | src/main/java/com/github/steveice10/mc/protocol/AutoAuthenticationService.java:99-107 | Mojang gets the stored credentials; its success selects Mojang, throws nothing and leaves Microsoft untouched |
| AutoAuth.FallbackOnInvalidCredentials | src/main/java/com/github/steveice10/mc/protocol/AutoAuthenticationService.java:108-116 | invalid credentials lead to Microsoft with the same credentials; its success selects Microsoft, its failure propagates and leaves the selection as it was |
| AutoAuth.OtherFailurePropagates | src/main/java/com/github/steveice10/mc/protocol/AutoAuthenticationService.java:99-117 | any other Mojang failure propagates, Microsoft is never asked and the selection is unchanged |
| AutoAuth.LoginRoutesToAcceptingProvider | src/main/java/com/github/steveice10/mc/protocol/AutoAuthenticationService.java:39-56 | after a normal return the selected provider is the one that accepted (Mojang exactly when Mojang accepted), logged in with that login's token, properties, profiles and selected profile; after a throw the selection is unchanged (the counterpart is at lines 98-117 of the same file) |
| AutoAuth.AutoAuthenticationService.constructor | src/main/java/com/github/steveice10/mc/protocol/AutoAuthenticationService.java:28-32 | both providers are created with the client token; no credentials and no auth type |
| AutoAuth.AutoAuthenticationService.SetAccessToken | src/main/java/com/github/steveice10/mc/protocol/AutoAuthenticationService.java:48-51 | only the selected provider's token changes, and reading it back gives the new token |
| AutoAuth.AutoAuthenticationService.SetUsername | src/main/java/com/github/steveice10/mc/protocol/AutoAuthenticationService.java:58-66 | the name is held here and nothing else changes |
| AutoAuth.AutoAuthenticationService.SetPassword | src/main/java/com/github/steveice10/mc/protocol/AutoAuthenticationService.java:68-76 | the password is held here and nothing else changes |
| AutoAuth.AutoAuthenticationService.Logout | src/main/java/com/github/steveice10/mc/protocol/AutoAuthenticationService.java:93-96 | only the selected provider logs out |
| AutoAuth.AutoAuthenticationService.Login | src/main/java/com/github/steveice10/mc/protocol/AutoAuthenticationService.java:98-117 | the new fields and the exception that propagates are those of the fallback login; after a normal return `isLoggedIn`, `getAccessToken`, `getProperties`, `getAvailableProfiles` and `getSelectedProfile` on the object answer from the login that accepted (the getters are at lines 39-91); after a throw the selection is unchanged |
| Conversation.HandshakeAccepted | src/main/java/com/github/steveice10/mc/protocol/ClientListener.java:109-117 | a login client's handshake moves the server to Login, and the server disconnects iff the protocol versions differ |
| Conversation.NonceRoundTrip | src/main/java/com/github/steveice10/mc/protocol/ClientListener.java:46-66 | the client's answer to a verifying server's encryption request passes the server's nonce check, so the server enables encryption with the client's key |
| Conversation.KeepAliveRoundTrip | src/main/java/com/github/steveice10/mc/protocol/ClientListener.java:86-88 | the client's echo of a server keep-alive sets the server's ping to the time since the tick |
| Conversation.StatusPingRoundTrip | src/main/java/com/github/steveice10/mc/protocol/ClientListener.java:79-84 | the server's pong returns the client's time stamp, so the client reports the elapsed time and finishes |

## Left out

- `NetInput`/`NetOutput` are not part of this model. The varint, string, UUID, float and fixed-width encodings in `wire.dfy` are the protocol's usual ones, written out concretely.
- Tag contents (`NBTIO`) are not modelled. A present tag is a compound-type byte, a short length and opaque bytes, and only presence is observable.
- Floats (metadata floats, rotations and the ability speeds) are carried as opaque 32-bit patterns.
- `MagicValues` is not part of this model. Metadata type ids follow declaration order 0..13 and block-face ids 0..5.
- `BlockStorage` and `NibbleArray3d` internals are not part of this model. A block storage is a length-prefixed byte string and a nibble array is 2048 raw bytes. `Chunk.isEmpty` is a parameter of the writer.
- WriteColumn: requires exactly sixteen slots. The reader always builds sixteen (NetUtil.java line 170), and the `Column` class that holds them is not part of this model. For another length the Java writer visits every slot it is given, with `1 << index` wrapping from slot 32 on; that is not modelled.
- WriteColumn: also requires sky light in every sent section when sky light is written, and biome data for a full column. Java throws a null-pointer exception for those inputs (NetUtil.java lines 207 and 210); the model does not describe that exception.
- ItemRoundTrip: requires the item's fields to fit their wire widths, because Java's `writeShort` and `writeByte` truncate. ItemWrapsAround states what happens to every other item whose tag fits. A tag payload of 2^16 bytes or more is not modelled, since tag contents themselves are not.
- MetadataValueRoundTrip, EntryRoundTrip and MetadataRoundTrip: require every value in range in the same sense, for the same reason. For out-of-range values, the model states what happens only for items (ItemWrapsAround) and block states (BlockStateWrapsId). Out-of-range positions and strings of 2^31 bytes or more are not modelled.
- BlockStateRoundTrip: requires the id to fit 28 signed bits. BlockStateWrapsId states what happens to every other id.
- MaskBit: Java's `(mask & (1 << index)) != 0` is stated arithmetically, as digit `index` of the mask's 32-bit pattern (MaskBitsDigits). The model does not prove that this equals the bitwise `&` on a 32-bit vector.
- Cryptography is left out: key generation, the key pair, the server-id hash, RSA decryption of the response's key and token, and the cipher itself. Keys and tokens are opaque values compared only for equality, and enabling encryption is an action in the log.
- Threads and sleeping are left out. `UserAuthTask.run` is one step. `KeepAliveTask` is one tick, and its `isConnected` loop and two-second sleep are not modelled.
- The clock is a parameter `now`, and the random verify token is a constructor parameter.
- The session-service calls (`getProfileByServer`, `joinServer`) and the provider `login` flows are parameters (`ProfileLookup`, `JoinResult`, `LoginResult`). The arguments those calls receive (the server hash, the stored profile and the access token) are not modelled.
- `session.disconnect` becomes a `Disconnected` action. The `disconnecting` event it raises is modelled as its own handler and is not chained automatically. The exception given as a disconnect's cause is dropped.
- The JSON parse in `disconnecting` is a parameter saying whether the reason parses as JSON.
- The status info builder flag is represented by the status it builds. The status's icon and trailing boolean are not modelled.
- `MinecraftConstants` is not part of this model. The game version, the protocol version and `VersionInfo.CURRENT` come from the listener's constructor.
- The `PlayerInfo` class is not part of this model. The default status passes 0 and then 20 to its constructor. The model keeps that order under the field names `maxPlayers` and `onlinePlayers`, which would advertise 20 players online out of a maximum of 0.
- Session flags hold values of the type their key expects. A flag of the wrong type is a `ClassCastException` in Java. The model treats it as absent, and the verify-users default then applies.
- `ProviderLogin` and `ProviderLogout` describe a provider's observable fields after its own login and logout. The providers' internals, a failed login's effect on a provider's other fields, and a `RequestException` from logout are not modelled. The console logging in `login` and the stack trace `readColumn` prints before its "Failed to read chunk data." exception are left out.
- OfflineProfile: Java derives the offline id with `UUID.nameUUIDFromBytes`, an MD5 (type 3) UUID of the platform-charset bytes of "OfflinePlayer:" followed by the name (ServerListener.java line 161). The model keeps the seed string itself in a separate `NameBasedId` kind. So in the model, offline ids are injective in the name by construction and never equal a session-service UUID. The hash, its possible collisions and the charset are not modelled.
- The encryption request's public key and the handshake's other fields that the listeners do not inspect are not modelled.
