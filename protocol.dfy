/**
 * The vocabulary both connection listeners share: sub-protocols, the packets
 * they react to or send, the per-connection session flags, and the effects a
 * listener has on its session, recorded in order as actions.
 */
module Protocol {
  import opened Wire
  import opened Optional

  datatype SubProtocol = Handshake | Login | Game | Status

  /** What a client asks for in its handshake; `OtherIntent` is any value besides the two known ones. */
  datatype HandshakeIntent = StatusIntent | LoginIntent | OtherIntent(code: int)

  /**
   * Where a profile's UUID comes from: issued by the session service, or
   * derived from the bytes of `seed` (Java's name-based UUID, whose MD5 hash
   * is not modelled).
   */
  datatype ProfileId = ServiceId(uuid: Uuid) | NameBasedId(seed: string)

  datatype GameProfile = GameProfile(id: ProfileId, name: string)

  /** The profile a server builds when it does not verify the user. */
  function OfflineProfile(username: string): GameProfile
  {
    GameProfile(NameBasedId("OfflinePlayer:" + username), username)
  }

  /** A shared AES key; only its identity matters here. */
  datatype SecretKey = SecretKey(material: seq<Byte>)

  datatype VersionInfo = VersionInfo(name: string, protocol: int)
  datatype PlayerInfo = PlayerInfo(maxPlayers: int, onlinePlayers: int, players: seq<GameProfile>)
  datatype ServerStatusInfo = ServerStatusInfo(version: VersionInfo, players: PlayerInfo, description: string)

  /**
   * The packets the listeners look at.  An encryption response carries the
   * secret key and verify token as the server decrypts them with its private key.
   */
  datatype Packet =
    | HandshakePacket(protocolVersion: int, hostname: string, port: int, intent: HandshakeIntent)
    | LoginStartPacket(username: string)
    | EncryptionRequestPacket(serverId: string, verifyToken: seq<Byte>)
    | EncryptionResponsePacket(secretKey: SecretKey, verifyToken: seq<Byte>)
    | LoginSetCompressionPacket(threshold: Int32)
    | LoginSuccessPacket(profile: Option<GameProfile>)
    | LoginDisconnectPacket(reason: Option<string>, escape: bool)
    | StatusQueryPacket
    | StatusResponsePacket(info: ServerStatusInfo)
    | StatusPingPacket(pingTime: Int64)
    | StatusPongPacket(pingTime: Int64)
    | ClientKeepAlivePacket(pingId: Int32)
    | ServerKeepAlivePacket(pingId: Int32)
    | ServerDisconnectPacket(reason: Option<string>, escape: bool)
    | ServerSetCompressionPacket(threshold: Int32)
    | OtherPacket

  // ---- session flags ------------------------------------------------------------

  datatype FlagKey =
    | PingKey | VerifyUsersKey | ServerInfoBuilderKey | ProfileKey | ServerLoginHandlerKey
    | ServerCompressionThresholdKey | AccessTokenKey | ServerInfoHandlerKey | ServerPingTimeHandlerKey

  /**
   * A flag's value.  An info builder is represented by the status it builds;
   * a handler flag says only that a callback is installed.
   */
  datatype FlagValue =
    | NumberFlag(number: int)
    | BoolFlag(enabled: bool)
    | ProfileFlag(profile: Option<GameProfile>)
    | InfoBuilderFlag(info: ServerStatusInfo)
    | HandlerFlag
    | TokenFlag(token: Option<string>)

  /** The type each key's value has in the Java code. */
  predicate FlagTyped(k: FlagKey, v: FlagValue)
  {
    match k
    case PingKey => v.NumberFlag? && -0x8000_0000_0000_0000 <= v.number < 0x8000_0000_0000_0000
    case VerifyUsersKey => v.BoolFlag?
    case ServerInfoBuilderKey => v.InfoBuilderFlag?
    case ProfileKey => v.ProfileFlag?
    case ServerLoginHandlerKey => v.HandlerFlag?
    case ServerCompressionThresholdKey => v.NumberFlag? && -0x8000_0000 <= v.number < 0x8000_0000
    case AccessTokenKey => v.TokenFlag?
    case ServerInfoHandlerKey => v.HandlerFlag?
    case ServerPingTimeHandlerKey => v.HandlerFlag?
  }

  type Flags = map<FlagKey, FlagValue>

  predicate FlagsTyped(flags: Flags)
  {
    forall k :: k in flags ==> FlagTyped(k, flags[k])
  }

  /** `hasFlag(VERIFY_USERS_KEY) && getFlag(VERIFY_USERS_KEY)`. */
  predicate VerifyUsersOn(flags: Flags)
  {
    VerifyUsersKey in flags && flags[VerifyUsersKey].BoolFlag? && flags[VerifyUsersKey].enabled
  }

  predicate HasHandler(flags: Flags, k: FlagKey)
  {
    k in flags && flags[k].HandlerFlag?
  }

  /** `getFlag(PROFILE_KEY)`, null when unset. */
  function ProfileOf(flags: Flags): (p: Option<GameProfile>)
    ensures p.Some? ==> ProfileKey in flags && flags[ProfileKey] == ProfileFlag(p)
  {
    if ProfileKey in flags && flags[ProfileKey].ProfileFlag? then flags[ProfileKey].profile else None
  }

  lemma SetFlagTyped(flags: Flags, k: FlagKey, v: FlagValue)
    requires FlagsTyped(flags) && FlagTyped(k, v)
    ensures FlagsTyped(flags[k := v])
  {
  }

  // ---- effects -------------------------------------------------------------------

  /** What a listener does to its session, in order. */
  datatype Action =
    | Sent(packet: Packet)
    | Disconnected(reason: Option<string>)
    | EncryptionEnabled(key: SecretKey)
    | ThresholdSet(threshold: int)
    | AuthStarted(sessionKey: Option<SecretKey>)
    | LoginHandlerCalled
    | KeepAliveStarted
    | InfoHandled(info: ServerStatusInfo)
    | PingTimeHandled(millis: Int64)
}
