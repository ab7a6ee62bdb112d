/**
 * The server side of a connection: answers the handshake, runs the login
 * exchange (verify token, encryption, authentication, compression, login
 * success), serves status queries and pings, and measures latency from
 * keep-alives once the game has started.
 *
 * The listener's own fields, its session's sub-protocol, the session flags
 * and a log of its effects form a `ServerState`; each handler is a function
 * on that state, and the `ServerListener` class performs the same steps on
 * its fields.
 */
module ServerSide {
  import opened Wire
  import opened Optional
  import opened Protocol

  datatype ServerState = ServerState(
    protocolVersion: int, gameVersion: string,
    verifyToken: seq<Byte>, serverId: string, username: string,
    lastPingTime: Int64, lastPingId: Int32,
    subProtocol: SubProtocol, flags: Flags, log: seq<Action>)

  /** A handler either returns or throws "Invalid client intent". */
  datatype Outcome = Handled | InvalidIntent(intent: HandshakeIntent)

  /** What the session-service lookup by server hash gave. */
  datatype ProfileLookup = LookupResult(profile: Option<GameProfile>) | LookupRequestError

  const DefaultThreshold := 256

  function Emit(st: ServerState, a: Action): ServerState
  {
    st.(log := st.log + [a])
  }

  function OutdatedServerReason(gameVersion: string): string { "Outdated server! I'm still on " + gameVersion + "." }
  function OutdatedClientReason(gameVersion: string): string { "Outdated client! Please use " + gameVersion + "." }

  /** The answer to a status query when no info builder is installed. */
  function DefaultStatus(st: ServerState): ServerStatusInfo
  {
    ServerStatusInfo(VersionInfo(st.gameVersion, st.protocolVersion), PlayerInfo(0, 20, []), "A Minecraft Server")
  }

  function StatusFor(st: ServerState): ServerStatusInfo
  {
    if ServerInfoBuilderKey in st.flags && st.flags[ServerInfoBuilderKey].InfoBuilderFlag?
    then st.flags[ServerInfoBuilderKey].info
    else DefaultStatus(st)
  }

  // ---- packetReceived, one sub-protocol block at a time --------------------------------

  function OnHandshake(st: ServerState, p: Packet): (ServerState, Outcome)
  {
    if st.subProtocol == Handshake && p.HandshakePacket? then
      match p.intent
      case StatusIntent => (st.(subProtocol := Status), Handled)
      case LoginIntent =>
        var st1 := st.(subProtocol := Login);
        if p.protocolVersion > st.protocolVersion then (Emit(st1, Disconnected(Some(OutdatedServerReason(st.gameVersion)))), Handled)
        else if p.protocolVersion < st.protocolVersion then (Emit(st1, Disconnected(Some(OutdatedClientReason(st.gameVersion)))), Handled)
        else (st1, Handled)
      case OtherIntent(_) => (st, InvalidIntent(p.intent))
    else (st, Handled)
  }

  function OnLogin(st: ServerState, p: Packet): ServerState
  {
    if st.subProtocol != Login then st
    else if p.LoginStartPacket? then
      var st1 := st.(username := p.username);
      if VerifyUsersOn(st.flags) then Emit(st1, Sent(EncryptionRequestPacket(st.serverId, st.verifyToken)))
      else Emit(st1, AuthStarted(None))
    else if p.EncryptionResponsePacket? then
      if st.verifyToken != p.verifyToken then Emit(st, Disconnected(Some("Invalid nonce!")))
      else Emit(Emit(st, EncryptionEnabled(p.secretKey)), AuthStarted(Some(p.secretKey)))
    else st
  }

  function OnStatus(st: ServerState, p: Packet): ServerState
  {
    if st.subProtocol != Status then st
    else if p.StatusQueryPacket? then Emit(st, Sent(StatusResponsePacket(StatusFor(st))))
    else if p.StatusPingPacket? then Emit(st, Sent(StatusPongPacket(p.pingTime)))
    else st
  }

  function OnGame(st: ServerState, p: Packet, now: Int64): ServerState
  {
    if st.subProtocol == Game && p.ClientKeepAlivePacket? && p.pingId == st.lastPingId
    then st.(flags := st.flags[PingKey := NumberFlag(ToInt64(now - st.lastPingTime))])
    else st
  }

  /**
   * `packetReceived`: the four blocks run in order, each testing the
   * sub-protocol as the previous blocks left it; the nonce failure returns
   * early, which skips only blocks that could not apply anyway.
   */
  function Received(st: ServerState, p: Packet, now: Int64): (ServerState, Outcome)
  {
    var (st1, outcome) := OnHandshake(st, p);
    if outcome.InvalidIntent? then (st1, outcome)
    else (OnGame(OnStatus(OnLogin(st1, p), p), p, now), Handled)
  }

  // ---- the other events ------------------------------------------------------------

  /** `connected`: the ping flag starts at 0. */
  function OnConnected(st: ServerState): ServerState
  {
    st.(flags := st.flags[PingKey := NumberFlag(0)])
  }

  /** `packetSent`. */
  function OnSent(st: ServerState, p: Packet): ServerState
  {
    if p.LoginSetCompressionPacket? then
      Emit(Emit(st, ThresholdSet(p.threshold)), Sent(LoginSuccessPacket(ProfileOf(st.flags))))
    else if p.LoginSuccessPacket? then
      var st1 := st.(subProtocol := Game);
      var st2 := if HasHandler(st.flags, ServerLoginHandlerKey) then Emit(st1, LoginHandlerCalled) else st1;
      Emit(st2, KeepAliveStarted)
    else st
  }

  /** Whether a disconnect reason is sent as an escaped plain string rather than as chat JSON. */
  predicate Escape(reason: Option<string>, parsesAsJson: bool)
  {
    reason.Some? && !parsesAsJson
  }

  /** `disconnecting`; `parsesAsJson` stands for whether the JSON parser accepts the reason. */
  function OnDisconnecting(st: ServerState, reason: Option<string>, parsesAsJson: bool): ServerState
  {
    var escape := Escape(reason, parsesAsJson);
    if st.subProtocol == Login then Emit(st, Sent(LoginDisconnectPacket(reason, escape)))
    else if st.subProtocol == Game then Emit(st, Sent(ServerDisconnectPacket(reason, escape)))
    else st
  }

  /** The `verify` switch of the authentication task: the flag, or true when it is unset. */
  predicate VerifyFlagOrDefault(flags: Flags)
  {
    if VerifyUsersKey in flags && flags[VerifyUsersKey].BoolFlag? then flags[VerifyUsersKey].enabled else true
  }

  function ThresholdOrDefault(flags: Flags): Int32
  {
    if ServerCompressionThresholdKey in flags && flags[ServerCompressionThresholdKey].NumberFlag?
       && -0x8000_0000 <= flags[ServerCompressionThresholdKey].number < 0x8000_0000
    then flags[ServerCompressionThresholdKey].number
    else DefaultThreshold
  }

  /** `UserAuthTask.run` as one step; `lookup` is what the session service answers when it is asked. */
  function UserAuth(st: ServerState, key: Option<SecretKey>, lookup: ProfileLookup): ServerState
  {
    if VerifyFlagOrDefault(st.flags) && key.Some? then
      if lookup.LookupRequestError? then Emit(st, Disconnected(Some("Failed to make session service request.")))
      else
        var st1 := if lookup.profile.None? then Emit(st, Disconnected(Some("Failed to verify username."))) else st;
        FinishAuth(st1, lookup.profile)
    else FinishAuth(st, Some(OfflineProfile(st.username)))
  }

  /** Store the profile, then send the compression threshold. */
  function FinishAuth(st: ServerState, profile: Option<GameProfile>): ServerState
  {
    var st1 := st.(flags := st.flags[ProfileKey := ProfileFlag(profile)]);
    Emit(st1, Sent(LoginSetCompressionPacket(ThresholdOrDefault(st.flags))))
  }

  /** One pass of `KeepAliveTask`'s loop at time `now`. */
  function KeepAliveTick(st: ServerState, now: Int64): ServerState
  {
    var id := ToInt32(now);
    Emit(st.(lastPingTime := now, lastPingId := id), Sent(ServerKeepAlivePacket(id)))
  }

  // ---- properties -----------------------------------------------------------------

  /** The packets each sub-protocol's block reacts to. */
  predicate Relevant(sub: SubProtocol, p: Packet)
  {
    match sub
    case Handshake => p.HandshakePacket?
    case Login => p.LoginStartPacket? || p.EncryptionResponsePacket?
    case Status => p.StatusQueryPacket? || p.StatusPingPacket?
    case Game => p.ClientKeepAlivePacket?
  }

  /** A packet the current sub-protocol does not react to changes nothing. */
  lemma IrrelevantPacketIgnored(st: ServerState, p: Packet, now: Int64)
    requires !Relevant(st.subProtocol, p)
    ensures Received(st, p, now) == (st, Handled)
  {
  }

  /**
   * The handshake: a status intent moves to Status; a login intent moves to
   * Login and disconnects with the outdated-server reason for a newer client,
   * the outdated-client reason for an older one and not at all for an equal
   * one; any other intent throws and changes nothing.
   */
  lemma HandshakeTransitions(st: ServerState, version: int, host: string, port: int, intent: HandshakeIntent, now: Int64)
    requires st.subProtocol == Handshake
    ensures var (r, outcome) := Received(st, HandshakePacket(version, host, port, intent), now);
      && (intent == StatusIntent ==> outcome == Handled && r == st.(subProtocol := Status))
      && (intent == LoginIntent ==>
            outcome == Handled
            && r == st.(subProtocol := Login,
                        log := st.log + (if version > st.protocolVersion then [Disconnected(Some(OutdatedServerReason(st.gameVersion)))]
                                         else if version < st.protocolVersion then [Disconnected(Some(OutdatedClientReason(st.gameVersion)))]
                                         else [])))
      && (intent.OtherIntent? ==> outcome == InvalidIntent(intent) && r == st)
  {
  }

  /** LoginStart records the name, then asks for encryption iff user verification is on, and otherwise starts offline authentication. */
  lemma LoginStartBehaviour(st: ServerState, name: string, now: Int64)
    requires st.subProtocol == Login
    ensures var (r, outcome) := Received(st, LoginStartPacket(name), now);
      outcome == Handled
      && r == st.(username := name,
                  log := st.log + [if VerifyUsersOn(st.flags) then Sent(EncryptionRequestPacket(st.serverId, st.verifyToken))
                                   else AuthStarted(None)])
  {
  }

  /**
   * The verify-token check: a mismatch only disconnects with "Invalid nonce!";
   * a match enables encryption with the response's key and then starts
   * authentication with it.
   */
  lemma NonceCheck(st: ServerState, key: SecretKey, token: seq<Byte>, now: Int64)
    requires st.subProtocol == Login
    ensures var (r, outcome) := Received(st, EncryptionResponsePacket(key, token), now);
      outcome == Handled
      && (token != st.verifyToken ==> r == st.(log := st.log + [Disconnected(Some("Invalid nonce!"))]))
      && (token == st.verifyToken ==> r == st.(log := st.log + [EncryptionEnabled(key), AuthStarted(Some(key))]))
  {
  }

  /** Status queries are answered from the builder flag or the default; pings are echoed with the same time. */
  lemma StatusReplies(st: ServerState, t: Int64, now: Int64)
    requires st.subProtocol == Status
    ensures Received(st, StatusQueryPacket, now).0.log == st.log + [Sent(StatusResponsePacket(StatusFor(st)))]
    ensures Received(st, StatusPingPacket(t), now).0.log == st.log + [Sent(StatusPongPacket(t))]
    ensures ServerInfoBuilderKey !in st.flags ==>
      StatusFor(st).players == PlayerInfo(0, 20, []) && StatusFor(st).description == "A Minecraft Server"
  {
  }

  /** A client keep-alive with the last ping id sets the ping flag to the elapsed time; any other id changes nothing. */
  lemma KeepAliveMatching(st: ServerState, id: Int32, now: Int64)
    requires st.subProtocol == Game
    ensures var (r, outcome) := Received(st, ClientKeepAlivePacket(id), now);
      outcome == Handled
      && (id == st.lastPingId ==> r == st.(flags := st.flags[PingKey := NumberFlag(ToInt64(now - st.lastPingTime))]))
      && (id != st.lastPingId ==> r == st)
  {
  }

  /** A tick followed by the client's echo of its id stores the time between them as the ping. */
  lemma PingMeasured(st: ServerState, sentAt: Int64, now: Int64)
    requires st.subProtocol == Game
    ensures var r := Received(KeepAliveTick(st, sentAt), ClientKeepAlivePacket(ToInt32(sentAt)), now).0;
      PingKey in r.flags && r.flags[PingKey] == NumberFlag(ToInt64(now - sentAt))
      && r.log == st.log + [Sent(ServerKeepAlivePacket(ToInt32(sentAt)))]
  {
  }

  /**
   * The authentication step: the service is asked only when verification is
   * on (or unset) and a key exists; a request error only disconnects; a
   * missing profile disconnects but still stores the null profile and sends
   * the threshold; otherwise the offline or looked-up profile is stored and
   * the threshold (256 by default) is sent.
   */
  lemma UserAuthOutcomes(st: ServerState, key: Option<SecretKey>, lookup: ProfileLookup)
    ensures var r := UserAuth(st, key, lookup);
      var online := VerifyFlagOrDefault(st.flags) && key.Some?;
      var compression := Sent(LoginSetCompressionPacket(ThresholdOrDefault(st.flags)));
      && (!online ==> r.flags == st.flags[ProfileKey := ProfileFlag(Some(OfflineProfile(st.username)))]
                      && r.log == st.log + [compression])
      && (online && lookup.LookupRequestError? ==>
            r == st.(log := st.log + [Disconnected(Some("Failed to make session service request."))]))
      && (online && lookup == LookupResult(None) ==>
            r.flags == st.flags[ProfileKey := ProfileFlag(None)]
            && r.log == st.log + [Disconnected(Some("Failed to verify username.")), compression])
      && (online && lookup.LookupResult? && lookup.profile.Some? ==>
            r.flags == st.flags[ProfileKey := ProfileFlag(lookup.profile)] && r.log == st.log + [compression])
    ensures VerifyUsersKey !in st.flags ==> VerifyFlagOrDefault(st.flags)
    ensures ServerCompressionThresholdKey !in st.flags ==> ThresholdOrDefault(st.flags) == 256
  {
  }

  /**
   * After the compression packet goes out the threshold is applied and then
   * login success is sent with the stored profile; after login success the
   * game starts, the login handler runs if installed, then keep-alive starts.
   */
  lemma SentTransitions(st: ServerState, threshold: Int32, profile: Option<GameProfile>)
    ensures OnSent(st, LoginSetCompressionPacket(threshold))
      == st.(log := st.log + [ThresholdSet(threshold), Sent(LoginSuccessPacket(ProfileOf(st.flags)))])
    ensures var r := OnSent(st, LoginSuccessPacket(profile));
      r.subProtocol == Game && r.flags == st.flags
      && r.log == st.log + (if HasHandler(st.flags, ServerLoginHandlerKey) then [LoginHandlerCalled] else []) + [KeepAliveStarted]
  {
  }

  /** The disconnect packet matches the sub-protocol; none is sent during handshake or status. */
  lemma DisconnectPacketChoice(st: ServerState, reason: Option<string>, parsesAsJson: bool)
    ensures var r := OnDisconnecting(st, reason, parsesAsJson);
      var escape := reason.Some? && !parsesAsJson;
      && (st.subProtocol == Login ==> r.log == st.log + [Sent(LoginDisconnectPacket(reason, escape))])
      && (st.subProtocol == Game ==> r.log == st.log + [Sent(ServerDisconnectPacket(reason, escape))])
      && (st.subProtocol == Handshake || st.subProtocol == Status ==> r == st)
    ensures reason.None? ==> !Escape(reason, parsesAsJson)
  {
  }

  /** The packet handlers keep every flag at the type the Java code gives it. */
  lemma ReceivedKeepsFlagsTyped(st: ServerState, p: Packet, now: Int64)
    requires FlagsTyped(st.flags)
    ensures FlagsTyped(Received(st, p, now).0.flags)
  {
  }

  /** So do the connection events. */
  lemma EventsKeepFlagsTyped(st: ServerState, p: Packet)
    requires FlagsTyped(st.flags)
    ensures FlagsTyped(OnConnected(st).flags) && FlagsTyped(OnSent(st, p).flags)
  {
  }

  /** So do the authentication step and the keep-alive tick. */
  lemma TasksKeepFlagsTyped(st: ServerState, now: Int64, key: Option<SecretKey>, lookup: ProfileLookup)
    requires FlagsTyped(st.flags)
    ensures FlagsTyped(UserAuth(st, key, lookup).flags) && FlagsTyped(KeepAliveTick(st, now).flags)
  {
  }

  /**
   * An offline login end to end: handshake at the same version, LoginStart
   * with verification off, the authentication step, and the two sent-packet
   * events leave the connection in Game with the offline profile stored.
   */
  lemma OfflineLogin(st: ServerState, name: string, host: string, port: int, now: Int64)
    requires st.subProtocol == Handshake && !VerifyUsersOn(st.flags)
    ensures var s1 := Received(st, HandshakePacket(st.protocolVersion, host, port, LoginIntent), now).0;
      var s2 := Received(s1, LoginStartPacket(name), now).0;
      var s3 := UserAuth(s2, None, LookupRequestError);
      var s4 := OnSent(s3, LoginSetCompressionPacket(ThresholdOrDefault(st.flags)));
      var s5 := OnSent(s4, LoginSuccessPacket(Some(OfflineProfile(name))));
      s5.subProtocol == Game && ProfileOf(s5.flags) == Some(OfflineProfile(name))
      && s2.log == st.log + [AuthStarted(None)]
      && Sent(LoginSuccessPacket(Some(OfflineProfile(name)))) in s5.log
  {
    var s1 := Received(st, HandshakePacket(st.protocolVersion, host, port, LoginIntent), now).0;
    var s2 := Received(s1, LoginStartPacket(name), now).0;
    var s3 := UserAuth(s2, None, LookupRequestError);
    assert ProfileOf(s3.flags) == Some(OfflineProfile(name));
  }

  // ---- the listener object ---------------------------------------------------------

  class ServerListener {
    const protocolVersion: int
    const gameVersion: string
    var verifyToken: seq<Byte>
    var serverId: string
    var username: string
    var lastPingTime: Int64
    var lastPingId: Int32
    var subProtocol: SubProtocol
    var flags: Flags
    var log: seq<Action>

    function State(): ServerState
      reads this
    {
      ServerState(protocolVersion, gameVersion, verifyToken, serverId, username,
                  lastPingTime, lastPingId, subProtocol, flags, log)
    }

    predicate Valid()
      reads this
    {
      FlagsTyped(flags) && |verifyToken| == 4
    }

    /** `token` stands for the four random bytes the constructor draws. */
    constructor (protocolVersion: int, gameVersion: string, token: seq<Byte>, flags: Flags)
      requires |token| == 4 && FlagsTyped(flags)
      ensures Valid()
      ensures State() == ServerState(protocolVersion, gameVersion, token, "", "", 0, 0, Handshake, flags, [])
    {
      this.protocolVersion := protocolVersion;
      this.gameVersion := gameVersion;
      verifyToken := token;
      serverId := "";
      username := "";
      lastPingTime := 0;
      lastPingId := 0;
      subProtocol := Handshake;
      this.flags := flags;
      log := [];
    }

    method SetFlag(k: FlagKey, v: FlagValue)
      requires Valid() && FlagTyped(k, v)
      modifies this
      ensures Valid() && State() == old(State()).(flags := old(flags)[k := v])
    {
      flags := flags[k := v];
    }

    method Connected()
      requires Valid()
      modifies this
      ensures Valid() && State() == OnConnected(old(State()))
    {
      SetFlag(PingKey, NumberFlag(0));
    }

    method PacketReceived(p: Packet, now: Int64) returns (outcome: Outcome)
      requires Valid()
      modifies this
      ensures Valid() && (State(), outcome) == Received(old(State()), p, now)
    {
      if subProtocol == Handshake && p.HandshakePacket? {
        match p.intent {
          case StatusIntent =>
            subProtocol := Status;
          case LoginIntent =>
            subProtocol := Login;
            if p.protocolVersion > protocolVersion {
              log := log + [Disconnected(Some(OutdatedServerReason(gameVersion)))];
            } else if p.protocolVersion < protocolVersion {
              log := log + [Disconnected(Some(OutdatedClientReason(gameVersion)))];
            }
          case OtherIntent(_) =>
            return InvalidIntent(p.intent);
        }
      }
      ghost var afterHandshake := State();

      if subProtocol == Login {
        if p.LoginStartPacket? {
          username := p.username;
          if VerifyUsersOn(flags) {
            log := log + [Sent(EncryptionRequestPacket(serverId, verifyToken))];
          } else {
            log := log + [AuthStarted(None)];
          }
        } else if p.EncryptionResponsePacket? {
          if verifyToken != p.verifyToken {
            log := log + [Disconnected(Some("Invalid nonce!"))];
            return Handled;
          } else {
            log := log + [EncryptionEnabled(p.secretKey)];
            log := log + [AuthStarted(Some(p.secretKey))];
          }
        }
      }
      assert State() == OnLogin(afterHandshake, p);

      if subProtocol == Status {
        if p.StatusQueryPacket? {
          var info := StatusFor(State());
          log := log + [Sent(StatusResponsePacket(info))];
        } else if p.StatusPingPacket? {
          log := log + [Sent(StatusPongPacket(p.pingTime))];
        }
      }

      if subProtocol == Game && p.ClientKeepAlivePacket? {
        if p.pingId == lastPingId {
          SetFlag(PingKey, NumberFlag(ToInt64(now - lastPingTime)));
        }
      }
      outcome := Handled;
    }

    method PacketSent(p: Packet)
      requires Valid()
      modifies this
      ensures Valid() && State() == OnSent(old(State()), p)
    {
      if p.LoginSetCompressionPacket? {
        log := log + [ThresholdSet(p.threshold)];
        log := log + [Sent(LoginSuccessPacket(ProfileOf(flags)))];
      } else if p.LoginSuccessPacket? {
        subProtocol := Game;
        if HasHandler(flags, ServerLoginHandlerKey) {
          log := log + [LoginHandlerCalled];
        }
        log := log + [KeepAliveStarted];
      }
    }

    method Disconnecting(reason: Option<string>, parsesAsJson: bool)
      requires Valid()
      modifies this
      ensures Valid() && State() == OnDisconnecting(old(State()), reason, parsesAsJson)
    {
      var escape := false;
      if reason.Some? {
        if !parsesAsJson {
          escape := true;
        }
      }
      if subProtocol == Login {
        log := log + [Sent(LoginDisconnectPacket(reason, escape))];
      } else if subProtocol == Game {
        log := log + [Sent(ServerDisconnectPacket(reason, escape))];
      }
    }

    /** `UserAuthTask.run`. */
    method RunUserAuth(key: Option<SecretKey>, lookup: ProfileLookup)
      requires Valid()
      modifies this
      ensures Valid() && State() == UserAuth(old(State()), key, lookup)
    {
      var verify := VerifyFlagOrDefault(flags);
      var profile: Option<GameProfile>;
      if verify && key.Some? {
        if lookup.LookupRequestError? {
          log := log + [Disconnected(Some("Failed to make session service request."))];
          return;
        }
        profile := lookup.profile;
        if profile.None? {
          log := log + [Disconnected(Some("Failed to verify username."))];
        }
      } else {
        profile := Some(OfflineProfile(username));
      }
      var threshold := ThresholdOrDefault(flags);
      SetFlag(ProfileKey, ProfileFlag(profile));
      log := log + [Sent(LoginSetCompressionPacket(threshold))];
    }

    /** One pass of `KeepAliveTask.run`'s loop. */
    method KeepAlive(now: Int64)
      requires Valid()
      modifies this
      ensures Valid() && State() == KeepAliveTick(old(State()), now)
    {
      lastPingTime := now;
      lastPingId := ToInt32(lastPingTime);
      log := log + [Sent(ServerKeepAlivePacket(lastPingId))];
    }
  }
}
