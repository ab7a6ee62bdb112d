/**
 * The client side of a connection: sends the handshake for the sub-protocol
 * it was created for, then either logs in (joining the session service when
 * the server asks for encryption) or performs one status query and ping,
 * and answers keep-alives once the game has started.
 */
module ClientSide {
  import opened Wire
  import opened Optional
  import opened Protocol

  datatype ClientState = ClientState(
    target: SubProtocol, protocolVersion: int,
    subProtocol: SubProtocol, flags: Flags, log: seq<Action>)

  /** What the session service's `joinServer` does: return, or throw one of three exceptions. */
  datatype JoinResult = Joined | ServiceUnavailable | InvalidSession | RequestFailed(message: string)

  function Emit(st: ClientState, a: Action): ClientState
  {
    st.(log := st.log + [a])
  }

  function JoinFailureReason(join: JoinResult): string
    requires !join.Joined?
  {
    match join
    case ServiceUnavailable => "Login failed: Authentication service unavailable."
    case InvalidSession => "Login failed: Invalid login session."
    case RequestFailed(message) => "Login failed: Authentication error: " + message
  }

  /** The name the login start carries: the stored profile's, or empty. */
  function LoginName(flags: Flags): string
  {
    match ProfileOf(flags)
    case Some(profile) => profile.name
    case None => ""
  }

  /**
   * `packetReceived`. `freshKey` is the shared key generated for an
   * encryption request, `join` what joining the session service gives, and
   * `now` the clock.
   */
  function Received(st: ClientState, p: Packet, freshKey: SecretKey, join: JoinResult, now: Int64): ClientState
  {
    if st.subProtocol == Login then
      if p.EncryptionRequestPacket? then
        if !join.Joined? then Emit(st, Disconnected(Some(JoinFailureReason(join))))
        else Emit(Emit(st, Sent(EncryptionResponsePacket(freshKey, p.verifyToken))), EncryptionEnabled(freshKey))
      else if p.LoginSuccessPacket? then
        st.(flags := st.flags[ProfileKey := ProfileFlag(p.profile)], subProtocol := Game)
      else if p.LoginDisconnectPacket? then Emit(st, Disconnected(p.reason))
      else if p.LoginSetCompressionPacket? then Emit(st, ThresholdSet(p.threshold))
      else st
    else if st.subProtocol == Status then
      if p.StatusResponsePacket? then
        var st1 := if HasHandler(st.flags, ServerInfoHandlerKey) then Emit(st, InfoHandled(p.info)) else st;
        Emit(st1, Sent(StatusPingPacket(now)))
      else if p.StatusPongPacket? then
        var st1 := if HasHandler(st.flags, ServerPingTimeHandlerKey) then Emit(st, PingTimeHandled(ToInt64(now - p.pingTime))) else st;
        Emit(st1, Disconnected(Some("Finished")))
      else st
    else if st.subProtocol == Game then
      if p.ServerKeepAlivePacket? then Emit(st, Sent(ClientKeepAlivePacket(p.pingId)))
      else if p.ServerDisconnectPacket? then Emit(st, Disconnected(p.reason))
      else if p.ServerSetCompressionPacket? then Emit(st, ThresholdSet(p.threshold))
      else st
    else st
  }

  /** `packetSent`: once the handshake is out, switch to the target and start it. */
  function OnSent(st: ClientState, p: Packet): ClientState
  {
    if p.HandshakePacket? then
      var st1 := st.(subProtocol := st.target);
      if st.target == Login then Emit(st1, Sent(LoginStartPacket(LoginName(st.flags))))
      else Emit(st1, Sent(StatusQueryPacket))
    else st
  }

  /** The handshake a client for `target` sends to `host:port`, if it sends one. */
  function HandshakeFor(target: SubProtocol, protocolVersion: int, host: string, port: int): Option<Packet>
  {
    if target == Login || target == Status
    then Some(HandshakePacket(protocolVersion, host, port, if target == Login then LoginIntent else StatusIntent))
    else None
  }

  /** `connected`. */
  function OnConnected(st: ClientState, host: string, port: int): ClientState
  {
    match HandshakeFor(st.target, st.protocolVersion, host, port)
    case Some(handshake) => Emit(st, Sent(handshake))
    case None => st
  }

  // ---- properties -----------------------------------------------------------------

  predicate Relevant(sub: SubProtocol, p: Packet)
  {
    match sub
    case Handshake => false
    case Login => p.EncryptionRequestPacket? || p.LoginSuccessPacket? || p.LoginDisconnectPacket? || p.LoginSetCompressionPacket?
    case Status => p.StatusResponsePacket? || p.StatusPongPacket?
    case Game => p.ServerKeepAlivePacket? || p.ServerDisconnectPacket? || p.ServerSetCompressionPacket?
  }

  /** Packets the current sub-protocol does not react to, and anything during the handshake, change nothing. */
  lemma IrrelevantPacketIgnored(st: ClientState, p: Packet, freshKey: SecretKey, join: JoinResult, now: Int64)
    requires !Relevant(st.subProtocol, p)
    ensures Received(st, p, freshKey, join, now) == st
  {
  }

  /**
   * An encryption request: a failed join disconnects with the matching
   * reason and sends nothing; a successful one sends the response with the
   * fresh key and the server's own verify token, and only then turns
   * encryption on.
   */
  lemma EncryptionRequestHandling(st: ClientState, serverId: string, token: seq<Byte>, freshKey: SecretKey, join: JoinResult, now: Int64)
    requires st.subProtocol == Login
    ensures var r := Received(st, EncryptionRequestPacket(serverId, token), freshKey, join, now);
      && r.subProtocol == Login && r.flags == st.flags
      && (join == ServiceUnavailable ==> r.log == st.log + [Disconnected(Some("Login failed: Authentication service unavailable."))])
      && (join == InvalidSession ==> r.log == st.log + [Disconnected(Some("Login failed: Invalid login session."))])
      && (join.RequestFailed? ==> r.log == st.log + [Disconnected(Some("Login failed: Authentication error: " + join.message))])
      && (join == Joined ==> r.log == st.log + [Sent(EncryptionResponsePacket(freshKey, token)), EncryptionEnabled(freshKey)])
  {
  }

  /** Login success stores the server's profile and enters the game; nothing is sent. */
  lemma LoginSuccessEntersGame(st: ClientState, profile: Option<GameProfile>, freshKey: SecretKey, join: JoinResult, now: Int64)
    requires st.subProtocol == Login
    ensures var r := Received(st, LoginSuccessPacket(profile), freshKey, join, now);
      r.subProtocol == Game && ProfileOf(r.flags) == profile && r.log == st.log
  {
  }

  /** Disconnect packets disconnect with the server's reason; compression packets set the threshold; both in login and in game. */
  lemma DisconnectAndCompression(st: ClientState, reason: Option<string>, escape: bool, threshold: Int32, freshKey: SecretKey, join: JoinResult, now: Int64)
    ensures st.subProtocol == Login ==>
      Received(st, LoginDisconnectPacket(reason, escape), freshKey, join, now) == Emit(st, Disconnected(reason))
      && Received(st, LoginSetCompressionPacket(threshold), freshKey, join, now) == Emit(st, ThresholdSet(threshold))
    ensures st.subProtocol == Game ==>
      Received(st, ServerDisconnectPacket(reason, escape), freshKey, join, now) == Emit(st, Disconnected(reason))
      && Received(st, ServerSetCompressionPacket(threshold), freshKey, join, now) == Emit(st, ThresholdSet(threshold))
  {
  }

  /**
   * Status: a response goes to the info handler if one is installed and is
   * followed by a ping stamped `now`; a pong reports `now - pingTime` to the
   * ping-time handler if installed, then disconnects with "Finished".
   */
  lemma StatusExchange(st: ClientState, info: ServerStatusInfo, t: Int64, freshKey: SecretKey, join: JoinResult, now: Int64)
    requires st.subProtocol == Status
    ensures Received(st, StatusResponsePacket(info), freshKey, join, now).log
      == st.log + (if HasHandler(st.flags, ServerInfoHandlerKey) then [InfoHandled(info)] else []) + [Sent(StatusPingPacket(now))]
    ensures Received(st, StatusPongPacket(t), freshKey, join, now).log
      == st.log + (if HasHandler(st.flags, ServerPingTimeHandlerKey) then [PingTimeHandled(ToInt64(now - t))] else [])
         + [Disconnected(Some("Finished"))]
  {
  }

  /** A server keep-alive is answered with a client keep-alive carrying the same id. */
  lemma KeepAliveEcho(st: ClientState, id: Int32, freshKey: SecretKey, join: JoinResult, now: Int64)
    requires st.subProtocol == Game
    ensures Received(st, ServerKeepAlivePacket(id), freshKey, join, now) == Emit(st, Sent(ClientKeepAlivePacket(id)))
  {
  }

  /**
   * The handshake is sent only for a login or status client, with the
   * matching intent; once it is sent the client is in its target
   * sub-protocol and has sent its login start (with the stored name, or
   * empty) or its status query.
   */
  lemma HandshakeThenStart(st: ClientState, host: string, port: int)
    ensures var r := OnConnected(st, host, port);
      && (st.target == Login ==> r.log == st.log + [Sent(HandshakePacket(st.protocolVersion, host, port, LoginIntent))])
      && (st.target == Status ==> r.log == st.log + [Sent(HandshakePacket(st.protocolVersion, host, port, StatusIntent))])
      && (st.target == Game || st.target == Handshake ==> r == st)
    ensures forall version, h, pt, intent :: var r := OnSent(st, HandshakePacket(version, h, pt, intent));
      r.subProtocol == st.target
      && r.log == st.log + [Sent(if st.target == Login then LoginStartPacket(LoginName(st.flags)) else StatusQueryPacket)]
    ensures ProfileOf(st.flags).None? ==> LoginName(st.flags) == ""
  {
  }

  /**
   * A whole status query: connect, the handshake goes out, the response
   * and the pong arrive; the client ends having sent its ping stamped with
   * the response time and disconnected with "Finished".
   */
  lemma StatusSession(st: ClientState, host: string, port: int, info: ServerStatusInfo,
                      freshKey: SecretKey, join: JoinResult, respondedAt: Int64, pongAt: Int64)
    requires st.target == Status && st.subProtocol == Handshake
    requires !HasHandler(st.flags, ServerInfoHandlerKey) && !HasHandler(st.flags, ServerPingTimeHandlerKey)
    ensures var handshake := HandshakePacket(st.protocolVersion, host, port, StatusIntent);
      var s1 := OnSent(OnConnected(st, host, port), handshake);
      var s2 := Received(s1, StatusResponsePacket(info), freshKey, join, respondedAt);
      var s3 := Received(s2, StatusPongPacket(respondedAt), freshKey, join, pongAt);
      s3.log == st.log + [Sent(handshake), Sent(StatusQueryPacket), Sent(StatusPingPacket(respondedAt)), Disconnected(Some("Finished"))]
  {
  }

  // ---- the listener object ---------------------------------------------------------

  class ClientListener {
    const target: SubProtocol
    const protocolVersion: int
    var subProtocol: SubProtocol
    var flags: Flags
    var log: seq<Action>

    function State(): ClientState
      reads this
    {
      ClientState(target, protocolVersion, subProtocol, flags, log)
    }

    predicate Valid()
      reads this
    {
      FlagsTyped(flags)
    }

    constructor (target: SubProtocol, protocolVersion: int, flags: Flags)
      requires FlagsTyped(flags)
      ensures Valid() && State() == ClientState(target, protocolVersion, Handshake, flags, [])
    {
      this.target := target;
      this.protocolVersion := protocolVersion;
      subProtocol := Handshake;
      this.flags := flags;
      log := [];
    }

    method PacketReceived(p: Packet, freshKey: SecretKey, join: JoinResult, now: Int64)
      requires Valid()
      modifies this
      ensures Valid() && State() == Received(old(State()), p, freshKey, join, now)
    {
      if subProtocol == Login {
        if p.EncryptionRequestPacket? {
          if !join.Joined? {
            log := log + [Disconnected(Some(JoinFailureReason(join)))];
            return;
          }
          log := log + [Sent(EncryptionResponsePacket(freshKey, p.verifyToken))];
          log := log + [EncryptionEnabled(freshKey)];
        } else if p.LoginSuccessPacket? {
          flags := flags[ProfileKey := ProfileFlag(p.profile)];
          subProtocol := Game;
        } else if p.LoginDisconnectPacket? {
          log := log + [Disconnected(p.reason)];
        } else if p.LoginSetCompressionPacket? {
          log := log + [ThresholdSet(p.threshold)];
        }
      } else if subProtocol == Status {
        if p.StatusResponsePacket? {
          if HasHandler(flags, ServerInfoHandlerKey) {
            log := log + [InfoHandled(p.info)];
          }
          log := log + [Sent(StatusPingPacket(now))];
        } else if p.StatusPongPacket? {
          if HasHandler(flags, ServerPingTimeHandlerKey) {
            log := log + [PingTimeHandled(ToInt64(now - p.pingTime))];
          }
          log := log + [Disconnected(Some("Finished"))];
        }
      } else if subProtocol == Game {
        if p.ServerKeepAlivePacket? {
          log := log + [Sent(ClientKeepAlivePacket(p.pingId))];
        } else if p.ServerDisconnectPacket? {
          log := log + [Disconnected(p.reason)];
        } else if p.ServerSetCompressionPacket? {
          log := log + [ThresholdSet(p.threshold)];
        }
      }
    }

    method PacketSent(p: Packet)
      requires Valid()
      modifies this
      ensures Valid() && State() == OnSent(old(State()), p)
    {
      if p.HandshakePacket? {
        subProtocol := target;
        if target == Login {
          var profile := ProfileOf(flags);
          var name := if profile.Some? then profile.value.name else "";
          log := log + [Sent(LoginStartPacket(name))];
        } else {
          log := log + [Sent(StatusQueryPacket)];
        }
      }
    }

    method Connected(host: string, port: int)
      requires Valid()
      modifies this
      ensures Valid() && State() == OnConnected(old(State()), host, port)
    {
      if target == Login || target == Status {
        var intent := if target == Login then LoginIntent else StatusIntent;
        log := log + [Sent(HandshakePacket(protocolVersion, host, port, intent))];
      }
    }
  }
}
