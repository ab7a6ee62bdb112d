/**
 * The two listeners against each other: what one side sends, fed to the
 * other side's handler.  These properties hold for the pair and are the
 * reason the individual handlers are shaped as they are.
 */
module Conversation {
  import opened Wire
  import opened Optional
  import opened Protocol
  import S = ServerSide
  import C = ClientSide

  /** The single packet the last action sent, if the last action was a send. */
  function LastSent(log: seq<Action>): (p: Option<Packet>)
    ensures p.Some? ==> |log| > 0 && log[|log| - 1] == Sent(p.value)
  {
    if |log| > 0 && log[|log| - 1].Sent? then Some(log[|log| - 1].packet) else None
  }

  /**
   * A login client's handshake, received by a server still in the handshake,
   * moves the server to Login; it disconnects exactly when the two protocol
   * versions differ.
   */
  lemma HandshakeAccepted(client: C.ClientState, server: S.ServerState, host: string, port: int, now: Int64)
    requires client.target == Login && server.subProtocol == Handshake
    ensures var sent := LastSent(C.OnConnected(client, host, port).log);
      && sent.Some?
      && var (r, outcome) := S.Received(server, sent.value, now);
      && outcome == S.Handled && r.subProtocol == Login
      && (r.log == server.log <==> client.protocolVersion == server.protocolVersion)
  {
  }

  /**
   * The verify-token exchange: the encryption request a verifying server
   * sends after LoginStart, answered by a client whose join succeeded, passes
   * the server's nonce check, so the server enables encryption with the
   * client's key and starts authenticating with it.
   */
  lemma NonceRoundTrip(server: S.ServerState, client: C.ClientState, name: string,
                       freshKey: SecretKey, now: Int64)
    requires server.subProtocol == Login && VerifyUsersOn(server.flags) && client.subProtocol == Login
    ensures var s1 := S.Received(server, LoginStartPacket(name), now).0;
      var request := LastSent(s1.log);
      && request == Some(EncryptionRequestPacket(server.serverId, server.verifyToken))
      && var c1 := C.Received(client, request.value, freshKey, C.Joined, now);
      && var response := c1.log[|c1.log| - 2];
      && response == Sent(EncryptionResponsePacket(freshKey, server.verifyToken))
      && S.Received(s1, response.packet, now).0.log == s1.log + [EncryptionEnabled(freshKey), AuthStarted(Some(freshKey))]
  {
  }

  /**
   * Latency measurement: the server's keep-alive, echoed by a client in the
   * game, sets the server's ping flag to the time between the tick and the
   * echo's arrival.
   */
  lemma KeepAliveRoundTrip(server: S.ServerState, client: C.ClientState, sentAt: Int64, now: Int64,
                           freshKey: SecretKey, join: C.JoinResult)
    requires server.subProtocol == Game && client.subProtocol == Game
    ensures var s1 := S.KeepAliveTick(server, sentAt);
      var ping := LastSent(s1.log);
      && ping.Some?
      && var reply := LastSent(C.Received(client, ping.value, freshKey, join, sentAt).log);
      && reply.Some?
      && var s2 := S.Received(s1, reply.value, now).0;
      && PingKey in s2.flags && s2.flags[PingKey] == NumberFlag(ToInt64(now - sentAt))
  {
    S.PingMeasured(server, sentAt, now);
  }

  /**
   * A status ping: the server's pong carries the client's time stamp back,
   * so the client reports the elapsed time to its ping-time handler.
   */
  lemma StatusPingRoundTrip(server: S.ServerState, client: C.ClientState, info: ServerStatusInfo,
                            sentAt: Int64, now: Int64, freshKey: SecretKey, join: C.JoinResult)
    requires server.subProtocol == Status && client.subProtocol == Status
    requires HasHandler(client.flags, ServerPingTimeHandlerKey)
    ensures var c1 := C.Received(client, StatusResponsePacket(info), freshKey, join, sentAt);
      var ping := LastSent(c1.log);
      && ping == Some(StatusPingPacket(sentAt))
      && var pong := LastSent(S.Received(server, ping.value, sentAt).0.log);
      && pong == Some(StatusPongPacket(sentAt))
      && var c2 := C.Received(c1, pong.value, freshKey, join, now);
      && c2.log == c1.log + [PingTimeHandled(ToInt64(now - sentAt)), Disconnected(Some("Finished"))]
  {
  }
}
