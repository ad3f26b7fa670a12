/**
 * The values exchanged by the durable-redelivery pipeline of an MQTT broker:
 * messages read from a client's persisted log, the PUBLISH and PUBREL messages a round
 * delivers, the packets handed to the transport and the per-client persisted context.
 */
module Messages {
  import opened Wrappers

  type ClientId = string

  /** A session UUID, abstracted to a number: only equality matters. */
  type SessionId = nat

  /** The session state enum; only CONNECTED is distinguished by the processor. */
  datatype SessionState = Connecting | Connected | Disconnected

  /**
   * What one evaluation of isClientConnected observes: whether Thread.interrupted()
   * reported (and cleared) an interrupt, the client's current session id and its current
   * session state. Each evaluation in the loop is a fresh observation.
   */
  datatype ClientProbe = ClientProbe(interrupted: bool, currentSessionId: SessionId, currentState: SessionState)

  /** The session-liveness predicate that guards every side effect of the processing loop. */
  predicate IsClientConnected(sessionId: SessionId, probe: ClientProbe) {
    !probe.interrupted && probe.currentSessionId == sessionId && probe.currentState == Connected
  }

  /** A session handle: which client and which of its sessions. */
  datatype SessionRef = SessionRef(clientId: ClientId, sessionId: SessionId)

  /** The stored publish as it sits in the client's log. */
  datatype PublishProto = PublishProto(topic: string, qos: int, payload: seq<bv8>)

  /** One record polled from the client's log partition. */
  datatype LogMsg = LogMsg(offset: int, value: PublishProto)

  /** A publish ready to be sent, with the packet id and duplicate flag of this attempt. */
  datatype PublishMsg = PublishMsg(topic: string, qos: int, payload: seq<bv8>, packetId: int, isDup: bool)

  /** A message of one delivery round: a PUBLISH to send, or a PUBREL obligation carried over. */
  datatype PersistedMsg =
    | PersistedPublish(publishMsg: PublishMsg, packetOffset: int)
    | PersistedPubRel(relPacketId: int, packetOffset: int)
  {
    function PacketId(): int {
      match this
      case PersistedPublish(pm, _) => pm.packetId
      case PersistedPubRel(id, _) => id
    }
  }

  /** A packet handed to the delivery service. */
  datatype Packet =
    | PublishPacket(packetId: int, topic: string, qos: int, isDup: bool, payload: seq<bv8>)
    | PubRelPacket(packetId: int)

  /** One call of the delivery service: which session, which packet. */
  datatype Sent = Sent(session: SessionRef, packet: Packet)

  /**
   * The delivery callback passed to submitStrategy.process: a PUBLISH message becomes a
   * PUBLISH packet with its topic, QoS, duplicate flag and payload, a PUBREL message a
   * PUBREL packet; both keep the message's packet id.
   */
  function Delivery(m: PersistedMsg): (p: Packet)
    ensures p.packetId == m.PacketId()
    ensures p.PubRelPacket? <==> m.PersistedPubRel?
    ensures m.PersistedPublish? ==> p.isDup == m.publishMsg.isDup && p.topic == m.publishMsg.topic
                                    && p.qos == m.publishMsg.qos && p.payload == m.publishMsg.payload
  {
    match m
    case PersistedPublish(pm, _) => PublishPacket(pm.packetId, pm.topic, pm.qos, pm.isDup, pm.payload)
    case PersistedPubRel(id, _) => PubRelPacket(id)
  }

  /**
   * The durable per-client context loaded when processing starts: the last packet id
   * assigned, the packet id recorded for a log offset, and the PUBREL obligations
   * (offset to packet id) whose PUBCOMP never arrived.
   */
  datatype PersistedMsgCtx = PersistedMsgCtx(lastPacketId: int, offsetToPacketId: map<int, int>, pubRelMsgIds: map<int, int>)
  {
    /** getMsgPacketId: the packet id recorded for an offset, or nothing. */
    function MsgPacketId(offset: int): (r: Option<int>)
      ensures r.Some? <==> offset in offsetToPacketId
      ensures r.Some? ==> r.value == offsetToPacketId[offset]
    {
      if offset in offsetToPacketId then Some(offsetToPacketId[offset]) else None
    }
  }
}
