/** Packets on the acoustic channel and the two messages they travel in. */
module CommsPacket {

  type uint32 = x: int | 0 <= x < 0x1_0000_0000

  type int32 = x: int | -0x8000_0000 <= x < 0x8000_0000

  const NANOS: int := 1_000_000_000

  datatype Position = Position(x: real, y: real, z: real)

  datatype MsgType = RangeRequest | RangeResponse | Data

  datatype MessageType = RangeRequestMessage | RangeResponseMessage | OtherMessage

  /** Serialised payload: a ranging message carrying a request id, or anything else. */
  datatype Payload = Ranging(id: uint32) | Raw(bytes: string)

  /** The req_id field read back from a payload; unset fields read as zero. */
  function ReqId(p: Payload): uint32 {
    match p
    case Ranging(id) => id
    case Raw(_) => 0
  }

  lemma ReqIdReadsBack(id: uint32, bytes: string)
    ensures ReqId(Ranging(id)) == id && ReqId(Raw(bytes)) == 0
  {
  }

  /** LRAUVAcousticMessage */
  datatype AcousticMessage = AcousticMessage(to: uint32, from: uint32, kind: MessageType, data: Payload)

  datatype Stamp = Stamp(sec: int, nsec: int)

  /** LRAUVInternalComms: the addresses are signed there. */
  datatype InternalComms = InternalComms(
    stamp: Stamp, position: Position, to: int32, from: int32, kind: MessageType, data: Payload)

  datatype Packet = Packet(
    position: Position, to: uint32, from: uint32, kind: MsgType, timeOfTx: int, data: Payload)

  /** Integer division that drops the fraction, as duration_cast does. */
  function Truncated(a: int, b: int): int
    requires b > 0
  {
    if a >= 0 then a / b else -((-a) / b)
  }

  function AsInt32(x: uint32): int32 {
    if x < 0x8000_0000 then x else x - 0x1_0000_0000
  }

  function AsUInt32(x: int32): uint32 {
    if x >= 0 then x else x + 0x1_0000_0000
  }

  function FromMessageType(k: MessageType): MsgType {
    match k
    case RangeRequestMessage => RangeRequest
    case RangeResponseMessage => RangeResponse
    case OtherMessage => Data
  }

  function ToMessageType(k: MsgType): MessageType {
    if k == RangeRequest then RangeRequestMessage
    else if k == RangeResponse then RangeResponseMessage
    else OtherMessage
  }

  function Make(m: AcousticMessage, position: Position, timeOfTx: int): Packet {
    Packet(position, m.to, m.from, FromMessageType(m.kind), timeOfTx, m.data)
  }

  function ToExternalMsg(p: Packet): AcousticMessage {
    AcousticMessage(p.to, p.from, ToMessageType(p.kind), p.data)
  }

  function ToInternalMsg(p: Packet): InternalComms {
    var sec := Truncated(p.timeOfTx, NANOS);
    InternalComms(Stamp(sec, p.timeOfTx - sec * NANOS), p.position,
                  AsInt32(p.to), AsInt32(p.from), ToMessageType(p.kind), p.data)
  }

  function MakeInternal(m: InternalComms): Packet {
    Packet(m.position, AsUInt32(m.to), AsUInt32(m.from), FromMessageType(m.kind),
           m.stamp.sec * NANOS + m.stamp.nsec, m.data)
  }

  /** A packet survives the internal message, its time stamp included, also for times
      before the epoch; a message survives being made into a packet. */
  lemma PacketSurvives(p: Packet, m: AcousticMessage, position: Position, time: int)
    ensures MakeInternal(ToInternalMsg(p)) == p
    ensures ToExternalMsg(MakeInternal(ToInternalMsg(Make(m, position, time)))) == m
  {
    assert AsUInt32(AsInt32(p.to)) == p.to && AsUInt32(AsInt32(p.from)) == p.from;
    assert AsUInt32(AsInt32(m.to)) == m.to && AsUInt32(AsInt32(m.from)) == m.from;
  }

  /** What the two messages say of a packet: everything but the external one's position and
      time, the addresses of the internal one up to multiples of 2^32. */
  lemma MessagesSay(p: Packet)
    ensures var m := ToExternalMsg(p);
      && m.to == p.to && m.from == p.from && m.data == p.data
      && (m.kind == RangeRequestMessage <==> p.kind == RangeRequest)
      && (m.kind == RangeResponseMessage <==> p.kind == RangeResponse)
    ensures var m := ToInternalMsg(p);
      && (m.to - p.to) % 0x1_0000_0000 == 0 && (m.from - p.from) % 0x1_0000_0000 == 0
      && m.position == p.position && m.data == p.data
      && (m.kind == RangeRequestMessage <==> p.kind == RangeRequest)
      && (m.kind == RangeResponseMessage <==> p.kind == RangeResponse)
  {
  }

  /** The stamp of the internal message is normalised: whole seconds first, and a rest
      below one second of the same sign. */
  lemma StampIsNormalised(p: Packet)
    ensures var s := ToInternalMsg(p).stamp;
      && s.sec * 1_000_000_000 + s.nsec == p.timeOfTx
      && -1_000_000_000 < s.nsec < 1_000_000_000
      && (p.timeOfTx >= 0 ==> s.sec >= 0 && s.nsec >= 0)
      && (p.timeOfTx <= 0 ==> s.sec <= 0 && s.nsec <= 0)
  {
    var t := if p.timeOfTx >= 0 then p.timeOfTx else -p.timeOfTx;
    assert t == (t / NANOS) * NANOS + t % NANOS;
  }
}
