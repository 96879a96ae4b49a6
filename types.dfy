/** Value types shared by the model of the TUIC client packet connection:
    fixed-width integers, errors, packets, the operations the connection asks
    of its collaborators, and the trace of events those calls leave behind. */
module TuicTypes {

  newtype uint8 = x: int | 0 <= x < 0x100
  newtype uint16 = x: int | 0 <= x < 0x1_0000
  newtype uint32 = x: int | 0 <= x < 0x1_0000_0000

  type Bytes = seq<uint8>

  /** The largest payload a relay packet can carry: its size field is a uint16. */
  const MaxPayload: int := 0xffff

  datatype Option<T> = None | Some(value: T)

  datatype Result<T> = Ok(value: T) | Err(error: Error)

  /** The errors the connection returns or receives from its collaborators. */
  datatype Error =
    | ErrClosed                    // net.ErrClosed
    | MessageTooLarge(limit: int)  // quic.ErrMessageTooLarge, carrying the largest size accepted
    | EndOfStream                  // the input stream has nothing more to deliver
    | Failure(code: nat)           // any other error a collaborator reports

  /** How outbound datagrams travel: one uni-stream each, or as QUIC datagrams. */
  datatype RelayMode = Quic | Native

  /** A relay endpoint as the address codec represents it. */
  datatype Address =
    | Domain(name: string, port: uint16)
    | IPv4(ip4: seq<uint8>, port: uint16)
    | IPv6(ip6: seq<uint8>, port: uint16)

  /** One relay packet (or one fragment of a datagram). */
  datatype Packet = Packet(
    connId: uint16,
    pktId: uint16,
    fragTotal: uint8,
    fragIndex: uint8,
    size: uint16,
    addr: Address,
    data: Bytes)

  /** What is encoded into the connection's scratch buffer. */
  datatype Frame = DissociateFrame(connId: uint16) | PacketFrame(packet: Packet)

  /** A call the connection makes into the codec or the shared QUIC connection. */
  datatype Op =
    | Encode(frame: Frame)                     // NewDissociate(..).WriteTo(buf), packet.WriteTo(buf)
    | OpenUniStream                            // quicConn.OpenUniStream()
    | WriteBuf(frame: Frame)                   // buf.WriteTo(stream)
    | StreamClose                              // stream.Close()
    | SendMessage(packet: Packet)              // quicConn.SendMessage(encoded packet)
    | FragWrite(packet: Packet, maxSize: int)  // fragWriteNative(quicConn, packet, buf, maxSize)

  /** One entry of the connection's trace. */
  datatype Event =
    | Io(op: Op, outcome: Option<Error>)  // a call and the error it reported (None: success)
    | InputClose                          // inputConn.Close(), whose result is ignored
    | HealthCallback(err: Option<Error>)  // deferQuicConnFn(quicConn, err)
    | CloseCallback                       // closeDeferFn()
  {
    predicate IsCallback() { HealthCallback? || CloseCallback? }
  }

  /** The inbound framed-packet stream: what each successive ReadPacket will return. */
  datatype Reader = Reader(pending: seq<Result<Packet>>)

  /** The answer of the codec or the transport to a call, as a function of the
      trace so far: every behaviour of the collaborators is one such function. */
  type IoOracle = (seq<Event>, Op) -> Option<Error>

  /** deFragger.Feed: given the packets fed so far and a new one, either a
      complete datagram or nothing. Any deterministic defragmenter is one of these. */
  type Feeder = (seq<Packet>, Packet) -> Option<Packet>

  /** The collaborators whose code is not part of this model. */
  datatype Env = Env(
    io: IoOracle,
    parse: string -> Result<Address>,  // protocol.ParseMetadata followed by NewAddress
    rand: seq<Event> -> uint32,        // fastrand.Uint32()
    feed: Feeder,                      // deFragger.Feed
    overhead: int)                     // PacketOverHead

  /** The fields of a connection that never change after creation. */
  datatype Config = Config(
    connId: uint16,
    mode: RelayMode,
    maxSize: int,        // maxUdpRelayPacketSize
    hasHealthFn: bool,   // deferQuicConnFn != nil
    hasCloseFn: bool)    // closeDeferFn != nil

  /** uint16(x): keep the low 16 bits. */
  function Low16(x: uint32): uint16 {
    (x as int % 0x1_0000) as uint16
  }

  function Min(a: int, b: int): int { if a <= b then a else b }
}
