/** The client-side virtual UDP socket of TUIC, quicStreamPacketConn, as a
    class whose methods change its fields in place; each method is proved to
    do what the matching step function of PacketSpec describes. */
module PacketConn {
  import opened TuicTypes
  import opened PacketSpec

  /** sync/atomic.Bool, shared with whoever disables writes from outside. */
  class AtomicBool {
    var value: bool

    constructor (value: bool)
      ensures this.value == value
    {
      this.value := value;
    }
  }

  class QuicStreamPacketConn {
    const target: string
    const connId: uint16
    var inputConn: Option<Reader>
    const udpRelayMode: RelayMode
    const maxUdpRelayPacketSize: int
    const hasDeferQuicConnFn: bool
    const hasCloseDeferFn: bool
    const writeClosed: AtomicBool?
    /** The collaborators: the QUIC connection, the codec, the address
        parser, the random source and the defragmenter. */
    const env: Env

    var closeOnceDone: bool
    var closeErr: Option<Error>
    var closed: bool
    /** The packets fed to the embedded deFragger so far: its whole input. */
    var fed: seq<Packet>
    /** Every call made to a collaborator and every callback run, in order. */
    var events: seq<Event>

    function Cfg(): Config {
      Config(connId, udpRelayMode, maxUdpRelayPacketSize, hasDeferQuicConnFn, hasCloseDeferFn)
    }

    function State(): ConnState
      reads this
    {
      ConnState(inputConn, closed, closeOnceDone, closeErr, fed, events)
    }

    ghost predicate Valid()
      reads this
    {
      Consistent(State())
    }

    /** q.writeClosed != nil && q.writeClosed.Load() */
    function WriteDisabled(): bool
      reads writeClosed
    {
      writeClosed != null && writeClosed.value
    }

    constructor (target: string, connId: uint16, inputConn: Option<Reader>, mode: RelayMode,
                 maxSize: int, hasDeferQuicConnFn: bool, hasCloseDeferFn: bool,
                 writeClosed: AtomicBool?, env: Env)
      ensures Valid()
      ensures this.target == target && this.connId == connId && this.udpRelayMode == mode
      ensures this.maxUdpRelayPacketSize == maxSize && this.writeClosed == writeClosed
      ensures this.hasDeferQuicConnFn == hasDeferQuicConnFn && this.hasCloseDeferFn == hasCloseDeferFn
      ensures this.env == env
      ensures State() == ConnState(inputConn, false, false, None, [], [])
    {
      this.target := target;
      this.connId := connId;
      this.inputConn := inputConn;
      this.udpRelayMode := mode;
      this.maxUdpRelayPacketSize := maxSize;
      this.hasDeferQuicConnFn := hasDeferQuicConnFn;
      this.hasCloseDeferFn := hasCloseDeferFn;
      this.writeClosed := writeClosed;
      this.env := env;
      this.closeOnceDone := false;
      this.closeErr := None;
      this.closed := false;
      this.fed := [];
      this.events := [];
    }

    /** One call into a collaborator: its answer is recorded in the trace. */
    method Perform(op: Op) returns (outcome: Option<Error>)
      modifies this`events
      ensures outcome == env.io(old(events), op)
      ensures events == old(events) + [Io(op, outcome)]
    {
      outcome := env.io(events, op);
      events := events + [Io(op, outcome)];
    }

    /** Close(): the teardown runs under the once-guard. */
    method Close() returns (err: Option<Error>)
      requires Valid()
      modifies this
      ensures Valid()
      ensures var r := CloseStep(Cfg(), env.io, old(State()));
        State() == r.state && err == r.err
    {
      if !closeOnceDone {
        closeOnceDone := true;
        closed := true;
        closeErr := Teardown();
      }
      err := closeErr;
    }

    /** close(): drop the input stream and send a Dissociate; Dissociate
        returns at its first error, and the deferred callbacks run after it
        returns, on every path. */
    method Teardown() returns (err: Option<Error>)
      modifies this`inputConn, this`events
      ensures var r := TeardownStep(Cfg(), env.io, old(State()));
        inputConn == r.state.input && events == r.state.events && err == r.err
    {
      err := None;
      if inputConn.Some? {
        events := events + [InputClose];
        inputConn := None;
        err := Dissociate();
      }
      RunCloseCallbacks(err);
      TeardownUnfold(Cfg(), env.io, old(State()));
    }

    /** The two callbacks close() defers, run in last-in first-out order: the
        health callback, registered second, before closeDeferFn. */
    method RunCloseCallbacks(err: Option<Error>)
      modifies this`events
      ensures events == old(events) + CloseCallbacks(Cfg(), err)
    {
      if hasDeferQuicConnFn {
        events := events + [HealthCallback(err)];
      }
      if hasCloseDeferFn {
        events := events + [CloseCallback];
      }
    }

    /** The body of close() after inputConn.Close(): encode a Dissociate
        command, open a uni-stream, write it, close the stream, stopping at
        the first error. */
    method Dissociate() returns (err: Option<Error>)
      modifies this`events
      ensures Run(events, err) == RunOps(env.io, old(events), DissociatePlan(connId))
    {
      var frame := DissociateFrame(connId);
      assert DissociatePlan(connId) == [Encode(frame)] + ([OpenUniStream] + ([WriteBuf(frame)] + [StreamClose]));
      RunOpsFirst(env.io, events, Encode(frame), [OpenUniStream] + ([WriteBuf(frame)] + [StreamClose]));
      err := Perform(Encode(frame));
      if err.Some? { return; }
      RunOpsFirst(env.io, events, OpenUniStream, [WriteBuf(frame)] + [StreamClose]);
      err := Perform(OpenUniStream);
      if err.Some? { return; }
      RunOpsFirst(env.io, events, WriteBuf(frame), [StreamClose]);
      err := Perform(WriteBuf(frame));
      if err.Some? { return; }
      RunOpsFirst(env.io, events, StreamClose, []);
      err := Perform(StreamClose);
    }

    /** WriteTo(p, addr): three guards, then the delivery under the deferred
        health callback, which sees the final error. */
    method WriteTo(p: Bytes, addr: string) returns (n: nat, err: Option<Error>)
      requires Valid()
      modifies this
      ensures Valid()
      ensures var r := WriteToStep(Cfg(), env, old(State()), old(WriteDisabled()), p, addr);
        State() == r.state && n == r.n && err == r.err
    {
      if |p| > MaxPayload {
        return 0, Some(MessageTooLarge(MaxPayload));
      }
      if closed {
        return 0, Some(ErrClosed);
      }
      if WriteDisabled() {
        var _ := Close();
        return 0, Some(ErrClosed);
      }
      n, err := 0, None;
      var parsed := env.parse(addr);
      if parsed.Err? {
        err := Some(parsed.error);
      } else {
        var packet := Packet(connId, Low16(env.rand(events)), 1, 0, |p| as uint16, parsed.value, p);
        match udpRelayMode {
          case Quic =>
            err := SendQuic(packet);
          case Native =>
            err := SendNative(packet);
        }
        if err.None? {
          n := |p|;
        }
      }
      if hasDeferQuicConnFn {
        events := events + [HealthCallback(err)];
      }
      WriteToUnfold(Cfg(), env, old(State()), p, addr);
    }

    /** The QUIC relay mode of WriteTo: one uni-stream per datagram, closed by
        a deferred stream.Close() once it is open, whose error is dropped. */
    method SendQuic(packet: Packet) returns (err: Option<Error>)
      modifies this`events
      ensures Run(events, err) == QuicRun(env.io, old(events), packet)
    {
      var frame := PacketFrame(packet);
      assert QuicPlan(packet) == [Encode(frame)] + ([OpenUniStream] + [WriteBuf(frame)]);
      RunOpsFirst(env.io, events, Encode(frame), [OpenUniStream] + [WriteBuf(frame)]);
      err := Perform(Encode(frame));
      if err.Some? { return; }
      RunOpsFirst(env.io, events, OpenUniStream, [WriteBuf(frame)]);
      err := Perform(OpenUniStream);
      if err.Some? { return; }
      RunOpsFirst(env.io, events, WriteBuf(frame), []);
      err := Perform(WriteBuf(frame));
      var _ := Perform(StreamClose);
    }

    /** The native relay mode of WriteTo: QUIC datagrams, fragmented up front
        when the payload exceeds maxUdpRelayPacketSize, and again when the
        transport refuses the datagram as too large. */
    method SendNative(packet: Packet) returns (err: Option<Error>)
      modifies this`events
      ensures Run(events, err) == NativeRun(maxUdpRelayPacketSize, env.overhead, env.io, old(events), packet)
    {
      NativeUnfold(maxUdpRelayPacketSize, env.overhead, env.io, events, packet);
      ghost var plan := NativePlan(maxUdpRelayPacketSize, packet);
      ghost var sent := RunOps(env.io, events, plan);
      var rest := [Encode(PacketFrame(packet)), SendMessage(packet)];
      if |packet.data| > maxUdpRelayPacketSize {
        assert plan == [FragWrite(packet, maxUdpRelayPacketSize)] + rest;
        RunOpsFirst(env.io, events, FragWrite(packet, maxUdpRelayPacketSize), rest);
        err := Perform(FragWrite(packet, maxUdpRelayPacketSize));
        if err.Some? {
          assert sent == Run(events, err) && |events| < |old(events)| + |plan|;
          return;
        }
        assert sent == RunOps(env.io, events, rest) && |events| + |rest| == |old(events)| + |plan|;
      } else {
        assert plan == rest;
      }
      ghost var mid := events;
      err := SendDatagram(packet);
      assert sent == RunOps(env.io, mid, rest);
    }

    /** The encode and SendMessage of the native mode, with the fallback
        fragmented write when SendMessage reports MessageTooLarge. */
    method SendDatagram(packet: Packet) returns (err: Option<Error>)
      modifies this`events
      ensures var sent := RunOps(env.io, old(events), [Encode(PacketFrame(packet)), SendMessage(packet)]);
        if |sent.events| == |old(events)| + 2 && sent.err.Some? && sent.err.value.MessageTooLarge? then
          Run(events, err) == RunOps(env.io, sent.events, [FragWrite(packet, sent.err.value.limit - env.overhead)])
        else Run(events, err) == sent
    {
      var frame := PacketFrame(packet);
      assert [Encode(frame), SendMessage(packet)] == [Encode(frame)] + [SendMessage(packet)];
      RunOpsFirst(env.io, events, Encode(frame), [SendMessage(packet)]);
      err := Perform(Encode(frame));
      if err.Some? { return; }
      RunOpsFirst(env.io, events, SendMessage(packet), []);
      err := Perform(SendMessage(packet));
      if err.Some? && err.value.MessageTooLarge? {
        var fallback := FragWrite(packet, err.value.limit - env.overhead);
        RunOpsFirst(env.io, events, fallback, []);
        err := Perform(fallback);
      }
    }

    /** Write(b): WriteTo(b, target). */
    method Write(b: Bytes) returns (n: nat, err: Option<Error>)
      requires Valid()
      modifies this
      ensures Valid()
      ensures var r := WriteToStep(Cfg(), env, old(State()), old(WriteDisabled()), b, target);
        State() == r.state && n == r.n && err == r.err
    {
      n, err := WriteTo(b, target);
    }

    /** ReadPacket(q.inputConn): the next framed packet, or the error the
        stream ends with. */
    method ReadPacket() returns (res: Result<Packet>)
      requires inputConn.Some?
      modifies this`inputConn
      ensures var pending := old(inputConn.value.pending);
        if pending == [] then res == Err(EndOfStream) && inputConn == old(inputConn)
        else res == pending[0] && inputConn == Some(Reader(pending[1..]))
    {
      var pending := inputConn.value.pending;
      if pending == [] {
        res := Err(EndOfStream);
      } else {
        res := pending[0];
        inputConn := Some(Reader(pending[1..]));
      }
    }

    /** q.deFragger.Feed(packet). */
    method Feed(packet: Packet) returns (whole: Option<Packet>)
      modifies this`fed
      ensures whole == env.feed(old(fed), packet) && fed == old(fed) + [packet]
    {
      whole := env.feed(fed, packet);
      fed := fed + [packet];
    }

    /** The `for` loop of ReadFrom and WaitReadFrom: read and feed until the
        defragmenter yields a datagram or reading fails. */
    method Assemble() returns (outcome: ReadOutcome)
      requires inputConn.Some?
      modifies this`inputConn, this`fed
      ensures inputConn.Some?
      ensures var run := ReadLoop(env.feed, old(fed), old(inputConn.value.pending));
        inputConn == Some(Reader(run.rest)) && fed == run.fed && outcome == run.outcome
    {
      while true
        invariant inputConn.Some?
        invariant ReadLoop(env.feed, fed, inputConn.value.pending)
               == ReadLoop(env.feed, old(fed), old(inputConn.value.pending))
        decreases |inputConn.value.pending|
      {
        var res := ReadPacket();
        if res.Err? {
          return ReadFailed(res.error);
        }
        var whole := Feed(res.value);
        if whole.Some? {
          return Assembled(res.value, whole.value);
        }
      }
    }

    /** ReadFrom(p): copies the packet read last into p. */
    method ReadFrom(p: array<uint8>) returns (n: nat, addr: Option<Address>, err: Option<Error>)
      requires Valid()
      modifies this, p
      ensures Valid()
      ensures var r := ReadFromStep(env.feed, old(State()), old(p[..]));
        State() == r.state && p[..] == r.buf && n == r.n && addr == r.addr && err == r.err
    {
      n, addr, err := 0, None, None;
      if inputConn.Some? {
        var outcome := Assemble();
        match outcome
        case Assembled(last, whole) =>
          n := CopyPacket(p, last.data);
          addr := Some(whole.addr);
        case ReadFailed(e) =>
          err := Some(e);
      } else {
        err := Some(ErrClosed);
      }
    }

    /** n = copy(p, data). */
    method CopyPacket(p: array<uint8>, data: Bytes) returns (n: nat)
      modifies p
      ensures n == Min(p.Length, |data|) && p[..] == CopyInto(old(p[..]), data)
    {
      n := Min(p.Length, |data|);
      forall i | 0 <= i < n {
        p[i] := data[i];
      }
    }

    /** WaitReadFrom(): the datagram the defragmenter returned. */
    method WaitReadFrom() returns (data: Bytes, addr: Option<Address>, err: Option<Error>)
      requires Valid()
      modifies this
      ensures Valid()
      ensures var r := WaitReadFromStep(env.feed, old(State()));
        State() == r.state && data == r.data && addr == r.addr && err == r.err
    {
      data, addr, err := [], None, None;
      if inputConn.Some? {
        var outcome := Assemble();
        match outcome
        case Assembled(_, whole) =>
          data := whole.data;
          addr := Some(whole.addr);
        case ReadFailed(e) =>
          err := Some(e);
      } else {
        err := Some(ErrClosed);
      }
    }

    /** Read(b): ReadFrom(b) without the address. */
    method Read(b: array<uint8>) returns (n: nat, err: Option<Error>)
      requires Valid()
      modifies this, b
      ensures Valid()
      ensures var r := ReadFromStep(env.feed, old(State()), old(b[..]));
        State() == r.state && b[..] == r.buf && n == r.n && err == r.err
    {
      var addr;
      n, addr, err := ReadFrom(b);
    }
  }
}
