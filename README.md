# quicStreamPacketConn: a verified model of the TUIC client datagram socket

`quicStreamPacketConn` (protocol/tuic/packet.go) is the virtual UDP socket a TUIC
client hands out for one relayed association. It shares one QUIC connection with
other associations. It sends datagrams in one of two ways:

- in QUIC relay mode, each datagram goes on its own uni-stream;
- in native relay mode, datagrams travel as QUIC datagrams, and are fragmented when they are too large.

It receives relayed packets from an inbound stream and passes them through a
defragmenter. Closing the socket closes the inbound stream, if there is one. It
then tries to send one Dissociate command for its association id: encode it,
open a uni-stream, write it and close the stream, stopping at the first error.
The command is sent only when the inbound stream was still open and every step
up to the write succeeded. Last, it runs the callbacks registered by its owner.

The model has three files:

- `types.dfy` (module `TuicTypes`) holds the value types: fixed-width integers,
  errors, packets, frames, the calls the connection makes (`Op`) and the trace
  they leave behind (`Event`). It also holds the collaborators the connection calls
  without their code being part of this model (`Env`).
- `packet_spec.dfy` (module `PacketSpec`) describes one call of each operation as
  a pure function from the connection's state to its new state and results. It
  also holds lemmas for the properties the Go code promises: at most one
  teardown, the guard order of WriteTo, the shape of every call chain, the
  read loop, and the behaviour after Close.
- `packet_conn.dfy` (module `PacketConn`) is the connection itself: a class
  whose fields are the Go struct's mutable fields. Each method runs the Go
  code's steps in order, defers included, and is proved to leave exactly the
  state and results of the matching `PacketSpec` function.

The collaborators are:

- the QUIC connection, the uni-stream, the packet codec and `fragWriteNative` form one
  oracle `io`. It answers each call with an error or success as a function of the
  whole trace so far, so any behaviour of theirs is covered.
- `protocol.ParseMetadata` + `NewAddress` form `parse`.
- `fastrand.Uint32` is `rand`, a function of the trace. Its result is truncated to 16 bits as
  `uint16(...)` does.
- `deFragger.Feed` is `feed`, a function of every packet fed so far and the new one.
- `PacketOverHead` is the parameter `overhead`.

Go's deferred calls run after a helper method that returns at its first error:
Teardown calls Dissociate and then RunCloseCallbacks, and WriteTo calls SendQuic
or SendNative and then appends the health callback. SendQuic's deferred
stream.Close() comes right after the write. The deferred calls run in
last-in first-out order.

## Model

| member | source | states |
|---|---|---|
| PacketSpec.RunOps | protocol/tuic/packet.go:64-80 | the `err = call(); if err != nil { return }` chains of close() and of both relay modes (lines 169-182, 190-203): at most one event per step of the plan, and stopping short of its end only on an error; RunOpsAttempted and AttemptedUnique state the rest |
| PacketSpec.RunOpsAttempted | protocol/tuic/packet.go:64-80 | a chain of `err = call(); if err != nil { return }` steps makes the calls in order, each answered on the trace so far; every call before the last one made succeeded; it stops at the first error and returns it, or returns nil after all calls |
| PacketSpec.AttemptedUnique | protocol/tuic/packet.go:64-80 | that description of a call chain has exactly one run, so it is a complete specification of RunOps |
| PacketSpec.HealthCallbacks | protocol/tuic/packet.go:153-156 | the deferred deferQuicConnFn runs exactly when it is set, and with the final error |
| PacketSpec.CloseCallbacks | protocol/tuic/packet.go:50-57 | close()'s deferred callbacks: one for each function that is set; deferQuicConnFn, registered last, runs first with the final error, and closeDeferFn runs last |
| PacketSpec.TeardownStep | protocol/tuic/packet.go:49-83 | close(): without an input stream it makes no call and returns nil. With one, it closes the stream, drops it, then makes the Dissociate calls (encode, open uni-stream, write, close stream) until the first error. The health callback (with the final error) and then closeDeferFn run last, on every path. No other field changes |
| PacketSpec.CloseStep | protocol/tuic/packet.go:41-47 | the first Close marks the connection closed, runs close() once and records its error; a later Close changes nothing and returns the recorded error; the state invariant (closed iff the once-guard fired, no input stream after it) is preserved |
| PacketSpec.CloseRepeated | protocol/tuic/packet.go:41-47 | any number of successive Close calls has exactly the effect and result of the first one |
| PacketSpec.DissociateSentOnce | protocol/tuic/packet.go:58-82 | a teardown that succeeds adds exactly: input close, one encode of a Dissociate for the connection's own id, one uni-stream opened, one write, one stream close, then the callbacks with a nil error |
| PacketSpec.QuicRun | protocol/tuic/packet.go:168-182 | QUIC relay mode: encode, open a uni-stream, write; once the stream is open, stream.Close() runs last whatever the write did, and its error does not change the result; if encoding or opening fails, no stream is written or closed |
| PacketSpec.NativeRun | protocol/tuic/packet.go:183-204 | native relay mode: an optional fragmented write, then encode and SendMessage, stopping at the first error; a MessageTooLarge(m) answer from SendMessage is replaced by the result of one fragmented write with maximum m - PacketOverHead; only that answer triggers the fallback |
| PacketSpec.NativeFragmentsFirst | protocol/tuic/packet.go:184-190 | a payload longer than maxUdpRelayPacketSize is first written as fragments of that maximum, otherwise the first call encodes the packet; a failed first fragmented write ends the write with its error |
| PacketSpec.PacketFor | protocol/tuic/packet.go:165-166 | the packet WriteTo builds: the connection's id, the random uint32 cut to its low 16 bits as the packet id, fragment 0 of 1, the payload length in the size field, the parsed address and the payload |
| PacketSpec.DeliverRun | protocol/tuic/packet.go:160-207 | an address that does not parse gives its error and no call. Otherwise the packet carries the whole payload, unfragmented (fragment 0 of 1, size len(p)), and the relay mode decides the calls. n is len(p) exactly when no error is reported |
| PacketSpec.WriteToStep | protocol/tuic/packet.go:142-208 | the guards in order: oversized payload (MessageTooLarge(0xffff)), closed connection (ErrClosed), writes disabled (closes the connection, ErrClosed); none of them runs WriteTo's deferred health callback (lines 153-156), and the write-disabled guard runs close()'s callbacks through Close; past the guards, the delivery's calls and then the health callback with WriteTo's own error; n is len(p) exactly on success; the state invariant is preserved |
| PacketSpec.WriteAfterClose | protocol/tuic/packet.go:143-148 | after Close, every write is refused with no call and no callback: MessageTooLarge when oversized, ErrClosed otherwise |
| PacketSpec.DisabledWriteCloses | protocol/tuic/packet.go:149-152 | a write refused because writes are disabled leaves the connection closed without an input stream, and every later write of acceptable size gets ErrClosed |
| PacketSpec.QuicWriteOneStream | protocol/tuic/packet.go:153-182 | a successful QUIC-mode write is exactly one encode, one uni-stream opened, one write of the framed packet and one stream close, followed by the health callback with a nil error |
| PacketSpec.ReadLoop | protocol/tuic/packet.go:104-115 | the read loop only consumes input and only adds to what was fed, and a datagram comes only from a packet it read; ReadLoopShape states the rest |
| PacketSpec.ReadLoopShape | protocol/tuic/packet.go:104-115 | the read loop consumes its input from the front, feeds every packet it reads in that order, goes on only while Feed yields nothing, and stops either at the first read error (returned) or at the first packet for which Feed yields a datagram |
| PacketSpec.Receive | protocol/tuic/packet.go:103-118 | the part both reads share: ErrClosed with no state change when inputConn is nil. Otherwise only the input stream and the fed history change, the stream stays open, and the read loop's shape holds: input consumed from the front, every packet read fed in order, stopping at the first read error or the first datagram |
| PacketSpec.CopyInto | protocol/tuic/packet.go:111 | Go's copy: the first min(len(dst), len(src)) bytes come from src and the rest of dst is unchanged |
| PacketSpec.ReadFromStep | protocol/tuic/packet.go:102-120 | without an input stream: ErrClosed and nothing read. Otherwise the read loop runs, and the new state is the one it leaves: the unconsumed input, the fed packets, everything else unchanged. On a datagram, n = min(len(p), len(last packet)), p holds the last packet's leading bytes and the rest of p is unchanged, and the address is the datagram's. On a read error, n is 0, p is unchanged and there is no address. The trace and the close state are unchanged |
| PacketSpec.WaitReadFromStep | protocol/tuic/packet.go:122-140 | without an input stream: ErrClosed. Otherwise the read loop runs, the new state is the one it leaves, and the result is the datagram Feed yields (its data and address), or the read error with no data |
| PacketSpec.ReadFromMatchesWaitReadFrom | protocol/tuic/packet.go:102-140 | ReadFrom and WaitReadFrom consume the same input, leave the same state and report the same address and error |
| PacketSpec.ReadFromUnfragmented | protocol/tuic/packet.go:110-112 | when Feed hands back the very packet just read, ReadFrom copies min(len(p), len(data)) bytes of the datagram WaitReadFrom returns, and leaves the rest of p unchanged |
| PacketSpec.ReadAfterClose | protocol/tuic/packet.go:116-118 | after Close, ReadFrom and WaitReadFrom fail with ErrClosed, read nothing and change nothing |
| PacketConn.AtomicBool.constructor | protocol/tuic/packet.go:32 | the shared writeClosed flag, created with the given value |
| PacketConn.QuicStreamPacketConn.constructor | protocol/tuic/packet.go:20-39 | a fresh connection: not closed, once-guard not fired, nothing fed, empty trace; the state invariant holds |
| PacketConn.QuicStreamPacketConn.Perform | protocol/tuic/packet.go:64-80 | one call into the codec or the QUIC connection: its answer is the oracle's on the trace so far, and the call with its answer is appended to the trace |
| PacketConn.QuicStreamPacketConn.Close | protocol/tuic/packet.go:41-47 | the state and result are those of CloseStep, and the state invariant is kept |
| PacketConn.QuicStreamPacketConn.Teardown | protocol/tuic/packet.go:49-83 | the input stream, trace and result are those of TeardownStep |
| PacketConn.QuicStreamPacketConn.RunCloseCallbacks | protocol/tuic/packet.go:50-57 | the deferred callbacks of close() run in last-in first-out order: the health callback with the final error, then closeDeferFn |
| PacketConn.QuicStreamPacketConn.Dissociate | protocol/tuic/packet.go:62-80 | the Dissociate calls leave the trace and error of the call chain over encode, open, write and stream close |
| PacketConn.QuicStreamPacketConn.WriteTo | protocol/tuic/packet.go:142-208 | the state and results are those of WriteToStep, and the state invariant is kept |
| PacketConn.QuicStreamPacketConn.SendQuic | protocol/tuic/packet.go:168-182 | the trace and error are those of QuicRun |
| PacketConn.QuicStreamPacketConn.SendNative | protocol/tuic/packet.go:183-204 | the trace and error are those of NativeRun |
| PacketConn.QuicStreamPacketConn.SendDatagram | protocol/tuic/packet.go:190-203 | encode and SendMessage as a call chain, followed by one fallback fragmented write exactly when SendMessage answered MessageTooLarge |
| PacketConn.QuicStreamPacketConn.Write | protocol/tuic/packet.go:219-221 | Write(b) is WriteTo(b, target) |
| PacketConn.QuicStreamPacketConn.ReadPacket | protocol/tuic/packet.go:106 | the next packet or error of the inbound stream, which is consumed from the front; EndOfStream, with nothing consumed, once it is exhausted |
| PacketConn.QuicStreamPacketConn.Feed | protocol/tuic/packet.go:110 | the defragmenter's answer for the packet given the packets fed before it, and the packet joins the fed history |
| PacketConn.QuicStreamPacketConn.Assemble | protocol/tuic/packet.go:104-115 | the `for` loop of ReadFrom and WaitReadFrom leaves the input, the fed packets and the outcome of ReadLoop |
| PacketConn.QuicStreamPacketConn.CopyPacket | protocol/tuic/packet.go:111 | copying into the caller's array gives CopyInto of its old contents, and returns the number of bytes copied |
| PacketConn.QuicStreamPacketConn.ReadFrom | protocol/tuic/packet.go:102-120 | the state, buffer and results are those of ReadFromStep, and the state invariant is kept |
| PacketConn.QuicStreamPacketConn.WaitReadFrom | protocol/tuic/packet.go:122-140 | the state and results are those of WaitReadFromStep, and the state invariant is kept |
| PacketConn.QuicStreamPacketConn.Read | protocol/tuic/packet.go:214-217 | Read(b) is ReadFrom(b) without the address |

## Left out

- Concurrency: `sync.Once` and `atomic.Bool` are modelled for a single thread. The once-guard is a boolean field. `writeClosed` is a shared `AtomicBool` object read once per write.
- The buffer pool (`pool.GetBuffer`/`PutBuffer`) is not modelled; it has no effect on results. The reuse of one buffer by `fragWriteNative` and the following encode is not modelled either.
- The packet codec (`Packet.WriteTo`, `NewDissociate(..).WriteTo`) and `fragWriteNative` are not part of this model; each call to them is one oracle answer.
- `ReadPacket` and the byte stream behind it: the input is the sequence of packets or errors successive reads return.
- The read loop ends with EndOfStream when that sequence is exhausted. Go would block there, or fail with whatever error the stream reports.
- The defragmenter's internals: `Feed` is any deterministic function of the packets fed so far.
- `PacketOverHead` is a parameter; its value is defined in a file that is not part of this model.
- `errors.As` unwrapping: only a `MessageTooLarge` error returned directly by SendMessage triggers the fallback write.
- Deadlines (`SetDeadline`, `SetReadDeadline`, `SetWriteDeadline`) and `LocalAddr` are not modelled. They only forward to or ignore the collaborators.
- The `quicConn` argument of the health callback is not modelled, since it is always the same connection. The callback is recorded with the error only.
- WaitReadFrom's `put` result is not modelled; it is always nil.
- The conversion of the datagram's address to `netip.AddrPort` or `net.Addr` is not modelled; the model returns the datagram's `Address` in place of both conversions.
- `stream.Close()`'s error in QUIC relay mode is recorded in the trace but, as in the code, does not change WriteTo's result.
- The inbound stream's `Close()` result is ignored, as in the code. It appears in the trace as a single event.
- Note on ReadFrom and the code as written: it copies the bytes of the packet read last (`packet.DATA`, line 111), not those of the datagram `Feed` returned (`packetPtr.DATA`), which WaitReadFrom hands out. The model follows the code. ReadFromMatchesWaitReadFrom states what the two always share, and ReadFromUnfragmented states that the bytes agree whenever Feed returns the packet it was given.
