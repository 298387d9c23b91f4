# A verified model of the host side of ADB

This project models the parts of the ADB host that move bytes and must not lose, repeat or reorder
them, and proves what they promise: for every input, and for every run where there is a protocol.
Nothing was executed; every claim below is a contract that the Dafny verifier discharges.

`dafny verify dfyconfig.toml` checks everything.

## What is modelled

**Streams** (`adb/sockets.cpp`, `adb/adb.cpp`). One transport carries many streams; each has a local
socket at either end with a queue, flow-control credit and read and write interest.

- `StreamSocket.dfy` says what each handler of a local socket does, as functions on a socket value.
  `LocalSocket.dfy` has the same handlers in the source's form, as a class that changes its fields and
  an `IOVector` in place, and proves each equal to its function.
- `StreamProtocol.dfy` is the state machine of one stream: two sockets, two FIFO channels, and steps
  for read, write and hangup events and for the delivery of a packet. Partial reads and writes, write
  errors and end of file are all choices of a step. A run is any list of steps.
- `StreamInvariants.dfy`, `StreamEndings.dfy` and `StreamCredit.dfy` prove what every step keeps, and
  `StreamTheorems.dfy` what therefore holds after every run.
- `Multiplex.dfy` is the whole link: two endpoints with any number of streams, opened from either
  side, with ids and `handle_packet`. `MultiplexRefinement.dfy` and `MultiplexTheorems.dfy` prove that
  each stream of each run of the link is a run of the one-stream machine, so that its guarantees carry
  over. `PacketHandler.dfy` is one endpoint in the source's form: `LocalSocket` objects on a live and a
  closing list, found by a search and moved between the lists; every event does to it what `Multiplex.dfy`
  says on values.

**Teardown** (`adb/sockets.cpp`). `SocketGraph.dfy` models sockets as heap objects that point at each
other, the live and the closing list, the mutually recursive close functions, the queue that keeps a
closing socket alive, and `close_all_sockets`.

**Byte queues and packets** (`adb/types.cpp`, `adb/types.h`, `adb/transport_fd.cpp`,
`adb/transport.cpp`). `IOVector.dfy` proves that the chain of blocks is a byte sequence. `Packets.dfy`
has the packet layout and the blocking reader, `NonblockingConnection.dfy` the reader and the writer of
the polling connection.

**Sync acknowledgements** (`adb/client/file_sync_client.cpp`): `SyncAcks.dfy`.

**Incremental install server** (`adb/client/incremental_server.cpp`,
`adb/client/incremental_utils.cpp`). `Verity.dfy` has the layout of the hash tree,
`IncrementalFrames.dfy` the frames, `ChunkBuffer.dfy` the output buffer, `RequestScanner.dfy` the
extraction of requests from other text. `IncrementalLedger.dfy` says, on values, when the log of sent
frames and the flags of the files agree and are in the right order; `IncrementalReads.dfy` accounts for
the reads of the files and the failures among them; `IncrementalHistory.dfy` says which read each frame
comes from; and `IncrementalServer.dfy` is the server itself, whose every method keeps its ledger sound,
its account true and its history complete.

**Host service parser** (`adb/sockets.cpp`): `HostService.dfy`.

## Where the code does not do what one might expect

Each of these is a lemma or a contract with the exact condition.

- `IOVector::coalesce() &&` promises to leave the vector in some valid state. It does not exactly when
  blocks before the front were dropped and one live block is left: `start_index_` then points past the
  end of the chain, where `front_data`, `front_size` and `trim_front` would look for the front block
  (`IOVectors.IOVector.CoalesceOut`). The next `append` repairs it (`IOVectors.IOVector.Append`).
  Appending any two blocks and dropping the bytes of the first leads there
  (`IOVectors.BreakByCoalescing`).
- The reader of the non-blocking connection handles one packet per read, so a packet that has arrived
  can wait in its buffer for the next one. It keeps up exactly when a read completes at most one packet
  (`NonblockingConnection.ReaderKeepsUp`, `NonblockingConnection.ReaderCanLag`).
- The check in `DispatchWrites` that there is something to write fails exactly when the poll was armed
  for writing and the last write made before it fired emptied the buffer
  (`NonblockingConnection.CheckFailsExactlyWhen`, `NonblockingConnection.CheckCanFail`). No write is
  forgotten, though: while bytes are left, a reader thread in its poll is armed or about to be woken
  (`NonblockingConnection.NothingStalls`).
- `parse_host_service` does not undo the printer for a serial that is one of its reserved words, nor for
  an address without a port when the command itself starts like one. The hosts tcp, udp and vsock are
  skipped, and what follows them is taken for the address (`HostService.PlainRoundTrip`,
  `HostService.HostRoundTrip`, `HostService.HostPortRoundTrip`). It looks at the first character of an
  empty command exactly on an input that is nothing but vsock, alone or after tcp or udp
  (`HostService.EmptyCommandExactlyWhen`).
- A hangup makes a socket read whether or not it has credit. In every configuration with delayed acks and
  on either side, enough hangup reads break the in-flight bound, so it needs runs in which the sender
  gets none (`StreamTheorems.HangupBreaksBound`).
- The leaf of a data block is in the hash tree exactly when the file has more than one block
  (`Verity.LeafInRange`).
- When reading a hash block above the leaves fails, later data blocks of that file are sent without the
  missing hash blocks. In every run, a data block under a tree of several levels is sent after all the
  hash blocks it needs exactly when the reads made before it include a good one of the root and no failed
  one of another block above the leaves (`IncrementalServers.Run`). Two requests for one block, the
  root being unreadable at the first, send data whose root never comes (`IncrementalServers.TornRun`).
- When the device closes its end, the request scanner outputs its whole read buffer, which the failed read
  has left at its full size: the text is followed by bytes that were never received. The output is the
  text exactly when it ends by a failed poll (`RequestScanners.Session`, `RequestScanners.ClosedSession`).

## Model

| member | source | states |
|---|---|---|
| StreamTheorems.StreamIntegrity | adb/sockets.cpp:102-249 | After every run, in both directions: while the receiver is live, and always if its own descriptor never ends, the bytes its sender read while connected are the bytes written to the receiver's descriptor, then its queue, then the data in transit; what was written and queued is a prefix of what was read in any case; no data follows a CLSE; and a receiver whose descriptor neither ends, fails a write nor hangs up is destroyed only when everything that was sent has been written |
| StreamEndings.StepStaysClosed | adb/sockets.cpp:190-228 | Every step keeps it that no data follows a CLSE in a channel, and that a side whose CLSE is in transit is not live |
| StreamEndings.StepStaysDrained | adb/sockets.cpp:190-228 | Every step but the end of its own descriptor keeps it that a receiver which has left the live list has everything its sender has sent, that the sender has left it too, and that no data is on its way |
| StreamTheorems.NoOrphans | adb/adb.cpp:358-475 | After every run: an acceptor whose opener is gone has an OKAY to it or a CLSE from it in transit; a connected opener whose acceptor is gone has a CLSE coming; an unconnected opener has its OPEN, its OKAY or its refusal in transit |
| StreamTheorems.OpenIsAnswered | adb/adb.cpp:358-407 | In every run of either ack mode, the OPEN of a stream gives it its second socket if and only if the service can be started; the answer is the grant or the refusal |
| StreamTheorems.LifeExactly | adb/sockets.cpp:325-361 | In every run, a socket leaves the live list if and only if its descriptor ends or a CLSE or a refusal reaches it, destroyed at once if and only if it owes nothing; a closing one is destroyed if and only if its last byte is written, a write fails or its descriptor ends |
| StreamTheorems.QueuedBytesHaveWriteInterest | adb/sockets.cpp:345-361 | After every run, queued bytes without a write error come with write interest, so the check made when a socket joins the closing list holds |
| StreamTheorems.ClosingKeepsData | adb/sockets.cpp:126-153 | After every run in which this side's descriptor has no write error and no hangup, whatever happens at the other side: this socket is destroyed only with an empty queue |
| StreamTheorems.FailedWriteGivesUp | adb/sockets.cpp:118-152 | In every run, a failed write is recorded, ends write interest and takes nothing off the queue |
| StreamTheorems.AcksExactly | adb/sockets.cpp:126-139 | In every run and both ack modes, exactly what a step writes for a connected socket is acknowledged: with delayed acks by its number of bytes, with plain acks by one OKAY if there are any and less than a payload is left; nothing else is |
| StreamTheorems.CreditConservation | adb/sockets.cpp:409-439 | After every run with delayed acks: for a connected opener, credit in hand, data in transit, data queued at the receiver and acks in transit add up to the smaller window; for an acceptor the sum stays between that and the grant of the OPEN |
| StreamTheorems.NoLostWakeup | adb/sockets.cpp:126-222 | After every run, in both ack modes: a connected sender that is not reading, and whose receiver has no write error, has data in transit, an ack in transit or a receiver queue with write interest, or the end of the stream is in transit |
| StreamTheorems.InFlightBound | adb/sockets.cpp:156-222 | After every run without hangup reads, for either side: credit never falls below one byte less than a payload below zero, a sender never has more than its credit and a payload less a byte unacknowledged, and every ack is read back as the number it stands for |
| StreamTheorems.InFlightBoundOf | adb/sockets.cpp:156-222 | The same for one side when only that side gets no hangup reads, if every ack fits its 32 bits |
| StreamTheorems.PlainAckBound | adb/sockets.cpp:210-221 | After every run with plain acks in which this side gets no hangup reads: it has sent at most as many WRTEs as it has taken OKAYs, one more if it is the acceptor, and one less while it may read; those in transit are among them |
| StreamTheorems.StepSpends | adb/sockets.cpp:210-221 | With plain acks a WRTE uses up the permission to read, and only an OKAY gives it back |
| StreamTheorems.AcksFitWhen | adb/sockets.cpp:104-139 | With plain acks, or when no write takes 2^31 bytes, every ack fits |
| StreamTheorems.ModestAcksFit | adb/sockets.cpp:104-139 | The same when neither side gets hangup reads and the bounds of both stay below 2^31: that the acks fit follows from the bound |
| StreamTheorems.HangupBreaksBound | adb/sockets.cpp:363-399 | For every valid configuration with delayed acks and either side: a run without hangups that keeps the bound, and hangup reads after it that break it |
| StreamTheorems.RunIsSound | adb/sockets.cpp:102-439 | Every run keeps the shape of a stream and the integrity of both directions |
| StreamTheorems.RunIsFunded | adb/sockets.cpp:409-439 | Every run whose acks fit keeps the form of the acks and the conservation of credit |
| StreamInvariants.StepKeepsShape | adb/adb.cpp:358-484 | Every step of every kind keeps what relates the two sockets and the packets in transit |
| StreamInvariants.StepKeepsIntegrity | adb/sockets.cpp:102-249 | Every step keeps the byte-by-byte account of both directions |
| StreamInvariants.FlushKeepsBytes | adb/sockets.cpp:102-153 | Writing the queue, in part or with an error, keeps every byte in order, and write interest is on exactly while bytes are owed |
| StreamInvariants.ReadKeepsBytes | adb/sockets.cpp:156-231 | A read event sends exactly the bytes it read, and nothing without a peer |
| StreamInvariants.HandleEffect | adb/adb.cpp:358-484 | What any packet does to a socket: no byte is lost or invented, a socket that loses its peer owes a CLSE, and bytes that are taken are acknowledged |
| StreamCredit.StepConserves | adb/sockets.cpp:126-152 | Every step keeps the sum of credit, and the acks it sends have the negotiated form |
| StreamCredit.StepPays | adb/sockets.cpp:409-439 | Every byte that leaves the queue is acknowledged, every byte sent is charged, and an ack is credited up to the window |
| MultiplexTheorems.EveryStreamIsARun | adb/adb.cpp:358-484 | In every run of the link, with any number of streams opened from either side, each stream is in the state of a run of the one-stream machine |
| MultiplexTheorems.EventRefines | adb/adb.cpp:358-484 | An event of the link is one step of the stream it concerns and no step of any other |
| MultiplexTheorems.LinkIsSound | adb/sockets.cpp:44-72 | In every run of the link, ids are never reused, the sockets of the two ends are paired, every packet in transit names such a pair, and every stream is sound |
| MultiplexTheorems.EventKeepsIds | adb/sockets.cpp:44-72 | Every event keeps the pairing of the ids of the two ends |
| MultiplexTheorems.OpenGivesSocket | adb/adb.cpp:358-407 | An OPEN gives an endpoint a new live socket if and only if it names its sender, the service can be started and a window is granted exactly with delayed acks; otherwise no socket changes, and a named sender is refused |
| MultiplexTheorems.MultiplexedStreams | adb/adb.cpp:358-484 | For each stream of each run of the link, in both directions, everything `StreamIntegrity` says, up to the end of the stream; and no socket is left alone without its settling packet in transit, in all three cases of `NoOrphans` |
| MultiplexTheorems.MultiplexedFlowControl | adb/sockets.cpp:126-222 | The in-flight bound of a side for each stream of each run of the link in which that side of the stream gets no hangup reads, if acks are plain, no write takes 2^31 bytes, or neither side gets hangup reads and the bounds themselves stay below 2^31 |
| MultiplexTheorems.MultiplexedPlainAcks | adb/sockets.cpp:210-221 | With plain acks, for each stream of each run of the link and each side of it without hangup reads: no more WRTEs than OKAYs taken, and one more for the acceptor |
| MultiplexTheorems.MultiplexedWakeups | adb/sockets.cpp:126-222 | The absence of lost wakeups for each stream of each run of the link, in both ack modes, with hangups |
| MultiplexTheorems.MultiplexedCredit | adb/sockets.cpp:409-439 | The conservation of credit for each stream of each run of the link |
| MultiplexTheorems.MultiplexedClosing | adb/sockets.cpp:345-361 | Write interest for queued bytes, and no bytes lost at a socket whose own descriptor does not fail, for each stream of each run of the link |
| MultiplexRefinement.ConcerningEventRefines | adb/adb.cpp:358-484 | The event a stream is concerned with is an enabled step of that stream alone |
| MultiplexRefinement.OtherEventKeepsView | adb/adb.cpp:358-484 | An event of another stream changes neither its sockets nor its packets |
| MultiplexRefinement.BeginStarts | adb/sockets.cpp:543-571 | Opening a stream starts one that nothing in the link belongs to yet |
| PacketHandlers.PacketHandler.HandlePacket | adb/adb.cpp:358-492 | For any endpoint the live list, the closing list and the socket objects stand for: after one packet they stand for what `Multiplex.OnPacket` makes of it, and exactly its answers were sent |
| PacketHandlers.PacketHandler.HandleOpen | adb/adb.cpp:358-407 | An OPEN is ignored, answered with a CLSE, or creates an object on the live list with the next id |
| PacketHandlers.PacketHandler.HandleOkay | adb/adb.cpp:409-450 | The object the search finds connects, takes the ack or ignores it; if none is found a CLSE is sent, and every other object keeps its state and its list |
| PacketHandlers.PacketHandler.HandleWrite | adb/adb.cpp:477-484 | The object the search finds queues and flushes the data in place; every other keeps its state and its list |
| PacketHandlers.PacketHandler.HandleClose | adb/adb.cpp:452-475 | The object the search finds closes and leaves the live list, for the closing list if it owes bytes |
| PacketHandlers.PacketHandler.FindLocalSocket | adb/sockets.cpp:44-59 | The search of the live list finds an object if and only if a live socket has this id and, when one is asked for, this peer; it is the object of that id |
| PacketHandlers.PacketHandler.Install | adb/sockets.cpp:61-72 | A new object joins the live list only, and all others are represented as before |
| PacketHandlers.PacketHandler.Relist | adb/sockets.cpp:74-80 | After a change of one socket every socket is on the list of its status: destroyed ones on none, closing ones on the closing list |
| PacketHandlers.PacketHandler.Connect | adb/sockets.cpp:543-571 | Opening a stream does to the objects what it does to the endpoint as a value |
| PacketHandlers.PacketHandler.Writable | adb/sockets.cpp:363-381 | A write event does to the objects what it does to the endpoint, including the removal of a closing socket with its last byte |
| PacketHandlers.PacketHandler.Readable | adb/sockets.cpp:383-387 | A read event, however its reads are cut up, does to the objects what it does to the endpoint |
| LocalSockets.LocalSocket.Connecting | adb/sockets.cpp:543-571 | A socket that opens a stream starts without credit and sends its OPEN |
| LocalSockets.LocalSocket.Accepted | adb/adb.cpp:389-407 | An accepted socket starts with the credit of the OPEN and answers with its own window |
| LocalSockets.LocalSocket.FlushIncoming | adb/sockets.cpp:102-153 | The imperative flush computes the flush of the protocol model; it reports that the socket is gone if and only if it was closing and is destroyed, and otherwise whether the descriptor is full |
| LocalSockets.LocalSocket.WriteQueue | adb/sockets.cpp:104-124 | One `writev` takes a prefix of the queue, or nothing |
| LocalSockets.LocalSocket.Acknowledgement | adb/sockets.cpp:126-139 | What was written is acknowledged in the way of the ack mode |
| LocalSockets.LocalSocket.Settle | adb/sockets.cpp:141-153 | A closing socket goes away once nothing is owed, and exactly then this is reported; otherwise write interest and the result follow what is owed |
| LocalSockets.LocalSocket.ReadLoop | adb/sockets.cpp:161-189 | The read loop gathers what the descriptor offers, up to one payload |
| LocalSockets.GatherFits | adb/sockets.cpp:161-189 | What it gathers is a prefix of what is offered, at most one payload, and end of file is only seen with room left |
| LocalSockets.GatherSeesEnd | adb/sockets.cpp:161-189 | The end of file is reported if and only if it is met with room left, and then everything before it was gathered |
| LocalSockets.LocalSocket.SendData | adb/sockets.cpp:190-222 | Sending charges the credit and turns read interest off without credit or with plain acks |
| LocalSockets.LocalSocket.FlushOutgoing | adb/sockets.cpp:156-231 | The imperative read event computes the read event of the protocol model |
| LocalSockets.LocalSocket.Enqueue | adb/sockets.cpp:233-249 | Data for a socket is appended and flushed; the result says whether the descriptor is full |
| LocalSockets.LocalSocket.Acknowledge | adb/sockets.cpp:409-439 | An ack of the right kind adds credit up to the window and wakes the reader |
| LocalSockets.LocalSocket.HandleOkay | adb/adb.cpp:412-440 | The first OKAY connects the socket to its sender and makes it read; later ones are acks |
| LocalSockets.LocalSocket.HandleClose | adb/adb.cpp:452-475 | A CLSE closes a live socket that has a peer, and one that waits for its OKAY only as a refusal |
| LocalSockets.LocalSocket.Close | adb/sockets.cpp:325-361 | Closing sends a CLSE if there is a peer, and keeps the socket while it owes bytes |
| SocketGraph.SocketTable.CloseAllSockets | adb/sockets.cpp:82-94 | It terminates; exactly the live sockets of the transport, or whose peer is of it, leave the live list; of these and their peers exactly those that owe nothing are deleted, and those that owe bytes and no others join the closing list; each one with a remote peer sends one CLSE, in the order of the list; every other socket keeps its peer |
| SocketGraph.SocketTable.Close | adb/sockets.cpp:325-361 | The mutually recursive close terminates, takes down a socket and its peer and nothing else, and keeps peer links symmetric |
| SocketGraph.SocketTable.ClosePair | adb/sockets.cpp:328-340 | The same for a connected pair, with the CLSE sent while the ids are still known |
| SocketGraph.SocketTable.CloseAlone | adb/sockets.cpp:342-361 | A socket without a peer is destroyed or joins the closing list |
| SocketGraph.SocketTable.CloseLocal | adb/sockets.cpp:325-361 | Closing the local end sends one CLSE to a remote peer |
| SocketGraph.SocketTable.CloseOther | adb/sockets.cpp:511-521 | Closing a remote or smart end takes its peer down without a CLSE |
| SocketGraph.SocketTable.FinishLocal | adb/sockets.cpp:342-361 | Destroyed exactly if nothing is owed, otherwise on the closing list with write interest |
| SocketGraph.SocketTable.Destroy | adb/sockets.cpp:309-323 | A destroyed socket is on no list |
| SocketGraph.SocketTable.Defer | adb/sockets.cpp:352-361 | A closing socket moves from the live to the closing list, and its write-interest check holds |
| SocketGraph.SocketTable.Shutdown | adb/sockets.cpp:499-509 | The CLSE names the two ends of the link |
| SocketGraph.SocketTable.RemoveSocket | adb/sockets.cpp:74-80 | The socket and nothing else leaves both lists |
| SocketGraph.SocketTable.Create | adb/sockets.cpp:61-72 | A new socket is unconnected; a local one joins the live list |
| SocketGraph.SocketTable.Connect | adb/adb.cpp:394-395 | The two ends point at each other, and no other link changes |
| SocketGraph.SocketTable.HandOver | adb/sockets.cpp:878-885 | Taking the peer of a smart socket over leaves all links symmetric |
| SocketGraph.SocketTable.Detach | adb/sockets.cpp:908-918 | A smart socket and its peer let go of each other, the peer gets its transport, and all links stay symmetric |
| SocketGraph.SocketTable.Enqueue | adb/sockets.cpp:233-249 | What the descriptor does not take stays queued, and write interest is on exactly while it can still be written |
| SocketGraph.SocketTable.Flush | adb/sockets.cpp:102-153 | A closing socket is deleted if and only if its last byte is written or its descriptor fails; until then it stays on its list with write interest |
| SocketGraph.SocketTable.FirstRelated | adb/sockets.cpp:84-92 | The scan finds the first live socket of the transport if there is one |
| SocketGraph.SocketTable.Scan | adb/sockets.cpp:84-94 | A scan ends, or closes a socket and restarts on a shorter list |
| SocketGraph.SocketTable.NextNotice | adb/sockets.cpp:84-94 | The CLSE of the socket the scan finds is the next of those the teardown has to send |
| SocketGraph.FirstLeaves | adb/sockets.cpp:84-94 | Taking the first related socket and its peer off the list takes exactly its CLSE off those still to send |
| IOVectors.IOVector.Append | adb/types.h:168-175 | Appends the bytes of a block; an empty block changes nothing; it makes a vector that points past its end valid again |
| IOVectors.IOVector.Clear | adb/types.cpp:13-23 | Leaves nothing and returns the last block |
| IOVectors.IOVector.DropFront | adb/types.cpp:25-47 | Drops exactly the first bytes; what is left of the chain are its last blocks, and in a chain of at most five blocks the dropped ones stay in place |
| IOVectors.IOVector.TakeFront | adb/types.cpp:49-96 | Splits the bytes exactly, whether blocks are moved, copied or split |
| IOVectors.IOVector.TakeBlocks | adb/types.cpp:58-72 | The whole blocks that go to the other vector, with what is left to take from the next |
| IOVectors.IOVector.SplitBlock | adb/types.cpp:74-94 | The block that is split, by copying either of its two parts |
| IOVectors.IOVector.TrimFront | adb/types.cpp:98-113 | Moves the bytes to the start without changing them |
| IOVectors.IOVector.TrimChainFront | adb/types.cpp:115-120 | Removes the dropped blocks |
| IOVectors.IOVector.PopFrontBlock | adb/types.cpp:122-130 | Drops what is left of the front block; the chain is trimmed exactly when the start passes four blocks and half of it |
| IOVectors.IOVector.Coalesce | adb/types.h:207-225 | One block with the same bytes |
| IOVectors.IOVector.CoalesceOut | adb/types.cpp:132-175 | Every path returns the same bytes, and the vector points past the end of its chain, with no bytes, if and only if blocks were dropped and one is left; otherwise it is valid, and exactly a front block with room for everything is given away |
| IOVectors.BreakByCoalescing | adb/types.cpp:132-175 | For any two non-empty blocks: append both, drop the first, coalesce; the bytes are right and the vector is not valid but points past its end |
| IOVectors.IOVector.Size | adb/types.h:155-156 | The cached length is the number of bytes |
| IOVectors.IOVector.FrontSize | adb/types.h:147-153 | The front block is empty only if there are no bytes at all |
| IOVectors.IOVector.MoveOut | adb/types.cpp:3-11 | Moving takes all bytes and leaves a valid empty vector |
| Packets.HeaderRoundTrip | adb/types.h:109-116 | Decoding an encoded header gives the same fields |
| Packets.HeaderBytes | adb/types.h:109-116 | Encoding a decoded header gives the same bytes |
| Packets.BlockingRoundTrip | adb/transport.cpp:456-491 | The blocking reader recovers every list of packets exactly, and the header check accepts a packet if and only if its payload is within the limit |
| Packets.HeaderCheckIsExact | adb/transport.cpp:1653-1667 | The header check passes exactly the headers that `send_packet` makes, within the limit; one with any other magic is refused |
| Packets.FirstIsPrefix | adb/transport.cpp:456-475 | What the reader takes for a packet is the bytes of that packet |
| Packets.Descriptor.ReadExactly | adb/transport.cpp:432-442 | However the bytes are cut up, exactly the wanted number is read, or the read fails |
| Packets.Descriptor.Read | adb/transport.cpp:456-475 | One packet is read, or an oversized or cut-off one fails |
| NonblockingConnection.Framing | adb/transport_fd.cpp:78-109 | For every list of packets and every fragmentation, the packets delivered are a prefix of those sent, and what is buffered and unread is the rest |
| NonblockingConnection.NothingIsLost | adb/transport_fd.cpp:78-109 | The bytes of the delivered packets and the buffered bytes are all bytes read |
| NonblockingConnection.ReadDeliversAtMostOne | adb/transport_fd.cpp:90-108 | A read delivers the first buffered packet exactly if it is complete, and no second one |
| NonblockingConnection.ReaderKeepsUp | adb/transport_fd.cpp:90-108 | No complete packet stays buffered after a read if and only if fewer than two were complete |
| NonblockingConnection.ReaderCanLag | adb/transport_fd.cpp:90-108 | Two packets in one read leave the second one waiting |
| NonblockingConnection.WireDeterminesPackets | adb/transport.cpp:456-491 | The bytes on the wire determine the packets |
| NonblockingConnection.ReadSide.OnReadable | adb/transport_fd.cpp:78-109 | The imperative reader over an `IOVector` does what the function on bytes says |
| NonblockingConnection.ReadSide.TakeHeader | adb/transport_fd.cpp:90-95 | The header is taken off the buffer when it is complete |
| NonblockingConnection.ReadSide.TakePacket | adb/transport_fd.cpp:97-108 | The payload is taken off the buffer when it is complete |
| NonblockingConnection.WriteSide.Write | adb/transport_fd.cpp:186-201 | The bytes of the packet join the accepted bytes in order, what the descriptor has taken only grows, and it and what is buffered are all of them; the reader thread is woken if bytes are left, as in the race model |
| NonblockingConnection.WriteSide.DispatchWrites | adb/transport_fd.cpp:160-184 | Exactly the bytes `writev` took move from the front of the buffer to the wire, and the result says whether it is empty |
| NonblockingConnection.ArmedHasBytes | adb/transport_fd.cpp:53-58 | In every interleaving, the poll is armed for writing only with bytes in the buffer |
| NonblockingConnection.CheckFailsExactlyWhen | adb/transport_fd.cpp:160-161 | After any turns of both threads, an arming of the poll and any writes: the check fails when the poll fires if and only if it was armed and the last of these writes emptied the buffer |
| NonblockingConnection.EmptiedByAWrite | adb/transport_fd.cpp:160-184 | Between arming and firing the buffer becomes empty only by a write that takes all of it |
| NonblockingConnection.WriteSide.ArmPoll | adb/transport_fd.cpp:53-58 | Arming on the buffer is the arming of the race model, and an armed poll has bytes to write |
| NonblockingConnection.WriteSide.OnWritable | adb/transport_fd.cpp:70-76 | A poll that fires with bytes left takes the turn of the race model and loses none of them |
| NonblockingConnection.NothingStalls | adb/transport_fd.cpp:186-201 | In every interleaving without a write error, the descriptor counts as not writable exactly while bytes are left, and then the reader thread is outside its poll, armed in it, or about to be woken; leaving the poll in whatever way, it is armed in the next |
| NonblockingConnection.WriteSide.TakeWake | adb/transport_fd.cpp:112-119 | One wake-up is taken out of the pipe, as in the race model |
| NonblockingConnection.CheckCanFail | adb/transport_fd.cpp:160-161 | An interleaving of a write and an armed poll in which it fails |
| SyncAcks.StatusesAreDetermined | adb/client/file_sync_client.cpp:836-870 | The bytes received determine the statuses parsed from them, however they were split, whether parsing ends at an incomplete or at a malformed status |
| SyncAcks.MoreBytesMoreStatuses | adb/client/file_sync_client.cpp:836-870 | The statuses parsed from a prefix of a stream are a prefix of the statuses parsed from more of it |
| SyncAcks.ParsedIsLongest | adb/client/file_sync_client.cpp:836-870 | What is parsed when parsing is stuck is the longest list of statuses that the stream starts with |
| SyncAcks.StatusesAgree | adb/client/file_sync_client.cpp:836-870 | Of two lists of statuses that one stream starts with, one is a prefix of the other |
| SyncAcks.SyncConnection.AgreesWith | adb/client/file_sync_client.cpp:787-873 | Of two connections on the same stream, at any points and with any fragmentation and polls, the one that has received less has parsed a prefix of what the other has; having received the same, they have parsed the same, and a malformed status was seen by both or by neither |
| SyncAcks.SyncConnection.ReadAcknowledgements | adb/client/file_sync_client.cpp:787-873 | Received and unread bytes are always the stream. Waiting for all files, or when no poll finds nothing and no read comes short, and with no malformed status before: it returns true if and only if the stream goes on with an OKAY for each. It leaves a file unacknowledged and returns true only after a poll that found nothing or a read that came short. If everything has arrived and the polls say so, all files are acknowledged if and only if the stream does so, and it returns true only if no FAIL answers one of them. It returns false only after a malformed status, at the end of the stream, or on a FAIL, which is then the last status. When it returns true, fewer than 128 files wait |
| SyncAcks.SyncConnection.ReadUntilAmount | adb/client/file_sync_client.cpp:805-829 | It succeeds exactly when the buffer has the amount, never reads beyond it, moves bytes from the descriptor to the buffer and nowhere else, fails only when nothing is left to read, and puts reading off only without blocking and after a poll that found nothing or a read that came short |
| SyncAcks.SyncConnection.ParseStatus | adb/client/file_sync_client.cpp:840-870 | An OKAY retires the oldest file; a status is malformed exactly if it is counted as such, and that fails; an incomplete one changes no file; any other failure is a FAIL that was received or the end of the stream |
| SyncAcks.SyncConnection.ParseFailure | adb/client/file_sync_client.cpp:856-870 | A FAIL retires the oldest file with a message of the announced length, or waits for the rest of it, or finds the stream at its end |
| SyncAcks.SyncConnection.Retire | adb/client/file_sync_client.cpp:779-785 | The oldest file is retired with its status |
| SyncAcks.SyncConnection.RecordFileSent | adb/client/file_sync_client.cpp:292-295 | The file is the last one to be acknowledged |
| Verity.VerityTreeBlocks | adb/client/incremental_utils.cpp:29-45 | The loop computes the number of blocks of the tree over the blocks of the file |
| Verity.NumBlocks | adb/client/incremental_server.cpp:58-68 | The least number of blocks that holds the bytes |
| Verity.LeafInRange | adb/client/incremental_server.cpp:341-349 | The leaf of a data block is in the tree if and only if the file has more than one block; with one block it is at -1 |
| Verity.PathInTree | adb/client/incremental_server.cpp:341-349 | Every node between a data block and the root is in the tree; the first is the leaf and all others come before every leaf |
| Verity.LevelCovers | adb/client/incremental_utils.cpp:38-43 | The level `k` has just enough nodes for `128^k` blocks each |
| Verity.LevelsFillTree | adb/client/incremental_utils.cpp:38-44 | Every stored hash block is a node of a level |
| IncrementalFrames.FramesRoundTrip | adb/client/incremental_server.cpp:113-130 | Decoding an encoded list of frames gives the same frames in the same order |
| ChunkBuffers.ChunkBuffer.Send | adb/client/incremental_server.cpp:492-497 | At most 31 blocks are pending on entry and on return, so the copy stays inside the buffer; the bodies on the wire and the pending bytes together grow by the frame; a chunk leaves exactly when asked for or when more than 31 blocks are pending |
| ChunkBuffers.ChunkBuffer.Flush | adb/client/incremental_server.cpp:499-512 | Everything sent is on the wire as chunks, the receiver has it, and nothing is pending |
| ChunkBuffers.ChunkBuffer.SendAll | adb/client/incremental_server.cpp:492-512 | For any frames flushed at any points: whatever was sent up to a flush, the receiver has |
| ChunkBuffers.ChunkBuffer.Copy | adb/client/incremental_server.cpp:493-493 | The bytes are appended in place behind the pending ones |
| ChunkBuffers.UnchunkPush | adb/client/incremental_server.cpp:505-511 | One more chunk adds its body to what the receiver unpacks |
| ChunkBuffers.Transmit | adb/client/incremental_server.cpp:492-512 | Whatever the frames and whenever they are flushed, the receiver unpacks and decodes exactly these frames |
| RequestScanners.Session | adb/client/incremental_server.cpp:256-334 | For every stream, every way it is cut into reads, every outcome of the polls and every choice of blocking: the requests returned are the first requests of the stream, all of them once it has been read; without timeouts the output is the rest, followed by the unused part of the read buffer exactly if it ends by a failed read |
| RequestScanners.ClosedSession | adb/client/incremental_server.cpp:302-317 | For every stream of a device that closes its end: the output is the text and then bytes that were never received, at least one |
| RequestScanners.RequestsAreLeftmost | adb/client/incremental_server.cpp:262-268 | Every stream has exactly one list of leftmost places of requests that do not overlap, and the requests are those whose bytes are there |
| RequestScanners.CommandRoundTrip | adb/client/incremental_server.cpp:329-333 | Decoding the eight bytes of a command in network order and two's complement gives its type, file and block, for all values of the 16-bit and 32-bit fields |
| RequestScanners.BytesOfCommand | adb/client/incremental_server.cpp:329-333 | Any eight bytes are those of the command they decode to |
| RequestScanners.SplicedRequests | adb/client/incremental_server.cpp:256-334 | For any requests of any type, file and block in the middle of any text without the magic: exactly these are the requests of the stream, and the rest of it is the text |
| RequestScanners.RequestScanner.TakeCommand | adb/client/incremental_server.cpp:276-281 | The command whose bytes follow the magic is taken, with these bytes |
| RequestScanners.RequestScanner.SkipToRequest | adb/client/incremental_server.cpp:256-316 | The next request is found or none is lost, and fewer than 12 bytes are unread when it ends without one; it ends by a timeout, a failed poll or a failed read exactly as its result says |
| RequestScanners.RequestScanner.Await | adb/client/incremental_server.cpp:283-315 | Bytes are read with less than a request retained, so there is room; otherwise the buffer is output, retained after a timeout and left at its full size after a failed read |
| RequestScanners.RequestScanner.ReadMore | adb/client/incremental_server.cpp:302-309 | There is room, so that a read of nothing means that the device is gone; it then leaves the buffer at its full size |
| RequestScanners.RequestScanner.Scan | adb/client/incremental_server.cpp:258-281 | Text is passed on in order and a complete request is taken |
| RequestScanners.RequestScanner.FindMagic | adb/client/incremental_server.cpp:259-268 | The first place of the magic, or no place and all but four bytes can go |
| RequestScanners.RequestScanner.ReadRequest | adb/client/incremental_server.cpp:318-334 | A request of the stream, none yet, or the request to stop; if every poll finds bytes, it makes up the request to stop only after all requests of the stream; it gives up on a timeout if and only if it may wait for long and was told that everything is served; otherwise it is made up only for a failed poll or a failed read |
| IncrementalLedgers.AtMostOnce | adb/client/incremental_server.cpp:394-458 | In a sound ledger no block, no hash block and no end is sent twice |
| IncrementalLedgers.HashBeforeData | adb/client/incremental_server.cpp:336-370 | In a file that is not torn, every data block comes after its leaf and after all hash blocks above the leaves |
| IncrementalLedgers.LeafBeforeData | adb/client/incremental_server.cpp:336-370 | Whatever failed, every data block of a file with a tree comes after its leaf |
| IncrementalLedgers.PathBeforeData | adb/client/incremental_server.cpp:336-370 | In a file that is not torn, every data block comes after the hash block of each level on its way to the root |
| IncrementalLedgers.DoneAfterAll | adb/client/incremental_server.cpp:544-551 | The end comes after every block of every file |
| IncrementalLedgers.DataKeepsSound | adb/client/incremental_server.cpp:437-445 | Recording a data block keeps flags, count and log in agreement |
| IncrementalLedgers.HashKeepsSound | adb/client/incremental_server.cpp:351-367 | Recording a hash block keeps them in agreement, and the root is sent first |
| IncrementalLedgers.DoneKeepsSound | adb/client/incremental_server.cpp:544-551 | Recording the end keeps them in agreement: a full count means that every block was sent |
| IncrementalLedgers.DataFramesBounded | adb/client/incremental_server.cpp:437-445 | The counts of the files add up to the data frames that were sent, so that these are never more than the blocks of all files |
| IncrementalLedgers.NewFileIsUntouched | adb/client/incremental_server.cpp:170-174 | A new file has a flag for each of its blocks and hash blocks, all clear |
| IncrementalReads.TearKeepsAccount | adb/client/incremental_server.cpp:351-367 | A failed read of a hash block above the leaves tears exactly its file: the torn files are those with such a failure among their reads |
| IncrementalReads.ReadsKeepAccount | adb/client/incremental_server.cpp:372-392 | Other reads tear no file |
| IncrementalReads.LastOfPlan | adb/client/incremental_server.cpp:351-369 | A plan that stops after its first read has failed at the leaf, any other above the leaves |
| IncrementalReads.UpwardKeeps | adb/client/incremental_server.cpp:351-369 | Through every plan that goes above the leaves, successful or not: all hash blocks above the leaves are marked if and only if the root has been read and no other of them has failed |
| IncrementalReads.PlanKeepsUppers | adb/client/incremental_server.cpp:336-370 | The same for every plan and all files |
| IncrementalReads.FailureIsOfBlock | adb/client/incremental_server.cpp:394-447 | When a block cannot be sent, the last read failed, and it was one of the block itself or of a hash block it needs |
| IncrementalHistories.PushingKeeps | adb/client/incremental_server.cpp:372-445 | One more frame keeps the history: each frame carries what one of the reads of its own place gave, and the hash blocks above the leaves are before a data frame if and only if the reads before its own tell so |
| IncrementalHistories.ReadingKeeps | adb/client/incremental_server.cpp:372-445 | One more read keeps it |
| IncrementalHistories.UppersLogged | adb/client/incremental_server.cpp:351-369 | The flags above the leaves are all set if and only if these hash blocks are in the log, once each |
| IncrementalServers.Run | adb/client/incremental_server.cpp:528-640 | For every stream of requests with valid identifiers, every answer of the files and every fragmentation: no frame is sent twice and the end comes after every block of every file; every frame carries what a read of its own place gave, a data frame compressed if and only if that makes it small enough; every data block comes after its leaf, and after all hash blocks it needs if and only if there is none above the leaves, or the root had been read and no other of them had failed when the block was read; in a file without such a failure every data block comes after its whole path. The requests heard are the first of the stream, and all up to the one to stop if every poll finds bytes; each block they ask for was sent, or a read it needs failed. A file to prefetch is sent, but for blocks that failed, once the rounds from its request on, or the requests after it, are more than the blocks of all files divided by 128; if this holds of all files a round before the last and nothing failed, the end was sent; and so it was if all files were asked for, nothing failed and nothing is queued. It stops for want of requests only if it was told that everything is served and has nothing queued |
| IncrementalServers.SoundInPlace | adb/client/incremental_server.cpp:336-447 | The order of one data frame and its hash blocks, exactly, from the reads made before it |
| IncrementalServers.HeardAll | adb/client/incremental_server.cpp:553-567 | A run that has heard everything up to the request to stop has heard exactly that part of the stream |
| IncrementalServers.SettledAnswers | adb/client/incremental_server.cpp:578-616 | A block that was asked for and is settled is in the log, or could not be sent |
| IncrementalServers.TornRun | adb/client/incremental_server.cpp:336-370 | For every file whose tree has two levels, every block of it and every storage in which only the first read of the root fails: after two requests for the block it has been sent and the root has not |
| IncrementalServers.IncrementalServer.Serve | adb/client/incremental_server.cpp:528-640 | The service terminates on every finite input, keeps the ledger sound and forgets nothing that was sent. At the end the requests heard are the first of the stream, all up to the one to stop if every poll finds bytes; every block they ask for was sent or could not be sent when it was tried; every file to prefetch that was asked for in time was sent, as far as it could be; and if that is every file, or every file was asked for and the queue is empty, and no block failed, then the end has been sent |
| IncrementalServers.IncrementalServer.Round | adb/client/incremental_server.cpp:543-639 | One round keeps all this and uses up input, or stops; unless it stops it leaves nothing to prefetch or sends 128 data blocks, and the entries of the queue after the request that leave it are the first ones, each served |
| IncrementalServers.IncrementalServer.Answering | adb/client/incremental_server.cpp:564-639 | A request is answered and prefetching takes its turn: a missing block that is sent now is flushed at once, and prefetching flushes nothing; it leaves nothing to prefetch or sends 128 data blocks, keeps every file to prefetch in time, and only entries that were served leave the queue |
| IncrementalServers.IncrementalServer.Respond | adb/client/incremental_server.cpp:564-639 | The same with the books of the rounds: which request each had, when each file was first asked for, and that nothing is queued once everything must have been sent |
| IncrementalServers.IncrementalServer.Announce | adb/client/incremental_server.cpp:544-551 | The end has been sent if and only if it was before, or everything is loaded and nothing is left to prefetch |
| IncrementalServers.IncrementalServer.Listen | adb/client/incremental_server.cpp:553-559 | Each request is the next one of the stream, all before it are answered, and nothing is unflushed when the server waits for it; a request to stop comes after all others if every poll finds bytes, and is made up for a failed poll or read, or for want of requests, the latter only with nothing to prefetch and after everything was served |
| IncrementalServers.IncrementalServer.Handle | adb/client/incremental_server.cpp:569-636 | A missing block in range is sent and flushed, or could not be sent, and the next seven are queued first if it was sent now; a file to prefetch is queued as a whole, once and last; it is noted when everything is served; nothing else changes the queue |
| IncrementalServers.IncrementalServer.Emit | adb/client/incremental_server.cpp:417-445 | The frame carries the block that was read, compressed if and only if that succeeds and makes it small enough, its flag and the count are set, and it is flushed exactly if asked for |
| IncrementalServers.QueuedPops | adb/client/incremental_server.cpp:486-488 | A file that leaves the queue as a whole has been sent as a whole, as far as it could be |
| IncrementalServers.OnTimePops | adb/client/incremental_server.cpp:460-490 | A round that empties the queue or sends 128 blocks keeps every file to prefetch in time: it is sent as far as it could be, or queued with 128 blocks sent for every round since it was asked for |
| IncrementalServers.LateIsHandled | adb/client/incremental_server.cpp:460-490 | A file that was asked for more rounds ago than all blocks take is sent, as far as it could be |
| IncrementalServers.NothingLeft | adb/client/incremental_server.cpp:544-551 | Once all files were asked for that long ago and none failed, no further data block is sent |
| IncrementalServers.IncrementalServer.RunPrefetching | adb/client/incremental_server.cpp:460-490 | It terminates, sends at most 128 data blocks, stops earlier only with an empty queue, and an entry leaves only once every block of its range and every priority block was sent, or could not be read when it was tried |
| IncrementalServers.IncrementalServer.RunFront | adb/client/incremental_server.cpp:464-488 | With budget left the first entry is finished and leaves; on the log, its priority blocks come before the blocks of its range, which are only sent once all priority blocks were sent, or could not be |
| IncrementalServers.IncrementalServer.WorkOn | adb/client/incremental_server.cpp:467-485 | The priority blocks and then the range of an entry, while the budget lasts, in this order on the log |
| IncrementalServers.IncrementalServer.Turn | adb/client/incremental_server.cpp:462-488 | Every entry that leaves the queue was served, and with budget left the queue gets shorter |
| IncrementalServers.IncrementalServer.SendPriority | adb/client/incremental_server.cpp:468-478 | The priority blocks are tried in order while the budget lasts |
| IncrementalServers.IncrementalServer.SendRange | adb/client/incremental_server.cpp:479-485 | The blocks of the range are tried in order while the budget lasts |
| IncrementalServers.IncrementalServer.SendDataBlock | adb/client/incremental_server.cpp:394-447 | Skipped exactly if out of range or sent before; otherwise the missing hash blocks and then the block are read up to the first failure; when sent, exactly its flag and the count change, after its hash blocks, and all of it is flushed exactly if asked for; an error changes no data flag |
| IncrementalServers.IncrementalServer.TryBlock | adb/client/incremental_server.cpp:402-445 | A block is read only after its missing hash blocks were, and its file is torn only by a failure |
| IncrementalServers.IncrementalServer.SendTreeBlocksForDataBlock | adb/client/incremental_server.cpp:336-370 | The planned hash blocks are read up to the first failure; on success the leaf is sent, and the block is covered if and only if the flags that cut the search short were set with all hash blocks above the leaves |
| IncrementalServers.IncrementalServer.SendMissing | adb/client/incremental_server.cpp:351-369 | The leaf, and everything above the leaves unless that was started before; a failure above the leaves and nothing else tears the file |
| IncrementalServers.IncrementalServer.SendLeaf | adb/client/incremental_server.cpp:351-355 | One read; on success the leaf is marked and nothing above it changes |
| IncrementalServers.IncrementalServer.SendAbove | adb/client/incremental_server.cpp:363-368 | All blocks above the leaves are sent if and only if no read fails, and otherwise the file is torn |
| IncrementalServers.IncrementalServer.SendUpper | adb/client/incremental_server.cpp:363-368 | The hash blocks above the leaves from the root on, up to the first read that fails |
| IncrementalServers.IncrementalServer.SendTreeBlock | adb/client/incremental_server.cpp:372-392 | One hash frame if the read gives bytes, nothing otherwise |
| IncrementalServers.IncrementalServer.SendDone | adb/client/incremental_server.cpp:449-458 | The end is recorded once, when everything is loaded |
| IncrementalServers.IncrementalServer.IsLoaded | adb/client/incremental_server.cpp:545-548 | All counts are full |
| IncrementalServers.IncrementalServer.Miss | adb/client/incremental_server.cpp:578-616 | A missing block in range is sent and flushed if no read fails, and the next seven are queued first |
| IncrementalServers.IncrementalServer.Prefetching | adb/client/incremental_server.cpp:617-634 | A file is queued as a whole, last, and once |
| HostService.PrintParse | adb/sockets.cpp:664-675 | On success serial, colon and command are the input, and the command is not empty |
| HostService.AdbIsProper | adb/sockets.cpp:677-699 | The eight words of the parser and what each of them is for; they have the form the round trips need |
| HostService.AdbSerials | adb/sockets.cpp:644-762 | With the words of the parser: host and port for a host that is no skipped name, a part after usb, product, model, device or localfilesystem, and host and port after vsock, or after tcp or udp if the host is not vsock, come back with every command |
| HostService.HostPortRoundTrip | adb/sockets.cpp:644-762 | For every grammar of reserved words like the parser's (`HostService.AdbIsProper`), a host and the digits of a port come back with any command if and only if it is not the case that the host is a skipped name and the command starts like a port |
| HostService.PrefixRoundTrip | adb/sockets.cpp:677-690 | After usb, product, model, device or localfilesystem, one more part comes back with any command if and only if it has no colon |
| HostService.AddressRoundTrip | adb/sockets.cpp:692-762 | A host and a port after a protocol, after vsock or after both always come back: tcp:host:port and vsock:cid:port among them |
| HostService.HostRoundTrip | adb/sockets.cpp:692-762 | A host alone after such names comes back if and only if the command does not start like a port |
| HostService.BracketRoundTrip | adb/sockets.cpp:708-762 | A bracketed address with a port, after any skipped names, always comes back |
| HostService.BracketAloneRoundTrip | adb/sockets.cpp:708-762 | Without a port, if and only if the command does not start like one |
| HostService.PlainRoundTrip | adb/sockets.cpp:677-762 | A serial without a colon comes back if and only if it is none of the reserved words and the command does not start like a port |
| HostService.EmptyCommandExactlyWhen | adb/sockets.cpp:693-709 | Nothing is left after the names if and only if the input is nothing but an extra name, alone or after a protocol name, and then the parse fails |
| HostService.FindWord | adb/sockets.cpp:677-706 | The first of the words that the input starts with, and what it takes of it |
| HostService.ParseHostService | adb/sockets.cpp:644-762 | The parser that moves an index through the input computes the function the round trips are about |
| HostService.FinishAt | adb/sockets.cpp:664-675 | The check that the serial ends in a colon holds |
| HostService.SkipAddress | adb/sockets.cpp:708-734 | The bracketed address or everything up to the next colon |

## Left out

- Descriptors, epoll, threads and mutexes: reads and writes are choices of arbitrary prefixes, poll outcomes are inputs, and the looper's steps are atomic.
- `deferred_close`: the timing of closing a descriptor.
- Reads and writes of many bytes at once: in the classes one `writev` takes fewer than 2^32 bytes, and `DropFront` drops fewer, since its counter has 32 bits; the protocol model has no such bound.
- Local ids: the process aborts rather than let them wrap around, and so no run of the model goes beyond 2^32.
- The grant of an OPEN travels with the message rather than in its second argument, and the service name is reduced to whether it could be started.
- Offline transports, CONNECT, AUTH, STLS and SYNC packets, and the refusal of reverse connections that are not configured: they do not touch streams.
- A CLSE with id 0 from another transport: the link has one transport.
- Windows of 2^31 bytes or more, negative or wrong acks from the device: the peer acknowledges the bytes it wrote.
- Smart socket requests, trackers and listeners: only their part in the peer graph is modelled.
- TLS in the blocking connection, checksums and compression: checksum values and compressed blocks are arbitrary.
- NonblockingConnection.CheckFailsExactlyWhen: the two threads take turns, since a mutex guards what they share; only the arming of the poll, its firing and the reading of the wake pipe lie apart. What a write error leaves behind is not followed, since the connection then ends.
- SyncAcks.SyncConnection.ReadAcknowledgements: the printing of errors and the transfer statistics.
- IncrementalServers.Run: a file with a hash tree has not exactly one block, the identifiers of files to prefetch are below the number of files, priority blocks are not negative and files have fewer than 2^31 blocks; the code relies on all four.
- IncrementalServers.IncrementalServer.Serve: the log holds the frames handed to the output buffer and how many of them were flushed on request; that a flush reaches the device is `ChunkBuffers.ChunkBuffer.SendAll`, which is proved for every choice of frames and flushes. A run is cut off when the given polls are used up, as if the poll failed.
- ChunkBuffers.ChunkBuffer.Flush: bytes handed to a connection that fails to take them count as on the wire, as the server counts them.
- RequestScanners.Session: bytes that are retained at a timeout are output again at the next one, so that with timeouts the output can hold more than the text.
- HostService.HostRoundTrip: serials that open a bracket and do not close it, or go on after it with anything but a port.
- PacketHandlers.PacketHandler.HandlePacket: a socket moves between the lists after the call that changed it rather than inside that call; both happen under the same lock.
- The discovery of priority blocks, the signature headers, and the front ends: not part of this model.
