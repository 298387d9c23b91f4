/** The handlers of a local socket in their imperative form. */
module LocalSockets {
  import opened Common
  import opened IOVectors
  import opened StreamSocket

  datatype FlushResult = Destroyed | TryAgain | Completed

  /** What one `read` of the descriptor returned. */
  datatype ReadResult = Data(bytes: seq<byte>) | WouldBlock | EndOfFile

  /** What the read loop gathers into at most `room` bytes; a read returns no more than
      the room left, and a loop that runs out of answers would block. */
  function Gather(answers: seq<ReadResult>, room: nat): (seq<byte>, bool) {
    if room == 0 || answers == [] then ([], false)
    else
      match answers[0]
      case WouldBlock => ([], false)
      case EndOfFile => ([], true)
      case Data(bytes) =>
        if bytes == [] then ([], true)
        else
          var n := Min(|bytes|, room);
          var (rest, eof) := Gather(answers[1..], room - n);
          (bytes[..n] + rest, eof)
  }

  /** Everything the descriptor offered, in order. */
  function Offered(answers: seq<ReadResult>): seq<byte> {
    if answers == [] then [] else (if answers[0].Data? then answers[0].bytes else []) + Offered(answers[1..])
  }

  /** The loop never overfills its buffer, sees the end only with room left, and skips
      or reorders nothing unless a single read offered more than the room. */
  lemma {:induction false} GatherFits(answers: seq<ReadResult>, room: nat)
    ensures var (data, eof) := Gather(answers, room);
      && |data| <= room && (eof ==> |data| < room)
      && data <= Offered(answers)
  {
    if room != 0 && answers != [] && answers[0].Data? && answers[0].bytes != [] {
      var bytes := answers[0].bytes;
      var n := Min(|bytes|, room);
      GatherFits(answers[1..], room - n);
      if n == |bytes| {
        assert bytes[..n] == bytes;
      } else {
        assert Gather(answers[1..], 0) == ([], false);
        assert bytes[..n] + [] == bytes[..n];
      }
    }
  }

  /** Neither the end nor a pause: this read gives bytes. */
  predicate GivesBytes(a: ReadResult) {
    a.Data? && a.bytes != []
  }

  /** The `k`th read is the first that gives no bytes, it meets the end of file, and there was
      room left for more than those before it gave. */
  predicate EndsAt(answers: seq<ReadResult>, room: nat, k: nat) {
    && k < |answers| && (answers[k].EndOfFile? || answers[k] == Data([]))
    && (forall j :: 0 <= j < k ==> GivesBytes(answers[j])) && |Offered(answers[..k])| < room
  }

  lemma {:induction false} EndsAtNext(answers: seq<ReadResult>, room: nat, k: nat)
    requires answers != [] && GivesBytes(answers[0]) && k < |answers[1..]|
    ensures Offered(answers[..k + 1]) == answers[0].bytes + Offered(answers[1..][..k])
    ensures EndsAt(answers, room, k + 1) <==> |answers[0].bytes| < room && EndsAt(answers[1..], room - |answers[0].bytes|, k)
  {
    assert answers[..k + 1][0] == answers[0] && answers[..k + 1][1..] == answers[1..][..k];
    assert forall j :: 0 < j < k + 1 ==> answers[j] == answers[1..][j - 1];
  }

  /** An end of file that is met with room left is reported, and everything before it has been
      gathered. */
  lemma {:induction false} EndIsSeen(answers: seq<ReadResult>, room: nat, k: nat)
    requires EndsAt(answers, room, k)
    ensures Gather(answers, room) == (Offered(answers[..k]), true)
  {
    if k > 0 {
      var bytes := answers[0].bytes;
      assert GivesBytes(answers[0]);
      EndsAtNext(answers, room, k - 1);
      EndIsSeen(answers[1..], room - |bytes|, k - 1);
      assert bytes[..|bytes|] == bytes;
    }
  }

  /** Nothing else is reported as the end. */
  lemma {:induction false} SeenIsEnd(answers: seq<ReadResult>, room: nat) returns (k: nat)
    requires Gather(answers, room).1
    ensures EndsAt(answers, room, k)
  {
    k := 0;
    if GivesBytes(answers[0]) {
      var n := Min(|answers[0].bytes|, room);
      k := SeenIsEnd(answers[1..], room - n);
      EndsAtNext(answers, room, k);
      k := k + 1;
    }
  }

  /** The end of file is reported if and only if it is met with room left. */
  lemma {:induction false} GatherSeesEnd(answers: seq<ReadResult>, room: nat)
    ensures Gather(answers, room).1 <==> exists k: nat :: EndsAt(answers, room, k)
    ensures forall k: nat :: EndsAt(answers, room, k) ==> Gather(answers, room).0 == Offered(answers[..k])
  {
    if Gather(answers, room).1 {
      var k := SeenIsEnd(answers, room);
    }
    forall k: nat | EndsAt(answers, room, k)
      ensures Gather(answers, room) == (Offered(answers[..k]), true)
    {
      EndIsSeen(answers, room, k);
    }
  }

  /** The end of `local_socket_flush_incoming`. */
  function Settled(s: Sock): Outcome {
    if s.status.Closing? && !FdFull(s) then StreamSocket.Close(s) else Outcome(s.(writeOn := FdFull(s)), [])
  }

  lemma {:induction false} FlushIsSettled(cfg: Config, s: Sock, w: WriteResult)
    requires WriteFits(s.queue, w)
    ensures var t := AfterWrite(s, w);
      Flush(cfg, s, w) == Outcome(Settled(t).sock, Acks(cfg, t, |s.queue| - |t.queue|) + Settled(t).out)
  {
    var t := AfterWrite(s, w);
    var acks := Acks(cfg, t, |s.queue| - |t.queue|);
    assert acks + [] == acks;
  }

  function Charged(avail: Option<int>, n: nat): Option<int> {
    if avail.Some? then Some(avail.value - n) else None
  }

  class LocalSocket {
    const cfg: Config
    const id: nat
    /** Whether it came from `connect_to_remote`. */
    const opener: bool
    const packetQueue: IOVector
    var status: Status
    var hasPeer: bool
    /** The id of its remote socket, kept after that is gone; 0 before. */
    var peer: nat
    var availableSendBytes: Option<int>
    var readOn: bool
    var writeOn: bool
    var hasWriteError: bool
    /** Everything put on the transport so far. */
    var transport: seq<Msg>
    ghost var sent: seq<byte>
    ghost var written: seq<byte>

    ghost predicate Valid()
      reads this, packetQueue
    {
      packetQueue.Valid()
    }

    ghost function State(): Sock
      requires Valid()
      reads this, packetQueue
    {
      Sock(status, hasPeer, availableSendBytes, packetQueue.View(), readOn, writeOn, hasWriteError, sent, written)
    }

    /** `create_local_socket` and `connect_to_remote`. */
    constructor Connecting(cfg: Config, id: nat)
      ensures Valid() && fresh(packetQueue) && this.cfg == cfg && this.id == id && opener && peer == 0
      ensures State() == Connect(cfg).sock && transport == Connect(cfg).out
    {
      this.cfg, this.id, opener, peer := cfg, id, true, 0;
      status, hasPeer, readOn, writeOn, hasWriteError := Live, false, false, false, false;
      availableSendBytes := if cfg.delayed then Some(0) else None;
      transport := [Open(if cfg.delayed then AsUint32(cfg.window) else 0)];
      packetQueue := new IOVector();
      sent, written := [], [];
    }

    /** The A_OPEN branch of `handle_packet` once the service runs. */
    constructor Accepted(cfg: Config, id: nat, peer: nat, grant: uint32)
      ensures Valid() && fresh(packetQueue) && this.cfg == cfg && this.id == id && !opener && this.peer == peer
      ensures State() == Accept(cfg, grant).sock && transport == Accept(cfg, grant).out
    {
      this.cfg, this.id, opener, this.peer := cfg, id, false, peer;
      status, hasPeer, readOn, writeOn, hasWriteError := Live, true, true, false, false;
      availableSendBytes := if cfg.delayed then Some(grant) else None;
      transport := [StreamSocket.SendReady(cfg, if cfg.delayed then cfg.window else 0)];
      packetQueue := new IOVector();
      sent, written := [], [];
    }

    method SendReady(n: nat)
      requires Valid()
      modifies this`transport
      ensures Valid() && State() == old(State()) && transport == old(transport) + [StreamSocket.SendReady(cfg, n)]
    {
      var ack: Option<uint32> := None;
      if cfg.delayed {
        ack := Some(AsUint32(n));
      }
      transport := transport + [Okay(ack)];
    }

    /** `local_socket_close`. */
    method Close()
      requires Valid()
      modifies this
      ensures Valid() && peer == old(peer)
      ensures State() == StreamSocket.Close(old(State())).sock
      ensures transport == old(transport) + StreamSocket.Close(old(State())).out
    {
      if hasPeer {
        transport := transport + [Clse];
        hasPeer := false;
      }
      if status.Closing? || hasWriteError || packetQueue.Size() == 0 {
        status, readOn, writeOn := Gone, false, false;
        return;
      }
      status := Closing;
      readOn := false;
    }

    /** The `writev` of `local_socket_flush_incoming`; returns the bytes it took. */
    method WriteQueue(w: WriteResult) returns (flushed: uint32)
      requires Valid() && WriteFits(packetQueue.View(), w) && (w.Wrote? ==> w.n < TWO_32)
      modifies this, packetQueue
      ensures Valid() && peer == old(peer) && transport == old(transport)
      ensures State() == AfterWrite(old(State()), w)
      ensures flushed == |old(packetQueue.View())| - |packetQueue.View()|
    {
      flushed := 0;
      if packetQueue.Size() != 0 {
        match w {
          case Wrote(n) =>
            flushed := n;
            written := written + packetQueue.View()[..n];
            if n == packetQueue.Size() {
              var _ := packetQueue.Clear();
            } else {
              packetQueue.DropFront(n);
            }
          case WouldBlock =>
          case Failed => hasWriteError := true;
        }
      }
    }

    /** The acknowledgement of `local_socket_flush_incoming`. */
    method Acknowledgement(flushed: nat)
      requires Valid()
      modifies this`transport
      ensures Valid() && State() == old(State()) && transport == old(transport) + Acks(cfg, State(), flushed)
    {
      if hasPeer {
        if availableSendBytes.Some? {
          SendReady(flushed);
        } else if flushed != 0 && packetQueue.Size() < MAX_PAYLOAD {
          SendReady(0);
        }
      }
    }

    /** A closing socket goes away once its descriptor owes nothing; otherwise write
        interest follows what is owed. */
    method Settle() returns (r: FlushResult)
      requires Valid()
      modifies this
      ensures Valid() && peer == old(peer)
      ensures State() == Settled(old(State())).sock && transport == old(transport) + Settled(old(State())).out
      ensures r.TryAgain? <==> FdFull(State()) && !r.Destroyed?
      ensures r.Destroyed? <==> old(status).Closing? && status.Gone?
    {
      var fdFull := packetQueue.Size() != 0 && !hasWriteError;
      if status.Closing? && !fdFull {
        Close();
        return Destroyed;
      }
      writeOn := fdFull;
      return if fdFull then TryAgain else Completed;
    }

    /** What follows the `writev`. */
    method Conclude(flushed: nat) returns (r: FlushResult)
      requires Valid()
      modifies this
      ensures Valid() && peer == old(peer) && State() == Settled(old(State())).sock
      ensures transport == old(transport) + (Acks(cfg, old(State()), flushed) + Settled(old(State())).out)
      ensures r.TryAgain? <==> FdFull(State()) && !r.Destroyed?
      ensures r.Destroyed? <==> old(status).Closing? && status.Gone?
    {
      Associative(transport, Acks(cfg, State(), flushed), Settled(State()).out);
      Acknowledgement(flushed);
      r := Settle();
    }

    /** `local_socket_flush_incoming`. */
    method FlushIncoming(w: WriteResult) returns (r: FlushResult)
      requires Valid() && WriteFits(packetQueue.View(), w) && (w.Wrote? ==> w.n < TWO_32)
      modifies this, packetQueue
      ensures Valid() && peer == old(peer)
      ensures State() == Flush(cfg, old(State()), w).sock
      ensures transport == old(transport) + Flush(cfg, old(State()), w).out
      ensures r.TryAgain? <==> FdFull(State()) && !r.Destroyed?
      ensures r.Destroyed? <==> old(status).Closing? && status.Gone?
    {
      FlushIsSettled(cfg, State(), w);
      var flushed := WriteQueue(w);
      r := Conclude(flushed);
    }

    /** The read loop of `local_socket_flush_outgoing`. */
    method ReadLoop(answers: seq<ReadResult>) returns (data: seq<byte>, eof: bool)
      ensures (data, eof) == Gather(answers, cfg.maxPayload)
    {
      data, eof := [], false;
      var avail, i := cfg.maxPayload, 0;
      ghost var goal := Gather(answers, avail);
      assert answers[0..] == answers && data + goal.0 == goal.0;
      while avail > 0 && i < |answers|
        invariant 0 <= i <= |answers| && 0 <= avail && !eof
        invariant goal == (data + Gather(answers[i..], avail).0, Gather(answers[i..], avail).1)
      {
        assert answers[i..][0] == answers[i] && answers[i..][1..] == answers[i + 1..];
        assert data + [] == data;
        match answers[i] {
          case WouldBlock =>
            return;
          case EndOfFile =>
            return data, true;
          case Data(bytes) =>
            if bytes == [] {
              return data, true;
            }
            var n := Min(|bytes|, avail);
            ghost var rest := Gather(answers[i + 1..], avail - n).0;
            assert data + (bytes[..n] + rest) == data + bytes[..n] + rest;
            data := data + bytes[..n];
            avail := avail - n;
        }
        i := i + 1;
      }
      assert data + [] == data;
    }

    /** Charges the credit, and hands data to the peer. */
    method HandOn(data: seq<byte>)
      requires Valid()
      modifies `availableSendBytes, `transport, `sent
      ensures Valid() && transport == old(transport) + [Wrte(data)]
      ensures State() == old(State()).(sent := old(sent) + data, avail := Charged(old(availableSendBytes), |data|))
    {
      if availableSendBytes.Some? {
        availableSendBytes := Some(availableSendBytes.value - |data|);
      }
      transport := transport + [Wrte(data)];
      sent := sent + data;
    }

    /** Hands data to the peer and blocks reading when the credit is used up. */
    method SendData(data: seq<byte>)
      requires Valid() && hasPeer
      modifies this
      ensures Valid() && peer == old(peer)
      ensures State() == Send(old(State()), data) && transport == old(transport) + [Wrte(data)]
    {
      HandOn(data);
      if availableSendBytes.None? || availableSendBytes.value <= 0 {
        readOn := false;
      }
    }

    /** `local_socket_flush_outgoing`; returns whether the socket is still there. */
    method FlushOutgoing(answers: seq<ReadResult>) returns (alive: bool)
      requires Valid()
      modifies this
      ensures Valid() && peer == old(peer)
      ensures var data, eof := Gather(answers, cfg.maxPayload).0, Gather(answers, cfg.maxPayload).1;
        && State() == Read(old(State()), data, eof).sock
        && transport == old(transport) + Read(old(State()), data, eof).out
        && alive == !eof
    {
      var data, eof := ReadLoop(answers);
      ghost var before := transport;
      ghost var out: seq<Msg> := [];
      if data != [] && hasPeer {
        SendData(data);
        out := [Wrte(data)];
      }
      if eof {
        ghost var t := State();
        Close();
        assert transport == before + (out + StreamSocket.Close(t).out);
        return false;
      }
      return true;
    }

    /** `local_socket_enqueue`. */
    method Enqueue(data: seq<byte>, w: WriteResult) returns (r: FlushResult)
      requires Valid() && status.Live? && hasPeer
      requires WriteFits(packetQueue.View() + data, w) && (w.Wrote? ==> w.n < TWO_32)
      modifies this, packetQueue
      ensures Valid() && peer == old(peer)
      ensures State() == OnWrte(cfg, old(State()), data, w).sock
      ensures transport == old(transport) + OnWrte(cfg, old(State()), data, w).out
      ensures r == if FdFull(State()) then TryAgain else Completed
    {
      packetQueue.Append(BlockOf(data));
      r := FlushIncoming(w);
    }

    /** `local_socket_ack`. */
    method Acknowledge(acked: Option<int>)
      requires Valid()
      modifies this
      ensures Valid() && peer == old(peer) && transport == old(transport)
      ensures State() == Ack(cfg, old(State()), acked)
    {
      if availableSendBytes.Some? != acked.Some? {
        return;
      }
      if availableSendBytes.Some? {
        var avail := availableSendBytes.value + acked.value;
        avail := Min(avail, cfg.window);
        availableSendBytes := Some(avail);
        if avail > 0 {
          readOn := true;
        }
      } else {
        readOn := true;
      }
    }

    /** The first A_OKAY creates the connection. */
    method ConnectTo(from: nat)
      requires Valid()
      modifies `hasPeer, `peer
      ensures Valid() && State() == old(State()).(hasPeer := true) && peer == from
    {
      hasPeer, peer := true, from;
    }

    /** `local_socket_ready`. */
    method Ready()
      requires Valid()
      modifies `readOn
      ensures Valid() && State() == old(State()).(readOn := true)
    {
      readOn := true;
    }

    /** The A_OKAY branch of `handle_packet` for this socket, from remote socket `from`. */
    method HandleOkay(from: nat, ack: Option<uint32>)
      requires Valid()
      modifies this
      ensures Valid() && peer == if status.Live? && !old(hasPeer) then from else old(peer)
      ensures State() == OnOkay(cfg, old(State()), ack).sock
      ensures transport == old(transport) + OnOkay(cfg, old(State()), ack).out
    {
      if status.Live? {
        var acked: Option<int> := None;
        if ack.Some? {
          acked := Some(AsInt32(ack.value));
        }
        if !hasPeer {
          ConnectTo(from);
          Acknowledge(acked);
          Ready();
        } else {
          Acknowledge(acked);
        }
      } else {
        transport := transport + [Clse];
      }
    }

    /** The A_CLSE branch of `handle_packet` for this socket. */
    method HandleClose(refuse: bool)
      requires Valid()
      modifies this
      ensures Valid() && peer == old(peer)
      ensures State() == OnClse(old(State()), refuse).sock
      ensures transport == old(transport) + OnClse(old(State()), refuse).out
    {
      if status.Live? && (hasPeer || refuse) {
        Close();
      }
    }
  }
}
