/** The non-blocking connection: reassembly of packets from reads of any size, and the
    buffered writer. */
module NonblockingConnection {
  import opened Common
  import opened IOVectors
  import opened Packets

  // ---- The reader, as a value

  /** `header` has been taken off `buffer` already. */
  datatype Reader = Reader(header: Option<Message>, buffer: seq<byte>, delivered: seq<Packet>)

  /** Takes the header off the buffer once it is there in full. */
  function WithHeader(r: Reader): Reader {
    if r.header.None? && |r.buffer| >= HEADER_SIZE
    then Reader(Some(DecodeHeader(r.buffer)), r.buffer[HEADER_SIZE..], r.delivered)
    else r
  }

  /** Delivers the packet once its payload is there in full. */
  function WithPacket(r: Reader): Reader {
    if r.header.Some? && |r.buffer| >= r.header.value.dataLength
    then
      var n := r.header.value.dataLength;
      Reader(None, r.buffer[n..], r.delivered + [Packet(r.header.value, r.buffer[..n])])
    else r
  }

  /** What happens to one read of the descriptor: at most one header and one packet. */
  function OnRead(r: Reader, chunk: seq<byte>): Reader {
    WithPacket(WithHeader(r.(buffer := r.buffer + chunk)))
  }

  function OnReads(chunks: seq<seq<byte>>): Reader {
    if chunks == [] then Reader(None, [], []) else OnRead(OnReads(chunks[..|chunks| - 1]), chunks[|chunks| - 1])
  }

  /** The bytes read but not delivered. */
  function Pending(r: Reader): seq<byte> {
    (if r.header.Some? then EncodeHeader(r.header.value) else []) + r.buffer
  }

  /** How many whole packets stand at the front of `s`. */
  function Whole(s: seq<byte>): nat
    decreases |s|
  {
    if HasPacket(s) then 1 + Whole(AfterFirst(s)) else 0
  }

  lemma {:induction false} HeaderOfPrefix(s: seq<byte>)
    requires |s| >= HEADER_SIZE
    ensures EncodeHeader(DecodeHeader(s)) + s[HEADER_SIZE..] == s
  {
    HeaderBytes(s[..HEADER_SIZE]);
    assert DecodeHeader(s) == DecodeHeader(s[..HEADER_SIZE]);
    assert s == s[..HEADER_SIZE] + s[HEADER_SIZE..];
  }

  /** A packet that is there in full, as its header and what follows. */
  lemma {:induction false} PacketAfterHeader(m: Message, body: seq<byte>)
    ensures var s := EncodeHeader(m) + body;
      && (HasPacket(s) <==> |body| >= m.dataLength)
      && (HasPacket(s) ==> FirstPacket(s) == Packet(m, body[..m.dataLength]) && AfterFirst(s) == body[m.dataLength..])
  {
    HeaderRoundTrip(m, body);
    var s, n := EncodeHeader(m) + body, m.dataLength;
    if |body| >= n {
      assert s[HEADER_SIZE..HEADER_SIZE + n] == body[..n] && s[HEADER_SIZE + n..] == body[n..];
    }
  }

  /** One read delivers the first pending packet if it is complete, and no second one,
      however many are complete: the backlog law of the reader. */
  lemma {:induction false} ReadDeliversAtMostOne(r: Reader, chunk: seq<byte>)
    ensures var s, r' := Pending(r) + chunk, OnRead(r, chunk);
      if HasPacket(s) then r'.delivered == r.delivered + [FirstPacket(s)] && Pending(r') == AfterFirst(s)
      else r'.delivered == r.delivered && Pending(r') == s
  {
    var s, all := Pending(r) + chunk, r.buffer + chunk;
    if r.header.Some? {
      assert s == EncodeHeader(r.header.value) + all;
      PacketAfterHeader(r.header.value, all);
    } else {
      assert s == all;
      if |s| >= HEADER_SIZE {
        HeaderOfPrefix(s);
        PacketAfterHeader(DecodeHeader(s), s[HEADER_SIZE..]);
      }
    }
  }

  /** A reader with nothing complete pending has nothing complete pending after a read
      exactly when the read completed fewer than two packets. */
  lemma {:induction false} ReaderKeepsUp(r: Reader, chunk: seq<byte>)
    requires Whole(Pending(r)) == 0
    ensures Whole(Pending(OnRead(r, chunk))) == 0 <==> Whole(Pending(r) + chunk) < 2
  {
    ReadDeliversAtMostOne(r, chunk);
  }

  /** Two packets in one read: the second stays in the buffer until more bytes come. */
  lemma {:induction false} ReaderCanLag(p: Packet, q: Packet)
    requires WellFormed(p) && WellFormed(q)
    ensures var r := OnReads([Wire(p) + Wire(q)]); r.delivered == [p] && Pending(r) == Wire(q) && Whole(Pending(r)) == 1
  {
    var s := Wire(p) + Wire(q);
    var none: seq<seq<byte>> := [];
    assert [s][..0] == none;
    assert Pending(OnReads(none)) + s == s;
    FirstOfWire(p, Wire(q));
    assert Wire(q) + [] == Wire(q);
    FirstOfWire(q, []);
    ReadDeliversAtMostOne(OnReads(none), s);
    assert OnReads([s]) == OnRead(OnReads(none), s);
  }

  lemma {:induction false} DeliverKeepsWire(delivered: seq<Packet>, p: Packet, rest: seq<byte>)
    ensures WireAll(delivered + [p]) + rest == WireAll(delivered) + (Wire(p) + rest)
  {
    WireAppend(delivered, [p]);
    WireOne(p);
  }

  lemma {:induction false} ReadLosesNothing(r: Reader, chunk: seq<byte>)
    ensures var r' := OnRead(r, chunk);
      && WireAll(r'.delivered) + Pending(r') == WireAll(r.delivered) + Pending(r) + chunk
      && (r'.delivered == r.delivered || exists p :: WellFormed(p) && r'.delivered == r.delivered + [p])
  {
    var s := Pending(r) + chunk;
    ReadDeliversAtMostOne(r, chunk);
    assert WireAll(r.delivered) + Pending(r) + chunk == WireAll(r.delivered) + s;
    if HasPacket(s) {
      FirstIsPrefix(s);
      DeliverKeepsWire(r.delivered, FirstPacket(s), AfterFirst(s));
    }
  }

  /** However a stream is cut into reads, what has been delivered and what is pending
      make up exactly what has been read. */
  lemma {:induction false} NothingIsLost(chunks: seq<seq<byte>>)
    ensures var r := OnReads(chunks); WireAll(r.delivered) + Pending(r) == Concat(chunks)
    ensures forall p :: p in OnReads(chunks).delivered ==> WellFormed(p)
  {
    if chunks != [] {
      NothingIsLost(chunks[..|chunks| - 1]);
      ConcatLast(chunks);
      ReadLosesNothing(OnReads(chunks[..|chunks| - 1]), chunks[|chunks| - 1]);
    }
  }

  lemma {:induction false} ConcatLast(chunks: seq<seq<byte>>)
    requires chunks != []
    ensures Concat(chunks) == Concat(chunks[..|chunks| - 1]) + chunks[|chunks| - 1]
  {
    if |chunks| == 1 {
      assert chunks[..0] == [] && chunks[1..] == [];
    } else {
      ConcatLast(chunks[1..]);
      assert chunks[1..][..|chunks| - 2] == chunks[..|chunks| - 1][1..];
      assert chunks[0] + (Concat(chunks[1..|chunks| - 1]) + chunks[|chunks| - 1])
          == chunks[0] + Concat(chunks[1..|chunks| - 1]) + chunks[|chunks| - 1];
      assert chunks[..|chunks| - 1][1..] == chunks[1..|chunks| - 1];
    }
  }

  lemma {:induction false} SameFirst(p: Packet, x: seq<byte>, q: Packet, y: seq<byte>)
    requires WellFormed(p) && WellFormed(q) && Wire(p) + x == Wire(q) + y
    ensures p == q && x == y
  {
    FirstOfWire(p, x);
    FirstOfWire(q, y);
  }

  /** Two lists of packets whose bytes agree: the shorter is a prefix of the longer, and
      the bytes of the rest agree too. */
  lemma {:induction false} WireDeterminesPackets(a: seq<Packet>, tail: seq<byte>, ps: seq<Packet>, unread: seq<byte>)
    requires forall p :: p in a ==> WellFormed(p)
    requires forall p :: p in ps ==> WellFormed(p)
    requires WireAll(a) + tail + unread == WireAll(ps)
    ensures a <= ps && tail + unread == WireAll(ps[|a|..])
  {
    if a == [] {
      assert tail + unread == WireAll(a) + tail + unread;
    } else {
      assert a[0] in a;
      var rest := WireAll(a[1..]) + tail + unread;
      assert WireAll(ps) == Wire(a[0]) + rest;
      assert |Wire(a[0])| > 0;
      assert ps != [] && ps[0] in ps;
      SameFirst(a[0], rest, ps[0], WireAll(ps[1..]));
      WireDeterminesPackets(a[1..], tail, ps[1..], unread);
      assert ps[1..][|a| - 1..] == ps[|a|..];
    }
  }

  /** Packet framing: however the bytes of a list of packets are cut into reads, the
      packets delivered are a prefix of the list, and the bytes of the others are what
      is still buffered followed by what is still unread. */
  lemma {:induction false} Framing(ps: seq<Packet>, chunks: seq<seq<byte>>, unread: seq<byte>)
    requires forall p :: p in ps ==> WellFormed(p)
    requires Concat(chunks) + unread == WireAll(ps)
    ensures var r := OnReads(chunks);
      r.delivered <= ps && Pending(r) + unread == WireAll(ps[|r.delivered|..])
  {
    var r := OnReads(chunks);
    NothingIsLost(chunks);
    WireDeterminesPackets(r.delivered, Pending(r), ps, unread);
  }

  // ---- The connection itself: its read side and its write side

  class ReadSide {
    var readHeader: Option<Message>
    const readBuffer: IOVector
    /** Packets handed to the transport. */
    var delivered: seq<Packet>

    ghost predicate Valid()
      reads this, readBuffer
    {
      readBuffer.Valid()
    }

    ghost function State(): Reader
      requires Valid()
      reads this, readBuffer
    {
      Reader(readHeader, readBuffer.View(), delivered)
    }

    constructor ()
      ensures Valid() && fresh(readBuffer) && State() == Reader(None, [], [])
    {
      readHeader, delivered := None, [];
      readBuffer := new IOVector();
    }

    /** The first `n` bytes of the buffer, in one piece. */
    method Take(n: nat) returns (bytes: seq<byte>)
      requires Valid() && n <= |readBuffer.View()|
      modifies readBuffer
      ensures Valid() && bytes == old(readBuffer.View())[..n] && readBuffer.View() == old(readBuffer.View())[n..]
    {
      var front := readBuffer.TakeFront(n);
      var block := front.CoalesceOut();
      bytes := block.Bytes();
    }

    method TakeHeader()
      requires Valid()
      modifies this`readHeader, readBuffer
      ensures Valid() && State() == WithHeader(old(State()))
    {
      if readHeader.None? && readBuffer.Size() >= HEADER_SIZE {
        ghost var all := readBuffer.View();
        var bytes := Take(HEADER_SIZE);
        assert DecodeHeader(bytes) == DecodeHeader(all);
        readHeader := Some(DecodeHeader(bytes));
      }
    }

    method TakePacket()
      requires Valid()
      modifies this`readHeader, this`delivered, readBuffer
      ensures Valid() && State() == WithPacket(old(State()))
    {
      if readHeader.Some? && readBuffer.Size() >= readHeader.value.dataLength {
        var payload := Take(readHeader.value.dataLength);
        delivered := delivered + [Packet(readHeader.value, payload)];
        readHeader := None;
      }
    }

    /** The POLLIN branch of `Run`. */
    method OnReadable(chunk: seq<byte>)
      requires Valid()
      modifies this`readHeader, this`delivered, readBuffer
      ensures Valid() && State() == OnRead(old(State()), chunk)
    {
      readBuffer.Append(BlockOf(chunk));
      TakeHeader();
      TakePacket();
    }
  }

  datatype Dispatched = Error | Completed | TryAgain

  // ---- The write check and the race around it, as a value

  /** What both threads do to the write side: the reader thread enters its poll, armed if the
      descriptor is not writable; a writer queues a packet with `size` bytes of payload,
      dispatches, and writes to the wake pipe if bytes are left; the reader thread dispatches
      when its armed poll fires, and takes one wake-up out of the pipe when there is one. */
  datatype Turn = Arm | Queue(size: nat, w: WriteResult) | Fire(w: WriteResult) | Drain

  /** `left` is the size of the write buffer; `failed` says that the check in
      `DispatchWrites` found it empty; `polling` says that the reader thread is in its poll, and
      `wakes` counts the wake-ups in its pipe. */
  datatype WriterState = WriterState(left: nat, writable: bool, armed: bool, failed: bool, polling: bool, wakes: nat)

  /** The write takes some bytes, or has to wait. */
  predicate Good(w: WriteResult) {
    !w.Failed? && w != Wrote(0)
  }

  /** One `writev`, which takes no more than there is. */
  function Dispatch(s: WriterState, w: WriteResult): WriterState {
    match w
    case WouldBlock => s.(writable := false)
    case Failed => s
    case Wrote(n) => if n == 0 then s else s.(left := s.left - Min(n, s.left), writable := s.left <= n)
  }

  function WakeUp(s: WriterState, w: WriteResult): WriterState {
    if Good(w) && s.left > 0 then s.(wakes := s.wakes + 1) else s
  }

  function DoTurn(s: WriterState, t: Turn): WriterState {
    match t
    case Arm => s.(armed := !s.writable, polling := true)
    case Queue(size, w) => WakeUp(Dispatch(s.(left := s.left + HEADER_SIZE + size), w), w)
    case Fire(w) =>
      if !s.armed then s
      else if s.left == 0 then s.(failed := true, armed := false, polling := false)
      else Dispatch(s.(armed := false, polling := false), w)
    case Drain => if s.wakes == 0 then s else s.(wakes := s.wakes - 1, armed := false, polling := false)
  }

  function DoTurns(ts: seq<Turn>): WriterState {
    if ts == [] then WriterState(0, true, false, false, false, 0) else DoTurn(DoTurns(ts[..|ts| - 1]), ts[|ts| - 1])
  }

  predicate Sane(s: WriterState) {
    !s.writable ==> s.left > 0
  }

  lemma {:induction false} StaysSane(s: WriterState, t: Turn)
    requires Sane(s)
    ensures Sane(DoTurn(s, t))
  {
  }

  /** In every interleaving, the poll is armed for writing only with bytes in the buffer. */
  lemma {:induction false} ArmedHasBytes(ts: seq<Turn>)
    ensures var s := DoTurns(ts); (!s.writable ==> s.left > 0) && (DoTurn(s, Arm).armed ==> DoTurn(s, Arm).left > 0)
  {
    if ts != [] {
      ArmedHasBytes(ts[..|ts| - 1]);
      StaysSane(DoTurns(ts[..|ts| - 1]), ts[|ts| - 1]);
    }
  }

  predicate Succeeds(t: Turn) {
    t.Queue? || t.Fire? ==> Good(t.w)
  }

  /** The descriptor counts as not writable exactly while bytes are left, and a reader thread
      that is then in its poll is armed or about to be woken. */
  predicate Attended(s: WriterState) {
    (s.left > 0 <==> !s.writable) && (s.left > 0 && s.polling ==> s.armed || s.wakes > 0)
  }

  lemma {:induction false} StaysAttended(s: WriterState, t: Turn)
    requires Attended(s) && Succeeds(t)
    ensures Attended(DoTurn(s, t))
  {
  }

  /** No write is forgotten: this holds in every interleaving without a write error, so that
      whatever makes the reader thread leave its poll, the next one is armed. */
  lemma {:induction false} NothingStalls(ts: seq<Turn>)
    requires forall t :: t in ts ==> Succeeds(t)
    ensures Attended(DoTurns(ts))
    ensures DoTurns(ts).left > 0 ==> DoTurns(ts + [Drain] + [Arm]).armed && DoTurns(ts + [Arm]).armed
  {
    if ts != [] {
      assert ts[|ts| - 1] in ts;
      NothingStalls(ts[..|ts| - 1]);
      StaysAttended(DoTurns(ts[..|ts| - 1]), ts[|ts| - 1]);
    }
    assert (ts + [Drain])[..|ts|] == ts == (ts + [Arm])[..|ts|];
    assert (ts + [Drain] + [Arm])[..|ts| + 1] == ts + [Drain];
  }

  /** The last of the writes `qs` made after `ts` left the buffer empty. */
  predicate LastEmpties(ts: seq<Turn>, qs: seq<Turn>) {
    qs != [] && qs[|qs| - 1].Queue? && qs[|qs| - 1].w.Wrote? &&
    qs[|qs| - 1].w.n >= DoTurns(ts + qs[..|qs| - 1]).left + HEADER_SIZE + qs[|qs| - 1].size
  }

  lemma {:induction false} QueueStep(s: WriterState, q: Turn)
    requires q.Queue?
    ensures DoTurn(s, q).armed == s.armed && DoTurn(s, q).failed == s.failed
    ensures DoTurn(s, q).left == 0 <==> q.w.Wrote? && q.w.n >= s.left + HEADER_SIZE + q.size
  {
  }

  /** Between arming and firing only writers take turns; the buffer is empty exactly if the
      last write emptied it. */
  lemma {:induction false} EmptiedByAWrite(ts: seq<Turn>, qs: seq<Turn>)
    requires forall q :: q in qs ==> q.Queue?
    ensures DoTurns(ts + qs).armed == DoTurns(ts).armed && DoTurns(ts + qs).failed == DoTurns(ts).failed
    ensures DoTurns(ts).left > 0 ==> (DoTurns(ts + qs).left == 0 <==> LastEmpties(ts, qs))
  {
    if qs == [] {
      assert ts + qs == ts;
    } else {
      var n := |qs| - 1;
      assert qs[n] in qs;
      assert (ts + qs)[..|ts + qs| - 1] == ts + qs[..n];
      EmptiedByAWrite(ts, qs[..n]);
      QueueStep(DoTurns(ts + qs[..n]), qs[n]);
    }
  }

  /** The check fails exactly when the poll was armed and the last write since then emptied
      the buffer. */
  lemma {:induction false} CheckFailsExactlyWhen(ts: seq<Turn>, qs: seq<Turn>, w: WriteResult)
    requires !DoTurns(ts).failed && forall q :: q in qs ==> q.Queue?
    ensures DoTurn(DoTurns(ts + [Arm] + qs), Fire(w)).failed <==> !DoTurns(ts).writable && LastEmpties(ts + [Arm], qs)
  {
    assert (ts + [Arm])[..|ts|] == ts;
    ArmedHasBytes(ts);
    EmptiedByAWrite(ts + [Arm], qs);
  }

  /** It can: a write that completes between arming and firing. */
  lemma {:induction false} CheckCanFail()
    ensures DoTurn(DoTurns([Queue(0, Wrote(1))] + [Arm] + [Queue(0, Wrote(47))]), Fire(WouldBlock)).failed
  {
    var ts, qs := [Queue(0, Wrote(1))], [Queue(0, Wrote(47))];
    assert ts[..0] == [] && qs[..0] == [];
    assert DoTurns(ts) == WriterState(23, false, false, false, false, 1);
    assert (ts + [Arm])[..1] == ts;
    assert ts + [Arm] + qs[..0] == ts + [Arm];
    CheckFailsExactlyWhen(ts, qs, WouldBlock);
  }

  class WriteSide {
    const writeBuffer: IOVector
    var writable: bool
    /** The wake-ups in the pipe of the reader thread. */
    var wakes: nat
    /** The bytes of the packets accepted by `Write`, and those `writev` has taken. */
    ghost var accepted: seq<byte>
    ghost var written: seq<byte>
    /** The reader thread is in its poll, and has asked for write readiness there. */
    ghost var polling: bool
    ghost var armed: bool

    /** The bytes on the wire and in the buffer are those accepted, in order; while the
        descriptor is not writable there is something to write. */
    ghost predicate Valid()
      reads this, writeBuffer
    {
      && writeBuffer.Valid()
      && written + writeBuffer.View() == accepted
      && (!writable ==> writeBuffer.View() != [])
    }

    constructor ()
      ensures Valid() && fresh(writeBuffer) && accepted == [] && Level() == DoTurns([])
    {
      writable, wakes, accepted, written := true, 0, [], [];
      polling, armed := false, false;
      writeBuffer := new IOVector();
    }

    /** What the race is about. */
    ghost function Level(): WriterState
      requires Valid()
      reads this, writeBuffer
    {
      WriterState(|writeBuffer.View()|, writable, armed, false, polling, wakes)
    }

    /** The reader thread enters its poll, and asks for write readiness there while the
        descriptor is not writable. */
    method ArmPoll() returns (asks: bool)
      requires Valid()
      modifies this`armed, this`polling
      ensures Valid() && Level() == DoTurn(old(Level()), Arm) && asks == armed
      ensures asks ==> writeBuffer.View() != []
    {
      asks := !writable;
      armed, polling := asks, true;
    }

    /** The reader thread takes one wake-up out of its pipe. */
    method TakeWake()
      requires Valid() && wakes > 0
      modifies this`wakes, this`armed, this`polling
      ensures Valid() && Level() == DoTurn(old(Level()), Drain)
    {
      wakes := wakes - 1;
      armed, polling := false, false;
    }

    /** `DispatchWrites`; its check that there is something to write is the precondition. */
    method DispatchWrites(w: WriteResult) returns (r: Dispatched)
      requires Valid() && writeBuffer.View() != []
      requires w.Wrote? ==> w.n <= |writeBuffer.View()| && w.n < TWO_32
      modifies this`writable, this`written, writeBuffer
      ensures Valid() && accepted == old(accepted)
      ensures written == old(written) + old(writeBuffer.View())[..if w.Wrote? then w.n else 0]
      ensures |writeBuffer.View()| == |old(writeBuffer.View())| - if w.Wrote? then w.n else 0
      ensures Level() == Dispatch(old(Level()), w)
      ensures r == if !Good(w) then Error else if writeBuffer.View() == [] then Completed else TryAgain
    {
      match w
      case WouldBlock =>
        writable := false;
        return TryAgain;
      case Failed =>
        return Error;
      case Wrote(n) =>
        if n == 0 {
          return Error;
        }
        ghost var all := writeBuffer.View();
        assert written + all == written + all[..n] + all[n..];
        written := written + all[..n];
        writeBuffer.DropFront(n);
        writable := writeBuffer.Size() == 0;
        return if writeBuffer.Size() == 0 then Completed else TryAgain;
    }

    /** The two blocks of a packet go behind everything accepted before. */
    method Enqueue(header: seq<byte>, payload: seq<byte>)
      requires Valid() && header != []
      modifies this`accepted, writeBuffer
      ensures Valid() && accepted == old(accepted) + (header + payload)
      ensures |writeBuffer.View()| == |old(writeBuffer.View())| + |header| + |payload|
    {
      Associative(written, writeBuffer.View(), header + payload);
      Associative(writeBuffer.View(), header, payload);
      ghost var all := writeBuffer.View();
      writeBuffer.Append(BlockOf(header));
      if payload != [] {
        writeBuffer.Append(BlockOf(payload));
      } else {
        assert all + header + payload == all + header;
      }
      accepted := accepted + (header + payload);
    }

    /** `Write`. */
    method Write(p: Packet, w: WriteResult) returns (ok: bool)
      requires Valid()
      requires w.Wrote? ==> w.n <= |writeBuffer.View()| + HEADER_SIZE + |p.payload| && w.n < TWO_32
      modifies this`writable, this`wakes, this`accepted, this`written, writeBuffer
      ensures Valid() && accepted == old(accepted) + Wire(p) && old(written) <= written
      ensures Level() == DoTurn(old(Level()), Queue(|p.payload|, w))
      ensures ok <==> Good(w)
    {
      Enqueue(EncodeHeader(p.msg), p.payload);
      var r := DispatchWrites(w);
      if r.TryAgain? {
        wakes := wakes + 1;
      }
      return !r.Error?;
    }

    /** The armed poll fires, and the check holds. */
    method OnWritable(w: WriteResult) returns (ok: bool)
      requires Valid() && armed && writeBuffer.View() != []
      requires w.Wrote? ==> w.n <= |writeBuffer.View()| && w.n < TWO_32
      modifies this`writable, this`written, this`armed, this`polling, writeBuffer
      ensures Valid() && accepted == old(accepted) && old(written) <= written
      ensures Level() == DoTurn(old(Level()), Fire(w))
      ensures ok <==> Good(w)
    {
      armed, polling := false, false;
      var r := DispatchWrites(w);
      return !r.Error?;
    }
  }
}
