/** What every step of a stream keeps. */
module StreamInvariants {
  import opened Common
  import opened StreamSocket
  import opened StreamProtocol

  // ---- One socket

  /** Facts about one socket at rest.  Write interest is on exactly while the
      descriptor still owes queued bytes. */
  ghost predicate SockOk(cfg: Config, s: Sock) {
    && (s.status.Idle? ==> s == IDLE)
    && (s.hasPeer ==> s.status.Live?)
    && (!s.status.Idle? ==> (s.avail.Some? <==> cfg.delayed))
    && (Exists(s) ==> (s.writeOn <==> FdFull(s)))
    && (s.status.Closing? ==> FdFull(s) && !s.readOn)
  }

  /** A handler that consumed `input` and sent `out` neither invented nor lost
      bytes in either direction. */
  ghost predicate KeepsBytes(s: Sock, input: Load, t: Sock, out: Load) {
    && t.sent == s.sent + out.data
    && t.written + t.queue == s.written + s.queue + (if t.status.Live? then input.data else [])
    && s.written <= t.written
  }

  /** How a handler may move a socket through its life, and what it owes the
      other end when the socket loses its peer. */
  ghost predicate Advances(s: Sock, input: Load, t: Sock, out: Load) {
    && (t.status.Live? ==> s.status.Live? && input.closes == 0)
    && (s.status.Gone? ==> t.status.Gone?)
    && !t.status.Idle?
    && (s.hasPeer && !t.hasPeer ==> out.closes > 0)
    && (s.hasPeer && t.status.Live? ==> t.hasPeer)
    && (!s.hasPeer ==> out.okays == out.acked == 0 && out.data == [])
    && (!s.status.Live? && input.okays > 0 ==> out.closes > 0)
    && out.opens == out.refusals == 0
  }

  /** A handler that had bytes to write either still has some or acknowledged. */
  ghost predicate Acknowledges(s: Sock, input: Load, t: Sock, out: Load) {
    && (s.writeErr ==> t.writeErr)
    && (s.hasPeer && t.hasPeer && !t.writeErr && |s.queue| + |input.data| > 0 ==> t.queue != [] || out.okays > 0)
  }

  lemma {:induction false} LoadPair(data: seq<byte>)
    ensures LoadOf([Wrte(data)] + [Clse]) == EMPTY.(data := data, closes := 1)
  {
    LoadAppend([Wrte(data)], [Clse]);
    LoadSingle(Clse);
    LoadSingle(Wrte(data));
  }

  lemma {:induction false} CloseEffect(cfg: Config, s: Sock)
    requires SockOk(cfg, s) && Exists(s)
    ensures var t, out := Close(s).sock, LoadOf(Close(s).out);
      SockOk(cfg, t) && KeepsBytes(s, EMPTY, t, out) && Advances(s, EMPTY, t, out) && Acknowledges(s, EMPTY, t, out)
  {
    LoadSingle(Clse);
  }

  /** The load of everything a read event sends. */
  lemma {:induction false} ReadOut(s: Sock, data: seq<byte>, eof: bool)
    ensures LoadOf(Read(s, data, eof).out)
         == EMPTY.(data := if s.hasPeer then data else [], closes := if s.hasPeer && eof then 1 else 0)
  {
    LoadPair(data);
    LoadSingle(Wrte(data));
    LoadSingle(Clse);
    assert [] + [Clse] == [Clse];
  }

  lemma {:induction false} ReadKeepsBytes(cfg: Config, s: Sock, data: seq<byte>, eof: bool)
    requires SockOk(cfg, s) && Exists(s)
    ensures var o := Read(s, data, eof); SockOk(cfg, o.sock) && KeepsBytes(s, EMPTY, o.sock, LoadOf(o.out))
  {
    ReadOut(s, data, eof);
  }

  lemma {:induction false} ReadAdvances(cfg: Config, s: Sock, data: seq<byte>, eof: bool)
    requires SockOk(cfg, s) && Exists(s)
    ensures var o := Read(s, data, eof); Advances(s, EMPTY, o.sock, LoadOf(o.out)) && Acknowledges(s, EMPTY, o.sock, LoadOf(o.out))
  {
    ReadOut(s, data, eof);
  }

  lemma {:induction false} AfterWriteKeepsBytes(s: Sock, w: WriteResult)
    requires WriteFits(s.queue, w)
    ensures var t := AfterWrite(s, w);
      && t.written + t.queue == s.written + s.queue
      && s.written <= t.written
      && |t.queue| <= |s.queue|
      && t == s.(queue := t.queue, written := t.written, writeErr := t.writeErr)
      && (s.writeErr ==> t.writeErr)
  {
    if s.queue != [] && w.Wrote? {
      assert s.queue == s.queue[..w.n] + s.queue[w.n..];
      assert s.written + s.queue[..w.n] + s.queue[w.n..] == s.written + s.queue;
    }
  }

  /** A socket whose interest bit may be stale, as right after an append. */
  predicate Flushable(cfg: Config, s: Sock) {
    && Exists(s) && (s.hasPeer ==> s.status.Live?) && (s.avail.Some? <==> cfg.delayed)
    && (s.status.Closing? ==> !s.readOn)
  }

  lemma {:induction false} FlushSendsNoData(cfg: Config, s: Sock, w: WriteResult)
    requires WriteFits(s.queue, w) && (s.hasPeer ==> s.status.Live?)
    ensures LoadOf(Flush(cfg, s, w).out).data == []
  {
    LoadSingle(SendReady(cfg, 0));
    LoadSingle(SendReady(cfg, |s.queue| - |AfterWrite(s, w).queue|));
  }

  lemma {:induction false} FlushKeepsBytes(cfg: Config, s: Sock, w: WriteResult)
    requires Flushable(cfg, s) && WriteFits(s.queue, w)
    ensures var o := Flush(cfg, s, w); SockOk(cfg, o.sock) && KeepsBytes(s, EMPTY, o.sock, LoadOf(o.out))
  {
    AfterWriteKeepsBytes(s, w);
    FlushSendsNoData(cfg, s, w);
    assert s.sent + [] == s.sent && s.written + s.queue + [] == s.written + s.queue;
  }

  lemma {:induction false} FlushAdvances(cfg: Config, s: Sock, w: WriteResult)
    requires Flushable(cfg, s) && WriteFits(s.queue, w)
    ensures var o := Flush(cfg, s, w);
      Advances(s, EMPTY, o.sock, LoadOf(o.out)) && Acknowledges(s, EMPTY, o.sock, LoadOf(o.out))
  {
    AfterWriteKeepsBytes(s, w);
    LoadSingle(SendReady(cfg, |s.queue| - |AfterWrite(s, w).queue|));
  }

  lemma {:induction false} WrteEffect(cfg: Config, s: Sock, data: seq<byte>, w: WriteResult)
    requires SockOk(cfg, s) && s.hasPeer && WriteFits(s.queue + data, w)
    ensures var o, input := OnWrte(cfg, s, data, w), LoadOf1(Wrte(data));
      && SockOk(cfg, o.sock) && KeepsBytes(s, input, o.sock, LoadOf(o.out))
      && Advances(s, input, o.sock, LoadOf(o.out)) && Acknowledges(s, input, o.sock, LoadOf(o.out))
  {
    FlushKeepsBytes(cfg, s.(queue := s.queue + data), w);
    FlushAdvances(cfg, s.(queue := s.queue + data), w);
    assert s.written + s.queue + data == s.written + (s.queue + data);
  }

  lemma {:induction false} OkayEffect(cfg: Config, s: Sock, ack: Option<uint32>)
    requires SockOk(cfg, s) && !s.status.Idle?
    ensures var o, input := OnOkay(cfg, s, ack), LoadOf1(Okay(ack));
      && SockOk(cfg, o.sock) && KeepsBytes(s, input, o.sock, LoadOf(o.out))
      && Advances(s, input, o.sock, LoadOf(o.out)) && Acknowledges(s, input, o.sock, LoadOf(o.out))
  {
    LoadSingle(Clse);
  }

  /** Everything `handle_packet` does to an existing socket.  A socket still
      waiting for its first A_OKAY must not be handed data or a CLSE. */
  lemma {:induction false} HandleEffect(cfg: Config, s: Sock, m: Msg, w: WriteResult, service: bool)
    requires SockOk(cfg, s) && !s.status.Idle? && !m.Open?
    requires m.Wrte? && s.hasPeer ==> WriteFits(s.queue + m.data, w)
    requires (m.Wrte? || m.Clse?) && s.status.Live? ==> s.hasPeer
    ensures var o, input := Handle(cfg, s, m, w, service), LoadOf1(m);
      && SockOk(cfg, o.sock) && KeepsBytes(s, input, o.sock, LoadOf(o.out))
      && Advances(s, input, o.sock, LoadOf(o.out)) && Acknowledges(s, input, o.sock, LoadOf(o.out))
  {
    match m
    case Okay(ack) => OkayEffect(cfg, s, ack);
    case Wrte(data) =>
      if s.hasPeer { WrteEffect(cfg, s, data, w); }
    case _ =>
      if s.status.Live? { CloseEffect(cfg, s); }
  }

  // ---- Both sockets and both channels

  /** Nothing has gone through the socket yet. */
  ghost predicate Untouched(s: Sock) {
    s.queue == s.sent == s.written == []
  }

  /** The A_OPEN a stream starts with, and the A_OKAY that answers it. */
  function OpenMsg(c: Configs): Msg { Connect(c.opener).out[0] }
  function GrantMsg(c: Configs): Msg { SendReady(c.acceptor, if c.acceptor.delayed then c.acceptor.window else 0) }

  /** No socket on the accepting side yet: the A_OPEN is under way, or it was
      refused. */
  ghost predicate Opening(p: Pair) {
    && Untouched(p.opener) && !p.opener.hasPeer
    && (p.c.opener.delayed ==> p.opener.avail == Some(0))
    && (p.opener.status.Live? ==> !p.opener.readOn)
    && (|| (p.toAcceptor == [OpenMsg(p.c)] && p.toOpener == [])
        || (p.toAcceptor == [] && p.toOpener == [Refuse])
        || (p.toAcceptor == [] && p.toOpener == [] && p.opener.status.Gone?))
  }

  /** Accepted, but the first A_OKAY has not reached the opener. */
  ghost predicate Waiting(p: Pair) {
    && Untouched(p.opener)
    && (p.c.opener.delayed ==> p.opener.avail == Some(0))
    && !p.opener.readOn
    && p.acceptor.queue == p.acceptor.written == [] && p.toAcceptor == []
    && p.toOpener != [] && p.toOpener[0] == GrantMsg(p.c)
    && LoadOf(p.toOpener).acked == AckBytes(GrantMsg(p.c))
  }

  /** A socket on one side only is never stranded: the packet that will close it,
      or the A_OKAY whose answer will, is in transit. */
  ghost predicate Accepted(p: Pair) {
    var fwd, bwd := LoadOf(p.toAcceptor), LoadOf(p.toOpener);
    && fwd.opens == fwd.refusals == bwd.opens == bwd.refusals == 0
    && (p.acceptor.status.Live? ==> p.acceptor.hasPeer)
    && (p.opener.status.Live? && !p.opener.hasPeer ==> Waiting(p))
    && (p.opener.status.Live? && !p.acceptor.status.Live? ==> bwd.closes > 0)
    && (p.acceptor.status.Live? && !p.opener.status.Live? ==> fwd.closes > 0 || bwd.okays > 0)
  }

  ghost predicate Shape(p: Pair) {
    && SockOk(p.c.opener, p.opener) && SockOk(p.c.acceptor, p.acceptor)
    && if p.opener.status.Idle? then p == Initial(p.c)
       else if p.acceptor.status.Idle? then Opening(p)
       else Accepted(p)
  }

  /** One step of side `x`, seen from outside: it consumed `input`, left `rest` in
      its channel, and moved to `o`. */
  ghost predicate Moves(p: Pair, x: Side, input: Load, rest: seq<Msg>, o: Outcome) {
    var s, t, out := p.At(x), o.sock, LoadOf(o.out);
    && LoadOf(p.Into(x)) == input.Plus(LoadOf(rest))
    && !s.status.Idle?
    && SockOk(p.Cfg(x), t) && KeepsBytes(s, input, t, out) && Advances(s, input, t, out) && Acknowledges(s, input, t, out)
    && input.opens == 0
  }

  /** A state whose shape is sound. */
  type Stream = p: Pair | p.c.Valid() && Shape(p)
    ghost witness Initial(Configs(Config(true, 1, 1), Config(true, 1, 1)))

  lemma {:induction false} MoveKeepsOpening(p: Stream, data: seq<byte>, eof: bool)
    requires Opening(p) && SockOk(p.c.opener, p.opener) && Exists(p.opener)
    ensures Opening(p.Move(Opener, Read(p.opener, data, eof), p.toOpener))
  {
    ReadOut(p.opener, data, eof);
    assert Read(p.opener, data, eof).out == [];
  }

  lemma {:induction false} OpenerKeepsAccepted(p: Stream, input: Load, rest: seq<Msg>, o: Outcome)
    requires !p.acceptor.status.Idle? && Moves(p, Opener, input, rest, o)
    requires p.opener.status.Live? ==> p.opener.hasPeer
    ensures Accepted(p.Move(Opener, o, rest))
  {
    LoadAppend(p.toAcceptor, o.out);
  }

  lemma {:induction false} AcceptorKeepsAccepted(p: Stream, input: Load, rest: seq<Msg>, o: Outcome)
    requires !p.acceptor.status.Idle? && Moves(p, Acceptor, input, rest, o)
    requires p.opener.status.Live? ==> p.opener.hasPeer
    ensures Accepted(p.Move(Acceptor, o, rest))
  {
    LoadAppend(p.toOpener, o.out);
  }

  /** While the opener waits, it can only be closed by a hangup. */
  lemma {:induction false} WaitingOpenerReads(p: Stream, data: seq<byte>, eof: bool)
    requires !p.acceptor.status.Idle? && p.opener.status.Live? && !p.opener.hasPeer
    ensures Accepted(p.Move(Opener, Read(p.opener, data, eof), p.toOpener))
  {
    ReadOut(p.opener, data, eof);
    assert Read(p.opener, data, eof).out == [];
    LoadHead(p.toOpener);
  }

  /** The first A_OKAY connects the opener. */
  lemma {:induction false} WaitingOpenerConnects(p: Stream, w: WriteResult, service: bool)
    requires !p.acceptor.status.Idle? && p.opener.status.Live? && !p.opener.hasPeer
    ensures var o := Handle(p.c.opener, p.opener, p.toOpener[0], w, service);
      && Accepted(p.Move(Opener, o, p.toOpener[1..]))
      && o == OnOkay(p.c.opener, p.opener, GrantMsg(p.c).ack) && o.sock.hasPeer && o.out == []
  {
    LoadHead(p.toOpener);
  }

  lemma {:induction false} WaitingStays(p: Pair, o: Outcome)
    requires Waiting(p) && o.sock.queue == o.sock.written == [] && LoadOf(o.out).acked == 0
    ensures Waiting(p.Move(Acceptor, o, p.toAcceptor))
  {
    LoadAppend(p.toOpener, o.out);
  }

  /** While the opener waits, the acceptor can only read. */
  lemma {:induction false} WaitingAcceptorReads(p: Stream, data: seq<byte>, eof: bool)
    requires p.opener.status.Live? && !p.opener.hasPeer && Exists(p.acceptor)
    ensures Accepted(p.Move(Acceptor, Read(p.acceptor, data, eof), p.toAcceptor))
  {
    var o := Read(p.acceptor, data, eof);
    ReadOut(p.acceptor, data, eof);
    WaitingStays(p, o);
    LoadAppend(p.toOpener, o.out);
  }

  lemma {:induction false} OpenKeepsShape(p: Stream, w: WriteResult, service: bool)
    requires !p.opener.status.Idle? && p.acceptor.status.Idle? && p.toAcceptor != []
    ensures Shape(p.Move(Acceptor, Handle(p.c.acceptor, p.acceptor, p.toAcceptor[0], w, service), p.toAcceptor[1..]))
  {
    LoadSingle(GrantMsg(p.c));
    assert p.toOpener + [GrantMsg(p.c)] == [GrantMsg(p.c)];
    assert p.toOpener + [Refuse] == [Refuse];
  }

  // ---- Every step

  /** `x` is not the opener of an accepted stream that still waits for its A_OKAY,
      nor facing one. */
  ghost predicate Connected(p: Pair) {
    !p.acceptor.status.Idle? && (p.opener.status.Live? ==> p.opener.hasPeer)
  }

  lemma {:induction false} ReadMoves(p: Pair, x: Side, data: seq<byte>, eof: bool)
    requires SockOk(p.Cfg(x), p.At(x)) && Exists(p.At(x))
    ensures Moves(p, x, EMPTY, p.Into(x), Read(p.At(x), data, eof))
  {
    ReadKeepsBytes(p.Cfg(x), p.At(x), data, eof);
    ReadAdvances(p.Cfg(x), p.At(x), data, eof);
  }

  lemma {:induction false} FlushMoves(p: Pair, x: Side, w: WriteResult)
    requires SockOk(p.Cfg(x), p.At(x)) && Exists(p.At(x)) && WriteFits(p.At(x).queue, w)
    ensures Moves(p, x, EMPTY, p.Into(x), Flush(p.Cfg(x), p.At(x), w))
  {
    FlushKeepsBytes(p.Cfg(x), p.At(x), w);
    FlushAdvances(p.Cfg(x), p.At(x), w);
  }

  lemma {:induction false} DeliverMoves(p: Stream, x: Side, w: WriteResult, service: bool)
    requires !p.At(x).status.Idle? && Enabled(p, Deliver(x, w, service))
    ensures var m := p.Into(x)[0];
      && Moves(p, x, LoadOf1(m), p.Into(x)[1..], Handle(p.Cfg(x), p.At(x), m, w, service))
      && !m.Open?
  {
    LoadHead(p.Into(x));
    HandleEffect(p.Cfg(x), p.At(x), p.Into(x)[0], w, service);
  }

  lemma {:induction false} MoveKeepsShape(p: Stream, x: Side, input: Load, rest: seq<Msg>, o: Outcome)
    requires Connected(p) && Moves(p, x, input, rest, o)
    ensures Shape(p.Move(x, o, rest))
  {
    if x.Opener? {
      OpenerKeepsAccepted(p, input, rest, o);
    } else {
      AcceptorKeepsAccepted(p, input, rest, o);
    }
  }

  lemma {:induction false} ReadKeepsShape(p: Stream, x: Side, data: seq<byte>, eof: bool)
    requires Exists(p.At(x))
    ensures Shape(p.Move(x, Read(p.At(x), data, eof), p.Into(x)))
  {
    ReadMoves(p, x, data, eof);
    if Connected(p) {
      MoveKeepsShape(p, x, EMPTY, p.Into(x), Read(p.At(x), data, eof));
    } else if p.acceptor.status.Idle? {
      MoveKeepsOpening(p, data, eof);
    } else if x.Opener? {
      WaitingOpenerReads(p, data, eof);
    } else {
      WaitingAcceptorReads(p, data, eof);
    }
  }

  lemma {:induction false} DeliverKeepsShape(p: Stream, x: Side, w: WriteResult, service: bool)
    requires Enabled(p, Deliver(x, w, service))
    ensures Shape(Apply(p, Deliver(x, w, service)))
  {
    if Connected(p) {
      DeliverMoves(p, x, w, service);
      MoveKeepsShape(p, x, LoadOf1(p.Into(x)[0]), p.Into(x)[1..], Handle(p.Cfg(x), p.At(x), p.Into(x)[0], w, service));
    } else if !p.acceptor.status.Idle? {
      OkayEffect(p.c.opener, p.opener, GrantMsg(p.c).ack);
      WaitingOpenerConnects(p, w, service);
    } else if x.Acceptor? {
      OpenKeepsShape(p, w, service);
    } else {
      assert p.toAcceptor + [] == p.toAcceptor;
    }
  }

  lemma {:induction false} StepKeepsShape(p: Stream, t: Step)
    ensures Shape(Apply(p, t))
  {
    if Enabled(p, t) {
      match t
      case Start =>
        assert [] + [OpenMsg(p.c)] == [OpenMsg(p.c)];
      case Readable(x, data, eof) => ReadKeepsShape(p, x, data, eof);
      case Hangup(x, data, eof) => ReadKeepsShape(p, x, data, eof);
      case Writable(x, w) =>
        FlushMoves(p, x, w);
        MoveKeepsShape(p, x, EMPTY, p.Into(x), Flush(p.Cfg(x), p.At(x), w));
      case Deliver(x, w, service) => DeliverKeepsShape(p, x, w, service);
    }
  }

  /** Steps that create a socket: every other step is a move of an existing one. */
  predicate Creates(p: Pair, t: Step) {
    t.Start? || (t.Deliver? && t.x.Acceptor? && p.acceptor.status.Idle?)
  }

  /** The load a step consumes. */
  function Input(p: Pair, t: Step): Load {
    if t.Deliver? && p.Into(t.x) != [] then LoadOf1(p.Into(t.x)[0]) else EMPTY
  }

  lemma {:induction false} StepMoves(p: Stream, t: Step)
    requires Enabled(p, t) && !Creates(p, t)
    ensures Moves(p, t.x, Input(p, t), Rest(p, t), Result(p, t))
  {
    match t
    case Readable(x, data, eof) => ReadMoves(p, x, data, eof);
    case Hangup(x, data, eof) => ReadMoves(p, x, data, eof);
    case Writable(x, w) => FlushMoves(p, x, w);
    case Deliver(x, w, service) => DeliverMoves(p, x, w, service);
  }

  // ---- Stream integrity

  /** The bytes `s` has sent are, in order, those its peer `r` has written, those
      `r` has queued and those in transit; once `r` has left the live list the
      packets in transit are dropped, and what it has taken is still a prefix. */
  ghost predicate Integrity(s: Sock, r: Sock, fwd: Load) {
    if r.status.Live? || r.status.Idle? then s.sent == r.written + r.queue + fwd.data
    else r.written + r.queue <= s.sent
  }

  ghost predicate IntegrityBothWays(p: Pair) {
    && Integrity(p.opener, p.acceptor, LoadOf(p.toAcceptor))
    && Integrity(p.acceptor, p.opener, LoadOf(p.toOpener))
  }

  lemma {:induction false} SenderKeepsIntegrity(s: Sock, r: Sock, fwd: Load, input: Load, t: Sock, out: Load)
    requires Integrity(s, r, fwd) && KeepsBytes(s, input, t, out)
    requires r.status.Idle? ==> out.data == []
    ensures Integrity(t, r, fwd.Plus(out))
  {
    assert r.written + r.queue + (fwd.data + out.data) == r.written + r.queue + fwd.data + out.data;
  }

  lemma {:induction false} ReceiverKeepsIntegrity(s: Sock, r: Sock, input: Load, rest: Load, t: Sock, out: Load)
    requires Integrity(s, r, input.Plus(rest)) && KeepsBytes(r, input, t, out) && Advances(r, input, t, out)
    requires !r.status.Idle?
    ensures Integrity(s, t, rest)
  {
    assert r.written + r.queue + (input.data + rest.data) == r.written + r.queue + input.data + rest.data;
  }

  lemma {:induction false} MoveKeepsIntegrity(p: Stream, t: Step)
    requires IntegrityBothWays(p) && Enabled(p, t) && !Creates(p, t)
    ensures IntegrityBothWays(Apply(p, t))
  {
    StepMoves(p, t);
    var x, o := t.x, Result(p, t);
    var input, rest := Input(p, t), Rest(p, t);
    SenderKeepsIntegrity(p.At(x), p.At(x.Other()), LoadOf(p.Into(x.Other())), input, o.sock, LoadOf(o.out));
    ReceiverKeepsIntegrity(p.At(x.Other()), p.At(x), input, LoadOf(rest), o.sock, LoadOf(o.out));
    LoadAppend(p.Into(x.Other()), o.out);
  }

  lemma {:induction false} StepKeepsIntegrity(p: Stream, t: Step)
    requires IntegrityBothWays(p)
    ensures IntegrityBothWays(Apply(p, t))
  {
    if !Enabled(p, t) {
    } else if Creates(p, t) {
      CreateSendsNoData(p, t);
    } else {
      MoveKeepsIntegrity(p, t);
    }
  }

  lemma {:induction false} CreateSendsNoData(p: Stream, t: Step)
    requires Enabled(p, t) && Creates(p, t)
    ensures var q := Apply(p, t);
      && LoadOf(q.toAcceptor).data == LoadOf(q.toOpener).data == []
      && q.opener.sent == q.acceptor.sent == q.opener.written + q.opener.queue == q.acceptor.written + q.acceptor.queue == []
  {
    var q := Apply(p, t);
    if t.Start? {
      LoadSingle(OpenMsg(p.c));
      assert q.toAcceptor == [OpenMsg(p.c)];
    } else {
      LoadSingle(Refuse);
      LoadSingle(GrantMsg(p.c));
      assert q.toAcceptor == [];
      assert q.toOpener == [Refuse] || q.toOpener == [GrantMsg(p.c)];
    }
  }
}
