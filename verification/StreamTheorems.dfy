/** The guarantees of a stream, over every run. */
module StreamTheorems {
  import opened Common
  import opened StreamSocket
  import opened StreamProtocol
  import opened StreamInvariants
  import opened StreamCredit
  import opened StreamEndings

  // ---- Any run at all

  lemma {:induction false} RunIsSound(c: Configs, run: seq<Step>)
    requires c.Valid()
    ensures var p := Final(c, run); p.c == c && Shape(p) && IntegrityBothWays(p)
  {
    if run != [] {
      var prefix, t := run[..|run| - 1], run[|run| - 1];
      RunIsSound(c, prefix);
      StepKeepsShape(Final(c, prefix), t);
      StepKeepsIntegrity(Final(c, prefix), t);
    }
  }

  /** The descriptor of side `x` never reports its end. */
  predicate StaysOpen(run: seq<Step>, x: Side) {
    forall t :: t in run ==> !Ends(t, x)
  }

  lemma {:induction false} RunIsClosed(c: Configs, run: seq<Step>, x: Side)
    requires c.Valid()
    ensures Closed(Final(c, run), x)
  {
    if run != [] {
      var prefix, t := run[..|run| - 1], run[|run| - 1];
      RunIsClosed(c, prefix, x);
      RunIsSound(c, prefix);
      StepStaysClosed(Final(c, prefix), t, x);
    }
  }

  lemma {:induction false} RunIsDrained(c: Configs, run: seq<Step>, x: Side)
    requires c.Valid() && StaysOpen(run, x.Other())
    ensures Drained(Final(c, run), x)
  {
    if run != [] {
      var prefix, t := run[..|run| - 1], run[|run| - 1];
      assert t in run;
      RunIsDrained(c, prefix, x);
      RunIsSound(c, prefix);
      RunIsClosed(c, prefix, x);
      StepStaysDrained(Final(c, prefix), t, x);
    }
  }

  /** Stream integrity: what a side read while it had a peer is exactly what the other side
      has written, then what it has queued, then what is in transit, while that is live; what
      it has written is always a prefix; and no data follows a CLSE.  If the receiver's own
      descriptor does not end, the first holds live or not; and if that neither fails a write
      nor hangs up, the receiver is destroyed only when all that was sent has been written. */
  lemma {:induction false} StreamIntegrity(c: Configs, run: seq<Step>, x: Side)
    requires c.Valid()
    ensures var p := Final(c, run); var s, r, ch := p.At(x), p.At(x.Other()), p.Into(x.Other());
      && (r.status.Live? || StaysOpen(run, x.Other()) ==> s.sent == r.written + r.queue + LoadOf(ch).data)
      && r.written <= s.sent && r.written + r.queue <= s.sent && Tidy(ch)
      && (StaysOpen(run, x.Other()) && CalmAt(run, x.Other()) && r.status.Gone? ==> r.written == s.sent)
  {
    RunIsSound(c, run);
    RunIsClosed(c, run, x);
    if StaysOpen(run, x.Other()) {
      RunIsDrained(c, run, x);
      DrainedIsWhole(Final(c, run), x);
      if CalmAt(run, x.Other()) {
        ClosingKeepsData(c, run, x.Other());
      }
    }
  }

  /** No orphaned streams: a socket whose other end is gone, or was never made, has
      the packet that settles its fate in transit. */
  lemma {:induction false} NoOrphans(c: Configs, run: seq<Step>)
    requires c.Valid()
    ensures var p := Final(c, run); var fwd, bwd := LoadOf(p.toAcceptor), LoadOf(p.toOpener);
      && (p.acceptor.status.Live? && !p.opener.status.Live? ==> bwd.okays > 0 || fwd.closes > 0)
      && (p.opener.hasPeer && !p.acceptor.status.Live? ==> bwd.closes > 0)
      && (p.opener.status.Live? && !p.opener.hasPeer ==> fwd.opens > 0 || bwd.okays > 0 || bwd.refusals > 0)
  {
    RunIsSound(c, run);
    var p := Final(c, run);
    LoadSingle(OpenMsg(c));
    LoadSingle(Refuse);
    if p.toOpener != [] {
      LoadHead(p.toOpener);
    }
  }

  /** An OPEN is alone in the stream. */
  lemma {:induction false} OpenIsAlone(p: Stream)
    requires p.toAcceptor != [] && p.toAcceptor[0].Open?
    ensures p.acceptor == IDLE && p.toAcceptor == [OpenMsg(p.c)] && p.toOpener == []
  {
    LoadHead(p.toAcceptor);
  }

  /** When its OPEN arrives, a stream of either ack mode gets its second socket if and only if
      the service can be started; the answer is the grant or the refusal. */
  lemma {:induction false} OpenIsAnswered(c: Configs, run: seq<Step>, w: WriteResult, service: bool)
    requires c.Valid() && Final(c, run).toAcceptor != [] && Final(c, run).toAcceptor[0].Open?
    ensures var q := Apply(Final(c, run), Deliver(Acceptor, w, service));
      && (q.acceptor.status.Live? <==> service) && (q.acceptor.status.Idle? <==> !service)
      && q.toAcceptor == [] && q.toOpener == [if service then GrantMsg(c) else Refuse]
  {
    RunIsSound(c, run);
    OpenIsAlone(Final(c, run));
    assert [] + [Refuse] == [Refuse] && [] + [GrantMsg(c)] == [GrantMsg(c)];
  }

  /** The check made when a socket joins the closing list cannot fail: queued bytes
      without a write error always come with write interest. */
  lemma {:induction false} QueuedBytesHaveWriteInterest(c: Configs, run: seq<Step>, x: Side)
    requires c.Valid()
    ensures var s := Final(c, run).At(x);
      && (Exists(s) && s.queue != [] && !s.writeErr ==> s.writeOn)
      && (s.status.Closing? ==> s.queue != [] && !s.writeErr && s.writeOn)
  {
    RunIsSound(c, run);
  }

  // ---- Runs without write errors or hangups

  predicate Calm(t: Step) {
    !t.Hangup? && ((t.Writable? || t.Deliver?) ==> !t.w.Failed?)
  }

  predicate CalmAt(run: seq<Step>, x: Side) {
    forall t :: t in run && Actor(t) == x ==> Calm(t)
  }

  ghost predicate NothingLost(s: Sock) {
    !s.writeErr && (s.status.Gone? ==> s.queue == [])
  }

  lemma {:induction false} CalmFlush(cfg: Config, s: Sock, w: WriteResult)
    requires WriteFits(s.queue, w) && !w.Failed? && Exists(s) && NothingLost(s)
    ensures NothingLost(Flush(cfg, s, w).sock)
  {
  }

  lemma {:induction false} CalmHandle(cfg: Config, s: Sock, m: Msg, w: WriteResult, service: bool)
    requires m.Wrte? && s.status.Live? && s.hasPeer ==> WriteFits(s.queue + m.data, w)
    requires !w.Failed? && NothingLost(s)
    ensures NothingLost(Handle(cfg, s, m, w, service).sock)
  {
    if m.Wrte? && s.status.Live? && s.hasPeer {
      CalmFlush(cfg, s.(queue := s.queue + m.data), w);
    }
  }

  lemma {:induction false} CalmStepLosesNothing(p: Pair, t: Step)
    requires Calm(t) && Enabled(p, t) && NothingLost(p.At(Actor(t)))
    ensures NothingLost(Result(p, t).sock)
  {
    match t
    case Writable(x, w) => CalmFlush(p.Cfg(x), p.At(x), w);
    case Deliver(x, w, service) => CalmHandle(p.Cfg(x), p.At(x), p.Into(x)[0], w, service);
    case _ =>
  }

  /** Closing keeps data: a socket whose own descriptor neither fails a write nor hangs
      up is destroyed only once its whole queue has been written, whatever happens at the
      other end. */
  lemma {:induction false} ClosingKeepsData(c: Configs, run: seq<Step>, x: Side)
    requires c.Valid() && CalmAt(run, x)
    ensures NothingLost(Final(c, run).At(x))
  {
    if run != [] {
      var prefix, t := run[..|run| - 1], run[|run| - 1];
      assert t in run;
      ClosingKeepsData(c, prefix, x);
      if Enabled(Final(c, prefix), t) && Actor(t) == x {
        CalmStepLosesNothing(Final(c, prefix), t);
      }
    }
  }

  /** The step brings a CLSE that counts, or a refusal. */
  predicate BringsClose(p: Pair, t: Step) {
    t.Deliver? && p.Into(t.x) != [] && (p.Into(t.x)[0].Refuse? || (p.Into(t.x)[0].Clse? && p.At(t.x).hasPeer))
  }

  /** The life of a socket: it leaves the live list if and only if it `leaves`, and is then
      destroyed at once if it owes nothing, and closing otherwise; a closing socket is destroyed
      if and only if it is `over`. */
  predicate Lives(s: Sock, leaves: bool, over: bool, r: Sock) {
    match s.status
    case Live =>
      if !leaves then r.status.Live? else if s.queue == [] || s.writeErr then r.status.Gone? else r.status.Closing?
    case Closing => if over then r.status.Gone? else r.status.Closing?
    case _ => r.status == s.status
  }

  lemma {:induction false} ReadLives(s: Sock, data: seq<byte>, eof: bool)
    requires Exists(s)
    ensures Lives(s, eof, eof, Read(s, data, eof).sock)
  {
  }

  lemma {:induction false} FlushLives(cfg: Config, s: Sock, w: WriteResult)
    requires SockOk(cfg, s) && Exists(s) && s.writeOn && WriteFits(s.queue, w)
    ensures Lives(s, false, w.Failed? || w == Wrote(|s.queue|), Flush(cfg, s, w).sock)
  {
    AfterWriteKeepsBytes(s, w);
  }

  lemma {:induction false} HandleLives(cfg: Config, s: Sock, m: Msg, w: WriteResult, service: bool)
    requires SockOk(cfg, s) && !s.status.Idle? && !m.Open?
    requires m.Wrte? && s.status.Live? && s.hasPeer ==> WriteFits(s.queue + m.data, w)
    ensures Lives(s, m.Refuse? || (m.Clse? && s.hasPeer), false, Handle(cfg, s, m, w, service).sock)
  {
  }

  /** What ends the life of a socket in every run: the end of its descriptor, a CLSE or a
      refusal; and once it is closing, its last byte, a failed write, or that end. */
  lemma {:induction false} LifeExactly(c: Configs, run: seq<Step>, t: Step)
    requires c.Valid() && Enabled(Final(c, run), t) && !Creates(Final(c, run), t)
    ensures var p := Final(c, run); var s := p.At(t.x);
      Lives(s, Ends(t, t.x) || BringsClose(p, t),
            Ends(t, t.x) || (t.Writable? && (t.w.Failed? || t.w == Wrote(|s.queue|))), Result(p, t).sock)
  {
    RunIsSound(c, run);
    StepLives(Final(c, run), t);
  }

  lemma {:induction false} StepLives(p: Stream, t: Step)
    requires Enabled(p, t) && !Creates(p, t)
    ensures var s := p.At(t.x);
      Lives(s, Ends(t, t.x) || BringsClose(p, t),
            Ends(t, t.x) || (t.Writable? && (t.w.Failed? || t.w == Wrote(|s.queue|))), Result(p, t).sock)
  {
    var cfg, s := p.Cfg(t.x), p.At(t.x);
    match t
    case Readable(_, data, eof) => ReadLives(s, data, eof);
    case Hangup(_, data, eof) => ReadLives(s, data, eof);
    case Writable(_, w) => FlushLives(cfg, s, w);
    case Deliver(x, w, service) =>
      DeliverMoves(p, x, w, service);
      HandleLives(cfg, s, p.Into(x)[0], w, service);
  }

  /** The step hands queued bytes, or bytes that have just come, to the descriptor. */
  predicate Flushes(p: Pair, t: Step) {
    t.Writable? || (t.Deliver? && p.Into(t.x) != [] && p.Into(t.x)[0].Wrte? && p.At(t.x).hasPeer)
  }

  /** What there is to write. */
  function Owed(p: Pair, t: Step): seq<byte>
    requires Flushes(p, t)
  {
    p.At(t.x).queue + if t.Deliver? then p.Into(t.x)[0].data else []
  }

  /** After a failed write nothing more is asked of the descriptor, and no byte has left the
      queue. */
  lemma {:induction false} FailedWriteGivesUp(c: Configs, run: seq<Step>, t: Step)
    requires c.Valid() && Enabled(Final(c, run), t) && Flushes(Final(c, run), t) && t.w.Failed? && Owed(Final(c, run), t) != []
    ensures var s, r := Final(c, run).At(t.x), Result(Final(c, run), t).sock;
      r.writeErr && !r.writeOn && r.written == s.written && r.queue == Owed(Final(c, run), t)
  {
    RunIsSound(c, run);
    assert Final(c, run).At(t.x).queue + [] == Final(c, run).At(t.x).queue;
  }

  // ---- Flow control

  /** Every ack of the run can be read back as the number it stands for. */
  predicate AcksFit(c: Configs, run: seq<Step>) {
    run == [] || (AcksFit(c, run[..|run| - 1]) && AckFits(Final(c, run[..|run| - 1]), run[|run| - 1]))
  }

  /** Each write of the run takes fewer than 2^31 bytes. */
  predicate SmallWrites(run: seq<Step>) {
    forall t :: t in run && (t.Writable? || t.Deliver?) && t.w.Wrote? ==> t.w.n < TWO_31
  }

  lemma {:induction false} FinalConfigs(c: Configs, run: seq<Step>)
    ensures Final(c, run).c == c
  {
    if run != [] {
      FinalConfigs(c, run[..|run| - 1]);
    }
  }

  /** The acks fit in every run with plain acks, and in every run of small writes. */
  lemma {:induction false} AcksFitWhen(c: Configs, run: seq<Step>)
    requires c.opener.delayed ==> SmallWrites(run)
    ensures AcksFit(c, run)
  {
    if run != [] {
      assert run[|run| - 1] in run;
      AcksFitWhen(c, run[..|run| - 1]);
      FinalConfigs(c, run[..|run| - 1]);
    }
  }

  lemma {:induction false} RunIsFunded(c: Configs, run: seq<Step>)
    requires c.Valid() && AcksFit(c, run)
    ensures var p := Final(c, run); p.c == c && Shape(p) && CreditOk(p)
  {
    RunIsSound(c, run);
    if run != [] {
      var prefix, t := run[..|run| - 1], run[|run| - 1];
      RunIsSound(c, prefix);
      RunIsFunded(c, prefix);
      StepConserves(Final(c, prefix), t);
    }
  }

  /** Credit conservation: for a connected opener the four places credit can be
      always add up to the smaller of the two windows; for an acceptor, whose first
      grant is not clamped, they stay between that and the grant. */
  lemma {:induction false} CreditConservation(c: Configs, run: seq<Step>)
    requires c.Valid() && c.opener.delayed && AcksFit(c, run)
    ensures var p := Final(c, run); var fwd, bwd := LoadOf(p.toAcceptor), LoadOf(p.toOpener);
      && (p.opener.hasPeer && p.acceptor.status.Live? ==>
            && p.opener.avail.Some?
            && p.opener.avail.value + |fwd.data| + |p.acceptor.queue| + bwd.acked == Min(c.acceptor.window, c.opener.window))
      && (p.acceptor.hasPeer && p.opener.status.Live? ==>
            && p.acceptor.avail.Some?
            && Min(c.opener.window, c.acceptor.window)
               <= p.acceptor.avail.value + |bwd.data| + |p.opener.queue| + fwd.acked <= c.opener.window)
  {
    RunIsFunded(c, run);
    assert ConservesAt(Final(c, run), Opener) && ConservesAt(Final(c, run), Acceptor);
  }

  /** Read interest and what stands in for it. */
  ghost predicate Awake(s: Sock, r: Sock, fwd: Load, bwd: Load) {
    s.hasPeer ==>
      if s.avail.Some? then s.readOn <==> s.avail.value > 0
      else r.status.Live? && !r.writeErr && !s.readOn ==> fwd.data != [] || bwd.okays > 0 || r.queue != []
  }

  ghost predicate AwakeAt(p: Pair, x: Side) {
    Awake(p.At(x), p.At(x.Other()), LoadOf(p.Into(x.Other())), LoadOf(p.Into(x)))
  }

  lemma {:induction false} SenderStaysAwake(s: Sock, r: Sock, fwd: Load, input: Load, rest: Load, t: Sock, out: Load)
    requires Awake(s, r, fwd, input.Plus(rest)) && Wakes(s, input, t, out)
    requires (t.hasPeer ==> s.hasPeer) && (s.hasPeer && t.hasPeer ==> s.avail.Some? == t.avail.Some?)
    ensures Awake(t, r, fwd.Plus(out), rest)
  {
  }

  lemma {:induction false} ReceiverStaysAwake(s: Sock, r: Sock, bwd: Load, input: Load, rest: Load, t: Sock, out: Load)
    requires Awake(s, r, input.Plus(rest), bwd) && Acknowledges(r, input, t, out) && Advances(r, input, t, out)
    requires !r.hasPeer && t.status.Live? ==> t.queue == r.queue && input.data == []
    ensures Awake(s, t, rest, bwd.Plus(out))
  {
  }

  lemma {:induction false} MoveSenderStaysAwake(p: Funded, t: Step)
    requires Enabled(p, t) && !Creates(p, t) && !Connects(p, t) && AwakeAt(p, t.x)
    ensures AwakeAt(Apply(p, t), t.x)
  {
    var x, y, o := t.x, t.x.Other(), Result(p, t);
    StepMoves(p, t);
    StepWakes(p, t);
    PeersOnlyOnConnect(p, t);
    StepLoads(p, t);
    SenderStaysAwake(p.At(x), p.At(y), LoadOf(p.Into(y)), Input(p, t), LoadOf(Rest(p, t)), o.sock, LoadOf(o.out));
  }

  lemma {:induction false} MoveReceiverStaysAwake(p: Funded, t: Step)
    requires Enabled(p, t) && !Creates(p, t) && AwakeAt(p, t.x.Other())
    ensures AwakeAt(Apply(p, t), t.x.Other())
  {
    var x, y, o := t.x, t.x.Other(), Result(p, t);
    StepMoves(p, t);
    StepLoads(p, t);
    UnconnectedTakesNothing(p, t);
    ReceiverStaysAwake(p.At(y), p.At(x), LoadOf(p.Into(y)), Input(p, t), LoadOf(Rest(p, t)), o.sock, LoadOf(o.out));
  }

  lemma {:induction false} UnconnectedTakesNothing(p: Stream, t: Step)
    requires Enabled(p, t) && !Creates(p, t)
    ensures !p.At(t.x).hasPeer && Result(p, t).sock.status.Live? ==>
      Result(p, t).sock.queue == p.At(t.x).queue && Input(p, t).data == []
  {
  }

  lemma {:induction false} CreateStaysAwake(p: Funded, t: Step)
    requires Enabled(p, t) && Creates(p, t) && AwakeAt(p, Opener) && AwakeAt(p, Acceptor)
    ensures AwakeAt(Apply(p, t), Opener) && AwakeAt(Apply(p, t), Acceptor)
  {
  }

  lemma {:induction false} ConnectIsAwake(p: Funded, t: Step)
    requires Enabled(p, t) && Connects(p, t)
    ensures AwakeAt(Apply(p, t), Opener)
  {
    WaitingOpenerConnects(p, t.w, t.service);
  }

  lemma {:induction false} StepStaysAwake(p: Funded, t: Step)
    requires AwakeAt(p, Opener) && AwakeAt(p, Acceptor)
    ensures AwakeAt(Apply(p, t), Opener) && AwakeAt(Apply(p, t), Acceptor)
  {
    if !Enabled(p, t) {
    } else if Creates(p, t) {
      CreateStaysAwake(p, t);
    } else {
      MoveReceiverStaysAwake(p, t);
      if Connects(p, t) {
        ConnectIsAwake(p, t);
      } else {
        MoveSenderStaysAwake(p, t);
      }
    }
  }

  lemma {:induction false} RunIsAwake(c: Configs, run: seq<Step>)
    requires c.Valid() && AcksFit(c, run)
    ensures AwakeAt(Final(c, run), Opener) && AwakeAt(Final(c, run), Acceptor)
  {
    if run != [] {
      var prefix, t := run[..|run| - 1], run[|run| - 1];
      RunIsAwake(c, prefix);
      RunIsFunded(c, prefix);
      StepStaysAwake(Final(c, prefix), t);
    }
  }

  /** What a sender that is not reading may be waiting for: data it sent, an ack,
      bytes its live peer has queued and will write, or, when the peer is gone, the
      CLSE that ends the stream or the A_OKAY that will be answered with one. */
  ghost predicate WillWake(p: Pair, x: Side) {
    var r, fwd, bwd := p.At(x.Other()), LoadOf(p.Into(x.Other())), LoadOf(p.Into(x));
    if r.status.Live? then
      || fwd.data != []
      || (if p.c.opener.delayed then bwd.acked > 0 else bwd.okays > 0)
      || (r.queue != [] && r.writeOn)
    else bwd.closes > 0 || fwd.okays > 0
  }

  lemma {:induction false} AwakeWillWake(p: Funded, x: Side)
    requires AwakeAt(p, x) && p.At(x).hasPeer && !p.At(x).readOn && p.At(x.Other()).status.Live? && !p.At(x.Other()).writeErr
    ensures WillWake(p, x)
  {
    if p.c.opener.delayed {
      assert ConservesAt(p, x);
    }
  }

  /** No lost wakeup, in both ack modes. */
  lemma {:induction false} NoLostWakeup(c: Configs, run: seq<Step>, x: Side)
    requires c.Valid() && AcksFit(c, run)
    ensures var p := Final(c, run);
      p.At(x).hasPeer && !p.At(x).readOn && !p.At(x.Other()).writeErr ==> WillWake(p, x)
  {
    RunIsFunded(c, run);
    RunIsAwake(c, run);
    var p := Final(c, run);
    if p.At(x).hasPeer && !p.At(x).readOn && !p.At(x.Other()).writeErr {
      if p.At(x.Other()).status.Live? {
        AwakeWillWake(p, x);
      } else {
        NoOrphans(c, run);
      }
    }
  }

  // ---- Runs whose reads all happen with read interest set

  predicate NoHangup(run: seq<Step>) {
    forall t :: t in run ==> !t.Hangup?
  }

  /** Unacknowledged bytes a side may have in flight: its credit and one payload
      less a byte. */
  function Limit(c: Configs, x: Side): int {
    Most(c, x) + c.At(x).maxPayload - 1
  }

  /** Credit never falls below one byte less than a payload, and what a live
      receiver may still have to acknowledge is bounded even after the sender is
      gone. */
  ghost predicate Bounded(p: Pair, x: Side) {
    var s, r := p.At(x), p.At(x.Other());
    && (s.hasPeer ==> s.avail.Some? && s.avail.value >= 1 - p.c.At(x).maxPayload)
    && (r.status.Live? ==> |LoadOf(p.Into(x.Other())).data| + |r.queue| <= Limit(p.c, x))
  }

  lemma {:induction false} HandleSendsNoData(cfg: Config, s: Sock, m: Msg, w: WriteResult, service: bool)
    requires m.Wrte? && s.status.Live? && s.hasPeer ==> WriteFits(s.queue + m.data, w)
    ensures LoadOf(Handle(cfg, s, m, w, service).out).data == []
  {
    LoadSingle(Clse);
    LoadSingle(Refuse);
    LoadSingle(SendReady(cfg, if cfg.delayed then cfg.window else 0));
    if m.Wrte? && s.status.Live? && s.hasPeer {
      FlushSendsNoData(cfg, s.(queue := s.queue + m.data), w);
    }
  }

  lemma {:induction false} OthersSendNoData(p: Stream, t: Step)
    requires Enabled(p, t) && !t.Hangup? && !t.Readable?
    ensures LoadOf(Result(p, t).out).data == []
  {
    match t
    case Start => LoadSingle(OpenMsg(p.c));
    case Writable(x, w) => FlushSendsNoData(p.Cfg(x), p.At(x), w);
    case Deliver(x, w, service) => HandleSendsNoData(p.Cfg(x), p.At(x), p.Into(x)[0], w, service);
  }

  /** Data goes out only from a read event, at most one payload at a time. */
  lemma {:induction false} SendsOnlyOnRead(p: Stream, t: Step)
    requires Enabled(p, t) && !t.Hangup? && LoadOf(Result(p, t).out).data != []
    ensures t.Readable? && p.At(t.x).hasPeer && p.At(t.x).readOn && |LoadOf(Result(p, t).out).data| <= p.Cfg(t.x).maxPayload
  {
    if t.Readable? {
      ReadOut(p.At(t.x), t.data, t.eof);
    } else {
      OthersSendNoData(p, t);
    }
  }

  lemma {:induction false} MoveSenderBounded(p: Funded, t: Step)
    requires p.c.opener.delayed && Enabled(p, t) && !Creates(p, t) && !Connects(p, t) && !t.Hangup? && AckFits(p, t)
    requires AwakeAt(p, t.x) && Bounded(p, t.x)
    ensures Bounded(Apply(p, t), t.x)
  {
    StepPays(p, t);
    PeersOnlyOnConnect(p, t);
    StepLoads(p, t);
    assert ConservesAt(p, t.x);
    if LoadOf(Result(p, t).out).data != [] {
      SendsOnlyOnRead(p, t);
    }
  }

  lemma {:induction false} MoveReceiverBounded(p: Funded, t: Step)
    requires p.c.opener.delayed && Enabled(p, t) && !Creates(p, t) && AckFits(p, t)
    requires Bounded(p, t.x.Other())
    ensures Bounded(Apply(p, t), t.x.Other())
  {
    StepMoves(p, t);
    StepPays(p, t);
    StepLoads(p, t);
  }

  lemma {:induction false} CreateBounded(p: Stream, t: Step)
    requires p.c.opener.delayed && Enabled(p, t) && Creates(p, t)
    ensures Bounded(Apply(p, t), Opener) && Bounded(Apply(p, t), Acceptor)
  {
    CreateSendsNoData(p, t);
  }

  lemma {:induction false} ConnectBounded(p: Stream, t: Step)
    requires p.c.opener.delayed && Enabled(p, t) && Connects(p, t)
    ensures Bounded(Apply(p, t), Opener)
  {
    WaitingOpenerConnects(p, t.w, t.service);
    assert Apply(p, t).toAcceptor == [];
  }

  lemma {:induction false} StepStaysBounded(p: Funded, t: Step, x: Side)
    requires p.c.opener.delayed && AckFits(p, t) && (Actor(t) == x ==> !t.Hangup?)
    requires AwakeAt(p, x) && Bounded(p, x)
    ensures Bounded(Apply(p, t), x)
  {
    if !Enabled(p, t) {
    } else if Creates(p, t) {
      CreateBounded(p, t);
    } else if x != t.x {
      MoveReceiverBounded(p, t);
    } else if Connects(p, t) {
      ConnectBounded(p, t);
    } else {
      MoveSenderBounded(p, t);
    }
  }

  /** A bounded receiver never acknowledges more than the limit at once. */
  lemma {:induction false} BoundedAckFits(p: Stream, t: Step)
    requires p.c.opener.delayed && Enabled(p, t) && Bounded(p, Actor(t).Other()) && Limit(p.c, Actor(t).Other()) < TWO_31
    ensures AckFits(p, t)
  {
    if t.Deliver? {
      LoadHead(p.Into(t.x));
    }
  }

  /** In flight are data in transit, data queued at the receiver and acks in transit. */
  ghost function InFlight(p: Pair, x: Side): nat {
    |LoadOf(p.Into(x.Other())).data| + |p.At(x.Other()).queue| + LoadOf(p.Into(x)).acked
  }

  /** In-flight bound: a side that only ever reads with read interest set never has more
      than its credit and one payload less a byte unacknowledged, whatever the other side
      does. */
  lemma {:induction false} InFlightBoundOf(c: Configs, run: seq<Step>, x: Side)
    requires c.Valid() && c.opener.delayed && AcksFit(c, run)
    requires forall t :: t in run && Actor(t) == x ==> !t.Hangup?
    ensures var p := Final(c, run);
      Bounded(p, x) && (p.At(x).hasPeer && p.At(x.Other()).status.Live? ==> InFlight(p, x) <= Limit(c, x))
  {
    if run != [] {
      var prefix, t := run[..|run| - 1], run[|run| - 1];
      assert t in run;
      InFlightBoundOf(c, prefix, x);
      RunIsFunded(c, prefix);
      RunIsAwake(c, prefix);
      StepStaysBounded(Final(c, prefix), t, x);
    }
    RunIsFunded(c, run);
    InFlightFromCredit(Final(c, run), x);
  }

  lemma {:induction false} InFlightFromCredit(p: Funded, x: Side)
    requires p.c.opener.delayed && Bounded(p, x)
    ensures p.At(x).hasPeer && p.At(x.Other()).status.Live? ==> InFlight(p, x) <= Limit(p.c, x)
  {
    assert ConservesAt(p, x);
  }

  lemma {:induction false} BoundedAcksFit(c: Configs, run: seq<Step>)
    requires c.Valid() && c.opener.delayed && NoHangup(run)
    requires Limit(c, Opener) < TWO_31 && Limit(c, Acceptor) < TWO_31
    ensures AcksFit(c, run)
  {
    if run != [] {
      var prefix, t := run[..|run| - 1], run[|run| - 1];
      BoundedAcksFit(c, prefix);
      if Enabled(Final(c, prefix), t) {
        RunIsSound(c, prefix);
        InFlightBoundOf(c, prefix, Actor(t).Other());
        BoundedAckFits(Final(c, prefix), t);
      }
    }
  }

  /** When no side reads on hangup and the bounds are below 2^31, every ack of the run is
      read back as the number it stands for, however much each write takes. */
  lemma {:induction false} InFlightBound(c: Configs, run: seq<Step>, x: Side)
    requires c.Valid() && c.opener.delayed && NoHangup(run)
    requires Limit(c, Opener) < TWO_31 && Limit(c, Acceptor) < TWO_31
    ensures AcksFit(c, run)
    ensures var p := Final(c, run);
      Bounded(p, x) && (p.At(x).hasPeer && p.At(x.Other()).status.Live? ==> InFlight(p, x) <= Limit(c, x))
  {
    BoundedAcksFit(c, run);
    InFlightBoundOf(c, run, x);
  }

  /** A run with plain acks, of small writes, or without hangup reads and with a bound that
      fits an ack. */
  predicate Modest(c: Configs, run: seq<Step>) {
    || !c.opener.delayed || SmallWrites(run)
    || (NoHangup(run) && Limit(c, Opener) < TWO_31 && Limit(c, Acceptor) < TWO_31)
  }

  lemma {:induction false} ModestAcksFit(c: Configs, run: seq<Step>)
    requires c.Valid() && Modest(c, run)
    ensures AcksFit(c, run)
  {
    if !c.opener.delayed || SmallWrites(run) {
      AcksFitWhen(c, run);
    } else {
      BoundedAcksFit(c, run);
    }
  }

  // ---- Plain acks

  /** The WRTEs side `x` has sent. */
  function WrtesSent(c: Configs, run: seq<Step>, x: Side): nat {
    if run == [] then 0 else
    var p, t := Final(c, run[..|run| - 1]), run[|run| - 1];
    WrtesSent(c, run[..|run| - 1], x) + if Enabled(p, t) && Actor(t) == x then Wrtes(Result(p, t).out) else 0
  }

  /** The OKAYs side `x` has taken while it was live. */
  function OkaysTaken(c: Configs, run: seq<Step>, x: Side): nat {
    if run == [] then 0 else
    var p, t := Final(c, run[..|run| - 1]), run[|run| - 1];
    OkaysTaken(c, run[..|run| - 1], x) + if Enabled(p, t) && Actor(t) == x then Taken(p, t) else 0
  }

  /** Whether a step hands an OKAY to a live socket. */
  function Taken(p: Pair, t: Step): nat {
    if t.Deliver? && p.Into(t.x) != [] && p.Into(t.x)[0].Okay? && p.At(t.x).status.Live? then 1 else 0
  }

  /** One for a live socket that may read. */
  function Reading(s: Sock): nat {
    if s.status.Live? && s.readOn then 1 else 0
  }

  lemma {:induction false} WrtesOfRead(s: Sock, data: seq<byte>, eof: bool)
    ensures Wrtes(Read(s, data, eof).out) == if data != [] && s.hasPeer then 1 else 0
  {
    WrtesOne(Wrte(data));
    WrtesOne(Clse);
    TotalAppend([Wrte(data)], [Clse], IsWrte, 1);
    assert [] + [Clse] == [Clse];
  }

  lemma {:induction false} NoWrteNone(ch: seq<Msg>, n: nat)
    requires n <= |ch| && NoWrte(ch)
    ensures Total(ch, IsWrte, n) == 0
  {
    if n > 0 {
      NoWrteNone(ch, n - 1);
    }
  }

  lemma {:induction false} OthersSendNoWrte(p: Stream, t: Step)
    requires Enabled(p, t) && !t.Hangup? && !t.Readable?
    ensures Wrtes(Result(p, t).out) == 0
  {
    if t.Writable? {
      FlushIsTidy(p.Cfg(t.x), p.At(t.x), t.w);
    } else if t.Deliver? && !Creates(p, t) {
      DeliverMoves(p, t.x, t.w, t.service);
      HandleIsTidy(p.Cfg(t.x), p.At(t.x), p.Into(t.x)[0], t.w, t.service);
    }
    NoWrteNone(Result(p, t).out, |Result(p, t).out|);
  }

  /** One for an acceptor, which may read from the start. */
  function Advance(x: Side, s: Sock): nat {
    if x.Acceptor? && !s.status.Idle? then 1 else 0
  }

  lemma {:induction false} HandleReads(cfg: Config, s: Sock, m: Msg, w: WriteResult, service: bool)
    requires m.Wrte? && s.status.Live? && s.hasPeer ==> WriteFits(s.queue + m.data, w)
    requires !s.status.Idle? && !m.Open?
    ensures var t := Handle(cfg, s, m, w, service).sock;
      Reading(t) <= Reading(s) + (if m.Okay? && s.status.Live? then 1 else 0) && !t.status.Idle?
  {
  }

  lemma {:induction false} CreateSpends(p: Stream, t: Step)
    requires Enabled(p, t) && Creates(p, t)
    ensures var o := Result(p, t);
      p.At(Actor(t)).status.Idle? && Reading(o.sock) <= Advance(Actor(t), o.sock)
  {
  }

  lemma {:induction false} ReadSpends(cfg: Config, s: Sock, data: seq<byte>, eof: bool)
    requires SockOk(cfg, s) && !cfg.delayed && s.status.Live? && s.readOn
    ensures var o := Read(s, data, eof); Wrtes(o.out) + Reading(o.sock) <= 1 && !o.sock.status.Idle?
  {
    WrtesOfRead(s, data, eof);
  }

  /** With plain acks, a WRTE uses up the permission to read, and only an OKAY gives it back. */
  lemma {:induction false} StepSpends(p: Stream, t: Step)
    requires !p.c.opener.delayed && Enabled(p, t) && !t.Hangup?
    ensures var x, s := Actor(t), p.At(Actor(t)); var o := Result(p, t);
      Wrtes(o.out) + Reading(o.sock) + Advance(x, s) <= Reading(s) + Taken(p, t) + Advance(x, o.sock)
  {
    if t.Readable? {
      ReadSpends(p.Cfg(t.x), p.At(t.x), t.data, t.eof);
    } else {
      OthersSendNoWrte(p, t);
      if Creates(p, t) {
        CreateSpends(p, t);
      } else if t.Deliver? {
        DeliverMoves(p, t.x, t.w, t.service);
        HandleReads(p.Cfg(t.x), p.At(t.x), p.Into(t.x)[0], t.w, t.service);
      }
    }
  }

  lemma {:induction false} WrtesAppend(a: seq<Msg>, b: seq<Msg>)
    ensures Wrtes(a + b) == Wrtes(a) + Wrtes(b)
  {
    TotalAppend(a, b, IsWrte, |b|);
  }

  lemma {:induction false} WrtesRest(ch: seq<Msg>)
    requires ch != []
    ensures Wrtes(ch[1..]) <= Wrtes(ch)
  {
    WrtesAppend([ch[0]], ch[1..]);
    assert [ch[0]] + ch[1..] == ch;
  }

  lemma {:induction false} StepTransit(p: Pair, t: Step, x: Side)
    requires Enabled(p, t)
    ensures Wrtes(Apply(p, t).Into(x.Other())) <= Wrtes(p.Into(x.Other())) + if Actor(t) == x then Wrtes(Result(p, t).out) else 0
  {
    if Actor(t) == x {
      WrtesAppend(p.Into(x.Other()), Result(p, t).out);
    } else if t.Deliver? {
      WrtesRest(p.Into(t.x));
    }
  }

  /** What is in transit was sent. */
  lemma {:induction false} InTransitWasSent(c: Configs, run: seq<Step>, x: Side)
    ensures Wrtes(Final(c, run).Into(x.Other())) <= WrtesSent(c, run, x)
  {
    if run != [] {
      var prefix, t := run[..|run| - 1], run[|run| - 1];
      InTransitWasSent(c, prefix, x);
      if Enabled(Final(c, prefix), t) {
        StepTransit(Final(c, prefix), t, x);
      }
    }
  }

  /** Flow control with plain acks: a side that only ever reads with read interest set has sent
      at most as many WRTEs as it has taken OKAYs, and one more if it is the acceptor; one less
      while it may read. */
  lemma {:induction false} PlainAckBound(c: Configs, run: seq<Step>, x: Side)
    requires c.Valid() && !c.opener.delayed && forall t :: t in run && Actor(t) == x ==> !t.Hangup?
    ensures var p := Final(c, run);
      && WrtesSent(c, run, x) + Reading(p.At(x)) <= OkaysTaken(c, run, x) + Advance(x, p.At(x))
      && Wrtes(p.Into(x.Other())) <= WrtesSent(c, run, x)
  {
    InTransitWasSent(c, run, x);
    if run != [] {
      var prefix, t := run[..|run| - 1], run[|run| - 1];
      assert t in run;
      PlainAckBound(c, prefix, x);
      RunIsSound(c, prefix);
      if Enabled(Final(c, prefix), t) && Actor(t) == x {
        StepSpends(Final(c, prefix), t);
      }
    }
  }

  // ---- What is acknowledged

  /** From `s` to `t`, with `out` sent: exactly what was written for a connected socket was
      acknowledged, with delayed acks by an OKAY with the number of bytes, even if that is none;
      with plain acks by one OKAY if there are any, and less than a payload is left.  Nothing was
      written or acknowledged but by a flush. */
  ghost predicate Answered(cfg: Config, s: Sock, flush: bool, t: Sock, out: Load) {
    var n := |t.written| - |s.written|;
    && 0 <= n && (n > 0 ==> flush)
    && out.okays == (if !flush || !s.hasPeer then 0 else if cfg.delayed || (0 < n && |t.queue| < MAX_PAYLOAD) then 1 else 0)
    && out.acked == (if flush && s.hasPeer && cfg.delayed then AsUint32(n) else 0)
  }

  lemma {:induction false} FlushAnswers(cfg: Config, s: Sock, w: WriteResult)
    requires Flushable(cfg, s) && WriteFits(s.queue, w)
    ensures Answered(cfg, s, true, Flush(cfg, s, w).sock, LoadOf(Flush(cfg, s, w).out))
  {
    AfterWriteKeepsBytes(s, w);
    LoadSingle(SendReady(cfg, |s.queue| - |AfterWrite(s, w).queue|));
    LoadSingle(SendReady(cfg, 0));
  }

  lemma {:induction false} HandleAnswers(cfg: Config, s: Sock, m: Msg, w: WriteResult, service: bool)
    requires SockOk(cfg, s) && !s.status.Idle? && !m.Open?
    requires m.Wrte? && s.status.Live? && s.hasPeer ==> WriteFits(s.queue + m.data, w)
    ensures var o := Handle(cfg, s, m, w, service); Answered(cfg, s, m.Wrte? && s.hasPeer, o.sock, LoadOf(o.out))
  {
    LoadSingle(Clse);
    if m.Wrte? && s.hasPeer {
      FlushAnswers(cfg, s.(queue := s.queue + m.data), w);
    }
  }

  lemma {:induction false} ReadAnswers(cfg: Config, s: Sock, data: seq<byte>, eof: bool)
    ensures var o := Read(s, data, eof); Answered(cfg, s, false, o.sock, LoadOf(o.out))
  {
    ReadOut(s, data, eof);
  }

  lemma {:induction false} StepAnswers(p: Stream, t: Step)
    requires Enabled(p, t) && !Creates(p, t)
    ensures Answered(p.Cfg(t.x), p.At(t.x), Flushes(p, t), Result(p, t).sock, LoadOf(Result(p, t).out))
  {
    var cfg, s := p.Cfg(t.x), p.At(t.x);
    match t
    case Readable(_, data, eof) => ReadAnswers(cfg, s, data, eof);
    case Hangup(_, data, eof) => ReadAnswers(cfg, s, data, eof);
    case Writable(_, w) => FlushAnswers(cfg, s, w);
    case Deliver(x, w, service) =>
      DeliverMoves(p, x, w, service);
      HandleAnswers(cfg, s, p.Into(x)[0], w, service);
  }

  /** In every run, every step of an existing socket acknowledges exactly what it writes. */
  lemma {:induction false} AcksExactly(c: Configs, run: seq<Step>, t: Step)
    requires c.Valid() && Enabled(Final(c, run), t) && !Creates(Final(c, run), t)
    ensures var p := Final(c, run); Answered(c.At(t.x), p.At(t.x), Flushes(p, t), Result(p, t).sock, LoadOf(Result(p, t).out))
  {
    RunIsSound(c, run);
    StepAnswers(Final(c, run), t);
  }

  // ---- Reads on hangup

  lemma {:induction false} FinalNext(c: Configs, run: seq<Step>, t: Step)
    ensures Final(c, run + [t]) == Apply(Final(c, run), t)
  {
    assert (run + [t])[..|run|] == run;
  }

  /** The steps that open a stream up to side `x`. */
  function Handshake(x: Side): seq<Step> {
    [Start, Deliver(Acceptor, WouldBlock, true)] + if x.Opener? then [Deliver(Opener, WouldBlock, true)] else []
  }

  lemma {:induction false} StartedState(c: Configs)
    requires c.Valid() && c.opener.delayed
    ensures Final(c, [Start]) == Pair(c, Connect(c.opener).sock, IDLE, [Open(c.opener.window)], [])
  {
    FinalNext(c, [], Start);
    assert [] + [Start] == [Start] && [] + [Open(c.opener.window)] == [Open(c.opener.window)];
  }

  lemma {:induction false} AcceptedState(c: Configs)
    requires c.Valid() && c.opener.delayed
    ensures Final(c, Handshake(Acceptor)) ==
      Pair(c, Connect(c.opener).sock, Accept(c.acceptor, c.opener.window).sock, [], [Okay(Some(c.acceptor.window))])
  {
    StartedState(c);
    FinalNext(c, [Start], Deliver(Acceptor, WouldBlock, true));
    assert [Start] + [Deliver(Acceptor, WouldBlock, true)] == Handshake(Acceptor);
    assert [] + [Okay(Some(c.acceptor.window))] == [Okay(Some(c.acceptor.window))];
  }

  /** A side with a peer and this much credit. */
  ghost predicate Has(p: Pair, x: Side, credit: int) {
    p.At(x).status.Live? && p.At(x).hasPeer && p.At(x).avail == Some(credit)
  }

  lemma {:induction false} OpenedState(c: Configs, x: Side)
    requires c.Valid() && c.opener.delayed
    ensures Has(Final(c, Handshake(x)), x, Most(c, x)) && Final(c, Handshake(x)).c == c
  {
    AcceptedState(c);
    if x.Opener? {
      FinalNext(c, Handshake(Acceptor), Deliver(Opener, WouldBlock, true));
      assert Handshake(Acceptor) + [Deliver(Opener, WouldBlock, true)] == Handshake(Opener);
    }
  }

  /** A read of a whole payload that a hangup makes `x` do. */
  function HangupRead(c: Configs, x: Side): Step {
    Hangup(x, seq(c.At(x).maxPayload, _ => 0), false)
  }

  function HangupReads(c: Configs, x: Side, n: nat): seq<Step> {
    seq(n, _ => HangupRead(c, x))
  }

  lemma {:induction false} ReadCosts(p: Pair, x: Side, data: seq<byte>, credit: int)
    requires Has(p, x, credit) && 0 < |data| <= p.c.At(x).maxPayload
    ensures Has(Apply(p, Hangup(x, data, false)), x, credit - |data|)
  {
  }

  lemma {:induction false} HangupCosts(c: Configs, run: seq<Step>, x: Side, credit: int)
    requires c.Valid() && Has(Final(c, run), x, credit)
    ensures Has(Final(c, run + [HangupRead(c, x)]), x, credit - c.At(x).maxPayload)
  {
    FinalConfigs(c, run);
    FinalNext(c, run, HangupRead(c, x));
    ReadCosts(Final(c, run), x, HangupRead(c, x).data, credit);
  }

  /** They all happen, without any read interest, and each costs a payload of credit. */
  lemma {:induction false} HangupsDrain(c: Configs, run: seq<Step>, x: Side, n: nat, credit: int)
    requires c.Valid() && Has(Final(c, run), x, credit)
    ensures Has(Final(c, run + HangupReads(c, x, n)), x, credit - n * c.At(x).maxPayload)
  {
    if n == 0 {
      assert run + HangupReads(c, x, 0) == run;
    } else {
      var before, t := HangupReads(c, x, n - 1), HangupRead(c, x);
      assert before + [t] == HangupReads(c, x, n);
      assert run + before + [t] == run + HangupReads(c, x, n);
      HangupsDrain(c, run, x, n - 1, credit);
      HangupCosts(c, run + before, x, credit - (n - 1) * c.At(x).maxPayload);
      Product(n - 1, c.At(x).maxPayload);
    }
  }

  lemma {:induction false} Product(k: nat, m: nat)
    ensures (k + 1) * m == k * m + m
  {
  }

  lemma {:induction false} ProductGrows(k: nat, m: nat)
    requires m > 0
    ensures k * m >= k
  {
    if k > 0 {
      ProductGrows(k - 1, m);
      Product(k - 1, m);
    }
  }

  lemma {:induction false} Overdrawn(most: nat, m: nat)
    requires m > 0
    ensures most - (most + 1) * m < 1 - m
  {
    Product(most, m);
    ProductGrows(most, m);
  }

  /** The bound needs its premise in every configuration and on either side: after a run
      that keeps it, enough hangup reads take the side's credit below it. */
  lemma {:induction false} HangupBreaksBound(c: Configs, x: Side)
    requires c.Valid() && c.opener.delayed
    ensures NoHangup(Handshake(x)) && Bounded(Final(c, Handshake(x)), x)
    ensures !Bounded(Final(c, Handshake(x) + HangupReads(c, x, Most(c, x) + 1)), x)
  {
    OpeningIsBounded(c, x);
    OpenedState(c, x);
    HangupsDrain(c, Handshake(x), x, Most(c, x) + 1, Most(c, x));
    Overdrawn(Most(c, x), c.At(x).maxPayload);
    FinalConfigs(c, Handshake(x) + HangupReads(c, x, Most(c, x) + 1));
  }

  lemma {:induction false} OpeningIsBounded(c: Configs, x: Side)
    requires c.Valid() && c.opener.delayed
    ensures Bounded(Final(c, Handshake(x)), x)
  {
    AcksFitWhen(c, Handshake(x));
    InFlightBoundOf(c, Handshake(x), x);
  }
}
