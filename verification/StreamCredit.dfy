/** Flow control: send credit is conserved, so no stream stalls for ever. */
module StreamCredit {
  import opened Common
  import opened StreamSocket
  import opened StreamProtocol
  import opened StreamInvariants

  // ---- What one handler does to credit

  /** Credit a handler hands out and takes back: every byte that leaves the queue is
      acknowledged, every byte sent is charged, and an ack is credited up to the
      window. */
  ghost predicate Pays(cfg: Config, s: Sock, input: Load, t: Sock, out: Load) {
    && (t.status.Live? && (s.hasPeer || s.queue == []) ==> |t.queue| + out.acked == |s.queue| + |input.data|)
    && out.big == 0
    && (s.hasPeer && t.hasPeer ==>
          && s.avail.Some? && t.avail.Some?
          && t.avail.value == (if input.okays == 0 then s.avail.value else Min(s.avail.value + input.acked, cfg.window)) - |out.data|)
  }

  /** Read interest follows credit. */
  ghost predicate Wakes(s: Sock, input: Load, t: Sock, out: Load) {
    && (s.hasPeer && t.hasPeer && s.readOn && !t.readOn ==> out.data != [])
    && (s.hasPeer && t.hasPeer && t.avail.None? && input.okays > 0 ==> t.readOn)
    && (s.hasPeer && t.hasPeer && s.avail.Some? && t.avail.Some? && (s.readOn <==> s.avail.value > 0) ==>
          (t.readOn <==> t.avail.value > 0))
  }

  lemma {:induction false} ReadPays(cfg: Config, s: Sock, data: seq<byte>, eof: bool)
    requires SockOk(cfg, s) && Exists(s) && cfg.delayed
    ensures var o := Read(s, data, eof); Pays(cfg, s, EMPTY, o.sock, LoadOf(o.out))
  {
    ReadOut(s, data, eof);
  }

  lemma {:induction false} FlushPays(cfg: Config, s: Sock, w: WriteResult)
    requires Exists(s) && (s.hasPeer ==> s.status.Live?) && s.avail.Some? && cfg.delayed
    requires WriteFits(s.queue, w) && (s.hasPeer && w.Wrote? ==> w.n < TWO_31)
    ensures var o := Flush(cfg, s, w); Pays(cfg, s, EMPTY, o.sock, LoadOf(o.out))
  {
    FlushSendsNoData(cfg, s, w);
    AfterWriteKeepsBytes(s, w);
    LoadSingle(SendReady(cfg, |s.queue| - |AfterWrite(s, w).queue|));
  }

  lemma {:induction false} HandlePays(cfg: Config, s: Sock, m: Msg, w: WriteResult, service: bool)
    requires SockOk(cfg, s) && !s.status.Idle? && !m.Open? && cfg.delayed
    requires m.Wrte? && s.hasPeer ==> WriteFits(s.queue + m.data, w) && (w.Wrote? ==> w.n < TWO_31)
    requires m.Wrte? && s.status.Live? ==> s.hasPeer
    requires m.Okay? ==> m.ack.Some? && m.ack.value < TWO_31
    ensures var o := Handle(cfg, s, m, w, service); Pays(cfg, s, LoadOf1(m), o.sock, LoadOf(o.out))
  {
    LoadSingle(Clse);
    if m.Wrte? && s.hasPeer {
      FlushPays(cfg, s.(queue := s.queue + m.data), w);
    }
  }

  lemma {:induction false} ReadWakes(cfg: Config, s: Sock, data: seq<byte>, eof: bool)
    requires SockOk(cfg, s) && Exists(s)
    ensures var o := Read(s, data, eof); Wakes(s, EMPTY, o.sock, LoadOf(o.out))
  {
    ReadOut(s, data, eof);
  }

  lemma {:induction false} FlushWakes(cfg: Config, s: Sock, w: WriteResult)
    requires WriteFits(s.queue, w)
    ensures var o := Flush(cfg, s, w); Wakes(s, EMPTY, o.sock, LoadOf(o.out))
  {
  }

  lemma {:induction false} HandleWakes(cfg: Config, s: Sock, m: Msg, w: WriteResult, service: bool)
    requires SockOk(cfg, s) && !s.status.Idle? && !m.Open?
    requires m.Wrte? && s.hasPeer ==> WriteFits(s.queue + m.data, w)
    requires m.Okay? ==> m.ack.Some? == cfg.delayed && (m.ack.Some? ==> m.ack.value < TWO_31)
    requires cfg.Valid()
    ensures var o := Handle(cfg, s, m, w, service); Wakes(s, LoadOf1(m), o.sock, LoadOf(o.out))
  {
    if m.Wrte? && s.hasPeer {
      FlushWakes(cfg, s.(queue := s.queue + m.data), w);
    }
  }

  // ---- Conservation with delayed acks

  /** The credit a side starts with: the opener's grant is clamped to its own
      window, the acceptor's is not, and only later acks are. */
  function Least(c: Configs, x: Side): int {
    Min(c.At(x.Other()).window, c.At(x).window)
  }

  function Most(c: Configs, x: Side): int {
    if x.Opener? then Least(c, x) else c.opener.window
  }

  /** Credit in hand, in transit as data, queued at the receiver, and in transit as
      acks. */
  function Credit(s: Sock, r: Sock, fwd: Load, bwd: Load): int
    requires s.avail.Some?
  {
    s.avail.value + |fwd.data| + |r.queue| + bwd.acked
  }

  ghost predicate Conserves(s: Sock, r: Sock, fwd: Load, bwd: Load, least: int, most: int) {
    s.hasPeer && r.status.Live? ==> s.avail.Some? && least <= Credit(s, r, fwd, bwd) <= most
  }

  ghost predicate ConservesAt(p: Pair, x: Side) {
    Conserves(p.At(x), p.At(x.Other()), LoadOf(p.Into(x.Other())), LoadOf(p.Into(x)), Least(p.c, x), Most(p.c, x))
  }

  /** Acks in transit have the negotiated form and fit an `int32_t`. */
  ghost predicate AcksOk(delayed: bool, ch: seq<Msg>) {
    forall m :: m in ch && m.Okay? ==> m.ack.Some? == delayed && (m.ack.Some? ==> m.ack.value < TWO_31)
  }

  ghost predicate CreditOk(p: Pair) {
    && (forall x: Side :: AcksOk(p.c.opener.delayed, p.Into(x)))
    && (p.c.opener.delayed ==> forall x: Side :: ConservesAt(p, x))
  }

  lemma {:induction false} SenderConserves(cfg: Config, s: Sock, r: Sock, fwd: Load, input: Load, rest: Load, t: Sock, out: Load, least: int, most: int)
    requires Conserves(s, r, fwd, input.Plus(rest), least, most) && least <= cfg.window
    requires Pays(cfg, s, input, t, out) && (t.hasPeer ==> s.hasPeer) && (input.okays == 0 ==> input.acked == 0)
    ensures Conserves(t, r, fwd.Plus(out), rest, least, most)
  {
  }

  lemma {:induction false} ReceiverConserves(cfg: Config, s: Sock, r: Sock, bwd: Load, input: Load, rest: Load, t: Sock, out: Load, least: int, most: int)
    requires Conserves(s, r, input.Plus(rest), bwd, least, most)
    requires Pays(cfg, r, input, t, out) && Advances(r, input, t, out) && (t.status.Live? ==> r.hasPeer || r.queue == [])
    ensures Conserves(s, t, rest, bwd.Plus(out), least, most)
  {
  }

  // ---- Every step

  /** A sound state whose credit is accounted for. */
  type Funded = p: Stream | CreditOk(p)
    ghost witness Initial(Configs(Config(true, 1, 1), Config(true, 1, 1)))

  /** The number of bytes a step writes to a descriptor and acknowledges. */
  function Flushed(p: Pair, t: Step): nat {
    if (t.Writable? || (t.Deliver? && p.Into(t.x) != [] && p.Into(t.x)[0].Wrte?)) && p.At(t.x).hasPeer && t.w.Wrote?
    then t.w.n else 0
  }

  /** The ack a step sends, if any, can be read back as the number it stands for. */
  predicate AckFits(p: Pair, t: Step) {
    p.c.opener.delayed && Enabled(p, t) ==> Flushed(p, t) < TWO_31
  }

  lemma {:induction false} StepWakes(p: Funded, t: Step)
    requires Enabled(p, t) && !Creates(p, t)
    ensures Wakes(p.At(t.x), Input(p, t), Result(p, t).sock, LoadOf(Result(p, t).out))
  {
    var cfg, s := p.Cfg(t.x), p.At(t.x);
    match t
    case Readable(x, data, eof) => ReadWakes(cfg, s, data, eof);
    case Hangup(x, data, eof) => ReadWakes(cfg, s, data, eof);
    case Writable(x, w) => FlushWakes(cfg, s, w);
    case Deliver(x, w, service) =>
      DeliverMoves(p, x, w, service);
      assert AcksOk(p.c.opener.delayed, p.Into(x)) && p.Into(x)[0] in p.Into(x);
      HandleWakes(cfg, s, p.Into(x)[0], w, service);
  }

  lemma {:induction false} StepPays(p: Funded, t: Step)
    requires Enabled(p, t) && !Creates(p, t) && p.c.opener.delayed && AckFits(p, t)
    ensures Pays(p.Cfg(t.x), p.At(t.x), Input(p, t), Result(p, t).sock, LoadOf(Result(p, t).out))
  {
    var cfg, s := p.Cfg(t.x), p.At(t.x);
    match t
    case Readable(x, data, eof) => ReadPays(cfg, s, data, eof);
    case Hangup(x, data, eof) => ReadPays(cfg, s, data, eof);
    case Writable(x, w) => FlushPays(cfg, s, w);
    case Deliver(x, w, service) =>
      DeliverMoves(p, x, w, service);
      assert AcksOk(p.c.opener.delayed, p.Into(x)) && p.Into(x)[0] in p.Into(x);
      HandlePays(cfg, s, p.Into(x)[0], w, service);
  }

  lemma {:induction false} FlushAcksOk(cfg: Config, s: Sock, w: WriteResult)
    requires WriteFits(s.queue, w) && (s.hasPeer && cfg.delayed && w.Wrote? ==> w.n < TWO_31)
    requires s.hasPeer ==> s.status.Live?
    ensures AcksOk(cfg.delayed, Flush(cfg, s, w).out)
  {
  }

  /** The acks a step sends have the negotiated form. */
  lemma {:induction false} ResultAcksOk(p: Stream, t: Step)
    requires Enabled(p, t) && AckFits(p, t)
    ensures AcksOk(p.c.opener.delayed, Result(p, t).out)
  {
    if t.Writable? {
      FlushAcksOk(p.Cfg(t.x), p.At(t.x), t.w);
    } else if t.Deliver? && p.Into(t.x)[0].Wrte? && p.At(t.x).hasPeer {
      FlushAcksOk(p.Cfg(t.x), p.At(t.x).(queue := p.At(t.x).queue + p.Into(t.x)[0].data), t.w);
    }
  }

  lemma {:induction false} StepKeepsAcksOk(p: Funded, t: Step)
    requires Enabled(p, t) && AckFits(p, t)
    ensures forall x: Side :: AcksOk(p.c.opener.delayed, Apply(p, t).Into(x))
  {
    ResultAcksOk(p, t);
    forall x: Side
      ensures AcksOk(p.c.opener.delayed, Apply(p, t).Into(x))
    {
      assert AcksOk(p.c.opener.delayed, p.Into(x));
    }
  }

  /** This step is the one that connects the opener. */
  predicate Connects(p: Pair, t: Step) {
    !p.acceptor.status.Idle? && p.opener.status.Live? && !p.opener.hasPeer && t.Deliver? && t.x.Opener?
  }

  lemma {:induction false} ConnectConserves(p: Stream, t: Step)
    requires Enabled(p, t) && p.c.opener.delayed && Connects(p, t)
    ensures ConservesAt(Apply(p, t), Opener)
  {
    WaitingOpenerConnects(p, t.w, t.service);
    LoadHead(p.toOpener);
    assert p.toAcceptor + [] == p.toAcceptor;
  }

  lemma {:induction false} CreateConserves(p: Stream, t: Step)
    requires Enabled(p, t) && Creates(p, t) && p.c.opener.delayed
    ensures ConservesAt(Apply(p, t), Opener) && ConservesAt(Apply(p, t), Acceptor)
  {
    CreateSendsNoData(p, t);
    if t.Deliver? {
      assert Apply(p, t).toAcceptor == [];
    }
  }

  lemma {:induction false} PeersOnlyOnConnect(p: Stream, t: Step)
    requires Enabled(p, t) && !Creates(p, t) && !Connects(p, t)
    ensures Result(p, t).sock.hasPeer ==> p.At(t.x).hasPeer
  {
  }

  /** The loads of both channels after a step. */
  lemma {:induction false} StepLoads(p: Pair, t: Step)
    requires Enabled(p, t)
    ensures var x, y, o, q := Actor(t), Actor(t).Other(), Result(p, t), Apply(p, t);
      && q.At(x) == o.sock && q.At(y) == p.At(y)
      && LoadOf(q.Into(y)) == LoadOf(p.Into(y)).Plus(LoadOf(o.out))
      && q.Into(x) == Rest(p, t)
  {
    LoadAppend(p.Into(Actor(t).Other()), Result(p, t).out);
  }

  /** What a step consumes, leaves and sends, and what it pays for. */
  lemma {:induction false} StepFacts(p: Funded, t: Step)
    requires Enabled(p, t) && !Creates(p, t) && p.c.opener.delayed && AckFits(p, t)
    ensures var x, y, o, q := t.x, t.x.Other(), Result(p, t), Apply(p, t);
      && LoadOf(p.Into(x)) == Input(p, t).Plus(LoadOf(Rest(p, t)))
      && Pays(p.Cfg(x), p.At(x), Input(p, t), o.sock, LoadOf(o.out))
      && Advances(p.At(x), Input(p, t), o.sock, LoadOf(o.out))
      && q.At(x) == o.sock && q.At(y) == p.At(y)
      && LoadOf(q.Into(y)) == LoadOf(p.Into(y)).Plus(LoadOf(o.out)) && q.Into(x) == Rest(p, t)
  {
    StepMoves(p, t);
    StepPays(p, t);
    StepLoads(p, t);
  }

  lemma {:induction false} MoveSenderConserves(p: Funded, t: Step)
    requires Enabled(p, t) && !Creates(p, t) && !Connects(p, t) && p.c.opener.delayed && AckFits(p, t)
    ensures ConservesAt(Apply(p, t), t.x)
  {
    var x, y, o := t.x, t.x.Other(), Result(p, t);
    StepFacts(p, t);
    PeersOnlyOnConnect(p, t);
    assert ConservesAt(p, x);
    SenderConserves(p.Cfg(x), p.At(x), p.At(y), LoadOf(p.Into(y)), Input(p, t), LoadOf(Rest(p, t)),
                    o.sock, LoadOf(o.out), Least(p.c, x), Most(p.c, x));
  }

  lemma {:induction false} MoveReceiverConserves(p: Funded, t: Step)
    requires Enabled(p, t) && !Creates(p, t) && p.c.opener.delayed && AckFits(p, t)
    ensures ConservesAt(Apply(p, t), t.x.Other())
  {
    var x, y, o, q := t.x, t.x.Other(), Result(p, t), Apply(p, t);
    StepFacts(p, t);
    assert ConservesAt(p, y);
    assert LoadOf(q.Into(x)) == LoadOf(Rest(p, t));
    ReceiverConserves(p.Cfg(x), p.At(y), p.At(x), LoadOf(p.Into(y)), Input(p, t), LoadOf(Rest(p, t)),
                      o.sock, LoadOf(o.out), Least(p.c, y), Most(p.c, y));
  }

  lemma {:induction false} StepConservesBothWays(p: Funded, t: Step)
    requires Enabled(p, t) && p.c.opener.delayed && AckFits(p, t)
    ensures ConservesAt(Apply(p, t), Opener) && ConservesAt(Apply(p, t), Acceptor)
  {
    if Creates(p, t) {
      CreateConserves(p, t);
    } else {
      MoveReceiverConserves(p, t);
      if Connects(p, t) {
        ConnectConserves(p, t);
      } else {
        MoveSenderConserves(p, t);
      }
    }
  }

  lemma {:induction false} StepConserves(p: Funded, t: Step)
    requires AckFits(p, t)
    ensures CreditOk(Apply(p, t))
  {
    if Enabled(p, t) {
      StepKeepsAcksOk(p, t);
      if p.c.opener.delayed {
        StepConservesBothWays(p, t);
      }
    }
  }
}
