/**
 * One stream between the endpoint that opened it and the endpoint that accepted
 * it, over two FIFO channels.  A run is a sequence of steps; a step carries every
 * choice the environment makes (how much a read returned, how much a write took),
 * so a run determines its final state.
 */
module StreamProtocol {
  import opened Common
  import opened StreamSocket

  datatype Side = Opener | Acceptor {
    function Other(): Side { if Opener? then Acceptor else Opener }
  }

  datatype Configs = Configs(opener: Config, acceptor: Config) {
    /** Both ends negotiated the same ack mode. */
    predicate Valid() {
      opener.Valid() && acceptor.Valid() && opener.delayed == acceptor.delayed
    }
    function At(x: Side): Config { if x.Opener? then opener else acceptor }
  }

  datatype Pair = Pair(c: Configs, opener: Sock, acceptor: Sock, toAcceptor: seq<Msg>, toOpener: seq<Msg>) {
    function At(x: Side): Sock { if x.Opener? then opener else acceptor }
    function Cfg(x: Side): Config { c.At(x) }
    /** The channel into `x`. */
    function Into(x: Side): seq<Msg> { if x.Opener? then toOpener else toAcceptor }
    /** `x` moves to `o.sock`, its input becomes `input`, and `o.out` is sent. */
    function Move(x: Side, o: Outcome, input: seq<Msg>): Pair {
      if x.Opener? then Pair(c, o.sock, acceptor, toAcceptor + o.out, input)
      else Pair(c, opener, o.sock, input, toOpener + o.out)
    }
  }

  /**
   * `Start` opens the stream.  `Readable` is a read event with read interest set;
   * `Hangup` is the read event that epoll fakes on hangup whether or not read
   * interest is set.  `Writable` is a write event.  `Deliver` hands the next
   * packet to `x`.
   */
  datatype Step =
    | Start
    | Readable(x: Side, data: seq<byte>, eof: bool)
    | Hangup(x: Side, data: seq<byte>, eof: bool)
    | Writable(x: Side, w: WriteResult)
    | Deliver(x: Side, w: WriteResult, service: bool)

  function Initial(c: Configs): Pair {
    Pair(c, IDLE, IDLE, [], [])
  }

  predicate Enabled(p: Pair, t: Step) {
    match t
    case Start => p.opener.status.Idle?
    case Readable(x, data, eof) => p.At(x).status.Live? && p.At(x).readOn && ReadFits(p.Cfg(x), data, eof)
    case Hangup(x, data, eof) => Exists(p.At(x)) && ReadFits(p.Cfg(x), data, eof)
    case Writable(x, w) => Exists(p.At(x)) && p.At(x).writeOn && WriteFits(p.At(x).queue, w)
    case Deliver(x, w, _) =>
      var s, input := p.At(x), p.Into(x);
      input != [] && (input[0].Wrte? && s.status.Live? && s.hasPeer ==> WriteFits(s.queue + input[0].data, w))
  }

  /** `handle_packet` on the next packet for `s`. */
  function Handle(cfg: Config, s: Sock, m: Msg, w: WriteResult, service: bool): Outcome
    requires m.Wrte? && s.status.Live? && s.hasPeer ==> WriteFits(s.queue + m.data, w)
  {
    match m
    case Open(grant) => if s.status.Idle? then OnOpen(cfg, grant, service) else Outcome(s, [])
    case Okay(ack) => OnOkay(cfg, s, ack)
    case Wrte(data) => OnWrte(cfg, s, data, w)
    case Clse => OnClse(s, false)
    case Refuse => OnClse(s, true)
  }

  /** What the socket that takes step `t` does. */
  function Result(p: Pair, t: Step): Outcome
    requires Enabled(p, t)
  {
    match t
    case Start => Connect(p.c.opener)
    case Readable(x, data, eof) => Read(p.At(x), data, eof)
    case Hangup(x, data, eof) => Read(p.At(x), data, eof)
    case Writable(x, w) => Flush(p.Cfg(x), p.At(x), w)
    case Deliver(x, w, service) => Handle(p.Cfg(x), p.At(x), p.Into(x)[0], w, service)
  }

  function Actor(t: Step): Side {
    if t.Start? then Opener else t.x
  }

  /** What a step leaves in the channel of the socket that takes it. */
  function Rest(p: Pair, t: Step): seq<Msg> {
    var input := p.Into(Actor(t));
    if t.Deliver? && input != [] then input[1..] else input
  }

  /** One step; a step that is not enabled does nothing. */
  function Apply(p: Pair, t: Step): Pair {
    if Enabled(p, t) then p.Move(Actor(t), Result(p, t), Rest(p, t)) else p
  }

  /** The state a run ends in. */
  function Final(c: Configs, run: seq<Step>): Pair {
    if run == [] then Initial(c) else Apply(Final(c, run[..|run| - 1]), run[|run| - 1])
  }

  // ---- What a channel holds

  /** The payload bytes, acknowledged bytes and message counts of a channel;
      `big` counts acks that an `int32_t` cannot hold. */
  datatype Load = Load(data: seq<byte>, acked: nat, okays: nat, closes: nat, opens: nat, refusals: nat, big: nat) {
    function Plus(o: Load): Load {
      Load(data + o.data, acked + o.acked, okays + o.okays, closes + o.closes,
           opens + o.opens, refusals + o.refusals, big + o.big)
    }
  }

  const EMPTY := Load([], 0, 0, 0, 0, 0, 0)

  function Payload(m: Msg): seq<byte> { if m.Wrte? then m.data else [] }
  function AckBytes(m: Msg): nat { if m.Okay? && m.ack.Some? then m.ack.value else 0 }
  function IsOkay(m: Msg): nat { if m.Okay? then 1 else 0 }
  function IsWrte(m: Msg): nat { if m.Wrte? then 1 else 0 }
  function IsClse(m: Msg): nat { if m.Clse? then 1 else 0 }
  function IsOpen(m: Msg): nat { if m.Open? then 1 else 0 }
  function IsRefuse(m: Msg): nat { if m.Refuse? then 1 else 0 }
  function IsBigAck(m: Msg): nat { if AckBytes(m) < TWO_31 then 0 else 1 }

  /** The payloads of the first `n` messages of `ch`. */
  function Data(ch: seq<Msg>, n: nat): seq<byte>
    requires n <= |ch|
  {
    if n == 0 then [] else Data(ch, n - 1) + Payload(ch[n - 1])
  }

  /** `f` summed over the first `n` messages of `ch`. */
  function Total(ch: seq<Msg>, f: Msg -> nat, n: nat): nat
    requires n <= |ch|
  {
    if n == 0 then 0 else Total(ch, f, n - 1) + f(ch[n - 1])
  }

  function LoadOf(ch: seq<Msg>): Load {
    var n := |ch|;
    Load(Data(ch, n), Total(ch, AckBytes, n), Total(ch, IsOkay, n), Total(ch, IsClse, n),
         Total(ch, IsOpen, n), Total(ch, IsRefuse, n), Total(ch, IsBigAck, n))
  }

  function LoadOf1(m: Msg): Load {
    Load(Payload(m), AckBytes(m), IsOkay(m), IsClse(m), IsOpen(m), IsRefuse(m), IsBigAck(m))
  }

  function Wrtes(ch: seq<Msg>): nat {
    Total(ch, IsWrte, |ch|)
  }

  lemma {:induction false} WrtesOne(m: Msg)
    ensures Wrtes([m]) == IsWrte(m)
  {
    assert Total([m], IsWrte, 1) == Total([m], IsWrte, 0) + IsWrte(m);
  }

  lemma {:induction false} TotalPrefix(a: seq<Msg>, b: seq<Msg>, f: Msg -> nat, n: nat)
    requires n <= |a|
    ensures Total(a + b, f, n) == Total(a, f, n)
  {
    if n > 0 {
      TotalPrefix(a, b, f, n - 1);
    }
  }

  lemma {:induction false} TotalAppend(a: seq<Msg>, b: seq<Msg>, f: Msg -> nat, n: nat)
    requires n <= |b|
    ensures Total(a + b, f, |a| + n) == Total(a, f, |a|) + Total(b, f, n)
  {
    if n == 0 {
      TotalPrefix(a, b, f, |a|);
    } else {
      TotalAppend(a, b, f, n - 1);
    }
  }

  lemma {:induction false} DataPrefix(a: seq<Msg>, b: seq<Msg>, n: nat)
    requires n <= |a|
    ensures Data(a + b, n) == Data(a, n)
  {
    if n > 0 {
      DataPrefix(a, b, n - 1);
    }
  }

  lemma {:induction false} DataAppend(a: seq<Msg>, b: seq<Msg>, n: nat)
    requires n <= |b|
    ensures Data(a + b, |a| + n) == Data(a, |a|) + Data(b, n)
  {
    if n == 0 {
      DataPrefix(a, b, |a|);
    } else {
      DataAppend(a, b, n - 1);
      assert Data(a, |a|) + Data(b, n - 1) + Payload(b[n - 1]) == Data(a, |a|) + (Data(b, n - 1) + Payload(b[n - 1]));
    }
  }

  lemma {:induction false} LoadAppend(a: seq<Msg>, b: seq<Msg>)
    ensures LoadOf(a + b) == LoadOf(a).Plus(LoadOf(b))
  {
    var n := |b|;
    DataAppend(a, b, n);
    TotalAppend(a, b, AckBytes, n);
    TotalAppend(a, b, IsOkay, n);
    TotalAppend(a, b, IsClse, n);
    TotalAppend(a, b, IsOpen, n);
    TotalAppend(a, b, IsRefuse, n);
    TotalAppend(a, b, IsBigAck, n);
  }

  lemma {:induction false} LoadSingle(m: Msg)
    ensures LoadOf([m]) == LoadOf1(m)
  {
    assert Data([m], 1) == Payload(m);
    assert forall f :: Total([m], f, 1) == f(m);
  }

  /** Taking the head off a channel takes its load off. */
  lemma {:induction false} LoadHead(ch: seq<Msg>)
    requires ch != []
    ensures LoadOf(ch) == LoadOf1(ch[0]).Plus(LoadOf(ch[1..]))
  {
    assert ch == [ch[0]] + ch[1..];
    LoadAppend([ch[0]], ch[1..]);
    LoadSingle(ch[0]);
  }
}
