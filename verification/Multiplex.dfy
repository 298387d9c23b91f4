/**
 * Two endpoints that multiplex any number of streams, opened from either side,
 * over one FIFO transport in each direction.
 */
module Multiplex {
  import opened Common
  import opened StreamSocket
  import opened StreamProtocol

  datatype End = A | B {
    function Other(): End { if A? then B else A }
  }

  /** A packet on the wire.  An A_OPEN carries its grant in `msg`; its `arg1` is 0. */
  datatype Packet = Packet(arg0: nat, arg1: nat, msg: Msg)

  /** A local socket: `opener` says that it came from `connect_to_remote`, and `peer`
      is the id of its remote socket, kept after that is gone; 0 before. */
  datatype Local = Local(sock: Sock, opener: bool, peer: nat)

  /** `accepted` is history: the local id given to each A_OPEN accepted so far. */
  datatype Endpoint = Endpoint(cfg: Config, nextId: nat, socks: map<nat, Local>, accepted: map<nat, nat>)

  datatype Reply = Reply(end: Endpoint, out: seq<Packet>)

  datatype Link = Link(a: Endpoint, b: Endpoint, toA: seq<Packet>, toB: seq<Packet>) {
    function At(d: End): Endpoint { if d.A? then a else b }
    function Into(d: End): seq<Packet> { if d.A? then toA else toB }
    function Move(d: End, r: Reply, input: seq<Packet>): Link {
      if d.A? then Link(r.end, b, input, toB + r.out) else Link(a, r.end, toA + r.out, input)
    }
  }

  /** `find_local_socket`. */
  predicate Found(e: Endpoint, id: nat, peer: nat) {
    id in e.socks && e.socks[id].sock.status.Live? &&
    (peer == 0 || (e.socks[id].sock.hasPeer && e.socks[id].peer == peer))
  }

  /** The messages of local socket `id` to remote socket `peer`, as packets. */
  function Wrap(id: nat, peer: nat, out: seq<Msg>): seq<Packet> {
    seq(|out|, i requires 0 <= i < |out| => Packet(id, peer, out[i]))
  }

  /** Local socket `id` moves to `o`. */
  function Update(e: Endpoint, id: nat, peer: nat, o: Outcome): Reply
    requires id in e.socks
  {
    Reply(e.(socks := e.socks[id := e.socks[id].(sock := o.sock, peer := peer)]), Wrap(id, peer, o.out))
  }

  /** `install_local_socket`: ids count up and are never reused. */
  function Install(e: Endpoint, opener: bool, peer: nat, o: Outcome): Reply {
    Reply(e.(nextId := e.nextId + 1, socks := e.socks[e.nextId := Local(o.sock, opener, peer)]),
          Wrap(e.nextId, peer, o.out))
  }

  /** The write result fits the queue an A_WRTE would be added to. */
  predicate PacketFits(e: Endpoint, p: Packet, w: WriteResult) {
    p.msg.Wrte? && Found(e, p.arg1, p.arg0) ==> WriteFits(e.socks[p.arg1].sock.queue + p.msg.data, w)
  }

  /** `handle_packet`. */
  function OnPacket(e: Endpoint, p: Packet, w: WriteResult, service: bool): Reply
    requires PacketFits(e, p, w)
  {
    match p.msg
    case Open(grant) =>
      var o := OnOpen(e.cfg, grant, service);
      if p.arg0 == 0 then Reply(e, [])
      else if o.sock.status.Live? then
        Install(e.(accepted := e.accepted[p.arg0 := e.nextId]), false, p.arg0, o)
      else Reply(e, [Packet(0, p.arg0, Clse)])
    case Okay(ack) =>
      if p.arg0 == 0 || p.arg1 == 0 then Reply(e, [])
      else if !Found(e, p.arg1, 0) then Reply(e, [Packet(p.arg1, p.arg0, Clse)])
      else
        var l := e.socks[p.arg1];
        if l.sock.hasPeer && l.peer != p.arg0 then Reply(e, [])
        else Update(e, p.arg1, p.arg0, OnOkay(e.cfg, l.sock, ack))
    case Wrte(data) =>
      if p.arg0 != 0 && p.arg1 != 0 && Found(e, p.arg1, p.arg0)
      then Update(e, p.arg1, p.arg0, OnWrte(e.cfg, e.socks[p.arg1].sock, data, w))
      else Reply(e, [])
    case Clse =>
      if p.arg1 != 0 && Found(e, p.arg1, p.arg0)
      then Update(e, p.arg1, e.socks[p.arg1].peer, Close(e.socks[p.arg1].sock))
      else Reply(e, [])
    case Refuse => Reply(e, [])
  }

  /** `Begin` opens a stream from `d`; `CanRead`, `HungUp` and `CanWrite` are events
      on the descriptor of local socket `id`; `Arrive` hands the next packet to `d`.
      The process aborts rather than let its ids wrap around. */
  datatype Event =
    | Begin(d: End)
    | CanRead(d: End, id: nat, data: seq<byte>, eof: bool)
    | HungUp(d: End, id: nat, data: seq<byte>, eof: bool)
    | CanWrite(d: End, id: nat, w: WriteResult)
    | Arrive(d: End, w: WriteResult, service: bool)

  predicate Possible(l: Link, ev: Event) {
    var e := l.At(ev.d);
    match ev
    case Begin(_) => e.nextId + 1 < TWO_32
    case CanRead(_, id, data, eof) =>
      id in e.socks && e.socks[id].sock.status.Live? && e.socks[id].sock.readOn && ReadFits(e.cfg, data, eof)
    case HungUp(_, id, data, eof) =>
      id in e.socks && Exists(e.socks[id].sock) && ReadFits(e.cfg, data, eof)
    case CanWrite(_, id, w) =>
      id in e.socks && Exists(e.socks[id].sock) && e.socks[id].sock.writeOn && WriteFits(e.socks[id].sock.queue, w)
    case Arrive(d, w, _) => l.Into(d) != [] && PacketFits(e, l.Into(d)[0], w) && e.nextId + 1 < TWO_32
  }

  function Respond(l: Link, ev: Event): Reply
    requires Possible(l, ev)
  {
    var e := l.At(ev.d);
    match ev
    case Begin(_) => Install(e, true, 0, Connect(e.cfg))
    case CanRead(_, id, data, eof) => Update(e, id, e.socks[id].peer, Read(e.socks[id].sock, data, eof))
    case HungUp(_, id, data, eof) => Update(e, id, e.socks[id].peer, Read(e.socks[id].sock, data, eof))
    case CanWrite(_, id, w) => Update(e, id, e.socks[id].peer, Flush(e.cfg, e.socks[id].sock, w))
    case Arrive(d, w, service) => OnPacket(e, l.Into(d)[0], w, service)
  }

  function Next(l: Link, ev: Event): Link {
    if !Possible(l, ev) then l
    else l.Move(ev.d, Respond(l, ev), if ev.Arrive? then l.Into(ev.d)[1..] else l.Into(ev.d))
  }

  function Start(ca: Config, cb: Config): Link {
    Link(Endpoint(ca, 1, map[], map[]), Endpoint(cb, 1, map[], map[]), [], [])
  }

  function Play(ca: Config, cb: Config, events: seq<Event>): Link {
    if events == [] then Start(ca, cb)
    else Next(Play(ca, cb, events[..|events| - 1]), events[|events| - 1])
  }

  // ---- One stream of the link

  /** Which packets of a channel belong to a stream: those its opener sent, or those
      addressed to its opener. */
  datatype Selector = From(id: nat) | To(id: nat) {
    predicate Selects(p: Packet) {
      if From? then p.arg0 == id else p.arg1 == id && !p.msg.Open?
    }
  }

  function Strip(p: Packet): Msg {
    if p.msg.Clse? && p.arg0 == 0 then Refuse else p.msg
  }

  function Lane1(k: Selector, p: Packet): seq<Msg> {
    if k.Selects(p) then [Strip(p)] else []
  }

  function LaneUpTo(k: Selector, ch: seq<Packet>, n: nat): seq<Msg>
    requires n <= |ch|
  {
    if n == 0 then [] else LaneUpTo(k, ch, n - 1) + Lane1(k, ch[n - 1])
  }

  function Lane(k: Selector, ch: seq<Packet>): seq<Msg> {
    LaneUpTo(k, ch, |ch|)
  }

  /** The stream that end `d` opened with local id `i`, on its own. */
  function View(l: Link, d: End, i: nat): Pair {
    var e, o := l.At(d), l.At(d.Other());
    var c := Configs(e.cfg, o.cfg);
    if i !in e.socks then Initial(c) else
    Pair(c, e.socks[i].sock,
         if i in o.accepted && o.accepted[i] in o.socks then o.socks[o.accepted[i]].sock else IDLE,
         Lane(From(i), l.Into(d.Other())), Lane(To(i), l.Into(d)))
  }

  lemma {:induction false} LanePrefix(k: Selector, a: seq<Packet>, b: seq<Packet>, n: nat)
    requires n <= |a|
    ensures LaneUpTo(k, a + b, n) == LaneUpTo(k, a, n)
  {
    if n > 0 {
      LanePrefix(k, a, b, n - 1);
    }
  }

  lemma {:induction false} LaneSuffix(k: Selector, a: seq<Packet>, b: seq<Packet>, n: nat)
    requires n <= |b|
    ensures LaneUpTo(k, a + b, |a| + n) == Lane(k, a) + LaneUpTo(k, b, n)
  {
    if n == 0 {
      LanePrefix(k, a, b, |a|);
    } else {
      LaneSuffix(k, a, b, n - 1);
      assert Lane(k, a) + LaneUpTo(k, b, n - 1) + Lane1(k, b[n - 1]) == Lane(k, a) + (LaneUpTo(k, b, n - 1) + Lane1(k, b[n - 1]));
    }
  }

  lemma {:induction false} LaneAppend(k: Selector, a: seq<Packet>, b: seq<Packet>)
    ensures Lane(k, a + b) == Lane(k, a) + Lane(k, b)
  {
    LaneSuffix(k, a, b, |b|);
  }

  lemma {:induction false} LaneHead(k: Selector, ch: seq<Packet>)
    requires ch != []
    ensures Lane(k, ch) == Lane1(k, ch[0]) + Lane(k, ch[1..])
  {
    assert ch == [ch[0]] + ch[1..];
    LaneAppend(k, [ch[0]], ch[1..]);
    assert LaneUpTo(k, [ch[0]], 1) == LaneUpTo(k, [ch[0]], 0) + Lane1(k, ch[0]);
  }

  /** Packets that do not belong to a stream leave its lane alone. */
  lemma {:induction false} LaneSkips(k: Selector, ch: seq<Packet>, n: nat)
    requires n <= |ch| && forall p :: p in ch ==> !k.Selects(p)
    ensures LaneUpTo(k, ch, n) == []
  {
    if n > 0 {
      LaneSkips(k, ch, n - 1);
      assert ch[n - 1] in ch;
    }
  }

  /** The messages of a socket of the stream all go into its lane. */
  lemma {:induction false} LaneOfWrap(k: Selector, id: nat, peer: nat, out: seq<Msg>, n: nat)
    requires n <= |out| && id != 0 && (if k.From? then id == k.id else peer == k.id)
    requires k.To? ==> forall m :: m in out ==> !m.Open?
    ensures LaneUpTo(k, Wrap(id, peer, out), n) == out[..n]
  {
    if n > 0 {
      LaneOfWrap(k, id, peer, out, n - 1);
      assert out[n - 1] in out;
      assert out[..n] == out[..n - 1] + [out[n - 1]];
    }
  }
}
