/** Every stream of a link behaves as a stream on its own. */
module MultiplexRefinement {
  import opened Common
  import opened StreamSocket
  import opened StreamProtocol
  import opened StreamInvariants
  import opened Multiplex

  // ---- Ids

  ghost predicate Known(e: Endpoint) {
    0 < e.nextId && forall i :: i in e.socks ==> 0 < i < e.nextId
  }

  /** An opener's peer is the socket its A_OPEN was given; an accepted socket's peer is
      the opener it was made for. */
  ghost predicate PeerOk(e: Endpoint, o: Endpoint, i: nat)
    requires i in e.socks
  {
    var s := e.socks[i];
    && !s.sock.status.Idle? && (s.sock.hasPeer ==> s.peer != 0)
    && if s.opener then s.peer != 0 ==> i in o.accepted && o.accepted[i] == s.peer
       else s.peer in e.accepted && e.accepted[s.peer] == i
  }

  /** The socket `o` gave to the A_OPEN of opener `i` at `e`. */
  ghost predicate AcceptedOk(e: Endpoint, o: Endpoint, i: nat)
    requires i in o.accepted
  {
    var j := o.accepted[i];
    && i in e.socks && e.socks[i].opener
    && j in o.socks && !o.socks[j].opener && o.socks[j].peer == i
  }

  ghost predicate Paired(e: Endpoint, o: Endpoint) {
    && (forall i :: i in e.socks ==> PeerOk(e, o, i))
    && (forall i :: i in o.accepted ==> AcceptedOk(e, o, i))
  }

  /** `a` at `e` and `b` at `o` are the two ends of one stream. */
  ghost predicate Matched(e: Endpoint, o: Endpoint, a: nat, b: nat) {
    a in e.socks && b in o.socks &&
    if e.socks[a].opener then a in o.accepted && o.accepted[a] == b
    else b in e.accepted && e.accepted[b] == a
  }

  /** A packet from `e` to `o` names the two ends of a stream, or opens one, or
      refuses one. */
  ghost predicate Addressed(e: Endpoint, o: Endpoint, p: Packet) {
    if p.msg.Open? then p.arg1 == 0 && p.arg0 in e.socks && e.socks[p.arg0].opener && p.arg0 !in o.accepted
    else if p.arg0 == 0 then p.msg.Clse? && p.arg1 in o.socks && o.socks[p.arg1].opener && p.arg1 !in e.accepted
    else !p.msg.Refuse? && Matched(e, o, p.arg0, p.arg1)
  }

  ghost predicate IdsOk(e: Endpoint, o: Endpoint, ch: seq<Packet>) {
    Known(e) && Paired(e, o) && forall p :: p in ch ==> Addressed(e, o, p)
  }

  ghost predicate AllIdsOk(l: Link) {
    forall d: End :: IdsOk(l.At(d), l.At(d.Other()), l.Into(d.Other()))
  }

  predicate ConfigsOk(l: Link) {
    l.a.cfg.Valid() && l.b.cfg.Valid() && l.a.cfg.delayed == l.b.cfg.delayed
  }

  predicate Opened(l: Link, d: End, i: nat) {
    i in l.At(d).socks && l.At(d).socks[i].opener
  }

  ghost predicate AllStreamsSound(l: Link) {
    forall d: End, i: nat :: Opened(l, d, i) ==> Shape(View(l, d, i))
  }

  type SoundLink = l: Link | ConfigsOk(l) && AllIdsOk(l) && AllStreamsSound(l)
    ghost witness Multiplex.Start(Config(true, 1, 1), Config(true, 1, 1))

  // ---- What an event at one end does to a stream

  /** Nothing `r` does concerns stream `i` opened at `d`: it keeps the stream's socket
      and sends nothing into its lane. */
  ghost predicate Foreign(l: Link, d: End, i: nat, at: End, r: Reply) {
    var e := l.At(at);
    && r.end.cfg == e.cfg
    && if at == d then
         && i in e.socks && i in r.end.socks && r.end.socks[i] == e.socks[i]
         && forall p :: p in r.out ==> p.arg0 != i
       else
         && (i in r.end.accepted <==> i in e.accepted)
         && (i in e.accepted ==> && r.end.accepted[i] == e.accepted[i]
                                 && e.accepted[i] in e.socks && e.accepted[i] in r.end.socks
                                 && r.end.socks[e.accepted[i]] == e.socks[e.accepted[i]])
         && forall p :: p in r.out ==> p.arg1 != i || p.msg.Open?
  }

  /** The packets into `at` that belong to stream (`d`, `i`). */
  function Incoming(d: End, i: nat, at: End): Selector {
    if at == d then To(i) else From(i)
  }

  /** An event that does not concern a stream leaves its view alone. */
  lemma {:induction false} ForeignKeepsView(l: Link, d: End, i: nat, at: End, r: Reply, input: seq<Packet>)
    requires Opened(l, d, i) && Foreign(l, d, i, at, r)
    requires Lane(Incoming(d, i, at), input) == Lane(Incoming(d, i, at), l.Into(at))
    ensures View(l.Move(at, r, input), d, i) == View(l, d, i)
  {
    var k, ch := if at == d then From(i) else To(i), l.Into(at.Other());
    LaneAppend(k, ch, r.out);
    LaneSkips(k, r.out, |r.out|);
    assert Lane(k, ch) + [] == Lane(k, ch);
  }

  // ---- Events on a descriptor

  predicate OnDescriptor(ev: Event) {
    ev.CanRead? || ev.HungUp? || ev.CanWrite?
  }

  /** The side of stream (`d`, `i`) that local socket `id` at `at` is, if any. */
  predicate IsOpener(d: End, i: nat, at: End, id: nat) {
    at == d && id == i
  }

  predicate IsAcceptor(l: Link, d: End, i: nat, at: End, id: nat) {
    at != d && i in l.At(at).accepted && l.At(at).accepted[i] == id
  }

  function SideOf(d: End, at: End): Side {
    if at == d then Opener else Acceptor
  }

  /** What a descriptor event is to the stream of its socket. */
  function AsStep(ev: Event, d: End): Step {
    var x := SideOf(d, ev.d);
    match ev
    case Begin(_) => StreamProtocol.Start
    case CanRead(_, _, data, eof) => Readable(x, data, eof)
    case HungUp(_, _, data, eof) => Hangup(x, data, eof)
    case CanWrite(_, _, w) => Writable(x, w)
    case Arrive(_, w, service) => Deliver(x, w, service)
  }

  function SocketStep(cfg: Config, s: Sock, ev: Event): Outcome
    requires OnDescriptor(ev) && (ev.CanWrite? ==> WriteFits(s.queue, ev.w))
  {
    if ev.CanWrite? then Flush(cfg, s, ev.w) else Read(s, ev.data, ev.eof)
  }

  lemma {:induction false} SocketStepSendsNoOpen(cfg: Config, s: Sock, ev: Event)
    requires OnDescriptor(ev) && (ev.CanWrite? ==> WriteFits(s.queue, ev.w))
    ensures forall m :: m in SocketStep(cfg, s, ev).out ==> !m.Open? && !m.Refuse?
  {
  }

  lemma {:induction false} Ids(l: SoundLink, d: End)
    ensures IdsOk(l.At(d), l.At(d.Other()), l.Into(d.Other()))
    ensures IdsOk(l.At(d.Other()), l.At(d), l.Into(d))
  {
    assert d.Other().Other() == d;
  }

  /** The view of a stream after its opener has moved. */
  lemma {:induction false} OpenerView(l: Link, d: End, i: nat, r: Reply, peer: nat, out: seq<Msg>, input: seq<Packet>)
    requires i in l.At(d).socks && i in r.end.socks && i != 0 && r.out == Wrap(i, peer, out) && r.end.cfg == l.At(d).cfg
    ensures View(l.Move(d, r, input), d, i)
         == View(l, d, i).(opener := r.end.socks[i].sock, toAcceptor := View(l, d, i).toAcceptor + out, toOpener := Lane(To(i), input))
  {
    LaneAppend(From(i), l.Into(d.Other()), r.out);
    LaneOfWrap(From(i), i, peer, out, |out|);
    assert out[..|out|] == out;
  }

  /** The view of a stream after its acceptor has moved. */
  lemma {:induction false} AcceptorView(l: Link, d: End, i: nat, r: Reply, id: nat, out: seq<Msg>, input: seq<Packet>)
    requires i in l.At(d).socks && r.end.cfg == l.At(d.Other()).cfg
    requires i in r.end.accepted && r.end.accepted[i] == id && id in r.end.socks
    requires id != 0 && r.out == Wrap(id, i, out) && forall m :: m in out ==> !m.Open?
    ensures View(l.Move(d.Other(), r, input), d, i)
         == View(l, d, i).(acceptor := r.end.socks[id].sock, toOpener := View(l, d, i).toOpener + out, toAcceptor := Lane(From(i), input))
  {
    assert d.Other().Other() == d;
    LaneAppend(To(i), l.Into(d), r.out);
    LaneOfWrap(To(i), id, i, out, |out|);
    assert out[..|out|] == out;
  }

  lemma {:induction false} OpenerStepRefines(l: SoundLink, ev: Event)
    requires OnDescriptor(ev) && Possible(l, ev) && Opened(l, ev.d, ev.id)
    ensures var v := View(l, ev.d, ev.id);
      Enabled(v, AsStep(ev, ev.d)) && View(Next(l, ev), ev.d, ev.id) == Apply(v, AsStep(ev, ev.d))
  {
    var d, i, e := ev.d, ev.id, l.At(ev.d);
    Ids(l, d);
    OpenerView(l, d, i, Respond(l, ev), e.socks[i].peer, SocketStep(e.cfg, e.socks[i].sock, ev).out, l.Into(d));
  }

  lemma {:induction false} AcceptorSocket(l: SoundLink, d: End, i: nat)
    requires Opened(l, d, i) && i in l.At(d.Other()).accepted
    ensures var o := l.At(d.Other()); var id := o.accepted[i];
      id in o.socks && id != 0 && o.socks[id].peer == i && View(l, d, i).acceptor == o.socks[id].sock
  {
    Ids(l, d);
  }

  lemma {:induction false} AcceptorStepResult(l: Link, d: End, ev: Event, p: Pair)
    requires OnDescriptor(ev) && Possible(l, ev) && ev.d == d.Other()
    requires p.c.acceptor == l.At(ev.d).cfg && p.acceptor == l.At(ev.d).socks[ev.id].sock
    ensures Enabled(p, AsStep(ev, d)) && Result(p, AsStep(ev, d)) == SocketStep(p.c.acceptor, p.acceptor, ev)
  {
  }

  lemma {:induction false} AcceptorResponds(l: SoundLink, d: End, i: nat, ev: Event)
    requires Opened(l, d, i) && OnDescriptor(ev) && Possible(l, ev) && IsAcceptor(l, d, i, ev.d, ev.id)
    ensures var id, e, r := ev.id, l.At(ev.d), Respond(l, ev); var o := SocketStep(e.cfg, e.socks[id].sock, ev);
      && r.end.cfg == e.cfg && i in r.end.accepted && r.end.accepted[i] == id && id in r.end.socks && id != 0
      && r.end.socks[id].sock == o.sock && r.out == Wrap(id, i, o.out) && (forall m :: m in o.out ==> !m.Open?)
      && View(l, d, i).acceptor == e.socks[id].sock
  {
    AcceptorSocket(l, d, i);
    SocketStepSendsNoOpen(l.At(ev.d).cfg, l.At(ev.d).socks[ev.id].sock, ev);
  }

  lemma {:induction false} AcceptorStepRefines(l: SoundLink, d: End, i: nat, ev: Event)
    requires Opened(l, d, i) && OnDescriptor(ev) && Possible(l, ev) && IsAcceptor(l, d, i, ev.d, ev.id)
    ensures var v := View(l, d, i);
      Enabled(v, AsStep(ev, d)) && View(Next(l, ev), d, i) == Apply(v, AsStep(ev, d))
  {
    var id, e := ev.id, l.At(ev.d);
    AcceptorResponds(l, d, i, ev);
    AcceptorStepResult(l, d, ev, View(l, d, i));
    AcceptorView(l, d, i, Respond(l, ev), id, SocketStep(e.cfg, e.socks[id].sock, ev).out, l.Into(ev.d));
  }

  lemma {:induction false} OtherStepIsForeign(l: SoundLink, d: End, i: nat, ev: Event)
    requires Opened(l, d, i) && OnDescriptor(ev) && Possible(l, ev)
    requires !IsOpener(d, i, ev.d, ev.id) && !IsAcceptor(l, d, i, ev.d, ev.id)
    ensures Foreign(l, d, i, ev.d, Respond(l, ev))
  {
    Ids(l, d);
    if ev.d != d {
      assert l.At(ev.d).socks[ev.id].peer != i;
    }
  }

  // ---- Arriving packets

  /** A packet for a socket that names its peer, or refuses it before it has one, is
      handled as on a stream of its own. */
  lemma {:induction false} HandlesAlone(e: Endpoint, i: nat, p: Packet, w: WriteResult, service: bool)
    requires i in e.socks && i != 0 && p.arg1 == i && !p.msg.Open? && !p.msg.Refuse? && PacketFits(e, p, w)
    requires if p.arg0 == 0 then p.msg.Clse? && !e.socks[i].sock.hasPeer
             else e.socks[i].sock.hasPeer ==> e.socks[i].peer == p.arg0
    ensures var s := e.socks[i].sock;
      && (Strip(p).Wrte? && s.status.Live? && s.hasPeer ==> WriteFits(s.queue + Strip(p).data, w))
      && var h, r := Handle(e.cfg, s, Strip(p), w, service), OnPacket(e, p, w, service);
         && i in r.end.socks && r.end.socks[i].sock == h.sock && r.out == Wrap(i, p.arg0, h.out)
         && r.end.cfg == e.cfg && r.end.accepted == e.accepted
  {
  }

  lemma {:induction false} OpenerHandles(l: SoundLink, d: End, i: nat, w: WriteResult, service: bool)
    requires Opened(l, d, i) && l.Into(d) != [] && PacketFits(l.At(d), l.Into(d)[0], w) && To(i).Selects(l.Into(d)[0])
    ensures var e, p := l.At(d), l.Into(d)[0]; var s := e.socks[i].sock;
      && (Strip(p).Wrte? && s.status.Live? && s.hasPeer ==> WriteFits(s.queue + Strip(p).data, w))
      && var h, r := Handle(e.cfg, s, Strip(p), w, service), OnPacket(e, p, w, service);
         i in r.end.socks && r.end.socks[i].sock == h.sock && r.out == Wrap(i, p.arg0, h.out) && r.end.cfg == e.cfg && i != 0
  {
    Ids(l, d);
    var p := l.Into(d)[0];
    assert p in l.Into(d);
    assert Addressed(l.At(d.Other()), l.At(d), p);
    HandlesAlone(l.At(d), i, p, w, service);
  }

  /** A packet for the acceptor is handled as on a stream of its own. */
  lemma {:induction false} AcceptorHandles(l: SoundLink, d: End, i: nat, w: WriteResult, service: bool)
    requires var at := d.Other(); Opened(l, d, i) && l.Into(at) != [] && PacketFits(l.At(at), l.Into(at)[0], w)
    requires From(i).Selects(l.Into(d.Other())[0]) && !l.Into(d.Other())[0].msg.Open?
    ensures var e, p := l.At(d.Other()), l.Into(d.Other())[0]; var id := p.arg1;
      && i in e.accepted && e.accepted[i] == id && id in e.socks && id != 0
      && var s := e.socks[id].sock;
         && (p.msg.Wrte? && s.status.Live? && s.hasPeer ==> WriteFits(s.queue + p.msg.data, w))
         && Strip(p) == p.msg
         && var h, r := Handle(e.cfg, s, p.msg, w, service), OnPacket(e, p, w, service);
            && id in r.end.socks && r.end.socks[id].sock == h.sock && r.out == Wrap(id, i, h.out)
            && r.end.cfg == e.cfg && r.end.accepted == e.accepted && forall m :: m in h.out ==> !m.Open?
  {
    Ids(l, d);
    var p := l.Into(d.Other())[0];
    assert p in l.Into(d.Other());
    assert Addressed(l.At(d), l.At(d.Other()), p);
    HandlesAlone(l.At(d.Other()), p.arg1, p, w, service);
  }

  lemma {:induction false} OpenerArrivalRefines(l: SoundLink, d: End, i: nat, ev: Event)
    requires Opened(l, d, i) && ev.Arrive? && ev.d == d && Possible(l, ev) && To(i).Selects(l.Into(d)[0])
    ensures var v := View(l, d, i);
      Enabled(v, AsStep(ev, d)) && View(Next(l, ev), d, i) == Apply(v, AsStep(ev, d))
  {
    var e, p := l.At(d), l.Into(d)[0];
    OpenerHandles(l, d, i, ev.w, ev.service);
    LaneHead(To(i), l.Into(d));
    OpenerView(l, d, i, Respond(l, ev), p.arg0, Handle(e.cfg, e.socks[i].sock, Strip(p), ev.w, ev.service).out, l.Into(d)[1..]);
  }

  lemma {:induction false} AcceptorArrivalRefines(l: SoundLink, d: End, i: nat, ev: Event)
    requires Opened(l, d, i) && ev.Arrive? && ev.d == d.Other() && Possible(l, ev)
    requires From(i).Selects(l.Into(ev.d)[0]) && !l.Into(ev.d)[0].msg.Open?
    ensures var v := View(l, d, i);
      Enabled(v, AsStep(ev, d)) && View(Next(l, ev), d, i) == Apply(v, AsStep(ev, d))
  {
    var e, p := l.At(ev.d), l.Into(ev.d)[0];
    AcceptorHandles(l, d, i, ev.w, ev.service);
    LaneHead(From(i), l.Into(ev.d));
    AcceptorView(l, d, i, Respond(l, ev), p.arg1, Handle(e.cfg, e.socks[p.arg1].sock, p.msg, ev.w, ev.service).out, l.Into(ev.d)[1..]);
  }

  lemma {:induction false} OpenArrivalRefines(l: SoundLink, d: End, i: nat, ev: Event)
    requires Opened(l, d, i) && ev.Arrive? && ev.d == d.Other() && Possible(l, ev)
    requires From(i).Selects(l.Into(ev.d)[0]) && l.Into(ev.d)[0].msg.Open?
    ensures var v := View(l, d, i);
      Enabled(v, AsStep(ev, d)) && View(Next(l, ev), d, i) == Apply(v, AsStep(ev, d))
  {
    var e, p := l.At(ev.d), l.Into(ev.d)[0];
    Ids(l, d);
    assert p in l.Into(ev.d);
    assert Addressed(l.At(d), e, p);
    if OnOpen(e.cfg, p.msg.grant, ev.service).sock.status.Live? {
      OpenAcceptedRefines(l, d, i, ev);
    } else {
      OpenRefusedRefines(l, d, i, ev);
    }
  }

  lemma {:induction false} OpenAcceptedRefines(l: SoundLink, d: End, i: nat, ev: Event)
    requires Opened(l, d, i) && ev.Arrive? && ev.d == d.Other() && Possible(l, ev)
    requires var e, p := l.At(ev.d), l.Into(ev.d)[0];
      && From(i).Selects(p) && p.msg.Open? && Addressed(l.At(d), e, p)
      && OnOpen(e.cfg, p.msg.grant, ev.service).sock.status.Live?
    ensures var v := View(l, d, i);
      Enabled(v, AsStep(ev, d)) && View(Next(l, ev), d, i) == Apply(v, AsStep(ev, d))
  {
    var e, p := l.At(ev.d), l.Into(ev.d)[0];
    AcceptsOpen(l, d, i, ev);
    LaneHead(From(i), l.Into(ev.d));
    AcceptorView(l, d, i, Respond(l, ev), e.nextId, OnOpen(e.cfg, p.msg.grant, ev.service).out, l.Into(ev.d)[1..]);
  }

  /** The A_OPEN of a stream is accepted by a new socket. */
  lemma {:induction false} AcceptsOpen(l: SoundLink, d: End, i: nat, ev: Event)
    requires Opened(l, d, i) && ev.Arrive? && ev.d == d.Other() && Possible(l, ev)
    requires var e, p := l.At(ev.d), l.Into(ev.d)[0];
      && From(i).Selects(p) && p.msg.Open? && Addressed(l.At(d), e, p)
      && OnOpen(e.cfg, p.msg.grant, ev.service).sock.status.Live?
    ensures var e, p, r := l.At(ev.d), l.Into(ev.d)[0], Respond(l, ev); var o := OnOpen(e.cfg, p.msg.grant, ev.service);
      && r.end.cfg == e.cfg && i in r.end.accepted && r.end.accepted[i] == e.nextId && e.nextId in r.end.socks
      && r.end.socks[e.nextId].sock == o.sock && e.nextId != 0 && r.out == Wrap(e.nextId, i, o.out)
      && (forall m :: m in o.out ==> !m.Open?) && View(l, d, i).acceptor == IDLE && Strip(p) == p.msg
  {
    Ids(l, d);
  }

  lemma {:induction false} OpenRefusedRefines(l: SoundLink, d: End, i: nat, ev: Event)
    requires Opened(l, d, i) && ev.Arrive? && ev.d == d.Other() && Possible(l, ev)
    requires var e, p := l.At(ev.d), l.Into(ev.d)[0];
      && From(i).Selects(p) && p.msg.Open? && Addressed(l.At(d), e, p)
      && !OnOpen(e.cfg, p.msg.grant, ev.service).sock.status.Live?
    ensures var v := View(l, d, i);
      Enabled(v, AsStep(ev, d)) && View(Next(l, ev), d, i) == Apply(v, AsStep(ev, d))
  {
    Ids(l, d);
    LaneHead(From(i), l.Into(ev.d));
    RefusalView(l, d, i, Respond(l, ev), l.Into(ev.d)[1..]);
  }

  /** The view of a stream after its A_OPEN was refused. */
  lemma {:induction false} RefusalView(l: Link, d: End, i: nat, r: Reply, input: seq<Packet>)
    requires i in l.At(d).socks && r == Reply(l.At(d.Other()), [Packet(0, i, Clse)])
    ensures View(l.Move(d.Other(), r, input), d, i)
         == View(l, d, i).(toOpener := View(l, d, i).toOpener + [Refuse], toAcceptor := Lane(From(i), input))
  {
    assert d.Other().Other() == d;
    LaneAppend(To(i), l.Into(d), r.out);
    LaneHead(To(i), r.out);
  }

  /** The only socket a packet touches is the one it is addressed to, or the one it
      creates; the answer goes back where the packet came from. */
  lemma {:induction false} PacketTouches(e: Endpoint, p: Packet, w: WriteResult, service: bool)
    requires PacketFits(e, p, w) && Known(e)
    requires p.arg0 == 0 && p.arg1 in e.socks ==> !e.socks[p.arg1].sock.hasPeer
    ensures var r := OnPacket(e, p, w, service);
      && r.end.cfg == e.cfg
      && (forall j :: j in e.socks && j != p.arg1 ==> j in r.end.socks && r.end.socks[j] == e.socks[j])
      && (r.end.accepted == e.accepted || (p.msg.Open? && r.end.accepted == e.accepted[p.arg0 := e.nextId]))
      && (forall q :: q in r.out ==> q.arg1 == p.arg0 && (q.arg0 == p.arg1 || q.arg0 == e.nextId || q.arg0 == 0))
  {
  }

  /** A packet of another stream does not concern this one. */
  lemma {:induction false} OtherArrivalIsForeign(l: SoundLink, d: End, i: nat, ev: Event)
    requires Opened(l, d, i) && ev.Arrive? && Possible(l, ev) && !Incoming(d, i, ev.d).Selects(l.Into(ev.d)[0])
    ensures Foreign(l, d, i, ev.d, Respond(l, ev))
  {
    var p, e := l.Into(ev.d)[0], l.At(ev.d);
    Ids(l, d);
    assert p in l.Into(ev.d);
    assert Addressed(l.At(ev.d.Other()), e, p);
    PacketTouches(e, p, ev.w, ev.service);
    if ev.d != d && i in e.accepted {
      OtherThanAcceptor(l.At(d), e, i, p);
    }
  }

  lemma {:induction false} OtherThanAcceptor(e: Endpoint, o: Endpoint, i: nat, p: Packet)
    requires Known(o) && Paired(e, o) && Paired(o, e) && Addressed(e, o, p) && i in o.accepted && p.arg0 != i
    ensures p.arg1 != o.accepted[i]
  {
  }

  // ---- Every event

  /** Whether an event is a step of stream (`d`, `i`). */
  predicate Concerns(l: Link, d: End, i: nat, ev: Event) {
    match ev
    case Begin(at) => at == d && i == l.At(d).nextId
    case Arrive(at, _, _) => l.Into(at) != [] && Incoming(d, i, at).Selects(l.Into(at)[0])
    case _ => IsOpener(d, i, ev.d, ev.id) || IsAcceptor(l, d, i, ev.d, ev.id)
  }

  lemma {:induction false} ConcerningEventRefines(l: SoundLink, d: End, i: nat, ev: Event)
    requires Opened(l, d, i) && Possible(l, ev) && Concerns(l, d, i, ev)
    ensures Enabled(View(l, d, i), AsStep(ev, d)) && View(Next(l, ev), d, i) == Apply(View(l, d, i), AsStep(ev, d))
  {
    if ev.Begin? {
      Ids(l, d);
      assert false;
    } else if ev.Arrive? {
      if ev.d == d {
        OpenerArrivalRefines(l, d, i, ev);
      } else if l.Into(ev.d)[0].msg.Open? {
        OpenArrivalRefines(l, d, i, ev);
      } else {
        AcceptorArrivalRefines(l, d, i, ev);
      }
    } else if IsOpener(d, i, ev.d, ev.id) {
      OpenerStepRefines(l, ev);
    } else {
      AcceptorStepRefines(l, d, i, ev);
    }
  }

  lemma {:induction false} OtherEventKeepsView(l: SoundLink, d: End, i: nat, ev: Event)
    requires Opened(l, d, i) && Possible(l, ev) && !Concerns(l, d, i, ev)
    ensures View(Next(l, ev), d, i) == View(l, d, i)
  {
    var input := if ev.Arrive? then l.Into(ev.d)[1..] else l.Into(ev.d);
    if ev.Begin? {
      Ids(l, d);
      assert Foreign(l, d, i, ev.d, Respond(l, ev));
    } else if ev.Arrive? {
      OtherArrivalIsForeign(l, d, i, ev);
      LaneHead(Incoming(d, i, ev.d), l.Into(ev.d));
      assert [] + Lane(Incoming(d, i, ev.d), input) == Lane(Incoming(d, i, ev.d), input);
    } else {
      OtherStepIsForeign(l, d, i, ev);
    }
    ForeignKeepsView(l, d, i, ev.d, Respond(l, ev), input);
  }

  /** The stream an opener begins starts as any stream does. */
  lemma {:induction false} BeginStarts(l: SoundLink, d: End)
    requires Possible(l, Begin(d))
    ensures var i := l.At(d).nextId;
      && i !in l.At(d).socks && View(l, d, i) == Initial(Configs(l.At(d).cfg, l.At(d.Other()).cfg))
      && View(Next(l, Begin(d)), d, i) == Apply(View(l, d, i), StreamProtocol.Start)
  {
    var e, i := l.At(d), l.At(d).nextId;
    Ids(l, d);
    var ch, ch' := l.Into(d.Other()), l.Into(d);
    forall p | p in ch ensures !From(i).Selects(p) {
      assert Addressed(e, l.At(d.Other()), p);
    }
    forall p | p in ch' ensures !To(i).Selects(p) {
      assert Addressed(l.At(d.Other()), e, p);
    }
    LaneSkips(From(i), ch, |ch|);
    LaneSkips(To(i), ch', |ch'|);
    var r := Respond(l, Begin(d));
    LaneAppend(From(i), ch, r.out);
    LaneHead(From(i), r.out);
    assert i !in l.At(d.Other()).accepted;
  }
}
