/** Over every run of a link, ids stay in order, and every stream is a run of the
    single-stream protocol. */
module MultiplexTheorems {
  import opened Common
  import opened StreamSocket
  import opened StreamProtocol
  import opened StreamInvariants
  import opened StreamCredit
  import opened Multiplex
  import opened MultiplexRefinement
  import opened StreamEndings
  import T = StreamTheorems

  // ---- Ids stay in order

  /** `e'` has the sockets of `e`, possibly more, in their roles. */
  ghost predicate Extends(e: Endpoint, e': Endpoint) {
    forall i :: i in e.socks ==> i in e'.socks && e'.socks[i].opener == e.socks[i].opener
  }

  lemma {:induction false} AddressesStay(e: Endpoint, e': Endpoint, o: Endpoint, ch: seq<Packet>, back: seq<Packet>)
    requires Extends(e, e') && e'.accepted == e.accepted
    requires forall p :: p in ch ==> Addressed(e, o, p)
    requires forall p :: p in back ==> Addressed(o, e, p)
    ensures forall p :: p in ch ==> Addressed(e', o, p)
    ensures forall p :: p in back ==> Addressed(o, e', p)
  {
    forall p | p in ch ensures Addressed(e', o, p) {
      assert Addressed(e, o, p);
    }
    forall p | p in back ensures Addressed(o, e', p) {
      assert Addressed(o, e, p);
    }
  }

  lemma {:induction false} UpdateKeepsPaired(e: Endpoint, o: Endpoint, id: nat, peer: nat, oc: Outcome)
    requires Known(e) && Paired(e, o) && Paired(o, e) && id in e.socks && !oc.sock.status.Idle?
    requires oc.sock.hasPeer ==> peer != 0
    requires if e.socks[id].opener then peer != 0 ==> id in o.accepted && o.accepted[id] == peer
             else peer == e.socks[id].peer
    ensures var e' := Update(e, id, peer, oc).end; Known(e') && Paired(e', o) && Paired(o, e') && Extends(e, e')
  {
    var e' := Update(e, id, peer, oc).end;
    forall i | i in e'.socks ensures PeerOk(e', o, i) {
      assert PeerOk(e, o, i);
    }
    forall i | i in o.socks ensures PeerOk(o, e', i) {
      assert PeerOk(o, e, i);
    }
    forall i | i in e'.accepted ensures AcceptedOk(o, e', i) {
      assert AcceptedOk(o, e, i);
    }
    forall i | i in o.accepted ensures AcceptedOk(e', o, i) {
      assert AcceptedOk(e, o, i);
    }
  }

  /** Moving an existing socket. */
  lemma {:induction false} UpdateKeepsIds(e: Endpoint, o: Endpoint, id: nat, peer: nat, oc: Outcome, ch: seq<Packet>, back: seq<Packet>)
    requires IdsOk(e, o, ch) && IdsOk(o, e, back) && id in e.socks && !oc.sock.status.Idle?
    requires oc.sock.hasPeer ==> peer != 0
    requires if e.socks[id].opener then peer != 0 ==> id in o.accepted && o.accepted[id] == peer
             else peer == e.socks[id].peer
    requires oc.out != [] ==> peer != 0
    requires forall m :: m in oc.out ==> !m.Open? && !m.Refuse?
    ensures var r := Update(e, id, peer, oc); IdsOk(r.end, o, ch + r.out) && IdsOk(o, r.end, back)
  {
    var r := Update(e, id, peer, oc);
    UpdateKeepsPaired(e, o, id, peer, oc);
    AddressesStay(e, r.end, o, ch, back);
  }

  lemma {:induction false} BeginKeepsIds(e: Endpoint, o: Endpoint, ch: seq<Packet>, back: seq<Packet>)
    requires IdsOk(e, o, ch) && IdsOk(o, e, back)
    ensures var r := Install(e, true, 0, Connect(e.cfg)); IdsOk(r.end, o, ch + r.out) && IdsOk(o, r.end, back)
  {
    var r := Install(e, true, 0, Connect(e.cfg));
    BeginKeepsPaired(e, o);
    AddressesStay(e, r.end, o, ch, back);
  }

  lemma {:induction false} BeginKeepsPaired(e: Endpoint, o: Endpoint)
    requires Known(e) && Paired(e, o) && Paired(o, e)
    ensures var e' := Install(e, true, 0, Connect(e.cfg)).end;
      Known(e') && Paired(e', o) && Paired(o, e') && Extends(e, e') && e.nextId !in o.accepted
  {
    var e' := Install(e, true, 0, Connect(e.cfg)).end;
    forall k | k in e'.socks ensures PeerOk(e', o, k) {
      assert k in e.socks ==> PeerOk(e, o, k);
    }
    forall k | k in o.socks ensures PeerOk(o, e', k) {
      assert PeerOk(o, e, k);
    }
    forall k | k in e'.accepted ensures AcceptedOk(o, e', k) {
      assert AcceptedOk(o, e, k);
    }
    forall k | k in o.accepted ensures AcceptedOk(e', o, k) && k != e.nextId {
      assert AcceptedOk(e, o, k);
    }
  }

  lemma {:induction false} AcceptKeepsPaired(e: Endpoint, o: Endpoint, i: nat, grant: uint32)
    requires Known(e) && Known(o) && Paired(e, o) && Paired(o, e) && i in o.socks && o.socks[i].opener && i !in e.accepted
    ensures var e' := Install(e.(accepted := e.accepted[i := e.nextId]), false, i, Accept(e.cfg, grant)).end;
      Known(e') && Paired(e', o) && Paired(o, e')
  {
    var e' := Install(e.(accepted := e.accepted[i := e.nextId]), false, i, Accept(e.cfg, grant)).end;
    forall k | k in e'.socks ensures PeerOk(e', o, k) {
      assert k in e.socks ==> PeerOk(e, o, k);
    }
    forall k | k in o.socks ensures PeerOk(o, e', k) {
      assert PeerOk(o, e, k);
    }
    forall k | k in e'.accepted ensures AcceptedOk(o, e', k) {
      assert k in e.accepted ==> AcceptedOk(o, e, k);
    }
    forall k | k in o.accepted ensures AcceptedOk(e', o, k) {
      assert AcceptedOk(e, o, k);
    }
  }

  /** Accepting an A_OPEN whose stream has nothing else in transit. */
  lemma {:induction false} AcceptKeepsIds(e: Endpoint, o: Endpoint, i: nat, grant: uint32, ch: seq<Packet>, back: seq<Packet>)
    requires IdsOk(e, o, ch) && IdsOk(o, e, back) && i in o.socks && o.socks[i].opener && i !in e.accepted
    requires forall p :: p in back ==> p.arg0 != i
    requires forall p :: p in ch ==> !To(i).Selects(p)
    ensures var r := Install(e.(accepted := e.accepted[i := e.nextId]), false, i, Accept(e.cfg, grant));
      IdsOk(r.end, o, ch + r.out) && IdsOk(o, r.end, back)
  {
    var r := Install(e.(accepted := e.accepted[i := e.nextId]), false, i, Accept(e.cfg, grant));
    AcceptKeepsPaired(e, o, i, grant);
    forall p | p in ch ensures Addressed(r.end, o, p) {
      assert Addressed(e, o, p);
    }
    forall p | p in back ensures Addressed(o, r.end, p) {
      assert Addressed(o, e, p);
    }
  }

  /** Sending packets without moving a socket. */
  lemma {:induction false} SendKeepsIds(e: Endpoint, o: Endpoint, ch: seq<Packet>, out: seq<Packet>)
    requires IdsOk(e, o, ch) && forall p :: p in out ==> Addressed(e, o, p)
    ensures IdsOk(e, o, ch + out)
  {
  }

  /** A step of a socket keeps its status in order and talks only to a peer it has. */
  lemma {:induction false} SocketStepTalksToPeer(cfg: Config, s: Sock, ev: Event)
    requires OnDescriptor(ev) && (ev.CanWrite? ==> WriteFits(s.queue, ev.w)) && !s.status.Idle? && (s.hasPeer ==> s.status.Live?)
    ensures var o := SocketStep(cfg, s, ev);
      !o.sock.status.Idle? && (o.sock.hasPeer ==> s.hasPeer) && (o.out != [] ==> s.hasPeer)
  {
  }

  lemma {:induction false} DescriptorKeepsIds(l: SoundLink, ev: Event)
    requires OnDescriptor(ev) && Possible(l, ev)
    ensures var e, o, r := l.At(ev.d), l.At(ev.d.Other()), Respond(l, ev);
      IdsOk(r.end, o, l.Into(ev.d.Other()) + r.out) && IdsOk(o, r.end, l.Into(ev.d))
  {
    var e, o, id := l.At(ev.d), l.At(ev.d.Other()), ev.id;
    Ids(l, ev.d);
    SocketSound(l, ev.d, id);
    SocketStepTalksToPeer(e.cfg, e.socks[id].sock, ev);
    SocketStepSendsNoOpen(e.cfg, e.socks[id].sock, ev);
    assert PeerOk(e, o, id);
    UpdateKeepsIds(e, o, id, e.socks[id].peer, SocketStep(e.cfg, e.socks[id].sock, ev), l.Into(ev.d.Other()), l.Into(ev.d));
  }

  /** Every local socket is one of the two sockets of a sound stream. */
  lemma {:induction false} SocketSound(l: SoundLink, d: End, id: nat)
    requires id in l.At(d).socks
    ensures SockOk(l.At(d).cfg, l.At(d).socks[id].sock)
  {
    var e, o := l.At(d), l.At(d.Other());
    Ids(l, d);
    if e.socks[id].opener {
      assert Opened(l, d, id) && Shape(View(l, d, id));
    } else {
      var i := e.socks[id].peer;
      assert PeerOk(e, o, id) && AcceptedOk(o, e, i);
      assert Opened(l, d.Other(), i) && Shape(View(l, d.Other(), i));
      assert d.Other().Other() == d;
    }
  }

  /** A lane that holds nothing selects nothing. */
  lemma {:induction false} EmptyLane(k: Selector, ch: seq<Packet>, n: nat)
    requires n <= |ch| && LaneUpTo(k, ch, n) == []
    ensures forall j :: 0 <= j < n ==> !k.Selects(ch[j])
  {
    if n > 0 {
      EmptyLane(k, ch, n - 1);
    }
  }

  lemma {:induction false} OpenKeepsIds(l: SoundLink, ev: Event)
    requires ev.Arrive? && Possible(l, ev) && l.Into(ev.d)[0].msg.Open?
    ensures var e, o, r := l.At(ev.d), l.At(ev.d.Other()), Respond(l, ev);
      IdsOk(r.end, o, l.Into(ev.d.Other()) + r.out) && IdsOk(o, r.end, l.Into(ev.d)[1..])
  {
    var d, e, o := ev.d, l.At(ev.d), l.At(ev.d.Other());
    var p, rest, ch := l.Into(d)[0], l.Into(d)[1..], l.Into(d.Other());
    Ids(l, d);
    assert p in l.Into(d);
    assert Addressed(o, e, p);
    var i := p.arg0;
    assert d.Other().Other() == d;
    assert Opened(l, d.Other(), i) && Shape(View(l, d.Other(), i));
    LaneHead(From(i), l.Into(d));
    EmptyLane(From(i), rest, |rest|);
    EmptyLane(To(i), ch, |ch|);
    var oc := OnOpen(e.cfg, p.msg.grant, ev.service);
    assert i != 0 && IdsOk(o, e, rest);
    if oc.sock.status.Live? {
      AcceptKeepsIds(e, o, i, p.msg.grant, ch, rest);
    } else {
      SendKeepsIds(e, o, ch, [Packet(0, i, Clse)]);
    }
  }

  lemma {:induction false} MatchedBothWays(e: Endpoint, o: Endpoint, a: nat, b: nat)
    requires Paired(e, o) && Paired(o, e) && Matched(o, e, a, b)
    ensures Matched(e, o, b, a)
    ensures if e.socks[b].opener then b in o.accepted && o.accepted[b] == a else a == e.socks[b].peer
  {
    if o.socks[a].opener {
      assert AcceptedOk(o, e, a);
    } else {
      assert AcceptedOk(e, o, b);
    }
  }

  /** A packet that finds its socket, by kind. */
  lemma {:induction false} FoundOkayKeepsIds(e: Endpoint, o: Endpoint, i: nat, peer: nat, ack: Option<uint32>, ch: seq<Packet>, back: seq<Packet>)
    requires IdsOk(e, o, ch) && IdsOk(o, e, back) && i in e.socks && peer != 0 && Matched(o, e, peer, i)
    ensures var r := Update(e, i, peer, OnOkay(e.cfg, e.socks[i].sock, ack));
      IdsOk(r.end, o, ch + r.out) && IdsOk(o, r.end, back)
  {
    assert PeerOk(e, o, i);
    MatchedBothWays(e, o, peer, i);
    UpdateKeepsIds(e, o, i, peer, OnOkay(e.cfg, e.socks[i].sock, ack), ch, back);
  }

  lemma {:induction false} FoundWrteKeepsIds(e: Endpoint, o: Endpoint, i: nat, peer: nat, data: seq<byte>, w: WriteResult, ch: seq<Packet>, back: seq<Packet>)
    requires IdsOk(e, o, ch) && IdsOk(o, e, back) && i in e.socks && peer != 0 && Matched(o, e, peer, i)
    requires WriteFits(e.socks[i].sock.queue + data, w)
    ensures var r := Update(e, i, peer, OnWrte(e.cfg, e.socks[i].sock, data, w));
      IdsOk(r.end, o, ch + r.out) && IdsOk(o, r.end, back)
  {
    assert PeerOk(e, o, i);
    MatchedBothWays(e, o, peer, i);
    UpdateKeepsIds(e, o, i, peer, OnWrte(e.cfg, e.socks[i].sock, data, w), ch, back);
  }

  lemma {:induction false} FoundClseKeepsIds(e: Endpoint, o: Endpoint, i: nat, ch: seq<Packet>, back: seq<Packet>)
    requires IdsOk(e, o, ch) && IdsOk(o, e, back) && i in e.socks
    ensures var r := Update(e, i, e.socks[i].peer, Close(e.socks[i].sock));
      IdsOk(r.end, o, ch + r.out) && IdsOk(o, r.end, back)
  {
    assert PeerOk(e, o, i);
    UpdateKeepsIds(e, o, i, e.socks[i].peer, Close(e.socks[i].sock), ch, back);
  }

  lemma {:induction false} FoundKeepsIds(e: Endpoint, o: Endpoint, p: Packet, w: WriteResult, service: bool, ch: seq<Packet>, back: seq<Packet>)
    requires IdsOk(e, o, ch) && IdsOk(o, e, back) && PacketFits(e, p, w)
    requires !p.msg.Open? && Addressed(o, e, p) && Found(e, p.arg1, p.arg0)
    ensures var r := OnPacket(e, p, w, service); IdsOk(r.end, o, ch + r.out) && IdsOk(o, r.end, back)
  {
    match p.msg
    case Okay(ack) => FoundOkayKeepsIds(e, o, p.arg1, p.arg0, ack, ch, back);
    case Wrte(data) => FoundWrteKeepsIds(e, o, p.arg1, p.arg0, data, w, ch, back);
    case Clse => FoundClseKeepsIds(e, o, p.arg1, ch, back);
  }

  /** An A_OKAY for a socket that waits for one, or for one that is gone. */
  lemma {:induction false} OkayKeepsIds(e: Endpoint, o: Endpoint, p: Packet, w: WriteResult, service: bool, ch: seq<Packet>, back: seq<Packet>)
    requires IdsOk(e, o, ch) && IdsOk(o, e, back) && PacketFits(e, p, w)
    requires p.msg.Okay? && Addressed(o, e, p) && !Found(e, p.arg1, p.arg0)
    ensures var r := OnPacket(e, p, w, service); IdsOk(r.end, o, ch + r.out) && IdsOk(o, r.end, back)
  {
    MatchedBothWays(e, o, p.arg0, p.arg1);
    assert PeerOk(e, o, p.arg1);
    if Found(e, p.arg1, 0) {
      UpdateKeepsIds(e, o, p.arg1, p.arg0, OnOkay(e.cfg, e.socks[p.arg1].sock, p.msg.ack), ch, back);
    } else {
      SendKeepsIds(e, o, ch, [Packet(p.arg1, p.arg0, Clse)]);
    }
  }

  lemma {:induction false} ArrivalKeepsIds(l: SoundLink, ev: Event)
    requires ev.Arrive? && Possible(l, ev)
    ensures var e, o, r := l.At(ev.d), l.At(ev.d.Other()), Respond(l, ev);
      IdsOk(r.end, o, l.Into(ev.d.Other()) + r.out) && IdsOk(o, r.end, l.Into(ev.d)[1..])
  {
    var e, o, p := l.At(ev.d), l.At(ev.d.Other()), l.Into(ev.d)[0];
    var ch, rest := l.Into(ev.d.Other()), l.Into(ev.d)[1..];
    Ids(l, ev.d);
    assert p in l.Into(ev.d);
    assert Addressed(o, e, p);
    assert IdsOk(o, e, rest);
    if p.msg.Open? {
      OpenKeepsIds(l, ev);
    } else if Found(e, p.arg1, p.arg0) {
      FoundKeepsIds(e, o, p, ev.w, ev.service, ch, rest);
    } else if p.msg.Okay? {
      OkayKeepsIds(e, o, p, ev.w, ev.service, ch, rest);
    } else {
      SendKeepsIds(e, o, ch, []);
    }
  }

  lemma {:induction false} EventKeepsIds(l: SoundLink, ev: Event)
    ensures AllIdsOk(Next(l, ev)) && ConfigsOk(Next(l, ev))
  {
    if Possible(l, ev) {
      if ev.Begin? {
        Ids(l, ev.d);
        BeginKeepsIds(l.At(ev.d), l.At(ev.d.Other()), l.Into(ev.d.Other()), l.Into(ev.d));
      } else if ev.Arrive? {
        ArrivalKeepsIds(l, ev);
      } else {
        DescriptorKeepsIds(l, ev);
      }
    }
  }

  /** An OPEN gives an endpoint a new live socket if and only if it names its sender, the
      service can be started and a window is granted exactly with delayed acks; otherwise no
      socket changes, and a sender that named itself is refused. */
  lemma {:induction false} OpenGivesSocket(e: Endpoint, p: Packet, w: WriteResult, service: bool)
    requires p.msg.Open? && e.nextId !in e.socks
    ensures var r, good := OnPacket(e, p, w, service), service && (p.msg.grant != 0 <==> e.cfg.delayed);
      && (Found(r.end, e.nextId, p.arg0) <==> p.arg0 != 0 && good)
      && (forall i :: i in e.socks ==> i in r.end.socks && r.end.socks[i] == e.socks[i])
      && (p.arg0 == 0 || !good ==> r.end == e && r.out == if p.arg0 == 0 then [] else [Packet(0, p.arg0, Clse)])
  {
  }

  // ---- Every stream of every run

  lemma {:induction false} PacketMakesNoOpener(e: Endpoint, p: Packet, w: WriteResult, service: bool, i: nat)
    requires PacketFits(e, p, w)
    ensures var f := OnPacket(e, p, w, service).end;
      i in f.socks && f.socks[i].opener ==> i in e.socks && e.socks[i].opener
  {
  }

  /** Only `Begin` makes an opener. */
  lemma {:induction false} OpenersComeFromBegin(l: Link, ev: Event, d: End, i: nat)
    requires Opened(Next(l, ev), d, i) && !Opened(l, d, i)
    ensures Possible(l, ev) && ev == Begin(d) && i == l.At(d).nextId
  {
    if ev.Arrive? && Possible(l, ev) {
      PacketMakesNoOpener(l.At(ev.d), l.Into(ev.d)[0], ev.w, ev.service, i);
    }
  }

  /** Multiplexing is transparent: one event of the link is one step of the stream it
      concerns and no step of any other. */
  lemma {:induction false} EventRefines(l: SoundLink, ev: Event, d: End, i: nat)
    requires Opened(Next(l, ev), d, i) && Possible(l, ev)
    ensures Opened(l, d, i) || View(l, d, i) == Initial(Configs(l.At(d).cfg, l.At(d.Other()).cfg))
    ensures View(Next(l, ev), d, i) == if Concerns(l, d, i, ev) then Apply(View(l, d, i), AsStep(ev, d)) else View(l, d, i)
  {
    if !Opened(l, d, i) {
      OpenersComeFromBegin(l, ev, d, i);
      BeginStarts(l, d);
    } else if Concerns(l, d, i, ev) {
      ConcerningEventRefines(l, d, i, ev);
    } else {
      OtherEventKeepsView(l, d, i, ev);
    }
  }

  lemma {:induction false} StreamOf(l: SoundLink, d: End, i: nat) returns (p: Stream)
    requires Opened(l, d, i) || View(l, d, i) == Initial(Configs(l.At(d).cfg, l.At(d.Other()).cfg))
    ensures p == View(l, d, i)
  {
    p := View(l, d, i);
  }

  lemma {:induction false} NextStream(l: SoundLink, ev: Event, d: End, i: nat) returns (p: Stream)
    requires Opened(Next(l, ev), d, i) && Possible(l, ev)
    ensures p == View(Next(l, ev), d, i)
  {
    EventRefines(l, ev, d, i);
    p := StreamOf(l, d, i);
    if Concerns(l, d, i, ev) {
      StepKeepsShape(p, AsStep(ev, d));
      p := Apply(p, AsStep(ev, d));
    }
  }

  lemma {:induction false} StreamsSound(l: Link, d: End, i: nat, p: Stream)
    requires p == View(l, d, i)
    ensures Shape(View(l, d, i))
  {
  }

  lemma {:induction false} EventKeepsStreamsSound(l: SoundLink, ev: Event)
    ensures AllStreamsSound(Next(l, ev))
  {
    if Possible(l, ev) {
      forall d: End, i: nat | Opened(Next(l, ev), d, i)
        ensures Shape(View(Next(l, ev), d, i))
      {
        var p := NextStream(l, ev, d, i);
        StreamsSound(Next(l, ev), d, i, p);
      }
    }
  }

  lemma {:induction false} LinkIsSound(ca: Config, cb: Config, events: seq<Event>)
    requires ca.Valid() && cb.Valid() && ca.delayed == cb.delayed
    ensures var l := Play(ca, cb, events);
      ConfigsOk(l) && AllIdsOk(l) && AllStreamsSound(l) && l.a.cfg == ca && l.b.cfg == cb
  {
    if events != [] {
      var prefix, ev := events[..|events| - 1], events[|events| - 1];
      LinkIsSound(ca, cb, prefix);
      EventKeepsIds(Play(ca, cb, prefix), ev);
      EventKeepsStreamsSound(Play(ca, cb, prefix), ev);
      EventKeepsConfigs(Play(ca, cb, prefix), ev);
    }
  }

  lemma {:induction false} EventKeepsConfigs(l: Link, ev: Event)
    ensures Next(l, ev).a.cfg == l.a.cfg && Next(l, ev).b.cfg == l.b.cfg
  {
  }

  /** The steps of stream (`d`, `i`) in a run of the link. */
  function Project(ca: Config, cb: Config, events: seq<Event>, d: End, i: nat): seq<Step> {
    if events == [] then [] else
    var prefix, ev := events[..|events| - 1], events[|events| - 1];
    var l := Play(ca, cb, prefix);
    Project(ca, cb, prefix, d, i) + if Possible(l, ev) && Concerns(l, d, i, ev) then [AsStep(ev, d)] else []
  }

  function ConfigsFrom(ca: Config, cb: Config, d: End): Configs {
    if d.A? then Configs(ca, cb) else Configs(cb, ca)
  }

  /** Every stream of every run of the link is, by itself, a run of the single-stream
      protocol, so each of that protocol's guarantees holds of all streams at once,
      however they are interleaved. */
  lemma {:induction false} EveryStreamIsARun(ca: Config, cb: Config, events: seq<Event>, d: End, i: nat)
    requires ca.Valid() && cb.Valid() && ca.delayed == cb.delayed
    requires Opened(Play(ca, cb, events), d, i)
    ensures View(Play(ca, cb, events), d, i) == Final(ConfigsFrom(ca, cb, d), Project(ca, cb, events, d, i))
  {
    if events != [] {
      var prefix, ev := events[..|events| - 1], events[|events| - 1];
      var l := Play(ca, cb, prefix);
      LinkIsSound(ca, cb, prefix);
      if Opened(l, d, i) {
        EveryStreamIsARun(ca, cb, prefix, d, i);
      } else {
        OpenersComeFromBegin(l, ev, d, i);
        UnopenedHasNoSteps(ca, cb, prefix, d, i);
        BeginStarts(l, d);
      }
      RunGrows(l, ev, d, i, ConfigsFrom(ca, cb, d), Project(ca, cb, prefix, d, i));
    }
  }

  lemma {:induction false} RunGrows(l: SoundLink, ev: Event, d: End, i: nat, c: Configs, run: seq<Step>)
    requires Opened(Next(l, ev), d, i) && View(l, d, i) == Final(c, run)
    ensures View(Next(l, ev), d, i) == Final(c, run + if Possible(l, ev) && Concerns(l, d, i, ev) then [AsStep(ev, d)] else [])
  {
    if Possible(l, ev) {
      EventRefines(l, ev, d, i);
    }
    var all := run + [AsStep(ev, d)];
    assert all[..|all| - 1] == run && run + [] == run;
  }

  /** A stream that is not open yet has taken no step. */
  lemma {:induction false} UnopenedHasNoSteps(ca: Config, cb: Config, events: seq<Event>, d: End, i: nat)
    requires ca.Valid() && cb.Valid() && ca.delayed == cb.delayed
    requires i >= Play(ca, cb, events).At(d).nextId
    ensures Project(ca, cb, events, d, i) == []
  {
    if events != [] {
      var prefix, ev := events[..|events| - 1], events[|events| - 1];
      var l := Play(ca, cb, prefix);
      LinkIsSound(ca, cb, prefix);
      IdsGrow(l, ev, d);
      UnopenedHasNoSteps(ca, cb, prefix, d, i);
      if Possible(l, ev) && !ev.Begin? {
        UnopenedHasNoPackets(l, d, i, ev);
      }
    }
  }

  lemma {:induction false} IdsGrow(l: Link, ev: Event, d: End)
    ensures l.At(d).nextId <= Next(l, ev).At(d).nextId
    ensures ev == Begin(d) && Possible(l, ev) ==> l.At(d).nextId < Next(l, ev).At(d).nextId
  {
  }

  lemma {:induction false} UnopenedHasNoPackets(l: SoundLink, d: End, i: nat, ev: Event)
    requires i >= l.At(d).nextId && Possible(l, ev) && !ev.Begin?
    ensures !Concerns(l, d, i, ev)
  {
    Ids(l, d);
    if ev.Arrive? {
      var p := l.Into(ev.d)[0];
      assert p in l.Into(ev.d);
      assert Addressed(l.At(ev.d.Other()), l.At(ev.d), p);
    }
  }

  // ---- The guarantees, for all streams at once

  /** The stream that `d` opened as `i`, in a run of the link. */
  predicate IsStream(ca: Config, cb: Config, events: seq<Event>, d: End, i: nat) {
    ca.Valid() && cb.Valid() && ca.delayed == cb.delayed && Opened(Play(ca, cb, events), d, i)
  }

  /** However streams are interleaved on a link, each one delivers its own bytes in order and
      unmixed, up to its end, and none is left with only one end. */
  lemma {:induction false} MultiplexedStreams(ca: Config, cb: Config, events: seq<Event>, d: End, i: nat)
    requires IsStream(ca, cb, events, d, i)
    ensures forall x: Side :: DeliversAll(View(Play(ca, cb, events), d, i), Project(ca, cb, events, d, i), x)
    ensures var p := View(Play(ca, cb, events), d, i); var fwd, bwd := LoadOf(p.toAcceptor), LoadOf(p.toOpener);
      && (p.acceptor.status.Live? && !p.opener.status.Live? ==> bwd.okays > 0 || fwd.closes > 0)
      && (p.opener.hasPeer && !p.acceptor.status.Live? ==> bwd.closes > 0)
      && (p.opener.status.Live? && !p.opener.hasPeer ==> fwd.opens > 0 || bwd.okays > 0 || bwd.refusals > 0)
  {
    var c, run := ConfigsFrom(ca, cb, d), Project(ca, cb, events, d, i);
    EveryStreamIsARun(ca, cb, events, d, i);
    T.StreamIntegrity(c, run, Opener);
    T.StreamIntegrity(c, run, Acceptor);
    T.NoOrphans(c, run);
  }

  /** What side `x` of a stream sends reaches the other side: what that has written and queued
      is a prefix; with what is in transit it is all, while that side is live or if its own
      descriptor never ends; no data follows a CLSE; and if its descriptor neither ends, fails
      a write nor hangs up, that side is destroyed only when everything has been written. */
  ghost predicate DeliversAll(p: Pair, run: seq<Step>, x: Side) {
    var s, r, ch := p.At(x), p.At(x.Other()), p.Into(x.Other());
    && r.written + r.queue <= s.sent && r.written <= s.sent && Tidy(ch)
    && (r.status.Live? || T.StaysOpen(run, x.Other()) ==> s.sent == r.written + r.queue + LoadOf(ch).data)
    && (T.StaysOpen(run, x.Other()) && T.CalmAt(run, x.Other()) && r.status.Gone? ==> r.written == s.sent)
  }

  /** With plain acks, each side of a stream that does not read on hangup has sent no more WRTEs
      than it has taken OKAYs, and one more if it is the acceptor. */
  lemma {:induction false} MultiplexedPlainAcks(ca: Config, cb: Config, events: seq<Event>, d: End, i: nat, x: Side)
    requires IsStream(ca, cb, events, d, i) && !ca.delayed
    requires forall t :: t in Project(ca, cb, events, d, i) && Actor(t) == x ==> !t.Hangup?
    ensures var p, c, run := View(Play(ca, cb, events), d, i), ConfigsFrom(ca, cb, d), Project(ca, cb, events, d, i);
      && T.WrtesSent(c, run, x) + T.Reading(p.At(x)) <= T.OkaysTaken(c, run, x) + T.Advance(x, p.At(x))
      && Wrtes(p.Into(x.Other())) <= T.WrtesSent(c, run, x)
  {
    EveryStreamIsARun(ca, cb, events, d, i);
    T.PlainAckBound(ConfigsFrom(ca, cb, d), Project(ca, cb, events, d, i), x);
  }

  /** A stream whose acks fit: with plain acks, with small writes, or within the bound. */
  predicate IsModest(ca: Config, cb: Config, events: seq<Event>, d: End, i: nat) {
    IsStream(ca, cb, events, d, i) && T.Modest(ConfigsFrom(ca, cb, d), Project(ca, cb, events, d, i))
  }

  /** In both ack modes and with any hangups, no stream of a link stalls. */
  lemma {:induction false} MultiplexedWakeups(ca: Config, cb: Config, events: seq<Event>, d: End, i: nat, x: Side)
    requires IsModest(ca, cb, events, d, i)
    ensures var p := View(Play(ca, cb, events), d, i);
      p.At(x).hasPeer && !p.At(x).readOn && !p.At(x.Other()).writeErr ==> T.WillWake(p, x)
  {
    var c, run := ConfigsFrom(ca, cb, d), Project(ca, cb, events, d, i);
    EveryStreamIsARun(ca, cb, events, d, i);
    T.ModestAcksFit(c, run);
    T.NoLostWakeup(c, run, x);
  }

  /** Every stream of a link keeps its own credit. */
  lemma {:induction false} MultiplexedCredit(ca: Config, cb: Config, events: seq<Event>, d: End, i: nat, x: Side)
    requires IsModest(ca, cb, events, d, i) && ca.delayed
    ensures ConservesAt(View(Play(ca, cb, events), d, i), x)
  {
    var c, run := ConfigsFrom(ca, cb, d), Project(ca, cb, events, d, i);
    EveryStreamIsARun(ca, cb, events, d, i);
    T.ModestAcksFit(c, run);
    T.RunIsFunded(c, run);
  }

  /** Every side of a stream that does not read on hangup stays within its own bound. */
  lemma {:induction false} MultiplexedFlowControl(ca: Config, cb: Config, events: seq<Event>, d: End, i: nat, x: Side)
    requires IsModest(ca, cb, events, d, i) && ca.delayed
    requires forall t :: t in Project(ca, cb, events, d, i) && Actor(t) == x ==> !t.Hangup?
    ensures var p := View(Play(ca, cb, events), d, i);
      T.Bounded(p, x) && (p.At(x).hasPeer && p.At(x.Other()).status.Live? ==> T.InFlight(p, x) <= T.Limit(p.c, x))
  {
    var c, run := ConfigsFrom(ca, cb, d), Project(ca, cb, events, d, i);
    EveryStreamIsARun(ca, cb, events, d, i);
    T.ModestAcksFit(c, run);
    T.RunIsFunded(c, run);
    T.InFlightBoundOf(c, run, x);
  }

  /** Every socket of a link keeps write interest while it owes bytes, and one whose own
      descriptor neither fails a write nor hangs up loses nothing. */
  lemma {:induction false} MultiplexedClosing(ca: Config, cb: Config, events: seq<Event>, d: End, i: nat, x: Side)
    requires IsStream(ca, cb, events, d, i)
    ensures var s := View(Play(ca, cb, events), d, i).At(x);
      && (Exists(s) && s.queue != [] && !s.writeErr ==> s.writeOn)
      && (s.status.Closing? ==> s.queue != [] && !s.writeErr && s.writeOn)
      && (T.CalmAt(Project(ca, cb, events, d, i), x) ==> T.NothingLost(s))
  {
    var c, run := ConfigsFrom(ca, cb, d), Project(ca, cb, events, d, i);
    EveryStreamIsARun(ca, cb, events, d, i);
    T.QueuedBytesHaveWriteInterest(c, run, x);
    if T.CalmAt(run, x) {
      T.ClosingKeepsData(c, run, x);
    }
  }
}
