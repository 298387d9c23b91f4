/**
 * One endpoint in its imperative form: `LocalSocket` objects on a live and a closing
 * list, found by a search of the live list, changed in place and moved between the
 * lists.  Each method does to the endpoint what `Multiplex` says on values, where a
 * socket is found through a map and carries its list as a status.
 */
module PacketHandlers {
  import opened Common
  import opened IOVectors
  import opened StreamSocket
  import opened LocalSockets
  import opened Multiplex

  ghost function Entry(s: LocalSocket): Local
    requires s.Valid()
    reads s, s.packetQueue
  {
    Local(s.State(), s.opener, s.peer)
  }

  /** The sockets there ever were, by id. */
  type Socks = map<nat, LocalSocket>

  /** A socket is what the endpoint says of it. */
  ghost predicate Mirrors(e: Endpoint, s: LocalSocket)
    reads s, s.packetQueue
  {
    s.Valid() && s.cfg == e.cfg && s.id < e.nextId && s.id in e.socks && e.socks[s.id] == Entry(s)
  }

  /** A socket is on the list of its status. */
  ghost predicate Listed(live: seq<LocalSocket>, closing: seq<LocalSocket>, s: LocalSocket)
    reads s`status
  {
    (s in live <==> s.status.Live?) && (s in closing <==> s.status.Closing?)
  }

  ghost function Queues(socks: Socks): set<IOVector> {
    set i | i in socks :: socks[i].packetQueue
  }

  /** Sockets have their own ids and queues. */
  ghost predicate Apart(socks: Socks) {
    && (forall i :: i in socks ==> socks[i].id == i)
    && (forall i, j :: i in socks && j in socks && i != j ==> socks[i].packetQueue != socks[j].packetQueue)
  }

  ghost predicate Has(socks: Socks, s: LocalSocket) {
    s.id in socks && socks[s.id] == s
  }

  ghost predicate AllMirror(e: Endpoint, socks: Socks)
    reads socks.Values, Queues(socks)
  {
    forall i :: i in socks ==> Mirrors(e, socks[i])
  }

  /** Every socket but `s` is mirrored. */
  ghost predicate OthersMirror(e: Endpoint, socks: Socks, s: LocalSocket)
    requires Apart(socks) && Has(socks, s)
    reads socks.Values - {s}, Queues(socks) - {s.packetQueue}
  {
    forall i :: i in socks && i != s.id ==> Mirrors(e, socks[i])
  }

  ghost predicate OthersListed(live: seq<LocalSocket>, closing: seq<LocalSocket>, socks: Socks, s: LocalSocket)
    requires Apart(socks) && Has(socks, s)
    reads socks.Values - {s}
  {
    forall i :: i in socks && i != s.id ==> Listed(live, closing, socks[i])
  }

  /** A socket moves from the live list to the closing list to nowhere. */
  predicate Onward(a: Status, b: Status) {
    b.Gone? || a == b || (a.Live? && b.Closing?)
  }

  lemma {:induction false} FlushIsOnward(cfg: Config, s: Sock, w: WriteResult)
    requires Exists(s) && WriteFits(s.queue, w)
    ensures Onward(s.status, Flush(cfg, s, w).sock.status)
  {
  }

  lemma {:induction false} WriteIsOnward(cfg: Config, s: Sock, data: seq<byte>, w: WriteResult)
    requires Exists(s) && WriteFits(s.queue + data, w)
    ensures Onward(s.status, OnWrte(cfg, s, data, w).sock.status)
  {
    FlushIsOnward(cfg, s.(queue := s.queue + data), w);
  }

  lemma {:induction false} ReadIsOnward(s: Sock, data: seq<byte>, eof: bool)
    requires Exists(s)
    ensures Onward(s.status, Read(s, data, eof).sock.status)
  {
  }

  class PacketHandler {
    const cfg: Config
    var nextId: nat
    /** `local_socket_list` and `local_socket_closing_list`. */
    var live: seq<LocalSocket>
    var closing: seq<LocalSocket>
    /** Everything sent to the transport. */
    var sent: seq<Packet>

    /** The lists hold sockets of `socks`, those of their status. */
    ghost predicate Lists(socks: Socks)
      reads `live, `closing, socks.Values
    {
      (forall s :: s in live ==> Has(socks, s)) && forall i :: i in socks ==> Listed(live, closing, socks[i])
    }

    /** The lists and the sockets, `socks` being all there ever were, stand for `e`. */
    ghost predicate Represents(e: Endpoint, socks: Socks)
      reads `nextId, `live, `closing, socks.Values, Queues(socks)
    {
      && Apart(socks) && (e.cfg, e.nextId, e.socks.Keys) == (cfg, nextId, socks.Keys)
      && Lists(socks) && AllMirror(e, socks)
    }

    constructor (cfg: Config)
      ensures Represents(Endpoint(cfg, 1, map[], map[]), map[]) && sent == []
    {
      this.cfg := cfg;
      nextId, live, closing, sent := 1, [], [], [];
    }

    /** `remove_socket` for a destroyed socket, and the move to the closing list. */
    method Relist(s: LocalSocket, ghost socks: Socks)
      requires Apart(socks) && Has(socks, s) && !s.status.Idle?
      requires OthersListed(live, closing, socks, s) && forall x :: x in live ==> Has(socks, x)
      requires (s in live ==> s !in closing) && (s.status.Live? ==> s in live)
      modifies `live, `closing
      ensures Lists(socks)
    {
      forall x
        ensures x in Without(live, {s}) <==> x in live && x != s
        ensures x in Without(closing, {s}) <==> x in closing && x != s
      {
        WithoutKeeps(live, {s}, x);
        WithoutKeeps(closing, {s}, x);
      }
      if s.status.Gone? {
        live, closing := Without(live, {s}), Without(closing, {s});
      } else if s.status.Closing? && s !in closing {
        live, closing := Without(live, {s}), Without(closing, {s}) + [s];
      }
    }

    /** What follows a change of one socket: the messages it put on the transport since
        `from` are sent with its ids, and it moves to the list its status asks for. */
    method Publish(s: LocalSocket, from: nat, ghost socks: Socks)
      requires Apart(socks) && Has(socks, s) && !s.status.Idle? && from <= |s.transport|
      requires OthersListed(live, closing, socks, s) && forall x :: x in live ==> Has(socks, x)
      requires (s in live ==> s !in closing) && (s.status.Live? ==> s in live)
      modifies `sent, `live, `closing
      ensures Lists(socks) && sent == old(sent) + Wrap(s.id, s.peer, s.transport[from..])
    {
      sent := sent + Wrap(s.id, s.peer, s.transport[from..]);
      Relist(s, socks);
    }

    /** What holds of the endpoint and its lists whatever has become of `s` since it was
        as the endpoint says. */
    ghost predicate Around(e: Endpoint, socks: Socks, s: LocalSocket)
      reads `nextId, `live, `closing
    {
      && Apart(socks) && Has(socks, s) && s.id < nextId && s.cfg == cfg
      && (e.cfg, e.nextId, e.socks.Keys) == (cfg, nextId, socks.Keys) && s.opener == e.socks[s.id].opener
      && (forall x :: x in live ==> Has(socks, x))
      && (s in live <==> e.socks[s.id].sock.status.Live?) && (s in closing <==> e.socks[s.id].sock.status.Closing?)
    }

    /** All but `s` are as the endpoint says, and listed. */
    ghost predicate Others(e: Endpoint, socks: Socks, s: LocalSocket)
      requires Apart(socks) && Has(socks, s)
      reads `live, `closing, socks.Values - {s}, Queues(socks) - {s.packetQueue}
    {
      OthersListed(live, closing, socks, s) && OthersMirror(e, socks, s)
    }

    /** Seen from one of its sockets. */
    lemma {:induction false} Loosen(e: Endpoint, socks: Socks, s: LocalSocket)
      requires Represents(e, socks) && Has(socks, s)
      ensures Around(e, socks, s) && Others(e, socks, s) && Mirrors(e, s)
    {
    }

    /** With the changed socket recorded, all are represented again. */
    lemma {:induction false} Tighten(e: Endpoint, socks: Socks, s: LocalSocket, o: Outcome)
      requires Apart(socks) && Has(socks, s) && (e.cfg, e.nextId, e.socks.Keys) == (cfg, nextId, socks.Keys)
      requires OthersMirror(e, socks, s) && Lists(socks)
      requires s.Valid() && s.id < e.nextId && s.cfg == e.cfg && s.opener == e.socks[s.id].opener && o.sock == s.State()
      ensures Represents(Update(e, s.id, s.peer, o).end, socks)
    {
      var next := Update(e, s.id, s.peer, o).end;
      assert next.socks.Keys == socks.Keys;
      forall i | i in socks ensures Mirrors(next, socks[i]) {
      }
    }

    /** `s` has moved to `o`, and put its messages on the transport after the first `from`. */
    method Commit(s: LocalSocket, from: nat, ghost e: Endpoint, ghost socks: Socks, ghost o: Outcome)
      requires Around(e, socks, s) && Others(e, socks, s)
      requires s.Valid() && o.sock == s.State() && from <= |s.transport| && s.transport[from..] == o.out
      requires Exists(e.socks[s.id].sock) && Onward(e.socks[s.id].sock.status, o.sock.status)
      modifies `sent, `live, `closing
      ensures Represents(Update(e, s.id, s.peer, o).end, socks)
      ensures sent == old(sent) + Update(e, s.id, s.peer, o).out
    {
      Publish(s, from, socks);
      Tighten(e, socks, s, o);
    }

    method FlushSocket(s: LocalSocket, w: WriteResult, ghost e: Endpoint, ghost socks: Socks)
      requires Apart(socks) && Has(socks, s) && Others(e, socks, s) && s.Valid()
      requires WriteFits(s.packetQueue.View(), w) && (w.Wrote? ==> w.n < TWO_32)
      modifies s, s.packetQueue
      ensures Others(e, socks, s) && s.Valid() && s.peer == old(s.peer)
      ensures s.State() == Flush(s.cfg, old(s.State()), w).sock
      ensures s.transport == old(s.transport) + Flush(s.cfg, old(s.State()), w).out
    {
      var _ := s.FlushIncoming(w);
    }

    /** The descriptor of a socket can be written. */
    method Writable(s: LocalSocket, w: WriteResult, ghost e: Endpoint, ghost socks: Socks, ghost o: Outcome)
      requires Represents(e, socks) && Has(socks, s) && Exists(e.socks[s.id].sock)
      requires WriteFits(e.socks[s.id].sock.queue, w) && (w.Wrote? ==> w.n < TWO_32)
      requires o == Flush(cfg, e.socks[s.id].sock, w)
      modifies `sent, `live, `closing, s, s.packetQueue
      ensures Represents(Update(e, s.id, e.socks[s.id].peer, o).end, socks)
      ensures sent == old(sent) + Update(e, s.id, e.socks[s.id].peer, o).out
    {
      Loosen(e, socks, s);
      FlushIsOnward(cfg, e.socks[s.id].sock, w);
      var from := |s.transport|;
      FlushSocket(s, w, e, socks);
      Commit(s, from, e, socks, o);
    }

    method ReadSocket(s: LocalSocket, answers: seq<ReadResult>, ghost e: Endpoint, ghost socks: Socks, ghost o: Outcome)
      requires Apart(socks) && Has(socks, s) && Others(e, socks, s) && s.Valid()
      requires o == Read(s.State(), Gather(answers, s.cfg.maxPayload).0, Gather(answers, s.cfg.maxPayload).1)
      modifies s
      ensures Others(e, socks, s) && s.Valid() && s.peer == old(s.peer)
      ensures s.State() == o.sock && s.transport == old(s.transport) + o.out
    {
      var _ := s.FlushOutgoing(answers);
    }

    /** The descriptor of a socket can be read, or its other end hung up. */
    method Readable(s: LocalSocket, answers: seq<ReadResult>, ghost e: Endpoint, ghost socks: Socks, ghost o: Outcome)
      requires Represents(e, socks) && Has(socks, s) && Exists(e.socks[s.id].sock)
      requires o == Read(e.socks[s.id].sock, Gather(answers, cfg.maxPayload).0, Gather(answers, cfg.maxPayload).1)
      modifies `sent, `live, `closing, s
      ensures Represents(Update(e, s.id, e.socks[s.id].peer, o).end, socks)
      ensures sent == old(sent) + Update(e, s.id, e.socks[s.id].peer, o).out
    {
      Loosen(e, socks, s);
      ReadIsOnward(e.socks[s.id].sock, Gather(answers, cfg.maxPayload).0, Gather(answers, cfg.maxPayload).1);
      var from := |s.transport|;
      ReadSocket(s, answers, e, socks, o);
      Commit(s, from, e, socks, o);
    }

    method EnqueueAt(s: LocalSocket, data: seq<byte>, w: WriteResult, ghost e: Endpoint, ghost socks: Socks)
      requires Apart(socks) && Has(socks, s) && Others(e, socks, s) && s.Valid() && s.status.Live? && s.hasPeer
      requires WriteFits(s.packetQueue.View() + data, w) && (w.Wrote? ==> w.n < TWO_32)
      modifies s, s.packetQueue
      ensures Others(e, socks, s) && s.Valid() && s.peer == old(s.peer)
      ensures s.State() == OnWrte(s.cfg, old(s.State()), data, w).sock
      ensures s.transport == old(s.transport) + OnWrte(s.cfg, old(s.State()), data, w).out
    {
      var _ := s.Enqueue(data, w);
    }

    /** The socket an A_WRTE is for takes its data. */
    method Deliver(s: LocalSocket, data: seq<byte>, w: WriteResult,
                   ghost e: Endpoint, ghost socks: Socks, ghost o: Outcome)
      requires Around(e, socks, s) && Others(e, socks, s) && Mirrors(e, s) && s.status.Live?
      requires e.socks[s.id].sock.hasPeer
      requires WriteFits(e.socks[s.id].sock.queue + data, w) && (w.Wrote? ==> w.n < TWO_32)
      requires o == OnWrte(cfg, e.socks[s.id].sock, data, w)
      modifies `sent, `live, `closing, s, s.packetQueue
      ensures Represents(Update(e, s.id, e.socks[s.id].peer, o).end, socks)
      ensures sent == old(sent) + Update(e, s.id, e.socks[s.id].peer, o).out
    {
      WriteIsOnward(cfg, e.socks[s.id].sock, data, w);
      var from := |s.transport|;
      EnqueueAt(s, data, w, e, socks);
      Commit(s, from, e, socks, o);
    }

    /** The socket an A_CLSE is for closes. */
    method Shut(s: LocalSocket, ghost e: Endpoint, ghost socks: Socks, ghost o: Outcome)
      requires Around(e, socks, s) && Others(e, socks, s) && Mirrors(e, s) && Exists(e.socks[s.id].sock)
      requires o == Close(e.socks[s.id].sock)
      modifies `sent, `live, `closing, s
      ensures Represents(Update(e, s.id, e.socks[s.id].peer, o).end, socks)
      ensures sent == old(sent) + Update(e, s.id, e.socks[s.id].peer, o).out
    {
      var from := |s.transport|;
      s.Close();
      Commit(s, from, e, socks, o);
    }

    /** The socket an A_OKAY from `peer` is for connects to it or takes its acknowledgement. */
    method Acknowledge(s: LocalSocket, peer: nat, ack: Option<uint32>,
                       ghost e: Endpoint, ghost socks: Socks, ghost o: Outcome)
      requires Around(e, socks, s) && Others(e, socks, s) && Mirrors(e, s) && s.status.Live?
      requires s.hasPeer ==> s.peer == peer
      requires o == OnOkay(cfg, e.socks[s.id].sock, ack)
      modifies `sent, `live, `closing, s
      ensures Represents(Update(e, s.id, peer, o).end, socks)
      ensures sent == old(sent) + Update(e, s.id, peer, o).out
    {
      var from := |s.transport|;
      s.HandleOkay(peer, ack);
      Commit(s, from, e, socks, o);
    }

    /** `find_local_socket`. */
    method FindLocalSocket(id: nat, peer: nat, ghost e: Endpoint, ghost socks: Socks) returns (found: LocalSocket?)
      requires Represents(e, socks)
      ensures found != null <==> Found(e, id, peer)
      ensures found != null ==> Has(socks, found) && found.id == id && found.status.Live?
    {
      for i := 0 to |live|
        invariant forall j :: 0 <= j < i ==> live[j].id != id
      {
        var s := live[i];
        if s.id == id {
          assert s in live;
          if peer == 0 || (s.hasPeer && s.peer == peer) {
            return s;
          }
          return null;
        }
      }
      return null;
    }

    lemma {:induction false} JoinsApart(s: LocalSocket, socks: Socks)
      requires Apart(socks) && s.id !in socks && s.packetQueue !in Queues(socks)
      ensures Apart(socks[s.id := s])
    {
    }

    lemma {:induction false} JoinsMirror(s: LocalSocket, e: Endpoint, socks: Socks, next: Endpoint)
      requires s.Valid() && s.id == e.nextId && s.cfg == e.cfg && e.socks.Keys == socks.Keys
      requires AllMirror(e, socks) && forall i :: i in socks ==> socks[i].id == i
      requires next == Multiplex.Install(e, s.opener, s.peer, Outcome(s.State(), s.transport)).end
      ensures s.id !in socks && AllMirror(next, socks[s.id := s]) && next.socks.Keys == socks[s.id := s].Keys
    {
      forall i | i in socks ensures i < s.id && Mirrors(next, socks[i]) {
        assert Mirrors(e, socks[i]);
      }
      assert Mirrors(next, s);
    }

    /** A new socket goes on the live list only. */
    method Enlist(s: LocalSocket, ghost socks: Socks)
      requires Lists(socks) && s.id !in socks && s.status.Live? && s !in closing
      modifies `nextId, `live, `sent
      ensures nextId == old(nextId) + 1 && Lists(socks[s.id := s])
      ensures sent == old(sent) + Wrap(s.id, s.peer, s.transport)
    {
      nextId, live, sent := nextId + 1, live + [s], sent + Wrap(s.id, s.peer, s.transport);
    }

    /** `install_local_socket`: a socket with the next id and a queue of its own joins. */
    method Install(s: LocalSocket, ghost e: Endpoint, ghost socks: Socks, ghost next: Endpoint)
      requires Represents(e, socks) && s.Valid() && s.id == nextId && s.cfg == cfg && s.status.Live?
      requires s !in closing && s.packetQueue !in Queues(socks)
      requires next == Multiplex.Install(e, s.opener, s.peer, Outcome(s.State(), s.transport)).end
      modifies `nextId, `live, `sent
      ensures Represents(next, socks[s.id := s]) && sent == old(sent) + Wrap(s.id, s.peer, s.transport)
    {
      JoinsMirror(s, e, socks, next);
      JoinsApart(s, socks);
      Enlist(s, socks);
    }

    /** Opens a stream: `create_local_socket` and `connect_to_remote`. */
    method Connect(ghost e: Endpoint, ghost socks: Socks) returns (s: LocalSocket)
      requires Represents(e, socks)
      modifies `nextId, `live, `sent
      ensures fresh(s) && Represents(Multiplex.Install(e, true, 0, StreamSocket.Connect(cfg)).end, socks[s.id := s])
      ensures sent == old(sent) + Multiplex.Install(e, true, 0, StreamSocket.Connect(cfg)).out
    {
      s := new LocalSocket.Connecting(cfg, nextId);
      Install(s, e, socks, Multiplex.Install(e, true, 0, StreamSocket.Connect(cfg)).end);
    }

    /** `send_close`. */
    method SendClose(local: nat, remote: nat)
      modifies `sent
      ensures sent == old(sent) + [Packet(local, remote, Clse)]
    {
      sent := sent + [Packet(local, remote, Clse)];
    }

    /** An A_OKAY for a socket that is there. */
    method OkayTo(s: LocalSocket, p: Packet, ghost w: WriteResult, ghost service: bool,
                  ghost e: Endpoint, ghost socks: Socks, ghost r: Reply)
      requires Represents(e, socks) && Has(socks, s) && s.status.Live?
      requires p.msg.Okay? && p.arg0 != 0 && p.arg1 == s.id != 0
      requires r == OnPacket(e, p, w, service)
      modifies `sent, `live, `closing, s
      ensures Represents(r.end, socks) && sent == old(sent) + r.out
    {
      Loosen(e, socks, s);
      if s.hasPeer && s.peer != p.arg0 {
        assert r == Reply(e, []);
        return;
      }
      assert r == Update(e, s.id, p.arg0, OnOkay(cfg, e.socks[s.id].sock, p.msg.ack));
      Acknowledge(s, p.arg0, p.msg.ack, e, socks, OnOkay(cfg, e.socks[s.id].sock, p.msg.ack));
    }

    method HandleOkay(p: Packet, ghost w: WriteResult, ghost service: bool,
                      ghost e: Endpoint, ghost socks: Socks, ghost r: Reply)
      requires Represents(e, socks) && p.msg.Okay?
      requires r == OnPacket(e, p, w, service)
      modifies `sent, `live, `closing, socks.Values
      ensures Represents(r.end, socks) && sent == old(sent) + r.out
    {
      if p.arg0 == 0 || p.arg1 == 0 {
        return;
      }
      var s := FindLocalSocket(p.arg1, 0, e, socks);
      if s == null {
        assert r == Reply(e, [Packet(p.arg1, p.arg0, Clse)]);
        SendClose(p.arg1, p.arg0);
      } else {
        OkayTo(s, p, w, service, e, socks, r);
      }
    }

    method HandleWrite(p: Packet, w: WriteResult, ghost service: bool,
                       ghost e: Endpoint, ghost socks: Socks, ghost r: Reply)
      requires Represents(e, socks) && p.msg.Wrte? && PacketFits(e, p, w) && (w.Wrote? ==> w.n < TWO_32)
      requires r == OnPacket(e, p, w, service)
      modifies `sent, `live, `closing, socks.Values, Queues(socks)
      ensures Represents(r.end, socks) && sent == old(sent) + r.out
    {
      if p.arg0 == 0 || p.arg1 == 0 {
        return;
      }
      var s := FindLocalSocket(p.arg1, p.arg0, e, socks);
      if s != null {
        Loosen(e, socks, s);
        Deliver(s, p.msg.data, w, e, socks, OnWrte(cfg, e.socks[s.id].sock, p.msg.data, w));
      }
    }

    /** An A_CLSE for a socket that is there. */
    method CloseTo(s: LocalSocket, ghost e: Endpoint, ghost socks: Socks, ghost r: Reply)
      requires Represents(e, socks) && Has(socks, s) && s.status.Live?
      requires r == Update(e, s.id, e.socks[s.id].peer, Close(e.socks[s.id].sock))
      modifies `sent, `live, `closing, s
      ensures Represents(r.end, socks) && sent == old(sent) + r.out
    {
      Loosen(e, socks, s);
      Shut(s, e, socks, Close(e.socks[s.id].sock));
    }

    method HandleClose(p: Packet, ghost w: WriteResult, ghost service: bool,
                       ghost e: Endpoint, ghost socks: Socks, ghost r: Reply)
      requires Represents(e, socks) && p.msg.Clse?
      requires r == OnPacket(e, p, w, service)
      modifies `sent, `live, `closing, socks.Values
      ensures Represents(r.end, socks) && sent == old(sent) + r.out
    {
      if p.arg1 == 0 {
        return;
      }
      var s := FindLocalSocket(p.arg1, p.arg0, e, socks);
      if s != null {
        CloseTo(s, e, socks, r);
      }
    }

    /** Which A_OPEN a socket answers is history. */
    lemma {:induction false} Accepting(e: Endpoint, socks: Socks, accepted: map<nat, nat>)
      requires Represents(e, socks)
      ensures Represents(e.(accepted := accepted), socks)
    {
      var next := e.(accepted := accepted);
      forall i | i in socks ensures Mirrors(next, socks[i]) {
        assert Mirrors(e, socks[i]);
      }
    }

    /** The service runs: a socket with its credit, and the answer. */
    method Accept(peer: nat, grant: uint32, ghost e: Endpoint, ghost socks: Socks, ghost r: Reply)
      returns (s: LocalSocket)
      requires Represents(e, socks)
      requires var after := e.(accepted := e.accepted[peer := e.nextId]);
        r == Multiplex.Install(after, false, peer, StreamSocket.Accept(cfg, grant))
      modifies `nextId, `live, `sent
      ensures fresh(s) && Represents(r.end, socks[s.id := s]) && sent == old(sent) + r.out
    {
      ghost var after := e.(accepted := e.accepted[peer := e.nextId]);
      Accepting(e, socks, after.accepted);
      s := new LocalSocket.Accepted(cfg, nextId, peer, grant);
      Install(s, after, socks, r.end);
    }

    method HandleOpen(p: Packet, ghost w: WriteResult, service: bool,
                      ghost e: Endpoint, ghost socks: Socks, ghost r: Reply)
      returns (ghost now: Socks)
      requires Represents(e, socks) && p.msg.Open?
      requires r == OnPacket(e, p, w, service)
      modifies `nextId, `live, `sent
      ensures Represents(r.end, now) && sent == old(sent) + r.out
    {
      now := socks;
      if p.arg0 == 0 {
        assert r == Reply(e, []);
        return;
      }
      if cfg.delayed != (p.msg.grant != 0) || !service {
        assert r == Reply(e, [Packet(0, p.arg0, Clse)]);
        SendClose(0, p.arg0);
        return;
      }
      var s := Accept(p.arg0, p.msg.grant, e, socks, r);
      now := socks[s.id := s];
    }

    /** One packet; the socket an A_WRTE goes to is flushed with the result `w`, and
        `service` says whether the service an A_OPEN names could be started. */
    method HandlePacket(p: Packet, w: WriteResult, service: bool, ghost e: Endpoint, ghost socks: Socks)
      returns (ghost now: Socks)
      requires Represents(e, socks) && PacketFits(e, p, w) && (w.Wrote? ==> w.n < TWO_32)
      modifies this, socks.Values, Queues(socks)
      ensures Represents(OnPacket(e, p, w, service).end, now)
      ensures sent == old(sent) + OnPacket(e, p, w, service).out
    {
      ghost var r := OnPacket(e, p, w, service);
      now := socks;
      match p.msg
      case Open(_) => now := HandleOpen(p, w, service, e, socks, r);
      case Okay(_) => HandleOkay(p, w, service, e, socks, r);
      case Wrte(_) => HandleWrite(p, w, service, e, socks, r);
      case Clse => HandleClose(p, w, service, e, socks, r);
      case Refuse =>
    }
  }
}
