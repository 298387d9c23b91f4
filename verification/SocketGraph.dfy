/** The graph of sockets and their peers, and how it is torn down. */
module SocketGraph {
  import opened Common

  datatype Kind = LocalSocket | RemoteSocket | SmartSocket

  class ASocket {
    const kind: Kind
    const id: nat
    var peer: ASocket?
    var transport: Option<nat>
    var closing: bool
    var hasWriteError: bool
    /** Bytes in the packet queue. */
    var queued: nat
    var writeOn: bool

    constructor (kind: Kind, id: nat, transport: Option<nat>)
      ensures this.kind == kind && this.id == id && this.transport == transport
      ensures peer == null && !closing && !hasWriteError && queued == 0 && !writeOn
    {
      this.kind, this.id, this.transport := kind, id, transport;
      peer, closing, hasWriteError, queued, writeOn := null, false, false, 0, false;
    }

    /** It has bytes that its descriptor can still take. */
    predicate FdFull()
      reads this
    {
      kind.LocalSocket? && !hasWriteError && queued != 0
    }

    /** It is open and owes its descriptor bytes. */
    predicate Owes()
      reads this
    {
      !closing && FdFull()
    }

    /** Bound to transport `t`, directly or through its peer. */
    predicate Related(t: nat)
      reads this, peer
    {
      transport == Some(t) || (peer != null && peer.transport == Some(t))
    }
  }

  // ---- Lists of sockets

  predicate Distinct(list: seq<ASocket>) {
    forall i, j :: 0 <= i < j < |list| ==> list[i] != list[j]
  }

  lemma {:induction false} WithoutHas(list: seq<ASocket>, gone: set<ASocket>)
    ensures forall x :: x in Without(list, gone) <==> x in list && x !in gone
    ensures |Without(list, gone)| <= |list|
    ensures (exists x :: x in list && x in gone) ==> |Without(list, gone)| < |list|
    ensures Distinct(list) ==> Distinct(Without(list, gone))
  {
    if list != [] {
      WithoutHas(list[1..], gone);
      assert list == [list[0]] + list[1..];
      assert Distinct(list) ==> Distinct(list[1..]) && list[0] !in list[1..];
    }
  }

  lemma {:induction false} WithoutTwice(list: seq<ASocket>, a: set<ASocket>, b: set<ASocket>)
    ensures Without(Without(list, a), b) == Without(list, a + b)
  {
    if list != [] {
      WithoutTwice(list[1..], a, b);
      if list[0] !in a {
        assert Without(list, a)[1..] == Without(list[1..], a);
      } else {
        assert Without(list, a) == Without(list[1..], a);
      }
    }
  }

  lemma {:induction false} WithoutNothing(list: seq<ASocket>, gone: set<ASocket>)
    requires forall x :: x in list ==> x !in gone
    ensures Without(list, gone) == list
  {
    if list != [] {
      WithoutNothing(list[1..], gone);
    }
  }

  lemma {:induction false} WithoutAppend(a: seq<ASocket>, b: seq<ASocket>, gone: set<ASocket>)
    ensures Without(a + b, gone) == Without(a, gone) + Without(b, gone)
  {
    if a == [] {
      assert a + b == b;
    } else {
      assert (a + b)[1..] == a[1..] + b;
      WithoutAppend(a[1..], b, gone);
    }
  }

  /** Taking a peer and then a socket off the lists, with the peer's deferral between. */
  lemma {:induction false} PairLists(live: seq<ASocket>, closing: seq<ASocket>, p: ASocket, s: ASocket, deferred: seq<ASocket>, last: seq<ASocket>)
    requires p != s && s !in deferred
    ensures Without(Without(live, {p}), {s}) == Without(live, {s, p})
    ensures Without(Without(closing, {p}) + deferred, {s}) + last == Without(closing, {s, p}) + (deferred + last)
  {
    WithoutTwice(live, {p}, {s});
    WithoutTwice(closing, {p}, {s});
    WithoutAppend(Without(closing, {p}), deferred, {s});
    WithoutNothing(deferred, {s});
    assert {p} + {s} == {s, p};
  }

  // ---- The A_CLSE packets of a teardown

  /** The A_CLSE that closing `s` with this peer sends: a local socket tells its remote peer. */
  function NoticeOf(s: ASocket, peer: ASocket?): seq<(nat, nat)> {
    if s.kind.LocalSocket? && peer != null && peer.kind.RemoteSocket? then [(s.id, peer.id)] else []
  }

  type Links = map<ASocket, (ASocket?, bool)>

  /** Those of the members of `list` that are in `related`, in the order of the list. */
  function Notices(list: seq<ASocket>, related: set<ASocket>, links: Links): seq<(nat, nat)>
    requires forall x :: x in list ==> x in links
  {
    if list == [] then []
    else (if list[0] in related then NoticeOf(list[0], links[list[0]].0) else []) + Notices(list[1..], related, links)
  }

  lemma {:induction false} NoNotices(list: seq<ASocket>, related: set<ASocket>, links: Links)
    requires forall x :: x in list ==> x in links && x !in related
    ensures Notices(list, related, links) == []
  {
    if list != [] {
      NoNotices(list[1..], related, links);
    }
  }

  lemma {:induction false} NoticesCons(x: ASocket, list: seq<ASocket>, related: set<ASocket>, links: Links)
    requires x in links && forall y :: y in list ==> y in links
    ensures Notices([x] + list, related, links) ==
            (if x in related then NoticeOf(x, links[x].0) else []) + Notices(list, related, links)
  {
    assert ([x] + list)[1..] == list;
  }

  /** Sockets that send no A_CLSE may leave the list. */
  lemma {:induction false} QuietLeave(list: seq<ASocket>, related: set<ASocket>, links: Links, gone: set<ASocket>)
    requires forall x :: x in list ==> x in links
    requires forall x :: x in list && x in gone ==> NoticeOf(x, links[x].0) == []
    ensures forall x :: x in Without(list, gone) ==> x in links
    ensures Notices(Without(list, gone), related, links) == Notices(list, related, links)
  {
    if list != [] {
      QuietLeave(list[1..], related, links, gone);
      if list[0] in gone {
        assert Without(list, gone) == Without(list[1..], gone);
      } else {
        NoticesCons(list[0], Without(list[1..], gone), related, links);
      }
    }
  }

  /** Closing the first related socket of a list, with its peer, sends the first notice. */
  lemma {:induction false} FirstLeaves(list: seq<ASocket>, i: nat, related: set<ASocket>, links: Links, gone: set<ASocket>)
    requires i < |list| && (forall x :: x in list ==> x in links) && list[i] !in list[i + 1..]
    requires list[i] in related && list[i] in gone && forall j :: 0 <= j < i ==> list[j] !in related
    requires forall x :: x in list && x in gone && x != list[i] ==> NoticeOf(x, links[x].0) == []
    ensures forall x :: x in Without(list, gone) ==> x in links
    ensures Notices(list, related, links) == NoticeOf(list[i], links[list[i]].0) + Notices(Without(list, gone), related, links)
  {
    var rest := list[1..];
    if i == 0 {
      QuietLeave(rest, related, links, gone);
      assert Without(list, gone) == Without(rest, gone);
    } else {
      assert list[i] == rest[i - 1] && rest[i..] == list[i + 1..];
      FirstLeaves(rest, i - 1, related, links, gone);
      UnrelatedFirst(list, related, links, gone);
    }
  }

  /** An unrelated socket at the front of a list sends nothing, whether it leaves or not. */
  lemma {:induction false} UnrelatedFirst(list: seq<ASocket>, related: set<ASocket>, links: Links, gone: set<ASocket>)
    requires list != [] && list[0] !in related && list[0] in links
    requires forall x :: x in Without(list[1..], gone) ==> x in links
    ensures forall x :: x in Without(list, gone) ==> x in links
    ensures Notices(Without(list, gone), related, links) == Notices(Without(list[1..], gone), related, links)
  {
    if list[0] in gone {
      assert Without(list, gone) == Without(list[1..], gone);
    } else {
      NoticesCons(list[0], Without(list[1..], gone), related, links);
    }
  }

  /** What the sockets and lists were at some point; `taken` are the live sockets of the
      transport and their peers. */
  datatype Before = Before(
    live: seq<ASocket>, closing: seq<ASocket>, closes: seq<(nat, nat)>, all: set<ASocket>,
    related: set<ASocket>, taken: set<ASocket>, owing: set<ASocket>, links: Links)
  {
    /** A live socket of the transport and its peer are what is taken. */
    ghost predicate TakesPairs() {
      && (forall x :: x in live ==> x in links)
      && (forall x :: x in live && x in related ==> x in taken && (links[x].0 != null ==> links[x].0 in taken))
      && (forall x :: x in taken ==> x in links && ((x in live && x in related) || MeetsTaken(x, links[x].0)))
    }

    /** `x` is the peer of a live socket of the transport. */
    ghost predicate MeetsTaken(x: ASocket, p: ASocket?) {
      p != null && p in live && p in related && p in links && links[p].0 == x
    }

    /** `gone` come in pairs and stay in `all` only while they owe bytes; what was sent and
        what the live list has yet to send are what it had to send at the start. */
    ghost predicate Counts(gone: set<ASocket>, now: seq<ASocket>, left: set<ASocket>, sent: seq<(nat, nat)>) {
      && TakesPairs() && gone <= taken
      && (forall x :: x in all ==> (x in left <==> x !in gone || x in owing))
      && (forall x :: x in gone && x in links && links[x].0 != null ==> links[x].0 in gone)
      && (forall x :: x in now ==> x in links)
      && closes + Notices(live, related, links) == sent + Notices(now, related, links)
    }

    /** One more pair. */
    lemma {:induction false} CountsPair(s: ASocket, peer: ASocket?, group: set<ASocket>, gone: set<ASocket>,
                     now: seq<ASocket>, left: set<ASocket>, sent: seq<(nat, nat)>, now': seq<ASocket>, left': set<ASocket>)
      requires Counts(gone, now, left, sent) && s in live && s in related && links[s].0 == peer
      requires group == (if peer == null then {s} else {s, peer}) && left <= all && left' <= left
      requires peer != null ==> peer in links && links[peer].0 == s
      requires forall x :: x in left ==> (x in left' <==> x !in group || x in owing)
      requires forall x :: x in now' ==> x in links
      requires Notices(now, related, links) == NoticeOf(s, peer) + Notices(now', related, links)
      ensures Counts(gone + group, now', left', sent + NoticeOf(s, peer))
    {
      Associative(sent, NoticeOf(s, peer), Notices(now', related, links));
    }

    /** When no related socket is left live, all that is taken is gone. */
    lemma {:induction false} AllGone(gone: set<ASocket>, now: seq<ASocket>, left: set<ASocket>, sent: seq<(nat, nat)>)
      requires Counts(gone, now, left, sent) && now == Without(live, gone)
      requires forall x :: x in now ==> x !in related
      ensures gone == taken && sent == closes + Notices(live, related, links)
    {
      WithoutHas(live, gone);
      NoNotices(now, related, links);
      forall x | x in taken ensures x in gone {
        if x !in live || x !in related {
          var p := links[x].0;
          assert MeetsTaken(x, p);
          assert p in gone && links[p].0 != null;
        }
      }
    }
  }

  class SocketTable {
    var live: seq<ASocket>
    var closingList: seq<ASocket>
    /** The (local, remote) ids of the A_CLSE packets sent. */
    var closes: seq<(nat, nat)>
    /** Every socket that has not been deleted. */
    ghost var all: set<ASocket>

    /** A local socket is on the live list until it closes, then on the closing list, with
        no peer, while it owes bytes; queued bytes come with write interest. */
    ghost predicate Placed(s: ASocket)
      reads this, s
    {
      && (s in live <==> s.kind.LocalSocket? && !s.closing)
      && (s in closingList <==> s.closing)
      && (s.closing ==> s.kind.LocalSocket? && s.peer == null)
      && (s.FdFull() ==> s.writeOn)
    }

    ghost predicate ListsOk()
      reads this, all
    {
      && Distinct(live) && Distinct(closingList)
      && (forall s :: s in live ==> s in all) && (forall s :: s in closingList ==> s in all)
      && (forall s :: s in all ==> Placed(s))
    }

    /** Peer links are symmetric, except that `half`, if any, still points at a peer
        that no longer points back. */
    ghost predicate LinksOk(half: ASocket?)
      reads this, all
    {
      forall s :: s in all && s != half && s.peer != null ==>
        s.peer in all && s.peer != s && s.peer != half && s.peer.peer == s
    }

    ghost predicate Valid()
      reads this, all
    {
      ListsOk() && LinksOk(null)
    }

    constructor ()
      ensures Valid() && live == [] && closingList == [] && closes == [] && all == {}
    {
      live, closingList, closes, all := [], [], [], {};
    }

    /** `install_local_socket`, `create_remote_socket` or `create_smart_socket`. */
    method Create(kind: Kind, id: nat, transport: Option<nat>) returns (s: ASocket)
      requires Valid()
      modifies this
      ensures Valid() && fresh(s) && all == old(all) + {s} && s.kind == kind && s.id == id && s.transport == transport
      ensures s.peer == null && closingList == old(closingList) && closes == old(closes)
      ensures live == old(live) + if kind.LocalSocket? then [s] else []
    {
      s := new ASocket(kind, id, transport);
      all := all + {s};
      if kind.LocalSocket? {
        live := live + [s];
      }
    }

    /** Makes two sockets each other's peer, as A_OPEN, the first A_OKAY and
        `connect_to_smartsocket` do. */
    method Connect(s: ASocket, p: ASocket)
      requires Valid() && s in all && p in all && s != p && s.peer == null && p.peer == null && !s.closing && !p.closing
      modifies s`peer, p`peer
      ensures Valid() && s.peer == p && p.peer == s
    {
      s.peer := p;
      p.peer := s;
    }

    /** A smart socket that has found a host service hands its peer over to it; the smart
        socket, now without a peer, is closed next. */
    method HandOver(smart: ASocket, service: ASocket)
      requires Valid() && smart in all && service in all && smart != service
      requires smart.peer != null && service.peer == null && !service.closing
      modifies smart`peer, service`peer, smart.peer`peer
      ensures Valid() && smart.peer == null && service.peer == old(smart.peer) && service.peer.peer == service
    {
      smart.peer.peer := service;
      service.peer := smart.peer;
      smart.peer := null;
    }

    /** A smart socket that has found a device lets its peer go: neither has a peer then, and
        the former peer has the smart socket's transport. */
    method Detach(smart: ASocket)
      requires Valid() && smart in all && smart.peer != null
      modifies smart`peer, smart.peer`peer, smart.peer`transport
      ensures Valid() && smart.peer == null && old(smart.peer).peer == null
      ensures old(smart.peer).transport == smart.transport == old(smart.transport)
    {
      var p := smart.peer;
      p.peer := null;
      p.transport := smart.transport;
      smart.peer := null;
    }

    // ---- Writing to the descriptor

    /** One `writev` of the queue takes `n` bytes or fails; write interest follows. */
    method WriteOut(s: ASocket, n: nat, failed: bool)
      requires s.kind.LocalSocket? && n <= s.queued
      modifies s`queued, s`hasWriteError, s`writeOn
      ensures s.queued == old(s.queued) - n && (s.hasWriteError <==> old(s.hasWriteError) || (failed && old(s.queued) != 0))
      ensures s.writeOn == s.FdFull()
    {
      if s.queued != 0 {
        s.queued := s.queued - n;
        if failed {
          s.hasWriteError := true;
        }
      }
      s.writeOn := s.queued != 0 && !s.hasWriteError;
    }

    /** `local_socket_enqueue`: what the descriptor does not take at once stays queued, with
        write interest. */
    method Enqueue(s: ASocket, bytes: nat, n: nat, failed: bool)
      requires Valid() && s in live && n <= s.queued + bytes
      modifies s`queued, s`hasWriteError, s`writeOn
      ensures Valid() && s.queued == old(s.queued) + bytes - n
      ensures s.hasWriteError <==> old(s.hasWriteError) || (failed && old(s.queued) + bytes != 0)
      ensures s.Owes() <==> s.queued != 0 && !s.hasWriteError
      ensures s.writeOn == s.Owes()
    {
      assert s in all && Placed(s);
      s.queued := s.queued + bytes;
      WriteOut(s, n, failed);
    }

    /** `local_socket_flush_incoming`: a closing socket goes away with its last byte, or when
        its descriptor fails; until then it keeps write interest. */
    method Flush(s: ASocket, n: nat, failed: bool) returns (destroyed: bool)
      requires Valid() && s in all && s.kind.LocalSocket? && n <= s.queued
      modifies this, s`queued, s`hasWriteError, s`writeOn, s`closing
      ensures Valid() && s.queued == old(s.queued) - n && closes == old(closes)
      ensures s.hasWriteError <==> old(s.hasWriteError) || (failed && old(s.queued) != 0)
      ensures destroyed <==> old(s.closing) && (s.queued == 0 || s.hasWriteError)
      ensures all == if destroyed then old(all) - {s} else old(all)
      ensures live == old(live) && closingList == if destroyed then Without(old(closingList), {s}) else old(closingList)
      ensures !destroyed ==> s.closing == old(s.closing) && s.writeOn == s.FdFull()
    {
      assert Placed(s);
      WriteOut(s, n, failed);
      destroyed := s.closing && !s.FdFull();
      if destroyed {
        WithoutNothing(live, {s});
        CloseAlone(s, null);
      }
    }

    method RemoveSocket(s: ASocket)
      modifies this
      ensures live == Without(old(live), {s}) && closingList == Without(old(closingList), {s})
      ensures forall x :: x in live <==> x in old(live) && x != s
      ensures forall x :: x in closingList <==> x in old(closingList) && x != s
      ensures (old(Distinct(live)) ==> Distinct(live)) && (old(Distinct(closingList)) ==> Distinct(closingList))
      ensures all == old(all) && closes == old(closes)
    {
      WithoutHas(live, {s});
      WithoutHas(closingList, {s});
      live := Without(live, {s});
      closingList := Without(closingList, {s});
      assert forall x :: x in live <==> x in old(live) && x !in {s};
      assert forall x :: x in closingList <==> x in old(closingList) && x !in {s};
    }

    /** `local_socket_destroy`. */
    method Destroy(s: ASocket, ghost half: ASocket?)
      requires ListsOk() && LinksOk(half) && s in all && s != half && s.peer == null
      modifies this
      ensures ListsOk() && LinksOk(half) && closes == old(closes) && all == old(all) - {s}
      ensures live == Without(old(live), {s}) && closingList == Without(old(closingList), {s})
    {
      RemoveSocket(s);
      all := all - {s};
    }

    /** Puts a socket that owes bytes on the closing list. */
    method Defer(s: ASocket, ghost half: ASocket?)
      requires ListsOk() && LinksOk(half) && s in all && s != half && s.peer == null && s.Owes()
      modifies this, s`closing
      ensures ListsOk() && LinksOk(half) && closes == old(closes) && all == old(all) && s.closing && s.writeOn
      ensures live == Without(old(live), {s}) && closingList == Without(old(closingList), {s}) + [s]
    {
      assert Placed(s);
      s.closing := true;
      RemoveSocket(s);
      closingList := closingList + [s];
    }

    /** What `local_socket_close` does once the socket has no peer: destroy it, or keep it
        on the closing list until its queue is written.  The check that it then has write
        interest holds. */
    method FinishLocal(s: ASocket, ghost half: ASocket?)
      requires ListsOk() && LinksOk(half) && s in all && s != half && s.kind.LocalSocket? && s.peer == null
      modifies this, s`closing
      ensures ListsOk() && LinksOk(half) && closes == old(closes)
      ensures live == Without(old(live), {s})
      ensures closingList == Without(old(closingList), {s}) + if old(s.Owes()) then [s] else []
      ensures all == (if old(s.Owes()) then old(all) else old(all) - {s}) && (old(s.Owes()) ==> s.closing)
    {
      if s.closing || s.hasWriteError || s.queued == 0 {
        Destroy(s, half);
      } else {
        Defer(s, half);
        assert s.writeOn;
      }
    }

    /** The sockets that closing `s` takes down. */
    ghost function Group(s: ASocket): set<ASocket>
      reads s
    {
      if s.peer == null then {s} else {s, s.peer}
    }

    /** Those of them that join the closing list, in order: the peer first. */
    ghost function Deferred(s: ASocket): seq<ASocket>
      reads s, s.peer
    {
      (if s.peer != null && s.peer.Owes() then [s.peer] else []) + if s.Owes() then [s] else []
    }

    /** Those that are deleted. */
    ghost function Deleted(s: ASocket): set<ASocket>
      reads s, s.peer
    {
      (if s.peer == null || s.peer.Owes() then {} else {s.peer}) + if s.Owes() then {} else {s}
    }

    /** Closing `s` took down `s` and its peer, deferred those that owe bytes, and
        touched nothing else. */
    twostate predicate TornDown(s: ASocket, was: set<ASocket>)
      requires was == old(all)
      reads this, was
    {
      && all == was - old(Deleted(s))
      && live == Without(old(live), old(Group(s)))
      && closingList == Without(old(closingList), old(Group(s))) + old(Deferred(s))
      && closes == old(closes) + NoticeOf(s, old(s.peer))
      && (forall x :: x in old(Deferred(s)) ==> x in was && x.closing && x.peer == null)
    }

    /** `s->close(s)`; when `half` is closing it, `s` has lost its peer already. */
    method Close(s: ASocket, ghost half: ASocket?)
      requires ListsOk() && LinksOk(half) && s in all && s != half && (half != null ==> s.peer == null)
      modifies this, Group(s)`peer, Group(s)`closing
      ensures ListsOk() && LinksOk(half) && TornDown(s, old(all))
      decreases if s.peer == null then 0 else 1, 3
    {
      if s.peer == null {
        assert {} + {s} == {s};
        CloseAlone(s, half);
      } else {
        ClosePair(s, s.peer);
      }
    }

    /** Closing a socket that has a peer, by kind. */
    method ClosePair(s: ASocket, p: ASocket)
      requires ListsOk() && LinksOk(null) && s in all && s.peer == p
      modifies this, s`peer, p`peer, s`closing, p`closing
      ensures ListsOk() && LinksOk(null) && TornDown(s, old(all))
      decreases 1, 2
    {
      PairLists(live, closingList, p, s, if p.Owes() then [p] else [], if s.Owes() then [s] else []);
      match s.kind {
        case LocalSocket => CloseLocal(s, p);
        case RemoteSocket => CloseOther(s, p);
        case SmartSocket => CloseOther(s, p);
      }
    }

    /** Closing a socket that has no peer. */
    method CloseAlone(s: ASocket, ghost half: ASocket?)
      requires ListsOk() && LinksOk(half) && s in all && s != half && s.peer == null
      modifies this, s`closing
      ensures ListsOk() && LinksOk(half) && closes == old(closes)
      ensures all == (if old(s.Owes()) then old(all) else old(all) - {s}) && (old(s.Owes()) ==> s.closing)
      ensures live == Without(old(live), {s})
      ensures closingList == Without(old(closingList), {s}) + if old(s.Owes()) then [s] else []
    {
      if s.kind.LocalSocket? {
        FinishLocal(s, half);
      } else {
        WithoutNothing(live, {s});
        WithoutNothing(closingList, {s});
        all := all - {s};
      }
    }

    /** `remote_socket_shutdown`. */
    method Shutdown(p: ASocket)
      requires p.peer != null
      modifies this`closes
      ensures closes == old(closes) + [(p.peer.id, p.id)]
    {
      closes := closes + [(p.peer.id, p.id)];
    }

    /** Cuts `s` loose from its peer and closes the peer. */
    method ClosePeer(s: ASocket, p: ASocket)
      requires ListsOk() && LinksOk(null) && s in all && s.peer == p
      modifies this, s`peer, p`peer, p`closing
      ensures ListsOk() && LinksOk(null) && s in all && s.peer == null && closes == old(closes)
      ensures all == (if old(p.Owes()) then old(all) else old(all) - {p}) && (old(p.Owes()) ==> p.closing && p.peer == null)
      ensures live == Without(old(live), {p})
      ensures closingList == Without(old(closingList), {p}) + if old(p.Owes()) then [p] else []
      decreases 1, 0
    {
      p.peer := null;
      Close(p, s);
      s.peer := null;
    }

    /** What closing a socket after its peer leaves behind. */
    twostate predicate PairDown(s: ASocket, p: ASocket)
      reads this, s, p
    {
      && all == old(all) - (if old(p.Owes()) then {} else {p}) - (if old(s.Owes()) then {} else {s})
      && live == Without(Without(old(live), {p}), {s})
      && closingList == Without(Without(old(closingList), {p}) + (if old(p.Owes()) then [p] else []), {s}) + (if old(s.Owes()) then [s] else [])
      && s.peer == null && (old(p.Owes()) ==> p.closing && p.peer == null) && (old(s.Owes()) ==> s.closing)
    }

    /** `local_socket_close`. */
    method CloseLocal(s: ASocket, p: ASocket)
      requires ListsOk() && LinksOk(null) && s in all && s.peer == p && s.kind.LocalSocket?
      modifies this, s`peer, p`peer, s`closing, p`closing
      ensures ListsOk() && LinksOk(null) && PairDown(s, p)
      ensures closes == old(closes) + if p.kind.RemoteSocket? then [(s.id, p.id)] else []
      decreases 1, 1
    {
      if p.kind.RemoteSocket? {
        Shutdown(p);
      }
      ClosePeer(s, p);
      assert s.Owes() == old(s.Owes());
      FinishLocal(s, null);
    }

    /** `remote_socket_close` and `smart_socket_close`. */
    method CloseOther(s: ASocket, p: ASocket)
      requires ListsOk() && LinksOk(null) && s in all && s.peer == p && !s.kind.LocalSocket?
      modifies this, s`peer, p`peer, s`closing, p`closing
      ensures ListsOk() && LinksOk(null) && PairDown(s, p) && closes == old(closes)
      decreases 1, 1
    {
      ClosePeer(s, p);
      CloseAlone(s, null);
    }

    // ---- close_all_sockets

    ghost function RelatedTo(t: nat): set<ASocket>
      requires Valid()
      reads this, all
    {
      set s | s in all && s.Related(t)
    }

    /** The live sockets of transport `t` and their peers. */
    ghost function Taken(t: nat): set<ASocket>
      requires Valid()
      reads this, all
    {
      set s | s in all && ((s in live && s.Related(t)) || (s.peer != null && s.peer in live && s.peer.Related(t)))
    }

    ghost function LinksNow(): Links
      reads this, all
    {
      map s | s in all :: (s.peer, s.closing)
    }

    /** The scan of the live list: the first socket bound to `t`, if there is one. */
    method FirstRelated(t: nat) returns (i: nat)
      requires Valid()
      ensures i <= |live| && forall j :: 0 <= j < i ==> !live[j].Related(t)
      ensures i < |live| ==> live[i].Related(t)
    {
      i := 0;
      while i < |live|
        invariant i <= |live| && forall j :: 0 <= j < i ==> !live[j].Related(t)
      {
        if live[i].Related(t) {
          return;
        }
        i := i + 1;
      }
    }

    /** The state when the teardown began. */
    ghost function Now(t: nat): Before
      requires Valid()
      reads this, all
    {
      Before(live, closingList, closes, all, RelatedTo(t), Taken(t), (set s | s in all && s.Owes()), LinksNow())
    }

    /** Progress of the teardown of transport `t` since `z`: `gone` are the sockets taken
        down so far; all others are as they were. */
    ghost predicate Progress(t: nat, z: Before, gone: set<ASocket>)
      reads this, all, z.all
    {
      && Valid()
      && gone <= z.related && z.related <= z.all && z.all == z.links.Keys && all <= z.all
      && live == Without(z.live, gone)
      && (forall x :: x in z.all && x !in gone ==>
            && x in all && (x.peer, x.closing) == z.links[x]
            && (x in z.owing <==> x.Owes()) && (x in z.related <==> x.Related(t)))
      && (forall x :: x in gone && x in all ==> x.peer == null)
      && z.closing <= closingList
      && (forall x :: x in closingList ==> x in z.closing || (x in gone && x in z.owing))
      && (forall x :: x in gone && x in z.owing ==> x in closingList)
    }

    ghost predicate Counted(z: Before, gone: set<ASocket>)
      reads `live, `closes, `all
    {
      z.Counts(gone, live, all, closes)
    }

    /** Closes the socket the scan found. */
    method CloseFound(s: ASocket, ghost t: nat, ghost group: set<ASocket>)
      requires Valid() && s in live && group == Group(s)
      modifies this, all`peer, all`closing
      ensures Valid() && all <= old(all)
      ensures forall x :: x in old(all) ==> (x in all <==> x !in group || old(x.Owes()))
      ensures live == Without(old(live), group) && closes == old(closes) + NoticeOf(s, old(s.peer))
      ensures forall x :: x in old(all) && x !in group ==> x in all && x.peer == old(x.peer) && x.closing == old(x.closing)
      ensures forall x :: x in old(all) && x !in group ==> x.Owes() == old(x.Owes()) && x.Related(t) == old(x.Related(t))
      ensures forall x :: x in group && x in all ==> x.peer == null
      ensures old(closingList) <= closingList
      ensures forall x :: x in closingList ==> x in old(closingList) || (x in group && old(x.Owes()))
      ensures forall x :: x in group && old(x.Owes()) ==> x in closingList
    {
      assert Placed(s) && (s.peer != null ==> Placed(s.peer));
      WithoutNothing(closingList, group);
      ghost var deferred := Deferred(s);
      assert forall x :: x in group && x.Owes() ==> x in deferred;
      Close(s, null);
    }

    /** The notice of the first related socket is the next to send. */
    lemma {:induction false} NextNotice(i: nat, t: nat, z: Before, gone: set<ASocket>)
      requires Progress(t, z, gone) && Counted(z, gone) && i < |live| && live[i].Related(t)
      requires forall j :: 0 <= j < i ==> !live[j].Related(t)
      ensures forall x :: x in Without(live, Group(live[i])) ==> x in z.links
      ensures Notices(live, z.related, z.links) ==
              NoticeOf(live[i], live[i].peer) + Notices(Without(live, Group(live[i])), z.related, z.links)
    {
      WithoutHas(z.live, gone);
      forall j | 0 <= j < |live| ensures live[j] in z.related <==> live[j].Related(t) {
        assert live[j] in live;
      }
      var s := live[i];
      assert Placed(s) && s in live;
      FirstLeaves(live, i, z.related, z.links, Group(s));
    }

    /** The socket found and its peer are taken down. */
    method TakeDown(s: ASocket, t: nat, ghost z: Before, ghost gone: set<ASocket>, ghost group: set<ASocket>)
      requires Progress(t, z, gone) && s in live && s.Related(t) && group == Group(s)
      modifies this, all`peer, all`closing
      ensures Progress(t, z, gone + group) && all <= old(all) && |live| < |old(live)|
      ensures forall x :: x in old(all) ==> (x in all <==> x !in group || x in z.owing)
      ensures live == Without(old(live), group) && closes == old(closes) + NoticeOf(s, old(s.peer))
    {
      WithoutHas(z.live, gone);
      assert group <= z.related;
      WithoutTwice(z.live, gone, group);
      WithoutHas(live, group);
      CloseFound(s, t, group);
    }

    /** One round: the pair joins those that are gone. */
    method CloseRound(i: nat, t: nat, ghost z: Before, ghost gone: set<ASocket>) returns (ghost gone': set<ASocket>)
      requires Progress(t, z, gone) && Counted(z, gone) && i < |live| && live[i].Related(t)
      requires forall j :: 0 <= j < i ==> !live[j].Related(t)
      modifies this, all`peer, all`closing
      ensures Progress(t, z, gone') && Counted(z, gone') && all <= old(all) && |live| < |old(live)|
    {
      var s := live[i];
      ghost var group := Group(s);
      gone' := gone + group;
      NextNotice(i, t, z, gone);
      ghost var before, left, sent, peer := live, all, closes, s.peer;
      WithoutHas(z.live, gone);
      assert s in z.live && z.links[s].0 == peer && (peer != null ==> z.links[peer].0 == s);
      TakeDown(s, t, z, gone, group);
      z.CountsPair(s, peer, group, gone, before, left, sent, live, all);
    }

    lemma {:induction false} NothingGoneYet(t: nat)
      requires Valid()
      ensures Progress(t, Now(t), {}) && Counted(Now(t), {})
    {
      WithoutNothing(live, {});
    }

    /** One scan, and the close it leads to. */
    method Scan(t: nat, ghost z: Before, ghost gone: set<ASocket>) returns (again: bool, ghost gone': set<ASocket>)
      requires Progress(t, z, gone) && Counted(z, gone)
      modifies this, all`peer, all`closing
      ensures Progress(t, z, gone') && Counted(z, gone') && all <= old(all)
      ensures if again then |live| < |old(live)| else forall x :: x in live ==> !x.Related(t)
    {
      var i := FirstRelated(t);
      again, gone' := i < |live|, gone;
      if again {
        gone' := CloseRound(i, t, z, gone);
      }
    }

    /** The restart loop: every round shortens the live list. */
    method CloseRelated(t: nat, ghost z: Before) returns (ghost gone: set<ASocket>)
      requires Valid() && z == Now(t)
      modifies this, all`peer, all`closing
      ensures Progress(t, z, gone) && Counted(z, gone) && forall x :: x in live ==> !x.Related(t)
    {
      gone := {};
      NothingGoneYet(t);
      var again := true;
      while again
        invariant Progress(t, z, gone) && Counted(z, gone) && all <= old(all)
        invariant !again ==> forall x :: x in live ==> !x.Related(t)
        decreases again, |live|
      {
        again, gone := Scan(t, z, gone);
      }
    }

    /** `close_all_sockets`: closing a socket changes the list, so the scan starts over.
        It leaves no live socket bound to `t` directly or through its peer, takes exactly
        those off the live list, loses no bytes a socket still owes, tells every remote peer
        once, and touches nothing unrelated. */
    method CloseAllSockets(t: nat)
      requires Valid()
      modifies this, all`peer, all`closing
      ensures Valid()
      ensures live == Without(old(live), old(RelatedTo(t)))
      ensures forall x :: x in live ==> !x.Related(t)
      ensures forall x :: x in old(all) ==> (x in all <==> x !in old(Taken(t)) || old(x.Owes()))
      ensures forall x :: x in old(live) ==> x in old(LinksNow())
      ensures closes == old(closes) + Notices(old(live), old(RelatedTo(t)), old(LinksNow()))
      ensures forall x :: x in old(all) && !old(x.Related(t)) ==> x in all && x.peer == old(x.peer) && x.closing == old(x.closing)
      ensures old(closingList) <= closingList
      ensures forall x :: x in closingList ==> x in old(closingList) || (x in old(all) && old(x.Related(t)) && old(x.Owes()))
      ensures forall x :: x in old(live) && old(x.Related(t)) && old(x.Owes()) ==> x in closingList
    {
      ghost var z := Now(t);
      ghost var gone := CloseRelated(t, z);
      WithoutHas(z.live, gone);
      z.AllGone(gone, live, all, closes);
      WithoutTwice(z.live, gone, z.related);
      WithoutNothing(live, z.related);
      assert gone + z.related == z.related;
    }
  }
}
