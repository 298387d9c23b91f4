/** How a stream ends: nothing is sent after a CLSE, so a receiver that does not end the
    stream itself gets everything. */
module StreamEndings {
  import opened Common
  import opened StreamSocket
  import opened StreamProtocol
  import opened StreamInvariants

  /** No data follows a CLSE. */
  ghost predicate Tidy(ch: seq<Msg>) {
    forall i, j :: 0 <= i < j < |ch| && ch[i].Clse? ==> !ch[j].Wrte?
  }

  ghost predicate HasClse(ch: seq<Msg>) {
    exists i :: 0 <= i < |ch| && ch[i].Clse?
  }

  ghost predicate NoWrte(ch: seq<Msg>) {
    forall i :: 0 <= i < |ch| ==> !ch[i].Wrte?
  }

  lemma {:induction false} NoWrteNoData(ch: seq<Msg>, n: nat)
    requires n <= |ch| && NoWrte(ch)
    ensures Data(ch, n) == []
  {
    if n > 0 {
      NoWrteNoData(ch, n - 1);
    }
  }

  /** What a handler sends: data only from a connected socket, a CLSE only on leaving the
      live list or after that, and no data after it. */
  ghost predicate SendsTidily(s: Sock, o: Outcome) {
    && Tidy(o.out)
    && (!NoWrte(o.out) ==> s.hasPeer)
    && (HasClse(o.out) ==> !o.sock.status.Live?)
    && (o.sock.status.Live? ==> s.status.Live?)
  }

  lemma {:induction false} FlushIsTidy(cfg: Config, s: Sock, w: WriteResult)
    requires WriteFits(s.queue, w) && Exists(s)
    ensures SendsTidily(s, Flush(cfg, s, w)) && NoWrte(Flush(cfg, s, w).out)
    ensures s.status.Live? ==> Flush(cfg, s, w).sock.status.Live?
  {
  }

  lemma {:induction false} ReadIsTidy(s: Sock, data: seq<byte>, eof: bool)
    requires Exists(s)
    ensures SendsTidily(s, Read(s, data, eof))
    ensures !eof ==> Read(s, data, eof).sock.status == s.status
  {
  }

  /** A socket leaves the live list on a packet only if that is a CLSE, or a refusal. */
  lemma {:induction false} HandleIsTidy(cfg: Config, s: Sock, m: Msg, w: WriteResult, service: bool)
    requires m.Wrte? && s.status.Live? && s.hasPeer ==> WriteFits(s.queue + m.data, w)
    requires !s.status.Idle? && !m.Open?
    ensures var o := Handle(cfg, s, m, w, service);
      && SendsTidily(s, o) && NoWrte(o.out)
      && (s.status.Live? && !o.sock.status.Live? ==> m.Clse? || m.Refuse?)
  {
    if m.Wrte? && s.status.Live? && s.hasPeer {
      FlushIsTidy(cfg, s.(queue := s.queue + m.data), w);
    }
  }

  /** A step in which `x` meets the end of its own descriptor. */
  predicate Ends(t: Step, x: Side) {
    (t.Readable? || t.Hangup?) && t.x == x && t.eof
  }

  /** Side `x` has sent no data after a CLSE, and once it has sent one it is not live. */
  ghost predicate Closed(p: Pair, x: Side) {
    && Tidy(p.Into(x.Other()))
    && (HasClse(p.Into(x.Other())) ==> !p.At(x).status.Live?)
  }

  /** Both ends have left the live list, and the receiver `r` has everything. */
  ghost predicate Over(s: Sock, r: Sock, ch: seq<Msg>) {
    !s.status.Live? && s.sent == r.written + r.queue && NoWrte(ch)
  }

  /** The receiver of side `x` has not ended the stream itself: once it has left the live
      list, so has its sender, and it has everything. */
  ghost predicate Drained(p: Pair, x: Side) {
    var r := p.At(x.Other());
    !r.status.Live? && !r.status.Idle? ==>
      Over(p.At(x), r, p.Into(x.Other())) && (p.acceptor.status.Idle? ==> p.toAcceptor == [])
  }

  lemma {:induction false} SenderStaysOver(s: Sock, r: Sock, ch: seq<Msg>, input: Load, o: Outcome)
    requires Over(s, r, ch) && SendsTidily(s, o) && KeepsBytes(s, input, o.sock, LoadOf(o.out)) && (s.hasPeer ==> s.status.Live?)
    ensures Over(o.sock, r, ch + o.out)
  {
    NoWrteNoData(o.out, |o.out|);
  }

  lemma {:induction false} ReceiverStaysOver(s: Sock, r: Sock, ch: seq<Msg>, rest: seq<Msg>, input: Load, t: Sock, out: Load)
    requires Over(s, r, ch) && KeepsBytes(r, input, t, out) && !t.status.Live? && (rest == ch || (ch != [] && rest == ch[1..]))
    ensures Over(s, t, rest)
  {
  }

  /** The CLSE of a sender that is not live: what its receiver has taken by then is all. */
  lemma {:induction false} ClseEnds(s: Sock, r: Sock, ch: seq<Msg>, t: Sock, out: Load)
    requires ch != [] && Tidy(ch) && ch[0].Clse? && !s.status.Live?
    requires Integrity(s, r, LoadOf(ch)) && r.status.Live? && KeepsBytes(r, LoadOf1(ch[0]), t, out) && !t.status.Live?
    ensures Over(s, t, ch[1..])
  {
    LoadHead(ch);
    NoWrteNoData(ch[1..], |ch| - 1);
  }

  // ---- Every step

  lemma {:induction false} StepIsTidy(p: Stream, t: Step)
    requires Enabled(p, t) && !Creates(p, t)
    ensures SendsTidily(p.At(t.x), Result(p, t))
  {
    match t
    case Readable(x, data, eof) => ReadIsTidy(p.At(x), data, eof);
    case Hangup(x, data, eof) => ReadIsTidy(p.At(x), data, eof);
    case Writable(x, w) => FlushIsTidy(p.Cfg(x), p.At(x), w);
    case Deliver(x, w, service) =>
      DeliverMoves(p, x, w, service);
      HandleIsTidy(p.Cfg(x), p.At(x), p.Into(x)[0], w, service);
  }

  lemma {:induction false} CreateIsTidy(p: Stream, t: Step, x: Side)
    requires Enabled(p, t) && Creates(p, t)
    ensures Closed(Apply(p, t), x)
  {
    var q := Apply(p, t);
    if t.Start? {
      assert q.toAcceptor == [OpenMsg(p.c)];
    } else {
      assert q.toAcceptor == [];
      assert q.toOpener == [Refuse] || q.toOpener == [GrantMsg(p.c)];
    }
  }

  lemma {:induction false} TidyAppend(ch: seq<Msg>, s: Sock, o: Outcome)
    requires Tidy(ch) && SendsTidily(s, o) && (HasClse(ch) ==> NoWrte(o.out))
    ensures Tidy(ch + o.out)
    ensures HasClse(ch + o.out) ==> HasClse(ch) || HasClse(o.out)
  {
    var all := ch + o.out;
    forall i, j | 0 <= i < j < |all| && all[i].Clse?
      ensures !all[j].Wrte?
    {
      if |ch| <= i {
        assert o.out[i - |ch|].Clse? && all[j] == o.out[j - |ch|];
      } else if |ch| <= j {
        assert HasClse(ch) && all[j] == o.out[j - |ch|];
      }
    }
    if i :| 0 <= i < |all| && all[i].Clse? {
      assert i < |ch| || o.out[i - |ch|].Clse?;
    }
  }

  lemma {:induction false} StepStaysClosed(p: Stream, t: Step, x: Side)
    requires Closed(p, x)
    ensures Closed(Apply(p, t), x)
  {
    if !Enabled(p, t) {
    } else if Creates(p, t) {
      CreateIsTidy(p, t, x);
    } else if t.x == x {
      StepIsTidy(p, t);
      TidyAppend(p.Into(x.Other()), p.At(x), Result(p, t));
    }
  }

  /** A refusal can only come while there is no acceptor. */
  lemma {:induction false} RefusalIsAlone(p: Stream, x: Side)
    requires !p.At(x).status.Idle? && p.Into(x) != [] && p.Into(x)[0].Refuse?
    ensures p.acceptor.status.Idle? && x.Opener? && p.toAcceptor == [] && p.toOpener == [Refuse] && Untouched(p.opener)
  {
    LoadHead(p.Into(x));
  }

  lemma {:induction false} RefusalDrains(p: Stream, t: Step)
    requires Enabled(p, t) && t.Deliver? && !p.At(t.x).status.Idle? && p.Into(t.x)[0].Refuse?
    ensures Drained(Apply(p, t), t.x.Other())
  {
    RefusalIsAlone(p, t.x);
  }

  /** A receiver that leaves the live list on a packet leaves an empty lane behind. */
  lemma {:induction false} DeliveryDrains(p: Stream, t: Step, x: Side)
    requires Closed(p, x) && IntegrityBothWays(p) && Enabled(p, t) && !Creates(p, t) && t.x == x.Other() && t.Deliver?
    requires p.At(t.x).status.Live? && !Result(p, t).sock.status.Live?
    ensures Drained(Apply(p, t), x)
  {
    var o, m := Result(p, t), p.Into(t.x)[0];
    DeliverMoves(p, t.x, t.w, t.service);
    HandleIsTidy(p.Cfg(t.x), p.At(t.x), m, t.w, t.service);
    if m.Refuse? {
      RefusalDrains(p, t);
    } else {
      assert HasClse(p.Into(t.x));
      LoadHead(p.Into(t.x));
      assert !p.acceptor.status.Idle?;
      ClseEnds(p.At(x), p.At(t.x), p.Into(t.x), o.sock, LoadOf(o.out));
    }
  }

  lemma {:induction false} ReceiverDrains(p: Stream, t: Step, x: Side)
    requires Closed(p, x) && IntegrityBothWays(p) && Enabled(p, t) && !Creates(p, t) && t.x == x.Other() && !Ends(t, t.x)
    requires p.At(t.x).status.Live?
    ensures Drained(Apply(p, t), x)
  {
    match t
    case Readable(y, data, eof) => ReadIsTidy(p.At(y), data, eof);
    case Hangup(y, data, eof) => ReadIsTidy(p.At(y), data, eof);
    case Writable(y, w) => FlushIsTidy(p.Cfg(y), p.At(y), w);
    case Deliver(_, _, _) =>
      if !Result(p, t).sock.status.Live? {
        DeliveryDrains(p, t, x);
      }
  }

  /** Nothing more happens to the data once both ends have left the live list. */
  lemma {:induction false} DrainedStays(p: Stream, t: Step, x: Side)
    requires Drained(p, x) && Enabled(p, t) && !Creates(p, t)
    requires !p.At(x.Other()).status.Live? && !p.At(x.Other()).status.Idle?
    ensures Drained(Apply(p, t), x)
  {
    var s, r, ch, o := p.At(x), p.At(x.Other()), p.Into(x.Other()), Result(p, t);
    StepMoves(p, t);
    if t.x == x {
      StepIsTidy(p, t);
      SenderStaysOver(s, r, ch, Input(p, t), o);
    } else {
      ReceiverStaysOver(s, r, ch, Rest(p, t), Input(p, t), o.sock, LoadOf(o.out));
    }
    IdleLaneStays(p, t);
  }

  /** An opener that was refused, or was gone before, says nothing. */
  lemma {:induction false} GoneOpenerIsSilent(p: Stream, t: Step)
    requires Enabled(p, t) && !Creates(p, t) && p.acceptor.status.Idle? && !p.opener.status.Live?
    ensures t.Deliver? && t.x.Opener? && p.toOpener[0].Refuse? && Result(p, t).out == []
  {
    assert SockOk(p.c.opener, p.opener) && p.opener.queue == [] && !Exists(p.opener) && Opening(p);
  }

  /** Without an OPEN, no acceptor comes, and nothing is sent to it. */
  lemma {:induction false} IdleLaneStays(p: Stream, t: Step)
    requires Enabled(p, t) && !Creates(p, t) && (p.acceptor.status.Idle? ==> p.toAcceptor == [])
    requires !p.opener.status.Live?
    ensures Apply(p, t).acceptor.status.Idle? ==> Apply(p, t).toAcceptor == []
  {
    if p.acceptor.status.Idle? {
      GoneOpenerIsSilent(p, t);
    } else if t.x.Acceptor? {
      StepMoves(p, t);
    }
  }

  lemma {:induction false} StepStaysDrained(p: Stream, t: Step, x: Side)
    requires Closed(p, x) && IntegrityBothWays(p) && Drained(p, x) && !Ends(t, x.Other())
    ensures Drained(Apply(p, t), x)
  {
    var r := p.At(x.Other());
    if !Enabled(p, t) || Creates(p, t) {
    } else if !r.status.Live? && !r.status.Idle? {
      DrainedStays(p, t, x);
    } else if t.x == x.Other() {
      ReceiverDrains(p, t, x);
    }
  }

  /** A receiver that has not ended the stream itself misses nothing that was sent. */
  lemma {:induction false} DrainedIsWhole(p: Stream, x: Side)
    requires IntegrityBothWays(p) && Drained(p, x)
    ensures p.At(x).sent == p.At(x.Other()).written + p.At(x.Other()).queue + LoadOf(p.Into(x.Other())).data
  {
    var ch := p.Into(x.Other());
    if NoWrte(ch) {
      NoWrteNoData(ch, |ch|);
    }
  }
}
