/**
 * One local socket of the multiplexed stream protocol, as a value: what each
 * handler of the socket does to its state and which messages it puts on the
 * transport.  `LocalSocket.dfy` holds the same handlers in their imperative
 * form and proves that they compute these functions.
 */
module StreamSocket {
  import opened Common

  /** `Idle` has not been created; `Live` is on the live list; `Closing` is on
      the closing list; `Gone` has been destroyed. */
  datatype Status = Idle | Live | Closing | Gone

  /** `sent` and `written` are history: the bytes read from the descriptor while
      the socket had a peer, and the bytes its descriptor has accepted. */
  datatype Sock = Sock(
    status: Status,
    hasPeer: bool,
    avail: Option<int>,
    queue: seq<byte>,
    readOn: bool,
    writeOn: bool,
    writeErr: bool,
    sent: seq<byte>,
    written: seq<byte>)

  /** A packet with its socket ids stripped.  `Refuse` is a CLSE whose first id
      is 0. */
  datatype Msg =
    | Open(grant: uint32)
    | Okay(ack: Option<uint32>)
    | Wrte(data: seq<byte>)
    | Clse
    | Refuse

  /** Per-endpoint constants: whether the transport has delayed acks, the local
      window, and the largest payload one read may produce. */
  datatype Config = Config(delayed: bool, window: nat, maxPayload: nat) {
    predicate Valid() {
      0 < window < TWO_31 && 0 < maxPayload <= MAX_PAYLOAD
    }
  }

  datatype Outcome = Outcome(sock: Sock, out: seq<Msg>)

  const IDLE := Sock(Idle, false, None, [], false, false, false, [], [])

  predicate Exists(s: Sock) {
    s.status.Live? || s.status.Closing?
  }

  /** The results `writev` can have on a queue. */
  predicate WriteFits(queue: seq<byte>, w: WriteResult) {
    w.Wrote? ==> 0 < w.n <= |queue|
  }

  /** The results the read loop can have: at most one payload, and end of file is
      only seen with room left. */
  predicate ReadFits(cfg: Config, data: seq<byte>, eof: bool) {
    |data| <= cfg.maxPayload && (eof ==> |data| < cfg.maxPayload)
  }

  /** `send_ready`: the ack payload is present exactly with delayed acks. */
  function SendReady(cfg: Config, n: nat): Msg {
    Okay(if cfg.delayed then Some(AsUint32(n)) else None)
  }

  /** The socket after one `writev` of its queue. */
  function AfterWrite(s: Sock, w: WriteResult): Sock
    requires WriteFits(s.queue, w)
  {
    if s.queue == [] then s else
    match w
    case Wrote(n) => s.(queue := s.queue[n..], written := s.written + s.queue[..n])
    case WouldBlock => s
    case Failed => s.(writeErr := true)
  }

  predicate FdFull(s: Sock) {
    s.queue != [] && !s.writeErr
  }

  /** The acknowledgement `local_socket_flush_incoming` sends for `flushed` bytes. */
  function Acks(cfg: Config, s: Sock, flushed: nat): seq<Msg> {
    if !s.hasPeer then []
    else if s.avail.Some? then [SendReady(cfg, flushed)]
    else if flushed != 0 && |s.queue| < MAX_PAYLOAD then [SendReady(cfg, 0)]
    else []
  }

  /** `local_socket_close`. */
  function Close(s: Sock): Outcome {
    var t := s.(hasPeer := false);
    Outcome(
      if s.status.Closing? || s.writeErr || s.queue == []
      then t.(status := Gone, readOn := false, writeOn := false)
      else t.(status := Closing, readOn := false),
      if s.hasPeer then [Clse] else [])
  }

  /** `local_socket_flush_incoming`. */
  function Flush(cfg: Config, s: Sock, w: WriteResult): Outcome
    requires WriteFits(s.queue, w)
  {
    var t := AfterWrite(s, w);
    var acks := Acks(cfg, t, |s.queue| - |t.queue|);
    if t.status.Closing? && !FdFull(t) then
      var c := Close(t);
      Outcome(c.sock, acks + c.out)
    else
      Outcome(t.(writeOn := FdFull(t)), acks)
  }

  /** The part of `local_socket_flush_outgoing` that hands data to the peer. */
  function Send(s: Sock, data: seq<byte>): Sock {
    var avail := if s.avail.Some? then Some(s.avail.value - |data|) else None;
    s.(avail := avail,
       readOn := s.readOn && avail.Some? && avail.value > 0,
       sent := s.sent + data)
  }

  /** `local_socket_flush_outgoing` after its read loop produced `data` and `eof`. */
  function Read(s: Sock, data: seq<byte>, eof: bool): Outcome {
    var send := data != [] && s.hasPeer;
    var t := if send then Send(s, data) else s;
    var out := if send then [Wrte(data)] else [];
    if eof then
      var c := Close(t);
      Outcome(c.sock, out + c.out)
    else
      Outcome(t, out)
  }

  /** `local_socket_ack`; an ack of the wrong kind is ignored. */
  function Ack(cfg: Config, s: Sock, acked: Option<int>): Sock {
    if s.avail.Some? != acked.Some? then s
    else if acked.None? then s.(readOn := true)
    else
      var avail := Min(s.avail.value + acked.value, cfg.window);
      s.(avail := Some(avail), readOn := s.readOn || avail > 0)
  }

  /** The A_OKAY branch of `handle_packet`. */
  function OnOkay(cfg: Config, s: Sock, ack: Option<uint32>): Outcome {
    var acked := if ack.Some? then Some(AsInt32(ack.value)) else None;
    if !s.status.Live? then Outcome(s, [Clse])
    else if !s.hasPeer then Outcome(Ack(cfg, s.(hasPeer := true), acked).(readOn := true), [])
    else Outcome(Ack(cfg, s, acked), [])
  }

  /** The A_WRTE branch of `handle_packet`, with `local_socket_enqueue`. */
  function OnWrte(cfg: Config, s: Sock, data: seq<byte>, w: WriteResult): Outcome
    requires s.status.Live? && s.hasPeer ==> WriteFits(s.queue + data, w)
  {
    if s.status.Live? && s.hasPeer then Flush(cfg, s.(queue := s.queue + data), w)
    else Outcome(s, [])
  }

  /** The A_CLSE branch of `handle_packet`: a CLSE with id 0 also closes a socket
      that is still waiting for its first A_OKAY. */
  function OnClse(s: Sock, refuse: bool): Outcome {
    if s.status.Live? && (s.hasPeer || refuse) then Close(s) else Outcome(s, [])
  }

  /** The socket A_OPEN creates, and its answer. */
  function Accept(cfg: Config, grant: uint32): Outcome {
    Outcome(
      IDLE.(status := Live, hasPeer := true, readOn := true,
            avail := if cfg.delayed then Some(grant) else None),
      [SendReady(cfg, if cfg.delayed then cfg.window else 0)])
  }

  /** The A_OPEN branch of `handle_packet`; `service` says whether the requested
      service could be started. */
  function OnOpen(cfg: Config, grant: uint32, service: bool): Outcome {
    if cfg.delayed == (grant != 0) && service then Accept(cfg, grant) else Outcome(IDLE, [Refuse])
  }

  /** `connect_to_remote` on a fresh local socket. */
  function Connect(cfg: Config): Outcome {
    Outcome(
      IDLE.(status := Live, avail := if cfg.delayed then Some(0) else None),
      [Open(if cfg.delayed then AsUint32(cfg.window) else 0)])
  }
}
