/** Packets as bytes: the header layout, the blocking reader and the header check. */
module Packets {
  import opened Common

  datatype Message = Message(command: uint32, arg0: uint32, arg1: uint32, dataLength: uint32, dataCheck: uint32, magic: uint32)

  datatype Packet = Packet(msg: Message, payload: seq<byte>)

  const HEADER_SIZE := 24

  function EncodeU32(v: uint32): (s: seq<byte>)
    ensures |s| == 4
  {
    var v1 := v / 0x100;
    var v2 := v1 / 0x100;
    [v % 0x100, v1 % 0x100, v2 % 0x100, v2 / 0x100]
  }

  function DecodeU32(s: seq<byte>, at: nat): uint32
    requires at + 4 <= |s|
  {
    var b0: int, b1: int, b2: int, b3: int := s[at], s[at + 1], s[at + 2], s[at + 3];
    b0 + 0x100 * (b1 + 0x100 * (b2 + 0x100 * b3))
  }

  lemma {:induction false} U32RoundTrip(v: uint32, s: seq<byte>, at: nat)
    requires at + 4 <= |s| && s[at..at + 4] == EncodeU32(v)
    ensures DecodeU32(s, at) == v
  {
    var e := s[at..at + 4];
    assert s[at] == e[0] && s[at + 1] == e[1] && s[at + 2] == e[2] && s[at + 3] == e[3];
  }

  function EncodeHeader(m: Message): (s: seq<byte>)
    ensures |s| == HEADER_SIZE
  {
    EncodeU32(m.command) + EncodeU32(m.arg0) + EncodeU32(m.arg1) +
    EncodeU32(m.dataLength) + EncodeU32(m.dataCheck) + EncodeU32(m.magic)
  }

  function DecodeHeader(s: seq<byte>): Message
    requires |s| >= HEADER_SIZE
  {
    Message(DecodeU32(s, 0), DecodeU32(s, 4), DecodeU32(s, 8), DecodeU32(s, 12), DecodeU32(s, 16), DecodeU32(s, 20))
  }

  lemma {:induction false} HeaderRoundTrip(m: Message, rest: seq<byte>)
    ensures DecodeHeader(EncodeHeader(m) + rest) == m
  {
    var s := EncodeHeader(m) + rest;
    assert s[0..4] == EncodeU32(m.command) && s[4..8] == EncodeU32(m.arg0) && s[8..12] == EncodeU32(m.arg1);
    assert s[12..16] == EncodeU32(m.dataLength) && s[16..20] == EncodeU32(m.dataCheck) && s[20..24] == EncodeU32(m.magic);
    U32RoundTrip(m.command, s, 0);
    U32RoundTrip(m.arg0, s, 4);
    U32RoundTrip(m.arg1, s, 8);
    U32RoundTrip(m.dataLength, s, 12);
    U32RoundTrip(m.dataCheck, s, 16);
    U32RoundTrip(m.magic, s, 20);
  }

  /** The other direction, so that a header and its bytes determine each other. */
  lemma {:induction false} HeaderBytes(s: seq<byte>)
    requires |s| == HEADER_SIZE
    ensures EncodeHeader(DecodeHeader(s)) == s
  {
    U32Bytes(s, 0);
    U32Bytes(s, 4);
    U32Bytes(s, 8);
    U32Bytes(s, 12);
    U32Bytes(s, 16);
    U32Bytes(s, 20);
    assert s == s[0..4] + s[4..8] + s[8..12] + s[12..16] + s[16..20] + s[20..24];
  }

  lemma {:induction false} U32Bytes(s: seq<byte>, at: nat)
    requires at + 4 <= |s|
    ensures EncodeU32(DecodeU32(s, at)) == s[at..at + 4]
  {
    var b1: int, b2: int, b3: int := s[at + 1], s[at + 2], s[at + 3];
    var v2 := b2 + 0x100 * b3;
    var v1 := b1 + 0x100 * v2;
    assert DecodeU32(s, at) / 0x100 == v1;
    assert v1 / 0x100 == v2 && v2 / 0x100 == b3;
  }

  // ---- A list of packets on the wire

  /** `data_length` is the size of the payload, as every sender sets it. */
  predicate WellFormed(p: Packet) {
    p.msg.dataLength == |p.payload|
  }

  function Wire(p: Packet): seq<byte> {
    EncodeHeader(p.msg) + p.payload
  }

  function WireAll(ps: seq<Packet>): seq<byte> {
    if ps == [] then [] else Wire(ps[0]) + WireAll(ps[1..])
  }

  lemma {:induction false} WireAppend(a: seq<Packet>, b: seq<Packet>)
    ensures WireAll(a + b) == WireAll(a) + WireAll(b)
  {
    if a == [] {
      assert a + b == b;
    } else {
      assert (a + b)[1..] == a[1..] + b;
      WireAppend(a[1..], b);
      assert Wire(a[0]) + (WireAll(a[1..]) + WireAll(b)) == Wire(a[0]) + WireAll(a[1..]) + WireAll(b);
    }
  }

  lemma {:induction false} WireOne(p: Packet)
    ensures WireAll([p]) == Wire(p)
  {
    assert [p][1..] == [];
  }

  /** Whether a whole packet stands at the front of `s`. */
  predicate HasPacket(s: seq<byte>) {
    |s| >= HEADER_SIZE && |s| >= HEADER_SIZE + DecodeHeader(s).dataLength
  }

  function FirstPacket(s: seq<byte>): Packet
    requires HasPacket(s)
  {
    Packet(DecodeHeader(s), s[HEADER_SIZE..HEADER_SIZE + DecodeHeader(s).dataLength])
  }

  function AfterFirst(s: seq<byte>): (rest: seq<byte>)
    requires HasPacket(s)
    ensures |rest| < |s|
  {
    s[HEADER_SIZE + DecodeHeader(s).dataLength..]
  }

  /** Parsing undoes writing, whatever follows. */
  lemma {:induction false} FirstOfWire(p: Packet, rest: seq<byte>)
    requires WellFormed(p)
    ensures var s := Wire(p) + rest; HasPacket(s) && FirstPacket(s) == p && AfterFirst(s) == rest
  {
    var s := Wire(p) + rest;
    assert s == EncodeHeader(p.msg) + (p.payload + rest);
    HeaderRoundTrip(p.msg, p.payload + rest);
  }

  /** The first packet and what follows it are all there is. */
  lemma {:induction false} FirstIsPrefix(s: seq<byte>)
    requires HasPacket(s)
    ensures s == Wire(FirstPacket(s)) + AfterFirst(s) && WellFormed(FirstPacket(s))
  {
    var n := DecodeHeader(s).dataLength;
    assert DecodeHeader(s) == DecodeHeader(s[..HEADER_SIZE]);
    HeaderBytes(s[..HEADER_SIZE]);
    assert s == s[..HEADER_SIZE] + s[HEADER_SIZE..HEADER_SIZE + n] + s[HEADER_SIZE + n..];
  }

  // ---- send_packet and check_header

  /** `command ^ 0xffffffff`. */
  function Magic(command: uint32): uint32 {
    0xffff_ffff - command
  }

  /** The header fields `send_packet` fills in. */
  function Sealed(p: Packet, checksum: uint32): Packet {
    p.(msg := p.msg.(magic := Magic(p.msg.command), dataCheck := checksum))
  }

  predicate CheckHeader(p: Packet, maxPayload: nat) {
    p.msg.magic == Magic(p.msg.command) && p.msg.dataLength <= maxPayload
  }

  /** `send_packet` makes headers that pass, and no other header does: with any other magic, or
      beyond the limit, it is refused. The magic of a command determines it. */
  lemma {:induction false} HeaderCheckIsExact(p: Packet, maxPayload: nat)
    ensures CheckHeader(p, maxPayload) <==> p == Sealed(p, p.msg.dataCheck) && p.msg.dataLength <= maxPayload
    ensures forall q: Packet :: CheckHeader(p, maxPayload) && q == p.(msg := p.msg.(magic := q.msg.magic)) && q != p ==>
      !CheckHeader(q, maxPayload)
    ensures forall c: uint32 :: Magic(Magic(c)) == c && Magic(c) != c
  {
  }

  // ---- The blocking connection

  function Concat(chunks: seq<seq<byte>>): seq<byte> {
    if chunks == [] then [] else chunks[0] + Concat(chunks[1..])
  }

  /** `FdConnection::Read` on a byte stream: the packet, or nothing when the stream ends
      early or the length is over the limit. */
  function ReadPacket(s: seq<byte>): Option<(Packet, seq<byte>)> {
    if HasPacket(s) && DecodeHeader(s).dataLength <= MAX_PAYLOAD then Some((FirstPacket(s), AfterFirst(s))) else None
  }

  /** Everything the blocking reader gets out of a stream. */
  function ReadAll(s: seq<byte>): seq<Packet>
    decreases |s|
  {
    match ReadPacket(s)
    case None => []
    case Some((p, rest)) => assert |rest| < |s|; [p] + ReadAll(rest)
  }

  /** The blocking reader recovers any list of packets exactly, and the header check
      accepts each one that was sealed and is within the transport's limit. */
  lemma {:induction false} BlockingRoundTrip(ps: seq<Packet>, checksum: uint32, maxPayload: nat)
    requires forall p :: p in ps ==> WellFormed(p) && |p.payload| <= MAX_PAYLOAD
    ensures ReadAll(WireAll(ps)) == ps
    ensures forall p :: p in ps ==> (CheckHeader(Sealed(p, checksum), maxPayload) <==> |p.payload| <= maxPayload)
  {
    if ps != [] {
      assert ps[0] in ps;
      FirstOfWire(ps[0], WireAll(ps[1..]));
      BlockingRoundTrip(ps[1..], checksum, maxPayload);
    } else {
      assert !HasPacket([]);
    }
  }

  /** A descriptor whose bytes arrive in chunks of any size. */
  class Descriptor {
    var chunks: seq<seq<byte>>

    ghost function Unread(): seq<byte>
      reads this
    {
      Concat(chunks)
    }

    /** Everything has arrived at once, so that a read gives all it is asked for, up to the end. */
    ghost predicate Whole()
      reads this
    {
      |chunks| <= 1
    }

    constructor (chunks: seq<seq<byte>>)
      ensures this.chunks == chunks
    {
      this.chunks := chunks;
    }

    /** One `read` of at most `len` bytes: a prefix of the next chunk; nothing only at the
        end of the stream. */
    method ReadSome(len: nat) returns (data: seq<byte>)
      requires len > 0
      modifies this
      ensures |data| <= len && old(Unread()) == data + Unread()
      ensures data == [] ==> old(Unread()) == []
      ensures old(Whole()) ==> Whole() && (|data| < len ==> Unread() == [])
    {
      while chunks != [] && chunks[0] == []
        invariant Unread() == old(Unread()) && |chunks| <= |old(chunks)|
        decreases |chunks|
      {
        chunks := chunks[1..];
      }
      if chunks == [] {
        return [];
      }
      var n := Min(len, |chunks[0]|);
      data := chunks[0][..n];
      assert chunks[0] == chunks[0][..n] + chunks[0][n..];
      chunks := [chunks[0][n..]] + chunks[1..];
      assert chunks[1..] == [] && n < len ==> chunks[0] + Concat(chunks[1..]) == [];
    }

    /** `ReadFdExactly`: the next `len` bytes, however they are cut into chunks. */
    method ReadExactly(len: nat) returns (r: Option<seq<byte>>)
      modifies this
      ensures if len <= |old(Unread())| then r == Some(old(Unread())[..len]) && Unread() == old(Unread())[len..]
              else r == None
    {
      var got: seq<byte> := [];
      while |got| < len
        invariant |got| <= len && old(Unread()) == got + Unread()
        decreases len - |got|
      {
        var data := ReadSome(len - |got|);
        if data == [] {
          return None;
        }
        got := got + data;
      }
      return Some(got);
    }

    /** `FdConnection::Read`. */
    method Read() returns (r: Option<Packet>)
      modifies this
      ensures match ReadPacket(old(Unread()))
        case None => r == None
        case Some((p, rest)) => r == Some(p) && Unread() == rest
    {
      ghost var all := Unread();
      var header := ReadExactly(HEADER_SIZE);
      if header == None {
        return None;
      }
      var msg := DecodeHeader(header.value);
      assert msg == DecodeHeader(all);
      if msg.dataLength > MAX_PAYLOAD {
        return None;
      }
      var payload := ReadExactly(msg.dataLength);
      if payload == None {
        return None;
      }
      assert payload.value == all[HEADER_SIZE..HEADER_SIZE + msg.dataLength];
      return Some(Packet(msg, payload.value));
    }
  }
}
