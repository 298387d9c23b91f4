/** The frames the incremental server sends: a ten-byte header in network order and a block
    of at most 4096 bytes. A stream of frames determines the frames. */
module IncrementalFrames {
  import opened Common
  import opened Packets

  datatype Frame =
    | Data(file: nat, index: nat, compressed: bool, bytes: seq<byte>)
    | Hash(file: nat, index: nat, bytes: seq<byte>)
    | Done

  const FRAME_HEADER := 10
  const MAX_BLOCK := 4096

  /** The identifiers are 16-bit and the indices 32-bit signed integers, not negative. */
  predicate Fits(f: Frame) {
    f.Done? || (f.file < 0x8000 && f.index < TWO_31 && |f.bytes| <= MAX_BLOCK)
  }

  type WireFrame = f: Frame | Fits(f) witness Done

  function Big16(v: nat): (s: seq<byte>)
    requires v < 0x1_0000
    ensures |s| == 2
  {
    [v / 0x100, v % 0x100]
  }

  function FromBig16(s: seq<byte>, at: nat): nat
    requires at + 2 <= |s|
  {
    var high: int, low: int := s[at], s[at + 1];
    0x100 * high + low
  }

  function Big32(v: uint32): (s: seq<byte>)
    ensures |s| == 4
  {
    var e := EncodeU32(v);
    [e[3], e[2], e[1], e[0]]
  }

  function FromBig32(s: seq<byte>, at: nat): uint32
    requires at + 4 <= |s|
  {
    DecodeU32([s[at + 3], s[at + 2], s[at + 1], s[at]], 0)
  }

  lemma {:induction false} Big32RoundTrip(v: uint32, s: seq<byte>, at: nat)
    requires at + 4 <= |s| && s[at..at + 4] == Big32(v)
    ensures FromBig32(s, at) == v
  {
    var e := EncodeU32(v);
    var t := s[at..at + 4];
    assert s[at] == t[0] && s[at + 1] == t[1] && s[at + 2] == t[2] && s[at + 3] == t[3];
    var r := [s[at + 3], s[at + 2], s[at + 1], s[at]];
    assert r[0..4] == e;
    U32RoundTrip(v, r, 0);
  }

  function Header(file: nat, kind: byte, compression: byte, index: uint32, size: nat): (s: seq<byte>)
    requires file < 0x1_0000 && size < 0x1_0000
    ensures |s| == FRAME_HEADER
  {
    Big16(file) + [kind, compression] + Big32(index) + Big16(size)
  }

  lemma {:induction false} HeaderFields(file: nat, kind: byte, compression: byte, index: uint32, size: nat, s: seq<byte>)
    requires file < 0x1_0000 && size < 0x1_0000 && FRAME_HEADER <= |s|
    requires s[..FRAME_HEADER] == Header(file, kind, compression, index, size)
    ensures FromBig16(s, 0) == file && s[2] == kind && s[3] == compression
    ensures FromBig32(s, 4) == index && FromBig16(s, 8) == size
  {
    var h := Header(file, kind, compression, index, size);
    assert forall i :: 0 <= i < FRAME_HEADER ==> s[i] == s[..FRAME_HEADER][i] == h[i];
    assert h[4..8] == Big32(index);
    assert s[4..8] == h[4..8];
    Big32RoundTrip(index, s, 4);
  }

  /** A frame as bytes; the last frame has identifier -1 and zeros. */
  function Encode(f: WireFrame): (s: seq<byte>)
    ensures FRAME_HEADER <= |s| <= FRAME_HEADER + MAX_BLOCK
  {
    match f
    case Data(file, index, compressed, bytes) =>
      Header(file, 0, if compressed then 1 else 0, index, |bytes|) + bytes
    case Hash(file, index, bytes) => Header(file, 1, 0, index, |bytes|) + bytes
    case Done => Header(0xFFFF, 0, 0, 0, 0)
  }

  function EncodeAll(fs: seq<WireFrame>): seq<byte> {
    if fs == [] then [] else Encode(fs[0]) + EncodeAll(fs[1..])
  }

  lemma {:induction false} EncodePush(fs: seq<WireFrame>, f: WireFrame)
    ensures EncodeAll(fs + [f]) == EncodeAll(fs) + Encode(f)
  {
    if fs == [] {
      assert fs + [f] == [f];
    } else {
      assert (fs + [f])[1..] == fs[1..] + [f];
      EncodePush(fs[1..], f);
    }
  }

  // ---- The receiver

  function DecodeOne(s: seq<byte>): Frame
    requires FRAME_HEADER <= |s| && FRAME_HEADER + FromBig16(s, 8) <= |s|
  {
    var file, bytes := FromBig16(s, 0), s[FRAME_HEADER..FRAME_HEADER + FromBig16(s, 8)];
    if file == 0xFFFF then Done
    else if s[2] == 1 then Hash(file, FromBig32(s, 4), bytes)
    else Data(file, FromBig32(s, 4), s[3] == 1, bytes)
  }

  /** The frames of a whole stream; nothing if it ends inside a frame. */
  function DecodeAll(s: seq<byte>): Option<seq<Frame>> {
    if s == [] then Some([])
    else if |s| < FRAME_HEADER || |s| < FRAME_HEADER + FromBig16(s, 8) then None
    else
      match DecodeAll(s[FRAME_HEADER + FromBig16(s, 8)..])
      case None => None
      case Some(fs) => Some([DecodeOne(s)] + fs)
  }

  lemma {:induction false} FrameRoundTrip(f: WireFrame, rest: seq<byte>)
    ensures var s := Encode(f) + rest;
      FRAME_HEADER + FromBig16(s, 8) == |Encode(f)| && DecodeOne(s) == f
  {
    var s := Encode(f) + rest;
    match f
    case Data(file, index, compressed, bytes) =>
      HeaderFields(file, 0, if compressed then 1 else 0, index, |bytes|, s);
      assert s[FRAME_HEADER..FRAME_HEADER + |bytes|] == bytes;
    case Hash(file, index, bytes) =>
      HeaderFields(file, 1, 0, index, |bytes|, s);
      assert s[FRAME_HEADER..FRAME_HEADER + |bytes|] == bytes;
    case Done => HeaderFields(0xFFFF, 0, 0, 0, 0, s);
  }

  /** Decoding what was encoded gives the same frames, in the same order. */
  lemma {:induction false} FramesRoundTrip(fs: seq<WireFrame>)
    ensures DecodeAll(EncodeAll(fs)) == Some(fs)
  {
    if fs != [] {
      var rest := EncodeAll(fs[1..]);
      var s := Encode(fs[0]) + rest;
      FrameRoundTrip(fs[0], rest);
      assert s[|Encode(fs[0])|..] == rest;
      FramesRoundTrip(fs[1..]);
      assert [fs[0]] + fs[1..] == fs;
    }
  }
}
