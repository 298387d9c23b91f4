/** The output buffer of the incremental server: frames gather behind a four-byte header and
    leave as one chunk, when asked to or once more than 31 blocks are pending. */
module ChunkBuffers {
  import opened Common
  import opened IncrementalFrames

  const CHUNK_HEADER := 4
  const FLUSH_SIZE := 31 * 4096
  const BUFFER_SIZE := FLUSH_SIZE + 2 * 4096

  /** The receiver: the bodies of the chunks of `wire`, if it is a list of chunks. */
  function Unchunk(wire: seq<byte>): Option<seq<byte>> {
    if wire == [] then Some([])
    else if |wire| < CHUNK_HEADER || |wire| < CHUNK_HEADER + FromBig32(wire, 0) then None
    else
      var end := CHUNK_HEADER + FromBig32(wire, 0);
      match Unchunk(wire[end..])
      case None => None
      case Some(rest) => Some(wire[CHUNK_HEADER..end] + rest)
  }

  lemma {:induction false} ChunkLength(body: seq<byte>, wire: seq<byte>)
    requires |body| < TWO_31 && Big32(|body|) <= wire
    ensures FromBig32(wire, 0) == |body|
  {
    assert wire[0..4] == Big32(|body|);
    Big32RoundTrip(|body|, wire, 0);
  }

  lemma {:induction false} UnchunkOne(body: seq<byte>, rest: seq<byte>)
    requires |body| < TWO_31 && Unchunk(rest).Some?
    ensures Unchunk(Big32(|body|) + body + rest) == Some(body + Unchunk(rest).value)
  {
    var w := Big32(|body|) + body + rest;
    ChunkLength(body, w);
    assert w[CHUNK_HEADER..CHUNK_HEADER + |body|] == body && w[CHUNK_HEADER + |body|..] == rest;
  }

  /** One more chunk on the wire adds its body to what the receiver has. */
  lemma {:induction false} UnchunkPush(wire: seq<byte>, body: seq<byte>)
    requires Unchunk(wire).Some? && |body| < TWO_31
    ensures Unchunk(wire + (Big32(|body|) + body)) == Some(Unchunk(wire).value + body)
    decreases |wire|
  {
    var chunk := Big32(|body|) + body;
    if wire == [] {
      UnchunkOne(body, []);
      assert chunk + [] == chunk == wire + chunk && body + [] == body == Unchunk(wire).value + body;
    } else {
      var end := CHUNK_HEADER + FromBig32(wire, 0);
      UnchunkPush(wire[end..], body);
      UnchunkFirst(wire, chunk);
      Associative(wire[CHUNK_HEADER..end], Unchunk(wire[end..]).value, body);
    }
  }

  lemma {:induction false} UnchunkFirst(wire: seq<byte>, chunk: seq<byte>)
    requires wire != [] && Unchunk(wire).Some?
    requires Unchunk(wire[CHUNK_HEADER + FromBig32(wire, 0)..] + chunk).Some?
    ensures var end := CHUNK_HEADER + FromBig32(wire, 0);
      Unchunk(wire + chunk) == Some(wire[CHUNK_HEADER..end] + Unchunk(wire[end..] + chunk).value)
  {
    var end, w := CHUNK_HEADER + FromBig32(wire, 0), wire + chunk;
    assert FromBig32(w, 0) == FromBig32(wire, 0);
    assert w[end..] == wire[end..] + chunk && w[CHUNK_HEADER..end] == wire[CHUNK_HEADER..end];
  }

  lemma {:induction false} PrefixChain(a: seq<byte>, b: seq<byte>, c: seq<byte>)
    requires a <= b <= c
    ensures a <= c
  {
  }

  lemma {:induction false} NothingPending(s: seq<byte>)
    ensures s + [] == s
  {
  }

  /** Of the first `n` frames, the receiver has all up to each that was flushed. */
  ghost predicate FlushedFirst(frames: seq<WireFrame>, flushes: nat -> bool, n: nat, received: seq<byte>)
    requires n <= |frames|
  {
    forall j :: 0 <= j < n && flushes(j) ==> EncodeAll(frames[..j + 1]) <= received
  }

  lemma {:induction false} FlushedNext(frames: seq<WireFrame>, flushes: nat -> bool, n: nat, before: seq<byte>, after: seq<byte>)
    requires n < |frames| && FlushedFirst(frames, flushes, n, before) && before <= after
    requires flushes(n) ==> EncodeAll(frames[..n + 1]) <= after
    ensures FlushedFirst(frames, flushes, n + 1, after)
  {
    forall j | 0 <= j < n && flushes(j)
      ensures EncodeAll(frames[..j + 1]) <= after
    {
      PrefixChain(EncodeAll(frames[..j + 1]), before, after);
    }
  }

  class ChunkBuffer {
    const buffer: array<byte>
    var offset: nat
    /** All bytes handed to the connection. */
    var wire: seq<byte>

    /** Between calls at most 31 blocks are pending, so that one more frame always fits. */
    ghost predicate Valid()
      reads this
    {
      buffer.Length == BUFFER_SIZE && CHUNK_HEADER <= offset <= FLUSH_SIZE && Unchunk(wire).Some?
    }

    /** What the receiver has. */
    ghost function Received(): seq<byte>
      reads this
      requires Valid()
    {
      Unchunk(wire).value
    }

    ghost function Pending(): seq<byte>
      reads this, buffer
      requires Valid()
    {
      buffer[CHUNK_HEADER..offset]
    }

    /** Everything sent: what the receiver has and what is pending. */
    ghost function Sent(): seq<byte>
      reads this, buffer
      requires Valid()
    {
      Received() + Pending()
    }

    constructor ()
      ensures Valid() && fresh(buffer) && Sent() == [] && wire == []
    {
      buffer := new byte[BUFFER_SIZE];
      offset := CHUNK_HEADER;
      wire := [];
    }

    method Copy(data: seq<byte>)
      requires CHUNK_HEADER <= offset && offset + |data| <= buffer.Length
      modifies this`offset, buffer
      ensures offset == old(offset) + |data|
      ensures buffer[CHUNK_HEADER..offset] == old(buffer[CHUNK_HEADER..offset]) + data
    {
      for i := 0 to |data|
        invariant offset == old(offset) + i
        invariant buffer[CHUNK_HEADER..offset] == old(buffer[CHUNK_HEADER..offset]) + data[..i]
      {
        buffer[offset] := data[i];
        offset := offset + 1;
        assert data[..i + 1] == data[..i] + [data[i]];
      }
      assert data[..|data|] == data;
    }

    /** The bytes on the wire and the pending bytes together grow by the frame: nothing is
        lost, repeated or reordered, and the copy stays inside the buffer. */
    method Send(data: seq<byte>, flush: bool)
      requires Valid() && |data| <= FRAME_HEADER + MAX_BLOCK
      modifies this, buffer
      ensures Valid() && Sent() == old(Sent()) + data
      ensures if flush || CHUNK_HEADER + |old(Pending())| + |data| > FLUSH_SIZE then Pending() == [] else wire == old(wire)
      ensures old(Received()) <= Received()
    {
      ghost var received, pending := Unchunk(wire).value, Pending();
      Copy(data);
      assert received + (pending + data) == received + pending + data;
      if flush || offset > FLUSH_SIZE {
        FlushPending();
      }
    }

    method FlushPending()
      requires buffer.Length == BUFFER_SIZE && CHUNK_HEADER <= offset <= buffer.Length && Unchunk(wire).Some?
      modifies this, buffer
      ensures Valid() && Pending() == [] && old(wire) <= wire
      ensures Sent() == old(Unchunk(wire).value + buffer[CHUNK_HEADER..offset]) && old(Unchunk(wire).value) <= Received()
    {
      ghost var received, pending := Unchunk(wire).value, buffer[CHUNK_HEADER..offset];
      var dataBytes := offset - CHUNK_HEADER;
      if dataBytes > 0 {
        UnchunkPush(wire, pending);
        WriteChunk(dataBytes);
      }
      NothingPending(received + pending);
    }

    method WriteChunk(dataBytes: nat)
      requires CHUNK_HEADER + dataBytes == offset <= buffer.Length && dataBytes < TWO_32
      modifies this, buffer
      ensures wire == old(wire) + (Big32(dataBytes) + old(buffer[CHUNK_HEADER..offset])) && offset == CHUNK_HEADER
    {
      PutHeader(dataBytes);
      wire := wire + buffer[..CHUNK_HEADER + dataBytes];
      offset := CHUNK_HEADER;
    }

    /** The length of the chunk goes in front of it. */
    method PutHeader(dataBytes: nat)
      requires CHUNK_HEADER + dataBytes == offset <= buffer.Length && dataBytes < TWO_32
      modifies buffer
      ensures buffer[..offset] == Big32(dataBytes) + old(buffer[CHUNK_HEADER..offset])
    {
      var header := Big32(dataBytes);
      buffer[0], buffer[1], buffer[2], buffer[3] := header[0], header[1], header[2], header[3];
    }

    /** Afterwards the receiver can have everything that was sent. */
    method Flush()
      requires Valid()
      modifies this, buffer
      ensures Valid() && Sent() == old(Sent()) && Pending() == []
      ensures Unchunk(wire) == Some(Sent()) && old(wire) <= wire && old(Received()) <= Received()
    {
      FlushPending();
      assert Unchunk(wire).value + [] == Unchunk(wire).value;
    }

    method SendNext(frames: seq<WireFrame>, i: nat, flush: bool)
      requires Valid() && i < |frames| && Sent() == EncodeAll(frames[..i])
      modifies this, buffer
      ensures Valid() && Sent() == EncodeAll(frames[..i + 1]) && old(Received()) <= Received()
      ensures flush ==> EncodeAll(frames[..i + 1]) <= Received()
    {
      EncodePush(frames[..i], frames[i]);
      assert frames[..i] + [frames[i]] == frames[..i + 1];
      Send(Encode(frames[i]), flush);
    }

    /** Any number of frames, flushed at any points: what was flushed the receiver has. */
    method SendAll(frames: seq<WireFrame>, flushes: nat -> bool)
      requires Valid() && Sent() == []
      modifies this, buffer
      ensures Valid() && Sent() == EncodeAll(frames)
      ensures forall i :: 0 <= i < |frames| && flushes(i) ==> EncodeAll(frames[..i + 1]) <= Received()
    {
      for i := 0 to |frames|
        invariant Valid() && Sent() == EncodeAll(frames[..i])
        invariant FlushedFirst(frames, flushes, i, Received())
      {
        ghost var before := Received();
        SendNext(frames, i, flushes(i));
        FlushedNext(frames, flushes, i, before, Received());
      }
      assert frames[..|frames|] == frames;
    }
  }

  /** From the server to the device: whatever frames are sent and whenever they are flushed,
      the device unpacks the chunks and decodes exactly these frames. */
  method Transmit(frames: seq<WireFrame>, flushes: nat -> bool) returns (wire: seq<byte>)
    ensures Unchunk(wire).Some? && DecodeAll(Unchunk(wire).value) == Some(frames)
  {
    var out := new ChunkBuffer();
    out.SendAll(frames, flushes);
    out.Flush();
    FramesRoundTrip(frames);
    wire := out.wire;
  }
}
