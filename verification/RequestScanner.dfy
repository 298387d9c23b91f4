/** Requests from the device come in the middle of other text: four magic bytes and an
    eight-byte command. The scanner extracts them and passes the text on. */
module RequestScanners {
  import opened Common
  import opened IncrementalFrames
  import opened Packets

  /** "INCR" in network order. */
  const INCR := 0x494e4352
  const COMMAND_SIZE := 8
  const REQUEST_SIZE := 12
  const READ_BUFFER_SIZE := 128 * 1024

  datatype Command = Command(kind: int, file: int, block: int)

  const SERVING_COMPLETE := 0
  const BLOCK_MISSING := 1
  const PREFETCH := 2
  const DESTROY := 3

  function AsInt16(v: nat): int {
    if v < 0x8000 then v else v - 0x1_0000
  }

  function CommandAt(s: seq<byte>, i: nat): Command
    requires i + COMMAND_SIZE <= |s|
  {
    Command(AsInt16(FromBig16(s, i)), AsInt16(FromBig16(s, i + 2)), AsInt32(FromBig32(s, i + 4)))
  }

  /** The bytes of "INCR". */
  const MAGIC: seq<byte> := [0x49, 0x4e, 0x43, 0x52]

  predicate MagicAt(s: seq<byte>, i: nat)
    requires i + 4 <= |s|
  {
    s[i] == 0x49 && s[i + 1] == 0x4e && s[i + 2] == 0x43 && s[i + 3] == 0x52
  }

  // ---- Requests as bytes

  /** The values the fields of a request can have: two 16-bit and a 32-bit signed integer. */
  predicate Encodable(c: Command) {
    -0x8000 <= c.kind < 0x8000 && -0x8000 <= c.file < 0x8000 && -TWO_31 <= c.block < TWO_31
  }

  /** Two's complement in network order. */
  function CommandBytes(c: Command): (s: seq<byte>)
    requires Encodable(c)
    ensures |s| == COMMAND_SIZE
  {
    Big16(c.kind % 0x1_0000) + Big16(c.file % 0x1_0000) + Big32(AsUint32(c.block))
  }

  function RequestBytes(c: Command): (s: seq<byte>)
    requires Encodable(c)
    ensures |s| == REQUEST_SIZE
  {
    MAGIC + CommandBytes(c)
  }

  /** Decoding the bytes of a command gives its type, its file and its block. */
  lemma {:induction false} CommandRoundTrip(c: Command, s: seq<byte>, i: nat)
    requires Encodable(c) && i + COMMAND_SIZE <= |s| && s[i..i + COMMAND_SIZE] == CommandBytes(c)
    ensures CommandAt(s, i) == c
  {
    var b := CommandBytes(c);
    assert forall k :: 0 <= k < COMMAND_SIZE ==> s[i + k] == b[k];
    assert s[i + 4..i + 8] == Big32(AsUint32(c.block));
    Big32RoundTrip(AsUint32(c.block), s, i + 4);
  }

  lemma {:induction false} Big16Bytes(s: seq<byte>, i: nat)
    requires i + 2 <= |s|
    ensures Big16(FromBig16(s, i)) == s[i..i + 2]
  {
  }

  lemma {:induction false} Big32Bytes(s: seq<byte>, i: nat)
    requires i + 4 <= |s|
    ensures Big32(FromBig32(s, i)) == s[i..i + 4]
  {
    var r := [s[i + 3], s[i + 2], s[i + 1], s[i]];
    U32Bytes(r, 0);
    assert r[0..4] == r;
  }

  /** Whatever bytes there are, they are those of the command they decode to. */
  lemma {:induction false} BytesOfCommand(s: seq<byte>, i: nat)
    requires i + COMMAND_SIZE <= |s|
    ensures Encodable(CommandAt(s, i)) && CommandBytes(CommandAt(s, i)) == s[i..i + COMMAND_SIZE]
  {
    Big16Bytes(s, i);
    Big16Bytes(s, i + 2);
    Big32Bytes(s, i + 4);
    Complement16(FromBig16(s, i));
    Complement16(FromBig16(s, i + 2));
    Complement32(FromBig32(s, i + 4));
    assert s[i..i + COMMAND_SIZE] == s[i..i + 2] + s[i + 2..i + 4] + s[i + 4..i + 8];
  }

  lemma {:induction false} Complement16(v: nat)
    requires v < 0x1_0000
    ensures -0x8000 <= AsInt16(v) < 0x8000 && AsInt16(v) % 0x1_0000 == v
  {
  }

  lemma {:induction false} Complement32(v: uint32)
    ensures -TWO_31 <= AsInt32(v) < TWO_31 && AsUint32(AsInt32(v)) == v
  {
  }

  lemma {:induction false} MagicBytes(s: seq<byte>, i: nat)
    requires i + 4 <= |s|
    ensures MagicAt(s, i) <==> s[i..i + 4] == MAGIC
    ensures MagicAt(s, i) <==> FromBig32(s, i) == INCR
  {
    var t := s[i..i + 4];
    assert t[0] == s[i] && t[1] == s[i + 1] && t[2] == s[i + 2] && t[3] == s[i + 3];
    assert t == MAGIC <==> t[0] == 0x49 && t[1] == 0x4e && t[2] == 0x43 && t[3] == 0x52;
    Big32Bytes(s, i);
    assert Big32(INCR) == MAGIC;
  }

  // ---- What a stream means

  /** The requests of a stream from index `i` on, leftmost first, without overlap. */
  function Requests(s: seq<byte>, i: nat): seq<Command>
    requires i <= |s|
    decreases |s| - i
  {
    if |s| < i + REQUEST_SIZE then []
    else if MagicAt(s, i) then [CommandAt(s, i + 4)] + Requests(s, i + REQUEST_SIZE)
    else Requests(s, i + 1)
  }

  /** The bytes around those requests. */
  function Text(s: seq<byte>, i: nat): seq<byte>
    requires i <= |s|
    decreases |s| - i
  {
    if |s| < i + REQUEST_SIZE then s[i..]
    else if MagicAt(s, i) then Text(s, i + REQUEST_SIZE)
    else [s[i]] + Text(s, i + 1)
  }

  /** `starts` are the places of the requests from `from` on: no request starts before the
      first, each next one is looked for after the end of the one before it, and after the
      last one there is none. */
  predicate Leftmost(s: seq<byte>, from: nat, starts: seq<nat>)
    decreases |starts|
  {
    if starts == [] then forall j :: from <= j && j + REQUEST_SIZE <= |s| ==> !MagicAt(s, j)
    else
      && from <= starts[0] && starts[0] + REQUEST_SIZE <= |s| && MagicAt(s, starts[0])
      && (forall j :: from <= j < starts[0] ==> !MagicAt(s, j))
      && Leftmost(s, starts[0] + REQUEST_SIZE, starts[1..])
  }

  lemma {:induction false} NoneBefore(s: seq<byte>, from: nat, to: nat)
    requires from <= to && to + REQUEST_SIZE <= |s| && forall j :: from <= j < to ==> !MagicAt(s, j)
    ensures Requests(s, from) == Requests(s, to)
    decreases |s| - from
  {
    if from < to {
      NoneBefore(s, from + 1, to);
    }
  }

  lemma {:induction false} NoneAtAll(s: seq<byte>, from: nat)
    requires from <= |s| && forall j :: from <= j && j + REQUEST_SIZE <= |s| ==> !MagicAt(s, j)
    ensures Requests(s, from) == []
    decreases |s| - from
  {
    if from + REQUEST_SIZE <= |s| {
      NoneAtAll(s, from + 1);
    }
  }

  /** The places of the requests. */
  function Starts(s: seq<byte>, i: nat): seq<nat>
    requires i <= |s|
    decreases |s| - i
  {
    if |s| < i + REQUEST_SIZE then []
    else if MagicAt(s, i) then [i] + Starts(s, i + REQUEST_SIZE)
    else Starts(s, i + 1)
  }

  lemma {:induction false} StartsAreLeftmost(s: seq<byte>, from: nat)
    requires from <= |s|
    ensures Leftmost(s, from, Starts(s, from))
    decreases |s| - from
  {
    if |s| < from + REQUEST_SIZE {
    } else if MagicAt(s, from) {
      StartsAreLeftmost(s, from + REQUEST_SIZE);
      assert ([from] + Starts(s, from + REQUEST_SIZE))[1..] == Starts(s, from + REQUEST_SIZE);
    } else {
      StartsAreLeftmost(s, from + 1);
    }
  }

  /** Two lists of leftmost places are the same list. */
  lemma {:induction false} LeftmostIsUnique(s: seq<byte>, from: nat, a: seq<nat>, b: seq<nat>)
    requires Leftmost(s, from, a) && Leftmost(s, from, b)
    ensures a == b
    decreases |a|
  {
    if a != [] && b != [] {
      assert a[0] == b[0];
      LeftmostIsUnique(s, a[0] + REQUEST_SIZE, a[1..], b[1..]);
      assert a == [a[0]] + a[1..] && b == [b[0]] + b[1..];
    }
  }

  lemma {:induction false} CommandsAtStarts(s: seq<byte>, from: nat, starts: seq<nat>)
    requires from <= |s| && Leftmost(s, from, starts)
    ensures |Requests(s, from)| == |starts|
    ensures forall k :: 0 <= k < |starts| ==>
      starts[k] + REQUEST_SIZE <= |s| && Requests(s, from)[k] == CommandAt(s, starts[k] + 4)
    decreases |starts|
  {
    if starts == [] {
      NoneAtAll(s, from);
    } else {
      NoneBefore(s, from, starts[0]);
      CommandsAtStarts(s, starts[0] + REQUEST_SIZE, starts[1..]);
      assert forall k :: 0 < k < |starts| ==> starts[k] == starts[1..][k - 1];
    }
  }

  /** The bytes of this request, which determine it, are in the stream at this place. */
  predicate RequestAt(s: seq<byte>, i: nat, c: Command) {
    Encodable(c) && i + REQUEST_SIZE <= |s| && s[i..i + REQUEST_SIZE] == RequestBytes(c)
  }

  lemma {:induction false} DecodedIsThere(s: seq<byte>, i: nat)
    requires i + REQUEST_SIZE <= |s| && MagicAt(s, i)
    ensures RequestAt(s, i, CommandAt(s, i + 4))
  {
    MagicBytes(s, i);
    BytesOfCommand(s, i + 4);
    assert s[i..i + REQUEST_SIZE] == s[i..i + 4] + s[i + 4..i + REQUEST_SIZE];
  }

  lemma {:induction false} LeftmostHasMagic(s: seq<byte>, from: nat, starts: seq<nat>, k: nat)
    requires Leftmost(s, from, starts) && k < |starts|
    ensures starts[k] + REQUEST_SIZE <= |s| && MagicAt(s, starts[k])
    decreases |starts|
  {
    if k > 0 {
      LeftmostHasMagic(s, starts[0] + REQUEST_SIZE, starts[1..], k - 1);
    }
  }

  /** The requests are exactly those whose bytes are at the leftmost places: there is one list
      of such places for every stream, and only one. */
  lemma {:induction false} RequestsAreLeftmost(s: seq<byte>, from: nat) returns (starts: seq<nat>)
    requires from <= |s|
    ensures forall a :: Leftmost(s, from, a) <==> a == starts
    ensures |Requests(s, from)| == |starts|
    ensures forall k :: 0 <= k < |starts| ==> RequestAt(s, starts[k], Requests(s, from)[k])
  {
    starts := Starts(s, from);
    StartsAreLeftmost(s, from);
    CommandsAtStarts(s, from, starts);
    forall k | 0 <= k < |starts|
      ensures RequestAt(s, starts[k], Requests(s, from)[k])
    {
      LeftmostHasMagic(s, from, starts, k);
      DecodedIsThere(s, starts[k]);
    }
    forall a | Leftmost(s, from, a)
      ensures a == starts
    {
      LeftmostIsUnique(s, from, a, starts);
    }
  }

  /** No magic starts at the `n` bytes from `i` on. */
  predicate NoMagic(s: seq<byte>, i: nat, n: nat) {
    forall j :: i <= j < i + n && j + 4 <= |s| ==> !MagicAt(s, j)
  }

  /** Passing over such bytes changes no request. */
  lemma {:induction false} PassOver(s: seq<byte>, i: nat, n: nat)
    requires i + n <= |s| && NoMagic(s, i, n)
    ensures Requests(s, i) == Requests(s, i + n)
    decreases n
  {
    if n > 0 {
      PassOver(s, i + 1, n - 1);
    }
  }

  lemma {:induction false} PassOne(s: seq<byte>, i: nat)
    requires i < |s| && NoMagic(s, i, 1)
    ensures Text(s, i) == [s[i]] + Text(s, i + 1)
  {
    if |s| < i + REQUEST_SIZE {
      assert s[i..] == [s[i]] + s[i + 1..];
    }
  }

  lemma {:induction false} PassOn(s: seq<byte>, i: nat, n: nat)
    requires i + n <= |s| && NoMagic(s, i, n)
    ensures Text(s, i) == s[i..i + n] + Text(s, i + n)
    decreases n
  {
    if n > 0 {
      PassOne(s, i);
      PassOn(s, i + 1, n - 1);
      var rest, text := s[i + 1..i + n], Text(s, i + n);
      assert s[i..i + n] == [s[i]] + rest && [s[i]] + (rest + text) == [s[i]] + rest + text;
    }
  }

  // ---- Requests in the middle of text

  predicate HoldsMagic(t: seq<byte>, j: nat) {
    j + 4 <= |t| && t[j..j + 4] == MAGIC
  }

  predicate MagicFree(t: seq<byte>) {
    forall j: nat :: j < |t| ==> !HoldsMagic(t, j)
  }

  predicate AllEncodable(cs: seq<Command>) {
    forall i :: 0 <= i < |cs| ==> Encodable(cs[i])
  }

  /** The first text, the first request, the second text and so on, up to the last text. */
  function Splice(texts: seq<seq<byte>>, cs: seq<Command>): seq<byte>
    requires |texts| == |cs| + 1 && AllEncodable(cs)
  {
    if cs == [] then texts[0] else texts[0] + RequestBytes(cs[0]) + Splice(texts[1..], cs[1..])
  }

  /** No part of the magic looks like its start, so that none begins in text before it. */
  lemma {:induction false} NoMagicInText(text: seq<byte>, rest: seq<byte>)
    requires MagicFree(text) && (rest == [] || (|rest| >= 4 && rest[..4] == MAGIC))
    ensures NoMagic(text + rest, 0, |text|)
  {
    var s := text + rest;
    forall j | 0 <= j < |text| && j + 4 <= |s|
      ensures !MagicAt(s, j)
    {
      MagicBytes(s, j);
      if j + 4 <= |text| {
        assert s[j..j + 4] == text[j..j + 4] && !HoldsMagic(text, j);
      } else {
        assert s[j..j + 4][|text| - j] == rest[..4][0];
      }
    }
  }

  lemma {:induction false} Shifted(s: seq<byte>, base: nat, i: nat)
    requires base + i <= |s|
    ensures Requests(s, base + i) == Requests(s[base..], i)
    decreases |s| - i
  {
    if |s| >= base + i + REQUEST_SIZE {
      SameAt(s, base, i);
      Shifted(s, base, if MagicAt(s, base + i) then i + REQUEST_SIZE else i + 1);
    }
  }

  lemma {:induction false} ShiftedText(s: seq<byte>, base: nat, i: nat)
    requires base + i <= |s|
    ensures Text(s, base + i) == Text(s[base..], i)
    decreases |s| - i
  {
    if |s| < base + i + REQUEST_SIZE {
      assert s[base + i..] == s[base..][i..];
    } else {
      SameAt(s, base, i);
      ShiftedText(s, base, if MagicAt(s, base + i) then i + REQUEST_SIZE else i + 1);
    }
  }

  lemma {:induction false} SameAt(s: seq<byte>, base: nat, i: nat)
    requires base + i + REQUEST_SIZE <= |s|
    ensures MagicAt(s[base..], i) == MagicAt(s, base + i) && CommandAt(s[base..], i + 4) == CommandAt(s, base + i + 4)
    ensures s[base..][i] == s[base + i]
  {
  }

  lemma {:induction false} AfterText(text: seq<byte>, rest: seq<byte>)
    requires MagicFree(text) && (rest == [] || (|rest| >= 4 && rest[..4] == MAGIC))
    ensures Requests(text + rest, 0) == Requests(rest, 0) && Text(text + rest, 0) == text + Text(rest, 0)
  {
    var s, n := text + rest, |text|;
    NoMagicInText(text, rest);
    PassOver(s, 0, n);
    PassOn(s, 0, n);
    assert s[0..n] == text && s[n..] == rest;
    Shifted(s, n, 0);
    ShiftedText(s, n, 0);
  }

  lemma {:induction false} AfterRequest(c: Command, rest: seq<byte>)
    requires Encodable(c)
    ensures Requests(RequestBytes(c) + rest, 0) == [c] + Requests(rest, 0)
    ensures Text(RequestBytes(c) + rest, 0) == Text(rest, 0)
  {
    var s := RequestBytes(c) + rest;
    assert s[0..4] == MAGIC && s[4..4 + COMMAND_SIZE] == CommandBytes(c);
    MagicBytes(s, 0);
    CommandRoundTrip(c, s, 4);
    assert s[REQUEST_SIZE..] == rest;
    Shifted(s, REQUEST_SIZE, 0);
    ShiftedText(s, REQUEST_SIZE, 0);
  }

  function Joined(texts: seq<seq<byte>>): seq<byte> {
    if texts == [] then [] else texts[0] + Joined(texts[1..])
  }

  /** Requests of any type, file and block in the middle of text without the magic: exactly
      these are the requests of the stream, and the rest of it is the text. */
  lemma {:induction false} SplicedRequests(texts: seq<seq<byte>>, cs: seq<Command>)
    requires |texts| == |cs| + 1 && AllEncodable(cs) && forall i :: 0 <= i < |texts| ==> MagicFree(texts[i])
    ensures Requests(Splice(texts, cs), 0) == cs && Text(Splice(texts, cs), 0) == Joined(texts)
  {
    if cs == [] {
      AfterText(texts[0], []);
      assert texts[0] + [] == texts[0] && texts[1..] == [];
    } else {
      var r, rest := RequestBytes(cs[0]), Splice(texts[1..], cs[1..]);
      SplicedRequests(texts[1..], cs[1..]);
      AfterRequest(cs[0], rest);
      assert (r + rest)[..4] == MAGIC;
      AfterText(texts[0], r + rest);
      Associative(texts[0], r, rest);
      assert cs == [cs[0]] + cs[1..];
    }
  }

  lemma {:induction false} WindowNoMagic(s: seq<byte>, t: seq<byte>, base: nat, n: nat)
    requires base + |t| <= |s| && t == s[base..base + |t|] && n <= Max(0, |t| - 4) && NoMagic(t, 0, n)
    ensures NoMagic(s, base, n)
  {
    forall j | base <= j < base + n && j + 4 <= |s|
      ensures !MagicAt(s, j)
    {
      SameMagic(s, t, base, j - base);
    }
  }

  /** Up to index `i`, the stream has the requests `found` and around them `text`. */
  ghost predicate Extracted(s: seq<byte>, i: nat, found: seq<Command>, text: seq<byte>) {
    i <= |s| && Requests(s, 0) == found + Requests(s, i) && Text(s, 0) == text + Text(s, i)
  }

  lemma {:induction false} Window(s: seq<byte>, t: seq<byte>, base: nat, n: nat)
    requires base + |t| <= |s| && t == s[base..base + |t|] && n <= |t|
    ensures t[..n] == s[base..base + n] && t[n..] == s[base + n..base + |t|]
  {
  }

  lemma {:induction false} DropExtracts(s: seq<byte>, t: seq<byte>, base: nat, n: nat, found: seq<Command>, text: seq<byte>)
    requires base + |t| <= |s| && t == s[base..base + |t|] && n <= |t| && n <= Max(0, |t| - 4) && NoMagic(t, 0, n)
    requires Extracted(s, base, found, text)
    ensures Extracted(s, base + n, found, text + t[..n])
  {
    WindowNoMagic(s, t, base, n);
    PassOver(s, base, n);
    PassOn(s, base, n);
    Window(s, t, base, n);
    assert text + (t[..n] + Text(s, base + n)) == text + t[..n] + Text(s, base + n);
  }

  lemma {:induction false} TakeExtracts(s: seq<byte>, t: seq<byte>, base: nat, found: seq<Command>, text: seq<byte>)
    requires base + |t| <= |s| && t == s[base..base + |t|] && REQUEST_SIZE <= |t| && MagicAt(t, 0)
    requires Extracted(s, base, found, text)
    ensures Extracted(s, base + REQUEST_SIZE, found + [CommandAt(t, 4)], text)
  {
    SameMagic(s, t, base, 0);
    SameCommand(s, t, base);
    var rest := Requests(s, base + REQUEST_SIZE);
    assert found + ([CommandAt(t, 4)] + rest) == found + [CommandAt(t, 4)] + rest;
  }

  /** Once less than a request is left, everything has been found. */
  lemma {:induction false} AllExtracted(s: seq<byte>, i: nat, found: seq<Command>, text: seq<byte>)
    requires Extracted(s, i, found, text) && |s| < i + REQUEST_SIZE
    ensures found == Requests(s, 0) && Text(s, 0) == text + s[i..]
  {
  }

  lemma {:induction false} SameMagic(s: seq<byte>, t: seq<byte>, base: nat, i: nat)
    requires i + 4 <= |t| && base + |t| <= |s| && t == s[base..base + |t|]
    ensures MagicAt(t, i) == MagicAt(s, base + i)
  {
    assert forall j :: i <= j < i + 4 ==> t[j] == s[base + j];
  }

  lemma {:induction false} SameCommand(s: seq<byte>, t: seq<byte>, base: nat)
    requires REQUEST_SIZE <= |t| && base + |t| <= |s| && t == s[base..base + |t|]
    ensures CommandAt(t, 4) == CommandAt(s, base + 4)
  {
    assert forall j :: 4 <= j < REQUEST_SIZE ==> t[j] == s[base + j];
  }

  // ---- The scanner

  /** The outcome of a poll: some bytes can be read, none came in time, or it failed. */
  datatype Poll = Ready(available: nat) | Timeout | Failed

  /** A call returns a request, or none yet; or it ends the service, because the poll or the
      read failed or nothing came after everything had been served. */
  datatype Outcome = Found(command: Command) | Idle | PollFailed | ReadFailed | Unneeded {
    predicate Stopped() {
      PollFailed? || ReadFailed? || Unneeded?
    }

    /** What `ReadRequest` makes of it. */
    function Request(): Option<Command> {
      match this
      case Found(command) => Some(command)
      case Idle => None
      case _ => Some(Command(DESTROY, 0, 0))
    }
  }

  /** Every poll finds something to read, and there are more of them than bytes. */
  predicate Prompt(stream: seq<byte>, polls: seq<Poll>) {
    (forall p :: p in polls ==> p.Ready? && p.available > 0) && |polls| > |stream|
  }

  function Zeros(n: nat): seq<byte> {
    seq(n, _ => 0)
  }

  /** The buffer is resized to its capacity before every read. */
  function Resized(buffer: seq<byte>): (b: seq<byte>)
    ensures |buffer| <= READ_BUFFER_SIZE ==> |b| == READ_BUFFER_SIZE
  {
    buffer + Zeros(Max(0, READ_BUFFER_SIZE - |buffer|))
  }

  class RequestScanner {
    /** All bytes the device ever sends, and how the polls turn out. */
    const stream: seq<byte>
    const polls: seq<Poll>
    var polled: nat
    var taken: nat
    var buffer: seq<byte>
    var output: seq<byte>
    var servingComplete: bool

    /** Where in the stream the buffer starts, and whether a read has failed. */
    ghost var base: nat
    ghost var ended: bool
    /** The requests returned, the text passed on, and how many bytes were output besides. */
    ghost var found: seq<Command>
    ghost var text: seq<byte>
    ghost var repeated: nat
    /** How the last call of `ReadRequest` turned out. */
    ghost var last: Outcome

    /** The buffer holds the last bytes that were read, and after a failed read its unused
        capacity too; what came before them was returned or passed on, however it was cut
        into reads. */
    ghost predicate Valid()
      reads `buffer, `taken, `base, `ended, `found, `text
    {
      && base <= taken <= |stream| && Extracted(stream, base, found, text)
      && buffer == if ended then Resized(stream[base..taken]) else stream[base..taken]
    }

    /** The output is the text, exactly if nothing else was output. */
    ghost predicate Faithful()
      reads `output, `text, `repeated
    {
      |output| == |text| + repeated && (repeated == 0 ==> output == text)
    }

    /** When every poll finds something to read, each one before a failed read gives a byte. */
    ghost predicate Counted()
      reads `polled, `taken, `ended
    {
      (forall p :: p in polls ==> p.Ready? && p.available > 0) ==> polled <= taken + if ended then 1 else 0
    }

    /** The bytes of this request come right before the buffer. */
    ghost predicate Took(c: Command)
      reads `base
    {
      base >= REQUEST_SIZE && RequestAt(stream, base - REQUEST_SIZE, c)
    }

    constructor (stream: seq<byte>, polls: seq<Poll>)
      ensures Counted() && Valid() && Faithful() && !ended && base == taken == polled == 0
      ensures found == [] && text == [] && output == [] && repeated == 0 && !servingComplete
      ensures this.stream == stream && this.polls == polls
    {
      this.stream, this.polls := stream, polls;
      polled, taken, buffer, output, servingComplete := 0, 0, [], [], false;
      base, ended, found, text, repeated, last := 0, false, [], [], 0, Idle;
    }

    method FindMagic() returns (cur: nat, magic: bool)
      ensures cur <= |buffer| && NoMagic(buffer, 0, cur)
      ensures if magic then cur + 4 < |buffer| && MagicAt(buffer, cur) else cur == Max(0, |buffer| - 4)
    {
      cur, magic := 0, false;
      while cur + 4 < |buffer|
        invariant cur <= Max(0, |buffer| - 4)
        invariant NoMagic(buffer, 0, cur)
      {
        MagicBytes(buffer, cur);
        if FromBig32(buffer, cur) == INCR {
          magic := true;
          break;
        }
        cur := cur + 1;
      }
    }

    method Discard(n: nat)
      requires Valid() && Faithful() && !ended && n <= Max(0, |buffer| - 4) && NoMagic(buffer, 0, n)
      modifies `buffer, `output, `text, `base
      ensures Valid() && Faithful() && buffer == old(buffer[n..]) && base == old(base) + n
    {
      var passed, rest := buffer[..n], buffer[n..];
      Window(stream, buffer, base, n);
      DropExtracts(stream, buffer, base, n, found, text);
      output, text := output + passed, text + passed;
      buffer, base := rest, base + n;
    }

    method TakeCommand() returns (command: Command)
      requires Valid() && !ended && REQUEST_SIZE <= |buffer| && MagicAt(buffer, 0)
      modifies `buffer, `found, `base
      ensures Valid() && found == old(found) + [command] && base > old(base) && Took(command)
    {
      Window(stream, buffer, base, REQUEST_SIZE);
      DecodedIsThere(buffer, 0);
      TakeExtracts(stream, buffer, base, found, text);
      command := CommandAt(buffer, 4);
      buffer := buffer[REQUEST_SIZE..];
      found := found + [command];
      base := base + REQUEST_SIZE;
    }

    /** Less than a request is ever retained when more is read, so that there is room: a read
        fails only if it has to. It then leaves the buffer at its capacity. */
    method ReadMore(available: nat) returns (more: bool)
      requires Valid() && !ended && |buffer| < REQUEST_SIZE
      modifies `buffer, `taken, `ended
      ensures Valid() && ended == !more && more == (0 < available && old(taken) < |stream|)
      ensures |buffer| <= READ_BUFFER_SIZE
      ensures if more then taken > old(taken) else buffer == Resized(old(buffer)) && taken == old(taken)
    {
      var size := |buffer|;
      var r := Min(available, Min(READ_BUFFER_SIZE - size, |stream| - taken));
      buffer := Resized(buffer);
      more := r > 0;
      if more {
        buffer := buffer[..size] + stream[taken..taken + r];
        taken := taken + r;
        assert buffer == stream[base..taken];
      } else {
        ended := true;
      }
    }

    /** One round of the loop up to the poll: passes over text, and takes a request if the
        buffer holds a whole one. */
    method Scan() returns (command: Option<Command>)
      requires Valid() && Faithful() && !ended
      modifies `buffer, `output, `text, `found, `base
      ensures Valid() && Faithful() && base >= old(base)
      ensures command.None? ==> |buffer| < REQUEST_SIZE && found == old(found)
      ensures command.Some? ==> found == old(found) + [command.value] && base > old(base) && Took(command.value)
    {
      var cur, magic := FindMagic();
      Discard(cur);
      if magic && |buffer| >= REQUEST_SIZE {
        var c := TakeCommand();
        return Some(c);
      }
      return None;
    }

    /** The whole buffer is output, but stays. */
    method Reprint()
      requires Faithful()
      modifies `output, `repeated
      ensures Faithful() && repeated == old(repeated) + |buffer|
      ensures old(repeated) == 0 ==> output == text + buffer
    {
      output := output + buffer;
      repeated := repeated + |buffer|;
    }

    method Receive(available: nat) returns (end: Option<Outcome>)
      requires Valid() && Faithful() && !ended && |buffer| < REQUEST_SIZE
      modifies `buffer, `taken, `output, `repeated, `ended
      ensures Valid() && Faithful() && (end.None? <==> !ended) && (end.None? ==> taken > old(taken))
      ensures end.None? ==> repeated == old(repeated)
      ensures end.Some? ==> end == Some(ReadFailed) && taken == old(taken) && repeated == old(repeated) + |buffer|
      ensures end.Some? ==> taken == |stream| || available == 0
      ensures end.Some? && repeated == |buffer| ==> output == text + buffer
    {
      var more := ReadMore(available);
      if more {
        return None;
      }
      Reprint();
      return Some(ReadFailed);
    }

    /** The rest of the round: waits for bytes and reads them. Without any, the buffer is
        output and the call ends. */
    method Await(blocking: bool) returns (end: Option<Outcome>)
      requires Valid() && Faithful() && !ended && |buffer| < REQUEST_SIZE
      modifies `buffer, `taken, `polled, `output, `repeated, `ended
      ensures old(Counted()) ==> Counted()
      ensures Valid() && Faithful() && (ended <==> end == Some(ReadFailed))
      ensures old(polled) <= polled <= Max(old(polled), |polls|)
      ensures end.None? ==> old(polled) < polled && repeated == old(repeated) && taken > old(taken)
      ensures end.Some? ==> !end.value.Found? && taken == old(taken) && repeated == old(repeated) + |buffer|
      ensures end.Some? && repeated == |buffer| ==> output == text + buffer
      ensures end == Some(Idle) || end == Some(Unneeded) ==> old(polled) < polled && Timeout in polls
      ensures end == Some(Idle) ==> !(blocking && servingComplete)
      ensures end == Some(Unneeded) ==> blocking && servingComplete
      ensures end == Some(PollFailed) ==> polled == old(polled) && (polled < |polls| ==> polls[polled].Failed?)
      ensures end == Some(ReadFailed) ==> taken == |stream| || Ready(0) in polls
    {
      var poll := if polled < |polls| then polls[polled] else Poll.Failed;
      if poll.Failed? {
        Reprint();
        return Some(PollFailed);
      }
      polled := polled + 1;
      if poll.Timeout? {
        Reprint();
        return Some(if blocking && servingComplete then Unneeded else Idle);
      }
      end := Receive(poll.available);
    }

    /** `SkipToRequest`: whatever the polls say, the next request of the stream is found, or
        none is lost. When the call ends without one, the buffer has been output. */
    method SkipToRequest(blocking: bool) returns (outcome: Outcome)
      requires Valid() && Faithful() && !ended
      modifies `buffer, `taken, `polled, `output, `repeated, `text, `found, `base, `ended
      ensures Valid() && Faithful() && base >= old(base) && (ended <==> outcome.ReadFailed?)
      ensures old(Counted()) ==> Counted()
      ensures outcome.Found? ==> found == old(found) + [outcome.command] && repeated == old(repeated) && base > old(base)
      ensures outcome.Found? ==> Took(outcome.command)
      ensures !outcome.Found? ==> found == old(found) && taken - base < REQUEST_SIZE
      ensures !outcome.Found? ==> repeated == old(repeated) + |buffer|
      ensures !outcome.Found? && repeated == |buffer| ==> output == text + buffer
      ensures old(polled) <= polled <= Max(old(polled), |polls|) && taken >= old(taken)
      ensures outcome.Idle? || outcome.Unneeded? ==> old(polled) < polled && Timeout in polls
      ensures outcome.Idle? ==> !(blocking && servingComplete)
      ensures outcome.Unneeded? ==> blocking && servingComplete
      ensures outcome.PollFailed? ==> polled < |polls| ==> polls[polled].Failed?
      ensures outcome.PollFailed? ==> polled == old(polled) || taken > old(taken)
      ensures outcome.ReadFailed? ==> taken == |stream| || Ready(0) in polls
    {
      while true
        invariant Valid() && Faithful() && !ended && base >= old(base)
        invariant repeated == old(repeated) && found == old(found)
        invariant old(polled) <= polled <= Max(old(polled), |polls|) && taken >= old(taken)
        invariant (polled == old(polled) || taken > old(taken)) && (old(Counted()) ==> Counted())
        decreases |polls| - polled
      {
        var command := Scan();
        if command.Some? {
          return Found(command.value);
        }
        var end := Await(blocking);
        if end.Some? {
          return end.value;
        }
      }
    }

    /** A call that has ended the service had a reason: a poll failed, the stream ended and all
        its requests have been returned, or nothing came in time. */
    ghost predicate Excused()
      reads `last, `polled, `found
    {
      && (last.PollFailed? && polled < |polls| ==> polls[polled].Failed?)
      && (last.ReadFailed? && Ready(0) !in polls ==> found == Requests(stream, 0))
      && (last.Unneeded? ==> Timeout in polls)
    }

    /** `ReadRequest`: a request, none yet, or the request to stop when the device is gone, or
        when nothing came in time after everything had been served. Every request has been
        returned then, if each poll found something to read. */
    method ReadRequest(blocking: bool) returns (request: Option<Command>)
      requires Valid() && Faithful() && !ended
      modifies `buffer, `taken, `polled, `output, `repeated, `text, `found, `base, `ended, `last
      ensures Valid() && Faithful() && base >= old(base) && old(polled) <= polled <= Max(old(polled), |polls|)
      ensures request.None? ==> found == old(found) && old(polled) < polled && !ended && !(blocking && servingComplete)
      ensures request.Some? && request.value.kind != DESTROY ==> found == old(found) + [request.value]
      ensures request.Some? && request.value.kind != DESTROY ==> base > old(base) && !ended
      ensures request.Some? && request.value.kind == DESTROY ==>
        found == old(found) || found == old(found) + [request.value]
      ensures request == last.Request() && (last.Found? <==> found != old(found)) && Excused()
      ensures last.Found? ==> Took(last.command)
      ensures last.Unneeded? ==> blocking && servingComplete
      ensures old(Counted()) ==> Counted()
      ensures old(Counted()) && old(polled) <= |polls| && Prompt(stream, polls) && request.Some? && found == old(found) ==>
        found == Requests(stream, 0)
    {
      var outcome := SkipToRequest(blocking);
      last := outcome;
      if outcome.ReadFailed? && taken == |stream| {
        AllExtracted(stream, base, found, text);
      }
      if old(Counted()) && old(polled) <= |polls| && Prompt(stream, polls) && outcome.Stopped() {
        PromptFailsRead(stream, polls, polled, taken, outcome);
        AllExtracted(stream, base, found, text);
      }
      match outcome
      case Found(command) => return Some(command);
      case Idle => return None;
      case _ => return Some(Command(DESTROY, 0, 0));
    }

    /** All requests up to the end, whatever mode each one is waited for in. */
    method Drain(blocking: nat -> bool) returns (requests: seq<Command>, end: Outcome)
      requires Valid() && Faithful() && Counted() && !ended && polled <= |polls| && found == [] && repeated == 0
      modifies `buffer, `taken, `polled, `output, `repeated, `text, `found, `base, `ended
      ensures Valid() && Faithful() && requests == found && taken - base < REQUEST_SIZE
      ensures end.Stopped() && (ended <==> end.ReadFailed?) && (Timeout !in polls ==> !end.Unneeded?)
      ensures Timeout !in polls ==> output == text + buffer
      ensures end.ReadFailed? ==> taken == |stream| || Ready(0) in polls
      ensures Counted() && polled <= |polls| && (end.PollFailed? && polled < |polls| ==> polls[polled].Failed?)
    {
      requests := [];
      end := SkipToRequest(blocking(0));
      var round: nat := 1;
      while !end.Stopped()
        invariant Valid() && Faithful() && Counted() && polled <= |polls| && (ended <==> end.ReadFailed?)
        invariant end.PollFailed? && polled < |polls| ==> polls[polled].Failed?
        invariant found == if end.Found? then requests + [end.command] else requests
        invariant end.Stopped() ==> taken - base < REQUEST_SIZE && (repeated == |buffer| ==> output == text + buffer)
        invariant Timeout !in polls ==> repeated == if end.Stopped() then |buffer| else 0
        invariant end.Idle? || end.Unneeded? ==> Timeout in polls
        invariant end.ReadFailed? ==> taken == |stream| || Ready(0) in polls
        decreases !end.Stopped(), |polls| - polled + |stream| - base
      {
        if end.Found? {
          requests := requests + [end.command];
        }
        end := SkipToRequest(blocking(round));
        round := round + 1;
      }
    }
  }

  /** What is output after the text, when `kept` is retained. */
  lemma {:induction false} OutputIsText(text: seq<byte>, kept: seq<byte>, failed: bool)
    requires |kept| < REQUEST_SIZE
    ensures var output := text + if failed then Resized(kept) else kept;
      && output == (text + kept) + (if failed then Zeros(READ_BUFFER_SIZE - |kept|) else [])
      && (output == text + kept <==> !failed)
  {
    var zeros := Zeros(READ_BUFFER_SIZE - |kept|);
    assert text + (kept + zeros) == text + kept + zeros;
    assert |text + (kept + zeros)| > |text + kept|;
  }

  /** More polls than bytes, and each finds something: one of the reads must fail. */
  lemma {:induction false} MustFailRead(polls: seq<Poll>, polled: nat, taken: nat, end: Outcome)
    requires (forall p :: p in polls ==> p.Ready?) && end.Stopped() && (Timeout !in polls ==> !end.Unneeded?)
    requires polled <= |polls| && (end.PollFailed? && polled < |polls| ==> polls[polled].Failed?)
    requires polled <= taken + if end.ReadFailed? then 1 else 0
    ensures end.ReadFailed? || |polls| <= taken
  {
    assert Timeout !in polls;
    if polled < |polls| {
      assert polls[polled] in polls;
    }
  }

  lemma {:induction false} PromptFailsRead(stream: seq<byte>, polls: seq<Poll>, polled: nat, taken: nat, end: Outcome)
    requires taken <= |stream| && end.Stopped() && (Timeout !in polls ==> !end.Unneeded?)
    requires polled <= |polls| && (end.PollFailed? && polled < |polls| ==> polls[polled].Failed?)
    requires (forall p :: p in polls ==> p.Ready? && p.available > 0) ==> polled <= taken + if end.ReadFailed? then 1 else 0
    ensures Prompt(stream, polls) ==> end.ReadFailed?
  {
    if Prompt(stream, polls) {
      MustFailRead(polls, polled, taken, end);
    }
  }

  /** A whole session: however the stream is cut into reads and whatever the polls say, the
      requests returned are those of the stream, first to last, and once the stream has ended
      they are all of them. Without a timeout the output is exactly the text then if the
      session ended on a failed poll; if it ended on a failed read, the unused capacity of
      the buffer was output too. */
  method Session(stream: seq<byte>, polls: seq<Poll>, blocking: nat -> bool)
    returns (requests: seq<Command>, output: seq<byte>, taken: nat, end: Outcome, ghost retained: nat)
    ensures requests <= Requests(stream, 0) && taken <= |stream| && retained < REQUEST_SIZE && end.Stopped()
    ensures taken == |stream| ==> requests == Requests(stream, 0)
    ensures taken == |stream| && Timeout !in polls ==>
      output == Text(stream, 0) + if end.ReadFailed? then Zeros(READ_BUFFER_SIZE - retained) else []
    ensures taken == |stream| && Timeout !in polls ==> (output == Text(stream, 0) <==> end.PollFailed?)
    ensures end.ReadFailed? && Ready(0) !in polls ==> taken == |stream|
    ensures Prompt(stream, polls) ==> end.ReadFailed?
  {
    var scanner := new RequestScanner(stream, polls);
    requests, end := scanner.Drain(blocking);
    output, taken := scanner.output, scanner.taken;
    retained := taken - scanner.base;
    if taken == |stream| {
      AllExtracted(stream, scanner.base, scanner.found, scanner.text);
      if Timeout !in polls {
        assert stream[scanner.base..taken] == stream[scanner.base..];
        OutputIsText(scanner.text, stream[scanner.base..], end.ReadFailed?);
      }
    }
    PromptFailsRead(stream, polls, scanner.polled, taken, end);
  }

  /** Every stream has a session that passes more on than its text: the device sends byte by
      byte, and closes. */
  method ClosedSession(stream: seq<byte>, blocking: nat -> bool) returns (output: seq<byte>)
    ensures |Text(stream, 0)| < |output| && output[..|Text(stream, 0)|] == Text(stream, 0)
    ensures forall i :: |Text(stream, 0)| <= i < |output| ==> output[i] == 0
  {
    var polls := seq(|stream| + 1, _ => Ready(1));
    var requests, taken, end;
    ghost var retained;
    requests, output, taken, end, retained := Session(stream, polls, blocking);
  }
}
