/** The sync client's deferred acknowledgements: files are sent without waiting, and
    their statuses are read back later, in order, without over-reading. */
module SyncAcks {
  import opened Common
  import opened Packets

  const ID_OKAY: uint32 := 0x59414b4f
  const ID_FAIL: uint32 := 0x4c494146
  const SYNC_DATA_MAX := 0x1_0000
  const STATUS_SIZE := 8
  const MAX_DEFERRED_ACKS := 128

  datatype Verdict = Okay | Fail(msg: seq<byte>)

  /** A status the daemon sends for one file; its message is not too long. */
  type Status = v: Verdict | v.Fail? ==> |v.msg| <= SYNC_DATA_MAX witness Okay

  function StatusBytes(s: Status): seq<byte> {
    match s
    case Okay => EncodeU32(ID_OKAY) + EncodeU32(0)
    case Fail(msg) => EncodeU32(ID_FAIL) + EncodeU32(|msg|) + msg
  }

  /** The bytes of a list of things, one after the other. */
  function Flatten<T>(f: T -> seq<byte>, ts: seq<T>): seq<byte> {
    if ts == [] then [] else Flatten(f, ts[..|ts| - 1]) + f(ts[|ts| - 1])
  }

  /** The same bytes, read from the front. */
  lemma {:induction false} FlattenFront<T>(f: T -> seq<byte>, ts: seq<T>)
    requires ts != []
    ensures Flatten(f, ts) == f(ts[0]) + Flatten(f, ts[1..])
  {
    var last := |ts| - 1;
    if last == 0 {
      assert ts[..0] == [] && ts[1..] == [];
    } else {
      var mid := ts[1..last];
      assert ts[..last][1..] == mid && ts[1..][..last - 1] == mid && ts[1..][last - 1] == ts[last];
      FlattenFront(f, ts[..last]);
      assert f(ts[0]) + Flatten(f, mid) + f(ts[last]) == f(ts[0]) + (Flatten(f, mid) + f(ts[last]));
    }
  }

  lemma {:induction false} FlattenFrontThen<T>(f: T -> seq<byte>, ts: seq<T>, rest: seq<byte>)
    requires ts != []
    ensures Flatten(f, ts) + rest == f(ts[0]) + (Flatten(f, ts[1..]) + rest)
  {
    FlattenFront(f, ts);
  }

  function StatusesBytes(ss: seq<Status>): seq<byte> {
    Flatten(StatusBytes, ss)
  }

  /** A status has begun but is not complete: there is no whole header, or the message of
      a failure is still short. */
  predicate Incomplete(b: seq<byte>) {
    |b| < STATUS_SIZE ||
    (DecodeU32(b, 0) == ID_FAIL && DecodeU32(b, 4) <= SYNC_DATA_MAX && |b| < STATUS_SIZE + DecodeU32(b, 4))
  }

  lemma {:induction false} StatusStart(s: Status, rest: seq<byte>)
    ensures var b := StatusBytes(s) + rest;
      && DecodeU32(b, 0) == (if s.Okay? then ID_OKAY else ID_FAIL)
      && DecodeU32(b, 4) == (if s.Okay? then 0 else |s.msg|)
  {
    var b := StatusBytes(s) + rest;
    assert b[0..4] == EncodeU32(if s.Okay? then ID_OKAY else ID_FAIL);
    assert b[4..8] == EncodeU32(if s.Okay? then 0 else |s.msg|);
    U32RoundTrip(if s.Okay? then ID_OKAY else ID_FAIL, b, 0);
    U32RoundTrip(if s.Okay? then 0 else |s.msg|, b, 4);
  }

  lemma {:induction false} FrontOf(ss: seq<Status>, rest: seq<byte>)
    requires ss != []
    ensures StatusesBytes(ss) + rest == StatusBytes(ss[0]) + (StatusesBytes(ss[1..]) + rest)
  {
    FlattenFrontThen(StatusBytes, ss, rest);
  }

  /** Eight bytes that are no header of a status: an id that is neither, an OKAY with a
      message, or a message that is too long. */
  predicate BadStart(b: seq<byte>) {
    && |b| >= STATUS_SIZE
    && if DecodeU32(b, 0) == ID_OKAY then DecodeU32(b, 4) != 0
       else DecodeU32(b, 0) != ID_FAIL || DecodeU32(b, 4) > SYNC_DATA_MAX
  }

  /** No status can be parsed from `b`: it is incomplete, or it is none. */
  predicate Stuck(b: seq<byte>) {
    Incomplete(b) || BadStart(b)
  }

  /** The bytes of some statuses do not look like that. */
  lemma {:induction false} StatusesNotStuck(ss: seq<Status>, rest: seq<byte>)
    requires ss != []
    ensures !Stuck(StatusesBytes(ss) + rest)
  {
    FrontOf(ss, rest);
    NotStuck(ss[0], StatusesBytes(ss[1..]) + rest);
  }

  /** Lists of statuses that one stream starts with agree as far as they go. */
  lemma {:induction false} StatusesAgree(a: seq<Status>, x: seq<byte>, b: seq<Status>, y: seq<byte>)
    requires StatusesBytes(a) + x == StatusesBytes(b) + y
    ensures a <= b || b <= a
  {
    if a != [] && b != [] {
      FrontOf(a, x);
      FrontOf(b, y);
      SameStatus(a[0], StatusesBytes(a[1..]) + x, b[0], StatusesBytes(b[1..]) + y);
      StatusesAgree(a[1..], x, b[1..], y);
    }
  }

  /** Where parsing is stuck there is no further status: every list of statuses the stream
      starts with is part of the parsed one. */
  lemma {:induction false} ParsedIsLongest(a: seq<Status>, x: seq<byte>, b: seq<Status>, y: seq<byte>)
    requires StatusesBytes(a) + x == StatusesBytes(b) + y && Stuck(y)
    ensures a <= b
  {
    if a != [] {
      if b == [] {
        assert [] + y == y;
        StatusesNotStuck(a, x);
        assert false;
      }
      FrontOf(a, x);
      FrontOf(b, y);
      SameStatus(a[0], StatusesBytes(a[1..]) + x, b[0], StatusesBytes(b[1..]) + y);
      ParsedIsLongest(a[1..], x, b[1..], y);
    }
  }

  /** More bytes only add statuses. */
  lemma {:induction false} MoreBytesMoreStatuses(a: seq<Status>, x: seq<byte>, b: seq<Status>, y: seq<byte>)
    requires StatusesBytes(a) + x <= StatusesBytes(b) + y && Stuck(y)
    ensures a <= b
  {
    var more := (StatusesBytes(b) + y)[|StatusesBytes(a) + x|..];
    assert StatusesBytes(a) + (x + more) == StatusesBytes(b) + y;
    ParsedIsLongest(a, x + more, b, y);
  }

  /** Bytes determine statuses: a stream splits in only one way into whole statuses and a
      rest in which there is none, so what has been parsed depends on the bytes received and
      not on how they were cut into reads or calls. */
  lemma {:induction false} StatusesAreDetermined(a: seq<Status>, x: seq<byte>, b: seq<Status>, y: seq<byte>)
    requires Stuck(x) && Stuck(y) && StatusesBytes(a) + x == StatusesBytes(b) + y
    ensures a == b && x == y
  {
    ParsedIsLongest(a, x, b, y);
    ParsedIsLongest(b, y, a, x);
    assert (StatusesBytes(a) + x)[|StatusesBytes(a)|..] == x;
    assert (StatusesBytes(b) + y)[|StatusesBytes(b)|..] == y;
  }

  lemma {:induction false} NotStuck(s: Status, rest: seq<byte>)
    ensures !Stuck(StatusBytes(s) + rest)
  {
    StatusStart(s, rest);
  }

  lemma {:induction false} SameStatus(a: Status, ra: seq<byte>, b: Status, rb: seq<byte>)
    requires StatusBytes(a) + ra == StatusBytes(b) + rb
    ensures a == b && ra == rb
  {
    StatusStart(a, ra);
    StatusStart(b, rb);
    var s, n := StatusBytes(a) + ra, |StatusBytes(a)|;
    assert |StatusBytes(b)| == n;
    assert s[..n] == StatusBytes(a) && s[n..] == ra && s[..n] == StatusBytes(b) && s[n..] == rb;
    if a.Fail? {
      assert s[STATUS_SIZE..n] == a.msg && s[STATUS_SIZE..n] == b.msg;
    }
  }

  // ---- What a stream still has to answer

  function Okays(n: nat): (ss: seq<Status>)
    ensures |ss| == n && forall i :: 0 <= i < n ==> ss[i] == Okay
  {
    seq(n, _ => Okay)
  }

  /** After the statuses `was` the stream goes on with `n` OKAYs. */
  predicate AnswersOkay(stream: seq<byte>, was: seq<Status>, n: nat) {
    StatusesBytes(was + Okays(n)) <= stream
  }

  /** After them it goes on with `k` OKAYs and a failure. */
  ghost predicate AnswersFail(stream: seq<byte>, was: seq<Status>, k: nat, s: Status) {
    s.Fail? && StatusesBytes(was + Okays(k) + [s]) <= stream
  }

  /** No failure answers one of `n` files. */
  ghost predicate NeverFails(stream: seq<byte>, was: seq<Status>, n: nat) {
    forall k: nat, s: Status :: k < n ==> !AnswersFail(stream, was, k, s)
  }

  lemma {:induction false} OkaysOrFail(stream: seq<byte>, was: seq<Status>, n: nat)
    requires AnswersOkay(stream, was, n)
    ensures NeverFails(stream, was, n)
  {
    var okays := was + Okays(n);
    forall k: nat, s: Status | k < n && AnswersFail(stream, was, k, s)
      ensures false
    {
      var want := was + Okays(k) + [s];
      assert okays[|was| + k] == Okay && want[|was| + k] == s;
      StatusesAgree(okays, stream[|StatusesBytes(okays)|..], want, stream[|StatusesBytes(want)|..]);
    }
  }

  /** A stream on which parsing gets stuck for good before the `n`th OKAY does not. */
  lemma {:induction false} StuckTooSoon(stream: seq<byte>, was: seq<Status>, n: nat, parsed: seq<Status>, rest: seq<byte>)
    requires stream == StatusesBytes(parsed) + rest && Stuck(rest) && |parsed| < |was| + n
    ensures !AnswersOkay(stream, was, n)
  {
    if AnswersOkay(stream, was, n) {
      var want := was + Okays(n);
      ParsedIsLongest(want, stream[|StatusesBytes(want)|..], parsed, rest);
    }
  }

  /** Nor does one with a failure before it. */
  lemma {:induction false} FailsTooSoon(stream: seq<byte>, was: seq<Status>, n: nat, parsed: seq<Status>, rest: seq<byte>)
    requires stream == StatusesBytes(parsed) + rest
    requires |was| < |parsed| <= |was| + n && parsed[|parsed| - 1].Fail?
    ensures !AnswersOkay(stream, was, n)
  {
    if AnswersOkay(stream, was, n) {
      var want := was + Okays(n);
      assert want[|parsed| - 1] == Okay;
      StatusesAgree(want, stream[|StatusesBytes(want)|..], parsed, rest);
    }
  }

  // ---- The connection

  datatype ReadStatus = Success | Failure | TryLater

  predicate AllReady(polls: seq<bool>) {
    forall i :: 0 <= i < |polls| ==> polls[i]
  }

  /** At most `n` polls were made. */
  predicate Drops(was: seq<bool>, now: seq<bool>, n: nat) {
    |now| <= |was| <= |now| + n && now == was[|was| - |now|..]
  }

  lemma {:induction false} DropsChain(a: seq<bool>, b: seq<bool>, c: seq<bool>, m: nat, n: nat)
    requires Drops(a, b, m) && Drops(b, c, n)
    ensures Drops(a, c, m + n)
  {
  }

  class SyncConnection {
    const fd: Descriptor
    /** Everything the descriptor gives before it ends or fails. */
    ghost const stream: seq<byte>
    /** Whether each poll finds the descriptor ready. */
    var polls: seq<bool>
    /** Files sent and not yet acknowledged, oldest first. */
    var deferred: seq<(string, string)>
    var buf: seq<byte>
    /** History: every file sent, every byte received, every status parsed, and how often
        there was a header that is no status. */
    ghost var sent: seq<(string, string)>
    ghost var received: seq<byte>
    ghost var statuses: seq<Status>
    ghost var bad: nat
    /** How often a poll found nothing, or a read gave fewer bytes than it was asked for. */
    ghost var stalls: nat
    /** The statuses up to the first bad header, and the bytes received after them. */
    ghost var intact: seq<Status>
    ghost var rest: seq<byte>

    /** Each status parsed has retired the oldest file; the bytes received are the first of
        the stream, and those of the statuses and the buffer; a bad header is one that
        follows the statuses. */
    ghost predicate Bookkeeping()
      reads this, fd
    {
      && |statuses| <= |sent| && deferred == sent[|statuses|..]
      && received + fd.Unread() == stream && received == StatusesBytes(intact) + rest
      && (if bad == 0 then intact == statuses && rest == buf else intact <= statuses && BadStart(rest))
      && |buf| <= STATUS_SIZE + SYNC_DATA_MAX
    }

    /** Between calls the buffer holds an incomplete status, or a header that is none. */
    ghost predicate Valid()
      reads this, fd
    {
      Bookkeeping() && (Incomplete(buf) || (bad > 0 && |buf| == STATUS_SIZE && BadStart(buf)))
    }

    constructor (fd: Descriptor, polls: seq<bool>)
      ensures Valid() && this.fd == fd && stream == fd.Unread() && deferred == [] && statuses == [] && bad == 0
      ensures this.polls == polls
    {
      this.fd, this.polls, deferred, buf := fd, polls, [], [];
      stream, sent, received, statuses, bad, stalls, intact, rest := fd.Unread(), [], [], [], 0, 0, [], [];
      assert [] + fd.Unread() == fd.Unread();
    }

    /** Two connections on the same stream, whatever the sizes of their reads, their polls
        and their calls: one has parsed a part of what the other has, and after the same
        number of bytes they have parsed the same. */
    lemma {:induction false} AgreesWith(other: SyncConnection)
      requires Valid() && other.Valid() && stream == other.stream && |received| <= |other.received|
      ensures intact <= other.intact
      ensures |received| == |other.received| ==> intact == other.intact && (bad > 0 <==> other.bad > 0)
    {
      assert received == stream[..|received|] && other.received == stream[..|other.received|];
      MoreBytesMoreStatuses(intact, rest, other.intact, other.rest);
      if |received| == |other.received| {
        StatusesAreDetermined(intact, rest, other.intact, other.rest);
      }
    }

    method RecordFileSent(from: string, to: string)
      requires Valid()
      modifies this`deferred, this`sent
      ensures Valid() && sent == old(sent) + [(from, to)] && deferred == old(deferred) + [(from, to)]
    {
      deferred := deferred + [(from, to)];
      sent := sent + [(from, to)];
    }

    method Poll() returns (ready: bool)
      modifies this`polls
      ensures ready == (old(polls) != [] && old(polls)[0]) && polls == if old(polls) == [] then [] else old(polls)[1..]
    {
      ready := false;
      if polls != [] {
        ready, polls := polls[0], polls[1..];
      }
    }

    /** Everything has arrived, and each poll says so, for two polls a file. */
    ghost predicate Eager()
      reads this, fd
    {
      fd.Whole() && AllReady(polls) && |polls| >= 2 * |deferred|
    }

    /** One poll, if reading may not block, and one read of at most `missing` bytes. */
    method ReadMore(missing: nat, shouldBlock: bool) returns (r: ReadStatus)
      requires Bookkeeping() && 0 < missing && |buf| + missing <= STATUS_SIZE + SYNC_DATA_MAX
      modifies this`polls, this`buf, this`received, this`rest, this`stalls, fd
      ensures Bookkeeping() && old(buf) <= buf && |buf| <= |old(buf)| + missing
      ensures |received| - |buf| == |old(received)| - |old(buf)|
      ensures r.Success? ==> |buf| > |old(buf)|
      ensures !r.Success? ==> buf == old(buf)
      ensures r.TryLater? <==> !shouldBlock && (old(polls) == [] || !old(polls)[0])
      ensures r.Failure? ==> fd.Unread() == []
      ensures stalls == old(stalls) + if r.TryLater? || (r.Success? && |buf| < |old(buf)| + missing) then 1 else 0
      ensures Drops(old(polls), polls, if shouldBlock then 0 else 1)
      ensures old(fd.Whole()) ==> fd.Whole() && (!r.TryLater? && |buf| < |old(buf)| + missing ==> fd.Unread() == [])
    {
      if !shouldBlock {
        var ready := Poll();
        if !ready {
          stalls := stalls + 1;
          return TryLater;
        }
      }
      var data := ReadNext(missing);
      if 0 < |data| < missing {
        stalls := stalls + 1;
      }
      return if data == [] then Failure else Success;
    }

    /** What is read goes into the buffer. */
    method ReadNext(missing: nat) returns (data: seq<byte>)
      requires Bookkeeping() && 0 < missing && |buf| + missing <= STATUS_SIZE + SYNC_DATA_MAX
      modifies this`buf, this`received, this`rest, fd
      ensures Bookkeeping() && |data| <= missing && (data == [] ==> fd.Unread() == [])
      ensures old(fd.Whole()) ==> fd.Whole() && (|data| < missing ==> fd.Unread() == [])
      ensures buf == old(buf) + data && received == old(received) + data
    {
      Associative(StatusesBytes(intact), rest, fd.Unread());
      data := fd.ReadSome(missing);
      Associative(received, data, fd.Unread());
      Associative(StatusesBytes(intact), rest, data);
      if bad > 0 {
        BadStays(rest, data);
      }
      buf, received, rest := buf + data, received + data, rest + data;
    }

    /** `read_until_amount`: it never asks for more than is missing, and puts reading off only
        after a poll that found nothing or a read that came short. */
    method ReadUntilAmount(amount: nat, shouldBlock: bool) returns (r: ReadStatus)
      requires Bookkeeping() && amount <= STATUS_SIZE + SYNC_DATA_MAX
      modifies this`polls, this`buf, this`received, this`rest, this`stalls, fd
      ensures Bookkeeping()
      ensures old(buf) <= buf && |buf| <= Max(|old(buf)|, amount)
      ensures |received| - |buf| == |old(received)| - |old(buf)|
      ensures r.Success? <==> |buf| >= amount
      ensures r.TryLater? ==> !shouldBlock && stalls > old(stalls)
      ensures r.Failure? ==> fd.Unread() == []
      ensures stalls >= old(stalls)
      ensures Drops(old(polls), polls, 1)
      ensures old(fd.Whole()) ==> fd.Whole() && (r.TryLater? && AllReady(old(polls)) && old(polls) != [] ==> fd.Unread() == [])
    {
      while |buf| < amount
        invariant Bookkeeping() && old(buf) <= buf && |buf| <= Max(|old(buf)|, amount)
        invariant |received| - |buf| == |old(received)| - |old(buf)| && stalls >= old(stalls)
        invariant Drops(old(polls), polls, if |buf| < amount then 0 else 1) && (old(fd.Whole()) ==> fd.Whole())
        decreases amount - |buf|
      {
        r := ReadMore(amount - |buf|, shouldBlock);
        if !r.Success? {
          return;
        }
        if !shouldBlock && |buf| < amount {
          return TryLater;
        }
      }
      return Success;
    }

    /** Retires the oldest file with status `s`, whose bytes are in the buffer. */
    method Retire(s: Status)
      requires Bookkeeping() && deferred != [] && buf == StatusBytes(s)
      modifies this`deferred, this`buf, this`statuses, this`intact, this`rest
      ensures Valid() && statuses == old(statuses) + [s] && deferred == old(deferred)[1..]
    {
      statuses := statuses + [s];
      assert statuses[..|statuses| - 1] == old(statuses);
      if bad == 0 {
        assert StatusesBytes(statuses) + [] == StatusesBytes(statuses);
        intact, rest := statuses, [];
      }
      deferred := deferred[1..];
      buf := [];
    }

    /** The header of a failure is in the buffer; its message follows. */
    method ParseFailure(msglen: nat, shouldBlock: bool) returns (r: ReadStatus)
      requires Bookkeeping() && deferred != [] && |buf| >= STATUS_SIZE && (|buf| == STATUS_SIZE || Incomplete(buf))
      requires DecodeU32(buf, 0) == ID_FAIL && DecodeU32(buf, 4) == msglen <= SYNC_DATA_MAX
      modifies this`polls, this`deferred, this`buf, this`received, this`statuses, this`intact, this`rest, this`stalls, fd
      ensures Valid() && !r.Success? && (r.TryLater? ==> !shouldBlock && stalls > old(stalls)) && stalls >= old(stalls)
      ensures Drops(old(polls), polls, 1)
      ensures old(fd.Whole()) ==> fd.Whole() && (r.TryLater? && AllReady(old(polls)) && old(polls) != [] ==> fd.Unread() == [])
      ensures if statuses == old(statuses) then deferred == old(deferred) && (r.Failure? ==> fd.Unread() == [])
              else exists msg :: |msg| == msglen && statuses == old(statuses) + [Fail(msg)] && r.Failure?
    {
      ghost var header := buf[..STATUS_SIZE];
      r := ReadUntilAmount(STATUS_SIZE + msglen, shouldBlock);
      assert buf[..STATUS_SIZE] == header;
      assert DecodeU32(buf, 0) == ID_FAIL && DecodeU32(buf, 4) == msglen;
      if r.Success? {
        var msg := buf[STATUS_SIZE..];
        FailBytes(buf);
        Retire(Fail(msg));
        r := Failure;
      }
    }

    /** The second half of the loop body: a whole header is in the buffer.  It fails at a
        bad header, at the end of the stream, or with the failure it has parsed. */
    method ParseStatus(shouldBlock: bool) returns (r: ReadStatus)
      requires Bookkeeping() && deferred != [] && |buf| >= STATUS_SIZE
      requires |buf| == STATUS_SIZE || Incomplete(buf)
      modifies this`polls, this`deferred, this`buf, this`received, this`statuses, this`bad, this`intact, this`rest, this`stalls, fd
      ensures Valid() && old(statuses) <= statuses && stalls >= old(stalls) && Drops(old(polls), polls, 1)
      ensures old(fd.Whole()) ==> fd.Whole() && (r.TryLater? && AllReady(old(polls)) && old(polls) != [] ==> fd.Unread() == [])
      ensures |statuses| <= |old(statuses)| + 1
      ensures bad == old(bad) + if old(BadStart(buf)) then 1 else 0
      ensures old(bad) == 0 ==> intact == statuses
      ensures r.Success? ==> statuses == old(statuses) + [Okay] && deferred == old(deferred)[1..]
      ensures r.TryLater? ==> !shouldBlock && stalls > old(stalls)
      ensures !r.Success? && statuses == old(statuses) ==> deferred == old(deferred)
      ensures !r.Success? && statuses != old(statuses) ==> r.Failure? && statuses[|statuses| - 1].Fail?
      ensures bad > old(bad) ==> r.Failure?
      ensures r.Failure? ==> bad > old(bad) || statuses != old(statuses) || fd.Unread() == []
    {
      var id, msglen := DecodeU32(buf, 0), DecodeU32(buf, 4);
      if id == ID_OKAY {
        if msglen != 0 {
          buf, bad := [], bad + 1;
          return Failure;
        }
        OkayBytes(buf);
        Retire(Okay);
        return Success;
      } else if id != ID_FAIL || msglen > SYNC_DATA_MAX {
        bad := bad + 1;
        return Failure;
      }
      r := ParseFailure(msglen, shouldBlock);
    }

    /** One round of `ReadAcknowledgements`. */
    method ReadOne(shouldBlock: bool) returns (r: ReadStatus)
      requires Valid() && deferred != []
      modifies this`polls, this`deferred, this`buf, this`received, this`statuses, this`bad, this`intact, this`rest, this`stalls, fd
      ensures Valid() && old(statuses) <= statuses && stalls >= old(stalls) && Drops(old(polls), polls, 2)
      ensures old(fd.Whole()) ==> fd.Whole() && (r.TryLater? && AllReady(old(polls)) && |old(polls)| > 1 ==> fd.Unread() == [])
      ensures |statuses| <= |old(statuses)| + 1
      ensures r.Success? ==> statuses == old(statuses) + [Okay] && deferred == old(deferred)[1..]
      ensures r.TryLater? ==> !shouldBlock && stalls > old(stalls)
      ensures !r.Success? && statuses == old(statuses) ==> deferred == old(deferred)
      ensures !r.Success? && statuses != old(statuses) ==> r.Failure? && statuses[|statuses| - 1].Fail?
      ensures old(bad) <= bad && (bad > old(bad) ==> r.Failure?) && (old(bad) == 0 ==> intact == statuses)
      ensures r.Failure? ==> bad > old(bad) || statuses != old(statuses) || fd.Unread() == []
    {
      r := ReadUntilAmount(STATUS_SIZE, shouldBlock);
      ghost var middle := polls;
      if r.Success? {
        r := ParseStatus(shouldBlock);
        DropsChain(old(polls), middle, polls, 1, 1);
      }
    }

    /** `ReadAcknowledgements`: true leaves fewer than 128 files unacknowledged, and none
        with `readAll`; every status parsed on the way was an OKAY, except that a failure
        may be the last one before it returns false.  It returns false only for a failure,
        a bad header or the end of the stream.
        With `readAll`, or without any stall, it returns true exactly if the stream goes on with
        an OKAY for every file; it leaves a file only after a stall.  If everything has arrived
        and the polls say so, all files are acknowledged exactly if the stream does, and no
        failure is passed over. */
    method ReadAcknowledgements(readAll: bool) returns (ok: bool)
      requires Valid()
      modifies this`polls, this`deferred, this`buf, this`received, this`statuses, this`bad, this`intact, this`rest, this`stalls, fd
      ensures Valid() && sent == old(sent) && old(statuses) <= statuses
      ensures ok ==> |deferred| < MAX_DEFERRED_ACKS && (readAll ==> deferred == [])
      ensures forall i :: |old(statuses)| <= i < |statuses| - 1 ==> statuses[i].Okay?
      ensures ok ==> bad == old(bad) && forall i :: |old(statuses)| <= i < |statuses| ==> statuses[i].Okay?
      ensures !ok ==> bad > old(bad) || fd.Unread() == [] || (|statuses| > |old(statuses)| && statuses[|statuses| - 1].Fail?)
      ensures ok && deferred != [] ==> stalls > old(stalls)
      ensures (readAll || stalls == old(stalls)) && old(bad) == 0 ==> (ok <==> AnswersOkay(stream, old(statuses), |old(deferred)|))
      ensures old(Eager()) && old(bad) == 0 ==>
        && (ok && deferred == [] <==> AnswersOkay(stream, old(statuses), |old(deferred)|))
        && (ok ==> NeverFails(stream, old(statuses), |old(deferred)|))
    {
      ghost var was, n := statuses, |deferred|;
      while deferred != []
        invariant Valid() && was <= statuses && bad == old(bad) && stalls >= old(stalls)
        invariant |statuses| + |deferred| == |was| + n
        invariant forall i :: |was| <= i < |statuses| ==> statuses[i].Okay?
        invariant old(Eager()) ==> Eager()
        invariant old(bad) == 0 ==> intact == statuses
        decreases |deferred|
      {
        var shouldBlock := readAll || |deferred| >= MAX_DEFERRED_ACKS;
        var r := ReadOne(shouldBlock);
        if !r.Success? {
          if r.Failure? && old(bad) == 0 {
            FailsRightly(was, n);
          } else if old(Eager()) && old(bad) == 0 {
            FailsRightly(was, n);
            NothingPassedOver(was, n);
          }
          return r.TryLater?;
        }
      }
      if bad == 0 {
        SucceedsRightly(was, n);
      }
      return true;
    }

    /** A failure before the end of the stream is parsed. */
    lemma {:induction false} NothingPassedOver(was: seq<Status>, n: nat)
      requires Valid() && bad == 0 && intact == statuses && was <= statuses && fd.Unread() == []
      requires forall i :: |was| <= i < |statuses| ==> statuses[i].Okay?
      ensures NeverFails(stream, was, n)
    {
      forall k: nat, s: Status | AnswersFail(stream, was, k, s)
        ensures false
      {
        var want := was + Okays(k) + [s];
        assert received + [] == received && want[|was| + k] == s;
        ParsedIsLongest(want, stream[|StatusesBytes(want)|..], intact, rest);
      }
    }

    /** Where it fails there are not enough OKAYs. */
    lemma {:induction false} FailsRightly(was: seq<Status>, n: nat)
      requires Valid() && intact == statuses && |statuses| + |deferred| == |was| + n
      requires if |statuses| > |was| && statuses[|statuses| - 1].Fail? then true
               else deferred != [] && (bad > 0 || fd.Unread() == [])
      ensures !AnswersOkay(stream, was, n)
    {
      Associative(StatusesBytes(intact), rest, fd.Unread());
      if |statuses| > |was| && statuses[|statuses| - 1].Fail? {
        FailsTooSoon(stream, was, n, intact, rest + fd.Unread());
      } else {
        if bad > 0 {
          BadStays(rest, fd.Unread());
        } else {
          assert rest + [] == rest;
        }
        StuckTooSoon(stream, was, n, intact, rest + fd.Unread());
      }
    }

    lemma {:induction false} SucceedsRightly(was: seq<Status>, n: nat)
      requires Valid() && bad == 0 && was <= statuses && |statuses| == |was| + n
      requires forall i :: |was| <= i < |statuses| ==> statuses[i].Okay?
      ensures AnswersOkay(stream, was, n) && NeverFails(stream, was, n)
    {
      assert statuses == was + Okays(n);
      OkaysOrFail(stream, was, n);
    }
  }

  lemma {:induction false} BadStays(b: seq<byte>, more: seq<byte>)
    requires BadStart(b)
    ensures BadStart(b + more)
  {
    assert (b + more)[0..4] == b[0..4] && (b + more)[4..8] == b[4..8];
  }

  lemma {:induction false} OkayBytes(b: seq<byte>)
    requires |b| == STATUS_SIZE && DecodeU32(b, 0) == ID_OKAY && DecodeU32(b, 4) == 0
    ensures b == StatusBytes(Okay)
  {
    U32Bytes(b, 0);
    U32Bytes(b, 4);
    assert b == b[0..4] + b[4..8];
  }

  lemma {:induction false} FailBytes(b: seq<byte>)
    requires |b| >= STATUS_SIZE && DecodeU32(b, 0) == ID_FAIL && DecodeU32(b, 4) == |b| - STATUS_SIZE <= SYNC_DATA_MAX
    ensures b == StatusBytes(Fail(b[STATUS_SIZE..]))
  {
    U32Bytes(b, 0);
    U32Bytes(b, 4);
    assert b == b[0..4] + b[4..8] + b[8..];
  }
}
