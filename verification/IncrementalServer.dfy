/** The incremental install server: it sends the blocks of its files, on request and ahead
    of requests, each behind the hash blocks the receiver needs to check it. */
module IncrementalServers {
  import opened Common
  import opened Verity
  import opened IncrementalFrames
  import opened RequestScanners
  import opened IncrementalLedgers
  import opened IncrementalReads
  import opened IncrementalHistories

  datatype SendResult = Sent | Skipped | Error

  // ---- Hash blocks

  /** The file with the first `n` hash blocks marked as well. */
  function MarkFirst(file: File, n: nat): File {
    file.(hashes := seq(|file.hashes|, k requires 0 <= k < |file.hashes| => k < n || file.hashes[k]))
  }

  lemma {:induction false} MarkNext(file: File, n: nat)
    requires n < |file.hashes|
    ensures MarkFirst(file, n).(hashes := MarkFirst(file, n).hashes[n := true]) == MarkFirst(file, n + 1)
  {
    assert MarkFirst(file, n).hashes[n := true] == MarkFirst(file, n + 1).hashes;
  }

  lemma {:induction false} MarkNone(file: File)
    ensures MarkFirst(file, 0) == file
  {
    assert MarkFirst(file, 0).hashes == file.hashes;
  }

  /** Nothing above the leaves has been sent. */
  predicate NoUpper(file: File) {
    forall k :: 0 <= k < LeafOffset(Blocks(file)) ==> !Marked(file.hashes, k)
  }

  /** If a hash block has made the server stop looking further, then nothing is missing. */
  predicate Intact(file: File, block: nat) {
    file.tree && (Marked(file.hashes, Leaf(Blocks(file), block)) || Marked(file.hashes, 0)) ==> AllUpper(file)
  }

  /** The next block above the leaves is still to be sent, and comes after the root. */
  lemma {:induction false} NextUpper(file: File, n: nat)
    requires NoUpper(file) && n < LeafOffset(Blocks(file)) && LeafOffset(Blocks(file)) <= |file.hashes|
    ensures !MarkFirst(file, n).hashes[n] && (n == 0 || MarkFirst(file, n).hashes[0])
  {
    assert !Marked(file.hashes, n);
  }

  /** From `was` to `now`, the first `n` hash blocks of a file were sent. */
  ghost predicate Hashed(was: Ledger, now: Ledger, f: nat, n: nat) {
    && f < |was.files| && now == was.(files := was.files[f := MarkFirst(was.files[f], n)], log := now.log)
    && OnlyHashes(was.log, now.log)
  }

  lemma {:induction false} HashedNone(was: Ledger, f: nat)
    requires f < |was.files|
    ensures Hashed(was, was, f, 0)
  {
    MarkNone(was.files[f]);
  }

  lemma {:induction false} HashedNext(was: Ledger, now: Ledger, x: WireFrame)
    requires x.Hash? && Hashed(was, now, x.file, x.index) && x.index < |was.files[x.file].hashes|
    ensures Hashed(was, WithHash(now, x), x.file, x.index + 1)
  {
    MarkNext(was.files[x.file], x.index);
  }

  ghost predicate MoreHashes(was: File, now: File) {
    forall k :: Marked(was.hashes, k) ==> Marked(now.hashes, k)
  }

  /** From `was` to `now`, hash blocks of one file may have been sent. */
  ghost predicate TreeStep(was: Ledger, now: Ledger, f: nat) {
    && f < |was.files| == |now.files| && now.files[f] == was.files[f].(hashes := now.files[f].hashes)
    && MoreHashes(was.files[f], now.files[f])
    && now == was.(files := was.files[f := now.files[f]], log := now.log, torn := now.torn)
    && OnlyHashes(was.log, now.log) && was.torn <= now.torn <= was.torn + {f}
  }

  lemma {:induction false} HashedIsTreeStep(was: Ledger, now: Ledger, f: nat, n: nat)
    requires Hashed(was, now, f, n)
    ensures TreeStep(was, now, f)
    ensures NoUpper(was.files[f]) && LeafOffset(Blocks(was.files[f])) <= |was.files[f].hashes| ==>
      && (AllUpper(now.files[f]) <==> LeafOffset(Blocks(was.files[f])) <= n)
      && (0 < LeafOffset(Blocks(was.files[f])) ==> (Marked(now.files[f].hashes, 0) <==> 0 < n))
  {
    var upper := LeafOffset(Blocks(was.files[f]));
    assert NoUpper(was.files[f]) && 0 < upper ==> !Marked(was.files[f].hashes, 0);
    if NoUpper(was.files[f]) && n < upper <= |was.files[f].hashes| {
      assert !Marked(was.files[f].hashes, n) && !Marked(now.files[f].hashes, n);
    }
  }

  lemma {:induction false} TreeStepChain(a: Ledger, b: Ledger, c: Ledger, f: nat)
    requires TreeStep(a, b, f) && TreeStep(b, c, f)
    ensures TreeStep(a, c, f)
  {
  }

  /** The leaf is in the tree, and above the leaves nothing changes when it is sent. */
  lemma {:induction false} LeafOnly(was: Ledger, now: Ledger, x: WireFrame)
    requires x.Hash? && x.file < |was.files| && x.index < |was.files[x.file].hashes|
    requires now == WithHash(was.(torn := was.torn + {x.file}), x)
    requires LeafOffset(Blocks(was.files[x.file])) <= x.index
    ensures TreeStep(was, now, x.file)
    ensures AllUpper(now.files[x.file]) <==> AllUpper(was.files[x.file])
    ensures NoUpper(now.files[x.file]) <==> NoUpper(was.files[x.file])
    ensures SameUpper(was.files[x.file], now.files[x.file].hashes)
  {
    var old', new' := was.files[x.file].hashes, now.files[x.file].hashes;
    assert forall k :: 0 <= k < LeafOffset(Blocks(was.files[x.file])) ==> Marked(new', k) == Marked(old', k);
  }

  /** The flags above the leaves are the same. */
  predicate SameUpper(file: File, flags: seq<bool>) {
    forall k :: 0 <= k < LeafOffset(Blocks(file)) ==> Marked(flags, k) == Marked(file.hashes, k)
  }

  lemma {:induction false} CoveredExactly(file: File, block: nat)
    requires Shaped(file) && 1 < Blocks(file) && block < Blocks(file)
    ensures Covered(file, block) <==> Marked(file.hashes, Leaf(Blocks(file), block)) && AllUpper(file)
  {
    LeafInRange(Blocks(file), block);
  }

  /** Only the flag of one data block may have changed, and hash blocks of its file. */
  ghost predicate DataStep(was: Ledger, now: Ledger, f: nat, b: nat) {
    && f < |was.files| == |now.files| && b < |was.files[f].sent| && !was.files[f].sent[b]
    && MoreHashes(was.files[f], now.files[f])
    && now.sizes == was.sizes && now.done == was.done && was.torn <= now.torn
    && now.files == was.files[f := was.files[f].(hashes := now.files[f].hashes,
         sent := was.files[f].sent[b := true], count := was.files[f].count + 1)]
    && DataFrames(now.log) == DataFrames(was.log) + 1 && NewData(was.log, now.log, f, iset{b})
  }

  /** From one log to the other, no data frames were sent but of these blocks of one file. */
  ghost predicate NewData(log: seq<WireFrame>, log': seq<WireFrame>, f: nat, blocks: iset<nat>) {
    log <= log' && forall i :: |log| <= i < |log'| && log'[i].Data? ==> log'[i].file == f && log'[i].index in blocks
  }

  lemma {:induction false} NewDataChain(a: seq<WireFrame>, b: seq<WireFrame>, c: seq<WireFrame>, f: nat, blocks: iset<nat>, more: iset<nat>)
    requires NewData(a, b, f, blocks) && NewData(b, c, f, more) && more <= blocks
    ensures NewData(a, c, f, blocks)
  {
  }

  lemma {:induction false} DataStepHolds(was: Ledger, middle: Ledger, x: WireFrame)
    requires x.Data? && TreeStep(was, middle, x.file)
    requires x.index < |was.files[x.file].sent| && !was.files[x.file].sent[x.index]
    ensures DataStep(was, WithData(middle, x), x.file, x.index)
  {
    OnlyHashesKeeps(was.log, middle.log, x.file, 0);
    DataFramesPush(middle.log, x);
  }

  // ---- Prefetching

  /** A range of blocks to send ahead of requests, after the priority blocks of the file:
      where it started, where it is, where it ends, and the next priority block. */
  datatype Prefetch = Prefetch(file: nat, start: nat, index: nat, end: nat, priority: nat)

  const BLOCKS_PER_ITERATION := 128

  /** Nothing that has been sent is forgotten. */
  ghost predicate Grows(was: seq<File>, now: seq<File>) {
    && |now| == |was|
    && forall f :: 0 <= f < |was| ==>
      && now[f].size == was[f].size && now[f].tree == was[f].tree && now[f].priority == was[f].priority && |now[f].sent| == |was[f].sent|
      && forall b :: 0 <= b < |was[f].sent| && was[f].sent[b] ==> now[f].sent[b]
  }

  lemma {:induction false} GrowsChain(a: seq<File>, b: seq<File>, c: seq<File>)
    requires Grows(a, b) && Grows(b, c)
    ensures Grows(a, c)
  {
  }

  /** The block was sent, could not be sent when it was tried, or does not exist. */
  ghost predicate Handled(files: seq<File>, failed: set<(nat, nat)>, f: nat, b: nat) {
    f < |files| && (|files[f].sent| <= b || files[f].sent[b] || (f, b) in failed)
  }

  ghost predicate Progress(files: seq<File>, failed: set<(nat, nat)>, p: Prefetch) {
    && p.file < |files| && p.start <= p.index && p.priority <= |files[p.file].priority|
    && (forall b: nat :: p.start <= b < p.index ==> Handled(files, failed, p.file, b))
    && forall j :: 0 <= j < p.priority ==> Handled(files, failed, p.file, files[p.file].priority[j])
  }

  lemma {:induction false} ProgressStays(was: seq<File>, now: seq<File>, before: set<(nat, nat)>, after: set<(nat, nat)>, p: Prefetch)
    requires Grows(was, now) && before <= after && Progress(was, before, p)
    ensures Progress(now, after, p)
  {
    forall b: nat | Handled(was, before, p.file, b)
      ensures Handled(now, after, p.file, b)
    {
    }
  }

  ghost predicate AllProgress(files: seq<File>, failed: set<(nat, nat)>, ps: seq<Prefetch>) {
    forall i :: 0 <= i < |ps| ==> Progress(files, failed, ps[i])
  }

  lemma {:induction false} AllProgressStays(was: seq<File>, now: seq<File>, before: set<(nat, nat)>, after: set<(nat, nat)>, ps: seq<Prefetch>)
    requires Grows(was, now) && before <= after && AllProgress(was, before, ps)
    ensures AllProgress(now, after, ps)
  {
    forall i | 0 <= i < |ps|
      ensures Progress(now, after, ps[i])
    {
      ProgressStays(was, now, before, after, ps[i]);
    }
  }

  /** The same ranges of the same files, however far along. */
  predicate SameTasks(ps: seq<Prefetch>, qs: seq<Prefetch>) {
    && |ps| == |qs|
    && forall i :: 0 <= i < |ps| ==>
      ps[i].file == qs[i].file && ps[i].start == qs[i].start && ps[i].end == qs[i].end
  }

  predicate Finished(files: seq<File>, p: Prefetch)
    requires p.file < |files|
  {
    p.index >= p.end && (files[p.file].priority == [] || p.priority >= |files[p.file].priority|)
  }

  /** Every block of the range and every priority block was handled. */
  ghost predicate Served(files: seq<File>, failed: set<(nat, nat)>, p: Prefetch) {
    && p.file < |files|
    && (forall b: nat :: p.start <= b < p.end ==> Handled(files, failed, p.file, b))
    && forall j :: 0 <= j < |files[p.file].priority| ==> Handled(files, failed, p.file, files[p.file].priority[j])
  }

  ghost predicate AllServed(files: seq<File>, failed: set<(nat, nat)>, ps: seq<Prefetch>) {
    forall i :: 0 <= i < |ps| ==> Served(files, failed, ps[i])
  }

  lemma {:induction false} FinishedIsServed(files: seq<File>, failed: set<(nat, nat)>, p: Prefetch)
    requires Progress(files, failed, p) && Finished(files, p)
    ensures Served(files, failed, p)
  {
  }

  lemma {:induction false} AllServedStays(was: seq<File>, now: seq<File>, before: set<(nat, nat)>, after: set<(nat, nat)>, ps: seq<Prefetch>)
    requires Grows(was, now) && before <= after && AllServed(was, before, ps)
    ensures AllServed(now, after, ps)
  {
    forall i, b: nat | 0 <= i < |ps| && Handled(was, before, ps[i].file, b)
      ensures Handled(now, after, ps[i].file, b)
    {
    }
  }

  lemma {:induction false} TasksPop(all: seq<Prefetch>, popped: seq<Prefetch>, queue: seq<Prefetch>, front: Prefetch)
    requires SameTasks(all, popped + queue) && queue != [] && SameTasks([queue[0]], [front])
    ensures SameTasks(all, popped + [front] + queue[1..]) && SameTasks(all, popped + ([front] + queue[1..]))
  {
    assert queue == [queue[0]] + queue[1..];
    assert popped + [front] + queue[1..] == popped + ([front] + queue[1..]);
    assert [queue[0]][0] == queue[0] && [front][0] == front;
  }

  // ---- The order of prefetching

  ghost function PriorityOf(file: File): iset<nat> {
    iset b: nat | b in file.priority
  }

  predicate InRange(p: Prefetch, b: nat) {
    p.index <= b < p.end
  }

  ghost function RangeOf(p: Prefetch): iset<nat> {
    iset b: nat | InRange(p, b)
  }

  /** The priority block, if it exists, was sent with the first frames, or could not be sent. */
  ghost predicate PriorityDone(file: File, failed: set<(nat, nat)>, log: seq<WireFrame>, mid: nat, f: nat) {
    forall j :: 0 <= j < |file.priority| && file.priority[j] < Blocks(file) ==>
      Before(log, mid, DataKey(f, file.priority[j])) || (f, file.priority[j]) in failed
  }

  /** From `was` to `now` first priority blocks of the file were sent, up to `mid`, and then
      blocks of the range; those only when all priority blocks had been dealt with. */
  ghost predicate PriorityFirst(file: File, failed: set<(nat, nat)>, was: seq<WireFrame>, mid: nat, now: seq<WireFrame>, p: Prefetch) {
    && |was| <= mid <= |now|
    && NewData(was, now[..mid], p.file, PriorityOf(file)) && NewData(now[..mid], now, p.file, RangeOf(p))
    && (mid < |now| ==> PriorityDone(file, failed, now, mid, p.file))
  }

  lemma {:induction false} PriorityIsThere(l: SoundLedger, files: seq<File>, failed: set<(nat, nat)>, p: Prefetch)
    requires Progress(l.files, failed, p) && p.priority == |l.files[p.file].priority| && Grows(files, l.files)
    ensures PriorityDone(files[p.file], failed, l.log, |l.log|, p.file)
  {
    var f, file := p.file, files[p.file];
    FileFacts(l, f);
    forall j | 0 <= j < |file.priority| && file.priority[j] < Blocks(file)
      ensures Before(l.log, |l.log|, DataKey(f, file.priority[j])) || (f, file.priority[j]) in failed
    {
      assert Handled(l.files, failed, f, file.priority[j]);
      if l.files[f].sent[file.priority[j]] {
        SentIsThere(l, DataKey(f, file.priority[j]));
      }
    }
  }

  lemma {:induction false} PriorityStays(file: File, before: set<(nat, nat)>, after: set<(nat, nat)>, was: seq<WireFrame>, log: seq<WireFrame>,
                      now: seq<WireFrame>, p: Prefetch)
    requires NewData(was, log, p.file, PriorityOf(file)) && NewData(log, now, p.file, RangeOf(p)) && before <= after
    requires log == now || PriorityDone(file, before, log, |log|, p.file)
    ensures PriorityFirst(file, after, was, |log|, now, p)
  {
    assert now[..|log|] == log;
    if log != now {
      forall j | 0 <= j < |file.priority| && file.priority[j] < Blocks(file) && Before(log, |log|, DataKey(p.file, file.priority[j]))
        ensures Before(now, |log|, DataKey(p.file, file.priority[j]))
      {
        var i :| 0 <= i < |log| && KeyOf(log[i]) == DataKey(p.file, file.priority[j]);
        assert now[i] == log[i];
      }
    }
  }

  // ---- Completeness

  /** Every block of the file was sent, or could not be sent when it was tried. */
  ghost predicate AllHandled(files: seq<File>, failed: set<(nat, nat)>, f: nat) {
    f < |files| && forall b: nat :: b < |files[f].sent| ==> Handled(files, failed, f, b)
  }

  lemma {:induction false} AllHandledStays(was: seq<File>, now: seq<File>, before: set<(nat, nat)>, after: set<(nat, nat)>, f: nat)
    requires Grows(was, now) && before <= after && AllHandled(was, before, f)
    ensures AllHandled(now, after, f)
  {
    forall b: nat | b < |now[f].sent|
      ensures Handled(now, after, f, b)
    {
      assert Handled(was, before, f, b);
    }
  }

  /** The entry covers a whole file. */
  predicate WholeFile(files: seq<File>, p: Prefetch, f: nat) {
    f < |files| && p.file == f && p.start == 0 && p.end == |files[f].sent|
  }

  predicate Queued(files: seq<File>, queue: seq<Prefetch>, f: nat) {
    exists i :: 0 <= i < |queue| && WholeFile(files, queue[i], f)
  }

  lemma {:induction false} QueuedStays(was: seq<File>, now: seq<File>, queue: seq<Prefetch>, front: seq<Prefetch>, back: seq<Prefetch>, f: nat)
    requires Queued(was, queue, f) && Grows(was, now)
    ensures Queued(now, front + queue + back, f)
  {
    var i :| 0 <= i < |queue| && WholeFile(was, queue[i], f);
    assert WholeFile(now, (front + queue + back)[|front| + i], f);
  }

  lemma {:induction false} ServedIsHandled(files: seq<File>, failed: set<(nat, nat)>, p: Prefetch, f: nat)
    requires Served(files, failed, p) && WholeFile(files, p, f)
    ensures AllHandled(files, failed, f)
  {
  }

  /** A file that leaves the queue as a whole has been sent, as far as it could be. */
  lemma {:induction false} QueuedPops(was: seq<File>, now: seq<File>, failed: set<(nat, nat)>,
                   queue: seq<Prefetch>, popped: seq<Prefetch>, queue': seq<Prefetch>, f: nat)
    requires Queued(was, queue, f) && Grows(was, now) && SameTasks(queue, popped + queue') && AllServed(now, failed, popped)
    ensures AllHandled(now, failed, f) || Queued(now, queue', f)
  {
    var i :| 0 <= i < |queue| && WholeFile(was, queue[i], f);
    assert WholeFile(now, (popped + queue')[i], f);
    if i < |popped| {
      ServedIsHandled(now, failed, popped[i], f);
    } else {
      assert WholeFile(now, queue'[i - |popped|], f);
    }
  }

  /** A file to prefetch, asked for in round `asked`, after `n` rounds with `sent` data frames:
      it has been sent as far as it could be, or it is queued as a whole, and every round
      since then has sent as much as a round may. */
  ghost predicate InTime(files: seq<File>, failed: set<(nat, nat)>, queue: seq<Prefetch>, sent: nat, n: int, f: nat, asked: nat) {
    AllHandled(files, failed, f) || (Queued(files, queue, f) && sent >= BLOCKS_PER_ITERATION * (n - asked))
  }

  /** All files to prefetch, with the rounds they were asked for in. */
  ghost predicate OnTime(files: seq<File>, failed: set<(nat, nat)>, queue: seq<Prefetch>, sent: nat, n: int, since: map<int, nat>) {
    forall f: nat :: f in since ==> InTime(files, failed, queue, sent, n, f, since[f])
  }

  lemma {:induction false} OnTimeGrows(was: seq<File>, now: seq<File>, before: set<(nat, nat)>, after: set<(nat, nat)>, queue: seq<Prefetch>,
                    front: seq<Prefetch>, back: seq<Prefetch>, sent: nat, sent': nat, n: nat, since: map<int, nat>)
    requires OnTime(was, before, queue, sent, n, since) && Grows(was, now) && before <= after && sent <= sent'
    ensures OnTime(now, after, front + queue + back, sent', n, since)
  {
    forall f: nat | f in since
      ensures InTime(now, after, front + queue + back, sent', n, f, since[f])
    {
      assert InTime(was, before, queue, sent, n, f, since[f]);
      if AllHandled(was, before, f) {
        AllHandledStays(was, now, before, after, f);
      } else {
        QueuedStays(was, now, queue, front, back, f);
      }
    }
  }

  /** A round that sends as much as it may, or empties the queue, is in time. */
  lemma {:induction false} OnTimePops(was: seq<File>, now: seq<File>, before: set<(nat, nat)>, after: set<(nat, nat)>, queue: seq<Prefetch>,
                   popped: seq<Prefetch>, queue': seq<Prefetch>, sent: nat, sent': nat, n: nat, since: map<int, nat>)
    requires OnTime(was, before, queue, sent, n, since) && Grows(was, now) && before <= after
    requires SameTasks(queue, popped + queue') && AllServed(now, after, popped)
    requires queue' == [] || sent' >= sent + BLOCKS_PER_ITERATION
    ensures OnTime(now, after, queue', sent', n + 1, since)
  {
    forall f: nat | f in since
      ensures InTime(now, after, queue', sent', n + 1, f, since[f])
    {
      assert InTime(was, before, queue, sent, n, f, since[f]);
      if AllHandled(was, before, f) {
        AllHandledStays(was, now, before, after, f);
      } else {
        QueuedPops(was, now, after, queue, popped, queue', f);
      }
    }
  }

  /** The first request for a file counts. */
  ghost function Noted(since: map<int, nat>, f: int, n: nat): map<int, nat> {
    if f < 0 || f in since then since else since[f := n]
  }

  lemma {:induction false} MissOnTime(was: seq<File>, now: seq<File>, before: set<(nat, nat)>, after: set<(nat, nat)>, queue: seq<Prefetch>,
                   queue': seq<Prefetch>, sent: nat, sent': nat, n: nat, since: map<int, nat>)
    requires OnTime(was, before, queue, sent, n, since) && Grows(was, now) && before <= after && sent <= sent'
    requires queue' == queue || exists p :: queue' == [p] + queue
    ensures OnTime(now, after, queue', sent', n, since)
  {
    var front := if queue' == queue then [] else [queue'[0]];
    OnTimeGrows(was, now, before, after, queue, front, [], sent, sent', n, since);
    assert front + queue + [] == queue';
  }

  lemma {:induction false} PrefetchOnTime(files: seq<File>, failed: set<(nat, nat)>, queue: seq<Prefetch>, queue': seq<Prefetch>,
                       sent: nat, n: nat, since: map<int, nat>, f: int)
    requires OnTime(files, failed, queue, sent, n, since) && f < |files|
    requires queue' == queue + if f < 0 || f in since then [] else [Prefetch(f, 0, 0, |files[f].sent|, 0)]
    ensures OnTime(files, failed, queue', sent, n, Noted(since, f, n))
  {
    var back := queue'[|queue|..];
    OnTimeGrows(files, files, failed, failed, queue, [], back, sent, sent, n, since);
    assert [] + queue + back == queue';
    if 0 <= f && f !in since {
      assert WholeFile(files, queue'[|queue|], f);
    }
  }

  /** A file that was asked for longer ago than sending all blocks can take is handled. */
  lemma {:induction false} LateIsHandled(l: SoundLedger, failed: set<(nat, nat)>, queue: seq<Prefetch>, n: nat, since: map<int, nat>, f: nat)
    requires OnTime(l.files, failed, queue, DataFrames(l.log), n, since) && f in since
    requires BLOCKS_PER_ITERATION * (n - since[f]) > AllBlocks(l.files, |l.files|)
    ensures AllHandled(l.files, failed, f)
  {
    DataFramesBounded(l);
    assert InTime(l.files, failed, queue, DataFrames(l.log), n, f, since[f]);
  }

  /** When everything could be sent, everything is loaded. */
  lemma {:induction false} HandledIsLoaded(l: SoundLedger)
    requires forall f: nat :: f < |l.files| ==> AllHandled(l.files, {}, f)
    ensures AllLoaded(l.files)
  {
    forall f | 0 <= f < |l.files|
      ensures l.files[f].count == |l.files[f].sent|
    {
      FileFacts(l, f);
      assert AllHandled(l.files, {}, f);
      forall b | 0 <= b < |l.files[f].sent|
        ensures l.files[f].sent[b]
      {
        assert Handled(l.files, {}, f, b);
      }
      TruesAll(l.files[f].sent, |l.files[f].sent|);
    }
  }

  lemma {:induction false} LoadedCounts(l: SoundLedger, n: nat)
    requires AllLoaded(l.files) && n <= |l.files|
    ensures Counts(l.files, n) == AllBlocks(l.files, n)
  {
    if n > 0 {
      LoadedCounts(l, n - 1);
      FileFacts(l, n - 1);
    }
  }

  /** Everything was asked for and nothing is queued: everything is loaded. */
  lemma {:induction false} EmptyIsLoaded(l: SoundLedger, sent: nat, n: nat, since: map<int, nat>)
    requires OnTime(l.files, {}, [], sent, n, since) && forall f: nat :: f < |l.files| ==> f in since
    ensures AllLoaded(l.files)
  {
    forall f: nat | f < |l.files|
      ensures AllHandled(l.files, {}, f)
    {
      assert InTime(l.files, {}, [], sent, n, f, since[f]);
    }
    HandledIsLoaded(l);
  }

  /** When all blocks have been sent, no round sends any more of them. */
  lemma {:induction false} NothingLeft(was: SoundLedger, now: SoundLedger, queue: seq<Prefetch>, n: nat, since: map<int, nat>)
    requires OnTime(was.files, {}, queue, DataFrames(was.log), n, since) && Grows(was.files, now.files)
    requires AllLate(was.files, n, since)
    ensures DataFrames(now.log) <= DataFrames(was.log)
  {
    forall f: nat | f < |was.files|
      ensures AllHandled(was.files, {}, f)
    {
      assert Late(was.files, n, since, f);
      LateIsHandled(was, {}, queue, n, since, f);
    }
    HandledIsLoaded(was);
    LoadedCounts(was, |was.files|);
    DataFramesBounded(now);
    SameBlocks(was.files, now.files, |was.files|);
  }

  /** The file was asked for longer ago than sending all blocks can take. */
  predicate Late(files: seq<File>, n: int, since: map<int, nat>, f: nat) {
    f in since && BLOCKS_PER_ITERATION * (n - since[f]) > AllBlocks(files, |files|)
  }

  predicate AllLate(files: seq<File>, n: int, since: map<int, nat>) {
    forall f: nat :: f < |files| ==> Late(files, n, since, f)
  }

  lemma {:induction false} SameBlocks(was: seq<File>, now: seq<File>, n: nat)
    requires Grows(was, now) && n <= |was|
    ensures AllBlocks(now, n) == AllBlocks(was, n)
  {
    if n > 0 {
      SameBlocks(was, now, n - 1);
    }
  }

  lemma {:induction false} TriedInVain(l: SoundLedger, storage: Storage, was: seq<Key>, f: nat, b: nat, now: seq<Key>)
    requires f < |l.files| && Follows(storage, was, TreePlan(l.files[f], f, b) + [DataKey(f, b)], now, false)
    ensures now != [] && BlockMiss(storage, l.sizes, now, f, b, |now| - 1)
  {
    FileFacts(l, f);
    FailureIsOfBlock(storage, l.sizes, was, l.files[f], f, b, now);
  }

  function HashesOf(files: seq<File>): seq<seq<bool>> {
    seq(|files|, f requires 0 <= f < |files| => files[f].hashes)
  }

  lemma {:induction false} HashesOfUpdate(files: seq<File>, f: nat, file: File)
    requires f < |files|
    ensures HashesOf(files[f := file]) == HashesOf(files)[f := file.hashes]
  {
  }

  // ---- Serving

  predicate NewlySent(was: seq<File>, now: seq<File>, f: int, b: int) {
    0 <= f < |was| == |now| && Marked(now[f].sent, b) && !Marked(was[f].sent, b)
  }

  /** The queue after a request, when the files have gone from `was` to `now`: a block that it
      has made the server send is followed, before everything else, by the next seven, and a
      file that is to be prefetched for the first time comes last. */
  function QueueAfter(was: seq<File>, now: seq<File>, queue: seq<Prefetch>, prefetched: set<int>, request: Option<Command>): seq<Prefetch>
    requires |was| == |now|
  {
    if request.None? || request.value.file < 0 || request.value.file >= |now| then queue else
    var c := request.value;
    if c.kind == BLOCK_MISSING && NewlySent(was, now, c.file, c.block)
    then [Prefetch(c.file, c.block + 1, c.block + 1, Min(c.block + 8, |now[c.file].sent|), 0)] + queue
    else if c.kind == PREFETCH && c.file !in prefetched then queue + [Prefetch(c.file, 0, 0, |now[c.file].sent|, 0)]
    else queue
  }

  /** A missing block that had not been sent before is out at once, with everything before it. */
  ghost predicate Hurried(was: seq<File>, failed: set<(nat, nat)>, frames: seq<WireFrame>, flushed: nat, c: Command) {
    && c.kind == BLOCK_MISSING && 0 <= c.file < |was| && 0 <= c.block < |was[c.file].sent| && !was[c.file].sent[c.block]
    && (c.file as nat, c.block as nat) !in failed ==>
      Before(frames, flushed, DataKey(c.file, c.block))
  }

  lemma {:induction false} HurriedStays(l: SoundLedger, was: seq<File>, before: set<(nat, nat)>, after: set<(nat, nat)>, now: seq<WireFrame>, flushed: nat, c: Command)
    requires Grows(was, l.files) && before <= after && l.log <= now && Settled(l.files, before, c)
    requires c.kind == BLOCK_MISSING && NewlySent(was, l.files, c.file, c.block) ==> flushed == |l.log|
    ensures Hurried(was, after, now, flushed, c)
  {
    if c.kind == BLOCK_MISSING && NewlySent(was, l.files, c.file, c.block) {
      SentIsThere(l, DataKey(c.file, c.block));
      var i :| 0 <= i < |l.log| && KeyOf(l.log[i]) == DataKey(c.file, c.block);
      assert now[i] == l.log[i];
    }
  }

  /** What a round does with the queue: after the request, the first entries may leave it, each
      with all its blocks sent, as far as they could be. */
  ghost predicate Works(was: seq<File>, now: seq<File>, failed: set<(nat, nat)>, queue: seq<Prefetch>, prefetched: set<int>,
                        request: Option<Command>, queue': seq<Prefetch>) {
    exists mid, popped ::
      && Grows(was, mid) && Grows(mid, now) && AllServed(now, failed, popped)
      && SameTasks(QueueAfter(was, mid, queue, prefetched, request), popped + queue')
  }

  predicate Asked(found: seq<Command>, f: int) {
    exists i :: 0 <= i < |found| && found[i].kind == PREFETCH && found[i].file == f
  }

  /** In this round the file was to be prefetched. */
  predicate AsksFor(request: Option<Command>, f: int) {
    request.Some? && request.value.kind == PREFETCH && request.value.file == f
  }

  /** The requests of some rounds. */
  function Somes(rounds: seq<Option<Command>>): seq<Command> {
    if rounds == [] then []
    else Somes(rounds[..|rounds| - 1]) + match rounds[|rounds| - 1] { case None => [] case Some(c) => [c] }
  }

  lemma {:induction false} SomesNext(rounds: seq<Option<Command>>, request: Option<Command>)
    ensures Somes(rounds + [request]) == Somes(rounds) + match request { case None => [] case Some(c) => [c] }
  {
    assert (rounds + [request])[..|rounds|] == rounds;
  }

  /** A request was heard in some round. */
  lemma {:induction false} RoundOf(rounds: seq<Option<Command>>, k: nat) returns (i: nat)
    requires k < |Somes(rounds)|
    ensures i < |rounds| && rounds[i] == Some(Somes(rounds)[k])
    ensures |Somes(rounds)| - k <= |rounds| - i
  {
    var last := |rounds| - 1;
    var before := Somes(rounds[..last]);
    if k < |before| {
      i := RoundOf(rounds[..last], k);
    } else {
      i := last;
    }
  }

  /** The rounds in which the files to prefetch were first asked for. */
  ghost predicate Remembers(rounds: seq<Option<Command>>, since: map<int, nat>) {
    && (forall i, f: nat :: 0 <= i < |rounds| && AsksFor(rounds[i], f) ==> f in since && since[f] <= i)
    && forall f :: f in since ==> since[f] < |rounds|
  }

  lemma {:induction false} AskedIsRemembered(rounds: seq<Option<Command>>, since: map<int, nat>, f: nat)
    requires Remembers(rounds, since) && Asked(Somes(rounds), f)
    ensures f in since
  {
    var k :| 0 <= k < |Somes(rounds)| && Somes(rounds)[k].kind == PREFETCH && Somes(rounds)[k].file == f;
    var i := RoundOf(rounds, k);
    assert AsksFor(rounds[i], f);
  }

  /** The rounds files were asked for in, after the request of round `n`. */
  ghost function After(since: map<int, nat>, request: Option<Command>, n: nat): map<int, nat> {
    if request.Some? && request.value.kind == PREFETCH then Noted(since, request.value.file, n) else since
  }

  /** The file was asked for so long before round `n` that all blocks can have been sent. */
  predicate AskedLongAgo(rounds: seq<Option<Command>>, n: int, f: nat, blocks: nat) {
    exists i :: 0 <= i < |rounds| && AsksFor(rounds[i], f) && BLOCKS_PER_ITERATION * (n - i) > blocks
  }

  predicate AllAskedLongAgo(rounds: seq<Option<Command>>, n: int, files: nat, blocks: nat) {
    forall f: nat :: f < files ==> AskedLongAgo(rounds, n, f, blocks)
  }

  lemma {:induction false} LongAgoIsLate(rounds: seq<Option<Command>>, since: map<int, nat>, files: seq<File>, n: int, f: nat)
    requires Remembers(rounds, since) && AskedLongAgo(rounds, n, f, AllBlocks(files, |files|))
    ensures Late(files, n, since, f)
  {
    var i :| 0 <= i < |rounds| && AsksFor(rounds[i], f) && BLOCKS_PER_ITERATION * (n - i) > AllBlocks(files, |files|);
    assert f in since && since[f] <= i;
  }

  lemma {:induction false} RemembersNext(rounds: seq<Option<Command>>, since: map<int, nat>, request: Option<Command>)
    requires Remembers(rounds, since)
    ensures Remembers(rounds + [request], After(since, request, |rounds|))
  {
    var all, since' := rounds + [request], After(since, request, |rounds|);
    forall i, f: nat | 0 <= i < |all| && AsksFor(all[i], f)
      ensures f in since' && since'[f] <= i
    {
      if i < |rounds| {
        assert AsksFor(rounds[i], f);
      }
    }
  }

  lemma {:induction false} NextHeard(rounds: seq<Option<Command>>, request: Option<Command>)
    ensures HeardComplete(rounds + [request]) <==>
      HeardComplete(rounds) || (request.Some? && request.value.kind == SERVING_COMPLETE)
  {
    var all := rounds + [request];
    if i :| 0 <= i < |rounds| && rounds[i].Some? && rounds[i].value.kind == SERVING_COMPLETE {
      assert all[i] == rounds[i];
    }
    assert all[|rounds|] == request;
  }

  predicate HeardComplete(rounds: seq<Option<Command>>) {
    exists i :: 0 <= i < |rounds| && rounds[i].Some? && rounds[i].value.kind == SERVING_COMPLETE
  }

  /** If the command asks for a block that exists, that was sent or could not be sent when it
      was tried. */
  ghost predicate Settled(files: seq<File>, failed: set<(nat, nat)>, c: Command) {
    c.kind == BLOCK_MISSING && 0 <= c.file < |files| && 0 <= c.block < |files[c.file].sent| ==>
      files[c.file].sent[c.block] || (c.file as nat, c.block as nat) in failed
  }

  ghost predicate AllSettled(files: seq<File>, failed: set<(nat, nat)>, found: seq<Command>) {
    forall c :: c in found ==> Settled(files, failed, c)
  }

  lemma {:induction false} AllSettledStay(was: seq<File>, now: seq<File>, before: set<(nat, nat)>, after: set<(nat, nat)>, found: seq<Command>)
    requires Grows(was, now) && before <= after && AllSettled(was, before, found)
    ensures AllSettled(now, after, found)
  {
    forall c | c in found
      ensures Settled(now, after, c)
    {
      SettledStays(was, now, before, after, c);
    }
  }

  lemma {:induction false} SettledStays(was: seq<File>, now: seq<File>, before: set<(nat, nat)>, after: set<(nat, nat)>, c: Command)
    requires Grows(was, now) && before <= after && Settled(was, before, c)
    ensures Settled(now, after, c)
  {
  }

  predicate NoDestroy(found: seq<Command>) {
    forall c :: c in found ==> c.kind != DESTROY
  }

  /** The requests up to the one to stop. */
  function UntilDestroy(cs: seq<Command>): seq<Command> {
    if cs == [] then []
    else if cs[0].kind == DESTROY then [cs[0]]
    else [cs[0]] + UntilDestroy(cs[1..])
  }

  lemma {:induction false} UntilDestroyStops(before: seq<Command>, rest: seq<Command>)
    requires NoDestroy(before) && (rest == [] || rest[0].kind == DESTROY)
    ensures UntilDestroy(before + rest) == before + rest[..Min(1, |rest|)]
  {
    var all := before + rest;
    if before == [] {
      assert all == rest;
    } else {
      assert all[0] == before[0] && all[1..] == before[1..] + rest;
      UntilDestroyStops(before[1..], rest);
      Associative([before[0]], before[1..], rest[..Min(1, |rest|)]);
      assert before == [before[0]] + before[1..];
    }
  }

  /** The requests at the end: `found` without one to stop, and with it if `more`. */
  lemma {:induction false} HeardAll(s: seq<byte>, i: nat, was: seq<Command>, found: seq<Command>, text: seq<byte>, d: Command)
    requires Extracted(s, i, found, text) && NoDestroy(was)
    requires (found == was && found == Requests(s, 0)) || (found == was + [d] && d.kind == DESTROY)
    ensures found == UntilDestroy(Requests(s, 0))
  {
    if found == was {
      UntilDestroyStops(was, []);
      assert was + [] == was;
    } else {
      var rest := [d] + Requests(s, i);
      Associative(was, [d], Requests(s, i));
      UntilDestroyStops(was, rest);
      assert rest[..1] == [d];
    }
  }

  /** A request is answered inside the bounds of the files; the identifier of a file to
      prefetch is not checked against their number. */
  predicate ValidId(c: Command, files: nat) {
    c.kind == PREFETCH ==> c.file < files
  }

  lemma {:induction false} FoundIsRequest(s: seq<byte>, i: nat, found: seq<Command>, text: seq<byte>, c: Command)
    requires Extracted(s, i, found, text) && c in found
    ensures c in Requests(s, 0)
  {
  }

  class IncrementalServer {
    const scanner: RequestScanner
    const storage: Storage
    /** All reads, in their order. */
    var requested: seq<Key>
    var files: seq<File>
    /** All frames passed to the output buffer, and how many had been when it was last flushed. */
    var frames: seq<WireFrame>
    var flushed: nat
    var prefetches: seq<Prefetch>

    /** What has been sent; the flags of the files are those of the ledger. */
    ghost var books: SoundLedger
    /** Which reads the frames come from. */
    ghost var past: History
    /** What could not be read. */
    ghost var account: Account
    /** The blocks that could not be sent when it was tried. */
    ghost var failed: set<(nat, nat)>
    /** The requests of the rounds so far, and in which of them each file to prefetch was first
        asked for. */
    ghost var rounds: seq<Option<Command>>
    ghost var since: map<int, nat>

    ghost predicate Valid()
      reads `files, `frames, `books, `past, `requested
    {
      && books == books.(files := files, log := frames)
      && past == Past(storage, books.sizes, requested, frames, past.origin)
    }

    /** Between calls the account is up to date. */
    ghost predicate Sane()
      reads `files, `frames, `books, `past, `requested, `account, `failed
    {
      Valid() && account == Record(storage, books.sizes, requested, books.torn, failed, HashesOf(files))
    }

    constructor (files: seq<File>, stream: seq<byte>, polls: seq<Poll>, storage: Storage)
      requires |files| < 0x8000 && forall f :: 0 <= f < |files| ==> Untouched(files[f])
      ensures Ready() && books == NewLedger(files) && this.storage == storage && requested == []
      ensures fresh(scanner) && scanner.stream == stream && scanner.polls == polls && scanner.found == []
      ensures scanner.Valid() && scanner.Faithful() && scanner.Counted() && scanner.polled == 0 && !scanner.ended
      ensures prefetches == [] && failed == {} && flushed == 0 && rounds == [] && since == map[] && !scanner.servingComplete
    {
      scanner := new RequestScanner(stream, polls);
      this.storage, this.files, frames, requested, flushed := storage, files, [], [], 0;
      ghost var ledger := NewLedger(files);
      LedgerLength(ledger);
      books, past := ledger, NewHistory(storage, ledger.sizes);
      account := NewAccount(storage, ledger.sizes, HashesOf(files));
      prefetches, failed, rounds, since := [], {}, [], map[];
    }

    method SendTreeBlock(f: nat, k: nat) returns (ok: bool)
      requires f < 0x8000 && k < TWO_31
      modifies `requested, `frames
      ensures requested == old(requested) + [HashKey(f, k)] && ok == storage.GoodRead(HashKey(f, k), |old(requested)|)
      ensures frames == if ok then old(frames) + [Hash(f, k, storage.Answer(HashKey(f, k), |old(requested)|).value)] else old(frames)
    {
      var bytes := storage.Answer(HashKey(f, k), |requested|);
      requested := requested + [HashKey(f, k)];
      if bytes.None? || bytes.value == [] {
        return false;
      }
      frames := frames + [Hash(f, k, bytes.value)];
      return true;
    }

    /** Sends one hash block and marks it, while its file counts as torn. */
    method SendHash(f: nat, k: nat) returns (ok: bool)
      requires Valid() && f < |files| && f in books.torn && k < |files[f].hashes| && !files[f].hashes[k]
      requires AfterRoot(files[f], k)
      modifies `requested, `files, `frames, `books, `past
      ensures Valid() && f < 0x8000 && k < TWO_31
      ensures requested == old(requested) + [HashKey(f, k)] && ok == storage.GoodRead(HashKey(f, k), |old(requested)|)
      ensures books == if ok then AddHash(old(books), Hash(f, k, storage.Answer(HashKey(f, k), |old(requested)|).value)) else old(books)
    {
      FileFacts(books, f);
      ok := SendTreeBlock(f, k);
      past := Reading(past, HashKey(f, k));
      if ok {
        ghost var x: WireFrame := Hash(f, k, storage.Answer(HashKey(f, k), |old(requested)|).value);
        books, past := AddHash(books, x), Pushing(past, x, |old(requested)|);
        files := files[f := files[f].(hashes := files[f].hashes[k := true])];
      }
    }

    /** The next of the blocks above the leaves. */
    method SendNextUpper(f: nat, i: nat, n: nat, ghost was: SoundLedger, ghost keys: seq<Key>) returns (good: bool)
      requires Valid() && i < n && f in was.torn && Hashed(was, books, f, i) && NoUpper(was.files[f])
      requires n == LeafOffset(Blocks(was.files[f])) <= |was.files[f].hashes|
      requires Follows(storage, keys, UpperKeys(f, i), requested, true)
      modifies `requested, `files, `frames, `books, `past
      ensures Valid() && Hashed(was, books, f, if good then i + 1 else i) && |requested| == |old(requested)| + 1
      ensures Follows(storage, keys, UpperKeys(f, if good then i + 1 else n), requested, good)
    {
      ghost var now, before := books, requested;
      NextUpper(was.files[f], i);
      good := SendHash(f, i);
      UpperNext(storage, keys, f, i, n, before, good);
      if good {
        HashedNext(was, now, Hash(f, i, storage.Answer(HashKey(f, i), |before|).value));
      }
    }

    /** The blocks above the leaves, from the root on, until a read fails. */
    method SendUpper(f: nat) returns (ok: bool)
      requires Valid() && f < |files| && f in books.torn && NoUpper(files[f]) && 0 <= LeafOffset(Blocks(files[f]))
      modifies `requested, `files, `frames, `books, `past
      ensures Valid() && |requested| >= |old(requested)|
      ensures Follows(storage, old(requested), UpperKeys(f, LeafOffset(Blocks(old(files)[f]))), requested, ok)
      ensures Hashed(old(books), books, f, |requested| - |old(requested)| - if ok then 0 else 1)
    {
      ghost var was := books;
      FileFacts(books, f);
      HashedNone(books, f);
      FollowsNone(storage, requested);
      var leafOffset := |files[f].hashes| - Up(NumBlocks(files[f].size));
      var sent := 0;
      while sent < leafOffset
        invariant Valid() && 0 <= sent <= leafOffset && Hashed(was, books, f, sent)
        invariant Follows(storage, old(requested), UpperKeys(f, sent), requested, true)
      {
        var good := SendNextUpper(f, sent, leafOffset, was, old(requested));
        if !good {
          return false;
        }
        sent := sent + 1;
      }
      return true;
    }

    /** A leaf that has not been sent; then the file counts as torn. */
    method SendLeaf(f: nat, leaf: nat) returns (ok: bool)
      requires Valid() && f < |files| && leaf < |files[f].hashes| && !files[f].hashes[leaf]
      requires LeafOffset(Blocks(files[f])) <= leaf
      modifies `requested, `files, `frames, `books, `past
      ensures Valid() && requested == old(requested) + [HashKey(f, leaf)]
      ensures ok == !storage.Bad(HashKey(f, leaf), |old(requested)|) && (!ok ==> books == old(books))
      ensures ok ==> TreeStep(old(books), books, f) && books.torn == old(books.torn) + {f} && Marked(files[f].hashes, leaf)
      ensures ok ==> (AllUpper(files[f]) <==> old(AllUpper(files[f]))) && (NoUpper(files[f]) <==> old(NoUpper(files[f])))
      ensures ok && 0 < LeafOffset(Blocks(files[f])) ==> (Marked(files[f].hashes, 0) <==> old(Marked(files[f].hashes, 0)))
      ensures SameUpper(old(files)[f], files[f].hashes)
    {
      ghost var was := books;
      books := Tear(books, f);
      ok := SendHash(f, leaf);
      if ok {
        LeafOnly(was, books, Hash(f, leaf, storage.Answer(HashKey(f, leaf), |old(requested)|).value));
      } else {
        books := was;
      }
    }

    /** Everything above the leaves, for a file that counts as torn since `was`; it stays torn
        exactly if that is broken off. */
    method SendAbove(f: nat, ghost was: SoundLedger) returns (ok: bool)
      requires Valid() && f < |files| && 0 < LeafOffset(Blocks(files[f])) && NoUpper(files[f])
      requires TreeStep(was, books, f) && books.torn == was.torn + {f}
      modifies `requested, `files, `frames, `books, `past
      ensures Valid() && TreeStep(was, books, f) && TreeStep(old(books), books.(torn := old(books.torn)), f)
      ensures Follows(storage, old(requested), UpperKeys(f, LeafOffset(Blocks(old(files)[f]))), requested, ok)
      ensures (ok <==> AllUpper(files[f])) && books.torn == if ok then was.torn else was.torn + {f}
      ensures Marked(files[f].hashes, 0) <==> ok || |requested| > |old(requested)| + 1
    {
      ghost var before := books;
      FileFacts(books, f);
      ok := SendUpper(f);
      HashedIsTreeStep(before, books, f, |requested| - |old(requested)| - if ok then 0 else 1);
      TreeStepChain(was, before, books, f);
      if ok {
        books := Mend(books, was, f);
      }
    }

    /** A leaf that has not been sent, and then all that is above the leaves, unless that has
        been started before. The file is torn exactly when that is broken off. */
    method SendMissing(f: nat, leaf: nat) returns (ok: bool)
      requires Sane() && f < |files| && files[f].tree && leaf < |files[f].hashes| && !files[f].hashes[leaf]
      requires 0 <= LeafOffset(Blocks(files[f])) <= leaf
      modifies `requested, `files, `frames, `books, `past, `account
      ensures Sane() && TreeStep(old(books), books, f)
      ensures Follows(storage, old(requested), MissingPlan(old(files)[f], f, leaf), requested, ok)
      ensures ok ==> books.torn == old(books.torn) && Marked(files[f].hashes, leaf)
      ensures ok ==> (AllUpper(files[f]) <==> (old(Marked(files[f].hashes, 0)) ==> old(AllUpper(files[f]))))
      ensures books.torn != old(books.torn) ==> Marked(files[f].hashes, leaf) && !AllUpper(files[f])
    {
      FileFacts(books, f);
      ok := SendParts(f, leaf);
      account := AfterPlan(account, old(files)[f], f, leaf, requested, ok, files[f].hashes);
      HashesOfUpdate(old(files), f, files[f]);
    }

    method SendParts(f: nat, leaf: nat) returns (ok: bool)
      requires Valid() && f < |files| && files[f].tree && leaf < |files[f].hashes| && !files[f].hashes[leaf]
      requires 0 <= LeafOffset(Blocks(files[f])) <= leaf
      modifies `requested, `files, `frames, `books, `past
      ensures Valid() && TreeStep(old(books), books, f)
      ensures Follows(storage, old(requested), MissingPlan(old(files)[f], f, leaf), requested, ok)
      ensures ok ==> books.torn == old(books.torn) && Marked(files[f].hashes, leaf)
      ensures ok ==> (AllUpper(files[f]) <==> (old(Marked(files[f].hashes, 0)) ==> old(AllUpper(files[f]))))
      ensures !ok ==> books.torn == old(books.torn) + if |requested| > |old(requested)| + 1 then {f} else {}
      ensures |requested| > |old(requested)| + 1 ==> Marked(files[f].hashes, leaf) && (!ok ==> !AllUpper(files[f]))
      ensures PlanMarks(old(files)[f], files[f].hashes, |requested| - |old(requested)|, ok)
    {
      ghost var was, keys := books, requested;
      var leafOffset := |files[f].hashes| - Up(NumBlocks(files[f].size));
      FileFacts(books, f);
      FollowsOne(storage, keys, HashKey(f, leaf));
      ok := SendLeaf(f, leaf);
      if !ok {
        PlanBreaksOff(storage, keys, old(files)[f], f, leaf, requested);
        return;
      }
      if leafOffset == 0 || files[f].hashes[0] {
        books := Mend(books, was, f);
        assert [HashKey(f, leaf)] + [] == [HashKey(f, leaf)];
        return true;
      }
      ghost var middle := requested;
      ok := SendAbove(f, was);
      FollowsThen(storage, keys, [HashKey(f, leaf)], middle, UpperKeys(f, leafOffset), requested, ok);
    }

    /** When the call succeeds, the data block is covered exactly if no hash block that makes
        the server skip the blocks above the leaves was sent without them. */
    method SendTreeBlocksForDataBlock(f: nat, b: nat) returns (ok: bool)
      requires Sane() && f < |files| && b < |files[f].sent|
      modifies `requested, `files, `frames, `books, `past, `account
      ensures Sane() && TreeStep(old(books), books, f) && (ok ==> books.torn == old(books.torn))
      ensures Follows(storage, old(requested), TreePlan(old(files)[f], f, b), requested, ok)
      ensures ok && files[f].tree ==> Marked(files[f].hashes, Leaf(Blocks(files[f]), b))
      ensures ok && files[f].tree ==> (Covered(files[f], b) <==> old(Intact(files[f], b)))
      ensures books.torn != old(books.torn) ==> !Intact(files[f], b)
    {
      FileFacts(books, f);
      var file := files[f];
      if !file.tree {
        FollowsNone(storage, requested);
        return true;
      }
      var blocks := NumBlocks(file.size);
      var leafOffset := |file.hashes| - (blocks + HASHES_PER_BLOCK - 1) / HASHES_PER_BLOCK;
      var leaf := leafOffset + b / HASHES_PER_BLOCK;
      LeafInRange(blocks, b);
      CoveredExactly(file, b);
      if file.hashes[leaf] {
        FollowsNone(storage, requested);
        return true;
      }
      ok := SendMissing(f, leaf);
      FileFacts(books, f);
      CoveredExactly(files[f], b);
    }

    /** In a file that is not torn every state is intact. */
    lemma {:induction false} UntornIsIntact(f: nat, b: nat)
      requires Valid() && f < |files| && f !in books.torn
      ensures Intact(files[f], b)
    {
      FileFacts(books, f);
    }

    /** Everything above the leaves of `f` was sent exactly if these reads say so. */
    ghost predicate Matches(f: nat, keys: seq<Key>)
      requires f < |files|
      reads `files, `books
    {
      f < |books.sizes| && (AllUpper(files[f]) <==> UppersRead(storage, books.sizes, keys, f))
    }

    lemma {:induction false} AccountMatches(f: nat)
      requires Sane() && f < |files|
      ensures Matches(f, requested)
    {
      FileFacts(books, f);
      assert account.hashes[f] == files[f].hashes;
      assert UpperOk(storage, books.sizes, requested, f, files[f].hashes);
    }

    /** A frame with what was read joins the log, and its block is marked. */
    method Push(f: nat, b: nat, frame: WireFrame, ghost n: nat)
      requires f < |files| && b < |files[f].sent| && frame.Data? && frame.file == f && frame.index == b
      requires Valid() && !files[f].sent[b] && ComesFrom(storage, requested, frame, n)
      requires MaySend(files[f], b, f in books.torn) && Matches(f, requested[..n])
      modifies `files, `frames, `books, `past
      ensures Valid() && books == AddData(old(books), frame)
    {
      FileFacts(books, f);
      UppersLogged(books, f);
      books, past := AddData(books, frame), Pushing(past, frame, n);
      files := files[f := files[f].(sent := files[f].sent[b := true], count := files[f].count + 1)];
      frames := frames + [frame];
    }

    /** Sends a block, compressed if that is smaller, and marks it. */
    method Emit(f: nat, b: nat, raw: seq<byte>, flush: bool, ghost n: nat) returns (ghost x: WireFrame)
      requires Valid() && f < |files| && b < |files[f].sent| && !files[f].sent[b]
      requires n < |requested| && requested[n] == DataKey(f, b) && storage.Answer(DataKey(f, b), n) == Some(raw)
      requires MaySend(files[f], b, f in books.torn) && Matches(f, requested[..n])
      modifies `files, `frames, `books, `past, `flushed
      ensures Valid() && x.Data? && x.file == f && x.index == b && books == AddData(old(books), x)
      ensures flushed == if flush then |frames| else old(flushed)
    {
      FileFacts(books, f);
      var packed := storage.compress(DataKey(f, b), raw);
      var frame: WireFrame :=
        if 0 < |packed| < COMPRESSED_SIZE_MAX then Data(f, b, true, packed) else Data(f, b, false, raw);
      assert storage.Packs(frame, storage.Answer(DataKey(f, b), n).value);
      Push(f, b, frame, n);
      if flush {
        flushed := |frames|;
      }
      x := frame;
    }

    method ReadBlock(f: nat, b: nat) returns (raw: Option<seq<byte>>)
      requires Valid()
      modifies `requested, `past
      ensures Valid() && raw == storage.Answer(DataKey(f, b), |old(requested)|) && requested == old(requested) + [DataKey(f, b)]
    {
      raw := storage.Answer(DataKey(f, b), |requested|);
      requested := requested + [DataKey(f, b)];
      past := Reading(past, DataKey(f, b));
    }

    /** The block is tried, after its hash blocks. */
    method ReadAndEmit(f: nat, b: nat, flush: bool) returns (ok: bool, ghost x: WireFrame)
      requires Valid() && f < |files| && b < |files[f].sent| && !files[f].sent[b]
      requires MaySend(files[f], b, f in books.torn) && Matches(f, requested)
      modifies `requested, `files, `frames, `books, `past, `flushed
      ensures Valid() && ok == !storage.Bad(DataKey(f, b), |old(requested)|)
      ensures flushed == if ok && flush then |frames| else old(flushed)
      ensures requested == old(requested) + [DataKey(f, b)]
      ensures ok ==> x.Data? && x.file == f && x.index == b && books == WithData(old(books), x)
      ensures !ok ==> books == old(books)
    {
      var raw := ReadBlock(f, b);
      assert requested[..|old(requested)|] == old(requested);
      ok, x := raw.Some?, Done;
      if ok {
        x := Emit(f, b, raw.value, flush, |old(requested)|);
      }
    }

    method SendOnly(f: nat, b: nat, flush: bool) returns (ok: bool, ghost x: WireFrame)
      requires Sane() && f < |files| && b < |files[f].sent| && !files[f].sent[b]
      requires MaySend(files[f], b, f in books.torn)
      modifies `requested, `files, `frames, `books, `past, `flushed, `account
      ensures Sane() && ok == !storage.Bad(DataKey(f, b), |old(requested)|)
      ensures flushed == if ok && flush then |frames| else old(flushed)
      ensures requested == old(requested) + [DataKey(f, b)]
      ensures ok ==> x.Data? && x.file == f && x.index == b && books == WithData(old(books), x)
      ensures !ok ==> books == old(books)
    {
      AccountMatches(f);
      account := AfterDataRead(account, f, b);
      ok, x := ReadAndEmit(f, b, flush);
      HashesOfUpdate(old(files), f, files[f]);
      assert HashesOf(files) == HashesOf(old(files));
    }

    /** The hash blocks of a block and then the block itself, up to the first failed read. */
    method TryBlock(f: nat, b: nat, flush: bool) returns (ok: bool)
      requires Sane() && f < |files| && b < |files[f].sent| && !files[f].sent[b]
      modifies `requested, `files, `frames, `books, `past, `flushed, `account
      ensures Sane() && flushed == if ok && flush then |frames| else old(flushed)
      ensures Follows(storage, old(requested), TreePlan(old(files)[f], f, b) + [DataKey(f, b)], requested, ok)
      ensures if ok then DataStep(old(books), books, f, b) else TreeStep(old(books), books, f)
      ensures ok && files[f].tree ==> (Covered(files[f], b) <==> old(Intact(files[f], b)))
      ensures books.torn != old(books.torn) ==> !ok && !Intact(files[f], b)
    {
      ghost var was, keys, plan := books, requested, TreePlan(files[f], f, b);
      if f !in books.torn {
        UntornIsIntact(f, b);
      }
      ok := SendTreeBlocksForDataBlock(f, b);
      if !ok {
        FollowsShort(storage, keys, plan, requested, [DataKey(f, b)]);
        return;
      }
      ghost var now, middle := books, requested;
      ghost var x;
      ok, x := SendOnly(f, b, flush);
      FollowsOne(storage, middle, DataKey(f, b));
      FollowsThen(storage, keys, plan, middle, [DataKey(f, b)], requested, ok);
      if ok {
        DataStepHolds(was, now, x);
      }
    }

    ghost method NoteFailure(f: nat, b: nat, was: SoundLedger, keys: seq<Key>)
      requires Sane() && f < |was.files| && was.sizes == books.sizes
      requires Follows(storage, keys, TreePlan(was.files[f], f, b) + [DataKey(f, b)], requested, false)
      modifies `account, `failed
      ensures Sane() && failed == old(failed) + {(f, b)}
    {
      TriedInVain(was, storage, keys, f, b, requested);
      account := AfterFailure(account, f, b);
      failed := failed + {(f, b)};
    }

    method SendDataBlock(f: nat, b: nat, flush: bool) returns (result: SendResult)
      requires Sane() && f < |files|
      modifies `requested, `files, `frames, `books, `past, `flushed, `account, `failed
      ensures Sane() && failed == old(failed) + if result == Error then {(f, b)} else {}
      ensures flushed == if result == Sent && flush then |frames| else old(flushed)
      ensures result == Skipped <==> |old(files)[f].sent| <= b || old(files)[f].sent[b]
      ensures result == Skipped ==> books == old(books) && requested == old(requested)
      ensures result != Skipped ==>
        Follows(storage, old(requested), TreePlan(old(files)[f], f, b) + [DataKey(f, b)], requested, result == Sent)
      ensures result == Error ==> TreeStep(old(books), books, f)
      ensures result == Sent ==> DataStep(old(books), books, f, b)
      ensures result == Sent && files[f].tree ==> (Covered(files[f], b) <==> old(Intact(files[f], b)))
      ensures books.torn != old(books.torn) ==> result == Error && !Intact(files[f], b)
    {
      if |files[f].sent| <= b || files[f].sent[b] {
        return Skipped;
      }
      var ok := TryBlock(f, b, flush);
      if ok {
        return Sent;
      }
      NoteFailure(f, b, old(books), old(requested));
      return Error;
    }

    /** One block of a prefetch, which costs budget only if it is sent. */
    method Attempt(f: nat, b: nat, budget: nat) returns (left: nat)
      requires Sane() && f < |files| && 0 < budget
      modifies `requested, `files, `frames, `books, `past, `flushed, `account, `failed
      ensures Sane() && Grows(old(files), files) && old(failed) <= failed && Handled(files, failed, f, b)
      ensures left <= budget && DataFrames(frames) == old(DataFrames(frames)) + budget - left
      ensures books.done == old(books.done) && flushed == old(flushed) && NewData(old(frames), frames, f, iset{b})
    {
      left := budget;
      var result := SendDataBlock(f, b, false);
      if result == Sent {
        left := left - 1;
      } else if result == Error {
        OnlyHashesKeeps(old(books.log), books.log, f, 0);
      }
    }

    /** The next priority block, once the prefetch has come to it. */
    method SendNextPriority(p: Prefetch, budget: nat) returns (left: nat)
      requires Sane() && Progress(files, failed, p) && 0 < budget && p.priority < |files[p.file].priority|
      modifies `requested, `files, `frames, `books, `past, `flushed, `account, `failed
      ensures Sane() && Grows(old(files), files) && old(failed) <= failed
      ensures Progress(files, failed, p.(priority := p.priority + 1))
      ensures left <= budget && DataFrames(frames) == old(DataFrames(frames)) + budget - left
      ensures books.done == old(books.done) && flushed == old(flushed) && NewData(old(frames), frames, p.file, PriorityOf(old(files)[p.file]))
    {
      left := Attempt(p.file, files[p.file].priority[p.priority], budget);
      ProgressStays(old(files), files, old(failed), failed, p);
      assert old(files)[p.file].priority[p.priority] in PriorityOf(old(files)[p.file]);
    }

    method SendPriority(p: Prefetch, budget: nat) returns (p': Prefetch, left: nat)
      requires Sane() && Progress(files, failed, p)
      modifies `requested, `files, `frames, `books, `past, `flushed, `account, `failed
      ensures Sane() && Grows(old(files), files) && old(failed) <= failed && Progress(files, failed, p')
      ensures p' == p.(priority := p'.priority) && (left > 0 ==> p'.priority == |files[p.file].priority|)
      ensures left <= budget && DataFrames(frames) == old(DataFrames(frames)) + budget - left
      ensures books.done == old(books.done) && flushed == old(flushed) && NewData(old(frames), frames, p.file, PriorityOf(old(files)[p.file]))
    {
      p', left := p, budget;
      while left > 0 && p'.priority < |files[p.file].priority|
        invariant Sane() && Grows(old(files), files) && old(failed) <= failed && Progress(files, failed, p')
        invariant p' == p.(priority := p'.priority) && p.file < |files|
        invariant left <= budget && DataFrames(frames) == old(DataFrames(frames)) + budget - left
        invariant books.done == old(books.done) && flushed == old(flushed) && NewData(old(frames), frames, p.file, PriorityOf(old(files)[p.file]))
        decreases |old(files)[p.file].priority| - p'.priority
      {
        ghost var was, log := files, frames;
        left := SendNextPriority(p', left);
        GrowsChain(old(files), was, files);
        NewDataChain(old(frames), log, frames, p.file, PriorityOf(old(files)[p.file]), PriorityOf(was[p.file]));
        p' := p'.(priority := p'.priority + 1);
      }
    }

    method SendNextInRange(p: Prefetch, budget: nat) returns (left: nat)
      requires Sane() && Progress(files, failed, p) && 0 < budget
      modifies `requested, `files, `frames, `books, `past, `flushed, `account, `failed
      ensures Sane() && Grows(old(files), files) && old(failed) <= failed
      ensures Progress(files, failed, p.(index := p.index + 1))
      ensures left <= budget && DataFrames(frames) == old(DataFrames(frames)) + budget - left
      ensures books.done == old(books.done) && flushed == old(flushed) && NewData(old(frames), frames, p.file, iset{p.index})
    {
      left := Attempt(p.file, p.index, budget);
      ProgressStays(old(files), files, old(failed), failed, p);
    }

    method SendRange(p: Prefetch, budget: nat) returns (p': Prefetch, left: nat)
      requires Sane() && Progress(files, failed, p)
      modifies `requested, `files, `frames, `books, `past, `flushed, `account, `failed
      ensures Sane() && Grows(old(files), files) && old(failed) <= failed && Progress(files, failed, p')
      ensures p' == p.(index := p'.index) && (left > 0 ==> p'.index >= p.end)
      ensures left <= budget && DataFrames(frames) == old(DataFrames(frames)) + budget - left
      ensures books.done == old(books.done) && flushed == old(flushed) && NewData(old(frames), frames, p.file, RangeOf(p)) && (budget == 0 ==> frames == old(frames))
    {
      p', left := p, budget;
      while left > 0 && p'.index < p.end
        invariant Sane() && Grows(old(files), files) && old(failed) <= failed && Progress(files, failed, p')
        invariant p' == p.(index := p'.index) && p.file < |files|
        invariant left <= budget && DataFrames(frames) == old(DataFrames(frames)) + budget - left
        invariant books.done == old(books.done) && flushed == old(flushed) && NewData(old(frames), frames, p.file, RangeOf(p))
        invariant budget == 0 ==> frames == old(frames)
        decreases p.end - p'.index
      {
        ghost var was, log := files, frames;
        left := SendNextInRange(p', left);
        GrowsChain(old(files), was, files);
        NewDataChain(old(frames), log, frames, p.file, RangeOf(p), iset{p'.index});
        p' := p'.(index := p'.index + 1);
      }
    }

    /** The priority blocks of an entry and then its range, while the budget lasts: up to `mid`
        only priority blocks are added to the log, and after it only blocks of the range, once
        every priority block was sent before, or could not be. */
    method WorkOn(p: Prefetch, budget: nat) returns (p': Prefetch, left: nat, ghost mid: nat)
      requires Sane() && Progress(files, failed, p) && 0 < budget
      modifies `requested, `files, `frames, `books, `past, `flushed, `account, `failed
      ensures Sane() && Grows(old(files), files) && old(failed) <= failed && Progress(files, failed, p')
      ensures SameTasks([p], [p']) && (left > 0 ==> Finished(files, p'))
      ensures left <= budget && DataFrames(frames) == old(DataFrames(frames)) + budget - left
      ensures books.done == old(books.done) && flushed == old(flushed) && old(frames) <= frames
      ensures PriorityFirst(old(files)[p.file], failed, old(frames), mid, frames, p)
    {
      p', left := p, budget;
      if files[p.file].priority != [] {
        p', left := SendPriority(p, budget);
      }
      ghost var was, log, lost := files, frames, failed;
      mid := |frames|;
      if left > 0 {
        PriorityIsThere(books, old(files), failed, p');
      }
      p', left := SendRange(p', left);
      GrowsChain(old(files), was, files);
      PriorityStays(old(files)[p.file], lost, failed, old(frames), log, frames, p);
    }

    /** Works on the first entry; with budget left, the entry is finished and leaves. */
    method RunFront(budget: nat) returns (left: nat, ghost front: Prefetch, ghost mid: nat)
      requires Sane() && AllProgress(files, failed, prefetches) && prefetches != [] && 0 < budget
      modifies `requested, `files, `frames, `books, `past, `flushed, `account, `failed, `prefetches
      ensures Sane() && Grows(old(files), files) && old(failed) <= failed
      ensures AllProgress(files, failed, prefetches) && Progress(files, failed, front)
      ensures SameTasks([old(prefetches)[0]], [front])
      ensures prefetches == if Finished(files, front) then old(prefetches)[1..] else [front] + old(prefetches)[1..]
      ensures left > 0 ==> Finished(files, front)
      ensures left <= budget && DataFrames(frames) == old(DataFrames(frames)) + budget - left
      ensures books.done == old(books.done) && flushed == old(flushed) && old(frames) <= frames
      ensures PriorityFirst(old(files)[old(prefetches)[0].file], failed, old(frames), mid, frames, old(prefetches)[0])
    {
      var p, rest := prefetches[0], prefetches[1..];
      p, left, mid := WorkOn(p, budget);
      AllProgressStays(old(files), files, old(failed), failed, rest);
      front := p;
      prefetches := if Finished(files, p) then rest else [p] + rest;
    }

    /** One entry further: `all` were queued and `popped` have left. */
    method Turn(budget: nat, ghost all: seq<Prefetch>, ghost popped: seq<Prefetch>) returns (left: nat, ghost popped': seq<Prefetch>)
      requires Sane() && AllProgress(files, failed, prefetches) && prefetches != [] && 0 < budget
      requires AllServed(files, failed, popped) && SameTasks(all, popped + prefetches)
      modifies `requested, `files, `frames, `books, `past, `flushed, `account, `failed, `prefetches
      ensures Sane() && AllProgress(files, failed, prefetches) && Grows(old(files), files) && old(failed) <= failed
      ensures AllServed(files, failed, popped') && SameTasks(all, popped' + prefetches)
      ensures left <= budget && DataFrames(frames) == old(DataFrames(frames)) + budget - left
      ensures |prefetches| <= |old(prefetches)| && (left > 0 ==> |prefetches| < |old(prefetches)|)
      ensures books.done == old(books.done) && flushed == old(flushed) && old(frames) <= frames
    {
      ghost var front, mid;
      left, front, mid := RunFront(budget);
      AllServedStays(old(files), files, old(failed), failed, popped);
      TasksPop(all, popped, old(prefetches), front);
      popped' := popped;
      if Finished(files, front) {
        FinishedIsServed(files, failed, front);
        popped' := popped + [front];
      }
    }

    /** One turn of prefetching sends at most 128 data blocks, and stops before that only when
        nothing is left to prefetch. The entries that leave the queue are the first ones, and
        each was served: all its blocks were sent, or could not be sent when it was tried. */
    method RunPrefetching() returns (ghost popped: seq<Prefetch>)
      requires Sane() && AllProgress(files, failed, prefetches)
      modifies `requested, `files, `frames, `books, `past, `flushed, `account, `failed, `prefetches
      ensures Sane() && Grows(old(files), files) && old(failed) <= failed
      ensures AllProgress(files, failed, prefetches) && AllServed(files, failed, popped)
      ensures SameTasks(old(prefetches), popped + prefetches)
      ensures DataFrames(frames) <= old(DataFrames(frames)) + BLOCKS_PER_ITERATION
      ensures prefetches == [] || DataFrames(frames) == old(DataFrames(frames)) + BLOCKS_PER_ITERATION
      ensures books.done == old(books.done) && flushed == old(flushed) && old(frames) <= frames
    {
      var budget: nat := BLOCKS_PER_ITERATION;
      popped := [];
      assert [] + prefetches == prefetches;
      while prefetches != [] && budget > 0
        invariant Sane() && Grows(old(files), files) && old(failed) <= failed
        invariant AllProgress(files, failed, prefetches) && AllServed(files, failed, popped)
        invariant SameTasks(old(prefetches), popped + prefetches)
        invariant budget <= BLOCKS_PER_ITERATION && books.done == old(books.done) && flushed == old(flushed) && old(frames) <= frames
        invariant DataFrames(frames) == old(DataFrames(frames)) + BLOCKS_PER_ITERATION - budget
        decreases |prefetches|, budget
      {
        ghost var was := files;
        budget, popped := Turn(budget, old(prefetches), popped);
        GrowsChain(old(files), was, files);
      }
    }

    ghost predicate Ready()
      reads `files, `frames, `books, `past, `requested, `account, `failed, `prefetches
    {
      Sane() && AllProgress(files, failed, prefetches)
    }

    method IsLoaded() returns (all: bool)
      ensures all == AllLoaded(files)
    {
      for f := 0 to |files|
        invariant forall g :: 0 <= g < f ==> files[g].count == |files[g].sent|
      {
        if files[f].count != |files[f].sent| {
          return false;
        }
      }
      return true;
    }

    /** The end, once. */
    method SendDone()
      requires Ready() && AllLoaded(files) && !books.done
      modifies `frames, `books, `past, `flushed
      ensures Ready() && books == AddDone(old(books)) && flushed == |frames| && DataFrames(frames) == old(DataFrames(frames))
    {
      DataFramesPush(frames, Done);
      books, past := AddDone(books), Pushing(past, Done, |requested|);
      frames := frames + [Done];
      flushed := |frames|;
    }

    method Flush()
      requires Ready()
      modifies `flushed
      ensures Ready() && flushed == |frames|
    {
      flushed := |frames|;
    }

    method SendAtOnce(f: nat, b: nat) returns (sent: bool)
      requires Sane() && f < |files| && b < |files[f].sent|
      modifies `requested, `files, `frames, `books, `past, `flushed, `account, `failed
      ensures Sane() && Grows(old(files), files) && old(failed) <= failed && books.done == old(books.done)
      ensures files[f].sent[b] || (f, b) in failed
      ensures sent <==> files[f].sent[b] && !old(files)[f].sent[b]
      ensures flushed == if sent then |frames| else old(flushed)
      ensures DataFrames(frames) >= old(DataFrames(frames))
    {
      var result := SendDataBlock(f, b, true);
      sent := result == Sent;
      if result == Error {
        OnlyHashesKeeps(old(books.log), books.log, f, 0);
      }
    }

    /** A missing block is sent, and the next seven are prefetched first. */
    method Miss(f: int, b: int)
      requires Ready()
      modifies `requested, `files, `frames, `books, `past, `flushed, `account, `failed, `prefetches
      ensures Ready() && Grows(old(files), files) && old(failed) <= failed && books.done == old(books.done)
      ensures 0 <= f < |files| && 0 <= b < |files[f].sent| ==> files[f].sent[b] || (f, b) in failed
      ensures DataFrames(frames) >= old(DataFrames(frames))
      ensures NewlySent(old(files), files, f, b) ==> flushed == |frames|
      ensures prefetches ==
        if NewlySent(old(files), files, f, b) then [Prefetch(f, b + 1, b + 1, Min(b + 8, |files[f].sent|), 0)] + old(prefetches)
        else old(prefetches)
    {
      if f < 0 || f >= |files| || b < 0 || b >= |files[f].sent| {
        return;
      }
      var sent := SendAtOnce(f, b);
      AllProgressStays(old(files), files, old(failed), failed, prefetches);
      if sent {
        prefetches := [Prefetch(f, b + 1, b + 1, Min(b + 8, |files[f].sent|), 0)] + prefetches;
      }
    }

    /** A whole file is prefetched, once and after everything else. */
    method Prefetching(f: int, prefetched: set<int>) returns (prefetched': set<int>)
      requires Ready() && f < |files|
      modifies `prefetches
      ensures Ready() && prefetched' == prefetched + if f < 0 then {} else {f}
      ensures prefetches == old(prefetches) +
        if f < 0 || f in prefetched then [] else [Prefetch(f, 0, 0, |files[f].sent|, 0)]
    {
      prefetched' := prefetched;
      if f >= 0 && f !in prefetched {
        prefetched' := prefetched + {f};
        prefetches := prefetches + [Prefetch(f, 0, 0, |files[f].sent|, 0)];
      }
    }

    /** One request; a request of unknown kind is ignored. */
    method Handle(c: Command, prefetched: set<int>, ghost since: map<int, nat>, ghost n: nat) returns (prefetched': set<int>)
      requires Ready() && ValidId(c, |files|) && prefetched == since.Keys
      requires OnTime(files, failed, prefetches, DataFrames(frames), n, since)
      modifies `requested, `files, `frames, `books, `past, `flushed, `account, `failed, `prefetches, scanner`servingComplete
      ensures Ready() && Grows(old(files), files) && books.done == old(books.done) && old(failed) <= failed
      ensures OnTime(files, failed, prefetches, DataFrames(frames), n, After(since, Some(c), n))
      ensures prefetched' == After(since, Some(c), n).Keys && DataFrames(frames) >= old(DataFrames(frames))
      ensures Settled(files, failed, c) && prefetches == QueueAfter(old(files), files, old(prefetches), prefetched, Some(c))
      ensures c.kind == BLOCK_MISSING && NewlySent(old(files), files, c.file, c.block) ==> flushed == |frames|
      ensures scanner.servingComplete == (old(scanner.servingComplete) || c.kind == SERVING_COMPLETE)
    {
      prefetched' := prefetched;
      ghost var sent := DataFrames(frames);
      if c.kind == SERVING_COMPLETE {
        scanner.servingComplete := true;
      } else if c.kind == BLOCK_MISSING {
        Miss(c.file, c.block);
        MissOnTime(old(files), files, old(failed), failed, old(prefetches), prefetches, sent, DataFrames(frames), n, since);
      } else if c.kind == PREFETCH {
        prefetched' := Prefetching(c.file, prefetched);
        PrefetchOnTime(files, failed, old(prefetches), prefetches, sent, n, since, c.file);
      }
    }

    /** The end is sent as soon as everything is loaded and nothing is left to prefetch. */
    method Announce(doneSent: bool) returns (doneSent': bool)
      requires Ready() && doneSent == books.done
      modifies `frames, `books, `past, `flushed
      ensures Ready() && doneSent' == books.done && books.torn == old(books.torn)
      ensures doneSent' <==> doneSent || (prefetches == [] && AllLoaded(files))
      ensures DataFrames(frames) == old(DataFrames(frames))
    {
      doneSent' := doneSent;
      if !doneSent && prefetches == [] {
        var all := IsLoaded();
        if all {
          SendDone();
          doneSent' := true;
        }
      }
    }

    /** A request, if there is one, and a turn of prefetching, which leaves nothing to prefetch
        or sends as much as it may. */
    method Answering(request: Option<Command>, prefetched: set<int>, ghost since: map<int, nat>, ghost n: nat)
      returns (prefetched': set<int>)
      requires Ready() && (request.Some? ==> ValidId(request.value, |files|)) && prefetched == since.Keys
      requires OnTime(files, failed, prefetches, DataFrames(frames), n, since)
      modifies `requested, `files, `frames, `books, `past, `flushed, `account, `failed, `prefetches, scanner`servingComplete
      ensures Ready() && Grows(old(files), files) && books.done == old(books.done) && old(failed) <= failed
      ensures prefetches == [] || DataFrames(frames) >= old(DataFrames(frames)) + BLOCKS_PER_ITERATION
      ensures OnTime(files, failed, prefetches, DataFrames(frames), n + 1, After(since, request, n))
      ensures prefetched' == After(since, request, n).Keys
      ensures Works(old(files), files, failed, old(prefetches), prefetched, request, prefetches)
      ensures request.Some? ==> Settled(files, failed, request.value)
      ensures request.Some? ==> Hurried(old(files), failed, frames, flushed, request.value)
      ensures scanner.servingComplete == (old(scanner.servingComplete) || (request.Some? && request.value.kind == SERVING_COMPLETE))
    {
      prefetched' := prefetched;
      if request.Some? {
        prefetched' := Handle(request.value, prefetched, since, n);
      }
      ghost var was, queue, before, sent, ledger := files, prefetches, failed, DataFrames(frames), books;
      ghost var popped := RunPrefetching();
      GrowsChain(old(files), was, files);
      if request.Some? {
        SettledStays(was, files, before, failed, request.value);
        HurriedStays(ledger, old(files), before, failed, frames, flushed, request.value);
      }
      OnTimePops(was, files, before, failed, queue, popped, prefetches, sent, DataFrames(frames), n, After(since, request, n));
    }

    /** After everything has been sent, a round leaves the queue empty. */
    lemma {:induction false} FinallyQuiet(was: SoundLedger, lost: set<(nat, nat)>, queue: seq<Prefetch>, since: map<int, nat>,
                       request: Option<Command>, n: nat)
      requires books.files == files && books.log == frames && Grows(was.files, files)
      requires lost <= failed && OnTime(was.files, lost, queue, DataFrames(was.log), n, since)
      requires prefetches == [] || DataFrames(frames) >= DataFrames(was.log) + BLOCKS_PER_ITERATION
      ensures failed == {} && AllLate(files, n, After(since, request, n)) ==> prefetches == []
    {
      if failed == {} && AllLate(files, n, After(since, request, n)) {
        assert lost == {};
        SameBlocks(was.files, files, |files|);
        forall f: nat | f < |files|
          ensures Late(was.files, n, since, f)
        {
          assert Late(files, n, After(since, request, n), f);
        }
        NothingLeft(was, books, queue, n, since);
      }
    }

    ghost predicate Listening()
      reads scanner`buffer, scanner`taken, scanner`found, scanner`text, scanner`output, scanner`repeated
      reads scanner`polled, scanner`base, scanner`ended
    {
      && scanner.Valid() && scanner.Faithful() && scanner.Counted()
      && !scanner.ended && scanner.polled <= |scanner.polls| && NoDestroy(scanner.found)
    }

    /** The books of the loop, with `request` heard and not yet answered: the files to prefetch
        are known, and are in time; once they all must have been sent, none is queued; and
        every request of the rounds was answered. */
    ghost predicate Tracks(prefetched: set<int>, request: Option<Command>)
      reads `files, `frames, `prefetches, `failed, `rounds, `since, scanner`found, scanner`servingComplete
    {
      && prefetched == since.Keys && Remembers(rounds, since)
      && OnTime(files, failed, prefetches, DataFrames(frames), |rounds|, since) && Quiet()
      && scanner.found == Somes(rounds) + (match request { case None => [] case Some(c) => [c] })
      && AllSettled(files, failed, Somes(rounds))
      && (scanner.servingComplete <==> HeardComplete(rounds))
    }

    ghost predicate Quiet()
      reads `files, `prefetches, `failed, `rounds, `since
    {
      failed == {} && AllLate(files, |rounds| - 1, since) ==> prefetches == []
    }

    /** At the end, the requests heard are the first ones of the stream, and all of them up to
        the one to stop if each poll found something to read. */
    ghost predicate Heard()
      reads scanner`found
    {
      && scanner.found <= Requests(scanner.stream, 0)
      && (Prompt(scanner.stream, scanner.polls) ==> scanner.found == UntilDestroy(Requests(scanner.stream, 0)))
    }

    /** Everything that can still happen to the service. */
    ghost function Rest(): int
      reads scanner`base, scanner`polled
    {
      |scanner.polls| - scanner.polled + |scanner.stream| - scanner.base
    }

    /** Waits for a request; the service stops when the device says so or is gone, or when
        nothing comes in time after everything was served. It waits for long only with nothing
        to prefetch, and then no frame is left unsent. */
    method Listen(prefetched: set<int>) returns (request: Option<Command>)
      requires Listening() && Tracks(prefetched, None) && (prefetches == [] ==> flushed == |frames|)
      requires forall c :: c in Requests(scanner.stream, 0) ==> ValidId(c, |files|)
      modifies scanner
      ensures request.Some? ==> request.value.kind == DESTROY || ValidId(request.value, |files|)
      ensures request == None || request.value.kind != DESTROY ==> Listening() && Rest() < old(Rest()) && Tracks(prefetched, request)
      ensures request == None ==> !(prefetches == [] && HeardComplete(rounds))
      ensures request.Some? && request.value.kind == DESTROY ==> Heard() && Told() && Released()
    {
      request := scanner.ReadRequest(prefetches == []);
      assert Somes(rounds) + [] == Somes(rounds);
      if request.Some? && request.value.kind != DESTROY {
        FoundIsRequest(scanner.stream, scanner.base, scanner.found, scanner.text, request.value);
      } else if request.Some? && Prompt(scanner.stream, scanner.polls) {
        HeardAll(scanner.stream, scanner.base, old(scanner.found), scanner.found, scanner.text, request.value);
      }
    }

    /** The requests heard are those of the rounds, and perhaps one to stop. */
    ghost predicate Told()
      reads `rounds, scanner`found
    {
      && Somes(rounds) <= scanner.found && |scanner.found| <= |Somes(rounds)| + 1
      && (|scanner.found| > |Somes(rounds)| ==> scanner.found[|Somes(rounds)|].kind == DESTROY)
    }

    /** The service ended for a reason: it was told to, a poll or a read failed, or it waited in
        vain after it had been told that everything was served, with nothing to prefetch. */
    ghost predicate Released()
      reads `rounds, `prefetches, scanner`last, scanner`polled, scanner`found
    {
      && scanner.Excused() && !scanner.last.Idle?
      && (scanner.last.Found? ==> scanner.found != [] && scanner.found[|scanner.found| - 1].kind == DESTROY)
      && (scanner.last.Unneeded? ==> prefetches == [] && HeardComplete(rounds))
    }

    /** At the end: every request was answered, each file that was asked for in time was sent,
        and if that is everything, so was the end. */
    ghost predicate Ended()
      reads `files, `prefetches, `failed, `books, `rounds, scanner`found, scanner`last, scanner`polled
    {
      Heard() && Told() && Released() && AllSettled(files, failed, scanner.found) && Punctual() && Complete()
    }

    /** Every file that was asked for longer ago than sending all blocks takes was sent, as far
        as it could be. */
    ghost predicate Punctual()
      reads `files, `failed, `rounds
    {
      forall f: nat :: AskedLongAgo(rounds, |rounds|, f, AllBlocks(files, |files|)) ==> AllHandled(files, failed, f)
    }

    /** If everything was asked for and could be sent, and nothing is queued or it was all asked
        for long enough ago, the end has been sent. */
    ghost predicate Complete()
      reads `files, `prefetches, `failed, `books, `rounds, scanner`found
    {
      && (failed == {} && prefetches == [] && (forall f :: 0 <= f < |files| ==> Asked(scanner.found, f)) ==> books.done)
      && (failed == {} && AllAskedLongAgo(rounds, |rounds| - 1, |files|, AllBlocks(files, |files|)) ==> books.done)
    }

    lemma {:induction false} TracksIsPunctual(prefetched: set<int>)
      requires Tracks(prefetched, None) && books.files == files && books.log == frames
      ensures Punctual()
    {
      forall f: nat | AskedLongAgo(rounds, |rounds|, f, AllBlocks(files, |files|))
        ensures AllHandled(files, failed, f)
      {
        LongAgoIsLate(rounds, since, files, |rounds|, f);
        LateIsHandled(books, failed, prefetches, |rounds|, since, f);
      }
    }

    /** When everything was asked for and the queue is empty, the end was sent. */
    lemma {:induction false} EmptyIsDone(prefetched: set<int>)
      requires Tracks(prefetched, None) && books.files == files && (books.done <== prefetches == [] && AllLoaded(files))
      ensures failed == {} && prefetches == [] && (forall f: nat :: f < |files| ==> f in since) ==> books.done
    {
      if failed == {} && prefetches == [] && forall f: nat :: f < |files| ==> f in since {
        EmptyIsLoaded(books, DataFrames(frames), |rounds|, since);
      }
    }

    lemma {:induction false} TracksIsComplete(prefetched: set<int>)
      requires Tracks(prefetched, None) && books.files == files && (books.done <== prefetches == [] && AllLoaded(files))
      ensures Complete()
    {
      EmptyIsDone(prefetched);
      assert Somes(rounds) + [] == Somes(rounds);
      if forall f :: 0 <= f < |files| ==> Asked(scanner.found, f) {
        forall f: nat | f < |files|
          ensures f in since
        {
          AskedIsRemembered(rounds, since, f);
        }
      }
      var n := |rounds| - 1;
      if AllAskedLongAgo(rounds, n, |files|, AllBlocks(files, |files|)) {
        forall f: nat | f < |files|
          ensures Late(files, n, since, f) && f in since
        {
          LongAgoIsLate(rounds, since, files, n, f);
        }
        assert AllLate(files, |rounds| - 1, since);
      }
    }

    /** What is done before the server waits for a request. */
    method Prepare(doneSent: bool, prefetched: set<int>) returns (doneSent': bool)
      requires Ready() && doneSent == books.done && Tracks(prefetched, None)
      modifies `frames, `books, `past, `flushed
      ensures Ready() && doneSent' == books.done && books.torn == old(books.torn) && DataFrames(frames) == old(DataFrames(frames))
      ensures Tracks(prefetched, None) && Punctual() && Complete() && (prefetches == [] ==> flushed == |frames|)
    {
      doneSent' := Announce(doneSent);
      if prefetches == [] {
        Flush();
      }
      TracksIsPunctual(prefetched);
      TracksIsComplete(prefetched);
    }

    /** The first half of a round, up to the request. */
    method Wait(doneSent: bool, prefetched: set<int>) returns (doneSent': bool, request: Option<Command>)
      requires Ready() && doneSent == books.done && Listening() && Tracks(prefetched, None)
      requires forall c :: c in Requests(scanner.stream, 0) ==> ValidId(c, |files|)
      modifies `frames, `books, `past, `flushed, scanner
      ensures Ready() && doneSent' == books.done && books.torn == old(books.torn)
      ensures DataFrames(frames) == old(DataFrames(frames))
      ensures if request.Some? && request.value.kind == DESTROY then Ended()
        else Listening() && Rest() < old(Rest()) && Tracks(prefetched, request)
      ensures request.Some? && request.value.kind != DESTROY ==> ValidId(request.value, |files|)
    {
      doneSent' := Prepare(doneSent, prefetched);
      ghost var heard := scanner.found;
      request := Listen(prefetched);
      if request.Some? && request.value.kind == DESTROY {
        assert Somes(rounds) + [] == Somes(rounds);
        StopsComplete(heard);
      }
    }

    /** A request to stop asks for no file. */
    lemma {:induction false} StopsComplete(heard: seq<Command>)
      requires Told() && heard == Somes(rounds) && AllSettled(files, failed, heard)
      requires failed == {} && prefetches == [] && (forall f :: 0 <= f < |files| ==> Asked(heard, f)) ==> books.done
      ensures failed == {} && prefetches == [] && (forall f :: 0 <= f < |files| ==> Asked(scanner.found, f)) ==> books.done
      ensures AllSettled(files, failed, scanner.found)
    {
      forall f | Asked(scanner.found, f)
        ensures Asked(heard, f)
      {
        var i :| 0 <= i < |scanner.found| && scanner.found[i].kind == PREFETCH && scanner.found[i].file == f;
        assert heard[i] == scanner.found[i];
      }
    }

    /** The second half of a round: the request is answered, and the round is over. */
    method Respond(request: Option<Command>, prefetched: set<int>) returns (prefetched': set<int>)
      requires Ready() && Tracks(prefetched, request) && (request.Some? ==> ValidId(request.value, |files|))
      modifies `requested, `files, `frames, `books, `past, `flushed, `account, `failed, `prefetches, `rounds, `since
      modifies scanner`servingComplete
      ensures Ready() && Grows(old(files), files) && books.done == old(books.done) && rounds == old(rounds) + [request]
      ensures Tracks(prefetched', None) && Works(old(files), files, failed, old(prefetches), prefetched, request, prefetches)
      ensures prefetches == [] || DataFrames(frames) >= old(DataFrames(frames)) + BLOCKS_PER_ITERATION
      ensures request.Some? ==> Hurried(old(files), failed, frames, flushed, request.value)
    {
      ghost var n, queue, lost := |rounds|, prefetches, failed;
      prefetched' := Answering(request, prefetched, since, n);
      FinallyQuiet(old(books), lost, queue, since, request, n);
      AllSettledStay(old(files), files, lost, failed, Somes(rounds));
      Count(request, prefetched');
    }

    /** One round of the service; it leaves nothing to prefetch, or sends as much as it may. */
    method Round(doneSent: bool, prefetched: set<int>) returns (stop: bool, doneSent': bool, prefetched': set<int>)
      requires Ready() && doneSent == books.done && Listening() && Tracks(prefetched, None)
      requires forall c :: c in Requests(scanner.stream, 0) ==> ValidId(c, |files|)
      modifies `requested, `files, `frames, `books, `past, `flushed, `account, `failed, `prefetches, `rounds, `since, scanner
      ensures Ready() && Grows(old(files), files) && doneSent' == books.done
      ensures if stop then Ended() && rounds == old(rounds)
        else Listening() && Tracks(prefetched', None) && Rest() < old(Rest()) && |rounds| == |old(rounds)| + 1
      ensures !stop ==> prefetches == [] || DataFrames(frames) >= old(DataFrames(frames)) + BLOCKS_PER_ITERATION
      ensures !stop ==> Works(old(files), files, failed, old(prefetches), prefetched, rounds[|rounds| - 1], prefetches)
    {
      var request;
      prefetched' := prefetched;
      doneSent', request := Wait(doneSent, prefetched);
      stop := request.Some? && request.value.kind == DESTROY;
      if !stop {
        prefetched' := Respond(request, prefetched);
      }
    }

    /** The round is over. */
    ghost method Count(request: Option<Command>, prefetched: set<int>)
      requires Remembers(rounds, since) && AllSettled(files, failed, Somes(rounds))
      requires request.Some? ==> Settled(files, failed, request.value)
      requires OnTime(files, failed, prefetches, DataFrames(frames), |rounds| + 1, After(since, request, |rounds|))
      requires failed == {} && AllLate(files, |rounds|, After(since, request, |rounds|)) ==> prefetches == []
      requires scanner.found == Somes(rounds) + match request { case None => [] case Some(c) => [c] }
      requires prefetched == After(since, request, |rounds|).Keys
      requires scanner.servingComplete <==> HeardComplete(rounds) || (request.Some? && request.value.kind == SERVING_COMPLETE)
      modifies `rounds, `since
      ensures rounds == old(rounds) + [request] && Tracks(prefetched, None)
    {
      SomesNext(rounds, request);
      NextHeard(rounds, request);
      RemembersNext(rounds, since, request);
      rounds, since := rounds + [request], After(since, request, |rounds|);
      assert Somes(rounds) + [] == Somes(rounds);
    }

    /** The whole service, for every stream of requests with valid identifiers, however it
        arrives, and whatever the files answer. Every request for a block is answered, and every
        file that is to be prefetched is sent within as many rounds as all blocks take, as far
        as it can be read. If every file was asked for, no block failed and nothing is left in
        the queue, or enough rounds have passed, then the end was sent, and with it everything. */
    method Serve(alive: bool) returns (ok: bool)
      requires Ready() && !books.done && Listening() && scanner.found == [] && !scanner.servingComplete
      requires prefetches == [] && rounds == [] && since == map[]
      requires forall c :: c in Requests(scanner.stream, 0) ==> ValidId(c, |files|)
      modifies `requested, `files, `frames, `books, `past, `flushed, `account, `failed, `prefetches, `rounds, `since, scanner
      ensures Ready() && Grows(old(files), files) && ok == alive && (ok ==> Ended()) && (!ok ==> frames == old(frames))
    {
      if !alive {
        return false;
      }
      var prefetched: set<int>, doneSent, stop := {}, false, false;
      while !stop
        invariant Ready() && Grows(old(files), files) && doneSent == books.done
        invariant if stop then Ended() else Listening() && Tracks(prefetched, None)
        decreases !stop, Rest()
      {
        ghost var was := files;
        stop, doneSent, prefetched := Round(doneSent, prefetched);
        GrowsChain(old(files), was, files);
      }
      return true;
    }
  }

  /** The key was sent before the `i`th frame. */
  ghost predicate Before(frames: seq<WireFrame>, i: nat, k: Key) {
    exists j :: 0 <= j < i && j < |frames| && KeyOf(frames[j]) == k
  }

  /** No block, no hash block and no end is sent twice. */
  ghost predicate SentOnce(frames: seq<WireFrame>) {
    forall i, j :: 0 <= i < j < |frames| ==> KeyOf(frames[i]) != KeyOf(frames[j])
  }

  /** The end comes after every block of every file. */
  ghost predicate EndsLast(files: seq<File>, frames: seq<WireFrame>) {
    forall i, f: nat, b: nat :: 0 <= i < |frames| && frames[i].Done? && f < |files| && b < Blocks(files[f]) ==>
      Before(frames, i, DataKey(f, b))
  }

  /** Every data block of the file, if it has a tree, comes after the hash blocks of all
      levels above it. */
  ghost predicate PathsFirst(file: File, frames: seq<WireFrame>, f: nat) {
    forall i, level: nat ::
      0 <= i < |frames| && frames[i].Data? && frames[i].file == f && file.tree && HasLevel(Blocks(file), level) ==>
      Before(frames, i, HashKey(f, Node(Blocks(file), frames[i].index, level)))
  }

  lemma {:induction false} SoundSendsOnce(l: SoundLedger)
    ensures SentOnce(l.log)
  {
    forall i, j | 0 <= i < j < |l.log|
      ensures KeyOf(l.log[i]) != KeyOf(l.log[j])
    {
      AtMostOnce(l, i, j);
    }
  }

  lemma {:induction false} SoundEndsLast(l: SoundLedger, files: seq<File>)
    requires Grows(files, l.files)
    ensures EndsLast(files, l.log)
  {
    forall i, f: nat, b: nat | 0 <= i < |l.log| && l.log[i].Done? && f < |files| && b < Blocks(files[f])
      ensures Before(l.log, i, DataKey(f, b))
    {
      FileFacts(l, f);
      var j := DoneAfterAll(l, i, f, b);
    }
  }

  lemma {:induction false} SoundSendsPathsFirst(l: SoundLedger, file: File, f: nat)
    requires f < |l.files| && f !in l.torn && file.size == l.files[f].size && file.tree == l.files[f].tree
    ensures PathsFirst(file, l.log, f)
  {
    forall i, level: nat |
      0 <= i < |l.log| && l.log[i].Data? && l.log[i].file == f && file.tree && HasLevel(Blocks(file), level)
      ensures Before(l.log, i, HashKey(f, Node(Blocks(file), l.log[i].index, level)))
    {
      var j := PathBeforeData(l, i, level);
    }
  }

  function SizesOf(files: seq<File>): seq<nat> {
    seq(|files|, f requires 0 <= f < |files| => files[f].size)
  }

  lemma {:induction false} SameSizes(l: SoundLedger, files: seq<File>)
    requires Grows(files, l.files)
    ensures l.sizes == SizesOf(files)
  {
    forall f | 0 <= f < |files|
      ensures f < |l.sizes| && l.sizes[f] == files[f].size
    {
      FileFacts(l, f);
    }
    LedgerLength(l);
  }

  /** All hash blocks the `i`th frame needs, if it is a data frame of this file, are before
      it. */
  ghost predicate NeedsFirst(file: File, frames: seq<WireFrame>, i: nat)
    requires i < |frames| && frames[i].Data?
  {
    forall k: nat :: Needed(Blocks(file), frames[i].index, k) ==> Before(frames, i, HashKey(frames[i].file, k))
  }

  lemma {:induction false} CountPrefix(log: seq<WireFrame>, i: nat, k: Key)
    requires i <= |log|
    ensures Count(log[..i], k) <= Count(log, k)
    decreases |log| - i
  {
    if i == |log| {
      assert log[..i] == log;
    } else {
      CountPrefix(log, i + 1, k);
      assert log[..i + 1] == log[..i] + [log[i]];
      CountPush(log[..i], log[i]);
    }
  }

  lemma {:induction false} BeforeIsCounted(l: SoundLedger, i: nat, k: Key)
    requires i <= |l.log|
    ensures Before(l.log, i, k) <==> Count(l.log[..i], k) == 1
  {
    if Before(l.log, i, k) {
      var j :| 0 <= j < i && j < |l.log| && KeyOf(l.log[j]) == k;
      assert l.log[..i][j] == l.log[j];
      CountOnce(l.log[..i], j);
      CountPrefix(l.log, i, k);
    }
    if Count(l.log[..i], k) == 1 {
      var j := CountedIsThere(l.log[..i], k);
      assert l.log[..i][j] == l.log[j];
    }
  }

  lemma {:induction false} UppersAreBefore(l: SoundLedger, i: nat, f: nat, n: int)
    requires i <= |l.log|
    ensures UppersIn(l.log[..i], f, n) <==> forall k: nat :: k < n ==> Before(l.log, i, HashKey(f, k))
  {
    forall k: nat
      ensures Before(l.log, i, HashKey(f, k)) <==> Count(l.log[..i], HashKey(f, k)) == 1
    {
      BeforeIsCounted(l, i, HashKey(f, k));
    }
  }

  lemma {:induction false} DataIsOfFile(l: SoundLedger, i: nat)
    requires i < |l.log| && l.log[i].Data?
    ensures l.log[i].file < |l.files| && l.log[i].index < Blocks(l.files[l.log[i].file])
  {
    CountOnce(l.log, i);
    assert IsSent(l, KeyOf(l.log[i]));
    FileFacts(l, l.log[i].file);
  }

  /** The `i`th frame carries what a read of its own place gave. If it is a data block of a
      file with a tree, its leaf is before it, and all the hash blocks it needs are exactly if
      everything above the leaves had been read when it was. */
  ghost predicate InPlace(storage: Storage, files: seq<File>, keys: seq<Key>, frames: seq<WireFrame>, origin: seq<nat>, i: nat) {
    && i < |frames| == |origin| && ComesFrom(storage, keys, frames[i], origin[i])
    && (frames[i].Data? ==>
          var f := frames[i].file;
          f < |files| && (files[f].tree ==>
            && 0 <= Leaf(Blocks(files[f]), frames[i].index)
            && Before(frames, i, HashKey(f, Leaf(Blocks(files[f]), frames[i].index)))
            && (NeedsFirst(files[f], frames, i) <==> UppersRead(storage, SizesOf(files), keys[..origin[i]], f))))
  }

  lemma {:induction false} SoundInPlace(l: SoundLedger, p: History, files: seq<File>, i: nat)
    requires Grows(files, l.files) && p.frames == l.log && p.sizes == l.sizes == SizesOf(files) && i < |l.log|
    ensures InPlace(p.storage, files, p.keys, l.log, p.origin, i)
  {
    var x := l.log[i];
    if x.Data? {
      DataIsOfFile(l, i);
      if files[x.file].tree {
        var j := LeafBeforeData(l, i);
        UppersAreBefore(l, i, x.file, LeafOffset(Blocks(files[x.file])));
        assert UppersAgree(p.storage, p.sizes, p.keys, l.log[..i], x, p.origin[i]);
      }
    }
  }

  /** What was asked for by a missing block, if that exists, was sent or could not be sent. */
  ghost predicate Answers(files: seq<File>, frames: seq<WireFrame>, failed: set<(nat, nat)>, c: Command) {
    c.kind == BLOCK_MISSING && 0 <= c.file < |files| && 0 <= c.block < Blocks(files[c.file]) ==>
      Before(frames, |frames|, DataKey(c.file, c.block)) || (c.file as nat, c.block as nat) in failed
  }

  lemma {:induction false} SentIsThere(l: SoundLedger, k: Key)
    requires IsSent(l, k)
    ensures Before(l.log, |l.log|, k)
  {
    assert Count(l.log, k) == 1;
    var i := CountedIsThere(l.log, k);
  }

  lemma {:induction false} SettledAnswers(l: SoundLedger, files: seq<File>, failed: set<(nat, nat)>, c: Command)
    requires Grows(files, l.files) && Settled(l.files, failed, c)
    ensures Answers(files, l.log, failed, c)
  {
    if c.kind == BLOCK_MISSING && 0 <= c.file < |files| && 0 <= c.block < Blocks(files[c.file]) {
      FileFacts(l, c.file);
      if l.files[c.file].sent[c.block] {
        SentIsThere(l, DataKey(c.file, c.block));
      }
    }
  }

  lemma {:induction false} DoneIsThere(l: SoundLedger)
    requires l.done
    ensures Done in l.log
  {
    SentIsThere(l, DoneKey);
  }

  lemma {:induction false} SoundRun(l: SoundLedger, p: History, files: seq<File>)
    requires Grows(files, l.files) && p.frames == l.log && p.sizes == l.sizes == SizesOf(files)
    ensures SentOnce(l.log) && EndsLast(files, l.log)
    ensures forall i :: 0 <= i < |l.log| ==> InPlace(p.storage, files, p.keys, l.log, p.origin, i)
  {
    SoundSendsOnce(l);
    SoundEndsLast(l, files);
    forall i | 0 <= i < |l.log|
      ensures InPlace(p.storage, files, p.keys, l.log, p.origin, i)
    {
      SoundInPlace(l, p, files, i);
    }
  }

  lemma {:induction false} TornOrWhole(l: SoundLedger, r: Account, files: seq<File>)
    requires Grows(files, l.files) && r.torn == l.torn
    ensures forall f: nat :: f < |files| && !UpperMissing(r.storage, r.sizes, r.keys, f) ==> PathsFirst(files[f], l.log, f)
  {
    forall f: nat | f < |files| && !UpperMissing(r.storage, r.sizes, r.keys, f)
      ensures PathsFirst(files[f], l.log, f)
    {
      assert f !in r.torn;
      SoundSendsPathsFirst(l, files[f], f);
    }
  }

  /** Every block of the file was sent, or could not be sent when it was tried. */
  ghost predicate Delivered(files: seq<File>, frames: seq<WireFrame>, failed: set<(nat, nat)>, f: nat) {
    f < |files| && forall b: nat :: b < Blocks(files[f]) ==> Before(frames, |frames|, DataKey(f, b)) || (f, b) in failed
  }

  lemma {:induction false} HandledIsDelivered(l: SoundLedger, files: seq<File>, failed: set<(nat, nat)>, f: nat)
    requires Grows(files, l.files) && AllHandled(l.files, failed, f)
    ensures Delivered(files, l.log, failed, f)
  {
    FileFacts(l, f);
    forall b: nat | b < Blocks(files[f])
      ensures Before(l.log, |l.log|, DataKey(f, b)) || (f, b) in failed
    {
      assert Handled(l.files, failed, f, b);
      if l.files[f].sent[b] {
        SentIsThere(l, DataKey(f, b));
      }
    }
  }

  /** A file that the `k`th request asks for, and enough requests after it. */
  predicate AskedEarly(found: seq<Command>, k: nat, f: nat, blocks: nat) {
    k < |found| && found[k].kind == PREFETCH && found[k].file == f && BLOCKS_PER_ITERATION * (|found| - 1 - k) > blocks
  }

  /** Each request takes a round. */
  lemma {:induction false} EarlyIsLongAgo(rounds: seq<Option<Command>>, found: seq<Command>, k: nat, f: nat, blocks: nat)
    requires AskedEarly(found, k, f, blocks) && Somes(rounds) <= found && |found| <= |Somes(rounds)| + 1
    ensures AskedLongAgo(rounds, |rounds|, f, blocks)
  {
    var i := RoundOf(rounds, k);
    assert AsksFor(rounds[i], f);
  }

  lemma {:induction false} EndedInTime(server: IncrementalServer, files: seq<File>)
    requires server.Valid() && server.Ended() && Grows(files, server.files)
    ensures forall f: nat :: AskedLongAgo(server.rounds, |server.rounds|, f, AllBlocks(files, |files|)) ==>
      Delivered(files, server.frames, server.failed, f)
    ensures forall k: nat, f: nat :: AskedEarly(server.scanner.found, k, f, AllBlocks(files, |files|)) ==>
      Delivered(files, server.frames, server.failed, f)
  {
    SameBlocks(files, server.files, |files|);
    forall f: nat | AskedLongAgo(server.rounds, |server.rounds|, f, AllBlocks(files, |files|))
      ensures Delivered(files, server.frames, server.failed, f)
    {
      HandledIsDelivered(server.books, files, server.failed, f);
    }
    forall k: nat, f: nat | AskedEarly(server.scanner.found, k, f, AllBlocks(files, |files|))
      ensures Delivered(files, server.frames, server.failed, f)
    {
      EarlyIsLongAgo(server.rounds, server.scanner.found, k, f, AllBlocks(files, |files|));
    }
  }

  lemma {:induction false} EndedIsAnswered(server: IncrementalServer, files: seq<File>)
    requires server.Valid() && server.Ended() && Grows(files, server.files)
    ensures forall c :: c in server.scanner.found ==> Answers(files, server.frames, server.failed, c)
    ensures server.books.done ==> Done in server.frames
  {
    forall c | c in server.scanner.found
      ensures Answers(files, server.frames, server.failed, c)
    {
      SettledAnswers(server.books, files, server.failed, c);
    }
    if server.books.done {
      DoneIsThere(server.books);
    }
  }

  /** A run from its start. No block, hash block or end is sent twice, the end comes after
      every block of every file, and every frame is in its place. In each file of which every
      block above the leaves that was read could be read, every data block comes after all
      hash blocks on its way to the root, whatever else failed.
      The requests heard are the first ones of the stream; they are all of them, up to the one
      to stop, if each poll finds something to read. Each that is for a block is answered,
      unless a read failed that the block needs.
      A file that is to be prefetched has been sent, as far as it could be read, when the rounds
      from the one of the request on, or the requests after it, are more than the blocks of all
      files divided by 128. If that holds of all files one round earlier and nothing failed, the
      end was sent; or if all files were asked for, nothing failed and nothing is left to
      prefetch. */
  method Run(files: seq<File>, stream: seq<byte>, polls: seq<Poll>, storage: Storage, alive: bool)
    returns (frames: seq<WireFrame>, requested: seq<Key>, left: seq<Prefetch>, ghost origin: seq<nat>,
             ghost found: seq<Command>, ghost failed: set<(nat, nat)>, ghost rounds: seq<Option<Command>>, ghost end: Outcome)
    requires |files| < 0x8000 && forall f :: 0 <= f < |files| ==> Untouched(files[f])
    requires forall c :: c in Requests(stream, 0) ==> ValidId(c, |files|)
    ensures SentOnce(frames) && EndsLast(files, frames)
    ensures forall i :: 0 <= i < |frames| ==> InPlace(storage, files, requested, frames, origin, i)
    ensures forall f: nat :: f < |files| && !UpperMissing(storage, SizesOf(files), requested, f) ==>
      PathsFirst(files[f], frames, f)
    ensures alive ==> found <= Requests(stream, 0)
    ensures alive && Prompt(stream, polls) ==> found == UntilDestroy(Requests(stream, 0))
    ensures alive ==> forall c :: c in found ==> Answers(files, frames, failed, c)
    ensures forall f: nat, b: nat :: (f, b) in failed ==> exists n: nat :: BlockMiss(storage, SizesOf(files), requested, f, b, n)
    ensures alive ==> Somes(rounds) <= found && |found| <= |Somes(rounds)| + 1
    ensures alive ==> forall f: nat :: AskedLongAgo(rounds, |rounds|, f, AllBlocks(files, |files|)) ==>
      Delivered(files, frames, failed, f)
    ensures alive ==> forall k: nat, f: nat :: AskedEarly(found, k, f, AllBlocks(files, |files|)) ==>
      Delivered(files, frames, failed, f)
    ensures alive && failed == {} && AllAskedLongAgo(rounds, |rounds| - 1, |files|, AllBlocks(files, |files|)) ==> Done in frames
    ensures alive && failed == {} && left == [] && (forall f :: 0 <= f < |files| ==> Asked(found, f)) ==> Done in frames
    ensures alive ==> !end.Idle? && (end.Found? ==> found != [] && found[|found| - 1].kind == DESTROY)
    ensures alive && end.Unneeded? ==> left == [] && HeardComplete(rounds) && Timeout in polls
    ensures alive && end.ReadFailed? && Ready(0) !in polls ==> found == Requests(stream, 0)
    ensures !alive ==> frames == []
  {
    var server := new IncrementalServer(files, stream, polls, storage);
    var _ := server.Serve(alive);
    frames, requested, left := server.frames, server.requested, server.prefetches;
    origin, found, failed := server.past.origin, server.scanner.found, server.failed;
    rounds, end := server.rounds, server.scanner.last;
    SameSizes(server.books, files);
    SoundRun(server.books, server.past, files);
    TornOrWhole(server.books, server.account, files);
    if alive {
      SameBlocks(files, server.files, |files|);
      EndedIsAnswered(server, files);
      EndedInTime(server, files);
    }
  }

  // ---- What a failed read does

  /** The root of a tree of two levels is the only block above the leaves. */
  lemma {:induction false} RootIsOnTheWay(blocks: nat, b: nat)
    requires LeafOffset(blocks) == 1 && b < blocks
    ensures 1 < blocks && HasLevel(blocks, 2) && Node(blocks, b, 2) == 0
  {
    assert TreeBlocks(blocks) == if blocks <= 1 then 0 else Up(blocks) + TreeBlocks(Up(blocks));
    assert Level(blocks, 1) == Up(Level(blocks, 0));
    PathInTree(blocks, b, 2);
  }

  /** The first try reads the leaf and breaks off at the root. */
  lemma {:induction false} FirstTry(storage: Storage, file: File, b: nat, leaf: nat, now: seq<Key>, ok: bool)
    requires Untouched(file) && file.tree && LeafOffset(Blocks(file)) == 1 && leaf == Leaf(Blocks(file), b)
    requires !storage.Bad(HashKey(0, leaf), 0) && storage.Bad(HashKey(0, 0), 1)
    requires Follows(storage, [], TreePlan(file, 0, b) + [DataKey(0, b)], now, ok)
    ensures !ok && now == [HashKey(0, leaf), HashKey(0, 0)]
  {
    var plan := TreePlan(file, 0, b) + [DataKey(0, b)];
    assert plan[0] == HashKey(0, leaf) && plan[1] == HashKey(0, 0);
    assert [] + plan[..|now|] == plan[..|now|];
    assert |now| >= 1 ==> now[0] == plan[0];
    assert |now| >= 2 ==> now[1] == plan[1];
  }

  /** The file that `TornRun` serves, and how its reads turn out: reading the root fails the
      first time, and everything else can be read. */
  ghost predicate RootFails(file: File, b: nat, storage: Storage) {
    && Untouched(file) && file.tree && LeafOffset(Blocks(file)) == 1 && b < Blocks(file)
    && 0 <= Leaf(Blocks(file), b) && !storage.Bad(HashKey(0, Leaf(Blocks(file), b)), 0) && storage.Bad(HashKey(0, 0), 1)
    && forall k: Key, n: nat :: 2 <= n ==> !storage.Bad(k, n)
  }

  method FirstRequest(file: File, b: nat, storage: Storage) returns (server: IncrementalServer)
    requires RootFails(file, b, storage)
    ensures fresh(server) && server.Sane() && server.storage == storage && |server.requested| == 2
    ensures |server.files| == 1 && server.files[0].(hashes := []) == file.(hashes := []) && !Intact(server.files[0], b)
  {
    server := new IncrementalServer([file], [], [], storage);
    var first := server.SendDataBlock(0, b, true);
    FirstTry(storage, file, b, Leaf(Blocks(file), b), server.requested, first == Sent);
    FileFacts(server.books, 0);
    assert UpperMiss(storage, server.books.sizes, server.requested, 0, 1);
    assert 0 in server.account.torn;
  }

  /** A block without the only hash block above its leaf. */
  lemma {:induction false} RootIsMissing(l: SoundLedger, b: nat)
    requires |l.files| == 1 && l.files[0].tree && LeafOffset(Blocks(l.files[0])) == 1 && b < Blocks(l.files[0])
    requires Marked(l.files[0].sent, b) && !Marked(l.files[0].hashes, 0)
    ensures exists i :: 0 <= i < |l.log| && KeyOf(l.log[i]) == DataKey(0, b)
    ensures forall i :: 0 <= i < |l.log| ==> KeyOf(l.log[i]) != HashKey(0, 0)
  {
    assert IsSent(l, DataKey(0, b)) && !IsSent(l, HashKey(0, 0));
    assert Count(l.log, DataKey(0, b)) == 1 && Count(l.log, HashKey(0, 0)) == 0;
    var i := CountedIsThere(l.log, DataKey(0, b));
    forall j | 0 <= j < |l.log|
      ensures KeyOf(l.log[j]) != HashKey(0, 0)
    {
      CountOnce(l.log, j);
    }
  }

  /** The second try sends the block, and still not the root. */
  lemma {:induction false} SecondTry(was: Ledger, l: SoundLedger, b: nat)
    requires |was.files| == 1 && was.files[0].tree && LeafOffset(Blocks(was.files[0])) == 1 && b < Blocks(was.files[0])
    requires !Intact(was.files[0], b) && DataStep(was, l, 0, b) && !Covered(l.files[0], b)
    ensures exists i :: 0 <= i < |l.log| && KeyOf(l.log[i]) == DataKey(0, b)
    ensures forall i :: 0 <= i < |l.log| ==> KeyOf(l.log[i]) != HashKey(0, 0)
  {
    RootIsOnTheWay(Blocks(was.files[0]), b);
    FileFacts(l, 0);
    CoveredExactly(l.files[0], b);
    assert !Marked(was.files[0].hashes, 0) && Marked(was.files[0].hashes, Leaf(Blocks(was.files[0]), b));
    RootIsMissing(l, b);
  }

  lemma {:induction false} NoPath(file: File, frames: seq<WireFrame>, b: nat)
    requires file.tree && LeafOffset(Blocks(file)) == 1 && b < Blocks(file)
    requires exists i :: 0 <= i < |frames| && KeyOf(frames[i]) == DataKey(0, b)
    requires forall i :: 0 <= i < |frames| ==> KeyOf(frames[i]) != HashKey(0, 0)
    ensures !PathsFirst(file, frames, 0)
  {
    var i :| 0 <= i < |frames| && KeyOf(frames[i]) == DataKey(0, b);
    RootIsOnTheWay(Blocks(file), b);
    assert !Before(frames, i, HashKey(0, Node(Blocks(file), frames[i].index, 2)));
  }

  /** A run of two requests for the same block, in a file with a tree of two levels. Nothing
      is sent for the first request but the leaf; for the second one the block is sent, and
      the receiver never gets the root. */
  method TornRun(file: File, b: nat, storage: Storage) returns (frames: seq<WireFrame>)
    requires RootFails(file, b, storage)
    ensures exists i :: 0 <= i < |frames| && KeyOf(frames[i]) == DataKey(0, b)
    ensures forall i :: 0 <= i < |frames| ==> KeyOf(frames[i]) != HashKey(0, 0)
    ensures !PathsFirst(file, frames, 0)
  {
    var server := FirstRequest(file, b, storage);
    ghost var was := server.books;
    var second := server.SendDataBlock(0, b, true);
    frames := server.frames;
    SecondTry(was, server.books, b);
    NoPath(file, frames, b);
  }
}
