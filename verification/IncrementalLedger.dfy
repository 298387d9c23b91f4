/** What the incremental server has sent, as a value: the flags it keeps for every file and
    the log of all frames. The ledger is sound when the flags and the log agree and the
    order of the frames is right. */
module IncrementalLedgers {
  import opened Common
  import opened IncrementalFrames
  import opened Verity

  /** A file: its size, whether it has a hash tree, which blocks to prefetch first, and
      which of its blocks and hash blocks have been sent. */
  datatype File = File(size: nat, tree: bool, priority: seq<nat>, sent: seq<bool>, count: nat, hashes: seq<bool>)

  datatype Key = DataKey(file: nat, index: nat) | HashKey(file: nat, index: nat) | DoneKey

  function KeyOf(x: WireFrame): Key {
    match x
    case Data(f, b, _, _) => DataKey(f, b)
    case Hash(f, k, _) => HashKey(f, k)
    case Done => DoneKey
  }

  /** `torn` are the files for which reading a hash block above the leaves has failed. */
  datatype Ledger = Ledger(files: seq<File>, sizes: seq<nat>, log: seq<WireFrame>, done: bool, torn: set<nat>)

  // ---- Counting

  function Flag(b: bool): nat {
    if b then 1 else 0
  }

  function Marked(flags: seq<bool>, i: int): bool {
    0 <= i < |flags| && flags[i]
  }

  /** How many of the first `n` flags are set. */
  function Trues(flags: seq<bool>, n: nat): (t: nat)
    requires n <= |flags|
    ensures t <= n
  {
    if n == 0 then 0 else Trues(flags, n - 1) + Flag(flags[n - 1])
  }

  lemma {:induction false} TruesSet(flags: seq<bool>, i: nat, n: nat)
    requires i < |flags| && n <= |flags| && !flags[i]
    ensures Trues(flags[i := true], n) == Trues(flags, n) + Flag(i < n)
  {
    if n > 0 {
      TruesSet(flags, i, n - 1);
    }
  }

  /** The count says whether everything is set. */
  lemma {:induction false} TruesAll(flags: seq<bool>, n: nat)
    requires n <= |flags|
    ensures Trues(flags, n) == n <==> forall i :: 0 <= i < n ==> flags[i]
  {
    if n > 0 {
      TruesAll(flags, n - 1);
    }
  }

  /** How often a frame with this key was sent. */
  function Count(log: seq<WireFrame>, k: Key): nat {
    if log == [] then 0 else Count(log[..|log| - 1], k) + Flag(KeyOf(log[|log| - 1]) == k)
  }

  lemma {:induction false} CountPush(log: seq<WireFrame>, x: WireFrame)
    ensures forall k :: Count(log + [x], k) == Count(log, k) + Flag(KeyOf(x) == k)
  {
    assert (log + [x])[..|log|] == log;
  }

  /** The number of data frames. */
  function DataFrames(log: seq<WireFrame>): nat {
    if log == [] then 0 else DataFrames(log[..|log| - 1]) + Flag(log[|log| - 1].Data?)
  }

  lemma {:induction false} DataFramesPush(log: seq<WireFrame>, x: WireFrame)
    ensures DataFrames(log + [x]) == DataFrames(log) + Flag(x.Data?)
  {
    assert (log + [x])[..|log|] == log;
  }

  // ---- The order of the frames

  /** The hash blocks the receiver needs to check a data block: its leaf, and every block
      above the leaves. */
  predicate Needed(blocks: nat, block: nat, k: nat) {
    k == Leaf(blocks, block) || k < LeafOffset(blocks)
  }

  /** These, or only the leaf. */
  predicate Asks(all: bool, blocks: nat, block: nat, k: nat) {
    k == Leaf(blocks, block) || (all && k < LeafOffset(blocks))
  }

  /** Every data frame of file `f` comes after its leaf, or after all the hash blocks it
      needs. */
  ghost predicate HashesFirst(log: seq<WireFrame>, f: nat, blocks: nat, all: bool) {
    log == [] ||
    var before, x := log[..|log| - 1], log[|log| - 1];
    && HashesFirst(before, f, blocks, all)
    && (x.Data? && x.file == f ==>
          forall k: nat :: Asks(all, blocks, x.index, k) ==> Count(before, HashKey(f, k)) == 1)
  }

  lemma {:induction false} LeavesFirst(log: seq<WireFrame>, f: nat, blocks: nat, all: bool)
    requires HashesFirst(log, f, blocks, all)
    ensures HashesFirst(log, f, blocks, false)
  {
    if log != [] {
      var x := log[|log| - 1];
      LeavesFirst(log[..|log| - 1], f, blocks, all);
      if x.Data? {
        assert forall k: nat :: Asks(false, blocks, x.index, k) ==> Asks(all, blocks, x.index, k);
      }
    }
  }

  /** The last frame comes after every block of every file. */
  ghost predicate DoneLast(log: seq<WireFrame>, sizes: seq<nat>) {
    log == [] ||
    var before, x := log[..|log| - 1], log[|log| - 1];
    && DoneLast(before, sizes)
    && (x.Done? ==> forall f: nat, b: nat :: f < |sizes| && b < NumBlocks(sizes[f]) ==> Count(before, DataKey(f, b)) == 1)
  }

  // ---- Soundness

  function Blocks(file: File): nat {
    NumBlocks(file.size)
  }

  predicate Shaped(file: File) {
    && |file.sent| == Blocks(file) < TWO_31 && |file.hashes| == TreeBlocks(Blocks(file)) < TWO_31
    && file.count == Trues(file.sent, |file.sent|) && (file.tree ==> Blocks(file) != 1)
  }

  /** A file of which nothing has been sent. */
  function NewFile(size: nat, tree: bool, priority: seq<nat>): File {
    var blocks := NumBlocks(size);
    File(size, tree, priority, seq(blocks, _ => false), 0, seq(TreeBlocks(blocks), _ => false))
  }

  predicate Untouched(file: File) {
    && Shaped(file) && (forall b :: 0 <= b < |file.sent| ==> !file.sent[b])
    && forall k :: 0 <= k < |file.hashes| ==> !file.hashes[k]
  }

  lemma {:induction false} TruesNone(flags: seq<bool>, n: nat)
    requires n <= |flags| && forall i :: 0 <= i < n ==> !flags[i]
    ensures Trues(flags, n) == 0
  {
    if n > 0 {
      TruesNone(flags, n - 1);
    }
  }

  lemma {:induction false} NewFileIsUntouched(size: nat, tree: bool, priority: seq<nat>)
    requires NumBlocks(size) < TWO_31 && TreeBlocks(NumBlocks(size)) < TWO_31 && (tree ==> NumBlocks(size) != 1)
    ensures Untouched(NewFile(size, tree, priority))
  {
    var file := NewFile(size, tree, priority);
    TruesNone(file.sent, |file.sent|);
  }

  /** The blocks above the leaves are sent from the root on. */
  predicate RootFirst(file: File)
    requires Shaped(file)
  {
    forall k :: 0 <= k < LeafOffset(Blocks(file)) && Marked(file.hashes, k) ==> Marked(file.hashes, 0)
  }

  predicate Whole(file: File)
    requires Shaped(file)
  {
    (exists k :: 0 <= k < |file.hashes| && file.hashes[k]) ==>
    forall k :: 0 <= k < LeafOffset(Blocks(file)) ==> Marked(file.hashes, k)
  }

  predicate IsSent(l: Ledger, k: Key) {
    match k
    case DataKey(f, b) => f < |l.files| && Marked(l.files[f].sent, b)
    case HashKey(f, i) => f < |l.files| && Marked(l.files[f].hashes, i)
    case DoneKey => l.done
  }

  /** The flags and the log agree: every key was sent once or not at all. */
  ghost predicate Logged(l: Ledger) {
    forall k :: Count(l.log, k) == Flag(IsSent(l, k))
  }

  predicate Untorn(l: Ledger, f: nat) {
    f !in l.torn
  }

  ghost predicate FileOk(l: Ledger, f: nat)
    requires f < |l.files| == |l.sizes|
  {
    var file := l.files[f];
    && file.size == l.sizes[f] && Shaped(file) && RootFirst(file)
    && (file.tree && f !in l.torn ==> Whole(file))
    && (file.tree ==> HashesFirst(l.log, f, Blocks(file), Untorn(l, f)))
  }

  /** The counts of the first `n` files together. */
  function Counts(files: seq<File>, n: nat): nat
    requires n <= |files|
  {
    if n == 0 then 0 else Counts(files, n - 1) + files[n - 1].count
  }

  lemma {:induction false} CountsUpdate(files: seq<File>, f: nat, file: File, n: nat)
    requires f < |files| && n <= |files|
    ensures Counts(files[f := file], n) == Counts(files, n) + if f < n then file.count - files[f].count else 0
  {
    if n > 0 {
      CountsUpdate(files, f, file, n - 1);
    }
  }

  /** The blocks of the first `n` files together. */
  function AllBlocks(files: seq<File>, n: nat): nat
    requires n <= |files|
  {
    if n == 0 then 0 else AllBlocks(files, n - 1) + Blocks(files[n - 1])
  }

  lemma {:induction false} CountsBounded(files: seq<File>, n: nat)
    requires n <= |files| && forall f :: 0 <= f < |files| ==> Shaped(files[f])
    ensures Counts(files, n) <= AllBlocks(files, n)
  {
    if n > 0 {
      CountsBounded(files, n - 1);
    }
  }

  lemma {:induction false} CountsNone(files: seq<File>, n: nat)
    requires n <= |files| && forall f :: 0 <= f < |files| ==> Untouched(files[f])
    ensures Counts(files, n) == 0
  {
    if n > 0 {
      CountsNone(files, n - 1);
      TruesNone(files[n - 1].sent, |files[n - 1].sent|);
    }
  }

  /** As many data frames were sent as the counts tell. */
  ghost predicate Tallied(l: Ledger) {
    DataFrames(l.log) == Counts(l.files, |l.files|)
  }

  ghost predicate Sound(l: Ledger) {
    && |l.files| == |l.sizes| < 0x8000
    && (forall f :: 0 <= f < |l.files| ==> FileOk(l, f))
    && Logged(l) && DoneLast(l.log, l.sizes) && Tallied(l)
  }

  /** No more data frames are ever sent than there are blocks. */
  lemma {:induction false} DataFramesBounded(l: SoundLedger)
    ensures DataFrames(l.log) <= AllBlocks(l.files, |l.files|)
  {
    forall f | 0 <= f < |l.files|
      ensures Shaped(l.files[f])
    {
      assert FileOk(l, f);
    }
    CountsBounded(l.files, |l.files|);
  }

  lemma {:induction false} UntouchedIsSound(files: seq<File>, sizes: seq<nat>)
    requires |files| == |sizes| < 0x8000
    requires forall f :: 0 <= f < |files| ==> Untouched(files[f]) && files[f].size == sizes[f]
    ensures Sound(Ledger(files, sizes, [], false, {}))
  {
    CountsNone(files, |files|);
  }

  // ---- Recording a frame

  lemma {:induction false} LoggedPush(l: Ledger, l': Ledger, x: WireFrame)
    requires Logged(l) && l'.log == l.log + [x] && !IsSent(l, KeyOf(x))
    requires forall k :: IsSent(l', k) <==> IsSent(l, k) || k == KeyOf(x)
    ensures Logged(l')
  {
    CountPush(l.log, x);
  }

  lemma {:induction false} TalliedPush(l: Ledger, l': Ledger, x: WireFrame)
    requires Tallied(l) && !x.Done? && x.file < |l.files| && l'.log == l.log + [x]
    requires |l'.files| == |l.files| && l'.files == l.files[x.file := l'.files[x.file]]
    requires l'.files[x.file].count == l.files[x.file].count + Flag(x.Data?)
    ensures Tallied(l')
  {
    DataFramesPush(l.log, x);
    CountsUpdate(l.files, x.file, l'.files[x.file], |l.files|);
  }

  lemma {:induction false} HashesFirstPush(log: seq<WireFrame>, x: WireFrame, f: nat, blocks: nat, all: bool)
    requires HashesFirst(log, f, blocks, all)
    requires x.Data? && x.file == f ==> forall k: nat :: Asks(all, blocks, x.index, k) ==> Count(log, HashKey(f, k)) == 1
    ensures HashesFirst(log + [x], f, blocks, all)
  {
    assert (log + [x])[..|log|] == log;
  }

  lemma {:induction false} DoneLastPush(log: seq<WireFrame>, x: WireFrame, sizes: seq<nat>)
    requires DoneLast(log, sizes)
    requires x.Done? ==>
      forall f: nat, b: nat :: f < |sizes| && b < NumBlocks(sizes[f]) ==> Count(log, DataKey(f, b)) == 1
    ensures DoneLast(log + [x], sizes)
  {
    assert (log + [x])[..|log|] == log;
  }

  ghost function WithHash(l: Ledger, x: WireFrame): Ledger
    requires x.Hash? && x.file < |l.files| && x.index < |l.files[x.file].hashes|
  {
    var file := l.files[x.file];
    l.(files := l.files[x.file := file.(hashes := file.hashes[x.index := true])], log := l.log + [x])
  }

  lemma {:induction false} HashKeepsOthers(l: Ledger, x: WireFrame, g: nat)
    requires x.Hash? && x.file < |l.files| == |l.sizes| && x.index < |l.files[x.file].hashes|
    requires g < |l.files| && g != x.file && FileOk(l, g)
    ensures FileOk(WithHash(l, x), g)
  {
    var file := l.files[g];
    if file.tree {
      HashesFirstPush(l.log, x, g, Blocks(file), Untorn(l, g));
    }
  }

  /** The hash block is the root or a leaf, or the root has been sent. */
  predicate AfterRoot(file: File, k: nat) {
    k == 0 || LeafOffset(Blocks(file)) <= k || Marked(file.hashes, 0)
  }

  lemma {:induction false} HashKeepsOwn(l: Ledger, x: WireFrame)
    requires x.Hash? && x.file < |l.files| == |l.sizes| && x.file in l.torn && FileOk(l, x.file)
    requires x.index < |l.files[x.file].hashes| && AfterRoot(l.files[x.file], x.index)
    ensures FileOk(WithHash(l, x), x.file)
  {
    var file := l.files[x.file];
    var file' := file.(hashes := file.hashes[x.index := true]);
    assert WithHash(l, x).files[x.file] == file';
    if file.tree {
      HashesFirstPush(l.log, x, x.file, Blocks(file), false);
    }
    forall i | 0 <= i < LeafOffset(Blocks(file)) && Marked(file'.hashes, i)
      ensures Marked(file'.hashes, 0)
    {
      assert i == x.index || Marked(file.hashes, i);
    }
  }

  /** The frame is a hash block of the ledger that has not been sent. */
  predicate NewHash(l: Ledger, x: WireFrame) {
    && x.Hash? && x.file < |l.files| && x.file in l.torn
    && x.index < |l.files[x.file].hashes| && !l.files[x.file].hashes[x.index] && AfterRoot(l.files[x.file], x.index)
  }

  /** A hash block is recorded, while its file counts as torn. */
  lemma {:induction false} HashKeepsSound(l: Ledger, x: WireFrame)
    requires Sound(l) && NewHash(l, x)
    ensures Sound(WithHash(l, x))
  {
    var l' := WithHash(l, x);
    LoggedPush(l, l', x);
    DoneLastPush(l.log, x, l.sizes);
    TalliedPush(l, l', x);
    forall g | 0 <= g < |l'.files|
      ensures FileOk(l', g)
    {
      if g != x.file {
        HashKeepsOthers(l, x, g);
      } else {
        HashKeepsOwn(l, x);
      }
    }
  }

  ghost function WithData(l: Ledger, x: WireFrame): Ledger
    requires x.Data? && x.file < |l.files| && x.index < |l.files[x.file].sent|
  {
    var file := l.files[x.file];
    l.(files := l.files[x.file := file.(sent := file.sent[x.index := true], count := file.count + 1)],
       log := l.log + [x])
  }

  /** All hash blocks a data block needs have been sent. */
  ghost predicate Covered(file: File, block: nat) {
    forall k: nat :: Needed(Blocks(file), block, k) ==> Marked(file.hashes, k)
  }

  /** A block may be sent once its leaf was, and in a file that is not torn once everything
      it needs was. */
  ghost predicate MaySend(file: File, block: nat, torn: bool) {
    file.tree ==> Marked(file.hashes, Leaf(Blocks(file), block)) && (!torn ==> Covered(file, block))
  }

  lemma {:induction false} DataKeepsFile(l: Ledger, x: WireFrame, g: nat)
    requires |l.files| == |l.sizes| && Logged(l)
    requires x.Data? && x.file < |l.files| && x.index < |l.files[x.file].sent| && !l.files[x.file].sent[x.index]
    requires MaySend(l.files[x.file], x.index, x.file in l.torn)
    requires g < |l.files| && FileOk(l, g)
    ensures FileOk(WithData(l, x), g)
  {
    var file := l.files[g];
    if g == x.file {
      TruesSet(file.sent, x.index, |file.sent|);
    }
    if file.tree {
      forall k: nat | x.file == g && Asks(Untorn(l, g), Blocks(file), x.index, k)
        ensures Count(l.log, HashKey(g, k)) == 1
      {
        assert Needed(Blocks(file), x.index, k);
        assert IsSent(l, HashKey(g, k));
      }
      HashesFirstPush(l.log, x, g, Blocks(file), Untorn(l, g));
    }
  }

  /** A data block is recorded, after the hash blocks it needs. */
  lemma {:induction false} DataKeepsSound(l: Ledger, x: WireFrame)
    requires Sound(l) && x.Data? && x.file < |l.files| && x.index < |l.files[x.file].sent|
    requires !l.files[x.file].sent[x.index] && MaySend(l.files[x.file], x.index, x.file in l.torn)
    ensures Sound(WithData(l, x))
  {
    var l' := WithData(l, x);
    LoggedPush(l, l', x);
    DoneLastPush(l.log, x, l.sizes);
    TalliedPush(l, l', x);
    forall g | 0 <= g < |l'.files|
      ensures FileOk(l', g)
    {
      DataKeepsFile(l, x, g);
    }
  }

  ghost function WithDone(l: Ledger): Ledger {
    l.(done := true, log := l.log + [Done])
  }

  /** Every file is loaded, as its count tells. */
  predicate AllLoaded(files: seq<File>) {
    forall f :: 0 <= f < |files| ==> files[f].count == |files[f].sent|
  }

  lemma {:induction false} LoadedIsSent(l: Ledger, f: nat, b: nat)
    requires Sound(l) && AllLoaded(l.files) && f < |l.sizes| && b < NumBlocks(l.sizes[f])
    ensures Count(l.log, DataKey(f, b)) == 1
  {
    assert FileOk(l, f);
    TruesAll(l.files[f].sent, |l.files[f].sent|);
    assert IsSent(l, DataKey(f, b));
  }

  /** The end is recorded, once and after every block of every file. */
  lemma {:induction false} DoneKeepsSound(l: Ledger)
    requires Sound(l) && AllLoaded(l.files) && !l.done
    ensures Sound(WithDone(l))
  {
    var l' := WithDone(l);
    LoggedPush(l, l', Done);
    forall f: nat, b: nat | f < |l.sizes| && b < NumBlocks(l.sizes[f])
      ensures Count(l.log, DataKey(f, b)) == 1
    {
      LoadedIsSent(l, f, b);
    }
    DoneLastPush(l.log, Done, l.sizes);
    DataFramesPush(l.log, Done);
    forall g | 0 <= g < |l'.files|
      ensures FileOk(l', g)
    {
      assert FileOk(l, g);
      if l.files[g].tree {
        HashesFirstPush(l.log, Done, g, Blocks(l.files[g]), Untorn(l, g));
      }
    }
  }

  // ---- Sound ledgers

  /** From one log to the other, only hash blocks were sent. */
  predicate OnlyHashes(log: seq<WireFrame>, log': seq<WireFrame>) {
    log <= log' && forall i :: |log| <= i < |log'| ==> log'[i].Hash?
  }

  lemma {:induction false} OnlyHashesKeeps(log: seq<WireFrame>, log': seq<WireFrame>, f: nat, blocks: nat)
    requires OnlyHashes(log, log')
    ensures DataFrames(log') == DataFrames(log)
    ensures HashesFirst(log, f, blocks, true) ==> HashesFirst(log', f, blocks, true)
    decreases |log'|
  {
    var n := |log'| - 1;
    if log' != log {
      assert log <= log'[..n];
      OnlyHashesKeeps(log, log'[..n], f, blocks);
    }
  }

  /** All blocks above the leaves have been sent. */
  predicate AllUpper(file: File) {
    forall k :: 0 <= k < LeafOffset(Blocks(file)) ==> Marked(file.hashes, k)
  }

  type SoundLedger = l: Ledger | Sound(l) ghost witness Ledger([], [], [], false, {})

  lemma {:induction false} FileFacts(l: SoundLedger, f: nat)
    requires f < |l.files|
    ensures f < 0x8000 && f < |l.sizes| && l.files[f].size == l.sizes[f] && Shaped(l.files[f]) && RootFirst(l.files[f])
    ensures l.files[f].tree && f !in l.torn ==> Whole(l.files[f])
  {
    assert FileOk(l, f);
  }

  lemma {:induction false} LedgerLength(l: SoundLedger)
    ensures |l.files| == |l.sizes|
  {
  }

  ghost function NewLedger(files: seq<File>): (l: SoundLedger)
    requires |files| < 0x8000 && forall f :: 0 <= f < |files| ==> Untouched(files[f])
    ensures l.files == files && l.log == [] && !l.done && l.torn == {}
  {
    var sizes := seq(|files|, f requires 0 <= f < |files| => files[f].size);
    UntouchedIsSound(files, sizes);
    Ledger(files, sizes, [], false, {})
  }

  ghost function AddHash(l: SoundLedger, x: WireFrame): (r: SoundLedger)
    requires NewHash(l, x)
    ensures r == WithHash(l, x)
  {
    HashKeepsSound(l, x);
    WithHash(l, x)
  }

  ghost function AddData(l: SoundLedger, x: WireFrame): (r: SoundLedger)
    requires x.Data? && x.file < |l.files| && x.index < |l.files[x.file].sent|
    requires !l.files[x.file].sent[x.index] && MaySend(l.files[x.file], x.index, x.file in l.torn)
    ensures r == WithData(l, x)
  {
    DataKeepsSound(l, x);
    WithData(l, x)
  }

  ghost function AddDone(l: SoundLedger): (r: SoundLedger)
    requires AllLoaded(l.files) && !l.done
    ensures r == WithDone(l)
  {
    DoneKeepsSound(l);
    WithDone(l)
  }

  /** While its hash blocks are being sent, a file counts as torn. */
  ghost function Tear(l: SoundLedger, f: nat): (r: SoundLedger)
    ensures r == l.(torn := l.torn + {f})
  {
    TearKeepsSound(l, f);
    l.(torn := l.torn + {f})
  }

  lemma {:induction false} TearKeepsSound(l: Ledger, f: nat)
    requires Sound(l)
    ensures Sound(l.(torn := l.torn + {f}))
  {
    var r := l.(torn := l.torn + {f});
    forall g | 0 <= g < |l.files|
      ensures FileOk(r, g)
    {
      assert FileOk(l, g);
      if l.files[g].tree {
        LeavesFirst(l.log, g, Blocks(l.files[g]), Untorn(l, g));
      }
    }
  }

  /** It is whole again when nothing above the leaves is missing, unless it was torn before. */
  ghost function Mend(l: SoundLedger, was: SoundLedger, f: nat): (r: SoundLedger)
    requires f < |l.files| && OnlyHashes(was.log, l.log) && |was.files| == |l.files| && was.sizes == l.sizes
    requires l.torn == was.torn + {f} && (f in was.torn || AllUpper(l.files[f]))
    requires l.files[f].tree == was.files[f].tree
    ensures r == l.(torn := was.torn)
  {
    var r := l.(torn := was.torn);
    if f in was.torn then l else
      OnlyHashesKeeps(was.log, l.log, f, Blocks(l.files[f]));
      assert FileOk(l, f) && FileOk(was, f);
      assert FileOk(r, f);
      assert forall g :: 0 <= g < |l.files| && FileOk(l, g) ==> FileOk(r, g);
      r
  }

  // ---- What soundness means for the log

  lemma {:induction false} CountTwice(log: seq<WireFrame>, i: nat, j: nat)
    requires i < j < |log| && KeyOf(log[i]) == KeyOf(log[j])
    ensures Count(log, KeyOf(log[j])) >= 2
  {
    var n := |log| - 1;
    if j < n {
      CountTwice(log[..n], i, j);
    } else {
      CountOnce(log[..n], i);
    }
  }

  lemma {:induction false} CountOnce(log: seq<WireFrame>, i: nat)
    requires i < |log|
    ensures Count(log, KeyOf(log[i])) >= 1
  {
    var n := |log| - 1;
    if i < n {
      CountOnce(log[..n], i);
    }
  }

  lemma {:induction false} CountedIsThere(log: seq<WireFrame>, k: Key) returns (i: nat)
    requires Count(log, k) > 0
    ensures i < |log| && KeyOf(log[i]) == k
  {
    var n := |log| - 1;
    if KeyOf(log[n]) == k {
      i := n;
    } else {
      i := CountedIsThere(log[..n], k);
    }
  }

  /** No block, no hash block and no end is ever sent twice. */
  lemma {:induction false} AtMostOnce(l: Ledger, i: nat, j: nat)
    requires Sound(l) && i < j < |l.log|
    ensures KeyOf(l.log[i]) != KeyOf(l.log[j])
  {
    assert Count(l.log, KeyOf(l.log[j])) <= 1;
    if KeyOf(l.log[i]) == KeyOf(l.log[j]) {
      CountTwice(l.log, i, j);
    }
  }

  lemma {:induction false} HashesFirstAt(log: seq<WireFrame>, f: nat, blocks: nat, all: bool, i: nat, k: nat)
    requires HashesFirst(log, f, blocks, all) && i < |log| && log[i].Data? && log[i].file == f
    requires Asks(all, blocks, log[i].index, k)
    ensures Count(log[..i], HashKey(f, k)) == 1
  {
    var n := |log| - 1;
    if i < n {
      HashesFirstAt(log[..n], f, blocks, all, i, k);
      assert log[..n][..i] == log[..i];
    }
  }

  /** Every data block of a file with a tree is sent after its leaf and after all hash blocks
      above the leaves. */
  lemma {:induction false} HashBeforeData(l: Ledger, i: nat, k: nat) returns (j: nat)
    requires Sound(l) && i < |l.log| && l.log[i].Data?
    requires l.log[i].file < |l.files| && l.files[l.log[i].file].tree && l.log[i].file !in l.torn
    requires Needed(Blocks(l.files[l.log[i].file]), l.log[i].index, k)
    ensures j < i && KeyOf(l.log[j]) == HashKey(l.log[i].file, k)
  {
    var f := l.log[i].file;
    assert FileOk(l, f);
    HashesFirstAt(l.log, f, Blocks(l.files[f]), true, i, k);
    j := CountedIsThere(l.log[..i], HashKey(f, k));
  }

  /** In any case it is sent after its leaf. */
  lemma {:induction false} LeafBeforeData(l: Ledger, i: nat) returns (j: nat)
    requires Sound(l) && i < |l.log| && l.log[i].Data? && l.log[i].file < |l.files| && l.files[l.log[i].file].tree
    ensures var leaf := Leaf(Blocks(l.files[l.log[i].file]), l.log[i].index);
      0 <= leaf && j < i && KeyOf(l.log[j]) == HashKey(l.log[i].file, leaf)
  {
    var f := l.log[i].file;
    var leaf := Leaf(Blocks(l.files[f]), l.log[i].index);
    CountOnce(l.log, i);
    assert IsSent(l, DataKey(f, l.log[i].index)) && FileOk(l, f);
    LeafInRange(Blocks(l.files[f]), l.log[i].index);
    HashesFirstAt(l.log, f, Blocks(l.files[f]), Untorn(l, f), i, leaf);
    j := CountedIsThere(l.log[..i], HashKey(f, leaf));
  }

  /** So the receiver has the hash block of every level above a data block before it. */
  lemma {:induction false} PathBeforeData(l: Ledger, i: nat, level: nat) returns (j: nat)
    requires Sound(l) && i < |l.log| && l.log[i].Data?
    requires l.log[i].file < |l.files| && l.files[l.log[i].file].tree && l.log[i].file !in l.torn
    requires HasLevel(Blocks(l.files[l.log[i].file]), level)
    ensures j < i
    ensures KeyOf(l.log[j]) ==
      HashKey(l.log[i].file, Node(Blocks(l.files[l.log[i].file]), l.log[i].index, level))
  {
    var f, b := l.log[i].file, l.log[i].index;
    CountOnce(l.log, i);
    assert IsSent(l, DataKey(f, b)) && FileOk(l, f);
    PathInTree(Blocks(l.files[f]), b, level);
    j := HashBeforeData(l, i, Node(Blocks(l.files[f]), b, level));
  }

  lemma {:induction false} DoneLastAt(log: seq<WireFrame>, sizes: seq<nat>, i: nat, f: nat, b: nat)
    requires DoneLast(log, sizes) && i < |log| && log[i].Done? && f < |sizes| && b < NumBlocks(sizes[f])
    ensures Count(log[..i], DataKey(f, b)) == 1
  {
    var n := |log| - 1;
    if i < n {
      DoneLastAt(log[..n], sizes, i, f, b);
      assert log[..n][..i] == log[..i];
    }
  }

  /** The end is sent after every block of every file. */
  lemma {:induction false} DoneAfterAll(l: Ledger, i: nat, f: nat, b: nat) returns (j: nat)
    requires Sound(l) && i < |l.log| && l.log[i].Done? && f < |l.sizes| && b < NumBlocks(l.sizes[f])
    ensures j < i && KeyOf(l.log[j]) == DataKey(f, b)
  {
    DoneLastAt(l.log, l.sizes, i, f, b);
    j := CountedIsThere(l.log[..i], DataKey(f, b));
  }
}
