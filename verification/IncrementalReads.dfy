/** The reads of the incremental server: what the files answer, which reads failed, and what
    that did. */
module IncrementalReads {
  import opened Common
  import opened Verity
  import opened IncrementalFrames
  import opened IncrementalLedgers

  /** A compressed block is only sent if it is smaller. */
  const COMPRESSED_SIZE_MAX := 3891

  /** The files on disk and the compressor. `read` is what the read of a block or of a hash
      block gives when it is the `n`th of all reads: it may fail, and it may change. `compress`
      is what the compressor makes of a block: nothing if it fails, or if the block is part of
      a compressed file and is left alone. */
  datatype Storage = Storage(read: (Key, nat) -> Option<seq<byte>>, compress: (Key, seq<byte>) -> seq<byte>) {

    /** A read gives at most a block. */
    function Answer(k: Key, n: nat): (r: Option<seq<byte>>)
      ensures r.Some? ==> |r.value| <= MAX_BLOCK
    {
      match read(k, n)
      case None => None
      case Some(bytes) => Some(bytes[..Min(|bytes|, MAX_BLOCK)])
    }

    predicate GoodRead(k: Key, n: nat) {
      Answer(k, n).Some? && Answer(k, n).value != []
    }

    /** What the server takes for a failed read: nothing for a hash block, an error for data. */
    predicate Bad(k: Key, n: nat) {
      if k.HashKey? then !GoodRead(k, n) else Answer(k, n).None?
    }

    /** What the receiver should find in the frame: the block, compressed if and only if that
        succeeds and is small enough. */
    predicate Packs(x: Frame, raw: seq<byte>) {
      && x.Data? && (x.compressed <==> 0 < |compress(DataKey(x.file, x.index), raw)| < COMPRESSED_SIZE_MAX)
      && x.bytes == if x.compressed then compress(DataKey(x.file, x.index), raw) else raw
    }

    /** The frame carries what the `n`th read gave, if that was one of its own place. */
    predicate Carries(x: Frame, n: nat) {
      match x
      case Hash(f, k, bytes) => Answer(HashKey(f, k), n) == Some(bytes)
      case Data(f, b, _, _) => Answer(DataKey(f, b), n).Some? && Packs(x, Answer(DataKey(f, b), n).value)
      case Done => true
    }
  }

  // ---- Reads that failed

  /** All reads of a run in their order, the files some of whose blocks above the leaves could
      not be read, the blocks that could not be sent when it was tried, and the flags of the
      hash blocks. */
  datatype Record = Record(storage: Storage, sizes: seq<nat>, keys: seq<Key>, torn: set<nat>, failed: set<(nat, nat)>,
                           hashes: seq<seq<bool>>)

  /** A hash block above the leaves. */
  predicate IsUpper(sizes: seq<nat>, k: Key) {
    k.HashKey? && k.file < |sizes| && k.index < LeafOffset(NumBlocks(sizes[k.file]))
  }

  /** The `n`th read was one of file `f`, and failed. */
  predicate FileMiss(storage: Storage, keys: seq<Key>, f: nat, n: nat) {
    n < |keys| && !keys[n].DoneKey? && keys[n].file == f && storage.Bad(keys[n], n)
  }

  /** Block `b` of file `f` is not sent without these: its own data, and the hash blocks it
      needs. */
  predicate ForBlock(sizes: seq<nat>, k: Key, f: nat, b: nat) {
    k == DataKey(f, b) || (f < |sizes| && k.HashKey? && k.file == f && Needed(NumBlocks(sizes[f]), b, k.index))
  }

  /** The `n`th read was one of these, and failed. */
  predicate BlockMiss(storage: Storage, sizes: seq<nat>, keys: seq<Key>, f: nat, b: nat, n: nat) {
    n < |keys| && ForBlock(sizes, keys[n], f, b) && storage.Bad(keys[n], n)
  }

  predicate UpperMiss(storage: Storage, sizes: seq<nat>, keys: seq<Key>, f: nat, n: nat) {
    FileMiss(storage, keys, f, n) && IsUpper(sizes, keys[n])
  }

  /** Some block of `f` above the leaves could not be read. */
  ghost predicate UpperMissing(storage: Storage, sizes: seq<nat>, keys: seq<Key>, f: nat) {
    exists n: nat :: UpperMiss(storage, sizes, keys, f, n)
  }

  /** The root was read. */
  ghost predicate RootRead(storage: Storage, keys: seq<Key>, f: nat) {
    exists n: nat :: n < |keys| && keys[n] == HashKey(f, 0) && !storage.Bad(keys[n], n)
  }

  /** Another block above the leaves could not be read. */
  ghost predicate AboveMissing(storage: Storage, sizes: seq<nat>, keys: seq<Key>, f: nat) {
    exists n: nat :: UpperMiss(storage, sizes, keys, f, n) && keys[n].index > 0
  }

  /** Everything above the leaves of `f` has been read, as far as the root and the failures
      tell. */
  ghost predicate UppersRead(storage: Storage, sizes: seq<nat>, keys: seq<Key>, f: nat)
    requires f < |sizes|
  {
    LeafOffset(NumBlocks(sizes[f])) <= 0 || (RootRead(storage, keys, f) && !AboveMissing(storage, sizes, keys, f))
  }

  predicate AllMarked(flags: seq<bool>, n: int) {
    forall k :: 0 <= k < n ==> Marked(flags, k)
  }

  /** The flags of the hash blocks above the leaves tell the same. */
  ghost predicate UpperOk(storage: Storage, sizes: seq<nat>, keys: seq<Key>, f: nat, flags: seq<bool>)
    requires f < |sizes|
  {
    var n := LeafOffset(NumBlocks(sizes[f]));
    0 < n ==>
      && (Marked(flags, 0) <==> RootRead(storage, keys, f))
      && (AllMarked(flags, n) <==> UppersRead(storage, sizes, keys, f))
      && (AboveMissing(storage, sizes, keys, f) ==> RootRead(storage, keys, f))
  }

  /** A file is torn exactly if one of its blocks above the leaves could not be read, a block
      can only have failed if a read it needs did, and everything above the leaves of a
      file was sent exactly if the root was read and no other of these blocks failed. */
  ghost predicate Accounted(r: Record) {
    && (forall f: nat :: f in r.torn <==> UpperMissing(r.storage, r.sizes, r.keys, f))
    && (forall f: nat, b: nat :: (f, b) in r.failed ==> exists n: nat :: BlockMiss(r.storage, r.sizes, r.keys, f, b, n))
    && |r.hashes| == |r.sizes|
    && (forall f: nat :: f < |r.sizes| ==> UpperOk(r.storage, r.sizes, r.keys, f, r.hashes[f]))
  }

  type Account = r: Record | Accounted(r)
    ghost witness Record(Storage((k, n) => None, (k, s) => s), [], [], {}, {}, [])

  ghost function NewAccount(storage: Storage, sizes: seq<nat>, hashes: seq<seq<bool>>): (r: Account)
    requires |hashes| == |sizes| && forall f :: 0 <= f < |hashes| ==> forall k :: 0 <= k < |hashes[f]| ==> !hashes[f][k]
    ensures r == Record(storage, sizes, [], {}, {}, hashes)
  {
    assert forall f: nat :: f < |sizes| ==> !Marked(hashes[f], 0);
    Record(storage, sizes, [], {}, {}, hashes)
  }

  /** Reads that are of no block above the leaves of `f`, and flags that are the same there. */
  lemma {:induction false} UpperOkStays(storage: Storage, sizes: seq<nat>, keys: seq<Key>, more: seq<Key>, f: nat, h: seq<bool>, h': seq<bool>)
    requires f < |sizes| && UpperOk(storage, sizes, keys, f, h)
    requires forall i: nat :: i < |more| && IsUpper(sizes, more[i]) ==> more[i].file != f
    requires forall k :: 0 <= k < LeafOffset(NumBlocks(sizes[f])) ==> Marked(h', k) == Marked(h, k)
    ensures UpperOk(storage, sizes, keys + more, f, h')
  {
    var all, n := keys + more, LeafOffset(NumBlocks(sizes[f]));
    if 0 < n {
      if RootRead(storage, keys, f) {
        var i: nat :| i < |keys| && keys[i] == HashKey(f, 0) && !storage.Bad(keys[i], i);
        assert all[i] == keys[i];
      }
      if RootRead(storage, all, f) {
        var i: nat :| i < |all| && all[i] == HashKey(f, 0) && !storage.Bad(all[i], i);
        assert |keys| <= i ==> all[i] == more[i - |keys|];
        assert i < |keys| ==> keys[i] == all[i];
      }
      AboveStays(storage, sizes, keys, more, f);
    }
  }

  lemma {:induction false} AboveStays(storage: Storage, sizes: seq<nat>, keys: seq<Key>, more: seq<Key>, f: nat)
    requires forall i: nat :: i < |more| && IsUpper(sizes, more[i]) ==> more[i].file != f
    ensures AboveMissing(storage, sizes, keys + more, f) <==> AboveMissing(storage, sizes, keys, f)
  {
    var all := keys + more;
    if AboveMissing(storage, sizes, keys, f) {
      var i: nat :| UpperMiss(storage, sizes, keys, f, i) && keys[i].index > 0;
      assert UpperMiss(storage, sizes, all, f, i) && all[i].index > 0;
    }
    if AboveMissing(storage, sizes, all, f) {
      var i: nat :| UpperMiss(storage, sizes, all, f, i) && all[i].index > 0;
      assert UpperMiss(storage, sizes, keys, f, i) && keys[i].index > 0;
    }
  }

  /** More reads: a file misses a block above the leaves if it did, or does among them. */
  lemma {:induction false} MoreReads(storage: Storage, sizes: seq<nat>, keys: seq<Key>, more: seq<Key>, f: nat)
    ensures UpperMissing(storage, sizes, keys, f) ==> UpperMissing(storage, sizes, keys + more, f)
    ensures UpperMissing(storage, sizes, keys + more, f) && !UpperMissing(storage, sizes, keys, f) ==>
      exists i: nat :: i < |more| && IsUpper(sizes, more[i]) && more[i].file == f && storage.Bad(more[i], |keys| + i)
  {
    var all := keys + more;
    if UpperMissing(storage, sizes, keys, f) {
      var n: nat :| UpperMiss(storage, sizes, keys, f, n);
      assert UpperMiss(storage, sizes, all, f, n);
    } else if UpperMissing(storage, sizes, all, f) {
      var n: nat :| UpperMiss(storage, sizes, all, f, n);
      assert n < |keys| ==> UpperMiss(storage, sizes, keys, f, n);
      assert all[n] == more[n - |keys|];
    }
  }

  lemma {:induction false} FailuresStay(r: Account, more: seq<Key>, f: nat, b: nat)
    requires (f, b) in r.failed
    ensures exists n: nat :: BlockMiss(r.storage, r.sizes, r.keys + more, f, b, n)
  {
    var n: nat :| BlockMiss(r.storage, r.sizes, r.keys, f, b, n);
    assert BlockMiss(r.storage, r.sizes, r.keys + more, f, b, n);
  }

  /** The flags tell what the reads did, in every file. */
  ghost predicate AllUpperOk(storage: Storage, sizes: seq<nat>, keys: seq<Key>, hashes: seq<seq<bool>>) {
    |hashes| == |sizes| && forall f: nat :: f < |sizes| ==> UpperOk(storage, sizes, keys, f, hashes[f])
  }

  /** Reads of which none above the leaves failed tear no file. */
  lemma {:induction false} ReadsKeepAccount(r: Account, more: seq<Key>, hashes: seq<seq<bool>>)
    requires forall i: nat :: i < |more| && IsUpper(r.sizes, more[i]) ==> !r.storage.Bad(more[i], |r.keys| + i)
    requires AllUpperOk(r.storage, r.sizes, r.keys + more, hashes)
    ensures Accounted(r.(keys := r.keys + more, hashes := hashes))
  {
    forall f: nat
      ensures UpperMissing(r.storage, r.sizes, r.keys + more, f) <==> UpperMissing(r.storage, r.sizes, r.keys, f)
    {
      MoreReads(r.storage, r.sizes, r.keys, more, f);
    }
    forall f: nat, b: nat | (f, b) in r.failed
      ensures exists n: nat :: BlockMiss(r.storage, r.sizes, r.keys + more, f, b, n)
    {
      FailuresStay(r, more, f, b);
    }
  }

  /** Reads of blocks of `f`, the last of which is above the leaves and failed, tear `f`. */
  lemma {:induction false} TearKeepsAccount(r: Account, more: seq<Key>, f: nat, hashes: seq<seq<bool>>)
    requires more != [] && (forall i: nat :: i < |more| && IsUpper(r.sizes, more[i]) ==> more[i].file == f)
    requires IsUpper(r.sizes, more[|more| - 1]) && r.storage.Bad(more[|more| - 1], |r.keys| + |more| - 1)
    requires AllUpperOk(r.storage, r.sizes, r.keys + more, hashes)
    ensures Accounted(r.(keys := r.keys + more, torn := r.torn + {f}, hashes := hashes))
  {
    assert UpperMiss(r.storage, r.sizes, r.keys + more, f, |r.keys| + |more| - 1);
    forall g: nat
      ensures UpperMissing(r.storage, r.sizes, r.keys + more, g) <==> g in r.torn + {f}
    {
      MoreReads(r.storage, r.sizes, r.keys, more, g);
    }
    forall g: nat, b: nat | (g, b) in r.failed
      ensures exists n: nat :: BlockMiss(r.storage, r.sizes, r.keys + more, g, b, n)
    {
      FailuresStay(r, more, g, b);
    }
  }

  /** A read of a data block. */
  ghost function AfterDataRead(r: Account, f: nat, b: nat): (r': Account)
    ensures r' == r.(keys := r.keys + [DataKey(f, b)])
  {
    DataReadKeepsUppers(r, f, b);
    ReadsKeepAccount(r, [DataKey(f, b)], r.hashes);
    r.(keys := r.keys + [DataKey(f, b)])
  }

  lemma {:induction false} DataReadKeepsUppers(r: Account, f: nat, b: nat)
    ensures AllUpperOk(r.storage, r.sizes, r.keys + [DataKey(f, b)], r.hashes)
  {
    forall g: nat | g < |r.sizes|
      ensures UpperOk(r.storage, r.sizes, r.keys + [DataKey(f, b)], g, r.hashes[g])
    {
      UpperOkStays(r.storage, r.sizes, r.keys, [DataKey(f, b)], g, r.hashes[g], r.hashes[g]);
    }
  }

  ghost function AfterFailure(r: Account, f: nat, b: nat): (r': Account)
    requires r.keys != [] && BlockMiss(r.storage, r.sizes, r.keys, f, b, |r.keys| - 1)
    ensures r' == r.(failed := r.failed + {(f, b)})
  {
    r.(failed := r.failed + {(f, b)})
  }

  /** From one list of reads to the other, the plan was read up to the first failure, and it
      was a success exactly if there was none. */
  ghost predicate Follows(storage: Storage, was: seq<Key>, plan: seq<Key>, now: seq<Key>, ok: bool) {
    var m := |now| - |was|;
    && 0 <= m <= |plan| && now == was + plan[..m]
    && (forall i :: |was| <= i < |now| - 1 ==> !storage.Bad(now[i], i))
    && (ok ==> m == |plan| && (0 < m ==> !storage.Bad(now[|now| - 1], |now| - 1)))
    && (!ok ==> 0 < m && storage.Bad(now[|now| - 1], |now| - 1))
  }

  lemma {:induction false} FollowsThen(storage: Storage, was: seq<Key>, a: seq<Key>, middle: seq<Key>, b: seq<Key>, now: seq<Key>, ok: bool)
    requires Follows(storage, was, a, middle, true) && Follows(storage, middle, b, now, ok)
    ensures Follows(storage, was, a + b, now, ok)
  {
    var m := |now| - |was|;
    assert a[..|a|] == a && (a + b)[..m] == a + b[..m - |a|];
    assert now == was + a + b[..m - |a|] == was + (a + b[..m - |a|]);
  }

  lemma {:induction false} FollowsShort(storage: Storage, was: seq<Key>, a: seq<Key>, now: seq<Key>, b: seq<Key>)
    requires Follows(storage, was, a, now, false)
    ensures Follows(storage, was, a + b, now, false)
  {
    var m := |now| - |was|;
    assert (a + b)[..m] == a[..m];
  }

  lemma {:induction false} FollowsOne(storage: Storage, was: seq<Key>, k: Key)
    ensures Follows(storage, was, [k], was + [k], !storage.Bad(k, |was|))
  {
    assert [k][..1] == [k];
  }

  lemma {:induction false} FollowsNone(storage: Storage, was: seq<Key>)
    ensures Follows(storage, was, [], was, true)
  {
    assert was + [] == was;
  }

  /** The reads of a plan of hash blocks of one file, the last of them having failed if the
      plan did. */
  lemma {:induction false} PlannedReads(storage: Storage, was: seq<Key>, plan: seq<Key>, now: seq<Key>, ok: bool, f: nat, more: seq<Key>)
    requires Follows(storage, was, plan, now, ok) && (forall k :: k in plan ==> k.HashKey? && k.file == f)
    requires |was| <= |now| && more == now[|was|..]
    ensures now == was + more && (forall i: nat :: i < |more| ==> more[i].HashKey? && more[i].file == f)
    ensures forall i: nat :: i < |more| - 1 ==> !storage.Bad(more[i], |was| + i)
    ensures ok && more != [] ==> !storage.Bad(more[|more| - 1], |now| - 1)
    ensures !ok ==> more != [] && more[|more| - 1] == now[|now| - 1] && storage.Bad(more[|more| - 1], |now| - 1)
  {
    forall i: nat | i < |more| ensures more[i] == now[|was| + i] && more[i] in plan {
      assert now[|was| + i] == plan[i];
    }
  }

  function UpperKeys(f: nat, n: nat): seq<Key> {
    seq(n, i requires 0 <= i < n => HashKey(f, i))
  }

  /** The next read of the blocks above the leaves. */
  lemma {:induction false} UpperNext(storage: Storage, was: seq<Key>, f: nat, i: nat, n: nat, now: seq<Key>, good: bool)
    requires i < n && Follows(storage, was, UpperKeys(f, i), now, true)
    requires good == storage.GoodRead(HashKey(f, i), |now|)
    ensures Follows(storage, was, UpperKeys(f, if good then i + 1 else n), now + [HashKey(f, i)], good)
  {
    var now' := now + [HashKey(f, i)];
    assert UpperKeys(f, n)[..i + 1] == UpperKeys(f, i + 1) == UpperKeys(f, i) + [HashKey(f, i)];
    assert UpperKeys(f, i)[..i] == UpperKeys(f, i) && UpperKeys(f, i + 1)[..i + 1] == UpperKeys(f, i + 1);
  }

  /** The reads for a leaf that has not been sent. */
  function MissingPlan(file: File, f: nat, leaf: nat): seq<Key> {
    var upper := LeafOffset(Blocks(file));
    [HashKey(f, leaf)] + if upper <= 0 || Marked(file.hashes, 0) then [] else UpperKeys(f, upper)
  }

  /** The reads of hash blocks before a data block. */
  function TreePlan(file: File, f: nat, b: nat): seq<Key> {
    var leaf := Leaf(Blocks(file), b);
    if !file.tree || leaf < 0 || Marked(file.hashes, leaf) then [] else MissingPlan(file, f, leaf)
  }

  /** All of these reads are of the one file. */
  lemma {:induction false} MissingPlanIsOfFile(file: File, f: nat, leaf: nat)
    ensures forall k :: k in MissingPlan(file, f, leaf) ==> k.HashKey? && k.file == f
  {
  }

  lemma {:induction false} PlanBreaksOff(storage: Storage, was: seq<Key>, file: File, f: nat, leaf: nat, now: seq<Key>)
    requires Follows(storage, was, [HashKey(f, leaf)], now, false)
    ensures Follows(storage, was, MissingPlan(file, f, leaf), now, false)
  {
    var upper := LeafOffset(Blocks(file));
    FollowsShort(storage, was, [HashKey(f, leaf)], now, if upper <= 0 || Marked(file.hashes, 0) then [] else UpperKeys(f, upper));
  }

  /** A plan that breaks off after the leaf does so above the leaves. */
  lemma {:induction false} LastOfPlan(storage: Storage, was: seq<Key>, sizes: seq<nat>, file: File, f: nat, leaf: nat, now: seq<Key>, ok: bool)
    requires Follows(storage, was, MissingPlan(file, f, leaf), now, ok) && LeafOffset(Blocks(file)) <= leaf
    requires f < |sizes| && sizes[f] == file.size
    ensures !ok ==> (IsUpper(sizes, now[|now| - 1]) <==> |now| > |was| + 1)
  {
    var plan, m := MissingPlan(file, f, leaf), |now| - |was|;
    if !ok {
      assert now[|now| - 1] == plan[m - 1];
    }
  }

  lemma {:induction false} FailureIsOfBlock(storage: Storage, sizes: seq<nat>, was: seq<Key>, file: File, f: nat, b: nat, now: seq<Key>)
    requires Follows(storage, was, TreePlan(file, f, b) + [DataKey(f, b)], now, false)
    requires f < |sizes| && sizes[f] == file.size
    ensures now != [] && BlockMiss(storage, sizes, now, f, b, |now| - 1)
  {
    var plan, m := TreePlan(file, f, b) + [DataKey(f, b)], |now| - |was|;
    assert now[|now| - 1] == plan[m - 1];
  }

  // ---- What a plan does to the flags

  /** The plan goes on above the leaves. */
  predicate Upward(file: File) {
    0 < LeafOffset(Blocks(file)) && !Marked(file.hashes, 0)
  }

  /** How `m` reads of the plan for a leaf change the flags above the leaves: all are set
      exactly if it succeeds, and the root exactly if it gets past it. */
  ghost predicate PlanMarks(file: File, flags: seq<bool>, m: int, ok: bool) {
    var n := LeafOffset(Blocks(file));
    if Upward(file) then (Marked(flags, 0) <==> m > 2 || ok) && (AllMarked(flags, n) <==> ok)
    else forall k :: 0 <= k < n ==> Marked(flags, k) == Marked(file.hashes, k)
  }

  /** The reads of the plan that are above the leaves are the root and then the others. */
  lemma {:induction false} UpwardReads(storage: Storage, was: seq<Key>, file: File, f: nat, leaf: nat, now: seq<Key>, ok: bool)
    requires Follows(storage, was, MissingPlan(file, f, leaf), now, ok) && Upward(file)
    ensures |now| > |was| && now[|was|] == HashKey(f, leaf) && was == now[..|was|]
    ensures forall i :: |was| < i < |now| ==> now[i] == HashKey(f, i - |was| - 1) && i - |was| - 1 < LeafOffset(Blocks(file))
    ensures forall i :: |was| <= i < |now| ==> (storage.Bad(now[i], i) <==> !ok && i == |now| - 1)
    ensures ok ==> |now| == |was| + 1 + LeafOffset(Blocks(file))
  {
    var plan, m := MissingPlan(file, f, leaf), |now| - |was|;
    assert plan[..m] == now[|was|..];
    forall i | |was| <= i < |now| ensures now[i] == plan[i - |was|] {
      assert now[i] == plan[..m][i - |was|];
    }
  }

  /** Above the leaves of its own file. */
  lemma {:induction false} UpwardKeeps(storage: Storage, sizes: seq<nat>, was: seq<Key>, file: File, f: nat, leaf: nat, now: seq<Key>, ok: bool, flags: seq<bool>)
    requires f < |sizes| && sizes[f] == file.size && LeafOffset(Blocks(file)) <= leaf && UpperOk(storage, sizes, was, f, file.hashes)
    requires Follows(storage, was, MissingPlan(file, f, leaf), now, ok) && Upward(file)
    requires PlanMarks(file, flags, |now| - |was|, ok)
    ensures UpperOk(storage, sizes, now, f, flags)
  {
    var root := |was| + 1;
    UpwardReads(storage, was, file, f, leaf, now, ok);
    if |now| > root + 1 || ok {
      assert now[root] == HashKey(f, 0) && !storage.Bad(now[root], root);
      assert RootRead(storage, now, f);
    }
    if RootRead(storage, now, f) {
      var i: nat :| i < |now| && now[i] == HashKey(f, 0) && !storage.Bad(now[i], i);
    }
    if !ok && |now| > root + 1 {
      assert UpperMiss(storage, sizes, now, f, |now| - 1) && now[|now| - 1].index > 0;
    }
    if AboveMissing(storage, sizes, now, f) {
      var i: nat :| UpperMiss(storage, sizes, now, f, i) && now[i].index > 0;
    }
  }

  lemma {:induction false} PlanKeepsUppers(r: Account, file: File, f: nat, leaf: nat, now: seq<Key>, ok: bool, flags: seq<bool>)
    requires f < |r.sizes| && r.sizes[f] == file.size && r.hashes[f] == file.hashes && LeafOffset(Blocks(file)) <= leaf
    requires Follows(r.storage, r.keys, MissingPlan(file, f, leaf), now, ok)
    requires PlanMarks(file, flags, |now| - |r.keys|, ok)
    ensures AllUpperOk(r.storage, r.sizes, now, r.hashes[f := flags])
  {
    var more := now[|r.keys|..];
    MissingPlanIsOfFile(file, f, leaf);
    PlannedReads(r.storage, r.keys, MissingPlan(file, f, leaf), now, ok, f, more);
    var hashes := r.hashes[f := flags];
    forall g: nat | g < |r.sizes|
      ensures UpperOk(r.storage, r.sizes, now, g, hashes[g])
    {
      if g != f {
        UpperOkStays(r.storage, r.sizes, r.keys, more, g, r.hashes[g], r.hashes[g]);
      } else if Upward(file) {
        UpwardKeeps(r.storage, r.sizes, r.keys, file, f, leaf, now, ok, flags);
      } else {
        LeafIsOnlyRead(r.storage, r.keys, file, f, leaf, now, ok);
        UpperOkStays(r.storage, r.sizes, r.keys, more, f, r.hashes[f], flags);
      }
    }
  }

  lemma {:induction false} LeafIsOnlyRead(storage: Storage, was: seq<Key>, file: File, f: nat, leaf: nat, now: seq<Key>, ok: bool)
    requires Follows(storage, was, MissingPlan(file, f, leaf), now, ok) && !Upward(file)
    ensures now[|was|..] <= [HashKey(f, leaf)]
  {
  }

  /** The account after the hash blocks for a leaf were read. */
  ghost function AfterPlan(r: Account, file: File, f: nat, leaf: nat, now: seq<Key>, ok: bool, flags: seq<bool>): (r': Account)
    requires f < |r.sizes| && r.sizes[f] == file.size && r.hashes[f] == file.hashes && LeafOffset(Blocks(file)) <= leaf
    requires Follows(r.storage, r.keys, MissingPlan(file, f, leaf), now, ok)
    requires PlanMarks(file, flags, |now| - |r.keys|, ok)
    ensures r' == r.(keys := now, hashes := r.hashes[f := flags],
                     torn := if !ok && |now| > |r.keys| + 1 then r.torn + {f} else r.torn)
  {
    var more := now[|r.keys|..];
    MissingPlanIsOfFile(file, f, leaf);
    PlannedReads(r.storage, r.keys, MissingPlan(file, f, leaf), now, ok, f, more);
    LastOfPlan(r.storage, r.keys, r.sizes, file, f, leaf, now, ok);
    PlanKeepsUppers(r, file, f, leaf, now, ok, flags);
    if !ok && |now| > |r.keys| + 1 then
      TearKeepsAccount(r, more, f, r.hashes[f := flags]);
      r.(keys := now, torn := r.torn + {f}, hashes := r.hashes[f := flags])
    else
      ReadsKeepAccount(r, more, r.hashes[f := flags]);
      r.(keys := now, hashes := r.hashes[f := flags])
  }
}
