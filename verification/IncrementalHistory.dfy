/** Where the frames of the incremental server come from: each carries what one of the reads
    gave, and how far the hash blocks above a data block were sent before it can be told from
    the reads made before it. */
module IncrementalHistories {
  import opened Common
  import opened Verity
  import opened IncrementalFrames
  import opened IncrementalLedgers
  import opened IncrementalReads

  /** All reads and all frames, and which of the reads each frame comes from. */
  datatype Past = Past(storage: Storage, sizes: seq<nat>, keys: seq<Key>, frames: seq<WireFrame>, origin: seq<nat>)

  /** Frame `x` carries what the `n`th read gave, and that was one of its own place. */
  predicate ComesFrom(storage: Storage, keys: seq<Key>, x: WireFrame, n: nat) {
    x.Done? || (n < |keys| && keys[n] == KeyOf(x) && storage.Carries(x, n))
  }

  /** All hash blocks above the leaves of `f` are in the log. */
  ghost predicate UppersIn(log: seq<WireFrame>, f: nat, n: int) {
    forall k: nat :: k < n ==> Count(log, HashKey(f, k)) == 1
  }

  /** They are before data frame `x`, which comes from the `n`th read, exactly if the reads
      before that say so. */
  ghost predicate UppersAgree(storage: Storage, sizes: seq<nat>, keys: seq<Key>, before: seq<WireFrame>, x: WireFrame, n: nat) {
    x.Data? && x.file < |sizes| && n <= |keys| ==>
      (UppersIn(before, x.file, LeafOffset(NumBlocks(sizes[x.file]))) <==> UppersRead(storage, sizes, keys[..n], x.file))
  }

  ghost predicate Traced(p: Past) {
    && |p.origin| == |p.frames|
    && (forall i :: 0 <= i < |p.frames| ==> ComesFrom(p.storage, p.keys, p.frames[i], p.origin[i]))
    && (forall i :: 0 <= i < |p.frames| ==>
          UppersAgree(p.storage, p.sizes, p.keys, p.frames[..i], p.frames[i], p.origin[i]))
  }

  type History = p: Past | Traced(p) ghost witness Past(Storage((k, n) => None, (k, s) => s), [], [], [], [])

  ghost function NewHistory(storage: Storage, sizes: seq<nat>): (p: History)
    ensures p == Past(storage, sizes, [], [], [])
  {
    Past(storage, sizes, [], [], [])
  }

  /** One more read. */
  ghost function Reading(p: History, k: Key): (r: History)
    ensures r == p.(keys := p.keys + [k])
  {
    ReadingKeeps(p, k);
    p.(keys := p.keys + [k])
  }

  lemma {:induction false} ReadingKeeps(p: History, k: Key)
    ensures Traced(p.(keys := p.keys + [k]))
  {
    forall i | 0 <= i < |p.frames|
      ensures UppersAgree(p.storage, p.sizes, p.keys + [k], p.frames[..i], p.frames[i], p.origin[i])
    {
      assert ComesFrom(p.storage, p.keys, p.frames[i], p.origin[i]);
      assert UppersAgree(p.storage, p.sizes, p.keys, p.frames[..i], p.frames[i], p.origin[i]);
      if p.frames[i].Data? {
        assert (p.keys + [k])[..p.origin[i]] == p.keys[..p.origin[i]];
      }
    }
  }

  /** One more frame, from the `n`th read. */
  ghost function Pushing(p: History, x: WireFrame, n: nat): (r: History)
    requires ComesFrom(p.storage, p.keys, x, n) && UppersAgree(p.storage, p.sizes, p.keys, p.frames, x, n)
    ensures r == p.(frames := p.frames + [x], origin := p.origin + [n])
  {
    PushingKeeps(p, x, n);
    p.(frames := p.frames + [x], origin := p.origin + [n])
  }

  lemma {:induction false} PushingKeeps(p: History, x: WireFrame, n: nat)
    requires ComesFrom(p.storage, p.keys, x, n) && UppersAgree(p.storage, p.sizes, p.keys, p.frames, x, n)
    ensures Traced(p.(frames := p.frames + [x], origin := p.origin + [n]))
  {
    var frames := p.frames + [x];
    assert frames[..|p.frames|] == p.frames;
    forall i | 0 <= i < |p.frames|
      ensures frames[..i] == p.frames[..i]
    {
    }
  }

  /** The flags of a sound ledger say what is in its log. */
  lemma {:induction false} UppersLogged(l: SoundLedger, f: nat)
    requires f < |l.files|
    ensures UppersIn(l.log, f, LeafOffset(Blocks(l.files[f]))) <==> AllUpper(l.files[f])
  {
    var n := LeafOffset(Blocks(l.files[f]));
    assert forall k: nat :: Count(l.log, HashKey(f, k)) == Flag(IsSent(l, HashKey(f, k)));
    if UppersIn(l.log, f, n) {
      forall k | 0 <= k < n ensures Marked(l.files[f].hashes, k) {
        assert Count(l.log, HashKey(f, k)) == 1;
      }
    }
  }
}
