/** The layout of the fs-verity hash tree of a file. Data blocks are 4096 bytes, and each
    block of hashes covers 128 blocks of the level below it. The tree is stored from its
    root: every level precedes the level it covers. */
module Verity {
  const BLOCK_SIZE: int := 4096
  const HASHES_PER_BLOCK: int := 128

  /** `roundUpToBlockOffset` and the division, with the mask written as a remainder. */
  function NumBlocks(bytes: nat): (n: nat)
    ensures (n - 1) * BLOCK_SIZE < bytes <= n * BLOCK_SIZE
  {
    var up := bytes + BLOCK_SIZE - 1;
    (up - up % BLOCK_SIZE) / BLOCK_SIZE
  }

  /** The blocks of hashes that cover `n` blocks. */
  function Up(n: nat): (m: nat)
    ensures (m - 1) * HASHES_PER_BLOCK < n <= m * HASHES_PER_BLOCK
    ensures 1 < n ==> 0 < m < n
  {
    (n + HASHES_PER_BLOCK - 1) / HASHES_PER_BLOCK
  }

  /** The number of blocks in the tree over `n` blocks. */
  function TreeBlocks(n: nat): nat {
    if n <= 1 then 0 else Up(n) + TreeBlocks(Up(n))
  }

  method VerityTreeBlocks(fileSize: nat) returns (total: nat)
    ensures total == TreeBlocks(NumBlocks(fileSize))
  {
    if fileSize == 0 {
      return 0;
    }
    total := 0;
    var blockCount: nat := 1 + (fileSize - 1) / BLOCK_SIZE;
    var hashBlocks: nat := blockCount;
    while hashBlocks > 1
      invariant total + TreeBlocks(hashBlocks) == TreeBlocks(blockCount)
    {
      hashBlocks := (hashBlocks + HASHES_PER_BLOCK - 1) / HASHES_PER_BLOCK;
      total := total + hashBlocks;
    }
    assert blockCount == NumBlocks(fileSize);
  }

  // ---- Levels

  /** The number of nodes `k` levels above the data. */
  function Level(blocks: nat, k: nat): nat {
    if k == 0 then blocks else Up(Level(blocks, k - 1))
  }

  /** The node `k` levels above a data block that covers it. */
  function Ancestor(block: nat, k: nat): nat {
    if k == 0 then block else Ancestor(block, k - 1) / HASHES_PER_BLOCK
  }

  /** The tree has a level `k`: the level below it has more than one node. */
  predicate HasLevel(blocks: nat, k: nat) {
    0 < k && 1 < Level(blocks, k - 1)
  }

  /** Where that node is stored. */
  function Node(blocks: nat, block: nat, k: nat): nat {
    TreeBlocks(Level(blocks, k)) + Ancestor(block, k)
  }

  /** `leaf_nodes_offset`: where the lowest level starts. */
  function LeafOffset(blocks: nat): int {
    TreeBlocks(blocks) - Up(blocks)
  }

  /** `leaf_idx`: the block of hashes that covers a data block. */
  function Leaf(blocks: nat, block: nat): int {
    LeafOffset(blocks) + block / HASHES_PER_BLOCK
  }

  /** The leaf of every data block is in the tree exactly when the file has more than one
      block: a file of one block has no tree, and its leaf would be at -1. */
  lemma {:induction false} LeafInRange(blocks: nat, block: nat)
    requires block < blocks
    ensures 0 <= Leaf(blocks, block) < TreeBlocks(blocks) <==> 1 < blocks
    ensures blocks == 1 ==> Leaf(blocks, block) == -1
  {
    if 1 < blocks {
      assert LeafOffset(blocks) == TreeBlocks(Up(blocks));
      assert block / HASHES_PER_BLOCK < Up(blocks);
    }
  }

  lemma {:induction false} AncestorInLevel(blocks: nat, block: nat, k: nat)
    requires block < blocks
    ensures Ancestor(block, k) < Level(blocks, k)
  {
    if k > 0 {
      AncestorInLevel(blocks, block, k - 1);
    }
  }

  lemma {:induction false} LevelsShrink(blocks: nat, k: nat)
    ensures TreeBlocks(Level(blocks, k)) <= TreeBlocks(blocks)
    ensures 0 < k ==> TreeBlocks(Level(blocks, k)) <= TreeBlocks(Up(blocks))
  {
    if k > 0 {
      LevelsShrink(blocks, k - 1);
      if k > 1 {
        assert TreeBlocks(Level(blocks, k)) <= TreeBlocks(Level(blocks, k - 1));
      }
    }
  }

  /** Each node on the way from a data block to the root is in the tree: the first is the
      leaf, and every other one is stored before all leaves. */
  lemma {:induction false} PathInTree(blocks: nat, block: nat, k: nat)
    requires block < blocks && HasLevel(blocks, k)
    ensures Node(blocks, block, k) < TreeBlocks(Level(blocks, k - 1)) <= TreeBlocks(blocks)
    ensures if k == 1 then Node(blocks, block, k) == Leaf(blocks, block)
            else Node(blocks, block, k) < LeafOffset(blocks)
  {
    AncestorInLevel(blocks, block, k);
    LevelsShrink(blocks, k - 1);
    if k == 1 {
      assert Ancestor(block, 1) == Ancestor(block, 0) / HASHES_PER_BLOCK;
      assert Level(blocks, 1) == Up(Level(blocks, 0));
    } else {
      LevelsShrink(blocks, 1);
      OnlyDeeper(blocks, k - 1);
    }
  }

  lemma {:induction false} OnlyDeeper(blocks: nat, k: nat)
    requires 1 < Level(blocks, k)
    ensures 1 < blocks
  {
    if k > 0 {
      OnlyDeeper(blocks, k - 1);
    }
  }

  /** Every stored block is a node of some level: the levels fill the tree. */
  lemma {:induction false} LevelsFillTree(blocks: nat, index: nat) returns (k: nat, node: nat)
    requires index < TreeBlocks(blocks)
    ensures HasLevel(blocks, k) && node < Level(blocks, k) && index == TreeBlocks(Level(blocks, k)) + node
    decreases blocks
  {
    if TreeBlocks(Up(blocks)) <= index {
      k, node := 1, index - TreeBlocks(Up(blocks));
      assert Level(blocks, 1) == Up(Level(blocks, 0));
    } else {
      k, node := LevelsFillTree(Up(blocks), index);
      LevelShift(blocks, k);
      LevelShift(blocks, k - 1);
      k := k + 1;
    }
  }

  lemma {:induction false} LevelShift(blocks: nat, k: nat)
    ensures Level(blocks, k + 1) == Level(Up(blocks), k)
  {
    if k == 0 {
      assert Level(blocks, 1) == Up(Level(blocks, 0));
    } else {
      LevelShift(blocks, k - 1);
    }
  }

  // ---- The size of a level

  function Power(k: nat): (p: nat)
    ensures 0 < p
  {
    if k == 0 then 1 else HASHES_PER_BLOCK * Power(k - 1)
  }

  /** The node `k` levels up covers `128^k` blocks: a level has just enough nodes. */
  lemma {:induction false} LevelCovers(blocks: nat, k: nat)
    ensures (Level(blocks, k) - 1) * Power(k) < blocks <= Level(blocks, k) * Power(k)
  {
    if k > 0 {
      LevelCovers(blocks, k - 1);
      CoverUp(blocks, Level(blocks, k - 1), Level(blocks, k), Power(k - 1));
    }
  }

  lemma {:induction false} CoverUp(blocks: nat, below: nat, above: nat, p: nat)
    requires (below - 1) * p < blocks <= below * p && (above - 1) * HASHES_PER_BLOCK < below <= above * HASHES_PER_BLOCK
    ensures (above - 1) * (HASHES_PER_BLOCK * p) < blocks <= above * (HASHES_PER_BLOCK * p)
  {
    Scale(below, above * HASHES_PER_BLOCK, p);
    Scale((above - 1) * HASHES_PER_BLOCK, below - 1, p);
    Regroup(above, p);
    Regroup(above - 1, p);
  }

  lemma {:induction false} Regroup(n: int, p: nat)
    ensures n * HASHES_PER_BLOCK * p == n * (HASHES_PER_BLOCK * p)
  {
  }

  lemma {:induction false} Scale(x: int, y: int, p: nat)
    requires x <= y
    ensures x * p <= y * p
  {
  }
}
