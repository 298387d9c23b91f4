/** The chunked byte queue: a chain of blocks, a lazily trimmed prefix of dead blocks
    and a byte offset into the first live block. */
module IOVectors {
  import opened Common

  /** A block: `mem` is its whole allocation, of which the first `size` bytes are used. */
  datatype Block = Block(mem: seq<byte>, size: nat) {
    predicate Valid() { size <= |mem| }

    function Capacity(): nat { |mem| }

    function Bytes(): seq<byte>
      requires Valid()
    {
      mem[..size]
    }

    /** `resize`, on a block that has an allocation of at least `n` bytes. */
    function Resize(n: nat): Block
      requires n <= |mem|
    {
      Block(mem, n)
    }

    /** `memcpy` or `memmove` of `src` to offset `at`. */
    function Copy(at: nat, src: seq<byte>): Block
      requires at + |src| <= |mem|
    {
      Block(mem[..at] + src + mem[at + |src|..], size)
    }
  }

  const EMPTY_BLOCK := Block([], 0)

  function BlockOf(data: seq<byte>): (b: Block)
    ensures b.Valid() && b.Bytes() == data && b.size == |data|
  {
    Block(data, |data|)
  }

  // ---- The bytes of a chain

  predicate BlocksValid(chain: seq<Block>) {
    forall i :: 0 <= i < |chain| ==> chain[i].Valid()
  }

  /** The bytes of the blocks from index `i` on. */
  function BytesFrom(chain: seq<Block>, i: nat): seq<byte>
    requires i <= |chain| && BlocksValid(chain)
    decreases |chain| - i
  {
    if i == |chain| then [] else chain[i].Bytes() + BytesFrom(chain, i + 1)
  }

  lemma {:induction false} BytesFromAppend(chain: seq<Block>, b: Block, i: nat)
    requires i <= |chain| && BlocksValid(chain) && b.Valid()
    ensures BlocksValid(chain + [b])
    ensures BytesFrom(chain + [b], i) == BytesFrom(chain, i) + b.Bytes()
    decreases |chain| - i
  {
    if i < |chain| {
      BytesFromAppend(chain, b, i + 1);
      assert chain[i].Bytes() + BytesFrom(chain, i + 1) + b.Bytes() == chain[i].Bytes() + (BytesFrom(chain, i + 1) + b.Bytes());
    } else {
      assert BytesFrom(chain + [b], i + 1) == [];
    }
  }

  /** Dead blocks do not matter. */
  lemma {:induction false} BytesFromSame(chain: seq<Block>, chain': seq<Block>, i: nat)
    requires |chain| == |chain'| && i <= |chain| && BlocksValid(chain) && BlocksValid(chain')
    requires forall j :: i <= j < |chain| ==> chain[j] == chain'[j]
    ensures BytesFrom(chain, i) == BytesFrom(chain', i)
    decreases |chain| - i
  {
    if i < |chain| {
      BytesFromSame(chain, chain', i + 1);
    }
  }

  lemma {:induction false} BytesFromShift(chain: seq<Block>, k: nat, i: nat)
    requires k + i <= |chain| && BlocksValid(chain)
    ensures BytesFrom(chain[k..], i) == BytesFrom(chain, k + i)
    decreases |chain| - i
  {
    if k + i < |chain| {
      BytesFromShift(chain, k, i + 1);
    }
  }

  /** Taking `n` more bytes after the first `a`. */
  lemma {:induction false} TakeMore(s: seq<byte>, a: nat, n: nat)
    requires a + n <= |s|
    ensures s[..a] + s[a..][..n] == s[..a + n] && s[a..][n..] == s[a + n..]
  {
  }

  /** The blocks of `chain` from `start` on are the last ones of `was`. */
  predicate LastOf(was: seq<Block>, chain: seq<Block>, start: nat) {
    start <= |chain| <= |was| + start && chain[start..] == was[|was| - (|chain| - start)..]
  }

  lemma {:induction false} LastOfStep(was: seq<Block>, a: seq<Block>, i: nat, b: seq<Block>, j: nat)
    requires LastOf(was, a, i) && i < |a| && j <= |b| && b[j..] == a[i + 1..]
    ensures LastOf(was, b, j)
  {
    assert a[i + 1..] == a[i..][1..];
    assert |b| - j == |b[j..]| == |a| - i - 1;
  }

  class IOVector {
    var chain: seq<Block>
    var chainLength: nat
    var beginOffset: nat
    var startIndex: nat

    /** The chain is empty, or the start points into a non-empty live block; the blocks before
        it have been emptied, and the cached length is the length of the live ones. */
    ghost predicate Valid()
      reads this
    {
      && BlocksValid(chain)
      && (forall i :: 0 <= i < |chain| ==> (chain[i].size > 0 <==> startIndex <= i))
      && if chain == [] then (chainLength, beginOffset, startIndex) == (0, 0, 0)
         else
           && startIndex < |chain| && beginOffset < chain[startIndex].size
           && chainLength == |BytesFrom(chain, startIndex)|
    }

    /** The byte sequence the vector stands for. */
    ghost function View(): seq<byte>
      requires Valid()
      reads this
    {
      BytesFrom(chain, startIndex)[beginOffset..]
    }

    constructor ()
      ensures Valid() && View() == [] && chain == []
    {
      chain, chainLength, beginOffset, startIndex := [], 0, 0, 0;
    }

    function Size(): (n: int)
      requires Valid()
      ensures n == |View()|
      reads this
    {
      chainLength - beginOffset
    }

    /** `front_size`. */
    function FrontSize(): (n: nat)
      requires Valid()
      ensures n <= |View()| && (n == 0 <==> View() == [])
      reads this
    {
      if chain == [] then 0 else chain[startIndex].size - beginOffset
    }

    method Clear() returns (last: Block)
      requires Valid()
      modifies this
      ensures Valid() && View() == [] && last.Valid()
      ensures last == if old(chain) == [] then EMPTY_BLOCK else old(chain)[|old(chain)| - 1]
    {
      last := EMPTY_BLOCK;
      if chain != [] {
        last := chain[|chain| - 1];
      }
      chain, chainLength, beginOffset, startIndex := [], 0, 0, 0;
    }

    /** Nothing is left but dead blocks, and the start is one past them: there is no front
        block to look at. */
    ghost predicate PastEnd()
      reads this
    {
      && BlocksValid(chain) && chain != [] && startIndex == |chain| && chainLength == beginOffset == 0
      && forall i :: 0 <= i < |chain| ==> chain[i].size == 0
    }

    /** Also makes a vector that is past its end valid again, with the block. */
    method Append(block: Block)
      requires (Valid() || PastEnd()) && block.Valid()
      modifies this
      ensures old(Valid()) ==> Valid() && View() == old(View()) + block.Bytes()
      ensures old(PastEnd()) ==> if block.size == 0 then PastEnd() else Valid() && View() == block.Bytes()
      ensures startIndex == old(startIndex) && beginOffset == old(beginOffset)
      ensures chain == if block.size == 0 then old(chain) else old(chain) + [block]
    {
      if block.size == 0 {
        return;
      }
      BytesFromAppend(chain, block, startIndex);
      chainLength := chainLength + block.size;
      chain := chain + [block];
    }

    method TrimChainFront()
      requires Valid() && chain != []
      modifies this
      ensures Valid() && chain != [] && View() == old(View())
      ensures startIndex == 0 && chain == old(chain)[old(startIndex)..] && beginOffset == old(beginOffset)
    {
      if startIndex != 0 {
        BytesFromShift(chain, startIndex, 0);
        chain := chain[startIndex..];
        startIndex := 0;
      }
    }

    /** Drops the front block of a vector that has another one; the dead blocks are erased
        once they are many. */
    method PopFrontBlock()
      requires Valid() && startIndex + 1 < |chain|
      modifies this
      ensures Valid() && chain != [] && View() == old(View())[old(FrontSize())..]
      ensures chain[startIndex..] == old(chain)[old(startIndex) + 1..]
      ensures startIndex == if old(startIndex) + 1 > Max(4, |old(chain)| / 2) then 0 else old(startIndex) + 1
    {
      var chain' := chain[startIndex := EMPTY_BLOCK];
      BytesFromSame(chain, chain', startIndex + 1);
      chainLength := chainLength - chain[startIndex].size;
      beginOffset := 0;
      chain := chain';
      startIndex := startIndex + 1;
      if startIndex > Max(4, |chain| / 2) {
        TrimChainFront();
      }
    }

    /** The view is what is left of the front block, then the blocks after it. */
    lemma {:induction false} ViewSplits()
      requires Valid() && chain != []
      ensures View() == chain[startIndex].Bytes()[beginOffset..] + BytesFrom(chain, startIndex + 1)
      ensures |chain[startIndex].Bytes()[beginOffset..]| == FrontSize()
    {
      assert BytesFrom(chain, startIndex) == chain[startIndex].Bytes() + BytesFrom(chain, startIndex + 1);
    }

    lemma {:induction false} FrontIsNotLast()
      requires Valid() && chain != [] && FrontSize() < |View()|
      ensures startIndex + 1 < |chain|
    {
      ViewSplits();
    }

    /** Skips `n` bytes of the front block. */
    method SkipInFront(n: nat)
      requires Valid() && chain != [] && n < FrontSize()
      modifies this`beginOffset
      ensures Valid() && View() == old(View())[n..]
    {
      beginOffset := beginOffset + n;
    }

    /** Drops exactly the first bytes. The live blocks that are left are the last ones, and
        a short chain keeps its dead blocks. */
    method DropFront(len: nat)
      requires Valid() && len <= |View()| && len < TWO_32
      modifies this
      ensures Valid() && View() == old(View())[len..]
      ensures len < |old(View())| ==> LastOf(old(chain), chain, startIndex)
      ensures len < |old(View())| && |old(chain)| <= 5 ==> |chain| == |old(chain)|
    {
      if len == 0 {
        return;
      }
      if len == Size() {
        var _ := Clear();
        return;
      }
      DropBlocks(len);
    }

    /** Drops the front block; what is left are the last blocks of `was`. */
    method PopNext(ghost was: seq<Block>)
      requires Valid() && chain != [] && FrontSize() < |View()| && LastOf(was, chain, startIndex)
      requires |was| <= 5 ==> |chain| == |was|
      modifies this
      ensures Valid() && chain != [] && View() == old(View())[old(FrontSize())..]
      ensures LastOf(was, chain, startIndex) && (|was| <= 5 ==> |chain| == |was|)
    {
      ghost var before, start := chain, startIndex;
      FrontIsNotLast();
      PopFrontBlock();
      LastOfStep(was, before, start, chain, startIndex);
    }

    /** The loop of `drop_front`, whose counter is a 32-bit `unsigned`. */
    method DropBlocks(len: nat)
      requires Valid() && len < |View()| && len < TWO_32
      modifies this
      ensures Valid() && View() == old(View())[len..]
      ensures LastOf(old(chain), chain, startIndex)
      ensures |old(chain)| <= 5 ==> |chain| == |old(chain)|
    {
      ghost var v := View();
      var dropped: uint32 := 0;
      while dropped < len
        invariant Valid() && chain != [] && dropped <= len
        invariant View() == v[dropped..]
        invariant LastOf(old(chain), chain, startIndex)
        invariant |old(chain)| <= 5 ==> |chain| == |old(chain)|
      {
        var next := chain[startIndex].size - beginOffset;
        TakeMore(v, dropped, Min(next, len - dropped));
        if dropped + next <= len {
          assert AsUint32(dropped + next) == dropped + next;
          PopNext(old(chain));
          dropped := AsUint32(dropped + next);
        } else {
          SkipInFront(len - dropped);
          return;
        }
      }
    }

    /** `operator=(IOVector&&)` into a vector just made. */
    method MoveOut() returns (res: IOVector)
      requires Valid()
      modifies this
      ensures fresh(res) && res.Valid() && res.View() == old(View())
      ensures Valid() && View() == []
      ensures res.chain == old(chain) && res.startIndex == old(startIndex) && res.beginOffset == old(beginOffset)
    {
      res := new IOVector();
      res.chain, res.chainLength, res.beginOffset, res.startIndex := chain, chainLength, beginOffset, startIndex;
      var _ := Clear();
    }

    /** Appends a block and, if it is the first, skips its first `offset` bytes. */
    method AppendAt(block: Block, offset: nat)
      requires Valid() && block.Valid() && offset < block.size && (offset != 0 ==> chain == [])
      modifies this
      ensures Valid() && View() == old(View()) + block.Bytes()[offset..]
    {
      Append(block);
      if offset != 0 {
        ViewSplits();
        beginOffset := offset;
        ViewSplits();
      }
    }

    /** Takes the front block, leaving its slot empty. */
    method DetachBlock() returns (block: Block, offset: nat)
      requires Valid() && startIndex + 1 < |chain|
      modifies this
      ensures Valid() && chain != [] && beginOffset == 0 && View() == old(View())[old(FrontSize())..]
      ensures block.Valid() && offset == old(beginOffset) < block.size
      ensures block.Bytes()[offset..] == old(View())[..old(FrontSize())]
    {
      ViewSplits();
      block, offset := chain[startIndex], beginOffset;
      var chain' := chain[startIndex := EMPTY_BLOCK];
      BytesFromSame(chain, chain', startIndex + 1);
      chainLength := chainLength - block.size;
      chain := chain';
      beginOffset := 0;
      startIndex := startIndex + 1;
    }

    /** Copies the first `len` bytes out of the front block. */
    method CopyFront(len: nat) returns (block: Block)
      requires Valid() && chain != [] && 0 < len < FrontSize()
      modifies this
      ensures Valid() && View() == old(View())[len..]
      ensures block.Valid() && block.Bytes() == old(View())[..len]
    {
      ViewSplits();
      ghost var front, rest := chain[startIndex].Bytes()[beginOffset..], BytesFrom(chain, startIndex + 1);
      block := BlockOf(chain[startIndex].mem[beginOffset..beginOffset + len]);
      beginOffset := beginOffset + len;
      ViewSplits();
      assert (front + rest)[len..] == front[len..] + rest && (front + rest)[..len] == front[..len];
    }

    /** Gives away the front block's buffer, cut to `len` bytes, and copies its tail
        back in. */
    method GiveFront(len: nat) returns (block: Block)
      requires Valid() && chain != [] && beginOffset == 0 && 0 < len < FrontSize()
      modifies this
      ensures Valid() && View() == old(View())[len..]
      ensures block.Valid() && block.Bytes() == old(View())[..len]
    {
      ViewSplits();
      var front := chain[startIndex];
      var tail := BlockOf(front.mem[len..front.size]);
      var chain' := chain[startIndex := tail];
      BytesFromSame(chain, chain', startIndex + 1);
      assert front.Bytes()[0..] == front.mem[..len] + tail.Bytes();
      chainLength := chainLength - front.size;
      block := front.Resize(len);
      chainLength := chainLength + tail.size;
      chain := chain';
      ViewSplits();
    }

    /** Splits the front block; the caller gets its first `len` bytes. */
    method SplitBlock(len: nat) returns (block: Block)
      requires Valid() && chain != [] && 0 < len < FrontSize()
      modifies this
      ensures Valid() && View() == old(View())[len..]
      ensures block.Valid() && block.Bytes() == old(View())[..len]
    {
      if beginOffset != 0 || len < chain[startIndex].size / 2 {
        block := CopyFront(len);
      } else {
        block := GiveFront(len);
      }
    }

    /** Moves the whole front block over to `res`. */
    method TakeBlock(res: IOVector)
      requires Valid() && res.Valid() && res != this && chain != [] && FrontSize() < |View()|
      requires beginOffset != 0 ==> res.chain == []
      modifies this, res
      ensures Valid() && res.Valid() && chain != [] && beginOffset == 0
      ensures res.View() == old(res.View()) + old(View())[..old(FrontSize())]
      ensures View() == old(View())[old(FrontSize())..]
    {
      FrontIsNotLast();
      var block, offset := DetachBlock();
      res.AppendAt(block, offset);
    }

    /** Moves over the blocks that go away as a whole. */
    method TakeBlocks(len: nat) returns (res: IOVector, rest: nat)
      requires Valid() && 0 < len < |View()|
      modifies this
      ensures fresh(res) && res.Valid() && Valid() && chain != []
      ensures rest <= len && rest < FrontSize()
      ensures res.View() == old(View())[..len - rest] && View() == old(View())[len - rest..]
    {
      ghost var v := View();
      res := new IOVector();
      rest := len;
      while chain[startIndex].size - beginOffset <= rest
        invariant Valid() && res.Valid() && fresh(res) && chain != [] && rest <= len
        invariant res.View() == v[..len - rest] && View() == v[len - rest..]
        invariant beginOffset != 0 ==> res.chain == []
        decreases rest
      {
        TakeMore(v, len - rest, FrontSize());
        rest := rest - (chain[startIndex].size - beginOffset);
        TakeBlock(res);
      }
    }

    method TakeFront(len: nat) returns (res: IOVector)
      requires Valid() && len <= |View()|
      modifies this
      ensures fresh(res) && res.Valid() && res.View() == old(View())[..len]
      ensures Valid() && View() == old(View())[len..]
    {
      if len == 0 {
        res := new IOVector();
        return;
      }
      if len == Size() {
        res := MoveOut();
        return;
      }
      var rest;
      res, rest := TakeBlocks(len);
      if rest > 0 {
        TakeMore(old(View()), len - rest, rest);
        var block := SplitBlock(rest);
        res.Append(block);
      }
    }

    /** Moves the bytes of the front block to its start. */
    method MoveToStart()
      requires Valid() && chain != []
      modifies this
      ensures Valid() && chain != [] && View() == old(View()) && beginOffset == 0
    {
      var front := chain[startIndex];
      var n := front.size - beginOffset;
      var moved := front.Copy(0, front.mem[beginOffset..front.size]).Resize(n);
      var chain' := chain[startIndex := moved];
      BytesFromSame(chain, chain', startIndex + 1);
      assert moved.Bytes() == front.Bytes()[beginOffset..];
      ViewSplits();
      chain := chain';
      chainLength := chainLength - beginOffset;
      beginOffset := 0;
      ViewSplits();
    }

    method TrimFront()
      requires Valid()
      modifies this
      ensures Valid() && View() == old(View()) && startIndex == beginOffset == 0
    {
      if (beginOffset == 0 && startIndex == 0) || chain == [] {
        return;
      }
      MoveToStart();
      TrimChainFront();
    }

    /** The const `coalesce`: copies all blocks into one. */
    method Coalesce() returns (res: Block)
      requires Valid()
      ensures res.Valid() && res.Bytes() == View()
    {
      if Size() == 0 {
        return EMPTY_BLOCK;
      }
      var n := Size();
      ViewSplits();
      res := Block(seq(n, _ => 0), n);
      res := res.Copy(0, chain[startIndex].Bytes()[beginOffset..]);
      var offset := chain[startIndex].size - beginOffset;
      res, offset := CopyBlocks(res, offset, View());
    }

    /** Copies the blocks after the front one behind the first `offset` bytes of `into`. */
    method CopyBlocks(into: Block, offset: nat, ghost all: seq<byte>) returns (res: Block, end: nat)
      requires Valid() && chain != []
      requires offset <= |all| <= |into.mem| && into.mem[..offset] + BytesFrom(chain, startIndex + 1) == all
      ensures res.size == into.size && |res.mem| == |into.mem| && end == |all| && res.mem[..end] == all
    {
      res, end := into, offset;
      for i := startIndex + 1 to |chain|
        invariant res.size == into.size && |res.mem| == |into.mem| && end <= |all|
        invariant res.mem[..end] + BytesFrom(chain, i) == all
      {
        ghost var before := res.mem[..end];
        assert BytesFrom(chain, i) == chain[i].Bytes() + BytesFrom(chain, i + 1);
        res := res.Copy(end, chain[i].Bytes());
        end := end + chain[i].size;
        assert res.mem[..end] == before + chain[i].Bytes();
      }
    }

    /** The destructive `coalesce`, which may give away a block instead of copying.  It
        returns the bytes the const one would.  The vector stays valid exactly unless
        its only live block had dead blocks before it: then it is left past its end.  It
        keeps its bytes, but for those of a front block that had room for all of them. */
    method CoalesceOut() returns (res: Block)
      requires Valid()
      modifies this
      ensures res.Valid() && res.Bytes() == old(View())
      ensures if old(startIndex) != 0 && |old(chain)| == old(startIndex) + 1 then PastEnd() else Valid()
      ensures |old(chain)| <= old(startIndex) + 1 ==> chain == old(chain)[..old(startIndex)]
      ensures |old(chain)| > old(startIndex) + 1 ==>
        View() == old(View())[if old(chain[startIndex].Capacity()) >= old(Size()) then old(FrontSize()) else 0..]
    {
      if Size() == 0 {
        return EMPTY_BLOCK;
      }
      ViewSplits();
      var front := chain[startIndex];
      if beginOffset == front.size && |chain| == startIndex + 2 {
        assert false;
      }
      if |chain| == startIndex + 1 {
        chainLength := chainLength - front.size;
        chain := chain[..|chain| - 1];
        res := front;
        if beginOffset != 0 {
          var n := res.size - beginOffset;
          res := res.Copy(0, res.mem[beginOffset..res.size]).Resize(n);
          beginOffset := 0;
        }
        return;
      }
      if front.Capacity() >= Size() {
        var size: nat := front.size;
        res := front;
        if beginOffset != 0 {
          res := res.Copy(0, res.mem[beginOffset..res.size]);
          size := size - beginOffset;
        }
        assert res.mem[..size] == front.Bytes()[beginOffset..];
        res, size := CopyBlocks(res, size, View());
        res := res.Resize(size);
        var _, _ := DetachBlock();
        return;
      }
      res := Coalesce();
    }
  }

  method TwoBlocks(a: Block, b: Block) returns (v: IOVector)
    requires a.Valid() && b.Valid() && 0 < a.size && 0 < b.size
    ensures fresh(v) && v.Valid() && v.View() == a.Bytes() + b.Bytes() && v.chain == [a, b]
  {
    v := new IOVector();
    v.Append(a);
    v.Append(b);
    assert [] + a.Bytes() == a.Bytes();
  }

  lemma {:induction false} SecondIsFront(v: IOVector, a: Block, b: Block)
    requires v.Valid() && |v.chain| == 2 && LastOf([a, b], v.chain, v.startIndex) && |v.View()| == b.size && b.Valid()
    ensures v.startIndex == 1
  {
    if v.startIndex == 0 {
      v.ViewSplits();
      assert v.chain[0..] == v.chain && v.chain[1] == b;
      assert BytesFrom(v.chain, 1) == b.Bytes() + BytesFrom(v.chain, 2);
    }
  }

  /** Two blocks, of which the first is dropped: destructive coalescing leaves the vector
      past its end, whatever the blocks. */
  method BreakByCoalescing(a: Block, b: Block) returns (v: IOVector, res: Block)
    requires a.Valid() && b.Valid() && 0 < a.size < TWO_32 && 0 < b.size
    ensures res.Valid() && res.Bytes() == b.Bytes() && v.PastEnd() && !v.Valid()
  {
    v := TwoBlocks(a, b);
    v.DropFront(a.size);
    assert (a.Bytes() + b.Bytes())[a.size..] == b.Bytes();
    SecondIsFront(v, a, b);
    res := v.CoalesceOut();
  }
}
