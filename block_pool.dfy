/**
  The metadata of the KV-cache block pool (cpp/include/tensorrt_llm/batch_manager/kvCacheManager.h):
  the KVCacheBlock record, the encoding of its memory-pool offset, and the
  pure definitions the BlockManager class is specified by — free-queue
  helpers, the multiset of blocks held by sequences, the reuse walk down
  the prefix tree and the eviction test.

  Blocks live in an arena (BlockManager::mAllBlocksByIdx) and refer to each
  other by index, which is also the block id sequences record.
*/
module BlockPool {
  import opened Wrappers
  import opened TokenHash

  /** Where a block's mPrevBlock points: nowhere, the tree root, or another block. */
  datatype Link = NoLink | RootLink | BlockLink(idx: nat)

  /** Children keyed by their exact token chunk (NextBlockMap). */
  type NextBlocks = map<seq<TokenId>, nat>

  /** KVCacheBlock's fields; the block's index in the arena is its mBlockIdx. */
  datatype KVCacheBlock = KVCacheBlock(
    memoryPoolBlockOffset: int,  // mMemoryPoolBlockOffset, secondary-pool flag included
    refCount: int,               // mRefCount
    schedulingRefCount: int,     // mSchedulingRefCount
    tokens: seq<TokenId>,        // mTokens: this block's key in its parent's map
    prev: Link,                  // mPrevBlock
    next: NextBlocks,            // mNextBlocks
    queued: bool,                // mFreeBlockIterator.has_value()
    isFull: bool)                // mIsFull

  // ---------------------------------------------------------------------
  // Memory-pool offsets
  // ---------------------------------------------------------------------

  /** 2^31: offsets in either pool are below it. */
  const PoolOffsetLimit: int := 0x8000_0000

  /** secondaryPoolFlag = 1 << 31 in a 32-bit SizeType, i.e. INT32_MIN. */
  const SecondaryPoolFlag: int := -0x8000_0000

  /** An offset in one of the two pools, tagged with the flag when it is in the secondary pool. */
  function EncodeOffset(secondary: bool, offset: nat): int
    requires offset < PoolOffsetLimit
  {
    if secondary then offset + SecondaryPoolFlag else offset
  }

  /** isPrimary: the flag bit (the sign bit) is clear. */
  predicate IsPrimaryOffset(encoded: int)
  {
    encoded >= 0
  }

  /** getMemoryPoolBlockOffset: the offset with the flag bit cleared. */
  function PoolOffset(encoded: int): int
  {
    if encoded < 0 then encoded + PoolOffsetLimit else encoded
  }

  /** The flag and the offset are recovered from the encoding. */
  lemma OffsetEncodingRoundTrip(secondary: bool, offset: nat)
    requires offset < PoolOffsetLimit
    ensures IsPrimaryOffset(EncodeOffset(secondary, offset)) <==> !secondary
    ensures PoolOffset(EncodeOffset(secondary, offset)) == offset
  {
  }

  predicate IsPrimary(b: KVCacheBlock)
  {
    IsPrimaryOffset(b.memoryPoolBlockOffset)
  }

  /**
    A new block: the first blocksInPrimaryPool indices are backed by the
    primary pool at their own index, the others by the secondary pool.
  */
  function NewBlock(blockIdx: nat, blocksInPrimaryPool: nat): (b: KVCacheBlock)
    requires blockIdx < blocksInPrimaryPool + PoolOffsetLimit && blocksInPrimaryPool < PoolOffsetLimit
    ensures IsPrimary(b) <==> blockIdx < blocksInPrimaryPool
    ensures IsPrimary(b) ==> PoolOffset(b.memoryPoolBlockOffset) == blockIdx
    ensures !IsPrimary(b) ==> PoolOffset(b.memoryPoolBlockOffset) == blockIdx - blocksInPrimaryPool
    ensures b.refCount == 0 && b.tokens == [] && b.next == map[] && b.prev == NoLink
  {
    var secondary := blockIdx >= blocksInPrimaryPool;
    var offset := if secondary then blockIdx - blocksInPrimaryPool else blockIdx;
    KVCacheBlock(EncodeOffset(secondary, offset), 0, 0, [], NoLink, map[], false, false)
  }

  // ---------------------------------------------------------------------
  // Free queues
  // ---------------------------------------------------------------------

  predicate Distinct(q: seq<nat>)
  {
    forall i, j :: 0 <= i < j < |q| ==> q[i] != q[j]
  }

  /** The position of an element of a queue. */
  function IndexOf(q: seq<nat>, x: nat): (i: nat)
    requires x in q
    ensures i < |q| && q[i] == x
    ensures forall j :: 0 <= j < i ==> q[j] != x
  {
    if q[0] == x then 0 else 1 + IndexOf(q[1..], x)
  }

  /** std::list::erase of the element an iterator points to. */
  function Remove(q: seq<nat>, x: nat): (r: seq<nat>)
    requires x in q
    ensures |r| == |q| - 1
    ensures forall y :: y in r ==> y in q
  {
    var i := IndexOf(q, x);
    q[..i] + q[i + 1..]
  }

  /** Erasing from a queue without duplicates removes exactly that element. */
  lemma RemoveFromDistinct(q: seq<nat>, x: nat)
    requires x in q && Distinct(q)
    ensures Distinct(Remove(q, x))
    ensures forall y :: y in Remove(q, x) <==> y in q && y != x
  {
    var i := IndexOf(q, x);
    var r := Remove(q, x);
    assert forall j :: 0 <= j < i ==> r[j] == q[j];
    assert forall j :: i <= j < |r| ==> r[j] == q[j + 1];
    forall y ensures y in r <==> y in q && y != x {
      if y in q && y != x {
        var j :| 0 <= j < |q| && q[j] == y;
        if j < i { assert r[j] == y; } else { assert j > i; assert r[j - 1] == y; }
      }
    }
  }

  /** Removing the front element leaves the rest of the queue in order. */
  lemma RemoveFront(q: seq<nat>)
    requires |q| > 0
    ensures Remove(q, q[0]) == q[1..]
  {
  }

  /** A queue without duplicates of indices below n holds at most n entries. */
  lemma {:induction false} DistinctBound(q: seq<nat>, n: nat)
    requires Distinct(q)
    requires forall i :: 0 <= i < |q| ==> q[i] < n
    ensures |q| <= n
    decreases n
  {
    if |q| > 0 {
      assert q[0] < n;
      var top := n - 1;
      if top in q {
        RemoveFromDistinct(q, top);
        var r := Remove(q, top);
        forall i | 0 <= i < |r| ensures r[i] < top {
          assert r[i] in r;
        }
        DistinctBound(r, top);
      } else {
        forall i | 0 <= i < |q| ensures q[i] < top {
          assert q[i] in q;
        }
        DistinctBound(q, top);
      }
    }
  }

  // ---------------------------------------------------------------------
  // Blocks held by sequences
  // ---------------------------------------------------------------------

  /** Every block id in all of mAllocatedBlocksPerSeq, with multiplicity. */
  function Held(lists: seq<seq<nat>>): multiset<nat>
  {
    if lists == [] then multiset{} else Held(lists[..|lists| - 1]) + multiset(lists[|lists| - 1])
  }

  /** Replacing one sequence's list changes the held multiset by exactly that list. */
  lemma {:induction false} HeldUpdate(lists: seq<seq<nat>>, s: nat, l: seq<nat>)
    requires s < |lists|
    ensures Held(lists[s := l]) == Held(lists) - multiset(lists[s]) + multiset(l)
    decreases |lists|
  {
    var n := |lists| - 1;
    var lists' := lists[s := l];
    assert lists'[..n] == if s == n then lists[..n] else lists[..n][s := l];
    if s < n {
      HeldUpdate(lists[..n], s, l);
      HeldContains(lists[..n], s);
    }
  }

  /** Each list is part of the held multiset. */
  lemma {:induction false} HeldContains(lists: seq<seq<nat>>, s: nat)
    requires s < |lists|
    ensures multiset(lists[s]) <= Held(lists)
    decreases |lists|
  {
    var n := |lists| - 1;
    if s < n {
      assert lists[..n][s] == lists[s];
      HeldContains(lists[..n], s);
    }
  }

  /** No sequence holds anything. */
  lemma {:induction false} HeldEmpty(lists: seq<seq<nat>>)
    requires forall s :: 0 <= s < |lists| ==> lists[s] == []
    ensures Held(lists) == multiset{}
    decreases |lists|
  {
    if lists != [] {
      HeldEmpty(lists[..|lists| - 1]);
    }
  }

  /** The ids of all lists are below n. */
  predicate ListsInRange(lists: seq<seq<nat>>, n: nat)
  {
    forall s, i :: 0 <= s < |lists| && 0 <= i < |lists[s]| ==> lists[s][i] < n
  }

  // ---------------------------------------------------------------------
  // The prefix tree
  // ---------------------------------------------------------------------

  /**
    findMatchingBlock: the child stored under exactly these tokens, if the
    tokens are not empty and that child is full.
  */
  function FindMatching(blocks: seq<KVCacheBlock>, next: NextBlocks, tokens: seq<TokenId>): (r: Option<nat>)
    ensures r.Some? <==> |tokens| > 0 && tokens in next && next[tokens] < |blocks| && blocks[next[tokens]].isFull
    ensures r.Some? ==> r.value == next[tokens]
  {
    if |tokens| > 0 && tokens in next && next[tokens] < |blocks| && blocks[next[tokens]].isFull
    then Some(next[tokens])
    else None
  }

  /** The reuse walk: the blocks matching the leading chunks, starting from the children `next`. */
  function MatchFrom(blocks: seq<KVCacheBlock>, next: NextBlocks, chunks: seq<seq<TokenId>>): (r: seq<nat>)
    ensures |r| <= |chunks|
    ensures forall i :: 0 <= i < |r| ==> r[i] < |blocks|
    decreases |chunks|
  {
    if chunks == [] then []
    else match FindMatching(blocks, next, chunks[0])
      case None => []
      case Some(c) => [c] + MatchFrom(blocks, blocks[c].next, chunks[1..])
  }

  /** The children map a walk position stands at: the root's, or a block's. */
  function ChildrenAt(blocks: seq<KVCacheBlock>, root: NextBlocks, path: seq<nat>): NextBlocks
  {
    if path == [] then root
    else if path[|path| - 1] < |blocks| then blocks[path[|path| - 1]].next
    else map[]
  }

  /**
    The walk taken one chunk at a time: after matching m chunks, the next
    block is the match of chunk m among the children of the m-th block.
  */
  lemma {:induction false} MatchStep(blocks: seq<KVCacheBlock>, root: NextBlocks, chunks: seq<seq<TokenId>>, m: nat)
    requires m < |chunks|
    requires m <= |MatchFrom(blocks, root, chunks)|
    ensures var path := MatchFrom(blocks, root, chunks);
            var f := FindMatching(blocks, ChildrenAt(blocks, root, path[..m]), chunks[m]);
            (m < |path| ==> f == Some(path[m])) && (m == |path| ==> f == None)
    decreases m
  {
    var path := MatchFrom(blocks, root, chunks);
    if m > 0 {
      var c := path[0];
      var rest := MatchFrom(blocks, blocks[c].next, chunks[1..]);
      assert path == [c] + rest;
      MatchStep(blocks, blocks[c].next, chunks[1..], m - 1);
      if m == 1 {
        assert ChildrenAt(blocks, root, path[..1]) == blocks[c].next;
        assert ChildrenAt(blocks, blocks[c].next, rest[..0]) == blocks[c].next;
      } else {
        assert path[..m][m - 1] == rest[..m - 1][m - 2];
      }
      assert chunks[1..][m - 1] == chunks[m];
    }
  }

  /** `small` has a subset of `big`'s entries, with the same values. */
  predicate SubMap(small: NextBlocks, big: NextBlocks)
  {
    forall k :: k in small ==> k in big && small[k] == big[k]
  }

  /** The tree has only lost edges: every children map shrank and full flags are as before. */
  predicate TreeShrunk(old0: seq<KVCacheBlock>, oldRoot: NextBlocks, blocks: seq<KVCacheBlock>, root: NextBlocks)
  {
    |blocks| == |old0| && SubMap(root, oldRoot)
    && forall b :: 0 <= b < |blocks| ==> SubMap(blocks[b].next, old0[b].next) && blocks[b].isFull == old0[b].isFull
  }

  /** The tree is as before: same root children, children maps and full flags. */
  predicate TreeSame(old0: seq<KVCacheBlock>, oldRoot: NextBlocks, blocks: seq<KVCacheBlock>, root: NextBlocks)
  {
    |blocks| == |old0| && root == oldRoot
    && forall b :: 0 <= b < |blocks| ==> blocks[b].next == old0[b].next && blocks[b].isFull == old0[b].isFull
  }

  /** A match in a shrunk tree is a match in the original tree. */
  lemma FindMatchingShrunk(old0: seq<KVCacheBlock>, blocks: seq<KVCacheBlock>, oldNext: NextBlocks,
                           next: NextBlocks, tokens: seq<TokenId>)
    requires |blocks| == |old0| && SubMap(next, oldNext)
    requires forall b :: 0 <= b < |blocks| ==> blocks[b].isFull == old0[b].isFull
    ensures FindMatching(blocks, next, tokens).Some? ==> FindMatching(old0, oldNext, tokens) == FindMatching(blocks, next, tokens)
  {
  }

  // ---------------------------------------------------------------------
  // Eviction
  // ---------------------------------------------------------------------

  /**
    Whether some block reachable from `b` through the children maps, in at
    most `fuel` steps, is backed by the primary pool.
  */
  predicate HasPrimaryDescendant(blocks: seq<KVCacheBlock>, b: nat, fuel: nat)
    decreases fuel
  {
    fuel > 0 && b < |blocks|
    && exists k :: k in blocks[b].next && blocks[b].next[k] < |blocks|
         && (IsPrimary(blocks[blocks[b].next[k]]) || HasPrimaryDescendant(blocks, blocks[b].next[k], fuel - 1))
  }

  /** A block the eviction search may choose: no primary block below it. */
  predicate EvictionCandidate(blocks: seq<KVCacheBlock>, b: nat)
  {
    !HasPrimaryDescendant(blocks, b, |blocks|)
  }

  /** A block without children has no primary descendants, so it is a candidate. */
  lemma LeafIsCandidate(blocks: seq<KVCacheBlock>, b: nat)
    requires b < |blocks| && blocks[b].next == map[]
    ensures EvictionCandidate(blocks, b)
  {
  }

  /** A block with any primary child is not a candidate. */
  lemma PrimaryChildBlocksEviction(blocks: seq<KVCacheBlock>, b: nat, k: seq<TokenId>)
    requires b < |blocks| && k in blocks[b].next && blocks[b].next[k] < |blocks|
    requires IsPrimary(blocks[blocks[b].next[k]])
    ensures !EvictionCandidate(blocks, b)
  {
  }
}
