/**
  KVCacheManager (cpp/include/tensorrt_llm/batch_manager/kvCacheManager.h):
  the facade over one BlockManager and the per-slot sequences.  What is
  modelled is what the header defines inline: the getters, the statistics
  record, the per-beam prepopulated-token query and the two static size
  formulas.
*/
module KVCacheManagers {
  import opened Wrappers
  import opened GenerationRequests
  import opened BlockPool
  import opened BlockManagers

  /** KvCacheStats: the pool size, its free and used parts, and the block length in tokens. */
  datatype KvCacheStats = KvCacheStats(maxNumBlocks: int, freeNumBlocks: int, usedNumBlocks: int, toksPerBlock: int)

  /** calculatePageSize: the volume of [2, numKvHeads, tokensPerBlock, sizePerHead], K and V of one block of one layer. */
  function CalculatePageSize(nbKvHeads: int, tokensPerBlock: int, sizePerHead: int): int
  {
    2 * nbKvHeads * tokensPerBlock * sizePerHead
  }

  /** calculateCacheSizePerToken: K and V of one token over the layers of this pipeline rank. */
  function CalculateCacheSizePerToken(nbLayers: int, nbKvHeads: int, sizePerHead: int): int
  {
    nbLayers * 2 * nbKvHeads * sizePerHead
  }

  /**
    A page holds K and V of a whole block: for a BlockManager built with
    the same head count, block length and head size, the page is twice the
    manager's block size.
  */
  lemma PageIsTwoBlocks(bm: BlockManager, nbKvHeads: int, tokensPerBlock: int, sizePerHead: int)
    requires bm.blockSize == nbKvHeads * tokensPerBlock * sizePerHead
    ensures CalculatePageSize(nbKvHeads, tokensPerBlock, sizePerHead) == 2 * bm.GetBlockSize()
  {
    MulAssoc3(2 * nbKvHeads, tokensPerBlock, sizePerHead);
    MulAssoc3(2, nbKvHeads, tokensPerBlock * sizePerHead);
    MulAssoc3(nbKvHeads, tokensPerBlock, sizePerHead);
  }

  /**
    The two formulas agree: a block of tokensPerBlock tokens over nbLayers
    layers takes as much as nbLayers pages.
  */
  lemma PagesPerBlockOfTokens(nbLayers: int, nbKvHeads: int, tokensPerBlock: int, sizePerHead: int)
    ensures CalculateCacheSizePerToken(nbLayers, nbKvHeads, sizePerHead) * tokensPerBlock
            == nbLayers * CalculatePageSize(nbKvHeads, tokensPerBlock, sizePerHead)
  {
    var kv := 2 * nbKvHeads;
    calc {
      CalculateCacheSizePerToken(nbLayers, nbKvHeads, sizePerHead) * tokensPerBlock;
      ((nbLayers * kv) * sizePerHead) * tokensPerBlock;
      { MulSwapLast(nbLayers * kv, sizePerHead, tokensPerBlock); }
      ((nbLayers * kv) * tokensPerBlock) * sizePerHead;
      { MulAssoc3(nbLayers, kv, tokensPerBlock); }
      (nbLayers * (kv * tokensPerBlock)) * sizePerHead;
      { MulAssoc3(nbLayers, kv * tokensPerBlock, sizePerHead); }
      nbLayers * ((kv * tokensPerBlock) * sizePerHead);
    }
  }

  lemma MulAssoc3(a: int, b: int, c: int)
    ensures (a * b) * c == a * (b * c)
  {
  }

  lemma MulSwapLast(a: int, b: int, c: int)
    ensures (a * b) * c == (a * c) * b
  {
  }

  class KVCacheManager {
    var blockManager: BlockManager
    /** mSequences: one entry per batch slot, empty where no sequence is active. */
    var sequences: seq<Option<GenerationRequest>>
    var maxBlocksPerSeq: int
    var enableBlockReuse: bool

    /**
      A fresh manager: a fresh pool with every block free, no active
      sequence in any of the maxNumSequences slots.  The statistics start
      with the primary blocks free and the secondary ones counted as used.
    */
    constructor(numLayers: int, numKvHeads: int, sizePerHead: int, tokensPerBlock: int,
                blocksInPrimaryPool: nat, blocksInSecondaryPool: nat, maxNumSequences: nat,
                maxBlocksPerSeq: int, enableBlockReuse: bool, onboardBlocks: bool)
      requires blocksInPrimaryPool < PoolOffsetLimit && blocksInSecondaryPool < PoolOffsetLimit
      ensures fresh(blockManager) && blockManager.Valid()
      ensures sequences == seq(maxNumSequences, _ => None)
      ensures GetKvCacheStats() == KvCacheStats(blocksInPrimaryPool + blocksInSecondaryPool, blocksInPrimaryPool,
                                                blocksInSecondaryPool, tokensPerBlock)
      ensures GetBlockSize() == numKvHeads * tokensPerBlock * sizePerHead
      ensures CalculatePageSize(numKvHeads, tokensPerBlock, sizePerHead) == 2 * GetBlockSize()
      ensures this.maxBlocksPerSeq == maxBlocksPerSeq && this.enableBlockReuse == enableBlockReuse
    {
      blockManager := new BlockManager(numLayers, numKvHeads, sizePerHead, tokensPerBlock,
                                       blocksInPrimaryPool, blocksInSecondaryPool, onboardBlocks, maxNumSequences);
      sequences := seq(maxNumSequences, _ => None);
      this.maxBlocksPerSeq := maxBlocksPerSeq;
      this.enableBlockReuse := enableBlockReuse;
      new;
      PageIsTwoBlocks(blockManager, numKvHeads, tokensPerBlock, sizePerHead);
    }

    /** The sequence objects the facade can reach. */
    function Requests(): set<GenerationRequest>
      reads this
    {
      set i | 0 <= i < |sequences| && sequences[i].Some? :: sequences[i].value
    }

    function GetTokensPerBlock(): int
      reads this, blockManager
    {
      blockManager.GetTokensPerBlock()
    }

    function GetMaxNumBlocks(): int
      reads this, blockManager
    {
      blockManager.GetMaxNumBlocks()
    }

    function GetUsedNumBlocks(): int
      reads this, blockManager
    {
      blockManager.GetNumAllocatedBlocks()
    }

    function GetNumFreeBlocks(): int
      reads this, blockManager
    {
      blockManager.GetNumFreeBlocks()
    }

    function GetBlockSize(): int
      reads this, blockManager
    {
      blockManager.GetBlockSize()
    }

    function GetMaxBlocksPerSeq(): int
      reads this
    {
      maxBlocksPerSeq
    }

    function IsEnableBlockReuse(): bool
      reads this
    {
      enableBlockReuse
    }

    /**
      getKvCacheStats: used and free add up to the pool, the free part is
      the primary free queue, and the block length is the manager's.
    */
    function GetKvCacheStats(): (r: KvCacheStats)
      reads this, blockManager
      ensures r.usedNumBlocks + r.freeNumBlocks == r.maxNumBlocks
      ensures r.maxNumBlocks == |blockManager.blocks| && r.freeNumBlocks == |blockManager.freePrimaryBlocks|
      ensures r.toksPerBlock == blockManager.tokensPerBlock
    {
      KvCacheStats(GetMaxNumBlocks(), GetNumFreeBlocks(), GetUsedNumBlocks(), GetTokensPerBlock())
    }

    /** Under the manager's invariant neither part of the statistics is negative. */
    lemma StatsBounded()
      requires blockManager.Valid()
      ensures var r := GetKvCacheStats();
              0 <= r.freeNumBlocks <= r.maxNumBlocks && 0 <= r.usedNumBlocks <= r.maxNumBlocks
    {
      blockManager.FreeCountBounded();
    }

    /**
      getNumPrepopulatedTokens: 0 when the sequence recorded nothing, the
      beam's count otherwise.  The two `.at` calls fail out of range; an
      empty slot is dereferenced in the header and is an error here.
    */
    function GetNumPrepopulatedTokens(batchSlotIdx: int, beamIdx: int): (r: Result<int, string>)
      reads this, Requests()
      ensures r.Success? <==> 0 <= batchSlotIdx < |sequences| && sequences[batchSlotIdx].Some?
                              && (|sequences[batchSlotIdx].value.numPrepopulatedTokens| == 0
                                  || 0 <= beamIdx < |sequences[batchSlotIdx].value.numPrepopulatedTokens|)
      ensures r.Success? && |sequences[batchSlotIdx].value.numPrepopulatedTokens| == 0 ==> r.value == 0
      ensures r.Success? && |sequences[batchSlotIdx].value.numPrepopulatedTokens| > 0 ==>
                r.value == sequences[batchSlotIdx].value.numPrepopulatedTokens[beamIdx]
    {
      if !(0 <= batchSlotIdx < |sequences|) then Failure("sequence slot out of range")
      else match sequences[batchSlotIdx]
        case None => Failure("no sequence in this slot")
        case Some(req) =>
          var prepopulated := req.GetNumPrepopulatedTokens();
          if |prepopulated| > 0 then
            if 0 <= beamIdx < |prepopulated| then Success(prepopulated[beamIdx]) else Failure("beam out of range")
          else Success(0)
    }

    /**
      After a sequence records one count per beam, the query answers that
      count for each of its beams, whatever the rest of the slots hold.
    */
    lemma PrepopulatedRoundTrip(batchSlotIdx: int, counts: seq<int>, beamIdx: int)
      requires 0 <= batchSlotIdx < |sequences| && sequences[batchSlotIdx].Some?
      requires sequences[batchSlotIdx].value.numPrepopulatedTokens == counts && 0 <= beamIdx < |counts|
      ensures GetNumPrepopulatedTokens(batchSlotIdx, beamIdx) == Success(counts[beamIdx])
    {
    }
  }
}
