/**
  GenerationRequest (cpp/include/tensorrt_llm/batch_manager/kvCacheManager.h):
  the per-sequence record of the paged KV cache.  It holds the sequence's
  token count and, for every beam, the list of cache block ids it uses.
  The `.at()` accesses that throw std::out_of_range and the TLLM_CHECK
  assertions that throw are modelled as a `false` result that leaves the
  record unchanged.
*/
module GenerationRequests {

  class GenerationRequest {
    var seqSlotIdx: int
    var numTokens: int
    var beamWidth: int
    var cacheBlockIds: seq<seq<int>>
    var numPrepopulatedTokens: seq<int>

    /** There is one block-id list per beam. */
    predicate Valid()
      reads this
    {
      beamWidth >= 0 && |cacheBlockIds| == beamWidth
    }

    /** A new request holds the given token count and `beamWidth` empty block lists. */
    constructor(seqSlotIdx: int, numTokens: int, beamWidth: int)
      requires beamWidth >= 0
      ensures Valid()
      ensures this.seqSlotIdx == seqSlotIdx && this.numTokens == numTokens && this.beamWidth == beamWidth
      ensures |cacheBlockIds| == beamWidth
      ensures forall b :: 0 <= b < beamWidth ==> cacheBlockIds[b] == []
      ensures numPrepopulatedTokens == []
    {
      this.seqSlotIdx := seqSlotIdx;
      this.numTokens := numTokens;
      this.beamWidth := beamWidth;
      cacheBlockIds := seq(beamWidth, _ => []);
      numPrepopulatedTokens := [];
    }

    method AddNewTokens(n: int)
      modifies this
      ensures numTokens == old(numTokens) + n
      ensures seqSlotIdx == old(seqSlotIdx) && beamWidth == old(beamWidth)
      ensures cacheBlockIds == old(cacheBlockIds) && numPrepopulatedTokens == old(numPrepopulatedTokens)
    {
      numTokens := numTokens + n;
    }

    /** Both checks of removeTokens; on success the count stays non-negative. */
    method RemoveTokens(n: int) returns (ok: bool)
      modifies this
      ensures ok <==> n <= old(numTokens) && old(numTokens) - n >= 0
      ensures ok ==> numTokens == old(numTokens) - n && numTokens >= 0
      ensures !ok ==> numTokens == old(numTokens)
      ensures seqSlotIdx == old(seqSlotIdx) && beamWidth == old(beamWidth)
      ensures cacheBlockIds == old(cacheBlockIds) && numPrepopulatedTokens == old(numPrepopulatedTokens)
    {
      if n <= numTokens && numTokens - n >= 0 {
        numTokens := numTokens - n;
        ok := true;
      } else {
        ok := false;
      }
    }

    function GetSequenceSlotIdx(): int
      reads this
    {
      seqSlotIdx
    }

    function GetNumTokens(): int
      reads this
    {
      numTokens
    }

    function GetBeamWidth(): int
      reads this
    {
      beamWidth
    }

    function GetCacheBlockIds(): seq<seq<int>>
      reads this
    {
      cacheBlockIds
    }

    /** Appends to the named beam only; an out-of-range beam is rejected. */
    method AddCacheBlock(beamIdx: int, blockIdx: int) returns (ok: bool)
      requires Valid()
      modifies this
      ensures Valid()
      ensures ok <==> 0 <= beamIdx < |old(cacheBlockIds)|
      ensures ok ==> cacheBlockIds == old(cacheBlockIds)[beamIdx := old(cacheBlockIds)[beamIdx] + [blockIdx]]
      ensures !ok ==> cacheBlockIds == old(cacheBlockIds)
      ensures seqSlotIdx == old(seqSlotIdx) && numTokens == old(numTokens) && beamWidth == old(beamWidth)
      ensures numPrepopulatedTokens == old(numPrepopulatedTokens)
    {
      if 0 <= beamIdx < |cacheBlockIds| {
        cacheBlockIds := cacheBlockIds[beamIdx := cacheBlockIds[beamIdx] + [blockIdx]];
        ok := true;
      } else {
        ok := false;
      }
    }

    /** Overwrites one existing entry; an out-of-range beam or position is rejected. */
    method ChangeCacheBlock(beamIdx: int, pagedBlockIdx: int, blockIdx: int) returns (ok: bool)
      requires Valid()
      modifies this
      ensures Valid()
      ensures ok <==> 0 <= beamIdx < |old(cacheBlockIds)| && 0 <= pagedBlockIdx < |old(cacheBlockIds)[beamIdx]|
      ensures ok ==> cacheBlockIds == old(cacheBlockIds)[beamIdx := old(cacheBlockIds)[beamIdx][pagedBlockIdx := blockIdx]]
      ensures !ok ==> cacheBlockIds == old(cacheBlockIds)
      ensures seqSlotIdx == old(seqSlotIdx) && numTokens == old(numTokens) && beamWidth == old(beamWidth)
      ensures numPrepopulatedTokens == old(numPrepopulatedTokens)
    {
      if 0 <= beamIdx < |cacheBlockIds| && 0 <= pagedBlockIdx < |cacheBlockIds[beamIdx]| {
        cacheBlockIds := cacheBlockIds[beamIdx := cacheBlockIds[beamIdx][pagedBlockIdx := blockIdx]];
        ok := true;
      } else {
        ok := false;
      }
    }

    /** Empties every beam's list and keeps the number of beams. */
    method ClearCacheBlocks()
      requires Valid()
      modifies this
      ensures Valid()
      ensures |cacheBlockIds| == |old(cacheBlockIds)|
      ensures forall b :: 0 <= b < |cacheBlockIds| ==> cacheBlockIds[b] == []
      ensures seqSlotIdx == old(seqSlotIdx) && numTokens == old(numTokens) && beamWidth == old(beamWidth)
      ensures numPrepopulatedTokens == old(numPrepopulatedTokens)
    {
      var b := 0;
      while b < |cacheBlockIds|
        invariant 0 <= b <= |cacheBlockIds| == |old(cacheBlockIds)|
        invariant forall c :: 0 <= c < b ==> cacheBlockIds[c] == []
        invariant seqSlotIdx == old(seqSlotIdx) && numTokens == old(numTokens) && beamWidth == old(beamWidth)
        invariant numPrepopulatedTokens == old(numPrepopulatedTokens)
      {
        cacheBlockIds := cacheBlockIds[b := []];
        b := b + 1;
      }
    }

    /**
      Drops the last block of every beam; every list gets exactly one
      shorter.  pop_back on an empty list is undefined, so every beam must
      hold a block.
    */
    method RemoveLastBlock()
      requires Valid()
      requires forall b :: 0 <= b < |cacheBlockIds| ==> cacheBlockIds[b] != []
      modifies this
      ensures Valid()
      ensures |cacheBlockIds| == |old(cacheBlockIds)|
      ensures forall b :: 0 <= b < |cacheBlockIds| ==>
                cacheBlockIds[b] == old(cacheBlockIds)[b][..|old(cacheBlockIds)[b]| - 1]
      ensures seqSlotIdx == old(seqSlotIdx) && numTokens == old(numTokens) && beamWidth == old(beamWidth)
      ensures numPrepopulatedTokens == old(numPrepopulatedTokens)
    {
      var b := 0;
      while b < |cacheBlockIds|
        invariant 0 <= b <= |cacheBlockIds| == |old(cacheBlockIds)|
        invariant forall c :: 0 <= c < b ==>
                    cacheBlockIds[c] == old(cacheBlockIds)[c][..|old(cacheBlockIds)[c]| - 1]
        invariant forall c :: b <= c < |cacheBlockIds| ==> cacheBlockIds[c] == old(cacheBlockIds)[c]
        invariant seqSlotIdx == old(seqSlotIdx) && numTokens == old(numTokens) && beamWidth == old(beamWidth)
        invariant numPrepopulatedTokens == old(numPrepopulatedTokens)
      {
        cacheBlockIds := cacheBlockIds[b := cacheBlockIds[b][..|cacheBlockIds[b]| - 1]];
        b := b + 1;
      }
    }

    method SetNumPrepopulatedTokens(v: seq<int>)
      modifies this
      ensures numPrepopulatedTokens == v
      ensures seqSlotIdx == old(seqSlotIdx) && numTokens == old(numTokens) && beamWidth == old(beamWidth)
      ensures cacheBlockIds == old(cacheBlockIds)
    {
      numPrepopulatedTokens := v;
    }

    function GetNumPrepopulatedTokens(): seq<int>
      reads this
    {
      numPrepopulatedTokens
    }
  }
}
