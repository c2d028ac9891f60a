/**
  BlockManager (cpp/include/tensorrt_llm/batch_manager/kvCacheManager.h):
  the metadata of a fixed pool of KV-cache blocks shared by all layers.
  Free blocks wait in two queues, one per memory tier; sequences hold
  blocks by reference count; full blocks are kept in a prefix tree keyed
  by their exact token chunks so later sequences can reuse them.

  The header declares the allocation, release, reuse and eviction members
  without defining them; their behaviour here follows the contracts their
  doc comments state.  Block contents are opaque: copies and onboarding
  transfers move no data in this model.
*/
module BlockManagers {
  import opened Wrappers
  import opened TokenHash
  import opened BlockPool
  import opened GenerationRequests

  /** The free queue a block of the given tier goes back to, at the back or at the front. */
  function Push(q: seq<nat>, b: nat, toFront: bool): (r: seq<nat>)
    ensures toFront ==> r == [b] + q
    ensures !toFront ==> r == q + [b]
  {
    if toFront then [b] + q else q + [b]
  }

  /** Every entry of a free queue is a distinct, queued, unreferenced block of the queue's tier. */
  predicate QueueOk(blocks: seq<KVCacheBlock>, q: seq<nat>, primary: bool)
  {
    Distinct(q)
    && forall i :: 0 <= i < |q| ==>
         q[i] < |blocks| && IsPrimary(blocks[q[i]]) == primary && blocks[q[i]].queued && blocks[q[i]].refCount == 0
  }

  /**
    The free-queue invariant: a block is queued exactly when it is in one
    of the queues, and only unreferenced blocks are queued.  Blocks in
    `claimed` have just been taken off a queue and may be unreferenced
    while not queued; everywhere else an unqueued block is referenced.
  */
  predicate FreeListsOk(blocks: seq<KVCacheBlock>, fp: seq<nat>, fs: seq<nat>, claimed: set<nat>)
  {
    QueueOk(blocks, fp, true) && QueueOk(blocks, fs, false)
    && (forall b :: 0 <= b < |blocks| && blocks[b].queued ==> b in fp || b in fs)
    && (forall b :: 0 <= b < |blocks| && !blocks[b].queued && b !in claimed ==> blocks[b].refCount > 0)
  }

  /** Back links point into the arena. */
  predicate LinksOk(blocks: seq<KVCacheBlock>)
  {
    forall b :: 0 <= b < |blocks| && blocks[b].prev.BlockLink? ==> blocks[b].prev.idx < |blocks|
  }

  /** Every block's reference count is the number of times sequences hold it. */
  predicate RefsMatch(blocks: seq<KVCacheBlock>, held: multiset<nat>)
  {
    forall b :: 0 <= b < |blocks| ==> blocks[b].refCount == held[b]
  }

  /** What a queue promises about each block on it. */
  lemma QueueMember(blocks: seq<KVCacheBlock>, q: seq<nat>, primary: bool, b: nat)
    requires QueueOk(blocks, q, primary) && b in q
    ensures b < |blocks| && IsPrimary(blocks[b]) == primary && blocks[b].queued && blocks[b].refCount == 0
  {
    var i :| 0 <= i < |q| && q[i] == b;
  }

  /** An unqueued block is in neither queue. */
  lemma UnqueuedNotInQueues(blocks: seq<KVCacheBlock>, fp: seq<nat>, fs: seq<nat>, claimed: set<nat>, b: nat)
    requires FreeListsOk(blocks, fp, fs, claimed) && b < |blocks| && !blocks[b].queued
    ensures b !in fp && b !in fs
  {
    if b in fp {
      QueueMember(blocks, fp, true, b);
    }
    if b in fs {
      QueueMember(blocks, fs, false, b);
    }
  }

  /** Changing a block a queue does not hold leaves the queue well formed. */
  lemma QueueOkUpdateOther(blocks: seq<KVCacheBlock>, q: seq<nat>, primary: bool, b: nat, x: KVCacheBlock)
    requires QueueOk(blocks, q, primary) && b < |blocks| && b !in q
    ensures QueueOk(blocks[b := x], q, primary)
  {
    forall i | 0 <= i < |q| ensures q[i] != b {
      assert q[i] in q;
    }
  }

  /** A queued, unreferenced block of the right tier may join a queue that does not hold it. */
  lemma QueueOkPush(blocks: seq<KVCacheBlock>, q: seq<nat>, primary: bool, b: nat, toFront: bool)
    requires QueueOk(blocks, q, primary) && b < |blocks| && b !in q
    requires IsPrimary(blocks[b]) == primary && blocks[b].queued && blocks[b].refCount == 0
    ensures QueueOk(blocks, Push(q, b, toFront), primary)
  {
    var r := Push(q, b, toFront);
    forall i, j | 0 <= i < j < |r| ensures r[i] != r[j] {
      if toFront {
        if i == 0 { assert r[j] == q[j - 1]; assert q[j - 1] in q; }
        else { assert r[i] == q[i - 1] && r[j] == q[j - 1]; }
      } else {
        if j == |q| { assert r[i] == q[i]; assert q[i] in q; }
      }
    }
  }

  /** Erasing from a queue keeps it well formed. */
  lemma QueueOkRemove(blocks: seq<KVCacheBlock>, q: seq<nat>, primary: bool, b: nat)
    requires QueueOk(blocks, q, primary) && b in q
    ensures QueueOk(blocks, Remove(q, b), primary)
    ensures b !in Remove(q, b)
  {
    RemoveFromDistinct(q, b);
    var r := Remove(q, b);
    forall i | 0 <= i < |r|
      ensures r[i] < |blocks| && IsPrimary(blocks[r[i]]) == primary && blocks[r[i]].queued && blocks[r[i]].refCount == 0
    {
      assert r[i] in r;
      assert r[i] in q;
      var j :| 0 <= j < |q| && q[j] == r[i];
    }
  }

  /** Dropping one of several references keeps the free-queue invariant. */
  lemma DecRefKeepsFreeLists(blocks: seq<KVCacheBlock>, fp: seq<nat>, fs: seq<nat>, b: nat)
    requires FreeListsOk(blocks, fp, fs, {}) && b < |blocks| && blocks[b].refCount > 1
    ensures FreeListsOk(blocks[b := blocks[b].(refCount := blocks[b].refCount - 1)], fp, fs, {})
  {
    UnqueuedNotInQueues(blocks, fp, fs, {}, b);
    var x := blocks[b].(refCount := blocks[b].refCount - 1);
    QueueOkUpdateOther(blocks, fp, true, b, x);
    QueueOkUpdateOther(blocks, fs, false, b, x);
  }

  /** Dropping the last reference and queueing the block on its tier keeps the invariant. */
  lemma ReturnKeepsFreeLists(blocks: seq<KVCacheBlock>, fp: seq<nat>, fs: seq<nat>, b: nat, toFront: bool)
    requires FreeListsOk(blocks, fp, fs, {}) && b < |blocks| && blocks[b].refCount == 1
    ensures var nb := blocks[b := blocks[b].(refCount := 0, queued := true)];
            if IsPrimary(blocks[b]) then FreeListsOk(nb, Push(fp, b, toFront), fs, {})
            else FreeListsOk(nb, fp, Push(fs, b, toFront), {})
  {
    UnqueuedNotInQueues(blocks, fp, fs, {}, b);
    var x := blocks[b].(refCount := 0, queued := true);
    var nb := blocks[b := x];
    QueueOkUpdateOther(blocks, fp, true, b, x);
    QueueOkUpdateOther(blocks, fs, false, b, x);
    if IsPrimary(blocks[b]) {
      QueueOkPush(nb, fp, true, b, toFront);
      assert b in Push(fp, b, toFront);
      forall y | y in fp ensures y in Push(fp, b, toFront) { }
    } else {
      QueueOkPush(nb, fs, false, b, toFront);
      assert b in Push(fs, b, toFront);
      forall y | y in fs ensures y in Push(fs, b, toFront) { }
    }
  }

  /** Taking a block off its queue (if it is on one) keeps the invariant, with that block claimed. */
  lemma ClaimKeepsFreeLists(blocks: seq<KVCacheBlock>, fp: seq<nat>, fs: seq<nat>, claimed: set<nat>, b: nat)
    requires FreeListsOk(blocks, fp, fs, claimed) && b < |blocks|
    ensures var nb := blocks[b := blocks[b].(queued := false)];
            if blocks[b].queued && IsPrimary(blocks[b]) then b in fp && FreeListsOk(nb, Remove(fp, b), fs, claimed + {b})
            else if blocks[b].queued then b in fs && FreeListsOk(nb, fp, Remove(fs, b), claimed + {b})
            else FreeListsOk(nb, fp, fs, claimed + {b})
  {
    var x := blocks[b].(queued := false);
    var nb := blocks[b := x];
    if blocks[b].queued {
      if IsPrimary(blocks[b]) {
        if b in fs {
          QueueMember(blocks, fs, false, b);
        }
        QueueOkRemove(blocks, fp, true, b);
        RemoveFromDistinct(fp, b);
        QueueOkUpdateOther(blocks, Remove(fp, b), true, b, x);
        QueueOkUpdateOther(blocks, fs, false, b, x);
      } else {
        if b in fp {
          QueueMember(blocks, fp, true, b);
        }
        QueueOkRemove(blocks, fs, false, b);
        RemoveFromDistinct(fs, b);
        QueueOkUpdateOther(blocks, fp, true, b, x);
        QueueOkUpdateOther(blocks, Remove(fs, b), false, b, x);
      }
    } else {
      UnqueuedNotInQueues(blocks, fp, fs, claimed, b);
      QueueOkUpdateOther(blocks, fp, true, b, x);
      QueueOkUpdateOther(blocks, fs, false, b, x);
    }
  }

  /** Taking a reference to an unqueued block keeps the invariant and settles its claim. */
  lemma IncRefKeepsFreeLists(blocks: seq<KVCacheBlock>, fp: seq<nat>, fs: seq<nat>, claimed: set<nat>, b: nat)
    requires FreeListsOk(blocks, fp, fs, claimed) && b < |blocks| && !blocks[b].queued && blocks[b].refCount >= 0
    ensures FreeListsOk(blocks[b := blocks[b].(refCount := blocks[b].refCount + 1)], fp, fs, claimed - {b})
  {
    UnqueuedNotInQueues(blocks, fp, fs, claimed, b);
    var x := blocks[b].(refCount := blocks[b].refCount + 1);
    QueueOkUpdateOther(blocks, fp, true, b, x);
    QueueOkUpdateOther(blocks, fs, false, b, x);
  }

  /** swapMemoryPoolBlockOffset between b and p, with p put back on the secondary queue. */
  function SwapOffsets(blocks: seq<KVCacheBlock>, b: nat, p: nat): (r: seq<KVCacheBlock>)
    requires b < |blocks| && p < |blocks| && b != p
    ensures |r| == |blocks|
    ensures r[b].memoryPoolBlockOffset == blocks[p].memoryPoolBlockOffset
    ensures r[p].memoryPoolBlockOffset == blocks[b].memoryPoolBlockOffset
  {
    blocks[b := blocks[b].(memoryPoolBlockOffset := blocks[p].memoryPoolBlockOffset)]
          [p := blocks[p].(memoryPoolBlockOffset := blocks[b].memoryPoolBlockOffset, queued := true)]
  }

  /**
    Onboarding swaps the pool offsets of a claimed secondary block b and a
    claimed primary block p, and queues p (now secondary) at the back of the
    secondary queue: the queues stay consistent, the tree and the reference
    counts are untouched.
  */
  lemma SwapKeepsFreeLists(blocks: seq<KVCacheBlock>, fp: seq<nat>, fs: seq<nat>, claimed: set<nat>, b: nat, p: nat)
    requires FreeListsOk(blocks, fp, fs, claimed + {p}) && b < |blocks| && p < |blocks| && b != p
    requires !blocks[b].queued && !blocks[p].queued && blocks[p].refCount == 0 && IsPrimary(blocks[p]) && !IsPrimary(blocks[b])
    ensures var nb := SwapOffsets(blocks, b, p);
            FreeListsOk(nb, fp, fs + [p], claimed) && IsPrimary(nb[b]) && !nb[b].queued
            && (LinksOk(blocks) ==> LinksOk(nb))
            && (forall root :: TreeSame(blocks, root, nb, root))
            && forall x :: 0 <= x < |blocks| ==> nb[x].refCount == blocks[x].refCount
  {
    UnqueuedNotInQueues(blocks, fp, fs, claimed + {p}, b);
    UnqueuedNotInQueues(blocks, fp, fs, claimed + {p}, p);
    var x := blocks[b].(memoryPoolBlockOffset := blocks[p].memoryPoolBlockOffset);
    var y := blocks[p].(memoryPoolBlockOffset := blocks[b].memoryPoolBlockOffset, queued := true);
    var b1 := blocks[b := x];
    QueueOkUpdateOther(blocks, fp, true, b, x);
    QueueOkUpdateOther(blocks, fs, false, b, x);
    QueueOkUpdateOther(b1, fp, true, p, y);
    QueueOkUpdateOther(b1, fs, false, p, y);
    var nb := b1[p := y];
    assert nb == SwapOffsets(blocks, b, p);
    QueueOkPush(nb, fs, false, p, false);
    assert Push(fs, p, false) == fs + [p];
    forall z | z in fs ensures z in fs + [p] { }
  }

  /** Shrinking twice is shrinking. */
  lemma TreeShrunkTrans(b0: seq<KVCacheBlock>, r0: NextBlocks, b1: seq<KVCacheBlock>, r1: NextBlocks,
                        b2: seq<KVCacheBlock>, r2: NextBlocks)
    requires TreeShrunk(b0, r0, b1, r1) && TreeShrunk(b1, r1, b2, r2)
    ensures TreeShrunk(b0, r0, b2, r2)
  {
  }

  /** Appending a block to one sequence's list adds exactly one holding of it. */
  lemma HeldAppend(lists: seq<seq<nat>>, s: nat, b: nat)
    requires s < |lists|
    ensures Held(lists[s := lists[s] + [b]]) == Held(lists) + multiset{b}
  {
    HeldUpdate(lists, s, lists[s] + [b]);
    HeldContains(lists, s);
  }

  /** One more holding of b and one more reference to it keep the counts matched. */
  lemma RefsMatchInc(blocks: seq<KVCacheBlock>, held: multiset<nat>, b: nat)
    requires RefsMatch(blocks, held) && b < |blocks|
    ensures RefsMatch(blocks[b := blocks[b].(refCount := blocks[b].refCount + 1)], held + multiset{b})
  {
  }

  /** Dropping a sequence's last block takes exactly one holding of it away. */
  lemma DropLastHeld(lists: seq<seq<nat>>, slot: nat)
    requires slot < |lists| && lists[slot] != []
    ensures var l := lists[slot];
            Held(lists) == Held(lists[slot := l[..|l| - 1]]) + multiset{l[|l| - 1]}
  {
    var l := lists[slot];
    var shorter := lists[slot := l[..|l| - 1]];
    assert l == l[..|l| - 1] + [l[|l| - 1]];
    HeldAppend(shorter, slot, l[|l| - 1]);
    assert shorter[slot := shorter[slot] + [l[|l| - 1]]] == lists;
  }

  /** Shortening one list keeps every list in range. */
  lemma DropLastInRange(lists: seq<seq<nat>>, slot: nat, n: nat)
    requires slot < |lists| && lists[slot] != [] && ListsInRange(lists, n)
    ensures var l := lists[slot];
            ListsInRange(lists[slot := l[..|l| - 1]], n)
  {
    var l := lists[slot];
    var shorter := lists[slot := l[..|l| - 1]];
    forall t, i | 0 <= t < |shorter| && 0 <= i < |shorter[t]| ensures shorter[t][i] < n {
      assert shorter[t][i] == lists[t][i];
    }
  }

  /** A sequence dropping its last block, whose count fell by one, keeps the counts matched and in range. */
  lemma DropLastKeepsRefs(blocks: seq<KVCacheBlock>, blocks': seq<KVCacheBlock>, lists: seq<seq<nat>>, slot: nat)
    requires slot < |lists| && lists[slot] != []
    requires ListsInRange(lists, |blocks|) && RefsMatch(blocks, Held(lists)) && |blocks'| == |blocks|
    requires var l := lists[slot];
             var b := l[|l| - 1];
             blocks'[b].refCount == blocks[b].refCount - 1
             && forall x :: 0 <= x < |blocks| && x != b ==> blocks'[x].refCount == blocks[x].refCount
    ensures var l := lists[slot];
            ListsInRange(lists[slot := l[..|l| - 1]], |blocks'|) && RefsMatch(blocks', Held(lists[slot := l[..|l| - 1]]))
  {
    var l := lists[slot];
    var b := l[|l| - 1];
    var shorter := lists[slot := l[..|l| - 1]];
    DropLastHeld(lists, slot);
    DropLastInRange(lists, slot, |blocks|);
    var held, rest := Held(lists), Held(shorter);
    assert held == rest + multiset{b};
    assert b in held;
    assert held - multiset{b} == rest;
    assert b < |blocks| by { assert lists[slot][|l| - 1] == b; }
    ReleaseOneKeepsRefs(blocks, blocks', held, b);
  }

  /** Releasing one holding of b, whose count fell by one, keeps the counts matched. */
  lemma ReleaseOneKeepsRefs(blocks: seq<KVCacheBlock>, blocks': seq<KVCacheBlock>, held: multiset<nat>, b: nat)
    requires b < |blocks| == |blocks'| && RefsMatch(blocks, held) && b in held
    requires blocks'[b].refCount == blocks[b].refCount - 1
    requires forall x :: 0 <= x < |blocks| && x != b ==> blocks'[x].refCount == blocks[x].refCount
    ensures RefsMatch(blocks', held - multiset{b})
  {
  }

  /** What releasing blocks changes: the arena and the two free queues. */
  datatype FreeState = FreeState(blocks: seq<KVCacheBlock>, primary: seq<nat>, secondary: seq<nat>)

  /**
    releaseBlock on a free state: a held block loses one reference; one
    that loses its last goes onto its tier's free queue, at the front when
    `toFront` and at the back otherwise.  An unreferenced block is left
    alone (decRefCount's check fails).
  */
  function ReleaseOne(s: FreeState, b: nat, toFront: bool): (r: FreeState)
    requires b < |s.blocks|
    ensures |r.blocks| == |s.blocks|
  {
    var blk := s.blocks[b];
    if blk.refCount <= 0 then s
    else if blk.refCount > 1 then s.(blocks := s.blocks[b := blk.(refCount := blk.refCount - 1)])
    else
      var nb := s.blocks[b := blk.(refCount := 0, queued := true)];
      if IsPrimary(blk) then FreeState(nb, Push(s.primary, b, toFront), s.secondary)
      else FreeState(nb, s.primary, Push(s.secondary, b, toFront))
  }

  /** The releasing loop of releaseBlocks: the blocks of l released in list order, each to the back of its queue. */
  function ReleaseAll(s: FreeState, l: seq<nat>): (r: FreeState)
    requires forall j :: 0 <= j < |l| ==> l[j] < |s.blocks|
    ensures |r.blocks| == |s.blocks|
    decreases |l|
  {
    if l == [] then s else ReleaseOne(ReleaseAll(s, l[..|l| - 1]), l[|l| - 1], false)
  }

  /** Releasing l1 + l2 is releasing l1, then l2: the loop goes through the list in order. */
  lemma {:induction false} ReleaseAllSplit(s: FreeState, l1: seq<nat>, l2: seq<nat>)
    requires forall j :: 0 <= j < |l1| ==> l1[j] < |s.blocks|
    requires forall j :: 0 <= j < |l2| ==> l2[j] < |s.blocks|
    ensures ReleaseAll(s, l1 + l2) == ReleaseAll(ReleaseAll(s, l1), l2)
    decreases |l2|
  {
    if l2 == [] {
      assert l1 + l2 == l1;
    } else {
      var l2' := l2[..|l2| - 1];
      assert (l1 + l2)[..|l1 + l2| - 1] == l1 + l2';
      ReleaseAllSplit(s, l1, l2');
    }
  }

  /**
    Releasing only appends to the free queues, at the back, and changes no
    block field but the reference count and the queued flag.
  */
  lemma {:induction false} ReleaseAllAppends(s: FreeState, l: seq<nat>)
    requires forall j :: 0 <= j < |l| ==> l[j] < |s.blocks|
    ensures var r := ReleaseAll(s, l);
            |s.primary| <= |r.primary| && r.primary[..|s.primary|] == s.primary
            && |s.secondary| <= |r.secondary| && r.secondary[..|s.secondary|] == s.secondary
            && forall x :: 0 <= x < |s.blocks| ==>
                 r.blocks[x] == s.blocks[x].(refCount := r.blocks[x].refCount, queued := r.blocks[x].queued)
    decreases |l|
  {
    if l != [] {
      var l' := l[..|l| - 1];
      ReleaseAllAppends(s, l');
      var m := ReleaseAll(s, l');
      var r := ReleaseAll(s, l);
      assert r.primary[..|m.primary|] == m.primary;
      assert r.secondary[..|m.secondary|] == m.secondary;
      assert r.primary[..|s.primary|] == m.primary[..|m.primary|][..|s.primary|];
      assert r.secondary[..|s.secondary|] == m.secondary[..|m.secondary|][..|s.secondary|];
    }
  }

  /**
    r is s after releasing the blocks of l: each count fell by its
    multiplicity in l, every tier is kept, and a block of l whose count
    reached zero is queued on its own tier's free queue.
  */
  predicate Freed(s: FreeState, l: seq<nat>, r: FreeState)
  {
    |r.blocks| == |s.blocks|
    && forall x :: 0 <= x < |s.blocks| ==>
         r.blocks[x].refCount == s.blocks[x].refCount - multiset(l)[x]
         && IsPrimary(r.blocks[x]) == IsPrimary(s.blocks[x])
         && (x in l && r.blocks[x].refCount == 0 ==>
               r.blocks[x].queued && x in (if IsPrimary(s.blocks[x]) then r.primary else r.secondary))
  }

  /** When every block of l is held at least as often as l lists it, releasing l frees it as Freed says. */
  lemma {:induction false} ReleaseAllFrees(s: FreeState, l: seq<nat>)
    requires forall j :: 0 <= j < |l| ==> l[j] < |s.blocks|
    requires forall j :: 0 <= j < |l| ==> multiset(l)[l[j]] <= s.blocks[l[j]].refCount
    ensures Freed(s, l, ReleaseAll(s, l))
    decreases |l|
  {
    if l != [] {
      var l' := l[..|l| - 1];
      var y := l[|l| - 1];
      assert l == l' + [y];
      assert multiset(l) == multiset(l') + multiset{y};
      forall j | 0 <= j < |l'| ensures multiset(l')[l'[j]] <= s.blocks[l'[j]].refCount {
        assert l'[j] == l[j];
      }
      ReleaseAllFrees(s, l');
      FreedStep(s, l', y, ReleaseAll(s, l'));
    }
  }

  /** Releasing one more block y that is still held extends Freed by y. */
  lemma FreedStep(s: FreeState, l: seq<nat>, y: nat, m: FreeState)
    requires Freed(s, l, m) && y < |s.blocks| && multiset(l)[y] < s.blocks[y].refCount
    ensures Freed(s, l + [y], ReleaseOne(m, y, false))
  {
    ReleaseOneEffect(m, y, false);
    var r := ReleaseOne(m, y, false);
    assert multiset(l + [y]) == multiset(l) + multiset{y};
    forall x | 0 <= x < |s.blocks|
      ensures r.blocks[x].refCount == s.blocks[x].refCount - multiset(l + [y])[x]
      ensures IsPrimary(r.blocks[x]) == IsPrimary(s.blocks[x])
      ensures x in l + [y] && r.blocks[x].refCount == 0 ==>
                r.blocks[x].queued && x in (if IsPrimary(s.blocks[x]) then r.primary else r.secondary)
    {
      if x != y && x in l + [y] {
        var j :| 0 <= j < |l + [y]| && (l + [y])[j] == x;
        assert j < |l| && l[j] == x;
      }
    }
  }

  /**
    One release of a held block: only its count changes, by one; the
    queues keep their entries and gain the block when its count reaches
    zero.
  */
  lemma ReleaseOneEffect(s: FreeState, b: nat, toFront: bool)
    requires b < |s.blocks| && s.blocks[b].refCount >= 1
    ensures var r := ReleaseOne(s, b, toFront);
            r.blocks[b].refCount == s.blocks[b].refCount - 1
            && IsPrimary(r.blocks[b]) == IsPrimary(s.blocks[b])
            && (forall x :: 0 <= x < |s.blocks| && x != b ==> r.blocks[x] == s.blocks[x])
            && (forall x :: x in s.primary ==> x in r.primary)
            && (forall x :: x in s.secondary ==> x in r.secondary)
            && (r.blocks[b].refCount == 0 ==>
                  r.blocks[b].queued && b in (if IsPrimary(s.blocks[b]) then r.primary else r.secondary))
  {
  }

  /**
    The releasing loop after i blocks of l: the queues and links are sound,
    the counts match the holdings less those released, the rest of l is
    still held, the tree is as before, and the state is that of releasing
    the first i blocks of l in order.
  */
  predicate ReleaseOk(blocks0: seq<KVCacheBlock>, fp0: seq<nat>, fs0: seq<nat>, root: NextBlocks, held: multiset<nat>,
                      l: seq<nat>, i: nat, blocks: seq<KVCacheBlock>, fp: seq<nat>, fs: seq<nat>)
  {
    i <= |l| && FreeListsOk(blocks, fp, fs, {}) && LinksOk(blocks)
    && RefsMatch(blocks, held - multiset(l[..i])) && multiset(l[i..]) <= held - multiset(l[..i])
    && TreeSame(blocks0, root, blocks, root)
    && (forall j :: 0 <= j < |l| ==> l[j] < |blocks0|)
    && FreeState(blocks, fp, fs) == ReleaseAll(FreeState(blocks0, fp0, fs0), l[..i])
  }

  /** The next block of the releasing loop is still held, so releasing it succeeds. */
  lemma ReleaseNextHeld(blocks0: seq<KVCacheBlock>, fp0: seq<nat>, fs0: seq<nat>, root: NextBlocks, held: multiset<nat>,
                        l: seq<nat>, i: nat, blocks: seq<KVCacheBlock>, fp: seq<nat>, fs: seq<nat>)
    requires ReleaseOk(blocks0, fp0, fs0, root, held, l, i, blocks, fp, fs) && i < |l| && l[i] < |blocks|
    ensures blocks[l[i]].refCount > 0
  {
    assert l[i..] == [l[i]] + l[i + 1..];
    assert l[i] in multiset(l[i..]);
  }

  /** Releasing the i-th block of l, whose count falls by one, moves the loop one step. */
  lemma ReleaseStepOk(blocks0: seq<KVCacheBlock>, fp0: seq<nat>, fs0: seq<nat>, root: NextBlocks, held: multiset<nat>,
                      l: seq<nat>, i: nat, blocks: seq<KVCacheBlock>, fp: seq<nat>, fs: seq<nat>,
                      blocks': seq<KVCacheBlock>, fp': seq<nat>, fs': seq<nat>)
    requires i < |l| && l[i] < |blocks| == |blocks'|
    requires ReleaseOk(blocks0, fp0, fs0, root, held, l, i, blocks, fp, fs)
    requires FreeState(blocks', fp', fs') == ReleaseOne(FreeState(blocks, fp, fs), l[i], false)
    requires FreeListsOk(blocks', fp', fs', {}) && LinksOk(blocks')
    requires blocks'[l[i]].refCount == blocks[l[i]].refCount - 1
    requires forall x :: 0 <= x < |blocks| && x != l[i] ==> blocks'[x].refCount == blocks[x].refCount
    requires forall x :: 0 <= x < |blocks| ==> blocks'[x].next == blocks[x].next && blocks'[x].isFull == blocks[x].isFull
    ensures ReleaseOk(blocks0, fp0, fs0, root, held, l, i + 1, blocks', fp', fs')
  {
    var b := l[i];
    assert l[i..] == [b] + l[i + 1..];
    assert l[..i + 1] == l[..i] + [b];
    ReleaseAllSnoc(FreeState(blocks0, fp0, fs0), l, i);
    ReleaseOneKeepsRefs(blocks, blocks', held - multiset(l[..i]), b);
  }

  /** Releasing the first i + 1 blocks of l is releasing the first i, then l[i]. */
  lemma ReleaseAllSnoc(s: FreeState, l: seq<nat>, i: nat)
    requires i < |l| && forall j :: 0 <= j < |l| ==> l[j] < |s.blocks|
    ensures ReleaseAll(s, l[..i + 1]) == ReleaseOne(ReleaseAll(s, l[..i]), l[i], false)
  {
    assert l[..i + 1][..i] == l[..i];
  }

  /** Once a slot's whole list is released, the slot can be emptied: the invariant holds again. */
  lemma ReleaseAllOk(blocksS: seq<KVCacheBlock>, lists: seq<seq<nat>>, slot: nat,
                     blocks: seq<KVCacheBlock>, fp: seq<nat>, fs: seq<nat>)
    requires slot < |lists| && ListsInRange(lists, |blocksS|) && RefsMatch(blocksS, Held(lists)) && |blocks| == |blocksS|
    requires FreeListsOk(blocks, fp, fs, {}) && LinksOk(blocks) && RefsMatch(blocks, Held(lists) - multiset(lists[slot]))
    ensures StateOk(blocks, fp, fs, lists[slot := []], {})
    ensures forall b :: 0 <= b < |blocks| ==> blocks[b].refCount == blocksS[b].refCount - multiset(lists[slot])[b]
  {
    HeldUpdate(lists, slot, []);
    HeldContains(lists, slot);
    var lists' := lists[slot := []];
    forall s, j | 0 <= s < |lists'| && 0 <= j < |lists'[s]| ensures lists'[s][j] < |blocks| {
      assert lists'[s][j] == lists[s][j];
    }
  }

  /** The whole bookkeeping invariant over the manager's state, with `claimed` blocks in transit. */
  predicate StateOk(blocks: seq<KVCacheBlock>, fp: seq<nat>, fs: seq<nat>, lists: seq<seq<nat>>, claimed: set<nat>)
  {
    FreeListsOk(blocks, fp, fs, claimed) && LinksOk(blocks) && ListsInRange(lists, |blocks|) && RefsMatch(blocks, Held(lists))
  }

  /** A sequence taking a reference to an unqueued block keeps the state consistent. */
  lemma AddToBeamKeepsState(blocks: seq<KVCacheBlock>, fp: seq<nat>, fs: seq<nat>, lists: seq<seq<nat>>,
                            claimed: set<nat>, b: nat, slot: nat)
    requires StateOk(blocks, fp, fs, lists, claimed) && b < |blocks| && !blocks[b].queued && slot < |lists|
    ensures StateOk(blocks[b := blocks[b].(refCount := blocks[b].refCount + 1)], fp, fs,
                    lists[slot := lists[slot] + [b]], claimed - {b})
  {
    HeldAppend(lists, slot, b);
    RefsMatchInc(blocks, Held(lists), b);
    assert blocks[b].refCount >= 0;
    IncRefKeepsFreeLists(blocks, fp, fs, claimed, b);
    var newLists := lists[slot := lists[slot] + [b]];
    forall t, i | 0 <= t < |newLists| && 0 <= i < |newLists[t]| ensures newLists[t][i] < |blocks| {
      if t == slot && i == |lists[t]| {
        assert newLists[t][i] == b;
      } else if t == slot {
        assert newLists[t][i] == lists[t][i];
      }
    }
  }

  /** The first block of a queue that the eviction search accepts. */
  function FirstCandidate(blocks: seq<KVCacheBlock>, q: seq<nat>): (r: Option<nat>)
    ensures r.Some? ==> r.value in q && EvictionCandidate(blocks, r.value)
    ensures r.None? <==> forall i :: 0 <= i < |q| ==> !EvictionCandidate(blocks, q[i])
  {
    if q == [] then None
    else if EvictionCandidate(blocks, q[0]) then Some(q[0])
    else
      var r := FirstCandidate(blocks, q[1..]);
      assert forall i :: 1 <= i < |q| ==> q[i] == q[1..][i - 1];
      r
  }

  /** Allocation takes the front of the queue whenever that block is a candidate. */
  lemma FrontFirst(blocks: seq<KVCacheBlock>, q: seq<nat>)
    requires |q| > 0 && EvictionCandidate(blocks, q[0])
    ensures FirstCandidate(blocks, q) == Some(q[0])
  {
  }

  /** The search passes over exactly the blocks before the chosen one. */
  lemma {:induction false} FirstCandidateIsFirst(blocks: seq<KVCacheBlock>, q: seq<nat>, j: nat)
    requires FirstCandidate(blocks, q).Some? && j < |q| && q[j] == FirstCandidate(blocks, q).value
    requires Distinct(q)
    ensures forall i :: 0 <= i < j ==> !EvictionCandidate(blocks, q[i])
  {
    if !EvictionCandidate(blocks, q[0]) {
      assert j > 0;
      assert Distinct(q[1..]) by {
        forall a, b | 0 <= a < b < |q[1..]| ensures q[1..][a] != q[1..][b] {
          assert q[1..][a] == q[a + 1] && q[1..][b] == q[b + 1];
        }
      }
      assert q[1..][j - 1] == q[j];
      FirstCandidateIsFirst(blocks, q[1..], j - 1);
      forall i | 1 <= i < j ensures !EvictionCandidate(blocks, q[i]) {
        assert q[i] == q[1..][i - 1];
      }
    } else {
      assert q[0] == q[j];
    }
  }

  /**
    freeLeafBlock: detach the block from its parent (the parent forgets the
    edge keyed by the block's tokens) and clear its back link.
  */
  function FreeLeaf(blocks: seq<KVCacheBlock>, root: NextBlocks, b: nat): (r: (seq<KVCacheBlock>, NextBlocks))
    requires b < |blocks| && LinksOk(blocks)
    ensures |r.0| == |blocks| && r.0[b].prev == NoLink
    ensures blocks[b].prev.RootLink? ==> r.1 == root - {blocks[b].tokens}
    ensures !blocks[b].prev.RootLink? ==> r.1 == root
    ensures blocks[b].prev.BlockLink? && blocks[b].prev.idx != b ==>
              r.0[blocks[b].prev.idx].next == blocks[blocks[b].prev.idx].next - {blocks[b].tokens}
  {
    var bb := blocks[b];
    match bb.prev
    case NoLink => (blocks[b := bb.(prev := NoLink)], root)
    case RootLink => (blocks[b := bb.(prev := NoLink)], root - {bb.tokens})
    case BlockLink(p) =>
      var blocks1 := blocks[p := blocks[p].(next := blocks[p].next - {bb.tokens})];
      (blocks1[b := blocks1[b].(prev := NoLink)], root)
  }

  /** Detaching only removes an edge: the tree shrinks and queue state is untouched. */
  lemma FreeLeafShrinks(blocks: seq<KVCacheBlock>, root: NextBlocks, b: nat)
    requires b < |blocks| && LinksOk(blocks)
    ensures var r := FreeLeaf(blocks, root, b);
            TreeShrunk(blocks, root, r.0, r.1) && LinksOk(r.0)
            && forall x :: 0 <= x < |blocks| ==>
                 r.0[x].refCount == blocks[x].refCount && r.0[x].queued == blocks[x].queued
                 && r.0[x].memoryPoolBlockOffset == blocks[x].memoryPoolBlockOffset
                 && r.0[x].schedulingRefCount == blocks[x].schedulingRefCount
  {
  }

  /** The blocks the non-reusing addSequence takes: one per position, one per beam at the unshared position. */
  function BlocksForSequence(numBlocks: nat, unsharedBlockIdx: int, beamWidth: nat): nat
  {
    if 0 <= unsharedBlockIdx < numBlocks then numBlocks - 1 + beamWidth else numBlocks
  }

  /** Every block's scheduling reference count. */
  function SchedCounts(blocks: seq<KVCacheBlock>): (r: seq<int>)
    ensures |r| == |blocks| && forall b :: 0 <= b < |blocks| ==> r[b] == blocks[b].schedulingRefCount
  {
    seq(|blocks|, b requires 0 <= b < |blocks| => blocks[b].schedulingRefCount)
  }

  /**
    schedulingReleaseBlocks on scheduling counts alone: every held block
    loses one scheduling reference, and each block left without scheduling
    references adds one to the simulated free count.
  */
  function SchedRelease(counts: seq<int>, held: seq<nat>): (r: (seq<int>, nat))
    requires forall i :: 0 <= i < |held| ==> held[i] < |counts|
    ensures |r.0| == |counts|
    decreases |held|
  {
    if held == [] then (counts, 0)
    else
      var b := held[0];
      var c := counts[b := counts[b] - 1];
      var rest := SchedRelease(c, held[1..]);
      (rest.0, rest.1 + if c[b] > 0 then 0 else 1)
  }

  /** The simulation frees at most one block per held entry. */
  lemma {:induction false} SchedReleaseBound(counts: seq<int>, held: seq<nat>)
    requires forall i :: 0 <= i < |held| ==> held[i] < |counts|
    ensures SchedRelease(counts, held).1 <= |held|
    decreases |held|
  {
    if held != [] {
      var b := held[0];
      SchedReleaseBound(counts[b := counts[b] - 1], held[1..]);
    }
  }

  /**
    A sequence that is the sole scheduling owner of distinct blocks frees
    every one of them in the simulation.
  */
  lemma {:induction false} SchedReleaseSoleOwner(counts: seq<int>, held: seq<nat>)
    requires forall i :: 0 <= i < |held| ==> held[i] < |counts| && counts[held[i]] == 1
    requires Distinct(held)
    ensures SchedRelease(counts, held).1 == |held|
    decreases |held|
  {
    if held != [] {
      var b := held[0];
      var c := counts[b := counts[b] - 1];
      forall i | 0 <= i < |held[1..]| ensures held[1..][i] < |c| && c[held[1..][i]] == 1 {
        assert held[1..][i] == held[i + 1] != b;
      }
      assert Distinct(held[1..]) by {
        forall i, j | 0 <= i < j < |held[1..]| ensures held[1..][i] != held[1..][j] {
          assert held[1..][i] == held[i + 1] && held[1..][j] == held[j + 1];
        }
      }
      SchedReleaseSoleOwner(c, held[1..]);
    }
  }

  /** A block still shared in the simulation is not counted free when one holder lets go. */
  lemma SchedReleaseShared(counts: seq<int>, b: nat)
    requires b < |counts| && counts[b] > 1
    ensures SchedRelease(counts, [b]).1 == 0
  {
    assert [b][1..] == [];
  }

  /** The tree has only gained edges: every children map grew. */
  predicate TreeGrown(old0: seq<KVCacheBlock>, oldRoot: NextBlocks, blocks: seq<KVCacheBlock>, root: NextBlocks)
  {
    |blocks| == |old0| && SubMap(oldRoot, root)
    && forall b :: 0 <= b < |blocks| ==> SubMap(old0[b].next, blocks[b].next)
  }

  /** Only the tree fields changed: reference counts, queue membership and pool offsets are as before. */
  predicate SameBookkeeping(old0: seq<KVCacheBlock>, blocks: seq<KVCacheBlock>)
  {
    |blocks| == |old0|
    && forall b :: 0 <= b < |blocks| ==>
         blocks[b].refCount == old0[b].refCount && blocks[b].queued == old0[b].queued
         && blocks[b].memoryPoolBlockOffset == old0[b].memoryPoolBlockOffset
  }

  /** The bookkeeping invariant does not look at the tree fields. */
  lemma BookkeepingTransfer(old0: seq<KVCacheBlock>, blocks: seq<KVCacheBlock>, fp: seq<nat>, fs: seq<nat>,
                            lists: seq<seq<nat>>, claimed: set<nat>)
    requires StateOk(old0, fp, fs, lists, claimed) && SameBookkeeping(old0, blocks) && LinksOk(blocks)
    ensures StateOk(blocks, fp, fs, lists, claimed)
  {
  }

  /**
    storeBlocks after i chunks: while matching, the tree is untouched and
    the cursor is the walk's i-th position; once the k-th chunk (k the
    length of the reuse walk) missed, it is a child of the walk's end
    (the sequence's block ids[k] if the key was free), every later chunk
    is a child of the block before it, and the cursor is the last block
    stored.
  */
  predicate StoreOk(old0: seq<KVCacheBlock>, oldRoot: NextBlocks, chunks: seq<seq<TokenId>>, ids: seq<int>,
                    blocks: seq<KVCacheBlock>, root: NextBlocks, i: nat, cursor: Link, needMatch: bool)
  {
    var path := MatchFrom(old0, oldRoot, chunks);
    var k := |path|;
    i <= |chunks| && |ids| >= |chunks| && (forall j :: 0 <= j < |chunks| ==> 0 <= ids[j] < |blocks|)
    && SameBookkeeping(old0, blocks) && TreeGrown(old0, oldRoot, blocks, root)
    && cursor != NoLink && (cursor.BlockLink? ==> cursor.idx < |blocks|)
    && (needMatch ==>
          i <= k && TreeSame(old0, oldRoot, blocks, root)
          && cursor == if i == 0 then RootLink else BlockLink(path[i - 1]))
    && (!needMatch ==>
          k < i && cursor == BlockLink(ids[i - 1])
          && chunks[k] in ChildrenAt(blocks, root, path)
          && (chunks[k] !in ChildrenAt(old0, oldRoot, path) ==> ChildrenAt(blocks, root, path)[chunks[k]] == ids[k]))
    && (forall j :: k < j < i ==> chunks[j] in blocks[ids[j - 1]].next)
  }

  /**
    What storeBlocks leaves: only the tree changed and it only grew; the
    first chunk past the reuse walk is a child of the walk's end (the
    sequence's block at that position if the key was free), and every
    later chunk is a child of the sequence's block before it.
  */
  predicate StoredChain(old0: seq<KVCacheBlock>, oldRoot: NextBlocks, chunks: seq<seq<TokenId>>, ids: seq<int>,
                        blocks: seq<KVCacheBlock>, root: NextBlocks)
  {
    var path := MatchFrom(old0, oldRoot, chunks);
    var k := |path|;
    SameBookkeeping(old0, blocks) && TreeGrown(old0, oldRoot, blocks, root)
    && |ids| >= |chunks| && (forall j :: 0 <= j < |chunks| ==> 0 <= ids[j] < |blocks|)
    && (k < |chunks| ==> chunks[k] in ChildrenAt(blocks, root, path)
                         && (chunks[k] !in ChildrenAt(old0, oldRoot, path) ==> ChildrenAt(blocks, root, path)[chunks[k]] == ids[k]))
    && (forall j :: k < j < |chunks| ==> chunks[j] in blocks[ids[j - 1]].next)
  }

  /** storeBlocks after every chunk has left the chain StoredChain describes. */
  lemma StoreDone(old0: seq<KVCacheBlock>, oldRoot: NextBlocks, chunks: seq<seq<TokenId>>, ids: seq<int>,
                  blocks: seq<KVCacheBlock>, root: NextBlocks, cursor: Link, needMatch: bool)
    requires StoreOk(old0, oldRoot, chunks, ids, blocks, root, |chunks|, cursor, needMatch)
    ensures StoredChain(old0, oldRoot, chunks, ids, blocks, root)
  {
    var path := MatchFrom(old0, oldRoot, chunks);
    if needMatch {
      assert |path| == |chunks|;
    }
  }

  /** Linking chunk i into block ids[i] under the cursor stores it and ends matching. */
  lemma StoreLinkOk(old0: seq<KVCacheBlock>, oldRoot: NextBlocks, chunks: seq<seq<TokenId>>, ids: seq<int>,
                    blocks: seq<KVCacheBlock>, root: NextBlocks, blocks': seq<KVCacheBlock>, root': NextBlocks,
                    i: nat, cursor: Link, needMatch: bool)
    requires i < |chunks| && StoreOk(old0, oldRoot, chunks, ids, blocks, root, i, cursor, needMatch)
    requires needMatch ==> i == |MatchFrom(old0, oldRoot, chunks)|
    requires SameBookkeeping(blocks, blocks') && TreeGrown(blocks, root, blocks', root')
    requires chunks[i] in NextAt(blocks', root', cursor)
    requires chunks[i] !in NextAt(blocks, root, cursor) ==> NextAt(blocks', root', cursor)[chunks[i]] == ids[i]
    ensures StoreOk(old0, oldRoot, chunks, ids, blocks', root', i + 1, BlockLink(ids[i]), false)
  {
    var path := MatchFrom(old0, oldRoot, chunks);
    var k := |path|;
    if needMatch {
      assert NextAt(blocks, root, cursor) == ChildrenAt(blocks, root, path) == ChildrenAt(old0, oldRoot, path);
      assert NextAt(blocks', root', cursor) == ChildrenAt(blocks', root', path);
    }
    ChildrenAtGrows(blocks, root, blocks', root', path);
    forall j | k < j <= i ensures chunks[j] in blocks'[ids[j - 1]].next {
      if j < i {
        assert SubMap(blocks[ids[j - 1]].next, blocks'[ids[j - 1]].next);
      }
    }
  }

  /** The walk position's children only grow with the tree. */
  lemma ChildrenAtGrows(b0: seq<KVCacheBlock>, r0: NextBlocks, b1: seq<KVCacheBlock>, r1: NextBlocks, path: seq<nat>)
    requires TreeGrown(b0, r0, b1, r1)
    ensures SubMap(ChildrenAt(b0, r0, path), ChildrenAt(b1, r1, path))
  {
  }

  /**
    One step of a walk over an unchanged tree: at position i of the reuse
    walk the lookup finds the walk's next block, and past its end it finds
    nothing.
  */
  lemma WalkStep(old0: seq<KVCacheBlock>, oldRoot: NextBlocks, blocks: seq<KVCacheBlock>, root: NextBlocks,
                 chunks: seq<seq<TokenId>>, i: nat, here: NextBlocks)
    requires TreeSame(old0, oldRoot, blocks, root)
    requires i < |chunks| && i <= |MatchFrom(old0, oldRoot, chunks)|
    requires var path := MatchFrom(old0, oldRoot, chunks);
             here == if i == 0 then root else blocks[path[i - 1]].next
    ensures var path := MatchFrom(old0, oldRoot, chunks);
            var f := FindMatching(blocks, here, chunks[i]);
            (i < |path| ==> f == Some(path[i])) && (i == |path| ==> f == None)
  {
    var path := MatchFrom(old0, oldRoot, chunks);
    MatchStep(old0, oldRoot, chunks, i);
    assert here == ChildrenAt(old0, oldRoot, path[..i]) by {
      if i > 0 {
        assert path[..i][i - 1] == path[i - 1];
      }
    }
  }

  /** The number of tokens in a list of chunks. */
  function TokenCount(chunks: seq<seq<TokenId>>): nat
  {
    if chunks == [] then 0 else TokenCount(chunks[..|chunks| - 1]) + |chunks[|chunks| - 1]|
  }

  /** Matching one more chunk adds its length. */
  lemma TokenCountStep(chunks: seq<seq<TokenId>>, m: nat)
    requires m < |chunks|
    ensures TokenCount(chunks[..m + 1]) == TokenCount(chunks[..m]) + |chunks[m]|
  {
    assert chunks[..m + 1][..m] == chunks[..m];
  }

  /**
    One step of a walk over a tree that has only lost edges: whatever the
    lookup finds is the reuse walk's next block on the tree as it was.
  */
  lemma WalkStepShrunk(old0: seq<KVCacheBlock>, oldRoot: NextBlocks, blocks: seq<KVCacheBlock>, root: NextBlocks,
                       chunks: seq<seq<TokenId>>, i: nat, here: NextBlocks)
    requires TreeShrunk(old0, oldRoot, blocks, root)
    requires i < |chunks| && i <= |MatchFrom(old0, oldRoot, chunks)|
    requires var path := MatchFrom(old0, oldRoot, chunks);
             here == if i == 0 then root else blocks[path[i - 1]].next
    ensures var path := MatchFrom(old0, oldRoot, chunks);
            var f := FindMatching(blocks, here, chunks[i]);
            f.Some? ==> i < |path| && f.value == path[i]
  {
    var path := MatchFrom(old0, oldRoot, chunks);
    MatchStep(old0, oldRoot, chunks, i);
    var there := ChildrenAt(old0, oldRoot, path[..i]);
    assert SubMap(here, there) by {
      if i > 0 {
        assert path[..i][i - 1] == path[i - 1];
      }
    }
    FindMatchingShrunk(old0, blocks, there, here, chunks[i]);
  }

  /** A slot's list is its list before the walk, then i blocks of which the first m are the walk's. */
  predicate SlotOk(a: seq<nat>, held0: seq<nat>, i: nat, m: nat, path: seq<nat>)
  {
    |a| == |held0| + i && m <= i && m <= |path| && a[..|held0|] == held0 && a[|held0|..|held0| + m] == path[..m]
  }

  /** Appending one block to a slot's list extends the part added since `held0`. */
  lemma SlotOkAppend(a: seq<nat>, held0: seq<nat>, i: nat, m: nat, path: seq<nat>, x: nat)
    requires SlotOk(a, held0, i, m, path)
    ensures SlotOk(a + [x], held0, i + 1, m, path)
    ensures (a + [x])[|held0|..] == a[|held0|..] + [x]
    ensures i == m && m < |path| && x == path[m] ==> SlotOk(a + [x], held0, i + 1, m + 1, path)
  {
    assert (a + [x])[..|held0|] == held0;
    assert (a + [x])[|held0|..|held0| + m] == path[..m];
    if i == m && m < |path| && x == path[m] {
      assert (a + [x])[|held0|..|held0| + m + 1] == a[|held0|..|held0| + m] + [x];
    }
  }

  /** Appending to a beam that already extends its old list by `tail` extends it by `tail + [b]`. */
  lemma BeamAppend(ids: seq<seq<int>>, ids0: seq<seq<int>>, beam: nat, tail: seq<int>, b: int)
    requires beam < |ids0| && ids == ids0[beam := ids0[beam] + tail]
    ensures ids[beam := ids[beam] + [b]] == ids0[beam := ids0[beam] + (tail + [b])]
  {
    assert ids[beam] + [b] == ids0[beam] + (tail + [b]);
  }

  /** The children map a walk cursor stands at. */
  function NextAt(blocks: seq<KVCacheBlock>, root: NextBlocks, cursor: Link): NextBlocks
  {
    match cursor
    case BlockLink(c) => if c < |blocks| then blocks[c].next else map[]
    case _ => root
  }

  /**
    The storing step of storeBlocks: setTokens and setPrevBlock on block
    bid, then addNextBlock on the block (or root) the cursor stands at.
  */
  function LinkInto(blocks: seq<KVCacheBlock>, root: NextBlocks, bid: nat, cursor: Link,
                    chunk: seq<TokenId>, isFull: bool): (r: (seq<KVCacheBlock>, NextBlocks))
    requires bid < |blocks| && cursor != NoLink && (cursor.BlockLink? ==> cursor.idx < |blocks|)
  {
    var b1 := blocks[bid := blocks[bid].(tokens := chunk, isFull := isFull, prev := cursor)];
    if cursor.RootLink? then (b1, AddNext(root, chunk, bid))
    else (b1[cursor.idx := b1[cursor.idx].(next := AddNext(b1[cursor.idx].next, chunk, bid))], root)
  }

  /** Storing a block only adds an edge and rewrites the block's own tree fields. */
  lemma LinkIntoProps(blocks: seq<KVCacheBlock>, root: NextBlocks, bid: nat, cursor: Link, chunk: seq<TokenId>, isFull: bool)
    requires bid < |blocks| && cursor != NoLink && (cursor.BlockLink? ==> cursor.idx < |blocks|)
    ensures var r := LinkInto(blocks, root, bid, cursor, chunk, isFull);
            SameBookkeeping(blocks, r.0) && TreeGrown(blocks, root, r.0, r.1)
            && (LinksOk(blocks) ==> LinksOk(r.0))
            && chunk in NextAt(r.0, r.1, cursor)
            && (chunk !in NextAt(blocks, root, cursor) ==> NextAt(r.0, r.1, cursor)[chunk] == bid)
            && r.0[bid].tokens == chunk && r.0[bid].prev == cursor && r.0[bid].isFull == isFull
  {
  }

  /** addNextBlock: a child is added under its tokens unless that key is already taken. */
  function AddNext(next: NextBlocks, tokens: seq<TokenId>, b: nat): (r: NextBlocks)
    ensures SubMap(next, r) && tokens in r
    ensures tokens !in next ==> r[tokens] == b
  {
    if tokens in next then next else next[tokens := b]
  }

  function Last(l: seq<int>): int
  {
    if l == [] then 0 else l[|l| - 1]
  }

  /** Counters of BlockManager that most members leave alone. */
  datatype Counters = Counters(schedulingNumFreeBlocks: int, allocTotalBlocks: nat, allocNewBlocks: nat, reusedBlocks: nat)

  /**
    The reuse walk of loadOrAllocateBlocks after i chunks, m of them matched:
    the tree has only lost edges since the walk began (none at all while
    matching without onboarding), the slot's list `a` and the beam's list
    grew by the same i blocks, the first m of them the walk's path, and the
    counters grew accordingly.
  */
  predicate WalkOk(old0: seq<KVCacheBlock>, oldRoot: NextBlocks, held0: seq<nat>, ids0: seq<seq<int>>, counters0: Counters,
                   chunks: seq<seq<TokenId>>, beamIdx: nat, onboard: bool,
                   blocks: seq<KVCacheBlock>, root: NextBlocks, a: seq<nat>, ids: seq<seq<int>>, counters: Counters,
                   i: nat, m: nat, needMatch: bool, cursor: Link, numMatchedTokens: nat)
  {
    var path := MatchFrom(old0, oldRoot, chunks);
    i <= |chunks| && beamIdx < |ids| == |ids0|
    && TreeShrunk(old0, oldRoot, blocks, root)
    && (!onboard && needMatch ==> TreeSame(old0, oldRoot, blocks, root))
    && (needMatch ==> m == i && i <= |path| && cursor == if i == 0 then RootLink else BlockLink(path[i - 1]))
    && (!needMatch && !onboard ==> m == |path|)
    && SlotOk(a, held0, i, m, path)
    && ids == ids0[beamIdx := ids0[beamIdx] + a[|held0|..]]
    && numMatchedTokens == TokenCount(chunks[..m])
    && counters.reusedBlocks == counters0.reusedBlocks + m
    && counters.allocNewBlocks == counters0.allocNewBlocks + (i - m)
    && counters.allocTotalBlocks == counters0.allocTotalBlocks + i
    && counters.schedulingNumFreeBlocks == counters0.schedulingNumFreeBlocks
  }

  /**
    The outcome of loadOrAllocateBlocks, k being the number of reused
    blocks: k blocks of the reuse walk on the tree as it was (all of it
    unless onboarding failed part-way), then fresh blocks, one per chunk,
    appended to the slot and to the beam; the matched tokens are those of
    the first k chunks.  The fresh blocks were distinct and on the primary
    free queue fp0 and are off the queue fp now, which has only shrunk.
  */
  predicate ReuseDone(old0: seq<KVCacheBlock>, oldRoot: NextBlocks, held0: seq<nat>, ids0: seq<seq<int>>, counters0: Counters,
                      fp0: seq<nat>, chunks: seq<seq<TokenId>>, beamIdx: nat, onboard: bool,
                      blocks: seq<KVCacheBlock>, root: NextBlocks, a: seq<nat>, ids: seq<seq<int>>, counters: Counters,
                      fp: seq<nat>, numMatchedTokens: nat)
  {
    var path := MatchFrom(old0, oldRoot, chunks);
    var k := counters.reusedBlocks - counters0.reusedBlocks;
    0 <= k <= |path| && (!onboard ==> k == |path|)
    && beamIdx < |ids| == |ids0|
    && TreeShrunk(old0, oldRoot, blocks, root)
    && SlotOk(a, held0, |chunks|, k, path)
    && ids == ids0[beamIdx := ids0[beamIdx] + a[|held0|..]]
    && numMatchedTokens == TokenCount(chunks[..k])
    && counters.allocNewBlocks == counters0.allocNewBlocks + (|chunks| - k)
    && counters.allocTotalBlocks == counters0.allocTotalBlocks + |chunks|
    && counters.schedulingNumFreeBlocks == counters0.schedulingNumFreeBlocks
    && FreshFrom(fp0, fp, a, |held0| + k)
  }

  /** A walk over every chunk is done: without onboarding it reused the whole reuse walk. */
  lemma WalkDone(old0: seq<KVCacheBlock>, oldRoot: NextBlocks, held0: seq<nat>, ids0: seq<seq<int>>, counters0: Counters,
                 fp0: seq<nat>, chunks: seq<seq<TokenId>>, beamIdx: nat, onboard: bool,
                 blocks: seq<KVCacheBlock>, root: NextBlocks, a: seq<nat>, ids: seq<seq<int>>, counters: Counters,
                 fp: seq<nat>, m: nat, needMatch: bool, cursor: Link, numMatchedTokens: nat)
    requires WalkOk(old0, oldRoot, held0, ids0, counters0, chunks, beamIdx, onboard,
                    blocks, root, a, ids, counters, |chunks|, m, needMatch, cursor, numMatchedTokens)
    requires FreshFrom(fp0, fp, a, |held0| + m)
    ensures ReuseDone(old0, oldRoot, held0, ids0, counters0, fp0, chunks, beamIdx, onboard,
                      blocks, root, a, ids, counters, fp, numMatchedTokens)
  {
    var path := MatchFrom(old0, oldRoot, chunks);
    assert counters.reusedBlocks - counters0.reusedBlocks == m;
    if needMatch {
      assert m == |chunks| && |path| <= |chunks|;
    }
  }

  /** The empty walk: nothing handled yet, the tree and the lists as they were. */
  lemma WalkStart(blocks: seq<KVCacheBlock>, root: NextBlocks, a: seq<nat>, ids: seq<seq<int>>, counters: Counters,
                  chunks: seq<seq<TokenId>>, beamIdx: nat, onboard: bool)
    requires beamIdx < |ids|
    ensures WalkOk(blocks, root, a, ids, counters, chunks, beamIdx, onboard,
                   blocks, root, a, ids, counters, 0, 0, true, RootLink, 0)
  {
    assert a[..|a|] == a && a[|a|..] == [];
    assert ids[beamIdx] + [] == ids[beamIdx];
    assert ids[beamIdx := ids[beamIdx]] == ids;
    assert chunks[..0] == [];
  }

  /** Taking the next block of the path (the tree unchanged unless onboarding) advances both i and m. */
  lemma WalkMatched(old0: seq<KVCacheBlock>, oldRoot: NextBlocks, held0: seq<nat>, ids0: seq<seq<int>>, counters0: Counters,
                    chunks: seq<seq<TokenId>>, beamIdx: nat, onboard: bool,
                    blocks: seq<KVCacheBlock>, root: NextBlocks, a: seq<nat>, ids: seq<seq<int>>, counters: Counters,
                    blocksC: seq<KVCacheBlock>, rootC: NextBlocks, blocks': seq<KVCacheBlock>, root': NextBlocks,
                    a': seq<nat>, ids': seq<seq<int>>, counters': Counters,
                    i: nat, c: nat, cursor: Link, numMatchedTokens: nat)
    requires WalkOk(old0, oldRoot, held0, ids0, counters0, chunks, beamIdx, onboard,
                    blocks, root, a, ids, counters, i, i, true, cursor, numMatchedTokens)
    requires a' == a + [c] && beamIdx < |ids| && ids' == ids[beamIdx := ids[beamIdx] + [c]]
    requires counters' == counters.(reusedBlocks := counters.reusedBlocks + 1, allocTotalBlocks := counters.allocTotalBlocks + 1)
    requires i < |chunks| && i < |MatchFrom(old0, oldRoot, chunks)| && c == MatchFrom(old0, oldRoot, chunks)[i]
    requires TreeShrunk(blocks, root, blocksC, rootC) && (!onboard ==> TreeSame(blocks, root, blocksC, rootC))
    requires TreeSame(blocksC, rootC, blocks', root')
    ensures WalkOk(old0, oldRoot, held0, ids0, counters0, chunks, beamIdx, onboard,
                   blocks', root', a', ids', counters', i + 1, i + 1, true, BlockLink(c), numMatchedTokens + |chunks[i]|)
  {
    var path := MatchFrom(old0, oldRoot, chunks);
    TreeShrunkTrans(old0, oldRoot, blocks, root, blocksC, rootC);
    TreeShrunkTrans(old0, oldRoot, blocksC, rootC, blocks', root');
    SlotOkAppend(a, held0, i, i, path, c);
    BeamAppend(ids, ids0, beamIdx, a[|held0|..], c);
    TokenCountStep(chunks, i);
  }

  /** Adding a fresh block advances i and ends matching. */
  lemma WalkFresh(old0: seq<KVCacheBlock>, oldRoot: NextBlocks, held0: seq<nat>, ids0: seq<seq<int>>, counters0: Counters,
                  chunks: seq<seq<TokenId>>, beamIdx: nat, onboard: bool,
                  blocks: seq<KVCacheBlock>, root: NextBlocks, a: seq<nat>, ids: seq<seq<int>>, counters: Counters,
                  blocks': seq<KVCacheBlock>, root': NextBlocks,
                  a': seq<nat>, ids': seq<seq<int>>, counters': Counters,
                  i: nat, m: nat, needMatch: bool, cursor: Link, numMatchedTokens: nat, x: nat)
    requires WalkOk(old0, oldRoot, held0, ids0, counters0, chunks, beamIdx, onboard,
                    blocks, root, a, ids, counters, i, m, needMatch, cursor, numMatchedTokens)
    requires a' == a + [x] && beamIdx < |ids| && ids' == ids[beamIdx := ids[beamIdx] + [x]]
    requires counters' == counters.(allocNewBlocks := counters.allocNewBlocks + 1, allocTotalBlocks := counters.allocTotalBlocks + 1)
    requires i < |chunks| && (!onboard ==> m == |MatchFrom(old0, oldRoot, chunks)|)
    requires TreeShrunk(blocks, root, blocks', root')
    ensures WalkOk(old0, oldRoot, held0, ids0, counters0, chunks, beamIdx, onboard,
                   blocks', root', a', ids', counters', i + 1, m, false, cursor, numMatchedTokens)
  {
    var path := MatchFrom(old0, oldRoot, chunks);
    TreeShrunkTrans(old0, oldRoot, blocks, root, blocks', root');
    SlotOkAppend(a, held0, i, m, path, x);
    BeamAppend(ids, ids0, beamIdx, a[|held0|..], x);
  }

  /**
    The blocks a[start..] of a slot's list were each on the primary free
    queue fp0 when the walk began and are off the current queue fp, and
    none of them occurs earlier in the list; fp holds nothing fp0 did not.
  */
  predicate FreshFrom(fp0: seq<nat>, fp: seq<nat>, a: seq<nat>, start: nat)
  {
    start <= |a| && DrawnFrom(fp0, fp, a[start..])
    && forall j :: start <= j < |a| ==> a[j] !in a[..j]
  }

  /** The queue losing more entries keeps the fresh blocks fresh. */
  lemma FreshFromShrink(fp0: seq<nat>, fp: seq<nat>, fp': seq<nat>, a: seq<nat>, start: nat)
    requires FreshFrom(fp0, fp, a, start) && forall x :: x in fp' ==> x in fp
    ensures FreshFrom(fp0, fp', a, start)
  {
  }

  /** A block taken off the queue and not yet in the list is one more fresh block. */
  lemma FreshFromTake(fp0: seq<nat>, fp: seq<nat>, fp': seq<nat>, a: seq<nat>, start: nat, x: nat)
    requires FreshFrom(fp0, fp, a, start) && x in fp && x !in a && x !in fp'
    requires forall y :: y in fp' ==> y in fp
    ensures FreshFrom(fp0, fp', a + [x], start)
  {
    var a' := a + [x];
    assert a'[..|a|] == a;
    forall j | start <= j < |a'| ensures a'[j] in fp0 && a'[j] !in fp' && a'[j] !in a'[..j] {
      if j < |a| {
        assert a'[..j] == a[..j];
      }
    }
  }

  /** While nothing fresh has been taken, a matched block extends the part before the fresh ones. */
  lemma FreshFromMatched(fp0: seq<nat>, fp: seq<nat>, fp': seq<nat>, a: seq<nat>, c: nat)
    requires FreshFrom(fp0, fp, a, |a|) && forall y :: y in fp' ==> y in fp
    ensures FreshFrom(fp0, fp', a + [c], |a| + 1)
  {
  }

  /** The blocks a sequence holds are on neither free queue. */
  lemma HeldNotQueued(blocks: seq<KVCacheBlock>, fp: seq<nat>, fs: seq<nat>, lists: seq<seq<nat>>, slot: nat)
    requires StateOk(blocks, fp, fs, lists, {}) && slot < |lists|
    ensures forall x :: x in lists[slot] ==> x !in fp && x !in fs
  {
    HeldContains(lists, slot);
    forall x | x in lists[slot] ensures x !in fp && x !in fs {
      var j :| 0 <= j < |lists[slot]| && lists[slot][j] == x;
      assert x < |blocks|;
      assert blocks[x].refCount >= 1;
      forall i | 0 <= i < |fp| ensures fp[i] != x { }
      forall i | 0 <= i < |fs| ensures fs[i] != x { }
    }
  }

  /** n copies of one block: what the slot's list gains when all n beams share it. */
  function Copies(b: nat, n: nat): (r: seq<nat>)
    ensures |r| == n && forall i :: 0 <= i < n ==> r[i] == b
  {
    seq(n, _ => b)
  }

  /** One more beam, and the slot's list, gain the shared block. */
  lemma SharedStepOk(ids0: seq<seq<int>>, ids1: seq<seq<int>>, ids2: seq<seq<int>>,
                     a0: seq<seq<nat>>, a1: seq<seq<nat>>, a2: seq<seq<nat>>, slot: nat, b: nat, n: nat)
    requires BeamsGained(ids0, ids1, Copies(b, n)) && n < |ids1| && slot < |a0|
    requires a1 == a0[slot := a0[slot] + Copies(b, n)]
    requires ids2 == ids1[n := ids1[n] + [b]] && a2 == a1[slot := a1[slot] + [b]]
    ensures BeamsGained(ids0, ids2, Copies(b, n + 1))
    ensures a2 == a0[slot := a0[slot] + Copies(b, n + 1)]
  {
    assert Copies(b, n) + [b] == Copies(b, n + 1);
    BeamsGainedStep(ids0, ids1, Copies(b, n), b);
    assert (a0[slot] + Copies(b, n)) + [b] == a0[slot] + Copies(b, n + 1);
  }

  /**
    Beam c's list gained the block added[c], for every c below |added|; the
    remaining beams are as they were.
  */
  predicate BeamsGained(ids0: seq<seq<int>>, ids: seq<seq<int>>, added: seq<nat>)
  {
    |ids| == |ids0| && |added| <= |ids|
    && (forall c :: 0 <= c < |added| ==> ids[c] == ids0[c] + [added[c]])
    && (forall c :: |added| <= c < |ids| ==> ids[c] == ids0[c])
  }

  /** Every block of `added` left the free queue q0, which became q, and no block joined it. */
  predicate DrawnFrom(q0: seq<nat>, q: seq<nat>, added: seq<nat>)
  {
    (forall i :: 0 <= i < |added| ==> added[i] in q0 && added[i] !in q)
    && (forall x :: x in q ==> x in q0)
  }

  /** The queue q0 lost exactly the distinct blocks `taken` and became q. */
  predicate TakenFromQueue(q0: seq<nat>, q: seq<nat>, taken: seq<nat>)
  {
    Distinct(taken) && |q| + |taken| == |q0| && DrawnFrom(q0, q, taken)
  }

  /** Taking one more queued block off a queue without duplicates. */
  lemma TakenStep(q0: seq<nat>, q: seq<nat>, taken: seq<nat>, b: nat)
    requires TakenFromQueue(q0, q, taken) && b in q && Distinct(q)
    ensures TakenFromQueue(q0, Remove(q, b), taken + [b])
  {
    RemoveFromDistinct(q, b);
    var t := taken + [b];
    forall i, j | 0 <= i < j < |t| ensures t[i] != t[j] {
      if j == |taken| {
        assert t[i] == taken[i] && taken[i] !in q;
      } else {
        assert t[i] == taken[i] && t[j] == taken[j];
      }
    }
    forall i | 0 <= i < |t| ensures t[i] in q0 && t[i] !in Remove(q, b) {
      if i < |taken| {
        assert t[i] == taken[i];
      }
    }
  }

  /** One more beam gains a block. */
  lemma BeamsGainedStep(ids0: seq<seq<int>>, ids: seq<seq<int>>, added: seq<nat>, b: nat)
    requires BeamsGained(ids0, ids, added) && |added| < |ids|
    ensures BeamsGained(ids0, ids[|added| := ids[|added|] + [b]], added + [b])
  {
  }

  /** One beam of allocateBlock's unshared loop takes its own block off the primary queue. */
  lemma FreshStepOk(ids0: seq<seq<int>>, ids1: seq<seq<int>>, ids2: seq<seq<int>>,
                    a0: seq<seq<nat>>, a1: seq<seq<nat>>, a2: seq<seq<nat>>,
                    fp0: seq<nat>, fp1: seq<nat>, fp2: seq<nat>, slot: nat, taken: seq<nat>, b: nat)
    requires BeamsGained(ids0, ids1, taken) && |taken| < |ids1| && slot < |a0|
    requires a1 == a0[slot := a0[slot] + taken] && TakenFromQueue(fp0, fp1, taken) && Distinct(fp1) && b in fp1
    requires ids2 == ids1[|taken| := ids1[|taken|] + [b]] && a2 == a1[slot := a1[slot] + [b]] && fp2 == Remove(fp1, b)
    ensures BeamsGained(ids0, ids2, taken + [b]) && TakenFromQueue(fp0, fp2, taken + [b])
    ensures a2 == a0[slot := a0[slot] + (taken + [b])]
  {
    TakenStep(fp0, fp1, taken, b);
    BeamsGainedStep(ids0, ids1, taken, b);
    assert (a0[slot] + taken) + [b] == a0[slot] + (taken + [b]);
  }

  /** The k-th block beam `beam` gained since ids0, or -1 when there is none. */
  function NewAt(ids0: seq<seq<int>>, ids: seq<seq<int>>, beam: int, k: int): int
  {
    if 0 <= beam < |ids0| && beam < |ids| && 0 <= k && |ids0[beam]| + k < |ids[beam]| then ids[beam][|ids0[beam]| + k]
    else -1
  }

  /**
    After n allocations of addSequence every beam grew by n blocks; the
    k-th new block is the same for all beams except at unsharedBlockIdx,
    where the beams have pairwise different blocks.
  */
  predicate SequenceShaped(ids0: seq<seq<int>>, ids: seq<seq<int>>, n: nat, unsharedBlockIdx: int)
  {
    |ids| == |ids0|
    && (forall beam :: 0 <= beam < |ids| ==> |ids[beam]| == |ids0[beam]| + n && ids[beam][..|ids0[beam]|] == ids0[beam])
    && (forall beam, k :: 0 <= beam < |ids| && 0 <= k < n && k != unsharedBlockIdx ==>
          NewAt(ids0, ids, beam, k) == NewAt(ids0, ids, 0, k))
    && (forall b1, b2 :: 0 <= b1 < b2 < |ids| && 0 <= unsharedBlockIdx < n ==>
          NewAt(ids0, ids, b1, unsharedBlockIdx) != NewAt(ids0, ids, b2, unsharedBlockIdx))
  }

  /** Nothing has been allocated yet. */
  lemma SequenceShapedStart(ids0: seq<seq<int>>, u: int)
    ensures SequenceShaped(ids0, ids0, 0, u)
  {
    forall beam | 0 <= beam < |ids0| ensures ids0[beam][..|ids0[beam]|] == ids0[beam] { }
  }

  /** One allocation step of addSequence: shared copies, or distinct blocks at unsharedBlockIdx. */
  lemma {:induction false} SequenceShapedStep(ids0: seq<seq<int>>, ids: seq<seq<int>>, ids': seq<seq<int>>,
                                              n: nat, u: int, added: seq<nat>)
    requires SequenceShaped(ids0, ids, n, u) && BeamsGained(ids, ids', added) && |added| == |ids| > 0
    requires n != u ==> added == Copies(added[0], |added|)
    requires n == u ==> Distinct(added)
    ensures SequenceShaped(ids0, ids', n + 1, u)
  {
    forall beam, k | 0 <= beam < |ids'| && 0 <= k <= n
      ensures NewAt(ids0, ids', beam, k) == if k < n then NewAt(ids0, ids, beam, k) else added[beam]
    {
      assert ids'[beam] == ids[beam] + [added[beam]];
    }
    forall beam | 0 <= beam < |ids'|
      ensures |ids'[beam]| == |ids0[beam]| + n + 1 && ids'[beam][..|ids0[beam]|] == ids0[beam]
    {
      assert ids'[beam] == ids[beam] + [added[beam]];
      assert ids'[beam][..|ids0[beam]|] == ids[beam][..|ids0[beam]|];
    }
  }

  /** Drawing twice from a queue is drawing from it. */
  lemma DrawnTrans(q0: seq<nat>, q1: seq<nat>, q2: seq<nat>, a: seq<nat>, b: seq<nat>)
    requires DrawnFrom(q0, q1, a) && DrawnFrom(q1, q2, b)
    ensures DrawnFrom(q0, q2, a + b)
  {
    var ab := a + b;
    forall i | 0 <= i < |ab| ensures ab[i] in q0 && ab[i] !in q2 {
      if i < |a| {
        assert ab[i] == a[i];
      } else {
        assert ab[i] == b[i - |a|];
      }
    }
  }

  /** The slot's list and the blocks drawn from the queue, after one more allocation. */
  lemma SlotAndDrawnStep(a0: seq<seq<nat>>, a1: seq<seq<nat>>, a2: seq<seq<nat>>, fp0: seq<nat>, fp1: seq<nat>, fp2: seq<nat>,
                         slot: nat, added: seq<nat>, stepAdded: seq<nat>)
    requires slot < |a0| && a1 == a0[slot := a0[slot] + added] && a2 == a1[slot := a1[slot] + stepAdded]
    requires DrawnFrom(fp0, fp1, added) && DrawnFrom(fp1, fp2, stepAdded)
    ensures a2 == a0[slot := a0[slot] + (added + stepAdded)] && DrawnFrom(fp0, fp2, added + stepAdded)
  {
    DrawnTrans(fp0, fp1, fp2, added, stepAdded);
    assert (a0[slot] + added) + stepAdded == a0[slot] + (added + stepAdded);
  }

  /** Allocation n of addSequence takes beamWidth blocks at unsharedBlockIdx and one block elsewhere. */
  lemma StepCount(n: nat, u: int, w: nat, before: nat, step: nat)
    requires before == n * w && step == w
    ensures before + step == (n + 1) * w
    ensures BlocksForSequence(n + 1, u, w) == BlocksForSequence(n, u, w) + (if n == u then w else 1)
  {
  }

  /** A shaped sequence, grown by one more partial step, still starts with the old lists. */
  lemma ShapedPrefix(ids0: seq<seq<int>>, ids: seq<seq<int>>, ids': seq<seq<int>>, n: nat, u: int, added: seq<nat>)
    requires SequenceShaped(ids0, ids, n, u) && BeamsGained(ids, ids', added)
    ensures forall beam :: 0 <= beam < |ids'| ==> |ids0[beam]| <= |ids'[beam]| && ids'[beam][..|ids0[beam]|] == ids0[beam]
  {
    forall beam | 0 <= beam < |ids'| ensures |ids0[beam]| <= |ids'[beam]| && ids'[beam][..|ids0[beam]|] == ids0[beam] {
      if beam < |added| {
        assert ids'[beam] == ids[beam] + [added[beam]];
        assert ids'[beam][..|ids0[beam]|] == ids[beam][..|ids0[beam]|];
      }
    }
  }

  class BlockManager {
    const numLayers: int
    /** Volume of [numKvHeads, tokensPerBlock, sizePerHead]. */
    const blockSize: int
    const tokensPerBlock: int
    const onboardBlocks: bool

    /** mAllBlocksByIdx; a block's index is its id. */
    var blocks: seq<KVCacheBlock>
    /** The children of the dummy root mCachedBlocksRoot. */
    var cachedBlocksRoot: NextBlocks
    var freePrimaryBlocks: seq<nat>
    var freeSecondaryBlocks: seq<nat>
    /** mAllocatedBlocksPerSeq: the blocks each sequence slot holds, in allocation order. */
    var allocatedBlocksPerSeq: seq<seq<nat>>
    var schedulingNumFreeBlocks: int
    var allocTotalBlocks: nat
    var allocNewBlocks: nat
    var reusedBlocks: nat

    function GetCounters(): Counters
      reads this
    {
      Counters(schedulingNumFreeBlocks, allocTotalBlocks, allocNewBlocks, reusedBlocks)
    }

    /** The manager's invariant with some blocks in transit between a free queue and a sequence. */
    predicate ValidExcept(claimed: set<nat>)
      reads this
    {
      StateOk(blocks, freePrimaryBlocks, freeSecondaryBlocks, allocatedBlocksPerSeq, claimed)
    }

    predicate Valid()
      reads this
    {
      ValidExcept({})
    }

    /**
      All blocks start unreferenced and queued: the primary ones, in index
      order, in the primary queue, the others in the secondary queue.
    */
    constructor(numLayers: int, numKvHeads: int, sizePerHead: int, tokensPerBlock: int,
                blocksInPrimaryPool: nat, blocksInSecondaryPool: nat, onboardBlocks: bool,
                maxNumSequences: nat)
      requires blocksInPrimaryPool < PoolOffsetLimit && blocksInSecondaryPool < PoolOffsetLimit
      ensures Valid()
      ensures |blocks| == blocksInPrimaryPool + blocksInSecondaryPool
      ensures freePrimaryBlocks == seq(blocksInPrimaryPool, i => i)
      ensures freeSecondaryBlocks == seq(blocksInSecondaryPool, i => blocksInPrimaryPool + i)
      ensures |allocatedBlocksPerSeq| == maxNumSequences
      ensures forall b :: 0 <= b < |blocks| ==> blocks[b].refCount == 0 && blocks[b].next == map[]
      ensures cachedBlocksRoot == map[]
      ensures this.blockSize == numKvHeads * tokensPerBlock * sizePerHead
      ensures this.tokensPerBlock == tokensPerBlock && this.onboardBlocks == onboardBlocks
      ensures allocTotalBlocks == 0 && allocNewBlocks == 0 && reusedBlocks == 0
      ensures schedulingNumFreeBlocks == blocksInPrimaryPool
    {
      this.numLayers := numLayers;
      this.blockSize := numKvHeads * tokensPerBlock * sizePerHead;
      this.tokensPerBlock := tokensPerBlock;
      this.onboardBlocks := onboardBlocks;
      var n := blocksInPrimaryPool + blocksInSecondaryPool;
      var bs := seq(n, i requires 0 <= i < n => NewBlock(i, blocksInPrimaryPool).(queued := true));
      var fp := seq(blocksInPrimaryPool, i => i);
      var fs := seq(blocksInSecondaryPool, i => blocksInPrimaryPool + i);
      var lists: seq<seq<nat>> := seq(maxNumSequences, _ => []);
      blocks := bs;
      cachedBlocksRoot := map[];
      freePrimaryBlocks := fp;
      freeSecondaryBlocks := fs;
      allocatedBlocksPerSeq := lists;
      schedulingNumFreeBlocks := blocksInPrimaryPool;
      allocTotalBlocks := 0;
      allocNewBlocks := 0;
      reusedBlocks := 0;
      HeldEmpty(lists);
      forall b | 0 <= b < n ensures b in fp || b in fs {
        if b < blocksInPrimaryPool {
          assert fp[b] == b;
        } else {
          assert fs[b - blocksInPrimaryPool] == b;
        }
      }
    }

    // -------------------------------------------------------------------
    // Getters
    // -------------------------------------------------------------------

    function GetNumFreeBlocks(): int
      reads this
    {
      |freePrimaryBlocks|
    }

    function GetNumReusedBlocks(): int
      reads this
    {
      reusedBlocks
    }

    function GetMaxNumBlocks(): int
      reads this
    {
      |blocks|
    }

    /** Allocated blocks are all blocks but the free primary ones (free secondary blocks count as allocated). */
    function GetNumAllocatedBlocks(): (r: int)
      reads this
      ensures r + GetNumFreeBlocks() == GetMaxNumBlocks()
    {
      GetMaxNumBlocks() - GetNumFreeBlocks()
    }

    function HasFreeBlocks(numRequired: int): (r: bool)
      reads this
      ensures r <==> GetNumFreeBlocks() >= numRequired
    {
      GetNumFreeBlocks() >= numRequired
    }

    function SchedulingHasFreeBlocks(numRequired: int): (r: bool)
      reads this
      ensures r <==> schedulingNumFreeBlocks >= numRequired
    {
      schedulingNumFreeBlocks >= numRequired
    }

    function GetTokensPerBlock(): int
      reads this
    {
      tokensPerBlock
    }

    function GetBlockSize(): int
      reads this
    {
      blockSize
    }

    /** The free count never exceeds the pool, so the allocated count is never negative. */
    lemma FreeCountBounded()
      requires Valid()
      ensures 0 <= GetNumFreeBlocks() <= GetMaxNumBlocks()
      ensures 0 <= GetNumAllocatedBlocks() <= GetMaxNumBlocks()
    {
      DistinctBound(freePrimaryBlocks, |blocks|);
    }

    // -------------------------------------------------------------------
    // Scheduling simulation
    // -------------------------------------------------------------------

    /** startScheduling: the simulated free count and every block's scheduling refs restart from the real ones. */
    method StartScheduling()
      requires Valid()
      modifies this
      ensures Valid()
      ensures schedulingNumFreeBlocks == |freePrimaryBlocks|
      ensures |blocks| == |old(blocks)|
      ensures forall b :: 0 <= b < |blocks| ==>
                blocks[b] == old(blocks[b]).(schedulingRefCount := old(blocks[b].refCount))
      ensures cachedBlocksRoot == old(cachedBlocksRoot) && allocatedBlocksPerSeq == old(allocatedBlocksPerSeq)
      ensures freePrimaryBlocks == old(freePrimaryBlocks) && freeSecondaryBlocks == old(freeSecondaryBlocks)
      ensures allocTotalBlocks == old(allocTotalBlocks) && allocNewBlocks == old(allocNewBlocks)
      ensures reusedBlocks == old(reusedBlocks)
    {
      var bs := blocks;
      var i := 0;
      while i < |bs|
        invariant 0 <= i <= |bs| == |blocks|
        invariant forall b :: 0 <= b < i ==> bs[b] == blocks[b].(schedulingRefCount := blocks[b].refCount)
        invariant forall b :: i <= b < |bs| ==> bs[b] == blocks[b]
      {
        bs := bs[i := bs[i].(schedulingRefCount := bs[i].refCount)];
        i := i + 1;
      }
      assert SameBookkeeping(blocks, bs) && LinksOk(bs);
      BookkeepingTransfer(blocks, bs, freePrimaryBlocks, freeSecondaryBlocks, allocatedBlocksPerSeq, {});
      blocks, schedulingNumFreeBlocks := bs, |freePrimaryBlocks|;
    }

    // -------------------------------------------------------------------
    // Single-block operations
    // -------------------------------------------------------------------

    /**
      releaseBlock: drop one reference; a block left without references
      goes back to its tier's free queue, at the back, or at the front when
      `toFront`.  Releasing a block without references fails (decRefCount's
      check) and changes nothing.
    */
    method ReleaseBlock(b: nat, toFront: bool) returns (ok: bool)
      requires b < |blocks| && FreeListsOk(blocks, freePrimaryBlocks, freeSecondaryBlocks, {}) && LinksOk(blocks)
      modifies this
      ensures FreeListsOk(blocks, freePrimaryBlocks, freeSecondaryBlocks, {}) && LinksOk(blocks)
      ensures ok <==> old(blocks[b].refCount) > 0
      ensures !ok ==> blocks == old(blocks) && freePrimaryBlocks == old(freePrimaryBlocks)
                      && freeSecondaryBlocks == old(freeSecondaryBlocks)
      ensures ok && old(blocks[b].refCount) > 1 ==>
                blocks == old(blocks)[b := old(blocks[b]).(refCount := old(blocks[b].refCount) - 1)]
                && freePrimaryBlocks == old(freePrimaryBlocks) && freeSecondaryBlocks == old(freeSecondaryBlocks)
      ensures ok && old(blocks[b].refCount) == 1 ==>
                blocks == old(blocks)[b := old(blocks[b]).(refCount := 0, queued := true)]
      ensures ok && old(blocks[b].refCount) == 1 && IsPrimary(old(blocks[b])) ==>
                freePrimaryBlocks == Push(old(freePrimaryBlocks), b, toFront) && freeSecondaryBlocks == old(freeSecondaryBlocks)
      ensures ok && old(blocks[b].refCount) == 1 && !IsPrimary(old(blocks[b])) ==>
                freeSecondaryBlocks == Push(old(freeSecondaryBlocks), b, toFront) && freePrimaryBlocks == old(freePrimaryBlocks)
      ensures FreeState(blocks, freePrimaryBlocks, freeSecondaryBlocks)
              == ReleaseOne(FreeState(old(blocks), old(freePrimaryBlocks), old(freeSecondaryBlocks)), b, toFront)
      ensures cachedBlocksRoot == old(cachedBlocksRoot) && allocatedBlocksPerSeq == old(allocatedBlocksPerSeq)
      ensures GetCounters() == old(GetCounters())
    {
      var blk := blocks[b];
      if blk.refCount <= 0 {
        return false;
      }
      ok := true;
      if blk.refCount > 1 {
        DecRefKeepsFreeLists(blocks, freePrimaryBlocks, freeSecondaryBlocks, b);
        blocks := blocks[b := blk.(refCount := blk.refCount - 1)];
      } else {
        ReturnKeepsFreeLists(blocks, freePrimaryBlocks, freeSecondaryBlocks, b, toFront);
        blocks := blocks[b := blk.(refCount := 0, queued := true)];
        if IsPrimary(blk) {
          freePrimaryBlocks := Push(freePrimaryBlocks, b, toFront);
        } else {
          freeSecondaryBlocks := Push(freeSecondaryBlocks, b, toFront);
        }
      }
    }

    /** claimBlock: take the block off its free queue if it is on one. */
    method ClaimBlock(b: nat, ghost claimed: set<nat>)
      requires b < |blocks| && FreeListsOk(blocks, freePrimaryBlocks, freeSecondaryBlocks, claimed)
      modifies this
      ensures FreeListsOk(blocks, freePrimaryBlocks, freeSecondaryBlocks, claimed + {b})
      ensures blocks == old(blocks)[b := old(blocks[b]).(queued := false)]
      ensures old(blocks[b].queued) && IsPrimary(old(blocks[b])) ==>
                freePrimaryBlocks == Remove(old(freePrimaryBlocks), b) && freeSecondaryBlocks == old(freeSecondaryBlocks)
      ensures old(blocks[b].queued) && !IsPrimary(old(blocks[b])) ==>
                freeSecondaryBlocks == Remove(old(freeSecondaryBlocks), b) && freePrimaryBlocks == old(freePrimaryBlocks)
      ensures !old(blocks[b].queued) ==>
                freePrimaryBlocks == old(freePrimaryBlocks) && freeSecondaryBlocks == old(freeSecondaryBlocks)
      ensures forall x :: x in freePrimaryBlocks ==> x in old(freePrimaryBlocks)
      ensures cachedBlocksRoot == old(cachedBlocksRoot) && allocatedBlocksPerSeq == old(allocatedBlocksPerSeq)
      ensures GetCounters() == old(GetCounters())
      ensures TreeSame(old(blocks), old(cachedBlocksRoot), blocks, cachedBlocksRoot)
    {
      var blk := blocks[b];
      ClaimKeepsFreeLists(blocks, freePrimaryBlocks, freeSecondaryBlocks, claimed, b);
      if blk.queued {
        if IsPrimary(blk) {
          freePrimaryBlocks := Remove(freePrimaryBlocks, b);
        } else {
          freeSecondaryBlocks := Remove(freeSecondaryBlocks, b);
        }
      }
      blocks := blocks[b := blk.(queued := false)];
    }

    /** KVCacheBlock::freeLeafBlock on block b. */
    method FreeLeafBlock(b: nat, ghost claimed: set<nat>)
      requires b < |blocks| && LinksOk(blocks) && FreeListsOk(blocks, freePrimaryBlocks, freeSecondaryBlocks, claimed)
      modifies this
      ensures (blocks, cachedBlocksRoot) == FreeLeaf(old(blocks), old(cachedBlocksRoot), b)
      ensures TreeShrunk(old(blocks), old(cachedBlocksRoot), blocks, cachedBlocksRoot)
      ensures LinksOk(blocks) && FreeListsOk(blocks, freePrimaryBlocks, freeSecondaryBlocks, claimed)
      ensures forall x :: 0 <= x < |blocks| ==> blocks[x].refCount == old(blocks[x].refCount)
      ensures forall x :: 0 <= x < |blocks| ==> blocks[x].queued == old(blocks[x].queued)
      ensures forall x :: 0 <= x < |blocks| ==> blocks[x].memoryPoolBlockOffset == old(blocks[x].memoryPoolBlockOffset)
      ensures freePrimaryBlocks == old(freePrimaryBlocks) && freeSecondaryBlocks == old(freeSecondaryBlocks)
      ensures allocatedBlocksPerSeq == old(allocatedBlocksPerSeq) && GetCounters() == old(GetCounters())
    {
      FreeLeafShrinks(blocks, cachedBlocksRoot, b);
      var r := FreeLeaf(blocks, cachedBlocksRoot, b);
      blocks, cachedBlocksRoot := r.0, r.1;
    }

    /**
      findBestGPUBlockToFree: the first block of the primary free queue
      with no primary descendants, or none.
    */
    method FindBestGpuBlockToFree() returns (r: Option<nat>)
      ensures r == FirstCandidate(blocks, freePrimaryBlocks)
    {
      var i := 0;
      while i < |freePrimaryBlocks|
        invariant 0 <= i <= |freePrimaryBlocks|
        invariant FirstCandidate(blocks, freePrimaryBlocks[i..]) == FirstCandidate(blocks, freePrimaryBlocks)
      {
        if EvictionCandidate(blocks, freePrimaryBlocks[i]) {
          return Some(freePrimaryBlocks[i]);
        }
        assert freePrimaryBlocks[i..][1..] == freePrimaryBlocks[i + 1..];
        i := i + 1;
      }
      return None;
    }

    /**
      getFreeBlock: evict the block the search chooses — detach it from the
      prefix tree and claim it off the primary queue.  When no block
      qualifies the pool is exhausted and nothing changes.
    */
    method GetFreeBlock(ghost claimed: set<nat>) returns (r: Result<nat, string>)
      requires LinksOk(blocks) && FreeListsOk(blocks, freePrimaryBlocks, freeSecondaryBlocks, claimed)
      modifies this
      ensures r.Failure? <==> FirstCandidate(old(blocks), old(freePrimaryBlocks)).None?
      ensures r.Failure? ==> unchanged(this)
      ensures r.Success? ==> r.value == FirstCandidate(old(blocks), old(freePrimaryBlocks)).value
      ensures r.Success? ==> r.value < |blocks| && freePrimaryBlocks == Remove(old(freePrimaryBlocks), r.value)
      ensures r.Success? ==> IsPrimary(blocks[r.value]) && !blocks[r.value].queued && blocks[r.value].prev == NoLink
      ensures r.Success? ==> FreeListsOk(blocks, freePrimaryBlocks, freeSecondaryBlocks, claimed + {r.value})
      ensures LinksOk(blocks) && TreeShrunk(old(blocks), old(cachedBlocksRoot), blocks, cachedBlocksRoot)
      ensures forall x :: 0 <= x < |blocks| ==> blocks[x].refCount == old(blocks[x].refCount)
      ensures forall x :: 0 <= x < |blocks| ==> blocks[x].memoryPoolBlockOffset == old(blocks[x].memoryPoolBlockOffset)
      ensures freeSecondaryBlocks == old(freeSecondaryBlocks)
      ensures allocatedBlocksPerSeq == old(allocatedBlocksPerSeq) && GetCounters() == old(GetCounters())
    {
      var candidate := FindBestGpuBlockToFree();
      if candidate.None? {
        return Failure("no free block left");
      }
      var b := candidate.value;
      QueueMember(blocks, freePrimaryBlocks, true, b);
      ghost var blocks0, root0 := blocks, cachedBlocksRoot;
      FreeLeafBlock(b, claimed);
      assert blocks[b].queued && IsPrimary(blocks[b]);
      ghost var blocks1, root1 := blocks, cachedBlocksRoot;
      ClaimBlock(b, claimed);
      assert TreeShrunk(blocks1, root1, blocks, cachedBlocksRoot);
      r := Success(b);
    }

    /**
      onboardBlock: a secondary block is brought to primary memory by
      swapping pool offsets with a free primary block, which then waits in
      the secondary queue.  A block already in primary memory, or any block
      when onboarding is off, is left alone.  Onboarding fails, changing
      nothing, when no primary block can be freed.
    */
    method OnboardBlock(b: nat, ghost claimed: set<nat>) returns (ok: bool)
      requires b < |blocks| && !blocks[b].queued
      requires LinksOk(blocks) && FreeListsOk(blocks, freePrimaryBlocks, freeSecondaryBlocks, claimed)
      modifies this
      ensures |blocks| == |old(blocks)|
      ensures !onboardBlocks || IsPrimary(old(blocks[b])) ==> ok && unchanged(this)
      ensures onboardBlocks && !IsPrimary(old(blocks[b])) ==>
                (ok <==> FirstCandidate(old(blocks), old(freePrimaryBlocks)).Some?)
      ensures !ok ==> unchanged(this)
      ensures ok && onboardBlocks && !IsPrimary(old(blocks[b])) ==>
                var p := FirstCandidate(old(blocks), old(freePrimaryBlocks)).value;
                p < |blocks| && IsPrimary(blocks[b]) && blocks[b].memoryPoolBlockOffset == old(blocks[p].memoryPoolBlockOffset)
                && blocks[p].memoryPoolBlockOffset == old(blocks[b].memoryPoolBlockOffset)
                && freePrimaryBlocks == Remove(old(freePrimaryBlocks), p)
                && freeSecondaryBlocks == old(freeSecondaryBlocks) + [p]
      ensures LinksOk(blocks) && FreeListsOk(blocks, freePrimaryBlocks, freeSecondaryBlocks, claimed)
      ensures TreeShrunk(old(blocks), old(cachedBlocksRoot), blocks, cachedBlocksRoot)
      ensures !blocks[b].queued
      ensures forall x :: 0 <= x < |blocks| ==> blocks[x].refCount == old(blocks[x].refCount)
      ensures allocatedBlocksPerSeq == old(allocatedBlocksPerSeq) && GetCounters() == old(GetCounters())
      ensures forall x :: x in freePrimaryBlocks ==> x in old(freePrimaryBlocks)
    {
      if !onboardBlocks || IsPrimary(blocks[b]) {
        return true;
      }
      UnqueuedNotInQueues(blocks, freePrimaryBlocks, freeSecondaryBlocks, claimed, b);
      var r := GetFreeBlock(claimed);
      if r.Failure? {
        return false;
      }
      var p := r.value;
      assert p != b;
      ghost var blocks1 := blocks;
      SwapIntoPrimary(b, p, claimed);
      TreeShrunkTrans(old(blocks), old(cachedBlocksRoot), blocks1, cachedBlocksRoot, blocks, cachedBlocksRoot);
      ok := true;
    }

    /**
      The second half of onboarding: the evicted primary block p lends its
      offset to b and waits in the secondary queue with b's old offset.
    */
    method SwapIntoPrimary(b: nat, p: nat, ghost claimed: set<nat>)
      requires b < |blocks| && p < |blocks| && b != p
      requires LinksOk(blocks) && FreeListsOk(blocks, freePrimaryBlocks, freeSecondaryBlocks, claimed + {p})
      requires !blocks[b].queued && !blocks[p].queued && blocks[p].refCount == 0 && IsPrimary(blocks[p]) && !IsPrimary(blocks[b])
      modifies this
      ensures blocks == SwapOffsets(old(blocks), b, p) && freeSecondaryBlocks == old(freeSecondaryBlocks) + [p]
      ensures LinksOk(blocks) && FreeListsOk(blocks, freePrimaryBlocks, freeSecondaryBlocks, claimed)
      ensures TreeSame(old(blocks), cachedBlocksRoot, blocks, cachedBlocksRoot) && IsPrimary(blocks[b]) && !blocks[b].queued
      ensures forall x :: 0 <= x < |blocks| ==> blocks[x].refCount == old(blocks[x].refCount)
      ensures freePrimaryBlocks == old(freePrimaryBlocks) && cachedBlocksRoot == old(cachedBlocksRoot)
      ensures allocatedBlocksPerSeq == old(allocatedBlocksPerSeq) && GetCounters() == old(GetCounters())
    {
      SwapKeepsFreeLists(blocks, freePrimaryBlocks, freeSecondaryBlocks, claimed, b, p);
      blocks := SwapOffsets(blocks, b, p);
      freeSecondaryBlocks := freeSecondaryBlocks + [p];
    }

    /**
      addBlockToBeam: the sequence takes a reference to the block, which is
      appended to the beam's block list and to the slot's allocated list.
    */
    method AddBlockToBeam(b: nat, seqReq: GenerationRequest, beamIdx: nat, seqSlotIdx: nat, ghost claimed: set<nat>)
      requires ValidExcept(claimed) && b < |blocks| && !blocks[b].queued
      requires seqReq.Valid() && beamIdx < |seqReq.cacheBlockIds| && seqSlotIdx < |allocatedBlocksPerSeq|
      modifies this, seqReq
      ensures ValidExcept(claimed - {b})
      ensures blocks == old(blocks)[b := old(blocks[b]).(refCount := old(blocks[b].refCount) + 1)]
      ensures allocatedBlocksPerSeq == old(allocatedBlocksPerSeq)[seqSlotIdx := old(allocatedBlocksPerSeq[seqSlotIdx]) + [b]]
      ensures seqReq.Valid()
      ensures seqReq.cacheBlockIds == old(seqReq.cacheBlockIds)[beamIdx := old(seqReq.cacheBlockIds[beamIdx]) + [b]]
      ensures seqReq.seqSlotIdx == old(seqReq.seqSlotIdx) && seqReq.numTokens == old(seqReq.numTokens)
      ensures seqReq.beamWidth == old(seqReq.beamWidth) && seqReq.numPrepopulatedTokens == old(seqReq.numPrepopulatedTokens)
      ensures freePrimaryBlocks == old(freePrimaryBlocks) && freeSecondaryBlocks == old(freeSecondaryBlocks)
      ensures cachedBlocksRoot == old(cachedBlocksRoot) && GetCounters() == old(GetCounters())
      ensures TreeSame(old(blocks), old(cachedBlocksRoot), blocks, cachedBlocksRoot)
    {
      AddToBeamKeepsState(blocks, freePrimaryBlocks, freeSecondaryBlocks, allocatedBlocksPerSeq, claimed, b, seqSlotIdx);
      blocks := blocks[b := blocks[b].(refCount := blocks[b].refCount + 1)];
      allocatedBlocksPerSeq := allocatedBlocksPerSeq[seqSlotIdx := allocatedBlocksPerSeq[seqSlotIdx] + [b]];
      var _ := seqReq.AddCacheBlock(beamIdx, b);
    }

    /** The loop of allocateBlock for a block shared among beams: every beam and the slot's list gain it. */
    method AddToEveryBeam(b: nat, seqReq: GenerationRequest, slot: nat)
      requires ValidExcept({b}) && b < |blocks| && !blocks[b].queued
      requires seqReq.Valid() && |seqReq.cacheBlockIds| > 0 && slot < |allocatedBlocksPerSeq|
      modifies this, seqReq
      ensures Valid() && seqReq.Valid()
      ensures BeamsGained(old(seqReq.cacheBlockIds), seqReq.cacheBlockIds, Copies(b, |seqReq.cacheBlockIds|))
      ensures allocatedBlocksPerSeq
              == old(allocatedBlocksPerSeq)[slot := old(allocatedBlocksPerSeq[slot]) + Copies(b, |seqReq.cacheBlockIds|)]
      ensures seqReq.seqSlotIdx == old(seqReq.seqSlotIdx) && seqReq.numTokens == old(seqReq.numTokens)
      ensures seqReq.beamWidth == old(seqReq.beamWidth) && seqReq.numPrepopulatedTokens == old(seqReq.numPrepopulatedTokens)
      ensures freePrimaryBlocks == old(freePrimaryBlocks) && GetCounters() == old(GetCounters())
    {
      ghost var ids0, a0 := seqReq.cacheBlockIds, allocatedBlocksPerSeq;
      var beamWidth := |seqReq.cacheBlockIds|;
      assert a0[slot] + Copies(b, 0) == a0[slot];
      ShareWithBeam(b, seqReq, slot, 0, ids0, a0, {b});
      var beam := 1;
      while beam < beamWidth
        invariant 1 <= beam <= beamWidth == |seqReq.cacheBlockIds| == |ids0|
        invariant Valid() && seqReq.Valid()
        invariant b < |blocks| && !blocks[b].queued && slot < |allocatedBlocksPerSeq|
        invariant seqReq.seqSlotIdx == old(seqReq.seqSlotIdx) && seqReq.numTokens == old(seqReq.numTokens)
        invariant seqReq.beamWidth == old(seqReq.beamWidth) && seqReq.numPrepopulatedTokens == old(seqReq.numPrepopulatedTokens)
        invariant BeamsGained(ids0, seqReq.cacheBlockIds, Copies(b, beam))
        invariant allocatedBlocksPerSeq == a0[slot := a0[slot] + Copies(b, beam)]
        invariant freePrimaryBlocks == old(freePrimaryBlocks) && GetCounters() == old(GetCounters())
      {
        ShareWithBeam(b, seqReq, slot, beam, ids0, a0, {});
        beam := beam + 1;
      }
    }

    /** One beam of the shared case: beam n takes one more reference to b. */
    method ShareWithBeam(b: nat, seqReq: GenerationRequest, slot: nat, n: nat,
                         ghost ids0: seq<seq<int>>, ghost a0: seq<seq<nat>>, ghost claimed: set<nat>)
      requires ValidExcept(claimed) && claimed <= {b} && b < |blocks| && !blocks[b].queued
      requires seqReq.Valid() && n < |seqReq.cacheBlockIds| && slot < |a0|
      requires BeamsGained(ids0, seqReq.cacheBlockIds, Copies(b, n))
      requires allocatedBlocksPerSeq == a0[slot := a0[slot] + Copies(b, n)]
      modifies this, seqReq
      ensures Valid() && seqReq.Valid() && b < |blocks| && !blocks[b].queued && slot < |allocatedBlocksPerSeq|
      ensures BeamsGained(ids0, seqReq.cacheBlockIds, Copies(b, n + 1))
      ensures allocatedBlocksPerSeq == a0[slot := a0[slot] + Copies(b, n + 1)]
      ensures seqReq.seqSlotIdx == old(seqReq.seqSlotIdx) && seqReq.numTokens == old(seqReq.numTokens)
      ensures seqReq.beamWidth == old(seqReq.beamWidth) && seqReq.numPrepopulatedTokens == old(seqReq.numPrepopulatedTokens)
      ensures freePrimaryBlocks == old(freePrimaryBlocks) && GetCounters() == old(GetCounters())
    {
      ghost var ids1, a1 := seqReq.cacheBlockIds, allocatedBlocksPerSeq;
      AddBlockToBeam(b, seqReq, n, slot, claimed);
      assert claimed - {b} == {};
      SharedStepOk(ids0, ids1, seqReq.cacheBlockIds, a0, a1, allocatedBlocksPerSeq, slot, b, n);
    }

    /**
      The loop of allocateBlock when every beam gets its own block.  The
      blocks taken, in beam order, are `taken`: the beams before |taken| and
      the slot's list gained them, and the primary queue lost them.  The
      loop stops early only when no queued block can be evicted.
    */
    method AddFreshToEveryBeam(seqReq: GenerationRequest, slot: nat) returns (r: Result<(), string>, ghost taken: seq<nat>)
      requires Valid() && seqReq.Valid() && slot < |allocatedBlocksPerSeq|
      modifies this, seqReq
      ensures Valid() && seqReq.Valid()
      ensures BeamsGained(old(seqReq.cacheBlockIds), seqReq.cacheBlockIds, taken)
      ensures allocatedBlocksPerSeq == old(allocatedBlocksPerSeq)[slot := old(allocatedBlocksPerSeq[slot]) + taken]
      ensures TakenFromQueue(old(freePrimaryBlocks), freePrimaryBlocks, taken)
      ensures r.Success? <==> |taken| == |seqReq.cacheBlockIds|
      ensures r.Failure? ==> FirstCandidate(blocks, freePrimaryBlocks).None?
      ensures seqReq.seqSlotIdx == old(seqReq.seqSlotIdx) && seqReq.numTokens == old(seqReq.numTokens)
      ensures seqReq.beamWidth == old(seqReq.beamWidth) && seqReq.numPrepopulatedTokens == old(seqReq.numPrepopulatedTokens)
      ensures GetCounters() == old(GetCounters())
    {
      ghost var ids0, a0, fp0 := seqReq.cacheBlockIds, allocatedBlocksPerSeq, freePrimaryBlocks;
      var beamWidth := |seqReq.cacheBlockIds|;
      taken := [];
      assert a0[slot] + [] == a0[slot];
      var beam := 0;
      while beam < beamWidth
        invariant 0 <= beam <= beamWidth == |seqReq.cacheBlockIds| == |ids0| && |taken| == beam
        invariant Valid() && seqReq.Valid() && slot < |allocatedBlocksPerSeq|
        invariant seqReq.seqSlotIdx == old(seqReq.seqSlotIdx) && seqReq.numTokens == old(seqReq.numTokens)
        invariant seqReq.beamWidth == old(seqReq.beamWidth) && seqReq.numPrepopulatedTokens == old(seqReq.numPrepopulatedTokens)
        invariant BeamsGained(ids0, seqReq.cacheBlockIds, taken)
        invariant allocatedBlocksPerSeq == a0[slot := a0[slot] + taken]
        invariant TakenFromQueue(fp0, freePrimaryBlocks, taken)
        invariant GetCounters() == old(GetCounters())
      {
        ghost var fp1, ids1, a1 := freePrimaryBlocks, seqReq.cacheBlockIds, allocatedBlocksPerSeq;
        assert Distinct(fp1);
        var got := FreshForBeam(seqReq, beam, slot);
        if got.Failure? {
          return Failure(got.error), taken;
        }
        FreshStepOk(ids0, ids1, seqReq.cacheBlockIds, a0, a1, allocatedBlocksPerSeq,
                    fp0, fp1, freePrimaryBlocks, slot, taken, got.value);
        taken := taken + [got.value];
        beam := beam + 1;
      }
      r := Success(());
    }

    /** One beam of that loop: getFreeBlock, then addBlockToBeam with the block it evicted. */
    method FreshForBeam(seqReq: GenerationRequest, beam: nat, slot: nat) returns (r: Result<nat, string>)
      requires Valid() && seqReq.Valid() && beam < |seqReq.cacheBlockIds| && slot < |allocatedBlocksPerSeq|
      modifies this, seqReq
      ensures Valid() && seqReq.Valid()
      ensures r.Failure? ==> unchanged(this) && unchanged(seqReq) && FirstCandidate(blocks, freePrimaryBlocks).None?
      ensures r.Success? ==> old(FirstCandidate(blocks, freePrimaryBlocks)).Some?
                             && r.value == old(FirstCandidate(blocks, freePrimaryBlocks)).value && r.value in old(freePrimaryBlocks)
      ensures r.Success? ==> freePrimaryBlocks == Remove(old(freePrimaryBlocks), r.value)
      ensures r.Success? ==> seqReq.cacheBlockIds == old(seqReq.cacheBlockIds)[beam := old(seqReq.cacheBlockIds[beam]) + [r.value]]
      ensures r.Success? ==> allocatedBlocksPerSeq == old(allocatedBlocksPerSeq)[slot := old(allocatedBlocksPerSeq[slot]) + [r.value]]
      ensures seqReq.seqSlotIdx == old(seqReq.seqSlotIdx) && seqReq.numTokens == old(seqReq.numTokens)
      ensures seqReq.beamWidth == old(seqReq.beamWidth) && seqReq.numPrepopulatedTokens == old(seqReq.numPrepopulatedTokens)
      ensures GetCounters() == old(GetCounters())
    {
      var got := GetFreeBlock({});
      if got.Failure? {
        return Failure(got.error);
      }
      AddBlockToBeam(got.value, seqReq, beam, slot, {got.value});
      assert {got.value} - {got.value} == {};
      r := Success(got.value);
    }

    /** allocateBlock's shared case: getFreeBlock, then the block goes to every beam. */
    method AllocateShared(seqReq: GenerationRequest, slot: nat) returns (r: Result<(), string>, ghost added: seq<nat>)
      requires Valid() && seqReq.Valid() && |seqReq.cacheBlockIds| > 0 && slot < |allocatedBlocksPerSeq|
      modifies this, seqReq
      ensures Valid() && seqReq.Valid()
      ensures r.Failure? ==> unchanged(this) && unchanged(seqReq) && added == []
                             && FirstCandidate(blocks, freePrimaryBlocks).None?
      ensures r.Success? ==>
                var c := old(FirstCandidate(blocks, freePrimaryBlocks));
                c.Some? && added == Copies(c.value, |seqReq.cacheBlockIds|)
                && freePrimaryBlocks == Remove(old(freePrimaryBlocks), c.value)
      ensures BeamsGained(old(seqReq.cacheBlockIds), seqReq.cacheBlockIds, added)
      ensures allocatedBlocksPerSeq == old(allocatedBlocksPerSeq)[slot := old(allocatedBlocksPerSeq[slot]) + added]
      ensures DrawnFrom(old(freePrimaryBlocks), freePrimaryBlocks, added)
      ensures seqReq.seqSlotIdx == old(seqReq.seqSlotIdx) && seqReq.numTokens == old(seqReq.numTokens)
      ensures seqReq.beamWidth == old(seqReq.beamWidth) && seqReq.numPrepopulatedTokens == old(seqReq.numPrepopulatedTokens)
      ensures GetCounters() == old(GetCounters())
    {
      added := [];
      ghost var fp0 := freePrimaryBlocks;
      assert Distinct(fp0);
      var got := GetFreeBlock({});
      if got.Failure? {
        assert allocatedBlocksPerSeq[slot] + [] == allocatedBlocksPerSeq[slot];
        return Failure(got.error), added;
      }
      RemoveFromDistinct(fp0, got.value);
      AddToEveryBeam(got.value, seqReq, slot);
      added := Copies(got.value, |seqReq.cacheBlockIds|);
      r := Success(());
    }

    /**
      allocateBlock: one new block for every beam, or a single block shared
      by all beams.  The free count must cover the blocks needed; otherwise
      the call fails and changes nothing.  The blocks come from
      getFreeBlock, so the call also fails when no queued block can be
      evicted.  `added` lists the blocks the beams gained, in beam order:
      the slot's list gained exactly them and each left the primary queue.
      Unshared, they are pairwise different; shared, they are copies of the
      one block the eviction search chose.  A failure part-way through the
      unshared loop keeps the blocks the first beams already got.
    */
    method AllocateBlock(seqReq: GenerationRequest, shareAmongBeams: bool) returns (r: Result<(), string>, ghost added: seq<nat>)
      requires Valid() && seqReq.Valid() && |seqReq.cacheBlockIds| > 0 && 0 <= seqReq.seqSlotIdx < |allocatedBlocksPerSeq|
      modifies this, seqReq
      ensures Valid() && seqReq.Valid()
      ensures var needed := if shareAmongBeams then 1 else |old(seqReq.cacheBlockIds)|;
              !old(HasFreeBlocks(needed)) ==> r.Failure? && unchanged(this) && unchanged(seqReq)
      ensures BeamsGained(old(seqReq.cacheBlockIds), seqReq.cacheBlockIds, added)
      ensures allocatedBlocksPerSeq == old(allocatedBlocksPerSeq)[old(seqReq.seqSlotIdx) :=
                                         old(allocatedBlocksPerSeq[seqReq.seqSlotIdx]) + added]
      ensures DrawnFrom(old(freePrimaryBlocks), freePrimaryBlocks, added)
      ensures r.Success? <==> |added| == |seqReq.cacheBlockIds|
      ensures !shareAmongBeams ==> TakenFromQueue(old(freePrimaryBlocks), freePrimaryBlocks, added)
      ensures shareAmongBeams && r.Success? ==>
                var c := old(FirstCandidate(blocks, freePrimaryBlocks));
                c.Some? && added == Copies(c.value, |added|) && freePrimaryBlocks == Remove(old(freePrimaryBlocks), c.value)
      ensures shareAmongBeams && r.Failure? ==> unchanged(this) && unchanged(seqReq)
      ensures var needed := if shareAmongBeams then 1 else |old(seqReq.cacheBlockIds)|;
              r.Failure? && old(HasFreeBlocks(needed)) ==> FirstCandidate(blocks, freePrimaryBlocks).None?
      ensures r.Success? ==>
                var needed := if shareAmongBeams then 1 else |old(seqReq.cacheBlockIds)|;
                |freePrimaryBlocks| == |old(freePrimaryBlocks)| - needed
                && allocTotalBlocks == old(allocTotalBlocks) + needed && allocNewBlocks == old(allocNewBlocks) + needed
      ensures r.Failure? ==> allocTotalBlocks == old(allocTotalBlocks) && allocNewBlocks == old(allocNewBlocks)
      ensures seqReq.seqSlotIdx == old(seqReq.seqSlotIdx) && seqReq.numTokens == old(seqReq.numTokens)
      ensures seqReq.beamWidth == old(seqReq.beamWidth) && seqReq.numPrepopulatedTokens == old(seqReq.numPrepopulatedTokens)
      ensures reusedBlocks == old(reusedBlocks) && schedulingNumFreeBlocks == old(schedulingNumFreeBlocks)
    {
      added := [];
      var needed := if shareAmongBeams then 1 else |seqReq.cacheBlockIds|;
      if !HasFreeBlocks(needed) {
        assert allocatedBlocksPerSeq[seqReq.seqSlotIdx] + [] == allocatedBlocksPerSeq[seqReq.seqSlotIdx];
        return Failure("no free blocks left"), added;
      }
      var slot: nat := seqReq.seqSlotIdx;
      if shareAmongBeams {
        r, added := AllocateShared(seqReq, slot);
      } else {
        r, added := AddFreshToEveryBeam(seqReq, slot);
      }
      if r.Failure? {
        return;
      }
      allocTotalBlocks := allocTotalBlocks + needed;
      allocNewBlocks := allocNewBlocks + needed;
      r := Success(());
    }

    /** One allocation of addSequence: allocateBlock, seen through what the loop needs of it. */
    method AllocateForSequence(seqReq: GenerationRequest, shared: bool) returns (r: Result<(), string>, ghost added: seq<nat>)
      requires Valid() && seqReq.Valid() && |seqReq.cacheBlockIds| > 0 && 0 <= seqReq.seqSlotIdx < |allocatedBlocksPerSeq|
      modifies this, seqReq
      ensures Valid() && seqReq.Valid()
      ensures seqReq.seqSlotIdx == old(seqReq.seqSlotIdx) && seqReq.numTokens == old(seqReq.numTokens)
      ensures BeamsGained(old(seqReq.cacheBlockIds), seqReq.cacheBlockIds, added)
      ensures allocatedBlocksPerSeq == old(allocatedBlocksPerSeq)[old(seqReq.seqSlotIdx) :=
                                         old(allocatedBlocksPerSeq[seqReq.seqSlotIdx]) + added]
      ensures DrawnFrom(old(freePrimaryBlocks), freePrimaryBlocks, added)
      ensures r.Success? ==> |added| == |seqReq.cacheBlockIds|
      ensures r.Success? && shared ==> added == Copies(added[0], |added|) && |freePrimaryBlocks| == |old(freePrimaryBlocks)| - 1
      ensures r.Success? && !shared ==> Distinct(added) && |freePrimaryBlocks| == |old(freePrimaryBlocks)| - |added|
    {
      r, added := AllocateBlock(seqReq, shared);
    }

    /**
      addSequence without reuse: numBlocks allocations, each shared among
      the beams except the one at unsharedBlockIdx.  On success every beam
      grew by numBlocks blocks, shaped as SequenceShaped says, and the free
      count dropped by the blocks taken.  Whatever the outcome, the slot's
      list gained exactly the blocks `added`, each taken off the primary
      queue, and every beam kept its old blocks in front; a failure keeps
      what the earlier allocations took.
    */
    method AddSequence(seqReq: GenerationRequest, numBlocks: nat, unsharedBlockIdx: int)
      returns (r: Result<(), string>, ghost added: seq<nat>)
      requires Valid() && seqReq.Valid() && |seqReq.cacheBlockIds| > 0 && 0 <= seqReq.seqSlotIdx < |allocatedBlocksPerSeq|
      modifies this, seqReq
      ensures Valid() && seqReq.Valid() && |seqReq.cacheBlockIds| == |old(seqReq.cacheBlockIds)|
      ensures allocatedBlocksPerSeq == old(allocatedBlocksPerSeq)[old(seqReq.seqSlotIdx) :=
                                         old(allocatedBlocksPerSeq[seqReq.seqSlotIdx]) + added]
      ensures DrawnFrom(old(freePrimaryBlocks), freePrimaryBlocks, added)
      ensures forall beam :: 0 <= beam < |seqReq.cacheBlockIds| ==>
                |old(seqReq.cacheBlockIds[beam])| <= |seqReq.cacheBlockIds[beam]|
                && seqReq.cacheBlockIds[beam][..|old(seqReq.cacheBlockIds[beam])|] == old(seqReq.cacheBlockIds[beam])
      ensures r.Success? ==> SequenceShaped(old(seqReq.cacheBlockIds), seqReq.cacheBlockIds, numBlocks, unsharedBlockIdx)
      ensures r.Success? ==> |added| == numBlocks * |seqReq.cacheBlockIds|
      ensures r.Success? ==>
                |freePrimaryBlocks| == |old(freePrimaryBlocks)| - BlocksForSequence(numBlocks, unsharedBlockIdx, |seqReq.cacheBlockIds|)
      ensures seqReq.seqSlotIdx == old(seqReq.seqSlotIdx) && seqReq.numTokens == old(seqReq.numTokens)
    {
      ghost var ids0, a0, fp0 := seqReq.cacheBlockIds, allocatedBlocksPerSeq, freePrimaryBlocks;
      ghost var slot := seqReq.seqSlotIdx;
      var beamWidth := |seqReq.cacheBlockIds|;
      added := [];
      assert a0[slot] + [] == a0[slot];
      SequenceShapedStart(ids0, unsharedBlockIdx);
      var bi := 0;
      while bi < numBlocks
        invariant 0 <= bi <= numBlocks
        invariant Valid() && seqReq.Valid() && |seqReq.cacheBlockIds| == beamWidth == |ids0|
        invariant seqReq.seqSlotIdx == slot == old(seqReq.seqSlotIdx) && seqReq.numTokens == old(seqReq.numTokens)
        invariant 0 <= slot < |allocatedBlocksPerSeq| == |a0|
        invariant |freePrimaryBlocks| == |fp0| - BlocksForSequence(bi, unsharedBlockIdx, beamWidth)
        invariant SequenceShaped(ids0, seqReq.cacheBlockIds, bi, unsharedBlockIdx)
        invariant allocatedBlocksPerSeq == a0[slot := a0[slot] + added] && |added| == bi * beamWidth
        invariant DrawnFrom(fp0, freePrimaryBlocks, added)
      {
        ghost var ids1, fp1, a1 := seqReq.cacheBlockIds, freePrimaryBlocks, allocatedBlocksPerSeq;
        var step, stepAdded := AllocateForSequence(seqReq, bi != unsharedBlockIdx);
        SlotAndDrawnStep(a0, a1, allocatedBlocksPerSeq, fp0, fp1, freePrimaryBlocks, slot, added, stepAdded);
        if step.Failure? {
          ShapedPrefix(ids0, ids1, seqReq.cacheBlockIds, bi, unsharedBlockIdx, stepAdded);
          return Failure(step.error), added + stepAdded;
        }
        SequenceShapedStep(ids0, ids1, seqReq.cacheBlockIds, bi, unsharedBlockIdx, stepAdded);
        StepCount(bi, unsharedBlockIdx, beamWidth, |added|, |stepAdded|);
        added := added + stepAdded;
        bi := bi + 1;
      }
      ShapedPrefix(ids0, seqReq.cacheBlockIds, seqReq.cacheBlockIds, bi, unsharedBlockIdx, []);
      r := Success(());
    }

    /**
      schedulingReleaseBlocks: only the scheduling reference counts and the
      simulated free count change, as SchedRelease says; the real queues,
      reference counts and tree are untouched.
    */
    method SchedulingReleaseBlocks(seqReq: GenerationRequest)
      requires Valid() && 0 <= seqReq.seqSlotIdx < |allocatedBlocksPerSeq|
      modifies this
      ensures Valid()
      ensures var rel := SchedRelease(old(SchedCounts(blocks)), old(allocatedBlocksPerSeq[seqReq.seqSlotIdx]));
              SchedCounts(blocks) == rel.0 && schedulingNumFreeBlocks == old(schedulingNumFreeBlocks) + rel.1
      ensures |blocks| == |old(blocks)|
      ensures forall b :: 0 <= b < |blocks| ==>
                blocks[b] == old(blocks[b]).(schedulingRefCount := blocks[b].schedulingRefCount)
      ensures cachedBlocksRoot == old(cachedBlocksRoot) && allocatedBlocksPerSeq == old(allocatedBlocksPerSeq)
      ensures freePrimaryBlocks == old(freePrimaryBlocks) && freeSecondaryBlocks == old(freeSecondaryBlocks)
      ensures allocTotalBlocks == old(allocTotalBlocks) && allocNewBlocks == old(allocNewBlocks)
      ensures reusedBlocks == old(reusedBlocks)
    {
      var held := allocatedBlocksPerSeq[seqReq.seqSlotIdx];
      assert forall j :: 0 <= j < |held| ==> held[j] < |blocks|;
      var bs := blocks;
      var free := schedulingNumFreeBlocks;
      var i := 0;
      while i < |held|
        invariant 0 <= i <= |held| && |bs| == |blocks|
        invariant SchedRelease(SchedCounts(bs), held[i..]).0 == SchedRelease(SchedCounts(blocks), held).0
        invariant free + SchedRelease(SchedCounts(bs), held[i..]).1
                  == schedulingNumFreeBlocks + SchedRelease(SchedCounts(blocks), held).1
        invariant forall b :: 0 <= b < |bs| ==> bs[b] == blocks[b].(schedulingRefCount := bs[b].schedulingRefCount)
      {
        var b := held[i];
        assert held[i..][1..] == held[i + 1..];
        ghost var counts := SchedCounts(bs);
        bs := bs[b := bs[b].(schedulingRefCount := bs[b].schedulingRefCount - 1)];
        assert SchedCounts(bs) == counts[b := counts[b] - 1];
        if !(bs[b].schedulingRefCount > 0) {
          free := free + 1;
        }
        i := i + 1;
      }
      assert SameBookkeeping(blocks, bs) && LinksOk(bs);
      BookkeepingTransfer(blocks, bs, freePrimaryBlocks, freeSecondaryBlocks, allocatedBlocksPerSeq, {});
      blocks, schedulingNumFreeBlocks := bs, free;
    }

    /**
      releaseLastBlock: the slot's most recent block is released to the
      front of its free queue (it is reused first), dropped from the slot's
      list, and every beam loses its last block id.
    */
    method ReleaseLastBlock(seqReq: GenerationRequest)
      requires Valid() && seqReq.Valid() && 0 <= seqReq.seqSlotIdx < |allocatedBlocksPerSeq|
      requires allocatedBlocksPerSeq[seqReq.seqSlotIdx] != []
      requires forall beam :: 0 <= beam < |seqReq.cacheBlockIds| ==> seqReq.cacheBlockIds[beam] != []
      modifies this, seqReq
      ensures Valid() && seqReq.Valid()
      ensures seqReq.seqSlotIdx == old(seqReq.seqSlotIdx)
      ensures var slot := old(seqReq.seqSlotIdx);
              var l := old(allocatedBlocksPerSeq[slot]);
              allocatedBlocksPerSeq == old(allocatedBlocksPerSeq)[slot := l[..|l| - 1]]
      ensures var l := old(allocatedBlocksPerSeq[seqReq.seqSlotIdx]);
              var b := l[|l| - 1];
              b < |blocks| == |old(blocks)| && blocks[b].refCount == old(blocks[b].refCount) - 1
              && (blocks[b].refCount == 0 && IsPrimary(old(blocks[b])) ==> freePrimaryBlocks == [b] + old(freePrimaryBlocks))
              && (blocks[b].refCount == 0 && !IsPrimary(old(blocks[b])) ==> freeSecondaryBlocks == [b] + old(freeSecondaryBlocks))
      ensures var l := old(allocatedBlocksPerSeq[seqReq.seqSlotIdx]);
              l[|l| - 1] < |old(blocks)|
              && FreeState(blocks, freePrimaryBlocks, freeSecondaryBlocks)
                 == ReleaseOne(FreeState(old(blocks), old(freePrimaryBlocks), old(freeSecondaryBlocks)), l[|l| - 1], true)
      ensures |seqReq.cacheBlockIds| == |old(seqReq.cacheBlockIds)|
      ensures forall beam :: 0 <= beam < |seqReq.cacheBlockIds| ==>
                seqReq.cacheBlockIds[beam] == old(seqReq.cacheBlockIds[beam])[..|old(seqReq.cacheBlockIds[beam])| - 1]
      ensures cachedBlocksRoot == old(cachedBlocksRoot) && GetCounters() == old(GetCounters())
    {
      var slot: nat := seqReq.seqSlotIdx;
      var lists := allocatedBlocksPerSeq;
      var l := lists[slot];
      var b := l[|l| - 1];
      assert l[|l| - 1] in multiset(l);
      HeldContains(lists, slot);
      ghost var blocks0 := blocks;
      var ok := ReleaseBlock(b, true);
      DropLastKeepsRefs(blocks0, blocks, lists, slot);
      allocatedBlocksPerSeq := lists[slot := l[..|l| - 1]];
      seqReq.RemoveLastBlock();
    }

    /**
      The storing step of storeBlocks: setTokens and setPrevBlock on the
      block, then addNextBlock on the block the walk stands at.
    */
    method LinkBlock(bid: nat, cursor: Link, chunk: seq<TokenId>)
      requires Valid() && bid < |blocks| && cursor != NoLink && (cursor.BlockLink? ==> cursor.idx < |blocks|)
      modifies this
      ensures Valid()
      ensures SameBookkeeping(old(blocks), blocks)
      ensures TreeGrown(old(blocks), old(cachedBlocksRoot), blocks, cachedBlocksRoot)
      ensures chunk in NextAt(blocks, cachedBlocksRoot, cursor)
      ensures chunk !in NextAt(old(blocks), old(cachedBlocksRoot), cursor) ==> NextAt(blocks, cachedBlocksRoot, cursor)[chunk] == bid
      ensures blocks[bid].tokens == chunk && blocks[bid].prev == cursor
      ensures blocks[bid].isFull == (|chunk| == tokensPerBlock)
      ensures freePrimaryBlocks == old(freePrimaryBlocks) && freeSecondaryBlocks == old(freeSecondaryBlocks)
      ensures allocatedBlocksPerSeq == old(allocatedBlocksPerSeq) && GetCounters() == old(GetCounters())
    {
      LinkIntoProps(blocks, cachedBlocksRoot, bid, cursor, chunk, |chunk| == tokensPerBlock);
      BookkeepingTransfer(blocks, LinkInto(blocks, cachedBlocksRoot, bid, cursor, chunk, |chunk| == tokensPerBlock).0,
                          freePrimaryBlocks, freeSecondaryBlocks, allocatedBlocksPerSeq, {});
      var r := LinkInto(blocks, cachedBlocksRoot, bid, cursor, chunk, |chunk| == tokensPerBlock);
      blocks, cachedBlocksRoot := r.0, r.1;
    }

    /** What storeBlocks keeps true after storing the first i chunks (see StoreBlocks). */
    predicate StoreInv(old0: seq<KVCacheBlock>, oldRoot: NextBlocks, chunks: seq<seq<TokenId>>, ids: seq<int>,
                       i: nat, cursor: Link, needMatch: bool)
      reads this
    {
      Valid() && StoreOk(old0, oldRoot, chunks, ids, blocks, cachedBlocksRoot, i, cursor, needMatch)
    }

    /** The storing branch of storeBlocks: chunk i goes into the sequence's block ids[i] under the cursor. */
    method StoreLink(ghost old0: seq<KVCacheBlock>, ghost oldRoot: NextBlocks, chunks: seq<seq<TokenId>>, ids: seq<int>,
                     i: nat, cursor: Link, needMatch: bool)
      requires i < |chunks| && StoreInv(old0, oldRoot, chunks, ids, i, cursor, needMatch)
      requires needMatch ==> i == |MatchFrom(old0, oldRoot, chunks)|
      modifies this
      ensures StoreInv(old0, oldRoot, chunks, ids, i + 1, BlockLink(ids[i]), false)
      ensures freePrimaryBlocks == old(freePrimaryBlocks) && freeSecondaryBlocks == old(freeSecondaryBlocks)
      ensures allocatedBlocksPerSeq == old(allocatedBlocksPerSeq) && GetCounters() == old(GetCounters())
    {
      ghost var blocks0, root0 := blocks, cachedBlocksRoot;
      LinkBlock(ids[i], cursor, chunks[i]);
      StoreLinkOk(old0, oldRoot, chunks, ids, blocks0, root0, blocks, cachedBlocksRoot, i, cursor, needMatch);
    }

    /** One iteration of storeBlocks: follow the match, or store the chunk into the sequence's block. */
    method StoreStep(ghost old0: seq<KVCacheBlock>, ghost oldRoot: NextBlocks, chunks: seq<seq<TokenId>>, ids: seq<int>,
                     i: nat, cursor: Link, needMatch: bool) returns (cursor': Link, needMatch': bool)
      requires i < |chunks| && StoreInv(old0, oldRoot, chunks, ids, i, cursor, needMatch)
      modifies this
      ensures StoreInv(old0, oldRoot, chunks, ids, i + 1, cursor', needMatch')
      ensures freePrimaryBlocks == old(freePrimaryBlocks) && freeSecondaryBlocks == old(freeSecondaryBlocks)
      ensures allocatedBlocksPerSeq == old(allocatedBlocksPerSeq) && GetCounters() == old(GetCounters())
    {
      var matched := if needMatch then FindMatching(blocks, NextAt(blocks, cachedBlocksRoot, cursor), chunks[i]) else None;
      if needMatch {
        WalkStep(old0, oldRoot, blocks, cachedBlocksRoot, chunks, i, NextAt(blocks, cachedBlocksRoot, cursor));
      }
      if matched.Some? {
        cursor' := BlockLink(matched.value);
        needMatch' := needMatch;
      } else {
        StoreLink(old0, oldRoot, chunks, ids, i, cursor, needMatch);
        cursor' := BlockLink(ids[i]);
        needMatch' := false;
      }
    }

    /**
      storeBlocks: walk the tree along the chunks while they match; from the
      first chunk that does not match, each chunk is written into the
      sequence's block at the same position (tokens, full flag, back link)
      and linked under the previous block, or under the root.  The walk up
      to that point is the reuse walk on the tree as it was, the tree only
      gains edges, and the stored blocks form a chain keyed by their chunks.
    */
    method StoreBlocks(chunks: seq<seq<TokenId>>, ids: seq<int>)
      requires Valid()
      requires |ids| >= |chunks| && forall i :: 0 <= i < |chunks| ==> 0 <= ids[i] < |blocks|
      modifies this
      ensures Valid()
      ensures StoredChain(old(blocks), old(cachedBlocksRoot), chunks, ids, blocks, cachedBlocksRoot)
      ensures freePrimaryBlocks == old(freePrimaryBlocks) && freeSecondaryBlocks == old(freeSecondaryBlocks)
      ensures allocatedBlocksPerSeq == old(allocatedBlocksPerSeq) && GetCounters() == old(GetCounters())
    {
      var cursor: Link := RootLink;
      var needMatch := true;
      var i := 0;
      while i < |chunks|
        invariant StoreInv(old(blocks), old(cachedBlocksRoot), chunks, ids, i, cursor, needMatch)
        invariant freePrimaryBlocks == old(freePrimaryBlocks) && freeSecondaryBlocks == old(freeSecondaryBlocks)
        invariant allocatedBlocksPerSeq == old(allocatedBlocksPerSeq) && GetCounters() == old(GetCounters())
      {
        cursor, needMatch := StoreStep(old(blocks), old(cachedBlocksRoot), chunks, ids, i, cursor, needMatch);
        i := i + 1;
      }
      StoreDone(old(blocks), old(cachedBlocksRoot), chunks, ids, blocks, cachedBlocksRoot, cursor, needMatch);
    }

    /** getFreeBlock as the reuse walk sees it: the block taken is in transit and the tree has only shrunk. */
    method TakeFreeBlock() returns (r: Result<nat, string>)
      requires Valid()
      modifies this
      ensures r.Failure? ==> unchanged(this)
      ensures r.Success? ==> ValidExcept({r.value}) && r.value < |blocks| && !blocks[r.value].queued
      ensures TreeShrunk(old(blocks), old(cachedBlocksRoot), blocks, cachedBlocksRoot)
      ensures allocatedBlocksPerSeq == old(allocatedBlocksPerSeq) && GetCounters() == old(GetCounters())
      ensures forall x :: x in freePrimaryBlocks ==> x in old(freePrimaryBlocks)
      ensures r.Success? ==> r.value in old(freePrimaryBlocks) && r.value !in freePrimaryBlocks
      ensures r.Success? ==> forall s :: 0 <= s < |allocatedBlocksPerSeq| ==> r.value !in allocatedBlocksPerSeq[s]
    {
      ghost var blocks0, fp0, fs0 := blocks, freePrimaryBlocks, freeSecondaryBlocks;
      r := GetFreeBlock({});
      if r.Success? {
        RemoveFromDistinct(fp0, r.value);
        forall s | 0 <= s < |allocatedBlocksPerSeq| ensures r.value !in allocatedBlocksPerSeq[s] {
          HeldNotQueued(blocks0, fp0, fs0, allocatedBlocksPerSeq, s);
        }
      }
    }

    /** TakeFreeBlock for the slot's list: the block taken is one more fresh block of it. */
    method TakeFresh(ghost fp0: seq<nat>, ghost start: nat, slot: nat) returns (r: Result<nat, string>)
      requires Valid() && slot < |allocatedBlocksPerSeq|
      requires FreshFrom(fp0, freePrimaryBlocks, allocatedBlocksPerSeq[slot], start)
      modifies this
      ensures r.Failure? ==> unchanged(this)
      ensures r.Success? ==> ValidExcept({r.value}) && r.value < |blocks| && !blocks[r.value].queued
      ensures TreeShrunk(old(blocks), old(cachedBlocksRoot), blocks, cachedBlocksRoot)
      ensures allocatedBlocksPerSeq == old(allocatedBlocksPerSeq) && GetCounters() == old(GetCounters())
      ensures r.Success? ==> FreshFrom(fp0, freePrimaryBlocks, allocatedBlocksPerSeq[slot] + [r.value], start)
    {
      ghost var fpA := freePrimaryBlocks;
      r := TakeFreeBlock();
      if r.Success? {
        FreshFromTake(fp0, fpA, freePrimaryBlocks, allocatedBlocksPerSeq[slot], start, r.value);
      }
    }

    /**
      The claim and onboarding of a matched block, as the reuse walk sees
      them: while the walk has taken no fresh block, the slot's list `a`
      with c appended still has none.
    */
    method ClaimAndOnboard(c: nat, ghost fp0: seq<nat>, ghost a: seq<nat>) returns (ok: bool)
      requires Valid() && c < |blocks|
      requires FreshFrom(fp0, freePrimaryBlocks, a, |a|)
      modifies this
      ensures ValidExcept({c}) && c < |blocks|
      ensures ok ==> !blocks[c].queued
      ensures TreeShrunk(old(blocks), old(cachedBlocksRoot), blocks, cachedBlocksRoot)
      ensures !onboardBlocks ==> TreeSame(old(blocks), old(cachedBlocksRoot), blocks, cachedBlocksRoot)
      ensures allocatedBlocksPerSeq == old(allocatedBlocksPerSeq) && GetCounters() == old(GetCounters())
      ensures forall x :: x in freePrimaryBlocks ==> x in old(freePrimaryBlocks)
      ensures FreshFrom(fp0, freePrimaryBlocks, a + [c], |a| + 1)
    {
      ghost var fpA := freePrimaryBlocks;
      ClaimBlock(c, {});
      ghost var blocksB := blocks;
      ok := OnboardBlock(c, {c});
      TreeShrunkTrans(old(blocks), old(cachedBlocksRoot), blocksB, cachedBlocksRoot, blocks, cachedBlocksRoot);
      FreshFromMatched(fp0, fpA, freePrimaryBlocks, a, c);
    }

    /** addBlockToBeam as the reuse walk sees it: the block in transit joins the beam and the slot's list. */
    method AppendToWalk(x: nat, seqReq: GenerationRequest, beamIdx: nat, slot: nat)
      requires ValidExcept({x}) && x < |blocks| && !blocks[x].queued
      requires seqReq.Valid() && beamIdx < |seqReq.cacheBlockIds| && slot < |allocatedBlocksPerSeq|
      modifies this, seqReq
      ensures Valid() && seqReq.Valid() && slot < |allocatedBlocksPerSeq|
      ensures allocatedBlocksPerSeq[slot] == old(allocatedBlocksPerSeq[slot]) + [x]
      ensures seqReq.cacheBlockIds == old(seqReq.cacheBlockIds)[beamIdx := old(seqReq.cacheBlockIds[beamIdx]) + [x]]
      ensures TreeSame(old(blocks), old(cachedBlocksRoot), blocks, cachedBlocksRoot)
      ensures GetCounters() == old(GetCounters())
      ensures freePrimaryBlocks == old(freePrimaryBlocks) && freeSecondaryBlocks == old(freeSecondaryBlocks)
    {
      AddBlockToBeam(x, seqReq, beamIdx, slot, {x});
      assert {x} - {x} == {};
    }

    /** The allocation counters of one block handed to a sequence: reused from the tree or freshly taken. */
    method CountAllocation(reused: bool)
      requires Valid()
      modifies this
      ensures Valid()
      ensures GetCounters() == if reused then old(GetCounters()).(reusedBlocks := old(reusedBlocks) + 1,
                                                                 allocTotalBlocks := old(allocTotalBlocks) + 1)
                               else old(GetCounters()).(allocNewBlocks := old(allocNewBlocks) + 1,
                                                        allocTotalBlocks := old(allocTotalBlocks) + 1)
      ensures blocks == old(blocks) && cachedBlocksRoot == old(cachedBlocksRoot)
      ensures allocatedBlocksPerSeq == old(allocatedBlocksPerSeq)
      ensures freePrimaryBlocks == old(freePrimaryBlocks) && freeSecondaryBlocks == old(freeSecondaryBlocks)
    {
      if reused {
        reusedBlocks := reusedBlocks + 1;
      } else {
        allocNewBlocks := allocNewBlocks + 1;
      }
      allocTotalBlocks := allocTotalBlocks + 1;
    }

    /**
      What loadOrAllocateBlocks keeps true after handling the first i chunks
      (see WalkOk and FreshFrom).  The conjunction is compared with `true` so that the
      verifier checks it as one fact instead of one obligation per conjunct
      of Valid and WalkOk.
    */
    predicate LoadInv(old0: seq<KVCacheBlock>, oldRoot: NextBlocks, held0: seq<nat>, ids0: seq<seq<int>>, counters0: Counters,
                      fp0: seq<nat>, chunks: seq<seq<TokenId>>, seqReq: GenerationRequest, beamIdx: nat, slot: nat,
                      i: nat, m: nat, needMatch: bool, cursor: Link, numMatchedTokens: nat)
      reads this, seqReq
    {
      (Valid() && seqReq.Valid() && slot < |allocatedBlocksPerSeq|
       && WalkOk(old0, oldRoot, held0, ids0, counters0, chunks, beamIdx, onboardBlocks,
                 blocks, cachedBlocksRoot, allocatedBlocksPerSeq[slot], seqReq.cacheBlockIds, GetCounters(),
                 i, m, needMatch, cursor, numMatchedTokens)
       && FreshFrom(fp0, freePrimaryBlocks, allocatedBlocksPerSeq[slot], |held0| + m)) == true
    }

    /** A matching block is claimed, onboarded and added to the beam. */
    method MatchedStep(ghost old0: seq<KVCacheBlock>, ghost oldRoot: NextBlocks, ghost held0: seq<nat>,
                       ghost ids0: seq<seq<int>>, ghost counters0: Counters, ghost fp0: seq<nat>,
                       chunks: seq<seq<TokenId>>, seqReq: GenerationRequest, beamIdx: nat, slot: nat,
                       i: nat, c: nat, cursor: Link, numMatchedTokens: nat) returns (ok: bool)
      requires LoadInv(old0, oldRoot, held0, ids0, counters0, fp0, chunks, seqReq, beamIdx, slot, i, i, true, cursor, numMatchedTokens)
      requires i < |MatchFrom(old0, oldRoot, chunks)| && c == MatchFrom(old0, oldRoot, chunks)[i] && i < |chunks|
      modifies this, seqReq
      ensures ok ==> LoadInv(old0, oldRoot, held0, ids0, counters0, fp0, chunks, seqReq, beamIdx, slot,
                             i + 1, i + 1, true, BlockLink(c), numMatchedTokens + |chunks[i]|)
      ensures !ok ==> ValidExcept({c}) && seqReq.Valid()
    {
      ghost var blocksA, rootA, a, ids, counters := blocks, cachedBlocksRoot, allocatedBlocksPerSeq[slot], seqReq.cacheBlockIds, GetCounters();
      ok := ClaimAndOnboard(c, fp0, a);
      if !ok {
        return;
      }
      ghost var blocksC, rootC := blocks, cachedBlocksRoot;
      AppendToWalk(c, seqReq, beamIdx, slot);
      assert FreshFrom(fp0, freePrimaryBlocks, allocatedBlocksPerSeq[slot], |held0| + i + 1);
      CountAllocation(true);
      WalkMatched(old0, oldRoot, held0, ids0, counters0, chunks, beamIdx, onboardBlocks,
                  blocksA, rootA, a, ids, counters, blocksC, rootC, blocks, cachedBlocksRoot,
                  allocatedBlocksPerSeq[slot], seqReq.cacheBlockIds, GetCounters(), i, c, cursor, numMatchedTokens);
    }

    /** No match: matching stops for good and a block from getFreeBlock is added to the beam. */
    method FreshStep(ghost old0: seq<KVCacheBlock>, ghost oldRoot: NextBlocks, ghost held0: seq<nat>,
                     ghost ids0: seq<seq<int>>, ghost counters0: Counters, ghost fp0: seq<nat>,
                     chunks: seq<seq<TokenId>>, seqReq: GenerationRequest, beamIdx: nat, slot: nat,
                     i: nat, m: nat, needMatch: bool, cursor: Link, numMatchedTokens: nat) returns (ok: bool)
      requires LoadInv(old0, oldRoot, held0, ids0, counters0, fp0, chunks, seqReq, beamIdx, slot, i, m, needMatch, cursor, numMatchedTokens)
      requires i < |chunks| && (!onboardBlocks ==> m == |MatchFrom(old0, oldRoot, chunks)|)
      modifies this, seqReq
      ensures ok ==> LoadInv(old0, oldRoot, held0, ids0, counters0, fp0, chunks, seqReq, beamIdx, slot,
                             i + 1, m, false, cursor, numMatchedTokens)
      ensures !ok ==> Valid() && seqReq.Valid()
    {
      ghost var blocksA, rootA, a, ids, counters := blocks, cachedBlocksRoot, allocatedBlocksPerSeq[slot], seqReq.cacheBlockIds, GetCounters();
      var got := TakeFresh(fp0, |held0| + m, slot);
      if got.Failure? {
        return false;
      }
      ghost var blocksB, rootB := blocks, cachedBlocksRoot;
      AppendToWalk(got.value, seqReq, beamIdx, slot);
      assert FreshFrom(fp0, freePrimaryBlocks, allocatedBlocksPerSeq[slot], |held0| + m);
      TreeShrunkTrans(blocksA, rootA, blocksB, rootB, blocks, cachedBlocksRoot);
      CountAllocation(false);
      WalkFresh(old0, oldRoot, held0, ids0, counters0, chunks, beamIdx, onboardBlocks,
                blocksA, rootA, a, ids, counters, blocks, cachedBlocksRoot,
                allocatedBlocksPerSeq[slot], seqReq.cacheBlockIds, GetCounters(), i, m, needMatch, cursor, numMatchedTokens, got.value);
      ok := true;
    }

    /** One iteration of loadOrAllocateBlocks: a failure leaves the blocks in `leaked` claimed but unreferenced. */
    method LoadStep(ghost old0: seq<KVCacheBlock>, ghost oldRoot: NextBlocks, ghost held0: seq<nat>,
                    ghost ids0: seq<seq<int>>, ghost counters0: Counters, ghost fp0: seq<nat>,
                    chunks: seq<seq<TokenId>>, seqReq: GenerationRequest, beamIdx: nat, slot: nat,
                    i: nat, m: nat, needMatch: bool, cursor: Link, numMatchedTokens: nat)
      returns (ok: bool, m': nat, needMatch': bool, cursor': Link, numMatchedTokens': nat, ghost leaked: set<nat>)
      requires i < |chunks|
      requires LoadInv(old0, oldRoot, held0, ids0, counters0, fp0, chunks, seqReq, beamIdx, slot, i, m, needMatch, cursor, numMatchedTokens)
      modifies this, seqReq
      ensures ok ==> LoadInv(old0, oldRoot, held0, ids0, counters0, fp0, chunks, seqReq, beamIdx, slot,
                             i + 1, m', needMatch', cursor', numMatchedTokens')
      ensures !ok ==> ValidExcept(leaked) && seqReq.Valid()
    {
      ghost var path := MatchFrom(old0, oldRoot, chunks);
      var here := NextAt(blocks, cachedBlocksRoot, cursor);
      var matched := if needMatch then FindMatching(blocks, here, chunks[i]) else None;
      if needMatch {
        WalkStepShrunk(old0, oldRoot, blocks, cachedBlocksRoot, chunks, i, here);
        if !onboardBlocks {
          WalkStep(old0, oldRoot, blocks, cachedBlocksRoot, chunks, i, here);
        }
      }
      if matched.Some? {
        ok := MatchedStep(old0, oldRoot, held0, ids0, counters0, fp0, chunks, seqReq, beamIdx, slot,
                          i, matched.value, cursor, numMatchedTokens);
        m', needMatch', cursor', numMatchedTokens', leaked := i + 1, true, BlockLink(matched.value), numMatchedTokens + |chunks[i]|, {matched.value};
      } else {
        ok := FreshStep(old0, oldRoot, held0, ids0, counters0, fp0, chunks, seqReq, beamIdx, slot,
                        i, m, needMatch, cursor, numMatchedTokens);
        m', needMatch', cursor', numMatchedTokens', leaked := m, false, cursor, numMatchedTokens, {};
      }
    }

    /** The walk of loadOrAllocateBlocks over every chunk, one LoadStep at a time. */
    method LoadWalk(ghost old0: seq<KVCacheBlock>, ghost oldRoot: NextBlocks, ghost held0: seq<nat>,
                    ghost ids0: seq<seq<int>>, ghost counters0: Counters, ghost fp0: seq<nat>,
                    chunks: seq<seq<TokenId>>, seqReq: GenerationRequest, beamIdx: nat, slot: nat)
      returns (ok: bool, m: nat, needMatch: bool, cursor: Link, numMatchedTokens: nat, ghost leaked: set<nat>)
      requires LoadInv(old0, oldRoot, held0, ids0, counters0, fp0, chunks, seqReq, beamIdx, slot, 0, 0, true, RootLink, 0)
      modifies this, seqReq
      ensures ok ==> LoadInv(old0, oldRoot, held0, ids0, counters0, fp0, chunks, seqReq, beamIdx, slot,
                             |chunks|, m, needMatch, cursor, numMatchedTokens)
      ensures !ok ==> ValidExcept(leaked) && seqReq.Valid()
    {
      var i;
      i, m, needMatch, cursor, numMatchedTokens, leaked := 0, 0, true, RootLink, 0, {};
      while i < |chunks|
        invariant i <= |chunks|
        invariant LoadInv(old0, oldRoot, held0, ids0, counters0, fp0, chunks, seqReq, beamIdx, slot,
                          i, m, needMatch, cursor, numMatchedTokens)
        decreases |chunks| - i
      {
        ok, m, needMatch, cursor, numMatchedTokens, leaked :=
          LoadStep(old0, oldRoot, held0, ids0, counters0, fp0, chunks, seqReq, beamIdx, slot,
                   i, m, needMatch, cursor, numMatchedTokens);
        if !ok {
          return;
        }
        i := i + 1;
      }
      ok := true;
    }

    /**
      loadOrAllocateBlocks: walk the prefix tree along the chunks, reusing
      each full block that matches (claimed, onboarded, added to the beam)
      until the first miss, then add a fresh block for every remaining
      chunk.  The result is the number of tokens in the reused blocks.  If
      the pool runs out part-way the walk stops with an error, keeping the
      blocks added so far.
    */
    method LoadOrAllocateBlocks(chunks: seq<seq<TokenId>>, seqReq: GenerationRequest, beamIdx: nat, slot: nat)
      returns (r: Result<nat, string>, ghost leaked: set<nat>)
      requires Valid() && seqReq.Valid() && beamIdx < |seqReq.cacheBlockIds| && slot < |allocatedBlocksPerSeq|
      modifies this, seqReq
      ensures r.Failure? ==> ValidExcept(leaked) && seqReq.Valid()
      ensures r.Success? ==> Valid() && seqReq.Valid() && slot < |allocatedBlocksPerSeq|
      ensures r.Success? ==>
                ReuseDone(old(blocks), old(cachedBlocksRoot), old(allocatedBlocksPerSeq[slot]), old(seqReq.cacheBlockIds),
                          old(GetCounters()), old(freePrimaryBlocks), chunks, beamIdx, onboardBlocks,
                          blocks, cachedBlocksRoot, allocatedBlocksPerSeq[slot], seqReq.cacheBlockIds, GetCounters(),
                          freePrimaryBlocks, r.value)
      ensures r.Success? ==> forall x :: x in allocatedBlocksPerSeq[slot] ==> x !in freePrimaryBlocks && x !in freeSecondaryBlocks
    {
      ghost var old0, oldRoot, held0, ids0, counters0, fp0 :=
        blocks, cachedBlocksRoot, allocatedBlocksPerSeq[slot], seqReq.cacheBlockIds, GetCounters(), freePrimaryBlocks;
      WalkStart(old0, oldRoot, held0, ids0, counters0, chunks, beamIdx, onboardBlocks);
      var ok, m, needMatch, cursor, numMatchedTokens;
      ok, m, needMatch, cursor, numMatchedTokens, leaked := LoadWalk(old0, oldRoot, held0, ids0, counters0, fp0, chunks, seqReq, beamIdx, slot);
      if !ok {
        return Failure("no free block left"), leaked;
      }
      WalkDone(old0, oldRoot, held0, ids0, counters0, fp0, chunks, beamIdx, onboardBlocks,
               blocks, cachedBlocksRoot, allocatedBlocksPerSeq[slot], seqReq.cacheBlockIds, GetCounters(),
               freePrimaryBlocks, m, needMatch, cursor, numMatchedTokens);
      HeldNotQueued(blocks, freePrimaryBlocks, freeSecondaryBlocks, allocatedBlocksPerSeq, slot);
      r := Success(numMatchedTokens);
    }

    /**
      The releasing loop of releaseBlocks: every block of the list, in
      order, loses one reference and returns to the back of its free queue
      when that was the last one.
    */
    method ReleaseHeld(l: seq<nat>, ghost held: multiset<nat>)
      requires FreeListsOk(blocks, freePrimaryBlocks, freeSecondaryBlocks, {}) && LinksOk(blocks)
      requires RefsMatch(blocks, held) && multiset(l) <= held
      requires forall j :: 0 <= j < |l| ==> l[j] < |blocks|
      modifies this
      ensures ReleaseOk(old(blocks), old(freePrimaryBlocks), old(freeSecondaryBlocks), cachedBlocksRoot, held, l, |l|,
                        blocks, freePrimaryBlocks, freeSecondaryBlocks)
      ensures FreeState(blocks, freePrimaryBlocks, freeSecondaryBlocks)
              == ReleaseAll(FreeState(old(blocks), old(freePrimaryBlocks), old(freeSecondaryBlocks)), l)
      ensures cachedBlocksRoot == old(cachedBlocksRoot)
      ensures allocatedBlocksPerSeq == old(allocatedBlocksPerSeq) && GetCounters() == old(GetCounters())
    {
      ghost var blocks0, fp0, fs0 := blocks, freePrimaryBlocks, freeSecondaryBlocks;
      assert l[..0] == [] && l[0..] == l;
      var i := 0;
      while i < |l|
        invariant ReleaseOk(blocks0, fp0, fs0, cachedBlocksRoot, held, l, i, blocks, freePrimaryBlocks, freeSecondaryBlocks)
        invariant cachedBlocksRoot == old(cachedBlocksRoot)
        invariant allocatedBlocksPerSeq == old(allocatedBlocksPerSeq) && GetCounters() == old(GetCounters())
      {
        ghost var blocksA, fpA, fsA := blocks, freePrimaryBlocks, freeSecondaryBlocks;
        ReleaseNextHeld(blocks0, fp0, fs0, cachedBlocksRoot, held, l, i, blocks, freePrimaryBlocks, freeSecondaryBlocks);
        ReleaseHolding(l[i]);
        ReleaseStepOk(blocks0, fp0, fs0, cachedBlocksRoot, held, l, i, blocksA, fpA, fsA, blocks, freePrimaryBlocks, freeSecondaryBlocks);
        i := i + 1;
      }
      assert l[..|l|] == l;
    }

    /** releaseBlock of a block that is held: its count falls by one and nothing else but the queues changes. */
    method ReleaseHolding(b: nat)
      requires b < |blocks| && blocks[b].refCount > 0
      requires FreeListsOk(blocks, freePrimaryBlocks, freeSecondaryBlocks, {}) && LinksOk(blocks)
      modifies this
      ensures FreeListsOk(blocks, freePrimaryBlocks, freeSecondaryBlocks, {}) && LinksOk(blocks)
      ensures |blocks| == |old(blocks)| && blocks[b].refCount == old(blocks[b].refCount) - 1
      ensures forall x :: 0 <= x < |blocks| && x != b ==> blocks[x].refCount == old(blocks[x].refCount)
      ensures forall x :: 0 <= x < |blocks| ==> blocks[x].next == old(blocks[x].next) && blocks[x].isFull == old(blocks[x].isFull)
      ensures FreeState(blocks, freePrimaryBlocks, freeSecondaryBlocks)
              == ReleaseOne(FreeState(old(blocks), old(freePrimaryBlocks), old(freeSecondaryBlocks)), b, false)
      ensures cachedBlocksRoot == old(cachedBlocksRoot)
      ensures allocatedBlocksPerSeq == old(allocatedBlocksPerSeq) && GetCounters() == old(GetCounters())
    {
      var ok := ReleaseBlock(b, false);
    }

    /**
      releaseBlocks: optionally store the sequence's blocks for reuse
      (chunks of its tokens against beam 0's block ids), then release
      every block the sequence holds and clear its block lists.
    */
    method ReleaseBlocks(seqReq: GenerationRequest, stored: Option<seq<seq<TokenId>>>) returns (ghost storedBlocks: seq<KVCacheBlock>)
      requires Valid() && seqReq.Valid() && 0 <= seqReq.seqSlotIdx < |allocatedBlocksPerSeq|
      requires stored.Some? ==> |seqReq.cacheBlockIds| > 0 && |stored.value| <= |seqReq.cacheBlockIds[0]|
                                && forall j :: 0 <= j < |stored.value| ==> 0 <= seqReq.cacheBlockIds[0][j] < |blocks|
      modifies this, seqReq
      ensures Valid() && seqReq.Valid() && seqReq.seqSlotIdx == old(seqReq.seqSlotIdx)
      ensures allocatedBlocksPerSeq == old(allocatedBlocksPerSeq)[old(seqReq.seqSlotIdx) := []]
      ensures |blocks| == |old(blocks)|
      ensures forall b :: 0 <= b < |blocks| ==>
                blocks[b].refCount == old(blocks[b].refCount) - multiset(old(allocatedBlocksPerSeq[seqReq.seqSlotIdx]))[b]
      ensures stored.None? ==> TreeSame(old(blocks), old(cachedBlocksRoot), blocks, cachedBlocksRoot)
      ensures stored.Some? ==> TreeGrown(old(blocks), old(cachedBlocksRoot), blocks, cachedBlocksRoot)
      ensures stored.None? ==> storedBlocks == old(blocks)
      ensures stored.Some? ==> StoredChain(old(blocks), old(cachedBlocksRoot), stored.value, old(seqReq.cacheBlockIds[0]),
                                           storedBlocks, cachedBlocksRoot)
      ensures |storedBlocks| == |old(blocks)| && ListsInRange(old(allocatedBlocksPerSeq), |storedBlocks|)
      ensures FreeState(blocks, freePrimaryBlocks, freeSecondaryBlocks)
              == ReleaseAll(FreeState(storedBlocks, old(freePrimaryBlocks), old(freeSecondaryBlocks)),
                            old(allocatedBlocksPerSeq[seqReq.seqSlotIdx]))
      ensures |seqReq.cacheBlockIds| == |old(seqReq.cacheBlockIds)|
      ensures forall beam :: 0 <= beam < |seqReq.cacheBlockIds| ==> seqReq.cacheBlockIds[beam] == []
      ensures GetCounters() == old(GetCounters())
    {
      var slot: nat := seqReq.seqSlotIdx;
      if stored.Some? {
        StoreBlocks(stored.value, seqReq.cacheBlockIds[0]);
      }
      ghost var blocksS := blocks;
      storedBlocks := blocks;
      var lists := allocatedBlocksPerSeq;
      HeldContains(lists, slot);
      ReleaseHeld(lists[slot], Held(lists));
      assert lists[slot][..|lists[slot]|] == lists[slot];
      ReleaseAllOk(blocksS, lists, slot, blocks, freePrimaryBlocks, freeSecondaryBlocks);
      allocatedBlocksPerSeq := lists[slot := []];
      seqReq.ClearCacheBlocks();
    }

    /**
      addSequence with reuse: the sequence's token chunks go through
      loadOrAllocateBlocks on beam 0 of its slot; the result is the
      prepopulated prompt length handed back to the request.
    */
    method AddSequenceWithReuse(seqReq: GenerationRequest, chunks: seq<seq<TokenId>>) returns (r: Result<nat, string>, ghost leaked: set<nat>)
      requires Valid() && seqReq.Valid() && |seqReq.cacheBlockIds| > 0 && 0 <= seqReq.seqSlotIdx < |allocatedBlocksPerSeq|
      modifies this, seqReq
      ensures r.Failure? ==> ValidExcept(leaked) && seqReq.Valid()
      ensures r.Success? ==> Valid() && seqReq.Valid() && old(seqReq.seqSlotIdx) < |allocatedBlocksPerSeq|
      ensures r.Success? ==>
                ReuseDone(old(blocks), old(cachedBlocksRoot), old(allocatedBlocksPerSeq[seqReq.seqSlotIdx]), old(seqReq.cacheBlockIds),
                          old(GetCounters()), old(freePrimaryBlocks), chunks, 0, onboardBlocks,
                          blocks, cachedBlocksRoot, allocatedBlocksPerSeq[old(seqReq.seqSlotIdx)], seqReq.cacheBlockIds,
                          GetCounters(), freePrimaryBlocks, r.value)
      ensures r.Success? ==> forall x :: x in allocatedBlocksPerSeq[old(seqReq.seqSlotIdx)] ==> x !in freePrimaryBlocks && x !in freeSecondaryBlocks
    {
      r, leaked := LoadOrAllocateBlocks(chunks, seqReq, 0, seqReq.seqSlotIdx);
    }
  }
}
